/** The payment-request document sent to the tax authority:
    `buildFullJsonForMultiple`, `buildDatosGenerales`,
    `buildTramitesForMultiple` and `buildConcepto`. Amounts are centavos
    (so PHP's `round($x, 2)` on them changes nothing); dates arrive already
    formatted. */
module Document {
  import opened Wrappers
  import opened Text
  import opened Catalog
  import opened Fees

  // ------------------------------------------------------------- conceptos

  datatype Transaccion = Transaccion(clave: string, valor: int)

  datatype Concepto = Concepto(
    numeroSecuencia: int,
    claveConcepto: string,
    idAgrupador: int,
    tipoAgrupador: string,
    clavePeriodicidad: string,
    clavePeriodo: string,
    fechaCausacion: string,
    totalContribuciones: int,
    totalConcepto: int,
    transacciones: seq<Transaccion>)

  /** The tax line's fixed concept key. */
  const ClaveIva: string := "130009"

  /** The three transaction codes every concept carries, in order. */
  const ClavesTransaccion: seq<string> := ["4011", "4243", "4423"]

  /** `buildConcepto`: one concept line; its key is the given one, else the
      service's accounting key. */
  function BuildConcepto(secuencia: int, tipoAgrupador: string, t: Tramite, monto: int,
                         claveConcepto: Option<string>, fecha: string): (c: Concepto)
    ensures c.numeroSecuencia == secuencia && c.tipoAgrupador == tipoAgrupador
    ensures c.claveConcepto == (if claveConcepto.Some? then claveConcepto.value else t.claveContable)
    ensures c.idAgrupador == t.agrupador
    ensures c.totalContribuciones == monto && c.totalConcepto == monto
    ensures |c.transacciones| == |ClavesTransaccion|
    ensures forall i :: 0 <= i < |c.transacciones| ==> c.transacciones[i] == Transaccion(ClavesTransaccion[i], monto)
  {
    var txs := [Transaccion("4011", monto), Transaccion("4243", monto), Transaccion("4423", monto)];
    Concepto(secuencia, claveConcepto.GetOr(t.claveContable), t.agrupador, tipoAgrupador,
             t.clavePeriodicidad, t.clavePeriodo, fecha, monto, monto, txs)
  }

  // ------------------------------------------------------------- trámites

  datatype TramiteDoc = TramiteDoc(
    numeroTramite: int,
    homoclave: string,
    variante: string,
    numeroConceptos: int,
    totalTramite: int,
    conceptos: seq<Concepto>)

  /** How many concept lines a priced line produces: the fee, and the tax when taxed. */
  function ConceptCount(l: Line): nat {
    if l.tramite.iva then 2 else 1
  }

  /** The document entry for line `i`; `adj` is the residual on the last
      line and zero elsewhere, `sec` the sequence number of its first concept. */
  function BuildTramite(l: Line, i: nat, sec: int, adj: int, fecha: string): (d: TramiteDoc)
    ensures d.numeroTramite == i + 1
    ensures d.homoclave == l.tramite.claveTramite && d.variante == l.tramite.variante
    ensures d.numeroConceptos == |d.conceptos| == ConceptCount(l)
    ensures d.totalTramite == LineTotal(l) + adj
    ensures d.conceptos[0] == BuildConcepto(sec, "P", l.tramite, Importe(l), None, fecha)
    ensures l.tramite.iva ==>
      d.conceptos[1] == BuildConcepto(sec + 1, "S", l.tramite, IvaOf(l) + adj, Some(ClaveIva), fecha)
  {
    var p := BuildConcepto(sec, "P", l.tramite, Importe(l), None, fecha);
    var cs := if l.tramite.iva
      then [p, BuildConcepto(sec + 1, "S", l.tramite, IvaOf(l) + adj, Some(ClaveIva), fecha)]
      else [p];
    TramiteDoc(i + 1, l.tramite.claveTramite, l.tramite.variante, |cs|, LineTotal(l) + adj, cs)
  }

  /** The loop of `buildTramitesForMultiple` from line `i` on, with the
      running sequence number `sec`. */
  function BuildFrom(ls: seq<Line>, i: nat, sec: int, residual: int, fecha: string): (ds: seq<TramiteDoc>)
    requires i <= |ls|
    ensures |ds| == |ls| - i
    decreases |ls| - i
  {
    if i == |ls| then []
    else
      var adj := if i == |ls| - 1 then residual else 0;
      [BuildTramite(ls[i], i, sec, adj, fecha)] + BuildFrom(ls, i + 1, sec + ConceptCount(ls[i]), residual, fecha)
  }

  /** `buildTramitesForMultiple($tramites, $totalRedondeado)`: entry `i` is
      built from line `i`, numbered after the concepts of the lines before it,
      and only the last entry carries the residual. */
  function BuildTramites(ls: seq<Line>, totalRedondeado: int, fecha: string): (ds: seq<TramiteDoc>)
    ensures |ds| == |ls|
    ensures forall i :: 0 <= i < |ls| ==>
      ds[i] == BuildTramite(ls[i], i, 1 + ConceptsBetween(ls, 0, i),
                            if i == |ls| - 1 then totalRedondeado - SumTotal(ls) else 0, fecha)
  {
    var ds := BuildFrom(ls, 0, 1, totalRedondeado - SumTotal(ls), fecha);
    BuildFromShape(ls, 0, 1, totalRedondeado - SumTotal(ls), fecha);
    ds
  }

  /** Concept lines produced by lines `i` up to (not including) `k`. */
  function ConceptsBetween(ls: seq<Line>, i: nat, k: nat): nat
    requires i <= k <= |ls|
    decreases k - i
  {
    if i == k then 0 else ConceptCount(ls[i]) + ConceptsBetween(ls, i + 1, k)
  }

  lemma BuildFromShape(ls: seq<Line>, i: nat, sec: int, residual: int, fecha: string)
    requires i <= |ls|
    ensures var ds := BuildFrom(ls, i, sec, residual, fecha);
      forall k :: i <= k < |ls| ==>
        ds[k - i] == BuildTramite(ls[k], k, sec + ConceptsBetween(ls, i, k),
                                  if k == |ls| - 1 then residual else 0, fecha)
  {
    forall k | i <= k < |ls|
      ensures BuildFrom(ls, i, sec, residual, fecha)[k - i] ==
        BuildTramite(ls[k], k, sec + ConceptsBetween(ls, i, k), if k == |ls| - 1 then residual else 0, fecha)
    {
      BuildFromAt(ls, i, sec, residual, fecha, k);
    }
  }

  /** Entry `k - i` of the list built from line `i` is built from line `k`. */
  lemma BuildFromAt(ls: seq<Line>, i: nat, sec: int, residual: int, fecha: string, k: nat)
    requires i <= k < |ls|
    ensures BuildFrom(ls, i, sec, residual, fecha)[k - i] ==
      BuildTramite(ls[k], k, sec + ConceptsBetween(ls, i, k), if k == |ls| - 1 then residual else 0, fecha)
  {
    BuildFromDrop(ls, i, sec, residual, fecha, k, sec + ConceptsBetween(ls, i, k));
    assert BuildFrom(ls, i, sec, residual, fecha)[k - i] ==
      BuildFrom(ls, k, sec + ConceptsBetween(ls, i, k), residual, fecha)[0];
  }

  /** Without its first entry, the list built from line `i` is the one built from line `i + 1`. */
  lemma BuildFromTail(ls: seq<Line>, i: nat, sec: int, residual: int, fecha: string)
    requires i < |ls|
    ensures BuildFrom(ls, i, sec, residual, fecha)[1..] == BuildFrom(ls, i + 1, sec + ConceptCount(ls[i]), residual, fecha)
  {
  }

  /** Dropping `n` entries is dropping the first, then `n - 1` more. */
  lemma DropAfterTail<T>(ds: seq<T>, rest: seq<T>, n: nat)
    requires 1 <= n <= |ds| && ds[1..] == rest
    ensures ds[n..] == rest[n - 1..]
  {
  }

  lemma DropNone<T>(ds: seq<T>)
    ensures ds[0..] == ds
  {
  }

  /** Dropping the entries of lines `i` to `k - 1` leaves the list built from
      line `k`, numbered after their concepts (`secK`). */
  lemma {:induction false} BuildFromDrop(ls: seq<Line>, i: nat, sec: int, residual: int, fecha: string, k: nat, secK: int)
    requires i <= k <= |ls| && secK == sec + ConceptsBetween(ls, i, k)
    ensures BuildFrom(ls, i, sec, residual, fecha)[k - i..] == BuildFrom(ls, k, secK, residual, fecha)
    decreases k - i
  {
    if i < k {
      var sec' := sec + ConceptCount(ls[i]);
      assert ConceptsBetween(ls, i, k) == ConceptCount(ls[i]) + ConceptsBetween(ls, i + 1, k);
      BuildFromDrop(ls, i + 1, sec', residual, fecha, k, secK);
      BuildFromTail(ls, i, sec, residual, fecha);
      DropAfterTail(BuildFrom(ls, i, sec, residual, fecha), BuildFrom(ls, i + 1, sec', residual, fecha), k - i);
    } else {
      assert ConceptsBetween(ls, i, k) == 0;
      DropNone(BuildFrom(ls, i, sec, residual, fecha));
    }
  }

  // ------------------------------------------------------- derived facts

  /** All concepts of a document, in order. */
  function AllConceptos(ds: seq<TramiteDoc>): seq<Concepto> {
    if |ds| == 0 then [] else ds[0].conceptos + AllConceptos(ds[1..])
  }

  function SumTotalTramite(ds: seq<TramiteDoc>): int {
    if |ds| == 0 then 0 else ds[0].totalTramite + SumTotalTramite(ds[1..])
  }

  function SumTotalConcepto(cs: seq<Concepto>): int {
    if |cs| == 0 then 0 else cs[0].totalConcepto + SumTotalConcepto(cs[1..])
  }

  /** Sequence numbers run 1, 2, 3, ... across all concepts of all services. */
  lemma {:induction false} SequenceNumbersConsecutive(ls: seq<Line>, i: nat, sec: int, residual: int, fecha: string)
    requires i <= |ls|
    ensures forall m :: 0 <= m < |AllConceptos(BuildFrom(ls, i, sec, residual, fecha))| ==>
      AllConceptos(BuildFrom(ls, i, sec, residual, fecha))[m].numeroSecuencia == sec + m
    decreases |ls| - i
  {
    if i < |ls| {
      var ds := BuildFrom(ls, i, sec, residual, fecha);
      var sec' := sec + ConceptCount(ls[i]);
      var rest := BuildFrom(ls, i + 1, sec', residual, fecha);
      assert ds[1..] == rest;
      SequenceNumbersConsecutive(ls, i + 1, sec', residual, fecha);
      var rc := AllConceptos(rest);
      assert forall m' :: 0 <= m' < |rc| ==> rc[m'].numeroSecuencia == sec' + m';
      var adj := if i == |ls| - 1 then residual else 0;
      assert ds[0] == BuildTramite(ls[i], i, sec, adj, fecha);
      var head := ds[0].conceptos;
      assert |head| == ConceptCount(ls[i]);
      assert head[0].numeroSecuencia == sec;
      assert |head| == 2 ==> head[1].numeroSecuencia == sec + 1;
      var cs := AllConceptos(ds);
      assert cs == head + AllConceptos(rest);
      forall m | 0 <= m < |cs|
        ensures cs[m].numeroSecuencia == sec + m
      {
        if m >= |head| {
          assert cs[m] == AllConceptos(rest)[m - |head|];
          assert rc[m - |head|].numeroSecuencia == sec' + (m - |head|);
        } else {
          assert cs[m] == head[m];
        }
      }
    }
  }

  /** The service totals add up to the rounded grand total, whatever the
      lines: the residual lands on the last one. */
  lemma {:induction false} TotalTramiteSum(ls: seq<Line>, i: nat, sec: int, residual: int, fecha: string)
    requires i < |ls|
    ensures SumTotalTramite(BuildFrom(ls, i, sec, residual, fecha)) == SumTotal(ls[i..]) + residual
    decreases |ls| - i
  {
    var ds := BuildFrom(ls, i, sec, residual, fecha);
    assert ls[i..][1..] == ls[i + 1..];
    if i + 1 < |ls| {
      TotalTramiteSum(ls, i + 1, sec + ConceptCount(ls[i]), residual, fecha);
      assert ds[1..] == BuildFrom(ls, i + 1, sec + ConceptCount(ls[i]), residual, fecha);
    } else {
      assert ds[1..] == [];
      assert ls[i + 1..] == [];
    }
  }

  /** With at least one service, the `TotalTramite` values sum to `importe_total`. */
  lemma TotalTramiteSumsToTotal(ls: seq<Line>, fecha: string)
    requires |ls| > 0
    ensures SumTotalTramite(BuildTramites(ls, ComputeTotals(ls).importeTotal, fecha)) == ComputeTotals(ls).importeTotal
  {
    var total := ComputeTotals(ls).importeTotal;
    TotalTramiteSum(ls, 0, 1, total - SumTotal(ls), fecha);
    assert ls[0..] == ls;
  }

  /** The concepts of one entry add up to its total exactly when it is not the
      last line, or it is taxed, or there is nothing to adjust: the fee concept
      is never adjusted, so an untaxed last line carries the residual only in
      its `TotalTramite`. */
  lemma ConceptsMatchTramite(l: Line, i: nat, sec: int, adj: int, fecha: string)
    ensures var d := BuildTramite(l, i, sec, adj, fecha);
      SumTotalConcepto(d.conceptos) == d.totalTramite <==> l.tramite.iva || adj == 0
  {
    var d := BuildTramite(l, i, sec, adj, fecha);
    var cs := d.conceptos;
    if l.tramite.iva {
      assert cs[1..][1..] == [];
      assert SumTotalConcepto(cs[1..]) == cs[1].totalConcepto + SumTotalConcepto(cs[1..][1..]);
      assert SumTotalConcepto(cs) == cs[0].totalConcepto + cs[1].totalConcepto;
    } else {
      assert cs[1..] == [];
      assert SumTotalConcepto(cs) == cs[0].totalConcepto;
    }
  }

  /** Sequence numbers of the whole document run 1, 2, ..., K. */
  lemma DocumentSequenceNumbers(ls: seq<Line>, totalRedondeado: int, fecha: string)
    ensures var cs := AllConceptos(BuildTramites(ls, totalRedondeado, fecha));
      forall m :: 0 <= m < |cs| ==> cs[m].numeroSecuencia == m + 1
  {
    SequenceNumbersConsecutive(ls, 0, 1, totalRedondeado - SumTotal(ls), fecha);
  }

  // ------------------------------------------------------ datos generales

  /** The columns of the persisted `lineas_capturadas` row the document reads. */
  datatype Linea = Linea(
    id: nat,
    tipoPersona: string,
    curp: Option<string>,
    rfc: Option<string>,
    razonSocial: Option<string>,
    nombres: Option<string>,
    apellidoPaterno: Option<string>,
    apellidoMaterno: Option<string>,
    importeTotal: int)

  /** The payer block: names and CURP for an individual ('F'), the legal name otherwise. */
  datatype Payer =
    | PayerF(curp: Option<string>, nombre: Option<string>, apellidoPaterno: Option<string>,
             apellidoMaterno: Option<string>)
    | PayerM(razonSocial: Option<string>)

  datatype DatosLineaCaptura = DatosLineaCaptura(fechaSolicitud: string, importe: int, fechaVigencia: string)

  datatype DatosGenerales = DatosGenerales(
    solicitud: string,
    cveDependencia: string,
    unidadAdministrativa: string,
    tipoPersona: string,
    rfc: Option<string>,
    payer: Payer,
    datosLineaCaptura: DatosLineaCaptura)

  /** `date('y')`: the year's last two digits. */
  function TwoDigitYear(year: nat): (y: string)
    ensures |y| == 2 && AllDigits(y)
    ensures ParseNat(y) == year % 100
  {
    PadLeftKeepsValue(year % 100, 2);
    PadLeft(NatToString(year % 100), 2, '0')
  }

  /** `str_pad($id, 10, '0', STR_PAD_LEFT)`: at least ten digits, never
      truncated, and reading the digits back gives the id. */
  function PaddedId(id: nat): (p: string)
    ensures |p| == if NumDigits(id) > 10 then NumDigits(id) else 10
    ensures AllDigits(p) && ParseNat(p) == id
  {
    PadLeftKeepsValue(id, 10);
    PadLeft(NatToString(id), 10, '0')
  }

  /** The request id: dependency key, administrative unit, two-digit year and
      the zero-padded record id, in that order. */
  function Solicitud(dep: Dependencia, lineaId: nat, year: nat): (s: string)
    ensures |s| == |dep.claveDependencia| + |dep.unidadAdministrativa| + 2 + |PaddedId(lineaId)|
  {
    dep.claveDependencia + dep.unidadAdministrativa + TwoDigitYear(year) + PaddedId(lineaId)
  }

  /** The year and the record id read back from the request id: after the
      dependency key and the unit come two digits holding the year modulo
      100, and then digits holding the record id. */
  lemma SolicitudFields(dep: Dependencia, lineaId: nat, year: nat)
    ensures var s := Solicitud(dep, lineaId, year);
      var k := |dep.claveDependencia| + |dep.unidadAdministrativa|;
      k + 2 <= |s| && s[..k] == dep.claveDependencia + dep.unidadAdministrativa &&
      AllDigits(s[k..k + 2]) && ParseNat(s[k..k + 2]) == year % 100 &&
      AllDigits(s[k + 2..]) && ParseNat(s[k + 2..]) == lineaId
  {
    SliceOfFour(dep.claveDependencia, dep.unidadAdministrativa, TwoDigitYear(year), PaddedId(lineaId));
  }

  /** Each part of four concatenated strings read back at its offset, the third of width two. */
  lemma SliceOfFour(a: string, b: string, c: string, d: string)
    requires |c| == 2
    ensures (a + b + c + d)[..|a| + |b|] == a + b
    ensures (a + b + c + d)[|a| + |b|..|a| + |b| + 2] == c
    ensures (a + b + c + d)[|a| + |b| + 2..] == d
  {
    var s := a + b + c + d;
    assert s == (a + b) + (c + d);
    assert s[..|a| + |b|] == a + b;
    assert s[|a| + |b|..] == c + d;
    assert s[|a| + |b|..|a| + |b| + 2] == (c + d)[..2];
  }

  /** The request id's length: never shorter than the fixed layout, and
      longer only by the id's extra digits. */
  lemma SolicitudLength(dep: Dependencia, lineaId: nat, year: nat)
    ensures |Solicitud(dep, lineaId, year)| ==
      |dep.claveDependencia| + |dep.unidadAdministrativa| + 2 + (if NumDigits(lineaId) > 10 then NumDigits(lineaId) else 10)
  {
  }

  /** `buildDatosGenerales`. */
  function BuildDatosGenerales(solicitud: string, linea: Linea, dep: Dependencia,
                               fechaSolicitud: string, fechaVigencia: string): (d: DatosGenerales)
    ensures d.solicitud == solicitud && d.rfc == linea.rfc && d.tipoPersona == linea.tipoPersona
    ensures d.cveDependencia == dep.claveDependencia && d.unidadAdministrativa == dep.unidadAdministrativa
    ensures d.payer.PayerF? <==> linea.tipoPersona == "F"
    ensures d.payer.PayerF? ==> d.payer == PayerF(linea.curp, linea.nombres, linea.apellidoPaterno, linea.apellidoMaterno)
    ensures d.payer.PayerM? ==> d.payer.razonSocial == linea.razonSocial
    ensures d.datosLineaCaptura.importe == linea.importeTotal
  {
    var payer := if linea.tipoPersona == "F"
      then PayerF(linea.curp, linea.nombres, linea.apellidoPaterno, linea.apellidoMaterno)
      else PayerM(linea.razonSocial);
    DatosGenerales(solicitud, dep.claveDependencia, dep.unidadAdministrativa, linea.tipoPersona, linea.rfc,
                   payer, DatosLineaCaptura(fechaSolicitud, linea.importeTotal, fechaVigencia))
  }

  datatype Documento = Documento(datosGenerales: DatosGenerales, tramites: seq<TramiteDoc>)

  /** `buildFullJsonForMultiple`: the header block and one entry per line,
      reconciled against the record's rounded total. */
  function BuildDocument(linea: Linea, dep: Dependencia, ls: seq<Line>, year: nat,
                         fechaSolicitud: string, fechaVigencia: string, fechaCausacion: string): (doc: Documento)
    ensures doc.datosGenerales.solicitud == Solicitud(dep, linea.id, year)
    ensures doc.datosGenerales.datosLineaCaptura.importe == linea.importeTotal
    ensures doc.tramites == BuildTramites(ls, linea.importeTotal, fechaCausacion)
  {
    Documento(BuildDatosGenerales(Solicitud(dep, linea.id, year), linea, dep, fechaSolicitud, fechaVigencia),
              BuildTramites(ls, linea.importeTotal, fechaCausacion))
  }
}
