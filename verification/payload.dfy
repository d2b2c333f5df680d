/** The PHP array `buildFullJsonForMultiple` returns, as the JSON value
    `json_encode` receives and the tax authority reads: the member names and
    nesting `buildDatosGenerales`, `buildTramitesForMultiple` and
    `buildConcepto` write, with each value's PHP type. Amounts computed with
    `round($x, 2)` are floats; `Importe` is the record's `importe_total`
    under its `decimal:2` cast, a string. */
module Payload {
  import opened Wrappers
  import opened Text
  import opened Json
  import opened Document

  // ------------------------------------------------------- decimal strings

  /** The `decimal:2` cast of an amount of `c` centavos: optional sign,
      whole pesos, a dot and exactly two digits, as "703.00". */
  function Decimal2(c: int): string {
    if c < 0 then "-" + Unsigned2(Magnitude(c)) else Unsigned2(Magnitude(c))
  }

  /** The amount without its sign. */
  function Magnitude(c: int): nat {
    if c < 0 then -c else c
  }

  /** Reads an unsigned "pesos.cc" string back into centavos. */
  function ParseUnsigned2(s: string): Option<int> {
    if |s| >= 4 && s[|s| - 3] == '.' && AllDigits(s[..|s| - 3]) && AllDigits(s[|s| - 2..]) then
      Some(ParseNat(s[..|s| - 3]) * 100 + ParseNat(s[|s| - 2..]))
    else None
  }

  /** Reads a `decimal:2` string back into centavos; nothing when malformed. */
  function ParseDecimal2(s: string): Option<int> {
    var (negative, magnitude) := SplitSign(s);
    match ParseUnsigned2(magnitude)
    case Some(v) => Some(if negative then -v else v)
    case None => None
  }

  /** Whether the text starts with a minus sign, and the text after it. */
  function SplitSign(s: string): (bool, string) {
    if |s| > 0 && s[0] == '-' then (true, s[1..]) else (false, s)
  }

  /** The cent digits: two, zero-padded, reading back as the remainder. */
  lemma CentDigits(a: nat)
    ensures var f := PadLeft(NatToString(a % 100), 2, '0');
      |f| == 2 && AllDigits(f) && ParseNat(f) == a % 100
  {
    PadLeftKeepsValue(a % 100, 2);
    assert NumDigits(a % 100) <= 2;
  }

  /** The unsigned rendering: whole pesos, a dot, two cent digits. */
  function Unsigned2(a: nat): string {
    NatToString(a / 100) + "." + PadLeft(NatToString(a % 100), 2, '0')
  }

  /** An unsigned amount reads back from its rendering, which starts with a digit. */
  lemma UnsignedRoundTrip(a: nat)
    ensures |Unsigned2(a)| > 0 && IsDigit(Unsigned2(a)[0])
    ensures ParseUnsigned2(Unsigned2(a)) == Some(a)
  {
    var w := NatToString(a / 100);
    var f := PadLeft(NatToString(a % 100), 2, '0');
    CentDigits(a);
    var s := w + "." + f;
    assert s == Unsigned2(a);
    assert s[0] == w[0];
    assert s[..|s| - 3] == w;
    assert s[|s| - 2..] == f;
    ParseNatToString(a / 100);
  }

  /** The `decimal:2` string loses nothing: it reads back as the amount. */
  lemma Decimal2RoundTrip(c: int)
    ensures ParseDecimal2(Decimal2(c)) == Some(c)
  {
    if c < 0 {
      NegativeDecimal2(c);
    } else {
      UnsignedDecimal2(Magnitude(c));
    }
  }

  /** A negative amount's rendering is a minus sign before its magnitude's,
      and the sign is read back. */
  lemma NegativeDecimal2(c: int)
    requires c < 0
    ensures ParseDecimal2(Decimal2(c)) == Some(c)
  {
    UnsignedRoundTrip(Magnitude(c));
    MinusSignNegates(Unsigned2(Magnitude(c)), Magnitude(c));
  }

  /** A minus sign before a readable magnitude negates it. */
  lemma MinusSignNegates(u: string, v: nat)
    requires ParseUnsigned2(u) == Some(v)
    ensures ParseDecimal2("-" + u) == Some(-(v as int))
  {
    var s := "-" + u;
    assert s[1..] == u;
    assert SplitSign(s) == (true, u);
  }

  /** An unsigned rendering reads back through the sign test untouched. */
  lemma UnsignedDecimal2(a: nat)
    ensures ParseDecimal2(Unsigned2(a)) == Some(a)
  {
    UnsignedRoundTrip(a);
    var u := Unsigned2(a);
    assert u[0] != '-';
    assert SplitSign(u) == (false, u);
  }

  // ------------------------------------------------------------ the arrays

  function OptString(s: Option<string>): Json {
    if s.Some? then JStr(s.value) else JNull
  }

  function TransaccionJson(t: Transaccion): Json {
    JObj([("ClaveTransaccion", JStr(t.clave)), ("ValorTransaccion", JDec(t.valor))])
  }

  /** `buildConcepto`'s array. */
  function ConceptoJson(c: Concepto): Json {
    JObj([
      ("NumeroSecuencia", JNum(c.numeroSecuencia)),
      ("ClaveConcepto", JStr(c.claveConcepto)),
      ("Agrupador", JObj([("IdAgrupador", JNum(c.idAgrupador)), ("TipoAgrupador", JStr(c.tipoAgrupador))])),
      ("DatosIcep", JObj([
        ("ClavePeriodicidad", JStr(c.clavePeriodicidad)),
        ("ClavePeriodo", JStr(c.clavePeriodo)),
        ("FechaCausacion", JStr(c.fechaCausacion))])),
      ("TotalContribuciones", JDec(c.totalContribuciones)),
      ("TotalConcepto", JDec(c.totalConcepto)),
      ("DP", JObj([("TransaccionP",
        JArr(seq(|c.transacciones|, i requires 0 <= i < |c.transacciones| => TransaccionJson(c.transacciones[i]))))]))
    ])
  }

  /** One entry of `buildTramitesForMultiple`'s `Tramite` list. */
  function TramiteJson(d: TramiteDoc): Json {
    JObj(TramiteHead(d) + [("Conceptos", JObj([("Concepto",
      JArr(seq(|d.conceptos|, i requires 0 <= i < |d.conceptos| => ConceptoJson(d.conceptos[i]))))]))])
  }

  /** The scalar members of a `Tramite` entry, before its `Conceptos`. */
  function TramiteHead(d: TramiteDoc): seq<(string, Json)> {
    [("NumeroTramite", JNum(d.numeroTramite)),
     ("Homoclave", JStr(d.homoclave)),
     ("Variante", JStr(d.variante)),
     ("NumeroConceptos", JNum(d.numeroConceptos)),
     ("TotalTramite", JDec(d.totalTramite))]
  }

  /** The payer's members: CURP and names for 'F', the legal name otherwise. */
  function PayerMembers(p: Payer): seq<(string, Json)> {
    match p
    case PayerF(curp, nombre, paterno, materno) =>
      [("CURP", OptString(curp)), ("Nombre", OptString(nombre)),
       ("ApellidoPaterno", OptString(paterno)), ("ApellidoMaterno", OptString(materno))]
    case PayerM(razonSocial) => [("RazonSocial", OptString(razonSocial))]
  }

  /** The five members every `DatosGenerales` starts with. */
  function FixedMembers(g: DatosGenerales): seq<(string, Json)> {
    [("Solicitud", JStr(g.solicitud)),
     ("CveDependencia", JStr(g.cveDependencia)),
     ("UnidadAdministrativa", JStr(g.unidadAdministrativa)),
     ("TipoPersona", JStr(g.tipoPersona)),
     ("RFC", OptString(g.rfc))]
  }

  /** `DatosLineaCaptura`: the dates as formatted, `Importe` as the record's
      `importe_total` under its `decimal:2` cast. */
  function LineaJson(l: DatosLineaCaptura): Json {
    JObj([
      ("FechaSolicitud", JStr(l.fechaSolicitud)),
      ("Importe", JStr(Decimal2(l.importe))),
      ("FechaVigencia", JStr(l.fechaVigencia))])
  }

  /** `buildDatosGenerales`' array: the five fixed members, the payer's, then
      `DatosLineaCaptura`. */
  function DatosGeneralesJson(g: DatosGenerales): Json {
    JObj(FixedMembers(g) + PayerMembers(g.payer) + [("DatosLineaCaptura", LineaJson(g.datosLineaCaptura))])
  }

  /** `buildFullJsonForMultiple`'s array. */
  function DocumentoJson(d: Documento): Json {
    JObj([
      ("DatosGenerales", DatosGeneralesJson(d.datosGenerales)),
      ("Tramites", JObj([("Tramite",
        JArr(seq(|d.tramites|, i requires 0 <= i < |d.tramites| => TramiteJson(d.tramites[i]))))]))
    ])
  }

  // -------------------------------------------------------------- read back

  /** Each key of a leading block whose keys are pairwise distinct finds its
      own value, whatever follows the block. */
  lemma GetOfDistinctPrefix(a: seq<(string, Json)>, b: seq<(string, Json)>)
    requires forall i, j :: 0 <= i < j < |a| ==> a[i].0 != a[j].0
    ensures forall i :: 0 <= i < |a| ==> Get(JObj(a + b), a[i].0) == a[i].1
  {
    forall i | 0 <= i < |a|
      ensures Get(JObj(a + b), a[i].0) == a[i].1
    {
      FindAt(a, i);
      GetPrefix(a, b, a[i].0);
    }
  }

  /** `DatosGenerales` read back: the five fixed members. */
  lemma DatosGeneralesFixedReadBack(g: DatosGenerales)
    ensures var j := DatosGeneralesJson(g);
      Get(j, "Solicitud") == JStr(g.solicitud) &&
      Get(j, "CveDependencia") == JStr(g.cveDependencia) &&
      Get(j, "UnidadAdministrativa") == JStr(g.unidadAdministrativa) &&
      Get(j, "TipoPersona") == JStr(g.tipoPersona) &&
      Get(j, "RFC") == OptString(g.rfc)
  {
    var a := FixedMembers(g);
    var b := PayerMembers(g.payer) + [("DatosLineaCaptura", LineaJson(g.datosLineaCaptura))];
    var j := JObj(a + b);
    assert DatosGeneralesJson(g) == j;
    assert forall i, k :: 0 <= i < k < |a| ==> |a[i].0| != |a[k].0|;
    GetOfDistinctPrefix(a, b);
    assert Get(j, a[0].0) == a[0].1 && Get(j, a[1].0) == a[1].1 && Get(j, a[2].0) == a[2].1;
    assert Get(j, a[3].0) == a[3].1 && Get(j, a[4].0) == a[4].1;
  }

  /** No member of a `DatosGenerales` array other than the last is named
      `DatosLineaCaptura`. */
  lemma LineaIsLast(g: DatosGenerales)
    ensures var ms := DatosGeneralesJson(g).members;
      forall k :: 0 <= k < |ms| - 1 ==> ms[k].0 != "DatosLineaCaptura"
  {
    var ms := DatosGeneralesJson(g).members;
    forall k | 0 <= k < |ms| - 1
      ensures ms[k].0 != "DatosLineaCaptura"
    {
      assert |ms[k].0| != |"DatosLineaCaptura"|;
    }
  }

  /** `DatosGenerales.DatosLineaCaptura` is the last member. */
  lemma LineaMember(g: DatosGenerales)
    ensures Get(DatosGeneralesJson(g), "DatosLineaCaptura") == LineaJson(g.datosLineaCaptura)
  {
    var ms := DatosGeneralesJson(g).members;
    LineaIsLast(g);
    FindAt(ms, |ms| - 1);
  }

  /** `DatosLineaCaptura` read back: the amount as its `decimal:2` string
      and the two dates. */
  lemma LineaReadBack(g: DatosGenerales)
    ensures var l := Get(DatosGeneralesJson(g), "DatosLineaCaptura");
      l == LineaJson(g.datosLineaCaptura) &&
      Get(l, "Importe") == JStr(Decimal2(g.datosLineaCaptura.importe)) &&
      Get(l, "FechaSolicitud") == JStr(g.datosLineaCaptura.fechaSolicitud) &&
      Get(l, "FechaVigencia") == JStr(g.datosLineaCaptura.fechaVigencia)
  {
    LineaMember(g);
    var a := LineaJson(g.datosLineaCaptura).members;
    var j := JObj(a + []);
    assert a + [] == a;
    assert forall i, k :: 0 <= i < k < |a| ==> |a[i].0| != |a[k].0|;
    GetOfDistinctPrefix(a, []);
    assert Get(j, a[0].0) == a[0].1 && Get(j, a[1].0) == a[1].1 && Get(j, a[2].0) == a[2].1;
  }

  /** The payer's members follow its kind: `CURP` exactly for an individual,
      `RazonSocial` exactly otherwise. */
  lemma PayerReadBack(g: DatosGenerales)
    ensures var j := DatosGeneralesJson(g);
      (Lookup(j, "CURP").Some? <==> g.payer.PayerF?) &&
      (Lookup(j, "RazonSocial").Some? <==> g.payer.PayerM?)
  {
    var ms := DatosGeneralesJson(g).members;
    if g.payer.PayerF? {
      assert ms[5].0 == "CURP";
      forall k | 0 <= k < |ms|
        ensures ms[k].0 != "RazonSocial"
      {
        assert |ms[k].0| != |"RazonSocial"| || ms[k].0[0] != 'R';
      }
    } else {
      assert ms[5].0 == "RazonSocial";
      forall k | 0 <= k < |ms|
        ensures ms[k].0 != "CURP"
      {
        assert |ms[k].0| != |"CURP"|;
      }
    }
  }

  /** A `Concepto` read back: its sequence number and its total. */
  lemma ConceptoReadBack(c: Concepto)
    ensures Get(ConceptoJson(c), "NumeroSecuencia") == JNum(c.numeroSecuencia)
    ensures Get(ConceptoJson(c), "TotalConcepto") == JDec(c.totalConcepto)
  {
    var ms := ConceptoJson(c).members;
    GetMember(ms, 0);
    GetMember(ms, 5);
  }

  /** A `Tramite` entry read back: its number, key, concept count and total. */
  lemma TramiteReadBack(d: TramiteDoc)
    ensures var j := TramiteJson(d);
      Get(j, "NumeroTramite") == JNum(d.numeroTramite) &&
      Get(j, "Homoclave") == JStr(d.homoclave) &&
      Get(j, "NumeroConceptos") == JNum(d.numeroConceptos) &&
      Get(j, "TotalTramite") == JDec(d.totalTramite)
  {
    var a := TramiteHead(d);
    var b := TramiteJson(d).members[|a|..];
    var j := JObj(a + b);
    assert TramiteJson(d) == j;
    assert forall i, k :: 0 <= i < k < |a| ==> |a[i].0| != |a[k].0|;
    GetOfDistinctPrefix(a, b);
    assert Get(j, a[0].0) == a[0].1 && Get(j, a[1].0) == a[1].1;
    assert Get(j, a[3].0) == a[3].1 && Get(j, a[4].0) == a[4].1;
  }

  /** A `Tramite` entry's `Conceptos.Concepto` list: one entry per concept
      line, in order. */
  lemma ConceptosReadBack(d: TramiteDoc)
    ensures var cs := Get(Get(TramiteJson(d), "Conceptos"), "Concepto");
      cs.JArr? && |cs.items| == |d.conceptos| &&
      forall i :: 0 <= i < |d.conceptos| ==> cs.items[i] == ConceptoJson(d.conceptos[i])
  {
    var ms := TramiteJson(d).members;
    assert |ms| == 6 && ms[5].0 == "Conceptos";
    assert forall k :: 0 <= k < 5 ==> ms[k].0 != "Conceptos" by {
      assert forall k :: 0 <= k < 5 ==> ms[k] == TramiteHead(d)[k];
    }
    GetMember(ms, 5);
  }

  /** The body read back: `DatosGenerales` carries the document's header and
      `Tramites.Tramite` lists one entry per service, in order. */
  lemma DocumentoReadBack(d: Documento)
    ensures Get(DocumentoJson(d), "DatosGenerales") == DatosGeneralesJson(d.datosGenerales)
    ensures var ts := Get(Get(DocumentoJson(d), "Tramites"), "Tramite");
      ts.JArr? && |ts.items| == |d.tramites| &&
      forall i :: 0 <= i < |d.tramites| ==> ts.items[i] == TramiteJson(d.tramites[i])
  {
    GetMember(DocumentoJson(d).members, 1);
  }

  /** `$jsonArray['DatosGenerales']['Solicitud']`, which the controller
      copies into the record. */
  function SolicitudOf(j: Json): Json {
    Get(Get(j, "DatosGenerales"), "Solicitud")
  }

  /** `$jsonArray['DatosGenerales']['DatosLineaCaptura']['Importe']`. */
  function ImporteOf(j: Json): Json {
    Get(Get(Get(j, "DatosGenerales"), "DatosLineaCaptura"), "Importe")
  }

  /** The request id and amount the authority reads are the document's. */
  lemma SolicitudAndImporteSent(d: Documento)
    ensures SolicitudOf(DocumentoJson(d)) == JStr(d.datosGenerales.solicitud)
    ensures ImporteOf(DocumentoJson(d)) == JStr(Decimal2(d.datosGenerales.datosLineaCaptura.importe))
  {
    DocumentoReadBack(d);
    DatosGeneralesFixedReadBack(d.datosGenerales);
    LineaReadBack(d.datosGenerales);
  }
}
