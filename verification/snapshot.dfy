/** The `detalle_tramites_snapshot` column: the snapshot `generarLineaCaptura`
    builds before creating the record, and the accessors of the
    `LineasCapturadas` model that read it back. The column is a decoded JSON
    value; amounts in it are centavos. */
module Snapshot {
  import opened Wrappers
  import opened Text
  import opened Json
  import opened Catalog
  import opened Fees

  /** The snapshot entry's quantity and amounts. */
  function AmountMembers(cantidad: int, importe: int, ivaTotal: int, total: int): (ms: seq<(string, Json)>)
    ensures Find(ms, "cantidad") == Some(JNum(cantidad))
    ensures Find(ms, "importe_cuota_total") == Some(JNum(importe))
    ensures Find(ms, "importe_iva_total") == Some(JNum(ivaTotal))
    ensures Find(ms, "importe_total") == Some(JNum(total))
  {
    var ms := [
      ("cantidad", JNum(cantidad)),
      ("importe_cuota_total", JNum(importe)),
      ("importe_iva_total", JNum(ivaTotal)),
      ("importe_total", JNum(total))
    ];
    FindAt(ms, 0);
    FindAt(ms, 1);
    FindAt(ms, 2);
    FindAt(ms, 3);
    ms
  }

  /** The snapshot entry's copy of the service row's identifying, amount and
      accounting columns. The reserved-use, legal, validity, characteristic
      and timestamp columns the controller also copies are not part of
      `Tramite` here. */
  function ColumnMembers(t: Tramite, ivaUnitario: int): seq<(string, Json)> {
    [
      ("tramite_id_original", JNum(t.id)),
      ("descripcion", JStr(t.descripcion)),
      ("clave_tramite", JStr(t.claveTramite)),
      ("variante", JStr(t.variante)),
      ("clave_dependencia_siglas", JStr(t.claveDependenciaSiglas)),
      ("cuota_unitaria", JNum(t.cuota)),
      ("iva_unitario", JNum(ivaUnitario)),
      ("clave_contable", JStr(t.claveContable)),
      ("agrupador", JNum(t.agrupador)),
      ("tipo_agrupador", JStr(t.tipoAgrupador)),
      ("clave_periodicidad", JStr(t.clavePeriodicidad)),
      ("clave_periodo", JStr(t.clavePeriodo))
    ]
  }

  /** The snapshot entry's members. Members are read by key, so their order
      here (amounts first) carries no meaning. */
  function ItemObject(t: Tramite, cantidad: int, importe: int, ivaUnitario: int, ivaTotal: int, total: int): (j: Json)
    ensures Get(j, "cantidad") == JNum(cantidad)
    ensures Get(j, "importe_cuota_total") == JNum(importe)
    ensures Get(j, "importe_iva_total") == JNum(ivaTotal)
    ensures Get(j, "importe_total") == JNum(total)
  {
    var amounts := AmountMembers(cantidad, importe, ivaTotal, total);
    var columns := ColumnMembers(t, ivaUnitario);
    GetPrefix(amounts, columns, "cantidad");
    GetPrefix(amounts, columns, "importe_cuota_total");
    GetPrefix(amounts, columns, "importe_iva_total");
    GetPrefix(amounts, columns, "importe_total");
    JObj(amounts + columns)
  }

  /** One snapshot entry: the service's identifying and accounting columns
      with the line's quantity and amounts. */
  function SnapshotItem(l: Line): (j: Json)
    ensures Get(j, "cantidad") == JNum(l.cantidad)
    ensures Get(j, "importe_cuota_total") == JNum(Importe(l))
    ensures Get(j, "importe_iva_total") == JNum(IvaOf(l))
    ensures Get(j, "importe_total") == JNum(LineTotal(l))
  {
    var t := l.tramite;
    ItemObject(t, l.cantidad, Importe(l), if t.iva then Iva(t.cuota) else 0, IvaOf(l), LineTotal(l))
  }

  /** The snapshot's `resumen`: line count and the three persisted totals. */
  function Resumen(ls: seq<Line>): (j: Json)
    ensures Get(j, "total_tramites_seleccionados") == JNum(|ls|)
    ensures Get(j, "suma_cuotas") == JNum(ComputeTotals(ls).importeCuota)
    ensures Get(j, "suma_iva") == JNum(ComputeTotals(ls).importeIva)
    ensures Get(j, "gran_total") == JNum(ComputeTotals(ls).importeTotal)
  {
    var totals := ComputeTotals(ls);
    var ms := [
      ("total_tramites_seleccionados", JNum(|ls|)),
      ("suma_cuotas", JNum(totals.importeCuota)),
      ("suma_iva", JNum(totals.importeIva)),
      ("gran_total", JNum(totals.importeTotal))
    ];
    GetMember(ms, 0);
    GetMember(ms, 1);
    GetMember(ms, 2);
    GetMember(ms, 3);
    JObj(ms)
  }

  function DependenciaJson(d: Dependencia): Json {
    JObj([
      ("id", JNum(d.id)),
      ("nombre", JStr(d.nombre)),
      ("clave_dependencia", JStr(d.claveDependencia)),
      ("unidad_administrativa", JStr(d.unidadAdministrativa))
    ])
  }

  /** The snapshot's `tramites` array: one entry per priced line, in order. */
  function TramitesJson(ls: seq<Line>): (j: Json)
    ensures j.JArr? && |j.items| == |ls|
    ensures forall i :: 0 <= i < |ls| ==> j.items[i] == SnapshotItem(ls[i])
  {
    JArr(seq(|ls|, i requires 0 <= i < |ls| => SnapshotItem(ls[i])))
  }

  /** The snapshot's top-level members. */
  function SnapshotObject(tramites: Json, resumen: Json, dependencia: Json, fecha: string): (j: Json)
    ensures Get(j, "tramites") == tramites
    ensures Get(j, "resumen") == resumen
    ensures Get(j, "dependencia") == dependencia
  {
    var ms := [
      ("tramites", tramites),
      ("resumen", resumen),
      ("dependencia", dependencia),
      ("fecha_generacion", JStr(fecha))
    ];
    GetMember(ms, 0);
    GetMember(ms, 1);
    GetMember(ms, 2);
    JObj(ms)
  }

  /** The snapshot built in `generarLineaCaptura`; `fecha` is the clock's
      formatted time. */
  function BuildSnapshot(ls: seq<Line>, dep: Dependencia, fecha: string): (j: Json)
    ensures Get(j, "resumen") == Resumen(ls)
    ensures Get(j, "dependencia") == DependenciaJson(dep)
    ensures Get(j, "tramites") == TramitesJson(ls)
  {
    SnapshotObject(TramitesJson(ls), Resumen(ls), DependenciaJson(dep), fecha)
  }

  // ------------------------------------------------------------- accessors

  /** `getTramitesSnapshot`: the `tramites` entry, or null. */
  function GetTramitesSnapshot(snap: Json): (r: Json)
    ensures r == JNull <==> Lookup(snap, "tramites").None? || Lookup(snap, "tramites") == Some(JNull)
    ensures Lookup(snap, "tramites").Some? ==> r == Lookup(snap, "tramites").value
  {
    Get(snap, "tramites")
  }

  /** `getResumenSnapshot`: the `resumen` entry, or null. */
  function GetResumenSnapshot(snap: Json): (r: Json)
    ensures r == JNull <==> Lookup(snap, "resumen").None? || Lookup(snap, "resumen") == Some(JNull)
    ensures Lookup(snap, "resumen").Some? ==> r == Lookup(snap, "resumen").value
  {
    Get(snap, "resumen")
  }

  /** `getDependenciaSnapshot`: the `dependencia` entry, or null. */
  function GetDependenciaSnapshot(snap: Json): (r: Json)
    ensures r == JNull <==> Lookup(snap, "dependencia").None? || Lookup(snap, "dependencia") == Some(JNull)
    ensures Lookup(snap, "dependencia").Some? ==> r == Lookup(snap, "dependencia").value
  {
    Get(snap, "dependencia")
  }

  /** `hasValidSnapshot`: a non-empty snapshot whose `tramites` is a non-empty array. */
  predicate HasValidSnapshot(snap: Json) {
    IsTruthy(snap) && Isset(snap, "tramites") && IsArray(Get(snap, "tramites")) &&
    Count(Get(snap, "tramites")) > 0
  }

  /** A valid snapshot has a present, non-empty list of services. */
  lemma ValidSnapshotHasTramites(snap: Json)
    requires HasValidSnapshot(snap)
    ensures GetTramitesSnapshot(snap) != JNull
    ensures IsArray(GetTramitesSnapshot(snap)) && IsTruthy(GetTramitesSnapshot(snap))
    ensures Lookup(snap, "tramites").Some?
  {
  }

  /** The snapshot the flow writes is valid exactly when at least one service was priced. */
  lemma BuiltSnapshotValid(ls: seq<Line>, dep: Dependencia, fecha: string)
    ensures HasValidSnapshot(BuildSnapshot(ls, dep, fecha)) <==> |ls| > 0
  {
  }

  /** The snapshot's summary repeats the persisted totals. */
  lemma BuiltSnapshotRepeatsTotals(ls: seq<Line>, dep: Dependencia, fecha: string)
    ensures var r := GetResumenSnapshot(BuildSnapshot(ls, dep, fecha));
      Get(r, "suma_cuotas") == JNum(ComputeTotals(ls).importeCuota) &&
      Get(r, "suma_iva") == JNum(ComputeTotals(ls).importeIva) &&
      Get(r, "gran_total") == JNum(ComputeTotals(ls).importeTotal)
  {
  }

  /** A snapshot that is missing, null or not an array has no services. */
  lemma NonArraySnapshot(snap: Json)
    requires !IsArray(snap)
    ensures GetTramitesSnapshot(snap) == JNull && GetResumenSnapshot(snap) == JNull
    ensures !HasValidSnapshot(snap)
  {
  }
}
