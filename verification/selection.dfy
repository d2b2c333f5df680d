/** The service list kept in the browser on the service-selection page: the
    `tramitesSeleccionados` array, its add, remove and quantity events, the
    total it displays, and the hidden inputs it submits. Fees are integer
    centavos here, where the page parses them as floating-point pesos. */
module Selection {
  import opened Wrappers
  import opened Text
  import opened Fees
  import Flow

  const MaxTramites: nat := 10
  const MinCantidad: int := 1
  const MaxCantidad: int := 999

  /** One entry: the option's value, its `data-*` attributes and the quantity. */
  datatype Item = Item(id: string, descripcion: string, cuota: int, iva: string, cantidad: int)

  /** No two entries share an id. */
  predicate DistinctIds(list: seq<Item>) {
    forall i, j :: 0 <= i < j < |list| ==> list[i].id != list[j].id
  }

  /** What every reachable list satisfies. */
  predicate Valid(list: seq<Item>) {
    |list| <= MaxTramites && DistinctIds(list) &&
    forall i :: 0 <= i < |list| ==> list[i].id != "" && MinCantidad <= list[i].cantidad <= MaxCantidad
  }

  predicate HasId(list: seq<Item>, id: string) {
    exists i :: 0 <= i < |list| && list[i].id == id
  }

  // -------------------------------------------------------------------- add

  datatype AddOutcome = Ignored | TooMany | Duplicate | Added

  /** The `change` handler of the select: an empty option does nothing; a
      full list and an id already present are rejected with an alert;
      otherwise the option is appended with quantity 1. */
  function Add(list: seq<Item>, id: string, descripcion: string, cuota: int, iva: string): (r: (seq<Item>, AddOutcome))
    ensures r.1 != Added ==> r.0 == list
    ensures r.1 == Ignored <==> id == ""
    ensures r.1 == TooMany <==> id != "" && |list| >= MaxTramites
    ensures r.1 == Duplicate <==> id != "" && |list| < MaxTramites && HasId(list, id)
    ensures r.1 == Added ==> r.0 == list + [Item(id, descripcion, cuota, iva, 1)]
  {
    if id == "" then (list, Ignored)
    else if |list| >= MaxTramites then (list, TooMany)
    else if HasId(list, id) then (list, Duplicate)
    else (list + [Item(id, descripcion, cuota, iva, 1)], Added)
  }

  const AlertTooMany: string := "No puedes agregar más de 10 trámites."
  const AlertDuplicate: string := "Este trámite ya ha sido agregado a la lista."
  const AlertEmpty: string := "Debes agregar al menos un trámite para poder continuar."

  // ----------------------------------------------------------------- remove

  /** Where `splice(start, 1)` starts: a negative start counts from the end,
      and `NaN` (here `None`) reads as 0. */
  function SpliceStart(len: nat, start: Option<int>): (k: nat)
    ensures k <= len
  {
    match start
    case None => 0
    case Some(s) =>
      if s < 0 then (if len + s < 0 then 0 else len + s)
      else if s > len then len else s
  }

  /** The click handler of a remove button: `splice(parseInt(data-index), 1)`. */
  function Remove(list: seq<Item>, index: Option<int>): (r: seq<Item>)
    ensures var k := SpliceStart(|list|, index);
      (k < |list| ==> r == list[..k] + list[k + 1..]) && (k == |list| ==> r == list)
  {
    var k := SpliceStart(|list|, index);
    if k < |list| then list[..k] + list[k + 1..] else list
  }

  /** Removing a button's own index deletes exactly that entry and keeps the
      others in order. */
  lemma RemoveAt(list: seq<Item>, i: nat)
    requires i < |list|
    ensures |Remove(list, Some(i))| == |list| - 1
    ensures forall j :: 0 <= j < i ==> Remove(list, Some(i))[j] == list[j]
    ensures forall j :: i < j < |list| ==> Remove(list, Some(i))[j - 1] == list[j]
  {
  }

  // --------------------------------------------------------------- quantity

  /** The quantity input's validation: `NaN` (here `None`) or below 1 becomes
      1, above 999 becomes 999, anything else is kept. */
  function Clamp(raw: Option<int>): (q: int)
    ensures MinCantidad <= q <= MaxCantidad
    ensures raw.None? ==> q == MinCantidad
    ensures raw.Some? && raw.value < MinCantidad ==> q == MinCantidad
    ensures raw.Some? && raw.value > MaxCantidad ==> q == MaxCantidad
    ensures raw.Some? && MinCantidad <= raw.value <= MaxCantidad ==> q == raw.value
  {
    match raw
    case None => 1
    case Some(n) => if n < 1 then 1 else if n > 999 then 999 else n
  }

  /** Clamping a clamped quantity changes nothing. */
  lemma ClampIdempotent(raw: Option<int>)
    ensures Clamp(Some(Clamp(raw))) == Clamp(raw)
  {
  }

  /** The `input` handler: the clamped quantity is stored at the input's
      index when an entry exists there; otherwise nothing changes. */
  function SetCantidad(list: seq<Item>, index: Option<int>, raw: Option<int>): (r: seq<Item>)
    ensures |r| == |list|
    ensures index.Some? && 0 <= index.value < |list| ==>
      r == list[index.value := list[index.value].(cantidad := Clamp(raw))]
    ensures !(index.Some? && 0 <= index.value < |list|) ==> r == list
  {
    if index.Some? && 0 <= index.value < |list| then
      list[index.value := list[index.value].(cantidad := Clamp(raw))]
    else list
  }

  // ------------------------------------------------------------- invariant

  datatype Event =
    | Choose(id: string, descripcion: string, cuota: int, iva: string)
    | Quitar(index: Option<int>)
    | Cantidad(index: Option<int>, raw: Option<int>)

  function Apply(list: seq<Item>, e: Event): seq<Item> {
    match e
    case Choose(id, d, c, iva) => Add(list, id, d, c, iva).0
    case Quitar(i) => Remove(list, i)
    case Cantidad(i, raw) => SetCantidad(list, i, raw)
  }

  function Replay(list: seq<Item>, es: seq<Event>): seq<Item>
    decreases |es|
  {
    if |es| == 0 then list else Replay(Apply(list, es[0]), es[1..])
  }

  /** Each event keeps the list valid. */
  lemma ApplyKeepsValid(list: seq<Item>, e: Event)
    requires Valid(list)
    ensures Valid(Apply(list, e))
  {
    match e
    case Choose(id, d, c, iva) =>
      var r := Add(list, id, d, c, iva);
      if r.1 == Added {
        forall i, j | 0 <= i < j < |r.0|
          ensures r.0[i].id != r.0[j].id
        {
          if j == |list| {
            assert r.0[i] == list[i];
          }
        }
      }
    case Quitar(i) =>
      var k := SpliceStart(|list|, i);
      var r := Remove(list, i);
      if k < |list| {
        assert forall a :: 0 <= a < |r| ==> r[a] == if a < k then list[a] else list[a + 1];
      }
    case Cantidad(i, raw) =>
  }

  /** The page's list is valid after any sequence of events from empty. */
  lemma {:induction false} ReplayKeepsValid(list: seq<Item>, es: seq<Event>)
    requires Valid(list)
    ensures Valid(Replay(list, es))
    decreases |es|
  {
    if |es| > 0 {
      ApplyKeepsValid(list, es[0]);
      ReplayKeepsValid(Apply(list, es[0]), es[1..]);
    }
  }

  // ----------------------------------------------------------------- total

  /** `tramite.cantidad || 1`. */
  function CantidadOr1(it: Item): int {
    if it.cantidad == 0 then 1 else it.cantidad
  }

  /** One entry's fee plus its unrounded tax, in hundredths of a centavo. */
  function ExactTotal(it: Item): int {
    var cuotaTotal := it.cuota * CantidadOr1(it);
    100 * cuotaTotal + (if it.iva == "1" then 16 * cuotaTotal else 0)
  }

  function SumExact(list: seq<Item>): int {
    if |list| == 0 then 0 else SumExact(list[..|list| - 1]) + ExactTotal(list[|list| - 1])
  }

  /** `Math.round` of the summed pesos: halves go up. */
  function DisplayPesos(list: seq<Item>): (p: int)
    ensures 10000 * p - 5000 <= SumExact(list) < 10000 * p + 5000
  {
    (SumExact(list) + 5000) / 10000
  }

  function SumCuota(list: seq<Item>): int {
    if |list| == 0 then 0 else SumCuota(list[..|list| - 1]) + list[|list| - 1].cuota * CantidadOr1(list[|list| - 1])
  }

  predicate Untaxed(list: seq<Item>) {
    forall i :: 0 <= i < |list| ==> list[i].iva != "1"
  }

  lemma {:induction false} SumExactUntaxed(list: seq<Item>)
    requires Untaxed(list)
    ensures SumExact(list) == 100 * SumCuota(list)
  {
    if |list| > 0 {
      SumExactUntaxed(list[..|list| - 1]);
    }
  }

  /** Without taxed entries the page shows what the server will charge: the
      fees rounded to whole pesos. */
  lemma DisplayMatchesServerUntaxed(list: seq<Item>)
    requires Untaxed(list) && SumCuota(list) >= 0
    ensures 100 * DisplayPesos(list) == RoundToPeso(SumCuota(list))
  {
    SumExactUntaxed(list);
  }

  /** With a taxed entry the two can differ: the server rounds each tax to
      the centavo before the total, the page does not. A taxed fee of 43
      centavos shows 0 pesos, and the server charges 1 peso. */
  lemma DisplayCanDifferFromServer()
    ensures var list := [Item("1", "", 43, "1", 1)];
      DisplayPesos(list) == 0 && RoundToPeso(43 + Iva(43)) == 100
  {
    var list := [Item("1", "", 43, "1", 1)];
    assert SumExact(list) == ExactTotal(list[0]);
  }

  // ----------------------------------------------------------------- submit

  /** The `Siguiente` click: blocked on an empty list; otherwise one id and
      one quantity input per entry, in list order. */
  function Submit(list: seq<Item>): (r: Option<(seq<string>, seq<int>)>)
    ensures r.None? <==> |list| == 0
    ensures r.Some? ==> |r.value.0| == |list| && |r.value.1| == |list|
    ensures r.Some? ==> forall i :: 0 <= i < |list| ==> r.value.0[i] == list[i].id && r.value.1[i] == CantidadOr1(list[i])
  {
    if |list| == 0 then None
    else Some((seq(|list|, i requires 0 <= i < |list| => list[i].id),
               seq(|list|, i requires 0 <= i < |list| => CantidadOr1(list[i]))))
  }

  /** What the server stores from a submitted valid list: every entry's id
      with its own quantity, in list order. */
  lemma SubmittedSelection(list: seq<Item>, ids: seq<int>)
    requires Valid(list) && |list| > 0
    requires |ids| == |list| && forall i :: 0 <= i < |list| ==> ParseInt(list[i].id) == Some(ids[i])
    ensures var sel := Flow.PairSelection(ids, Submit(list).value.1);
      |sel| == |list| && forall i :: 0 <= i < |list| ==> sel[i] == Flow.Selected(ids[i], list[i].cantidad)
  {
  }
}
