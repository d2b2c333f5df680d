/** Fee arithmetic of `generarLineaCaptura`: per-service amounts, the 16% tax
    rounded to the centavo, the grand total rounded to whole pesos and the
    rounding residual, plus the shaping of the selection into priced lines and
    the stored `tramite_id` string. All amounts are integer centavos. */
module Fees {
  import opened Wrappers
  import opened Text
  import opened Catalog
  import Flow

  // -------------------------------------------------------------- rounding

  /** PHP `round($n / 100)`: to the nearest integer, halves away from zero. */
  function RoundDiv100(n: int): (r: int)
    ensures n >= 0 ==> 100 * r - 50 <= n < 100 * r + 50
    ensures n < 0 ==> 100 * r - 50 < n <= 100 * r + 50
  {
    if n >= 0 then (n + 50) / 100 else -((-n + 50) / 100)
  }

  /** `round($x * 0.16, 2)` for an amount of `x` centavos, in centavos. */
  function Iva(x: int): (r: int)
    ensures 16 * x - 50 <= 100 * r <= 16 * x + 50
    ensures x >= 0 ==> r >= 0
  {
    RoundDiv100(16 * x)
  }

  /** `round($t)` of an amount in pesos, taken and given in centavos. */
  function RoundToPeso(t: int): (r: int)
    ensures r % 100 == 0
    ensures -50 <= r - t <= 50
    ensures t >= 0 ==> -50 < r - t
    ensures t < 0 ==> r - t < 50
  {
    100 * RoundDiv100(t)
  }

  /** Whole-peso amounts are left alone by the rounding. */
  lemma RoundToPesoIdempotent(t: int)
    ensures RoundToPeso(RoundToPeso(t)) == RoundToPeso(t)
  {
  }

  // ----------------------------------------------------------- priced lines

  /** A catalog service with the quantity the user asked for. */
  datatype Line = Line(tramite: Tramite, cantidad: int)

  /** `collect($sel)->firstWhere('id', $id)['cantidad'] ?? 1`. */
  function QuantityFor(sel: seq<Flow.Selected>, id: int): (q: int)
    ensures (forall i :: 0 <= i < |sel| ==> sel[i].id != id) ==> q == 1
    ensures forall i :: 0 <= i < |sel| && sel[i].id == id ==>
      (forall j :: 0 <= j < i ==> sel[j].id != id) ==> q == sel[i].cantidad
  {
    if |sel| == 0 then 1
    else if sel[0].id == id then sel[0].cantidad
    else
      var q := QuantityFor(sel[1..], id);
      assert forall i :: 1 <= i < |sel| ==> sel[i] == sel[1..][i - 1];
      q
  }

  /** The loop that attaches a quantity to each fetched service row. */
  function PriceLines(tramites: seq<Tramite>, sel: seq<Flow.Selected>): (ls: seq<Line>)
    ensures |ls| == |tramites|
    ensures forall i :: 0 <= i < |ls| ==>
      ls[i].tramite == tramites[i] && ls[i].cantidad == QuantityFor(sel, tramites[i].id)
  {
    seq(|tramites|, i requires 0 <= i < |tramites| => Line(tramites[i], QuantityFor(sel, tramites[i].id)))
  }

  function Importe(l: Line): int {
    l.tramite.cuota * l.cantidad
  }

  /** The line's tax: zero for an untaxed service. */
  function IvaOf(l: Line): (r: int)
    ensures !l.tramite.iva ==> r == 0
    ensures l.tramite.iva ==> r == Iva(Importe(l))
  {
    if l.tramite.iva then Iva(Importe(l)) else 0
  }

  function LineTotal(l: Line): int {
    Importe(l) + IvaOf(l)
  }

  function SumCuotas(ls: seq<Line>): int {
    if |ls| == 0 then 0 else Importe(ls[0]) + SumCuotas(ls[1..])
  }

  function SumIva(ls: seq<Line>): int {
    if |ls| == 0 then 0 else IvaOf(ls[0]) + SumIva(ls[1..])
  }

  /** The unrounded total `buildTramitesForMultiple` recomputes line by line. */
  function SumTotal(ls: seq<Line>): int {
    if |ls| == 0 then 0 else LineTotal(ls[0]) + SumTotal(ls[1..])
  }

  /** Summing line totals is summing the fees and the taxes separately. */
  lemma {:induction false} SumTotalSplits(ls: seq<Line>)
    ensures SumTotal(ls) == SumCuotas(ls) + SumIva(ls)
  {
    if |ls| > 0 {
      SumTotalSplits(ls[1..]);
    }
  }

  /** Only taxed lines contribute to the tax sum. */
  lemma {:induction false} SumIvaOfUntaxed(ls: seq<Line>)
    requires forall i :: 0 <= i < |ls| ==> !ls[i].tramite.iva
    ensures SumIva(ls) == 0
  {
    if |ls| > 0 {
      SumIvaOfUntaxed(ls[1..]);
    }
  }

  lemma {:induction false} SumTotalAppend(ls: seq<Line>, l: Line)
    ensures SumTotal(ls + [l]) == SumTotal(ls) + LineTotal(l)
  {
    if |ls| == 0 {
      assert ls + [l] == [l];
    } else {
      assert (ls + [l])[1..] == ls[1..] + [l];
      SumTotalAppend(ls[1..], l);
    }
  }

  /** Appending a line adds its fee `cuota * cantidad` to the fee sum. */
  lemma {:induction false} SumCuotasAppend(ls: seq<Line>, l: Line)
    ensures SumCuotas(ls + [l]) == SumCuotas(ls) + l.tramite.cuota * l.cantidad
  {
    if |ls| == 0 {
      assert ls + [l] == [l];
    } else {
      assert (ls + [l])[1..] == ls[1..] + [l];
      SumCuotasAppend(ls[1..], l);
    }
  }

  /** Appending a line adds its tax to the tax sum: nothing when untaxed. */
  lemma {:induction false} SumIvaAppend(ls: seq<Line>, l: Line)
    ensures SumIva(ls + [l]) == SumIva(ls) + (if l.tramite.iva then Iva(l.tramite.cuota * l.cantidad) else 0)
  {
    if |ls| == 0 {
      assert ls + [l] == [l];
    } else {
      assert (ls + [l])[1..] == ls[1..] + [l];
      SumIvaAppend(ls[1..], l);
    }
  }

  /** The persisted amounts: `importe_cuota`, `importe_iva` and `importe_total`. */
  datatype Totals = Totals(importeCuota: int, importeIva: int, importeTotal: int)

  /** The totals loop of `generarLineaCaptura`: fees and taxes summed, their
      sum rounded to whole pesos. */
  function ComputeTotals(ls: seq<Line>): (t: Totals)
    ensures t.importeTotal % 100 == 0
    ensures -50 <= t.importeTotal - (t.importeCuota + t.importeIva) <= 50
    ensures t.importeCuota + t.importeIva == SumTotal(ls)
    ensures t.importeCuota == SumCuotas(ls) && t.importeIva == SumIva(ls)
    ensures t.importeTotal == RoundToPeso(t.importeCuota + t.importeIva)
  {
    SumTotalSplits(ls);
    Totals(SumCuotas(ls), SumIva(ls), RoundToPeso(SumCuotas(ls) + SumIva(ls)))
  }

  /** The totals loop as the controller runs it: a running fee sum and a
      running tax sum over the lines in order, the tax only on taxed lines,
      then one rounding of their sum to whole pesos. */
  method AccumulateTotals(ls: seq<Line>) returns (t: Totals)
    ensures t == ComputeTotals(ls)
  {
    var totalCuotas, totalIvas := 0, 0;
    for i := 0 to |ls|
      invariant totalCuotas == SumCuotas(ls[..i])
      invariant totalIvas == SumIva(ls[..i])
    {
      var l := ls[i];
      SumCuotasAppend(ls[..i], l);
      SumIvaAppend(ls[..i], l);
      assert ls[..i + 1] == ls[..i] + [l];
      var cuotaTotal := l.tramite.cuota * l.cantidad;
      totalCuotas := totalCuotas + cuotaTotal;
      if l.tramite.iva {
        totalIvas := totalIvas + Iva(cuotaTotal);
      }
    }
    assert ls[..|ls|] == ls;
    t := Totals(totalCuotas, totalIvas, RoundToPeso(totalCuotas + totalIvas));
  }

  /** Half a peso rounds up: one untaxed service of 1.50 is charged 2.00. */
  lemma HalfPesoRoundsUp(t: Tramite)
    requires t.cuota == 150 && !t.iva
    ensures ComputeTotals([Line(t, 1)]).importeTotal == 200
  {
    var ls := [Line(t, 1)];
    assert SumCuotas(ls) == 150 && SumIva(ls) == 0 by {
      assert ls[1..] == [];
    }
  }

  /** What rounding the grand total adds to the exact sum; at most half a peso. */
  function Residual(ls: seq<Line>): (r: int)
    ensures -50 <= r <= 50
    ensures SumTotal(ls) + r == ComputeTotals(ls).importeTotal
  {
    RoundToPeso(SumTotal(ls)) - SumTotal(ls)
  }

  // --------------------------------------------------- stored selection string

  /** One `id:cantidad` entry. */
  function SelectionEntry(s: Flow.Selected): string {
    IntToString(s.id) + ":" + IntToString(s.cantidad)
  }

  /** `tramite_id`: the session's entries as `id:cantidad`, comma separated. */
  function TramiteIdString(sel: seq<Flow.Selected>): string {
    Join(Entries(sel), ",")
  }

  /** One `id:cantidad` entry per selected service, in order. */
  function Entries(sel: seq<Flow.Selected>): (es: seq<string>)
    ensures |es| == |sel|
    ensures forall i :: 0 <= i < |sel| ==> es[i] == SelectionEntry(sel[i])
  {
    if |sel| == 0 then [] else [SelectionEntry(sel[0])] + Entries(sel[1..])
  }

  /** Reads one `id:cantidad` entry back. */
  function ParseEntry(e: string): Option<Flow.Selected> {
    var parts := Split(e, ':');
    if |parts| != 2 then None
    else match (ParseInt(parts[0]), ParseInt(parts[1]))
      case (Some(id), Some(c)) => Some(Flow.Selected(id, c))
      case _ => None
  }

  function ParseEntries(es: seq<string>): Option<seq<Flow.Selected>> {
    if |es| == 0 then Some([])
    else match (ParseEntry(es[0]), ParseEntries(es[1..]))
      case (Some(s), Some(rest)) => Some([s] + rest)
      case _ => None
  }

  /** Reads a stored `tramite_id` string back into the selection. */
  function ParseTramiteIdString(s: string): Option<seq<Flow.Selected>> {
    if s == "" then Some([]) else ParseEntries(Split(s, ','))
  }

  lemma NoSeparatorsInNumber(n: int)
    ensures ',' !in IntToString(n) && ':' !in IntToString(n)
  {
    if n < 0 {
      var d := NatToString(-n);
      assert IntToString(n) == "-" + d;
      assert forall i :: 0 <= i < |d| ==> IsDigit(d[i]);
    } else {
      var d := NatToString(n);
      assert forall i :: 0 <= i < |d| ==> IsDigit(d[i]);
    }
  }

  lemma EntryRoundTrip(s: Flow.Selected)
    ensures ',' !in SelectionEntry(s)
    ensures ParseEntry(SelectionEntry(s)) == Some(s)
  {
    NoSeparatorsInNumber(s.id);
    NoSeparatorsInNumber(s.cantidad);
    var a := IntToString(s.id);
    var b := IntToString(s.cantidad);
    SplitJoin([a, b], ':');
    assert Join([a, b], ":") == SelectionEntry(s);
    ParseIntToString(s.id);
    ParseIntToString(s.cantidad);
  }

  lemma {:induction false} EntriesRoundTrip(sel: seq<Flow.Selected>)
    ensures ParseEntries(Entries(sel)) == Some(sel)
  {
    if |sel| > 0 {
      var e := SelectionEntry(sel[0]);
      var es := Entries(sel[1..]);
      assert Entries(sel) == [e] + es;
      assert ParseEntry(e) == Some(sel[0]) by { EntryRoundTrip(sel[0]); }
      assert ParseEntries(es) == Some(sel[1..]) by { EntriesRoundTrip(sel[1..]); }
      ParseEntriesCons(e, es, sel[0], sel[1..]);
      assert [sel[0]] + sel[1..] == sel;
    }
  }

  lemma ParseEntriesCons(e: string, es: seq<string>, x: Flow.Selected, xs: seq<Flow.Selected>)
    requires ParseEntry(e) == Some(x) && ParseEntries(es) == Some(xs)
    ensures ParseEntries([e] + es) == Some([x] + xs)
  {
    assert ([e] + es)[0] == e && ([e] + es)[1..] == es;
  }

  /** The stored string loses nothing: it reads back as the session's selection. */
  lemma TramiteIdStringRoundTrip(sel: seq<Flow.Selected>)
    ensures ParseTramiteIdString(TramiteIdString(sel)) == Some(sel)
  {
    var es := Entries(sel);
    EntriesRoundTrip(sel);
    if |sel| > 0 {
      forall k | 0 <= k < |es|
        ensures ',' !in es[k]
      {
        EntryRoundTrip(sel[k]);
      }
      SplitJoin(es, ',');
      assert TramiteIdString(sel) != "" by {
        assert ':' in es[0];
        JoinHoldsFirst(es, ",");
      }
    }
  }

  lemma JoinHoldsFirst(parts: seq<string>, sep: string)
    requires |parts| >= 1
    ensures parts[0] <= Join(parts, sep)
  {
  }
}
