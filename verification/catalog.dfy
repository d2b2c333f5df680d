/** The catalog rows the flow reads: dependencies (authorities) and the
    services ("trámites") they charge for, and the queries run against them.
    Money is held in integer centavos. */
module Catalog {
  import opened Wrappers
  import opened Text

  /** A row of `dependencias`. */
  datatype Dependencia = Dependencia(
    id: int,
    nombre: string,
    claveDependencia: string,
    unidadAdministrativa: string)

  /** A row of `tramites`, with the columns the fee and document logic use.
      `cuota` is the unit fee in centavos; `iva` says whether the 16% tax applies. */
  datatype Tramite = Tramite(
    id: int,
    descripcion: string,
    claveTramite: string,
    variante: string,
    claveDependenciaSiglas: string,
    cuota: nat,
    iva: bool,
    claveContable: string,
    agrupador: int,
    tipoAgrupador: string,
    clavePeriodicidad: string,
    clavePeriodo: string)

  /** The two tables, in the order the database returns their rows. */
  datatype Db = Db(dependencias: seq<Dependencia>, tramites: seq<Tramite>)

  /** `Dependencia::findOrFail($id)`: the first row with that id, or nothing
      (the not-found exception). */
  function FindDependencia(deps: seq<Dependencia>, id: int): (r: Option<Dependencia>)
    ensures r.None? <==> forall i :: 0 <= i < |deps| ==> deps[i].id != id
    ensures r.Some? ==> r.value in deps && r.value.id == id
    ensures r.Some? ==>
      (exists i :: 0 <= i < |deps| && deps[i] == r.value && (forall j :: 0 <= j < i ==> deps[j].id != id))
  {
    if |deps| == 0 then None
    else if deps[0].id == id then Some(deps[0])
    else FindDependencia(deps[1..], id)
  }

  /** Rows of `s` kept by `keep`, in their original order. */
  function Filter<T(!new)>(s: seq<T>, keep: T -> bool): (r: seq<T>)
    ensures |r| <= |s|
    ensures forall x :: x in r <==> x in s && keep(x)
    ensures forall x :: multiset(r)[x] == if keep(x) then multiset(s)[x] else 0
  {
    if |s| == 0 then []
    else
      var rest := Filter(s[1..], keep);
      assert s == [s[0]] + s[1..];
      assert multiset(s) == multiset{s[0]} + multiset(s[1..]);
      if keep(s[0]) then [s[0]] + rest else rest
  }

  /** Filtering keeps table order: the rows kept from `a + b` are those kept
      from `a` followed by those kept from `b`. With `FilterOne` this pins the
      result down to the order-preserving sub-list. */
  lemma {:induction false} FilterAppend<T(!new)>(a: seq<T>, b: seq<T>, keep: T -> bool)
    ensures Filter(a + b, keep) == Filter(a, keep) + Filter(b, keep)
  {
    if |a| == 0 {
      assert a + b == b;
    } else {
      TailOfAppend(a, b);
      FilterAppend(a[1..], b, keep);
      FilterUnfold(a + b, keep);
      FilterUnfold(a, keep);
      if keep(a[0]) {
        SeqAssoc([a[0]], Filter(a[1..], keep), Filter(b, keep));
      }
    }
  }

  lemma FilterUnfold<T(!new)>(s: seq<T>, keep: T -> bool)
    requires |s| > 0
    ensures Filter(s, keep) == if keep(s[0]) then [s[0]] + Filter(s[1..], keep) else Filter(s[1..], keep)
  {
  }

  lemma TailOfAppend<T>(a: seq<T>, b: seq<T>)
    requires |a| > 0
    ensures (a + b)[0] == a[0] && (a + b)[1..] == a[1..] + b
  {
  }

  lemma SeqAssoc<T>(x: seq<T>, y: seq<T>, z: seq<T>)
    ensures x + (y + z) == (x + y) + z
  {
  }

  /** A single row is kept exactly when `keep` holds of it. */
  lemma FilterOne<T(!new)>(x: T, keep: T -> bool)
    ensures Filter([x], keep) == if keep(x) then [x] else []
  {
    assert [x][1..] == [];
  }

  /** The `getTramitesByDependencia` query: services of grouping type 'P'
      whose key contains the dependency's key. */
  predicate ListedFor(t: Tramite, claveDependencia: string) {
    Contains(t.claveTramite, claveDependencia) && t.tipoAgrupador == "P"
  }

  function TramitesFor(db: Db, claveDependencia: string): (r: seq<Tramite>)
    ensures forall t :: t in r <==> t in db.tramites && ListedFor(t, claveDependencia)
    ensures forall t :: multiset(r)[t] == if ListedFor(t, claveDependencia) then multiset(db.tramites)[t] else 0
  {
    Filter(db.tramites, t => ListedFor(t, claveDependencia))
  }

  /** The listed services come in table order: splitting the table splits
      the result, and a single row is kept exactly when it is listed. */
  lemma TramitesForTableOrder(deps: seq<Dependencia>, a: seq<Tramite>, b: seq<Tramite>, claveDependencia: string)
    ensures TramitesFor(Db(deps, a + b), claveDependencia)
         == TramitesFor(Db(deps, a), claveDependencia) + TramitesFor(Db(deps, b), claveDependencia)
    ensures |a| == 1 ==> TramitesFor(Db(deps, a), claveDependencia) == if ListedFor(a[0], claveDependencia) then a else []
  {
    FilterAppend(a, b, t => ListedFor(t, claveDependencia));
    if |a| == 1 {
      assert a == [a[0]];
      FilterOne(a[0], t => ListedFor(t, claveDependencia));
    }
  }

  /** `Tramite::whereIn('id', $ids)->get()`: the rows whose id is listed, in
      table order, each at most as often as it is in the table. */
  function TramitesWhereIn(db: Db, ids: seq<int>): (r: seq<Tramite>)
    ensures forall t :: t in r <==> t in db.tramites && t.id in ids
    ensures forall t :: multiset(r)[t] == if t.id in ids then multiset(db.tramites)[t] else 0
  {
    Filter(db.tramites, (t: Tramite) => t.id in ids)
  }

  /** The fetched rows come in table order, whatever the order of `ids`:
      splitting the table splits the result, and a single row is kept exactly
      when its id is requested. */
  lemma TramitesWhereInTableOrder(deps: seq<Dependencia>, a: seq<Tramite>, b: seq<Tramite>, ids: seq<int>)
    ensures TramitesWhereIn(Db(deps, a + b), ids) == TramitesWhereIn(Db(deps, a), ids) + TramitesWhereIn(Db(deps, b), ids)
    ensures |a| == 1 ==> TramitesWhereIn(Db(deps, a), ids) == if a[0].id in ids then a else []
  {
    FilterAppend(a, b, (t: Tramite) => t.id in ids);
    if |a| == 1 {
      assert a == [a[0]];
      FilterOne(a[0], (t: Tramite) => t.id in ids);
    }
  }

  /** Two filters that keep the same rows give the same list. */
  lemma {:induction false} FilterCongruent<T(!new)>(s: seq<T>, p: T -> bool, q: T -> bool)
    requires forall x :: p(x) == q(x)
    ensures Filter(s, p) == Filter(s, q)
  {
    if |s| > 0 {
      FilterCongruent(s[1..], p, q);
    }
  }

  /** Listing is order-blind: permuting the requested ids selects the same rows. */
  lemma WhereInOrderBlind(db: Db, a: seq<int>, b: seq<int>)
    requires multiset(a) == multiset(b)
    ensures TramitesWhereIn(db, a) == TramitesWhereIn(db, b)
  {
    forall x | true
      ensures x in a <==> x in b
    {
      assert x in a <==> x in multiset(a);
      assert x in b <==> x in multiset(b);
    }
    FilterCongruent(db.tramites, (t: Tramite) => t.id in a, (t: Tramite) => t.id in b);
  }
}
