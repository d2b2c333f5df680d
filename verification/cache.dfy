/** `CacheService`: read-through caching of the catalog queries in one
    key/value store, the key scheme, invalidation, and the statistics report.
    The store is a finite map; expiry is recorded as each entry's TTL but the
    passage of time is not modelled. */
module Cache {
  import opened Wrappers
  import opened Text
  import opened Sorting
  import opened Catalog

  const CacheTtl: int := 3600
  const DependenciasKey: string := "dependencias_all"
  const TramitesByDependenciaPrefix: string := "tramites_dependencia_"
  const DependenciaPrefix: string := "dependencia_"
  const TramitesPrefix: string := "tramites_"

  /** What the service stores: the dependency list, a service list or one dependency. */
  datatype Value = Deps(deps: seq<Dependencia>) | Trams(trams: seq<Tramite>) | Dep(dep: Dependencia)

  datatype Entry = Entry(value: Value, ttl: int)

  type Store = map<string, Entry>

  // ------------------------------------------------------------------ keys

  function TramitesByDependenciaKey(id: int): (k: string)
    ensures TramitesByDependenciaPrefix <= k && |k| > |TramitesByDependenciaPrefix|
  {
    TramitesByDependenciaPrefix + IntToString(id)
  }

  function DependenciaKey(id: int): (k: string)
    ensures DependenciaPrefix <= k && |k| > |DependenciaPrefix|
  {
    DependenciaPrefix + IntToString(id)
  }

  /** `implode(',', $sortedIds)`. */
  function IdList(ids: seq<int>): string {
    Join(seq(|ids|, i requires 0 <= i < |ids| => IntToString(ids[i])), ",")
  }

  /** The `getTramites` key: the digest (a parameter here) of the sorted ids. */
  function TramitesKey(md5: string -> string, ids: seq<int>): (k: string)
    ensures TramitesPrefix <= k
  {
    TramitesPrefix + md5(IdList(Sort(ids)))
  }

  /** The key of a list of ids is blind to their order. */
  lemma TramitesKeyOrderBlind(md5: string -> string, a: seq<int>, b: seq<int>)
    requires multiset(a) == multiset(b)
    ensures TramitesKey(md5, a) == TramitesKey(md5, b)
  {
    SortPermutationInvariant(a, b);
  }

  predicate IsHexDigit(c: char) {
    '0' <= c <= '9' || 'a' <= c <= 'f'
  }

  /** An md5 digest as PHP renders it: 32 lower-case hex digits. */
  predicate HexDigest(h: string) {
    |h| == 32 && forall i :: 0 <= i < |h| ==> IsHexDigit(h[i])
  }

  /** The four key families never collide, provided the digest is hex. */
  lemma KeyNamespacesDisjoint(md5: string -> string, ids: seq<int>, a: int, b: int)
    requires HexDigest(md5(IdList(Sort(ids))))
    ensures DependenciasKey != TramitesByDependenciaKey(a)
    ensures DependenciasKey != DependenciaKey(a)
    ensures DependenciasKey != TramitesKey(md5, ids)
    ensures TramitesByDependenciaKey(a) != DependenciaKey(b)
    ensures TramitesByDependenciaKey(a) != TramitesKey(md5, ids)
    ensures DependenciaKey(a) != TramitesKey(md5, ids)
  {
    var h := md5(IdList(Sort(ids)));
    assert DependenciasKey[0] == 'd' && TramitesByDependenciaKey(a)[0] == 't';
    assert DependenciasKey[11] == 's' && DependenciaKey(a)[11] == '_';
    assert TramitesKey(md5, ids)[0] == 't';
    assert DependenciaKey(b)[0] == 'd';
    assert TramitesByDependenciaKey(a)[11] == 'p';
    assert TramitesKey(md5, ids)[11] == h[2];
  }

  // ---------------------------------------------------------- read-through

  /** `Cache::remember`: a hit returns the stored value and leaves the store
      alone; a miss runs the loader and stores what it returns. A loader that
      fails (`None`) stores nothing and the failure propagates. */
  function Remember(store: Store, key: string, loader: Option<Value>): (res: (Option<Value>, Store))
    ensures key in store ==> res == (Some(store[key].value), store)
    ensures key !in store && loader.Some? ==>
      res.0 == loader && key in res.1 && res.1[key] == Entry(loader.value, CacheTtl) &&
      forall k :: k != key ==> (k in res.1 <==> k in store) && (k in store ==> res.1[k] == store[k])
    ensures key !in store && loader.None? ==> res == (None, store)
  {
    if key in store then (Some(store[key].value), store)
    else match loader
      case Some(v) => (Some(v), store[key := Entry(v, CacheTtl)])
      case None => (None, store)
  }

  /** `getDependencias`. */
  function GetDependencias(db: Db, store: Store): (res: (Value, Store))
    ensures DependenciasKey in res.1 && res.1[DependenciasKey].value == res.0
    ensures DependenciasKey in store ==> res == (store[DependenciasKey].value, store)
    ensures DependenciasKey !in store ==> res.0 == Deps(db.dependencias)
  {
    var (v, s) := Remember(store, DependenciasKey, Some(Deps(db.dependencias)));
    (v.value, s)
  }

  /** `getTramitesByDependencia`: the services listed for the dependency, or
      nothing when the dependency does not exist (and then nothing is stored). */
  function GetTramitesByDependencia(db: Db, store: Store, id: int): (res: (Option<Value>, Store))
    ensures var key := TramitesByDependenciaKey(id);
      key in store ==> res == (Some(store[key].value), store)
    ensures var key := TramitesByDependenciaKey(id);
      key !in store ==> match FindDependencia(db.dependencias, id)
        case None => res == (None, store)
        case Some(d) => (res.0 == Some(Trams(TramitesFor(db, d.claveDependencia))) &&
          res.1 == store[key := Entry(res.0.value, CacheTtl)])
  {
    var loader := match FindDependencia(db.dependencias, id)
      case None => None
      case Some(d) => Some(Trams(TramitesFor(db, d.claveDependencia)));
    Remember(store, TramitesByDependenciaKey(id), loader)
  }

  /** `getDependencia`. */
  function GetDependencia(db: Db, store: Store, id: int): (res: (Option<Value>, Store))
    ensures var key := DependenciaKey(id);
      key in store ==> res == (Some(store[key].value), store)
    ensures var key := DependenciaKey(id);
      key !in store ==> match FindDependencia(db.dependencias, id)
        case None => res == (None, store)
        case Some(d) => res == (Some(Dep(d)), store[key := Entry(Dep(d), CacheTtl)])
  {
    var loader := match FindDependencia(db.dependencias, id)
      case None => None
      case Some(d) => Some(Dep(d));
    Remember(store, DependenciaKey(id), loader)
  }

  /** `getTramites`: the rows with the listed ids, cached under the
      order-blind digest key. */
  function GetTramites(db: Db, store: Store, md5: string -> string, ids: seq<int>): (res: (Value, Store))
    ensures var key := TramitesKey(md5, ids);
      key in res.1 && res.1[key].value == res.0 &&
      (key in store ==> res == (store[key].value, store)) &&
      (key !in store ==> res.0 == Trams(TramitesWhereIn(db, ids)))
  {
    var (v, s) := Remember(store, TramitesKey(md5, ids), Some(Trams(TramitesWhereIn(db, ids))));
    (v.value, s)
  }

  // ---------------------------------------------------------- invalidation

  /** `Cache::forget` of one key. */
  function Forget(store: Store, key: string): (r: Store)
    ensures key !in r
    ensures forall k :: k != key ==> (k in r <==> k in store) && (k in store ==> r[k] == store[k])
  {
    store - {key}
  }

  /** The per-dependency service keys of a dependency list. */
  function TramitesKeysOf(deps: seq<Dependencia>): seq<string> {
    seq(|deps|, i requires 0 <= i < |deps| => TramitesByDependenciaKey(deps[i].id))
  }

  /** Forgetting the keys one by one, as the loop over dependencies does. */
  function ForgetEach(store: Store, keys: seq<string>): (r: Store)
    ensures forall k :: k in r <==> k in store && k !in keys
    ensures forall k :: k in r ==> r[k] == store[k]
    decreases |keys|
  {
    if |keys| == 0 then store
    else
      var r := ForgetEach(Forget(store, keys[0]), keys[1..]);
      assert forall k :: k in keys <==> k == keys[0] || k in keys[1..] by {
        assert keys == [keys[0]] + keys[1..];
      }
      r
  }

  /** `clearDependenciasCache`. */
  function ClearDependencias(store: Store): (r: Store)
    ensures DependenciasKey !in r
    ensures forall k :: k != DependenciasKey ==> (k in r <==> k in store) && (k in store ==> r[k] == store[k])
  {
    Forget(store, DependenciasKey)
  }

  /** Truthiness of the optional `$dependenciaId` argument. */
  predicate IdGiven(id: Option<int>) {
    id.Some? && id.value != 0
  }

  /** The dependency list a store yields, the cached one or the database's. */
  function DependenciasIn(db: Db, store: Store): seq<Dependencia> {
    var v := GetDependencias(db, store).0;
    if v.Deps? then v.deps else []
  }

  /** `clearTramitesCache($id)`: with an id, forgets its one key; without one
      (or with 0), reads the dependency list through the cache (which may
      store it) and forgets every dependency's service key. */
  function ClearTramites(db: Db, store: Store, id: Option<int>): (r: Store)
    ensures IdGiven(id) ==>
      r == Forget(store, TramitesByDependenciaKey(id.value))
    ensures !IdGiven(id) ==>
      var (_, s) := GetDependencias(db, store);
      var keys := TramitesKeysOf(DependenciasIn(db, store));
      (forall k :: k in r <==> k in s && k !in keys) &&
      (forall k :: k in r ==> r[k] == s[k])
  {
    if IdGiven(id) then Forget(store, TramitesByDependenciaKey(id.value))
    else
      var (_, s) := GetDependencias(db, store);
      ForgetEach(s, TramitesKeysOf(DependenciasIn(db, store)))
  }

  /** Clearing one dependency's services touches no other key. */
  lemma ClearOneTramitesKey(db: Db, store: Store, id: int, k: string)
    requires id != 0
    requires k != TramitesByDependenciaKey(id)
    ensures var r := ClearTramites(db, store, Some(id));
      TramitesByDependenciaKey(id) !in r && (k in r <==> k in store) && (k in store ==> r[k] == store[k])
  {
  }

  /** Clearing without an id forgets every dependency's service key. */
  lemma ClearAllTramitesKeys(db: Db, store: Store, d: Dependencia)
    requires d in DependenciasIn(db, store)
    ensures TramitesByDependenciaKey(d.id) !in ClearTramites(db, store, None)
  {
    var deps := DependenciasIn(db, store);
    var i :| 0 <= i < |deps| && deps[i] == d;
    assert TramitesKeysOf(deps)[i] == TramitesByDependenciaKey(d.id);
  }

  /** `clearAllCache`: the dependency list, then every service key. */
  function ClearAll(db: Db, store: Store): (r: Store)
    ensures DependenciasKey in r && r[DependenciasKey] == Entry(Deps(db.dependencias), CacheTtl)
    ensures forall d :: d in db.dependencias ==> TramitesByDependenciaKey(d.id) !in r
  {
    var s := ClearDependencias(store);
    var r := ClearTramites(db, s, None);
    forall d | d in db.dependencias
      ensures TramitesByDependenciaKey(d.id) !in r
    {
      ClearAllTramitesKeys(db, s, d);
    }
    assert DependenciasKey !in TramitesKeysOf(db.dependencias) by {
      forall i | 0 <= i < |db.dependencias|
        ensures TramitesKeysOf(db.dependencias)[i] != DependenciasKey
      {
        assert TramitesKeysOf(db.dependencias)[i][0] == 't';
      }
    }
    r
  }

  /** `clearAllCache` leaves single-dependency entries and id-list entries as
      they were. */
  lemma ClearAllKeepsOtherFamilies(db: Db, store: Store, md5: string -> string, ids: seq<int>, id: int)
    requires HexDigest(md5(IdList(Sort(ids))))
    ensures var r := ClearAll(db, store);
      var k1 := DependenciaKey(id);
      var k2 := TramitesKey(md5, ids);
      (k1 in r <==> k1 in store) && (k1 in store ==> r[k1] == store[k1]) &&
      (k2 in r <==> k2 in store) && (k2 in store ==> r[k2] == store[k2])
  {
    var keys := TramitesKeysOf(db.dependencias);
    forall i | 0 <= i < |keys|
      ensures keys[i] != DependenciaKey(id) && keys[i] != TramitesKey(md5, ids)
    {
      KeyNamespacesDisjoint(md5, ids, db.dependencias[i].id, id);
    }
    KeyNamespacesDisjoint(md5, ids, id, id);
  }

  // ------------------------------------------------------------ statistics

  datatype Stats = Stats(
    dependenciasCached: bool,
    cacheDriver: string,
    ttlMinutes: int,
    tramitesDependenciasCached: nat,
    totalDependencias: nat)

  /** Whether a dependency's service list is in the store. */
  function HasCachedTramites(store: Store): Dependencia -> bool {
    (d: Dependencia) => TramitesByDependenciaKey(d.id) in store
  }

  /** How many of the dependencies have their service key in the store. */
  function CountCached(store: Store, deps: seq<Dependencia>): (n: nat)
    ensures n <= |deps|
    ensures n == |deps| <==> forall i :: 0 <= i < |deps| ==> TramitesByDependenciaKey(deps[i].id) in store
    ensures n == 0 <==> forall i :: 0 <= i < |deps| ==> TramitesByDependenciaKey(deps[i].id) !in store
  {
    if |deps| == 0 then 0
    else
      var rest := CountCached(store, deps[1..]);
      assert forall i :: 1 <= i < |deps| ==> deps[i] == deps[1..][i - 1];
      (if TramitesByDependenciaKey(deps[0].id) in store then 1 else 0) + rest
  }

  /** The count is the number of dependencies, repeats included, that the
      cached-key filter keeps. */
  lemma {:induction false} CountCachedExact(store: Store, deps: seq<Dependencia>)
    ensures CountCached(store, deps) == |Filter(deps, HasCachedTramites(store))|
  {
    if |deps| > 0 {
      CountCachedExact(store, deps[1..]);
      FilterUnfold(deps, HasCachedTramites(store));
    }
  }

  /** `getCacheStats`: whether the list was cached before the call, then the
      list read through the cache and how many of its dependencies have their
      service list cached. */
  function GetStats(db: Db, store: Store, driver: string): (res: (Stats, Store))
    ensures res.0.dependenciasCached <==> DependenciasKey in store
    ensures res.0.ttlMinutes == 60
    ensures res.0.tramitesDependenciasCached <= res.0.totalDependencias
    ensures res.0.totalDependencias == |DependenciasIn(db, store)|
    ensures res.1 == GetDependencias(db, store).1
  {
    var (_, s) := GetDependencias(db, store);
    var deps := DependenciasIn(db, store);
    (Stats(DependenciasKey in store, driver, CacheTtl / 60, CountCached(s, deps), |deps|), s)
  }

  // ------------------------------------------------------------- invariant

  /** Every entry holds what its key family promises and the service's TTL. */
  predicate WellFormed(store: Store) {
    forall k :: k in store ==>
      store[k].ttl == CacheTtl &&
      (k == DependenciasKey ==> store[k].value.Deps?) &&
      (DependenciaPrefix <= k ==> store[k].value.Dep?) &&
      (TramitesPrefix <= k ==> store[k].value.Trams?)
  }

  lemma DependenciaPrefixes(id: int)
    ensures DependenciaKey(id) != DependenciasKey
    ensures !(TramitesPrefix <= DependenciaKey(id))
    ensures !(DependenciaPrefix <= DependenciasKey)
    ensures !(TramitesPrefix <= DependenciasKey)
    ensures !(DependenciaPrefix <= TramitesByDependenciaKey(id))
  {
    assert DependenciaKey(id)[0] == 'd' && DependenciasKey[11] == 's';
    assert TramitesByDependenciaKey(id)[0] == 't';
  }

  /** Storing an entry of the family its key promises keeps the store well formed. */
  lemma PutKeepsWellFormed(store: Store, key: string, v: Value)
    requires WellFormed(store)
    requires key == DependenciasKey ==> v.Deps?
    requires DependenciaPrefix <= key ==> v.Dep?
    requires TramitesPrefix <= key ==> v.Trams?
    ensures WellFormed(store[key := Entry(v, CacheTtl)])
  {
  }

  /** The read-through getters keep the store well formed and, on a well-formed
      store, return a value of the family their key promises. */
  lemma GetDependenciasWellFormed(db: Db, store: Store)
    requires WellFormed(store)
    ensures WellFormed(GetDependencias(db, store).1) && GetDependencias(db, store).0.Deps?
  {
    DependenciaPrefixes(0);
    if DependenciasKey !in store {
      PutKeepsWellFormed(store, DependenciasKey, Deps(db.dependencias));
    }
  }

  lemma GetDependenciaWellFormed(db: Db, store: Store, id: int)
    requires WellFormed(store)
    ensures WellFormed(GetDependencia(db, store, id).1)
    ensures GetDependencia(db, store, id).0.Some? ==> GetDependencia(db, store, id).0.value.Dep?
  {
    DependenciaPrefixes(id);
    var d := FindDependencia(db.dependencias, id);
    if DependenciaKey(id) !in store && d.Some? {
      PutKeepsWellFormed(store, DependenciaKey(id), Dep(d.value));
    }
  }

  lemma GetTramitesByDependenciaWellFormed(db: Db, store: Store, id: int)
    requires WellFormed(store)
    ensures WellFormed(GetTramitesByDependencia(db, store, id).1)
    ensures GetTramitesByDependencia(db, store, id).0.Some? ==> GetTramitesByDependencia(db, store, id).0.value.Trams?
  {
    DependenciaPrefixes(id);
    var key := TramitesByDependenciaKey(id);
    assert TramitesPrefix <= key;
    var d := FindDependencia(db.dependencias, id);
    if key !in store && d.Some? {
      PutKeepsWellFormed(store, key, Trams(TramitesFor(db, d.value.claveDependencia)));
    }
  }

  lemma GetTramitesWellFormed(db: Db, store: Store, md5: string -> string, ids: seq<int>)
    requires WellFormed(store)
    ensures WellFormed(GetTramites(db, store, md5, ids).1) && GetTramites(db, store, md5, ids).0.Trams?
  {
    var key := TramitesKey(md5, ids);
    assert key[0] == 't' && DependenciasKey[0] == 'd' && DependenciaPrefix[0] == 'd';
    if key !in store {
      PutKeepsWellFormed(store, key, Trams(TramitesWhereIn(db, ids)));
    }
  }

  /** Invalidation keeps the store well formed. */
  lemma ClearKeepsWellFormed(db: Db, store: Store, id: Option<int>)
    requires WellFormed(store)
    ensures WellFormed(ClearDependencias(store))
    ensures WellFormed(ClearTramites(db, store, id))
    ensures WellFormed(ClearAll(db, store))
  {
    GetDependenciasWellFormed(db, store);
    GetDependenciasWellFormed(db, ClearDependencias(store));
  }
}
