// struct kvmap_api (lib1.h, filled in by the *_api_create functions of lib1.c):
// one interface over the four indexes, each call going to the index behind it.

module AnyIndex {
  import opened Option
  import opened KvApi
  import opened Enumerations
  import KvMap2s
  import KvMap1s
  import KvMap1State
  import Cuckoos
  import CuckooState
  import BpTrees
  import SkipListMap
  import SkipListState
  import SortedEntries

  // The map behind the interface.
  datatype Api =
    | KvMap2Api(m2: KvMap2s.KvMap2)
    | CuckooApi(ck: Cuckoos.Cuckoo)
    | BpTreeApi(bt: BpTrees.BpTree)
    | SkipListApi(sl: SkipListMap.SkipList)

  function MmOf(api: Api): Mm {
    match api
    case KvMap2Api(m2) => m2.mm
    case CuckooApi(ck) => ck.mm
    case BpTreeApi(bt) => bt.mm
    case SkipListApi(sl) => sl.mm
  }

  // The objects an index changes.
  function Footprint(api: Api): set<object> {
    match api
    case KvMap2Api(m2) => {m2, m2.m0, m2.m1}
    case CuckooApi(ck) => {ck}
    case BpTreeApi(bt) => {bt}
    case SkipListApi(sl) => {sl}
  }

  ghost predicate ValidApi(api: Api)
    reads Footprint(api)
  {
    match api
    case KvMap2Api(m2) => m2.Valid()
    case CuckooApi(ck) => ck.Valid() && ck.held == {}
    case BpTreeApi(bt) => bt.Valid()
    case SkipListApi(sl) => sl.Ok()
  }

  ghost function MapOfApi(api: Api): map<Key, Kv>
    requires ValidApi(api)
    reads Footprint(api)
  {
    match api
    case KvMap2Api(m2) => m2.Contents()
    case CuckooApi(ck) => ck.Contents()
    case BpTreeApi(bt) => bt.Contents()
    case SkipListApi(sl) => sl.Contents()
  }

  // Whatever the index, every object is stored under its own key.
  lemma StoredUnderOwnKey(api: Api)
    requires ValidApi(api)
    ensures forall key :: key in MapOfApi(api) ==> MapOfApi(api)[key].key == key
  {
    match api {
      case KvMap2Api(m2) =>
        TableKeys(m2.m0);
        TableKeys(m2.m1);
      case CuckooApi(ck) =>
        CuckooKeys(ck);
      case BpTreeApi(bt) =>
        SortedEntries.MapOfLists(bt.Entries());
      case SkipListApi(sl) =>
        SortedEntries.MapOfLists(SkipListState.Entries(sl.kvs, sl.chain));
    }
  }

  lemma TableKeys(t: KvMap1s.KvMap1)
    requires t.Valid()
    ensures forall key :: key in t.Contents() ==> t.Contents()[key].key == key
  {
  }

  lemma CuckooKeys(ck: Cuckoos.Cuckoo)
    requires ck.Valid()
    ensures forall key :: key in ck.Contents() ==> ck.Contents()[key].key == key
  {
  }

  // hash is a function of the key bytes, across the stored keys and `key`.
  ghost predicate HashAgrees(m: map<Key, Kv>, key: Key) {
    forall k :: k in m && k.bytes == key.bytes ==> k == key
  }

  // The form the ordered indexes ask for.
  lemma {:induction false} EntriesAgree(es: seq<Option<Kv>>, key: Key)
    requires SortedEntries.Lists(SortedEntries.MapOf(es), es) && HashAgrees(SortedEntries.MapOf(es), key)
    ensures SortedEntries.Agrees(es, key)
  {
  }

  // How a set gives back the object it replaces: kvmap2 alone retires it where
  // the others refresh it.
  function PutMm(api: Api): Mm {
    if api.KvMap2Api? then MmOf(api).(xf := false) else MmOf(api)
  }

  // ---- when a set succeeds ----

  // What other threads hold while a set runs: the objects kvmap2 cannot lock a
  // stripe for, and the stripes held at the first and at each later attempt of
  // the cuckoo table.
  datatype Env = Env(busy: set<Key>, first: Cuckoos.Others, later: seq<Cuckoos.Others>)

  // An index as it stands.
  datatype Snap =
    | PairSnap(t0: map<Key, Kv>, t1: map<Key, Kv>, max0: nat, max1: nat)
    | CuckooSnap(tables: Cuckoos.Tables, stored: map<Key, Kv>)
    | OrderedSnap(stored: map<Key, Kv>)

  ghost function SnapOf(api: Api): Snap
    requires ValidApi(api)
    reads Footprint(api)
  {
    match api
    case KvMap2Api(m2) => PairSnap(m2.m0.Contents(), m2.m1.Contents(), m2.m0.maxLevel, m2.m1.maxLevel)
    case CuckooApi(ck) => CuckooSnap(Cuckoos.Tables(ck.levels, ck.bm), ck.Contents())
    case BpTreeApi(bt) => OrderedSnap(bt.Contents())
    case SkipListApi(sl) => OrderedSnap(sl.Contents())
  }

  ghost function MapOfSnap(s: Snap): map<Key, Kv> {
    match s
    case PairSnap(t0, t1, _, _) => t0 + t1
    case CuckooSnap(_, stored) => stored
    case OrderedSnap(stored) => stored
  }

  predicate SameKind(s: Snap, api: Api) {
    match api
    case KvMap2Api(_) => s.PairSnap?
    case CuckooApi(_) => s.CuckooSnap?
    case _ => s.OrderedSnap?
  }

  lemma SnapIs(api: Api)
    requires ValidApi(api)
    ensures MapOfSnap(SnapOf(api)) == MapOfApi(api) && SameKind(SnapOf(api), api)
  {
  }

  // A set of the key succeeds.
  ghost predicate Takes(s: Snap, key: Key, env: Env) {
    match s
    case PairSnap(t0, t1, max0, max1) => KvMap2s.Accepts(t0, t1, max0, max1, key, env.busy)
    case CuckooSnap(tables, stored) => key in stored || tables.CanTakeKey(key, env.first.Any())
    case OrderedSnap(_) => true
  }

  // ... and only then, if the cuckoo table has one attempt and no lock comes or
  // goes during it.
  ghost predicate MayTake(s: Snap, key: Key, env: Env) {
    match s
    case PairSnap(_, _, _, _) => Takes(s, key, env)
    case CuckooSnap(tables, stored) => env.later != [] || key in stored || tables.CanTakeKey(key, env.first.busy)
    case OrderedSnap(_) => true
  }

  // Whatever the index: a stored key is always overwritten.
  lemma StoredTaken(s: Snap, key: Key, env: Env)
    requires key in MapOfSnap(s)
    ensures Takes(s, key, env)
  {
  }

  lemma OrderedTakes(api: Api, key: Key, env: Env)
    requires ValidApi(api)
    ensures api.BpTreeApi? || api.SkipListApi? ==> Takes(SnapOf(api), key, env) && MayTake(SnapOf(api), key, env)
  {
  }

  // ---- the calls, index by index ----

  method KvMap2Get(api: Api, m2: KvMap2s.KvMap2, key: Key) returns (r: Option<Kv>, evs: seq<Event>)
    requires api == KvMap2Api(m2) && ValidApi(api) && HashAgrees(MapOfApi(api), key)
    modifies Footprint(api)
    ensures ValidApi(api) && MapOfApi(api) == old(MapOfApi(api)) && r == Find(MapOfApi(api), key)
    ensures evs == if r.Some? then HitEvents(MmOf(api), r.value) else []
  {
    hide KvMap1State.Inv;
    var n := |m2.log|;
    r := m2.Get(key);
    evs := m2.log[n..];
  }

  method CuckooGet(api: Api, ck: Cuckoos.Cuckoo, key: Key) returns (r: Option<Kv>, evs: seq<Event>)
    requires api == CuckooApi(ck) && ValidApi(api) && HashAgrees(MapOfApi(api), key)
    modifies Footprint(api)
    ensures ValidApi(api) && MapOfApi(api) == old(MapOfApi(api)) && r == Find(MapOfApi(api), key)
    ensures evs == if r.Some? then HitEvents(MmOf(api), r.value) else []
  {
    hide CuckooState.Inv, Cuckoos.PhaseOk;
    var n := |ck.log|;
    r := ck.Get(key);
    evs := ck.log[n..];
  }

  method BpTreeGet(api: Api, bt: BpTrees.BpTree, key: Key) returns (r: Option<Kv>, evs: seq<Event>)
    requires api == BpTreeApi(bt) && ValidApi(api) && HashAgrees(MapOfApi(api), key)
    modifies Footprint(api)
    ensures ValidApi(api) && MapOfApi(api) == old(MapOfApi(api)) && r == Find(MapOfApi(api), key)
    ensures evs == if r.Some? then HitEvents(MmOf(api), r.value) else []
  {
    var n := |bt.log|;
    SortedEntries.MapOfLists(bt.Entries());
    EntriesAgree(bt.Entries(), key);
    r := bt.Get(key);
    evs := bt.log[n..];
  }

  method SkipListGet(api: Api, sl: SkipListMap.SkipList, key: Key) returns (r: Option<Kv>, evs: seq<Event>)
    requires api == SkipListApi(sl) && ValidApi(api) && HashAgrees(MapOfApi(api), key)
    modifies Footprint(api)
    ensures ValidApi(api) && MapOfApi(api) == old(MapOfApi(api)) && r == Find(MapOfApi(api), key)
    ensures evs == if r.Some? then HitEvents(MmOf(api), r.value) else []
  {
    var n := |sl.log|;
    SortedEntries.MapOfLists(SkipListState.Entries(sl.kvs, sl.chain));
    EntriesAgree(SkipListState.Entries(sl.kvs, sl.chain), key);
    r := sl.Get(key);
    evs := sl.log[n..];
  }

  method KvMap2Set(api: Api, m2: KvMap2s.KvMap2, kv: Kv, env: Env) returns (ok: bool, evs: seq<Event>)
    requires api == KvMap2Api(m2) && ValidApi(api) && HashAgrees(MapOfApi(api), kv.key)
    modifies Footprint(api)
    ensures ValidApi(api)
    ensures ok ==> MapOfApi(api) == old(MapOfApi(api))[kv.key := kv]
    ensures ok ==> evs == PutEvents(PutMm(api), Find(old(MapOfApi(api)), kv.key), Some(kv))
    ensures !ok ==> MapOfApi(api) == old(MapOfApi(api)) && evs == []
    ensures old(Takes(SnapOf(api), kv.key, env)) ==> ok
    ensures ok ==> old(MayTake(SnapOf(api), kv.key, env))
  {
    hide KvMap1State.Inv, KvMap2s.Accepts;
    var n := |m2.log|;
    m2.AcceptsIs(kv.key, env.busy);
    ok := m2.Set(kv, kv.addr, env.busy);
    evs := m2.log[n..];
  }

  method CuckooSet(api: Api, ck: Cuckoos.Cuckoo, kv: Kv, env: Env) returns (ok: bool, evs: seq<Event>)
    requires api == CuckooApi(ck) && ValidApi(api) && HashAgrees(MapOfApi(api), kv.key)
    modifies Footprint(api)
    ensures ValidApi(api)
    ensures ok ==> MapOfApi(api) == old(MapOfApi(api))[kv.key := kv]
    ensures ok ==> evs == PutEvents(PutMm(api), Find(old(MapOfApi(api)), kv.key), Some(kv))
    ensures !ok ==> MapOfApi(api) == old(MapOfApi(api)) && evs == []
    ensures old(Takes(SnapOf(api), kv.key, env)) ==> ok
    ensures ok ==> old(MayTake(SnapOf(api), kv.key, env))
  {
    hide CuckooState.Inv, Cuckoos.PhaseOk, Cuckoos.CanTake;
    var n := |ck.log|;
    var tries;
    ghost var seen;
    ok, tries, seen := ck.SetWithin(kv, [env.first] + env.later);
    evs := ck.log[n..];
  }

  method BpTreeSet(api: Api, bt: BpTrees.BpTree, kv: Kv) returns (ok: bool, evs: seq<Event>)
    requires api == BpTreeApi(bt) && ValidApi(api) && HashAgrees(MapOfApi(api), kv.key)
    modifies Footprint(api)
    ensures ValidApi(api)
    ensures ok && MapOfApi(api) == old(MapOfApi(api))[kv.key := kv]
    ensures evs == PutEvents(PutMm(api), Find(old(MapOfApi(api)), kv.key), Some(kv))
  {
    var n := |bt.log|;
    SortedEntries.MapOfLists(bt.Entries());
    EntriesAgree(bt.Entries(), kv.key);
    bt.Set(kv, kv.addr);
    ok := true;
    evs := bt.log[n..];
  }

  method SkipListSet(api: Api, sl: SkipListMap.SkipList, kv: Kv) returns (ok: bool, evs: seq<Event>)
    requires api == SkipListApi(sl) && ValidApi(api) && HashAgrees(MapOfApi(api), kv.key)
    modifies Footprint(api)
    ensures ValidApi(api)
    ensures ok && MapOfApi(api) == old(MapOfApi(api))[kv.key := kv]
    ensures evs == PutEvents(PutMm(api), Find(old(MapOfApi(api)), kv.key), Some(kv))
  {
    var n := |sl.log|;
    SortedEntries.MapOfLists(SkipListState.Entries(sl.kvs, sl.chain));
    EntriesAgree(SkipListState.Entries(sl.kvs, sl.chain), kv.key);
    var ht: nat :| 1 <= ht < SkipListState.HEAD_LINKS; // the height drawn
    ok := sl.Set(kv, ht);
    evs := sl.log[n..];
  }

  method KvMap2Del(api: Api, m2: KvMap2s.KvMap2, key: Key) returns (ok: bool, evs: seq<Event>)
    requires api == KvMap2Api(m2) && ValidApi(api) && HashAgrees(MapOfApi(api), key)
    modifies Footprint(api)
    ensures ValidApi(api) && ok == (key in old(MapOfApi(api))) && MapOfApi(api) == old(MapOfApi(api)) - {key}
    ensures evs == PutEvents(MmOf(api), Find(old(MapOfApi(api)), key), None)
  {
    hide KvMap1State.Inv;
    var n := |m2.log|;
    ok := m2.Del(key);
    evs := m2.log[n..];
  }

  method CuckooDel(api: Api, ck: Cuckoos.Cuckoo, key: Key) returns (ok: bool, evs: seq<Event>)
    requires api == CuckooApi(ck) && ValidApi(api) && HashAgrees(MapOfApi(api), key)
    modifies Footprint(api)
    ensures ValidApi(api) && ok == (key in old(MapOfApi(api))) && MapOfApi(api) == old(MapOfApi(api)) - {key}
    ensures evs == PutEvents(MmOf(api), Find(old(MapOfApi(api)), key), None)
  {
    hide CuckooState.Inv, Cuckoos.PhaseOk;
    var n := |ck.log|;
    ok := ck.Del(key);
    evs := ck.log[n..];
  }

  method SkipListDel(api: Api, sl: SkipListMap.SkipList, key: Key) returns (ok: bool, evs: seq<Event>)
    requires api == SkipListApi(sl) && ValidApi(api) && HashAgrees(MapOfApi(api), key)
    modifies Footprint(api)
    ensures ValidApi(api) && ok == (key in old(MapOfApi(api))) && MapOfApi(api) == old(MapOfApi(api)) - {key}
    ensures evs == PutEvents(MmOf(api), Find(old(MapOfApi(api)), key), None)
  {
    var n := |sl.log|;
    SortedEntries.MapOfLists(SkipListState.Entries(sl.kvs, sl.chain));
    EntriesAgree(SkipListState.Entries(sl.kvs, sl.chain), key);
    ok := sl.Del(key);
    evs := sl.log[n..];
  }

  method KvMap2Clean(api: Api, m2: KvMap2s.KvMap2) returns (evs: seq<Event>, ghost kvs: seq<Kv>)
    requires api == KvMap2Api(m2) && ValidApi(api)
    modifies Footprint(api)
    ensures ValidApi(api) && MapOfApi(api) == map[]
    ensures Enumerates(old(MapOfApi(api)), kvs) && evs == Retires(MmOf(api), kvs)
  {
    hide KvMap1State.Inv;
    var n := |m2.log|;
    kvs := m2.Clean();
    evs := m2.log[n..];
  }

  method CuckooClean(api: Api, ck: Cuckoos.Cuckoo) returns (evs: seq<Event>, ghost kvs: seq<Kv>)
    requires api == CuckooApi(ck) && ValidApi(api)
    modifies Footprint(api)
    ensures ValidApi(api) && MapOfApi(api) == map[]
    ensures Enumerates(old(MapOfApi(api)), kvs) && evs == Retires(MmOf(api), kvs)
  {
    hide CuckooState.Inv, Cuckoos.PhaseOk;
    var n := |ck.log|;
    if ck.phase.Growing? {
      ck.RunExpansion();
    }
    kvs := ck.Clean();
    evs := ck.log[n..];
  }

  method BpTreeClean(api: Api, bt: BpTrees.BpTree) returns (evs: seq<Event>, ghost kvs: seq<Kv>)
    requires api == BpTreeApi(bt) && ValidApi(api)
    modifies Footprint(api)
    ensures ValidApi(api) && MapOfApi(api) == map[]
    ensures Enumerates(old(MapOfApi(api)), kvs) && evs == Retires(MmOf(api), kvs)
  {
    var n := |bt.log|;
    kvs := bt.Clean();
    evs := bt.log[n..];
  }

  method SkipListClean(api: Api, sl: SkipListMap.SkipList) returns (evs: seq<Event>, ghost kvs: seq<Kv>)
    requires api == SkipListApi(sl) && ValidApi(api)
    modifies Footprint(api)
    ensures ValidApi(api) && MapOfApi(api) == map[]
    ensures Enumerates(old(MapOfApi(api)), kvs) && evs == Retires(MmOf(api), kvs)
  {
    var n := |sl.log|;
    kvs := sl.Clean();
    evs := sl.log[n..];
  }

  class Index {
    const mm: Mm
    const api: Api

    ghost predicate Valid()
      reads Footprint(api)
    {
      mm == MmOf(api) && ValidApi(api)
    }

    // The finite map the index stands for.
    ghost function Live(): map<Key, Kv>
      requires Valid()
      reads Footprint(api)
    {
      MapOfApi(api)
    }

    // The api_create functions.
    constructor (api: Api)
      requires ValidApi(api)
      ensures Valid() && this.api == api && mm == MmOf(api)
    {
      this.api := api;
      mm := MmOf(api);
    }

    method Get(key: Key) returns (r: Option<Kv>, evs: seq<Event>)
      requires Valid() && HashAgrees(Live(), key)
      modifies Footprint(api)
      ensures Valid() && Live() == old(Live())
      ensures r == Find(Live(), key)
      ensures evs == if r.Some? && mm.hf then [Hit(r.value)] else []
    {
      hide ValidApi, MapOfApi;
      match api {
        case KvMap2Api(m2) => r, evs := KvMap2Get(api, m2, key);
        case CuckooApi(ck) => r, evs := CuckooGet(api, ck, key);
        case BpTreeApi(bt) => r, evs := BpTreeGet(api, bt, key);
        case SkipListApi(sl) => r, evs := SkipListGet(api, sl, key);
      }
    }

    // A stored key is always overwritten; only the hash tables can have no room
    // for a new one. The object replaced is given to one callback: the refresh
    // function if there is one (kvmap2 has none), else the retire function.
    method Set(kv: Kv, env: Env) returns (ok: bool, evs: seq<Event>)
      requires Valid() && HashAgrees(Live(), kv.key)
      modifies Footprint(api)
      ensures Valid()
      ensures Live() == if ok then old(Live())[kv.key := kv] else old(Live())
      ensures !ok || kv.key !in old(Live()) ==> evs == []
      ensures ok && kv.key in old(Live()) && mm.xf && !api.KvMap2Api? ==> evs == [Refresh(old(Live())[kv.key], kv)]
      ensures ok && kv.key in old(Live()) && (!mm.xf || api.KvMap2Api?) ==>
        evs == if mm.rf then [Retire(old(Live())[kv.key])] else []
      ensures kv.key in old(Live()) || api.BpTreeApi? || api.SkipListApi? ==> ok
      ensures old(Takes(SnapOf(api), kv.key, env)) ==> ok
      ensures ok ==> old(MayTake(SnapOf(api), kv.key, env))
    {
      hide ValidApi, MapOfApi, SnapOf, Takes, MayTake;
      SnapIs(api);
      if kv.key in Live() {
        StoredTaken(SnapOf(api), kv.key, env);
      }
      OrderedTakes(api, kv.key, env);
      match api {
        case KvMap2Api(m2) => ok, evs := KvMap2Set(api, m2, kv, env);
        case CuckooApi(ck) => ok, evs := CuckooSet(api, ck, kv, env);
        case BpTreeApi(bt) => ok, evs := BpTreeSet(api, bt, kv);
        case SkipListApi(sl) => ok, evs := SkipListSet(api, sl, kv);
      }
    }

    // bptree_del is not implemented: it ends the process.
    method Del(key: Key) returns (ok: bool, evs: seq<Event>)
      requires Valid() && HashAgrees(Live(), key) && !api.BpTreeApi?
      modifies Footprint(api)
      ensures Valid()
      ensures ok == (key in old(Live())) && Live() == old(Live()) - {key}
      ensures evs == if ok && mm.rf then [Retire(old(Live())[key])] else []
    {
      hide ValidApi, MapOfApi;
      match api {
        case KvMap2Api(m2) => ok, evs := KvMap2Del(api, m2, key);
        case CuckooApi(ck) => ok, evs := CuckooDel(api, ck, key);
        case SkipListApi(sl) => ok, evs := SkipListDel(api, sl, key);
      }
    }

    // Every object is given up once.
    method Clean() returns (evs: seq<Event>, ghost kvs: seq<Kv>)
      requires Valid()
      modifies Footprint(api)
      ensures Valid() && Live() == map[]
      ensures Enumerates(old(Live()), kvs) && evs == Retires(mm, kvs)
    {
      hide ValidApi, MapOfApi;
      match api {
        case KvMap2Api(m2) => evs, kvs := KvMap2Clean(api, m2);
        case CuckooApi(ck) => evs, kvs := CuckooClean(api, ck);
        case BpTreeApi(bt) => evs, kvs := BpTreeClean(api, bt);
        case SkipListApi(sl) => evs, kvs := SkipListClean(api, sl);
      }
    }
  }
}
