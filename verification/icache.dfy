// The index cache (lib1.c:5837-6238) over any index: it answers gets from its
// slots and is told of every object the index hits, replaces or retires. The
// unlocked form, ucache (lib1.c:6275-6324), runs the same steps.

module ICacheMap {
  import opened Option
  import opened KvApi
  import opened EntryCounts
  import opened AnyIndex
  import opened ICacheState
  import opened Enumerations

  // icache_wrap_mm: the callbacks the index is created with.
  function WrapMm(mm: Mm): Mm {
    Mm(mm.rf, true, true)
  }

  // One lock covers a slot and the histories of its hashes.
  lemma SlotHasOneLock(nr: nat, h1: nat, h2: nat)
    requires nr > 0 && nr % 1024 == 0
    ensures SlotIndex(h1, nr) == SlotIndex(h2, nr) ==> Stripe(h1) == Stripe(h2)
    ensures SlotIndex(h1, 16 * nr) == SlotIndex(h2, 16 * nr) ==> Stripe(h1) == Stripe(h2)
  {
    ModMod(h1 / 64, nr);
    ModMod(h2 / 64, nr);
    ModMod(h1 / 64, 16 * nr);
    ModMod(h2 / 64, 16 * nr);
  }

  lemma ModMod(x: nat, nr: nat)
    requires nr > 0 && nr % 1024 == 0
    ensures (x % nr) % 1024 == x % 1024
  {
    var q, r := DivMod(x, nr);
    var k := Multiple(q, nr);
    Wrapped(k, r);
  }

  lemma DivMod(x: nat, n: nat) returns (q: nat, r: nat)
    requires n > 0
    ensures x == q * n + r && r == x % n
  {
    q, r := x / n, x % n;
  }

  lemma Multiple(q: nat, nr: nat) returns (k: nat)
    requires nr % 1024 == 0
    ensures q * nr == 1024 * k
  {
    var t := nr / 1024;
    assert nr == 1024 * t;
    k := q * t;
  }

  lemma Wrapped(k: nat, r: nat)
    ensures (1024 * k + r) % 1024 == r % 1024
  {
  }

  // ---- the table ----

  // The lifting of slot facts to the whole table.
  ghost predicate Shapes(table: seq<CSlot>, nr: nat) {
    nr > 0 && |table| == nr && forall x :: 0 <= x < nr ==> Shape(table[x], x, nr)
  }

  ghost predicate Lives(table: seq<CSlot>, live: map<Key, Kv>) {
    forall x :: 0 <= x < |table| ==> Live(table[x], live)
  }

  // What a changed slot still holds, apart from entries of `key`, it held
  // before; the other slots are as they were.
  ghost predicate OnlyKey(t: seq<CSlot>, t2: seq<CSlot>, idx: nat, key: Key) {
    && |t2| == |t| && idx < |t| && |t[idx].e| == |t2[idx].e|
    && (forall x :: 0 <= x < |t| && x != idx ==> t2[x] == t[x])
    && forall i :: 0 <= i < |t2[idx].e| && t2[idx].e[i].ptr.Some? && t2[idx].e[i].ptr.value.key != key ==>
      t2[idx].e[i] == t[idx].e[i]
  }

  // Once no entry of its slot has the key, a change of the map at that key
  // leaves every cached pointer live.
  lemma ChangeKeeps(t: seq<CSlot>, t2: seq<CSlot>, nr: nat, key: Key, live: map<Key, Kv>, live2: map<Key, Kv>)
    requires Shapes(t2, nr) && Lives(t, live)
    requires OnlyKey(t, t2, SlotIndex(key.hash, nr), key) && Lacks(t2[SlotIndex(key.hash, nr)], key)
    requires forall k :: k != key ==> Find(live2, k) == Find(live, k)
    ensures Lives(t2, live2)
  {
    var idx := SlotIndex(key.hash, nr);
    forall x | 0 <= x < |t2| ensures Live(t2[x], live2) {
      assert Live(t[x], live);
      assert Shape(t2[x], x, nr);
    }
  }

  // Replacing one slot by one as good.
  lemma SwapKeeps(t: seq<CSlot>, nr: nat, live: map<Key, Kv>, idx: nat, s2: CSlot)
    requires Shapes(t, nr) && Lives(t, live) && idx < nr && Shape(s2, idx, nr) && Live(s2, live)
    ensures Shapes(t[idx := s2], nr) && Lives(t[idx := s2], live)
  {
    hide Shape, Live;
  }

  lemma SlotFacts(t: seq<CSlot>, nr: nat, live: map<Key, Kv>, idx: nat)
    requires Shapes(t, nr) && Lives(t, live) && idx < nr
    ensures |t| == nr && Shape(t[idx], idx, nr) && Live(t[idx], live)
    ensures |t[idx].e| == ENTRY_NR && t[idx].used == Used(t[idx].e) <= ENTRY_NR && t[idx].amap < Pow16(ENTRY_NR)
  {
  }

  // A key the map does not have is not cached.
  lemma AbsentLacks(s: CSlot, live: map<Key, Kv>, key: Key)
    requires Live(s, live) && key !in live
    ensures Lacks(s, key)
  {
  }

  lemma HitLive(s: CSlot, live: map<Key, Kv>, i: nat)
    requires Live(s, live) && i < |s.e| && s.e[i].ptr.Some?
    ensures Find(live, s.e[i].ptr.value.key) == s.e[i].ptr
  {
  }

  // kv_keymatch; a null pointer matches nothing.
  predicate Matches(ptr: Option<Kv>, key: Key) {
    ptr.Some? && ptr.value.key == key
  }

  // The counter of an entry with that pointer has gone up.
  ghost predicate Counted(t: seq<CSlot>, t2: seq<CSlot>, idx: nat, ptr: Option<Kv>) {
    idx < |t| && exists i: nat :: CountedAt(t, t2, idx, i, ptr)
  }

  ghost predicate CountedAt(t: seq<CSlot>, t2: seq<CSlot>, idx: nat, i: nat, ptr: Option<Kv>)
    requires idx < |t|
  {
    && i < |t[idx].e| && t[idx].e[i].ptr == ptr
    && t2 == t[idx := t[idx].(amap := AmapInc(t[idx].amap, i))]
  }

  // An object hit again, while its tag is among the last seven of its history,
  // is cached from then on when its slot has a free entry.
  lemma SecondHitCached(s: CSlot, idx: nat, nr: nat, h: Hist, s2: CSlot, h2: Hist, kv: Kv, lucky: bool)
    requires nr > 0 && Shape(s, idx, nr) && Lacks(s, kv.key) && HistOk(h) && Hinted(s, h, s2, h2, kv, lucky)
    requires s.used < ENTRY_NR && Pkey(kv.key.hash) in Recent(h)
    ensures Lookup(s2.e, kv.key, 0) == Some(kv)
  {
    hide Shape, Recent, Pkey, Used;
    var at: nat :| Filled(s, s2, at, kv);
    OnlyThere(s2, kv, at, 0);
  }

  lemma {:induction false} OnlyThere(s: CSlot, kv: Kv, at: nat, i: nat)
    requires i <= at < |s.e| && s.e[at] == PutCached(Some(kv))
    requires forall j :: 0 <= j < |s.e| && j != at && s.e[j].ptr.Some? ==> s.e[j].ptr.value.key != kv.key
    ensures Lookup(s.e, kv.key, i) == Some(kv)
    decreases at - i
  {
    hide Pkey;
    if i < at {
      OnlyThere(s, kv, at, i + 1);
    }
  }

  // The result of icache_update, and what it means.
  lemma IsUpdated(s: CSlot, rep: nat, kv: Kv, r: bool, s2: CSlot, victim: nat, at: nat)
    requires s.used < ENTRY_NR ==> !r && Filled(s, s2, at, kv)
    requires s.used >= ENTRY_NR ==> victim < ENTRY_NR
    requires r ==> s.used >= ENTRY_NR && Evicted(s, s2, victim, at, rep, kv)
    requires s.used >= ENTRY_NR && !r ==> s2 == s.(amap := AmapDec(s.amap, victim))
    requires s.used >= ENTRY_NR && !r ==> forall k :: 0 <= k < ENTRY_NR ==> Busy(s2.amap, victim, k, rep)
    ensures Updated(s, s2, rep, kv)
  {
    hide Busy;
    if s.used >= ENTRY_NR {
      assert UpdatedFull(s, s2, victim, rep, kv);
    }
  }

  // Comparing keys only behind equal tags misses no entry.
  lemma ScanLacks(s: CSlot, idx: nat, nr: nat, key: Key)
    requires nr > 0 && Shape(s, idx, nr)
    requires forall j :: 0 <= j < ENTRY_NR ==> !(s.e[j].pkey == Pkey(key.hash) && Matches(s.e[j].ptr, key))
    ensures Lacks(s, key)
  {
  }

  // What the scan of a slot answers from entry i on.
  function Lookup(e: seq<Entry>, key: Key, i: nat): Option<Kv>
    requires i <= |e|
    decreases |e| - i
  {
    if i == |e| then None
    else if e[i].pkey == Pkey(key.hash) && Matches(e[i].ptr, key) then e[i].ptr
    else Lookup(e, key, i + 1)
  }

  // The scan itself: tags first, keys only behind equal tags.
  method Scan(e: seq<Entry>, key: Key) returns (found: bool, i: nat)
    ensures found ==> i < |e| && Matches(e[i].ptr, key) && Lookup(e, key, 0) == e[i].ptr
    ensures !found ==> forall j :: 0 <= j < |e| ==> !(e[j].pkey == Pkey(key.hash) && Matches(e[j].ptr, key))
    ensures !found ==> Lookup(e, key, 0) == None
  {
    hide Pkey;
    var pkey := Pkey(key.hash);
    i := 0;
    while i < |e|
      invariant i <= |e| && Lookup(e, key, i) == Lookup(e, key, 0)
      invariant forall j :: 0 <= j < i ==> !(e[j].pkey == pkey && Matches(e[j].ptr, key))
    {
      if e[i].pkey == pkey {
        if Matches(e[i].ptr, key) {
          return true, i;
        }
      }
      i := i + 1;
    }
    found := false;
  }

  // The slot of the object's key once the index's callbacks have been
  // delivered: a retire, if there is one, drops the object's tag.
  ghost predicate Delivered(s: CSlot, evs: seq<Event>, s2: CSlot) {
    if evs == [] then s2 == s
    else |evs| == 1 && evs[0].Retire? && Dropped(s, s2, Pkey(evs[0].kv.key.hash), ENTRY_NR)
  }

  // The index deletes an object the cache holds. Afterwards a get answered by
  // the cache agrees with the index, which has nothing, exactly when the
  // wrapped mm had an rf; without one the get answers the deleted object.
  lemma CacheHearsDeletes(mm: Mm, s: CSlot, s2: CSlot, idx: nat, nr: nat, kv: Kv)
    requires nr > 0 && Shape(s, idx, nr) && Lookup(s.e, kv.key, 0) == Some(kv)
    requires Delivered(s, PutEvents(WrapMm(mm), Some(kv), None), s2)
    ensures Lookup(s2.e, kv.key, 0) == None <==> mm.rf
    ensures !mm.rf ==> Lookup(s2.e, kv.key, 0) == Some(kv)
  {
    hide Shape, Lacks;
    if mm.rf {
      DroppedLacks(s, s2, idx, nr, kv.key);
      NothingFound(s2, kv.key, 0);
    }
  }

  lemma {:induction false} NothingFound(s: CSlot, key: Key, i: nat)
    requires Lacks(s, key) && i <= |s.e|
    ensures Lookup(s.e, key, i) == None
    decreases |s.e| - i
  {
    if i < |s.e| {
      NothingFound(s, key, i + 1);
    }
  }

  lemma FoundKey(live: map<Key, Kv>, key: Key)
    requires forall k :: k in live ==> live[k].key == k
    ensures key in live ==> Find(live, key).Some? && Find(live, live[key].key) == Find(live, key)
    ensures Find(live, key).Some? ==> Find(live, key).value.key == key
  {
  }

  // ---- the cache ----

  class ICache {
    const mm: Mm
    const nr_slots: nat
    const nr_hists: nat
    const index: Index
    var table: seq<CSlot>
    var hists: seq<Hist>
    var log: seq<Event>

    // The fixed parts: the index was created with the wrapped mm, whose rf is
    // set, and a slot is guarded by the lock of each of its hashes.
    ghost predicate Wired() {
      && mm.rf && index.mm == WrapMm(mm)
      && nr_slots > 0 && nr_slots % 1024 == 0 && nr_hists == nr_slots * 16
    }

    ghost predicate Structure()
      reads this
    {
      && Wired() && Shapes(table, nr_slots)
      && |hists| == nr_hists && forall x :: 0 <= x < nr_hists ==> HistOk(hists[x])
    }

    // Every cached pointer is the index's live object for its key, in that
    // key's slot with its tag, once; `used` counts the pointers.
    ghost predicate Valid()
      reads this, Footprint(index.api)
    {
      Structure() && index.Valid() && Lives(table, index.Live())
    }

    // icache_create and icache_wrap_kvmap
    constructor (mm: Mm, nr_slots: nat, index: Index)
      requires mm.rf && index.mm == WrapMm(mm) && index.Valid() && nr_slots > 0 && nr_slots % 1024 == 0
      ensures Valid() && this.mm == mm && this.index == index && log == []
    {
      this.mm := mm;
      this.nr_slots := nr_slots;
      this.nr_hists := nr_slots * 16;
      this.index := index;
      table := seq(nr_slots, _ => EmptyCSlot());
      hists := seq(nr_slots * 16, _ => Hist(0, seq(HIST_NR, _ => 0)));
      log := [];
      new;
      UsedNone(seq(ENTRY_NR, _ => EMPTY));
    }

    // The cache is none of the objects its index changes.
    lemma NotInIndex()
      ensures this !in Footprint(index.api)
    {
    }

    // icache_invalidate: whatever has the key's tag leaves the key's slot.
    method InvalidateKey(key: Key)
      requires Structure()
      modifies `table
      ensures Structure()
      ensures Dropped(old(table)[SlotIndex(key.hash, nr_slots)], table[SlotIndex(key.hash, nr_slots)], Pkey(key.hash), ENTRY_NR)
      ensures OnlyKey(old(table), table, SlotIndex(key.hash, nr_slots), key)
      ensures Lacks(table[SlotIndex(key.hash, nr_slots)], key)
    {
      hide Shape, Pkey, SlotIndex, Lacks;
      var idx := SlotIndex(key.hash, nr_slots);
      var pkey := Pkey(key.hash);
      var s2 := Invalidate(table[idx], pkey, idx, nr_slots);
      DroppedLacks(table[idx], s2, idx, nr_slots, key);
      table := table[idx := s2];
    }

    // __icache_kv_retire_cb
    method RetireCb(kv: Kv)
      requires Structure()
      modifies `table, `log
      ensures Structure() && log == old(log) + [Retire(kv)]
      ensures OnlyKey(old(table), table, SlotIndex(kv.key.hash, nr_slots), kv.key)
      ensures Lacks(table[SlotIndex(kv.key.hash, nr_slots)], kv.key)
    {
      InvalidateKey(kv.key);
      if mm.rf {
        log := log + [Retire(kv)];
      }
    }

    // icache_refresh
    method Refresh(old_: Kv, new_: Kv)
      requires Structure() && old_.key == new_.key
      modifies `table
      ensures Structure()
      ensures Refreshed(old(table)[SlotIndex(new_.key.hash, nr_slots)], table[SlotIndex(new_.key.hash, nr_slots)], old_, new_)
      ensures OnlyKey(old(table), table, SlotIndex(new_.key.hash, nr_slots), new_.key)
    {
      hide Shape, Pkey, SlotIndex;
      var idx := SlotIndex(new_.key.hash, nr_slots);
      var s2 := RefreshSlot(table[idx], old_, new_, idx, nr_slots);
      table := table[idx := s2];
    }

    // __icache_kv_refresh_cb: the refreshed entry is retired straight away, by
    // the tag that the old and the new object share.
    method RefreshCb(old_: Kv, new_: Kv)
      requires Structure() && old_.key == new_.key
      modifies `table, `log
      ensures Structure() && log == old(log) + [Retire(old_)]
      ensures OnlyKey(old(table), table, SlotIndex(old_.key.hash, nr_slots), old_.key)
      ensures Lacks(table[SlotIndex(old_.key.hash, nr_slots)], old_.key)
    {
      hide Shapes, SlotIndex, Lacks;
      Refresh(old_, new_);
      RetireCb(old_);
    }

    // icache_hint, the hit callback: an object the index has just hit, and
    // whose key its slot lacks, may come into the slot.
    method HintCb(kv: Kv, lucky: bool)
      requires Valid() && Find(index.Live(), kv.key) == Some(kv)
      requires Lacks(table[SlotIndex(kv.key.hash, nr_slots)], kv.key)
      modifies `table, `hists, `log
      ensures Valid() && index.Live() == old(index.Live()) && log == old(log) + if mm.hf then [Hit(kv)] else []
      ensures HintedAt(old(table), old(hists), table, hists, kv, lucky)
    {
      hide ValidApi, MapOfApi, Lives, Lacks, HintedAt;
      NotInIndex();
      Hint(kv, lucky, index.Live());
    }

    // A hint changes the slot and the history of its hash alone.
    ghost predicate HintedAt(t: seq<CSlot>, hs: seq<Hist>, t2: seq<CSlot>, hs2: seq<Hist>, kv: Kv, lucky: bool)
      requires nr_slots > 0 && nr_hists > 0
    {
      var idx, x := SlotIndex(kv.key.hash, nr_slots), SlotIndex(kv.key.hash, nr_hists);
      && idx < |t| == |t2| && x < |hs| == |hs2| && HistOk(hs[x])
      && t2 == t[idx := t2[idx]] && hs2 == hs[x := hs2[x]]
      && Hinted(t[idx], hs[x], t2[idx], hs2[x], kv, lucky)
    }

    method Hint(kv: Kv, lucky: bool, ghost live: map<Key, Kv>)
      requires Structure() && Lives(table, live) && Find(live, kv.key) == Some(kv)
      requires Lacks(table[SlotIndex(kv.key.hash, nr_slots)], kv.key)
      modifies `table, `hists, `log
      ensures Structure() && Lives(table, live) && log == old(log) + if mm.hf then [Hit(kv)] else []
      ensures HintedAt(old(table), old(hists), table, hists, kv, lucky)
    {
      hide Shape, Shapes, Live, Lives, Pkey, SlotIndex, Lacks, Nibble, Used, HistOk, Find, Updated, Recent;
      var idx := SlotIndex(kv.key.hash, nr_slots);
      SlotFacts(table, nr_slots, live, idx);
      var x := SlotIndex(kv.key.hash, nr_hists);
      if table[idx].used < ENTRY_NR || lucky {
        var rep, h2 := HistUpdate(hists[x], Pkey(kv.key.hash));
        hists := hists[x := h2];
        if rep > 0 {
          var r, s2, victim, at := Update(table[idx], rep, kv);
          IsUpdated(table[idx], rep, kv, r, s2, victim, at);
          UpdateKeeps(table[idx], idx, nr_slots, live, rep, kv, r, s2, victim, at);
          SwapKeeps(table, nr_slots, live, idx, s2);
          table := table[idx := s2];
        }
      }
      if mm.hf {
        log := log + [Hit(kv)];
      }
    }

    // A hit counts: the entry's counter goes up.
    method Bump(idx: nat, i: nat, ghost live: map<Key, Kv>)
      requires Structure() && Lives(table, live) && idx < nr_slots && i < ENTRY_NR
      modifies `table
      ensures Structure() && Lives(table, live)
      ensures table == old(table)[idx := old(table)[idx].(amap := AmapInc(old(table)[idx].amap, i))]
    {
      hide Nibble, Used, Shape, Shapes, Live, Lives;
      SlotFacts(table, nr_slots, live, idx);
      AmapOwnNibble(table[idx].amap, i, 0, 0);
      AgedKeeps(table[idx], idx, nr_slots, live, AmapInc(table[idx].amap, i));
      SwapKeeps(table, nr_slots, live, idx, table[idx].(amap := AmapInc(table[idx].amap, i)));
      table := table[idx := table[idx].(amap := AmapInc(table[idx].amap, i))];
    }

    // icache_get, ucache_get: from the slot, or else from the index, which
    // then hints; `lucky` is the draw of the hint. The answer is the index's own.
    method Get(key: Key, lucky: bool) returns (r: Option<Kv>)
      requires Valid() && HashAgrees(index.Live(), key)
      modifies `table, `hists, `log, Footprint(index.api)
      ensures Valid() && index.Live() == old(index.Live()) && r == Find(index.Live(), key)
      ensures var cached := Lookup(old(table)[SlotIndex(key.hash, nr_slots)].e, key, 0);
        && (cached.Some? ==> r == cached && hists == old(hists) && Counted(old(table), table, SlotIndex(key.hash, nr_slots), r))
        && (cached.None? && r.Some? ==> HintedAt(old(table), old(hists), table, hists, r.value, lucky))
        && (r.None? ==> table == old(table) && hists == old(hists))
        && log == old(log) + if cached.None? && r.Some? && mm.hf then [Hit(r.value)] else []
    {
      hide Pkey, SlotIndex, Nibble, Used, HistOk, Find, Shape, Shapes, Live, Lives, ValidApi, MapOfApi, Lookup, HintedAt;
      var idx := SlotIndex(key.hash, nr_slots);
      SlotFacts(table, nr_slots, index.Live(), idx);
      var found, i := Scan(table[idx].e, key);
      if found {
        r := table[idx].e[i].ptr;
        HitLive(table[idx], index.Live(), i);
        Bump(idx, i, index.Live());
        assert CountedAt(old(table), table, idx, i, r);
        return;
      }
      ScanLacks(table[idx], idx, nr_slots, key);
      var evs;
      r, evs := index.Get(key);
      if r.Some? {
        assert evs == [Hit(r.value)];
        StoredUnderOwnKey(index.api);
        FoundKey(index.Live(), key);
        HintCb(r.value, lucky);
      }
    }

    // icache_set, ucache_set: the index's set, its callbacks delivered. It
    // succeeds when the index's does.
    method Set(kv: Kv, env: Env) returns (ok: bool)
      requires Valid() && HashAgrees(index.Live(), kv.key)
      modifies this, Footprint(index.api)
      ensures Valid()
      ensures ok ==> index.Live() == old(index.Live())[kv.key := kv]
      ensures ok ==> log == old(log) + Retired(Find(old(index.Live()), kv.key))
      ensures !ok ==> index.Live() == old(index.Live()) && log == old(log)
      ensures old(kv.key in index.Live()) || index.api.BpTreeApi? || index.api.SkipListApi? ==> ok
      ensures old(Takes(SnapOf(index.api), kv.key, env)) ==> ok
      ensures ok ==> old(MayTake(SnapOf(index.api), kv.key, env))
    {
      hide Shapes, Lives, SlotIndex, Lacks, OnlyKey, ValidApi, MapOfApi, SnapOf, Takes, MayTake;
      ghost var live := index.Live();
      var evs;
      StoredUnderOwnKey(index.api);
      FoundKey(live, kv.key);
      AbsentKeeps(table, nr_slots, live, kv);
      ok, evs := index.Set(kv, env);
      if evs != [] {
        match evs[0] {
          case Hit(k) =>
          case Refresh(o, n) => RefreshCb(o, n);
          case Retire(k) => RetireCb(k);
        }
        ChangeKeeps(old(table), table, nr_slots, kv.key, live, index.Live());
      }
    }

    // icache_del, ucache_del
    method Del(key: Key) returns (ok: bool)
      requires Valid() && HashAgrees(index.Live(), key) && !index.api.BpTreeApi?
      modifies this, Footprint(index.api)
      ensures Valid()
      ensures ok == (key in old(index.Live())) && index.Live() == old(index.Live()) - {key}
      ensures log == old(log) + Retired(Find(old(index.Live()), key))
    {
      hide Shapes, Lives, SlotIndex, Lacks, OnlyKey, ValidApi, MapOfApi;
      ghost var live := index.Live();
      var evs;
      StoredUnderOwnKey(index.api);
      FoundKey(live, key);
      ok, evs := index.Del(key);
      if ok {
        assert evs == [Retire(live[key])];
        RetireCb(evs[0].kv);
        ChangeKeeps(old(table), table, nr_slots, key, live, index.Live());
      } else {
        assert index.Live() == live;
      }
    }

    // icache_clean: the index gives up every object, then the slots are zeroed.
    method Clean() returns (ghost kvs: seq<Kv>)
      requires Valid()
      modifies this, Footprint(index.api)
      ensures Valid() && index.Live() == map[]
      ensures Enumerates(old(index.Live()), kvs) && log == old(log) + Retires(mm, kvs)
    {
      hide ValidApi, MapOfApi, Enumerates;
      var evs;
      evs, kvs := index.Clean();
      var n := 0;
      while n < |evs|
        invariant 0 <= n <= |evs| && Structure() && log == old(log) + evs[..n]
        invariant index.Valid() && index.Live() == map[]
      {
        RetireCb(evs[n].kv);
        assert evs[..n + 1] == evs[..n] + [evs[n]];
        n := n + 1;
      }
      assert evs[..n] == evs;
      ZeroTable();
    }

    method ZeroTable()
      requires Structure() && index.Valid() && index.Live() == map[]
      modifies `table
      ensures Valid()
    {
      hide ValidApi, MapOfApi, Shape, Footprint;
      NotInIndex();
      var i := 0;
      while i < nr_slots
        invariant 0 <= i <= nr_slots && Structure() && index.Valid() && index.Live() == map[]
        invariant forall x :: 0 <= x < i ==> table[x] == EmptyCSlot()
      {
        ZeroShape(i, nr_slots);
        table := table[i := EmptyCSlot()];
        i := i + 1;
      }
    }
  }

  // What the wrapped rf is told when an object leaves the map.
  function Retired(old_: Option<Kv>): seq<Event> {
    if old_.Some? then [Retire(old_.value)] else []
  }

  lemma ZeroShape(idx: nat, nr: nat)
    requires idx < nr
    ensures Shape(EmptyCSlot(), idx, nr)
  {
    UsedNone(seq(ENTRY_NR, _ => EMPTY));
  }

  // Storing under a key the map lacked needs no word to the cache.
  lemma AbsentKeeps(t: seq<CSlot>, nr: nat, live: map<Key, Kv>, kv: Kv)
    requires Shapes(t, nr) && Lives(t, live)
    ensures kv.key !in live ==> Lives(t, live[kv.key := kv])
  {
    if kv.key !in live {
      AbsentLacks(t[SlotIndex(kv.key.hash, nr)], live, kv.key);
      ChangeKeeps(t, t, nr, kv.key, live, live[kv.key := kv]);
    }
  }
}
