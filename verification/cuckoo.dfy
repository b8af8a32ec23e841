// The cuckoo table's operations (lib1.c:4001-4369), each between taking and
// releasing its stripes, in any state of an expansion.

module Cuckoos {
  import opened Option
  import opened KvApi
  import opened FiniteSets
  import opened Pow2s
  import opened Bitmaps
  import opened Stripes
  import opened CuckooState
  import opened CuckooGrow
  import opened Enumerations
  import opened TableWalk

  // Either one level has the table (`cur`), or stripes are being migrated from
  // level src to the other one: those below uniq, except the pending ones that
  // a worker has claimed but not finished, have been migrated. `upd` is the
  // value bm_updater writes.
  datatype Phase = Rest(cur: nat) | Growing(src: nat, uniq: nat, pending: set<nat>, upd: bool)

  // The stripes other threads hold while an operation runs: all the time, and
  // some of the time.
  datatype Others = Others(busy: set<nat>, flaky: set<nat>) {
    function Any(): set<nat> {
      busy + flaky
    }
  }

  // The level serving stripe s.
  function ServedBy(ph: Phase, s: nat): nat {
    match ph
    case Rest(cur) => cur
    case Growing(src, uniq, pending, upd) => if s < uniq && s !in pending then OtherLevel(src) else src
  }

  ghost predicate PhaseOk(ph: Phase, levels: seq<Level>, bm: Bitmap) {
    && |levels| == 2
    && (forall s :: 0 <= s < NR_STRIPES ==> (Test(bm, s) <==> ServedBy(ph, s) == 1))
    && match ph
       case Rest(cur) => cur < 2 && levels[cur].table != [] && levels[OtherLevel(cur)].table == []
       case Growing(src, uniq, pending, upd) =>
         && src < 2 && upd == (src == 0)
         && levels[0].table != [] && levels[1].table != []
         && levels[OtherLevel(src)].power == levels[src].power + 1
         && uniq % 64 == 0 && forall s :: s in pending ==> s < uniq && s < NR_STRIPES
  }

  lemma PhaseSame(ph: Phase, levels: seq<Level>, l2: seq<Level>, bm: Bitmap)
    requires PhaseOk(ph, levels, bm) && SameSizes(levels, l2)
    ensures PhaseOk(ph, l2, bm)
  {
  }

  // Overwriting the object of a stored key.
  lemma OverKeeps(levels: seq<Level>, bm: Bitmap, recs: map<Key, Rec>, ph: Phase, p: Pos, kv: Kv)
    requires Inv(levels, bm, recs) && PhaseOk(ph, levels, bm) && kv.key in recs && recs[kv.key].p == p
    ensures InTable(levels, p) && At(levels, p).ptr == Some(Contents(recs)[kv.key])
    ensures var l2 := Write(levels, p, EntryOf(kv)); var recs2 := recs[kv.key := Rec(p, kv)];
      Inv(l2, bm, recs2) && PhaseOk(ph, l2, bm) && Contents(recs2) == Contents(recs)[kv.key := kv]
  {
    var x := StoredFits(levels, bm, recs, kv.key);
    assert Fits(levels, bm, p, kv.key);
    OverPlaced(levels, bm, recs, p, kv);
    WriteShape(levels, bm, p, EntryOf(kv));
    PhaseSame(ph, levels, Write(levels, p, EntryOf(kv)), bm);
    ContentsStore(recs, kv.key, Rec(p, kv));
  }

  lemma OverPlaced(levels: seq<Level>, bm: Bitmap, recs: map<Key, Rec>, p: Pos, kv: Kv)
    requires |levels| == 2 && Placed(levels, bm, recs) && kv.key in recs && recs[kv.key].p == p
    requires InTable(levels, p) && Fits(levels, bm, p, kv.key)
    ensures Placed(Write(levels, p, EntryOf(kv)), bm, recs[kv.key := Rec(p, kv)])
  {
    WritePlaced(levels, bm, recs, p, EntryOf(kv));
  }

  // Erasing the object of a stored key.
  lemma EraseKeeps(levels: seq<Level>, bm: Bitmap, recs: map<Key, Rec>, ph: Phase, key: Key)
    requires Inv(levels, bm, recs) && PhaseOk(ph, levels, bm) && key in recs
    ensures InTable(levels, recs[key].p) && At(levels, recs[key].p).ptr == Some(Contents(recs)[key])
    ensures var l2 := Write(levels, recs[key].p, EMPTY);
      Inv(l2, bm, recs - {key}) && PhaseOk(ph, l2, bm) && Contents(recs - {key}) == Contents(recs) - {key}
  {
    var p := recs[key].p;
    Vacate(levels, bm, recs, p);
    WriteShape(levels, bm, p, EMPTY);
    PhaseSame(ph, levels, Write(levels, p, EMPTY), bm);
  }

  // A displacement, seen from the whole table.
  lemma DisplaceKeeps(levels: seq<Level>, bm: Bitmap, recs: map<Key, Rec>, ph: Phase, path: seq<Pos>, kv: Kv)
    returns (recs2: map<Key, Rec>)
    requires Inv(levels, bm, recs) && PhaseOk(ph, levels, bm) && kv.key !in recs
    requires |levels| == 2 && PathOk(levels, bm, path, kv)
    requires forall i :: 0 <= i < |path| ==> InTable(levels, path[i])
    ensures var l2 := PathWrite(levels, path, kv);
      Inv(l2, bm, recs2) && PhaseOk(ph, l2, bm) && Contents(recs2) == Contents(recs)[kv.key := kv]
  {
    recs2 := PathKeeps(levels, bm, recs, path, kv);
    PathShape(levels, bm, path, kv);
    PhaseSame(ph, levels, PathWrite(levels, path, kv), bm);
  }

  // All eight entries of the slot of h are live.
  ghost predicate SlotFull(levels: seq<Level>, bm: Bitmap, h: nat) {
    |levels| == 2 && forall k :: 0 <= k < 8 ==>
      var p := Pos(Lid(bm, h), Low(h, levels[Lid(bm, h)].power), k);
      InTable(levels, p) && At(levels, p).ptr.Some?
  }

  lemma {:induction false} SlotFits(levels: seq<Level>, bm: Bitmap, h: nat, key: Key, c: Pos)
    requires |levels| == 2 && (h == Hash2(key, 0) || h == Hash2(key, 1))
    requires c.i == Lid(bm, h) && c.j == Low(h, levels[c.i].power)
    ensures Fits(levels, bm, c, key) && InSlot(levels, bm, c, h)
  {
    var x := if h == Hash2(key, 0) then 0 else 1;
    assert InSlot(levels, bm, c, Hash2(key, x));
  }

  lemma {:induction false} SinglePath(levels: seq<Level>, bm: Bitmap, c: Pos, kv: Kv)
    requires |levels| == 2 && InTable(levels, c) && At(levels, c).ptr.None? && Fits(levels, bm, c, kv.key)
    ensures PathOk(levels, bm, [c], kv) && PathWrite(levels, [c], kv) == Write(levels, c, EntryOf(kv))
  {
  }

  // l2 is levels after every object of the path has moved one place on and kv
  // has taken the first place.
  ghost predicate DisplacedTo(levels: seq<Level>, bm: Bitmap, l2: seq<Level>, path: seq<Pos>, kv: Kv) {
    && |levels| == 2 && PathOk(levels, bm, path, kv)
    && (forall i :: 0 <= i < |path| ==> InTable(levels, path[i]))
    && l2 == PathWrite(levels, path, kv)
  }

  lemma {:induction false} PathPrepend(levels: seq<Level>, c: Pos, path: seq<Pos>, kv: Kv)
    requires InTable(levels, c) && At(levels, c).ptr.Some?
    requires forall i :: 0 <= i < |path| ==> InTable(levels, path[i])
    ensures forall i :: 0 <= i < |[c] + path| ==> InTable(levels, ([c] + path)[i])
    ensures var m := PathWrite(levels, path, At(levels, c).ptr.value);
      Write(Write(m, c, EMPTY), c, EntryOf(kv)) == PathWrite(levels, [c] + path, kv)
  {
    var m := PathWrite(levels, path, At(levels, c).ptr.value);
    assert ([c] + path)[1..] == path;
    WriteAt(m, c, EMPTY, c);
    WriteOver(m, c, EMPTY, EntryOf(kv));
  }

  // ---- when a set can succeed ----

  // The two stripes of a key.
  function Both(key: Key): set<nat> {
    {Stripe(Hash2(key, 0)), Stripe(Hash2(key, 1))}
  }

  // There is a way of at most three places for a new object of the key.
  ghost predicate CanTake(levels: seq<Level>, bm: Bitmap, key: Key, avoid: set<nat>) {
    |levels| == 2 && exists x :: 0 <= x < 2 && CanPlace(levels, bm, Hash2(key, x), Both(key), avoid, 3)
  }

  // The two levels and the bitmap that says which stripe is where.
  datatype Tables = Tables(levels: seq<Level>, bm: Bitmap) {
    ghost predicate CanTakeKey(key: Key, avoid: set<nat>) {
      CanTake(levels, bm, key, avoid)
    }
  }

  lemma PlacedBy(levels: seq<Level>, bm: Bitmap, key: Key, x: nat, path: seq<Pos>, avoid: set<nat>)
    requires |levels| == 2 && x < 2 && |path| <= 3 && Way(levels, bm, path, Hash2(key, x), Both(key), avoid)
    ensures CanTake(levels, bm, key, avoid)
  {
    assert CanPlace(levels, bm, Hash2(key, x), Both(key), avoid, 3);
  }

  lemma SingleWay(levels: seq<Level>, bm: Bitmap, c: Pos, hash: nat, held: set<nat>, avoid: set<nat>)
    requires |levels| == 2 && InTable(levels, c) && At(levels, c).ptr.None? && InSlot(levels, bm, c, hash)
    ensures Way(levels, bm, [c], hash, held, avoid)
  {
  }

  // One more place in front of a way on.
  lemma {:induction false} StepOn(levels: seq<Level>, bm: Bitmap, c: Pos, path: seq<Pos>, kv: Kv, hash: nat, held: set<nat>, avoid: set<nat>)
    requires |levels| == 2 && Shape(levels, bm) && InTable(levels, c) && At(levels, c).ptr.Some? && InSlot(levels, bm, c, hash)
    requires Stripe(hash) in held && Fits(levels, bm, c, kv.key)
    requires WayOn(levels, bm, path, At(levels, c).ptr.value.key, held, avoid)
    requires PathOk(levels, bm, path, At(levels, c).ptr.value) && forall i :: 0 <= i < |path| ==> InTable(levels, path[i])
    ensures Way(levels, bm, [c] + path, hash, held, avoid) && PathOk(levels, bm, [c] + path, kv)
    ensures forall i :: 0 <= i < |[c] + path| ==> InTable(levels, ([c] + path)[i])
    ensures var m := PathWrite(levels, path, At(levels, c).ptr.value);
      Write(Write(m, c, EMPTY), c, EntryOf(kv)) == PathWrite(levels, [c] + path, kv)
  {
    hide Shape, PathOk, PathWrite, WayOn, Fits, InSlot;
    WayExtends(levels, bm, c, path, hash, held, avoid);
    PlaceStripe(levels, bm, c, hash);
    forall i | 0 <= i < |path| ensures Stripe(path[i].j) !in held {
      assert ([c] + path)[i + 1] == path[i];
    }
    PathExtends(levels, bm, c, path, kv, held);
    PathPrepend(levels, c, path, kv);
  }

  // No way on for the key through its slot number x.
  ghost predicate NotBy(levels: seq<Level>, bm: Bitmap, key: Key, x: nat, held: set<nat>, avoid: set<nat>, n: nat)
    requires |levels| == 2
  {
    var l := Stripe(Hash2(key, x));
    l in held || l in avoid || !CanPlace(levels, bm, Hash2(key, x), held + {l}, avoid, n)
  }

  lemma NoWayOn(levels: seq<Level>, bm: Bitmap, key: Key, held: set<nat>, avoid: set<nat>, n: nat)
    requires |levels| == 2 && forall x :: 0 <= x < 2 ==> NotBy(levels, bm, key, x, held, avoid, n)
    ensures !CanMoveOn(levels, bm, key, held, avoid, n)
  {
    hide Way, Hash2, Stripe;
    forall path, x | |path| <= n && 0 <= x < 2 ensures !WayBy(levels, bm, path, key, x, held, avoid) {
      assert NotBy(levels, bm, key, x, held, avoid, n);
    }
  }

  // ---- phases of an expansion ----

  // The empty doubled table of cuckoo_expand_thread.
  function NewLevel(power: nat): Level {
    Level(seq(Pow2(power), _ => EmptySlot()), power)
  }

  lemma InitKeeps(levels: seq<Level>, bm: Bitmap, power: nat)
    requires power >= MIN_POWER && |levels| == 2 && levels[0] == NewLevel(power) && levels[1].table == []
    requires bm == Create(NR_STRIPES, false)
    ensures Inv(levels, bm, map[]) && PhaseOk(Rest(0), levels, bm)
  {
    forall p | InTable(levels, p) ensures At(levels, p) == EMPTY {
    }
  }

  // An entry looks the same in levels that agree on its table and on powers
  // that matter.
  lemma SameEntry(levels: seq<Level>, l2: seq<Level>, bm: Bitmap, p: Pos, e: Entry)
    requires |levels| == |l2| == 2 && p.i < 2 && EntryOk(levels, bm, p, e) && l2[p.i].power == levels[p.i].power
    ensures EntryOk(l2, bm, p, e)
  {
    if e.ptr.Some? {
      var key := e.ptr.value.key;
      var x :| 0 <= x < 2 && InSlot(levels, bm, p, Hash2(key, x));
      assert InSlot(l2, bm, p, Hash2(key, x));
    }
  }

  // Replacing level i, all of whose entries are empty, by another empty one.
  lemma EmptyLevelPlaced(levels: seq<Level>, bm: Bitmap, recs: map<Key, Rec>, i: nat, l: Level)
    requires |levels| == 2 && Placed(levels, bm, recs) && i < 2
    requires forall p :: InTable(levels, p) && p.i == i ==> At(levels, p).ptr.None?
    requires forall j, k :: 0 <= j < |l.table| && 0 <= k < 8 ==> l.table[j][k] == EMPTY
    ensures Placed(levels[i := l], bm, recs)
  {
    hide Fits;
    var l2 := levels[i := l];
    forall p | InTable(l2, p)
      ensures EntryOk(l2, bm, p, At(l2, p))
      ensures At(l2, p).ptr.Some? ==>
        var kv := At(l2, p).ptr.value; kv.key in recs && recs[kv.key] == Rec(p, kv)
    {
      if p.i != i {
        assert InTable(levels, p) && At(l2, p) == At(levels, p);
        SameEntry(levels, l2, bm, p, At(levels, p));
      }
    }
  }

  lemma StartKeeps(levels: seq<Level>, bm: Bitmap, recs: map<Key, Rec>, cur: nat)
    requires Inv(levels, bm, recs) && PhaseOk(Rest(cur), levels, bm)
    ensures (bm.ones != 0) == (cur == 1)
    ensures var l2 := levels[OtherLevel(cur) := NewLevel(levels[cur].power + 1)];
      Inv(l2, bm, recs) && PhaseOk(Growing(cur, 0, {}, cur == 0), l2, bm)
  {
    assert forall s :: 0 <= s < NR_STRIPES ==> Test(bm, s) == bm.bits[s];
    OnesAll(bm.bits, cur == 1);
    EmptyLevelPlaced(levels, bm, recs, OtherLevel(cur), NewLevel(levels[cur].power + 1));
  }

  predicate InChunk(uniq: nat, s: nat) {
    uniq <= s < uniq + 64
  }

  // The 64 stripes claimed from uniq on, none beyond the last stripe.
  function Chunk(uniq: nat): set<nat> {
    set s: nat | s < NR_STRIPES && InChunk(uniq, s)
  }

  // The word of the bitmap that has stripe s's flag.
  function WordOf(s: nat): nat {
    s / 64
  }

  // A claimed chunk is one word, and no claimed stripe has its flag there.
  lemma ChunkIsWord(ph: Phase, levels: seq<Level>, bm: Bitmap)
    requires PhaseOk(ph, levels, bm) && ph.Growing?
    ensures ph.uniq < NR_STRIPES ==> forall s :: s in Chunk(ph.uniq) <==> WordOf(s) == WordOf(ph.uniq)
    ensures forall s :: s in ph.pending ==> WordOf(s) < WordOf(ph.uniq)
  {
    forall s: nat ensures InChunk(ph.uniq, s) <==> WordOf(s) == WordOf(ph.uniq) {
    }
  }

  lemma ClaimKeeps(ph: Phase, levels: seq<Level>, bm: Bitmap)
    requires PhaseOk(ph, levels, bm) && ph.Growing?
    ensures PhaseOk(ph.(uniq := ph.uniq + 64, pending := ph.pending + Chunk(ph.uniq)), levels, bm)
  {
  }

  lemma MigrateKeeps(ph: Phase, levels: seq<Level>, bm: Bitmap, bm2: Bitmap, lidx: nat)
    requires PhaseOk(ph, levels, bm) && ph.Growing? && lidx in ph.pending
    requires Flips(bm, bm2, lidx, ph.src)
    ensures PhaseOk(ph.(pending := ph.pending - {lidx}), levels, bm2)
  {
  }

  // A moved stripe, once the bitmap has been told.
  lemma MigrateDone(ph: Phase, levels: seq<Level>, bm: Bitmap, recs: map<Key, Rec>, lidx: nat, l2: seq<Level>, bm2: Bitmap)
    requires Sound(levels, bm) && PhaseOk(ph, levels, bm) && ph.Growing? && lidx in ph.pending
    requires Migrated(levels, ph.src, lidx, l2) && bm2 == if ph.upd then Set1(bm, lidx) else Set0(bm, lidx)
    ensures Flips(bm, bm2, lidx, ph.src) && Sound(l2, bm2)
    ensures PhaseOk(ph.(pending := ph.pending - {lidx}), l2, bm2)
    ensures Inv(levels, bm, recs) ==> var recs2 := MovedRecs(levels, ph.src, lidx, recs);
      Inv(l2, bm2, recs2) && CuckooState.Contents(recs2) == CuckooState.Contents(recs)
  {
    hide Placed, EntryOk, Migrated;
    var src := ph.src;
    assert ServedBy(ph, lidx) == src;
    FlipsIs(bm, bm2, lidx, src);
    MigratedSizes(levels, src, lidx, l2);
    MigratedSound(levels, bm, bm2, src, lidx, l2);
    PhaseSame(ph, levels, l2, bm);
    MigrateKeeps(ph, l2, bm, bm2, lidx);
    if Inv(levels, bm, recs) {
      MigratedKeeps(levels, bm, bm2, recs, src, lidx, l2);
    }
  }

  // When every stripe has been migrated the old table is empty.
  lemma OldTableEmpty(levels: seq<Level>, bm: Bitmap, ph: Phase, p: Pos)
    requires Sound(levels, bm) && PhaseOk(ph, levels, bm)
    requires ph.Growing? && ph.uniq >= NR_STRIPES && ph.pending == {}
    requires InTable(levels, p) && p.i == ph.src
    ensures At(levels, p) == EMPTY
  {
    assert Test(bm, Stripe(p.j)) <==> ServedBy(ph, Stripe(p.j)) == 1;
    UnservedEmpty(levels, bm, p);
  }

  lemma FinishKeeps(levels: seq<Level>, bm: Bitmap, recs: map<Key, Rec>, ph: Phase)
    requires Inv(levels, bm, recs) && PhaseOk(ph, levels, bm)
    requires ph.Growing? && ph.uniq >= NR_STRIPES && ph.pending == {}
    ensures var l2 := levels[ph.src := levels[ph.src].(table := [])];
      Inv(l2, bm, recs) && PhaseOk(Rest(OtherLevel(ph.src)), l2, bm)
  {
    var l2 := levels[ph.src := levels[ph.src].(table := [])];
    forall p | InTable(levels, p) && p.i == ph.src ensures At(levels, p) == EMPTY {
      OldTableEmpty(levels, bm, ph, p);
    }
    EmptyLevelPlaced(levels, bm, recs, ph.src, levels[ph.src].(table := []));
    assert forall s :: 0 <= s < NR_STRIPES ==> ServedBy(ph, s) == OtherLevel(ph.src);
  }

  ghost function Places(recs: map<Key, Rec>): map<Key, Pos> {
    map key | key in recs :: recs[key].p
  }

  // The two tables hold exactly the stored objects.
  lemma TablesHold(levels: seq<Level>, bm: Bitmap, recs: map<Key, Rec>, tabs: seq<seq<Slot>>)
    requires Inv(levels, bm, recs) && |levels| == 2 && tabs == [levels[0].table, levels[1].table]
    ensures Holds(tabs, CuckooState.Contents(recs), Places(recs))
  {
    hide EntryOk, Shape;
    forall p | LiveAt(tabs, p)
      ensures var kv := ObjectAt(tabs, p); kv.key in recs && recs[kv.key] == Rec(p, kv)
    {
      assert InTable(levels, p) && At(levels, p).ptr == Some(ObjectAt(tabs, p));
    }
    forall key | key in recs
      ensures LiveAt(tabs, recs[key].p) && ObjectAt(tabs, recs[key].p) == recs[key].kv && recs[key].kv.key == key
    {
      assert InTable(levels, recs[key].p);
    }
  }

  class Cuckoo {
    const mm: Mm
    var levels: seq<Level>
    var bm: Bitmap
    var held: set<nat>
    var phase: Phase
    var log: seq<Event>
    ghost var recs: map<Key, Rec>

    // cuckoo_create and cuckoo_init: level 0 of the least power, no bit set.
    constructor (mm: Mm)
      ensures Valid() && Contents() == map[] && log == [] && held == {} && phase == Rest(0) && this.mm == mm
    {
      this.mm := mm;
      levels := [NewLevel(MIN_POWER), Level([], 0)];
      bm := Create(NR_STRIPES, false);
      held, phase, log := {}, Rest(0), [];
      recs := map[];
      new;
      InitKeeps(levels, bm, MIN_POWER);
    }

    ghost predicate Valid()
      reads this
    {
      Inv(levels, bm, recs) && PhaseOk(phase, levels, bm)
    }

    ghost function Contents(): map<Key, Kv>
      reads this
    {
      CuckooState.Contents(recs)
    }

    // cuckoo_trylock: it fails on a stripe already held, by this thread or by
    // another one.
    method TryLock(idx: nat, others: Others) returns (ok: bool)
      modifies this`held
      ensures if ok then idx !in old(held) && held == old(held) + {idx} else held == old(held)
      ensures ok ==> idx !in others.busy
      ensures !ok ==> idx in old(held) || idx in others.Any()
    {
      ok := idx !in held && idx !in others.busy;
      if ok && idx in others.flaky {
        ok := *;
      }
      if ok {
        held := held + {idx};
      }
    }

    method Unlock(idx: nat)
      requires idx in held
      modifies this`held
      ensures held == old(held) - {idx}
    {
      held := held - {idx};
    }

    // cuckoo_lock, which would never return on a stripe the thread holds.
    method Lock(idx: nat)
      requires idx !in held
      modifies this`held
      ensures held == old(held) + {idx}
    {
      held := held + {idx};
    }

    // cuckoo_lock_two: both stripes of a key, the lower one first.
    method LockTwo(key: Key)
      requires held == {}
      modifies this`held
      ensures held == {Stripe(Hash2(key, 0)), Stripe(Hash2(key, 1))}
    {
      var i1, i2 := Stripe(Hash2(key, 0)), Stripe(Hash2(key, 1));
      if i1 < i2 {
        Lock(i1);
        Lock(i2);
      } else if i1 > i2 {
        Lock(i2);
        Lock(i1);
      } else {
        Lock(i1);
      }
    }

    method UnlockTwo(key: Key)
      requires Stripe(Hash2(key, 0)) in held && Stripe(Hash2(key, 1)) in held
      modifies this`held
      ensures held == old(held) - {Stripe(Hash2(key, 0)), Stripe(Hash2(key, 1))}
    {
      var i1, i2 := Stripe(Hash2(key, 0)), Stripe(Hash2(key, 1));
      if i1 < i2 {
        Unlock(i1);
        Unlock(i2);
      } else if i1 > i2 {
        Unlock(i2);
        Unlock(i1);
      } else {
        Unlock(i1);
      }
    }

    // One slot of the search: first the tag, then the key.
    method SearchSlot(key: Key, h: nat) returns (found: bool, p: Pos)
      requires Valid()
      ensures found ==> key in recs && recs[key].p == p
      ensures !found && key in recs ==> !InSlot(levels, bm, recs[key].p, h)
    {
      hide Inv;
      ShapeOf();
      var i := Lid(bm, h);
      var j := Low(h, levels[i].power);
      var k := 0;
      while k < 8
        invariant k <= 8
        invariant key in recs ==> recs[key].p.i != i || recs[key].p.j != j || recs[key].p.k >= k
      {
        p := Pos(i, j, k);
        SlotInTable(levels, bm, h, k);
        var e := levels[i].table[j][k];
        if e.pkey == Pkey(key.hash) {
          if e.ptr.Some? && e.ptr.value.key == key {
            EntryIsStored(levels, bm, recs, p);
            return true, p;
          }
        }
        NotHere(key, p);
        k := k + 1;
      }
      found, p := false, Pos(0, 0, 0);
      if key in recs {
        NotAnywhere(key);
      }
    }

    // The search every operation starts with: both slots of the key.
    method Search(key: Key) returns (found: bool, p: Pos)
      requires Valid()
      ensures found <==> key in recs
      ensures found ==> recs[key].p == p && InTable(levels, p) && At(levels, p).ptr == Some(Contents()[key])
    {
      hide Inv, PhaseOk;
      found, p := SearchSlot(key, Hash2(key, 0));
      if !found {
        found, p := SearchSlot(key, Hash2(key, 1));
      }
      if key in recs {
        NotAnywhere(key);
      }
    }

    lemma ShapeOf()
      requires Valid()
      ensures Shape(levels, bm)
    {
    }

    // An entry that fails the tag test or the key test is not the key's.
    lemma NotHere(key: Key, p: Pos)
      requires Valid() && InTable(levels, p)
      requires At(levels, p).pkey != Pkey(key.hash) || At(levels, p).ptr.None? || At(levels, p).ptr.value.key != key
      ensures key in recs ==> recs[key].p != p
    {
      if key in recs {
        var x := StoredFits(levels, bm, recs, key);
      }
    }

    // A stored key is in one of its two slots.
    lemma NotAnywhere(key: Key)
      requires Valid() && key in recs
      ensures |levels| == 2 && InTable(levels, recs[key].p) && At(levels, recs[key].p).ptr == Some(Contents()[key])
      ensures InSlot(levels, bm, recs[key].p, Hash2(key, 0)) || InSlot(levels, bm, recs[key].p, Hash2(key, 1))
    {
      var x := StoredFits(levels, bm, recs, key);
    }

    // cuckoo_get (cuckoo_probe answers r.Some?).
    method Get(key: Key) returns (r: Option<Kv>)
      requires Valid() && held == {}
      modifies this`held, this`log
      ensures r == Find(Contents(), key) && held == {}
      ensures log == old(log) + if r.Some? then HitEvents(mm, r.value) else []
    {
      LockTwo(key);
      var found, p := Search(key);
      if found {
        var curr := levels[p.i].table[p.j][p.k].ptr.value;
        log := log + HitEvents(mm, curr);
        r := Some(curr);
      } else {
        r := None;
      }
      UnlockTwo(key);
    }

    // kvmap_put_entry over the stored object of kv.key.
    method PutOver(p: Pos, kv: Kv)
      requires Valid() && kv.key in recs && recs[kv.key].p == p
      modifies this`levels, this`recs, this`log
      ensures Valid() && Contents() == old(Contents())[kv.key := kv]
      ensures log == old(log) + PutEvents(mm, Some(old(Contents())[kv.key]), Some(kv))
    {
      hide Inv, PhaseOk;
      OverKeeps(levels, bm, recs, phase, p, kv);
      log := log + PutEvents(mm, At(levels, p).ptr, Some(kv));
      levels := Write(levels, p, EntryOf(kv));
      recs := recs[kv.key := Rec(p, kv)];
    }

    // cuckoo_del.
    method Del(key: Key) returns (ok: bool)
      requires Valid() && held == {}
      modifies this`held, this`log, this`levels, this`recs
      ensures Valid() && held == {}
      ensures ok <==> key in old(Contents())
      ensures Contents() == old(Contents()) - {key}
      ensures log == old(log) + PutEvents(mm, Find(old(Contents()), key), None)
    {
      hide Inv, PhaseOk;
      LockTwo(key);
      var found, p := Search(key);
      if found {
        EraseKeeps(levels, bm, recs, phase, key);
        log := log + PutEvents(mm, At(levels, p).ptr, None);
        levels := Write(levels, p, EMPTY);
        recs := recs - {key};
      }
      UnlockTwo(key);
      ok := found;
    }

    // cuckoo_cuckoo_depth and cuckoo_cuckoo_local (depth 0): store kv in the
    // slot of `hash`, moving one object of the slot to its other slot when the
    // slot is full. The stripe of `hash` is held. On failure nothing has
    // changed; on success every object of `path` has moved one place on. It
    // succeeds when there is a way of at most depth + 1 places, and only then:
    // the two clauses differ in the stripes others hold for some of the time.
    method CuckooDepth(hash: nat, kv: Kv, depth: nat, others: Others) returns (r: bool, ghost path: seq<Pos>)
      requires Valid() && Stripe(hash) in held
      requires hash == Hash2(kv.key, 0) || hash == Hash2(kv.key, 1)
      modifies this`levels, this`held
      ensures held == old(held)
      ensures !r ==> levels == old(levels) && SlotFull(levels, bm, hash)
      ensures |levels| == |old(levels)| == 2
      ensures !r ==> !CanPlace(levels, bm, hash, held, others.Any(), depth + 1)
      ensures r ==> DisplacedTo(old(levels), bm, levels, path, kv)
      ensures r ==> |path| <= depth + 1 && Way(old(levels), bm, path, hash, held, others.busy)
      decreases depth, 1
    {
      hide Inv, PhaseOk, PathOk, Fits, PathWrite, Stripe, Hash2, Way, WayOn, CanMoveOn, CanPlace, Barred;
      ShapeOf();
      var i := Lid(bm, hash);
      var j := Low(hash, levels[i].power);
      SlotInTable(levels, bm, hash, 0);
      PlaceStripe(levels, bm, Pos(i, j, 0), hash);
      var k := 0;
      while k < 8
        invariant k <= 8 && levels == old(levels) && held == old(held)
        invariant forall y :: 0 <= y < k ==> levels[i].table[j][y].ptr.Some?
        invariant forall y :: 0 <= y < k ==> Barred(levels, bm, Pos(i, j, y), hash, held, others.Any(), depth + 1)
      {
        var c := Pos(i, j, k);
        SlotFits(levels, bm, hash, kv.key, c);
        if levels[i].table[j][k].ptr.None? {
          SinglePath(levels, bm, c, kv);
          SingleWay(levels, bm, c, hash, held, others.busy);
          path := [c];
          levels := Write(levels, c, EntryOf(kv));
          return true, path;
        }
        if depth > 0 {
          ghost var path1;
          r, path1 := MoveAway(c, depth, others);
          if r {
            StepOn(old(levels), bm, c, path1, kv, hash, held, others.busy);
            levels := Write(levels, c, EMPTY);
            levels := Write(levels, c, EntryOf(kv));
            path := [c] + path1;
            return;
          }
        }
        BarredBy(levels, bm, c, hash, held, others.Any(), depth + 1);
        k := k + 1;
      }
      AllBarred(levels, bm, hash, held, others.Any(), depth + 1);
      r := false;
      path := [];
    }

    // The inner loop of cuckoo_cuckoo_depth: give the object at c a second
    // place, in a slot whose stripe can be locked.
    method MoveAway(c: Pos, depth: nat, others: Others) returns (moved: bool, ghost path: seq<Pos>)
      requires Valid() && InTable(levels, c) && At(levels, c).ptr.Some? && Stripe(c.j) in held && depth > 0
      modifies this`levels, this`held
      ensures held == old(held)
      ensures |levels| == |old(levels)| == 2
      ensures !moved ==> levels == old(levels)
      ensures !moved ==> !CanMoveOn(levels, bm, At(levels, c).ptr.value.key, held, others.Any(), depth)
      ensures moved ==> DisplacedTo(old(levels), bm, levels, path, At(old(levels), c).ptr.value)
      ensures moved ==> |path| <= depth && WayOn(old(levels), bm, path, At(old(levels), c).ptr.value.key, held, others.busy)
      decreases depth, 0
    {
      hide Inv, PhaseOk, PathOk, Fits, PathWrite, DisplacedTo, SlotFull, InSlot, Stripe, Hash2, Way, CanPlace, CanMoveOn;
      ShapeOf();
      var curr := levels[c.i].table[c.j][c.k].ptr.value;
      var lidx0 := Stripe(c.j);
      var x := 0;
      while x < 2
        invariant x <= 2 && levels == old(levels) && held == old(held)
        invariant forall y :: 0 <= y < x ==> NotBy(levels, bm, curr.key, y, held, others.Any(), depth)
      {
        var hash1 := Hash2(curr.key, x);
        var lidx1 := Stripe(hash1);
        if lidx1 != lidx0 {
          var locked := TryLock(lidx1, others);
          if locked {
            moved, path := CuckooDepth(hash1, curr, depth - 1, others);
            Unlock(lidx1);
            if moved {
              assert WayBy(old(levels), bm, path, curr.key, x, held, others.busy);
              return;
            }
          }
        }
        x := x + 1;
      }
      NoWayOn(levels, bm, curr.key, held, others.Any(), depth);
      moved := false;
      path := [];
    }

    // cuckoo_try_set: update the key's object, or place the new one with
    // displacements of growing depth, or start an expansion. It succeeds when
    // the key is stored or there is a way of at most three places into one of
    // its slots, and only then.
    method TrySet(kv: Kv, others: Others) returns (ok: bool)
      requires Valid() && held == {}
      modifies this`held, this`log, this`levels, this`recs, this`phase
      ensures Valid() && held == {}
      ensures Contents() == if ok then old(Contents())[kv.key := kv] else old(Contents())
      ensures log == old(log) + if ok then PutEvents(mm, Find(old(Contents()), kv.key), Some(kv)) else []
      ensures old(kv.key in Contents() || CanTake(levels, bm, kv.key, others.Any())) ==> ok
      ensures ok ==> old(kv.key in Contents() || CanTake(levels, bm, kv.key, others.busy))
      ensures !ok ==> SlotFull(old(levels), bm, Hash2(kv.key, 0)) && SlotFull(old(levels), bm, Hash2(kv.key, 1))
      ensures if ok then phase == old(phase) else phase.Growing?
      ensures kv.key !in old(Contents()) && |Alike(old(Contents()), kv.key.hash)| == 16 ==> !ok
    {
      hide Inv, PhaseOk, PathOk, PathWrite, Alike, CanPlace, Way;
      LockTwo(kv.key);
      var found, p := Search(kv.key);
      if found {
        PutOver(p, kv);
        UnlockTwo(kv.key);
        return true;
      }
      var depth := 0;
      while depth < 3
        invariant depth <= 3 && Valid() && levels == old(levels) && recs == old(recs) && log == old(log)
        invariant phase == old(phase) && held == Both(kv.key)
        invariant depth > 0 ==> SlotFull(levels, bm, Hash2(kv.key, 0)) && SlotFull(levels, bm, Hash2(kv.key, 1))
        invariant depth > 2 ==> !CanTake(levels, bm, kv.key, others.Any())
      {
        ghost var path, x := [], 0;
        ok, path := CuckooDepth(Hash2(kv.key, 0), kv, depth, others);
        if !ok {
          x := 1;
          ok, path := CuckooDepth(Hash2(kv.key, 1), kv, depth, others);
        }
        if ok {
          PlacedBy(old(levels), bm, kv.key, x, path, others.busy);
          recs := DisplaceKeeps(old(levels), bm, recs, phase, path, kv);
          AlikeFull(levels, bm, recs, old(Contents()), kv);
          UnlockTwo(kv.key);
          return true;
        }
        depth := depth + 1;
      }
      UnlockTwo(kv.key);
      Expand();
      ok := false;
    }

    // cuckoo_set, whose loop tries until an attempt succeeds, up to as many
    // attempts as `others` has (a table of fixed power stops after 8). After a
    // failed one the expand workers may do any part of their work. A failed
    // attempt leaves the map alone, the one that succeeds stores the key; which
    // it is depends on the tables it meets, the i-th `seen[i]`, as for TrySet.
    // With 16 other keys of its hash in the map no attempt ever succeeds: the
    // loop does not end.
    method SetWithin(kv: Kv, others: seq<Others>) returns (ok: bool, tries: nat, ghost seen: seq<Tables>)
      requires Valid() && held == {}
      modifies this`held, this`log, this`levels, this`recs, this`phase, this`bm
      ensures Valid() && held == {} && tries == |seen| <= |others|
      ensures Contents() == if ok then old(Contents())[kv.key := kv] else old(Contents())
      ensures log == old(log) + if ok then PutEvents(mm, Find(old(Contents()), kv.key), Some(kv)) else []
      ensures if ok then tries > 0 else tries == |others|
      ensures tries > 0 ==> seen[0] == old(Tables(levels, bm))
      ensures forall i :: 0 <= i < (if ok then tries - 1 else tries) ==>
        kv.key !in old(Contents()) && !seen[i].CanTakeKey(kv.key, others[i].Any())
      ensures ok ==> kv.key in old(Contents()) || seen[tries - 1].CanTakeKey(kv.key, others[tries - 1].busy)
      ensures kv.key !in old(Contents()) && |Alike(old(Contents()), kv.key.hash)| == 16 ==> !ok
    {
      hide Inv, PhaseOk, Alike, CanTake;
      ok, tries, seen := false, 0, [];
      while !ok && tries < |others|
        invariant Valid() && held == {} && tries == |seen| <= |others|
        invariant Contents() == if ok then old(Contents())[kv.key := kv] else old(Contents())
        invariant log == old(log) + if ok then PutEvents(mm, Find(old(Contents()), kv.key), Some(kv)) else []
        invariant if tries > 0 then seen[0] == old(Tables(levels, bm)) else !ok && levels == old(levels) && bm == old(bm)
        invariant forall i :: 0 <= i < (if ok then tries - 1 else tries) ==>
          kv.key !in old(Contents()) && !seen[i].CanTakeKey(kv.key, others[i].Any())
        invariant ok ==> kv.key in old(Contents()) || seen[tries - 1].CanTakeKey(kv.key, others[tries - 1].busy)
        invariant kv.key !in old(Contents()) && |Alike(old(Contents()), kv.key.hash)| == 16 ==> !ok
        decreases !ok, |others| - tries
      {
        seen := seen + [Tables(levels, bm)];
        ok := TrySet(kv, others[tries]);
        tries := tries + 1;
        if !ok {
          ExpandSome();
        }
      }
    }

    // Some work of the expand workers: words claimed, stripes moved, and the
    // old table released when all have been.
    method ExpandSome()
      requires Valid() && held == {}
      modifies this`levels, this`bm, this`phase, this`recs, this`held
      ensures Valid() && held == {} && Contents() == old(Contents())
    {
      hide Inv, PhaseOk;
      var k: int := *;
      while k > 0 && phase.Growing?
        invariant Valid() && held == {} && Contents() == old(Contents())
        decreases k
      {
        k := k - 1;
        var claim: bool := *;
        if claim {
          var more := ClaimChunk();
        } else if phase.pending != {} {
          var lidx :| lidx in phase.pending;
          InvSound(levels, bm, recs);
          MigrateStripe(lidx);
        } else if phase.uniq >= NR_STRIPES {
          FinishExpand();
        }
      }
    }

    // cuckoo_expand: only one expansion at a time (expand_lock); the start of
    // cuckoo_expand_thread allocates the doubled table.
    method Expand()
      requires Valid()
      modifies this`levels, this`phase
      ensures Valid()
      ensures phase.Growing?
      ensures old(phase).Growing? ==> phase == old(phase) && levels == old(levels)
    {
      hide Inv, PhaseOk;
      if phase.Growing? {
        return;
      }
      PhaseShape();
      var lid0 := if levels[0].table != [] then 0 else 1;
      var lid1 := OtherLevel(lid0);
      StartKeeps(levels, bm, recs, phase.cur);
      var upd := if bm.ones != 0 then false else true; // bitmap_count(bm) ? bitmap_set0 : bitmap_set1
      levels := levels[lid1 := NewLevel(levels[lid0].power + 1)];
      phase := Growing(lid0, 0, {}, upd);
    }

    lemma PhaseShape()
      requires Valid()
      ensures |levels| == 2 && |bm.bits| == NR_STRIPES && Wf(bm)
      ensures phase.Rest? ==> phase.cur < 2 && levels[phase.cur].table != [] && levels[OtherLevel(phase.cur)].table == []
      ensures phase.Growing? ==> Doubling(levels, phase.src) && phase.upd == (phase.src == 0)
      ensures phase.Growing? ==> forall s :: s in phase.pending ==> s < NR_STRIPES && (Test(bm, s) <==> phase.src == 1)
    {
      assert phase.Growing? ==> forall s :: s in phase.pending ==> s < NR_STRIPES && ServedBy(phase, s) == phase.src;
    }

    // A worker claims the next 64 stripes. They are one word of the bitmap, and
    // no stripe of that word was claimed before: each word has one writer.
    method ClaimChunk() returns (more: bool)
      requires Valid() && phase.Growing?
      modifies this`phase
      ensures Valid() && phase.Growing?
      ensures more ==> forall s :: s in phase.pending - old(phase).pending <==> WordOf(s) == WordOf(old(phase).uniq)
      ensures forall s :: s in old(phase).pending ==> WordOf(s) != WordOf(old(phase).uniq)
      ensures more <==> old(phase).uniq < NR_STRIPES
      ensures phase == old(phase).(uniq := old(phase).uniq + 64, pending := old(phase).pending + Chunk(old(phase).uniq))
    {
      hide Inv, PhaseOk;
      var uniq := phase.uniq;
      var chunk := Chunk(uniq);
      ClaimKeeps(phase, levels, bm);
      ChunkIsWord(phase, levels, bm);
      phase := phase.(uniq := uniq + 64, pending := phase.pending + chunk);
      more := uniq < NR_STRIPES;
    }

    // cuckoo_expand_worker on one claimed stripe: its objects move to the
    // doubled table, and the bitmap gives the stripe to that table. This needs
    // no more than that entries are where the bitmap says, so it covers tables
    // in which another thread has displacements half done. With unique keys
    // the map is the same before and after.
    method MigrateStripe(lidx: nat)
      requires Sound(levels, bm) && PhaseOk(phase, levels, bm)
      requires lidx !in held && phase.Growing? && lidx in phase.pending
      modifies this`levels, this`bm, this`phase, this`recs, this`held
      ensures Sound(levels, bm) && PhaseOk(phase, levels, bm) && held == old(held)
      ensures Migrated(old(levels), old(phase).src, lidx, levels)
      ensures Flips(old(bm), bm, lidx, old(phase).src)
      ensures phase == old(phase).(pending := old(phase).pending - {lidx})
      ensures old(Valid()) ==> Valid() && Contents() == old(Contents())
    {
      hide Inv, PhaseOk, Flips, Migrated, Sound;
      PhaseMovable(lidx);
      Lock(lidx);
      ghost var l0 := levels;
      var bm2 := if phase.upd then Set1(bm, lidx) else Set0(bm, lidx);
      MigrateSlots(lidx);
      MigrateDone(phase, l0, bm, recs, lidx, levels, bm2);
      recs := MovedRecs(l0, phase.src, lidx, recs);
      bm := bm2;
      phase := phase.(pending := phase.pending - {lidx});
      Unlock(lidx);
    }

    // The worker's three loops over the slots of a stripe.
    method MigrateSlots(lidx: nat)
      requires Sound(levels, bm) && PhaseOk(phase, levels, bm) && phase.Growing? && lidx in phase.pending
      modifies this`levels
      ensures Migrated(old(levels), phase.src, lidx, levels)
    {
      hide Inv, PhaseOk, MidOk, Migrated, Sound, CanMove;
      PhaseMovable(lidx);
      var src := phase.src;
      var power0 := levels[src].power;
      var hiNr := Pow2(power0 - MIN_POWER);
      ghost var l0 := levels;
      MidStart(l0, src, lidx);
      StartRuns(l0, src, lidx, levels);
      var hi := 0;
      while hi < hiNr
        invariant hi <= hiNr
        invariant MidOk(l0, src, lidx, SlotIndex(hi, lidx, 0), 0, levels)
      {
        MigrateRun(l0, lidx, src, hi);
        hi := hi + 1;
      }
      TableSize(l0[src], hiNr);
      MidEnd(l0, src, lidx, SlotIndex(hi, lidx, 0), levels);
    }

    lemma PhaseMovable(lidx: nat)
      requires Sound(levels, bm) && PhaseOk(phase, levels, bm) && phase.Growing? && lidx in phase.pending
      ensures CanMove(levels, bm, phase.src, lidx) && Doubling(levels, phase.src) && lidx < NR_STRIPES
      ensures |bm.bits| == NR_STRIPES && Wf(bm) && phase.upd == (phase.src == 0)
    {
      assert ServedBy(phase, lidx) == phase.src;
    }

    // One run of 64 neighbouring slots of the stripe.
    method MigrateRun(ghost l0: seq<Level>, lidx: nat, src: nat, hi: nat)
      requires CanMove(l0, bm, src, lidx) && MidOk(l0, src, lidx, SlotIndex(hi, lidx, 0), 0, levels)
      requires Doubling(l0, src) && lidx < NR_STRIPES && hi < Pow2(l0[src].power - MIN_POWER)
      modifies this`levels
      ensures MidOk(l0, src, lidx, SlotIndex(hi + 1, lidx, 0), 0, levels)
    {
      hide MidOk, CanMove;
      var lo := 0;
      while lo < 64
        invariant lo <= 64
        invariant MidOk(l0, src, lidx, SlotIndex(hi, lidx, lo), 0, levels)
      {
        SlotIndexStripe(hi, lidx, lo);
        RunInTable(l0[src], hi, lidx, lo);
        MigrateSlot(l0, lidx, src, SlotIndex(hi, lidx, lo));
        NextSlot(l0, src, lidx, SlotIndex(hi, lidx, lo), 8, SlotIndex(hi, lidx, lo + 1), levels);
        lo := lo + 1;
      }
      SkipGap(l0, src, lidx, hi, levels);
    }

    // The eight entries of one slot.
    method MigrateSlot(ghost l0: seq<Level>, lidx: nat, src: nat, hidx0: nat)
      requires CanMove(l0, bm, src, lidx) && MidOk(l0, src, lidx, hidx0, 0, levels)
      requires |l0| == 2 && src < 2 && hidx0 < |l0[src].table| && Stripe(hidx0) == lidx
      modifies this`levels
      ensures MidOk(l0, src, lidx, hidx0, 8, levels)
    {
      hide MidOk, CanMove;
      var dst := OtherLevel(src);
      var k := 0;
      while k < 8
        invariant k <= 8
        invariant MidOk(l0, src, lidx, hidx0, k, levels)
      {
        MidSizes(l0, src, lidx, hidx0, k, levels);
        var e := levels[src].table[hidx0][k];
        if e.ptr.Some? {
          var curr := e.ptr.value;
          MoveStep(l0, bm, src, lidx, hidx0, k, levels);
          var h0 := Hash2(curr.key, 0);
          var hash := if Low(h0, levels[src].power) == hidx0 then h0 else Hash2(curr.key, 1);
          var d := Pos(dst, Low(hash, levels[dst].power), k);
          levels := Write(levels, d, e);
          levels := Write(levels, Pos(src, hidx0, k), EMPTY);
        } else {
          SkipStep(l0, bm, src, lidx, hidx0, k, levels);
        }
        k := k + 1;
      }
    }

    // The end of cuckoo_expand_thread: the old table is released.
    method FinishExpand()
      requires Valid() && phase.Growing? && phase.uniq >= NR_STRIPES && phase.pending == {}
      modifies this`levels, this`phase
      ensures Valid() && phase == Rest(OtherLevel(old(phase).src))
      ensures levels[old(phase).src].table == []
    {
      hide Inv, PhaseOk;
      PhaseShape();
      FinishKeeps(levels, bm, recs, phase);
      levels := levels[phase.src := levels[phase.src].(table := [])];
      phase := Rest(OtherLevel(phase.src));
    }

    // A whole expansion run to its end: the workers' loop and the join.
    method RunExpansion()
      requires Valid() && held == {} && phase.Growing?
      modifies this`levels, this`bm, this`phase, this`recs, this`held
      ensures Valid() && held == {} && phase.Rest? && Contents() == old(Contents())
    {
      hide Inv, PhaseOk;
      var more := true;
      while more
        invariant Valid() && held == {} && phase.Growing? && Contents() == old(Contents())
        invariant !more ==> phase.uniq >= NR_STRIPES && phase.pending == {}
        decreases more, NR_STRIPES - phase.uniq
      {
        DrainPending();
        ghost var uniq := phase.uniq;
        more := ClaimChunk();
        if !more {
          DrainPending();
        }
      }
      FinishExpand();
    }

    // The stripes claimed so far, moved in some order.
    method DrainPending()
      requires Valid() && held == {} && phase.Growing?
      modifies this`levels, this`bm, this`phase, this`recs, this`held
      ensures Valid() && held == {} && Contents() == old(Contents())
      ensures phase == old(phase).(pending := {})
    {
      hide Inv, PhaseOk;
      while phase.pending != {}
        invariant Valid() && held == {} && phase.Growing? && Contents() == old(Contents())
        invariant phase == old(phase).(pending := phase.pending)
        decreases |phase.pending|
      {
        var lidx :| lidx in phase.pending;
        InvSound(levels, bm, recs);
        MigrateStripe(lidx);
      }
    }

    // cuckoo_clean, which waits for a running expansion: every object is given
    // up once and the table starts again at its least power.
    method Clean() returns (ghost kvs: seq<Kv>)
      requires Valid() && held == {} && phase.Rest?
      modifies this`levels, this`bm, this`phase, this`recs, this`log
      ensures Valid() && held == {} && phase.Rest? && Contents() == map[]
      ensures Enumerates(old(Contents()), kvs) && log == old(log) + Retires(mm, kvs)
    {
      hide Inv, PhaseOk, LiveFrom, Retires, Enumerates;
      PhaseShape();
      var tabs := [levels[0].table, levels[1].table];
      TablesHold(levels, bm, recs, tabs);
      WalkEnumerates(tabs, Contents(), Places(recs));
      kvs := Objects(tabs, LiveFrom(tabs, 0, 0, 0));
      var evs := RetireTables(mm, tabs);
      log := log + evs;
      levels := [NewLevel(MIN_POWER), levels[1].(table := [])];
      bm := Create(NR_STRIPES, false);
      phase := Rest(0);
      recs := map[];
      InitKeeps(levels, bm, MIN_POWER);
    }
  }

  // Of 17 keys of one hash one cannot be set, whatever the table held before,
  // however often the set tries and whatever the expand workers do between its
  // attempts: a set that tries until it succeeds does not end.
  method SeventeenAlike(ck: Cuckoo, kvs: seq<Kv>, others: seq<seq<Others>>, h: nat) returns (oks: seq<bool>)
    requires ck.Valid() && ck.held == {} && |kvs| == |others| == 17
    requires forall i :: 0 <= i < 17 ==> kvs[i].key.hash == h
    requires forall i, j :: 0 <= i < j < 17 ==> kvs[i].key != kvs[j].key
    modifies ck
    ensures ck.Valid() && ck.held == {} && |oks| == 17
    ensures exists i :: 0 <= i < 17 && !oks[i]
  {
    hide Inv, PhaseOk, Alike;
    ghost var first: nat := 0; // the first set that has failed
    oks := [];
    while |oks| < 17
      invariant |oks| <= 17 && ck.Valid() && ck.held == {}
      invariant first <= |oks| && (first < |oks| ==> !oks[first])
      invariant forall i :: 0 <= i < first ==> kvs[i].key in ck.Contents()
    {
      var ok, tries;
      ghost var seen;
      ok, tries, seen := ck.SetWithin(kvs[|oks|], others[|oks|]);
      first := if first == |oks| && ok then first + 1 else first;
      oks := oks + [ok];
    }
    AllAlike(ck.Contents(), kvs[..first], h);
    AlikeBound(ck.levels, ck.bm, ck.recs, h);
    assert !oks[first];
  }

  lemma AllAlike(m: map<Key, Kv>, kvs: seq<Kv>, h: nat)
    requires forall i :: 0 <= i < |kvs| ==> kvs[i].key.hash == h && kvs[i].key in m
    requires forall i, j :: 0 <= i < j < |kvs| ==> kvs[i].key != kvs[j].key
    ensures |Alike(m, h)| >= |kvs|
  {
    DistinctSize(seq(|kvs|, i requires 0 <= i < |kvs| => kvs[i].key), Alike(m, h));
  }
}
