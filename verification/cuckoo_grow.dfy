// What doubling the cuckoo table does to its state (cuckoo_expand_worker and
// cuckoo_expand_thread, lib1.c:4164-4232), one stripe at a time.

module CuckooGrow {
  import opened Option
  import opened KvApi
  import opened Pow2s
  import opened Bitmaps
  import opened Stripes
  import opened CuckooState

  function OtherLevel(i: nat): nat {
    if i == 0 then 1 else 0
  }

  // bm2 differs from bm exactly at stripe lidx, which bm2 gives to the other
  // level.
  ghost predicate Flips(bm: Bitmap, bm2: Bitmap, lidx: nat, src: nat) {
    && src < 2 && lidx < NR_STRIPES
    && (forall s :: 0 <= s < NR_STRIPES && s != lidx ==> (Test(bm2, s) <==> Test(bm, s)))
    && (Test(bm, lidx) <==> src == 1) && (Test(bm2, lidx) <==> src == 0)
  }

  // Both tables are there, and level src is half the size of the other.
  ghost predicate Doubling(levels: seq<Level>, src: nat) {
    && |levels| == 2 && src < 2 && LevelOk(levels[0]) && LevelOk(levels[1])
    && levels[0].table != [] && levels[1].table != []
    && levels[OtherLevel(src)].power == levels[src].power + 1
  }

  // Every live entry is where the bitmap says; keys need not be unique, so
  // this holds beside half-done displacements too.
  ghost predicate Sound(levels: seq<Level>, bm: Bitmap) {
    Shape(levels, bm) && forall p :: InTable(levels, p) ==> EntryOk(levels, bm, p, At(levels, p))
  }

  // An object in a slot has that slot's stripe in one of its two hashes.
  lemma SlotStripe(levels: seq<Level>, bm: Bitmap, p: Pos, h: nat)
    requires |levels| == 2 && LevelOk(levels[0]) && LevelOk(levels[1])
    requires InTable(levels, p) && InSlot(levels, bm, p, h)
    ensures Stripe(h) == Stripe(p.j) < NR_STRIPES
  {
    StripeOfSlot(h, levels[p.i].power);
  }

  // A stripe's slots in the level that does not serve it are empty: nothing
  // will be overwritten there.
  lemma UnservedEmpty(levels: seq<Level>, bm: Bitmap, p: Pos)
    requires Sound(levels, bm) && InTable(levels, p) && p.i != Lid(bm, p.j)
    ensures At(levels, p) == EMPTY
  {
    assert EntryOk(levels, bm, p, At(levels, p));
    if At(levels, p).ptr.Some? {
      var key := At(levels, p).ptr.value.key;
      var x :| 0 <= x < 2 && InSlot(levels, bm, p, Hash2(key, x));
      SlotStripe(levels, bm, p, Hash2(key, x));
    }
  }

  // The hash by which the worker moves the object at p.
  function MoveHash(levels: seq<Level>, p: Pos, kv: Kv): nat
    requires p.i < |levels|
  {
    var h0 := Hash2(kv.key, 0);
    if Low(h0, levels[p.i].power) == p.j then h0 else Hash2(kv.key, 1)
  }

  function MoveTo(levels: seq<Level>, p: Pos, kv: Kv): Pos
    requires p.i < 2 && |levels| == 2
  {
    Pos(OtherLevel(p.i), Low(MoveHash(levels, p, kv), levels[OtherLevel(p.i)].power), p.k)
  }

  // The object at p of the stripe being migrated belongs to p by MoveHash, and
  // its destination is free.
  lemma MoveIsFree(levels: seq<Level>, bm: Bitmap, src: nat, p: Pos)
    requires Sound(levels, bm) && Doubling(levels, src) && (Test(bm, Stripe(p.j)) <==> src == 1)
    requires InTable(levels, p) && p.i == src && At(levels, p).ptr.Some?
    ensures var kv := At(levels, p).ptr.value; var d := MoveTo(levels, p, kv);
      && Low(MoveHash(levels, p, kv), levels[src].power) == p.j
      && Low(d.j, levels[src].power) == p.j && Stripe(d.j) == Stripe(p.j)
      && InTable(levels, d) && At(levels, d) == EMPTY
  {
    var kv := At(levels, p).ptr.value;
    assert EntryOk(levels, bm, p, At(levels, p));
    var x :| 0 <= x < 2 && InSlot(levels, bm, p, Hash2(kv.key, x));
    var h := MoveHash(levels, p, kv);
    var d := MoveTo(levels, p, kv);
    LowLow(h, levels[src].power, levels[d.i].power);
    StripeOfSlot(h, levels[d.i].power);
    StripeOfSlot(h, levels[src].power);
    UnservedEmpty(levels, bm, d);
  }

  // ---- what moving a stripe does to each entry ----

  // The object at o is the one that moves to p.
  predicate MovesTo(levels: seq<Level>, o: Pos, p: Pos)
    requires |levels| == 2 && o.i < 2
  {
    InTable(levels, o) && At(levels, o).ptr.Some? && MoveTo(levels, o, At(levels, o).ptr.value) == p
  }

  // The only place of level src an object can move to p from.
  function Origin(levels: seq<Level>, src: nat, p: Pos): Pos
    requires src < |levels|
  {
    Pos(src, Low(p.j, levels[src].power), p.k)
  }

  // Entry p once the cells of the stripe before (j, k) have been moved.
  function MidAt(levels: seq<Level>, src: nat, lidx: nat, j: nat, k: nat, p: Pos): Entry
    requires |levels| == 2 && src < 2 && InTable(levels, p)
  {
    if Stripe(p.j) != lidx then At(levels, p)
    else if p.i == src then (if Before(p.j, p.k, j, k) then EMPTY else At(levels, p))
    else
      var o := Origin(levels, src, p);
      if Before(o.j, o.k, j, k) && MovesTo(levels, o, p) then At(levels, o) else At(levels, p)
  }

  // Entry p once the whole stripe has been moved.
  function MovedAt(levels: seq<Level>, src: nat, lidx: nat, p: Pos): Entry
    requires |levels| == 2 && src < 2 && InTable(levels, p)
  {
    if Stripe(p.j) != lidx then At(levels, p)
    else if p.i == src then EMPTY
    else
      var o := Origin(levels, src, p);
      if MovesTo(levels, o, p) then At(levels, o) else At(levels, p)
  }

  // Cell (a, b) of the stripe comes before (j, k) in the worker's order.
  predicate Before(a: nat, b: nat, j: nat, k: nat) {
    a < j || (a == j && b < k)
  }

  // The worker of stripe lidx started from levels and has come to (j, k).
  ghost predicate MidOk(levels: seq<Level>, src: nat, lidx: nat, j: nat, k: nat, l2: seq<Level>) {
    && SameSizes(levels, l2) && src < 2
    && forall p :: InTable(levels, p) ==> InTable(l2, p) && At(l2, p) == MidAt(levels, src, lidx, j, k, p)
  }

  // l2 is levels with stripe lidx moved from level src to the other one.
  ghost predicate Migrated(levels: seq<Level>, src: nat, lidx: nat, l2: seq<Level>) {
    && SameSizes(levels, l2) && src < 2
    && forall p :: InTable(levels, p) ==> InTable(l2, p) && At(l2, p) == MovedAt(levels, src, lidx, p)
  }

  // What a move needs to know of the tables it starts from.
  ghost predicate CanMove(levels: seq<Level>, bm: Bitmap, src: nat, lidx: nat) {
    Sound(levels, bm) && Doubling(levels, src) && lidx < NR_STRIPES && (Test(bm, lidx) <==> src == 1)
  }

  lemma MidStart(levels: seq<Level>, src: nat, lidx: nat)
    requires |levels| == 2 && src < 2
    ensures MidOk(levels, src, lidx, 0, 0, levels)
  {
  }

  lemma MidSizes(levels: seq<Level>, src: nat, lidx: nat, j: nat, k: nat, l2: seq<Level>)
    requires MidOk(levels, src, lidx, j, k, l2)
    ensures SameSizes(levels, l2)
  {
  }

  // Moving the object at (j, k) is one turn of the worker's loop.
  lemma MoveStep(levels: seq<Level>, bm: Bitmap, src: nat, lidx: nat, j: nat, k: nat, l2: seq<Level>)
    requires CanMove(levels, bm, src, lidx) && MidOk(levels, src, lidx, j, k, l2) && Stripe(j) == lidx
    requires InTable(l2, Pos(src, j, k)) && At(l2, Pos(src, j, k)).ptr.Some?
    ensures var p := Pos(src, j, k); var e := At(l2, p); var d := MoveTo(l2, p, e.ptr.value);
      && Low(MoveHash(l2, p, e.ptr.value), l2[src].power) == j
      && InTable(l2, d) && InTable(Write(l2, d, e), p)
      && MidOk(levels, src, lidx, j, k + 1, Write(Write(l2, d, e), p, EMPTY))
  {
    hide Sound, Doubling;
    var p := Pos(src, j, k);
    SizesInTable(levels, l2);
    MoveIsFree(levels, bm, src, p);
    var e := At(l2, p);
    var d := MoveTo(l2, p, e.ptr.value);
    var l3 := Write(Write(l2, d, e), p, EMPTY);
    forall q | InTable(levels, q) ensures InTable(l3, q) && At(l3, q) == MidAt(levels, src, lidx, j, k + 1, q) {
      WriteAt(l2, d, e, q);
      WriteAt(Write(l2, d, e), p, EMPTY, q);
    }
  }

  lemma SizesInTable(levels: seq<Level>, l2: seq<Level>)
    requires SameSizes(levels, l2)
    ensures forall p :: InTable(l2, p) <==> InTable(levels, p)
  {
  }

  // A cell that is empty needs nothing.
  lemma SkipStep(levels: seq<Level>, bm: Bitmap, src: nat, lidx: nat, j: nat, k: nat, l2: seq<Level>)
    requires CanMove(levels, bm, src, lidx) && MidOk(levels, src, lidx, j, k, l2) && Stripe(j) == lidx
    requires InTable(l2, Pos(src, j, k)) && At(l2, Pos(src, j, k)).ptr.None?
    ensures MidOk(levels, src, lidx, j, k + 1, l2)
  {
    hide Sound, Doubling;
    SizesInTable(levels, l2);
    var p := Pos(src, j, k);
    EmptyEntry(levels, bm, p);
    forall q | InTable(levels, q) ensures MidAt(levels, src, lidx, j, k + 1, q) == MidAt(levels, src, lidx, j, k, q) {
      assert Origin(levels, src, q) == p ==> !MovesTo(levels, p, q);
    }
  }

  lemma EmptyEntry(levels: seq<Level>, bm: Bitmap, p: Pos)
    requires Sound(levels, bm) && InTable(levels, p) && At(levels, p).ptr.None?
    ensures At(levels, p) == EMPTY
  {
    assert EntryOk(levels, bm, p, At(levels, p));
  }

  // After the last entry of slot j comes the first one of any slot j2 above
  // it, when no slot of the stripe lies between them.
  lemma NextSlot(levels: seq<Level>, src: nat, lidx: nat, j: nat, k: nat, j2: nat, l2: seq<Level>)
    requires MidOk(levels, src, lidx, j, k, l2) && |levels| == 2 && LevelOk(levels[src]) && levels[src].power >= MIN_POWER
    requires (k == 8 && j < j2) || (k == 0 && j <= j2)
    requires forall a: nat :: Stripe(a) == lidx && j < a < j2 ==> false
    requires k == 0 && j < j2 ==> Stripe(j) != lidx
    ensures MidOk(levels, src, lidx, j2, 0, l2)
  {
    forall p | InTable(levels, p) ensures MidAt(levels, src, lidx, j2, 0, p) == MidAt(levels, src, lidx, j, k, p) {
      StripeOfSlot(p.j, levels[src].power);
      var o := Origin(levels, src, p);
      assert Stripe(p.j) == lidx ==> (Before(p.j, p.k, j2, 0) <==> Before(p.j, p.k, j, k));
      assert Stripe(o.j) == lidx ==> (Before(o.j, o.k, j2, 0) <==> Before(o.j, o.k, j, k));
    }
  }

  lemma MidEnd(levels: seq<Level>, src: nat, lidx: nat, j: nat, l2: seq<Level>)
    requires MidOk(levels, src, lidx, j, 0, l2) && j >= |levels[src].table|
    ensures Migrated(levels, src, lidx, l2)
  {
  }

  // ---- a moved stripe ----

  // Where the object at p is once the stripe has been moved.
  function NewPlace(levels: seq<Level>, src: nat, lidx: nat, p: Pos, kv: Kv): Pos
    requires |levels| == 2 && src < 2
  {
    if p.i == src && Stripe(p.j) == lidx then MoveTo(levels, p, kv) else p
  }

  // With unique keys every entry is where the bitmap says.
  lemma InvSound(levels: seq<Level>, bm: Bitmap, recs: map<Key, Rec>)
    requires Inv(levels, bm, recs)
    ensures Sound(levels, bm)
  {
  }

  // Nothing is lost: every object is still stored, in the same stripe.
  lemma MigratedTo(levels: seq<Level>, bm: Bitmap, src: nat, lidx: nat, l2: seq<Level>, p: Pos)
    requires CanMove(levels, bm, src, lidx) && Migrated(levels, src, lidx, l2)
    requires InTable(levels, p) && At(levels, p).ptr.Some?
    ensures var q := NewPlace(levels, src, lidx, p, At(levels, p).ptr.value);
      InTable(l2, q) && At(l2, q) == At(levels, p) && Stripe(q.j) == Stripe(p.j)
  {
    if p.i == src && Stripe(p.j) == lidx {
      MoveIsFree(levels, bm, src, p);
    } else if Stripe(p.j) == lidx {
      UnservedEmpty(levels, bm, p);
    }
  }

  // Nothing is added: every object was stored before, in the same stripe.
  lemma MigratedFrom(levels: seq<Level>, bm: Bitmap, src: nat, lidx: nat, l2: seq<Level>, q: Pos) returns (p: Pos)
    requires CanMove(levels, bm, src, lidx) && Migrated(levels, src, lidx, l2)
    requires InTable(l2, q) && At(l2, q).ptr.Some?
    ensures InTable(levels, p) && At(levels, p) == At(l2, q) && Stripe(p.j) == Stripe(q.j)
    ensures q == NewPlace(levels, src, lidx, p, At(l2, q).ptr.value)
  {
    SizesInTable(levels, l2);
    p := q;
    if Stripe(q.j) == lidx {
      var o := Origin(levels, src, q);
      StripeOfSlot(q.j, levels[src].power);
      if MovesTo(levels, o, q) {
        p := o;
      }
    }
  }

  lemma MigratedSizes(levels: seq<Level>, src: nat, lidx: nat, l2: seq<Level>)
    requires Migrated(levels, src, lidx, l2)
    ensures SameSizes(levels, l2) && forall p :: InTable(l2, p) <==> InTable(levels, p)
  {
    SizesInTable(levels, l2);
  }

  // Giving the stripe to the other level in the bitmap makes every entry be
  // where the bitmap says again.
  lemma MigratedSound(levels: seq<Level>, bm: Bitmap, bm2: Bitmap, src: nat, lidx: nat, l2: seq<Level>)
    requires CanMove(levels, bm, src, lidx) && Migrated(levels, src, lidx, l2)
    requires Flips(bm, bm2, lidx, src) && |bm2.bits| == NR_STRIPES && Wf(bm2)
    ensures Sound(l2, bm2)
  {
    hide Migrated, Fits;
    MigratedSizes(levels, src, lidx, l2);
    forall q | InTable(l2, q) ensures EntryOk(l2, bm2, q, At(l2, q)) {
      if At(l2, q).ptr.Some? {
        var p := MigratedFrom(levels, bm, src, lidx, l2, q);
        assert EntryOk(levels, bm, p, At(levels, p));
        PlaceFits(levels, bm, bm2, src, lidx, l2, p, At(l2, q).ptr.value);
      } else {
        MigratedEmpty(levels, bm, src, lidx, l2, q);
      }
    }
  }

  lemma MigratedEmpty(levels: seq<Level>, bm: Bitmap, src: nat, lidx: nat, l2: seq<Level>, q: Pos)
    requires CanMove(levels, bm, src, lidx) && Migrated(levels, src, lidx, l2)
    requires InTable(l2, q) && At(l2, q).ptr.None?
    ensures At(l2, q) == EMPTY
  {
    SizesInTable(levels, l2);
    if At(levels, q).ptr.None? {
      EmptyEntry(levels, bm, q);
    }
  }

  lemma PlaceFits(levels: seq<Level>, bm: Bitmap, bm2: Bitmap, src: nat, lidx: nat, l2: seq<Level>, p: Pos, kv: Kv)
    requires CanMove(levels, bm, src, lidx) && SameSizes(levels, l2) && Flips(bm, bm2, lidx, src)
    requires InTable(levels, p) && At(levels, p).ptr == Some(kv) && Fits(levels, bm, p, kv.key)
    ensures Fits(l2, bm2, NewPlace(levels, src, lidx, p, kv), kv.key)
  {
    var x :| 0 <= x < 2 && InSlot(levels, bm, p, Hash2(kv.key, x));
    SlotStripe(levels, bm, p, Hash2(kv.key, x));
    if p.i == src && Stripe(p.j) == lidx {
      MoveIsFree(levels, bm, src, p);
      var h := MoveHash(levels, p, kv);
      StripeOfSlot(h, levels[src].power);
      assert InSlot(l2, bm2, MoveTo(levels, p, kv), Hash2(kv.key, if h == Hash2(kv.key, 0) then 0 else 1));
    } else {
      assert InSlot(l2, bm2, p, Hash2(kv.key, x));
    }
  }

  // The records after the stripe has been moved.
  function MovedRecs(levels: seq<Level>, src: nat, lidx: nat, recs: map<Key, Rec>): map<Key, Rec>
    requires |levels| == 2 && src < 2
  {
    map key | key in recs :: Rec(NewPlace(levels, src, lidx, recs[key].p, recs[key].kv), recs[key].kv)
  }

  // With unique keys the map is the same before and after.
  lemma MigratedKeeps(levels: seq<Level>, bm: Bitmap, bm2: Bitmap, recs: map<Key, Rec>, src: nat, lidx: nat, l2: seq<Level>)
    requires Inv(levels, bm, recs) && Doubling(levels, src)
    requires Flips(bm, bm2, lidx, src) && |bm2.bits| == NR_STRIPES && Wf(bm2)
    requires Migrated(levels, src, lidx, l2)
    ensures Inv(l2, bm2, MovedRecs(levels, src, lidx, recs))
    ensures Contents(MovedRecs(levels, src, lidx, recs)) == Contents(recs)
  {
    hide Migrated, Shape, EntryOk, Flips, Doubling;
    InvSound(levels, bm, recs);
    FlipsCanMove(levels, bm, bm2, src, lidx);
    MigratedSound(levels, bm, bm2, src, lidx, l2);
    var recs2 := MovedRecs(levels, src, lidx, recs);
    forall q | InTable(l2, q) && At(l2, q).ptr.Some?
      ensures var kv := At(l2, q).ptr.value; kv.key in recs2 && recs2[kv.key] == Rec(q, kv)
    {
      LiveMoved(levels, bm, recs, src, lidx, l2, q);
    }
    forall key | key in recs2
      ensures InTable(l2, recs2[key].p) && At(l2, recs2[key].p).ptr == Some(recs2[key].kv) && recs2[key].kv.key == key
    {
      RecMoved(levels, bm, recs, src, lidx, l2, key);
    }
  }

  lemma FlipsCanMove(levels: seq<Level>, bm: Bitmap, bm2: Bitmap, src: nat, lidx: nat)
    requires Sound(levels, bm) && Doubling(levels, src) && Flips(bm, bm2, lidx, src)
    ensures CanMove(levels, bm, src, lidx) && |levels| == 2 && src < 2
  {
  }

  lemma LiveMoved(levels: seq<Level>, bm: Bitmap, recs: map<Key, Rec>, src: nat, lidx: nat, l2: seq<Level>, q: Pos)
    requires Inv(levels, bm, recs) && CanMove(levels, bm, src, lidx) && Migrated(levels, src, lidx, l2)
    requires InTable(l2, q) && At(l2, q).ptr.Some?
    ensures var kv := At(l2, q).ptr.value; var recs2 := MovedRecs(levels, src, lidx, recs);
      kv.key in recs2 && recs2[kv.key] == Rec(q, kv)
  {
    hide Migrated, CanMove, NewPlace, Shape, EntryOk;
    var p := MigratedFrom(levels, bm, src, lidx, l2, q);
    assert InTable(levels, p) && At(levels, p).ptr.Some?;
  }

  lemma RecMoved(levels: seq<Level>, bm: Bitmap, recs: map<Key, Rec>, src: nat, lidx: nat, l2: seq<Level>, key: Key)
    requires Inv(levels, bm, recs) && CanMove(levels, bm, src, lidx) && Migrated(levels, src, lidx, l2) && key in recs
    ensures var r := MovedRecs(levels, src, lidx, recs)[key];
      InTable(l2, r.p) && At(l2, r.p).ptr == Some(r.kv) && r.kv.key == key
  {
    hide Migrated, CanMove, NewPlace, Shape, EntryOk;
    MigratedTo(levels, bm, src, lidx, l2, recs[key].p);
  }

  // ---- the slots of a stripe ----

  // (hi << 16) | (lidx << 6) | lo.
  function SlotIndex(hi: nat, lidx: nat, lo: nat): nat {
    hi * 65536 + lidx * 64 + lo
  }

  // The three loops' indices are exactly the slots of the stripe: each belongs
  // to it, and each slot of it has one pair (hi, lo).
  lemma SlotIndexStripe(hi: nat, lidx: nat, lo: nat)
    requires lidx < NR_STRIPES && lo < 64
    ensures Stripe(SlotIndex(hi, lidx, lo)) == lidx
  {
    DivModUnique(SlotIndex(hi, lidx, lo), 64, hi * 1024 + lidx, lo);
    DivModUnique(hi * 1024 + lidx, 1024, hi, lidx);
  }

  lemma SlotIndexCovers(j: nat)
    ensures j == SlotIndex(j / 65536, Stripe(j), j % 64)
  {
  }

  lemma SlotIndexUnique(lidx: nat, hi: nat, lo: nat, hi2: nat, lo2: nat)
    requires lidx < NR_STRIPES && lo < 64 && lo2 < 64 && SlotIndex(hi, lidx, lo) == SlotIndex(hi2, lidx, lo2)
    ensures hi == hi2 && lo == lo2
  {
  }

  // From the end of one run of 64 slots to the start of the next there is no
  // slot of the stripe.
  lemma GapBetweenRuns(hi: nat, lidx: nat, a: nat)
    requires lidx < NR_STRIPES && SlotIndex(hi, lidx, 64) <= a < SlotIndex(hi + 1, lidx, 0)
    ensures Stripe(a) != lidx
  {
    SlotIndexCovers(a);
  }

  lemma GapBeforeRuns(lidx: nat, a: nat)
    requires lidx < NR_STRIPES && a < SlotIndex(0, lidx, 0)
    ensures Stripe(a) != lidx
  {
    SlotIndexCovers(a);
  }

  lemma SkipGap(levels: seq<Level>, src: nat, lidx: nat, hi: nat, l2: seq<Level>)
    requires Doubling(levels, src) && lidx < NR_STRIPES
    requires MidOk(levels, src, lidx, SlotIndex(hi, lidx, 64), 0, l2)
    ensures MidOk(levels, src, lidx, SlotIndex(hi + 1, lidx, 0), 0, l2)
  {
    forall a: nat | SlotIndex(hi, lidx, 64) <= a < SlotIndex(hi + 1, lidx, 0) ensures Stripe(a) != lidx {
      GapBetweenRuns(hi, lidx, a);
    }
    NextSlot(levels, src, lidx, SlotIndex(hi, lidx, 64), 0, SlotIndex(hi + 1, lidx, 0), l2);
  }

  lemma StartRuns(levels: seq<Level>, src: nat, lidx: nat, l2: seq<Level>)
    requires Doubling(levels, src) && lidx < NR_STRIPES
    requires MidOk(levels, src, lidx, 0, 0, l2)
    ensures MidOk(levels, src, lidx, SlotIndex(0, lidx, 0), 0, l2)
  {
    forall a: nat | a < SlotIndex(0, lidx, 0) ensures Stripe(a) != lidx {
      GapBeforeRuns(lidx, a);
    }
    NextSlot(levels, src, lidx, 0, 0, SlotIndex(0, lidx, 0), l2);
  }

  lemma {:induction false} PowAdd(m: nat, n: nat)
    ensures Pow2(m + n) == Pow2(m) * Pow2(n)
    decreases n
  {
    if n > 0 {
      PowAdd(m, n - 1);
      assert Pow2(m + n) == 2 * Pow2(m + (n - 1));
      Assoc(2, Pow2(m), Pow2(n - 1));
      Assoc(Pow2(m), 2, Pow2(n - 1));
    }
  }

  // A table of power p has 2^(p-16) runs of 65536 slots.
  lemma TableSize(l: Level, hiNr: nat)
    requires LevelOk(l) && l.table != [] && hiNr == Pow2(l.power - MIN_POWER)
    ensures |l.table| == hiNr * 65536
  {
    PowAdd(l.power - MIN_POWER, MIN_POWER);
    Pow16();
  }

  lemma RunInTable(l: Level, hi: nat, lidx: nat, lo: nat)
    requires l.power >= MIN_POWER && |l.table| == Pow2(l.power) && hi < Pow2(l.power - MIN_POWER)
    requires lidx < NR_STRIPES && lo < 64
    ensures SlotIndex(hi, lidx, lo) < |l.table|
  {
    TableSize(l, Pow2(l.power - MIN_POWER));
  }

  lemma FlipsIs(bm: Bitmap, bm2: Bitmap, lidx: nat, src: nat)
    requires src < 2 && lidx < NR_STRIPES && |bm.bits| == NR_STRIPES && Wf(bm) && (Test(bm, lidx) <==> src == 1)
    requires bm2 == if src == 0 then Set1(bm, lidx) else Set0(bm, lidx)
    ensures Flips(bm, bm2, lidx, src) && |bm2.bits| == NR_STRIPES && Wf(bm2)
  {
  }
}
