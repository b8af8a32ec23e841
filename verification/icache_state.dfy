// A slot of the index cache (lib1.c:5803-5972): up to seven cached pointers
// with a 4-bit access counter each, and the history ring of recent tags.

module ICacheState {
  import opened Option
  import opened KvApi
  import opened EntryCounts

  const ENTRY_NR: nat := 7
  const AMAX: nat := 15
  const HIST_NR: nat := 7

  // ---- amap: counters packed four bits each ----

  function Pow16(n: nat): (r: nat)
    ensures r > 0
  {
    if n == 0 then 1 else 16 * Pow16(n - 1)
  }

  // (amap >> (i << 2)) & AMAX
  function Nibble(amap: nat, i: nat): (v: nat)
    ensures v <= AMAX
    decreases i
  {
    if i == 0 then amap % 16 else Nibble(amap / 16, i - 1)
  }

  // icache_amap_inc, icache_amap_dec: one more or one less, within the nibble.
  function AmapInc(amap: nat, i: nat): nat {
    if Nibble(amap, i) < AMAX then amap + Pow16(i) else amap
  }

  function AmapDec(amap: nat, i: nat): nat {
    if Nibble(amap, i) > 0 && amap >= Pow16(i) then amap - Pow16(i) else amap
  }

  // amap & ~(AMAX << (i << 2))
  function AmapClear(amap: nat, i: nat): nat {
    var v := Nibble(amap, i) * Pow16(i);
    if amap >= v then amap - v else 0
  }

  // icache_amap_set
  function AmapSet(amap: nat, i: nat, c: nat): nat {
    AmapClear(amap, i) + c % 16 * Pow16(i)
  }

  // Adding d at nibble i, without carry or borrow, changes that nibble alone
  // and stays within the field.
  lemma {:induction false} AddNibble(amap: nat, i: nat, d: int, j: nat, n: nat)
    requires 0 <= Nibble(amap, i) + d <= AMAX
    ensures amap + d * Pow16(i) >= 0
    ensures Nibble(amap + d * Pow16(i), j) == if j == i then Nibble(amap, i) + d else Nibble(amap, j)
    ensures i < n && amap < Pow16(n) ==> amap + d * Pow16(i) < Pow16(n)
    decreases i
  {
    var s := amap + d * Pow16(i);
    if i == 0 {
      assert s / 16 == amap / 16;
      if 0 < n && amap < Pow16(n) {
        assert amap / 16 < Pow16(n - 1);
      }
    } else {
      var p := Pow16(i - 1);
      AddNibble(amap / 16, i - 1, d, if j == 0 then 0 else j - 1, if n == 0 then 0 else n - 1);
      MulTower(d, p);
      assert s == amap + 16 * (d * p);
      assert s / 16 == amap / 16 + d * p && s % 16 == amap % 16;
    }
  }

  lemma MulTower(d: int, p: nat)
    ensures d * (16 * p) == 16 * (d * p)
  {
  }

  // A counter is never more than its field's share of the word.
  lemma {:induction false} NibbleFits(amap: nat, i: nat)
    ensures Nibble(amap, i) * Pow16(i) <= amap
    decreases i
  {
    if i > 0 {
      NibbleFits(amap / 16, i - 1);
      MulTower(Nibble(amap / 16, i - 1), Pow16(i - 1));
    }
  }

  // Every amap update touches its own nibble alone: the others, and the field
  // bound, are kept.
  lemma {:induction false} AmapOwnNibble(amap: nat, i: nat, c: nat, j: nat)
    requires i < ENTRY_NR && amap < Pow16(ENTRY_NR) && c <= AMAX
    ensures AmapInc(amap, i) < Pow16(ENTRY_NR) && AmapDec(amap, i) < Pow16(ENTRY_NR)
    ensures AmapClear(amap, i) < Pow16(ENTRY_NR) && AmapSet(amap, i, c) < Pow16(ENTRY_NR)
    ensures j != i ==> Nibble(AmapInc(amap, i), j) == Nibble(amap, j)
    ensures j != i ==> Nibble(AmapDec(amap, i), j) == Nibble(amap, j)
    ensures j != i ==> Nibble(AmapClear(amap, i), j) == Nibble(amap, j)
    ensures j != i ==> Nibble(AmapSet(amap, i, c), j) == Nibble(amap, j)
    ensures Nibble(AmapInc(amap, i), i) == if Nibble(amap, i) < AMAX then Nibble(amap, i) + 1 else AMAX
    ensures Nibble(AmapDec(amap, i), i) == if Nibble(amap, i) > 0 then Nibble(amap, i) - 1 else 0
    ensures Nibble(AmapClear(amap, i), i) == 0 && Nibble(AmapSet(amap, i, c), i) == c
  {
    hide AmapInc, AmapDec, AmapClear, AmapSet, Nibble;
    BumpOwn(amap, i, j);
    BumpOwn(amap, i, i);
    SetOwn(amap, i, c, j);
    SetOwn(amap, i, c, i);
  }

  lemma {:induction false} BumpOwn(amap: nat, i: nat, j: nat)
    requires i < ENTRY_NR && amap < Pow16(ENTRY_NR)
    ensures AmapInc(amap, i) < Pow16(ENTRY_NR) && AmapDec(amap, i) < Pow16(ENTRY_NR)
    ensures Nibble(AmapInc(amap, i), j) == Nibble(amap, j) + if j == i && Nibble(amap, i) < AMAX then 1 else 0
    ensures Nibble(AmapDec(amap, i), j) == Nibble(amap, j) - if j == i && Nibble(amap, i) > 0 then 1 else 0
  {
    hide Pow16, Nibble;
    NibbleFits(amap, i);
    Scaled(Nibble(amap, i), Pow16(i));
    if Nibble(amap, i) < AMAX {
      AddNibble(amap, i, 1, j, ENTRY_NR);
    }
    if Nibble(amap, i) > 0 {
      AddNibble(amap, i, -1, j, ENTRY_NR);
    }
  }

  lemma {:induction false} ClearOwn(amap: nat, i: nat, j: nat)
    requires i < ENTRY_NR && amap < Pow16(ENTRY_NR)
    ensures AmapClear(amap, i) < Pow16(ENTRY_NR)
    ensures Nibble(AmapClear(amap, i), j) == if j == i then 0 else Nibble(amap, j)
  {
    hide Pow16, Nibble, AmapClear;
    var v: int := Nibble(amap, i);
    var d := 0 - v;
    ClearIs(amap, i, d);
    AddNibble(amap, i, d, j, ENTRY_NR);
  }

  lemma {:induction false} ClearIs(amap: nat, i: nat, d: int)
    requires d == 0 - Nibble(amap, i)
    ensures AmapClear(amap, i) == amap + d * Pow16(i)
  {
    hide Pow16, Nibble;
    NibbleFits(amap, i);
    Opposite(Nibble(amap, i), Pow16(i));
  }

  lemma Opposite(v: int, p: int)
    ensures (0 - v) * p == 0 - v * p
  {
  }

  lemma {:induction false} SetOwn(amap: nat, i: nat, c: nat, j: nat)
    requires i < ENTRY_NR && amap < Pow16(ENTRY_NR) && c <= AMAX
    ensures AmapClear(amap, i) < Pow16(ENTRY_NR) && AmapSet(amap, i, c) < Pow16(ENTRY_NR)
    ensures Nibble(AmapClear(amap, i), j) == if j == i then 0 else Nibble(amap, j)
    ensures Nibble(AmapSet(amap, i, c), j) == if j == i then c else Nibble(amap, j)
  {
    hide Pow16, Nibble, AmapClear;
    ClearOwn(amap, i, i);
    ClearOwn(amap, i, j);
    assert c % 16 == c;
    AddNibble(AmapClear(amap, i), i, c, j, ENTRY_NR);
  }

  lemma Scaled(v: int, p: int)
    requires p > 0
    ensures v > 0 ==> v * p >= p
    ensures -1 * p == -p && 1 * p == p
  {
  }

  // ---- the history ring ----

  datatype Hist = Hist(head: nat, tags: seq<nat>)

  predicate HistOk(h: Hist) {
    |h.tags| == HIST_NR && h.head < HIST_NR
  }

  // The recorded tags, oldest first.
  function Recent(h: Hist): (r: seq<nat>)
    requires HistOk(h)
  {
    h.tags[h.head..] + h.tags[..h.head]
  }

  // icache_hist_update: how often the tag occurs among the last seven, and the
  // ring with the oldest of them replaced by it.
  method HistUpdate(h: Hist, pkey: nat) returns (rep: nat, h2: Hist)
    requires HistOk(h)
    ensures rep == multiset(Recent(h))[pkey] && rep <= HIST_NR
    ensures HistOk(h2) && Recent(h2) == Recent(h)[1..] + [pkey]
  {
    rep := 0;
    var i := 0;
    while i < HIST_NR
      invariant 0 <= i <= HIST_NR && rep == multiset(h.tags[..i])[pkey] <= i
    {
      assert h.tags[..i + 1] == h.tags[..i] + [h.tags[i]];
      if pkey == h.tags[i] {
        rep := rep + 1;
      }
      i := i + 1;
    }
    h2 := Hist((h.head + 1) % HIST_NR, h.tags[h.head := pkey]);
    assert h.tags == h.tags[..h.head] + h.tags[h.head..];
    assert h.tags[..HIST_NR] == h.tags;
    RingStep(h, pkey);
  }

  lemma RingStep(h: Hist, pkey: nat)
    requires HistOk(h)
    ensures Recent(Hist((h.head + 1) % HIST_NR, h.tags[h.head := pkey])) == Recent(h)[1..] + [pkey]
  {
    hide Recent;
    Turned(h.tags, h.head, pkey);
    RecentIs(h);
    RecentIs(Hist((h.head + 1) % HIST_NR, h.tags[h.head := pkey]));
    if h.head + 1 < HIST_NR {
      assert (h.head + 1) % HIST_NR == h.head + 1;
    } else {
      assert (h.head + 1) % HIST_NR == 0;
    }
  }

  lemma RecentIs(h: Hist)
    requires HistOk(h)
    ensures Recent(h) == h.tags[h.head..] + h.tags[..h.head]
  {
  }

  // A sequence turned at n, with its entry n replaced and turned past it.
  lemma Turned(ts: seq<nat>, n: nat, x: nat)
    requires n < |ts|
    ensures (ts[n..] + ts[..n])[1..] == ts[n + 1..] + ts[..n]
    ensures ts[n := x][n + 1..] + ts[n := x][..n + 1] == ts[n + 1..] + ts[..n] + [x]
    ensures n + 1 == |ts| ==> ts[n := x][0..] + ts[n := x][..0] == ts[n + 1..] + ts[..n] + [x]
  {
    assert ts[n..] == [ts[n]] + ts[n + 1..];
    assert ts[n := x] == ts[..n] + [x] + ts[n + 1..];
    assert ts[n := x][n + 1..] == ts[n + 1..];
    assert ts[n := x][..n + 1] == ts[..n] + [x];
  }

  // ---- slots ----

  // struct __icache_slot
  datatype CSlot = CSlot(amap: nat, used: nat, e: seq<Entry>)

  function EmptyCSlot(): CSlot {
    CSlot(0, 0, seq(ENTRY_NR, _ => EMPTY))
  }

  // The slot of a hash in a table of nr slots.
  function SlotIndex(hash: nat, nr: nat): (i: nat)
    requires nr > 0
    ensures i < nr
  {
    (hash / 64) % nr
  }

  // icache_put_entry
  function PutCached(kv: Option<Kv>): Entry {
    Entry(kv, if kv.Some? then Pkey(kv.value.key.hash) else 0)
  }

  // A slot on its own: the count and the tags are right, every pointer is in
  // the slot of its hash, and no key appears twice.
  ghost predicate Shape(s: CSlot, idx: nat, nr: nat)
    requires nr > 0
  {
    && |s.e| == ENTRY_NR && s.used == Used(s.e) && s.amap < Pow16(ENTRY_NR)
    && (forall i :: 0 <= i < ENTRY_NR ==> s.e[i].pkey == PutCached(s.e[i].ptr).pkey)
    && (forall i :: 0 <= i < ENTRY_NR && s.e[i].ptr.Some? ==> SlotIndex(s.e[i].ptr.value.key.hash, nr) == idx)
    && (forall i, j :: 0 <= i < j < ENTRY_NR && s.e[i].ptr.Some? && s.e[j].ptr.Some? ==>
      s.e[i].ptr.value.key != s.e[j].ptr.value.key)
  }

  // Every cached pointer is the index's object for its key.
  ghost predicate Live(s: CSlot, live: map<Key, Kv>) {
    forall i :: 0 <= i < |s.e| && s.e[i].ptr.Some? ==> Find(live, s.e[i].ptr.value.key) == s.e[i].ptr
  }

  // No entry of the slot holds the key.
  ghost predicate Lacks(s: CSlot, key: Key) {
    forall i :: 0 <= i < |s.e| && s.e[i].ptr.Some? ==> s.e[i].ptr.value.key != key
  }

  // Caching an object whose key the slot lacks, in any entry.
  lemma PutKeeps(s: CSlot, idx: nat, nr: nat, live: map<Key, Kv>, i: nat, kv: Kv, amap: nat)
    requires nr > 0 && Shape(s, idx, nr) && Live(s, live) && Lacks(s, kv.key)
    requires i < ENTRY_NR && SlotIndex(kv.key.hash, nr) == idx && Find(live, kv.key) == Some(kv)
    requires amap < Pow16(ENTRY_NR)
    ensures var e2 := s.e[i := PutCached(Some(kv))];
      Shape(CSlot(amap, Used(e2), e2), idx, nr) && Live(CSlot(amap, Used(e2), e2), live)
  {
  }

  // Dropping an entry.
  lemma DropKeeps(s: CSlot, idx: nat, nr: nat, i: nat, amap: nat)
    requires nr > 0 && Shape(s, idx, nr) && i < ENTRY_NR && amap < Pow16(ENTRY_NR)
    ensures var e2 := s.e[i := PutCached(None)];
      Shape(CSlot(amap, Used(e2), e2), idx, nr)
  {
  }

  // ---- icache_update ----

  // kv has gone into the empty entry i.
  ghost predicate Filled(s: CSlot, s2: CSlot, i: nat, kv: Kv) {
    && i < |s.e| && s.e[i].ptr.None?
    && s2 == CSlot(s.amap, s.used + 1, s.e[i := PutCached(Some(kv))])
  }

  // The k-th entry from the victim on has been used at least rep times.
  predicate Busy(amap: nat, victim: nat, k: nat, rep: nat) {
    Nibble(amap, (victim + k) % ENTRY_NR) >= rep
  }

  // kv has replaced entry i, the first in circular order from the victim whose
  // counter is below rep once the victim's has been aged.
  ghost predicate Evicted(s: CSlot, s2: CSlot, victim: nat, i: nat, rep: nat, kv: Kv) {
    var amap, vi := AmapDec(s.amap, victim), (victim + i) % ENTRY_NR;
    && i < ENTRY_NR == |s.e|
    && Nibble(amap, vi) < rep
    && (forall k :: 0 <= k < i ==> Busy(amap, victim, k, rep))
    && s2 == CSlot(AmapSet(amap, vi, rep), s.used, s.e[vi := PutCached(Some(kv))])
  }

  // What icache_update makes of a slot: a free entry is filled, or an entry is
  // replaced, or the victim aged and nothing else.
  ghost predicate Updated(s: CSlot, s2: CSlot, rep: nat, kv: Kv) {
    if s.used < ENTRY_NR then exists at: nat :: Filled(s, s2, at, kv)
    else exists victim: nat :: victim < ENTRY_NR && UpdatedFull(s, s2, victim, rep, kv)
  }

  ghost predicate UpdatedFull(s: CSlot, s2: CSlot, victim: nat, rep: nat, kv: Kv)
    requires victim < ENTRY_NR
  {
    || (exists at: nat :: Evicted(s, s2, victim, at, rep, kv))
    || (s2 == s.(amap := AmapDec(s.amap, victim)) && forall k :: 0 <= k < ENTRY_NR ==> Busy(s2.amap, victim, k, rep))
  }

  // What a hint does to the slot and the history of the object's hash. The
  // history records the hit when the slot has a free entry, or by luck; an
  // object seen lately then comes into the slot as icache_update has it.
  ghost predicate Hinted(s: CSlot, h: Hist, s2: CSlot, h2: Hist, kv: Kv, lucky: bool)
    requires HistOk(h)
  {
    var tag := Pkey(kv.key.hash);
    if s.used < ENTRY_NR || lucky then
      && HistOk(h2) && Recent(h2) == Recent(h)[1..] + [tag]
      && if tag in Recent(h) then Updated(s, s2, multiset(Recent(h))[tag], kv) else s2 == s
    else s2 == s && h2 == h
  }

  method Update(s: CSlot, rep: nat, kv: Kv) returns (r: bool, s2: CSlot, ghost victim: nat, ghost at: nat)
    requires |s.e| == ENTRY_NR && s.used == Used(s.e)
    ensures s.used < ENTRY_NR ==> !r && Filled(s, s2, at, kv)
    ensures s.used == ENTRY_NR ==> victim < ENTRY_NR
    ensures r ==> s.used == ENTRY_NR && Evicted(s, s2, victim, at, rep, kv)
    ensures s.used == ENTRY_NR && !r ==> s2 == s.(amap := AmapDec(s.amap, victim))
    ensures s.used == ENTRY_NR && !r ==>
      forall k :: 0 <= k < ENTRY_NR ==> Busy(s2.amap, victim, k, rep)
  {
    hide Nibble, AmapDec, AmapSet, Used, Pkey;
    s2, victim, at := s, 0, 0;
    if s.used < ENTRY_NR {
      var i := 0;
      while i < ENTRY_NR
        invariant 0 <= i <= ENTRY_NR && s2 == s
        invariant forall j :: 0 <= j < i ==> s.e[j].ptr.Some?
      {
        if s.e[i].ptr.None? {
          s2 := CSlot(s.amap, s.used + 1, s.e[i := PutCached(Some(kv))]);
          at := i;
          return false, s2, victim, at;
        }
        i := i + 1;
      }
      UsedFull(s.e);
      assert false;
    }
    var v: nat :| v < ENTRY_NR;
    victim := v;
    s2 := s2.(amap := AmapDec(s2.amap, v));
    var i := 0;
    while i < ENTRY_NR
      invariant 0 <= i <= ENTRY_NR && s2 == s.(amap := AmapDec(s.amap, v))
      invariant forall k :: 0 <= k < i ==> Busy(s2.amap, v, k, rep)
    {
      var vi := (v + i) % ENTRY_NR;
      if Nibble(s2.amap, vi) < rep {
        s2 := CSlot(AmapSet(s2.amap, vi, rep), s2.used, s2.e[vi := PutCached(Some(kv))]);
        at := i;
        return true, s2, victim, at;
      }
      i := i + 1;
    }
    r := false;
  }

  lemma UpdateKeeps(s: CSlot, idx: nat, nr: nat, live: map<Key, Kv>, rep: nat, kv: Kv,
                    r: bool, s2: CSlot, victim: nat, at: nat)
    requires nr > 0 && Shape(s, idx, nr) && Live(s, live) && Lacks(s, kv.key) && rep <= AMAX
    requires SlotIndex(kv.key.hash, nr) == idx && Find(live, kv.key) == Some(kv)
    requires s.used < ENTRY_NR ==> Filled(s, s2, at, kv)
    requires s.used == ENTRY_NR ==> victim < ENTRY_NR
    requires s.used == ENTRY_NR ==>
      if r then Evicted(s, s2, victim, at, rep, kv) else s2 == s.(amap := AmapDec(s.amap, victim))
    ensures Shape(s2, idx, nr) && Live(s2, live)
  {
    hide Nibble, AmapDec, AmapSet, Used, Pkey, SlotIndex, Shape, Live, Lacks, Find;
    ShapeFacts(s, idx, nr);
    if s.used < ENTRY_NR {
      PutKeeps(s, idx, nr, live, at, kv, s.amap);
      UsedUpdate(s.e, at, PutCached(Some(kv)));
    } else {
      AmapOwnNibble(s.amap, victim, 0, 0);
      var amap := AmapDec(s.amap, victim);
      if r {
        var vi := (victim + at) % ENTRY_NR;
        AmapOwnNibble(amap, vi, rep, 0);
        PutKeeps(s, idx, nr, live, vi, kv, AmapSet(amap, vi, rep));
        UsedFull(s.e);
        UsedUpdate(s.e, vi, PutCached(Some(kv)));
      } else {
        AgedKeeps(s, idx, nr, live, amap);
      }
    }
  }

  lemma ShapeFacts(s: CSlot, idx: nat, nr: nat)
    requires nr > 0 && Shape(s, idx, nr)
    ensures |s.e| == ENTRY_NR && s.used == Used(s.e) <= ENTRY_NR && s.amap < Pow16(ENTRY_NR)
  {
  }

  lemma AgedKeeps(s: CSlot, idx: nat, nr: nat, live: map<Key, Kv>, amap: nat)
    requires nr > 0 && Shape(s, idx, nr) && amap < Pow16(ENTRY_NR)
    ensures Shape(s.(amap := amap), idx, nr) && (Live(s, live) ==> Live(s.(amap := amap), live))
  {
  }

  // ---- icache_invalidate and icache_refresh on a slot ----

  predicate Hits(x: Entry, pkey: nat) {
    x.pkey == pkey && x.ptr.Some?
  }

  // The first n entries with that tag are emptied and their counters cleared;
  // nothing else in the slot has changed.
  ghost predicate Dropped(s: CSlot, s2: CSlot, pkey: nat, n: nat) {
    && |s2.e| == |s.e| == ENTRY_NR && n <= ENTRY_NR
    && (forall i :: 0 <= i < ENTRY_NR ==> s2.e[i] == if i < n && Hits(s.e[i], pkey) then EMPTY else s.e[i])
    && (forall i :: 0 <= i < ENTRY_NR ==>
      Nibble(s2.amap, i) == if i < n && Hits(s.e[i], pkey) then 0 else Nibble(s.amap, i))
  }

  method Invalidate(s: CSlot, pkey: nat, ghost idx: nat, ghost nr: nat) returns (s2: CSlot)
    requires nr > 0 && Shape(s, idx, nr)
    ensures Shape(s2, idx, nr) && Dropped(s, s2, pkey, ENTRY_NR)
  {
    hide Nibble, AmapClear, Used, Pkey, SlotIndex, Shape, Pow16;
    s2 := s;
    var i := 0;
    ShapeFacts(s, idx, nr);
    while i < ENTRY_NR
      invariant 0 <= i <= ENTRY_NR && Shape(s2, idx, nr) && Dropped(s, s2, pkey, i)
    {
      if s2.e[i].pkey == pkey && s2.e[i].ptr.Some? {
        DropOne(s, s2, pkey, i, idx, nr);
        s2 := CSlot(AmapClear(s2.amap, i), s2.used - 1, s2.e[i := PutCached(None)]);
      }
      i := i + 1;
    }
  }

  lemma DropOne(s: CSlot, s2: CSlot, pkey: nat, i: nat, idx: nat, nr: nat)
    requires nr > 0 && Shape(s2, idx, nr) && Dropped(s, s2, pkey, i) && i < ENTRY_NR && Hits(s2.e[i], pkey)
    ensures s2.used > 0
    ensures var s3 := CSlot(AmapClear(s2.amap, i), s2.used - 1, s2.e[i := PutCached(None)]);
      Shape(s3, idx, nr) && Dropped(s, s3, pkey, i + 1)
  {
    hide Nibble, AmapClear, AmapInc, AmapDec, AmapSet, Used, Pkey, SlotIndex, Pow16;
    forall j | 0 <= j < ENTRY_NR
      ensures AmapClear(s2.amap, i) < Pow16(ENTRY_NR)
      ensures Nibble(AmapClear(s2.amap, i), j) == if j == i then 0 else Nibble(s2.amap, j)
    {
      ClearOwn(s2.amap, i, j);
    }
    UsedUpdate(s2.e, i, PutCached(None));
    DropKeeps(s2, idx, nr, i, AmapClear(s2.amap, i));
  }

  // After the tag of a key is invalidated the slot lacks the key, and what it
  // still holds it held before.
  lemma DroppedLacks(s: CSlot, s2: CSlot, idx: nat, nr: nat, key: Key)
    requires nr > 0 && Shape(s, idx, nr) && Dropped(s, s2, Pkey(key.hash), ENTRY_NR)
    ensures Lacks(s2, key)
    ensures forall i :: 0 <= i < ENTRY_NR && s2.e[i].ptr.Some? ==> s2.e[i] == s.e[i]
  {
  }

  // The pointer `old_`, where the slot holds it, is now `new_`.
  ghost predicate Refreshed(s: CSlot, s2: CSlot, old_: Kv, new_: Kv) {
    && |s2.e| == |s.e| == ENTRY_NR && s2.amap == s.amap && s2.used == s.used
    && forall i :: 0 <= i < ENTRY_NR ==>
      s2.e[i] == if s.e[i].ptr == Some(old_) then PutCached(Some(new_)) else s.e[i]
  }

  method RefreshSlot(s: CSlot, old_: Kv, new_: Kv, ghost idx: nat, ghost nr: nat) returns (s2: CSlot)
    requires nr > 0 && Shape(s, idx, nr) && old_.key == new_.key
    ensures Shape(s2, idx, nr) && Refreshed(s, s2, old_, new_)
  {
    hide Used, Pkey, SlotIndex, Pow16;
    s2 := s;
    var i := 0;
    while i < ENTRY_NR
      invariant 0 <= i <= ENTRY_NR && s2 == s
      invariant forall j :: 0 <= j < i ==> s.e[j].ptr != Some(old_)
    {
      var curr := s2.e[i].ptr;
      if curr == Some(old_) {
        UsedUpdate(s.e, i, PutCached(Some(new_)));
        s2 := s2.(e := s2.e[i := PutCached(Some(new_))]);
        return;
      }
      i := i + 1;
    }
  }
}
