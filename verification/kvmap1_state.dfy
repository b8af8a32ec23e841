// The state of one multi-level hash table (struct kvmap1, lib1.c:3256-3277),
// its invariant, and what a split does to it.

module KvMap1State {
  import opened Option
  import opened KvApi
  import opened EntryCounts
  import opened Pow2s
  import opened Bitmaps
  import opened Stripes

  const MIN_LEVEL: nat := MIN_POWER
  const NR_LEVELS: nat := 64

  // A null table and a null bitmap are empty sequences.
  datatype Level = Level(table: seq<Slot>, bm: Bitmap, nrKv: nat)

  const NO_LEVEL := Level([], Bitmap([], 0), 0)

  // The hash one table uses: the key's hash rotated by the table's constant.
  function Hash(rot: nat, key: Key): nat {
    RotL(key.hash, rot)
  }

  function FreshLevel(i: nat, b: bool): Level {
    Level(seq(Pow2(i), _ => EmptySlot()), Create(Pow2(i), b), 0)
  }

  // ---- counting live entries ----

  function Live(table: seq<Slot>): nat {
    if table == [] then 0 else Used(table[0]) + Live(table[1..])
  }

  lemma {:induction false} LiveUpdate(t: seq<Slot>, j: nat, s: Slot)
    requires j < |t|
    ensures Live(t[j := s]) == Live(t) - Used(t[j]) + Used(s)
  {
    if j == 0 {
      assert t[j := s][1..] == t[1..];
    } else {
      assert t[j := s][1..] == t[1..][j - 1 := s];
      LiveUpdate(t[1..], j - 1, s);
    }
  }

  lemma {:induction false} LiveNone(t: seq<Slot>)
    requires forall j, k :: 0 <= j < |t| && 0 <= k < 8 ==> t[j][k].ptr.None?
    ensures Live(t) == 0
  {
    if t != [] {
      UsedNone(t[0]);
      LiveNone(t[1..]);
    }
  }

  // ---- the invariant ----

  ghost predicate LevelShape(l: Level, i: nat) {
    |l.table| == Pow2(i) && |l.bm.bits| == Pow2(i) && Wf(l.bm)
  }

  ghost predicate Shape(levels: seq<Level>, lo: nat, hi: nat) {
    && |levels| == NR_LEVELS
    && MIN_LEVEL <= lo <= hi < NR_LEVELS
    && (forall i :: lo <= i <= hi ==> LevelShape(levels[i], i))
    && (forall i :: hi < i < NR_LEVELS ==> levels[i] == NO_LEVEL)
    && (forall i :: 0 <= i < lo ==> levels[i].table == [])
  }

  // Level i claims hash h: the bit of h's slot is set there.
  ghost predicate Claims(levels: seq<Level>, i: nat, h: nat)
    requires i < |levels|
  {
    Test(levels[i].bm, Low(h, i))
  }

  ghost predicate HasOwner(levels: seq<Level>, lo: nat, hi: nat, h: nat)
    requires hi < |levels|
  {
    exists i :: lo <= i <= hi && Claims(levels, i, h)
  }

  // Every hash is claimed by exactly one of the levels lo..hi.
  ghost predicate Partition(levels: seq<Level>, lo: nat, hi: nat)
    requires hi < |levels|
  {
    && (forall h: nat :: HasOwner(levels, lo, hi, h))
    && (forall h: nat, a, b ::
          lo <= a <= hi && lo <= b <= hi && Claims(levels, a, h) && Claims(levels, b, h) ==> a == b)
  }

  predicate InRange(levels: seq<Level>, lo: nat, hi: nat, p: Pos) {
    lo <= p.i <= hi < |levels| && p.j < |levels[p.i].table| && p.k < 8
  }

  function At(levels: seq<Level>, p: Pos): Entry
    requires p.i < |levels| && p.j < |levels[p.i].table| && p.k < 8
  {
    levels[p.i].table[p.j][p.k]
  }

  // A live entry sits in the slot its level claims for its hash, with its tag.
  ghost predicate EntryOk(levels: seq<Level>, rot: nat, p: Pos, e: Entry)
    requires p.i < |levels|
  {
    if e.ptr.None? then e == EMPTY
    else
      var h := Hash(rot, e.ptr.value.key);
      Test(levels[p.i].bm, p.j) && Low(h, p.i) == p.j && e.pkey == Pkey(h)
  }

  // `recs` lists exactly the live entries, each under its own key.
  ghost predicate Placed(levels: seq<Level>, lo: nat, hi: nat, rot: nat, recs: map<Key, Rec>) {
    && (forall p :: InRange(levels, lo, hi, p) ==> EntryOk(levels, rot, p, At(levels, p)))
    && (forall p :: InRange(levels, lo, hi, p) && At(levels, p).ptr.Some? ==>
          var kv := At(levels, p).ptr.value; kv.key in recs && recs[kv.key] == Rec(p, kv))
    && (forall key :: key in recs ==>
          InRange(levels, lo, hi, recs[key].p) && At(levels, recs[key].p).ptr == Some(recs[key].kv)
          && recs[key].kv.key == key)
  }

  ghost predicate Counted(levels: seq<Level>, lo: nat, hi: nat)
    requires hi < |levels|
  {
    forall i :: lo <= i <= hi ==> levels[i].nrKv == Live(levels[i].table)
  }

  ghost predicate Inv(levels: seq<Level>, lo: nat, hi: nat, first: nat, rot: nat, recs: map<Key, Rec>) {
    && Shape(levels, lo, hi)
    && lo <= first <= hi
    && Partition(levels, lo, hi)
    && Placed(levels, lo, hi, rot, recs)
    && Counted(levels, lo, hi)
    && !TestAll0(levels[lo].bm)
  }

  ghost function Contents(recs: map<Key, Rec>): map<Key, Kv> {
    map key | key in recs :: recs[key].kv
  }

  lemma ContentsStore(recs: map<Key, Rec>, key: Key, r: Rec)
    ensures Contents(recs[key := r]) == Contents(recs)[key := r.kv]
    ensures Contents(recs - {key}) == Contents(recs) - {key}
  {
  }

  // A stored key is in the slot of the level that claims its hash.
  lemma {:induction false} StoredAtClaim(levels: seq<Level>, lo: nat, hi: nat, rot: nat, recs: map<Key, Rec>, key: Key, i: nat)
    requires Shape(levels, lo, hi) && Partition(levels, lo, hi)
    requires Placed(levels, lo, hi, rot, recs)
    requires lo <= i <= hi && Claims(levels, i, Hash(rot, key)) && key in recs
    ensures recs[key].p.i == i && recs[key].p.j == Low(Hash(rot, key), i)
  {
    var p := recs[key].p;
    assert EntryOk(levels, rot, p, At(levels, p));
    assert Claims(levels, p.i, Hash(rot, key));
  }

  // Writing one entry of the claimed slot.
  function Write(levels: seq<Level>, p: Pos, e: Entry, nr: nat): seq<Level>
    requires p.i < |levels| && p.j < |levels[p.i].table| && p.k < 8
  {
    var l := levels[p.i];
    levels[p.i := l.(table := l.table[p.j := l.table[p.j][p.k := e]], nrKv := nr)]
  }

  lemma WriteLive(levels: seq<Level>, p: Pos, e: Entry, nr: nat)
    requires p.i < |levels| && p.j < |levels[p.i].table| && p.k < 8
    ensures Live(Write(levels, p, e, nr)[p.i].table)
         == Live(levels[p.i].table) - (if At(levels, p).ptr.Some? then 1 else 0) + (if e.ptr.Some? then 1 else 0)
  {
    var t := levels[p.i].table;
    UsedUpdate(t[p.j], p.k, e);
    LiveUpdate(t, p.j, t[p.j][p.k := e]);
  }

  lemma WriteAt(levels: seq<Level>, p: Pos, e: Entry, nr: nat, q: Pos)
    requires p.i < |levels| && p.j < |levels[p.i].table| && p.k < 8
    requires q.i < |levels| && q.j < |levels[q.i].table| && q.k < 8
    ensures var l2 := Write(levels, p, e, nr);
      q.j < |l2[q.i].table| && At(l2, q) == (if q == p then e else At(levels, q))
  {
  }

  // Writing an entry touches neither bitmaps nor table sizes.
  lemma WriteShape(levels: seq<Level>, lo: nat, hi: nat, p: Pos, e: Entry, nr: nat)
    requires Shape(levels, lo, hi) && Partition(levels, lo, hi) && InRange(levels, lo, hi, p)
    ensures var l2 := Write(levels, p, e, nr);
      Shape(l2, lo, hi) && Partition(l2, lo, hi) && forall i :: lo <= i <= hi ==> l2[i].bm == levels[i].bm
  {
    var l2 := Write(levels, p, e, nr);
    forall i | lo <= i <= hi ensures l2[i].bm == levels[i].bm && LevelShape(l2[i], i) {
      assert LevelShape(levels[i], i);
    }
    SameBitsPartition(levels, l2, lo, hi);
  }

  lemma WriteCounted(levels: seq<Level>, lo: nat, hi: nat, p: Pos, e: Entry, nr: nat)
    requires hi < |levels| && Counted(levels, lo, hi) && InRange(levels, lo, hi, p)
    requires nr == levels[p.i].nrKv - (if At(levels, p).ptr.Some? then 1 else 0) + (if e.ptr.Some? then 1 else 0)
    ensures Counted(Write(levels, p, e, nr), lo, hi)
  {
    WriteLive(levels, p, e, nr);
  }

  // Storing kv at p keeps the invariant and maps kv.key to kv, when p is the
  // key's own place or an empty entry of its claimed slot.
  lemma StoreKeeps(levels: seq<Level>, lo: nat, hi: nat, first: nat, rot: nat, recs: map<Key, Rec>,
                   p: Pos, kv: Kv, nr: nat)
    requires Inv(levels, lo, hi, first, rot, recs)
    requires InRange(levels, lo, hi, p)
    requires Claims(levels, p.i, Hash(rot, kv.key)) && p.j == Low(Hash(rot, kv.key), p.i)
    requires if kv.key in recs then recs[kv.key].p == p else At(levels, p).ptr.None?
    requires nr == levels[p.i].nrKv + (if kv.key in recs then 0 else 1)
    ensures Inv(Write(levels, p, Entry(Some(kv), Pkey(Hash(rot, kv.key))), nr), lo, hi, first, rot,
                recs[kv.key := Rec(p, kv)])
    ensures Contents(recs[kv.key := Rec(p, kv)]) == Contents(recs)[kv.key := kv]
  {
    var e := Entry(Some(kv), Pkey(Hash(rot, kv.key)));
    WriteShape(levels, lo, hi, p, e, nr);
    WriteCounted(levels, lo, hi, p, e, nr);
    WritePlaced(levels, lo, hi, rot, recs, p, e, nr);
    ContentsStore(recs, kv.key, Rec(p, kv));
  }

  lemma SameBitsPartition(levels: seq<Level>, l2: seq<Level>, lo: nat, hi: nat)
    requires hi < |levels| && |l2| == |levels| && Partition(levels, lo, hi)
    requires forall i :: lo <= i <= hi ==> l2[i].bm == levels[i].bm
    ensures Partition(l2, lo, hi)
  {
    forall h: nat ensures HasOwner(l2, lo, hi, h) {
      assert HasOwner(levels, lo, hi, h);
      var i :| lo <= i <= hi && Claims(levels, i, h);
      assert Claims(l2, i, h);
    }
    forall h: nat, a, b |
      lo <= a <= hi && lo <= b <= hi && Claims(l2, a, h) && Claims(l2, b, h)
      ensures a == b
    {
      assert Claims(levels, a, h) && Claims(levels, b, h);
    }
  }

  // The records after p's entry is overwritten by e.
  function Rerec(levels: seq<Level>, recs: map<Key, Rec>, p: Pos, e: Entry): map<Key, Rec>
    requires p.i < |levels| && p.j < |levels[p.i].table| && p.k < 8
  {
    if e.ptr.Some? then recs[e.ptr.value.key := Rec(p, e.ptr.value)]
    else if At(levels, p).ptr.Some? then recs - {At(levels, p).ptr.value.key}
    else recs
  }

  lemma WriteOk(levels: seq<Level>, lo: nat, hi: nat, rot: nat, recs: map<Key, Rec>, p: Pos, e: Entry, nr: nat, q: Pos)
    requires Placed(levels, lo, hi, rot, recs) && InRange(levels, lo, hi, p) && InRange(levels, lo, hi, q)
    requires EntryOk(levels, rot, p, e) && InRange(Write(levels, p, e, nr), lo, hi, q)
    ensures EntryOk(Write(levels, p, e, nr), rot, q, At(Write(levels, p, e, nr), q))
  {
    WriteAt(levels, p, e, nr, q);
    assert EntryOk(levels, rot, q, At(levels, q));
  }

  lemma WritePlaced(levels: seq<Level>, lo: nat, hi: nat, rot: nat, recs: map<Key, Rec>, p: Pos, e: Entry, nr: nat)
    requires Placed(levels, lo, hi, rot, recs) && InRange(levels, lo, hi, p)
    requires EntryOk(levels, rot, p, e)
    requires e.ptr.Some? ==> e.ptr.value.key in recs ==> recs[e.ptr.value.key].p == p
    requires e.ptr.Some? && At(levels, p).ptr.Some? ==> At(levels, p).ptr.value.key == e.ptr.value.key
    ensures Placed(Write(levels, p, e, nr), lo, hi, rot, Rerec(levels, recs, p, e))
  {
    var l2 := Write(levels, p, e, nr);
    var recs2 := Rerec(levels, recs, p, e);
    forall q | InRange(l2, lo, hi, q)
      ensures EntryOk(l2, rot, q, At(l2, q))
      ensures At(l2, q).ptr.Some? ==>
        var kv := At(l2, q).ptr.value; kv.key in recs2 && recs2[kv.key] == Rec(q, kv)
    {
      assert InRange(levels, lo, hi, q);
      WriteAt(levels, p, e, nr, q);
      WriteOk(levels, lo, hi, rot, recs, p, e, nr, q);
    }
    forall key | key in recs2
      ensures InRange(l2, lo, hi, recs2[key].p) && At(l2, recs2[key].p).ptr == Some(recs2[key].kv)
           && recs2[key].kv.key == key
    {
      WriteAt(levels, p, e, nr, recs2[key].p);
    }
  }

  // Clearing a stored key's entry removes exactly that key.
  lemma ClearKeeps(levels: seq<Level>, lo: nat, hi: nat, first: nat, rot: nat, recs: map<Key, Rec>, key: Key, nr: nat)
    requires Inv(levels, lo, hi, first, rot, recs)
    requires key in recs && nr + 1 == levels[recs[key].p.i].nrKv
    ensures Inv(Write(levels, recs[key].p, EMPTY, nr), lo, hi, first, rot, recs - {key})
    ensures Contents(recs - {key}) == Contents(recs) - {key}
  {
    var p := recs[key].p;
    WriteShape(levels, lo, hi, p, EMPTY, nr);
    WriteCounted(levels, lo, hi, p, EMPTY, nr);
    WritePlaced(levels, lo, hi, rot, recs, p, EMPTY, nr);
    ContentsStore(recs, key, recs[key]);
  }

  // The counter of a level with a stored entry is positive.
  lemma StoredCounted(levels: seq<Level>, lo: nat, hi: nat, first: nat, rot: nat, recs: map<Key, Rec>, key: Key)
    requires Inv(levels, lo, hi, first, rot, recs) && key in recs
    ensures levels[recs[key].p.i].nrKv > 0
  {
    WriteLive(levels, recs[key].p, EMPTY, 0);
  }

  // A single level m with every bit set and nothing stored.
  function InitLevels(m: nat): seq<Level>
    requires m < NR_LEVELS
  {
    seq(NR_LEVELS, _ => NO_LEVEL)[m := FreshLevel(m, true)]
  }

  lemma InitPartition(m: nat)
    requires m < NR_LEVELS
    ensures Partition(InitLevels(m), m, m)
  {
    var levels := InitLevels(m);
    forall h: nat ensures HasOwner(levels, m, m, h) {
      assert Claims(levels, m, h);
    }
  }

  lemma InitPlaced(rot: nat, m: nat)
    requires m < NR_LEVELS
    ensures Placed(InitLevels(m), m, m, rot, map[])
  {
    var levels := InitLevels(m);
    forall p | InRange(levels, m, m, p) ensures At(levels, p) == EMPTY {
    }
  }

  lemma InitInv(rot: nat, m: nat)
    requires MIN_LEVEL <= m < NR_LEVELS
    ensures Inv(InitLevels(m), m, m, m, rot, map[])
  {
    LiveNone(FreshLevel(m, true).table);
    InitPartition(m);
    InitPlaced(rot, m);
    TestAll0Correct(FreshLevel(m, true).bm);
    assert Test(FreshLevel(m, true).bm, 0);
  }

  // Above the highest level there is no table.
  lemma NullTable(levels: seq<Level>, lo: nat, hi: nat, i: nat)
    requires Shape(levels, lo, hi) && lo <= i < NR_LEVELS
    ensures levels[i].table == [] <==> i > hi
  {
    if i <= hi {
      assert LevelShape(levels[i], i);
    }
  }
}
