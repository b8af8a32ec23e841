// What kvmap1_split (lib1.c:3400-3479) does to the levels, as functions of the
// levels it starts from, and why the invariant survives.

module KvMap1Split {
  import opened Option
  import opened KvApi
  import opened EntryCounts
  import opened Pow2s
  import opened Bitmaps
  import opened KvMap1State

  // The entries of s that belong to index idx one level up, among the first n.
  function Take(rot: nat, s: Slot, lid1: nat, idx: nat, n: nat): Slot {
    seq(8, k requires 0 <= k < 8 =>
      if k < n && s[k].ptr.Some? && Low(Hash(rot, s[k].ptr.value.key), lid1) == idx then s[k] else EMPTY)
  }

  function Emptied(s: Slot, n: nat): Slot {
    seq(8, k requires 0 <= k < 8 => if k < n then EMPTY else s[k])
  }

  // Slot j of level i after its first n entries have moved up, with the bits
  // of the two destination slots set and the given live counts.
  function Moved(l0: seq<Level>, rot: nat, i: nat, j: nat, n: nat, nr0: nat, nr1: nat): seq<Level>
    requires i + 1 < |l0| && j < Pow2(i)
    requires LevelShape(l0[i], i) && LevelShape(l0[i + 1], i + 1)
  {
    var s := l0[i].table[j];
    var j2 := j + Pow2(i);
    var up := l0[i + 1];
    l0[i := l0[i].(table := l0[i].table[j := Emptied(s, n)], nrKv := nr0)]
      [i + 1 := Level(up.table[j := Take(rot, s, i + 1, j, n)][j2 := Take(rot, s, i + 1, j2, n)],
                      Set1(Set1(up.bm, j), j2), nr1)]
  }

  // ... and after the source bit is cleared.
  function Split(l0: seq<Level>, rot: nat, i: nat, j: nat, nr0: nat, nr1: nat): seq<Level>
    requires i + 1 < |l0| && j < Pow2(i)
    requires LevelShape(l0[i], i) && LevelShape(l0[i + 1], i + 1)
  {
    var m := Moved(l0, rot, i, j, 8, nr0, nr1);
    m[i := m[i].(bm := Set0(m[i].bm, j))]
  }

  ghost predicate Splittable(l0: seq<Level>, lo: nat, hi: nat, i: nat, j: nat) {
    && Shape(l0, lo, hi) && Partition(l0, lo, hi)
    && lo <= i < hi && j < Pow2(i) && Test(l0[i].bm, j)
  }

  ghost predicate SplitPre(l0: seq<Level>, lo: nat, hi: nat, rot: nat, recs: map<Key, Rec>, i: nat, j: nat) {
    Splittable(l0, lo, hi, i, j) && Placed(l0, lo, hi, rot, recs)
  }

  // The two destination slots are unclaimed and empty.
  lemma Destination(l0: seq<Level>, lo: nat, hi: nat, rot: nat, recs: map<Key, Rec>, i: nat, j: nat, idx: nat)
    requires SplitPre(l0, lo, hi, rot, recs, i, j)
    requires idx == j || idx == j + Pow2(i)
    ensures LevelShape(l0[i], i) && LevelShape(l0[i + 1], i + 1)
    ensures !Test(l0[i + 1].bm, idx) && l0[i + 1].table[idx] == EmptySlot()
  {
    LowIndex(j, i);
    assert Claims(l0, i, idx);
    assert !Claims(l0, i + 1, idx);
    var d := l0[i + 1].table[idx];
    forall k | 0 <= k < 8 ensures d[k] == EMPTY {
      assert InRange(l0, lo, hi, Pos(i + 1, idx, k));
      assert EntryOk(l0, rot, Pos(i + 1, idx, k), At(l0, Pos(i + 1, idx, k)));
    }
  }

  // One turn of the copying loop.
  lemma MoveStep(l0: seq<Level>, rot: nat, i: nat, j: nat, n: nat, nr0: nat, nr1: nat)
    requires i + 1 < |l0| && j < Pow2(i) && n < 8
    requires LevelShape(l0[i], i) && LevelShape(l0[i + 1], i + 1)
    requires var e := l0[i].table[j][n];
      if e.ptr.None? then e == EMPTY
      else nr0 > 0 && Low(Hash(rot, e.ptr.value.key), i) == j
    ensures var e := l0[i].table[j][n];
      var m := Moved(l0, rot, i, j, n, nr0, nr1);
      if e.ptr.None? then m == Moved(l0, rot, i, j, n + 1, nr0, nr1)
      else
        var jj := Low(Hash(rot, e.ptr.value.key), i + 1);
        && At(m, Pos(i + 1, jj, n)) == EMPTY && At(m, Pos(i, j, n)) == e
        && Write(Write(m, Pos(i + 1, jj, n), e, nr1 + 1), Pos(i, j, n), EMPTY, nr0 - 1)
           == Moved(l0, rot, i, j, n + 1, nr0 - 1, nr1 + 1)
  {
    var s := l0[i].table[j];
    var e := s[n];
    var j2 := j + Pow2(i);
    if e.ptr.None? {
      TakeSkip(rot, s, i + 1, j, n);
      TakeSkip(rot, s, i + 1, j2, n);
      assert Emptied(s, n + 1) == Emptied(s, n);
    } else {
      LowStep(Hash(rot, e.ptr.value.key), i);
      var jj := Low(Hash(rot, e.ptr.value.key), i + 1);
      assert Emptied(s, n + 1) == Emptied(s, n)[n := EMPTY];
      assert Take(rot, s, i + 1, jj, n + 1) == Take(rot, s, i + 1, jj, n)[n := e];
      TakeSkip(rot, s, i + 1, j + j2 - jj, n);
      MoveWrites(l0, rot, i, j, n, nr0, nr1, jj);
    }
  }

  lemma {:induction false} TakeSkip(rot: nat, s: Slot, lid1: nat, idx: nat, n: nat)
    requires n < 8
    requires s[n].ptr.Some? ==> Low(Hash(rot, s[n].ptr.value.key), lid1) != idx
    ensures Take(rot, s, lid1, idx, n + 1) == Take(rot, s, lid1, idx, n)
  {
  }

  lemma MoveWrites(l0: seq<Level>, rot: nat, i: nat, j: nat, n: nat, nr0: nat, nr1: nat, jj: nat)
    requires i + 1 < |l0| && j < Pow2(i) && n < 8 && nr0 > 0
    requires LevelShape(l0[i], i) && LevelShape(l0[i + 1], i + 1)
    requires jj == j || jj == j + Pow2(i)
    requires var s := l0[i].table[j];
      && Take(rot, s, i + 1, jj, n + 1) == Take(rot, s, i + 1, jj, n)[n := s[n]]
      && Take(rot, s, i + 1, 2 * j + Pow2(i) - jj, n + 1) == Take(rot, s, i + 1, 2 * j + Pow2(i) - jj, n)
      && Emptied(s, n + 1) == Emptied(s, n)[n := EMPTY]
    ensures var e := l0[i].table[j][n];
      var m := Moved(l0, rot, i, j, n, nr0, nr1);
      && At(m, Pos(i + 1, jj, n)) == EMPTY && At(m, Pos(i, j, n)) == e
      && Write(Write(m, Pos(i + 1, jj, n), e, nr1 + 1), Pos(i, j, n), EMPTY, nr0 - 1)
         == Moved(l0, rot, i, j, n + 1, nr0 - 1, nr1 + 1)
  {
    var e := l0[i].table[j][n];
    var m := Moved(l0, rot, i, j, n, nr0, nr1);
    var m2 := Moved(l0, rot, i, j, n + 1, nr0 - 1, nr1 + 1);
    var w := Write(Write(m, Pos(i + 1, jj, n), e, nr1 + 1), Pos(i, j, n), EMPTY, nr0 - 1);
    assert w[i].table == m2[i].table;
    assert w[i + 1].table == m2[i + 1].table;
    assert w == m2;
  }

  // Every entry after the split.
  lemma SplitAt(l0: seq<Level>, lo: nat, hi: nat, rot: nat, recs: map<Key, Rec>, i: nat, j: nat, nr0: nat, nr1: nat, q: Pos)
    requires SplitPre(l0, lo, hi, rot, recs, i, j)
    requires LevelShape(l0[i], i) && LevelShape(l0[i + 1], i + 1)
    requires InRange(l0, lo, hi, q)
    ensures var l2 := Split(l0, rot, i, j, nr0, nr1);
      && InRange(l2, lo, hi, q)
      && At(l2, q) ==
         if q.i == i && q.j == j then EMPTY
         else if q.i == i + 1 && (q.j == j || q.j == j + Pow2(i)) then
           Take(rot, l0[i].table[j], i + 1, q.j, 8)[q.k]
         else At(l0, q)
  {
  }

  // A stored key of the split slot moves up; every other key stays.
  function Resplit(recs: map<Key, Rec>, rot: nat, i: nat, j: nat): map<Key, Rec> {
    map key | key in recs ::
      if recs[key].p.i == i && recs[key].p.j == j
      then Rec(Pos(i + 1, Low(Hash(rot, key), i + 1), recs[key].p.k), recs[key].kv)
      else recs[key]
  }

  lemma ResplitContents(recs: map<Key, Rec>, rot: nat, i: nat, j: nat)
    ensures Contents(Resplit(recs, rot, i, j)) == Contents(recs)
  {
  }

  // The bits after the split.
  lemma SplitBits(l0: seq<Level>, lo: nat, hi: nat, rot: nat, i: nat, j: nat, nr0: nat, nr1: nat,
                  a: nat, x: nat)
    requires Splittable(l0, lo, hi, i, j) && lo <= a <= hi
    requires LevelShape(l0[i], i) && LevelShape(l0[i + 1], i + 1)
    ensures Test(Split(l0, rot, i, j, nr0, nr1)[a].bm, x) <==>
      if a == i then Test(l0[i].bm, x) && x != j
      else if a == i + 1 then Test(l0[i + 1].bm, x) || x == j || x == j + Pow2(i)
      else Test(l0[a].bm, x)
  {
  }

  lemma SplitShape(l0: seq<Level>, lo: nat, hi: nat, rot: nat, i: nat, j: nat, nr0: nat, nr1: nat)
    requires Splittable(l0, lo, hi, i, j)
    requires LevelShape(l0[i], i) && LevelShape(l0[i + 1], i + 1)
    ensures Shape(Split(l0, rot, i, j, nr0, nr1), lo, hi)
  {
    var l2 := Split(l0, rot, i, j, nr0, nr1);
    forall a | lo <= a <= hi ensures LevelShape(l2[a], a) {
      assert LevelShape(l0[a], a);
    }
  }

  lemma SplitPartition(l0: seq<Level>, lo: nat, hi: nat, rot: nat, i: nat, j: nat, nr0: nat, nr1: nat)
    requires Splittable(l0, lo, hi, i, j)
    requires LevelShape(l0[i], i) && LevelShape(l0[i + 1], i + 1)
    ensures Partition(Split(l0, rot, i, j, nr0, nr1), lo, hi)
  {
    var l2 := Split(l0, rot, i, j, nr0, nr1);
    forall h: nat ensures HasOwner(l2, lo, hi, h) {
      assert HasOwner(l0, lo, hi, h);
      var a :| lo <= a <= hi && Claims(l0, a, h);
      var b := if a == i && Low(h, i) == j then i + 1 else a;
      LowStep(h, i);
      SplitBits(l0, lo, hi, rot, i, j, nr0, nr1, b, Low(h, b));
      assert Claims(l2, b, h);
    }
    forall h: nat, a, b |
      lo <= a <= hi && lo <= b <= hi && Claims(l2, a, h) && Claims(l2, b, h)
      ensures a == b
    {
      SplitOwner(l0, lo, hi, rot, i, j, nr0, nr1, a, h);
      SplitOwner(l0, lo, hi, rot, i, j, nr0, nr1, b, h);
    }
  }

  // Whoever claims h after the split: level i + 1 if h was in the split slot,
  // its old claimer otherwise.
  lemma SplitOwner(l0: seq<Level>, lo: nat, hi: nat, rot: nat, i: nat, j: nat, nr0: nat, nr1: nat,
                   a: nat, h: nat)
    requires Splittable(l0, lo, hi, i, j) && lo <= a <= hi
    requires LevelShape(l0[i], i) && LevelShape(l0[i + 1], i + 1)
    requires Claims(Split(l0, rot, i, j, nr0, nr1), a, h)
    ensures if Low(h, i) == j then a == i + 1 else Claims(l0, a, h)
  {
    SplitBits(l0, lo, hi, rot, i, j, nr0, nr1, a, Low(h, a));
    if Low(h, i) != j {
      DestinationBits(h, i, j);
    } else {
      OneClaim(l0, lo, hi, i, a, h);
    }
  }

  lemma DestinationBits(h: nat, i: nat, j: nat)
    requires j < Pow2(i) && Low(h, i) != j
    ensures Low(h, i + 1) != j && Low(h, i + 1) != j + Pow2(i)
  {
    LowLow(h, i, i + 1);
    LowIndex(j, i);
  }

  lemma OneClaim(l0: seq<Level>, lo: nat, hi: nat, i: nat, a: nat, h: nat)
    requires hi < |l0| && Partition(l0, lo, hi) && lo <= i <= hi && lo <= a <= hi
    requires Claims(l0, i, h)
    ensures Claims(l0, a, h) ==> a == i
  {
  }

  lemma SplitPlaced(l0: seq<Level>, lo: nat, hi: nat, rot: nat, recs: map<Key, Rec>, i: nat, j: nat, nr0: nat, nr1: nat)
    requires SplitPre(l0, lo, hi, rot, recs, i, j)
    requires LevelShape(l0[i], i) && LevelShape(l0[i + 1], i + 1)
    ensures Placed(Split(l0, rot, i, j, nr0, nr1), lo, hi, rot, Resplit(recs, rot, i, j))
  {
    var l2 := Split(l0, rot, i, j, nr0, nr1);
    var recs2 := Resplit(recs, rot, i, j);
    forall q | InRange(l2, lo, hi, q)
      ensures EntryOk(l2, rot, q, At(l2, q))
      ensures At(l2, q).ptr.Some? ==>
        var kv := At(l2, q).ptr.value; kv.key in recs2 && recs2[kv.key] == Rec(q, kv)
    {
      SplitEntry(l0, lo, hi, rot, recs, i, j, nr0, nr1, q);
    }
    forall key | key in recs2
      ensures InRange(l2, lo, hi, recs2[key].p) && At(l2, recs2[key].p).ptr == Some(recs2[key].kv)
           && recs2[key].kv.key == key
    {
      SplitRec(l0, lo, hi, rot, recs, i, j, nr0, nr1, key);
    }
  }

  lemma SplitEntry(l0: seq<Level>, lo: nat, hi: nat, rot: nat, recs: map<Key, Rec>, i: nat, j: nat, nr0: nat, nr1: nat, q: Pos)
    requires SplitPre(l0, lo, hi, rot, recs, i, j)
    requires LevelShape(l0[i], i) && LevelShape(l0[i + 1], i + 1)
    requires InRange(Split(l0, rot, i, j, nr0, nr1), lo, hi, q)
    ensures var l2 := Split(l0, rot, i, j, nr0, nr1); var recs2 := Resplit(recs, rot, i, j);
      && EntryOk(l2, rot, q, At(l2, q))
      && (At(l2, q).ptr.Some? ==>
            var kv := At(l2, q).ptr.value; kv.key in recs2 && recs2[kv.key] == Rec(q, kv))
  {
    assert InRange(l0, lo, hi, q);
    SplitAt(l0, lo, hi, rot, recs, i, j, nr0, nr1, q);
    if q.i == i + 1 && (q.j == j || q.j == j + Pow2(i)) {
      SplitEntryMoved(l0, lo, hi, rot, recs, i, j, nr0, nr1, q);
    } else if q.i != i || q.j != j {
      SplitBits(l0, lo, hi, rot, i, j, nr0, nr1, q.i, q.j);
      assert EntryOk(l0, rot, q, At(l0, q));
    }
  }

  lemma SplitEntryMoved(l0: seq<Level>, lo: nat, hi: nat, rot: nat, recs: map<Key, Rec>, i: nat, j: nat, nr0: nat, nr1: nat, q: Pos)
    requires SplitPre(l0, lo, hi, rot, recs, i, j)
    requires LevelShape(l0[i], i) && LevelShape(l0[i + 1], i + 1)
    requires InRange(l0, lo, hi, q) && q.i == i + 1 && (q.j == j || q.j == j + Pow2(i))
    ensures var e := Take(rot, l0[i].table[j], i + 1, q.j, 8)[q.k]; var recs2 := Resplit(recs, rot, i, j);
      && EntryOk(Split(l0, rot, i, j, nr0, nr1), rot, q, e)
      && (e.ptr.Some? ==> e.ptr.value.key in recs2 && recs2[e.ptr.value.key] == Rec(q, e.ptr.value))
  {
    SplitBits(l0, lo, hi, rot, i, j, nr0, nr1, q.i, q.j);
    var src := Pos(i, j, q.k);
    assert InRange(l0, lo, hi, src);
    assert EntryOk(l0, rot, src, At(l0, src));
  }

  lemma {:induction false} NotInDestination(l0: seq<Level>, lo: nat, hi: nat, rot: nat, recs: map<Key, Rec>, i: nat, j: nat, key: Key)
    requires SplitPre(l0, lo, hi, rot, recs, i, j) && key in recs
    ensures var p := recs[key].p; p.i == i + 1 ==> p.j != j && p.j != j + Pow2(i)
  {
    var p := recs[key].p;
    assert EntryOk(l0, rot, p, At(l0, p));
    Destination(l0, lo, hi, rot, recs, i, j, j);
    Destination(l0, lo, hi, rot, recs, i, j, j + Pow2(i));
  }

  lemma SplitRecMoved(l0: seq<Level>, lo: nat, hi: nat, rot: nat, recs: map<Key, Rec>, i: nat, j: nat, nr0: nat, nr1: nat, key: Key)
    requires SplitPre(l0, lo, hi, rot, recs, i, j)
    requires LevelShape(l0[i], i) && LevelShape(l0[i + 1], i + 1)
    requires key in recs && recs[key].p.i == i && recs[key].p.j == j
    ensures var q := Pos(i + 1, Low(Hash(rot, key), i + 1), recs[key].p.k);
      var l2 := Split(l0, rot, i, j, nr0, nr1);
      InRange(l2, lo, hi, q) && At(l2, q).ptr == Some(recs[key].kv) && recs[key].kv.key == key
  {
    var p := recs[key].p;
    var q := Pos(i + 1, Low(Hash(rot, key), i + 1), p.k);
    assert EntryOk(l0, rot, p, At(l0, p));
    LowStep(Hash(rot, key), i);
    assert InRange(l0, lo, hi, q);
    SplitAt(l0, lo, hi, rot, recs, i, j, nr0, nr1, q);
  }

  lemma SplitRec(l0: seq<Level>, lo: nat, hi: nat, rot: nat, recs: map<Key, Rec>, i: nat, j: nat, nr0: nat, nr1: nat, key: Key)
    requires SplitPre(l0, lo, hi, rot, recs, i, j)
    requires LevelShape(l0[i], i) && LevelShape(l0[i + 1], i + 1)
    requires key in recs
    ensures var l2 := Split(l0, rot, i, j, nr0, nr1); var r := Resplit(recs, rot, i, j)[key];
      InRange(l2, lo, hi, r.p) && At(l2, r.p).ptr == Some(r.kv) && r.kv.key == key
  {
    var p := recs[key].p;
    if p.i == i && p.j == j {
      SplitRecMoved(l0, lo, hi, rot, recs, i, j, nr0, nr1, key);
    } else {
      NotInDestination(l0, lo, hi, rot, recs, i, j, key);
      SplitAt(l0, lo, hi, rot, recs, i, j, nr0, nr1, p);
    }
  }

  // When a level has no bit left its table is empty.
  lemma NoBitsNoEntries(levels: seq<Level>, lo: nat, hi: nat, rot: nat, recs: map<Key, Rec>, i: nat)
    requires Shape(levels, lo, hi) && Placed(levels, lo, hi, rot, recs) && lo <= i <= hi
    requires TestAll0(levels[i].bm)
    ensures Live(levels[i].table) == 0
    ensures forall key :: key in recs ==> recs[key].p.i != i
  {
    assert LevelShape(levels[i], i);
    TestAll0Correct(levels[i].bm);
    forall j, k | 0 <= j < |levels[i].table| && 0 <= k < 8 ensures levels[i].table[j][k].ptr.None? {
      assert InRange(levels, lo, hi, Pos(i, j, k));
      assert EntryOk(levels, rot, Pos(i, j, k), At(levels, Pos(i, j, k)));
    }
    LiveNone(levels[i].table);
    forall key | key in recs ensures recs[key].p.i != i {
      var p := recs[key].p;
      assert InRange(levels, lo, hi, p) && At(levels, p).ptr.Some?;
    }
  }

  // Releasing the lowest level once it has no bit left.
  lemma ReleaseKeeps(levels: seq<Level>, lo: nat, hi: nat, rot: nat, recs: map<Key, Rec>)
    requires Shape(levels, lo, hi) && Partition(levels, lo, hi) && Placed(levels, lo, hi, rot, recs)
    requires Counted(levels, lo, hi) && lo < hi && TestAll0(levels[lo].bm)
    ensures var l2 := levels[lo := levels[lo].(table := [])];
      && Shape(l2, lo + 1, hi) && Partition(l2, lo + 1, hi)
      && Placed(l2, lo + 1, hi, rot, recs) && Counted(l2, lo + 1, hi)
  {
    NoBitsNoEntries(levels, lo, hi, rot, recs, lo);
    TestAll0Correct(levels[lo].bm);
    ReleasePlaced(levels, lo, hi, rot, recs);
    ReleasePartition(levels, lo, hi);
  }

  lemma ReleasePlaced(levels: seq<Level>, lo: nat, hi: nat, rot: nat, recs: map<Key, Rec>)
    requires hi < |levels| && lo < hi && Placed(levels, lo, hi, rot, recs)
    requires forall key :: key in recs ==> recs[key].p.i != lo
    ensures Placed(levels[lo := levels[lo].(table := [])], lo + 1, hi, rot, recs)
  {
    var l2 := levels[lo := levels[lo].(table := [])];
    forall q | InRange(l2, lo + 1, hi, q)
      ensures EntryOk(l2, rot, q, At(l2, q))
      ensures At(l2, q).ptr.Some? ==>
        var kv := At(l2, q).ptr.value; kv.key in recs && recs[kv.key] == Rec(q, kv)
    {
      assert InRange(levels, lo, hi, q) && At(l2, q) == At(levels, q);
      assert EntryOk(levels, rot, q, At(levels, q));
    }
  }

  lemma ReleasePartition(levels: seq<Level>, lo: nat, hi: nat)
    requires hi < |levels| && Partition(levels, lo, hi) && lo < hi
    requires forall x: nat :: !Test(levels[lo].bm, x)
    ensures Partition(levels[lo := levels[lo].(table := [])], lo + 1, hi)
  {
    var l2, lo2 := levels[lo := levels[lo].(table := [])], lo + 1;
    forall h: nat ensures HasOwner(l2, lo2, hi, h) {
      assert HasOwner(levels, lo, hi, h);
      var i :| lo <= i <= hi && Claims(levels, i, h);
      assert Claims(l2, i, h);
    }
    forall h: nat, a, b |
      lo + 1 <= a <= hi && lo + 1 <= b <= hi && Claims(l2, a, h) && Claims(l2, b, h)
      ensures a == b
    {
      assert Claims(levels, a, h) && Claims(levels, b, h);
    }
  }

  // Appending an empty level above the highest one.
  lemma GrowKeeps(levels: seq<Level>, lo: nat, hi: nat, first: nat, rot: nat, recs: map<Key, Rec>)
    requires Inv(levels, lo, hi, first, rot, recs) && hi + 1 < NR_LEVELS
    ensures Inv(levels[hi + 1 := FreshLevel(hi + 1, false)], lo, hi + 1, first, rot, recs)
  {
    var l2 := levels[hi + 1 := FreshLevel(hi + 1, false)];
    LiveNone(l2[hi + 1].table);
    assert Counted(l2, lo, hi + 1);
    GrowPlaced(levels, lo, hi, rot, recs);
    GrowPartition(levels, lo, hi);
    forall i | lo <= i <= hi + 1 ensures LevelShape(l2[i], i) {
      assert i <= hi ==> LevelShape(levels[i], i);
    }
  }

  lemma GrowPlaced(levels: seq<Level>, lo: nat, hi: nat, rot: nat, recs: map<Key, Rec>)
    requires |levels| > hi + 1 && Placed(levels, lo, hi, rot, recs)
    ensures Placed(levels[hi + 1 := FreshLevel(hi + 1, false)], lo, hi + 1, rot, recs)
  {
    var l2 := levels[hi + 1 := FreshLevel(hi + 1, false)];
    forall q | InRange(l2, lo, hi + 1, q)
      ensures EntryOk(l2, rot, q, At(l2, q))
      ensures At(l2, q).ptr.Some? ==>
        var kv := At(l2, q).ptr.value; kv.key in recs && recs[kv.key] == Rec(q, kv)
    {
      if q.i <= hi {
        assert InRange(levels, lo, hi, q) && At(l2, q) == At(levels, q);
        assert EntryOk(levels, rot, q, At(levels, q));
      }
    }
  }

  lemma GrowPartition(levels: seq<Level>, lo: nat, hi: nat)
    requires |levels| > hi + 1 && Partition(levels, lo, hi)
    ensures Partition(levels[hi + 1 := FreshLevel(hi + 1, false)], lo, hi + 1)
  {
    var l2, hi2 := levels[hi + 1 := FreshLevel(hi + 1, false)], hi + 1;
    forall h: nat ensures HasOwner(l2, lo, hi2, h) {
      assert HasOwner(levels, lo, hi, h);
      var i :| lo <= i <= hi && Claims(levels, i, h);
      assert Claims(l2, i, h);
    }
    forall h: nat, a, b |
      lo <= a <= hi + 1 && lo <= b <= hi + 1 && Claims(l2, a, h) && Claims(l2, b, h)
      ensures a == b
    {
      assert a <= hi && b <= hi;
      assert Claims(levels, a, h) && Claims(levels, b, h);
    }
  }

  // Every entry of s goes to one of two destinations.
  lemma {:induction false} UsedParts(s: seq<Entry>, a: seq<Entry>, b: seq<Entry>)
    requires |s| == |a| == |b|
    requires forall k :: 0 <= k < |s| && s[k].ptr.Some? ==> a[k].ptr.Some? != b[k].ptr.Some?
    requires forall k :: 0 <= k < |s| && s[k].ptr.None? ==> a[k].ptr.None? && b[k].ptr.None?
    ensures Used(s) == Used(a) + Used(b)
  {
    if s != [] {
      assert forall k :: 0 <= k < |s| - 1 ==> s[1..][k] == s[k + 1] && a[1..][k] == a[k + 1] && b[1..][k] == b[k + 1];
      UsedParts(s[1..], a[1..], b[1..]);
    }
  }

  // Each live entry of the slot is taken by one of the two destinations.
  lemma {:induction false} UsedTaken(l0: seq<Level>, lo: nat, hi: nat, rot: nat, recs: map<Key, Rec>, i: nat, j: nat)
    requires SplitPre(l0, lo, hi, rot, recs, i, j) && i < |l0| && LevelShape(l0[i], i) && j < Pow2(i)
    ensures var s := l0[i].table[j];
      Used(s) == Used(Take(rot, s, i + 1, j, 8)) + Used(Take(rot, s, i + 1, j + Pow2(i), 8))
  {
    hide SplitPre, EntryOk;
    var s := l0[i].table[j];
    var a, b := Take(rot, s, i + 1, j, 8), Take(rot, s, i + 1, j + Pow2(i), 8);
    forall k | 0 <= k < 8 && s[k].ptr.Some? ensures a[k].ptr.Some? != b[k].ptr.Some? {
      SourceOk(l0, lo, hi, rot, recs, i, j, k);
      TakesOne(l0, rot, i, j, k, s[k]);
    }
    UsedParts(s, a, b);
  }

  // Filling two empty slots.
  lemma LiveFilled(t: seq<Slot>, j: nat, j2: nat, a: Slot, b: Slot)
    requires j < |t| && j2 < |t| && j != j2 && t[j] == t[j2] == EmptySlot()
    ensures Live(t[j := a][j2 := b]) == Live(t) + Used(a) + Used(b)
  {
    hide Live;
    UsedNone(EmptySlot());
    LiveUpdate(t, j, a);
    LiveUpdate(t[j := a], j2, b);
  }

  // The copying loop takes the slot's entries from one level's live ones and
  // gives them to the next level's.
  lemma MovedLive(l0: seq<Level>, lo: nat, hi: nat, rot: nat, recs: map<Key, Rec>, i: nat, j: nat, nr0: nat, nr1: nat)
    requires SplitPre(l0, lo, hi, rot, recs, i, j)
    requires i + 1 < |l0| && LevelShape(l0[i], i) && LevelShape(l0[i + 1], i + 1) && j < Pow2(i)
    ensures Live(Moved(l0, rot, i, j, 8, nr0, nr1)[i].table) == Live(l0[i].table) - Used(l0[i].table[j])
    ensures Live(Moved(l0, rot, i, j, 8, nr0, nr1)[i + 1].table) == Live(l0[i + 1].table) + Used(l0[i].table[j])
  {
    hide Live, SplitPre, Take;
    var s, j2 := l0[i].table[j], j + Pow2(i);
    LiveUpdate(l0[i].table, j, Emptied(s, 8));
    UsedNone(Emptied(s, 8));
    Destination(l0, lo, hi, rot, recs, i, j, j);
    Destination(l0, lo, hi, rot, recs, i, j, j2);
    LiveFilled(l0[i + 1].table, j, j2, Take(rot, s, i + 1, j, 8), Take(rot, s, i + 1, j2, 8));
    UsedTaken(l0, lo, hi, rot, recs, i, j);
  }

  // The two indexes an entry of slot j can have one level up.
  lemma {:induction false} TakesOne(l0: seq<Level>, rot: nat, i: nat, j: nat, k: nat, e: Entry)
    requires i < |l0| && EntryOk(l0, rot, Pos(i, j, k), e) && e.ptr.Some?
    ensures var jj := Low(Hash(rot, e.ptr.value.key), i + 1); jj == j || jj == j + Pow2(i)
  {
    LowStep(Hash(rot, e.ptr.value.key), i);
  }

  // The counters still count: the loop takes one from the one level and gives
  // one to the other for each entry of the slot.
  lemma SplitCounted(l0: seq<Level>, lo: nat, hi: nat, rot: nat, recs: map<Key, Rec>, i: nat, j: nat, nr0: nat, nr1: nat)
    requires SplitPre(l0, lo, hi, rot, recs, i, j) && Counted(l0, lo, hi)
    requires LevelShape(l0[i], i) && LevelShape(l0[i + 1], i + 1)
    requires nr0 == l0[i].nrKv - Used(l0[i].table[j]) && nr1 == l0[i + 1].nrKv + Used(l0[i].table[j])
    ensures Counted(Split(l0, rot, i, j, nr0, nr1), lo, hi)
  {
    hide Placed, Partition, Live;
    MovedLive(l0, lo, hi, rot, recs, i, j, nr0, nr1);
  }

  // The lowest level that still has a slot after the split.
  lemma SplitLowest(l0: seq<Level>, lo: nat, hi: nat, rot: nat, i: nat, j: nat, nr0: nat, nr1: nat)
    requires Splittable(l0, lo, hi, i, j) && !TestAll0(l0[lo].bm)
    requires LevelShape(l0[i], i) && LevelShape(l0[i + 1], i + 1)
    ensures var l2 := Split(l0, rot, i, j, nr0, nr1);
      && (lo != i ==> !TestAll0(l2[lo].bm))
      && !TestAll0(l2[i + 1].bm)
  {
    var l2 := Split(l0, rot, i, j, nr0, nr1);
    SplitBits(l0, lo, hi, rot, i, j, nr0, nr1, i + 1, j);
    TestAll0Correct(l2[i + 1].bm);
  }

  // The end of kvmap1_split: firstCheck may move up, and the lowest level is
  // released when its last bit is cleared. firstCheck never falls below the
  // lowest level, because a level without bits has no live entry left.
  lemma SplitKeeps(l0: seq<Level>, lo: nat, hi: nat, first: nat, rot: nat, recs: map<Key, Rec>,
                   i: nat, j: nat, nr0: nat, nr1: nat)
    requires Inv(l0, lo, hi, first, rot, recs) && lo <= i < hi && j < Pow2(i) && Test(l0[i].bm, j)
    requires LevelShape(l0[i], i) && LevelShape(l0[i + 1], i + 1)
    requires nr0 == Live(Moved(l0, rot, i, j, 8, nr0, nr1)[i].table)
    requires nr1 == Live(Moved(l0, rot, i, j, 8, nr0, nr1)[i + 1].table)
    ensures var l2 := Split(l0, rot, i, j, nr0, nr1);
      var first2 := if first == i && nr1 >= 2 * nr0 then first + 1 else first;
      if TestAll0(l2[i].bm) && lo == i
      then Inv(l2[i := l2[i].(table := [])], lo + 1, hi, first2, rot, Resplit(recs, rot, i, j))
      else Inv(l2, lo, hi, first2, rot, Resplit(recs, rot, i, j))
  {
    var l2 := Split(l0, rot, i, j, nr0, nr1);
    SplitShape(l0, lo, hi, rot, i, j, nr0, nr1);
    SplitPartition(l0, lo, hi, rot, i, j, nr0, nr1);
    SplitPlaced(l0, lo, hi, rot, recs, i, j, nr0, nr1);
    MovedLive(l0, lo, hi, rot, recs, i, j, nr0, nr1);
    SplitCounted(l0, lo, hi, rot, recs, i, j, nr0, nr1);
    SplitLowest(l0, lo, hi, rot, i, j, nr0, nr1);
    if TestAll0(l2[i].bm) && lo == i {
      NoBitsNoEntries(l2, lo, hi, rot, Resplit(recs, rot, i, j), i);
      ReleaseKeeps(l2, lo, hi, rot, Resplit(recs, rot, i, j));
    }
  }

  // Who claims a hash after the split.
  lemma SplitClaims(l0: seq<Level>, lo: nat, hi: nat, rot: nat, i: nat, j: nat, nr0: nat, nr1: nat, a: nat, h: nat)
    requires Splittable(l0, lo, hi, i, j) && lo <= a <= hi && Claims(l0, a, h)
    requires LevelShape(l0[i], i) && LevelShape(l0[i + 1], i + 1)
    ensures var l2 := Split(l0, rot, i, j, nr0, nr1);
      if Low(h, i) == j then a == i && Claims(l2, i + 1, h) else Claims(l2, a, h)
  {
    LowStep(h, i);
    var b := if Low(h, i) == j then i + 1 else a;
    SplitBits(l0, lo, hi, rot, i, j, nr0, nr1, b, Low(h, b));
    if Low(h, i) == j {
      assert Claims(l0, i, h);
    }
  }

  // Setting the two destination bits starts the copying loop.
  lemma MoveStart(l0: seq<Level>, lo: nat, hi: nat, rot: nat, recs: map<Key, Rec>, i: nat, j: nat)
    requires SplitPre(l0, lo, hi, rot, recs, i, j)
    requires LevelShape(l0[i], i) && LevelShape(l0[i + 1], i + 1)
    ensures l0[i + 1 := l0[i + 1].(bm := Set1(Set1(l0[i + 1].bm, j), j + Pow2(i)))]
         == Moved(l0, rot, i, j, 0, l0[i].nrKv, l0[i + 1].nrKv)
  {
    var s := l0[i].table[j];
    var j2 := j + Pow2(i);
    Destination(l0, lo, hi, rot, recs, i, j, j);
    Destination(l0, lo, hi, rot, recs, i, j, j2);
    assert Take(rot, s, i + 1, j, 0) == EmptySlot();
    assert Take(rot, s, i + 1, j2, 0) == EmptySlot();
    assert Emptied(s, 0) == s;
    var a := l0[i + 1 := l0[i + 1].(bm := Set1(Set1(l0[i + 1].bm, j), j2))];
    var m := Moved(l0, rot, i, j, 0, l0[i].nrKv, l0[i + 1].nrKv);
    assert m[i].table == l0[i].table;
    assert m[i + 1].table == l0[i + 1].table;
    assert a[i] == m[i] && a[i + 1] == m[i + 1];
    assert a == m;
  }

  // Both live counts stay exact through one turn of the loop.
  lemma MoveTurn(l0: seq<Level>, lo: nat, hi: nat, rot: nat, recs: map<Key, Rec>, i: nat, j: nat, k: nat, m: seq<Level>)
    requires SplitPre(l0, lo, hi, rot, recs, i, j) && k < 8 && |m| == |l0|
    requires LevelShape(l0[i], i) && LevelShape(l0[i + 1], i + 1)
    requires m == Moved(l0, rot, i, j, k, m[i].nrKv, m[i + 1].nrKv)
    requires m[i].nrKv == Live(m[i].table) && m[i + 1].nrKv == Live(m[i + 1].table)
    ensures |m[i].table| > j && m[i].table[j][k] == l0[i].table[j][k]
    ensures var e := l0[i].table[j][k];
      if e.ptr.None? then m == Moved(l0, rot, i, j, k + 1, m[i].nrKv, m[i + 1].nrKv)
      else
        var jj := Low(Hash(rot, e.ptr.value.key), i + 1);
        && m[i].nrKv > 0 && jj < |m[i + 1].table|
        && var w := Write(Write(m, Pos(i + 1, jj, k), e, m[i + 1].nrKv + 1), Pos(i, j, k), EMPTY, m[i].nrKv - 1);
        && w == Moved(l0, rot, i, j, k + 1, w[i].nrKv, w[i + 1].nrKv)
        && w[i].nrKv == Live(w[i].table) && w[i + 1].nrKv == Live(w[i + 1].table)
  {
    hide Live, Placed, Partition, EntryOk;
    var e := l0[i].table[j][k];
    SourceOk(l0, lo, hi, rot, recs, i, j, k);
    if e.ptr.Some? {
      WriteLive(m, Pos(i, j, k), EMPTY, 0);
    }
    MoveStep(l0, rot, i, j, k, m[i].nrKv, m[i + 1].nrKv);
    if e.ptr.Some? {
      MoveCounts(m, i, j, k, Low(Hash(rot, e.ptr.value.key), i + 1), e);
    }
  }

  lemma SourceOk(l0: seq<Level>, lo: nat, hi: nat, rot: nat, recs: map<Key, Rec>, i: nat, j: nat, k: nat)
    requires SplitPre(l0, lo, hi, rot, recs, i, j) && k < 8 && i < |l0| && LevelShape(l0[i], i)
    ensures EntryOk(l0, rot, Pos(i, j, k), l0[i].table[j][k])
  {
    assert InRange(l0, lo, hi, Pos(i, j, k));
    assert At(l0, Pos(i, j, k)) == l0[i].table[j][k];
  }

  lemma MoveCounts(m: seq<Level>, i: nat, j: nat, k: nat, jj: nat, e: Entry)
    requires i + 1 < |m| && j < |m[i].table| && jj < |m[i + 1].table| && k < 8
    requires At(m, Pos(i, j, k)) == e && e.ptr.Some? && At(m, Pos(i + 1, jj, k)).ptr.None?
    requires m[i].nrKv == Live(m[i].table) && m[i + 1].nrKv == Live(m[i + 1].table) && m[i].nrKv > 0
    ensures var w := Write(Write(m, Pos(i + 1, jj, k), e, m[i + 1].nrKv + 1), Pos(i, j, k), EMPTY, m[i].nrKv - 1);
      w[i].nrKv == Live(w[i].table) && w[i + 1].nrKv == Live(w[i + 1].table)
  {
    var w1 := Write(m, Pos(i + 1, jj, k), e, m[i + 1].nrKv + 1);
    WriteLive(m, Pos(i + 1, jj, k), e, m[i + 1].nrKv + 1);
    WriteLive(w1, Pos(i, j, k), EMPTY, m[i].nrKv - 1);
  }
}
