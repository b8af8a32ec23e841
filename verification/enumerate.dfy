// Listing a map object by object, and walking tables of slots entry by entry.

module Enumerations {
  import opened Option
  import opened KvApi

  // kvs lists the objects of m, each once.
  ghost predicate Enumerates(m: map<Key, Kv>, kvs: seq<Kv>) {
    && (forall i, j :: 0 <= i < j < |kvs| ==> kvs[i].key != kvs[j].key)
    && (forall i :: 0 <= i < |kvs| ==> Find(m, kvs[i].key) == Some(kvs[i]))
    && (forall key :: key in m ==> m[key] in kvs && m[key].key == key)
  }

  // Two maps without a common key, listed one after the other.
  lemma EnumeratesBoth(m1: map<Key, Kv>, kvs1: seq<Kv>, m2: map<Key, Kv>, kvs2: seq<Kv>)
    requires Enumerates(m1, kvs1) && Enumerates(m2, kvs2) && m1.Keys !! m2.Keys
    ensures Enumerates(m1 + m2, kvs1 + kvs2)
  {
    var kvs := kvs1 + kvs2;
    forall i | 0 <= i < |kvs| ensures Find(m1 + m2, kvs[i].key) == Some(kvs[i]) {
      assert i < |kvs1| ==> kvs[i] == kvs1[i] && Find(m1, kvs1[i].key) == Some(kvs1[i]);
      assert i >= |kvs1| ==> kvs[i] == kvs2[i - |kvs1|] && Find(m2, kvs2[i - |kvs1|].key) == Some(kvs2[i - |kvs1|]);
    }
    forall i, j | 0 <= i < j < |kvs| ensures kvs[i].key != kvs[j].key {
      if i < |kvs1| <= j {
        assert Find(m1, kvs1[i].key) == Some(kvs1[i]) && Find(m2, kvs2[j - |kvs1|].key) == Some(kvs2[j - |kvs1|]);
      }
    }
  }

  // The callbacks of giving every listed object up.
  function Retires(mm: Mm, kvs: seq<Kv>): (evs: seq<Event>)
    ensures mm.rf ==> |evs| == |kvs| && forall i :: 0 <= i < |kvs| ==> evs[i] == Retire(kvs[i])
    ensures !mm.rf ==> evs == []
  {
    if mm.rf then seq(|kvs|, i requires 0 <= i < |kvs| => Retire(kvs[i])) else []
  }

  lemma RetiresBoth(mm: Mm, a: seq<Kv>, b: seq<Kv>)
    ensures Retires(mm, a + b) == Retires(mm, a) + Retires(mm, b)
  {
  }

  lemma RetiresMore(mm: Mm, kvs: seq<Kv>, kv: Kv)
    ensures Retires(mm, kvs + [kv]) == Retires(mm, kvs) + if mm.rf then [Retire(kv)] else []
  {
  }
}

module TableWalk {
  import opened Option
  import opened KvApi
  import opened Enumerations

  // The live positions of a row of tables, in walking order from a cursor on.
  ghost function LiveFrom(tabs: seq<seq<Slot>>, a: nat, j: nat, k: nat): seq<Pos>
    decreases if a < |tabs| then |tabs| - a else 0, if a < |tabs| && j < |tabs[a]| then |tabs[a]| - j else 0, if k < 8 then 8 - k else 0
  {
    if a >= |tabs| then []
    else if j >= |tabs[a]| then LiveFrom(tabs, a + 1, 0, 0)
    else if k >= 8 then LiveFrom(tabs, a, j + 1, 0)
    else (if tabs[a][j][k].ptr.Some? then [Pos(a, j, k)] else []) + LiveFrom(tabs, a, j, k + 1)
  }

  predicate LiveAt(tabs: seq<seq<Slot>>, p: Pos) {
    p.i < |tabs| && p.j < |tabs[p.i]| && p.k < 8 && tabs[p.i][p.j][p.k].ptr.Some?
  }

  // p is at the cursor or after it.
  predicate Reached(p: Pos, a: nat, j: nat, k: nat) {
    a < p.i || (a == p.i && (j < p.j || (j == p.j && k <= p.k)))
  }

  ghost predicate NoRepeat(ps: seq<Pos>) {
    forall x, y :: 0 <= x < y < |ps| ==> ps[x] != ps[y]
  }

  lemma NoRepeatCons(p: Pos, ps: seq<Pos>)
    requires NoRepeat(ps) && p !in ps
    ensures NoRepeat([p] + ps)
  {
  }

  lemma {:induction false} LiveFromAre(tabs: seq<seq<Slot>>, a: nat, j: nat, k: nat)
    ensures Exactly(tabs, LiveFrom(tabs, a, j, k), a, j, k)
    decreases if a < |tabs| then |tabs| - a else 0, if a < |tabs| && j < |tabs[a]| then |tabs[a]| - j else 0, if k < 8 then 8 - k else 0
  {
    hide Exactly;
    if a >= |tabs| {
      ExactlyNone(tabs, a, j, k);
    } else {
      if j >= |tabs[a]| {
        LiveFromAre(tabs, a + 1, 0, 0);
        ExactlyJump(tabs, LiveFrom(tabs, a + 1, 0, 0), a, j, k);
      } else if k >= 8 {
        LiveFromAre(tabs, a, j + 1, 0);
        ExactlyJump(tabs, LiveFrom(tabs, a, j + 1, 0), a, j, k);
      } else {
        LiveFromAre(tabs, a, j, k + 1);
        ExactlyNext(tabs, LiveFrom(tabs, a, j, k + 1), a, j, k);
      }
    }
  }

  // ps is the live positions from the cursor on, none twice.
  ghost predicate Exactly(tabs: seq<seq<Slot>>, ps: seq<Pos>, a: nat, j: nat, k: nat) {
    NoRepeat(ps) && forall p :: p in ps <==> LiveAt(tabs, p) && Reached(p, a, j, k)
  }

  lemma ExactlyNone(tabs: seq<seq<Slot>>, a: nat, j: nat, k: nat)
    requires a >= |tabs|
    ensures Exactly(tabs, [], a, j, k)
  {
  }

  // A cursor past the end of its table, or of its slot.
  lemma ExactlyJump(tabs: seq<seq<Slot>>, ps: seq<Pos>, a: nat, j: nat, k: nat)
    requires a < |tabs|
    ensures j >= |tabs[a]| && Exactly(tabs, ps, a + 1, 0, 0) ==> Exactly(tabs, ps, a, j, k)
    ensures k >= 8 && Exactly(tabs, ps, a, j + 1, 0) ==> Exactly(tabs, ps, a, j, k)
  {
  }

  lemma ExactlyNext(tabs: seq<seq<Slot>>, ps: seq<Pos>, a: nat, j: nat, k: nat)
    requires a < |tabs| && j < |tabs[a]| && k < 8 && Exactly(tabs, ps, a, j, k + 1)
    ensures Exactly(tabs, (if tabs[a][j][k].ptr.Some? then [Pos(a, j, k)] else []) + ps, a, j, k)
  {
    var c := Pos(a, j, k);
    assert !Reached(c, a, j, k + 1);
    assert forall p :: Reached(p, a, j, k) <==> p == c || Reached(p, a, j, k + 1);
    if tabs[a][j][k].ptr.Some? {
      NoRepeatCons(c, ps);
      assert forall p :: p in [c] + ps <==> p == c || p in ps;
    } else {
      assert [] + ps == ps;
    }
  }

  ghost function ObjectAt(tabs: seq<seq<Slot>>, p: Pos): Kv
    requires LiveAt(tabs, p)
  {
    tabs[p.i][p.j][p.k].ptr.value
  }

  // The objects at live positions.
  ghost function Objects(tabs: seq<seq<Slot>>, ps: seq<Pos>): (kvs: seq<Kv>)
    requires forall x :: 0 <= x < |ps| ==> LiveAt(tabs, ps[x])
    ensures |kvs| == |ps|
  {
    seq(|ps|, x requires 0 <= x < |ps| => ObjectAt(tabs, ps[x]))
  }

  // A row of tables whose live entries are the objects of m, each in one place.
  ghost predicate Holds(tabs: seq<seq<Slot>>, m: map<Key, Kv>, at: map<Key, Pos>) {
    && (forall p :: LiveAt(tabs, p) ==>
      var kv := ObjectAt(tabs, p); Find(m, kv.key) == Some(kv) && kv.key in at && at[kv.key] == p)
    && (forall key :: key in m ==>
      key in at && LiveAt(tabs, at[key]) && ObjectAt(tabs, at[key]) == m[key] && m[key].key == key)
  }

  // Walking the tables from the start lists the map.
  lemma {:induction false} WalkEnumerates(tabs: seq<seq<Slot>>, m: map<Key, Kv>, at: map<Key, Pos>)
    requires Holds(tabs, m, at)
    ensures forall x :: 0 <= x < |LiveFrom(tabs, 0, 0, 0)| ==> LiveAt(tabs, LiveFrom(tabs, 0, 0, 0)[x])
    ensures Enumerates(m, Objects(tabs, LiveFrom(tabs, 0, 0, 0)))
  {
    LiveFromAre(tabs, 0, 0, 0);
    var ps := LiveFrom(tabs, 0, 0, 0);
    hide LiveFrom;
    var kvs := Objects(tabs, ps);
    forall x, y | 0 <= x < y < |kvs| ensures kvs[x].key != kvs[y].key {
      assert LiveAt(tabs, ps[x]) && LiveAt(tabs, ps[y]);
    }
    forall x | 0 <= x < |kvs| ensures Find(m, kvs[x].key) == Some(kvs[x]) {
      assert LiveAt(tabs, ps[x]);
    }
    forall key | key in m ensures m[key] in kvs {
      assert at[key] in ps;
      var x :| 0 <= x < |ps| && ps[x] == at[key];
      assert kvs[x] == m[key];
    }
  }

  // The place of the cursor, if it is live.
  function Here(tabs: seq<seq<Slot>>, a: nat, j: nat, k: nat): seq<Pos>
    requires a < |tabs| && j < |tabs[a]| && k < 8
  {
    if tabs[a][j][k].ptr.Some? then [Pos(a, j, k)] else []
  }

  // One step of a walk: the cursor moves past one entry.
  lemma StepOver(tabs: seq<seq<Slot>>, a: nat, j: nat, k: nat)
    requires a < |tabs| && j < |tabs[a]| && k < 8
    ensures LiveFrom(tabs, a, j, k) == Here(tabs, a, j, k) +
      if k + 1 < 8 then LiveFrom(tabs, a, j, k + 1)
      else if j + 1 < |tabs[a]| then LiveFrom(tabs, a, j + 1, 0)
      else LiveFrom(tabs, a + 1, 0, 0)
  {
    if k + 1 >= 8 {
      assert LiveFrom(tabs, a, j, k + 1) == LiveFrom(tabs, a, j + 1, 0);
    }
  }

  lemma StepEntry(tabs: seq<seq<Slot>>, a: nat, j: nat, k: nat)
    requires a < |tabs| && j < |tabs[a]|
    ensures k < 8 ==> LiveFrom(tabs, a, j, k) == Here(tabs, a, j, k) + LiveFrom(tabs, a, j, k + 1)
    ensures k >= 8 ==> LiveFrom(tabs, a, j, k) == LiveFrom(tabs, a, j + 1, 0)
  {
  }

  lemma {:induction false} WalkEnd(tabs: seq<seq<Slot>>, a: nat, j: nat, k: nat)
    ensures a >= |tabs| ==> LiveFrom(tabs, a, j, k) == []
  {
  }

  lemma StepTable(tabs: seq<seq<Slot>>, a: nat, j: nat)
    requires a < |tabs| && j >= |tabs[a]|
    ensures LiveFrom(tabs, a, j, 0) == LiveFrom(tabs, a + 1, 0, 0)
  {
  }

  // A slot without live entries is stepped over.
  lemma {:induction false} SkipSlot(tabs: seq<seq<Slot>>, a: nat, j: nat, k: nat)
    requires a < |tabs| && j < |tabs[a]| && k <= 8
    requires forall x :: k <= x < 8 ==> tabs[a][j][x].ptr.None?
    ensures LiveFrom(tabs, a, j, k) == LiveFrom(tabs, a, j + 1, 0)
    decreases 8 - k
  {
    if k < 8 {
      SkipSlot(tabs, a, j, k + 1);
    }
  }

  // The eight entries of one slot.
  method RetireSlot(mm: Mm, slot: Slot, evs0: seq<Event>, ghost tabs: seq<seq<Slot>>, ghost all: seq<Pos>, ghost n0: nat,
                   ghost a: nat, ghost j: nat)
    returns (evs: seq<Event>, ghost n: nat)
    requires a < |tabs| && j < |tabs[a]| && slot == tabs[a][j] && n0 <= |all|
    requires forall x :: 0 <= x < |all| ==> LiveAt(tabs, all[x])
    requires evs0 == Retires(mm, Objects(tabs, all)[..n0]) && all[n0..] == LiveFrom(tabs, a, j, 0)
    ensures n <= |all| && evs == Retires(mm, Objects(tabs, all)[..n]) && all[n..] == LiveFrom(tabs, a, j + 1, 0)
  {
    hide LiveFrom;
    evs, n := evs0, n0;
    var k := 0;
    while k < 8
      invariant 0 <= k <= 8 && n <= |all|
      invariant evs == Retires(mm, Objects(tabs, all)[..n]) && all[n..] == LiveFrom(tabs, a, j, k)
    {
      StepEntry(tabs, a, j, k);
      if slot[k].ptr.Some? {
        assert all[n..][0] == Pos(a, j, k) && all[n + 1..] == all[n..][1..];
        assert Objects(tabs, all)[..n + 1] == Objects(tabs, all)[..n] + [slot[k].ptr.value];
        RetiresMore(mm, Objects(tabs, all)[..n], slot[k].ptr.value);
        if mm.rf {
          evs := evs + [Retire(slot[k].ptr.value)];
        }
        n := n + 1;
      }
      k := k + 1;
    }
    StepEntry(tabs, a, j, k);
  }

  // Every entry of every table, given up once.
  method RetireTables(mm: Mm, tabs: seq<seq<Slot>>) returns (evs: seq<Event>)
    ensures forall x :: 0 <= x < |LiveFrom(tabs, 0, 0, 0)| ==> LiveAt(tabs, LiveFrom(tabs, 0, 0, 0)[x])
    ensures evs == Retires(mm, Objects(tabs, LiveFrom(tabs, 0, 0, 0)))
  {
    hide LiveFrom;
    ghost var all := LiveFrom(tabs, 0, 0, 0);
    LiveFromAre(tabs, 0, 0, 0);
    ghost var n: nat := 0;
    evs := [];
    var a := 0;
    while a < |tabs|
      invariant 0 <= a <= |tabs|
      invariant n <= |all| && evs == Retires(mm, Objects(tabs, all)[..n]) && all[n..] == LiveFrom(tabs, a, 0, 0)
    {
      var j := 0;
      while j < |tabs[a]|
        invariant 0 <= j <= |tabs[a]|
        invariant n <= |all| && evs == Retires(mm, Objects(tabs, all)[..n]) && all[n..] == LiveFrom(tabs, a, j, 0)
      {
        evs, n := RetireSlot(mm, tabs[a][j], evs, tabs, all, n, a, j);
        j := j + 1;
      }
      StepTable(tabs, a, j);
      a := a + 1;
    }
    WalkEnd(tabs, a, 0, 0);
    assert Objects(tabs, all)[..n] == Objects(tabs, all);
  }
}
