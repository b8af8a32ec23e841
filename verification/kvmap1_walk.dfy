// Walking a whole kvmap1 table: its iterator and its clean (lib1.c:3513-3652).

module KvMap1Walk {
  import opened Option
  import opened KvApi
  import opened Bitmaps
  import opened Pow2s
  import opened EntryCounts
  import opened Enumerations
  import opened TableWalk
  import opened KvMap1State
  import opened KvMap1s

  // The tables in walking order: from the highest level down.
  ghost function Tabs(levels: seq<Level>, hi: nat): (tabs: seq<seq<Slot>>)
    requires MIN_LEVEL <= hi < |levels|
    ensures |tabs| == hi - MIN_LEVEL + 1
  {
    seq(hi - MIN_LEVEL + 1, x requires 0 <= x <= hi - MIN_LEVEL => levels[hi - x].table)
  }

  ghost function Places(recs: map<Key, Rec>, hi: nat): map<Key, Pos> {
    map key | key in recs && recs[key].p.i <= hi :: Pos(hi - recs[key].p.i, recs[key].p.j, recs[key].p.k)
  }

  // The walk goes through exactly the stored objects.
  lemma TabsHold(levels: seq<Level>, lo: nat, hi: nat, first: nat, rot: nat, recs: map<Key, Rec>)
    requires Inv(levels, lo, hi, first, rot, recs)
    ensures Holds(Tabs(levels, hi), KvMap1State.Contents(recs), Places(recs, hi))
  {
    hide Inv, LiveAt;
    LevelSizes(levels, lo, hi, first, rot, recs);
    var tabs: seq<seq<Slot>>, at: map<Key, Pos> := Tabs(levels, hi), Places(recs, hi);
    forall p | LiveAt(tabs, p)
      ensures LiveAt(tabs, p)
      ensures var kv := ObjectAt(tabs, p); Find(KvMap1State.Contents(recs), kv.key) == Some(kv) && kv.key in at && at[kv.key] == p
    {
      HeldPlace(levels, lo, hi, first, rot, recs, p);
    }
    forall key | key in recs
      ensures key in at && LiveAt(tabs, at[key])
      ensures ObjectAt(tabs, at[key]) == recs[key].kv && recs[key].kv.key == key
    {
      PlaceHeld(levels, lo, hi, first, rot, recs, key);
    }
  }

  lemma HeldPlace(levels: seq<Level>, lo: nat, hi: nat, first: nat, rot: nat, recs: map<Key, Rec>, p: Pos)
    requires Inv(levels, lo, hi, first, rot, recs) && LiveAt(Tabs(levels, hi), p)
    ensures var kv := ObjectAt(Tabs(levels, hi), p);
      kv.key in recs && recs[kv.key] == Rec(Pos(hi - p.i, p.j, p.k), kv)
  {
    hide Partition, Counted, Pow2;
    var q := Pos(hi - p.i, p.j, p.k);
    assert InRange(levels, lo, hi, q) && At(levels, q).ptr.Some?;
  }

  lemma PlaceHeld(levels: seq<Level>, lo: nat, hi: nat, first: nat, rot: nat, recs: map<Key, Rec>, key: Key)
    requires Inv(levels, lo, hi, first, rot, recs) && key in recs
    ensures recs[key].p.i <= hi && recs[key].kv.key == key
    ensures var p := Pos(hi - recs[key].p.i, recs[key].p.j, recs[key].p.k);
      LiveAt(Tabs(levels, hi), p) && ObjectAt(Tabs(levels, hi), p) == recs[key].kv
  {
    hide Partition, Counted, Pow2, EntryOk;
    assert InRange(levels, lo, hi, recs[key].p);
  }

  // A slot whose bit is clear has no entry.
  lemma {:induction false} ClearSlot(levels: seq<Level>, lo: nat, hi: nat, first: nat, rot: nat, recs: map<Key, Rec>, i: nat, j: nat)
    requires Inv(levels, lo, hi, first, rot, recs) && MIN_LEVEL <= i <= hi && j < |levels[i].table|
    requires !Test(levels[i].bm, j)
    ensures LiveFrom(Tabs(levels, hi), hi - i, j, 0) == LiveFrom(Tabs(levels, hi), hi - i, j + 1, 0)
  {
    forall k | 0 <= k < 8 ensures levels[i].table[j][k].ptr.None? {
      assert InRange(levels, lo, hi, Pos(i, j, k));
      assert EntryOk(levels, rot, Pos(i, j, k), At(levels, Pos(i, j, k)));
    }
    SkipSlot(Tabs(levels, hi), hi - i, j, 0);
  }

  lemma LevelSizes(levels: seq<Level>, lo: nat, hi: nat, first: nat, rot: nat, recs: map<Key, Rec>)
    requires Inv(levels, lo, hi, first, rot, recs)
    ensures |levels| == NR_LEVELS && MIN_LEVEL <= lo <= hi < NR_LEVELS
    ensures forall i :: MIN_LEVEL <= i <= hi ==> levels[i].table == [] || |levels[i].table| == Pow2(i)
  {
    assert forall i :: lo <= i <= hi ==> LevelShape(levels[i], i);
  }

  // struct kvmap1_iter
  class KvMap1Iter {
    const table: KvMap1
    var i: nat
    var j: nat
    var k: nat

    ghost predicate Valid()
      reads this, table
    {
      && table.Valid() && MIN_LEVEL - 1 <= i <= table.maxLevel && k < 8
      && |table.levels| == NR_LEVELS && MIN_LEVEL <= table.maxLevel < NR_LEVELS
      && (j > 0 || k > 0 ==> i >= MIN_LEVEL && j < |table.levels[i].table|)
    }

    // The places still to be visited.
    ghost function Rest(): seq<Pos>
      requires Valid()
      reads this, table
    {
      LiveFrom(Tabs(table.levels, table.maxLevel), table.maxLevel - i, j, k)
    }

    // kvmap1_iter_create
    constructor (table: KvMap1)
      requires table.Valid()
      ensures Valid() && this.table == table
      ensures Rest() == LiveFrom(Tabs(table.levels, table.maxLevel), 0, 0, 0)
    {
      this.table := table;
      i, j, k := table.maxLevel, 0, 0;
      new;
      LevelSizes(table.levels, table.minLevel, table.maxLevel, table.firstCheck, table.rot, table.recs);
    }

    // Empty slots at a new place are skipped by their bits; `over` when that
    // ends the level.
    method SkipClear() returns (over: bool)
      requires Valid() && i >= MIN_LEVEL && table.levels[i].table != [] && k == 0
      modifies `i, `j
      ensures Valid() && Rest() == old(Rest())
      ensures if over then i == old(i) - 1 else i == old(i) && j >= old(j) && j < |table.levels[i].table|
    {
      hide Inv, Pow2, LiveFrom;
      LevelSizes(table.levels, table.minLevel, table.maxLevel, table.firstCheck, table.rot, table.recs);
      ghost var hi, i0, start := table.maxLevel, i, Rest();
      ghost var tabs := Tabs(table.levels, hi);
      assert tabs[hi - i] == table.levels[i].table;
      while j < Pow2(i) && !Test(table.levels[i].bm, j)
        invariant i == i0 && k == 0 && old(j) <= j <= Pow2(i) && LiveFrom(tabs, hi - i, j, 0) == start
      {
        ClearSlot(table.levels, table.minLevel, hi, table.firstCheck, table.rot, table.recs, i, j);
        j := j + 1;
      }
      over := j >= Pow2(i);
      if over {
        StepTable(tabs, hi - i, j);
        j := 0;
        i := i - 1;
      }
    }

    // The cursor moves past one entry.
    method Shift()
      requires Valid() && i >= MIN_LEVEL && j < |table.levels[i].table|
      modifies `i, `j, `k
      ensures Valid()
      ensures old(Rest()) == (if table.levels[old(i)].table[old(j)][old(k)].ptr.Some?
        then [Pos(table.maxLevel - old(i), old(j), old(k))] else []) + Rest()
      ensures i < old(i) || (i == old(i) && (j > old(j) || (j == old(j) && k > old(k))))
    {
      hide Inv, Pow2, LiveFrom;
      LevelSizes(table.levels, table.minLevel, table.maxLevel, table.firstCheck, table.rot, table.recs);
      ghost var hi := table.maxLevel;
      assert Tabs(table.levels, hi)[hi - i] == table.levels[i].table;
      StepOver(Tabs(table.levels, hi), hi - i, j, k);
      k := k + 1;
      if k >= 8 {
        k := 0;
        j := j + 1;
        if j >= Pow2(i) {
          j := 0;
          i := i - 1;
        }
      }
    }

    // kvmap1_iter_next: the object at the next place, each place once.
    method Next() returns (ret: Option<Kv>)
      requires Valid()
      modifies `i, `j, `k
      ensures Valid()
      ensures old(Rest()) == [] ==> ret == None && Rest() == []
      ensures old(Rest()) != [] ==> Rest() == old(Rest())[1..]
      ensures old(Rest()) != [] ==> LiveAt(Tabs(table.levels, table.maxLevel), old(Rest())[0])
      ensures old(Rest()) != [] ==> ret == Some(ObjectAt(Tabs(table.levels, table.maxLevel), old(Rest())[0]))
    {
      hide Inv, Pow2, LiveFrom;
      ret := None;
      ghost var hi, start := table.maxLevel, Rest();
      ghost var tabs := Tabs(table.levels, hi);
      while i >= MIN_LEVEL
        invariant Valid() && ret == None && Rest() == start
        decreases i, if j < |table.levels[i].table| then |table.levels[i].table| - j else 0, 8 - k
      {
        assert tabs[hi - i] == table.levels[i].table;
        if table.levels[i].table == [] {
          StepTable(tabs, hi - i, 0);
          i := i - 1;
          continue;
        }
        if k == 0 {
          var over := SkipClear();
          if over {
            continue;
          }
        }
        ghost var here := Pos(hi - i, j, k);
        if table.levels[i].table[j][k].ptr.Some? {
          ret := table.levels[i].table[j][k].ptr;
        }
        Shift();
        if ret.Some? {
          assert start == [here] + Rest();
          break;
        }
      }
      WalkEnd(tabs, hi - i, j, k);
    }
  }

  // The objects of a table in walking order.
  ghost function Stored(table: KvMap1): (kvs: seq<Kv>)
    requires table.Valid()
    reads table
  {
    var tabs := Tabs(table.levels, table.maxLevel);
    LiveFromAre(tabs, 0, 0, 0);
    Objects(tabs, LiveFrom(tabs, 0, 0, 0))
  }

  // A walk from the start, an iterator's or a clean's, meets every stored object,
  // each once.
  lemma WalksAll(table: KvMap1)
    requires table.Valid()
    ensures Enumerates(table.Contents(), Stored(table))
  {
    hide Inv, LiveFrom;
    LevelSizes(table.levels, table.minLevel, table.maxLevel, table.firstCheck, table.rot, table.recs);
    TabsHold(table.levels, table.minLevel, table.maxLevel, table.firstCheck, table.rot, table.recs);
    WalkEnumerates(Tabs(table.levels, table.maxLevel), table.Contents(), Places(table.recs, table.maxLevel));
  }

  // kvmap1_clean: every object is retired once and the table starts again. The
  // entries are read only, as their tables are unmapped straight afterwards.
  method Clean(table: KvMap1, mm: Mm) returns (evs: seq<Event>)
    requires table.Valid()
    modifies table
    ensures table.Valid() && table.Contents() == map[]
    ensures evs == Retires(mm, old(Stored(table)))
  {
    hide Inv, LiveFrom, Pow2;
    ghost var hi, levels := table.maxLevel, table.levels;
    LevelSizes(levels, table.minLevel, hi, table.firstCheck, table.rot, table.recs);
    ghost var tabs := Tabs(levels, hi);
    ghost var all := LiveFrom(tabs, 0, 0, 0);
    LiveFromAre(tabs, 0, 0, 0);
    ghost var n: nat := 0;
    evs := [];
    var i := table.maxLevel;
    while i >= MIN_LEVEL
      invariant MIN_LEVEL - 1 <= i <= hi && unchanged(table)
      invariant n <= |all| && evs == Retires(mm, Objects(tabs, all)[..n]) && all[n..] == LiveFrom(tabs, hi - i, 0, 0)
    {
      assert tabs[hi - i] == table.levels[i].table;
      var j := 0;
      while j < |table.levels[i].table|
        invariant unchanged(table) && 0 <= j <= |table.levels[i].table|
        invariant n <= |all| && evs == Retires(mm, Objects(tabs, all)[..n]) && all[n..] == LiveFrom(tabs, hi - i, j, 0)
      {
        if Test(table.levels[i].bm, j) {
          evs, n := RetireSlot(mm, table.levels[i].table[j], evs, tabs, all, n, hi - i, j);
        } else {
          ClearSlot(levels, table.minLevel, hi, table.firstCheck, table.rot, table.recs, i, j);
        }
        j := j + 1;
      }
      StepTable(tabs, hi - i, j);
      i := i - 1;
    }
    WalkEnd(tabs, hi - i, 0, 0);
    assert Objects(tabs, all)[..n] == Objects(tabs, all);
    table.Init();
  }
}
