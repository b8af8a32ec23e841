// One multi-level hash table with its operations (kvmap1, lib1.c:3255-3665).
// Its state is updated only by the holder of a stripe lock; the locks
// themselves are in kvmap2_locks.dfy.

module KvMap1s {
  import opened Option
  import opened KvApi
  import opened FiniteSets
  import opened EntryCounts
  import opened Pow2s
  import opened Bitmaps
  import opened KvMap1State
  import opened KvMap1Split

  function Max(a: nat, b: nat): nat {
    if a < b then b else a
  }

  // The stored keys that agree with hash h in its low m bits.
  ghost function Rivals(stored: map<Key, Kv>, rot: nat, h: nat, m: nat): set<Key> {
    set key | key in stored && Low(Hash(rot, key), m) == Low(h, m)
  }

  // Fewer than 8 stored keys share the key's slot of a level-m table.
  ghost predicate HasRoom(stored: map<Key, Kv>, rot: nat, key: Key, m: nat) {
    |Rivals(stored, rot, Hash(rot, key), m)| < 8
  }

  ghost function SlotKeys(s: seq<Entry>): set<Key> {
    if s == [] then {}
    else (if s[0].ptr.Some? then {s[0].ptr.value.key} else {}) + SlotKeys(s[1..])
  }

  lemma {:induction false} SlotKeysAre(s: seq<Entry>)
    ensures forall k :: 0 <= k < |s| && s[k].ptr.Some? ==> s[k].ptr.value.key in SlotKeys(s)
    ensures forall key :: key in SlotKeys(s) ==>
      exists k :: 0 <= k < |s| && s[k].ptr.Some? && s[k].ptr.value.key == key
  {
    if s != [] {
      SlotKeysAre(s[1..]);
      forall k | 0 <= k < |s| && s[k].ptr.Some? ensures s[k].ptr.value.key in SlotKeys(s) {
        assert k > 0 ==> s[k] == s[1..][k - 1];
      }
      forall key | key in SlotKeys(s)
        ensures exists k :: 0 <= k < |s| && s[k].ptr.Some? && s[k].ptr.value.key == key
      {
        if key in SlotKeys(s[1..]) {
          var k :| 0 <= k < |s[1..]| && s[1..][k].ptr.Some? && s[1..][k].ptr.value.key == key;
          assert s[k + 1].ptr.Some? && s[k + 1].ptr.value.key == key;
        }
      }
    }
  }

  lemma {:induction false} SlotKeysCount(s: seq<Entry>)
    requires forall a, b :: 0 <= a < b < |s| && s[a].ptr.Some? && s[b].ptr.Some? ==>
      s[a].ptr.value.key != s[b].ptr.value.key
    ensures |SlotKeys(s)| == Used(s)
  {
    if s != [] {
      var t := s[1..];
      assert forall a :: 0 <= a < |t| ==> t[a] == s[a + 1];
      SlotKeysCount(t);
      SlotKeysAre(t);
    }
  }

  // The slot that claims h holds exactly the stored keys agreeing with h on
  // its level's bits.
  lemma {:induction false} OwnerRivals(levels: seq<Level>, lo: nat, hi: nat, first: nat, rot: nat, recs: map<Key, Rec>, h: nat, i: nat)
    requires Inv(levels, lo, hi, first, rot, recs) && lo <= i <= hi && Claims(levels, i, h)
    requires LevelShape(levels[i], i)
    ensures |Rivals(Contents(recs), rot, h, i)| == Used(levels[i].table[Low(h, i)])
    ensures Rivals(Contents(recs), rot, h, i) == SlotKeys(levels[i].table[Low(h, i)])
  {
    var j := Low(h, i);
    var s := levels[i].table[j];
    forall k | 0 <= k < 8 && s[k].ptr.Some?
      ensures var kv := s[k].ptr.value; kv.key in recs && recs[kv.key].p == Pos(i, j, k) && Low(Hash(rot, kv.key), i) == j
    {
      assert InRange(levels, lo, hi, Pos(i, j, k));
      assert EntryOk(levels, rot, Pos(i, j, k), At(levels, Pos(i, j, k)));
    }
    SlotKeysCount(s);
    SlotKeysAre(s);
    forall key | key in recs && Low(Hash(rot, key), i) == j ensures key in SlotKeys(s) {
      StoredAtClaim(levels, lo, hi, rot, recs, key, i);
    }
    assert Rivals(Contents(recs), rot, h, i) == SlotKeys(s);
  }

  // Agreeing on more bits is rarer.
  lemma FewerRivals(stored: map<Key, Kv>, rot: nat, h: nat, n: nat, m: nat)
    requires n <= m
    ensures |Rivals(stored, rot, h, m)| <= |Rivals(stored, rot, h, n)|
  {
    var a, b := Rivals(stored, rot, h, m), Rivals(stored, rot, h, n);
    forall key | key in a ensures key in b {
      LowAgree(Hash(rot, key), h, n, m);
    }
    SubsetSize(a, b);
  }

  // The keys of a full slot are all that agree with h on any longer prefix on
  // which there is no room either.
  lemma FullRivals(stored: map<Key, Kv>, rot: nat, h: nat, n: nat, m: nat)
    requires n <= m && |Rivals(stored, rot, h, n)| <= 8 <= |Rivals(stored, rot, h, m)|
    ensures Rivals(stored, rot, h, m) == Rivals(stored, rot, h, n)
  {
    var a, b := Rivals(stored, rot, h, m), Rivals(stored, rot, h, n);
    forall key | key in a ensures key in b {
      LowAgree(Hash(rot, key), h, n, m);
    }
    assert |b - a| == |b| - |a|;
    assert b - a == {};
  }

  // Every hash outside slot j of level i is still claimed by the level that
  // claimed it.
  ghost predicate KeepsClaims(l0: seq<Level>, lo: nat, hi: nat, l2: seq<Level>, lo2: nat, i: nat, j: nat)
    requires hi < |l0| && hi < |l2|
  {
    forall h: nat, a ::
      lo <= a <= hi && Low(h, i) != j && Claims(l0, a, h) ==> lo2 <= a && Claims(l2, a, h)
  }

  lemma AllSplitClaims(l0: seq<Level>, lo: nat, hi: nat, rot: nat, i: nat, j: nat, nr0: nat, nr1: nat)
    requires Splittable(l0, lo, hi, i, j)
    requires LevelShape(l0[i], i) && LevelShape(l0[i + 1], i + 1)
    ensures var l2 := Split(l0, rot, i, j, nr0, nr1);
      && (forall h: nat :: Low(h, i) == j ==> Claims(l2, i + 1, h))
      && KeepsClaims(l0, lo, hi, l2, lo, i, j)
  {
    var l2 := Split(l0, rot, i, j, nr0, nr1);
    forall h: nat, a | lo <= a <= hi && Claims(l0, a, h)
      ensures if Low(h, i) == j then Claims(l2, i + 1, h) else Claims(l2, a, h)
    {
      SplitClaims(l0, lo, hi, rot, i, j, nr0, nr1, a, h);
    }
    forall h: nat | Low(h, i) == j ensures Claims(l2, i + 1, h) {
      assert Claims(l0, i, h);
    }
  }

  // Releasing the lowest level, which claims nothing any more.
  lemma ReleaseClaims(l0: seq<Level>, lo: nat, hi: nat, l2: seq<Level>, i: nat, j: nat)
    requires hi < |l0| && hi < |l2| && lo <= hi
    requires KeepsClaims(l0, lo, hi, l2, lo, i, j)
    requires Wf(l2[lo].bm) && TestAll0(l2[lo].bm)
    ensures KeepsClaims(l0, lo, hi, l2[lo := l2[lo].(table := [])], lo + 1, i, j)
  {
    var l3 := l2[lo := l2[lo].(table := [])];
    TestAll0Correct(l2[lo].bm);
    forall h: nat, a | lo <= a <= hi && Low(h, i) != j && Claims(l0, a, h)
      ensures lo + 1 <= a && Claims(l3, a, h)
    {
      assert Claims(l2, a, h);
    }
  }

  function DoneLevels(l0: seq<Level>, lo: nat, rot: nat, i: nat, j: nat, nr0: nat, nr1: nat): seq<Level>
    requires i + 1 < |l0| && j < Pow2(i)
    requires LevelShape(l0[i], i) && LevelShape(l0[i + 1], i + 1)
  {
    var l2 := Split(l0, rot, i, j, nr0, nr1);
    if TestAll0(l2[i].bm) && lo == i then l2[i := l2[i].(table := [])] else l2
  }

  function DoneLo(l0: seq<Level>, lo: nat, rot: nat, i: nat, j: nat, nr0: nat, nr1: nat): nat
    requires i + 1 < |l0| && j < Pow2(i)
    requires LevelShape(l0[i], i) && LevelShape(l0[i + 1], i + 1)
  {
    if TestAll0(Split(l0, rot, i, j, nr0, nr1)[i].bm) && lo == i then lo + 1 else lo
  }

  function DoneFirst(first: nat, i: nat, nr0: nat, nr1: nat): nat {
    if first == i && nr1 >= 2 * nr0 then first + 1 else first
  }

  // The whole of kvmap1_split after the copying loop.
  lemma SplitDone(l0: seq<Level>, lo: nat, hi: nat, first: nat, rot: nat, recs: map<Key, Rec>,
                  i: nat, j: nat, nr0: nat, nr1: nat)
    requires Inv(l0, lo, hi, first, rot, recs) && lo <= i < hi && j < Pow2(i) && Test(l0[i].bm, j)
    requires LevelShape(l0[i], i) && LevelShape(l0[i + 1], i + 1)
    requires nr0 == Live(Moved(l0, rot, i, j, 8, nr0, nr1)[i].table)
    requires nr1 == Live(Moved(l0, rot, i, j, 8, nr0, nr1)[i + 1].table)
    ensures Inv(DoneLevels(l0, lo, rot, i, j, nr0, nr1), DoneLo(l0, lo, rot, i, j, nr0, nr1), hi,
                DoneFirst(first, i, nr0, nr1), rot, Resplit(recs, rot, i, j))
    ensures |DoneLevels(l0, lo, rot, i, j, nr0, nr1)| == NR_LEVELS
    ensures DoneLo(l0, lo, rot, i, j, nr0, nr1) <= i + 1
    ensures forall h: nat :: Low(h, i) == j ==> Claims(DoneLevels(l0, lo, rot, i, j, nr0, nr1), i + 1, h)
    ensures KeepsClaims(l0, lo, hi, DoneLevels(l0, lo, rot, i, j, nr0, nr1), DoneLo(l0, lo, rot, i, j, nr0, nr1), i, j)
  {
    SplitKeeps(l0, lo, hi, first, rot, recs, i, j, nr0, nr1);
    DoneClaims(l0, lo, hi, rot, i, j, nr0, nr1);
  }

  lemma DoneClaims(l0: seq<Level>, lo: nat, hi: nat, rot: nat, i: nat, j: nat, nr0: nat, nr1: nat)
    requires Splittable(l0, lo, hi, i, j)
    requires LevelShape(l0[i], i) && LevelShape(l0[i + 1], i + 1)
    ensures forall h: nat :: Low(h, i) == j ==> Claims(DoneLevels(l0, lo, rot, i, j, nr0, nr1), i + 1, h)
    ensures KeepsClaims(l0, lo, hi, DoneLevels(l0, lo, rot, i, j, nr0, nr1), DoneLo(l0, lo, rot, i, j, nr0, nr1), i, j)
  {
    AllSplitClaims(l0, lo, hi, rot, i, j, nr0, nr1);
    var l2 := Split(l0, rot, i, j, nr0, nr1);
    if TestAll0(l2[i].bm) && lo == i {
      ReleaseClaims(l0, i, hi, l2, i, j);
    }
  }

  class KvMap1 {
    const rot: nat
    var levels: seq<Level>
    var maxLevel: nat
    var minLevel: nat
    var firstCheck: nat
    ghost var recs: map<Key, Rec>

    ghost predicate Valid()
      reads this
    {
      Inv(levels, minLevel, maxLevel, firstCheck, rot, recs)
    }

    // The finite map this table stands for.
    ghost function Contents(): map<Key, Kv>
      reads this
    {
      KvMap1State.Contents(recs)
    }

    // The level that claims hash h.
    ghost function Owner(h: nat): (i: nat)
      reads this
      requires Valid()
      ensures minLevel <= i <= maxLevel && Claims(levels, i, h)
    {
      assert HasOwner(levels, minLevel, maxLevel, h);
      var i :| minLevel <= i <= maxLevel && Claims(levels, i, h);
      i
    }

    // kvmap1_create
    constructor (rot: nat)
      ensures Valid() && Contents() == map[] && this.rot == rot
      ensures minLevel == maxLevel == MIN_LEVEL
    {
      this.rot := rot;
      new;
      Init();
    }

    // kvmap1_init: one level, every bit set, nothing stored.
    method Init()
      modifies this
      ensures Valid() && Contents() == map[]
      ensures minLevel == maxLevel == MIN_LEVEL
    {
      hide Inv, InitLevels;
      levels := InitLevels(MIN_LEVEL);
      maxLevel, minLevel, firstCheck := MIN_LEVEL, MIN_LEVEL, MIN_LEVEL;
      recs := map[];
      InitInv(rot, MIN_LEVEL);
    }

    // kvmap1_locate_level: up from firstCheck to the highest level, then down
    // from firstCheck - 1; it always stops at the one claiming level.
    method LocateLevel(hash: nat) returns (i: nat, j: nat)
      requires Valid()
      ensures minLevel <= i <= maxLevel && j == Low(hash, i) && Claims(levels, i, hash)
      ensures i == Owner(hash)
    {
      i := firstCheck;
      var check0 := i;
      ghost var owner := Owner(hash);
      while i >= minLevel
        invariant minLevel <= i + 1 && i <= maxLevel
        invariant if i >= check0 then !(check0 <= owner < i) else owner <= i
        decreases if i >= check0 then maxLevel - i + check0 + 2 else i + 1
      {
        j := Low(hash, i);
        if Test(levels[i].bm, j) {
          assert Claims(levels, i, hash);
          return;
        } else if i >= check0 {
          if i == maxLevel { i := check0 - 1; } else { i := i + 1; }
        } else {
          i := i - 1;
        }
      }
      assert false;
    }

    // kvmap1_locate_key: the place of the key, or how many entries its slot uses.
    method LocateKey(key: Key) returns (found: bool, i: nat, j: nat, k: nat)
      requires Valid()
      ensures found <==> key in Contents()
      ensures i == Owner(Hash(rot, key)) && j == Low(Hash(rot, key), i) && j < |levels[i].table|
      ensures found ==> k < 8 && recs[key].p == Pos(i, j, k)
      ensures !found ==> k == Used(levels[i].table[j])
    {
      var hash := Hash(rot, key);
      var pkey := Pkey(hash);
      hide Inv, Claims, Low;
      i, j := LocateLevel(hash);
      SlotInRange(hash, 0);
      var slot := levels[i].table[j];
      var used := 0;
      k := 0;
      while k < 8
        invariant k <= 8
        invariant used + Used(slot[k..]) == Used(slot)
        invariant forall x :: 0 <= x < k && slot[x].ptr.Some? ==> slot[x].ptr.value.key != key
      {
        if slot[k].ptr.Some? {
          SlotInRange(hash, k);
          SameTag(Pos(i, j, k));
          used := used + 1;
          if slot[k].pkey == pkey {
            if slot[k].ptr.value.key == key {
              EntryIsStored(Pos(i, j, k));
              return true, i, j, k;
            }
          }
        }
        assert slot[k..][1..] == slot[k + 1..];
        k := k + 1;
      }
      k := used;
      found := false;
      if key in recs {
        StoredInSlot(key, i, slot);
      }
    }

    lemma {:induction false} SlotInRange(h: nat, k: nat)
      requires Valid() && k < 8
      ensures InRange(levels, minLevel, maxLevel, Pos(Owner(h), Low(h, Owner(h)), k))
    {
      assert LevelShape(levels[Owner(h)], Owner(h));
    }

    lemma StoredEntry(key: Key)
      requires Valid() && key in recs
      ensures InRange(levels, minLevel, maxLevel, recs[key].p)
      ensures At(levels, recs[key].p).ptr == Some(Contents()[key])
    {
    }

    // A stored key is one of the entries of its claimed slot.
    lemma {:induction false} StoredInSlot(key: Key, i: nat, slot: Slot)
      requires Valid() && key in recs && minLevel <= i <= maxLevel && Claims(levels, i, Hash(rot, key))
      requires Low(Hash(rot, key), i) < |levels[i].table| && slot == levels[i].table[Low(Hash(rot, key), i)]
      ensures exists k :: 0 <= k < 8 && slot[k].ptr.Some? && slot[k].ptr.value.key == key
    {
      StoredAtClaim(levels, minLevel, maxLevel, rot, recs, key, i);
      assert slot[recs[key].p.k] == At(levels, recs[key].p);
    }

    // The tag of a live entry is that of its key's hash.
    lemma SameTag(p: Pos)
      requires Valid() && InRange(levels, minLevel, maxLevel, p) && At(levels, p).ptr.Some?
      ensures At(levels, p).pkey == Pkey(Hash(rot, At(levels, p).ptr.value.key))
    {
      assert EntryOk(levels, rot, p, At(levels, p));
    }

    // kvmap1_locate_free_entry.
    method LocateFreeEntry(key: Key) returns (free: bool, i: nat, j: nat, k: nat)
      requires Valid()
      ensures i == Owner(Hash(rot, key)) && j == Low(Hash(rot, key), i) && j < |levels[i].table|
      ensures free ==> k < 8 && levels[i].table[j][k].ptr.None?
      ensures if free then Used(levels[i].table[j]) < 8 else Used(levels[i].table[j]) == 8
    {
      var hash := Hash(rot, key);
      i, j := LocateLevel(hash);
      assert LevelShape(levels[i], i);
      var slot := levels[i].table[j];
      k := 0;
      while k < 8
        invariant k <= 8
        invariant forall x :: 0 <= x < k ==> slot[x].ptr.Some?
      {
        if slot[k].ptr.None? {
          UsedFull(slot);
          return true, i, j, k;
        }
        k := k + 1;
      }
      UsedFull(slot);
      free := false;
    }

    // kvmap1_split: slot j of level i is spread over the slots j and j + 2^i
    // of level i + 1, which is created when missing. Nothing is lost, added or
    // retired, and only the hashes of that slot change their claiming level.
    method Split(i: nat, j: nat)
      requires Valid()
      requires minLevel <= i <= maxLevel && i + 1 < NR_LEVELS && j < Pow2(i) && Test(levels[i].bm, j)
      modifies this
      ensures Valid() && Contents() == old(Contents())
      ensures minLevel <= i + 1 <= maxLevel == (if i == old(maxLevel) then i + 1 else old(maxLevel))
      ensures forall h: nat :: Low(h, i) == j ==> Claims(levels, i + 1, h)
      ensures KeepsClaims(old(levels), old(minLevel), old(maxLevel), levels, minLevel, i, j)
    {
      hide Inv, KeepsClaims, Claims, FreshLevel;
      var lid1 := i + 1;
      NrLevels();
      NextTable(i);
      if levels[lid1].table == [] {
        GrowKeeps(levels, minLevel, maxLevel, firstCheck, rot, recs);
        levels := levels[lid1 := FreshLevel(lid1, false)];
        if maxLevel < lid1 {
          maxLevel := maxLevel + 1;
        }
      }
      ghost var l1, hi1 := levels, maxLevel;
      GrownClaims(old(levels), old(maxLevel), l1);
      SplitSlot(i, j);
      NrLevels();
      GrownKeeps(old(levels), old(minLevel), old(maxLevel), l1, hi1, levels, minLevel, i, j);
    }

    // Adding a level above the highest changes no claim.
    lemma GrownClaims(l0: seq<Level>, hi: nat, l1: seq<Level>)
      requires |l0| == |l1| == NR_LEVELS && hi < NR_LEVELS && forall a :: 0 <= a <= hi ==> l1[a] == l0[a]
      ensures forall h: nat, a :: 0 <= a <= hi ==> (Claims(l1, a, h) <==> Claims(l0, a, h))
    {
    }

    lemma GrownKeeps(l0: seq<Level>, lo: nat, hi: nat, l1: seq<Level>, hi1: nat, l2: seq<Level>, lo2: nat, i: nat, j: nat)
      requires |l0| == |l1| == |l2| == NR_LEVELS && hi <= hi1 < NR_LEVELS
      requires forall h: nat, a :: 0 <= a <= hi ==> (Claims(l1, a, h) <==> Claims(l0, a, h))
      requires KeepsClaims(l1, lo, hi1, l2, lo2, i, j)
      ensures KeepsClaims(l0, lo, hi, l2, lo2, i, j)
    {
      hide Claims, Low;
    }

    lemma NextTable(i: nat)
      requires Valid() && minLevel <= i <= maxLevel && i + 1 < NR_LEVELS
      ensures |levels| == NR_LEVELS && (levels[i + 1].table == [] <==> i == maxLevel)
    {
      NullTable(levels, minLevel, maxLevel, i + 1);
    }

    // The rest of kvmap1_split, once level i + 1 exists.
    method SplitSlot(i: nat, j: nat)
      requires Valid()
      requires minLevel <= i < maxLevel && j < Pow2(i) && Test(levels[i].bm, j)
      modifies this
      ensures Valid() && Contents() == old(Contents())
      ensures minLevel <= i + 1 <= maxLevel == old(maxLevel)
      ensures forall h: nat :: Low(h, i) == j ==> Claims(levels, i + 1, h)
      ensures KeepsClaims(old(levels), old(minLevel), old(maxLevel), levels, minLevel, i, j)
    {
      hide Moved, KeepsClaims, DoneLevels, DoneLo, DoneFirst, Resplit, Partition, Placed;
      ghost var l0 := levels;
      var lid1 := i + 1;
      MoveUp(i, j);
      ghost var nr0, nr1 := levels[i].nrKv, levels[lid1].nrKv;
      FinishSplit(l0, i, j, nr0, nr1);
      SplitDone(l0, old(minLevel), maxLevel, old(firstCheck), rot, recs, i, j, nr0, nr1);
      ResplitContents(recs, rot, i, j);
      recs := Resplit(recs, rot, i, j);
    }

    // The end of kvmap1_split: clear the source bit, move firstCheck up when
    // the next level has at least twice the entries, release a lowest level
    // that has become empty.
    method FinishSplit(ghost l0: seq<Level>, i: nat, j: nat, ghost nr0: nat, ghost nr1: nat)
      requires i + 1 < |l0| && j < Pow2(i)
      requires LevelShape(l0[i], i) && LevelShape(l0[i + 1], i + 1)
      requires levels == Moved(l0, rot, i, j, 8, nr0, nr1)
      modifies this`levels, this`minLevel, this`firstCheck
      ensures levels == DoneLevels(l0, old(minLevel), rot, i, j, nr0, nr1)
      ensures minLevel == DoneLo(l0, old(minLevel), rot, i, j, nr0, nr1)
      ensures firstCheck == DoneFirst(old(firstCheck), i, nr0, nr1)
    {
      var lid1 := i + 1;
      if firstCheck == i && levels[lid1].nrKv >= 2 * levels[i].nrKv {
        firstCheck := firstCheck + 1;
      }
      levels := levels[i := levels[i].(bm := Set0(levels[i].bm, j))];
      if TestAll0(levels[i].bm) && minLevel == i {
        levels := levels[i := levels[i].(table := [])];
        minLevel := minLevel + 1;
      }
    }

    // The copying loop of kvmap1_split: set the destination bits, then move
    // each live entry of the slot to the same position one level up.
    method MoveUp(i: nat, j: nat)
      requires Valid()
      requires minLevel <= i < maxLevel && j < Pow2(i) && Test(levels[i].bm, j)
      modifies this`levels
      ensures LevelShape(old(levels)[i], i) && LevelShape(old(levels)[i + 1], i + 1)
      ensures |levels| == NR_LEVELS
      ensures levels == Moved(old(levels), rot, i, j, 8, levels[i].nrKv, levels[i + 1].nrKv)
      ensures levels[i].nrKv == Live(levels[i].table) && levels[i + 1].nrKv == Live(levels[i + 1].table)
    {
      hide Inv, Shape, Placed, Partition, Moved, SplitPre;
      ghost var l0 := levels;
      var lid1 := i + 1;
      InvSplits(levels, minLevel, maxLevel, firstCheck, rot, recs, i, j);
      var j2 := j + Pow2(i);
      MoveStart(l0, minLevel, maxLevel, rot, recs, i, j);
      levels := levels[lid1 := levels[lid1].(bm := Set1(Set1(levels[lid1].bm, j), j2))];
      var k := 0;
      while k < 8
        invariant k <= 8 && |levels| == NR_LEVELS
        invariant levels == Moved(l0, rot, i, j, k, levels[i].nrKv, levels[lid1].nrKv)
        invariant levels[i].nrKv == Live(levels[i].table) && levels[lid1].nrKv == Live(levels[lid1].table)
      {
        MoveTurn(l0, minLevel, maxLevel, rot, recs, i, j, k, levels);
        var e := levels[i].table[j][k];
        if e.ptr.Some? {
          var jj := Low(Hash(rot, e.ptr.value.key), lid1);
          levels := Write(levels, Pos(lid1, jj, k), e, levels[lid1].nrKv + 1);
          levels := Write(levels, Pos(i, j, k), EMPTY, levels[i].nrKv - 1);
        }
        k := k + 1;
      }
    }

    // What a split needs of the table.
    lemma InvSplits(levels: seq<Level>, lo: nat, hi: nat, first: nat, rot: nat, recs: map<Key, Rec>, i: nat, j: nat)
      requires Inv(levels, lo, hi, first, rot, recs)
      requires lo <= i < hi && j < Pow2(i) && Test(levels[i].bm, j)
      ensures |levels| == NR_LEVELS && hi < NR_LEVELS && SplitPre(levels, lo, hi, rot, recs, i, j)
      ensures LevelShape(levels[i], i) && LevelShape(levels[i + 1], i + 1)
      ensures levels[i].nrKv == Live(levels[i].table) && levels[i + 1].nrKv == Live(levels[i + 1].table)
    {
    }

    // kvmap1_put_entry: overwrite the entry at (i, j, k) and call back for the
    // object it held.
    method PutEntry(mm: Mm, i: nat, j: nat, k: nat, kv: Kv) returns (ev: seq<Event>)
      requires Valid()
      requires i == Owner(Hash(rot, kv.key)) && j == Low(Hash(rot, kv.key), i) && j < |levels[i].table| && k < 8
      requires kv.key in recs && recs[kv.key].p == Pos(i, j, k)
      modifies this
      ensures Valid() && Contents() == old(Contents())[kv.key := kv]
      ensures ev == if mm.rf then [Retire(old(Contents())[kv.key])] else []
    {
      hide Inv;
      StoredEntry(kv.key);
      var e := levels[i].table[j][k];
      ev := if e.ptr.Some? && mm.rf then [Retire(e.ptr.value)] else [];
      StoreKeeps(levels, minLevel, maxLevel, firstCheck, rot, recs, Pos(i, j, k), kv, levels[i].nrKv);
      levels := Write(levels, Pos(i, j, k), Entry(Some(kv), Pkey(Hash(rot, kv.key))), levels[i].nrKv);
      recs := recs[kv.key := Rec(Pos(i, j, k), kv)];
    }

    // kvmap1_insert of a key that is not stored: split the key's slot, level by
    // level up to maxLevel, until it has a free entry. It fails exactly when 8
    // stored keys share the key's slot on every level it may reach.
    method Insert(kv: Kv, maxLvl: nat) returns (ok: bool)
      requires Valid() && kv.key !in Contents() && maxLvl < NR_LEVELS
      modifies this
      ensures Valid()
      ensures Contents() == if ok then old(Contents())[kv.key := kv] else old(Contents())
      ensures ok <==> HasRoom(old(Contents()), rot, kv.key, Max(old(Owner(Hash(rot, kv.key))), maxLvl))
      ensures old(maxLevel) <= maxLevel <= Max(old(maxLevel), maxLvl)
      ensures !ok ==> maxLvl <= maxLevel
      decreases if Owner(Hash(rot, kv.key)) < maxLvl then maxLvl - Owner(Hash(rot, kv.key)) else 0
    {
      hide Inv;
      var free, i, j, k := LocateFreeEntry(kv.key);
      InsertRoom(kv.key, i, maxLvl);
      if free {
        FillEntry(i, j, k, kv);
        ok := true;
      } else if i < maxLvl {
        Split(i, j);
        OwnerIs(Hash(rot, kv.key), i + 1);
        ok := Insert(kv, maxLvl);
      } else {
        ok := false;
      }
    }

    // The free entries of the claimed slot decide whether the key has room.
    lemma {:induction false} InsertRoom(key: Key, i: nat, maxLvl: nat)
      requires Valid() && i == Owner(Hash(rot, key))
      ensures var h := Hash(rot, key);
        && Low(h, i) < |levels[i].table| && Test(levels[i].bm, Low(h, i))
        && (Used(levels[i].table[Low(h, i)]) < 8 ==> HasRoom(Contents(), rot, key, Max(i, maxLvl)))
        && (Used(levels[i].table[Low(h, i)]) == 8 ==> !HasRoom(Contents(), rot, key, i))
    {
      var h := Hash(rot, key);
      assert LevelShape(levels[i], i);
      OwnerRivals(levels, minLevel, maxLevel, firstCheck, rot, recs, h, i);
      FewerRivals(Contents(), rot, h, i, Max(i, maxLvl));
    }

    // Writing a new object into a free entry of its claimed slot.
    method FillEntry(i: nat, j: nat, k: nat, kv: Kv)
      requires Valid() && kv.key !in Contents()
      requires i == Owner(Hash(rot, kv.key)) && j == Low(Hash(rot, kv.key), i) && j < |levels[i].table| && k < 8
      requires levels[i].table[j][k].ptr.None?
      modifies this`levels, this`recs
      ensures Valid() && Contents() == old(Contents())[kv.key := kv]
    {
      hide Inv;
      SlotInRange(Hash(rot, kv.key), k);
      StoreKeeps(levels, minLevel, maxLevel, firstCheck, rot, recs, Pos(i, j, k), kv, levels[i].nrKv + 1);
      levels := Write(levels, Pos(i, j, k), Entry(Some(kv), Pkey(Hash(rot, kv.key))), levels[i].nrKv + 1);
      recs := recs[kv.key := Rec(Pos(i, j, k), kv)];
    }

    lemma OwnerIs(h: nat, i: nat)
      requires Valid() && minLevel <= i <= maxLevel && Claims(levels, i, h)
      ensures Owner(h) == i
    {
    }

    // Erasing the entry of a stored key, as kvmap2_del and kvmap2_try_cuckoo do.
    method Erase(key: Key, i: nat, j: nat, k: nat)
      requires Valid() && key in Contents() && recs[key].p == Pos(i, j, k)
      modifies this`levels, this`recs
      ensures Valid() && Contents() == old(Contents()) - {key}
      ensures |levels| == NR_LEVELS && i < NR_LEVELS && j < |levels[i].table| && k < 8
      ensures levels[i].table[j][k].ptr.None?
      ensures forall h: nat :: Owner(h) == old(Owner(h))
    {
      hide Inv;
      StoredEntry(key);
      StoredCounted(levels, minLevel, maxLevel, firstCheck, rot, recs, key);
      ClearKeeps(levels, minLevel, maxLevel, firstCheck, rot, recs, key, levels[i].nrKv - 1);
      ghost var l0 := levels;
      levels := Write(levels, Pos(i, j, k), EMPTY, levels[i].nrKv - 1);
      recs := recs - {key};
      NrLevels();
      forall h: nat ensures Owner(h) == old(Owner(h)) {
        assert Claims(levels, old(Owner(h)), h);
        OwnerIs(h, old(Owner(h)));
      }
    }

    // A free entry of the key's slot is room for it, whatever the level limit.
    lemma FreeIsRoom(key: Key, k: nat)
      requires Valid() && k < 8
      requires var h := Hash(rot, key);
        && |levels| == NR_LEVELS && Low(h, Owner(h)) < |levels[Owner(h)].table|
        && levels[Owner(h)].table[Low(h, Owner(h))][k].ptr.None?
      ensures forall lvl: nat :: HasRoom(Contents(), rot, key, Max(Owner(Hash(rot, key)), lvl))
    {
      var h := Hash(rot, key);
      UsedFull(levels[Owner(h)].table[Low(h, Owner(h))]);
      forall lvl: nat ensures HasRoom(Contents(), rot, key, Max(Owner(h), lvl)) {
        InsertRoom(key, Owner(h), lvl);
      }
    }

    // The key's slot holds its rivals on the slot's level, at most 8 of them.
    lemma SlotRivals(key: Key)
      requires Valid()
      ensures var h := Hash(rot, key);
        && Low(h, Owner(h)) < |levels[Owner(h)].table|
        && var slot := levels[Owner(h)].table[Low(h, Owner(h))];
        && Rivals(Contents(), rot, h, Owner(h)) == SlotKeys(slot)
        && |Rivals(Contents(), rot, h, Owner(h))| == Used(slot) <= 8
    {
      var h := Hash(rot, key);
      SlotInRange(h, 0);
      OwnerRivals(levels, minLevel, maxLevel, firstCheck, rot, recs, h, Owner(h));
    }

    // The entries used in the key's slot decide whether it has room there.
    lemma UsedIsRoom(key: Key)
      requires Valid()
      ensures var h := Hash(rot, key);
        && Low(h, Owner(h)) < |levels[Owner(h)].table|
        && (Used(levels[Owner(h)].table[Low(h, Owner(h))]) < 8 <==> HasRoom(Contents(), rot, key, Owner(h)))
    {
      InsertRoom(key, Owner(Hash(rot, key)), 0);
    }

    lemma EntryIsStored(p: Pos)
      requires Valid() && InRange(levels, minLevel, maxLevel, p) && At(levels, p).ptr.Some?
      ensures var kv := At(levels, p).ptr.value;
        kv.key in Contents() && Contents()[kv.key] == kv && recs[kv.key].p == p
    {
    }

    lemma NrLevels()
      requires Valid()
      ensures |levels| == NR_LEVELS && minLevel <= maxLevel < NR_LEVELS
    {
    }
  }
}
