// The pair of tables with cuckoo relocation between them (kvmap2,
// lib1.c:3667-3881), one operation at a time.

module KvMap2s {
  import opened Option
  import opened KvApi
  import opened FiniteSets
  import opened EntryCounts
  import opened Pow2s
  import opened KvMap1State
  import opened KvMap1s
  import opened Enumerations
  import Walk = KvMap1Walk

  // kvmap1_trylock_hash of a set of `key` for an object it may relocate into
  // the table of rotation `rot`. It fails on a stripe some other thread holds
  // (`busy`: the objects this happens to; a set tries each at most once), and
  // on the one the set itself holds there for its key.
  predicate CanLock(rot: nat, key: Key, victim: Key, busy: set<Key>) {
    victim !in busy && Stripe(Hash(rot, victim)) != Stripe(Hash(rot, key))
  }

  // Room on one level is room on every higher one.
  lemma RoomHigher(stored: map<Key, Kv>, rot: nat, key: Key, n: nat, m: nat)
    requires n <= m && HasRoom(stored, rot, key, n)
    ensures HasRoom(stored, rot, key, m)
  {
    FewerRivals(stored, rot, Hash(rot, key), n, m);
  }

  // A set of `key` can relocate the object of `victim` to the table `there`.
  ghost predicate Moves(there: map<Key, Kv>, rot: nat, key: Key, busy: set<Key>, victim: Key, lvl: nat) {
    CanLock(rot, key, victim, busy) && HasRoom(there, rot, victim, lvl)
  }

  // One of the objects `here` that share the key's slot on level n can be
  // relocated to the other table.
  ghost predicate Relocates(here: map<Key, Kv>, rot: nat, n: nat, there: map<Key, Kv>, rot2: nat, lvl: nat,
                            key: Key, busy: set<Key>)
  {
    exists victim :: victim in Rivals(here, rot, Hash(rot, key), n) && Moves(there, rot2, key, busy, victim, lvl)
  }

  // How many levels table 0 may be ahead of table 1.
  const SZ_SHIFT: nat := 5

  // How far table 1 may be split for a set: past its highest level when table 0
  // is further ahead than that.
  function Limit1(max0: nat, max1: nat): nat {
    if max1 + SZ_SHIFT < max0 then max0 - SZ_SHIFT else max1
  }

  // When the set of a key succeeds, in terms of the two tables' maps and
  // highest levels.
  ghost predicate Accepts(t0: map<Key, Kv>, t1: map<Key, Kv>, max0: nat, max1: nat, key: Key, busy: set<Key>) {
    var lim := Limit1(max0, max1);
    || key in t0 || key in t1
    || HasRoom(t0, 0, key, NR_LEVELS - 1) || HasRoom(t1, 19, key, lim)
    || Relocates(t0, 0, max0, t1, 19, lim, key, busy) || Relocates(t1, 19, lim, t0, 0, max0, key, busy)
  }

  lemma UnionPut(a: map<Key, Kv>, b: map<Key, Kv>, kv: Kv)
    ensures kv.key !in b ==> a[kv.key := kv] + b == (a + b)[kv.key := kv]
    ensures a + b[kv.key := kv] == (a + b)[kv.key := kv]
  {
  }

  // Moving a key from one of two disjoint maps to the other.
  lemma MovedUnion(a: map<Key, Kv>, b: map<Key, Kv>, key: Key)
    requires a.Keys !! b.Keys && key in b
    ensures var a2, b2 := a[key := b[key]], b - {key};
      a2.Keys !! b2.Keys && a2 + b2 == a + b && b2 + a2 == b + a
  {
  }

  class KvMap2 {
    const mm: Mm
    const szShift: nat := SZ_SHIFT
    const m0: KvMap1
    const m1: KvMap1
    var log: seq<Event>

    ghost predicate Valid()
      reads this, m0, m1
    {
      && m0 != m1
      && m0.Valid() && m1.Valid()
      && m0.rot == 0 && m1.rot == 19
      && m0.Contents().Keys !! m1.Contents().Keys
    }

    ghost function Contents(): map<Key, Kv>
      reads m0, m1
    {
      m0.Contents() + m1.Contents()
    }

    function MapOf(x: nat): KvMap1 {
      if x == 0 then m0 else m1
    }

    constructor (mm: Mm)
      ensures Valid() && Contents() == map[] && log == [] && this.mm == mm
      ensures fresh(m0) && fresh(m1)
    {
      this.mm := mm;
      m0 := new KvMap1(0);
      m1 := new KvMap1(19);
      log := [];
    }

    // kvmap2_get (kvmap2_probe answers r.Some?).
    method Get(key: Key) returns (r: Option<Kv>)
      requires Valid()
      modifies this`log
      ensures r == Find(Contents(), key)
      ensures log == old(log) + if r.Some? then HitEvents(mm, r.value) else []
    {
      hide Inv;
      var x := 0;
      while x < 2
        invariant x <= 2 && log == old(log)
        invariant x > 0 ==> key !in m0.Contents()
        invariant x > 1 ==> key !in m1.Contents()
      {
        var m := MapOf(x);
        var found, i, j, k := m.LocateKey(key);
        if found {
          m.StoredEntry(key);
          m.NrLevels();
          var curr := m.levels[i].table[j][k].ptr.value;
          log := log + HitEvents(mm, curr);
          return Some(curr);
        }
        x := x + 1;
      }
      r := None;
    }

    // kvmap1_put_entry of null over the object of a stored key, seen from the pair.
    method EraseAt(x: nat, key: Key, i: nat, j: nat, k: nat)
      requires Valid() && x < 2 && key in MapOf(x).Contents() && MapOf(x).recs[key].p == Pos(i, j, k)
      modifies MapOf(x), this`log
      ensures Valid() && Contents() == old(Contents()) - {key} && key in old(Contents())
      ensures log == old(log) + PutEvents(mm.(xf := false), Find(old(Contents()), key), None)
    {
      hide Inv;
      var m := MapOf(x);
      m.StoredEntry(key);
      m.NrLevels();
      var curr := m.levels[i].table[j][k].ptr.value;
      m.Erase(key, i, j, k);
      log := log + if mm.rf then [Retire(curr)] else [];
    }

    // kvmap2_del.
    method Del(key: Key) returns (ok: bool)
      requires Valid()
      modifies m0, m1, this`log
      ensures Valid() && Contents() == old(Contents()) - {key}
      ensures ok <==> key in old(Contents())
      ensures log == old(log) + PutEvents(mm.(xf := false), Find(old(Contents()), key), None)
    {
      hide Inv;
      var x := 0;
      while x < 2
        invariant x <= 2 && log == old(log) && Valid()
        invariant m0.Contents() == old(m0.Contents()) && m1.Contents() == old(m1.Contents())
        invariant x > 0 ==> key !in m0.Contents()
        invariant x > 1 ==> key !in m1.Contents()
      {
        var m := MapOf(x);
        var found, i, j, k := m.LocateKey(key);
        if found {
          EraseAt(x, key, i, j, k);
          return true;
        }
        x := x + 1;
      }
      ok := false;
    }

    // kvmap2_try_cuckoo: move the object at (oi, oj, k) to the other table, if
    // its stripe there can be locked and it has room there up to the highest
    // level.
    method TryCuckoo(x: nat, key: Key, busy: set<Key>, oi: nat, oj: nat, k: nat, victim: Kv) returns (ret: bool)
      requires Valid() && x < 2
      requires victim.key in MapOf(x).Contents() && MapOf(x).Contents()[victim.key] == victim
      requires MapOf(x).recs[victim.key].p == Pos(oi, oj, k)
      modifies m0, m1
      ensures Valid() && Contents() == old(Contents())
      ensures m0.maxLevel == old(m0.maxLevel) && m1.maxLevel == old(m1.maxLevel)
      ensures var target := MapOf(1 - x);
        ret <==> Moves(old(target.Contents()), target.rot, key, busy, victim.key, old(target.maxLevel))
      ensures !ret ==> unchanged(MapOf(x)) && MapOf(1 - x).Contents() == old(MapOf(1 - x).Contents())
      ensures var m := MapOf(x); ret ==>
        && |m.levels| == NR_LEVELS && oi < NR_LEVELS && oj < |m.levels[oi].table| && k < 8
        && m.levels[oi].table[oj][k].ptr.None?
        && forall h: nat :: m.Owner(h) == old(m.Owner(h))
    {
      hide Inv, HasRoom;
      var origin, target := MapOf(x), MapOf(1 - x);
      if CanLock(target.rot, key, victim.key, busy) {
        target.NrLevels();
        ret := target.Insert(victim, target.maxLevel);
        if ret {
          MovedUnion(old(target.Contents()), old(origin.Contents()), victim.key);
          origin.Erase(victim.key, oi, oj, k);
        }
      } else {
        ret := false;
      }
    }

    // kvmap2_cuckoo: make room in the slot of the key in table x. It succeeds
    // exactly when the slot has a free entry or one of its objects can be
    // relocated.
    method Cuckoo(x: nat, key: Key, busy: set<Key>) returns (ret: bool)
      requires Valid() && x < 2 && key !in Contents()
      modifies m0, m1
      ensures Valid() && Contents() == old(Contents())
      ensures m0.maxLevel == old(m0.maxLevel) && m1.maxLevel == old(m1.maxLevel)
      ensures var m := MapOf(x); var i := old(m.Owner(Hash(m.rot, key)));
        ret <==> old(RoomIn(x, key, i)) || old(Relocatable(x, key, busy, i, MapOf(1 - x).maxLevel))
      ensures !ret ==> m0.Contents() == old(m0.Contents()) && m1.Contents() == old(m1.Contents())
      ensures var m := MapOf(x); ret ==> forall lvl: nat :: HasRoom(m.Contents(), m.rot, key, Max(m.Owner(Hash(m.rot, key)), lvl))
    {
      hide Inv, HasRoom, Moves, RoomIn, Relocatable, KvMap1.Contents, KvMap2.Contents;
      var m := MapOf(x);
      var found, vi, vj, _ := m.LocateKey(key);
      m.NrLevels();
      SlotDecides(x, key, busy);
      ghost var slot := m.levels[vi].table[vj];
      var k := 0;
      while k < 8
        invariant k <= 8 && Valid() && Contents() == old(Contents())
        invariant unchanged(m)
        invariant MapOf(1 - x).Contents() == old(MapOf(1 - x).Contents())
        invariant MapOf(1 - x).maxLevel == old(MapOf(1 - x).maxLevel)
        invariant forall q :: 0 <= q < k ==> slot[q].ptr.Some? && !old(Gives(x, key, busy, slot[q].ptr.value.key))
      {
        m.SlotInRange(Hash(m.rot, key), k);
        var e := m.levels[vi].table[vj][k];
        if e.ptr.None? {
          m.FreeIsRoom(key, k);
          return true;
        }
        m.EntryIsStored(Pos(vi, vj, k));
        ret := TryCuckoo(x, key, busy, vi, vj, k, e.ptr.value);
        if ret {
          m.FreeIsRoom(key, k);
          return true;
        }
        k := k + 1;
      }
      ret := false;
    }

    // The object of `victim` can be relocated out of table x for a set of `key`.
    ghost predicate Gives(x: nat, key: Key, busy: set<Key>, victim: Key)
      reads m0, m1
      requires x < 2
    {
      Moves(MapOf(1 - x).Contents(), MapOf(1 - x).rot, key, busy, victim, MapOf(1 - x).maxLevel)
    }

    // One of the objects in the slot of the key, on level n of table x, can be
    // relocated to the other table, split up to level lvl.
    ghost predicate Relocatable(x: nat, key: Key, busy: set<Key>, n: nat, lvl: nat)
      reads m0, m1
      requires x < 2
    {
      Relocates(MapOf(x).Contents(), MapOf(x).rot, n, MapOf(1 - x).Contents(), MapOf(1 - x).rot, lvl, key, busy)
    }

    // The eight entries of the key's slot decide whether there is a way to
    // make room.
    lemma SlotDecides(x: nat, key: Key, busy: set<Key>)
      requires Valid() && x < 2
      ensures var m := MapOf(x); var h := Hash(m.rot, key); var i := m.Owner(h);
        && i < |m.levels| && Low(h, i) < |m.levels[i].table|
        && var slot := m.levels[i].table[Low(h, i)];
        && (forall q :: 0 <= q < 8 && slot[q].ptr.None? ==> RoomIn(x, key, i))
        && (forall q :: 0 <= q < 8 && slot[q].ptr.Some? && Gives(x, key, busy, slot[q].ptr.value.key) ==>
              Relocatable(x, key, busy, i, MapOf(1 - x).maxLevel))
        && ((forall q :: 0 <= q < 8 ==> slot[q].ptr.Some? && !Gives(x, key, busy, slot[q].ptr.value.key)) ==>
              !RoomIn(x, key, i) && !Relocatable(x, key, busy, i, MapOf(1 - x).maxLevel))
    {
      hide Inv, Moves, Rivals;
      var m := MapOf(x);
      var h := Hash(m.rot, key);
      m.NrLevels();
      m.SlotRivals(key);
      var slot := m.levels[m.Owner(h)].table[Low(h, m.Owner(h))];
      UsedFull(slot);
      SlotKeysAre(slot);
    }

    // kvmap1_insert into table x, seen from the pair.
    method InsertAt(x: nat, kv: Kv, lvl: nat) returns (ret: bool)
      requires Valid() && x < 2 && kv.key !in Contents() && lvl < NR_LEVELS
      modifies MapOf(x)
      ensures !ret ==> MapOf(x).Contents() == old(MapOf(x).Contents())
      ensures old(MapOf(x).maxLevel) <= MapOf(x).maxLevel <= Max(old(MapOf(x).maxLevel), lvl)
      ensures !ret ==> lvl <= MapOf(x).maxLevel
      ensures Valid() && Contents() == if ret then old(Contents())[kv.key := kv] else old(Contents())
      ensures var m := MapOf(x);
        ret <==> HasRoom(old(m.Contents()), m.rot, kv.key, Max(old(m.Owner(Hash(m.rot, kv.key))), lvl))
    {
      hide Inv, HasRoom;
      UnionPut(m0.Contents(), m1.Contents(), kv);
      if x == 0 {
        ret := m0.Insert(kv, lvl);
      } else {
        ret := m1.Insert(kv, lvl);
      }
    }

    // kvmap1_put_entry over the object of a stored key, seen from the pair.
    method PutAt(x: nat, i: nat, j: nat, k: nat, kv: Kv)
      requires Valid() && x < 2 && kv.key in MapOf(x).Contents() && k < 8
      requires var m := MapOf(x); i == m.Owner(Hash(m.rot, kv.key)) && j == Low(Hash(m.rot, kv.key), i)
      requires j < |MapOf(x).levels[i].table| && MapOf(x).recs[kv.key].p == Pos(i, j, k)
      modifies MapOf(x), this`log
      ensures Valid() && Contents() == old(Contents())[kv.key := kv] && kv.key in old(Contents())
      ensures log == old(log) + PutEvents(mm.(xf := false), Some(old(Contents())[kv.key]), Some(kv))
    {
      hide Inv;
      var ev := MapOf(x).PutEntry(mm, i, j, k, kv);
      log := log + ev;
    }

    // The search of one table: the key's place, or its slot's level and used
    // entries.
    method Measure(x: nat, key: Key) returns (found: bool, i: nat, j: nat, k: nat)
      requires Valid() && x < 2
      ensures var m := MapOf(x);
        && (found <==> key in m.Contents())
        && i == m.Owner(Hash(m.rot, key)) && j == Low(Hash(m.rot, key), i) && j < |m.levels[i].table|
        && (found ==> k < 8 && m.recs[key].p == Pos(i, j, k))
        && (!found ==> (k < 8 <==> RoomIn(x, key, i)) && i <= m.maxLevel < NR_LEVELS)
    {
      hide Inv, HasRoom;
      var m := MapOf(x);
      found, i, j, k := m.LocateKey(key);
      if !found {
        m.NrLevels();
        m.UsedIsRoom(key);
      }
    }

    // First phase of kvmap2_set: replace the object of a stored key, or report
    // each table's level, used entries and level limit for the new key.
    method TryUpdate(kv: Kv) returns (done: bool, hi: seq<nat>, hk: seq<nat>, hmax: seq<nat>)
      requires Valid()
      modifies m0, m1, this`log
      ensures Valid()
      ensures done <==> kv.key in old(Contents())
      ensures done ==> Contents() == old(Contents())[kv.key := kv]
      ensures done ==> log == old(log) + PutEvents(mm.(xf := false), Find(old(Contents()), kv.key), Some(kv))
      ensures !done ==> log == old(log) && unchanged(m0) && unchanged(m1)
      ensures !done ==> |hi| == 2 && |hk| == 2 && |hmax| == 2 && hmax == Limits()
      ensures !done ==> forall x :: 0 <= x < 2 ==>
        && hi[x] == MapOf(x).Owner(Hash(MapOf(x).rot, kv.key)) && hi[x] <= hmax[x] < NR_LEVELS
        && (hk[x] < 8 <==> RoomIn(x, kv.key, hi[x]))
    {
      hide Inv, HasRoom, RoomIn;
      hi, hk, hmax := [], [], [];
      var x := 0;
      while x < 2
        invariant x <= 2 && Valid() && log == old(log) && unchanged(m0) && unchanged(m1)
        invariant |hi| == x && |hk| == x && |hmax| == x
        invariant x > 0 ==> kv.key !in m0.Contents()
        invariant x > 1 ==> kv.key !in m1.Contents()
        invariant x > 0 ==> hmax[0] == m0.maxLevel
        invariant x > 1 ==> hmax == Limits()
        invariant forall y :: 0 <= y < x ==>
          && hi[y] == MapOf(y).Owner(Hash(MapOf(y).rot, kv.key)) && hi[y] <= hmax[y] < NR_LEVELS
          && (hk[y] < 8 <==> RoomIn(y, kv.key, hi[y]))
      {
        var m := MapOf(x);
        var found, i, j, k := Measure(x, kv.key);
        if found {
          PutAt(x, i, j, k, kv);
          return true, [], [], [];
        }
        var max := m.maxLevel;
        var bar0 := max + x * szShift;
        if x > 0 && bar0 < hmax[0] {
          max := max + (hmax[0] - bar0);
        }
        hi, hk, hmax := hi + [i], hk + [k], hmax + [max];
        x := x + 1;
      }
      done := false;
    }

    // The level limits of a set: table 1 may be split past its highest level
    // when table 0 is more than szShift levels ahead.
    function Limits(): seq<nat>
      reads m0, m1
    {
      [m0.maxLevel, if m1.maxLevel + szShift < m0.maxLevel then m0.maxLevel - szShift else m1.maxLevel]
    }

    lemma AcceptsIs(key: Key, busy: set<Key>)
      requires Valid()
      ensures Accepts(m0.Contents(), m1.Contents(), m0.maxLevel, m1.maxLevel, key, busy) <==>
        || key in Contents() || RoomIn(0, key, NR_LEVELS - 1) || RoomIn(1, key, Limits()[1])
        || Relocatable(0, key, busy, Limits()[0], Limits()[1]) || Relocatable(1, key, busy, Limits()[1], Limits()[0])
    {
      hide Inv, HasRoom, Relocates, KvMap1.Contents;
    }

    // Table x has room for the key when it may be split up to level lvl.
    ghost predicate RoomIn(x: nat, key: Key, lvl: nat)
      reads m0, m1
    {
      HasRoom(MapOf(x).Contents(), MapOf(x).rot, key, lvl)
    }

    // Second phase: a table whose slot has a free entry takes the new object
    // without any split.
    method InsertNoSplit(kv: Kv, hi: seq<nat>, hk: seq<nat>) returns (done: bool)
      requires Valid() && kv.key !in Contents() && |hi| == 2 && |hk| == 2
      requires forall x :: 0 <= x < 2 ==>
        && hi[x] == MapOf(x).Owner(Hash(MapOf(x).rot, kv.key))
        && (hk[x] < 8 <==> RoomIn(x, kv.key, hi[x]))
      modifies m0, m1
      ensures Valid() && Contents() == if done then old(Contents())[kv.key := kv] else old(Contents())
      ensures done <==> old(RoomIn(0, kv.key, hi[0]) || RoomIn(1, kv.key, hi[1]))
      ensures !done ==> unchanged(m0) && unchanged(m1)
    {
      hide Inv, HasRoom;
      var x := 0;
      while x < 2
        invariant x <= 2 && unchanged(m0) && unchanged(m1)
        invariant forall y :: 0 <= y < x ==> hk[y] >= 8
      {
        if hk[x] < 8 {
          MapOf(x).NrLevels();
          var ret := InsertAt(x, kv, hi[x]);
          assert ret;
          return true;
        }
        x := x + 1;
      }
      done := false;
    }

    // Third phase: split the slots up to the level limits.
    method InsertBounded(kv: Kv, hi: seq<nat>, hmax: seq<nat>) returns (done: bool)
      requires Valid() && kv.key !in Contents() && |hi| == 2 && |hmax| == 2 && hmax == Limits()
      requires forall x :: 0 <= x < 2 ==>
        && hi[x] == MapOf(x).Owner(Hash(MapOf(x).rot, kv.key)) && hi[x] <= hmax[x] < NR_LEVELS
        && !RoomIn(x, kv.key, hi[x])
      modifies m0, m1
      ensures Valid() && Contents() == if done then old(Contents())[kv.key := kv] else old(Contents())
      ensures done <==> old(RoomIn(0, kv.key, hmax[0]) || RoomIn(1, kv.key, hmax[1]))
      ensures !done ==> m0.Contents() == old(m0.Contents()) && m1.Contents() == old(m1.Contents())
      ensures !done ==> m0.maxLevel == hmax[0] && m1.maxLevel == hmax[1]
    {
      hide Inv, HasRoom;
      var x := 0;
      while x < 2
        invariant x <= 2 && Valid()
        invariant x < 2 ==> unchanged(m1)
        invariant x < 1 ==> unchanged(m0)
        invariant m0.Contents() == old(m0.Contents()) && m1.Contents() == old(m1.Contents())
        invariant m0.maxLevel == hmax[0] && m1.maxLevel <= hmax[1] && (x > 1 ==> m1.maxLevel == hmax[1])
        invariant forall y :: 0 <= y < x ==> !RoomIn(y, kv.key, hmax[y])
      {
        if hmax[x] > hi[x] {
          var ret := InsertAt(x, kv, hmax[x]);
          if ret {
            return true;
          }
        }
        x := x + 1;
      }
      done := false;
    }

    // Fourth phase: relocate one object of the slot, then insert; the insert
    // cannot fail. Neither table has room within its limit, so nothing but a
    // relocation makes this phase succeed.
    method InsertCuckoo(kv: Kv, busy: set<Key>, hmax: seq<nat>) returns (done: bool)
      requires Valid() && kv.key !in Contents() && |hmax| == 2
      requires m0.maxLevel == hmax[0] < NR_LEVELS && m1.maxLevel == hmax[1] < NR_LEVELS
      requires forall x :: 0 <= x < 2 ==> !RoomIn(x, kv.key, hmax[x])
      modifies m0, m1
      ensures Valid() && Contents() == if done then old(Contents())[kv.key := kv] else old(Contents())
      ensures done <==> old(Relocatable(0, kv.key, busy, hmax[0], hmax[1]) || Relocatable(1, kv.key, busy, hmax[1], hmax[0]))
      ensures !done ==> m0.Contents() == old(m0.Contents()) && m1.Contents() == old(m1.Contents())
    {
      hide Inv, HasRoom, Relocates;
      var x := 0;
      while x < 2
        invariant x <= 2 && Valid()
        invariant m0.Contents() == old(m0.Contents()) && m1.Contents() == old(m1.Contents())
        invariant m0.maxLevel == hmax[0] && m1.maxLevel == hmax[1]
        invariant x > 0 ==> !old(Relocatable(0, kv.key, busy, hmax[0], hmax[1]))
        invariant x > 1 ==> !old(Relocatable(1, kv.key, busy, hmax[1], hmax[0]))
      {
        OwnLevel(x, kv.key, busy, hmax[x], hmax[1 - x]);
        var room := Cuckoo(x, kv.key, busy);
        if room {
          var ret := InsertAt(x, kv, hmax[x]);
          assert ret;
          return true;
        }
        x := x + 1;
      }
      done := false;
    }

    // Without room up to level n, the keys in the slot are all the rivals the
    // key has on that level.
    lemma OwnLevel(x: nat, key: Key, busy: set<Key>, n: nat, lvl: nat)
      requires Valid() && x < 2 && MapOf(x).maxLevel <= n && !RoomIn(x, key, n)
      ensures var m := MapOf(x); var i := m.Owner(Hash(m.rot, key));
        !RoomIn(x, key, i) && (Relocatable(x, key, busy, i, lvl) <==> Relocatable(x, key, busy, n, lvl))
    {
      hide Inv, Moves, Rivals;
      var m := MapOf(x);
      var h := Hash(m.rot, key);
      m.SlotRivals(key);
      FewerRivals(m.Contents(), m.rot, h, m.Owner(h), n);
      FullRivals(m.Contents(), m.rot, h, m.Owner(h), n);
    }

    // kvmap2_set, where `busy` are the objects whose stripe in the other table
    // another thread holds when the set try-locks it. The last phase splits
    // table 0 with no limit but the number of levels. So it succeeds exactly
    // when the key is stored, or table 0 has room on some level, or table 1 has
    // within its limit, or an object of one of the key's two slots can be
    // relocated; otherwise the code would index past its 64 levels.
    method Set(kv0: Kv, addr: nat, busy: set<Key>) returns (ok: bool)
      requires Valid()
      modifies m0, m1, this`log
      ensures Valid()
      ensures Contents() == if ok then old(Contents())[kv0.key := kv0.(addr := addr)] else old(Contents())
      ensures log == old(log) + if ok
        then PutEvents(mm.(xf := false), Find(old(Contents()), kv0.key), Some(kv0.(addr := addr))) else []
      ensures ok <==> old(kv0.key in Contents()
        || RoomIn(0, kv0.key, NR_LEVELS - 1) || RoomIn(1, kv0.key, Limits()[1])
        || Relocatable(0, kv0.key, busy, Limits()[0], Limits()[1])
        || Relocatable(1, kv0.key, busy, Limits()[1], Limits()[0]))
    {
      hide Inv, HasRoom, Relocates;
      var kv := kv0.(addr := addr); // kv_alloc_dup
      var done, hi, hk, hmax := TryUpdate(kv);
      if done { return true; }
      LimitRooms(kv.key, hi, hmax);
      done := InsertNoSplit(kv, hi, hk);
      if done { return true; }
      done := InsertBounded(kv, hi, hmax);
      if done { return true; }
      done := InsertCuckoo(kv, busy, hmax);
      if done { return true; }
      m0.NrLevels();
      ok := InsertAt(0, kv, NR_LEVELS - 1);
    }

    // Room found by an earlier phase is room within the last limits.
    lemma LimitRooms(key: Key, hi: seq<nat>, hmax: seq<nat>)
      requires Valid() && |hi| == 2 && |hmax| == 2
      requires forall x :: 0 <= x < 2 ==> hi[x] <= hmax[x] < NR_LEVELS
      ensures forall x :: 0 <= x < 2 && RoomIn(x, key, hi[x]) ==> RoomIn(x, key, hmax[x])
      ensures RoomIn(0, key, hmax[0]) ==> RoomIn(0, key, NR_LEVELS - 1)
    {
      hide HasRoom;
      forall x | 0 <= x < 2 && RoomIn(x, key, hi[x]) ensures RoomIn(x, key, hmax[x]) {
        RoomHigher(MapOf(x).Contents(), MapOf(x).rot, key, hi[x], hmax[x]);
      }
      if RoomIn(0, key, hmax[0]) {
        RoomHigher(m0.Contents(), m0.rot, key, hmax[0], NR_LEVELS - 1);
      }
    }

    // kvmap2_clean: every object is given up once.
    method Clean() returns (ghost kvs: seq<Kv>)
      requires Valid()
      modifies m0, m1, this`log
      ensures Valid() && Contents() == map[]
      ensures Enumerates(old(Contents()), kvs) && log == old(log) + Retires(mm, kvs)
    {
      hide Inv, Enumerates, Retires, Walk.Stored;
      Walk.WalksAll(m0);
      Walk.WalksAll(m1);
      ghost var kvs0, kvs1 := Walk.Stored(m0), Walk.Stored(m1);
      kvs := kvs0 + kvs1;
      EnumeratesBoth(m0.Contents(), kvs0, m1.Contents(), kvs1);
      RetiresBoth(mm, kvs0, kvs1);
      var evs0 := Walk.Clean(m0, mm);
      var evs1 := Walk.Clean(m1, mm);
      log := log + evs0 + evs1;
    }
  }

  // ---- a set that fails ----

  // The keys of one hash are rivals on every level: one slot of the table has
  // them all.
  lemma AlikeRivals(m: KvMap1, key: Key, lvl: nat)
    requires m.Valid()
    ensures Alike(m.Contents(), key.hash) <= Rivals(m.Contents(), m.rot, Hash(m.rot, key), lvl)
    ensures |Alike(m.Contents(), key.hash)| <= 8
    ensures |Alike(m.Contents(), key.hash)| == 8 ==> !HasRoom(m.Contents(), m.rot, key, lvl)
    ensures |Alike(m.Contents(), key.hash)| == 8 && m.maxLevel <= lvl ==>
      Rivals(m.Contents(), m.rot, Hash(m.rot, key), lvl) == Alike(m.Contents(), key.hash)
  {
    hide Inv;
    var h := Hash(m.rot, key);
    var a, r := Alike(m.Contents(), key.hash), Rivals(m.Contents(), m.rot, h, m.Owner(h));
    m.SlotRivals(key);
    SubsetSize(a, r);
    SubsetSize(a, Rivals(m.Contents(), m.rot, h, lvl));
    if |a| == 8 && m.maxLevel <= lvl {
      FewerRivals(m.Contents(), m.rot, h, m.Owner(h), lvl);
      FullRivals(m.Contents(), m.rot, h, m.Owner(h), lvl);
      assert |r - a| == |r| - |a|;
      assert r - a == {};
    }
  }

  lemma AlikeParts(a: map<Key, Kv>, b: map<Key, Kv>, h: nat)
    requires a.Keys !! b.Keys
    ensures |Alike(a + b, h)| == |Alike(a, h)| + |Alike(b, h)|
  {
    assert Alike(a + b, h) == Alike(a, h) + Alike(b, h);
    assert Alike(a, h) !! Alike(b, h);
  }

  // No table ever has more than 16 keys of one hash.
  lemma AlikeBound(m2: KvMap2, key: Key)
    requires m2.Valid()
    ensures |Alike(m2.Contents(), key.hash)| <= 16
  {
    hide Inv, HasRoom, Alike, Rivals;
    AlikeRivals(m2.m0, key, 0);
    AlikeRivals(m2.m1, key, 0);
    AlikeParts(m2.m0.Contents(), m2.m1.Contents(), key.hash);
  }

  // With 16 of them stored, whatever else the tables hold and whichever locks
  // are free, the set of another one has no room and nothing to relocate.
  lemma AlikeFull(m2: KvMap2, key: Key, busy: set<Key>)
    requires m2.Valid() && |Alike(m2.Contents(), key.hash)| == 16
    ensures !m2.RoomIn(0, key, NR_LEVELS - 1) && !m2.RoomIn(1, key, m2.Limits()[1])
    ensures !m2.Relocatable(0, key, busy, m2.Limits()[0], m2.Limits()[1])
    ensures !m2.Relocatable(1, key, busy, m2.Limits()[1], m2.Limits()[0])
  {
    hide Inv, HasRoom, Alike, Rivals;
    AlikeRivals(m2.m0, key, 0);
    AlikeRivals(m2.m1, key, 0);
    AlikeParts(m2.m0.Contents(), m2.m1.Contents(), key.hash);
    AlikeRivals(m2.m0, key, NR_LEVELS - 1);
    AlikeRivals(m2.m1, key, m2.Limits()[1]);
    AlikeStay(m2.m0, m2.m1, key, busy, m2.Limits()[0], m2.Limits()[1]);
    AlikeStay(m2.m1, m2.m0, key, busy, m2.Limits()[1], m2.Limits()[0]);
  }

  // The keys of the one table cannot move to the other.
  lemma AlikeStay(here: KvMap1, there: KvMap1, key: Key, busy: set<Key>, n: nat, lvl: nat)
    requires here.Valid() && there.Valid() && here.maxLevel <= n
    requires |Alike(here.Contents(), key.hash)| == |Alike(there.Contents(), key.hash)| == 8
    ensures !Relocates(here.Contents(), here.rot, n, there.Contents(), there.rot, lvl, key, busy)
  {
    hide Inv, HasRoom, Rivals;
    AlikeRivals(here, key, n);
    forall victim | victim in Rivals(here.Contents(), here.rot, Hash(here.rot, key), n)
      ensures !Moves(there.Contents(), there.rot, key, busy, victim, lvl)
    {
      AlikeRivals(there, victim, lvl);
    }
  }

  // A pair whose keys all hash alike has room until there are 16.
  lemma AlikeRoom(m2: KvMap2, key: Key)
    requires m2.Valid() && |m2.Contents()| < 16 && Alike(m2.Contents(), key.hash) == m2.Contents().Keys
    ensures m2.RoomIn(0, key, NR_LEVELS - 1) || m2.RoomIn(1, key, m2.Limits()[1])
  {
    hide Inv;
    UnionSize(m2.m0.Contents(), m2.m1.Contents());
    FewRivals(m2.m0.Contents(), m2.m0.rot, key, NR_LEVELS - 1);
    FewRivals(m2.m1.Contents(), m2.m1.rot, key, m2.Limits()[1]);
  }

  lemma FewRivals(stored: map<Key, Kv>, rot: nat, key: Key, lvl: nat)
    ensures |stored| < 8 ==> HasRoom(stored, rot, key, lvl)
  {
    SubsetSize(Rivals(stored, rot, Hash(rot, key), lvl), stored.Keys);
    assert |stored.Keys| == |stored|;
  }

  lemma UnionSize(a: map<Key, Kv>, b: map<Key, Kv>)
    requires a.Keys !! b.Keys
    ensures |a + b| == |a| + |b|
  {
    assert (a + b).Keys == a.Keys + b.Keys;
    assert |a.Keys| == |a| && |b.Keys| == |b| && |(a + b).Keys| == |a + b|;
  }

  // The keys of the first n objects.
  ghost function KeysOf(kvs: seq<Kv>, n: nat): set<Key>
    requires n <= |kvs|
  {
    set i | 0 <= i < n :: kvs[i].key
  }

  // After some of the sets: the table has gained only their keys, and if it was
  // empty, the first 16 of them have been stored.
  ghost predicate Filled(was: map<Key, Kv>, now: map<Key, Kv>, kvs: seq<Kv>, oks: seq<bool>)
    requires |oks| <= |kvs|
  {
    && now.Keys <= was.Keys + KeysOf(kvs, |oks|)
    && (was == map[] ==> |now| == (if |oks| < 16 then |oks| else 16) && forall n :: 0 <= n < |oks| ==> (oks[n] <==> n < 16))
  }

  // The n-th key is new to a table that has only gained earlier ones; if they
  // are all it has, they are all alike.
  lemma NewAlike(was: map<Key, Kv>, now: map<Key, Kv>, kvs: seq<Kv>, oks: seq<bool>)
    requires |oks| < |kvs| && forall i, j :: 0 <= i < j < |kvs| ==> kvs[i].key != kvs[j].key
    requires forall i :: 0 <= i < |kvs| ==> kvs[i].key.hash == kvs[|oks|].key.hash && kvs[i].key !in was
    requires Filled(was, now, kvs, oks)
    ensures kvs[|oks|].key !in now
    ensures was == map[] ==> Alike(now, kvs[|oks|].key.hash) == now.Keys
  {
    assert was == map[] ==> forall k :: k in now ==> k in KeysOf(kvs, |oks|);
  }

  lemma FilledMore(was: map<Key, Kv>, now: map<Key, Kv>, kvs: seq<Kv>, oks: seq<bool>, ok: bool)
    requires |oks| < |kvs| && Filled(was, now, kvs, oks) && kvs[|oks|].key !in now
    requires was == map[] ==> (ok <==> |oks| < 16)
    ensures Filled(was, if ok then now[kvs[|oks|].key := kvs[|oks|]] else now, kvs, oks + [ok])
  {
    hide KeysOf;
    MoreKeys(kvs, |oks|);
    PutSize(now, kvs[|oks|]);
  }

  lemma MoreKeys(kvs: seq<Kv>, n: nat)
    requires n < |kvs|
    ensures KeysOf(kvs, n + 1) == KeysOf(kvs, n) + {kvs[n].key}
  {
  }

  lemma PutSize(m: map<Key, Kv>, kv: Kv)
    requires kv.key !in m
    ensures m[kv.key := kv].Keys == m.Keys + {kv.key} && |m[kv.key := kv]| == |m| + 1
  {
    assert m[kv.key := kv].Keys == m.Keys + {kv.key};
    assert |m[kv.key := kv].Keys| == |m.Keys| + 1;
  }

  // The set of a new key, counted among those of its hash.
  method SetAlike(m2: KvMap2, kv: Kv, busy: set<Key>) returns (ok: bool)
    requires m2.Valid() && kv.key !in m2.Contents()
    modifies m2, m2.m0, m2.m1
    ensures m2.Valid()
    ensures m2.Contents() == if ok then old(m2.Contents())[kv.key := kv] else old(m2.Contents())
    ensures old(|Alike(m2.Contents(), kv.key.hash)|) == 16 ==> !ok
    ensures old(Alike(m2.Contents(), kv.key.hash) == m2.Contents().Keys && |m2.Contents()| < 16) ==> ok
  {
    hide KvMap2.Valid, KvMap2.Contents, KvMap2.RoomIn, KvMap2.Relocatable, KvMap2.Limits, Alike;
    ghost var was := m2.Contents();
    if |Alike(was, kv.key.hash)| == 16 {
      AlikeFull(m2, kv.key, busy);
    }
    if Alike(was, kv.key.hash) == was.Keys && |was| < 16 {
      AlikeRoom(m2, kv.key);
    }
    ok := m2.Set(kv, kv.addr, busy);
  }

  // Of the sets of 17 new keys of one hash one fails, whatever the table held
  // before and whichever locks are free. From an empty table it is the last:
  // the first sixteen fill the slot of either table.
  method SeventeenAlike(m2: KvMap2, kvs: seq<Kv>, busy: seq<set<Key>>, h: nat) returns (oks: seq<bool>)
    requires m2.Valid() && |kvs| == |busy| == 17
    requires forall i :: 0 <= i < 17 ==> kvs[i].key.hash == h && kvs[i].key !in m2.Contents()
    requires forall i, j :: 0 <= i < j < 17 ==> kvs[i].key != kvs[j].key
    modifies m2, m2.m0, m2.m1
    ensures m2.Valid() && |oks| == 17
    ensures exists n :: 0 <= n < 17 && !oks[n]
    ensures old(m2.Contents()) == map[] ==> forall n :: 0 <= n < 17 ==> (oks[n] <==> n < 16)
  {
    hide KvMap2.Valid, KvMap2.Contents, Alike, Filled;
    ghost var was := m2.Contents();
    ghost var first: nat := 0; // the first set that has failed
    oks := [];
    Untouched(was, kvs);
    while |oks| < 17
      invariant |oks| <= 17 && m2.Valid() && Filled(was, m2.Contents(), kvs, oks)
      invariant first <= |oks| && (first < |oks| ==> !oks[first])
      invariant first == |oks| ==> |Alike(m2.Contents(), h)| >= |oks|
    {
      ghost var now := m2.Contents();
      var kv := kvs[|oks|];
      NewAlike(was, now, kvs, oks);
      AlikePut(now, kv);
      if was == map[] {
        FullSize(was, now, kvs, oks);
      }
      var ok := SetAlike(m2, kv, busy[|oks|]);
      FilledMore(was, now, kvs, oks, ok);
      first := if first == |oks| && ok then first + 1 else first;
      oks := oks + [ok];
    }
    AlikeBound(m2, Key(h, []));
    assert !oks[first];
    if was == map[] {
      AllFilled(was, m2.Contents(), kvs, oks);
    }
  }

  lemma Untouched(was: map<Key, Kv>, kvs: seq<Kv>)
    ensures Filled(was, was, kvs, [])
  {
  }

  lemma FullSize(was: map<Key, Kv>, now: map<Key, Kv>, kvs: seq<Kv>, oks: seq<bool>)
    requires |oks| < |kvs| && Filled(was, now, kvs, oks) && was == map[]
    ensures |now.Keys| == |now| == if |oks| < 16 then |oks| else 16
  {
    assert |now.Keys| == |now|;
  }

  lemma AllFilled(was: map<Key, Kv>, now: map<Key, Kv>, kvs: seq<Kv>, oks: seq<bool>)
    requires |oks| <= |kvs| && Filled(was, now, kvs, oks) && was == map[]
    ensures forall n :: 0 <= n < |oks| ==> (oks[n] <==> n < 16)
  {
  }
}
