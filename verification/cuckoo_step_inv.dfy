// What every step of the concurrent cuckoo table keeps.

module CuckooStepInv {
  import opened Option
  import opened KvApi
  import opened Pow2s
  import opened Bitmaps
  import opened Stripes
  import opened CuckooState
  import opened CuckooGrow
  import opened Cuckoos
  import opened CuckooSteps
  import Locks = CuckooLocks

  // ---- slots and stripes ----

  lemma {:induction false} SlotOk(levels: seq<Level>, bm: Bitmap, h: nat, k: nat)
    requires Sound(levels, bm) && k < 8
    ensures var p := SlotPos(levels, bm, h, k); InTable(levels, p) && Stripe(p.j) == Stripe(h) < NR_STRIPES
  {
    SlotInTable(levels, bm, h, k);
    assert LevelOk(levels[Lid(bm, h)]);
    StripeOfSlot(h, levels[Lid(bm, h)].power);
  }

  // An object is in one of its two slots, under one of its two stripes.
  lemma HeldCell(levels: seq<Level>, bm: Bitmap, p: Pos, v: Kv) returns (x: nat)
    requires Sound(levels, bm) && Holds(levels, p, v)
    ensures x < 2 && p == SlotPos(levels, bm, Hash2(v.key, x), p.k) && Stripe(p.j) == Stripe(Hash2(v.key, x))
    ensures At(levels, p) == EntryOf(v) && Stripe(p.j) in Both(v.key)
  {
    assert EntryOk(levels, bm, p, At(levels, p));
    x :| 0 <= x < 2 && InSlot(levels, bm, p, Hash2(v.key, x));
    SlotStripe(levels, bm, p, Hash2(v.key, x));
  }

  lemma MissAbsent(levels: seq<Level>, bm: Bitmap, key: Key)
    requires Sound(levels, bm)
    requires SlotLacks(levels, bm, Hash2(key, 0), key) && SlotLacks(levels, bm, Hash2(key, 1), key)
    ensures Absent(levels, key)
  {
    hide Sound;
    forall p, v | Holds(levels, p, v) ensures v.key != key {
      var x := HeldCell(levels, bm, p, v);
    }
  }

  lemma BothHeld(op: Op)
    ensures Locks.Held(Locks.Inside(Lo(KeyOf(op)), Hi(KeyOf(op)), [])) == Both(KeyOf(op))
    ensures Lo(KeyOf(op)) == Hi(KeyOf(op)) ==> Both(KeyOf(op)) == {Lo(KeyOf(op))}
  {
  }

  // The stripe of hop i's slot: one of the key's two, or the one its object's
  // slot was locked for.
  lemma HopStripe(kv: Kv, x: nat, path: seq<Hop>, st: Stage, i: nat)
    requires i <= |Tried(path, st)| && x < 2
    ensures i == 0 ==> Stripe(HashAt(kv, x, path, i)) in {Lo(kv.key), Hi(kv.key)}
    ensures i > 0 ==> |Dests(Tried(path, st))| >= i && Stripe(HashAt(kv, x, path, i)) == Dests(Tried(path, st))[i - 1]
  {
  }

  lemma BothOf(key: Key)
    ensures Both(key) == {Lo(key), Hi(key)}
  {
  }

  // The stripes a displacement holds.
  lemma DispHeld(kv: Kv, x: nat, path: seq<Hop>, st: Stage, i: nat)
    requires i <= |Tried(path, st)| && x < 2
    ensures Both(kv.key) <= Held(Disp(kv, x, path, st))
    ensures Stripe(HashAt(kv, x, path, i)) in Held(Disp(kv, x, path, st))
  {
    hide Lo, Hi, HashAt, Dests, Tried, Both;
    HopStripe(kv, x, path, st, i);
    BothOf(kv.key);
  }

  // Hops of a displacement start in different stripes.
  lemma HopsApart(kv: Kv, x: nat, path: seq<Hop>, st: Stage, i: nat, j: nat)
    requires Locks.PcOk(LockPc(Disp(kv, x, path, st))) && i < j <= |Tried(path, st)| && x < 2
    ensures Stripe(HashAt(kv, x, path, i)) != Stripe(HashAt(kv, x, path, j))
  {
    hide Lo, Hi, HashAt, Dests, Tried;
    HopStripe(kv, x, path, st, i);
    HopStripe(kv, x, path, st, j);
  }

  // ---- one step, seen from a stripe it does not touch ----

  ghost predicate SameStripe(levels: seq<Level>, bm: Bitmap, l2: seq<Level>, bm2: Bitmap, l: nat) {
    && |levels| == 2 && |l2| == 2
    && (Test(bm2, l) <==> Test(bm, l))
    && var i := if Test(bm, l) then 1 else 0;
    && l2[i].power == levels[i].power && |l2[i].table| == |levels[i].table|
    && forall p: Pos, v :: Stripe(p.j) == l ==> (Holds(l2, p, v) <==> Holds(levels, p, v))
  }

  predicate Touches(ch: Change, l: nat) {
    match ch
    case Put(p, _) => Stripe(p.j) == l
    case Migrate(m) => m == l
    case _ => false
  }

  lemma PutHolds(levels: seq<Level>, p: Pos, e: Entry, q: Pos, v: Kv)
    requires InTable(levels, p)
    ensures Holds(Write(levels, p, e), q, v) <==> if q == p then e.ptr == Some(v) else Holds(levels, q, v)
  {
    WriteAt(levels, p, e, q);
  }

  lemma PutSame(s: State, s2: State, p: Pos, e: Entry, l: nat)
    requires Sound(s.levels, s.bm) && Changed(s, s2, Put(p, e)) && Stripe(p.j) != l
    ensures SameStripe(s.levels, s.bm, s2.levels, s2.bm, l)
  {
    WriteShape(s.levels, s.bm, p, e);
    forall q: Pos, v | Stripe(q.j) == l ensures Holds(s2.levels, q, v) <==> Holds(s.levels, q, v) {
      PutHolds(s.levels, p, e, q, v);
    }
  }

  lemma GrowHolds(s: State, s2: State, q: Pos, v: Kv)
    requires Sound(s.levels, s.bm) && PhaseOk(s.phase, s.levels, s.bm) && Changed(s, s2, Grow)
    ensures Holds(s2.levels, q, v) <==> Holds(s.levels, q, v)
  {
  }

  lemma ShrinkHolds(s: State, s2: State, q: Pos, v: Kv)
    requires Sound(s.levels, s.bm) && PhaseOk(s.phase, s.levels, s.bm) && Changed(s, s2, Shrink)
    requires s.phase.uniq >= NR_STRIPES && s.phase.pending == {}
    ensures Holds(s2.levels, q, v) <==> Holds(s.levels, q, v)
  {
    if q.i == s.phase.src && Holds(s.levels, q, v) {
      OldTableEmpty(s.levels, s.bm, s.phase, q);
    }
  }

  lemma MigrateSame(s: State, s2: State, m: nat, l: nat)
    requires Sound(s.levels, s.bm) && PhaseOk(s.phase, s.levels, s.bm) && Changed(s, s2, Migrate(m))
    requires m != l
    ensures SameStripe(s.levels, s.bm, s2.levels, s2.bm, l)
  {
    MigratedSizes(s.levels, s.phase.src, m, s2.levels);
  }

  lemma ChangeSame(s: State, s2: State, ch: Change, l: nat)
    requires Sound(s.levels, s.bm) && PhaseOk(s.phase, s.levels, s.bm) && Changed(s, s2, ch)
    requires !Touches(ch, l) && l < NR_STRIPES
    requires ch.Shrink? ==> s.phase.uniq >= NR_STRIPES && s.phase.pending == {}
    ensures SameStripe(s.levels, s.bm, s2.levels, s2.bm, l)
  {
    hide Sound;
    match ch {
      case Keep =>
      case Claim =>
      case Put(p, e) => PutSame(s, s2, p, e, l);
      case Migrate(m) => MigrateSame(s, s2, m, l);
      case Grow =>
        assert Test(s.bm, l) <==> ServedBy(s.phase, l) == 1;
        forall q, v ensures Holds(s2.levels, q, v) <==> Holds(s.levels, q, v) {
          GrowHolds(s, s2, q, v);
        }
      case Shrink =>
        assert Test(s.bm, l) <==> ServedBy(s.phase, l) == 1;
        forall q, v ensures Holds(s2.levels, q, v) <==> Holds(s.levels, q, v) {
          ShrinkHolds(s, s2, q, v);
        }
    }
  }

  // ---- what a thread knows survives the steps of others ----

  lemma AbsentStable(levels: seq<Level>, bm: Bitmap, l2: seq<Level>, bm2: Bitmap, key: Key)
    requires Sound(l2, bm2) && Absent(levels, key)
    requires forall l :: l in Both(key) ==> SameStripe(levels, bm, l2, bm2, l)
    ensures Absent(l2, key)
  {
    hide Sound;
    forall p, v | Holds(l2, p, v) ensures v.key != key {
      var x := HeldCell(l2, bm2, p, v);
      assert Stripe(p.j) in Both(key) ==> Holds(levels, p, v);
    }
  }

  lemma StandsStable(levels: seq<Level>, bm: Bitmap, l2: seq<Level>, bm2: Bitmap, key: Key, r: Option<Kv>)
    requires Sound(levels, bm) && Sound(l2, bm2) && Stands(levels, key, r)
    requires forall l :: l in Both(key) ==> SameStripe(levels, bm, l2, bm2, l)
    ensures Stands(l2, key, r)
  {
    hide Sound;
    match r {
      case None => AbsentStable(levels, bm, l2, bm2, key);
      case Some(v) =>
        var p :| Holds(levels, p, v);
        var x := HeldCell(levels, bm, p, v);
        assert SameStripe(levels, bm, l2, bm2, Stripe(p.j));
        assert Holds(l2, p, v);
    }
  }

  // A slot of an untouched stripe is where it was.
  lemma SlotStable(levels: seq<Level>, bm: Bitmap, l2: seq<Level>, bm2: Bitmap, h: nat, k: nat)
    requires Sound(levels, bm) && k < 8 && SameStripe(levels, bm, l2, bm2, Stripe(h))
    ensures SlotPos(l2, bm2, h, k) == SlotPos(levels, bm, h, k)
    ensures var p := SlotPos(levels, bm, h, k);
      && InTable(l2, p) && (Free(levels, p) ==> Free(l2, p))
      && forall v :: Holds(l2, p, v) <==> Holds(levels, p, v)
  {
    hide Sound;
    SlotOk(levels, bm, h, k);
    var p := SlotPos(levels, bm, h, k);
    if At(l2, p).ptr.Some? {
      assert Holds(l2, p, At(l2, p).ptr.value);
      assert Holds(levels, p, At(l2, p).ptr.value);
    }
  }

  lemma LacksStable(levels: seq<Level>, bm: Bitmap, l2: seq<Level>, bm2: Bitmap, h: nat, key: Key)
    requires Sound(levels, bm) && SameStripe(levels, bm, l2, bm2, Stripe(h)) && SlotLacks(levels, bm, h, key)
    ensures SlotLacks(l2, bm2, h, key)
  {
    hide Sound, SameStripe;
    SameSizesOf(levels, bm, l2, bm2, Stripe(h));
    forall k, v | 0 <= k < 8 && Holds(l2, SlotPos(l2, bm2, h, k), v) ensures v.key != key {
      SlotStable(levels, bm, l2, bm2, h, k);
      assert Holds(levels, SlotPos(levels, bm, h, k), v);
    }
  }

  lemma LiveStable(levels: seq<Level>, bm: Bitmap, l2: seq<Level>, bm2: Bitmap, h: nat, n: nat)
    requires Sound(levels, bm) && SameStripe(levels, bm, l2, bm2, Stripe(h)) && n <= 8
    ensures |levels| == 2 && |l2| == 2
    ensures LiveUpTo(levels, bm, h, n) ==> LiveUpTo(l2, bm2, h, n)
    ensures SlotFull(levels, bm, h) ==> SlotFull(l2, bm2, h)
  {
    hide Sound, SameStripe, SlotPos, SlotFull;
    SameSizesOf(levels, bm, l2, bm2, Stripe(h));
    forall k | 0 <= k < 8 && Live(levels, SlotPos(levels, bm, h, k)) ensures Live(l2, SlotPos(l2, bm2, h, k)) {
      SlotStable(levels, bm, l2, bm2, h, k);
      assert Holds(levels, SlotPos(levels, bm, h, k), At(levels, SlotPos(levels, bm, h, k)).ptr.value);
    }
    FullIsLive(levels, bm, h);
    FullIsLive(l2, bm2, h);
  }

  lemma FullIsLive(levels: seq<Level>, bm: Bitmap, h: nat)
    requires |levels| == 2
    ensures SlotFull(levels, bm, h) <==> LiveUpTo(levels, bm, h, 8)
  {
    if LiveUpTo(levels, bm, h, 8) {
      forall k | 0 <= k < 8
        ensures var p := Pos(Lid(bm, h), Low(h, levels[Lid(bm, h)].power), k); InTable(levels, p) && At(levels, p).ptr.Some?
      {
        assert Live(levels, SlotPos(levels, bm, h, k));
      }
    }
  }

  lemma SameSizesOf(levels: seq<Level>, bm: Bitmap, l2: seq<Level>, bm2: Bitmap, l: nat)
    requires SameStripe(levels, bm, l2, bm2, l)
    ensures |levels| == 2 && |l2| == 2
  {
  }

  // One hop of a displacement, and the slot it starts from.
  lemma HopStable(hop: Hop, h: nat, levels: seq<Level>, bm: Bitmap, l2: seq<Level>, bm2: Bitmap)
    requires Sound(levels, bm) && HopOk(levels, bm, hop, h) && SameStripe(levels, bm, l2, bm2, Stripe(h))
    ensures |l2| == 2 && HopOk(l2, bm2, hop, h)
    ensures Holds(levels, hop.c, hop.v) ==> Holds(l2, hop.c, hop.v)
    ensures Free(levels, hop.c) ==> Free(l2, hop.c)
  {
    hide Sound, Holds, Free;
    SlotStable(levels, bm, l2, bm2, h, hop.c.k);
  }

  // The slots of a displacement's hops.
  lemma HopsStable(kv: Kv, x: nat, path: seq<Hop>, st: Stage, levels: seq<Level>, bm: Bitmap, l2: seq<Level>, bm2: Bitmap)
    requires Sound(levels, bm) && DispKnows(kv, x, path, st, levels, bm)
    requires |l2| == 2 && forall l :: l in Held(Disp(kv, x, path, st)) ==> SameStripe(levels, bm, l2, bm2, l)
    ensures HopsOk(l2, bm2, kv, x, path, if st.Cleared? then |path| - 1 else |path|)
    ensures st.Cleared? ==> Free(l2, path[|path| - 1].c)
  {
    hide Sound, SameStripe, Held, HashAt, HopOk, Holds, Free;
    forall i | 0 <= i < |path|
      ensures HopOk(l2, bm2, path[i], HashAt(kv, x, path, i))
      ensures Holds(levels, path[i].c, path[i].v) ==> Holds(l2, path[i].c, path[i].v)
      ensures Free(levels, path[i].c) ==> Free(l2, path[i].c)
    {
      DispHeld(kv, x, path, st, i);
      HopStable(path[i], HashAt(kv, x, path, i), levels, bm, l2, bm2);
    }
  }

  lemma DispStable(kv: Kv, x: nat, path: seq<Hop>, st: Stage, levels: seq<Level>, bm: Bitmap, l2: seq<Level>, bm2: Bitmap)
    requires Sound(levels, bm) && Sound(l2, bm2) && DispKnows(kv, x, path, st, levels, bm)
    requires |l2| == 2 && forall l :: l in Held(Disp(kv, x, path, st)) ==> SameStripe(levels, bm, l2, bm2, l)
    requires st.Copied? || st.Loose? ==> HasCopy(l2, path[|path| - 1])
    ensures DispKnows(kv, x, path, st, l2, bm2)
  {
    hide Sound, SameStripe, Held, HopsOk, Absent, HasCopy, LiveUpTo, SlotFull, HashAt;
    HopsStable(kv, x, path, st, levels, bm, l2, bm2);
    DispHeld(kv, x, path, st, 0);
    AbsentStable(levels, bm, l2, bm2, kv.key);
    LiveStable(levels, bm, l2, bm2, Hash2(kv.key, 0), 0);
    LiveStable(levels, bm, l2, bm2, Hash2(kv.key, 1), 0);
    if st.Seek? {
      HopsSmall(levels, bm, kv, x, path, |path|);
      forall i | 0 <= i < |path| ensures LiveUpTo(l2, bm2, HashAt(kv, x, path, i), path[i].c.k) {
        DispHeld(kv, x, path, st, i);
        LiveStable(levels, bm, l2, bm2, HashAt(kv, x, path, i), path[i].c.k);
      }
      DispHeld(kv, x, path, st, |path|);
      LiveStable(levels, bm, l2, bm2, HashAt(kv, x, path, |path|), st.k);
    }
  }

  lemma HopsSmall(levels: seq<Level>, bm: Bitmap, kv: Kv, x: nat, path: seq<Hop>, n: nat)
    requires |levels| == 2 && n <= |path| && HopsOk(levels, bm, kv, x, path, n)
    ensures forall i :: 0 <= i < |path| ==> path[i].c.k < 8 && path[i].x < 2
  {
    hide HashAt;
    forall i | 0 <= i < |path| ensures path[i].c.k < 8 && path[i].x < 2 {
      assert HopOk(levels, bm, path[i], HashAt(kv, x, path, i));
    }
  }

  // Whatever a thread that is no worker knows.
  lemma KnowsStable(pc: Pc, s: State, s2: State)
    requires Sound(s.levels, s.bm) && Sound(s2.levels, s2.bm) && !Worker(pc)
    requires |s.levels| == 2 && |s2.levels| == 2 && Knows(pc, s.levels, s.bm, s.phase)
    requires forall l :: l in Held(pc) ==> SameStripe(s.levels, s.bm, s2.levels, s2.bm, l)
    requires Moving(pc).Some? ==> HasCopy(s2.levels, pc.path[|pc.path| - 1])
    ensures Knows(pc, s2.levels, s2.bm, s2.phase)
  {
    hide Sound, SameStripe, DispKnows, SlotLacks, Stands, HasCopy, SlotFull;
    match pc {
      case Look(op, x) =>
        BothHeld(op);
        if x == 1 {
          LacksStable(s.levels, s.bm, s2.levels, s2.bm, Hash2(KeyOf(op), 0), KeyOf(op));
        }
      case Disp(kv, x, path, st) =>
        DispHasPath(kv, x, path, st, s.levels, s.bm);
        DispStable(kv, x, path, st, s.levels, s.bm, s2.levels, s2.bm);
      case Done(op, r) =>
        BothHeld(op);
        LiveStable(s.levels, s.bm, s2.levels, s2.bm, Hash2(KeyOf(op), 0), 0);
        LiveStable(s.levels, s.bm, s2.levels, s2.bm, Hash2(KeyOf(op), 1), 0);
        StandsStable(s.levels, s.bm, s2.levels, s2.bm, KeyOf(op), After(op, r));
      case _ =>
    }
  }

  lemma DispHasPath(kv: Kv, x: nat, path: seq<Hop>, st: Stage, levels: seq<Level>, bm: Bitmap)
    requires |levels| == 2 && DispKnows(kv, x, path, st, levels, bm)
    ensures x < 2 && (st.Scan? ==> path == []) && (!st.Scan? && !st.Seek? ==> path != [])
  {
  }

  // ---- who holds what ----

  lemma PcOf(s: State, t: Tid)
    requires Locks.Inv(LocksOf(s)) && t in s.pc
    ensures Locks.PcOk(LockPc(s.pc[t]))
  {
    assert LocksOf(s).pc[t] == LockPc(s.pc[t]);
  }

  lemma Exclusive(s: State, t: Tid, u: Tid, l: nat)
    requires Locks.Inv(LocksOf(s)) && t in s.pc && u in s.pc && l in Held(s.pc[t]) && l in Held(s.pc[u])
    ensures t == u
  {
    hide Locks.Held, LockPc, Locks.Inv;
    Locks.HolderOwns(LocksOf(s), t, l);
    Locks.HolderOwns(LocksOf(s), u, l);
  }

  lemma SoundTwo(levels: seq<Level>, bm: Bitmap)
    requires Sound(levels, bm)
    ensures |levels| == 2
  {
  }

  // A mover holds the stripe of the old copy, one of the object's two stripes;
  // the other one is where it goes.
  lemma MoverHolds(s: State, u: Tid, key: Key) returns (c: Pos, v: Kv, d: nat)
    requires Sound(s.levels, s.bm) && u in s.pc && Knows(s.pc[u], s.levels, s.bm, s.phase)
    requires Moving(s.pc[u]) == Some(key)
    ensures v.key == key && Holds(s.levels, c, v) && Stripe(c.j) in Held(s.pc[u]) && Stripe(c.j) in Both(key)
    ensures Both(key) == {Stripe(c.j), d} && Stripe(c.j) != d
    ensures exists q: Pos :: Stripe(q.j) == d && Holds(s.levels, q, v)
    ensures s.pc[u].path != [] && var hop := s.pc[u].path[|s.pc[u].path| - 1]; c == hop.c && v == hop.v && d == Dest(hop)
  {
    hide Sound, Held, HashAt, Holds, HopOk, Absent, HasCopy, SlotPos;
    var pc := s.pc[u];
    var n := |pc.path| - 1;
    var hop := pc.path[n];
    c, v, d := hop.c, hop.v, Dest(hop);
    DispHeld(pc.kv, pc.x, pc.path, pc.st, n);
    HopStripes(s.levels, s.bm, hop, HashAt(pc.kv, pc.x, pc.path, n));
    CopyOf(s.levels, hop);
  }

  lemma HopStripes(levels: seq<Level>, bm: Bitmap, hop: Hop, h: nat)
    requires Sound(levels, bm) && HopOk(levels, bm, hop, h) && Holds(levels, hop.c, hop.v)
    ensures Stripe(hop.c.j) == Stripe(h) != Dest(hop) && Both(hop.v.key) == {Stripe(hop.c.j), Dest(hop)}
  {
    hide Sound;
    SlotOk(levels, bm, h, hop.c.k);
    var y := HeldCell(levels, bm, hop.c, hop.v);
    DestOf(hop);
  }

  lemma CopyOf(levels: seq<Level>, hop: Hop)
    requires HasCopy(levels, hop)
    ensures exists q: Pos :: Stripe(q.j) == Dest(hop) && Holds(levels, q, hop.v)
  {
  }

  lemma DestOf(hop: Hop)
    requires hop.x < 2
    ensures Dest(hop) in Both(hop.v.key)
  {
  }

  // Whoever holds both stripes of a key is the only one who can move it.
  lemma NoOtherMover(s: State, t: Tid, u: Tid, key: Key)
    requires Locks.Inv(LocksOf(s)) && Sound(s.levels, s.bm) && t in s.pc && u in s.pc && t != u
    requires Knows(s.pc[u], s.levels, s.bm, s.phase) && Both(key) <= Held(s.pc[t])
    ensures Moving(s.pc[u]) != Some(key)
  {
    hide Sound, Held, Knows, Locks.Inv;
    if Moving(s.pc[u]) == Some(key) {
      var c, v, d := MoverHolds(s, u, key);
      Exclusive(s, t, u, Stripe(c.j));
    }
  }

  // ... and, when it does not move it, sees it in one place.
  lemma Unique(s: State, t: Tid, key: Key, p: Pos, v: Kv, q: Pos, w: Kv)
    requires StateInv(s) && t in s.pc && Both(key) <= Held(s.pc[t]) && Moving(s.pc[t]) != Some(key)
    requires Holds(s.levels, p, v) && Holds(s.levels, q, w) && v.key == key && w.key == key
    ensures p == q && v == w
  {
    hide Sound, Held, Knows, PhaseOk, WorkersApart, OneMover, OnePerStripe, Locks.Inv;
    if p != q {
      assert InTransit(s, key);
      var u :| u in s.pc && Moving(s.pc[u]) == Some(key);
      NoOtherMover(s, t, u, key);
    }
  }

  // The two places of an object that is being moved.
  lemma MovedPlaces(s: State, u: Tid, key: Key, q: Pos, w: Kv)
    requires StateInv(s) && u in s.pc && Moving(s.pc[u]) == Some(key) && Holds(s.levels, q, w) && w.key == key
    ensures s.pc[u].path != [] && var hop := s.pc[u].path[|s.pc[u].path| - 1];
      w == hop.v && (q == hop.c || Stripe(q.j) == Dest(hop) != Stripe(hop.c.j))
  {
    hide Sound, Held, Knows, PhaseOk, WorkersApart, OneMover, Copies, Locks.Inv;
    SoundTwo(s.levels, s.bm);
    assert Knows(s.pc[u], s.levels, s.bm, s.phase);
    var c, v, d := MoverHolds(s, u, key);
    var x := HeldCell(s.levels, s.bm, q, w);
    if Stripe(q.j) == d {
      var q2: Pos :| Stripe(q2.j) == d && Holds(s.levels, q2, v);
      assert q == q2;
    } else {
      assert q == c;
    }
  }

  lemma ObjectsSame(s: State)
    requires StateInv(s)
    ensures SameObject(s.levels)
  {
    forall p, q, v, w | Holds(s.levels, p, v) && Holds(s.levels, q, w) && v.key == w.key ensures v == w {
      if p != q {
        assert InTransit(s, v.key);
        var u :| u in s.pc && Moving(s.pc[u]) == Some(v.key);
        MovedPlaces(s, u, v.key, p, v);
        MovedPlaces(s, u, v.key, q, w);
      }
    }
  }

  // ---- a step changes tables only under its own stripes, and keeps entries
  // where the bitmap says ----

  lemma NoneClaimed(s: State)
    requires WorkersApart(s) && s.phase.Growing? && forall t :: t in s.pc ==> !Worker(s.pc[t])
    ensures s.phase.pending == {}
  {
    assert forall t, l :: t in s.pc && Remaining(s.pc[t], l) ==> Worker(s.pc[t]);
  }

  lemma PutSound(s: State, s2: State, p: Pos, e: Entry)
    requires Sound(s.levels, s.bm) && PhaseOk(s.phase, s.levels, s.bm) && Changed(s, s2, Put(p, e))
    requires EntryOk(s.levels, s.bm, p, e)
    ensures Sound(s2.levels, s2.bm) && PhaseOk(s2.phase, s2.levels, s2.bm)
  {
    hide Fits;
    WriteShape(s.levels, s.bm, p, e);
    PhaseSame(s.phase, s.levels, s2.levels, s.bm);
    forall q | InTable(s2.levels, q) ensures EntryOk(s2.levels, s.bm, q, At(s2.levels, q)) {
      WriteAt(s.levels, p, e, q);
      assert EntryOk(s.levels, s.bm, q, At(s.levels, q));
      if At(s2.levels, q).ptr.Some? {
        FitsSame(s.levels, s2.levels, s.bm, q, At(s2.levels, q).ptr.value.key);
      }
    }
  }

  // Replacing level i, all of whose entries are empty, by another empty one.
  lemma EmptyLevelSound(levels: seq<Level>, bm: Bitmap, i: nat, l: Level)
    requires Sound(levels, bm) && i < 2 && LevelOk(l)
    requires forall j, k :: 0 <= j < |l.table| && 0 <= k < 8 ==> l.table[j][k] == EMPTY
    requires forall s :: 0 <= s < NR_STRIPES ==> levels[i := l][if Test(bm, s) then 1 else 0].table != []
    ensures Sound(levels[i := l], bm)
  {
    hide Fits;
    var l2 := levels[i := l];
    forall p | InTable(l2, p) ensures EntryOk(l2, bm, p, At(l2, p)) {
      if p.i != i {
        assert InTable(levels, p) && At(l2, p) == At(levels, p);
        SameEntry(levels, l2, bm, p, At(levels, p));
      }
    }
  }

  lemma GrowSound(s: State, s2: State)
    requires Sound(s.levels, s.bm) && PhaseOk(s.phase, s.levels, s.bm) && Changed(s, s2, Grow)
    ensures Sound(s2.levels, s2.bm) && PhaseOk(s2.phase, s2.levels, s2.bm)
  {
    var cur := s.phase.cur;
    assert forall l :: 0 <= l < NR_STRIPES ==> Test(s.bm, l) == s.bm.bits[l];
    OnesAll(s.bm.bits, cur == 1);
    EmptyLevelSound(s.levels, s.bm, OtherLevel(cur), NewLevel(s.levels[cur].power + 1));
  }

  lemma ShrinkSound(s: State, s2: State)
    requires Sound(s.levels, s.bm) && PhaseOk(s.phase, s.levels, s.bm) && Changed(s, s2, Shrink)
    requires s.phase.uniq >= NR_STRIPES && s.phase.pending == {}
    ensures Sound(s2.levels, s2.bm) && PhaseOk(s2.phase, s2.levels, s2.bm)
  {
    var src := s.phase.src;
    assert forall l :: 0 <= l < NR_STRIPES ==> ServedBy(s.phase, l) == OtherLevel(src);
    EmptyLevelSound(s.levels, s.bm, src, s.levels[src].(table := []));
  }

  lemma MigrateSound(s: State, s2: State, l: nat)
    requires Sound(s.levels, s.bm) && PhaseOk(s.phase, s.levels, s.bm) && Changed(s, s2, Migrate(l))
    requires l in s.phase.pending
    ensures CanMove(s.levels, s.bm, s.phase.src, l)
    ensures Sound(s2.levels, s2.bm) && PhaseOk(s2.phase, s2.levels, s2.bm)
  {
    hide Sound, Migrated;
    assert ServedBy(s.phase, l) == s.phase.src;
    MigrateDone(s.phase, s.levels, s.bm, map[], l, s2.levels, s2.bm);
    FlipsMove(s.levels, s.bm, s2.bm, s.phase, l);
  }

  lemma FlipsMove(levels: seq<Level>, bm: Bitmap, bm2: Bitmap, ph: Phase, l: nat)
    requires Sound(levels, bm) && PhaseOk(ph, levels, bm) && ph.Growing? && Flips(bm, bm2, l, ph.src)
    ensures CanMove(levels, bm, ph.src, l)
  {
  }

  // What the tables need of a change.
  ghost predicate ChangeOk(s: State, ch: Change)
    requires |s.levels| == 2
  {
    match ch
    case Put(p, e) => EntryOk(s.levels, s.bm, p, e)
    case Migrate(l) => s.phase.Growing? && l in s.phase.pending
    case Shrink => s.phase.Growing? && s.phase.uniq >= NR_STRIPES && s.phase.pending == {}
    case _ => true
  }

  lemma ChangeSound(s: State, s2: State, ch: Change)
    requires Sound(s.levels, s.bm) && PhaseOk(s.phase, s.levels, s.bm) && Changed(s, s2, ch) && ChangeOk(s, ch)
    ensures Sound(s2.levels, s2.bm) && PhaseOk(s2.phase, s2.levels, s2.bm)
  {
    hide Sound, EntryOk;
    match ch {
      case Keep =>
      case Claim => ClaimKeeps(s.phase, s.levels, s.bm);
      case Put(p, e) => PutSound(s, s2, p, e);
      case Migrate(l) => MigrateSound(s, s2, l);
      case Grow => GrowSound(s, s2);
      case Shrink => ShrinkSound(s, s2);
    }
  }

  // The object of a frame may be put into the frame's slot.
  lemma CarriedOk(levels: seq<Level>, bm: Bitmap, kv: Kv, x: nat, path: seq<Hop>, p: Pos)
    requires |levels| == 2 && x < 2 && (path != [] ==> path[|path| - 1].x < 2)
    requires p == SlotPos(levels, bm, HashAt(kv, x, path, |path|), p.k)
    ensures EntryOk(levels, bm, p, EntryOf(Carried(kv, path)))
  {
    var y := if path == [] then x else path[|path| - 1].x;
    assert InSlot(levels, bm, p, Hash2(Carried(kv, path).key, y));
  }

  lemma EmptyOk(levels: seq<Level>, bm: Bitmap, p: Pos)
    requires |levels| == 2
    ensures EntryOk(levels, bm, p, EMPTY)
  {
  }

  lemma FoundOk(levels: seq<Level>, bm: Bitmap, p: Pos, v: Kv, kv: Kv)
    requires Sound(levels, bm) && Holds(levels, p, v) && v.key == kv.key
    ensures EntryOk(levels, bm, p, EntryOf(kv))
  {
    assert EntryOk(levels, bm, p, At(levels, p));
  }

  lemma LookChange(s: State, t: Tid, act: Act)
    requires StateInv(s) && t in s.pc && s.pc[t].Look? && act != Go && MoveOf(s, t, act).Some?
    ensures var ch := MoveOf(s, t, act).value.ch;
      ChangeOk(s, ch) && forall l :: Touches(ch, l) ==> l in Held(s.pc[t])
  {
    hide Sound, PhaseOk, Locks.Inv, OnePerStripe, Copies, OneMover, WorkersApart, SlotLacks, EntryOk;
    SoundTwo(s.levels, s.bm);
    var op, x := s.pc[t].op, s.pc[t].x;
    assert Knows(s.pc[t], s.levels, s.bm, s.phase);
    BothHeld(op);
    if act.Found? && act.k < 8 {
      var p := SlotPos(s.levels, s.bm, Hash2(KeyOf(op), x), act.k);
      SlotOk(s.levels, s.bm, Hash2(KeyOf(op), x), act.k);
      EmptyOk(s.levels, s.bm, p);
      if op.Set? {
        FoundOk(s.levels, s.bm, p, At(s.levels, p).ptr.value, op.kv);
      }
    }
  }

  lemma SeekChange(s: State, t: Tid, act: Act)
    requires StateInv(s) && t in s.pc && s.pc[t].Disp? && act != Go && MoveOf(s, t, act).Some?
    ensures var ch := MoveOf(s, t, act).value.ch;
      ChangeOk(s, ch) && forall l :: Touches(ch, l) ==> l in Held(s.pc[t])
  {
    hide StateInv, Sound, PhaseOk, Held, EntryOk, HashAt, Carried, SlotPos, HopsOk, Absent, HasCopy, Placing, Dest, Stripe;
    InvParts(s);
    var kv, x, path, st := s.pc[t].kv, s.pc[t].x, s.pc[t].path, s.pc[t].st;
    assert Knows(s.pc[t], s.levels, s.bm, s.phase);
    var n := |path|;
    if act.UseFree? && act.k < 8 {
      var h := HashAt(kv, x, path, n);
      SlotOk(s.levels, s.bm, h, act.k);
      DispHeld(kv, x, path, st, n);
      SlotPosK(s.levels, s.bm, h, act.k);
      LastHopOk(s, t);
      CarriedOk(s.levels, s.bm, kv, x, path, SlotPos(s.levels, s.bm, h, act.k));
    }
  }

  lemma LastHopOk(s: State, t: Tid)
    requires StateInv(s) && t in s.pc && s.pc[t].Disp?
    ensures |s.levels| == 2 && var kv, x, path := s.pc[t].kv, s.pc[t].x, s.pc[t].path;
      && (path != [] ==> HopOk(s.levels, s.bm, path[|path| - 1], HashAt(kv, x, path, |path| - 1)))
      && (Front(path) != [] ==> Front(path)[|path| - 2].x < 2)
  {
    hide Sound, PhaseOk, Locks.Inv, OnePerStripe, Copies, OneMover, WorkersApart, HashAt, SlotPos, Absent, HasCopy, Holds, Free;
    InvParts(s);
    assert Knows(s.pc[t], s.levels, s.bm, s.phase);
    var kv, x, path := s.pc[t].kv, s.pc[t].x, s.pc[t].path;
    if path != [] {
      assert HopOk(s.levels, s.bm, path[|path| - 1], HashAt(kv, x, path, |path| - 1));
      if Front(path) != [] {
        assert HopOk(s.levels, s.bm, path[|path| - 2], HashAt(kv, x, path, |path| - 2));
      }
    }
  }

  lemma UnwindChange(s: State, t: Tid)
    requires StateInv(s) && t in s.pc && s.pc[t].Disp? && MoveOf(s, t, Go).Some?
    ensures var ch := MoveOf(s, t, Go).value.ch;
      ChangeOk(s, ch) && forall l :: Touches(ch, l) ==> l in Held(s.pc[t])
  {
    hide StateInv, Held, EntryOk, Carried, Placing, Stripe, Front;
    InvParts(s);
    if s.pc[t].path != [] && (s.pc[t].st.Loose? || s.pc[t].st.Cleared?) {
      LastCell(s, t);
    }
  }

  // The place an unwinding frame writes to.
  lemma LastCell(s: State, t: Tid)
    requires StateInv(s) && t in s.pc && s.pc[t].Disp? && (s.pc[t].st.Loose? || s.pc[t].st.Cleared?)
    requires |s.levels| == 2 && s.pc[t].path != []
    ensures var path := s.pc[t].path; var c := path[|path| - 1].c;
      && Stripe(c.j) in Held(s.pc[t]) && EntryOk(s.levels, s.bm, c, EMPTY)
      && EntryOk(s.levels, s.bm, c, EntryOf(Carried(s.pc[t].kv, Front(path))))
  {
    hide StateInv, Sound, PhaseOk, Held, EntryOk, HashAt, Carried, SlotPos, DispKnows, Dest, Stripe;
    InvParts(s);
    var kv, x, path, st := s.pc[t].kv, s.pc[t].x, s.pc[t].path, s.pc[t].st;
    assert Knows(s.pc[t], s.levels, s.bm, s.phase);
    DispHasPath(kv, x, path, st, s.levels, s.bm);
    var h := HashAt(kv, x, path, |path| - 1);
    var c := path[|path| - 1].c;
    LastHopOk(s, t);
    SlotOk(s.levels, s.bm, h, c.k);
    DispHeld(kv, x, path, st, |path| - 1);
    EmptyOk(s.levels, s.bm, c);
    FrontHash(kv, x, path);
    CarriedOk(s.levels, s.bm, kv, x, Front(path), c);
  }

  lemma SlotPosK(levels: seq<Level>, bm: Bitmap, h: nat, k: nat)
    requires |levels| == 2
    ensures SlotPos(levels, bm, h, k).k == k
  {
  }

  lemma FrontHash(kv: Kv, x: nat, path: seq<Hop>)
    requires path != []
    ensures HashAt(kv, x, Front(path), |path| - 1) == HashAt(kv, x, path, |path| - 1)
    ensures forall i :: 0 <= i < |path| ==> HashAt(kv, x, Front(path), i) == HashAt(kv, x, path, i)
  {
  }

  lemma OtherChange(s: State, t: Tid, act: Act, s2: State)
    requires StateInv(s) && Step(s, s2, t, act) && !s.pc[t].Disp? && !(s.pc[t].Look? && act != Go)
    ensures var ch := MoveOf(s, t, act).value.ch;
      |s.levels| == 2 && ChangeOk(s, ch) && forall l :: Touches(ch, l) ==> l in Held(s.pc[t])
  {
    hide Sound, PhaseOk, Locks.Inv, OnePerStripe, Copies, OneMover, EntryOk;
    SoundTwo(s.levels, s.bm);
    assert Knows(s.pc[t], s.levels, s.bm, s.phase);
    if MoveOf(s, t, act).value.ch.Shrink? {
      NoneClaimed(s);
    }
    if s.pc[t].WorkerHold? && act == Go {
      assert Remaining(s.pc[t], s.pc[t].l);
    }
  }

  lemma StepChange(s: State, s2: State, t: Tid, act: Act)
    requires StateInv(s) && Step(s, s2, t, act)
    ensures var ch := MoveOf(s, t, act).value.ch;
      |s.levels| == 2 && ChangeOk(s, ch) && forall l :: Touches(ch, l) ==> l in Held(s.pc[t])
    ensures Sound(s2.levels, s2.bm) && PhaseOk(s2.phase, s2.levels, s2.bm)
  {
    hide StateInv, MoveOf, ChangeOk, Sound, PhaseOk, Held, Touches;
    InvParts(s);
    if s.pc[t].Disp? {
      if act == Go {
        UnwindChange(s, t);
      } else {
        SeekChange(s, t, act);
      }
    } else if s.pc[t].Look? && act != Go {
      LookChange(s, t, act);
    } else {
      OtherChange(s, t, act, s2);
    }
    ChangeSound(s, s2, MoveOf(s, t, act).value.ch);
  }

  lemma InvParts(s: State)
    requires StateInv(s)
    ensures Locks.Inv(LocksOf(s)) && Sound(s.levels, s.bm) && PhaseOk(s.phase, s.levels, s.bm) && |s.levels| == 2
    ensures forall t :: t in s.pc ==> Knows(s.pc[t], s.levels, s.bm, s.phase)
  {
  }

  // ---- what the acting thread knows after its step ----

  // Displacements write into free entries or over nothing but their own hops.
  lemma PutHops(s: State, s2: State, p: Pos, e: Entry, kv: Kv, x: nat, path: seq<Hop>, n: nat)
    requires Sound(s.levels, s.bm) && Changed(s, s2, Put(p, e)) && |s2.levels| == 2 && n <= |path|
    requires HopsOk(s.levels, s.bm, kv, x, path, n) && forall i :: 0 <= i < n ==> path[i].c != p
    ensures HopsOk(s2.levels, s2.bm, kv, x, path, n)
  {
    WriteShape(s.levels, s.bm, p, e);
    forall i | 0 <= i < n ensures Holds(s2.levels, path[i].c, path[i].v) {
      PutHolds(s.levels, p, e, path[i].c, path[i].v);
    }
  }

  lemma PutAbsent(s: State, s2: State, p: Pos, e: Entry, key: Key)
    requires Changed(s, s2, Put(p, e)) && Absent(s.levels, key) && (e.ptr.Some? ==> e.ptr.value.key != key)
    ensures Absent(s2.levels, key)
  {
    forall q, v | Holds(s2.levels, q, v) ensures v.key != key {
      PutHolds(s.levels, p, e, q, v);
    }
  }

  // A frame that has put its object into a free entry of its slot.
  lemma PlacingKnows(s: State, s2: State, kv: Kv, x: nat, path: seq<Hop>, p: Pos)
    requires Sound(s.levels, s.bm) && |s.levels| == 2 && |s2.levels| == 2 && x < 2 && Absent(s.levels, kv.key)
    requires HopsOk(s.levels, s.bm, kv, x, path, |path|) && Free(s.levels, p)
    requires p.k < 8 && p == SlotPos(s.levels, s.bm, HashAt(kv, x, path, |path|), p.k)
    requires Changed(s, s2, Put(p, EntryOf(Carried(kv, path))))
    ensures Knows(Placing(kv, x, path), s2.levels, s2.bm, s2.phase)
  {
    hide Sound, HashAt, SlotPos;
    var o := Carried(kv, path);
    PutHolds(s.levels, p, EntryOf(o), p, o);
    if path == [] {
      assert Holds(s2.levels, p, kv);
    } else {
      var hop := path[|path| - 1];
      assert Holds(s.levels, hop.c, hop.v);
      PutHops(s, s2, p, EntryOf(o), kv, x, path, |path|);
      PutAbsent(s, s2, p, EntryOf(o), kv.key);
      SlotOk(s.levels, s.bm, HashAt(kv, x, path, |path|), p.k);
      LastHash(kv, x, path);
      assert Stripe(p.j) == Dest(hop) && Holds(s2.levels, p, hop.v);
    }
  }

  lemma LastHash(kv: Kv, x: nat, path: seq<Hop>)
    requires path != []
    ensures Stripe(HashAt(kv, x, path, |path|)) == Dest(path[|path| - 1])
  {
  }

  // The inner frames of a displacement that goes one deeper or comes back.
  lemma PrefixHops(levels: seq<Level>, bm: Bitmap, kv: Kv, x: nat, path: seq<Hop>, n: nat)
    requires |levels| == 2 && path != [] && |path| - 1 <= n <= |path| && HopsOk(levels, bm, kv, x, path, n)
    ensures HopsOk(levels, bm, kv, x, Front(path), |path| - 1)
  {
    hide HopOk, HashAt;
    FrontHash(kv, x, path);
  }

  lemma ExtendHops(levels: seq<Level>, bm: Bitmap, kv: Kv, x: nat, path: seq<Hop>, hop: Hop)
    requires |levels| == 2 && HopsOk(levels, bm, kv, x, path, |path|)
    requires HopOk(levels, bm, hop, HashAt(kv, x, path, |path|)) && Holds(levels, hop.c, hop.v)
    ensures HopsOk(levels, bm, kv, x, path + [hop], |path + [hop]|)
  {
    hide HopOk, HashAt;
    var p2 := path + [hop];
    assert Front(p2) == path;
    FrontHash(kv, x, p2);
  }

  lemma SeekKnows(s: State, s2: State, t: Tid, act: Act)
    requires StateInv(s) && Step(s, s2, t, act) && |s2.levels| == 2
    requires s.pc[t].Disp? && (s.pc[t].st.Seek? || s.pc[t].st.Scan?) && act != Go
    ensures Knows(s2.pc[t], s2.levels, s2.bm, s2.phase)
  {
    hide Sound, PhaseOk, Locks.Inv, OnePerStripe, Copies, OneMover, WorkersApart, HopOk, HashAt, Absent, HasCopy, HopsOk,
      SlotPos, Locks.Step, SlotFull, LiveUpTo, PathLive, Live, Dest;
    var kv, x, path, st := s.pc[t].kv, s.pc[t].x, s.pc[t].path, s.pc[t].st;
    var h := HashAt(kv, x, path, |path|);
    assert Knows(s.pc[t], s.levels, s.bm, s.phase);
    match act {
      case UseFree(k) =>
        SlotPosK(s.levels, s.bm, h, k);
        PlacingKnows(s, s2, kv, x, path, SlotPos(s.levels, s.bm, h, k));
      case Full =>
        if st.Scan? {
          OwnHash(kv, x, path);
          EmptySearch(s.levels, s.bm, kv, 1 - x, FIRST_DEPTH);
        } else {
          ReturnKnows(s.levels, s.bm, kv, x, path, st.d);
        }
      case Push => PushKnows(s.levels, s.bm, kv, x, path, st);
      case Skip => LiveMore(s.levels, s.bm, h, st.k);
      case Over =>
        if path == [] {
          EmptySearch(s.levels, s.bm, kv, 1 - x, if x == 0 then st.d else LAST_DEPTH);
        } else {
          ReturnKnows(s.levels, s.bm, kv, x, path, st.d);
        }
      case _ =>
    }
  }

  lemma OwnHash(kv: Kv, x: nat, path: seq<Hop>)
    requires path == []
    ensures HashAt(kv, x, path, |path|) == Hash2(kv.key, x)
  {
  }

  lemma LiveMore(levels: seq<Level>, bm: Bitmap, h: nat, n: nat)
    requires |levels| == 2
    ensures LiveUpTo(levels, bm, h, n) && Live(levels, SlotPos(levels, bm, h, n)) ==> LiveUpTo(levels, bm, h, n + 1)
    ensures LiveUpTo(levels, bm, h, 0)
  {
  }

  // The frame that goes on after the one behind it has failed.
  lemma ReturnKnows(levels: seq<Level>, bm: Bitmap, kv: Kv, x: nat, path: seq<Hop>, d: nat)
    requires |levels| == 2 && path != [] && HopsOk(levels, bm, kv, x, path, |path|) && PathLive(kv, x, path, levels, bm)
    requires FIRST_DEPTH <= d <= LAST_DEPTH && |path| <= d
    ensures HopsOk(levels, bm, kv, x, Front(path), |path| - 1)
    ensures var hop := path[|path| - 1];
      SearchKnows(kv, x, Front(path), Following(d, hop.c.k, hop.x), levels, bm)
  {
    hide HashAt, LiveUpTo, HopOk, Holds, SlotPos, Live;
    var n := |path| - 1;
    PrefixHops(levels, bm, kv, x, path, |path|);
    FrontHash(kv, x, path);
    HopsSmall(levels, bm, kv, x, path, |path|);
    LastLive(levels, bm, kv, x, path);
    LiveMore(levels, bm, HashAt(kv, x, path, n), path[n].c.k);
  }

  lemma LastLive(levels: seq<Level>, bm: Bitmap, kv: Kv, x: nat, path: seq<Hop>)
    requires |levels| == 2 && path != [] && HopsOk(levels, bm, kv, x, path, |path|)
    ensures var n := |path| - 1; Live(levels, SlotPos(levels, bm, HashAt(kv, x, path, n), path[n].c.k))
  {
    hide HashAt, SlotPos;
    var n := |path| - 1;
    assert HopOk(levels, bm, path[n], HashAt(kv, x, path, n)) && Holds(levels, path[n].c, path[n].v);
  }

  // One hop more.
  lemma PushKnows(levels: seq<Level>, bm: Bitmap, kv: Kv, x: nat, path: seq<Hop>, st: Stage)
    requires |levels| == 2 && st.Seek? && HopsOk(levels, bm, kv, x, path, |path|) && SearchKnows(kv, x, path, st, levels, bm)
    requires !Local(path, st) && st.k < 8
    requires var h := HashAt(kv, x, path, |path|);
      Live(levels, SlotPos(levels, bm, h, st.k)) && Dest(NextHop(levels, bm, h, st)) != Stripe(h)
    ensures var path2 := path + [NextHop(levels, bm, HashAt(kv, x, path, |path|), st)];
      HopsOk(levels, bm, kv, x, path2, |path2|) && SearchKnows(kv, x, path2, Start(st.d), levels, bm)
  {
    hide HashAt, LiveUpTo, HopOk, Holds, SlotPos, Dest, HopsOk;
    var h := HashAt(kv, x, path, |path|);
    var hop := NextHop(levels, bm, h, st);
    var path2 := path + [hop];
    NewHop(levels, bm, h, st.k, st.y);
    ExtendHops(levels, bm, kv, x, path, hop);
    SlotPosK(levels, bm, h, st.k);
    assert Front(path2) == path;
    FrontHash(kv, x, path2);
    LiveMore(levels, bm, HashAt(kv, x, path2, |path2|), 0);
    forall i | 0 <= i < |path2| ensures LiveUpTo(levels, bm, HashAt(kv, x, path2, i), path2[i].c.k) {
      assert i < |path| ==> LiveUpTo(levels, bm, HashAt(kv, x, path, i), path[i].c.k);
    }
  }

  lemma EmptySearch(levels: seq<Level>, bm: Bitmap, kv: Kv, x: nat, d: nat)
    requires |levels| == 2 && FIRST_DEPTH <= d <= LAST_DEPTH
    ensures HopsOk(levels, bm, kv, x, [], 0) && SearchKnows(kv, x, [], Start(d), levels, bm)
  {
    hide SlotPos, HashAt, Live;
  }

  lemma EmptyHops(levels: seq<Level>, bm: Bitmap, kv: Kv, x: nat)
    requires |levels| == 2
    ensures HopsOk(levels, bm, kv, x, [], 0)
  {
  }

  lemma NewHop(levels: seq<Level>, bm: Bitmap, h: nat, k: nat, y: nat)
    requires |levels| == 2 && k < 8 && y < 2 && InTable(levels, SlotPos(levels, bm, h, k))
    requires At(levels, SlotPos(levels, bm, h, k)).ptr.Some?
    ensures var c := SlotPos(levels, bm, h, k); var hop := Hop(c, At(levels, c).ptr.value, y);
      Holds(levels, c, hop.v) && (Dest(hop) != Stripe(h) ==> HopOk(levels, bm, hop, h))
  {
  }

  lemma UnwindKnows(s: State, s2: State, t: Tid)
    requires StateInv(s) && Step(s, s2, t, Go) && |s2.levels| == 2 && s.pc[t].Disp?
    ensures Knows(s2.pc[t], s2.levels, s2.bm, s2.phase)
  {
    hide Sound, PhaseOk, Locks.Inv, OnePerStripe, Copies, OneMover, WorkersApart, HopOk, HashAt, Absent, HasCopy, HopsOk,
      SlotPos, Locks.Step;
    var kv, x, path, st := s.pc[t].kv, s.pc[t].x, s.pc[t].path, s.pc[t].st;
    assert Knows(s.pc[t], s.levels, s.bm, s.phase);
    if st.Loose? {
      ClearKnows(s, s2, t);
    } else if st.Cleared? {
      var c := path[|path| - 1].c;
      PrefixHops(s.levels, s.bm, kv, x, path, |path| - 1);
      LastSlot(s.levels, s.bm, kv, x, path, |path| - 1);
      PlacingKnows(s, s2, kv, x, Front(path), c);
    }
  }

  lemma LastSlot(levels: seq<Level>, bm: Bitmap, kv: Kv, x: nat, path: seq<Hop>, n: nat)
    requires |levels| == 2 && path != [] && n <= |path| && HopsOk(levels, bm, kv, x, path, n)
    ensures var c := path[|path| - 1].c; c.k < 8 && c == SlotPos(levels, bm, HashAt(kv, x, Front(path), |path| - 1), c.k)
  {
    hide HashAt;
    FrontHash(kv, x, path);
    assert HopOk(levels, bm, path[|path| - 1], HashAt(kv, x, path, |path| - 1));
  }

  // Clearing the old copy leaves the other hops alone: they start elsewhere.
  lemma ClearKnows(s: State, s2: State, t: Tid)
    requires StateInv(s) && Step(s, s2, t, Go) && |s2.levels| == 2 && s.pc[t].Disp? && s.pc[t].st.Loose?
    ensures Knows(s2.pc[t], s2.levels, s2.bm, s2.phase)
  {
    hide Sound, PhaseOk, Locks.Inv, OnePerStripe, Copies, OneMover, WorkersApart, HashAt, HopOk, Locks.Step;
    var kv, x, path, st := s.pc[t].kv, s.pc[t].x, s.pc[t].path, s.pc[t].st;
    assert Knows(s.pc[t], s.levels, s.bm, s.phase);
    var n := |path| - 1;
    var c := path[n].c;
    forall i | 0 <= i < n ensures path[i].c != c {
      HopsDiffer(s, t, i, n);
    }
    WeakerHops(s.levels, s.bm, kv, x, path, |path|, n);
    PutHops(s, s2, c, EMPTY, kv, x, path, n);
    PutAbsent(s, s2, c, EMPTY, kv.key);
    WriteAt(s.levels, c, EMPTY, c);
  }

  lemma WeakerHops(levels: seq<Level>, bm: Bitmap, kv: Kv, x: nat, path: seq<Hop>, n: nat, m: nat)
    requires |levels| == 2 && m <= n <= |path| && HopsOk(levels, bm, kv, x, path, n)
    ensures HopsOk(levels, bm, kv, x, path, m)
  {
  }

  lemma HopsDiffer(s: State, t: Tid, i: nat, n: nat)
    requires StateInv(s) && t in s.pc && s.pc[t].Disp? && i < n < |s.pc[t].path| && n <= |Tried(s.pc[t].path, s.pc[t].st)|
    ensures s.pc[t].path[i].c != s.pc[t].path[n].c
  {
    hide Sound, PhaseOk, Locks.Inv, OnePerStripe, Copies, OneMover, WorkersApart, HashAt, SlotPos, Tried, Absent, Holds, Free,
      HasCopy;
    InvParts(s);
    var kv, x, path, st := s.pc[t].kv, s.pc[t].x, s.pc[t].path, s.pc[t].st;
    PcOf(s, t);
    assert Knows(s.pc[t], s.levels, s.bm, s.phase);
    HopsApart(kv, x, path, st, i, n);
    assert HopOk(s.levels, s.bm, path[i], HashAt(kv, x, path, i));
    assert HopOk(s.levels, s.bm, path[n], HashAt(kv, x, path, n));
    SlotOk(s.levels, s.bm, HashAt(kv, x, path, i), path[i].c.k);
    SlotOk(s.levels, s.bm, HashAt(kv, x, path, n), path[n].c.k);
  }

  lemma LookKnows(s: State, s2: State, t: Tid, act: Act)
    requires StateInv(s) && Step(s, s2, t, act) && |s2.levels| == 2 && s.pc[t].Look? && act != Go
    ensures Knows(s2.pc[t], s2.levels, s2.bm, s2.phase)
  {
    hide Sound, PhaseOk, Locks.Inv, OnePerStripe, Copies, OneMover, WorkersApart, Locks.Step, SlotLacks;
    var op, x := s.pc[t].op, s.pc[t].x;
    assert Knows(s.pc[t], s.levels, s.bm, s.phase);
    if act.Found? {
      FoundKnows(s, s2, t, act.k);
    } else if x == 1 {
      MissAbsent(s.levels, s.bm, KeyOf(op));
      if op.Set? {
        EmptyHops(s.levels, s.bm, op.kv, 0);
      }
    }
  }

  lemma FoundKnows(s: State, s2: State, t: Tid, k: nat)
    requires StateInv(s) && Step(s, s2, t, Found(k)) && |s2.levels| == 2 && s.pc[t].Look?
    ensures Knows(s2.pc[t], s2.levels, s2.bm, s2.phase)
  {
    hide Sound, PhaseOk, Locks.Inv, OnePerStripe, Copies, OneMover, WorkersApart, Locks.Step, SlotLacks, SlotPos;
    var op, x := s.pc[t].op, s.pc[t].x;
    var key := KeyOf(op);
    var p := SlotPos(s.levels, s.bm, Hash2(key, x), k);
    var v := At(s.levels, p).ptr.value;
    assert Holds(s.levels, p, v);
    match op {
      case Get(_) =>
      case Set(kv) => PutHolds(s.levels, p, EntryOf(kv), p, kv);
      case Del(_) =>
        BothHeld(op);
        forall q, w | Holds(s2.levels, q, w) ensures w.key != key {
          PutHolds(s.levels, p, EMPTY, q, w);
          if w.key == key {
            Unique(s, t, key, p, v, q, w);
          }
        }
    }
  }

  // ---- the three ways a step writes an entry ----

  // Erasing or overwriting the key a get, del or set has found.
  ghost predicate FoundPut(s: State, t: Tid, m: Move, p: Pos, e: Entry)
    requires t in s.pc
  {
    && Moving(s.pc[t]).None? && Moving(m.pc).None? && m.pc.Done?
    && exists v :: Holds(s.levels, p, v) && Both(v.key) <= Held(s.pc[t]) && v.key == KeyOf(m.pc.op)
         && (e == EMPTY || (e.ptr.Some? && e.ptr.value.key == v.key))
  }

  // Clearing the old copy of a moved object.
  ghost predicate ClearPut(s: State, t: Tid, m: Move, p: Pos, e: Entry)
    requires t in s.pc
  {
    && Moving(s.pc[t]).Some? && Moving(m.pc).None? && e == EMPTY
    && s.pc[t].path != [] && p == s.pc[t].path[|s.pc[t].path| - 1].c
  }

  // Putting the object of a frame into a free entry of its slot.
  ghost predicate PlacePut(s: State, t: Tid, m: Move, p: Pos, e: Entry)
    requires t in s.pc && |s.levels| == 2
  {
    && s.pc[t].Disp? && Moving(s.pc[t]).None? && Free(s.levels, p) && p.k < 8
    && var kv, x, path := s.pc[t].kv, s.pc[t].x, Tried(s.pc[t].path, s.pc[t].st);
    && m.pc == Placing(kv, x, path) && e == EntryOf(Carried(kv, path))
    && p == SlotPos(s.levels, s.bm, HashAt(kv, x, path, |path|), p.k)
  }

  // Which of the three it is, if the step writes; otherwise the thread moves
  // what it moved before.
  ghost predicate KindOk(s: State, t: Tid, m: Move)
    requires t in s.pc && |s.levels| == 2
  {
    match m.ch
    case Put(p, e) => FoundPut(s, t, m, p, e) || ClearPut(s, t, m, p, e) || PlacePut(s, t, m, p, e)
    case _ => Moving(m.pc) == Moving(s.pc[t])
  }

  lemma PutKinds(s: State, s2: State, t: Tid, act: Act)
    requires StateInv(s) && Step(s, s2, t, act) && |s.levels| == 2
    ensures KindOk(s, t, MoveOf(s, t, act).value)
  {
    hide StateInv, Locks.Step, Changed, LookMove, SeekMove, UnwindMove, KindOk, Sound, PhaseOk, Knows, DispKnows;
    if s.pc[t].Look? && act != Go {
      LookKind(s, t, act);
    } else if s.pc[t].Disp? {
      InvParts(s);
      assert Knows(s.pc[t], s.levels, s.bm, s.phase);
      DispKind(s, t, act);
    } else {
      OtherKind(s, t, act);
    }
  }

  lemma OtherKind(s: State, t: Tid, act: Act)
    requires t in s.pc && |s.levels| == 2 && MoveOf(s, t, act).Some?
    requires !s.pc[t].Disp? && !(s.pc[t].Look? && act != Go)
    ensures KindOk(s, t, MoveOf(s, t, act).value)
  {
    hide FoundPut, ClearPut, PlacePut, Lo, Hi;
  }

  lemma LookKind(s: State, t: Tid, act: Act)
    requires t in s.pc && |s.levels| == 2 && s.pc[t].Look? && act != Go && MoveOf(s, t, act).Some?
    ensures KindOk(s, t, MoveOf(s, t, act).value)
  {
    hide FoundPut, ClearPut, PlacePut, SlotLacks, SlotPos, Hash2;
    if act.Found? {
      FoundKind(s, t, act.k);
    }
  }

  lemma DispKind(s: State, t: Tid, act: Act)
    requires t in s.pc && |s.levels| == 2 && s.pc[t].Disp? && MoveOf(s, t, act).Some?
    requires Knows(s.pc[t], s.levels, s.bm, s.phase)
    ensures KindOk(s, t, MoveOf(s, t, act).value)
  {
    hide FoundPut, HashAt, Absent, HasCopy, HopsOk, SlotPos, Dest, Carried, Placing, Stripe;
    var kv, x, path, st := s.pc[t].kv, s.pc[t].x, s.pc[t].path, s.pc[t].st;
    if act == Go {
      if st.Cleared? {
        LastSlot(s.levels, s.bm, kv, x, path, |path| - 1);
      }
    } else if act.UseFree? {
      SlotPosK(s.levels, s.bm, HashAt(kv, x, path, |path|), act.k);
    }
    PlacingMoves(kv, x, path);
    PlacingMoves(kv, x, Front(path));
  }

  lemma PlacingMoves(kv: Kv, x: nat, path: seq<Hop>)
    ensures Moving(Placing(kv, x, path)) == if path == [] then None else Some(path[|path| - 1].v.key)
  {
  }

  lemma FoundKind(s: State, t: Tid, k: nat)
    requires t in s.pc && |s.levels| == 2 && s.pc[t].Look? && MoveOf(s, t, Found(k)).Some?
    ensures var m := MoveOf(s, t, Found(k)).value; m.ch.Put? ==> FoundPut(s, t, m, m.ch.p, m.ch.e)
  {
    hide SlotPos;
    var op := s.pc[t].op;
    var p := SlotPos(s.levels, s.bm, Hash2(KeyOf(op), s.pc[t].x), k);
    BothHeld(op);
    assert Holds(s.levels, p, At(s.levels, p).ptr.value);
  }

  // An object that is placed is nowhere else, or in one other stripe, where
  // the same thread is about to clear it.
  lemma PlacedOnce(s: State, t: Tid, m: Move, p: Pos, e: Entry, q: Pos, w: Kv)
    requires StateInv(s) && t in s.pc && |s.levels| == 2 && PlacePut(s, t, m, p, e)
    requires Holds(s.levels, q, w) && w.key == e.ptr.value.key
    ensures Stripe(q.j) != Stripe(p.j) && Moving(m.pc) == Some(w.key) && w == e.ptr.value
  {
    hide StateInv, Sound, HashAt, SlotPos, Held, Absent, Both, Dest, Holds, Free, Knows;
    InvParts(s);
    var kv, x, path := s.pc[t].kv, s.pc[t].x, Tried(s.pc[t].path, s.pc[t].st);
    SlotOk(s.levels, s.bm, HashAt(kv, x, path, |path|), p.k);
    if path == [] {
      NewAbsent(s, t, q, w);
    } else {
      var hop := path[|path| - 1];
      LastHash(kv, x, path);
      PlacedHeld(s, t);
      Unique(s, t, hop.v.key, q, w, hop.c, hop.v);
    }
  }

  lemma NewAbsent(s: State, t: Tid, q: Pos, w: Kv)
    requires StateInv(s) && t in s.pc && s.pc[t].Disp? && Holds(s.levels, q, w)
    ensures w.key != s.pc[t].kv.key
  {
    hide Sound, PhaseOk, Locks.Inv, OnePerStripe, Copies, OneMover, WorkersApart, HopsOk, HasCopy, Free;
    InvParts(s);
    assert Knows(s.pc[t], s.levels, s.bm, s.phase);
  }

  // Whoever places an object another frame handed down holds both its stripes.
  lemma PlacedHeld(s: State, t: Tid)
    requires StateInv(s) && t in s.pc && s.pc[t].Disp? && |s.levels| == 2
    requires Tried(s.pc[t].path, s.pc[t].st) != []
    ensures var path := Tried(s.pc[t].path, s.pc[t].st); var hop := path[|path| - 1];
      Holds(s.levels, hop.c, hop.v) && Stripe(hop.c.j) != Dest(hop) && Both(hop.v.key) <= Held(s.pc[t])
  {
    hide Sound, PhaseOk, Locks.Inv, OnePerStripe, Copies, OneMover, WorkersApart, HashAt, SlotPos, Held, HasCopy, HopOk,
      Holds, Both;
    InvParts(s);
    var kv, x, st := s.pc[t].kv, s.pc[t].x, s.pc[t].st;
    var path := Tried(s.pc[t].path, st);
    var i := |path| - 1;
    assert Knows(s.pc[t], s.levels, s.bm, s.phase);
    assert path[i] == s.pc[t].path[i];
    assert HopOk(s.levels, s.bm, path[i], HashAt(kv, x, s.pc[t].path, i));
    HopStripes(s.levels, s.bm, path[i], HashAt(kv, x, s.pc[t].path, i));
    DispHeld(kv, x, s.pc[t].path, st, i);
    DispHeld(kv, x, s.pc[t].path, st, i + 1);
    NextHash(kv, x, s.pc[t].path, i);
  }

  lemma NextHash(kv: Kv, x: nat, path: seq<Hop>, i: nat)
    requires i < |path|
    ensures Stripe(HashAt(kv, x, path, i + 1)) == Dest(path[i])
  {
  }

  // ---- the invariant of the tables ----

  ghost predicate HasKey(levels: seq<Level>, p: Pos, key: Key) {
    exists v :: Holds(levels, p, v) && v.key == key
  }

  // Two places of a key, one in either stripe.
  ghost predicate TwoPlaces(levels: seq<Level>, i: nat, j: nat, key: Key) {
    exists a: Pos, b: Pos ::
      HasKey(levels, a, key) && HasKey(levels, b, key) && a != b && Stripe(a.j) == i && Stripe(b.j) == j
  }

  // Two places of a key in s2 come from two places in s, in the same stripes.
  ghost predicate Comes(s: State, s2: State) {
    forall p, q, v, w :: Holds(s2.levels, p, v) && Holds(s2.levels, q, w) && v.key == w.key && p != q ==>
      TwoPlaces(s.levels, Stripe(p.j), Stripe(q.j), v.key)
  }

  lemma KeepComes(s: State, s2: State)
    requires forall p, v :: Holds(s2.levels, p, v) ==> HasKey(s.levels, p, v.key)
    ensures Comes(s, s2)
  {
    hide HasKey;
  }

  lemma PutComes(s: State, s2: State, t: Tid, m: Move, p: Pos, e: Entry)
    requires t in s.pc && |s.levels| == 2 && Changed(s, s2, Put(p, e)) && (FoundPut(s, t, m, p, e) || ClearPut(s, t, m, p, e))
    ensures Comes(s, s2)
  {
    hide Held;
    forall q, w | Holds(s2.levels, q, w) ensures HasKey(s.levels, q, w.key) {
      PutHolds(s.levels, p, e, q, w);
    }
    KeepComes(s, s2);
  }

  lemma MigrateComes(s: State, s2: State, l: nat)
    requires Changed(s, s2, Migrate(l)) && CanMove(s.levels, s.bm, s.phase.src, l)
    ensures Comes(s, s2)
  {
    hide CanMove, Migrated, NewPlace, Holds;
    forall p, q, v, w | Holds(s2.levels, p, v) && Holds(s2.levels, q, w) && v.key == w.key && p != q
      ensures TwoPlaces(s.levels, Stripe(p.j), Stripe(q.j), v.key)
    {
      var a := CameFrom(s, s2, l, p, v);
      var b := CameFrom(s, s2, l, q, w);
      assert HasKey(s.levels, a, v.key) && HasKey(s.levels, b, v.key);
    }
  }

  lemma CameFrom(s: State, s2: State, l: nat, q: Pos, v: Kv) returns (p: Pos)
    requires Changed(s, s2, Migrate(l)) && CanMove(s.levels, s.bm, s.phase.src, l) && Holds(s2.levels, q, v)
    ensures Holds(s.levels, p, v) && Stripe(p.j) == Stripe(q.j) && s.phase.src < 2
    ensures q == NewPlace(s.levels, s.phase.src, l, p, v)
    ensures forall w :: Holds(s.levels, p, w) ==> w == v
  {
    hide CanMove, NewPlace;
    p := MigratedFrom(s.levels, s.bm, s.phase.src, l, s2.levels, q);
  }

  lemma ResizeComes(s: State, s2: State, ch: Change)
    requires Sound(s.levels, s.bm) && PhaseOk(s.phase, s.levels, s.bm) && Changed(s, s2, ch) && ChangeOk(s, ch)
    requires !ch.Put? && !ch.Migrate?
    ensures forall p, v :: Holds(s2.levels, p, v) <==> Holds(s.levels, p, v)
    ensures Comes(s, s2)
  {
    hide Sound, PhaseOk;
    forall p, v ensures Holds(s2.levels, p, v) <==> Holds(s.levels, p, v) {
      if ch.Grow? {
        GrowHolds(s, s2, p, v);
      } else if ch.Shrink? {
        ShrinkHolds(s, s2, p, v);
      }
    }
    KeepComes(s, s2);
  }

  // All steps but the placing of an object.
  lemma StepComes(s: State, s2: State, t: Tid, act: Act)
    requires StateInv(s) && Step(s, s2, t, act) && |s.levels| == 2
    requires var m := MoveOf(s, t, act).value; m.ch.Put? ==> !PlacePut(s, t, m, m.ch.p, m.ch.e)
    ensures Comes(s, s2)
  {
    hide StateInv, MoveOf, Sound, PhaseOk, FoundPut, ClearPut, PlacePut, ChangeOk, Held, Touches, Comes, Locks.Step;
    InvParts(s);
    StepChange(s, s2, t, act);
    PutKinds(s, s2, t, act);
    var m := MoveOf(s, t, act).value;
    match m.ch {
      case Put(p, e) => PutComes(s, s2, t, m, p, e);
      case Migrate(l) =>
        MigratePending(s, l);
        MigrateSound(s, s2, l);
        MigrateComes(s, s2, l);
      case _ => ResizeComes(s, s2, m.ch);
    }
  }

  lemma MigratePending(s: State, l: nat)
    requires |s.levels| == 2 && ChangeOk(s, Migrate(l))
    ensures s.phase.Growing? && l in s.phase.pending
  {
  }

  lemma StepOnePerStripe(s: State, s2: State, t: Tid, act: Act)
    requires StateInv(s) && Step(s, s2, t, act) && |s.levels| == 2
    ensures OnePerStripe(s2.levels)
  {
    hide Sound, PhaseOk, MoveOf, Copies, OneMover, WorkersApart, Locks.Inv, Knows, Locks.Step, PlacePut;
    var m := MoveOf(s, t, act).value;
    if m.ch.Put? && PlacePut(s, t, m, m.ch.p, m.ch.e) {
      PlaceOnePerStripe(s, s2, t, m, m.ch.p, m.ch.e);
    } else {
      StepComes(s, s2, t, act);
      ComesOnePerStripe(s, s2);
    }
  }

  lemma ComesOnePerStripe(s: State, s2: State)
    requires OnePerStripe(s.levels) && Comes(s, s2)
    ensures OnePerStripe(s2.levels)
  {
    hide Holds;
    forall p, q, v, w | Holds(s2.levels, p, v) && Holds(s2.levels, q, w) && v.key == w.key && Stripe(p.j) == Stripe(q.j)
      ensures p == q
    {
      assert p != q ==> TwoPlaces(s.levels, Stripe(p.j), Stripe(q.j), v.key);
    }
  }

  lemma PlaceOnePerStripe(s: State, s2: State, t: Tid, m: Move, p: Pos, e: Entry)
    requires StateInv(s) && t in s.pc && |s.levels| == 2 && PlacePut(s, t, m, p, e) && Changed(s, s2, Put(p, e))
    ensures OnePerStripe(s2.levels)
  {
    hide StateInv, Holds, PlacePut, Changed;
    forall a, b, v, w | Holds(s2.levels, a, v) && Holds(s2.levels, b, w) && v.key == w.key && Stripe(a.j) == Stripe(b.j)
      ensures a == b
    {
      PlacePair(s, s2, t, m, p, e, a, b, v, w);
    }
  }

  lemma PlacePair(s: State, s2: State, t: Tid, m: Move, p: Pos, e: Entry, a: Pos, b: Pos, v: Kv, w: Kv)
    requires StateInv(s) && t in s.pc && |s.levels| == 2 && PlacePut(s, t, m, p, e) && Changed(s, s2, Put(p, e))
    requires Holds(s2.levels, a, v) && Holds(s2.levels, b, w) && v.key == w.key && Stripe(a.j) == Stripe(b.j)
    ensures a == b
  {
    hide Sound, PhaseOk, Copies, OneMover, WorkersApart, Locks.Inv, Knows, PlacePut, Holds, Moving;
    PutHolds(s.levels, p, e, a, v);
    PutHolds(s.levels, p, e, b, w);
    if a == p && b != p {
      PlacedOnce(s, t, m, p, e, b, w);
    } else if a != p && b == p {
      PlacedOnce(s, t, m, p, e, a, v);
    }
  }

  // Who moves what after a step.
  lemma MoverStays(s: State, s2: State, t: Tid, act: Act, key: Key)
    requires Step(s, s2, t, act) && InTransit(s, key)
    requires Moving(s.pc[t]) == Some(key) ==> Moving(s2.pc[t]) == Some(key)
    ensures InTransit(s2, key)
  {
    hide MoveOf, Changed, Locks.Step, Moving;
    var u :| u in s.pc && Moving(s.pc[u]) == Some(key);
    assert Moving(s2.pc[u]) == Some(key);
  }

  lemma StepCopies(s: State, s2: State, t: Tid, act: Act)
    requires StateInv(s) && Step(s, s2, t, act) && |s.levels| == 2
    ensures Copies(s2)
  {
    hide StateInv, Step, Holds, InTransit;
    forall p, q, v, w | Holds(s2.levels, p, v) && Holds(s2.levels, q, w) && v.key == w.key && p != q
      ensures InTransit(s2, v.key)
    {
      CopiesPair(s, s2, t, act, p, q, v, w);
    }
  }

  lemma CopiesPair(s: State, s2: State, t: Tid, act: Act, p: Pos, q: Pos, v: Kv, w: Kv)
    requires StateInv(s) && Step(s, s2, t, act) && |s.levels| == 2
    requires Holds(s2.levels, p, v) && Holds(s2.levels, q, w) && v.key == w.key && p != q
    ensures InTransit(s2, v.key)
  {
    hide StateInv, MoveOf, Locks.Step, PlacePut, ClearPut, Moving, FoundPut, Changed, TwoPlaces, Comes, InTransit;
    var m := MoveOf(s, t, act).value;
    PutKinds(s, s2, t, act);
    if m.ch.Put? && PlacePut(s, t, m, m.ch.p, m.ch.e) {
      PlaceCopies(s, s2, t, act, p, q, v, w);
    } else {
      StepComes(s, s2, t, act);
      WasInTransit(s, s2, p, q, v, w);
      if m.ch.Put? && ClearPut(s, t, m, m.ch.p, m.ch.e) && Moving(s.pc[t]) == Some(v.key) {
        ClearsEmpty(s, t, m, m.ch.p, m.ch.e);
        ClearedOnce(s, s2, t, m, m.ch.p, p, q, v, w);
      } else {
        KindMoving(s, t, m, v.key);
        MoverStays(s, s2, t, act, v.key);
      }
    }
  }

  lemma ClearsEmpty(s: State, t: Tid, m: Move, p: Pos, e: Entry)
    requires t in s.pc && ClearPut(s, t, m, p, e)
    ensures e == EMPTY
  {
  }

  lemma WasInTransit(s: State, s2: State, p: Pos, q: Pos, v: Kv, w: Kv)
    requires StateInv(s) && Comes(s, s2)
    requires Holds(s2.levels, p, v) && Holds(s2.levels, q, w) && v.key == w.key && p != q
    ensures InTransit(s, v.key)
  {
    hide Sound, PhaseOk, OnePerStripe, OneMover, WorkersApart, Locks.Inv, Knows, Holds, InTransit;
    assert TwoPlaces(s.levels, Stripe(p.j), Stripe(q.j), v.key);
  }

  lemma KindMoving(s: State, t: Tid, m: Move, key: Key)
    requires t in s.pc && |s.levels| == 2
    requires m.ch.Put? ==>
      FoundPut(s, t, m, m.ch.p, m.ch.e) || (ClearPut(s, t, m, m.ch.p, m.ch.e) && Moving(s.pc[t]) != Some(key))
    requires !m.ch.Put? ==> Moving(m.pc) == Moving(s.pc[t])
    ensures Moving(s.pc[t]) == Some(key) ==> Moving(m.pc) == Some(key)
  {
  }

  lemma PlaceCopies(s: State, s2: State, t: Tid, act: Act, p: Pos, q: Pos, v: Kv, w: Kv)
    requires StateInv(s) && Step(s, s2, t, act) && |s.levels| == 2
    requires var m := MoveOf(s, t, act).value; m.ch.Put? && PlacePut(s, t, m, m.ch.p, m.ch.e)
    requires Holds(s2.levels, p, v) && Holds(s2.levels, q, w) && v.key == w.key && p != q
    ensures InTransit(s2, v.key)
  {
    hide Sound, PhaseOk, MoveOf, OneMover, OnePerStripe, WorkersApart, Locks.Inv, Knows, Locks.Step, Moving;
    var m := MoveOf(s, t, act).value;
    var a, e := m.ch.p, m.ch.e;
    PutHolds(s.levels, a, e, p, v);
    PutHolds(s.levels, a, e, q, w);
    assert s2.pc[t] == m.pc;
    if p == a {
      PlacedOnce(s, t, m, a, e, q, w);
    } else if q == a {
      PlacedOnce(s, t, m, a, e, p, v);
    } else {
      assert InTransit(s, v.key);
      MoverStays(s, s2, t, act, v.key);
    }
  }

  // Once the old copy is gone the moved object is in one place.
  lemma ClearedOnce(s: State, s2: State, t: Tid, m: Move, c: Pos, p: Pos, q: Pos, v: Kv, w: Kv)
    requires StateInv(s) && t in s.pc && ClearPut(s, t, m, c, EMPTY) && Changed(s, s2, Put(c, EMPTY))
    requires Moving(s.pc[t]) == Some(v.key) && Holds(s2.levels, p, v) && Holds(s2.levels, q, w) && v.key == w.key
    ensures p == q
  {
    hide Sound, PhaseOk, Copies, OneMover, WorkersApart, Locks.Inv, Knows;
    PutHolds(s.levels, c, EMPTY, p, v);
    PutHolds(s.levels, c, EMPTY, q, w);
    MovedPlaces(s, t, v.key, p, v);
    MovedPlaces(s, t, v.key, q, w);
  }

  lemma StepOneMover(s: State, s2: State, t: Tid, act: Act)
    requires StateInv(s) && Step(s, s2, t, act) && |s.levels| == 2
    ensures OneMover(s2)
  {
    hide Sound, PhaseOk, MoveOf, OnePerStripe, Copies, WorkersApart, Locks.Inv, Locks.Step, Changed, Held, Knows, Moving,
      PlacePut;
    var m := MoveOf(s, t, act).value;
    PutKinds(s, s2, t, act);
    forall u | u in s2.pc && u != t && Moving(m.pc).Some? ensures Moving(s2.pc[u]) != Moving(m.pc) {
      if m.ch.Put? && PlacePut(s, t, m, m.ch.p, m.ch.e) {
        PlaceOneMover(s, t, m, m.ch.p, m.ch.e, u);
      } else {
        NoNewMover(s, t, m);
      }
    }
  }

  lemma NoNewMover(s: State, t: Tid, m: Move)
    requires t in s.pc && |s.levels| == 2
    requires if m.ch.Put? then FoundPut(s, t, m, m.ch.p, m.ch.e) || ClearPut(s, t, m, m.ch.p, m.ch.e)
             else Moving(m.pc) == Moving(s.pc[t])
    ensures Moving(m.pc).Some? ==> Moving(m.pc) == Moving(s.pc[t])
  {
  }

  lemma PlaceOneMover(s: State, t: Tid, m: Move, p: Pos, e: Entry, u: Tid)
    requires StateInv(s) && t in s.pc && |s.levels| == 2 && PlacePut(s, t, m, p, e) && u in s.pc && u != t
    ensures Moving(m.pc).Some? ==> Moving(s.pc[u]) != Moving(m.pc)
  {
    hide Sound, PhaseOk, OnePerStripe, Copies, OneMover, WorkersApart, Locks.Inv, Held, Knows, HashAt, SlotPos;
    InvParts(s);
    if Tried(s.pc[t].path, s.pc[t].st) != [] {
      PlacedHeld(s, t);
      var path := Tried(s.pc[t].path, s.pc[t].st);
      NoOtherMover(s, t, u, path[|path| - 1].v.key);
    }
  }

  // ---- the other threads ----

  // What lay at a place a step writes to: nothing, or an object whose stripes
  // the thread holds, or the one it moves.
  lemma OverWhat(s: State, s2: State, t: Tid, act: Act, q: Pos, v: Kv)
    requires StateInv(s) && Step(s, s2, t, act) && |s.levels| == 2
    requires var m := MoveOf(s, t, act).value; m.ch.Put? && m.ch.p == q && Holds(s.levels, q, v)
    ensures Both(v.key) <= Held(s.pc[t]) || Moving(s.pc[t]) == Some(v.key)
  {
    hide Sound, PhaseOk, MoveOf, OnePerStripe, Copies, OneMover, WorkersApart, Locks.Inv, Locks.Step, Changed, Held, HopOk,
      HashAt, Absent;
    PutKinds(s, s2, t, act);
    assert Knows(s.pc[t], s.levels, s.bm, s.phase);
  }

  // The second place of a moved object stays, whatever other threads do.
  lemma CopyStays(s: State, s2: State, t: Tid, act: Act, u: Tid)
    requires StateInv(s) && Step(s, s2, t, act) && |s.levels| == 2 && u in s.pc && u != t && Moving(s.pc[u]).Some?
    ensures s.pc[u].path != [] && HasCopy(s2.levels, s.pc[u].path[|s.pc[u].path| - 1])
  {
    hide StateInv, Step, Moving, Held, Sound, Holds, HasCopy, Both;
    InvParts(s);
    var key := Moving(s.pc[u]).value;
    var c, v, d := MoverHolds(s, u, key);
    var q: Pos :| Stripe(q.j) == d && Holds(s.levels, q, v);
    var q2 := PlaceStays(s, s2, t, act, u, key, q, v);
    MovingPath(s.pc[u]);
    CopyAt(s2.levels, s.pc[u].path[|s.pc[u].path| - 1], q2);
  }

  lemma CopyAt(levels: seq<Level>, hop: Hop, q: Pos)
    requires Holds(levels, q, hop.v) && Stripe(q.j) == Dest(hop)
    ensures HasCopy(levels, hop)
  {
  }

  lemma PlaceStays(s: State, s2: State, t: Tid, act: Act, u: Tid, key: Key, q: Pos, v: Kv) returns (q2: Pos)
    requires StateInv(s) && Step(s, s2, t, act) && |s.levels| == 2 && u in s.pc && u != t && Moving(s.pc[u]) == Some(key)
    requires Holds(s.levels, q, v) && v.key == key
    ensures Holds(s2.levels, q2, v) && Stripe(q2.j) == Stripe(q.j)
  {
    hide StateInv, MoveOf, Sound, PhaseOk, Held, Touches, Locks.Step, ChangeOk, Knows, Moving;
    InvParts(s);
    StepChange(s, s2, t, act);
    var m := MoveOf(s, t, act).value;
    q2 := q;
    match m.ch {
      case Put(p, e) =>
        PutHolds(s.levels, p, e, q, v);
        if p == q {
          OverWhat(s, s2, t, act, q, v);
          NotBoth(s, t, u, key);
          assert false;
        }
      case Migrate(l) => q2 := MigrateStays(s, s2, l, q, v);
      case _ => ResizeComes(s, s2, m.ch);
    }
  }

  lemma NotBoth(s: State, t: Tid, u: Tid, key: Key)
    requires StateInv(s) && t in s.pc && u in s.pc && u != t && Moving(s.pc[u]) == Some(key)
    ensures !(Both(key) <= Held(s.pc[t])) && Moving(s.pc[t]) != Some(key)
  {
    hide Sound, PhaseOk, OnePerStripe, Copies, WorkersApart, Locks.Inv, Held, Knows, Moving, Both;
    InvParts(s);
    if Both(key) <= Held(s.pc[t]) {
      NoOtherMover(s, t, u, key);
    }
  }

  lemma MigrateStays(s: State, s2: State, l: nat, q: Pos, v: Kv) returns (q2: Pos)
    requires Sound(s.levels, s.bm) && PhaseOk(s.phase, s.levels, s.bm) && Changed(s, s2, Migrate(l))
    requires |s.levels| == 2 && ChangeOk(s, Migrate(l)) && Holds(s.levels, q, v)
    ensures Holds(s2.levels, q2, v) && Stripe(q2.j) == Stripe(q.j)
  {
    hide Sound, PhaseOk, Migrated, NewPlace;
    MigrateSound(s, s2, l);
    q2 := NewPlace(s.levels, s.phase.src, l, q, v);
    MigratedTo(s.levels, s.bm, s.phase.src, l, s2.levels, q);
  }

  lemma HeldStripe(s: State, u: Tid, l: nat)
    requires Locks.Inv(LocksOf(s)) && u in s.pc && l in Held(s.pc[u])
    ensures l < NR_STRIPES
  {
    PcOf(s, u);
    HeldBelow(LockPc(s.pc[u]), l, s.pc[u]);
  }

  lemma HeldBelow(lp: Locks.Pc, l: nat, pc: Pc)
    requires Locks.PcOk(lp) && l in Locks.Held(lp) && lp == LockPc(pc)
    ensures l < NR_STRIPES
  {
    if pc.Disp? && l !in {lp.lo, lp.hi} {
      var ds := Dests(Tried(pc.path, pc.st));
      var i :| 0 <= i < |ds| && ds[i] == l;
    }
  }

  lemma OthersSame(s: State, s2: State, t: Tid, act: Act, u: Tid, l: nat)
    requires StateInv(s) && Step(s, s2, t, act) && |s.levels| == 2 && u in s.pc && u != t && l in Held(s.pc[u])
    ensures SameStripe(s.levels, s.bm, s2.levels, s2.bm, l)
  {
    hide StateInv, MoveOf, Sound, PhaseOk, Held, Touches, Locks.Step, Knows, SameStripe;
    InvParts(s);
    StepChange(s, s2, t, act);
    HeldStripe(s, u, l);
    var m := MoveOf(s, t, act).value;
    if l in Held(s.pc[t]) {
      Exclusive(s, t, u, l);
    }
    ShrinkOk(s, m.ch);
    ChangeSame(s, s2, m.ch, l);
  }

  lemma ShrinkOk(s: State, ch: Change)
    requires |s.levels| == 2 && ChangeOk(s, ch)
    ensures ch.Shrink? ==> s.phase.Growing? && s.phase.uniq >= NR_STRIPES && s.phase.pending == {}
  {
  }

  // What another thread knows is still true.
  lemma StepOther(s: State, s2: State, t: Tid, act: Act, u: Tid)
    requires StateInv(s) && Step(s, s2, t, act) && |s.levels| == 2 && |s2.levels| == 2 && u in s.pc && u != t
    ensures u in s2.pc && s2.pc[u] == s.pc[u] && Knows(s2.pc[u], s2.levels, s2.bm, s2.phase)
  {
    hide StateInv, MoveOf, Sound, PhaseOk, Held, Touches, Locks.Step, SameStripe, Changed, ChangeOk, Moving, HasCopy, Knows;
    InvParts(s);
    StepChange(s, s2, t, act);
    if Worker(s.pc[u]) {
      WorkerOther(s, s2, t, act, u);
    } else {
      forall l | l in Held(s.pc[u]) ensures SameStripe(s.levels, s.bm, s2.levels, s2.bm, l) {
        OthersSame(s, s2, t, act, u, l);
      }
      if Moving(s.pc[u]).Some? {
        CopyStays(s, s2, t, act, u);
        MovingPath(s.pc[u]);
      }
      KnowsStable(s.pc[u], s, s2);
    }
  }

  lemma MovingPath(pc: Pc)
    requires Moving(pc).Some?
    ensures pc.Disp? && pc.path != []
  {
  }

  // ---- workers ----

  // Two workers are in different words, so they move different stripes.
  lemma WordsDiffer(s: State, t: Tid, u: Tid, l: nat, m: nat)
    requires StateInv(s) && t in s.pc && u in s.pc && t != u && Worker(s.pc[t]) && Worker(s.pc[u])
    requires (l == s.pc[t].l || Remaining(s.pc[t], l)) && (m == s.pc[u].l || Remaining(s.pc[u], m))
    ensures WordOf(l) != WordOf(m)
  {
    hide Sound, PhaseOk, OnePerStripe, Copies, OneMover, Locks.Inv;
    SoundTwo(s.levels, s.bm);
    assert Knows(s.pc[t], s.levels, s.bm, s.phase) && Knows(s.pc[u], s.levels, s.bm, s.phase);
    InWord(l, s.pc[t].end);
    InWord(m, s.pc[u].end);
  }

  lemma InWord(l: nat, end: nat)
    requires end % 64 == 0 && end - 64 <= l < end
    ensures WordOf(l) * 64 + 64 == end
  {
  }

  lemma WorkerOther(s: State, s2: State, t: Tid, act: Act, u: Tid)
    requires StateInv(s) && Step(s, s2, t, act) && |s.levels| == 2 && |s2.levels| == 2 && u in s.pc && u != t
    requires Worker(s.pc[u])
    ensures u in s2.pc && s2.pc[u] == s.pc[u] && Knows(s2.pc[u], s2.levels, s2.bm, s2.phase)
  {
    hide Sound, PhaseOk, OnePerStripe, Copies, OneMover, Locks.Inv, WorkersApart, Locks.Step, MoveOf, Remaining, Migrated;
    assert Knows(s.pc[u], s.levels, s.bm, s.phase);
    var m := MoveOf(s, t, act).value;
    if m.ch.Migrate? {
      MigratorPc(s, t, act);
      forall l: nat | Remaining(s.pc[u], l) ensures l != m.ch.l {
        WordsDiffer(s, t, u, m.ch.l, l);
      }
    }
  }

  lemma MigratorPc(s: State, t: Tid, act: Act)
    requires t in s.pc && MoveOf(s, t, act).Some? && MoveOf(s, t, act).value.ch.Migrate?
    ensures s.pc[t].WorkerHold? && s.pc[t].l == MoveOf(s, t, act).value.ch.l
    ensures MoveOf(s, t, act).value.pc == WorkerMoved(s.pc[t].l, s.pc[t].end)
  {
  }

  // How a thread becomes a worker, and how a worker goes on.
  lemma WorkerNext(s: State, t: Tid, act: Act)
    requires t in s.pc && MoveOf(s, t, act).Some?
    ensures var pc, m := s.pc[t], MoveOf(s, t, act).value;
      && (m.ch.Claim? <==> act == ClaimWord)
      && (m.ch.Claim? ==> s.phase.Growing? && s.phase.uniq < NR_STRIPES && m.pc == WorkerWant(s.phase.uniq, s.phase.uniq + 64))
      && (Worker(m.pc) && !Worker(pc) ==> m.ch.Claim?)
      && (Worker(pc) ==> m.ch.Keep? || m.ch == Migrate(pc.l))
      && (Worker(pc) && Worker(m.pc) ==> m.pc.end == pc.end && pc.l <= m.pc.l && (pc.l < pc.end ==> m.pc.l < pc.end))
      && (forall l: nat :: Remaining(pc, l) ==> Remaining(m.pc, l) || m.ch == Migrate(l))
      && (forall l: nat :: Worker(pc) && Remaining(m.pc, l) ==> Remaining(pc, l) && m.ch != Migrate(l))
  {
    hide SlotLacks, HashAt, Carried, SlotPos, Dest, Lo, Hi, LookMove, SeekMove, UnwindMove;
    LookNoWorker(s, t, act);
  }

  lemma LookNoWorker(s: State, t: Tid, act: Act)
    requires t in s.pc && |s.levels| == 2 && MoveOf(s, t, act).Some?
    ensures var m := MoveOf(s, t, act).value;
      s.pc[t].Look? || s.pc[t].Disp? ==> !Worker(m.pc) && (m.ch.Keep? || m.ch.Put?) && act != ClaimWord
  {
    hide SlotLacks, HashAt, Carried, SlotPos, Dest;
  }

  lemma WorkerSelf(s: State, s2: State, t: Tid, act: Act)
    requires StateInv(s) && Step(s, s2, t, act) && |s.levels| == 2 && |s2.levels| == 2
    requires Worker(s2.pc[t])
    ensures Knows(s2.pc[t], s2.levels, s2.bm, s2.phase)
  {
    hide StateInv, Sound, PhaseOk, Locks.Step, Migrated, MoveOf, Remaining, WordOf;
    InvParts(s);
    assert Knows(s.pc[t], s.levels, s.bm, s.phase);
    WorkerNext(s, t, act);
    if act == ClaimWord {
      NewWord(s, s2, t);
    }
  }

  lemma NewWord(s: State, s2: State, t: Tid)
    requires PhaseOk(s.phase, s.levels, s.bm) && Changed(s, s2, Claim) && s.phase.uniq < NR_STRIPES
    requires |s2.levels| == 2
    ensures Knows(WorkerWant(s.phase.uniq, s.phase.uniq + 64), s2.levels, s2.bm, s2.phase)
  {
    var pc := WorkerWant(s.phase.uniq, s.phase.uniq + 64);
    forall l: nat | Remaining(pc, l) ensures l in Chunk(s.phase.uniq) {
    }
  }

  lemma StepEnds(s: State, s2: State, t: Tid, act: Act)
    requires StateInv(s) && Step(s, s2, t, act) && |s.levels| == 2
    ensures EndsDiffer(s2)
  {
    hide StateInv, Sound, PhaseOk, Locks.Step, Changed, MoveOf, Remaining;
    WorkerNext(s, t, act);
    EndsApart(s);
    forall u | u in s.pc && Worker(s.pc[u]) && s.phase.Growing? ensures s.pc[u].end <= s.phase.uniq {
      EndBelow(s, u);
    }
  }

  lemma EndsApart(s: State)
    requires StateInv(s)
    ensures EndsDiffer(s)
  {
    hide Sound, PhaseOk, Locks.Inv, OnePerStripe, Copies, OneMover, Knows, Remaining;
  }

  lemma EndBelow(s: State, u: Tid)
    requires StateInv(s) && u in s.pc && Worker(s.pc[u])
    ensures s.phase.Growing? && s.pc[u].end <= s.phase.uniq
  {
    hide StateInv, Remaining;
    InvParts(s);
    assert Knows(s.pc[u], s.levels, s.bm, s.phase);
  }

  lemma StepClaimed(s: State, s2: State, t: Tid, act: Act, l: nat)
    requires StateInv(s) && Step(s, s2, t, act) && |s.levels| == 2 && s2.phase.Growing? && l in s2.phase.pending
    ensures exists u :: u in s2.pc && Remaining(s2.pc[u], l)
  {
    hide StateInv, Sound, PhaseOk, Locks.Step, MoveOf, Remaining, Migrated;
    var m := MoveOf(s, t, act).value;
    WorkerNext(s, t, act);
    if s.phase.Growing? && l in s.phase.pending {
      var u := Claimer(s, l);
      assert Remaining(s2.pc[u], l);
    } else {
      assert l in Chunk(s.phase.uniq);
      NewRemaining(s.phase.uniq, l);
      assert Remaining(s2.pc[t], l);
    }
  }

  lemma Claimer(s: State, l: nat) returns (u: Tid)
    requires StateInv(s) && s.phase.Growing? && l in s.phase.pending
    ensures u in s.pc && Remaining(s.pc[u], l)
  {
    hide Sound, PhaseOk, Locks.Inv, OnePerStripe, Copies, OneMover, Knows, Remaining;
    u :| u in s.pc && Remaining(s.pc[u], l);
  }

  lemma NewRemaining(uniq: nat, l: nat)
    requires l in Chunk(uniq)
    ensures Remaining(WorkerWant(uniq, uniq + 64), l)
  {
  }

  // ---- every step keeps the invariant ----

  lemma SameLockPc(s: State, t: Tid, act: Act)
    requires t in s.pc && MoveOf(s, t, act).Some? && MoveOf(s, t, act).value.lock.None?
    requires |s.levels| == 2 && (s.pc[t].Disp? && !s.pc[t].st.Scan? && !s.pc[t].st.Seek? ==> s.pc[t].path != [])
    requires s.pc[t].Disp? && s.pc[t].st.Scan? ==> s.pc[t].path == []
    ensures LockPc(MoveOf(s, t, act).value.pc) == LockPc(s.pc[t])
  {
    hide SlotLacks, HashAt, Carried, SlotPos, Lo, Hi;
  }

  lemma StepLocks(s: State, s2: State, t: Tid, act: Act)
    requires StateInv(s) && Step(s, s2, t, act) && |s.levels| == 2
    ensures Locks.Inv(LocksOf(s2))
  {
    hide Sound, PhaseOk, OnePerStripe, Copies, OneMover, WorkersApart, Locks.Inv, Locks.Step, MoveOf, LockPc, Changed, Absent,
      HopsOk, HasCopy, Free;
    var m := MoveOf(s, t, act).value;
    if m.lock.Some? {
      Locks.StepKeeps(LocksOf(s), LocksOf(s2), t, m.lock.value);
    } else {
      assert Knows(s.pc[t], s.levels, s.bm, s.phase);
      SameLockPc(s, t, act);
      assert LocksOf(s2) == LocksOf(s);
    }
  }

  lemma StepSelf(s: State, s2: State, t: Tid, act: Act)
    requires StateInv(s) && Step(s, s2, t, act) && |s.levels| == 2 && |s2.levels| == 2
    ensures Knows(s2.pc[t], s2.levels, s2.bm, s2.phase)
  {
    hide StateInv, Sound, PhaseOk, Locks.Step, Changed, DispKnows, WorkerKnows, Stands, SlotLacks, HashAt, Carried, SlotPos;
    if Worker(s2.pc[t]) {
      WorkerSelf(s, s2, t, act);
    } else if s.pc[t].Disp? {
      if act == Go {
        UnwindKnows(s, s2, t);
      } else {
        SeekKnows(s, s2, t, act);
      }
    } else if s.pc[t].Look? && act != Go {
      LookKnows(s, s2, t, act);
    }
  }

  // Every step keeps the invariant.
  lemma StepKeeps(s: State, s2: State, t: Tid, act: Act)
    requires StateInv(s) && Step(s, s2, t, act)
    ensures StateInv(s2)
  {
    hide Sound, PhaseOk, Locks.Inv, OnePerStripe, Copies, OneMover, Knows, Locks.Step, MoveOf, Changed, Worker, Remaining,
      ChangeOk, Touches;
    InvParts(s);
    StepChange(s, s2, t, act);
    SoundTwo(s2.levels, s2.bm);
    StepLocks(s, s2, t, act);
    StepOnePerStripe(s, s2, t, act);
    StepCopies(s, s2, t, act);
    StepOneMover(s, s2, t, act);
    StepEnds(s, s2, t, act);
    forall l | s2.phase.Growing? && l in s2.phase.pending ensures exists u :: u in s2.pc && Remaining(s2.pc[u], l) {
      StepClaimed(s, s2, t, act, l);
    }
    forall u | u in s2.pc ensures Knows(s2.pc[u], s2.levels, s2.bm, s2.phase) {
      if u == t {
        StepSelf(s, s2, t, act);
      } else {
        StepOther(s, s2, t, act, u);
      }
    }
  }
}
