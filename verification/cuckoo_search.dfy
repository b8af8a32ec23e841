// When a concurrent cuckoo_set may give up (lib1.c:4257-4326): what its search
// has met at some time or other, while other threads change the tables.

module CuckooSearch {
  import opened Option
  import opened KvApi
  import opened Pow2s
  import opened Bitmaps
  import opened Stripes
  import opened CuckooState
  import opened CuckooGrow
  import opened Cuckoos
  import opened CuckooSteps
  import opened CuckooStepInv
  import opened CuckooRuns
  import Locks = CuckooLocks

  // ---- no way out, met piece by piece ----

  // At some time between b and n some thread owned the stripe.
  ghost predicate Owned(run: seq<State>, b: nat, n: nat, l: nat)
    requires n < |run|
  {
    exists i :: b <= i <= n && l in run[i].owner
  }

  // At some time between b and n the slot of h was full, and each object then
  // in it was kept from leaving it in r moves.
  ghost predicate NoWay(run: seq<State>, b: nat, n: nat, h: nat, r: nat)
    requires n < |run|
    decreases r, 2
  {
    exists i :: b <= i <= n && Shut(run, b, n, run[i].levels, run[i].bm, h, r)
  }

  ghost predicate Shut(run: seq<State>, b: nat, n: nat, levels: seq<Level>, bm: Bitmap, h: nat, r: nat)
    requires n < |run|
    decreases r, 1
  {
    && SlotFull(levels, bm, h)
    && (r > 0 ==> forall k, y :: 0 <= k < 8 && 0 <= y < 2 ==> Kept(run, b, n, levels, bm, h, k, y, r))
  }

  // The object of entry k could not go to its slot number y: it would be under
  // the same stripe, or that stripe was owned, or there was no way into that
  // slot with one move less.
  ghost predicate Kept(run: seq<State>, b: nat, n: nat, levels: seq<Level>, bm: Bitmap, h: nat, k: nat, y: nat, r: nat)
    requires n < |run| && r > 0
    decreases r, 0
  {
    && |levels| == 2 && Live(levels, SlotPos(levels, bm, h, k))
    && Out(run, b, n, At(levels, SlotPos(levels, bm, h, k)).ptr.value.key, y, Stripe(h), r - 1)
  }

  ghost predicate Out(run: seq<State>, b: nat, n: nat, key: Key, y: nat, own: nat, r: nat)
    requires n < |run|
    decreases r, 3
  {
    var h := Hash2(key, y);
    Stripe(h) == own || Owned(run, b, n, Stripe(h)) || NoWay(run, b, n, h, r)
  }

  // ---- what a search has met so far ----

  // Everything before (k, y).
  ghost predicate Passed(run: seq<State>, b: nat, n: nat, levels: seq<Level>, bm: Bitmap, h: nat, k: nat, y: nat, r: nat)
    requires n < |run|
  {
    r > 0 ==> forall k2, y2 :: 0 <= k2 < 8 && 0 <= y2 < 2 && (k2 < k || (k2 == k && y2 < y)) ==>
      Kept(run, b, n, levels, bm, h, k2, y2, r)
  }

  // Each frame of the search has passed what is before its cursor.
  ghost predicate Met(run: seq<State>, b: nat, n: nat, levels: seq<Level>, bm: Bitmap, kv: Kv, x: nat, path: seq<Hop>, st: Stage)
    requires n < |run| && st.Seek?
  {
    && |path| <= st.d
    && (forall i {:trigger HashAt(kv, x, path, i)} ::
          0 <= i < |path| ==> Passed(run, b, n, levels, bm, HashAt(kv, x, path, i), path[i].c.k, path[i].x, st.d - i))
    && Passed(run, b, n, levels, bm, HashAt(kv, x, path, |path|), st.k, st.y, st.d - |path|)
    && (x > 0 ==> NoWay(run, b, n, Hash2(kv.key, 0), st.d))
  }

  // What a thread that sets has met.
  ghost predicate Searched(run: seq<State>, b: nat, n: nat, levels: seq<Level>, bm: Bitmap, pc: Pc)
    requires n < |run|
  {
    match pc
    case Disp(kv, x, path, st) => st.Seek? ==> Met(run, b, n, levels, bm, kv, x, path, st)
    case Done(op, r) =>
      op.Set? && r.None? ==>
        NoWay(run, b, n, Hash2(KeyOf(op), 0), LAST_DEPTH) && NoWay(run, b, n, Hash2(KeyOf(op), 1), LAST_DEPTH)
    case _ => true
  }

  lemma {:induction false} PassedMore(run: seq<State>, b: nat, n: nat, levels: seq<Level>, bm: Bitmap, h: nat, k: nat, y: nat, r: nat, d: nat)
    requires n < |run| && Passed(run, b, n, levels, bm, h, k, y, r) && y < 2
    requires r > 0 ==> Kept(run, b, n, levels, bm, h, k, y, r)
    ensures Passed(run, b, n, levels, bm, h, Following(d, k, y).k, Following(d, k, y).y, r)
  {
    hide Kept;
  }

  // A slot passed to its end was shut, at this very time.
  lemma {:induction false} AllPassed(run: seq<State>, b: nat, n: nat, i: nat, h: nat, k: nat, y: nat, r: nat)
    requires b <= i <= n < |run| && SlotFull(run[i].levels, run[i].bm, h)
    requires r > 0 ==> Passed(run, b, n, run[i].levels, run[i].bm, h, k, y, r) && k >= 8
    ensures NoWay(run, b, n, h, r)
  {
    hide Kept, SlotFull;
    assert Shut(run, b, n, run[i].levels, run[i].bm, h, r);
  }

  // ---- the steps of other threads ----

  // The objects of a slot whose stripe is not touched stay.
  lemma {:induction false} KeptStable(run: seq<State>, b: nat, n: nat, levels: seq<Level>, bm: Bitmap, l2: seq<Level>, bm2: Bitmap,
                   h: nat, k: nat, y: nat, r: nat)
    requires n < |run| && r > 0 && k < 8 && Sound(levels, bm) && Kept(run, b, n, levels, bm, h, k, y, r)
    requires SameStripe(levels, bm, l2, bm2, Stripe(h))
    ensures Kept(run, b, n, l2, bm2, h, k, y, r)
  {
    hide Sound, Out;
    SlotStable(levels, bm, l2, bm2, h, k);
    SameSizesOf(levels, bm, l2, bm2, Stripe(h));
    var v := At(levels, SlotPos(levels, bm, h, k)).ptr.value;
    assert Holds(levels, SlotPos(levels, bm, h, k), v);
  }

  lemma PassedStable(run: seq<State>, b: nat, n: nat, levels: seq<Level>, bm: Bitmap, l2: seq<Level>, bm2: Bitmap,
                     h: nat, k: nat, y: nat, r: nat)
    requires n < |run| && Sound(levels, bm) && Passed(run, b, n, levels, bm, h, k, y, r)
    requires SameStripe(levels, bm, l2, bm2, Stripe(h))
    ensures Passed(run, b, n, l2, bm2, h, k, y, r)
  {
    hide Sound, Kept, SameStripe;
    forall k2, y2 | r > 0 && 0 <= k2 < 8 && 0 <= y2 < 2 && (k2 < k || (k2 == k && y2 < y))
      ensures Kept(run, b, n, l2, bm2, h, k2, y2, r)
    {
      KeptStable(run, b, n, levels, bm, l2, bm2, h, k2, y2, r);
    }
  }

  lemma MetStable(run: seq<State>, b: nat, n: nat, s: State, s2: State, kv: Kv, x: nat, path: seq<Hop>, st: Stage)
    requires n < |run| && st.Seek? && x < 2 && Sound(s.levels, s.bm) && Met(run, b, n, s.levels, s.bm, kv, x, path, st)
    requires forall l :: l in Held(Disp(kv, x, path, st)) ==> SameStripe(s.levels, s.bm, s2.levels, s2.bm, l)
    ensures Met(run, b, n, s2.levels, s2.bm, kv, x, path, st)
  {
    hide Sound, SameStripe, Held, HashAt, Passed, NoWay;
    forall i | 0 <= i < |path|
      ensures Passed(run, b, n, s2.levels, s2.bm, HashAt(kv, x, path, i), path[i].c.k, path[i].x, st.d - i)
    {
      DispHeld(kv, x, path, st, i);
      PassedStable(run, b, n, s.levels, s.bm, s2.levels, s2.bm, HashAt(kv, x, path, i), path[i].c.k, path[i].x, st.d - i);
    }
    DispHeld(kv, x, path, st, |path|);
    PassedStable(run, b, n, s.levels, s.bm, s2.levels, s2.bm, HashAt(kv, x, path, |path|), st.k, st.y, st.d - |path|);
  }

  lemma OtherSearched(run: seq<State>, b: nat, n: nat, s: State, s2: State, t: Tid, act: Act, u: Tid)
    requires n < |run| && StateInv(s) && Step(s, s2, t, act) && u in s.pc && u != t
    requires Searched(run, b, n, s.levels, s.bm, s.pc[u])
    ensures u in s2.pc && s2.pc[u] == s.pc[u] && Searched(run, b, n, s2.levels, s2.bm, s2.pc[u])
  {
    hide StateInv, MoveOf, Sound, PhaseOk, Locks.Step, Met, NoWay, Knows, Held, SameStripe, Changed;
    InvParts(s);
    if s.pc[u].Disp? && s.pc[u].st.Seek? {
      DispFacts(s, u);
      forall l | l in Held(s.pc[u]) ensures SameStripe(s.levels, s.bm, s2.levels, s2.bm, l) {
        OthersSame(s, s2, t, act, u, l);
      }
      MetStable(run, b, n, s, s2, s.pc[u].kv, s.pc[u].x, s.pc[u].path, s.pc[u].st);
    }
  }

  lemma DispFacts(s: State, u: Tid)
    requires StateInv(s) && u in s.pc && s.pc[u].Disp?
    ensures |s.levels| == 2 && s.pc[u].x < 2
    ensures DispKnows(s.pc[u].kv, s.pc[u].x, s.pc[u].path, s.pc[u].st, s.levels, s.bm)
  {
    hide StateInv, DispKnows;
    InvParts(s);
    assert Knows(s.pc[u], s.levels, s.bm, s.phase);
    DispHasPath(s.pc[u].kv, s.pc[u].x, s.pc[u].path, s.pc[u].st, s.levels, s.bm);
  }

  // ---- the steps of the thread itself ----

  lemma HopKept(run: seq<State>, b: nat, n: nat, levels: seq<Level>, bm: Bitmap, kv: Kv, x: nat, path: seq<Hop>, r: nat)
    requires n < |run| && |levels| == 2 && path != [] && r > 0 && HopsOk(levels, bm, kv, x, path, |path|)
    requires NoWay(run, b, n, HashAt(kv, x, path, |path|), r - 1)
    ensures var hop := path[|path| - 1]; Kept(run, b, n, levels, bm, HashAt(kv, x, path, |path| - 1), hop.c.k, hop.x, r)
  {
    hide NoWay, Owned, SlotPos;
    var i := |path| - 1;
    assert HopOk(levels, bm, path[i], HashAt(kv, x, path, i)) && Holds(levels, path[i].c, path[i].v);
  }

  // A frame that has been shut off: its caller has passed the hop that led to
  // it, and goes on behind it.
  lemma {:induction false} ReturnMet(run: seq<State>, b: nat, n: nat, levels: seq<Level>, bm: Bitmap, kv: Kv, x: nat, path: seq<Hop>, st: Stage)
    requires n < |run| && |levels| == 2 && st.Seek? && path != [] && Met(run, b, n, levels, bm, kv, x, path, st)
    requires NoWay(run, b, n, HashAt(kv, x, path, |path|), st.d - |path|)
    requires HopsOk(levels, bm, kv, x, path, |path|)
    ensures var m := Return(kv, x, path, st.d); Met(run, b, n, levels, bm, kv, x, m.pc.path, m.pc.st)
  {
    hide HashAt, Passed, NoWay, Kept, HopsOk;
    var i := |path| - 1;
    var hop := path[i];
    HopsSmall(levels, bm, kv, x, path, |path|);
    FrontHash(kv, x, path);
    HopKept(run, b, n, levels, bm, kv, x, path, st.d - i);
    assert Passed(run, b, n, levels, bm, HashAt(kv, x, path, i), hop.c.k, hop.x, st.d - i);
    PassedMore(run, b, n, levels, bm, HashAt(kv, x, path, i), hop.c.k, hop.x, st.d - i, st.d);
    forall q | 0 <= q < i
      ensures Passed(run, b, n, levels, bm, HashAt(kv, x, Front(path), q), Front(path)[q].c.k, Front(path)[q].x, st.d - q)
    {
      assert Passed(run, b, n, levels, bm, HashAt(kv, x, path, q), path[q].c.k, path[q].x, st.d - q);
    }
  }

  // A search that starts.
  lemma {:induction false} StartMet(run: seq<State>, b: nat, n: nat, levels: seq<Level>, bm: Bitmap, kv: Kv, x: nat, d: nat)
    requires n < |run| && (x > 0 ==> NoWay(run, b, n, Hash2(kv.key, 0), d))
    ensures Met(run, b, n, levels, bm, kv, x, [], Start(d))
  {
    hide NoWay, Kept, HashAt;
  }

  lemma PushMet(run: seq<State>, b: nat, n: nat, levels: seq<Level>, bm: Bitmap, kv: Kv, x: nat, path: seq<Hop>, st: Stage)
    requires n < |run| && |levels| == 2 && st.Seek? && !Local(path, st) && Met(run, b, n, levels, bm, kv, x, path, st)
    requires Live(levels, SlotPos(levels, bm, HashAt(kv, x, path, |path|), st.k))
    ensures var hop := NextHop(levels, bm, HashAt(kv, x, path, |path|), st);
      Met(run, b, n, levels, bm, kv, x, path + [hop], Start(st.d))
  {
    hide NoWay, Kept, HashAt, Passed;
    var hop := NextHop(levels, bm, HashAt(kv, x, path, |path|), st);
    var p2 := path + [hop];
    assert Front(p2) == path;
    FrontHash(kv, x, p2);
    SlotPosK(levels, bm, HashAt(kv, x, path, |path|), st.k);
    NothingPassed(run, b, n, levels, bm, HashAt(kv, x, p2, |p2|), st.d - |p2|);
    forall i | 0 <= i < |p2| ensures Passed(run, b, n, levels, bm, HashAt(kv, x, p2, i), p2[i].c.k, p2[i].x, st.d - i) {
      if i < |path| {
        assert Passed(run, b, n, levels, bm, HashAt(kv, x, path, i), path[i].c.k, path[i].x, st.d - i);
      }
    }
  }

  lemma NothingPassed(run: seq<State>, b: nat, n: nat, levels: seq<Level>, bm: Bitmap, h: nat, r: nat)
    requires n < |run|
    ensures Passed(run, b, n, levels, bm, h, 0, 0, r)
  {
  }

  lemma SkipMet(run: seq<State>, b: nat, n: nat, i: nat, kv: Kv, x: nat, path: seq<Hop>, st: Stage)
    requires b <= i <= n < |run| && |run[i].levels| == 2 && st.Seek? && !Local(path, st) && st.y < 2
    requires Met(run, b, n, run[i].levels, run[i].bm, kv, x, path, st)
    requires var h := HashAt(kv, x, path, |path|);
      && Live(run[i].levels, SlotPos(run[i].levels, run[i].bm, h, st.k))
      && var l := Dest(NextHop(run[i].levels, run[i].bm, h, st)); (l == Stripe(h) || l in run[i].owner)
    ensures Met(run, b, n, run[i].levels, run[i].bm, kv, x, path, Following(st.d, st.k, st.y))
  {
    hide NoWay, HashAt, Passed, SlotPos, Live;
    var h := HashAt(kv, x, path, |path|);
    assert Kept(run, b, n, run[i].levels, run[i].bm, h, st.k, st.y, st.d - |path|);
    PassedMore(run, b, n, run[i].levels, run[i].bm, h, st.k, st.y, st.d - |path|, st.d);
  }

  // The frame at hand has been passed to its end.
  lemma {:induction false} OverMet(run: seq<State>, b: nat, n: nat, i: nat, kv: Kv, x: nat, path: seq<Hop>, st: Stage)
    requires b <= i <= n < |run| && |run[i].levels| == 2 && st.Seek? && !Local(path, st) && st.k == 8
    requires Met(run, b, n, run[i].levels, run[i].bm, kv, x, path, st)
    requires LiveUpTo(run[i].levels, run[i].bm, HashAt(kv, x, path, |path|), st.k)
    ensures NoWay(run, b, n, HashAt(kv, x, path, |path|), st.d - |path|)
  {
    hide NoWay, HashAt, Passed, LiveUpTo, SlotFull;
    FullIsLive(run[i].levels, run[i].bm, HashAt(kv, x, path, |path|));
    AllPassed(run, b, n, i, HashAt(kv, x, path, |path|), st.k, st.y, st.d - |path|);
  }

  lemma SeekSearched(run: seq<State>, b: nat, n: nat, i: nat, t: Tid, act: Act)
    requires b <= i < n < |run| && StateInv(run[i]) && t in run[i].pc && run[i].pc[t].Disp? && act != Go
    requires MoveOf(run[i], t, act).Some? && Searched(run, b, n, run[i].levels, run[i].bm, run[i].pc[t])
    ensures Searched(run, b, n, run[i].levels, run[i].bm, MoveOf(run[i], t, act).value.pc)
  {
    hide StateInv, Met, NoWay, HashAt, SlotPos, SlotFull, LiveUpTo, PathLive, HopsOk, Absent, HasCopy, Live, Dest, Return;
    var s := run[i];
    DispFacts(s, t);
    var kv, x, path, st := s.pc[t].kv, s.pc[t].x, s.pc[t].path, s.pc[t].st;
    match act {
      case Full =>
        if st.Scan? {
          StartMet(run, b, n, s.levels, s.bm, kv, 0, FIRST_DEPTH);
        } else {
          LocalSearched(run, b, n, i, t);
        }
      case Push => PushMet(run, b, n, s.levels, s.bm, kv, x, path, st);
      case Skip => SkipMet(run, b, n, i, kv, x, path, st);
      case Over => OverSearched(run, b, n, i, t);
      case _ =>
    }
  }

  lemma LocalSearched(run: seq<State>, b: nat, n: nat, i: nat, t: Tid)
    requires b <= i < n < |run| && StateInv(run[i]) && t in run[i].pc && run[i].pc[t].Disp? && run[i].pc[t].st.Seek?
    requires MoveOf(run[i], t, Full).Some? && Searched(run, b, n, run[i].levels, run[i].bm, run[i].pc[t])
    ensures Searched(run, b, n, run[i].levels, run[i].bm, MoveOf(run[i], t, Full).value.pc)
  {
    hide StateInv, NoWay, HashAt, SlotPos, SlotFull, LiveUpTo, PathLive, HopsOk, Absent, HasCopy, Passed;
    var s := run[i];
    DispFacts(s, t);
    var kv, x, path, st := s.pc[t].kv, s.pc[t].x, s.pc[t].path, s.pc[t].st;
    AllPassed(run, b, n, i, HashAt(kv, x, path, |path|), 0, 0, 0);
    ReturnMet(run, b, n, s.levels, s.bm, kv, x, path, st);
  }

  lemma OverSearched(run: seq<State>, b: nat, n: nat, i: nat, t: Tid)
    requires b <= i < n < |run| && StateInv(run[i]) && t in run[i].pc && run[i].pc[t].Disp? && run[i].pc[t].st.Seek?
    requires MoveOf(run[i], t, Over).Some? && Searched(run, b, n, run[i].levels, run[i].bm, run[i].pc[t])
    ensures Searched(run, b, n, run[i].levels, run[i].bm, MoveOf(run[i], t, Over).value.pc)
  {
    hide StateInv, NoWay, HashAt, SlotPos, SlotFull, LiveUpTo, PathLive, HopsOk, Absent, HasCopy, Passed;
    var s := run[i];
    DispFacts(s, t);
    var kv, x, path, st := s.pc[t].kv, s.pc[t].x, s.pc[t].path, s.pc[t].st;
    OverMet(run, b, n, i, kv, x, path, st);
    if path != [] {
      ReturnMet(run, b, n, s.levels, s.bm, kv, x, path, st);
    } else {
      OwnHash(kv, x, path);
      if x == 0 {
        StartMet(run, b, n, s.levels, s.bm, kv, 1, st.d);
      } else if st.d < LAST_DEPTH {
        StartMet(run, b, n, s.levels, s.bm, kv, 0, st.d + 1);
      }
    }
  }

  lemma GoSearched(pc: Pc)
    requires GoMove(pc).Some? && OpOf(pc).Some?
    ensures var m := GoMove(pc).value;
      (m.pc.Disp? ==> !m.pc.st.Seek?) && (m.pc.Done? ==> m.pc.r.Some?)
  {
    hide Lo, Hi, Carried;
  }

  lemma LookSearched(op: Op, x: nat, levels: seq<Level>, bm: Bitmap, act: Act)
    requires |levels| == 2 && LookMove(op, x, levels, bm, act).Some?
    ensures var m := LookMove(op, x, levels, bm, act).value;
      (m.pc.Disp? ==> m.pc.st.Scan?) && (m.pc.Done? && m.pc.op.Set? ==> m.pc.r.Some?)
  {
    hide SlotPos, SlotLacks;
  }

  // Only steps that leave the tables alone go on with a search.
  lemma SeekKeeps(s: State, t: Tid, act: Act)
    requires t in s.pc && |s.levels| == 2 && s.pc[t].Disp? && act != Go && MoveOf(s, t, act).Some?
    ensures var m := MoveOf(s, t, act).value;
      && (m.pc.Disp? || m.pc.Done?)
      && (m.ch.Keep? || (m.ch.Put? && (m.pc.Disp? ==> !m.pc.st.Seek? && !m.pc.st.Scan?) && (m.pc.Done? ==> m.pc.r.Some?)))
  {
    hide SlotPos, SlotFull, HashAt, Carried, Dest, Live;
  }

  lemma OwnSearched(run: seq<State>, sched: seq<Turn>, b: nat, n: nat, i: nat, t: Tid, kv: Kv)
    requires Scheduled(run, sched) && i < |sched| && b <= i < n < |run| && sched[i].t == t
    requires StateInv(run[i]) && t in run[i].pc && t in run[i + 1].pc && OpOf(run[i].pc[t]) == Some(Set(kv))
    requires Searched(run, b, n, run[i].levels, run[i].bm, run[i].pc[t])
    ensures Searched(run, b, n, run[i + 1].levels, run[i + 1].bm, run[i + 1].pc[t])
  {
    hide StateInv, Run, Locks.Step, Met, NoWay, GoMove, LookMove, SeekMove;
    assert TurnAt(run, sched, i);
    var s, act := run[i], sched[i].act;
    InvParts(s);
    if act == Go {
      GoSearched(s.pc[t]);
    } else if s.pc[t].Look? {
      LookSearched(s.pc[t].op, s.pc[t].x, s.levels, s.bm, act);
    } else if s.pc[t].Disp? {
      SeekKeeps(s, t, act);
      SeekSearched(run, b, n, i, t, act);
    }
  }

  lemma {:induction false} SetSearched(run: seq<State>, sched: seq<Turn>, b: nat, i: nat, n: nat, t: Tid, kv: Kv)
    requires Scheduled(run, sched) && i <= n < |run| && During(run, b, i, t, Set(kv))
    ensures Searched(run, b, n, run[i].levels, run[i].bm, run[i].pc[t])
    decreases i
  {
    hide Run, Step, StateInv, Met, NoWay, OpOf;
    if i > b {
      SetSearched(run, sched, b, i - 1, n, t, kv);
      SameOp(run, sched, b, i - 1, t, Set(kv));
      Always(run, i - 1);
      assert TurnAt(run, sched, i - 1);
      if sched[i - 1].t == t {
        OwnSearched(run, sched, b, n, i - 1, t, kv);
      } else {
        OtherSearched(run, b, n, run[i - 1], run[i], sched[i - 1].t, sched[i - 1].act, t);
      }
    }
  }

  // ---- giving up ----

  // A set that is about to answer that it has not stored its object finds both
  // its slots full in this very state. And since it began it has met no way
  // out: each object in them was, at one time or another, kept from its other
  // slot by an owned stripe, or met that slot full as well, and so for the
  // objects in there.
  lemma {:induction false} GivesUp(run: seq<State>, sched: seq<Turn>, b: nat, n: nat, t: Tid, kv: Kv)
    requires Scheduled(run, sched) && n < |run| && During(run, b, n, t, Set(kv)) && run[n].pc[t] == Done(Set(kv), None)
    ensures SlotFull(run[n].levels, run[n].bm, Hash2(kv.key, 0)) && SlotFull(run[n].levels, run[n].bm, Hash2(kv.key, 1))
    ensures NoWay(run, b, n, Hash2(kv.key, 0), LAST_DEPTH) && NoWay(run, b, n, Hash2(kv.key, 1), LAST_DEPTH)
  {
    hide Run, TurnAt, StateInv, Met, NoWay, SlotFull, Stands;
    SetSearched(run, sched, b, n, n, t, kv);
    Always(run, n);
    InvParts(run[n]);
    assert Knows(run[n].pc[t], run[n].levels, run[n].bm, run[n].phase);
  }

  // ---- a set alone ----

  // The thread has written nothing yet.
  predicate Reads(pc: Pc) {
    match pc
    case Want(_) => true
    case Half(_) => true
    case Look(_, _) => true
    case Disp(_, _, _, st) => st.Scan? || st.Seek?
    case Done(_, r) => r.None?
    case _ => false
  }

  lemma ReadsKeeps(s: State, t: Tid, act: Act)
    requires t in s.pc && |s.levels| == 2 && OpOf(s.pc[t]).Some? && OpOf(s.pc[t]).value.Set? && MoveOf(s, t, act).Some?
    ensures var m := MoveOf(s, t, act).value; m.pc != Idle && Reads(m.pc) ==> Reads(s.pc[t]) && m.ch.Keep?
  {
    hide GoMove, LookMove, SeekMove;
    if act == Go {
      GoReads(s.pc[t]);
    } else if s.pc[t].Look? {
      LookReads(s.pc[t].op, s.pc[t].x, s.levels, s.bm, act);
    } else if s.pc[t].Disp? {
      SeekKeeps(s, t, act);
    }
  }

  lemma GoReads(pc: Pc)
    requires GoMove(pc).Some? && OpOf(pc).Some?
    ensures var m := GoMove(pc).value; m.pc != Idle && Reads(m.pc) ==> Reads(pc) && m.ch.Keep?
  {
    hide Lo, Hi, Carried;
  }

  lemma LookReads(op: Op, x: nat, levels: seq<Level>, bm: Bitmap, act: Act)
    requires |levels| == 2 && LookMove(op, x, levels, bm, act).Some? && op.Set?
    ensures var m := LookMove(op, x, levels, bm, act).value; Reads(m.pc) ==> m.ch.Keep?
  {
    hide SlotPos, SlotLacks;
  }

  lemma {:induction false} AloneSame(run: seq<State>, sched: seq<Turn>, b: nat, n: nat, t: Tid, kv: Kv)
    requires Scheduled(run, sched) && n < |run| && During(run, b, n, t, Set(kv)) && Reads(run[n].pc[t])
    requires forall i :: b <= i < n ==> sched[i].t == t
    ensures run[n].levels == run[b].levels && run[n].bm == run[b].bm
    decreases n
  {
    hide Run, StateInv, Locks.Step, MoveOf, OpOf, Reads;
    if n > b {
      SameOp(run, sched, b, n - 1, t, Set(kv));
      assert TurnAt(run, sched, n - 1);
      ReadsKeeps(run[n - 1], t, sched[n - 1].act);
      AloneSame(run, sched, b, n - 1, t, kv);
    }
  }

  // A set that runs alone, with a free entry in one of its slots when it
  // begins, does not give up.
  lemma AloneStores(run: seq<State>, sched: seq<Turn>, b: nat, n: nat, t: Tid, kv: Kv)
    requires Scheduled(run, sched) && n < |run| && During(run, b, n, t, Set(kv)) && run[n].pc[t].Done?
    requires forall i :: b <= i < n ==> sched[i].t == t
    requires !(SlotFull(run[b].levels, run[b].bm, Hash2(kv.key, 0)) && SlotFull(run[b].levels, run[b].bm, Hash2(kv.key, 1)))
    ensures run[n].pc[t] == Done(Set(kv), Some(kv))
  {
    hide Run, TurnAt, StateInv, NoWay, SlotFull;
    SameOp(run, sched, b, n, t, Set(kv));
    if run[n].pc[t].r.None? {
      AloneSame(run, sched, b, n, t, kv);
      GivesUp(run, sched, b, n, t, kv);
    }
  }
}
