// The runs of the concurrent cuckoo table: what operations return, what each
// step does to the map, and that no thread waits for ever.

module CuckooRuns {
  import opened Option
  import opened KvApi
  import opened Pow2s
  import opened Bitmaps
  import opened Stripes
  import opened CuckooState
  import opened CuckooGrow
  import opened Cuckoos
  import opened CuckooSteps
  import opened CuckooStepInv
  import Locks = CuckooLocks

  ghost predicate Init(s: State) {
    && (forall t :: t in s.pc ==> s.pc[t] == Idle)
    && s.owner == map[] && s.bm == Create(NR_STRIPES, false) && s.phase == Rest(0)
    && s.levels == [NewLevel(MIN_POWER), Level([], 0)]
  }

  lemma InitHolds(s: State)
    requires Init(s)
    ensures StateInv(s)
  {
    InitKeeps(s.levels, s.bm, MIN_POWER);
    assert forall p, v :: !Holds(s.levels, p, v);
    Locks.InitInv(LocksOf(s));
  }

  ghost predicate Next(s: State, s2: State) {
    exists t, act :: Step(s, s2, t, act)
  }

  ghost predicate Run(run: seq<State>) {
    run != [] && Init(run[0]) && forall i :: 0 <= i < |run| - 1 ==> Next(run[i], run[i + 1])
  }

  // The invariant holds in every reachable state.
  lemma {:induction false} Always(run: seq<State>, n: nat)
    requires Run(run) && n < |run|
    ensures StateInv(run[n])
    decreases n
  {
    hide StateInv, Init, Step;
    if n == 0 {
      InitHolds(run[0]);
    } else {
      Always(run, n - 1);
      assert Next(run[n - 1], run[n - 1 + 1]);
      var t, act :| Step(run[n - 1], run[n], t, act);
      StepKeeps(run[n - 1], run[n], t, act);
    }
  }

  // When no displacement is between copying and clearing, every key is stored
  // once.
  lemma AtRestOneCopy(run: seq<State>, n: nat, p: Pos, q: Pos, v: Kv, w: Kv)
    requires Run(run) && n < |run| && forall t :: t in run[n].pc ==> Moving(run[n].pc[t]).None?
    requires Holds(run[n].levels, p, v) && Holds(run[n].levels, q, w) && v.key == w.key
    ensures p == q && v == w
  {
    hide Run, Moving, Sound, PhaseOk, Locks.Inv, OnePerStripe, OneMover, WorkersApart, Knows;
    Always(run, n);
    assert p != q ==> InTransit(run[n], v.key);
  }

  // At any time all the places of a key are two, in different stripes, with
  // one object.
  lemma AlwaysOneObject(run: seq<State>, n: nat, p: Pos, q: Pos, v: Kv, w: Kv)
    requires Run(run) && n < |run|
    requires Holds(run[n].levels, p, v) && Holds(run[n].levels, q, w) && v.key == w.key
    ensures v == w && (p == q || Stripe(p.j) != Stripe(q.j)) && Stripe(p.j) in Both(v.key) && Stripe(q.j) in Both(v.key)
  {
    hide Run, Sound, PhaseOk, Locks.Inv, Copies, OneMover, WorkersApart, Knows, Both;
    Always(run, n);
    ObjectsSame(run[n]);
    var x := HeldCell(run[n].levels, run[n].bm, p, v);
    var y := HeldCell(run[n].levels, run[n].bm, q, w);
  }

  // ---- what operations return ----

  // What an operation returns is what the tables have for its key in the very
  // state it returns from: a get its answer, a delete nothing, a set its object
  // or, when it gives up, nothing.
  lemma Returns(run: seq<State>, n: nat, t: Tid)
    requires Run(run) && n < |run| && t in run[n].pc && run[n].pc[t].Done?
    ensures var op := run[n].pc[t].op; Abs(run[n].levels, KeyOf(op)) == After(op, run[n].pc[t].r)
  {
    hide Run, Sound, PhaseOk, Locks.Inv, OnePerStripe, Copies, OneMover, WorkersApart, Stands, SameObject;
    Always(run, n);
    InvParts(run[n]);
    ObjectsSame(run[n]);
    var op, r := run[n].pc[t].op, run[n].pc[t].r;
    assert Knows(run[n].pc[t], run[n].levels, run[n].bm, run[n].phase);
    AbsIs(run[n].levels, KeyOf(op), After(op, r));
  }

  // A get or delete that is about to answer has read the abstract value.
  lemma LookAnswers(s: State, s2: State, t: Tid, act: Act)
    requires StateInv(s) && Step(s, s2, t, act) && s.pc[t].Look? && s2.pc[t].Done? && !s.pc[t].op.Set?
    ensures s2.pc[t].r == Abs(s.levels, KeyOf(s.pc[t].op))
  {
    hide StateInv, Sound, PhaseOk, Changed, Locks.Step, SlotLacks, SlotPos, SameObject;
    InvParts(s);
    ObjectsSame(s);
    var op, x := s.pc[t].op, s.pc[t].x;
    assert Knows(s.pc[t], s.levels, s.bm, s.phase);
    if act.Miss? {
      MissAbsent(s.levels, s.bm, KeyOf(op));
      AbsIs(s.levels, KeyOf(op), None);
    } else if act.Found? {
      var p := SlotPos(s.levels, s.bm, Hash2(KeyOf(op), x), act.k);
      assert Holds(s.levels, p, At(s.levels, p).ptr.value);
      AbsIs(s.levels, KeyOf(op), At(s.levels, p).ptr);
    }
  }

  // ---- what a step does to the abstract map ----

  // The one write of a delete or a set, if the step is it.
  function Writes(m: Move): Option<(Key, Option<Kv>)> {
    if m.ch.Put? && m.pc.Done? then Some((KeyOf(m.pc.op), After(m.pc.op, m.pc.r))) else None
  }

  function Effect(m: Move, key: Key, r: Option<Kv>): Option<Kv> {
    if Writes(m).Some? && Writes(m).value.0 == key then Writes(m).value.1 else r
  }

  lemma PutStands(s: State, s2: State, p: Pos, e: Entry, key: Key, r: Option<Kv>)
    requires Changed(s, s2, Put(p, e)) && Stands(s.levels, key, r)
    requires forall v :: Holds(s.levels, p, v) ==> v.key != key
    requires e.ptr.Some? && e.ptr.value.key == key ==> r == e.ptr
    ensures Stands(s2.levels, key, r)
  {
    match r {
      case None =>
        forall q, v | Holds(s2.levels, q, v) ensures v.key != key {
          PutHolds(s.levels, p, e, q, v);
        }
      case Some(v) =>
        var q :| Holds(s.levels, q, v);
        PutHolds(s.levels, p, e, q, v);
    }
  }

  lemma ClearStands(s: State, s2: State, t: Tid, m: Move, p: Pos, e: Entry, key: Key, r: Option<Kv>)
    requires StateInv(s) && t in s.pc && |s.levels| == 2 && ClearPut(s, t, m, p, e) && Changed(s, s2, Put(p, e))
    requires Stands(s.levels, key, r)
    ensures Stands(s2.levels, key, r)
  {
    hide StateInv, Sound, Knows, Held, Moving, Holds, Both, Absent, Stripe, Dest;
    InvParts(s);
    var key2 := Moving(s.pc[t]).value;
    var c, v, d := MoverHolds(s, t, key2);
    if key == key2 {
      var q: Pos :| Stripe(q.j) == d && Holds(s.levels, q, v);
      PutHolds(s.levels, p, e, q, v);
      StandsAs(s, key, r, c, v);
      assert Holds(s2.levels, q, v);
    } else {
      OneThere(s.levels, c, v);
      PutStands(s, s2, p, e, key, r);
    }
  }

  lemma OneThere(levels: seq<Level>, c: Pos, v: Kv)
    requires Holds(levels, c, v)
    ensures forall w :: Holds(levels, c, w) ==> w == v
  {
  }

  lemma StandsAs(s: State, key: Key, r: Option<Kv>, c: Pos, v: Kv)
    requires StateInv(s) && Stands(s.levels, key, r) && Holds(s.levels, c, v) && v.key == key
    ensures r == Some(v)
  {
    hide StateInv;
    ObjectsSame(s);
  }

  lemma FoundStands(s: State, s2: State, t: Tid, m: Move, p: Pos, e: Entry, key: Key, r: Option<Kv>)
    requires t in s.pc && |s.levels| == 2 && FoundPut(s, t, m, p, e) && Changed(s, s2, Put(p, e))
    requires Stands(s.levels, key, r) && m.pc.Done? && key != KeyOf(m.pc.op)
    ensures Stands(s2.levels, key, r)
  {
    hide Held, Both, Moving, Stands;
    PutStands(s, s2, p, e, key, r);
  }

  lemma PlaceStands(s: State, s2: State, t: Tid, m: Move, p: Pos, e: Entry, key: Key, r: Option<Kv>)
    requires StateInv(s) && t in s.pc && |s.levels| == 2 && PlacePut(s, t, m, p, e) && Changed(s, s2, Put(p, e))
    requires m.ch == Put(p, e) && Stands(s.levels, key, r) && Effect(m, key, r) == r
    ensures Stands(s2.levels, key, r)
  {
    hide StateInv, SlotPos, HashAt, Knows, Held, Tried;
    if e.ptr.Some? && e.ptr.value.key == key {
      var path := Tried(s.pc[t].path, s.pc[t].st);
      if path != [] {
        PlacedHeld(s, t);
        StandsAs(s, key, r, path[|path| - 1].c, path[|path| - 1].v);
      }
    }
    PutStands(s, s2, p, e, key, r);
  }

  lemma MigrateStands(s: State, s2: State, l: nat, key: Key, r: Option<Kv>)
    requires Sound(s.levels, s.bm) && PhaseOk(s.phase, s.levels, s.bm) && Changed(s, s2, Migrate(l))
    requires |s.levels| == 2 && ChangeOk(s, Migrate(l)) && Stands(s.levels, key, r)
    ensures Stands(s2.levels, key, r)
  {
    hide Sound, PhaseOk, Migrated, NewPlace, Holds, CanMove;
    MigrateSound(s, s2, l);
    match r {
      case None =>
        forall q, v | Holds(s2.levels, q, v) ensures v.key != key {
          var p := CameFrom(s, s2, l, q, v);
        }
      case Some(v) =>
        var p :| Holds(s.levels, p, v);
        var q := MigrateStays(s, s2, l, p, v);
    }
  }

  lemma StepStands(s: State, s2: State, t: Tid, act: Act, key: Key, r: Option<Kv>)
    requires StateInv(s) && Step(s, s2, t, act) && |s.levels| == 2 && |s2.levels| == 2 && Stands(s.levels, key, r)
    ensures Stands(s2.levels, key, Effect(MoveOf(s, t, act).value, key, r))
  {
    hide StateInv, MoveOf, Sound, PhaseOk, FoundPut, ClearPut, PlacePut, ChangeOk, Held, Touches, Comes, Locks.Step, Stands,
      Changed, Moving, Holds;
    InvParts(s);
    StepChange(s, s2, t, act);
    PutKinds(s, s2, t, act);
    var m := MoveOf(s, t, act).value;
    if Writes(m).Some? && Writes(m).value.0 == key {
      StepSelf(s, s2, t, act);
    } else {
      match m.ch {
        case Put(p, e) =>
          if ClearPut(s, t, m, p, e) {
            ClearStands(s, s2, t, m, p, e, key, r);
          } else if PlacePut(s, t, m, p, e) {
            PlaceStands(s, s2, t, m, p, e, key, r);
          } else {
            FoundDone(s, t, m, p, e);
            FoundStands(s, s2, t, m, p, e, key, r);
          }
        case Migrate(l) => MigrateStands(s, s2, l, key, r);
        case _ =>
          ResizeComes(s, s2, m.ch);
          SameStands(s, s2, key, r);
      }
    }
  }

  lemma FoundDone(s: State, t: Tid, m: Move, p: Pos, e: Entry)
    requires t in s.pc && FoundPut(s, t, m, p, e)
    ensures m.pc.Done?
  {
  }

  lemma SameStands(s: State, s2: State, key: Key, r: Option<Kv>)
    requires forall p, v :: Holds(s2.levels, p, v) <==> Holds(s.levels, p, v)
    requires Stands(s.levels, key, r)
    ensures Stands(s2.levels, key, r)
  {
    hide Holds;
  }

  // Each step leaves the abstract map alone - copies, clearings and moved
  // stripes included - or is the one write of a delete or set.
  lemma StepEffect(s: State, s2: State, t: Tid, act: Act, key: Key)
    requires StateInv(s) && Step(s, s2, t, act)
    ensures Abs(s2.levels, key) == Effect(MoveOf(s, t, act).value, key, Abs(s.levels, key))
  {
    hide StateInv, MoveOf, Changed, Locks.Step, Stands, SameObject, Knows;
    StepKeeps(s, s2, t, act);
    InvParts(s);
    InvParts(s2);
    StepStands(s, s2, t, act, key, Abs(s.levels, key));
    ObjectsSame(s2);
    AbsIs(s2.levels, key, Effect(MoveOf(s, t, act).value, key, Abs(s.levels, key)));
  }

  // ---- one write for each operation ----

  // Whose step comes next, and with which choice.
  datatype Turn = Turn(t: Tid, act: Act)

  ghost predicate Scheduled(run: seq<State>, sched: seq<Turn>) {
    Run(run) && |sched| == |run| - 1 && forall i :: 0 <= i < |sched| ==> TurnAt(run, sched, i)
  }

  ghost predicate TurnAt(run: seq<State>, sched: seq<Turn>, i: nat)
    requires i < |sched| < |run|
  {
    Step(run[i], run[i + 1], sched[i].t, sched[i].act)
  }

  // Every run has a schedule.
  lemma {:induction false} HasSchedule(run: seq<State>) returns (sched: seq<Turn>)
    requires Run(run)
    ensures Scheduled(run, sched)
  {
    hide Step, Init;
    sched := [];
    while |sched| < |run| - 1
      invariant |sched| <= |run| - 1
      invariant forall i :: 0 <= i < |sched| ==> TurnAt(run, sched, i)
    {
      var i := |sched|;
      assert Next(run[i], run[i + 1]);
      var t, act :| Step(run[i], run[i + 1], t, act);
      var more := sched + [Turn(t, act)];
      forall j | 0 <= j <= i ensures TurnAt(run, more, j) {
        assert j < i ==> TurnAt(run, sched, j);
      }
      sched := more;
    }
  }

  // The write of step i on the abstract map, if it is one of thread t.
  ghost function WriteAt(run: seq<State>, sched: seq<Turn>, t: Tid, i: nat): Option<(Key, Option<Kv>)>
    requires i < |sched| < |run|
  {
    if sched[i].t == t && t in run[i].pc && MoveOf(run[i], t, sched[i].act).Some?
    then Writes(MoveOf(run[i], t, sched[i].act).value) else None
  }

  // What the operation has written when it is about to return: a set its
  // object, a delete that has found one its removal.
  function Wrote(pc: Pc): Option<(Key, Option<Kv>)> {
    if pc.Done? && !pc.op.Get? && pc.r.Some? then Some((KeyOf(pc.op), After(pc.op, pc.r))) else None
  }

  // The operation a thread is in.
  function OpOf(pc: Pc): Option<Op> {
    match pc
    case Want(op) => Some(op)
    case Half(op) => Some(op)
    case Look(op, _) => Some(op)
    case Disp(kv, _, _, _) => Some(Set(kv))
    case Done(op, _) => Some(op)
    case _ => None
  }

  // What a set stores is its own object.
  predicate OwnObject(pc: Pc) {
    pc.Done? && pc.op.Set? && pc.r.Some? ==> pc.r.value == pc.op.kv
  }

  lemma GoWrites(pc: Pc)
    requires GoMove(pc).Some? && OpOf(pc).Some?
    ensures var m := GoMove(pc).value;
      m.pc == Idle || (Writes(m) == Wrote(m.pc) && OpOf(m.pc) == OpOf(pc) && !pc.Done? && OwnObject(m.pc))
  {
    hide Lo, Hi, Carried;
  }

  lemma LookWrites(op: Op, x: nat, levels: seq<Level>, bm: Bitmap, act: Act)
    requires |levels| == 2 && LookMove(op, x, levels, bm, act).Some?
    ensures var m := LookMove(op, x, levels, bm, act).value;
      Writes(m) == Wrote(m.pc) && OpOf(m.pc) == Some(op) && OwnObject(m.pc)
  {
    hide SlotPos, SlotLacks;
  }

  lemma SeekWrites(kv: Kv, x: nat, path: seq<Hop>, st: Stage, owner: map<nat, Tid>, levels: seq<Level>, bm: Bitmap, act: Act)
    requires |levels| == 2 && (st.Scan? || st.Seek?) && SeekMove(kv, x, path, st, owner, levels, bm, act).Some?
    ensures var m := SeekMove(kv, x, path, st, owner, levels, bm, act).value;
      Writes(m) == Wrote(m.pc) && OpOf(m.pc) == Some(Set(kv)) && OwnObject(m.pc)
  {
    hide SlotPos, HashAt, Carried, Dest, SlotFull, Live;
  }

  // One step of an operation: the last one before it returns is the write, if
  // there is one.
  lemma TurnWrites(s: State, t: Tid, act: Act)
    requires t in s.pc && OpOf(s.pc[t]).Some? && MoveOf(s, t, act).Some?
    ensures var m := MoveOf(s, t, act).value;
      m.pc == Idle || (Writes(m) == Wrote(m.pc) && OpOf(m.pc) == OpOf(s.pc[t]) && !s.pc[t].Done? && OwnObject(m.pc))
  {
    hide GoMove, LookMove, SeekMove, Writes, Wrote, OwnObject;
    if act == Go {
      GoWrites(s.pc[t]);
    } else if s.pc[t].Look? {
      LookWrites(s.pc[t].op, s.pc[t].x, s.levels, s.bm, act);
    } else if s.pc[t].Disp? {
      SeekWrites(s.pc[t].kv, s.pc[t].x, s.pc[t].path, s.pc[t].st, s.owner, s.levels, s.bm, act);
    }
  }

  // From its begin at b to place n a thread is in one operation.
  ghost predicate During(run: seq<State>, b: nat, n: nat, t: Tid, op: Op)
    requires n < |run|
  {
    && b <= n && (forall i :: b <= i <= n ==> t in run[i].pc && run[i].pc[t] != Idle)
    && run[b].pc[t] == Want(op)
  }

  lemma {:induction false} SameOp(run: seq<State>, sched: seq<Turn>, b: nat, n: nat, t: Tid, op: Op)
    requires Scheduled(run, sched) && n < |run| && During(run, b, n, t, op)
    ensures OpOf(run[n].pc[t]) == Some(op) && OwnObject(run[n].pc[t])
    ensures n > b && sched[n - 1].t == t ==> WriteAt(run, sched, t, n - 1) == Wrote(run[n].pc[t]) && !run[n - 1].pc[t].Done?
    ensures n > b && sched[n - 1].t != t ==> WriteAt(run, sched, t, n - 1).None? && run[n].pc[t] == run[n - 1].pc[t]
    decreases n
  {
    hide Run, MoveOf, Changed, Locks.Step, Wrote, Writes, OpOf;
    if n == b {
      WantOp(op);
    } else {
      SameOp(run, sched, b, n - 1, t, op);
      assert TurnAt(run, sched, n - 1);
      if sched[n - 1].t == t {
        TurnWrites(run[n - 1], t, sched[n - 1].act);
      }
    }
  }

  lemma WantOp(op: Op)
    ensures OpOf(Want(op)) == Some(op)
  {
  }

  // Between b and n the only write of thread t is the one of step w, which has
  // brought its operation to its end; or there is none.
  ghost predicate WritesOnce(run: seq<State>, sched: seq<Turn>, b: nat, n: nat, t: Tid, w: nat)
    requires |sched| < |run| && b <= n <= |sched| && t in run[n].pc
  {
    if !run[n].pc[t].Done? then forall i :: b <= i < n ==> WriteAt(run, sched, t, i).None?
    else
      && b <= w < n && sched[w].t == t && t in run[w].pc && t in run[w + 1].pc
      && !run[w].pc[t].Done? && run[w + 1].pc[t] == run[n].pc[t]
      && WriteAt(run, sched, t, w) == Wrote(run[n].pc[t])
      && forall i :: b <= i < n && i != w ==> WriteAt(run, sched, t, i).None?
  }

  lemma {:induction false} OneWrite(run: seq<State>, sched: seq<Turn>, b: nat, n: nat, t: Tid, op: Op) returns (w: nat)
    requires Scheduled(run, sched) && n < |run| && During(run, b, n, t, op)
    ensures WritesOnce(run, sched, b, n, t, w)
    decreases n
  {
    hide Run, TurnAt, WriteAt;
    w := 0;
    if n > b {
      w := OneWrite(run, sched, b, n - 1, t, op);
      SameOp(run, sched, b, n, t, op);
      if sched[n - 1].t == t && run[n].pc[t].Done? {
        w := n - 1;
      }
    }
  }

  // The step that ends an operation, seen from the map.
  lemma LastStep(run: seq<State>, sched: seq<Turn>, b: nat, n: nat, t: Tid, op: Op, w: nat, key: Key)
    requires Scheduled(run, sched) && n < |run| && During(run, b, n, t, op) && run[n].pc[t].Done?
    requires WritesOnce(run, sched, b, n, t, w)
    ensures run[n].pc[t].op == op
    ensures Abs(run[w + 1].levels, key) ==
      if Wrote(run[n].pc[t]).Some? && key == KeyOf(op) then After(op, run[n].pc[t].r) else Abs(run[w].levels, key)
    ensures !op.Set? ==> run[n].pc[t].r == Abs(run[w].levels, KeyOf(op))
  {
    hide Run, MoveOf, Changed, Locks.Step, StateInv, Writes, Abs;
    Always(run, w);
    SameOp(run, sched, b, w, t, op);
    SameOp(run, sched, b, n, t, op);
    assert TurnAt(run, sched, w);
    StepEffect(run[w], run[w + 1], t, sched[w].act, key);
    if !op.Set? {
      DoneFromLook(run[w], t, sched[w].act);
      LookAnswers(run[w], run[w + 1], t, sched[w].act);
    }
  }

  lemma DoneFromLook(s: State, t: Tid, act: Act)
    requires t in s.pc && OpOf(s.pc[t]).Some? && !OpOf(s.pc[t]).value.Set? && MoveOf(s, t, act).Some?
    requires MoveOf(s, t, act).value.pc.Done?
    ensures s.pc[t].Look?
  {
    hide LookMove, SeekMove;
  }

  // A set that is about to return true has written the map in exactly one step
  // of its thread: its object, under its key. One that gives up has not.
  lemma SetWritesOnce(run: seq<State>, sched: seq<Turn>, b: nat, n: nat, t: Tid, kv: Kv, key: Key) returns (w: nat)
    requires Scheduled(run, sched) && n < |run| && During(run, b, n, t, Set(kv)) && run[n].pc[t].Done?
    ensures b <= w < n && forall i :: b <= i < n && i != w ==> WriteAt(run, sched, t, i).None?
    ensures WriteAt(run, sched, t, w).Some? <==> run[n].pc[t].r.Some?
    ensures run[n].pc[t].r == None || run[n].pc[t].r == Some(kv)
    ensures Abs(run[w + 1].levels, key) ==
      if run[n].pc[t].r.Some? && key == kv.key then Some(kv) else Abs(run[w].levels, key)
  {
    hide Run, TurnAt, WriteAt, Abs;
    SameOp(run, sched, b, n, t, Set(kv));
    w := OneWrite(run, sched, b, n, t, Set(kv));
    LastStep(run, sched, b, n, t, Set(kv), w, key);
  }

  // A delete has looked its key up in one step of its thread: what it is about
  // to return is what the map had then, and if that was an object, this step
  // has removed it. No other step of the thread writes.
  lemma DelWritesOnce(run: seq<State>, sched: seq<Turn>, b: nat, n: nat, t: Tid, k: Key, key: Key) returns (w: nat)
    requires Scheduled(run, sched) && n < |run| && During(run, b, n, t, Del(k)) && run[n].pc[t].Done?
    ensures b <= w < n && forall i :: b <= i < n && i != w ==> WriteAt(run, sched, t, i).None?
    ensures WriteAt(run, sched, t, w).Some? <==> run[n].pc[t].r.Some?
    ensures run[n].pc[t].r == Abs(run[w].levels, k)
    ensures Abs(run[w + 1].levels, key) == if key == k then None else Abs(run[w].levels, key)
  {
    hide Run, TurnAt, WriteAt, Abs;
    w := OneWrite(run, sched, b, n, t, Del(k));
    LastStep(run, sched, b, n, t, Del(k), w, key);
  }

  // ---- no deadlock ----

  // The wait-for graph of every reachable state is acyclic.
  lemma Acyclic(run: seq<State>, n: nat, ts: seq<Tid>)
    requires Run(run) && n < |run| && |ts| >= 2 && Locks.Chain(LocksOf(run[n]), ts)
    ensures ts[0] != ts[|ts| - 1]
  {
    hide Run, StateInv, Locks.Chain, Knows;
    Always(run, n);
    InvParts(run[n]);
    Locks.NoCycle(LocksOf(run[n]), ts);
  }

  // One entry, one slot and one level of the tables after a stripe has moved.
  ghost function MovedSlot(levels: seq<Level>, src: nat, lidx: nat, i: nat, j: nat): Slot
    requires |levels| == 2 && src < 2 && i < 2 && j < |levels[i].table|
  {
    seq(8, k requires 0 <= k < 8 => MovedAt(levels, src, lidx, Pos(i, j, k)))
  }

  ghost function MovedLevel(levels: seq<Level>, src: nat, lidx: nat, i: nat): Level
    requires |levels| == 2 && src < 2 && i < 2
  {
    Level(seq(|levels[i].table|, j requires 0 <= j < |levels[i].table| => MovedSlot(levels, src, lidx, i, j)), levels[i].power)
  }

  lemma CanMigrate(levels: seq<Level>, src: nat, lidx: nat) returns (l2: seq<Level>)
    requires |levels| == 2 && src < 2
    ensures Migrated(levels, src, lidx, l2)
  {
    l2 := [MovedLevel(levels, src, lidx, 0), MovedLevel(levels, src, lidx, 1)];
  }

  lemma LockStep(s: State, s2: State, t: Tid, pc2: Pc)
    requires t in s.pc && s2.pc == s.pc[t := pc2]
    ensures LocksOf(s2) == Locks.State(LocksOf(s).pc[t := LockPc(pc2)], s2.owner)
  {
    hide LockPc;
  }

  // A busy thread that waits for no owned stripe has a step.
  lemma CanStep(s: State, t: Tid)
    requires StateInv(s) && t in s.pc && s.pc[t] != Idle
    requires forall l :: l in Locks.Waits(LockPc(s.pc[t])) ==> l !in s.owner
    ensures exists s2, act :: Step(s, s2, t, act)
  {
    hide StateInv, Sound, PhaseOk, OnePerStripe, Copies, OneMover, WorkersApart, Locks.Inv, Locks.Step, Migrated, SlotPos,
      Locks.Waits, Locks.Held, HashAt, Carried, SlotLacks, Placing, Absent, HopsOk, HasCopy, Stands;
    InvParts(s);
    assert Knows(s.pc[t], s.levels, s.bm, s.phase);
    match s.pc[t] {
      case Look(op, x) => CanLook(s, t);
      case Disp(kv, x, path, st) => CanDisp(s, t);
      case WorkerHold(l, end) => CanWork(s, t);
      case _ => CanGo(s, t);
    }
  }

  lemma CanLook(s: State, t: Tid)
    requires StateInv(s) && t in s.pc && s.pc[t].Look?
    ensures exists s2, act :: Step(s, s2, t, act)
  {
    hide StateInv, Sound, PhaseOk, SlotPos, LockPc, Knows;
    InvParts(s);
    var op, x := s.pc[t].op, s.pc[t].x;
    var h := Hash2(KeyOf(op), x);
    if SlotLacks(s.levels, s.bm, h, KeyOf(op)) {
      var m := MoveOf(s, t, Miss).value;
      assert Step(s, s.(pc := s.pc[t := m.pc]), t, Miss);
    } else {
      var k, v :| 0 <= k < 8 && Holds(s.levels, SlotPos(s.levels, s.bm, h, k), v) && v.key == KeyOf(op);
      var m := MoveOf(s, t, Found(k)).value;
      var s2 := s.(pc := s.pc[t := m.pc]);
      if m.ch.Put? {
        s2 := s2.(levels := Write(s.levels, m.ch.p, m.ch.e));
      }
      assert Step(s, s2, t, Found(k));
    }
  }

  lemma CanWork(s: State, t: Tid)
    requires StateInv(s) && t in s.pc && s.pc[t].WorkerHold?
    ensures exists s2, act :: Step(s, s2, t, act)
  {
    hide OnePerStripe, Copies, OneMover, WorkersApart, Locks.Inv, Migrated, LockPc;
    SoundTwo(s.levels, s.bm);
    assert Knows(s.pc[t], s.levels, s.bm, s.phase);
    var l, end := s.pc[t].l, s.pc[t].end;
    var l2 := CanMigrate(s.levels, s.phase.src, l);
    var s2 := State(s.pc[t := WorkerMoved(l, end)], s.owner, l2, if s.phase.upd then Set1(s.bm, l) else Set0(s.bm, l),
                    s.phase.(pending := s.phase.pending - {l}));
    assert Step(s, s2, t, Go);
  }

  // Dropping the last stripe tried.
  lemma DestsFront(path: seq<Hop>)
    requires path != []
    ensures Dests(path) != [] && Dests(Front(path)) == Dests(path)[..|Dests(path)| - 1]
  {
  }

  lemma BackStep(s: State, s2: State, t: Tid, st2: Stage, path2: seq<Hop>)
    requires |s.levels| == 2 && t in s.pc && s.pc[t].Disp? && s.pc[t].path != [] && (s.pc[t].st.Seek? || s.pc[t].st.Copied?)
    requires (path2 == s.pc[t].path && st2.Loose?) || (path2 == Front(s.pc[t].path) && st2.Seek?)
    requires s2 == s.(pc := s.pc[t := Disp(s.pc[t].kv, s.pc[t].x, path2, st2)],
                      owner := s.owner - {Dests(s.pc[t].path)[|s.pc[t].path| - 1]})
    ensures Locks.Step(LocksOf(s), LocksOf(s2), t, Locks.Back)
  {
    hide Lo, Hi, Dests;
    DestsFront(s.pc[t].path);
    LockStep(s, s2, t, Disp(s.pc[t].kv, s.pc[t].x, path2, st2));
    DestsLength(s.pc[t].path);
  }

  lemma DestsLength(path: seq<Hop>)
    ensures |Dests(path)| == |path|
  {
  }

  lemma CanDisp(s: State, t: Tid)
    requires StateInv(s) && t in s.pc && s.pc[t].Disp?
    ensures exists s2, act :: Step(s, s2, t, act)
  {
    hide StateInv, Sound, PhaseOk, SlotPos, HashAt, Carried, Placing, HopOk, Dests, LockPc, Locks.Step, Absent, HasCopy,
      SlotFull, SearchKnows;
    InvParts(s);
    assert Knows(s.pc[t], s.levels, s.bm, s.phase);
    var kv, x, path, st := s.pc[t].kv, s.pc[t].x, s.pc[t].path, s.pc[t].st;
    if st.Scan? || st.Seek? {
      if Local(path, st) {
        CanLocal(s, t);
      } else {
        CanSeek(s, t);
      }
    } else if st.Copied? {
      DestsLength(path);
      var s2 := s.(pc := s.pc[t := Disp(kv, x, path, Loose)], owner := s.owner - {Dests(path)[|path| - 1]});
      BackStep(s, s2, t, Loose, path);
      assert Step(s, s2, t, Go);
    } else {
      var m := MoveOf(s, t, Go).value;
      var s2 := s.(pc := s.pc[t := m.pc], levels := Write(s.levels, m.ch.p, m.ch.e));
      assert Step(s, s2, t, Go);
    }
  }

  // A free entry is used.
  lemma CanUse(s: State, t: Tid, k: nat)
    requires |s.levels| == 2 && t in s.pc && s.pc[t].Disp? && (s.pc[t].st.Scan? || s.pc[t].st.Seek?) && k < 8
    requires var path, st := s.pc[t].path, s.pc[t].st;
      Free(s.levels, SlotPos(s.levels, s.bm, HashAt(s.pc[t].kv, s.pc[t].x, path, |path|), k)) && (Local(path, st) || k == st.k)
    ensures exists s2, act :: Step(s, s2, t, act)
  {
    hide SlotPos, HashAt, Carried, Placing, Local;
    var m := MoveOf(s, t, UseFree(k)).value;
    assert Step(s, s.(pc := s.pc[t := m.pc], levels := Write(s.levels, m.ch.p, m.ch.e)), t, UseFree(k));
  }

  // A failed frame goes back to the one before it.
  lemma CanReturn(s: State, t: Tid, act: Act)
    requires |s.levels| == 2 && t in s.pc && s.pc[t].Disp? && s.pc[t].st.Seek? && s.pc[t].path != []
    requires act != Go && MoveOf(s, t, act) == Some(Return(s.pc[t].kv, s.pc[t].x, s.pc[t].path, s.pc[t].st.d))
    ensures exists s2, act :: Step(s, s2, t, act)
  {
    hide Dests, LockPc, Locks.Step, MoveOf;
    var kv, x, path, d := s.pc[t].kv, s.pc[t].x, s.pc[t].path, s.pc[t].st.d;
    var st2 := Return(kv, x, path, d).pc.st;
    DestsLength(path);
    var s2 := s.(pc := s.pc[t := Disp(kv, x, Front(path), st2)], owner := s.owner - {Dests(path)[|path| - 1]});
    BackStep(s, s2, t, st2, Front(path));
    assert Step(s, s2, t, act);
  }

  lemma CanLocal(s: State, t: Tid)
    requires StateInv(s) && t in s.pc && s.pc[t].Disp? && (s.pc[t].st.Scan? || s.pc[t].st.Seek?)
    requires Local(s.pc[t].path, s.pc[t].st)
    ensures exists s2, act :: Step(s, s2, t, act)
  {
    hide StateInv, Sound, PhaseOk, SlotPos, HashAt, Carried, Placing, Absent, HasCopy, SlotFull, LockPc, Locks.Step, HopsOk,
      LiveUpTo, PathLive, Return;
    InvParts(s);
    assert Knows(s.pc[t], s.levels, s.bm, s.phase);
    var kv, x, path, st := s.pc[t].kv, s.pc[t].x, s.pc[t].path, s.pc[t].st;
    var h := HashAt(kv, x, path, |path|);
    if SlotFull(s.levels, s.bm, h) {
      if st.Scan? {
        var m := MoveOf(s, t, Full).value;
        assert Step(s, s.(pc := s.pc[t := m.pc]), t, Full);
      } else {
        CanReturn(s, t, Full);
      }
    } else {
      var k := FreeIn(s.levels, s.bm, h);
      CanUse(s, t, k);
    }
  }

  lemma FreeIn(levels: seq<Level>, bm: Bitmap, h: nat) returns (k: nat)
    requires Sound(levels, bm) && |levels| == 2 && !SlotFull(levels, bm, h)
    ensures k < 8 && Free(levels, SlotPos(levels, bm, h, k))
  {
    hide Sound, SlotPos, SlotFull;
    FullIsLive(levels, bm, h);
    k :| 0 <= k < 8 && !Live(levels, SlotPos(levels, bm, h, k));
    SlotOk(levels, bm, h, k);
  }

  lemma CanSeek(s: State, t: Tid)
    requires StateInv(s) && t in s.pc && s.pc[t].Disp? && s.pc[t].st.Seek? && !Local(s.pc[t].path, s.pc[t].st)
    ensures exists s2, act :: Step(s, s2, t, act)
  {
    hide StateInv, Sound, PhaseOk, SlotPos, HashAt, Carried, Placing, SlotFull, LockPc, Locks.Step, Knows, Return, Dest,
      Stripe;
    InvParts(s);
    var kv, x, path, st := s.pc[t].kv, s.pc[t].x, s.pc[t].path, s.pc[t].st;
    var h := HashAt(kv, x, path, |path|);
    if st.k >= 8 {
      if path == [] {
        assert Step(s, s.(pc := s.pc[t := Retry(kv, x, st.d).pc]), t, Over);
      } else {
        CanReturn(s, t, Over);
      }
    } else {
      SlotOk(s.levels, s.bm, h, st.k);
      if Free(s.levels, SlotPos(s.levels, s.bm, h, st.k)) {
        CanUse(s, t, st.k);
      } else {
        var l := Dest(NextHop(s.levels, s.bm, h, st));
        if l == Stripe(h) || l in s.owner {
          assert Step(s, s.(pc := s.pc[t := MoveOf(s, t, Skip).value.pc]), t, Skip);
        } else {
          CanPush(s, t);
        }
      }
    }
  }

  // A hop whose stripe has no owner.
  lemma CanPush(s: State, t: Tid)
    requires |s.levels| == 2 && t in s.pc && s.pc[t].Disp? && s.pc[t].st.Seek? && !Local(s.pc[t].path, s.pc[t].st)
    requires var path, st := s.pc[t].path, s.pc[t].st; var h := HashAt(s.pc[t].kv, s.pc[t].x, path, |path|);
      && st.k < 8 && Live(s.levels, SlotPos(s.levels, s.bm, h, st.k))
      && Dest(NextHop(s.levels, s.bm, h, st)) != Stripe(h) && Dest(NextHop(s.levels, s.bm, h, st)) !in s.owner
    ensures exists s2, act :: Step(s, s2, t, act)
  {
    hide SlotPos, HashAt, Lo, Hi, Local, NextHop;
    var kv, x, path, st := s.pc[t].kv, s.pc[t].x, s.pc[t].path, s.pc[t].st;
    var hop := NextHop(s.levels, s.bm, HashAt(kv, x, path, |path|), st);
    var path2 := path + [hop];
    var s2 := s.(pc := s.pc[t := Disp(kv, x, path2, Start(st.d))], owner := s.owner[Dest(hop) := t]);
    LockStep(s, s2, t, Disp(kv, x, path2, Start(st.d)));
    assert Dests(path2) == Dests(path) + [Dest(hop)];
    assert Locks.Step(LocksOf(s), LocksOf(s2), t, Locks.TryLock(Dest(hop)));
    assert Step(s, s2, t, Push);
  }

  // The steps of a thread that takes or frees what it has asked for.
  lemma CanGo(s: State, t: Tid)
    requires StateInv(s) && t in s.pc && s.pc[t] != Idle && !s.pc[t].Look? && !s.pc[t].Disp? && !s.pc[t].WorkerHold?
    requires forall l :: l in Locks.Waits(LockPc(s.pc[t])) ==> l !in s.owner
    ensures exists s2, act :: Step(s, s2, t, act)
  {
    hide StateInv, Sound, PhaseOk, Lo, Hi, Knows, Locks.Inv;
    InvParts(s);
    var m := MoveOf(s, t, Go).value;
    var owner2 := match s.pc[t]
      case Want(op) => s.owner[Lo(KeyOf(op)) := t]
      case Half(op) => s.owner[Hi(KeyOf(op)) := t]
      case Done(op, _) => s.owner - {Lo(KeyOf(op)), Hi(KeyOf(op))}
      case WorkerWant(l, _) => s.owner[l := t]
      case WorkerMoved(l, _) => s.owner - {l}
      case _ => s.owner;
    var s2 := s.(pc := s.pc[t := m.pc], owner := owner2);
    LockStep(s, s2, t, m.pc);
    GoLocks(s.pc[t]);
    assert Locks.Step(LocksOf(s), LocksOf(s2), t, Locks.Go);
    assert Step(s, s2, t, Go);
  }

  lemma GoLocks(pc: Pc)
    ensures pc.Want? ==> Lo(KeyOf(pc.op)) in Locks.Waits(LockPc(pc))
    ensures pc.Half? ==> Hi(KeyOf(pc.op)) in Locks.Waits(LockPc(pc))
    ensures pc.WorkerWant? ==> pc.l in Locks.Waits(LockPc(pc))
  {
  }

  // An idle thread can begin any operation, and with no worker running it can
  // start an expansion, claim its next word of stripes, or end it.
  lemma IdleMoves(run: seq<State>, n: nat, t: Tid, op: Op)
    requires Run(run) && n < |run| && t in run[n].pc && run[n].pc[t] == Idle
    ensures exists s2, act :: Step(run[n], s2, t, act) && s2.pc[t] == Want(op)
    ensures (forall u :: u in run[n].pc ==> !Worker(run[n].pc[u])) ==>
      exists s2, act :: Step(run[n], s2, t, act) && Expands(run[n].phase, s2.phase)
  {
    hide Run, StateInv, Knows, Locks.Inv, Sound, Lo, Hi;
    var s := run[n];
    Always(run, n);
    InvParts(s);
    CanBegin(s, t, op);
    if forall u :: u in s.pc ==> !Worker(s.pc[u]) {
      CanExpand(s, t);
    }
  }

  // What the next step of an expansion does to its phase.
  predicate Expands(ph: Phase, ph2: Phase) {
    match ph
    case Rest(cur) => ph2.Growing? && ph2.src == cur && ph2.uniq == 0
    case Growing(src, uniq, _, _) =>
      if uniq < NR_STRIPES then ph2.Growing? && ph2.uniq == uniq + 64 else ph2.Rest? && ph2.cur != src
  }

  lemma CanBegin(s: State, t: Tid, op: Op)
    requires t in s.pc && s.pc[t] == Idle && |s.levels| == 2
    ensures exists s2, act :: Step(s, s2, t, act) && s2.pc[t] == Want(op)
  {
    var s2 := s.(pc := s.pc[t := Want(op)]);
    LockStep(s, s2, t, Want(op));
    assert s.owner - {} == s.owner;
    assert Step(s, s2, t, Begin(op));
  }

  lemma CanExpand(s: State, t: Tid)
    requires t in s.pc && s.pc[t] == Idle && PhaseOk(s.phase, s.levels, s.bm)
    requires forall u :: u in s.pc ==> !Worker(s.pc[u])
    ensures exists s2, act :: Step(s, s2, t, act) && Expands(s.phase, s2.phase)
  {
    hide Step, PhaseOk;
    if s.phase.Rest? {
      CanGrow(s, t);
    } else if s.phase.uniq < NR_STRIPES {
      CanClaim(s, t);
    } else {
      CanFinish(s, t);
    }
  }

  lemma CanGrow(s: State, t: Tid)
    requires t in s.pc && s.pc[t] == Idle && PhaseOk(s.phase, s.levels, s.bm) && s.phase.Rest?
    ensures exists s2 :: Step(s, s2, t, Expand) && Expands(s.phase, s2.phase)
  {
    var cur := s.phase.cur;
    var s2 := s.(pc := s.pc[t := Idle], phase := Growing(cur, 0, {}, s.bm.ones == 0),
                 levels := s.levels[OtherLevel(cur) := NewLevel(s.levels[cur].power + 1)]);
    assert Step(s, s2, t, Expand);
  }

  lemma CanClaim(s: State, t: Tid)
    requires t in s.pc && s.pc[t] == Idle && PhaseOk(s.phase, s.levels, s.bm)
    requires s.phase.Growing? && s.phase.uniq < NR_STRIPES
    ensures exists s2 :: Step(s, s2, t, ClaimWord) && Expands(s.phase, s2.phase)
  {
    var uniq := s.phase.uniq;
    var pc2 := WorkerWant(uniq, uniq + 64);
    var s2 := s.(pc := s.pc[t := pc2], phase := s.phase.(uniq := uniq + 64, pending := s.phase.pending + Chunk(uniq)));
    LockStep(s, s2, t, pc2);
    assert s.owner - {} == s.owner;
    assert Step(s, s2, t, ClaimWord);
  }

  lemma CanFinish(s: State, t: Tid)
    requires t in s.pc && s.pc[t] == Idle && PhaseOk(s.phase, s.levels, s.bm)
    requires s.phase.Growing? && s.phase.uniq >= NR_STRIPES && forall u :: u in s.pc ==> !Worker(s.pc[u])
    ensures exists s2 :: Step(s, s2, t, Finish) && Expands(s.phase, s2.phase)
  {
    var src := s.phase.src;
    var s2 := s.(pc := s.pc[t := Idle], phase := Rest(OtherLevel(src)),
                 levels := s.levels[src := s.levels[src].(table := [])]);
    assert Step(s, s2, t, Finish);
  }

  // Behind every busy thread there is one that has a step.
  lemma Progress(run: seq<State>, n: nat, t: Tid) returns (u: Tid)
    requires Run(run) && n < |run| && t in run[n].pc && run[n].pc[t] != Idle
    ensures u in run[n].pc && exists s2, act :: Step(run[n], s2, u, act)
  {
    hide Run, StateInv, Knows, Step, Locks.Inv, Locks.Waits;
    Always(run, n);
    InvParts(run[n]);
    u := Locks.NoDeadlock(LocksOf(run[n]), t);
    CanStep(run[n], u);
  }

  // ---- the words of the bitmap ----

  // A flag is changed by the worker that holds its stripe; any other worker is
  // at another word, so no two threads ever write one word of the bitmap.
  lemma FlagWriter(s: State, s2: State, t: Tid, act: Act, l: nat, u: Tid)
    requires StateInv(s) && Step(s, s2, t, act) && Test(s2.bm, l) != Test(s.bm, l) && u in s.pc && u != t
    ensures s.pc[t].WorkerHold? && s.pc[t].l == l && l in Held(s.pc[t])
    ensures Worker(s.pc[u]) ==> WordOf(s.pc[u].l) != WordOf(l)
  {
    hide StateInv, Sound, PhaseOk, MoveOf, Locks.Step, Knows, WordOf;
    InvParts(s);
    var m := MoveOf(s, t, act).value;
    assert m.ch.Migrate?;
    MigratorPc(s, t, act);
    if Worker(s.pc[u]) {
      WordsDiffer(s, t, u, l, s.pc[u].l);
    }
  }
}
