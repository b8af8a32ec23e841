// Who waits for whom in the cuckoo table (lib1.c:4050-4094, 4164-4201,
// 4257-4326): any number of threads running get, del and set, and any number
// of expand workers, one lock operation at a time.

module CuckooLocks {
  type Tid = nat

  const LOCK_NR: nat := 1024

  // Where a thread is with respect to the stripes. lo and hi are the stripes of
  // the two hashes of its key in the order cuckoo_lock_two takes them, tried
  // are those cuckoo_cuckoo_depth has try-locked, the last one on top.
  datatype Pc =
    | Idle
    | WantLo(lo: nat, hi: nat)
    | WantHi(lo: nat, hi: nat)
    | Inside(lo: nat, hi: nat, tried: seq<nat>)
    | WorkerWant(l: nat, end: nat)
    | WorkerHold(l: nat, end: nat)

  datatype State = State(pc: map<Tid, Pc>, owner: map<nat, Tid>)

  // Begin and Chunk choose what an idle thread does; TryLock and Back are the
  // displacement going one deeper and coming back; Go is the rest.
  datatype Act =
    | Begin(i1: nat, i2: nat)
    | Chunk(uniq: nat)
    | Go
    | TryLock(l: nat)
    | Back

  function Waits(pc: Pc): set<nat> {
    match pc
    case WantLo(lo, _) => {lo}
    case WantHi(_, hi) => {hi}
    case WorkerWant(l, _) => {l}
    case _ => {}
  }

  function Held(pc: Pc): set<nat> {
    match pc
    case WantHi(lo, _) => {lo}
    case Inside(lo, hi, tried) => {lo, hi} + set l | l in tried
    case WorkerHold(l, _) => {l}
    case _ => {}
  }

  // A thread's step that takes the stripe l, which nobody owns.
  ghost predicate Takes(s: State, s2: State, t: Tid, pc2: Pc, l: nat) {
    l !in s.owner && s2 == State(s.pc[t := pc2], s.owner[l := t])
  }

  // A step that gives stripes back.
  ghost predicate Frees(s: State, s2: State, t: Tid, pc2: Pc, ls: set<nat>) {
    s2 == State(s.pc[t := pc2], s.owner - ls)
  }

  // One step of thread t. A spinlock is taken only when free; a trylock may
  // fail at any time, which is no step.
  ghost predicate Step(s: State, s2: State, t: Tid, act: Act) {
    t in s.pc &&
    match s.pc[t]
    case Idle =>
      (match act
       case Begin(i1, i2) => i1 < LOCK_NR && i2 < LOCK_NR &&
         Frees(s, s2, t, if i1 < i2 then WantLo(i1, i2) else WantLo(i2, i1), {})
       case Chunk(uniq) => uniq + 64 <= LOCK_NR && Frees(s, s2, t, WorkerWant(uniq, uniq + 64), {})
       case _ => false)
    case WantLo(lo, hi) =>
      act == Go && Takes(s, s2, t, if lo == hi then Inside(lo, hi, []) else WantHi(lo, hi), lo)
    case WantHi(lo, hi) => act == Go && Takes(s, s2, t, Inside(lo, hi, []), hi)
    case Inside(lo, hi, tried) =>
      (match act
       case TryLock(l) => l < LOCK_NR && Takes(s, s2, t, Inside(lo, hi, tried + [l]), l)
       case Back => tried != [] &&
         Frees(s, s2, t, Inside(lo, hi, tried[..|tried| - 1]), {tried[|tried| - 1]})
       case Go => tried == [] && Frees(s, s2, t, Idle, {lo, hi})
       case _ => false)
    case WorkerWant(l, end) => act == Go && Takes(s, s2, t, WorkerHold(l, end), l)
    case WorkerHold(l, end) =>
      act == Go && Frees(s, s2, t, if l + 1 < end then WorkerWant(l + 1, end) else Idle, {l})
  }

  ghost predicate PcOk(pc: Pc) {
    match pc
    case Idle => true
    case WantLo(lo, hi) => lo <= hi < LOCK_NR
    case WantHi(lo, hi) => lo < hi < LOCK_NR
    case Inside(lo, hi, tried) => lo <= hi < LOCK_NR &&
      (forall i :: 0 <= i < |tried| ==> tried[i] != lo && tried[i] != hi) &&
      (forall i, j :: 0 <= i < j < |tried| ==> tried[i] != tried[j])
    case WorkerWant(l, end) => l < end <= LOCK_NR
    case WorkerHold(l, end) => l < end <= LOCK_NR
  }

  // A stripe's owner is the one thread that holds it.
  ghost predicate Inv(s: State) {
    && (forall t :: t in s.pc ==> PcOk(s.pc[t]))
    && (forall t, l :: t in s.pc && l in Held(s.pc[t]) ==> l in s.owner && s.owner[l] == t)
    && (forall l :: l in s.owner ==> s.owner[l] in s.pc && l in Held(s.pc[s.owner[l]]))
  }

  lemma HolderOwns(s: State, t: Tid, l: nat)
    requires Inv(s) && t in s.pc && l in Held(s.pc[t])
    ensures l in s.owner && s.owner[l] == t
  {
    hide Held;
  }

  lemma OwnerHolds(s: State, l: nat)
    requires Inv(s) && l in s.owner
    ensures s.owner[l] in s.pc && l in Held(s.pc[s.owner[l]])
  {
    hide Held;
  }

  lemma InitInv(s: State)
    requires s.owner == map[] && forall t :: t in s.pc ==> s.pc[t] == Idle
    ensures Inv(s)
  {
  }

  lemma TakesKeeps(s: State, s2: State, t: Tid, pc2: Pc, l: nat)
    requires Inv(s) && t in s.pc && Takes(s, s2, t, pc2, l)
    requires PcOk(pc2) && Held(pc2) == Held(s.pc[t]) + {l}
    ensures Inv(s2)
  {
    hide Held, PcOk;
    forall u, m | u in s2.pc && m in Held(s2.pc[u]) ensures m in s2.owner && s2.owner[m] == u {
      if m != l {
        HolderOwns(s, u, m);
      } else if u != t {
        HolderOwns(s, u, l);
      }
    }
    forall m | m in s2.owner ensures s2.owner[m] in s2.pc && m in Held(s2.pc[s2.owner[m]]) {
      if m != l {
        OwnerHolds(s, m);
      }
    }
  }

  lemma FreesKeeps(s: State, s2: State, t: Tid, pc2: Pc, ls: set<nat>)
    requires Inv(s) && t in s.pc && Frees(s, s2, t, pc2, ls)
    requires PcOk(pc2) && ls <= Held(s.pc[t]) && Held(pc2) == Held(s.pc[t]) - ls
    ensures Inv(s2)
  {
    hide Held, PcOk;
    forall u, m | u in s2.pc && m in Held(s2.pc[u]) ensures m in s2.owner && s2.owner[m] == u {
      HolderOwns(s, u, m);
      if m in ls {
        HolderOwns(s, t, m);
      }
    }
    forall m | m in s2.owner ensures s2.owner[m] in s2.pc && m in Held(s2.pc[s2.owner[m]]) {
      OwnerHolds(s, m);
    }
  }

  // The stripes held one level deeper, and one level back.
  lemma Deeper(lo: nat, hi: nat, tried: seq<nat>, l: nat)
    ensures Held(Inside(lo, hi, tried + [l])) == Held(Inside(lo, hi, tried)) + {l}
  {
  }

  lemma Shallower(lo: nat, hi: nat, tried: seq<nat>)
    requires PcOk(Inside(lo, hi, tried)) && tried != []
    ensures var n := |tried| - 1;
      && PcOk(Inside(lo, hi, tried[..n]))
      && tried[n] in Held(Inside(lo, hi, tried))
      && Held(Inside(lo, hi, tried[..n])) == Held(Inside(lo, hi, tried)) - {tried[n]}
  {
    var n := |tried| - 1;
    assert tried == tried[..n] + [tried[n]];
    Deeper(lo, hi, tried[..n], tried[n]);
    assert tried[n] !in tried[..n];
  }

  lemma DeeperOk(s: State, t: Tid, l: nat)
    requires Inv(s) && t in s.pc && s.pc[t].Inside? && l !in s.owner
    ensures PcOk(Inside(s.pc[t].lo, s.pc[t].hi, s.pc[t].tried + [l]))
  {
    var pc := s.pc[t];
    assert PcOk(pc);
    assert l !in Held(pc);
    assert forall i :: 0 <= i < |pc.tried| ==> pc.tried[i] in Held(pc);
  }

  lemma InsideKeeps(s: State, s2: State, t: Tid, act: Act)
    requires Inv(s) && t in s.pc && s.pc[t].Inside? && Step(s, s2, t, act)
    ensures Inv(s2)
  {
    hide Held, PcOk, Takes, Frees;
    var pc := s.pc[t];
    assert PcOk(pc);
    match act {
      case TryLock(l) =>
        assert l !in s.owner by {
          TakesFree(s, s2, t, Inside(pc.lo, pc.hi, pc.tried + [l]), l);
        }
        DeeperOk(s, t, l);
        Deeper(pc.lo, pc.hi, pc.tried, l);
        TakesKeeps(s, s2, t, Inside(pc.lo, pc.hi, pc.tried + [l]), l);
      case Back =>
        Shallower(pc.lo, pc.hi, pc.tried);
        FreesKeeps(s, s2, t, Inside(pc.lo, pc.hi, pc.tried[..|pc.tried| - 1]), {pc.tried[|pc.tried| - 1]});
      case Go =>
        Bare(pc.lo, pc.hi);
        FreesKeeps(s, s2, t, Idle, {pc.lo, pc.hi});
      case _ =>
    }
  }

  lemma TakesFree(s: State, s2: State, t: Tid, pc2: Pc, l: nat)
    requires Takes(s, s2, t, pc2, l)
    ensures l !in s.owner
  {
  }

  lemma Bare(lo: nat, hi: nat)
    ensures Held(Inside(lo, hi, [])) == {lo, hi} && Held(Idle) == {} && PcOk(Idle)
  {
  }

  lemma StepKeeps(s: State, s2: State, t: Tid, act: Act)
    requires Inv(s) && Step(s, s2, t, act)
    ensures Inv(s2)
  {
    hide Takes, Frees, Inv;
    assert PcOk(s.pc[t]) by {
      PcOf(s, t);
    }
    match s.pc[t] {
      case Idle =>
        IdleStep(s, s2, t, act);
        FreesKeeps(s, s2, t, s2.pc[t], {});
      case WantLo(lo, hi) =>
        Bare(lo, hi);
        TakesKeeps(s, s2, t, if lo == hi then Inside(lo, hi, []) else WantHi(lo, hi), lo);
      case WantHi(lo, hi) =>
        Bare(lo, hi);
        TakesKeeps(s, s2, t, Inside(lo, hi, []), hi);
      case Inside(_, _, _) => InsideKeeps(s, s2, t, act);
      case WorkerWant(l, end) => TakesKeeps(s, s2, t, WorkerHold(l, end), l);
      case WorkerHold(l, end) => FreesKeeps(s, s2, t, if l + 1 < end then WorkerWant(l + 1, end) else Idle, {l});
    }
  }

  lemma PcOf(s: State, t: Tid)
    requires Inv(s) && t in s.pc
    ensures PcOk(s.pc[t])
  {
  }

  lemma IdleStep(s: State, s2: State, t: Tid, act: Act)
    requires t in s.pc && s.pc[t] == Idle && Step(s, s2, t, act)
    ensures t in s2.pc && Frees(s, s2, t, s2.pc[t], {}) && PcOk(s2.pc[t]) && Held(s2.pc[t]) == {}
  {
  }

  ghost predicate Run(ss: seq<State>, who: seq<(Tid, Act)>) {
    && |ss| == |who| + 1
    && ss[0].owner == map[] && (forall t :: t in ss[0].pc ==> ss[0].pc[t] == Idle)
    && forall k :: 0 <= k < |who| ==> Step(ss[k], ss[k + 1], who[k].0, who[k].1)
  }

  lemma {:induction false} Always(ss: seq<State>, who: seq<(Tid, Act)>, n: nat)
    requires Run(ss, who) && n <= |who|
    ensures Inv(ss[n])
  {
    if n == 0 {
      InitInv(ss[0]);
    } else {
      Always(ss, who, n - 1);
      StepKeeps(ss[n - 1], ss[n], who[n - 1].0, who[n - 1].1);
    }
  }

  // ---- no deadlock ----

  // Blocking acquisitions ascend: what a waiting thread holds is below what it
  // waits for.
  lemma WaitsUpwards(pc: Pc, l: nat, m: nat)
    requires PcOk(pc) && l in Waits(pc) && m in Held(pc)
    ensures m < l
  {
  }

  // t waits for a stripe that u owns.
  ghost predicate WaitsFor(s: State, t: Tid, u: Tid) {
    t in s.pc && exists l :: l in Waits(s.pc[t]) && l in s.owner && s.owner[l] == u
  }

  ghost predicate Chain(s: State, ts: seq<Tid>) {
    forall i :: 0 <= i < |ts| - 1 ==> WaitsFor(s, ts[i], ts[i + 1])
  }

  // The stripe a thread waits for; at most one.
  function Wanted(pc: Pc): (l: nat)
    ensures Waits(pc) != {} ==> Waits(pc) == {l}
  {
    match pc
    case WantLo(lo, _) => lo
    case WantHi(_, hi) => hi
    case WorkerWant(l, _) => l
    case _ => 0
  }

  lemma OneWaitUp(s: State, t: Tid, u: Tid, v: Tid)
    requires Inv(s) && WaitsFor(s, t, u) && WaitsFor(s, u, v)
    ensures Wanted(s.pc[t]) < Wanted(s.pc[u])
  {
    hide Held, Waits, Wanted, PcOk;
    var l :| l in Waits(s.pc[t]) && l in s.owner && s.owner[l] == u;
    var m :| m in Waits(s.pc[u]) && m in s.owner && s.owner[m] == v;
    assert Waits(s.pc[t]) == {Wanted(s.pc[t])} && Waits(s.pc[u]) == {Wanted(s.pc[u])};
    WaitsUpwards(s.pc[u], m, l);
  }

  // Along a chain of waiting threads the wanted stripes ascend.
  lemma {:induction false} ChainUp(s: State, ts: seq<Tid>, n: nat)
    requires Inv(s) && Chain(s, ts) && n + 1 < |ts|
    ensures ts[0] in s.pc && ts[n] in s.pc
    ensures Wanted(s.pc[ts[0]]) <= Wanted(s.pc[ts[n]])
  {
    hide Inv, Wanted;
    assert WaitsFor(s, ts[0], ts[0 + 1]) && WaitsFor(s, ts[n], ts[n + 1]);
    if n > 0 {
      ChainUp(s, ts, n - 1);
      assert WaitsFor(s, ts[n - 1], ts[n - 1 + 1]);
      OneWaitUp(s, ts[n - 1], ts[n], ts[n + 1]);
    }
  }

  // No chain of waits comes back to where it began.
  lemma NoCycle(s: State, ts: seq<Tid>)
    requires Inv(s) && |ts| >= 2 && Chain(s, ts)
    ensures ts[0] != ts[|ts| - 1]
  {
    hide WaitsFor, Wanted;
    var k := |ts| - 2;
    ChainUp(s, ts, k);
    assert WaitsFor(s, ts[0], ts[0 + 1]) && WaitsFor(s, ts[k], ts[k + 1]);
    if ts[0] == ts[k + 1] {
      OneWaitUp(s, ts[k], ts[k + 1], ts[1]);
    }
  }

  // The wait-for graph of every reachable state is acyclic.
  lemma Acyclic(ss: seq<State>, who: seq<(Tid, Act)>, n: nat, ts: seq<Tid>)
    requires Run(ss, who) && n <= |who| && |ts| >= 2 && Chain(ss[n], ts)
    ensures ts[0] != ts[|ts| - 1]
  {
    hide Inv, Chain;
    Always(ss, who, n);
    NoCycle(ss[n], ts);
  }

  // A busy thread that is not kept waiting has a step.
  lemma CanStep(s: State, u: Tid)
    requires Inv(s) && u in s.pc && s.pc[u] != Idle && forall l :: l in Waits(s.pc[u]) ==> l !in s.owner
    ensures exists s2, act :: Step(s, s2, u, act)
  {
    match s.pc[u] {
      case WantLo(lo, hi) =>
        assert lo in Waits(s.pc[u]);
        var pc2 := if lo == hi then Inside(lo, hi, []) else WantHi(lo, hi);
        assert Step(s, State(s.pc[u := pc2], s.owner[lo := u]), u, Go);
      case WantHi(lo, hi) =>
        assert hi in Waits(s.pc[u]);
        assert Step(s, State(s.pc[u := Inside(lo, hi, [])], s.owner[hi := u]), u, Go);
      case WorkerWant(l, end) =>
        assert l in Waits(s.pc[u]);
        assert Step(s, State(s.pc[u := WorkerHold(l, end)], s.owner[l := u]), u, Go);
      case WorkerHold(l, end) =>
        var pc2 := if l + 1 < end then WorkerWant(l + 1, end) else Idle;
        assert Step(s, State(s.pc[u := pc2], s.owner - {l}), u, Go);
      case Inside(lo, hi, tried) =>
        if tried == [] {
          assert Step(s, State(s.pc[u := Idle], s.owner - {lo, hi}), u, Go);
        } else {
          var pc2 := Inside(lo, hi, tried[..|tried| - 1]);
          assert Step(s, State(s.pc[u := pc2], s.owner - {tried[|tried| - 1]}), u, Back);
        }
    }
  }

  // Behind every busy thread there is one that has a step.
  lemma Progress(s: State, t: Tid) returns (u: Tid)
    requires Inv(s) && t in s.pc && s.pc[t] != Idle
    ensures u in s.pc && exists s2, act :: Step(s, s2, u, act)
  {
    hide Step;
    u := NoDeadlock(s, t);
    CanStep(s, u);
  }

  lemma {:induction false} NoDeadlock(s: State, t: Tid) returns (u: Tid)
    requires Inv(s) && t in s.pc && s.pc[t] != Idle
    ensures u in s.pc && s.pc[u] != Idle && forall l :: l in Waits(s.pc[u]) ==> l !in s.owner
    decreases LOCK_NR - (if Waits(s.pc[t]) != {} then Wanted(s.pc[t]) else 0), if Waits(s.pc[t]) != {} then 1 else 0
  {
    u := t;
    if l :| l in Waits(s.pc[t]) && l in s.owner {
      var v := s.owner[l];
      assert l in Held(s.pc[v]);
      assert PcOk(s.pc[t]) && PcOk(s.pc[v]);
      if m :| m in Waits(s.pc[v]) && m in s.owner {
        WaitsUpwards(s.pc[v], m, l);
        u := NoDeadlock(s, v);
      } else {
        u := v;
      }
    }
  }
}
