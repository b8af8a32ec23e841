// The two-slot RCU node (lib1.c:2613-2702): any number of readers and one
// updater, one load, store or compare-exchange at a time.

module Rcu {
  import opened FiniteSets

  type Tid = nat

  // A slot word: the pointer above bit 16, the valid bit 15, the count below.
  function Val(w: nat): nat { w / 0x1_0000 }

  predicate IsValid(w: nat) { w / 0x8000 % 2 == 1 }

  function Cnt(w: nat): nat { w % 0x8000 }

  function NewWord(p: nat): nat { p * 0x1_0000 + 0x8000 }

  // x & ~RCU_VALID_MASK
  function Cleared(w: nat): nat {
    if IsValid(w) && w >= 0x8000 then w - 0x8000 else w
  }

  // A reference being taken, held or given back. `at` is the slot it was
  // counted in, which the code does not remember.
  datatype Reader =
    | Idle
    | RefLoad(i: nat)
    | RefCas(i: nat, x: nat)
    | Holding(ptr: nat, at: nat)
    | UnrefFind(i: nat, ptr: nat, at: nat)
    | UnrefLoad(i: nat, ptr: nat, at: nat)
    | UnrefCas(i: nat, ptr: nat, at: nat, xx: nat)
    | Lost(ptr: nat, at: nat)

  // rcu_update; i is the slot that takes the new pointer.
  datatype Updater =
    | Rest
    | UpFind(i: nat, ptr: nat)
    | UpStore(i: nat, ptr: nat)
    | GcLoad(i: nat)
    | GcCas(i: nat, x0: nat)
    | GcDrain(i: nat)
    | UpFailed

  datatype State = State(x: seq<nat>, rd: map<Tid, Reader>, up: Updater)

  datatype Act = Read(t: Tid) | Update(ptr: nat)

  // rcu_read_ref and rcu_read_unref. Lost is the code's debug_assert(false),
  // and a count already at zero its other assertion.
  function ReaderStep(x: seq<nat>, r: Reader): (res: (seq<nat>, Reader))
    requires |x| == 2
    ensures |res.0| == 2
  {
    match r
    case Idle => (x, RefLoad(0))
    case RefLoad(i) =>
      if i < 2 && IsValid(x[i]) then (x, RefCas(i, x[i])) else (x, RefLoad(if i == 0 then 1 else 0))
    case RefCas(i, v) =>
      if i < 2 && x[i] == v then (x[i := v + 1], Holding(Val(v), i)) else (x, RefLoad(if i == 0 then 1 else 0))
    case Holding(p, at) => (x, UnrefFind(0, p, at))
    case UnrefFind(i, p, at) =>
      if i >= 2 then (x, Lost(p, at))
      else if Val(x[i]) == p then (x, UnrefLoad(i, p, at))
      else (x, UnrefFind(i + 1, p, at))
    case UnrefLoad(i, p, at) =>
      if i < 2 && Cnt(x[i]) > 0 then (x, UnrefCas(i, p, at, x[i])) else (x, Lost(p, at))
    case UnrefCas(i, p, at, xx) =>
      if i < 2 && x[i] == xx && xx > 0 then (x[i := xx - 1], Idle) else (x, UnrefLoad(i, p, at))
    case Lost(_, _) => (x, r)
  }

  // rcu_update and __rcu_gc; from Rest it begins with the pointer given.
  function UpdaterStep(x: seq<nat>, up: Updater, ptr: nat): (res: (seq<nat>, Updater))
    requires |x| == 2
    ensures |res.0| == 2
  {
    match up
    case Rest => (x, UpFind(0, ptr))
    case UpFind(i, p) =>
      if i >= 2 then (x, UpFailed)
      else if !IsValid(x[i]) then (x, UpStore(i, p))
      else (x, UpFind(i + 1, p))
    case UpStore(i, p) => if i < 2 then (x[i := NewWord(p)], GcLoad(i)) else (x, UpFailed)
    case GcLoad(i) => if i < 2 then (x, GcCas(i, x[1 - i])) else (x, UpFailed)
    case GcCas(i, x0) =>
      if i < 2 && x[1 - i] == x0 then (x[1 - i := Cleared(x0)], GcDrain(i)) else (x, GcLoad(i))
    case GcDrain(i) => if i < 2 && Cnt(x[1 - i]) == 0 then (x, Rest) else (x, up)
    case UpFailed => (x, up)
  }

  // What a caller must keep: references come from the state's readers, and the
  // pointer of a new update has 48 bits and is not the current one (the assertion of line 2693).
  ghost predicate Allowed(s: State, a: Act) {
    match a
    case Read(t) => t in s.rd
    case Update(p) => s.up.Rest? ==> p < 0x1_0000_0000_0000 && forall i :: 0 <= i < |s.x| && IsValid(s.x[i]) ==> Val(s.x[i]) != p
  }

  ghost function Do(s: State, a: Act): State
    requires |s.x| == 2 && Allowed(s, a)
  {
    match a
    case Read(t) =>
      var (x2, r2) := ReaderStep(s.x, s.rd[t]);
      State(x2, s.rd[t := r2], s.up)
    case Update(p) =>
      var (x2, u2) := UpdaterStep(s.x, s.up, p);
      State(x2, s.rd, u2)
  }

  // rcu_node_init: a valid null pointer, and an invalid non-null one.
  ghost predicate Init(s: State) {
    && s.x == [0x8000, 0xffff_ffff_ffff_0000] && s.up == Rest
    && |s.rd| < 0x8000 && forall t :: t in s.rd ==> s.rd[t] == Idle
  }

  // ---- the invariant ----

  // The slot a reference is counted in.
  predicate HoldsAt(r: Reader, i: nat) {
    match r
    case Holding(_, at) => at == i
    case UnrefFind(_, _, at) => at == i
    case UnrefLoad(_, _, at) => at == i
    case UnrefCas(_, _, at, _) => at == i
    case Lost(_, at) => at == i
    case _ => false
  }

  ghost function Holders(rd: map<Tid, Reader>, i: nat): set<Tid> {
    set t | t in rd && HoldsAt(rd[t], i)
  }

  ghost predicate ReaderOk(x: seq<nat>, r: Reader)
    requires |x| == 2
  {
    match r
    case Idle => true
    case RefLoad(i) => i < 2
    case RefCas(i, v) => i < 2 && IsValid(v)
    case Holding(p, at) => at < 2 && Val(x[at]) == p
    case UnrefFind(i, p, at) => at < 2 && i <= at && Val(x[at]) == p
    case UnrefLoad(i, p, at) => at < 2 && i == at && Val(x[at]) == p
    case UnrefCas(i, p, at, xx) => at < 2 && i == at && Val(x[at]) == p && Cnt(xx) > 0
    case Lost(_, _) => false
  }

  // Slot i is current, the other one drained.
  ghost predicate Settled(x: seq<nat>, i: nat)
    requires |x| == 2
  {
    i < 2 && IsValid(x[i]) && !IsValid(x[1 - i]) && Cnt(x[1 - i]) == 0
  }

  ghost predicate UpdaterOk(x: seq<nat>, up: Updater)
    requires |x| == 2
  {
    match up
    case Rest => Settled(x, 0) || Settled(x, 1)
    case UpFind(i, p) => i < 2 && (Settled(x, 0) || (i == 0 && Settled(x, 1))) &&
      forall j :: 0 <= j < 2 && IsValid(x[j]) ==> Val(x[j]) != p
    case UpStore(i, p) => i < 2 && Settled(x, 1 - i) && Val(x[1 - i]) != p
    case GcLoad(i) => i < 2 && IsValid(x[i]) && IsValid(x[1 - i])
    case GcCas(i, x0) => i < 2 && IsValid(x[i]) && IsValid(x[1 - i]) && IsValid(x0)
    case GcDrain(i) => i < 2 && IsValid(x[i]) && !IsValid(x[1 - i])
    case UpFailed => false
  }

  ghost predicate Counted(x: seq<nat>, rd: map<Tid, Reader>)
    requires |x| == 2
  {
    forall i :: 0 <= i < 2 ==> Cnt(x[i]) == |Holders(rd, i)|
  }

  // Each slot's count is the number of references held on it, the two pointers
  // differ, and no assertion of the code fails.
  ghost predicate Inv(s: State) {
    && |s.x| == 2 && |s.rd| < 0x8000
    && Val(s.x[0]) != Val(s.x[1])
    && Counted(s.x, s.rd)
    && (forall t :: t in s.rd ==> ReaderOk(s.x, s.rd[t]))
    && UpdaterOk(s.x, s.up)
  }

  lemma InitInv(s: State)
    requires Init(s)
    ensures Inv(s)
  {
    assert Holders(s.rd, 0) == {} && Holders(s.rd, 1) == {};
  }

  // ---- words ----

  // A word is its upper 49 bits and its count.
  lemma Parts(w: nat, k: nat, c: nat)
    requires w == 0x8000 * k + c && c < 0x8000
    ensures w / 0x8000 == k && Cnt(w) == c && Val(w) == k / 2
  {
  }

  lemma OneMore(w: nat)
    ensures Cnt(w) < 0x7fff ==> Val(w + 1) == Val(w) && (IsValid(w + 1) <==> IsValid(w)) && Cnt(w + 1) == Cnt(w) + 1
    ensures Cnt(w) > 0 ==> w > 0 && Val(w - 1) == Val(w) && (IsValid(w - 1) <==> IsValid(w)) && Cnt(w - 1) == Cnt(w) - 1
  {
    var k, c := w / 0x8000, w % 0x8000;
    Parts(w, k, c);
    if c < 0x7fff {
      Parts(w + 1, k, c + 1);
    }
    if c > 0 {
      Parts(w - 1, k, c - 1);
    }
  }

  lemma ClearedWord(w: nat)
    ensures Val(Cleared(w)) == Val(w) && !IsValid(Cleared(w)) && Cnt(Cleared(w)) == Cnt(w)
  {
    var k, c := w / 0x8000, w % 0x8000;
    Parts(w, k, c);
    if k % 2 == 1 {
      Parts(w - 0x8000, k - 1, c);
    }
  }

  lemma FreshWord(p: nat)
    ensures Val(NewWord(p)) == p && IsValid(NewWord(p)) && Cnt(NewWord(p)) == 0
  {
    Parts(NewWord(p), 2 * p + 1, 0);
  }

  // ---- counting references ----

  lemma HoldersMove(rd: map<Tid, Reader>, t: Tid, r2: Reader, i: nat)
    requires t in rd
    ensures Holders(rd[t := r2], i) == if HoldsAt(r2, i) then Holders(rd, i) + {t} else Holders(rd, i) - {t}
    ensures t in Holders(rd, i) <==> HoldsAt(rd[t], i)
    ensures |Holders(rd[t := r2], i)| ==
            |Holders(rd, i)| - (if HoldsAt(rd[t], i) then 1 else 0) + (if HoldsAt(r2, i) then 1 else 0)
  {
    assert Holders(rd[t := r2], i) == if HoldsAt(r2, i) then Holders(rd, i) + {t} else Holders(rd, i) - {t};
  }

  // There are fewer references on a slot than readers, when one holds none.
  lemma HoldersFew(rd: map<Tid, Reader>, t: Tid, i: nat)
    requires t in rd && !HoldsAt(rd[t], i)
    ensures |Holders(rd, i)| < |rd|
  {
    SubsetSize(Holders(rd, i), rd.Keys - {t});
    assert |rd.Keys| == |rd|;
  }

  // A held slot has a positive count.
  lemma HoldersSome(rd: map<Tid, Reader>, t: Tid, i: nat)
    requires t in rd && HoldsAt(rd[t], i)
    ensures |Holders(rd, i)| > 0
  {
    assert t in Holders(rd, i);
  }

  // ---- every step keeps the invariant ----

  // A reader's step changes no pointer and no valid bit, and a count exactly
  // as the reference it takes or gives back.
  lemma ReaderWords(x: seq<nat>, r: Reader, i: nat)
    requires |x| == 2 && i < 2 && ReaderOk(x, r)
    requires !HoldsAt(r, i) ==> Cnt(x[i]) < 0x7fff
    requires HoldsAt(r, i) ==> Cnt(x[i]) > 0
    ensures var (x2, r2) := ReaderStep(x, r);
      && Val(x2[i]) == Val(x[i]) && IsValid(x2[i]) == IsValid(x[i])
      && Cnt(x2[i]) == Cnt(x[i]) - (if HoldsAt(r, i) then 1 else 0) + (if HoldsAt(r2, i) then 1 else 0)
  {
    hide Val, Cnt, IsValid;
    OneMore(x[i]);
  }

  // A reader never loses its slot: the first pointer equal to its own is in the
  // slot it was counted in.
  lemma ReaderStepOk(x: seq<nat>, r: Reader)
    requires |x| == 2 && ReaderOk(x, r) && Val(x[0]) != Val(x[1])
    requires forall i :: 0 <= i < 2 && HoldsAt(r, i) ==> Cnt(x[i]) > 0
    ensures ReaderOk(x, ReaderStep(x, r).1)
  {
    hide Val, Cnt, IsValid;
  }

  lemma ReaderStays(x: seq<nat>, x2: seq<nat>, r: Reader)
    requires |x| == |x2| == 2 && ReaderOk(x, r)
    requires forall i :: 0 <= i < 2 && HoldsAt(r, i) ==> Val(x2[i]) == Val(x[i])
    ensures ReaderOk(x2, r)
  {
    hide Val, Cnt, IsValid;
  }

  lemma UpdaterStays(x: seq<nat>, x2: seq<nat>, up: Updater)
    requires |x| == |x2| == 2 && UpdaterOk(x, up)
    requires forall i :: 0 <= i < 2 ==> Val(x2[i]) == Val(x[i]) && IsValid(x2[i]) == IsValid(x[i])
    requires forall i :: 0 <= i < 2 && !IsValid(x[i]) && Cnt(x[i]) == 0 ==> Cnt(x2[i]) == 0
    ensures UpdaterOk(x2, up)
  {
    hide Val, Cnt, IsValid;
  }

  lemma ReadKeeps(s: State, t: Tid)
    requires Inv(s) && t in s.rd
    ensures Inv(Do(s, Read(t)))
  {
    hide Val, Cnt, IsValid, Holders, ReaderStep, ReaderOk, UpdaterOk;
    var r := s.rd[t];
    var (x2, r2) := ReaderStep(s.x, r);
    var rd2 := s.rd[t := r2];
    assert rd2.Keys == s.rd.Keys;
    assert |rd2| == |rd2.Keys|;
    forall i | 0 <= i < 2
      ensures Val(x2[i]) == Val(s.x[i]) && IsValid(x2[i]) == IsValid(s.x[i])
      ensures Cnt(x2[i]) == |Holders(rd2, i)|
      ensures HoldsAt(r, i) ==> Cnt(s.x[i]) > 0
      ensures !IsValid(s.x[i]) ==> (HoldsAt(r2, i) ==> HoldsAt(r, i))
    {
      ReadSlot(s, t, i);
    }
    forall u | u in rd2 ensures ReaderOk(x2, rd2[u]) {
      if u == t {
        ReaderStepOk(s.x, r);
        ReaderStays(s.x, x2, r2);
      } else {
        ReaderStays(s.x, x2, s.rd[u]);
      }
    }
    forall i | 0 <= i < 2 && !IsValid(s.x[i]) && Cnt(s.x[i]) == 0 ensures Cnt(x2[i]) == 0 {
      ReadSlot(s, t, i);
    }
    UpdaterStays(s.x, x2, s.up);
  }

  // One slot's part in a reader's step.
  lemma ReadSlot(s: State, t: Tid, i: nat)
    requires Inv(s) && t in s.rd && i < 2
    ensures var (x2, r2) := ReaderStep(s.x, s.rd[t]);
      && Val(x2[i]) == Val(s.x[i]) && IsValid(x2[i]) == IsValid(s.x[i])
      && Cnt(x2[i]) == |Holders(s.rd[t := r2], i)|
      && Cnt(x2[i]) == Cnt(s.x[i]) - (if HoldsAt(s.rd[t], i) then 1 else 0) + (if HoldsAt(r2, i) then 1 else 0)
      && (HoldsAt(s.rd[t], i) ==> Cnt(s.x[i]) > 0)
      && (!IsValid(s.x[i]) && HoldsAt(r2, i) ==> HoldsAt(s.rd[t], i))
  {
    hide Val, Cnt, IsValid, Holders, UpdaterOk;
    var r := s.rd[t];
    assert ReaderOk(s.x, r);
    if HoldsAt(r, i) {
      HoldersSome(s.rd, t, i);
    } else {
      HoldersFew(s.rd, t, i);
    }
    ReaderWords(s.x, r, i);
    HoldersMove(s.rd, t, ReaderStep(s.x, r).1, i);
  }

  // ---- the updater ----

  lemma UpdateKeeps(s: State, p: nat)
    requires Inv(s) && Allowed(s, Update(p))
    ensures Inv(Do(s, Update(p)))
  {
    hide Val, Cnt, IsValid, Holders, ReaderOk;
    var (x2, u2) := UpdaterStep(s.x, s.up, p);
    forall i | 0 <= i < 2
      ensures Cnt(x2[i]) == Cnt(s.x[i])
      ensures Val(x2[i]) != Val(s.x[i]) ==> Cnt(s.x[i]) == 0
    {
      UpdaterWords(s.x, s.up, p, i);
    }
    forall t | t in s.rd ensures ReaderOk(x2, s.rd[t]) {
      forall i | 0 <= i < 2 && HoldsAt(s.rd[t], i) ensures Val(x2[i]) == Val(s.x[i]) {
        HoldersSome(s.rd, t, i);
      }
      ReaderStays(s.x, x2, s.rd[t]);
    }
    UpdaterStepOk(s.x, s.up, p);
  }

  lemma UpdaterWords(x: seq<nat>, up: Updater, p: nat, i: nat)
    requires |x| == 2 && i < 2 && UpdaterOk(x, up)
    ensures var (x2, u2) := UpdaterStep(x, up, p);
      && Cnt(x2[i]) == Cnt(x[i])
      && (Val(x2[i]) != Val(x[i]) ==> Cnt(x[i]) == 0)
  {
    hide Val, Cnt, IsValid, Cleared, NewWord;
    ClearedWord(x[i]);
    if up.UpStore? {
      FreshWord(up.ptr);
    }
  }

  lemma UpdaterStepOk(x: seq<nat>, up: Updater, p: nat)
    requires |x| == 2 && UpdaterOk(x, up) && Val(x[0]) != Val(x[1])
    requires up.Rest? ==> forall i :: 0 <= i < 2 && IsValid(x[i]) ==> Val(x[i]) != p
    ensures var (x2, u2) := UpdaterStep(x, up, p);
      UpdaterOk(x2, u2) && Val(x2[0]) != Val(x2[1])
  {
    hide Val, Cnt, IsValid, Cleared, NewWord;
    ClearedWord(x[0]);
    ClearedWord(x[1]);
    if up.UpStore? {
      FreshWord(up.ptr);
    }
  }

  // ---- whole runs ----

  ghost predicate Run(ss: seq<State>, acts: seq<Act>) {
    && |ss| == |acts| + 1 && Inv(ss[0])
    && forall k :: 0 <= k < |acts| ==> |ss[k].x| == 2 && Allowed(ss[k], acts[k]) && ss[k + 1] == Do(ss[k], acts[k])
  }

  lemma {:induction false} Always(ss: seq<State>, acts: seq<Act>, n: nat)
    requires Run(ss, acts) && n <= |acts|
    ensures Inv(ss[n])
  {
    if n > 0 {
      Always(ss, acts, n - 1);
      StepKeeps(ss[n - 1], acts[n - 1]);
    }
  }

  lemma StepKeeps(s: State, a: Act)
    requires Inv(s) && Allowed(s, a)
    ensures Inv(Do(s, a))
  {
    match a {
      case Read(t) => ReadKeeps(s, t);
      case Update(p) => UpdateKeeps(s, p);
    }
  }

  // In every reachable state a reader can take a reference, every held pointer
  // is in the slot that counts it, and no assertion of the code has failed.
  lemma Safety(s: State)
    requires Inv(s)
    ensures IsValid(s.x[0]) || IsValid(s.x[1])
    ensures Val(s.x[0]) != Val(s.x[1]) && !s.up.UpFailed?
    ensures forall t :: t in s.rd ==> !s.rd[t].Lost?
    ensures forall t :: t in s.rd && s.rd[t].Holding? ==>
      s.rd[t].at < 2 && Val(s.x[s.rd[t].at]) == s.rd[t].ptr && Cnt(s.x[s.rd[t].at]) > 0
  {
    hide Val, IsValid, Cnt, Holders;
    forall t | t in s.rd
      ensures !s.rd[t].Lost?
      ensures s.rd[t].Holding? ==>
        s.rd[t].at < 2 && Val(s.x[s.rd[t].at]) == s.rd[t].ptr && Cnt(s.x[s.rd[t].at]) > 0
    {
      assert ReaderOk(s.x, s.rd[t]);
      if s.rd[t].Holding? {
        HoldersSome(s.rd, t, s.rd[t].at);
      }
    }
  }

  // No reader holds pointer p, nor can get it from either slot.
  ghost predicate Gone(s: State, p: nat) {
    && |s.x| == 2
    && (forall i :: 0 <= i < 2 && Val(s.x[i]) == p ==> !IsValid(s.x[i]) && Cnt(s.x[i]) == 0)
    && !(s.up.UpFind? && s.up.ptr == p) && !(s.up.UpStore? && s.up.ptr == p)
  }

  ghost predicate Unheld(s: State, p: nat) {
    forall t :: t in s.rd ==> !(s.rd[t].Holding? && s.rd[t].ptr == p)
  }

  lemma GoneUnheld(s: State, p: nat)
    requires Inv(s) && Gone(s, p)
    ensures Unheld(s, p)
  {
    hide Val, IsValid, Cnt, Holders;
    Safety(s);
  }

  // When rcu_update returns, the pointer it replaced is gone.
  lemma GracePeriod(s: State, p: nat)
    requires Inv(s) && s.up.GcDrain? && Do(s, Update(p)).up == Rest
    ensures s.up.i < 2 && IsValid(s.x[s.up.i]) && Gone(Do(s, Update(p)), Val(s.x[1 - s.up.i]))
  {
    hide Val, IsValid, Cnt, Holders;
  }

  // The drain loop ends exactly when the last reference on the old slot has
  // been given back.
  lemma DrainEnds(s: State, p: nat)
    requires Inv(s) && s.up.GcDrain?
    ensures Do(s, Update(p)).up == Rest <==> Holders(s.rd, 1 - s.up.i) == {}
  {
    assert |Holders(s.rd, 1 - s.up.i)| == 0 <==> Holders(s.rd, 1 - s.up.i) == {};
  }

  // n steps of the updater alone.
  function UpdaterRuns(x: seq<nat>, up: Updater, ptr: nat, n: nat): (res: (seq<nat>, Updater))
    requires |x| == 2
    ensures |res.0| == 2
    decreases n
  {
    if n == 0 then (x, up)
    else
      var (x2, u2) := UpdaterStep(x, up, ptr);
      UpdaterRuns(x2, u2, ptr, n - 1)
  }

  // Undisturbed, the updater gets to its drain loop in at most six steps, and
  // the new pointer is current.
  lemma UpdateDrains(s: State, p: nat) returns (n: nat)
    requires Inv(s) && s.up.Rest? && Allowed(s, Update(p))
    ensures n <= 6 && UpdaterRuns(s.x, s.up, p, n).1.GcDrain?
    ensures var (x2, u2) := UpdaterRuns(s.x, s.up, p, n); u2.i < 2 && x2[u2.i] == NewWord(p)
  {
    hide Val, Cnt, IsValid, NewWord, Cleared;
    n := if IsValid(s.x[0]) then 6 else 5;
    var x1 := UpdaterRuns(s.x, s.up, p, n - 2);
    assert UpdaterRuns(s.x, s.up, p, n) == UpdaterRuns(x1.0, x1.1, p, 2) by {
      RunsOn(s.x, s.up, p, n - 2, 2);
    }
  }

  lemma {:induction false} RunsOn(x: seq<nat>, up: Updater, ptr: nat, n: nat, m: nat)
    requires |x| == 2
    ensures UpdaterRuns(x, up, ptr, n + m) == var r := UpdaterRuns(x, up, ptr, n); UpdaterRuns(r.0, r.1, ptr, m)
    decreases n
  {
    if n > 0 {
      var (x2, u2) := UpdaterStep(x, up, ptr);
      RunsOn(x2, u2, ptr, n - 1, m);
    }
  }

  // Undisturbed, a reader that has looked at a valid slot holds its pointer two
  // steps later, and one that has looked at an invalid one looks at the other.
  lemma ReaderHolds(s: State, t: Tid)
    requires Inv(s) && t in s.rd && s.rd[t].RefLoad?
    ensures s.rd[t].i < 2
    ensures var i := s.rd[t].i; var s1 := Do(s, Read(t)); var s2 := Do(s1, Read(t));
      if IsValid(s.x[i]) then s2.rd[t] == Holding(Val(s.x[i]), i)
      else IsValid(s.x[1 - i]) && s1.rd[t] == RefLoad(1 - i) && s1.x == s.x
  {
    hide Val, Cnt, Holders;
    Safety(s);
  }

  // Nobody gets it back until an update stores it again.
  lemma GoneStays(s: State, a: Act, p: nat)
    requires Inv(s) && Allowed(s, a) && Gone(s, p)
    requires !(a == Update(p) && s.up.Rest?)
    ensures Gone(Do(s, a), p)
  {
    hide Val, IsValid, Cnt, Holders;
    match a {
      case Read(t) =>
        ReadSlot(s, t, 0);
        ReadSlot(s, t, 1);
      case Update(q) =>
        GoneUpdate(s, q, p);
    }
  }

  lemma GoneUpdate(s: State, q: nat, p: nat)
    requires Inv(s) && Allowed(s, Update(q)) && Gone(s, p) && !(q == p && s.up.Rest?)
    ensures Gone(Do(s, Update(q)), p)
  {
    hide Val, IsValid, Cnt, Holders, NewWord, Cleared;
    ClearedWord(s.x[0]);
    ClearedWord(s.x[1]);
    if s.up.UpStore? {
      FreshWord(s.up.ptr);
    }
  }

  // The pointer a reader gets when no update runs.
  function Current(x: seq<nat>): nat
    requires |x| == 2
  {
    if IsValid(x[0]) then Val(x[0]) else Val(x[1])
  }

  // An update that began with `was` current is putting q in its place.
  ghost predicate Replaces(x: seq<nat>, up: Updater, was: nat, q: nat)
    requires |x| == 2
  {
    match up
    case Rest => false
    case UpFind(_, p) => p == q && Current(x) == was
    case UpStore(i, p) => p == q && i < 2 && Val(x[1 - i]) == was
    case GcLoad(i) => i < 2 && Val(x[i]) == q && Val(x[1 - i]) == was
    case GcCas(i, _) => i < 2 && Val(x[i]) == q && Val(x[1 - i]) == was
    case GcDrain(i) => i < 2 && Val(x[i]) == q && Val(x[1 - i]) == was
    case UpFailed => false
  }

  lemma ReplacesStep(s: State, a: Act, was: nat, q: nat)
    requires Inv(s) && Allowed(s, a) && Replaces(s.x, s.up, was, q) && Do(s, a).up != Rest
    ensures |Do(s, a).x| == 2 && Replaces(Do(s, a).x, Do(s, a).up, was, q)
  {
    hide Val, IsValid, Cnt, Holders, NewWord, Cleared, ReaderOk;
    match a {
      case Read(t) =>
        ReadSlot(s, t, 0);
        ReadSlot(s, t, 1);
      case Update(_) =>
        ClearedWord(s.x[0]);
        ClearedWord(s.x[1]);
        if s.up.UpStore? {
          FreshWord(s.up.ptr);
        }
    }
  }

  // rcu_update(q) runs from state b to state m + 1.
  ghost predicate Updates(ss: seq<State>, acts: seq<Act>, b: nat, m: nat, q: nat) {
    && Run(ss, acts) && b < m < |acts|
    && ss[b].up == Rest && acts[b] == Update(q) && ss[m + 1].up == Rest
    && forall k :: b < k <= m ==> ss[k].up != Rest
  }

  lemma {:induction false} Replacing(ss: seq<State>, acts: seq<Act>, b: nat, m: nat, q: nat, k: nat)
    requires Updates(ss, acts, b, m, q) && b < k <= m
    ensures Inv(ss[b]) && Inv(ss[k]) && Replaces(ss[k].x, ss[k].up, Current(ss[b].x), q)
  {
    hide Inv, Replaces, Current, Val, IsValid, Allowed;
    Always(ss, acts, b);
    Always(ss, acts, k - 1);
    Always(ss, acts, k);
    assert ss[k - 1 + 1] == Do(ss[k - 1], acts[k - 1]);
    if k == b + 1 {
      UpdateBegins(ss[b], q);
    } else {
      Replacing(ss, acts, b, m, q, k - 1);
      ReplacesStep(ss[k - 1], acts[k - 1], Current(ss[b].x), q);
    }
  }

  lemma UpdateBegins(s: State, q: nat)
    requires Inv(s) && Allowed(s, Update(q)) && s.up == Rest
    ensures Replaces(Do(s, Update(q)).x, Do(s, Update(q)).up, Current(s.x), q)
  {
    hide Holders, ReaderOk, Val, IsValid;
  }

  // Over a whole run: when rcu_update(q) returns, q is the current pointer, and
  // the pointer that was current when it began is gone - no reader holds it and
  // none can get it.
  lemma UpdateReturns(ss: seq<State>, acts: seq<Act>, b: nat, m: nat, q: nat)
    requires Updates(ss, acts, b, m, q)
    ensures |ss[b].x| == 2 && |ss[m + 1].x| == 2
    ensures Current(ss[m + 1].x) == q && Gone(ss[m + 1], Current(ss[b].x))
    ensures Unheld(ss[m + 1], Current(ss[b].x))
  {
    hide Val, IsValid, Cnt, Holders, Gone, Inv, Current, Replaces, Do, Allowed;
    var s, was := ss[m], Current(ss[b].x);
    Replacing(ss, acts, b, m, q, m);
    Always(ss, acts, m + 1);
    LastStep(s, acts[m], was, q);
    GoneUnheld(ss[m + 1], was);
  }

  lemma LastStep(s: State, a: Act, was: nat, q: nat)
    requires Inv(s) && Allowed(s, a) && Replaces(s.x, s.up, was, q) && Do(s, a).up == Rest
    ensures s.up.GcDrain? && a.Update? && s.up.i < 2 && Val(s.x[1 - s.up.i]) == was
    ensures Gone(Do(s, a), was) && |Do(s, a).x| == 2 && Current(Do(s, a).x) == q
  {
    hide Val, IsValid, Cnt, Holders, Gone, NewWord, Cleared;
    GracePeriod(s, a.ptr);
  }

  // ... and as long as no update is given that pointer again, no reader ever
  // holds it.
  lemma NeverAgain(ss: seq<State>, acts: seq<Act>, b: nat, m: nat, q: nat, n: nat)
    requires Updates(ss, acts, b, m, q) && m < n <= |acts| && |ss[b].x| == 2
    requires forall k :: m < k < n ==> acts[k] != Update(Current(ss[b].x))
    ensures Gone(ss[n], Current(ss[b].x)) && Unheld(ss[n], Current(ss[b].x))
  {
    hide Gone, Inv, Current, Do, Allowed;
    UpdateReturns(ss, acts, b, m, q);
    GoneAt(ss, acts, m, n, Current(ss[b].x));
    Always(ss, acts, n);
    GoneUnheld(ss[n], Current(ss[b].x));
  }

  lemma {:induction false} GoneAt(ss: seq<State>, acts: seq<Act>, m: nat, n: nat, p: nat)
    requires Run(ss, acts) && m < n <= |acts| && Gone(ss[m + 1], p)
    requires forall k :: m < k < n ==> acts[k] != Update(p)
    ensures Gone(ss[n], p)
  {
    hide Val, IsValid, Cnt, Holders, Gone, Inv, Do, Allowed;
    if n > m + 1 {
      GoneAt(ss, acts, m, n - 1, p);
      Always(ss, acts, n - 1);
      GoneStays(ss[n - 1], acts[n - 1], p);
    }
  }
}
