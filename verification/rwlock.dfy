// The reader/writer lock (lib1.c:102-168): any number of threads, one load,
// store or compare-exchange at a time.

module RwLock {
  import opened FiniteSets

  type Tid = nat

  const WBIT: nat := 0x8000_0000_0000_0000

  // Where a thread is; the loads keep the value they read.
  datatype Pc =
    | Idle
    | ReadLoad
    | ReadCas(v0: nat)
    | Reading
    | UnreadLoad
    | UnreadCas(v0: nat)
    | WriteLoad
    | WriteCas(v0: nat)
    | Draining
    | Writing

  datatype State = State(v: nat, pc: map<Tid, Pc>)

  // What an idle thread begins; ignored elsewhere.
  datatype Wish = WantRead | WantWrite

  // One step of one thread: rwlock_lock_read, rwlock_unlock_read,
  // rwlock_lock_write and rwlock_unlock_write.
  function Step(v: nat, pc: Pc, wish: Wish): (nat, Pc) {
    match pc
    case Idle => (v, if wish.WantRead? then ReadLoad else WriteLoad)
    case ReadLoad => if v < WBIT then (v, ReadCas(v)) else (v, ReadLoad)
    case ReadCas(v0) => if v == v0 then (v0 + 1, Reading) else (v, ReadLoad)
    case Reading => (v, UnreadLoad)
    case UnreadLoad => (v, UnreadCas(v))
    case UnreadCas(v0) => if v == v0 && v0 > 0 then (v0 - 1, Idle) else (v, UnreadLoad)
    case WriteLoad => if v < WBIT then (v, WriteCas(v)) else (v, WriteLoad)
    case WriteCas(v0) => if v == v0 then (v0 + WBIT, Draining) else (v, WriteLoad)
    case Draining => if v == WBIT then (v, Writing) else (v, Draining)
    case Writing => (0, Idle)
  }

  ghost function Do(s: State, t: Tid, wish: Wish): State
    requires t in s.pc
  {
    var (v2, pc2) := Step(s.v, s.pc[t], wish);
    State(v2, s.pc[t := pc2])
  }

  // A thread counted in the low bits, and a thread that owns the write bit.
  predicate Counts(pc: Pc) {
    pc.Reading? || pc.UnreadLoad? || pc.UnreadCas?
  }

  predicate Owns(pc: Pc) {
    pc.Draining? || pc.Writing?
  }

  ghost function Readers(pc: map<Tid, Pc>): set<Tid> {
    set t | t in pc && Counts(pc[t])
  }

  ghost predicate NoOwner(pc: map<Tid, Pc>) {
    forall t :: t in pc ==> !Owns(pc[t])
  }

  ghost predicate OneOwner(pc: map<Tid, Pc>, w: Tid) {
    w in pc && Owns(pc[w]) && forall t :: t in pc && t != w ==> !Owns(pc[t])
  }

  // The low bits count the readers, the write bit has one owner, and a writer
  // past its drain loop is alone.
  ghost predicate Inv(s: State) {
    && |s.pc| < WBIT
    && (if s.v < WBIT then s.v == |Readers(s.pc)| && NoOwner(s.pc)
        else s.v == WBIT + |Readers(s.pc)| && exists w :: OneOwner(s.pc, w))
    && (forall t :: t in s.pc && s.pc[t].Writing? ==> Readers(s.pc) == {})
    && (forall t :: t in s.pc && s.pc[t].ReadCas? ==> s.pc[t].v0 < WBIT)
    && (forall t :: t in s.pc && s.pc[t].WriteCas? ==> s.pc[t].v0 < WBIT)
  }

  lemma InitInv(pc: map<Tid, Pc>)
    requires |pc| < WBIT && forall t :: t in pc ==> pc[t] == Idle
    ensures Inv(State(0, pc))
  {
    assert Readers(pc) == {};
  }

  lemma ReadersMove(pc: map<Tid, Pc>, t: Tid, pc2: Pc)
    requires t in pc
    ensures Readers(pc[t := pc2]) == if Counts(pc2) then Readers(pc) + {t} else Readers(pc) - {t}
    ensures t in Readers(pc) <==> Counts(pc[t])
    ensures |Readers(pc[t := pc2])| == |Readers(pc)| - (if Counts(pc[t]) then 1 else 0) + (if Counts(pc2) then 1 else 0)
    ensures |pc[t := pc2]| == |pc|
  {
    assert Readers(pc[t := pc2]) == if Counts(pc2) then Readers(pc) + {t} else Readers(pc) - {t};
    assert pc[t := pc2].Keys == pc.Keys;
  }

  // There are fewer counted readers than threads, when one is not counted.
  lemma ReadersFew(pc: map<Tid, Pc>, t: Tid)
    requires t in pc
    ensures |Readers(pc)| <= |pc| && (!Counts(pc[t]) ==> |Readers(pc)| < |pc|)
    ensures Counts(pc[t]) ==> |Readers(pc)| > 0
  {
    assert |pc.Keys| == |pc|;
    SubsetSize(Readers(pc), pc.Keys);
    if Counts(pc[t]) {
      assert t in Readers(pc);
    } else {
      SubsetSize(Readers(pc), pc.Keys - {t});
    }
  }

  // Every step of every thread keeps it.
  lemma StepKeeps(s: State, t: Tid, wish: Wish)
    requires Inv(s) && t in s.pc
    ensures Inv(Do(s, t, wish))
  {
    hide Readers, OneOwner, NoOwner, Step;
    WordMove(s, t, wish);
    OwnersMove(s, t, wish);
    WriterAlone(s, t, wish);
    SavedMove(s, t, wish);
  }

  // The lock word counts the readers after the step.
  lemma WordMove(s: State, t: Tid, wish: Wish)
    requires Inv(s) && t in s.pc
    ensures var s2 := Do(s, t, wish);
      && |s2.pc| < WBIT
      && (s2.v < WBIT ==> s2.v == |Readers(s2.pc)|) && (s2.v >= WBIT ==> s2.v == WBIT + |Readers(s2.pc)|)
  {
    hide Readers, OneOwner, NoOwner;
    ReadersMove(s.pc, t, Do(s, t, wish).pc[t]);
    ReadersFew(s.pc, t);
    if s.pc[t].Writing? {
      NobodyReads(s, t);
      SomeOwner(s, t);
    }
  }

  lemma NobodyReads(s: State, t: Tid)
    requires Inv(s) && t in s.pc && s.pc[t].Writing?
    ensures |Readers(s.pc)| == 0
  {
    hide Readers, OneOwner, NoOwner;
  }

  lemma SomeOwner(s: State, t: Tid)
    requires Inv(s) && t in s.pc && Owns(s.pc[t])
    ensures s.v >= WBIT
  {
    hide Readers, OneOwner;
  }

  // The words the loads have kept.
  lemma SavedMove(s: State, t: Tid, wish: Wish)
    requires Inv(s) && t in s.pc
    ensures var s2 := Do(s, t, wish);
      && (forall u :: u in s2.pc && s2.pc[u].ReadCas? ==> s2.pc[u].v0 < WBIT)
      && (forall u :: u in s2.pc && s2.pc[u].WriteCas? ==> s2.pc[u].v0 < WBIT)
  {
    hide Readers, OneOwner, NoOwner;
  }

  // The owner of the write bit, before and after.
  lemma OwnersMove(s: State, t: Tid, wish: Wish)
    requires Inv(s) && t in s.pc
    ensures Do(s, t, wish).v < WBIT ==> NoOwner(Do(s, t, wish).pc)
    ensures Do(s, t, wish).v >= WBIT ==> exists w :: OneOwner(Do(s, t, wish).pc, w)
  {
    hide Readers;
    var s2 := Do(s, t, wish);
    ReadersFew(s.pc, t);
    if s.v >= WBIT {
      var w :| OneOwner(s.pc, w);
      assert s2.v >= WBIT ==> OneOwner(s2.pc, w);
    } else {
      assert s2.v >= WBIT ==> OneOwner(s2.pc, t);
    }
  }

  lemma WriterAlone(s: State, t: Tid, wish: Wish)
    requires Inv(s) && t in s.pc
    ensures forall u :: u in Do(s, t, wish).pc && Do(s, t, wish).pc[u].Writing? ==> Readers(Do(s, t, wish).pc) == {}
  {
    hide Readers, OneOwner;
    var s2 := Do(s, t, wish);
    ReadersMove(s.pc, t, s2.pc[t]);
    ReadersFew(s.pc, t);
  }

  // Over any run from any start.
  ghost predicate Run(ss: seq<State>, who: seq<(Tid, Wish)>) {
    && |ss| == |who| + 1 && Inv(ss[0])
    && forall k :: 0 <= k < |who| ==> who[k].0 in ss[k].pc && ss[k + 1] == Do(ss[k], who[k].0, who[k].1)
  }

  // In every reachable state a thread that writes excludes every reader and
  // every other writer.
  lemma {:induction false} Exclusion(ss: seq<State>, who: seq<(Tid, Wish)>, n: nat, w: Tid)
    requires Run(ss, who) && n <= |who|
    ensures Inv(ss[n])
    ensures w in ss[n].pc && ss[n].pc[w].Writing? ==>
      forall t :: t in ss[n].pc && t != w ==> !Counts(ss[n].pc[t]) && !Owns(ss[n].pc[t])
  {
    if n > 0 {
      Exclusion(ss, who, n - 1, w);
      StepKeeps(ss[n - 1], who[n - 1].0, who[n - 1].1);
    }
    WritingAlone(ss[n], w);
  }

  lemma WritingAlone(s: State, w: Tid)
    requires Inv(s)
    ensures w in s.pc && s.pc[w].Writing? ==>
      forall t :: t in s.pc && t != w ==> !Counts(s.pc[t]) && !Owns(s.pc[t])
  {
    if w in s.pc && s.pc[w].Writing? {
      forall t | t in s.pc && t != w ensures !Counts(s.pc[t]) && !Owns(s.pc[t]) {
        assert t !in Readers(s.pc);
      }
    }
  }

  // Once the write bit is set no reader enters: the readers only go.
  lemma NoEntry(s: State, t: Tid, wish: Wish)
    requires Inv(s) && t in s.pc && s.v >= WBIT
    ensures Readers(Do(s, t, wish).pc) <= Readers(s.pc)
  {
    ReadersMove(s.pc, t, Do(s, t, wish).pc[t]);
  }

  // The plain store of an unlocking writer overwrites the write bit alone: no
  // reader's count is in the word.
  lemma StoreLosesNone(s: State, t: Tid, wish: Wish)
    requires Inv(s) && t in s.pc && s.pc[t].Writing?
    ensures s.v == WBIT && Readers(s.pc) == {} && Do(s, t, wish).v == 0 == |Readers(Do(s, t, wish).pc)|
  {
    ReadersMove(s.pc, t, Idle);
  }

  // A lock is taken by whoever tries it undisturbed: a reader while no writer
  // has the write bit, a writer when there are no readers either.
  lemma Enters(s: State, t: Tid, wish: Wish)
    requires Inv(s) && t in s.pc && s.pc[t] == Idle && s.v < WBIT
    ensures var s1 := Do(s, t, wish); var s2 := Do(s1, t, wish); var s3 := Do(s2, t, wish);
      if wish.WantRead? then s3.pc[t] == Reading
      else s3.pc[t] == Draining && (Readers(s.pc) == {} ==> Do(s3, t, wish).pc[t] == Writing)
  {
    assert |Readers(s.pc)| == 0 <==> Readers(s.pc) == {};
  }

  // A draining writer is not held up once the last reader has gone.
  lemma DrainEnds(s: State, t: Tid, wish: Wish)
    requires Inv(s) && t in s.pc && s.pc[t].Draining?
    ensures Do(s, t, wish).pc[t].Writing? <==> Readers(s.pc) == {}
  {
    assert |Readers(s.pc)| == 0 <==> Readers(s.pc) == {};
  }
}
