// The asynchronous generator (lib1.c:2463-2538): a worker fills a ring of
// buffers ahead of one reader, one atomic access at a time.

module Rgen {
  const BUFFER_NR: nat := 4

  // rgen_worker. i and j are its two loop counters.
  datatype Worker =
    | Check(i: nat)
    | Slept(i: nat)
    | Fill(i: nat, j: nat)
    | Publish(i: nat)
    | Halted

  // rgen_async_next_wait; Wait is the spin of rgen_async_wait_at.
  datatype Reader =
    | Ready
    | Wait
    | Take
    | Release(id0: nat)
    | Advance(id0: nat)

  datatype State = State(
    nr: nat, wide: bool,
    buf: seq<seq<nat>>, avail: seq<bool>, running: bool,
    w: Worker, r: Reader, reader_id: nat, i: nat,
    // what real_next has produced, buffer by buffer and in the buffer at hand,
    // how many buffers have been read out, and what has been returned
    full: seq<seq<nat>>, cur: seq<nat>, read: nat, out: seq<nat>)

  // The choices left to the environment: the value real_next produces.
  datatype Act = Work(v: nat) | Read | Stop

  // A produced value as it is stored: a u64, or cut to a u32.
  function Cut(wide: bool, v: nat): nat {
    if wide then v % 0x1_0000_0000_0000_0000 else v % 0x1_0000_0000
  }

  function Store(b: seq<nat>, j: nat, x: nat): seq<nat>
    requires j < |b|
  {
    b[j := x]
  }

  function Next(i: nat): nat {
    (i + 1) % BUFFER_NR
  }

  predicate Sized(s: State) {
    && s.nr > 0 && |s.buf| == |s.avail| == BUFFER_NR
    && (forall b :: 0 <= b < BUFFER_NR ==> |s.buf[b]| == s.nr)
    && s.reader_id < BUFFER_NR && s.i < s.nr
    && (match s.w
        case Check(i) => i < BUFFER_NR
        case Slept(i) => i < BUFFER_NR
        case Fill(i, j) => i < BUFFER_NR && j < s.nr
        case Publish(i) => i < BUFFER_NR
        case Halted => true)
    && (match s.r
        case Release(id0) => id0 < BUFFER_NR
        case Advance(id0) => id0 < BUFFER_NR
        case _ => true)
  }

  ghost function WorkerStep(s: State, v: nat): State
    requires Sized(s)
  {
    match s.w
    case Check(i) => s.(w := if s.avail[i] then Slept(i) else Fill(i, 0))
    case Slept(i) => s.(w := if s.running then Check(i) else Halted)
    case Fill(i, j) =>
      s.(buf := s.buf[i := Store(s.buf[i], j, Cut(s.wide, v))], cur := s.cur + [v],
        w := if j + 1 == s.nr then Publish(i) else Fill(i, j + 1))
    case Publish(i) =>
      s.(avail := s.avail[i := true], full := s.full + [s.cur], cur := [], w := Check(Next(i)))
    case Halted => s
  }

  ghost function ReaderStep(s: State): State
    requires Sized(s)
  {
    match s.r
    case Ready => s.(r := if s.i == 0 then Wait else Take)
    case Wait => s.(r := if s.avail[s.reader_id] then Take else Wait)
    case Take =>
      var s2 := s.(out := s.out + [s.buf[s.reader_id][s.i]]);
      if s.i + 1 >= s.nr then s2.(r := Release(s.reader_id)) else s2.(i := s.i + 1, r := Ready)
    case Release(id0) => s.(avail := s.avail[id0 := false], read := s.read + 1, r := Advance(id0))
    case Advance(id0) => s.(reader_id := Next(id0), i := 0, r := Ready)
  }

  ghost function Do(s: State, a: Act): State
    requires Sized(s)
  {
    match a
    case Work(v) => WorkerStep(s, v)
    case Read => ReaderStep(s)
    case Stop => s.(running := false)
  }

  // rgen_async_convert
  ghost predicate Init(s: State) {
    && Sized(s) && s.running && s.w == Check(0) && s.r == Ready && s.reader_id == 0 && s.i == 0
    && (forall b :: 0 <= b < BUFFER_NR ==> !s.avail[b])
    && s.full == [] && s.cur == [] && s.read == 0 && s.out == []
  }

  function Cuts(wide: bool, vs: seq<nat>): (r: seq<nat>)
    ensures |r| == |vs|
  {
    seq(|vs|, k requires 0 <= k < |vs| => Cut(wide, vs[k]))
  }

  function Flat(bs: seq<seq<nat>>): seq<nat> {
    if bs == [] then [] else Flat(bs[..|bs| - 1]) + bs[|bs| - 1]
  }

  // Everything real_next has produced, in order.
  ghost function Produced(s: State): seq<nat> {
    Flat(s.full) + s.cur
  }

  // The number of values taken from the buffer being read.
  function Taken(s: State): nat {
    match s.r
    case Release(_) => s.nr
    case Advance(_) => 0
    case _ => s.i
  }

  // The first buffer number from g on that belongs in ring place b.
  function Nth(g: nat, b: nat): (f: nat) {
    g + (b + BUFFER_NR - g % BUFFER_NR) % BUFFER_NR
  }

  // Ring place b is available exactly when a buffer that belongs there has been
  // published and not read out, and then it holds that buffer.
  ghost predicate SlotOk(s: State, b: nat)
    requires Sized(s) && b < BUFFER_NR
  {
    && (s.avail[b] <==> Nth(s.read, b) < |s.full|)
    && (s.avail[b] ==> s.buf[b] == Cuts(s.wide, s.full[Nth(s.read, b)]))
  }

  ghost predicate WorkerOk(s: State)
    requires Sized(s)
  {
    match s.w
    case Check(i) => i == |s.full| % BUFFER_NR && s.cur == []
    case Slept(i) => i == |s.full| % BUFFER_NR && s.cur == []
    case Fill(i, j) => i == |s.full| % BUFFER_NR && |s.cur| == j && !s.avail[i] &&
      forall k :: 0 <= k < j ==> s.buf[i][k] == Cut(s.wide, s.cur[k])
    case Publish(i) => i == |s.full| % BUFFER_NR && !s.avail[i] && s.buf[i] == Cuts(s.wide, s.cur)
    case Halted => s.cur == []
  }

  ghost predicate ReaderOk(s: State)
    requires Sized(s)
  {
    match s.r
    case Ready => s.reader_id == s.read % BUFFER_NR && (s.i > 0 ==> s.read < |s.full|)
    case Wait => s.reader_id == s.read % BUFFER_NR && s.i == 0
    case Take => s.reader_id == s.read % BUFFER_NR && s.read < |s.full|
    case Release(id0) => id0 == s.reader_id == s.read % BUFFER_NR && s.read < |s.full|
    case Advance(id0) => id0 == s.reader_id && s.read > 0 && id0 == (s.read - 1) % BUFFER_NR
  }

  // The ring holds exactly the buffers still to be read, and the values
  // returned so far are the first produced.
  ghost predicate Inv(s: State) {
    && Sized(s) && WorkerOk(s) && ReaderOk(s)
    && s.read <= |s.full| <= s.read + BUFFER_NR
    && (forall b :: 0 <= b < BUFFER_NR ==> SlotOk(s, b))
    && (forall f :: 0 <= f < |s.full| ==> |s.full[f]| == s.nr)
    && OutOk(s)
  }

  ghost predicate OutOk(s: State)
    requires s.read <= |s.full|
  {
    s.out == Cuts(s.wide, Flat(s.full[..s.read])) +
      (if s.read < |s.full| && Taken(s) <= |s.full[s.read]| then Cuts(s.wide, s.full[s.read][..Taken(s)]) else [])
  }

  lemma InitInv(s: State)
    requires Init(s)
    ensures Inv(s)
  {
  }

  // ---- the worker keeps it ----

  lemma NthIs(g: nat, f: nat)
    requires g <= f < g + BUFFER_NR
    ensures Nth(g, f % BUFFER_NR) == f
  {
  }

  lemma NthStep(g: nat, b: nat)
    requires b < BUFFER_NR
    ensures g <= Nth(g, b) < g + BUFFER_NR && Nth(g, b) % BUFFER_NR == b
    ensures Nth(g + 1, b) == if b == g % BUFFER_NR then g + BUFFER_NR else Nth(g, b)
  {
  }

  // A place the worker may write is free for the next buffer.
  lemma FreePlace(s: State)
    requires Inv(s) && !s.avail[|s.full| % BUFFER_NR]
    ensures |s.full| < s.read + BUFFER_NR
  {
    hide Cut, OutOk, Nth, WorkerOk, ReaderOk;
    var b := |s.full| % BUFFER_NR;
    assert SlotOk(s, b);
    NthIs(s.read, s.read);
    assert s.read % BUFFER_NR == (s.read + BUFFER_NR) % BUFFER_NR;
  }

  lemma CutsMore(wide: bool, vs: seq<nat>, v: nat)
    ensures Cuts(wide, vs + [v]) == Cuts(wide, vs) + [Cut(wide, v)]
  {
    hide Cut;
  }

  lemma FillKeeps(s: State, v: nat)
    requires Inv(s) && s.w.Fill?
    ensures Inv(WorkerStep(s, v))
  {
    hide Cut, OutOk, Nth;
    var s2 := WorkerStep(s, v);
    forall b | 0 <= b < BUFFER_NR ensures SlotOk(s2, b) {
      assert SlotOk(s, b);
    }
    OutSame(s, s2);
    FillWorker(s, v);
  }

  lemma FillWorker(s: State, v: nat)
    requires Inv(s) && s.w.Fill?
    ensures Sized(WorkerStep(s, v)) && WorkerOk(WorkerStep(s, v))
  {
    hide Cut, OutOk, SlotOk;
    CutsMore(s.wide, s.cur, v);
  }

  // OutOk depends on what has been published, read out and returned only.
  lemma OutSame(s: State, s2: State)
    requires s.read <= |s.full| && OutOk(s)
    requires s2.wide == s.wide && s2.full == s.full && s2.read == s.read && s2.out == s.out && Taken(s2) == Taken(s)
    ensures OutOk(s2)
  {
  }

  lemma PublishKeeps(s: State, v: nat)
    requires Inv(s) && s.w.Publish?
    ensures Inv(WorkerStep(s, v))
  {
    hide Cut, OutOk, SlotOk, WorkerOk, Nth;
    var s2 := WorkerStep(s, v);
    PublishWorker(s, v);
    forall b | 0 <= b < BUFFER_NR ensures SlotOk(s2, b) {
      PublishSlot(s, v, b);
    }
    PublishOut(s, v);
  }

  lemma PublishWorker(s: State, v: nat)
    requires Inv(s) && s.w.Publish?
    ensures |s.full| < s.read + BUFFER_NR && |s.cur| == s.nr
    ensures Sized(WorkerStep(s, v)) && WorkerOk(WorkerStep(s, v))
  {
    hide Cut, OutOk, SlotOk, ReaderOk;
    FreePlace(s);
    assert |s.cur| == |Cuts(s.wide, s.cur)|;
  }

  lemma PublishSlot(s: State, v: nat, b: nat)
    requires Inv(s) && s.w.Publish? && b < BUFFER_NR && |s.full| < s.read + BUFFER_NR
    ensures Sized(WorkerStep(s, v)) && SlotOk(WorkerStep(s, v), b)
  {
    hide Cut, OutOk, Nth;
    assert SlotOk(s, b);
    NthIs(s.read, |s.full|);
    NthStep(s.read, b);
  }

  lemma PublishOut(s: State, v: nat)
    requires Inv(s) && s.w.Publish?
    ensures OutOk(WorkerStep(s, v))
  {
    hide Cut, SlotOk;
    var s2 := WorkerStep(s, v);
    assert s2.full[..s2.read] == s.full[..s.read];
    if s.read == |s.full| {
      assert Taken(s) == 0;
      assert s2.full[s.read][..0] == [];
    }
  }

  lemma WorkKeeps(s: State, v: nat)
    requires Inv(s)
    ensures Inv(WorkerStep(s, v))
  {
    hide Cut, SlotOk, OutOk, Nth;
    match s.w {
      case Fill(_, _) => FillKeeps(s, v);
      case Publish(_) => PublishKeeps(s, v);
      case _ => IdleKeeps(s, WorkerStep(s, v));
    }
  }

  // A step that changes no buffer and no history.
  lemma IdleKeeps(s: State, s2: State)
    requires Inv(s) && Sized(s2) && WorkerOk(s2) && ReaderOk(s2) && Taken(s2) == Taken(s)
    requires s2.wide == s.wide && s2.nr == s.nr && s2.buf == s.buf && s2.avail == s.avail
    requires s2.full == s.full && s2.cur == s.cur && s2.read == s.read && s2.out == s.out
    ensures Inv(s2)
  {
    hide Cut, OutOk, Nth;
    forall b | 0 <= b < BUFFER_NR ensures SlotOk(s2, b) {
      assert SlotOk(s, b);
    }
    OutSame(s, s2);
  }

  // ---- the reader keeps it ----

  // An available buffer at the reader's place is the next one to read.
  lemma NextReady(s: State)
    requires Inv(s) && s.reader_id == s.read % BUFFER_NR
    ensures s.avail[s.reader_id] <==> s.read < |s.full|
    ensures s.read < |s.full| ==> s.buf[s.reader_id] == Cuts(s.wide, s.full[s.read])
  {
    assert SlotOk(s, s.reader_id);
    NthIs(s.read, s.read);
  }

  lemma TakeKeeps(s: State)
    requires Inv(s) && s.r.Take?
    ensures Inv(ReaderStep(s))
  {
    hide Cut, OutOk, Nth;
    var s2 := ReaderStep(s);
    forall b | 0 <= b < BUFFER_NR ensures SlotOk(s2, b) {
      assert SlotOk(s, b);
    }
    TakeOut(s);
  }

  lemma TakeOut(s: State)
    requires Inv(s) && s.r.Take?
    ensures OutOk(ReaderStep(s))
  {
    hide Cut, SlotOk, WorkerOk, Flat, Nth;
    var g := s.full[s.read];
    NextReady(s);
    assert g[..s.i + 1] == g[..s.i] + [g[s.i]];
    CutsMore(s.wide, g[..s.i], g[s.i]);
  }

  lemma ReleaseKeeps(s: State)
    requires Inv(s) && s.r.Release?
    ensures Inv(ReaderStep(s))
  {
    hide Cut, OutOk, SlotOk;
    var s2 := ReaderStep(s);
    forall b | 0 <= b < BUFFER_NR ensures SlotOk(s2, b) {
      ReleaseSlot(s, b);
    }
    NextReady(s);
    ReleaseOut(s);
  }

  lemma ReleaseSlot(s: State, b: nat)
    requires Inv(s) && s.r.Release? && b < BUFFER_NR
    ensures Sized(ReaderStep(s)) && SlotOk(ReaderStep(s), b)
  {
    hide Cut, OutOk, Nth, WorkerOk;
    assert SlotOk(s, b);
    NthStep(s.read, b);
  }

  lemma ReleaseOut(s: State)
    requires Inv(s) && s.r.Release?
    ensures OutOk(ReaderStep(s))
  {
    hide Cut, SlotOk;
    var s2 := ReaderStep(s);
    var g := s.full[s.read];
    assert s.full[..s.read + 1][..s.read] == s.full[..s.read];
    assert g[..s.nr] == g;
    CutsJoin(s.wide, Flat(s.full[..s.read]), g);
    if s2.read < |s2.full| {
      assert s2.full[s2.read][..0] == [];
    }
  }

  lemma CutsJoin(wide: bool, a: seq<nat>, b: seq<nat>)
    ensures Cuts(wide, a + b) == Cuts(wide, a) + Cuts(wide, b)
  {
    hide Cut;
  }

  lemma ReadKeeps(s: State)
    requires Inv(s)
    ensures Inv(ReaderStep(s))
  {
    hide Cut, SlotOk, OutOk, Nth;
    match s.r {
      case Take => TakeKeeps(s);
      case Release(_) => ReleaseKeeps(s);
      case Wait =>
        NextReady(s);
        IdleKeeps(s, ReaderStep(s));
      case _ => IdleKeeps(s, ReaderStep(s));
    }
  }

  lemma StepKeeps(s: State, a: Act)
    requires Inv(s)
    ensures Inv(Do(s, a))
  {
    hide Cut, SlotOk, OutOk, Nth;
    match a {
      case Work(v) => WorkKeeps(s, v);
      case Read => ReadKeeps(s);
      case Stop => IdleKeeps(s, Do(s, a));
    }
  }

  // ---- whole runs ----

  ghost predicate Run(ss: seq<State>, acts: seq<Act>) {
    && |ss| == |acts| + 1 && Init(ss[0])
    && forall k :: 0 <= k < |acts| ==> Sized(ss[k]) && ss[k + 1] == Do(ss[k], acts[k])
  }

  lemma {:induction false} Always(ss: seq<State>, acts: seq<Act>, n: nat)
    requires Run(ss, acts) && n <= |acts|
    ensures Inv(ss[n])
  {
    if n == 0 {
      InitInv(ss[0]);
    } else {
      Always(ss, acts, n - 1);
      StepKeeps(ss[n - 1], acts[n - 1]);
    }
  }

  // The published history begins with each of its own beginnings.
  lemma {:induction false} FlatPrefix(bs: seq<seq<nat>>, n: nat)
    requires n < |bs|
    ensures Flat(bs[..n]) + bs[n] <= Flat(bs)
    decreases |bs|
  {
    if n == |bs| - 1 {
      assert bs[..n] == bs[..|bs| - 1];
    } else {
      var b2 := bs[..|bs| - 1];
      FlatPrefix(b2, n);
      assert b2[..n] == bs[..n];
    }
  }

  // Lossless and in order: the k-th value returned is the k-th value real_next
  // produced, cut to the unit.
  lemma Fifo(s: State)
    requires Inv(s)
    ensures |s.out| <= |Produced(s)|
    ensures forall k :: 0 <= k < |s.out| ==>
      s.out[k] == Produced(s)[k] % if s.wide then 0x1_0000_0000_0000_0000 else 0x1_0000_0000
  {
    OutIsCut(s);
    forall k | 0 <= k < |s.out| ensures s.out[k] == Cut(s.wide, Produced(s)[k]) {
      assert s.out[k] == Cuts(s.wide, Produced(s))[k];
    }
  }

  lemma OutIsCut(s: State)
    requires Inv(s)
    ensures s.out <= Cuts(s.wide, Produced(s))
  {
    hide Cut, SlotOk;
    var p := Flat(s.full[..s.read]);
    if s.read < |s.full| {
      var g := s.full[s.read];
      FlatPrefix(s.full, s.read);
      CutsJoin(s.wide, p, g[..Taken(s)]);
      assert p + g[..Taken(s)] <= p + g <= Flat(s.full) <= Produced(s);
    } else {
      assert s.full[..s.read] == s.full;
      assert p <= Produced(s);
    }
  }

  // No buffer is written while it is read.
  lemma NoOverlap(s: State)
    requires Inv(s) && s.w.Fill? && s.r.Take?
    ensures s.w.i != s.reader_id
  {
    NextReady(s);
  }

  // ---- neither side waits for ever ----

  ghost function Works(s: State, vs: seq<nat>): State
    requires Inv(s)
    decreases |vs|
  {
    if vs == [] then s
    else
      WorkKeeps(s, vs[0]);
      Works(WorkerStep(s, vs[0]), vs[1..])
  }

  ghost function Reads(s: State, n: nat): State
    requires Inv(s)
    decreases n
  {
    if n == 0 then s
    else
      ReadKeeps(s);
      Reads(ReaderStep(s), n - 1)
  }

  // With a published buffer not read out, a call returns its value without the
  // worker, and the next call can begin.
  lemma {:induction false} CallReturns(s: State) returns (n: nat)
    requires Inv(s) && s.r.Ready? && s.read < |s.full|
    ensures Reads(s, n).r.Ready? && |Reads(s, n).out| == |s.out| + 1
  {
    hide Cut, SlotOk, OutOk, WorkerOk;
    NextReady(s);
    var s1 := ReaderStep(s);
    ReadKeeps(s);
    if s.i == 0 {
      ReadKeeps(s1);
      n := TakeReturns(ReaderStep(s1));
      n := n + 2;
    } else {
      n := TakeReturns(s1);
      n := n + 1;
    }
  }

  lemma {:induction false} TakeReturns(s: State) returns (n: nat)
    requires Inv(s) && s.r.Take?
    ensures Reads(s, n).r.Ready? && |Reads(s, n).out| == |s.out| + 1
  {
    hide Cut, SlotOk, OutOk, WorkerOk;
    var s1 := ReaderStep(s);
    ReadKeeps(s);
    n := 1;
    assert Reads(s1, 0) == s1;
    if s1.r.Release? {
      ReadKeeps(s1);
      var s2 := ReaderStep(s1);
      ReadKeeps(s2);
      var s3 := ReaderStep(s2);
      assert Reads(s3, 0) == s3;
      assert Reads(s2, 1) == s3;
      assert Reads(s1, 2) == s3;
      n := 3;
    }
  }

  // How many more steps the worker takes to publish a buffer.
  function Due(s: State): nat
    requires Sized(s)
  {
    match s.w
    case Check(_) => s.nr + 2
    case Slept(_) => s.nr + 3
    case Fill(_, j) => s.nr - j + 1
    case Publish(_) => 1
    case Halted => 0
  }

  lemma PlaceFree(s: State)
    requires Inv(s) && |s.full| < s.read + BUFFER_NR
    ensures !s.avail[|s.full| % BUFFER_NR]
  {
    assert SlotOk(s, |s.full| % BUFFER_NR);
    NthIs(s.read, |s.full|);
  }

  // With room in the ring the worker publishes another buffer without the
  // reader.
  lemma {:induction false} Publishes(s: State, vs: seq<nat>)
    requires Inv(s) && s.running && !s.w.Halted? && |s.full| < s.read + BUFFER_NR && |vs| == Due(s)
    ensures |Works(s, vs).full| == |s.full| + 1
    decreases |vs|
  {
    hide Cut, OutOk, ReaderOk;
    PlaceFree(s);
    WorkKeeps(s, vs[0]);
    var s2 := WorkerStep(s, vs[0]);
    if s.w.Publish? {
      assert vs[1..] == [];
      assert Works(s2, []) == s2;
    }
    if !s.w.Publish? {
      Publishes(s2, vs[1..]);
    }
  }

  // ---- halting ----

  function Unavailable(avail: seq<bool>): nat {
    if avail == [] then 0 else (if avail[0] then 0 else 1) + Unavailable(avail[1..])
  }

  lemma {:induction false} UnavailableSet(avail: seq<bool>, i: nat)
    requires i < |avail| && !avail[i]
    ensures Unavailable(avail[i := true]) == Unavailable(avail) - 1
    decreases i
  {
    if i == 0 {
      assert avail[0 := true][1..] == avail[1..];
    } else {
      assert avail[i := true][1..] == avail[1..][i - 1 := true];
      UnavailableSet(avail[1..], i - 1);
    }
  }

  // How many more steps the worker can take once it is told to stop and the
  // reads have ended.
  ghost function Rank(s: State): int
    requires Sized(s)
  {
    Unavailable(s.avail) * (s.nr + 2) +
    match s.w
    case Check(i) => 2
    case Slept(i) => if s.avail[i] then 1 else 3
    case Fill(_, j) => 1 - j
    case Publish(_) => 1 - s.nr
    case Halted => 0
  }

  lemma RankDrops(s: State, v: nat)
    requires Inv(s) && !s.running && !s.w.Halted?
    ensures Rank(WorkerStep(s, v)) < Rank(s) && !WorkerStep(s, v).running
    ensures Rank(WorkerStep(s, v)) >= 0
  {
    hide Cut, SlotOk, OutOk, Nth;
    var s2 := WorkerStep(s, v);
    var m := s.nr + 2;
    if s.w.Publish? {
      UnavailableSet(s.avail, s.w.i);
      Less(Unavailable(s.avail), m);
    } else if s.w.Fill? || (s.w.Check? && !s.avail[s.w.i]) {
      UnavailableSet(s.avail, s.w.i);
      Less(Unavailable(s.avail), m);
    }
  }

  lemma Less(u: nat, m: nat)
    requires u > 0
    ensures u * m == (u - 1) * m + m && (u - 1) * m >= 0
  {
  }

  // Once `running` is cleared and no value is read, the worker halts within
  // Rank steps, whatever real_next produces.
  lemma {:induction false} Halts(s: State, vs: seq<nat>)
    requires Inv(s) && !s.running && (s.w.Halted? || |vs| >= Rank(s))
    ensures Works(s, vs).w.Halted?
    decreases |vs|
  {
    hide Rank;
    if !s.w.Halted? {
      RankPositive(s);
      RankDrops(s, vs[0]);
    }
    if vs != [] {
      WorkKeeps(s, vs[0]);
      Halts(WorkerStep(s, vs[0]), vs[1..]);
    }
  }

  lemma RankPositive(s: State)
    requires Inv(s) && !s.running && !s.w.Halted?
    ensures Rank(s) > 0
  {
    RankDrops(s, 0);
  }
}
