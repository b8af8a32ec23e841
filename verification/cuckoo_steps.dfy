// The cuckoo table under concurrency (lib1.c:4096-4369): any number of threads
// running get, probe, del and set, and any number of expand workers, one lock
// operation or one slot at a time. A displacement frees the stripe of the slot
// it has copied an object to before it clears the old copy, so an object can be
// in two slots, one of them open to others. A worker moves one stripe while it
// holds it.

module CuckooSteps {
  import opened Option
  import opened KvApi
  import opened Pow2s
  import opened Bitmaps
  import opened Stripes
  import opened CuckooState
  import opened CuckooGrow
  import opened Cuckoos
  import Locks = CuckooLocks

  type Tid = nat

  // A probe runs as a get.
  datatype Op = Get(k: Key) | Del(k: Key) | Set(kv: Kv)

  function KeyOf(op: Op): Key {
    match op
    case Get(k) => k
    case Del(k) => k
    case Set(kv) => kv.key
  }

  // The object v at c is to go to its slot number x.
  datatype Hop = Hop(c: Pos, v: Kv, x: nat)

  // How far a displacement is. Scan: it looks for a free entry in the key's own
  // slots. Seek: the object of the innermost hop has no place yet; d is how many
  // hops may be made, entry k and its slot number y are tried next. Copied: it
  // has a place, and the stripe is still held. Loose: the stripe is free.
  // Cleared: the old copy is gone.
  datatype Stage = Scan | Seek(d: nat, k: nat, y: nat) | Copied | Loose | Cleared

  // The first depth that moves an object, and the last (cuckoo_try_set).
  const FIRST_DEPTH: nat := 1
  const LAST_DEPTH: nat := 2

  function Start(d: nat): Stage {
    Seek(d, 0, 0)
  }

  // What is tried after slot number y of entry k.
  function Following(d: nat, k: nat, y: nat): Stage {
    if y == 0 then Seek(d, k, 1) else Seek(d, k + 1, 0)
  }

  datatype Pc =
    | Idle
    | Want(op: Op)
    | Half(op: Op)
    | Look(op: Op, x: nat)
    | Disp(kv: Kv, x: nat, path: seq<Hop>, st: Stage)
    | Done(op: Op, r: Option<Kv>)
    | WorkerWant(l: nat, end: nat)
    | WorkerHold(l: nat, end: nat)
    | WorkerMoved(l: nat, end: nat)

  // ---- the stripes of a thread ----

  function Dest(hop: Hop): nat {
    Stripe(Hash2(hop.v.key, hop.x))
  }

  function Dests(path: seq<Hop>): seq<nat> {
    seq(|path|, i requires 0 <= i < |path| => Dest(path[i]))
  }

  // The hops whose stripe is held.
  function Tried(path: seq<Hop>, st: Stage): seq<Hop> {
    if st.Seek? || st.Copied? || path == [] then path else path[..|path| - 1]
  }

  function Lo(key: Key): nat {
    var i1, i2 := Stripe(Hash2(key, 0)), Stripe(Hash2(key, 1));
    if i1 < i2 then i1 else i2
  }

  function Hi(key: Key): nat {
    var i1, i2 := Stripe(Hash2(key, 0)), Stripe(Hash2(key, 1));
    if i1 < i2 then i2 else i1
  }

  // Where the thread is in the machine of cuckoo_locks.dfy.
  function LockPc(pc: Pc): Locks.Pc {
    match pc
    case Idle => Locks.Idle
    case Want(op) => Locks.WantLo(Lo(KeyOf(op)), Hi(KeyOf(op)))
    case Half(op) => Locks.WantHi(Lo(KeyOf(op)), Hi(KeyOf(op)))
    case Look(op, _) => Locks.Inside(Lo(KeyOf(op)), Hi(KeyOf(op)), [])
    case Disp(kv, _, path, st) => Locks.Inside(Lo(kv.key), Hi(kv.key), Dests(Tried(path, st)))
    case Done(op, _) => Locks.Inside(Lo(KeyOf(op)), Hi(KeyOf(op)), [])
    case WorkerWant(l, end) => Locks.WorkerWant(l, end)
    case WorkerHold(l, end) => Locks.WorkerHold(l, end)
    case WorkerMoved(l, end) => Locks.WorkerHold(l, end)
  }

  function Held(pc: Pc): set<nat> {
    Locks.Held(LockPc(pc))
  }

  datatype State = State(
    pc: map<Tid, Pc>,
    owner: map<nat, Tid>,
    levels: seq<Level>,
    bm: Bitmap,
    phase: Phase)

  function LocksOf(s: State): Locks.State {
    Locks.State(map t | t in s.pc :: LockPc(s.pc[t]), s.owner)
  }

  // ---- steps ----

  datatype Act =
    | Begin(op: Op)
    | ClaimWord
    | Expand
    | Finish
    | Go
    | Found(k: nat)
    | Miss
    | UseFree(k: nat)
    | Full
    | Push
    | Skip
    | Over

  // What a step does to the tables.
  datatype Change =
    | Keep
    | Put(p: Pos, e: Entry)
    | Claim
    | Grow
    | Migrate(l: nat)
    | Shrink

  // One step of one thread: its next place, its lock operation, its change.
  datatype Move = Move(pc: Pc, lock: Option<Locks.Act>, ch: Change)

  function SlotPos(levels: seq<Level>, bm: Bitmap, h: nat, k: nat): Pos
    requires |levels| == 2
  {
    Pos(Lid(bm, h), Low(h, levels[Lid(bm, h)].power), k)
  }

  predicate Holds(levels: seq<Level>, p: Pos, v: Kv) {
    InTable(levels, p) && At(levels, p).ptr == Some(v)
  }

  predicate Free(levels: seq<Level>, p: Pos) {
    InTable(levels, p) && At(levels, p).ptr.None?
  }

  predicate Live(levels: seq<Level>, p: Pos) {
    InTable(levels, p) && At(levels, p).ptr.Some?
  }

  // The next object to be tried, and where it is to go.
  function NextHop(levels: seq<Level>, bm: Bitmap, h: nat, st: Stage): Hop
    requires |levels| == 2 && st.Seek? && Live(levels, SlotPos(levels, bm, h, st.k))
  {
    var c := SlotPos(levels, bm, h, st.k);
    Hop(c, At(levels, c).ptr.value, st.y)
  }

  ghost predicate SlotLacks(levels: seq<Level>, bm: Bitmap, h: nat, key: Key)
    requires |levels| == 2
  {
    forall k, v :: 0 <= k < 8 && Holds(levels, SlotPos(levels, bm, h, k), v) ==> v.key != key
  }

  // The object the innermost frame of the displacement is to place, and the
  // hash of the slot it is to go to.
  function Carried(kv: Kv, path: seq<Hop>): Kv {
    if path == [] then kv else path[|path| - 1].v
  }

  function HashAt(kv: Kv, x: nat, path: seq<Hop>, i: nat): nat
    requires i <= |path|
  {
    if i == 0 then Hash2(kv.key, x) else Hash2(path[i - 1].v.key, path[i - 1].x)
  }

  function Front(path: seq<Hop>): seq<Hop> {
    if path == [] then [] else path[..|path| - 1]
  }

  // The frame that has just placed its object: the outermost one is done.
  function Placing(kv: Kv, x: nat, path: seq<Hop>): Pc {
    if path == [] then Done(Set(kv), Some(kv)) else Disp(kv, x, path, Copied)
  }

  function IdleMove(phase: Phase, act: Act): Option<Move> {
    match act
    case Begin(op) =>
      Some(Move(Want(op), Some(Locks.Begin(Stripe(Hash2(KeyOf(op), 0)), Stripe(Hash2(KeyOf(op), 1)))), Keep))
    case ClaimWord =>
      if phase.Growing? && phase.uniq < NR_STRIPES
      then Some(Move(WorkerWant(phase.uniq, phase.uniq + 64), Some(Locks.Chunk(phase.uniq)), Claim))
      else None
    case Expand => if phase.Rest? then Some(Move(Idle, None, Grow)) else None
    case Finish => if phase.Growing? && phase.uniq >= NR_STRIPES then Some(Move(Idle, None, Shrink)) else None
    case _ => None
  }

  // One slot of the search, and what is done to the entry found.
  ghost function LookMove(op: Op, x: nat, levels: seq<Level>, bm: Bitmap, act: Act): Option<Move>
    requires |levels| == 2
  {
    var h := Hash2(KeyOf(op), x);
    match act
    case Found(k) =>
      var p := SlotPos(levels, bm, h, k);
      if k < 8 && InTable(levels, p) && At(levels, p).ptr.Some? && At(levels, p).ptr.value.key == KeyOf(op) then
        (match op
         case Get(_) => Some(Move(Done(op, At(levels, p).ptr), None, Keep))
         case Del(_) => Some(Move(Done(op, At(levels, p).ptr), None, Put(p, EMPTY)))
         case Set(kv) => Some(Move(Done(op, Some(kv)), None, Put(p, EntryOf(kv)))))
      else None
    case Miss =>
      if !SlotLacks(levels, bm, h, KeyOf(op)) then None
      else if x == 0 then Some(Move(Look(op, 1), None, Keep))
      else if op.Set? then Some(Move(Disp(op.kv, 0, [], Scan), None, Keep))
      else Some(Move(Done(op, None), None, Keep))
    case _ => None
  }

  // The frame searches its slot for a free entry only: cuckoo_cuckoo_local.
  predicate Local(path: seq<Hop>, st: Stage) {
    st.Scan? || (st.Seek? && |path| >= st.d)
  }

  // The frame has failed: its caller goes on with what it tries next.
  function Return(kv: Kv, x: nat, path: seq<Hop>, d: nat): Move
    requires path != []
  {
    var hop := path[|path| - 1];
    Move(Disp(kv, x, Front(path), Following(d, hop.c.k, hop.x)), Some(Locks.Back), Keep)
  }

  // ... or cuckoo_try_set with the other slot, or one deeper, or it gives up.
  function Retry(kv: Kv, x: nat, d: nat): Move {
    if x == 0 then Move(Disp(kv, 1, [], Start(d)), None, Keep)
    else if d < LAST_DEPTH then Move(Disp(kv, 0, [], Start(d + 1)), None, Keep)
    else Move(Done(Set(kv), None), None, Keep)
  }

  // The loops of cuckoo_cuckoo_depth, cuckoo_cuckoo_local and cuckoo_try_set
  // around them. A trylock fails on a stripe that has an owner.
  ghost function SeekMove(kv: Kv, x: nat, path: seq<Hop>, st: Stage, owner: map<nat, Tid>, levels: seq<Level>, bm: Bitmap, act: Act)
    : Option<Move>
    requires |levels| == 2 && (st.Scan? || st.Seek?)
  {
    var h := HashAt(kv, x, path, |path|);
    match act
    case UseFree(k) =>
      var p := SlotPos(levels, bm, h, k);
      if k < 8 && Free(levels, p) && (Local(path, st) || k == st.k)
      then Some(Move(Placing(kv, x, path), None, Put(p, EntryOf(Carried(kv, path)))))
      else None
    case Full =>
      if !Local(path, st) || !SlotFull(levels, bm, h) then None
      else if st.Scan? then Some(Move(if x == 0 then Disp(kv, 1, [], Scan) else Disp(kv, 0, [], Start(FIRST_DEPTH)), None, Keep))
      else if path == [] then None
      else Some(Return(kv, x, path, st.d))
    case Push =>
      if Local(path, st) || !Live(levels, SlotPos(levels, bm, h, st.k)) || st.k >= 8 then None
      else
        var hop := NextHop(levels, bm, h, st);
        if Dest(hop) == Stripe(h) then None
        else Some(Move(Disp(kv, x, path + [hop], Start(st.d)), Some(Locks.TryLock(Dest(hop))), Keep))
    case Skip =>
      if Local(path, st) || !Live(levels, SlotPos(levels, bm, h, st.k)) || st.k >= 8 then None
      else
        var l := Dest(NextHop(levels, bm, h, st));
        if l == Stripe(h) || l in owner then Some(Move(Disp(kv, x, path, Following(st.d, st.k, st.y)), None, Keep)) else None
    case Over =>
      if Local(path, st) || st.k < 8 then None
      else if path == [] then Some(Retry(kv, x, st.d))
      else Some(Return(kv, x, path, st.d))
    case _ => None
  }

  // A frame whose inner call has returned true: unlock, clear the old copy,
  // put the frame's own object there.
  function UnwindMove(kv: Kv, x: nat, path: seq<Hop>, st: Stage): Option<Move> {
    if path == [] then None else
    var c := path[|path| - 1].c;
    match st
    case Copied => Some(Move(Disp(kv, x, path, Loose), Some(Locks.Back), Keep))
    case Loose => Some(Move(Disp(kv, x, path, Cleared), None, Put(c, EMPTY)))
    case Cleared => Some(Move(Placing(kv, x, Front(path)), None, Put(c, EntryOf(Carried(kv, Front(path))))))
    case _ => None
  }

  function GoMove(pc: Pc): Option<Move> {
    match pc
    case Want(op) =>
      Some(Move(if Lo(KeyOf(op)) == Hi(KeyOf(op)) then Look(op, 0) else Half(op), Some(Locks.Go), Keep))
    case Half(op) => Some(Move(Look(op, 0), Some(Locks.Go), Keep))
    case Disp(kv, x, path, st) => UnwindMove(kv, x, path, st)
    case Done(_, _) => Some(Move(Idle, Some(Locks.Go), Keep))
    case WorkerWant(l, end) => Some(Move(WorkerHold(l, end), Some(Locks.Go), Keep))
    case WorkerHold(l, end) => Some(Move(WorkerMoved(l, end), None, Migrate(l)))
    case WorkerMoved(l, end) =>
      Some(Move(if l + 1 < end then WorkerWant(l + 1, end) else Idle, Some(Locks.Go), Keep))
    case _ => None
  }

  ghost function MoveOf(s: State, t: Tid, act: Act): Option<Move>
    requires t in s.pc
  {
    if |s.levels| != 2 then None
    else if act == Go then GoMove(s.pc[t])
    else
      match s.pc[t]
      case Idle => IdleMove(s.phase, act)
      case Look(op, x) => LookMove(op, x, s.levels, s.bm, act)
      case Disp(kv, x, path, st) =>
        if st.Scan? || st.Seek? then SeekMove(kv, x, path, st, s.owner, s.levels, s.bm, act) else None
      case _ => None
  }

  predicate Worker(pc: Pc) {
    pc.WorkerWant? || pc.WorkerHold? || pc.WorkerMoved?
  }

  // cuckoo_expand_thread joins its workers before it releases the old table.
  ghost predicate Changed(s: State, s2: State, ch: Change) {
    |s.levels| == 2 &&
    match ch
    case Keep => s2.levels == s.levels && s2.bm == s.bm && s2.phase == s.phase
    case Put(p, e) => InTable(s.levels, p) && s2.levels == Write(s.levels, p, e) && s2.bm == s.bm && s2.phase == s.phase
    case Claim =>
      s.phase.Growing? && s2.levels == s.levels && s2.bm == s.bm
      && s2.phase == s.phase.(uniq := s.phase.uniq + 64, pending := s.phase.pending + Chunk(s.phase.uniq))
    case Grow =>
      && s.phase.Rest? && s.phase.cur < 2 && s2.bm == s.bm
      && s2.levels == s.levels[OtherLevel(s.phase.cur) := NewLevel(s.levels[s.phase.cur].power + 1)]
      && s2.phase == Growing(s.phase.cur, 0, {}, s.bm.ones == 0)
    case Migrate(l) =>
      && s.phase.Growing? && Migrated(s.levels, s.phase.src, l, s2.levels)
      && Wf(s.bm) && s2.bm == (if s.phase.upd then Set1(s.bm, l) else Set0(s.bm, l))
      && s2.phase == s.phase.(pending := s.phase.pending - {l})
    case Shrink =>
      && s.phase.Growing? && s.phase.src < 2 && s2.bm == s.bm
      && (forall t :: t in s.pc ==> !Worker(s.pc[t]))
      && s2.levels == s.levels[s.phase.src := s.levels[s.phase.src].(table := [])]
      && s2.phase == Rest(OtherLevel(s.phase.src))
  }

  ghost predicate Step(s: State, s2: State, t: Tid, act: Act) {
    && t in s.pc && MoveOf(s, t, act).Some?
    && var m := MoveOf(s, t, act).value;
    && s2.pc == s.pc[t := m.pc]
    && Changed(s, s2, m.ch)
    && if m.lock.Some? then Locks.Step(LocksOf(s), LocksOf(s2), t, m.lock.value) else s2.owner == s.owner
  }

  // ---- the abstract map ----

  ghost predicate Absent(levels: seq<Level>, key: Key) {
    forall p, v :: Holds(levels, p, v) ==> v.key != key
  }

  // r is what the tables have for the key.
  ghost predicate Stands(levels: seq<Level>, key: Key, r: Option<Kv>) {
    match r
    case None => Absent(levels, key)
    case Some(v) => v.key == key && exists p :: Holds(levels, p, v)
  }

  ghost function Abs(levels: seq<Level>, key: Key): (r: Option<Kv>)
    ensures Stands(levels, key, r)
  {
    if p, v :| Holds(levels, p, v) && v.key == key then Some(v) else None
  }

  // Two places of one key have one object.
  ghost predicate SameObject(levels: seq<Level>) {
    forall p, q, v, w :: Holds(levels, p, v) && Holds(levels, q, w) && v.key == w.key ==> v == w
  }

  lemma AbsIs(levels: seq<Level>, key: Key, r: Option<Kv>)
    requires SameObject(levels) && Stands(levels, key, r)
    ensures Abs(levels, key) == r
  {
  }

  // ---- the invariant ----

  ghost predicate OnePerStripe(levels: seq<Level>) {
    forall p, q, v, w :: Holds(levels, p, v) && Holds(levels, q, w) && v.key == w.key && Stripe(p.j) == Stripe(q.j)
      ==> p == q
  }

  // The key whose object a thread has in two places.
  function Moving(pc: Pc): Option<Key> {
    if pc.Disp? && pc.path != [] && (pc.st.Copied? || pc.st.Loose?) then Some(pc.path[|pc.path| - 1].v.key) else None
  }

  ghost predicate InTransit(s: State, key: Key) {
    exists t :: t in s.pc && Moving(s.pc[t]) == Some(key)
  }

  ghost predicate Copies(s: State) {
    forall p, q, v, w :: Holds(s.levels, p, v) && Holds(s.levels, q, w) && v.key == w.key && p != q ==> InTransit(s, v.key)
  }

  ghost predicate OneMover(s: State) {
    forall t, u :: t in s.pc && u in s.pc && t != u && Moving(s.pc[t]).Some? ==> Moving(s.pc[u]) != Moving(s.pc[t])
  }

  ghost predicate HopOk(levels: seq<Level>, bm: Bitmap, hop: Hop, h: nat)
    requires |levels| == 2
  {
    hop.x < 2 && hop.c.k < 8 && hop.c == SlotPos(levels, bm, h, hop.c.k) && Dest(hop) != Stripe(h)
  }

  ghost predicate HopsOk(levels: seq<Level>, bm: Bitmap, kv: Kv, x: nat, path: seq<Hop>, n: nat)
    requires |levels| == 2 && n <= |path|
  {
    && (forall i {:trigger HashAt(kv, x, path, i)} ::
          0 <= i < |path| ==> HopOk(levels, bm, path[i], HashAt(kv, x, path, i)))
    && (forall i :: 0 <= i < n ==> Holds(levels, path[i].c, path[i].v))
  }

  ghost predicate HasCopy(levels: seq<Level>, hop: Hop) {
    exists q: Pos :: Stripe(q.j) == Dest(hop) && Holds(levels, q, hop.v)
  }

  // The first n entries of the slot are live.
  ghost predicate LiveUpTo(levels: seq<Level>, bm: Bitmap, h: nat, n: nat)
    requires |levels| == 2
  {
    forall k :: 0 <= k < n ==> Live(levels, SlotPos(levels, bm, h, k))
  }

  // Both slots of the key are full.
  ghost predicate BothFull(levels: seq<Level>, bm: Bitmap, key: Key) {
    SlotFull(levels, bm, Hash2(key, 0)) && SlotFull(levels, bm, Hash2(key, 1))
  }

  // Each frame of a search has found the entries before its cursor live.
  ghost predicate SearchKnows(kv: Kv, x: nat, path: seq<Hop>, st: Stage, levels: seq<Level>, bm: Bitmap)
    requires |levels| == 2 && st.Seek?
  {
    && FIRST_DEPTH <= st.d <= LAST_DEPTH && |path| <= st.d && st.k <= 8 && st.y < 2
    && (!Local(path, st) ==> LiveUpTo(levels, bm, HashAt(kv, x, path, |path|), st.k))
    && PathLive(kv, x, path, levels, bm)
  }

  ghost predicate PathLive(kv: Kv, x: nat, path: seq<Hop>, levels: seq<Level>, bm: Bitmap)
    requires |levels| == 2
  {
    forall i {:trigger HashAt(kv, x, path, i)} ::
      0 <= i < |path| ==> LiveUpTo(levels, bm, HashAt(kv, x, path, i), path[i].c.k)
  }

  ghost predicate DispKnows(kv: Kv, x: nat, path: seq<Hop>, st: Stage, levels: seq<Level>, bm: Bitmap)
    requires |levels| == 2
  {
    && x < 2 && Absent(levels, kv.key) && (st.Scan? || st.Seek? || path != [])
    && (st.Scan? ==> path == [] && (x == 1 ==> SlotFull(levels, bm, Hash2(kv.key, 0))))
    && (st.Seek? ==> BothFull(levels, bm, kv.key) && SearchKnows(kv, x, path, st, levels, bm))
    && HopsOk(levels, bm, kv, x, path, if st.Cleared? then |path| - 1 else |path|)
    && (st.Cleared? ==> Free(levels, path[|path| - 1].c))
    && (st.Copied? || st.Loose? ==> HasCopy(levels, path[|path| - 1]))
  }

  // What the key has after the operation.
  function After(op: Op, r: Option<Kv>): Option<Kv> {
    if op.Del? then None else r
  }

  // The stripes a worker has claimed and not moved yet.
  predicate Remaining(pc: Pc, l: nat) {
    match pc
    case WorkerWant(m, end) => m <= l < end
    case WorkerHold(m, end) => m <= l < end
    case WorkerMoved(m, end) => m < l < end
    case _ => false
  }

  ghost predicate WorkerKnows(pc: Pc, phase: Phase)
    requires Worker(pc)
  {
    && phase.Growing? && pc.end % 64 == 0 && pc.end - 64 <= pc.l < pc.end <= phase.uniq && pc.end <= NR_STRIPES
    && forall l: nat :: Remaining(pc, l) ==> l in phase.pending
  }

  // What a thread knows from the stripes it holds.
  ghost predicate Knows(pc: Pc, levels: seq<Level>, bm: Bitmap, phase: Phase)
    requires |levels| == 2
  {
    match pc
    case Look(op, x) => x < 2 && (x == 1 ==> SlotLacks(levels, bm, Hash2(KeyOf(op), 0), KeyOf(op)))
    case Disp(kv, x, path, st) => DispKnows(kv, x, path, st, levels, bm)
    case Done(op, r) =>
      Stands(levels, KeyOf(op), After(op, r)) && (op.Set? && r.None? ==> BothFull(levels, bm, KeyOf(op)))
    case WorkerWant(_, _) => WorkerKnows(pc, phase)
    case WorkerHold(_, _) => WorkerKnows(pc, phase)
    case WorkerMoved(_, _) => WorkerKnows(pc, phase)
    case _ => true
  }

  // The claimed words have one worker each.
  ghost predicate EndsDiffer(s: State) {
    forall t, u :: t in s.pc && u in s.pc && t != u && Worker(s.pc[t]) && Worker(s.pc[u]) ==>
      s.pc[t].end != s.pc[u].end
  }

  // ... and every claimed stripe that has not been moved is waiting for its
  // worker.
  ghost predicate WorkersApart(s: State) {
    && EndsDiffer(s)
    && (s.phase.Growing? ==> forall l :: l in s.phase.pending ==> exists t :: t in s.pc && Remaining(s.pc[t], l))
  }

  ghost predicate StateInv(s: State) {
    && Locks.Inv(LocksOf(s))
    && Sound(s.levels, s.bm) && PhaseOk(s.phase, s.levels, s.bm)
    && OnePerStripe(s.levels) && Copies(s) && OneMover(s) && WorkersApart(s)
    && forall t :: t in s.pc ==> Knows(s.pc[t], s.levels, s.bm, s.phase)
  }
}
