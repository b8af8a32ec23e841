// kvmap2 under concurrency (lib1.c:3685-3881): any number of threads running
// get, probe, del and set, one lock operation or one table access at a time.
// A table is the finite map kvmap1.dfy proves it to be; an access to it by the
// holder of the key's stripe is one step.

module KvMap2Locks {
  import opened Option
  import opened KvApi
  import opened Pow2s
  import opened Stripes

  type Tid = nat

  // Stripe s of table x.
  datatype Lock = Lock(x: nat, s: nat)

  // The hash table x uses.
  function HashOf(x: nat, key: Key): nat {
    RotL(key.hash, if x == 0 then 0 else 19)
  }

  function StripeOf(x: nat, key: Key): Lock {
    Lock(x, Stripe(HashOf(x, key)))
  }

  // The two keys share a slot of level i of table x.
  predicate SameSlot(x: nat, i: nat, k: Key, k2: Key) {
    i >= MIN_POWER && Low(HashOf(x, k), i) == Low(HashOf(x, k2), i)
  }

  // Keys of one slot have one stripe, so the lock a set holds for its own key
  // covers every object of the slot.
  lemma SlotStripe(x: nat, i: nat, k: Key, k2: Key)
    requires SameSlot(x, i, k, k2)
    ensures StripeOf(x, k) == StripeOf(x, k2)
  {
    SlotHasOneStripe(HashOf(x, k), HashOf(x, k2), i);
  }

  function Other(x: nat): nat {
    if x == 0 then 1 else 0
  }

  // Where a thread is. Read* is get, probe and (with del) del; Set* is set.
  datatype Pc =
    | Idle
    | ReadWant(del: bool, key: Key)
    | ReadOne(del: bool, key: Key)
    | ReadMiss(del: bool, key: Key)
    | ReadBoth(del: bool, key: Key)
    | ReadTwo(del: bool, key: Key)
    | ReadDone(del: bool, key: Key, x: nat, r: Option<Kv>)
    | SetWant(kv: Kv)
    | SetOne(kv: Kv)
    | SetBoth(kv: Kv)
    | SetMiss(kv: Kv)
    | SetNew(kv: Kv)
    | SetFound(x: nat, kv: Kv)
    | SetPut(x: nat, kv: Kv)
    | SetFree(x: nat, kv: Kv)
    | SetIns(x: nat, kv: Kv)
    | SetWhole(kv: Kv)
    | SetHalf(x: nat, kv: Kv)
    | CkLocked(x: nat, kv: Kv, v: Kv)
    | CkCopied(x: nat, kv: Kv, v: Kv)
    | CkErased(x: nat, kv: Kv, v: Kv)

  // The stripe a thread is blocked on, if any.
  function Waits(pc: Pc): Option<Lock> {
    match pc
    case ReadWant(_, key) => Some(StripeOf(0, key))
    case ReadMiss(_, key) => Some(StripeOf(1, key))
    case SetWant(kv) => Some(StripeOf(0, kv.key))
    case SetOne(kv) => Some(StripeOf(1, kv.key))
    case _ => None
  }

  function Both(key: Key): set<Lock> {
    {StripeOf(0, key), StripeOf(1, key)}
  }

  // The stripes a thread holds.
  function Held(pc: Pc): set<Lock> {
    match pc
    case Idle => {}
    case ReadWant(_, _) => {}
    case ReadOne(_, key) => {StripeOf(0, key)}
    case ReadMiss(_, key) => {StripeOf(0, key)}
    case ReadBoth(_, key) => Both(key)
    case ReadTwo(_, key) => {StripeOf(1, key)}
    case ReadDone(_, key, x, _) => {StripeOf(x, key)}
    case SetWant(_) => {}
    case SetOne(kv) => {StripeOf(0, kv.key)}
    case SetBoth(kv) => Both(kv.key)
    case SetMiss(kv) => Both(kv.key)
    case SetNew(kv) => Both(kv.key)
    case SetFound(_, kv) => Both(kv.key)
    case SetPut(x, kv) => {StripeOf(x, kv.key)}
    case SetFree(_, kv) => Both(kv.key)
    case SetIns(x, kv) => {StripeOf(x, kv.key)}
    case SetWhole(kv) => Both(kv.key)
    case SetHalf(x, kv) => {StripeOf(x, kv.key)}
    case CkLocked(x, kv, v) => Both(kv.key) + {StripeOf(Other(x), v.key)}
    case CkCopied(x, kv, v) => Both(kv.key) + {StripeOf(Other(x), v.key)}
    case CkErased(x, kv, v) => Both(kv.key) + {StripeOf(Other(x), v.key)}
  }

  datatype State = State(
    pc: map<Tid, Pc>,
    owner: map<Lock, Tid>,
    t0: map<Key, Kv>,
    t1: map<Key, Kv>,
    // for each running get, probe or del: every value its key has had in the
    // abstract map since the operation began
    seen: map<Tid, set<Option<Kv>>>)

  function Tab(s: State, x: nat): map<Key, Kv> {
    if x == 0 then s.t0 else s.t1
  }

  // The abstract map.
  function Abs(t0: map<Key, Kv>, t1: map<Key, Kv>): map<Key, Kv> {
    t1 + t0
  }

  // The choices a thread makes; Go is the only one where the code leaves none.
  datatype Act =
    | Go
    | BeginRead(del: bool, key: Key)
    | BeginSet(kv: Kv)
    | UseFree(x: nat)
    | InsertHere(x: nat)
    | TryLock(x: nat, v: Kv, i: nat)
    | GiveUp

  // One step of one thread: its next place, the stripe it takes, the stripes
  // it frees, and the tables afterwards.
  datatype Move = Move(pc: Pc, take: Option<Lock>, free: set<Lock>, t0: map<Key, Kv>, t1: map<Key, Kv>)

  function Stay(pc: Pc, t0: map<Key, Kv>, t1: map<Key, Kv>): Option<Move> {
    Some(Move(pc, None, {}, t0, t1))
  }

  function Taking(pc: Pc, l: Lock, t0: map<Key, Kv>, t1: map<Key, Kv>): Option<Move> {
    Some(Move(pc, Some(l), {}, t0, t1))
  }

  function Freeing(pc: Pc, l: Lock, t0: map<Key, Kv>, t1: map<Key, Kv>): Option<Move> {
    Some(Move(pc, None, {l}, t0, t1))
  }

  function Putting(pc: Pc, x: nat, kv: Kv, t0: map<Key, Kv>, t1: map<Key, Kv>): Option<Move> {
    Some(if x == 0 then Move(pc, None, {}, t0[kv.key := kv], t1) else Move(pc, None, {}, t0, t1[kv.key := kv]))
  }

  function Erasing(pc: Pc, x: nat, key: Key, t0: map<Key, Kv>, t1: map<Key, Kv>): Option<Move> {
    Some(if x == 0 then Move(pc, None, {}, t0 - {key}, t1) else Move(pc, None, {}, t0, t1 - {key}))
  }

  // kvmap2_get, kvmap2_probe and kvmap2_del.
  function ReadMove(pc: Pc, t0: map<Key, Kv>, t1: map<Key, Kv>): Option<Move> {
    match pc
    case ReadWant(del, key) => Taking(ReadOne(del, key), StripeOf(0, key), t0, t1)
    case ReadOne(del, key) =>
      if key in t0 then
        var done := ReadDone(del, key, 0, Some(t0[key]));
        if del then Erasing(done, 0, key, t0, t1) else Stay(done, t0, t1)
      else Stay(ReadMiss(del, key), t0, t1)
    case ReadMiss(del, key) => Taking(ReadBoth(del, key), StripeOf(1, key), t0, t1)
    case ReadBoth(del, key) => Freeing(ReadTwo(del, key), StripeOf(0, key), t0, t1)
    case ReadTwo(del, key) =>
      if key in t1 then
        var done := ReadDone(del, key, 1, Some(t1[key]));
        if del then Erasing(done, 1, key, t0, t1) else Stay(done, t0, t1)
      else Stay(ReadDone(del, key, 1, None), t0, t1)
    case ReadDone(del, key, x, r) => Freeing(Idle, StripeOf(x, key), t0, t1)
    case _ => None
  }

  // kvmap2_set up to the point where the key is found or known to be new.
  function SetMove(pc: Pc, t0: map<Key, Kv>, t1: map<Key, Kv>): Option<Move> {
    match pc
    case SetWant(kv) => Taking(SetOne(kv), StripeOf(0, kv.key), t0, t1)
    case SetOne(kv) => Taking(SetBoth(kv), StripeOf(1, kv.key), t0, t1)
    case SetBoth(kv) => Stay(if kv.key in t0 then SetFound(0, kv) else SetMiss(kv), t0, t1)
    case SetMiss(kv) => Stay(if kv.key in t1 then SetFound(1, kv) else SetNew(kv), t0, t1)
    case SetFound(x, kv) => Freeing(SetPut(x, kv), StripeOf(Other(x), kv.key), t0, t1)
    case SetPut(x, kv) => Putting(SetHalf(x, kv), x, kv, t0, t1)
    case SetFree(x, kv) => Freeing(SetIns(x, kv), StripeOf(Other(x), kv.key), t0, t1)
    case SetIns(x, kv) => Putting(SetHalf(x, kv), x, kv, t0, t1)
    case SetWhole(kv) => Freeing(SetHalf(1, kv), StripeOf(0, kv.key), t0, t1)
    case SetHalf(x, kv) => Freeing(Idle, StripeOf(x, kv.key), t0, t1)
    case _ => None
  }

  // kvmap2_try_cuckoo: copy the victim, erase the original, unlock.
  function CuckooMove(pc: Pc, t0: map<Key, Kv>, t1: map<Key, Kv>): Option<Move> {
    match pc
    case CkLocked(x, kv, v) => Putting(CkCopied(x, kv, v), Other(x), v, t0, t1)
    case CkCopied(x, kv, v) => Erasing(CkErased(x, kv, v), x, v.key, t0, t1)
    case CkErased(x, kv, v) => Freeing(SetFree(x, kv), StripeOf(Other(x), v.key), t0, t1)
    case _ => None
  }

  // The steps at which the code has a choice. A victim of a relocation is in
  // the new key's slot, on whatever level i that slot is.
  function ChoiceMove(pc: Pc, t0: map<Key, Kv>, t1: map<Key, Kv>, act: Act): Option<Move> {
    match act
    case Go => None
    case BeginRead(del, key) => if pc == Idle then Stay(ReadWant(del, key), t0, t1) else None
    case BeginSet(kv) => if pc == Idle then Stay(SetWant(kv), t0, t1) else None
    case UseFree(x) => if pc.SetNew? && x < 2 then Stay(SetFree(x, pc.kv), t0, t1) else None
    case InsertHere(x) => if pc.SetNew? && x < 2 then Putting(SetWhole(pc.kv), x, pc.kv, t0, t1) else None
    case TryLock(x, v, i) =>
      if pc.SetNew? && x < 2 && Find(if x == 0 then t0 else t1, v.key) == Some(v) && SameSlot(x, i, v.key, pc.kv.key)
      then Taking(CkLocked(x, pc.kv, v), StripeOf(Other(x), v.key), t0, t1)
      else None
    case GiveUp =>
      if pc.CkLocked? then Freeing(SetNew(pc.kv), StripeOf(Other(pc.x), pc.v.key), t0, t1) else None
  }

  function MoveOf(pc: Pc, t0: map<Key, Kv>, t1: map<Key, Kv>, act: Act): Option<Move> {
    if act != Go then ChoiceMove(pc, t0, t1, act)
    else
      var r := ReadMove(pc, t0, t1);
      var w := SetMove(pc, t0, t1);
      if r.Some? then r else if w.Some? then w else CuckooMove(pc, t0, t1)
  }

  // The key a running get, probe or del looks for.
  function Reading(pc: Pc): Option<Key> {
    match pc
    case ReadWant(_, key) => Some(key)
    case ReadOne(_, key) => Some(key)
    case ReadMiss(_, key) => Some(key)
    case ReadBoth(_, key) => Some(key)
    case ReadTwo(_, key) => Some(key)
    case ReadDone(_, key, _, _) => Some(key)
    case _ => None
  }

  // What each running read has seen once the tables are t0 and t1.
  function Watch(pc: map<Tid, Pc>, seen: map<Tid, set<Option<Kv>>>, fresh_: set<Tid>, t0: map<Key, Kv>, t1: map<Key, Kv>)
    : map<Tid, set<Option<Kv>>>
  {
    map u | u in pc && Reading(pc[u]).Some? ::
      (if u in seen && u !in fresh_ then seen[u] else {}) + {Find(Abs(t0, t1), Reading(pc[u]).value)}
  }

  function Apply(s: State, t: Tid, m: Move): State
    requires t in s.pc
  {
    var pc2 := s.pc[t := m.pc];
    var owner2 := (if m.take.Some? then s.owner[m.take.value := t] else s.owner) - m.free;
    State(pc2, owner2, m.t0, m.t1, Watch(pc2, s.seen, if s.pc[t] == Idle then {t} else {}, m.t0, m.t1))
  }

  ghost predicate StepBy(s: State, s2: State, t: Tid, act: Act) {
    && t in s.pc
    && var m := MoveOf(s.pc[t], s.t0, s.t1, act);
    && m.Some?
    && (m.value.take.Some? ==> m.value.take.value !in s.owner)
    && s2 == Apply(s, t, m.value)
  }

  ghost predicate Next(s: State, s2: State) {
    exists t, act :: StepBy(s, s2, t, act)
  }

  // Every thread outside the map, no stripe held, each key in at most one table.
  ghost predicate Init(s: State) {
    && (forall t :: t in s.pc ==> s.pc[t] == Idle)
    && s.owner == map[] && s.seen == map[]
    && s.t0.Keys !! s.t1.Keys
  }

  // ---- the invariant ----

  ghost predicate LocksOk(s: State) {
    forall l: Lock, t: Tid :: (l in s.owner && s.owner[l] == t) <==> (t in s.pc && l in Held(s.pc[t]))
  }

  // v can be relocated from table x to make room for kv: the same stripe in
  // table x, another one in the other table.
  predicate Victim(x: nat, kv: Kv, v: Kv) {
    StripeOf(x, v.key) == StripeOf(x, kv.key) && StripeOf(Other(x), v.key) != StripeOf(Other(x), kv.key)
  }

  // The key a set has claimed: it held both stripes and has not written yet.
  function Owns(pc: Pc): Option<Key> {
    match pc
    case SetBoth(kv) => Some(kv.key)
    case SetMiss(kv) => Some(kv.key)
    case SetNew(kv) => Some(kv.key)
    case SetFound(_, kv) => Some(kv.key)
    case SetPut(_, kv) => Some(kv.key)
    case SetFree(_, kv) => Some(kv.key)
    case SetIns(_, kv) => Some(kv.key)
    case CkLocked(_, kv, _) => Some(kv.key)
    case CkCopied(_, kv, _) => Some(kv.key)
    case CkErased(_, kv, _) => Some(kv.key)
    case _ => None
  }

  ghost predicate OneOwner(s: State) {
    forall t, u :: t in s.pc && u in s.pc && t != u && Owns(s.pc[t]).Some? ==> Owns(s.pc[u]) != Owns(s.pc[t])
  }

  // What a thread knows from the stripes it holds.
  ghost predicate Knows(pc: Pc, t0: map<Key, Kv>, t1: map<Key, Kv>, seen: set<Option<Kv>>) {
    match pc
    case ReadMiss(_, key) => key !in t0
    case ReadBoth(_, key) => key !in t0
    case ReadTwo(_, key) => Find(t1, key) in seen
    case ReadDone(_, key, x, r) => x < 2 && r in seen
    case SetMiss(kv) => kv.key !in t0
    case SetNew(kv) => kv.key !in t0 && kv.key !in t1
    case SetFound(x, kv) => x < 2 && kv.key in (if x == 0 then t0 else t1) && kv.key !in (if x == 0 then t1 else t0)
    case SetPut(x, kv) => x < 2 && kv.key in (if x == 0 then t0 else t1) && kv.key !in (if x == 0 then t1 else t0)
    case SetFree(x, kv) => x < 2 && kv.key !in t0 && kv.key !in t1
    case SetIns(x, kv) => x < 2 && kv.key !in t0 && kv.key !in t1
    case SetHalf(x, _) => x < 2
    case CkLocked(x, kv, v) =>
      && x < 2 && kv.key !in t0 && kv.key !in t1 && Victim(x, kv, v)
      && Find(if x == 0 then t0 else t1, v.key) == Some(v) && v.key !in (if x == 0 then t1 else t0)
    case CkCopied(x, kv, v) =>
      && x < 2 && kv.key !in t0 && kv.key !in t1 && Victim(x, kv, v)
      && Find(t0, v.key) == Some(v) && Find(t1, v.key) == Some(v)
    case CkErased(x, kv, v) => x < 2 && kv.key !in t0 && kv.key !in t1 && Victim(x, kv, v)
    case _ => true
  }

  // A key in both tables is being relocated by a thread holding both its stripes.
  ghost predicate Relocating(s: State, key: Key) {
    exists t :: t in s.pc && s.pc[t].CkCopied? && s.pc[t].v.key == key
  }

  ghost predicate SeenNow(s: State) {
    forall t :: t in s.pc && Reading(s.pc[t]).Some? ==>
      t in s.seen && Find(Abs(s.t0, s.t1), Reading(s.pc[t]).value) in s.seen[t]
  }

  function SeenOf(s: State, t: Tid): set<Option<Kv>> {
    if t in s.seen then s.seen[t] else {}
  }

  ghost predicate Inv(s: State) {
    && LocksOk(s)
    && SeenNow(s)
    && OneOwner(s)
    && (forall t :: t in s.pc ==> Knows(s.pc[t], s.t0, s.t1, SeenOf(s, t)))
    && (forall key :: key in s.t0 && key in s.t1 ==> Relocating(s, key))
  }

  // ---- one step ----

  // The stripes held after a step are those before, plus the one taken, minus
  // the ones freed.
  ghost predicate LocksMove(pc: Pc, m: Move) {
    && Held(m.pc) == Held(pc) + (if m.take.Some? then {m.take.value} else {}) - m.free
    && m.free <= Held(pc) && (m.take.Some? ==> m.free == {})
  }

  // A table changes at a key only under the key's stripe of that table.
  ghost predicate FootMove(pc: Pc, t0: map<Key, Kv>, t1: map<Key, Kv>, m: Move, k: Key) {
    && (Find(m.t0, k) != Find(t0, k) ==> StripeOf(0, k) in Held(pc))
    && (Find(m.t1, k) != Find(t1, k) ==> StripeOf(1, k) in Held(pc))
  }

  lemma ReadHolds(pc: Pc, t0: map<Key, Kv>, t1: map<Key, Kv>, seen: set<Option<Kv>>, m: Move)
    requires ReadMove(pc, t0, t1) == Some(m) && Knows(pc, t0, t1, seen)
    requires m.take.Some? ==> m.take.value !in Held(pc)
    ensures LocksMove(pc, m)
  {
    hide HashOf, Stripe;
  }

  lemma ReadFoot(pc: Pc, t0: map<Key, Kv>, t1: map<Key, Kv>, m: Move, k: Key)
    requires ReadMove(pc, t0, t1) == Some(m)
    ensures FootMove(pc, t0, t1, m, k)
  {
    hide HashOf, Stripe;
  }

  lemma SetHolds(pc: Pc, t0: map<Key, Kv>, t1: map<Key, Kv>, seen: set<Option<Kv>>, m: Move)
    requires SetMove(pc, t0, t1) == Some(m) && Knows(pc, t0, t1, seen)
    requires m.take.Some? ==> m.take.value !in Held(pc)
    ensures LocksMove(pc, m)
  {
    hide HashOf, Stripe, Find;
  }

  lemma SetFoot(pc: Pc, t0: map<Key, Kv>, t1: map<Key, Kv>, seen: set<Option<Kv>>, m: Move, k: Key)
    requires SetMove(pc, t0, t1) == Some(m) && Knows(pc, t0, t1, seen)
    ensures FootMove(pc, t0, t1, m, k)
  {
    hide HashOf, Stripe;
  }

  lemma CuckooHolds(pc: Pc, t0: map<Key, Kv>, t1: map<Key, Kv>, seen: set<Option<Kv>>, m: Move)
    requires CuckooMove(pc, t0, t1) == Some(m) && Knows(pc, t0, t1, seen)
    ensures LocksMove(pc, m)
  {
    hide HashOf, Stripe;
  }

  lemma CuckooFoot(pc: Pc, t0: map<Key, Kv>, t1: map<Key, Kv>, seen: set<Option<Kv>>, m: Move, k: Key)
    requires CuckooMove(pc, t0, t1) == Some(m) && Knows(pc, t0, t1, seen)
    ensures FootMove(pc, t0, t1, m, k)
  {
    hide HashOf, Stripe;
  }

  lemma ChoiceLocks(pc: Pc, t0: map<Key, Kv>, t1: map<Key, Kv>, seen: set<Option<Kv>>, act: Act, m: Move, k: Key)
    requires ChoiceMove(pc, t0, t1, act) == Some(m) && Knows(pc, t0, t1, seen)
    requires m.take.Some? ==> m.take.value !in Held(pc)
    ensures LocksMove(pc, m) && FootMove(pc, t0, t1, m, k)
  {
    hide HashOf, Stripe, SameSlot;
  }

  lemma MoveLocks(pc: Pc, t0: map<Key, Kv>, t1: map<Key, Kv>, seen: set<Option<Kv>>, act: Act, m: Move, k: Key)
    requires MoveOf(pc, t0, t1, act) == Some(m) && Knows(pc, t0, t1, seen)
    requires m.take.Some? ==> m.take.value !in Held(pc)
    ensures LocksMove(pc, m) && FootMove(pc, t0, t1, m, k)
  {
    hide Held, Knows, ReadMove, SetMove, CuckooMove, ChoiceMove, LocksMove, FootMove;
    if act != Go {
      ChoiceLocks(pc, t0, t1, seen, act, m, k);
    } else if ReadMove(pc, t0, t1).Some? {
      ReadHolds(pc, t0, t1, seen, m);
      ReadFoot(pc, t0, t1, m, k);
    } else if SetMove(pc, t0, t1).Some? {
      SetHolds(pc, t0, t1, seen, m);
      SetFoot(pc, t0, t1, seen, m, k);
    } else {
      CuckooHolds(pc, t0, t1, seen, m);
      CuckooFoot(pc, t0, t1, seen, m, k);
    }
  }

  // A table gains a key only from its owner or under both its stripes.
  ghost predicate Gains(pc: Pc, t0: map<Key, Kv>, t1: map<Key, Kv>, m: Move, k: Key) {
    (k !in t0 && k in m.t0) || (k !in t1 && k in m.t1) ==>
      && (Owns(pc) == Some(k) || Both(k) <= Held(pc))
      && (k in m.t0 && k in m.t1 ==> m.pc.CkCopied? && m.pc.v.key == k)
  }

  lemma ReadGain(pc: Pc, t0: map<Key, Kv>, t1: map<Key, Kv>, m: Move, k: Key)
    requires ReadMove(pc, t0, t1) == Some(m)
    ensures Gains(pc, t0, t1, m, k)
  {
    hide Held, Owns, Both;
  }

  lemma SetGain(pc: Pc, t0: map<Key, Kv>, t1: map<Key, Kv>, seen: set<Option<Kv>>, m: Move, k: Key)
    requires SetMove(pc, t0, t1) == Some(m) && Knows(pc, t0, t1, seen)
    ensures Gains(pc, t0, t1, m, k)
  {
    hide Held, Both;
  }

  lemma CuckooGain(pc: Pc, t0: map<Key, Kv>, t1: map<Key, Kv>, seen: set<Option<Kv>>, m: Move, k: Key)
    requires CuckooMove(pc, t0, t1) == Some(m) && Knows(pc, t0, t1, seen)
    ensures Gains(pc, t0, t1, m, k)
  {
    hide HashOf, Stripe;
  }

  lemma ChoiceGain(pc: Pc, t0: map<Key, Kv>, t1: map<Key, Kv>, seen: set<Option<Kv>>, act: Act, m: Move, k: Key)
    requires ChoiceMove(pc, t0, t1, act) == Some(m) && Knows(pc, t0, t1, seen)
    ensures Gains(pc, t0, t1, m, k)
  {
    hide Held, Both, SameSlot;
  }

  lemma MoveGain(pc: Pc, t0: map<Key, Kv>, t1: map<Key, Kv>, seen: set<Option<Kv>>, act: Act, m: Move, k: Key)
    requires MoveOf(pc, t0, t1, act) == Some(m) && Knows(pc, t0, t1, seen)
    ensures Gains(pc, t0, t1, m, k)
  {
    hide Held, Knows, ReadMove, SetMove, CuckooMove, ChoiceMove, Gains;
    if act != Go {
      ChoiceGain(pc, t0, t1, seen, act, m, k);
    } else if ReadMove(pc, t0, t1).Some? {
      ReadGain(pc, t0, t1, m, k);
    } else if SetMove(pc, t0, t1).Some? {
      SetGain(pc, t0, t1, seen, m, k);
    } else {
      CuckooGain(pc, t0, t1, seen, m, k);
    }
  }

  // Whatever a thread knows survives any change outside its stripes that does
  // not bring its own key into a table.
  lemma KnowsStable(pc: Pc, t0: map<Key, Kv>, t1: map<Key, Kv>, seen: set<Option<Kv>>,
                    u0: map<Key, Kv>, u1: map<Key, Kv>, seen2: set<Option<Kv>>)
    requires Knows(pc, t0, t1, seen) && seen <= seen2
    requires forall k :: StripeOf(0, k) in Held(pc) ==> Find(u0, k) == Find(t0, k)
    requires forall k :: StripeOf(1, k) in Held(pc) ==> Find(u1, k) == Find(t1, k)
    requires Owns(pc).Some? ==> var k := Owns(pc).value; (k in u0 ==> k in t0) && (k in u1 ==> k in t1)
    ensures Knows(pc, u0, u1, seen2)
  {
    match pc
    case ReadMiss(_, key) => assert Find(u0, key) == Find(t0, key);
    case ReadBoth(_, key) => assert Find(u0, key) == Find(t0, key);
    case ReadTwo(_, key) => assert Find(u1, key) == Find(t1, key);
    case SetMiss(kv) => assert Find(u0, kv.key) == Find(t0, kv.key);
    case SetFound(x, kv) => assert Find(u0, kv.key) == Find(t0, kv.key) && Find(u1, kv.key) == Find(t1, kv.key);
    case SetPut(x, kv) =>
      assert if x == 0 then Find(u0, kv.key) == Find(t0, kv.key) else Find(u1, kv.key) == Find(t1, kv.key);
    case CkLocked(x, kv, v) => assert Find(u0, v.key) == Find(t0, v.key) && Find(u1, v.key) == Find(t1, v.key);
    case CkCopied(x, kv, v) => assert Find(u0, v.key) == Find(t0, v.key) && Find(u1, v.key) == Find(t1, v.key);
    case _ =>
  }

  // No key under one of the thread's stripes is in both tables, unless the
  // thread is relocating it.
  ghost predicate Single(pc: Pc, t0: map<Key, Kv>, t1: map<Key, Kv>) {
    !pc.CkCopied? ==>
      forall k :: (StripeOf(0, k) in Held(pc) || StripeOf(1, k) in Held(pc)) ==> !(k in t0 && k in t1)
  }

  lemma SingleAt(pc: Pc, t0: map<Key, Kv>, t1: map<Key, Kv>, k: Key)
    requires Single(pc, t0, t1) && !pc.CkCopied? && (StripeOf(0, k) in Held(pc) || StripeOf(1, k) in Held(pc))
    ensures !(k in t0 && k in t1)
  {
    hide StripeOf, Held;
  }

  // The acting thread's knowledge after its step.
  lemma ReadKnows(pc: Pc, t0: map<Key, Kv>, t1: map<Key, Kv>, seen: set<Option<Kv>>, m: Move, seen2: set<Option<Kv>>)
    requires ReadMove(pc, t0, t1) == Some(m) && Knows(pc, t0, t1, seen)
    requires Reading(pc).Some? ==> Find(Abs(t0, t1), Reading(pc).value) in seen && seen <= seen2
    ensures Knows(m.pc, m.t0, m.t1, seen2)
  {
    hide StripeOf, Held, Both;
  }

  lemma SetKnows(pc: Pc, t0: map<Key, Kv>, t1: map<Key, Kv>, seen: set<Option<Kv>>, m: Move, seen2: set<Option<Kv>>)
    requires SetMove(pc, t0, t1) == Some(m) && Knows(pc, t0, t1, seen) && Single(pc, t0, t1)
    ensures Knows(m.pc, m.t0, m.t1, seen2)
  {
    hide StripeOf, Single;
    if pc.SetBoth? {
      SingleAt(pc, t0, t1, pc.kv.key);
    }
  }

  lemma CuckooKnows(pc: Pc, t0: map<Key, Kv>, t1: map<Key, Kv>, seen: set<Option<Kv>>, m: Move, seen2: set<Option<Kv>>)
    requires CuckooMove(pc, t0, t1) == Some(m) && Knows(pc, t0, t1, seen)
    ensures Knows(m.pc, m.t0, m.t1, seen2)
  {
    hide StripeOf;
  }

  lemma ChoiceKnows(pc: Pc, t0: map<Key, Kv>, t1: map<Key, Kv>, seen: set<Option<Kv>>, act: Act, m: Move, seen2: set<Option<Kv>>)
    requires ChoiceMove(pc, t0, t1, act) == Some(m) && Knows(pc, t0, t1, seen) && Single(pc, t0, t1)
    requires m.take.Some? ==> m.take.value !in Held(pc)
    ensures Knows(m.pc, m.t0, m.t1, seen2)
  {
    hide Single, SameSlot, HashOf;
    if act.TryLock? {
      SlotStripe(act.x, act.i, act.v.key, pc.kv.key);
      SingleAt(pc, t0, t1, act.v.key);
    }
  }

  lemma MoveKnows(pc: Pc, t0: map<Key, Kv>, t1: map<Key, Kv>, seen: set<Option<Kv>>, act: Act, m: Move, seen2: set<Option<Kv>>)
    requires MoveOf(pc, t0, t1, act) == Some(m) && Knows(pc, t0, t1, seen) && Single(pc, t0, t1)
    requires m.take.Some? ==> m.take.value !in Held(pc)
    requires Reading(pc).Some? ==> Find(Abs(t0, t1), Reading(pc).value) in seen && seen <= seen2
    ensures Knows(m.pc, m.t0, m.t1, seen2)
  {
    hide Held, Knows, ReadMove, SetMove, CuckooMove, ChoiceMove, Single, Reading;
    if act != Go {
      ChoiceKnows(pc, t0, t1, seen, act, m, seen2);
    } else if ReadMove(pc, t0, t1).Some? {
      ReadKnows(pc, t0, t1, seen, m, seen2);
    } else if SetMove(pc, t0, t1).Some? {
      SetKnows(pc, t0, t1, seen, m, seen2);
    } else {
      CuckooKnows(pc, t0, t1, seen, m, seen2);
    }
  }

  // ---- one step of the whole system ----

  lemma Exclusive(s: State, t: Tid, u: Tid, l: Lock)
    requires LocksOk(s) && t in s.pc && u in s.pc && l in Held(s.pc[t]) && l in Held(s.pc[u])
    ensures t == u
  {
    assert s.owner[l] == t;
  }

  lemma NotShared(s: State, t: Tid, u: Tid, l: Lock)
    requires LocksOk(s) && t in s.pc && u in s.pc && t != u
    ensures !(l in Held(s.pc[t]) && l in Held(s.pc[u]))
  {
    if l in Held(s.pc[t]) && l in Held(s.pc[u]) {
      Exclusive(s, t, u, l);
    }
  }

  // A thread that has copied its victim holds both of the victim's stripes.
  lemma CopierHolds(s: State, u: Tid)
    requires Inv(s) && u in s.pc && s.pc[u].CkCopied?
    ensures var k := s.pc[u].v.key; StripeOf(0, k) in Held(s.pc[u]) && StripeOf(1, k) in Held(s.pc[u])
  {
    assert Knows(s.pc[u], s.t0, s.t1, SeenOf(s, u));
  }

  // While a thread holds a stripe of a key, and is not relocating it, the key
  // is in at most one table.
  lemma SingleCopy(s: State, t: Tid, k: Key)
    requires Inv(s) && t in s.pc && !s.pc[t].CkCopied?
    requires StripeOf(0, k) in Held(s.pc[t]) || StripeOf(1, k) in Held(s.pc[t])
    ensures !(k in s.t0 && k in s.t1)
  {
    hide SeenNow, OneOwner, Knows, Held, StripeOf;
    if k in s.t0 && k in s.t1 {
      assert Relocating(s, k);
      var u :| u in s.pc && s.pc[u].CkCopied? && s.pc[u].v.key == k;
      CopierHolds(s, u);
      if StripeOf(0, k) in Held(s.pc[t]) {
        Exclusive(s, t, u, StripeOf(0, k));
      } else {
        Exclusive(s, t, u, StripeOf(1, k));
      }
    }
  }

  // The owners after one thread's stripes have changed.
  lemma LocksAfter(s: State, s2: State, t: Tid, m: Move)
    requires LocksOk(s) && t in s.pc && s2.pc == s.pc[t := m.pc] && LocksMove(s.pc[t], m)
    requires m.take.Some? ==> m.take.value !in s.owner
    requires s2.owner == (if m.take.Some? then s.owner[m.take.value := t] else s.owner) - m.free
    ensures LocksOk(s2)
  {
    hide Held;
    forall l: Lock, u: Tid
      ensures (l in s2.owner && s2.owner[l] == u) <==> (u in s2.pc && l in Held(s2.pc[u]))
    {
      assert (l in s.owner && s.owner[l] == u) <==> (u in s.pc && l in Held(s.pc[u]));
      assert (l in s.owner && s.owner[l] == t) <==> (t in s.pc && l in Held(s.pc[t]));
    }
  }

  lemma TakesNew(s: State, t: Tid, l: Lock)
    requires LocksOk(s) && t in s.pc && l !in s.owner
    ensures l !in Held(s.pc[t])
  {
    hide Held;
  }

  lemma StepLocks(s: State, s2: State, t: Tid, act: Act)
    requires Inv(s) && StepBy(s, s2, t, act)
    ensures LocksOk(s2)
    ensures forall u :: u in s.pc && u != t ==> u in s2.pc && s2.pc[u] == s.pc[u]
  {
    hide Held, MoveOf, Knows, LocksOk, LocksMove, FootMove, OneOwner, SeenNow;
    var m := MoveOf(s.pc[t], s.t0, s.t1, act).value;
    if m.take.Some? {
      TakesNew(s, t, m.take.value);
    }
    MoveLocks(s.pc[t], s.t0, s.t1, SeenOf(s, t), act, m, Key(0, []));
    LocksAfter(s, s2, t, m);
  }

  // What another thread knows is still true.
  lemma StepOthers(s: State, s2: State, t: Tid, act: Act, u: Tid)
    requires Inv(s) && StepBy(s, s2, t, act) && u in s.pc && u != t
    ensures Knows(s2.pc[u], s2.t0, s2.t1, SeenOf(s2, u))
  {
    hide Held, MoveOf, Knows, Owns;
    forall k ensures StripeOf(0, k) in Held(s.pc[u]) ==> Find(s2.t0, k) == Find(s.t0, k)
             ensures StripeOf(1, k) in Held(s.pc[u]) ==> Find(s2.t1, k) == Find(s.t1, k)
    {
      OtherStripes(s, s2, t, act, u, k);
    }
    if Owns(s.pc[u]).Some? {
      OtherOwner(s, s2, t, act, u);
    }
    if Reading(s.pc[u]).Some? {
      KnowsStable(s.pc[u], s.t0, s.t1, SeenOf(s, u), s2.t0, s2.t1, SeenOf(s2, u));
    } else {
      KnowsStable(s.pc[u], s.t0, s.t1, SeenOf(s, u), s2.t0, s2.t1, SeenOf(s, u));
      KnowsUnread(s.pc[u], s2.t0, s2.t1, SeenOf(s, u), SeenOf(s2, u));
    }
  }

  lemma OtherStripes(s: State, s2: State, t: Tid, act: Act, u: Tid, k: Key)
    requires Inv(s) && StepBy(s, s2, t, act) && u in s.pc && u != t
    ensures StripeOf(0, k) in Held(s.pc[u]) ==> Find(s2.t0, k) == Find(s.t0, k)
    ensures StripeOf(1, k) in Held(s.pc[u]) ==> Find(s2.t1, k) == Find(s.t1, k)
  {
    hide Held, MoveOf, Knows;
    var pc, m := s.pc[t], MoveOf(s.pc[t], s.t0, s.t1, act).value;
    assert m.take.Some? ==> m.take.value !in Held(pc);
    MoveLocks(pc, s.t0, s.t1, SeenOf(s, t), act, m, k);
    if StripeOf(0, k) in Held(s.pc[u]) && StripeOf(0, k) in Held(pc) {
      Exclusive(s, t, u, StripeOf(0, k));
    }
    if StripeOf(1, k) in Held(s.pc[u]) && StripeOf(1, k) in Held(pc) {
      Exclusive(s, t, u, StripeOf(1, k));
    }
  }

  // No other thread brings a claimed key into a table.
  lemma OtherOwner(s: State, s2: State, t: Tid, act: Act, u: Tid)
    requires Inv(s) && StepBy(s, s2, t, act) && u in s.pc && u != t && Owns(s.pc[u]).Some?
    ensures var k := Owns(s.pc[u]).value; (k in s2.t0 ==> k in s.t0) && (k in s2.t1 ==> k in s.t1)
  {
    hide Held, MoveOf, Knows, Owns;
    var k := Owns(s.pc[u]).value;
    var pc, m := s.pc[t], MoveOf(s.pc[t], s.t0, s.t1, act).value;
    OwnerHolds(s.pc[u], s.t0, s.t1, SeenOf(s, u));
    NotShared(s, t, u, StripeOf(0, k));
    NotShared(s, t, u, StripeOf(1, k));
    if (k !in s.t0 && k in m.t0) || (k !in s.t1 && k in m.t1) {
      MoveGain(pc, s.t0, s.t1, SeenOf(s, t), act, m, k);
    }
  }

  lemma OwnerHolds(pc: Pc, t0: map<Key, Kv>, t1: map<Key, Kv>, seen: set<Option<Kv>>)
    requires Owns(pc).Some? && Knows(pc, t0, t1, seen)
    ensures StripeOf(0, Owns(pc).value) in Held(pc) || StripeOf(1, Owns(pc).value) in Held(pc)
  {
  }

  lemma StepSelf(s: State, s2: State, t: Tid, act: Act)
    requires Inv(s) && StepBy(s, s2, t, act)
    ensures Knows(s2.pc[t], s2.t0, s2.t1, SeenOf(s2, t))
  {
    hide Held, MoveOf, Knows;
    var pc, m := s.pc[t], MoveOf(s.pc[t], s.t0, s.t1, act).value;
    assert m.take.Some? ==> m.take.value !in Held(pc);
    if !pc.CkCopied? {
      forall k | StripeOf(0, k) in Held(pc) || StripeOf(1, k) in Held(pc) ensures !(k in s.t0 && k in s.t1) {
        SingleCopy(s, t, k);
      }
    }
    ReadEnds(pc, s.t0, s.t1, act, m);
    var seen2 := if Reading(pc).Some? then SeenOf(s, t) + SeenOf(s2, t) else SeenOf(s2, t);
    MoveKnows(pc, s.t0, s.t1, SeenOf(s, t), act, m, seen2);
    if Reading(m.pc).Some? {
      assert pc != Idle ==> SeenOf(s, t) <= SeenOf(s2, t);
    } else {
      KnowsUnread(m.pc, m.t0, m.t1, seen2, SeenOf(s2, t));
    }
  }

  // A read goes on as a read of the same key until it is over.
  lemma ReadEnds(pc: Pc, t0: map<Key, Kv>, t1: map<Key, Kv>, act: Act, m: Move)
    requires MoveOf(pc, t0, t1, act) == Some(m)
    ensures Reading(m.pc).Some? ==> pc == Idle || Reading(pc) == Reading(m.pc)
    ensures pc == Idle ==> m.pc.ReadWant? || m.pc.SetWant?
  {
    hide ReadMove, SetMove, CuckooMove, ChoiceMove, Reading;
    if act != Go {
      ChoiceEnds(pc, t0, t1, act, m);
    } else if ReadMove(pc, t0, t1).Some? {
      ReadGoes(pc, t0, t1, m);
    } else {
      SetGoes(pc, t0, t1, m);
    }
  }

  lemma ReadGoes(pc: Pc, t0: map<Key, Kv>, t1: map<Key, Kv>, m: Move)
    requires ReadMove(pc, t0, t1) == Some(m)
    ensures pc != Idle && (Reading(m.pc).Some? ==> Reading(pc) == Reading(m.pc))
  {
    hide StripeOf;
  }

  lemma SetGoes(pc: Pc, t0: map<Key, Kv>, t1: map<Key, Kv>, m: Move)
    requires SetMove(pc, t0, t1) == Some(m) || CuckooMove(pc, t0, t1) == Some(m)
    ensures pc != Idle && Reading(m.pc).None?
  {
    hide StripeOf;
  }

  lemma ChoiceEnds(pc: Pc, t0: map<Key, Kv>, t1: map<Key, Kv>, act: Act, m: Move)
    requires ChoiceMove(pc, t0, t1, act) == Some(m)
    ensures if pc == Idle then m.pc.ReadWant? || m.pc.SetWant? else Reading(m.pc).None?
  {
    hide StripeOf, SameSlot;
  }

  lemma KnowsUnread(pc: Pc, t0: map<Key, Kv>, t1: map<Key, Kv>, seen: set<Option<Kv>>, seen2: set<Option<Kv>>)
    requires Knows(pc, t0, t1, seen) && Reading(pc).None?
    ensures Knows(pc, t0, t1, seen2)
  {
  }

  lemma StepOneOwner(s: State, s2: State, t: Tid, act: Act)
    requires Inv(s) && StepBy(s, s2, t, act) && LocksOk(s2)
    requires forall u :: u in s.pc && u != t ==> u in s2.pc && s2.pc[u] == s.pc[u]
    ensures OneOwner(s2)
  {
    hide Inv, MoveOf, Knows, Owns, Held, LocksOk, Watch;
    var pc, m := s.pc[t], MoveOf(s.pc[t], s.t0, s.t1, act).value;
    OwnersDiffer(s);
    forall u | u in s2.pc && u != t && Owns(s2.pc[u]).Some? ensures Owns(s2.pc[t]) != Owns(s2.pc[u]) {
      if Owns(m.pc).Some? && Owns(pc) != Owns(m.pc) {
        Claims(pc, s.t0, s.t1, act, m);
        InvKnows(s, u);
        OwnerHolds(s.pc[u], s.t0, s.t1, SeenOf(s, u));
        var k := Owns(m.pc).value;
        NotShared(s2, t, u, StripeOf(0, k));
        NotShared(s2, t, u, StripeOf(1, k));
      }
    }
  }

  lemma OwnersDiffer(s: State)
    requires Inv(s)
    ensures OneOwner(s)
  {
  }

  // A set claims its key when it has both stripes.
  lemma Claims(pc: Pc, t0: map<Key, Kv>, t1: map<Key, Kv>, act: Act, m: Move)
    requires MoveOf(pc, t0, t1, act) == Some(m) && Owns(m.pc).Some? && Owns(pc) != Owns(m.pc)
    ensures Both(Owns(m.pc).value) <= Held(m.pc)
  {
  }

  lemma StepCopies(s: State, s2: State, t: Tid, act: Act, k: Key)
    requires Inv(s) && StepBy(s, s2, t, act) && k in s2.t0 && k in s2.t1
    requires forall u :: u in s.pc && u != t ==> u in s2.pc && s2.pc[u] == s.pc[u]
    ensures Relocating(s2, k)
  {
    hide Inv, MoveOf, Knows, Held, Gains, Watch;
    var pc, m := s.pc[t], MoveOf(s.pc[t], s.t0, s.t1, act).value;
    InvKnows(s, t);
    if k in s.t0 && k in s.t1 {
      var u := Relocator(s, k);
      if u == t {
        CopiedErases(pc, s.t0, s.t1, act, m);
      }
      assert s2.pc[u].CkCopied? && s2.pc[u].v.key == k;
    } else {
      MoveGain(pc, s.t0, s.t1, SeenOf(s, t), act, m, k);
      GainsCopied(pc, s.t0, s.t1, m, k);
      assert s2.pc[t] == m.pc;
    }
  }

  lemma InvKnows(s: State, t: Tid)
    requires Inv(s) && t in s.pc
    ensures Knows(s.pc[t], s.t0, s.t1, SeenOf(s, t))
  {
    hide LocksOk, SeenNow, OneOwner, Knows, Relocating;
  }

  lemma Relocator(s: State, k: Key) returns (u: Tid)
    requires Inv(s) && k in s.t0 && k in s.t1
    ensures u in s.pc && s.pc[u].CkCopied? && s.pc[u].v.key == k
  {
    hide LocksOk, SeenNow, OneOwner, Knows;
    assert Relocating(s, k);
    u :| u in s.pc && s.pc[u].CkCopied? && s.pc[u].v.key == k;
  }

  lemma CopiedErases(pc: Pc, t0: map<Key, Kv>, t1: map<Key, Kv>, act: Act, m: Move)
    requires MoveOf(pc, t0, t1, act) == Some(m) && pc.CkCopied?
    ensures pc.v.key !in m.t0 || pc.v.key !in m.t1
  {
  }

  lemma GainsCopied(pc: Pc, t0: map<Key, Kv>, t1: map<Key, Kv>, m: Move, k: Key)
    requires Gains(pc, t0, t1, m, k) && !(k in t0 && k in t1) && k in m.t0 && k in m.t1
    ensures m.pc.CkCopied? && m.pc.v.key == k
  {
    hide Held, Owns, Both;
  }

  // Every step keeps the invariant.
  lemma StepInv(s: State, s2: State)
    requires Inv(s) && Next(s, s2)
    ensures Inv(s2)
  {
    var t, act :| StepBy(s, s2, t, act);
    StepLocks(s, s2, t, act);
    StepOneOwner(s, s2, t, act);
    forall u | u in s2.pc ensures Knows(s2.pc[u], s2.t0, s2.t1, SeenOf(s2, u)) {
      if u == t {
        StepSelf(s, s2, t, act);
      } else {
        StepOthers(s, s2, t, act, u);
      }
    }
    forall k | k in s2.t0 && k in s2.t1 ensures Relocating(s2, k) {
      StepCopies(s, s2, t, act, k);
    }
  }

  // ---- runs ----

  ghost predicate Run(run: seq<State>) {
    run != [] && Init(run[0]) && forall i :: 0 <= i < |run| - 1 ==> Next(run[i], run[i + 1])
  }

  // The invariant holds in every reachable state.
  lemma {:induction false} Always(run: seq<State>, n: nat)
    requires Run(run) && n < |run|
    ensures Inv(run[n])
    decreases n
  {
    if n == 0 {
      var s := run[0];
      forall k ensures !(k in s.t0 && k in s.t1) {
        assert k in s.t0 ==> k in s.t0.Keys;
      }
    } else {
      Always(run, n - 1);
      assert Next(run[n - 1], run[n]);
      StepInv(run[n - 1], run[n]);
    }
  }

  // At rest (no relocation half done) no key is in both tables.
  lemma AtRestOneCopy(run: seq<State>, n: nat)
    requires Run(run) && n < |run|
    requires forall t :: t in run[n].pc ==> !run[n].pc[t].CkCopied?
    ensures run[n].t0.Keys !! run[n].t1.Keys
  {
    Always(run, n);
    forall k ensures !(k in run[n].t0 && k in run[n].t1) {
      assert Relocating(run[n], k) ==> false;
    }
  }

  ghost predicate ReadsThrough(run: seq<State>, b: nat, n: nat, t: Tid, key: Key)
    requires n < |run|
  {
    forall i :: b <= i <= n ==> t in run[i].pc && Reading(run[i].pc[t]) == Some(key)
  }

  // Everything a running read has seen was the abstract value of its key at
  // some state of the read.
  lemma {:induction false} SeenReal(run: seq<State>, n: nat, t: Tid, key: Key, r: Option<Kv>) returns (b: nat)
    requires Run(run) && n < |run| && t in run[n].pc && Reading(run[n].pc[t]) == Some(key)
    requires t in run[n].seen && r in run[n].seen[t]
    ensures b <= n && ReadsThrough(run, b, n, t, key)
    ensures Find(Abs(run[b].t0, run[b].t1), key) == r
    decreases n
  {
    hide Abs, Reading, Next;
    if r == Find(Abs(run[n].t0, run[n].t1), key) {
      b := n;
    } else {
      assert n > 0;
      assert Next(run[n - 1], run[n]);
      SeenBefore(run[n - 1], run[n], t, key, r);
      b := SeenReal(run, n - 1, t, key, r);
    }
  }

  // What a read has seen is the present value or was seen a step before.
  lemma SeenBefore(s: State, s2: State, t: Tid, key: Key, r: Option<Kv>)
    requires Next(s, s2) && t in s2.pc && Reading(s2.pc[t]) == Some(key)
    requires t in s2.seen && r in s2.seen[t] && r != Find(Abs(s2.t0, s2.t1), key)
    ensures t in s.pc && Reading(s.pc[t]) == Some(key) && t in s.seen && r in s.seen[t]
  {
    hide MoveOf, Abs, Reading;
    var u, act :| StepBy(s, s2, u, act);
    var m := MoveOf(s.pc[u], s.t0, s.t1, act).value;
    if u == t {
      ReadEnds(s.pc[u], s.t0, s.t1, act, m);
    }
  }

  // get and probe are linearizable: the value they return was the abstract
  // value of the key at some state between their start and their return.
  lemma ReadLinearizes(run: seq<State>, n: nat, t: Tid, key: Key, x: nat, r: Option<Kv>, del: bool)
    returns (b: nat)
    requires Run(run) && n < |run| && t in run[n].pc && run[n].pc[t] == ReadDone(del, key, x, r)
    ensures b <= n && ReadsThrough(run, b, n, t, key)
    ensures Find(Abs(run[b].t0, run[b].t1), key) == r
  {
    Always(run, n);
    assert Knows(run[n].pc[t], run[n].t0, run[n].t1, SeenOf(run[n], t));
    b := SeenReal(run, n, t, key, r);
  }

  // A key that stays in the map for the whole of a get is found, even while it
  // is being relocated between the tables.
  lemma StayingKeyFound(run: seq<State>, n: nat, t: Tid, key: Key, x: nat, r: Option<Kv>, del: bool)
    requires Run(run) && n < |run| && t in run[n].pc && run[n].pc[t] == ReadDone(del, key, x, r)
    requires forall i :: 0 <= i <= n && ReadsThrough(run, i, n, t, key) ==> key in Abs(run[i].t0, run[i].t1)
    ensures r.Some?
  {
    var b := ReadLinearizes(run, n, t, key, x, r, del);
  }

  // ---- what a step does to the abstract map ----

  // A write on the abstract map: the key's new object, or none.
  datatype Write = Write(key: Key, val: Option<Kv>)

  // The write a step performs on the abstract map, if it is one.
  function Writes(pc: Pc, t0: map<Key, Kv>, t1: map<Key, Kv>, act: Act): Option<Write> {
    match pc
    case SetPut(_, kv) => Some(Write(kv.key, Some(kv)))
    case SetIns(_, kv) => Some(Write(kv.key, Some(kv)))
    case SetNew(kv) => if act.InsertHere? then Some(Write(kv.key, Some(kv))) else None
    case ReadOne(del, key) => if del && key in t0 then Some(Write(key, None)) else None
    case ReadTwo(del, key) => if del && key in t1 then Some(Write(key, None)) else None
    case _ => None
  }

  function Written(w: Option<Write>, a: map<Key, Kv>): map<Key, Kv> {
    if w.None? then a
    else if w.value.val.None? then a - {w.value.key}
    else a[w.value.key := w.value.val.value]
  }

  function Effect(pc: Pc, t0: map<Key, Kv>, t1: map<Key, Kv>, act: Act, a: map<Key, Kv>): map<Key, Kv> {
    Written(Writes(pc, t0, t1, act), a)
  }

  // Every step is either invisible in the abstract map, relocations included,
  // or is the single write of a set, or the single removal of a del.
  lemma StepEffect(s: State, s2: State, t: Tid, act: Act)
    requires Inv(s) && StepBy(s, s2, t, act)
    ensures Abs(s2.t0, s2.t1) == Effect(s.pc[t], s.t0, s.t1, act, Abs(s.t0, s.t1))
  {
    var pc, m := s.pc[t], MoveOf(s.pc[t], s.t0, s.t1, act).value;
    assert Knows(pc, s.t0, s.t1, SeenOf(s, t));
    if pc.ReadOne? || pc.ReadTwo? {
      SingleCopy(s, t, pc.key);
    }
    MoveEffect(pc, s.t0, s.t1, SeenOf(s, t), act, m);
  }

  lemma AbsPut0(t0: map<Key, Kv>, t1: map<Key, Kv>, kv: Kv)
    ensures Abs(t0[kv.key := kv], t1) == Abs(t0, t1)[kv.key := kv]
  {
  }

  lemma AbsPut1(t0: map<Key, Kv>, t1: map<Key, Kv>, kv: Kv)
    requires kv.key !in t0
    ensures Abs(t0, t1[kv.key := kv]) == Abs(t0, t1)[kv.key := kv]
  {
  }

  // A copy of what the other table has is not seen.
  lemma AbsCopy(t0: map<Key, Kv>, t1: map<Key, Kv>, v: Kv)
    ensures Find(t0, v.key) == Some(v) ==> Abs(t0, t1[v.key := v]) == Abs(t0, t1)
    ensures Find(t1, v.key) == Some(v) && v.key !in t0 ==> Abs(t0[v.key := v], t1) == Abs(t0, t1)
  {
    if Find(t1, v.key) == Some(v) && v.key !in t0 {
      AbsPut0(t0, t1, v);
      assert Abs(t0, t1)[v.key := v] == Abs(t0, t1);
    }
  }

  lemma AbsErase(t0: map<Key, Kv>, t1: map<Key, Kv>, k: Key)
    ensures k !in t1 ==> Abs(t0 - {k}, t1) == Abs(t0, t1) - {k}
    ensures k !in t0 ==> Abs(t0, t1 - {k}) == Abs(t0, t1) - {k}
  {
  }

  lemma AbsUncopy(t0: map<Key, Kv>, t1: map<Key, Kv>, k: Key)
    requires k in t0 && Find(t1, k) == Find(t0, k)
    ensures Abs(t0 - {k}, t1) == Abs(t0, t1) && Abs(t0, t1 - {k}) == Abs(t0, t1)
  {
  }

  lemma MoveEffect(pc: Pc, t0: map<Key, Kv>, t1: map<Key, Kv>, seen: set<Option<Kv>>, act: Act, m: Move)
    requires MoveOf(pc, t0, t1, act) == Some(m) && Knows(pc, t0, t1, seen)
    requires pc.ReadOne? || pc.ReadTwo? ==> !(pc.key in t0 && pc.key in t1)
    ensures Abs(m.t0, m.t1) == Effect(pc, t0, t1, act, Abs(t0, t1))
  {
    hide Abs, Knows, ReadMove, SetMove, CuckooMove, ChoiceMove, Effect;
    if act != Go {
      ChoiceEffect(pc, t0, t1, seen, act, m);
    } else if ReadMove(pc, t0, t1).Some? {
      ReadEffect(pc, t0, t1, m);
    } else if SetMove(pc, t0, t1).Some? {
      SetEffect(pc, t0, t1, seen, m);
    } else {
      CuckooEffect(pc, t0, t1, seen, m);
    }
  }

  lemma ReadEffect(pc: Pc, t0: map<Key, Kv>, t1: map<Key, Kv>, m: Move)
    requires ReadMove(pc, t0, t1) == Some(m)
    requires pc.ReadOne? || pc.ReadTwo? ==> !(pc.key in t0 && pc.key in t1)
    ensures Abs(m.t0, m.t1) == Effect(pc, t0, t1, Go, Abs(t0, t1))
  {
    hide Abs, StripeOf;
    match pc
    case ReadOne(_, key) => AbsErase(t0, t1, key);
    case ReadTwo(_, key) => AbsErase(t0, t1, key);
    case _ =>
  }

  lemma SetEffect(pc: Pc, t0: map<Key, Kv>, t1: map<Key, Kv>, seen: set<Option<Kv>>, m: Move)
    requires SetMove(pc, t0, t1) == Some(m) && Knows(pc, t0, t1, seen)
    ensures Abs(m.t0, m.t1) == Effect(pc, t0, t1, Go, Abs(t0, t1))
  {
    hide Abs, StripeOf;
    if pc.SetPut? || pc.SetIns? {
      if pc.x == 0 {
        AbsPut0(t0, t1, pc.kv);
      } else {
        AbsPut1(t0, t1, pc.kv);
      }
    }
  }

  lemma CuckooEffect(pc: Pc, t0: map<Key, Kv>, t1: map<Key, Kv>, seen: set<Option<Kv>>, m: Move)
    requires CuckooMove(pc, t0, t1) == Some(m) && Knows(pc, t0, t1, seen)
    ensures Abs(m.t0, m.t1) == Effect(pc, t0, t1, Go, Abs(t0, t1))
  {
    hide Abs, StripeOf, Victim;
    match pc
    case CkLocked(_, _, v) => AbsCopy(t0, t1, v);
    case CkCopied(_, _, v) => AbsUncopy(t0, t1, v.key);
    case _ =>
  }

  lemma ChoiceEffect(pc: Pc, t0: map<Key, Kv>, t1: map<Key, Kv>, seen: set<Option<Kv>>, act: Act, m: Move)
    requires ChoiceMove(pc, t0, t1, act) == Some(m) && Knows(pc, t0, t1, seen)
    ensures Abs(m.t0, m.t1) == Effect(pc, t0, t1, act, Abs(t0, t1))
  {
    hide Abs, StripeOf, SameSlot;
    if act.InsertHere? {
      if act.x == 0 {
        AbsPut0(t0, t1, pc.kv);
      } else {
        AbsPut1(t0, t1, pc.kv);
      }
    }
  }

  // ---- one write for each operation ----

  // Whose step comes next, and with which choice.
  datatype Turn = Turn(t: Tid, act: Act)

  ghost predicate Scheduled(run: seq<State>, sched: seq<Turn>) {
    Run(run) && |sched| == |run| - 1 && forall i :: 0 <= i < |sched| ==> TurnAt(run, sched, i)
  }

  ghost predicate TurnAt(run: seq<State>, sched: seq<Turn>, i: nat)
    requires i < |sched| < |run|
  {
    StepBy(run[i], run[i + 1], sched[i].t, sched[i].act)
  }

  // Every run has a schedule.
  lemma {:induction false} HasSchedule(run: seq<State>) returns (sched: seq<Turn>)
    requires Run(run)
    ensures Scheduled(run, sched)
  {
    hide StepBy, Init;
    sched := [];
    while |sched| < |run| - 1
      invariant |sched| <= |run| - 1
      invariant forall i :: 0 <= i < |sched| ==> TurnAt(run, sched, i)
    {
      var i := |sched|;
      assert Next(run[i], run[i + 1]);
      var t, act :| StepBy(run[i], run[i + 1], t, act);
      ghost var more := sched + [Turn(t, act)];
      forall j | 0 <= j <= i ensures TurnAt(run, more, j) {
        assert j < i ==> TurnAt(run, sched, j);
      }
      sched := more;
    }
  }

  // The write of step i, if it is one of thread t.
  ghost function WriteAt(run: seq<State>, sched: seq<Turn>, t: Tid, i: nat): Option<Write>
    requires i < |sched| < |run|
  {
    if sched[i].t == t && t in run[i].pc then Writes(run[i].pc[t], run[i].t0, run[i].t1, sched[i].act) else None
  }

  // What the running operation has written so far.
  function Wrote(pc: Pc): Option<Write> {
    match pc
    case SetWhole(kv) => Some(Write(kv.key, Some(kv)))
    case SetHalf(_, kv) => Some(Write(kv.key, Some(kv)))
    case ReadDone(del, key, _, r) => if del && r.Some? then Some(Write(key, None)) else None
    case _ => None
  }

  // The operation a thread is in: what it sets, or the key it gets or deletes.
  datatype Job = SetJob(kv: Kv) | ReadJob(del: bool, key: Key)

  function JobOf(pc: Pc): Option<Job> {
    match pc
    case Idle => None
    case ReadWant(del, key) => Some(ReadJob(del, key))
    case ReadOne(del, key) => Some(ReadJob(del, key))
    case ReadMiss(del, key) => Some(ReadJob(del, key))
    case ReadBoth(del, key) => Some(ReadJob(del, key))
    case ReadTwo(del, key) => Some(ReadJob(del, key))
    case ReadDone(del, key, _, _) => Some(ReadJob(del, key))
    case _ => Some(SetJob(pc.kv))
  }

  lemma SameJob(pc: Pc, t0: map<Key, Kv>, t1: map<Key, Kv>, act: Act, m: Move)
    requires MoveOf(pc, t0, t1, act) == Some(m) && pc != Idle && m.pc != Idle
    ensures JobOf(m.pc) == JobOf(pc)
  {
    hide ChoiceMove, ReadMove, SetMove, CuckooMove, JobOf;
    if act != Go {
      ChoiceSameJob(pc, t0, t1, act, m);
    } else if ReadMove(pc, t0, t1).Some? {
      ReadSameJob(pc, t0, t1, m);
    } else if SetMove(pc, t0, t1).Some? {
      SetSameJob(pc, t0, t1, m);
    } else {
      CuckooSameJob(pc, t0, t1, m);
    }
  }

  lemma ChoiceSameJob(pc: Pc, t0: map<Key, Kv>, t1: map<Key, Kv>, act: Act, m: Move)
    requires ChoiceMove(pc, t0, t1, act) == Some(m) && pc != Idle && m.pc != Idle
    ensures JobOf(m.pc) == JobOf(pc)
  {
    hide StripeOf, SameSlot;
  }

  lemma ReadSameJob(pc: Pc, t0: map<Key, Kv>, t1: map<Key, Kv>, m: Move)
    requires ReadMove(pc, t0, t1) == Some(m) && pc != Idle && m.pc != Idle
    ensures JobOf(m.pc) == JobOf(pc)
  {
    hide StripeOf, SameSlot;
  }

  lemma SetSameJob(pc: Pc, t0: map<Key, Kv>, t1: map<Key, Kv>, m: Move)
    requires SetMove(pc, t0, t1) == Some(m) && pc != Idle && m.pc != Idle
    ensures JobOf(m.pc) == JobOf(pc)
  {
    hide StripeOf, SameSlot;
  }

  lemma CuckooSameJob(pc: Pc, t0: map<Key, Kv>, t1: map<Key, Kv>, m: Move)
    requires CuckooMove(pc, t0, t1) == Some(m) && pc != Idle && m.pc != Idle
    ensures JobOf(m.pc) == JobOf(pc)
  {
    hide StripeOf, SameSlot;
  }

  lemma TurnWrites(pc: Pc, t0: map<Key, Kv>, t1: map<Key, Kv>, act: Act, m: Move)
    requires MoveOf(pc, t0, t1, act) == Some(m) && pc != Idle && m.pc != Idle
    ensures Wrote(m.pc) == if Writes(pc, t0, t1, act).Some? then Writes(pc, t0, t1, act) else Wrote(pc)
    ensures Writes(pc, t0, t1, act).Some? ==> Wrote(pc).None?
    ensures m.pc.ReadDone? && Wrote(m.pc).Some? ==> Writes(pc, t0, t1, act).Some?
  {
    hide StripeOf, SameSlot;
  }

  // An object a del removes is the one the map has.
  lemma DelReads(s: State, s2: State, t: Tid, act: Act)
    requires Inv(s) && StepBy(s, s2, t, act) && s2.pc[t].ReadDone?
    requires Writes(s.pc[t], s.t0, s.t1, act).Some?
    ensures Find(Abs(s.t0, s.t1), s2.pc[t].key) == s2.pc[t].r
  {
    hide Inv, StripeOf;
    SingleCopy(s, t, s.pc[t].key);
  }

  // What one step does to what a running operation has written, and to the map
  // if it is the write.
  lemma TurnWrote(run: seq<State>, sched: seq<Turn>, n: nat, t: Tid)
    requires Scheduled(run, sched) && n < |sched| && t in run[n].pc && t in run[n + 1].pc
    requires run[n].pc[t] != Idle && run[n + 1].pc[t] != Idle
    ensures var w, pc, pc2 := WriteAt(run, sched, t, n), run[n].pc[t], run[n + 1].pc[t];
      JobOf(pc2) == JobOf(pc) &&
      if w.None? then Wrote(pc2) == Wrote(pc) && (Wrote(pc2).Some? && pc2.ReadDone? ==> pc2 == pc)
      else
        && Wrote(pc).None? && Wrote(pc2) == w
        && Abs(run[n + 1].t0, run[n + 1].t1) == Written(w, Abs(run[n].t0, run[n].t1))
        && (pc2.ReadDone? ==> Find(Abs(run[n].t0, run[n].t1), pc2.key) == pc2.r)
  {
    hide Run, MoveOf, Wrote, Writes, Written, Abs, Inv, JobOf;
    var s, s2, u, act := run[n], run[n + 1], sched[n].t, sched[n].act;
    assert TurnAt(run, sched, n);
    if u == t {
      Always(run, n);
      TurnWrites(s.pc[t], s.t0, s.t1, act, MoveOf(s.pc[t], s.t0, s.t1, act).value);
      SameJob(s.pc[t], s.t0, s.t1, act, MoveOf(s.pc[t], s.t0, s.t1, act).value);
      if Writes(s.pc[t], s.t0, s.t1, act).Some? {
        StepEffect(s, s2, t, act);
        if s2.pc[t].ReadDone? {
          DelReads(s, s2, t, act);
        }
      }
    }
  }

  // Between b and n the only write of thread t is the one at w, of what its
  // operation has written; or there is none.
  ghost predicate WritesOnce(run: seq<State>, sched: seq<Turn>, b: nat, n: nat, t: Tid, w: nat)
    requires |sched| < |run| && b <= n <= |sched| && t in run[n].pc && t in run[b].pc
  {
    JobOf(run[n].pc[t]) == JobOf(run[b].pc[t]) &&
    var pc := run[n].pc[t];
    if Wrote(pc).None? then forall i :: b <= i < n ==> WriteAt(run, sched, t, i).None?
    else
      && b <= w < n && WriteAt(run, sched, t, w) == Wrote(pc)
      && Abs(run[w + 1].t0, run[w + 1].t1) == Written(Wrote(pc), Abs(run[w].t0, run[w].t1))
      && (forall i :: b <= i < n && i != w ==> WriteAt(run, sched, t, i).None?)
      && (pc.ReadDone? ==> Find(Abs(run[w].t0, run[w].t1), pc.key) == pc.r)
  }

  // In one operation, from its begin at b to any later place n, no step writes
  // the map before the write it knows of, and no other does after.
  lemma {:induction false} OneWrite(run: seq<State>, sched: seq<Turn>, b: nat, n: nat, t: Tid) returns (w: nat)
    requires Scheduled(run, sched) && b <= n < |run|
    requires forall i :: b <= i <= n ==> t in run[i].pc && run[i].pc[t] != Idle
    requires run[b].pc[t].ReadWant? || run[b].pc[t].SetWant?
    ensures WritesOnce(run, sched, b, n, t, w)
    decreases n
  {
    hide Run, TurnAt, Wrote, WriteAt, Written, Abs, JobOf;
    if n == b {
      w := 0;
      NotYet(run[b].pc[t]);
    } else {
      w := OneWrite(run, sched, b, n - 1, t);
      TurnWrote(run, sched, n - 1, t);
      if WriteAt(run, sched, t, n - 1).Some? {
        w := n - 1;
      }
    }
  }

  lemma NotYet(pc: Pc)
    requires pc.ReadWant? || pc.SetWant?
    ensures Wrote(pc).None?
  {
  }

  // A set that is about to return has written the map in exactly one step of
  // its thread since it began: its object, under its key.
  lemma SetWritesOnce(run: seq<State>, sched: seq<Turn>, b: nat, n: nat, t: Tid) returns (w: nat)
    requires Scheduled(run, sched) && b <= n < |run|
    requires forall i :: b <= i <= n ==> t in run[i].pc && run[i].pc[t] != Idle
    requires run[b].pc[t].SetWant? && run[n].pc[t].SetHalf?
    ensures b <= w < n && WriteAt(run, sched, t, w).Some?
    ensures forall i :: b <= i < n && i != w ==> WriteAt(run, sched, t, i).None?
    ensures Abs(run[w + 1].t0, run[w + 1].t1) == Abs(run[w].t0, run[w].t1)[run[b].pc[t].kv.key := run[b].pc[t].kv]
  {
    w := OneWrite(run, sched, b, n, t);
  }

  // A del that is about to return an object has removed it in exactly one step
  // of its thread, and it is what the map had in that very state. One that
  // returns nothing has written nothing.
  lemma DelWritesOnce(run: seq<State>, sched: seq<Turn>, b: nat, n: nat, t: Tid) returns (w: nat)
    requires Scheduled(run, sched) && b <= n < |run|
    requires forall i :: b <= i <= n ==> t in run[i].pc && run[i].pc[t] != Idle
    requires run[b].pc[t].ReadWant? && run[b].pc[t].del && run[n].pc[t].ReadDone?
    ensures var key, r := run[b].pc[t].key, run[n].pc[t].r;
      if r.None? then forall i :: b <= i < n ==> WriteAt(run, sched, t, i).None?
      else
        && b <= w < n && WriteAt(run, sched, t, w).Some?
        && (forall i :: b <= i < n && i != w ==> WriteAt(run, sched, t, i).None?)
        && Find(Abs(run[w].t0, run[w].t1), key) == r
        && Abs(run[w + 1].t0, run[w + 1].t1) == Abs(run[w].t0, run[w].t1) - {key}
  {
    w := OneWrite(run, sched, b, n, t);
  }

  // ---- deadlock ----

  ghost predicate Blocked(s: State, t: Tid) {
    t in s.pc && Waits(s.pc[t]).Some? && Waits(s.pc[t]).value in s.owner
  }

  // A blocked thread waits for a stripe above every stripe it holds.
  lemma WaitsUpwards(s: State, t: Tid)
    requires Inv(s) && Blocked(s, t)
    ensures forall l :: l in Held(s.pc[t]) ==> l.x < Waits(s.pc[t]).value.x
  {
  }

  // Following holders from a blocked thread reaches, in at most two steps, a
  // thread that can move: no set of threads waits for itself.
  lemma NoDeadlock(s: State, t: Tid) returns (u: Tid)
    requires Inv(s) && Blocked(s, t)
    ensures u in s.pc && s.pc[u] != Idle && !Blocked(s, u)
    ensures exists s2, act :: StepBy(s, s2, u, act)
  {
    hide Inv, StepBy, Held, Waits;
    u := Holder(s, t);
    if Blocked(s, u) {
      var v := Holder(s, u);
      WaitsUpwards(s, u);
      if Blocked(s, v) {
        WaitsUpwards(s, v);
        TwoTables(s.pc[u]);
        TwoTables(s.pc[v]);
      }
      u := v;
    }
    HolderMoves(s, u);
  }

  // An idle thread can begin any operation.
  lemma Begins(s: State, t: Tid, del: bool, key: Key, kv: Kv)
    requires t in s.pc && s.pc[t] == Idle
    ensures exists s2, act :: StepBy(s, s2, t, act) && s2.pc[t] == ReadWant(del, key)
    ensures exists s2, act :: StepBy(s, s2, t, act) && s2.pc[t] == SetWant(kv)
  {
    assert StepBy(s, Apply(s, t, MoveOf(Idle, s.t0, s.t1, BeginRead(del, key)).value), t, BeginRead(del, key));
    assert StepBy(s, Apply(s, t, MoveOf(Idle, s.t0, s.t1, BeginSet(kv)).value), t, BeginSet(kv));
  }

  // Who owns the stripe a thread is blocked on.
  lemma Holder(s: State, t: Tid) returns (u: Tid)
    requires Inv(s) && Blocked(s, t)
    ensures u in s.pc && s.pc[u] != Idle && Waits(s.pc[t]).value in Held(s.pc[u])
  {
    hide SeenNow, OneOwner, Knows, Relocating, Waits;
    var l := Waits(s.pc[t]).value;
    u := s.owner[l];
    assert l in s.owner && s.owner[l] == u;
  }

  lemma TwoTables(pc: Pc)
    ensures Waits(pc).Some? ==> Waits(pc).value.x < 2
  {
  }

  lemma HolderMoves(s: State, u: Tid)
    requires Inv(s) && u in s.pc && !Blocked(s, u) && s.pc[u] != Idle
    ensures exists s2, act :: StepBy(s, s2, u, act)
  {
    hide Inv, Held, Waits, MoveOf, Watch;
    var act := if s.pc[u].SetNew? then UseFree(0) else Go;
    GoesOn(s.pc[u], s.t0, s.t1);
    var m := MoveOf(s.pc[u], s.t0, s.t1, act);
    assert StepBy(s, Apply(s, u, m.value), u, act);
  }

  // A busy thread has a move, and takes no stripe but the one it waits for.
  lemma GoesOn(pc: Pc, t0: map<Key, Kv>, t1: map<Key, Kv>)
    requires pc != Idle
    ensures var m := MoveOf(pc, t0, t1, if pc.SetNew? then UseFree(0) else Go);
      m.Some? && (m.value.take.Some? ==> m.value.take == Waits(pc))
  {
    hide HashOf, Stripe;
  }
}
