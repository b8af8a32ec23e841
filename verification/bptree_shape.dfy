// B+-trees as values: what a tree of nodes means and when it is well formed.
// bptree.dfy ties these values to the nodes in memory.

module BpTreeShape {
  import opened Option
  import opened KvApi
  import opened KeyOrder

  const INTM_FO: nat := 250
  const LEAF_FO: nat := 500

  // A node without its links: the first `nr` elements of its array.
  datatype Body =
    | LeafB(karray: seq<Option<Kv>>)
    | IntmB(keys: seq<Option<Key>>, subs: seq<nat>)

  // A tree of nodes; `id` is the node's place in memory.
  datatype Tree =
    | LeafT(id: nat, kvs: seq<Option<Kv>>)
    | IntmT(id: nat, keys: seq<Option<Key>>, subs: seq<Tree>)

  // The entries below a node, in order.
  function Flat(t: Tree): seq<Option<Kv>> {
    match t
    case LeafT(_, kvs) => kvs
    case IntmT(_, _, subs) => FlatAll(subs)
  }

  function FlatAll(ts: seq<Tree>): seq<Option<Kv>> {
    if ts == [] then [] else Flat(ts[0]) + FlatAll(ts[1..])
  }

  // The nodes of height g, in order, in a tree of height h.
  function Lvl(t: Tree, h: nat, g: nat): seq<nat> {
    if g == h then [t.id]
    else match t
      case LeafT(_, _) => []
      case IntmT(_, _, subs) => if h == 0 then [] else LvlAll(subs, h - 1, g)
  }

  function LvlAll(ts: seq<Tree>, h: nat, g: nat): seq<nat> {
    if ts == [] then [] else Lvl(ts[0], h, g) + LvlAll(ts[1..], h, g)
  }

  function Ids(t: Tree): set<nat> {
    match t
    case LeafT(id, _) => {id}
    case IntmT(id, _, subs) => {id} + IdsAll(subs)
  }

  function IdsAll(ts: seq<Tree>): set<nat> {
    if ts == [] then {} else Ids(ts[0]) + IdsAll(ts[1..])
  }

  function Roots(ts: seq<Tree>): seq<nat> {
    seq(|ts|, i requires 0 <= i < |ts| => ts[i].id)
  }

  // No node occurs twice.
  ghost predicate Apart(t: Tree) {
    match t
    case LeafT(_, _) => true
    case IntmT(id, _, subs) =>
      && (forall i :: 0 <= i < |subs| ==> Apart(subs[i]) && id !in Ids(subs[i]))
      && (forall i, j :: 0 <= i < j < |subs| ==> Ids(subs[i]) !! Ids(subs[j]))
  }

  // Uniform depth, occupancy (at least half except at the root), and every
  // separator equal to the first key of its subtree.
  ghost predicate Wf(t: Tree, h: nat, isRoot: bool) {
    match t
    case LeafT(_, kvs) =>
      h == 0 && (if isRoot then 1 else LEAF_FO / 2) <= |kvs| <= LEAF_FO
    case IntmT(_, keys, subs) =>
      && h > 0 && |keys| == |subs| && (if isRoot then 2 else INTM_FO / 2) <= |subs| <= INTM_FO
      && (forall i :: 0 <= i < |subs| ==>
            Wf(subs[i], h - 1, false) && Flat(subs[i]) != [] && keys[i] == KeyOf(Flat(subs[i])[0]))
  }

  ghost predicate Rep(body: seq<Body>, t: Tree) {
    t.id < |body| &&
    match t
    case LeafT(id, kvs) => body[id] == LeafB(kvs)
    case IntmT(id, keys, subs) =>
      body[id] == IntmB(keys, Roots(subs)) && forall i :: 0 <= i < |subs| ==> Rep(body, subs[i])
  }

  // ---- concatenation ----

  lemma {:induction false} FlatAllConcat(a: seq<Tree>, b: seq<Tree>)
    ensures FlatAll(a + b) == FlatAll(a) + FlatAll(b)
  {
    if a == [] {
      assert a + b == b;
    } else {
      assert (a + b)[1..] == a[1..] + b;
      FlatAllConcat(a[1..], b);
    }
  }

  lemma {:induction false} LvlAllConcat(a: seq<Tree>, b: seq<Tree>, h: nat, g: nat)
    ensures LvlAll(a + b, h, g) == LvlAll(a, h, g) + LvlAll(b, h, g)
  {
    if a == [] {
      assert a + b == b;
    } else {
      assert (a + b)[1..] == a[1..] + b;
      LvlAllConcat(a[1..], b, h, g);
    }
  }

  lemma {:induction false} IdsAllConcat(a: seq<Tree>, b: seq<Tree>)
    ensures IdsAll(a + b) == IdsAll(a) + IdsAll(b)
  {
    if a == [] {
      assert a + b == b;
    } else {
      assert (a + b)[1..] == a[1..] + b;
      IdsAllConcat(a[1..], b);
    }
  }

  lemma {:induction false} IdsAllMember(ts: seq<Tree>, i: nat)
    requires i < |ts|
    ensures Ids(ts[i]) <= IdsAll(ts)
  {
    if i > 0 {
      IdsAllMember(ts[1..], i - 1);
    }
  }

  lemma {:induction false} IdsAllWitness(ts: seq<Tree>, x: nat) returns (i: nat)
    requires x in IdsAll(ts)
    ensures i < |ts| && x in Ids(ts[i])
  {
    if x in Ids(ts[0]) {
      i := 0;
    } else {
      i := IdsAllWitness(ts[1..], x);
      i := i + 1;
    }
  }

  // subs with its s-th tree replaced by the trees of `mid`.
  function Around(subs: seq<Tree>, s: nat, mid: seq<Tree>): seq<Tree>
    requires s < |subs|
  {
    subs[..s] + mid + subs[s + 1..]
  }

  lemma {:induction false} AroundFlat(subs: seq<Tree>, s: nat, mid: seq<Tree>)
    requires s < |subs|
    ensures FlatAll(Around(subs, s, mid)) == FlatAll(subs[..s]) + FlatAll(mid) + FlatAll(subs[s + 1..])
  {
    FlatAllConcat(subs[..s] + mid, subs[s + 1..]);
    FlatAllConcat(subs[..s], mid);
  }

  lemma {:induction false} AroundLvl(subs: seq<Tree>, s: nat, mid: seq<Tree>, h: nat, g: nat)
    requires s < |subs|
    ensures LvlAll(Around(subs, s, mid), h, g)
         == LvlAll(subs[..s], h, g) + LvlAll(mid, h, g) + LvlAll(subs[s + 1..], h, g)
  {
    LvlAllConcat(subs[..s] + mid, subs[s + 1..], h, g);
    LvlAllConcat(subs[..s], mid, h, g);
  }

  lemma {:induction false} AroundIds(subs: seq<Tree>, s: nat, mid: seq<Tree>)
    requires s < |subs|
    ensures IdsAll(Around(subs, s, mid)) == IdsAll(subs[..s]) + IdsAll(mid) + IdsAll(subs[s + 1..])
  {
    IdsAllConcat(subs[..s] + mid, subs[s + 1..]);
    IdsAllConcat(subs[..s], mid);
  }

  lemma AroundSelf(subs: seq<Tree>, s: nat)
    requires s < |subs|
    ensures Around(subs, s, [subs[s]]) == subs
  {
  }

  lemma {:induction false} One(t: Tree, h: nat, g: nat)
    ensures FlatAll([t]) == Flat(t) && LvlAll([t], h, g) == Lvl(t, h, g) && IdsAll([t]) == Ids(t)
  {
    assert [t][1..] == [];
    assert FlatAll([t]) == Flat(t) + FlatAll([]);
    assert LvlAll([t], h, g) == Lvl(t, h, g) + LvlAll([], h, g);
    assert IdsAll([t]) == Ids(t) + IdsAll([]);
  }

  lemma {:induction false} Two(t: Tree, u: Tree, h: nat, g: nat)
    ensures FlatAll([t, u]) == Flat(t) + Flat(u)
    ensures LvlAll([t, u], h, g) == Lvl(t, h, g) + Lvl(u, h, g)
    ensures IdsAll([t, u]) == Ids(t) + Ids(u)
  {
    assert [t, u][1..] == [u];
    One(u, h, g);
  }

  // ---- memory ----

  // A tree is still represented when none of its nodes has changed.
  lemma {:induction false} RepFrame(body: seq<Body>, body2: seq<Body>, t: Tree)
    requires Rep(body, t)
    requires forall id :: id in Ids(t) ==> id < |body2| && id < |body| && body2[id] == body[id]
    ensures Rep(body2, t)
    decreases t
  {
    if t.IntmT? {
      forall i | 0 <= i < |t.subs| ensures Rep(body2, t.subs[i]) {
        IdsAllMember(t.subs, i);
        RepFrame(body, body2, t.subs[i]);
      }
    }
  }

  lemma {:induction false} RepBound(body: seq<Body>, t: Tree)
    requires Rep(body, t)
    ensures forall id :: id in Ids(t) ==> id < |body|
    decreases t
  {
    if t.IntmT? {
      forall id | id in IdsAll(t.subs) ensures id < |body| {
        var i := IdsAllWitness(t.subs, id);
        RepBound(body, t.subs[i]);
      }
    }
  }
}
