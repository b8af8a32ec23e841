// The B+-tree index (lib1.c:5192-5634). Nodes live in an arena: a node is its
// position in `body`, `next` and `prev`, which the methods update in place.

module BpTrees {
  import opened Option
  import opened KvApi
  import opened KeyOrder
  import opened Enumerations
  import opened SortedEntries
  import opened BpTreeLinks
  import opened BpTreeShape
  import opened BpTreeOps

  // lists[g] is, between pre[g] and post[g], the nodes of height g of t.
  ghost predicate InLists(lists: seq<seq<nat>>, t: Tree, h: nat, pre: seq<seq<nat>>, post: seq<seq<nat>>) {
    && h < |lists| && |pre| == |lists| && |post| == |lists|
    && forall g :: 0 <= g <= h ==> lists[g] == pre[g] + Lvl(t, h, g) + post[g]
  }

  // The context of the s-th subtree.
  ghost function PreOf(pre: seq<seq<nat>>, t: Tree, s: nat, h: nat): seq<seq<nat>>
    requires t.IntmT? && s < |t.subs| && h > 0
  {
    seq(|pre|, g requires 0 <= g < |pre| => pre[g] + LvlBefore(t, s, h, g))
  }

  ghost function PostOf(post: seq<seq<nat>>, t: Tree, s: nat, h: nat): seq<seq<nat>>
    requires t.IntmT? && s < |t.subs| && h > 0
  {
    seq(|post|, g requires 0 <= g < |post| => LvlAfter(t, s, h, g) + post[g])
  }

  lemma InListsDown(lists: seq<seq<nat>>, t: Tree, h: nat, pre: seq<seq<nat>>, post: seq<seq<nat>>, s: nat)
    requires InLists(lists, t, h, pre, post) && t.IntmT? && s < |t.subs| && h > 0
    ensures InLists(lists, t.subs[s], h - 1, PreOf(pre, t, s, h), PostOf(post, t, s, h))
  {
    forall g | 0 <= g <= h - 1
      ensures lists[g] == PreOf(pre, t, s, h)[g] + Lvl(t.subs[s], h - 1, g) + PostOf(post, t, s, h)[g]
    {
      ReplaceLvl(t, s, t.subs[s], h, g);
    }
  }

  lemma InListsBound(lists: seq<seq<nat>>, t: Tree, h: nat, pre: seq<seq<nat>>, post: seq<seq<nat>>)
    requires InLists(lists, t, h, pre, post)
    ensures h < |lists|
  {
  }

  lemma InListsUp(lists: seq<seq<nat>>, lists2: seq<seq<nat>>, t: Tree, h: nat,
                  pre: seq<seq<nat>>, post: seq<seq<nat>>, s: nat, c: Tree)
    requires InLists(lists, t, h, pre, post) && t.IntmT? && s < |t.subs| && h > 0
    requires InLists(lists2, c, h - 1, PreOf(pre, t, s, h), PostOf(post, t, s, h))
    requires |lists2| == |lists| && lists2[h] == lists[h]
    ensures InLists(lists2, Replace(t, s, c), h, pre, post)
  {
    forall g | 0 <= g <= h ensures lists2[g] == pre[g] + Lvl(Replace(t, s, c), h, g) + post[g] {
      if g < h {
        ReplaceLvl(t, s, c, h, g);
      }
    }
  }

  lemma InsertSeq(a: seq<nat>, c: nat, b: seq<nat>, r: nat)
    ensures var w := a + [c] + b;
      w[|a|] == c && w[..|a| + 1] + [r] + w[|a| + 1..] == a + [c, r] + b
  {
  }

  lemma Join(a: seq<nat>, b: seq<nat>, c: seq<nat>, d: seq<nat>, e: seq<nat>)
    ensures a + (b + c + d) + e == (a + b) + c + (d + e)
  {
  }

  // Putting the new sibling right after the split child keeps the lists in
  // tree order.
  lemma InListsSplit(lists: seq<seq<nat>>, t: Tree, h: nat, isRoot: bool,
                     pre: seq<seq<nat>>, post: seq<seq<nat>>, s: nat, r: nat, key: Option<Key>) returns (p: nat)
    requires InLists(lists, t, h, pre, post) && t.IntmT? && s < |t.subs| && Wf(t, h, isRoot) && Full(t.subs[s])
    ensures 0 < h < |lists| && p < |lists[h - 1]| && lists[h - 1][p] == t.subs[s].id
    ensures InLists(InsertedAfter(lists, h - 1, p, r), SplitChild(t, s, r, key), h, pre, post)
  {
    var g := h - 1;
    var a, c, b := LvlBefore(t, s, h, g), t.subs[s].id, LvlAfter(t, s, h, g);
    SplitChildLvl(t, h, isRoot, s, r, key, g);
    Join(pre[g], a, [c], b, post[g]);
    Join(pre[g], a, [c, r], b, post[g]);
    InsertSeq(pre[g] + a, c, b + post[g], r);
    p := |pre[g] + a|;
    InListsSplitRest(lists, t, h, isRoot, pre, post, s, r, key, p);
  }

  lemma {:induction false} InListsSplitRest(lists: seq<seq<nat>>, t: Tree, h: nat, isRoot: bool,
                         pre: seq<seq<nat>>, post: seq<seq<nat>>, s: nat, r: nat, key: Option<Key>, p: nat)
    requires InLists(lists, t, h, pre, post) && t.IntmT? && s < |t.subs| && Wf(t, h, isRoot) && Full(t.subs[s])
    requires p < |lists[h - 1]|
    requires InsertedAfter(lists, h - 1, p, r)[h - 1]
          == pre[h - 1] + Lvl(SplitChild(t, s, r, key), h, h - 1) + post[h - 1]
    ensures InLists(InsertedAfter(lists, h - 1, p, r), SplitChild(t, s, r, key), h, pre, post)
  {
    var lists2 := InsertedAfter(lists, h - 1, p, r);
    forall g | 0 <= g <= h ensures lists2[g] == pre[g] + Lvl(SplitChild(t, s, r, key), h, g) + post[g] {
      if g < h - 1 {
        SplitChildLvl(t, h, isRoot, s, r, key, g);
      }
    }
  }

  // The node at t.id is the root of a well-formed tree of height h.
  ghost predicate TreeAt(body: seq<Body>, t: Tree, h: nat, isRoot: bool) {
    Rep(body, t) && Apart(t) && Wf(t, h, isRoot)
  }

  // Memory holds the parent and its s-th child, two different nodes.
  lemma {:induction false} ChildAt(body: seq<Body>, t: Tree, h: nat, isRoot: bool, s: nat)
    requires TreeAt(body, t, h, isRoot) && t.IntmT? && s < |t.subs|
    ensures body[t.id] == IntmB(t.keys, Roots(t.subs)) && |t.keys| == |t.subs|
    ensures TreeAt(body, t.subs[s], h - 1, false)
    ensures var c := t.subs[s]; c.id < |body| && c.id != t.id && body[c.id] == NodeBody(c) && c.id in Ids(t) && Ids(c) <= Ids(t)
    ensures var c := t.subs[s]; c.IntmT? ==> |c.keys| == |c.subs|
    ensures h > 0 && t.id < |body|
    ensures forall i :: 0 <= i < |t.subs| ==> Roots(t.subs)[i] < |body|
  {
    var c := t.subs[s];
    assert c.id in Ids(c);
    IdsAllMember(t.subs, s);
    forall i | 0 <= i < |t.subs| ensures Roots(t.subs)[i] < |body| {
      assert Rep(body, t.subs[i]);
    }
  }

  // A cut of a sequence is determined by the length of its second part.
  lemma Cut<T>(a: seq<T>, b: seq<T>, w: seq<T>)
    requires a + b == w && |b| == |w| / 2
    ensures a == w[..HalfL(|w|)] && b == w[HalfL(|w|)..]
  {
  }

  lemma RootsCut(subs: seq<Tree>, k: nat)
    requires k <= |subs|
    ensures Roots(subs)[..k] == Roots(subs[..k]) && Roots(subs)[k..] == Roots(subs[k..])
  {
  }

  // After balancing a full node with a new one, memory holds its two halves.
  lemma {:induction false} BalancedHalves(c: Tree, h: nat, isRoot: bool, r: nat, bl: Body, br: Body)
    requires Wf(c, h, isRoot) && Full(c)
    requires bl.LeafB? == br.LeafB? == c.LeafT?
    requires c.LeafT? ==> bl.karray + br.karray == c.kvs + [] && |br.karray| == |c.kvs| / 2
    requires c.IntmT? ==> bl.keys + br.keys == c.keys + [] && |br.keys| == |c.subs| / 2
    requires c.IntmT? ==> bl.subs + br.subs == Roots(c.subs) + [] && |br.subs| == |c.subs| / 2
    ensures bl == NodeBody(SplitL(c)) && br == NodeBody(SplitR(c, r))
  {
    if c.LeafT? {
      Cut(bl.karray, br.karray, c.kvs);
    } else {
      Cut(bl.keys, br.keys, c.keys);
      Cut(bl.subs, br.subs, Roots(c.subs));
      RootsCut(c.subs, HalfL(|c.subs|));
    }
  }

  // The parent's node after the new sibling is inserted is the split parent.
  lemma {:induction false} InsertedParent(t: Tree, h: nat, isRoot: bool, s: nat, r: nat, key: Option<Key>)
    requires t.IntmT? && s < |t.subs| && Wf(t, h, isRoot) && Full(t.subs[s])
    ensures NodeBody(SplitChild(t, s, r, key)) ==
      IntmB(t.keys[..s + 1] + [key] + t.keys[s + 1..], Roots(t.subs)[..s + 1] + [r] + Roots(t.subs)[s + 1..])
  {
    var t2 := SplitChild(t, s, r, key);
    var w := Roots(t.subs)[..s + 1] + [r] + Roots(t.subs)[s + 1..];
    forall i | 0 <= i < |t2.subs| ensures Roots(t2.subs)[i] == w[i] {
      SplitChildAt(t, s, r, key, i);
    }
    assert Roots(t2.subs) == w;
  }

  // Once memory holds the split parent and both halves, it holds the split tree.
  lemma SplitTreeAt(b0: seq<Body>, body: seq<Body>, t: Tree, h: nat, isRoot: bool, s: nat, key: Option<Key>)
    requires TreeAt(b0, t, h, isRoot) && t.IntmT? && s < |t.subs| < INTM_FO && Full(t.subs[s])
    requires |body| == |b0| + 1 && t.id < |b0| && t.subs[s].id < |b0| && t.subs[s].id != t.id
    requires body[t.id] == NodeBody(SplitChild(t, s, |b0|, key))
    requires body[t.subs[s].id] == NodeBody(SplitL(t.subs[s])) && body[|b0|] == NodeBody(SplitR(t.subs[s], |b0|))
    requires forall x :: 0 <= x < |b0| && x != t.id && x != t.subs[s].id ==> body[x] == b0[x]
    requires Flat(SplitR(t.subs[s], |b0|)) != [] && key == KeyOf(Flat(SplitR(t.subs[s], |b0|))[0])
    ensures TreeAt(body, SplitChild(t, s, |b0|, key), h, isRoot)
  {
    RepBound(b0, t);
    SplitChildWf(t, h, isRoot, s, |b0|, key);
    SplitChildApart(t, h, isRoot, s, |b0|, key);
    SplitChildRep(b0, body, t, h, isRoot, s, |b0|, key);
  }

  // A subtree written in place, seen from its parent.
  lemma {:induction false} ReplaceTreeAt(b0: seq<Body>, body: seq<Body>, t: Tree, h: nat, isRoot: bool, s: nat, c: Tree)
    requires TreeAt(b0, t, h, isRoot) && t.IntmT? && s < |t.subs|
    requires TreeAt(body, c, h - 1, false) && c.id == t.subs[s].id && |b0| <= |body|
    requires Flat(c) != [] && KeyOf(Flat(c)[0]) == t.keys[s]
    requires forall x :: x in Ids(c) ==> x in Ids(t.subs[s]) || x >= |b0|
    requires forall x :: 0 <= x < |b0| && x !in Ids(t.subs[s]) ==> body[x] == b0[x]
    ensures TreeAt(body, Replace(t, s, c), h, isRoot)
    ensures forall x :: x in Ids(Replace(t, s, c)) ==> x in Ids(t) || x >= |b0|
  {
    RepBound(b0, t);
    IdsAllMember(t.subs, s);
    ReplaceWf(t, h, isRoot, s, c);
    ReplaceApart(t, s, c);
    ReplaceRep(b0, body, t, s, c);
  }

  lemma {:induction false} SplitIdsAre(t: Tree, h: nat, isRoot: bool, s: nat, r: nat, key: Option<Key>, body: seq<Body>)
    requires TreeAt(body, t, h, isRoot) && t.IntmT? && s < |t.subs| && Full(t.subs[s]) && r == |body|
    ensures Ids(SplitChild(t, s, r, key)) == Ids(t) + {r}
    ensures forall s1 :: s <= s1 <= s + 1 ==> !Full(SplitChild(t, s, r, key).subs[s1])
  {
    RepBound(body, t);
    SplitChildApart(t, h, isRoot, s, r, key);
    SplitChildAt(t, s, r, key, s);
    SplitChildAt(t, s, r, key, s + 1);
  }

  // The write of a leaf, seen as a tree.
  lemma {:induction false} LeafWritten(body: seq<Body>, t: Tree, h: nat, i: nat, kv: Kv)
    requires t.LeafT? && Wf(t, h, false) && !Full(t) && i < |t.kvs|
    requires t.id < |body| && body[t.id] == LeafB(PutAt(t.kvs, i, kv))
    ensures h == 0 && TreeAt(body, LeafT(t.id, PutAt(t.kvs, i, kv)), h, false)
  {
  }

  lemma LeafLists(lists: seq<seq<nat>>, t: Tree, h: nat, pre: seq<seq<nat>>, post: seq<seq<nat>>, s: nat, c2: Tree)
    requires InLists(lists, t, h, pre, post) && t.IntmT? && s < |t.subs| && h == 1
    requires t.subs[s].LeafT? && c2.LeafT? && c2.id == t.subs[s].id
    ensures InLists(lists, c2, 0, PreOf(pre, t, s, h), PostOf(post, t, s, h))
  {
    InListsDown(lists, t, h, pre, post, s);
    assert Lvl(c2, 0, 0) == Lvl(t.subs[s], 0, 0);
  }

  lemma {:induction false} NodeShape(t: Tree, h: nat, isRoot: bool)
    requires t.IntmT? && Wf(t, h, isRoot)
    ensures 2 <= |t.subs| <= INTM_FO && |t.keys| == |t.subs| && h > 0
    ensures Flat(t) != [] && t.keys[0] == KeyOf(Flat(t)[0])
  {
    KeyPos(t, h, isRoot, 0);
    assert t.subs[..0] == [];
  }

  lemma NotBelowFirst(ks: seq<Option<Key>>, key: Option<Key>, s: nat)
    requires Sorted(ks) && IsLoc(ks, key, s)
    ensures !Less(key, ks[0])
  {
    hide Less;
    OrderLaws();
    if s > 0 {
      assert Less(ks[0], ks[s]);
    }
  }

  // A key located at child s before the split is located at one of its halves.
  lemma SplitLoc(t: Tree, s: nat, r: nat, sep: Option<Key>, key: Option<Key>, s1: nat)
    requires t.IntmT? && s < |t.subs| == |t.keys| && IsLoc(t.keys, key, s)
    requires IsLoc(SplitChild(t, s, r, sep).keys, key, s1)
    ensures s1 == s || s1 == s + 1
  {
    hide Less;
    var ks := SplitChild(t, s, r, sep).keys;
    assert ks[s] == t.keys[s];
    forall j | s + 1 < j < |ks| ensures Less(key, ks[j]) {
      assert ks[j] == t.keys[j - 1];
    }
  }

  // Memory holds the topmost node.
  lemma RootBody(body: seq<Body>, t: Tree, h: nat)
    requires TreeAt(body, t, h, true)
    ensures t.id < |body| && body[t.id] == NodeBody(t)
    ensures t.IntmT? ==> |t.keys| == |t.subs| <= INTM_FO
    ensures t.LeafT? ==> |t.kvs| <= LEAF_FO
  {
  }

  // Every key is above the sentinel.
  lemma AboveSentinel(key: Key)
    ensures !Less(Some(key), None)
  {
  }

  lemma {:induction false} RootLeafWritten(t: Tree, h: nat, i: nat, kv: Kv, body: seq<Body>)
    requires t.LeafT? && Wf(t, h, true) && !Full(t) && i < |t.kvs|
    requires t.id < |body| && body[t.id] == LeafB(PutAt(t.kvs, i, kv))
    ensures h == 0 && TreeAt(body, LeafT(t.id, PutAt(t.kvs, i, kv)), h, true)
    ensures Lvl(LeafT(t.id, PutAt(t.kvs, i, kv)), h, 0) == Lvl(t, h, 0)
  {
  }

  lemma NodeAt(body: seq<Body>, t: Tree, h: nat, isRoot: bool)
    requires TreeAt(body, t, h, isRoot)
    ensures t.id < |body| && body[t.id] == NodeBody(t)
  {
  }

  // The root is alone at its height.
  lemma {:induction false} RootUnlinked(next: Link, prev: Link, lists: seq<seq<nat>>, t: Tree, h: nat)
    requires LinksOk(next, prev, lists) && h < |lists| && lists[h] == Lvl(t, h, h)
    ensures lists[h] == [t.id] && t.id < |next| && next[t.id].None?
  {
    assert Chain(next, prev, lists[h]);
    assert LinkedAt(next, prev, lists[h], 0);
  }

  // Linking the root's new sibling, with one more node allocated as new root.
  lemma RootLinks(next: Link, prev: Link, lists: seq<seq<nat>>, h: nat, left: nat, right: nat)
    requires LinksOk(next, prev, lists) && |lists| == h + 1 && lists[h] == [left]
    requires right < |next| && next[right].None? && prev[right].None?
    requires left < |next| && next[left].None?
    requires forall h, j :: 0 <= h < |lists| && 0 <= j < |lists[h]| ==> lists[h][j] != right
    ensures var n2 := LinkNext(next + [None], left, right); var p2 := LinkPrev(next + [None], prev + [None], left, right);
      |n2| == |p2| == |next| + 1 && LinksOk(n2, p2, InsertedAfter(lists, h, 0, right) + [[|next|]])
  {
    GrowKeeps(next, prev, lists);
    LinkKeeps(next + [None], prev + [None], lists, h, 0, right);
    var l2 := InsertedAfter(lists, h, 0, right);
    forall a, j | 0 <= a < |l2| && 0 <= j < |l2[a]| ensures l2[a][j] != |next| {
      InsertOrigin(lists, h, 0, right, a, j);
    }
    NewTop(LinkNext(next + [None], left, right), LinkPrev(next + [None], prev + [None], left, right), l2, |next|);
  }

  // The new root over the two halves of the old one.
  function NewRoot(c: Tree, r: nat, n: nat, k1: Option<Key>, k2: Option<Key>): Tree {
    IntmT(n, [k1, k2], [SplitL(c), SplitR(c, r)])
  }

  lemma NewRootTreeAt(b0: seq<Body>, body: seq<Body>, c: Tree, h: nat, k1: Option<Key>, k2: Option<Key>)
    requires TreeAt(b0, c, h, true) && Full(c) && c.id < |b0|
    requires var r := |b0|;
      && |body| == r + 2 && body[r + 1] == IntmB([k1, k2], [c.id, r])
      && body[c.id] == NodeBody(SplitL(c)) && body[r] == NodeBody(SplitR(c, r))
    requires forall x :: 0 <= x < |b0| && x != c.id ==> body[x] == b0[x]
    requires Flat(SplitL(c)) != [] && Flat(SplitR(c, |b0|)) != []
    requires k1 == KeyOf(Flat(SplitL(c))[0]) && k2 == KeyOf(Flat(SplitR(c, |b0|))[0])
    ensures TreeAt(body, NewRoot(c, |b0|, |b0| + 1, k1, k2), h + 1, true)
    ensures Flat(NewRoot(c, |b0|, |b0| + 1, k1, k2)) == Flat(c)
  {
    var r := |b0|;
    RepBound(b0, c);
    SplitWf(c, h, true, r);
    SplitIds(c, h, true, r);
    SplitRep(b0, body, c, h, true, r);
    SplitFlat(c, h, true, r);
    Two(SplitL(c), SplitR(c, r), 0, 0);
    assert Roots([SplitL(c), SplitR(c, r)]) == [c.id, r];
  }

  lemma NewRootLvl(c: Tree, h: nat, r: nat, n: nat, k1: Option<Key>, k2: Option<Key>, g: nat)
    requires Wf(c, h, true) && Full(c) && g <= h + 1
    ensures Lvl(NewRoot(c, r, n, k1, k2), h + 1, g) ==
      if g == h + 1 then [n] else if g == h then [c.id, r] else Lvl(c, h, g)
  {
    if g <= h {
      Two(SplitL(c), SplitR(c, r), h, g);
      SplitLvl(c, h, true, r, g);
    }
  }

  lemma {:induction false} NewRootLists(lists: seq<seq<nat>>, c: Tree, h: nat, r: nat, n: nat, k1: Option<Key>, k2: Option<Key>)
    requires Wf(c, h, true) && Full(c) && |lists| == h + 1 && lists[h] == [c.id]
    requires forall g :: 0 <= g <= h ==> lists[g] == Lvl(c, h, g)
    ensures var l2 := InsertedAfter(lists, h, 0, r) + [[n]];
      forall g :: 0 <= g <= h + 1 ==> l2[g] == Lvl(NewRoot(c, r, n, k1, k2), h + 1, g)
  {
    var l2 := InsertedAfter(lists, h, 0, r) + [[n]];
    forall g | 0 <= g <= h + 1 ensures l2[g] == Lvl(NewRoot(c, r, n, k1, k2), h + 1, g) {
      NewRootLvl(c, h, r, n, k1, k2, g);
    }
  }

  // The first key of the left half, as the code reads it from the node.
  lemma {:induction false} LeftKey(c: Tree, h: nat, r: nat)
    requires Wf(c, h, true) && Full(c)
    ensures Flat(SplitL(c)) != [] && Flat(SplitR(c, r)) != []
    ensures KeyOf(Flat(SplitL(c))[0]) == if c.LeafT? then KeyOf(c.kvs[0]) else c.keys[0]
  {
    SplitFlat(c, h, true, r);
    if c.IntmT? {
      NodeShape(c, h, true);
      assert Flat(SplitL(c))[0] == Flat(c)[0];
    }
  }

  // Cutting the joint sequence of two nodes elsewhere keeps it.
  lemma Rebalanced(l: Body, r: Body)
    ensures l.LeafB? && r.LeafB? ==> Recut(l.karray, r.karray)
    ensures l.IntmB? && r.IntmB? ==> Recut(l.keys, r.keys) && Recut(l.subs, r.subs)
  {
    if l.LeafB? && r.LeafB? {
      CutElsewhere(l.karray, r.karray);
    } else if l.IntmB? && r.IntmB? {
      CutElsewhere(l.keys, r.keys);
      CutElsewhere(l.subs, r.subs);
    }
  }

  ghost predicate Recut<T>(a: seq<T>, b: seq<T>) {
    && (forall n :: 0 <= n <= |a| ==> a[..n] + (a[n..] + b) == a + b)
    && (forall n :: 0 <= n <= |b| ==> (a + b[..n]) + b[n..] == a + b)
  }

  lemma CutElsewhere<T>(a: seq<T>, b: seq<T>)
    ensures Recut(a, b)
  {
    forall n | 0 <= n <= |a| ensures a[..n] + (a[n..] + b) == a + b {
      assert a[..n] + (a[n..] + b) == (a[..n] + a[n..]) + b;
      assert a[..n] + a[n..] == a;
    }
    forall n | 0 <= n <= |b| ensures (a + b[..n]) + b[n..] == a + b {
      assert (a + b[..n]) + b[n..] == a + (b[..n] + b[n..]);
      assert b[..n] + b[n..] == b;
    }
  }

  lemma NoValues()
    ensures Values([]) == [] && FlatAll([]) == [] && forall mm :: Retires(mm, []) == []
  {
  }

  lemma NextValue(mm: Mm, es: seq<Option<Kv>>, i: nat)
    requires i < |es|
    ensures Retires(mm, Values(es[..i + 1])) ==
            Retires(mm, Values(es[..i])) + if es[i].Some? && mm.rf then [Retire(es[i].value)] else []
  {
    LastValue(es[..i + 1]);
    assert es[..i + 1][..i] == es[..i];
  }

  lemma NextChild(mm: Mm, subs: seq<Tree>, i: nat)
    requires i < |subs|
    ensures Retires(mm, Values(FlatAll(subs[..i + 1]))) ==
            Retires(mm, Values(FlatAll(subs[..i]))) + Retires(mm, Values(Flat(subs[i])))
  {
    assert subs[..i + 1] == subs[..i] + [subs[i]];
    FlatAllConcat(subs[..i], [subs[i]]);
    One(subs[i], 0, 0);
    ValuesConcat(FlatAll(subs[..i]), Flat(subs[i]));
    RetiresBoth(mm, Values(FlatAll(subs[..i])), Values(Flat(subs[i])));
  }

  // A root leaf that holds the sentinel alone.
  lemma {:induction false} LeafAlone(body: seq<Body>, r: nat)
    requires r < |body| && body[r] == LeafB([None])
    ensures var t := LeafT(r, [None]); Rep(body, t) && Apart(t) && Wf(t, 0, true) && Lvl(t, 0, 0) == [r]
  {
  }

  lemma LinksAlone(next: Link, prev: Link, r: nat)
    requires r < |next| == |prev| && next[r].None? && prev[r].None?
    ensures LinksOk(next, prev, [[r]])
  {
    assert LinkedAt(next, prev, [r], 0);
  }

  lemma SentinelAlone()
    ensures Sorted(Keys([None])) && MapOf([None]) == map[]
  {
  }

  class BpTree {
    const mm: Mm
    var body: seq<Body>
    var next: Link
    var prev: Link
    var root: nat
    var log: seq<Event>
    ghost var tree: Tree
    ghost var height: nat
    ghost var lists: seq<seq<nat>>

    // Memory holds the nodes of a tree rooted at `root`, and one chain of
    // links per height.
    ghost predicate MemOk()
      reads this
    {
      && |next| == |body| && |prev| == |body|
      && LinksOk(next, prev, lists)
    }

    ghost predicate Valid()
      reads this
    {
      && MemOk()
      && Rep(body, tree) && tree.id == root && Apart(tree)
      && Wf(tree, height, true)
      && Flat(tree) != [] && Flat(tree)[0] == None && Sorted(Keys(Flat(tree)))
      && |lists| == height + 1
      && forall g :: 0 <= g <= height ==> lists[g] == Lvl(tree, height, g)
    }

    ghost function Entries(): seq<Option<Kv>>
      reads this
    {
      Flat(tree)
    }

    ghost function Contents(): map<Key, Kv>
      reads this
    {
      MapOf(Entries())
    }

    // bptree_create: a root leaf holding only the sentinel.
    constructor (mm: Mm)
      ensures Valid() && Contents() == map[] && log == [] && this.mm == mm
    {
      this.mm := mm;
      body, next, prev, root, log := [LeafB([None])], [None], [None], 0, [];
      tree, height, lists := LeafT(0, [None]), 0, [[0]];
      new;
      assert LinkedAt(next, prev, lists[0], 0);
    }

    // bptree_alloc_node.
    method AllocNode(leaf: bool) returns (r: nat)
      requires MemOk()
      modifies this`body, this`next, this`prev
      ensures MemOk() && r == |old(body)|
      ensures body == old(body) + [if leaf then LeafB([]) else IntmB([], [])]
      ensures next == old(next) + [None] && prev == old(prev) + [None]
      ensures forall h, j :: 0 <= h < |lists| && 0 <= j < |lists[h]| ==> lists[h][j] != r
    {
      r := |body|;
      GrowKeeps(next, prev, lists);
      body := body + [if leaf then LeafB([]) else IntmB([], [])];
      next, prev := next + [None], prev + [None];
    }

    // bptree_raw_balance_leaf and bptree_raw_balance_intm: even out the counts
    // of two neighbours, keeping their joint order.
    method RawBalance(left: nat, right: nat) returns (moved: bool)
      requires left < |body| && right < |body| && left != right
      requires body[left].LeafB? == body[right].LeafB?
      requires body[left].IntmB? ==> |body[left].keys| == |body[left].subs| && |body[right].keys| == |body[right].subs|
      modifies this`body
      ensures |body| == |old(body)|
      ensures forall x :: 0 <= x < |body| && x != left && x != right ==> body[x] == old(body[x])
      ensures body[left].LeafB? == body[right].LeafB? == old(body)[left].LeafB?
      ensures body[left].LeafB? ==>
        && body[left].karray + body[right].karray == old(body)[left].karray + old(body)[right].karray
        && |body[right].karray| == (|old(body)[left].karray| + |old(body)[right].karray|) / 2
      ensures body[left].IntmB? ==>
        && body[left].keys + body[right].keys == old(body)[left].keys + old(body)[right].keys
        && body[left].subs + body[right].subs == old(body)[left].subs + old(body)[right].subs
        && |body[right].keys| == |body[right].subs| == (|old(body)[left].subs| + |old(body)[right].subs|) / 2
    {
      var l, r := body[left], body[right];
      Rebalanced(l, r);
      var nl0 := if l.LeafB? then |l.karray| else |l.subs|;
      var nr0 := if r.LeafB? then |r.karray| else |r.subs|;
      var nrR := (nl0 + nr0) / 2;
      var nrL := (nl0 + nr0) - nrR;
      if nrL == nl0 {
        return false;
      } else if nrL < nl0 { // shift right
        if l.LeafB? {
          body := body[left := LeafB(l.karray[..nrL])][right := LeafB(l.karray[nrL..] + r.karray)];
        } else {
          body := body[left := IntmB(l.keys[..nrL], l.subs[..nrL])]
                      [right := IntmB(l.keys[nrL..] + r.keys, l.subs[nrL..] + r.subs)];
        }
      } else { // shift left
        var rless := nrL - nl0;
        if l.LeafB? {
          body := body[left := LeafB(l.karray + r.karray[..rless])][right := LeafB(r.karray[rless..])];
        } else {
          body := body[left := IntmB(l.keys + r.keys[..rless], l.subs + r.subs[..rless])]
                      [right := IntmB(r.keys[rless..], r.subs[rless..])];
        }
      }
      moved := true;
    }

    // bptree_raw_insert_intm: put (key, sub) at position idx of node, and link
    // sub with its neighbour.
    method RawInsertIntm(node: nat, idx: nat, key: Option<Key>, sub: nat)
      requires node < |body| && body[node].IntmB? && |body[node].keys| == |body[node].subs|
      requires idx <= |body[node].subs| && sub < |body|
      requires |next| == |body| && |prev| == |body|
      requires forall i :: 0 <= i < |body[node].subs| ==> body[node].subs[i] < |body|
      requires idx > 0 ==> var left := body[node].subs[idx - 1]; next[left].Some? ==> next[left].value < |body|
      requires idx == 0 && body[node].subs != [] ==>
        var right := body[node].subs[0]; prev[right].Some? ==> prev[right].value < |body|
      modifies this`body, this`next, this`prev
      ensures body == old(body)[node := IntmB(
        old(body)[node].keys[..idx] + [key] + old(body)[node].keys[idx..],
        old(body)[node].subs[..idx] + [sub] + old(body)[node].subs[idx..])]
      ensures idx > 0 ==>
        && next == LinkNext(old(next), old(body)[node].subs[idx - 1], sub)
        && prev == LinkPrev(old(next), old(prev), old(body)[node].subs[idx - 1], sub)
      ensures idx == 0 ==> if old(body)[node].subs == [] then next == old(next) && prev == old(prev)
        else // the mirror image, with the two directions exchanged
          && prev == LinkNext(old(prev), old(body)[node].subs[0], sub)
          && next == LinkPrev(old(prev), old(next), old(body)[node].subs[0], sub)
    {
      var b := body[node];
      body := body[node := IntmB(b.keys[..idx] + [key] + b.keys[idx..], b.subs[..idx] + [sub] + b.subs[idx..])];
      var b2 := body[node];
      if |b2.subs| > 1 {
        if idx > 0 {
          var left := b2.subs[idx - 1];
          if next[left].Some? {
            next, prev := next[sub := next[left]], prev[next[left].value := Some(sub)];
          }
          prev := prev[sub := Some(left)];
          next := next[left := Some(sub)];
        } else {
          var right := b2.subs[idx + 1];
          if prev[right].Some? {
            prev, next := prev[sub := prev[right]], next[prev[right].value := Some(sub)];
          }
          next := next[sub := Some(right)];
          prev := prev[right := Some(sub)];
        }
      }
    }

    // bptree_split_leaf and bptree_split_intm: the full child at subidx is
    // halved with a new right sibling, which is entered into the parent and
    // into the chain of its height.
    method SplitSub(parent: nat, subidx: nat, ghost t: Tree, ghost h: nat, ghost isRoot: bool,
                    ghost pre: seq<seq<nat>>, ghost post: seq<seq<nat>>) returns (ghost sep: Option<Key>)
      requires MemOk() && TreeAt(body, t, h, isRoot) && t.id == parent && t.IntmT?
      requires subidx < |t.subs| < INTM_FO && Full(t.subs[subidx])
      requires InLists(lists, t, h, pre, post)
      modifies this`body, this`next, this`prev, this`lists
      ensures MemOk() && TreeAt(body, SplitChild(t, subidx, |old(body)|, sep), h, isRoot)
      ensures |body| == |old(body)| + 1
      ensures forall x :: 0 <= x < |old(body)| && x !in Ids(t) ==> body[x] == old(body)[x]
      ensures |lists| == |old(lists)| && InLists(lists, SplitChild(t, subidx, |old(body)|, sep), h, pre, post)
      ensures forall g :: h <= g < |lists| ==> lists[g] == old(lists)[g]
    {
      hide LinksOk, Wf, Apart, Rep, InLists;
      ghost var c := t.subs[subidx];
      ghost var b0 := body;
      ChildAt(body, t, h, isRoot, subidx);
      var left := body[parent].subs[subidx];
      var leaf := body[left].LeafB?;
      var right := AllocNode(leaf);
      var _ := RawBalance(left, right);
      BalancedHalves(c, h - 1, false, right, body[left], body[right]);
      SplitKey(c, h - 1, false, right);
      var key := if leaf then KeyOf(body[right].karray[0]) else body[right].keys[0];
      sep := key;
      ghost var p := InListsSplit(lists, t, h, isRoot, pre, post, subidx, right, key);
      LinkKeeps(next, prev, lists, h - 1, p, right);
      RawInsertIntm(parent, subidx + 1, key, right);
      InsertedParent(t, h, isRoot, subidx, right, key);
      lists := InsertedAfter(lists, h - 1, p, right);
      SplitTreeAt(b0, body, t, h, isRoot, subidx, key);
    }

    // bptree_set_leaf: replace the matching entry or insert after the located one.
    method SetLeaf(leaf: nat, kv: Kv) returns (ghost i: nat)
      requires leaf < |body| && body[leaf].LeafB? && body[leaf].karray != []
      requires Sorted(Keys(body[leaf].karray)) && !Less(Some(kv.key), KeyOf(body[leaf].karray[0]))
      modifies this`body, this`log
      ensures IsLoc(Keys(old(body)[leaf].karray), Some(kv.key), i)
      ensures body == old(body)[leaf := LeafB(PutAt(old(body)[leaf].karray, i, kv))]
      ensures log == old(log) + PutEvents(mm, OldAt(old(body)[leaf].karray, i, kv), Some(kv))
    {
      var k := body[leaf].karray;
      var idx := Locate(Keys(k), Some(kv.key));
      if k[idx].Some? && kv.key == k[idx].value.key {
        var victim := k[idx].value;
        if mm.xf {
          log := log + [Refresh(victim, kv)];
        } else if mm.rf {
          log := log + [Retire(victim)];
        }
        body := body[leaf := LeafB(k[idx := Some(kv)])];
      } else {
        var insert := idx + 1;
        body := body[leaf := LeafB(k[..insert] + [Some(kv)] + k[insert..])]; // bptree_raw_insert_leaf
      }
      i := idx;
    }

    // bptree_set_rec: write below the child at subidx of a node that is not
    // full (or whose child is not), splitting full children on the way down.
    method SetRec(parent: nat, subidx: nat, kv: Kv, ghost t: Tree, ghost h: nat, ghost isRoot: bool,
                  ghost pre: seq<seq<nat>>, ghost post: seq<seq<nat>>) returns (ghost t2: Tree, ghost i: nat)
      requires MemOk() && TreeAt(body, t, h, isRoot) && t.id == parent && t.IntmT?
      requires InLists(lists, t, h, pre, post)
      requires subidx < |t.subs| && (|t.subs| < INTM_FO || !Full(t.subs[subidx]))
      requires IsLoc(t.keys, Some(kv.key), subidx)
      requires Sorted(Keys(Flat(t))) && Agrees(Flat(t), kv.key)
      modifies this`body, this`next, this`prev, this`lists, this`log
      ensures MemOk() && TreeAt(body, t2, h, isRoot) && t2.id == parent
      ensures |lists| == |old(lists)| && InLists(lists, t2, h, pre, post)
      ensures forall g :: h <= g < |lists| ==> lists[g] == old(lists)[g]
      ensures |old(body)| <= |body|
      ensures forall x :: x in Ids(t2) ==> x in Ids(t) || x >= |old(body)|
      ensures forall x :: 0 <= x < |old(body)| && x !in Ids(t) ==> body[x] == old(body)[x]
      ensures IsLoc(Keys(Flat(t)), Some(kv.key), i) && Flat(t2) == PutAt(Flat(t), i, kv)
      ensures log == old(log) + PutEvents(mm, OldAt(Flat(t), i, kv), Some(kv))
      decreases h, if subidx < |t.subs| && Full(t.subs[subidx]) then 1 else 0
    {
      hide LinksOk, Wf, Apart, Rep, InLists, Less;
      ghost var b0 := body;
      ghost var c := t.subs[subidx];
      ChildAt(body, t, h, isRoot, subidx);
      var sub := body[parent].subs[subidx];
      var full := if body[sub].LeafB? then |body[sub].karray| == LEAF_FO else |body[sub].subs| == INTM_FO;
      if full {
        ghost var r := |body|;
        ghost var sep := SplitSub(parent, subidx, t, h, isRoot, pre, post);
        ghost var t1 := SplitChild(t, subidx, r, sep);
        SplitIdsAre(t, h, isRoot, subidx, r, sep, b0);
        SplitChildFlat(t, h, isRoot, subidx, r, sep);
        ChildAt(body, t1, h, isRoot, 0);
        KeysSorted(t, h, isRoot);
        KeysSorted(t1, h, isRoot);
        NotBelowFirst(t.keys, Some(kv.key), subidx);
        var subidx1 := Locate(body[parent].keys, Some(kv.key));
        SplitLoc(t, subidx, r, sep, Some(kv.key), subidx1);
        t2, i := SetRec(parent, subidx1, kv, t1, h, isRoot, pre, post);
      } else {
        ChildSorted(t, h, isRoot, subidx, kv.key);
        InListsBound(lists, t, h, pre, post);
        ghost var c2, i0;
        if body[sub].LeafB? {
          i0 := SetLeaf(sub, kv);
          c2 := LeafT(c.id, PutAt(c.kvs, i0, kv));
          LeafWritten(body, c, h - 1, i0, kv);
          LeafLists(lists, t, h, pre, post, subidx, c2);
        } else {
          NodeShape(c, h - 1, false);
          ChildAt(body, c, h - 1, false, 0);
          KeysSorted(c, h - 1, false);
          var subsubidx := Locate(body[sub].keys, Some(kv.key));
          InListsDown(lists, t, h, pre, post, subidx);
          c2, i0 := SetRec(sub, subsubidx, kv, c, h - 1, false, PreOf(pre, t, subidx, h), PostOf(post, t, subidx, h));
        }
        i := ChildPut(t, h, isRoot, subidx, c2, i0, kv);
        t2 := Replace(t, subidx, c2);
        ReplaceTreeAt(b0, body, t, h, isRoot, subidx, c2);
        InListsUp(old(lists), lists, t, h, pre, post, subidx, c2);
      }
    }

    // The new root of the two halves, and the link between them.
    method GrowRoot(left: nat, right: nat, k1: Option<Key>, k2: Option<Key>) returns (n: nat)
      requires MemOk() && left < |body| && right < |body| && left != right
      requires next[left].None?
      modifies this`body, this`next, this`prev
      ensures n == |old(body)| && body == old(body) + [IntmB([k1, k2], [left, right])]
      ensures next == LinkNext(old(next) + [None], left, right)
      ensures prev == LinkPrev(old(next) + [None], old(prev) + [None], left, right)
    {
      hide LinksOk;
      n := AllocNode(false);
      RawInsertIntm(n, 0, k1, left);
      assert body[n].keys == [k1] && body[n].subs == [left];
      RawInsertIntm(n, 1, k2, right);
      assert body[n].keys == [k1, k2] && body[n].subs == [left, right];
    }

    // bptree_split_root_leaf and bptree_split_root_intm.
    method SplitRoot()
      requires Valid() && Full(tree)
      modifies this`body, this`next, this`prev, this`root, this`tree, this`height, this`lists
      ensures Valid() && Entries() == old(Entries())
      ensures tree.IntmT? && |tree.subs| == 2 && height == old(height) + 1
    {
      hide Flat, Lvl, LinksOk, Wf, Apart, Rep, LinkNext, LinkPrev;
      ghost var c, h, b0 := tree, height, body;
      var left := root;
      RootBody(body, tree, height);
      RootUnlinked(next, prev, lists, tree, h);
      var leaf := body[left].LeafB?;
      var right := AllocNode(leaf);
      var _ := RawBalance(left, right);
      BalancedHalves(c, h, true, right, body[left], body[right]);
      LeftKey(c, h, right);
      SplitKey(c, h, true, right);
      RootLinks(next, prev, lists, h, left, right);
      var k1 := if leaf then KeyOf(body[left].karray[0]) else body[left].keys[0];
      var k2 := if leaf then KeyOf(body[right].karray[0]) else body[right].keys[0];
      root := GrowRoot(left, right, k1, k2);
      lists := InsertedAfter(lists, h, 0, right) + [[root]];
      tree := NewRoot(c, right, root, k1, k2);
      height := h + 1;
      NewRootTreeAt(b0, body, c, h, k1, k2);
      NewRootLists(old(lists), c, h, right, root, k1, k2);
    }

    // bptree_set on a root leaf that is not full.
    method SetRootLeaf(kv: Kv) returns (ghost i: nat)
      requires Valid() && Agrees(Entries(), kv.key) && tree.LeafT? && !Full(tree)
      modifies this`body, this`log, this`tree
      ensures MemOk() && TreeAt(body, tree, height, true) && tree.id == root
      ensures |lists| == height + 1 && forall g :: 0 <= g <= height ==> lists[g] == Lvl(tree, height, g)
      ensures IsLoc(Keys(old(Entries())), Some(kv.key), i) && Entries() == PutAt(old(Entries()), i, kv)
      ensures log == old(log) + PutEvents(mm, OldAt(old(Entries()), i, kv), Some(kv))
    {
      hide LinksOk, Wf, Apart, Rep, Less;
      RootBody(body, tree, height);
      AboveSentinel(kv.key);
      i := SetLeaf(root, kv);
      RootLeafWritten(old(tree), height, i, kv, body);
      tree := LeafT(root, PutAt(old(Entries()), i, kv));
    }

    // bptree_set below an inner root that is not full.
    method SetRootIntm(kv: Kv) returns (ghost i: nat)
      requires Valid() && Agrees(Entries(), kv.key) && tree.IntmT? && !Full(tree)
      modifies this`body, this`next, this`prev, this`lists, this`log, this`tree
      ensures MemOk() && TreeAt(body, tree, height, true) && tree.id == root
      ensures |lists| == height + 1 && forall g :: 0 <= g <= height ==> lists[g] == Lvl(tree, height, g)
      ensures IsLoc(Keys(old(Entries())), Some(kv.key), i) && Entries() == PutAt(old(Entries()), i, kv)
      ensures log == old(log) + PutEvents(mm, OldAt(old(Entries()), i, kv), Some(kv))
    {
      hide LinksOk, Wf, Apart, Rep, Less;
      RootBody(body, tree, height);
      AboveSentinel(kv.key);
      NodeShape(tree, height, true);
      KeysSorted(tree, height, true);
      var subidx := Locate(body[root].keys, Some(kv.key));
      ghost var none := seq(|lists|, _ => []);
      ghost var t2;
      t2, i := SetRec(root, subidx, kv, tree, height, true, none, none);
      tree := t2;
    }

    // bptree_set.
    method Set(kv0: Kv, addr: nat)
      requires Valid() && Agrees(Entries(), kv0.key)
      modifies this
      ensures Valid()
      ensures Contents() == old(Contents())[kv0.key := kv0.(addr := addr)]
      ensures log == old(log) + PutEvents(mm, Find(old(Contents()), kv0.key), Some(kv0.(addr := addr)))
    {
      hide LinksOk, Wf, Apart, Rep, Less, MapOf;
      var kv := kv0.(addr := addr); // kv_alloc_dup
      RootBody(body, tree, height);
      if body[root].LeafB? && |body[root].karray| == LEAF_FO {
        SplitRoot();
        RootBody(body, tree, height);
      }
      ghost var i: nat;
      ghost var es := Entries();
      if body[root].LeafB? {
        i := SetRootLeaf(kv);
      } else {
        if |body[root].subs| == INTM_FO {
          SplitRoot();
        }
        i := SetRootIntm(kv);
      }
      MapOfPut(es, i, kv);
      PutFirst(es, i, kv);
    }

    // bptree_get_rec; the leaf is searched by the C library's bsearch.
    method GetRec(node: nat, key: Key, ghost t: Tree, ghost h: nat, ghost isRoot: bool)
      returns (r: Option<Kv>, ghost i: nat)
      requires TreeAt(body, t, h, isRoot) && t.id == node
      requires Flat(t) != [] && Sorted(Keys(Flat(t))) && Agrees(Flat(t), key) && !Less(Some(key), KeyOf(Flat(t)[0]))
      ensures IsLoc(Keys(Flat(t)), Some(key), i)
      ensures r == if KeyOf(Flat(t)[i]) == Some(key) then Flat(t)[i] else None
      decreases h
    {
      hide Wf, Apart, Rep, Less;
      NodeAt(body, t, h, isRoot);
      if body[node].LeafB? {
        var k := body[node].karray;
        var idx := Bsearch(Keys(k), Some(key));
        i := SearchLoc(k, key, idx);
        r := if idx.Some? then k[idx.value] else None;
      } else {
        NodeShape(t, h, isRoot);
        KeysSorted(t, h, isRoot);
        var subidx := Locate(body[node].keys, Some(key));
        ChildAt(body, t, h, isRoot, subidx);
        ChildSorted(t, h, isRoot, subidx, key);
        ghost var i0;
        r, i0 := GetRec(body[node].subs[subidx], key, t.subs[subidx], h - 1, false);
        ReplaceFlat(t, subidx, t.subs[subidx]);
        AfterFirst(t, h, isRoot, subidx);
        i := |FlatBefore(t, subidx)| + i0;
        LocInside(FlatBefore(t, subidx), Flat(t.subs[subidx]), FlatAfter(t, subidx), i0, Some(key));
      }
    }

    // bptree_get; bptree_probe answers r.Some?.
    method Get(key: Key) returns (r: Option<Kv>)
      requires Valid() && Agrees(Entries(), key)
      modifies this`log
      ensures r == Find(Contents(), key)
      ensures log == old(log) + if r.Some? then HitEvents(mm, r.value) else []
    {
      hide LinksOk, Wf, Apart, Rep, Less;
      AboveSentinel(key);
      ghost var i;
      r, i := GetRec(root, key, tree, height, true);
      MapOfAt(Entries(), i, key);
      if r.Some? {
        log := log + HitEvents(mm, r.value);
      }
    }

    // bptree_clean_rec: every object below a node is given up, in key order.
    method CleanRec(node: nat, ghost t: Tree, ghost h: nat, ghost isRoot: bool)
      requires TreeAt(body, t, h, isRoot) && t.id == node
      modifies this`log
      ensures log == old(log) + Retires(mm, Values(Flat(t)))
      decreases h
    {
      hide Wf, Apart, Rep, Less, Retires, Values;
      NodeAt(body, t, h, isRoot);
      var i := 0;
      NoValues();
      if body[node].LeafB? {
        while i < |body[node].karray|
          invariant 0 <= i <= |t.kvs| && log == old(log) + Retires(mm, Values(t.kvs[..i]))
        {
          var victim := body[node].karray[i];
          NextValue(mm, t.kvs, i);
          if victim.Some? && mm.rf {
            log := log + [Retire(victim.value)];
          }
          i := i + 1;
        }
        assert t.kvs[..i] == t.kvs;
      } else {
        NodeShape(t, h, isRoot);
        while i < |body[node].subs|
          invariant 0 <= i <= |t.subs| && log == old(log) + Retires(mm, Values(FlatAll(t.subs[..i])))
        {
          ChildAt(body, t, h, isRoot, i);
          NextChild(mm, t.subs, i);
          CleanRec(body[node].subs[i], t.subs[i], h - 1, false);
          i := i + 1;
        }
        assert t.subs[..i] == t.subs;
      }
    }

    // bptree_clean: every object is given up once; a root leaf with the
    // sentinel is left.
    method Clean() returns (ghost kvs: seq<Kv>)
      requires Valid()
      modifies this
      ensures Valid() && Contents() == map[]
      ensures Enumerates(old(Contents()), kvs) && log == old(log) + Retires(mm, kvs)
    {
      hide Wf, Apart, Rep, Less, Retires, Values, LinksOk, Enumerates;
      ValuesEnumerate(Flat(tree));
      kvs := Values(Flat(tree));
      CleanRec(root, tree, height, true);
      root := AllocNode(true);
      body := body[root := LeafB([None])];
      tree, height, lists := LeafT(root, [None]), 0, [[root]];
      LeafAlone(body, root);
      LinksAlone(next, prev, root);
      SentinelAlone();
    }
  }

  // struct bptree_iter (lib1.c:5589-5634): a leaf and a position in it. p is
  // the entry it stands at, in key order.
  class BpTreeIter {
    const tree: BpTree
    var curr: Option<nat>
    var i: nat
    ghost var q: nat
    ghost var p: nat

    ghost predicate Valid()
      reads this, tree
    {
      && tree.Valid()
      && (curr.None? ==> p == |tree.Entries()|)
      && (curr.Some? ==>
            && q < |tree.lists[0]| && curr.value == tree.lists[0][q] && curr.value < |tree.body|
            && tree.body[curr.value].LeafB? && i < |tree.body[curr.value].karray|
            && p == |Gather(tree.body, tree.lists[0][..q])| + i)
    }

    // bptree_iter_create on a nonempty tree: stand after the sentinel.
    constructor (tree: BpTree)
      requires tree.Valid() && tree.Contents() != map[]
      ensures Valid() && this.tree == tree && p == 1
    {
      this.tree := tree;
      new;
      hide LinksOk, Apart, Rep, Wf, Flat, MapOf;
      var node := tree.root;
      ghost var t := tree.tree;
      ghost var h: nat := tree.height;
      ghost var isRoot := true;
      ghost var rest: seq<nat> := [];
      while tree.body[node].IntmB?
        invariant node < |tree.body| && t.id == node && h <= tree.height
        invariant TreeAt(tree.body, t, h, isRoot)
        invariant tree.lists[0] == Lvl(t, h, 0) + rest
        invariant isRoot ==> t == tree.tree
        decreases h
      {
        NodeAt(tree.body, t, h, isRoot);
        NodeShape(t, h, isRoot);
        ChildAt(tree.body, t, h, isRoot, 0);
        FirstLvl(t, h);
        rest := LvlAll(t.subs[1..], h - 1, 0) + rest;
        node := tree.body[node].subs[0];
        t, h, isRoot := t.subs[0], h - 1, false;
      }
      NodeAt(tree.body, t, h, isRoot);
      FirstLeaf(tree, t, isRoot);
      curr, i, q, p := Some(node), 1, 0, 1;
    }

    // bptree_iter_next: the entry stood at, then one step on; null for ever at
    // the end.
    method Next() returns (r: Option<Kv>)
      requires Valid()
      modifies this
      ensures Valid()
      ensures old(p) < |tree.Entries()| ==> r == tree.Entries()[old(p)] && p == old(p) + 1
      ensures old(p) == |tree.Entries()| ==> r == None && p == old(p)
      ensures old(p) <= |tree.Entries()|
    {
      hide LinksOk, Wf, Apart, Rep;
      if curr.None? {
        return None;
      }
      ghost var ids := tree.lists[0];
      EntryAt(tree, q, i);
      r := tree.body[curr.value].karray[i];
      i := i + 1;
      p := p + 1;
      if i >= |tree.body[curr.value].karray| {
        i := 0;
        NextLeaf(tree, q);
        curr := tree.next[curr.value];
        q := q + 1;
      }
    }
  }

  lemma FirstLvl(t: Tree, h: nat)
    requires t.IntmT? && |t.subs| > 0 && h > 0
    ensures Lvl(t, h, 0) == Lvl(t.subs[0], h - 1, 0) + LvlAll(t.subs[1..], h - 1, 0)
  {
  }

  // The leftmost leaf holds the sentinel and at least one more entry.
  lemma FirstLeaf(tree: BpTree, t: Tree, isRoot: bool)
    requires tree.Valid() && tree.Contents() != map[]
    requires t.LeafT? && TreeAt(tree.body, t, 0, isRoot) && (isRoot ==> t == tree.tree)
    ensures 1 < |t.kvs|
  {
    OnlySentinel(tree.Entries());
  }

  lemma {:induction false} OnlySentinel(es: seq<Option<Kv>>)
    ensures |es| == 1 && es[0] == None ==> MapOf(es) == map[]
  {
    if |es| == 1 {
      assert MapOf(es[1..]) == map[];
    }
  }

  // Entry i of the q-th leaf of the chain.
  lemma EntryAt(tree: BpTree, q: nat, i: nat)
    requires tree.Valid() && q < |tree.lists[0]|
    requires tree.lists[0][q] < |tree.body| && tree.body[tree.lists[0][q]].LeafB?
    requires i < |tree.body[tree.lists[0][q]].karray|
    ensures var p := |Gather(tree.body, tree.lists[0][..q])| + i;
      p < |tree.Entries()| && tree.Entries()[p] == tree.body[tree.lists[0][q]].karray[i]
  {
    FlatIsGather(tree.body, tree.tree, tree.height, true);
    GatherAt(tree.body, tree.lists[0], q);
  }

  // The link of the q-th leaf leads to the (q+1)-th, which is a nonempty leaf,
  // or is null after the last.
  lemma NextLeaf(tree: BpTree, q: nat)
    requires tree.Valid() && q < |tree.lists[0]|
    ensures var ids := tree.lists[0];
      && ids[q] < |tree.next| && ids[q] < |tree.body| && tree.body[ids[q]].LeafB?
      && |Gather(tree.body, ids[..q + 1])| == |Gather(tree.body, ids[..q])| + |tree.body[ids[q]].karray|
      && tree.next[ids[q]] == Nth(ids, q + 1)
      && (q + 1 < |ids| ==> ids[q + 1] < |tree.body| && tree.body[ids[q + 1]].LeafB? && tree.body[ids[q + 1]].karray != [])
      && (q + 1 == |ids| ==> |Gather(tree.body, ids[..q + 1])| == |tree.Entries()|)
  {
    var ids := tree.lists[0];
    FlatIsGather(tree.body, tree.tree, tree.height, true);
    GatherAt(tree.body, ids, q);
    assert Chain(tree.next, tree.prev, ids);
    assert LinkedAt(tree.next, tree.prev, ids, q);
    if q + 1 == |ids| {
      assert ids[..q + 1] == ids;
    }
  }

  // The leaf chain of a valid tree is the leaves in key order: following next
  // from the first leaf meets every entry, each key once, in dictionary order
  // of the key bytes, and the map holds exactly those.
  lemma LeafChain(tree: BpTree)
    requires tree.Valid()
    ensures Chain(tree.next, tree.prev, tree.lists[0])
    ensures Gather(tree.body, tree.lists[0]) == tree.Entries()
    ensures Ascending(tree.Entries()) && Lists(tree.Contents(), tree.Entries())
  {
    hide Less, Ascending;
    FlatIsGather(tree.body, tree.tree, tree.height, true);
    MapOfLists(tree.Entries());
    SortedAscends(tree.Entries());
  }
}
