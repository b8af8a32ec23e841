// What the B+-tree operations do to a tree value: replacing one subtree,
// splitting a full child or the root, and writing one entry.

module BpTreeOps {
  import opened Option
  import opened KvApi
  import opened KeyOrder
  import opened SortedEntries
  import opened BpTreeShape

  // ---- replacing the s-th subtree ----

  function Replace(t: Tree, s: nat, c: Tree): Tree
    requires t.IntmT? && s < |t.subs|
  {
    IntmT(t.id, t.keys, t.subs[s := c])
  }

  function FlatBefore(t: Tree, s: nat): seq<Option<Kv>>
    requires t.IntmT? && s < |t.subs|
  {
    FlatAll(t.subs[..s])
  }

  function FlatAfter(t: Tree, s: nat): seq<Option<Kv>>
    requires t.IntmT? && s < |t.subs|
  {
    FlatAll(t.subs[s + 1..])
  }

  function LvlBefore(t: Tree, s: nat, h: nat, g: nat): seq<nat>
    requires t.IntmT? && s < |t.subs| && h > 0
  {
    LvlAll(t.subs[..s], h - 1, g)
  }

  function LvlAfter(t: Tree, s: nat, h: nat, g: nat): seq<nat>
    requires t.IntmT? && s < |t.subs| && h > 0
  {
    LvlAll(t.subs[s + 1..], h - 1, g)
  }

  lemma {:induction false} ReplaceFlat(t: Tree, s: nat, c: Tree)
    requires t.IntmT? && s < |t.subs|
    ensures Flat(Replace(t, s, c)) == FlatBefore(t, s) + Flat(c) + FlatAfter(t, s)
    ensures Flat(t) == FlatBefore(t, s) + Flat(t.subs[s]) + FlatAfter(t, s)
  {
    AroundFlat(t.subs, s, [c]);
    One(c, 0, 0);
    assert t.subs[s := c] == Around(t.subs, s, [c]);
    AroundFlat(t.subs, s, [t.subs[s]]);
    AroundSelf(t.subs, s);
    One(t.subs[s], 0, 0);
  }

  lemma {:induction false} ReplaceLvl(t: Tree, s: nat, c: Tree, h: nat, g: nat)
    requires t.IntmT? && s < |t.subs| && h > 0 && g < h
    ensures Lvl(Replace(t, s, c), h, g) == LvlBefore(t, s, h, g) + Lvl(c, h - 1, g) + LvlAfter(t, s, h, g)
    ensures Lvl(t, h, g) == LvlBefore(t, s, h, g) + Lvl(t.subs[s], h - 1, g) + LvlAfter(t, s, h, g)
  {
    NewLvl(t, s, c, h, g);
    NewLvl(t, s, t.subs[s], h, g);
    assert t.subs[s := t.subs[s]] == t.subs;
  }

  lemma {:induction false} NewLvl(t: Tree, s: nat, c: Tree, h: nat, g: nat)
    requires t.IntmT? && s < |t.subs| && h > 0 && g < h
    ensures Lvl(Replace(t, s, c), h, g) == LvlBefore(t, s, h, g) + Lvl(c, h - 1, g) + LvlAfter(t, s, h, g)
  {
    AroundLvl(t.subs, s, [c], h - 1, g);
    One(c, h - 1, g);
    assert t.subs[s := c] == Around(t.subs, s, [c]);
  }

  lemma ReplaceWf(t: Tree, h: nat, isRoot: bool, s: nat, c: Tree)
    requires t.IntmT? && s < |t.subs| && Wf(t, h, isRoot)
    requires Wf(c, h - 1, false) && Flat(c) != [] && KeyOf(Flat(c)[0]) == t.keys[s]
    ensures Wf(Replace(t, s, c), h, isRoot)
  {
  }

  lemma {:induction false} ReplaceApart(t: Tree, s: nat, c: Tree)
    requires t.IntmT? && s < |t.subs| && Apart(t) && Apart(c)
    requires forall x :: x in Ids(c) ==> x in Ids(t.subs[s]) || x !in Ids(t)
    ensures Apart(Replace(t, s, c))
    ensures Ids(Replace(t, s, c)) <= Ids(t) + Ids(c)
  {
    var subs2 := t.subs[s := c];
    forall i | 0 <= i < |t.subs| ensures Ids(t.subs[i]) <= Ids(t) {
      IdsAllMember(t.subs, i);
    }
    forall i | 0 <= i < |t.subs| && i != s ensures Ids(t.subs[i]) !! Ids(c) {
      assert Ids(t.subs[i]) !! Ids(t.subs[s]);
    }
    AroundIds(t.subs, s, [c]);
    One(c, 0, 0);
    assert subs2 == Around(t.subs, s, [c]);
    AroundIds(t.subs, s, [t.subs[s]]);
    AroundSelf(t.subs, s);
    One(t.subs[s], 0, 0);
  }

  // Subtrees beside the s-th one are still represented when only nodes of the
  // s-th one, the parent, or nodes outside the tree have changed.
  lemma {:induction false} OtherRep(body: seq<Body>, body2: seq<Body>, t: Tree, s: nat, i: nat)
    requires t.IntmT? && s < |t.subs| && i < |t.subs| && i != s && Apart(t) && Rep(body, t)
    requires |body| <= |body2|
    requires forall x :: 0 <= x < |body| && x != t.id && x !in Ids(t.subs[s]) ==> body2[x] == body[x]
    ensures Rep(body2, t.subs[i])
  {
    RepBound(body, t.subs[i]);
    assert Ids(t.subs[i]) !! Ids(t.subs[s]) by {
      if i < s {
        assert Ids(t.subs[i]) !! Ids(t.subs[s]);
      } else {
        assert Ids(t.subs[s]) !! Ids(t.subs[i]);
      }
    }
    RepFrame(body, body2, t.subs[i]);
  }

  lemma {:induction false} ReplaceRep(body: seq<Body>, body2: seq<Body>, t: Tree, s: nat, c: Tree)
    requires t.IntmT? && s < |t.subs| && Apart(t) && Rep(body, t)
    requires Rep(body2, c) && c.id == t.subs[s].id && |body| <= |body2|
    requires forall x :: 0 <= x < |body| && x !in Ids(t.subs[s]) ==> body2[x] == body[x]
    ensures Rep(body2, Replace(t, s, c))
  {
    var t2 := Replace(t, s, c);
    assert Roots(t2.subs) == Roots(t.subs);
    assert t.id !in Ids(t.subs[s]);
    forall i | 0 <= i < |t2.subs| ensures Rep(body2, t2.subs[i]) {
      if i != s {
        OtherRep(body, body2, t, s, i);
      }
    }
  }

  // ---- splitting a full node c into itself and a new right sibling r ----

  function HalfL(n: nat): nat {
    n - n / 2
  }

  function SplitL(c: Tree): Tree {
    match c
    case LeafT(id, kvs) => LeafT(id, kvs[..HalfL(|kvs|)])
    case IntmT(id, keys, subs) =>
      if |keys| != |subs| then c else IntmT(id, keys[..HalfL(|keys|)], subs[..HalfL(|subs|)])
  }

  function SplitR(c: Tree, r: nat): Tree {
    match c
    case LeafT(id, kvs) => LeafT(r, kvs[HalfL(|kvs|)..])
    case IntmT(id, keys, subs) =>
      if |keys| != |subs| then c else IntmT(r, keys[HalfL(|keys|)..], subs[HalfL(|subs|)..])
  }

  predicate Full(c: Tree) {
    match c
    case LeafT(_, kvs) => |kvs| == LEAF_FO
    case IntmT(_, _, subs) => |subs| == INTM_FO
  }

  lemma {:induction false} SplitFlat(c: Tree, h: nat, isRoot: bool, r: nat)
    requires Wf(c, h, isRoot) && Full(c)
    ensures Flat(SplitL(c)) + Flat(SplitR(c, r)) == Flat(c)
    ensures Flat(SplitL(c)) != [] && Flat(SplitR(c, r)) != []
  {
    if c.IntmT? {
      var k := HalfL(|c.subs|);
      assert c.subs == c.subs[..k] + c.subs[k..];
      FlatAllConcat(c.subs[..k], c.subs[k..]);
      assert Flat(c.subs[0]) != [] && Flat(c.subs[k]) != [];
      assert c.subs[..k][0] == c.subs[0] && c.subs[k..][0] == c.subs[k];
    }
  }

  lemma {:induction false} SplitWf(c: Tree, h: nat, isRoot: bool, r: nat)
    requires Wf(c, h, isRoot) && Full(c)
    ensures Wf(SplitL(c), h, false) && Wf(SplitR(c, r), h, false)
  {
  }

  // The first key of the right half is what the code copies as separator.
  lemma {:induction false} SplitKey(c: Tree, h: nat, isRoot: bool, r: nat)
    requires Wf(c, h, isRoot) && Full(c)
    ensures Flat(SplitR(c, r)) != []
    ensures KeyOf(Flat(SplitR(c, r))[0]) ==
      if c.LeafT? then KeyOf(c.kvs[HalfL(|c.kvs|)]) else c.keys[HalfL(|c.keys|)]
  {
    SplitFlat(c, h, isRoot, r);
    if c.IntmT? {
      var k := HalfL(|c.subs|);
      assert c.subs[k..][0] == c.subs[k];
      assert Flat(c.subs[k]) != [] && c.keys[k] == KeyOf(Flat(c.subs[k])[0]);
      assert FlatAll(c.subs[k..]) == Flat(c.subs[k]) + FlatAll(c.subs[k..][1..]);
    }
  }

  lemma {:induction false} SplitLvl(c: Tree, h: nat, isRoot: bool, r: nat, g: nat)
    requires Wf(c, h, isRoot) && Full(c)
    ensures Lvl(SplitL(c), h, g) + Lvl(SplitR(c, r), h, g) == if g == h then [c.id, r] else Lvl(c, h, g)
  {
    if c.IntmT? && g != h {
      var k := HalfL(|c.subs|);
      assert c.subs == c.subs[..k] + c.subs[k..];
      LvlAllConcat(c.subs[..k], c.subs[k..], h - 1, g);
    }
  }

  lemma {:induction false} SplitIds(c: Tree, h: nat, isRoot: bool, r: nat)
    requires Wf(c, h, isRoot) && Full(c) && Apart(c) && r !in Ids(c)
    ensures Apart(SplitL(c)) && Apart(SplitR(c, r)) && Ids(SplitL(c)) !! Ids(SplitR(c, r))
    ensures Ids(SplitL(c)) + Ids(SplitR(c, r)) == Ids(c) + {r}
  {
    if c.IntmT? {
      var k := HalfL(|c.subs|);
      var a, b := c.subs[..k], c.subs[k..];
      assert c.subs == a + b;
      IdsAllConcat(a, b);
      SplitApart(c, r);
      forall i, j | 0 <= i < |a| && 0 <= j < |b| ensures Ids(a[i]) !! Ids(b[j]) {
        assert a[i] == c.subs[i] && b[j] == c.subs[k + j];
      }
      forall x | x in IdsAll(a) ensures x !in IdsAll(b) {
        if x in IdsAll(b) {
          var i := IdsAllWitness(a, x);
          var j := IdsAllWitness(b, x);
        }
      }
      assert c.id !in IdsAll(c.subs) by {
        if c.id in IdsAll(c.subs) {
          var i := IdsAllWitness(c.subs, c.id);
        }
      }
    }
  }

  lemma {:induction false} SplitApart(c: Tree, r: nat)
    requires c.IntmT? && |c.keys| == |c.subs| && Apart(c) && r !in Ids(c)
    ensures Apart(SplitL(c)) && Apart(SplitR(c, r))
  {
    var k := HalfL(|c.subs|);
    var a, b := c.subs[..k], c.subs[k..];
    forall i | 0 <= i < |b| ensures b[i] == c.subs[k + i] && r !in Ids(b[i]) {
      IdsAllMember(c.subs, k + i);
    }
    forall i, j | 0 <= i < j < |b| ensures Ids(b[i]) !! Ids(b[j]) {
      assert b[i] == c.subs[k + i] && b[j] == c.subs[k + j];
    }
  }

  lemma {:induction false} SplitRep(body: seq<Body>, body2: seq<Body>, c: Tree, h: nat, isRoot: bool, r: nat)
    requires Wf(c, h, isRoot) && Full(c) && Apart(c) && Rep(body, c)
    requires r == |body| && |body2| > r
    requires body2[c.id] == NodeBody(SplitL(c)) && body2[r] == NodeBody(SplitR(c, r))
    requires forall x :: 0 <= x < |body| && x in Ids(c) && x != c.id ==> body2[x] == body[x]
    ensures Rep(body2, SplitL(c)) && Rep(body2, SplitR(c, r))
  {
    if c.IntmT? {
      forall i | 0 <= i < |c.subs| ensures Rep(body2, c.subs[i]) {
        IdsAllMember(c.subs, i);
        RepBound(body, c);
        assert Rep(body, c.subs[i]) && c.id !in Ids(c.subs[i]);
        assert Ids(c) == {c.id} + IdsAll(c.subs);
        RepFrame(body, body2, c.subs[i]);
      }
    }
  }

  // The memory content of the topmost node of a tree.
  function NodeBody(t: Tree): Body {
    match t
    case LeafT(_, kvs) => LeafB(kvs)
    case IntmT(_, keys, subs) => IntmB(keys, Roots(subs))
  }

  // ---- splitting the s-th child of t ----

  function SplitChild(t: Tree, s: nat, r: nat, key: Option<Key>): Tree
    requires t.IntmT? && s < |t.subs| && s < |t.keys|
  {
    IntmT(t.id, t.keys[..s + 1] + [key] + t.keys[s + 1..], Around(t.subs, s, [SplitL(t.subs[s]), SplitR(t.subs[s], r)]))
  }

  lemma {:induction false} SplitChildFlat(t: Tree, h: nat, isRoot: bool, s: nat, r: nat, key: Option<Key>)
    requires t.IntmT? && s < |t.subs| && Wf(t, h, isRoot) && Full(t.subs[s])
    ensures Flat(SplitChild(t, s, r, key)) == Flat(t)
  {
    var c := t.subs[s];
    SplitFlat(c, h - 1, false, r);
    AroundFlat(t.subs, s, [SplitL(c), SplitR(c, r)]);
    Two(SplitL(c), SplitR(c, r), 0, 0);
    ReplaceFlat(t, s, c);
  }

  lemma {:induction false} SplitChildLvl(t: Tree, h: nat, isRoot: bool, s: nat, r: nat, key: Option<Key>, g: nat)
    requires t.IntmT? && s < |t.subs| && Wf(t, h, isRoot) && Full(t.subs[s]) && g < h
    ensures Lvl(SplitChild(t, s, r, key), h, g) ==
      if g == h - 1 then LvlBefore(t, s, h, g) + [t.subs[s].id, r] + LvlAfter(t, s, h, g) else Lvl(t, h, g)
    ensures g == h - 1 ==> Lvl(t, h, g) == LvlBefore(t, s, h, g) + [t.subs[s].id] + LvlAfter(t, s, h, g)
  {
    var c := t.subs[s];
    SplitLvl(c, h - 1, false, r, g);
    AroundLvl(t.subs, s, [SplitL(c), SplitR(c, r)], h - 1, g);
    Two(SplitL(c), SplitR(c, r), h - 1, g);
    ReplaceLvl(t, s, c, h, g);
  }

  lemma {:induction false} SplitChildWf(t: Tree, h: nat, isRoot: bool, s: nat, r: nat, key: Option<Key>)
    requires t.IntmT? && s < |t.subs| < INTM_FO && Wf(t, h, isRoot) && Full(t.subs[s])
    requires Flat(SplitR(t.subs[s], r)) != [] && key == KeyOf(Flat(SplitR(t.subs[s], r))[0])
    ensures Wf(SplitChild(t, s, r, key), h, isRoot)
  {
    var c := t.subs[s];
    SplitFlat(c, h - 1, false, r);
    SplitWf(c, h - 1, false, r);
    assert Flat(SplitL(c))[0] == Flat(c)[0];
    var t2 := SplitChild(t, s, r, key);
    forall i | 0 <= i < |t2.subs|
      ensures Wf(t2.subs[i], h - 1, false) && Flat(t2.subs[i]) != [] && t2.keys[i] == KeyOf(Flat(t2.subs[i])[0])
    {
      if i > s + 1 {
        assert t2.subs[i] == t.subs[i - 1] && t2.keys[i] == t.keys[i - 1];
      } else if i < s {
        assert t2.subs[i] == t.subs[i];
      }
    }
  }

  lemma {:induction false} SplitChildApart(t: Tree, h: nat, isRoot: bool, s: nat, r: nat, key: Option<Key>)
    requires t.IntmT? && s < |t.subs| && Wf(t, h, isRoot) && Full(t.subs[s])
    requires Apart(t) && r !in Ids(t)
    ensures Apart(SplitChild(t, s, r, key)) && Ids(SplitChild(t, s, r, key)) == Ids(t) + {r}
  {
    hide Wf, Full, SplitL, SplitR;
    var c := t.subs[s];
    ChildWf(t, h, isRoot, s);
    IdsAllMember(t.subs, s);
    SplitIds(c, h - 1, false, r);
    SplitChildIds(t, s, r, key);
    var subs2 := SplitChild(t, s, r, key).subs;
    forall i | 0 <= i < |subs2|
      ensures Apart(subs2[i]) && t.id !in Ids(subs2[i])
    {
      SplitChildAt(t, s, r, key, i);
      if i != s && i != s + 1 {
        IdsAllMember(t.subs, if i < s then i else i - 1);
      }
    }
    forall i, j | 0 <= i < j < |subs2| ensures Ids(subs2[i]) !! Ids(subs2[j]) {
      SplitChildPair(t, s, r, key, i, j);
    }
  }

  lemma {:induction false} ChildWf(t: Tree, h: nat, isRoot: bool, s: nat)
    requires t.IntmT? && s < |t.subs| && Wf(t, h, isRoot)
    ensures h > 0 && |t.keys| == |t.subs| && Wf(t.subs[s], h - 1, false)
  {
  }

  // The nodes of the split tree, counted from those of the two halves.
  lemma {:induction false} SplitChildIds(t: Tree, s: nat, r: nat, key: Option<Key>)
    requires t.IntmT? && s < |t.subs| && s < |t.keys|
    requires var c := t.subs[s]; Ids(SplitL(c)) + Ids(SplitR(c, r)) == Ids(c) + {r}
    ensures Ids(SplitChild(t, s, r, key)) == Ids(t) + {r}
  {
    hide SplitL, SplitR;
    var c := t.subs[s];
    AroundIds(t.subs, s, [SplitL(c), SplitR(c, r)]);
    Two(SplitL(c), SplitR(c, r), 0, 0);
    AroundIds(t.subs, s, [c]);
    AroundSelf(t.subs, s);
    One(c, 0, 0);
  }

  lemma {:induction false} SplitChildPair(t: Tree, s: nat, r: nat, key: Option<Key>, i: nat, j: nat)
    requires t.IntmT? && s < |t.subs| && s < |t.keys| && i < j <= |t.subs| && Apart(t) && r !in Ids(t)
    requires var c := t.subs[s];
      Ids(SplitL(c)) + Ids(SplitR(c, r)) == Ids(c) + {r} && Ids(SplitL(c)) !! Ids(SplitR(c, r))
    ensures var subs2 := SplitChild(t, s, r, key).subs; Ids(subs2[i]) !! Ids(subs2[j])
  {
    SplitChildAt(t, s, r, key, i);
    SplitChildAt(t, s, r, key, j);
    var i0, j0 := if i <= s then i else i - 1, if j <= s then j else j - 1;
    IdsAllMember(t.subs, i0);
    IdsAllMember(t.subs, j0);
    assert i0 != j0 ==> Ids(t.subs[i0]) !! Ids(t.subs[j0]);
  }

  lemma SplitChildAt(t: Tree, s: nat, r: nat, key: Option<Key>, i: nat)
    requires t.IntmT? && s < |t.subs| && s < |t.keys| && i <= |t.subs|
    ensures SplitChild(t, s, r, key).subs[i] ==
      if i < s then t.subs[i] else if i == s then SplitL(t.subs[s])
      else if i == s + 1 then SplitR(t.subs[s], r) else t.subs[i - 1]
  {
  }

  lemma {:induction false} SplitChildRep(body: seq<Body>, body2: seq<Body>, t: Tree, h: nat, isRoot: bool, s: nat, r: nat, key: Option<Key>)
    requires t.IntmT? && s < |t.subs| && Wf(t, h, isRoot) && Full(t.subs[s])
    requires Apart(t) && Rep(body, t) && r == |body| && |body2| == r + 1
    requires t.subs[s].id < |body2| && t.subs[s].id != t.id
    requires body2[t.id] == NodeBody(SplitChild(t, s, r, key))
    requires body2[t.subs[s].id] == NodeBody(SplitL(t.subs[s])) && body2[r] == NodeBody(SplitR(t.subs[s], r))
    requires forall x :: 0 <= x < |body| && x != t.id && x != t.subs[s].id ==> body2[x] == body[x]
    ensures Rep(body2, SplitChild(t, s, r, key))
  {
    var c := t.subs[s];
    SplitRep(body, body2, c, h - 1, false, r);
    var t2 := SplitChild(t, s, r, key);
    forall i | 0 <= i < |t2.subs| ensures Rep(body2, t2.subs[i]) {
      SplitChildAt(t, s, r, key, i);
      if i != s && i != s + 1 {
        OtherRep(body, body2, t, s, if i < s then i else i - 1);
      }
    }
  }

  // The separators of a node are the first keys of consecutive parts of its
  // entries, hence sorted.
  lemma {:induction false} KeysSorted(t: Tree, h: nat, isRoot: bool)
    requires t.IntmT? && Wf(t, h, isRoot) && Sorted(Keys(Flat(t)))
    ensures Sorted(t.keys)
  {
    forall i, j | 0 <= i < j < |t.keys| ensures Less(t.keys[i], t.keys[j]) {
      KeyPos(t, h, isRoot, i);
      KeyPos(t, h, isRoot, j);
      PartsGrow(t, h, isRoot, i, j);
      assert Less(Keys(Flat(t))[|FlatBefore(t, i)|], Keys(Flat(t))[|FlatBefore(t, j)|]);
    }
  }

  // Separator i is the key at the start of part i.
  lemma {:induction false} KeyPos(t: Tree, h: nat, isRoot: bool, i: nat)
    requires t.IntmT? && Wf(t, h, isRoot) && i < |t.keys|
    ensures |FlatBefore(t, i)| < |Flat(t)| && Keys(Flat(t))[|FlatBefore(t, i)|] == t.keys[i]
  {
    ReplaceFlat(t, i, t.subs[i]);
    assert Flat(t)[|FlatBefore(t, i)|] == Flat(t.subs[i])[0];
  }

  lemma {:induction false} PartsGrow(t: Tree, h: nat, isRoot: bool, i: nat, j: nat)
    requires t.IntmT? && Wf(t, h, isRoot) && i < j < |t.subs|
    ensures |FlatBefore(t, i)| < |FlatBefore(t, j)|
  {
    var a, b := t.subs[..i], t.subs[i..j];
    assert t.subs[..j] == a + b;
    FlatAllConcat(a, b);
    assert b[0] == t.subs[i] && Flat(t.subs[i]) != [];
    assert FlatAll(b) == Flat(b[0]) + FlatAll(b[1..]);
  }

  // The part after child s starts with separator s + 1.
  lemma {:induction false} AfterFirst(t: Tree, h: nat, isRoot: bool, s: nat)
    requires t.IntmT? && Wf(t, h, isRoot) && s < |t.subs|
    ensures if s + 1 < |t.subs| then FlatAfter(t, s) != [] && KeyOf(FlatAfter(t, s)[0]) == t.keys[s + 1]
      else FlatAfter(t, s) == []
  {
    if s + 1 < |t.subs| {
      var b := t.subs[s + 1..];
      assert b[0] == t.subs[s + 1];
      assert FlatAll(b) == Flat(b[0]) + FlatAll(b[1..]);
    }
  }

  // What the located child inherits.
  lemma ChildSorted(t: Tree, h: nat, isRoot: bool, s: nat, key: Key)
    requires t.IntmT? && Wf(t, h, isRoot) && s < |t.subs|
    requires Sorted(Keys(Flat(t))) && Agrees(Flat(t), key) && IsLoc(t.keys, Some(key), s)
    ensures var c := t.subs[s];
      && Wf(c, h - 1, false) && Flat(c) != [] && t.keys[s] == KeyOf(Flat(c)[0])
      && Sorted(Keys(Flat(c))) && Agrees(Flat(c), key) && !Less(Some(key), KeyOf(Flat(c)[0]))
  {
    hide Less;
    var c := t.subs[s];
    ReplaceFlat(t, s, c);
    SortedPart(FlatBefore(t, s), Flat(c), FlatAfter(t, s));
    forall i | 0 <= i < |Flat(c)| && Flat(c)[i].Some? && Flat(c)[i].value.key.bytes == key.bytes
      ensures Flat(c)[i].value.key == key
    {
      assert Flat(t)[|FlatBefore(t, s)| + i] == Flat(c)[i];
    }
  }

  // A write in the located child is the same write in the whole node.
  lemma ChildPut(t: Tree, h: nat, isRoot: bool, s: nat, c2: Tree, i0: nat, kv: Kv) returns (i: nat)
    requires t.IntmT? && Wf(t, h, isRoot) && s < |t.subs|
    requires Sorted(Keys(Flat(t))) && IsLoc(t.keys, Some(kv.key), s)
    requires IsLoc(Keys(Flat(t.subs[s])), Some(kv.key), i0) && Flat(c2) == PutAt(Flat(t.subs[s]), i0, kv)
    ensures IsLoc(Keys(Flat(t)), Some(kv.key), i)
    ensures Flat(Replace(t, s, c2)) == PutAt(Flat(t), i, kv)
    ensures OldAt(Flat(t), i, kv) == OldAt(Flat(t.subs[s]), i0, kv)
    ensures Flat(c2) != [] && KeyOf(Flat(c2)[0]) == t.keys[s]
  {
    hide Less;
    var a, b, c := FlatBefore(t, s), Flat(t.subs[s]), FlatAfter(t, s);
    ReplaceFlat(t, s, c2);
    AfterFirst(t, h, isRoot, s);
    i := |a| + i0;
    LocInside(a, b, c, i0, Some(kv.key));
    PutInside(a, b, c, i0, kv);
    PutFirst(b, i0, kv);
    assert (a + b + c)[i] == b[i0];
  }

  // ---- the leaves in chain order ----

  // The entries of the leaf nodes ids, one leaf after the other.
  ghost function Gather(body: seq<Body>, ids: seq<nat>): seq<Option<Kv>> {
    if ids == [] then []
    else (if ids[0] < |body| && body[ids[0]].LeafB? then body[ids[0]].karray else []) + Gather(body, ids[1..])
  }

  lemma {:induction false} GatherConcat(body: seq<Body>, a: seq<nat>, b: seq<nat>)
    ensures Gather(body, a + b) == Gather(body, a) + Gather(body, b)
  {
    if a == [] {
      assert a + b == b;
    } else {
      assert (a + b)[1..] == a[1..] + b;
      GatherConcat(body, a[1..], b);
    }
  }

  ghost predicate LeafIds(body: seq<Body>, ids: seq<nat>) {
    forall i :: 0 <= i < |ids| ==> ids[i] < |body| && body[ids[i]].LeafB? && body[ids[i]].karray != []
  }

  // The list of height 0 is the leaves, in order, and holds every entry.
  lemma {:induction false} FlatIsGather(body: seq<Body>, t: Tree, h: nat, isRoot: bool)
    requires Rep(body, t) && Wf(t, h, isRoot)
    ensures Flat(t) == Gather(body, Lvl(t, h, 0)) && LeafIds(body, Lvl(t, h, 0))
    decreases t, 1
  {
    if t.IntmT? {
      FlatAllIsGather(body, t.subs, h - 1);
    } else {
      assert Lvl(t, h, 0) == [t.id];
      assert Gather(body, [t.id]) == body[t.id].karray + Gather(body, []);
    }
  }

  lemma {:induction false} FlatAllIsGather(body: seq<Body>, ts: seq<Tree>, h: nat)
    requires forall i :: 0 <= i < |ts| ==> Rep(body, ts[i]) && Wf(ts[i], h, false)
    ensures FlatAll(ts) == Gather(body, LvlAll(ts, h, 0)) && LeafIds(body, LvlAll(ts, h, 0))
    decreases ts, 0
  {
    if ts != [] {
      FlatIsGather(body, ts[0], h, false);
      FlatAllIsGather(body, ts[1..], h);
      GatherConcat(body, Lvl(ts[0], h, 0), LvlAll(ts[1..], h, 0));
    }
  }

  // Entry i of the q-th leaf is entry Offset + i of the whole.
  lemma {:induction false} GatherAt(body: seq<Body>, ids: seq<nat>, q: nat)
    requires LeafIds(body, ids) && q < |ids|
    ensures var a := Gather(body, ids[..q]); var k := body[ids[q]].karray;
      && Gather(body, ids) == a + k + Gather(body, ids[q + 1..])
      && Gather(body, ids[..q + 1]) == a + k
  {
    assert ids == ids[..q] + ([ids[q]] + ids[q + 1..]);
    GatherConcat(body, ids[..q], [ids[q]] + ids[q + 1..]);
    GatherConcat(body, [ids[q]], ids[q + 1..]);
    assert ids[..q + 1] == ids[..q] + [ids[q]];
    GatherConcat(body, ids[..q], [ids[q]]);
    assert Gather(body, [ids[q]]) == body[ids[q]].karray + Gather(body, []);
  }
}
