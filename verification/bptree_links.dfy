// The next/prev links of the B+-tree (lib1.c:5353-5381): one doubly linked
// chain of nodes per height, the leaves at height 0.

module BpTreeLinks {
  import opened Option

  type Link = seq<Option<nat>>

  // The i-th node of ids, or null outside of it.
  function Nth(ids: seq<nat>, i: int): Option<nat> {
    if 0 <= i < |ids| then Some(ids[i]) else None
  }

  ghost predicate LinkedAt(next: Link, prev: Link, ids: seq<nat>, i: nat)
    requires i < |ids|
  {
    && ids[i] < |next| && ids[i] < |prev|
    && next[ids[i]] == Nth(ids, i + 1) && prev[ids[i]] == Nth(ids, i - 1)
  }

  // ids is chained by next and prev, in order, ending with null at both ends.
  ghost predicate Chain(next: Link, prev: Link, ids: seq<nat>) {
    forall i :: 0 <= i < |ids| ==> LinkedAt(next, prev, ids, i)
  }

  // No node is twice in the lists.
  ghost predicate Distinct(lists: seq<seq<nat>>) {
    forall g, i, h, j ::
      (0 <= g < |lists| && 0 <= i < |lists[g]| && 0 <= h < |lists| && 0 <= j < |lists[h]|
       && lists[g][i] == lists[h][j]) ==> g == h && i == j
  }

  ghost predicate LinksOk(next: Link, prev: Link, lists: seq<seq<nat>>) {
    && |next| == |prev|
    && Distinct(lists)
    && forall g :: 0 <= g < |lists| ==> Chain(next, prev, lists[g])
  }

  // x put after position p of list g.
  function InsertedAfter(lists: seq<seq<nat>>, g: nat, p: nat, x: nat): seq<seq<nat>>
    requires g < |lists| && p < |lists[g]|
  {
    lists[g := lists[g][..p + 1] + [x] + lists[g][p + 1..]]
  }

  // The link updates of bptree_raw_insert_intm for a new node x to the right
  // of `left`.
  function LinkNext(next: Link, left: nat, x: nat): Link
    requires left < |next| && x < |next|
  {
    (if next[left].Some? then next[x := next[left]] else next)[left := Some(x)]
  }

  function LinkPrev(next: Link, prev: Link, left: nat, x: nat): Link
    requires left < |next| && x < |prev| && |next| == |prev|
  {
    (if next[left].Some? && next[left].value < |prev| then prev[next[left].value := Some(x)] else prev)[x := Some(left)]
  }

  // They put x into the chain right after left, and leave every other chain.
  lemma LinkKeeps(next: Link, prev: Link, lists: seq<seq<nat>>, g: nat, p: nat, x: nat)
    requires LinksOk(next, prev, lists) && g < |lists| && p < |lists[g]|
    requires x < |next| && next[x].None? && prev[x].None?
    requires forall h, j :: 0 <= h < |lists| && 0 <= j < |lists[h]| ==> lists[h][j] != x
    ensures var left := lists[g][p];
      && left < |next| && (next[left].Some? ==> next[left].value < |prev|)
      && LinksOk(LinkNext(next, left, x), LinkPrev(next, prev, left, x), InsertedAfter(lists, g, p, x))
  {
    var left := lists[g][p];
    assert Chain(next, prev, lists[g]);
    assert LinkedAt(next, prev, lists[g], p);
    assert p + 1 < |lists[g]| ==> LinkedAt(next, prev, lists[g], p + 1);
    var n2, p2, l2 := LinkNext(next, left, x), LinkPrev(next, prev, left, x), InsertedAfter(lists, g, p, x);
    forall h | 0 <= h < |lists| ensures Chain(n2, p2, l2[h]) {
      assert Chain(next, prev, lists[h]);
      forall i | 0 <= i < |l2[h]| ensures LinkedAt(n2, p2, l2[h], i) {
        if h == g {
          SameChain(next, prev, lists, g, p, x, i);
        } else {
          OtherChain(next, prev, lists, g, p, x, h, i);
        }
      }
    }
    InsertDistinct(lists, g, p, x);
  }

  lemma SameChain(next: Link, prev: Link, lists: seq<seq<nat>>, g: nat, p: nat, x: nat, i: nat)
    requires |next| == |prev| && Distinct(lists) && g < |lists| && p < |lists[g]| && Chain(next, prev, lists[g])
    requires x < |next| && next[x].None? && prev[x].None?
    requires forall h, j :: 0 <= h < |lists| && 0 <= j < |lists[h]| ==> lists[h][j] != x
    requires lists[g][p] < |next| && i < |InsertedAfter(lists, g, p, x)[g]|
    ensures var left := lists[g][p];
      LinkedAt(LinkNext(next, left, x), LinkPrev(next, prev, left, x), InsertedAfter(lists, g, p, x)[g], i)
  {
    var ids := lists[g];
    var ids2 := InsertedAfter(lists, g, p, x)[g];
    assert LinkedAt(next, prev, ids, p);
    assert p + 1 < |ids| ==> LinkedAt(next, prev, ids, p + 1);
    if i <= p {
      assert LinkedAt(next, prev, ids, i);
    } else if i > p + 1 {
      assert LinkedAt(next, prev, ids, i - 1);
    }
  }

  lemma OtherChain(next: Link, prev: Link, lists: seq<seq<nat>>, g: nat, p: nat, x: nat, h: nat, i: nat)
    requires |next| == |prev| && Distinct(lists) && g < |lists| && p < |lists[g]| && Chain(next, prev, lists[g])
    requires h < |lists| && h != g && Chain(next, prev, lists[h]) && x < |next|
    requires forall h, j :: 0 <= h < |lists| && 0 <= j < |lists[h]| ==> lists[h][j] != x
    requires lists[g][p] < |next| && i < |lists[h]|
    ensures var left := lists[g][p];
      LinkedAt(LinkNext(next, left, x), LinkPrev(next, prev, left, x), lists[h], i)
  {
    assert LinkedAt(next, prev, lists[g], p);
    assert LinkedAt(next, prev, lists[h], i);
    assert p + 1 < |lists[g]| ==> lists[g][p + 1] != lists[h][i];
  }

  lemma InsertDistinct(lists: seq<seq<nat>>, g: nat, p: nat, x: nat)
    requires Distinct(lists) && g < |lists| && p < |lists[g]|
    requires forall h, j :: 0 <= h < |lists| && 0 <= j < |lists[h]| ==> lists[h][j] != x
    ensures Distinct(InsertedAfter(lists, g, p, x))
  {
    var l2 := InsertedAfter(lists, g, p, x);
    forall a, i, b, j |
      0 <= a < |l2| && 0 <= i < |l2[a]| && 0 <= b < |l2| && 0 <= j < |l2[b]| && l2[a][i] == l2[b][j]
      ensures a == b && i == j
    {
      InsertOrigin(lists, g, p, x, a, i);
      InsertOrigin(lists, g, p, x, b, j);
    }
  }

  lemma InsertOrigin(lists: seq<seq<nat>>, g: nat, p: nat, x: nat, a: nat, i: nat)
    requires g < |lists| && p < |lists[g]| && a < |lists|
    requires i < |InsertedAfter(lists, g, p, x)[a]|
    ensures var v := InsertedAfter(lists, g, p, x)[a][i];
      if a == g && i == p + 1 then v == x
      else
        var k := if a == g && i > p + 1 then i - 1 else i;
        k < |lists[a]| && v == lists[a][k]
  {
  }

  // Fresh nodes at the end of the arena touch no chain.
  lemma GrowKeeps(next: Link, prev: Link, lists: seq<seq<nat>>)
    requires LinksOk(next, prev, lists)
    ensures LinksOk(next + [None], prev + [None], lists)
    ensures forall h, j :: 0 <= h < |lists| && 0 <= j < |lists[h]| ==> lists[h][j] < |next|
  {
    forall h, j | 0 <= h < |lists| && 0 <= j < |lists[h]|
      ensures lists[h][j] < |next| && LinkedAt(next + [None], prev + [None], lists[h], j)
    {
      assert Chain(next, prev, lists[h]);
      assert LinkedAt(next, prev, lists[h], j);
    }
  }

  // A new topmost list of one unlinked node.
  lemma NewTop(next: Link, prev: Link, lists: seq<seq<nat>>, x: nat)
    requires LinksOk(next, prev, lists) && x < |next| && next[x].None? && prev[x].None?
    requires forall h, j :: 0 <= h < |lists| && 0 <= j < |lists[h]| ==> lists[h][j] != x
    ensures LinksOk(next, prev, lists + [[x]])
  {
    var l2 := lists + [[x]];
    forall h | 0 <= h < |l2| ensures Chain(next, prev, l2[h]) {
      assert h < |lists| ==> Chain(next, prev, lists[h]);
    }
  }
}
