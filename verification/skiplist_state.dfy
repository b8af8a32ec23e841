// The chain of a skiplist (lib1.c:4513-4549): its nodes in key order, how tall
// each is, and the links every level must hold.

module SkipListState {
  import opened Option
  import opened KvApi
  import opened KeyOrder
  import opened SortedEntries

  // Links of the head node n0; the others have as many as they are tall.
  const HEAD_LINKS: nat := 64

  type Links = seq<seq<Option<nat>>>

  // The entries along the chain; position 0 is the head, whose pointer is null.
  function Entries(kvs: seq<Option<Kv>>, chain: seq<nat>): (es: seq<Option<Kv>>)
    requires forall p :: 0 <= p < |chain| ==> chain[p] < |kvs|
  {
    seq(|chain|, p requires 0 <= p < |chain| => kvs[chain[p]])
  }

  function Heights(nxt: Links, chain: seq<nat>): (hts: seq<nat>)
    requires forall p :: 0 <= p < |chain| ==> chain[p] < |nxt|
  {
    seq(|chain|, p requires 0 <= p < |chain| => |nxt[chain[p]]|)
  }

  // The first position after p taller than level l, or the end.
  function NextAt(hts: seq<nat>, p: nat, l: nat): (q: nat)
    requires p < |hts|
    ensures p < q <= |hts|
    decreases |hts| - p
  {
    if p + 1 == |hts| || hts[p + 1] > l then p + 1 else NextAt(hts, p + 1, l)
  }

  // q is the first position after p taller than level l, or the end.
  ghost predicate IsNext(hts: seq<nat>, p: nat, l: nat, q: nat) {
    && p < q <= |hts|
    && (q < |hts| ==> hts[q] > l)
    && forall j :: p < j < q ==> hts[j] <= l
  }

  lemma {:induction false} NextIs(hts: seq<nat>, p: nat, l: nat)
    requires p < |hts|
    ensures IsNext(hts, p, l, NextAt(hts, p, l))
    decreases |hts| - p
  {
    if !(p + 1 == |hts| || hts[p + 1] > l) {
      NextIs(hts, p + 1, l);
    }
  }

  lemma {:induction false} NextOnly(hts: seq<nat>, p: nat, l: nat, q: nat)
    requires p < |hts| && IsNext(hts, p, l, q)
    ensures NextAt(hts, p, l) == q
  {
    NextIs(hts, p, l);
  }

  // Position p is the last one up to i that level l passes through.
  ghost predicate Before(hts: seq<nat>, p: nat, l: nat, i: nat) {
    p < |hts| && hts[p] > l && p <= i < NextAt(hts, p, l)
  }

  // There is only one such position.
  lemma PrevOnly(hts: seq<nat>, p1: nat, p2: nat, l: nat, i: nat)
    requires Before(hts, p1, l, i) && Before(hts, p2, l, i)
    ensures p1 == p2
  {
    NextIs(hts, p1, l);
    NextIs(hts, p2, l);
  }

  // The link to a position; the end is null.
  function Link(chain: seq<nat>, q: nat): Option<nat> {
    if q < |chain| then Some(chain[q]) else None
  }

  ghost predicate Linked(nxt: Links, chain: seq<nat>)
    requires forall p :: 0 <= p < |chain| ==> chain[p] < |nxt|
  {
    forall p, l :: 0 <= p < |chain| && 0 <= l < |nxt[chain[p]]| ==>
      nxt[chain[p]][l] == Link(chain, NextAt(Heights(nxt, chain), p, l))
  }

  lemma {:induction false} LinkedAt(nxt: Links, chain: seq<nat>, p: nat, l: nat)
    requires forall p :: 0 <= p < |chain| ==> chain[p] < |nxt|
    requires Linked(nxt, chain) && p < |chain| && l < |nxt[chain[p]]|
    ensures nxt[chain[p]][l] == Link(chain, NextAt(Heights(nxt, chain), p, l))
  {
  }

  // The chain goes through distinct nodes, starting at the head.
  ghost predicate Chained(kvs: seq<Option<Kv>>, nxt: Links, chain: seq<nat>, height: nat) {
    && |kvs| == |nxt| && chain != [] && chain[0] == 0
    && (forall p :: 0 <= p < |chain| ==> chain[p] < |kvs|)
    && (forall p, q :: 0 <= p < q < |chain| ==> chain[p] != chain[q])
    && |nxt[0]| == HEAD_LINKS && kvs[0].None?
    && 1 <= height < HEAD_LINKS
    && (forall p :: 0 < p < |chain| ==> kvs[chain[p]].Some? && 1 <= |nxt[chain[p]]| <= height)
  }

  // Every level links exactly the nodes tall enough for it, in key order.
  ghost predicate Valid(kvs: seq<Option<Kv>>, nxt: Links, chain: seq<nat>, height: nat) {
    && Chained(kvs, nxt, chain, height)
    && Linked(nxt, chain)
    && Sorted(Keys(Entries(kvs, chain)))
  }

  // ---- inserting and removing a position ----

  function Insert<T>(s: seq<T>, i: nat, x: T): seq<T>
    requires i < |s|
  {
    s[..i + 1] + [x] + s[i + 1..]
  }

  function Remove<T>(s: seq<T>, i: nat): seq<T>
    requires i < |s|
  {
    s[..i] + s[i + 1..]
  }

  // After inserting a node of height ht behind position i: the old positions
  // shift, and only a link that jumped over i changes its target.
  lemma InsertNext(hts: seq<nat>, i: nat, ht: nat, p: nat, l: nat)
    requires i < |hts| && p <= |hts|
    ensures var h2 := Insert<nat>(hts, i, ht);
      NextAt(h2, p, l) ==
        if p <= i then
          var q := NextAt(hts, p, l);
          if q <= i then q else if ht > l then i + 1 else q + 1
        else NextAt(hts, p - 1, l) + 1
  {
    var h2 := Insert<nat>(hts, i, ht);
    var p0 := if p <= i then p else p - 1;
    var q := NextAt(hts, p0, l);
    NextIs(hts, p0, l);
    assert forall j :: 0 <= j <= i ==> h2[j] == hts[j];
    assert forall j :: i + 1 < j < |h2| ==> h2[j] == hts[j - 1];
    assert h2[i + 1] == ht;
    NextOnly(h2, p, l, if p <= i then (if q <= i then q else if ht > l then i + 1 else q + 1) else q + 1);
  }

  lemma RemoveNext(hts: seq<nat>, d: nat, p: nat, l: nat)
    requires d < |hts| && p + 1 < |hts|
    ensures var h2 := Remove<nat>(hts, d);
      NextAt(h2, p, l) ==
        if p < d then
          var q := NextAt(hts, p, l);
          if q < d then q else if q == d then NextAt(hts, d, l) - 1 else q - 1
        else NextAt(hts, p + 1, l) - 1
  {
    var h2 := Remove<nat>(hts, d);
    var p0 := if p < d then p else p + 1;
    var q := NextAt(hts, p0, l);
    NextIs(hts, p0, l);
    NextIs(hts, d, l);
    assert forall j :: 0 <= j < d ==> h2[j] == hts[j];
    assert forall j :: d <= j < |h2| ==> h2[j] == hts[j + 1];
    NextOnly(h2, p, l,
      if p < d then (if q < d then q else if q == d then NextAt(hts, d, l) - 1 else q - 1) else q - 1);
  }

  // ---- skiplist_set and skiplist_del on the links ----

  // x is the path's node of level l, among the first n levels.
  predicate OnPath(path: seq<nat>, n: nat, x: nat, l: nat) {
    l < n && l < |path| && path[l] == x
  }

  // Levels 0..n of the new node id have been linked in behind the path.
  ghost predicate Spliced(nxt: Links, nxt2: Links, path: seq<nat>, ht: nat, n: nat) {
    var id := |nxt|;
    && n <= ht && n <= |path|
    && |nxt2| == id + 1 && |nxt2[id]| == ht
    && (forall x :: 0 <= x < id ==> |nxt2[x]| == |nxt[x]|)
    && (forall x, l {:trigger nxt2[x][l]} :: 0 <= x < id && 0 <= l < |nxt[x]| ==>
      nxt2[x][l] == if OnPath(path, n, x, l) then Some(id) else nxt[x][l])
    && (forall l :: 0 <= l < n ==> path[l] < id && l < |nxt[path[l]]| && nxt2[id][l] == nxt[path[l]][l])
  }

  // Linking one more level in.
  lemma SpliceMore(nxt: Links, nxt2: Links, path: seq<nat>, ht: nat, n: nat)
    requires Spliced(nxt, nxt2, path, ht, n) && n < ht && n < |path|
    requires path[n] < |nxt| && n < |nxt[path[n]]|
    ensures var id := |nxt|;
      var nxt3 := nxt2[id := nxt2[id][n := nxt2[path[n]][n]]];
      Spliced(nxt, nxt3[path[n] := nxt3[path[n]][n := Some(id)]], path, ht, n + 1)
  {
  }

  // path[l] is the node at position pp[l], the last one at level l up to i.
  ghost predicate PathTo(hts: seq<nat>, chain: seq<nat>, path: seq<nat>, pp: seq<nat>, n: nat, i: nat) {
    && n <= |path| && n <= |pp|
    && forall l :: 0 <= l < n ==> Before(hts, pp[l], l, i) && pp[l] < |chain| && path[l] == chain[pp[l]]
  }

  lemma SpliceLengths(nxt: Links, nxt2: Links, path: seq<nat>, ht: nat, n: nat)
    requires Spliced(nxt, nxt2, path, ht, n)
    ensures |nxt2| == |nxt| + 1 && |nxt2[|nxt|]| == ht && forall x :: 0 <= x < |nxt| ==> |nxt2[x]| == |nxt[x]|
  {
  }

  lemma SpliceHeights(nxt: Links, chain: seq<nat>, nxt2: Links, path: seq<nat>, ht: nat, i: nat)
    requires forall p :: 0 <= p < |chain| ==> chain[p] < |nxt|
    requires i < |chain| && Spliced(nxt, nxt2, path, ht, ht)
    ensures |nxt2| == |nxt| + 1 && |Insert<nat>(chain, i, |nxt|)| == |chain| + 1
    ensures forall p :: 0 <= p <= |chain| ==> Insert<nat>(chain, i, |nxt|)[p] < |nxt2|
    ensures Heights(nxt2, Insert<nat>(chain, i, |nxt|)) == Insert<nat>(Heights(nxt, chain), i, ht)
  {
    hide Spliced;
    InsertAt<nat>(chain, i, |nxt|);
    InsertAt<nat>(Heights(nxt, chain), i, ht);
    SpliceLengths(nxt, nxt2, path, ht, ht);
  }

  lemma SpliceLinks(kvs: seq<Option<Kv>>, nxt: Links, chain: seq<nat>, height: nat,
                    nxt2: Links, path: seq<nat>, pp: seq<nat>, ht: nat, i: nat)
    requires Chained(kvs, nxt, chain, height) && Linked(nxt, chain)
    requires i < |chain| && PathTo(Heights(nxt, chain), chain, path, pp, ht, i)
    requires Spliced(nxt, nxt2, path, ht, ht)
    ensures forall p :: 0 <= p < |Insert<nat>(chain, i, |nxt|)| ==> Insert<nat>(chain, i, |nxt|)[p] < |nxt2|
    ensures Heights(nxt2, Insert<nat>(chain, i, |nxt|)) == Insert<nat>(Heights(nxt, chain), i, ht)
    ensures Linked(nxt2, Insert<nat>(chain, i, |nxt|))
  {
    hide NextAt, Link, PathTo, Spliced;
    var id := |nxt|;
    var c2 := Insert<nat>(chain, i, id);
    var hts := Heights(nxt, chain);
    SpliceHeights(nxt, chain, nxt2, path, ht, i);
    hide Insert;
    forall p, l | 0 <= p < |c2| && 0 <= l < |nxt2[c2[p]]|
      ensures nxt2[c2[p]][l] == Link(c2, NextAt(Heights(nxt2, c2), p, l))
    {
      SpliceLink(kvs, nxt, chain, height, nxt2, path, pp, ht, i, p, l);
    }
  }

  lemma InsertAt<T>(s: seq<T>, i: nat, x: T)
    requires i < |s|
    ensures |Insert(s, i, x)| == |s| + 1 && Insert(s, i, x)[i + 1] == x
    ensures forall j :: 0 <= j <= i ==> Insert(s, i, x)[j] == s[j]
    ensures forall j :: i + 1 < j <= |s| ==> Insert(s, i, x)[j] == s[j - 1]
    ensures forall j :: i < j < |s| ==> Insert(s, i, x)[j + 1] == s[j]
  {
  }

  lemma {:induction false} SpliceLink(kvs: seq<Option<Kv>>, nxt: Links, chain: seq<nat>, height: nat,
                   nxt2: Links, path: seq<nat>, pp: seq<nat>, ht: nat, i: nat, p: nat, l: nat)
    requires Chained(kvs, nxt, chain, height) && Linked(nxt, chain)
    requires i < |chain| && PathTo(Heights(nxt, chain), chain, path, pp, ht, i)
    requires Spliced(nxt, nxt2, path, ht, ht)
    requires p <= |chain| && l < |nxt2[Insert<nat>(chain, i, |nxt|)[p]]|
    ensures var c2 := Insert<nat>(chain, i, |nxt|);
      nxt2[c2[p]][l] == Link(c2, NextAt(Insert<nat>(Heights(nxt, chain), i, ht), p, l))
  {
    hide Sorted, Linked, Link, Insert, PathTo, NextAt;
    var id := |nxt|;
    var hts := Heights(nxt, chain);
    InsertAt<nat>(chain, i, id);
    InsertNext(hts, i, ht, p, l);
    if p == i + 1 {
      SpliceNew(nxt, chain, nxt2, path, pp, ht, i, l);
      LinkShift(chain, i, id, NextAt(hts, i, l));
    } else {
      var p0 := if p <= i then p else p - 1;
      SpliceOld(nxt, chain, nxt2, path, pp, ht, i, p0, l);
      LinkedAt(nxt, chain, p0, l);
      LinkShift(chain, i, id, NextAt(hts, p0, l));
    }
  }

  lemma LinkShift(chain: seq<nat>, i: nat, id: nat, q: nat)
    requires i < |chain|
    ensures q <= i ==> Link(Insert<nat>(chain, i, id), q) == Link(chain, q)
    ensures q > i ==> Link(Insert<nat>(chain, i, id), q + 1) == Link(chain, q)
    ensures Link(Insert<nat>(chain, i, id), i + 1) == Some(id)
  {
  }

  // The new node's links go on where its path led.
  lemma {:induction false} SpliceNew(nxt: Links, chain: seq<nat>, nxt2: Links, path: seq<nat>, pp: seq<nat>, ht: nat, i: nat, l: nat)
    requires forall p :: 0 <= p < |chain| ==> chain[p] < |nxt|
    requires Linked(nxt, chain) && i < |chain| && l < ht
    requires PathTo(Heights(nxt, chain), chain, path, pp, ht, i)
    requires Spliced(nxt, nxt2, path, ht, ht)
    ensures NextAt(Heights(nxt, chain), i, l) > i
    ensures nxt2[|nxt|][l] == Link(chain, NextAt(Heights(nxt, chain), i, l))
  {
    var hts := Heights(nxt, chain);
    assert Before(hts, pp[l], l, i) && path[l] == chain[pp[l]];
    LinkedAt(nxt, chain, pp[l], l);
    PassesOver(hts, i, pp[l], l);
  }

  // The links of the old nodes: only those of the path now lead to the new one.
  lemma {:induction false} SpliceOld(nxt: Links, chain: seq<nat>, nxt2: Links, path: seq<nat>, pp: seq<nat>,
                  ht: nat, i: nat, p: nat, l: nat)
    requires forall p :: 0 <= p < |chain| ==> chain[p] < |nxt|
    requires forall p, q :: 0 <= p < q < |chain| ==> chain[p] != chain[q]
    requires p < |chain| && l < |nxt[chain[p]]| && i < |chain|
    requires PathTo(Heights(nxt, chain), chain, path, pp, ht, i)
    requires Spliced(nxt, nxt2, path, ht, ht)
    ensures nxt2[chain[p]][l] ==
            if l < ht && p <= i < NextAt(Heights(nxt, chain), p, l) then Some(|nxt|) else nxt[chain[p]][l]
  {
    var hts := Heights(nxt, chain);
    if l < ht {
      if p <= i < NextAt(hts, p, l) {
        PrevOnly(hts, p, pp[l], l, i);
      } else {
        assert pp[l] != p;
      }
    }
  }

  // From i, level l goes on where the last node of that level up to i does.
  lemma {:induction false} PassesOver(hts: seq<nat>, i: nat, p: nat, l: nat)
    requires i < |hts| && Before(hts, p, l, i)
    ensures i < NextAt(hts, i, l) == NextAt(hts, p, l)
  {
    NextIs(hts, p, l);
    NextOnly(hts, i, l, NextAt(hts, p, l));
  }

  // A new node keeps the list valid and stands right behind position i.
  lemma InsertKeeps(kvs: seq<Option<Kv>>, nxt: Links, chain: seq<nat>, height: nat,
                    nxt2: Links, path: seq<nat>, pp: seq<nat>, ht: nat, i: nat, kv: Kv)
    requires Valid(kvs, nxt, chain, height) && 1 <= ht < HEAD_LINKS
    requires i < |chain| && PathTo(Heights(nxt, chain), chain, path, pp, ht, i)
    requires Spliced(nxt, nxt2, path, ht, ht)
    requires IsLoc(Keys(Entries(kvs, chain)), Some(kv.key), i)
    requires Less(Keys(Entries(kvs, chain))[i], Some(kv.key))
    ensures Valid(kvs + [Some(kv)], nxt2, Insert<nat>(chain, i, |nxt|), if ht > height then ht else height)
    ensures Entries(kvs + [Some(kv)], Insert<nat>(chain, i, |nxt|)) == Insert(Entries(kvs, chain), i, Some(kv))
  {
    hide Less;
    var id := |nxt|;
    var c2 := Insert<nat>(chain, i, id);
    SpliceLinks(kvs, nxt, chain, height, nxt2, path, pp, ht, i);
    InsertEntries(kvs, chain, i, kv);
    InsertSorted(Entries(kvs, chain), i, kv);
    InsertChained(kvs, nxt, chain, height, nxt2, ht, i, kv);
  }

  lemma InsertEntries(kvs: seq<Option<Kv>>, chain: seq<nat>, i: nat, kv: Kv)
    requires forall p :: 0 <= p < |chain| ==> chain[p] < |kvs|
    requires i < |chain|
    ensures forall p :: 0 <= p < |Insert<nat>(chain, i, |kvs|)| ==> Insert<nat>(chain, i, |kvs|)[p] <= |kvs|
    ensures Entries(kvs + [Some(kv)], Insert<nat>(chain, i, |kvs|)) == Insert(Entries(kvs, chain), i, Some(kv))
  {
    InsertAt<nat>(chain, i, |kvs|);
    InsertAt(Entries(kvs, chain), i, Some(kv));
  }

  lemma InsertChained(kvs: seq<Option<Kv>>, nxt: Links, chain: seq<nat>, height: nat, nxt2: Links, ht: nat, i: nat, kv: Kv)
    requires Chained(kvs, nxt, chain, height) && 1 <= ht < HEAD_LINKS && i < |chain|
    requires |nxt2| == |nxt| + 1 && |nxt2[|nxt|]| == ht
    requires forall x :: 0 <= x < |nxt| ==> |nxt2[x]| == |nxt[x]|
    ensures Chained(kvs + [Some(kv)], nxt2, Insert<nat>(chain, i, |nxt|), if ht > height then ht else height)
  {
    InsertAt<nat>(chain, i, |nxt|);
    hide Insert;
    var c2 := Insert<nat>(chain, i, |nxt|);
    forall p, q | 0 <= p < q < |c2| ensures c2[p] != c2[q] {
      assert p != i + 1 ==> c2[p] == chain[if p <= i then p else p - 1];
      assert q != i + 1 ==> c2[q] == chain[if q <= i then q else q - 1];
    }
    forall p | 0 < p < |c2|
      ensures (kvs + [Some(kv)])[c2[p]].Some? && 1 <= |nxt2[c2[p]]| <= if ht > height then ht else height
    {
      assert p != i + 1 ==> c2[p] == chain[if p <= i then p else p - 1];
    }
  }

  // ---- removing a node ----

  // Levels 0..n of the node del have been bypassed along the path.
  ghost predicate Bypassed(nxt: Links, nxt2: Links, path: seq<nat>, del: nat, n: nat) {
    && n <= |path| && del < |nxt| && n <= |nxt[del]|
    && |nxt2| == |nxt|
    && (forall x :: 0 <= x < |nxt| ==> |nxt2[x]| == |nxt[x]|)
    && (forall x, l {:trigger nxt2[x][l]} :: 0 <= x < |nxt| && 0 <= l < |nxt[x]| ==>
      nxt2[x][l] == if OnPath(path, n, x, l) then nxt[del][l] else nxt[x][l])
  }

  // Bypassing the node on one more level.
  lemma BypassMore(nxt: Links, nxt2: Links, path: seq<nat>, del: nat, n: nat)
    requires Bypassed(nxt, nxt2, path, del, n) && n < |path| && n < |nxt[del]|
    requires path[n] < |nxt| && n < |nxt[path[n]]| && forall l :: 0 <= l <= n ==> path[l] != del
    ensures Bypassed(nxt, nxt2[path[n] := nxt2[path[n]][n := nxt2[del][n]]], path, del, n + 1)
  {
    assert !OnPath(path, n, del, n);
  }

  lemma RemoveAt<T>(s: seq<T>, d: nat)
    requires d < |s|
    ensures |Remove(s, d)| == |s| - 1
    ensures forall j :: 0 <= j < d ==> Remove(s, d)[j] == s[j]
    ensures forall j :: d <= j < |s| - 1 ==> Remove(s, d)[j] == s[j + 1]
    ensures forall j :: d < j < |s| ==> Remove(s, d)[j - 1] == s[j]
  {
  }

  // The links of the other nodes: only those of the path now skip the node.
  lemma {:induction false} BypassOld(nxt: Links, chain: seq<nat>, nxt2: Links, path: seq<nat>, pp: seq<nat>, d: nat, p: nat, l: nat)
    requires forall p :: 0 <= p < |chain| ==> chain[p] < |nxt|
    requires forall p, q :: 0 <= p < q < |chain| ==> chain[p] != chain[q]
    requires Linked(nxt, chain)
    requires p < |chain| && l < |nxt[chain[p]]| && 0 < d < |chain| && p != d
    requires PathTo(Heights(nxt, chain), chain, path, pp, |nxt[chain[d]]|, d - 1)
    requires Bypassed(nxt, nxt2, path, chain[d], |nxt[chain[d]]|)
    ensures var hts := Heights(nxt, chain);
      nxt2[chain[p]][l] == Link(chain, if NextAt(hts, p, l) == d then NextAt(hts, d, l) else NextAt(hts, p, l))
  {
    hide Linked, Link;
    var hts := Heights(nxt, chain);
    LinkedAt(nxt, chain, p, l);
    NextIs(hts, p, l);
    assert hts[d] == |nxt[chain[d]]|;
    if l < hts[d] {
      assert Before(hts, pp[l], l, d - 1) && path[l] == chain[pp[l]];
      LinkedAt(nxt, chain, d, l);
      NextIs(hts, pp[l], l);
      if NextAt(hts, p, l) == d {
        PrevOnly(hts, p, pp[l], l, d - 1);
      } else {
        assert NextAt(hts, pp[l], l) == d;
        assert pp[l] != p;
      }
    }
  }

  lemma UnlinkShift(chain: seq<nat>, d: nat, q: nat)
    requires d < |chain|
    ensures q < d ==> Link(Remove<nat>(chain, d), q) == Link(chain, q)
    ensures q > d ==> Link(Remove<nat>(chain, d), q - 1) == Link(chain, q)
  {
  }

  lemma BypassLengths(nxt: Links, nxt2: Links, path: seq<nat>, del: nat, n: nat)
    requires Bypassed(nxt, nxt2, path, del, n)
    ensures |nxt2| == |nxt| && forall x :: 0 <= x < |nxt| ==> |nxt2[x]| == |nxt[x]|
  {
  }

  lemma BypassHeights(nxt: Links, chain: seq<nat>, nxt2: Links, path: seq<nat>, n: nat, d: nat)
    requires forall p :: 0 <= p < |chain| ==> chain[p] < |nxt|
    requires d < |chain| && Bypassed(nxt, nxt2, path, chain[d], n)
    ensures |nxt2| == |nxt| && |Remove<nat>(chain, d)| == |chain| - 1
    ensures forall p :: 0 <= p < |chain| - 1 ==> Remove<nat>(chain, d)[p] == chain[if p < d then p else p + 1]
    ensures forall p :: 0 <= p < |chain| - 1 ==> Remove<nat>(chain, d)[p] < |nxt2|
    ensures forall x :: 0 <= x < |nxt| ==> |nxt2[x]| == |nxt[x]|
    ensures Heights(nxt2, Remove<nat>(chain, d)) == Remove<nat>(Heights(nxt, chain), d)
  {
    hide Bypassed;
    RemoveAt<nat>(chain, d);
    RemoveAt<nat>(Heights(nxt, chain), d);
    BypassLengths(nxt, nxt2, path, chain[d], n);
  }

  lemma BypassLinks(kvs: seq<Option<Kv>>, nxt: Links, chain: seq<nat>, height: nat,
                    nxt2: Links, path: seq<nat>, pp: seq<nat>, d: nat)
    requires Chained(kvs, nxt, chain, height) && Linked(nxt, chain) && 0 < d < |chain|
    requires PathTo(Heights(nxt, chain), chain, path, pp, |nxt[chain[d]]|, d - 1)
    requires Bypassed(nxt, nxt2, path, chain[d], |nxt[chain[d]]|)
    ensures forall p :: 0 <= p < |Remove<nat>(chain, d)| ==> Remove<nat>(chain, d)[p] < |nxt2|
    ensures Linked(nxt2, Remove<nat>(chain, d))
  {
    hide NextAt, Link, PathTo, Bypassed;
    var c2 := Remove<nat>(chain, d);
    var hts := Heights(nxt, chain);
    BypassHeights(nxt, chain, nxt2, path, |nxt[chain[d]]|, d);
    hide Remove;
    forall p, l | 0 <= p < |c2| && 0 <= l < |nxt2[c2[p]]|
      ensures nxt2[c2[p]][l] == Link(c2, NextAt(Heights(nxt2, c2), p, l))
    {
      RemoveNext(hts, d, p, l);
      BypassLink(kvs, nxt, chain, height, nxt2, path, pp, d, if p < d then p else p + 1, l);
    }
  }

  lemma {:induction false} BypassLink(kvs: seq<Option<Kv>>, nxt: Links, chain: seq<nat>, height: nat,
                   nxt2: Links, path: seq<nat>, pp: seq<nat>, d: nat, p: nat, l: nat)
    requires Chained(kvs, nxt, chain, height) && Linked(nxt, chain) && 0 < d < |chain|
    requires PathTo(Heights(nxt, chain), chain, path, pp, |nxt[chain[d]]|, d - 1)
    requires Bypassed(nxt, nxt2, path, chain[d], |nxt[chain[d]]|)
    requires p < |chain| && p != d && l < |nxt[chain[p]]|
    ensures var c2, q := Remove<nat>(chain, d), NextAt(Heights(nxt, chain), p, l);
      nxt2[chain[p]][l] == Link(c2,
        if q < d then q else if q == d then NextAt(Heights(nxt, chain), d, l) - 1 else q - 1)
  {
    hide NextAt, Linked, Link, Remove, PathTo, Bypassed;
    var hts := Heights(nxt, chain);
    BypassOld(nxt, chain, nxt2, path, pp, d, p, l);
    UnlinkShift(chain, d, NextAt(hts, p, l));
    UnlinkShift(chain, d, NextAt(hts, d, l));
  }

  // Unlinking a node from all of its levels keeps the list valid without it.
  lemma RemoveKeeps(kvs: seq<Option<Kv>>, nxt: Links, chain: seq<nat>, height: nat,
                    nxt2: Links, path: seq<nat>, pp: seq<nat>, d: nat)
    requires Valid(kvs, nxt, chain, height) && 0 < d < |chain|
    requires PathTo(Heights(nxt, chain), chain, path, pp, |nxt[chain[d]]|, d - 1)
    requires Bypassed(nxt, nxt2, path, chain[d], |nxt[chain[d]]|)
    ensures Valid(kvs, nxt2, Remove<nat>(chain, d), height)
    ensures Entries(kvs, Remove<nat>(chain, d)) == Remove(Entries(kvs, chain), d)
  {
    hide Less;
    BypassLinks(kvs, nxt, chain, height, nxt2, path, pp, d);
    RemoveChained(kvs, nxt, chain, height, nxt2, d);
    RemoveAt<nat>(chain, d);
    RemoveAt(Entries(kvs, chain), d);
    assert Entries(kvs, Remove<nat>(chain, d)) == Remove(Entries(kvs, chain), d);
    RemoveSorted(Entries(kvs, chain), d);
  }

  lemma RemoveSorted(es: seq<Option<Kv>>, d: nat)
    requires Sorted(Keys(es)) && d < |es|
    ensures Sorted(Keys(Remove(es, d)))
  {
    hide Less;
    RemoveAt(es, d);
    var ks, k2 := Keys(es), Keys(Remove(es, d));
    forall a, b | 0 <= a < b < |k2| ensures Less(k2[a], k2[b]) {
      var a0, b0 := if a < d then a else a + 1, if b < d then b else b + 1;
      assert k2[a] == ks[a0] && k2[b] == ks[b0];
    }
  }

  lemma RemoveChained(kvs: seq<Option<Kv>>, nxt: Links, chain: seq<nat>, height: nat, nxt2: Links, d: nat)
    requires Chained(kvs, nxt, chain, height) && 0 < d < |chain|
    requires |nxt2| == |nxt| && forall x :: 0 <= x < |nxt| ==> |nxt2[x]| == |nxt[x]|
    ensures Chained(kvs, nxt2, Remove<nat>(chain, d), height)
  {
    RemoveAt<nat>(chain, d);
    hide Remove;
    var c2 := Remove<nat>(chain, d);
    forall p, q | 0 <= p < q < |c2| ensures c2[p] != c2[q] {
      assert c2[p] == chain[if p < d then p else p + 1];
      assert c2[q] == chain[if q < d then q else q + 1];
    }
    forall p | 0 < p < |c2| ensures kvs[c2[p]].Some? && 1 <= |nxt2[c2[p]]| <= height {
      assert c2[p] == chain[if p < d then p else p + 1];
    }
  }

  // Removing one entry takes exactly its key out of the map.
  lemma {:induction false} MapOfRemove(es: seq<Option<Kv>>, d: nat)
    requires Sorted(Keys(es)) && d < |es| && es[d].Some?
    ensures MapOf(Remove(es, d)) == MapOf(es) - {es[d].value.key}
  {
    hide Less;
    RemoveSorted(es, d);
    MapOfLists(es);
    MapOfLists(Remove(es, d));
    RemoveLists(es, MapOf(es), d);
    ListsUnique(MapOf(Remove(es, d)), MapOf(es) - {es[d].value.key}, Remove(es, d));
  }

  lemma RemoveLists(es: seq<Option<Kv>>, m: map<Key, Kv>, d: nat)
    requires Sorted(Keys(es)) && Lists(m, es) && d < |es| && es[d].Some?
    ensures Lists(m - {es[d].value.key}, Remove(es, d))
  {
    hide Less;
    OrderLaws();
    RemoveAt(es, d);
    var e2, m2 := Remove(es, d), m - {es[d].value.key};
    var ks := Keys(es);
    forall a | 0 <= a < |e2| && e2[a].Some? ensures Find(m2, e2[a].value.key) == e2[a] {
      var a0 := if a < d then a else a + 1;
      assert e2[a] == es[a0];
      assert ks[a0] != ks[d] by {
        assert if a0 < d then Less(ks[a0], ks[d]) else Less(ks[d], ks[a0]);
      }
    }
    forall key | key in m2 ensures Some(m2[key]) in e2 && m2[key].key == key {
      var a :| 0 <= a < |es| && es[a] == Some(m[key]);
      assert e2[if a < d then a else a - 1] == es[a];
    }
  }
}
