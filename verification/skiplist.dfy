// The skiplist (lib1.c:4551-4727). Nodes live in an arena: node id has the
// entry kvs[id] and the links nxt[id]; node 0 is the head n0.

module SkipListMap {
  import opened Option
  import opened KvApi
  import opened KeyOrder
  import opened Enumerations
  import opened SortedEntries
  import opened SkipListState

  // ---- searching ----

  // The keys along the chain; the head's is null, below every key.
  function ChainKeys(kvs: seq<Option<Kv>>, chain: seq<nat>): (ks: seq<Option<Key>>)
    requires forall p :: 0 <= p < |chain| ==> chain[p] < |kvs|
    ensures |ks| == |chain|
  {
    Keys(Entries(kvs, chain))
  }

  // What one link of level l leads to.
  lemma Walk(kvs: seq<Option<Kv>>, nxt: Links, chain: seq<nat>, height: nat, p: nat, l: nat) returns (q: nat)
    requires Valid(kvs, nxt, chain, height) && p < |chain| && l < |nxt[chain[p]]|
    ensures q == NextAt(Heights(nxt, chain), p, l) && p < q <= |chain|
    ensures nxt[chain[p]][l] == Link(chain, q)
    ensures q < |chain| ==> chain[q] < |kvs| == |nxt| && kvs[chain[q]].Some? && l < |nxt[chain[q]]|
    ensures q < |chain| ==> ChainKeys(kvs, chain)[q] == KeyOf(kvs[chain[q]])
  {
    q := NextAt(Heights(nxt, chain), p, l);
    NextIs(Heights(nxt, chain), p, l);
    LinkedAt(nxt, chain, p, l);
  }

  // A search for key stops at position p of level l: p is below the key and
  // the next one is above it.
  ghost predicate Stop(hts: seq<nat>, ks: seq<Option<Key>>, key: Key, p: nat, l: nat)
    requires |hts| == |ks|
  {
    && p < |hts| && hts[p] > l && Less(ks[p], Some(key))
    && (NextAt(hts, p, l) < |ks| ==> Less(Some(key), ks[NextAt(hts, p, l)]))
  }

  // A level-0 stop is the key's place.
  lemma StopIsLoc(hts: seq<nat>, ks: seq<Option<Key>>, key: Key, p: nat)
    requires |hts| == |ks| && Sorted(ks) && Stop(hts, ks, key, p, 0)
    requires forall j :: 0 <= j < |hts| ==> hts[j] > 0
    ensures IsLoc(ks, Some(key), p)
  {
    hide Less;
    OrderLaws();
    NextIs(hts, p, 0);
    var q := NextAt(hts, p, 0);
    assert q == p + 1;
    forall j | p < j < |ks| ensures Less(Some(key), ks[j]) {
      assert j > q ==> Less(ks[q], ks[j]);
    }
  }

  // Where the search stopped on level l is the last node of that level up to
  // the key's place.
  lemma StopBefore(hts: seq<nat>, ks: seq<Option<Key>>, key: Key, p: nat, l: nat, i: nat)
    requires |hts| == |ks| && Sorted(ks) && Stop(hts, ks, key, p, l)
    requires IsLoc(ks, Some(key), i) && Less(ks[i], Some(key))
    ensures Before(hts, p, l, i)
  {
    hide Less;
    OrderLaws();
    var q := NextAt(hts, p, l);
    assert forall j :: 0 <= j < i ==> Less(ks[j], ks[i]);
  }

  // No node taller than level l holds the key where the search passed over it.
  lemma StopShort(hts: seq<nat>, ks: seq<Option<Key>>, key: Key, p: nat, l: nat, d: nat)
    requires |hts| == |ks| && Sorted(ks) && Stop(hts, ks, key, p, l)
    requires d < |ks| && Same(Some(key), ks[d])
    ensures hts[d] <= l
  {
    hide Less, Same;
    OrderLaws();
    NextIs(hts, p, l);
    var q := NextAt(hts, p, l);
    if hts[d] > l {
      if p < d {
        assert q < d ==> Less(ks[q], ks[d]);
        NotLess(Some(key), ks[d], ks[q]);
        NotLess(Some(key), ks[d], ks[d]);
      } else {
        assert d < p ==> Less(ks[d], ks[p]);
        NotLess(Some(key), ks[d], ks[p]);
      }
    }
  }

  // The position whose key compares equal is the key's place, and with hashes
  // a function of the bytes it holds that very key.
  lemma FoundAt(kvs: seq<Option<Kv>>, nxt: Links, chain: seq<nat>, height: nat, key: Key, q: nat)
    requires Valid(kvs, nxt, chain, height) && q < |chain|
    requires Agrees(Entries(kvs, chain), key) && Same(Some(key), ChainKeys(kvs, chain)[q])
    ensures IsLoc(ChainKeys(kvs, chain), Some(key), q)
    ensures KeyOf(kvs[chain[q]]) == Some(key)
    ensures Find(MapOf(Entries(kvs, chain)), key) == kvs[chain[q]]
  {
    var es := Entries(kvs, chain);
    var ks := Keys(es);
    SameLoc(ks, Some(key), q);
    LessIsOrder(Some(key), ks[q], None);
    assert es[q].Some? && es[q].value.key.bytes == key.bytes;
    MapOfAt(es, q, key);
  }

  // A key no position holds is not in the map.
  lemma NotFound(kvs: seq<Option<Kv>>, nxt: Links, chain: seq<nat>, height: nat, key: Key)
    requires Valid(kvs, nxt, chain, height)
    requires forall p :: 0 <= p < |chain| ==> KeyOf(kvs[chain[p]]) != Some(key)
    ensures key !in MapOf(Entries(kvs, chain))
  {
    var es := Entries(kvs, chain);
    MapOfLists(es);
    assert forall p :: 0 <= p < |es| ==> KeyOf(es[p]) != Some(key);
  }

  // The bound the search left in `right` cannot hide the key: it is behind
  // position lp, or above the key.
  ghost predicate Bound(ks: seq<Option<Key>>, chain: seq<nat>, key: Key, right: Option<nat>, rp: nat, lp: nat)
    requires |ks| == |chain|
  {
    right.Some? ==> rp < |chain| && right.value == chain[rp] && (rp <= lp || Less(Some(key), ks[rp]))
  }

  // Positions 1..p do not hold the key.
  ghost predicate Passed(ks: seq<Option<Key>>, key: Key, p: nat) {
    p <= |ks| && forall j :: 0 <= j < p ==> ks[j] != Some(key)
  }

  lemma PassedBelow(ks: seq<Option<Key>>, key: Key, lp: nat)
    requires Sorted(ks) && lp < |ks| && Less(ks[lp], Some(key))
    ensures Passed(ks, key, lp + 1)
  {
    hide Less;
    OrderLaws();
    forall j | 0 <= j <= lp ensures ks[j] != Some(key) {
      assert j < lp ==> Less(ks[j], ks[lp]);
    }
  }

  // The scan that reached the bound, or the end, has seen enough.
  lemma ScanDone(ks: seq<Option<Key>>, chain: seq<nat>, key: Key, right: Option<nat>, rp: nat, lp: nat, p: nat)
    requires |ks| == |chain| && Sorted(ks) && Passed(ks, key, p) && lp < p
    requires Bound(ks, chain, key, right, rp, lp)
    requires forall a, b :: 0 <= a < b < |chain| ==> chain[a] != chain[b]
    requires Link(chain, p).None? || Link(chain, p) == right
    ensures Passed(ks, key, |ks|)
  {
    hide Less;
    OrderLaws();
    if p < |chain| {
      assert rp == p;
      forall j | 0 <= j < |ks| ensures ks[j] != Some(key) {
        assert j > p ==> Less(ks[p], ks[j]);
      }
    }
  }

  lemma HeadBelow(kvs: seq<Option<Kv>>, nxt: Links, chain: seq<nat>, height: nat, key: Key)
    requires Valid(kvs, nxt, chain, height)
    ensures 1 <= height < HEAD_LINKS && |nxt| > 0 && |nxt[0]| == HEAD_LINKS && chain != [] && chain[0] == 0
    ensures |kvs| == |nxt| && forall p :: 0 <= p < |chain| ==> chain[p] < |kvs|
    ensures Less(ChainKeys(kvs, chain)[0], Some(key))
  {
  }

  // What one comparison against the key at hand says.
  lemma Compared(key: Option<Key>, other: Option<Key>)
    ensures KeyCompare(key, other) == 0 ==> Same(key, other)
    ensures KeyCompare(key, other) < 0 ==> Less(key, other)
    ensures KeyCompare(key, other) > 0 ==> Less(other, key)
  {
    LessIsOrder(key, other, None);
  }

  // Level 0 goes through every node.
  lemma {:induction false} StepOne(kvs: seq<Option<Kv>>, nxt: Links, chain: seq<nat>, height: nat, p: nat)
    requires Valid(kvs, nxt, chain, height) && p < |chain|
    ensures NextAt(Heights(nxt, chain), p, 0) == p + 1
  {
    NextIs(Heights(nxt, chain), p, 0);
  }

  lemma {:induction false} PassedTo(kvs: seq<Option<Kv>>, nxt: Links, chain: seq<nat>, height: nat, key: Key, lp: nat, p: nat)
    requires Valid(kvs, nxt, chain, height) && lp < |chain| && p == NextAt(Heights(nxt, chain), lp, 0)
    requires Less(ChainKeys(kvs, chain)[lp], Some(key))
    ensures p == lp + 1 && Passed(ChainKeys(kvs, chain), key, p)
  {
    StepOne(kvs, nxt, chain, height, lp);
    PassedBelow(ChainKeys(kvs, chain), key, lp);
  }

  lemma HeldAt(kvs: seq<Option<Kv>>, nxt: Links, chain: seq<nat>, height: nat, key: Key, p: nat)
    requires Valid(kvs, nxt, chain, height) && p < |chain| && KeyOf(kvs[chain[p]]) == Some(key)
    ensures Find(MapOf(Entries(kvs, chain)), key) == kvs[chain[p]]
  {
    var es := Entries(kvs, chain);
    MapOfLists(es);
    assert es[p] == kvs[chain[p]];
  }

  lemma ScanMissed(kvs: seq<Option<Kv>>, nxt: Links, chain: seq<nat>, height: nat, key: Key,
                   right: Option<nat>, rp: nat, lp: nat, p: nat)
    requires Valid(kvs, nxt, chain, height) && lp < p && Passed(ChainKeys(kvs, chain), key, p)
    requires Bound(ChainKeys(kvs, chain), chain, key, right, rp, lp)
    requires Link(chain, p).None? || Link(chain, p) == right
    ensures key !in MapOf(Entries(kvs, chain))
  {
    var ks := ChainKeys(kvs, chain);
    ScanDone(ks, chain, key, right, rp, lp, p);
    assert forall j :: 0 <= j < |chain| ==> KeyOf(kvs[chain[j]]) == ks[j];
    NotFound(kvs, nxt, chain, height, key);
  }

  // The path has stopped on each level from `from` up to `to`.
  ghost predicate Stops(hts: seq<nat>, ks: seq<Option<Key>>, chain: seq<nat>, key: Key,
                        path: seq<nat>, pp: seq<nat>, from: nat, to: nat)
    requires |hts| == |ks| == |chain|
  {
    && to <= |path| && to <= |pp|
    && forall l :: from <= l < to ==> Stop(hts, ks, key, pp[l], l) && path[l] == chain[pp[l]]
  }

  lemma StopsMore(kvs: seq<Option<Kv>>, nxt: Links, chain: seq<nat>, height: nat, key: Key,
                  path: seq<nat>, pp: seq<nat>, h: nat, lp: nat)
    requires Valid(kvs, nxt, chain, height) && h < height && |path| == |pp| == HEAD_LINKS
    requires Stops(Heights(nxt, chain), ChainKeys(kvs, chain), chain, key, path, pp, h + 1, height)
    requires Stop(Heights(nxt, chain), ChainKeys(kvs, chain), key, lp, h)
    ensures Stops(Heights(nxt, chain), ChainKeys(kvs, chain), chain, key, path[h := chain[lp]], pp[h := lp], h, height)
  {
  }

  // The inner search ends at a stop.
  lemma {:induction false} StopHere(kvs: seq<Option<Kv>>, nxt: Links, chain: seq<nat>, height: nat, key: Key, lp: nat, h: nat)
    requires Valid(kvs, nxt, chain, height) && lp < |chain| && h < |nxt[chain[lp]]|
    requires Less(ChainKeys(kvs, chain)[lp], Some(key))
    requires var q := NextAt(Heights(nxt, chain), lp, h);
      nxt[chain[lp]][h].None? || (q < |chain| && Less(Some(key), ChainKeys(kvs, chain)[q]))
    ensures Stop(Heights(nxt, chain), ChainKeys(kvs, chain), key, lp, h)
  {
    var q := Walk(kvs, nxt, chain, height, lp, h);
  }

  // A full path has found the key's place.
  lemma StopsPath(kvs: seq<Option<Kv>>, nxt: Links, chain: seq<nat>, height: nat, key: Key,
                  path: seq<nat>, pp: seq<nat>)
    requires Valid(kvs, nxt, chain, height) && |path| == |pp| == HEAD_LINKS
    requires Stops(Heights(nxt, chain), ChainKeys(kvs, chain), chain, key, path, pp, 0, height)
    ensures pp[0] < |chain| && PathTo(Heights(nxt, chain), chain, path, pp, height, pp[0])
    ensures IsLoc(ChainKeys(kvs, chain), Some(key), pp[0])
    ensures Less(ChainKeys(kvs, chain)[pp[0]], Some(key))
  {
    hide Less, NextAt, Linked;
    var hts, ks, i := Heights(nxt, chain), ChainKeys(kvs, chain), pp[0];
    StopIsLoc(hts, ks, key, i);
    forall l | 0 <= l < height ensures Before(hts, pp[l], l, i) {
      StopBefore(hts, ks, key, pp[l], l, i);
    }
  }

  // Above the list's height every path is the head.
  lemma PathMore(kvs: seq<Option<Kv>>, nxt: Links, chain: seq<nat>, height: nat,
                 path: seq<nat>, pp: seq<nat>, l: nat, i: nat)
    requires Valid(kvs, nxt, chain, height) && height <= l < |path| == |pp| == HEAD_LINKS && i < |chain|
    requires PathTo(Heights(nxt, chain), chain, path, pp, l, i)
    ensures PathTo(Heights(nxt, chain), chain, path[l := 0], pp[l := 0], l + 1, i)
  {
    hide NextAt, Linked;
    NextOnly(Heights(nxt, chain), 0, l, |chain|);
  }

  lemma PathIn(kvs: seq<Option<Kv>>, nxt: Links, chain: seq<nat>, height: nat,
               path: seq<nat>, pp: seq<nat>, ht: nat, i: nat, l: nat)
    requires Valid(kvs, nxt, chain, height) && i < |chain| && l < ht
    requires PathTo(Heights(nxt, chain), chain, path, pp, ht, i)
    ensures l < |path| && path[l] < |nxt| && l < |nxt[path[l]]|
  {
    hide NextAt, Linked;
    assert Before(Heights(nxt, chain), pp[l], l, i);
  }

  lemma NewNode(nxt: Links, path: seq<nat>, ht: nat)
    ensures Spliced(nxt, nxt + [seq(ht, _ => None)], path, ht, 0)
  {
  }

  lemma SpliceIn(nxt: Links, nxt2: Links, path: seq<nat>, ht: nat, n: nat)
    requires Spliced(nxt, nxt2, path, ht, n) && n < ht && n < |path|
    requires path[n] < |nxt| && n < |nxt[path[n]]|
    ensures |nxt2| == |nxt| + 1 && n < |nxt2[|nxt|]| && n < |nxt2[path[n]]| && path[n] != |nxt|
  {
  }

  // What the insertion will make of the map.
  lemma InsertContents(kvs: seq<Option<Kv>>, nxt: Links, chain: seq<nat>, height: nat, kv: Kv, i: nat)
    requires Valid(kvs, nxt, chain, height) && i < |chain| && Agrees(Entries(kvs, chain), kv.key)
    requires IsLoc(ChainKeys(kvs, chain), Some(kv.key), i) && Less(ChainKeys(kvs, chain)[i], Some(kv.key))
    ensures kv.key !in MapOf(Entries(kvs, chain))
    ensures MapOf(Insert(Entries(kvs, chain), i, Some(kv))) == MapOf(Entries(kvs, chain))[kv.key := kv]
  {
    var es := Entries(kvs, chain);
    LessIsOrder(Keys(es)[i], Some(kv.key), None);
    MapOfPut(es, i, kv);
    assert PutAt(es, i, kv) == Insert(es, i, Some(kv));
  }

  // Where skiplist_del first meets the node is the top of its tower.
  lemma FoundTop(kvs: seq<Option<Kv>>, nxt: Links, chain: seq<nat>, height: nat, key: Key, up: nat, h: nat, d: nat)
    requires Valid(kvs, nxt, chain, height) && 0 < d < |chain| && h < |nxt[chain[d]]|
    requires Same(Some(key), ChainKeys(kvs, chain)[d])
    requires h + 1 < height ==> Stop(Heights(nxt, chain), ChainKeys(kvs, chain), key, up, h + 1)
    ensures |nxt[chain[d]]| == h + 1
  {
    hide Less, Same, Linked;
    if h + 1 < height {
      StopShort(Heights(nxt, chain), ChainKeys(kvs, chain), key, up, h + 1, d);
    }
  }

  // Walking level h towards position d, one node at a time, passes none that
  // links to it but the last.
  lemma {:induction false} Towards(kvs: seq<Option<Kv>>, nxt: Links, chain: seq<nat>, height: nat, lp: nat, h: nat, d: nat)
    requires Valid(kvs, nxt, chain, height) && lp < d < |chain|
    requires h < |nxt[chain[lp]]| && h < |nxt[chain[d]]|
    ensures NextAt(Heights(nxt, chain), lp, h) <= d
    ensures nxt[chain[lp]][h] == Some(chain[d]) <==> NextAt(Heights(nxt, chain), lp, h) == d
  {
    var q := Walk(kvs, nxt, chain, height, lp, h);
    NextIs(Heights(nxt, chain), lp, h);
    assert Heights(nxt, chain)[d] == |nxt[chain[d]]|;
  }

  // The levels from `from` to `to` of the path to position d are known.
  ghost predicate Preds(hts: seq<nat>, chain: seq<nat>, path: seq<nat>, pp: seq<nat>, from: nat, to: nat, d: nat)
    requires |hts| == |chain| && 0 < d < |chain|
  {
    && |path| == |pp| == to
    && forall l :: from <= l < to ==> Before(hts, pp[l], l, d - 1) && path[l] == chain[pp[l]]
  }

  lemma {:induction false} PredsMore(kvs: seq<Option<Kv>>, nxt: Links, chain: seq<nat>, height: nat,
                  path: seq<nat>, pp: seq<nat>, h: nat, to: nat, d: nat, lp: nat)
    requires Valid(kvs, nxt, chain, height) && lp < d < |chain| && h < to && h < |nxt[chain[lp]]|
    requires Preds(Heights(nxt, chain), chain, path, pp, h + 1, to, d)
    requires NextAt(Heights(nxt, chain), lp, h) == d
    ensures Preds(Heights(nxt, chain), chain, path[h := chain[lp]], pp[h := lp], h, to, d)
  {
    hide NextAt;
  }

  lemma PredsPath(kvs: seq<Option<Kv>>, nxt: Links, chain: seq<nat>, height: nat, path: seq<nat>, pp: seq<nat>, d: nat)
    requires Valid(kvs, nxt, chain, height) && 0 < d < |chain|
    requires Preds(Heights(nxt, chain), chain, path, pp, 0, |nxt[chain[d]]|, d)
    ensures PathTo(Heights(nxt, chain), chain, path, pp, |nxt[chain[d]]|, d - 1)
    ensures |path| == |nxt[chain[d]]|
    ensures forall l :: 0 <= l < |path| ==> path[l] < |nxt| && l < |nxt[path[l]]| && path[l] != chain[d]
  {
    hide NextAt, Linked;
    forall l | 0 <= l < |path| ensures path[l] < |nxt| && l < |nxt[path[l]]| && path[l] != chain[d] {
      assert Before(Heights(nxt, chain), pp[l], l, d - 1);
    }
  }

  lemma BypassNone(nxt: Links, path: seq<nat>, del: nat)
    requires del < |nxt|
    ensures Bypassed(nxt, nxt, path, del, 0)
  {
  }

  lemma BypassIn(nxt: Links, nxt2: Links, path: seq<nat>, del: nat, n: nat)
    requires Bypassed(nxt, nxt2, path, del, n) && n < |path| && n < |nxt[del]|
    requires path[n] < |nxt| && n < |nxt[path[n]]|
    ensures |nxt2| == |nxt| && n < |nxt2[path[n]]| && n < |nxt2[del]|
  {
  }

  lemma NodeContents(kvs: seq<Option<Kv>>, nxt: Links, chain: seq<nat>, height: nat, d: nat)
    requires Valid(kvs, nxt, chain, height) && 0 < d < |chain|
    ensures |kvs| == |nxt| && forall p :: 0 <= p < |chain| ==> chain[p] < |kvs|
    ensures kvs[chain[d]].Some?
    ensures MapOf(Remove(Entries(kvs, chain), d)) == MapOf(Entries(kvs, chain)) - {kvs[chain[d]].value.key}
  {
    MapOfRemove(Entries(kvs, chain), d);
  }

  // A search that stopped on every level has missed the key for good.
  lemma StopMissed(kvs: seq<Option<Kv>>, nxt: Links, chain: seq<nat>, height: nat, key: Key, p: nat)
    requires Valid(kvs, nxt, chain, height)
    requires Stop(Heights(nxt, chain), ChainKeys(kvs, chain), key, p, 0)
    ensures key !in MapOf(Entries(kvs, chain))
  {
    hide NextAt, Linked;
    var ks := ChainKeys(kvs, chain);
    StopIsLoc(Heights(nxt, chain), ks, key, p);
    LessIsOrder(ks[p], Some(key), None);
    MapOfAt(Entries(kvs, chain), p, key);
  }

  // Replacing the object at the position of its key.
  lemma ReplaceKeeps(kvs: seq<Option<Kv>>, nxt: Links, chain: seq<nat>, height: nat, kv: Kv, q: nat)
    requires Valid(kvs, nxt, chain, height) && q < |chain|
    requires Agrees(Entries(kvs, chain), kv.key)
    requires KeyOf(kvs[chain[q]]) == Some(kv.key)
    requires IsLoc(ChainKeys(kvs, chain), Some(kv.key), q)
    ensures Valid(kvs[chain[q] := Some(kv)], nxt, chain, height)
    ensures MapOf(Entries(kvs[chain[q] := Some(kv)], chain)) == MapOf(Entries(kvs, chain))[kv.key := kv]
  {
    hide Less;
    var es := Entries(kvs, chain);
    var kvs2 := kvs[chain[q] := Some(kv)];
    MapOfPut(es, q, kv);
    assert Entries(kvs2, chain) == es[q := Some(kv)];
    assert Linked(nxt, chain);
  }

  lemma EntriesEnumerate(kvs: seq<Option<Kv>>, nxt: Links, chain: seq<nat>, height: nat)
    requires Valid(kvs, nxt, chain, height)
    ensures chain != [] && chain[0] == 0 && |nxt[0]| > 0 && |kvs| == |nxt|
    ensures Values(Entries(kvs, chain)[..1]) == []
    ensures Enumerates(MapOf(Entries(kvs, chain)), Values(Entries(kvs, chain)))
  {
    ValuesEnumerate(Entries(kvs, chain));
    assert Entries(kvs, chain)[..1] == [None];
    LastValue([None]);
  }

  lemma ValuesStep(es: seq<Option<Kv>>, p: nat)
    requires p < |es| && es[p].Some?
    ensures Values(es[..p + 1]) == Values(es[..p]) + [es[p].value]
  {
    LastValue(es[..p + 1]);
    assert es[..p + 1][..p] == es[..p];
  }

  // The head alone, whatever else is in the arena.
  lemma EmptyList(kvs: seq<Option<Kv>>, nxt: Links, chain: seq<nat>, height: nat, nxt2: Links)
    requires Valid(kvs, nxt, chain, height) && nxt2 == nxt[0 := seq(HEAD_LINKS, _ => None)]
    ensures Valid(kvs, nxt2, [0], height) && MapOf(Entries(kvs, [0])) == map[]
  {
    assert Entries(kvs, [0]) == [None];
    assert |Heights(nxt2, [0])| == 1;
  }

  // ---- what the levels link ----

  // The nodes that following the links of level l from node x visits.
  ghost function Follow(nxt: Links, x: nat, l: nat, n: nat): seq<nat>
    decreases n
  {
    if n == 0 || x >= |nxt| || l >= |nxt[x]| || nxt[x][l].None? then []
    else [nxt[x][l].value] + Follow(nxt, nxt[x][l].value, l, n - 1)
  }

  // The nodes of c taller than level l, in the order of c.
  ghost function Taller(nxt: Links, c: seq<nat>, l: nat): seq<nat> {
    if c == [] then []
    else (if c[0] < |nxt| && l < |nxt[c[0]]| then [c[0]] else []) + Taller(nxt, c[1..], l)
  }

  // Each level links exactly the nodes tall enough for it, in key order: all
  // of them, none twice, and no node that is off the chain.
  lemma {:induction false} LevelIsTall(kvs: seq<Option<Kv>>, nxt: Links, chain: seq<nat>, height: nat, p: nat, l: nat, n: nat)
    requires Valid(kvs, nxt, chain, height) && p < |chain| && l < |nxt[chain[p]]| && n >= |chain| - p
    ensures Follow(nxt, chain[p], l, n) == Taller(nxt, chain[p + 1..], l)
    decreases |chain| - p
  {
    hide Valid, NextAt, Taller, Heights, ChainKeys;
    InArena(kvs, nxt, chain, height);
    var q := Walk(kvs, nxt, chain, height, p, l);
    SkipShort(nxt, chain, p, l);
    if q < |chain| {
      LevelIsTall(kvs, nxt, chain, height, q, l, n - 1);
    }
  }

  lemma InArena(kvs: seq<Option<Kv>>, nxt: Links, chain: seq<nat>, height: nat)
    requires Valid(kvs, nxt, chain, height)
    ensures |kvs| == |nxt| && forall p :: 0 <= p < |chain| ==> chain[p] < |nxt|
  {
  }

  lemma {:induction false} SkipShort(nxt: Links, chain: seq<nat>, p: nat, l: nat)
    requires forall p :: 0 <= p < |chain| ==> chain[p] < |nxt|
    requires p < |chain|
    ensures var q := NextAt(Heights(nxt, chain), p, l);
      Taller(nxt, chain[p + 1..], l) == if q < |chain| then [chain[q]] + Taller(nxt, chain[q + 1..], l) else []
    decreases |chain| - p
  {
    if p + 1 < |chain| {
      assert chain[p + 1..][1..] == chain[p + 2..];
      if |nxt[chain[p + 1]]| <= l {
        SkipShort(nxt, chain, p + 1, l);
      }
    }
  }

  // ... and that order is dictionary order of the key bytes.
  lemma ChainAscends(kvs: seq<Option<Kv>>, nxt: Links, chain: seq<nat>, height: nat)
    requires Valid(kvs, nxt, chain, height)
    ensures Ascending(Entries(kvs, chain)) && Lists(MapOf(Entries(kvs, chain)), Entries(kvs, chain))
  {
    hide Less, Ascending;
    MapOfLists(Entries(kvs, chain));
    SortedAscends(Entries(kvs, chain));
  }

  // ---- the list ----

  class SkipList {
    const mm: Mm
    var height: nat
    var kvs: seq<Option<Kv>>
    var nxt: Links
    var log: seq<Event>
    ghost var chain: seq<nat>

    ghost predicate Ok()
      reads this
    {
      Valid(kvs, nxt, chain, height)
    }

    // The finite map the list stands for.
    ghost function Contents(): map<Key, Kv>
      reads this
      requires Ok()
    {
      MapOf(Entries(kvs, chain))
    }

    // hash is a function of the key bytes, across the stored keys and `key`.
    ghost predicate HashAgrees(key: Key)
      reads this
      requires Ok()
    {
      Agrees(Entries(kvs, chain), key)
    }

    // skiplist_create_f
    constructor (mm: Mm)
      ensures Ok() && Contents() == map[] && this.mm == mm && log == []
    {
      this.mm := mm;
      height := 1;
      kvs := [None];
      nxt := [seq(HEAD_LINKS, _ => None)];
      log := [];
      chain := [0];
      new;
      assert Entries(kvs, chain) == [None];
    }

    // skiplist_get; skiplist_probe is the same search.
    method Get(key: Key) returns (r: Option<Kv>)
      requires Ok() && HashAgrees(key)
      modifies `log
      ensures Ok() && r == Find(Contents(), key)
      ensures log == old(log) + if r.Some? then HitEvents(mm, r.value) else []
    {
      hide Less, Same, Valid, Stop, NextAt, Agrees, MapOf, Keys, Pkey;
      var i := height - 1;
      var left, right := 0, None;
      ghost var lp, rp := 0, 0;
      HeadBelow(kvs, nxt, chain, height, key);
      ghost var ks := ChainKeys(kvs, chain);
      while i > 0
        invariant i >= 0
        invariant lp < |chain| && left == chain[lp] && left < |nxt| && i < |nxt[left]|
        invariant Less(ks[lp], Some(key))
        invariant Bound(ks, chain, key, right, rp, lp)
        invariant log == old(log)
      {
        while nxt[left][i].Some?
          invariant lp < |chain| && left == chain[lp] && left < |nxt| && i < |nxt[left]|
          invariant Less(ks[lp], Some(key))
          invariant Bound(ks, chain, key, right, rp, lp)
          invariant log == old(log)
          decreases |chain| - lp
        {
          ghost var q := Walk(kvs, nxt, chain, height, lp, i);
          right, rp := nxt[left][i], q;
          var curr := kvs[right.value].value;
          var cmp := KeyCompare(Some(key), Some(curr.key));
          Compared(Some(key), ks[q]);
          if cmp == 0 {
            FoundAt(kvs, nxt, chain, height, key, q);
            log := log + HitEvents(mm, curr);
            return Some(curr);
          } else if cmp < 0 {
            break;
          } else {
            left, lp := right.value, q;
          }
        }
        i := i - 1;
      }
      var pkey := Pkey(key.hash);
      ghost var p := Walk(kvs, nxt, chain, height, lp, 0);
      PassedTo(kvs, nxt, chain, height, key, lp, p);
      var next := nxt[left][0];
      while next.Some? && next != right
        invariant lp < p <= |chain| && next == Link(chain, p) && Passed(ks, key, p)
        invariant next.Some? ==> next.value < |kvs| && kvs[next.value].Some? && 0 < |nxt[next.value]|
        invariant p < |chain| ==> ks[p] == KeyOf(kvs[chain[p]])
        invariant log == old(log)
        decreases |chain| - p
      {
        var curr := kvs[next.value].value;
        if Pkey(curr.key.hash) == pkey {
          if curr.key == key {
            HeldAt(kvs, nxt, chain, height, key, p);
            log := log + HitEvents(mm, curr);
            return Some(curr);
          }
        }
        ghost var q := Walk(kvs, nxt, chain, height, p, 0);
        StepOne(kvs, nxt, chain, height, p);
        next, p := nxt[next.value][0], q;
      }
      ScanMissed(kvs, nxt, chain, height, key, right, rp, lp, p);
      r := None;
    }

    // skiplist_set; ht is the height drawn for a new node.
    method Set(kv: Kv, ht: nat) returns (ok: bool)
      requires Ok() && HashAgrees(kv.key) && 1 <= ht < HEAD_LINKS
      modifies this
      ensures ok && Ok() && Contents() == old(Contents())[kv.key := kv]
      ensures log == old(log) + PutEvents(mm, Find(old(Contents()), kv.key), Some(kv))
      ensures if kv.key in old(Contents()) then nxt == old(nxt) && height == old(height) else Grown(old(nxt), old(height), ht)
    {
      hide Less, Same, Valid, Stop, NextAt, Agrees, MapOf, Keys, Grown;
      HeadBelow(kvs, nxt, chain, height, kv.key);
      ghost var ks, hts := ChainKeys(kvs, chain), Heights(nxt, chain);
      var path: seq<nat> := seq(HEAD_LINKS, _ => 0);
      ghost var pp: seq<nat> := path;
      var h := height - 1;
      var left := 0;
      ghost var lp := 0;
      while h >= 0
        invariant unchanged(this)
        invariant -1 <= h < height && |path| == |pp| == HEAD_LINKS
        invariant lp < |chain| && left == chain[lp] && left < |nxt| && h < |nxt[left]|
        invariant Less(ks[lp], Some(kv.key))
        invariant Stops(hts, ks, chain, kv.key, path, pp, h + 1, height)
      {
        while nxt[left][h].Some?
          invariant unchanged(this)
          invariant lp < |chain| && left == chain[lp] && left < |nxt| && h < |nxt[left]|
          invariant Less(ks[lp], Some(kv.key))
          decreases |chain| - lp
        {
          ghost var q := Walk(kvs, nxt, chain, height, lp, h);
          var right := nxt[left][h].value;
          var curr := kvs[right].value;
          var cmp := KeyCompare(Some(kv.key), Some(curr.key));
          Compared(Some(kv.key), ks[q]);
          if cmp == 0 {
            FoundAt(kvs, nxt, chain, height, kv.key, q);
            ReplaceKeeps(kvs, nxt, chain, height, kv, q);
            log := log + PutEvents(mm, kvs[right], Some(kv));
            kvs := kvs[right := Some(kv)];
            return true;
          } else if cmp < 0 {
            break;
          } else {
            left, lp := right, q;
          }
        }
        StopHere(kvs, nxt, chain, height, kv.key, lp, h);
        StopsMore(kvs, nxt, chain, height, kv.key, path, pp, h, lp);
        path, pp := path[h := left], pp[h := lp];
        h := h - 1;
      }
      StopsPath(kvs, nxt, chain, height, kv.key, path, pp);
      ok := InsertNode(kv, ht, path, pp);
    }

    // One node more, with ht links; the list is as high as its tallest node.
    ghost predicate Grown(was: Links, high: nat, ht: nat)
      reads this
    {
      |nxt| == |was| + 1 && |nxt[|was|]| == ht && height == if ht > high then ht else high
    }

    // The insertion of skiplist_set: the new node is as tall as chance has it
    // and is linked in behind the path on each of its levels.
    method InsertNode(kv: Kv, ht: nat, path0: seq<nat>, ghost pp0: seq<nat>) returns (ok: bool)
      requires Ok() && HashAgrees(kv.key) && 1 <= ht < HEAD_LINKS
      requires |path0| == |pp0| == HEAD_LINKS && pp0[0] < |chain|
      requires PathTo(Heights(nxt, chain), chain, path0, pp0, height, pp0[0])
      requires IsLoc(ChainKeys(kvs, chain), Some(kv.key), pp0[0])
      requires Less(ChainKeys(kvs, chain)[pp0[0]], Some(kv.key))
      modifies this
      ensures ok && Ok() && Contents() == old(Contents())[kv.key := kv]
      ensures log == old(log) + PutEvents(mm, Find(old(Contents()), kv.key), Some(kv))
      ensures kv.key !in old(Contents()) && Grown(old(nxt), old(height), ht)
    {
      hide Less, Valid, NextAt, Agrees, MapOf, Keys, IsLoc, Spliced;
      HeadBelow(kvs, nxt, chain, height, kv.key);
      ghost var i, hts := pp0[0], Heights(nxt, chain);
      InsertContents(kvs, nxt, chain, height, kv, i);
      var path, pp := RaisePath(path0, pp0, ht, i);
      var id := |nxt|;
      kvs := kvs + [Some(kv)];
      nxt := nxt + [seq(ht, _ => None)];
      NewNode(old(nxt), path, ht);
      var l := 0;
      while l < ht
        invariant 0 <= l <= ht && |nxt| == id + 1
        invariant Spliced(old(nxt), nxt, path, ht, l)
        invariant kvs == old(kvs) + [Some(kv)] && chain == old(chain) && height == old(height) && log == old(log)
        invariant |nxt[id]| == ht
      {
        PathIn(old(kvs), old(nxt), chain, height, path, pp, ht, i, l);
        SpliceMore(old(nxt), nxt, path, ht, l);
        SpliceIn(old(nxt), nxt, path, ht, l);
        nxt := nxt[id := nxt[id][l := nxt[path[l]][l]]];
        nxt := nxt[path[l] := nxt[path[l]][l := Some(id)]];
        l := l + 1;
      }
      InsertKeeps(old(kvs), old(nxt), chain, height, nxt, path, pp, ht, i, kv);
      if ht > height {
        height := ht;
      }
      chain := Insert<nat>(chain, i, id);
      ok := true;
    }

    // A node taller than the list starts at the head on the new levels.
    method RaisePath(path0: seq<nat>, ghost pp0: seq<nat>, ht: nat, ghost i: nat)
      returns (path: seq<nat>, ghost pp: seq<nat>)
      requires Valid(kvs, nxt, chain, height) && 1 <= ht < HEAD_LINKS && i < |chain|
      requires |path0| == |pp0| == HEAD_LINKS && PathTo(Heights(nxt, chain), chain, path0, pp0, height, i)
      ensures |path| == |pp| == HEAD_LINKS
      ensures PathTo(Heights(nxt, chain), chain, path, pp, if ht > height then ht else height, i)
    {
      hide Valid, PathTo;
      InArena(kvs, nxt, chain, height);
      path, pp := path0, pp0;
      if ht > height {
        var l := height;
        while l < ht
          invariant height <= l <= ht && |path| == |pp| == HEAD_LINKS
          invariant PathTo(Heights(nxt, chain), chain, path, pp, l, i)
        {
          PathMore(kvs, nxt, chain, height, path, pp, l, i);
          path, pp := path[l := 0], pp[l := 0];
          l := l + 1;
        }
      }
    }

    // skiplist_del
    method Del(key: Key) returns (ok: bool)
      requires Ok() && HashAgrees(key)
      modifies this
      ensures Ok() && ok == (key in old(Contents())) && Contents() == old(Contents()) - {key}
      ensures log == old(log) + PutEvents(mm, Find(old(Contents()), key), None)
    {
      hide Less, Same, Valid, Stop, NextAt, Agrees, MapOf, Keys, IsLoc;
      HeadBelow(kvs, nxt, chain, height, key);
      ghost var ks, hts := ChainKeys(kvs, chain), Heights(nxt, chain);
      var h := height - 1;
      var left, del := 0, None;
      ghost var lp, up, d := 0, 0, 0;
      while h >= 0 && del.None?
        invariant unchanged(this)
        invariant -1 <= h < height
        invariant lp < |chain| && left == chain[lp] && left < |nxt|
        invariant if del.Some? then h + 1 < |nxt[left]| else h < |nxt[left]|
        invariant Less(ks[lp], Some(key))
        invariant del.None? && h + 1 < height ==> Stop(hts, ks, key, up, h + 1)
        invariant del.Some? ==> lp < d < |chain| && del.value == chain[d] < |kvs| && |nxt[chain[d]]| == h + 2
        invariant del.Some? ==> kvs[chain[d]].Some? && KeyOf(kvs[chain[d]]) == Some(key)
        invariant del.Some? ==> Find(MapOf(Entries(kvs, chain)), key) == kvs[chain[d]]
      {
        while nxt[left][h].Some?
          invariant unchanged(this)
          invariant lp < |chain| && left == chain[lp] && left < |nxt| && h < |nxt[left]|
          invariant Less(ks[lp], Some(key))
          invariant del.None?
          decreases |chain| - lp
        {
          ghost var q := Walk(kvs, nxt, chain, height, lp, h);
          var right := nxt[left][h].value;
          var curr := kvs[right].value;
          var cmp := KeyCompare(Some(key), Some(curr.key));
          Compared(Some(key), ks[q]);
          if cmp == 0 {
            FoundAt(kvs, nxt, chain, height, key, q);
            FoundTop(kvs, nxt, chain, height, key, up, h, q);
            del, d := Some(right), q;
            break;
          } else if cmp < 0 {
            break;
          } else {
            left, lp := right, q;
          }
        }
        if del.None? {
          StopHere(kvs, nxt, chain, height, key, lp, h);
          up := lp;
        }
        h := h - 1;
      }
      if del.None? {
        StopMissed(kvs, nxt, chain, height, key, up);
        return false;
      }
      h := h + 1;
      Unlink(left, del.value, h, lp, d);
      ok := true;
    }

    // The rest of skiplist_del: find the node before `del` on each of its
    // levels, from the top one h down, and unlink it everywhere.
    method Unlink(left0: nat, del: nat, h0: nat, ghost lp0: nat, ghost d: nat)
      requires Ok() && lp0 < d < |chain| && left0 == chain[lp0] && del == chain[d]
      requires |nxt[chain[d]]| == h0 + 1 && h0 < |nxt[chain[lp0]]|
      modifies this
      ensures Ok() && old(kvs[chain[d]]).Some? && chain == Remove<nat>(old(chain), d)
      ensures Contents() == old(Contents()) - {old(kvs[chain[d]]).value.key}
      ensures log == old(log) + PutEvents(mm, old(kvs[chain[d]]), None)
    {
      hide Less, Same, Valid, NextAt, MapOf, Keys, IsLoc, Bypassed;
      NodeContents(kvs, nxt, chain, height, d);
      ghost var hts := Heights(nxt, chain);
      var h: int := h0;
      var left := left0;
      ghost var lp: nat := lp0;
      var depth := h + 1;
      var path: seq<nat> := seq(depth, _ => 0);
      ghost var pp: seq<nat> := path;
      while h >= 0
        invariant unchanged(this)
        invariant -1 <= h < depth && |path| == |pp| == depth
        invariant lp < d && left == chain[lp] < |nxt| && h < |nxt[left]|
        invariant Preds(hts, chain, path, pp, h + 1, depth, d)
      {
        Towards(kvs, nxt, chain, height, lp, h, d);
        while nxt[left][h] != Some(del)
          invariant unchanged(this)
          invariant lp < d && left == chain[lp] < |nxt| && h < |nxt[left]|
          invariant NextAt(hts, lp, h) <= d
          invariant nxt[left][h] == Some(del) <==> NextAt(hts, lp, h) == d
          decreases d - lp
        {
          ghost var q := Walk(kvs, nxt, chain, height, lp, h);
          left, lp := nxt[left][h].value, q;
          Towards(kvs, nxt, chain, height, lp, h, d);
        }
        PredsMore(kvs, nxt, chain, height, path, pp, h, depth, d, lp);
        path, pp := path[h := left], pp[h := lp];
        h := h - 1;
      }
      PredsPath(kvs, nxt, chain, height, path, pp, d);
      BypassNone(nxt, path, del);
      var i := 0;
      while i < depth
        invariant 0 <= i <= depth && Bypassed(old(nxt), nxt, path, del, i)
        invariant kvs == old(kvs) && chain == old(chain) && height == old(height) && log == old(log)
      {
        BypassIn(old(nxt), nxt, path, del, i);
        BypassMore(old(nxt), nxt, path, del, i);
        nxt := nxt[path[i] := nxt[path[i]][i := nxt[del][i]]];
        i := i + 1;
      }
      RemoveKeeps(kvs, old(nxt), chain, height, nxt, path, pp, d);
      log := log + PutEvents(mm, kvs[del], None);
      chain := Remove<nat>(chain, d);
    }

    // skiplist_clean: every object is given up once, in key order.
    method Clean() returns (ghost kvs: seq<Kv>)
      requires Ok()
      modifies this
      ensures Ok() && Contents() == map[]
      ensures Enumerates(old(Contents()), kvs) && log == old(log) + Retires(mm, kvs)
    {
      hide Less, Valid, NextAt, MapOf, Keys, Values, Enumerates, Retires;
      InArena(this.kvs, nxt, chain, height);
      ghost var es := Entries(this.kvs, chain);
      kvs := Values(es);
      EntriesEnumerate(this.kvs, nxt, chain, height);
      StepOne(this.kvs, nxt, chain, height, 0);
      ghost var p := Walk(this.kvs, nxt, chain, height, 0, 0);
      ghost var done: seq<Kv> := [];
      var iter := nxt[0][0];
      while iter.Some?
        invariant this.kvs == old(this.kvs) && nxt == old(nxt) && chain == old(chain) && height == old(height)
        invariant 0 < p <= |chain| == |es| && iter == Link(chain, p)
        invariant iter.Some? ==> iter.value < |nxt| == |this.kvs| && this.kvs[iter.value].Some? && 0 < |nxt[iter.value]|
        invariant done == Values(es[..p])
        invariant log == old(log) + Retires(mm, done)
        decreases |chain| - p
      {
        var curr := this.kvs[iter.value].value;
        var next := nxt[iter.value][0];
        ghost var q := Walk(this.kvs, nxt, chain, height, p, 0);
        StepOne(this.kvs, nxt, chain, height, p);
        ValuesStep(es, p);
        RetiresMore(mm, done, curr);
        log := log + PutEvents(mm, Some(curr), None);
        done := done + [curr];
        iter, p := next, q;
      }
      assert es[..p] == es;
      nxt := nxt[0 := seq(HEAD_LINKS, _ => None)];
      chain := [0];
      EmptyList(old(this.kvs), old(nxt), old(chain), height, nxt);
    }
  }
}
