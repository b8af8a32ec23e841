// Sorted lists of entries and the finite map each stands for, shared by the
// ordered indexes. The first entry is the null sentinel, below every key.

module SortedEntries {
  import opened Option
  import opened KvApi
  import opened KeyOrder
  import opened Enumerations

  function Keys(es: seq<Option<Kv>>): seq<Option<Key>> {
    seq(|es|, i requires 0 <= i < |es| => KeyOf(es[i]))
  }

  // A set on the entries: replace the entry at i when its key matches, insert
  // right after it otherwise.
  function PutAt(es: seq<Option<Kv>>, i: nat, kv: Kv): seq<Option<Kv>>
    requires i < |es|
  {
    if KeyOf(es[i]) == Some(kv.key) then es[i := Some(kv)]
    else es[..i + 1] + [Some(kv)] + es[i + 1..]
  }

  // Writing inside a part is writing in the whole.
  lemma PutInside(a: seq<Option<Kv>>, b: seq<Option<Kv>>, c: seq<Option<Kv>>, i: nat, kv: Kv)
    requires i < |b|
    ensures PutAt(a + b + c, |a| + i, kv) == a + PutAt(b, i, kv) + c
  {
    assert (a + b + c)[|a| + i] == b[i];
  }

  // A place found in a part is the place in the whole, when the key belongs to
  // that part.
  lemma LocInside(a: seq<Option<Kv>>, b: seq<Option<Kv>>, c: seq<Option<Kv>>, i: nat, key: Option<Key>)
    requires Sorted(Keys(a + b + c)) && IsLoc(Keys(b), key, i)
    requires c != [] ==> Less(key, KeyOf(c[0]))
    ensures IsLoc(Keys(a + b + c), key, |a| + i)
  {
    hide Less;
    OrderLaws();
    var w := Keys(a + b + c);
    var k := |a| + |b|;
    forall j | |a| + i < j < |w| ensures Less(key, w[j]) {
      if j < k {
        assert w[j] == Keys(b)[j - |a|];
      } else if j > k {
        assert Less(w[k], w[j]);
      }
    }
  }

  lemma SortedPart(a: seq<Option<Kv>>, b: seq<Option<Kv>>, c: seq<Option<Kv>>)
    requires Sorted(Keys(a + b + c))
    ensures Sorted(Keys(b)) && Sorted(Keys(a)) && Sorted(Keys(c))
  {
    hide Less;
    var w := Keys(a + b + c);
    forall i, j | 0 <= i < j < |b| ensures Less(Keys(b)[i], Keys(b)[j]) {
      assert w[|a| + i] == Keys(b)[i] && w[|a| + j] == Keys(b)[j];
    }
    forall i, j | 0 <= i < j < |a| ensures Less(Keys(a)[i], Keys(a)[j]) {
      assert w[i] == Keys(a)[i] && w[j] == Keys(a)[j];
    }
    forall i, j | 0 <= i < j < |c| ensures Less(Keys(c)[i], Keys(c)[j]) {
      assert w[|a| + |b| + i] == Keys(c)[i] && w[|a| + |b| + j] == Keys(c)[j];
    }
  }

  // The keys ascend in dictionary order, the sentinel first.
  ghost predicate Ascending(es: seq<Option<Kv>>) {
    forall i, j :: 0 <= i < j < |es| ==> Follows(es[i], es[j])
  }

  ghost predicate Follows(e: Option<Kv>, f: Option<Kv>) {
    f.Some? && (e.Some? ==> Precedes(e.value.key.bytes, f.value.key.bytes))
  }

  lemma SortedAscends(es: seq<Option<Kv>>)
    requires Sorted(Keys(es))
    ensures Ascending(es)
  {
    hide Less, Precedes;
    forall i, j | 0 <= i < j < |es| ensures Follows(es[i], es[j]) {
      assert Less(Keys(es)[i], Keys(es)[j]);
      LessIsPrecedes(Keys(es)[i], Keys(es)[j]);
    }
  }

  // hash is a function of the key bytes: no stored key has the bytes of `key`
  // under another hash.
  ghost predicate Agrees(es: seq<Option<Kv>>, key: Key) {
    forall i :: 0 <= i < |es| && es[i].Some? && es[i].value.key.bytes == key.bytes ==> es[i].value.key == key
  }

  lemma PutSorted(es: seq<Option<Kv>>, i: nat, kv: Kv)
    requires Sorted(Keys(es)) && IsLoc(Keys(es), Some(kv.key), i) && Agrees(es, kv.key)
    ensures Sorted(Keys(PutAt(es, i, kv)))
  {
    var es2 := PutAt(es, i, kv);
    var ks, ks2 := Keys(es), Keys(es2);
    if KeyOf(es[i]) == Some(kv.key) {
      assert ks2 == ks;
    } else {
      assert Less(ks[i], Some(kv.key)) by {
        LessIsOrder(ks[i], Some(kv.key), None);
      }
      InsertSorted(es, i, kv);
    }
  }

  lemma InsertSorted(es: seq<Option<Kv>>, i: nat, kv: Kv)
    requires Sorted(Keys(es)) && IsLoc(Keys(es), Some(kv.key), i) && Less(Keys(es)[i], Some(kv.key))
    ensures Sorted(Keys(es[..i + 1] + [Some(kv)] + es[i + 1..]))
  {
    hide Less;
    OrderLaws();
    var ks, ks2 := Keys(es), Keys(es[..i + 1] + [Some(kv)] + es[i + 1..]);
    forall a, b | 0 <= a < b < |ks2| ensures Less(ks2[a], ks2[b]) {
      var a0, b0 := if a <= i then a else a - 1, if b <= i then b else b - 1;
      assert a != i + 1 ==> ks2[a] == ks[a0];
      assert b != i + 1 ==> ks2[b] == ks[b0];
      if b == i + 1 && a < i {
        assert Less(ks[a], ks[i]);
      }
    }
  }

  // The finite map a sorted entry list stands for.
  ghost function MapOf(es: seq<Option<Kv>>): map<Key, Kv> {
    if es == [] then map[]
    else
      var m := MapOf(es[1..]);
      if es[0].Some? then m[es[0].value.key := es[0].value] else m
  }

  // m lists exactly the entries of es under their keys.
  ghost predicate Lists(m: map<Key, Kv>, es: seq<Option<Kv>>) {
    && (forall i :: 0 <= i < |es| && es[i].Some? ==> Find(m, es[i].value.key) == es[i])
    && (forall key :: key in m ==> Some(m[key]) in es && m[key].key == key)
  }

  lemma ListsUnique(m: map<Key, Kv>, m2: map<Key, Kv>, es: seq<Option<Kv>>)
    requires Lists(m, es) && Lists(m2, es)
    ensures m == m2
  {
    forall key ensures Find(m, key) == Find(m2, key) {
      if key in m {
        var i :| 0 <= i < |es| && es[i] == Some(m[key]);
      } else if key in m2 {
        var i :| 0 <= i < |es| && es[i] == Some(m2[key]);
      }
    }
    assert m.Keys == m2.Keys by {
      forall key ensures key in m <==> key in m2 {
        assert Find(m, key) == Find(m2, key);
      }
    }
    forall key | key in m ensures m[key] == m2[key] {
      assert Find(m, key) == Find(m2, key);
    }
  }

  lemma {:induction false} MapOfLists(es: seq<Option<Kv>>)
    requires Sorted(Keys(es))
    ensures Lists(MapOf(es), es)
  {
    hide Less;
    if es != [] {
      assert [es[0]] + es[1..] + [] == es;
      SortedPart([es[0]], es[1..], []);
      MapOfLists(es[1..]);
      OrderLaws();
      forall i | 0 <= i < |es| && es[i].Some? ensures Find(MapOf(es), es[i].value.key) == es[i] {
        if i > 0 {
          assert es[1..][i - 1] == es[i];
          assert Less(Keys(es)[0], Keys(es)[i]);
        }
      }
    }
  }

  // Writing one entry updates exactly one key of the map.
  lemma {:induction false} MapOfPut(es: seq<Option<Kv>>, i: nat, kv: Kv)
    requires Sorted(Keys(es)) && IsLoc(Keys(es), Some(kv.key), i) && Agrees(es, kv.key)
    ensures Sorted(Keys(PutAt(es, i, kv)))
    ensures MapOf(PutAt(es, i, kv)) == MapOf(es)[kv.key := kv]
    ensures Find(MapOf(es), kv.key) == if KeyOf(es[i]) == Some(kv.key) then es[i] else None
  {
    PutSorted(es, i, kv);
    MapOfLists(es);
    MapOfLists(PutAt(es, i, kv));
    LocUnique(es, i, kv.key);
    PutLists(es, MapOf(es), i, kv);
    ListsUnique(MapOf(PutAt(es, i, kv)), MapOf(es)[kv.key := kv], PutAt(es, i, kv));
    if kv.key in MapOf(es) {
      var a :| 0 <= a < |es| && es[a] == Some(MapOf(es)[kv.key]);
    }
  }

  lemma PutLists(es: seq<Option<Kv>>, m: map<Key, Kv>, i: nat, kv: Kv)
    requires Lists(m, es) && i < |es|
    requires forall a :: 0 <= a < |es| && KeyOf(es[a]) == Some(kv.key) ==> a == i
    ensures Lists(m[kv.key := kv], PutAt(es, i, kv))
  {
    var es2 := PutAt(es, i, kv);
    forall a | 0 <= a < |es2| && es2[a].Some? ensures Find(m[kv.key := kv], es2[a].value.key) == es2[a] {
      PutOrigin(es, i, kv, a);
    }
    forall key | key in m && key != kv.key ensures Some(m[key]) in es2 {
      var a :| 0 <= a < |es| && es[a] == Some(m[key]);
      PutOrigin(es, i, kv, if KeyOf(es[i]) != Some(kv.key) && a > i then a + 1 else a);
    }
    PutOrigin(es, i, kv, if KeyOf(es[i]) == Some(kv.key) then i else i + 1);
  }

  // Only position i can hold the key.
  lemma LocUnique(es: seq<Option<Kv>>, i: nat, key: Key)
    requires Sorted(Keys(es)) && IsLoc(Keys(es), Some(key), i)
    ensures forall a :: 0 <= a < |es| && KeyOf(es[a]) == Some(key) ==> a == i
  {
    hide Less;
    OrderLaws();
    var ks := Keys(es);
    assert forall a :: 0 <= a < i ==> Less(ks[a], ks[i]);
    forall a | 0 <= a < |es| && KeyOf(es[a]) == Some(key) ensures a == i {
      assert ks[a] == Some(key);
    }
  }

  lemma PutOrigin(es: seq<Option<Kv>>, i: nat, kv: Kv, a: nat)
    requires i < |es| && a < |PutAt(es, i, kv)|
    ensures var es2 := PutAt(es, i, kv);
      if KeyOf(es[i]) == Some(kv.key) then es2[a] == if a == i then Some(kv) else es[a]
      else es2[a] == if a <= i then es[a] else if a == i + 1 then Some(kv) else es[a - 1]
  {
  }

  // The object a write at i replaces.
  function OldAt(es: seq<Option<Kv>>, i: nat, kv: Kv): Option<Kv>
    requires i < |es|
  {
    if KeyOf(es[i]) == Some(kv.key) then es[i] else None
  }

  lemma PutFirst(es: seq<Option<Kv>>, i: nat, kv: Kv)
    requires i < |es|
    ensures PutAt(es, i, kv) != [] && KeyOf(PutAt(es, i, kv)[0]) == KeyOf(es[0])
  {
  }

  // Some position is the key's place, unless the key is below every entry.
  lemma {:induction false} LocExists(ks: seq<Option<Key>>, key: Option<Key>) returns (i: nat)
    requires ks != [] && !Less(key, ks[0])
    ensures IsLoc(ks, key, i)
    decreases |ks|
  {
    hide Less;
    var n := |ks| - 1;
    if !Less(key, ks[n]) {
      i := n;
    } else {
      assert ks[..n][0] == ks[0];
      i := LocExists(ks[..n], key);
      forall j | i < j < |ks| ensures Less(key, ks[j]) {
        assert j < n ==> ks[j] == ks[..n][j];
      }
    }
  }

  // The map's answer for a key is the entry at the key's place.
  lemma {:induction false} MapOfAt(es: seq<Option<Kv>>, i: nat, key: Key)
    requires Sorted(Keys(es)) && IsLoc(Keys(es), Some(key), i)
    ensures Find(MapOf(es), key) == if KeyOf(es[i]) == Some(key) then es[i] else None
  {
    hide Less;
    MapOfLists(es);
    LocUnique(es, i, key);
    if key in MapOf(es) {
      var a :| 0 <= a < |es| && es[a] == Some(MapOf(es)[key]);
    }
  }

  // What bsearch finds, or does not find, in a leaf.
  lemma SearchLoc(es: seq<Option<Kv>>, key: Key, r: Option<nat>) returns (i: nat)
    requires es != [] && Sorted(Keys(es)) && Agrees(es, key) && !Less(Some(key), KeyOf(es[0]))
    requires r.Some? ==> r.value < |es| && Same(Some(key), Keys(es)[r.value])
    requires r.None? ==> forall j :: 0 <= j < |es| ==> !Same(Some(key), Keys(es)[j])
    ensures IsLoc(Keys(es), Some(key), i)
    ensures if r.Some? then i == r.value && KeyOf(es[i]) == Some(key) else KeyOf(es[i]) != Some(key)
  {
    var ks := Keys(es);
    if r.Some? {
      i := r.value;
      LessIsOrder(Some(key), ks[i], None);
      assert es[i].Some? && es[i].value.key.bytes == key.bytes;
      SameLoc(ks, Some(key), i);
    } else {
      i := LocExists(ks, Some(key));
      LessIsOrder(Some(key), Some(key), None);
      assert !Same(Some(key), ks[i]);
    }
  }

  lemma SameLoc(ks: seq<Option<Key>>, key: Option<Key>, i: nat)
    requires Sorted(ks) && i < |ks| && Same(key, ks[i])
    ensures IsLoc(ks, key, i)
  {
    hide Less;
    forall j | i < j < |ks| ensures Less(key, ks[j]) {
      assert Less(ks[i], ks[j]);
      NotLess(key, ks[i], ks[j]);
    }
    OrderLaws();
    NotLess(key, ks[i], ks[i]);
  }

  // The objects of an entry list, in its order.
  function Values(es: seq<Option<Kv>>): seq<Kv> {
    if es == [] then []
    else Values(es[..|es| - 1]) + if es[|es| - 1].Some? then [es[|es| - 1].value] else []
  }

  ghost predicate AllIn(vs: seq<Kv>, es: seq<Option<Kv>>) {
    forall i :: 0 <= i < |vs| ==> Some(vs[i]) in es
  }

  lemma {:induction false} ValuesConcat(a: seq<Option<Kv>>, b: seq<Option<Kv>>)
    ensures Values(a + b) == Values(a) + Values(b)
    decreases |b|
  {
    if b == [] {
      assert a + b == a;
    } else {
      var n := |b| - 1;
      assert (a + b)[..|a + b| - 1] == a + b[..n];
      ValuesConcat(a, b[..n]);
    }
  }

  // Walking a sorted entry list meets every object of its map, each once.
  lemma {:induction false} ValuesEnumerate(es: seq<Option<Kv>>)
    requires Sorted(Keys(es))
    ensures Enumerates(MapOf(es), Values(es))
    ensures AllIn(Values(es), es)
    decreases |es|
  {
    hide Less;
    if es != [] {
      var n := |es| - 1;
      assert es[..n] + [es[n]] + [] == es;
      SortedPart(es[..n], [es[n]], []);
      ValuesEnumerate(es[..n]);
      MapOfLists(es);
      MapOfLists(es[..n]);
      ValuesNext(es, MapOf(es), MapOf(es[..n]));
    }
  }

  lemma {:induction false} ValuesNext(es: seq<Option<Kv>>, m: map<Key, Kv>, m0: map<Key, Kv>)
    requires es != [] && Sorted(Keys(es)) && Lists(m, es) && Lists(m0, es[..|es| - 1])
    requires Enumerates(m0, Values(es[..|es| - 1]))
    requires AllIn(Values(es[..|es| - 1]), es[..|es| - 1])
    ensures Enumerates(m, Values(es))
    ensures AllIn(Values(es), es)
  {
    hide Less, Values, Sorted;
    var n := |es| - 1;
    var vs, vs0 := Values(es), Values(es[..n]);
    LastValue(es);
    EarlierKeys(es, vs0);
    hide Keys, KeyOf;
    forall key | key in m ensures m[key] in vs {
      var j :| 0 <= j < |es| && es[j] == Some(m[key]);
      if j < n {
        assert es[..n][j] == es[j];
        assert Find(m0, key) == es[j];
      }
    }
    forall i | 0 <= i < |vs0| ensures Find(m, vs0[i].key) == Some(vs0[i]) {
      assert Some(vs0[i]) in es;
    }
  }

  // What stands before the last entry is in the list under another key.
  lemma EarlierKeys(es: seq<Option<Kv>>, vs0: seq<Kv>)
    requires es != [] && Sorted(Keys(es)) && AllIn(vs0, es[..|es| - 1])
    ensures AllIn(vs0, es)
    ensures es[|es| - 1].Some? ==> forall i :: 0 <= i < |vs0| ==> vs0[i].key != es[|es| - 1].value.key
  {
    hide Less;
    OrderLaws();
    var n := |es| - 1;
    forall i | 0 <= i < |vs0| ensures Some(vs0[i]) in es && (es[n].Some? ==> vs0[i].key != es[n].value.key) {
      var j :| 0 <= j < n && es[..n][j] == Some(vs0[i]);
      assert es[j] == Some(vs0[i]);
      assert Less(Keys(es)[j], Keys(es)[n]);
    }
  }

  lemma {:induction false} LastValue(es: seq<Option<Kv>>)
    requires es != []
    ensures Values(es) == Values(es[..|es| - 1]) + if es[|es| - 1].Some? then [es[|es| - 1].value] else []
  {
  }
}
