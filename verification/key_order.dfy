// The order of keys (kv_keycompare, lib1.c:3035-3056): memcmp of the common
// length, then the length; a null pointer is below every key.

module KeyOrder {
  import opened Option
  import opened KvApi

  // The sign of memcmp over the first n bytes.
  function Memcmp(a: seq<byte>, b: seq<byte>, n: nat): int
    requires n <= |a| && n <= |b|
    decreases n
  {
    if n == 0 then 0
    else if a[0] != b[0] then (if a[0] < b[0] then -1 else 1)
    else Memcmp(a[1..], b[1..], n - 1)
  }

  function BytesCompare(a: seq<byte>, b: seq<byte>): int {
    var len := if |a| < |b| then |a| else |b|;
    var cmp := Memcmp(a, b, len);
    if cmp == 0 then (if |a| < |b| then -1 else if |a| > |b| then 1 else 0) else cmp
  }

  function KeyCompare(k1: Option<Key>, k2: Option<Key>): int {
    if k1.None? then (if k2.None? then 0 else -1)
    else if k2.None? then 1
    else BytesCompare(k1.value.bytes, k2.value.bytes)
  }

  predicate Less(k1: Option<Key>, k2: Option<Key>) {
    KeyCompare(k1, k2) < 0
  }

  // Dropping an equal first byte changes nothing.
  lemma CompareStep(a: seq<byte>, b: seq<byte>)
    requires a != [] && b != []
    ensures BytesCompare(a, b) == if a[0] != b[0] then (if a[0] < b[0] then -1 else 1) else BytesCompare(a[1..], b[1..])
  {
  }

  lemma {:induction false} BytesEqual(a: seq<byte>, b: seq<byte>)
    ensures BytesCompare(a, b) == 0 <==> a == b
    ensures BytesCompare(a, b) < 0 <==> BytesCompare(b, a) > 0
    decreases |a|
  {
    if a != [] && b != [] {
      CompareStep(a, b);
      CompareStep(b, a);
      BytesEqual(a[1..], b[1..]);
      assert a == [a[0]] + a[1..] && b == [b[0]] + b[1..];
    }
  }

  lemma {:induction false} BytesTransitive(a: seq<byte>, b: seq<byte>, c: seq<byte>)
    requires BytesCompare(a, b) < 0 && BytesCompare(b, c) < 0
    ensures BytesCompare(a, c) < 0
    decreases |a|
  {
    if a != [] && b != [] && c != [] {
      CompareStep(a, b);
      CompareStep(b, c);
      CompareStep(a, c);
      if a[0] == b[0] && b[0] == c[0] {
        BytesTransitive(a[1..], b[1..], c[1..]);
      }
    }
  }

  // kv_keycompare is a strict total order on distinct byte strings, and equal
  // exactly on equal bytes.
  lemma LessIsOrder(a: Option<Key>, b: Option<Key>, c: Option<Key>)
    ensures Less(a, b) && Less(b, c) ==> Less(a, c)
    ensures !(Less(a, b) && Less(b, a))
    ensures Less(a, b) || Less(b, a) || KeyCompare(a, b) == 0
    ensures KeyCompare(a, b) == 0 <==> (a.None? && b.None?) || (a.Some? && b.Some? && a.value.bytes == b.value.bytes)
    ensures KeyCompare(a, b) > 0 <==> Less(b, a)
  {
    if a.Some? && b.Some? {
      BytesEqual(a.value.bytes, b.value.bytes);
      BytesEqual(b.value.bytes, a.value.bytes);
      if c.Some? && Less(a, b) && Less(b, c) {
        BytesTransitive(a.value.bytes, b.value.bytes, c.value.bytes);
      }
    }
  }

  // a is before b in a dictionary: they agree on the first n bytes, and there
  // a ends, or has the smaller byte.
  predicate PrecedesAt(a: seq<byte>, b: seq<byte>, n: nat) {
    n <= |a| && n < |b| && a[..n] == b[..n] && (n == |a| || a[n] < b[n])
  }

  ghost predicate Precedes(a: seq<byte>, b: seq<byte>) {
    exists n: nat :: PrecedesAt(a, b, n)
  }

  lemma {:induction false} CompareIsPrecedes(a: seq<byte>, b: seq<byte>)
    ensures BytesCompare(a, b) < 0 <==> Precedes(a, b)
    decreases |a|
  {
    if a == [] {
      assert b != [] ==> PrecedesAt(a, b, 0);
    } else if b != [] {
      CompareStep(a, b);
      CompareIsPrecedes(a[1..], b[1..]);
      if a[0] == b[0] {
        PrecedesStep(a, b);
      } else {
        assert a[0] < b[0] ==> PrecedesAt(a, b, 0);
        forall n: nat ensures PrecedesAt(a, b, n) ==> n == 0 {
          assert n > 0 && n <= |a| && n <= |b| ==> a[..n][0] == a[0] && b[..n][0] == b[0];
        }
      }
    }
  }

  lemma PrecedesStep(a: seq<byte>, b: seq<byte>)
    requires a != [] && b != [] && a[0] == b[0]
    ensures Precedes(a, b) <==> Precedes(a[1..], b[1..])
  {
    if Precedes(a, b) {
      var n: nat :| PrecedesAt(a, b, n);
      if n > 0 {
        assert a[1..][..n - 1] == a[..n][1..] && b[1..][..n - 1] == b[..n][1..];
        assert PrecedesAt(a[1..], b[1..], n - 1);
      }
    }
    if Precedes(a[1..], b[1..]) {
      var n: nat :| PrecedesAt(a[1..], b[1..], n);
      assert a[..n + 1] == [a[0]] + a[1..][..n] && b[..n + 1] == [b[0]] + b[1..][..n];
      assert PrecedesAt(a, b, n + 1);
    }
  }

  // kv_keycompare is dictionary order, with the null key before all others.
  lemma LessIsPrecedes(a: Option<Key>, b: Option<Key>)
    ensures Less(a, b) <==> b.Some? && (a.None? || Precedes(a.value.bytes, b.value.bytes))
  {
    if a.Some? && b.Some? {
      CompareIsPrecedes(a.value.bytes, b.value.bytes);
    }
  }

  // a and b do not compare as different.
  predicate Same(a: Option<Key>, b: Option<Key>) {
    KeyCompare(a, b) == 0
  }

  // The same for all keys at once.
  lemma OrderLaws()
    ensures forall a, b, c :: Less(a, b) && Less(b, c) ==> Less(a, c)
    ensures forall a, b :: Less(a, b) ==> !Less(b, a)
    ensures forall a :: !Less(a, a)
  {
    forall a, b, c ensures Less(a, b) && Less(b, c) ==> Less(a, c) {
      LessIsOrder(a, b, c);
    }
    forall a, b ensures Less(a, b) ==> !Less(b, a) {
      LessIsOrder(a, b, a);
    }
    forall a ensures !Less(a, a) {
      LessIsOrder(a, a, a);
    }
  }

  // Not less, either way round, is the same bytes; less or same against an
  // upper key stays less.
  lemma NotLess(a: Option<Key>, b: Option<Key>, c: Option<Key>)
    ensures !Less(a, b) && !Less(b, a) ==> Same(a, b)
    ensures Same(a, b) ==> (Less(b, c) <==> Less(a, c)) && (Less(c, b) <==> Less(c, a))
    ensures !Less(b, a) && Less(b, c) ==> Less(a, c)
    ensures !Less(b, a) && Less(c, a) ==> Less(c, b)
  {
    LessIsOrder(a, b, c);
    LessIsOrder(c, a, b);
    LessIsOrder(b, a, c);
    LessIsOrder(c, b, a);
  }

  // ---- sorted sequences of entries, and finding a key's place in them ----

  function KeyOf(e: Option<Kv>): Option<Key> {
    if e.Some? then Some(e.value.key) else None
  }

  ghost predicate Sorted(ks: seq<Option<Key>>) {
    forall i, j :: 0 <= i < j < |ks| ==> Less(ks[i], ks[j])
  }

  // i is the last position whose key is not above `key`.
  ghost predicate IsLoc(ks: seq<Option<Key>>, key: Option<Key>, i: nat) {
    && i < |ks| && !Less(key, ks[i])
    && forall j :: i < j < |ks| ==> Less(key, ks[j])
  }

  // The binary search of bptree_leaf_locate and bptree_intm_locate
  // (lib1.c:5240-5282).
  method Locate(ks: seq<Option<Key>>, key: Option<Key>) returns (r: nat)
    requires Sorted(ks) && ks != [] && !Less(key, ks[0])
    ensures IsLoc(ks, key, r)
  {
    hide Less;
    if |ks| < 2 {
      return 0;
    }
    var l := 0;
    r := |ks| - 1;
    while l < r
      invariant l <= r < |ks|
      invariant !Less(key, ks[l])
      invariant forall j :: r < j < |ks| ==> Less(key, ks[j])
    {
      var m := (l + r + 1) / 2;
      var cmp := KeyCompare(key, ks[m]);
      Upwards(ks, key, m);
      if cmp < 0 {
        r := m - 1;
      } else if cmp > 0 {
        l := m;
      } else {
        return m;
      }
    }
  }

  // What one comparison tells about the keys above position m.
  lemma Upwards(ks: seq<Option<Key>>, key: Option<Key>, m: nat)
    requires Sorted(ks) && m < |ks|
    ensures KeyCompare(key, ks[m]) < 0 ==> forall j :: m <= j < |ks| ==> Less(key, ks[j])
    ensures KeyCompare(key, ks[m]) >= 0 ==> !Less(key, ks[m])
    ensures KeyCompare(key, ks[m]) == 0 ==> forall j :: m < j < |ks| ==> Less(key, ks[j])
  {
    forall j | m < j < |ks| && KeyCompare(key, ks[m]) <= 0 ensures Less(key, ks[j]) {
      assert Less(ks[m], ks[j]);
      LessIsOrder(key, ks[m], ks[j]);
      NotLess(key, ks[m], ks[j]);
    }
  }

  // The C library's bsearch over a sorted array.
  method Bsearch(ks: seq<Option<Key>>, key: Option<Key>) returns (r: Option<nat>)
    requires Sorted(ks)
    ensures r.Some? ==> r.value < |ks| && Same(key, ks[r.value])
    ensures r.None? ==> forall j :: 0 <= j < |ks| ==> !Same(key, ks[j])
  {
    hide Less;
    var l, u := 0, |ks|;
    while l < u
      invariant l <= u <= |ks|
      invariant forall j :: 0 <= j < l || u <= j < |ks| ==> !Same(key, ks[j])
    {
      var idx := (l + u) / 2;
      var cmp := KeyCompare(key, ks[idx]);
      Sideways(ks, key, idx);
      if cmp < 0 {
        u := idx;
      } else if cmp > 0 {
        l := idx + 1;
      } else {
        return Some(idx);
      }
    }
    r := None;
  }

  lemma Sideways(ks: seq<Option<Key>>, key: Option<Key>, m: nat)
    requires Sorted(ks) && m < |ks|
    ensures KeyCompare(key, ks[m]) < 0 ==> forall j :: m <= j < |ks| ==> !Same(key, ks[j])
    ensures KeyCompare(key, ks[m]) > 0 ==> forall j :: 0 <= j <= m ==> !Same(key, ks[j])
  {
    forall j | 0 <= j < |ks|
      ensures KeyCompare(key, ks[m]) < 0 && m <= j ==> !Same(key, ks[j])
      ensures KeyCompare(key, ks[m]) > 0 && j <= m ==> !Same(key, ks[j])
    {
      if m < j {
        assert Less(ks[m], ks[j]);
      } else if j < m {
        assert Less(ks[j], ks[m]);
      }
      LessIsOrder(key, ks[m], ks[j]);
      LessIsOrder(ks[j], ks[m], key);
      LessIsOrder(key, ks[j], key);
    }
  }
}
