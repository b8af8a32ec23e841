// Counting: subsets, and the entries of a slot that hold a pointer.

module FiniteSets {
  lemma {:induction false} SubsetSize<T>(a: set<T>, b: set<T>)
    requires a <= b
    ensures |a| <= |b|
    decreases a
  {
    if a != {} {
      var x :| x in a;
      SubsetSize(a - {x}, b - {x});
    }
  }

  // A set has at least the elements of a list without repetitions.
  lemma {:induction false} DistinctSize<T>(s: seq<T>, b: set<T>)
    requires forall i :: 0 <= i < |s| ==> s[i] in b
    requires forall i, j :: 0 <= i < j < |s| ==> s[i] != s[j]
    ensures |s| <= |b|
  {
    if s != [] {
      var n := |s| - 1;
      DistinctSize(s[..n], b - {s[n]});
    }
  }

  // No more keys than values when no two keys have one value.
  lemma {:induction false} InjectionSize<T, U>(m: map<T, U>, b: set<U>)
    requires forall x :: x in m ==> m[x] in b
    requires forall x, y :: x in m && y in m && m[x] == m[y] ==> x == y
    ensures |m.Keys| <= |b|
    decreases m.Keys
  {
    if m.Keys != {} {
      var x :| x in m.Keys;
      var m2 := m - {x};
      assert m2.Keys == m.Keys - {x};
      InjectionSize(m2, b - {m[x]});
    }
  }
}

module EntryCounts {
  import opened Option
  import opened KvApi

  function Used(s: seq<Entry>): (n: nat)
    ensures n <= |s|
  {
    if s == [] then 0 else (if s[0].ptr.Some? then 1 else 0) + Used(s[1..])
  }

  lemma {:induction false} UsedUpdate(s: seq<Entry>, k: nat, e: Entry)
    requires k < |s|
    ensures Used(s[k := e]) == Used(s) - (if s[k].ptr.Some? then 1 else 0) + (if e.ptr.Some? then 1 else 0)
  {
    if k == 0 {
      assert s[k := e][1..] == s[1..];
    } else {
      assert s[k := e][1..] == s[1..][k - 1 := e];
      UsedUpdate(s[1..], k - 1, e);
    }
  }

  lemma {:induction false} UsedFull(s: seq<Entry>)
    ensures Used(s) == |s| <==> forall k :: 0 <= k < |s| ==> s[k].ptr.Some?
  {
    if s != [] {
      UsedFull(s[1..]);
      if Used(s) == |s| {
        assert forall k :: 0 < k < |s| ==> s[k] == s[1..][k - 1];
      } else if s[0].ptr.Some? {
        var k :| 0 <= k < |s[1..]| && s[1..][k].ptr.None?;
        assert s[k + 1].ptr.None?;
      }
    }
  }

  lemma {:induction false} UsedNone(s: seq<Entry>)
    requires forall k :: 0 <= k < |s| ==> s[k].ptr.None?
    ensures Used(s) == 0
  {
    if s != [] {
      UsedNone(s[1..]);
    }
  }
}
