// The bitmap of lib1.c:422-500: one flag per slot and a counter of set flags.

module Bitmaps {
  datatype Bitmap = Bitmap(bits: seq<bool>, ones: nat)

  function Ones(bits: seq<bool>): (n: nat)
    ensures n <= |bits|
  {
    if bits == [] then 0 else (if bits[0] then 1 else 0) + Ones(bits[1..])
  }

  ghost predicate Wf(bm: Bitmap) {
    bm.ones == Ones(bm.bits)
  }

  predicate Test(bm: Bitmap, idx: nat) {
    idx < |bm.bits| && bm.bits[idx]
  }

  // bitmap_test_all0 looks only at the counter; on a well-formed bitmap that
  // answers for every flag.
  predicate TestAll0(bm: Bitmap) {
    bm.ones == 0
  }

  lemma {:induction false} OnesUpdate(bits: seq<bool>, idx: nat, b: bool)
    requires idx < |bits|
    ensures Ones(bits[idx := b]) == Ones(bits) - (if bits[idx] then 1 else 0) + (if b then 1 else 0)
  {
    if idx == 0 {
      assert bits[idx := b][1..] == bits[1..];
    } else {
      assert bits[idx := b][1..] == bits[1..][idx - 1 := b];
      OnesUpdate(bits[1..], idx - 1, b);
    }
  }

  lemma {:induction false} OnesZero(bits: seq<bool>)
    ensures Ones(bits) == 0 <==> forall j :: 0 <= j < |bits| ==> !bits[j]
  {
    if bits != [] {
      OnesZero(bits[1..]);
      if Ones(bits) == 0 {
        assert forall j :: 0 < j < |bits| ==> bits[j] == bits[1..][j - 1];
      } else if !bits[0] {
        var j :| 0 <= j < |bits[1..]| && bits[1..][j];
        assert bits[j + 1];
      }
    }
  }

  lemma {:induction false} OnesAll(bits: seq<bool>, b: bool)
    requires forall j :: 0 <= j < |bits| ==> bits[j] == b
    ensures Ones(bits) == if b then |bits| else 0
  {
    if bits != [] {
      OnesAll(bits[1..], b);
    }
  }

  function Set1(bm: Bitmap, idx: nat): (r: Bitmap)
    requires Wf(bm)
    ensures Wf(r) && |r.bits| == |bm.bits|
    ensures forall j: nat :: Test(r, j) <==> Test(bm, j) || (j == idx && idx < |bm.bits|)
  {
    if idx < |bm.bits| && !Test(bm, idx) then
      OnesUpdate(bm.bits, idx, true);
      Bitmap(bm.bits[idx := true], bm.ones + 1)
    else bm
  }

  function Set0(bm: Bitmap, idx: nat): (r: Bitmap)
    requires Wf(bm)
    ensures Wf(r) && |r.bits| == |bm.bits|
    ensures forall j: nat :: Test(r, j) <==> Test(bm, j) && j != idx
  {
    if idx < |bm.bits| && Test(bm, idx) then
      OnesUpdate(bm.bits, idx, false);
      Bitmap(bm.bits[idx := false], bm.ones - 1)
    else bm
  }

  function Create(n: nat, b: bool): (r: Bitmap)
    ensures Wf(r) && |r.bits| == n
    ensures forall j: nat :: Test(r, j) <==> j < n && b
  {
    var bits := seq(n, _ => b);
    OnesAll(bits, b);
    Bitmap(bits, if b then n else 0)
  }

  // The counter test agrees with the flags.
  lemma TestAll0Correct(bm: Bitmap)
    requires Wf(bm)
    ensures TestAll0(bm) <==> forall j: nat :: !Test(bm, j)
  {
    OnesZero(bm.bits);
    if TestAll0(bm) {
    } else {
      var j :| 0 <= j < |bm.bits| && bm.bits[j];
      assert Test(bm, j);
    }
  }
}
