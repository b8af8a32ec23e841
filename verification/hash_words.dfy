// The rotation that gives a key its second hash (bits_rotl_u64, lib1.c:393-398;
// cuckoo_hash, lib1.c:4005-4009).

module HashWords {
  import opened KvApi
  import opened Pow2s
  import CuckooState

  // Products, kept from the solver.
  function Times(x: nat, y: nat): nat {
    x * y
  }

  lemma Distribute(x: nat, y: nat, z: nat)
    ensures Times(x + y, z) == Times(x, z) + Times(y, z)
  {
  }

  lemma Twice(x: nat, y: nat)
    ensures Times(x, 2 * y) == 2 * Times(x, y) == Times(2 * x, y)
  {
  }

  lemma Single(x: nat)
    ensures Times(0, x) == 0 && Times(1, x) == x == Times(x, 1)
  {
  }

  lemma Fewer(x: nat, p: nat, q: nat, r: nat)
    requires x < p && r < q
    ensures Times(x, q) + r < Times(p, q)
  {
    Distribute(x + 1, p - x - 1, q);
    Distribute(x, 1, q);
    Single(q);
  }

  lemma {:induction false} PowStep(n: nat)
    ensures Pow2(n + 1) == 2 * Pow2(n) && Pow2(0) == 1
  {
  }

  lemma {:induction false} PowSum(a: nat, b: nat)
    ensures Pow2(a + b) == Times(Pow2(a), Pow2(b))
    decreases b
  {
    hide Times, Pow2;
    PowStep(0);
    Single(Pow2(a));
    if b > 0 {
      PowSum(a, b - 1);
      PowStep(a + b - 1);
      PowStep(b - 1);
      Twice(Pow2(a), Pow2(b - 1));
    }
  }

  lemma {:induction false} Pow63()
    ensures Pow2(63) == 0x8000_0000_0000_0000 && Pow2(64) == TWO64
  {
    assert Pow2(16) == 0x1_0000;
    PowSum(16, 16);
    PowSum(32, 16);
    assert Pow2(15) == 0x8000;
    PowSum(48, 15);
    PowStep(63);
  }

  // The top bit of a word whose upper n bits are hi.
  lemma {:induction false} TopBit(hi: nat, hi2: nat, b: nat, lo: nat, n: nat)
    requires 0 < n <= 64 && b <= 1 && hi == Times(b, Pow2(n - 1)) + hi2 && hi2 < Pow2(n - 1) && lo < Pow2(64 - n)
    ensures Times(hi, Pow2(64 - n)) + lo == b * 0x8000_0000_0000_0000 + (Times(hi2, Pow2(64 - n)) + lo)
    ensures Times(hi2, Pow2(64 - n)) + lo < 0x8000_0000_0000_0000
  {
    hide Times, Pow2;
    Pow63();
    PowSum(n - 1, 64 - n);
    var p, q := Pow2(n - 1), Pow2(64 - n);
    Distribute(Times(b, p), hi2, q);
    Single(q);
    Single(p);
    Fewer(hi2, p, q, lo);
  }

  lemma {:induction false} OneTurn(v: nat, b: nat, rest: nat, n: nat)
    requires n > 0 && b <= 1 && rest < 0x8000_0000_0000_0000 && v == b * 0x8000_0000_0000_0000 + rest
    ensures RotL(v, n) == RotL(2 * rest + b, n - 1)
  {
    RotateOne(b, rest);
  }

  lemma RotateOne(b: nat, rest: nat)
    requires b <= 1 && rest < 0x8000_0000_0000_0000
    ensures var v := b * 0x8000_0000_0000_0000 + rest;
      (2 * v) % TWO64 + v / 0x8000_0000_0000_0000 == 2 * rest + b
  {
  }

  lemma {:induction false} Regroup(hi2: nat, lo: nat, b: nat, n: nat)
    requires 0 < n <= 64
    ensures 2 * (Times(hi2, Pow2(64 - n)) + lo) + b == Times(hi2, Pow2(65 - n)) + (2 * lo + b)
    ensures Times(2 * lo + b, Pow2(n - 1)) == Times(lo, Pow2(n)) + Times(b, Pow2(n - 1))
  {
    hide Times, Pow2;
    PowStep(64 - n);
    PowStep(n - 1);
    Twice(hi2, Pow2(64 - n));
    Twice(lo, Pow2(n - 1));
    Distribute(2 * lo, b, Pow2(n - 1));
  }

  lemma {:induction false} Turned(hi: nat, lo: nat, n: nat)
    requires n <= 64 && hi < Pow2(n) && lo < Pow2(64 - n)
    ensures RotL(Times(hi, Pow2(64 - n)) + lo, n) == Times(lo, Pow2(n)) + hi
    decreases n
  {
    hide Times, Pow2, RotL;
    if n == 0 {
      PowStep(0);
      Single(Pow2(64));
      Single(lo);
      NoTurn(lo);
    } else {
      PowStep(n - 1);
      PowStep(64 - n);
      var p := Pow2(n - 1);
      var b := if hi >= p then 1 else 0;
      var hi2 := if hi >= p then hi - p else hi;
      Single(p);
      TopBit(hi, hi2, b, lo, n);
      OneTurn(Times(hi, Pow2(64 - n)) + lo, b, Times(hi2, Pow2(64 - n)) + lo, n);
      Regroup(hi2, lo, b, n);
      Turned(hi2, 2 * lo + b, n - 1);
    }
  }

  lemma {:induction false} NoTurn(v: nat)
    ensures RotL(v, 0) == v
  {
  }

  // Rotating by n exchanges the upper n bits of a word and the lower 64 - n.
  lemma {:induction false} Rotation(hi: nat, lo: nat, n: nat)
    requires n <= 64 && hi < Pow2(n) && lo < Pow2(64 - n)
    ensures RotL(hi * Pow2(64 - n) + lo, n) == lo * Pow2(n) + hi
  {
    hide Pow2, RotL;
    Turned(hi, lo, n);
    assert Times(hi, Pow2(64 - n)) == hi * Pow2(64 - n) && Times(lo, Pow2(n)) == lo * Pow2(n);
  }

  // The cuckoo table's first hash of a key is the key's own, its second one has
  // the upper 19 bits below the lower 45.
  lemma {:induction false} CuckooHashes(key: Key, hi: nat, lo: nat)
    requires key.hash == hi * Pow2(45) + lo && hi < Pow2(19) && lo < Pow2(45)
    ensures CuckooState.Hash2(key, 0) == hi * Pow2(45) + lo
    ensures CuckooState.Hash2(key, 1) == lo * Pow2(19) + hi
  {
    hide Pow2, RotL;
    Rotation(hi, lo, 19);
  }
}
