// Powers of two and remainders by them: the arithmetic of table indices.

module Pow2s {
  function Pow2(n: nat): (p: nat)
    ensures p > 0
  {
    if n == 0 then 1 else 2 * Pow2(n - 1)
  }

  // The low n bits of h: h & ((1 << n) - 1).
  function Low(h: nat, n: nat): (r: nat)
    ensures r < Pow2(n)
    decreases n
  {
    if n == 0 then 0 else h % 2 + 2 * Low(h / 2, n - 1)
  }

  lemma Distrib(a: int, b: int, d: int)
    ensures (a + b) * d == a * d + b * d
  {
  }

  lemma Assoc(a: int, b: int, c: int)
    ensures a * (b * c) == (a * b) * c
  {
  }

  lemma MulGap(a: nat, b: nat, d: nat)
    requires a < b
    ensures a * d + d <= b * d
  {
    Distrib(a + 1, b - a - 1, d);
    Distrib(a, 1, d);
  }

  lemma DivModUnique(h: nat, d: nat, q: nat, r: nat)
    requires d > 0 && r < d && h == q * d + r
    ensures h / d == q && h % d == r
  {
    var p := h / d;
    if p < q {
      MulGap(p, q, d);
    } else if q < p {
      MulGap(q, p, d);
    }
  }

  // The low n bits are the remainder by 2^n.
  lemma {:induction false} LowIsMod(h: nat, n: nat)
    ensures Low(h, n) == h % Pow2(n)
    decreases n
  {
    if n > 0 {
      LowIsMod(h / 2, n - 1);
      HalfMod(h, Pow2(n - 1));
    }
  }

  lemma HalfMod(h: nat, d: nat)
    requires d > 0
    ensures h % 2 + 2 * ((h / 2) % d) == h % (2 * d)
  {
    var q, r := (h / 2) / d, (h / 2) % d;
    assert h / 2 == q * d + r;
    Assoc(2, q, d);
    Assoc(q, 2, d);
    DivModUnique(h, 2 * d, q, h % 2 + 2 * r);
  }

  // One more bit of the hash either keeps the index or adds 2^n to it.
  lemma {:induction false} LowStep(h: nat, n: nat)
    ensures Low(h, n + 1) == Low(h, n) || Low(h, n + 1) == Low(h, n) + Pow2(n)
    decreases n
  {
    if n > 0 {
      LowStep(h / 2, n - 1);
    }
  }

  // An index below 2^n, with or without one more bit on top of it.
  lemma {:induction false} LowIndex(j: nat, n: nat)
    requires j < Pow2(n)
    ensures Low(j, n) == j && Low(j, n + 1) == j
    ensures Low(j + Pow2(n), n) == j && Low(j + Pow2(n), n + 1) == j + Pow2(n)
    decreases n
  {
    if n > 0 {
      LowIndex(j / 2, n - 1);
      assert (j + Pow2(n)) / 2 == j / 2 + Pow2(n - 1);
    }
  }

  // The low n bits of h do not see the bits from m >= n upwards.
  lemma {:induction false} LowLow(h: nat, n: nat, m: nat)
    requires n <= m
    ensures Low(Low(h, m), n) == Low(h, n)
    decreases n
  {
    if n > 0 {
      LowLow(h / 2, n - 1, m - 1);
    }
  }

  // Equal low m bits have equal low n bits, for n <= m.
  lemma {:induction false} LowAgree(g: nat, h: nat, n: nat, m: nat)
    requires n <= m && Low(g, m) == Low(h, m)
    ensures Low(g, n) == Low(h, n)
  {
    LowLow(g, n, m);
    LowLow(h, n, m);
  }
}
