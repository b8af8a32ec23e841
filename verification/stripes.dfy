// The 1024 lock stripes of a table (kvmap_hlocks_index, lib1.c:3310-3314): a
// stripe is bits 6 to 15 of a hash, so it can be read off a slot index too.

module Stripes {
  import opened KvApi
  import opened Pow2s

  // KVMAP_MIN_LEVEL: the smallest table power.
  const MIN_POWER: nat := 16
  const NR_STRIPES: nat := 1024

  // Slot index determines stripe: tables have at least 2^16 slots.
  lemma {:induction false} StripeOfSlot(h: nat, power: nat)
    requires power >= MIN_POWER
    ensures Stripe(Low(h, power)) == Stripe(h)
  {
    StripeByLow(h, power, MIN_POWER);
  }

  lemma {:induction false} StripeByLow(h: nat, power: nat, n: nat)
    requires n == 16 && power >= n
    ensures Stripe(Low(h, power)) == Stripe(h)
  {
    LowLow(h, n, power);
    Low16(h, n);
    Low16(Low(h, power), n);
    StripeOfMod(h);
    StripeOfMod(Low(h, power));
  }

  lemma {:induction false} Low16(h: nat, n: nat)
    requires n == 16
    ensures Low(h, n) == h % 65536
  {
    LowIsMod(h, n);
    Pow16();
  }

  lemma Pow16()
    ensures Pow2(16) == 65536
  {
    assert Pow2(4) == 16 && Pow2(8) == 256 && Pow2(12) == 4096;
  }

  lemma StripeOfMod(h: nat)
    ensures Stripe(h) == (h % 65536) / 64
  {
  }

  // Two hashes of one slot have one stripe: an operation on a slot needs no
  // other lock than the one of the key it looks for.
  lemma {:induction false} SlotHasOneStripe(g: nat, h: nat, power: nat)
    requires power >= MIN_POWER && Low(g, power) == Low(h, power)
    ensures Stripe(g) == Stripe(h)
  {
    StripeOfSlot(g, power);
    StripeOfSlot(h, power);
  }

  // One more bit of slot index leaves the stripe: a slot and the two slots it
  // is split into have one stripe, whatever the hashes that land there.
  lemma {:induction false} SplitHasOneStripe(h: nat, j: nat, i: nat)
    requires i >= MIN_POWER && j < Pow2(i) && Low(h, i) == j
    ensures Low(h, i + 1) == j || Low(h, i + 1) == j + Pow2(i)
    ensures Stripe(j) == Stripe(j + Pow2(i)) == Stripe(h)
  {
    LowStep(h, i);
    LowIndex(j, i);
    StripeOfSlot(h, i);
    StripeOfSlot(j + Pow2(i), i);
  }

  // A bitmap word has the flags of 64 neighbouring slots, which share one
  // stripe: the holder of a slot's stripe is the only writer of its word.
  lemma WordHasOneStripe(j: nat, j2: nat)
    requires j / 64 == j2 / 64
    ensures Stripe(j) == Stripe(j2)
  {
  }
}
