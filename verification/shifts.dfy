/**
 * `2 << n`, the back-off the pipeline uses in two places (the retry sleep of
 * src/email_reader.rs and the health-check sleep of src/model.rs), as an
 * unbounded number of milliseconds.
 */
module Shifts {

  function Pow2(e: nat): (r: nat)
    ensures r >= 1
  {
    if e == 0 then 1 else 2 * Pow2(e - 1)
  }

  /** `2 << n`: two shifted left by `n`, that is `2^(n + 1)`. */
  function TwoShl(n: nat): (r: nat)
    ensures r == Pow2(n + 1)
  {
    2 * Pow2(n)
  }

  lemma {:induction false} Pow2Add(a: nat, b: nat)
    ensures Pow2(a + b) == Pow2(a) * Pow2(b)
  {
    if a > 0 {
      Pow2Add(a - 1, b);
    }
  }

  lemma {:induction false} Pow2Monotone(a: nat, b: nat)
    requires a <= b
    ensures Pow2(a) <= Pow2(b)
    decreases b - a
  {
    if a < b {
      Pow2Monotone(a + 1, b);
    }
  }

  lemma Pow2Sixteen()
    ensures Pow2(16) == 65536
  {
    assert Pow2(4) == 16;
    Pow2Add(4, 4);
    assert Pow2(8) == 256;
    Pow2Add(8, 8);
  }

  /** The delays `2 << 0, ..., 2 << (n - 1)` add up to `2^(n + 1) - 2`. */
  function SumTwoShl(n: nat): nat
  {
    if n == 0 then 0 else SumTwoShl(n - 1) + TwoShl(n - 1)
  }

  lemma {:induction false} SumTwoShlClosed(n: nat)
    ensures SumTwoShl(n) + 2 == Pow2(n + 1)
  {
    if n > 0 {
      SumTwoShlClosed(n - 1);
    }
  }
}
