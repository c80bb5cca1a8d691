/** Unsigned 64-bit integers and the bit queries the shape formula relies on:
    powers of two, `u64::count_ones` and `u64::trailing_zeros`. */
module Bits {

  /** Rust's `u64`. */
  newtype u64 = x: int | 0 <= x < 0x1_0000_0000_0000_0000

  /** 2^k, which is also `1 << k`. */
  function Pow2(k: nat): (r: nat)
    ensures r >= 1
  {
    if k == 0 then 1 else 2 * Pow2(k - 1)
  }

  /** Number of one bits in the binary representation of n (`count_ones`). */
  function CountOnes(n: nat): (r: nat)
    ensures r == 0 <==> n == 0
    ensures r <= n
  {
    if n == 0 then 0 else n % 2 + CountOnes(n / 2)
  }

  /** Number of zero bits below the lowest one bit of n (`trailing_zeros`);
      the value `trailing_zeros` gives for 0 is not modelled. */
  function TrailingZeros(n: nat): (r: nat)
    requires n > 0
    ensures r < n
  {
    if n % 2 == 1 then 0 else 1 + TrailingZeros(n / 2)
  }

  /** A power of two has exactly one bit set, at position k. */
  lemma {:induction false} Pow2Bits(k: nat)
    ensures CountOnes(Pow2(k)) == 1
    ensures TrailingZeros(Pow2(k)) == k
  {
    if k > 0 {
      Pow2Bits(k - 1);
      assert Pow2(k) % 2 == 0 && Pow2(k) / 2 == Pow2(k - 1);
    }
  }

  /** A number with exactly one bit set is the power of two given by its
      trailing zeros. */
  lemma {:induction false} SingleBitIsPow2(n: nat)
    requires CountOnes(n) == 1
    ensures n == Pow2(TrailingZeros(n))
  {
    if n % 2 == 0 {
      SingleBitIsPow2(n / 2);
    }
  }

  /** 2^k grows strictly with k. */
  lemma {:induction false} Pow2StrictlyIncreasing(a: nat, b: nat)
    requires a < b
    ensures Pow2(a) < Pow2(b)
  {
    if a + 1 < b {
      Pow2StrictlyIncreasing(a, b - 1);
    }
  }

  /** 2^(a+b) = 2^a * 2^b. */
  lemma {:induction false} Pow2Add(a: nat, b: nat)
    ensures Pow2(a + b) == Pow2(a) * Pow2(b)
  {
    if b > 0 {
      Pow2Add(a, b - 1);
    }
  }
}
