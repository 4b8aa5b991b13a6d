/** Fixed-width unsigned arithmetic, as a release build of the engine performs it:
  plain operators wrap, the named saturating operators clamp. */
module Widths {
  const U64_MAX: int := 0xFFFF_FFFF_FFFF_FFFF
  const U128_MAX: int := 0xFFFF_FFFF_FFFF_FFFF_FFFF_FFFF_FFFF_FFFF

  type u64 = x: int | 0 <= x <= U64_MAX
  type u128 = x: int | 0 <= x <= U128_MAX

  function Min(x: int, y: int): int { if x <= y then x else y }

  function Max(x: int, y: int): int { if x <= y then y else x }

  function WrapU64(x: nat): u64 { x % (U64_MAX + 1) }

  function SatAddU64(x: u64, y: u64): u64 { Min(x + y, U64_MAX) }

  function SatAddU128(x: u128, y: u128): u128 { Min(x + y, U128_MAX) }

  function SatMulU128(x: u128, y: u128): u128 {
    if x * y <= U128_MAX && 0 <= x * y then x * y else U128_MAX
  }

  /** The widths are 64 and 128 bits. */
  lemma Largest()
    ensures U64_MAX == 18_446_744_073_709_551_615
    ensures U128_MAX == 340_282_366_920_938_463_463_374_607_431_768_211_455
  {
  }

  lemma MulMono(a: int, b: int, c: int, d: int)
    requires 0 <= a <= c && 0 <= b <= d
    ensures 0 <= a * b <= c * d
  {
    assert a * b <= a * d <= c * d;
  }

  /** No product of two 64-bit values saturates in 128 bits. */
  lemma ProductFits(x: u64, y: u64)
    ensures 0 <= x * y <= U64_MAX * U64_MAX < U128_MAX - U64_MAX
    ensures SatMulU128(x, y) == x * y
  {
    MulMono(x, y, U64_MAX, U64_MAX);
  }

  // ---- Floor and ceiling division ----

  /** The floor of n / d is the only q with q * d <= n < (q + 1) * d. */
  lemma FloorUnique(n: int, d: int, q: int)
    requires 0 < d && q * d <= n < (q + 1) * d
    ensures n / d == q
  {
    var r := n / d;
    assert r * d <= n < (r + 1) * d;
    if r < q {
      MulMonoInt(r + 1, q, d);
    } else if q < r {
      MulMonoInt(q + 1, r, d);
    }
  }

  lemma MulMonoInt(x: int, y: int, d: int)
    requires x <= y && 0 <= d
    ensures x * d <= y * d
  {
  }

  /** Division is monotone in the dividend. */
  lemma FloorMono(m: int, n: int, d: int)
    requires 0 < d && m <= n
    ensures m / d <= n / d
  {
    if n / d < m / d {
      MulMonoInt(n / d + 1, m / d, d);
    }
  }

  /** A multiple y * d fits under n exactly when y is at most the floor of n / d. */
  lemma FloorGreatest(n: nat, d: nat, y: int)
    requires 0 < d
    ensures y * d <= n <==> y <= n / d
  {
    var q: int := n / d;
    assert q * d <= n < (q + 1) * d;
    if y <= q {
      MulMonoInt(y, q, d);
    } else {
      MulMonoInt(q + 1, y, d);
    }
  }

  function FloorDiv(n: nat, d: nat): nat
    requires 0 < d
  {
    n / d
  }

  function CeilDiv(n: nat, d: nat): nat
    requires 0 < d
  {
    (n + d - 1) / d
  }

  /** A multiple x * d covers n exactly when x is at least the ceiling of n / d. */
  lemma CeilLeast(n: nat, d: nat, x: int)
    requires 0 < d
    ensures n <= x * d <==> CeilDiv(n, d) <= x
  {
    var c := CeilDiv(n, d);
    assert c * d <= n + d - 1 < (c + 1) * d;
    assert (c + 1) * d == c * d + d;
    if c <= x {
      MulMonoInt(c, x, d);
    } else {
      MulMonoInt(x, c - 1, d);
      assert (c - 1) * d == c * d - d;
    }
  }
}
