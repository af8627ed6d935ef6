/** The bit tricks of the ring: masks, powers of two, and arithmetic modulo 2^32. */
module Bits {
  const WORD := 0x1_0000_0000

  function Pow2(k: nat): (p: nat)
    ensures p >= 1
  {
    if k == 0 then 1 else 2 * Pow2(k - 1)
  }

  /** Bitwise conjunction. */
  function And(x: nat, y: nat): nat {
    if x == 0 || y == 0 then 0
    else 2 * And(x / 2, y / 2) + (if x % 2 == 1 && y % 2 == 1 then 1 else 0)
  }

  /** The number of right shifts that take a number to zero. */
  function BitLength(x: nat): nat {
    if x == 0 then 0 else 1 + BitLength(x / 2)
  }

  lemma {:induction false} Pow2Grows(j: nat, k: nat)
    requires j < k
    ensures Pow2(j) < Pow2(k)
  {
    if j < k - 1 { Pow2Grows(j, k - 1); }
  }

  lemma {:induction false} Pow2Divides(j: nat, k: nat)
    requires j <= k
    ensures Pow2(k) % Pow2(j) == 0
  {
    if j == k {
      assert Pow2(k) % Pow2(j) == 0;
    } else {
      Pow2Divides(j, k - 1);
      var p, q := Pow2(j), Pow2(k - 1);
      assert q == q / p * p;
      assert 2 * q == (2 * (q / p)) * p;
      MultipleModZero(2 * (q / p), p);
    }
  }

  lemma MultipleModZero(n: nat, p: nat)
    requires p > 0
    ensures (n * p) % p == 0
  {
    ModOf(n * p, p, n, 0);
  }

  lemma {:induction false} ProductAtLeast(n: nat, m: nat)
    ensures n > 0 ==> n * m >= m
  {
    if n > 1 {
      ProductAtLeast(n - 1, m);
      assert n * m == (n - 1) * m + m;
    }
  }

  lemma LowerQuotient(m: nat, q: nat, r: nat, d: nat)
    requires q < d && r < m
    ensures q * m + r < d * m
  {
    ProductAtLeast(d - q, m);
    assert d * m == q * m + (d - q) * m;
  }

  /** Quotient and remainder are determined. */
  lemma QuotientIsUnique(m: nat, q: nat, r: nat, d: nat, t: nat)
    requires r < m && t < m && q * m + r == d * m + t
    ensures r == t
  {
    if q < d { LowerQuotient(m, q, r, d); }
    if d < q { LowerQuotient(m, d, t, q); }
  }

  lemma ModOf(x: nat, m: nat, q: nat, r: nat)
    requires r < m && x == q * m + r
    ensures x % m == r
  {
    var d, t := x / m, x % m;
    assert x == d * m + t;
    QuotientIsUnique(m, q, r, d, t);
  }

  lemma WordIsPow2()
    ensures Pow2(32) == WORD && Pow2(31) == 0x8000_0000
  {
    assert Pow2(8) == 256;
    assert Pow2(16) == 65536;
    assert Pow2(24) == 16777216;
  }

  /** `x & (size - 1)` is `x mod size` when the size is a power of two. */
  lemma {:induction false} MaskIsMod(x: nat, k: nat)
    ensures And(x, Pow2(k) - 1) == x % Pow2(k)
    decreases k
  {
    if k > 0 {
      var p := Pow2(k - 1);
      MaskIsMod(x / 2, k - 1);
      HalvedMod(x, p);
      assert (2 * p - 1) / 2 == p - 1 && (2 * p - 1) % 2 == 1;
    }
  }

  lemma HalvedMod(x: nat, p: nat)
    requires p > 0
    ensures x % (2 * p) == 2 * ((x / 2) % p) + x % 2
  {
    var q, r := (x / 2) / p, (x / 2) % p;
    assert x / 2 == q * p + r;
    assert x == 2 * (q * p) + (2 * r + x % 2) == q * (2 * p) + (2 * r + x % 2);
    ModOf(x, 2 * p, q, 2 * r + x % 2);
  }

  /** The macro `is_power_of_two`. */
  predicate IsPowerOfTwo(x: nat) {
    x != 0 && And(x, x - 1) == 0
  }

  lemma {:induction false} AndSelf(x: nat)
    ensures And(x, x) == x
  {
    if x > 0 { AndSelf(x / 2); }
  }

  /** The macro decides what its name says. */
  lemma {:induction false} PowerOfTwoMeans(x: nat)
    ensures IsPowerOfTwo(x) <==> exists k: nat :: x == Pow2(k)
    decreases x
  {
    if x == 1 {
      assert x == Pow2(0);
    } else if x > 1 && x % 2 == 0 {
      PowerOfTwoMeans(x / 2);
      assert (x - 1) / 2 == x / 2 - 1;
      assert IsPowerOfTwo(x) <==> IsPowerOfTwo(x / 2);
      if IsPowerOfTwo(x / 2) {
        var k: nat :| x / 2 == Pow2(k);
        assert x == Pow2(k + 1);
      } else {
        forall k: nat ensures x != Pow2(k) {
          if k > 0 { assert x / 2 != Pow2(k - 1); }
        }
      }
    } else if x > 1 {
      AndSelf(x / 2);
      assert (x - 1) / 2 == x / 2;
      forall k: nat ensures x != Pow2(k) {
        if k > 0 { assert Pow2(k) % 2 == 0; }
      }
    }
  }

  lemma {:induction false} BitLengthBounds(x: nat)
    ensures x < Pow2(BitLength(x))
    ensures x > 0 ==> BitLength(x) > 0 && Pow2(BitLength(x) - 1) <= x
  {
    if x > 0 {
      BitLengthBounds(x / 2);
    }
  }

  lemma BitLengthFits(x: nat)
    requires x < WORD
    ensures BitLength(x) <= 32
    ensures BitLength(x) < 32 <==> x < 0x8000_0000
  {
    BitLengthBounds(x);
    WordIsPow2();
    var n := BitLength(x);
    if n > 32 {
      Pow2Monotone(32, n - 1);
      assert false;
    }
    if n == 32 {
      assert Pow2(31) <= x;
    } else {
      Pow2Monotone(n, 31);
    }
  }

  lemma Pow2Monotone(j: nat, k: nat)
    requires j <= k
    ensures Pow2(j) <= Pow2(k)
  {
    if j < k { Pow2Grows(j, k); }
  }

  /** Reducing a counter modulo 2^32 does not disturb its place in a ring whose size divides 2^32. */
  lemma WrappedMod(x: nat, k: nat)
    requires k <= 32
    ensures (x % WORD) % Pow2(k) == x % Pow2(k)
  {
    WordIsPow2();
    Pow2Divides(k, 32);
    ModOfMod(x, Pow2(k), WORD);
  }

  lemma ModOfMod(x: nat, p: nat, w: nat)
    requires p > 0 && w > 0 && w % p == 0
    ensures (x % w) % p == x % p
  {
    var m, n, y := w / p, x / w, x % w;
    assert w == m * p && x == n * w + y;
    var q, r := y / p, y % p;
    assert y == q * p + r;
    ProductsRegroup(n, m, p, q);
    ModOf(x, p, n * m + q, r);
  }

  lemma ProductsRegroup(n: nat, m: nat, p: nat, q: nat)
    ensures n * (m * p) + q * p == (n * m + q) * p
  {
  }

  /** The difference of two wrapped counters, in 32-bit arithmetic, is the true distance while that is below 2^32. */
  lemma WrappedDifference(a: nat, b: nat)
    requires b <= a < b + WORD
    ensures (a % WORD - b % WORD) % WORD == a - b
  {
  }

  /** The place n steps after x in a ring, for less than a full turn. */
  lemma ModStep(x: nat, n: nat, m: nat)
    requires m > 0 && n <= m
    ensures (x + n) % m == if x % m + n < m then x % m + n else x % m + n - m
  {
    var q, r := x / m, x % m;
    assert x == q * m + r;
    if r + n < m {
      ModOf(x + n, m, q, r + n);
    } else {
      assert (q + 1) * m == q * m + m;
      ModOf(x + n, m, q + 1, r + n - m);
    }
  }
}
