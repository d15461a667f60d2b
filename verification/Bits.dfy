/** Machine arithmetic that the C++ code relies on: bitwise `&` on unsigned
    integers, powers of two, and reduction to a fixed width. */
module Bits {

  function Pow2(k: nat): (p: nat)
    ensures 0 < p
  {
    if k == 0 then 1 else 2 * Pow2(k - 1)
  }

  /** Bitwise "and" of two unsigned integers of any width, bit by bit. */
  function And(x: nat, y: nat): nat {
    if x == 0 || y == 0 then 0 else 2 * And(x / 2, y / 2) + (x % 2) * (y % 2)
  }

  predicate IsPow2(n: nat) {
    n == 1 || (n != 0 && n % 2 == 0 && IsPow2(n / 2))
  }

  lemma MultipleAtLeast(d: int, n: int)
    requires 0 < d && 1 <= n
    ensures d <= d * n
  {
  }

  /** Euclidean quotient and remainder are unique. */
  lemma {:induction false} DivideUniquely(x: int, d: int, q: int, r: int)
    requires 0 < d && 0 <= r < d && x == d * q + r
    ensures x / d == q && x % d == r
  {
    var q', r' := x / d, x % d;
    assert x == d * q' + r' && 0 <= r' < d;
    Unique(d, q, r, q', r');
  }

  lemma {:induction false} Unique(d: int, q: int, r: int, q': int, r': int)
    requires 0 < d && 0 <= r < d && 0 <= r' < d && d * q + r == d * q' + r'
    ensures q == q' && r == r'
  {
    assert d * (q - q') == d * q - d * q';
    assert d * (q' - q) == d * q' - d * q;
    if q < q' {
      MultipleAtLeast(d, q' - q);
    } else if q' < q {
      MultipleAtLeast(d, q - q');
    }
  }

  lemma {:induction false} HalveModulo(x: nat, p: nat)
    requires 0 < p
    ensures x % (2 * p) == 2 * (x / 2 % p) + x % 2
  {
    var h := x / 2;
    var q, r := h / p, h % p;
    assert h == p * q + r;
    assert (2 * p) * q == 2 * (p * q);
    DivideUniquely(x, 2 * p, q, 2 * r + x % 2);
  }

  /** Masking with 2^k - 1 keeps the low k bits: reduction modulo 2^k. */
  lemma {:induction false} AndLowBits(x: nat, k: nat)
    ensures And(x, Pow2(k) - 1) == x % Pow2(k)
    decreases k
  {
    if k != 0 {
      var p := Pow2(k - 1);
      AndLowBits(x / 2, k - 1);
      HalveModulo(x, p);
      assert (2 * p - 1) / 2 == p - 1 && (2 * p - 1) % 2 == 1;
    }
  }

  lemma {:induction false} Pow2Witness(n: nat) returns (k: nat)
    requires IsPow2(n)
    ensures n == Pow2(k)
  {
    if n == 1 {
      k := 0;
    } else {
      k := Pow2Witness(n / 2);
      k := k + 1;
    }
  }

  lemma {:induction false} AndSelf(x: nat)
    ensures And(x, x) == x
  {
    if x != 0 {
      AndSelf(x / 2);
    }
  }

  /** The constructor's assertion `capacity > 0 && (capacity & (capacity - 1)) == 0`
      accepts the powers of two and nothing else. */
  lemma {:induction false} CapacityTest(c: nat)
    requires 0 < c
    ensures And(c, c - 1) == 0 <==> IsPow2(c)
  {
    if c == 1 {
    } else if c % 2 == 0 {
      CapacityTest(c / 2);
      assert (c - 1) / 2 == c / 2 - 1;
    } else {
      assert (c - 1) / 2 == c / 2;
      AndSelf(c / 2);
    }
  }

  /** `& (capacity - 1)` wraps an index exactly as `% capacity` does, for every
      index, if and only if the capacity is a power of two. */
  lemma {:induction false} MaskIsModulo(c: nat)
    requires 0 < c
    ensures (forall x: nat :: And(x, c - 1) == x % c) <==> IsPow2(c)
  {
    if IsPow2(c) {
      var k := Pow2Witness(c);
      forall x: nat ensures And(x, c - 1) == x % c {
        AndLowBits(x, k);
      }
    } else {
      CapacityTest(c);
      assert c % c == 0;
      assert And(c, c - 1) != c % c;
    }
  }
}
