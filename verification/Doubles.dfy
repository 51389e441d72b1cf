/**
 Sums of binary floating point numbers with a 53-bit significand, as naturals on
 the grid of their smallest spacing: binary64 counted in units of 2 to the -1074.
 Rounding is to nearest, ties to even (IEEE 754, section 4.3.1).
 */
module Doubles {

  const SIGNIFICAND: nat := 0x20_0000_0000_0000

  function Pow2(k: nat): (p: nat)
    ensures p >= 1
  {
    if k == 0 then 1 else 2 * Pow2(k - 1)
  }

  /** The spacing of representable numbers around `n`. */
  function Ulp(n: nat): (u: nat)
    ensures u >= 1
  {
    if n < SIGNIFICAND then 1 else 2 * Ulp(n / 2)
  }

  /** `n` is `q` steps of size `d`. */
  predicate Steps(q: nat, d: nat, n: nat) {
    n == q * d
  }

  ghost predicate Divides(d: nat, n: nat) {
    exists q: nat :: Steps(q, d, n)
  }

  ghost predicate Representable(n: nat) {
    Divides(Ulp(n), n)
  }

  function Round(n: nat): nat {
    var u := Ulp(n);
    var q, r := n / u, n % u;
    if 2 * r < u || (2 * r == u && q % 2 == 0) then q * u else (q + 1) * u
  }

  // ---------------------------------------------------------------- divisibility

  lemma DividesTransitive(a: nat, b: nat, n: nat)
    requires Divides(a, b) && Divides(b, n)
    ensures Divides(a, n)
  {
    var p: nat :| Steps(p, a, b);
    var q: nat :| Steps(q, b, n);
    assert q * (p * a) == (q * p) * a;
    assert Steps(q * p, a, n);
  }

  lemma Spread(a: int, b: int, d: int)
    ensures (a + b) * d == a * d + b * d
    ensures (a - b) * d == a * d - b * d
  {
  }

  lemma DividesSum(d: nat, m: nat, n: nat)
    requires d >= 1 && Divides(d, m) && Divides(d, n)
    ensures Divides(d, m + n)
    ensures n <= m ==> Divides(d, m - n)
  {
    var p: nat :| Steps(p, d, m);
    var q: nat :| Steps(q, d, n);
    Spread(p, q, d);
    assert Steps(p + q, d, m + n);
    if n <= m {
      if p < q {
        Grows(q - p, d);
        Spread(q, p, d);
      } else {
        assert Steps(p - q, d, m - n);
      }
    }
  }

  lemma DividesDouble(a: nat, b: nat)
    requires Divides(a, b)
    ensures Divides(2 * a, 2 * b)
  {
    var q: nat :| Steps(q, a, b);
    assert Steps(q, 2 * a, 2 * b);
  }

  lemma Grows(a: nat, b: nat)
    requires a >= 1
    ensures a * b >= b
  {
    Spread(a, 1, b);
  }

  lemma DivisionOf(n: nat, d: nat)
    requires d >= 1
    ensures n == n / d * d + n % d && 0 <= n % d < d
  {
  }

  /** Quotient and remainder are unique. */
  lemma DivideAs(n: nat, d: nat, q: nat, r: nat)
    requires d >= 1 && n == q * d + r && r < d
    ensures n / d == q && n % d == r
  {
    DivisionOf(n, d);
    var p := n / d;
    Spread(q, p, d);
    Spread(p, q, d);
    if q > p {
      Grows(q - p, d);
    } else if p > q {
      Grows(p - q, d);
    }
  }

  lemma {:induction false} PowAdd(a: nat, b: nat)
    ensures Pow2(a + b) == Pow2(a) * Pow2(b)
  {
    if a > 0 {
      PowAdd(a - 1, b);
      assert Pow2(a + b) == 2 * Pow2(a - 1 + b);
    }
  }

  lemma PowSmall()
    ensures Pow2(2) == 4 && Pow2(3) == 8
  {
    assert Pow2(1) == 2;
  }

  lemma Pow2Values()
    ensures Pow2(3) == 8 && Pow2(41) == 0x200_0000_0000 && Pow2(47) == 0x8000_0000_0000
  {
    PowSmall();
    hide Pow2;
    PowAdd(3, 3);
    PowAdd(6, 6);
    PowAdd(12, 12);
    PowAdd(24, 12);
    PowAdd(36, 3);
    PowAdd(39, 2);
    PowAdd(41, 6);
  }

  // ---------------------------------------------------------------- spacings

  lemma {:induction false} UlpBounds(n: nat)
    ensures n < SIGNIFICAND * Ulp(n)
    ensures Ulp(n) > 1 ==> SIGNIFICAND / 2 * Ulp(n) <= n
  {
    if n >= SIGNIFICAND {
      UlpBounds(n / 2);
    }
  }

  /** Spacings are powers of two, so the smaller divides the larger. */
  lemma {:induction false} UlpDivides(m: nat, n: nat)
    requires m <= n
    ensures Divides(Ulp(m), Ulp(n))
  {
    if m < SIGNIFICAND {
      assert Steps(Ulp(n), 1, Ulp(n));
    } else {
      UlpDivides(m / 2, n / 2);
      DividesDouble(Ulp(m / 2), Ulp(n / 2));
    }
  }

  lemma {:induction false} UlpDividesPow(n: nat, k: nat)
    requires n < SIGNIFICAND * Pow2(k)
    ensures Divides(Ulp(n), Pow2(k)) && Ulp(n) <= Pow2(k)
  {
    if n < SIGNIFICAND {
      assert Steps(Pow2(k), 1, Pow2(k));
    } else {
      assert k > 0;
      UlpDividesPow(n / 2, k - 1);
      DividesDouble(Ulp(n / 2), Pow2(k - 1));
    }
  }

  lemma {:induction false} UlpIsPow(n: nat) returns (k: nat)
    ensures Ulp(n) == Pow2(k)
  {
    if n < SIGNIFICAND {
      k := 0;
    } else {
      var j := UlpIsPow(n / 2);
      k := j + 1;
    }
  }

  lemma {:induction false} UlpInRange(n: nat, k: nat)
    requires SIGNIFICAND / 2 * Pow2(k) <= n < SIGNIFICAND * Pow2(k)
    ensures Ulp(n) == Pow2(k)
  {
    if k > 0 {
      assert Pow2(k) == 2 * Pow2(k - 1);
      UlpInRange(n / 2, k - 1);
    }
  }

  // ---------------------------------------------------------------- representable numbers

  /** A multiple of a power of two is representable up to 2 to the 53 times that power. */
  lemma MultipleIsRepresentable(n: nat, k: nat)
    requires Divides(Pow2(k), n) && n < SIGNIFICAND * Pow2(k)
    ensures Representable(n)
  {
    UlpDividesPow(n, k);
    DividesTransitive(Ulp(n), Pow2(k), n);
  }

  lemma RoundOfRepresentable(n: nat)
    requires Representable(n)
    ensures Round(n) == n
  {
    var q: nat :| Steps(q, Ulp(n), n);
    DivideAs(n, Ulp(n), q, 0);
  }

  lemma RoundAs(n: nat, q: nat, r: nat)
    requires n == q * Ulp(n) + r && r < Ulp(n)
    ensures Round(n) == if 2 * r < Ulp(n) || (2 * r == Ulp(n) && q % 2 == 0) then q * Ulp(n) else (q + 1) * Ulp(n)
  {
    DivideAs(n, Ulp(n), q, r);
  }

  /** Rounding moves a number by at most half a spacing. */
  lemma RoundIsNear(n: nat)
    ensures 2 * Round(n) <= 2 * n + Ulp(n) && 2 * n <= 2 * Round(n) + Ulp(n)
  {
    var u := Ulp(n);
    DivisionOf(n, u);
    Spread(n / u, 1, u);
  }

  lemma RoundAtLeastHalf(n: nat)
    ensures 2 * Round(n) >= n
  {
    RoundIsNear(n);
    UlpBounds(n);
    if n == 0 {
      assert Round(0) == 0;
    }
  }

  lemma QuotientBelow(n: nat, d: nat, bound: nat)
    requires d >= 1 && n < bound * d
    ensures n / d < bound
  {
    DivisionOf(n, d);
    Monotone(bound, n / d, d);
  }

  lemma Monotone(a: nat, b: nat, d: nat)
    ensures a <= b ==> a * d <= b * d
  {
    Spread(b, a, d);
    if a < b {
      Grows(b - a, d);
    }
  }

  lemma RoundIsMultiple(n: nat) returns (c: nat)
    ensures Steps(c, Ulp(n), Round(n)) && c <= SIGNIFICAND
  {
    var u := Ulp(n);
    UlpBounds(n);
    QuotientBelow(n, u, SIGNIFICAND);
    var q, r := n / u, n % u;
    c := if 2 * r < u || (2 * r == u && q % 2 == 0) then q else q + 1;
    hide Ulp;
    assert Round(n) == c * u;
  }

  /** A rounded number is representable. */
  lemma RoundIsRepresentable(n: nat)
    ensures Representable(Round(n))
  {
    hide Ulp, Round, Representable;
    var k := UlpIsPow(n);
    var c := RoundIsMultiple(n);
    StepsAreRepresentable(c, k, Round(n));
  }

  /** Up to 2 to the 53 steps of a power of two. */
  lemma StepsAreRepresentable(c: nat, k: nat, n: nat)
    requires c <= SIGNIFICAND && Steps(c, Pow2(k), n)
    ensures Representable(n)
  {
    hide Ulp, Representable;
    if c < SIGNIFICAND {
      Spread(SIGNIFICAND, c, Pow2(k));
      Grows(SIGNIFICAND - c, Pow2(k));
      MultipleIsRepresentable(n, k);
    } else {
      assert Pow2(k + 1) == 2 * Pow2(k);
      assert Steps(SIGNIFICAND / 2, Pow2(k + 1), n);
      MultipleIsRepresentable(n, k + 1);
    }
  }

  /** Taking a multiple of 2 to the `k` from a number below 2 to the 53 such steps is exact. */
  lemma DifferenceIsRepresentable(n: nat, d: nat, k: nat)
    requires Representable(n) && Divides(Pow2(k), d) && d <= n < SIGNIFICAND * Pow2(k)
    ensures Representable(n - d)
  {
    UlpDividesPow(n, k);
    DividesTransitive(Ulp(n), Pow2(k), d);
    DividesSum(Ulp(n), n, d);
    UlpDivides(n - d, n);
    DividesTransitive(Ulp(n - d), Ulp(n), n - d);
  }
}
