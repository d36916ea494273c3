/** Sums of counts taken in IEEE 754 binary64, round to nearest, ties to even. */
module Binary64 {

  /** 2^53: every natural number below it is a binary64 number, and so is it. */
  const TWO_53: nat := 0x20_0000_0000_0000
  const MAX_SAFE_INTEGER: nat := TWO_53 - 1

  /** The spacing of the binary64 numbers around `n`. */
  function Spacing(n: nat): (p: nat)
    ensures p >= 1
  {
    if n < TWO_53 then 1 else 2 * Spacing(n / 2)
  }

  /** The binary64 number nearest to `n`; of two equally near, the one with the even significand. */
  function Round(n: nat): nat {
    var p := Spacing(n);
    var q, r := n / p, n % p;
    if 2 * r < p || (2 * r == p && q % 2 == 0) then q * p else (q + 1) * p
  }

  /** `reduce((total, x) => total + x, 0)`. */
  function FloatSum(xs: seq<nat>): nat {
    if xs == [] then 0 else Round(FloatSum(xs[..|xs| - 1]) + xs[|xs| - 1])
  }

  function Sum(xs: seq<nat>): nat {
    if xs == [] then 0 else Sum(xs[..|xs| - 1]) + xs[|xs| - 1]
  }

  /** A number that needs a wider spacing keeps a full significand. */
  lemma {:induction false} SignificandFull(n: nat)
    requires n >= TWO_53
    ensures Spacing(n) >= 2
    ensures n >= Spacing(n) * (TWO_53 / 2)
  {
    var h := n / 2;
    if h >= TWO_53 {
      SignificandFull(h);
      assert n >= 2 * h;
    } else {
      assert Spacing(n) == 2;
    }
  }

  lemma ProductsOrderFactors(p: nat, a: nat, b: nat)
    requires p * a < p * b
    ensures a < b
  {
  }

  lemma QuotientAtLeast(n: nat, p: nat, k: nat)
    requires p >= 1 && n >= p * k
    ensures n / p >= k
  {
    assert n == p * (n / p) + n % p;
    assert p * (n / p + 1) == p * (n / p) + p;
    ProductsOrderFactors(p, k, n / p + 1);
  }

  /** The product of a quotient of at least half of 2^53 and a spacing of at least two. */
  lemma RoundedProduct(q: nat, p: nat)
    requires q >= TWO_53 / 2 && p >= 2
    ensures q * p >= TWO_53 && (q + 1) * p >= TWO_53
  {
    ProductsGrow(TWO_53 / 2, q, 2, p);
    ProductsGrow(q, q + 1, p, p);
  }

  lemma ProductsGrow(a: nat, b: nat, c: nat, d: nat)
    requires a <= b && c <= d
    ensures a * c <= b * d
  {
    assert b * d == a * c + a * (d - c) + (b - a) * d;
  }

  /** Rounding is exact below 2^53 and never falls back below it. */
  lemma RoundAroundTwo53(n: nat)
    ensures n < TWO_53 ==> Round(n) == n
    ensures n >= TWO_53 ==> Round(n) >= TWO_53
  {
    if n >= TWO_53 {
      SignificandFull(n);
      var p := Spacing(n);
      QuotientAtLeast(n, p, TWO_53 / 2);
      RoundedProduct(n / p, p);
    }
  }

  lemma {:induction false} FloatSumExactOrLarge(xs: seq<nat>)
    ensures FloatSum(xs) == Sum(xs) || (FloatSum(xs) >= TWO_53 && Sum(xs) >= TWO_53)
  {
    if xs != [] {
      var init, last := xs[..|xs| - 1], xs[|xs| - 1];
      FloatSumExactOrLarge(init);
      RoundAroundTwo53(FloatSum(init) + last);
      RoundAroundTwo53(Sum(init) + last);
    }
  }

  /** Comparing the rounded sum with a safe integer decides about the exact sum. */
  lemma FloatSumDecidesExactSum(xs: seq<nat>, total: nat)
    requires total <= MAX_SAFE_INTEGER
    ensures FloatSum(xs) == total <==> Sum(xs) == total
  {
    FloatSumExactOrLarge(xs);
  }
}
