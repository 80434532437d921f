/** Money arithmetic shared by the three implementations: integer powers
    (Python's `**` with an integral exponent, JavaScript's `Math.pow`), running
    sums (Python's `sum`, JavaScript's `reduce` and `+=` accumulators) and the
    cent rounding `Math.round(x * 100) / 100`. Amounts are exact reals. */
module Finance {

  /** `b` raised to the natural power `n`. */
  function Pow(b: real, n: nat): real
  {
    if n == 0 then 1.0 else b * Pow(b, n - 1)
  }

  lemma {:induction false} PowPositive(b: real, n: nat)
    requires b > 0.0
    ensures Pow(b, n) > 0.0
  {
    if n > 0 {
      PowPositive(b, n - 1);
      MulPositive(b, Pow(b, n - 1));
    }
  }

  /** A power vanishes exactly when its base does and the exponent is positive:
      this is when dividing by a discount factor raises or yields Infinity. */
  lemma {:induction false} PowZero(b: real, n: nat)
    ensures Pow(b, n) == 0.0 <==> (b == 0.0 && n > 0)
  {
    if n > 0 {
      PowZero(b, n - 1);
      if b != 0.0 && Pow(b, n - 1) != 0.0 {
        MulNonZero(b, Pow(b, n - 1));
      }
    }
  }

  lemma {:induction false} PowAboveOne(b: real, n: nat)
    requires b > 1.0 && n >= 1
    ensures Pow(b, n) > 1.0
  {
    if n > 1 {
      PowAboveOne(b, n - 1);
      MulAboveOne(b, Pow(b, n - 1));
    }
  }

  lemma {:induction false} PowOfOne(n: nat)
    ensures Pow(1.0, n) == 1.0
  {
    if n > 0 { PowOfOne(n - 1); }
  }

  /** The discount factors `(1 + rate) ** i` for `i` in 1..n are all non-zero. */
  predicate Discountable(rate: real, n: nat)
  {
    n == 0 || 1.0 + rate != 0.0
  }

  /** `amount / (1 + rate) ** n`: an amount due after `n` periods, discounted
      to today. Grown back over the `n` periods it is the amount again. */
  function Discount(amount: real, rate: real, n: nat): (pv: real)
    requires 1.0 + rate != 0.0
    ensures pv * Pow(1.0 + rate, n) == amount
  {
    PowZero(1.0 + rate, n);
    amount / Pow(1.0 + rate, n)
  }

  /** With no rate nothing is discounted; with a positive rate a positive
      amount due after at least one period is worth less, but still more
      than nothing. */
  lemma DiscountBounds(amount: real, rate: real, n: nat)
    requires 1.0 + rate != 0.0
    ensures rate == 0.0 ==> Discount(amount, rate, n) == amount
    ensures rate > 0.0 && amount > 0.0 && n >= 1 ==> 0.0 < Discount(amount, rate, n) < amount
  {
    var d := Pow(1.0 + rate, n);
    var pv := Discount(amount, rate, n);
    if rate == 0.0 {
      PowOfOne(n);
      assert d == 1.0;
    }
    if rate > 0.0 && amount > 0.0 && n >= 1 {
      PowAboveOne(1.0 + rate, n);
      FactorPositive(pv, d, amount);
      FactorAboveOne(pv, d, amount);
    }
  }

  /** Multiplying a positive amount by a factor above one makes it larger. */
  lemma FactorAboveOne(x: real, y: real, z: real)
    requires x > 0.0 && y > 1.0 && x * y == z
    ensures x < z
  {
    MulPositive(x, y - 1.0);
    assert x * (y - 1.0) == x * y - x;
  }

  /** A product that is positive with a positive factor has a positive
      other factor. */
  lemma FactorPositive(x: real, y: real, z: real)
    requires y > 0.0 && z > 0.0 && x * y == z
    ensures x > 0.0
  {
  }

  lemma MulPositive(x: real, y: real)
    requires x > 0.0 && y > 0.0
    ensures x * y > 0.0
  {
  }

  lemma MulNonZero(x: real, y: real)
    requires x != 0.0 && y != 0.0
    ensures x * y != 0.0
  {
  }

  lemma MulAboveOne(x: real, y: real)
    requires x > 1.0 && y > 1.0
    ensures x * y > 1.0
  {
    assert x * y - 1.0 == (x - 1.0) * (y - 1.0) + (x - 1.0) + (y - 1.0);
    MulPositive(x - 1.0, y - 1.0);
  }

  /** `amount * pct`: the share of an amount that a percentage allocates. */
  function Share(amount: real, pct: real): real
  {
    amount * pct
  }

  /** `amount / n`: an amount spread evenly over `n` periods. */
  function PerPeriod(amount: real, n: nat): real
    requires n > 0
  {
    amount / n as real
  }

  /** The `n` equal parts add back up to the amount. */
  lemma SpreadEvenly(amount: real, n: nat)
    requires n > 0
    ensures n as real * PerPeriod(amount, n) == amount
  {
  }

  /** `m` copies of a value within half a cent of `share` are within `m`
      half cents of `m` shares. */
  lemma NearShare(m: real, r: real, share: real, whole: real, total: real)
    requires m > 0.0 && share - 0.005 < r <= share + 0.005
    requires m * share == whole && total == m * r
    ensures whole - 0.005 * m < total <= whole + 0.005 * m
  {
    var d := r - share;
    assert total - whole == m * d;
    MulPositive(m, d + 0.005);
    assert m * (d + 0.005) == m * d + m * 0.005;
    if d < 0.005 {
      MulPositive(m, 0.005 - d);
      assert m * (0.005 - d) == m * 0.005 - m * d;
    } else {
      assert d == 0.005;
      assert m * d == m * 0.005;
    }
  }
  /** An amount spread over `n` periods and rounded to cents adds back up
      to the amount within half a cent per period. */
  lemma RoundedSpread(amount: real, n: nat)
    requires n > 0
    ensures amount - 0.005 * n as real < n as real * RoundCents(PerPeriod(amount, n)) <= amount + 0.005 * n as real
  {
    SpreadEvenly(amount, n);
    NearShare(n as real, RoundCents(PerPeriod(amount, n)), PerPeriod(amount, n), amount, n as real * RoundCents(PerPeriod(amount, n)));
  }
  /** Left-to-right sum, the order in which the sources accumulate. */
  function Sum(xs: seq<real>): real
  {
    if |xs| == 0 then 0.0 else Sum(xs[..|xs| - 1]) + xs[|xs| - 1]
  }

  lemma {:induction false} SumAppend(xs: seq<real>, ys: seq<real>)
    ensures Sum(xs + ys) == Sum(xs) + Sum(ys)
  {
    if |ys| > 0 {
      assert (xs + ys)[..|xs + ys| - 1] == xs + ys[..|ys| - 1];
      SumAppend(xs, ys[..|ys| - 1]);
    } else {
      assert xs + ys == xs;
    }
  }

  lemma SumSingleton(x: real)
    ensures Sum([x]) == x
  {
    assert [x][..0] == [];
  }

  lemma SumCons(x: real, xs: seq<real>)
    ensures Sum([x] + xs) == x + Sum(xs)
  {
    SumAppend([x], xs);
    SumSingleton(x);
  }

  /** Summing a pointwise difference is the difference of the sums. */
  lemma {:induction false} SumDifference(xs: seq<real>, ys: seq<real>, zs: seq<real>)
    requires |xs| == |ys| == |zs|
    requires forall i :: 0 <= i < |zs| ==> zs[i] == xs[i] - ys[i]
    ensures Sum(zs) == Sum(xs) - Sum(ys)
  {
    if |zs| > 0 {
      var k := |zs| - 1;
      SumDifference(xs[..k], ys[..k], zs[..k]);
    }
  }

  /** A non-empty sum of positive amounts is positive. */
  lemma {:induction false} SumPositive(xs: seq<real>)
    requires |xs| > 0 && forall i :: 0 <= i < |xs| ==> xs[i] > 0.0
    ensures Sum(xs) > 0.0
  {
    if |xs| > 1 {
      SumPositive(xs[..|xs| - 1]);
    }
  }

  /** Summing a pointwise multiple is the multiple of the sum. */
  lemma {:induction false} SumScaled(c: real, xs: seq<real>, ys: seq<real>)
    requires |xs| == |ys|
    requires forall i :: 0 <= i < |ys| ==> ys[i] == c * xs[i]
    ensures Sum(ys) == c * Sum(xs)
  {
    if |ys| > 0 {
      var k := |ys| - 1;
      SumScaled(c, xs[..k], ys[..k]);
    }
  }

  /** A sum of `n` copies of `c` is `n * c`. */
  lemma {:induction false} SumConstant(c: real, xs: seq<real>)
    requires forall i :: 0 <= i < |xs| ==> xs[i] == c
    ensures Sum(xs) == |xs| as real * c
  {
    if |xs| > 0 {
      SumConstant(c, xs[..|xs| - 1]);
    }
  }

  /** `Math.round(x * 100) / 100`: `Math.round` rounds halves up, so this is
      the floor of `x * 100 + 0.5`, in cents. The result is a whole number of
      cents within half a cent of `x` (a half cent rounds up). */
  function RoundCents(x: real): (r: real)
    ensures x - 0.005 < r <= x + 0.005
    ensures (r * 100.0).Floor as real == r * 100.0
  {
    (x * 100.0 + 0.5).Floor as real / 100.0
  }

  /** Whole-cent amounts are left as they are. */
  lemma RoundCentsOfCents(k: int)
    ensures RoundCents(k as real / 100.0) == k as real / 100.0
  {
    assert (k as real / 100.0 * 100.0 + 0.5).Floor == k;
  }

  /** A rounded amount is positive exactly when the amount is at least half a
      cent. */
  lemma RoundCentsPositive(x: real)
    ensures RoundCents(x) > 0.0 <==> x >= 0.005
  {
    var f := (x * 100.0 + 0.5).Floor;
    assert RoundCents(x) == f as real / 100.0;
    if x >= 0.005 {
      assert x * 100.0 + 0.5 >= 1.0;
      assert f >= 1;
    } else {
      assert x * 100.0 + 0.5 < 1.0;
      assert f <= 0;
    }
  }
}
