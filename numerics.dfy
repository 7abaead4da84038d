/// The floating-point side of the test battery, kept abstract.
///
/// The tests compute exact integer statistics and then hand them to
/// floating-point special functions: a square root, the exponential inside
/// the complementary-error-function approximation, a base-2 logarithm and the
/// chi-square cumulative distribution function. Those are parameters here
/// (`Numerics`); what the model fixes is which statistic each test feeds them
/// (`PValue`) and the exact arithmetic around them.
module SpecialFunctions {

  /// The significance level: a p-value at or above it is "consistent with randomness".
  const SIGNIFICANCE: real := 0.01

  /// `std::f64::consts::SQRT_2`, the double nearest to the square root of 2.
  const SQRT_2: real := 1.4142135623730951

  /// The special functions the source takes from the standard library and
  /// from `statrs`; `chiSquareCdf(df, x)` is the CDF at `x` with `df`
  /// degrees of freedom.
  datatype Numerics = Numerics(
    sqrt: real -> real,
    exp: real -> real,
    log2: real -> real,
    chiSquareCdf: (nat, real) -> real)
  {
    /// The only fact the model needs of the square root: it is positive on
    /// positive arguments, so that dividing by it is defined.
    ghost predicate Valid()
    {
      forall x: real :: x > 0.0 ==> sqrt(x) > 0.0
    }
  }

  /// How a test arrives at its p-value: the literal 0.0 of a guard, or a
  /// special function applied to an exact statistic.
  datatype PValue =
    | Zero
      /// `erfc(|sum| / sqrt(n) / SQRT_2)`, the frequency (monobit) test.
    | Monobit(sum: int, n: nat)
      /// `erfc(|runs - 2 n pi (1 - pi)| / (2 sqrt(2 n) pi (1 - pi) SQRT_2))`
      /// with `pi = ones / n`, the runs test.
    | Runs(runs: nat, ones: nat, n: nat)
      /// `1 - CDF_df(statistic)`, the three chi-square based tests.
    | ChiSquareTail(statistic: real, df: nat)
  {
    /// The statistic is one a test can produce: at least one bit, and for
    /// the runs test a proportion of ones strictly between 0 and 1.
    predicate WellFormed()
    {
      match this
      case Zero => true
      case Monobit(_, n) => n > 0
      case Runs(_, ones, n) => 0 < ones < n
      case ChiSquareTail(_, df) => df > 0
    }
  }

  function Abs(x: real): real { if x < 0.0 then -x else x }

  /// The complementary error function as the source approximates it: a
  /// fixed-coefficient polynomial in `t = 1 / (1 + z/2)` inside an
  /// exponential, reflected for negative arguments.
  function Erfc(x: real, exp: real -> real): real
  {
    var z := Abs(x);
    var t := 1.0 / (1.0 + 0.5 * z);
    var ans := t * exp(ErfcExponent(z, t));
    if x >= 0.0 then ans else 2.0 - ans
  }

  function ErfcExponent(z: real, t: real): real
  {
    -z * z - 1.26551223 +
    t * (1.00002368 +
    t * (0.37409196 +
    t * (0.09678418 +
    t * (-0.18628806 +
    t * (0.27886807 +
    t * (-1.13520398 +
    t * (1.48851587 +
    t * (-0.82215223 +
    t * 0.17087277))))))))
  }

  /// Reflection: for every nonzero argument, `erfc(-x) = 2 - erfc(x)`,
  /// whatever the exponential.
  lemma ErfcReflection(x: real, exp: real -> real)
    requires x != 0.0
    ensures Erfc(-x, exp) == 2.0 - Erfc(x, exp)
  {
    assert Abs(-x) == Abs(x);
  }

  /// At zero the coefficients do not cancel exactly: the approximation
  /// gives `exp(0.00000003)` rather than `exp(0) = 1`.
  lemma ErfcAtZero(exp: real -> real)
    ensures Erfc(0.0, exp) == exp(0.00000003)
  {
    assert ErfcExponent(0.0, 1.0) == 0.00000003;
  }

  /// The numeric p-value: the float expression the source evaluates for the
  /// statistic, over the given special functions.
  function Evaluate(p: PValue, nx: Numerics): real
    requires p.WellFormed() && nx.Valid()
  {
    match p
    case Zero => 0.0
    case Monobit(sum, n) =>
      var sObs := Abs(sum as real) / nx.sqrt(n as real);
      Erfc(sObs / SQRT_2, nx.exp)
    case Runs(runs, ones, n) =>
      var pi := ones as real / n as real;
      var numerator := Abs(runs as real - 2.0 * n as real * pi * (1.0 - pi));
      var denominator := RunsDenominator(ones, n, nx);
      RunsDenominatorZero(ones, n, nx);
      PositiveProduct(denominator, SQRT_2, 1.0);
      Erfc(numerator / (denominator * SQRT_2), nx.exp)
    case ChiSquareTail(statistic, df) => 1.0 - nx.chiSquareCdf(df, statistic)
  }

  /// The runs test's denominator `2 sqrt(2 n) pi (1 - pi)` with `pi = ones / n`.
  function RunsDenominator(ones: nat, n: nat, nx: Numerics): real
    requires n > 0
  {
    var pi := ones as real / n as real;
    2.0 * nx.sqrt(2.0 * n as real) * pi * (1.0 - pi)
  }

  /// The denominator vanishes exactly when the bits are all zeros or all ones.
  lemma RunsDenominatorZero(ones: nat, n: nat, nx: Numerics)
    requires nx.Valid() && 0 < n && ones <= n
    ensures RunsDenominator(ones, n, nx) == 0.0 <==> ones == 0 || ones == n
    ensures RunsDenominator(ones, n, nx) >= 0.0
  {
    var pi := ones as real / n as real;
    var root := nx.sqrt(2.0 * n as real);
    assert root > 0.0;
    if ones == 0 {
      assert pi == 0.0;
    } else if ones == n {
      assert pi == 1.0;
    } else {
      assert 0.0 < pi < 1.0;
      PositiveProduct(2.0 * root, pi, 1.0 - pi);
    }
  }

  lemma PositiveProduct(a: real, b: real, c: real)
    requires a > 0.0 && b > 0.0 && c > 0.0
    ensures a * b * c > 0.0 && a * b > 0.0
  {
  }

  /// The decision every consumer applies: pass when `p >= 0.01`.
  predicate Passes(p: real)
  {
    p >= SIGNIFICANCE
  }

  /// A guard's 0.0 is always a failure, so "not applicable" reads as "failed".
  lemma GuardNeverPasses(nx: Numerics)
    requires nx.Valid()
    ensures !Passes(Evaluate(Zero, nx))
  {
  }
}
