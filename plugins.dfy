/**
 * The two statistics plugins over exact decimals: the mean of two numbers
 * (app/plugins/mean_command.py) and the population standard deviation of two
 * numbers (app/plugins/standard_deviation_command.py).
 */
module Plugins {

  /** `(num1 + num2) / 2`, the value both plugins start from. */
  function Mean(a: real, b: real): real {
    (a + b) / 2.0
  }

  /** The population variance of the two numbers: the mean of their squared deviations. */
  function Variance(a: real, b: real): real {
    var m := Mean(a, b);
    ((a - m) * (a - m) + (b - m) * (b - m)) / 2.0
  }

  function Abs(x: real): real { if x < 0.0 then -x else x }

  /**
   * The standard deviation: the non-negative square root of the variance,
   * exactly. For two numbers the root is half their distance.
   */
  function StandardDeviation(a: real, b: real): (r: real)
    ensures r >= 0.0 && r * r == Variance(a, b)
  {
    VarianceIsSquaredHalfDistance(a, b);
    Abs(a - b) / 2.0
  }

  /** The mean lies between the two numbers and is the same in either order. */
  lemma MeanBetween(a: real, b: real)
    ensures Mean(a, b) == Mean(b, a)
    ensures a <= b ==> a <= Mean(a, b) <= b
    ensures Mean(a, b) - a == b - Mean(a, b)
  {
  }

  /** The variance is the square of half the distance between the numbers. */
  lemma VarianceIsSquaredHalfDistance(a: real, b: real)
    ensures Variance(a, b) == ((a - b) / 2.0) * ((a - b) / 2.0)
  {
    var m := Mean(a, b);
    var d := (a - b) / 2.0;
    assert a - m == d;
    assert b - m == -d;
    assert (b - m) * (b - m) == d * d;
  }

  lemma SquareSign(x: real)
    ensures x * x >= 0.0
    ensures x != 0.0 ==> x * x > 0.0
  {
    if x < 0.0 {
      var y := -x;
      assert y * y > 0.0;
      assert x * x == y * y;
    }
  }

  lemma SquareOfNonZero(v: real, x: real)
    requires v == x * x && x != 0.0
    ensures v > 0.0
  {
    SquareSign(x);
    calc {
      v;
    ==
      x * x;
    >
      0.0;
    }
  }

  /** Hence it is never negative, is symmetric, and is zero exactly for equal numbers. */
  lemma VarianceProperties(a: real, b: real)
    ensures Variance(a, b) >= 0.0
    ensures Variance(a, b) == Variance(b, a)
    ensures Variance(a, b) == 0.0 <==> a == b
  {
    VarianceIsSquaredHalfDistance(a, b);
    VarianceIsSquaredHalfDistance(b, a);
    var d := (a - b) / 2.0;
    assert (b - a) / 2.0 == -d;
    assert d * d == (-d) * (-d);
    SquareSign(d);
    if a != b {
      SquareOfNonZero(Variance(a, b), d);
    }
  }

  /** The standard deviation of a number with itself is zero. */
  lemma StandardDeviationOfEqual(a: real)
    ensures Variance(a, a) == 0.0 && StandardDeviation(a, a) == 0.0
  {
  }

  /** The regression vectors of the plugin tests. */
  lemma MeanVectors()
    ensures Mean(10.0, 20.0) == 15.0 && Mean(-10.0, 20.0) == 5.0 && Mean(0.0, 50.0) == 25.0
    ensures Mean(-50.0, -30.0) == -40.0 && Mean(-50.0, 50.0) == 0.0
    ensures Mean(1000000000000000000.0, 2000000000000000000.0) == 1500000000000000000.0
    ensures Mean(0.0000000001, 0.0000000003) == 0.0000000002
  {
  }

  lemma StandardDeviationVectors()
    ensures Variance(10.0, 20.0) == 25.0 && StandardDeviation(10.0, 20.0) == 5.0
    ensures Variance(-10.0, -30.0) == 100.0 && StandardDeviation(-10.0, -30.0) == 10.0
    ensures Variance(0.0, 50.0) == 625.0 && StandardDeviation(0.0, 50.0) == 25.0
    ensures Variance(-100.0, 100.0) == 10000.0 && StandardDeviation(-100.0, 100.0) == 100.0
    ensures Variance(10.0, 10.0) == 0.0 && StandardDeviation(7.0, 7.0) == 0.0
    ensures StandardDeviation(1000000000000000000.0, 2000000000000000000.0) == 500000000000000000.0
  {
  }
}
