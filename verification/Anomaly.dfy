/**
 Z-score anomaly detection over exact reals: what the population z-score can and cannot report.
 */
module Anomaly {

  datatype Anomaly = Anomaly(index: nat, value: real, zscore: real)

  function Sum(s: seq<real>): real { if s == [] then 0.0 else Sum(s[..|s| - 1]) + s[|s| - 1] }

  function SumSq(s: seq<real>): real { if s == [] then 0.0 else SumSq(s[..|s| - 1]) + s[|s| - 1] * s[|s| - 1] }

  function Mean(values: seq<real>): real
    requires values != []
  {
    Sum(values) / |values| as real
  }

  function Shifted(values: seq<real>, c: real): (d: seq<real>)
    ensures |d| == |values| && forall i :: 0 <= i < |d| ==> d[i] == values[i] - c
  {
    seq(|values|, i requires 0 <= i < |values| => values[i] - c)
  }

  function Deviations(values: seq<real>): seq<real>
    requires values != []
  {
    Shifted(values, Mean(values))
  }

  function Variance(values: seq<real>): real
    requires values != []
  {
    SumSq(Deviations(values)) / |values| as real
  }

  // statistics.pstdev: the non-negative square root of the population variance.
  predicate IsPstdev(values: seq<real>, stdev: real) {
    values != [] ==> stdev >= 0.0 && stdev * stdev == Variance(values)
  }

  function ZeroScores(n: nat): (z: seq<real>)
    ensures |z| == n && forall i :: 0 <= i < n ==> z[i] == 0.0
  {
    seq(n, i => 0.0)
  }

  function Quotient(x: real, s: real): real
    requires s != 0.0
  {
    x / s
  }

  function Zscore(values: seq<real>, stdev: real): (z: seq<real>)
    requires IsPstdev(values, stdev)
    ensures |z| == |values|
  {
    if |values| < 2 then ZeroScores(|values|)
    else if stdev == 0.0 then ZeroScores(|values|)
    else
      var mean := Mean(values);
      seq(|values|, i requires 0 <= i < |values| => Quotient(values[i] - mean, stdev))
  }

  function Abs(x: real): real { if x < 0.0 then -x else x }

  // The comprehension over the first n points.
  function Reported(values: seq<real>, scores: seq<real>, threshold: real, n: nat): seq<Anomaly>
    requires n <= |values| == |scores|
  {
    if n == 0 then []
    else
      Reported(values, scores, threshold, n - 1) +
      if Abs(scores[n - 1]) > threshold then [Anomaly(n - 1, values[n - 1], scores[n - 1])] else []
  }

  function DetectAnomalies(values: seq<real>, threshold: real, minPoints: int, stdev: real): seq<Anomaly>
    requires IsPstdev(values, stdev)
  {
    if |values| < minPoints then []
    else Reported(values, Zscore(values, stdev), threshold, |values|)
  }

  ghost predicate Reports(found: seq<Anomaly>, i: nat) { exists k :: 0 <= k < |found| && found[k].index == i }

  lemma {:induction false} ReportedMeaning(values: seq<real>, scores: seq<real>, threshold: real, n: nat, i: nat)
    requires n <= |values| == |scores|
    ensures Reports(Reported(values, scores, threshold, n), i) <==> i < n && Abs(scores[i]) > threshold
  {
    if n > 0 {
      ReportedMeaning(values, scores, threshold, n - 1, i);
      var front, found := Reported(values, scores, threshold, n - 1), Reported(values, scores, threshold, n);
      if Reports(front, i) {
        var k :| 0 <= k < |front| && front[k].index == i;
        assert found[k].index == i;
      }
      if Abs(scores[n - 1]) > threshold {
        assert found[|found| - 1].index == n - 1;
      }
      if Reports(found, i) {
        var k :| 0 <= k < |found| && found[k].index == i;
        if k < |front| {
          assert front[k].index == i;
        }
      }
    }
  }

  // Every report carries its own point's value and score; each point once and in order.
  ghost predicate Faithful(found: seq<Anomaly>, values: seq<real>, scores: seq<real>, n: nat)
    requires n <= |values| == |scores|
  {
    && (forall k :: 0 <= k < |found| ==> OfPoint(found[k], values, scores, n))
    && (forall j, k :: 0 <= j < k < |found| ==> found[j].index < found[k].index)
  }

  predicate OfPoint(a: Anomaly, values: seq<real>, scores: seq<real>, n: nat)
    requires n <= |values| == |scores|
  {
    a.index < n && a.value == values[a.index] && a.zscore == scores[a.index]
  }

  lemma FaithfulMore(found: seq<Anomaly>, values: seq<real>, scores: seq<real>, n: nat)
    requires n < |values| == |scores| && Faithful(found, values, scores, n)
    ensures Faithful(found, values, scores, n + 1)
    ensures Faithful(found + [Anomaly(n, values[n], scores[n])], values, scores, n + 1)
  {
    var more := found + [Anomaly(n, values[n], scores[n])];
    forall k | 0 <= k < |found| ensures more[k] == found[k] && OfPoint(found[k], values, scores, n + 1) {
      assert OfPoint(found[k], values, scores, n);
    }
  }

  /** Reports carry the point's own value and score, each point once and in order. */
  lemma {:induction false} ReportedFields(values: seq<real>, scores: seq<real>, threshold: real, n: nat)
    requires n <= |values| == |scores|
    ensures Faithful(Reported(values, scores, threshold, n), values, scores, n)
  {
    if n > 0 {
      var front := Reported(values, scores, threshold, n - 1);
      ReportedFields(values, scores, threshold, n - 1);
      FaithfulMore(front, values, scores, n - 1);
      assert front + [] == front;
    }
  }

  // ---- Sums ----

  lemma {:induction false} SumConcat(a: seq<real>, b: seq<real>)
    ensures Sum(a + b) == Sum(a) + Sum(b) && SumSq(a + b) == SumSq(a) + SumSq(b)
  {
    if b == [] {
      assert a + b == a;
    } else {
      SumConcat(a, b[..|b| - 1]);
      assert (a + b)[..|a + b| - 1] == a + b[..|b| - 1];
    }
  }

  lemma {:induction false} SumShifted(values: seq<real>, c: real)
    ensures Sum(Shifted(values, c)) == Sum(values) - |values| as real * c
  {
    if values != [] {
      var front := values[..|values| - 1];
      SumShifted(front, c);
      assert Shifted(values, c)[..|values| - 1] == Shifted(front, c);
      assert |values| as real * c == |front| as real * c + c;
    }
  }

  // (S + x)^2 <= (m + 1)(Q + x^2) when S^2 <= m Q.
  lemma CauchyStep(m: real, s: real, q: real, x: real)
    requires m > 0.0 && CauchySchwarz(m, s, q)
    ensures CauchySchwarz(m + 1.0, s + x, q + x * x)
  {
    var gap := q + m * (x * x) - 2.0 * (s * x);
    var y := s - m * x;
    assert m * gap == m * q + (m * x) * (m * x) - 2.0 * (s * (m * x));
    assert y * y == s * s - 2.0 * (s * (m * x)) + (m * x) * (m * x);
    assert y * y >= 0.0;
    assert m * gap >= 0.0;
    assert gap >= 0.0;
    assert (m + 1.0) * (q + x * x) - (s + x) * (s + x) == (m * q - s * s) + gap;
  }

  predicate CauchySchwarz(n: real, sum: real, squares: real) { sum * sum <= n * squares }

  /** Cauchy-Schwarz against the constant vector. */
  lemma {:induction false} SquareOfSum(s: seq<real>)
    ensures CauchySchwarz(|s| as real, Sum(s), SumSq(s))
  {
    if |s| == 1 {
      assert s[..0] == [];
    } else if s != [] {
      var front := s[..|s| - 1];
      SquareOfSum(front);
      CauchyStep(|front| as real, Sum(front), SumSq(front), s[|s| - 1]);
    }
  }

  lemma DeviationsCancel(values: seq<real>)
    requires values != []
    ensures Sum(Deviations(values)) == 0.0
  {
    SumShifted(values, Mean(values));
  }

  // ---- Samuelson's inequality ----

  lemma SumsAround(a: seq<real>, x: real, b: seq<real>)
    ensures Sum(a + [x] + b) == Sum(a + b) + x
    ensures SumSq(a + [x] + b) == SumSq(a + b) + x * x
  {
    SumConcat(a + [x], b);
    SumConcat(a, [x]);
    SumConcat(a, b);
    SumOne(x);
  }

  lemma SplitAt(d: seq<real>, i: nat)
    requires i < |d|
    ensures d == d[..i] + [d[i]] + d[i + 1..]
  {
  }

  lemma WithoutOne(d: seq<real>, i: nat) returns (rest: seq<real>)
    requires i < |d|
    ensures |rest| == |d| - 1
    ensures Sum(rest) == Sum(d) - d[i] && SumSq(rest) == SumSq(d) - d[i] * d[i]
  {
    SplitAt(d, i);
    SumsAround(d[..i], d[i], d[i + 1..]);
    rest := d[..i] + d[i + 1..];
  }

  lemma SumOne(x: real)
    ensures Sum([x]) == x && SumSq([x]) == x * x
  {
    assert [x][..0] == [];
  }

  // One deviation takes at most (n - 1)/n of the sum of squares.
  predicate ShareOf(n: real, x: real, squares: real) { n * (x * x) <= (n - 1.0) * squares }

  lemma OneAgainstTheRest(d: seq<real>, i: nat)
    requires i < |d| && Sum(d) == 0.0
    ensures ShareOf(|d| as real, d[i], SumSq(d))
  {
    var rest := WithoutOne(d, i);
    SquareOfSum(rest);
    OneAgainstRestArithmetic(|d| as real, |rest| as real, d[i], SumSq(d), Sum(rest), SumSq(rest));
  }

  lemma OneAgainstRestArithmetic(n: real, m: real, x: real, q: real, restSum: real, restSq: real)
    requires m == n - 1.0 && restSum == 0.0 - x && restSq == q - x * x
    requires CauchySchwarz(m, restSum, restSq)
    ensures ShareOf(n, x, q)
  {
    assert restSum * restSum == x * x;
    assert (n - 1.0) * restSq == (n - 1.0) * q - n * (x * x) + x * x;
  }

  lemma SpreadIsPositive(values: seq<real>, stdev: real)
    requires values != [] && IsPstdev(values, stdev) && stdev != 0.0
    ensures Variance(values) > 0.0
  {
    PositiveRoot(stdev, Variance(values));
  }

  lemma PositiveRoot(s: real, v: real)
    requires s * s == v && s != 0.0
    ensures v > 0.0
  {
    if s > 0.0 {
      RaiseProduct(s, s, v);
    } else {
      RaiseProduct(-s, -s, v);
    }
  }

  lemma RaiseProduct(x: real, y: real, xy: real)
    requires x > 0.0 && y > 0.0 && xy == x * y
    ensures xy > 0.0
  {
  }

  lemma ProductOfSquares(x: real, y: real)
    ensures (x * y) * (x * y) == x * x * (y * y)
  {
  }

  lemma MulMono(a: real, x: real, y: real)
    requires a >= 0.0 && x <= y
    ensures a * x <= a * y
  {
  }

  lemma MulStrict(a: real, x: real, y: real)
    requires a > 0.0 && x < y
    ensures a * x < a * y
  {
  }

  lemma CancelLe(a: real, x: real, y: real)
    requires a > 0.0 && a * x <= a * y
    ensures x <= y
  {
    if y < x {
      MulStrict(a, y, x);
    }
  }

  lemma DivideOut(n: real, z2: real, variance: real, d: real, q: real)
    requires n > 0.0 && variance > 0.0 && z2 * variance == d * d && q == n * variance && ShareOf(n, d, q)
    ensures z2 <= n - 1.0
  {
    var d2 := d * d;
    assert n * d2 == q * z2 by {
      assert n * (z2 * variance) == (n * variance) * z2;
    }
    RaiseProduct(n, variance, q);
    CancelLe(q, z2, n - 1.0);
  }

  function Score(n: nat, d: real, s: real): real { if n < 2 || s == 0.0 then 0.0 else Quotient(d, s) }

  lemma SamuelsonSpread(values: seq<real>, stdev: real, i: nat, z: real)
    requires |values| >= 2 && IsPstdev(values, stdev) && stdev != 0.0 && i < |values|
    requires z * stdev == Deviations(values)[i]
    ensures z * z <= |values| as real - 1.0
  {
    var d, v := Deviations(values), Variance(values);
    DeviationsCancel(values);
    OneAgainstTheRest(d, i);
    SpreadIsPositive(values, stdev);
    ProductOfSquares(z, stdev);
    VarianceTimesCount(values);
    DivideOut(|values| as real, z * z, v, d[i], SumSq(d));
  }

  lemma VarianceTimesCount(values: seq<real>)
    requires values != []
    ensures SumSq(Deviations(values)) == |values| as real * Variance(values)
  {
  }

  /** No z-score of n points exceeds the square root of n - 1. */
  lemma Samuelson(values: seq<real>, stdev: real, i: nat)
    requires IsPstdev(values, stdev) && i < |values|
    ensures Zscore(values, stdev)[i] * Zscore(values, stdev)[i] <= |values| as real - 1.0
  {
    ScoreIsQuotient(values, stdev, i);
    if |values| >= 2 && stdev != 0.0 {
      TimesDivisor(Deviations(values)[i], stdev);
      SamuelsonSpread(values, stdev, i, Zscore(values, stdev)[i]);
    }
  }

  /** A larger value has a larger score, unless all scores are zero. */
  lemma ScoresKeepOrder(values: seq<real>, stdev: real, i: nat, j: nat)
    requires |values| >= 2 && IsPstdev(values, stdev) && stdev != 0.0 && i < |values| && j < |values|
    ensures Zscore(values, stdev)[i] < Zscore(values, stdev)[j] <==> values[i] < values[j]
  {
    ScoreIsQuotient(values, stdev, i);
    ScoreIsQuotient(values, stdev, j);
    QuotientsKeepOrder(Deviations(values)[i], Deviations(values)[j], stdev);
  }

  lemma QuotientsKeepOrder(x: real, y: real, s: real)
    requires s > 0.0
    ensures Quotient(x, s) < Quotient(y, s) <==> x < y
  {
    TimesDivisor(x, s);
    TimesDivisor(y, s);
    if Quotient(x, s) < Quotient(y, s) {
      MulStrict(s, Quotient(x, s), Quotient(y, s));
    } else {
      MulMono(s, Quotient(y, s), Quotient(x, s));
    }
  }

  lemma ScoreIsQuotient(values: seq<real>, stdev: real, i: nat)
    requires IsPstdev(values, stdev) && i < |values|
    ensures Zscore(values, stdev)[i] == Score(|values|, Deviations(values)[i], stdev)
  {
  }

  lemma TimesDivisor(x: real, s: real)
    requires s != 0.0
    ensures Quotient(x, s) * s == x
  {
  }

  lemma AbsSquare(z: real)
    ensures Abs(z) * Abs(z) == z * z
  {
  }

  lemma SquareLt(x: real, y: real)
    requires 0.0 <= x < y
    ensures x * x < y * y
  {
    var d := y - x;
    assert d * (x + y) == y * y - x * x;
    MulStrict(d, 0.0, x + y);
  }

  lemma SquareLe(x: real, y: real)
    requires 0.0 <= x <= y
    ensures x * x <= y * y
  {
    if x < y {
      SquareLt(x, y);
    }
  }

  lemma SquareCompare(z: real, t: real)
    requires t >= 0.0
    ensures Abs(z) > t <==> z * z > t * t
  {
    AbsSquare(z);
    if Abs(z) > t {
      SquareLt(t, Abs(z));
    } else {
      SquareLe(Abs(z), t);
    }
  }

  lemma ScoreWithin(values: seq<real>, threshold: real, stdev: real, i: nat)
    requires IsPstdev(values, stdev) && threshold >= 0.0 && i < |values|
    requires |values| as real <= threshold * threshold + 1.0
    ensures !(Abs(Zscore(values, stdev)[i]) > threshold)
  {
    Samuelson(values, stdev, i);
    SquareCompare(Zscore(values, stdev)[i], threshold);
  }

  /** Too few points cannot be anomalous: at the default threshold 3.0, never below eleven. */
  lemma NothingInShortSeries(values: seq<real>, threshold: real, minPoints: int, stdev: real)
    requires IsPstdev(values, stdev) && threshold >= 0.0
    requires |values| as real <= threshold * threshold + 1.0
    ensures DetectAnomalies(values, threshold, minPoints, stdev) == []
  {
    forall i: nat | i < |values| ensures !(Abs(Zscore(values, stdev)[i]) > threshold) {
      ScoreWithin(values, threshold, stdev, i);
    }
    NothingReported(values, Zscore(values, stdev), threshold, |values|);
  }

  lemma {:induction false} NothingReported(values: seq<real>, scores: seq<real>, threshold: real, n: nat)
    requires n <= |values| == |scores| && forall i :: 0 <= i < n ==> !(Abs(scores[i]) > threshold)
    ensures Reported(values, scores, threshold, n) == []
  {
    if n > 0 {
      NothingReported(values, scores, threshold, n - 1);
    }
  }

  // ---- The bound is attained ----

  // n - 1 equal values and one outlier.
  function OneOutlier(n: nat, base: real, height: real): (values: seq<real>)
    requires n >= 2
    ensures |values| == n
  {
    seq(n - 1, i => base) + [base + height]
  }

  lemma {:induction false} SumConstant(n: nat, c: real)
    ensures Sum(seq(n, i => c)) == n as real * c
    ensures SumSq(seq(n, i => c)) == n as real * (c * c)
  {
    if n > 0 {
      SumConstant(n - 1, c);
      assert seq(n, i => c)[..n - 1] == seq(n - 1, i => c);
      assert n as real * c == (n - 1) as real * c + c;
      assert n as real * (c * c) == (n - 1) as real * (c * c) + c * c;
    }
  }

  lemma OutlierMean(n: nat, base: real, height: real)
    requires n >= 2
    ensures Mean(OneOutlier(n, base, height)) == base + height / n as real
  {
    var values := OneOutlier(n, base, height);
    SumConstant(n - 1, base);
    SumConcat(seq(n - 1, i => base), [base + height]);
    SumOne(base + height);
    assert Sum(values) == n as real * base + height;
    assert (n as real * base + height) / n as real == base + height / n as real;
  }

  lemma OutlierDeviations(n: nat, base: real, height: real)
    requires n >= 2
    ensures var m := height / n as real;
            Deviations(OneOutlier(n, base, height)) == seq(n - 1, i => -m) + [height - m]
  {
    OutlierMean(n, base, height);
  }

  lemma OutlierSquares(n: nat, base: real, height: real)
    requires n >= 2
    ensures var nn, m := n as real, height / n as real;
            SumSq(Deviations(OneOutlier(n, base, height))) == (nn - 1.0) * (m * m) + (height - m) * (height - m)
  {
    var m := height / n as real;
    OutlierDeviations(n, base, height);
    SumConstant(n - 1, -m);
    SumConcat(seq(n - 1, i => -m), [height - m]);
    SumOne(height - m);
    assert (-m) * (-m) == m * m;
  }

  lemma OutlierVariance(n: nat, base: real, height: real)
    requires n >= 2
    ensures var m := height / n as real;
            Variance(OneOutlier(n, base, height)) == (n as real - 1.0) * (m * m)
  {
    var nn, m := n as real, height / n as real;
    OutlierSquares(n, base, height);
    OutlierArithmetic(nn, m, height, SumSq(Deviations(OneOutlier(n, base, height))));
  }

  lemma OutlierArithmetic(n: real, m: real, height: real, squares: real)
    requires n > 0.0 && m == height / n
    requires squares == (n - 1.0) * (m * m) + (height - m) * (height - m)
    ensures squares / n == (n - 1.0) * (m * m)
  {
    assert height == n * m;
    assert height - m == (n - 1.0) * m;
    ProductOfSquares(n - 1.0, m);
    TwoParts(n, m * m);
    DivideProduct(n, (n - 1.0) * (m * m));
  }

  lemma DivideProduct(n: real, x: real)
    requires n > 0.0
    ensures n * x / n == x && Quotient(n * x, n) == x
  {
  }

  lemma TwoParts(n: real, s: real)
    ensures (n - 1.0) * s + (n - 1.0) * (n - 1.0) * s == n * ((n - 1.0) * s)
  {
  }

  lemma NonZeroFactor(x: real, y: real, xy: real)
    requires xy == x * y && xy != 0.0
    ensures y != 0.0
  {
  }

  // The spread of the outlier series: n - 1 points m below the mean, and the outlier n - 1 times m above it.
  lemma OutlierSpread(n: real, height: real, m: real, m2: real, variance: real, stdev: real)
    requires n >= 2.0 && height != 0.0 && height == n * m && m2 == m * m
    requires variance == (n - 1.0) * m2 && stdev * stdev == variance
    ensures m2 > 0.0 && stdev != 0.0 && height - m == (n - 1.0) * m
  {
    NonZeroFactor(n, m, height);
    PositiveSquare(m);
    RaiseProduct(n - 1.0, m2, variance);
  }

  lemma SquareOfProduct(x: real, y: real, xy: real)
    requires xy == x * y
    ensures xy * xy == x * x * (y * y)
  {
    ProductOfSquares(x, y);
  }

  lemma SquaresCancel(k: real, m2: real, variance: real, z2: real, d2: real)
    requires k > 0.0 && m2 > 0.0 && variance == k * m2 && d2 == k * k * m2 && z2 * variance == d2
    ensures z2 == k
  {
    AttainArithmetic(k, m2, z2);
  }

  lemma OutlierScoreSquared(k: real, m: real, m2: real, variance: real, stdev: real, z: real, d: real)
    requires k > 0.0 && m2 > 0.0 && m2 == m * m && variance == k * m2 && stdev * stdev == variance
    requires d == z * stdev && d == k * m
    ensures z * z == k
  {
    SquareOfProduct(z, stdev, d);
    SquareOfProduct(k, m, d);
    SquaresCancel(k, m2, variance, z * z, d * d);
  }

  lemma OutlierArithmeticScore(n: real, height: real, m: real, stdev: real, z: real)
    requires n >= 2.0 && height != 0.0 && height == n * m && stdev * stdev == (n - 1.0) * (m * m)
    requires stdev != 0.0 ==> z == Quotient(height - m, stdev)
    ensures stdev != 0.0 && z * z == n - 1.0
  {
    OutlierSpread(n, height, m, m * m, stdev * stdev, stdev);
    TimesDivisor(height - m, stdev);
    OutlierScoreSquared(n - 1.0, m, m * m, stdev * stdev, stdev, z, height - m);
  }

  lemma LastDeviation(n: nat, base: real, height: real)
    requires n >= 2
    ensures Deviations(OneOutlier(n, base, height))[n - 1] == height - height / n as real
  {
    OutlierDeviations(n, base, height);
  }

  lemma DivisorTimes(height: real, n: real)
    requires n != 0.0
    ensures height == n * (height / n)
  {
  }

  /** n - 1 equal values and one outlier reach Samuelson's bound, for every n >= 2 and any outlier. */
  lemma OutlierAttainsBound(n: nat, base: real, height: real, stdev: real)
    requires n >= 2 && height != 0.0 && IsPstdev(OneOutlier(n, base, height), stdev)
    ensures var z := Zscore(OneOutlier(n, base, height), stdev)[n - 1]; z * z == n as real - 1.0
  {
    var values := OneOutlier(n, base, height);
    OutlierVariance(n, base, height);
    LastDeviation(n, base, height);
    ScoreIsQuotient(values, stdev, n - 1);
    DivisorTimes(height, n as real);
    OutlierArithmeticScore(n as real, height, height / n as real, stdev, Zscore(values, stdev)[n - 1]);
  }

  lemma AttainArithmetic(k: real, s: real, z2: real)
    requires k > 0.0 && s > 0.0 && z2 * (k * s) == k * k * s
    ensures z2 == k
  {
    MulStrict(k, 0.0, s);
    assert (k * s) * z2 == (k * s) * k;
    CancelLe(k * s, z2, k);
    CancelLe(k * s, k, z2);
  }

  lemma PositiveSquare(x: real)
    requires x != 0.0
    ensures x * x > 0.0
  {
    if x > 0.0 {
      MulStrict(x, 0.0, x);
    } else {
      MulStrict(-x, 0.0, -x);
    }
  }

  /** The outlier series of n points is reported on exactly when n exceeds threshold^2 + 1. */
  lemma OutlierReportedIff(n: nat, base: real, height: real, threshold: real, minPoints: int, stdev: real)
    requires n >= 2 && n >= minPoints && threshold >= 0.0 && height != 0.0
    requires IsPstdev(OneOutlier(n, base, height), stdev)
    ensures DetectAnomalies(OneOutlier(n, base, height), threshold, minPoints, stdev) != [] <==>
            n as real > threshold * threshold + 1.0
  {
    var values := OneOutlier(n, base, height);
    if n as real > threshold * threshold + 1.0 {
      OutlierAttainsBound(n, base, height, stdev);
      SquareCompare(Zscore(values, stdev)[n - 1], threshold);
    } else {
      NothingInShortSeries(values, threshold, minPoints, stdev);
    }
  }

  // ---- Chebyshev's inequality ----

  lemma {:induction false} SquaresScale(d: seq<real>, z: seq<real>, s: real)
    requires |d| == |z| && forall i :: 0 <= i < |d| ==> z[i] * s == d[i]
    ensures SumSq(z) * (s * s) == SumSq(d)
  {
    if d != [] {
      var n := |d| - 1;
      SquaresScale(d[..n], z[..n], s);
      ProductOfSquares(z[n], s);
      assert z[n] * s == d[n];
    }
  }

  /** The squared z-scores of a spread-out series sum to the number of points. */
  lemma SquaredScoresSumToCount(values: seq<real>, stdev: real)
    requires |values| >= 2 && IsPstdev(values, stdev) && stdev != 0.0
    ensures SumSq(Zscore(values, stdev)) == |values| as real
  {
    var z := Zscore(values, stdev);
    SquaresScale(Deviations(values), z, stdev);
    SpreadIsPositive(values, stdev);
    CountArithmetic(|values| as real, SumSq(z), stdev * stdev, SumSq(Deviations(values)));
  }

  lemma CountArithmetic(n: real, z: real, variance: real, squares: real)
    requires n > 0.0 && variance > 0.0 && z * variance == squares && variance == squares / n
    ensures z == n
  {
    assert squares == n * variance;
    assert variance * z == variance * n;
    CancelLe(variance, z, n);
    CancelLe(variance, n, z);
  }

  // k * weight, as a sum.
  function Copies(k: nat, weight: real): real { if k == 0 then 0.0 else Copies(k - 1, weight) + weight }

  lemma {:induction false} CopiesIsProduct(k: nat, weight: real)
    ensures Copies(k, weight) == k as real * weight
  {
    if k > 0 {
      CopiesIsProduct(k - 1, weight);
      OneMore((k - 1) as real, weight);
    }
  }

  // k points each heavier than `weight` within a total.
  predicate Outweighed(k: nat, weight: real, total: real) {
    Copies(k, weight) <= total && (k > 0 ==> Copies(k, weight) < total)
  }

  lemma OutweighedMore(k: nat, weight: real, total: real, z2: real, k2: nat, total2: real)
    requires Outweighed(k, weight, total) && z2 >= 0.0 && total2 == total + z2
    requires k2 == k || (k2 == k + 1 && z2 > weight)
    ensures Outweighed(k2, weight, total2)
  {
  }

  function Square(x: real): real { x * x }

  function Squares(s: seq<real>): (q: seq<real>)
    ensures |q| == |s| && forall i :: 0 <= i < |s| ==> q[i] == Square(s[i])
  {
    seq(|s|, i requires 0 <= i < |s| => Square(s[i]))
  }

  lemma SquaresFront(s: seq<real>)
    requires s != []
    ensures Squares(s)[..|s| - 1] == Squares(s[..|s| - 1])
  {
    var n := |s| - 1;
    forall i | 0 <= i < n ensures Squares(s)[..n][i] == Squares(s[..n])[i] {
      assert s[..n][i] == s[i];
    }
  }

  lemma {:induction false} SumOfSquares(s: seq<real>)
    ensures Sum(Squares(s)) == SumSq(s)
  {
    if s != [] {
      SumOfSquares(s[..|s| - 1]);
      SquaresFront(s);
    }
  }

  lemma SumMore(s: seq<real>, n: nat)
    requires n < |s|
    ensures Sum(s[..n + 1]) == Sum(s[..n]) + s[n]
  {
    assert s[..n + 1][..n] == s[..n];
  }

  lemma ReportedMore(values: seq<real>, scores: seq<real>, threshold: real, n: nat)
    requires n < |values| == |scores|
    ensures |Reported(values, scores, threshold, n + 1)| ==
            |Reported(values, scores, threshold, n)| + if Abs(scores[n]) > threshold then 1 else 0
  {
  }

  // A point's share of the total, larger than `weight` when the point is reported.
  predicate Heavier(threshold: real, weight: real, z: real, share: real) {
    share >= 0.0 && (Abs(z) > threshold ==> share > weight)
  }

  lemma ReportedIsHeavier(threshold: real, z: real)
    requires threshold >= 0.0
    ensures Heavier(threshold, threshold * threshold, z, Square(z))
  {
    SquareCompare(z, threshold);
    SquareIsNonNegative(z);
  }

  lemma {:induction false} ReportedWeigh(values: seq<real>, scores: seq<real>, threshold: real, n: nat,
                                         weight: real, shares: seq<real>)
    requires n <= |values| == |scores| == |shares|
    requires forall i :: 0 <= i < n ==> Heavier(threshold, weight, scores[i], shares[i])
    ensures Outweighed(|Reported(values, scores, threshold, n)|, weight, Sum(shares[..n]))
  {
    if n > 0 {
      ReportedWeigh(values, scores, threshold, n - 1, weight, shares);
      SumMore(shares, n - 1);
      ReportedMore(values, scores, threshold, n - 1);
      assert Heavier(threshold, weight, scores[n - 1], shares[n - 1]);
      OutweighedMore(|Reported(values, scores, threshold, n - 1)|, weight, Sum(shares[..n - 1]), shares[n - 1],
                     |Reported(values, scores, threshold, n)|, Sum(shares[..n]));
    }
  }

  lemma OneMore(k: real, t: real)
    ensures (k + 1.0) * t == k * t + t
  {
  }

  lemma SquareIsNonNegative(x: real)
    ensures x * x >= 0.0
  {
  }

  predicate Chebyshev(k: nat, threshold: real, n: nat) { k as real * (threshold * threshold) < n as real }

  // Without a spread every score is 0.
  lemma FlatScores(values: seq<real>, stdev: real)
    requires IsPstdev(values, stdev) && (|values| < 2 || stdev == 0.0)
    ensures forall i :: 0 <= i < |values| ==> Zscore(values, stdev)[i] == 0.0
  {
  }

  lemma BelowCount(k: nat, threshold: real, n: nat, total: real)
    requires Outweighed(k, threshold * threshold, total) && total == n as real && k > 0
    ensures Chebyshev(k, threshold, n)
  {
    CopiesIsProduct(k, threshold * threshold);
  }

  lemma AllReportedWeigh(values: seq<real>, scores: seq<real>, threshold: real)
    requires |values| == |scores| && threshold >= 0.0
    ensures Outweighed(|Reported(values, scores, threshold, |values|)|, threshold * threshold, SumSq(scores))
  {
    forall i | 0 <= i < |values| ensures Heavier(threshold, threshold * threshold, scores[i], Squares(scores)[i]) {
      ReportedIsHeavier(threshold, scores[i]);
    }
    ReportedWeigh(values, scores, threshold, |values|, threshold * threshold, Squares(scores));
    assert Squares(scores)[..|values|] == Squares(scores);
    SumOfSquares(scores);
  }

  lemma ReportedBelowCount(values: seq<real>, threshold: real, stdev: real, k: nat)
    requires |values| >= 2 && IsPstdev(values, stdev) && stdev != 0.0 && threshold >= 0.0 && k > 0
    requires k == |Reported(values, Zscore(values, stdev), threshold, |values|)|
    ensures Chebyshev(k, threshold, |values|)
  {
    AllReportedWeigh(values, Zscore(values, stdev), threshold);
    SquaredScoresSumToCount(values, stdev);
    BelowCount(k, threshold, |values|, SumSq(Zscore(values, stdev)));
  }

  /** k >= 1 reported points satisfy k * threshold^2 < n. */
  lemma FewPointsReported(values: seq<real>, threshold: real, minPoints: int, stdev: real)
    requires IsPstdev(values, stdev) && threshold >= 0.0
    requires DetectAnomalies(values, threshold, minPoints, stdev) != []
    ensures Chebyshev(|DetectAnomalies(values, threshold, minPoints, stdev)|, threshold, |values|)
  {
    if |values| < 2 || stdev == 0.0 {
      FlatScores(values, stdev);
      NothingReported(values, Zscore(values, stdev), threshold, |values|);
    } else {
      ReportedBelowCount(values, threshold, stdev, |DetectAnomalies(values, threshold, minPoints, stdev)|);
    }
  }

  // ---- A negative threshold reports everything ----

  lemma {:induction false} EverythingReported(values: seq<real>, scores: seq<real>, threshold: real, n: nat)
    requires n <= |values| == |scores| && threshold < 0.0
    ensures |Reported(values, scores, threshold, n)| == n
  {
    if n > 0 {
      EverythingReported(values, scores, threshold, n - 1);
    }
  }

  /**
   Neither bound survives a negative threshold: every point is reported, and k * threshold^2 < n
   fails from -1 down.
   */
  lemma NegativeThreshold(values: seq<real>, threshold: real, minPoints: int, stdev: real)
    requires IsPstdev(values, stdev) && threshold < 0.0 && |values| >= minPoints && values != []
    ensures var k := |DetectAnomalies(values, threshold, minPoints, stdev)|;
            k == |values| && (Chebyshev(k, threshold, |values|) <==> threshold > -1.0)
  {
    EverythingReported(values, Zscore(values, stdev), threshold, |values|);
    NegativeArithmetic(|values|, threshold, threshold * threshold);
  }

  lemma NegativeArithmetic(n: nat, t: real, t2: real)
    requires n > 0 && t < 0.0 && t2 == t * t
    ensures Chebyshev(n, t, n) <==> t > -1.0
  {
    assert t2 == (-t) * (-t);
    if t > -1.0 {
      SquareLt(-t, 1.0);
      MulStrict(n as real, t2, 1.0);
    } else {
      SquareLe(1.0, -t);
      MulMono(n as real, 1.0, t2);
    }
  }

  // ---- Invariance under a change of scale ----

  function Move(x: real, a: real, b: real): real { a * x + b }

  function Affine(values: seq<real>, a: real, b: real): (r: seq<real>)
    ensures |r| == |values| && forall i :: 0 <= i < |r| ==> r[i] == Move(values[i], a, b)
  {
    seq(|values|, i requires 0 <= i < |values| => Move(values[i], a, b))
  }

  lemma {:induction false} SumAffine(values: seq<real>, a: real, b: real)
    ensures Sum(Affine(values, a, b)) == a * Sum(values) + |values| as real * b
  {
    if values != [] {
      var front := values[..|values| - 1];
      SumAffine(front, a, b);
      AffineFront(values, a, b);
      SumStep(a, b, Sum(front), values[|values| - 1], |front| as real);
    }
  }

  lemma AffineFront(values: seq<real>, a: real, b: real)
    requires values != []
    ensures Affine(values, a, b)[..|values| - 1] == Affine(values[..|values| - 1], a, b)
  {
  }

  lemma SumStep(a: real, b: real, sum: real, x: real, n: real)
    ensures (a * sum + n * b) + Move(x, a, b) == a * (sum + x) + (n + 1.0) * b
  {
  }

  lemma MeanAffine(values: seq<real>, a: real, b: real)
    requires values != []
    ensures Mean(Affine(values, a, b)) == a * Mean(values) + b
  {
    SumAffine(values, a, b);
    MeanArithmetic(|values| as real, a, b, Sum(values), Sum(Affine(values, a, b)));
  }

  lemma MeanArithmetic(n: real, a: real, b: real, sum: real, moved: real)
    requires n > 0.0 && moved == a * sum + n * b
    ensures moved / n == a * (sum / n) + b
  {
    var m := sum / n;
    assert sum == n * m;
    assert moved == n * (a * m + b);
    DivideProduct(n, a * m + b);
  }

  predicate Scaled(d: seq<real>, e: seq<real>, a: real) {
    |d| == |e| && forall i :: 0 <= i < |d| ==> e[i] == a * d[i]
  }

  lemma DeviationsAffine(values: seq<real>, a: real, b: real)
    requires values != []
    ensures Scaled(Deviations(values), Deviations(Affine(values, a, b)), a)
  {
    MeanAffine(values, a, b);
    forall i | 0 <= i < |values| ensures Deviations(Affine(values, a, b))[i] == a * Deviations(values)[i] {
      ScaleDifference(a, b, values[i], Mean(values));
    }
  }

  lemma ScaleDifference(a: real, b: real, x: real, m: real)
    ensures Move(x, a, b) - (a * m + b) == a * (x - m)
  {
  }

  lemma {:induction false} SquaresOfScaled(d: seq<real>, e: seq<real>, a: real)
    requires Scaled(d, e, a)
    ensures SumSq(e) == a * a * SumSq(d)
  {
    if d != [] {
      var n := |d| - 1;
      SquaresOfScaled(d[..n], e[..n], a);
      ProductOfSquares(a, d[n]);
      Distribute(a * a, SumSq(d[..n]), d[n] * d[n]);
    }
  }

  lemma Distribute(c: real, x: real, y: real)
    ensures c * (x + y) == c * x + c * y
  {
  }

  lemma VarianceAffine(values: seq<real>, a: real, b: real)
    requires values != []
    ensures Variance(Affine(values, a, b)) == a * a * Variance(values)
  {
    DeviationsAffine(values, a, b);
    SquaresOfScaled(Deviations(values), Deviations(Affine(values, a, b)), a);
    ScaleQuotient(a * a, SumSq(Deviations(values)), |values| as real, SumSq(Deviations(Affine(values, a, b))));
  }

  lemma ScaleQuotient(c: real, q: real, n: real, cq: real)
    requires n > 0.0 && cq == c * q
    ensures cq / n == c * (q / n)
  {
    var v := q / n;
    assert q == n * v;
    assert cq == n * (c * v);
    DivideProduct(n, c * v);
  }

  lemma EqualSquares(x: real, y: real)
    requires x >= 0.0 && y >= 0.0 && x * x == y * y
    ensures x == y
  {
    if x < y {
      SquareLt(x, y);
    } else if y < x {
      SquareLt(y, x);
    }
  }

  lemma StdevAffine(values: seq<real>, a: real, b: real, stdev: real, moved: real)
    requires values != [] && IsPstdev(values, stdev) && IsPstdev(Affine(values, a, b), moved)
    ensures moved == Abs(a) * stdev
  {
    VarianceAffine(values, a, b);
    ScaledRoot(a, stdev, Variance(values), moved, Variance(Affine(values, a, b)));
  }

  lemma ScaledRoot(a: real, s: real, v: real, moved: real, movedV: real)
    requires s >= 0.0 && s * s == v && moved >= 0.0 && moved * moved == movedV && movedV == a * a * v
    ensures moved == Abs(a) * s
  {
    AbsSquare(a);
    ProductOfSquares(Abs(a), s);
    NonNegativeProduct(Abs(a), s);
    EqualSquares(moved, Abs(a) * s);
  }

  lemma NonNegativeProduct(x: real, y: real)
    requires x >= 0.0 && y >= 0.0
    ensures x * y >= 0.0
  {
  }

  lemma ScoresMatch(n: nat, a: real, d: real, s: real, movedD: real, moved: real)
    requires a != 0.0 && s >= 0.0 && moved == Abs(a) * s && movedD == a * d
    ensures Abs(Score(n, movedD, moved)) == Abs(Score(n, d, s))
  {
    SignedQuotient(a, d, s, movedD, moved);
  }

  lemma MovedScore(values: seq<real>, a: real, b: real, moved: real, i: nat) returns (e: real)
    requires IsPstdev(Affine(values, a, b), moved) && i < |values|
    ensures Zscore(Affine(values, a, b), moved)[i] == Score(|values|, e, moved) && e == a * Deviations(values)[i]
  {
    ScoreIsQuotient(Affine(values, a, b), moved, i);
    DeviationAffine(values, a, b, i);
    e := Deviations(Affine(values, a, b))[i];
  }

  lemma ScoresAndSpreads(values: seq<real>, a: real, b: real, stdev: real, moved: real, i: nat)
    returns (d: real, e: real)
    requires IsPstdev(values, stdev) && IsPstdev(Affine(values, a, b), moved) && i < |values|
    ensures Zscore(values, stdev)[i] == Score(|values|, d, stdev)
    ensures Zscore(Affine(values, a, b), moved)[i] == Score(|values|, e, moved)
    ensures e == a * d && moved == Abs(a) * stdev
  {
    d := Deviations(values)[i];
    e := MovedScore(values, a, b, moved, i);
    ScoreIsQuotient(values, stdev, i);
    StdevAffine(values, a, b, stdev, moved);
  }

  lemma ScoreAffine(values: seq<real>, a: real, b: real, stdev: real, moved: real, i: nat)
    requires IsPstdev(values, stdev) && IsPstdev(Affine(values, a, b), moved) && a != 0.0 && i < |values|
    ensures Abs(Zscore(Affine(values, a, b), moved)[i]) == Abs(Zscore(values, stdev)[i])
  {
    var d, e := ScoresAndSpreads(values, a, b, stdev, moved, i);
    ScoresMatch(|values|, a, d, stdev, e, moved);
  }

  lemma DeviationAffine(values: seq<real>, a: real, b: real, i: nat)
    requires i < |values|
    ensures Deviations(Affine(values, a, b))[i] == a * Deviations(values)[i]
  {
    DeviationsAffine(values, a, b);
  }

  lemma SignedQuotient(a: real, d: real, s: real, movedD: real, moved: real)
    requires a != 0.0 && s >= 0.0 && moved == Abs(a) * s && movedD == a * d
    ensures s == 0.0 <==> moved == 0.0
    ensures s != 0.0 ==> Abs(Quotient(movedD, moved)) == Abs(Quotient(d, s))
  {
    if s != 0.0 {
      var z := Quotient(d, s);
      assert d == z * s;
      RaiseProduct(Abs(a), s, moved);
      if a > 0.0 {
        assert movedD == moved * z;
        DivideProduct(moved, z);
      } else {
        assert movedD == moved * (-z);
        DivideProduct(moved, -z);
      }
    }
  }

  /** Which points are reported does not depend on the unit or the origin of the metric. */
  lemma ReportedIsScaleFree(values: seq<real>, a: real, b: real, threshold: real, minPoints: int, stdev: real,
      moved: real, i: nat)
    requires IsPstdev(values, stdev) && IsPstdev(Affine(values, a, b), moved) && a != 0.0
    ensures Reports(DetectAnomalies(Affine(values, a, b), threshold, minPoints, moved), i) <==>
            Reports(DetectAnomalies(values, threshold, minPoints, stdev), i)
  {
    ReportedMeaning(values, Zscore(values, stdev), threshold, |values|, i);
    ReportedMeaning(Affine(values, a, b), Zscore(Affine(values, a, b), moved), threshold, |values|, i);
    if i < |values| {
      ScoreAffine(values, a, b, stdev, moved, i);
    }
  }

  lemma QuotientExceeds(d: real, stdev: real, threshold: real)
    requires stdev > 0.0
    ensures Abs(d / stdev) > threshold <==> Abs(d) > threshold * stdev
  {
    var z := d / stdev;
    assert z * stdev == d;
    if Abs(z) > threshold {
      assert (Abs(z) - threshold) * stdev > 0.0;
    } else {
      assert (threshold - Abs(z)) * stdev >= 0.0;
    }
  }

  /**
   Point i is reported exactly when there are enough points and it lies more than `threshold`
   deviations from the mean; without a spread, exactly when the threshold is negative.
   */
  lemma DetectMeaning(values: seq<real>, threshold: real, minPoints: int, stdev: real, i: nat)
    requires IsPstdev(values, stdev)
    ensures Reports(DetectAnomalies(values, threshold, minPoints, stdev), i) <==>
            && |values| >= minPoints && i < |values|
            && if |values| >= 2 && stdev > 0.0 then Abs(values[i] - Mean(values)) > threshold * stdev
               else threshold < 0.0
  {
    if |values| >= minPoints {
      ReportedMeaning(values, Zscore(values, stdev), threshold, |values|, i);
      if i < |values| && |values| >= 2 && stdev > 0.0 {
        QuotientExceeds(values[i] - Mean(values), stdev, threshold);
      }
    }
  }
}
