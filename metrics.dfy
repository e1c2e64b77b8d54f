/** `StrategyBacktester.calculate_metrics` (src/backtester.py): total return,
    annualised return and volatility, Sharpe and Sortino ratios with their zero
    guards, and the maximum drawdown of cumulative wealth against its running
    peak. Arithmetic is exact; the square root and the fractional power are
    given as functions, since they are floating-point transcendental operations. */
module Metrics {
  import opened Basics
  import opened Statistics
  import opened Market

  /** The floating-point operations the metrics call but the model does not
      define: `np.sqrt` and `**` with a fractional exponent. */
  datatype Floating = Floating(sqrt: real -> real, pow: (real, real) -> real)

  /** What the Sharpe guard needs of a square root: it is non-negative, and zero
      exactly at zero. */
  ghost predicate RootSigns(sqrt: real -> real)
  {
    forall x :: 0.0 <= x ==> 0.0 <= sqrt(x) && (sqrt(x) == 0.0 <==> x == 0.0)
  }

  const PERIODS_PER_YEAR: real := 252.0

  // ---------------------------------------------------------------------------
  // Cumulative wealth and drawdown
  // ---------------------------------------------------------------------------

  /** Wealth after the series: the product of (1 + r). */
  function Growth(p: seq<real>): real
  {
    if p == [] then 1.0 else Growth(p[..|p| - 1]) * (1.0 + p[|p| - 1])
  }

  /** Growth is multiplicative over consecutive stretches of days. */
  lemma {:induction false} GrowthAppend(a: seq<real>, b: seq<real>)
    ensures Growth(a + b) == Growth(a) * Growth(b)
  {
    if b != [] {
      var b' := b[..|b| - 1];
      assert (a + b)[..|a + b| - 1] == a + b';
      GrowthAppend(a, b');
      assert Growth(a + b) == Growth(a) * Growth(b') * (1.0 + b[|b| - 1]);
    } else {
      assert a + b == a;
    }
  }

  lemma {:induction false} GrowthPositive(p: seq<real>)
    requires forall i :: 0 <= i < |p| ==> 1.0 + p[i] > 0.0
    ensures Growth(p) > 0.0
  {
    if p != [] {
      GrowthPositive(p[..|p| - 1]);
      MulPositive(Growth(p[..|p| - 1]), 1.0 + p[|p| - 1]);
    }
  }

  lemma MulPositive(x: real, y: real)
    requires x > 0.0 && y > 0.0
    ensures x * y > 0.0
  {
  }

  /** The running peak of cumulative wealth at the last day of `p`
      (`cumulative_returns.expanding().max()`). */
  function Peak(p: seq<real>): (pk: real)
    requires |p| > 0
    ensures Growth(p) <= pk
  {
    if |p| == 1 then Growth(p)
    else
      var before := Peak(p[..|p| - 1]);
      if before >= Growth(p) then before else Growth(p)
  }

  /** Cumulative wealth at the close of day `k` (`cumprod`). */
  function WealthOn(p: seq<real>, k: nat): real
    requires k < |p|
  {
    Growth(p[..k + 1])
  }

  /** The peak is the largest wealth reached on any day so far, and it is reached. */
  lemma {:induction false} PeakIsRunningMax(p: seq<real>)
    requires |p| > 0
    ensures forall j :: 0 <= j < |p| ==> WealthOn(p, j) <= Peak(p)
    ensures exists j :: 0 <= j < |p| && Peak(p) == WealthOn(p, j)
  {
    assert p[..|p|] == p;
    if |p| > 1 {
      var front := p[..|p| - 1];
      PeakIsRunningMax(front);
      forall j | 0 <= j < |front|
        ensures WealthOn(front, j) == WealthOn(p, j)
      {
        assert front[..j + 1] == p[..j + 1];
      }
      if Peak(front) >= Growth(p) {
        var j :| 0 <= j < |front| && Peak(front) == WealthOn(front, j);
        assert Peak(p) == WealthOn(p, j);
      } else {
        assert Peak(p) == WealthOn(p, |p| - 1);
      }
    } else {
      assert p[..1] == p;
      assert Peak(p) == WealthOn(p, 0);
    }
  }

  /** The drawdown on the last day of `p`: (wealth - peak) / peak. A zero peak
      makes pandas divide 0 by 0 (a zero peak forces zero wealth), so the
      drawdown that day is NaN. */
  function DrawdownLast(p: seq<real>): Option<real>
    requires |p| > 0
  {
    var pk := Peak(p);
    if pk == 0.0 then None else Some((Growth(p) - pk) / pk)
  }

  /** The smaller of two possibly-NaN values, NaN skipped as pandas' `min` does. */
  function MinSkipNaN(a: Option<real>, b: Option<real>): Option<real>
  {
    match (a, b)
    case (None, _) => b
    case (_, None) => a
    case (Some(x), Some(y)) => Some(if x <= y then x else y)
  }

  /** `drawdown.min()` over the daily drawdowns of the series. */
  function MaxDrawdown(p: seq<real>): Option<real>
  {
    if p == [] then None else MinSkipNaN(MaxDrawdown(p[..|p| - 1]), DrawdownLast(p))
  }

  /** The drawdown at the close of day `k`. */
  function DrawdownOn(p: seq<real>, k: nat): Option<real>
    requires k < |p|
  {
    DrawdownLast(p[..k + 1])
  }

  /** The maximum drawdown is the lowest daily drawdown: it is NaN only when
      every day's drawdown is NaN, otherwise it is reached on some day and no
      day's drawdown is below it. */
  lemma {:induction false} MaxDrawdownIsLowest(p: seq<real>)
    ensures MaxDrawdown(p).Some? ==> exists k :: 0 <= k < |p| && DrawdownOn(p, k) == MaxDrawdown(p)
    ensures forall k :: 0 <= k < |p| && DrawdownOn(p, k).Some? ==>
              MaxDrawdown(p).Some? && MaxDrawdown(p).value <= DrawdownOn(p, k).value
  {
    if p != [] {
      var front := p[..|p| - 1];
      MaxDrawdownIsLowest(front);
      forall k | 0 <= k < |front|
        ensures DrawdownOn(front, k) == DrawdownOn(p, k)
      {
        assert front[..k + 1] == p[..k + 1];
      }
      assert p[..|p| - 1 + 1] == p;
      assert DrawdownOn(p, |p| - 1) == DrawdownLast(p);
      var m := MaxDrawdown(p);
      if m.Some? && m != DrawdownLast(p) {
        var k :| 0 <= k < |front| && DrawdownOn(front, k) == MaxDrawdown(front);
        assert DrawdownOn(p, k) == m;
      }
    }
  }

  /** A drawdown of wealth w from a peak pk >= w > 0 lies in (-1, 0]. */
  lemma DrawdownRatioBounds(w: real, pk: real)
    requires 0.0 < w <= pk
    ensures -1.0 < (w - pk) / pk <= 0.0
  {
    var d := (w - pk) / pk;
    assert d * pk == w - pk;
    if d > 0.0 {
      MulPositive(d, pk);
    }
  }

  lemma {:induction false} DrawdownLastBounds(p: seq<real>)
    requires |p| > 0
    requires forall i :: 0 <= i < |p| ==> 1.0 + p[i] > 0.0
    ensures DrawdownLast(p).Some?
    ensures -1.0 < DrawdownLast(p).value <= 0.0
  {
    GrowthPositive(p);
    assert p[..|p|] == p;
    DrawdownRatioBounds(Growth(p), Peak(p));
  }

  /** While wealth stays positive (every 1 + r > 0), the maximum drawdown of a
      non-empty series exists and lies in (-1, 0]. */
  lemma DrawdownWithinBounds(p: seq<real>)
    requires |p| > 0
    requires forall i :: 0 <= i < |p| ==> 1.0 + p[i] > 0.0
    ensures MaxDrawdown(p).Some?
    ensures -1.0 < MaxDrawdown(p).value <= 0.0
  {
    MaxDrawdownIsLowest(p);
    DrawdownLastBounds(p[..1]);
    assert DrawdownOn(p, 0).Some?;
    var k :| 0 <= k < |p| && DrawdownOn(p, k) == MaxDrawdown(p);
    DrawdownLastBounds(p[..k + 1]);
  }

  /** The first day's wealth is its own peak: its drawdown is zero. */
  lemma FirstDayDrawdown(r: real)
    requires 1.0 + r != 0.0
    ensures DrawdownLast([r]) == Some(0.0)
  {
    assert [r][..0] == [];
    assert Growth([r]) == 1.0 + r;
  }

  // ---------------------------------------------------------------------------
  // Volatility and the guarded ratios
  // ---------------------------------------------------------------------------

  /** `returns[returns < 0]`: the strictly negative present returns, in order. */
  function Negatives(p: seq<real>): (n: seq<real>)
    ensures |n| <= |p|
    ensures forall i :: 0 <= i < |n| ==> n[i] < 0.0
  {
    if p == [] then []
    else (if p[0] < 0.0 then [p[0]] else []) + Negatives(p[1..])
  }

  /** The downside returns are exactly the strictly negative returns, each
      kept as often as it occurs. */
  lemma {:induction false} NegativesAreNegativeReturns(p: seq<real>)
    ensures forall x :: x in Negatives(p) <==> x in p && x < 0.0
    ensures forall x :: multiset(Negatives(p))[x] == if x < 0.0 then multiset(p)[x] else 0
  {
    if p != [] {
      NegativesAreNegativeReturns(p[1..]);
      assert p == [p[0]] + p[1..];
      assert multiset(p) == multiset{p[0]} + multiset(p[1..]);
      assert forall x :: x in p <==> x == p[0] || x in p[1..];
    }
  }

  /** `std() * np.sqrt(252)`: NaN (None) below two observations. */
  function AnnualVolatility(p: seq<real>, sqrt: real -> real): (v: Option<real>)
    ensures v.Some? <==> |p| >= 2
  {
    match SampleVariance(p)
    case None => None
    case Some(variance) => Some(sqrt(variance) * sqrt(PERIODS_PER_YEAR))
  }

  /** `x / vol if vol > 0 else 0`; a NaN volatility fails the comparison. */
  function GuardedRatio(x: real, vol: Option<real>): real
  {
    if vol.Some? && vol.value > 0.0 then x / vol.value else 0.0
  }

  datatype PerformanceMetrics = PerformanceMetrics(
    totalReturn: real,
    annualReturn: real,
    annualVolatility: Option<real>,
    sharpe: real,
    sortino: real,
    maxDrawdown: Option<real>,
    numObservations: nat)

  /** The metrics of one daily return series. NaN days are skipped by every
      reduction (pandas' skipna) but still count towards the number of
      observations and hence the length in years. An empty series fails at
      `1 / n_years`. The total return is the compounded wealth less one, the
      annual return compounds it over the length in years, the volatilities
      are annualised sample deviations, and a ratio is zero unless its
      volatility is a positive number. */
  function CalculateMetrics(series: seq<Cell>, f: Floating): (r: Result<PerformanceMetrics, Failure>)
    ensures r.Err? <==> series == []
    ensures r.Err? ==> r.error == ZeroDivision
    ensures r.Ok? ==> r.value.numObservations == |series|
    ensures r.Ok? ==>
              var p := Present(series);
              var m := r.value;
              var downside := AnnualVolatility(Negatives(p), f.sqrt);
              && m.totalReturn == Growth(p) - 1.0
              && m.annualReturn == f.pow(Growth(p), PERIODS_PER_YEAR / |series| as real) - 1.0
              && m.annualVolatility == AnnualVolatility(p, f.sqrt)
              && m.maxDrawdown == MaxDrawdown(p)
              && (m.annualVolatility.Some? && m.annualVolatility.value > 0.0 ==>
                    m.sharpe == m.annualReturn / m.annualVolatility.value)
              && (!(m.annualVolatility.Some? && m.annualVolatility.value > 0.0) ==> m.sharpe == 0.0)
              && (downside.Some? && downside.value > 0.0 ==> m.sortino == m.annualReturn / downside.value)
              && (!(downside.Some? && downside.value > 0.0) ==> m.sortino == 0.0)
  {
    if |series| == 0 then Err(ZeroDivision)
    else
      var p := Present(series);
      var cumulative := Growth(p) - 1.0;
      // 1 / n_years, with n_years = |series| / 252
      var annReturn := f.pow(1.0 + cumulative, PERIODS_PER_YEAR / |series| as real) - 1.0;
      var annVol := AnnualVolatility(p, f.sqrt);
      var downsideVol := AnnualVolatility(Negatives(p), f.sqrt);
      Ok(PerformanceMetrics(
        totalReturn := cumulative,
        annualReturn := annReturn,
        annualVolatility := annVol,
        sharpe := GuardedRatio(annReturn, annVol),
        sortino := GuardedRatio(annReturn, downsideVol),
        maxDrawdown := MaxDrawdown(p),
        numObservations := |series|))
  }

  /** Sharpe is exactly zero unless there are at least two present returns with
      a positive sample variance; in particular a single observation (whose
      standard deviation is NaN) gives zero. */
  lemma SharpeGuard(series: seq<Cell>, f: Floating)
    requires series != []
    requires RootSigns(f.sqrt)
    ensures var m := CalculateMetrics(series, f).value;
            m.sharpe != 0.0 ==>
              |Present(series)| >= 2 && SampleVariance(Present(series)).value > 0.0
  {
    var p := Present(series);
    if |p| >= 2 && SampleVariance(p).value == 0.0 {
      assert f.sqrt(SampleVariance(p).value) == 0.0;
    }
  }

  /** Sortino is zero unless at least two returns are negative and their
      sample variance is positive: fewer than two negatives give a NaN downside
      deviation, equal negatives a zero one, and the guard maps both to 0. The
      first case needs nothing of the square root. */
  lemma SortinoGuard(series: seq<Cell>, f: Floating)
    requires series != []
    ensures var m := CalculateMetrics(series, f).value;
            var n := Negatives(Present(series));
            && (|n| < 2 ==> m.sortino == 0.0)
            && (RootSigns(f.sqrt) && m.sortino != 0.0 ==> |n| >= 2 && SampleVariance(n).value > 0.0)
  {
    var n := Negatives(Present(series));
    if RootSigns(f.sqrt) && |n| >= 2 && SampleVariance(n).value == 0.0 {
      assert f.sqrt(SampleVariance(n).value) == 0.0;
    }
  }

  /** Returns -1%, -1%, +2%: two negative returns, but equal ones, so the
      downside deviation is 0 and Sortino is 0. */
  lemma EqualDownsideExample(f: Floating)
    requires RootSigns(f.sqrt)
    ensures CalculateMetrics([Some(-0.01), Some(-0.01), Some(0.02)], f).value.sortino == 0.0
  {
    var series := [Some(-0.01), Some(-0.01), Some(0.02)];
    PresentOfComplete(series);
    assert Present(series) == [-0.01, -0.01, 0.02];
    EqualDownsideVariance([-0.01, -0.01, 0.02]);
    SortinoGuard(series, f);
  }

  lemma EqualDownsideVariance(p: seq<real>)
    requires p == [-0.01, -0.01, 0.02]
    ensures SampleVariance(Negatives(p)) == Some(0.0)
  {
    var p1, p2 := [0.02], [-0.01, 0.02];
    assert p1[1..] == [] && p2[1..] == p1 && p[1..] == p2;
    assert Negatives(p1) == [];
    assert Negatives(p2) == [-0.01];
    assert Negatives(p) == [-0.01, -0.01];
    ConstantHasZeroVariance(Negatives(p), -0.01);
  }

  /** A flat series (every return present and the same) has zero volatility, so
      both Sharpe and Sortino come out as 0 rather than a division by zero. */
  lemma FlatSeriesRatiosAreZero(series: seq<Cell>, c: real, f: Floating)
    requires series != []
    requires RootSigns(f.sqrt)
    requires forall i :: 0 <= i < |series| ==> series[i] == Some(c)
    ensures CalculateMetrics(series, f).value.sharpe == 0.0
    ensures CalculateMetrics(series, f).value.sortino == 0.0
  {
    var p := Present(series);
    PresentOfComplete(series);
    if |p| >= 2 {
      ConstantHasZeroVariance(p, c);
      assert f.sqrt(0.0) == 0.0;
    }
    var n := Negatives(p);
    NegativesAreNegativeReturns(p);
    assert forall i :: 0 <= i < |n| ==> n[i] in p;
    assert forall i :: 0 <= i < |n| ==> n[i] == c;
    if |n| >= 2 {
      ConstantHasZeroVariance(n, c);
    }
  }

  /** Total returns compound: the wealth factor (1 + total return) of two
      consecutive stretches of days, NaN days skipped, is the product of
      their factors. */
  lemma {:induction false} WealthCompounds(a: seq<Cell>, b: seq<Cell>)
    ensures Growth(Present(a + b)) == Growth(Present(a)) * Growth(Present(b))
  {
    PresentAppend(a, b);
    GrowthAppend(Present(a), Present(b));
  }

  /** The worked example: four alternating returns have a total return equal to
      the literal product minus one, and a drawdown that is not positive. */
  lemma FourDayExample(f: Floating)
    ensures var m := CalculateMetrics([Some(0.01), Some(-0.01), Some(0.02), Some(-0.02)], f).value;
            m.totalReturn == 1.01 * 0.99 * 1.02 * 0.98 - 1.0 &&
            m.maxDrawdown.Some? && m.maxDrawdown.value <= 0.0
  {
    var series := [Some(0.01), Some(-0.01), Some(0.02), Some(-0.02)];
    var p := [0.01, -0.01, 0.02, -0.02];
    PresentOfComplete(series);
    assert Present(series) == p;
    FourDayGrowth(p);
    DrawdownWithinBounds(p);
  }

  lemma FourDayGrowth(p: seq<real>)
    requires p == [0.01, -0.01, 0.02, -0.02]
    ensures Growth(p) == 1.01 * 0.99 * 1.02 * 0.98
  {
    var p1, p2, p3 := [0.01], [0.01, -0.01], [0.01, -0.01, 0.02];
    assert p1[..0] == [] && p2[..1] == p1 && p3[..2] == p2 && p[..3] == p3;
    assert Growth(p1) == 1.01;
    assert Growth(p2) == 1.01 * 0.99;
    assert Growth(p3) == 1.01 * 0.99 * 1.02;
  }
}
