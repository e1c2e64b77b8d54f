/** `RegimeDetector` and `compare_models` (src/regime_detector.py): the
    detector's fitted/unfitted life cycle, the per-regime VIX statistics with
    their volatility names, the AIC/BIC arithmetic of `score_model`, and the
    first-minimum model selection. The Gaussian HMM itself (EM fitting, Viterbi
    decoding, the log-likelihood) and the standard scaler are foreign numeric
    code: a fitted model is given as an `HmmFit` value. */
module RegimeDetection {
  import opened Basics
  import opened Statistics

  /** What a fitted Gaussian HMM offers, with the scaler's transform folded in:
      the most likely state of each day of a VIX-change series, and the total
      log-likelihood of a series. */
  datatype HmmFit = HmmFit(decode: seq<real> -> seq<int>, score: seq<real> -> real)

  /** A model with `k` components labels every day with a state in [0, k). */
  ghost predicate Decodes(fit: HmmFit, k: int)
  {
    forall x :: |fit.decode(x)| == |x| && forall i :: 0 <= i < |x| ==> 0 <= fit.decode(x)[i] < k
  }

  datatype DetectorError =
    | NotFitted                     // the scaler and model are used before any successful `fit`
    | EmptyInput                    // the scaler refuses a series with no sample
    | ScalerReset                   // the scaler's mean was deleted by a refused refit
    | IndexError(position: nat)     // `stats.index[position]` past the last regime row
    | NoModels                      // `comparison['AIC']` on an empty comparison

  // ---------------------------------------------------------------------------
  // score_model arithmetic
  // ---------------------------------------------------------------------------

  /** One row of the model comparison. */
  datatype ScoreRow = ScoreRow(nStates: int, logLikelihood: real, aic: real, bic: real)

  /** Free parameters counted for a `k`-state model: transition matrix, means
      and variances. */
  function NumParams(k: int): (p: int)
    ensures p == (k + 1) * (k + 1) - 1
    ensures k >= 0 ==> p >= 0
  {
    k * k + 2 * k
  }

  /** The criteria of a `k`-state model with log-likelihood `ll` on a series
      whose length has natural logarithm `lnN`. */
  function Score(k: int, ll: real, lnN: real): ScoreRow
  {
    var p := NumParams(k) as real;
    ScoreRow(k, ll, 2.0 * p - 2.0 * ll, p * lnN - 2.0 * ll)
  }

  /** More states cost more parameters (for any state count from -1 up). */
  lemma {:induction false} NumParamsIncrease(k1: int, k2: int)
    requires -1 <= k1 < k2
    ensures NumParams(k1) < NumParams(k2)
    decreases k2 - k1
  {
    assert NumParams(k1 + 1) == NumParams(k1) + 2 * k1 + 3;
    if k1 + 1 < k2 {
      NumParamsIncrease(k1 + 1, k2);
    }
  }

  /** For a fixed log-likelihood, AIC strictly increases with the number of
      states. */
  lemma AicIncreasesWithStates(k1: int, k2: int, ll: real, lnN: real)
    requires 0 <= k1 < k2
    ensures Score(k1, ll, lnN).aic < Score(k2, ll, lnN).aic
  {
    NumParamsIncrease(k1, k2);
  }

  /** For a fixed log-likelihood and a series of more than one day (ln n > 0),
      BIC strictly increases with the number of states. */
  lemma BicIncreasesWithStates(k1: int, k2: int, ll: real, lnN: real)
    requires 0 <= k1 < k2
    requires lnN > 0.0
    ensures Score(k1, ll, lnN).bic < Score(k2, ll, lnN).bic
  {
    NumParamsIncrease(k1, k2);
    var p1 := NumParams(k1) as real;
    var p2 := NumParams(k2) as real;
    assert (p2 - p1) * lnN > 0.0;
  }

  /** A higher log-likelihood lowers both criteria. */
  lemma LikelierModelScoresLower(k: int, ll1: real, ll2: real, lnN: real)
    requires ll1 < ll2
    ensures Score(k, ll2, lnN).aic < Score(k, ll1, lnN).aic
    ensures Score(k, ll2, lnN).bic < Score(k, ll1, lnN).bic
  {
  }

  /** With at least one parameter, BIC penalises more than AIC exactly when
      ln n > 2, that is on series of eight days or more. */
  lemma BicAboveAic(k: int, ll: real, lnN: real)
    requires NumParams(k) > 0
    ensures Score(k, ll, lnN).bic > Score(k, ll, lnN).aic <==> lnN > 2.0
  {
    var p := NumParams(k) as real;
    var s := Score(k, ll, lnN);
    assert s.bic - s.aic == p * (lnN - 2.0);
    PositiveFactorSign(p, lnN - 2.0);
  }

  /** A positive factor keeps the sign of a product. */
  lemma PositiveFactorSign(p: real, x: real)
    requires p > 0.0
    ensures p * x > 0.0 <==> x > 0.0
  {
    if x <= 0.0 {
      assert p * (0.0 - x) >= 0.0;
    }
  }


  // ---------------------------------------------------------------------------
  // The detector
  // ---------------------------------------------------------------------------

  class RegimeDetector {
    const nRegimes: int
    /** The fitted HMM; `None` until the first successful `fit`. */
    var model: Option<HmmFit>
    /** Whether the standard scaler has been fitted. */
    var scalerFitted: bool

    /** A fitted scaler comes with a model, and a model has `nRegimes`
        components. (A model can outlive its scaler: a refit refused for an
        empty series has already reset the scaler.) */
    ghost predicate Valid()
      reads this
    {
      && (scalerFitted ==> model.Some?)
      && (model.Some? ==> Decodes(model.value, nRegimes))
    }

    /** `RegimeDetector(n_regimes)`: nothing fitted yet. */
    constructor(nRegimes: int)
      ensures this.nRegimes == nRegimes
      ensures model.None? && !scalerFitted
      ensures Valid()
    {
      this.nRegimes := nRegimes;
      model := None;
      scalerFitted := false;
    }

    /** `fit`: fits the scaler on `vix` and installs the HMM `trained` that the
        EM algorithm produced from the standardised series. An empty series is
        refused by the scaler, which has reset itself first, so the scaler is
        left unfitted while any earlier model stays. */
    method Fit(vix: seq<real>, trained: HmmFit) returns (err: Option<DetectorError>)
      requires Valid()
      requires Decodes(trained, nRegimes)
      modifies this
      ensures Valid()
      ensures vix == [] ==> err == Some(EmptyInput) && model == old(model) && !scalerFitted
      ensures vix != [] ==> err.None? && model == Some(trained) && scalerFitted
    {
      if vix == [] {
        scalerFitted := false;
        return Some(EmptyInput);
      }
      scalerFitted := true;
      model := Some(trained);
      return None;
    }

    /** `predict`: the state of every day, each in [0, nRegimes). Before any
        successful `fit` the scaler is not fitted at all; otherwise an empty
        series is refused; and after a refused refit the scaler has lost its
        mean, so a non-empty series fails too. */
    function Predict(vix: seq<real>): (r: Result<seq<int>, DetectorError>)
      reads this
      requires Valid()
      ensures model.None? <==> r == Err(NotFitted)
      ensures model.Some? && vix == [] <==> r == Err(EmptyInput)
      ensures model.Some? && vix != [] && !scalerFitted <==> r == Err(ScalerReset)
      ensures r.Ok? ==> |r.value| == |vix| && forall i :: 0 <= i < |vix| ==> 0 <= r.value[i] < nRegimes
    {
      if model.None? then Err(NotFitted)
      else if vix == [] then Err(EmptyInput)
      else if !scalerFitted then Err(ScalerReset)
      else Ok(model.value.decode(vix))
    }

    /** `score_model`: the log-likelihood of `vix` under the fitted model with
        AIC and BIC for `nRegimes` states; `ln` is the natural logarithm. It fails
        exactly as `predict` does. */
    function ScoreModel(vix: seq<real>, ln: real -> real): (r: Result<ScoreRow, DetectorError>)
      reads this
      requires Valid()
      ensures model.None? <==> r == Err(NotFitted)
      ensures model.Some? && vix == [] <==> r == Err(EmptyInput)
      ensures model.Some? && vix != [] && !scalerFitted <==> r == Err(ScalerReset)
      ensures r.Ok? ==> r.value.nStates == nRegimes && r.value.logLikelihood == model.value.score(vix)
      ensures r.Ok? ==> r.value == Score(nRegimes, model.value.score(vix), ln(|vix| as real))
    {
      if model.None? then Err(NotFitted)
      else if vix == [] then Err(EmptyInput)
      else if !scalerFitted then Err(ScalerReset)
      else Ok(Score(nRegimes, model.value.score(vix), ln(|vix| as real)))
    }
  }

  /** A refit on an empty series, after a successful fit, leaves the detector
      unable to predict a non-empty series even though the earlier HMM is
      still installed: the scaler has lost its mean. */
  method RefusedRefitUnfits(vix: seq<real>, trained: HmmFit) returns (r: Result<seq<int>, DetectorError>)
    requires vix != []
    requires Decodes(trained, 3)
    ensures r == Err(ScalerReset)
  {
    var d := new RegimeDetector(3);
    var first := d.Fit(vix, trained);
    var second := d.Fit([], trained);
    assert d.model == Some(trained);
    r := d.Predict(vix);
  }

  // ---------------------------------------------------------------------------
  // compare_models
  // ---------------------------------------------------------------------------

  /** `xs[i]` is the first occurrence of the minimum of `xs` (`idxmin`). */
  ghost predicate IsFirstMin(xs: seq<real>, i: int)
  {
    && 0 <= i < |xs|
    && (forall j :: 0 <= j < |xs| ==> xs[i] <= xs[j])
    && (forall j :: 0 <= j < i ==> xs[i] < xs[j])
  }

  function FirstArgMin(xs: seq<real>): (i: nat)
    requires xs != []
    ensures IsFirstMin(xs, i)
  {
    if |xs| == 1 then 0
    else
      var front := xs[..|xs| - 1];
      var i := FirstArgMin(front);
      assert forall j :: 0 <= j < |front| ==> front[j] == xs[j];
      if xs[|xs| - 1] < xs[i] then |xs| - 1 else i
  }

  function Aics(rows: seq<ScoreRow>): (xs: seq<real>)
    ensures |xs| == |rows| && forall i :: 0 <= i < |rows| ==> xs[i] == rows[i].aic
  {
    seq(|rows|, i requires 0 <= i < |rows| => rows[i].aic)
  }

  function Bics(rows: seq<ScoreRow>): (xs: seq<real>)
    ensures |xs| == |rows| && forall i :: 0 <= i < |rows| ==> xs[i] == rows[i].bic
  {
    seq(|rows|, i requires 0 <= i < |rows| => rows[i].bic)
  }

  /** The comparison table and the state counts it selects. */
  datatype Comparison = Comparison(rows: seq<ScoreRow>, bestAic: int, bestBic: int)

  /** `compare_models`: for every entry `n` of `nStatesList`, in order, a fresh
      `n`-state detector is fitted to `vix` (EM yielding `trained(n)`) and
      scored; the best state counts are those of the first row with the least
      AIC and the least BIC. An empty series fails at the first fit; an empty
      list leaves a table without an AIC column. */
  method CompareModels(vix: seq<real>, nStatesList: seq<int>, trained: int -> HmmFit, ln: real -> real)
    returns (r: Result<Comparison, DetectorError>)
    requires forall n :: n in nStatesList ==> Decodes(trained(n), n)
    ensures nStatesList == [] ==> r == Err(NoModels)
    ensures nStatesList != [] && vix == [] ==> r == Err(EmptyInput)
    ensures nStatesList != [] && vix != [] ==> r.Ok?
    ensures r.Ok? ==>
              && |r.value.rows| == |nStatesList|
              && (forall i :: 0 <= i < |nStatesList| ==>
                    r.value.rows[i] == Score(nStatesList[i], trained(nStatesList[i]).score(vix), ln(|vix| as real)))
              && r.value.bestAic == nStatesList[FirstArgMin(Aics(r.value.rows))]
              && r.value.bestBic == nStatesList[FirstArgMin(Bics(r.value.rows))]
  {
    var rows: seq<ScoreRow> := [];
    var i := 0;
    while i < |nStatesList|
      invariant 0 <= i <= |nStatesList|
      invariant i > 0 ==> vix != []
      invariant |rows| == i
      invariant forall j :: 0 <= j < i ==>
                  rows[j] == Score(nStatesList[j], trained(nStatesList[j]).score(vix), ln(|vix| as real))
    {
      var n := nStatesList[i];
      var detector := new RegimeDetector(n);
      var err := detector.Fit(vix, trained(n));
      if err.Some? {
        return Err(err.value);
      }
      var scores := detector.ScoreModel(vix, ln);
      assert scores == Ok(Score(n, trained(n).score(vix), ln(|vix| as real)));
      rows := rows + [scores.value];
      i := i + 1;
    }
    if rows == [] {
      return Err(NoModels);
    }
    var bestAic := FirstArgMin(Aics(rows));
    var bestBic := FirstArgMin(Bics(rows));
    assert rows[bestAic].nStates == nStatesList[bestAic] && rows[bestBic].nStates == nStatesList[bestBic];
    return Ok(Comparison(rows, rows[bestAic].nStates, rows[bestBic].nStates));
  }

  // ---------------------------------------------------------------------------
  // get_regime_stats
  // ---------------------------------------------------------------------------

  /** One row of `groupby('state')['vix_change'].agg(['mean', 'std', 'count'])`. */
  datatype StatRow = StatRow(state: int, mean: real, std: Option<real>, count: nat)

  /** The statistics of the groups named by `keys`, in key order: the day
      count, the mean, and the standard deviation as the square root `sqrt`
      of the ddof = 1 variance (NaN for a one-day group). */
  function GroupStats(states: seq<int>, vix: seq<real>, keys: seq<int>, sqrt: real -> real): (rows: seq<StatRow>)
    requires |states| == |vix|
    requires forall k :: k in keys ==> k in states
    ensures |rows| == |keys|
    ensures forall i :: 0 <= i < |keys| ==>
              && rows[i].state == keys[i]
              && rows[i].count == Count(states, keys[i]) > 0
              && Mean(Select(states, vix, keys[i])) == Some(rows[i].mean)
              && (rows[i].std.Some? <==> Count(states, keys[i]) >= 2)
              && rows[i].std == (match SampleVariance(Select(states, vix, keys[i]))
                                   case None => None
                                   case Some(v) => Some(sqrt(v)))
  {
    if keys == [] then []
    else
      var k := keys[0];
      CountPositive(states, k);
      var g := Select(states, vix, k);
      var std := match SampleVariance(g) case None => None case Some(v) => Some(sqrt(v));
      [StatRow(k, Sum(g) / |g| as real, std, |g|)] + GroupStats(states, vix, keys[1..], sqrt)
  }

  ghost predicate SortedByMean(rows: seq<StatRow>)
  {
    forall i, j :: 0 <= i < j < |rows| ==> rows[i].mean <= rows[j].mean
  }

  /** Puts `r` in front of the first row whose mean is not below its own. */
  function InsertByMean(r: StatRow, rows: seq<StatRow>): (result: seq<StatRow>)
    ensures |result| == |rows| + 1
  {
    if rows == [] then [r]
    else if r.mean <= rows[0].mean then [r] + rows
    else [rows[0]] + InsertByMean(r, rows[1..])
  }

  /** Inserting adds exactly the one row. */
  lemma {:induction false} InsertByMeanAdds(r: StatRow, rows: seq<StatRow>)
    ensures multiset(InsertByMean(r, rows)) == multiset(rows) + multiset{r}
  {
    if rows == [] {
      assert InsertByMean(r, rows) == [r];
    } else if r.mean <= rows[0].mean {
      assert InsertByMean(r, rows) == [r] + rows;
    } else {
      var tail := rows[1..];
      var rest := InsertByMean(r, tail);
      InsertByMeanAdds(r, tail);
      assert InsertByMean(r, rows) == [rows[0]] + rest;
      assert multiset([rows[0]] + rest) == multiset{rows[0]} + multiset(rest);
      assert rows == [rows[0]] + tail;
      assert multiset(rows) == multiset{rows[0]} + multiset(tail);
    }
  }

  /** Inserting into rows sorted by mean keeps them sorted. */
  lemma {:induction false} InsertByMeanSorted(r: StatRow, rows: seq<StatRow>)
    requires SortedByMean(rows)
    ensures SortedByMean(InsertByMean(r, rows))
  {
    if rows != [] && r.mean > rows[0].mean {
      var rest := InsertByMean(r, rows[1..]);
      InsertByMeanSorted(r, rows[1..]);
      InsertByMeanAbove(r, rows[1..], rows[0].mean);
      var result := [rows[0]] + rest;
      assert result == InsertByMean(r, rows);
      forall i, j | 0 <= i < j < |result|
        ensures result[i].mean <= result[j].mean
      {
        if i == 0 {
          assert result[j] == rest[j - 1];
        } else {
          assert result[i] == rest[i - 1] && result[j] == rest[j - 1];
        }
      }
    }
  }

  /** A lower bound of `r` and of every row bounds every row after the insertion. */
  lemma {:induction false} InsertByMeanAbove(r: StatRow, rows: seq<StatRow>, b: real)
    requires b <= r.mean
    requires forall j :: 0 <= j < |rows| ==> b <= rows[j].mean
    ensures forall j :: 0 <= j < |InsertByMean(r, rows)| ==> b <= InsertByMean(r, rows)[j].mean
  {
    if rows != [] && r.mean > rows[0].mean {
      var rest := InsertByMean(r, rows[1..]);
      InsertByMeanAbove(r, rows[1..], b);
      assert InsertByMean(r, rows) == [rows[0]] + rest;
    }
  }

  /** `sort_values('mean')`: the rows in ascending order of mean. */
  function SortByMean(rows: seq<StatRow>): (sorted: seq<StatRow>)
    ensures SortedByMean(sorted)
    ensures |sorted| == |rows|
  {
    if rows == [] then []
    else
      var tail := SortByMean(rows[1..]);
      InsertByMeanSorted(rows[0], tail);
      InsertByMean(rows[0], tail)
  }

  /** Sorting rearranges the rows: it neither adds, drops nor repeats one. */
  lemma {:induction false} SortByMeanPermutes(rows: seq<StatRow>)
    ensures multiset(SortByMean(rows)) == multiset(rows)
  {
    if rows != [] {
      SortByMeanPermutes(rows[1..]);
      InsertByMeanAdds(rows[0], SortByMean(rows[1..]));
      assert rows == [rows[0]] + rows[1..];
    }
  }

  const LOW_VOL: string := "Low Vol"
  const MEDIUM_VOL: string := "Medium Vol"
  const HIGH_VOL: string := "High Vol"

  /** The name given to the row at `position` in ascending-mean order. */
  function RegimeName(nRegimes: int, position: nat): Option<string>
  {
    if nRegimes == 3 then
      if position == 0 then Some(LOW_VOL)
      else if position == 1 then Some(MEDIUM_VOL)
      else if position == 2 then Some(HIGH_VOL)
      else None
    else
      if position == 0 then Some(LOW_VOL)
      else if position == 1 then Some(HIGH_VOL)
      else None
  }

  /** Number of rows the naming dictionary indexes. */
  function NamedRows(nRegimes: int): nat
  {
    if nRegimes == 3 then 3 else 2
  }

  datatype RegimeRow = RegimeRow(stats: StatRow, name: Option<string>)

  /** The statistics of every state that occurs, in ascending order of mean. */
  function SortedGroups(states: seq<int>, vix: seq<real>, sqrt: real -> real): seq<StatRow>
    requires |states| == |vix|
  {
    SortByMean(GroupStats(states, vix, Distinct(states), sqrt))
  }

  /** `get_regime_stats` of a detector with `nRegimes` regimes. */
  function RegimeStats(nRegimes: int, states: seq<int>, vix: seq<real>, sqrt: real -> real)
    : Result<seq<RegimeRow>, DetectorError>
    requires |states| == |vix|
  {
    var sorted := SortedGroups(states, vix, sqrt);
    if |sorted| < NamedRows(nRegimes) then Err(IndexError(|sorted|))
    else Ok(seq(|sorted|, i requires 0 <= i < |sorted| => RegimeRow(sorted[i], RegimeName(nRegimes, i))))
  }

  /** Sum of the counts of a table. */
  function TotalCount(rows: seq<StatRow>): nat
  {
    if rows == [] then 0 else rows[0].count + TotalCount(rows[1..])
  }

  lemma {:induction false} TotalCountOfGroups(states: seq<int>, vix: seq<real>, keys: seq<int>, sqrt: real -> real)
    requires |states| == |vix|
    requires forall k :: k in keys ==> k in states
    ensures TotalCount(GroupStats(states, vix, keys, sqrt)) == SumCounts(states, keys)
  {
    if keys != [] {
      TotalCountOfGroups(states, vix, keys[1..], sqrt);
    }
  }

  lemma {:induction false} TotalCountOfInsert(r: StatRow, rows: seq<StatRow>)
    requires SortedByMean(rows)
    ensures TotalCount(InsertByMean(r, rows)) == r.count + TotalCount(rows)
  {
    if rows != [] && r.mean > rows[0].mean {
      TotalCountOfInsert(r, rows[1..]);
    }
  }

  lemma {:induction false} TotalCountOfSort(rows: seq<StatRow>)
    ensures TotalCount(SortByMean(rows)) == TotalCount(rows)
  {
    if rows != [] {
      TotalCountOfSort(rows[1..]);
      TotalCountOfInsert(rows[0], SortByMean(rows[1..]));
    }
  }

  /** Sorting keeps which rows there are, so the states of a table whose
      states differ still differ after sorting. */
  lemma SortKeepsDistinctStates(rows: seq<StatRow>)
    requires forall i, j :: 0 <= i < j < |rows| ==> rows[i].state != rows[j].state
    ensures var sorted := SortByMean(rows);
      forall i, j :: 0 <= i < j < |sorted| ==> sorted[i].state != sorted[j].state
  {
    var sorted := SortByMean(rows);
    SortByMeanPermutes(rows);
    forall i, j | 0 <= i < j < |sorted|
      ensures sorted[i].state != sorted[j].state
    {
      assert sorted[i] in multiset(rows) && sorted[j] in multiset(rows);
      var a :| 0 <= a < |rows| && rows[a] == sorted[i];
      var b :| 0 <= b < |rows| && rows[b] == sorted[j];
      if a == b {
        MultisetCountAtLeastTwo(sorted, i, j);
        DistinctRowsOccurOnce(rows, a);
      }
    }
  }

  /** An element found at two positions occurs at least twice. */
  lemma MultisetCountAtLeastTwo(s: seq<StatRow>, i: int, j: int)
    requires 0 <= i < j < |s| && s[i] == s[j]
    ensures multiset(s)[s[i]] >= 2
  {
    assert s == s[..i] + [s[i]] + s[i + 1..j] + [s[j]] + s[j + 1..];
  }

  /** In a table whose states differ, each row occurs once. */
  lemma {:induction false} DistinctRowsOccurOnce(rows: seq<StatRow>, a: int)
    requires forall i, j :: 0 <= i < j < |rows| ==> rows[i].state != rows[j].state
    requires 0 <= a < |rows|
    ensures multiset(rows)[rows[a]] == 1
  {
    var x := rows[a];
    assert rows == rows[..a] + [x] + rows[a + 1..];
    assert x !in rows[..a];
    assert x !in rows[a + 1..];
  }

  /** `get_regime_stats` succeeds exactly when there are enough distinct
      states to name (three when nRegimes is 3, two otherwise), and the
      failure names the first missing position; on success there is one row
      per distinct state, in ascending order of mean. */
  lemma RegimeStatsOutcome(nRegimes: int, states: seq<int>, vix: seq<real>, sqrt: real -> real)
    requires |states| == |vix|
    ensures var r := RegimeStats(nRegimes, states, vix, sqrt);
      && (r.Ok? <==> |Distinct(states)| >= NamedRows(nRegimes))
      && (r.Err? ==> r.error == IndexError(|Distinct(states)|))
      && (r.Ok? ==> |r.value| == |Distinct(states)|)
      && (r.Ok? ==> forall i, j :: 0 <= i < j < |r.value| ==> r.value[i].stats.mean <= r.value[j].stats.mean)
  {
  }

  /** A row of a permutation of `a` is a row of `a`. */
  lemma InPermutation(a: seq<StatRow>, b: seq<StatRow>, i: int)
    requires multiset(a) == multiset(b) && 0 <= i < |b|
    ensures exists j :: 0 <= j < |a| && a[j] == b[i]
  {
    assert b[i] in multiset(a);
  }

  lemma SortedGroupsCover(states: seq<int>, vix: seq<real>, sqrt: real -> real)
    requires |states| == |vix|
    ensures var sorted := SortedGroups(states, vix, sqrt);
      forall k :: k in states ==> exists i :: 0 <= i < |sorted| && sorted[i].state == k
  {
    var keys := Distinct(states);
    var groups := GroupStats(states, vix, keys, sqrt);
    var sorted := SortedGroups(states, vix, sqrt);
    SortByMeanPermutes(groups);
    forall k | k in states
      ensures exists i :: 0 <= i < |sorted| && sorted[i].state == k
    {
      var g :| 0 <= g < |keys| && keys[g] == k;
      InPermutation(sorted, groups, g);
    }
  }

  lemma SortedGroupsMeans(states: seq<int>, vix: seq<real>, sqrt: real -> real)
    requires |states| == |vix|
    ensures var sorted := SortedGroups(states, vix, sqrt);
      forall i :: 0 <= i < |sorted| ==>
        sorted[i].state in states && Mean(Select(states, vix, sorted[i].state)) == Some(sorted[i].mean)
  {
    var keys := Distinct(states);
    var groups := GroupStats(states, vix, keys, sqrt);
    var sorted := SortedGroups(states, vix, sqrt);
    SortByMeanPermutes(groups);
    forall i | 0 <= i < |sorted|
      ensures sorted[i].state in states
      ensures Mean(Select(states, vix, sorted[i].state)) == Some(sorted[i].mean)
    {
      InPermutation(groups, sorted, i);
      var g :| 0 <= g < |groups| && groups[g] == sorted[i];
      assert keys[g] in keys;
    }
  }

  lemma SortedGroupsDistinct(states: seq<int>, vix: seq<real>, sqrt: real -> real)
    requires |states| == |vix|
    ensures var sorted := SortedGroups(states, vix, sqrt);
      forall i, j :: 0 <= i < j < |sorted| ==> sorted[i].state != sorted[j].state
  {
    var keys := Distinct(states);
    var groups := GroupStats(states, vix, keys, sqrt);
    assert Increasing(keys);
    assert forall i, j :: 0 <= i < j < |groups| ==> groups[i].state != groups[j].state;
    SortKeepsDistinctStates(groups);
    assert SortedGroups(states, vix, sqrt) == SortByMean(groups);
  }

  /** The rows of `get_regime_stats` are the groups of the states that occur,
      each once, with the mean VIX change of its days. */
  lemma RegimeStatsGroups(nRegimes: int, states: seq<int>, vix: seq<real>, sqrt: real -> real)
    requires |states| == |vix|
    requires RegimeStats(nRegimes, states, vix, sqrt).Ok?
    ensures var rows := RegimeStats(nRegimes, states, vix, sqrt).value;
      && (forall k :: k in states <==> exists i :: 0 <= i < |rows| && rows[i].stats.state == k)
      && (forall i, j :: 0 <= i < j < |rows| ==> rows[i].stats.state != rows[j].stats.state)
      && (forall i :: 0 <= i < |rows| ==>
            Mean(Select(states, vix, rows[i].stats.state)) == Some(rows[i].stats.mean))
  {
    var sorted := SortedGroups(states, vix, sqrt);
    var rows := RegimeStats(nRegimes, states, vix, sqrt).value;
    assert |rows| == |sorted| && forall i :: 0 <= i < |rows| ==> rows[i].stats == sorted[i];
    SortedGroupsCover(states, vix, sqrt);
    SortedGroupsMeans(states, vix, sqrt);
    SortedGroupsDistinct(states, vix, sqrt);
  }

  /** The group sizes of `get_regime_stats` add up to the number of days. */
  lemma RegimeStatsCounts(nRegimes: int, states: seq<int>, vix: seq<real>, sqrt: real -> real)
    requires |states| == |vix|
    requires RegimeStats(nRegimes, states, vix, sqrt).Ok?
    ensures TotalCount(StatsOf(RegimeStats(nRegimes, states, vix, sqrt).value)) == |states|
  {
    var keys := Distinct(states);
    var groups := GroupStats(states, vix, keys, sqrt);
    var sorted := SortedGroups(states, vix, sqrt);
    TotalCountOfGroups(states, vix, keys, sqrt);
    TotalCountOfSort(groups);
    GroupSizesPartition(states, keys);
    var rows := RegimeStats(nRegimes, states, vix, sqrt).value;
    assert StatsOf(rows) == sorted;
  }

  /** The statistics column of a named table. */
  function StatsOf(rows: seq<RegimeRow>): seq<StatRow>
  {
    seq(|rows|, i requires 0 <= i < |rows| => rows[i].stats)
  }

  /** The row named "Low Vol" is the first one and the only one, and its mean
      is the least mean of any state that occurs. */
  lemma LowVolHasLeastMean(nRegimes: int, states: seq<int>, vix: seq<real>, sqrt: real -> real)
    requires |states| == |vix|
    requires RegimeStats(nRegimes, states, vix, sqrt).Ok?
    ensures var rows := RegimeStats(nRegimes, states, vix, sqrt).value;
      && rows[0].name == Some(LOW_VOL)
      && (forall i :: 0 <= i < |rows| && rows[i].name == Some(LOW_VOL) ==> i == 0)
      && (forall k :: k in states ==> rows[0].stats.mean <= Mean(Select(states, vix, k)).value)
  {
    var sorted := SortedGroups(states, vix, sqrt);
    var rows := RegimeStats(nRegimes, states, vix, sqrt).value;
    assert |rows| == |sorted| > 0;
    assert forall i :: 0 <= i < |rows| ==> rows[i] == RegimeRow(sorted[i], RegimeName(nRegimes, i));
    forall i | 0 <= i < |rows|
      ensures rows[i].name == Some(LOW_VOL) <==> i == 0
    {
      OnlyFirstIsLowVol(nRegimes, i);
    }
    RegimeStatsGroups(nRegimes, states, vix, sqrt);
    assert SortedByMean(sorted);
    forall k | k in states
      ensures rows[0].stats.mean <= Mean(Select(states, vix, k)).value
    {
      var i :| 0 <= i < |rows| && rows[i].stats.state == k;
      if i > 0 {
        assert rows[0].stats.mean <= rows[i].stats.mean;
      }
    }
  }

  /** Only the first position is named "Low Vol". */
  lemma OnlyFirstIsLowVol(nRegimes: int, position: nat)
    ensures RegimeName(nRegimes, position) == Some(LOW_VOL) <==> position == 0
  {
    assert |MEDIUM_VOL| != |LOW_VOL| && |HIGH_VOL| != |LOW_VOL|;
  }

  /** With three regimes the rows, in ascending-mean order, are named
      "Low Vol", "Medium Vol" and "High Vol", and any further row has no name. */
  lemma ThreeRegimeNames(states: seq<int>, vix: seq<real>, sqrt: real -> real)
    requires |states| == |vix|
    requires |Distinct(states)| >= 3
    ensures RegimeStats(3, states, vix, sqrt).Ok?
    ensures var rows := RegimeStats(3, states, vix, sqrt).value;
      && rows[0].name == Some(LOW_VOL)
      && rows[1].name == Some(MEDIUM_VOL)
      && rows[2].name == Some(HIGH_VOL)
      && forall i :: 3 <= i < |rows| ==> rows[i].name.None?
  {
    RegimeStatsOutcome(3, states, vix, sqrt);
  }

  /** With any other number of regimes only the two lowest-mean rows are
      named, "Low Vol" then "High Vol"; with four regimes the second-calmest
      row is therefore called "High Vol" and the two most volatile none. */
  lemma OtherRegimeNames(nRegimes: int, states: seq<int>, vix: seq<real>, sqrt: real -> real)
    requires |states| == |vix|
    requires nRegimes != 3
    requires |Distinct(states)| >= 2
    ensures RegimeStats(nRegimes, states, vix, sqrt).Ok?
    ensures var rows := RegimeStats(nRegimes, states, vix, sqrt).value;
      && rows[0].name == Some(LOW_VOL)
      && rows[1].name == Some(HIGH_VOL)
      && forall i :: 2 <= i < |rows| ==> rows[i].name.None?
  {
    RegimeStatsOutcome(nRegimes, states, vix, sqrt);
  }
}
