/** `StrategyBacktester` (src/backtester.py): per-regime mean returns, the
    best-ETF-per-regime allocation rules, the lagged regime-following backtest,
    the two benchmarks, and the full comparison run. The backtester's fields
    (the return table and the state sequence) are never reassigned after
    construction, so they are passed to each operation as values. */
module Backtester {
  import opened Basics
  import opened Statistics
  import opened Market
  import opened Metrics

  // ---------------------------------------------------------------------------
  // calculate_regime_performance
  // ---------------------------------------------------------------------------

  /** One row of the regime-performance table: a state and the mean return of
      each ETF over the days in that state (NaN when none is present). */
  datatype PerfRow = PerfRow(state: int, tlt: Cell, gld: Cell, spy: Cell)
  {
    function Mean(e: Etf): Cell
    {
      match e
      case TLT => tlt
      case GLD => gld
      case SPY => spy
    }

    /** Every cell multiplied by `c`: a scaled cell is present exactly when
        the cell is, and is then the cell's value times `c`. */
    function Scale(c: real): (row: PerfRow)
      ensures row.state == state
      ensures forall e :: row.Mean(e).Some? <==> Mean(e).Some?
      ensures forall e :: Mean(e).Some? ==> row.Mean(e).value == Mean(e).value * c
    {
      PerfRow(state, Times(tlt, c), Times(gld, c), Times(spy, c))
    }
  }

  function Times(x: Cell, c: real): Cell
  {
    match x
    case None => None
    case Some(v) => Some(v * c)
  }

  const BASIS_POINTS: real := 10000.0

  /** Mean return of ETF `e` on the days labelled `k`, NaN days skipped. */
  function GroupMean(table: seq<Day>, states: seq<int>, e: Etf, k: int): Cell
    requires |states| == |table|
  {
    Mean(Present(Select(states, Column(table, e), k)))
  }

  /** `df.groupby('state')[...].mean()`: one row per state that occurs, keys
      ascending. */
  function GroupMeans(table: seq<Day>, states: seq<int>): (rows: seq<PerfRow>)
    requires |states| == |table|
    ensures |rows| == |Distinct(states)|
    ensures forall i :: 0 <= i < |rows| ==> rows[i].state == Distinct(states)[i]
  {
    var keys := Distinct(states);
    seq(|keys|, i requires 0 <= i < |keys| =>
      PerfRow(keys[i],
              GroupMean(table, states, TLT, keys[i]),
              GroupMean(table, states, GLD, keys[i]),
              GroupMean(table, states, SPY, keys[i])))
  }

  /** `calculate_regime_performance`: the group means in basis points. */
  function RegimePerformance(table: seq<Day>, states: seq<int>): seq<PerfRow>
    requires |states| == |table|
  {
    var means := GroupMeans(table, states);
    seq(|means|, i requires 0 <= i < |means| => means[i].Scale(BASIS_POINTS))
  }

  /** The regime-performance table has exactly one row per distinct state that
      occurs, in ascending state order. */
  lemma RegimePerformanceStates(table: seq<Day>, states: seq<int>)
    requires |states| == |table|
    ensures var perf := RegimePerformance(table, states);
      && (forall i, j :: 0 <= i < j < |perf| ==> perf[i].state < perf[j].state)
      && (forall k :: k in states <==> exists i :: 0 <= i < |perf| && perf[i].state == k)
  {
    var perf := RegimePerformance(table, states);
    var keys := Distinct(states);
    assert forall i :: 0 <= i < |perf| ==> perf[i].state == keys[i];
    forall k | k in states
      ensures exists i :: 0 <= i < |perf| && perf[i].state == k
    {
      var i :| 0 <= i < |keys| && keys[i] == k;
      assert perf[i].state == k;
    }
  }

  /** One cell of the table: present exactly when some day in that row's state
      has a return for that ETF, and then 10000 times the group mean. */
  lemma RegimePerformanceCell(table: seq<Day>, states: seq<int>, i: nat, e: Etf)
    requires |states| == |table|
    requires i < |RegimePerformance(table, states)|
    ensures var row := RegimePerformance(table, states)[i];
      && (row.Mean(e).Some? <==>
            exists d :: 0 <= d < |table| && states[d] == row.state && table[d].Ret(e).Some?)
      && (row.Mean(e).Some? ==>
            row.Mean(e).value == BASIS_POINTS * GroupMean(table, states, e, row.state).value)
  {
    var means := GroupMeans(table, states);
    var row := RegimePerformance(table, states)[i];
    var g := GroupMean(table, states, e, row.state);
    assert row == means[i].Scale(BASIS_POINTS);
    assert means[i].Mean(e) == g;
    assert row.Mean(e).Some? <==> g.Some?;
    var col := Column(table, e);
    GroupHasPresent(states, col, row.state);
    assert g.Some? <==> Present(Select(states, col, row.state)) != [];
  }

  // ---------------------------------------------------------------------------
  // create_allocation_rules
  // ---------------------------------------------------------------------------

  /** Position of an ETF in the column order TLT, GLD, SPY. */
  function Rank(e: Etf): (r: nat)
    ensures r < |COLUMNS| && COLUMNS[r] == e
  {
    match e
    case TLT => 0
    case GLD => 1
    case SPY => 2
  }

  /** One step of `idxmax` with NaN skipped: column `e` replaces the best
      column so far only when its mean is present and strictly greater. */
  function Pick(row: PerfRow, prev: Option<Etf>, e: Etf): Option<Etf>
  {
    match row.Mean(e)
    case None => prev
    case Some(v) =>
      if prev.Some? && row.Mean(prev.value).Some? && row.Mean(prev.value).value >= v then prev
      else Some(e)
  }

  /** `idxmax` over the columns `cols` of a row, scanning left to right. */
  function Scan(row: PerfRow, cols: seq<Etf>): Option<Etf>
  {
    if cols == [] then None
    else Pick(row, Scan(row, cols[..|cols| - 1]), cols[|cols| - 1])
  }

  /** The winning ETF of a regime row: `regime_perf.loc[state].idxmax()`. */
  function BestEtf(row: PerfRow): Option<Etf>
  {
    Scan(row, COLUMNS)
  }

  /** Among the first `k` columns, `e` has the highest present mean and no
      earlier column ties with it. */
  ghost predicate FirstMaxAmong(row: PerfRow, e: Etf, k: nat)
  {
    && Rank(e) < k
    && row.Mean(e).Some?
    && forall o :: Rank(o) < k && row.Mean(o).Some? ==>
         && row.Mean(o).value <= row.Mean(e).value
         && (row.Mean(o).value == row.Mean(e).value ==> Rank(e) <= Rank(o))
  }

  /** `e` has the highest present mean of the row, and no column before it in
      the order TLT, GLD, SPY ties with it. */
  ghost predicate IsFirstMax(row: PerfRow, e: Etf)
  {
    FirstMaxAmong(row, e, |COLUMNS|)
  }

  /** `best` is the outcome of `idxmax` over the first `k` columns. */
  ghost predicate ScannedUpTo(row: PerfRow, best: Option<Etf>, k: nat)
  {
    && (best.None? <==> forall o :: Rank(o) < k ==> row.Mean(o).None?)
    && (best.Some? ==> FirstMaxAmong(row, best.value, k))
  }

  lemma PickStep(row: PerfRow, prev: Option<Etf>, e: Etf)
    requires ScannedUpTo(row, prev, Rank(e))
    ensures ScannedUpTo(row, Pick(row, prev, e), Rank(e) + 1)
  {
    forall o | Rank(o) < Rank(e) + 1
      ensures Rank(o) < Rank(e) || o == e
    {
      if Rank(o) == Rank(e) {
        assert COLUMNS[Rank(o)] == o;
      }
    }
  }

  lemma FirstMaxUnique(row: PerfRow, x: Etf, y: Etf, k: nat)
    requires FirstMaxAmong(row, x, k) && FirstMaxAmong(row, y, k)
    ensures x == y
  {
    assert Rank(x) == Rank(y);
    assert COLUMNS[Rank(x)] == x && COLUMNS[Rank(y)] == y;
  }

  /** The winner is the first column, in the order TLT, GLD, SPY, holding the
      largest present mean; there is none exactly when the whole row is NaN. */
  lemma BestEtfIsFirstMax(row: PerfRow)
    ensures BestEtf(row).None? <==> forall e :: row.Mean(e).None?
    ensures forall e :: BestEtf(row) == Some(e) <==> IsFirstMax(row, e)
  {
    assert COLUMNS[..2] == [TLT, GLD];
    assert [TLT, GLD][..1] == [TLT];
    assert [TLT][..0] == [];
    var p1 := Pick(row, None, TLT);
    var p2 := Pick(row, p1, GLD);
    var p3 := Pick(row, p2, SPY);
    assert Scan(row, [TLT]) == p1;
    assert Scan(row, [TLT, GLD]) == p2;
    assert COLUMNS[|COLUMNS| - 1] == SPY;
    assert BestEtf(row) == p3;
    PickStep(row, None, TLT);
    PickStep(row, p1, GLD);
    PickStep(row, p2, SPY);
    forall e | IsFirstMax(row, e)
      ensures BestEtf(row) == Some(e)
    {
      FirstMaxUnique(row, e, p3.value, 3);
    }
  }

  lemma ScaleKeepsOrder(a: real, b: real, c: real)
    requires c > 0.0
    ensures a <= b <==> a * c <= b * c
    ensures a == b <==> a * c == b * c
  {
    assert b * c - a * c == (b - a) * c;
    if a <= b {
      assert (b - a) * c >= 0.0;
    } else {
      assert (a - b) * c > 0.0;
    }
  }

  /** Scaling by a positive factor keeps which column is the first maximum. */
  lemma ScalingKeepsFirstMax(row: PerfRow, c: real, e: Etf)
    requires c > 0.0
    ensures IsFirstMax(row.Scale(c), e) <==> IsFirstMax(row, e)
  {
    var scaled := row.Scale(c);
    if row.Mean(e).Some? {
      forall o | row.Mean(o).Some?
        ensures scaled.Mean(o).value <= scaled.Mean(e).value <==> row.Mean(o).value <= row.Mean(e).value
        ensures scaled.Mean(o).value == scaled.Mean(e).value <==> row.Mean(o).value == row.Mean(e).value
      {
        ScaledPair(row, c, e, o);
      }
    }
  }

  /** Scaling keeps how two present cells of a row compare. */
  lemma ScaledPair(row: PerfRow, c: real, e: Etf, o: Etf)
    requires c > 0.0 && row.Mean(e).Some? && row.Mean(o).Some?
    ensures row.Scale(c).Mean(e).Some? && row.Scale(c).Mean(o).Some?
    ensures row.Scale(c).Mean(o).value <= row.Scale(c).Mean(e).value <==> row.Mean(o).value <= row.Mean(e).value
    ensures row.Scale(c).Mean(o).value == row.Scale(c).Mean(e).value <==> row.Mean(o).value == row.Mean(e).value
  {
    ScaleKeepsOrder(row.Mean(o).value, row.Mean(e).value, c);
  }

  /** Converting to basis points (any positive factor) does not change the winner. */
  lemma ScalingKeepsWinner(row: PerfRow, c: real)
    requires c > 0.0
    ensures BestEtf(row.Scale(c)) == BestEtf(row)
  {
    var scaled := row.Scale(c);
    BestEtfIsFirstMax(row);
    BestEtfIsFirstMax(scaled);
    forall e
      ensures BestEtf(scaled) == Some(e) <==> BestEtf(row) == Some(e)
    {
      ScalingKeepsFirstMax(row, c, e);
    }
  }

  /** Each regime's winner in basis points is its winner in raw mean returns. */
  lemma BasisPointsKeepWinner(table: seq<Day>, states: seq<int>)
    requires |states| == |table|
    ensures forall i :: 0 <= i < |RegimePerformance(table, states)| ==>
              BestEtf(RegimePerformance(table, states)[i]) == BestEtf(GroupMeans(table, states)[i])
  {
    var means := GroupMeans(table, states);
    forall i | 0 <= i < |means|
      ensures BestEtf(means[i].Scale(BASIS_POINTS)) == BestEtf(means[i])
    {
      ScalingKeepsWinner(means[i], BASIS_POINTS);
    }
  }

  /** The rules the loop has built after the rows of `perf`, or the failure of
      the first row whose idxmax fails (all NaN). A later row for the same
      state overwrites an earlier one, as a dict assignment does. The ticker
      recorded is the winning label with `_ret` removed, which is the winner's
      own ticker (`RuleTickerRoundTrip`). */
  function AllocationRules(perf: seq<PerfRow>): Result<map<int, string>, Failure>
  {
    if perf == [] then Ok(map[])
    else
      match AllocationRules(perf[..|perf| - 1])
      case Err(f) => Err(f)
      case Ok(rules) =>
        var row := perf[|perf| - 1];
        match BestEtf(row)
        case None => Err(AllNaNRow(row.state))
        case Some(e) => Ok(rules[row.state := Ticker(e)])
  }

  /** `create_allocation_rules`: builds the state -> ticker dict row by row. */
  method CreateAllocationRules(perf: seq<PerfRow>) returns (r: Result<map<int, string>, Failure>)
    ensures r == AllocationRules(perf)
  {
    var rules: map<int, string> := map[];
    var i := 0;
    while i < |perf|
      invariant 0 <= i <= |perf|
      invariant AllocationRules(perf[..i]) == Ok(rules)
    {
      assert perf[..i + 1][..i] == perf[..i];
      var best := BestEtf(perf[i]);
      if best.None? {
        AllocationFailurePersists(perf, i + 1);
        return Err(AllNaNRow(perf[i].state));
      }
      RuleTickerRoundTrip(best.value);
      rules := rules[perf[i].state := RuleTicker(best.value)];
      i := i + 1;
    }
    assert perf[..i] == perf;
    return Ok(rules);
  }

  lemma {:induction false} AllocationFailurePersists(perf: seq<PerfRow>, n: nat)
    requires n <= |perf|
    requires AllocationRules(perf[..n]).Err?
    ensures AllocationRules(perf) == AllocationRules(perf[..n])
    decreases |perf| - n
  {
    if n < |perf| {
      assert perf[..n + 1][..n] == perf[..n];
      AllocationFailurePersists(perf, n + 1);
    } else {
      assert perf[..n] == perf;
    }
  }

  /** The rules are built exactly when every row has a present mean; otherwise
      the failure names the first row that is all NaN. */
  lemma {:induction false} AllocationRulesOutcome(perf: seq<PerfRow>)
    ensures AllocationRules(perf).Ok? <==> forall i :: 0 <= i < |perf| ==> BestEtf(perf[i]).Some?
    ensures AllocationRules(perf).Err? ==>
              exists i :: 0 <= i < |perf| && BestEtf(perf[i]).None?
                && AllocationRules(perf).error == AllNaNRow(perf[i].state)
                && forall j :: 0 <= j < i ==> BestEtf(perf[j]).Some?
  {
    if perf != [] {
      var front := perf[..|perf| - 1];
      var last := perf[|perf| - 1];
      AllocationRulesOutcome(front);
      assert forall i :: 0 <= i < |front| ==> front[i] == perf[i];
      match AllocationRules(front)
      case Err(f) =>
        assert AllocationRules(perf) == Err(f);
        var i :| 0 <= i < |front| && BestEtf(front[i]).None?
          && f == AllNaNRow(front[i].state)
          && forall j :: 0 <= j < i ==> BestEtf(front[j]).Some?;
        assert BestEtf(perf[i]).None?;
      case Ok(rules) =>
        if BestEtf(last).None? {
          assert AllocationRules(perf) == Err(AllNaNRow(last.state));
          assert BestEtf(perf[|front|]).None?;
        } else {
          assert AllocationRules(perf) == Ok(rules[last.state := Ticker(BestEtf(last).value)]);
        }
    }
  }

  /** Every row's state gets a rule, and only those states do. */
  lemma {:induction false} AllocationRulesKeys(perf: seq<PerfRow>)
    requires AllocationRules(perf).Ok?
    ensures forall k :: k in AllocationRules(perf).value <==>
              exists i :: 0 <= i < |perf| && perf[i].state == k
  {
    if perf != [] {
      var front := perf[..|perf| - 1];
      var last := perf[|perf| - 1];
      var rules := AllocationRules(front).value;
      var e := BestEtf(last).value;
      assert AllocationRules(perf).value == rules[last.state := Ticker(e)];
      AllocationRulesKeys(front);
      assert forall i :: 0 <= i < |front| ==> front[i] == perf[i];
      forall k | exists i :: 0 <= i < |perf| && perf[i].state == k
        ensures k in AllocationRules(perf).value
      {
        var i :| 0 <= i < |perf| && perf[i].state == k;
        if i < |front| {
          assert front[i].state == k;
        }
      }
    }
  }

  /** Every rule names one of the three tickers. */
  lemma {:induction false} AllocationRulesValues(perf: seq<PerfRow>)
    requires AllocationRules(perf).Ok?
    ensures forall k :: k in AllocationRules(perf).value ==>
              AllocationRules(perf).value[k] in {"TLT", "GLD", "SPY"}
  {
    if perf != [] {
      AllocationRulesValues(perf[..|perf| - 1]);
    }
  }

  /** When the rows have distinct states (as the regime-performance table
      does), the rule of each row's state is the ticker of that row's winner. */
  lemma {:induction false} AllocationRulesPickWinner(perf: seq<PerfRow>)
    requires forall i, j :: 0 <= i < j < |perf| ==> perf[i].state != perf[j].state
    requires AllocationRules(perf).Ok?
    ensures forall i :: 0 <= i < |perf| ==>
              && BestEtf(perf[i]).Some?
              && perf[i].state in AllocationRules(perf).value
              && AllocationRules(perf).value[perf[i].state] == Ticker(BestEtf(perf[i]).value)
  {
    if perf != [] {
      var front := perf[..|perf| - 1];
      AllocationRulesPickWinner(front);
      assert forall i :: 0 <= i < |front| ==> front[i] == perf[i];
    }
  }

  /** A rule's ticker with `_ret` appended names a return column. */
  lemma TickerSelectsColumn(ticker: string)
    requires ticker in {"TLT", "GLD", "SPY"}
    ensures ColumnNamed(ticker + RET_SUFFIX).Some?
  {
    if ticker == "TLT" {
      RuleTickerRoundTrip(TLT);
    } else if ticker == "GLD" {
      RuleTickerRoundTrip(GLD);
    } else {
      RuleTickerRoundTrip(SPY);
    }
  }

  // ---------------------------------------------------------------------------
  // backtest_strategy
  // ---------------------------------------------------------------------------

  /** `signals.shift(lag)`: the state observed `lag` days before `day`, or NaN
      when that day is outside the index. */
  function Signal(states: seq<int>, lag: int, day: int): Option<int>
  {
    if 0 <= day - lag < |states| then Some(states[day - lag]) else None
  }

  /** `signals_lagged.map(allocation_rules)`: the ticker for `day`, NaN when
      the signal is NaN or its state has no rule. */
  function Allocation(states: seq<int>, rules: map<int, string>, lag: int, day: int): Option<string>
  {
    match Signal(states, lag, day)
    case None => None
    case Some(s) => if s in rules then Some(rules[s]) else None
  }

  /** The lookup `returns.loc[day, f'{etf}_ret']` does not raise on `day`. */
  ghost predicate KnownColumn(states: seq<int>, rules: map<int, string>, lag: int, day: int)
  {
    Allocation(states, rules, lag, day).Some? ==>
      ColumnNamed(Allocation(states, rules, lag, day).value + RET_SUFFIX).Some?
  }

  /** The return the strategy earns on `day`: that of the ETF the rule for
      the state `lag` days earlier names. NaN when the day is outside the
      table, the shifted state is outside the index or has no rule, the
      ticker names no return column, or that return is NaN. */
  ghost function AllocatedReturn(table: seq<Day>, states: seq<int>, rules: map<int, string>, lag: int, day: int): Cell
  {
    if 0 <= day < |table| then
      match Allocation(states, rules, lag, day)
      case None => None
      case Some(ticker) =>
        match ColumnNamed(ticker + RET_SUFFIX)
        case None => None
        case Some(e) => table[day].Ret(e)
    else None
  }

  /** The first `n` entries of `strategy_returns` after the loop has run over
      `n` days, or the KeyError of the first day whose ticker has no column. */
  function Slots(table: seq<Day>, states: seq<int>, rules: map<int, string>, lag: int, n: nat)
    : (r: Result<seq<Cell>, Failure>)
    requires |states| == |table| && n <= |table|
    ensures r.Ok? <==> forall d :: 0 <= d < n ==> KnownColumn(states, rules, lag, d)
    ensures r.Ok? ==> (|r.value| == n &&
              forall d :: 0 <= d < n ==> r.value[d] == AllocatedReturn(table, states, rules, lag, d))
  {
    if n == 0 then Ok([])
    else
      match Slots(table, states, rules, lag, n - 1)
      case Err(f) => Err(f)
      case Ok(prefix) =>
        match Allocation(states, rules, lag, n - 1)
        case None => Ok(prefix + [None])
        case Some(ticker) =>
          match ColumnNamed(ticker + RET_SUFFIX)
          case None =>
            assert !KnownColumn(states, rules, lag, n - 1);
            Err(KeyError(ticker + RET_SUFFIX))
          case Some(e) => Ok(prefix + [table[n - 1].Ret(e)])
  }

  lemma {:induction false} SlotsFailurePersists(
    table: seq<Day>, states: seq<int>, rules: map<int, string>, lag: int, m: nat, n: nat)
    requires |states| == |table| && m <= n <= |table|
    requires Slots(table, states, rules, lag, m).Err?
    ensures Slots(table, states, rules, lag, n) == Slots(table, states, rules, lag, m)
  {
    if m < n {
      SlotsFailurePersists(table, states, rules, lag, m, n - 1);
    }
  }

  /** A day whose rule names no return column makes the whole fill fail with
      that label's KeyError. */
  lemma SlotsUnknownColumn(table: seq<Day>, states: seq<int>, rules: map<int, string>, lag: int, i: nat, n: nat)
    requires |states| == |table| && i < n <= |table|
    requires Slots(table, states, rules, lag, i).Ok?
    requires Allocation(states, rules, lag, i).Some?
    requires ColumnNamed(Allocation(states, rules, lag, i).value + RET_SUFFIX).None?
    ensures Slots(table, states, rules, lag, n) == Err(KeyError(Allocation(states, rules, lag, i).value + RET_SUFFIX))
  {
    SlotsFailurePersists(table, states, rules, lag, i + 1, n);
  }

  /** Extending the filled series by one known day appends that day's entry. */
  lemma SlotsStep(table: seq<Day>, states: seq<int>, rules: map<int, string>, lag: int, i: nat,
                  prefix: seq<Cell>, slot: Cell)
    requires |states| == |table| && i < |table|
    requires Slots(table, states, rules, lag, i) == Ok(prefix)
    requires KnownColumn(states, rules, lag, i)
    requires slot == AllocatedReturn(table, states, rules, lag, i)
    ensures Slots(table, states, rules, lag, i + 1) == Ok(prefix + [slot])
  {
  }

  /** One day of the strategy's return series. */
  datatype Obs = Obs(day: nat, ret: real)

  /** `dropna()` on a day-indexed series: the present entries with their day,
      in day order. */
  function DropNa(slots: seq<Cell>): (obs: seq<Obs>)
    ensures |obs| <= |slots|
    ensures forall j :: 0 <= j < |obs| ==> obs[j].day < |slots| && slots[obs[j].day] == Some(obs[j].ret)
    ensures forall i, j :: 0 <= i < j < |obs| ==> obs[i].day < obs[j].day
  {
    if slots == [] then []
    else
      var front := slots[..|slots| - 1];
      var rest := DropNa(front);
      var last := slots[|slots| - 1];
      assert forall d :: 0 <= d < |front| ==> front[d] == slots[d];
      if last.None? then rest
      else
        var obs := rest + [Obs(|slots| - 1, last.value)];
        assert forall j :: 0 <= j < |rest| ==> obs[j] == rest[j];
        obs
  }

  /** `dropna()` keeps every present entry. */
  lemma {:induction false} DropNaKeepsPresent(slots: seq<Cell>)
    ensures forall d :: 0 <= d < |slots| && slots[d].Some? ==>
              exists j :: 0 <= j < |DropNa(slots)| && DropNa(slots)[j].day == d
  {
    if slots != [] {
      var front := slots[..|slots| - 1];
      var rest := DropNa(front);
      var last := slots[|slots| - 1];
      DropNaKeepsPresent(front);
      var obs := DropNa(slots);
      assert obs == if last.None? then rest else rest + [Obs(|slots| - 1, last.value)];
      forall d | 0 <= d < |slots| && slots[d].Some?
        ensures exists j :: 0 <= j < |obs| && obs[j].day == d
      {
        if d < |front| {
          assert front[d] == slots[d];
          var j :| 0 <= j < |rest| && rest[j].day == d;
          assert obs[j] == rest[j];
        } else {
          assert obs[|rest|].day == d;
        }
      }
      assert obs == DropNa(slots);
    }
  }

  /** `backtest_strategy`'s result, as a function of its inputs. */
  function StrategyReturns(table: seq<Day>, states: seq<int>, rules: map<int, string>, lag: int)
    : Result<seq<Obs>, Failure>
    requires |states| == |table|
  {
    match Slots(table, states, rules, lag, |table|)
    case Err(f) => Err(f)
    case Ok(slots) => Ok(DropNa(slots))
  }

  /** `backtest_strategy`: fills a pre-allocated all-NaN series day by day with
      the return of the ETF the lagged regime points to, then drops NaN. */
  method BacktestStrategy(table: seq<Day>, states: seq<int>, rules: map<int, string>, lag: int)
    returns (r: Result<seq<Obs>, Failure>)
    requires |states| == |table|
    ensures r == StrategyReturns(table, states, rules, lag)
  {
    var n := |table|;
    var series := new Cell[n](_ => None);
    var i := 0;
    while i < n
      invariant 0 <= i <= n
      invariant Slots(table, states, rules, lag, i) == Ok(series[..i])
      invariant forall d :: i <= d < n ==> series[d].None?
    {
      ghost var prefix := series[..i];
      var allocation := Allocation(states, rules, lag, i);
      if allocation.Some? {
        var column := ColumnNamed(allocation.value + RET_SUFFIX);
        if column.None? {
          SlotsUnknownColumn(table, states, rules, lag, i, n);
          return Err(KeyError(allocation.value + RET_SUFFIX));
        }
        series[i] := table[i].Ret(column.value);
      }
      assert series[i] == AllocatedReturn(table, states, rules, lag, i);
      assert series[..i + 1] == prefix + [series[i]];
      SlotsStep(table, states, rules, lag, i, prefix, series[i]);
      i := i + 1;
    }
    assert series[..i] == series[..];
    return Ok(DropNa(series[..]));
  }

  /** The backtest fails (KeyError) exactly when some day's lagged state has a
      rule whose ticker names no return column. */
  lemma StrategyFailure(table: seq<Day>, states: seq<int>, rules: map<int, string>, lag: int)
    requires |states| == |table|
    ensures StrategyReturns(table, states, rules, lag).Err? <==>
            exists s :: 0 <= s < |states| && 0 <= s + lag < |table| && states[s] in rules
                        && ColumnNamed(rules[states[s]] + RET_SUFFIX).None?
  {
    var slots := Slots(table, states, rules, lag, |table|);
    assert StrategyReturns(table, states, rules, lag).Err? <==> slots.Err?;
    if slots.Err? {
      var d :| 0 <= d < |table| && !KnownColumn(states, rules, lag, d);
      UnknownColumnAt(states, rules, lag, d);
      var s := d - lag;
      assert 0 <= s < |states| && 0 <= s + lag < |table| && states[s] in rules
             && ColumnNamed(rules[states[s]] + RET_SUFFIX).None?;
    }
    forall s | 0 <= s < |states| && 0 <= s + lag < |table| && states[s] in rules
               && ColumnNamed(rules[states[s]] + RET_SUFFIX).None?
      ensures slots.Err?
    {
      UnknownColumnAt(states, rules, lag, s + lag);
    }
  }

  /** The lookup on `day` raises exactly when the state `lag` days earlier has
      a rule whose ticker names no column. */
  lemma UnknownColumnAt(states: seq<int>, rules: map<int, string>, lag: int, day: int)
    ensures !KnownColumn(states, rules, lag, day) <==>
            && 0 <= day - lag < |states|
            && states[day - lag] in rules
            && ColumnNamed(rules[states[day - lag]] + RET_SUFFIX).None?
  {
  }

  /** The strategy's series keeps day order, holds exactly the days on which
      the rule for the state `lag` days earlier earns a present return, and
      on each of them that return. */
  lemma StrategyDays(table: seq<Day>, states: seq<int>, rules: map<int, string>, lag: int)
    requires |states| == |table|
    requires StrategyReturns(table, states, rules, lag).Ok?
    ensures var obs := StrategyReturns(table, states, rules, lag).value;
      && (forall i, j :: 0 <= i < j < |obs| ==> obs[i].day < obs[j].day)
      && (forall j :: 0 <= j < |obs| ==> AllocatedReturn(table, states, rules, lag, obs[j].day) == Some(obs[j].ret))
      && (forall d :: AllocatedReturn(table, states, rules, lag, d).Some? ==>
            exists j :: 0 <= j < |obs| && obs[j].day == d)
  {
    var slots := Slots(table, states, rules, lag, |table|).value;
    var obs := DropNa(slots);
    assert StrategyReturns(table, states, rules, lag).value == obs;
    DropNaKeepsPresent(slots);
    forall d | AllocatedReturn(table, states, rules, lag, d).Some?
      ensures exists j :: 0 <= j < |obs| && obs[j].day == d
    {
      assert 0 <= d < |slots| && slots[d].Some?;
    }
  }

  /** Strictly increasing days within [lo, hi) number at most hi - lo. */
  lemma {:induction false} IncreasingDaysFit(obs: seq<Obs>, lo: int, hi: int)
    requires forall i, j :: 0 <= i < j < |obs| ==> obs[i].day < obs[j].day
    requires forall j :: 0 <= j < |obs| ==> lo <= obs[j].day < hi
    ensures |obs| <= if lo <= hi then hi - lo else 0
  {
    if obs != [] {
      IncreasingDaysFit(obs[1..], obs[0].day + 1, hi);
    }
  }

  /** With a non-negative lag the first `lag` days never appear, so the series
      has at most n - lag days. */
  lemma StrategySkipsLagDays(table: seq<Day>, states: seq<int>, rules: map<int, string>, lag: int)
    requires |states| == |table| && 0 <= lag
    requires StrategyReturns(table, states, rules, lag).Ok?
    ensures var obs := StrategyReturns(table, states, rules, lag).value;
      && (forall j :: 0 <= j < |obs| ==> lag <= obs[j].day)
      && |obs| <= if lag <= |table| then |table| - lag else 0
  {
    StrategyDays(table, states, rules, lag);
    var obs := StrategyReturns(table, states, rules, lag).value;
    IncreasingDaysFit(obs, lag, |table|);
  }

  /** Dropping NaN from a series that is NaN before `lag` and present from
      `lag` on keeps exactly the days lag, lag + 1, ... */
  lemma {:induction false} DropNaAfter(slots: seq<Cell>, lag: nat)
    requires lag <= |slots|
    requires forall d :: 0 <= d < |slots| ==> (slots[d].Some? <==> lag <= d)
    ensures |DropNa(slots)| == |slots| - lag
    ensures forall j :: 0 <= j < |DropNa(slots)| ==> DropNa(slots)[j].day == lag + j
  {
    var obs := DropNa(slots);
    if |slots| > lag {
      var front := slots[..|slots| - 1];
      forall d | 0 <= d < |front|
        ensures front[d].Some? <==> lag <= d
      {
        assert front[d] == slots[d];
      }
      DropNaAfter(front, lag);
      var rest := DropNa(front);
      assert slots[|slots| - 1].Some?;
      assert obs == rest + [Obs(|slots| - 1, slots[|slots| - 1].value)];
      forall j | 0 <= j < |obs|
        ensures obs[j].day == lag + j
      {
        if j < |rest| {
          assert obs[j] == rest[j];
        }
      }
    } else {
      IncreasingDaysFit(obs, lag, |slots|);
    }
  }

  /** When every state that is shifted into the window has a rule naming a
      ticker and no return is missing, exactly the days lag .. n - 1 are kept,
      so the series has n - lag days. */
  lemma StrategyFullCoverage(table: seq<Day>, states: seq<int>, rules: map<int, string>, lag: int)
    requires |states| == |table| && 0 <= lag <= |table|
    requires Complete(table)
    requires forall d :: 0 <= d < |table| - lag ==>
               states[d] in rules && rules[states[d]] in {"TLT", "GLD", "SPY"}
    ensures StrategyReturns(table, states, rules, lag).Ok?
    ensures var obs := StrategyReturns(table, states, rules, lag).value;
      |obs| == |table| - lag && forall j :: 0 <= j < |obs| ==> obs[j].day == lag + j
  {
    forall d | 0 <= d < |table|
      ensures KnownColumn(states, rules, lag, d)
    {
      if Allocation(states, rules, lag, d).Some? {
        TickerSelectsColumn(rules[states[d - lag]]);
      }
    }
    var slots := Slots(table, states, rules, lag, |table|).value;
    forall d | 0 <= d < |slots|
      ensures slots[d].Some? <==> lag <= d
    {
      assert slots[d] == AllocatedReturn(table, states, rules, lag, d);
      if lag <= d {
        TickerSelectsColumn(rules[states[d - lag]]);
      }
    }
    DropNaAfter(slots, lag);
  }

  // ---------------------------------------------------------------------------
  // create_benchmarks
  // ---------------------------------------------------------------------------

  /** The equal-weight return of one day: the mean of the three ETF returns,
      which lies between the smallest and the largest of them; NaN if any of
      them is NaN. */
  function EqualWeightDay(day: Day): (r: Cell)
    ensures r.Some? <==> forall e :: day.Ret(e).Some?
    ensures r.Some? ==>
              && day.tlt.Some? && day.gld.Some? && day.spy.Some?
              && r == Mean([day.tlt.value, day.gld.value, day.spy.value])
              && Min3(day.tlt.value, day.gld.value, day.spy.value) <= r.value
              && r.value <= Max3(day.tlt.value, day.gld.value, day.spy.value)
  {
    if day.tlt.Some? && day.gld.Some? && day.spy.Some? then
      SumOfThree(day.tlt.value, day.gld.value, day.spy.value);
      Some((day.tlt.value + day.gld.value + day.spy.value) / 3.0)
    else
      assert !day.Ret(TLT).Some? || !day.Ret(GLD).Some? || !day.Ret(SPY).Some?;
      None
  }

  lemma SumOfThree(a: real, b: real, c: real)
    ensures Sum([a, b, c]) == a + b + c
  {
    var s2, s1 := [b, c], [c];
    assert s1[1..] == [] && s2[1..] == s1 && [a, b, c][1..] == s2;
    assert Sum(s1) == c;
    assert Sum(s2) == b + c;
  }

  function Min3(a: real, b: real, c: real): (m: real)
    ensures m <= a && m <= b && m <= c && (m == a || m == b || m == c)
  {
    if a <= b && a <= c then a else if b <= c then b else c
  }

  function Max3(a: real, b: real, c: real): (m: real)
    ensures m >= a && m >= b && m >= c && (m == a || m == b || m == c)
  {
    if a >= b && a >= c then a else if b >= c then b else c
  }

  datatype Benchmarks = Benchmarks(equalWeight: seq<Cell>, buyAndHold: seq<Cell>)

  /** `create_benchmarks`: both series are on the table's day index; the
      equal-weight return of a day is present exactly when all three ETF
      returns are, and is then their mean, between the smallest and the
      largest of them;
      buy-and-hold is the SPY column unchanged. */
  function CreateBenchmarks(table: seq<Day>): (b: Benchmarks)
    ensures |b.equalWeight| == |table| && |b.buyAndHold| == |table|
    ensures forall i :: 0 <= i < |table| ==> b.buyAndHold[i] == table[i].spy
    ensures forall i :: 0 <= i < |table| ==>
              (b.equalWeight[i].Some? <==> forall e :: table[i].Ret(e).Some?)
    ensures forall i :: 0 <= i < |table| && b.equalWeight[i].Some? ==>
              && table[i].tlt.Some? && table[i].gld.Some? && table[i].spy.Some?
              && b.equalWeight[i] == Mean([table[i].tlt.value, table[i].gld.value, table[i].spy.value])
              && Min3(table[i].tlt.value, table[i].gld.value, table[i].spy.value) <= b.equalWeight[i].value
              && b.equalWeight[i].value <= Max3(table[i].tlt.value, table[i].gld.value, table[i].spy.value)
  {
    Benchmarks(
      seq(|table|, i requires 0 <= i < |table| => EqualWeightDay(table[i])),
      Column(table, SPY))
  }

  /** Three returns that cancel average to zero. */
  lemma EqualWeightExample()
    ensures CreateBenchmarks([Day(Some(0.03), Some(0.0), Some(-0.03))]).equalWeight == [Some(0.0)]
  {
    var b := CreateBenchmarks([Day(Some(0.03), Some(0.0), Some(-0.03))]);
    assert b.equalWeight[0] == EqualWeightDay(Day(Some(0.03), Some(0.0), Some(-0.03)));
  }

  // ---------------------------------------------------------------------------
  // run_full_backtest
  // ---------------------------------------------------------------------------

  /** The strategy's returns as a series the metrics accept. */
  function Values(obs: seq<Obs>): (cells: seq<Cell>)
    ensures |cells| == |obs|
    ensures forall j :: 0 <= j < |obs| ==> cells[j] == Some(obs[j].ret)
  {
    seq(|obs|, j requires 0 <= j < |obs| => Some(obs[j].ret))
  }

  const STRATEGY_ROW: string := "Regime Strategy"
  const EQUAL_WEIGHT_ROW: string := "Equal Weight"
  const BUY_AND_HOLD_ROW: string := "Buy & Hold SPY"

  /** The comparison table (one row per strategy) and the strategy's returns. */
  datatype Report = Report(comparison: seq<(string, PerformanceMetrics)>, strategy: seq<Obs>)

  /** The benchmarks in the order `create_benchmarks` inserts them. */
  function NamedBenchmarks(b: Benchmarks): seq<(string, seq<Cell>)>
  {
    [(EQUAL_WEIGHT_ROW, b.equalWeight), (BUY_AND_HOLD_ROW, b.buyAndHold)]
  }

  /** The rows of the named series whose metrics are `results`, or the first
      failure among them. */
  function Collect(named: seq<(string, seq<Cell>)>, results: seq<Result<PerformanceMetrics, Failure>>)
    : (r: Result<seq<(string, PerformanceMetrics)>, Failure>)
    requires |results| == |named|
    ensures r.Ok? <==> forall i :: 0 <= i < |named| ==> results[i].Ok?
    ensures r.Ok? ==> (|r.value| == |named| &&
              forall i :: 0 <= i < |named| ==> r.value[i] == (named[i].0, results[i].value))
  {
    if named == [] then Ok([])
    else
      var n := |named| - 1;
      match Collect(named[..n], results[..n])
      case Err(e) => Err(e)
      case Ok(rows) =>
        match results[n]
        case Err(e) => Err(e)
        case Ok(m) => Ok(rows + [(named[n].0, m)])
  }

  /** The metrics of each named series in turn, or the first failure. */
  function MetricsRows(named: seq<(string, seq<Cell>)>, f: Floating): (r: Result<seq<(string, PerformanceMetrics)>, Failure>)
    ensures r.Ok? <==> forall i :: 0 <= i < |named| ==> named[i].1 != []
    ensures r.Ok? ==> (|r.value| == |named| &&
              forall i :: 0 <= i < |named| ==>
                r.value[i].0 == named[i].0 && r.value[i].1.numObservations == |named[i].1|)
  {
    Collect(named, AllMetrics(named, f))
  }

  /** The metrics of every named series. */
  function AllMetrics(named: seq<(string, seq<Cell>)>, f: Floating): (results: seq<Result<PerformanceMetrics, Failure>>)
    ensures |results| == |named|
    ensures forall i :: 0 <= i < |named| ==> results[i] == CalculateMetrics(named[i].1, f)
  {
    seq(|named|, i requires 0 <= i < |named| => CalculateMetrics(named[i].1, f))
  }

  /** The loop over the benchmarks in `run_full_backtest`. */
  method BenchmarkMetrics(named: seq<(string, seq<Cell>)>, f: Floating) returns (r: Result<seq<(string, PerformanceMetrics)>, Failure>)
    ensures r == MetricsRows(named, f)
  {
    ghost var results := AllMetrics(named, f);
    var rows: seq<(string, PerformanceMetrics)> := [];
    var i := 0;
    while i < |named|
      invariant 0 <= i <= |named|
      invariant Collect(named[..i], results[..i]) == Ok(rows)
    {
      var m := CalculateMetrics(named[i].1, f);
      CollectStep(named, results, i, rows, m);
      if m.Err? {
        CollectFailurePersists(named, results, i + 1);
        return Err(m.error);
      }
      rows := rows + [(named[i].0, m.value)];
      i := i + 1;
    }
    assert named[..i] == named && results[..i] == results;
    return Ok(rows);
  }

  /** One more series: its row is added, or its failure ends the run. */
  lemma CollectStep(named: seq<(string, seq<Cell>)>, results: seq<Result<PerformanceMetrics, Failure>>, n: nat,
                    rows: seq<(string, PerformanceMetrics)>, m: Result<PerformanceMetrics, Failure>)
    requires |results| == |named| && n < |named|
    requires Collect(named[..n], results[..n]) == Ok(rows) && results[n] == m
    ensures Collect(named[..n + 1], results[..n + 1]) ==
            if m.Err? then Err(m.error) else Ok(rows + [(named[n].0, m.value)])
  {
    assert named[..n + 1][..n] == named[..n];
    assert results[..n + 1][..n] == results[..n];
  }

  lemma {:induction false} CollectFailurePersists(named: seq<(string, seq<Cell>)>, results: seq<Result<PerformanceMetrics, Failure>>, n: nat)
    requires |results| == |named| && n <= |named|
    requires Collect(named[..n], results[..n]).Err?
    ensures Collect(named, results) == Collect(named[..n], results[..n])
    decreases |named| - n
  {
    if n < |named| {
      assert named[..n + 1][..n] == named[..n];
      assert results[..n + 1][..n] == results[..n];
      CollectFailurePersists(named, results, n + 1);
    } else {
      assert named[..n] == named && results[..n] == results;
    }
  }

  /** The comparison table: the strategy's row first, then the benchmarks'. */
  function Assemble(strategy: seq<Obs>, strategyMetrics: Result<PerformanceMetrics, Failure>,
                    benchmarkRows: Result<seq<(string, PerformanceMetrics)>, Failure>): Result<Report, Failure>
  {
    match strategyMetrics
    case Err(e) => Err(e)
    case Ok(m) =>
      match benchmarkRows
      case Err(e) => Err(e)
      case Ok(rows) => Ok(Report([(STRATEGY_ROW, m)] + rows, strategy))
  }

  /** `run_full_backtest`'s result as a function of its inputs (execution lag 1). */
  function FullBacktest(table: seq<Day>, states: seq<int>, f: Floating): Result<Report, Failure>
    requires |states| == |table|
  {
    match AllocationRules(RegimePerformance(table, states))
    case Err(e) => Err(e)
    case Ok(rules) =>
      match StrategyReturns(table, states, rules, 1)
      case Err(e) => Err(e)
      case Ok(strategy) =>
        Assemble(strategy, CalculateMetrics(Values(strategy), f),
                 MetricsRows(NamedBenchmarks(CreateBenchmarks(table)), f))
  }

  /** `run_full_backtest` without its printing. */
  method RunFullBacktest(table: seq<Day>, states: seq<int>, f: Floating) returns (r: Result<Report, Failure>)
    requires |states| == |table|
    ensures r == FullBacktest(table, states, f)
  {
    var perf := RegimePerformance(table, states);
    var rules := CreateAllocationRules(perf);
    if rules.Err? {
      return Err(rules.error);
    }
    var strategy := BacktestStrategy(table, states, rules.value, 1);
    if strategy.Err? {
      return Err(strategy.error);
    }
    var strategyMetrics := CalculateMetrics(Values(strategy.value), f);
    var benchmarks := CreateBenchmarks(table);
    var benchmarkRows := BenchmarkMetrics(NamedBenchmarks(benchmarks), f);
    return Assemble(strategy.value, strategyMetrics, benchmarkRows);
  }

  /** On a table with no missing return and at least two days the whole run
      succeeds: every regime gets a rule, the strategy trades every day but the
      first, so its series has n - 1 days, and the comparison has the rows
      "Regime Strategy", "Equal Weight" and "Buy & Hold SPY" in that order,
      each counting the days of its own series. */
  lemma FullBacktestSucceeds(table: seq<Day>, states: seq<int>, f: Floating)
    requires |states| == |table| >= 2
    requires Complete(table)
    ensures FullBacktest(table, states, f).Ok?
    ensures var report := FullBacktest(table, states, f).value;
      && |report.strategy| == |table| - 1
      && |report.comparison| == 3
      && report.comparison[0].0 == STRATEGY_ROW
      && report.comparison[1].0 == EQUAL_WEIGHT_ROW
      && report.comparison[2].0 == BUY_AND_HOLD_ROW
      && report.comparison[0].1.numObservations == |table| - 1
      && report.comparison[1].1.numObservations == |table|
      && report.comparison[2].1.numObservations == |table|
  {
    CompleteTableRules(table, states);
    var rules := AllocationRules(RegimePerformance(table, states)).value;
    StrategyFullCoverage(table, states, rules, 1);
    var strategy := StrategyReturns(table, states, rules, 1).value;
    var named := NamedBenchmarks(CreateBenchmarks(table));
    assert named[0].1 != [] && named[1].1 != [];
    var m := CalculateMetrics(Values(strategy), f);
    var rows := MetricsRows(named, f);
    assert m.Ok? && m.value.numObservations == |table| - 1;
    assert FullBacktest(table, states, f) == Ok(Report([(STRATEGY_ROW, m.value)] + rows.value, strategy));
  }

  /** On a table with no missing return every regime row has a winner, so the
      rules are built and give every state a ticker. */
  lemma CompleteTableRules(table: seq<Day>, states: seq<int>)
    requires |states| == |table|
    requires Complete(table)
    ensures AllocationRules(RegimePerformance(table, states)).Ok?
    ensures var rules := AllocationRules(RegimePerformance(table, states)).value;
      forall d :: 0 <= d < |states| ==> states[d] in rules && rules[states[d]] in {"TLT", "GLD", "SPY"}
  {
    var perf := RegimePerformance(table, states);
    RegimePerformanceStates(table, states);
    forall i | 0 <= i < |perf|
      ensures BestEtf(perf[i]).Some?
    {
      var k := perf[i].state;
      assert k in states;
      var d :| 0 <= d < |states| && states[d] == k;
      assert table[d].Ret(TLT).Some?;
      RegimePerformanceCell(table, states, i, TLT);
      BestEtfIsFirstMax(perf[i]);
    }
    AllocationRulesOutcome(perf);
    AllocationRulesKeys(perf);
    AllocationRulesValues(perf);
    var rules := AllocationRules(perf).value;
    forall d | 0 <= d < |states|
      ensures states[d] in rules && rules[states[d]] in {"TLT", "GLD", "SPY"}
    {
      assert states[d] in states;
    }
  }
}
