/** The ETF return table the backtester works on: one row per trading day with
    a return column per ETF, labelled `<ticker>_ret`, in the fixed column order
    TLT, GLD, SPY. A missing (NaN) return is `None`. */
module Market {
  import opened Basics

  datatype Etf = TLT | GLD | SPY

  /** The column order of the regime-performance table, which decides ties. */
  const COLUMNS: seq<Etf> := [TLT, GLD, SPY]

  function Ticker(e: Etf): string
  {
    match e
    case TLT => "TLT"
    case GLD => "GLD"
    case SPY => "SPY"
  }

  const RET_SUFFIX: string := "_ret"

  /** The label of an ETF's return column. */
  function ColumnName(e: Etf): string
  {
    Ticker(e) + RET_SUFFIX
  }

  /** The return column carrying a label, if the table has one (`.loc[idx, name]`
      raises KeyError otherwise). */
  function ColumnNamed(name: string): (r: Option<Etf>)
    ensures r.Some? ==> ColumnName(r.value) == name
  {
    if name == ColumnName(TLT) then Some(TLT)
    else if name == ColumnName(GLD) then Some(GLD)
    else if name == ColumnName(SPY) then Some(SPY)
    else None
  }

  lemma ColumnNamedRecognises(e: Etf)
    ensures ColumnNamed(ColumnName(e)) == Some(e)
  {
    // the three labels already differ in their first letter
    assert ColumnName(TLT)[0] == 'T' && ColumnName(GLD)[0] == 'G' && ColumnName(SPY)[0] == 'S';
  }

  /** Python's `str.replace(pat, rep)`: every non-overlapping occurrence of `pat`,
      scanning left to right, is replaced by `rep`. */
  function ReplaceAll(s: string, pat: string, rep: string): string
    requires pat != []
    decreases |s|
  {
    if |s| < |pat| then s
    else if s[..|pat|] == pat then rep + ReplaceAll(s[|pat|..], pat, rep)
    else [s[0]] + ReplaceAll(s[1..], pat, rep)
  }

  /** Stripping `_ret` from a label whose stem has no underscore gives the stem back. */
  lemma {:induction false} StripSuffix(stem: string)
    requires '_' !in stem
    ensures ReplaceAll(stem + RET_SUFFIX, RET_SUFFIX, "") == stem
  {
    var s := stem + RET_SUFFIX;
    if stem == [] {
      assert s[..4] == RET_SUFFIX;
      assert s[4..] == [];
    } else {
      assert s[0] == stem[0] != '_' == RET_SUFFIX[0];
      assert s[..4] != RET_SUFFIX;
      assert s[1..] == stem[1..] + RET_SUFFIX;
      StripSuffix(stem[1..]);
    }
  }

  /** The ticker the allocation rule records for the winning column
      (`idxmax().replace('_ret', '')`). */
  function RuleTicker(e: Etf): string
  {
    ReplaceAll(ColumnName(e), RET_SUFFIX, "")
  }

  /** Round trip of names: the ticker stripped from a column label, with `_ret`
      appended again, selects the very column it was stripped from, and it is
      one of the three tickers. */
  lemma RuleTickerRoundTrip(e: Etf)
    ensures RuleTicker(e) == Ticker(e)
    ensures RuleTicker(e) in {"TLT", "GLD", "SPY"}
    ensures ColumnNamed(RuleTicker(e) + RET_SUFFIX) == Some(e)
  {
    StripSuffix(Ticker(e));
  }

  type Cell = Option<real>

  /** One trading day of the return table. */
  datatype Day = Day(tlt: Cell, gld: Cell, spy: Cell)
  {
    function Ret(e: Etf): Cell
    {
      match e
      case TLT => tlt
      case GLD => gld
      case SPY => spy
    }
  }

  /** One return column of the table, on the table's day index. */
  function Column(table: seq<Day>, e: Etf): (col: seq<Cell>)
    ensures |col| == |table|
    ensures forall i :: 0 <= i < |table| ==> col[i] == table[i].Ret(e)
  {
    seq(|table|, i requires 0 <= i < |table| => table[i].Ret(e))
  }

  /** No NaN anywhere in the table (what `dropna` in the data loader leaves). */
  ghost predicate Complete(table: seq<Day>)
  {
    forall i, e :: 0 <= i < |table| ==> table[i].Ret(e).Some?
  }

  /** The ways the backtest can fail, with the exception pandas raises. */
  datatype Failure =
    | AllNaNRow(state: int)     // idxmax over a regime row with no present mean
    | KeyError(column: string)  // a rule names a ticker without a return column
    | ZeroDivision              // metrics of an empty series: 1 / n_years
}
