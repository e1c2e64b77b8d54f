/** Exact-arithmetic versions of the pandas reductions the core relies on:
    sum, mean, sample variance (ddof = 1), dropping NaN, and grouping a
    column by the state label of each day (`groupby('state')`). */
module Statistics {
  import opened Basics

  // ---------------------------------------------------------------------------
  // Reductions over a series of present values
  // ---------------------------------------------------------------------------

  function Sum(s: seq<real>): real
  {
    if s == [] then 0.0 else s[0] + Sum(s[1..])
  }

  /** pandas `mean`: NaN (None) for an empty series. */
  function Mean(s: seq<real>): (m: Option<real>)
    ensures m.Some? <==> |s| > 0
  {
    if |s| == 0 then None else Some(Sum(s) / |s| as real)
  }

  /** Sum of squared deviations from `m`. */
  function SumSqDev(s: seq<real>, m: real): (r: real)
    ensures r >= 0.0
  {
    if s == [] then 0.0
    else
      var d := s[0] - m;
      assert d * d >= 0.0;
      d * d + SumSqDev(s[1..], m)
  }

  /** pandas `std` squared: the sample variance with ddof = 1; NaN (None) for
      fewer than two values. The standard deviation is its square root. */
  function SampleVariance(s: seq<real>): (v: Option<real>)
    ensures v.Some? <==> |s| >= 2
    ensures v.Some? ==> v.value >= 0.0
  {
    if |s| < 2 then None
    else Some(SumSqDev(s, Sum(s) / |s| as real) / (|s| - 1) as real)
  }

  lemma {:induction false} SumOfConstant(s: seq<real>, c: real)
    requires forall i :: 0 <= i < |s| ==> s[i] == c
    ensures Sum(s) == |s| as real * c
  {
    if s != [] {
      SumOfConstant(s[1..], c);
    }
  }

  lemma {:induction false} SumSqDevOfConstant(s: seq<real>, c: real)
    requires forall i :: 0 <= i < |s| ==> s[i] == c
    ensures SumSqDev(s, c) == 0.0
  {
    if s != [] {
      SumSqDevOfConstant(s[1..], c);
    }
  }

  /** A flat series has zero sample variance (so zero volatility). */
  lemma ConstantHasZeroVariance(s: seq<real>, c: real)
    requires |s| >= 2
    requires forall i :: 0 <= i < |s| ==> s[i] == c
    ensures SampleVariance(s) == Some(0.0)
  {
    SumOfConstant(s, c);
    var n := |s| as real;
    assert Sum(s) / n == c;
    SumSqDevOfConstant(s, c);
  }

  // ---------------------------------------------------------------------------
  // NaN handling
  // ---------------------------------------------------------------------------

  /** The present values of a column, in order (`dropna` on the values). */
  function Present(cells: seq<Option<real>>): (p: seq<real>)
  {
    if cells == [] then []
    else (if cells[0].Some? then [cells[0].value] else []) + Present(cells[1..])
  }

  lemma {:induction false} PresentOfComplete(cells: seq<Option<real>>)
    requires forall i :: 0 <= i < |cells| ==> cells[i].Some?
    ensures |Present(cells)| == |cells|
    ensures forall i :: 0 <= i < |cells| ==> Present(cells)[i] == cells[i].value
  {
    if cells != [] {
      PresentOfComplete(cells[1..]);
    }
  }

  // ---------------------------------------------------------------------------
  // Grouping by state label
  // ---------------------------------------------------------------------------

  /** Number of days labelled `k` (the size of group `k`). */
  function Count(states: seq<int>, k: int): nat
  {
    if states == [] then 0 else (if states[0] == k then 1 else 0) + Count(states[1..], k)
  }

  lemma {:induction false} CountPositive(states: seq<int>, k: int)
    ensures Count(states, k) > 0 <==> k in states
  {
    if states != [] {
      CountPositive(states[1..], k);
      assert k in states <==> states[0] == k || k in states[1..];
    }
  }

  /** The values of `xs` on the days labelled `k`, in day order: one group. */
  function Select<T>(states: seq<int>, xs: seq<T>, k: int): (g: seq<T>)
    requires |states| == |xs|
    ensures |g| == Count(states, k)
  {
    if states == [] then []
    else (if states[0] == k then [xs[0]] else []) + Select(states[1..], xs[1..], k)
  }

  ghost predicate Increasing(keys: seq<int>)
  {
    forall i, j :: 0 <= i < j < |keys| ==> keys[i] < keys[j]
  }

  /** Adds `x` to a key list unless it is already there, in front of the first
      larger key. */
  function InsertKey(x: int, keys: seq<int>): (r: seq<int>)
    ensures forall y :: y in r <==> y == x || y in keys
  {
    if keys == [] then [x]
    else if x < keys[0] then [x] + keys
    else if x == keys[0] then keys
    else
      var rest := InsertKey(x, keys[1..]);
      assert forall y :: y in keys <==> y == keys[0] || y in keys[1..];
      [keys[0]] + rest
  }

  /** Inserting into an increasing key list keeps it increasing. */
  lemma {:induction false} InsertKeyIncreasing(x: int, keys: seq<int>)
    requires Increasing(keys)
    ensures Increasing(InsertKey(x, keys))
  {
    if keys != [] && x > keys[0] {
      var tail := keys[1..];
      InsertKeyIncreasing(x, tail);
      InsertKeyAbove(x, tail, keys[0]);
      var rest := InsertKey(x, tail);
      var r := [keys[0]] + rest;
      assert r == InsertKey(x, keys);
      forall i, j | 0 <= i < j < |r|
        ensures r[i] < r[j]
      {
        if i == 0 {
          assert r[j] == rest[j - 1];
        } else {
          assert r[i] == rest[i - 1] && r[j] == rest[j - 1];
        }
      }
    }
  }

  /** A strict lower bound of `x` and of every key bounds the keys after inserting. */
  lemma {:induction false} InsertKeyAbove(x: int, keys: seq<int>, b: int)
    requires b < x
    requires forall j :: 0 <= j < |keys| ==> b < keys[j]
    ensures forall j :: 0 <= j < |InsertKey(x, keys)| ==> b < InsertKey(x, keys)[j]
  {
    if keys != [] && x > keys[0] {
      var rest := InsertKey(x, keys[1..]);
      InsertKeyAbove(x, keys[1..], b);
      assert InsertKey(x, keys) == [keys[0]] + rest;
    }
  }

  /** The group keys: every state that occurs, once, in ascending order
      (`groupby` sorts its keys). */
  function Distinct(states: seq<int>): (keys: seq<int>)
    ensures Increasing(keys)
    ensures forall y :: y in keys <==> y in states
  {
    if states == [] then []
    else
      var rest := Distinct(states[1..]);
      assert forall y :: y in states <==> y == states[0] || y in states[1..];
      InsertKeyIncreasing(states[0], rest);
      InsertKey(states[0], rest)
  }

  /** Total size of the groups named by `keys`. */
  function SumCounts(states: seq<int>, keys: seq<int>): nat
  {
    if keys == [] then 0 else Count(states, keys[0]) + SumCounts(states, keys[1..])
  }

  lemma {:induction false} SumCountsSplit(states: seq<int>, keys: seq<int>)
    requires states != []
    ensures SumCounts(states, keys) == Count(keys, states[0]) + SumCounts(states[1..], keys)
  {
    if keys != [] {
      SumCountsSplit(states, keys[1..]);
    }
  }

  lemma {:induction false} CountInIncreasing(keys: seq<int>, x: int)
    requires Increasing(keys) && x in keys
    ensures Count(keys, x) == 1
  {
    if keys[0] == x {
      assert x !in keys[1..];
      CountPositive(keys[1..], x);
    } else {
      CountInIncreasing(keys[1..], x);
    }
  }

  /** The groups partition the days: their sizes add up to the number of days. */
  lemma {:induction false} GroupSizesPartition(states: seq<int>, keys: seq<int>)
    requires Increasing(keys)
    requires forall x :: x in states ==> x in keys
    ensures SumCounts(states, keys) == |states|
  {
    if states == [] {
      SumCountsZero(keys);
    } else {
      SumCountsSplit(states, keys);
      CountInIncreasing(keys, states[0]);
      GroupSizesPartition(states[1..], keys);
    }
  }

  lemma {:induction false} SumCountsZero(keys: seq<int>)
    ensures SumCounts([], keys) == 0
  {
    if keys != [] {
      SumCountsZero(keys[1..]);
    }
  }

  /** A group has a present value exactly when some day of that group has one. */
  lemma {:induction false} GroupHasPresent(states: seq<int>, cells: seq<Option<real>>, k: int)
    requires |states| == |cells|
    ensures Present(Select(states, cells, k)) != [] <==>
            exists d :: 0 <= d < |states| && states[d] == k && cells[d].Some?
  {
    if states != [] {
      GroupHasPresent(states[1..], cells[1..], k);
      var head: seq<Option<real>> := if states[0] == k then [cells[0]] else [];
      PresentAppend(head, Select(states[1..], cells[1..], k));
      if exists d :: 0 <= d < |states| && states[d] == k && cells[d].Some? {
        var d :| 0 <= d < |states| && states[d] == k && cells[d].Some?;
        if d > 0 {
          assert states[1..][d - 1] == k && cells[1..][d - 1].Some?;
        }
      }
    }
  }

  lemma {:induction false} PresentAppend(a: seq<Option<real>>, b: seq<Option<real>>)
    ensures Present(a + b) == Present(a) + Present(b)
  {
    if a != [] {
      assert (a + b)[1..] == a[1..] + b;
      PresentAppend(a[1..], b);
    } else {
      assert a + b == b;
    }
  }
}
