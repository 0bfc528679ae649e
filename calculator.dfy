/**
 * The multi-indicator averaging calculator of src/core/calculator.py: parameter
 * validation, the sorted union of the indicators' dates, the accumulated
 * amounts, each indicator's period returns, their equal-weight mean per period,
 * the final metrics, and the InvestmentCalculator class whose calculate method
 * answers from its cache when it can.
 *
 * A Python dict is a sequence of (name, value) entries in insertion order with
 * no name twice. Dates are day numbers. An exception is the Failure of a Result
 * naming the Python exception class.
 */
module Averaging {
  import opened Wrappers
  import Calculadora
  import Evolution
  import Decimal

  /** A value of indicators_data: a DataFrame with its index and 'Close' column, or anything else. */
  datatype IndicatorData = Frame(index: seq<int>, close: seq<real>) | NotAFrame

  predicate DistinctNames<V>(d: seq<(string, V)>)
  {
    forall i, j :: 0 <= i < j < |d| ==> d[i].0 != d[j].0
  }

  /** Appending an entry under a new name keeps the names distinct. */
  lemma ExtendDistinct<V>(d: seq<(string, V)>, e: (string, V))
    requires DistinctNames(d) && e.0 !in Names(d)
    ensures Names(d + [e]) == Names(d) + [e.0]
    ensures DistinctNames(d + [e])
  {
    assert Names(d + [e]) == Names(d) + [e.0];
  }

  /** A dict from indicator name to its data. */
  type Dict = d: seq<(string, IndicatorData)> | DistinctNames(d) witness []

  function Names<V>(d: seq<(string, V)>): (ns: seq<string>)
    ensures |ns| == |d| && forall i :: 0 <= i < |d| ==> ns[i] == d[i].0
  {
    seq(|d|, i requires 0 <= i < |d| => d[i].0)
  }

  /** d[name], or None for the KeyError. */
  function Lookup(d: Dict, name: string): (r: Option<IndicatorData>)
    ensures r.Some? <==> name in Names(d)
    ensures r.Some? ==> exists i :: 0 <= i < |d| && d[i] == (name, r.value)
  {
    if d == [] then None
    else if d[0].0 == name then Some(d[0].1)
    else
      var rest: Dict := d[1..];
      assert Names(d) == [d[0].0] + Names(rest);
      var r := Lookup(rest, name);
      assert r.Some? ==> exists i :: 0 <= i < |rest| && rest[i] == (name, r.value);
      r
  }

  /** The exceptions the calculator can raise. */
  datatype ParamError = NegativeInitial | NegativeMonthly | NoIndicators | NoData | MissingIndicator(name: string)
  datatype CalcError = ValueError(cause: ParamError) | StopIteration | IndexError | ZeroDivisionError

  // ---------------------------------------------------------------------------
  // Validation
  // ---------------------------------------------------------------------------

  /** The first requested indicator, in list order, that has no data. */
  function FirstMissing(indicators: seq<string>, data: Dict): (r: Option<string>)
    ensures r.None? <==> forall n :: n in indicators ==> n in Names(data)
    ensures r.Some? ==>
      exists i :: (0 <= i < |indicators| && indicators[i] == r.value &&
        r.value !in Names(data) && forall j :: 0 <= j < i ==> indicators[j] in Names(data))
  {
    if indicators == [] then None
    else if indicators[0] !in Names(data) then Some(indicators[0])
    else
      var r := FirstMissing(indicators[1..], data);
      if r.Some? then
        var i :| 0 <= i < |indicators[1..]| && indicators[1..][i] == r.value &&
          r.value !in Names(data) && forall j :: 0 <= j < i ==> indicators[1..][j] in Names(data);
        assert indicators[i + 1] == r.value;
        r
      else
        r
  }

  /** _validate_parameters: None when the run may go ahead, otherwise the first check that fails. */
  function ValidateParameters(initial: real, monthly: real, indicators: seq<string>, data: Dict): (r: Option<ParamError>)
    ensures r.None? <==>
      initial >= 0.0 && monthly >= 0.0 && indicators != [] && data != [] &&
      forall n :: n in indicators ==> n in Names(data)
    ensures r == Some(NoIndicators) ==> initial >= 0.0 && monthly >= 0.0 && indicators == []
    ensures r.Some? && r.value.MissingIndicator? ==>
      initial >= 0.0 && monthly >= 0.0 && data != [] &&
      r.value.name in indicators && r.value.name !in Names(data)
  {
    if initial < 0.0 then Some(NegativeInitial)
    else if monthly < 0.0 then Some(NegativeMonthly)
    else if indicators == [] then Some(NoIndicators)
    else if data == [] then Some(NoData)
    else
      match FirstMissing(indicators, data)
      case Some(name) => Some(MissingIndicator(name))
      case None => None
  }

  // ---------------------------------------------------------------------------
  // Dates
  // ---------------------------------------------------------------------------

  /** Whether d is in the index of some DataFrame value of data. */
  ghost predicate InSomeIndex(data: Dict, d: int)
  {
    exists i :: 0 <= i < |data| && data[i].1.Frame? && d in data[i].1.index
  }

  /** The strictly increasing xs with d added when it is not already there. */
  function InsertSorted(xs: seq<int>, d: int): (r: seq<int>)
    requires Calculadora.StrictlyIncreasing(xs)
    ensures Calculadora.StrictlyIncreasing(r)
    ensures forall x :: x in r <==> x in xs || x == d
  {
    if xs == [] then [d]
    else if d < xs[0] then [d] + xs
    else if d == xs[0] then xs
    else
      var tail := xs[1..];
      assert Calculadora.StrictlyIncreasing(tail);
      var rest := InsertSorted(tail, d);
      assert forall x :: x in xs <==> x == xs[0] || x in tail;
      assert forall x :: x in tail ==> xs[0] < x;
      assert forall x :: x in rest ==> xs[0] < x;
      var r := [xs[0]] + rest;
      assert forall i, j :: 0 < i < j < |r| ==> r[i] == rest[i - 1] && r[j] == rest[j - 1];
      assert forall j :: 0 < j < |r| ==> r[j] in rest;
      r
  }

  /**
   * _get_dates: every date in the index of some DataFrame, once each, in
   * increasing order. The union is kept sorted as it grows.
   */
  method GetDates(data: Dict) returns (dates: seq<int>)
    ensures Calculadora.StrictlyIncreasing(dates)
    ensures forall d :: d in dates <==> InSomeIndex(data, d)
  {
    dates := [];
    for k := 0 to |data|
      invariant Calculadora.StrictlyIncreasing(dates)
      invariant forall d :: d in dates <==> exists i :: 0 <= i < k && data[i].1.Frame? && d in data[i].1.index
    {
      var value := data[k].1;
      if value.Frame? {
        for j := 0 to |value.index|
          invariant Calculadora.StrictlyIncreasing(dates)
          invariant forall d :: d in dates <==>
            (exists i :: 0 <= i < k && data[i].1.Frame? && d in data[i].1.index) || d in value.index[..j]
        {
          dates := InsertSorted(dates, value.index[j]);
          assert value.index[..j + 1] == value.index[..j] + [value.index[j]];
        }
        assert value.index[..|value.index|] == value.index;
      }
    }
  }

  // ---------------------------------------------------------------------------
  // Amounts
  // ---------------------------------------------------------------------------

  /** _calculate_amounts: at least one amount; each adds the monthly amount to the one before. */
  method CalculateAmounts(initial: real, monthly: real, numPeriods: int) returns (amounts: seq<real>)
    ensures |amounts| == (if numPeriods > 1 then numPeriods else 1)
    ensures forall k :: 0 <= k < |amounts| ==> amounts[k] == initial + k as real * monthly
  {
    amounts := [initial];
    var i := 1;
    while i < numPeriods
      invariant 1 <= i && |amounts| == i
      invariant i <= (if numPeriods > 1 then numPeriods else 1)
      invariant forall k :: 0 <= k < |amounts| ==> amounts[k] == initial + k as real * monthly
      decreases numPeriods - i
    {
      amounts := amounts + [amounts[|amounts| - 1] + monthly];
      i := i + 1;
    }
  }

  // ---------------------------------------------------------------------------
  // Returns
  // ---------------------------------------------------------------------------

  /**
   * Series.pct_change().fillna(0): 0 for the first close, then the change from
   * each close to the next relative to the earlier one. A change from a zero
   * close is 0 here.
   */
  function PctChange(close: seq<real>): (r: seq<real>)
    ensures |r| == |close|
  {
    seq(|close|, i requires 0 <= i < |close| =>
      if i == 0 || close[i - 1] == 0.0 then 0.0 else (close[i] - close[i - 1]) / close[i - 1])
  }

  /** Away from zero closes, the changes after the first are the period returns of the closes. */
  lemma PctChangeIsPeriodReturns(close: seq<real>)
    requires close != []
    requires forall i :: 0 <= i < |close| - 1 ==> close[i] != 0.0
    ensures PctChange(close)[0] == 0.0
    ensures Evolution.PeriodReturns(close, PctChange(close)[1..])
    ensures Evolution.Rebuild(close[0], PctChange(close)[1..]) == close
  {
    var r := PctChange(close)[1..];
    forall i | 0 <= i < |r|
      ensures close[i] != 0.0 && r[i] == (close[i + 1] - close[i]) / close[i]
    {
      assert r[i] == PctChange(close)[i + 1];
    }
    assert Evolution.PeriodReturns(close, r);
    Evolution.RebuildFromReturns(close, r);
  }

  /**
   * _calculate_returns: the returns of each requested DataFrame indicator, keyed
   * by name in first-request order; a name requested twice keeps one entry.
   */
  function Returns(indicators: seq<string>, data: Dict): (r: seq<(string, seq<real>)>)
    requires forall n :: n in indicators ==> n in Names(data)
    ensures DistinctNames(r)
    ensures forall n :: n in Names(r) <==> n in indicators && Lookup(data, n).value.Frame?
    ensures forall i :: 0 <= i < |r| ==> r[i].1 == PctChange(Lookup(data, r[i].0).value.close)
  {
    if indicators == [] then []
    else
      var prev := Returns(indicators[..|indicators| - 1], data);
      var name := indicators[|indicators| - 1];
      assert forall n :: n in indicators <==> n in indicators[..|indicators| - 1] || n == name;
      var value := Lookup(data, name).value;
      if value.Frame? && name !in Names(prev) then
        var entry := (name, PctChange(value.close));
        ExtendDistinct(prev, entry);
        prev + [entry]
      else
        prev
  }

  /** The first request for a name already requested does not move when more names are requested. */
  lemma PositionExtend(names: seq<string>, extra: string, n: string)
    requires n in names
    ensures Decimal.IndexOf(names + [extra], n) == Decimal.IndexOf(names, n) < |names|
  {
    var k :| 0 <= k < |names| && names[k] == n;
    var p, q := Decimal.IndexOf(names, n), Decimal.IndexOf(names + [extra], n);
    assert (names + [extra])[k] == n;
    assert p <= k && q <= k;
    assert (names + [extra])[p] == n;
    assert names[q] == (names + [extra])[q];
  }

  /** A name requested for the first time at the end is first requested there. */
  lemma PositionNew(names: seq<string>, n: string)
    requires n !in names
    ensures Decimal.IndexOf(names + [n], n) == |names|
  {
    assert (names + [n])[|names|] == n;
    forall j | 0 <= j < |names|
      ensures (names + [n])[j] != n
    {
      assert (names + [n])[j] == names[j];
    }
  }

  /** Entries ordered by first request stay so when a request is added. */
  lemma OrderExtend(d: seq<(string, seq<real>)>, names: seq<string>, extra: string)
    requires forall i :: 0 <= i < |d| ==> d[i].0 in names
    requires forall i, j :: 0 <= i < j < |d| ==> Decimal.IndexOf(names, d[i].0) < Decimal.IndexOf(names, d[j].0)
    ensures forall i :: 0 <= i < |d| ==> Decimal.IndexOf(names + [extra], d[i].0) == Decimal.IndexOf(names, d[i].0) < |names|
    ensures forall i, j :: 0 <= i < j < |d| ==> Decimal.IndexOf(names + [extra], d[i].0) < Decimal.IndexOf(names + [extra], d[j].0)
  {
    forall i | 0 <= i < |d|
      ensures Decimal.IndexOf(names + [extra], d[i].0) == Decimal.IndexOf(names, d[i].0) < |names|
    {
      PositionExtend(names, extra, d[i].0);
    }
  }

  /** Appending the entry of a name requested for the first time keeps the entries in first-request order. */
  lemma OrderAppend(d: seq<(string, seq<real>)>, names: seq<string>, e: (string, seq<real>))
    requires forall i :: 0 <= i < |d| ==> d[i].0 in names
    requires forall i, j :: 0 <= i < j < |d| ==> Decimal.IndexOf(names, d[i].0) < Decimal.IndexOf(names, d[j].0)
    requires e.0 !in names
    ensures var r := d + [e];
      forall i, j :: 0 <= i < j < |r| ==> Decimal.IndexOf(names + [e.0], r[i].0) < Decimal.IndexOf(names + [e.0], r[j].0)
  {
    OrderExtend(d, names, e.0);
    PositionNew(names, e.0);
    var r := d + [e];
    forall i, j | 0 <= i < j < |r|
      ensures Decimal.IndexOf(names + [e.0], r[i].0) < Decimal.IndexOf(names + [e.0], r[j].0)
    {
      assert r[i] == d[i];
      if j < |d| { assert r[j] == d[j]; }
    }
  }

  /**
   * The returns come in first-request order: an entry comes before another
   * exactly when its name was first requested earlier. This fixes which series
   * the total return takes its period count from.
   */
  lemma {:induction false} ReturnsInRequestOrder(indicators: seq<string>, data: Dict)
    requires forall n :: n in indicators ==> n in Names(data)
    ensures forall i, j :: 0 <= i < j < |Returns(indicators, data)| ==>
      Decimal.IndexOf(indicators, Returns(indicators, data)[i].0) < Decimal.IndexOf(indicators, Returns(indicators, data)[j].0)
  {
    if indicators != [] {
      var init, name := indicators[..|indicators| - 1], indicators[|indicators| - 1];
      assert indicators == init + [name];
      ReturnsInRequestOrder(init, data);
      var prev := Returns(init, data);
      forall i | 0 <= i < |prev|
        ensures prev[i].0 in init
      {
        assert Names(prev)[i] == prev[i].0;
      }
      var value := Lookup(data, name).value;
      if value.Frame? && name !in Names(prev) {
        assert name !in init;
        OrderAppend(prev, init, (name, PctChange(value.close)));
      } else {
        OrderExtend(prev, init, name);
      }
    }
  }

  function Values<V>(d: seq<(string, V)>): (vs: seq<V>)
    ensures |vs| == |d| && forall i :: 0 <= i < |d| ==> vs[i] == d[i].1
  {
    seq(|d|, i requires 0 <= i < |d| => d[i].1)
  }

  /** The returns of every series at period i. */
  function Column(rs: seq<seq<real>>, i: nat): (c: seq<real>)
    requires forall j :: 0 <= j < |rs| ==> i < |rs[j]|
    ensures |c| == |rs| && forall j :: 0 <= j < |rs| ==> c[j] == rs[j][i]
  {
    seq(|rs|, j requires 0 <= j < |rs| => rs[j][i])
  }

  /** t is the equal-weight mean of the series, period by period, over the first series' length. */
  ghost predicate IsMeanSeries(t: seq<real>, rs: seq<seq<real>>)
  {
    rs != [] && |t| == |rs[0]| &&
    (forall j :: 0 <= j < |rs| ==> |rs[j]| >= |t|) &&
    forall i :: 0 <= i < |t| ==> t[i] == Evolution.Sum(Column(rs, i)) / |rs| as real
  }

  /**
   * _calculate_total_return: the mean of the series at each period of the first
   * one; StopIteration when there is no series, IndexError when one is shorter
   * than the first.
   */
  method CalculateTotalReturn(series: seq<seq<real>>) returns (r: Result<seq<real>, CalcError>)
    ensures r.Failure? <==> series == [] || exists j :: 0 <= j < |series| && |series[j]| < |series[0]|
    ensures r.Failure? ==> r.error == if series == [] then StopIteration else IndexError
    ensures r.Success? ==> IsMeanSeries(r.value, series)
  {
    if series == [] {
      return Failure(StopIteration);
    }
    var n := |series[0]|;
    var total: seq<real> := [];
    for i := 0 to n
      invariant |total| == i
      invariant forall j :: 0 <= j < |series| ==> |series[j]| >= i
      invariant forall k :: 0 <= k < i ==> total[k] == Evolution.Sum(Column(series, k)) / |series| as real
    {
      var periodReturns: seq<real> := [];
      for j := 0 to |series|
        invariant |periodReturns| == j
        invariant forall m :: 0 <= m < j ==> |series[m]| > i && periodReturns[m] == series[m][i]
      {
        if |series[j]| <= i {
          return Failure(IndexError);
        }
        periodReturns := periodReturns + [series[j][i]];
      }
      assert periodReturns == Column(series, i);
      total := total + [Evolution.Sum(periodReturns) / |periodReturns| as real];
    }
    r := Success(total);
  }

  lemma {:induction false} SumBounds(xs: seq<real>, lo: real, hi: real)
    requires forall k :: 0 <= k < |xs| ==> lo <= xs[k] <= hi
    ensures |xs| as real * lo <= Evolution.Sum(xs) <= |xs| as real * hi
  {
    if xs != [] {
      SumBounds(xs[1..], lo, hi);
    }
  }

  /** Each period's total return lies between the lowest and the highest indicator return of that period. */
  lemma MeanWithinRange(t: seq<real>, rs: seq<seq<real>>, i: nat, lo: real, hi: real)
    requires IsMeanSeries(t, rs) && i < |t|
    requires forall j :: 0 <= j < |rs| ==> lo <= rs[j][i] <= hi
    ensures lo <= t[i] <= hi
  {
    var c := Column(rs, i);
    assert forall k :: 0 <= k < |c| ==> lo <= c[k] <= hi;
    SumBounds(c, lo, hi);
    var n, s := |rs| as real, Evolution.Sum(c);
    assert n == |c| as real && t[i] == s / n;
    DivBounds(s, n, lo, hi);
  }

  /** n * lo <= s <= n * hi puts s / n between lo and hi. */
  lemma DivBounds(s: real, n: real, lo: real, hi: real)
    requires n > 0.0 && n * lo <= s <= n * hi
    ensures lo <= s / n <= hi
  {
    var q := s / n;
    assert q * n == s;
    if q < lo {
      MulPositive(lo - q, n);
    }
    if q > hi {
      MulPositive(q - hi, n);
    }
  }

  lemma MulPositive(x: real, y: real)
    requires x > 0.0 && y > 0.0
    ensures x * y > 0.0
  {
  }

  // ---------------------------------------------------------------------------
  // Metrics
  // ---------------------------------------------------------------------------

  datatype Metrics = Metrics(finalAmount: real, totalReturnPct: real, avgMonthlyReturn: real, volatility: real)

  /**
   * _calculate_metrics: the last amount grown by the summed returns, its gain over
   * the first amount in percent, the per-period rate of that gain and the
   * annualised dispersion of the returns in percent.
   */
  function CalculateMetrics(amounts: seq<real>, totalReturn: seq<real>, power: (real, real) -> real, sqrt: real -> real)
    : (r: Result<Metrics, CalcError>)
    ensures r.Failure? <==> amounts == [] || amounts[0] == 0.0 || totalReturn == []
    ensures r.Failure? ==> r.error == if amounts == [] then IndexError else ZeroDivisionError
    ensures r.Success? ==>
      r.value.finalAmount == amounts[|amounts| - 1] * (1.0 + Evolution.Sum(totalReturn)) &&
      amounts[0] * (1.0 + r.value.totalReturnPct / 100.0) == r.value.finalAmount
  {
    if amounts == [] then Failure(IndexError)
    else
      var finalAmount := amounts[|amounts| - 1] * (1.0 + Evolution.Sum(totalReturn));
      if amounts[0] == 0.0 then Failure(ZeroDivisionError)
      else
        var totalReturnPct := (finalAmount / amounts[0] - 1.0) * 100.0;
        if totalReturn == [] then Failure(ZeroDivisionError)
        else
          var avgMonthlyReturn := power(1.0 + totalReturnPct / 100.0, 1.0 / |totalReturn| as real) - 1.0;
          var volatility := Evolution.Volatility(totalReturn, sqrt) * 100.0;
          Success(Metrics(finalAmount, totalReturnPct, avgMonthlyReturn, volatility))
  }

  // ---------------------------------------------------------------------------
  // The whole computation and the class
  // ---------------------------------------------------------------------------

  datatype Results = Results(
    dates: seq<int>,
    amounts: seq<real>,
    indicatorReturns: seq<(string, seq<real>)>,
    totalReturn: seq<real>,
    metrics: Metrics)

  /** What a successful _calculate_results returns for these inputs. */
  ghost predicate Computed(res: Results, initial: real, monthly: real, indicators: seq<string>, data: Dict,
                           power: (real, real) -> real, sqrt: real -> real)
  {
    Calculadora.StrictlyIncreasing(res.dates) &&
    (forall d :: d in res.dates <==> InSomeIndex(data, d)) &&
    |res.amounts| == (if |res.dates| > 1 then |res.dates| else 1) &&
    (forall k :: 0 <= k < |res.amounts| ==> res.amounts[k] == initial + k as real * monthly) &&
    (forall n :: n in indicators ==> n in Names(data)) &&
    res.indicatorReturns == Returns(indicators, data) &&
    IsMeanSeries(res.totalReturn, Values(res.indicatorReturns)) &&
    CalculateMetrics(res.amounts, res.totalReturn, power, sqrt) == Success(res.metrics)
  }

  /** Whether _calculate_results raises for these inputs, given that every requested indicator has data. */
  predicate ResultsFail(initial: real, indicators: seq<string>, data: Dict)
    requires forall n :: n in indicators ==> n in Names(data)
  {
    var rs := Values(Returns(indicators, data));
    rs == [] || (exists j :: 0 <= j < |rs| && |rs[j]| < |rs[0]|) || initial == 0.0 || |rs[0]| == 0
  }

  /** _calculate_results: dates, amounts, returns, total return and metrics, or the exception one of them raises. */
  method CalculateResults(initial: real, monthly: real, indicators: seq<string>, data: Dict,
                          power: (real, real) -> real, sqrt: real -> real)
    returns (r: Result<Results, CalcError>)
    requires forall n :: n in indicators ==> n in Names(data)
    ensures r.Failure? <==> ResultsFail(initial, indicators, data)
    ensures r.Failure? ==>
      var rs := Values(Returns(indicators, data));
      r.error == if rs == [] then StopIteration
                 else if exists j :: 0 <= j < |rs| && |rs[j]| < |rs[0]| then IndexError
                 else ZeroDivisionError
    ensures r.Success? ==> Computed(r.value, initial, monthly, indicators, data, power, sqrt)
  {
    var dates := GetDates(data);
    var amounts := CalculateAmounts(initial, monthly, |dates|);
    var indicatorReturns := Returns(indicators, data);
    var total := CalculateTotalReturn(Values(indicatorReturns));
    if total.Failure? {
      return Failure(total.error);
    }
    var totalReturn := total.value;
    var metrics := CalculateMetrics(amounts, totalReturn, power, sqrt);
    if metrics.Failure? {
      return Failure(metrics.error);
    }
    r := Success(Results(dates, amounts, indicatorReturns, totalReturn, metrics.value));
  }

  /** The tuple the cache key is hashed from: the amounts, the requested names and the data's names, not its values. */
  datatype CacheKey = CacheKey(initial: real, monthly: real, indicators: seq<string>, dataNames: seq<string>)

  function GenerateCacheKey(initial: real, monthly: real, indicators: seq<string>, data: Dict): (k: CacheKey)
    ensures k.initial == initial && k.monthly == monthly
    ensures k.dataNames == Names(data) && k.indicators == indicators
  {
    CacheKey(initial, monthly, indicators, Names(data))
  }

  /**
   * Two requests share a cache key exactly when they agree on both amounts, on the
   * requested names in order and on the data's names in order.
   */
  lemma CacheKeyUnique(initial1: real, monthly1: real, indicators1: seq<string>, d1: Dict,
                       initial2: real, monthly2: real, indicators2: seq<string>, d2: Dict)
    ensures GenerateCacheKey(initial1, monthly1, indicators1, d1) == GenerateCacheKey(initial2, monthly2, indicators2, d2)
        <==> initial1 == initial2 && monthly1 == monthly2 && indicators1 == indicators2 &&
             |d1| == |d2| && forall i :: 0 <= i < |d1| ==> d1[i].0 == d2[i].0
  {
    if |d1| == |d2| && forall i :: 0 <= i < |d1| ==> d1[i].0 == d2[i].0 {
      assert Names(d1) == Names(d2);
    }
  }

  /** Two data dicts with the same names in the same order share every cache key, whatever their values. */
  lemma CacheKeyIgnoresValues(initial: real, monthly: real, indicators: seq<string>, d1: Dict, d2: Dict)
    requires |d1| == |d2| && forall i :: 0 <= i < |d1| ==> d1[i].0 == d2[i].0
    ensures GenerateCacheKey(initial, monthly, indicators, d1) == GenerateCacheKey(initial, monthly, indicators, d2)
  {
    assert Names(d1) == Names(d2);
  }

  class InvestmentCalculator {
    /** Whether the calculator was given a cache. */
    const cacheEnabled: bool
    /** The cached results by key. */
    var cache: map<CacheKey, Results>

    constructor (cacheEnabled: bool)
      ensures this.cacheEnabled == cacheEnabled && cache == map[]
    {
      this.cacheEnabled := cacheEnabled;
      cache := map[];
    }

    /**
     * calculate: a cached result for the key is returned as it is, without
     * validating or computing; otherwise the parameters are validated, the
     * results computed and, when there is a cache, stored under the key.
     */
    method Calculate(initial: real, monthly: real, indicators: seq<string>, data: Dict,
                     power: (real, real) -> real, sqrt: real -> real)
      returns (r: Result<Results, CalcError>)
      modifies this
      ensures var key := GenerateCacheKey(initial, monthly, indicators, data);
        cacheEnabled && key in old(cache) ==>
          r == Success(old(cache)[key]) && cache == old(cache)
      ensures var key := GenerateCacheKey(initial, monthly, indicators, data);
        !(cacheEnabled && key in old(cache)) ==>
          (ValidateParameters(initial, monthly, indicators, data).Some? ==>
            r == Failure(ValueError(ValidateParameters(initial, monthly, indicators, data).value))) &&
          (ValidateParameters(initial, monthly, indicators, data).None? ==>
            (r.Failure? <==> ResultsFail(initial, indicators, data))) &&
          (r.Success? ==>
            Computed(r.value, initial, monthly, indicators, data, power, sqrt) &&
            cache == if cacheEnabled then old(cache)[key := r.value] else old(cache)) &&
          (r.Failure? ==> cache == old(cache))
    {
      var key := GenerateCacheKey(initial, monthly, indicators, data);
      if cacheEnabled && key in cache {
        return Success(cache[key]);
      }
      var invalid := ValidateParameters(initial, monthly, indicators, data);
      if invalid.Some? {
        return Failure(ValueError(invalid.value));
      }
      r := CalculateResults(initial, monthly, indicators, data, power, sqrt);
      if r.Success? && cacheEnabled {
        cache := cache[key := r.value];
      }
    }
  }
}
