/**
 * The capital evolution engine (calcular_rentabilidade in calculadora.py):
 * conversion of the three money inputs, choice of the first simulated month,
 * the month-end timeline, the blended return of the indicators and the ledger
 * that a loop fills in row by row.
 *
 * Dates are day numbers. The month ends pandas would generate are the entries of
 * a `calendar` that the caller supplies, so the timeline is the part of that
 * calendar that falls between the start and the end date.
 */
module Calculadora {
  import opened Wrappers
  import opened Decimal

  /** How far back the start falls when no indicator has any data: five years of 365 days. */
  const LookbackDays: int := 5 * 365

  /** A value as the engine receives it: a number, a string, or anything else (such as None). */
  datatype Cell = Num(x: real) | Text(s: string) | Null

  /** float(x) on a money input; None stands for the ValueError or TypeError it raises. */
  function ToFloat(c: Cell): Option<real>
  {
    match c
    case Num(x) => Some(x)
    case Text(s) => ParseNumber(s)
    case Null => None
  }

  /**
   * The number an indicator sample contributes: a string is converted after its
   * commas become points. None when the conversion fails or the value cannot be
   * divided (TypeError); the blend then skips the sample.
   */
  function SampleValue(c: Cell): Option<real>
  {
    match c
    case Num(x) => Some(x)
    case Text(s) => ParseNumber(NormalizeComma(s))
    case Null => None
  }

  /** One row of an indicator's frame: its date ('index') and its value. */
  datatype Sample = Sample(date: int, value: Cell)

  /**
   * One indicator's frame: its rows in frame order, and whether it has a value
   * column ('valor' for central-bank rates, 'retorno' for market returns; the two
   * are read the same way). A frame without an 'index' column has no samples.
   */
  datatype Indicator = Indicator(samples: seq<Sample>, hasValueColumn: bool)

  predicate StrictlyIncreasing(s: seq<int>) {
    forall i, j :: 0 <= i < j < |s| ==> s[i] < s[j]
  }

  predicate DatesNonDecreasing(samples: seq<Sample>) {
    forall i, j :: 0 <= i < j < |samples| ==> samples[i].date <= samples[j].date
  }

  // ---------------------------------------------------------------------------
  // Start of the simulation
  // ---------------------------------------------------------------------------

  /** The first date of every indicator that has data, in iteration order. */
  function FirstDates(inds: seq<Indicator>): (ds: seq<int>)
    ensures forall d :: d in ds <==>
      exists k :: 0 <= k < |inds| && inds[k].samples != [] && inds[k].samples[0].date == d
  {
    if inds == [] then []
    else
      var last := inds[|inds| - 1];
      var ds := FirstDates(inds[..|inds| - 1]) + (if last.samples != [] then [last.samples[0].date] else []);
      assert forall k :: 0 <= k < |inds| - 1 ==> inds[..|inds| - 1][k] == inds[k];
      ds
  }

  /** min() of a non-empty list. */
  function MinOf(ds: seq<int>): (m: int)
    requires ds != []
    ensures m in ds && forall d :: d in ds ==> m <= d
  {
    if |ds| == 1 then ds[0]
    else
      var rest := MinOf(ds[1..]);
      assert forall d :: d in ds ==> d == ds[0] || d in ds[1..];
      if ds[0] <= rest then ds[0] else rest
  }

  /** The first simulated date: the earliest first date of the indicators, or the lookback fallback. */
  function SimulationStart(inds: seq<Indicator>, dataFim: int): int
  {
    var ds := FirstDates(inds);
    if ds == [] then dataFim - LookbackDays else MinOf(ds)
  }

  /**
   * The simulation starts at the smallest first date among the indicators that
   * have data (it is one of them), and LookbackDays before the end when none has.
   */
  lemma SimulationStartChoice(inds: seq<Indicator>, dataFim: int)
    ensures (forall k :: 0 <= k < |inds| ==> inds[k].samples == []) ==>
              SimulationStart(inds, dataFim) == dataFim - LookbackDays
    ensures forall k :: 0 <= k < |inds| && inds[k].samples != [] ==>
              SimulationStart(inds, dataFim) <= inds[k].samples[0].date
    ensures (exists k :: 0 <= k < |inds| && inds[k].samples != []) ==>
              exists k :: 0 <= k < |inds| && inds[k].samples != [] &&
                SimulationStart(inds, dataFim) == inds[k].samples[0].date
  {
    var ds := FirstDates(inds);
    forall k | 0 <= k < |inds| && inds[k].samples != []
      ensures ds != [] && SimulationStart(inds, dataFim) <= inds[k].samples[0].date
    {
      assert inds[k].samples[0].date in ds;
    }
    if ds != [] {
      var m := MinOf(ds);
      var k :| 0 <= k < |inds| && inds[k].samples != [] && inds[k].samples[0].date == m;
      assert SimulationStart(inds, dataFim) == inds[k].samples[0].date;
    }
  }

  /** The loop that collects the first dates, followed by min() or the fallback. */
  method StartDate(inds: seq<Indicator>, dataFim: int) returns (dataInicio: int)
    ensures dataInicio == SimulationStart(inds, dataFim)
  {
    var datasInicio: seq<int> := [];
    for k := 0 to |inds|
      invariant datasInicio == FirstDates(inds[..k])
    {
      if inds[k].samples != [] {
        datasInicio := datasInicio + [inds[k].samples[0].date];
      }
      assert inds[..k + 1][..k] == inds[..k];
    }
    assert inds[..|inds|] == inds;
    if datasInicio == [] {
      dataInicio := dataFim - LookbackDays;
    } else {
      dataInicio := MinOf(datasInicio);
    }
  }

  /** The month ends of `calendar` that fall within [start, end], in calendar order. */
  function Timeline(calendar: seq<int>, start: int, end: int): (r: seq<int>)
    ensures forall d :: d in r <==> d in calendar && start <= d <= end
    ensures StrictlyIncreasing(calendar) ==> StrictlyIncreasing(r)
  {
    if calendar == [] then []
    else
      var rest := Timeline(calendar[1..], start, end);
      var head := if start <= calendar[0] <= end then [calendar[0]] else [];
      assert StrictlyIncreasing(calendar) ==> StrictlyIncreasing(head + rest) by {
        if StrictlyIncreasing(calendar) {
          forall d | d in rest ensures calendar[0] < d {
            var j :| 0 <= j < |calendar[1..]| && calendar[1..][j] == d;
            assert calendar[j + 1] == d;
          }
          forall i, j | 0 <= i < j < |head + rest| ensures (head + rest)[i] < (head + rest)[j] {
            if i < |head| {
              assert (head + rest)[j] in rest;
            } else {
              assert (head + rest)[i] == rest[i - |head|];
            }
          }
        }
      }
      head + rest
  }

  // ---------------------------------------------------------------------------
  // The blended return of one month
  // ---------------------------------------------------------------------------

  /** The position of the last sample, in frame order, dated at or before t. */
  function LastAtOrBefore(samples: seq<Sample>, t: int): (r: Option<nat>)
    ensures r.Some? ==> r.value < |samples| && samples[r.value].date <= t &&
                        forall j :: r.value < j < |samples| ==> samples[j].date > t
    ensures r.None? <==> forall j :: 0 <= j < |samples| ==> samples[j].date > t
  {
    if samples == [] then None
    else if samples[|samples| - 1].date <= t then Some(|samples| - 1)
    else LastAtOrBefore(samples[..|samples| - 1], t)
  }

  /** When the samples are in date order, the chosen one is the latest known at t. */
  lemma LastAtOrBeforeIsLatest(samples: seq<Sample>, t: int)
    requires DatesNonDecreasing(samples)
    ensures LastAtOrBefore(samples, t).Some? ==>
      forall j :: 0 <= j < |samples| && samples[j].date <= t ==>
        samples[j].date <= samples[LastAtOrBefore(samples, t).value].date
  {
  }

  /** The value an indicator offers for month t, or None when it contributes nothing. */
  function Resolve(ind: Indicator, t: int): (r: Option<real>)
    ensures r.Some? ==>
      ind.hasValueColumn &&
      exists i :: 0 <= i < |ind.samples| && ind.samples[i].date <= t &&
        SampleValue(ind.samples[i].value) == r &&
        forall j :: i < j < |ind.samples| ==> ind.samples[j].date > t
    ensures ind.hasValueColumn && LastAtOrBefore(ind.samples, t).Some? ==>
      r == SampleValue(ind.samples[LastAtOrBefore(ind.samples, t).value].value)
    ensures !ind.hasValueColumn || LastAtOrBefore(ind.samples, t).None? ==> r.None?
  {
    match LastAtOrBefore(ind.samples, t)
    case None => None
    case Some(i) => if ind.hasValueColumn then SampleValue(ind.samples[i].value) else None
  }

  /** An indicator with no sample at or before t (in particular one with no data) contributes nothing. */
  lemma NoPastSampleNoValue(ind: Indicator, t: int)
    requires forall j :: 0 <= j < |ind.samples| ==> ind.samples[j].date > t
    ensures Resolve(ind, t) == None
  {
  }

  /** What one indicator adds to the month's return: its value divided by n, or nothing. */
  function Share(ind: Indicator, t: int, n: nat): real
    requires n > 0
  {
    match Resolve(ind, t)
    case Some(v) => v / n as real
    case None => 0.0
  }

  /** The running sum of the shares of `inds`, in iteration order. */
  function Accumulated(inds: seq<Indicator>, t: int, n: nat): real
    requires n > 0
  {
    if inds == [] then 0.0
    else Accumulated(inds[..|inds| - 1], t, n) + Share(inds[|inds| - 1], t, n)
  }

  /** The month's blended return, in percent: every value divided by the number of configured indicators. */
  function Blend(inds: seq<Indicator>, t: int): real
  {
    if inds == [] then 0.0 else Accumulated(inds, t, |inds|)
  }

  /** The sum of the values that resolved for month t. */
  function ResolvedSum(inds: seq<Indicator>, t: int): real
  {
    if inds == [] then 0.0
    else
      ResolvedSum(inds[..|inds| - 1], t) +
      (match Resolve(inds[|inds| - 1], t) case Some(v) => v case None => 0.0)
  }

  /** How many indicators resolved a value for month t. */
  function ResolvedCount(inds: seq<Indicator>, t: int): (c: nat)
    ensures c <= |inds|
  {
    if inds == [] then 0
    else ResolvedCount(inds[..|inds| - 1], t) + (if Resolve(inds[|inds| - 1], t).Some? then 1 else 0)
  }

  lemma {:induction false} AccumulatedIsScaledSum(inds: seq<Indicator>, t: int, n: nat)
    requires n > 0
    ensures Accumulated(inds, t, n) == ResolvedSum(inds, t) / n as real
  {
    if inds != [] {
      var init, last := inds[..|inds| - 1], inds[|inds| - 1];
      AccumulatedIsScaledSum(init, t, n);
      var v := match Resolve(last, t) case Some(v) => v case None => 0.0;
      assert Share(last, t, n) == v / n as real;
      assert ResolvedSum(inds, t) == ResolvedSum(init, t) + v;
      SplitQuotient(ResolvedSum(init, t), v, n as real);
    }
  }

  /** Dividing a sum divides each term. */
  lemma SplitQuotient(a: real, b: real, n: real)
    requires n != 0.0
    ensures (a + b) / n == a / n + b / n
  {
  }

  lemma {:induction false} UnresolvedAddNothing(inds: seq<Indicator>, t: int)
    requires ResolvedCount(inds, t) == 0
    ensures ResolvedSum(inds, t) == 0.0
  {
    if inds != [] {
      UnresolvedAddNothing(inds[..|inds| - 1], t);
    }
  }

  /**
   * The blend is the sum of the resolved values over the number of CONFIGURED
   * indicators: indicators without a value count in the denominator, and a
   * month where none resolves has a zero return.
   */
  lemma BlendIsDilutedMean(inds: seq<Indicator>, t: int)
    ensures inds != [] ==> Blend(inds, t) == ResolvedSum(inds, t) / |inds| as real
    ensures ResolvedCount(inds, t) == 0 ==> Blend(inds, t) == 0.0
  {
    if inds != [] {
      AccumulatedIsScaledSum(inds, t, |inds|);
    }
    if ResolvedCount(inds, t) == 0 {
      UnresolvedAddNothing(inds, t);
    }
  }

  /**
   * When some indicators do not resolve and the resolved ones sum to a gain, the
   * blend is strictly below the mean of the resolved values alone.
   */
  lemma BlendDilution(inds: seq<Indicator>, t: int)
    requires 0 < ResolvedCount(inds, t) < |inds|
    requires ResolvedSum(inds, t) > 0.0
    ensures Blend(inds, t) < ResolvedSum(inds, t) / ResolvedCount(inds, t) as real
  {
    BlendIsDilutedMean(inds, t);
    SmallerShare(ResolvedSum(inds, t), ResolvedCount(inds, t) as real, |inds| as real);
  }

  /** A positive amount shared among more parts gives each part less. */
  lemma SmallerShare(s: real, c: real, n: real)
    requires 0.0 < c < n && s > 0.0
    ensures s / n < s / c
  {
    var a, b := s / n, s / c;
    assert a * n == s;
    assert b * c == s;
    assert b > 0.0;
    assert b * (n - c) > 0.0 by { PositiveProduct(b, n - c); }
    assert (b - a) * n == b * (n - c);
    if b - a <= 0.0 {
      PositiveProduct(a - b, n);
      assert false;
    }
  }

  lemma PositiveProduct(x: real, y: real)
    requires x >= 0.0 && y > 0.0
    ensures x * y >= 0.0
    ensures x > 0.0 ==> x * y > 0.0
  {
  }

  /** The loop over the indicators that accumulates the month's return. */
  method BlendedReturn(inds: seq<Indicator>, t: int) returns (rentabilidade: real)
    ensures rentabilidade == Blend(inds, t)
  {
    rentabilidade := 0.0;
    var n := |inds|;
    for k := 0 to n
      invariant n > 0 ==> rentabilidade == Accumulated(inds[..k], t, n)
      invariant n == 0 ==> rentabilidade == 0.0
    {
      var valor := Resolve(inds[k], t);
      if valor.Some? {
        rentabilidade := rentabilidade + valor.value / n as real;
      }
      assert inds[..k + 1][..k] == inds[..k];
    }
    assert inds[..n] == inds;
  }

  // ---------------------------------------------------------------------------
  // The ledger
  // ---------------------------------------------------------------------------

  /** The money inputs once converted, and the reinvestment choice. */
  datatype Plan = Plan(capital: real, retirada: real, aporte: real, reinvestir: bool)

  /** One ledger row: Capital, Retirada, Aporte, Saldo and Rentabilidade of a month. */
  datatype Row = Row(date: int, capital: real, retirada: real, aporte: real, saldo: real, rentabilidade: real)

  /** The balance at the end of a month that opened at `saldo` and returned r percent. */
  function MonthEnd(plan: Plan, saldo: real, r: real): real
  {
    var comRentabilidade := saldo * (1.0 + r / 100.0);
    if plan.reinvestir then comRentabilidade + plan.aporte
    else comRentabilidade - plan.retirada + plan.aporte
  }

  /** The row every position holds when the frame is created. */
  function InitialRow(plan: Plan, date: int): Row
  {
    Row(date, plan.capital, plan.retirada, plan.aporte, plan.capital, 0.0)
  }

  /** The row the loop writes for month `date` when the previous month closed at `saldoAnterior`. */
  function MonthRow(plan: Plan, inds: seq<Indicator>, date: int, saldoAnterior: real): Row
  {
    var r := Blend(inds, date);
    Row(date, saldoAnterior, if plan.reinvestir then 0.0 else plan.retirada, plan.aporte,
        MonthEnd(plan, saldoAnterior, r), r)
  }

  /** The first k rows of the ledger over `timeline`. */
  function LedgerPrefix(plan: Plan, inds: seq<Indicator>, timeline: seq<int>, k: nat): (rows: seq<Row>)
    requires k <= |timeline|
    ensures |rows| == k
  {
    if k == 0 then []
    else if k == 1 then [InitialRow(plan, timeline[0])]
    else
      var prev := LedgerPrefix(plan, inds, timeline, k - 1);
      prev + [MonthRow(plan, inds, timeline[k - 1], prev[k - 2].saldo)]
  }

  /** The whole ledger: one row per month of the timeline. */
  function Ledger(plan: Plan, inds: seq<Indicator>, timeline: seq<int>): (rows: seq<Row>)
  {
    LedgerPrefix(plan, inds, timeline, |timeline|)
  }

  /** Writing later rows never changes earlier ones. */
  lemma {:induction false} LedgerPrefixStable(plan: Plan, inds: seq<Indicator>, timeline: seq<int>, j: nat, k: nat)
    requires j <= k <= |timeline|
    ensures LedgerPrefix(plan, inds, timeline, k)[..j] == LedgerPrefix(plan, inds, timeline, j)
  {
    if j < k {
      LedgerPrefixStable(plan, inds, timeline, j, k - 1);
      var prev := LedgerPrefix(plan, inds, timeline, k - 1);
      if k > 1 {
        assert LedgerPrefix(plan, inds, timeline, k)[..k - 1] == prev;
      }
    }
  }

  /** Row 0 opens and closes at the initial capital with a zero return. */
  lemma LedgerOpening(plan: Plan, inds: seq<Indicator>, timeline: seq<int>)
    requires |timeline| > 0
    ensures var row := Ledger(plan, inds, timeline)[0];
      row.date == timeline[0] && row.capital == plan.capital && row.saldo == plan.capital &&
      row.rentabilidade == 0.0 && row.retirada == plan.retirada && row.aporte == plan.aporte
  {
    LedgerPrefixStable(plan, inds, timeline, 1, |timeline|);
    assert Ledger(plan, inds, timeline)[0] == Ledger(plan, inds, timeline)[..1][0];
  }

  /** Row i of the ledger is the row computed from the balance of row i-1. */
  lemma LedgerRow(plan: Plan, inds: seq<Indicator>, timeline: seq<int>, i: nat)
    requires 1 <= i < |timeline|
    ensures Ledger(plan, inds, timeline)[i] == MonthRow(plan, inds, timeline[i], Ledger(plan, inds, timeline)[i - 1].saldo)
  {
    LedgerPrefixStable(plan, inds, timeline, i + 1, |timeline|);
    LedgerPrefixNext(plan, inds, timeline, i);
  }

  /**
   * Every later row opens at the previous row's balance, earns the blend of its
   * month, and closes after the contribution and, unless reinvesting, the withdrawal.
   */
  lemma LedgerStep(plan: Plan, inds: seq<Indicator>, timeline: seq<int>, i: nat)
    requires 1 <= i < |timeline|
    ensures var rows := Ledger(plan, inds, timeline);
      var r := Blend(inds, timeline[i]);
      rows[i].date == timeline[i] &&
      rows[i].capital == rows[i - 1].saldo &&
      rows[i].rentabilidade == r &&
      rows[i].aporte == plan.aporte &&
      rows[i].retirada == (if plan.reinvestir then 0.0 else plan.retirada) &&
      rows[i].saldo == rows[i - 1].saldo * (1.0 + r / 100.0) + plan.aporte
                       - (if plan.reinvestir then 0.0 else plan.retirada)
  {
    LedgerRow(plan, inds, timeline, i);
    MonthRowFields(plan, inds, timeline[i], Ledger(plan, inds, timeline)[i - 1].saldo);
  }

  /** What MonthRow records, field by field. */
  lemma MonthRowFields(plan: Plan, inds: seq<Indicator>, date: int, saldo: real)
    ensures var row := MonthRow(plan, inds, date, saldo);
      var r := Blend(inds, date);
      row.date == date && row.capital == saldo && row.rentabilidade == r &&
      row.aporte == plan.aporte &&
      row.retirada == (if plan.reinvestir then 0.0 else plan.retirada) &&
      row.saldo == saldo * (1.0 + r / 100.0) + plan.aporte - (if plan.reinvestir then 0.0 else plan.retirada)
  {
  }

  /**
   * With no return in any month and withdrawals taken, the balance after n months
   * is the capital plus n times the net flow.
   */
  lemma {:induction false} ZeroReturnLedger(plan: Plan, inds: seq<Indicator>, timeline: seq<int>, n: nat)
    requires !plan.reinvestir
    requires n < |timeline|
    requires forall i :: 1 <= i <= n ==> Blend(inds, timeline[i]) == 0.0
    ensures Ledger(plan, inds, timeline)[n].saldo == plan.capital + n as real * (plan.aporte - plan.retirada)
  {
    if n == 0 {
      LedgerOpening(plan, inds, timeline);
    } else {
      ZeroReturnLedger(plan, inds, timeline, n - 1);
      LedgerStep(plan, inds, timeline, n);
    }
  }

  /**
   * When withdrawals are reinvested, the withdrawal amount affects no balance:
   * two plans that differ only in it produce the same Capital and Saldo columns,
   * and every row after the first records a zero withdrawal.
   */
  lemma {:induction false} ReinvestIgnoresWithdrawal(p1: Plan, p2: Plan, inds: seq<Indicator>, timeline: seq<int>, i: nat)
    requires p1.reinvestir && p2.reinvestir
    requires p1.capital == p2.capital && p1.aporte == p2.aporte
    requires i < |timeline|
    ensures Ledger(p1, inds, timeline)[i].saldo == Ledger(p2, inds, timeline)[i].saldo
    ensures Ledger(p1, inds, timeline)[i].capital == Ledger(p2, inds, timeline)[i].capital
    ensures i > 0 ==> Ledger(p1, inds, timeline)[i].retirada == 0.0
  {
    if i == 0 {
      LedgerOpening(p1, inds, timeline);
      LedgerOpening(p2, inds, timeline);
    } else {
      ReinvestIgnoresWithdrawal(p1, p2, inds, timeline, i - 1);
      LedgerStep(p1, inds, timeline, i);
      LedgerStep(p2, inds, timeline, i);
    }
  }

  /** With no indicators every month returns 0, and without cash flows the balance never moves. */
  lemma {:induction false} NoIndicatorsFlatLedger(plan: Plan, timeline: seq<int>, i: nat)
    requires i < |timeline|
    requires plan.aporte == 0.0 && (plan.reinvestir || plan.retirada == 0.0)
    ensures Ledger(plan, [], timeline)[i].rentabilidade == 0.0
    ensures Ledger(plan, [], timeline)[i].saldo == plan.capital
  {
    if i == 0 {
      LedgerOpening(plan, [], timeline);
    } else {
      NoIndicatorsFlatLedger(plan, timeline, i - 1);
      LedgerStep(plan, [], timeline, i);
    }
  }

  // ---------------------------------------------------------------------------
  // The engine
  // ---------------------------------------------------------------------------

  /** One more row extends the ledger by the row computed from the last balance. */
  lemma LedgerPrefixNext(plan: Plan, inds: seq<Indicator>, timeline: seq<int>, k: nat)
    requires 1 <= k < |timeline|
    ensures LedgerPrefix(plan, inds, timeline, k + 1)
         == LedgerPrefix(plan, inds, timeline, k) +
            [MonthRow(plan, inds, timeline[k], LedgerPrefix(plan, inds, timeline, k)[k - 1].saldo)]
  {
  }

  /** The body of the month loop: the blended return, the new balance and the row that records them. */
  method MonthStep(plan: Plan, inds: seq<Indicator>, date: int, saldoAnterior: real) returns (row: Row)
    ensures row == MonthRow(plan, inds, date, saldoAnterior)
  {
    var rentabilidade := BlendedReturn(inds, date);
    var saldoComRentabilidade := saldoAnterior * (1.0 + rentabilidade / 100.0);
    var saldoFinal := if plan.reinvestir then saldoComRentabilidade + plan.aporte
                      else saldoComRentabilidade - plan.retirada + plan.aporte;
    row := Row(date, saldoAnterior, if plan.reinvestir then 0.0 else plan.retirada,
               plan.aporte, saldoFinal, rentabilidade);
  }

  /**
   * The loop over rows 1..n-1 of a frame whose rows all hold their initial
   * values: row i is overwritten from the balance of row i-1, so the frame ends
   * up holding the ledger.
   */
  method FillLedger(df: array<Row>, plan: Plan, inds: seq<Indicator>, datas: seq<int>)
    requires df.Length == |datas|
    requires forall j :: 0 <= j < df.Length ==> df[j] == InitialRow(plan, datas[j])
    modifies df
    ensures df[..] == Ledger(plan, inds, datas)
  {
    var n := df.Length;
    if n == 0 {
      return;
    }
    assert df[..1] == LedgerPrefix(plan, inds, datas, 1);
    var i := 1;
    while i < n
      invariant 1 <= i <= n
      invariant df[..i] == LedgerPrefix(plan, inds, datas, i)
      invariant forall j :: i <= j < n ==> df[j] == InitialRow(plan, datas[j])
    {
      var saldoAnterior := df[i - 1].saldo;
      var row := MonthStep(plan, inds, datas[i], saldoAnterior);
      ghost var prev := df[..i];
      assert saldoAnterior == prev[i - 1].saldo;
      LedgerPrefixNext(plan, inds, datas, i);
      df[i] := row;
      assert df[..i] == prev;
      assert df[..i + 1] == prev + [row];
      i := i + 1;
    }
    assert df[..] == df[..n];
  }

  /** The ValueError raised when a money input is not a number. */
  datatype InputError = InvalidAmounts

  /**
   * calcular_rentabilidade: converts the inputs, picks the start, builds the
   * frame with every row at its initial values and then overwrites rows 1..n-1
   * in order, each from the balance of the row before it.
   */
  method CalcularRentabilidade(capitalInvestido: Cell, retiradaMensal: Cell, aporteMensal: Cell,
                               dataFim: int, reinvestir: bool, indicadores: seq<Indicator>,
                               calendar: seq<int>)
    returns (r: Result<array<Row>, InputError>)
    ensures r.Failure? <==>
      ToFloat(capitalInvestido).None? || ToFloat(retiradaMensal).None? || ToFloat(aporteMensal).None?
    ensures r.Success? ==>
      fresh(r.value) &&
      r.value[..] == Ledger(Plan(ToFloat(capitalInvestido).value, ToFloat(retiradaMensal).value,
                                 ToFloat(aporteMensal).value, reinvestir),
                            indicadores,
                            Timeline(calendar, SimulationStart(indicadores, dataFim), dataFim))
  {
    var capital := ToFloat(capitalInvestido);
    var retirada := ToFloat(retiradaMensal);
    var aporte := ToFloat(aporteMensal);
    if capital.None? || retirada.None? || aporte.None? {
      return Failure(InvalidAmounts);
    }
    var plan := Plan(capital.value, retirada.value, aporte.value, reinvestir);
    var dataInicio := StartDate(indicadores, dataFim);
    var datas := Timeline(calendar, dataInicio, dataFim);
    var n := |datas|;
    var df := new Row[n](j requires 0 <= j < n => InitialRow(plan, datas[j]));
    FillLedger(df, plan, indicadores, datas);
    r := Success(df);
  }

  // ---------------------------------------------------------------------------
  // A worked run
  // ---------------------------------------------------------------------------

  /**
   * 10000 invested, no flows, one rate of 1% known at the first three month ends:
   * the four months of the run close at 10000, 10100, 10201 and 10303.01.
   */
  lemma OnePercentRun()
    ensures var inds := [Indicator([Sample(31, Num(1.0)), Sample(59, Num(1.0)), Sample(90, Num(1.0))], true)];
      var timeline := Timeline([31, 59, 90, 120], SimulationStart(inds, 120), 120);
      var rows := Ledger(Plan(10000.0, 0.0, 0.0, false), inds, timeline);
      timeline == [31, 59, 90, 120] &&
      rows[0].saldo == 10000.0 && rows[1].saldo == 10100.0 &&
      rows[2].saldo == 10201.0 && rows[3].saldo == 10303.01
  {
    var ind := Indicator([Sample(31, Num(1.0)), Sample(59, Num(1.0)), Sample(90, Num(1.0))], true);
    var inds := [ind];
    var plan := Plan(10000.0, 0.0, 0.0, false);
    assert FirstDates(inds) == [31];
    var timeline := Timeline([31, 59, 90, 120], SimulationStart(inds, 120), 120);
    assert timeline == [31, 59, 90, 120];
    var rows := Ledger(plan, inds, timeline);
    LedgerOpening(plan, inds, timeline);
    OnePercentMonth(plan, ind, timeline, 1, 10000.0, 10100.0);
    OnePercentMonth(plan, ind, timeline, 2, 10100.0, 10201.0);
    OnePercentMonth(plan, ind, timeline, 3, 10201.0, 10303.01);
  }

  /** A month of the worked run: the balance grows by 1%. */
  lemma OnePercentMonth(plan: Plan, ind: Indicator, timeline: seq<int>, i: nat, before: real, after: real)
    requires ind == Indicator([Sample(31, Num(1.0)), Sample(59, Num(1.0)), Sample(90, Num(1.0))], true)
    requires plan == Plan(10000.0, 0.0, 0.0, false)
    requires 1 <= i < |timeline| && timeline[i] >= 31
    requires Ledger(plan, [ind], timeline)[i - 1].saldo == before && after == before * 1.01
    ensures Ledger(plan, [ind], timeline)[i].saldo == after
  {
    var k := LastAtOrBefore(ind.samples, timeline[i]);
    assert ind.samples[0].date <= timeline[i];
    assert k.Some? && k.value < 3;
    assert ind.samples[k.value].value == Num(1.0);
    assert Resolve(ind, timeline[i]) == Some(1.0);
    SingleIndicatorBlend(ind, timeline[i]);
    LedgerRow(plan, [ind], timeline, i);
  }

  /** With one indicator, the month's return is that indicator's value. */
  lemma SingleIndicatorBlend(ind: Indicator, t: int)
    ensures Blend([ind], t) == match Resolve(ind, t) case Some(v) => v case None => 0.0
  {
    assert [ind][..0] == [];
    assert Blend([ind], t) == Accumulated([], t, 1) + Share(ind, t, 1);
  }

}
