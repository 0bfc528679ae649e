/**
 * The parameterised simulation of src/core/investment_calculator.py: input
 * validation, the 30-day evolution loop, period-over-period returns, the total
 * return, the Sharpe index with its zero-volatility guard, and the assembly of
 * the results, where every exception surfaces as a CalculationError.
 *
 * Dates are day numbers. The fractional power behind the annualised return and
 * the square root behind the volatility are functions the caller supplies.
 */
module Evolution {
  import opened Wrappers

  /** Days the evolution loop advances per step. */
  const StepDays: int := 30

  datatype Parameters = Parameters(
    initialCapital: real,
    monthlyContribution: real,
    monthlyWithdrawal: real,
    inflationRate: real,
    riskFreeRate: real,
    startDate: int,
    endDate: int)

  /** The ValidationErrors of _validar_dados_entrada, one per check. */
  datatype ValidationError = NonPositiveCapital | StartNotBeforeEnd | NegativeInflation | NegativeRiskFreeRate

  /** What an exception raised during the computation was. */
  datatype Cause = Validation(error: ValidationError) | ZeroDivision

  /** The single error type callers see. */
  datatype CalculationError = CalculationError(cause: Cause)

  /** The position of each check in the source. */
  function Rank(e: ValidationError): nat
  {
    match e
    case NonPositiveCapital => 0
    case StartNotBeforeEnd => 1
    case NegativeInflation => 2
    case NegativeRiskFreeRate => 3
  }

  /** Whether `p` fails the check that reports `e`. */
  predicate Violates(p: Parameters, e: ValidationError)
  {
    match e
    case NonPositiveCapital => p.initialCapital <= 0.0
    case StartNotBeforeEnd => p.startDate >= p.endDate
    case NegativeInflation => p.inflationRate < 0.0
    case NegativeRiskFreeRate => p.riskFreeRate < 0.0
  }

  /**
   * _validar_dados_entrada: None when every check passes; otherwise the first
   * check, in source order, that fails.
   */
  function ValidarDadosEntrada(p: Parameters): (r: Option<ValidationError>)
    ensures r.None? <==>
      p.initialCapital > 0.0 && p.startDate < p.endDate && p.inflationRate >= 0.0 && p.riskFreeRate >= 0.0
    ensures r.Some? ==>
      Violates(p, r.value) && forall e :: Rank(e) < Rank(r.value) ==> !Violates(p, e)
  {
    if p.initialCapital <= 0.0 then Some(NonPositiveCapital)
    else if p.startDate >= p.endDate then Some(StartNotBeforeEnd)
    else if p.inflationRate < 0.0 then Some(NegativeInflation)
    else if p.riskFreeRate < 0.0 then Some(NegativeRiskFreeRate)
    else None
  }

  // ---------------------------------------------------------------------------
  // The evolution loop
  // ---------------------------------------------------------------------------

  /** One pass of the loop: contribution, then withdrawal, then a month of the risk-free rate. */
  function Step(p: Parameters, capital: real): real
  {
    (capital + p.monthlyContribution - p.monthlyWithdrawal) * (1.0 + p.riskFreeRate / 12.0)
  }

  /** The capital after k passes of the loop. */
  function CapitalAfter(p: Parameters, k: nat): real
  {
    if k == 0 then p.initialCapital else Step(p, CapitalAfter(p, k - 1))
  }

  /** How many times the loop runs: once per 30-day step that starts before the end date. */
  function StepCount(start: int, end: int): nat
    decreases end - start
  {
    if start < end then 1 + StepCount(start + StepDays, end) else 0
  }

  /** The loop runs ceil((end - start) / 30) times. */
  lemma {:induction false} StepCountClosedForm(start: int, end: int)
    ensures StepCount(start, end) == if start < end then (end - start + StepDays - 1) / StepDays else 0
    decreases end - start
  {
    if start < end {
      StepCountClosedForm(start + StepDays, end);
    }
  }

  /** The body of the evolution loop: contribution, withdrawal, then a month of interest, in that order. */
  method ApplyMonth(p: Parameters, capital: real) returns (next: real)
    ensures next == Step(p, capital)
  {
    next := capital;
    next := next + p.monthlyContribution;
    next := next - p.monthlyWithdrawal;
    next := next * (1.0 + p.riskFreeRate / 12.0);
  }

  /** _calcular_evolucao_mensal: the capital before the first step and after every step. */
  method CalcularEvolucaoMensal(p: Parameters) returns (evolution: seq<real>)
    ensures |evolution| == StepCount(p.startDate, p.endDate) + 1
    ensures forall k :: 0 <= k < |evolution| ==> evolution[k] == CapitalAfter(p, k)
  {
    var capital := p.initialCapital;
    evolution := [capital];
    var currentDate := p.startDate;
    while currentDate < p.endDate
      invariant |evolution| >= 1
      invariant |evolution| - 1 + StepCount(currentDate, p.endDate) == StepCount(p.startDate, p.endDate)
      invariant capital == CapitalAfter(p, |evolution| - 1)
      invariant forall k :: 0 <= k < |evolution| ==> evolution[k] == CapitalAfter(p, k)
      decreases p.endDate - currentDate
    {
      capital := ApplyMonth(p, capital);
      evolution := evolution + [capital];
      currentDate := currentDate + StepDays;
    }
  }

  /** With a zero rate the capital moves by the net flow each step. */
  lemma {:induction false} EvolutionWithoutInterest(p: Parameters, k: nat)
    requires p.riskFreeRate == 0.0
    ensures CapitalAfter(p, k) == p.initialCapital + k as real * (p.monthlyContribution - p.monthlyWithdrawal)
  {
    if k > 0 {
      EvolutionWithoutInterest(p, k - 1);
    }
  }

  function Power(x: real, k: nat): real
  {
    if k == 0 then 1.0 else x * Power(x, k - 1)
  }

  /** Without flows the capital compounds at a twelfth of the rate per step. */
  lemma {:induction false} EvolutionWithoutFlows(p: Parameters, k: nat)
    requires p.monthlyContribution == p.monthlyWithdrawal
    ensures CapitalAfter(p, k) == p.initialCapital * Power(1.0 + p.riskFreeRate / 12.0, k)
  {
    if k > 0 {
      EvolutionWithoutFlows(p, k - 1);
      var f := 1.0 + p.riskFreeRate / 12.0;
      var before, rest := CapitalAfter(p, k - 1), Power(f, k - 1);
      assert CapitalAfter(p, k) == before * f;
      assert Power(f, k) == f * rest;
      Regroup(p.initialCapital, rest, f);
    }
  }

  /** Positive capital, a non-negative rate and contributions that cover withdrawals keep the capital positive. */
  lemma {:induction false} CapitalStaysPositive(p: Parameters, k: nat)
    requires p.initialCapital > 0.0 && p.riskFreeRate >= 0.0
    requires p.monthlyContribution >= p.monthlyWithdrawal
    ensures CapitalAfter(p, k) > 0.0
  {
    if k > 0 {
      CapitalStaysPositive(p, k - 1);
      var c := CapitalAfter(p, k - 1) + p.monthlyContribution - p.monthlyWithdrawal;
      var f := 1.0 + p.riskFreeRate / 12.0;
      assert c > 0.0 && f > 0.0;
      assert CapitalAfter(p, k) == c * f;
      assert c * f > 0.0;
    }
  }

  // ---------------------------------------------------------------------------
  // Period returns and the total return
  // ---------------------------------------------------------------------------

  /** r holds the period-over-period returns of e: one fewer than e, each (e[i+1] - e[i]) / e[i]. */
  ghost predicate PeriodReturns(e: seq<real>, r: seq<real>)
  {
    |r| == (if e == [] then 0 else |e| - 1) &&
    forall i :: 0 <= i < |r| ==> e[i] != 0.0 && r[i] == (e[i + 1] - e[i]) / e[i]
  }

  /**
   * _calcular_rentabilidade_mensal: the returns of consecutive values, or the
   * ZeroDivisionError raised at the first zero value that has a successor.
   */
  method CalcularRentabilidadeMensal(evolution: seq<real>) returns (r: Result<seq<real>, Cause>)
    ensures r.Failure? <==> exists i :: 0 <= i < |evolution| - 1 && evolution[i] == 0.0
    ensures r.Failure? ==> r.error == ZeroDivision
    ensures r.Success? ==> PeriodReturns(evolution, r.value)
  {
    var profitability: seq<real> := [];
    var i := 1;
    while i < |evolution|
      invariant 1 <= i <= |evolution| || (evolution == [] && i == 1)
      invariant |profitability| == i - 1
      invariant forall j :: 0 <= j < i - 1 ==>
        evolution[j] != 0.0 && profitability[j] == (evolution[j + 1] - evolution[j]) / evolution[j]
    {
      if evolution[i - 1] == 0.0 {
        return Failure(ZeroDivision);
      }
      var monthlyReturn := (evolution[i] - evolution[i - 1]) / evolution[i - 1];
      profitability := profitability + [monthlyReturn];
      i := i + 1;
    }
    r := Success(profitability);
  }

  /** Values rebuilt from a first value and the returns that follow it. */
  function Rebuild(e0: real, rs: seq<real>): (e: seq<real>)
    ensures |e| == |rs| + 1
    decreases |rs|
  {
    if rs == [] then [e0] else [e0] + Rebuild(e0 * (1.0 + rs[0]), rs[1..])
  }

  /** The returns lose nothing: the first value and the returns give back every value. */
  lemma {:induction false} RebuildFromReturns(e: seq<real>, r: seq<real>)
    requires |e| > 0 && PeriodReturns(e, r)
    ensures Rebuild(e[0], r) == e
  {
    if r != [] {
      var tail := e[1..];
      PeriodReturnsTail(e, r);
      RebuildFromReturns(tail, r[1..]);
      var next := e[0] * (1.0 + r[0]);
      assert Rebuild(e[0], r) == [e[0]] + Rebuild(next, r[1..]);
      OneStepGrowth(e[0], e[1], r[0]);
      assert next == tail[0];
      assert e == [e[0]] + tail;
    }
  }

  /** The returns after the first are the period returns of the values after the first. */
  lemma PeriodReturnsTail(e: seq<real>, r: seq<real>)
    requires PeriodReturns(e, r) && r != []
    ensures PeriodReturns(e[1..], r[1..])
    ensures e[0] != 0.0 && r[0] == (e[1] - e[0]) / e[0]
  {
    var et, rt := e[1..], r[1..];
    forall i | 0 <= i < |rt|
      ensures et[i] != 0.0 && rt[i] == (et[i + 1] - et[i]) / et[i]
    {
      assert rt[i] == r[i + 1] && et[i] == e[i + 1] && et[i + 1] == e[i + 2];
    }
  }

  /** The product of (1 + r) over the returns. */
  function Growth(rs: seq<real>): real
  {
    if rs == [] then 1.0 else (1.0 + rs[0]) * Growth(rs[1..])
  }

  /** The returns compound to the ratio of the last value to the first. */
  lemma CompoundedGrowth(e: seq<real>, r: seq<real>)
    requires |e| > 0 && PeriodReturns(e, r)
    ensures Growth(r) * e[0] == e[|e| - 1]
  {
    RebuildFromReturns(e, r);
    RebuildGrowth(e[0], r);
  }

  /** The last rebuilt value is the first one times the growth of the returns. */
  lemma {:induction false} RebuildGrowth(e0: real, rs: seq<real>)
    ensures Rebuild(e0, rs)[|rs|] == Growth(rs) * e0
    decreases |rs|
  {
    if rs != [] {
      var next := e0 * (1.0 + rs[0]);
      RebuildGrowth(next, rs[1..]);
      assert Rebuild(e0, rs)[|rs|] == Rebuild(next, rs[1..])[|rs| - 1];
      Regroup(1.0 + rs[0], Growth(rs[1..]), e0);
    }
  }

  /** A value grown by its period return is the next value. */
  lemma OneStepGrowth(e0: real, e1: real, r0: real)
    requires e0 != 0.0 && r0 == (e1 - e0) / e0
    ensures e0 * (1.0 + r0) == e1
  {
    assert e0 * ((e1 - e0) / e0) == e1 - e0;
  }

  lemma Regroup(a: real, b: real, c: real)
    ensures (a * b) * c == b * (c * a)
  {
  }

  /** _calcular_rentabilidade_total as the source writes it: (1 + prod(1 + r)) - 1. */
  function TotalProfitabilityAsWritten(rs: seq<real>): real
  {
    (1.0 + Growth(rs)) - 1.0
  }

  /** The cumulative return the function is meant to give: prod(1 + r) - 1. */
  function TotalProfitability(rs: seq<real>): real
  {
    Growth(rs) - 1.0
  }

  /** The corrected total return is the growth of the capital from first to last value. */
  lemma TotalProfitabilityIsCumulative(e: seq<real>, r: seq<real>)
    requires |e| > 0 && e[0] != 0.0 && PeriodReturns(e, r)
    ensures TotalProfitability(r) == e[|e| - 1] / e[0] - 1.0
  {
    CompoundedGrowth(e, r);
    assert Growth(r) == e[|e| - 1] / e[0];
  }

  /**
   * The formula as written is one more than the cumulative return: a capital that
   * grows from 100 to 110 reports 1.1 (110%) instead of 0.1, and a run with no
   * period reports 1.0 instead of 0.
   */
  lemma TotalProfitabilityAsWrittenIsOffByOne(rs: seq<real>)
    ensures TotalProfitabilityAsWritten(rs) == TotalProfitability(rs) + 1.0
    ensures TotalProfitabilityAsWritten([]) == 1.0 && TotalProfitability([]) == 0.0
    ensures PeriodReturns([100.0, 110.0], [0.1]) &&
            TotalProfitabilityAsWritten([0.1]) == 1.1 && TotalProfitability([0.1]) == 0.1
  {
    assert Growth([0.1]) == 1.1 by {
      assert [0.1][1..] == [];
    }
  }

  /** _calcular_rentabilidade_anualizada: the total return as a yearly rate over (end - start) / 365 years. */
  function AnnualizedProfitability(total: real, start: int, end: int, power: (real, real) -> real): real
    requires start < end
  {
    var years := (end - start) as real / 365.0;
    power(1.0 + total, 1.0 / years) - 1.0
  }

  // ---------------------------------------------------------------------------
  // Dispersion and the Sharpe index
  // ---------------------------------------------------------------------------

  /** _calcular_indice_sharpe: zero when there is no volatility, the excess return per unit of it otherwise. */
  function IndiceSharpe(annualized: real, volatility: real, riskFree: real): (s: real)
    ensures volatility == 0.0 ==> s == 0.0
    ensures volatility != 0.0 ==> s * volatility == annualized - riskFree
  {
    if volatility == 0.0 then 0.0 else (annualized - riskFree) / volatility
  }

  function Sum(xs: seq<real>): real
  {
    if xs == [] then 0.0 else xs[0] + Sum(xs[1..])
  }

  /** The sum of squared deviations of xs from m. */
  function SquaredDeviations(xs: seq<real>, m: real): real
  {
    if xs == [] then 0.0 else (xs[0] - m) * (xs[0] - m) + SquaredDeviations(xs[1..], m)
  }

  /** The population variance (np.std squared). */
  function Variance(xs: seq<real>): real
    requires xs != []
  {
    var m := Sum(xs) / |xs| as real;
    SquaredDeviations(xs, m) / |xs| as real
  }

  /** _calcular_volatilidade: the population standard deviation scaled by the square root of 12. */
  function Volatility(xs: seq<real>, sqrt: real -> real): real
    requires xs != []
  {
    sqrt(Variance(xs)) * sqrt(12.0)
  }

  lemma {:induction false} SumOfConstant(xs: seq<real>, c: real)
    requires forall i :: 0 <= i < |xs| ==> xs[i] == c
    ensures Sum(xs) == |xs| as real * c
    ensures SquaredDeviations(xs, c) == 0.0
  {
    if xs != [] {
      SumOfConstant(xs[1..], c);
    }
  }

  /**
   * Identical returns have no dispersion, so their volatility is 0 and so is
   * the Sharpe index computed from it.
   */
  lemma SharpeOfConstantReturns(xs: seq<real>, c: real, sqrt: real -> real, annualized: real, riskFree: real)
    requires xs != [] && forall i :: 0 <= i < |xs| ==> xs[i] == c
    requires sqrt(0.0) == 0.0
    ensures Variance(xs) == 0.0
    ensures var volatility := Volatility(xs, sqrt);
      volatility == 0.0 && IndiceSharpe(annualized, volatility, riskFree) == 0.0
  {
    SumOfConstant(xs, c);
    assert Sum(xs) / |xs| as real == c;
  }

  // ---------------------------------------------------------------------------
  // The whole computation
  // ---------------------------------------------------------------------------

  datatype SimulationResults = SimulationResults(
    finalCapital: real,
    totalProfitability: real,
    annualizedProfitability: real,
    volatility: real,
    sharpeIndex: real,
    monthlyEvolution: seq<real>,
    monthlyProfitability: seq<real>)

  /**
   * calcular_rentabilidade: validation, evolution, returns, total, annualised
   * return, volatility and Sharpe index, with any exception reported as a
   * CalculationError carrying its cause. The total return uses the corrected
   * formula, so it equals the growth of the capital over the run.
   */
  method CalcularRentabilidade(p: Parameters, power: (real, real) -> real, sqrt: real -> real)
    returns (r: Result<SimulationResults, CalculationError>)
    ensures ValidarDadosEntrada(p).Some? ==>
      r == Failure(CalculationError(Validation(ValidarDadosEntrada(p).value)))
    ensures ValidarDadosEntrada(p).None? ==>
      (r.Failure? <==> exists k :: 0 <= k < StepCount(p.startDate, p.endDate) && CapitalAfter(p, k) == 0.0)
    ensures r.Failure? && ValidarDadosEntrada(p).None? ==> r.error.cause == ZeroDivision
    ensures r.Success? ==>
      var res := r.value;
      p.startDate < p.endDate &&
      |res.monthlyEvolution| == StepCount(p.startDate, p.endDate) + 1 &&
      (forall k :: 0 <= k < |res.monthlyEvolution| ==> res.monthlyEvolution[k] == CapitalAfter(p, k)) &&
      res.finalCapital == res.monthlyEvolution[|res.monthlyEvolution| - 1] &&
      PeriodReturns(res.monthlyEvolution, res.monthlyProfitability) &&
      res.totalProfitability == res.finalCapital / p.initialCapital - 1.0 &&
      res.annualizedProfitability == AnnualizedProfitability(res.totalProfitability, p.startDate, p.endDate, power) &&
      res.monthlyProfitability != [] &&
      res.volatility == Volatility(res.monthlyProfitability, sqrt) &&
      res.sharpeIndex == IndiceSharpe(res.annualizedProfitability, res.volatility, p.riskFreeRate)
  {
    var invalid := ValidarDadosEntrada(p);
    if invalid.Some? {
      return Failure(CalculationError(Validation(invalid.value)));
    }
    var monthlyEvolution := CalcularEvolucaoMensal(p);
    var monthly := CalcularRentabilidadeMensal(monthlyEvolution);
    if monthly.Failure? {
      var i :| 0 <= i < |monthlyEvolution| - 1 && monthlyEvolution[i] == 0.0;
      assert CapitalAfter(p, i) == 0.0;
      return Failure(CalculationError(monthly.error));
    }
    var monthlyProfitability := monthly.value;
    var totalProfitability := TotalProfitability(monthlyProfitability);
    TotalProfitabilityIsCumulative(monthlyEvolution, monthlyProfitability);
    var annualizedProfitability := AnnualizedProfitability(totalProfitability, p.startDate, p.endDate, power);
    var volatility := Volatility(monthlyProfitability, sqrt);
    var sharpeIndex := IndiceSharpe(annualizedProfitability, volatility, p.riskFreeRate);
    r := Success(SimulationResults(
      monthlyEvolution[|monthlyEvolution| - 1],
      totalProfitability,
      annualizedProfitability,
      volatility,
      sharpeIndex,
      monthlyEvolution,
      monthlyProfitability));
  }
}
