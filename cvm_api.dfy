/**
 * The monthly return of the fund from the CVM daily reports (cvm_api.py,
 * obter_rentabilidade_fundo_cvm): the start date is clamped to the fund's first
 * month, the fund's CNPJ is cleaned of its separators, the months from start to
 * end are enumerated, and for every month each CSV of that month's archive that
 * holds rows of the fund yields the return from its first to its last quota.
 *
 * Fetching an archive is a function the caller supplies, from a month to the
 * CSV tables of its archive or None when the download or the ZIP fails.
 */
module FundReturns {
  import opened Wrappers
  import opened Decimal

  // ---------------------------------------------------------------------------
  // Calendar dates and the start clamp
  // ---------------------------------------------------------------------------

  datatype CalendarDate = Ymd(year: int, month: int, day: int)

  predicate IsLeapYear(y: int)
  {
    y % 4 == 0 && (y % 100 != 0 || y % 400 == 0)
  }

  function DaysInMonth(y: int, m: int): (n: int)
    ensures 28 <= n <= 31
  {
    if m == 2 then (if IsLeapYear(y) then 29 else 28)
    else if m == 4 || m == 6 || m == 9 || m == 11 then 30
    else 31
  }

  /** The dates Python's date type can hold: years 1 to 9999. */
  predicate ValidDate(d: CalendarDate)
  {
    1 <= d.year <= 9999 && 1 <= d.month <= 12 && 1 <= d.day <= DaysInMonth(d.year, d.month)
  }

  type Date = d: CalendarDate | ValidDate(d) witness Ymd(1, 1, 1)

  /** a < b in calendar order. */
  predicate Before(a: CalendarDate, b: CalendarDate)
  {
    a.year < b.year || (a.year == b.year && (a.month < b.month || (a.month == b.month && a.day < b.day)))
  }

  predicate AtOrBefore(a: CalendarDate, b: CalendarDate)
  {
    !Before(b, a)
  }

  /** The first day of the fund's operation: 1 July 2024. */
  const FundStart: Date := Ymd(2024, 7, 1)

  /** A start date before the fund's first day is moved to that day; any other is kept. */
  function ClampStart(d: Date): (r: Date)
    ensures !Before(r, FundStart)
    ensures Before(d, FundStart) ==> r == FundStart
    ensures !Before(d, FundStart) ==> r == d
  {
    if Before(d, FundStart) then FundStart else d
  }

  /** Clamping a clamped date changes nothing, and the clamp never moves a date backwards. */
  lemma ClampStartIdempotent(d: Date)
    ensures ClampStart(ClampStart(d)) == ClampStart(d)
    ensures AtOrBefore(d, ClampStart(d))
  {
  }

  // ---------------------------------------------------------------------------
  // The CNPJ
  // ---------------------------------------------------------------------------

  /** The fund's CNPJ as the configuration writes it. */
  const FundoCnpj: string := "54.776.432/0001-18"

  /** s.replace(c, ''): s without any c. */
  function RemoveChar(s: string, c: char): (r: string)
    ensures forall x :: x in r <==> x in s && x != c
    ensures |r| <= |s|
  {
    if s == [] then [] else (if s[0] == c then [] else [s[0]]) + RemoveChar(s[1..], c)
  }

  lemma {:induction false} RemoveCharAppend(s: string, t: string, c: char)
    ensures RemoveChar(s + t, c) == RemoveChar(s, c) + RemoveChar(t, c)
  {
    if s != [] {
      assert (s + t)[0] == s[0];
      assert (s + t)[1..] == s[1..] + t;
      RemoveCharAppend(s[1..], t, c);
    } else {
      assert s + t == t;
    }
  }

  predicate IsSeparator(x: char)
  {
    x == '.' || x == '/' || x == '-'
  }

  /** The characters of s that are not separators, in their order. */
  function DropSeparators(s: string): (r: string)
  {
    if s == [] then [] else (if IsSeparator(s[0]) then [] else [s[0]]) + DropSeparators(s[1..])
  }

  /** The three chained replaces of cvm_api.py. */
  function CleanCnpj(s: string): string
  {
    RemoveChar(RemoveChar(RemoveChar(s, '.'), '/'), '-')
  }

  /** The chained replaces drop exactly the separators and keep every other character in order. */
  lemma {:induction false} CleanCnpjDropsSeparators(s: string)
    ensures CleanCnpj(s) == DropSeparators(s)
  {
    if s != [] {
      var h, t := [s[0]], s[1..];
      assert s == h + t;
      RemoveCharAppend(h, t, '.');
      RemoveCharAppend(RemoveChar(h, '.'), RemoveChar(t, '.'), '/');
      RemoveCharAppend(RemoveChar(RemoveChar(h, '.'), '/'), RemoveChar(RemoveChar(t, '.'), '/'), '-');
      CleanCnpjDropsSeparators(t);
      assert h[1..] == [];
    }
  }

  lemma {:induction false} DropSeparatorsLeavesNone(s: string)
    ensures forall i :: 0 <= i < |DropSeparators(s)| ==> !IsSeparator(DropSeparators(s)[i])
    ensures DropSeparators(DropSeparators(s)) == DropSeparators(s)
  {
    if s != [] {
      DropSeparatorsLeavesNone(s[1..]);
      var r := DropSeparators(s[1..]);
      if !IsSeparator(s[0]) {
        var d := [s[0]] + r;
        assert DropSeparators(s) == d;
        assert d[0] == s[0] && d[1..] == r;
        assert DropSeparators(d) == [s[0]] + DropSeparators(r);
      } else {
        assert DropSeparators(s) == r;
      }
    }
  }

  /** Cleaning is idempotent. */
  lemma CleanCnpjIdempotent(s: string)
    ensures CleanCnpj(CleanCnpj(s)) == CleanCnpj(s)
  {
    CleanCnpjDropsSeparators(s);
    CleanCnpjDropsSeparators(DropSeparators(s));
    DropSeparatorsLeavesNone(s);
  }


  // ---------------------------------------------------------------------------
  // Months
  // ---------------------------------------------------------------------------

  datatype YearMonth = YM(year: int, month: int)

  function MonthOf(d: CalendarDate): YearMonth
  {
    YM(d.year, d.month)
  }

  /** Months counted from January of year 0. */
  function MonthIndex(ym: YearMonth): int
  {
    ym.year * 12 + ym.month - 1
  }

  function FromIndex(i: int): YearMonth
  {
    YM(i / 12, i % 12 + 1)
  }

  lemma FromIndexOfMonthIndex(ym: YearMonth)
    requires 1 <= ym.month <= 12
    ensures FromIndex(MonthIndex(ym)) == ym
  {
  }

  lemma MonthIndexOfFromIndex(i: int)
    ensures MonthIndex(FromIndex(i)) == i && 1 <= FromIndex(i).month <= 12
  {
  }

  /** The month after ym, December rolling over to January of the next year. */
  function NextMonth(ym: YearMonth): (r: YearMonth)
    ensures 1 <= ym.month <= 12 ==> 1 <= r.month <= 12 && MonthIndex(r) == MonthIndex(ym) + 1
  {
    if ym.month == 12 then YM(ym.year + 1, 1) else YM(ym.year, ym.month + 1)
  }

  function FirstDay(ym: YearMonth): CalendarDate
  {
    Ymd(ym.year, ym.month, 1)
  }

  /** The months from start's month to end's month, when start is not after end. */
  function MonthRange(start: Date, end: Date): (ms: seq<YearMonth>)
  {
    if AtOrBefore(start, end) then
      var first := MonthIndex(MonthOf(start));
      seq(MonthIndex(MonthOf(end)) - first + 1, k requires 0 <= k => FromIndex(first + k))
    else
      []
  }

  /** The k-th month listed is k months after the start month, and every month listed is a real month. */
  lemma MonthRangeIndices(start: Date, end: Date)
    ensures var ms := MonthRange(start, end);
      |ms| == (if AtOrBefore(start, end) then MonthIndex(MonthOf(end)) - MonthIndex(MonthOf(start)) + 1 else 0) &&
      forall k :: 0 <= k < |ms| ==>
        MonthIndex(ms[k]) == MonthIndex(MonthOf(start)) + k && 1 <= ms[k].month <= 12
  {
    var ms := MonthRange(start, end);
    var first := MonthIndex(MonthOf(start));
    forall k | 0 <= k < |ms|
      ensures MonthIndex(ms[k]) == first + k && 1 <= ms[k].month <= 12
    {
      assert ms[k] == FromIndex(first + k);
      MonthIndexOfFromIndex(first + k);
    }
  }

  /** Two real months with the same month number are the same month. */
  lemma MonthIndexInjective(a: YearMonth, b: YearMonth)
    requires 1 <= a.month <= 12 && 1 <= b.month <= 12 && MonthIndex(a) == MonthIndex(b)
    ensures a == b
  {
    FromIndexOfMonthIndex(a);
    FromIndexOfMonthIndex(b);
  }

  /** A real month numbered no later than the end date's month begins no later than the end date. */
  lemma FirstDayNotAfter(ym: YearMonth, end: Date)
    requires 1 <= ym.month <= 12 && MonthIndex(ym) <= MonthIndex(MonthOf(end))
    ensures AtOrBefore(FirstDay(ym), end)
  {
  }

  /**
   * The enumeration starts at the start month, ends at the end month, steps one
   * month at a time, and every month listed begins no later than the end date.
   */
  lemma MonthRangeSteps(start: Date, end: Date)
    ensures MonthRange(start, end) == [] <==> Before(end, start)
    ensures var ms := MonthRange(start, end);
      ms != [] ==> ms[0] == MonthOf(start) && ms[|ms| - 1] == MonthOf(end)
    ensures var ms := MonthRange(start, end);
      forall k :: 0 <= k < |ms| - 1 ==> ms[k + 1] == NextMonth(ms[k])
    ensures var ms := MonthRange(start, end);
      forall k :: 0 <= k < |ms| ==> 1 <= ms[k].month <= 12 && AtOrBefore(FirstDay(ms[k]), end)
    ensures var ms := MonthRange(start, end);
      forall j, k :: 0 <= j < k < |ms| ==> MonthIndex(ms[j]) < MonthIndex(ms[k])
  {
    var ms := MonthRange(start, end);
    MonthRangeIndices(start, end);
    if ms != [] {
      MonthIndexInjective(ms[0], MonthOf(start));
      MonthIndexInjective(ms[|ms| - 1], MonthOf(end));
    }
    forall k | 0 <= k < |ms| - 1
      ensures ms[k + 1] == NextMonth(ms[k])
    {
      MonthIndexInjective(ms[k + 1], NextMonth(ms[k]));
    }
    forall k | 0 <= k < |ms|
      ensures AtOrBefore(FirstDay(ms[k]), end)
    {
      FirstDayNotAfter(ms[k], end);
    }
  }

  /** date(year + 1, 1, 1) for December 9999 raises ValueError. */
  datatype DateOverflow = DateOverflow

  /** Whether the enumeration reaches December 9999 and fails to step past it. */
  predicate EnumerationOverflows(start: Date, end: Date)
  {
    AtOrBefore(start, end) && end.year == 9999 && end.month == 12
  }

  /**
   * The while loop of obter_rentabilidade_fundo_cvm: the start month, then the
   * first of each following month, while that date is not after the end date.
   */
  method YearMonths(start: Date, end: Date) returns (r: Result<seq<YearMonth>, DateOverflow>)
    ensures r.Failure? <==> EnumerationOverflows(start, end)
    ensures r.Success? ==> r.value == MonthRange(start, end)
  {
    var first := MonthIndex(MonthOf(start));
    var months: seq<YearMonth> := [];
    var current: Date := start;
    while AtOrBefore(current, end)
      invariant MonthIndex(MonthOf(current)) == first + |months|
      invariant forall k :: 0 <= k < |months| ==> months[k] == FromIndex(first + k)
      invariant months == [] ==> current == start
      invariant months != [] ==>
        current.day == 1 && AtOrBefore(start, end) && MonthIndex(MonthOf(current)) <= MonthIndex(MonthOf(end)) + 1
      decreases MonthIndex(MonthOf(end)) + 1 - MonthIndex(MonthOf(current))
    {
      FromIndexOfMonthIndex(MonthOf(current));
      months := months + [MonthOf(current)];
      if current.month == 12 {
        if current.year == 9999 {
          return Failure(DateOverflow);
        }
        current := Ymd(current.year + 1, 1, 1);
      } else {
        current := Ymd(current.year, current.month + 1, 1);
      }
    }
    if months != [] {
      assert MonthIndex(MonthOf(current)) == MonthIndex(MonthOf(end)) + 1;
    }
    r := Success(months);
  }

  // ---------------------------------------------------------------------------
  // Month labels
  // ---------------------------------------------------------------------------

  function Digit(n: int): char
    requires 0 <= n <= 9
  {
    ('0' as int + n) as char
  }

  /** The month as two digits, zero first below October. */
  function TwoDigits(m: int): (s: string)
    requires 0 <= m <= 99
    ensures |s| == 2 && AllDigits(s) && DigitsValue(s) == m
  {
    var s := [Digit(m / 10), Digit(m % 10)];
    assert s[..1] == [Digit(m / 10)] && s[..1][..0] == [];
    assert DigitsValue(s[..1]) == m / 10;
    s
  }

  /** strftime('%Y-%m'): the year's digits, a dash and the two-digit month. */
  function Label(ym: YearMonth): string
    requires ym.year >= 0 && 1 <= ym.month <= 12
  {
    NatToDigits(ym.year) + "-" + TwoDigits(ym.month)
  }

  /** ano_mes.split('-') unpacked into two parts; None for the ValueError of any other part count. */
  function SplitDash(s: string): (r: Option<(string, string)>)
    ensures r.Some? ==> s == r.value.0 + "-" + r.value.1
    ensures r.Some? ==> '-' !in r.value.0 && '-' !in r.value.1
  {
    var p := IndexOf(s, '-');
    if p < |s| && IndexOf(s[p + 1..], '-') == |s| - p - 1 then
      assert s == s[..p] + "-" + s[p + 1..];
      Some((s[..p], s[p + 1..]))
    else
      None
  }

  /** A string with exactly one dash always splits, into the parts on either side of it. */
  lemma SplitDashSingle(a: string, b: string)
    requires '-' !in a && '-' !in b
    ensures SplitDash(a + "-" + b) == Some((a, b))
  {
    var s := a + "-" + b;
    IndexOfPrefix(a, "-" + b);
    assert s == a + ("-" + b);
    assert s[|a| + 1..] == b;
    IndexOfPrefix(b, []);
    assert b + [] == b;
    assert s[..|a|] == a;
  }

  /** The year and month a monthLabel names, read back from its digits. */
  function ParseLabel(s: string): Option<YearMonth>
  {
    match SplitDash(s)
    case Some((ano, mes)) =>
      if |ano| > 0 && AllDigits(ano) && |mes| == 2 && AllDigits(mes) then Some(YM(DigitsValue(ano), DigitsValue(mes)))
      else None
    case None => None
  }

  /**
   * A monthLabel splits into its year digits and month digits, so the monthLabel the
   * results carry is the enumerated one, and it reads back as the same month.
   */
  lemma LabelRoundTrip(ym: YearMonth)
    requires ym.year >= 0 && 1 <= ym.month <= 12
    ensures SplitDash(Label(ym)) == Some((NatToDigits(ym.year), TwoDigits(ym.month)))
    ensures ParseLabel(Label(ym)) == Some(ym)
  {
    LabelSplits(ym);
    DigitsOfNat(ym.year);
  }

  /** The only dash of a monthLabel is the one between the year and the month. */
  lemma LabelSplits(ym: YearMonth)
    requires ym.year >= 0 && 1 <= ym.month <= 12
    ensures SplitDash(Label(ym)) == Some((NatToDigits(ym.year), TwoDigits(ym.month)))
  {
    var y, m := NatToDigits(ym.year), TwoDigits(ym.month);
    var s := Label(ym);
    assert forall i :: 0 <= i < |y| ==> y[i] != '-' by {
      forall i | 0 <= i < |y| ensures y[i] != '-' { assert IsDigit(y[i]); }
    }
    IndexOfPrefix(y, "-" + m);
    assert s == y + ("-" + m);
    assert IndexOf(s, '-') == |y|;
    assert s[|y| + 1..] == m;
    assert IndexOf(m, '-') == 2 by {
      assert IsDigit(m[0]) && IsDigit(m[1]);
      assert m[1..][1..] == [];
    }
    assert s[..|y|] == y;
  }

  /** The first c in a + b is past a when a has none. */
  lemma {:induction false} IndexOfPrefix(a: string, b: string)
    requires forall i :: 0 <= i < |a| ==> a[i] != '-'
    ensures IndexOf(a + b, '-') == |a| + IndexOf(b, '-')
  {
    if a != [] {
      assert (a + b)[0] == a[0];
      assert (a + b)[1..] == a[1..] + b;
      IndexOfPrefix(a[1..], b);
    } else {
      assert a + b == b;
    }
  }

  /** Different months have different labels. */
  lemma LabelsDistinct(a: YearMonth, b: YearMonth)
    requires a.year >= 0 && 1 <= a.month <= 12 && b.year >= 0 && 1 <= b.month <= 12
    requires a != b
    ensures Label(a) != Label(b)
  {
    LabelRoundTrip(a);
    LabelRoundTrip(b);
  }

  // ---------------------------------------------------------------------------
  // Quotas and the return of a month
  // ---------------------------------------------------------------------------

  /** A row of a daily report: its CNPJ, its DT_COMPTC (None when it does not parse) and its VL_QUOTA text. */
  datatype QuotaRow = QuotaRow(cnpj: string, date: Option<int>, quota: string)

  /** A CSV of an archive: its rows, or a table the code cannot read (a missing column). */
  datatype Csv = Table(rows: seq<QuotaRow>) | Malformed

  /** A return in percent; NonFinite stands for the inf or NaN of a missing or zero quota. */
  datatype Percent = Finite(value: real) | NonFinite

  datatype MonthReturn = MonthReturn(mes: string, rentabilidade: Percent)

  /** pd.to_numeric(text.replace(',', '.'), errors='coerce'), None for NaN. */
  function QuotaValue(text: string): Option<real>
  {
    ParseNumber(NormalizeComma(text))
  }

  /** sort_values order on dates: parsed dates ascending, unparsed ones last. */
  predicate KeyLe(a: Option<int>, b: Option<int>)
  {
    b.None? || (a.Some? && a.value <= b.value)
  }

  /** The position of the first row once sorted by date: the earliest of the rows with the least date. */
  function EarliestIndex(rows: seq<QuotaRow>): (i: nat)
    requires rows != []
    ensures i < |rows|
    ensures forall j :: 0 <= j < |rows| ==> KeyLe(rows[i].date, rows[j].date)
    ensures forall j :: 0 <= j < i ==> !KeyLe(rows[j].date, rows[i].date)
  {
    if |rows| == 1 then 0
    else
      var k := EarliestIndex(rows[..|rows| - 1]);
      assert forall j :: 0 <= j < |rows| - 1 ==> rows[..|rows| - 1][j] == rows[j];
      if KeyLe(rows[k].date, rows[|rows| - 1].date) then k else |rows| - 1
  }

  /** The position of the last row once sorted by date: the latest of the rows with the greatest date. */
  function LatestIndex(rows: seq<QuotaRow>): (i: nat)
    requires rows != []
    ensures i < |rows|
    ensures forall j :: 0 <= j < |rows| ==> KeyLe(rows[j].date, rows[i].date)
    ensures forall j :: i < j < |rows| ==> !KeyLe(rows[i].date, rows[j].date)
  {
    if |rows| == 1 then 0
    else
      var k := LatestIndex(rows[..|rows| - 1]);
      assert forall j :: 0 <= j < |rows| - 1 ==> rows[..|rows| - 1][j] == rows[j];
      if KeyLe(rows[k].date, rows[|rows| - 1].date) then |rows| - 1 else k
  }

  /** ((fim / inicio) - 1) * 100, NonFinite when a quota is missing or the first is zero. */
  function QuotaReturn(inicio: Option<real>, fim: Option<real>): (p: Percent)
    ensures p.Finite? <==> inicio.Some? && fim.Some? && inicio.value != 0.0
    ensures p.Finite? ==> inicio.value * (1.0 + p.value / 100.0) == fim.value
  {
    if inicio.Some? && fim.Some? && inicio.value != 0.0 then
      var v := ((fim.value / inicio.value) - 1.0) * 100.0;
      assert 1.0 + v / 100.0 == fim.value / inicio.value;
      Finite(v)
    else
      NonFinite
  }

  /** The rows whose cleaned CNPJ is cnpj, in their order. */
  function FundRows(rows: seq<QuotaRow>, cnpj: string): (r: seq<QuotaRow>)
    ensures forall x :: x in r <==> x in rows && CleanCnpj(x.cnpj) == cnpj
  {
    if rows == [] then []
    else (if CleanCnpj(rows[0].cnpj) == cnpj then [rows[0]] else []) + FundRows(rows[1..], cnpj)
  }

  /**
   * The month's return read from a fund's rows: ((fim / inicio) - 1) * 100, with
   * inicio the quota of the first row once sorted by date and fim that of the last.
   */
  function FirstToLastReturn(rows: seq<QuotaRow>): Percent
    requires rows != []
  {
    QuotaReturn(QuotaValue(rows[EarliestIndex(rows)].quota), QuotaValue(rows[LatestIndex(rows)].quota))
  }

  /** The result one CSV contributes to its month: none without fund rows, else the first-to-last quota return. */
  function CsvEntry(monthLabel: string, csv: Csv, cnpj: string): (r: seq<MonthReturn>)
    ensures |r| <= 1
    ensures |r| == 1 <==> csv.Table? && FundRows(csv.rows, cnpj) != []
    ensures r != [] ==> r[0].mes == monthLabel
    ensures r != [] ==>
      (csv.Table? && FundRows(csv.rows, cnpj) != [] &&
       r[0].rentabilidade == QuotaReturn(QuotaValue(FundRows(csv.rows, cnpj)[EarliestIndex(FundRows(csv.rows, cnpj))].quota),
                                         QuotaValue(FundRows(csv.rows, cnpj)[LatestIndex(FundRows(csv.rows, cnpj))].quota)))
  {
    if csv.Malformed? then []
    else
      var rows := FundRows(csv.rows, cnpj);
      if rows == [] then [] else [MonthReturn(monthLabel, FirstToLastReturn(rows))]
  }

  /** The results of a run of CSVs, in order. */
  function TableEntries(monthLabel: string, files: seq<Csv>, cnpj: string): (r: seq<MonthReturn>)
    ensures |r| <= |files|
    ensures forall i :: 0 <= i < |r| ==> r[i].mes == monthLabel
  {
    if files == [] then []
    else TableEntries(monthLabel, files[..|files| - 1], cnpj) + CsvEntry(monthLabel, files[|files| - 1], cnpj)
  }

  /** The fund rows of each CSV that is a table holding some row of the fund, in file order. */
  function ContributingRows(files: seq<Csv>, cnpj: string): (c: seq<seq<QuotaRow>>)
    ensures |c| <= |files|
    ensures forall i :: 0 <= i < |c| ==> c[i] != []
  {
    if files == [] then []
    else
      var last := files[|files| - 1];
      ContributingRows(files[..|files| - 1], cnpj) +
      (if last.Table? && FundRows(last.rows, cnpj) != [] then [FundRows(last.rows, cnpj)] else [])
  }

  /**
   * A run of CSVs gives one result per CSV holding rows of the fund, in file
   * order, each the first-to-last quota return of that CSV's fund rows.
   */
  lemma {:induction false} TableEntriesOfContributing(monthLabel: string, files: seq<Csv>, cnpj: string)
    ensures var r, c := TableEntries(monthLabel, files, cnpj), ContributingRows(files, cnpj);
      |r| == |c| && forall i :: 0 <= i < |r| ==> r[i] == MonthReturn(monthLabel, FirstToLastReturn(c[i]))
  {
    if files != [] {
      var init, last := files[..|files| - 1], files[|files| - 1];
      TableEntriesOfContributing(monthLabel, init, cnpj);
      var a, b := TableEntries(monthLabel, init, cnpj), CsvEntry(monthLabel, last, cnpj);
      var ca := ContributingRows(init, cnpj);
      assert TableEntries(monthLabel, files, cnpj) == a + b;
      if last.Table? && FundRows(last.rows, cnpj) != [] {
        assert ContributingRows(files, cnpj) == ca + [FundRows(last.rows, cnpj)];
        assert b == [MonthReturn(monthLabel, FirstToLastReturn(FundRows(last.rows, cnpj)))];
      } else {
        assert ContributingRows(files, cnpj) == ca;
        assert b == [];
      }
    }
  }

  /** The position of the first CSV that raises, or |files| when none does. */
  function FirstMalformed(files: seq<Csv>): (i: nat)
    ensures i <= |files|
    ensures forall j :: 0 <= j < i ==> files[j].Table?
    ensures i < |files| ==> files[i].Malformed?
  {
    if files == [] then 0 else if files[0].Malformed? then 0 else 1 + FirstMalformed(files[1..])
  }

  /** What a month adds: the results of its CSVs up to the first one that raises, which ends the month. */
  function MonthEntries(ym: YearMonth, archive: YearMonth -> Option<seq<Csv>>, cnpj: string): (r: seq<MonthReturn>)
    requires ym.year >= 0 && 1 <= ym.month <= 12
    ensures forall i :: 0 <= i < |r| ==> r[i].mes == Label(ym)
  {
    match archive(ym)
    case None => []
    case Some(files) => TableEntries(Label(ym), files[..FirstMalformed(files)], cnpj)
  }

  /**
   * A month gives nothing when its archive cannot be fetched, and otherwise one
   * result per CSV holding rows of the fund before the first CSV that raises, in
   * file order, each the first-to-last quota return of that CSV's fund rows.
   */
  lemma MonthEntriesOfContributing(ym: YearMonth, archive: YearMonth -> Option<seq<Csv>>, cnpj: string)
    requires ym.year >= 0 && 1 <= ym.month <= 12
    ensures archive(ym).None? ==> MonthEntries(ym, archive, cnpj) == []
    ensures archive(ym).Some? ==>
      var r := MonthEntries(ym, archive, cnpj);
      var c := ContributingRows(archive(ym).value[..FirstMalformed(archive(ym).value)], cnpj);
      |r| == |c| && forall i :: 0 <= i < |r| ==> r[i] == MonthReturn(Label(ym), FirstToLastReturn(c[i]))
  {
    if archive(ym).Some? {
      var files := archive(ym).value;
      TableEntriesOfContributing(Label(ym), files[..FirstMalformed(files)], cnpj);
    }
  }

  predicate ValidMonths(ms: seq<YearMonth>)
  {
    forall k :: 0 <= k < |ms| ==> ms[k].year >= 0 && 1 <= ms[k].month <= 12
  }

  /** The results of the months, in month order. */
  function Collect(ms: seq<YearMonth>, archive: YearMonth -> Option<seq<Csv>>, cnpj: string): (r: seq<MonthReturn>)
    requires ValidMonths(ms)
  {
    if ms == [] then []
    else Collect(ms[..|ms| - 1], archive, cnpj) + MonthEntries(ms[|ms| - 1], archive, cnpj)
  }

  /** How many results carry the monthLabel l. */
  function CountLabel(rs: seq<MonthReturn>, l: string): nat
  {
    if rs == [] then 0 else CountLabel(rs[..|rs| - 1], l) + (if rs[|rs| - 1].mes == l then 1 else 0)
  }

  lemma {:induction false} CountLabelAppend(a: seq<MonthReturn>, b: seq<MonthReturn>, l: string)
    ensures CountLabel(a + b, l) == CountLabel(a, l) + CountLabel(b, l)
    decreases |b|
  {
    if b != [] {
      assert (a + b)[|a + b| - 1] == b[|b| - 1];
      assert (a + b)[..|a + b| - 1] == a + b[..|b| - 1];
      CountLabelAppend(a, b[..|b| - 1], l);
    } else {
      assert a + b == a;
    }
  }

  lemma {:induction false} CountLabelAbsent(rs: seq<MonthReturn>, l: string)
    requires forall i :: 0 <= i < |rs| ==> rs[i].mes != l
    ensures CountLabel(rs, l) == 0
  {
    if rs != [] {
      CountLabelAbsent(rs[..|rs| - 1], l);
    }
  }

  lemma {:induction false} CountLabelAtMostLength(rs: seq<MonthReturn>, l: string)
    ensures CountLabel(rs, l) <= |rs|
  {
    if rs != [] {
      CountLabelAtMostLength(rs[..|rs| - 1], l);
    }
  }

  /** Every result is labelled with one of the enumerated months. */
  lemma {:induction false} CollectLabels(ms: seq<YearMonth>, archive: YearMonth -> Option<seq<Csv>>, cnpj: string)
    requires ValidMonths(ms)
    ensures forall i :: 0 <= i < |Collect(ms, archive, cnpj)| ==>
      exists k :: 0 <= k < |ms| && Collect(ms, archive, cnpj)[i].mes == Label(ms[k])
  {
    if ms != [] {
      var init := ms[..|ms| - 1];
      CollectLabels(init, archive, cnpj);
      var r := Collect(ms, archive, cnpj);
      var a := Collect(init, archive, cnpj);
      assert r == a + MonthEntries(ms[|ms| - 1], archive, cnpj);
      forall i | 0 <= i < |r|
        ensures exists k :: 0 <= k < |ms| && r[i].mes == Label(ms[k])
      {
        if i < |a| {
          assert r[i] == a[i];
          assert exists k :: 0 <= k < |init| && a[i].mes == Label(init[k]);
          var k :| 0 <= k < |init| && a[i].mes == Label(init[k]);
          assert ms[k] == init[k];
        } else {
          assert r[i].mes == Label(ms[|ms| - 1]);
        }
      }
    } else {
      assert Collect(ms, archive, cnpj) == [];
    }
  }

  /** Months listed at most once each. */
  predicate DistinctMonths(ms: seq<YearMonth>)
  {
    forall j, k :: 0 <= j < k < |ms| ==> ms[j] != ms[k]
  }

  /** Every listed month's archive holds at most one CSV. */
  predicate SingleCsvArchives(ms: seq<YearMonth>, archive: YearMonth -> Option<seq<Csv>>)
  {
    forall k :: 0 <= k < |ms| && archive(ms[k]).Some? ==> |archive(ms[k]).value| <= 1
  }

  /** An archive with at most one CSV gives its month at most one result. */
  lemma MonthEntriesAtMostOne(ym: YearMonth, archive: YearMonth -> Option<seq<Csv>>, cnpj: string)
    requires ym.year >= 0 && 1 <= ym.month <= 12
    requires archive(ym).Some? ==> |archive(ym).value| <= 1
    ensures |MonthEntries(ym, archive, cnpj)| <= 1
  {
    if archive(ym).Some? {
      var files := archive(ym).value;
      assert |files[..FirstMalformed(files)]| <= |files|;
    }
  }

  /** A month's results carry its own label at most once and no other month's label. */
  lemma LabelCountInMonth(last: YearMonth, ym: YearMonth, archive: YearMonth -> Option<seq<Csv>>, cnpj: string)
    requires last.year >= 0 && 1 <= last.month <= 12 && ym.year >= 0 && 1 <= ym.month <= 12
    requires archive(last).Some? ==> |archive(last).value| <= 1
    ensures CountLabel(MonthEntries(last, archive, cnpj), Label(ym)) <= (if last == ym then 1 else 0)
  {
    var b := MonthEntries(last, archive, cnpj);
    if last == ym {
      MonthEntriesAtMostOne(last, archive, cnpj);
      CountLabelAtMostLength(b, Label(ym));
    } else {
      LabelsDistinct(last, ym);
      CountLabelAbsent(b, Label(ym));
    }
  }

  /**
   * When every archive holds at most one CSV, distinct months give at most one
   * result each, and a month that is not listed gives none.
   */
  lemma {:induction false} OneResultPerMonth(ms: seq<YearMonth>, archive: YearMonth -> Option<seq<Csv>>, cnpj: string, ym: YearMonth)
    requires ValidMonths(ms) && DistinctMonths(ms) && SingleCsvArchives(ms, archive)
    requires ym.year >= 0 && 1 <= ym.month <= 12
    ensures CountLabel(Collect(ms, archive, cnpj), Label(ym)) <= (if ym in ms then 1 else 0)
  {
    if ms != [] {
      var init, last := ms[..|ms| - 1], ms[|ms| - 1];
      assert ValidMonths(init) && DistinctMonths(init) && SingleCsvArchives(init, archive);
      OneResultPerMonth(init, archive, cnpj, ym);
      var a, b := Collect(init, archive, cnpj), MonthEntries(last, archive, cnpj);
      CountLabelAppend(a, b, Label(ym));
      LabelCountInMonth(last, ym, archive, cnpj);
      assert ym in ms <==> ym in init || ym == last;
      assert last == ym ==> ym !in init;
    } else {
      assert Collect(ms, archive, cnpj) == [];
    }
  }

  // ---------------------------------------------------------------------------
  // The whole computation
  // ---------------------------------------------------------------------------

  /**
   * One pass of the for loop over the months: the label is split into year and
   * month and put back together, and each CSV of the month's archive adds its
   * result until one raises, which ends the month.
   */
  method ProcessMonth(ym: YearMonth, archive: YearMonth -> Option<seq<Csv>>, cnpjLimpo: string)
    returns (entries: seq<MonthReturn>)
    requires ym.year >= 0 && 1 <= ym.month <= 12
    ensures entries == MonthEntries(ym, archive, cnpjLimpo)
  {
    LabelRoundTrip(ym);
    var parts := SplitDash(Label(ym));
    var ano, mes := parts.value.0, parts.value.1;
    var monthLabel := ano + "-" + mes;
    entries := [];
    var files := archive(ym);
    if files.Some? {
      entries := ProcessArchive(monthLabel, files.value, cnpjLimpo);
    }
  }

  /** The loop over the CSVs of one month's archive, which stops at the first one that raises. */
  method ProcessArchive(monthLabel: string, fs: seq<Csv>, cnpjLimpo: string) returns (entries: seq<MonthReturn>)
    ensures entries == TableEntries(monthLabel, fs[..FirstMalformed(fs)], cnpjLimpo)
  {
    entries := [];
    var j := 0;
    while j < |fs| && fs[j].Table?
      invariant j <= FirstMalformed(fs)
      invariant entries == TableEntries(monthLabel, fs[..j], cnpjLimpo)
    {
      assert fs[..j + 1][..j] == fs[..j];
      entries := entries + CsvEntry(monthLabel, fs[j], cnpjLimpo);
      j := j + 1;
    }
    assert j == FirstMalformed(fs);
  }

  /**
   * obter_rentabilidade_fundo_cvm: the month results from the clamped start to
   * the end, or the ValueError of stepping past December 9999.
   */
  method ObterRentabilidadeFundoCvm(dataInicio: Date, dataFim: Date, archive: YearMonth -> Option<seq<Csv>>)
    returns (r: Result<seq<MonthReturn>, DateOverflow>)
    ensures r.Failure? <==> EnumerationOverflows(ClampStart(dataInicio), dataFim)
    ensures r.Success? ==>
      MonthRangeValid(ClampStart(dataInicio), dataFim) &&
      r.value == Collect(MonthRange(ClampStart(dataInicio), dataFim), archive, CleanCnpj(FundoCnpj))
  {
    var inicio := ClampStart(dataInicio);
    var cnpjLimpo := CleanCnpj(FundoCnpj);
    var enumeration := YearMonths(inicio, dataFim);
    if enumeration.Failure? {
      return Failure(enumeration.error);
    }
    var anoMesLista := enumeration.value;
    MonthRangeMonthsValid(inicio, dataFim);
    var resultados := ProcessMonths(anoMesLista, archive, cnpjLimpo);
    r := Success(resultados);
  }

  /** The for loop over the enumerated months, appending each month's results. */
  method ProcessMonths(anoMesLista: seq<YearMonth>, archive: YearMonth -> Option<seq<Csv>>, cnpjLimpo: string)
    returns (resultados: seq<MonthReturn>)
    requires ValidMonths(anoMesLista)
    ensures resultados == Collect(anoMesLista, archive, cnpjLimpo)
  {
    resultados := [];
    for k := 0 to |anoMesLista|
      invariant resultados == Collect(anoMesLista[..k], archive, cnpjLimpo)
    {
      var entries := ProcessMonth(anoMesLista[k], archive, cnpjLimpo);
      assert anoMesLista[..k + 1][..k] == anoMesLista[..k];
      resultados := resultados + entries;
    }
    assert anoMesLista[..|anoMesLista|] == anoMesLista;
  }

  lemma MonthRangeMonthsValid(start: Date, end: Date)
    ensures ValidMonths(MonthRange(start, end))
  {
    var ms := MonthRange(start, end);
    MonthRangeIndices(start, end);
    forall k | 0 <= k < |ms|
      ensures ms[k].year >= 0
    {
      MonthIndexOfFromIndex(MonthIndex(MonthOf(start)) + k);
      assert ms[k] == FromIndex(MonthIndex(MonthOf(start)) + k);
    }
  }

  /** Every month MonthRange lists is a real month of a non-negative year. */
  predicate MonthRangeValid(start: Date, end: Date)
  {
    ValidMonths(MonthRange(start, end))
  }
}
