/** Calendar dates as `datetime` handles them: the proleptic Gregorian
    calendar, years 1 to 9999, and month arithmetic by `relativedelta`. */
module Calendar {
  import opened PyJson
  import opened Text

  datatype Date = Date(year: int, month: int, day: int)

  predicate IsLeap(y: int) {
    y % 4 == 0 && (y % 100 != 0 || y % 400 == 0)
  }

  function DaysInMonth(y: int, m: int): (n: int)
    requires 1 <= m <= 12
    ensures 28 <= n <= 31
  {
    if m == 2 then (if IsLeap(y) then 29 else 28)
    else if m == 4 || m == 6 || m == 9 || m == 11 then 30
    else 31
  }

  /** A date `datetime` accepts. */
  predicate Valid(d: Date) {
    1 <= d.year <= 9999 && 1 <= d.month <= 12 && 1 <= d.day <= DaysInMonth(d.year, d.month)
  }

  /** Months elapsed since January of year 0: consecutive calendar months
      have consecutive numbers. */
  function MonthNumber(d: Date): int {
    d.year * 12 + d.month - 1
  }

  /** `d - relativedelta(months=n)`: the same day `n` months earlier,
      clamped to the length of that month; `ValueError` when the year
      falls below 1. */
  function MonthsBefore(d: Date, n: nat): (r: Eval<Date>)
    requires Valid(d)
    ensures r.Raised? <==> MonthNumber(d) - n < 12
    ensures r.Ok? ==> Valid(r.value) && MonthNumber(r.value) == MonthNumber(d) - n
    ensures r.Ok? ==> r.value.day <= d.day && (r.value.day < d.day ==> r.value.day == DaysInMonth(r.value.year, r.value.month))
  {
    var k := MonthNumber(d) - n;
    var y := k / 12;
    var m := k % 12 + 1;
    if y < 1 then Raised
    else Ok(Date(y, m, if d.day <= DaysInMonth(y, m) then d.day else DaysInMonth(y, m)))
  }

  /** `strftime("%Y")` for a year `datetime` accepts (decimal digits,
      without padding below 1000, as the C library writes it). */
  function YearText(y: nat): string {
    NatToString(y)
  }

  /** `strftime("%d-%m-%Y")`, the form of the custody report's
      `fixingDate` column. */
  function DayStamp(d: Date): (s: string)
    requires Valid(d)
  {
    Pad2(d.day) + "-" + Pad2(d.month) + "-" + YearText(d.year)
  }

  /** Reading a `dd-mm-yyyy` stamp back: three hyphen-separated runs of
      digits. */
  function ParseDayStamp(s: string): Option<Date> {
    var parts := Split(s, '-');
    if |parts| == 3 && AllDigits(parts[0]) && AllDigits(parts[1]) && AllDigits(parts[2])
    then Some(Date(DigitsValue(parts[2]), DigitsValue(parts[1]), DigitsValue(parts[0])))
    else None
  }

  /** A stamp names exactly the date it was written from. */
  lemma DayStampRoundTrip(d: Date)
    requires Valid(d)
    ensures ParseDayStamp(DayStamp(d)) == Some(d)
  {
    var dd, mm, yy := Pad2(d.day), Pad2(d.month), YearText(d.year);
    Pad2RoundTrip(d.day);
    Pad2RoundTrip(d.month);
    NatToStringRoundTrip(d.year);
    assert '-' !in dd && '-' !in mm && '-' !in yy;
    var parts := [dd, mm, yy];
    assert Join(parts, '-') == dd + "-" + Join([mm, yy], '-');
    assert Join([mm, yy], '-') == mm + "-" + Join([yy], '-');
    assert DayStamp(d) == Join(parts, '-');
    SplitJoin(parts, '-');
  }

  /** Stamps of different dates differ, so comparing stamps compares
      dates. */
  lemma DayStampInjective(a: Date, b: Date)
    requires Valid(a) && Valid(b) && DayStamp(a) == DayStamp(b)
    ensures a == b
  {
    DayStampRoundTrip(a);
    DayStampRoundTrip(b);
  }

  /** A report period, `{"refMonth": "%m", "refYear": "%Y"}`. */
  datatype Period = Period(refMonth: string, refYear: string)

  /** The month a period names, read back from its digits. */
  function PeriodMonthNumber(p: Period): Option<int> {
    if AllDigits(p.refMonth) && AllDigits(p.refYear)
    then Some(DigitsValue(p.refYear) * 12 + DigitsValue(p.refMonth) - 1)
    else None
  }

  /** The monthly closing for a month is published after day 7 of the
      next month: up to day 7 the report asked for is two months back,
      from day 8 on it is one month back. */
  function MonthsBack(today: Date): nat {
    if today.day <= 7 then 2 else 1
  }

  /** The reference date lies in the current year exactly when today's
      month is later than the months stepped back. */
  lemma ReferenceYear(today: Date)
    requires Valid(today) && MonthsBefore(today, MonthsBack(today)).Ok?
    ensures var ref := MonthsBefore(today, MonthsBack(today)).value;
      ref.year == (if today.month > MonthsBack(today) then today.year else today.year - 1)
  {
    var ref := MonthsBefore(today, MonthsBack(today)).value;
    var back := MonthsBack(today);
    assert ref.year * 12 + ref.month == today.year * 12 + today.month - back;
    if today.month > back {
      assert ref.year * 12 > today.year * 12 - 12;
      assert ref.year * 12 <= today.year * 12;
    } else {
      assert ref.year * 12 > today.year * 12 - 24;
      assert ref.year * 12 < today.year * 12;
    }
  }

  /** The period computed by `get_closed_commissions_report` and
      `get_monthly_nnm_report` as written: the month of the reference
      date, with the year of today. */
  function ReferencePeriodAsWritten(today: Date): (p: Eval<Period>)
    requires Valid(today)
    ensures p.Raised? <==> MonthsBefore(today, MonthsBack(today)).Raised?
    ensures p.Ok? ==>
      PeriodMonthNumber(p.value) ==
        Some(MonthNumber(today) - MonthsBack(today) + (if today.month <= MonthsBack(today) then 12 else 0))
  {
    match MonthsBefore(today, MonthsBack(today))
    case Raised => Raised
    case Ok(ref) =>
      Pad2RoundTrip(ref.month);
      NatToStringRoundTrip(today.year);
      ReferenceYear(today);
      Ok(Period(Pad2(ref.month), YearText(today.year)))
  }

  /** The period with the year of the reference date. */
  function ReferencePeriod(today: Date): (p: Eval<Period>)
    requires Valid(today)
    ensures p.Raised? <==> MonthsBefore(today, MonthsBack(today)).Raised?
    ensures p.Ok? ==> PeriodMonthNumber(p.value) == Some(MonthNumber(today) - MonthsBack(today))
  {
    match MonthsBefore(today, MonthsBack(today))
    case Raised => Raised
    case Ok(ref) =>
      Pad2RoundTrip(ref.month);
      NatToStringRoundTrip(ref.year);
      Ok(Period(Pad2(ref.month), YearText(ref.year)))
  }

  /** The two computations agree exactly when the reference month lies in
      the current year. */
  lemma ReferencePeriodAgreesWithinYear(today: Date)
    requires Valid(today) && ReferencePeriod(today).Ok?
    ensures ReferencePeriodAsWritten(today) == ReferencePeriod(today) <==> today.month > MonthsBack(today)
  {
    ReferenceYear(today);
    var ref := MonthsBefore(today, MonthsBack(today)).value;
    if today.month > MonthsBack(today) {
      assert ReferencePeriodAsWritten(today) == Ok(Period(Pad2(ref.month), YearText(today.year)));
    } else {
      NatToStringRoundTrip(today.year);
      NatToStringRoundTrip(ref.year);
      assert YearText(today.year) != YearText(ref.year);
    }
  }

  /** On 10 January 2025 the report asked for is December of the current
      year, 2025, a month that has not happened yet. */
  lemma TenthOfJanuary()
    ensures ReferencePeriodAsWritten(Date(2025, 1, 10)) == Ok(Period("12", "2025"))
    ensures ReferencePeriod(Date(2025, 1, 10)) == Ok(Period("12", "2024"))
  {
    var today := Date(2025, 1, 10);
    assert MonthsBefore(today, 1) == Ok(Date(2024, 12, 10));
    assert Pad2(12) == "12";
    assert YearText(2025) == "2025" by {
      assert NatToString(2) == "2";
      assert NatToString(20) == "20";
      assert NatToString(202) == "202";
    }
    assert YearText(2024) == "2024" by {
      assert NatToString(2) == "2";
      assert NatToString(20) == "20";
      assert NatToString(202) == "202";
    }
  }
}
