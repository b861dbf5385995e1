/** The HTTP-date of an `expires` header in its IMF-fixdate form (section
    7.1.1.1 of RFC 7231), `Sun, 06 Nov 1994 08:49:37 GMT`, as
    `datetime.strptime(s, "%a, %d %b %Y %H:%M:%S %Z")` reads it, and the
    POSIX timestamp of the UTC moment it names. */
module HttpDate {
  import opened PyJson
  import opened Text
  import opened Calendar

  /** A date with a time of day, to the second. */
  datatype Moment = Moment(date: Date, hour: int, minute: int, second: int)

  predicate ValidMoment(m: Moment) {
    Valid(m.date) && 0 <= m.hour < 24 && 0 <= m.minute < 60 && 0 <= m.second < 60
  }

  const DayNames: seq<string> := ["Mon", "Tue", "Wed", "Thu", "Fri", "Sat", "Sun"]
  const MonthNames: seq<string> :=
    ["Jan", "Feb", "Mar", "Apr", "May", "Jun", "Jul", "Aug", "Sep", "Oct", "Nov", "Dec"]

  /** Days in the years before `y`, counting from year 1. */
  function DaysBeforeYear(y: int): int
    requires y >= 1
  {
    var p := y - 1;
    365 * p + p / 4 - p / 100 + p / 400
  }

  /** Days in the months of year `y` before month `m`. */
  function DaysBeforeMonth(y: int, m: int): int
    requires 1 <= m <= 12
    decreases m
  {
    if m == 1 then 0 else DaysBeforeMonth(y, m - 1) + DaysInMonth(y, m - 1)
  }

  /** `date.toordinal()`: 1 January of year 1 is day 1. */
  function Ordinal(d: Date): int
    requires Valid(d)
  {
    DaysBeforeYear(d.year) + DaysBeforeMonth(d.year, d.month) + d.day
  }

  /** The ordinal of 1 January 1970. */
  const EpochOrdinal: int := 719163

  /** `.replace(tzinfo=timezone.utc).timestamp()`: seconds since the
      epoch, the moment read as UTC. */
  function Timestamp(m: Moment): int
    requires ValidMoment(m)
  {
    (Ordinal(m.date) - EpochOrdinal) * 86400 + m.hour * 3600 + m.minute * 60 + m.second
  }

  /** A later second of the same day has a larger timestamp. */
  lemma TimestampWithinDay(a: Moment, b: Moment)
    requires ValidMoment(a) && ValidMoment(b) && a.date == b.date
    ensures Timestamp(a) < Timestamp(b) <==>
      (a.hour, a.minute, a.second) != (b.hour, b.minute, b.second)
      && (a.hour < b.hour || (a.hour == b.hour && (a.minute < b.minute || (a.minute == b.minute && a.second < b.second))))
  {
  }

  /** `date.weekday()`: Monday is 0 (1 January of year 1 was a Monday). */
  function Weekday(d: Date): (w: nat)
    requires Valid(d)
    ensures w < 7
  {
    (Ordinal(d) + 6) % 7
  }

  /** The day after `d`, `d + timedelta(days=1)`; the last day `datetime`
      can hold has none. */
  function NextDay(d: Date): (n: Date)
    requires Valid(d) && d != Date(9999, 12, 31)
    ensures Valid(n)
  {
    if d.day < DaysInMonth(d.year, d.month) then Date(d.year, d.month, d.day + 1)
    else if d.month < 12 then Date(d.year, d.month + 1, 1)
    else Date(d.year + 1, 1, 1)
  }

  /** 1 January 1970 was a Thursday. */
  lemma EpochThursday()
    ensures Ordinal(Date(1970, 1, 1)) == EpochOrdinal
    ensures Weekday(Date(1970, 1, 1)) == 3 && DayNames[3] == "Thu"
  {
    assert DaysBeforeYear(1970) == 719162;
  }

  /** A year has 365 days, 366 when it is a leap year. */
  lemma YearLength(y: int)
    requires y >= 1
    ensures DaysBeforeYear(y + 1) == DaysBeforeYear(y) + (if IsLeap(y) then 366 else 365)
  {
    var p := y - 1;
    assert y / 4 == p / 4 + (if y % 4 == 0 then 1 else 0);
    assert y / 100 == p / 100 + (if y % 100 == 0 then 1 else 0);
    assert y / 400 == p / 400 + (if y % 400 == 0 then 1 else 0);
  }

  /** The days before December and in it make up the year. */
  lemma DecemberEndsYear(y: int)
    ensures DaysBeforeMonth(y, 12) + 31 == (if IsLeap(y) then 366 else 365)
  {
    var feb := DaysInMonth(y, 2);
    assert DaysBeforeMonth(y, 3) == 31 + feb;
    assert DaysBeforeMonth(y, 6) == 31 + feb + 31 + 30 + 31;
    assert DaysBeforeMonth(y, 9) == 31 + feb + 31 + 30 + 31 + 30 + 31 + 31;
    assert DaysBeforeMonth(y, 12) == 31 + feb + 31 + 30 + 31 + 30 + 31 + 31 + 30 + 31 + 30;
  }

  /** Consecutive days have consecutive ordinals. */
  lemma OrdinalNext(d: Date)
    requires Valid(d) && d != Date(9999, 12, 31)
    ensures Ordinal(NextDay(d)) == Ordinal(d) + 1
  {
    if d.day == DaysInMonth(d.year, d.month) && d.month == 12 {
      YearLength(d.year);
      DecemberEndsYear(d.year);
    }
  }

  /** The weekday advances by one each day, Sunday wrapping to Monday. */
  lemma WeekdayNext(d: Date)
    requires Valid(d) && d != Date(9999, 12, 31)
    ensures Weekday(NextDay(d)) == (Weekday(d) + 1) % 7
  {
    OrdinalNext(d);
    var o := Ordinal(d) + 6;
    assert Ordinal(NextDay(d)) + 6 == o + 1;
    ModSevenStep(o);
  }

  lemma ModSevenStep(x: int)
    ensures (x + 1) % 7 == (x % 7 + 1) % 7
  {
    var q, r := x / 7, x % 7;
    assert x + 1 == 7 * q + (r + 1);
    if r == 6 {
      assert x + 1 == 7 * (q + 1);
    }
  }

  /** `%a, %d %b %Y ` of a moment. */
  function DatePart(m: Moment): (s: string)
    requires ValidMoment(m)
    ensures |s| == 17
  {
    DayNames[Weekday(m.date)] + ", " + Pad2(m.date.day) + " " + MonthNames[m.date.month - 1] + " "
    + Pad4(m.date.year) + " "
  }

  /** `%H:%M:%S GMT` of a moment. */
  function TimePart(m: Moment): (s: string)
    requires ValidMoment(m)
    ensures |s| == 12
  {
    Pad2(m.hour) + ":" + Pad2(m.minute) + ":" + Pad2(m.second) + " GMT"
  }

  /** The IMF-fixdate of a moment, always with the `GMT` zone name. */
  function Format(m: Moment): (s: string)
    requires ValidMoment(m)
    ensures |s| == 29
  {
    DatePart(m) + TimePart(m)
  }

  /** The position of `name` in `names`, if it is there. */
  function NameIndex(names: seq<string>, name: string): (r: Option<nat>)
    ensures r.Some? ==> r.value < |names| && names[r.value] == name
    ensures r.None? ==> name !in names
    decreases |names|
  {
    if |names| == 0 then None
    else if names[0] == name then Some(0)
    else
      var rest := NameIndex(names[1..], name);
      assert names == [names[0]] + names[1..];
      if rest.Some? then Some(rest.value + 1) else None
  }

  /** The first occurrence of a name is found at its position. */
  lemma {:induction false} NameIndexAt(names: seq<string>, k: nat)
    requires k < |names| && forall j :: 0 <= j < k ==> names[j] != names[k]
    ensures NameIndex(names, names[k]) == Some(k)
    decreases k
  {
    if k > 0 {
      assert names[1..][k - 1] == names[k];
      NameIndexAt(names[1..], k - 1);
    }
  }

  lemma MonthNameIndex(k: nat)
    requires k < 12
    ensures NameIndex(MonthNames, MonthNames[k]) == Some(k)
  {
    forall j | 0 <= j < k ensures MonthNames[j] != MonthNames[k] {
      assert MonthNames[j][..2] + [MonthNames[j][2]] == MonthNames[j];
      assert MonthNames[j][0] != MonthNames[k][0] || MonthNames[j][1] != MonthNames[k][1]
        || MonthNames[j][2] != MonthNames[k][2];
    }
    NameIndexAt(MonthNames, k);
  }

  /** A run of exactly `n` decimal digits. */
  predicate Digits(s: string, n: nat) {
    |s| == n && AllDigits(s)
  }

  /** `strptime` with the IMF-fixdate format: the weekday name must be a
      day name but is not checked against the date; the zone is `GMT` or
      `UTC`; the fields must form a real date and time, or `ValueError`
      (`None` here). */
  function Parse(s: string): (r: Option<Moment>)
    ensures r.Some? ==> ValidMoment(r.value)
  {
    if |s| != 29 then None
    else if s[3..5] != ", " || s[7] != ' ' || s[11] != ' ' || s[16] != ' ' || s[19] != ':' || s[22] != ':'
            || s[25] != ' ' then None
    else if s[0..3] !in DayNames || (s[26..] != "GMT" && s[26..] != "UTC") then None
    else if !Digits(s[5..7], 2) || !Digits(s[12..16], 4) || !Digits(s[17..19], 2) || !Digits(s[20..22], 2)
            || !Digits(s[23..25], 2) then None
    else
      match NameIndex(MonthNames, s[8..11])
      case None => None
      case Some(k) =>
        var m := Moment(Date(DigitsValue(s[12..16]), k + 1, DigitsValue(s[5..7])),
                        DigitsValue(s[17..19]), DigitsValue(s[20..22]), DigitsValue(s[23..25]));
        if ValidMoment(m) then Some(m) else None
  }

  /** `x` sits at offset `|p|` of `p + x + q`. */
  lemma Slice(p: string, x: string, q: string)
    ensures (p + x + q)[|p|..|p| + |x|] == x
  {
    assert (p + x + q)[|p|..|p| + |x|] == (p + x)[|p|..];
  }

  lemma DatePieces(m: Moment)
    requires ValidMoment(m)
    ensures var s := DatePart(m);
      s[0..3] == DayNames[Weekday(m.date)] && s[3..5] == ", " && s[5..7] == Pad2(m.date.day) && s[7] == ' '
      && s[8..11] == MonthNames[m.date.month - 1] && s[11] == ' ' && s[12..16] == Pad4(m.date.year)
      && s[16] == ' '
  {
    var day, d2, month, y4 := DayNames[Weekday(m.date)], Pad2(m.date.day), MonthNames[m.date.month - 1], Pad4(m.date.year);
    assert |day| == 3 && |month| == 3;
    var s := DatePart(m);
    Slice([], day, ", " + d2 + " " + month + " " + y4 + " ");
    Slice(day, ", ", d2 + " " + month + " " + y4 + " ");
    Slice(day + ", ", d2, " " + month + " " + y4 + " ");
    Slice(day + ", " + d2 + " ", month, " " + y4 + " ");
    Slice(day + ", " + d2 + " " + month + " ", y4, " ");
  }

  lemma TimePieces(m: Moment)
    requires ValidMoment(m)
    ensures var s := TimePart(m);
      s[0..2] == Pad2(m.hour) && s[2] == ':' && s[3..5] == Pad2(m.minute) && s[5] == ':'
      && s[6..8] == Pad2(m.second) && s[8..] == " GMT"
  {
    var h, mi, sec := Pad2(m.hour), Pad2(m.minute), Pad2(m.second);
    Slice([], h, ":" + mi + ":" + sec + " GMT");
    Slice(h + ":", mi, ":" + sec + " GMT");
    Slice(h + ":" + mi + ":", sec, " GMT");
  }

  /** The pieces of a formatted date sit at their fixed offsets. */
  lemma FormatPieces(m: Moment)
    requires ValidMoment(m)
    ensures var s := Format(m);
      s[0..3] == DayNames[Weekday(m.date)] && s[3..5] == ", " && s[5..7] == Pad2(m.date.day) && s[7] == ' '
      && s[8..11] == MonthNames[m.date.month - 1] && s[11] == ' ' && s[12..16] == Pad4(m.date.year)
      && s[16] == ' ' && s[17..19] == Pad2(m.hour) && s[19] == ':' && s[20..22] == Pad2(m.minute)
      && s[22] == ':' && s[23..25] == Pad2(m.second) && s[25..] == " GMT"
  {
    var s, a, b := Format(m), DatePart(m), TimePart(m);
    DatePieces(m);
    TimePieces(m);
    assert s[..17] == a && s[17..] == b;
    assert forall i, j :: 0 <= i <= j <= 17 ==> s[i..j] == a[i..j];
    assert forall i, j :: 0 <= i <= j <= 12 ==> s[17 + i..17 + j] == b[i..j];
    assert s[25..] == b[8..];
  }

  /** A formatted moment passes every check `Parse` makes before it reads
      the month name, and its digit fields read back as the moment's. */
  lemma FormatFields(m: Moment)
    requires ValidMoment(m)
    ensures var s := Format(m);
      |s| == 29 && s[3..5] == ", " && s[7] == ' ' && s[11] == ' ' && s[16] == ' ' && s[19] == ':'
      && s[22] == ':' && s[25] == ' ' && s[0..3] in DayNames && s[26..] == "GMT"
      && Digits(s[5..7], 2) && Digits(s[12..16], 4) && Digits(s[17..19], 2) && Digits(s[20..22], 2)
      && Digits(s[23..25], 2)
      && DigitsValue(s[5..7]) == m.date.day && DigitsValue(s[12..16]) == m.date.year
      && DigitsValue(s[17..19]) == m.hour && DigitsValue(s[20..22]) == m.minute
      && DigitsValue(s[23..25]) == m.second
      && s[8..11] == MonthNames[m.date.month - 1]
  {
    var s := Format(m);
    FormatPieces(m);
    Pad2RoundTrip(m.date.day);
    Pad2RoundTrip(m.hour);
    Pad2RoundTrip(m.minute);
    Pad2RoundTrip(m.second);
    Pad4RoundTrip(m.date.year);
    assert s[26..] == (s[25..])[1..];
  }

  /** Formatting and parsing are inverse: a formatted moment reads back
      as itself. */
  lemma ParseFormat(m: Moment)
    requires ValidMoment(m)
    ensures Parse(Format(m)) == Some(m)
  {
    FormatFields(m);
    MonthNameIndex(m.date.month - 1);
  }

  /** `Parse` looks at the first three characters only to check that
      they name some day. */
  lemma ParseIgnoresDayName(s: string, t: string)
    requires |s| == 29 && |t| == 29 && s[3..] == t[3..]
    requires s[0..3] in DayNames && t[0..3] in DayNames
    ensures Parse(s) == Parse(t)
  {
    var u := s[3..];
    assert s[3..5] == u[0..2] == t[3..5];
    assert s[5..7] == u[2..4] == t[5..7];
    assert s[8..11] == u[5..8] == t[8..11];
    assert s[12..16] == u[9..13] == t[12..16];
    assert s[17..19] == u[14..16] == t[17..19];
    assert s[20..22] == u[17..19] == t[20..22];
    assert s[23..25] == u[20..22] == t[23..25];
    assert s[26..] == u[23..] == t[26..];
    assert s[7] == u[4] == t[7] && s[11] == u[8] == t[11] && s[16] == u[13] == t[16];
    assert s[19] == u[16] == t[19] && s[22] == u[19] == t[22] && s[25] == u[22] == t[25];
  }

  /** The weekday name is read but never checked: a date carrying the
      wrong day name parses to the same moment. */
  lemma WeekdayNotChecked(m: Moment, name: string)
    requires ValidMoment(m) && name in DayNames
    ensures Parse(name + Format(m)[3..]) == Some(m)
  {
    var s := Format(m);
    var t := name + s[3..];
    ParseFormat(m);
    FormatPieces(m);
    assert |name| == 3 && t[0..3] == name && t[3..] == s[3..];
    ParseIgnoresDayName(s, t);
  }
}
