/**
 * Calendar values and format_date of backend/core/form_pdf_generator.py:
 * the date reformatter used when a form is rendered.
 */
module Dates {
  import opened Outcome

  predicate IsLeapYear(y: int) {
    y % 4 == 0 && (y % 100 != 0 || y % 400 == 0)
  }

  function DaysInMonth(y: int, m: int): (n: int)
    requires 1 <= m <= 12
    ensures 28 <= n <= 31
    ensures n == 31 <==> m in {1, 3, 5, 7, 8, 10, 12}
    ensures n == 28 <==> m == 2 && !IsLeapYear(y)
  {
    if m == 2 then (if IsLeapYear(y) then 29 else 28)
    else if m in {4, 6, 9, 11} then 30
    else 31
  }

  /** The dates Python's datetime accepts (years 1 to 9999). */
  predicate ValidDate(y: int, m: int, d: int) {
    1 <= y <= 9999 && 1 <= m <= 12 && 1 <= d <= DaysInMonth(y, m)
  }

  datatype DateTime = DateTime(year: int, month: int, day: int,
                               hour: int, minute: int, second: int, microsecond: int)

  predicate ValidDateTime(dt: DateTime) {
    && ValidDate(dt.year, dt.month, dt.day)
    && 0 <= dt.hour < 24 && 0 <= dt.minute < 60 && 0 <= dt.second < 60
    && 0 <= dt.microsecond < 1000000
  }

  /** A Python datetime value: always a real calendar instant. */
  type Stamp = dt: DateTime | ValidDateTime(dt) witness DateTime(1970, 1, 1, 0, 0, 0, 0)

  datatype YMD = YMD(year: int, month: int, day: int)

  // ---------------------------------------------------------------------------
  // Decimal digits

  predicate IsDigit(c: char) { '0' <= c <= '9' }

  function DigitChar(n: int): (c: char)
    requires 0 <= n < 10
    ensures IsDigit(c)
  {
    ('0' as int + n) as char
  }

  function DigitValue(c: char): (n: int)
    requires IsDigit(c)
    ensures 0 <= n < 10 && DigitChar(n) == c
  {
    c as int - '0' as int
  }

  /** Two-digit zero-padded decimal, as strftime's %d and %m write it. */
  function Pad2(n: int): (s: string)
    requires 0 <= n < 100
    ensures |s| == 2 && IsDigit(s[0]) && IsDigit(s[1])
    ensures DigitValue(s[0]) == n / 10 && DigitValue(s[1]) == n % 10
  {
    [DigitChar(n / 10), DigitChar(n % 10)]
  }

  /** Four-digit zero-padded decimal (%Y). */
  function Pad4(n: int): (s: string)
    requires 0 <= n < 10000
    ensures |s| == 4 && forall i :: 0 <= i < 4 ==> IsDigit(s[i])
    ensures Value4(s) == n
  {
    Pad2(n / 100) + Pad2(n % 100)
  }

  function Pad6(n: int): (s: string)
    requires 0 <= n < 1000000
    ensures |s| == 6
  {
    Pad2(n / 10000) + Pad2(n / 100 % 100) + Pad2(n % 100)
  }

  function Value4(s: string): int
    requires |s| == 4 && forall i :: 0 <= i < 4 ==> IsDigit(s[i])
  {
    1000 * DigitValue(s[0]) + 100 * DigitValue(s[1]) + 10 * DigitValue(s[2]) + DigitValue(s[3])
  }

  // ---------------------------------------------------------------------------
  // str(datetime) and strftime

  /** str() of a datetime: "YYYY-MM-DD HH:MM:SS", plus ".ffffff" when there are microseconds. */
  function StrDateTime(dt: Stamp): (s: string)
    ensures |s| >= 19
  {
    Pad4(dt.year) + "-" + Pad2(dt.month) + "-" + Pad2(dt.day) + " "
      + Pad2(dt.hour) + ":" + Pad2(dt.minute) + ":" + Pad2(dt.second)
      + (if dt.microsecond == 0 then "" else "." + Pad6(dt.microsecond))
  }

  /** "YYYY-MM-DD": the shape format_date parses. */
  function IsoDate(y: int, m: int, d: int): (s: string)
    requires ValidDate(y, m, d)
    ensures |s| == 10
  {
    Pad4(y) + "-" + Pad2(m) + "-" + Pad2(d)
  }

  /** strftime("%d-%m-%Y"). */
  function DayMonthYear(y: int, m: int, d: int): (s: string)
    requires ValidDate(y, m, d)
    ensures |s| == 10 && s[2] == '-' && s[5] == '-'
    ensures s[..2] == Pad2(d) && s[3..5] == Pad2(m) && s[6..] == Pad4(y)
  {
    Pad2(d) + "-" + Pad2(m) + "-" + Pad4(y)
  }

  // ---------------------------------------------------------------------------
  // strptime(s, "%Y-%m-%d")
  //
  // The pattern strptime builds is
  //   (?P<Y>\d\d\d\d)-(?P<m>1[0-2]|0[1-9]|[1-9])-(?P<d>3[01]|[12]\d|0[1-9]|[1-9]| [1-9])
  // matched from the start; text left after the match is an error, and so is
  // a date the calendar does not have.

  /**
   * The month group followed by its '-': the alternatives in the pattern's
   * order. A two-character month whose next character is not '-' cannot be
   * rescued by the one-character alternative, since that would need '-' where
   * the second digit stands.
   */
  function MonthToken(r: string): (res: Option<(int, nat)>)
    ensures res.Some? ==> 1 <= res.value.0 <= 12 && 1 <= res.value.1 <= 2 && res.value.1 < |r|
    ensures res.Some? ==> r[res.value.1] == '-'
  {
    if |r| >= 3 && r[0] == '1' && '0' <= r[1] <= '2' && r[2] == '-' then
      Some((10 + DigitValue(r[1]), 2))
    else if |r| >= 3 && r[0] == '0' && '1' <= r[1] <= '9' && r[2] == '-' then
      Some((DigitValue(r[1]), 2))
    else if |r| >= 2 && '1' <= r[0] <= '9' && r[1] == '-' then
      Some((DigitValue(r[0]), 1))
    else
      None
  }

  /**
   * The day group, which must use up the rest of the string. The first
   * alternative that matches a prefix is the one taken, so "35" matches "3"
   * and leaves "5" over, which fails.
   */
  function DayToken(r: string): (res: Option<int>)
    ensures res.Some? ==> 1 <= res.value <= 31 && 1 <= |r| <= 2
  {
    if |r| == 2 && r[0] == '3' && '0' <= r[1] <= '1' then Some(30 + DigitValue(r[1]))
    else if |r| == 2 && '1' <= r[0] <= '2' && IsDigit(r[1]) then Some(10 * DigitValue(r[0]) + DigitValue(r[1]))
    else if |r| == 2 && r[0] == '0' && '1' <= r[1] <= '9' then Some(DigitValue(r[1]))
    else if |r| == 1 && '1' <= r[0] <= '9' then Some(DigitValue(r[0]))
    else if |r| == 2 && r[0] == ' ' && '1' <= r[1] <= '9' then Some(DigitValue(r[1]))
    else None
  }

  /** datetime.strptime(s, "%Y-%m-%d"), or None where it raises. */
  function ParseIsoDate(s: string): (r: Option<YMD>)
    ensures r.Some? ==> 8 <= |s| <= 10
    ensures r.Some? ==> ValidDate(r.value.year, r.value.month, r.value.day)
  {
    if |s| < 7 || !(forall i :: 0 <= i < 4 ==> IsDigit(s[i])) || s[4] != '-' then None
    else
      var y := Value4(s[..4]);
      match MonthToken(s[5..])
      case None => None
      case Some(mt) =>
        match DayToken(s[6 + mt.1..])
        case None => None
        case Some(d) => if ValidDate(y, mt.0, d) then Some(YMD(y, mt.0, d)) else None
  }

  // ---------------------------------------------------------------------------
  // format_date

  /** The values format_date is called with: None, a string, or a datetime. */
  datatype DateInput = NoDate | DateString(s: string) | DateObject(dt: Stamp)

  /** Python truthiness: None and "" are falsy, a datetime never is. */
  predicate Falsy(v: DateInput) {
    v.NoDate? || v == DateString("")
  }

  function FormatDate(v: DateInput): (r: string)
    ensures Falsy(v) ==> r == ""
    ensures !Falsy(v) ==> r != ""
    ensures v.DateObject? ==> r == DayMonthYear(v.dt.year, v.dt.month, v.dt.day)
    ensures v.DateString? && ParseIsoDate(v.s).None? ==> r == v.s
  {
    match v
    case NoDate => ""
    case DateObject(dt) => DayMonthYear(dt.year, dt.month, dt.day)
    case DateString(s) =>
      if s == "" then ""
      else match ParseIsoDate(s)
        case Some(ymd) => DayMonthYear(ymd.year, ymd.month, ymd.day)
        case None => s
  }

  lemma {:induction false} Pad2Parses(n: int)
    requires 1 <= n <= 12
    ensures MonthToken(Pad2(n) + "-").Some? && MonthToken(Pad2(n) + "-").value == (n, 2)
  {
    var p := Pad2(n);
    assert DigitValue(p[1]) == n % 10;
  }

  lemma {:induction false} Pad2DayParses(n: int)
    requires 1 <= n <= 31
    ensures DayToken(Pad2(n)) == Some(n)
  {
    var p := Pad2(n);
    assert DigitValue(p[0]) == n / 10 && DigitValue(p[1]) == n % 10;
  }

  /** strptime reads back exactly the date an ISO string was written from. */
  lemma {:induction false} ParseIsoDateRoundTrip(y: int, m: int, d: int)
    requires ValidDate(y, m, d)
    ensures ParseIsoDate(IsoDate(y, m, d)) == Some(YMD(y, m, d))
  {
    var s := IsoDate(y, m, d);
    assert s[..4] == Pad4(y);
    assert s[5..] == Pad2(m) + "-" + Pad2(d);
    Pad2Parses(m);
    assert s[5..][..3] == Pad2(m) + "-";
    assert MonthToken(s[5..]) == MonthToken(Pad2(m) + "-");
    assert s[8..] == Pad2(d);
    Pad2DayParses(d);
  }

  /** A "YYYY-MM-DD" string of a real date comes back as "DD-MM-YYYY" of the same date. */
  lemma {:induction false} FormatIsoDate(y: int, m: int, d: int)
    requires ValidDate(y, m, d)
    ensures FormatDate(DateString(IsoDate(y, m, d))) == DayMonthYear(y, m, d)
  {
    ParseIsoDateRoundTrip(y, m, d);
  }

  /**
   * str() of a datetime carries a time part, which strptime leaves over, so
   * format_date hands such a string back unchanged.
   */
  lemma {:induction false} FormatStrOfDateTimeUnchanged(dt: Stamp)
    ensures FormatDate(DateString(StrDateTime(dt))) == StrDateTime(dt)
  {
  }

  /** 29 February of a common year is not a date: the string is returned as given. */
  lemma {:induction false} FormatCommonYearLeapDay()
    ensures FormatDate(DateString("2023-02-29")) == "2023-02-29"
  {
    var s := "2023-02-29";
    assert Value4(s[..4]) == 2023;
    assert s[5..] == "02-29";
    assert MonthToken(s[5..]) == Some((2, 2));
    assert s[8..] == "29";
    assert DayToken(s[8..]) == Some(29);
    assert !ValidDate(2023, 2, 29);
  }

  /** In a leap year the same day is reformatted. */
  lemma {:induction false} FormatLeapYearLeapDay()
    ensures FormatDate(DateString("2024-02-29")) == "29-02-2024"
  {
    var s := "2024-02-29";
    assert Value4(s[..4]) == 2024;
    assert s[5..] == "02-29";
    assert MonthToken(s[5..]) == Some((2, 2));
    assert s[8..] == "29";
    assert DayToken(s[8..]) == Some(29);
    assert ValidDate(2024, 2, 29);
    assert DayMonthYear(2024, 2, 29) == "29-02-2024";
  }
}
