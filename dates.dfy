/** Civil dates of the proleptic Gregorian calendar as Python's `datetime`
    counts them: years 1 to 9999, the ordinal of 0001-01-01 is 1, and
    `weekday()` is 0 on Mondays. Also `strptime` with the format
    "%Y-%m-%d". */
module Dates {
  import opened Common

  datatype Date = Date(year: int, month: int, day: int)

  /** A time of day on a date, to the microsecond. */
  datatype DateTime = DateTime(date: Date, hour: int, minute: int, second: int, micro: int)

  predicate IsLeap(y: int) {
    y % 4 == 0 && (y % 100 != 0 || y % 400 == 0)
  }

  function DaysInMonth(y: int, m: int): (n: int)
    requires 1 <= m <= 12
    ensures 28 <= n <= 31
  {
    if m == 2 then (if IsLeap(y) then 29 else 28)
    else if m == 4 || m == 6 || m == 9 || m == 11 then 30
    else 31
  }

  predicate ValidDate(d: Date) {
    1 <= d.year <= 9999 && 1 <= d.month <= 12 && 1 <= d.day <= DaysInMonth(d.year, d.month)
  }

  predicate ValidDateTime(t: DateTime) {
    ValidDate(t.date) && 0 <= t.hour < 24 && 0 <= t.minute < 60 && 0 <= t.second < 60
    && 0 <= t.micro < 1000000
  }

  /** Days in the years before `y`. */
  function DaysBeforeYear(y: int): int
    requires y >= 1
  {
    var p := y - 1;
    365 * p + p / 4 - p / 100 + p / 400
  }

  /** Days in the months of year `y` before month `m`. */
  function DaysBeforeMonth(y: int, m: int): (n: int)
    requires 1 <= m <= 12
    ensures 0 <= n <= 31 * (m - 1)
  {
    if m == 1 then 0 else DaysBeforeMonth(y, m - 1) + DaysInMonth(y, m - 1)
  }

  /** `date.toordinal()`. */
  function Ordinal(d: Date): int
    requires ValidDate(d)
  {
    DaysBeforeYear(d.year) + DaysBeforeMonth(d.year, d.month) + d.day
  }

  /** `date.weekday()`: Monday is 0, Sunday 6. */
  function Weekday(d: Date): (w: int)
    requires ValidDate(d)
    ensures 0 <= w < 7
  {
    (Ordinal(d) + 6) % 7
  }

  lemma DivStep(q: int, k: int)
    requires q >= 1 && (k == 4 || k == 100 || k == 400)
    ensures q / k - (q - 1) / k == (if q % k == 0 then 1 else 0)
  {
    var b := (q - 1) / k;
    var r := (q - 1) % k;
    assert q == k * b + r + 1;
    if r + 1 == k {
      assert q == k * (b + 1);
    }
  }

  /** A year has 365 days, 366 in a leap year. */
  lemma YearLength(y: int)
    requires y >= 2
    ensures DaysBeforeYear(y) == DaysBeforeYear(y - 1) + (if IsLeap(y - 1) then 366 else 365)
  {
    var q := y - 1;
    DivStep(q, 4);
    DivStep(q, 100);
    DivStep(q, 400);
    if q % 400 == 0 {
      assert q % 100 == 0 && q % 4 == 0;
    } else if q % 100 == 0 {
      assert q % 4 == 0;
    }
  }

  lemma MonthsOfYear(y: int)
    ensures DaysBeforeMonth(y, 12) + 31 == (if IsLeap(y) then 366 else 365)
  {
    assert DaysBeforeMonth(y, 2) == 31;
    assert DaysBeforeMonth(y, 3) == 31 + DaysInMonth(y, 2);
    assert DaysBeforeMonth(y, 4) == 62 + DaysInMonth(y, 2);
    assert DaysBeforeMonth(y, 5) == 92 + DaysInMonth(y, 2);
    assert DaysBeforeMonth(y, 6) == 123 + DaysInMonth(y, 2);
    assert DaysBeforeMonth(y, 7) == 153 + DaysInMonth(y, 2);
    assert DaysBeforeMonth(y, 8) == 184 + DaysInMonth(y, 2);
    assert DaysBeforeMonth(y, 9) == 215 + DaysInMonth(y, 2);
    assert DaysBeforeMonth(y, 10) == 245 + DaysInMonth(y, 2);
    assert DaysBeforeMonth(y, 11) == 276 + DaysInMonth(y, 2);
    assert DaysBeforeMonth(y, 12) == 306 + DaysInMonth(y, 2);
  }

  /** The day before a date other than 0001-01-01. */
  function PrevDay(d: Date): (r: Date)
    requires ValidDate(d) && Ordinal(d) > 1
  {
    if d.day > 1 then Date(d.year, d.month, d.day - 1)
    else if d.month > 1 then Date(d.year, d.month - 1, DaysInMonth(d.year, d.month - 1))
    else Date(d.year - 1, 12, 31)
  }

  lemma PrevDaySpec(d: Date)
    requires ValidDate(d) && Ordinal(d) > 1
    ensures ValidDate(PrevDay(d)) && Ordinal(PrevDay(d)) == Ordinal(d) - 1
  {
    if d.day == 1 && d.month == 1 {
      assert d.year >= 2;
      YearLength(d.year);
      MonthsOfYear(d.year - 1);
    }
  }

  lemma OrdinalPositive(d: Date)
    requires ValidDate(d)
    ensures Ordinal(d) >= 1
  {
  }

  /** `d - timedelta(days=n)`. */
  function DaysBack(d: Date, n: nat): (r: Date)
    requires ValidDate(d) && n < Ordinal(d)
    decreases n
  {
    if n == 0 then d
    else
      PrevDaySpec(d);
      DaysBack(PrevDay(d), n - 1)
  }

  lemma {:induction false} DaysBackSpec(d: Date, n: nat)
    requires ValidDate(d) && n < Ordinal(d)
    ensures ValidDate(DaysBack(d, n)) && Ordinal(DaysBack(d, n)) == Ordinal(d) - n
    decreases n
  {
    if n > 0 {
      PrevDaySpec(d);
      DaysBackSpec(PrevDay(d), n - 1);
    }
  }

  lemma WeekdayBelowOrdinal(d: Date)
    requires ValidDate(d)
    ensures Weekday(d) < Ordinal(d)
  {
    OrdinalPositive(d);
    ModBelow(Ordinal(d));
  }

  lemma ModBelow(o: int)
    requires o >= 1
    ensures (o + 6) % 7 < o
  {
    if o <= 7 {
      assert (o + 6) % 7 == o - 1;
    }
  }

  /** The Monday that starts the week of `d`. */
  function WeekStart(d: Date): Date
    requires ValidDate(d)
  {
    WeekdayBelowOrdinal(d);
    DaysBack(d, Weekday(d))
  }

  /** Stepping back from ordinal `o` by its weekday lands on a Monday. */
  lemma MondayAfterStepBack(o: int, start: int)
    requires o >= 1 && start == o - (o + 6) % 7
    ensures (start + 6) % 7 == 0
  {
    var q := (o + 6) / 7;
    assert o + 6 == 7 * q + (o + 6) % 7;
    assert start + 6 == 7 * q;
  }

  /** The week starts on a Monday, at most six days back. */
  lemma WeekStartSpec(d: Date)
    requires ValidDate(d)
    ensures var s := WeekStart(d);
      ValidDate(s) && Weekday(s) == 0 && Ordinal(d) - 6 <= Ordinal(s) <= Ordinal(d)
  {
    WeekdayBelowOrdinal(d);
    DaysBackSpec(d, Weekday(d));
    MondayOf(d, WeekStart(d));
  }

  /** The date `Weekday(d)` days before `d` is a Monday. */
  lemma MondayOf(d: Date, s: Date)
    requires ValidDate(d) && ValidDate(s) && Ordinal(s) == Ordinal(d) - Weekday(d)
    ensures Weekday(s) == 0
  {
    OrdinalPositive(d);
    MondayAfterStepBack(Ordinal(d), Ordinal(s));
  }

  // ---------------------------------------------------------------------------
  // strptime(s, "%Y-%m-%d")

  predicate IsDigit(c: char) {
    '0' <= c <= '9'
  }

  function DigitValue(c: char): (n: int)
    requires IsDigit(c)
    ensures 0 <= n <= 9
  {
    c as int - '0' as int
  }

  /** The month field, `1[0-2]|0[1-9]|[1-9]`: the first alternative that
      matches the front of `s`, as the value and the width. */
  function MonthField(s: string): Option<(int, nat)> {
    if |s| >= 2 && s[0] == '1' && '0' <= s[1] <= '2' then Some((10 + DigitValue(s[1]), 2))
    else if |s| >= 2 && s[0] == '0' && '1' <= s[1] <= '9' then Some((DigitValue(s[1]), 2))
    else if |s| >= 1 && '1' <= s[0] <= '9' then Some((DigitValue(s[0]), 1))
    else None
  }

  /** The day field, `3[01]|[12]\d|0[1-9]|[1-9]| [1-9]`, the same way. */
  function DayField(s: string): Option<(int, nat)> {
    if |s| >= 2 && s[0] == '3' && '0' <= s[1] <= '1' then Some((30 + DigitValue(s[1]), 2))
    else if |s| >= 2 && '1' <= s[0] <= '2' && IsDigit(s[1]) then Some((10 * DigitValue(s[0]) + DigitValue(s[1]), 2))
    else if |s| >= 2 && s[0] == '0' && '1' <= s[1] <= '9' then Some((DigitValue(s[1]), 2))
    else if |s| >= 1 && '1' <= s[0] <= '9' then Some((DigitValue(s[0]), 1))
    else if |s| >= 2 && s[0] == ' ' && '1' <= s[1] <= '9' then Some((DigitValue(s[1]), 2))
    else None
  }

  /** `datetime.strptime(s, "%Y-%m-%d").date()`, or None where it raises
      `ValueError`: the text does not match, text remains after the day, or
      the fields name no date. The year is exactly four digits. */
  function ParseYmd(s: string): (r: Option<Date>)
    ensures r.Some? ==> ValidDate(r.value)
  {
    if |s| < 5 || !IsDigit(s[0]) || !IsDigit(s[1]) || !IsDigit(s[2]) || !IsDigit(s[3]) || s[4] != '-' then None
    else
      var year := 1000 * DigitValue(s[0]) + 100 * DigitValue(s[1]) + 10 * DigitValue(s[2]) + DigitValue(s[3]);
      match MonthField(s[5..])
      case None => None
      case Some((month, w)) =>
        var rest := s[5 + w..];
        if rest == [] || rest[0] != '-' then None
        else
          match DayField(rest[1..])
          case None => None
          case Some((day, v)) =>
            if |rest[1..]| != v then None
            else if ValidDate(Date(year, month, day)) then Some(Date(year, month, day))
            else None
  }

  /** Two decimal digits. */
  function Pad2(n: int): (r: string)
    requires 0 <= n < 100
    ensures |r| == 2
  {
    [DigitChar(n / 10), DigitChar(n % 10)]
  }

  /** `date.strftime("%Y-%m-%d")` for a year of four digits, whose digits
      are peeled off one at a time. */
  function FormatYmd(d: Date): (r: string)
    requires ValidDate(d) && d.year >= 1000
    ensures |r| == 10
  {
    [DigitChar(d.year / 10 / 10 / 10), DigitChar(d.year / 10 / 10 % 10), DigitChar(d.year / 10 % 10), DigitChar(d.year % 10)]
    + "-" + Pad2(d.month) + "-" + Pad2(d.day)
  }

  lemma DigitCharValue(n: nat)
    requires n < 10
    ensures IsDigit(DigitChar(n)) && DigitValue(DigitChar(n)) == n
  {
  }

  lemma YearDigits(y: int)
    requires 1000 <= y <= 9999
    ensures 1000 * (y / 10 / 10 / 10) + 100 * (y / 10 / 10 % 10) + 10 * (y / 10 % 10) + y % 10 == y
    ensures y / 10 / 10 / 10 < 10
  {
    var a := y / 10;
    var b := a / 10;
    assert y == 10 * a + y % 10;
    assert a == 10 * b + a % 10;
    assert b == 10 * (b / 10) + b % 10;
  }

  lemma FieldsOfPad2(n: int)
    requires 1 <= n <= 31
    ensures n <= 12 ==> MonthField(Pad2(n)) == Some((n, 2))
    ensures DayField(Pad2(n)) == Some((n, 2))
  {
    DigitCharValue(n / 10);
    DigitCharValue(n % 10);
  }

  lemma MonthFieldAfter(m: int, tail: string)
    requires 1 <= m <= 12
    ensures MonthField(Pad2(m) + tail) == Some((m, 2))
  {
    FieldsOfPad2(m);
    var s := Pad2(m) + tail;
    assert s[0] == Pad2(m)[0] && s[1] == Pad2(m)[1];
  }

  /** A date written with four-digit year, month and day parses back. */
  lemma ParseFormat(d: Date)
    requires ValidDate(d) && d.year >= 1000
    ensures ParseYmd(FormatYmd(d)) == Some(d)
  {
    var s := FormatYmd(d);
    var y := d.year;
    YearDigits(y);
    DigitCharValue(y / 10 / 10 / 10);
    DigitCharValue(y / 10 / 10 % 10);
    DigitCharValue(y / 10 % 10);
    DigitCharValue(y % 10);
    var tail := "-" + Pad2(d.day);
    assert s[5..] == Pad2(d.month) + tail;
    MonthFieldAfter(d.month, tail);
    var rest := s[7..];
    assert rest == tail;
    assert rest[1..] == Pad2(d.day);
    FieldsOfPad2(d.day);
  }
}
