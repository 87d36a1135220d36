/**
 * The calendar arithmetic the bot gets from moment: day numbers, adding days,
 * months and years to a `YYYY-MM-DD` date, and `diff(…, 'days')`.
 */
module Calendar {
  import opened Wrappers
  import opened JsText
  import opened Database

  predicate Leap(year: int)
  {
    (year % 4 == 0 && year % 100 != 0) || year % 400 == 0
  }

  /** Days in the months of `year` before `month` (1 to 12; no days for any other month). */
  function DaysBeforeMonth(year: int, month: int): (n: int)
    ensures n >= 0
  {
    var cumulative := [0, 31, 59, 90, 120, 151, 181, 212, 243, 273, 304, 334];
    if 1 <= month <= 12 then cumulative[month - 1] + (if month > 2 && Leap(year) then 1 else 0) else 0
  }

  /** Each month starts where the one before it ends. */
  lemma MonthStep(year: int, month: int)
    requires 1 <= month < 12
    ensures DaysBeforeMonth(year, month + 1) == DaysBeforeMonth(year, month) + DaysInMonth(year, month)
  {
  }

  function YearLength(year: int): (n: int)
    ensures n == DaysBeforeMonth(year, 12) + DaysInMonth(year, 12)
  {
    if Leap(year) then 366 else 365
  }

  /** Days in the years from 1 up to `year`, excluding it: 365 or 366 for each. */
  function DaysBeforeYear(year: int): (n: int)
    ensures year <= 1 ==> n == 0
    ensures year > 1 ==> 365 * (year - 1) <= n <= 366 * (year - 1)
    decreases if year > 1 then year else 0
  {
    if year <= 1 then 0 else DaysBeforeYear(year - 1) + YearLength(year - 1)
  }

  /** The number of a day, counting 1 January of year 1 as day 1. */
  function DayNumber(d: Date): int
  {
    DaysBeforeYear(d.year) + DaysBeforeMonth(d.year, d.month) + d.day
  }

  /** The following day. */
  function NextDay(d: Date): (r: Date)
    requires ValidDate(d)
    ensures ValidDate(r)
    ensures d.year >= 1 ==> r.year >= 1 && DayNumber(r) == DayNumber(d) + 1
  {
    if d.day < DaysInMonth(d.year, d.month) then d.(day := d.day + 1)
    else if d.month < 12 then MonthStep(d.year, d.month); Date(d.year, d.month + 1, 1)
    else Date(d.year + 1, 1, 1)
  }

  /** `add(n, 'days')`. */
  function AddDays(d: Date, n: nat): (r: Date)
    requires ValidDate(d)
    ensures ValidDate(r)
    ensures d.year >= 1 ==> r.year >= 1 && DayNumber(r) == DayNumber(d) + n
    decreases n
  {
    if n == 0 then d else AddDays(NextDay(d), n - 1)
  }

  /** `add(1, 'month')`: the same day next month, or that month's last day when it is shorter. */
  function AddMonth(d: Date): (r: Date)
    requires ValidDate(d)
    ensures ValidDate(r)
    ensures r.month == (if d.month == 12 then 1 else d.month + 1)
    ensures r.year == (if d.month == 12 then d.year + 1 else d.year)
    ensures r.day == (if d.day <= DaysInMonth(r.year, r.month) then d.day else DaysInMonth(r.year, r.month))
  {
    var y := if d.month == 12 then d.year + 1 else d.year;
    var m := if d.month == 12 then 1 else d.month + 1;
    Date(y, m, if d.day <= DaysInMonth(y, m) then d.day else DaysInMonth(y, m))
  }

  /** `add(1, 'year')`: the same day next year; 29 February becomes 28 February. */
  function AddYear(d: Date): (r: Date)
    requires ValidDate(d)
    ensures ValidDate(r)
    ensures r.year == d.year + 1 && r.month == d.month
    ensures r.day == (if d.day <= DaysInMonth(r.year, r.month) then d.day else DaysInMonth(r.year, r.month))
  {
    var m := d.month;
    Date(d.year + 1, m, if d.day <= DaysInMonth(d.year + 1, m) then d.day else DaysInMonth(d.year + 1, m))
  }

  /** A month later is a later day. */
  lemma AddMonthLater(d: Date)
    requires ValidDate(d) && d.year >= 1
    ensures DayNumber(AddMonth(d)) > DayNumber(d)
  {
    if d.month == 12 {
      DecemberLater(d);
    } else {
      SameYearLater(d);
    }
  }

  lemma DecemberLater(d: Date)
    requires ValidDate(d) && d.year >= 1 && d.month == 12
    ensures DayNumber(AddMonth(d)) > DayNumber(d)
  {
    YearStep(d.year);
    MonthEnd(d.year, 12);
  }

  lemma SameYearLater(d: Date)
    requires ValidDate(d) && d.month < 12
    ensures DayNumber(AddMonth(d)) > DayNumber(d)
  {
    MonthStep(d.year, d.month);
  }

  /** A year later is a later day. */
  lemma AddYearLater(d: Date)
    requires ValidDate(d) && d.year >= 1
    ensures DayNumber(AddYear(d)) > DayNumber(d)
  {
    YearStep(d.year);
    SameMonthClose(d.year, d.year + 1, d.month);
    ClampedDay(d.day, DaysInMonth(d.year, d.month), DaysInMonth(d.year + 1, d.month));
  }

  /** A day clamped to a month at most one day shorter loses at most one day. */
  lemma ClampedDay(day: int, len: int, len2: int)
    requires day <= len && len2 >= len - 1
    ensures (if day <= len2 then day else len2) >= day - 1
  {
  }

  /** A year has at least 365 days. */
  lemma YearStep(year: int)
    requires year >= 1
    ensures DaysBeforeYear(year + 1) == DaysBeforeYear(year) + YearLength(year) && YearLength(year) >= 365
  {
  }

  /** In any two years the same month starts within a day, and is at most a day shorter. */
  lemma SameMonthClose(y1: int, y2: int, month: int)
    ensures DaysBeforeMonth(y2, month) >= DaysBeforeMonth(y1, month) - 1
    ensures DaysInMonth(y2, month) >= DaysInMonth(y1, month) - 1
  {
  }

  /**
   * `moment(due).diff(moment(), 'days')` as written: the time from `now` to the
   * due day's midnight, in whole days truncated toward zero.
   */
  function DaysLeftAsWritten(due: Date, now: Timestamp): int
  {
    var seconds := (DayNumber(due) - DayNumber(now.date)) * 86400 - now.second;
    if seconds >= 0 then seconds / 86400 else -((-seconds) / 86400)
  }

  /** Calendar days from today to the due day. */
  function DaysLeft(due: Date, today: Date): int
  {
    DayNumber(due) - DayNumber(today)
  }

  /** For a day not yet past, the truncated difference lies between 0 and the calendar difference. */
  lemma DaysLeftAsWrittenBounds(due: Date, now: Timestamp)
    requires now.second < 86400 && DaysLeft(due, now.date) >= 0
    ensures 0 <= DaysLeftAsWritten(due, now) <= DaysLeft(due, now.date)
  {
    var n := DaysLeft(due, now.date);
    var seconds := n * 86400 - now.second;
    if seconds >= 0 {
      assert seconds <= n * 86400;
      DivBetweenAtMost(seconds, n);
    } else {
      assert n == 0 && -seconds < 86400;
    }
  }

  lemma DivBetweenAtMost(x: int, n: int)
    requires 0 <= x <= n * 86400
    ensures 0 <= x / 86400 <= n
  {
  }

  /**
   * The truncated difference is one less than the calendar difference for every
   * future day once the current day has begun, and equal to it otherwise.
   */
  lemma DaysLeftAsWrittenShift(due: Date, now: Timestamp)
    requires 0 < now.second < 86400
    ensures DaysLeft(due, now.date) >= 1 ==> DaysLeftAsWritten(due, now) == DaysLeft(due, now.date) - 1
    ensures DaysLeft(due, now.date) <= 0 ==> DaysLeftAsWritten(due, now) == DaysLeft(due, now.date)
  {
    var n := DaysLeft(due, now.date);
    var seconds := n * 86400 - now.second;
    if n >= 1 {
      assert (n - 1) * 86400 <= seconds < n * 86400;
      DivBetween(seconds, n - 1);
    } else {
      assert (-n) * 86400 <= -seconds < (-n + 1) * 86400;
      DivBetween(-seconds, -n);
    }
  }

  lemma DivBetween(x: int, q: int)
    requires q >= 0 && q * 86400 <= x < (q + 1) * 86400
    ensures x / 86400 == q
  {
  }

  /** A month ends no later than its year. */
  lemma MonthEnd(year: int, month: int)
    requires 1 <= month <= 12
    ensures DaysBeforeMonth(year, month) + DaysInMonth(year, month) <= YearLength(year)
  {
  }

  /** A month ends no later than any later month of the same year begins. */
  lemma MonthsIncrease(year: int, m1: int, m2: int)
    requires 1 <= m1 < m2 <= 12
    ensures DaysBeforeMonth(year, m1) + DaysInMonth(year, m1) <= DaysBeforeMonth(year, m2)
  {
  }

  /** A year ends no later than any later year begins. */
  lemma {:induction false} YearsIncrease(y1: int, y2: int)
    requires 1 <= y1 < y2
    ensures DaysBeforeYear(y1) + YearLength(y1) <= DaysBeforeYear(y2)
    decreases y2 - y1
  {
    if y1 + 1 < y2 {
      YearsIncrease(y1 + 1, y2);
    }
  }

  /** Between valid dates, a smaller `YYYY-MM-DD` text is an earlier day. */
  lemma DateKeyBefore(a: Date, b: Date)
    requires ValidDate(a) && ValidDate(b) && a.year >= 1 && b.year >= 1
    requires DateKey(a) < DateKey(b)
    ensures DayNumber(a) < DayNumber(b)
  {
    KeyCases(a, b);
    if a.year < b.year {
      MonthEnd(a.year, a.month);
      YearsIncrease(a.year, b.year);
    } else if a.month < b.month {
      MonthsIncrease(a.year, a.month, b.month);
    }
  }

  lemma YearGap(x: int, y: int)
    ensures x > y ==> x * 10000 >= y * 10000 + 10000
  {
  }

  lemma MonthGap(x: int, y: int)
    ensures x > y ==> x * 100 >= y * 100 + 100
  {
  }

  /** A smaller key means an earlier year, or the same year and an earlier month, or the same month and an earlier day. */
  lemma KeyCases(a: Date, b: Date)
    requires ValidDate(a) && ValidDate(b) && DateKey(a) < DateKey(b)
    ensures a.year < b.year || (a.year == b.year && (a.month < b.month || (a.month == b.month && a.day < b.day)))
  {
    var ka, kb := a.month * 100 + a.day, b.month * 100 + b.day;
    assert 101 <= ka < 10000 && 101 <= kb < 10000;
    YearGap(a.year, b.year);
    MonthGap(a.month, b.month);
  }

  /** The text order of valid dates is their calendar order. */
  lemma DateKeyOrder(a: Date, b: Date)
    requires ValidDate(a) && ValidDate(b) && a.year >= 1 && b.year >= 1
    ensures DateKey(a) <= DateKey(b) <==> DayNumber(a) <= DayNumber(b)
  {
    if DateKey(a) < DateKey(b) {
      DateKeyBefore(a, b);
    } else if DateKey(b) < DateKey(a) {
      DateKeyBefore(b, a);
    } else {
      DateKeySame(a, b);
    }
  }

  /** Valid dates with the same text are the same date. */
  lemma DateKeySame(a: Date, b: Date)
    requires ValidDate(a) && ValidDate(b) && DateKey(a) == DateKey(b)
    ensures a == b
  {
    assert a.year == b.year;
    assert a.month == b.month;
  }

  /** A number as `YYYY` shows it: at least four digits, zero-padded. */
  function Year4(y: nat): (r: string)
    ensures AllDigits(r) && DigitsValue(r) == y
    ensures y <= 9999 ==> |r| == 4
  {
    var t := NatText(y);
    if |t| >= 4 then
      assert y <= 9999 ==> |t| <= 4 by {
        if y <= 9999 { TextWithin(y, 4); }
      }
      t
    else
      LeadingZeros(seq(4 - |t|, _ => '0'), t);
      seq(4 - |t|, _ => '0') + t
  }

  /** `format('YYYY-MM-DD')` of a day of the years 0 to 9999. */
  function FormatDate(d: Date): (s: string)
    requires ValidDate(d) && 0 <= d.year <= 9999
    ensures |s| == 10 && s[4] == '-' && s[7] == '-'
  {
    NatTextShort(d.month);
    NatTextShort(d.day);
    var y, m, dd := Year4(d.year), PadStart2(NatText(d.month)), PadStart2(NatText(d.day));
    DashedParts(y, m, dd);
    y + "-" + m + "-" + dd
  }

  /**
   * `moment(s, 'YYYY-MM-DD').isValid()` read strictly: four digits, a dash,
   * two digits, a dash, two digits, naming an existing calendar day.
   */
  function ParseDate(s: string): (r: Option<Date>)
    ensures r.Some? ==> ValidDate(r.value) && 0 <= r.value.year <= 9999
    ensures r.Some? ==> |s| == 10 && s[4] == '-' && s[7] == '-'
  {
    if |s| == 10 && s[4] == '-' && s[7] == '-' && AllDigits(s[..4]) && AllDigits(s[5..7]) && AllDigits(s[8..]) then
      DigitsBound(s[..4]);
      var d := Date(DigitsValue(s[..4]), DigitsValue(s[5..7]), DigitsValue(s[8..]));
      if ValidDate(d) then Some(d) else None
    else None
  }

  /** Reading back a formatted day gives that day. */
  lemma ParseFormatted(d: Date)
    requires ValidDate(d) && 0 <= d.year <= 9999
    ensures ParseDate(FormatDate(d)) == Some(d)
  {
    var y := Year4(d.year);
    NatTextShort(d.month);
    NatTextShort(d.day);
    var m := PadStart2(NatText(d.month));
    var dd := PadStart2(NatText(d.day));
    PadStart2Value(NatText(d.month));
    PadStart2Value(NatText(d.day));
    DashedParts(y, m, dd);
    assert FormatDate(d) == y + "-" + m + "-" + dd;
  }

  /** The three parts of a dashed date text sit at fixed places. */
  lemma DashedParts(y: string, m: string, dd: string)
    requires |y| == 4 && |m| == 2 && |dd| == 2
    ensures var s := y + "-" + m + "-" + dd;
            |s| == 10 && s[4] == '-' && s[7] == '-' && s[..4] == y && s[5..7] == m && s[8..] == dd
  {
  }

  /** Two days with the same text are the same day: formatting loses nothing. */
  lemma FormatInjective(a: Date, b: Date)
    requires ValidDate(a) && 0 <= a.year <= 9999 && ValidDate(b) && 0 <= b.year <= 9999
    requires FormatDate(a) == FormatDate(b)
    ensures a == b
  {
    ParseFormatted(a);
    ParseFormatted(b);
  }

  /**
   * `moment().subtract(i, 'months')` as a (year, month) pair: `i` months back,
   * across year ends.
   */
  function MonthsBack(year: int, month: int, i: nat): (r: (int, int))
    requires 1 <= month <= 12
    ensures 1 <= r.1 <= 12
    ensures r.0 * 12 + r.1 == year * 12 + month - i
  {
    var t := year * 12 + (month - 1) - i;
    (t / 12, t % 12 + 1)
  }

  /** Distinct counts of months back are distinct months. */
  lemma MonthsBackDistinct(year: int, month: int, i: nat, j: nat)
    requires 1 <= month <= 12 && i != j
    ensures MonthsBack(year, month, i) != MonthsBack(year, month, j)
  {
  }
}
