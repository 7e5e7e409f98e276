/**
 * The proleptic Gregorian calendar the reports rely on (Python's `date`,
 * `date.toordinal()` and `calendar.monthrange`): a date is its ordinal, the
 * day number counted from 0001-01-01 = 1, so day differences are plain
 * subtraction.
 */
module Calendar {
  import opened Wrappers
  import opened Text
  import opened Numbers

  const MIN_YEAR := 1
  const MAX_YEAR := 9999

  predicate IsLeap(y: int)
  {
    y % 4 == 0 && (y % 100 != 0 || y % 400 == 0)
  }

  function YearLength(y: int): int
  {
    if IsLeap(y) then 366 else 365
  }

  /** `calendar.monthrange(y, m)[1]`: the number of days of the month. */
  function DaysInMonth(y: int, m: int): (n: int)
    requires 1 <= m <= 12
    ensures 28 <= n <= 31
    ensures m == 2 ==> (n == 29 <==> IsLeap(y))
    ensures m != 2 ==> n >= 30
  {
    if m == 2 then (if IsLeap(y) then 29 else 28)
    else if m == 4 || m == 6 || m == 9 || m == 11 then 30
    else 31
  }

  /** The days of the year that come before the first of month `m` (13: the whole year). */
  function DaysBeforeMonth(y: int, m: int): int
    requires 1 <= m <= 13
  {
    if m == 1 then 0 else DaysBeforeMonth(y, m - 1) + DaysInMonth(y, m - 1)
  }

  /** The twelve months fill the year exactly. */
  lemma MonthsFillYear(y: int)
    ensures DaysBeforeMonth(y, 13) == YearLength(y)
  {
    var feb := DaysInMonth(y, 2);
    assert DaysBeforeMonth(y, 1) == 0;
    assert DaysBeforeMonth(y, 2) == 31;
    assert DaysBeforeMonth(y, 3) == 31 + feb;
    assert DaysBeforeMonth(y, 4) == 62 + feb;
    assert DaysBeforeMonth(y, 5) == 92 + feb;
    assert DaysBeforeMonth(y, 6) == 123 + feb;
    assert DaysBeforeMonth(y, 7) == 153 + feb;
    assert DaysBeforeMonth(y, 8) == 184 + feb;
    assert DaysBeforeMonth(y, 9) == 215 + feb;
    assert DaysBeforeMonth(y, 10) == 245 + feb;
    assert DaysBeforeMonth(y, 11) == 276 + feb;
    assert DaysBeforeMonth(y, 12) == 306 + feb;
  }

  /** The days from 0001-01-01 up to the first of January of year `y`. */
  function DaysBeforeYear(y: int): int
    requires y >= MIN_YEAR
  {
    var p := y - 1;
    p * 365 + p / 4 - p / 100 + p / 400
  }

  /** Moving from `y - 1` to `y` adds one to `y / k` exactly when `k` divides `y` (for the leap-year divisors). */
  lemma DivStep(y: int, k: int)
    requires y >= 1 && (k == 4 || k == 100 || k == 400)
    ensures y / k == (y - 1) / k + (if y % k == 0 then 1 else 0)
  {
    if k == 4 {
      assert y / 4 == (y - 1) / 4 + (if y % 4 == 0 then 1 else 0);
    } else if k == 100 {
      assert y / 100 == (y - 1) / 100 + (if y % 100 == 0 then 1 else 0);
    } else {
      assert y / 400 == (y - 1) / 400 + (if y % 400 == 0 then 1 else 0);
    }
  }

  /** A multiple of 400 is a multiple of 100. */
  lemma Century(y: int)
    requires y % 400 == 0
    ensures y % 100 == 0
  {
    var q := y / 400;
    assert y == 100 * (4 * q);
  }

  /** A multiple of 100 is a multiple of 4. */
  lemma LeapOfCentury(y: int)
    requires y % 100 == 0
    ensures y % 4 == 0
  {
    var q := y / 100;
    assert y == 4 * (25 * q);
  }

  /** Each year starts right after the previous one ends. */
  lemma YearsFollow(y: int)
    requires y >= MIN_YEAR
    ensures DaysBeforeYear(y + 1) == DaysBeforeYear(y) + YearLength(y)
  {
    DivStep(y, 4);
    DivStep(y, 100);
    DivStep(y, 400);
    if y % 400 == 0 {
      Century(y);
    }
    if y % 100 == 0 {
      LeapOfCentury(y);
    }
    var leaps, leapsBefore := y / 4 - y / 100 + y / 400, (y - 1) / 4 - (y - 1) / 100 + (y - 1) / 400;
    assert leaps == leapsBefore + (if IsLeap(y) then 1 else 0);
  }

  predicate ValidDate(y: int, m: int, d: int)
  {
    MIN_YEAR <= y <= MAX_YEAR && 1 <= m <= 12 && 1 <= d <= DaysInMonth(y, m)
  }

  /** `date(y, m, d).toordinal()`. */
  function Ordinal(y: int, m: int, d: int): int
    requires ValidDate(y, m, d)
  {
    DaysBeforeYear(y) + DaysBeforeMonth(y, m) + d
  }

  /** `_month_bounds`: the first and the last day of the month. */
  function MonthBounds(y: int, m: int): (b: (int, int))
    requires MIN_YEAR <= y <= MAX_YEAR && 1 <= m <= 12
    ensures b.0 == Ordinal(y, m, 1) && b.1 == Ordinal(y, m, DaysInMonth(y, m))
  {
    (Ordinal(y, m, 1), Ordinal(y, m, DaysInMonth(y, m)))
  }

  /** The bounds span exactly the month's days: 28 to 31 of them, each day of the month inside. */
  lemma MonthBoundsSpanMonth(y: int, m: int, d: int)
    requires MIN_YEAR <= y <= MAX_YEAR && 1 <= m <= 12
    ensures var b := MonthBounds(y, m); 28 <= b.1 - b.0 + 1 == DaysInMonth(y, m) <= 31
    ensures 1 <= d <= DaysInMonth(y, m) ==>
              MonthBounds(y, m).0 <= Ordinal(y, m, d) <= MonthBounds(y, m).1
  {
  }

  /** The day after a month's last day is the first of the next month: months tile the calendar. */
  lemma NextMonthFollows(y: int, m: int)
    requires MIN_YEAR <= y <= MAX_YEAR && 1 <= m <= 12
    requires m == 12 ==> y < MAX_YEAR
    ensures var next := if m == 12 then MonthBounds(y + 1, 1) else MonthBounds(y, m + 1);
            next.0 == MonthBounds(y, m).1 + 1
  {
    if m == 12 {
      YearsFollow(y);
      MonthsFillYear(y);
    }
  }

  // ---------------------------------------------------------------- strptime

  /** `%m` of `strptime`: one or two digits naming a month. */
  predicate MonthToken(t: string)
  {
    1 <= |t| <= 2 && AllDigits(t) && 1 <= DigitsValue(t) <= 12
  }

  /** `%d` of `strptime`: one or two digits from 1 to 31, or a space and a digit from 1 to 9. */
  predicate DayToken(t: string)
  {
    (1 <= |t| <= 2 && AllDigits(t) && 1 <= DigitsValue(t) <= 31) ||
    (|t| == 2 && t[0] == ' ' && IsDigit(t[1]) && t[1] != '0')
  }

  function DayValue(t: string): int
    requires DayToken(t)
  {
    if t[0] == ' ' then DigitValue(t[1]) else DigitsValue(t)
  }

  /**
   * `datetime.strptime(s, "%Y-%m-%d")` as year, month and day: four digits,
   * a month token and a day token separated by '-', nothing else, and a day
   * the month has; None where Python raises ValueError.
   */
  function ParseYmd(s: string): (r: Option<(int, int, int)>)
    ensures r.Some? ==> ValidDate(r.value.0, r.value.1, r.value.2)
  {
    var parts := Split(s, '-');
    if |parts| == 3 && |parts[0]| == 4 && AllDigits(parts[0]) && MonthToken(parts[1]) && DayToken(parts[2]) &&
       ValidDate(DigitsValue(parts[0]), DigitsValue(parts[1]), DayValue(parts[2]))
    then Some((DigitsValue(parts[0]) as int, DigitsValue(parts[1]) as int, DayValue(parts[2])))
    else None
  }

  /** The parsed date as a day number. */
  function ParseIsoDate(s: string): Option<int>
  {
    match ParseYmd(s)
    case None => None
    case Some(ymd) => Some(Ordinal(ymd.0, ymd.1, ymd.2))
  }

  /** `date.isoformat()`: YYYY-MM-DD. */
  function IsoDate(y: nat, m: nat, d: nat): string
  {
    PadTo(4, y) + "-" + PadTo(2, m) + "-" + PadTo(2, d)
  }

  /** Three dash-free fields joined by '-' split back into those fields. */
  lemma SplitThree(a: string, b: string, c: string)
    requires '-' !in a && '-' !in b && '-' !in c
    ensures Split(a + "-" + b + "-" + c, '-') == [a, b, c]
  {
    assert [a, b, c][1..] == [b, c];
    assert [b, c][1..] == [c];
    assert Join([b, c], '-') == b + "-" + c;
    assert Join([a, b, c], '-') == a + "-" + (b + "-" + c);
    assert a + "-" + b + "-" + c == a + "-" + (b + "-" + c);
    SplitJoin([a, b, c], '-');
  }

  /** A zero-padded field of width w below 10^w: w digits, no dash, read back as itself. */
  lemma PaddedField(w: nat, n: nat)
    requires 1 <= w <= 4 && n < Pow10(w)
    ensures |PadTo(w, n)| == w && AllDigits(PadTo(w, n)) && DigitsValue(PadTo(w, n)) == n
    ensures '-' !in PadTo(w, n) && PadTo(w, n)[0] != ' '
  {
    PadToWidth(w, n);
    PadToValue(w, n);
    assert IsDigit(PadTo(w, n)[0]);
  }

  /** Every valid date written as YYYY-MM-DD parses back to itself. */
  lemma IsoDateRoundTrip(y: nat, m: nat, d: nat)
    requires ValidDate(y, m, d)
    ensures ParseYmd(IsoDate(y, m, d)) == Some((y as int, m as int, d as int))
    ensures ParseIsoDate(IsoDate(y, m, d)) == Some(Ordinal(y, m, d))
  {
    var a, b, c := PadTo(4, y), PadTo(2, m), PadTo(2, d);
    assert Pow10(4) == 10000 && Pow10(2) == 100 by {
      assert Pow10(1) == 10 && Pow10(2) == 100 && Pow10(3) == 1000;
    }
    PaddedField(4, y);
    PaddedField(2, m);
    PaddedField(2, d);
    SplitThree(a, b, c);
    assert MonthToken(b) && DayToken(c) && DayValue(c) == d;
  }

  /**
   * An optional form date read with `strptime(raw, "%Y-%m-%d")`: an empty
   * value is no date, anything else must parse; None where `strptime`
   * raises ValueError and the request fails without saving.
   */
  function OptionalDate(raw: string): Option<Option<int>>
  {
    if raw == "" then Some(None)
    else match ParseIsoDate(raw)
      case None => None
      case Some(d) => Some(Some(d))
  }

  /** A date the form shows as YYYY-MM-DD is read back as that day; an empty field clears the date. */
  lemma OptionalDateRoundTrip(y: nat, m: nat, d: nat)
    requires ValidDate(y, m, d)
    ensures OptionalDate(IsoDate(y, m, d)) == Some(Some(Ordinal(y, m, d)))
    ensures OptionalDate("") == Some(None)
  {
    IsoDateRoundTrip(y, m, d);
    assert IsoDate(y, m, d) != "" by {
      assert |IsoDate(y, m, d)| >= 1;
    }
  }

  // ------------------------------------------------------------ datetimes

  /** A datetime is a count of seconds from midnight of day 0. */
  const SecondsPerDay: int := 86400

  /** The day a datetime falls on. */
  function DayOf(t: int): int
  {
    t / SecondsPerDay
  }

  /** The datetime a date becomes when SQL compares it with a datetime column: its midnight. */
  function Midnight(day: int): (t: int)
    ensures DayOf(t) == day
    ensures forall u :: DayOf(u) == day ==> t <= u < t + SecondsPerDay
  {
    day * SecondsPerDay
  }
}
