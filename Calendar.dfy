/** The slice of .NET `System.DateTime` the bot uses: a proleptic Gregorian
    date between 0001-01-01 and 9999-12-31 with a time of day, ordered by its
    tick count (here: milliseconds since 0001-01-01 00:00); `Date`,
    `TimeOfDay`, `Hour`, `Minute`, `AddDays`, `AddMonths`, `Date + TimeSpan`,
    `new DateTime(y, m, d)`, and the exact formats "dd.MM.yyyy", "dd.MM" and
    "hh\:mm". An operation whose .NET counterpart throws
    `ArgumentOutOfRangeException` returns `None`. */
module Calendar {
  import opened Wrappers
  import opened Text

  const MsPerMinute: int := 60_000
  const MsPerHour: int := 3_600_000
  const MsPerDay: int := 86_400_000
  const MaxYear: int := 9999

  predicate IsLeapYear(y: int) {
    y % 4 == 0 && (y % 100 != 0 || y % 400 == 0)
  }

  function DaysInMonth(y: int, m: int): (n: int)
    requires 1 <= m <= 12
    ensures 28 <= n <= 31
  {
    if m == 2 then (if IsLeapYear(y) then 29 else 28)
    else if m == 4 || m == 6 || m == 9 || m == 11 then 30
    else 31
  }

  /** A calendar date with a time of day in milliseconds. */
  datatype Civil = Civil(year: int, month: int, day: int, millis: int) {
    predicate Valid() {
      1 <= year <= MaxYear && 1 <= month <= 12 && 1 <= day <= DaysInMonth(year, month)
      && 0 <= millis < MsPerDay
    }
  }

  type DateTime = c: Civil | c.Valid() witness Civil(1, 1, 1, 0)

  /** `DateTime.MinValue`, which is also `default(DateTime)`. */
  const MinValue: DateTime := Civil(1, 1, 1, 0)

  /** `new DateTime(year, month, day)`. */
  function MakeDate(year: int, month: int, day: int): (r: Option<DateTime>)
    ensures r.Some? <==> 1 <= year <= MaxYear && 1 <= month <= 12 && 1 <= day <= DaysInMonth(year, month)
    ensures r.Some? ==> r.value == Civil(year, month, day, 0)
  {
    if 1 <= year <= MaxYear && 1 <= month <= 12 && 1 <= day <= DaysInMonth(year, month)
    then var d: DateTime := Civil(year, month, day, 0); Some(d)
    else None
  }

  // ---------------------------------------------------------------------
  // Ticks

  function YearDays(y: int): int {
    if IsLeapYear(y) then 366 else 365
  }

  /** Days from 0001-01-01 to January 1 of year `y`. */
  function DaysBeforeYear(y: int): int
    requires y >= 1
  {
    if y == 1 then 0 else DaysBeforeYear(y - 1) + YearDays(y - 1)
  }

  /** Days from January 1 to the first of month `m` of year `y`. */
  function DaysBeforeMonth(y: int, m: int): int
    requires 1 <= m <= 12
  {
    [0, 31, 59, 90, 120, 151, 181, 212, 243, 273, 304, 334][m - 1]
    + (if m > 2 && IsLeapYear(y) then 1 else 0)
  }

  /** Days from 0001-01-01 to the given date. */
  function DayNumber(year: int, month: int, day: int): int
    requires 1 <= year && 1 <= month <= 12
  {
    DaysBeforeYear(year) + DaysBeforeMonth(year, month) + day - 1
  }

  /** `DateTime.Ticks`, in milliseconds. */
  function Ticks(d: DateTime): int {
    DayNumber(d.year, d.month, d.day) * MsPerDay + d.millis
  }

  /** A month ends where the next one starts; December ends with the year. */
  lemma MonthEnd(y: int, m: int)
    requires 1 <= m <= 12
    ensures m < 12 ==> DaysBeforeMonth(y, m) + DaysInMonth(y, m) == DaysBeforeMonth(y, m + 1)
    ensures m == 12 ==> DaysBeforeMonth(y, m) + DaysInMonth(y, m) == YearDays(y)
  {
  }

  lemma {:induction false} MonthsMonotone(y: int, m1: int, m2: int)
    requires 1 <= m1 < m2 <= 12
    ensures DaysBeforeMonth(y, m1) + DaysInMonth(y, m1) <= DaysBeforeMonth(y, m2)
    decreases m2 - m1
  {
    MonthEnd(y, m1);
    if m1 + 1 < m2 {
      MonthsMonotone(y, m1 + 1, m2);
      MonthEnd(y, m1 + 1);
    }
  }

  lemma {:induction false} YearsMonotone(y1: int, y2: int)
    requires 1 <= y1 < y2
    ensures DaysBeforeYear(y1) + YearDays(y1) <= DaysBeforeYear(y2)
    decreases y2 - y1
  {
    if y1 + 1 < y2 {
      YearsMonotone(y1 + 1, y2);
    }
  }

  /** Tick order is the lexicographic order of (year, month, day, time). */
  predicate LexLess(a: DateTime, b: DateTime) {
    a.year < b.year
    || (a.year == b.year && a.month < b.month)
    || (a.year == b.year && a.month == b.month && a.day < b.day)
    || (a.year == b.year && a.month == b.month && a.day == b.day && a.millis < b.millis)
  }

  lemma LexLessDays(a: DateTime, b: DateTime)
    requires LexLess(a, b)
    ensures DayNumber(a.year, a.month, a.day) <= DayNumber(b.year, b.month, b.day)
    ensures a.year != b.year || a.month != b.month || a.day != b.day
      ==> DayNumber(a.year, a.month, a.day) < DayNumber(b.year, b.month, b.day)
  {
    MonthEnd(a.year, a.month);
    if a.year < b.year {
      YearsMonotone(a.year, b.year);
      if a.month < 12 {
        MonthsMonotone(a.year, a.month, 12);
        MonthEnd(a.year, 12);
      }
    } else if a.month < b.month {
      MonthsMonotone(a.year, a.month, b.month);
    }
  }

  lemma LexLessTicks(a: DateTime, b: DateTime)
    requires LexLess(a, b)
    ensures Ticks(a) < Ticks(b)
  {
    LexLessDays(a, b);
  }

  lemma TicksOrder(a: DateTime, b: DateTime)
    ensures Ticks(a) < Ticks(b) <==> LexLess(a, b)
    ensures Ticks(a) == Ticks(b) <==> a == b
  {
    if LexLess(a, b) {
      LexLessTicks(a, b);
    } else if LexLess(b, a) {
      LexLessTicks(b, a);
    } else {
      assert a == b;
    }
  }

  function MonthIndex(d: DateTime): nat {
    (d.year - 1) * 12 + d.month - 1
  }

  function MonthLength(k: nat): int {
    DaysInMonth(k / 12 + 1, k % 12 + 1)
  }

  // ---------------------------------------------------------------------
  // Date, TimeOfDay and adding spans

  /** `DateTime.Date`: the same day at midnight. */
  function DateOf(d: DateTime): (r: DateTime)
    ensures r.year == d.year && r.month == d.month && r.day == d.day && r.millis == 0
    ensures Ticks(r) == Ticks(d) - d.millis
  {
    Civil(d.year, d.month, d.day, 0)
  }

  /** `DateTime.TimeOfDay`, in milliseconds. */
  function TimeOfDay(d: DateTime): (ms: int)
    ensures 0 <= ms < MsPerDay && Ticks(d) == Ticks(DateOf(d)) + ms
  {
    d.millis
  }

  function Hour(d: DateTime): (h: int)
    ensures 0 <= h < 24
  {
    d.millis / MsPerHour
  }

  function Minute(d: DateTime): (m: int)
    ensures 0 <= m < 60
  {
    d.millis % MsPerHour / MsPerMinute
  }

  /** `d.Date + t` for a span `t` shorter than a day. */
  function AtTime(d: DateTime, t: int): (r: DateTime)
    requires 0 <= t < MsPerDay
    ensures DateOf(r) == DateOf(d) && TimeOfDay(r) == t
  {
    Civil(d.year, d.month, d.day, t)
  }

  /** The same time of day on the next day; `None` after 9999-12-31. */
  function NextDay(d: DateTime): (r: Option<DateTime>)
    ensures r.Some? <==> !(d.year == MaxYear && d.month == 12 && d.day == 31)
    ensures r.Some? ==> Ticks(r.value) == Ticks(d) + MsPerDay && r.value.millis == d.millis
  {
    var r: Option<DateTime> :=
      if d.day < DaysInMonth(d.year, d.month) then
        var e: DateTime := Civil(d.year, d.month, d.day + 1, d.millis); Some(e)
      else if d.month < 12 then
        var e: DateTime := Civil(d.year, d.month + 1, 1, d.millis); Some(e)
      else if d.year < MaxYear then
        var e: DateTime := Civil(d.year + 1, 1, 1, d.millis); Some(e)
      else None;
    assert r.Some? ==> Ticks(r.value) == Ticks(d) + MsPerDay by {
      if r.Some? && d.day == DaysInMonth(d.year, d.month) {
        MonthEnd(d.year, d.month);
      }
    }
    r
  }

  /** `AddDays(n)`. */
  function AddDays(d: DateTime, n: nat): (r: Option<DateTime>)
    ensures r.Some? ==> Ticks(r.value) == Ticks(d) + n * MsPerDay && r.value.millis == d.millis
    decreases n
  {
    if n == 0 then Some(d)
    else match NextDay(d)
      case None => None
      case Some(e) => AddDays(e, n - 1)
  }

  /** `AddMonths(n)`: the day is clamped to the length of the target month,
      the time of day is kept. */
  function AddMonths(d: DateTime, n: nat): (r: Option<DateTime>)
    ensures r.Some? <==> MonthIndex(d) + n < 12 * MaxYear
    ensures r.Some? ==> MonthIndex(r.value) == MonthIndex(d) + n && r.value.millis == d.millis
    ensures r.Some? ==> r.value.day == if d.day <= MonthLength(MonthIndex(d) + n) then d.day else MonthLength(MonthIndex(d) + n)
  {
    var k := MonthIndex(d) + n;
    var y := k / 12 + 1;
    var m := k % 12 + 1;
    if y > MaxYear then None
    else
      var day := if d.day <= DaysInMonth(y, m) then d.day else DaysInMonth(y, m);
      var e: DateTime := Civil(y, m, day, d.millis);
      Some(e)
  }

  /** Adding at least one month always moves a date strictly later. */
  lemma AddMonthsLater(d: DateTime, n: nat)
    requires n >= 1 && AddMonths(d, n).Some?
    ensures Ticks(AddMonths(d, n).value) > Ticks(d)
  {
    var e := AddMonths(d, n).value;
    assert e.year > d.year || (e.year == d.year && e.month > d.month) by {
      assert MonthIndex(e) > MonthIndex(d);
    }
    LexLessTicks(d, e);
  }

  /** `d + span` for a non-negative span in milliseconds. */
  function Plus(d: DateTime, span: nat): (r: Option<DateTime>)
    ensures r.Some? ==> Ticks(r.value) == Ticks(d) + span
  {
    var total := d.millis + span;
    match AddDays(d, total / MsPerDay)
    case None => None
    case Some(e) =>
      var f: DateTime := Civil(e.year, e.month, e.day, total % MsPerDay);
      Some(f)
  }

  // ---------------------------------------------------------------------
  // Exact formats

  /** Two ASCII digits at `s[i..i+2]`, as a number. */
  function Digits2(s: string, i: nat): Option<int>
    requires i + 2 <= |s|
  {
    if AllDigits(s[i..i + 2]) then Some(DigitsValue(s[i..i + 2])) else None
  }

  /** `DateTime.TryParseExact(s, "dd.MM.yyyy", InvariantCulture, DateTimeStyles.None)`:
      exactly two, two and four ASCII digits, no surrounding white space, and a
      real calendar date; the result is at midnight. */
  function ParseDate(s: string): (r: Option<DateTime>)
    ensures r.Some? ==> r.value.millis == 0
  {
    if |s| != 10 || s[2] != '.' || s[5] != '.' then None
    else if !AllDigits(s[..2]) || !AllDigits(s[3..5]) || !AllDigits(s[6..]) then None
    else MakeDate(DigitsValue(s[6..]), DigitsValue(s[3..5]), DigitsValue(s[..2]))
  }

  /** `DateTime.TryParseExact(s, "dd.MM", …)`: the year is taken from the
      machine's current date `serverNow`, and the day must exist in that year. */
  function ParseDayMonth(s: string, serverNow: DateTime): (r: Option<DateTime>)
    ensures r.Some? ==> r.value.millis == 0 && r.value.year == serverNow.year
  {
    if |s| != 5 || s[2] != '.' then None
    else if !AllDigits(s[..2]) || !AllDigits(s[3..]) then None
    else MakeDate(serverNow.year, DigitsValue(s[3..]), DigitsValue(s[..2]))
  }

  /** `TimeSpan.TryParseExact(s, "hh\\:mm", …)`: exactly two digits of hours
      (at most 23), a colon and two digits of minutes (at most 59); the result
      is the span in milliseconds. */
  function ParseTime(s: string): (r: Option<int>)
    ensures r.Some? ==> 0 <= r.value < MsPerDay && r.value % MsPerMinute == 0
  {
    if |s| != 5 || s[2] != ':' then None
    else if !AllDigits(s[..2]) || !AllDigits(s[3..]) then None
    else
      var h := DigitsValue(s[..2]);
      var m := DigitsValue(s[3..]);
      if h <= 23 && m <= 59 then Some(h * MsPerHour + m * MsPerMinute) else None
  }

  /** The format "dd.MM.yyyy". */
  function FormatDate(d: DateTime): (s: string)
    ensures |s| == 10
  {
    Pad2(d.day) + "." + Pad2(d.month) + "." + Pad4(d.year)
  }

  /** The format "dd.MM". */
  function FormatDayMonth(d: DateTime): (s: string)
    ensures |s| == 5
  {
    Pad2(d.day) + "." + Pad2(d.month)
  }

  /** The format "HH:mm". */
  function FormatTime(d: DateTime): (s: string)
    ensures |s| == 5
  {
    Pad2(Hour(d)) + ":" + Pad2(Minute(d))
  }

  /** The numeric date formats hold only ASCII digits and dots. */
  lemma FormatChars(d: DateTime)
    ensures forall c :: c in FormatDate(d) ==> IsDigit(c) || c == '.'
    ensures forall c :: c in FormatDayMonth(d) ==> IsDigit(c) || c == '.'
  {
    var a, b, y := Pad2(d.day), Pad2(d.month), Pad4(d.year);
    assert forall c :: c in a ==> IsDigit(c);
    assert forall c :: c in b ==> IsDigit(c);
    assert forall c :: c in y ==> IsDigit(c);
  }

  /** Two digits are the two-digit rendering of their own value. */
  lemma Pad2OfDigits(s: string)
    requires |s| == 2 && AllDigits(s)
    ensures DigitsValue(s) < 100
    ensures Pad2(DigitsValue(s)) == s
  {
    assert s[..1][..0] == [] && s[..1][0] == s[0];
    assert DigitsValue(s[..1]) == DigitValue(s[0]);
    var n := DigitsValue(s);
    assert n == 10 * DigitsValue(s[..1]) + DigitValue(s[1]);
    assert n / 10 == DigitValue(s[0]) && n % 10 == DigitValue(s[1]);
  }

  /** The four decimal digits of `1000a + 100b + 10c + d`. */
  lemma FourDigits(a: int, b: int, c: int, d: int)
    requires 0 <= a < 10 && 0 <= b < 10 && 0 <= c < 10 && 0 <= d < 10
    ensures var n := 1000 * a + 100 * b + 10 * c + d;
      n / 1000 == a && n / 100 % 10 == b && n / 10 % 10 == c && n % 10 == d
  {
    var k := 10 * a + b;
    var m := 10 * k + c;
    var n := 10 * m + d;
    assert n / 10 == m && n % 10 == d;
    assert m / 10 == k && m % 10 == c;
    assert k / 10 == a && k % 10 == b;
    assert n / 100 == k by { assert n == 100 * k + (10 * c + d); }
    assert n / 1000 == a by { assert n == 1000 * a + (100 * b + 10 * c + d); }
  }

  lemma Pad4OfDigits(s: string)
    requires |s| == 4 && AllDigits(s)
    ensures DigitsValue(s) < 10000
    ensures Pad4(DigitsValue(s)) == s
  {
    assert s[..3][..2][..1][..0] == [];
    assert s[..3][..2][..1] == [s[0]];
    assert s[..3][..2] == [s[0], s[1]];
    assert s[..3] == [s[0], s[1], s[2]];
    var a, b, c, d := DigitValue(s[0]), DigitValue(s[1]), DigitValue(s[2]), DigitValue(s[3]);
    assert DigitsValue(s[..3][..2][..1]) == a;
    assert DigitsValue(s[..3][..2]) == 10 * a + b;
    assert DigitsValue(s[..3]) == 100 * a + 10 * b + c;
    assert DigitsValue(s) == 1000 * a + 100 * b + 10 * c + d;
    FourDigits(a, b, c, d);
  }

  /** Printing a date as "dd.MM.yyyy" and parsing it back gives its date. */
  lemma ParseFormatDate(d: DateTime)
    ensures ParseDate(FormatDate(d)) == Some(DateOf(d))
  {
    var s := FormatDate(d);
    assert s[..2] == Pad2(d.day) && s[3..5] == Pad2(d.month) && s[6..] == Pad4(d.year);
  }

  /** Whatever "dd.MM.yyyy" accepts is the printed form of what it returns. */
  lemma FormatParseDate(s: string)
    requires ParseDate(s).Some?
    ensures FormatDate(ParseDate(s).value) == s
  {
    Pad2OfDigits(s[..2]);
    Pad2OfDigits(s[3..5]);
    Pad4OfDigits(s[6..]);
    assert s == s[..2] + "." + s[3..5] + "." + s[6..];
  }

  /** Printing a time of day as "HH:mm" and parsing it back gives the time to the minute. */
  lemma ParseFormatTime(d: DateTime)
    ensures ParseTime(FormatTime(d)) == Some(Hour(d) * MsPerHour + Minute(d) * MsPerMinute)
  {
    var s := FormatTime(d);
    assert s[..2] == Pad2(Hour(d)) && s[3..] == Pad2(Minute(d));
  }

  /** Whatever "hh\:mm" accepts is the printed form of the time it returns. */
  lemma FormatParseTime(s: string, d: DateTime)
    requires ParseTime(s).Some?
    ensures FormatTime(AtTime(d, ParseTime(s).value)) == s
  {
    var h := DigitsValue(s[..2]);
    var m := DigitsValue(s[3..]);
    var e := AtTime(d, ParseTime(s).value);
    assert Hour(e) == h && Minute(e) == m;
    Pad2OfDigits(s[..2]);
    Pad2OfDigits(s[3..]);
    assert s == s[..2] + ":" + s[3..];
  }
}
