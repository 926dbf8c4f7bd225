/**
 `civil_from_unix_secs` of `src/state.rs`: seconds since the Unix epoch split
 into a UTC calendar date and a time of day by Hinnant's nested divisions.

 The reference is the calendar itself: a leap-year rule, a table of month
 lengths, and a day count that walks from 1970-01-01 a year and a month at a
 time.
 */
module Calendar {

  datatype Date = Date(year: int, month: int, day: int)

  datatype Civil = Civil(date: Date, hour: int, min: int, sec: int)

  // ── the calendar ──────────────────────────────────────────────────────────

  predicate IsLeap(year: int) {
    year % 4 == 0 && (year % 100 == 0 ==> year % 400 == 0)
  }

  function YearLength(year: int): int {
    if IsLeap(year) then 366 else 365
  }

  function MonthLength(year: int, month: int): int {
    if month == 2 then (if IsLeap(year) then 29 else 28)
    else if month in {4, 6, 9, 11} then 30
    else 31
  }

  predicate ValidDate(d: Date) {
    1 <= d.month <= 12 && 1 <= d.day <= MonthLength(d.year, d.month)
  }

  predicate ValidCivil(t: Civil) {
    ValidDate(t.date) && 0 <= t.hour < 24 && 0 <= t.min < 60 && 0 <= t.sec < 60
  }

  /** Days from 1970-01-01 to the first of January of `year`, year by year. */
  function DaysToYear(year: int): int
    decreases if year < 1970 then 1970 - year else year - 1970
  {
    if year == 1970 then 0
    else if year > 1970 then DaysToYear(year - 1) + YearLength(year - 1)
    else DaysToYear(year + 1) - YearLength(year)
  }

  /** Days from the first of January to the first of `month`, month by month. */
  function DaysToMonth(year: int, month: int): int
    requires 1 <= month
  {
    if month == 1 then 0 else DaysToMonth(year, month - 1) + MonthLength(year, month - 1)
  }

  function DayCount(d: Date): int
    requires ValidDate(d)
  {
    DaysToYear(d.year) + DaysToMonth(d.year, d.month) + d.day - 1
  }

  function SecondCount(t: Civil): int
    requires ValidCivil(t)
  {
    86400 * DayCount(t.date) + 3600 * t.hour + 60 * t.min + t.sec
  }

  // ── the algorithm ─────────────────────────────────────────────────────────

  /** Machine division of signed integers: rounds toward zero. */
  function Div(a: int, b: int): int
    requires b > 0
  {
    if a >= 0 then a / b else -(-a / b)
  }

  function Era(z: int): int {
    Div(if z >= 0 then z else z - 146096, 146097)
  }

  function YearOfEra(doe: int): int {
    Div(doe - Div(doe, 1460) + Div(doe, 36524) - Div(doe, 146096), 365)
  }

  function DayOfYear(doe: int, yoe: int): int {
    doe - (365 * yoe + Div(yoe, 4) - Div(yoe, 100))
  }

  function MonthFromMarch(doy: int): int {
    Div(5 * doy + 2, 153)
  }

  function DayOfMonth(doy: int): int {
    doy - Div(153 * MonthFromMarch(doy) + 2, 5) + 1
  }

  function Month(doy: int): int {
    var mp := MonthFromMarch(doy);
    if mp < 10 then mp + 3 else mp - 9
  }

  /** The date `days` days after 1970-01-01. */
  function CivilFromDays(days: int): Date {
    var z := days + 719468;
    var era := Era(z);
    var doe := z - era * 146097;
    var yoe := YearOfEra(doe);
    var y := yoe + era * 400;
    var doy := DayOfYear(doe, yoe);
    var month := Month(doy);
    Date(if month <= 2 then y + 1 else y, month, DayOfMonth(doy))
  }

  function CivilFromUnixSecs(secs: nat): Civil {
    var rem := secs % 86400;
    Civil(CivilFromDays(secs / 86400), rem / 3600, rem % 3600 / 60, rem % 60)
  }

  /** Hinnant's `days_from_civil`, the algorithm the source says it inverts. */
  function DaysFromCivil(d: Date): int {
    var y := if d.month <= 2 then d.year - 1 else d.year;
    var era := Div(if y >= 0 then y else y - 399, 400);
    var yoe := y - era * 400;
    var mp := if d.month > 2 then d.month - 3 else d.month + 9;
    var doy := Div(153 * mp + 2, 5) + d.day - 1;
    era * 146097 + yoe * 365 + Div(yoe, 4) - Div(yoe, 100) + doy - 719468
  }

  // ── division by constants ─────────────────────────────────────────────────

  lemma Quotient(a: int, b: int, k: int)
    requires 0 <= a - k * b < b
    ensures a / b == k && a % b == a - k * b
  {
    var apart := k - a / b;
    assert -b < apart * b < b;
    assert apart >= 1 ==> apart * b >= b;
    assert apart <= -1 ==> apart * b <= -b;
  }

  lemma StepQuotient(y: int, b: int)
    requires b > 1
    ensures y / b == (y - 1) / b + (if y % b == 0 then 1 else 0)
  {
    var k := y / b;
    assert y == k * b + y % b;
    if y % b == 0 {
      assert (k - 1) * b == k * b - b;
      Quotient(y - 1, b, k - 1);
    } else {
      Quotient(y - 1, b, k);
    }
  }

  // ── one era ───────────────────────────────────────────────────────────────

  /** A day of the 400-year era, as century, leap cycle, year of the cycle and
      day of a year that starts in March. */
  predicate Splits(doe: int, c: int, q: int, r: int, doy: int) {
    && 0 <= c < 4 && 0 <= q < 25 && 0 <= r < 4 && 0 <= doy < 366
    && (doy == 365 ==> r == 3 && (q == 24 ==> c == 3))
    && doe == 36524 * c + 1461 * q + 365 * r + doy
  }

  /** Every day of the era splits in some way ... */
  lemma SplitExists(doe: int) returns (c: int, q: int, r: int, doy: int)
    requires 0 <= doe < 146097
    ensures Splits(doe, c, q, r, doy)
  {
    c := if doe == 146096 then 3 else doe / 36524;
    var left := doe - 36524 * c;
    q := left / 1461;
    left := left - 1461 * q;
    r := if left == 1460 then 3 else left / 365;
    doy := left - 365 * r;
  }

  /** ... and the algorithm finds that split: the corrections for leap days line
      up with the start of every one of the 400 years. */
  lemma YearOfEraIsTheSplit(doe: int, c: int, q: int, r: int, doy: int)
    requires Splits(doe, c, q, r, doy)
    ensures YearOfEra(doe) == 100 * c + 4 * q + r
    ensures DayOfYear(doe, YearOfEra(doe)) == doy
    ensures 0 <= doe < 146097 && 0 <= YearOfEra(doe) <= 399 && 0 <= doy < 366
  {
    var over := 24 * c + q + 365 * r + doy;
    assert doe == 1460 * (25 * c + q) + over;
    assert 0 <= over < 2920;
    assert Div(doe, 1460) == 25 * c + q + over / 1460;
    var inCentury := 1461 * q + 365 * r + doy;
    assert inCentury <= 36524 && (inCentury == 36524 ==> c == 3);
    assert Div(doe, 36524) == c + (if inCentury == 36524 then 1 else 0);
    assert Div(doe, 146096) == (if inCentury == 36524 then 1 else 0);
    var yoe := 100 * c + 4 * q + r;
    assert doe - Div(doe, 1460) + Div(doe, 36524) - Div(doe, 146096)
        == 365 * yoe + doy - over / 1460;
    assert 0 <= doy - over / 1460 <= 364;
    assert Div(yoe, 4) == 25 * c + q && Div(yoe, 100) == c;
  }

  /** The months of a year that starts in March, by table. */
  function MarchDays(mp: int): int {
    if mp == 0 then 0 else if mp == 1 then 31 else if mp == 2 then 61 else if mp == 3 then 92
    else if mp == 4 then 122 else if mp == 5 then 153 else if mp == 6 then 184 else if mp == 7 then 214
    else if mp == 8 then 245 else if mp == 9 then 275 else if mp == 10 then 306 else 337
  }

  predicate MonthHolds(doy: int, mp: int) {
    0 <= mp <= 11 && MarchDays(mp) <= doy < (if mp == 11 then 366 else MarchDays(mp + 1))
  }

  lemma MonthFormula(mp: int)
    requires 0 <= mp <= 11
    ensures Div(153 * mp + 2, 5) == MarchDays(mp)
  {
  }

  lemma MonthOfDay(doy: int, mp: int)
    requires 0 <= doy < 366 && MonthHolds(doy, mp)
    ensures MonthFromMarch(doy) == mp
  {
  }

  lemma SomeMonthHolds(doy: int) returns (mp: int)
    requires 0 <= doy < 366
    ensures MonthHolds(doy, mp)
  {
    mp := 0;
    while mp < 11 && MarchDays(mp + 1) <= doy
      invariant 0 <= mp <= 11 && MarchDays(mp) <= doy
    {
      mp := mp + 1;
    }
  }

  /** Era by era the count restarts: `z` is in era `e` exactly when the rest is a
      day of an era. Holds below year zero too, where division rounds up. */
  lemma EraIsFloor(z: int, era: int)
    requires 0 <= z - era * 146097 < 146097
    ensures Era(z) == era
  {
  }

  // ── from days to dates ────────────────────────────────────────────────────

  /** Days to the start of March of `y`, counting from March of year zero. */
  function MarchYearStart(y: int): int {
    365 * y + y / 4 - y / 100 + y / 400
  }

  lemma MarchYearStartOfParts(era: int, c: int, q: int, r: int)
    requires 0 <= c < 4 && 0 <= q < 25 && 0 <= r < 4
    ensures var y := 400 * era + 100 * c + 4 * q + r;
      && MarchYearStart(y) == 146097 * era + 36524 * c + 1461 * q + 365 * r
      && (IsLeap(y + 1) <==> r == 3 && (q == 24 ==> c == 3))
  {
    var y := 400 * era + 100 * c + 4 * q + r;
    Quotient(y, 4, 100 * era + 25 * c + q);
    Quotient(y, 100, 4 * era + c);
    Quotient(y, 400, era);
    Quotient(y + 1, 4, 100 * era + 25 * c + q + (if r == 3 then 1 else 0));
    Quotient(y + 1, 100, 4 * era + c + (if r == 3 && q == 24 then 1 else 0));
    Quotient(y + 1, 400, era + (if r == 3 && q == 24 && c == 3 then 1 else 0));
  }

  /** The days between two Marches are those of the calendar year of the second. */
  lemma MarchYearLength(y: int)
    ensures MarchYearStart(y) == MarchYearStart(y - 1) + YearLength(y)
  {
    StepQuotient(y, 4);
    StepQuotient(y, 100);
    StepQuotient(y, 400);
    assert y == 400 * (y / 400) + y % 400 && y == 100 * (y / 100) + y % 100;
    if y % 400 == 0 {
      Quotient(y, 100, 4 * (y / 400));
    }
    if y % 100 == 0 {
      Quotient(y, 4, 25 * (y / 100));
    }
  }

  /** The date the algorithm picks once its intermediates are known. */
  function DateOfParts(y: int, doy: int, mp: int): Date {
    Date(if mp < 10 then y else y + 1, if mp < 10 then mp + 3 else mp - 9, doy - MarchDays(mp) + 1)
  }

  /** Where every intermediate of the algorithm lies, with the month and the leap
      cycle of the answer. */
  lemma CivilParts(days: int)
    returns (era: int, c: int, q: int, r: int, doy: int, mp: int)
    ensures days + 719468 == 146097 * era + 36524 * c + 1461 * q + 365 * r + doy
    ensures Splits(36524 * c + 1461 * q + 365 * r + doy, c, q, r, doy)
    ensures MonthHolds(doy, mp)
    ensures CivilFromDays(days) == DateOfParts(400 * era + 100 * c + 4 * q + r, doy, mp)
  {
    hide Era, YearOfEra, DayOfYear, MonthFromMarch, MarchDays, Div;
    var z := days + 719468;
    era := z / 146097;
    var doe := z - era * 146097;
    assert doe == z % 146097;
    EraIsFloor(z, era);
    c, q, r, doy := SplitExists(doe);
    YearOfEraIsTheSplit(doe, c, q, r, doy);
    mp := SomeMonthHolds(doy);
    MonthOfDay(doy, mp);
    MonthFormula(mp);
  }

  lemma YearWithinEra(y: int)
    ensures var era := Div(if y >= 0 then y else y - 399, 400);
      var yoe := y - era * 400;
      era * 146097 + yoe * 365 + Div(yoe, 4) - Div(yoe, 100) == MarchYearStart(y)
  {
    var era := y / 400;
    var yoe := y % 400;
    assert y == 400 * era + yoe;
    if y < 0 {
      Quotient(399 - y, 400, -era);
    }
    Quotient(y, 4, 100 * era + yoe / 4);
    Quotient(y, 100, 4 * era + yoe / 100);
  }

  /** Hinnant's forward count is the plain floor-division one. */
  lemma ForwardCount(d: Date)
    requires 1 <= d.month <= 12
    ensures var y := if d.month <= 2 then d.year - 1 else d.year;
      var mp := if d.month > 2 then d.month - 3 else d.month + 9;
      DaysFromCivil(d) == MarchYearStart(y) + MarchDays(mp) + d.day - 1 - 719468
  {
    hide MarchYearStart, Div, MarchDays;
    YearWithinEra(if d.month <= 2 then d.year - 1 else d.year);
    MonthFormula(if d.month > 2 then d.month - 3 else d.month + 9);
  }

  lemma PartsAreADate(y: int, doy: int, mp: int)
    requires 0 <= doy < 366 && MonthHolds(doy, mp)
    requires doy == 365 ==> IsLeap(y + 1)
    ensures ValidDate(DateOfParts(y, doy, mp))
  {
    hide IsLeap;
  }

  /** The answer is a real date, and counting forward from it returns the input. */
  lemma CivilRoundTrip(days: int)
    ensures ValidDate(CivilFromDays(days))
    ensures DaysFromCivil(CivilFromDays(days)) == days
  {
    hide CivilFromDays, DaysFromCivil, MarchYearStart, IsLeap, MarchDays, ValidDate;
    var era, c, q, r, doy, mp := CivilParts(days);
    MarchYearStartOfParts(era, c, q, r);
    PartsAreADate(400 * era + 100 * c + 4 * q + r, doy, mp);
    ForwardCount(CivilFromDays(days));
  }

  // ── the day count ─────────────────────────────────────────────────────────

  lemma {:induction false} YearsCount(year: int)
    ensures DaysFromCivil(Date(year, 1, 1)) == DaysToYear(year)
    decreases if year < 1970 then 1970 - year else year - 1970
  {
    hide DaysFromCivil, MarchYearStart, IsLeap;
    ForwardCount(Date(year, 1, 1));
    if year == 1970 {
      assert MarchYearStart(1969) == 719162 by {
        MarchYearStartOfParts(4, 3, 17, 1);
      }
    } else if year > 1970 {
      MarchYearLength(year - 1);
      YearsCount(year - 1);
      ForwardCount(Date(year - 1, 1, 1));
    } else {
      MarchYearLength(year);
      YearsCount(year + 1);
      ForwardCount(Date(year + 1, 1, 1));
    }
  }

  lemma {:induction false} MonthsCount(year: int, month: int)
    requires 1 <= month <= 12
    ensures DaysFromCivil(Date(year, month, 1)) == DaysToYear(year) + DaysToMonth(year, month)
  {
    hide DaysFromCivil, MarchYearStart, IsLeap, DaysToYear;
    if month == 1 {
      YearsCount(year);
    } else {
      MarchYearLength(year);
      MonthsCount(year, month - 1);
      ForwardCount(Date(year, month, 1));
      ForwardCount(Date(year, month - 1, 1));
    }
  }

  /** The closed form counts the same days as walking the calendar. */
  lemma ForwardCountIsTheDayCount(d: Date)
    requires ValidDate(d)
    ensures DaysFromCivil(d) == DayCount(d)
  {
    hide DaysFromCivil, MarchYearStart, DaysToYear, DaysToMonth, MarchDays;
    MonthsCount(d.year, d.month);
    ForwardCount(d);
    ForwardCount(Date(d.year, d.month, 1));
  }

  // ── order ─────────────────────────────────────────────────────────────────

  predicate Earlier(a: Date, b: Date) {
    a.year < b.year || (a.year == b.year && (a.month < b.month || (a.month == b.month && a.day < b.day)))
  }

  lemma {:induction false} MonthsFit(year: int, month: int, later: int)
    requires 1 <= month < later <= 12
    ensures DaysToMonth(year, month) + MonthLength(year, month) <= DaysToMonth(year, later)
    decreases later
  {
    if month < later - 1 {
      MonthsFit(year, month, later - 1);
    }
  }

  lemma {:induction false} YearsFit(year: int, later: int)
    requires year < later
    ensures DaysToYear(year) + YearLength(year) <= DaysToYear(later)
    decreases later - year
  {
    if year < later - 1 {
      YearsFit(year, later - 1);
    }
  }

  lemma MonthsFitTheYear(d: Date)
    requires ValidDate(d)
    ensures 0 <= DaysToMonth(d.year, d.month) + d.day - 1 < YearLength(d.year)
  {
    hide DaysFromCivil, MarchYearStart, IsLeap, DaysToYear;
    if d.month < 12 {
      MonthsFit(d.year, d.month, 12);
    }
    if d.month > 1 {
      MonthsFit(d.year, 1, d.month);
    }
    assert DaysToMonth(d.year, 12) + 31 == YearLength(d.year) by {
      MonthsCount(d.year, 12);
      MonthsCount(d.year, 1);
      ForwardCount(Date(d.year, 12, 1));
      ForwardCount(Date(d.year, 1, 1));
      MarchYearLength(d.year);
    }
  }

  /** Later dates have larger counts. */
  lemma DayCountOrders(a: Date, b: Date)
    requires ValidDate(a) && ValidDate(b) && Earlier(a, b)
    ensures DayCount(a) < DayCount(b)
  {
    if a.year < b.year {
      YearsFit(a.year, b.year);
      MonthsFitTheYear(a);
      MonthsFitTheYear(b);
    } else if a.month < b.month {
      MonthsFit(a.year, a.month, b.month);
    }
  }

  // ── the theorems ──────────────────────────────────────────────────────────

  /** For every day, before the epoch too: the date is real, walking the calendar
      to it takes exactly that many days, and no other date does. */
  lemma CivilFromDaysIsTheCalendar(days: int, other: Date)
    ensures ValidDate(CivilFromDays(days)) && DayCount(CivilFromDays(days)) == days
    ensures ValidDate(other) && DayCount(other) == days ==> other == CivilFromDays(days)
  {
    CivilRoundTrip(days);
    var d := CivilFromDays(days);
    ForwardCountIsTheDayCount(d);
    if ValidDate(other) && DayCount(other) == days && other != d {
      if Earlier(other, d) {
        DayCountOrders(other, d);
      } else {
        DayCountOrders(d, other);
      }
    }
  }

  /** The two algorithms invert one another on every date. */
  lemma DaysFromCivilInverts(d: Date)
    requires ValidDate(d)
    ensures CivilFromDays(DaysFromCivil(d)) == d
  {
    ForwardCountIsTheDayCount(d);
    CivilFromDaysIsTheCalendar(DaysFromCivil(d), d);
  }

  lemma TimeOfDay(rem: int, hour: int, min: int, sec: int)
    requires 0 <= rem < 86400
    ensures 0 <= rem / 3600 < 24 && 0 <= rem % 3600 / 60 < 60 && 0 <= rem % 60 < 60
    ensures rem == 3600 * (rem / 3600) + 60 * (rem % 3600 / 60) + rem % 60
    ensures 0 <= min < 60 && 0 <= sec < 60 && rem == 3600 * hour + 60 * min + sec
      ==> hour == rem / 3600 && min == rem % 3600 / 60 && sec == rem % 60
  {
    var h := rem / 3600;
    var inHour := rem % 3600;
    assert rem == 3600 * h + inHour;
    Quotient(rem, 60, 60 * h + inHour / 60);
    if 0 <= min < 60 && 0 <= sec < 60 && rem == 3600 * hour + 60 * min + sec {
      Quotient(rem, 3600, hour);
      Quotient(inHour, 60, min);
    }
  }

  /** Seconds: the date and time are valid, count back to the input, and are the
      only ones that do. */
  lemma CivilFromUnixSecsIsTheCalendar(secs: nat, other: Civil)
    ensures ValidCivil(CivilFromUnixSecs(secs)) && SecondCount(CivilFromUnixSecs(secs)) == secs
    ensures ValidCivil(other) && SecondCount(other) == secs ==> other == CivilFromUnixSecs(secs)
  {
    hide CivilFromDays, ValidDate, DayCount;
    var days, rem := secs / 86400, secs % 86400;
    CivilFromDaysIsTheCalendar(days, other.date);
    TimeOfDay(rem, other.hour, other.min, other.sec);
    if ValidCivil(other) && SecondCount(other) == secs {
      Quotient(secs, 86400, DayCount(other.date));
    }
  }

  lemma DayOfMonthFits(doy: int, mp: int)
    requires 0 <= doy < 366 && MonthHolds(doy, mp)
    ensures 0 <= MonthFromMarch(doy) <= 11 && 1 <= DayOfMonth(doy) <= 31 && 1 <= Month(doy) <= 12
  {
    MonthOfDay(doy, mp);
    MonthFormula(mp);
  }

  lemma NeverBeforeTheEpoch(days: nat)
    ensures CivilFromDays(days).year >= 1970
  {
    hide CivilFromDays;
    var d := CivilFromDays(days);
    CivilFromDaysIsTheCalendar(days, d);
    if d.year < 1970 {
      DayCountOrders(d, Date(1970, 1, 1));
    }
  }

  /** Every intermediate lies in the range its comment gives, on any day. */
  lemma StepsStayInRange(days: int)
    ensures var z := days + 719468;
      var doe := z - Era(z) * 146097;
      var yoe := YearOfEra(doe);
      var doy := DayOfYear(doe, yoe);
      && 0 <= doe <= 146096 && 0 <= yoe <= 399 && 0 <= doy <= 365
      && 0 <= MonthFromMarch(doy) <= 11 && 1 <= DayOfMonth(doy) <= 31 && 1 <= Month(doy) <= 12
  {
    hide *;
    var era, c, q, r, doy, mp := CivilParts(days);
    var doe := 36524 * c + 1461 * q + 365 * r + doy;
    YearOfEraIsTheSplit(doe, c, q, r, doy);
    EraIsFloor(days + 719468, era);
    assert days + 719468 - Era(days + 719468) * 146097 == doe;
    DayOfMonthFits(doy, mp);
  }

  const U64: int := 0x1_0000_0000_0000_0000
  const I64: int := 0x8000_0000_0000_0000

  /** On 64-bit input the signed 64-bit values the algorithm starts from and ends
      with fit their type; the narrow casts are covered by `StepsStayInRange`. */
  lemma NothingTruncates(secs: nat)
    requires secs < U64
    ensures var z := secs / 86400 + 719468;
      && secs / 86400 < I64 && 0 <= z < I64 && 0 <= Era(z) * 146097 <= z
      && 1970 <= CivilFromDays(secs / 86400).year < I64
  {
    hide CivilFromDays, MarchDays, YearOfEra, Era;
    var era, c, q, r, doy, mp := CivilParts(secs / 86400);
    EraIsFloor(secs / 86400 + 719468, era);
    NeverBeforeTheEpoch(secs / 86400);
  }
}
