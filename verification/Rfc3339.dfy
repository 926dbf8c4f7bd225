/**
 `format_rfc3339` of `src/state.rs`: timestamps as UTC date-time text. A reader
 for the same grammar (sections 5.6 and 5.7 of RFC 3339) recovers the time, and
 up to the end of the year 9999 the text sorts the way time passes.
 */
module Rfc3339 {
  import opened World
  import opened Calendar
  import Claims

  // ── the formatter ─────────────────────────────────────────────────────────

  function Digit(d: int): char
    requires 0 <= d < 10
  {
    '0' + d as char
  }

  function Decimal(n: nat): (s: string)
    ensures s != ""
  {
    if n < 10 then [Digit(n)] else Decimal(n / 10) + [Digit(n % 10)]
  }

  function Zeros(k: nat): string {
    if k == 0 then "" else "0" + Zeros(k - 1)
  }

  /** Decimal text, zero-padded on the left to at least `width` characters. */
  function Padded(n: nat, width: nat): (s: string)
    ensures |s| >= 1
  {
    var text := Decimal(n);
    if |text| >= width then text else Zeros(width - |text|) + text
  }

  /** Everything after the year. */
  function CivilTail(t: Civil): string
    requires ValidCivil(t)
  {
    "-" + (Padded(t.date.month, 2) + ("-" + (Padded(t.date.day, 2) + ("T"
    + (Padded(t.hour, 2) + (":" + (Padded(t.min, 2) + (":" + (Padded(t.sec, 2) + "Z")))))))))
  }

  function CivilText(t: Civil): string
    requires ValidCivil(t) && t.date.year >= 0
  {
    Padded(t.date.year, 4) + CivilTail(t)
  }

  function SecondsText(secs: nat): string {
    CivilFromUnixSecsIsTheCalendar(secs, CivilFromUnixSecs(secs));
    NeverBeforeTheEpoch(secs / 86400);
    CivilText(CivilFromUnixSecs(secs))
  }

  const NANOS: nat := 1_000_000_000

  /** A system time, in nanoseconds either side of the epoch: fractions of a
      second are dropped and times before the epoch become the epoch. */
  function FormatRfc3339(nanos: int): string {
    SecondsText(if nanos < 0 then 0 else nanos / NANOS)
  }

  // ── the reader ────────────────────────────────────────────────────────────

  predicate IsDigit(c: char) {
    '0' <= c <= '9'
  }

  function Value(s: string): Option<nat> {
    if s == "" then Some(0)
    else match Value(s[..|s| - 1])
      case Some(v) =>
        var c := s[|s| - 1];
        if IsDigit(c) then Some(10 * v + (c - '0') as int) else None
      case None => None
  }

  /** Section 5.6's date-time with a `Z` offset and no fraction, under the limits
      of section 5.7; leap seconds are not accepted. */
  function Parse(s: string): Option<Civil> {
    if |s| == 20 && s[4] == '-' && s[7] == '-' && s[10] == 'T' && s[13] == ':' && s[16] == ':' && s[19] == 'Z'
    then match (Value(s[..4]), Value(s[5..7]), Value(s[8..10]), Value(s[11..13]), Value(s[14..16]), Value(s[17..19]))
      case (Some(y), Some(mo), Some(d), Some(h), Some(mi), Some(sec)) =>
        var t := Civil(Date(y, mo, d), h, mi, sec);
        if ValidCivil(t) then Some(t) else None
      case _ => None
    else None
  }

  // ── digits ────────────────────────────────────────────────────────────────

  /** Exactly `width` decimal digits, most significant first. */
  function Digits(n: nat, width: nat): (s: string)
    ensures |s| == width
  {
    if width == 0 then "" else Digits(n / 10, width - 1) + [Digit(n % 10)]
  }

  function Pow10(k: nat): nat {
    if k == 0 then 1 else 10 * Pow10(k - 1)
  }

  lemma {:induction false} ZerosAreDigits(k: nat)
    ensures Digits(0, k) == Zeros(k) && Zeros(k) + "0" == "0" + Zeros(k)
  {
    if k > 0 {
      ZerosAreDigits(k - 1);
      assert Zeros(k) + "0" == "0" + (Zeros(k - 1) + "0");
    }
  }

  /** A number that fits is padded to exactly its width. */
  lemma {:induction false} PaddedIsDigits(n: nat, width: nat)
    requires width > 0 && n < Pow10(width)
    ensures Padded(n, width) == Digits(n, width) && |Decimal(n)| <= width
  {
    if n < 10 {
      assert Digits(n, width) == Digits(0, width - 1) + [Digit(n)];
      ZerosAreDigits(width - 1);
    } else {
      PaddedIsDigits(n / 10, width - 1);
      var z := width - |Decimal(n)|;
      assert Zeros(z) + Decimal(n) == (Zeros(z) + Decimal(n / 10)) + [Digit(n % 10)];
    }
  }

  /** A number that does not fit is wider than the padding. */
  lemma {:induction false} TooWide(n: nat, width: nat)
    requires width > 0 && n >= Pow10(width)
    ensures |Padded(n, width)| > width && |Decimal(n)| > width
  {
    if width > 1 {
      TooWide(n / 10, width - 1);
    }
  }

  lemma {:induction false} ValueOfDigits(n: nat, width: nat)
    requires n < Pow10(width)
    ensures Value(Digits(n, width)) == Some(n)
  {
    if width > 0 {
      ValueOfDigits(n / 10, width - 1);
      var s := Digits(n, width);
      assert s[..|s| - 1] == Digits(n / 10, width - 1);
    }
  }

  // ── order of text ─────────────────────────────────────────────────────────

  lemma {:induction false} CommonPrefix(p: string, x: string, y: string)
    ensures Claims.StringLess(p + x, p + y) == Claims.StringLess(x, y)
  {
    if p == "" {
      assert p + x == x && p + y == y;
    } else {
      CommonPrefix(p[1..], x, y);
      assert (p + x)[1..] == p[1..] + x && (p + y)[1..] == p[1..] + y;
    }
  }

  lemma {:induction false} FirstDifference(a: string, b: string, x: string, y: string)
    requires |a| == |b| && Claims.StringLess(a, b)
    ensures Claims.StringLess(a + x, b + y)
  {
    if a[0] == b[0] {
      FirstDifference(a[1..], b[1..], x, y);
      assert (a + x)[1..] == a[1..] + x && (b + y)[1..] == b[1..] + y;
    }
  }

  /** Numbers of one width sort as text the way they sort as numbers. */
  lemma {:induction false} DigitsOrder(n: nat, m: nat, width: nat)
    requires n < m < Pow10(width)
    ensures Claims.StringLess(Digits(n, width), Digits(m, width))
  {
    if n / 10 == m / 10 {
      CommonPrefix(Digits(n / 10, width - 1), [Digit(n % 10)], [Digit(m % 10)]);
    } else {
      DigitsOrder(n / 10, m / 10, width - 1);
      FirstDifference(Digits(n / 10, width - 1), Digits(m / 10, width - 1), [Digit(n % 10)], [Digit(m % 10)]);
    }
  }

  /** One field, then the rest of the text. */
  lemma FieldOrder(n: nat, m: nat, width: nat, x: string, y: string)
    requires width > 0 && n < Pow10(width) && m < Pow10(width)
    ensures n < m ==> Claims.StringLess(Padded(n, width) + x, Padded(m, width) + y)
    ensures n == m ==> Claims.StringLess(Padded(n, width) + x, Padded(m, width) + y) == Claims.StringLess(x, y)
  {
    PaddedIsDigits(n, width);
    PaddedIsDigits(m, width);
    if n < m {
      DigitsOrder(n, m, width);
      FirstDifference(Digits(n, width), Digits(m, width), x, y);
    } else if n == m {
      CommonPrefix(Digits(n, width), x, y);
    }
  }

  // ── order of times ────────────────────────────────────────────────────────

  predicate TimeEarlier(a: Civil, b: Civil) {
    a.hour < b.hour || (a.hour == b.hour && (a.min < b.min || (a.min == b.min && a.sec < b.sec)))
  }

  predicate CivilEarlier(a: Civil, b: Civil) {
    Earlier(a.date, b.date) || (a.date == b.date && TimeEarlier(a, b))
  }

  lemma SecondCountOrders(a: Civil, b: Civil)
    requires ValidCivil(a) && ValidCivil(b) && CivilEarlier(a, b)
    ensures SecondCount(a) < SecondCount(b)
  {
    hide ValidDate, DayCount;
    if a.date != b.date {
      DayCountOrders(a.date, b.date);
    }
  }

  lemma EarlierSecondsEarlierCivil(a: nat, b: nat)
    requires a < b
    ensures CivilEarlier(CivilFromUnixSecs(a), CivilFromUnixSecs(b))
  {
    hide ValidCivil, CivilFromUnixSecs, SecondCount;
    var x, y := CivilFromUnixSecs(a), CivilFromUnixSecs(b);
    CivilFromUnixSecsIsTheCalendar(a, x);
    CivilFromUnixSecsIsTheCalendar(b, y);
    if !CivilEarlier(x, y) && x != y {
      SecondCountOrders(y, x);
    }
  }

  lemma TextOrderOfTime(a: Civil, b: Civil)
    requires ValidCivil(a) && ValidCivil(b) && TimeEarlier(a, b)
    ensures Claims.StringLess(
      Padded(a.hour, 2) + (":" + (Padded(a.min, 2) + (":" + (Padded(a.sec, 2) + "Z")))),
      Padded(b.hour, 2) + (":" + (Padded(b.min, 2) + (":" + (Padded(b.sec, 2) + "Z")))))
  {
    hide ValidDate, Padded, Claims.StringLess;
    assert Pow10(2) == 100;
    var s, s' := Padded(a.sec, 2) + "Z", Padded(b.sec, 2) + "Z";
    var m, m' := Padded(a.min, 2) + (":" + s), Padded(b.min, 2) + (":" + s');
    FieldOrder(a.sec, b.sec, 2, "Z", "Z");
    CommonPrefix(":", s, s');
    FieldOrder(a.min, b.min, 2, ":" + s, ":" + s');
    CommonPrefix(":", m, m');
    FieldOrder(a.hour, b.hour, 2, ":" + m, ":" + m');
  }

  /** While years have four digits, earlier times have smaller text. */
  lemma TextOrderOfCivil(a: Civil, b: Civil)
    requires ValidCivil(a) && ValidCivil(b) && CivilEarlier(a, b)
    requires 0 <= a.date.year <= 9999 && 0 <= b.date.year <= 9999
    ensures Claims.StringLess(CivilText(a), CivilText(b))
  {
    hide Padded, Claims.StringLess;
    assert Pow10(2) == 100 && Pow10(4) == 10000 by {
      assert Pow10(3) == 1000;
    }
    var t := Padded(a.hour, 2) + (":" + (Padded(a.min, 2) + (":" + (Padded(a.sec, 2) + "Z"))));
    var t' := Padded(b.hour, 2) + (":" + (Padded(b.min, 2) + (":" + (Padded(b.sec, 2) + "Z"))));
    var d, d' := Padded(a.date.day, 2) + ("T" + t), Padded(b.date.day, 2) + ("T" + t');
    var m, m' := Padded(a.date.month, 2) + ("-" + d), Padded(b.date.month, 2) + ("-" + d');
    if a.date == b.date {
      TextOrderOfTime(a, b);
    }
    CommonPrefix("T", t, t');
    FieldOrder(a.date.day, b.date.day, 2, "T" + t, "T" + t');
    CommonPrefix("-", d, d');
    FieldOrder(a.date.month, b.date.month, 2, "-" + d, "-" + d');
    CommonPrefix("-", m, m');
    FieldOrder(a.date.year, b.date.year, 4, "-" + m, "-" + m');
  }

  // ── the theorems ──────────────────────────────────────────────────────────

  /** The last second of the year 9999. */
  const LAST: nat := 253402300799

  const LAST_CIVIL := Civil(Date(9999, 12, 31), 23, 59, 59)

  lemma CountOf(t: Civil, days: nat, secs: nat)
    requires ValidCivil(t) && DaysFromCivil(t.date) == days
    requires secs == 86400 * days + 3600 * t.hour + 60 * t.min + t.sec
    ensures CivilFromUnixSecs(secs) == t
  {
    hide CivilFromUnixSecs, DaysFromCivil, DayCount;
    ForwardCountIsTheDayCount(t.date);
    CivilFromUnixSecsIsTheCalendar(secs, t);
  }

  lemma LastSecond()
    ensures CivilFromUnixSecs(LAST) == LAST_CIVIL
    ensures CivilFromUnixSecs(LAST + 1) == Civil(Date(10000, 1, 1), 0, 0, 0)
  {
    hide CivilFromUnixSecs;
    CountOf(LAST_CIVIL, 2932896, LAST);
    CountOf(Civil(Date(10000, 1, 1), 0, 0, 0), 2932897, LAST + 1);
  }

  lemma YearOfSeconds(secs: nat)
    ensures CivilFromUnixSecs(secs).date.year >= 1970
  {
    hide CivilFromDays;
    NeverBeforeTheEpoch(secs / 86400);
  }

  lemma FourDigitYears(secs: nat)
    ensures CivilFromUnixSecs(secs).date.year <= 9999 <==> secs <= LAST
  {
    hide CivilFromUnixSecs;
    LastSecond();
    if secs < LAST {
      EarlierSecondsEarlierCivil(secs, LAST);
    } else if secs > LAST + 1 {
      EarlierSecondsEarlierCivil(LAST + 1, secs);
    }
  }

  /** The text has the twenty characters of the grammar exactly up to the end of
      the year 9999; the year takes more room after that. */
  lemma TwentyCharactersIff(secs: nat)
    ensures |SecondsText(secs)| == 20 <==> secs <= LAST
  {
    var t := CivilFromUnixSecs(secs);
    CivilFromUnixSecsIsTheCalendar(secs, t);
    NeverBeforeTheEpoch(secs / 86400);
    FourDigitYears(secs);
    hide CivilFromUnixSecs, ValidDate, Padded;
    assert Pow10(2) == 100 && Pow10(4) == 10000 by {
      assert Pow10(3) == 1000;
    }
    PaddedIsDigits(t.date.month, 2);
    PaddedIsDigits(t.date.day, 2);
    PaddedIsDigits(t.hour, 2);
    PaddedIsDigits(t.min, 2);
    PaddedIsDigits(t.sec, 2);
    if t.date.year <= 9999 {
      PaddedIsDigits(t.date.year, 4);
    } else {
      TooWide(t.date.year, 4);
    }
  }

  lemma CivilTextIsDigits(t: Civil)
    requires ValidCivil(t) && 0 <= t.date.year <= 9999
    ensures CivilText(t) == Digits(t.date.year, 4) + ("-" + (Digits(t.date.month, 2) + ("-" + (Digits(t.date.day, 2) + ("T"
      + (Digits(t.hour, 2) + (":" + (Digits(t.min, 2) + (":" + (Digits(t.sec, 2) + "Z"))))))))))
    ensures Value(Digits(t.date.year, 4)) == Some(t.date.year) && Value(Digits(t.date.month, 2)) == Some(t.date.month)
    ensures Value(Digits(t.date.day, 2)) == Some(t.date.day) && Value(Digits(t.hour, 2)) == Some(t.hour)
    ensures Value(Digits(t.min, 2)) == Some(t.min) && Value(Digits(t.sec, 2)) == Some(t.sec)
  {
    hide Padded, Digits, Value;
    assert Pow10(2) == 100 && Pow10(4) == 10000 by {
      assert Pow10(3) == 1000;
    }
    PaddedIsDigits(t.date.year, 4);
    PaddedIsDigits(t.date.month, 2);
    PaddedIsDigits(t.date.day, 2);
    PaddedIsDigits(t.hour, 2);
    PaddedIsDigits(t.min, 2);
    PaddedIsDigits(t.sec, 2);
    ValueOfDigits(t.date.year, 4);
    ValueOfDigits(t.date.month, 2);
    ValueOfDigits(t.date.day, 2);
    ValueOfDigits(t.hour, 2);
    ValueOfDigits(t.min, 2);
    ValueOfDigits(t.sec, 2);
  }

  lemma SliceOfText(a: string, b: string, c: string, d: string, e: string, f: string, s: string)
    requires |a| == 4 && |b| == |c| == |d| == |e| == |f| == 2
    requires s == a + ("-" + (b + ("-" + (c + ("T" + (d + (":" + (e + (":" + (f + "Z"))))))))))
    ensures |s| == 20 && s[..4] == a && s[5..7] == b && s[8..10] == c && s[11..13] == d && s[14..16] == e && s[17..19] == f
    ensures s[4] == '-' && s[7] == '-' && s[10] == 'T' && s[13] == ':' && s[16] == ':' && s[19] == 'Z'
  {
    var r5 := f + "Z";
    var r4 := e + (":" + r5);
    var r3 := d + (":" + r4);
    var r2 := c + ("T" + r3);
    var r1 := b + ("-" + r2);
    assert s[..4] == a && s[5..] == r1;
    assert r1[..2] == b && r1[3..] == r2 && s[8..] == r2;
    assert r2[..2] == c && r2[3..] == r3 && s[11..] == r3;
    assert r3[..2] == d && r3[3..] == r4 && s[14..] == r4;
    assert r4[..2] == e && r4[3..] == r5 && s[17..] == r5;
    assert r5[..2] == f;
  }

  lemma ReadsBackCivil(t: Civil)
    requires ValidCivil(t) && 0 <= t.date.year <= 9999
    ensures Parse(CivilText(t)) == Some(t)
  {
    hide ValidCivil, CivilText, Value, Digits;
    CivilTextIsDigits(t);
    SliceOfText(Digits(t.date.year, 4), Digits(t.date.month, 2), Digits(t.date.day, 2),
                Digits(t.hour, 2), Digits(t.min, 2), Digits(t.sec, 2), CivilText(t));
  }

  /** The text is a date-time of the grammar, and reading it gives the time back. */
  lemma ReadsBack(secs: nat)
    requires secs <= LAST
    ensures Parse(SecondsText(secs)) == Some(CivilFromUnixSecs(secs))
    ensures ValidCivil(CivilFromUnixSecs(secs)) && SecondCount(CivilFromUnixSecs(secs)) == secs
  {
    hide CivilFromUnixSecs, CivilFromDays, SecondCount, ValidDate, CivilText, Parse;
    var t := CivilFromUnixSecs(secs);
    CivilFromUnixSecsIsTheCalendar(secs, t);
    FourDigitYears(secs);
    YearOfSeconds(secs);
    ReadsBackCivil(t);
  }

  /** Up to the end of the year 9999 the text orders as the clock does. */
  lemma TextOrderIsTimeOrder(a: nat, b: nat)
    requires a <= LAST && b <= LAST
    ensures Claims.StringLess(SecondsText(a), SecondsText(b)) <==> a < b
    ensures SecondsText(a) == SecondsText(b) <==> a == b
  {
    hide CivilFromUnixSecs, CivilFromDays, CivilText, Claims.StringLess, SecondCount, ValidDate, CivilEarlier, Parse;
    Claims.StringLessIsStrict(SecondsText(a), SecondsText(b));
    ReadsBack(a);
    ReadsBack(b);
    var x, y := CivilFromUnixSecs(a), CivilFromUnixSecs(b);
    CivilFromUnixSecsIsTheCalendar(a, x);
    CivilFromUnixSecsIsTheCalendar(b, y);
    FourDigitYears(a);
    FourDigitYears(b);
    YearOfSeconds(a);
    YearOfSeconds(b);
    if a < b {
      EarlierSecondsEarlierCivil(a, b);
      TextOrderOfCivil(x, y);
    } else if b < a {
      EarlierSecondsEarlierCivil(b, a);
      TextOrderOfCivil(y, x);
    }
  }

  ghost predicate OrderedUpTo(bound: nat) {
    forall a: nat, b: nat | a < b <= bound :: Claims.StringLess(SecondsText(a), SecondsText(b))
  }

  lemma YearComesFirst(t: Civil)
    requires ValidCivil(t) && t.date.year >= 0
    ensures CivilText(t) != "" && CivilText(t)[0] == Padded(t.date.year, 4)[0]
  {
    hide ValidDate;
  }

  lemma FirstDigits()
    ensures Padded(10000, 4)[0] == '1' && Padded(9999, 4)[0] == '9'
  {
    assert Decimal(10) == "10" && Decimal(99) == "99";
    assert Decimal(100) == "100" && Decimal(999) == "999";
    assert Decimal(1000) == "1000" && Decimal(9999) == "9999";
    assert Decimal(10000) == "10000";
  }

  /** One second later the order breaks: "10000" sorts before "9999". */
  lemma OrderBreaksAfter()
    ensures Claims.StringLess(SecondsText(LAST + 1), SecondsText(LAST))
  {
    hide CivilFromUnixSecs, CivilText;
    LastSecond();
    YearComesFirst(CivilFromUnixSecs(LAST + 1));
    YearComesFirst(CivilFromUnixSecs(LAST));
    FirstDigits();
    assert SecondsText(LAST + 1)[0] == '1' && SecondsText(LAST)[0] == '9';
  }

  /** The whole truth about ordering. */
  lemma OrderedIff(bound: nat)
    ensures OrderedUpTo(bound) <==> bound <= LAST
  {
    hide SecondsText, Claims.StringLess;
    if bound <= LAST {
      forall a: nat, b: nat | a < b <= bound
        ensures Claims.StringLess(SecondsText(a), SecondsText(b))
      {
        TextOrderIsTimeOrder(a, b);
      }
    } else {
      OrderBreaksAfter();
      Claims.StringLessIsStrict(SecondsText(LAST), SecondsText(LAST + 1));
      assert !Claims.StringLess(SecondsText(LAST), SecondsText(LAST + 1));
    }
  }

  // ── one text, one second ──────────────────────────────────────────────────

  lemma {:induction false} ValueOfDecimal(n: nat)
    ensures Value(Decimal(n)) == Some(n)
  {
    if n < 10 {
      assert Decimal(n)[..0] == "";
    } else {
      ValueOfDecimal(n / 10);
      assert Decimal(n)[..|Decimal(n)| - 1] == Decimal(n / 10);
    }
  }

  lemma ValueOfLast(t: string, c: char)
    ensures Value(t + [c]) ==
      if Value(t).Some? && IsDigit(c) then Some(10 * Value(t).value + (c - '0') as int) else None
  {
    assert (t + [c])[..|t|] == t;
  }

  lemma {:induction false} ZerosAreZero(k: nat)
    ensures Value(Zeros(k)) == Some(0)
  {
    if k > 0 {
      ZerosAreZero(k - 1);
      ZerosAreDigits(k - 1);
      ValueOfLast(Zeros(k - 1), '0');
    }
  }

  lemma {:induction false} LeadingZeros(k: nat, s: string)
    ensures Value(Zeros(k) + s) == Value(s)
  {
    hide Value, Zeros;
    if s == "" {
      ZerosAreZero(k);
      EmptyIsZero();
      assert Zeros(k) + s == Zeros(k);
    } else {
      var front, c := s[..|s| - 1], s[|s| - 1];
      LeadingZeros(k, front);
      ValueOfLast(front, c);
      ValueOfLast(Zeros(k) + front, c);
      assert s == front + [c] && Zeros(k) + s == (Zeros(k) + front) + [c];
    }
  }

  lemma EmptyIsZero()
    ensures Value("") == Some(0)
  {
  }

  /** Padding never makes two numbers look alike, however long they are. */
  lemma PaddedValue(n: nat, width: nat)
    ensures Value(Padded(n, width)) == Some(n)
  {
    ValueOfDecimal(n);
    if |Decimal(n)| < width {
      LeadingZeros(width - |Decimal(n)|, Decimal(n));
    }
  }

  /** The sixteen characters after the year decide the rest of the time: put the
      leap year zero in front of them and they read back. */
  lemma TailReadsBack(t: Civil)
    requires ValidCivil(t)
    ensures |CivilTail(t)| == 16
    ensures Parse(Padded(0, 4) + CivilTail(t)) == Some(t.(date := t.date.(year := 0)))
  {
    hide Parse, Padded, Value, Digits;
    var t0 := t.(date := t.date.(year := 0));
    assert CivilTail(t0) == CivilTail(t);
    CivilTextIsDigits(t0);
    assert Pow10(2) == 100;
    PaddedIsDigits(t.date.month, 2);
    PaddedIsDigits(t.date.day, 2);
    PaddedIsDigits(t.hour, 2);
    PaddedIsDigits(t.min, 2);
    PaddedIsDigits(t.sec, 2);
    ReadsBackCivil(t0);
  }

  lemma CivilTextDecides(a: Civil, b: Civil)
    requires ValidCivil(a) && ValidCivil(b) && a.date.year >= 0 && b.date.year >= 0
    requires CivilText(a) == CivilText(b)
    ensures a == b
  {
    hide Parse, Padded, Value, CivilTail, ValidCivil;
    TailReadsBack(a);
    TailReadsBack(b);
    var p, q := Padded(a.date.year, 4), Padded(b.date.year, 4);
    assert CivilText(a)[..|p|] == p && CivilText(b)[..|q|] == q;
    assert CivilText(a)[|p|..] == CivilTail(a) && CivilText(b)[|q|..] == CivilTail(b);
    PaddedValue(a.date.year, 4);
    PaddedValue(b.date.year, 4);
  }

  lemma TextDecidesTheSecond(a: nat, b: nat)
    ensures SecondsText(a) == SecondsText(b) <==> a == b
  {
    hide CivilFromUnixSecs, CivilText, SecondCount, ValidCivil, ValidDate;
    var x, y := CivilFromUnixSecs(a), CivilFromUnixSecs(b);
    CivilFromUnixSecsIsTheCalendar(a, x);
    CivilFromUnixSecsIsTheCalendar(b, y);
    YearOfSeconds(a);
    YearOfSeconds(b);
    if SecondsText(a) == SecondsText(b) {
      CivilTextDecides(x, y);
    }
  }

  /** For every system time: two have the same text exactly when they share their
      whole second, with times before the epoch read as the epoch. */
  lemma FormatDropsFractions(a: int, b: int)
    ensures FormatRfc3339(a) == FormatRfc3339(b) <==> Max(a, 0) / NANOS == Max(b, 0) / NANOS
  {
    hide SecondsText;
    TextDecidesTheSecond(Max(a, 0) / NANOS, Max(b, 0) / NANOS);
  }
}
