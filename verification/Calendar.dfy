/**
 Timestamps of the form yyyy-MM-ddTHH:mm:ssZ (RFC 3339 section 5.6, UTC): writing, reading, and
 the seconds since the epoch they stand for.
 */
module Calendar {
  import opened Wrappers

  datatype DateTime = DateTime(year: nat, month: nat, day: nat, hour: nat, minute: nat, second: nat)

  predicate IsLeap(y: nat) { y % 4 == 0 && (y % 100 != 0 || y % 400 == 0) }

  function DaysInMonth(y: nat, m: nat): nat {
    if m == 2 then (if IsLeap(y) then 29 else 28)
    else if m == 4 || m == 6 || m == 9 || m == 11 then 30
    else 31
  }

  predicate Valid(t: DateTime) {
    && 1 <= t.year <= 9999
    && 1 <= t.month <= 12
    && 1 <= t.day <= DaysInMonth(t.year, t.month)
    && t.hour < 24 && t.minute < 60 && t.second < 60
  }

  // ---- Text ----

  function Digit(n: nat): char
    requires n < 10
  {
    "0123456789"[n]
  }

  // The last `digits` decimal digits of n, zero-padded.
  function Padded(n: nat, digits: nat): (s: string)
    ensures |s| == digits
  {
    if digits == 0 then "" else Padded(n / 10, digits - 1) + [Digit(n % 10)]
  }

  function Pow10(digits: nat): nat { if digits == 0 then 1 else 10 * Pow10(digits - 1) }

  function Number(s: string): Option<nat> {
    if s == "" then Some(0)
    else
      var c := s[|s| - 1];
      match Number(s[..|s| - 1])
      case Some(high) => if '0' <= c <= '9' then Some(10 * high + (c - '0') as int) else None
      case None => None
  }

  lemma {:induction false} PaddedRoundTrip(n: nat, digits: nat)
    requires n < Pow10(digits)
    ensures Number(Padded(n, digits)) == Some(n)
  {
    if digits > 0 {
      PaddedRoundTrip(n / 10, digits - 1);
      assert Padded(n, digits)[..digits - 1] == Padded(n / 10, digits - 1);
    }
  }

  // An integer in an f-string.
  function Decimal(n: nat): string { if n < 10 then [Digit(n)] else Decimal(n / 10) + [Digit(n % 10)] }

  lemma NumberMore(front: string, d: nat)
    requires Number(front).Some? && d < 10
    ensures Number(front + [Digit(d)]) == Some(10 * Number(front).value + d)
  {
    assert (front + [Digit(d)])[..|front + [Digit(d)]| - 1] == front;
  }

  lemma {:induction false} DecimalRoundTrip(n: nat)
    ensures Number(Decimal(n)) == Some(n)
  {
    if n >= 10 {
      DecimalRoundTrip(n / 10);
      NumberMore(Decimal(n / 10), n % 10);
    } else {
      NumberMore("", n);
      assert "" + [Digit(n)] == [Digit(n)];
    }
  }

  function FormatTs(t: DateTime): (s: string)
    ensures |s| == 20
  {
    Padded(t.year, 4) + "-" + Padded(t.month, 2) + "-" + Padded(t.day, 2) + "T" +
    Padded(t.hour, 2) + ":" + Padded(t.minute, 2) + ":" + Padded(t.second, 2) + "Z"
  }

  function ParseTs(s: string): Option<DateTime> {
    if |s| != 20 || s[4] != '-' || s[7] != '-' || s[10] != 'T' || s[13] != ':' || s[16] != ':' || s[19] != 'Z' then None
    else
      match (Number(s[..4]), Number(s[5..7]), Number(s[8..10]), Number(s[11..13]), Number(s[14..16]), Number(s[17..19]))
      case (Some(y), Some(mo), Some(d), Some(h), Some(mi), Some(sec)) =>
        var t := DateTime(y, mo, d, h, mi, sec);
        if Valid(t) then Some(t) else None
      case _ => None
  }

  // The two halves of a timestamp, taken apart by position.
  lemma DatePieces(y: string, mo: string, d: string, rest: string)
    requires |y| == 4 && |mo| == |d| == 2
    ensures var s := y + "-" + mo + "-" + d + rest; s[..4] == y && s[5..7] == mo && s[8..10] == d
  {
  }

  lemma TimePieces(date: string, h: string, mi: string, sec: string)
    requires |date| == 10 && |h| == |mi| == |sec| == 2
    ensures var s := date + "T" + h + ":" + mi + ":" + sec + "Z"; s[11..13] == h && s[14..16] == mi && s[17..19] == sec
  {
  }

  lemma FormatFields(t: DateTime)
    ensures var s := FormatTs(t);
            && s[..4] == Padded(t.year, 4) && s[5..7] == Padded(t.month, 2) && s[8..10] == Padded(t.day, 2)
            && s[11..13] == Padded(t.hour, 2) && s[14..16] == Padded(t.minute, 2) && s[17..19] == Padded(t.second, 2)
  {
    var date := Padded(t.year, 4) + "-" + Padded(t.month, 2) + "-" + Padded(t.day, 2);
    var time := "T" + Padded(t.hour, 2) + ":" + Padded(t.minute, 2) + ":" + Padded(t.second, 2) + "Z";
    DatePieces(Padded(t.year, 4), Padded(t.month, 2), Padded(t.day, 2), time);
    TimePieces(date, Padded(t.hour, 2), Padded(t.minute, 2), Padded(t.second, 2));
    assert FormatTs(t) == date + time;
  }

  lemma FormatMarks(t: DateTime)
    ensures var s := FormatTs(t);
            s[4] == '-' && s[7] == '-' && s[10] == 'T' && s[13] == ':' && s[16] == ':' && s[19] == 'Z'
  {
  }

  lemma SmallPowers()
    ensures Pow10(2) == 100 && Pow10(4) == 10000
  {
    assert Pow10(2) == 100;
  }

  /** What strftime writes, strptime reads back. */
  lemma TsRoundTrip(t: DateTime)
    requires Valid(t)
    ensures ParseTs(FormatTs(t)) == Some(t)
  {
    FormatFields(t);
    FormatMarks(t);
    FieldsRoundTrip(t);
  }

  lemma FieldsRoundTrip(t: DateTime)
    requires Valid(t)
    ensures Number(Padded(t.year, 4)) == Some(t.year) && Number(Padded(t.month, 2)) == Some(t.month)
    ensures Number(Padded(t.day, 2)) == Some(t.day) && Number(Padded(t.hour, 2)) == Some(t.hour)
    ensures Number(Padded(t.minute, 2)) == Some(t.minute) && Number(Padded(t.second, 2)) == Some(t.second)
  {
    SmallPowers();
    PaddedRoundTrip(t.year, 4);
    PaddedRoundTrip(t.month, 2);
    PaddedRoundTrip(t.day, 2);
    PaddedRoundTrip(t.hour, 2);
    PaddedRoundTrip(t.minute, 2);
    PaddedRoundTrip(t.second, 2);
  }

  lemma PaddedMore(n: nat, digits: nat, d: nat)
    requires d < 10
    ensures Padded(10 * n + d, digits + 1) == Padded(n, digits) + [Digit(d)]
  {
    assert (10 * n + d) / 10 == n && (10 * n + d) % 10 == d;
  }

  lemma NumberSplits(s: string, d: nat)
    requires s != "" && Number(s).Some? && d == (s[|s| - 1] - '0') as int
    ensures d < 10 && Digit(d) == s[|s| - 1] && Number(s[..|s| - 1]).Some?
    ensures Number(s).value == 10 * Number(s[..|s| - 1]).value + d
  {
  }

  lemma {:induction false} PaddedOfNumber(s: string)
    requires Number(s).Some?
    ensures Number(s).value < Pow10(|s|) && Padded(Number(s).value, |s|) == s
  {
    if s != "" {
      var front, d := s[..|s| - 1], (s[|s| - 1] - '0') as int;
      NumberSplits(s, d);
      PaddedOfNumber(front);
      PaddedMore(Number(front).value, |front|, d);
      assert s == front + [s[|s| - 1]];
    }
  }

  lemma TsPieces(s: string)
    requires |s| == 20 && s[4] == '-' && s[7] == '-' && s[10] == 'T' && s[13] == ':' && s[16] == ':' && s[19] == 'Z'
    ensures s == s[..4] + "-" + s[5..7] + "-" + s[8..10] + "T" + s[11..13] + ":" + s[14..16] + ":" + s[17..19] + "Z"
  {
  }

  /** What strptime reads, strftime would have written: a timestamp has exactly one accepted spelling. */
  lemma TsReadsBack(s: string)
    requires ParseTs(s).Some?
    ensures Valid(ParseTs(s).value) && FormatTs(ParseTs(s).value) == s
  {
    TsPieces(s);
    PaddedOfNumber(s[..4]);
    PaddedOfNumber(s[5..7]);
    PaddedOfNumber(s[8..10]);
    PaddedOfNumber(s[11..13]);
    PaddedOfNumber(s[14..16]);
    PaddedOfNumber(s[17..19]);
  }

  // ---- Seconds since the epoch ----

  const EPOCH_ORDINAL := 719163

  function YearDays(y: nat): nat { if IsLeap(y) then 366 else 365 }

  // The days of all years before y.
  function DaysBeforeYear(y: nat): nat { if y <= 1 then 0 else DaysBeforeYear(y - 1) + YearDays(y - 1) }

  function DaysBeforeMonth(y: nat, m: nat): nat {
    if m <= 1 then 0 else DaysBeforeMonth(y, m - 1) + DaysInMonth(y, m - 1)
  }

  function Ordinal(t: DateTime): nat
    requires t.year >= 1
  {
    DaysBeforeYear(t.year) + DaysBeforeMonth(t.year, t.month) + t.day
  }

  function EpochSeconds(t: DateTime): int
    requires t.year >= 1
  {
    (Ordinal(t) - EPOCH_ORDINAL) * 86400 + t.hour * 3600 + t.minute * 60 + t.second
  }

  function NextDay(t: DateTime): DateTime {
    if t.day < DaysInMonth(t.year, t.month) then t.(day := t.day + 1)
    else if t.month < 12 then t.(month := t.month + 1, day := 1)
    else t.(year := t.year + 1, month := 1, day := 1)
  }

  function NextSecond(t: DateTime): DateTime {
    if t.second < 59 then t.(second := t.second + 1)
    else if t.minute < 59 then t.(minute := t.minute + 1, second := 0)
    else if t.hour < 23 then t.(hour := t.hour + 1, minute := 0, second := 0)
    else NextDay(t.(hour := 0, minute := 0, second := 0))
  }

  predicate LastSecond(t: DateTime) { t == DateTime(9999, 12, 31, 23, 59, 59) }

  // Counting the multiples of 4, 100 and 400 from one year to the next.
  lemma Multiples(y: nat)
    requires y >= 1
    ensures y / 4 == (y - 1) / 4 + (if y % 4 == 0 then 1 else 0)
    ensures y / 100 == (y - 1) / 100 + (if y % 100 == 0 then 1 else 0)
    ensures y / 400 == (y - 1) / 400 + (if y % 400 == 0 then 1 else 0)
  {
  }

  lemma LeapRules(y: nat)
    ensures y % 400 == 0 ==> y % 100 == 0
    ensures y % 100 == 0 ==> y % 4 == 0
  {
    if y % 400 == 0 {
      assert y == 100 * (4 * (y / 400));
    }
    if y % 100 == 0 {
      assert y == 4 * (25 * (y / 100));
    }
  }

  /** Every fourth year is leap, but of the hundredth ones only every fourth. */
  lemma {:induction false} DaysInClosedForm(y: nat)
    requires y >= 1
    ensures DaysBeforeYear(y) == (y - 1) * 365 + (y - 1) / 4 - (y - 1) / 100 + (y - 1) / 400
  {
    if y > 1 {
      DaysInClosedForm(y - 1);
      Multiples(y - 1);
      LeapRules(y - 1);
    }
  }

  /** Thirty days hath September: the days of a year before each of its months. */
  lemma {:induction false} MonthsInClosedForm(y: nat, m: nat)
    requires 1 <= m <= 12
    ensures DaysBeforeMonth(y, m) == (367 * m - 362) / 12 - (if m <= 2 then 0 else if IsLeap(y) then 1 else 2)
  {
    if m > 1 {
      MonthsInClosedForm(y, m - 1);
    }
  }

  lemma EpochIsZero()
    ensures EpochSeconds(DateTime(1970, 1, 1, 0, 0, 0)) == 0
  {
    var t := DateTime(1970, 1, 1, 0, 0, 0);
    DaysInClosedForm(1970);
    assert DaysBeforeYear(1970) == 1969 * 365 + 492 - 19 + 4;
    assert DaysBeforeMonth(1970, 1) == 0;
    assert Ordinal(t) == EPOCH_ORDINAL;
  }

  lemma MonthsFillYear(y: nat)
    ensures DaysBeforeMonth(y, 12) + 31 == YearDays(y)
  {
    var feb := DaysInMonth(y, 2);
    assert DaysBeforeMonth(y, 1) == 0;
    assert DaysBeforeMonth(y, 2) == 31;
    assert DaysBeforeMonth(y, 3) == 31 + feb;
    assert DaysBeforeMonth(y, 4) == 62 + feb;
    assert DaysBeforeMonth(y, 5) == 92 + feb;
    assert DaysBeforeMonth(y, 6) == 123 + feb;
    assert DaysBeforeMonth(y, 7) == 153 + feb;
    assert DaysBeforeMonth(y, 8) == 184 + feb;
    assert DaysBeforeMonth(y, 9) == 215 + feb;
    assert DaysBeforeMonth(y, 10) == 245 + feb;
    assert DaysBeforeMonth(y, 11) == 276 + feb;
    assert DaysBeforeMonth(y, 12) == 306 + feb;
  }

  lemma NextDayOrdinal(t: DateTime)
    requires Valid(t)
    ensures Ordinal(NextDay(t)) == Ordinal(t) + 1
  {
    MonthsFillYear(t.year);
  }

  lemma NextDayValid(t: DateTime)
    requires Valid(t) && !(t.year == 9999 && t.month == 12 && t.day == 31)
    ensures Valid(NextDay(t))
  {
  }

  /** One more second on the calendar is one more second since the epoch, over every month and leap year. */
  lemma TickIsOneSecond(t: DateTime)
    requires Valid(t) && !LastSecond(t)
    ensures Valid(NextSecond(t)) && EpochSeconds(NextSecond(t)) == EpochSeconds(t) + 1
  {
    if t.second == 59 && t.minute == 59 && t.hour == 23 {
      var midnight := t.(hour := 0, minute := 0, second := 0);
      NextDayOrdinal(midnight);
      NextDayValid(midnight);
      assert NextDay(midnight).hour == NextDay(midnight).minute == NextDay(midnight).second == 0;
    } else {
      assert Ordinal(NextSecond(t)) == Ordinal(t);
    }
  }

  // ---- Every second has exactly one date ----

  const FIRST_SECOND := -62_135_596_800
  const LAST_SECOND := 253_402_300_799

  lemma FirstSecondIs()
    ensures EpochSeconds(DateTime(1, 1, 1, 0, 0, 0)) == FIRST_SECOND
  {
    assert DaysBeforeYear(1) == 0 && DaysBeforeMonth(1, 1) == 0;
  }

  lemma LastSecondIs()
    ensures EpochSeconds(DateTime(9999, 12, 31, 23, 59, 59)) == LAST_SECOND
  {
    DaysInClosedForm(9999);
    MonthsInClosedForm(9999, 12);
    assert DaysBeforeYear(9999) == 3_651_694;
    assert DaysBeforeMonth(9999, 12) == 334;
  }

  lemma BeforeLast(t: DateTime)
    requires Valid(t) && EpochSeconds(t) < LAST_SECOND
    ensures !LastSecond(t)
  {
    LastSecondIs();
  }

  lemma OneSecondOn(before: DateTime, sec: int) returns (t: DateTime)
    requires Valid(before) && EpochSeconds(before) == sec && sec < LAST_SECOND
    ensures Valid(t) && EpochSeconds(t) == sec + 1
  {
    BeforeLast(before);
    TickIsOneSecond(before);
    t := NextSecond(before);
  }

  lemma {:induction false} SecondHasDate(sec: int) returns (t: DateTime)
    requires FIRST_SECOND <= sec <= LAST_SECOND
    ensures Valid(t) && EpochSeconds(t) == sec
    decreases sec - FIRST_SECOND
  {
    if sec == FIRST_SECOND {
      t := DateTime(1, 1, 1, 0, 0, 0);
      FirstSecondIs();
    } else {
      var before := SecondHasDate(sec - 1);
      t := OneSecondOn(before, sec - 1);
    }
  }

  lemma {:induction false} YearsAscend(y: nat, z: nat)
    requires 1 <= y < z
    ensures DaysBeforeYear(y) + YearDays(y) <= DaysBeforeYear(z)
  {
    if y + 1 < z {
      YearsAscend(y, z - 1);
    }
  }

  lemma {:induction false} MonthsAscend(y: nat, m: nat, n: nat)
    requires 1 <= m < n
    ensures DaysBeforeMonth(y, m) + DaysInMonth(y, m) <= DaysBeforeMonth(y, n)
  {
    if m + 1 < n {
      MonthsAscend(y, m, n - 1);
    }
  }

  lemma WithinYear(t: DateTime)
    requires Valid(t)
    ensures 1 <= DaysBeforeMonth(t.year, t.month) + t.day <= YearDays(t.year)
  {
    MonthsFillYear(t.year);
    if t.month < 12 {
      MonthsAscend(t.year, t.month, 12);
    }
  }

  predicate SameDate(a: DateTime, b: DateTime) { a.year == b.year && a.month == b.month && a.day == b.day }

  predicate EarlierDate(a: DateTime, b: DateTime) {
    a.year < b.year || (a.year == b.year && (a.month < b.month || (a.month == b.month && a.day < b.day)))
  }

  lemma EarlierIsLess(a: DateTime, b: DateTime)
    requires Valid(a) && Valid(b) && EarlierDate(a, b)
    ensures Ordinal(a) < Ordinal(b)
  {
    if a.year < b.year {
      YearsAscend(a.year, b.year);
      WithinYear(a);
      WithinYear(b);
    } else if a.month < b.month {
      MonthsAscend(a.year, a.month, b.month);
    }
  }

  lemma SameOrdinalIsSameDate(a: DateTime, b: DateTime)
    requires Valid(a) && Valid(b)
    ensures Ordinal(a) == Ordinal(b) <==> SameDate(a, b)
  {
    if EarlierDate(a, b) {
      EarlierIsLess(a, b);
    } else if EarlierDate(b, a) {
      EarlierIsLess(b, a);
    }
  }

  lemma DayAndTime(t: DateTime)
    requires Valid(t)
    ensures var rest := t.hour * 3600 + t.minute * 60 + t.second;
            && EpochSeconds(t) == (Ordinal(t) - EPOCH_ORDINAL) * 86400 + rest && rest < 86400
            && t.hour == rest / 3600 && t.minute == rest % 3600 / 60 && t.second == rest % 60
  {
  }

  /** From year 1 to 9999, every second has a date and only one. */
  lemma DatesAreSeconds(sec: int)
    requires FIRST_SECOND <= sec <= LAST_SECOND
    ensures exists t :: Valid(t) && EpochSeconds(t) == sec
    ensures forall a, b :: Valid(a) && Valid(b) && EpochSeconds(a) == EpochSeconds(b) == sec ==> a == b
  {
    var t := SecondHasDate(sec);
    forall a, b | Valid(a) && Valid(b) && EpochSeconds(a) == EpochSeconds(b) == sec ensures a == b {
      DayAndTime(a);
      DayAndTime(b);
      SameDaySameTime(Ordinal(a), Ordinal(b), a, b);
      SameOrdinalIsSameDate(a, b);
    }
  }

  lemma SameDaySameTime(x: int, y: int, a: DateTime, b: DateTime)
    requires Valid(a) && Valid(b) && x == Ordinal(a) && y == Ordinal(b) && EpochSeconds(a) == EpochSeconds(b)
    ensures x == y && a.hour == b.hour && a.minute == b.minute && a.second == b.second
  {
    DayAndTime(a);
    DayAndTime(b);
  }
}
