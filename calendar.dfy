/**
 * Civil (proleptic Gregorian) dates and times of day, the day arithmetic that
 * Carbon's `addDays` performs on them, and PHP's `Y-m-d\TH:i:s` format.
 */
module Calendar {
  import opened Wrappers

  datatype Date = Date(year: int, month: int, day: int)
  datatype Time = Time(hour: int, minute: int, second: int)
  datatype DateTime = DateTime(date: Date, time: Time)

  predicate IsLeapYear(y: int) {
    y % 4 == 0 && (y % 100 != 0 || y % 400 == 0)
  }

  function DaysInYear(y: int): int {
    if IsLeapYear(y) then 366 else 365
  }

  function DaysInMonth(y: int, m: int): int
    requires 1 <= m <= 12
  {
    if m == 2 then (if IsLeapYear(y) then 29 else 28)
    else if m == 4 || m == 6 || m == 9 || m == 11 then 30
    else 31
  }

  predicate ValidDate(d: Date) {
    1 <= d.month <= 12 && 1 <= d.day <= DaysInMonth(d.year, d.month)
  }

  predicate ValidTime(t: Time) {
    0 <= t.hour < 24 && 0 <= t.minute < 60 && 0 <= t.second < 60
  }

  predicate ValidDateTime(dt: DateTime) {
    ValidDate(dt.date) && ValidTime(dt.time)
  }

  // ---------------------------------------------------------------------------
  // Day numbers: the reference against which day arithmetic is specified.

  /** Days from 0001-01-01 to the first of January of year `y` (negative before it). */
  function DaysBeforeYear(y: int): int {
    var k := y - 1;
    365 * k + k / 4 - k / 100 + k / 400
  }

  /** Days from the first of January to the first of month `m` in year `y`. */
  function DaysBeforeMonth(y: int, m: int): int
    requires 1 <= m <= 12
  {
    [0, 31, 59, 90, 120, 151, 181, 212, 243, 273, 304, 334][m - 1]
      + (if m > 2 && IsLeapYear(y) then 1 else 0)
  }

  /** The number of the day counted from 0001-01-01, which is day 0. */
  function DayNumber(d: Date): int
    requires ValidDate(d)
  {
    DaysBeforeYear(d.year) + DaysBeforeMonth(d.year, d.month) + d.day - 1
  }

  lemma YearLength(y: int)
    ensures DaysBeforeYear(y + 1) == DaysBeforeYear(y) + DaysInYear(y)
  {
    StepOver(y - 1, 4);
    StepOver(y - 1, 100);
    StepOver(y - 1, 400);
  }

  /** Floor division by `n` goes up by one exactly when the next number is a multiple of `n`. */
  lemma StepOver(k: int, n: int)
    requires n == 4 || n == 100 || n == 400
    ensures (k + 1) / n == k / n + (if (k + 1) % n == 0 then 1 else 0)
  {
    if n == 4 {
      assert (k + 1) / 4 == k / 4 + (if (k + 1) % 4 == 0 then 1 else 0);
    } else if n == 100 {
      assert (k + 1) / 100 == k / 100 + (if (k + 1) % 100 == 0 then 1 else 0);
    } else {
      assert (k + 1) / 400 == k / 400 + (if (k + 1) % 400 == 0 then 1 else 0);
    }
  }

  lemma MonthLength(y: int, m: int)
    requires 1 <= m < 12
    ensures DaysBeforeMonth(y, m + 1) == DaysBeforeMonth(y, m) + DaysInMonth(y, m)
  {
  }

  lemma {:induction false} YearsOrdered(a: int, b: int)
    requires a < b
    ensures DaysBeforeYear(a) + DaysInYear(a) <= DaysBeforeYear(b)
    decreases b - a
  {
    YearLength(a);
    if a + 1 < b {
      YearsOrdered(a + 1, b);
    }
  }

  lemma {:induction false} MonthsOrdered(y: int, a: int, b: int)
    requires 1 <= a < b <= 12
    ensures DaysBeforeMonth(y, a) + DaysInMonth(y, a) <= DaysBeforeMonth(y, b)
    decreases b - a
  {
    MonthLength(y, a);
    if a + 1 < b {
      MonthsOrdered(y, a + 1, b);
    }
  }

  /** A valid date's day number lies inside its own year. */
  lemma DayNumberInYear(d: Date)
    requires ValidDate(d)
    ensures DaysBeforeYear(d.year) <= DayNumber(d) < DaysBeforeYear(d.year) + DaysInYear(d.year)
  {
    if d.month < 12 {
      MonthsOrdered(d.year, d.month, 12);
    }
  }

  /** Different valid dates have different day numbers. */
  lemma DayNumberInjective(a: Date, b: Date)
    requires ValidDate(a) && ValidDate(b)
    requires DayNumber(a) == DayNumber(b)
    ensures a == b
  {
    DayNumberInYear(a);
    DayNumberInYear(b);
    if a.year < b.year {
      YearsOrdered(a.year, b.year);
    } else if b.year < a.year {
      YearsOrdered(b.year, a.year);
    } else if a.month < b.month {
      MonthsOrdered(a.year, a.month, b.month);
    } else if b.month < a.month {
      MonthsOrdered(a.year, b.month, a.month);
    }
  }

  // ---------------------------------------------------------------------------
  // Day arithmetic.

  /** The calendar day after `d`, rolling over the end of a month and of a year. */
  function NextDay(d: Date): (r: Date)
    requires ValidDate(d)
    ensures ValidDate(r) && DayNumber(r) == DayNumber(d) + 1
  {
    if d.day < DaysInMonth(d.year, d.month) then Date(d.year, d.month, d.day + 1)
    else if d.month < 12 then
      MonthLength(d.year, d.month);
      Date(d.year, d.month + 1, 1)
    else
      YearLength(d.year);
      Date(d.year + 1, 1, 1)
  }

  /** Carbon's `addDays(n)` on the calendar date, stepping one day at a time. */
  function AddDays(d: Date, n: nat): (r: Date)
    requires ValidDate(d)
    ensures ValidDate(r) && DayNumber(r) == DayNumber(d) + n
    decreases n
  {
    if n == 0 then d else AddDays(NextDay(d), n - 1)
  }

  /** `AddDays(d, n)` is the one valid date `n` days after `d`. */
  lemma AddDaysUnique(d: Date, n: nat, r: Date)
    requires ValidDate(d) && ValidDate(r)
    requires DayNumber(r) == DayNumber(d) + n
    ensures r == AddDays(d, n)
  {
    DayNumberInjective(r, AddDays(d, n));
  }

  // ---------------------------------------------------------------------------
  // PHP's date format `Y-m-d\TH:i:s`.

  predicate IsDigit(c: char) {
    '0' <= c <= '9'
  }

  predicate AllDigits(s: string) {
    forall i :: 0 <= i < |s| ==> IsDigit(s[i])
  }

  function DigitChar(n: int): char
    requires 0 <= n < 10
  {
    (n + '0' as int) as char
  }

  function DigitValue(c: char): int {
    c as int - '0' as int
  }

  /** The decimal digits of `n`, without leading zeros. */
  function Digits(n: nat): (s: string)
    ensures |s| >= 1 && AllDigits(s)
    decreases n
  {
    if n < 10 then [DigitChar(n)] else Digits(n / 10) + [DigitChar(n % 10)]
  }

  /** `s` with zeros put in front until it is at least `width` long. */
  function PadLeft(s: string, width: nat): (r: string)
    ensures |r| == if |s| >= width then |s| else width
    decreases width - |s|
  {
    if |s| >= width then s else PadLeft(['0'] + s, width)
  }

  /** A two-digit field: `m`, `d`, `H`, `i` and `s`. */
  function TwoDigits(n: nat): (r: string)
    ensures n < 100 ==> |r| == 2
  {
    assert n < 10 || Digits(n) == Digits(n / 10) + [DigitChar(n % 10)];
    PadLeft(Digits(n), 2)
  }

  /** `Y`: at least four digits, with a minus sign for years before year 0. */
  function YearText(y: int): (t: string)
    ensures |t| >= 4
    ensures 0 <= y < 10000 ==> |t| == 4
  {
    if y < 0 then "-" + PadLeft(Digits(-y), 4)
    else
      DigitsBelowTenThousand(y);
      PadLeft(Digits(y), 4)
  }

  /** A number below 10000 has at most four digits, so `Y` pads it to exactly four. */
  lemma DigitsBelowTenThousand(n: nat)
    ensures n < 10000 ==> |Digits(n)| <= 4
  {
    if 10 <= n < 10000 {
      assert Digits(n) == Digits(n / 10) + [DigitChar(n % 10)];
      var a := n / 10;
      if a >= 10 {
        assert Digits(a) == Digits(a / 10) + [DigitChar(a % 10)];
        var b := a / 10;
        if b >= 10 {
          assert Digits(b) == Digits(b / 10) + [DigitChar(b % 10)];
          assert b / 10 < 10;
        }
      }
    }
  }

  /** `format('Y-m-d\\TH:i:s')`: the year, then fifteen characters of month, day and time. */
  function Format(dt: DateTime): (r: string)
    requires ValidDateTime(dt)
    ensures |r| == |YearText(dt.date.year)| + 15
  {
    YearText(dt.date.year) + "-" + TwoDigits(dt.date.month) + "-" + TwoDigits(dt.date.day)
      + "T" + TwoDigits(dt.time.hour) + ":" + TwoDigits(dt.time.minute) + ":" + TwoDigits(dt.time.second)
  }

  // ---------------------------------------------------------------------------
  // Reading the format back: the inverse that shows Format loses nothing.

  function NatValue(s: string): nat
    requires AllDigits(s)
    decreases |s|
  {
    if s == [] then 0 else NatValue(s[..|s| - 1]) * 10 + DigitValue(s[|s| - 1])
  }

  function ParseTwoDigits(s: string): Option<int> {
    if |s| == 2 && AllDigits(s) then Some(NatValue(s)) else None
  }

  function ParseYear(s: string): Option<int> {
    if |s| > 1 && s[0] == '-' && AllDigits(s[1..]) then Some(0 - NatValue(s[1..]))
    else if |s| > 0 && AllDigits(s) then Some(NatValue(s))
    else None
  }

  /** Reads `Y-m-d\TH:i:s` text: the year is everything before the last fifteen characters. */
  function Parse(s: string): Option<DateTime> {
    if |s| < 16 then None
    else
      var n := |s| - 15;
      var rest := s[n..];
      if rest[0] != '-' || rest[3] != '-' || rest[6] != 'T' || rest[9] != ':' || rest[12] != ':' then None
      else
        match (ParseYear(s[..n]), ParseTwoDigits(rest[1..3]), ParseTwoDigits(rest[4..6]),
               ParseTwoDigits(rest[7..9]), ParseTwoDigits(rest[10..12]), ParseTwoDigits(rest[13..15]))
        case (Some(y), Some(mo), Some(d), Some(h), Some(mi), Some(sec)) =>
          Some(DateTime(Date(y, mo, d), Time(h, mi, sec)))
        case _ => None
  }

  lemma {:induction false} NatValueDigits(n: nat)
    ensures NatValue(Digits(n)) == n
    decreases n
  {
    if n >= 10 {
      NatValueDigits(n / 10);
      var s := Digits(n);
      assert s[..|s| - 1] == Digits(n / 10);
    }
  }

  lemma {:induction false} NatValueLeadingZero(s: string)
    requires AllDigits(s)
    ensures AllDigits(['0'] + s) && NatValue(['0'] + s) == NatValue(s)
    decreases |s|
  {
    var t := ['0'] + s;
    if s != [] {
      NatValueLeadingZero(s[..|s| - 1]);
      assert t[..|t| - 1] == ['0'] + s[..|s| - 1];
    } else {
      assert t[..|t| - 1] == [];
    }
  }

  lemma {:induction false} NatValuePadLeft(s: string, width: nat)
    requires AllDigits(s)
    ensures AllDigits(PadLeft(s, width)) && NatValue(PadLeft(s, width)) == NatValue(s)
    decreases width - |s|
  {
    if |s| < width {
      NatValueLeadingZero(s);
      NatValuePadLeft(['0'] + s, width);
    }
  }

  lemma TwoDigitsRoundTrip(n: nat)
    requires n < 100
    ensures ParseTwoDigits(TwoDigits(n)) == Some(n)
  {
    NatValueDigits(n);
    NatValuePadLeft(Digits(n), 2);
    assert |Digits(n)| <= 2 by {
      if n >= 10 { assert Digits(n) == Digits(n / 10) + [DigitChar(n % 10)]; }
    }
  }

  lemma YearRoundTrip(y: int)
    ensures |YearText(y)| >= 4 && ParseYear(YearText(y)) == Some(y)
  {
    var k := if y < 0 then -y else y;
    NatValueDigits(k);
    NatValuePadLeft(Digits(k), 4);
    var t := YearText(y);
    if y < 0 {
      assert t[1..] == PadLeft(Digits(k), 4);
    } else {
      assert t[0] != '-';
    }
  }

  /** Parse splits its input at the fixed separators, whatever the fields hold. */
  lemma ParseLayout(y: string, mo: string, d: string, h: string, mi: string, sec: string)
    requires |y| >= 1 && |mo| == 2 && |d| == 2 && |h| == 2 && |mi| == 2 && |sec| == 2
    ensures Parse(y + "-" + mo + "-" + d + "T" + h + ":" + mi + ":" + sec) ==
      match (ParseYear(y), ParseTwoDigits(mo), ParseTwoDigits(d),
             ParseTwoDigits(h), ParseTwoDigits(mi), ParseTwoDigits(sec))
      case (Some(yv), Some(mov), Some(dv), Some(hv), Some(miv), Some(secv)) =>
        Some(DateTime(Date(yv, mov, dv), Time(hv, miv, secv)))
      case _ => None
  {
    var rest := "-" + mo + "-" + d + "T" + h + ":" + mi + ":" + sec;
    var s := y + "-" + mo + "-" + d + "T" + h + ":" + mi + ":" + sec;
    assert s == y + rest by {
      SeqAssoc(y, "-", mo);
      SeqAssoc(y, "-" + mo, "-");
      SeqAssoc(y, "-" + mo + "-", d);
      SeqAssoc(y, "-" + mo + "-" + d, "T");
      SeqAssoc(y, "-" + mo + "-" + d + "T", h);
      SeqAssoc(y, "-" + mo + "-" + d + "T" + h, ":");
      SeqAssoc(y, "-" + mo + "-" + d + "T" + h + ":", mi);
      SeqAssoc(y, "-" + mo + "-" + d + "T" + h + ":" + mi, ":");
      SeqAssoc(y, "-" + mo + "-" + d + "T" + h + ":" + mi + ":", sec);
    }
    assert |rest| == 15;
    assert s[..|y|] == y && s[|y|..] == rest;
    assert rest[1..3] == mo && rest[4..6] == d && rest[7..9] == h;
    assert rest[10..12] == mi && rest[13..15] == sec;
  }

  /** Regrouping a concatenation, step by step in `ParseLayout`. */
  lemma SeqAssoc(a: string, b: string, c: string)
    ensures a + b + c == a + (b + c)
  {
  }

  /** Format is injective on valid date-times: Parse reads back exactly what was formatted. */
  lemma ParseFormat(dt: DateTime)
    requires ValidDateTime(dt)
    ensures Parse(Format(dt)) == Some(dt)
  {
    YearRoundTrip(dt.date.year);
    TwoDigitsRoundTrip(dt.date.month);
    TwoDigitsRoundTrip(dt.date.day);
    TwoDigitsRoundTrip(dt.time.hour);
    TwoDigitsRoundTrip(dt.time.minute);
    TwoDigitsRoundTrip(dt.time.second);
    ParseLayout(YearText(dt.date.year), TwoDigits(dt.date.month), TwoDigits(dt.date.day),
                TwoDigits(dt.time.hour), TwoDigits(dt.time.minute), TwoDigits(dt.time.second));
  }
}
