/** The calendar behind Go's time.Unix(ts, 0).Format("2006-01-02"),
    Format("2006-01-02 15:04:05") and time.Parse("2006-01-02", s), in the
    proleptic Gregorian calendar and in UTC.

    Days are counted from 1970-01-01 (negative before); a date is turned into
    a day number by counting whole years and months, and a day number into a
    date by searching for its year and month, so that the two are proved
    inverse to each other and order-preserving. */
module Calendar {
  import opened Base
  import opened Text

  const SecondsPerDay: int := 86400

  /** Days from 0000-01-01 to 1970-01-01. */
  const UnixEpochDays: int := 719528

  /** 0000-01-01T00:00:00Z and 9999-12-31T23:59:59Z in Unix seconds: the
      instants whose year Go renders with exactly four digits. */
  const FirstFourDigitSecond: int := -62167219200
  const LastFourDigitSecond: int := 253402300799

  predicate IsLeap(y: int) {
    y % 4 == 0 && (y % 100 != 0 || y % 400 == 0)
  }

  function YearLength(y: int): int {
    if IsLeap(y) then 366 else 365
  }

  function DaysIn(m: int, y: int): int
    requires 1 <= m <= 12
  {
    if m == 2 then (if IsLeap(y) then 29 else 28)
    else if m == 4 || m == 6 || m == 9 || m == 11 then 30
    else 31
  }

  /** Days of year `y` that lie before the first of month `m`. */
  function DaysBeforeMonth(m: int, y: int): int
    requires 1 <= m <= 12
  {
    var common :=
      if m == 1 then 0 else if m == 2 then 31 else if m == 3 then 59
      else if m == 4 then 90 else if m == 5 then 120 else if m == 6 then 151
      else if m == 7 then 181 else if m == 8 then 212 else if m == 9 then 243
      else if m == 10 then 273 else if m == 11 then 304 else 334;
    common + (if m > 2 && IsLeap(y) then 1 else 0)
  }

  lemma MonthStep(m: int, y: int)
    requires 1 <= m <= 12
    ensures m < 12 ==> DaysBeforeMonth(m + 1, y) == DaysBeforeMonth(m, y) + DaysIn(m, y)
    ensures m == 12 ==> DaysBeforeMonth(m, y) + DaysIn(m, y) == YearLength(y)
  {
  }

  lemma {:induction false} DaysBeforeMonthMonotone(m1: int, m2: int, y: int)
    requires 1 <= m1 < m2 <= 12
    ensures DaysBeforeMonth(m1, y) + DaysIn(m1, y) <= DaysBeforeMonth(m2, y)
    decreases m2 - m1
  {
    MonthStep(m1, y);
    if m1 + 1 < m2 {
      DaysBeforeMonthMonotone(m1 + 1, m2, y);
    }
  }

  /** Days from 0000-01-01 to the first of January of year `y`. */
  function DaysBeforeYear(y: int): int {
    365 * y + (y + 3) / 4 - (y + 99) / 100 + (y + 399) / 400
  }

  /** Consecutive years are one year length apart. */
  lemma YearStep(y: int)
    ensures DaysBeforeYear(y + 1) == DaysBeforeYear(y) + YearLength(y)
  {
    FourStep(y);
    CenturyStep(y);
    QuadCenturyStep(y);
    LeapDivisors(y);
  }

  /** Each of the three counts in DaysBeforeYear grows by one exactly at the
      years divisible by its divisor. */
  lemma FourStep(y: int)
    ensures (y + 4) / 4 - (y + 3) / 4 == if y % 4 == 0 then 1 else 0
  {
  }

  lemma CenturyStep(y: int)
    ensures (y + 100) / 100 - (y + 99) / 100 == if y % 100 == 0 then 1 else 0
  {
  }

  lemma QuadCenturyStep(y: int)
    ensures (y + 400) / 400 - (y + 399) / 400 == if y % 400 == 0 then 1 else 0
  {
  }

  lemma LeapDivisors(y: int)
    ensures y % 400 == 0 ==> y % 100 == 0
    ensures y % 100 == 0 ==> y % 4 == 0
  {
  }

  /** A year starts after every day of every earlier year. */
  lemma {:induction false} DaysBeforeYearMonotone(a: int, b: int)
    requires a < b
    ensures DaysBeforeYear(a) + YearLength(a) <= DaysBeforeYear(b)
    decreases b - a
  {
    YearStep(a);
    if a + 1 < b {
      DaysBeforeYearMonotone(a + 1, b);
      YearStep(a + 1);
    }
  }

  /** Before year 0 a year start lies at most 365 days per year back. */
  lemma {:induction false} DaysBeforeYearBelowZero(y: int)
    requires y <= 0
    ensures DaysBeforeYear(y) <= 365 * y
    decreases -y
  {
    if y < 0 {
      DaysBeforeYearBelowZero(y + 1);
      YearStep(y);
    }
  }

  datatype Date = Date(year: int, month: int, day: int)

  predicate ValidDate(d: Date) {
    1 <= d.month <= 12 && 1 <= d.day <= DaysIn(d.month, d.year)
  }

  /** Calendar order of dates. */
  predicate DateBefore(a: Date, b: Date) {
    || a.year < b.year
    || (a.year == b.year && a.month < b.month)
    || (a.year == b.year && a.month == b.month && a.day < b.day)
  }

  /** The number of days from 1970-01-01 to `d`. */
  function DaysFromCivil(d: Date): int
    requires ValidDate(d)
  {
    DaysBeforeYear(d.year) + DaysBeforeMonth(d.month, d.year) + d.day - 1 - UnixEpochDays
  }

  /** A valid date lies within its year. */
  lemma DateWithinYear(d: Date)
    requires ValidDate(d)
    ensures DaysBeforeYear(d.year) <= DaysFromCivil(d) + UnixEpochDays < DaysBeforeYear(d.year) + YearLength(d.year)
  {
    if d.month < 12 {
      DaysBeforeMonthMonotone(d.month, 12, d.year);
    }
    MonthStep(12, d.year);
  }

  /** Later dates have larger day numbers. */
  lemma DaysFromCivilStrictlyMonotone(a: Date, b: Date)
    requires ValidDate(a) && ValidDate(b) && DateBefore(a, b)
    ensures DaysFromCivil(a) < DaysFromCivil(b)
  {
    if a.year < b.year {
      DateWithinYear(a);
      DaysBeforeYearMonotone(a.year, b.year);
    } else if a.month < b.month {
      DaysBeforeMonthMonotone(a.month, b.month, a.year);
    }
  }

  /** The year containing day `z` (counted from 0000-01-01), searching
      upwards from year `y`. */
  function YearFrom(z: int, y: int): (r: int)
    requires DaysBeforeYear(y) <= z
    ensures y <= r && DaysBeforeYear(r) <= z < DaysBeforeYear(r) + YearLength(r)
    decreases z - DaysBeforeYear(y)
  {
    YearStep(y);
    if z < DaysBeforeYear(y) + YearLength(y) then y else YearFrom(z, y + 1)
  }

  /** The month of year `y` containing day-of-year `doy`, searching upwards
      from month `m`. */
  function MonthFrom(doy: int, y: int, m: int): (r: int)
    requires 1 <= m <= 12 && DaysBeforeMonth(m, y) <= doy < YearLength(y)
    ensures m <= r <= 12 && DaysBeforeMonth(r, y) <= doy < DaysBeforeMonth(r, y) + DaysIn(r, y)
    decreases 12 - m
  {
    MonthStep(m, y);
    if m == 12 || doy < DaysBeforeMonth(m + 1, y) then m else MonthFrom(doy, y, m + 1)
  }

  /** The date of the `n`-th day after 1970-01-01: a valid date whose day
      number is `n`. */
  function CivilFromDays(n: int): (d: Date)
    ensures ValidDate(d) && DaysFromCivil(d) == n
  {
    var z := n + UnixEpochDays;
    var y0 := if z >= 0 then 0 else z / 365;
    DaysBeforeYearBelowZero(if z >= 0 then 0 else y0);
    var y := YearFrom(z, y0);
    var doy := z - DaysBeforeYear(y);
    var m := MonthFrom(doy, y, 1);
    Date(y, m, doy - DaysBeforeMonth(m, y) + 1)
  }

  /** Every valid date is the date of its own day number. */
  lemma CivilFromDaysOfDate(d: Date)
    requires ValidDate(d)
    ensures CivilFromDays(DaysFromCivil(d)) == d
  {
    var c := CivilFromDays(DaysFromCivil(d));
    if DateBefore(c, d) {
      DaysFromCivilStrictlyMonotone(c, d);
    } else if DateBefore(d, c) {
      DaysFromCivilStrictlyMonotone(d, c);
    }
  }

  /** Later days have later dates. */
  lemma CivilFromDaysMonotone(n1: int, n2: int)
    requires n1 < n2
    ensures DateBefore(CivilFromDays(n1), CivilFromDays(n2))
  {
    var c1, c2 := CivilFromDays(n1), CivilFromDays(n2);
    if DateBefore(c2, c1) {
      DaysFromCivilStrictlyMonotone(c2, c1);
    }
  }

  // ---------------------------------------------------------------------------
  // Rendering and parsing
  // ---------------------------------------------------------------------------

  /** Go's appendInt(b, x, width): a minus sign for a negative `x`, then the
      decimal digits of |x| left-padded with '0' to `width` characters. */
  function PadInt(x: int, width: nat): string {
    var digits := NatDigits(if x < 0 then -x else x);
    (if x < 0 then "-" else "")
      + (if |digits| >= width then digits else seq(width - |digits|, _ => '0') + digits)
  }

  /** The layout "2006-01-02" applied to a date. */
  function FormatCivil(d: Date): string {
    PadInt(d.year, 4) + "-" + PadInt(d.month, 2) + "-" + PadInt(d.day, 2)
  }

  /** time.Unix(ts, 0).Format("2006-01-02") in UTC. */
  function FormatDate(ts: int): string {
    FormatCivil(CivilFromDays(ts / SecondsPerDay))
  }

  /** time.Unix(ts, 0).Format("2006-01-02 15:04:05") in UTC. */
  function FormatDateTime(ts: int): string {
    var s := ts % SecondsPerDay;
    FormatDate(ts) + " " + PadInt(s / 3600, 2) + ":" + PadInt(s % 3600 / 60, 2) + ":" + PadInt(s % 60, 2)
  }

  /** time.Parse("2006-01-02", s) followed by Unix(): exactly four digits,
      '-', two digits, '-', two digits, with the month in 1..12 and the day
      within the month; the result is midnight UTC of that date. */
  function ParseDate(s: string): Option<int> {
    if |s| == 10 && AllDigits(s[..4]) && s[4] == '-' && AllDigits(s[5..7]) && s[7] == '-'
       && AllDigits(s[8..])
    then
      var d := Date(DigitsValue(s[..4]), DigitsValue(s[5..7]), DigitsValue(s[8..]));
      if ValidDate(d) then Some(DaysFromCivil(d) * SecondsPerDay) else None
    else None
  }

  predicate FourDigitYear(ts: int) {
    FirstFourDigitSecond <= ts <= LastFourDigitSecond
  }

  // ---------------------------------------------------------------------------
  // Fixed-width digit strings, the shape of every rendered field
  // ---------------------------------------------------------------------------

  function Pow10(w: nat): nat {
    if w == 0 then 1 else 10 * Pow10(w - 1)
  }

  /** The last `w` decimal digits of `x`, most significant first. */
  function Fixed(x: nat, w: nat): (r: string)
    ensures |r| == w && AllDigits(r)
  {
    if w == 0 then [] else Fixed(x / 10, w - 1) + [DigitChar(x % 10)]
  }

  lemma {:induction false} FixedZero(w: nat)
    ensures Fixed(0, w) == seq(w, _ => '0')
  {
    if w > 0 {
      FixedZero(w - 1);
    }
  }

  lemma {:induction false} NatDigitsWidth(x: nat, w: nat)
    requires 1 <= w && x < Pow10(w)
    ensures |NatDigits(x)| <= w
  {
    if x >= 10 {
      NatDigitsWidth(x / 10, w - 1);
    }
  }

  /** Go's padded rendering of a number that fits the width is its last
      `w` digits. */
  lemma PadIntFixed(x: nat, w: nat)
    requires 1 <= w && x < Pow10(w)
    ensures PadInt(x, w) == Fixed(x, w)
  {
    var digits := NatDigits(x);
    NatDigitsWidth(x, w);
    ZeroPaddedFixed(x, w);
    assert PadInt(x, w) == seq(w - |digits|, _ => '0') + digits;
  }

  /** The digits of `x` left-padded with '0' to `w` characters are its last
      `w` digits. */
  lemma {:induction false} ZeroPaddedFixed(x: nat, w: nat)
    requires 1 <= w && x < Pow10(w)
    ensures |NatDigits(x)| <= w
    ensures seq(w - |NatDigits(x)|, _ => '0') + NatDigits(x) == Fixed(x, w)
  {
    NatDigitsWidth(x, w);
    if x < 10 {
      FixedZero(w - 1);
      assert Fixed(x, w) == Fixed(0, w - 1) + [DigitChar(x)];
    } else {
      ZeroPaddedFixed(x / 10, w - 1);
      var inner := NatDigits(x / 10);
      assert NatDigits(x) == inner + [DigitChar(x % 10)];
      assert seq(w - |NatDigits(x)|, _ => '0') == seq(w - 1 - |inner|, _ => '0');
    }
  }

  lemma {:induction false} FixedValue(x: nat, w: nat)
    requires x < Pow10(w)
    ensures DigitsValue(Fixed(x, w)) == x
  {
    if w > 0 {
      FixedValue(x / 10, w - 1);
      var r := Fixed(x, w);
      assert r[..w - 1] == Fixed(x / 10, w - 1);
    }
  }

  lemma DigitCharOfValue(c: char)
    requires IsDigit(c)
    ensures DigitChar(DigitValue(c)) == c
  {
  }

  /** A string of `w` digits is the fixed rendering of its value. */
  lemma {:induction false} FixedOfDigits(s: string)
    requires AllDigits(s)
    ensures DigitsValue(s) < Pow10(|s|) && Fixed(DigitsValue(s), |s|) == s
  {
    if s != [] {
      var init, c := s[..|s| - 1], s[|s| - 1];
      FixedOfDigits(init);
      var v, dv := DigitsValue(init), DigitValue(c);
      assert DigitsValue(s) == v * 10 + dv;
      assert (v * 10 + dv) / 10 == v && (v * 10 + dv) % 10 == dv;
      DigitCharOfValue(c);
      assert Fixed(v * 10 + dv, |s|) == Fixed(v, |s| - 1) + [c];
      assert s == init + [c];
    }
  }

  /** Fixed-width renderings compare like the numbers they render. */
  lemma {:induction false} FixedLess(a: nat, b: nat, w: nat)
    requires a < b < Pow10(w)
    ensures Less(Fixed(a, w), Fixed(b, w))
  {
    var ca, cb := [DigitChar(a % 10)], [DigitChar(b % 10)];
    LessConcat(Fixed(a / 10, w - 1), ca, Fixed(b / 10, w - 1), cb);
    if a / 10 < b / 10 {
      FixedLess(a / 10, b / 10, w - 1);
    } else {
      assert Less(ca, cb);
    }
  }

  // ---------------------------------------------------------------------------
  // Order: Go's string order on rendered dates is the order of time
  // ---------------------------------------------------------------------------

  function Join3(a: string, b: string, c: string, sep: string): string {
    a + sep + b + sep + c
  }

  /** Three separated fields of fixed widths compare field by field. */
  lemma Join3Less(a: string, b: string, c: string, a': string, b': string, c': string, sep: string)
    requires |a| == |a'| && |b| == |b'|
    requires Less(a, a') || (a == a' && (Less(b, b') || (b == b' && Less(c, c'))))
    ensures Less(Join3(a, b, c, sep), Join3(a', b', c', sep))
  {
    assert Join3(a, b, c, sep) == a + (sep + b + sep + c);
    assert Join3(a', b', c', sep) == a' + (sep + b' + sep + c');
    LessConcat(a, sep + b + sep + c, a', sep + b' + sep + c');
    if a == a' {
      assert sep + b + sep + c == sep + (b + (sep + c));
      assert sep + b' + sep + c' == sep + (b' + (sep + c'));
      LessConcat(sep, b + (sep + c), sep, b' + (sep + c'));
      LessConcat(b, sep + c, b', sep + c');
      if b == b' {
        LessConcat(sep, c, sep, c');
      }
    }
  }

  /** Dates with four-digit years render as "YYYY-MM-DD" from their fields. */
  lemma FormatCivilFixed(d: Date)
    requires ValidDate(d) && 0 <= d.year <= 9999
    ensures FormatCivil(d) == Join3(Fixed(d.year, 4), Fixed(d.month, 2), Fixed(d.day, 2), "-")
  {
    PadIntFixed(d.year, 4);
    PadIntFixed(d.month, 2);
    PadIntFixed(d.day, 2);
  }

  /** Four-digit years are the days of [FirstFourDigitSecond, LastFourDigitSecond]. */
  lemma FourDigitYearRange(ts: int)
    requires FourDigitYear(ts)
    ensures 0 <= CivilFromDays(ts / SecondsPerDay).year <= 9999
  {
    var n := ts / SecondsPerDay;
    assert -UnixEpochDays <= n < DaysBeforeYear(10000) - UnixEpochDays;
    YearOfDay(CivilFromDays(n));
  }

  /** The dates from 0000-01-01 to 9999-12-31 are those of four-digit years. */
  lemma YearOfDay(d: Date)
    requires ValidDate(d)
    requires 0 <= DaysFromCivil(d) + UnixEpochDays < DaysBeforeYear(10000)
    ensures 0 <= d.year <= 9999
  {
    DateWithinYear(d);
    if d.year < 0 {
      DaysBeforeYearMonotone(d.year, 0);
    }
    if d.year > 9999 {
      DaysBeforeYearMonotone(10000, d.year);
    }
  }

  /** Rendering a four-digit-year instant gives ten characters. */
  lemma FormatDateLength(ts: int)
    requires FourDigitYear(ts)
    ensures |FormatDate(ts)| == 10
  {
    FourDigitYearRange(ts);
    FormatCivilFixed(CivilFromDays(ts / SecondsPerDay));
  }

  /** Of two four-digit-year instants on different days, the earlier renders
      as the smaller string. */
  lemma FormatDateStrictlyMonotone(t1: int, t2: int)
    requires FourDigitYear(t1) && FourDigitYear(t2)
    requires t1 / SecondsPerDay < t2 / SecondsPerDay
    ensures Less(FormatDate(t1), FormatDate(t2))
  {
    CivilFromDaysMonotone(t1 / SecondsPerDay, t2 / SecondsPerDay);
    FourDigitYearRange(t1);
    FourDigitYearRange(t2);
    FormatCivilLess(CivilFromDays(t1 / SecondsPerDay), CivilFromDays(t2 / SecondsPerDay));
  }

  /** Of two dates of four-digit years, the earlier renders as the smaller
      string. */
  lemma FormatCivilLess(d1: Date, d2: Date)
    requires ValidDate(d1) && 0 <= d1.year <= 9999
    requires ValidDate(d2) && 0 <= d2.year <= 9999
    requires DateBefore(d1, d2)
    ensures Less(FormatCivil(d1), FormatCivil(d2))
  {
    FormatCivilFixed(d1);
    FormatCivilFixed(d2);
    if d1.year < d2.year {
      FixedLess(d1.year, d2.year, 4);
    } else if d1.month < d2.month {
      FixedLess(d1.month, d2.month, 2);
    } else {
      FixedLess(d1.day, d2.day, 2);
    }
    Join3Less(Fixed(d1.year, 4), Fixed(d1.month, 2), Fixed(d1.day, 2),
              Fixed(d2.year, 4), Fixed(d2.month, 2), Fixed(d2.day, 2), "-");
  }

  /** For four-digit-year instants, Go's string order on "2006-01-02"
      renderings is the order of their days. */
  lemma FormatDateOrder(t1: int, t2: int)
    requires FourDigitYear(t1) && FourDigitYear(t2)
    ensures Less(FormatDate(t1), FormatDate(t2)) <==> t1 / SecondsPerDay < t2 / SecondsPerDay
    ensures FormatDate(t1) == FormatDate(t2) <==> t1 / SecondsPerDay == t2 / SecondsPerDay
  {
    if t1 / SecondsPerDay < t2 / SecondsPerDay {
      FormatDateStrictlyMonotone(t1, t2);
      LessIrreflexive(FormatDate(t1));
    } else if t2 / SecondsPerDay < t1 / SecondsPerDay {
      FormatDateStrictlyMonotone(t2, t1);
      LessAsymmetric(FormatDate(t2), FormatDate(t1));
      LessIrreflexive(FormatDate(t1));
    } else {
      LessIrreflexive(FormatDate(t1));
    }
  }

  /** The " 15:04:05" part of a rendering, from the second of the day. */
  function Clock(s: int): string
    requires 0 <= s < SecondsPerDay
  {
    " " + PadInt(s / 3600, 2) + ":" + PadInt(s % 3600 / 60, 2) + ":" + PadInt(s % 60, 2)
  }

  lemma ClockFixed(s: int)
    requires 0 <= s < SecondsPerDay
    ensures Clock(s) == " " + Join3(Fixed(s / 3600, 2), Fixed(s % 3600 / 60, 2), Fixed(s % 60, 2), ":")
  {
    PadIntFixed(s / 3600, 2);
    PadIntFixed(s % 3600 / 60, 2);
    PadIntFixed(s % 60, 2);
  }

  /** The hour, minute and second of a second of the day, and how they
      order. */
  lemma ClockFields(s1: int, s2: int)
    requires 0 <= s1 < s2 < SecondsPerDay
    ensures s1 / 3600 < 24 && s2 / 3600 < 24 && s1 % 3600 / 60 < 60 && s2 % 3600 / 60 < 60
    ensures || s1 / 3600 < s2 / 3600
            || (s1 / 3600 == s2 / 3600 && s1 % 3600 / 60 < s2 % 3600 / 60)
            || (s1 / 3600 == s2 / 3600 && s1 % 3600 / 60 == s2 % 3600 / 60 && s1 % 60 < s2 % 60)
  {
    var h1, h2 := s1 / 3600, s2 / 3600;
    var r1, r2 := s1 % 3600, s2 % 3600;
    assert s1 == h1 * 3600 + r1 && s2 == h2 * 3600 + r2;
    if h1 == h2 {
      assert r1 < r2;
      assert r1 == r1 / 60 * 60 + r1 % 60 && r2 == r2 / 60 * 60 + r2 % 60;
      assert r1 % 60 == s1 % 60 && r2 % 60 == s2 % 60;
    }
  }

  /** Later seconds of a day have larger clock renderings. */
  lemma ClockStrictlyMonotone(s1: int, s2: int)
    requires 0 <= s1 < s2 < SecondsPerDay
    ensures Less(Clock(s1), Clock(s2))
  {
    ClockFields(s1, s2);
    ClockFixed(s1);
    ClockFixed(s2);
    var h1, m1, x1 := s1 / 3600, s1 % 3600 / 60, s1 % 60;
    var h2, m2, x2 := s2 / 3600, s2 % 3600 / 60, s2 % 60;
    if h1 < h2 {
      FixedLess(h1, h2, 2);
    } else if m1 < m2 {
      FixedLess(m1, m2, 2);
    } else {
      FixedLess(x1, x2, 2);
    }
    var j1 := Join3(Fixed(h1, 2), Fixed(m1, 2), Fixed(x1, 2), ":");
    var j2 := Join3(Fixed(h2, 2), Fixed(m2, 2), Fixed(x2, 2), ":");
    Join3Less(Fixed(h1, 2), Fixed(m1, 2), Fixed(x1, 2), Fixed(h2, 2), Fixed(m2, 2), Fixed(x2, 2), ":");
    LessConcat(" ", j1, " ", j2);
  }

  lemma FormatDateTimeSplit(ts: int)
    ensures FormatDateTime(ts) == FormatDate(ts) + Clock(ts % SecondsPerDay)
  {
  }

  lemma SameDaySeconds(t1: int, t2: int)
    requires t1 < t2 && t1 / SecondsPerDay >= t2 / SecondsPerDay
    ensures t1 / SecondsPerDay == t2 / SecondsPerDay && t1 % SecondsPerDay < t2 % SecondsPerDay
  {
  }

  /** Of two four-digit-year instants, the earlier has the smaller
      "2006-01-02 15:04:05" rendering. */
  lemma FormatDateTimeStrictlyMonotone(t1: int, t2: int)
    requires FourDigitYear(t1) && FourDigitYear(t2) && t1 < t2
    ensures Less(FormatDateTime(t1), FormatDateTime(t2))
  {
    var c1, c2 := Clock(t1 % SecondsPerDay), Clock(t2 % SecondsPerDay);
    var f1, f2 := FormatDate(t1), FormatDate(t2);
    FormatDateTimeSplit(t1);
    FormatDateTimeSplit(t2);
    FormatDateLength(t1);
    FormatDateLength(t2);
    LessConcat(f1, c1, f2, c2);
    if t1 / SecondsPerDay < t2 / SecondsPerDay {
      FormatDateStrictlyMonotone(t1, t2);
    } else {
      SameDaySeconds(t1, t2);
      ClockStrictlyMonotone(t1 % SecondsPerDay, t2 % SecondsPerDay);
    }
  }

  /** For four-digit-year instants, Go's string order on
      "2006-01-02 15:04:05" renderings is the order of time. */
  lemma FormatDateTimeOrder(t1: int, t2: int)
    requires FourDigitYear(t1) && FourDigitYear(t2)
    ensures Less(FormatDateTime(t1), FormatDateTime(t2)) <==> t1 < t2
    ensures FormatDateTime(t1) == FormatDateTime(t2) <==> t1 == t2
  {
    LessIrreflexive(FormatDateTime(t1));
    if t1 < t2 {
      FormatDateTimeStrictlyMonotone(t1, t2);
    } else if t2 < t1 {
      FormatDateTimeStrictlyMonotone(t2, t1);
      LessAsymmetric(FormatDateTime(t2), FormatDateTime(t1));
    }
  }

  // ---------------------------------------------------------------------------
  // Round trips between rendering and parsing
  // ---------------------------------------------------------------------------

  /** Parsing the rendering of a four-digit-year date gives its midnight. */
  lemma ParseFormatCivil(d: Date)
    requires ValidDate(d) && 0 <= d.year <= 9999
    ensures ParseDate(FormatCivil(d)) == Some(DaysFromCivil(d) * SecondsPerDay)
  {
    FormatCivilFixed(d);
    var y, m, dd := Fixed(d.year, 4), Fixed(d.month, 2), Fixed(d.day, 2);
    var s := Join3(y, m, dd, "-");
    assert s[..4] == y && s[4] == '-' && s[5..7] == m && s[7] == '-' && s[8..] == dd;
    FixedValue(d.year, 4);
    FixedValue(d.month, 2);
    FixedValue(d.day, 2);
    assert Date(DigitsValue(s[..4]), DigitsValue(s[5..7]), DigitsValue(s[8..])) == d;
  }

  /** Parsing the rendering of an instant gives midnight of its day. */
  lemma ParseFormatDate(ts: int)
    requires FourDigitYear(ts)
    ensures ParseDate(FormatDate(ts)) == Some(ts / SecondsPerDay * SecondsPerDay)
  {
    FourDigitYearRange(ts);
    ParseFormatCivil(CivilFromDays(ts / SecondsPerDay));
  }

  /** What ParseDate accepts is a four-digit-year midnight whose rendering is
      the parsed text itself. */
  lemma FormatParseDate(s: string)
    requires ParseDate(s).Some?
    ensures var t := ParseDate(s).value;
            FourDigitYear(t) && t % SecondsPerDay == 0 && FormatDate(t) == s
  {
    var d := ParsedDate(s);
    var n := DaysFromCivil(d);
    var t := n * SecondsPerDay;
    assert t / SecondsPerDay == n;
    CivilFromDaysOfDate(d);
    MidnightInFourDigitYear(d);
  }

  /** The date ParseDate reads from `s`: valid, of a four-digit year, and
      rendering back as `s`. */
  lemma ParsedDate(s: string) returns (d: Date)
    requires ParseDate(s).Some?
    ensures ValidDate(d) && 0 <= d.year <= 9999
    ensures ParseDate(s) == Some(DaysFromCivil(d) * SecondsPerDay)
    ensures FormatCivil(d) == s
  {
    d := Date(DigitsValue(s[..4]), DigitsValue(s[5..7]), DigitsValue(s[8..]));
    FormatDigitFields(s[..4], s[5..7], s[8..]);
    assert s == Join3(s[..4], s[5..7], s[8..], "-");
  }

  /** A valid date read from digit fields of widths 4, 2 and 2 renders as
      those fields. */
  lemma FormatDigitFields(y: string, m: string, dd: string)
    requires |y| == 4 && |m| == 2 && |dd| == 2 && AllDigits(y) && AllDigits(m) && AllDigits(dd)
    requires ValidDate(Date(DigitsValue(y), DigitsValue(m), DigitsValue(dd)))
    ensures DigitsValue(y) <= 9999
    ensures FormatCivil(Date(DigitsValue(y), DigitsValue(m), DigitsValue(dd))) == Join3(y, m, dd, "-")
  {
    FixedOfDigits(y);
    FixedOfDigits(m);
    FixedOfDigits(dd);
    FormatCivilFixed(Date(DigitsValue(y), DigitsValue(m), DigitsValue(dd)));
  }

  /** Midnight of a date of a four-digit year is a four-digit-year instant. */
  lemma MidnightInFourDigitYear(d: Date)
    requires ValidDate(d) && 0 <= d.year <= 9999
    ensures FourDigitYear(DaysFromCivil(d) * SecondsPerDay)
  {
    DateWithinYear(d);
    DaysBeforeYearMonotone(d.year, 10000);
    if d.year > 0 {
      DaysBeforeYearMonotone(0, d.year);
    }
  }

  /** A decimal integer never parses as a date: only its first character can
      be a '-', never its fifth. */
  lemma DecimalIsNotDate(n: int)
    ensures ParseDate(Itoa(n)) == None
  {
    if |Itoa(n)| == 10 {
      ItoaDigitsAfterSign(n, 4);
    }
  }
}
