// Timestamps as the demonstration agent prints them, and the session list that
// is sorted by that text.

module Calendar {
  import opened Wrappers
  import opened Decimal

  datatype Date = Date(year: int, month: int, day: int)

  // ===== The conversion =====

  // The civil date a number of days after 1970-01-01, in the proleptic
  // Gregorian calendar.
  function Civil(days: int): Date {
    var z := days + 719468;
    var era := z / 146097;
    var dayOfEra := z % 146097;
    var yearOfEra := (dayOfEra - dayOfEra / 1460 + dayOfEra / 36524 - dayOfEra / 146096) / 365;
    var dayOfYear := dayOfEra - (365 * yearOfEra + yearOfEra / 4 - yearOfEra / 100);
    var marchMonth := (5 * dayOfYear + 2) / 153;
    var day := dayOfYear - (153 * marchMonth + 2) / 5 + 1;
    var month := if marchMonth < 10 then marchMonth + 3 else marchMonth - 9;
    Date(era * 400 + yearOfEra + if month <= 2 then 1 else 0, month, day)
  }

  // ===== The calendar, by its rules =====

  predicate IsLeap(year: int) {
    year % 4 == 0 && (year % 100 != 0 || year % 400 == 0)
  }

  function MonthLength(year: int, month: int): nat {
    if month == 2 then (if IsLeap(year) then 29 else 28)
    else if month == 4 || month == 6 || month == 9 || month == 11 then 30
    else 31
  }

  predicate IsDate(d: Date) {
    1 <= d.month <= 12 && 1 <= d.day <= MonthLength(d.year, d.month)
  }

  // The day after.
  function Next(d: Date): Date {
    if d.day < MonthLength(d.year, d.month) then Date(d.year, d.month, d.day + 1)
    else if d.month < 12 then Date(d.year, d.month + 1, 1)
    else Date(d.year + 1, 1, 1)
  }

  // Turning the page n times.
  function DaysLater(d: Date, n: nat): Date {
    if n == 0 then d else Next(DaysLater(d, n - 1))
  }

  predicate Earlier(a: Date, b: Date) {
    a.year < b.year || (a.year == b.year && (a.month < b.month || (a.month == b.month && a.day < b.day)))
  }

  // ----- Counting -----

  // Days before the first of the month, in a year.
  function DaysBeforeMonth(year: int, month: int): nat
    requires 1 <= month <= 12
  {
    if month == 1 then 0 else DaysBeforeMonth(year, month - 1) + MonthLength(year, month - 1)
  }

  // Days before the first of January, counted from 1970.
  function DaysBeforeYear(year: nat): nat
    requires year >= 1970
  {
    if year == 1970 then 0 else DaysBeforeYear(year - 1) + if IsLeap(year - 1) then 366 else 365
  }

  // Days from 1970-01-01 to a date.
  function DayNumber(d: Date): int
    requires d.year >= 1970 && 1 <= d.month <= 12
  {
    DaysBeforeYear(d.year) + DaysBeforeMonth(d.year, d.month) + d.day - 1
  }

  const EPOCH := Date(1970, 1, 1)

  lemma MonthsOf(year: int)
    ensures var l := if IsLeap(year) then 1 else 0;
            && DaysBeforeMonth(year, 1) == 0 && DaysBeforeMonth(year, 2) == 31 && DaysBeforeMonth(year, 3) == 59 + l
            && DaysBeforeMonth(year, 4) == 90 + l && DaysBeforeMonth(year, 5) == 120 + l
            && DaysBeforeMonth(year, 6) == 151 + l && DaysBeforeMonth(year, 7) == 181 + l
            && DaysBeforeMonth(year, 8) == 212 + l && DaysBeforeMonth(year, 9) == 243 + l
            && DaysBeforeMonth(year, 10) == 273 + l && DaysBeforeMonth(year, 11) == 304 + l
            && DaysBeforeMonth(year, 12) == 334 + l
  {
    assert DaysBeforeMonth(year, 4) == DaysBeforeMonth(year, 3) + 31;
    assert DaysBeforeMonth(year, 6) == DaysBeforeMonth(year, 5) + 31;
    assert DaysBeforeMonth(year, 8) == DaysBeforeMonth(year, 7) + 31;
    assert DaysBeforeMonth(year, 10) == DaysBeforeMonth(year, 9) + 30;
  }

  // Each page turned is one more day.
  lemma NextIsOneOn(d: Date)
    requires IsDate(d) && d.year >= 1970
    ensures IsDate(Next(d)) && DayNumber(Next(d)) == DayNumber(d) + 1 && Earlier(d, Next(d))
  {
    MonthsOf(d.year);
  }

  lemma {:induction false} YearsGrow(a: nat, b: nat)
    requires 1970 <= a < b
    ensures DaysBeforeYear(b) >= DaysBeforeYear(a + 1)
  {
    if a + 1 < b {
      YearsGrow(a, b - 1);
    }
  }

  lemma CountsGrow(a: Date, b: Date)
    requires IsDate(a) && IsDate(b) && 1970 <= a.year && Earlier(a, b)
    ensures DayNumber(a) < DayNumber(b)
  {
    MonthsOf(a.year);
    MonthsOf(b.year);
    if a.year < b.year {
      YearsGrow(a.year, b.year);
    }
  }

  // Dates come in the order of their day numbers, and no two share one.
  lemma DatesAreOrdered(a: Date, b: Date)
    requires IsDate(a) && IsDate(b) && 1970 <= a.year && 1970 <= b.year
    ensures Earlier(a, b) <==> DayNumber(a) < DayNumber(b)
    ensures a == b <==> DayNumber(a) == DayNumber(b)
  {
    if Earlier(a, b) {
      CountsGrow(a, b);
    } else if Earlier(b, a) {
      CountsGrow(b, a);
    }
  }

  // ----- Years by the formula -----

  // Leap days up to and including a year.
  function LeapDays(year: nat): int {
    year / 4 - year / 100 + year / 400
  }

  lemma LeapDaysStep(year: nat)
    requires year >= 1
    ensures LeapDays(year) == LeapDays(year - 1) + if IsLeap(year) then 1 else 0
  {
    Quarters(year);
    Centuries(year);
    Cycles(year);
    Multiples(year);
  }

  lemma Multiples(year: nat)
    ensures year % 400 == 0 ==> year % 100 == 0
    ensures year % 100 == 0 ==> year % 4 == 0
  {
    if year % 400 == 0 {
      assert year == 100 * (4 * (year / 400));
    }
    if year % 100 == 0 {
      assert year == 4 * (25 * (year / 100));
    }
  }

  lemma Quarters(year: nat)
    requires year >= 1
    ensures year / 4 == (year - 1) / 4 + if year % 4 == 0 then 1 else 0
  {
  }

  lemma Centuries(year: nat)
    requires year >= 1
    ensures year / 100 == (year - 1) / 100 + if year % 100 == 0 then 1 else 0
  {
  }

  lemma Cycles(year: nat)
    requires year >= 1
    ensures year / 400 == (year - 1) / 400 + if year % 400 == 0 then 1 else 0
  {
  }

  lemma {:induction false} YearsByFormula(year: nat)
    requires year >= 1970
    ensures DaysBeforeYear(year) == 365 * (year - 1970) + LeapDays(year - 1) - LeapDays(1969)
  {
    if year > 1970 {
      YearsByFormula(year - 1);
      LeapDaysStep(year - 1);
    }
  }

  // ----- The era, taken apart -----

  // A day of the 400-year era, by century, four-year cycle and year.
  datatype Place = Place(century: nat, cycle: nat, year: nat, day: nat)

  function PlaceOf(dayOfEra: nat): Place {
    var century := if dayOfEra == 146096 then 3 else dayOfEra / 36524;
    var inCentury := dayOfEra - 36524 * century;
    var cycle := inCentury / 1461;
    var inCycle := inCentury - 1461 * cycle;
    var year := if inCycle == 1460 then 3 else inCycle / 365;
    Place(century, cycle, year, inCycle - 365 * year)
  }

  function YearOfEra(dayOfEra: int): int {
    (dayOfEra - dayOfEra / 1460 + dayOfEra / 36524 - dayOfEra / 146096) / 365
  }

  lemma PlaceIs(dayOfEra: nat)
    requires dayOfEra < 146097
    ensures var p := PlaceOf(dayOfEra);
            && p.century < 4 && p.cycle < 25 && p.year < 4 && p.day < 366
            && dayOfEra == 36524 * p.century + 1461 * p.cycle + 365 * p.year + p.day
            && (p.day == 365 ==> p.year == 3 && (p.cycle < 24 || p.century == 3))
  {
  }

  // The formula finds the year: its odd terms undo the leap days.
  lemma YearOfEraIs(dayOfEra: nat)
    requires dayOfEra < 146097
    ensures var p := PlaceOf(dayOfEra); YearOfEra(dayOfEra) == 100 * p.century + 4 * p.cycle + p.year
  {
    var p := PlaceOf(dayOfEra);
    PlaceIs(dayOfEra);
    var odd := 24 * p.century + p.cycle + 365 * p.year + p.day;
    assert dayOfEra == 1460 * (25 * p.century + p.cycle) + odd;
    assert 0 <= odd < 2 * 1460;
    var extra := if odd >= 1460 then 1 else 0;
    assert dayOfEra / 1460 == 25 * p.century + p.cycle + extra;
    if dayOfEra == 146096 {
    } else {
      assert dayOfEra / 36524 == p.century && dayOfEra / 146096 == 0;
      assert 0 <= p.day - extra < 365;
    }
  }

  // ----- The date, counted from March -----

  // The day `dayOfYear` of the year that begins on the first of March of `year`.
  function FromMarch(year: nat, dayOfYear: nat): Date {
    var marchMonth := (5 * dayOfYear + 2) / 153;
    var day := dayOfYear - (153 * marchMonth + 2) / 5 + 1;
    var month := if marchMonth < 10 then marchMonth + 3 else marchMonth - 9;
    Date(if month <= 2 then year + 1 else year, month, day)
  }

  lemma MonthFound(dayOfYear: nat)
    requires dayOfYear < 366
    ensures var m := (5 * dayOfYear + 2) / 153;
            && 0 <= m <= 11
            && (153 * m + 2) / 5 == (match m case 0 => 0 case 1 => 31 case 2 => 61 case 3 => 92 case 4 => 122 case 5 =>
                153
                                     case 6 => 184 case 7 => 214 case 8 => 245 case 9 => 275 case 10 => 306 case _ =>
                                         337)
            && 0 <= dayOfYear - (153 * m + 2) / 5 < (match m case 1 => 30 case 3 => 30 case 6 => 30 case 8 =>
                30 case 11 => 29 case _ => 31)
  {
  }

  lemma FromMarchCounts(year: nat, dayOfYear: nat)
    requires dayOfYear < 366 && (dayOfYear == 365 ==> IsLeap(year + 1))
    requires 719468 <= 365 * year + LeapDays(year) + dayOfYear
    ensures var d := FromMarch(year, dayOfYear);
            && IsDate(d) && d.year >= 1970 && DayNumber(d) == 365 * year + LeapDays(year) + dayOfYear - 719468
  {
    MonthFound(dayOfYear);
    var d := FromMarch(year, dayOfYear);
    LeapDaysBelow(year);
    assert year >= 1969 && (year == 1969 ==> d.month <= 2);
    YearsByFormula(d.year);
    MonthsOf(d.year);
    LeapDaysStep(year);
  }

  lemma LeapDaysBelow(year: nat)
    ensures year < 1969 ==> LeapDays(year) <= 477
    ensures year == 1969 ==> LeapDays(year) == 477
  {
  }

  lemma EraQuarters(era: nat, year: nat)
    ensures (400 * era + year) / 4 == 100 * era + year / 4
  {
  }

  lemma EraCenturies(era: nat, year: nat)
    ensures (400 * era + year) / 100 == 4 * era + year / 100
  {
  }

  lemma EraCycles(era: nat, year: nat)
    requires year < 400
    ensures (400 * era + year) / 400 == era
  {
  }

  lemma LeapDaysOfEra(era: nat, yearOfEra: nat)
    requires yearOfEra < 400
    ensures LeapDays(400 * era + yearOfEra) == 97 * era + yearOfEra / 4 - yearOfEra / 100
  {
    EraQuarters(era, yearOfEra);
    EraCenturies(era, yearOfEra);
    EraCycles(era, yearOfEra);
  }

  lemma EraDays(era: nat, p: Place, yearOfEra: nat)
    requires p.century < 4 && p.cycle < 25 && p.year < 4
    requires yearOfEra == 100 * p.century + 4 * p.cycle + p.year
    ensures yearOfEra < 400 && yearOfEra / 4 == 25 * p.century + p.cycle && yearOfEra / 100 == p.century
    ensures 146097 * era + 36524 * p.century + 1461 * p.cycle + 365 * p.year
         == 365 * (400 * era + yearOfEra) + LeapDays(400 * era + yearOfEra)
  {
    assert yearOfEra / 4 == 25 * p.century + p.cycle;
    assert yearOfEra / 100 == p.century;
    LeapDaysOfEra(era, yearOfEra);
  }

  lemma CivilByEra(days: nat, era: nat, dayOfEra: nat, yearOfEra: nat, dayOfYear: nat)
    requires era == (days + 719468) / 146097 && dayOfEra == (days + 719468) % 146097
    requires yearOfEra == YearOfEra(dayOfEra)
             && dayOfYear == dayOfEra - (365 * yearOfEra + yearOfEra / 4 - yearOfEra / 100)
    ensures Civil(days) == FromMarch(400 * era + yearOfEra, dayOfYear)
  {
  }

  // The conversion is that date, for the March-based year and day it finds.
  lemma CivilFromMarch(days: nat) returns (year: nat, dayOfYear: nat)
    ensures Civil(days) == FromMarch(year, dayOfYear)
    ensures dayOfYear < 366 && (dayOfYear == 365 ==> IsLeap(year + 1))
    ensures days + 719468 == 365 * year + LeapDays(year) + dayOfYear
  {
    var era: nat, dayOfEra: nat := (days + 719468) / 146097, (days + 719468) % 146097;
    var p := PlaceOf(dayOfEra);
    PlaceIs(dayOfEra);
    YearOfEraIs(dayOfEra);
    var yearOfEra := 100 * p.century + 4 * p.cycle + p.year;
    year, dayOfYear := 400 * era + yearOfEra, p.day;
    EraDays(era, p, yearOfEra);
    CivilByEra(days, era, dayOfEra, yearOfEra, dayOfYear);
    if dayOfYear == 365 {
      LeapAtTheEnd(era, p);
    }
  }

  lemma LeapAtTheEnd(era: nat, p: Place)
    requires p.year == 3 && p.cycle < 25 && p.century < 4 && (p.cycle < 24 || p.century == 3)
    ensures IsLeap(400 * era + 100 * p.century + 4 * p.cycle + p.year + 1)
  {
    var year := 400 * era + 100 * p.century + 4 * p.cycle + 4;
    assert year == 4 * (100 * era + 25 * p.century + p.cycle + 1);
    if p.cycle < 24 {
      assert year == 100 * (4 * era + p.century) + 4 * (p.cycle + 1);
    } else {
      assert year == 400 * (era + 1);
    }
  }

  // Counting the days to the date found gives back the number it was found from.
  lemma CivilInvertsCounting(days: nat)
    ensures IsDate(Civil(days)) && Civil(days).year >= 1970 && DayNumber(Civil(days)) == days
  {
    var year, dayOfYear := CivilFromMarch(days);
    FromMarchCounts(year, dayOfYear);
  }

  // And every date from 1970 on is found, from the number of days to it.
  lemma EveryDateIsFound(d: Date)
    requires IsDate(d) && d.year >= 1970
    ensures DayNumber(d) >= 0 && Civil(DayNumber(d)) == d
  {
    MonthsOf(d.year);
    CivilInvertsCounting(DayNumber(d));
    DatesAreOrdered(Civil(DayNumber(d)), d);
  }

  lemma DateAt(days: nat) returns (d: Date)
    ensures IsDate(d) && d.year >= 1970 && DayNumber(d) == days
  {
    d := Civil(days);
    CivilInvertsCounting(days);
  }

  lemma {:induction false} PagesTurnedTo(days: nat, d: Date)
    requires IsDate(d) && d.year >= 1970 && DayNumber(d) == days
    ensures d == DaysLater(EPOCH, days)
  {
    if days == 0 {
      DatesAreOrdered(d, EPOCH);
    } else {
      var before := DateAt(days - 1);
      PagesTurnedTo(days - 1, before);
      NextIsOneOn(before);
      DatesAreOrdered(d, Next(before));
    }
  }

  // The conversion turns the calendar's pages: n days on from the first.
  lemma CivilTurnsPages(days: nat)
    ensures Civil(days) == DaysLater(EPOCH, days)
  {
    CivilInvertsCounting(days);
    PagesTurnedTo(days, Civil(days));
  }

  // ===== The text =====

  // A number printed at least `width` wide.
  function Padded(width: nat, n: nat): string {
    var s := Print(n);
    if |s| < width then Zeros(width - |s|) + s else s
  }

  // The fields of a timestamp, largest first.
  function Fields(seconds: nat): seq<nat> {
    var d, time := Civil(seconds / 86400), seconds % 86400;
    CivilInvertsCounting(seconds / 86400);
    [d.year, d.month, d.day, time / 3600, time % 3600 / 60, time % 60]
  }

  function Iso(seconds: nat): string {
    var f := Fields(seconds);
    Padded(4, f[0]) + "-" + Padded(2, f[1]) + "-" + Padded(2, f[2]) + "T" +
    Padded(2, f[3]) + ":" + Padded(2, f[4]) + ":" + Padded(2, f[5]) + "Z"
  }

  // Comparison of strings as Rust compares them; all of these are ASCII.
  predicate Less(a: string, b: string) {
    b != [] && (a == [] || a[0] < b[0] || (a[0] == b[0] && Less(a[1..], b[1..])))
  }

  // Exactly `width` digits.
  function Fixed(width: nat, n: nat): string {
    if width == 0 then [] else Fixed(width - 1, n / 10) + [Digit(n % 10)]
  }

  function Ten(width: nat): nat {
    if width == 0 then 1 else 10 * Ten(width - 1)
  }

  lemma {:induction false} FixedLength(width: nat, n: nat)
    ensures |Fixed(width, n)| == width
  {
    if width > 0 {
      FixedLength(width - 1, n / 10);
    }
  }

  lemma {:induction false} FixedZero(width: nat)
    ensures Fixed(width, 0) == Zeros(width)
  {
    if width > 0 {
      FixedZero(width - 1);
    }
  }

  // Padding gives the digits of the field, when the number fits it.
  lemma {:induction false} PaddedIsFixed(width: nat, n: nat)
    requires n < Ten(width) && width > 0
    ensures |Print(n)| <= width && Padded(width, n) == Fixed(width, n)
  {
    if n < 10 {
      FixedZero(width - 1);
    } else {
      PaddedIsFixed(width - 1, n / 10);
      var s := Print(n / 10);
      assert Zeros(width - 1 - |s|) + s + [Digit(n % 10)] == Zeros(width - (|s| + 1)) + (s + [Digit(n % 10)]);
    }
  }

  lemma {:induction false} LessIsStrict(a: string)
    ensures !Less(a, a)
  {
    if a != [] {
      LessIsStrict(a[1..]);
    }
  }

  // Strings of one length compare front first.
  lemma {:induction false} LessByFront(a: string, b: string, x: string, y: string)
    requires |a| == |b|
    ensures Less(a + x, b + y) <==> Less(a, b) || (a == b && Less(x, y))
  {
    if a == [] {
      assert a + x == x && b + y == y;
      LessIsStrict([]);
    } else {
      LessByFront(a[1..], b[1..], x, y);
      assert (a + x)[1..] == a[1..] + x && (b + y)[1..] == b[1..] + y;
      assert a == b <==> a[0] == b[0] && a[1..] == b[1..] by {
        assert a == [a[0]] + a[1..] && b == [b[0]] + b[1..];
      }
    }
  }

  lemma {:induction false} FixedInOrder(width: nat, m: nat, n: nat)
    requires m < Ten(width) && n < Ten(width)
    ensures Less(Fixed(width, m), Fixed(width, n)) <==> m < n
    ensures Fixed(width, m) == Fixed(width, n) <==> m == n
  {
    if width > 0 {
      FixedInOrder(width - 1, m / 10, n / 10);
      FixedLength(width - 1, m / 10);
      FixedLength(width - 1, n / 10);
      var a, b, c, d := Fixed(width - 1, m / 10), Fixed(width - 1, n / 10), [Digit(m % 10)], [Digit(n % 10)];
      LessByFront(a, b, c, d);
      assert Less(c, d) <==> m % 10 < n % 10;
      assert a + c == b + d ==>
               (a + c)[..width - 1] == a && (b + d)[..width - 1] == b && (a + c)[width - 1] == (b + d)[width - 1];
    }
  }

  // ----- Timestamps in order -----

  const WIDTHS: seq<nat> := [4, 2, 2, 2, 2, 2]
  const SEPARATORS := "--T::Z"

  // The text from field k on, when every field fits its width.
  function TextFrom(f: seq<nat>, k: nat): string
    requires |f| == 6
    decreases 6 - k
  {
    if k >= 6 then "" else Fixed(WIDTHS[k], f[k]) + ([SEPARATORS[k]] + TextFrom(f, k + 1))
  }

  predicate FieldsLess(f: seq<nat>, g: seq<nat>, k: nat)
    requires |f| == |g| == 6
    decreases 6 - k
  {
    k < 6 && (f[k] < g[k] || (f[k] == g[k] && FieldsLess(f, g, k + 1)))
  }

  predicate Fits(f: seq<nat>) {
    |f| == 6 && f[0] < Ten(4) && forall k | 1 <= k < 6 :: f[k] < Ten(2)
  }

  lemma {:induction false} TextInOrder(f: seq<nat>, g: seq<nat>, k: nat)
    requires Fits(f) && Fits(g) && k <= 6
    ensures Less(TextFrom(f, k), TextFrom(g, k)) <==> FieldsLess(f, g, k)
    decreases 6 - k
  {
    if k < 6 {
      TextInOrder(f, g, k + 1);
      FixedInOrder(WIDTHS[k], f[k], g[k]);
      FixedLength(WIDTHS[k], f[k]);
      FixedLength(WIDTHS[k], g[k]);
      var x, y := [SEPARATORS[k]], [SEPARATORS[k]];
      LessByFront(Fixed(WIDTHS[k], f[k]), Fixed(WIDTHS[k], g[k]), x + TextFrom(f, k + 1), y + TextFrom(g, k + 1));
      LessByFront(x, y, TextFrom(f, k + 1), TextFrom(g, k + 1));
      LessIsStrict(x);
    }
  }

  // The last instant whose year has four digits is the one before this.
  const YEAR_10000 := 253402300800

  lemma FourDigitYears(seconds: nat)
    ensures Civil(seconds / 86400).year <= 9999 <==> seconds < YEAR_10000
  {
    var d := Date(10000, 1, 1);
    YearsByFormula(10000);
    assert DayNumber(d) == 2932897;
    CivilInvertsCounting(seconds / 86400);
    DatesAreOrdered(Civil(seconds / 86400), d);
  }

  lemma FieldsFit(seconds: nat)
    requires seconds < YEAR_10000
    ensures Fits(Fields(seconds))
  {
    FourDigitYears(seconds);
    CivilInvertsCounting(seconds / 86400);
    assert Ten(2) == 100 && Ten(4) == 10000;
  }

  lemma PaddedReads(width: nat, n: nat)
    requires n < Ten(width) && width > 0
    ensures |Padded(width, n)| == width && Read(Padded(width, n)) == Some(n)
  {
    PaddedIsFixed(width, n);
    FixedLength(width, n);
    ReadPadded(0, n);
    assert Zeros(0) + Print(n) == Print(n);
    if |Print(n)| < width {
      ReadPadded(width - |Print(n)|, n);
    }
  }

  lemma TimeOfDay(seconds: nat)
    ensures var time := seconds % 86400;
            && time / 3600 < 24 && time % 3600 / 60 < 60 && time % 60 < 60
            && time / 3600 * 3600 + time % 3600 / 60 * 60 + time % 60 == time
            && seconds / 86400 * 86400 + time == seconds
  {
  }

  lemma SixParts(a: string, b: string, c: string, d: string, e: string, f: string)
    requires |a| == 4 && |b| == 2 && |c| == 2 && |d| == 2 && |e| == 2 && |f| == 2
    ensures var t := a + "-" + b + "-" + c + "T" + d + ":" + e + ":" + f + "Z";
            && |t| == 20 && t[..4] == a && t[4] == '-' && t[5..7] == b && t[7] == '-' && t[8..10] == c && t[10] == 'T'
            && t[11..13] == d && t[13] == ':' && t[14..16] == e && t[16] == ':' && t[17..19] == f && t[19] == 'Z'
  {
  }

  // Through the year 9999 a timestamp is written in twenty characters which, read
  // back, give the date and a time of day, and with them the instant.
  lemma IsoReads(seconds: nat)
    requires seconds < YEAR_10000
    ensures var t, d := Iso(seconds), Civil(seconds / 86400);
            && |t| == 20 && t[4] == '-' && t[7] == '-' && t[10] == 'T' && t[13] == ':' && t[16] == ':' && t[19] == 'Z'
            && Read(t[..4]) == Some(d.year) && Read(t[5..7]) == Some(d.month) && Read(t[8..10]) == Some(d.day)
            && IsDate(d) && d.year >= 1970
            && var hour, minute, second := Read(t[11..13]), Read(t[14..16]), Read(t[17..19]);
               && hour.Some? && minute.Some? && second.Some? && hour.value < 24 && minute.value < 60
                   && second.value < 60
               && DayNumber(d) * 86400 + hour.value * 3600 + minute.value * 60 + second.value == seconds
  {
    var f := Fields(seconds);
    FieldsFit(seconds);
    CivilInvertsCounting(seconds / 86400);
    TimeOfDay(seconds);
    PaddedReads(4, f[0]);
    PaddedReads(2, f[1]);
    PaddedReads(2, f[2]);
    PaddedReads(2, f[3]);
    PaddedReads(2, f[4]);
    PaddedReads(2, f[5]);
    SixParts(Padded(4, f[0]), Padded(2, f[1]), Padded(2, f[2]), Padded(2, f[3]), Padded(2, f[4]), Padded(2, f[5]));
  }

  lemma IsoIsText(seconds: nat)
    requires seconds < YEAR_10000
    ensures Iso(seconds) == TextFrom(Fields(seconds), 0)
  {
    var f := Fields(seconds);
    FieldsFit(seconds);
    PaddedIsFixed(4, f[0]);
    forall k | 1 <= k < 6
      ensures Padded(2, f[k]) == Fixed(2, f[k])
    {
      PaddedIsFixed(2, f[k]);
    }
    Regrouped(Fixed(4, f[0]), Fixed(2, f[1]), Fixed(2, f[2]), Fixed(2, f[3]), Fixed(2, f[4]), Fixed(2, f[5]));
  }

  lemma Regrouped(a: string, b: string, c: string, d: string, e: string, f: string)
    ensures a + "-" + b + "-" + c + "T" + d + ":" + e + ":" + f + "Z"
         == a + ("-" + (b + ("-" + (c + ("T" + (d + (":" + (e + (":" + (f + ("Z" + "")))))))))))
  {
  }

  lemma DaysThenTime(m: nat, n: nat)
    ensures m < n <==> m / 86400 < n / 86400 || (m / 86400 == n / 86400 && m % 86400 < n % 86400)
  {
  }

  lemma HoursThenRest(s: nat, t: nat)
    ensures s < t <==> s / 3600 < t / 3600 || (s / 3600 == t / 3600 && s % 3600 < t % 3600)
  {
  }

  lemma MinutesThenSeconds(s: nat, t: nat)
    ensures s % 3600 < t % 3600 <==> s % 3600 / 60 < t % 3600 / 60 ||
                                     (s % 3600 / 60 == t % 3600 / 60 && s % 3600 % 60 < t % 3600 % 60)
  {
  }

  lemma SecondsOfHour(s: nat)
    ensures s % 3600 % 60 == s % 60
  {
    assert s == 60 * (60 * (s / 3600)) + s % 3600;
  }

  lemma TimesInOrder(s: nat, t: nat)
    ensures s < t <==> s / 3600 < t / 3600 ||
                       (s / 3600 == t / 3600 && (s % 3600 / 60 < t % 3600 / 60 ||
                        (s % 3600 / 60 == t % 3600 / 60 && s % 60 < t % 60)))
  {
    HoursThenRest(s, t);
    MinutesThenSeconds(s, t);
    SecondsOfHour(s);
    SecondsOfHour(t);
  }

  lemma FieldByField(f: seq<nat>, g: seq<nat>)
    requires |f| == |g| == 6
    ensures FieldsLess(f, g, 0) <==>
              Earlier(Date(f[0], f[1], f[2]), Date(g[0], g[1], g[2])) || (f[..3] == g[..3] && FieldsLess(f, g, 3))
    ensures FieldsLess(f, g, 3) <==> f[3] < g[3] || (f[3] == g[3] && (f[4] < g[4] || (f[4] == g[4] && f[5] < g[5])))
  {
    assert FieldsLess(f, g, 2) <==> f[2] < g[2] || (f[2] == g[2] && FieldsLess(f, g, 3));
    assert FieldsLess(f, g, 5) <==> f[5] < g[5];
    assert f[..3] == [f[0], f[1], f[2]] && g[..3] == [g[0], g[1], g[2]];
  }

  // A timestamp's date, and its fields in those terms.
  lemma FieldsAre(seconds: nat) returns (d: Date)
    ensures IsDate(d) && d.year >= 1970 && DayNumber(d) == seconds / 86400
    ensures Fields(seconds) == [d.year, d.month, d.day, seconds % 86400 / 3600, seconds % 86400 % 3600 / 60,
            seconds % 86400 % 60]
    ensures Fields(seconds)[..3] == [d.year, d.month, d.day]
  {
    d := Civil(seconds / 86400);
    CivilInvertsCounting(seconds / 86400);
  }

  // The fields come in the order of the instants.
  lemma FieldsInOrder(m: nat, n: nat)
    ensures FieldsLess(Fields(m), Fields(n), 0) <==> m < n
  {
    var d := FieldsAre(m);
    var e := FieldsAre(n);
    FieldByField(Fields(m), Fields(n));
    DatesAreOrdered(d, e);
    TimesInOrder(m % 86400, n % 86400);
    DaysThenTime(m, n);
    assert [d.year, d.month, d.day] == [e.year, e.month, e.day] <==> d == e by {
      var x, y := [d.year, d.month, d.day], [e.year, e.month, e.day];
      assert x == y ==> x[0] == y[0] && x[1] == y[1] && x[2] == y[2];
    }
  }

  // Through the year 9999 the printed timestamps compare as the instants do.
  lemma IsoInOrder(m: nat, n: nat)
    requires m < YEAR_10000 && n < YEAR_10000
    ensures Less(Iso(m), Iso(n)) <==> m < n
    ensures Iso(m) == Iso(n) <==> m == n
  {
    IsoIsText(m);
    IsoIsText(n);
    FieldsFit(m);
    FieldsFit(n);
    TextInOrder(Fields(m), Fields(n), 0);
    TextInOrder(Fields(n), Fields(m), 0);
    FieldsInOrder(m, n);
    FieldsInOrder(n, m);
    LessIsStrict(Iso(m));
  }

  lemma BeginsWithYear(seconds: nat, d: Date)
    requires IsDate(d) && d.year >= 1970 && DayNumber(d) == seconds / 86400 && Padded(4, d.year) != []
    ensures Iso(seconds) != [] && Iso(seconds)[0] == Padded(4, d.year)[0]
  {
    EveryDateIsFound(d);
  }

  lemma InstantsAround10000()
    ensures DayNumber(Date(10000, 1, 1)) == 2932897 && DayNumber(Date(9999, 12, 31)) == 2932896
  {
    YearsByFormula(10000);
    NextIsOneOn(Date(9999, 12, 31));
  }

  lemma FirstIn10000()
    ensures Iso(YEAR_10000) != [] && Iso(YEAR_10000)[0] == '1'
  {
    InstantsAround10000();
    FirstDigit(10000);
    BeginsWithYear(YEAR_10000, Date(10000, 1, 1));
  }

  lemma LastIn9999()
    ensures Iso(YEAR_10000 - 1) != [] && Iso(YEAR_10000 - 1)[0] == '9'
  {
    InstantsAround10000();
    FirstDigit(9999);
    BeginsWithYear(YEAR_10000 - 1, Date(9999, 12, 31));
  }

  // The first instant of the year 10000 is printed before the last of 9999.
  lemma OrderBreaks()
    ensures Less(Iso(YEAR_10000), Iso(YEAR_10000 - 1))
  {
    FirstIn10000();
    LastIn9999();
  }

  lemma FirstDigit(year: nat)
    requires year == 10000 || year == 9999
    ensures Padded(4, year) != [] && Padded(4, year)[0] == if year == 10000 then '1' else '9'
  {
    assert Print(year / 10) == Print(year / 10 / 10) + [Digit(year / 10 % 10)];
    assert Print(year / 100) == Print(year / 100 / 10) + [Digit(year / 100 % 10)];
    assert Print(year / 1000) == (if year == 9999 then [Digit(9)] else Print(1) + [Digit(0)]);
  }

  ghost predicate OrdersBelow(limit: nat) {
    forall m: nat, n: nat | m < limit && n < limit :: Less(Iso(m), Iso(n)) <==> m < n
  }

  // So the text orders every instant below a limit exactly up to that one.
  lemma OrderedExactlyTo(limit: nat)
    ensures OrdersBelow(limit) <==> limit <= YEAR_10000
  {
    if limit <= YEAR_10000 {
      forall m: nat, n: nat | m < limit && n < limit
        ensures Less(Iso(m), Iso(n)) <==> m < n
      {
        IsoInOrder(m, n);
      }
    } else {
      OrderBreaks();
    }
  }
}

// What `session/list` says.
module SessionList {
  import opened Wrappers
  import opened Calendar
  import opened StableSort

  datatype Session = Session(id: string, cwd: string, title: Option<string>, updatedAt: string)

  // The sessions of a directory, or all of them, in the order the table gives.
  function Matching(sessions: seq<Session>, cwd: Option<string>): seq<Session> {
    if sessions == [] then []
    else Matching(sessions[..|sessions| - 1], cwd) +
         if cwd.None? || sessions[|sessions| - 1].cwd == cwd.value then [sessions[|sessions| - 1]] else []
  }

  predicate Newer(a: Session, b: Session) {
    Less(b.updatedAt, a.updatedAt)
  }

  function Listed(sessions: seq<Session>, cwd: Option<string>): seq<Session> {
    Sorted(Matching(sessions, cwd), Newer)
  }

  lemma {:induction false} LessIsAsymmetric(a: string, b: string)
    ensures Less(a, b) ==> !Less(b, a)
    ensures !Less(a, b) && !Less(b, a) ==> a == b
  {
    if a != [] && b != [] {
      LessIsAsymmetric(a[1..], b[1..]);
      assert a == [a[0]] + a[1..] && b == [b[0]] + b[1..];
    }
  }

  lemma {:induction false} LessIsTransitive(a: string, b: string, c: string)
    ensures Less(a, b) && Less(b, c) ==> Less(a, c)
  {
    if a != [] && b != [] && c != [] {
      LessIsTransitive(a[1..], b[1..], c[1..]);
    }
  }

  lemma NewerIsOrder()
    ensures IsOrder(Newer)
  {
    forall x, y
      ensures Newer(x, y) ==> !Newer(y, x)
    {
      LessIsAsymmetric(x.updatedAt, y.updatedAt);
    }
    forall x, y, z
      ensures Newer(x, y) && Newer(y, z) ==> Newer(x, z)
      ensures !Newer(x, y) && !Newer(y, z) ==> !Newer(x, z)
    {
      LessIsTransitive(z.updatedAt, y.updatedAt, x.updatedAt);
      LessIsTransitive(x.updatedAt, y.updatedAt, z.updatedAt);
      LessIsAsymmetric(x.updatedAt, y.updatedAt);
      LessIsAsymmetric(y.updatedAt, z.updatedAt);
      LessIsAsymmetric(x.updatedAt, z.updatedAt);
    }
  }

  lemma {:induction false} MatchingIs(sessions: seq<Session>, cwd: Option<string>, s: Session)
    ensures s in Matching(sessions, cwd) <==> s in sessions && (cwd.None? || s.cwd == cwd.value)
  {
    if sessions != [] {
      MatchingIs(sessions[..|sessions| - 1], cwd, s);
      assert sessions == sessions[..|sessions| - 1] + [sessions[|sessions| - 1]];
    }
  }

  // Given sessions last touched at these instants, all before the year 10000,
  // the list is exactly the directory's sessions, newest first.
  lemma ListedNewestFirst(sessions: seq<Session>, cwd: Option<string>, at: Session -> nat)
    requires forall s | s in sessions :: at(s) < YEAR_10000 && s.updatedAt == Iso(at(s))
    ensures multiset(Listed(sessions, cwd)) == multiset(Matching(sessions, cwd))
    ensures forall s :: s in Listed(sessions, cwd) <==> s in sessions && (cwd.None? || s.cwd == cwd.value)
    ensures forall i, j | 0 <= i < j < |Listed(sessions,
            cwd)| :: at(Listed(sessions, cwd)[i]) >= at(Listed(sessions, cwd)[j])
  {
    NewerIsOrder();
    SortedIsStable(Matching(sessions, cwd), Newer);
    var listed := Listed(sessions, cwd);
    forall s
      ensures s in listed <==> s in sessions && (cwd.None? || s.cwd == cwd.value)
    {
      MatchingIs(sessions, cwd, s);
      assert s in listed <==> s in multiset(listed);
      assert s in Matching(sessions, cwd) <==> s in multiset(Matching(sessions, cwd));
    }
    forall i, j | 0 <= i < j < |listed|
      ensures at(listed[i]) >= at(listed[j])
    {
      assert listed[i] in listed && listed[j] in listed;
      IsoInOrder(at(listed[i]), at(listed[j]));
    }
  }
}
