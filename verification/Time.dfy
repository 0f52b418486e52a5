/** Timestamps as text (src/core/time.cpp): the proleptic Gregorian calendar and the date-time form of
    section 5.6 of RFC 3339. */
module Timestamps {
  import opened Model

  const NANOS := 1_000_000_000
  const DAY := 86400
  const INT64_MAX := 0x7FFF_FFFF_FFFF_FFFF
  const INT64_MIN := -0x8000_0000_0000_0000

  // ---- the calendar ----

  datatype Date = Date(year: int, month: int, day: int)

  const ERA := 146097      // days in 400 years
  const EPOCH := 719468    // days from 1 March of year 0 to 1 January 1970

  /** Division that truncates, as the source's language does. */
  function Quotient(a: int, b: int): int
    requires b > 0
  {
    if a >= 0 then a / b else -((-a) / b)
  }

  function Remainder(a: int, b: int): int
    requires b > 0
  {
    a - b * Quotient(a, b)
  }

  function YearOfEra(doe: int): int {
    (doe - doe / 1460 + doe / 36524 - doe / 146096) / 365
  }

  function DayOfYear(doe: int): int {
    doe - (365 * YearOfEra(doe) + YearOfEra(doe) / 4 - YearOfEra(doe) / 100)
  }

  function EraOf(z: int): int { Quotient(if z >= 0 then z else z - (ERA - 1), ERA) }

  /** `civil_from_days`; the day numbers start on 1 January 1970. */
  function CivilFromDays(days: int): Date {
    DateAt(PlaceOf(days + EPOCH))
  }

  datatype Place = Place(era: int, doe: int)

  /** The era of a day and its number within the era. */
  function PlaceOf(z: int): Place { Place(EraOf(z), z - EraOf(z) * ERA) }

  function DateAt(p: Place): Date { CivilOf(p.era, YearOfEra(p.doe), DayOfYear(p.doe)) }

  /** The date of a day of a year of an era; such years begin in March. */
  function CivilOf(era: int, yoe: int, doy: int): Date {
    var mp := (5 * doy + 2) / 153;
    var month := if mp < 10 then mp + 3 else mp - 9;
    Date(yoe + era * 400 + (if month <= 2 then 1 else 0), month, doy - (153 * mp + 2) / 5 + 1)
  }

  /** The inverse inside `parse_iso8601`. */
  function DaysFromCivil(d: Date): int {
    var y := if d.month <= 2 then d.year - 1 else d.year;
    var era := Quotient(if y >= 0 then y else y - 399, 400);
    var yoe := y - era * 400;
    var doy := Quotient(153 * (d.month + (if d.month > 2 then -3 else 9)) + 2, 5) + d.day - 1;
    var doe := yoe * 365 + Quotient(yoe, 4) - Quotient(yoe, 100) + doy;
    era * ERA + doe - EPOCH
  }

  lemma {:induction false} EraFloors(z: int)
    ensures EraOf(z) == z / ERA && 0 <= z - EraOf(z) * ERA < ERA
  {
  }

  predicate Leap(year: int) {
    year % 4 == 0 && (year % 100 != 0 || year % 400 == 0)
  }

  /** The days before a year of the era, which begins in March. */
  function YearStart(yoe: int): int { 365 * yoe + yoe / 4 - yoe / 100 }

  /** A year that begins in March has its leap day, if any, at its end: in February of the next one. */
  function YearLength(yoe: int): int { if Leap(yoe + 1) then 366 else 365 }

  /** Within a century of 36524 days: four-year blocks of 1461 days, and the year within the block. */
  lemma {:induction false} YearInCentury(r: int, c: int)
    requires 0 <= r < 36524 && 0 <= c <= 3
    ensures var y := (r - (24 * c + r) / 1460) / 365;
            && 0 <= y <= 99 && 0 <= r - 365 * y - y / 4 <= 365
            && (r - 365 * y - y / 4 == 365 ==> (y + 1) % 4 == 0 && y < 99)
  {
    var k, s := r / 1461, r % 1461;
    var e := if 24 * c + k + s < 1460 then 0 else 1;
    assert 24 * c + r == 1460 * (k + e) + (24 * c + k + s - 1460 * e);
    assert (24 * c + r) / 1460 == k + e;
    var j := (s - e) / 365;
    assert 0 <= j <= 3;
    assert r - (k + e) == 365 * (4 * k + j) + (s - e - 365 * j);
    assert (r - (24 * c + r) / 1460) / 365 == 4 * k + j;
    assert (4 * k + j) / 4 == k && (4 * k + j + 1) % 4 == (j + 1) % 4;
  }

  /** The leap days of an era make the year formula exact: a day of the era falls in the year it says, before
      the end of that year. */
  lemma {:induction false} YearOfEraExact(doe: int)
    requires 0 <= doe < ERA
    ensures 0 <= YearOfEra(doe) < 400 && 0 <= DayOfYear(doe) < YearLength(YearOfEra(doe))
    ensures DayOfYear(doe) == doe - YearStart(YearOfEra(doe))
  {
    if doe < 146096 {
      var c, r := doe / 36524, doe % 36524;
      YearInCentury(r, c);
      Centuries(doe, c, r);
      DayInCentury(doe, c, (r - (24 * c + r) / 1460) / 365);
    }
  }

  lemma {:induction false} DayInCentury(doe: int, c: int, y: int)
    requires 0 <= c <= 3 && 0 <= y <= 99 && YearOfEra(doe) == 100 * c + y
    requires var day := doe - 36524 * c - 365 * y - y / 4;
             0 <= day <= 365 && (day == 365 ==> (y + 1) % 4 == 0 && y < 99)
    ensures 0 <= DayOfYear(doe) < YearLength(YearOfEra(doe)) && DayOfYear(doe) == doe - YearStart(YearOfEra(doe))
  {
    CenturyStart(c, y);
    if y < 99 && (y + 1) % 4 == 0 { LeapInCentury(c, y); }
  }

  lemma {:induction false} CenturyStart(c: int, y: int)
    requires 0 <= c <= 3 && 0 <= y <= 99
    ensures YearStart(100 * c + y) == 36524 * c + 365 * y + y / 4
  {
    assert (100 * c + y) / 4 == 25 * c + y / 4 && (100 * c + y) / 100 == c;
  }

  lemma {:induction false} LeapInCentury(c: int, y: int)
    requires 0 <= c <= 3 && 0 <= y < 99 && (y + 1) % 4 == 0
    ensures Leap(100 * c + y + 1)
  {
    assert (100 * c + y + 1) % 4 == (y + 1) % 4;
    assert (100 * c + y + 1) % 100 == y + 1;
  }

  lemma {:induction false} Centuries(doe: int, c: int, r: int)
    requires doe == 36524 * c + r && 0 <= c <= 3 && 0 <= r < 36524
    ensures YearOfEra(doe) == 100 * c + (r - (24 * c + r) / 1460) / 365
  {
    assert doe == 1460 * (25 * c) + (24 * c + r);
    assert doe / 1460 == 25 * c + (24 * c + r) / 1460;
    assert doe / 36524 == c && doe / 146096 == 0;
    assert doe - doe / 1460 + doe / 36524 - doe / 146096 == 365 * (100 * c) + (r - (24 * c + r) / 1460);
  }

  /** A day of the year comes back from its month and day. */
  lemma {:induction false} MonthExact(doy: int)
    requires 0 <= doy <= 365
    ensures var mp := (5 * doy + 2) / 153;
            var day := doy - (153 * mp + 2) / 5 + 1;
            var month := if mp < 10 then mp + 3 else mp - 9;
            && 0 <= mp <= 11 && 1 <= day <= 31 && 1 <= month <= 12
            && Quotient(153 * (month + (if month > 2 then -3 else 9)) + 2, 5) + day - 1 == doy
  {
  }

  /** A day number is a day of a year of an era. */
  lemma {:induction false} Decompose(days: int) returns (era: int, yoe: int, doy: int)
    ensures 0 <= yoe < 400 && 0 <= doy < YearLength(yoe) && CivilFromDays(days) == CivilOf(era, yoe, doy)
    ensures days == era * ERA + YearStart(yoe) + doy - EPOCH
  {
    var p := PlaceOf(days + EPOCH);
    EraFloors(days + EPOCH);
    YearOfEraExact(p.doe);
    era, yoe, doy := p.era, YearOfEra(p.doe), DayOfYear(p.doe);
    assert CivilFromDays(days) == DateAt(p);
  }

  lemma {:induction false} CivilOfDays(era: int, yoe: int, doy: int)
    requires 0 <= yoe < 400 && 0 <= doy <= 365
    ensures DaysFromCivil(CivilOf(era, yoe, doy)) == era * ERA + YearStart(yoe) + doy - EPOCH
    ensures var d := CivilOf(era, yoe, doy); 1 <= d.month <= 12 && 1 <= d.day <= 31
  {
    MonthExact(doy);
    Reassembled(era, yoe, doy, CivilOf(era, yoe, doy));
  }

  /** Every day number comes back from its calendar date. */
  lemma {:induction false} CivilRoundTrip(days: int)
    ensures DaysFromCivil(CivilFromDays(days)) == days
    ensures var d := CivilFromDays(days); 1 <= d.month <= 12 && 1 <= d.day <= 31
  {
    var era, yoe, doy := Decompose(days);
    CivilOfDays(era, yoe, doy);
  }

  // ---- the days that exist ----

  function DaysInMonth(year: int, month: int): int
    requires 1 <= month <= 12
  {
    if month == 2 then if Leap(year) then 29 else 28
    else if month == 4 || month == 6 || month == 9 || month == 11 then 30
    else 31
  }

  predicate IsCalendarDate(d: Date) {
    1 <= d.month <= 12 && 1 <= d.day <= DaysInMonth(d.year, d.month)
  }

  /** Months counted from March. */
  function MonthStart(mp: int): int { (153 * mp + 2) / 5 }

  function Shifted(month: int): int { if month > 2 then month - 3 else month + 9 }

  lemma {:induction false} Months(year: int, month: int)
    requires 1 <= month <= 12
    ensures month != 2 ==> MonthStart(Shifted(month)) + DaysInMonth(year, month) == MonthStart(Shifted(month) + 1)
    ensures month == 2 ==> MonthStart(Shifted(month)) + DaysInMonth(year, month) == if Leap(year) then 366 else 365
  {
  }

  lemma {:induction false} MonthOfDay(doy: int, month: int, day: int)
    requires 1 <= month <= 12 && 1 <= day && doy == MonthStart(Shifted(month)) + day - 1
    requires if month == 2 then doy <= 365 else doy < MonthStart(Shifted(month) + 1)
    ensures (5 * doy + 2) / 153 == Shifted(month)
  {
  }

  lemma {:induction false} ErasShift(year: int, era: int)
    ensures (year + 400 * era) % 4 == year % 4 && (year + 400 * era) % 100 == year % 100
    ensures (year + 400 * era) % 400 == year % 400
  {
    assert (year + 400 * era) / 4 == year / 4 + 100 * era;
    assert (year + 400 * era) / 100 == year / 100 + 4 * era;
    assert (year + 400 * era) / 400 == year / 400 + era;
  }

  lemma {:induction false} LeapRepeats(year: int, era: int)
    ensures Leap(year + 400 * era) <==> Leap(year)
  {
    ErasShift(year, era);
  }

  lemma {:induction false} DayExists(era: int, yoe: int, doy: int)
    requires 0 <= yoe < 400 && 0 <= doy < YearLength(yoe)
    ensures IsCalendarDate(CivilOf(era, yoe, doy))
  {
    var d := CivilOf(era, yoe, doy);
    MonthExact(doy);
    Months(d.year, d.month);
    LeapRepeats(yoe + 1, era);
  }

  /** Every day number is a day that exists. */
  lemma {:induction false} CivilIsCalendar(days: int)
    ensures IsCalendarDate(CivilFromDays(days))
  {
    var era, yoe, doy := Decompose(days);
    DayExists(era, yoe, doy);
  }

  lemma {:induction false} NextYearStarts(a: int)
    requires 0 <= a < 399
    ensures YearStart(a + 1) == YearStart(a) + YearLength(a)
  {
    assert (a + 1) / 4 == a / 4 + if (a + 1) % 4 == 0 then 1 else 0;
    assert (a + 1) / 100 == a / 100 + if (a + 1) % 100 == 0 then 1 else 0;
    assert (a + 1) % 400 != 0;
    if (a + 1) % 100 == 0 { assert (a + 1) % 4 == 0; }
  }

  lemma {:induction false} YearStartsRise(a: int, b: int)
    requires 0 <= a <= b
    ensures YearStart(a) <= YearStart(b)
  {
    assert b / 4 - b / 100 >= 0 && a / 4 <= b / 4;
    assert b / 100 - a / 100 <= b - a;
  }

  lemma {:induction false} YearsFollow(a: int, b: int)
    requires 0 <= a < b < 400
    ensures YearStart(a) + YearLength(a) <= YearStart(b)
  {
    NextYearStarts(a);
    YearStartsRise(a + 1, b);
  }

  /** The year of a day of the era is the only one that day falls in. */
  lemma {:induction false} YearIsUnique(doe: int, yoe: int, doy: int)
    requires 0 <= yoe < 400 && 0 <= doy < YearLength(yoe) && doe == YearStart(yoe) + doy
    ensures 0 <= doe < ERA && YearOfEra(doe) == yoe && DayOfYear(doe) == doy
  {
    if yoe < 399 { YearsFollow(yoe, 399); }
    YearOfEraExact(doe);
    var y := YearOfEra(doe);
    if y < yoe { YearsFollow(y, yoe); } else if yoe < y { YearsFollow(yoe, y); }
  }

  lemma {:induction false} DayInYear(d: Date, yoe: int, era: int)
    requires IsCalendarDate(d) && d.year == yoe + era * 400 + (if d.month <= 2 then 1 else 0)
    ensures var doy := MonthStart(Shifted(d.month)) + d.day - 1;
            && 0 <= doy < YearLength(yoe)
            && (if d.month == 2 then doy <= 365 else doy < MonthStart(Shifted(d.month) + 1))
  {
    Months(d.year, d.month);
    LeapRepeats(yoe + 1, era);
  }

  /** Each day of each era has its own number. */
  lemma {:induction false} EraIsUnique(z: int, era: int, doe: int)
    requires 0 <= doe < ERA && z == era * ERA + doe
    ensures PlaceOf(z) == Place(era, doe)
  {
    EraFloors(z);
  }

  lemma {:induction false} EraOfDate(d: Date) returns (era: int, yoe: int)
    ensures 0 <= yoe < 400 && d.year == yoe + era * 400 + (if d.month <= 2 then 1 else 0)
  {
    var y := if d.month <= 2 then d.year - 1 else d.year;
    era, yoe := y / 400, y % 400;
  }

  lemma {:induction false} MonthComesBack(d: Date, era: int, yoe: int, doy: int)
    requires IsCalendarDate(d) && d.year == yoe + era * 400 + (if d.month <= 2 then 1 else 0)
    requires doy == MonthStart(Shifted(d.month)) + d.day - 1
    ensures CivilOf(era, yoe, doy) == d
  {
    DayInYear(d, yoe, era);
    MonthOfDay(doy, d.month, d.day);
  }

  lemma {:induction false} CalendarComesBack(d: Date)
    requires IsCalendarDate(d)
    ensures CivilFromDays(DaysFromCivil(d)) == d
  {
    var p := PlaceOfDate(d);
    EraIsUnique(DaysFromCivil(d) + EPOCH, p.era, p.doe);
  }

  /** The era and the day of the era of a date that exists. */
  lemma {:induction false} PlaceOfDate(d: Date) returns (p: Place)
    requires IsCalendarDate(d)
    ensures 0 <= p.doe < ERA && DateAt(p) == d && DaysFromCivil(d) == p.era * ERA + p.doe - EPOCH
  {
    var era, yoe := EraOfDate(d);
    var doy := MonthStart(Shifted(d.month)) + d.day - 1;
    var doe := YearStart(yoe) + doy;
    DayInYear(d, yoe, era);
    YearIsUnique(doe, yoe, doy);
    DayNumber(d, era, yoe, doy);
    MonthComesBack(d, era, yoe, doy);
    p := Place(era, doe);
  }

  lemma {:induction false} DayNumber(d: Date, era: int, yoe: int, doy: int)
    requires 0 <= yoe < 400 && 1 <= d.month <= 12
    requires d.year == yoe + era * 400 + (if d.month <= 2 then 1 else 0)
    requires doy == MonthStart(Shifted(d.month)) + d.day - 1
    ensures DaysFromCivil(d) == era * ERA + (YearStart(yoe) + doy) - EPOCH
  {
    Reassembled(era, yoe, doy, d);
  }

  /** A date comes back from its day number exactly when it exists. */
  lemma {:induction false} DateRoundTrip(d: Date)
    ensures CivilFromDays(DaysFromCivil(d)) == d <==> IsCalendarDate(d)
  {
    CivilIsCalendar(DaysFromCivil(d));
    if IsCalendarDate(d) { CalendarComesBack(d); }
  }

  /** A date made of an era, a year of the era and a day of the year. */
  lemma {:induction false} Reassembled(era: int, yoe: int, doy: int, d: Date)
    requires 0 <= yoe < 400 && 1 <= d.month <= 12
    requires d.year == yoe + era * 400 + (if d.month <= 2 then 1 else 0)
    requires Quotient(153 * (d.month + (if d.month > 2 then -3 else 9)) + 2, 5) + d.day - 1 == doy
    ensures DaysFromCivil(d) == era * ERA + 365 * yoe + yoe / 4 - yoe / 100 + doy - EPOCH
  {
    YearFloors(yoe, era);
  }

  lemma {:induction false} YearFloors(yoe: int, era: int)
    requires 0 <= yoe < 400
    ensures var y := yoe + era * 400; Quotient(if y >= 0 then y else y - 399, 400) == era
  {
  }

  // ---- decimal fields ----

  predicate IsDigit(c: char) { '0' <= c <= '9' }

  function DigitChar(d: nat): (c: char)
    requires d < 10
    ensures IsDigit(c) && DigitValue(c) == d
  {
    (d + '0' as int) as char
  }

  function DigitValue(c: char): nat
    requires IsDigit(c)
  {
    c as int - '0' as int
  }

  function Power10(n: nat): nat { if n == 0 then 1 else 10 * Power10(n - 1) }

  /** `%0nd`. */
  function Digits(x: nat, n: nat): (t: string)
    ensures |t| == n && forall i | 0 <= i < n :: IsDigit(t[i])
  {
    if n == 0 then "" else Digits(x / 10, n - 1) + [DigitChar(x % 10)]
  }

  predicate AllDigits(t: string) { forall i | 0 <= i < |t| :: IsDigit(t[i]) }

  function Decimal(t: string): nat
    requires AllDigits(t)
    decreases |t|
  {
    if t == "" then 0 else 10 * Decimal(t[..|t| - 1]) + DigitValue(t[|t| - 1])
  }

  lemma {:induction false} DecimalOfDigits(x: nat, n: nat)
    requires x < Power10(n)
    ensures Decimal(Digits(x, n)) == x
    decreases n
  {
    if n > 0 {
      DecimalOfDigits(x / 10, n - 1);
      var t := Digits(x, n);
      assert t[..n - 1] == Digits(x / 10, n - 1);
    }
  }

  // ---- printing ----

  datatype Clock = Clock(hour: nat, minute: nat, second: nat, fraction: nat)

  /** Seconds, rounded towards the past, and the rest. */
  function Split(t: int): (int, nat) {
    var seconds, fraction := Quotient(t, NANOS), Remainder(t, NANOS);
    if fraction < 0 then (seconds - 1, fraction + NANOS) else (seconds, fraction)
  }

  function SplitDay(seconds: int): (int, nat) {
    var days, rest := Quotient(seconds, DAY), Remainder(seconds, DAY);
    if rest < 0 then (days - 1, rest + DAY) else (days, rest)
  }

  lemma {:induction false} SplitFloors(t: int)
    ensures Split(t) == (t / NANOS, t % NANOS)
  {
  }

  lemma {:induction false} SplitDayFloors(s: int)
    ensures SplitDay(s) == (s / DAY, s % DAY)
  {
  }

  function ClockOf(secondOfDay: nat, fraction: nat): Clock {
    Clock(secondOfDay / 3600, secondOfDay % 3600 / 60, secondOfDay % 60, fraction)
  }

  predicate Instant(t: int) { INT64_MIN <= t <= INT64_MAX }

  function DateOf(t: int): Date { CivilFromDays(SplitDay(Split(t).0).0) }
  function TimeOf(t: int): Clock { ClockOf(SplitDay(Split(t).0).1, Split(t).1) }

  lemma {:induction false} YearHasFourDigits(t: int)
    requires Instant(t)
    ensures 0 <= DateOf(t).year <= 9999
  {
    SplitFloors(t);
    SplitDayFloors(t / NANOS);
    var days := t / NANOS / DAY;
    assert -106752 <= days <= 106751;
    EraFloors(days + EPOCH);
    assert 4 <= EraOf(days + EPOCH) <= 5;
    YearOfEraExact(days + EPOCH - EraOf(days + EPOCH) * ERA);
  }

  /** The parts of the text, in order. */
  function Parts(d: Date, c: Clock): seq<string>
    requires 0 <= d.year && 0 <= d.month && 0 <= d.day
  {
    [Digits(d.year, 4), "-", Digits(d.month, 2), "-", Digits(d.day, 2), "T", Digits(c.hour, 2), ":",
     Digits(c.minute, 2), ":", Digits(c.second, 2), ".", Digits(c.fraction, 9), "Z"]
  }

  function Join(parts: seq<string>): (t: string)
    ensures |t| == Start(parts, |parts|)
    decreases |parts|
  {
    if parts == [] then ""
    else
      StartOfPrefix(parts, |parts| - 1, |parts| - 1);
      Join(parts[..|parts| - 1]) + parts[|parts| - 1]
  }

  function Start(parts: seq<string>, i: nat): nat
    requires i <= |parts|
  {
    if i == 0 then 0 else Start(parts, i - 1) + |parts[i - 1]|
  }

  lemma {:induction false} StartOfPrefix(parts: seq<string>, k: nat, i: nat)
    requires i <= k <= |parts|
    ensures Start(parts[..k], i) == Start(parts, i)
    decreases i
  {
    if i > 0 { StartOfPrefix(parts, k, i - 1); }
  }

  lemma {:induction false} StartGrows(parts: seq<string>, i: nat, j: nat)
    requires i <= j <= |parts|
    ensures Start(parts, i) <= Start(parts, j)
    decreases j
  {
    if i < j { StartGrows(parts, i, j - 1); }
  }

  /** A part is found where it was put. */
  lemma {:induction false} PartAt(parts: seq<string>, i: nat)
    requires i < |parts|
    ensures Start(parts, i) + |parts[i]| <= |Join(parts)|
    ensures Join(parts)[Start(parts, i)..Start(parts, i) + |parts[i]|] == parts[i]
    decreases |parts|
  {
    var before := parts[..|parts| - 1];
    StartGrows(parts, i + 1, |parts|);
    StartOfPrefix(parts, |parts| - 1, i);
    StartOfPrefix(parts, |parts| - 1, |parts| - 1);
    if i < |before| {
      PartAt(before, i);
      assert Join(parts)[Start(parts, i)..Start(parts, i) + |parts[i]|]
             == Join(before)[Start(parts, i)..Start(parts, i) + |parts[i]|];
    }
  }

  /** `Timestamp::to_iso8601`. */
  function Print(t: int): string
    requires Instant(t)
  {
    YearHasFourDigits(t);
    CivilRoundTrip(SplitDay(Split(t).0).0);
    Join(Parts(DateOf(t), TimeOf(t)))
  }

  // ---- parsing ----

  /** The digits from `i` on. */
  function DigitRun(t: string, i: nat): (n: nat)
    requires i <= |t|
    ensures i + n <= |t| && AllDigits(t[i..i + n])
    ensures i + n < |t| ==> !IsDigit(t[i + n])
    decreases |t| - i
  {
    if i == |t| || !IsDigit(t[i]) then 0
    else
      var n := 1 + DigitRun(t, i + 1);
      assert t[i..i + n] == [t[i]] + t[i + 1..i + n];
      n
  }

  /** Up to nine digits read as nanoseconds, and the position after them. */
  function ParseFraction(t: string): Result<(nat, nat)>
    requires |t| >= 20
  {
    if t[19] != '.' then Success((0, 19))
    else
      var n := DigitRun(t, 20);
      if n == 0 || n > 9 then Failure(Invalid) else Success((Decimal(t[20..20 + n]) * Power10(9 - n), 20 + n))
  }

  datatype Fields = Fields(date: Date, clock: Clock)

  predicate Separated(t: string)
    requires |t| >= 20
  {
    t[4] == '-' && t[7] == '-' && t[10] == 'T' && t[13] == ':' && t[16] == ':'
  }

  predicate FieldsAreDigits(t: string)
    requires |t| >= 20
  {
    && AllDigits(t[0..4]) && AllDigits(t[5..7]) && AllDigits(t[8..10]) && AllDigits(t[11..13]) && AllDigits(t[14..16])
    && AllDigits(t[17..19])
  }

  predicate InRange(f: Fields) {
    && 1 <= f.date.month <= 12 && 1 <= f.date.day <= 31 && f.clock.hour <= 23 && f.clock.minute <= 59
    && f.clock.second <= 60
  }

  function ParseFields(t: string): Result<Fields> {
    if |t| < 20 || t[|t| - 1] != 'Z' then Failure(Invalid)
    else if !Separated(t) || !FieldsAreDigits(t) then Failure(Invalid)
    else
      var (fraction, end) :- ParseFraction(t);
      if end + 1 != |t| then Failure(Invalid)
      else
        var f := Fields(Date(Decimal(t[0..4]), Decimal(t[5..7]), Decimal(t[8..10])),
                        Clock(Decimal(t[11..13]), Decimal(t[14..16]), Decimal(t[17..19]), fraction));
        if InRange(f) then Success(f) else Failure(Invalid)
  }

  function Seconds(f: Fields): int {
    DaysFromCivil(f.date) * DAY + f.clock.hour * 3600 + f.clock.minute * 60 + f.clock.second
  }

  function Magnitude(x: int): nat { if x < 0 then -x else x }

  /** `Timestamp::parse_iso8601`. */
  function Parse(t: string): Result<int> {
    var f :- ParseFields(t);
    if Magnitude(Seconds(f)) * NANOS > INT64_MAX then Failure(Overflow)
      else Success(Seconds(f) * NANOS + f.clock.fraction)
  }

  // ---- printing and parsing undo each other ----

  lemma {:induction false} Starts(d: Date, c: Clock)
    requires 0 <= d.year && 0 <= d.month && 0 <= d.day
    ensures var p := Parts(d, c);
            && Start(p, 0) == 0 && Start(p, 1) == 4 && Start(p, 2) == 5 && Start(p, 3) == 7 && Start(p, 4) == 8
            && Start(p, 5) == 10
            && Start(p, 6) == 11 && Start(p, 7) == 13 && Start(p, 8) == 14 && Start(p, 9) == 16 && Start(p, 10) == 17
            && Start(p, 11) == 19 && Start(p, 12) == 20 && Start(p, 13) == 29 && Start(p, 14) == 30
  {
    var p := Parts(d, c);
    assert Start(p, 1) == 4;
    assert Start(p, 2) == 5;
    assert Start(p, 3) == 7;
    assert Start(p, 4) == 8;
    assert Start(p, 5) == 10;
    assert Start(p, 6) == 11;
    assert Start(p, 7) == 13;
    assert Start(p, 8) == 14;
    assert Start(p, 9) == 16;
    assert Start(p, 10) == 17;
    assert Start(p, 11) == 19;
    assert Start(p, 12) == 20;
    assert Start(p, 13) == 29;
  }

  predicate CharAt(t: string, i: nat, c: char) { i < |t| && t[i] == c }

  lemma {:induction false} CharIn(t: string, i: nat, c: char)
    requires i + 1 <= |t| && t[i..i + 1] == [c]
    ensures CharAt(t, i, c)
  {
    assert t[i] == t[i..i + 1][0];
  }

  lemma {:induction false} Separators(d: Date, c: Clock)
    requires 0 <= d.year && 0 <= d.month && 0 <= d.day
    ensures var t := Join(Parts(d, c));
            && |t| == 30 && CharAt(t, 4, '-') && CharAt(t, 7, '-') && CharAt(t, 10, 'T') && CharAt(t, 13, ':')
            && CharAt(t, 16, ':')
            && CharAt(t, 19, '.') && CharAt(t, 29, 'Z')
  {
    var p := Parts(d, c);
    var t := Join(p);
    Starts(d, c);
    PartAt(p, 1); CharIn(t, 4, '-');
    PartAt(p, 3); CharIn(t, 7, '-');
    PartAt(p, 5); CharIn(t, 10, 'T');
    PartAt(p, 7); CharIn(t, 13, ':');
    PartAt(p, 9); CharIn(t, 16, ':');
    PartAt(p, 11); CharIn(t, 19, '.');
    PartAt(p, 13); CharIn(t, 29, 'Z');
  }

  lemma {:induction false} Numbers(d: Date, c: Clock)
    requires 0 <= d.year && 0 <= d.month && 0 <= d.day
    ensures var t := Join(Parts(d, c));
            && |t| == 30 && t[0..4] == Digits(d.year, 4) && t[5..7] == Digits(d.month, 2)
            && t[8..10] == Digits(d.day, 2)
            && t[11..13] == Digits(c.hour, 2) && t[14..16] == Digits(c.minute, 2) && t[17..19] == Digits(c.second, 2)
            && t[20..29] == Digits(c.fraction, 9)
  {
    var p := Parts(d, c);
    Starts(d, c);
    PartAt(p, 0);
    PartAt(p, 2);
    PartAt(p, 4);
    PartAt(p, 6);
    PartAt(p, 8);
    PartAt(p, 10);
    PartAt(p, 12);
  }

  lemma {:induction false} RunOfDigits(t: string, i: nat, n: nat)
    requires i + n < |t| && AllDigits(t[i..i + n]) && !IsDigit(t[i + n])
    ensures DigitRun(t, i) == n
    decreases n
  {
    if n > 0 {
      assert t[i] == t[i..i + n][0];
      assert t[i + 1..i + n] == t[i..i + n][1..];
      RunOfDigits(t, i + 1, n - 1);
    }
  }

  lemma {:induction false} FractionReadsBack(t: string, fraction: nat)
    requires |t| == 30 && CharAt(t, 19, '.') && CharAt(t, 29, 'Z') && t[20..29] == Digits(fraction, 9)
    requires fraction < Power10(9)
    ensures ParseFraction(t) == Success((fraction, 29))
  {
    RunOfDigits(t, 20, 9);
    DecimalOfDigits(fraction, 9);
  }

  lemma {:induction false} Powers()
    ensures Power10(2) == 100 && Power10(4) == 10000 && Power10(9) == NANOS
  {
    assert Power10(3) == 1000;
    assert Power10(5) == 100000;
    assert Power10(7) == 10000000;
  }

  lemma {:induction false} FieldsReadBack(d: Date, c: Clock)
    requires 0 <= d.year <= 9999 && InRange(Fields(d, c)) && c.fraction < NANOS
    ensures ParseFields(Join(Parts(d, c))) == Success(Fields(d, c))
  {
    var t := Join(Parts(d, c));
    Powers();
    Separators(d, c);
    Numbers(d, c);
    FractionReadsBack(t, c.fraction);
    DecimalOfDigits(d.year, 4);
    DecimalOfDigits(d.month, 2);
    DecimalOfDigits(d.day, 2);
    DecimalOfDigits(c.hour, 2);
    DecimalOfDigits(c.minute, 2);
    DecimalOfDigits(c.second, 2);
  }

  lemma {:induction false} SecondsOfParts(t: int)
    ensures Seconds(Fields(DateOf(t), TimeOf(t))) == t / NANOS && TimeOf(t).fraction == t % NANOS
    ensures InRange(Fields(DateOf(t), TimeOf(t)))
  {
    SplitFloors(t);
    SplitDayFloors(t / NANOS);
    CivilRoundTrip(t / NANOS / DAY);
    ClockSeconds(t / NANOS % DAY);
  }

  lemma {:induction false} ClockSeconds(s: nat)
    requires s < DAY
    ensures s / 3600 <= 23 && s % 3600 / 60 <= 59 && s % 60 <= 59 && s / 3600 * 3600 + s % 3600 / 60 * 60 + s % 60 == s
  {
    var h, r := s / 3600, s % 3600;
    var m, q := r / 60, r % 60;
    SixtyUnique(s, 60 * h + m, q);
  }

  lemma {:induction false} SixtyUnique(x: nat, a: nat, q: nat)
    requires x == 60 * a + q && q < 60
    ensures x % 60 == q
  {
  }

  /** The earliest instant that can be read back. */
  const EARLIEST := -9_223_372_036 * NANOS

  /** Every instant from -9223372036 seconds up to the 64-bit maximum is read back from its printed form;
      the few earlier ones that 64 bits can hold print, but are refused as an overflow. */
  lemma {:induction false} PrintParse(t: int)
    requires Instant(t)
    ensures Parse(Print(t)) == if t >= EARLIEST then Success(t) else Failure(Overflow)
  {
    YearHasFourDigits(t);
    SecondsOfParts(t);
    FieldsReadBack(DateOf(t), TimeOf(t));
    ParsedInstant(t, Print(t), Fields(DateOf(t), TimeOf(t)));
  }

  lemma {:induction false} ParsedInstant(t: int, text: string, f: Fields)
    requires Instant(t) && ParseFields(text) == Success(f) && Seconds(f) == t / NANOS && f.clock.fraction == t % NANOS
    ensures Parse(text) == if t >= EARLIEST then Success(t) else Failure(Overflow)
  {
    ParseOfFields(text, f);
    Readable(t);
  }

  lemma {:induction false} ParseOfFields(text: string, f: Fields)
    requires ParseFields(text) == Success(f)
    ensures Parse(text) == if Magnitude(Seconds(f)) * NANOS > INT64_MAX then Failure(Overflow)
                           else Success(Seconds(f) * NANOS + f.clock.fraction)
  {
  }

  lemma {:induction false} Readable(t: int)
    requires Instant(t)
    ensures Magnitude(t / NANOS) * NANOS > INT64_MAX <==> t < EARLIEST
    ensures t / NANOS * NANOS + t % NANOS == t
  {
  }

  // ---- printing what was read ----

  lemma {:induction false} DigitsOfDecimal(t: string)
    requires AllDigits(t)
    ensures Decimal(t) < Power10(|t|) && Digits(Decimal(t), |t|) == t
    decreases |t|
  {
    if t != "" {
      var before, last := t[..|t| - 1], t[|t| - 1];
      DigitsOfDecimal(before);
      assert Decimal(t) / 10 == Decimal(before) && Decimal(t) % 10 == DigitValue(last);
      assert t == before + [last];
    }
  }

  /** Two texts with the same fields and separators. */
  lemma {:induction false} SameParts(t: string, u: string)
    requires |t| == 30 && |u| == 30 && t[0..4] == u[0..4] && t[5..7] == u[5..7] && t[8..10] == u[8..10]
    requires t[11..13] == u[11..13] && t[14..16] == u[14..16] && t[17..19] == u[17..19] && t[20..29] == u[20..29]
    requires t[4] == u[4] && t[7] == u[7] && t[10] == u[10] && t[13] == u[13] && t[16] == u[16] && t[19] == u[19]
    requires t[29] == u[29]
    ensures t == u
  {
    forall i | 0 <= i < 30 ensures t[i] == u[i] {
      SameChar(t, u, 0, 4, i);
      SameChar(t, u, 5, 7, i);
      SameChar(t, u, 8, 10, i);
      SameChar(t, u, 11, 13, i);
      SameChar(t, u, 14, 16, i);
      SameChar(t, u, 17, 19, i);
      SameChar(t, u, 20, 29, i);
    }
  }

  lemma {:induction false} SameChar(t: string, u: string, lo: nat, hi: nat, i: nat)
    requires lo <= hi <= |t| && hi <= |u| && t[lo..hi] == u[lo..hi]
    ensures lo <= i < hi ==> t[i] == u[i]
  {
    if lo <= i < hi { assert t[i] == t[lo..hi][i - lo]; }
  }

  /** A text in the printed form is the one its fields print as. */
  lemma {:induction false} FieldsPrintBack(t: string, f: Fields)
    requires |t| == 30 && ParseFields(t) == Success(f)
    ensures t == Join(Parts(f.date, f.clock))
  {
    FullFraction(t);
    DigitsOfDecimal(t[0..4]);
    DigitsOfDecimal(t[5..7]);
    DigitsOfDecimal(t[8..10]);
    DigitsOfDecimal(t[11..13]);
    DigitsOfDecimal(t[14..16]);
    DigitsOfDecimal(t[17..19]);
    DigitsOfDecimal(t[20..29]);
    Numbers(f.date, f.clock);
    Separators(f.date, f.clock);
    SameParts(t, Join(Parts(f.date, f.clock)));
  }

  lemma {:induction false} FullFraction(t: string)
    requires |t| == 30 && ParseFields(t).Success?
    ensures t[19] == '.' && t[29] == 'Z' && AllDigits(t[20..29])
    ensures ParseFields(t).value.clock.fraction == Decimal(t[20..29])
  {
    Powers();
    assert DigitRun(t, 20) == 9;
    assert Power10(0) == 1;
  }

  /** The seconds of a minute are printed as 0 to 59, the fraction with nine digits, and the date exists. */
  predicate InPrintedForm(t: string, f: Fields) {
    |t| == 30 && f.clock.second <= 59 && IsCalendarDate(f.date)
  }

  lemma {:induction false} FieldsOfInstant(f: Fields, x: int)
    requires InRange(f) && f.clock.second <= 59 && IsCalendarDate(f.date) && f.clock.fraction < NANOS
    requires x == Seconds(f) * NANOS + f.clock.fraction
    ensures DateOf(x) == f.date && TimeOf(x) == f.clock
  {
    var c := f.clock;
    var rest := c.hour * 3600 + c.minute * 60 + c.second;
    SplitFloors(x);
    assert x / NANOS == Seconds(f) && x % NANOS == c.fraction;
    SplitDayFloors(Seconds(f));
    assert 0 <= rest < DAY;
    assert Seconds(f) == DAY * DaysFromCivil(f.date) + rest;
    assert Seconds(f) / DAY == DaysFromCivil(f.date) && Seconds(f) % DAY == rest;
    CalendarComesBack(f.date);
    ClockComesBack(c);
  }

  lemma {:induction false} ClockComesBack(c: Clock)
    requires c.hour <= 23 && c.minute <= 59 && c.second <= 59
    ensures ClockOf(c.hour * 3600 + c.minute * 60 + c.second, c.fraction) == c
  {
    var s := c.hour * 3600 + c.minute * 60 + c.second;
    assert s / 3600 == c.hour && s % 3600 == c.minute * 60 + c.second;
    SixtyUnique(s, c.hour * 60 + c.minute, c.second);
  }

  /** What was read prints as the text it was read from exactly when the text has nine fractional digits, no
      leap second, and a date that exists. */
  lemma {:induction false} ParsePrint(t: string)
    requires Parse(t).Success? && Instant(Parse(t).value)
    ensures Print(Parse(t).value) == t <==> InPrintedForm(t, ParseFields(t).value)
  {
    var f, x := ParseFields(t).value, Parse(t).value;
    if InPrintedForm(t, f) {
      FullFraction(t);
      DigitsOfDecimal(t[20..29]);
      Powers();
      FieldsOfInstant(f, x);
      FieldsPrintBack(t, f);
    }
    if Print(x) == t {
      YearHasFourDigits(x);
      SecondsOfParts(x);
      Separators(DateOf(x), TimeOf(x));
      FieldsReadBack(DateOf(x), TimeOf(x));
      CivilIsCalendar(SplitDay(Split(x).0).0);
      SplitFloors(x);
      SplitDayFloors(x / NANOS);
      ClockSeconds(x / NANOS % DAY);
    }
  }

  // ---- the parser's loops ----

  lemma {:induction false} DecimalExtends(t: string, c: char)
    requires AllDigits(t) && IsDigit(c)
    ensures AllDigits(t + [c]) && Decimal(t + [c]) == 10 * Decimal(t) + DigitValue(c)
  {
    assert (t + [c])[..|t|] == t;
  }

  /** `read_uint`: None when a character is not a digit. */
  method ReadUint(t: string, offset: nat, count: nat) returns (value: Option<nat>)
    ensures value == if offset + count <= |t| && AllDigits(t[offset..offset + count])
                     then Some(Decimal(t[offset..offset + count])) else None
  {
    if offset + count > |t| { return None; }
    var x := 0;
    for i := 0 to count
      invariant AllDigits(t[offset..offset + i]) && x == Decimal(t[offset..offset + i])
    {
      var c := t[offset + i];
      assert t[offset..offset + count][i] == c;
      if !IsDigit(c) { return None; }
      assert t[offset..offset + i + 1] == t[offset..offset + i] + [c];
      DecimalExtends(t[offset..offset + i], c);
      x := 10 * x + DigitValue(c);
    }
    return Some(x);
  }

  /** The scan over the fractional digits. */
  method CountDigits(t: string, start: nat) returns (n: nat)
    requires start <= |t|
    ensures n == DigitRun(t, start)
  {
    n := 0;
    while start + n < |t| && IsDigit(t[start + n])
      invariant start + n <= |t| && DigitRun(t, start) == n + DigitRun(t, start + n)
    {
      n := n + 1;
    }
  }
}
