/** The calendar and the clock behind printed timestamps (src/core/time.cpp), tied to one known instant and to
    how days follow each other. */
module Calendars {
  import opened Timestamps

  // ---- days ----

  /** The day after, told by the lengths of the months. */
  function NextDay(d: Date): Date
    requires 1 <= d.month <= 12
  {
    if d.day < DaysInMonth(d.year, d.month) then d.(day := d.day + 1)
    else if d.month < 12 then Date(d.year, d.month + 1, 1)
    else Date(d.year + 1, 1, 1)
  }

  lemma {:induction false} NextDayExists(d: Date)
    requires IsCalendarDate(d)
    ensures IsCalendarDate(NextDay(d))
  {
  }

  /** Day 0 is 1 January 1970. */
  lemma {:induction false} FirstDay()
    ensures CivilFromDays(0) == Date(1970, 1, 1)
  {
    assert EraOf(EPOCH) == 4;
    assert YearOfEra(135080) == 369 && DayOfYear(135080) == 306;
  }

  lemma {:induction false} NextInMonth(d: Date, era: int, yoe: int)
    requires IsCalendarDate(d) && d.day < DaysInMonth(d.year, d.month) && 0 <= yoe < 400
    requires d.year == yoe + era * 400 + (if d.month <= 2 then 1 else 0)
    ensures DaysFromCivil(NextDay(d)) == DaysFromCivil(d) + 1
  {
    var doy := MonthStart(Shifted(d.month)) + d.day - 1;
    DayNumber(d, era, yoe, doy);
    DayNumber(NextDay(d), era, yoe, doy + 1);
  }

  lemma {:induction false} NextMonth(d: Date, era: int, yoe: int)
    requires IsCalendarDate(d) && d.day == DaysInMonth(d.year, d.month) && d.month != 2 && 0 <= yoe < 400
    requires d.year == yoe + era * 400 + (if d.month <= 2 then 1 else 0)
    ensures DaysFromCivil(NextDay(d)) == DaysFromCivil(d) + 1
  {
    var doy := MonthStart(Shifted(d.month)) + d.day - 1;
    Months(d.year, d.month);
    DayNumber(d, era, yoe, doy);
    DayNumber(NextDay(d), era, yoe, doy + 1);
  }

  lemma {:induction false} LastOfFebruary(d: Date, era: int, yoe: int)
    requires IsCalendarDate(d) && d.day == DaysInMonth(d.year, d.month) && d.month == 2 && 0 <= yoe < 400
    requires d.year == yoe + 1 + 400 * era
    ensures DaysFromCivil(d) == era * ERA + YearStart(yoe) + YearLength(yoe) - 1 - EPOCH
  {
    Months(d.year, 2);
    LeapRepeats(yoe + 1, era);
    DayNumber(d, era, yoe, YearLength(yoe) - 1);
  }

  lemma {:induction false} FirstOfMarch(year: int, era: int, yoe: int)
    requires 0 <= yoe < 400 && year == yoe + era * 400
    ensures DaysFromCivil(Date(year, 3, 1)) == era * ERA + YearStart(yoe) - EPOCH
  {
    DayNumber(Date(year, 3, 1), era, yoe, 0);
  }

  lemma {:induction false} EraEnds()
    ensures YearStart(399) + YearLength(399) == ERA && YearStart(0) == 0
  {
  }

  /** The year begins in March, after its leap day. */
  lemma {:induction false} NextYear(d: Date, era: int, yoe: int)
    requires IsCalendarDate(d) && d.day == DaysInMonth(d.year, d.month) && d.month == 2 && 0 <= yoe < 400
    requires d.year == yoe + 1 + 400 * era
    ensures DaysFromCivil(Date(d.year, 3, 1)) == DaysFromCivil(d) + 1
  {
    LastOfFebruary(d, era, yoe);
    if yoe < 399 {
      NextYearStarts(yoe);
      FirstOfMarch(d.year, era, yoe + 1);
    } else {
      EraEnds();
      FirstOfMarch(d.year, era + 1, 0);
    }
  }

  lemma {:induction false} NextDayNumber(d: Date)
    requires IsCalendarDate(d)
    ensures DaysFromCivil(NextDay(d)) == DaysFromCivil(d) + 1
  {
    var era, yoe := EraOfDate(d);
    if d.day < DaysInMonth(d.year, d.month) {
      NextInMonth(d, era, yoe);
    } else if d.month != 2 {
      NextMonth(d, era, yoe);
    } else {
      NextYear(d, era, yoe);
    }
  }

  lemma {:induction false} NumberTells(d: Date, n: int)
    requires IsCalendarDate(d) && DaysFromCivil(d) == n
    ensures CivilFromDays(n) == d
  {
    CalendarComesBack(d);
  }

  /** Every day number is followed by the number of the next day of the calendar. */
  lemma {:induction false} DayFollows(n: int)
    ensures IsCalendarDate(CivilFromDays(n)) && CivilFromDays(n + 1) == NextDay(CivilFromDays(n))
  {
    CivilIsCalendar(n);
    CivilRoundTrip(n);
    NextTells(CivilFromDays(n), n);
  }

  lemma {:induction false} NextTells(d: Date, n: int)
    requires IsCalendarDate(d) && DaysFromCivil(d) == n
    ensures CivilFromDays(n + 1) == NextDay(d)
  {
    NextDayExists(d);
    NextDayNumber(d);
    NumberTells(NextDay(d), n + 1);
  }

  lemma {:induction false} SameNumber(d: Date, e: Date, n: int)
    requires IsCalendarDate(d) && IsCalendarDate(e) && DaysFromCivil(d) == n && DaysFromCivil(e) == n
    ensures d == e
  {
    NumberTells(d, n);
    NumberTells(e, n);
  }

  lemma {:induction false} NumberBefore(d: Date, next: Date, n: int)
    requires IsCalendarDate(d) && NextDay(d) == next && DaysFromCivil(next) == n
    ensures DaysFromCivil(d) == n - 1
  {
    NextDayNumber(d);
  }

  lemma {:induction false} NextDayInjective(d: Date, e: Date)
    requires IsCalendarDate(d) && IsCalendarDate(e) && NextDay(d) == NextDay(e)
    ensures d == e
  {
    var next := NextDay(d);
    NumberBefore(d, next, DaysFromCivil(next));
    NumberBefore(e, next, DaysFromCivil(next));
    SameNumber(d, e, DaysFromCivil(next) - 1);
  }

  /** A way to count days that starts on 1 January 1970 and goes from each day to the next. */
  ghost predicate CountsDays(f: int -> Date) {
    f(0) == Date(1970, 1, 1) && forall n :: IsCalendarDate(f(n)) && f(n + 1) == NextDay(f(n))
  }

  /** There is only one, for days before and after: `civil_from_days`. */
  lemma {:induction false} CalendarIsFixed(f: int -> Date, n: int)
    requires CountsDays(f)
    ensures f(n) == CivilFromDays(n)
    decreases if n < 0 then -n else n
  {
    if n == 0 {
      FirstDay();
    } else if n > 0 {
      CalendarIsFixed(f, n - 1);
      DayFollows(n - 1);
      assert f(n - 1 + 1) == NextDay(f(n - 1));
    } else {
      CalendarIsFixed(f, n + 1);
      DayFollows(n);
      assert IsCalendarDate(f(n)) && f(n + 1) == NextDay(f(n));
      NextDayInjective(f(n), CivilFromDays(n));
    }
  }

  // ---- seconds ----

  /** The number of the day an instant falls on. */
  function DayOf(t: int): int { SplitDay(Split(t).0).0 }

  predicate IsTime(c: Clock) { c.hour < 24 && c.minute < 60 && c.second < 60 }

  predicate BeforeMidnight(c: Clock) { c.hour == 23 && c.minute == 59 && c.second == 59 }

  /** A second later: minutes and hours have sixty of the smaller unit, days twenty-four hours. */
  function NextTime(c: Clock): Clock {
    if c.second < 59 then c.(second := c.second + 1)
    else if c.minute < 59 then Clock(c.hour, c.minute + 1, 0, c.fraction)
    else if c.hour < 23 then Clock(c.hour + 1, 0, 0, c.fraction)
    else Clock(0, 0, 0, c.fraction)
  }

  /** The day, the second of the day and the rest of an instant. */
  predicate InParts(t: int, day: int, second: nat, rest: nat) {
    t == (day * 86400 + second) * 1_000_000_000 + rest && second < 86400 && rest < 1_000_000_000
  }

  lemma {:induction false} Divide(t: int) returns (day: int, second: nat, rest: nat)
    ensures InParts(t, day, second, rest)
  {
    var s := t / 1_000_000_000;
    day, second, rest := s / 86400, s % 86400, t % 1_000_000_000;
  }

  lemma {:induction false} Seconds(t: int, second: int, rest: nat)
    requires t == second * 1_000_000_000 + rest && rest < 1_000_000_000
    ensures Split(t) == (second, rest)
  {
    SplitFloors(t);
  }

  lemma {:induction false} Days(s: int, day: int, second: nat)
    requires s == day * 86400 + second && second < 86400
    ensures SplitDay(s) == (day, second)
  {
    SplitDayFloors(s);
  }

  lemma {:induction false} SplitParts(t: int, day: int, second: nat, rest: nat)
    requires InParts(t, day, second, rest)
    ensures DayOf(t) == day && TimeOf(t) == ClockOf(second, rest)
  {
    Seconds(t, day * 86400 + second, rest);
    Days(day * 86400 + second, day, second);
  }

  lemma {:induction false} Hours(s: nat, hour: nat, rest: nat)
    requires s == 3600 * hour + rest && rest < 3600
    ensures s / 3600 == hour && s % 3600 == rest
  {
  }

  lemma {:induction false} Minutes(s: nat, minute: nat, second: nat)
    requires s == 60 * minute + second && second < 60
    ensures s / 60 == minute && s % 60 == second
  {
  }

  lemma {:induction false} ClockFields(s: nat, c: Clock)
    requires s == 3600 * c.hour + 60 * c.minute + c.second && c.minute < 60 && c.second < 60
    ensures ClockOf(s, c.fraction) == c
  {
    Hours(s, c.hour, 60 * c.minute + c.second);
    Minutes(60 * c.minute + c.second, c.minute, c.second);
    Minutes(s, 60 * c.hour + c.minute, c.second);
  }

  lemma {:induction false} ClockTells(s: nat, rest: nat)
    requires s < 86400
    ensures var c := ClockOf(s, rest); IsTime(c) && s == 3600 * c.hour + 60 * c.minute + c.second && c.fraction == rest
  {
  }

  /** The clock of the next second of the day. */
  lemma {:induction false} ClockFollows(s: nat, rest: nat)
    requires s < 86400
    ensures NextTime(ClockOf(s, rest)) == ClockOf(if s < 86399 then s + 1 else 0, rest)
    ensures BeforeMidnight(ClockOf(s, rest)) <==> s == 86399
  {
    ClockTells(s, rest);
    ClockFields(if s < 86399 then s + 1 else 0, NextTime(ClockOf(s, rest)));
  }

  /** A second later the clock shows the next time, and a new day has begun exactly at midnight. */
  lemma {:induction false} TimeFollows(t: int)
    ensures IsTime(TimeOf(t)) && TimeOf(t + 1_000_000_000) == NextTime(TimeOf(t))
    ensures DayOf(t + 1_000_000_000) == DayOf(t) + if BeforeMidnight(TimeOf(t)) then 1 else 0
  {
    var day, second, rest := Divide(t);
    SplitParts(t, day, second, rest);
    ClockTells(second, rest);
    ClockFollows(second, rest);
    if second < 86399 {
      SplitParts(t + 1_000_000_000, day, second + 1, rest);
    } else {
      SplitParts(t + 1_000_000_000, day + 1, 0, rest);
    }
  }

  datatype Moment = Moment(date: Date, clock: Clock)

  /** What is printed of an instant. */
  function MomentOf(t: int): Moment { Moment(DateOf(t), TimeOf(t)) }

  predicate IsMoment(m: Moment) { IsCalendarDate(m.date) && IsTime(m.clock) }

  function NextSecond(m: Moment): Moment
    requires IsMoment(m)
  {
    Moment(if BeforeMidnight(m.clock) then NextDay(m.date) else m.date, NextTime(m.clock))
  }

  /** Every instant is followed, a second later, by the next second of the clock and the calendar. */
  lemma {:induction false} SecondFollows(t: int)
    ensures IsMoment(MomentOf(t)) && MomentOf(t + 1_000_000_000) == NextSecond(MomentOf(t))
  {
    TimeFollows(t);
    DateFollows(t, DayOf(t));
  }

  lemma {:induction false} DateFollows(t: int, day: int)
    requires DayOf(t) == day && DayOf(t + 1_000_000_000) == day + if BeforeMidnight(TimeOf(t)) then 1 else 0
    ensures IsCalendarDate(DateOf(t))
    ensures DateOf(t + 1_000_000_000) == if BeforeMidnight(TimeOf(t)) then NextDay(DateOf(t)) else DateOf(t)
  {
    DayFollows(day);
  }

  /** The first second of 1970. */
  lemma {:induction false} FirstSecond(t: nat)
    requires t < 1_000_000_000
    ensures MomentOf(t) == Moment(Date(1970, 1, 1), Clock(0, 0, 0, t))
  {
    FirstDay();
    SplitParts(t, 0, 0, t);
  }

  ghost predicate CountsSeconds(f: int -> Moment) {
    && (forall t: nat :: t < 1_000_000_000 ==> f(t) == Moment(Date(1970, 1, 1), Clock(0, 0, 0, t)))
    && forall t :: IsMoment(f(t)) && f(t + 1_000_000_000) == NextSecond(f(t))
  }

  lemma {:induction false} NextSecondInjective(m: Moment, n: Moment)
    requires IsMoment(m) && IsMoment(n) && NextSecond(m) == NextSecond(n)
    ensures m == n
  {
    assert m.clock == n.clock;
    if BeforeMidnight(m.clock) { NextDayInjective(m.date, n.date); }
  }

  /** So these facts fix what is printed of every instant. */
  lemma {:induction false} ClockIsFixed(f: int -> Moment, t: int)
    requires CountsSeconds(f)
    ensures f(t) == MomentOf(t)
    decreases if t < 0 then -t else t / 1_000_000_000, t
  {
    if 0 <= t < 1_000_000_000 {
      FirstSecond(t);
    } else if t >= 1_000_000_000 {
      var u := t - 1_000_000_000;
      ClockIsFixed(f, u);
      SecondFollows(u);
      assert f(u + 1_000_000_000) == NextSecond(f(u));
    } else {
      ClockIsFixed(f, t + 1_000_000_000);
      SecondFollows(t);
      assert IsMoment(f(t)) && f(t + 1_000_000_000) == NextSecond(f(t));
      NextSecondInjective(f(t), MomentOf(t));
    }
  }

  // ---- printed ----

  /** The decimal field of the text from `i` on with `n` digits has this value. */
  predicate Shows(text: string, i: nat, n: nat, value: int) {
    i + n <= |text| && AllDigits(text[i..i + n]) && Decimal(text[i..i + n]) == value
  }

  lemma {:induction false} FieldShows(text: string, i: nat, n: nat, value: nat)
    requires i + n <= |text| && text[i..i + n] == Digits(value, n) && value < Power10(n)
    ensures Shows(text, i, n, value)
  {
    DecimalOfDigits(value, n);
  }

  /** The text of an instant shows the fields of its moment, each in its place. */
  lemma {:induction false} PrintShows(t: int)
    requires Instant(t)
    ensures var p, d, c := Print(t), MomentOf(t).date, MomentOf(t).clock;
            && Shows(p, 0, 4, d.year) && Shows(p, 5, 2, d.month) && Shows(p, 8, 2, d.day)
            && Shows(p, 11, 2, c.hour) && Shows(p, 14, 2, c.minute) && Shows(p, 17, 2, c.second)
            && Shows(p, 20, 9, c.fraction)
    ensures var p := Print(t);
            |p| == 30 && p[4] == p[7] == '-' && p[10] == 'T' && p[13] == p[16] == ':' && p[19] == '.' && p[29] == 'Z'
  {
    SecondFollows(t);
    YearHasFourDigits(t);
    Powers();
    FractionFits(t);
    FieldsShow(DateOf(t), TimeOf(t));
    Separators(DateOf(t), TimeOf(t));
  }

  lemma {:induction false} FractionFits(t: int)
    ensures TimeOf(t).fraction < 1_000_000_000
  {
    SplitFloors(t);
  }

  lemma {:induction false} FieldsShow(d: Date, c: Clock)
    requires IsCalendarDate(d) && IsTime(c) && 0 <= d.year <= 9999 && c.fraction < 1_000_000_000
    requires Power10(2) == 100 && Power10(4) == 10_000 && Power10(9) == 1_000_000_000
    ensures var p := Join(Parts(d, c));
            && Shows(p, 0, 4, d.year) && Shows(p, 5, 2, d.month) && Shows(p, 8, 2, d.day)
            && Shows(p, 11, 2, c.hour) && Shows(p, 14, 2, c.minute) && Shows(p, 17, 2, c.second)
            && Shows(p, 20, 9, c.fraction)
  {
    var p := Join(Parts(d, c));
    Numbers(d, c);
    FieldShows(p, 0, 4, d.year);
    FieldShows(p, 5, 2, d.month);
    FieldShows(p, 8, 2, d.day);
    FieldShows(p, 11, 2, c.hour);
    FieldShows(p, 14, 2, c.minute);
    FieldShows(p, 17, 2, c.second);
    FieldShows(p, 20, 9, c.fraction);
  }

  // ---- read ----

  /** The digits of a fraction, from nanoseconds downwards: `n` digits and as many zeros as there are to nine. */
  function Scaled(value: nat, n: nat): nat
    requires n <= 9
  {
    value * Power10(9 - n)
  }

  predicate Separates(t: string)
    requires |t| >= 20
  {
    t[4] == '-' && t[7] == '-' && t[10] == 'T' && t[13] == ':' && t[16] == ':' && t[|t| - 1] == 'Z'
  }

  /** Either nothing between the seconds and the final letter, or a point and one to nine digits. */
  predicate HasFraction(t: string)
    requires |t| >= 20
  {
    |t| == 20 || (22 <= |t| <= 30 && t[19] == '.' && AllDigits(t[20..|t| - 1]))
  }

  /** A field of digits with a value in this range. */
  predicate ShowsWithin(t: string, i: nat, n: nat, least: int, greatest: int) {
    i + n <= |t| && AllDigits(t[i..i + n]) && least <= Decimal(t[i..i + n]) <= greatest
  }

  /** The text has the form of a timestamp, and each field its range. */
  predicate IsTimestamp(t: string) {
    && |t| >= 20 && Separates(t) && HasFraction(t) && ShowsWithin(t, 0, 4, 0, 9999) && ShowsWithin(t, 5, 2, 1, 12)
    && ShowsWithin(t, 8, 2, 1, 31) && ShowsWithin(t, 11, 2, 0, 23) && ShowsWithin(t, 14, 2, 0, 59)
    && ShowsWithin(t, 17, 2, 0, 60)
  }

  lemma {:induction false} WholeRun(t: string, i: nat, j: nat)
    requires i <= j < |t| && AllDigits(t[i..j]) && !IsDigit(t[j])
    ensures DigitRun(t, i) == j - i
  {
    RunOfDigits(t, i, j - i);
  }

  lemma {:induction false} FractionExactly(t: string)
    requires |t| >= 20 && t[|t| - 1] == 'Z'
    ensures HasFraction(t) <==> ParseFraction(t).Success? && ParseFraction(t).value.1 + 1 == |t|
    ensures HasFraction(t) ==>
              ParseFraction(t).value.0 == if |t| == 20 then 0 else Scaled(Decimal(t[20..|t| - 1]), |t| - 21)
  {
    if t[19] == '.' && 22 <= |t| && AllDigits(t[20..|t| - 1]) { WholeRun(t, 20, |t| - 1); }
  }

  /** A text is read exactly when it is a timestamp; its fields are the numbers it shows. */
  lemma {:induction false} ParsesExactly(t: string)
    ensures ParseFields(t).Success? <==> IsTimestamp(t)
    ensures ParseFields(t).Success? ==>
              var f := ParseFields(t).value;
              && Shows(t, 0, 4, f.date.year) && Shows(t, 5, 2, f.date.month) && Shows(t, 8, 2, f.date.day)
              && Shows(t, 11, 2, f.clock.hour) && Shows(t, 14, 2, f.clock.minute) && Shows(t, 17, 2, f.clock.second)
              && f.clock.fraction == if |t| == 20 then 0 else Scaled(Decimal(t[20..|t| - 1]), |t| - 21)
  {
    if |t| >= 20 && t[|t| - 1] == 'Z' {
      FractionExactly(t);
      Powers();
      if AllDigits(t[0..4]) { DecimalBelow(t[0..4]); }
    }
  }

  lemma {:induction false} DecimalBelow(t: string)
    requires AllDigits(t)
    ensures Decimal(t) < Power10(|t|)
    decreases |t|
  {
    if t != "" { DecimalBelow(t[..|t| - 1]); }
  }

  lemma {:induction false} PowerSum(a: nat, b: nat)
    ensures Power10(a) * Power10(b) == Power10(a + b)
    decreases a
  {
    if a > 0 {
      PowerSum(a - 1, b);
      assert Power10(a) * Power10(b) == 10 * (Power10(a - 1) * Power10(b));
    }
  }

  lemma {:induction false} ScaledBelow(value: nat, n: nat)
    requires n <= 9 && value < Power10(n)
    ensures Scaled(value, n) < 1_000_000_000
  {
    Powers();
    PowerSum(n, 9 - n);
    PowerPositive(9 - n);
    assert value * Power10(9 - n) < Power10(n) * Power10(9 - n);
  }

  lemma {:induction false} PowerPositive(n: nat)
    ensures Power10(n) > 0
    decreases n
  {
    if n > 0 { PowerPositive(n - 1); }
  }

  lemma {:induction false} FractionBelow(t: string)
    requires ParseFields(t).Success?
    ensures ParseFields(t).value.clock.fraction < 1_000_000_000
  {
    ParsesExactly(t);
    if |t| > 20 {
      DecimalBelow(t[20..|t| - 1]);
      ScaledBelow(Decimal(t[20..|t| - 1]), |t| - 21);
    }
  }

  /** A date that exists and a second of the minute are read as the instant of that moment. */
  lemma {:induction false} ReadsMoment(t: string)
    requires Parse(t).Success?
    requires var f := ParseFields(t).value; IsCalendarDate(f.date) && f.clock.second <= 59
    ensures MomentOf(Parse(t).value) == Moment(ParseFields(t).value.date, ParseFields(t).value.clock)
  {
    var f := ParseFields(t).value;
    FractionBelow(t);
    FieldsOfInstant(f, Parse(t).value);
  }
}
