// Calendar windows of the leaderboard: src/clearing/src/types/leaderboard.rs.
module Calendar {
  import opened Base

  datatype Window = Week | Month | AllTime

  // Year and month of a day counted from 1970-01-01, by Hinnant's closed form.
  function CivilFromDays(days: nat): (int, int) {
    var z := days + 719_468;
    CivilIn(z / 146_097, z - z / 146_097 * 146_097)
  }

  function CivilIn(era: int, doe: int): (int, int) {
    var yoe := YearIn(doe);
    var month := ShiftedMonth((5 * DayIn(doe, yoe) + 2) / 153);
    (yoe + era * 400 + if month <= 2 then 1 else 0, month)
  }

  function YearIn(doe: int): int { (doe - doe / 1460 + doe / 36_524 - doe / 146_096) / 365 }

  function DayIn(doe: int, yoe: int): int { doe - (365 * yoe + yoe / 4 - yoe / 100) }

  function ShiftedMonth(mp: int): int { if mp < 10 then mp + 3 else mp - 9 }

  function MonthId(days: nat): int {
    CivilFromDays(days).0 * 12 + (CivilFromDays(days).1 - 1)
  }

  function WeekId(days: nat): nat { (days + 3) / 7 }

  function PeriodId(w: Window, ts: nat): int {
    match w
    case Week => WeekId(ts / NANOS_PER_DAY)
    case Month => MonthId(ts / NANOS_PER_DAY)
    case AllTime => 0
  }

  function PriorPeriodId(w: Window, ts: nat): Option<int> {
    if w.AllTime? || PeriodId(w, ts) == 0 then None else Some(PeriodId(w, ts) - 1)
  }

  // ---------------------------------------------------------------- the calendar, day by day

  datatype Date = Date(year: int, month: int, day: int)

  predicate Leap(y: int) { y % 4 == 0 && (y % 100 != 0 || y % 400 == 0) }

  function DaysIn(y: int, m: int): int {
    if m == 2 then (if Leap(y) then 29 else 28)
    else if m == 4 || m == 6 || m == 9 || m == 11 then 30
    else 31
  }

  function Tomorrow(d: Date): Date {
    if d.day < DaysIn(d.year, d.month) then d.(day := d.day + 1)
    else if d.month < 12 then Date(d.year, d.month + 1, 1)
    else Date(d.year + 1, 1, 1)
  }

  function DateOf(days: nat): Date {
    if days == 0 then Date(1970, 1, 1) else Tomorrow(DateOf(days - 1))
  }

  datatype Weekday = Monday | Tuesday | Wednesday | Thursday | Friday | Saturday | Sunday

  function NextWeekday(d: Weekday): Weekday {
    match d
    case Monday => Tuesday
    case Tuesday => Wednesday
    case Wednesday => Thursday
    case Thursday => Friday
    case Friday => Saturday
    case Saturday => Sunday
    case Sunday => Monday
  }

  // 1970-01-01 was a Thursday.
  function WeekdayOf(days: nat): Weekday {
    if days == 0 then Thursday else NextWeekday(WeekdayOf(days - 1))
  }

  // ---------------------------------------------------------------- eras, centuries, cycles, years

  // A day as 400-year eras, centuries, four-year cycles, years and days, years starting in March.
  datatype Count = Count(era: int, century: int, cycle: int, year: int, day: int)

  predicate LeapCount(c: Count) { c.year == 3 && (c.cycle < 24 || c.century == 3) }

  function LastDay(c: Count): int { if LeapCount(c) then 365 else 364 }

  predicate Sound(c: Count) {
    0 <= c.century <= 3 && 0 <= c.cycle <= 24 && 0 <= c.year <= 3 && 0 <= c.day <= LastDay(c)
  }

  function DayOfEra(c: Count): int { 36_524 * c.century + 1461 * c.cycle + 365 * c.year + c.day }

  function YearOfEra(c: Count): int { 100 * c.century + 4 * c.cycle + c.year }

  function Following(c: Count): Count {
    if c.day < LastDay(c) then c.(day := c.day + 1)
    else if c.year < 3 then c.(year := c.year + 1, day := 0)
    else if c.cycle < 24 then c.(cycle := c.cycle + 1, year := 0, day := 0)
    else if c.century < 3 then c.(century := c.century + 1, cycle := 0, year := 0, day := 0)
    else Count(c.era + 1, 0, 0, 0, 0)
  }

  lemma FollowingIsNextDay(c: Count)
    requires Sound(c)
    ensures Sound(Following(c))
    ensures 146_097 * Following(c).era + DayOfEra(Following(c)) == 146_097 * c.era + DayOfEra(c) + 1
  {
  }

  lemma WithinEra(c: Count)
    requires Sound(c)
    ensures 0 <= DayOfEra(c) <= 146_096
    ensures DayOfEra(c) / 36_524 == if DayOfEra(c) == 146_096 then 4 else c.century
    ensures DayOfEra(c) == 146_096 ==> c.century == 3 && c.cycle == 24 && c.year == 3 && c.day == 365
  {
    var w := 1461 * c.cycle + 365 * c.year + c.day;
    assert 0 <= w <= 36_524;
    assert w == 36_524 ==> c.century == 3 && c.cycle == 24 && c.year == 3 && c.day == 365;
  }

  // How many of the cycles before a day the division by 1460 has already counted.
  lemma LeapsCounted(c: Count)
    requires Sound(c)
    ensures var e := c.cycle + 365 * c.year + c.day + 24 * c.century;
      DayOfEra(c) / 1460 == 25 * c.century + c.cycle + if e >= 1460 then 1 else 0
  {
    var e := c.cycle + 365 * c.year + c.day + 24 * c.century;
    assert DayOfEra(c) == 1460 * (25 * c.century + c.cycle) + e;
    assert 0 <= e < 2920;
  }

  // The closed form finds the year and the day of the year.
  lemma YearFound(c: Count)
    requires Sound(c)
    ensures YearIn(DayOfEra(c)) == YearOfEra(c) && DayIn(DayOfEra(c), YearOfEra(c)) == c.day
  {
    var doe, y := DayOfEra(c), YearOfEra(c);
    WithinEra(c);
    LeapsCounted(c);
    assert y / 4 == 25 * c.century + c.cycle;
    assert y / 100 == c.century by { assert 0 <= 4 * c.cycle + c.year < 100; }
    var e := if c.cycle + 365 * c.year + c.day + 24 * c.century >= 1460 then 1 else 0;
    assert doe - doe / 1460 + doe / 36_524 - doe / 146_096 == 365 * y + c.day - e;
    assert c.day == 0 ==> e == 0;
    assert c.day == 365 ==> e == 1;
  }

  // ---------------------------------------------------------------- months of a year starting in March

  function MonthStart(mp: int): int { (153 * mp + 2) / 5 }

  function MonthIndex(day: int): int { (5 * day + 2) / 153 }

  lemma MonthsFound(day: int)
    requires 0 <= day <= 365
    ensures 0 <= MonthIndex(day) <= 11
    ensures MonthStart(MonthIndex(day)) <= day < MonthStart(MonthIndex(day) + 1)
  {
  }

  function ToDate(c: Count): Date {
    var mp := MonthIndex(c.day);
    var y, m := 400 * c.era + YearOfEra(c), ShiftedMonth(mp);
    Date(if m <= 2 then y + 1 else y, m, c.day - MonthStart(mp) + 1)
  }

  lemma CivilIsToDate(c: Count, days: nat)
    requires Sound(c) && 146_097 * c.era + DayOfEra(c) == days + 719_468
    ensures CivilFromDays(days) == (ToDate(c).year, ToDate(c).month)
  {
    WithinEra(c);
    EraFound(days + 719_468, c.era, DayOfEra(c));
    CivilInIsToDate(c);
    hide CivilIn, DayOfEra, ToDate, Sound;
  }

  lemma CivilInIsToDate(c: Count)
    requires Sound(c)
    ensures CivilIn(c.era, DayOfEra(c)) == (ToDate(c).year, ToDate(c).month)
  {
    YearFound(c);
    hide DayOfEra, YearOfEra, Sound, YearIn, DayIn, ShiftedMonth;
  }

  lemma EraFound(z: nat, era: int, doe: int)
    requires z == 146_097 * era + doe && 0 <= doe <= 146_096
    ensures z / 146_097 == era && z - era * 146_097 == doe
  {
  }

  lemma LeapYears(c: Count)
    requires Sound(c)
    ensures Leap(400 * c.era + YearOfEra(c) + 1) <==> LeapCount(c)
  {
    var y := 400 * c.era + YearOfEra(c) + 1;
    LastOf(4, 100 * c.era + 25 * c.century + c.cycle, c.year + 1, y);
    if c.year == 3 {
      LastOf(100, 4 * c.era + c.century, 4 * (c.cycle + 1), y);
      if c.cycle == 24 { LastOf(400, c.era, 100 * (c.century + 1), y); }
    }
  }

  lemma LastOf(n: int, k: int, r: int, y: int)
    requires n == 4 || n == 100 || n == 400
    requires y == n * k + r && 0 < r <= n
    ensures y % n == 0 <==> r == n
  {
  }

  lemma MonthLengths(mp: int, y: int)
    requires 0 <= mp <= 11
    ensures mp < 11 ==> MonthStart(mp + 1) - MonthStart(mp) == DaysIn(y, ShiftedMonth(mp))
    ensures mp == 11 ==> MonthStart(mp) == 337 && ShiftedMonth(mp) == 2
    ensures ShiftedMonth(mp) == 12 <==> mp == 9
  {
  }

  // Within a year starting in March the next day number is the next day of the calendar.
  lemma NextInYear(c: Count)
    requires Sound(c) && c.day < LastDay(c)
    ensures ToDate(c.(day := c.day + 1)) == Tomorrow(ToDate(c))
  {
    var mp := MonthIndex(c.day);
    MonthsFound(c.day);
    MonthsFound(c.day + 1);
    MonthLengths(mp, ToDate(c).year);
    LeapYears(c);
    if c.day + 1 < MonthStart(mp + 1) {
      SameMonth(c.day + 1, mp);
    } else {
      SameMonth(c.day + 1, mp + 1);
    }
  }

  lemma SameMonth(day: int, mp: int)
    requires 0 <= day <= 365 && MonthStart(mp) <= day < MonthStart(mp + 1)
    ensures MonthIndex(day) == mp
  {
  }

  lemma NextYear(c: Count)
    requires Sound(c) && c.day == LastDay(c)
    ensures ToDate(Following(c)) == Tomorrow(ToDate(c))
    ensures Following(c).day == 0 && 400 * Following(c).era + YearOfEra(Following(c)) == 400 * c.era + YearOfEra(c) + 1
  {
    LeapYears(c);
    SameMonth(c.day, 11);
    SameMonth(0, 0);
  }

  lemma FollowingIsTomorrow(c: Count)
    requires Sound(c)
    ensures ToDate(Following(c)) == Tomorrow(ToDate(c))
  {
    if c.day < LastDay(c) { NextInYear(c); } else { NextYear(c); }
  }

  // 1970-01-01 is day 306 of the March year 1969.
  const EPOCH := Count(4, 3, 17, 1, 306)

  ghost function CountOf(days: nat): Count {
    if days == 0 then EPOCH else Following(CountOf(days - 1))
  }

  lemma {:induction false} CountTracksDate(days: nat)
    ensures Sound(CountOf(days))
    ensures 146_097 * CountOf(days).era + DayOfEra(CountOf(days)) == days + 719_468
    ensures ToDate(CountOf(days)) == DateOf(days)
  {
    if days == 0 {
    } else {
      CountTracksDate(days - 1);
      FollowingIsNextDay(CountOf(days - 1));
      FollowingIsTomorrow(CountOf(days - 1));
    }
  }

  // For every day count the closed form gives the year and month of the day-by-day calendar.
  lemma CivilIsTheCalendar(days: nat)
    ensures CivilFromDays(days) == (DateOf(days).year, DateOf(days).month)
  {
    CountTracksDate(days);
    CivilIsToDate(CountOf(days), days);
  }

  predicate RealDate(d: Date) { 1 <= d.month <= 12 && 1 <= d.day <= DaysIn(d.year, d.month) }

  lemma {:induction false} DatesAreReal(days: nat)
    ensures RealDate(DateOf(days)) && DateOf(days).year >= 1970
  {
    if days == 0 {
    } else {
      DatesAreReal(days - 1);
    }
  }

  // ---------------------------------------------------------------- period ids

  // The month id moves on the first of each month, by one, and on no other day.
  lemma MonthStepsOnTheFirst(days: nat)
    ensures MonthId(days + 1) == MonthId(days) + if DateOf(days + 1).day == 1 then 1 else 0
  {
    hide CivilFromDays;
    CivilIsTheCalendar(days);
    CivilIsTheCalendar(days + 1);
    DatesAreReal(days);
  }

  lemma {:induction false} MonthIdsNeverFall(a: nat, b: nat)
    requires a <= b
    ensures MonthId(a) <= MonthId(b)
    decreases b
  {
    hide MonthId, DateOf;
    if a == b {
    } else {
      MonthIdsNeverFall(a, b - 1);
      MonthStepsOnTheFirst(b - 1);
    }
  }

  // Two days share a month id exactly when they fall in the same calendar month, and differ by one
  // exactly when one month follows the other.
  lemma MonthIdIsTheMonth(a: nat, b: nat)
    ensures MonthId(a) == MonthId(b) <==> DateOf(a).year == DateOf(b).year && DateOf(a).month == DateOf(b).month
    ensures MonthId(b) == MonthId(a) + 1 <==>
      (if DateOf(a).month < 12 then DateOf(b).year == DateOf(a).year && DateOf(b).month == DateOf(a).month + 1
       else DateOf(b).year == DateOf(a).year + 1 && DateOf(b).month == 1)
  {
    hide CivilFromDays, DateOf;
    CivilIsTheCalendar(a);
    CivilIsTheCalendar(b);
    DatesAreReal(a);
    DatesAreReal(b);
  }

  function Ordinal(d: Weekday): nat {
    match d
    case Monday => 0
    case Tuesday => 1
    case Wednesday => 2
    case Thursday => 3
    case Friday => 4
    case Saturday => 5
    case Sunday => 6
  }

  lemma {:induction false} WeekdayIsRemainder(days: nat)
    ensures Ordinal(WeekdayOf(days)) == (days + 3) % 7
  {
    if days == 0 {
    } else {
      WeekdayIsRemainder(days - 1);
    }
  }

  // The week id moves each Monday, by one, and on no other day.
  lemma WeekStepsOnMonday(days: nat)
    ensures WeekId(days + 1) == WeekId(days) + if WeekdayOf(days + 1) == Monday then 1 else 0
  {
    WeekdayIsRemainder(days);
    WeekdayIsRemainder(days + 1);
  }

  lemma {:induction false} WeekIdsNeverFall(a: nat, b: nat)
    requires a <= b
    ensures WeekId(a) <= WeekId(b)
    decreases b
  {
    if a == b {
    } else {
      WeekIdsNeverFall(a, b - 1);
      WeekStepsOnMonday(b - 1);
    }
  }

  // Ids never fall with time; the prior id is one less, and is missing only for all time and for
  // the week the epoch began in.
  lemma PeriodsNeverFall(w: Window, a: nat, b: nat)
    requires a <= b
    ensures PeriodId(w, a) <= PeriodId(w, b)
    ensures PriorPeriodId(w, a).None? <==> w.AllTime? || (w.Week? && a / NANOS_PER_DAY < 4)
    ensures PriorPeriodId(w, a).Some? ==> PriorPeriodId(w, a).value == PeriodId(w, a) - 1
  {
    DaysGrow(a, b);
    match w {
      case Week => WeekIdsNeverFall(a / NANOS_PER_DAY, b / NANOS_PER_DAY);
      case Month =>
        MonthIdsNeverFall(a / NANOS_PER_DAY, b / NANOS_PER_DAY);
        MonthIdsArePositive(a / NANOS_PER_DAY);
      case AllTime =>
    }
  }

  lemma DaysGrow(a: nat, b: nat)
    requires a <= b
    ensures a / NANOS_PER_DAY <= b / NANOS_PER_DAY
  {
  }

  lemma MonthIdsArePositive(days: nat)
    ensures MonthId(days) >= 1970 * 12
  {
    hide CivilFromDays, DateOf;
    CivilIsTheCalendar(days);
    DatesAreReal(days);
  }
}
