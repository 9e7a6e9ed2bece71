/** The proleptic Gregorian calendar of ECMAScript `Date` in a zone of fixed offset.

    Instants are local milliseconds since 1970-01-01 00:00: a fixed offset only
    shifts every instant by the same whole number of minutes. */
module Calendar {

  const MS_PER_MINUTE := 60000
  const MINUTES_PER_DAY := 1440

  datatype Date = Date(year: int, month: int, day: int)

  predicate IsLeap(year: int) {
    year % 4 == 0 && (year % 100 != 0 || year % 400 == 0)
  }

  function DaysInYear(year: int): int {
    if IsLeap(year) then 366 else 365
  }

  function DaysInMonth(month: int, leap: bool): int {
    if month == 2 then (if leap then 29 else 28)
    else if month == 4 || month == 6 || month == 9 || month == 11 then 30
    else 31
  }

  /** Number of the first day of `year`, counted from 1970-01-01. */
  function DayFromYear(year: int): int {
    365 * (year - 1970) + (year - 1969) / 4 - (year - 1901) / 100 + (year - 1601) / 400
  }

  /** Days of the year before the first of `month`; month 13 stands for the year's end. */
  function DaysBeforeMonth(month: int, leap: bool): int {
    if month <= 1 then 0
    else if month == 2 then 31
    else (if leap then 1 else 0) +
         if month == 3 then 59 else if month == 4 then 90 else if month == 5 then 120
         else if month == 6 then 151 else if month == 7 then 181 else if month == 8 then 212
         else if month == 9 then 243 else if month == 10 then 273 else if month == 11 then 304
         else if month == 12 then 334 else 365
  }

  predicate ValidDate(d: Date) {
    1 <= d.month <= 12 && 1 <= d.day <= DaysInMonth(d.month, IsLeap(d.year))
  }

  function DayNumber(d: Date): int
    requires ValidDate(d)
  {
    DayFromYear(d.year) + DaysBeforeMonth(d.month, IsLeap(d.year)) + d.day - 1
  }

  ghost predicate Ascends(start: int -> int) {
    forall y, z | z == y + 1 :: start(y) < start(z)
  }

  /** Steps from `guess` to the one of consecutive periods that contains `day`. */
  function PeriodOf(start: int -> int, day: int, guess: int): (y: int)
    requires Ascends(start)
    ensures start(y) <= day < start(y + 1)
    decreases if day < start(guess) then start(guess) - day else day - start(guess) + 1
  {
    if day < start(guess) then
      if start(guess - 1) <= day then guess - 1 else PeriodOf(start, day, guess - 1)
    else if start(guess + 1) <= day then PeriodOf(start, day, guess + 1)
    else guess
  }

  /** The year that contains `day`. */
  function YearOf(day: int): (year: int)
    ensures DayFromYear(year) <= day < DayFromYear(year + 1)
  {
    YearsFollow();
    PeriodOf(DayFromYear, day, 1970)
  }

  /** Steps up from `month` to the month that contains the day of the year. */
  function MonthOf(dayOfYear: int, leap: bool, month: int): (m: int)
    requires 1 <= month <= 12
    requires DaysBeforeMonth(month, leap) <= dayOfYear < DaysBeforeMonth(13, leap)
    ensures month <= m <= 12
    ensures DaysBeforeMonth(m, leap) <= dayOfYear < DaysBeforeMonth(m + 1, leap)
    decreases 12 - month
  {
    if dayOfYear < DaysBeforeMonth(month + 1, leap) then month else MonthOf(dayOfYear, leap, month + 1)
  }

  function DateOf(day: int): (d: Date)
    ensures ValidDate(d)
    ensures DayNumber(d) == day
  {
    var year := YearOf(day);
    var leap := IsLeap(year);
    var dayOfYear := day - DayFromYear(year);
    DayInYear(day, year);
    var month := MonthOf(dayOfYear, leap, 1);
    DatePlaced(year, dayOfYear, month);
    Date(year, month, dayOfYear - DaysBeforeMonth(month, leap) + 1)
  }

  // The getters of a whole minute, counted from 1970-01-01 00:00. The month is
  // one-based here; JavaScript's is zero-based.

  function GetMinutes(minute: int): int {
    minute % 60
  }

  function GetHours(minute: int): int {
    minute / 60 % 24
  }

  function DayOf(minute: int): int {
    minute / MINUTES_PER_DAY
  }

  function GetDate(minute: int): int {
    DateOf(DayOf(minute)).day
  }

  function GetMonth(minute: int): int {
    DateOf(DayOf(minute)).month
  }

  /** Weekday with Sunday as 0; 1970-01-01 was a Thursday. */
  function Weekday(day: int): (w: int)
    ensures 0 <= w < 7
  {
    (day + 4) % 7
  }

  function GetDay(minute: int): int {
    Weekday(DayOf(minute))
  }

  // Consecutive years and months leave no gap and do not overlap.

  lemma YearLength(year: int)
    ensures DayFromYear(year + 1) == DayFromYear(year) + DaysInYear(year)
  {
    FourthYears(year);
    Centuries(year);
    FourCenturies(year);
  }

  lemma YearsFollow()
    ensures Ascends(DayFromYear)
  {
    forall y, z | z == y + 1 ensures DayFromYear(y) < DayFromYear(z) {
      YearLength(y);
    }
  }

  lemma DayInYear(day: int, year: int)
    requires DayFromYear(year) <= day < DayFromYear(year + 1)
    ensures day - DayFromYear(year) < DaysBeforeMonth(13, IsLeap(year))
  {
    YearLength(year);
  }

  lemma DatePlaced(year: int, dayOfYear: int, month: int)
    requires 1 <= month <= 12
    requires DaysBeforeMonth(month, IsLeap(year)) <= dayOfYear < DaysBeforeMonth(month + 1, IsLeap(year))
    ensures var d := Date(year, month, dayOfYear - DaysBeforeMonth(month, IsLeap(year)) + 1);
            ValidDate(d) && DayNumber(d) == DayFromYear(year) + dayOfYear
  {
    MonthLength(month, IsLeap(year));
  }

  lemma FourthYears(year: int)
    ensures (year - 1968) / 4 - (year - 1969) / 4 == if year % 4 == 0 then 1 else 0
  {
  }

  lemma Centuries(year: int)
    ensures (year - 1900) / 100 - (year - 1901) / 100 == if year % 100 == 0 then 1 else 0
    ensures year % 100 == 0 ==> year % 4 == 0
  {
  }

  lemma FourCenturies(year: int)
    ensures (year - 1600) / 400 - (year - 1601) / 400 == if year % 400 == 0 then 1 else 0
    ensures year % 400 == 0 ==> year % 100 == 0
  {
  }

  /** The table of month starts agrees with the month lengths. */
  lemma MonthLength(month: int, leap: bool)
    requires 1 <= month <= 12
    ensures DaysBeforeMonth(month + 1, leap) == DaysBeforeMonth(month, leap) + DaysInMonth(month, leap)
  {
  }

  lemma {:induction false} YearsAscend(y: int, z: int)
    requires y <= z
    ensures DayFromYear(y) + 365 * (z - y) <= DayFromYear(z)
    decreases z - y
  {
    if y < z {
      YearLength(y);
      YearsAscend(y + 1, z);
    }
  }

  lemma DayWithinYear(d: Date)
    requires ValidDate(d)
    ensures DayFromYear(d.year) <= DayNumber(d) < DayFromYear(d.year + 1)
  {
    MonthLength(d.month, IsLeap(d.year));
    YearLength(d.year);
  }

  lemma SameYear(y: int, z: int, day: int)
    requires DayFromYear(y) <= day < DayFromYear(y + 1)
    requires DayFromYear(z) <= day < DayFromYear(z + 1)
    ensures y == z
  {
    if y < z {
      YearsAscend(y + 1, z);
    } else if z < y {
      YearsAscend(z + 1, y);
    }
  }

  lemma SameMonth(m: int, n: int, leap: bool, dayOfYear: int)
    requires 1 <= m <= 12 && 1 <= n <= 12
    requires DaysBeforeMonth(m, leap) <= dayOfYear < DaysBeforeMonth(m + 1, leap)
    requires DaysBeforeMonth(n, leap) <= dayOfYear < DaysBeforeMonth(n + 1, leap)
    ensures m == n
  {
  }

  lemma SameDay(d: Date, e: Date, leap: bool)
    requires 1 <= d.month <= 12 && 1 <= d.day <= DaysInMonth(d.month, leap)
    requires 1 <= e.month <= 12 && 1 <= e.day <= DaysInMonth(e.month, leap)
    requires DaysBeforeMonth(d.month, leap) + d.day == DaysBeforeMonth(e.month, leap) + e.day
    ensures d.month == e.month && d.day == e.day
  {
    MonthLength(d.month, leap);
    MonthLength(e.month, leap);
    SameMonth(d.month, e.month, leap, DaysBeforeMonth(d.month, leap) + d.day - 1);
  }

  lemma DayNumberInYear(d: Date, e: Date)
    requires ValidDate(d) && ValidDate(e) && d.year == e.year && DayNumber(d) == DayNumber(e)
    ensures d == e
  {
    SameDay(d, e, IsLeap(d.year));
  }

  lemma DayNumberInjective(d: Date, e: Date)
    requires ValidDate(d) && ValidDate(e) && DayNumber(d) == DayNumber(e)
    ensures d == e
  {
    var day := DayNumber(d);
    YearOfDate(d, day);
    YearOfDate(e, day);
    DayNumberInYear(d, e);
  }

  lemma YearOfDate(d: Date, day: int)
    requires ValidDate(d) && DayNumber(d) == day
    ensures d.year == YearOf(day)
  {
    DayWithinYear(d);
    SameYear(d.year, YearOf(day), day);
  }

  /** Every valid date is the date of its own day number, so the two are inverse. */
  lemma DateOfDayNumber(d: Date)
    requires ValidDate(d)
    ensures DateOf(DayNumber(d)) == d
  {
    DayNumberInjective(d, DateOf(DayNumber(d)));
  }

  /** The same month starts 365 or 366 days later in the next year. */
  lemma MonthStartNextYear(year: int, month: int)
    requires 1 <= month <= 12
    ensures 365 <= DayFromYear(year + 1) + DaysBeforeMonth(month, IsLeap(year + 1))
                   - DayFromYear(year) - DaysBeforeMonth(month, IsLeap(year)) <= 366
  {
    YearLength(year);
    LeapYearsApart(year);
  }

  lemma LeapYearsApart(year: int)
    ensures !IsLeap(year) || !IsLeap(year + 1)
  {
  }
}
