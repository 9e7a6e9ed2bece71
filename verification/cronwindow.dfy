/** Which cron specs the one-leap-year search window always serves. */
module CronWindow {
  import opened Text
  import opened Calendar
  import opened Cron
  import opened Sets

  /** Some chosen month exists and, unless the weekday or nothing restricts the day,
      holds a chosen day in every year. */
  predicate FiresEveryYear(s: Spec) {
    exists m | m in s.months && 1 <= m <= 12 ::
      s.dowRestricted || !s.domRestricted || exists d | d in s.doms :: d <= DaysInMonth(m, false)
  }

  predicate DayMatches(s: Spec, day: int) {
    var date := DateOf(day);
    && date.month in s.months
    && var domOk, dowOk := date.day in s.doms, Weekday(day) in s.dows;
       if s.domRestricted && s.dowRestricted then domOk || dowOk
       else if s.domRestricted then domOk
       else if s.dowRestricted then dowOk
       else true
  }

  predicate InYear(day: int, year: int) {
    DayFromYear(year) <= day < DayFromYear(year + 1)
  }

  lemma YearOfDay(day: int) returns (year: int)
    ensures InYear(day, year)
    ensures DateOf(day).year == year
  {
    year := DateOf(day).year;
    DayWithinYear(DateOf(day));
  }

  /** A date that every year has comes round within 366 days of any day. */
  lemma YearlyDate(month: int, dayOfMonth: int, day0: int, year: int) returns (d: Date)
    requires 1 <= month <= 12 && 1 <= dayOfMonth <= DaysInMonth(month, false)
    requires InYear(day0, year)
    ensures ValidDate(d) && d.month == month && d.day == dayOfMonth
    ensures day0 <= DayNumber(d) <= day0 + 365
  {
    YearLength(year);
    d := Date(year, month, dayOfMonth);
    DayWithinYear(d);
    if DayNumber(d) < day0 {
      d := Date(year + 1, month, dayOfMonth);
      MonthStartNextYear(year, month);
    }
  }

  lemma WeekHasWeekday(first: int, w: int) returns (day: int)
    requires 0 <= w < 7
    ensures first <= day <= first + 6 && Weekday(day) == w
  {
    day := first + (w - first - 4) % 7;
  }

  /** Seven consecutive days of the month, among its first 28, within 366 days of any day. */
  lemma WeekInMonth(month: int, day0: int, year: int) returns (y: int, first: int)
    requires 1 <= month <= 12 && InYear(day0, year)
    ensures var start := DayNumber(Date(y, month, 1)); start <= first <= start + 21
    ensures day0 <= first <= day0 + 359
  {
    YearLength(year);
    DayWithinYear(Date(year, month, 28));
    var start := DayNumber(Date(year, month, 1));
    if day0 <= start + 21 {
      y, first := year, if day0 <= start then start else day0;
    } else {
      MonthStartNextYear(year, month);
      DayWithinYear(Date(year + 1, month, 1));
      y, first := year + 1, DayNumber(Date(year + 1, month, 1));
    }
  }

  lemma DayInMonth(year: int, month: int, day: int)
    requires 1 <= month <= 12
    requires var start := DayNumber(Date(year, month, 1)); start <= day <= start + 27
    ensures DateOf(day).month == month
  {
    DateOfDayNumber(Date(year, month, day - DayNumber(Date(year, month, 1)) + 1));
  }

  lemma MatchingWeekday(s: Spec, m: int, day0: int, year: int) returns (day: int)
    requires ValidSpec(s) && s.dowRestricted && m in s.months && 1 <= m <= 12 && InYear(day0, year)
    ensures day0 <= day <= day0 + 365 && DayMatches(s, day)
  {
    var w := Member(s.dows);
    var y, first := WeekInMonth(m, day0, year);
    day := WeekHasWeekday(first, w);
    DayInMonth(y, m, day);
  }

  lemma MatchingDate(s: Spec, m: int, d: int, day0: int, year: int) returns (day: int)
    requires !s.dowRestricted && m in s.months && 1 <= m <= 12 && InYear(day0, year)
    requires 1 <= d <= DaysInMonth(m, false) && (s.domRestricted ==> d in s.doms)
    ensures day0 <= day <= day0 + 365 && DayMatches(s, day)
  {
    var date := YearlyDate(m, d, day0, year);
    day := DayNumber(date);
    DateOfDayNumber(date);
  }

  lemma MatchingDay(s: Spec, day0: int) returns (day: int)
    requires ValidSpec(s) && FiresEveryYear(s)
    ensures day0 <= day <= day0 + 365 && DayMatches(s, day)
  {
    var m :| m in s.months && 1 <= m <= 12 &&
      (s.dowRestricted || !s.domRestricted || exists d | d in s.doms :: d <= DaysInMonth(m, false));
    var year := YearOfDay(day0);
    if s.dowRestricted {
      day := MatchingWeekday(s, m, day0, year);
    } else if !s.domRestricted {
      day := MatchingDate(s, m, 1, day0, year);
    } else {
      var d :| d in s.doms && d <= DaysInMonth(m, false);
      day := MatchingDate(s, m, d, day0, year);
    }
  }

  /** Minute and hour of the day are independent of the day. */
  lemma TimeOfDay(day: int, hour: int, mi: int)
    requires 0 <= hour < 24 && 0 <= mi < 60
    ensures var minute := day * MINUTES_PER_DAY + hour * 60 + mi;
            GetMinutes(minute) == mi && GetHours(minute) == hour && DayOf(minute) == day
  {
    var minute := day * MINUTES_PER_DAY + hour * 60 + mi;
    assert minute / 60 == day * 24 + hour;
  }

  lemma FoundInWindow(s: Spec, from: int)
    requires ValidSpec(s) && FiresEveryYear(s)
    ensures NextRunOf(s, from).Some?
  {
    var mi := Member(s.minutes);
    var h := Member(s.hours);
    var first := NextMinute(from);
    var offset := h * 60 + mi;
    // The first day whose h:mi is not before `first`.
    var day0 := (first - offset + MINUTES_PER_DAY - 1) / MINUTES_PER_DAY;
    var day := MatchingDay(s, day0);
    TimeOfDay(day, h, mi);
    var minute := day * MINUTES_PER_DAY + offset;
    assert Matches(s, minute);
    assert InWindow(from, minute);
    NextRunIsLeast(s, from);
  }

  // ---- the other direction: a start from which the search fails

  /** 2001-03-01 00:00, followed by more than a year without a leap day. */
  const AFTER_LEAP_DAY := DayNumber(Date(2001, 3, 1)) * MINUTES_PER_DAY * MS_PER_MINUTE

  lemma FirstOfMarch(year: int)
    ensures DayNumber(Date(year, 3, 1)) == DayFromYear(year) + (if IsLeap(year) then 60 else 59)
  {
  }

  lemma NoLeapDayNear(day: int, year: int)
    requires DayNumber(Date(2001, 3, 1)) <= day <= DayNumber(Date(2001, 3, 1)) + 366 && InYear(day, year)
    ensures !IsLeap(year)
  {
    FirstOfMarch(2001);
    SameYear(year, if day < DayFromYear(2002) then 2001 else 2002, day);
  }

  lemma NoMatchWithoutLeapDay(s: Spec, minute: int, date: Date)
    requires ValidSpec(s) && !FiresEveryYear(s) && date == DateOf(DayOf(minute)) && !IsLeap(date.year)
    ensures !Matches(s, minute)
  {
    assert ValidDate(date);
  }

  lemma MissedAfterLeapDay(s: Spec)
    requires ValidSpec(s) && !FiresEveryYear(s)
    ensures NextRunOf(s, AFTER_LEAP_DAY).None?
  {
    forall minute | InWindow(AFTER_LEAP_DAY, minute) ensures !Matches(s, minute) {
      var day := DayOf(minute);
      var year := YearOfDay(day);
      NoLeapDayNear(day, year);
      NoMatchWithoutLeapDay(s, minute, DateOf(day));
    }
    NextRunIsLeast(s, AFTER_LEAP_DAY);
  }

  /** The search succeeds from every start exactly for the specs that fire every year. */
  lemma AlwaysFound(s: Spec)
    requires ValidSpec(s)
    ensures (forall from :: NextRunOf(s, from).Some?) <==> FiresEveryYear(s)
  {
    if FiresEveryYear(s) {
      forall from ensures NextRunOf(s, from).Some? {
        FoundInWindow(s, from);
      }
    } else {
      MissedAfterLeapDay(s);
    }
  }

  /** The first of March of a common year comes round a full leap year later when the
      next year is a leap year, so no shorter window would do. */
  lemma OnlyOnFirstOfMarch(date: Date)
    requires ValidDate(date) && date.month == 3 && date.day == 1
    requires 0 <= DayNumber(date) - DayNumber(Date(2023, 3, 1)) <= 366
    ensures DayNumber(date) - DayNumber(Date(2023, 3, 1)) in {0, 366}
  {
    FirstOfMarch(2023);
    FirstOfMarch(2024);
    DayWithinYear(date);
    SameYear(date.year, if DayNumber(date) < DayFromYear(2024) then 2023 else 2024, DayNumber(date));
  }

  const FIRST_OF_MARCH := Spec({0}, {0}, {1}, {3}, {0, 1, 2, 3, 4, 5, 6}, true, false)

  lemma FirstOfMarchFires()
    ensures ValidSpec(FIRST_OF_MARCH) && FiresEveryYear(FIRST_OF_MARCH)
  {
    assert 0 in FIRST_OF_MARCH.minutes && 0 in FIRST_OF_MARCH.hours && 0 in FIRST_OF_MARCH.dows;
    assert 3 in FIRST_OF_MARCH.months && 1 in FIRST_OF_MARCH.doms;
  }

  lemma Midnight(minute: int)
    requires minute % 60 == 0 && minute / 60 % 24 == 0
    ensures minute == minute / 1440 * 1440
  {
  }

  lemma FirstOfMarchMinute(minute: int)
    requires Matches(FIRST_OF_MARCH, minute)
    ensures minute == DayOf(minute) * MINUTES_PER_DAY
    ensures DateOf(DayOf(minute)).month == 3 && DateOf(DayOf(minute)).day == 1
  {
    Midnight(minute);
  }

  lemma OnlyLastMinute(start: int, minute: int)
    requires start == DayNumber(Date(2023, 3, 1))
    requires 0 < minute - start * MINUTES_PER_DAY <= SEARCH_MINUTES && Matches(FIRST_OF_MARCH, minute)
    ensures minute == start * MINUTES_PER_DAY + SEARCH_MINUTES
  {
    FirstOfMarchMinute(minute);
    OnlyOnFirstOfMarch(DateOf(DayOf(minute)));
  }

  lemma StartOfDay(start: int)
    ensures NextMinute(start * MINUTES_PER_DAY * MS_PER_MINUTE) == start * MINUTES_PER_DAY + 1
  {
  }

  lemma FoundMatches(s: Spec, from: int, m: int)
    requires NextRunOf(s, from) == Some(m)
    ensures 0 <= m - NextMinute(from) < SEARCH_MINUTES && Matches(s, m)
  {
    NextRunIsLeast(s, from);
  }

  lemma FoundIsLast(s: Spec, start: int, from: int, m: int)
    requires s == FIRST_OF_MARCH && start == DayNumber(Date(2023, 3, 1)) && NextMinute(from) == start * MINUTES_PER_DAY + 1
    requires NextRunOf(s, from) == Some(m)
    ensures m == start * MINUTES_PER_DAY + SEARCH_MINUTES
  {
    FoundMatches(s, from, m);
    OnlyLastMinute(start, m);
  }

  /** From 2023-03-01 00:00, "0 0 1 3 *" runs in the very last minute of the window. */
  lemma WindowIsTight(start: int, from: int)
    requires start == DayNumber(Date(2023, 3, 1)) && from == start * MINUTES_PER_DAY * MS_PER_MINUTE
    ensures NextRunOf(FIRST_OF_MARCH, from) == Some(NextMinute(from) + SEARCH_MINUTES - 1)
  {
    FirstOfMarchFires();
    FoundInWindow(FIRST_OF_MARCH, from);
    StartOfDay(start);
    FoundIsLast(FIRST_OF_MARCH, start, from, NextRunOf(FIRST_OF_MARCH, from).value);
  }

  /** For every accepted expression, in the terms of the parsed fields. */
  lemma ExpressionAlwaysFound(expr: string, num: string -> Option<int>)
    requires ParsedCron(expr, num).Ok?
    ensures (forall from :: NextRunOf(ParsedCron(expr, num).value, from).Some?) <==> FiresEveryYear(ParsedCron(expr, num).value)
  {
    ParsedIsValid(expr, num);
    AlwaysFound(ParsedCron(expr, num).value);
  }
}
