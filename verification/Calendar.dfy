/** Broken-down time: mktime, gmtime_r and localtime_r of lib/time.c, and the month sheet of the cal command. */
module Calendar {

  const SECS_PER_DAY := 86400
  const SECS_PER_HOUR := 3600
  const SECS_PER_MIN := 60

  datatype Tm = Tm(sec: int, min: int, hour: int, mday: int, mon: int, year: int, wday: int)

  /** Division of the C language: toward zero. */
  function Div(a: int, b: int): int
    requires b > 0
  {
    if a >= 0 then a / b else -((-a) / b)
  }

  function Mod(a: int, b: int): int
    requires b > 0
  {
    a - Div(a, b) * b
  }

  /** The sign of a remainder does not matter here. */
  predicate Leap(year: int) {
    year % 4 == 0 && (year % 100 != 0 || year % 400 == 0)
  }

  // ---- the calendar itself ----

  function YearLength(year: int): (n: int)
  {
    if Leap(year) then 366 else 365
  }

  /** mon counts from 0. */
  function MonthLength(year: int, mon: int): (n: int)
    ensures 28 <= n <= 31
  {
    if mon == 1 then (if Leap(year) then 29 else 28)
    else if mon == 3 || mon == 5 || mon == 8 || mon == 10 then 30
    else 31
  }

  /** Days from the start of 1970 to the start of a year. */
  function DaysBeforeYear(year: int): (n: nat)
    decreases year
  {
    if year <= 1970 then 0 else DaysBeforeYear(year - 1) + YearLength(year - 1)
  }

  function DaysBeforeMonth(year: int, mon: int): (n: nat)
    decreases mon
  {
    if mon <= 0 then 0 else DaysBeforeMonth(year, mon - 1) + MonthLength(year, mon - 1)
  }

  /** The number of a day, counted from the first of January 1970. */
  function Days(tm: Tm): int
  {
    DaysBeforeYear(1900 + tm.year) + DaysBeforeMonth(1900 + tm.year, tm.mon) + tm.mday - 1
  }

  function Seconds(tm: Tm): int
  {
    Days(tm) * SECS_PER_DAY + tm.hour * SECS_PER_HOUR + tm.min * SECS_PER_MIN + tm.sec
  }

  /** A date and time of day from 1970 on. */
  predicate Valid(tm: Tm) {
    && 0 <= tm.sec < 60 && 0 <= tm.min < 60 && 0 <= tm.hour < 24
    && tm.year >= 70 && 0 <= tm.mon < 12 && 1 <= tm.mday <= MonthLength(1900 + tm.year, tm.mon)
  }

  /** The day of the week, 0 for Sunday; the first of January 1970 was a Thursday. */
  function Weekday(days: int): int {
    (days + 4) % 7
  }

  // ---- facts about it ----

  lemma MonthsMakeYear(year: int)
    ensures DaysBeforeMonth(year, 12) == YearLength(year)
  {
    assert DaysBeforeMonth(year, 4) == DaysBeforeMonth(year, 0) + 31 + MonthLength(year, 1) + 31 + 30;
    assert DaysBeforeMonth(year, 8) == DaysBeforeMonth(year, 4) + 31 + 30 + 31 + 31;
    assert DaysBeforeMonth(year, 12) == DaysBeforeMonth(year, 8) + 30 + 31 + 30 + 31;
  }

  lemma {:induction false} LaterMonth(year: int, m: int, n: int)
    requires 0 <= m < n
    ensures DaysBeforeMonth(year, m) + MonthLength(year, m) <= DaysBeforeMonth(year, n)
    decreases n
  {
    if m < n - 1 {
      LaterMonth(year, m, n - 1);
    }
  }

  lemma {:induction false} LaterYear(y: int, z: int)
    requires 1970 <= y < z
    ensures DaysBeforeYear(y) + YearLength(y) <= DaysBeforeYear(z)
    decreases z
  {
    if y < z - 1 {
      LaterYear(y, z - 1);
    }
  }

  lemma DayOfYear(tm: Tm)
    requires Valid(tm)
    ensures var y := 1900 + tm.year; DaysBeforeYear(y) <= Days(tm) < DaysBeforeYear(y) + YearLength(y)
  {
    LaterMonth(1900 + tm.year, tm.mon, 12);
    MonthsMakeYear(1900 + tm.year);
  }

  /** No two dates share a day number. */
  lemma OneDatePerDay(a: Tm, b: Tm)
    requires Valid(a) && Valid(b) && Days(a) == Days(b)
    ensures a.year == b.year && a.mon == b.mon && a.mday == b.mday
  {
    DayOfYear(a);
    DayOfYear(b);
    var y, z := 1900 + a.year, 1900 + b.year;
    if y < z { LaterYear(y, z); }
    if z < y { LaterYear(z, y); }
    if a.mon < b.mon { LaterMonth(y, a.mon, b.mon); }
    if b.mon < a.mon { LaterMonth(y, b.mon, a.mon); }
  }

  lemma SplitSeconds(tm: Tm)
    requires Valid(tm)
    ensures Seconds(tm) / SECS_PER_DAY == Days(tm)
    ensures var n := Seconds(tm) % SECS_PER_DAY;
            n / SECS_PER_HOUR == tm.hour && n % SECS_PER_HOUR / SECS_PER_MIN == tm.min && n % SECS_PER_MIN == tm.sec
  {
    var rest := tm.hour * SECS_PER_HOUR + tm.min * SECS_PER_MIN + tm.sec;
    assert 0 <= rest < SECS_PER_DAY;
    assert Seconds(tm) == Days(tm) * SECS_PER_DAY + rest;
  }

  /** No two valid dates and times share a second. */
  lemma OneDatePerSecond(a: Tm, b: Tm)
    requires Valid(a) && Valid(b) && Seconds(a) == Seconds(b)
    ensures a == b.(wday := a.wday)
  {
    SplitSeconds(a);
    SplitSeconds(b);
    OneDatePerDay(a, b);
  }

  /** The number of leap years before a year, as POSIX counts them. */
  lemma {:induction false} YearsClosed(year: int)
    requires year >= 1970
    ensures DaysBeforeYear(year) == (year - 1970) * 365 + (year - 1969) / 4 - (year - 1901) / 100 + (year - 1601) / 400
    decreases year
  {
    if year > 1970 {
      YearsClosed(year - 1);
      LeapStep(year - 1);
    }
  }

  lemma LeapStep(y: int)
    requires y >= 1970
    ensures var before, after := (y - 1969) / 4 - (y - 1901) / 100 + (y - 1601) / 400, (y - 1968) / 4 - (y - 1900) / 100 + (y - 1600) / 400;
            after - before == if Leap(y) then 1 else 0
  {
    assert (y - 1968) / 4 - (y - 1969) / 4 == if y % 4 == 0 then 1 else 0;
    assert (y - 1900) / 100 - (y - 1901) / 100 == if y % 100 == 0 then 1 else 0;
    assert (y - 1600) / 400 - (y - 1601) / 400 == if y % 400 == 0 then 1 else 0;
  }

  /** From March on, the lengths of the months follow from one division. */
  lemma MonthsClosed(year: int, mon: int)
    requires 2 <= mon <= 12
    ensures DaysBeforeMonth(year, mon) == 59 + (if Leap(year) then 1 else 0) + (153 * (mon - 2) + 2) / 5
  {
    assert DaysBeforeMonth(year, 2) == 31 + MonthLength(year, 1);
    assert DaysBeforeMonth(year, 5) == DaysBeforeMonth(year, 2) + 92;
    assert DaysBeforeMonth(year, 8) == DaysBeforeMonth(year, 5) + 92;
    assert DaysBeforeMonth(year, 10) == DaysBeforeMonth(year, 8) + 61;
    assert DaysBeforeMonth(year, 12) == DaysBeforeMonth(year, 10) + 61;
  }

  /** The first of January 2000 was a Saturday, 946684800 seconds after the Epoch. */
  lemma Millennium(tm: Tm)
    requires tm.year == 100 && tm.mon == 0 && tm.mday == 1 && tm.hour == 0 && tm.min == 0 && tm.sec == 0
    ensures Seconds(tm) == 946684800 && Weekday(Days(tm)) == 6
  {
    YearsClosed(2000);
  }

  /** Seconds since the Epoch as section 4.16 of POSIX.1-2017 (Base Definitions) defines them. */
  lemma SecondsArePosix(tm: Tm)
    requires Valid(tm)
    ensures var yday := DaysBeforeMonth(1900 + tm.year, tm.mon) + tm.mday - 1;
            Seconds(tm) == tm.sec + tm.min * 60 + tm.hour * 3600 + yday * 86400 + (tm.year - 70) * 31536000
                           + ((tm.year - 69) / 4) * 86400 - ((tm.year - 1) / 100) * 86400 + ((tm.year + 299) / 400) * 86400
  {
    YearsClosed(1900 + tm.year);
  }

  // ---- the code ----

  const DAYS_TO_MON := [31, 59, 90, 120, 151, 181, 212, 243, 273, 304, 334]

  lemma TableIsRight(year: int, mon: int)
    requires 0 <= mon < 11
    ensures DAYS_TO_MON[mon] + (if Leap(year) && mon > 0 then 1 else 0) == DaysBeforeMonth(year, mon + 1)
  {
    assert DaysBeforeMonth(year, 2) == 31 + MonthLength(year, 1);
    assert DaysBeforeMonth(year, 4) == DaysBeforeMonth(year, 2) + 61;
    assert DaysBeforeMonth(year, 6) == DaysBeforeMonth(year, 4) + 61;
    assert DaysBeforeMonth(year, 8) == DaysBeforeMonth(year, 6) + 62;
    assert DaysBeforeMonth(year, 10) == DaysBeforeMonth(year, 8) + 61;
  }

  /** mktime indexes its table with the month and takes every other field as it is. */
  method Mktime(tm: Tm) returns (t: int)
    requires tm.mon <= 11
    ensures t == Seconds(tm)
  {
    var currYear := 1900 + tm.year;
    var year := 1970;
    var days := 0;
    while year < currYear
      invariant year == 1970 || year <= currYear
      invariant days == DaysBeforeYear(year)
    {
      days := days + 365 + (if Leap(year) then 1 else 0);
      year := year + 1;
    }
    if tm.mon > 0 {
      TableIsRight(currYear, tm.mon - 1);
      days := days + DAYS_TO_MON[tm.mon - 1];
      if tm.mon > 1 && Leap(currYear) {
        days := days + 1;
      }
    }
    days := days + tm.mday - 1;
    t := days * SECS_PER_DAY + tm.hour * SECS_PER_HOUR + tm.min * SECS_PER_MIN + tm.sec;
  }

  /** The year loop of gmtime_r: the year that holds the day, and the day's number within it. */
  method FindYear(all: int) returns (year: int, days: int)
    ensures year >= 1970 && days + DaysBeforeYear(year) == all && days < YearLength(year)
    ensures if all >= 0 then days >= 0 else year == 1970
  {
    year, days := 1970, all;
    while YearLength(year) <= days
      invariant year >= 1970 && days + DaysBeforeYear(year) == all
      invariant if all >= 0 then days >= 0 else year == 1970
      decreases days
    {
      days := days - YearLength(year);
      year := year + 1;
    }
  }

  /** The month loop of gmtime_r. */
  method FindMonth(year: int, days: int) returns (mon: int)
    requires days < YearLength(year)
    ensures 0 <= mon <= 11
    ensures if days >= 0 then DaysBeforeMonth(year, mon) <= days < DaysBeforeMonth(year, mon) + MonthLength(year, mon) else mon == 0
  {
    hide Leap, YearLength;
    mon := 0;
    while mon < 11 && DAYS_TO_MON[mon] + (if Leap(year) && mon > 0 then 1 else 0) <= days
      invariant 0 <= mon <= 11 && (days < 0 ==> mon == 0) && (days >= 0 ==> DaysBeforeMonth(year, mon) <= days)
    {
      TableIsRight(year, mon);
      mon := mon + 1;
    }
    if mon < 11 {
      TableIsRight(year, mon);
      MonthAfter(year, mon);
    } else {
      MonthAfter(year, 11);
      MonthsMakeYear(year);
    }
  }

  lemma MonthAfter(year: int, mon: int)
    requires mon >= 0
    ensures DaysBeforeMonth(year, mon + 1) == DaysBeforeMonth(year, mon) + MonthLength(year, mon)
  {}

  /** gmtime_r returns the fields that stand for t; they form a date exactly when t is not negative. */
  method Gmtime(t: int) returns (tm: Tm)
    ensures tm.mon <= 11 && Seconds(tm) == t
    ensures Valid(tm) <==> t >= 0
    ensures t >= 0 ==> tm.wday == Weekday(Days(tm))
  {
    hide Div, Mod, Leap, MonthLength, Seconds, Valid, Weekday;
    var n := t;
    var days := Div(n, SECS_PER_DAY);
    var wday := Mod(days + 4, 7);
    n := Mod(n, SECS_PER_DAY);
    var hour := Div(n, SECS_PER_HOUR);
    n := Mod(n, SECS_PER_HOUR);
    var min := Div(n, SECS_PER_MIN);
    var sec := Mod(n, SECS_PER_MIN);
    ghost var all := days;
    var year: int;
    year, days := FindYear(days);
    var mon := FindMonth(year, days);
    if mon > 0 {
      TableIsRight(year, mon - 1);
      days := days - (DAYS_TO_MON[mon - 1] + (if Leap(year) && mon > 1 then 1 else 0));
    }
    tm := Tm(sec, min, hour, days + 1, mon, year - 1900, wday);
    GmtimeOk(t, tm);
  }

  /** The fields that the loops of gmtime_r find, put together. */
  lemma GmtimeOk(t: int, tm: Tm)
    requires var days, n := Div(t, SECS_PER_DAY), Mod(t, SECS_PER_DAY);
             var m := Mod(n, SECS_PER_HOUR);
             && tm.hour == Div(n, SECS_PER_HOUR) && tm.min == Div(m, SECS_PER_MIN) && tm.sec == Mod(m, SECS_PER_MIN)
             && tm.wday == Mod(days + 4, 7) && Days(tm) == days && tm.year >= 70 && 0 <= tm.mon <= 11
             && (if days >= 0 then 1 <= tm.mday <= MonthLength(1900 + tm.year, tm.mon) else tm.mday <= 0)
    ensures Seconds(tm) == t && (Valid(tm) <==> t >= 0) && (t >= 0 ==> tm.wday == Weekday(Days(tm)))
  {
    hide Days, MonthLength;
    TimeOfDay(t);
    WeekdayIs(Div(t, SECS_PER_DAY));
  }

  lemma WeekdayIs(days: int)
    ensures days >= 0 ==> Mod(days + 4, 7) == Weekday(days)
  {}

  /** Hours, minutes and seconds of a time, cut toward zero. */
  lemma TimeOfDay(t: int)
    ensures var days, n := Div(t, SECS_PER_DAY), Mod(t, SECS_PER_DAY);
            var hour, m := Div(n, SECS_PER_HOUR), Mod(n, SECS_PER_HOUR);
            var min, sec := Div(m, SECS_PER_MIN), Mod(m, SECS_PER_MIN);
            && days * SECS_PER_DAY + hour * SECS_PER_HOUR + min * SECS_PER_MIN + sec == t
            && (t >= 0 ==> days >= 0 && 0 <= hour < 24 && 0 <= min < 60 && 0 <= sec < 60)
            && (t < 0 ==> days < 0 || hour < 0 || min < 0 || sec < 0)
  {}

  /** Every time survives the way through broken-down time, even one before 1970. */
  method TimeAndBack(t: int) returns (u: int)
    ensures u == t
  {
    var tm := Gmtime(t);
    u := Mktime(tm);
  }

  /** Every date from 1970 on survives the way through seconds and comes back with its weekday. */
  method DateAndBack(tm: Tm) returns (r: Tm)
    requires Valid(tm)
    ensures r == tm.(wday := Weekday(Days(tm)))
  {
    hide Days;
    var t := Mktime(tm);
    SplitSeconds(tm);
    DaysNotNegative(tm);
    r := Gmtime(t);
    OneDatePerSecond(r, tm);
    SameDay(r, tm);
  }

  lemma DaysNotNegative(tm: Tm)
    requires Valid(tm)
    ensures Days(tm) >= 0 && Seconds(tm) >= 0
  {}

  lemma SameDay(a: Tm, b: Tm)
    requires a == b.(wday := a.wday)
    ensures Days(a) == Days(b)
  {}

  /** localtime_r: the zone is given in minutes west of Greenwich. */
  method Localtime(t: int, minutesWest: int) returns (tm: Tm)
    ensures Seconds(tm) == t - minutesWest * SECS_PER_MIN
    ensures Valid(tm) <==> t >= minutesWest * SECS_PER_MIN
    ensures Valid(tm) ==> tm.wday == Weekday(Days(tm))
  {
    tm := Gmtime(t - minutesWest * SECS_PER_MIN);
  }

  /** The first column of the month sheet is the weekday of the first of the month. */
  lemma FirstOfMonth(tm: Tm)
    requires Valid(tm) && tm.wday == Weekday(Days(tm))
    ensures Mod(tm.wday + 35 - (tm.mday - 1), 7) == Weekday(Days(tm.(mday := 1)))
  {
    var first := Days(tm.(mday := 1));
    assert Days(tm) == first + tm.mday - 1;
    WeekShift(first, tm.mday - 1);
  }

  lemma WeekShift(first: int, d: int)
    requires 0 <= d <= 31
    ensures Mod(Weekday(first + d) + 35 - d, 7) == Weekday(first)
  {
    var k := (first + d + 4) / 7;
    assert Weekday(first + d) + 35 - d == first + 4 + 7 * (5 - k);
  }

  /** The loop of the cal command: the column of each day of the month is the weekday of that day. */
  method MonthSheet(tm: Tm) returns (column: seq<int>)
    requires Valid(tm) && tm.wday == Weekday(Days(tm))
    ensures |column| == MonthLength(1900 + tm.year, tm.mon)
    ensures forall d :: 0 <= d < |column| ==> column[d] == Weekday(Days(tm.(mday := d + 1)))
  {
    hide Days, Leap, MonthLength;
    FirstOfMonth(tm);
    var daysOfMon := [31, 28, 31, 30, 31, 30, 31, 31, 30, 31, 30, 31];
    var wday := Mod(tm.wday + 35 - (tm.mday - 1), 7);
    var days := daysOfMon[tm.mon] + (if tm.mon == 1 && Leap(1900 + tm.year) then 1 else 0);
    var day := 1;
    column := [];
    assert days == MonthLength(1900 + tm.year, tm.mon) by { MonthTable(tm); }
    while day <= days
      invariant 1 <= day <= days + 1 && |column| == day - 1 && wday == Weekday(Days(tm.(mday := day)))
      invariant forall d :: 0 <= d < |column| ==> column[d] == Weekday(Days(tm.(mday := d + 1)))
    {
      column := column + [wday];
      OneDayOn(tm, day);
      wday := if wday == 6 then 0 else wday + 1;
      day := day + 1;
    }
  }

  lemma MonthTable(tm: Tm)
    requires 0 <= tm.mon < 12
    ensures MonthLength(1900 + tm.year, tm.mon)
            == [31, 28, 31, 30, 31, 30, 31, 31, 30, 31, 30, 31][tm.mon] + (if tm.mon == 1 && Leap(1900 + tm.year) then 1 else 0)
  {}

  lemma OneDayOn(tm: Tm, day: int)
    ensures Weekday(Days(tm.(mday := day + 1))) == if Weekday(Days(tm.(mday := day))) == 6 then 0 else Weekday(Days(tm.(mday := day))) + 1
  {}
}
