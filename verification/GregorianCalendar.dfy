/**
 The calendar in figures: the month lengths, the epoch, and what counting days month by month from it gives. Nothing
 here is stated through the tables the calendar computes with.
 */
module GregorianCalendar {
  import opened Basics
  import opened Calendar

  /** Thirty days has September, April, June and November. */
  function DaysIn(y: int, m: int): int {
    if m == 3 || m == 5 || m == 8 || m == 10 then 30
    else if m != 1 then 31
    else if (y % 4 == 0 && y % 100 != 0) || y % 400 == 0 then 29
    else 28
  }

  lemma MonthOfYear(y: int, m: int)
    requires 0 <= m <= 11
    ensures (12 * y + m) / 12 == y && (12 * y + m) % 12 == m
  {
  }

  /** Every month has its length, February by the leap rule. */
  lemma MonthLengths(y: int, m: int)
    requires 0 <= m <= 11
    ensures m in {0, 2, 4, 6, 7, 9, 11} ==> MonthLength(12 * y + m) == 31
    ensures m in {3, 5, 8, 10} ==> MonthLength(12 * y + m) == 30
    ensures MonthLength(12 * y + 1) == 28 || MonthLength(12 * y + 1) == 29
    ensures MonthLength(12 * y + 1) == 29 <==> (y % 4 == 0 && y % 100 != 0) || y % 400 == 0
  {
    LengthInYear(y, 1);
    LengthInYear(y, m);
    hide MonthLength, DaysBefore, IsLeap;
    Tabled(m, IsLeap(y));
    Tabled(1, IsLeap(y));
    LeapRule(y);
  }

  /** The length of a month from the days before it and before the next. */
  lemma LengthInYear(y: int, m: int)
    requires 0 <= m <= 11
    ensures MonthLength(12 * y + m) == DaysBefore(m + 1, IsLeap(y)) - DaysBefore(m, IsLeap(y))
  {
    hide DayFromYear, IsLeap;
    YearLength(y);
    MonthOfYear(y, m);
    if m < 11 {
      MonthOfYear(y, m + 1);
    } else {
      MonthOfYear(y + 1, 0);
    }
  }

  lemma Tabled(m: int, leap: bool)
    requires 0 <= m <= 11
    ensures DaysBefore(m + 1, leap) - DaysBefore(m, leap)
         == if m == 3 || m == 5 || m == 8 || m == 10 then 30 else if m == 1 then (if leap then 29 else 28) else 31
  {
  }

  lemma LeapRule(y: int)
    ensures IsLeap(y) <==> (y % 4 == 0 && y % 100 != 0) || y % 400 == 0
  {
  }

  /** January 1970 starts on day 0. */
  lemma Epoch()
    ensures MonthStart(12 * 1970) == 0
  {
  }

  /** Any count of days that starts there and goes on by these lengths, both ways, is the calendar's. */
  ghost predicate CountsDays(start: int -> int) {
    start(12 * 1970) == 0 && forall i :: start(i + 1) == start(i) + DaysIn(i / 12, i % 12)
  }

  lemma {:induction false} OneCalendar(start: int -> int, i: int)
    requires CountsDays(start)
    ensures MonthStart(i) == start(i)
    decreases if i >= 12 * 1970 then i - 12 * 1970 else 12 * 1970 - i
  {
    hide MonthStart, DaysIn;
    Epoch();
    if i > 12 * 1970 {
      OneCalendar(start, i - 1);
      LengthIs(i - 1);
      assert start(i - 1 + 1) == start(i - 1) + DaysIn((i - 1) / 12, (i - 1) % 12);
    } else if i < 12 * 1970 {
      OneCalendar(start, i + 1);
      LengthIs(i);
      assert start(i + 1) == start(i) + DaysIn(i / 12, i % 12);
    }
  }

  lemma LengthIs(i: int)
    ensures MonthStart(i + 1) == MonthStart(i) + DaysIn(i / 12, i % 12)
  {
    hide MonthStart;
    MonthLengths(i / 12, i % 12);
    assert i == 12 * (i / 12) + i % 12;
  }

  /** The instant a date and a time of day name. */
  function At(y: int, m: int, date: int, time: int): int {
    MakeDate(MonthStart(12 * y + m) + date - 1, time)
  }

  /**
   `plusMonths` on dates: n months after a date of the calendar is the same date of the target month or, when that
   month is shorter, its last, at the same time of day.
   */
  lemma MonthsAfter(y: int, m: int, date: int, time: int, n: int, y': int, m': int)
    requires 0 <= m <= 11 && 1 <= date <= DaysIn(y, m) && 0 <= time < 86400000
    requires 0 <= m' <= 11 && 12 * y' + m' == 12 * y + m + n
    ensures AddMonths(At(y, m, date, time), n) == At(y', m', MinInt(date, DaysIn(y', m')), time)
  {
    hide MonthStart, MonthIndex, DayOfMonth, TimeWithinDay, MakeDate;
    MonthLengths(y, m);
    MonthLengths(y', m');
    CivilRead(12 * y + m, date, time);
  }

  /** The range of instants: a hundred million days of 24 hours on either side of the epoch. */
  lemma RangeIs(t: int)
    ensures IsDateTime(t) <==> -100000000 * (24 * 60 * 60 * 1000) <= t <= 100000000 * (24 * 60 * 60 * 1000)
  {
  }

  /** One month after midnight of 31 May 2023 is midnight of 30 June. */
  lemma EndOfMay()
    ensures At(2023, 4, 31, 0) == 1685491200000 && At(2023, 5, 30, 0) == 1688083200000
    ensures AddMonths(1685491200000, 1) == 1688083200000
  {
    hide AddMonths, MonthStart;
    MayAndJune();
    MonthsAfter(2023, 4, 31, 0, 1, 2023, 5);
  }

  lemma MayAndJune()
    ensures MonthStart(12 * 2023 + 4) == 19478 && MonthStart(12 * 2023 + 5) == 19509
  {
    MonthOfYear(2023, 4);
    MonthOfYear(2023, 5);
  }
}
