/**
 Proleptic Gregorian calendar arithmetic on time values, as section 21.4.1 of ECMA-262
 defines it for `Date`, and the `DateTime.plusMonths`/`plusDays` built on top of it.

 An instant is a number of milliseconds since 1970-01-01T00:00:00Z.
 A month is named by its index 12 * year + month, with January being month 0.
 */
module Calendar {
  import opened Basics

  const MS_PER_DAY: int := 86400000
  const MAX_TIME: int := 8640000000000000

  datatype DateTimeError = InvalidDateTime

  // ---------------------------------------------------------------- ECMA-262, section 21.4.1

  function Day(t: int): int {
    t / MS_PER_DAY
  }

  function TimeWithinDay(t: int): int {
    t % MS_PER_DAY
  }

  function MakeDate(day: int, time: int): int {
    day * MS_PER_DAY + time
  }

  predicate IsLeap(y: int) {
    (y % 4 == 0 && y % 100 != 0) || y % 400 == 0
  }

  function DayFromYear(y: int): int {
    365 * (y - 1970) + (y - 1969) / 4 - (y - 1901) / 100 + (y - 1601) / 400
  }

  /** The day within the year on which month m (0 to 12) starts. */
  function DaysBefore(m: int, leap: bool): int
    requires 0 <= m <= 12
  {
    var extra := if leap then 1 else 0;
    if m == 0 then 0
    else if m == 1 then 31
    else if m == 2 then 59 + extra
    else if m == 3 then 90 + extra
    else if m == 4 then 120 + extra
    else if m == 5 then 151 + extra
    else if m == 6 then 181 + extra
    else if m == 7 then 212 + extra
    else if m == 8 then 243 + extra
    else if m == 9 then 273 + extra
    else if m == 10 then 304 + extra
    else if m == 11 then 334 + extra
    else 365 + extra
  }

  function MakeDay(year: int, month: int, date: int): int {
    var ym := year + month / 12;
    DayFromYear(ym) + DaysBefore(month % 12, IsLeap(ym)) + date - 1
  }

  lemma YearLength(y: int)
    ensures DayFromYear(y + 1) == DayFromYear(y) + (if IsLeap(y) then 366 else 365)
  {
    Multiples4(y);
    Multiples100(y);
    Multiples400(y);
    LeapCases(y);
  }

  /** Every 400th year is a 100th one, and every 100th a 4th. */
  lemma LeapCases(y: int)
    ensures (if IsLeap(y) then 1 else 0)
         == (if y % 4 == 0 then 1 else 0) - (if y % 100 == 0 then 1 else 0) + (if y % 400 == 0 then 1 else 0)
  {
    if y % 400 == 0 {
      assert y == 100 * (4 * (y / 400));
      Multiple100(y, 4 * (y / 400));
    }
    if y % 100 == 0 {
      assert y == 4 * (25 * (y / 100));
      Multiple4(y, 25 * (y / 100));
    }
  }

  lemma Multiple4(y: int, k: int)
    requires y == 4 * k
    ensures y % 4 == 0
  {
  }

  lemma Multiple100(y: int, k: int)
    requires y == 100 * k
    ensures y % 100 == 0
  {
  }

  // The three floor terms step exactly when the year leaves a multiple of 4, 100 or 400.

  lemma Multiples4(y: int)
    ensures (y + 1 - 1969) / 4 == (y - 1969) / 4 + (if y % 4 == 0 then 1 else 0)
  {
  }

  lemma Multiples100(y: int)
    ensures (y + 1 - 1901) / 100 == (y - 1901) / 100 + (if y % 100 == 0 then 1 else 0)
  {
  }

  lemma Multiples400(y: int)
    ensures (y + 1 - 1601) / 400 == (y - 1601) / 400 + (if y % 400 == 0 then 1 else 0)
  {
  }

  /** The year containing a day, found by walking from a starting guess. */
  function YearSearch(d: int, y: int): (r: int)
    ensures DayFromYear(r) <= d < DayFromYear(r + 1)
    decreases DayFromYear(y) > d, if DayFromYear(y) > d then DayFromYear(y) - d else d - DayFromYear(y)
  {
    hide DayFromYear, IsLeap;
    YearLength(y);
    YearLength(y - 1);
    if DayFromYear(y) > d then YearSearch(d, y - 1)
    else if DayFromYear(y + 1) <= d then YearSearch(d, y + 1)
    else y
  }

  function YearFromDay(d: int): (y: int)
    ensures DayFromYear(y) <= d < DayFromYear(y + 1)
  {
    YearSearch(d, 1970 + d / 366)
  }

  /** The month of a day that lies so many days into its year. */
  function MonthWithin(within: int, leap: bool): (m: int)
    requires 0 <= within < DaysBefore(12, leap)
    ensures 0 <= m <= 11 && DaysBefore(m, leap) <= within < DaysBefore(m + 1, leap)
  {
    if within < DaysBefore(1, leap) then 0
    else if within < DaysBefore(2, leap) then 1
    else if within < DaysBefore(3, leap) then 2
    else if within < DaysBefore(4, leap) then 3
    else if within < DaysBefore(5, leap) then 4
    else if within < DaysBefore(6, leap) then 5
    else if within < DaysBefore(7, leap) then 6
    else if within < DaysBefore(8, leap) then 7
    else if within < DaysBefore(9, leap) then 8
    else if within < DaysBefore(10, leap) then 9
    else if within < DaysBefore(11, leap) then 10
    else 11
  }

  lemma WholeYear(leap: bool)
    ensures DaysBefore(12, leap) == if leap then 366 else 365
  {
  }

  /** MonthFromTime on the day number. */
  function MonthFromDay(d: int): (m: int)
    ensures 0 <= m <= 11
  {
    hide DayFromYear, IsLeap, DaysBefore;
    var y := YearFromDay(d);
    YearLength(y);
    WholeYear(IsLeap(y));
    MonthWithin(d - DayFromYear(y), IsLeap(y))
  }

  lemma DayInMonth(d: int)
    ensures var y, m := YearFromDay(d), MonthFromDay(d);
            DayFromYear(y) + DaysBefore(m, IsLeap(y)) <= d < DayFromYear(y) + DaysBefore(m + 1, IsLeap(y))
  {
    hide DayFromYear, IsLeap, DaysBefore, YearFromDay, MonthWithin;
    YearLength(YearFromDay(d));
    WholeYear(IsLeap(YearFromDay(d)));
  }

  /** DateFromTime on the day number. */
  function DateFromDay(d: int): int {
    var y := YearFromDay(d);
    d - DayFromYear(y) - DaysBefore(MonthFromDay(d), IsLeap(y)) + 1
  }

  // ---------------------------------------------------------------- months by index

  /** The day number of the first day of a month. */
  function MonthStart(i: int): int {
    DayFromYear(i / 12) + DaysBefore(i % 12, IsLeap(i / 12))
  }

  function MonthLength(i: int): int {
    MonthStart(i + 1) - MonthStart(i)
  }

  function MonthIndex(t: int): int {
    12 * YearFromDay(Day(t)) + MonthFromDay(Day(t))
  }

  function DayOfMonth(t: int): int {
    DateFromDay(Day(t))
  }

  lemma MonthLengthBounds(i: int)
    ensures 28 <= MonthLength(i) <= 31
  {
    hide DayFromYear, IsLeap;
    YearLength(i / 12);
    if i % 12 == 11 {
      assert (i + 1) / 12 == i / 12 + 1 && (i + 1) % 12 == 0;
    } else {
      assert (i + 1) / 12 == i / 12 && (i + 1) % 12 == i % 12 + 1;
    }
  }

  lemma {:induction false} MonthStartMonotone(i: int, j: int)
    requires i <= j
    ensures MonthStart(j) >= MonthStart(i) + 28 * (j - i)
    decreases j - i
  {
    hide MonthStart;
    if i < j {
      MonthStartMonotone(i, j - 1);
      MonthLengthBounds(j - 1);
    }
  }

  /** A day lies in exactly one month. */
  lemma MonthUnique(d: int, i: int, j: int)
    requires MonthStart(i) <= d < MonthStart(i + 1)
    requires MonthStart(j) <= d < MonthStart(j + 1)
    ensures i == j
  {
    hide MonthStart;
    if i < j {
      MonthStartMonotone(i + 1, j);
    } else if j < i {
      MonthStartMonotone(j + 1, i);
    }
  }

  lemma MakeDayIndex(year: int, month: int, date: int)
    ensures MakeDay(year, month, date) == MonthStart(12 * year + month) + date - 1
  {
    hide DayFromYear, DaysBefore, IsLeap;
    var i := 12 * year + month;
    assert i / 12 == year + month / 12 && i % 12 == month % 12;
  }

  /** Month 12 of a year is January of the next. */
  lemma MonthStartOf(y: int, m: int)
    requires 0 <= m <= 12
    ensures MonthStart(12 * y + m) == DayFromYear(y) + DaysBefore(m, IsLeap(y))
  {
    if m == 12 {
      YearLength(y);
      assert (12 * y + 12) / 12 == y + 1 && (12 * y + 12) % 12 == 0;
    } else {
      hide DayFromYear, DaysBefore, IsLeap;
      assert (12 * y + m) / 12 == y && (12 * y + m) % 12 == m;
    }
  }

  lemma SplitTime(t: int)
    ensures t == MakeDate(Day(t), TimeWithinDay(t)) && 0 <= TimeWithinDay(t) < MS_PER_DAY
  {
  }

  lemma JoinTime(day: int, time: int)
    requires 0 <= time < MS_PER_DAY
    ensures Day(MakeDate(day, time)) == day && TimeWithinDay(MakeDate(day, time)) == time
  {
  }

  /** Month index, day of month and time of day determine the instant. */
  lemma CivilFields(t: int)
    ensures MonthStart(MonthIndex(t)) <= Day(t) < MonthStart(MonthIndex(t) + 1)
    ensures 1 <= DayOfMonth(t) <= MonthLength(MonthIndex(t))
    ensures Day(t) == MonthStart(MonthIndex(t)) + DayOfMonth(t) - 1
    ensures t == MakeDate(Day(t), TimeWithinDay(t)) && 0 <= TimeWithinDay(t) < MS_PER_DAY
  {
    SplitTime(t);
    hide MonthStart, DayFromYear, DaysBefore, IsLeap, YearFromDay, MonthFromDay, Day, TimeWithinDay, MakeDate;
    var y, m := YearFromDay(Day(t)), MonthFromDay(Day(t));
    DayInMonth(Day(t));
    MonthStartOf(y, m);
    MonthStartOf(y, m + 1);
  }

  /** An instant built from a month index, a day of that month and a time of day has those fields. */
  lemma CivilRead(i: int, date: int, time: int)
    requires 1 <= date <= MonthLength(i) && 0 <= time < MS_PER_DAY
    ensures var t := MakeDate(MonthStart(i) + date - 1, time);
            MonthIndex(t) == i && DayOfMonth(t) == date && TimeWithinDay(t) == time
            && Day(t) == MonthStart(i) + date - 1
  {
    hide MonthStart, MonthIndex, DayOfMonth, Day, TimeWithinDay, MakeDate;
    var t := MakeDate(MonthStart(i) + date - 1, time);
    JoinTime(MonthStart(i) + date - 1, time);
    CivilFields(t);
    MonthUnique(Day(t), i, MonthIndex(t));
  }

  // ---------------------------------------------------------------- the mutable Date

  /** A `Date` holds a time value, or NaN (None). TimeClip, section 21.4.1.31. */
  function TimeClip(t: int): Option<int> {
    if -MAX_TIME <= t <= MAX_TIME then Some(t) else None
  }

  function GetUTCDate(d: Option<int>): Option<int> {
    match d
    case None => None
    case Some(t) => Some(DateFromDay(Day(t)))
  }

  function SetUTCDate(d: Option<int>, date: int): Option<int> {
    match d
    case None => None
    case Some(t) =>
      TimeClip(MakeDate(MakeDay(YearFromDay(Day(t)), MonthFromDay(Day(t)), date), TimeWithinDay(t)))
  }

  function SetUTCMonth(d: Option<int>, month: int): Option<int> {
    match d
    case None => None
    case Some(t) =>
      TimeClip(MakeDate(MakeDay(YearFromDay(Day(t)), month, DateFromDay(Day(t))), TimeWithinDay(t)))
  }

  /** `DateTime.from` rejects NaN. */
  function FromDate(d: Option<int>): Result<int, DateTimeError> {
    match d
    case None => Err(InvalidDateTime)
    case Some(t) => Ok(t)
  }

  predicate IsDateTime(t: int) {
    -MAX_TIME <= t <= MAX_TIME
  }

  // ---------------------------------------------------------------- plusMonths

  /** The calendar meaning: n months on, the day clamped to the length of that month, same time of day. */
  function AddMonths(t: int, n: int): int {
    var target := MonthIndex(t) + n;
    MakeDate(MonthStart(target) + MinInt(DayOfMonth(t), MonthLength(target)) - 1, TimeWithinDay(t))
  }

  /** What AddMonths means field by field. */
  lemma AddMonthsFields(t: int, n: int)
    ensures MonthIndex(AddMonths(t, n)) == MonthIndex(t) + n
    ensures DayOfMonth(AddMonths(t, n)) == MinInt(DayOfMonth(t), MonthLength(MonthIndex(t) + n))
    ensures TimeWithinDay(AddMonths(t, n)) == TimeWithinDay(t)
  {
    hide MonthStart, MonthIndex, DayOfMonth, MonthLength, Day, TimeWithinDay, MakeDate;
    var target := MonthIndex(t) + n;
    CivilFields(t);
    MonthLengthBounds(target);
    CivilRead(target, MinInt(DayOfMonth(t), MonthLength(target)), TimeWithinDay(t));
  }

  /** One month is always 28 to 31 whole days. */
  lemma OneMonthIsDays(t: int)
    ensures exists days: int :: 28 <= days <= 31 && AddMonths(t, 1) == t + days * MS_PER_DAY
  {
    hide MonthStart, MonthIndex, DayOfMonth, Day, TimeWithinDay;
    var i := MonthIndex(t);
    CivilFields(t);
    MonthLengthBounds(i);
    MonthLengthBounds(i + 1);
    var days := MonthLength(i) + MinInt(DayOfMonth(t), MonthLength(i + 1)) - DayOfMonth(t);
    assert AddMonths(t, 1) == t + days * MS_PER_DAY;
  }

  /** The two ends of the time value range fall well inside a month. */
  lemma RangeEnds()
    ensures MonthStart(12 * 275760 + 8) == 100000000 - 12
    ensures MonthStart(12 * 275760 + 9) == 100000000 + 18
    ensures MonthStart(12 * -271821 + 3) == -100000000 - 19
    ensures MonthStart(12 * -271821 + 4) == -100000000 + 11
  {
    assert (12 * 275760 + 8) / 12 == 275760 && (12 * 275760 + 8) % 12 == 8;
    assert (12 * 275760 + 9) / 12 == 275760 && (12 * 275760 + 9) % 12 == 9;
    assert (12 * -271821 + 3) / 12 == -271821 && (12 * -271821 + 3) % 12 == 3;
    assert (12 * -271821 + 4) / 12 == -271821 && (12 * -271821 + 4) % 12 == 4;
  }

  /** Overflowing by at most three days past the end of month i never crosses an end of the range. */
  lemma OverflowKeepsRange(i: int, excess: int, time: int)
    requires 1 <= excess <= 3 && 0 <= time < MS_PER_DAY
    ensures IsDateTime(MakeDate(MonthStart(i + 1) - 1 + excess, time))
       <==> IsDateTime(MakeDate(MonthStart(i + 1) - 1, time))
  {
    hide MonthStart;
    var f := MonthStart(i + 1) - 1;
    RangeEnds();
    if i + 1 <= 12 * 275760 + 8 {
      MonthStartMonotone(i + 1, 12 * 275760 + 8);
    } else {
      MonthStartMonotone(12 * 275760 + 9, i + 1);
    }
    if i + 1 <= 12 * -271821 + 3 {
      MonthStartMonotone(i + 1, 12 * -271821 + 3);
    } else {
      MonthStartMonotone(12 * -271821 + 4, i + 1);
    }
  }

  /** setUTCMonth before clamping: keep the day number, even when the target month is too short. */
  lemma SetMonthValue(t: int, n: int)
    ensures SetUTCMonth(Some(t), MonthFromDay(Day(t)) + n)
         == TimeClip(MakeDate(MonthStart(MonthIndex(t) + n) + DayOfMonth(t) - 1, TimeWithinDay(t)))
  {
    hide YearFromDay, MonthFromDay, DateFromDay, Day, TimeWithinDay, MakeDay, MonthStart, MakeDate, TimeClip;
    MakeDayIndex(YearFromDay(Day(t)), MonthFromDay(Day(t)) + n, DayOfMonth(t));
  }

  lemma SetDateValue(t: int, date: int)
    ensures SetUTCDate(Some(t), date)
         == TimeClip(MakeDate(MonthStart(MonthIndex(t)) + date - 1, TimeWithinDay(t)))
  {
    hide YearFromDay, MonthFromDay, DateFromDay, Day, TimeWithinDay, MakeDay, MonthStart, MakeDate, TimeClip;
    MakeDayIndex(YearFromDay(Day(t)), MonthFromDay(Day(t)), date);
  }

  /** When the day fits, setUTCMonth alone gives the answer and the day is unchanged. */
  lemma Fitted(t: int, n: int)
    ensures DayOfMonth(t) <= MonthLength(MonthIndex(t) + n) ==>
              var d := SetUTCMonth(Some(t), MonthFromDay(Day(t)) + n);
              && d == TimeClip(AddMonths(t, n))
              && (d.Some? ==> GetUTCDate(d) == GetUTCDate(Some(t)))
  {
    hide YearFromDay, MonthFromDay, DateFromDay, SetUTCMonth, MonthIndex, Day, TimeWithinDay, MonthStart, MakeDate;
    CivilFields(t);
    SetMonthValue(t, n);
    if DayOfMonth(t) <= MonthLength(MonthIndex(t) + n) {
      CivilRead(MonthIndex(t) + n, DayOfMonth(t), TimeWithinDay(t));
    }
  }

  /** When it does not, setUTCMonth lands 1 to 3 days into the next month, and day 0 of that month is the clamp. */
  lemma Overflowed(t: int, n: int)
    ensures DayOfMonth(t) > MonthLength(MonthIndex(t) + n) ==>
              var d := SetUTCMonth(Some(t), MonthFromDay(Day(t)) + n);
              && SetUTCDate(d, 0) == TimeClip(AddMonths(t, n))
              && GetUTCDate(d) != GetUTCDate(Some(t))
  {
    hide YearFromDay, MonthFromDay, DateFromDay, SetUTCMonth, SetUTCDate, MonthIndex, Day, TimeWithinDay, MonthStart,
         MakeDate;
    var target := MonthIndex(t) + n;
    if DayOfMonth(t) > MonthLength(target) {
      var moved := MakeDate(MonthStart(target) + DayOfMonth(t) - 1, TimeWithinDay(t));
      CivilFields(t);
      MonthLengthBounds(MonthIndex(t));
      MonthLengthBounds(target);
      MonthLengthBounds(target + 1);
      CivilRead(target + 1, DayOfMonth(t) - MonthLength(target), TimeWithinDay(t));
      OverflowKeepsRange(target, DayOfMonth(t) - MonthLength(target), TimeWithinDay(t));
      SetMonthValue(t, n);
      SetDateValue(moved, 0);
      NaNStays(0);
    }
  }

  lemma NaNStays(date: int)
    ensures SetUTCDate(None, date) == None
  {
  }

  /** `DateTime.plusMonths`: overflow into the following month, then fall back to day 0 of it. */
  method PlusMonths(t: int, months: int) returns (r: Result<int, DateTimeError>)
    requires IsDateTime(t)
    ensures r == if IsDateTime(AddMonths(t, months)) then Ok(AddMonths(t, months)) else Err(InvalidDateTime)
  {
    hide GetUTCDate, SetUTCMonth, SetUTCDate, MonthFromDay, Day, AddMonths, DayOfMonth, MonthIndex, MonthStart;
    Fitted(t, months);
    Overflowed(t, months);
    NaNStays(0);
    var d := Some(t);
    var originalDay := GetUTCDate(d);
    d := SetUTCMonth(d, MonthFromDay(Day(t)) + months);
    if GetUTCDate(d) != originalDay {
      d := SetUTCDate(d, 0);
    }
    r := FromDate(d);
  }

  /** `DateTime.plusDays`: the date overflow carries into months and years. */
  method PlusDays(t: int, days: int) returns (r: Result<int, DateTimeError>)
    requires IsDateTime(t)
    ensures r == if IsDateTime(t + days * MS_PER_DAY) then Ok(t + days * MS_PER_DAY) else Err(InvalidDateTime)
  {
    hide Day, DateFromDay, SetUTCDate, MonthIndex, TimeWithinDay, MonthStart;
    var d := Some(t);
    SetDateValue(t, DayOfMonth(t) + days);
    CivilFields(t);
    d := SetUTCDate(d, DateFromDay(Day(t)) + days);
    r := FromDate(d);
  }

  // ---------------------------------------------------------------- repeated months

  lemma FieldsDetermine(t: int, u: int)
    ensures MonthIndex(t) == MonthIndex(u) && DayOfMonth(t) == DayOfMonth(u) ==>
              (TimeWithinDay(t) == TimeWithinDay(u) ==> t == u)
  {
    hide MonthIndex, DayOfMonth, TimeWithinDay, Day, MonthStart;
    CivilFields(t);
    CivilFields(u);
  }

  /** k single-month steps, as successive billing periods take them. */
  function Boundary(t: int, k: nat): int {
    if k == 0 then t else AddMonths(Boundary(t, k - 1), 1)
  }

  lemma {:induction false} BoundaryIncreases(t: int, k: nat)
    ensures Boundary(t, k) < Boundary(t, k + 1)
  {
    hide AddMonths;
    OneMonthIsDays(Boundary(t, k));
  }

  /**
   k steps land k months on, and the day is the least of the start day and the lengths
   of all the months visited: a short month shortens every later period too.
   */
  lemma {:induction false} BoundaryFields(t: int, k: nat)
    ensures MonthIndex(Boundary(t, k)) == MonthIndex(t) + k
    ensures TimeWithinDay(Boundary(t, k)) == TimeWithinDay(t)
    ensures DayOfMonth(Boundary(t, k)) <= DayOfMonth(t)
    ensures forall m :: MonthIndex(t) < m <= MonthIndex(t) + k ==> DayOfMonth(Boundary(t, k)) <= MonthLength(m)
    ensures DayOfMonth(Boundary(t, k)) == DayOfMonth(t)
         || exists m :: MonthIndex(t) < m <= MonthIndex(t) + k && DayOfMonth(Boundary(t, k)) == MonthLength(m)
  {
    hide AddMonths, MonthIndex, DayOfMonth, TimeWithinDay, MonthLength;
    if k > 0 {
      BoundaryFields(t, k - 1);
      AddMonthsFields(Boundary(t, k - 1), 1);
    }
  }

  /**
   k single steps agree with one step of k months exactly when no month strictly in between
   is shorter than the day that one step of k months lands on.
   */
  lemma BoundaryAgrees(t: int, k: nat)
    ensures Boundary(t, k) == AddMonths(t, k)
       <==> forall m :: MonthIndex(t) < m < MonthIndex(t) + k ==> DayOfMonth(AddMonths(t, k)) <= MonthLength(m)
  {
    hide AddMonths, MonthIndex, DayOfMonth, TimeWithinDay, MonthLength;
    BoundaryFields(t, k);
    AddMonthsFields(t, k);
    CivilFields(t);
    if forall m :: MonthIndex(t) < m < MonthIndex(t) + k ==> DayOfMonth(AddMonths(t, k)) <= MonthLength(m) {
      FieldsDetermine(Boundary(t, k), AddMonths(t, k));
    }
  }
}
