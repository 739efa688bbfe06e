/**
 * Proleptic Gregorian dates as Python's `datetime` and `calendar` use them:
 * month lengths, stepping by days, the weekday of a date, and the month grid
 * of `calendar.monthcalendar`.
 */
module Gregorian {

  datatype Date = Date(year: int, month: int, day: int)

  predicate IsLeap(y: int) {
    (y % 4 == 0 && y % 100 != 0) || y % 400 == 0
  }

  function DaysInMonth(y: int, m: int): (n: int)
    requires 1 <= m <= 12
    ensures 28 <= n <= 31
  {
    if m == 2 then (if IsLeap(y) then 29 else 28)
    else if m == 4 || m == 6 || m == 9 || m == 11 then 30
    else 31
  }

  /** Month and day are in range; the year is unbounded here. */
  predicate InMonth(d: Date) {
    1 <= d.month <= 12 && 1 <= d.day <= DaysInMonth(d.year, d.month)
  }

  /** The years a `datetime` can hold. */
  predicate InDatetimeRange(d: Date) {
    1 <= d.year <= 9999 && InMonth(d)
  }

  /** The month after `(y, m)`. */
  function FollowingMonth(y: int, m: int): (int, int)
    requires 1 <= m <= 12
  {
    if m == 12 then (y + 1, 1) else (y, m + 1)
  }

  /** The month before `(y, m)`. */
  function PrecedingMonth(y: int, m: int): (int, int)
    requires 1 <= m <= 12
  {
    if m == 1 then (y - 1, 12) else (y, m - 1)
  }

  /** `d + timedelta(days=1)`. */
  function NextDay(d: Date): (e: Date)
    requires InMonth(d)
    ensures InMonth(e)
  {
    if d.day < DaysInMonth(d.year, d.month) then d.(day := d.day + 1)
    else if d.month < 12 then Date(d.year, d.month + 1, 1)
    else Date(d.year + 1, 1, 1)
  }

  /** `d - timedelta(days=1)`. */
  function PreviousDay(d: Date): (e: Date)
    requires InMonth(d)
    ensures InMonth(e)
  {
    if d.day > 1 then d.(day := d.day - 1)
    else if d.month > 1 then Date(d.year, d.month - 1, DaysInMonth(d.year, d.month - 1))
    else Date(d.year - 1, 12, 31)
  }

  /** `d + timedelta(days=n)`, one day at a time. */
  function AddDays(d: Date, n: nat): (e: Date)
    requires InMonth(d)
    ensures InMonth(e)
    decreases n
  {
    if n == 0 then d else AddDays(NextDay(d), n - 1)
  }

  lemma {:induction false} AddDaysSplit(d: Date, a: nat, b: nat)
    requires InMonth(d)
    ensures AddDays(d, a + b) == AddDays(AddDays(d, a), b)
    decreases a
  {
    if a > 0 {
      AddDaysSplit(NextDay(d), a - 1, b);
    }
  }

  lemma {:induction false} AddDaysWithinMonth(d: Date, n: nat)
    requires InMonth(d) && d.day + n <= DaysInMonth(d.year, d.month)
    ensures AddDays(d, n) == d.(day := d.day + n)
    decreases n
  {
    if n > 0 {
      AddDaysWithinMonth(NextDay(d), n - 1);
    }
  }

  /**
   * 31 days after the 1st of a month is always in the following month, on
   * day 32 minus the month's length (1 to 4): no month is ever skipped.
   */
  lemma FirstPlus31(y: int, m: int)
    requires 1 <= m <= 12
    ensures var e := AddDays(Date(y, m, 1), 31);
      (e.year, e.month) == FollowingMonth(y, m) && e.day == 32 - DaysInMonth(y, m) && 1 <= e.day <= 4
  {
    var dim := DaysInMonth(y, m);
    var first := Date(y, m, 1);
    var (ny, nm) := FollowingMonth(y, m);
    AddDaysSplit(first, dim - 1, 32 - dim);
    AddDaysWithinMonth(first, dim - 1);
    var last := Date(y, m, dim);
    assert AddDays(last, 32 - dim) == AddDays(Date(ny, nm, 1), 31 - dim);
    AddDaysWithinMonth(Date(ny, nm, 1), 31 - dim);
  }

  /** The day before the 1st is the last day of the preceding month. */
  lemma FirstMinusOne(y: int, m: int)
    requires 1 <= m <= 12
    ensures var e := PreviousDay(Date(y, m, 1));
      (e.year, e.month) == PrecedingMonth(y, m) && e.day == DaysInMonth(e.year, e.month)
  {
  }

  /** Days in the months of year `y` before month `m`. */
  function DaysBeforeMonth(y: int, m: int): int
    requires 1 <= m <= 12
    decreases m
  {
    if m == 1 then 0 else DaysBeforeMonth(y, m - 1) + DaysInMonth(y, m - 1)
  }

  /** Days in the years before year `y`, counted from 1 January of year 1. */
  function DaysBeforeYear(y: int): int {
    var p := y - 1;
    365 * p + p / 4 - p / 100 + p / 400
  }

  /** `date.toordinal()`: 1 January of year 1 is day 1. */
  function Ordinal(d: Date): int
    requires 1 <= d.month <= 12
  {
    DaysBeforeYear(d.year) + DaysBeforeMonth(d.year, d.month) + d.day
  }

  /** `date.weekday()`: Monday is 0 and Sunday is 6. */
  function Weekday(d: Date): (w: int)
    requires 1 <= d.month <= 12
    ensures 0 <= w < 7
  {
    (Ordinal(d) + 6) % 7
  }

  lemma DaysInYear(y: int)
    ensures DaysBeforeMonth(y, 12) + 31 == if IsLeap(y) then 366 else 365
  {
  }

  lemma DaysBeforeNextYear(y: int)
    ensures DaysBeforeYear(y + 1) == DaysBeforeYear(y) + if IsLeap(y) then 366 else 365
  {
    LeapDivisorsStep(y);
    if y % 100 == 0 {
      CenturyIsFourth(y);
    }
    if y % 400 == 0 {
      FourCenturiesIsCentury(y);
    }
  }

  lemma CenturyIsFourth(y: int)
    requires y % 100 == 0
    ensures y % 4 == 0
  {
    assert y == 4 * (25 * (y / 100));
  }

  lemma FourCenturiesIsCentury(y: int)
    requires y % 400 == 0
    ensures y % 100 == 0
  {
    assert y == 100 * (4 * (y / 400));
  }

  /** Going from `y - 1` to `y` raises `y / n` by one exactly when `n` divides `y`, for the three leap-year divisors. */
  lemma LeapDivisorsStep(y: int)
    ensures y / 4 - (y - 1) / 4 == if y % 4 == 0 then 1 else 0
    ensures y / 100 - (y - 1) / 100 == if y % 100 == 0 then 1 else 0
    ensures y / 400 - (y - 1) / 400 == if y % 400 == 0 then 1 else 0
  {
  }

  /** The ordinal counts days: the next day has the next ordinal. */
  lemma NextDayOrdinal(d: Date)
    requires InMonth(d)
    ensures Ordinal(NextDay(d)) == Ordinal(d) + 1
  {
    if d.day == DaysInMonth(d.year, d.month) && d.month == 12 {
      DaysInYear(d.year);
      DaysBeforeNextYear(d.year);
    }
  }

  /** Shifting before or after reducing modulo 7 gives the same residue. */
  lemma ModSevenShift(a: int, b: int)
    ensures (a + b) % 7 == (a % 7 + b) % 7
  {
    var q := a / 7;
    assert a + b == 7 * q + (a % 7 + b);
    assert a % 7 + b == 7 * (-q) + (a + b);
  }

  /** Stepping a day forward steps the weekday forward, Sunday wrapping to Monday. */
  lemma NextDayWeekday(d: Date)
    requires InMonth(d)
    ensures Weekday(NextDay(d)) == (Weekday(d) + 1) % 7
  {
    NextDayOrdinal(d);
    ModSevenShift(Ordinal(d) + 6, 1);
  }

  /** Within a month, day `d` falls `d - 1` weekdays after the 1st. */
  lemma WeekdayInMonth(y: int, m: int, d: int)
    requires 1 <= m <= 12
    ensures Weekday(Date(y, m, d)) == (Weekday(Date(y, m, 1)) + d - 1) % 7
  {
    var o := Ordinal(Date(y, m, 1));
    assert Ordinal(Date(y, m, d)) == o + d - 1;
    ModSevenShift(o + 6, d - 1);
  }

  function Zeros(n: nat): (s: seq<int>)
    ensures |s| == n && forall i :: 0 <= i < n ==> s[i] == 0
  {
    seq(n, i => 0)
  }

  /** The integers `lo .. hi - 1`, as `range(lo, hi)`. */
  function Range(lo: int, hi: int): (s: seq<int>)
    ensures |s| == if hi > lo then hi - lo else 0
    ensures forall i :: 0 <= i < |s| ==> s[i] == lo + i
  {
    if hi > lo then seq(hi - lo, i => lo + i) else []
  }

  /** `calendar.Calendar().itermonthdays(y, m)`: zeros pad the weeks before the 1st and after the last day. */
  function MonthDays(y: int, m: int): (s: seq<int>)
    requires 1 <= m <= 12
    ensures |s| % 7 == 0
  {
    var wd := Weekday(Date(y, m, 1));
    var dim := DaysInMonth(y, m);
    Zeros(wd) + Range(1, dim + 1) + Zeros((-wd - dim) % 7)
  }

  /** Cut a sequence into rows of seven. */
  function Weeks(s: seq<int>): (rows: seq<seq<int>>)
    requires |s| % 7 == 0
    ensures |rows| == |s| / 7
    ensures forall i :: 0 <= i < |rows| ==> |rows[i]| == 7
    decreases |s|
  {
    if s == [] then [] else [s[..7]] + Weeks(s[7..])
  }

  lemma {:induction false} WeeksAt(s: seq<int>, i: int, j: int)
    requires |s| % 7 == 0 && 0 <= i < |s| / 7 && 0 <= j < 7
    ensures Weeks(s)[i][j] == s[7 * i + j]
    decreases |s|
  {
    if i > 0 {
      WeeksAt(s[7..], i - 1, j);
    }
  }

  /** `calendar.monthcalendar(y, m)`: the weeks of the month, Monday first, 0 outside the month. */
  function MonthCalendar(y: int, m: int): (weeks: seq<seq<int>>)
    requires 1 <= m <= 12
    ensures forall i :: 0 <= i < |weeks| ==> |weeks[i]| == 7
  {
    Weeks(MonthDays(y, m))
  }

  /**
   * Every day of the month sits in the grid exactly in the column of its
   * weekday, in reading order, and every other cell is 0.
   */
  lemma MonthCalendarPlacesDays(y: int, m: int, d: int)
    requires 1 <= m <= 12 && 1 <= d <= DaysInMonth(y, m)
    ensures var k := Weekday(Date(y, m, 1)) + d - 1;
      && k / 7 < |MonthCalendar(y, m)|
      && MonthCalendar(y, m)[k / 7][k % 7] == d
      && k % 7 == Weekday(Date(y, m, d))
  {
    var wd := Weekday(Date(y, m, 1));
    var k := wd + d - 1;
    var s := MonthDays(y, m);
    assert s[k] == d;
    WeeksAt(s, k / 7, k % 7);
    WeekdayInMonth(y, m, d);
  }

  /** A cell of the grid holds 0 or a day of the month, and the day in cell `(i, j)` is determined by its position. */
  lemma MonthCalendarCells(y: int, m: int, i: int, j: int)
    requires 1 <= m <= 12 && 0 <= i < |MonthCalendar(y, m)| && 0 <= j < 7
    ensures var c := MonthCalendar(y, m)[i][j];
      && 0 <= c <= DaysInMonth(y, m)
      && (c != 0 ==> c == 7 * i + j - Weekday(Date(y, m, 1)) + 1)
  {
    var s := MonthDays(y, m);
    WeeksAt(s, i, j);
  }
}
