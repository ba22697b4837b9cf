/**
 * The date picker: the bookable days from `today + minAdvanceDays` to
 * `today + maxAdvanceDays`, those days bucketed by month, and the month the
 * picker currently shows, which the arrows move back and forth.
 */
module DateSelector {
  import opened Wrappers
  import opened Calendar
  import opened Grouping

  /** `isDateSelected`: no selection selects nothing; otherwise the two dates must be the same calendar day. */
  function IsDateSelected(date: int, selected: Option<int>): (b: bool)
    ensures b ==> selected == Some(date)
    ensures selected == Some(date) ==> b
    ensures selected.None? ==> !b
  {
    selected.Some? && selected.value == date
  }

  /** The notice about the booking window is shown when the window is narrower than "from today, up to a year". */
  predicate ShowsPolicyNotice(minAdvanceDays: int, maxAdvanceDays: int) {
    minAdvanceDays > 0 || maxAdvanceDays < 365
  }

  /** The default window of 0 to 30 days shows the notice; only a window of 0 to 365 days or more hides it. */
  lemma PolicyNoticeWindows(minAdvanceDays: int, maxAdvanceDays: int)
    ensures ShowsPolicyNotice(0, 30)
    ensures !ShowsPolicyNotice(minAdvanceDays, maxAdvanceDays) <==> minAdvanceDays <= 0 && maxAdvanceDays >= 365
  {
  }

  /** `groupDatesByMonth`: the bookable days bucketed by the key of their month, keys in order of first appearance. */
  method GroupDatesByMonth(dates: seq<int>) returns (keys: seq<string>, groups: map<string, seq<int>>)
    ensures keys == KeysInOrder(dates, MonthKeyOfDay)
    ensures forall k :: k in groups <==> k in keys
    ensures forall k :: k in groups ==> groups[k] == Select(dates, MonthKeyOfDay, k)
  {
    keys, groups := GroupBy(dates, MonthKeyOfDay);
  }

  /**
   * Two days from year 0 on share a month group exactly when they fall in the
   * same month, so each group is one calendar month in date order.
   */
  lemma MonthGroupIsOneMonth(dates: seq<int>, z: int, i: int)
    requires 0 <= i < |dates| && dates[i] >= -719468 && z >= -719468
    ensures dates[i] in Select(dates, MonthKeyOfDay, MonthKeyOfDay(z)) <==> MonthOf(dates[i]) == MonthOf(z)
  {
    SameMonthKeyIffSameMonth(dates[i], z);
    SelectMultiplicity(dates, MonthKeyOfDay, MonthKeyOfDay(z), dates[i]);
    assert dates[i] in multiset(dates);
  }

  /** The state of one picker: the day it was opened on, the company's window, and the month on screen. */
  class DatePicker {
    const today: int
    const minAdvanceDays: int
    const maxAdvanceDays: int
    var currentMonth: YearMonth

    /** The picker opens on the month of `today`. */
    constructor (today: int, minAdvanceDays: int, maxAdvanceDays: int)
      ensures this.today == today && this.minAdvanceDays == minAdvanceDays && this.maxAdvanceDays == maxAdvanceDays
      ensures currentMonth == MonthOf(today)
    {
      this.today := today;
      this.minAdvanceDays := minAdvanceDays;
      this.maxAdvanceDays := maxAdvanceDays;
      currentMonth := MonthOf(today);
    }

    /**
     * `generateAvailableDates`: one day for each offset from `minAdvanceDays`
     * to `maxAdvanceDays` inclusive, in ascending order, one day apart.
     */
    method GenerateAvailableDates() returns (dates: seq<int>)
      ensures |dates| == if minAdvanceDays <= maxAdvanceDays then maxAdvanceDays - minAdvanceDays + 1 else 0
      ensures forall k :: 0 <= k < |dates| ==> dates[k] == today + minAdvanceDays + k
    {
      dates := [];
      var i := minAdvanceDays;
      while i <= maxAdvanceDays
        invariant minAdvanceDays <= i
        invariant i <= maxAdvanceDays + 1 || i == minAdvanceDays
        invariant |dates| == i - minAdvanceDays
        invariant forall k :: 0 <= k < |dates| ==> dates[k] == today + minAdvanceDays + k
        decreases maxAdvanceDays - i
      {
        dates := dates + [today + i];
        i := i + 1;
      }
    }

    /**
     * `getCurrentMonthDates`: the group of the month on screen, or no dates
     * (`|| []`) when no bookable day falls in it.
     */
    method GetCurrentMonthDates(dates: seq<int>, groups: map<string, seq<int>>) returns (r: seq<int>)
      requires forall k :: k in groups <==> k in KeysInOrder(dates, MonthKeyOfDay)
      requires forall k :: k in groups ==> groups[k] == Select(dates, MonthKeyOfDay, k)
      ensures r == Select(dates, MonthKeyOfDay, MonthKey(currentMonth))
      ensures r == [] <==> forall i :: 0 <= i < |dates| ==> MonthKeyOfDay(dates[i]) != MonthKey(currentMonth)
    {
      var key := MonthKey(currentMonth);
      SelectEmptyIffAbsent(dates, MonthKeyOfDay, key);
      if key in groups {
        r := groups[key];
      } else {
        r := [];
      }
    }

    /** `navigateMonth(direction)`: show the month `direction` months away from the one on screen. */
    method NavigateMonth(direction: int)
      modifies this
      ensures currentMonth == Shift(old(currentMonth), direction)
      ensures Index(currentMonth) == Index(old(currentMonth)) + direction
    {
      currentMonth := Shift(currentMonth, direction);
    }
  }

  /**
   * `navigateMonth` as the component writes it: the month on screen is a
   * whole `Date` that keeps the day of the month it was created on, and
   * `setMonth(getMonth() + direction)` keeps that day, so a day the target
   * month does not have runs on into the month after it.
   */
  function NavigateMonthAsWritten(current: int, direction: int): int {
    var c := CivilFromDays(current);
    var m := c.month - 1 + direction;
    DaysFromCivil(c.year + m / 12, m % 12 + 1, 1) + c.day - 1
  }

  /**
   * The date the arrow leads to lies as many days after the first of the
   * intended month as the day on screen had before it, so up to 30 days past
   * that first day: the overflow never goes beyond the month after.
   */
  lemma NavigateMonthAsWrittenKeepsDay(current: int, direction: int)
    ensures var t := Shift(MonthOf(current), direction);
      NavigateMonthAsWritten(current, direction) - DaysFromCivil(t.year, t.month0 + 1, 1)
        == CivilFromDays(current).day - 1 <= 30
  {
    var c := CivilFromDays(current);
    KeepsDayOfMonth(c.year, c.month, c.day, direction);
  }

  /** The arithmetic of `NavigateMonthAsWrittenKeepsDay`, for any date with a month number from 1 to 12. */
  lemma KeepsDayOfMonth(year: int, month: int, day: int, direction: int)
    requires 1 <= month <= 12
    ensures var m := month - 1 + direction;
      var t := Shift(YearMonth(year, month - 1), direction);
      t.year == year + m / 12 && t.month0 + 1 == m % 12 + 1
  {
    ShiftCarry(year, month - 1, direction);
  }

  lemma DayNumberOf31January2027()
    ensures DaysFromCivil(2027, 1, 31) == 20849
  {
  }

  lemma DateOfDay20849()
    ensures CivilFromDays(20849) == Civil(2027, 1, 31)
    ensures MonthOf(20849) == YearMonth(2027, 0)
  {
    CivilFromDaysSteps(20849, 5, 9832, 26, 336, 10, 2027, 1, 31);
  }

  lemma DayNumberOf3March2027()
    ensures DaysFromCivil(2027, 3, 3) == 20880
  {
  }

  lemma DateOfDay20880()
    ensures CivilFromDays(20880) == Civil(2027, 3, 3)
    ensures MonthOf(20880) == YearMonth(2027, 2)
  {
    CivilFromDaysSteps(20880, 5, 9863, 27, 2, 0, 2027, 3, 3);
  }

  lemma DateOfDay20852()
    ensures CivilFromDays(20852) == Civil(2027, 2, 3)
    ensures MonthOf(20852) == YearMonth(2027, 1)
  {
    CivilFromDaysSteps(20852, 5, 9835, 26, 339, 11, 2027, 2, 3);
  }

  lemma ForwardFrom31January2027()
    ensures NavigateMonthAsWritten(20849, 1) == 20880
  {
    DateOfDay20849();
    var c := CivilFromDays(20849);
    var m := c.month - 1 + 1;
    assert m == 1 && c.year + m / 12 == 2027 && m % 12 + 1 == 2;
    assert DaysFromCivil(2027, 2, 1) == 20850;
  }

  lemma BackFrom3March2027()
    ensures NavigateMonthAsWritten(20880, -1) == 20852
  {
    DateOfDay20880();
    var c := CivilFromDays(20880);
    var m := c.month - 1 + -1;
    assert m == 1 && c.year + m / 12 == 2027 && m % 12 + 1 == 2;
    assert DaysFromCivil(2027, 2, 1) == 20850;
  }

  /**
   * Opened on 31 January 2027, one press of the arrow forward lands on
   * 3 March and skips February; February is reached only by pressing the
   * arrow back from there, which leads to 3 February, not to January.
   */
  lemma NavigateMonthAsWrittenSkipsFebruary()
    ensures DaysFromCivil(2027, 1, 31) == 20849 && MonthOf(20849) == YearMonth(2027, 0)
    ensures NavigateMonthAsWritten(20849, 1) == 20880 == DaysFromCivil(2027, 3, 3)
    ensures MonthOf(20880) == YearMonth(2027, 2) && Index(MonthOf(20880)) == Index(MonthOf(20849)) + 2
    ensures NavigateMonthAsWritten(20880, -1) == 20852 && MonthOf(20852) == YearMonth(2027, 1)
  {
    ForwardSkipsFebruary();
    BackReachesFebruary();
  }

  /** One press forward from 31 January 2027 moves two months, to 3 March. */
  lemma ForwardSkipsFebruary()
    ensures DaysFromCivil(2027, 1, 31) == 20849 && MonthOf(20849) == YearMonth(2027, 0)
    ensures NavigateMonthAsWritten(20849, 1) == 20880 == DaysFromCivil(2027, 3, 3)
    ensures MonthOf(20880) == YearMonth(2027, 2)
  {
    DayNumberOf31January2027();
    DayNumberOf3March2027();
    ForwardFrom31January2027();
    DateOfDay20849();
    DateOfDay20880();
  }

  /** One press back from 3 March 2027 lands in February. */
  lemma BackReachesFebruary()
    ensures NavigateMonthAsWritten(20880, -1) == 20852 && MonthOf(20852) == YearMonth(2027, 1)
  {
    BackFrom3March2027();
    DateOfDay20852();
  }

  /** With months kept as (year, month) pairs, navigating never skips a month, and going back undoes going forward. */
  lemma NavigateMonthCorrected(ym: YearMonth, direction: int)
    requires ValidMonth(ym)
    ensures Index(Shift(ym, direction)) == Index(ym) + direction
    ensures Shift(Shift(ym, direction), -direction) == ym
    ensures Shift(ym, 1) != ym
  {
    ShiftInverse(ym, direction);
  }
}
