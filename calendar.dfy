/**
 * Calendar dates as whole day numbers (days since 1970-01-01 in the device's
 * local time, as a `Date` set to midnight denotes them), the proleptic
 * Gregorian calendar that `Date` uses, and months as (year, zero-based month)
 * pairs, the way `getFullYear()` and `getMonth()` report them.
 */
module Calendar {
  import opened Text

  datatype Civil = Civil(year: int, month: int, day: int)

  /** The calendar date of day number `z` (month 1..12, day 1..31). */
  function CivilFromDays(z: int): (c: Civil)
    ensures 1 <= c.month <= 12 && 1 <= c.day <= 31
    ensures z >= -719468 ==> c.year >= 0
  {
    var z' := z + 719468;
    var era := z' / 146097;
    var doe := z' % 146097;
    var yoe := (doe - doe / 1460 + doe / 36524 - doe / 146096) / 365;
    var doy := doe - (365 * yoe + yoe / 4 - yoe / 100);
    var mp := (5 * doy + 2) / 153;
    var d := doy - (153 * mp + 2) / 5 + 1;
    var m := if mp < 10 then mp + 3 else mp - 9;
    Civil(yoe + era * 400 + (if m <= 2 then 1 else 0), m, d)
  }

  /** `CivilFromDays` from its intermediate quantities, each a single step to check for a given day. */
  lemma CivilFromDaysSteps(z: int, era: int, doe: int, yoe: int, doy: int, mp: int, y: int, m: int, d: int)
    requires (z + 719468) / 146097 == era && (z + 719468) % 146097 == doe
    requires yoe == (doe - doe / 1460 + doe / 36524 - doe / 146096) / 365
    requires doy == doe - (365 * yoe + yoe / 4 - yoe / 100)
    requires mp == (5 * doy + 2) / 153
    requires d == doy - (153 * mp + 2) / 5 + 1
    requires m == (if mp < 10 then mp + 3 else mp - 9)
    requires y == yoe + era * 400 + (if m <= 2 then 1 else 0)
    ensures CivilFromDays(z) == Civil(y, m, d)
  {
  }

  /**
   * The day number of year `y`, month `m` (1..12), day `d`. A day past the end
   * of the month runs on into the next month, as `Date` arithmetic does.
   */
  function DaysFromCivil(y: int, m: int, d: int): int {
    var y' := if m <= 2 then y - 1 else y;
    var era := y' / 400;
    var yoe := y' % 400;
    var doy := (153 * (if m > 2 then m - 3 else m + 9) + 2) / 5 + d - 1;
    var doe := yoe * 365 + yoe / 4 - yoe / 100 + doy;
    era * 146097 + doe - 719468
  }

  /** A month: its year and its zero-based month (0 = January), as `getMonth()` numbers them. */
  datatype YearMonth = YearMonth(year: int, month0: int)

  predicate ValidMonth(ym: YearMonth) {
    0 <= ym.month0 < 12
  }

  /** The month a day falls in. */
  function MonthOf(z: int): (ym: YearMonth)
    ensures ValidMonth(ym)
    ensures z >= -719468 ==> ym.year >= 0
  {
    var c := CivilFromDays(z);
    YearMonth(c.year, c.month - 1)
  }

  /** Months counted from January of year 0. */
  function Index(ym: YearMonth): int {
    ym.year * 12 + ym.month0
  }

  function FromIndex(i: int): (ym: YearMonth)
    ensures ValidMonth(ym) && Index(ym) == i
  {
    YearMonth(i / 12, i % 12)
  }

  /** Counting months is one-to-one on well-formed months. */
  lemma IndexInjective(a: YearMonth, b: YearMonth)
    requires ValidMonth(a) && ValidMonth(b) && Index(a) == Index(b)
    ensures a == b
  {
    assert a.year == b.year;
  }

  /** The month `d` months after `ym` (before it for negative `d`), carrying into the year. */
  function Shift(ym: YearMonth, d: int): (r: YearMonth)
    ensures ValidMonth(r) && Index(r) == Index(ym) + d
  {
    FromIndex(Index(ym) + d)
  }

  /** Shifting a well-formed month carries the month count into the year the way `setMonth` does. */
  lemma ShiftCarry(year: int, month0: int, d: int)
    requires 0 <= month0 < 12
    ensures Shift(YearMonth(year, month0), d) == YearMonth(year + (month0 + d) / 12, (month0 + d) % 12)
  {
    IndexInjective(Shift(YearMonth(year, month0), d), YearMonth(year + (month0 + d) / 12, (month0 + d) % 12));
  }

  lemma ShiftZero(ym: YearMonth)
    requires ValidMonth(ym)
    ensures Shift(ym, 0) == ym
  {
    IndexInjective(Shift(ym, 0), ym);
  }

  /** Shifting by `a` then by `b` is shifting by `a + b`; in particular shifting back undoes shifting forward. */
  lemma ShiftCompose(ym: YearMonth, a: int, b: int)
    ensures Shift(Shift(ym, a), b) == Shift(ym, a + b)
  {
    IndexInjective(Shift(Shift(ym, a), b), Shift(ym, a + b));
  }

  lemma ShiftInverse(ym: YearMonth, d: int)
    requires ValidMonth(ym)
    ensures Shift(Shift(ym, d), -d) == ym
  {
    ShiftCompose(ym, d, -d);
    ShiftZero(ym);
  }

  /** The dictionary key `${getFullYear()}-${getMonth()}` of a month. */
  function MonthKey(ym: YearMonth): string {
    IntToString(ym.year) + "-" + IntToString(ym.month0)
  }

  /** The key of the month a day falls in. */
  function MonthKeyOfDay(z: int): string {
    MonthKey(MonthOf(z))
  }

  /** Different months of the years from 0 on have different keys. */
  lemma MonthKeyInjective(a: YearMonth, b: YearMonth)
    requires a.year >= 0 && b.year >= 0 && a.month0 >= 0 && b.month0 >= 0
    requires MonthKey(a) == MonthKey(b)
    ensures a == b
  {
    var ya, ma := NatToString(a.year), NatToString(a.month0);
    var yb, mb := NatToString(b.year), NatToString(b.month0);
    assert MonthKey(a) == ya + ['-'] + ma;
    assert MonthKey(b) == yb + ['-'] + mb;
    BeforeFirstOfJoin(ya, '-', ma);
    BeforeFirstOfJoin(yb, '-', mb);
    NatToStringInjective(a.year, b.year);
    assert ma == MonthKey(a)[|ya| + 1..];
    assert mb == MonthKey(b)[|yb| + 1..];
    NatToStringInjective(a.month0, b.month0);
  }

  /** Two days from year 0 on have the same month key exactly when they fall in the same month. */
  lemma SameMonthKeyIffSameMonth(z1: int, z2: int)
    requires z1 >= -719468 && z2 >= -719468
    ensures MonthKeyOfDay(z1) == MonthKeyOfDay(z2) <==> MonthOf(z1) == MonthOf(z2)
  {
    if MonthKeyOfDay(z1) == MonthKeyOfDay(z2) {
      MonthKeyInjective(MonthOf(z1), MonthOf(z2));
    }
  }
}
