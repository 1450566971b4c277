/**
  The part of the JavaScript `Date` the calendar relies on: a local date seen
  through `getFullYear()`, `getMonth()` (0 = January) and `getDate()`, and the
  constructor `new Date(year, month, day)`, which rolls a day outside the
  month into the neighbouring months (section 21.4.1.28, MakeDay, of
  ECMA-262) and reads a year from 0 to 99 as 1900 + year.
*/
module JsDate {

  datatype CalDate = CalDate(year: int, month: int, day: int)

  predicate IsLeapYear(y: int)
  {
    (y % 4 == 0 && y % 100 != 0) || y % 400 == 0
  }

  function DaysInMonth(y: int, m: int): (n: int)
    requires 0 <= m < 12
    ensures 28 <= n <= 31
    ensures n == 29 <==> m == 1 && IsLeapYear(y)
  {
    if m == 1 then (if IsLeapYear(y) then 29 else 28)
    else if m == 3 || m == 5 || m == 8 || m == 10 then 30
    else 31
  }

  /** A date that getMonth and getDate can report. */
  predicate Valid(d: CalDate)
  {
    0 <= d.month < 12 && 1 <= d.day <= DaysInMonth(d.year, d.month)
  }

  /** The year the constructor uses for a `year` argument. */
  function FullYear(year: int): (y: int)
    ensures 100 <= year ==> y == year
    ensures 0 <= year < 100 ==> y == 1900 + year
  {
    if 0 <= year <= 99 then 1900 + year else year
  }

  /** Day number of 1 January of `y`, counted from 1 January 1970 (DayFromYear in ECMA-262). */
  function DayFromYear(y: int): int
  {
    365 * (y - 1970) + (y - 1969) / 4 - (y - 1901) / 100 + (y - 1601) / 400
  }

  /** Days in the months of `y` before month `m`. */
  function DaysBeforeMonth(y: int, m: int): int
    requires 0 <= m <= 12
  {
    if m == 0 then 0 else DaysBeforeMonth(y, m - 1) + DaysInMonth(y, m - 1)
  }

  /** The day number `new Date(y, m, d)` stands for, for any `d`. */
  function DayNumber(y: int, m: int, d: int): int
    requires 0 <= m < 12
  {
    DayFromYear(y) + DaysBeforeMonth(y, m) + d - 1
  }

  /** A year has 366 days exactly when it is a leap year. */
  lemma YearLength(y: int)
    ensures DayFromYear(y + 1) - DayFromYear(y) == if IsLeapYear(y) then 366 else 365
  {
    LeapStep4(y);
    LeapStep100(y);
    LeapStep400(y);
    Divides400(y);
    Divides100(y);
    var a0, a1 := (y - 1969) / 4, (y - 1968) / 4;
    var b0, b1 := (y - 1901) / 100, (y - 1900) / 100;
    var c0, c1 := (y - 1601) / 400, (y - 1600) / 400;
    assert DayFromYear(y) == 365 * (y - 1970) + a0 - b0 + c0;
    assert DayFromYear(y + 1) == 365 * (y - 1969) + a1 - b1 + c1;
  }

  lemma Divides400(y: int)
    ensures y % 400 == 0 ==> y % 100 == 0
  {
    if y % 400 == 0 {
      assert y == 100 * (4 * (y / 400));
    }
  }

  lemma Divides100(y: int)
    ensures y % 100 == 0 ==> y % 4 == 0
  {
    if y % 100 == 0 {
      assert y == 4 * (25 * (y / 100));
    }
  }

  lemma LeapStep4(y: int)
    ensures (y - 1968) / 4 - (y - 1969) / 4 == if y % 4 == 0 then 1 else 0
  {
  }

  lemma LeapStep100(y: int)
    ensures (y - 1900) / 100 - (y - 1901) / 100 == if y % 100 == 0 then 1 else 0
  {
  }

  lemma LeapStep400(y: int)
    ensures (y - 1600) / 400 - (y - 1601) / 400 == if y % 400 == 0 then 1 else 0
  {
  }

  /** The twelve months of `y` add up to the length of the year. */
  lemma DaysBeforeYearEnd(y: int)
    ensures DaysBeforeMonth(y, 11) + DaysInMonth(y, 11) == if IsLeapYear(y) then 366 else 365
  {
    var feb := DaysInMonth(y, 1);
    assert DaysBeforeMonth(y, 1) == 31;
    assert DaysBeforeMonth(y, 2) == 31 + feb;
    assert DaysBeforeMonth(y, 3) == 62 + feb;
    assert DaysBeforeMonth(y, 4) == 92 + feb;
    assert DaysBeforeMonth(y, 5) == 123 + feb;
    assert DaysBeforeMonth(y, 6) == 153 + feb;
    assert DaysBeforeMonth(y, 7) == 184 + feb;
    assert DaysBeforeMonth(y, 8) == 215 + feb;
    assert DaysBeforeMonth(y, 9) == 245 + feb;
    assert DaysBeforeMonth(y, 10) == 276 + feb;
    assert DaysBeforeMonth(y, 11) == 306 + feb;
  }

  /** The day walk of the constructor; the day number never changes along it. */
  function Normalize(y: int, m: int, d: int): (r: CalDate)
    requires 0 <= m < 12
    ensures Valid(r)
    ensures DayNumber(r.year, r.month, r.day) == DayNumber(y, m, d)
    ensures 1 <= d <= DaysInMonth(y, m) ==> r == CalDate(y, m, d)
    decreases d < 1, if d < 1 then 1 - d else d
  {
    if d < 1 then
      var py := if m == 0 then y - 1 else y;
      var pm := if m == 0 then 11 else m - 1;
      if m == 0 then
        YearLength(y - 1);
        DaysBeforeYearEnd(y - 1);
        Normalize(py, pm, d + DaysInMonth(py, pm))
      else
        Normalize(py, pm, d + DaysInMonth(py, pm))
    else if d > DaysInMonth(y, m) then
      var ny := if m == 11 then y + 1 else y;
      var nm := if m == 11 then 0 else m + 1;
      if m == 11 then
        YearLength(y);
        DaysBeforeYearEnd(y);
        Normalize(ny, nm, d - DaysInMonth(y, m))
      else
        Normalize(ny, nm, d - DaysInMonth(y, m))
    else
      CalDate(y, m, d)
  }

  /**
    `new Date(year, month, day)` for a `month` in 0..11 (as getMonth reports
    it): a real date whose day number is MakeDay's; an in-month day is kept
    as it is.
  */
  function MakeDate(year: int, month: int, day: int): (d: CalDate)
    requires 0 <= month < 12
    ensures Valid(d)
    ensures DayNumber(d.year, d.month, d.day) == DayNumber(FullYear(year), month, day)
    ensures 1 <= day <= DaysInMonth(FullYear(year), month) ==> d == CalDate(FullYear(year), month, day)
  {
    Normalize(FullYear(year), month, day)
  }
}
