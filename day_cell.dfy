/**
  One cell of the month grid: the number it shows, whether it is drawn as
  selected, and what a press reports to `onDateClick`. Cells of the previous
  and next month are greyed out and cannot be pressed.
*/
module DayCell {
  import opened Wrappers
  import opened JsDate

  datatype MonthPosition = Prev | Current | Next

  /**
    The number drawn in the cell: a previous-month cell with `date` = i shows
    the i-th day from the end of that month; other cells show `date`.
  */
  function DisplayedDay(position: MonthPosition, date: int, daysInPrevMonth: int): (n: int)
    ensures position != Prev ==> n == date
    ensures position == Prev && 1 <= date <= daysInPrevMonth ==> 1 <= n <= daysInPrevMonth
    ensures position == Prev ==> n + date == daysInPrevMonth + 1
  {
    if position == Prev then daysInPrevMonth - date + 1 else date
  }

  /**
    The numbers shown by the previous-month cells the month grid pushes, for
    `date` = firstDay down to 1.
  */
  function PrevMonthRow(firstDay: nat, daysInPrevMonth: int): seq<int>
  {
    if firstDay == 0 then []
    else [DisplayedDay(Prev, firstDay, daysInPrevMonth)] + PrevMonthRow(firstDay - 1, daysInPrevMonth)
  }

  /**
    The previous-month cells show the last `firstDay` days of that month in
    increasing order: each is one more than the one before, and the last
    (date 1) shows `daysInPrevMonth`.
  */
  lemma {:induction false} PrevMonthRowIsMonthEnd(firstDay: nat, daysInPrevMonth: int)
    ensures var row := PrevMonthRow(firstDay, daysInPrevMonth);
      && |row| == firstDay
      && (forall k :: 0 <= k < firstDay ==> row[k] == daysInPrevMonth - firstDay + 1 + k)
      && (firstDay > 0 ==> row[firstDay - 1] == daysInPrevMonth)
  {
    if firstDay > 0 {
      PrevMonthRowIsMonthEnd(firstDay - 1, daysInPrevMonth);
      var row := PrevMonthRow(firstDay, daysInPrevMonth);
      var rest := PrevMonthRow(firstDay - 1, daysInPrevMonth);
      assert row == [daysInPrevMonth - firstDay + 1] + rest;
      forall k | 0 <= k < firstDay
        ensures row[k] == daysInPrevMonth - firstDay + 1 + k
      {
        if k > 0 { assert row[k] == rest[k - 1]; }
      }
    }
  }

  /**
    `isSelected`: only a current-month cell, and only when both the selected
    date and the calendar's date are given and the selected date is this
    cell's day of the calendar's month and year.
  */
  function IsSelected(position: MonthPosition, date: int, selectedDate: Option<CalDate>, calendarDate: Option<CalDate>): (b: bool)
    ensures b ==> position == Current && selectedDate.Some? && calendarDate.Some?
    ensures b <==>
      && position == Current && selectedDate.Some? && calendarDate.Some?
      && selectedDate.value == CalDate(calendarDate.value.year, calendarDate.value.month, date)
  {
    && selectedDate.Some?
    && selectedDate.value.day == date
    && calendarDate.Some?
    && selectedDate.value.month == calendarDate.value.month
    && selectedDate.value.year == calendarDate.value.year
    && position == Current
  }

  /** The `disabled` prop of the cell's Pressable. */
  function IsDisabled(position: MonthPosition): (b: bool)
    ensures b <==> position != Current
  {
    position != Current
  }

  /**
    `handlePress`: the date passed to `onDateClick`, or None when it is not
    called. It is called only when a handler exists, the cell is in the
    current month and the calendar's date is known; the date reported is the
    `date`-th day of the calendar's month.
  */
  function HandlePress(hasHandler: bool, position: MonthPosition, date: int, calendarDate: Option<CalDate>): (clicked: Option<CalDate>)
    requires calendarDate.Some? ==> Valid(calendarDate.value)
    ensures clicked.Some? <==> hasHandler && position == Current && calendarDate.Some?
    ensures clicked.Some? ==> !IsDisabled(position) && Valid(clicked.value)
    ensures clicked.Some? ==>
      DayNumber(clicked.value.year, clicked.value.month, clicked.value.day)
        == DayNumber(FullYear(calendarDate.value.year), calendarDate.value.month, date)
    ensures (clicked.Some? && 100 <= calendarDate.value.year &&
             1 <= date <= DaysInMonth(calendarDate.value.year, calendarDate.value.month)) ==>
      clicked.value == CalDate(calendarDate.value.year, calendarDate.value.month, date)
  {
    if hasHandler && position == Current && calendarDate.Some? then
      Some(MakeDate(calendarDate.value.year, calendarDate.value.month, date))
    else
      None
  }

  /**
    Pressing an in-month current cell and taking the reported date as the
    selection (what the calendar screen's click handler does) marks that
    same cell as selected.
  */
  lemma {:induction false} PressSelectsCell(date: int, calendarDate: CalDate)
    requires Valid(calendarDate) && 100 <= calendarDate.year
    requires 1 <= date <= DaysInMonth(calendarDate.year, calendarDate.month)
    ensures var clicked := HandlePress(true, Current, date, Some(calendarDate));
      clicked.Some? && IsSelected(Current, date, clicked, Some(calendarDate))
  {
    var clicked := HandlePress(true, Current, date, Some(calendarDate));
    assert clicked.value == CalDate(calendarDate.year, calendarDate.month, date);
  }
}
