/** The date picker of the order forms: Gregorian month lengths, month
    navigation with year wrap, the Monday-first grid of day cells, and the
    `YYYY-MM-DD` text a picked day is handed on as.

    Months are 0-based, as `Date.getMonth` gives them; days are 1-based. The
    weekday of the first of a month, the clock's date and the time zone
    offset are parameters. */
module Calendar {
  import opened Optional
  import opened Digits
  import opened JsString

  // ---------------------------------------------------------------- month lengths

  /** Days of January … December in a common year. */
  const DaysInMonthTable: seq<int> := [31, 28, 31, 30, 31, 30, 31, 31, 30, 31, 30, 31]

  /** The Gregorian rule: every fourth year, except centuries not divisible
      by 400. (A zero remainder means the same under truncating and
      Euclidean division, so negative years need no special case.) */
  predicate IsLeapYear(year: int) {
    (year % 4 == 0 && year % 100 != 0) || year % 400 == 0
  }

  /** The rule repeats every 400 years. */
  lemma LeapYearPeriod(year: int)
    ensures IsLeapYear(year + 400) == IsLeapYear(year)
  {
    assert (year + 400) % 4 == year % 4;
    assert (year + 400) % 100 == year % 100;
    assert (year + 400) % 400 == year % 400;
  }

  /** `getDaysInMonth`: the table, with 29 for February of a leap year. */
  function DaysInMonth(month: int, year: int): (d: int)
    requires 0 <= month < 12
    ensures 28 <= d <= 31
    ensures d == 29 <==> month == 1 && IsLeapYear(year)
    ensures !(month == 1 && IsLeapYear(year)) ==> d == DaysInMonthTable[month]
  {
    if month == 1 && IsLeapYear(year) then 29 else DaysInMonthTable[month]
  }

  /** The days of the months before `month`. */
  function DaysBefore(month: int, year: int): int
    requires 0 <= month <= 12
  {
    if month == 0 then 0 else DaysBefore(month - 1, year) + DaysInMonth(month - 1, year)
  }

  /** The twelve months add up to 366 days in a leap year and 365 otherwise. */
  lemma YearLength(year: int)
    ensures DaysBefore(12, year) == if IsLeapYear(year) then 366 else 365
  {
    assert DaysBefore(1, year) == 31;
    assert DaysBefore(2, year) == 31 + DaysInMonth(1, year);
    assert DaysBefore(3, year) == DaysBefore(2, year) + 31;
    assert DaysBefore(4, year) == DaysBefore(3, year) + 30;
    assert DaysBefore(5, year) == DaysBefore(4, year) + 31;
    assert DaysBefore(6, year) == DaysBefore(5, year) + 30;
    assert DaysBefore(7, year) == DaysBefore(6, year) + 31;
    assert DaysBefore(8, year) == DaysBefore(7, year) + 31;
    assert DaysBefore(9, year) == DaysBefore(8, year) + 30;
    assert DaysBefore(10, year) == DaysBefore(9, year) + 31;
    assert DaysBefore(11, year) == DaysBefore(10, year) + 30;
    assert DaysBefore(12, year) == DaysBefore(11, year) + 31;
  }

  // ---------------------------------------------------------------- dates

  /** A calendar day: `getFullYear`, `getMonth` and `getDate`. */
  datatype CalendarDate = CalendarDate(year: int, month: int, day: int)

  predicate ValidDate(d: CalendarDate) {
    0 <= d.month < 12 && 1 <= d.day <= DaysInMonth(d.month, d.year)
  }

  /** The year `new Date(year, month, day)` takes: 0 … 99 stand for 1900 … 1999. */
  function FullYear(year: int): int {
    if 0 <= year <= 99 then 1900 + year else year
  }

  /** `new Date(year, month, day)` for a month in 0 … 11 and a day in 1 … 31:
      the year goes through `FullYear`, and a day past the end of the month
      runs on into the next month. */
  function ConstructedDate(year: int, month: int, day: int): (d: CalendarDate)
    requires 0 <= month < 12 && 1 <= day <= 31
    ensures ValidDate(d)
    ensures day <= DaysInMonth(month, FullYear(year)) ==> d == CalendarDate(FullYear(year), month, day)
  {
    var y := FullYear(year);
    var n := DaysInMonth(month, y);
    if day <= n then CalendarDate(y, month, day) else CalendarDate(y, month + 1, day - n)
  }

  /** The month a date lies in. */
  function MonthOf(d: CalendarDate): YearMonth {
    YearMonth(d.year, d.month)
  }

  /** The day before a valid date. */
  function PrevDay(d: CalendarDate): (r: CalendarDate)
    requires ValidDate(d)
    ensures ValidDate(r)
    ensures d.day > 1 ==> MonthOf(r) == MonthOf(d) && r.day == d.day - 1
    ensures d.day == 1 ==> MonthOf(r) == MonthBefore(MonthOf(d)) && r.day == DaysInMonth(r.month, r.year)
  {
    if d.day > 1 then CalendarDate(d.year, d.month, d.day - 1)
    else if d.month > 0 then CalendarDate(d.year, d.month - 1, DaysInMonth(d.month - 1, d.year))
    else CalendarDate(d.year - 1, 11, 31)
  }

  // ---------------------------------------------------------------- ISO 8601 text

  /** Year, month and day fields joined by hyphens. */
  function IsoText(y: string, m: string, d: string): string {
    y + ("-" + (m + ("-" + d)))
  }

  /** `toISODate`: the year as `String` renders it, then the 1-based month and
      the day, each zero-padded to two digits. */
  function ToISODate(d: CalendarDate): string
    requires ValidDate(d)
  {
    IsoText(IntToDecimal(d.year), TwoDigits(d.month + 1), TwoDigits(d.day))
  }

  /** The date if it is one, else `None`. */
  function CheckedDate(d: CalendarDate): (r: Option<CalendarDate>)
    ensures r.Some? <==> ValidDate(d)
    ensures r.Some? ==> r.value == d
  {
    if ValidDate(d) then Some(d) else None
  }

  /** Reads the calendar date extended format of ISO 8601 (section 4.1.2.2 of
      ISO 8601:2004): four year digits, two month digits and two day digits,
      separated by hyphens. Any other text, and a day the month does not
      have, gives `None`. */
  function ParseISODate(s: string): (r: Option<CalendarDate>)
    ensures r.Some? ==> ValidDate(r.value)
  {
    if |s| != 10 then None else ParseYearField(s[..4], s[4..])
  }

  /** The year field, then a hyphen and the rest. */
  function ParseYearField(y: string, t: string): (r: Option<CalendarDate>)
    ensures r.Some? ==> ValidDate(r.value)
  {
    if !AllDigits(y) || t == [] || t[0] != '-' then None else ParseMonthDay(DigitsValue(y), t[1..])
  }

  /** `MM-DD` of the given year. */
  function ParseMonthDay(year: int, t: string): (r: Option<CalendarDate>)
    ensures r.Some? ==> ValidDate(r.value)
  {
    if |t| != 5 || t[2] != '-' || !AllDigits(t[..2]) || !AllDigits(t[3..]) then None
    else FieldsDate(year, t[..2], t[3..])
  }

  /** The date a year and two digit fields name, if there is one. */
  function FieldsDate(year: int, m: string, d: string): (r: Option<CalendarDate>)
    requires AllDigits(m) && AllDigits(d)
    ensures r.Some? ==> ValidDate(r.value)
  {
    CheckedDate(CalendarDate(year, DigitsValue(m) - 1, DigitsValue(d)))
  }

  lemma MonthDayRead(year: int, m: string, d: string)
    requires |m| == 2 && |d| == 2 && AllDigits(m) && AllDigits(d)
    ensures ParseMonthDay(year, m + ("-" + d)) == FieldsDate(year, m, d)
  {
    var t := m + ("-" + d);
    assert t[..2] == m && t[3..] == d;
  }

  lemma YearFieldRead(y: string, u: string)
    requires AllDigits(y)
    ensures ParseYearField(y, "-" + u) == ParseMonthDay(DigitsValue(y), u)
  {
    assert ("-" + u)[1..] == u;
  }

  /** Fields of the right widths read back one by one. */
  lemma IsoTextRead(y: string, m: string, d: string)
    requires |y| == 4 && |m| == 2 && |d| == 2
    requires AllDigits(y) && AllDigits(m) && AllDigits(d)
    ensures ParseISODate(IsoText(y, m, d)) == FieldsDate(DigitsValue(y), m, d)
  {
    var u := m + ("-" + d);
    var s := IsoText(y, m, d);
    assert s[..4] == y && s[4..] == "-" + u;
    YearFieldRead(y, u);
    MonthDayRead(DigitsValue(y), m, d);
  }

  /** A year from 1000 to 9999 renders as four digits that read back as the year. */
  lemma FourDigitYear(year: int)
    requires 1000 <= year <= 9999
    ensures |IntToDecimal(year)| == 4 && AllDigits(IntToDecimal(year))
    ensures DigitsValue(IntToDecimal(year)) == year
  {
    assert |NatToDecimal(year / 100)| == |NatToDecimal(year / 1000)| + 1;
    assert |NatToDecimal(year / 10)| == |NatToDecimal(year / 100)| + 1;
    assert |NatToDecimal(year)| == |NatToDecimal(year / 10)| + 1;
    NatToDecimalValue(year);
  }

  /** The padded month and day fields of a valid date name that date. */
  lemma FieldsDateOf(d: CalendarDate)
    requires ValidDate(d)
    ensures FieldsDate(d.year, TwoDigits(d.month + 1), TwoDigits(d.day)) == Some(d)
  {
  }

  /** A year rendered as four digits, with the padded month and day, reads back as the date. */
  lemma IsoFieldsRead(d: CalendarDate)
    requires ValidDate(d)
    requires |IntToDecimal(d.year)| == 4 && AllDigits(IntToDecimal(d.year)) && DigitsValue(IntToDecimal(d.year)) == d.year
    ensures ParseISODate(ToISODate(d)) == Some(d)
  {
    DateTextRead(IntToDecimal(d.year), d.month, d.day);
    FieldsDateOf(d);
  }

  /** The fields of a text built from four year digits, a month and a day. */
  lemma DateTextRead(y: string, month: int, day: int)
    requires |y| == 4 && AllDigits(y) && 0 <= month < 12 && 1 <= day <= 31
    ensures ParseISODate(IsoText(y, TwoDigits(month + 1), TwoDigits(day))) == FieldsDate(DigitsValue(y), TwoDigits(month + 1), TwoDigits(day))
  {
    IsoTextRead(y, TwoDigits(month + 1), TwoDigits(day));
  }

  /** A valid date with a four-digit year reads back from its ISO text. */
  lemma ISODateRoundTrip(d: CalendarDate)
    requires ValidDate(d) && 1000 <= d.year <= 9999
    ensures ParseISODate(ToISODate(d)) == Some(d)
  {
    FourDigitYear(d.year);
    IsoFieldsRead(d);
  }

  // ---------------------------------------------------------------- month navigation

  /** The month on view: `viewYear` and the 0-based `viewMonth`. */
  datatype YearMonth = YearMonth(year: int, month: int)

  /** Months counted from January of year 0. */
  function MonthIndex(ym: YearMonth): int {
    ym.year * 12 + ym.month
  }

  /** `nextMonth`: December wraps to January of the next year. */
  function MonthAfter(ym: YearMonth): (r: YearMonth)
    requires 0 <= ym.month < 12
    ensures 0 <= r.month < 12
    ensures MonthIndex(r) == MonthIndex(ym) + 1
  {
    if ym.month == 11 then YearMonth(ym.year + 1, 0) else YearMonth(ym.year, ym.month + 1)
  }

  /** `prevMonth`: January wraps to December of the year before. */
  function MonthBefore(ym: YearMonth): (r: YearMonth)
    requires 0 <= ym.month < 12
    ensures 0 <= r.month < 12
    ensures MonthIndex(r) == MonthIndex(ym) - 1
  {
    if ym.month == 0 then YearMonth(ym.year - 1, 11) else YearMonth(ym.year, ym.month - 1)
  }

  /** A month in range is determined by its index. */
  lemma MonthIndexInjective(a: YearMonth, b: YearMonth)
    requires 0 <= a.month < 12 && 0 <= b.month < 12
    requires MonthIndex(a) == MonthIndex(b)
    ensures a == b
  {
  }

  /** Going forward then back, or back then forward, returns to the same month. */
  lemma MonthBeforeAfter(ym: YearMonth)
    requires 0 <= ym.month < 12
    ensures MonthBefore(MonthAfter(ym)) == ym
    ensures MonthAfter(MonthBefore(ym)) == ym
  {
    MonthIndexInjective(MonthBefore(MonthAfter(ym)), ym);
    MonthIndexInjective(MonthAfter(MonthBefore(ym)), ym);
  }

  // ---------------------------------------------------------------- the grid

  /** `startOffset`: the weekday of the first of the month (0 = Sunday …
      6 = Saturday, as `getDay` gives it) as the number of cells before it in
      a week that starts on Monday. */
  function StartOffset(firstDayOfWeek: int): (r: int)
    requires 0 <= firstDayOfWeek <= 6
    ensures 0 <= r <= 6
    ensures r == (firstDayOfWeek + 6) % 7
  {
    if firstDayOfWeek == 0 then 6 else firstDayOfWeek - 1
  }

  lemma ModSum(a: int, b: int)
    requires 0 <= a && 0 <= b
    ensures (a % 7 + b) % 7 == (a + b) % 7
  {
    var q := a / 7;
    assert a + b == 7 * q + (a % 7 + b);
  }

  /** The cell of day `day` sits in the column of the weekday that day falls
      on: its index modulo 7 is that weekday counted from Monday. */
  lemma DayColumn(firstDayOfWeek: int, day: int)
    requires 0 <= firstDayOfWeek <= 6 && 1 <= day
    ensures (StartOffset(firstDayOfWeek) + day - 1) % 7 == StartOffset((firstDayOfWeek + day - 1) % 7)
  {
    ModSum(firstDayOfWeek + 6, day - 1);
    ModSum(firstDayOfWeek + day - 1, 6);
  }

  /** `dayCells`: `startOffset` empty cells, then the days 1 … `daysInMonth`
      in order. */
  method DayCells(startOffset: nat, daysInMonth: nat) returns (cells: seq<Option<int>>)
    ensures |cells| == startOffset + daysInMonth
    ensures forall i :: 0 <= i < startOffset ==> cells[i] == None
    ensures forall i :: startOffset <= i < |cells| ==> cells[i] == Some(i - startOffset + 1)
  {
    cells := [];
    var i := 0;
    while i < startOffset
      invariant 0 <= i <= startOffset && |cells| == i
      invariant forall j :: 0 <= j < i ==> cells[j] == None
    {
      cells := cells + [None];
      i := i + 1;
    }
    var d := 1;
    while d <= daysInMonth
      invariant 1 <= d <= daysInMonth + 1 && |cells| == startOffset + d - 1
      invariant forall j :: 0 <= j < startOffset ==> cells[j] == None
      invariant forall j :: startOffset <= j < |cells| ==> cells[j] == Some(j - startOffset + 1)
    {
      cells := cells + [Some(d)];
      d := d + 1;
    }
  }

  // ---------------------------------------------------------------- selection

  /** `isSelected(day)`: a value is set and its date is that day of the month on view. */
  predicate IsSelected(selected: Option<CalendarDate>, view: YearMonth, day: int) {
    selected.Some? && MonthOf(selected.value) == view && selected.value.day == day
  }

  /** At most one day of a month is selected. */
  lemma SelectedDayUnique(selected: Option<CalendarDate>, view: YearMonth, d1: int, d2: int)
    requires IsSelected(selected, view, d1) && IsSelected(selected, view, d2)
    ensures d1 == d2
  {
  }

  /** The date the picker opens on: the value's, or today's when the value is
      empty or not an ISO date. */
  function StartDate(value: string, today: CalendarDate): (d: CalendarDate)
    requires ValidDate(today)
    ensures ValidDate(d)
    ensures ParseISODate(value).Some? ==> d == ParseISODate(value).value
    ensures ParseISODate(value).None? ==> d == today
  {
    match ParseISODate(value)
    case Some(v) => v
    case None => today
  }

  /** `new Date(value)` on a date-only value as the engine evaluates it: the
      text is midnight UTC, and `getFullYear`, `getMonth` and `getDate` read
      the local calendar day of that instant, which west of UTC (a negative
      offset, in minutes) is the day before. */
  function ValueDateAsWritten(value: string, utcOffset: int): (r: Option<CalendarDate>)
    requires -24 * 60 < utcOffset < 24 * 60
    ensures r.Some? <==> ParseISODate(value).Some?
    ensures utcOffset >= 0 ==> r == ParseISODate(value)
  {
    match ParseISODate(value)
    case None => None
    case Some(d) => Some(if utcOffset < 0 then PrevDay(d) else d)
  }

  /** West of UTC, the day just picked is never the one shown as selected. */
  lemma WestOfUtcMissesSelection(d: CalendarDate, utcOffset: int)
    requires ValidDate(d) && 1000 <= d.year <= 9999
    requires -24 * 60 < utcOffset < 0
    ensures !IsSelected(ValueDateAsWritten(ToISODate(d), utcOffset), MonthOf(d), d.day)
  {
    ISODateRoundTrip(d);
    if d.day == 1 {
      var ym := MonthOf(d);
      assert MonthIndex(MonthBefore(ym)) != MonthIndex(ym);
    }
  }

  /** Picking 1 March 2024 five hours west of UTC shows 29 February as the value's date. */
  lemma FirstOfMarchReadsAsFebruary()
    ensures ValueDateAsWritten(ToISODate(CalendarDate(2024, 2, 1)), -300) == Some(CalendarDate(2024, 1, 29))
  {
    ISODateRoundTrip(CalendarDate(2024, 2, 1));
  }

  /** A day picked in a month with a four-digit year is the selected day when
      the value is read back field by field, and the picker reopens on that
      month. */
  lemma SelectDayReadsBack(view: YearMonth, day: int, today: CalendarDate)
    requires 0 <= view.month < 12 && 1000 <= view.year <= 9999
    requires 1 <= day <= DaysInMonth(view.month, view.year)
    requires ValidDate(today)
    ensures IsSelected(ParseISODate(ToISODate(ConstructedDate(view.year, view.month, day))), view, day)
    ensures MonthOf(StartDate(ToISODate(ConstructedDate(view.year, view.month, day)), today)) == view
  {
    ISODateRoundTrip(CalendarDate(view.year, view.month, day));
  }

  // ---------------------------------------------------------------- the picker

  /** The picker's state: the month on view and whether the picker is open. */
  class DatePicker {
    var viewYear: int
    var viewMonth: int
    var showPicker: bool

    predicate Valid()
      reads this
    {
      0 <= viewMonth < 12
    }

    function View(): YearMonth
      reads this
    {
      YearMonth(viewYear, viewMonth)
    }

    /** The first render: closed, on the month of the value's date, or of
        today when there is none. */
    constructor (value: string, today: CalendarDate)
      requires ValidDate(today)
      ensures Valid() && !showPicker
      ensures View() == MonthOf(StartDate(value, today))
    {
      var d := StartDate(value, today);
      viewYear, viewMonth := d.year, d.month;
      showPicker := false;
    }

    /** `openPicker`: back to the value's month (or today's), then open. */
    method OpenPicker(value: string, today: CalendarDate)
      requires ValidDate(today)
      modifies this
      ensures Valid() && showPicker
      ensures View() == MonthOf(StartDate(value, today))
    {
      var d := StartDate(value, today);
      viewYear, viewMonth := d.year, d.month;
      showPicker := true;
    }

    /** `prevMonth`: one month back. */
    method PrevMonth()
      requires Valid()
      modifies this`viewYear, this`viewMonth
      ensures Valid()
      ensures View() == MonthBefore(old(View()))
      ensures MonthIndex(View()) == MonthIndex(old(View())) - 1
    {
      if viewMonth == 0 {
        viewMonth := 11;
        viewYear := viewYear - 1;
      } else {
        viewMonth := viewMonth - 1;
      }
    }

    /** `nextMonth`: one month forward. */
    method NextMonth()
      requires Valid()
      modifies this`viewYear, this`viewMonth
      ensures Valid()
      ensures View() == MonthAfter(old(View()))
      ensures MonthIndex(View()) == MonthIndex(old(View())) + 1
    {
      if viewMonth == 11 {
        viewMonth := 0;
        viewYear := viewYear + 1;
      } else {
        viewMonth := viewMonth + 1;
      }
    }

    /** The grid rendered for the month on view: `startOffset` empty cells
        for the weekday of its first day (`firstDayOfWeek`, which the clock's
        calendar supplies), then one cell per day of that month, each in the
        column of the weekday it falls on. */
    method MonthGrid(firstDayOfWeek: int) returns (cells: seq<Option<int>>)
      requires Valid() && 0 <= firstDayOfWeek <= 6
      ensures |cells| == StartOffset(firstDayOfWeek) + DaysInMonth(viewMonth, viewYear)
      ensures forall i :: 0 <= i < StartOffset(firstDayOfWeek) ==> cells[i] == None
      ensures forall day :: 1 <= day <= DaysInMonth(viewMonth, viewYear) ==>
        cells[StartOffset(firstDayOfWeek) + day - 1] == Some(day)
      ensures forall i :: 0 <= i < |cells| && cells[i].Some? ==>
        i % 7 == StartOffset((firstDayOfWeek + cells[i].value - 1) % 7)
    {
      var offset := StartOffset(firstDayOfWeek);
      cells := DayCells(offset, DaysInMonth(viewMonth, viewYear));
      forall i | 0 <= i < |cells| && cells[i].Some?
        ensures i % 7 == StartOffset((firstDayOfWeek + cells[i].value - 1) % 7)
      {
        DayColumn(firstDayOfWeek, i - offset + 1);
      }
    }

    /** `selectDay`: the ISO text handed to `onChange` for a day of the grid,
        and the picker closes. */
    method SelectDay(day: int) returns (value: string)
      requires Valid() && 1 <= day <= DaysInMonth(viewMonth, viewYear)
      modifies this`showPicker
      ensures !showPicker
      ensures value == ToISODate(ConstructedDate(viewYear, viewMonth, day))
    {
      showPicker := false;
      value := ToISODate(ConstructedDate(viewYear, viewMonth, day));
    }

    /** The "Heute" button: today's ISO text, and the picker closes. */
    method PickToday(today: CalendarDate) returns (value: string)
      requires ValidDate(today)
      modifies this`showPicker
      ensures !showPicker
      ensures value == ToISODate(today)
    {
      showPicker := false;
      value := ToISODate(today);
    }
  }
}
