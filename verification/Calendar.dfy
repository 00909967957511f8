/** The week and month pages' date arithmetic: ISO weeks (section 2.2.10 of ISO 8601:2004), the
    six-week month grid, and month navigation. */
module Calendar {
  import opened Civil

  // -- The date object and the helpers that move it -----------------------

  class LocalDate {
    var day: int

    constructor (y: int, m: int, date: int)
      ensures day == MakeDate(y, m, date)
    {
      day := MakeDate(y, m, date);
    }

    /** Day of the month, which may overflow into other months. */
    method SetDate(date: int)
      modifies this
      ensures day == old(day) - DateOf(old(day)) + date
    {
      day := MonthStart(YearOf(day), MonthOf(day)) + date - 1;
    }
  }

  function AddDaysSpec(d: int, days: int): int { Copy(d) + days }

  method AddDays(date: int, days: int) returns (r: int)
    ensures r == AddDaysSpec(date, days)
  {
    var d := new LocalDate(YearOf(date), MonthOf(date), DateOf(date));
    d.SetDate(DateOf(d.day) + days);
    r := d.day;
  }

  /** The Monday on or before a day. */
  function Monday(d: int): int { d - (IsoWeekday(d) - 1) }

  method IsoWeekStart(date: int) returns (r: int)
    ensures r == Monday(Copy(date))
  {
    var d := new LocalDate(YearOf(date), MonthOf(date), DateOf(date));
    var dow := IsoWeekday(d.day);
    d.SetDate(DateOf(d.day) - (dow - 1));
    r := d.day;
  }

  datatype WeekParts = WeekParts(week: int, year: int, weekStart: int, weekEnd: int)

  /** `isoWeekParts`, copy by copy as the code computes it. */
  function IsoWeekParts(date: int): WeekParts {
    var weekStart := Monday(Copy(date));
    var thursday := AddDaysSpec(weekStart, 3);
    var year := YearOf(thursday);
    var week1Start := Monday(Copy(MakeDate(year, 0, 4)));
    WeekParts((weekStart - week1Start) / 7 + 1, year, weekStart, AddDaysSpec(weekStart, 6))
  }

  method ComputeIsoWeekParts(date: int) returns (r: WeekParts)
    ensures r == IsoWeekParts(date)
  {
    hide YearOf, MakeDate, Copy, IsoWeekday;
    var weekStart := IsoWeekStart(date);
    var thursday := AddDays(weekStart, 3);
    var year := YearOf(thursday);
    var week1Start := IsoWeekStart(MakeDate(year, 0, 4));
    var weekEnd := AddDays(weekStart, 6);
    r := WeekParts((weekStart - week1Start) / 7 + 1, year, weekStart, weekEnd);
  }

  // -- The standard's definition ------------------------------------------

  lemma MondayFacts(d: int)
    ensures IsoWeekday(Monday(d)) == 1 && Monday(d) <= d <= Monday(d) + 6
    ensures (Monday(d) + 3) % 7 == 0
  {
  }

  /** The week-year: the year of the week's Thursday. */
  function WeekYear(d: int): int { YearOf(Monday(d) + 3) }

  /** The Monday of the week that holds 4 January. */
  function FirstMonday(y: int): int { Monday(YearStart(y) + 3) }

  function WeekNumber(d: int): int { (Monday(d) - FirstMonday(WeekYear(d))) / 7 + 1 }

  function ByStandard(d: int): WeekParts { WeekParts(WeekNumber(d), WeekYear(d), Monday(d), Monday(d) + 6) }

  lemma MondaysAreWeeksApart(a: int, b: int)
    requires IsoWeekday(a) == 1 && IsoWeekday(b) == 1
    ensures (a - b) % 7 == 0 && (a - b) / 7 * 7 == a - b
    ensures b < a + 7 && a < b + 7 ==> a == b
  {
  }

  /** Main result: the week offset is a whole number of weeks, the week lies in 1..53, and
      week-year, week and weekday together give back the date. */
  lemma WeekDateRoundTrip(d: int)
    ensures (Monday(d) - FirstMonday(WeekYear(d))) % 7 == 0
    ensures 1 <= WeekNumber(d) <= 53
    ensures d == FirstMonday(WeekYear(d)) + 7 * (WeekNumber(d) - 1) + IsoWeekday(d) - 1
  {
    var y := WeekYear(d);
    YearStep(y);
    hide YearStart;
    MondayFacts(d);
    MondayFacts(YearStart(y) + 3);
    MondaysAreWeeksApart(Monday(d), FirstMonday(y));
    assert YearStart(y) <= Monday(d) + 3 < YearStart(y + 1);
  }

  /** Main result: week 1 is exactly the week that holds 4 January of its week-year, and exactly
      the week that holds the first Thursday of it. */
  lemma WeekOneHoldsFourthJanuary(d: int)
    ensures var y := WeekYear(d);
      && (WeekNumber(d) == 1 <==> Monday(d) <= YearStart(y) + 3 <= Monday(d) + 6)
      && (WeekNumber(d) == 1 <==> YearStart(y) <= Monday(d) + 3 < YearStart(y) + 7)
  {
    var y := WeekYear(d);
    WeekDateRoundTrip(d);
    hide YearStart;
    MondayFacts(d);
    MondayFacts(YearStart(y) + 3);
    MondaysAreWeeksApart(Monday(d), FirstMonday(y));
    assert YearStart(y) <= Monday(d) + 3 < YearStart(y + 1);
  }

  lemma YearHolds(d: int)
    ensures YearStart(YearOf(d)) <= d < YearStart(YearOf(d) + 1)
  {
  }

  /** Main result: the next Monday is the next week of the same year, or week 1 of the next year. */
  lemma NextWeek(d: int)
    ensures var next := Monday(d) + 7;
      || (WeekYear(next) == WeekYear(d) && WeekNumber(next) == WeekNumber(d) + 1)
      || (WeekYear(next) == WeekYear(d) + 1 && WeekNumber(next) == 1)
  {
    hide YearStart, YearOf, IsLeap;
    var next, y := Monday(d) + 7, WeekYear(d);
    YearStep(y);
    YearStep(y + 1);
    MondayFacts(d);
    YearHolds(Monday(d) + 3);
    assert Monday(next) == next;
    if next + 3 < YearStart(y + 1) {
      YearOfUnique(next + 3, y);
    } else {
      YearOfUnique(next + 3, y + 1);
      WeekOneHoldsFourthJanuary(next);
    }
  }

  /** Where the two-digit years of the constructor do not interfere. */
  predicate WeekClear(d: int) {
    Clear(YearOf(d)) && Clear(YearOf(Monday(d))) && Clear(YearOf(Monday(d) + 3))
  }

  lemma FourthJanuary(y: int)
    ensures Clear(y) ==> MakeDate(y, 0, 4) == YearStart(y) + 3 && YearOf(YearStart(y) + 3) == y
    ensures !Clear(y) ==> MakeDate(y, 0, 4) == YearStart(1900 + y) + 3 && YearOf(YearStart(1900 + y) + 3) == 1900 + y
  {
    YearStep(y);
    YearStep(1900 + y);
    hide YearStart;
    YearOfUnique(YearStart(y) + 3, y);
    YearOfUnique(YearStart(1900 + y) + 3, 1900 + y);
    MonthStartZero(y);
    MonthStartZero(1900 + y);
  }

  lemma PartsWhenClear(d: int)
    requires WeekClear(d)
    ensures IsoWeekParts(d) == ByStandard(d)
  {
    hide YearOf, YearStart, MakeDate, Copy, Monday, Clear, FullYear;
    CopyIsSame(d);
    CopyIsSame(Monday(d));
    FourthJanuary(WeekYear(d));
    CopyIsSame(YearStart(WeekYear(d)) + 3);
  }

  /** A date read as one of the 1900s: its week starts elsewhere. */
  lemma CopyMisplaced(d: int)
    requires !Clear(YearOf(d))
    ensures Monday(Copy(d)) > Monday(d) + 7
  {
    hide YearOf, YearStart, Copy;
    CopyIsSame(d);
    FarApart(d, Copy(d));
  }

  lemma WeeksDiffer(m: int, a: int, b: int)
    requires a >= b + 7
    ensures (m - a) / 7 < (m - b) / 7
  {
  }

  /** Only the Thursday lies in years 0 to 99: the first week is looked up in the 1900s. */
  lemma FirstWeekMisplaced(y: int)
    requires !Clear(y)
    ensures Monday(Copy(MakeDate(y, 0, 4))) >= FirstMonday(y) + 7
  {
    hide YearOf, YearStart, Copy, MakeDate;
    FourthJanuary(y);
    CopyIsSame(YearStart(1900 + y) + 3);
    YearsApart(y, 1900 + y);
  }

  lemma PartsWhenNotClear(d: int)
    requires !WeekClear(d)
    ensures IsoWeekParts(d) != ByStandard(d)
  {
    hide YearOf, YearStart, Copy, MakeDate, Monday, FirstMonday, Clear;
    var m := Monday(d);
    CopyIsSame(d);
    CopyIsSame(m);
    if !Clear(YearOf(d)) {
      CopyMisplaced(d);
    } else if Clear(YearOf(m)) {
      var y := YearOf(m + 3);
      FirstWeekMisplaced(y);
      WeeksDiffer(m, Monday(Copy(MakeDate(y, 0, 4))), FirstMonday(y));
    }
  }

  /** A date of years 0 to 99 and its copy are centuries apart. */
  lemma FarApart(d: int, e: int)
    requires 0 <= YearOf(d) <= 99 && 1900 <= YearOf(e) <= 1999
    ensures e > d + 1000
  {
    YearsApart(YearOf(d) + 1, YearOf(e));
  }

  /** Main result: the code meets the standard exactly when neither the date, its Monday nor its
      Thursday lies in the years 0 to 99. */
  lemma PartsMeetTheStandard(d: int)
    ensures IsoWeekParts(d) == ByStandard(d) <==> WeekClear(d)
  {
    if WeekClear(d) { PartsWhenClear(d); } else { PartsWhenNotClear(d); }
  }

  /** From year 101 on, always. */
  lemma ClearFrom101(d: int)
    requires YearOf(d) >= 101
    ensures WeekClear(d)
  {
    YearsApart(100, YearOf(d));
    YearStep(100);
    hide YearStart;
    var m := Monday(d);
    NotBefore(m, 100);
    NotBefore(m + 3, 100);
  }

  lemma NotBefore(d: int, y: int)
    requires d >= YearStart(y)
    ensures YearOf(d) >= y
  {
    if YearOf(d) < y { YearsApart(YearOf(d) + 1, y); }
  }

  /** `dateInIsoWeek`. */
  function DateInIsoWeek(date: int, anchor: int): bool {
    var start := Monday(Copy(anchor));
    var end := AddDaysSpec(start, 7);
    start <= Copy(date) < end
  }

  predicate SameParts(date: int, anchor: int) {
    IsoWeekParts(date).week == IsoWeekParts(anchor).week && IsoWeekParts(date).year == IsoWeekParts(anchor).year
  }

  /** The displayed week and year tell the Monday of the copied date, also where they are not the
      standard's. */
  lemma PartsTellTheMonday(date: int, anchor: int)
    ensures SameParts(date, anchor) <==> Monday(Copy(date)) == Monday(Copy(anchor))
  {
    hide YearOf, YearStart, MakeDate, Copy;
    MondayFacts(Copy(date));
    MondayFacts(Copy(anchor));
    MondayFacts(Copy(MakeDate(IsoWeekParts(date).year, 0, 4)));
    MondaysAreWeeksApart(Monday(Copy(date)), Monday(Copy(anchor)));
    MondaysAreWeeksApart(Monday(Copy(date)), Monday(Copy(MakeDate(IsoWeekParts(date).year, 0, 4))));
    MondaysAreWeeksApart(Monday(Copy(anchor)), Monday(Copy(MakeDate(IsoWeekParts(date).year, 0, 4))));
  }

  lemma InWeekWhenClear(date: int, anchor: int)
    requires Clear(YearOf(Monday(Copy(anchor))))
    ensures DateInIsoWeek(date, anchor) <==> SameParts(date, anchor)
  {
    hide YearOf, YearStart, MakeDate, Copy, IsoWeekParts, SameParts;
    PartsTellTheMonday(date, anchor);
    CopyIsSame(Monday(Copy(anchor)));
    MondayFacts(Copy(date));
    MondayFacts(Copy(anchor));
    MondaysAreWeeksApart(Monday(Copy(date)), Monday(Copy(anchor)));
  }

  /** An anchor of the first days of year 100: the week two weeks later counts as the same. */
  lemma InWeekWhenNotClear(anchor: int)
    requires !Clear(YearOf(Monday(Copy(anchor))))
    ensures exists date :: DateInIsoWeek(date, anchor) && !SameParts(date, anchor)
  {
    hide YearOf, YearStart, MakeDate, Copy, IsoWeekParts, SameParts;
    var a, m := Copy(anchor), Monday(Copy(anchor));
    CopyIsSame(m);
    FarApart(m, Copy(m));
    CopyIsClear(anchor);
    MondayFacts(a);
    YearHolds(m);
    NotBefore(a, YearOf(m));
    YearHolds(a);
    YearsApart(100, YearOf(a));
    NotBefore(m + 14, 100);
    CopyIsSame(m + 14);
    PartsTellTheMonday(m + 14, anchor);
    assert Monday(m + 14) == m + 14;
    assert DateInIsoWeek(m + 14, anchor) && !SameParts(m + 14, anchor);
  }

  /** A copied date never lies in the years 0 to 99. */
  lemma CopyIsClear(d: int)
    ensures Clear(YearOf(Copy(d)))
  {
    hide Copy;
    CopyIsSame(d);
  }

  /** Main result: `dateInIsoWeek` and the displayed week agree on every date exactly when the
      Monday of the anchor's week is not in the years 0 to 99. */
  lemma SameWeek(anchor: int)
    ensures (forall date :: DateInIsoWeek(date, anchor) <==> SameParts(date, anchor)) <==>
        Clear(YearOf(Monday(Copy(anchor))))
  {
    hide YearOf, DateInIsoWeek, SameParts, Monday, Copy, Clear;
    if Clear(YearOf(Monday(Copy(anchor)))) {
      forall date ensures DateInIsoWeek(date, anchor) <==> SameParts(date, anchor) { InWeekWhenClear(date, anchor); }
    } else {
      InWeekWhenNotClear(anchor);
    }
  }

  // -- Months -------------------------------------------------------------

  function DaysInMonth(y: int, m: int): int { DateOf(MakeDate(y, m + 1, 0)) }

  /** Day 0 of the next month. */
  lemma LastOfMonth(y: int, m: int)
    requires 0 <= m < 12
    ensures MakeDate(y, m + 1, 0) == MonthStart(FullYear(y), m + 1) - 1
  {
    MonthStep(FullYear(y), 11);
    MonthStartZero(FullYear(y) + 1);
    assert (m + 1) / 12 == (if m == 11 then 1 else 0) && (m + 1) % 12 == (if m == 11 then 0 else m + 1);
    hide YearStart, MonthStart;
  }

  lemma LeapYearsOf1900s(y: int)
    ensures IsLeap(FullYear(y)) == IsLeap(y) <==> y != 0
  {
  }

  lemma DaysInMonthReadsTable(y: int, m: int)
    requires 0 <= m < 12
    ensures DaysInMonth(y, m) == MonthLength(FullYear(y), m)
  {
    var z := FullYear(y);
    LastOfMonth(y, m);
    MonthStep(z, m);
    LengthPositive(z, m);
    FieldsRoundTrip(z, m, MonthLength(z, m));
    hide *;
  }

  lemma LengthPositive(y: int, m: int)
    requires 0 <= m < 12
    ensures 28 <= MonthLength(y, m) <= 31
  {
  }

  /** Main result: the length of every month, except that February of year 0 reads as that of 1900. */
  lemma DaysInMonthIsLength(y: int, m: int)
    requires 0 <= m < 12
    ensures DaysInMonth(y, m) == MonthLength(y, m) <==> !(y == 0 && m == 1)
  {
    DaysInMonthReadsTable(y, m);
    LeapYearsOf1900s(y);
    hide DaysInMonth, IsLeap;
  }

  const CELLS := 42

  /** Main result: the grid is the 42 days from the Monday on or before the first of the month,
      except around the two-digit years. */
  method MonthGrid(year: int, month: int) returns (grid: seq<int>)
    requires 0 <= month < 12
    ensures |grid| == CELLS
    ensures GridClear(year, month) ==>
              forall i | 0 <= i < CELLS :: grid[i] == Monday(MonthStart(year, month)) + i
    ensures grid == GridSpec(year, month)
  {
    hide YearOf, MonthStart, MakeDate, Copy, IsoWeekday, GridClear;
    var first := MakeDate(year, month, 1);
    var offset := IsoWeekday(first) - 1;
    var start := AddDays(first, -offset);
    grid := [];
    for i := 0 to CELLS
      invariant |grid| == i && forall j | 0 <= j < i :: grid[j] == AddDaysSpec(start, j)
    {
      var day := AddDays(start, i);
      grid := grid + [day];
    }
    if GridClear(year, month) { GridWhenClear(year, month); }
  }

  function GridStart(year: int, month: int): int
    requires 0 <= month < 12
  {
    var first := MakeDate(year, month, 1);
    AddDaysSpec(first, -(IsoWeekday(first) - 1))
  }

  function GridSpec(year: int, month: int): seq<int>
    requires 0 <= month < 12
  {
    seq(CELLS, i => AddDaysSpec(GridStart(year, month), i))
  }

  predicate GridClear(year: int, month: int)
    requires 0 <= month < 12
  {
    Clear(year) && Clear(YearOf(Monday(MonthStart(year, month))))
  }

  lemma FirstOfMonth(year: int, month: int)
    requires 0 <= month < 12
    ensures MakeDate(year, month, 1) == MonthStart(FullYear(year), month)
  {
    assert month / 12 == 0 && month % 12 == month;
    hide MonthStart;
  }

  lemma GridWhenClear(year: int, month: int)
    requires 0 <= month < 12 && GridClear(year, month)
    ensures GridStart(year, month) == Monday(MonthStart(year, month))
    ensures Copy(GridStart(year, month)) == GridStart(year, month)
  {
    hide YearOf, MonthStart, MakeDate, Copy, IsoWeekday;
    var first := MonthStart(year, month);
    FirstOfMonth(year, month);
    LengthPositive(year, month);
    FieldsRoundTrip(year, month, 1);
    CopyIsSame(first);
    CopyIsSame(Monday(first));
  }

  /** Main result: the grid holds each day of the month exactly once, at consecutive cells that
      start in the first row, and its ends are the range the page asks the backend for. */
  lemma GridHoldsTheMonth(year: int, month: int, d: int)
    requires 0 <= month < 12 && GridClear(year, month)
    ensures var first := MonthStart(year, month);
      var offset := IsoWeekday(first) - 1;
      var grid := GridSpec(year, month);
      && IsoWeekday(grid[0]) == 1 && 0 <= offset < 7
      && (forall i, j | 0 <= i < CELLS && 0 <= j < CELLS && grid[i] == grid[j] :: i == j)
      && (YearOf(d) == year && MonthOf(d) == month ==>
            0 <= offset + DateOf(d) - 1 < CELLS && grid[offset + DateOf(d) - 1] == d)
  {
    hide YearStart, MonthStart, MakeDate;
    GridWhenClear(year, month);
    MondayFacts(MonthStart(year, month));
  }

  /** Among the clear years only January 100 opens in a year from 0 to 99. */
  lemma GridClearExactly(year: int, month: int)
    requires 0 <= month < 12
    ensures GridClear(year, month) <==> Clear(year) && !(year == 100 && month == 0)
  {
    hide YearOf, YearStart, MonthStart, IsoWeekday;
    var first := MonthStart(year, month);
    var start := Monday(first);
    MonthInsideYear(year, month);
    WeekdayRange(first);
    if year < 0 {
      FirstBefore(start, year);
    } else if year > 100 {
      LongYear(year - 1);
      NotBefore(start, year - 1);
    } else if year == 100 && month > 0 {
      JanuaryIsLong(year, month);
      NotBefore(start, 100);
    } else if year == 100 {
      FirstDayOf100();
      YearOfUnique(start, 99);
    }
  }

  lemma WeekdayRange(d: int)
    ensures Monday(d) <= d <= Monday(d) + 6
  {
  }

  lemma LongYear(y: int)
    ensures YearStart(y) + 365 <= YearStart(y + 1)
  {
    YearStep(y);
  }

  lemma JanuaryIsLong(year: int, month: int)
    requires 1 <= month < 12
    ensures YearStart(year) + 31 <= MonthStart(year, month)
  {
    hide YearStart, YearOf;
    MonthStartZero(year);
    MonthStep(year, 0);
    MonthsAscend(year, 1, month);
  }

  /** 1 January 100 was a Friday. */
  lemma FirstDayOf100()
    ensures MonthStart(100, 0) == YearStart(100) && IsoWeekday(YearStart(100)) == 5
    ensures YearStart(99) + 365 == YearStart(100)
  {
    hide YearStart;
    DayFromYearCounts(100);
    YearStep(99);
    MonthStartZero(100);
  }

  /** What the grid of the page should hold: 42 days from the Monday on or before the first. */
  ghost predicate GridRight(year: int, month: int)
    requires 0 <= month < 12
  {
    forall i | 0 <= i < CELLS :: GridSpec(year, month)[i] == Monday(MonthStart(year, month)) + i
  }

  /** A year from 0 to 99 shows the month of the 1900s. */
  lemma TwoDigitYearGrid(year: int, month: int)
    requires 0 <= month < 12 && !Clear(year)
    ensures GridSpec(year, month) == GridSpec(1900 + year, month) && GridRight(1900 + year, month)
  {
    hide YearOf, YearStart, MonthStart, Copy, Monday, IsoWeekday, GridClear;
    FirstOfMonth(year, month);
    FirstOfMonth(1900 + year, month);
    GridClearExactly(1900 + year, month);
    GridWhenClear(1900 + year, month);
  }

  /** The months of two different years start at least a month apart. */
  lemma MonthsOfTheCenturyApart(year: int, month: int)
    requires 0 <= month < 12 && !Clear(year)
    ensures Monday(MonthStart(1900 + year, month)) > Monday(MonthStart(year, month))
  {
    hide YearOf, YearStart, MonthStart, IsoWeekday;
    MonthInsideYear(year, month);
    MonthInsideYear(1900 + year, month);
    LengthPositive(year, month);
    YearsApart(year + 1, 1900 + year);
    WeekdayRange(MonthStart(year, month));
    WeekdayRange(MonthStart(1900 + year, month));
  }

  /** January 100 opens in December 99, which every cell reads as a day of the 1900s. */
  lemma January100Grid()
    ensures 1900 <= YearOf(GridSpec(100, 0)[0]) <= 1999 && !GridRight(100, 0)
  {
    hide YearOf, YearStart, MonthStart, Copy, IsoWeekday;
    FirstOfMonth(100, 0);
    FirstDayOf100();
    var first := MonthStart(100, 0);
    LengthPositive(100, 0);
    FieldsRoundTrip(100, 0, 1);
    CopyIsSame(first);
    YearOfUnique(Monday(first), 99);
    CopyIsSame(Monday(first));
  }

  /** Main result: the grid is right exactly outside the years 0 to 99 and January 100. */
  lemma GridRightExactly(year: int, month: int)
    requires 0 <= month < 12
    ensures GridRight(year, month) <==> Clear(year) && !(year == 100 && month == 0)
  {
    hide YearOf, YearStart, MonthStart, Copy, Monday, GridClear, MakeDate;
    GridClearExactly(year, month);
    if GridClear(year, month) {
      GridWhenClear(year, month);
    } else if year == 100 && month == 0 {
      January100Grid();
    } else {
      TwoDigitYearGrid(year, month);
      MonthsOfTheCenturyApart(year, month);
      assert GridSpec(year, month)[0] == Monday(MonthStart(1900 + year, month)) + 0;
    }
  }

  lemma FirstBefore(d: int, y: int)
    requires d < YearStart(y + 1)
    ensures YearOf(d) <= y
  {
    if YearOf(d) > y { YearsApart(y + 1, YearOf(d)); }
  }

  method MonthTruthRange(year: int, month: int) returns (from: int, to: int)
    requires 0 <= month < 12
    ensures from == GridSpec(year, month)[0] && to == GridSpec(year, month)[CELLS - 1]
    ensures GridClear(year, month) ==> to == from + 41 && IsoWeekday(from) == 1 && IsoWeekday(to) == 7
  {
    hide YearOf, MonthStart, MakeDate, Copy, GridClear, GridSpec;
    var grid := MonthGrid(year, month);
    from, to := grid[0], grid[|grid| - 1];
  }

  // -- Month navigation ---------------------------------------------------

  method ShiftMonthYear(year: int, month: int, delta: int) returns (y: int, m: int)
    ensures 0 <= m < 12 && 12 * y + m == 12 * year + month + delta
  {
    m, y := month + delta, year;
    while m < 0
      invariant 12 * y + m == 12 * year + month + delta
      invariant month + delta >= 0 ==> m == month + delta
      decreases -m
    {
      m, y := m + 12, y - 1;
    }
    while m > 11
      invariant 0 <= m && 12 * y + m == 12 * year + month + delta
    {
      m, y := m - 12, y + 1;
    }
  }

  /** What `ShiftMonthYear` ensures determines its result, so shifts compose additively and undo
      each other. */
  lemma ShiftsCompose(year: int, month: int, a: int, b: int, y1: int, m1: int, y2: int, m2: int, y3: int, m3: int)
    requires 0 <= m1 < 12 && 12 * y1 + m1 == 12 * year + month + a
    requires 0 <= m2 < 12 && 12 * y2 + m2 == 12 * y1 + m1 + b
    requires 0 <= m3 < 12 && 12 * y3 + m3 == 12 * year + month + (a + b)
    ensures y2 == y3 && m2 == m3
  {
  }
}
