/** Civil dates as ECMAScript's `Date` keeps them: a day number (0 is 1 January 1970) in the
    proleptic Gregorian calendar, local times left out. */
module Civil {

  predicate IsLeap(y: int) { y % 4 == 0 && (y % 100 != 0 || y % 400 == 0) }

  function YearLength(y: int): int { if IsLeap(y) then 366 else 365 }

  /** Day number of 1 January, counted year by year from 1970. */
  function YearStart(y: int): int
    decreases if y < 1970 then 1970 - y else y - 1970
  {
    if y == 1970 then 0
    else if y > 1970 then YearStart(y - 1) + YearLength(y - 1)
    else YearStart(y + 1) - YearLength(y)
  }

  lemma YearStep(y: int)
    ensures YearStart(y + 1) == YearStart(y) + YearLength(y)
  {
  }

  /** `DayFromYear` of ECMAScript; divisions floor. */
  function DayFromYear(y: int): int {
    365 * (y - 1970) + (y - 1969) / 4 - (y - 1901) / 100 + (y - 1601) / 400
  }

  /** Main result: the closed form counts the leap years right, for every year. */
  lemma {:induction false} DayFromYearCounts(y: int)
    ensures DayFromYear(y) == YearStart(y)
    decreases if y < 1970 then 1970 - y else y - 1970
  {
    if y > 1970 {
      DayFromYearCounts(y - 1);
      DayFromYearStep(y - 1);
    } else if y < 1970 {
      DayFromYearCounts(y + 1);
      DayFromYearStep(y);
    }
  }

  lemma DayFromYearStep(y: int)
    ensures DayFromYear(y + 1) == DayFromYear(y) + YearLength(y)
  {
    StepUp4(y);
    StepUp100(y);
    StepUp400(y);
    LeapCycle(y);
  }

  lemma LeapCycle(y: int)
    ensures (y % 400 == 0 ==> y % 100 == 0) && (y % 100 == 0 ==> y % 4 == 0)
  {
  }

  /** The quotient grows exactly at the multiples of the divisor, counted from one of them. */
  lemma StepUp4(y: int)
    ensures (y - 1968) / 4 == (y - 1969) / 4 + if y % 4 == 0 then 1 else 0
  {
    assert (y - 1968) % 4 == y % 4;
  }

  lemma StepUp100(y: int)
    ensures (y - 1900) / 100 == (y - 1901) / 100 + if y % 100 == 0 then 1 else 0
  {
    assert (y - 1900) % 100 == y % 100;
  }

  lemma StepUp400(y: int)
    ensures (y - 1600) / 400 == (y - 1601) / 400 + if y % 400 == 0 then 1 else 0
  {
    assert (y - 1600) % 400 == y % 400;
  }

  lemma {:induction false} YearsApart(y: int, z: int)
    requires y <= z
    ensures 365 * (z - y) <= YearStart(z) - YearStart(y) <= 366 * (z - y)
    decreases z - y
  {
    if y < z {
      YearsApart(y, z - 1);
      YearStep(z - 1);
    }
  }

  predicate Holds(y: int, d: int) { YearStart(y) <= d < YearStart(y + 1) }

  /** Some year holds day `d`, found from `y`. */
  lemma {:induction false} SomeYearHolds(y: int, d: int)
    ensures exists r :: Holds(r, d)
    decreases if d < YearStart(y) then YearStart(y) - d else d - YearStart(y)
  {
    YearStep(y);
    YearStep(y - 1);
    if d < YearStart(y) {
      if YearStart(y - 1) <= d { assert Holds(y - 1, d); } else { SomeYearHolds(y - 1, d); }
    } else if d < YearStart(y + 1) {
      assert Holds(y, d);
    } else {
      SomeYearHolds(y + 1, d);
    }
  }

  lemma OneYearHolds(d: int)
    ensures forall y, z | Holds(y, d) && Holds(z, d) :: y == z
  {
    forall y, z | Holds(y, d) && Holds(z, d) ensures y == z {
      if z < y { YearsApart(z + 1, y); }
      if y < z { YearsApart(y + 1, z); }
    }
  }

  /** The year that holds day `d`. */
  function YearOf(d: int): (r: int)
    ensures Holds(r, d)
  {
    SomeYearHolds(1970, d);
    OneYearHolds(d);
    var y :| Holds(y, d);
    y
  }

  lemma YearOfUnique(d: int, y: int)
    requires YearStart(y) <= d < YearStart(y + 1)
    ensures YearOf(d) == y
  {
    OneYearHolds(d);
    assert Holds(y, d) && Holds(YearOf(d), d);
  }

  /** Days of the year before the month (0 is January). */
  function MonthOffset(leap: bool, m: int): int
    requires 0 <= m <= 12
  {
    var extra := if leap then 1 else 0;
    match m
    case 0 => 0
    case 1 => 31
    case 2 => 59 + extra
    case 3 => 90 + extra
    case 4 => 120 + extra
    case 5 => 151 + extra
    case 6 => 181 + extra
    case 7 => 212 + extra
    case 8 => 243 + extra
    case 9 => 273 + extra
    case 10 => 304 + extra
    case 11 => 334 + extra
    case _ => 365 + extra
  }

  function MonthStart(y: int, m: int): int
    requires 0 <= m <= 12
  {
    YearStart(y) + MonthOffset(IsLeap(y), m)
  }

  /** Length of the month by the usual table, leap years by the Gregorian rule. */
  function MonthLength(y: int, m: int): int
    requires 0 <= m < 12
  {
    if m == 1 then (if IsLeap(y) then 29 else 28)
    else if m == 3 || m == 5 || m == 8 || m == 10 then 30
    else 31
  }

  lemma MonthStep(y: int, m: int)
    requires 0 <= m < 12
    ensures MonthStart(y, m + 1) == MonthStart(y, m) + MonthLength(y, m)
    ensures MonthStart(y, 12) == YearStart(y + 1)
  {
    YearStep(y);
  }

  function MonthOf(d: int): (m: int)
    ensures 0 <= m < 12 && MonthStart(YearOf(d), m) <= d < MonthStart(YearOf(d), m + 1)
  {
    var y := YearOf(d);
    MonthStep(y, 11);
    if d < MonthStart(y, 1) then 0
    else if d < MonthStart(y, 2) then 1
    else if d < MonthStart(y, 3) then 2
    else if d < MonthStart(y, 4) then 3
    else if d < MonthStart(y, 5) then 4
    else if d < MonthStart(y, 6) then 5
    else if d < MonthStart(y, 7) then 6
    else if d < MonthStart(y, 8) then 7
    else if d < MonthStart(y, 9) then 8
    else if d < MonthStart(y, 10) then 9
    else if d < MonthStart(y, 11) then 10
    else 11
  }

  /** Day of the month, from 1. */
  function DateOf(d: int): (k: int)
    ensures 1 <= k <= MonthLength(YearOf(d), MonthOf(d)) && MonthStart(YearOf(d), MonthOf(d)) + k - 1 == d
  {
    MonthStep(YearOf(d), MonthOf(d));
    d - MonthStart(YearOf(d), MonthOf(d)) + 1
  }

  lemma {:induction false} MonthsAscend(y: int, m: int, n: int)
    requires 0 <= m <= n <= 12
    ensures MonthStart(y, m) <= MonthStart(y, n)
    decreases n - m
  {
    if m < n { MonthStep(y, n - 1); MonthsAscend(y, m, n - 1); }
  }

  lemma MonthStartZero(y: int)
    ensures MonthStart(y, 0) == YearStart(y)
  {
  }

  lemma MonthInsideYear(y: int, m: int)
    requires 0 <= m < 12
    ensures YearStart(y) <= MonthStart(y, m) && MonthStart(y, m) + MonthLength(y, m) <= YearStart(y + 1)
  {
    MonthStartZero(y);
    MonthStep(y, m);
    MonthStep(y, 11);
    hide YearStart, MonthStart, MonthLength;
    MonthsAscend(y, 0, m);
    MonthsAscend(y, m + 1, 12);
  }

  /** Year, month and day of the month determine the day number, and the day number them. */
  lemma FieldsRoundTrip(y: int, m: int, k: int)
    requires 0 <= m < 12 && 1 <= k <= MonthLength(y, m)
    ensures var d := MonthStart(y, m) + k - 1; YearOf(d) == y && MonthOf(d) == m && DateOf(d) == k
  {
    hide YearStart, MonthOffset, MonthLength, IsLeap;
    var d := MonthStart(y, m) + k - 1;
    MonthStartZero(y);
    MonthStep(y, m);
    MonthsAscend(y, 0, m);
    MonthsAscend(y, m + 1, 12);
    MonthStep(y, 11);
    YearOfUnique(d, y);
    hide MonthStart;
    var n := MonthOf(d);
    if n < m { MonthsAscend(y, n + 1, m); }
    if m < n { MonthsAscend(y, m + 1, n); }
  }

  /** Monday is 1, Sunday is 7; day 0 was a Thursday. */
  function IsoWeekday(d: int): (w: int)
    ensures 1 <= w <= 7
  {
    var js := (d + 4) % 7;
    if js == 0 then 7 else js
  }

  // -- The `Date` constructor and its two-digit years ---------------------

  /** Years 0 to 99 given to the constructor mean 1900 to 1999. */
  predicate Clear(y: int) { !(0 <= y <= 99) }

  function FullYear(y: int): int { if Clear(y) then y else 1900 + y }

  /** `new Date(y, m, date)`: month and date may overflow. */
  function MakeDate(y: int, m: int, date: int): int {
    MonthStart(FullYear(y) + m / 12, m % 12) + date - 1
  }

  /** `new Date(d.getFullYear(), d.getMonth(), d.getDate())`, as the helpers copy a date. */
  function Copy(d: int): int { MakeDate(YearOf(d), MonthOf(d), DateOf(d)) }

  /** The copy is the same day exactly when the year is not read as a two-digit one. */
  lemma CopyIsSame(d: int)
    ensures Copy(d) == d <==> Clear(YearOf(d))
    ensures !Clear(YearOf(d)) ==> 1900 <= YearOf(Copy(d)) <= 1999
  {
    hide YearStart, MonthOffset, MonthStart, MonthLength, IsLeap;
    var y, m, k := YearOf(d), MonthOf(d), DateOf(d);
    assert m / 12 == 0 && m % 12 == m;
    if !Clear(y) {
      LaterYear(y, m, k);
      YearsApart(y + 1, 1900 + y);
      MonthsAscend(y, m + 1, 12);
      MonthStep(y, 11);
    }
  }

  /** 29 February of year 0 overflows into March 1900; every other date keeps its place. */
  lemma LaterYear(y: int, m: int, k: int)
    requires 0 <= y <= 99 && 0 <= m < 12 && 1 <= k <= MonthLength(y, m)
    ensures var d := MonthStart(1900 + y, m) + k - 1; YearOf(d) == 1900 + y && d >= YearStart(1900 + y)
  {
    var z := 1900 + y;
    MonthStep(z, m);
    MonthsAscend(z, 0, m);
    MonthsAscend(z, m + 1, 12);
    if m < 11 { MonthStep(z, m + 1); MonthsAscend(z, m + 2, 12); }
    YearOfUnique(MonthStart(z, m) + k - 1, z);
  }
}
