/** The client's projection of one timer into the visible range: a walk over its civil days, proved
    equal to the set of days the schedule names. Times are local milliseconds since 1 January 1970. */
module Projection {
  import opened Civil
  import opened Calendar
  import opened DateTexts

  const DAY_MS := 86_400_000

  /** 1 January of year 0, the first date of the form YYYY-MM-DD. */
  const FIRST_DATE: int := YearStart(0)

  /** 1 January of year 100, the first day that no helper reads as a two-digit year. */
  const FIRST_DAY: int := YearStart(100)

  /** `at` is the time of day in seconds, as the three numbers of the schedule's clock add up. */
  datatype Occurrence =
    | Daily(at: nat)
    | Weekly(days: set<int>, at: nat)
    | Monthly(day: int, at: nat)
    | Yearly(month: int, day: int, at: nat)
    | Single(nextFire: int)          // any other kind, with a known next fire
    | Unknown                        // any other kind, without one

  datatype Fire = Fire(day: int, instant: int)

  /** Kinds that are walked day by day. */
  predicate Recurs(occ: Occurrence) { occ.Daily? || occ.Weekly? || occ.Monthly? || occ.Yearly? }

  function FireOn(occ: Occurrence, d: int): Fire
    requires Recurs(occ)
  {
    Fire(d, d * DAY_MS + occ.at * 1000)
  }

  function Min(a: int, b: int): int { if a <= b then a else b }

  /** The schedule names day `d`: a day of the month past the month's end means its last day. */
  predicate Names(occ: Occurrence, d: int) {
    match occ
    case Daily(_) => true
    case Weekly(days, _) => IsoWeekday(d) in days
    case Monthly(day, _) => day != 0 && DateOf(d) == Min(day, MonthLength(YearOf(d), MonthOf(d)))
    case Yearly(month, day, _) =>
      month != 0 && day != 0 && MonthOf(d) + 1 == month && DateOf(d) == Min(day, MonthLength(YearOf(d), MonthOf(d)))
    case _ => false
  }

  /** What a walk from day `first` to day `last` should hold: one fire for every named day whose text lies
      in the range of texts, later than now. */
  ghost predicate Wanted(occ: Occurrence, first: int, last: int, from: int, to: int, now: int, f: Fire) {
    && Recurs(occ) && first <= f.day <= last && Shown(f.day, from, to)
    && Names(occ, f.day) && f == FireOn(occ, f.day) && f.instant > now
  }

  /** What the projection of any kind holds. The walk goes from the copy of the first date to that of
      the last. */
  ghost predicate Projects(occ: Occurrence, from: int, to: int, now: int, f: Fire) {
    || Wanted(occ, Copy(from), Copy(to), from, to, now, f)
    || (occ.Single? && f == Fire(occ.nextFire / DAY_MS, occ.nextFire) && f.instant > now && Shown(f.day, from, to))
  }

  predicate Ascending(fires: seq<Fire>) {
    forall i, j | 0 <= i < j < |fires| :: fires[i].day < fires[j].day && fires[i].instant < fires[j].instant
  }

  ghost predicate Collected(fires: seq<Fire>, occ: Occurrence, first: int, last: int, from: int, to: int, now: int) {
    && (forall f :: f in fires <==> Wanted(occ, first, last, from, to, now, f))
    && Ascending(fires)
  }

  /** The walk over a written range. */
  ghost predicate Walked(fires: seq<Fire>, occ: Occurrence, from: int, to: int, now: int) {
    Collected(fires, occ, Copy(from), Copy(to), from, to, now)
  }

  /** `Set.has`, date tests and the length of the month, as the walk evaluates them. */
  method DayMatches(occ: Occurrence, cursor: int) returns (yes: bool)
    requires Recurs(occ) && cursor >= FIRST_DAY
    ensures yes <==> Names(occ, cursor)
  {
    NotBefore(cursor, 100);
    DaysInMonthIsLength(YearOf(cursor), MonthOf(cursor));
    match occ {
      case Daily(_) => yes := true;
      case Weekly(days, _) => yes := IsoWeekday(cursor) in days;
      case Monthly(day, _) =>
        yes := day != 0 && DateOf(cursor) == Min(day, DaysInMonth(YearOf(cursor), MonthOf(cursor)));
      case Yearly(month, day, _) =>
        yes := month != 0 && day != 0 && MonthOf(cursor) + 1 == month
               && DateOf(cursor) == Min(day, DaysInMonth(YearOf(cursor), MonthOf(cursor)));
    }
  }

  lemma NextDay(d: int)
    requires d >= FIRST_DAY
    ensures AddDaysSpec(d, 1) == d + 1
  {
    NotBefore(d, 100);
    CopyIsSame(d);
  }

  lemma CollectDay(fires: seq<Fire>, occ: Occurrence, first: int, d: int, from: int, to: int, now: int)
    requires Recurs(occ) && first <= d && Collected(fires, occ, first, d - 1, from, to, now)
    ensures var f := FireOn(occ, d);
      Collected(if Names(occ, d) && Shown(d, from, to) && f.instant > now then fires + [f] else fires,
                occ, first, d, from, to, now)
  {
    hide Names, Shown;
    var f := FireOn(occ, d);
    forall i | 0 <= i < |fires| ensures fires[i].day < d && fires[i].instant < f.instant {
      assert fires[i] in fires;
      assert Wanted(occ, first, d - 1, from, to, now, fires[i]);
      assert fires[i] == FireOn(occ, fires[i].day);
    }
    forall g | Wanted(occ, first, d, from, to, now, g) ensures g == f || g in fires {
      if g.day < d { assert Wanted(occ, first, d - 1, from, to, now, g); }
    }
    forall g | g in fires ensures Wanted(occ, first, d, from, to, now, g) {
      assert Wanted(occ, first, d - 1, from, to, now, g);
    }
  }

  lemma EmptyWalk(occ: Occurrence, first: int, last: int, from: int, to: int, now: int)
    requires first > last
    ensures Collected([], occ, first, last, from, to, now)
  {
    hide Names, Shown;
  }

  /** A walk that ends before it begins. */
  lemma SameWalk(fires: seq<Fire>, occ: Occurrence, first: int, last: int, last': int, from: int, to: int, now: int)
    requires first > last && first > last' && Collected(fires, occ, first, last, from, to, now)
    ensures Collected(fires, occ, first, last', from, to, now)
  {
    hide Names, Shown;
    forall f ensures Wanted(occ, first, last, from, to, now, f) <==> Wanted(occ, first, last', from, to, now, f) {}
  }

  /** The copy of a written date is never earlier and never of the years 0 to 99. */
  lemma CopyOfDate(d: int)
    requires d >= FIRST_DATE
    ensures Copy(d) >= d && Copy(d) >= FIRST_DAY
  {
    hide YearOf, Copy, YearStart;
    NotBefore(d, 0);
    CopyIsSame(d);
    YearHolds(Copy(d));
    if Clear(YearOf(d)) {
      YearsApart(100, YearOf(d));
    } else {
      FarApart(d, Copy(d));
      YearsApart(100, YearOf(Copy(d)));
    }
  }

  /** The walk over the civil days between two written dates: it starts and ends at their copies and
      keeps the days whose texts lie between those of the dates. */
  method Walk(occ: Occurrence, from: int, to: int, now: int) returns (fires: seq<Fire>)
    requires Recurs(occ) && from >= FIRST_DATE && to >= FIRST_DATE
    ensures Walked(fires, occ, from, to, now)
  {
    hide Names, AddDaysSpec, Collected, Copy, YearOf, YearStart, FireOn, Shown;
    CopyOfDate(from);
    CopyOfDate(to);
    fires := [];
    var start, end := Copy(from), Copy(to);
    EmptyWalk(occ, start, start - 1, from, to, now);
    var cursor := start;
    while cursor <= end
      invariant start <= cursor
      invariant Collected(fires, occ, start, cursor - 1, from, to, now)
      invariant cursor <= end + 1 || cursor == start
    {
      var yes := DayMatches(occ, cursor);
      CollectDay(fires, occ, start, cursor, from, to, now);
      if yes && Shown(cursor, from, to) && FireOn(occ, cursor).instant > now {
        fires := fires + [FireOn(occ, cursor)];
      }
      NextDay(cursor);
      cursor := AddDays(cursor, 1);
    }
    if cursor > end + 1 { SameWalk(fires, occ, start, cursor - 1, end, from, to, now); }
  }

  method ProjectTimer(occ: Occurrence, from: int, to: int, now: int) returns (fires: seq<Fire>)
    requires from >= FIRST_DATE && to >= FIRST_DATE
    ensures Recurs(occ) ==> Walked(fires, occ, from, to, now)
    ensures Ascending(fires) && forall f :: f in fires <==> Projects(occ, from, to, now, f)
  {
    hide Shown, Copy, Names;
    fires := [];
    if Recurs(occ) {
      fires := Walk(occ, from, to, now);
    } else if occ.Single? && occ.nextFire > now && Shown(occ.nextFire / DAY_MS, from, to) {
      fires := [Fire(occ.nextFire / DAY_MS, occ.nextFire)];
    }
  }

  // -- The walk against the range of days ---------------------------------

  /** What a reader of the page expects: one fire for every named day of the range still to come. */
  ghost predicate Expected(occ: Occurrence, from: int, to: int, now: int, f: Fire) {
    Recurs(occ) && from <= f.day <= to && Names(occ, f.day) && f == FireOn(occ, f.day) && f.instant > now
  }

  ghost predicate RangeProjected(fires: seq<Fire>, occ: Occurrence, from: int, to: int, now: int) {
    && (forall f :: f in fires <==> Expected(occ, from, to, now, f))
    && Ascending(fires)
  }

  /** Main result: from year 100 on, and with years of equally many digits, the whole range is projected. */
  lemma RangeIsProjected(fires: seq<Fire>, occ: Occurrence, from: int, to: int, now: int)
    requires 100 <= YearOf(from) && 100 <= YearOf(to) && SameDigits(YearOf(from), YearOf(to))
    requires Walked(fires, occ, from, to, now)
    ensures RangeProjected(fires, occ, from, to, now)
  {
    hide Names, Copy, Shown, SameDigits, YearOf;
    CopyIsSame(from);
    CopyIsSame(to);
    forall f ensures Wanted(occ, from, to, from, to, now, f) <==> Expected(occ, from, to, now, f) {
      if from <= f.day <= to {
        YearAscends(from, f.day);
        YearAscends(f.day, to);
        SameDigitsBetween(YearOf(from), YearOf(f.day), YearOf(to));
        ShownInRange(f.day, from, to);
      }
    }
  }

  /** Main result: the projected fires are the named days of the range, each at midnight plus its time of
      day; a daily timer names every day, a weekly one the listed days of the week, 1 January 1970 being
      a Thursday. */
  lemma FiresOfTheDay(fires: seq<Fire>, occ: Occurrence, from: int, to: int, now: int, d: int, instant: int)
    requires RangeProjected(fires, occ, from, to, now)
    ensures occ.Daily? ==>
        (Fire(d, instant) in fires <==> from <= d <= to && instant == d * 86_400_000 + occ.at * 1000 && instant > now)
    ensures occ.Weekly? ==>
        (Fire(d, instant) in fires <==>
           from <= d <= to && instant == d * 86_400_000 + occ.at * 1000 && instant > now && (d + 3) % 7 + 1 in occ.days)
    ensures Fire(d, instant) in fires ==>
        (occ.Daily? || occ.Weekly? || occ.Monthly? || occ.Yearly?) && instant == d * 86_400_000 + occ.at * 1000
  {
    hide YearOf, MonthOf, DateOf, MonthLength;
    assert Fire(d, instant) in fires <==> Expected(occ, from, to, now, Fire(d, instant));
    assert IsoWeekday(d) == (d + 3) % 7 + 1;
  }

  /** Where a year of the page gets a digit more, nothing is projected. */
  lemma NothingProjected(fires: seq<Fire>, occ: Occurrence, from: int, to: int, now: int)
    requires IsPage(from, to) && !SameDigits(YearOf(from), YearOf(to)) && Walked(fires, occ, from, to, now)
    ensures fires == []
  {
    hide Names, Copy, Shown, SameDigits, YearOf, IsPage;
    if fires != [] {
      assert fires[0] in fires;
      assert Wanted(occ, Copy(from), Copy(to), from, to, now, fires[0]);
      NothingShown(fires[0].day, from, to);
    }
  }

  /** Main result: with the clock in 2000 or later a page is projected as expected exactly when its first
      and last year have equally many digits, or no fire of it is still to come. */
  lemma PageProjectedExactly(fires: seq<Fire>, occ: Occurrence, from: int, to: int, now: int)
    requires IsPage(from, to) && Recurs(occ) && Walked(fires, occ, from, to, now)
    requires occ.at < 86_400 && now >= YearStart(2000) * DAY_MS
    ensures RangeProjected(fires, occ, from, to, now)
            <==> SameDigits(YearOf(from), YearOf(to))
                 || forall d | from <= d <= to && Names(occ, d) :: FireOn(occ, d).instant <= now
  {
    hide Names, Copy, SameDigits, YearOf, YearStart, IsPage, Walked, Shown;
    if !SameDigits(YearOf(from), YearOf(to)) {
      NothingProjected(fires, occ, from, to, now);
      NothingExpected(occ, from, to, now);
    } else if YearOf(from) >= 100 {
      PageAscends(from, to);
      RangeIsProjected(fires, occ, from, to, now);
    } else {
      PageAscends(from, to);
      PageBefore100(fires, occ, from, to, now);
    }
  }

  lemma PageAscends(from: int, to: int)
    requires IsPage(from, to)
    ensures 0 <= YearOf(from) <= YearOf(to) <= YearOf(from) + 1
  {
    hide YearOf;
    YearAscends(from, to);
  }

  lemma NothingExpected(occ: Occurrence, from: int, to: int, now: int)
    requires Recurs(occ)
    ensures RangeProjected([], occ, from, to, now)
            <==> forall d | from <= d <= to && Names(occ, d) :: FireOn(occ, d).instant <= now
  {
    hide Names;
    if RangeProjected([], occ, from, to, now) {
      forall d | from <= d <= to && Names(occ, d) ensures FireOn(occ, d).instant <= now {
        var none: seq<Fire> := [];
        assert FireOn(occ, d) !in none && (FireOn(occ, d) in none <==> Expected(occ, from, to, now, FireOn(occ, d)));
      }
    }
  }

  /** The first century and its copies in the 1900s are over. */
  lemma PageBefore100(fires: seq<Fire>, occ: Occurrence, from: int, to: int, now: int)
    requires 0 <= YearOf(from) <= YearOf(to) <= YearOf(from) + 1 && YearOf(from) < 100
    requires SameDigits(YearOf(from), YearOf(to)) && Recurs(occ) && Walked(fires, occ, from, to, now)
    requires occ.at < 86_400 && now >= YearStart(2000) * DAY_MS
    ensures RangeProjected(fires, occ, from, to, now)
  {
    hide Names, Copy, YearStart, Shown, YearOf;
    DigitsOf100();
    CopyIsSame(to);
    YearHolds(to);
    YearHolds(Copy(to));
    YearsApart(YearOf(to) + 1, 2000);
    YearsApart(YearOf(Copy(to)) + 1, 2000);
    forall f ensures !Expected(occ, from, to, now, f) && !Wanted(occ, Copy(from), Copy(to), from, to, now, f) {}
  }

  lemma DigitsOf100()
    ensures !SameDigits(99, 100)
  {
    assert |Digits(99)| == 2 && |Digits(100)| == 3;
  }

  // -- One fire per month, one per year -----------------------------------

  /** Main result: a monthly timer gets exactly one fire in each month that the range covers whole
      and in which its time is not over: on its day, or on the last day of a shorter month. */
  lemma OncePerMonth(occ: Occurrence, from: int, to: int, now: int, fires: seq<Fire>, y: int, m: int)
    requires occ.Monthly? && occ.day >= 1 && 0 <= m < 12
    requires RangeProjected(fires, occ, from, to, now)
    requires from <= MonthStart(y, m) && MonthStart(y, m + 1) - 1 <= to
    requires FireOn(occ, MonthStart(y, m) + Min(occ.day, MonthLength(y, m)) - 1).instant > now
    ensures var d := MonthStart(y, m) + Min(occ.day, MonthLength(y, m)) - 1;
      && FireOn(occ, d) in fires
      && (forall f | f in fires && YearOf(f.day) == y && MonthOf(f.day) == m :: f == FireOn(occ, d))
  {
    hide YearOf, MonthOf, DateOf, MonthStart;
    var k := Min(occ.day, MonthLength(y, m));
    LengthPositive(y, m);
    MonthStep(y, m);
    FieldsRoundTrip(y, m, k);
    var d := MonthStart(y, m) + k - 1;
    assert Expected(occ, from, to, now, FireOn(occ, d));
    forall f | f in fires && YearOf(f.day) == y && MonthOf(f.day) == m ensures f == FireOn(occ, d) {
      assert Expected(occ, from, to, now, f);
      DayOfFields(f.day);
    }
  }

  /** Main result: likewise a yearly timer, once in each year covered whole. */
  lemma OncePerYear(occ: Occurrence, from: int, to: int, now: int, fires: seq<Fire>, y: int)
    requires occ.Yearly? && occ.day >= 1 && 1 <= occ.month <= 12
    requires RangeProjected(fires, occ, from, to, now)
    requires from <= YearStart(y) && YearStart(y + 1) - 1 <= to
    requires FireOn(occ, MonthStart(y, occ.month - 1) + Min(occ.day, MonthLength(y, occ.month - 1)) - 1).instant > now
    ensures var d := MonthStart(y, occ.month - 1) + Min(occ.day, MonthLength(y, occ.month - 1)) - 1;
      && FireOn(occ, d) in fires
      && (forall f | f in fires && YearOf(f.day) == y :: f == FireOn(occ, d))
  {
    hide YearOf, MonthOf, DateOf, MonthStart, YearStart, MonthLength;
    var m := occ.month - 1;
    MonthInsideYear(y, m);
    var k := Min(occ.day, MonthLength(y, m));
    LengthPositive(y, m);
    FieldsRoundTrip(y, m, k);
    var d := MonthStart(y, m) + k - 1;
    assert Expected(occ, from, to, now, FireOn(occ, d));
    forall f | f in fires && YearOf(f.day) == y ensures f == FireOn(occ, d) {
      assert Expected(occ, from, to, now, f);
      DayOfFields(f.day);
    }
  }

  lemma DayOfFields(d: int)
    ensures d == MonthStart(YearOf(d), MonthOf(d)) + DateOf(d) - 1
  {
  }

  /** Main result: a timer of another kind gets its one known fire, if it is still to come and its date is
      shown, and a timer without one gets none. */
  lemma SingleFire(fires: seq<Fire>, occ: Occurrence, from: int, to: int, now: int, f: Fire)
    requires (occ.Single? || occ.Unknown?) && forall g :: g in fires <==> Projects(occ, from, to, now, g)
    ensures f in fires <==>
        occ.Single? && f == Fire(occ.nextFire / 86_400_000, occ.nextFire) && occ.nextFire > now
        && Shown(occ.nextFire / 86_400_000, from, to)
  {
    hide Shown, Copy, Names;
  }
}
