/** Dates as the pages write and compare them: `isoDate` pads month and day but not the year, and the
    texts are compared character by character. */
module DateTexts {
  import opened Civil
  import opened Calendar

  // -- Numbers as texts ---------------------------------------------------

  function Digit(d: nat): char
    requires d < 10
  {
    "0123456789"[d]
  }

  lemma DigitOrder(c: nat, d: nat)
    requires c < 10 && d < 10
    ensures Digit(c) < Digit(d) <==> c < d
    ensures Digit(c) == Digit(d) <==> c == d
    ensures '0' <= Digit(d) <= '9'
  {
    assert forall k | 0 <= k < 10 :: "0123456789"[k] == '0' + k as char;
  }

  function Digits(n: nat): string { if n < 10 then [Digit(n)] else Digits(n / 10) + [Digit(n % 10)] }

  function Decimal(n: int): string { if n < 0 then "-" + Digits(-n) else Digits(n) }

  lemma {:induction false} DigitsArePlain(n: nat)
    ensures |Digits(n)| >= 1 && forall c | c in Digits(n) :: c != '|' && c != '-'
  {
    DigitOrder(n % 10, n % 10);
    if n >= 10 { DigitsArePlain(n / 10); }
  }

  lemma {:induction false} LengthAscends(m: nat, n: nat)
    requires m <= n
    ensures |Digits(m)| <= |Digits(n)|
    decreases n
  {
    DigitsArePlain(n);
    if m >= 10 { LengthAscends(m / 10, n / 10); }
  }

  /** A number with one digit more than its predecessor starts a new row of nines. */
  lemma {:induction false} LengthGrows(n: nat)
    ensures |Digits(n + 1)| != |Digits(n)| ==> Digits(n)[0] == '9' && Digits(n + 1)[0] == '1'
    decreases n
  {
    if n >= 10 {
      DigitsArePlain(n / 10);
      DigitsArePlain((n + 1) / 10);
      if n % 10 == 9 {
        assert (n + 1) / 10 == n / 10 + 1;
        LengthGrows(n / 10);
      } else {
        assert (n + 1) / 10 == n / 10;
      }
    }
  }

  // -- The order of texts -------------------------------------------------

  /** `a < b` on strings. */
  predicate TextLess(a: string, b: string) {
    b != "" && (a == "" || a[0] < b[0] || (a[0] == b[0] && TextLess(a[1..], b[1..])))
  }

  lemma {:induction false} TextLessCompares(a: string, b: string)
    ensures !(TextLess(a, b) && TextLess(b, a))
    ensures TextLess(a, b) || TextLess(b, a) || a == b
    decreases |a|
  {
    if a != "" && b != "" && a[0] == b[0] {
      TextLessCompares(a[1..], b[1..]);
      if a[1..] == b[1..] { assert a == [a[0]] + a[1..] && b == [b[0]] + b[1..]; }
    }
  }

  /** What is not before `a` and not after `b` proves that `b` is not before `a`. */
  lemma {:induction false} BetweenTexts(a: string, t: string, b: string)
    requires !TextLess(t, a) && !TextLess(b, t)
    ensures !TextLess(b, a)
    decreases |a|
  {
    if a != "" && t != "" && b != "" && a[0] == t[0] == b[0] { BetweenTexts(a[1..], t[1..], b[1..]); }
  }

  /** The first difference decides. */
  lemma {:induction false} CommonStart(p: string, a: string, b: string)
    ensures TextLess(p + a, p + b) <==> TextLess(a, b)
    decreases |p|
  {
    if p == "" {
      assert p + a == a && p + b == b;
    } else {
      assert (p + a)[1..] == p[1..] + a && (p + b)[1..] == p[1..] + b;
      CommonStart(p[1..], a, b);
    }
  }

  lemma {:induction false} EarlierDifference(p: string, q: string, a: string, b: string)
    requires |p| == |q| && p != q
    ensures TextLess(p + a, q + b) <==> TextLess(p, q)
    decreases |p|
  {
    assert (p + a)[1..] == p[1..] + a && (q + b)[1..] == q[1..] + b;
    assert p == [p[0]] + p[1..] && q == [q[0]] + q[1..];
    if p[0] == q[0] { EarlierDifference(p[1..], q[1..], a, b); }
  }

  /** Numbers of equally many digits are ordered as texts. */
  lemma {:induction false} DigitsOrder(m: nat, n: nat)
    requires |Digits(m)| == |Digits(n)|
    ensures TextLess(Digits(m), Digits(n)) <==> m < n
    ensures Digits(m) == Digits(n) <==> m == n
    decreases m
  {
    LastDigits(m, n);
    if m >= 10 && n >= 10 {
      DigitsOrder(m / 10, n / 10);
      var a, b := Digits(m), Digits(n);
      assert a[..|a| - 1] == Digits(m / 10) && b[..|b| - 1] == Digits(n / 10);
      assert a[|a| - 1] == Digit(m % 10) && b[|b| - 1] == Digit(n % 10);
      if m / 10 == n / 10 {
        CommonStart(Digits(m / 10), [Digit(m % 10)], [Digit(n % 10)]);
      } else {
        EarlierDifference(Digits(m / 10), Digits(n / 10), [Digit(m % 10)], [Digit(n % 10)]);
      }
    }
  }

  lemma LastDigits(m: nat, n: nat)
    ensures TextLess([Digit(m % 10)], [Digit(n % 10)]) <==> m % 10 < n % 10
    ensures Digit(m % 10) == Digit(n % 10) <==> m % 10 == n % 10
    ensures |Digits(m)| == |Digits(n)| ==> (m < 10 <==> n < 10)
  {
    DigitOrder(m % 10, n % 10);
    DigitsArePlain(m / 10);
    DigitsArePlain(n / 10);
  }

  // -- Dates as texts -----------------------------------------------------

  /** `padStart(2, '0')`. */
  function Two(n: nat): string
    requires n < 100
  {
    [Digit(n / 10), Digit(n % 10)]
  }

  lemma TwoOrder(m: nat, n: nat)
    requires m < 100 && n < 100
    ensures TextLess(Two(m), Two(n)) <==> m < n
    ensures Two(m) == Two(n) <==> m == n
  {
    DigitOrder(m / 10, n / 10);
    DigitOrder(m % 10, n % 10);
    var a, b := Two(m), Two(n);
    assert a[0] == Digit(m / 10) && b[0] == Digit(n / 10) && a[1] == Digit(m % 10) && b[1] == Digit(n % 10);
    assert a[1..] == [Digit(m % 10)] && b[1..] == [Digit(n % 10)];
    LastDigits(m, n);
    assert m == 10 * (m / 10) + m % 10 && n == 10 * (n / 10) + n % 10;
  }

  function MonthText(d: int): string {
    LengthPositive(YearOf(d), MonthOf(d));
    "-" + Two(MonthOf(d) + 1) + "-" + Two(DateOf(d))
  }

  /** `isoDate`. */
  function DateText(d: int): string { Decimal(YearOf(d)) + MonthText(d) }

  lemma MonthTextOrder(d: int, e: int)
    ensures TextLess(MonthText(d), MonthText(e)) <==>
        MonthOf(d) < MonthOf(e) || (MonthOf(d) == MonthOf(e) && DateOf(d) < DateOf(e))
  {
    hide MonthOf, DateOf, Two, TextLess, MonthLength;
    LengthPositive(YearOf(d), MonthOf(d));
    LengthPositive(YearOf(e), MonthOf(e));
    var a, b := Two(MonthOf(d) + 1), Two(MonthOf(e) + 1);
    var x, y := "-" + Two(DateOf(d)), "-" + Two(DateOf(e));
    TwoOrder(MonthOf(d) + 1, MonthOf(e) + 1);
    TwoOrder(DateOf(d), DateOf(e));
    TwoLength(MonthOf(d) + 1);
    TwoLength(MonthOf(e) + 1);
    assert MonthText(d) == "-" + (a + x) && MonthText(e) == "-" + (b + y);
    CommonStart("-", a + x, b + y);
    if a == b {
      CommonStart(a, x, y);
      CommonStart("-", Two(DateOf(d)), Two(DateOf(e)));
    } else {
      EarlierDifference(a, b, x, y);
    }
  }

  lemma TwoLength(n: nat)
    requires n < 100
    ensures |Two(n)| == 2
  {
  }

  /** Days compare as year, month and day of the month. */
  lemma DayOrder(d: int, e: int)
    ensures YearOf(d) < YearOf(e) ==> d < e
    ensures YearOf(d) == YearOf(e) ==>
        (d < e <==> MonthOf(d) < MonthOf(e) || (MonthOf(d) == MonthOf(e) && DateOf(d) < DateOf(e)))
  {
    hide YearStart, MonthOffset, MonthStart, MonthLength;
    var y, z := YearOf(d), YearOf(e);
    if y < z { YearsApart(y + 1, z); }
    if y == z {
      var m, n := MonthOf(d), MonthOf(e);
      if m < n { MonthsAscend(y, m + 1, n); }
      if n < m { MonthsAscend(y, n + 1, m); }
    }
  }

  /** The two years are written with equally many digits. */
  predicate SameDigits(y: int, z: int) { 0 <= y && 0 <= z && |Digits(y)| == |Digits(z)| }

  /** Main result: dates whose years have equally many digits compare as texts as they do as days. */
  lemma TextOrder(d: int, e: int)
    requires SameDigits(YearOf(d), YearOf(e))
    ensures TextLess(DateText(d), DateText(e)) <==> d < e
  {
    hide MonthText, MonthOf, DateOf, Digits, TextLess, YearOf;
    var y, z := YearOf(d), YearOf(e);
    DigitsOrder(y, z);
    DayOrder(d, e);
    DayOrder(e, d);
    if y == z {
      MonthTextOrder(d, e);
      CommonStart(Decimal(y), MonthText(d), MonthText(e));
    } else {
      EarlierDifference(Decimal(y), Decimal(z), MonthText(d), MonthText(e));
    }
  }

  /** Main result: for dates of the same year or of consecutive ones the order of the texts is the
      order of the days exactly when the years have equally many digits. */
  lemma TextOrderExactly(d: int, e: int)
    requires 0 <= YearOf(d) <= YearOf(e) <= YearOf(d) + 1 && d < e
    ensures TextLess(DateText(d), DateText(e)) <==> SameDigits(YearOf(d), YearOf(e))
  {
    if SameDigits(YearOf(d), YearOf(e)) {
      TextOrder(d, e);
    } else {
      LongerYearFirst(d, e);
      TextLessCompares(DateText(d), DateText(e));
    }
  }

  /** 31 December 9999 comes after 1 January 10000. */
  lemma LongerYearFirst(d: int, e: int)
    requires 0 <= YearOf(d) && YearOf(e) == YearOf(d) + 1 && !SameDigits(YearOf(d), YearOf(e))
    ensures TextLess(DateText(e), DateText(d))
  {
    hide MonthText, YearOf;
    LengthGrows(YearOf(d));
    DigitsArePlain(YearOf(d));
    DigitsArePlain(YearOf(e));
  }

  // -- Ranges of date texts -----------------------------------------------

  /** The test of a date against the first and last date of a range, all as texts. */
  predicate Shown(d: int, from: int, to: int) {
    !TextLess(DateText(d), DateText(from)) && !TextLess(DateText(to), DateText(d))
  }

  lemma ShownInRange(d: int, from: int, to: int)
    requires SameDigits(YearOf(d), YearOf(from)) && SameDigits(YearOf(d), YearOf(to))
    ensures Shown(d, from, to) <==> from <= d <= to
  {
    hide DateText, SameDigits, TextLess;
    TextOrder(d, from);
    SameDigitsBack(YearOf(d), YearOf(to));
    TextOrder(to, d);
  }

  lemma SameDigitsBack(y: int, z: int)
    ensures SameDigits(y, z) <==> SameDigits(z, y)
  {
  }

  /** Years between two years of equally many digits have as many. */
  lemma SameDigitsBetween(y: int, x: int, z: int)
    requires SameDigits(y, z) && y <= x <= z
    ensures SameDigits(x, y) && SameDigits(x, z)
  {
    LengthAscends(y, x);
    LengthAscends(x, z);
  }

  /** A range as the pages ask for it: a week or a month grid. */
  predicate IsPage(from: int, to: int) { from <= to && 0 <= YearOf(from) && YearOf(to) <= YearOf(from) + 1 }

  /** Where a year gets a digit more, the page's range shows no date at all. */
  lemma NothingShown(d: int, from: int, to: int)
    requires IsPage(from, to) && !SameDigits(YearOf(from), YearOf(to))
    ensures !Shown(d, from, to)
  {
    hide DateText, SameDigits, TextLess, YearOf;
    DayOrder(to, from);
    SameYearDigits(YearOf(from));
    if Shown(d, from, to) {
      BetweenTexts(DateText(from), DateText(d), DateText(to));
      LongerYearFirst(from, to);
    }
  }

  lemma SameYearDigits(y: int)
    ensures 0 <= y ==> SameDigits(y, y)
  {
  }

  /** Main result: a page's range of texts is its range of days exactly when its first and last year
      have equally many digits. */
  lemma PageShownExactly(from: int, to: int)
    requires IsPage(from, to)
    ensures (forall d | from <= d <= to :: Shown(d, from, to)) <==> SameDigits(YearOf(from), YearOf(to))
    ensures (exists d :: Shown(d, from, to)) <==> SameDigits(YearOf(from), YearOf(to))
  {
    hide DateText, SameDigits, TextLess, Shown, YearOf;
    if SameDigits(YearOf(from), YearOf(to)) {
      forall d | from <= d <= to ensures Shown(d, from, to) {
        YearAscends(from, d);
        YearAscends(d, to);
        SameDigitsBetween(YearOf(from), YearOf(d), YearOf(to));
        ShownInRange(d, from, to);
      }
      assert Shown(from, from, to);
    } else {
      NothingShown(from, from, to);
      forall d ensures !Shown(d, from, to) { NothingShown(d, from, to); }
    }
  }

  lemma YearAscends(d: int, e: int)
    requires d <= e
    ensures YearOf(d) <= YearOf(e)
  {
    hide YearOf;
    DayOrder(e, d);
  }

  /** The grid of December 9999 runs from 29 November 9999 to 9 January 10000 and shows nothing. */
  lemma December9999Grid(d: int)
    ensures var grid := GridSpec(9999, 11); !Shown(d, grid[0], grid[CELLS - 1])
  {
    hide Shown, Copy, MakeDate, Monday, MonthStart, YearStart, IsoWeekday, YearOf;
    GridRightExactly(9999, 11);
    var grid := GridSpec(9999, 11);
    EndOf9999();
    assert grid[0] == Monday(MonthStart(9999, 11)) + 0 && grid[CELLS - 1] == Monday(MonthStart(9999, 11)) + 41;
    YearOfUnique(grid[0], 9999);
    YearOfUnique(grid[CELLS - 1], 10000);
    assert |Digits(9999)| == 4 && |Digits(10000)| == 5;
    NothingShown(d, grid[0], grid[CELLS - 1]);
  }

  lemma EndOf9999()
    ensures var first := Monday(MonthStart(9999, 11));
      YearStart(9999) <= first < YearStart(10000) <= first + 41 < YearStart(10001)
  {
    hide YearStart, MonthOffset, IsLeap;
    var first := MonthStart(9999, 11);
    MonthStep(9999, 11);
    MonthInsideYear(9999, 11);
    LengthPositive(9999, 11);
    MonthsAscend(9999, 0, 10);
    MonthStep(9999, 10);
    LengthPositive(9999, 10);
    MonthStartZero(9999);
    YearsApart(10000, 10001);
  }

  /** Month and day have two digits, the year as many as it needs. */
  lemma DateTextOf(y: nat, m: int, k: int)
    requires 0 <= m < 12 && 1 <= k <= MonthLength(y, m)
    ensures MonthLength(y, m) <= 31
    ensures DateText(MonthStart(y, m) + k - 1) == Digits(y) + "-" + Two(m + 1) + "-" + Two(k)
  {
    hide YearOf, MonthOf, DateOf, MonthStart, Two, Digits, MonthLength;
    LengthPositive(y, m);
    FieldsRoundTrip(y, m, k);
  }

  lemma DateTextExample()
    ensures DateText(19_782) == "2024-02-29"
  {
    hide YearOf, DateText, YearStart;
    DayFromYearCounts(2024);
    assert MonthStart(2024, 1) + 29 - 1 == 19_782;
    DateTextOf(2024, 1, 29);
    assert Digits(2) == "2";
    assert Digits(20) == "20";
    assert Digits(202) == "202";
    assert Digits(2024) == "2024";
    assert Two(2) == "02" && Two(29) == "29";
  }
}
