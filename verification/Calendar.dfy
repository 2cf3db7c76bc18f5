/** The proleptic Gregorian calendar as Go's time package computes it, on a day count from 0001-01-01. */
module Calendar {

  datatype Date = Date(year: int, month: int, day: int)

  predicate Leap(y: int) {
    y % 4 == 0 && (y % 100 != 0 || y % 400 == 0)
  }

  function DaysIn(y: int, m: int): int {
    if m == 2 then (if Leap(y) then 29 else 28)
    else if m == 4 || m == 6 || m == 9 || m == 11 then 30
    else 31
  }

  predicate ValidDate(d: Date) {
    1 <= d.month <= 12 && 1 <= d.day <= DaysIn(d.year, d.month)
  }

  /** Days from 0001-01-01 to the first day of the year. */
  function DaysBeforeYear(y: int): int {
    365 * (y - 1) + (y - 1) / 4 - (y - 1) / 100 + (y - 1) / 400
  }

  function DaysBeforeMonth(y: int, m: nat): int {
    if m <= 1 then 0 else DaysBeforeMonth(y, m - 1) + DaysIn(y, m - 1)
  }

  function DaysInYear(y: int): int {
    if Leap(y) then 366 else 365
  }

  function DayNumber(d: Date): int
    requires ValidDate(d)
  {
    DaysBeforeYear(d.year) + DaysBeforeMonth(d.year, d.month) + d.day - 1
  }

  /** The first month, from m on, whose end lies past the day of the year. */
  function MonthOf(y: int, yday: int, m: nat): nat
    requires m <= 12
    decreases 12 - m
  {
    if m == 12 || yday < DaysBeforeMonth(y, m + 1) then m else MonthOf(y, yday, m + 1)
  }

  datatype YearDay = YearDay(year: int, yday: int)

  /** Cycles of 400, 100, 4 and 1 years; the last day of a 400- or 4-year cycle belongs to its last year. */
  function YearOf(n: int): YearDay {
    var n400, r400 := n / 146097, n % 146097;
    var n100 := if r400 / 36524 == 4 then 3 else r400 / 36524;
    var r100 := r400 - 36524 * n100;
    var n4, r4 := r100 / 1461, r100 % 1461;
    var n1 := if r4 / 365 == 4 then 3 else r4 / 365;
    YearDay(400 * n400 + 100 * n100 + 4 * n4 + n1 + 1, r4 - 365 * n1)
  }

  function DateOf(n: int): Date {
    var y := YearOf(n);
    var m := MonthOf(y.year, y.yday, 1);
    Date(y.year, m, y.yday - DaysBeforeMonth(y.year, m) + 1)
  }

  // ---- The conversions are inverse to each other -----------------------------------------------------

  lemma By4(q: int, r: int)
    requires 0 <= r < 4
    ensures (4 * q + r) / 4 == q && (4 * q + r) % 4 == r
  {
  }

  lemma By100(q: int, r: int)
    requires 0 <= r < 100
    ensures (100 * q + r) / 100 == q && (100 * q + r) % 100 == r
  {
  }

  lemma By400(q: int, r: int)
    requires 0 <= r < 400
    ensures (400 * q + r) / 400 == q && (400 * q + r) % 400 == r
  {
  }

  /** The days before a year, from its place in the cycles. */
  lemma CyclesOf(a: int, b: int, c: int, e: int)
    requires 0 <= b <= 3 && 0 <= c <= 24 && 0 <= e <= 3
    ensures DaysBeforeYear(400 * a + 100 * b + 4 * c + e + 1) == 146097 * a + 36524 * b + 1461 * c + 365 * e
  {
    var y := 400 * a + 100 * b + 4 * c + e;
    By4(100 * a + 25 * b + c, e);
    assert y / 4 == 100 * a + 25 * b + c;
    By100(4 * a + b, 4 * c + e);
    assert y / 100 == 4 * a + b;
    By400(a, 100 * b + 4 * c + e);
    assert y / 400 == a;
  }

  /** Whether a year is a leap year, from its place in the cycles. */
  lemma LeapInCycles(a: int, b: int, c: int, e: int)
    requires 0 <= b <= 3 && 0 <= c <= 24 && 0 <= e <= 3
    ensures Leap(400 * a + 100 * b + 4 * c + e + 1) <==> e == 3 && (c == 24 ==> b == 3)
  {
    var y := 400 * a + 100 * b + 4 * c + e + 1;
    if e < 3 {
      By4(100 * a + 25 * b + c, e + 1);
      assert y % 4 == e + 1;
    } else {
      By4(100 * a + 25 * b + c + 1, 0);
      assert y % 4 == 0;
      if c < 24 {
        By100(4 * a + b, 4 * c + 4);
        assert y % 100 == 4 * c + 4;
      } else if b < 3 {
        By100(4 * a + b + 1, 0);
        By400(a, 100 * b + 100);
        assert y % 400 == 100 * b + 100;
        assert y % 100 == 0;
      } else {
        By400(a + 1, 0);
        assert y % 400 == 0;
      }
    }
  }

  lemma YearOfIsRight(n: int)
    ensures var y := YearOf(n); DaysBeforeYear(y.year) + y.yday == n && 0 <= y.yday < DaysInYear(y.year)
  {
    var n400, r400 := n / 146097, n % 146097;
    var n100 := if r400 / 36524 == 4 then 3 else r400 / 36524;
    var r100 := r400 - 36524 * n100;
    var n4, r4 := r100 / 1461, r100 % 1461;
    var n1 := if r4 / 365 == 4 then 3 else r4 / 365;
    CyclesOf(n400, n100, n4, n1);
    LeapInCycles(n400, n100, n4, n1);
  }

  lemma Next4(y: int)
    ensures y / 4 == (y - 1) / 4 + if y % 4 == 0 then 1 else 0
  {
  }

  lemma Next100(y: int)
    ensures y / 100 == (y - 1) / 100 + if y % 100 == 0 then 1 else 0
  {
  }

  lemma Next400(y: int)
    ensures y / 400 == (y - 1) / 400 + if y % 400 == 0 then 1 else 0
    ensures y % 400 == 0 ==> y % 100 == 0
  {
  }

  lemma Hundreds(y: int)
    ensures y % 100 == 0 ==> y % 4 == 0
  {
  }

  lemma NextYear(y: int)
    ensures DaysBeforeYear(y + 1) == DaysBeforeYear(y) + DaysInYear(y)
  {
    Next4(y);
    Next100(y);
    Next400(y);
    Hundreds(y);
  }

  lemma {:induction false} YearsIncrease(y: int, z: int)
    requires y < z
    ensures DaysBeforeYear(y) + DaysInYear(y) <= DaysBeforeYear(z)
    decreases z - y
  {
    if y + 1 == z {
      NextYear(y);
    } else {
      YearsIncrease(y, z - 1);
      YearsIncrease(z - 1, z);
    }
  }

  lemma {:induction false} MonthsIncrease(y: int, m: nat, k: nat)
    requires 1 <= m <= k
    ensures m < k ==> DaysBeforeMonth(y, m) + DaysIn(y, m) <= DaysBeforeMonth(y, k)
    ensures DaysBeforeMonth(y, m) <= DaysBeforeMonth(y, k)
  {
    if m < k {
      MonthsIncrease(y, m, k - 1);
    }
  }

  lemma MonthsFillTheYear(y: int)
    ensures DaysBeforeMonth(y, 13) == DaysInYear(y)
  {
    assert DaysBeforeMonth(y, 2) == 31;
    assert DaysBeforeMonth(y, 3) == 31 + DaysIn(y, 2);
    assert DaysBeforeMonth(y, 5) == DaysBeforeMonth(y, 3) + 31 + 30;
    assert DaysBeforeMonth(y, 7) == DaysBeforeMonth(y, 5) + 31 + 30;
    assert DaysBeforeMonth(y, 9) == DaysBeforeMonth(y, 7) + 31 + 31;
    assert DaysBeforeMonth(y, 11) == DaysBeforeMonth(y, 9) + 30 + 31;
    assert DaysBeforeMonth(y, 13) == DaysBeforeMonth(y, 11) + 30 + 31;
  }

  lemma {:induction false} MonthOfIsRight(y: int, yday: int, m: nat)
    requires 1 <= m <= 12 && DaysBeforeMonth(y, m) <= yday < DaysInYear(y)
    ensures var k := MonthOf(y, yday, m);
      m <= k <= 12 && DaysBeforeMonth(y, k) <= yday < DaysBeforeMonth(y, k) + DaysIn(y, k)
    decreases 12 - m
  {
    if m == 12 {
      MonthsFillTheYear(y);
    } else if yday >= DaysBeforeMonth(y, m + 1) {
      MonthOfIsRight(y, yday, m + 1);
    }
  }

  lemma DateOfIsRight(n: int)
    ensures ValidDate(DateOf(n)) && DayNumber(DateOf(n)) == n
  {
    YearOfIsRight(n);
    MonthOfIsRight(YearOf(n).year, YearOf(n).yday, 1);
  }

  lemma DayOfYearInRange(d: Date)
    requires ValidDate(d)
    ensures 0 <= DaysBeforeMonth(d.year, d.month) + d.day - 1 < DaysInYear(d.year)
  {
    MonthsIncrease(d.year, 1, d.month);
    MonthsIncrease(d.year, d.month, 13);
    MonthsFillTheYear(d.year);
  }

  predicate Earlier(a: Date, b: Date) {
    a.year < b.year || (a.year == b.year && (a.month < b.month || (a.month == b.month && a.day < b.day)))
  }

  lemma EarlierIsSmaller(a: Date, b: Date)
    requires ValidDate(a) && ValidDate(b) && Earlier(a, b)
    ensures DayNumber(a) < DayNumber(b)
  {
    DayOfYearInRange(a);
    DayOfYearInRange(b);
    if a.year < b.year {
      YearsIncrease(a.year, b.year);
    } else if a.month < b.month {
      MonthsIncrease(a.year, a.month, b.month);
    }
  }

  /** Day numbers order valid dates, and name each of them once. */
  lemma DayNumberIsAnOrder(a: Date, b: Date)
    requires ValidDate(a) && ValidDate(b)
    ensures Earlier(a, b) <==> DayNumber(a) < DayNumber(b)
    ensures a == b <==> DayNumber(a) == DayNumber(b)
  {
    if Earlier(a, b) {
      EarlierIsSmaller(a, b);
    } else if Earlier(b, a) {
      EarlierIsSmaller(b, a);
    }
  }

  lemma DateRoundTrip(d: Date)
    requires ValidDate(d)
    ensures DateOf(DayNumber(d)) == d
  {
    DateOfIsRight(DayNumber(d));
    DayNumberIsAnOrder(d, DateOf(DayNumber(d)));
  }

  /** The days before each month of a common year, in order. */
  const CUMULATIVE: seq<int> := [0, 31, 59, 90, 120, 151, 181, 212, 243, 273, 304, 334]

  /** Months have the lengths of the calendar; a year by 4 has a leap day, a century only when it is a year by 400. */
  lemma MonthsAsInTheCalendar(y: int, m: nat)
    requires 1 <= m <= 12
    ensures DaysBeforeMonth(y, m) ==
            CUMULATIVE[m - 1] + if m > 2 && y % 4 == 0 && (y % 100 != 0 || y % 400 == 0) then 1 else 0
  {
    assert DaysBeforeMonth(y, 1) == 0;
    assert DaysBeforeMonth(y, 2) == 31;
    assert DaysBeforeMonth(y, 3) == 31 + DaysIn(y, 2);
    assert DaysBeforeMonth(y, 4) == DaysBeforeMonth(y, 3) + 31;
    assert DaysBeforeMonth(y, 5) == DaysBeforeMonth(y, 4) + 30;
    assert DaysBeforeMonth(y, 6) == DaysBeforeMonth(y, 5) + 31;
    assert DaysBeforeMonth(y, 7) == DaysBeforeMonth(y, 6) + 30;
    assert DaysBeforeMonth(y, 8) == DaysBeforeMonth(y, 7) + 31;
    assert DaysBeforeMonth(y, 9) == DaysBeforeMonth(y, 8) + 31;
    assert DaysBeforeMonth(y, 10) == DaysBeforeMonth(y, 9) + 30;
    assert DaysBeforeMonth(y, 11) == DaysBeforeMonth(y, 10) + 31;
    assert DaysBeforeMonth(y, 12) == DaysBeforeMonth(y, 11) + 30;
  }

  /** The zero time is the first day of year 1, and a year begins where the one before it ends. */
  lemma YearsAsInTheCalendar(y: int)
    ensures DayNumber(Date(1, 1, 1)) == 0
    ensures DayNumber(Date(y + 1, 1, 1)) == DayNumber(Date(y, 12, 31)) + 1
  {
    NextYear(y);
    MonthsAsInTheCalendar(y, 12);
  }
}
