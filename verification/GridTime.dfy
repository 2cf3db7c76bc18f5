/** Arithmetic on a grid of multiples of one interval; time.Time.Truncate. */
module GridTime {
  import opened Basics

  lemma Distribute(i: int, j: int, d: int)
    ensures (i + j) * d == i * d + j * d
  {
  }

  lemma MulSign(n: int, d: int)
    requires d > 0
    ensures n >= 1 ==> n * d >= d
    ensures n <= -1 ==> n * d <= -d
  {
    if n >= 1 {
      MulNonNegative(n - 1, d);
      Distribute(n - 1, 1, d);
    } else if n <= -1 {
      MulNonNegative(-n - 1, d);
      Distribute(-n - 1, n + 1, d);
      Distribute(n, 1, d);
    }
  }

  lemma MulNonNegative(n: int, d: int)
    requires n >= 0 && d > 0
    ensures n * d >= 0
  {
  }

  /** A multiple is told by its quotient, and the remainder is zero. */
  lemma MultipleMod(n: int, d: int)
    requires d > 0
    ensures n * d % d == 0 && n * d / d == n
  {
    var q, r := n * d / d, n * d % d;
    assert n * d == q * d + r;
    Distribute(n, -q, d);
    Distribute(q, -q, d);
    MulSign(n - q, d);
  }

  lemma QuotientOf(t: int, d: int)
    requires d > 0 && t % d == 0
    ensures t == t / d * d
  {
  }

  /** Points of the grid are at least one interval apart. */
  lemma GridGap(a: Time, b: Time, d: Time)
    requires d > 0 && a % d == 0 && b % d == 0 && a < b
    ensures a + d <= b
  {
    QuotientOf(a, d);
    QuotientOf(b, d);
    Distribute(b / d, -(a / d), d);
    Distribute(a / d, -(a / d), d);
    MulSign(b / d - a / d, d);
  }

  lemma GridStep(t: Time, d: Time)
    requires d > 0 && t % d == 0
    ensures (t + d) % d == 0
  {
    QuotientOf(t, d);
    Distribute(t / d, 1, d);
    MultipleMod(t / d + 1, d);
  }

  /** time.Time.Truncate, for a positive duration: down to a multiple since the zero time. */
  function Truncate(t: Time, d: Time): Time
    requires d > 0
  {
    t - t % d
  }

  lemma TruncateIsFloor(t: Time, d: Time)
    requires d > 0
    ensures Truncate(t, d) % d == 0 && Truncate(t, d) <= t < Truncate(t, d) + d
    ensures forall x :: x % d == 0 && x <= t ==> x <= Truncate(t, d)
  {
    assert Truncate(t, d) == t / d * d;
    MultipleMod(t / d, d);
    forall x | x % d == 0 && x <= t ensures x <= Truncate(t, d) {
      if x > Truncate(t, d) {
        GridGap(Truncate(t, d), x, d);
      }
    }
  }

  /** A point of the grid is not before the last multiple exactly when its cell has not ended by then. */
  lemma FollowsTruncate(t: Time, x: Time, d: Time)
    requires d > 0 && x % d == 0
    ensures Truncate(t, d) <= x <==> t < x + d
  {
    TruncateIsFloor(t, d);
    if x < Truncate(t, d) {
      GridGap(x, Truncate(t, d), d);
    }
  }

  /** A point of the grid is before the last multiple exactly when its cell has ended by then. */
  lemma PrecedesTruncate(t: Time, x: Time, d: Time)
    requires d > 0 && x % d == 0
    ensures x < Truncate(t, d) <==> x + d <= t
  {
    TruncateIsFloor(t, d);
    if x < Truncate(t, d) {
      GridGap(x, Truncate(t, d), d);
    } else if Truncate(t, d) <= x {
      assert t < Truncate(t, d) + d;
    }
  }

  /** A coarser grid is part of a finer one that divides its interval. */
  lemma CoarserGrid(t: Time, d: Time, unit: Time)
    requires unit > 0 && d > 0 && d % unit == 0 && t % d == 0
    ensures t % unit == 0
  {
    QuotientOf(t, d);
    QuotientOf(d, unit);
    Associate(t / d, d / unit, unit);
    MultipleMod(t / d * (d / unit), unit);
  }

  lemma Associate(a: int, b: int, c: int)
    ensures a * (b * c) == a * b * c
  {
  }

  /** The points a pass visits: from t while before end, one interval at a time. */
  function Cells(t: Time, end: Time, interval: Time): seq<Time>
    requires interval > 0
    decreases end - t
  {
    if t >= end then [] else [t] + Cells(t + interval, end, interval)
  }

  lemma {:induction false} CellsAre(t: Time, end: Time, interval: Time, x: Time)
    requires interval > 0 && t % interval == 0
    ensures x in Cells(t, end, interval) <==> t <= x < end && x % interval == 0
    decreases end - t
  {
    if t < end {
      GridStep(t, interval);
      if x % interval == 0 && t < x {
        GridGap(t, x, interval);
      }
      CellsAre(t + interval, end, interval, x);
    }
  }
}
