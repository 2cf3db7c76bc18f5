/** Partition names: printing a lower bound, parsing it back, and the order of names (partition.go:264-307). */
module Names {
  import opened Basics
  import opened Calendar

  /** Durations and instants are counted in nanoseconds, as in Go. */
  const MINUTE: int := 60_000_000_000
  const HOUR: int := 60 * MINUTE

  const MINUTES_IN_A_DAY := 1440

  /** The days of the years 1 to 9999, and of the year 0 before them. */
  const DAYS := 3652059
  const DAYS_OF_YEAR_ZERO := 366

  /** Instants of the years 0 to 9999, in which a year has four digits. */
  predicate InCalendar(t: Time) {
    -MINUTE * MINUTES_IN_A_DAY * DAYS_OF_YEAR_ZERO <= t < MINUTE * MINUTES_IN_A_DAY * DAYS
  }

  lemma DaysOfTheCalendar()
    ensures DaysBeforeYear(10000) == DAYS && DaysBeforeYear(0) == -DAYS_OF_YEAR_ZERO
  {
  }

  function Digit(n: int): char
    requires 0 <= n <= 9
  {
    '0' + n as char
  }

  predicate IsDigit(c: char) {
    '0' <= c <= '9'
  }

  function Value(c: char): int
    requires IsDigit(c)
  {
    c as int - '0' as int
  }

  function Two(n: int): (r: string)
    requires 0 <= n <= 99
    ensures |r| == 2
  {
    [Digit(n / 10), Digit(n % 10)]
  }

  function Four(n: int): string
    requires 0 <= n <= 9999
  {
    Two(n / 100) + Two(n % 100)
  }

  datatype Stamp = Stamp(date: Date, hour: int, minute: int)

  predicate ValidStamp(s: Stamp) {
    0 <= s.date.year <= 9999 && ValidDate(s.date) && 0 <= s.hour <= 23 && 0 <= s.minute <= 59
  }

  function Format(s: Stamp): string
    requires ValidStamp(s)
  {
    Four(s.date.year) + Two(s.date.month) + Two(s.date.day) + ['_'] + Two(s.hour) + Two(s.minute)
  }

  /** The fields of an instant, from its count of whole minutes. */
  function StampOf(minutes: int): Stamp {
    Stamp(DateOf(minutes / MINUTES_IN_A_DAY), minutes % MINUTES_IN_A_DAY / 60, minutes % 60)
  }

  function MinutesOf(s: Stamp): int
    requires ValidStamp(s)
  {
    DayNumber(s.date) * MINUTES_IN_A_DAY + s.hour * 60 + s.minute
  }

  predicate Digits(text: string, i: nat) {
    i + 2 <= |text| && IsDigit(text[i]) && IsDigit(text[i + 1])
  }

  function ReadTwo(text: string, i: nat): (n: int)
    requires Digits(text, i)
    ensures 0 <= n <= 99 && Two(n) == text[i..i + 2]
  {
    10 * Value(text[i]) + Value(text[i + 1])
  }

  /** time.Parse with layout 20060102_1504: fixed-width digits, each field in its range, and nothing left over. */
  function Parse(text: string): Option<Stamp> {
    if |text| != 13 || !Digits(text, 0) || !Digits(text, 2) || !Digits(text, 4) || !Digits(text, 6)
       || text[8] != '_' || !Digits(text, 9) || !Digits(text, 11)
    then None
    else
      var date := Date(100 * ReadTwo(text, 0) + ReadTwo(text, 2), ReadTwo(text, 4), ReadTwo(text, 6));
      var s := Stamp(date, ReadTwo(text, 9), ReadTwo(text, 11));
      if ValidStamp(s) then Some(s) else None
  }

  function Stem(prefix: string): string {
    prefix + "_jobs_"
  }

  function PartitionName(prefix: string, lower: Time): string
    requires InCalendar(lower)
  {
    StampIsValid(lower);
    Stem(prefix) + Format(StampOf(lower / MINUTE))
  }

  function ParsePartitionLower(prefix: string, name: string): Option<Time> {
    var stem := Stem(prefix);
    if |name| < |stem| || name[..|stem|] != stem then None
    else
      match Parse(name[|stem|..])
      case None => None
      case Some(s) => Some(MinutesOf(s) * MINUTE)
  }

  // ---- Printing and parsing are inverse ---------------------------------------------------------------

  lemma ClockOfMinutes(minutes: int)
    ensures var rest := minutes % MINUTES_IN_A_DAY;
      && 0 <= rest / 60 <= 23 && 0 <= minutes % 60 <= 59
      && minutes / MINUTES_IN_A_DAY * MINUTES_IN_A_DAY + rest / 60 * 60 + minutes % 60 == minutes
  {
    var day, rest := minutes / MINUTES_IN_A_DAY, minutes % MINUTES_IN_A_DAY;
    assert minutes == 60 * (24 * day + rest / 60) + rest % 60;
    By60(24 * day + rest / 60, rest % 60);
  }

  lemma MinutesOfClock(day: int, hour: int, minute: int)
    requires 0 <= hour <= 23 && 0 <= minute <= 59
    ensures var m := day * MINUTES_IN_A_DAY + hour * 60 + minute;
      && m / MINUTES_IN_A_DAY == day && m % MINUTES_IN_A_DAY / 60 == hour && m % 60 == minute
  {
    By1440(day, hour * 60 + minute);
    By60(24 * day + hour, minute);
    By60(hour, minute);
  }

  lemma By60(q: int, r: int)
    requires 0 <= r < 60
    ensures (60 * q + r) / 60 == q && (60 * q + r) % 60 == r
  {
  }

  lemma By1440(q: int, r: int)
    requires 0 <= r < 1440
    ensures (1440 * q + r) / 1440 == q && (1440 * q + r) % 1440 == r
  {
  }

  lemma YearHasFourDigits(day: int)
    requires -DAYS_OF_YEAR_ZERO <= day < DAYS
    ensures 0 <= DateOf(day).year <= 9999
  {
    DaysOfTheCalendar();
    YearOfIsRight(day);
    var y := YearOf(day).year;
    hide YearOf;
    if y >= 10000 {
      if y > 10000 {
        YearsIncrease(10000, y);
      }
      assert false;
    }
    if y < 0 {
      YearsIncrease(y, 0);
      assert false;
    }
  }

  lemma StampOfMinutes(minutes: int)
    requires -MINUTES_IN_A_DAY * DAYS_OF_YEAR_ZERO <= minutes < MINUTES_IN_A_DAY * DAYS
    ensures ValidStamp(StampOf(minutes)) && MinutesOf(StampOf(minutes)) == minutes
  {
    hide DateOf, DaysBeforeYear, DayNumber;
    var day := minutes / MINUTES_IN_A_DAY;
    ClockOfMinutes(minutes);
    DateOfIsRight(day);
    YearHasFourDigits(day);
  }

  /** Every stamp that can be written denotes an instant of the calendar. */
  lemma MinutesInCalendar(s: Stamp)
    requires ValidStamp(s)
    ensures InCalendar(MinutesOf(s) * MINUTE)
  {
    hide DaysIn, DaysBeforeMonth, DaysBeforeYear, DayNumber;
    DaysOfTheCalendar();
    DayInYear(s.date);
    if s.date.year < 9999 {
      YearsIncrease(s.date.year, 9999);
    }
    if 0 < s.date.year {
      YearsIncrease(0, s.date.year);
    }
    LastYearEnds();
  }

  lemma DayInYear(d: Date)
    requires ValidDate(d)
    ensures DaysBeforeYear(d.year) <= DayNumber(d) < DaysBeforeYear(d.year) + DaysInYear(d.year)
  {
    DayOfYearInRange(d);
  }

  lemma LastYearEnds()
    ensures DaysBeforeYear(9999) + DaysInYear(9999) == DAYS && DaysInYear(0) > 0
  {
  }

  lemma StampIsValid(t: Time)
    requires InCalendar(t)
    ensures ValidStamp(StampOf(t / MINUTE)) && MinutesOf(StampOf(t / MINUTE)) == t / MINUTE
  {
    StampOfMinutes(t / MINUTE);
  }

  lemma MinutesRoundTrip(s: Stamp)
    requires ValidStamp(s)
    ensures StampOf(MinutesOf(s)) == s
  {
    hide DateOf, DayNumber, DaysIn;
    MinutesOfClock(DayNumber(s.date), s.hour, s.minute);
    DateRoundTrip(s.date);
  }

  lemma TwoIsRead(text: string, i: nat, n: int)
    requires i + 2 <= |text| && 0 <= n <= 99 && text[i] == Two(n)[0] && text[i + 1] == Two(n)[1]
    ensures Digits(text, i) && ReadTwo(text, i) == n
  {
  }

  lemma ParseOfFormat(s: Stamp)
    requires ValidStamp(s)
    ensures Parse(Format(s)) == Some(s)
  {
    hide ReadTwo, Digits, Two;
    var text := Format(s);
    TwoIsRead(text, 0, s.date.year / 100);
    TwoIsRead(text, 2, s.date.year % 100);
    TwoIsRead(text, 4, s.date.month);
    TwoIsRead(text, 6, s.date.day);
    TwoIsRead(text, 9, s.hour);
    TwoIsRead(text, 11, s.minute);
  }

  lemma FormatOfParse(text: string)
    requires Parse(text).Some?
    ensures ValidStamp(Parse(text).value) && Format(Parse(text).value) == text
  {
    hide ReadTwo, Two, DaysIn;
    var year := 100 * ReadTwo(text, 0) + ReadTwo(text, 2);
    assert year / 100 == ReadTwo(text, 0) && year % 100 == ReadTwo(text, 2);
    assert text == text[0..2] + text[2..4] + text[4..6] + text[6..8] + ['_'] + text[9..11] + text[11..13];
  }

  /** A whole-minute bound survives its name. */
  lemma NameRoundTrip(prefix: string, lower: Time)
    requires InCalendar(lower) && lower % MINUTE == 0
    ensures ParsePartitionLower(prefix, PartitionName(prefix, lower)) == Some(lower)
  {
    hide StampOf, MinutesOf, ValidStamp, Format, Parse;
    StampIsValid(lower);
    var s := StampOf(lower / MINUTE);
    ParseOfFormat(s);
    assert PartitionName(prefix, lower)[|Stem(prefix)|..] == Format(s);
  }

  /** The parser accepts nothing but names the printer makes. */
  lemma ParsedIsPrinted(prefix: string, name: string)
    requires ParsePartitionLower(prefix, name).Some?
    ensures var lower := ParsePartitionLower(prefix, name).value;
      InCalendar(lower) && lower % MINUTE == 0 && PartitionName(prefix, lower) == name
  {
    hide StampOf, MinutesOf, ValidStamp, Format, Parse, InCalendar;
    var stem := Stem(prefix);
    var s := Parse(name[|stem|..]).value;
    FormatOfParse(name[|stem|..]);
    MinutesRoundTrip(s);
    MinutesInCalendar(s);
    var lower := MinutesOf(s) * MINUTE;
    assert lower / MINUTE == MinutesOf(s);
    assert name == stem + name[|stem|..];
  }

  /** Two bounds share a name exactly when they fall into the same minute. */
  lemma NamesCollideExactly(prefix: string, a: Time, b: Time)
    requires InCalendar(a) && InCalendar(b)
    ensures PartitionName(prefix, a) == PartitionName(prefix, b) <==> a / MINUTE == b / MINUTE
  {
    hide StampOf, MinutesOf, ValidStamp, Format, Parse;
    StampIsValid(a);
    StampIsValid(b);
    ParseOfFormat(StampOf(a / MINUTE));
    ParseOfFormat(StampOf(b / MINUTE));
    assert PartitionName(prefix, a)[|Stem(prefix)|..] == Format(StampOf(a / MINUTE));
    assert PartitionName(prefix, b)[|Stem(prefix)|..] == Format(StampOf(b / MINUTE));
  }

  // ---- What a name looks like ------------------------------------------------------------------------

  /** The value of a text of decimal digits. */
  function NumberOf(text: string): int {
    if text == "" then 0 else 10 * NumberOf(text[..|text| - 1]) + (text[|text| - 1] as int - 48)
  }

  ghost predicate Shows(text: string, n: int) {
    NumberOf(text) == n && forall i :: 0 <= i < |text| ==> 48 <= text[i] as int <= 57
  }

  lemma TwoShows(n: int)
    requires 0 <= n <= 99
    ensures Shows(Two(n), n)
  {
    var hi, lo := Digit(n / 10), Digit(n % 10);
    assert hi as int == 48 + n / 10 && lo as int == 48 + n % 10;
    assert Two(n) == [hi, lo] && [hi, lo][..1] == [hi];
    assert NumberOf([hi]) == n / 10 by { assert [hi][..0] == "" && NumberOf("") == 0; }
    assert NumberOf([hi, lo]) == 10 * NumberOf([hi]) + n % 10;
  }

  lemma FourShows(n: int)
    requires 0 <= n <= 9999
    ensures |Four(n)| == 4 && Shows(Four(n), n)
  {
    var hi, lo := Two(n / 100), Two(n % 100);
    TwoShows(n / 100);
    assert Four(n)[..3] == hi + [lo[0]] && (hi + [lo[0]])[..2] == hi;
  }

  /** The year, month, day, hour and minute of the bound, in four, two, two, two and two digits. */
  ghost predicate Spells(text: string, s: Stamp) {
    && |text| == 13 && text[8] == '_'
    && Shows(text[0..4], s.date.year) && Shows(text[4..6], s.date.month) && Shows(text[6..8], s.date.day)
    && Shows(text[9..11], s.hour) && Shows(text[11..13], s.minute)
  }

  lemma FormatSpells(s: Stamp)
    requires ValidStamp(s)
    ensures Spells(Format(s), s)
  {
    hide Two, Four, Shows;
    var text := Format(s);
    FourShows(s.date.year);
    TwoShows(s.date.month);
    TwoShows(s.date.day);
    TwoShows(s.hour);
    TwoShows(s.minute);
    assert text[0..4] == Four(s.date.year) && text[4..6] == Two(s.date.month) && text[6..8] == Two(s.date.day);
    assert text[9..11] == Two(s.hour) && text[11..13] == Two(s.minute);
  }

  /** A name is the prefix, "_jobs_", and the date and time of day of the bound. */
  lemma NameSpellsItsBound(prefix: string, lower: Time)
    requires InCalendar(lower)
    ensures exists text, s ::
      && PartitionName(prefix, lower) == prefix + "_jobs_" + text && Spells(text, s)
      && ValidDate(s.date) && 0 <= s.hour <= 23 && 0 <= s.minute <= 59
      && DayNumber(s.date) * 1440 + s.hour * 60 + s.minute == lower / 60_000_000_000
  {
    hide Format, Spells, InCalendar, StampOf, DayNumber, ValidDate;
    StampIsValid(lower);
    var s := StampOf(lower / MINUTE);
    FormatSpells(s);
    assert PartitionName(prefix, lower) == prefix + "_jobs_" + Format(s);
  }

  /** 14:00 on 16 February 2026. */
  const AN_AFTERNOON: Time := 63_906_847_200_000_000_000

  lemma AnAfternoon()
    ensures DateOf(AN_AFTERNOON / MINUTE / MINUTES_IN_A_DAY) == Date(2026, 2, 16)
    ensures StampOf(AN_AFTERNOON / MINUTE) == Stamp(Date(2026, 2, 16), 14, 0)
  {
    var day := 739662;
    assert AN_AFTERNOON / MINUTE == day * MINUTES_IN_A_DAY + 14 * 60;
    assert YearOf(day) == YearDay(2026, 46);
    assert DaysBeforeMonth(2026, 2) == 31 && DaysBeforeMonth(2026, 3) == 59;
  }

  lemma NameOfAnAfternoon()
    ensures InCalendar(AN_AFTERNOON) && PartitionName("billing", AN_AFTERNOON) == "billing_jobs_20260216_1400"
  {
    AnAfternoon();
    hide DateOf, StampOf, DayNumber, DaysIn;
    StampIsValid(AN_AFTERNOON);
    assert Format(Stamp(Date(2026, 2, 16), 14, 0)) == "20260216_1400";
  }

  // ---- The order of names -------------------------------------------------------------------------------

  /** Go's string order: by the first character that differs, a proper prefix first. */
  predicate Less(a: string, b: string) {
    b != [] && (a == [] || a[0] < b[0] || (a[0] == b[0] && Less(a[1..], b[1..])))
  }

  lemma {:induction false} LessAfterPrefix(p: string, a: string, b: string)
    ensures Less(p + a, p + b) <==> Less(a, b)
  {
    if p == [] {
      assert p + a == a && p + b == b;
    } else {
      assert (p + a)[1..] == p[1..] + a && (p + b)[1..] == p[1..] + b;
      LessAfterPrefix(p[1..], a, b);
    }
  }

  lemma {:induction false} LessInPrefix(p: string, q: string, a: string, b: string)
    requires |p| == |q| && Less(p, q)
    ensures Less(p + a, q + b)
  {
    assert (p + a)[1..] == p[1..] + a && (q + b)[1..] == q[1..] + b;
    if p[0] == q[0] {
      LessInPrefix(p[1..], q[1..], a, b);
    }
  }

  lemma {:induction false} LessIsTotal(a: string, b: string)
    ensures Less(a, b) || a == b || Less(b, a)
  {
    if a != [] && b != [] && a[0] == b[0] {
      LessIsTotal(a[1..], b[1..]);
      assert a == [a[0]] + a[1..] && b == [b[0]] + b[1..];
    }
  }

  lemma {:induction false} LessIsStrict(a: string, b: string)
    requires Less(a, b)
    ensures a != b && !Less(b, a)
  {
    if a != [] && a[0] == b[0] {
      LessIsStrict(a[1..], b[1..]);
    }
  }

  lemma {:induction false} LessIsTransitive(a: string, b: string, c: string)
    requires Less(a, b) && Less(b, c)
    ensures Less(a, c)
  {
    if a != [] && a[0] == b[0] == c[0] {
      LessIsTransitive(a[1..], b[1..], c[1..]);
    }
  }

  lemma TwoIsOrdered(m: int, n: int)
    requires 0 <= m < n <= 99
    ensures Less(Two(m), Two(n))
  {
    assert Two(m)[1..] == [Digit(m % 10)] && Two(n)[1..] == [Digit(n % 10)];
  }

  lemma FourIsOrdered(m: int, n: int)
    requires 0 <= m < n <= 9999
    ensures Less(Four(m), Four(n))
  {
    if m / 100 < n / 100 {
      TwoIsOrdered(m / 100, n / 100);
      LessInPrefix(Two(m / 100), Two(n / 100), Two(m % 100), Two(n % 100));
    } else {
      TwoIsOrdered(m % 100, n % 100);
      LessAfterPrefix(Two(m / 100), Two(m % 100), Two(n % 100));
    }
  }

  lemma FormatIsOrdered(a: Stamp, b: Stamp)
    requires ValidStamp(a) && ValidStamp(b) && MinutesOf(a) < MinutesOf(b)
    ensures Less(Format(a), Format(b))
  {
    var ya, ma, da := Four(a.date.year), Two(a.date.month), Two(a.date.day);
    var yb, mb, db := Four(b.date.year), Two(b.date.month), Two(b.date.day);
    var ta, tb := Two(a.hour) + Two(a.minute), Two(b.hour) + Two(b.minute);
    assert Format(a) == ya + (ma + (da + (['_'] + ta))) && Format(b) == yb + (mb + (db + (['_'] + tb)));
    DayNumberIsAnOrder(a.date, b.date);
    DayNumberIsAnOrder(b.date, a.date);
    if a.date.year < b.date.year {
      FourIsOrdered(a.date.year, b.date.year);
      LessInPrefix(ya, yb, ma + (da + (['_'] + ta)), mb + (db + (['_'] + tb)));
    } else {
      LessAfterPrefix(ya, ma + (da + (['_'] + ta)), mb + (db + (['_'] + tb)));
      if a.date.month < b.date.month {
        TwoIsOrdered(a.date.month, b.date.month);
        LessInPrefix(ma, mb, da + (['_'] + ta), db + (['_'] + tb));
      } else {
        LessAfterPrefix(ma, da + (['_'] + ta), db + (['_'] + tb));
        if a.date.day < b.date.day {
          TwoIsOrdered(a.date.day, b.date.day);
          LessInPrefix(da, db, ['_'] + ta, ['_'] + tb);
        } else {
          LessAfterPrefix(da, ['_'] + ta, ['_'] + tb);
          LessAfterPrefix(['_'], ta, tb);
          ClockIsOrdered(a.hour, a.minute, b.hour, b.minute);
        }
      }
    }
  }

  lemma ClockIsOrdered(h: int, m: int, i: int, n: int)
    requires 0 <= h <= 23 && 0 <= i <= 23 && 0 <= m <= 59 && 0 <= n <= 59 && 60 * h + m < 60 * i + n
    ensures Less(Two(h) + Two(m), Two(i) + Two(n))
  {
    if h < i {
      TwoIsOrdered(h, i);
      LessInPrefix(Two(h), Two(i), Two(m), Two(n));
    } else {
      TwoIsOrdered(m, n);
      LessAfterPrefix(Two(h), Two(m), Two(n));
    }
  }

  /** The order of names is the order of time: sorting names sorts partitions oldest first. */
  lemma NameOrderIsTimeOrder(prefix: string, a: Time, b: Time)
    requires InCalendar(a) && InCalendar(b)
    ensures Less(PartitionName(prefix, a), PartitionName(prefix, b)) <==> a / MINUTE < b / MINUTE
  {
    hide StampOf, MinutesOf, ValidStamp, Less, Stem, InCalendar, Format;
    StampIsValid(a);
    StampIsValid(b);
    var sa, sb := StampOf(a / MINUTE), StampOf(b / MINUTE);
    LessAfterPrefix(Stem(prefix), Format(sa), Format(sb));
    if a / MINUTE < b / MINUTE {
      FormatIsOrdered(sa, sb);
    } else if b / MINUTE < a / MINUTE {
      FormatIsOrdered(sb, sa);
      LessIsStrict(Format(sb), Format(sa));
    } else if Less(Format(sa), Format(sb)) {
      LessIsStrict(Format(sa), Format(sb));
    }
  }
}
