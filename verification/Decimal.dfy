/** strconv.FormatInt and strconv.ParseInt in base 10, as the driver uses them for row ids. */
module Decimal {
  import opened Basics

  const MINUS: Byte := 45
  const PLUS: Byte := 43
  const ZERO: Byte := 48

  function Digits(n: nat): Text {
    if n < 10 then [ZERO + n] else Digits(n / 10) + [ZERO + n % 10]
  }

  function FormatInt(n: int): Text {
    if n < 0 then [MINUS] + Digits(-n) else Digits(n)
  }

  predicate IsDigit(b: Byte) {
    ZERO <= b <= ZERO + 9
  }

  function DigitsValue(s: Text): Option<nat> {
    if s == [] then Some(0)
    else
      var last := s[|s| - 1];
      match DigitsValue(s[..|s| - 1])
      case None => None
      case Some(v) => if IsDigit(last) then Some(10 * v + (last - ZERO)) else None
  }

  /** An optional sign, at least one digit, and a value that fits 64 bits; None stands for the error. */
  function ParseInt64(s: Text): Option<Int64> {
    var signed := s != [] && (s[0] == MINUS || s[0] == PLUS);
    var magnitude := if signed then s[1..] else s;
    if magnitude == [] then None
    else
      match DigitsValue(magnitude)
      case None => None
      case Some(v) =>
        var m: int := v;
        var n := if signed && s[0] == MINUS then -m else m;
        if -0x8000_0000_0000_0000 <= n < 0x8000_0000_0000_0000 then Some(n) else None
  }

  lemma {:induction false} DigitsRoundTrip(n: nat)
    ensures Digits(n) != [] && IsDigit(Digits(n)[0])
    ensures DigitsValue(Digits(n)) == Some(n)
  {
    if n < 10 {
      assert Digits(n)[..0] == [];
    } else {
      DigitsRoundTrip(n / 10);
      assert Digits(n)[..|Digits(n)| - 1] == Digits(n / 10);
    }
  }

  lemma FormatThenParse(n: Int64)
    ensures ParseInt64(FormatInt(n)) == Some(n)
  {
    var m: int := n;
    if m < 0 {
      DigitsRoundTrip(-m);
      assert FormatInt(m)[1..] == Digits(-m);
    } else {
      DigitsRoundTrip(m);
    }
  }

  /** Two rows have the same correlation id exactly when they have the same id. */
  lemma FormatInjective(a: Int64, b: Int64)
    ensures FormatInt(a) == FormatInt(b) <==> a == b
  {
    FormatThenParse(a);
    FormatThenParse(b);
  }

  ghost predicate AllDigits(s: Text) {
    forall i :: 0 <= i < |s| ==> IsDigit(s[i])
  }

  /** The usual way to write an integer: digits without a leading zero, behind a minus sign if it is negative. */
  ghost predicate IsPlain(s: Text, n: int) {
    var magnitude := if n < 0 && s != [] && s[0] == MINUS then s[1..] else s;
    && (n < 0 ==> s != [] && s[0] == MINUS)
    && magnitude != [] && AllDigits(magnitude) && (magnitude[0] == ZERO ==> n == 0 && |magnitude| == 1)
  }

  lemma {:induction false} DigitsArePlain(n: nat)
    ensures Digits(n) != [] && AllDigits(Digits(n)) && (Digits(n)[0] == ZERO ==> n == 0 && |Digits(n)| == 1)
  {
    if n >= 10 {
      DigitsArePlain(n / 10);
    }
  }

  lemma FormatIsPlain(n: int)
    ensures IsPlain(FormatInt(n), n)
  {
    if n < 0 {
      DigitsArePlain(-n);
      assert FormatInt(n)[1..] == Digits(-n);
    } else {
      DigitsArePlain(n);
    }
  }

  lemma {:induction false} DigitsDecide(s: Text)
    ensures DigitsValue(s).Some? <==> AllDigits(s)
  {
    if s != [] {
      DigitsDecide(s[..|s| - 1]);
    }
  }

  /** A text is refused exactly when it has no digits, anything but digits, or a value beyond 64 bits. */
  lemma ParseFailsExactly(s: Text)
    ensures var digits := if s != [] && (s[0] == 43 || s[0] == 45) then s[1..] else s;
      ParseInt64(s).None? <==>
      || digits == [] || !AllDigits(digits)
      || DigitsValue(digits) == None
      || DigitsValue(digits).value > (if s[0] == 45 then 0x8000_0000_0000_0000 else 0x7FFF_FFFF_FFFF_FFFF)
  {
    hide DigitsValue;
    DigitsDecide(if s != [] && (s[0] == 43 || s[0] == 45) then s[1..] else s);
  }

  /** A plus sign and leading zeros change nothing. */
  lemma SignAndZeros(n: nat)
    requires n <= 0x7FFF_FFFF_FFFF_FFFF
    ensures ParseInt64([43] + Digits(n)) == Some(n) && ParseInt64([48] + Digits(n)) == Some(n)
  {
    DigitsRoundTrip(n);
    LeadingZero(Digits(n));
    assert ([43] + Digits(n))[1..] == Digits(n);
  }

  lemma {:induction false} LeadingZero(s: Text)
    ensures DigitsValue([48] + s) == DigitsValue(s)
  {
    if s == [] {
      assert [48][..0] == [];
      assert [48] + s == [48];
    } else {
      assert ([48] + s)[..|s|] == [48] + s[..|s| - 1];
      LeadingZero(s[..|s| - 1]);
    }
  }
}
