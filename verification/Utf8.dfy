/** Well-formed UTF-8 and the byte-limited truncation applied to dead-letter error messages. */
module Utf8 {
  import opened Basics

  /** How many bytes a character with this first byte has; 0 if no character starts with it. */
  function Width(first: Byte): nat {
    if first <= 0x7F then 1
    else if 0xC2 <= first <= 0xDF then 2
    else if 0xE0 <= first <= 0xEF then 3
    else if 0xF0 <= first <= 0xF4 then 4
    else 0
  }

  /** The second byte is narrower after E0 and F0 (overlong forms), ED (surrogates) and F4 (past U+10FFFF). */
  predicate Second(first: Byte, second: Byte) {
    && (if first == 0xE0 then 0xA0 else if first == 0xF0 then 0x90 else 0x80) <= second
    && second <= (if first == 0xED then 0x9F else if first == 0xF4 then 0x8F else 0xBF)
  }

  /** The length of the UTF8-char at the front of s, by the grammar in section 4 of RFC 3629; 0 if there is none. */
  function CharLen(s: Text): (n: nat)
    ensures n <= 4 && n <= |s|
  {
    if s == [] || |s| < Width(s[0]) then 0
    else if Width(s[0]) >= 2 && !Second(s[0], s[1]) then 0
    else if exists i :: 2 <= i < Width(s[0]) && !(0x80 <= s[i] <= 0xBF) then 0
    else Width(s[0])
  }

  predicate Valid(s: Text)
    decreases |s|
  {
    s == [] || (CharLen(s) > 0 && Valid(s[CharLen(s)..]))
  }

  /** strings.ToValidUTF8 with an empty replacement: bytes that start no character are left out. */
  function ToValid(s: Text): Text
    decreases |s|
  {
    if s == [] then []
    else if CharLen(s) == 0 then ToValid(s[1..])
    else s[..CharLen(s)] + ToValid(s[CharLen(s)..])
  }

  function Truncate(s: Text, max: int): Text {
    if max <= 0 then []
    else ToValid(if |s| > max then s[..max] else s)
  }

  /** Whether a character starts a string, and which one, is decided by the character's own bytes. */
  lemma CharLenIsLocal(s: Text, u: Text)
    requires 0 < CharLen(s) <= |u| && u[..CharLen(s)] == s[..CharLen(s)]
    ensures CharLen(u) == CharLen(s)
  {
    var n := CharLen(s);
    assert forall i :: 0 <= i < n ==> u[i] == u[..n][i] == s[..n][i] == s[i];
  }

  predicate Tail(b: Byte) {
    0x80 <= b <= 0xBF
  }

  /** UTF8-char in section 4 of RFC 3629: the alternatives of UTF8-1, UTF8-2, UTF8-3 and UTF8-4, in order. */
  predicate Utf8Char(c: Text) {
    || (|c| == 1 && c[0] <= 0x7F)
    || (|c| == 2 && 0xC2 <= c[0] <= 0xDF && Tail(c[1]))
    || (|c| == 3 && c[0] == 0xE0 && 0xA0 <= c[1] <= 0xBF && Tail(c[2]))
    || (|c| == 3 && 0xE1 <= c[0] <= 0xEC && Tail(c[1]) && Tail(c[2]))
    || (|c| == 3 && c[0] == 0xED && 0x80 <= c[1] <= 0x9F && Tail(c[2]))
    || (|c| == 3 && 0xEE <= c[0] <= 0xEF && Tail(c[1]) && Tail(c[2]))
    || (|c| == 4 && c[0] == 0xF0 && 0x90 <= c[1] <= 0xBF && Tail(c[2]) && Tail(c[3]))
    || (|c| == 4 && 0xF1 <= c[0] <= 0xF3 && Tail(c[1]) && Tail(c[2]) && Tail(c[3]))
    || (|c| == 4 && c[0] == 0xF4 && 0x80 <= c[1] <= 0x8F && Tail(c[2]) && Tail(c[3]))
  }

  /** The scan recognises exactly the characters of the grammar. */
  lemma ScanIsGrammar(c: Text)
    ensures 0 < |c| == CharLen(c) <==> Utf8Char(c)
  {
  }

  ghost predicate Characters(chars: seq<Text>) {
    forall i :: 0 <= i < |chars| ==> Utf8Char(chars[i])
  }

  lemma {:induction false} ValidAppend(a: Text, b: Text)
    requires Valid(a) && Valid(b)
    ensures Valid(a + b)
    decreases |a|
  {
    if a == [] {
      assert a + b == b;
    } else {
      var n, u := CharLen(a), a + b;
      assert u[..n] == a[..n] && u[n..] == a[n..] + b;
      CharLenIsLocal(a, u);
      ValidAppend(a[n..], b);
    }
  }

  lemma {:induction false} CharactersAreValid(chars: seq<Text>)
    requires Characters(chars)
    ensures Valid(Concat(chars))
  {
    if chars != [] {
      var last := chars[|chars| - 1];
      CharactersAreValid(chars[..|chars| - 1]);
      ScanIsGrammar(last);
      assert last[|last|..] == [];
      ValidAppend(Concat(chars[..|chars| - 1]), last);
    }
  }

  lemma PrependCharacter(c: Text, rest: seq<Text>)
    requires Characters(rest) && Utf8Char(c)
    ensures Characters([c] + rest) && Concat([c] + rest) == c + Concat(rest)
  {
    ConcatAppend([c], rest);
    ConcatOne(c);
  }

  lemma {:induction false} ValidHasCharacters(s: Text) returns (chars: seq<Text>)
    requires Valid(s)
    ensures Characters(chars) && Concat(chars) == s
    decreases |s|
  {
    chars := [];
    if s != [] {
      var n := CharLen(s);
      var rest := ValidHasCharacters(s[n..]);
      CharLenIsLocal(s, s[..n]);
      ScanIsGrammar(s[..n]);
      PrependCharacter(s[..n], rest);
      chars := [s[..n]] + rest;
    }
  }

  /** The left-to-right scan decides the grammar UTF8-octets = *( UTF8-char ) of section 4 of RFC 3629. */
  lemma ValidMeansCharacters(s: Text)
    ensures Valid(s) <==> exists chars: seq<Text> :: Characters(chars) && Concat(chars) == s
  {
    if Valid(s) {
      var chars := ValidHasCharacters(s);
    }
    forall chars: seq<Text> | Characters(chars) && Concat(chars) == s ensures Valid(s) {
      CharactersAreValid(chars);
    }
  }

  lemma {:induction false} ToValidIsValid(s: Text)
    ensures Valid(ToValid(s)) && |ToValid(s)| <= |s|
    decreases |s|
  {
    if s != [] {
      var n := CharLen(s);
      if n == 0 {
        ToValidIsValid(s[1..]);
      } else {
        ToValidIsValid(s[n..]);
        CharLenIsLocal(s, ToValid(s));
        assert ToValid(s)[n..] == ToValid(s[n..]);
      }
    }
  }

  /** No character starts inside a character that has been cut short. */
  lemma NothingStartsInACutCharacter(s: Text, i: nat, k: nat)
    requires i < k < CharLen(s)
    ensures CharLen(s[i..k]) == 0
  {
    assert forall j :: 0 <= j < k - i ==> s[i..k][j] == s[i + j];
  }

  lemma {:induction false} CutCharacterVanishes(s: Text, i: nat, k: nat)
    requires i <= k < CharLen(s)
    ensures ToValid(s[i..k]) == []
    decreases k - i
  {
    if i < k {
      NothingStartsInACutCharacter(s, i, k);
      CutCharacterVanishes(s, i + 1, k);
      assert s[i..k][1..] == s[i + 1..k];
    }
  }

  /** Prefixes of s that end after its first character are valid exactly when their remainder is. */
  lemma PrefixPastFirstCharacter(s: Text, j: nat)
    requires 0 < CharLen(s) <= j <= |s|
    ensures var n := CharLen(s);
      && CharLen(s[..j]) == n && s[..j][n..] == s[n..][..j - n]
      && ToValid(s[..j]) == s[..n] + ToValid(s[n..][..j - n])
      && (Valid(s[..j]) <==> Valid(s[n..][..j - n]))
  {
    var n := CharLen(s);
    assert s[..j][..n] == s[..n];
    CharLenIsLocal(s, s[..j]);
    assert s[..j][n..] == s[n..][..j - n];
  }

  lemma PrefixInsideFirstCharacter(s: Text, j: nat)
    requires 0 < j < CharLen(s)
    ensures !Valid(s[..j])
  {
    NothingStartsInACutCharacter(s, 0, j);
    assert s[0..j] == s[..j];
  }

  ghost predicate LongestFit(s: Text, k: nat, m: nat)
    requires k <= |s|
  {
    forall j :: m < j <= k ==> !Valid(s[..j])
  }

  lemma LongestFitStep(s: Text, k: nat, m: nat)
    requires 0 < CharLen(s) <= k <= |s|
    requires LongestFit(s[CharLen(s)..], k - CharLen(s), m)
    ensures LongestFit(s, k, CharLen(s) + m)
  {
    forall j | CharLen(s) + m < j <= k ensures !Valid(s[..j]) {
      PrefixPastFirstCharacter(s, j);
    }
  }

  /** Cut inside its first character, a string loses everything, and no prefix up to there is valid. */
  lemma CutInsideFirstCharacter(s: Text, k: nat)
    requires k < CharLen(s)
    ensures ToValid(s[..k]) == [] && LongestFit(s, k, 0)
  {
    CutCharacterVanishes(s, 0, k);
    assert s[0..k] == s[..k];
    forall j | 0 < j <= k ensures !Valid(s[..j]) {
      PrefixInsideFirstCharacter(s, j);
    }
  }

  lemma PrefixGrows(whole: Text, kept: Text, first: Text, rest: Text, keptRest: Text)
    requires whole == first + rest && kept == first + keptRest && keptRest <= rest
    ensures kept <= whole && |kept| == |first| + |keptRest|
  {
  }

  lemma PrefixInTwo(s: Text, n: nat, k: nat)
    requires n <= k <= |s|
    ensures s[..k] == s[..n] + s[n..][..k - n]
  {
  }

  /** Cut behind its first character, a string keeps that character and what the remainder keeps. */
  lemma CutPastFirstCharacter(s: Text, k: nat)
    requires 0 < CharLen(s) <= k <= |s|
    requires ToValid(s[CharLen(s)..][..k - CharLen(s)]) <= s[CharLen(s)..][..k - CharLen(s)]
    requires LongestFit(s[CharLen(s)..], k - CharLen(s), |ToValid(s[CharLen(s)..][..k - CharLen(s)])|)
    ensures ToValid(s[..k]) <= s[..k] && LongestFit(s, k, |ToValid(s[..k])|)
  {
    var n := CharLen(s);
    var rest := s[n..][..k - n];
    hide ToValid, Valid, LongestFit;
    PrefixPastFirstCharacter(s, k);
    LongestFitStep(s, k, |ToValid(rest)|);
    hide CharLen;
    PrefixInTwo(s, n, k);
    PrefixGrows(s[..k], ToValid(s[..k]), s[..n], rest, ToValid(rest));
  }

  lemma ValidRemainder(s: Text)
    requires Valid(s) && s != []
    ensures CharLen(s) > 0 && Valid(s[CharLen(s)..])
  {
  }

  /** Cutting a valid string anywhere keeps the longest valid prefix that fits. */
  lemma {:induction false} CutKeepsLongestPrefix(s: Text, k: nat)
    requires Valid(s) && k <= |s|
    ensures ToValid(s[..k]) <= s[..k]
    ensures LongestFit(s, k, |ToValid(s[..k])|)
    decreases |s|
  {
    if s == [] {
      assert s[..k] == [];
    } else {
      ValidRemainder(s);
      hide ToValid, Valid, LongestFit, CharLen;
      if k < CharLen(s) {
        CutInsideFirstCharacter(s, k);
      } else {
        CutKeepsLongestPrefix(s[CharLen(s)..], k - CharLen(s));
        CutPastFirstCharacter(s, k);
      }
    }
  }

  lemma {:induction false} ValidIsKept(s: Text)
    requires Valid(s)
    ensures ToValid(s) == s
    decreases |s|
  {
    if s != [] {
      ValidIsKept(s[CharLen(s)..]);
    }
  }

  /** The result is always valid and fits; a valid message keeps its longest whole-character prefix. */
  lemma TruncateIsLongestFit(s: Text, max: int)
    requires max > 0
    ensures var r := Truncate(s, max);
      && Valid(r) && |r| <= max
      && (Valid(s) ==> r <= s && LongestFit(s, if max <= |s| then max else |s|, |r|))
  {
    var cut := if |s| > max then s[..max] else s;
    ToValidIsValid(cut);
    if Valid(s) {
      if |s| > max {
        CutKeepsLongestPrefix(s, max);
      } else {
        ValidIsKept(s);
      }
    }
  }

  // ---- Text that is not valid ----------------------------------------------------------------------------

  /** No prefix of s is a character. */
  ghost predicate StartsNoCharacter(s: Text) {
    forall n :: 0 <= n <= |s| ==> !Utf8Char(s[..n])
  }

  /** s read from left to right: a character where one starts, and a single byte where none does. */
  ghost predicate Reads(s: Text, pieces: seq<Text>)
    decreases |pieces|
  {
    if pieces == [] then s == []
    else
      var p := pieces[0];
      && p != [] && p <= s && Reads(s[|p|..], pieces[1..])
      && (Utf8Char(p) || (|p| == 1 && StartsNoCharacter(s)))
  }

  /** The pieces that are characters. */
  function KeepCharacters(pieces: seq<Text>): Text
    decreases |pieces|
  {
    if pieces == [] then []
    else if Utf8Char(pieces[0]) then pieces[0] + KeepCharacters(pieces[1..])
    else KeepCharacters(pieces[1..])
  }

  lemma CharacterInFront(s: Text, p: Text)
    requires p <= s && Utf8Char(p)
    ensures CharLen(s) == |p|
  {
    ScanIsGrammar(p);
    assert p[..|p|] == p == s[..|p|];
    CharLenIsLocal(p, s);
  }

  lemma NoCharacterInFront(s: Text)
    ensures CharLen(s) == 0 <==> StartsNoCharacter(s)
  {
    if CharLen(s) > 0 {
      CharLenIsLocal(s, s[..CharLen(s)]);
      ScanIsGrammar(s[..CharLen(s)]);
    }
    forall n | 0 <= n <= |s| && CharLen(s) == 0 ensures !Utf8Char(s[..n]) {
      if Utf8Char(s[..n]) {
        CharacterInFront(s, s[..n]);
      }
    }
  }

  lemma {:induction false} ReadingDecides(s: Text, pieces: seq<Text>)
    requires Reads(s, pieces)
    ensures ToValid(s) == KeepCharacters(pieces)
    decreases |pieces|
  {
    if pieces != [] {
      var p := pieces[0];
      hide Utf8Char, CharLen, StartsNoCharacter;
      ReadingDecides(s[|p|..], pieces[1..]);
      if Utf8Char(p) {
        CharacterInFront(s, p);
        assert s[..|p|] == p;
      } else {
        NoCharacterInFront(s);
      }
    }
  }

  lemma {:induction false} CanBeRead(s: Text) returns (pieces: seq<Text>)
    ensures Reads(s, pieces)
    decreases |s|
  {
    pieces := [];
    if s != [] {
      NoCharacterInFront(s);
      var n := if CharLen(s) > 0 then CharLen(s) else 1;
      if CharLen(s) > 0 {
        CharLenIsLocal(s, s[..n]);
        ScanIsGrammar(s[..n]);
      }
      hide Utf8Char, CharLen, StartsNoCharacter;
      var rest := CanBeRead(s[n..]);
      pieces := [s[..n]] + rest;
      assert pieces[1..] == rest;
    }
  }

  /** A message that is not valid loses exactly the bytes, of its first max ones, at which no character starts. */
  lemma TruncateLeavesOutExactly(s: Text, max: int, pieces: seq<Text>)
    requires max > 0 && Reads(if |s| > max then s[..max] else s, pieces)
    ensures Truncate(s, max) == KeepCharacters(pieces)
  {
    ReadingDecides(if |s| > max then s[..max] else s, pieces);
  }
}
