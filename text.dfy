/** The string operations the client relies on: `trim`, `toLowerCase`,
    `includes` and the decimal rendering of numbers in messages.
    Whitespace and case are ASCII only. */
module Text {

  /** The ASCII characters `String.prototype.trim` strips. */
  predicate IsSpace(c: char) {
    c == ' ' || c == '\t' || c == '\n' || c == '\r' || c == '\U{000B}' || c == '\U{000C}'
  }

  /** Leading whitespace removed: the result is a suffix of `s`, everything
      cut off is whitespace, and the result does not start with whitespace. */
  function TrimStart(s: string): (r: string)
    ensures |r| <= |s| && r == s[|s| - |r|..]
    ensures forall k :: 0 <= k < |s| - |r| ==> IsSpace(s[k])
    ensures r != [] ==> !IsSpace(r[0])
  {
    if s != [] && IsSpace(s[0]) then TrimStart(s[1..]) else s
  }

  /** Trailing whitespace removed: the result is a prefix of `s`, everything
      cut off is whitespace, and the result does not end with whitespace. */
  function TrimEnd(s: string): (r: string)
    ensures |r| <= |s| && r == s[..|r|]
    ensures forall k :: |r| <= k < |s| ==> IsSpace(s[k])
    ensures r != [] ==> !IsSpace(r[|r| - 1])
  {
    if s != [] && IsSpace(s[|s| - 1]) then TrimEnd(s[..|s| - 1]) else s
  }

  /** `r` is `s[i..j]` and everything outside that window is whitespace. */
  predicate CutsOnlySpace(s: string, r: string, i: int, j: int) {
    0 <= i <= j <= |s| && r == s[i..j] &&
    (forall k :: 0 <= k < i ==> IsSpace(s[k])) && (forall k :: j <= k < |s| ==> IsSpace(s[k]))
  }

  /** `s.trim()`: the middle of `s` left after cutting whitespace from both
      ends, neither starting nor ending with whitespace itself. */
  function Trim(s: string): (r: string)
    ensures exists i, j :: CutsOnlySpace(s, r, i, j)
    ensures r != [] ==> !IsSpace(r[0]) && !IsSpace(r[|r| - 1])
  {
    TrimmedSlice(s);
    TrimEnd(TrimStart(s))
  }

  /** The two trims together cut only whitespace, from both ends. */
  lemma TrimmedSlice(s: string)
    ensures exists i, j :: CutsOnlySpace(s, TrimEnd(TrimStart(s)), i, j)
  {
    var u := TrimStart(s);
    var r := TrimEnd(u);
    var i := |s| - |u|;
    var j := i + |r|;
    assert r == u[..|r|] && u == s[i..];
    assert r == s[i..j];
    forall k | j <= k < |s| ensures IsSpace(s[k]) {
      assert s[k] == u[k - i];
    }
    assert CutsOnlySpace(s, r, i, j);
  }

  /** The test `!s || s.trim() === ""` the client applies to titles and
      queries: it holds exactly when every character is whitespace. */
  predicate IsBlank(s: string)
    ensures IsBlank(s) <==> forall k :: 0 <= k < |s| ==> IsSpace(s[k])
  {
    Trim(s) == []
  }

  /** Trimming is idempotent. */
  lemma TrimIdempotent(s: string)
    ensures Trim(Trim(s)) == Trim(s)
  {
    var r := Trim(s);
    assert TrimStart(r) == r;
  }

  function LowerChar(c: char): char {
    if 'A' <= c <= 'Z' then (c as int + 32) as char else c
  }

  /** `s.toLowerCase()`: same length, each character lower-cased. */
  function ToLower(s: string): (r: string)
    ensures |r| == |s|
    ensures forall i :: 0 <= i < |s| ==> r[i] == LowerChar(s[i])
  {
    if s == [] then [] else [LowerChar(s[0])] + ToLower(s[1..])
  }

  /** Lower-casing changes no character into or out of whitespace. */
  lemma LowerCharSpace(c: char)
    ensures IsSpace(LowerChar(c)) <==> IsSpace(c)
  {
  }

  lemma {:induction false} TrimStartLower(s: string)
    ensures TrimStart(ToLower(s)) == ToLower(TrimStart(s))
  {
    if s != [] {
      LowerCharSpace(s[0]);
      if IsSpace(s[0]) {
        assert ToLower(s)[1..] == ToLower(s[1..]);
        TrimStartLower(s[1..]);
      }
    }
  }

  lemma {:induction false} TrimEndLower(s: string)
    ensures TrimEnd(ToLower(s)) == ToLower(TrimEnd(s))
  {
    if s != [] {
      LowerCharSpace(s[|s| - 1]);
      if IsSpace(s[|s| - 1]) {
        assert ToLower(s)[..|s| - 1] == ToLower(s[..|s| - 1]);
        TrimEndLower(s[..|s| - 1]);
      }
    }
  }

  /** `q.toLowerCase().trim()` equals `q.trim().toLowerCase()`, so the search
      term is empty exactly when the query is blank. */
  lemma LowerTrimCommute(s: string)
    ensures Trim(ToLower(s)) == ToLower(Trim(s))
    ensures Trim(ToLower(s)) == [] <==> IsBlank(s)
  {
    TrimStartLower(s);
    TrimEndLower(TrimStart(s));
  }

  /** `needle` occurs in `hay` at position `i`. */
  predicate OccursAt(hay: string, needle: string, i: nat) {
    i + |needle| <= |hay| && hay[i..i + |needle|] == needle
  }

  /** `needle` is a substring of `hay`: the meaning of `hay.includes(needle)`. */
  ghost predicate Occurs(hay: string, needle: string) {
    exists i: nat :: OccursAt(hay, needle, i)
  }

  /** Removing the first character loses no occurrence except one at position 0. */
  lemma OccursShift(hay: string, needle: string)
    requires hay != [] && !OccursAt(hay, needle, 0)
    ensures Occurs(hay, needle) <==> Occurs(hay[1..], needle)
  {
    if Occurs(hay, needle) {
      var i: nat :| OccursAt(hay, needle, i);
      assert hay[1..][i - 1..i - 1 + |needle|] == hay[i..i + |needle|];
      assert OccursAt(hay[1..], needle, i - 1);
    }
    if Occurs(hay[1..], needle) {
      var j: nat :| OccursAt(hay[1..], needle, j);
      assert hay[1..][j..j + |needle|] == hay[j + 1..j + 1 + |needle|];
      assert OccursAt(hay, needle, j + 1);
    }
  }

  /** `hay.includes(needle)`, scanning start positions left to right: it
      holds exactly when `needle` occurs somewhere in `hay`. */
  function Includes(hay: string, needle: string): (b: bool)
    ensures b <==> Occurs(hay, needle)
    decreases |hay|
  {
    if |needle| > |hay| then false
    else if hay[..|needle|] == needle then
      assert OccursAt(hay, needle, 0);
      true
    else
      OccursShift(hay, needle);
      Includes(hay[1..], needle)
  }

  predicate IsDigit(c: char) {
    '0' <= c <= '9'
  }

  predicate AllDigits(s: string) {
    forall i :: 0 <= i < |s| ==> IsDigit(s[i])
  }

  function DigitChar(d: nat): char
    requires d < 10
  {
    ('0' as int + d) as char
  }

  function DigitValue(c: char): nat
    requires IsDigit(c)
  {
    c as int - '0' as int
  }

  /** The decimal numeral of `n` as a template literal renders it: digits only,
      no leading zero except for 0 itself. */
  function NatToText(n: nat): (r: string)
    ensures r != [] && AllDigits(r)
    ensures |r| > 1 ==> r[0] != '0'
  {
    if n < 10 then [DigitChar(n)] else NatToText(n / 10) + [DigitChar(n % 10)]
  }

  /** The value of a string of decimal digits. */
  function TextToNat(s: string): nat
    requires AllDigits(s)
  {
    if s == [] then 0 else TextToNat(s[..|s| - 1]) * 10 + DigitValue(s[|s| - 1])
  }

  /** Reading the numeral back gives the number: the rendering loses nothing. */
  lemma {:induction false} NatTextRoundTrip(n: nat)
    ensures TextToNat(NatToText(n)) == n
  {
    if n >= 10 {
      var r := NatToText(n);
      assert r[..|r| - 1] == NatToText(n / 10);
      NatTextRoundTrip(n / 10);
    }
  }

  /** The shape of an integer numeral: an optional minus sign, then digits. */
  predicate IsIntText(s: string) {
    s != [] && if s[0] == '-' then |s| > 1 && AllDigits(s[1..]) else AllDigits(s)
  }

  /** The value of an integer numeral. */
  function TextToInt(s: string): int
    requires IsIntText(s)
  {
    if s[0] == '-' then -(TextToNat(s[1..]) as int) else TextToNat(s)
  }

  /** A JavaScript integer in a template literal: a minus sign exactly when
      negative, then the digits of its magnitude. */
  function IntToText(n: int): (r: string)
    ensures IsIntText(r)
    ensures n < 0 <==> r[0] == '-'
  {
    if n < 0 then "-" + NatToText(-n) else NatToText(n)
  }

  /** Reading the rendered integer back gives the integer. */
  lemma IntTextRoundTrip(n: int)
    ensures TextToInt(IntToText(n)) == n
  {
    if n < 0 {
      assert IntToText(n)[1..] == NatToText(-n);
      NatTextRoundTrip(-n);
    } else {
      NatTextRoundTrip(n);
    }
  }
}
