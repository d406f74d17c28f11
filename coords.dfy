/**
 * Board labels: a row letter followed by a 1-based column number ("C4" is row 2, column 3).
 * Models game/coords.py.
 */
module Coords {
  import opened Wrappers

  /** The characters Python's `str.strip()` removes by default (those for which `isspace()` holds). */
  predicate IsSpace(ch: char) {
    ch == ' ' || '\t' <= ch <= '\r' || '\U{1C}' <= ch <= '\U{1F}' || ch == '\U{85}' || ch == '\U{A0}'
    || ch == '\U{1680}' || '\U{2000}' <= ch <= '\U{200A}' || ch == '\U{2028}' || ch == '\U{2029}'
    || ch == '\U{202F}' || ch == '\U{205F}' || ch == '\U{3000}'
  }

  predicate IsAsciiLetter(ch: char) { 'A' <= ch <= 'Z' || 'a' <= ch <= 'z' }

  predicate IsDigit(ch: char) { '0' <= ch <= '9' }

  predicate AllDigits(s: string) { forall i :: 0 <= i < |s| ==> IsDigit(s[i]) }

  function StripLeft(s: string): (r: string)
    ensures |r| <= |s| && r == s[|s| - |r|..]
    ensures |r| > 0 ==> !IsSpace(r[0])
    ensures forall i :: 0 <= i < |s| - |r| ==> IsSpace(s[i])
  {
    if |s| > 0 && IsSpace(s[0]) then StripLeft(s[1..]) else s
  }

  function StripRight(s: string): (r: string)
    ensures |r| <= |s| && r == s[..|r|]
    ensures |r| > 0 ==> !IsSpace(r[|r| - 1])
    ensures forall i :: |r| <= i < |s| ==> IsSpace(s[i])
  {
    if |s| > 0 && IsSpace(s[|s| - 1]) then StripRight(s[..|s| - 1]) else s
  }

  /** `str.strip()`: removes leading and trailing whitespace. */
  function Strip(s: string): string {
    StripRight(StripLeft(s))
  }

  function UpperChar(ch: char): (r: char)
    ensures IsAsciiLetter(ch) <==> IsAsciiLetter(r)
    ensures IsAsciiLetter(r) ==> 'A' <= r <= 'Z'
    ensures IsDigit(ch) <==> IsDigit(r)
  {
    if 'a' <= ch <= 'z' then (ch as int - 'a' as int + 'A' as int) as char else ch
  }

  /** `str.upper()` on the ASCII letters. */
  function Upper(s: string): (r: string)
    ensures |r| == |s|
    ensures forall i :: 0 <= i < |s| ==> r[i] == UpperChar(s[i])
  {
    seq(|s|, i requires 0 <= i < |s| => UpperChar(s[i]))
  }

  function DigitValue(ch: char): (d: nat)
    requires IsDigit(ch)
    ensures d < 10
  {
    ch as int - '0' as int
  }

  function DigitChar(d: nat): (ch: char)
    requires d < 10
    ensures IsDigit(ch) && DigitValue(ch) == d
  {
    ('0' as int + d) as char
  }

  /** `int(s)` for a string of decimal digits (leading zeros allowed). */
  function DecimalValue(s: string): nat
    requires AllDigits(s)
  {
    if |s| == 0 then 0 else DecimalValue(s[..|s| - 1]) * 10 + DigitValue(s[|s| - 1])
  }

  /** The decimal digits of `n`, as `str(n)` writes them. */
  function NatToDecimal(n: nat): (s: string)
    ensures |s| > 0 && AllDigits(s)
  {
    if n < 10 then [DigitChar(n)] else NatToDecimal(n / 10) + [DigitChar(n % 10)]
  }

  /** `str(i)` for any integer: a minus sign before the digits of a negative number. */
  function IntToDecimal(i: int): string {
    if i < 0 then "-" + NatToDecimal(-i) else NatToDecimal(i)
  }

  /**
   * coord_to_rc: parses " c4 " and "C4" alike to (2, 3). None when the trimmed text is shorter
   * than two characters, its first character is not a letter, or the rest is not all digits.
   * There is no range check: "A0" gives column -1.
   */
  function CoordToRc(pos: string): (r: Option<(int, int)>)
    ensures r.Some? <==>
      var p := Upper(Strip(pos));
      |p| >= 2 && IsAsciiLetter(p[0]) && AllDigits(p[1..])
    ensures r.Some? ==>
      var p := Upper(Strip(pos));
      0 <= r.value.0 < 26 && r.value.0 == p[0] as int - 'A' as int
      && r.value.1 >= -1 && r.value.1 == DecimalValue(p[1..]) - 1
  {
    var p := Upper(Strip(pos));
    if |p| < 2 then None
    else if !IsAsciiLetter(p[0]) || !AllDigits(p[1..]) then None
    else Some((p[0] as int - 'A' as int, DecimalValue(p[1..]) - 1))
  }

  /** The code points a Dafny `char` can hold (Python's `chr` also accepts surrogates). */
  predicate IsCharCode(n: int) {
    0 <= n < 0xD800 || 0xE000 <= n <= 0x10FFFF
  }

  /**
   * rc_to_coord: the character 'A' + row followed by the decimal of col + 1.
   * None stands for the ValueError that `chr` raises for an impossible code point.
   */
  function RcToCoord(row: int, col: int): (s: Option<string>)
    ensures s.Some? <==> IsCharCode('A' as int + row)
    ensures s.Some? ==> |s.value| >= 2 && s.value[0] as int == 'A' as int + row
    ensures s.Some? ==> s.value[1..] == IntToDecimal(col + 1)
  {
    var code := 'A' as int + row;
    if IsCharCode(code) then Some([code as char] + IntToDecimal(col + 1)) else None
  }

  lemma {:induction false} DecimalRoundTrip(n: nat)
    ensures DecimalValue(NatToDecimal(n)) == n
  {
    var s := NatToDecimal(n);
    if n >= 10 {
      DecimalRoundTrip(n / 10);
      assert s[..|s| - 1] == NatToDecimal(n / 10);
    }
  }

  lemma NoSpaceInDecimal(s: string)
    requires AllDigits(s)
    ensures forall i :: 0 <= i < |s| ==> !IsSpace(s[i])
  {
  }

  lemma StripUnchanged(s: string)
    requires |s| > 0 && !IsSpace(s[0]) && !IsSpace(s[|s| - 1])
    ensures Strip(s) == s
  {
    assert StripLeft(s) == s;
  }

  lemma UpperUnchanged(s: string)
    requires forall i :: 0 <= i < |s| ==> !('a' <= s[i] <= 'z')
    ensures Upper(s) == s
  {
  }

  /** A label written by RcToCoord reads back as the same cell, for rows A..Z and every column >= -1. */
  lemma RoundTrip(row: int, col: int)
    requires 0 <= row <= 25 && col >= -1
    ensures RcToCoord(row, col).Some?
    ensures CoordToRc(RcToCoord(row, col).value) == Some((row, col))
  {
    var digits := NatToDecimal(col + 1);
    var letter := ('A' as int + row) as char;
    var s := [letter] + digits;
    assert RcToCoord(row, col) == Some(s);
    assert s[1..] == digits;
    assert s[|s| - 1] == digits[|digits| - 1];
    NoSpaceInDecimal(digits);
    StripUnchanged(s);
    UpperUnchanged(s);
    DecimalRoundTrip(col + 1);
    assert Upper(Strip(s)) == s;
  }

  /** One space on each side of a label is stripped. */
  lemma StripPadded(s: string)
    requires |s| > 0 && !IsSpace(s[0]) && !IsSpace(s[|s| - 1])
    ensures Strip(" " + s + " ") == s
  {
    var t := " " + s + " ";
    assert t[1..] == s + " ";
    assert StripLeft(t) == s + " ";
    assert (s + " ")[..|s|] == s;
    assert StripRight(s + " ") == StripRight(s);
    StripUnchanged(s);
  }

  /** Parsing ignores case and surrounding whitespace. */
  lemma ParseExample()
    ensures CoordToRc(" c4 ") == Some((2, 3))
  {
    StripPadded("c4");
    assert " c4 " == " " + "c4" + " ";
    var p := Upper("c4");
    assert p == "C4";
    assert p[1..] == "4";
    assert DecimalValue("4") == 4 by { assert "4"[..0] == ""; }
  }

  /** There is no range check: column "0" becomes -1. */
  lemma NoRangeCheck()
    ensures CoordToRc("A0") == Some((0, -1))
  {
    RoundTrip(0, -1);
    assert RcToCoord(0, -1).value == "A0" by {
      assert NatToDecimal(0) == "0";
    }
  }
}
