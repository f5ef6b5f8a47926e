/**
 * The pieces of JavaScript's string semantics that the components rely on:
 * `String.prototype.includes` and `startsWith`, the global `parseInt` (with no radix),
 * the loose comparison `string == 1` (which converts the string with StringToNumber),
 * and `String(n)` for a non-negative integer. Each follows the ECMAScript language
 * specification (sections 7.1.4.1.1 StringToNumber and 19.2.5 parseInt).
 */
module JsText {
  import opened Wrappers

  /** StrWhiteSpaceChar: the WhiteSpace and LineTerminator code points that parseInt and StringToNumber skip. */
  predicate IsWhiteSpace(c: char) {
    var k := c as int;
    || k == 0x09 || k == 0x0B || k == 0x0C || k == 0x20 || k == 0xA0 || k == 0xFEFF
    || k == 0x1680 || (0x2000 <= k <= 0x200A) || k == 0x202F || k == 0x205F || k == 0x3000
    || k == 0x0A || k == 0x0D || k == 0x2028 || k == 0x2029
  }

  /** The value of `c` read as a digit of any radix up to 36, or -1 when it is not alphanumeric ASCII. */
  function DigitValue(c: char): (d: int)
    ensures -1 <= d < 36
    ensures '0' <= c <= '9' ==> d == c as int - '0' as int
  {
    if '0' <= c <= '9' then c as int - '0' as int
    else if 'a' <= c <= 'z' then c as int - 'a' as int + 10
    else if 'A' <= c <= 'Z' then c as int - 'A' as int + 10
    else -1
  }

  predicate IsRadixDigit(c: char, radix: nat) {
    0 <= DigitValue(c) < radix
  }

  predicate AllDigits(s: string, radix: nat) {
    forall i :: 0 <= i < |s| ==> IsRadixDigit(s[i], radix)
  }

  /** The number a string of base-`radix` digits denotes, most significant digit first. */
  function DigitsValue(s: string, radix: nat): nat
    requires AllDigits(s, radix)
  {
    if s == [] then 0
    else
      DigitsValue(s[..|s| - 1], radix) * radix + DigitValue(s[|s| - 1])
  }

  /** The length of the longest prefix of `s` made of base-`radix` digits. */
  function DigitRun(s: string, radix: nat): (n: nat)
    ensures n <= |s| && AllDigits(s[..n], radix)
    ensures n < |s| ==> !IsRadixDigit(s[n], radix)
  {
    if s != [] && IsRadixDigit(s[0], radix) then
      var m := DigitRun(s[1..], radix);
      assert s[..1 + m] == [s[0]] + s[1..][..m];
      1 + m
    else 0
  }

  lemma {:induction false} DigitRunOfDigits(s: string, radix: nat)
    requires AllDigits(s, radix)
    ensures DigitRun(s, radix) == |s|
  {
    if s != [] {
      DigitRunOfDigits(s[1..], radix);
    }
  }

  /** `s` without its leading white space. */
  function TrimStart(s: string): (r: string)
    ensures |r| <= |s| && r == s[|s| - |r|..]
    ensures r != [] ==> !IsWhiteSpace(r[0])
    ensures forall i :: 0 <= i < |s| - |r| ==> IsWhiteSpace(s[i])
  {
    if s != [] && IsWhiteSpace(s[0]) then TrimStart(s[1..]) else s
  }

  /** `s` without its trailing white space. */
  function TrimEnd(s: string): (r: string)
    ensures |r| <= |s| && r == s[..|r|]
    ensures r != [] ==> !IsWhiteSpace(r[|r| - 1])
    ensures forall i :: |r| <= i < |s| ==> IsWhiteSpace(s[i])
  {
    if s != [] && IsWhiteSpace(s[|s| - 1]) then TrimEnd(s[..|s| - 1]) else s
  }

  /** `s` with an optional leading '+' or '-' removed. */
  function Unsigned(t: string): string {
    if t != [] && (t[0] == '+' || t[0] == '-') then t[1..] else t
  }

  /**
   * `parseInt(s)` with no radix argument: skip leading white space, read an optional
   * sign, take base 16 after a "0x"/"0X" prefix and base 10 otherwise, and read the
   * longest run of digits; no digit at all gives NaN (`None`). The value is exact: the
   * rounding of very long inputs to a double is not modelled.
   */
  function ParseInt(s: string): (r: Option<int>)
    ensures r.Some? ==> exists i :: 0 <= i < |s| && IsRadixDigit(s[i], 16)
  {
    var t := TrimStart(s);
    var negative := t != [] && t[0] == '-';
    var u := Unsigned(t);
    var hex := |u| >= 2 && u[0] == '0' && (u[1] == 'x' || u[1] == 'X');
    var radix := if hex then 16 else 10;
    var digits := if hex then u[2..] else u;
    var z := digits[..DigitRun(digits, radix)];
    if z == [] then None else Some(if negative then -(DigitsValue(z, radix) as int) else DigitsValue(z, radix))
  }

  /** On a plain string of decimal digits parseInt reads every digit. */
  lemma ParseIntOfDigits(s: string)
    requires s != [] && AllDigits(s, 10)
    ensures ParseInt(s) == Some(DigitsValue(s, 10))
  {
    DigitRunOfDigits(s, 10);
    assert !IsWhiteSpace(s[0]) && !IsRadixDigit('x', 10) && !IsRadixDigit('X', 10);
    assert TrimStart(s) == s && Unsigned(s) == s;
    assert s[..|s|] == s;
  }

  function DigitChar(d: nat): (c: char)
    requires d < 10
    ensures '0' <= c <= '9' && DigitValue(c) == d
  {
    ('0' as int + d) as char
  }

  /** `String(n)` for a non-negative integer: its decimal digits, without leading zeros. */
  function NatToString(n: nat): (s: string)
    ensures s != [] && AllDigits(s, 10)
    ensures DigitsValue(s, 10) == n
    ensures s[0] == '0' ==> n == 0
    ensures |s| == 1 <==> n < 10
  {
    if n < 10 then
      [DigitChar(n)]
    else
      var p := NatToString(n / 10);
      var s := p + [DigitChar(n % 10)];
      assert s[..|s| - 1] == p;
      s
  }

  /** A number in 100..999 is written with exactly three digits. */
  lemma {:induction false} ThreeDigits(n: nat)
    requires 100 <= n <= 999
    ensures |NatToString(n)| == 3
  {
    assert NatToString(n) == NatToString(n / 10) + [DigitChar(n % 10)];
    assert NatToString(n / 10) == NatToString(n / 100) + [DigitChar((n / 10) % 10)];
  }

  /** The round trip that `${number}` followed by `parseInt` completes. */
  lemma ParseIntOfNatToString(n: nat)
    ensures ParseInt(NatToString(n)) == Some(n)
  {
    ParseIntOfDigits(NatToString(n));
  }

  /** `s.includes(sub)`: `sub` occurs at some position of `s`. */
  function Includes(s: string, sub: string): (r: bool)
    ensures r ==> |sub| <= |s|
    ensures StartsWith(s, sub) ==> r
    ensures sub == [] ==> r
  {
    assert s[0..] == s;
    exists i :: 0 <= i <= |s| && StartsWith(s[i..], sub)
  }

  /** `s.startsWith(prefix)`: the first `|prefix|` characters of `s` are those of `prefix`. */
  function StartsWith(s: string, prefix: string): (b: bool)
    ensures b <==> |prefix| <= |s| && forall i :: 0 <= i < |prefix| ==> s[i] == prefix[i]
  {
    |prefix| <= |s| && s[..|prefix|] == prefix
  }

  /**
   * `s.length`: the number of UTF-16 code units, one for a character below U+10000 and two (a
   * surrogate pair) for any other.
   */
  function Utf16Length(s: string): (n: nat)
    ensures |s| <= n <= 2 * |s|
    ensures (forall i :: 0 <= i < |s| ==> (s[i] as int) < 0x10000) ==> n == |s|
  {
    if s == [] then 0
    else (if (s[0] as int) < 0x10000 then 1 else 2) + Utf16Length(s[1..])
  }

  function Pow10(k: nat): (p: nat)
    ensures p >= 1
  {
    if k == 0 then 1 else 10 * Pow10(k - 1)
  }

  /** The base of a NonDecimalIntegerLiteral prefix letter ("0x", "0o", "0b"), or 0 when `c` is none. */
  function RadixOfPrefix(c: char): nat {
    if c == 'x' || c == 'X' then 16
    else if c == 'o' || c == 'O' then 8
    else if c == 'b' || c == 'B' then 2
    else 0
  }

  /** Whether `e` is empty or an ExponentPart: 'e' or 'E', an optional sign, at least one decimal digit. */
  predicate IsExponentPart(e: string) {
    e == [] || (|e| >= 2 && (e[0] == 'e' || e[0] == 'E') && Unsigned(e[1..]) != [] && AllDigits(Unsigned(e[1..]), 10))
  }

  function ExponentValue(e: string): int
    requires IsExponentPart(e)
  {
    if e == [] then 0
    else if e[1] == '-' then -(DigitsValue(Unsigned(e[1..]), 10) as int)
    else DigitsValue(Unsigned(e[1..]), 10)
  }

  /** Whether `m` times ten to the power `e - f` is exactly 1. */
  predicate ScaledIsOne(m: nat, f: nat, e: int) {
    if e >= f then m * Pow10(e - f) == 1 else m == Pow10(f - e)
  }

  /** Whether a trimmed string is a NonDecimalIntegerLiteral ("0x1", "0b01", ...) denoting 1. */
  predicate NonDecimalIsOne(t: string) {
    |t| >= 3 && t[0] == '0' && RadixOfPrefix(t[1]) > 0
    && AllDigits(t[2..], RadixOfPrefix(t[1])) && DigitsValue(t[2..], RadixOfPrefix(t[1])) == 1
  }

  lemma AllDigitsConcat(a: string, b: string, radix: nat)
    requires AllDigits(a, radix) && AllDigits(b, radix)
    ensures AllDigits(a + b, radix)
  {
    forall i | 0 <= i < |a + b| ensures IsRadixDigit((a + b)[i], radix) {
      if i >= |a| { assert (a + b)[i] == b[i - |a|]; }
    }
  }

  /**
   * Whether a trimmed string is a StrDecimalLiteral (optional sign, digits with an optional
   * fraction, an optional exponent) whose exact value is 1.
   */
  predicate DecimalIsOne(t: string) {
    var negative := t != [] && t[0] == '-';
    var u := Unsigned(t);
    var i := DigitRun(u, 10);
    var rest := u[i..];
    var dot := rest != [] && rest[0] == '.';
    var afterDot := if dot then rest[1..] else rest;
    var j := if dot then DigitRun(afterDot, 10) else 0;
    var mantissa := u[..i] + afterDot[..j];
    var expPart := afterDot[j..];
    AllDigitsConcat(u[..i], afterDot[..j], 10);
    && !negative
    && mantissa != []
    && IsExponentPart(expPart)
    && ScaledIsOne(DigitsValue(mantissa, 10), j, ExponentValue(expPart))
  }

  /**
   * Whether `s == 1` holds in JavaScript for a string `s`: StringToNumber of the trimmed
   * text is exactly 1. Decimal texts are compared by their exact value, so a text that
   * only rounds to 1 as a double is not covered.
   */
  function NumberStringIsOne(s: string): (r: bool)
    ensures r ==> var t := TrimEnd(TrimStart(s)); t != [] && t[0] != '-'
  {
    var t := TrimEnd(TrimStart(s));
    NonDecimalIsOne(t) || DecimalIsOne(t)
  }

  /** On a plain string of decimal digits, loose equality with 1 agrees with parseInt. */
  lemma {:induction false} NumberStringIsOneOnDigits(s: string)
    requires s != [] && AllDigits(s, 10)
    ensures NumberStringIsOne(s) <==> ParseInt(s) == Some(1)
  {
    assert !IsWhiteSpace(s[0]) && !IsWhiteSpace(s[|s| - 1]);
    assert TrimStart(s) == s;
    assert TrimEnd(s) == s;
    DigitRunOfDigits(s, 10);
    assert s[..|s|] == s;
    assert !(|s| >= 3 && RadixOfPrefix(s[1]) > 0);
    assert Unsigned(s) == s;
    assert s[..|s|] + s[|s|..][..0] == s;
  }

  /** A fraction that is zero still makes the text loosely equal to 1: `"1.0" == 1`. */
  lemma FractionalOneIsOne()
    ensures NumberStringIsOne("1.0")
  {
    var s := "1.0";
    assert !IsWhiteSpace(s[0]) && !IsWhiteSpace(s[2]);
    assert TrimStart(s) == s;
    assert TrimEnd(s) == s;
    assert Unsigned(s) == s;
    assert s[1..] == ".0";
    assert DigitRun(".0", 10) == 0;
    assert DigitRun(s, 10) == 1;
    assert s[1..][1..] == "0";
    assert DigitRun("0", 10) == 1 by { assert "0"[1..] == []; }
    assert s[..1] + "0"[..1] == "10";
    assert "10"[..1] == "1";
    assert DigitsValue("10", 10) == 10;
    assert Pow10(1) == 10;
  }

  /**
   * Loose equality reads the whole trimmed text while `parseInt` stops at the first non-digit:
   * `"1a" == 1` is false, yet `parseInt("1a")` is 1.
   */
  lemma TrailingLetterIsNotOne()
    ensures !NumberStringIsOne("1a")
    ensures ParseInt("1a") == Some(1)
  {
    var s := "1a";
    assert !IsWhiteSpace(s[0]) && !IsWhiteSpace(s[1]);
    assert TrimStart(s) == s;
    assert TrimEnd(s) == s;
    assert Unsigned(s) == s;
    assert s[1..] == "a";
    assert DigitRun("a", 10) == 0;
    assert DigitRun(s, 10) == 1;
    assert !IsExponentPart("a");
    assert s[..1] == "1";
    assert DigitsValue("1", 10) == 1 by { assert "1"[..0] == []; }
  }
}
