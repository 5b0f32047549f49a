/** The Python string builtins the verification code relies on:
    `str.lstrip(chars)`, `int(str)` in base 10 and ASCII case folding. */
module PyText {
  import opened Wrappers

  predicate IsSuffix(r: string, s: string) {
    |r| <= |s| && s[|s| - |r|..] == r
  }

  /** `s.lstrip(chars)` with the character set given as a predicate: drops
      the longest leading run of characters that satisfy `drop`. */
  function LStrip(s: string, drop: char -> bool): (r: string)
    ensures IsSuffix(r, s)
    ensures r == [] || !drop(r[0])
    ensures forall i :: 0 <= i < |s| - |r| ==> drop(s[i])
  {
    if s != [] && drop(s[0]) then LStrip(s[1..], drop) else s
  }

  /** Stripping twice strips nothing more. */
  lemma LStripIdempotent(s: string, drop: char -> bool)
    ensures LStrip(LStrip(s, drop), drop) == LStrip(s, drop)
  {
  }

  /** Characters that are all stripped fall away in front of the rest. */
  lemma {:induction false} LStripDropsPrefix(p: string, s: string, drop: char -> bool)
    requires forall i :: 0 <= i < |p| ==> drop(p[i])
    ensures LStrip(p + s, drop) == LStrip(s, drop)
  {
    if p == [] {
      assert p + s == s;
    } else {
      assert (p + s)[0] == p[0];
      assert (p + s)[1..] == p[1..] + s;
      LStripDropsPrefix(p[1..], s, drop);
    }
  }

  /** `s.replace(c, "")`. */
  function RemoveChar(s: string, c: char): (r: string)
    ensures |r| <= |s|
    ensures forall x :: x in r <==> x in s && x != c
    ensures c !in s ==> r == s
  {
    if s == [] then []
    else
      assert s == [s[0]] + s[1..];
      (if s[0] == c then [] else [s[0]]) + RemoveChar(s[1..], c)
  }

  /** `s.find(c)`: the first index holding `c`, or -1. */
  function Find(s: string, c: char): (i: int)
    ensures -1 <= i < |s|
    ensures i == -1 <==> c !in s
    ensures i >= 0 ==> s[i] == c && c !in s[..i]
  {
    if s == [] then -1
    else if s[0] == c then 0
    else
      var j := Find(s[1..], c);
      assert s[1..][..if j < 0 then 0 else j] == s[1..1 + if j < 0 then 0 else j];
      if j < 0 then -1 else j + 1
  }

  /** The first `c` in `p + [c] + rest`, when `p` holds none, is right
      after `p`. */
  lemma {:induction false} FindAfterPrefix(p: string, c: char, rest: string)
    requires c !in p
    ensures Find(p + [c] + rest, c) == |p|
  {
    if p != [] {
      assert (p + [c] + rest)[1..] == p[1..] + [c] + rest;
      FindAfterPrefix(p[1..], c, rest);
    }
  }

  predicate IsAsciiLetter(c: char) {
    ('a' <= c <= 'z') || ('A' <= c <= 'Z')
  }

  predicate IsAsciiDigit(c: char) {
    '0' <= c <= '9'
  }

  function AsciiLower(c: char): (l: char)
    ensures 'A' <= c <= 'Z' ==> 'a' <= l <= 'z'
    ensures !('A' <= c <= 'Z') ==> l == c
  {
    if 'A' <= c <= 'Z' then (c as int - 'A' as int + 'a' as int) as char else c
  }

  /** `s.lower()` restricted to ASCII letters. */
  function Lower(s: string): (r: string)
    ensures |r| == |s|
    ensures forall i :: 0 <= i < |s| ==> r[i] == AsciiLower(s[i])
  {
    if s == [] then [] else [AsciiLower(s[0])] + Lower(s[1..])
  }

  /** The ASCII characters `str.isspace()` accepts; `int()` strips them. */
  predicate IsAsciiSpace(c: char) {
    c == ' ' || ('\t' <= c <= '\r') || ('\U{1c}' <= c <= '\U{1f}')
  }

  /** `s.strip()` over ASCII whitespace. */
  function Strip(s: string): (r: string)
    ensures r == [] || (!IsAsciiSpace(r[0]) && !IsAsciiSpace(r[|r| - 1]))
    ensures |r| <= |s|
  {
    var t := LStrip(s, IsAsciiSpace);
    RStrip(t)
  }

  function RStrip(s: string): (r: string)
    requires s == [] || !IsAsciiSpace(s[0])
    ensures |r| <= |s| && r == s[..|r|]
    ensures r == [] || (!IsAsciiSpace(r[0]) && !IsAsciiSpace(r[|r| - 1]))
  {
    if s != [] && IsAsciiSpace(s[|s| - 1]) then RStrip(s[..|s| - 1]) else s
  }

  /** A base-10 literal as `int()` reads it: ASCII digits, with single
      underscores allowed between digits. */
  predicate IsDecimalLiteral(s: string) {
    && s != []
    && IsAsciiDigit(s[0])
    && IsAsciiDigit(s[|s| - 1])
    && (forall i :: 0 <= i < |s| ==> IsAsciiDigit(s[i]) || s[i] == '_')
    && (forall i :: 0 <= i < |s| - 1 ==> !(s[i] == '_' && s[i + 1] == '_'))
  }

  function DigitValue(c: char): (v: nat)
    requires IsAsciiDigit(c)
    ensures v < 10
  {
    c as int - '0' as int
  }

  /** The value of a string of digits and underscores, underscores ignored. */
  function DecimalValue(s: string): nat
    requires forall i :: 0 <= i < |s| ==> IsAsciiDigit(s[i]) || s[i] == '_'
  {
    if s == [] then 0
    else if s[|s| - 1] == '_' then DecimalValue(s[..|s| - 1])
    else 10 * DecimalValue(s[..|s| - 1]) + DigitValue(s[|s| - 1])
  }

  /** `int(s)` for a string `s`: surrounding whitespace, an optional sign and
      a decimal literal; anything else raises ValueError (None). */
  function ParseInt(s: string): (r: Option<int>)
  {
    var t := Strip(s);
    var negative := t != [] && t[0] == '-';
    var body := if t != [] && (t[0] == '-' || t[0] == '+') then t[1..] else t;
    if IsDecimalLiteral(body) then
      var magnitude: int := DecimalValue(body);
      Some(if negative then -magnitude else magnitude)
    else
      None
  }

  /** The canonical decimal spelling of a natural number. */
  function DecimalString(n: nat): (s: string)
    ensures s != [] && forall i :: 0 <= i < |s| ==> IsAsciiDigit(s[i])
  {
    var d := ['0' + (n % 10) as char];
    if n < 10 then d else DecimalString(n / 10) + d
  }

  lemma {:induction false} DecimalStringValue(n: nat)
    ensures DecimalValue(DecimalString(n)) == n
  {
    var s := DecimalString(n);
    assert s[|s| - 1] == '0' + (n % 10) as char;
    if n >= 10 {
      DecimalStringValue(n / 10);
      assert s[..|s| - 1] == DecimalString(n / 10);
    }
  }

  /** `int(str(n)) == n` for every integer. */
  lemma {:induction false} ParseIntOfDecimalString(n: int)
    ensures ParseInt(if n < 0 then "-" + DecimalString(-n) else DecimalString(n)) == Some(n)
  {
    var digits := DecimalString(if n < 0 then -n else n);
    var s := if n < 0 then "-" + digits else digits;
    DecimalStringValue(if n < 0 then -n else n);
    assert LStrip(s, IsAsciiSpace) == s;
    assert RStrip(s) == s;
    if n < 0 {
      assert s[1..] == digits;
    }
  }
}
