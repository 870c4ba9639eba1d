/**
 * The string operations of JavaScript that the board and the server rely on:
 * `trim()`, `toLowerCase()`, `includes(q)` and `split('T')[0]`.
 */
module Strings {

  /** ECMAScript WhiteSpace and LineTerminator code points: what `trim()` removes. */
  const WhiteSpace: set<char> := {
    '\t', '\n', '\U{000B}', '\U{000C}', '\r', ' ', '\U{00A0}', '\U{1680}',
    '\U{2000}', '\U{2001}', '\U{2002}', '\U{2003}', '\U{2004}', '\U{2005}', '\U{2006}',
    '\U{2007}', '\U{2008}', '\U{2009}', '\U{200A}',
    '\U{2028}', '\U{2029}', '\U{202F}', '\U{205F}', '\U{3000}', '\U{FEFF}'
  }

  predicate IsSpace(c: char) {
    c in WhiteSpace
  }

  /** Only white space: the strings whose `trim()` is empty (JavaScript's `!s.trim()`). */
  predicate IsBlank(s: string) {
    forall k :: 0 <= k < |s| ==> IsSpace(s[k])
  }

  /** `t` is `s` with a run of white space cut from its front, and `t` does not start with white space. */
  predicate CutFront(s: string, t: string) {
    |t| <= |s| && t == s[|s| - |t|..]
    && (forall k :: 0 <= k < |s| - |t| ==> IsSpace(s[k]))
    && (t == [] || !IsSpace(t[0]))
  }

  /** `r` is `t` with a run of white space cut from its back, and `r` does not end with white space. */
  predicate CutBack(t: string, r: string) {
    |r| <= |t| && r == t[..|r|]
    && (forall k :: |r| <= k < |t| ==> IsSpace(t[k]))
    && (r == [] || !IsSpace(r[|r| - 1]))
  }

  /** Drops the leading white space. */
  function TrimStart(s: string): (r: string)
    ensures CutFront(s, r)
  {
    if s != [] && IsSpace(s[0]) then
      var r := TrimStart(s[1..]);
      assert forall k :: 1 <= k < |s| ==> s[1..][k - 1] == s[k];
      r
    else s
  }

  /** Drops the trailing white space. */
  function TrimEnd(s: string): (r: string)
    ensures CutBack(s, r)
  {
    if s != [] && IsSpace(s[|s| - 1]) then
      var r := TrimEnd(s[..|s| - 1]);
      assert forall k :: 0 <= k < |s| - 1 ==> s[..|s| - 1][k] == s[k];
      r
    else s
  }

  /** `s.trim()` */
  function Trim(s: string): (r: string)
    ensures |r| <= |s|
    ensures r == [] <==> IsBlank(s)
    ensures r != [] ==> !IsSpace(r[0]) && !IsSpace(r[|r| - 1])
    ensures exists a, b :: s == a + r + b && IsBlank(a) && IsBlank(b)
  {
    var t := TrimStart(s);
    var r := TrimEnd(t);
    TrimFacts(s, t, r);
    r
  }

  /**
   * White space cut from the front of `s`, leaving `t`, and then from the back of `t`, leaving `r`:
   * `r` is empty exactly when `s` was blank, starts and ends with no white space otherwise, and sits
   * in `s` between a blank prefix and a blank suffix.
   */
  lemma TrimFacts(s: string, t: string, r: string)
    requires CutFront(s, t) && CutBack(t, r)
    ensures |r| <= |s|
    ensures r == [] <==> IsBlank(s)
    ensures r != [] ==> !IsSpace(r[0]) && !IsSpace(r[|r| - 1])
    ensures exists a, b :: s == a + r + b && IsBlank(a) && IsBlank(b)
  {
    assert r != [] ==> r[0] == t[0];
    assert t != [] ==> t[0] == s[|s| - |t|];
    var a, b := s[..|s| - |t|], t[|r|..];
    BlankSlice(s, 0, |s| - |t|);
    assert a == s[0..|s| - |t|];
    BlankSlice(t, |r|, |t|);
    assert b == t[|r|..|t|];
    Reassemble(s, t, r);
    assert s == a + r + b && IsBlank(a) && IsBlank(b);
  }

  /** A slice whose every character is white space is blank. */
  lemma BlankSlice(s: string, a: nat, b: nat)
    requires a <= b <= |s|
    requires forall k :: a <= k < b ==> IsSpace(s[k])
    ensures IsBlank(s[a..b])
  {
    forall k | 0 <= k < b - a
      ensures IsSpace(s[a..b][k])
    {
      assert s[a..b][k] == s[a + k];
    }
  }

  /** A suffix `t` of `s` and a prefix `r` of `t` put `s` back together with the parts cut off. */
  lemma Reassemble<T>(s: seq<T>, t: seq<T>, r: seq<T>)
    requires |t| <= |s| && t == s[|s| - |t|..]
    requires |r| <= |t| && r == t[..|r|]
    ensures s == s[..|s| - |t|] + r + t[|r|..]
  {
    assert s == s[..|s| - |t|] + t;
    assert t == r + t[|r|..];
  }

  /** Trimming a trimmed string changes nothing. */
  lemma TrimIdempotent(s: string)
    ensures Trim(Trim(s)) == Trim(s)
  {
    var r := Trim(s);
    assert TrimStart(r) == r;
    assert TrimEnd(r) == r;
  }

  /** `c.toLowerCase()` for the ASCII letters; every other character is kept. */
  function LowerChar(c: char): char {
    if 'A' <= c <= 'Z' then (c as int - 'A' as int + 'a' as int) as char else c
  }

  /** `s.toLowerCase()` */
  function Lower(s: string): (r: string)
    ensures |r| == |s|
    ensures forall k :: 0 <= k < |r| ==> !('A' <= r[k] <= 'Z')
    ensures forall k :: 0 <= k < |r| ==> LowerChar(r[k]) == r[k]
    ensures forall k :: 0 <= k < |s| ==> r[k] == LowerChar(s[k])
    ensures forall k :: 0 <= k < |s| && !('A' <= s[k] <= 'Z') ==> r[k] == s[k]
  {
    seq(|s|, k requires 0 <= k < |s| => LowerChar(s[k]))
  }

  /** `s.includes(q)`: `q` occurs in `s` at some position. */
  predicate Includes(s: string, q: string)
  {
    exists i :: 0 <= i <= |s| && q <= s[i..]
  }

  /** `s.includes(q)` holds exactly when `s` splits into a part, then `q`, then a part. */
  lemma IncludesIsInfix(s: string, q: string)
    ensures Includes(s, q) <==> exists x, y :: s == x + q + y
  {
    if Includes(s, q) {
      var i :| 0 <= i <= |s| && q <= s[i..];
      var x, y := s[..i], s[i + |q|..];
      assert s == x + q + y;
    }
    if exists x, y :: s == x + q + y {
      var x, y :| s == x + q + y;
      InfixIncluded(x, q, y);
    }
  }

  /** A string built around `q` includes `q`. */
  lemma InfixIncluded(x: string, q: string, y: string)
    ensures Includes(x + q + y, q)
  {
    var s := x + q + y;
    assert s[|x|..] == q + y;
  }

  /** `s.split(sep)[0]`: the part of `s` before the first `sep`, or all of `s` when there is none. */
  function Before(s: string, sep: char): (r: string)
    ensures r <= s
    ensures sep !in r
    ensures |r| < |s| ==> s[|r|] == sep
  {
    if s == [] || s[0] == sep then [] else [s[0]] + Before(s[1..], sep)
  }

  /** The decimal digits of `n`, as `String(n)` writes them. */
  function Digits(n: nat): (r: string)
    ensures r != []
    ensures forall k :: 0 <= k < |r| ==> '0' <= r[k] <= '9'
    ensures |r| == 1 <==> n < 10
    ensures r[|r| - 1] == '0' + (n % 10) as char
  {
    var d := ['0' + (n % 10) as char];
    if n < 10 then d else Digits(n / 10) + d
  }

  /** `String(n)` for an integer `n`. */
  function IntToString(n: int): (r: string)
    ensures r != []
    ensures (r[0] == '-') <==> n < 0
    ensures n < 0 ==> r == "-" + Digits(-n)
    ensures n >= 0 ==> r == Digits(n)
    ensures n >= 0 ==> forall k :: 0 <= k < |r| ==> '0' <= r[k] <= '9'
  {
    if n < 0 then "-" + Digits(-n) else Digits(n)
  }

  /** The number a string of decimal digits denotes, read left to right (Horner's rule). */
  function DecimalValue(s: string): int
  {
    if s == [] then 0 else 10 * DecimalValue(s[..|s| - 1]) + (s[|s| - 1] as int - '0' as int)
  }

  /** `Digits(n)` denotes `n` and has no leading zero, so it is the decimal numeral of `n`. */
  lemma {:induction false} DigitsAreDecimal(n: nat)
    ensures DecimalValue(Digits(n)) == n
    ensures Digits(n)[0] == '0' ==> n == 0
  {
    if n >= 10 {
      var d := Digits(n);
      assert d[..|d| - 1] == Digits(n / 10);
      assert d[0] == Digits(n / 10)[0];
      DigitsAreDecimal(n / 10);
    }
  }

  /** Different naturals have different digit strings. */
  lemma {:induction false} DigitsInjective(a: nat, b: nat)
    requires Digits(a) == Digits(b)
    ensures a == b
  {
    if a >= 10 && b >= 10 {
      var da, db := Digits(a), Digits(b);
      assert Digits(a / 10) == da[..|da| - 1];
      assert Digits(b / 10) == db[..|db| - 1];
      DigitsInjective(a / 10, b / 10);
    }
  }

  /** Different integers are written differently by `String(n)`. */
  lemma IntToStringInjective(a: int, b: int)
    requires IntToString(a) == IntToString(b)
    ensures a == b
  {
    if a < 0 {
      assert Digits(-a) == IntToString(a)[1..];
      assert Digits(-b) == IntToString(b)[1..];
      DigitsInjective(-a, -b);
    } else {
      DigitsInjective(a, b);
    }
  }
}
