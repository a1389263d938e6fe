/**
 * The string helpers the handlers rely on: `String.prototype.trim`,
 * `parseInt`, `String(n)` and `padStart`, over `seq<char>`.
 */
module Text {
  import opened Base

  /** The whitespace `trim` and `parseInt` skip (ASCII subset). */
  predicate IsSpace(c: char) {
    c == ' ' || c == '\t' || c == '\n' || c == '\r' || c == '\U{B}' || c == '\U{C}'
  }

  /** Whether every character of `s` is whitespace (so `s.trim()` is empty). */
  predicate AllSpace(s: string) {
    forall k :: 0 <= k < |s| ==> IsSpace(s[k])
  }

  predicate IsDigit(c: char) {
    '0' <= c <= '9'
  }

  predicate AllDigits(s: string) {
    forall k :: 0 <= k < |s| ==> IsDigit(s[k])
  }

  /** The index of the first character at or after `i` that is not whitespace, or `|s|`. */
  function SkipSpace(s: string, i: nat): (n: nat)
    requires i <= |s|
    ensures i <= n <= |s|
    ensures forall k :: i <= k < n ==> IsSpace(s[k])
    ensures n < |s| ==> !IsSpace(s[n])
    decreases |s| - i
  {
    if i < |s| && IsSpace(s[i]) then SkipSpace(s, i + 1) else i
  }

  /** The index just after the last character before `j` that is not whitespace, or 0. */
  function SkipSpaceBack(s: string, j: nat): (n: nat)
    requires j <= |s|
    ensures n <= j
    ensures forall k :: n <= k < j ==> IsSpace(s[k])
    ensures n > 0 ==> !IsSpace(s[n - 1])
  {
    if j > 0 && IsSpace(s[j - 1]) then SkipSpaceBack(s, j - 1) else j
  }

  /** Drops leading whitespace. */
  function TrimStart(s: string): (r: string)
    ensures |r| <= |s| && r == s[|s| - |r|..]
    ensures forall k :: 0 <= k < |s| - |r| ==> IsSpace(s[k])
    ensures r != [] ==> !IsSpace(r[0])
  {
    s[SkipSpace(s, 0)..]
  }

  /** `s.trim()`: the characters from the first to the last that is not whitespace. */
  function Trim(s: string): (r: string)
    ensures |r| <= |s|
    ensures r != [] ==> !IsSpace(r[0]) && !IsSpace(r[|r| - 1])
    ensures r == [] <==> AllSpace(s)
  {
    var i := SkipSpace(s, 0);
    var j := SkipSpaceBack(s, |s|);
    if j <= i then [] else s[i..j]
  }

  /**
   * `trim` keeps a contiguous middle of `s`, starting where the leading
   * whitespace ends, and removes only whitespace on either side of it.
   */
  lemma TrimIsMiddle(s: string)
    ensures var i := SkipSpace(s, 0);
      && i + |Trim(s)| <= |s| && Trim(s) == s[i..i + |Trim(s)|]
      && AllSpace(s[..i]) && AllSpace(s[i + |Trim(s)|..])
  {
    var i := SkipSpace(s, 0);
    var j := SkipSpaceBack(s, |s|);
    var e := if j <= i then i else j;
    assert Trim(s) == s[i..e];
    var head := s[..i];
    assert forall k :: 0 <= k < |head| ==> head[k] == s[k];
    var tail := s[e..];
    assert forall k :: 0 <= k < |tail| ==> tail[k] == s[e + k];
  }

  /** `x?.trim() || null`: the trimmed text, or nothing when it trims to empty. */
  function TrimmedOrNull(s: string): (r: Option<string>)
    ensures r == None <==> AllSpace(s)
    ensures r.Some? ==> r.value == Trim(s) && r.value != []
  {
    var t := Trim(s);
    if t == [] then None else Some(t)
  }

  function DigitChar(d: nat): (c: char)
    requires d < 10
    ensures IsDigit(c) && c as int - '0' as int == d
  {
    ('0' as int + d) as char
  }

  function DigitValue(c: char): (d: nat)
    requires IsDigit(c)
    ensures d < 10 && DigitChar(d) == c
  {
    c as int - '0' as int
  }

  /** `String(n)` for a non-negative integer: its decimal digits, no leading zero. */
  function NatToString(n: nat): (s: string)
    ensures |s| >= 1 && AllDigits(s)
    ensures s[0] == '0' ==> n == 0
  {
    if n < 10 then [DigitChar(n)] else NatToString(n / 10) + [DigitChar(n % 10)]
  }

  /** `String(i)` for any integer: a minus sign before the digits of a negative one. */
  function IntToString(i: int): (s: string)
    ensures i >= 0 ==> s == NatToString(i)
    ensures i < 0 ==> s == "-" + NatToString(-i)
  {
    if i < 0 then "-" + NatToString(-i) else NatToString(i)
  }

  /** The number a string of decimal digits denotes (the empty string denotes 0). */
  function DigitsValue(s: string): nat
    requires AllDigits(s)
  {
    if s == [] then 0 else DigitsValue(s[..|s| - 1]) * 10 + DigitValue(s[|s| - 1])
  }

  /** Printing a natural number and reading it back gives the same number. */
  lemma {:induction false} NatToStringRoundTrip(n: nat)
    ensures DigitsValue(NatToString(n)) == n
  {
    if n >= 10 {
      var s := NatToString(n);
      assert s[..|s| - 1] == NatToString(n / 10);
      NatToStringRoundTrip(n / 10);
    }
  }

  function Repeat(c: char, k: nat): (r: string)
    ensures |r| == k && forall j :: 0 <= j < k ==> r[j] == c
  {
    if k == 0 then [] else Repeat(c, k - 1) + [c]
  }

  /** Leading zeros do not change the value of a digit string. */
  lemma {:induction false} LeadingZerosIgnored(k: nat, s: string)
    requires AllDigits(s)
    ensures AllDigits(Repeat('0', k) + s)
    ensures DigitsValue(Repeat('0', k) + s) == DigitsValue(s)
  {
    var z := Repeat('0', k) + s;
    if s == [] {
      assert z == Repeat('0', k);
      if k > 0 {
        assert z[..|z| - 1] == Repeat('0', k - 1) + [];
        LeadingZerosIgnored(k - 1, []);
      }
    } else {
      assert z[..|z| - 1] == Repeat('0', k) + s[..|s| - 1];
      LeadingZerosIgnored(k, s[..|s| - 1]);
    }
  }

  /** `s.padStart(width, c)`: `s` preceded by enough copies of `c` to reach `width`. */
  function PadStart(s: string, width: nat, c: char): (r: string)
    ensures |r| == if |s| >= width then |s| else width
    ensures r == Repeat(c, |r| - |s|) + s
  {
    if |s| >= width then (assert Repeat(c, 0) + s == s; s) else Repeat(c, width - |s|) + s
  }

  /** The longest prefix of `s` made of digits. */
  function LeadingDigits(s: string): (r: string)
    ensures AllDigits(r) && r <= s
    ensures |r| < |s| ==> !IsDigit(s[|r|])
  {
    if s != [] && IsDigit(s[0]) then [s[0]] + LeadingDigits(s[1..]) else []
  }

  /** A string that is all digits is its own leading-digit prefix. */
  lemma {:induction false} LeadingDigitsOfDigits(s: string)
    requires AllDigits(s)
    ensures LeadingDigits(s) == s
  {
    if s != [] {
      LeadingDigitsOfDigits(s[1..]);
    }
  }

  /**
   * `parseInt(s)` (base 10): skip leading whitespace, take an optional sign and
   * the digits that follow; `None` stands for `NaN` (no digit there).
   */
  function ParseInt(s: string): (r: Option<int>)
    ensures r.None? <==> LeadingDigits(
      var t := TrimStart(s); if t != [] && (t[0] == '-' || t[0] == '+') then t[1..] else t) == []
  {
    var t := TrimStart(s);
    var signed := t != [] && (t[0] == '-' || t[0] == '+');
    var d := LeadingDigits(if signed then t[1..] else t);
    var v: int := DigitsValue(d);
    if d == [] then None else if signed && t[0] == '-' then Some(-v) else Some(v)
  }

  /** `parseInt` of a non-empty run of digits is the value of those digits, leading zeros included. */
  lemma ParseIntOfDigits(s: string)
    requires s != [] && AllDigits(s)
    ensures ParseInt(s) == Some(DigitsValue(s))
  {
    var t := TrimStart(s);
    assert t == s by {
      assert !IsSpace(s[0]);
    }
    assert IsDigit(t[0]);
    assert !(t != [] && (t[0] == '-' || t[0] == '+'));
    LeadingDigitsOfDigits(s);
  }

  /** `parseInt` of a printed natural number gives that number back. */
  lemma ParseIntOfNat(n: nat)
    ensures ParseInt(NatToString(n)) == Some(n)
  {
    ParseIntOfDigits(NatToString(n));
    NatToStringRoundTrip(n);
  }

  /** Leading whitespace is skipped up to the first other character. */
  lemma TrimStartSkips(w: string, x: string)
    requires AllSpace(w) && x != [] && !IsSpace(x[0])
    ensures TrimStart(w + x) == x
  {
    assert (w + x)[|w|] == x[0];
    assert forall k :: 0 <= k < |w| ==> (w + x)[k] == w[k];
    assert SkipSpace(w + x, 0) == |w|;
    assert (w + x)[|w|..] == x;
  }

  /** The leading digits stop at the first character that is not a digit. */
  lemma {:induction false} LeadingDigitsStop(d: string, rest: string)
    requires AllDigits(d) && (rest == [] || !IsDigit(rest[0]))
    ensures LeadingDigits(d + rest) == d
  {
    if d == [] {
      assert d + rest == rest;
    } else {
      assert (d + rest)[1..] == d[1..] + rest;
      LeadingDigitsStop(d[1..], rest);
    }
  }

  /**
   * `parseInt` reads whitespace and a run of digits, and ignores whatever
   * follows the digits.
   */
  lemma ParseIntUnsigned(w: string, d: string, rest: string)
    requires AllSpace(w)
    requires d != [] && AllDigits(d)
    requires rest == [] || !IsDigit(rest[0])
    ensures ParseInt(w + d + rest) == Some(DigitsValue(d))
  {
    var x := d + rest;
    assert w + d + rest == w + x;
    assert x[0] == d[0];
    TrimStartSkips(w, x);
    LeadingDigitsStop(d, rest);
    var t := TrimStart(w + x);
    assert t == x;
    assert IsDigit(t[0]);
    assert !(t != [] && (t[0] == '-' || t[0] == '+'));
    assert LeadingDigits(t) == d;
  }

  /** `parseInt` of a string whose trimmed form starts with a minus sign and digits. */
  lemma ParseIntNegative(s: string, d: string)
    requires TrimStart(s) != [] && TrimStart(s)[0] == '-'
    requires d != [] && LeadingDigits(TrimStart(s)[1..]) == d
    ensures ParseInt(s) == Some(-(DigitsValue(d) as int))
  {
  }

  /**
   * `parseInt` reads whitespace, a sign and a run of digits, and ignores
   * whatever follows the digits; a minus sign negates the value.
   */
  lemma ParseIntSigned(w: string, sign: char, d: string, rest: string)
    requires AllSpace(w)
    requires sign == '-' || sign == '+'
    requires d != [] && AllDigits(d)
    requires rest == [] || !IsDigit(rest[0])
    ensures ParseInt(w + [sign] + d + rest) == Some(if sign == '-' then -(DigitsValue(d) as int) else DigitsValue(d))
  {
    var x := [sign] + (d + rest);
    assert w + [sign] + d + rest == w + x;
    TrimStartSkips(w, x);
    LeadingDigitsStop(d, rest);
    var t := TrimStart(w + x);
    assert t == x;
    assert t[1..] == d + rest;
    if sign == '-' {
      ParseIntNegative(w + x, d);
    } else {
      assert t[0] == '+';
      assert LeadingDigits(t[1..]) == d;
    }
  }
}
