/**
 * The few JavaScript string operations the pages rely on, written out:
 * `trim`, `toLowerCase`, `includes`, `parseInt` and the decimal rendering
 * of a non-negative integer inside a template literal.
 */
module Text {
  import opened Ui

  /** ECMAScript WhiteSpace and LineTerminator code points: what `trim` strips and `parseInt` skips. */
  predicate IsWhitespace(c: char)
  {
    || c == '\t' || c == '\n' || c == '\U{B}' || c == '\U{C}' || c == '\r' || c == ' '
    || c == '\U{A0}' || c == '\U{1680}' || ('\U{2000}' <= c <= '\U{200A}')
    || c == '\U{2028}' || c == '\U{2029}' || c == '\U{202F}' || c == '\U{205F}'
    || c == '\U{3000}' || c == '\U{FEFF}'
  }

  /** Nothing but white space in s (the empty string included). */
  predicate IsBlank(s: string)
  {
    forall i :: 0 <= i < |s| ==> IsWhitespace(s[i])
  }

  /** `s.trimStart()`: the suffix of s left after its leading white space. */
  function TrimStart(s: string): (r: string)
    ensures |r| <= |s| && r == s[|s| - |r|..]
    ensures IsBlank(s[..|s| - |r|])
    ensures r != [] ==> !IsWhitespace(r[0])
  {
    if s != [] && IsWhitespace(s[0]) then
      var r := TrimStart(s[1..]);
      assert s[..|s| - |r|] == [s[0]] + s[1..][..|s| - 1 - |r|];
      r
    else
      s
  }

  /** `s.trimEnd()`: the prefix of s left before its trailing white space. */
  function TrimEnd(s: string): (r: string)
    ensures |r| <= |s| && r == s[..|r|]
    ensures IsBlank(s[|r|..])
    ensures r != [] ==> !IsWhitespace(r[|r| - 1])
  {
    if s != [] && IsWhitespace(s[|s| - 1]) then
      var r := TrimEnd(s[..|s| - 1]);
      assert s[|r|..] == s[..|s| - 1][|r|..] + [s[|s| - 1]];
      r
    else
      s
  }

  /**
   * `s.trim()`. It is empty exactly when s is blank, which is the test
   * `!s.trim()` the comment, reply and invite-code handlers make.
   */
  function Trim(s: string): (r: string)
    ensures r == [] <==> IsBlank(s)
    ensures r != [] ==> !IsWhitespace(r[0]) && !IsWhitespace(r[|r| - 1])
  {
    var t := TrimStart(s);
    var r := TrimEnd(t);
    var k := |s| - |t|;
    if r == [] then
      assert IsBlank(t) by { assert t[|r|..] == t; }
      assert IsBlank(s) by {
        forall i | 0 <= i < |s|
          ensures IsWhitespace(s[i])
        {
          if i < k { assert s[..k][i] == s[i]; } else { assert t[i - k] == s[i]; }
        }
      }
      r
    else
      assert r[0] == t[0] && s[k] == t[0];
      r
  }

  /** Lower-cases the ASCII letters A to Z; every other character is kept. */
  function LowerChar(c: char): char
  {
    if 'A' <= c <= 'Z' then (c as int + 32) as char else c
  }

  /** `s.toLowerCase()`, as far as LowerChar goes. */
  function ToLower(s: string): (r: string)
    ensures |r| == |s|
    ensures forall i :: 0 <= i < |r| ==> !('A' <= r[i] <= 'Z')
    ensures forall i :: 0 <= i < |s| && !('A' <= s[i] <= 'Z') ==> r[i] == s[i]
    ensures forall i :: 0 <= i < |s| && 'A' <= s[i] <= 'Z' ==> r[i] as int == s[i] as int + 32
  {
    seq(|s|, i requires 0 <= i < |s| => LowerChar(s[i]))
  }

  /** Lower-casing twice is lower-casing once. */
  lemma ToLowerIdempotent(s: string)
    ensures ToLower(ToLower(s)) == ToLower(s)
  {
  }

  /** sub occurs in s starting at index k. */
  ghost predicate OccursAt(s: string, sub: string, k: int)
  {
    0 <= k <= |s| - |sub| && s[k..k + |sub|] == sub
  }

  /** The empty string occurs in every string, so `s.includes("")` holds. */
  lemma ContainsEmpty(s: string)
    ensures Contains(s, "")
  {
    assert OccursAt(s, "", 0);
  }

  lemma ShiftOccurrence(s: string, sub: string)
    requires |sub| <= |s| && s[..|sub|] != sub
    ensures (exists k :: OccursAt(s, sub, k)) <==> (exists k :: OccursAt(s[1..], sub, k))
  {
    if k :| OccursAt(s, sub, k) {
      assert k != 0;
      assert s[1..][k - 1..k - 1 + |sub|] == s[k..k + |sub|];
      assert OccursAt(s[1..], sub, k - 1);
    }
    if k :| OccursAt(s[1..], sub, k) {
      assert s[1..][k..k + |sub|] == s[k + 1..k + 1 + |sub|];
      assert OccursAt(s, sub, k + 1);
    }
  }

  /** `s.includes(sub)`: sub occurs somewhere in s. */
  function Contains(s: string, sub: string): (r: bool)
    ensures r <==> exists k :: OccursAt(s, sub, k)
    decreases |s|
  {
    if |sub| > |s| then
      false
    else if s[..|sub|] == sub then
      assert OccursAt(s, sub, 0);
      true
    else
      ShiftOccurrence(s, sub);
      Contains(s[1..], sub)
  }

  /** The value of c as a digit in base `radix` (10, or 16 after a `0x` prefix). */
  function DigitValue(c: char, radix: nat): Option<nat>
  {
    if '0' <= c <= '9' then Some(c as int - '0' as int)
    else if radix == 16 && 'a' <= c <= 'f' then Some(c as int - 'a' as int + 10)
    else if radix == 16 && 'A' <= c <= 'F' then Some(c as int - 'A' as int + 10)
    else None
  }

  /** Every character of s is a base-`radix` digit. */
  predicate AllDigits(s: string, radix: nat)
  {
    forall i :: 0 <= i < |s| ==> DigitValue(s[i], radix).Some?
  }

  /** The length of the longest prefix of s made of base-`radix` digits. */
  function DigitPrefixLength(s: string, radix: nat): (n: nat)
    ensures n <= |s| && AllDigits(s[..n], radix)
    ensures n < |s| ==> DigitValue(s[n], radix).None?
  {
    if s != [] && DigitValue(s[0], radix).Some? then
      var n := 1 + DigitPrefixLength(s[1..], radix);
      assert s[..n] == [s[0]] + s[1..][..n - 1];
      n
    else
      0
  }

  /** The value of a digit string, most significant digit first. */
  function DigitsValue(s: string, radix: nat): nat
    requires AllDigits(s, radix)
  {
    if s == [] then 0
    else DigitsValue(s[..|s| - 1], radix) * radix + DigitValue(s[|s| - 1], radix).value
  }

  /**
   * The unsigned part of `parseInt`: a `0x`/`0X` prefix switches to base 16,
   * and the longest run of digits that follows is read; None when there is
   * no digit at all.
   */
  function ParseMagnitude(u: string): Option<nat>
  {
    var hex := |u| >= 2 && u[0] == '0' && (u[1] == 'x' || u[1] == 'X');
    var radix := if hex then 16 else 10;
    var digits := if hex then u[2..] else u;
    var n := DigitPrefixLength(digits, radix);
    if n == 0 then None else Some(DigitsValue(digits[..n], radix))
  }

  /**
   * `parseInt(s)` without a radix argument: leading white space is skipped
   * and one sign is taken before the magnitude. None stands for NaN.
   */
  function ParseInt(s: string): Option<int>
  {
    var t := TrimStart(s);
    var sign := if t != [] && t[0] == '-' then -1 else 1;
    var u := if t != [] && (t[0] == '-' || t[0] == '+') then t[1..] else t;
    match ParseMagnitude(u)
    case None => None
    case Some(v) => Some(sign * v)
  }

  /** The character of a decimal digit. */
  function DigitChar(d: nat): (c: char)
    requires d < 10
    ensures DigitValue(c, 10) == Some(d)
  {
    ('0' as int + d) as char
  }

  /** `${n}` for a non-negative integer: its decimal digits, without leading zeros. */
  function NatToString(n: nat): (r: string)
    ensures r != [] && AllDigits(r, 10)
    ensures r[0] == '0' ==> n == 0
  {
    if n < 10 then [DigitChar(n)] else NatToString(n / 10) + [DigitChar(n % 10)]
  }

  lemma {:induction false} DigitsValueOfNatToString(n: nat)
    ensures DigitsValue(NatToString(n), 10) == n
  {
    if n >= 10 {
      var s := NatToString(n);
      assert s[..|s| - 1] == NatToString(n / 10);
      DigitsValueOfNatToString(n / 10);
    }
  }

  /** Nothing is trimmed from a string that does not start with white space. */
  lemma TrimStartKeeps(s: string)
    requires s != [] && !IsWhitespace(s[0])
    ensures TrimStart(s) == s
  {
  }

  /** The digit run is exactly the first m characters when s[m] ends it. */
  lemma DigitPrefixLengthIs(s: string, radix: nat, m: nat)
    requires m <= |s| && AllDigits(s[..m], radix)
    requires m < |s| ==> DigitValue(s[m], radix).None?
    ensures DigitPrefixLength(s, radix) == m
  {
  }

  /** A string that starts with neither white space, a sign nor a digit parses to NaN. */
  lemma ParseIntNoDigits(s: string)
    requires s != [] && !IsWhitespace(s[0]) && s[0] != '-' && s[0] != '+' && DigitValue(s[0], 10).None?
    ensures ParseInt(s).None?
  {
    TrimStartKeeps(s);
  }

  /** A string that starts with a run of m decimal digits, not read as a `0x` prefix, parses to their value. */
  lemma ParseIntOfDecimal(s: string, m: nat)
    requires 0 < m <= |s| && AllDigits(s[..m], 10)
    requires m < |s| ==> DigitValue(s[m], 10).None?
    requires !(|s| >= 2 && s[0] == '0' && (s[1] == 'x' || s[1] == 'X'))
    ensures ParseInt(s) == Some(DigitsValue(s[..m], 10))
  {
    assert s[..m][0] == s[0];
    TrimStartKeeps(s);
    DigitPrefixLengthIs(s, 10, m);
  }

  /**
   * Reading back a rendered count: `parseInt` of the decimal rendering of n,
   * followed by any text that does not continue the number, gives n again.
   */
  lemma ParseIntOfRendered(n: nat, suffix: string)
    requires suffix == [] || (DigitValue(suffix[0], 10).None? && suffix[0] != 'x' && suffix[0] != 'X')
    ensures ParseInt(NatToString(n) + suffix) == Some(n)
  {
    var d := NatToString(n);
    var s := d + suffix;
    assert s[..|d|] == d;
    assert |d| < |s| ==> s[|d|] == suffix[0];
    assert !(|s| >= 2 && s[0] == '0' && (s[1] == 'x' || s[1] == 'X')) by {
      if |s| >= 2 && s[0] == '0' {
        assert |d| == 1;
        assert s[1] == suffix[0];
      }
    }
    ParseIntOfDecimal(s, |d|);
    DigitsValueOfNatToString(n);
  }
}
