/**
 * The few JavaScript string primitives the report pipeline relies on, stated
 * over `seq<char>`: `||` on a possibly missing string, `\d`, `endsWith`,
 * `trim`, `split('\n')[0]`, a one-character global `replace`, and the decimal
 * text of a non-negative integer in a template literal.
 */
module JsString {
  import opened Wrappers

  /** `v || d` for a string field that may be missing: both a missing value and "" are falsy. */
  function OrDefault(v: Option<string>, d: string): (r: string)
    ensures v.Some? && v.value != "" ==> r == v.value
    ensures v.None? || v.value == "" ==> r == d
  {
    if v.Some? && v.value != "" then v.value else d
  }

  /** The class `\d` of a non-Unicode JavaScript regular expression: ASCII digits only. */
  predicate IsDigit(c: char) {
    '0' <= c <= '9'
  }

  predicate AllDigits(s: string) {
    forall k :: 0 <= k < |s| ==> IsDigit(s[k])
  }

  /** `s.endsWith(suffix)` */
  predicate EndsWith(s: string, suffix: string) {
    |suffix| <= |s| && s[|s| - |suffix|..] == suffix
  }

  /**
   * The characters `String.prototype.trim` removes: the WhiteSpace and
   * LineTerminator productions of ECMA-262 (tab, vertical tab, form feed,
   * space, no-break space, byte order mark, the Zs category, LF, CR, LS, PS).
   */
  predicate IsWhitespace(c: char) {
    || c == '\t' || c == '\U{B}' || c == '\U{C}' || c == ' '
    || c == '\U{A0}' || c == '\U{FEFF}' || c == '\U{1680}'
    || ('\U{2000}' <= c <= '\U{200A}')
    || c == '\U{202F}' || c == '\U{205F}' || c == '\U{3000}'
    || c == '\n' || c == '\r' || c == '\U{2028}' || c == '\U{2029}'
  }

  predicate AllWhitespace(s: string) {
    forall k :: 0 <= k < |s| ==> IsWhitespace(s[k])
  }

  /** Neither the first nor the last character is whitespace. */
  predicate Trimmed(s: string) {
    s == [] || (!IsWhitespace(s[0]) && !IsWhitespace(s[|s| - 1]))
  }

  /** Length of the longest all-whitespace prefix. */
  function LeadingWhitespace(s: string): (n: nat)
    ensures n <= |s|
    ensures AllWhitespace(s[..n])
    ensures n == |s| || !IsWhitespace(s[n])
  {
    if s != [] && IsWhitespace(s[0]) then
      var n := 1 + LeadingWhitespace(s[1..]);
      assert s[..n] == [s[0]] + s[1..][..n - 1];
      n
    else
      0
  }

  /** Length of the longest all-whitespace suffix. */
  function TrailingWhitespace(s: string): (n: nat)
    ensures n <= |s|
    ensures AllWhitespace(s[|s| - n..])
    ensures n == |s| || !IsWhitespace(s[|s| - n - 1])
  {
    if s != [] && IsWhitespace(s[|s| - 1]) then
      var init := s[..|s| - 1];
      var m := TrailingWhitespace(init);
      assert forall k :: |s| - 1 - m <= k < |s| - 1 ==> s[k] == init[k];
      1 + m
    else
      0
  }

  /**
   * `s.trim()`: the result is the part of `s` left after removing an
   * all-whitespace prefix and an all-whitespace suffix, and it neither starts
   * nor ends with whitespace, so what is removed is as long as possible.
   */
  function Trim(s: string): (r: string)
    ensures Trimmed(r)
    ensures var i := LeadingWhitespace(s);
      && i + |r| <= |s|
      && r == s[i..i + |r|]
      && AllWhitespace(s[..i])
      && AllWhitespace(s[i + |r|..])
  {
    var i := LeadingWhitespace(s);
    var j := TrailingWhitespace(s[i..]);
    TrimmedMiddle(s, i, j);
    s[i..|s| - j]
  }

  /** What is left between the leading and the trailing whitespace neither starts nor ends with whitespace. */
  lemma TrimmedMiddle(s: string, i: nat, j: nat)
    requires i <= |s| && (i == |s| || !IsWhitespace(s[i]))
    requires j <= |s| - i && AllWhitespace(s[i..][|s| - i - j..])
    requires j == |s| - i || !IsWhitespace(s[i..][|s| - i - j - 1])
    ensures Trimmed(s[i..|s| - j]) && AllWhitespace(s[|s| - j..])
  {
    assert s[|s| - j..] == s[i..][|s| - i - j..];
    var r := s[i..|s| - j];
    if r != [] {
      assert r[0] == s[i];
      assert r[|r| - 1] == s[i..][|s| - i - j - 1];
    }
  }

  lemma TrimKeepsTrimmed(s: string)
    requires Trimmed(s)
    ensures Trim(s) == s
  {
    assert LeadingWhitespace(s) == 0;
    assert TrailingWhitespace(s) == 0;
  }

  /** `s.split('\n')[0]`: everything before the first line feed, or all of `s` if there is none. */
  function FirstLine(s: string): (r: string)
    ensures |r| <= |s| && r == s[..|r|]
    ensures '\n' !in r
    ensures |r| == |s| || s[|r|] == '\n'
  {
    if s == [] || s[0] == '\n' then [] else [s[0]] + FirstLine(s[1..])
  }

  lemma FirstLineOfSingleLine(s: string)
    requires '\n' !in s
    ensures FirstLine(s) == s
  {
  }

  /** The first line ends at the first line feed, whatever follows it. */
  lemma {:induction false} FirstLineStopsAtBreak(first: string, rest: string)
    requires '\n' !in first
    ensures FirstLine(first + ['\n'] + rest) == first
  {
    if first != [] {
      assert (first + ['\n'] + rest)[1..] == first[1..] + ['\n'] + rest;
      FirstLineStopsAtBreak(first[1..], rest);
      assert first == [first[0]] + first[1..];
    }
  }

  /** `s.replace(/x/g, y)` for a one-character pattern `x`. */
  function ReplaceAll(s: string, x: char, y: char): (r: string)
    ensures |r| == |s|
    ensures forall k :: 0 <= k < |s| ==> r[k] == (if s[k] == x then y else s[k])
  {
    if s == [] then [] else [if s[0] == x then y else s[0]] + ReplaceAll(s[1..], x, y)
  }

  /** The number a string of decimal digits denotes. */
  function DecimalValue(s: string): nat
    requires AllDigits(s)
  {
    if s == [] then 0 else 10 * DecimalValue(s[..|s| - 1]) + (s[|s| - 1] as int - '0' as int)
  }

  /**
   * The text of a non-negative integer in a template literal (`${n}`): its
   * decimal digits, without leading zeros, denoting `n`.
   */
  function NatToString(n: nat): (r: string)
    ensures r != [] && AllDigits(r)
    ensures r[0] == '0' ==> r == "0"
    ensures DecimalValue(r) == n
  {
    var d := [(n % 10 + '0' as int) as char];
    if n < 10 then d else
      var r := NatToString(n / 10) + d;
      assert r[..|r| - 1] == NatToString(n / 10);
      r
  }

  lemma NatToStringInjective(m: nat, n: nat)
    requires NatToString(m) == NatToString(n)
    ensures m == n
  {
    assert DecimalValue(NatToString(m)) == m;
  }

  /** Length of the longest all-digit prefix. */
  function LeadingDigits(s: string): nat {
    if s != [] && IsDigit(s[0]) then 1 + LeadingDigits(s[1..]) else 0
  }

  /** Digits followed by a non-digit: the digit prefix is exactly the digits. */
  lemma {:induction false} LeadingDigitsOf(x: string, r: string)
    requires AllDigits(x)
    requires r == [] || !IsDigit(r[0])
    ensures LeadingDigits(x + r) == |x|
  {
    if x != [] {
      assert (x + r)[1..] == x[1..] + r;
      LeadingDigitsOf(x[1..], r);
    } else {
      assert x + r == r;
    }
  }

  /**
   * A digit string followed by text that does not start with a digit can be
   * read back: the digit string and the rest are determined by the whole.
   */
  lemma DigitRunIsDetermined(x: string, r: string, y: string, t: string)
    requires AllDigits(x) && AllDigits(y)
    requires r == [] || !IsDigit(r[0])
    requires t == [] || !IsDigit(t[0])
    requires x + r == y + t
    ensures x == y && r == t
  {
    LeadingDigitsOf(x, r);
    LeadingDigitsOf(y, t);
    assert x == (x + r)[..|x|] && y == (y + t)[..|y|];
    assert r == (x + r)[|x|..] && t == (y + t)[|y|..];
  }

  /** The combined length of some strings. */
  function TotalLength(parts: seq<string>): nat {
    if parts == [] then 0 else |parts[0]| + TotalLength(parts[1..])
  }

  /** `parts.join(sep)`: the parts in order, with one separator between each two. */
  function Join(parts: seq<string>, sep: string): string {
    if |parts| == 0 then ""
    else if |parts| == 1 then parts[0]
    else parts[0] + sep + Join(parts[1..], sep)
  }

  /**
   * A join starts with the first part, and its length is the parts' lengths
   * plus one separator fewer than there are parts.
   */
  lemma {:induction false} JoinShape(parts: seq<string>, sep: string)
    requires parts != []
    ensures parts[0] <= Join(parts, sep)
    ensures |Join(parts, sep)| == TotalLength(parts) + (|parts| - 1) * |sep|
  {
    if |parts| > 1 {
      JoinShape(parts[1..], sep);
    }
  }
}
