/**
 * Cleaning of assertion-error text, as the reporter does it. The converter
 * has a copy of the same chain that nothing calls; it is guarded, so a
 * missing or empty message gives `undefined`. The cleaning is the global
 * replacement of ANSI colour (SGR, final `m`) and erase-in-line (EL, final
 * `K`) sequences matched by
 *   introducer ESC or CSI, '[', one or two digits, optionally ';' and one or
 *   two digits, then 'm' or 'K'
 * followed by keeping the first line and trimming.
 */
module ErrorText {
  import opened Wrappers
  import opened JsString

  const ESC: char := '\U{1B}'
  const CSI: char := '\U{9B}'

  predicate IsIntroducer(c: char) {
    c == ESC || c == CSI
  }

  predicate IsFinal(c: char) {
    c == 'm' || c == 'K'
  }

  /** `\d{1,2}` */
  predicate IsNumber(t: string) {
    (|t| == 1 || |t| == 2) && AllDigits(t)
  }

  /** `\d{1,2}(;\d{1,2})?`, with the separator at index 1 or 2. */
  predicate IsParameters(t: string) {
    || IsNumber(t)
    || (|t| >= 3 && t[1] == ';' && IsNumber(t[..1]) && IsNumber(t[2..]))
    || (|t| >= 4 && t[2] == ';' && IsNumber(t[..2]) && IsNumber(t[3..]))
  }

  /** A whole string that the pattern matches. */
  predicate IsEscapeSequence(t: string) {
    && |t| >= 4
    && IsIntroducer(t[0])
    && t[1] == '['
    && IsFinal(t[|t| - 1])
    && IsParameters(t[2..|t| - 1])
  }

  /** How many digits (at most two) `\d{1,2}` takes greedily at index `i`. */
  function DigitsAt(s: string, i: nat): (n: nat)
    requires i <= |s|
    ensures n <= 2 && i + n <= |s|
    ensures AllDigits(s[i..i + n])
    ensures n == 1 ==> i + 1 == |s| || !IsDigit(s[i + 1])
    ensures n == 0 ==> i >= |s| || !IsDigit(s[i])
  {
    if i < |s| && IsDigit(s[i]) then
      if i + 1 < |s| && IsDigit(s[i + 1]) then 2 else 1
    else 0
  }

  /**
   * The length of the match of the pattern at the start of `s`, if any. The
   * regular-expression engine backtracks, but a shorter digit run is always
   * followed by a digit, which neither ';' nor the final letter accepts, so
   * the greedy choice is the only one that can succeed and the match is the
   * unique prefix of `s` that is an escape sequence.
   */
  function MatchAt(s: string): (r: Option<nat>)
    ensures r.Some? ==> 4 <= r.value <= |s| && IsEscapeSequence(s[..r.value])
  {
    if |s| < 2 || !IsIntroducer(s[0]) || s[1] != '[' then None
    else
      var n := DigitsAt(s, 2);
      var j := 2 + n;
      if n == 0 || j >= |s| then None
      else if IsFinal(s[j]) then
        PlainIsEscapeSequence(s, n);
        Some(j + 1)
      else if s[j] == ';' then
        var m := DigitsAt(s, j + 1);
        var k := j + 1 + m;
        if m > 0 && k < |s| && IsFinal(s[k]) then
          SeparatedIsEscapeSequence(s, n, m);
          Some(k + 1)
        else
          None
      else
        None
  }

  /** The scan finds a match of length `p` exactly when the first `p` characters are an escape sequence. */
  lemma MatchAtFindsEscapeSequence(s: string, p: nat)
    requires p <= |s|
    ensures MatchAt(s) == Some(p) <==> IsEscapeSequence(s[..p])
  {
    if IsEscapeSequence(s[..p]) {
      EscapeSequenceShape(s);
    }
  }

  /** Every prefix of `s` that is an escape sequence is the one the greedy scan finds. */
  lemma EscapeSequenceShape(s: string)
    ensures forall p :: 0 <= p <= |s| && IsEscapeSequence(s[..p]) ==>
      var n := DigitsAt(s, 2);
      && n > 0 && 2 + n < |s|
      && ((IsFinal(s[2 + n]) && p == n + 3)
          || (s[2 + n] == ';'
              && var m := DigitsAt(s, 3 + n);
              m > 0 && 3 + n + m < |s| && IsFinal(s[3 + n + m]) && p == n + m + 4))
  {
    forall p | 0 <= p <= |s| && IsEscapeSequence(s[..p])
      ensures var n := DigitsAt(s, 2);
      && n > 0 && 2 + n < |s|
      && ((IsFinal(s[2 + n]) && p == n + 3)
          || (s[2 + n] == ';'
              && var m := DigitsAt(s, 3 + n);
              m > 0 && 3 + n + m < |s| && IsFinal(s[3 + n + m]) && p == n + m + 4))
    {
      var u := s[..p][2..p - 1];
      assert forall k :: 0 <= k < |u| ==> u[k] == s[k + 2];
      assert IsFinal(s[p - 1]);
      if IsNumber(u) {
        assert u[0] == s[2] && IsDigit(u[0]);
        if |u| == 2 { assert u[1] == s[3] && IsDigit(u[1]); }
      } else if |u| >= 3 && u[1] == ';' && IsNumber(u[..1]) && IsNumber(u[2..]) {
        assert u[..1][0] == s[2] && s[3] == ';';
        assert u[2..][0] == s[4];
        if |u| == 4 { assert u[2..][1] == s[5]; }
      } else {
        assert |u| >= 4 && u[2] == ';' && IsNumber(u[..2]) && IsNumber(u[3..]);
        assert u[..2][0] == s[2] && u[..2][1] == s[3] && s[4] == ';';
        assert u[3..][0] == s[5];
        if |u| == 5 { assert u[3..][1] == s[6]; }
      }
    }
  }

  lemma PlainIsEscapeSequence(s: string, n: nat)
    requires |s| >= 2 && IsIntroducer(s[0]) && s[1] == '['
    requires 2 <= |s| && n == DigitsAt(s, 2) && n > 0 && 2 + n < |s| && IsFinal(s[2 + n])
    ensures IsEscapeSequence(s[..n + 3])
  {
    assert s[..n + 3][2..n + 2] == s[2..2 + n];
  }

  lemma SeparatedIsEscapeSequence(s: string, n: nat, m: nat)
    requires |s| >= 2 && IsIntroducer(s[0]) && s[1] == '['
    requires n == DigitsAt(s, 2) && n > 0 && 2 + n < |s| && s[2 + n] == ';'
    requires m == DigitsAt(s, 3 + n) && m > 0 && 3 + n + m < |s| && IsFinal(s[3 + n + m])
    ensures IsEscapeSequence(s[..n + m + 4])
  {
    var t := s[..n + m + 4][2..n + m + 3];
    assert forall k :: 0 <= k < |t| ==> t[k] == s[k + 2];
    assert t[..n] == s[2..2 + n];
    assert t[n + 1..] == s[3 + n..3 + n + m];
  }

  /**
   * `s.replace(/[\u001b\u009b]\[\d{1,2}(;\d{1,2})?(m|K)/g, '')`: scanning
   * left to right, each match is dropped and scanning resumes after it;
   * every other character is kept.
   */
  function StripAnsi(s: string): (r: string)
    ensures |r| <= |s|
    ensures multiset(r) <= multiset(s)
    decreases |s|
  {
    if s == [] then []
    else match MatchAt(s)
      case Some(n) =>
        var r := StripAnsi(s[n..]);
        assert s == s[..n] + s[n..];
        r
      case None =>
        var r := [s[0]] + StripAnsi(s[1..]);
        assert s == [s[0]] + s[1..];
        r
  }

  /** No character of `s` can start an escape sequence. */
  predicate NoIntroducer(s: string) {
    forall k :: 0 <= k < |s| ==> !IsIntroducer(s[k])
  }

  /** Text in which the pattern matches nowhere is left as it is. */
  lemma {:induction false} StripAnsiWithoutMatch(s: string)
    requires forall i :: 0 <= i < |s| ==> MatchAt(s[i..]).None?
    ensures StripAnsi(s) == s
  {
    if s != [] {
      assert s[0..] == s;
      forall i | 0 <= i < |s| - 1
        ensures MatchAt(s[1..][i..]).None?
      {
        assert s[1..][i..] == s[i + 1..];
      }
      StripAnsiWithoutMatch(s[1..]);
    }
  }

  /** An introducer not followed by '[' starts no escape sequence and is kept. */
  lemma StripAnsiKeepsUnbracketed(s: string)
    requires |s| >= 2 && s[1] != '['
    ensures StripAnsi(s) == [s[0]] + StripAnsi(s[1..])
  {
    assert MatchAt(s).None?;
  }

  /** A character that cannot start an escape sequence is kept. */
  lemma StripAnsiKeepsPlainHead(s: string)
    requires s != [] && !IsIntroducer(s[0])
    ensures StripAnsi(s) == [s[0]] + StripAnsi(s[1..])
  {
    assert MatchAt(s).None?;
  }

  /** A prefix without introducers passes through unchanged, whatever follows it. */
  lemma {:induction false} StripAnsiKeepsPlainPrefix(a: string, b: string)
    requires NoIntroducer(a)
    ensures StripAnsi(a + b) == a + StripAnsi(b)
  {
    if a != [] {
      var s := a + b;
      assert s[0] == a[0] && s[1..] == a[1..] + b;
      StripAnsiKeepsPlainHead(s);
      StripAnsiKeepsPlainPrefix(a[1..], b);
      assert [a[0]] + (a[1..] + StripAnsi(b)) == ([a[0]] + a[1..]) + StripAnsi(b);
      assert a == [a[0]] + a[1..];
    } else {
      assert a + b == b;
    }
  }

  /** A leading escape sequence is removed as a whole. */
  lemma StripAnsiDropsSequence(e: string, s: string)
    requires IsEscapeSequence(e)
    ensures StripAnsi(e + s) == StripAnsi(s)
  {
    assert (e + s)[..|e|] == e;
    MatchAtFindsEscapeSequence(e + s, |e|);
    assert (e + s)[|e|..] == s;
  }

  /** Colouring plain text with an opening and a closing sequence is undone exactly. */
  lemma StripAnsiUndoesColouring(open: string, t: string, close: string)
    requires IsEscapeSequence(open) && IsEscapeSequence(close)
    requires NoIntroducer(t)
    ensures StripAnsi(open + t + close) == t
  {
    StripAnsiDropsSequence(open, t + close);
    assert open + t + close == open + (t + close);
    StripAnsiKeepsPlainPrefix(t, close);
    StripAnsiDropsSequence(close, []);
    assert close + [] == close;
  }

  /**
   * One left-to-right pass is not a closure: in ESC followed by a whole
   * sequence and then a copy of that sequence without its introducer, the
   * inner sequence is removed and the first ESC is spliced onto the copy.
   */
  lemma {:induction false} StripAnsiSplicesNewSequence(e: string)
    requires IsEscapeSequence(e) && NoIntroducer(e[1..])
    ensures StripAnsi([e[0]] + e + e[1..]) == e
    ensures StripAnsi(e) == []
  {
    StripAnsiSkipsLoneIntroducer(e);
    StripAnsiDropsSequence(e, e[1..]);
    StripAnsiOfPlain(e[1..]);
    assert e == [e[0]] + e[1..];
    StripAnsiDropsSequence(e, []);
    assert e + [] == e;
  }

  /** The introducer put in front of an escape sequence is followed by another introducer, not '[', so it is kept. */
  lemma StripAnsiSkipsLoneIntroducer(e: string)
    requires IsEscapeSequence(e)
    ensures StripAnsi([e[0]] + e + e[1..]) == [e[0]] + StripAnsi(e + e[1..])
  {
    var s := [e[0]] + e + e[1..];
    assert s[1] == e[0] && s[1..] == e + e[1..];
    StripAnsiKeepsUnbracketed(s);
  }

  /** Text without introducers is left as it is. */
  lemma StripAnsiOfPlain(p: string)
    requires NoIntroducer(p)
    ensures StripAnsi(p) == p
  {
    StripAnsiKeepsPlainPrefix(p, []);
    assert p + [] == p;
  }

  /**
   * The cleaned error text: escape sequences removed, only the first line
   * kept, then trimmed. It is a single line without surrounding whitespace.
   */
  function Sanitize(message: string): (r: string)
    ensures '\n' !in r
    ensures Trimmed(r)
  {
    var line := FirstLine(StripAnsi(message));
    TrimWithinLine(line);
    Trim(line)
  }

  /** Trimming a single line leaves a single line. */
  lemma TrimWithinLine(line: string)
    requires '\n' !in line
    ensures '\n' !in Trim(line)
  {
    var i, r := LeadingWhitespace(line), Trim(line);
    forall k | 0 <= k < |r|
      ensures r[k] != '\n'
    {
      assert r[k] == line[i + k];
    }
  }

  /** Without escape sequences and line breaks, cleaning is trimming. */
  lemma SanitizePlainLine(message: string)
    requires forall i :: 0 <= i < |message| ==> MatchAt(message[i..]).None?
    requires '\n' !in message
    ensures Sanitize(message) == Trim(message)
  {
    StripAnsiWithoutMatch(message);
    FirstLineOfSingleLine(message);
  }

  /** Cleaning its own output changes nothing when that output holds no introducer. */
  lemma SanitizeIdempotentWithoutIntroducer(message: string)
    requires NoIntroducer(Sanitize(message))
    ensures Sanitize(Sanitize(message)) == Sanitize(message)
  {
    var r := Sanitize(message);
    StripAnsiKeepsPlainPrefix(r, []);
    assert r + [] == r;
    assert StripAnsi([]) == [];
    FirstLineOfSingleLine(r);
    TrimKeepsTrimmed(r);
  }

  /** An escape sequence holds a single introducer, no line feed and no whitespace at its ends. */
  lemma EscapeSequenceCharacters(e: string)
    requires IsEscapeSequence(e)
    ensures NoIntroducer(e[1..]) && '\n' !in e && Trimmed(e)
  {
    var t := e[2..|e| - 1];
    assert forall k :: 0 <= k < |t| ==> IsDigit(t[k]) || t[k] == ';' by {
      if !IsNumber(t) {
        if |t| >= 3 && t[1] == ';' && IsNumber(t[..1]) && IsNumber(t[2..]) {
          assert forall k :: 2 <= k < |t| ==> t[k] == t[2..][k - 2];
        } else {
          assert forall k :: 0 <= k < 2 ==> t[k] == t[..2][k];
          assert forall k :: 3 <= k < |t| ==> t[k] == t[3..][k - 3];
        }
      }
    }
    assert forall k :: 2 <= k < |e| - 1 ==> e[k] == t[k - 2];
  }

  /**
   * Cleaning is not idempotent in general: for any escape sequence `e`
   * (the red colour ESC "[31m", say), ESC + e + e-without-ESC cleans to e,
   * and e itself cleans to "".
   */
  lemma SanitizeNotIdempotent(e: string)
    requires IsEscapeSequence(e)
    ensures Sanitize([e[0]] + e + e[1..]) == e
    ensures Sanitize(e) == [] != e
  {
    EscapeSequenceCharacters(e);
    StripAnsiSplicesNewSequence(e);
    FirstLineOfSingleLine(e);
    TrimKeepsTrimmed(e);
  }

  lemma NoIntroducerAroundBreak(first: string, rest: string)
    requires NoIntroducer(first) && NoIntroducer(rest)
    ensures NoIntroducer(first + ['\n'] + rest)
  {
    var t := first + ['\n'] + rest;
    assert forall k :: |first| < k < |t| ==> t[k] == rest[k - |first| - 1];
  }

  /**
   * A coloured assertion message with a stack trace (ESC "[31m" "Boom\n"
   * "stack trace line" ESC "[0m", say) is reduced to its first line.
   */
  lemma SanitizeColouredStackTrace(open: string, first: string, rest: string, close: string)
    requires IsEscapeSequence(open) && IsEscapeSequence(close)
    requires NoIntroducer(first) && NoIntroducer(rest)
    requires '\n' !in first && Trimmed(first)
    ensures Sanitize(open + first + ['\n'] + rest + close) == first
  {
    var t := first + ['\n'] + rest;
    StripColouredLines(open, first, rest, close);
    SanitizeAfterStrip(open + first + ['\n'] + rest + close, t);
    FirstLineStopsAtBreak(first, rest);
    TrimKeepsTrimmed(first);
  }

  lemma StripColouredLines(open: string, first: string, rest: string, close: string)
    requires IsEscapeSequence(open) && IsEscapeSequence(close)
    requires NoIntroducer(first) && NoIntroducer(rest)
    ensures StripAnsi(open + first + ['\n'] + rest + close) == first + ['\n'] + rest
  {
    var t := first + ['\n'] + rest;
    NoIntroducerAroundBreak(first, rest);
    StripAnsiUndoesColouring(open, t, close);
    RegroupConcat(open, first, ['\n'], rest);
  }

  lemma RegroupConcat(a: string, b: string, c: string, d: string)
    ensures a + b + c + d == a + (b + c + d)
  {
    assert a + b + c == a + (b + c);
  }

  lemma SanitizeAfterStrip(message: string, t: string)
    requires StripAnsi(message) == t
    ensures Sanitize(message) == Trim(FirstLine(t))
  {
  }

  lemma RedAndResetAreEscapeSequences()
    ensures IsEscapeSequence([ESC] + "[31m")
    ensures IsEscapeSequence([ESC] + "[0m")
  {
    var red, reset := [ESC] + "[31m", [ESC] + "[0m";
    assert red[2..|red| - 1] == "31";
    assert reset[2..|reset| - 1] == "0";
  }
}
