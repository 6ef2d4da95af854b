/**
 * String operations of JavaScript that the components rely on: `includes`,
 * `replace` with a non-global pattern, `toLowerCase`, `replace(/\s+/g, …)` and
 * the decimal rendering of a non-negative integer.
 */
module Text {
  import opened Wrappers

  /** `needle` occurs in `hay` starting at position `i`. */
  ghost predicate OccursAt(hay: string, needle: string, i: nat) {
    i + |needle| <= |hay| && hay[i..i + |needle|] == needle
  }

  /** The first position at or after `k` where `needle` occurs in `hay`. */
  function IndexFrom(hay: string, needle: string, k: nat): (r: Option<nat>)
    decreases |hay| - k
    ensures r.Some? ==> k <= r.value && OccursAt(hay, needle, r.value)
    ensures r.Some? ==> forall j: nat :: k <= j < r.value ==> !OccursAt(hay, needle, j)
    ensures r.None? ==> forall j: nat :: k <= j ==> !OccursAt(hay, needle, j)
  {
    if k + |needle| > |hay| then None
    else if hay[k..k + |needle|] == needle then Some(k)
    else IndexFrom(hay, needle, k + 1)
  }

  /** `String.prototype.indexOf`: the first occurrence of `needle`, if any. */
  function IndexOf(hay: string, needle: string): (r: Option<nat>)
    ensures r.Some? ==> OccursAt(hay, needle, r.value)
    ensures r.Some? ==> forall j: nat :: j < r.value ==> !OccursAt(hay, needle, j)
    ensures r.None? ==> forall j: nat :: !OccursAt(hay, needle, j)
  {
    IndexFrom(hay, needle, 0)
  }

  /** `String.prototype.includes`. */
  predicate Contains(hay: string, needle: string) {
    IndexOf(hay, needle).Some?
  }

  /** `needle` is contained in `hay` exactly when it occurs at some position. */
  lemma ContainsIffOccurs(hay: string, needle: string)
    ensures Contains(hay, needle) <==> exists i: nat :: OccursAt(hay, needle, i)
  {
  }

  /** A string is contained in any string that ends with it. */
  lemma ContainsSuffix(a: string, b: string)
    ensures Contains(a + b, b)
  {
    assert (a + b)[|a|..|a| + |b|] == b;
    assert OccursAt(a + b, b, |a|);
  }

  /** What a string contains, it still contains with more appended. */
  lemma ContainsExtended(s: string, t: string, needle: string)
    requires Contains(s, needle)
    ensures Contains(s + t, needle)
  {
    var i := IndexOf(s, needle).value;
    assert (s + t)[i..i + |needle|] == s[i..i + |needle|];
    assert OccursAt(s + t, needle, i);
  }

  /**
   * `s.replace(pattern, replacement)` with a pattern that is matched literally and
   * is not global: only the first occurrence is replaced.
   */
  function ReplaceFirst(s: string, pattern: string, replacement: string): (r: string)
    ensures IndexOf(s, pattern).None? ==> r == s
    ensures IndexOf(s, pattern).Some? ==> |r| == |s| - |pattern| + |replacement|
  {
    match IndexOf(s, pattern)
    case None => s
    case Some(i) => s[..i] + replacement + s[i + |pattern|..]
  }

  /**
   * Replacing the first occurrence: when `pattern` first occurs at `i`, everything
   * before `i` and everything after that occurrence is kept, and the occurrence
   * itself becomes `replacement`; in particular later occurrences are untouched.
   */
  lemma ReplaceFirstAt(s: string, pattern: string, replacement: string, i: nat)
    requires OccursAt(s, pattern, i)
    requires forall j: nat :: j < i ==> !OccursAt(s, pattern, j)
    ensures ReplaceFirst(s, pattern, replacement) == s[..i] + replacement + s[i + |pattern|..]
  {
  }

  /** The lower-case form of one character; only ASCII letters change. */
  function LowerChar(c: char): (r: char)
    ensures 'A' <= c <= 'Z' ==> r as int == c as int + 32
    ensures !('A' <= c <= 'Z') ==> r == c
    ensures !('A' <= r <= 'Z')
  {
    if 'A' <= c <= 'Z' then (c as int + 32) as char else c
  }

  /** `String.prototype.toLowerCase`, restricted to the ASCII letters. */
  function ToLower(s: string): (r: string)
    ensures |r| == |s|
    ensures forall i :: 0 <= i < |s| ==> r[i] == LowerChar(s[i])
  {
    seq(|s|, i requires 0 <= i < |s| => LowerChar(s[i]))
  }

  /** Lower-casing twice is lower-casing once. */
  lemma ToLowerIdempotent(s: string)
    ensures ToLower(ToLower(s)) == ToLower(s)
  {
  }

  /** The characters that the `\s` class of a JavaScript regular expression matches. */
  predicate IsWhitespace(c: char) {
    c == ' ' || c == '\t' || c == '\n' || c == '\r' || c == '\U{B}' || c == '\U{C}'
    || c == '\U{A0}' || c == '\U{1680}' || ('\U{2000}' <= c <= '\U{200A}')
    || c == '\U{2028}' || c == '\U{2029}' || c == '\U{202F}' || c == '\U{205F}'
    || c == '\U{3000}' || c == '\U{FEFF}'
  }

  /** `s` with its leading whitespace removed. */
  function SkipWhitespace(s: string): (r: string)
    ensures |r| <= |s|
    ensures r == [] || !IsWhitespace(r[0])
    ensures r == s[|s| - |r|..]
    ensures forall i :: 0 <= i < |s| - |r| ==> IsWhitespace(s[i])
  {
    if s != [] && IsWhitespace(s[0]) then SkipWhitespace(s[1..]) else s
  }

  /** `s.replace(/\s+/g, sep)`: every maximal run of whitespace becomes `sep`. */
  function ReplaceWhitespaceRuns(s: string, sep: char): (r: string)
    decreases |s|
    ensures |r| <= |s|
  {
    if s == [] then []
    else if IsWhitespace(s[0]) then [sep] + ReplaceWhitespaceRuns(SkipWhitespace(s[1..]), sep)
    else [s[0]] + ReplaceWhitespaceRuns(s[1..], sep)
  }

  /** With a separator that is not whitespace, no whitespace is left. */
  lemma {:induction false} NoWhitespaceLeft(s: string, sep: char)
    requires !IsWhitespace(sep)
    decreases |s|
    ensures forall i :: 0 <= i < |ReplaceWhitespaceRuns(s, sep)| ==> !IsWhitespace(ReplaceWhitespaceRuns(s, sep)[i])
  {
    if s != [] {
      if IsWhitespace(s[0]) {
        NoWhitespaceLeft(SkipWhitespace(s[1..]), sep);
      } else {
        NoWhitespaceLeft(s[1..], sep);
      }
    }
  }

  /** A string without whitespace is left as it is. */
  lemma {:induction false} NoWhitespaceUnchanged(s: string, sep: char)
    requires forall i :: 0 <= i < |s| ==> !IsWhitespace(s[i])
    ensures ReplaceWhitespaceRuns(s, sep) == s
  {
    if s != [] {
      NoWhitespaceUnchanged(s[1..], sep);
    }
  }

  /** Two words without whitespace joined by one space: the space becomes `sep`. */
  lemma {:induction false} OneSpaceReplaced(a: string, b: string, sep: char)
    requires forall i :: 0 <= i < |a| ==> !IsWhitespace(a[i])
    requires forall i :: 0 <= i < |b| ==> !IsWhitespace(b[i])
    ensures ReplaceWhitespaceRuns(a + [' '] + b, sep) == a + [sep] + b
  {
    if a == [] {
      assert a + [' '] + b == [' '] + b;
      assert SkipWhitespace(b) == b;
      NoWhitespaceUnchanged(b, sep);
    } else {
      assert (a + [' '] + b)[1..] == a[1..] + [' '] + b;
      OneSpaceReplaced(a[1..], b, sep);
      assert a + [sep] + b == [a[0]] + (a[1..] + [sep] + b);
    }
  }

  /** The digit character for `d`. */
  function DigitChar(d: nat): (c: char)
    requires d < 10
    ensures '0' <= c <= '9' && c as int - '0' as int == d
  {
    ('0' as int + d) as char
  }

  /** The decimal rendering of `n` without leading zeros, as `String(n)` gives it. */
  function DecimalString(n: nat): (r: string)
    ensures |r| >= 1
    ensures forall i :: 0 <= i < |r| ==> '0' <= r[i] <= '9'
    ensures n > 0 ==> r[0] != '0'
  {
    if n < 10 then [DigitChar(n)] else DecimalString(n / 10) + [DigitChar(n % 10)]
  }

  /** The number a string of decimal digits denotes. */
  function DecimalValue(s: string): nat
    requires forall i :: 0 <= i < |s| ==> '0' <= s[i] <= '9'
  {
    if s == [] then 0 else 10 * DecimalValue(s[..|s| - 1]) + (s[|s| - 1] as int - '0' as int)
  }

  /** Reading back the decimal rendering of `n` gives `n`. */
  lemma {:induction false} DecimalRoundTrip(n: nat)
    ensures DecimalValue(DecimalString(n)) == n
  {
    var r := DecimalString(n);
    if n >= 10 {
      DecimalRoundTrip(n / 10);
      assert r[..|r| - 1] == DecimalString(n / 10);
    }
  }
}
