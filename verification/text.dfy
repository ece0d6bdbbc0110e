/** The pieces of Python's string handling the translator relies on:
    `str.isspace` on one character, `str.strip()`, and the blank test
    `not text or not text.strip()`. */
module Text {

  /** The characters Python's `str.isspace()` accepts. */
  predicate IsWhitespace(c: char) {
    || c == ' ' || c == '\t' || c == '\n' || c == '\r'
    || c == '\U{0B}' || c == '\U{0C}'
    || ('\U{1C}' <= c <= '\U{1F}')
    || c == '\U{85}' || c == '\U{A0}' || c == '\U{1680}'
    || ('\U{2000}' <= c <= '\U{200A}')
    || c == '\U{2028}' || c == '\U{2029}' || c == '\U{202F}'
    || c == '\U{205F}' || c == '\U{3000}'
  }

  predicate AllWhitespace(s: string) {
    forall i :: 0 <= i < |s| ==> IsWhitespace(s[i])
  }

  /** The first index at or after `i` that does not hold whitespace (or
      `|s|`): everything skipped over is whitespace. */
  function SkipLeading(s: string, i: nat): (n: nat)
    requires i <= |s|
    ensures i <= n <= |s|
    ensures forall k :: i <= k < n ==> IsWhitespace(s[k])
    ensures n == |s| || !IsWhitespace(s[n])
    decreases |s| - i
  {
    if i < |s| && IsWhitespace(s[i]) then SkipLeading(s, i + 1) else i
  }

  /** Moving the end `j` back towards `lo` past whitespace: everything
      given up is whitespace, and what remains does not end in whitespace. */
  function SkipTrailing(s: string, lo: nat, j: nat): (m: nat)
    requires lo <= j <= |s|
    ensures lo <= m <= j
    ensures forall k :: m <= k < j ==> IsWhitespace(s[k])
    ensures m == lo || !IsWhitespace(s[m - 1])
    decreases j - lo
  {
    if lo < j && IsWhitespace(s[j - 1]) then SkipTrailing(s, lo, j - 1) else j
  }

  /** Where `str.strip()` cuts: whitespace before `b.0` and from `b.1` on,
      the piece between them neither starting nor ending with whitespace,
      and an empty piece only when nothing else is left either. */
  function StripBounds(s: string): (b: (nat, nat))
    ensures b.0 <= b.1 <= |s|
    ensures forall k :: 0 <= k < b.0 ==> IsWhitespace(s[k])
    ensures forall k :: b.1 <= k < |s| ==> IsWhitespace(s[k])
    ensures b.0 < b.1 ==> !IsWhitespace(s[b.0]) && !IsWhitespace(s[b.1 - 1])
    ensures b.0 == b.1 ==> b.1 == |s|
  {
    var n := SkipLeading(s, 0);
    (n, SkipTrailing(s, n, |s|))
  }

  /** Python's `s.strip()`: nothing is left exactly when `s` is all
      whitespace, and what is left neither starts nor ends with whitespace. */
  function Strip(s: string): (r: string)
    ensures |r| <= |s|
    // `s` is its leading whitespace, then `r`, then its trailing whitespace
    ensures var a := SkipLeading(s, 0);
            && a + |r| <= |s| && r == s[a..a + |r|]
            && AllWhitespace(s[..a]) && AllWhitespace(s[a + |r|..])
    ensures r == [] <==> AllWhitespace(s)
    ensures r == [] || (!IsWhitespace(r[0]) && !IsWhitespace(r[|r| - 1]))
  {
    var b := StripBounds(s);
    assert AllWhitespace(s[..b.0]);
    assert AllWhitespace(s[b.1..]);
    s[b.0..b.1]
  }

  /** The pass-through test of the translator: empty, or empty once stripped. */
  predicate IsBlank(text: string) {
    |text| == 0 || |Strip(text)| == 0
  }

  /** A text is blank exactly when every character of it is whitespace. */
  lemma BlankIffAllWhitespace(text: string)
    ensures IsBlank(text) <==> AllWhitespace(text)
  {
  }

  /** Neither starting nor ending with whitespace (vacuously so when empty). */
  predicate Trimmed(s: string) {
    s == [] || (!IsWhitespace(s[0]) && !IsWhitespace(s[|s| - 1]))
  }

  /** A trimmed text is its own strip. */
  lemma StripKeepsTrimmed(s: string)
    requires Trimmed(s)
    ensures Strip(s) == s
  {
    if s != [] {
      assert SkipLeading(s, 0) == 0;
      assert SkipTrailing(s, 0, |s|) == |s|;
      assert s[0..|s|] == s;
    }
  }

  /** `strip()` leaves a text unchanged exactly when it is trimmed. */
  lemma StripFixedIffTrimmed(s: string)
    ensures Strip(s) == s <==> Trimmed(s)
  {
    if Trimmed(s) {
      StripKeepsTrimmed(s);
    }
  }
}
