/**
 * Character classes and string operations of Python that the extractor relies on,
 * restricted to ASCII: the regex classes `\s`, `\d`, `\w`, case-insensitive matching,
 * `str.lower`, `str.strip` and the substring test `sub in s`.
 */
module Text {

  /** `\s` in a regex and `str.isspace`, on the ASCII range. */
  predicate IsSpace(c: char) {
    c == ' ' || c == '\t' || c == '\n' || c == '\r' || c == '\U{0B}' || c == '\U{0C}'
    || ('\U{1C}' <= c <= '\U{1F}')
  }

  /** `\d` and `[0-9]`. */
  predicate IsDigit(c: char) {
    '0' <= c <= '9'
  }

  /** `[A-Za-z]`. */
  predicate IsLetter(c: char) {
    'a' <= c <= 'z' || 'A' <= c <= 'Z'
  }

  /** `\w`, the characters that `\b` separates from all others. */
  predicate IsWordChar(c: char) {
    IsLetter(c) || IsDigit(c) || c == '_'
  }

  /** Lower-casing of one character, as `re.IGNORECASE` and `str.lower` do on ASCII. */
  function Lower(c: char): (r: char)
    ensures IsLetter(c) <==> IsLetter(r)
    ensures !IsLetter(c) ==> r == c
    ensures 'A' <= c <= 'Z' ==> 'a' <= r <= 'z' && r as int == c as int + 32
  {
    if 'A' <= c <= 'Z' then (c as int + 32) as char else c
  }

  /** `s.lower()`. */
  function LowerString(s: string): (r: string)
    ensures |r| == |s|
    ensures forall k :: 0 <= k < |s| ==> r[k] == Lower(s[k])
  {
    seq(|s|, k requires 0 <= k < |s| => Lower(s[k]))
  }

  /** Every character of `s` is whitespace, so `s.strip()` is empty. */
  predicate IsBlank(s: string) {
    forall k :: 0 <= k < |s| ==> IsSpace(s[k])
  }

  /** The end of `t[..j]` once trailing whitespace is dropped. */
  function TrimEnd(t: string, j: nat): (e: nat)
    requires j <= |t|
    ensures e <= j
    ensures e == 0 || !IsSpace(t[e - 1])
  {
    if j > 0 && IsSpace(t[j - 1]) then TrimEnd(t, j - 1) else j
  }

  /** `s.strip()`: leading and trailing whitespace removed. */
  function Strip(s: string): (r: string)
    ensures |r| <= |s|
    ensures r == [] || (!IsSpace(r[0]) && !IsSpace(r[|r| - 1]))
    ensures r == [] <==> IsBlank(s)
  {
    var a := SkipSpaces(s, 0);
    var b := TrimEnd(s, |s|);
    SkipSpacesRun(s, 0);
    TrimEndRun(s, |s|);
    if a < b then s[a..b] else []
  }

  /** `s.strip()` is `s` with a whitespace prefix and a whitespace suffix cut off, and no more. */
  lemma StripTrims(s: string)
    ensures exists a, b :: (0 <= a <= b <= |s| && Strip(s) == s[a..b]
              && (forall k :: 0 <= k < a ==> IsSpace(s[k])) && (forall k :: b <= k < |s| ==> IsSpace(s[k])))
  {
    var a := SkipSpaces(s, 0);
    var b := TrimEnd(s, |s|);
    SkipSpacesRun(s, 0);
    TrimEndRun(s, |s|);
    if a < b {
      assert Strip(s) == s[a..b];
    } else {
      // A non-space at `a` would lie in the trailing run, so the leading run is all of `s`.
      assert a == |s|;
      assert Strip(s) == s[|s|..|s|];
    }
  }

  /** Python's `sub in s`. */
  predicate Contains(s: string, sub: string)
    decreases |s|
  {
    |sub| <= |s| && (s[..|sub|] == sub || Contains(s[1..], sub))
  }

  /** `\s*`: the position after the longest whitespace run starting at `i`. */
  function SkipSpaces(t: string, i: nat): (j: nat)
    requires i <= |t|
    ensures i <= j <= |t|
    ensures j == |t| || !IsSpace(t[j])
    decreases |t| - i
  {
    if i < |t| && IsSpace(t[i]) then SkipSpaces(t, i + 1) else i
  }

  /** The position after the longest digit run starting at `i`. */
  function SkipDigits(t: string, i: nat): (j: nat)
    requires i <= |t|
    ensures i <= j <= |t|
    ensures j == |t| || !IsDigit(t[j])
    decreases |t| - i
  {
    if i < |t| && IsDigit(t[i]) then SkipDigits(t, i + 1) else i
  }

  /**
   * The lower-case word `w` occurs at `i`, ignoring case: how a keyword of a pattern
   * compiled with `re.IGNORECASE` matches.
   */
  predicate WordAt(t: string, i: nat, w: string) {
    i + |w| <= |t| && forall k :: 0 <= k < |w| ==> Lower(t[i + k]) == w[k]
  }

  // The runs the scanning functions skip. These are lemmas rather than postconditions so
  // that the quantifiers come into play only where a proof asks for them.

  lemma {:induction false} TrimEndRun(t: string, j: nat)
    requires j <= |t|
    ensures forall k :: TrimEnd(t, j) <= k < j ==> IsSpace(t[k])
  {
    if j > 0 && IsSpace(t[j - 1]) {
      TrimEndRun(t, j - 1);
    }
  }

  lemma {:induction false} SkipSpacesRun(t: string, i: nat)
    requires i <= |t|
    ensures forall k :: i <= k < SkipSpaces(t, i) ==> IsSpace(t[k])
    decreases |t| - i
  {
    if i < |t| && IsSpace(t[i]) {
      SkipSpacesRun(t, i + 1);
    }
  }

  lemma {:induction false} SkipDigitsRun(t: string, i: nat)
    requires i <= |t|
    ensures forall k :: i <= k < SkipDigits(t, i) ==> IsDigit(t[k])
    decreases |t| - i
  {
    if i < |t| && IsDigit(t[i]) {
      SkipDigitsRun(t, i + 1);
    }
  }
}
