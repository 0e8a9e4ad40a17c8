/**
 * The regular expressions of the extractor, each written out as a matcher at a position.
 *
 * Every pattern the extractor uses is deterministic under backtracking: wherever the regex
 * engine could choose (a greedy repeat, an optional item, an alternation), the choices it
 * would fall back to stop at a character that the next item of the pattern cannot match,
 * and the alternatives of each keyword group begin with different letters or words. So the
 * first path the engine tries is the only one that can succeed, and each matcher below
 * follows exactly that path. `re.finditer` is `FindAll`: try each position from left to
 * right and, after a match, resume where it ended.
 *
 * Only ASCII is modelled: `\s`, `\d`, `\b` and IGNORECASE on the ASCII range.
 */
module Patterns {
  import opened Wrappers
  import opened Text
  import opened Numerals

  /** One match: where the whole match starts and ends, and the text of its capture group. */
  datatype Hit = Hit(start: nat, end: nat, group: string)

  /**
   * A keyword group `(?:...|...)`: alternative phrases, each a list of lower-case words
   * joined by `\s+` in the pattern.
   */
  type Anchor = seq<seq<string>>

  /** The two number grammars of the amount patterns. */
  datatype Numeral =
    | CommaDigits   // `[0-9,]+(?:\.[0-9]{2})?`
    | GroupedDigits // `[0-9]{1,3}(?:,?[0-9]{3})*(?:\.[0-9]{2})?`

  /** The pieces the date patterns are built from. */
  datatype Token =
    | Digits12      // `\d{1,2}`
    | Digits4       // `\d{4}`
    | Letters       // `[A-Za-z]+`
    | Ch(c: char)   // a literal character

  datatype Pattern =
    | PrincipalKeyword                          // `(?:principal\s*(?:amount)?)\s*:?\s*\$\s*(N)`, N comma digits
    | KeyedDollar(anchor: Anchor)               // `(?:A)\s*:?\s*\$\s*(N)`, N comma digits
    | Dollar                                    // `\$\s*(N)`, N comma digits
    | KeyedAmount(anchor: Anchor, numeral: Numeral) // `(?:A)\s*:?\s*\$?\s*(N)`
    | PercentSign                               // `(\d+\.?\d*)\s*%`
    | PercentWord                               // `(\d+\.?\d*)\s*percent`
    | KeyedPercent(anchor: Anchor)              // `(?:A)\s*:?\s*(\d+\.?\d*)\s*%`
    | PerCent                                   // `(\d+\.?\d*)\s*(?:per\s*cent|pct)`
    | KeyedDate(anchor: Anchor)                 // `(?:A)\s*:?\s*(\d{1,2}/\d{1,2}/\d{4})`
    | BoundedDate(shape: seq<Token>)            // `\b(S)\b`

  // ----- pieces -----

  predicate IsNumeralChar(c: char) {
    IsDigit(c) || c == ','
  }

  /** `[0-9,]*` from `i`. */
  function SkipNumeralChars(t: string, i: nat): (j: nat)
    requires i <= |t|
    ensures i <= j <= |t|
    ensures j == |t| || !IsNumeralChar(t[j])
    decreases |t| - i
  {
    if i < |t| && IsNumeralChar(t[i]) then SkipNumeralChars(t, i + 1) else i
  }

  /** `[A-Za-z]*` from `i`. */
  function SkipLetters(t: string, i: nat): (j: nat)
    requires i <= |t|
    ensures i <= j <= |t|
    ensures j == |t| || !IsLetter(t[j])
    decreases |t| - i
  {
    if i < |t| && IsLetter(t[i]) then SkipLetters(t, i + 1) else i
  }

  /** `(?:\.[0-9]{2})?` at `j`. */
  function FractionEnd(t: string, j: nat): (k: nat)
    requires j <= |t|
    ensures k <= |t|
    ensures k == j + 3 <==> j + 3 <= |t| && t[j] == '.' && IsDigit(t[j + 1]) && IsDigit(t[j + 2])
    ensures k == j || k == j + 3
  {
    if j + 3 <= |t| && t[j] == '.' && IsDigit(t[j + 1]) && IsDigit(t[j + 2]) then j + 3 else j
  }

  predicate ThreeDigitsAt(t: string, j: nat) {
    j + 3 <= |t| && IsDigit(t[j]) && IsDigit(t[j + 1]) && IsDigit(t[j + 2])
  }

  /** `(?:,?[0-9]{3})*` from `j`, as many groups as there are. */
  function GroupsEnd(t: string, j: nat): (k: nat)
    requires j <= |t|
    ensures j <= k <= |t|
    decreases |t| - j
  {
    if j < |t| && t[j] == ',' then (if ThreeDigitsAt(t, j + 1) then GroupsEnd(t, j + 4) else j)
    else if ThreeDigitsAt(t, j) then GroupsEnd(t, j + 3)
    else j
  }

  /** `[0-9]{1,3}`, greedy: the end of the first one to three digits at `i`. */
  function LeadEnd(t: string, i: nat): (j: nat)
    requires i < |t| && IsDigit(t[i])
    ensures i < j <= i + 3 && j <= |t|
    ensures j < i + 3 ==> j == |t| || !IsDigit(t[j])
  {
    if i + 1 < |t| && IsDigit(t[i + 1]) then
      (if i + 2 < |t| && IsDigit(t[i + 2]) then i + 3 else i + 2)
    else i + 1
  }

  /** Where a number of the given grammar that starts at `i` ends. */
  function NumeralAt(n: Numeral, t: string, i: nat): (r: Option<nat>)
    requires i <= |t|
    ensures r.Some? ==> i < r.value <= |t|
    ensures n == CommaDigits ==> (r.Some? <==> i < |t| && IsNumeralChar(t[i]))
    ensures n == GroupedDigits ==> (r.Some? <==> i < |t| && IsDigit(t[i]))
  {
    match n
    case CommaDigits =>
      var j := SkipNumeralChars(t, i);
      if j == i then None else Some(FractionEnd(t, j))
    case GroupedDigits =>
      if i < |t| && IsDigit(t[i]) then Some(FractionEnd(t, GroupsEnd(t, LeadEnd(t, i)))) else None
  }

  /** `[0-9,]*` runs over any stretch of digits and commas. */
  lemma {:induction false} SkipNumeralCharsOver(t: string, i: nat, j: nat)
    requires i <= j <= |t|
    requires forall k :: i <= k < j ==> IsNumeralChar(t[k])
    ensures SkipNumeralChars(t, i) == SkipNumeralChars(t, j)
    decreases j - i
  {
    if i < j {
      SkipNumeralCharsOver(t, i + 1, j);
    }
  }

  /**
   * The grammar `[0-9,]+(?:\.[0-9]{2})?` reads an amount written without thousands separators
   * whole: every digit of it, then the cents if they follow.
   */
  lemma CommaDigitsReadsWholeRun(pre: string, ds: string, rest: string)
    requires |ds| >= 1 && AllDigits(ds)
    requires rest == [] || !IsNumeralChar(rest[0])
    ensures NumeralAt(CommaDigits, pre + ds + rest, |pre|) == Some(FractionEnd(pre + ds + rest, |pre| + |ds|))
  {
    var t := pre + ds + rest;
    assert forall k :: 0 <= k < |ds| ==> t[|pre| + k] == ds[k];
    SkipNumeralCharsOver(t, |pre|, |pre| + |ds|);
    if |pre| + |ds| < |t| {
      assert t[|pre| + |ds|] == rest[0];
    }
  }

  /**
   * Over a run of `len` digits from `i`, whose length is not a multiple of three, the groups
   * `(?:,?[0-9]{3})*` taken from a whole number of groups in stop at the last whole group.
   */
  lemma {:induction false} GroupsStopInRun(t: string, i: nat, len: nat, m: nat)
    requires i + len <= |t| && len % 3 != 0
    requires forall k :: i <= k < i + len ==> IsDigit(t[k])
    requires i + len == |t| || !IsDigit(t[i + len])
    requires m % 3 == 0 && m <= len
    ensures GroupsEnd(t, i + m) == i + len - len % 3
    decreases len - m
  {
    assert t[i + m] != ',' by { assert IsDigit(t[i + m]); }
    if m + 3 <= len {
      assert ThreeDigitsAt(t, i + m);
      GroupsStopInRun(t, i, len, m + 3);
    } else {
      assert !ThreeDigitsAt(t, i + m);
    }
  }

  /**
   * The grammar `[0-9]{1,3}(?:,?[0-9]{3})*(?:\.[0-9]{2})?` stops at the last whole group of three
   * of an amount of four or more digits written without a separator whose length is not a
   * multiple of three, and so never reaches its cents: "13125.00" reads as "131" and
   * "1312500.00" as "131250".
   */
  lemma GroupedDigitsCutsRun(pre: string, ds: string, rest: string)
    requires 4 <= |ds| && |ds| % 3 != 0 && AllDigits(ds)
    requires rest == [] || !IsDigit(rest[0])
    ensures NumeralAt(GroupedDigits, pre + ds + rest, |pre|) == Some(|pre| + |ds| - |ds| % 3)
    ensures |pre| + |ds| - |ds| % 3 < |pre| + |ds|
  {
    var t := pre + ds + rest;
    var i := |pre|;
    assert forall k :: 0 <= k < |ds| ==> t[i + k] == ds[k];
    assert LeadEnd(t, i) == i + 3;
    if i + |ds| < |t| {
      assert t[i + |ds|] == rest[0];
    }
    GroupsStopInRun(t, i, |ds|, 3);
    assert IsDigit(t[i + |ds| - |ds| % 3]);
  }

  /** `\d+\.?\d*` at `i`. */
  function DecimalAt(t: string, i: nat): (r: Option<nat>)
    requires i <= |t|
    ensures r.Some? <==> i < |t| && IsDigit(t[i])
    ensures r.Some? ==> i < r.value <= |t|
  {
    var j := SkipDigits(t, i);
    if j == i then None
    else if j < |t| && t[j] == '.' then Some(SkipDigits(t, j + 1))
    else Some(j)
  }

  /** What `\d+\.?\d*` matches is always a number `float()` accepts. */
  lemma DecimalReads(t: string, i: nat)
    requires i <= |t| && DecimalAt(t, i).Some?
    ensures ParseFloat(t[i..DecimalAt(t, i).value]).Some?
  {
    var j := SkipDigits(t, i);
    SkipDigitsRun(t, i);
    if j < |t| && t[j] == '.' {
      var k := SkipDigits(t, j + 1);
      SkipDigitsRun(t, j + 1);
      assert t[i..k] == t[i..j] + "." + t[j + 1..k];
      ParseFloatFraction(t[i..j], t[j + 1..k]);
    } else {
      ParseFloatWhole(t[i..j]);
    }
  }

  /** `\s*:?\s*` at `i`. */
  function ColonGap(t: string, i: nat): (j: nat)
    requires i <= |t|
    ensures i <= j <= |t|
  {
    var a := SkipSpaces(t, i);
    if a < |t| && t[a] == ':' then SkipSpaces(t, a + 1) else a
  }

  /** `\s*:?\s*\$\s*` at `i`. */
  function DollarGap(t: string, i: nat): (r: Option<nat>)
    requires i <= |t|
    ensures r.Some? ==> i < r.value <= |t|
  {
    var a := ColonGap(t, i);
    if a < |t| && t[a] == '$' then Some(SkipSpaces(t, a + 1)) else None
  }

  /** `\s*:?\s*\$?\s*` at `i`. */
  function OptionalDollarGap(t: string, i: nat): (j: nat)
    requires i <= |t|
    ensures i <= j <= |t|
  {
    var a := ColonGap(t, i);
    if a < |t| && t[a] == '$' then SkipSpaces(t, a + 1) else a
  }

  /** Words joined by `\s+`, ignoring case, at `i`. */
  function PhraseAt(t: string, i: nat, words: seq<string>): (r: Option<nat>)
    requires i <= |t|
    ensures r.Some? ==> i <= r.value <= |t|
    ensures r.Some? && words != [] ==> WordAt(t, i, words[0])
    decreases |words|, |t|
  {
    if words == [] then Some(i)
    else if !WordAt(t, i, words[0]) then None
    else
      var j := i + |words[0]|;
      if |words| == 1 then Some(j)
      else if j < |t| && IsSpace(t[j]) then PhraseAt(t, SkipSpaces(t, j), words[1..])
      else None
  }

  /** A keyword group at `i`: the first of its phrases that matches. */
  function AnchorAt(t: string, i: nat, alts: Anchor): (r: Option<nat>)
    requires i <= |t|
    ensures r.Some? ==> i <= r.value <= |t|
    decreases |alts|, |t|
  {
    if alts == [] then None
    else if PhraseAt(t, i, alts[0]).Some? then PhraseAt(t, i, alts[0])
    else AnchorAt(t, i, alts[1..])
  }

  /** The keyword group matches exactly when one of its phrases does, and then as the first such phrase. */
  lemma {:induction false} AnchorAtFirst(t: string, i: nat, alts: Anchor)
    requires i <= |t|
    ensures AnchorAt(t, i, alts).Some? <==> exists k :: 0 <= k < |alts| && PhraseAt(t, i, alts[k]).Some?
    ensures AnchorAt(t, i, alts).Some? ==> exists k :: 0 <= k < |alts| && AnchorAt(t, i, alts) == PhraseAt(t, i, alts[k])
                                             && forall j :: 0 <= j < k ==> PhraseAt(t, i, alts[j]).None?
    decreases |alts|
  {
    if alts != [] && PhraseAt(t, i, alts[0]).None? {
      AnchorAtFirst(t, i, alts[1..]);
      assert forall k :: 1 <= k < |alts| ==> alts[k] == alts[1..][k - 1];
      if AnchorAt(t, i, alts).Some? {
        var k :| 0 <= k < |alts[1..]| && AnchorAt(t, i, alts[1..]) == PhraseAt(t, i, alts[1..][k])
                   && forall j :: 0 <= j < k ==> PhraseAt(t, i, alts[1..][j]).None?;
        assert AnchorAt(t, i, alts) == PhraseAt(t, i, alts[k + 1]);
      }
    }
  }

  /** `principal\s*(?:amount)?` at `i`, ignoring case. */
  function PrincipalKeywordAt(t: string, i: nat): (r: Option<nat>)
    requires i <= |t|
    ensures r.Some? <==> WordAt(t, i, "principal")
    ensures r.Some? ==> i + 9 <= r.value <= |t|
  {
    if WordAt(t, i, "principal") then
      var j := SkipSpaces(t, i + 9);
      if WordAt(t, j, "amount") then Some(j + 6) else Some(j)
    else None
  }

  /** One piece of a date pattern at `i`. */
  function TokenAt(tok: Token, t: string, i: nat): (r: Option<nat>)
    requires i <= |t|
    ensures r.Some? ==> i < r.value <= |t|
  {
    match tok
    case Digits12 =>
      if i < |t| && IsDigit(t[i]) then Some(if i + 1 < |t| && IsDigit(t[i + 1]) then i + 2 else i + 1)
      else None
    case Digits4 =>
      if i + 4 <= |t| && IsDigit(t[i]) && IsDigit(t[i + 1]) && IsDigit(t[i + 2]) && IsDigit(t[i + 3])
      then Some(i + 4) else None
    case Letters =>
      var j := SkipLetters(t, i);
      if j == i then None else Some(j)
    case Ch(c) =>
      if i < |t| && t[i] == c then Some(i + 1) else None
  }

  /** A sequence of date pieces at `i`. */
  function TokensAt(toks: seq<Token>, t: string, i: nat): (r: Option<nat>)
    requires i <= |t|
    ensures r.Some? ==> i <= r.value <= |t|
    ensures r.Some? && toks != [] ==> i < r.value
    decreases |toks|, |t|
  {
    if toks == [] then Some(i)
    else
      var j :- TokenAt(toks[0], t, i);
      TokensAt(toks[1..], t, j)
  }

  /** `\b` at `i`: a word character on exactly one side. */
  predicate BoundaryAt(t: string, i: nat)
    requires i <= |t|
  {
    (i > 0 && IsWordChar(t[i - 1])) != (i < |t| && IsWordChar(t[i]))
  }

  const SlashDateShape: seq<Token> := [Digits12, Ch('/'), Digits12, Ch('/'), Digits4]

  // ----- whole patterns -----

  /** The end of a match at `i` and the bounds of its capture group. */
  datatype Span = Span(end: nat, groupStart: nat, groupEnd: nat)

  predicate SpanOk(t: string, i: nat, r: Option<Span>) {
    r.Some? ==> i <= r.value.groupStart < r.value.groupEnd <= r.value.end <= |t| && i < r.value.end
  }

  /** The amount patterns: a keyword (or a dollar sign), a gap, then the number captured. */
  function AmountMatch(p: Pattern, t: string, i: nat): (r: Option<Span>)
    requires i <= |t| && (p.PrincipalKeyword? || p.KeyedDollar? || p.Dollar? || p.KeyedAmount?)
    ensures SpanOk(t, i, r)
  {
    var g :-
      match p
      case PrincipalKeyword => (var a :- PrincipalKeywordAt(t, i); DollarGap(t, a))
      case KeyedDollar(anchor) => (var a :- AnchorAt(t, i, anchor); DollarGap(t, a))
      case Dollar => if i < |t| && t[i] == '$' then Some(SkipSpaces(t, i + 1)) else None
      case KeyedAmount(anchor, _) => (var a :- AnchorAt(t, i, anchor); Some(OptionalDollarGap(t, a)));
    var e :- NumeralAt(if p.KeyedAmount? then p.numeral else CommaDigits, t, g);
    Some(Span(e, g, e))
  }

  /** The percentage patterns: a decimal number captured, then a percent sign or word. */
  function PercentMatch(p: Pattern, t: string, i: nat): (r: Option<Span>)
    requires i <= |t| && (p.PercentSign? || p.PercentWord? || p.KeyedPercent? || p.PerCent?)
    ensures SpanOk(t, i, r)
  {
    var g :- if p.KeyedPercent? then (var a :- AnchorAt(t, i, p.anchor); Some(ColonGap(t, a))) else Some(i);
    var e :- DecimalAt(t, g);
    var k := SkipSpaces(t, e);
    var suffix :-
      if p.PerCent? then
        (if WordAt(t, k, "per") && WordAt(t, SkipSpaces(t, k + 3), "cent") then Some(SkipSpaces(t, k + 3) + 4)
         else if WordAt(t, k, "pct") then Some(k + 3)
         else None)
      else if p.PercentWord? then (if WordAt(t, k, "percent") then Some(k + 7) else None)
      else (if k < |t| && t[k] == '%' then Some(k + 1) else None);
    Some(Span(suffix, g, e))
  }

  /** The date patterns: a keyword and a slash date captured, or a date shape between word boundaries. */
  function DateMatch(p: Pattern, t: string, i: nat): (r: Option<Span>)
    requires i <= |t| && (p.KeyedDate? || p.BoundedDate?)
    ensures SpanOk(t, i, r)
  {
    match p
    case KeyedDate(anchor) =>
      var a :- AnchorAt(t, i, anchor);
      var g := ColonGap(t, a);
      var e :- TokensAt(SlashDateShape, t, g);
      Some(Span(e, g, e))
    case BoundedDate(shape) =>
      if shape != [] && BoundaryAt(t, i) then
        var e :- TokensAt(shape, t, i);
        if BoundaryAt(t, e) then Some(Span(e, i, e)) else None
      else None
  }

  /** `pattern.match(t, i)`: the match of `p` that starts at `i`, if there is one. */
  function MatchAt(p: Pattern, t: string, i: nat): (r: Option<Hit>)
    requires i <= |t|
    ensures r.Some? ==> r.value.start == i < r.value.end <= |t| && |r.value.group| >= 1
  {
    var s :-
      if p.PrincipalKeyword? || p.KeyedDollar? || p.Dollar? || p.KeyedAmount? then AmountMatch(p, t, i)
      else if p.KeyedDate? || p.BoundedDate? then DateMatch(p, t, i)
      else PercentMatch(p, t, i);
    Some(Hit(i, s.end, t[s.groupStart..s.groupEnd]))
  }

  /** A keyword-anchored amount pattern captures the number that follows the keyword and the gap. */
  lemma KeyedAmountMatch(anchor: Anchor, n: Numeral, t: string, i: nat, g: nat, e: nat)
    requires i <= |t|
    requires AnchorAt(t, i, anchor).Some? && OptionalDollarGap(t, AnchorAt(t, i, anchor).value) == g
    requires NumeralAt(n, t, g) == Some(e)
    ensures MatchAt(KeyedAmount(anchor, n), t, i) == Some(Hit(i, e, t[g..e]))
  {
  }

  /** The hits come left to right and do not overlap. */
  predicate InOrder(hs: seq<Hit>)
  {
    forall k :: 0 <= k < |hs| - 1 ==> hs[k].end <= hs[k + 1].start
  }

  // ----- re.finditer -----

  /**
   * A matcher of a text of length `n`: at each position `k`, the match that starts there, if
   * any. A match ends after its start and within the text.
   */
  predicate Advances(m: nat -> Option<Hit>, n: nat) {
    forall k: nat :: k <= n && m(k).Some? ==> m(k).value.start == k < m(k).value.end <= n
  }

  /**
   * `re.finditer` from position `i`, for any matcher: every match, left to right, each search
   * resuming where the previous match ended.
   */
  function Search(m: nat -> Option<Hit>, n: nat, i: nat): (hs: seq<Hit>)
    requires i <= n && Advances(m, n)
    ensures forall k :: 0 <= k < |hs| ==> i <= hs[k].start < hs[k].end <= n
    ensures InOrder(hs)
    decreases n - i, 1
  {
    SearchStep(m, n, i)
  }

  /**
   * One step of the search at `i`: take the match there and resume at its end, or move one
   * position on. A function of its own, so that a proof sees one step only where it asks for it.
   */
  function SearchStep(m: nat -> Option<Hit>, n: nat, i: nat): (hs: seq<Hit>)
    requires i <= n && Advances(m, n)
    ensures forall k :: 0 <= k < |hs| ==> i <= hs[k].start < hs[k].end <= n
    ensures InOrder(hs)
    decreases n - i, 0
  {
    match m(i)
    case Some(h) =>
      var rest := Search(m, n, h.end);
      assert forall k :: 1 <= k < |[h] + rest| ==> ([h] + rest)[k] == rest[k - 1];
      [h] + rest
    case None => if i < n then Search(m, n, i + 1) else []
  }

  /** The search at `i`, one step at a time. */
  lemma SearchUnfold(m: nat -> Option<Hit>, n: nat, i: nat)
    requires i <= n && Advances(m, n)
    ensures m(i).Some? ==> Search(m, n, i) == [m(i).value] + Search(m, n, m(i).value.end)
    ensures m(i).None? && i < n ==> Search(m, n, i) == Search(m, n, i + 1)
    ensures m(i).None? && i == n ==> Search(m, n, i) == []
  {
    assert Search(m, n, i) == SearchStep(m, n, i);
  }

  /** Every hit is the match at its own start. */
  lemma {:induction false} SearchMatches(m: nat -> Option<Hit>, n: nat, i: nat)
    requires i <= n && Advances(m, n)
    ensures forall k :: 0 <= k < |Search(m, n, i)| ==> m(Search(m, n, i)[k].start) == Some(Search(m, n, i)[k])
    decreases n - i
  {
    SearchUnfold(m, n, i);
    if m(i).Some? {
      SearchMatches(m, n, m(i).value.end);
    } else if i < n {
      SearchMatches(m, n, i + 1);
    }
  }

  /** The first hit of a search is the first match at or after where it starts. */
  lemma {:induction false} SearchFirst(m: nat -> Option<Hit>, n: nat, i: nat, j: nat)
    requires i <= j <= n && Advances(m, n)
    requires forall k :: i <= k < j ==> m(k).None?
    requires m(j).Some?
    ensures Search(m, n, i) == [m(j).value] + Search(m, n, m(j).value.end)
    decreases j - i
  {
    SearchUnfold(m, n, i);
    if i < j {
      SearchFirst(m, n, i + 1, j);
    }
  }

  /** A search over positions with no match finds nothing. */
  lemma {:induction false} SearchNone(m: nat -> Option<Hit>, n: nat, i: nat)
    requires i <= n && Advances(m, n)
    requires forall k :: i <= k <= n ==> m(k).None?
    ensures Search(m, n, i) == []
    decreases n - i
  {
    SearchUnfold(m, n, i);
    if i < n {
      SearchNone(m, n, i + 1);
    }
  }

  /** The search misses no match: one at `j` that no earlier hit runs over is among the hits. */
  lemma {:induction false} SearchComplete(m: nat -> Option<Hit>, n: nat, i: nat, j: nat)
    requires i <= j <= n && Advances(m, n) && m(j).Some?
    requires forall h :: h in Search(m, n, i) && h.start < j ==> h.end <= j
    ensures m(j).value in Search(m, n, i)
    decreases n - i
  {
    SearchUnfold(m, n, i);
    var hs := Search(m, n, i);
    if i == j {
      assert hs[0] == m(j).value;
    } else if m(i).Some? {
      assert hs == [m(i).value] + Search(m, n, m(i).value.end);
      assert hs[0] in hs;
      SearchComplete(m, n, m(i).value.end, j);
    } else {
      SearchComplete(m, n, i + 1, j);
    }
  }

  /** The matcher of `p` on `t`: `pattern.match(t, k)` at each position. */
  function Matcher(p: Pattern, t: string): (m: nat -> Option<Hit>)
    ensures Advances(m, |t|)
  {
    (k: nat) => if k <= |t| then MatchAt(p, t, k) else None
  }

  /** `re.finditer(p, t)` from position `i`. */
  function FindAll(p: Pattern, t: string, i: nat): (hs: seq<Hit>)
    requires i <= |t|
    ensures forall k :: 0 <= k < |hs| ==> i <= hs[k].start < hs[k].end <= |t|
    ensures InOrder(hs)
  {
    Search(Matcher(p, t), |t|, i)
  }

  /** The search at `i` as the matcher of `p` sees it. */
  lemma FindAllStep(p: Pattern, t: string, i: nat)
    requires i <= |t|
    ensures MatchAt(p, t, i).Some? ==> FindAll(p, t, i) == [MatchAt(p, t, i).value] + FindAll(p, t, MatchAt(p, t, i).value.end)
    ensures MatchAt(p, t, i).None? && i < |t| ==> FindAll(p, t, i) == FindAll(p, t, i + 1)
    ensures MatchAt(p, t, i).None? && i == |t| ==> FindAll(p, t, i) == []
  {
    SearchUnfold(Matcher(p, t), |t|, i);
  }

  /** Every pattern's matches, pattern after pattern: the order of the extractor's nested loops. */
  function HitsOver(ps: seq<Pattern>, t: string): (hs: seq<Hit>)
    ensures forall k :: 0 <= k < |hs| ==> hs[k].start < hs[k].end <= |t|
    decreases |ps|, |t|
  {
    if ps == [] then [] else FindAll(ps[0], t, 0) + HitsOver(ps[1..], t)
  }

  /** Every hit is the match of `p` at its own start. */
  lemma FindAllMatches(p: Pattern, t: string, i: nat)
    requires i <= |t|
    ensures forall k :: 0 <= k < |FindAll(p, t, i)| ==> MatchAt(p, t, FindAll(p, t, i)[k].start) == Some(FindAll(p, t, i)[k])
  {
    SearchMatches(Matcher(p, t), |t|, i);
  }

  /** `re.search`-style: the first hit of a search is the first match at or after where it starts. */
  lemma FindAllFirst(p: Pattern, t: string, i: nat, j: nat)
    requires i <= j <= |t|
    requires forall k :: i <= k < j ==> MatchAt(p, t, k).None?
    requires MatchAt(p, t, j).Some?
    ensures FindAll(p, t, i) == [MatchAt(p, t, j).value] + FindAll(p, t, MatchAt(p, t, j).value.end)
  {
    SearchFirst(Matcher(p, t), |t|, i, j);
  }

  /** A search over positions with no match finds nothing. */
  lemma FindAllNone(p: Pattern, t: string, i: nat)
    requires i <= |t|
    requires forall k :: i <= k <= |t| ==> MatchAt(p, t, k).None?
    ensures FindAll(p, t, i) == []
  {
    SearchNone(Matcher(p, t), |t|, i);
  }

  /** `re.finditer` misses no match: one at `j` that no earlier hit runs over is among the hits. */
  lemma FindAllComplete(p: Pattern, t: string, i: nat, j: nat)
    requires i <= j <= |t| && MatchAt(p, t, j).Some?
    requires forall h :: h in FindAll(p, t, i) && h.start < j ==> h.end <= j
    ensures MatchAt(p, t, j).value in FindAll(p, t, i)
  {
    SearchComplete(Matcher(p, t), |t|, i, j);
  }
}
