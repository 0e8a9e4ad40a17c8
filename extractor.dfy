/**
 * Field extraction from the text of an interest payment notice (`extractor.py`): each field
 * has an ordered list of candidate patterns, a plausibility window for what a match reads as,
 * and a rule for choosing among the plausible readings. The text is what the PDF pages give
 * once concatenated; reading the PDF itself is outside the model.
 */
module Extractor {
  import opened Wrappers
  import opened Text
  import opened Numerals
  import opened Dates
  import opened Patterns

  // ----- the candidate patterns, in the order the extractor tries them -----

  /** The principal patterns: after "principal (amount)", "loan amount" or "outstanding balance". */
  const PrincipalPatterns: seq<Pattern> := [
    PrincipalKeyword,
    KeyedDollar([["loan", "amount"]]),
    KeyedDollar([["outstanding", "balance"]])
  ]

  /** The fallback: any dollar amount. */
  const CurrencyPatterns: seq<Pattern> := [Dollar]

  const PercentPatterns: seq<Pattern> := [PercentSign, PercentWord, KeyedPercent([["rate"], ["interest"]]), PerCent]

  /** The keyword groups of the four interest-amount patterns. */
  const InterestAnchors: seq<Anchor> := [
    [["interest", "amount"], ["interest", "payment"], ["interest", "due"]],
    [["total", "interest"]],
    [["interest", "calculated"]],
    [["accrued", "interest"]]
  ]

  /** The interest-amount patterns with the given number grammar. */
  function InterestPatterns(n: Numeral): (ps: seq<Pattern>)
    ensures |ps| == |InterestAnchors|
    ensures forall k :: 0 <= k < |ps| ==> ps[k] == KeyedAmount(InterestAnchors[k], n)
  {
    [KeyedAmount(InterestAnchors[0], n), KeyedAmount(InterestAnchors[1], n),
     KeyedAmount(InterestAnchors[2], n), KeyedAmount(InterestAnchors[3], n)]
  }

  const InterestDatePatterns: seq<Pattern> := [
    KeyedDate([["interest", "period", "start", "date"], ["start", "date"]]),
    KeyedDate([["interest", "period", "end", "date"], ["end", "date"]]),
    KeyedDate([["from"], ["start"]]),
    KeyedDate([["to"], ["through"], ["end"]])
  ]

  /** Dates anywhere, between word boundaries: m/d/Y, m-d-Y, Y-m-d, "Month d, Y", "d Month Y". */
  const GeneralDatePatterns: seq<Pattern> := [
    BoundedDate([Digits12, Ch('/'), Digits12, Ch('/'), Digits4]),
    BoundedDate([Digits12, Ch('-'), Digits12, Ch('-'), Digits4]),
    BoundedDate([Digits4, Ch('-'), Digits12, Ch('-'), Digits12]),
    BoundedDate([Letters, Ch(' '), Digits12, Ch(','), Ch(' '), Digits4]),
    BoundedDate([Digits12, Ch(' '), Letters, Ch(' '), Digits4])
  ]

  /**
   * The formats `parse_date` tries, in order: `%m/%d/%Y`, `%m-%d-%Y`, `%Y-%m-%d`, `%B %d, %Y`,
   * `%b %d, %Y`, `%d %B %Y`, `%d %b %Y`, `%m/%d/%y`, `%m-%d-%y`.
   */
  const DateFormats: seq<seq<Directive>> := [
    [MonthNum, Lit('/'), DayNum, Lit('/'), Year4],
    [MonthNum, Lit('-'), DayNum, Lit('-'), Year4],
    [Year4, Lit('-'), MonthNum, Lit('-'), DayNum],
    [MonthName(true), Blank, DayNum, Lit(','), Blank, Year4],
    [MonthName(false), Blank, DayNum, Lit(','), Blank, Year4],
    [DayNum, Blank, MonthName(true), Blank, Year4],
    [DayNum, Blank, MonthName(false), Blank, Year4],
    [MonthNum, Lit('/'), DayNum, Lit('/'), Year2],
    [MonthNum, Lit('-'), DayNum, Lit('-'), Year2]
  ]

  // ----- reading a captured group -----

  /** Amounts drop their commas and go through `float()`; percentages go through `float()` and are divided by 100. */
  datatype Reading = Amount | Rate

  /** What a captured group reads as; `None` where `float()` raises `ValueError` and the loop goes on. */
  function Read(kind: Reading, g: string): (v: Option<real>)
    ensures v.Some? ==> v.value >= 0.0
  {
    match kind
    case Amount => ParseFloat(StripCommas(g))
    case Rate => (match ParseFloat(g) case Some(p) => Some(p / 100.0) case None => None)
  }

  /** A plausibility window `lo <= v <= hi`. */
  datatype Window = Window(lo: real, hi: real)

  const PrincipalWindow: Window := Window(1000.0, 1000000000.0)
  const FallbackWindow: Window := Window(1000.0, 100000000.0)
  const RateWindow: Window := Window(0.001, 0.5)
  const InterestWindow: Window := Window(1.0, 10000000.0)

  /** A reading that exists and lies in the window. */
  predicate InWindow(w: Window, v: Option<real>) {
    v.Some? && w.lo <= v.value <= w.hi
  }

  /** The hit reads as a number inside the window. */
  predicate Accepts(kind: Reading, w: Window, h: Hit) {
    InWindow(w, Read(kind, h.group))
  }

  /** What each hit reads as, in the order of the hits. */
  function Readings(kind: Reading, hs: seq<Hit>): (rs: seq<Option<real>>)
    ensures |rs| == |hs|
    decreases |hs|
  {
    if hs == [] then [] else Readings(kind, hs[..|hs| - 1]) + [Read(kind, hs[|hs| - 1].group)]
  }

  /** Each reading is that of the hit in the same place. */
  lemma {:induction false} ReadingsAt(kind: Reading, hs: seq<Hit>, k: nat)
    requires k < |hs|
    ensures Readings(kind, hs)[k] == Read(kind, hs[k].group)
    decreases |hs|
  {
    if k < |hs| - 1 {
      ReadingsAt(kind, hs[..|hs| - 1], k);
    }
  }

  /** The readings that lie in the window, in order. */
  function Keep(w: Window, rs: seq<Option<real>>): (vs: seq<real>)
    ensures |vs| <= |rs|
    decreases |rs|
  {
    if rs == [] then []
    else
      var last := rs[|rs| - 1];
      Keep(w, rs[..|rs| - 1]) + (if InWindow(w, last) then [last.value] else [])
  }

  /** The plausible readings of the hits, in the order of the hits. */
  function Values(kind: Reading, w: Window, hs: seq<Hit>): (vs: seq<real>)
    ensures |vs| <= |hs|
  {
    Keep(w, Readings(kind, hs))
  }

  /** The first plausible reading, if any. */
  function FirstValue(kind: Reading, w: Window, hs: seq<Hit>): (r: Option<real>)
    ensures r.Some? ==> w.lo <= r.value <= w.hi
  {
    ValuesInWindow(kind, w, hs);
    var vs := Values(kind, w, hs);
    if vs == [] then None else Some(vs[0])
  }

  /** `max(values)`. */
  function MaxOf(vs: seq<real>): (m: real)
    requires vs != []
    ensures m in vs
    ensures forall k :: 0 <= k < |vs| ==> vs[k] <= m
  {
    if |vs| == 1 then vs[0]
    else
      var rest := MaxOf(vs[1..]);
      assert forall k :: 1 <= k < |vs| ==> vs[k] == vs[1..][k - 1];
      if vs[0] >= rest then vs[0] else rest
  }

  /** Everything kept lies in the window. */
  lemma {:induction false} KeepInWindow(w: Window, rs: seq<Option<real>>)
    ensures forall k :: 0 <= k < |Keep(w, rs)| ==> w.lo <= Keep(w, rs)[k] <= w.hi
    decreases |rs|
  {
    if rs != [] {
      KeepInWindow(w, rs[..|rs| - 1]);
    }
  }

  /** Every plausible reading lies in the window. */
  lemma ValuesInWindow(kind: Reading, w: Window, hs: seq<Hit>)
    ensures forall k :: 0 <= k < |Values(kind, w, hs)| ==> w.lo <= Values(kind, w, hs)[k] <= w.hi
  {
    KeepInWindow(w, Readings(kind, hs));
  }

  lemma ReadingsSnoc(kind: Reading, hs: seq<Hit>, h: Hit)
    ensures Readings(kind, hs + [h]) == Readings(kind, hs) + [Read(kind, h.group)]
  {
    assert (hs + [h])[..|hs|] == hs;
  }

  lemma {:induction false} ReadingsConcat(kind: Reading, a: seq<Hit>, b: seq<Hit>)
    ensures Readings(kind, a + b) == Readings(kind, a) + Readings(kind, b)
    decreases |b|
  {
    if b == [] {
      assert a + b == a;
    } else {
      var b' := b[..|b| - 1];
      assert a + b == (a + b') + [b[|b| - 1]];
      assert b == b' + [b[|b| - 1]];
      ReadingsSnoc(kind, a + b', b[|b| - 1]);
      ReadingsSnoc(kind, b', b[|b| - 1]);
      ReadingsConcat(kind, a, b');
    }
  }

  /** The readings, place by place. */
  lemma ReadingsEach(kind: Reading, hs: seq<Hit>)
    ensures forall k :: 0 <= k < |hs| ==> Readings(kind, hs)[k] == Read(kind, hs[k].group)
  {
    forall k | 0 <= k < |hs|
      ensures Readings(kind, hs)[k] == Read(kind, hs[k].group)
    {
      ReadingsAt(kind, hs, k);
    }
  }

  lemma KeepSnoc(w: Window, rs: seq<Option<real>>, r: Option<real>)
    ensures Keep(w, rs + [r]) == Keep(w, rs) + (if InWindow(w, r) then [r.value] else [])
  {
    assert (rs + [r])[..|rs|] == rs;
  }

  lemma {:induction false} KeepConcat(w: Window, a: seq<Option<real>>, b: seq<Option<real>>)
    ensures Keep(w, a + b) == Keep(w, a) + Keep(w, b)
    decreases |b|
  {
    if b == [] {
      assert a + b == a;
    } else {
      var b' := b[..|b| - 1];
      assert a + b == (a + b') + [b[|b| - 1]];
      assert b == b' + [b[|b| - 1]];
      KeepSnoc(w, a + b', b[|b| - 1]);
      KeepSnoc(w, b', b[|b| - 1]);
      KeepConcat(w, a, b');
    }
  }

  /** Nothing is kept exactly when no reading is in the window. */
  lemma {:induction false} KeepEmpty(w: Window, rs: seq<Option<real>>)
    ensures Keep(w, rs) == [] <==> forall k :: 0 <= k < |rs| ==> !InWindow(w, rs[k])
    decreases |rs|
  {
    if rs != [] {
      var front := rs[..|rs| - 1];
      KeepEmpty(w, front);
      assert forall k :: 0 <= k < |front| ==> front[k] == rs[k];
    }
  }

  /** A reading in the window is kept. */
  lemma {:induction false} KeepComplete(w: Window, rs: seq<Option<real>>, k: nat)
    requires k < |rs| && InWindow(w, rs[k])
    ensures rs[k].value in Keep(w, rs)
    decreases |rs|
  {
    if k < |rs| - 1 {
      var front := rs[..|rs| - 1];
      assert front[k] == rs[k];
      KeepComplete(w, front, k);
    }
  }

  /** Everything kept is a reading in the window. */
  lemma {:induction false} KeepSound(w: Window, rs: seq<Option<real>>, v: real)
    requires v in Keep(w, rs)
    ensures exists k :: 0 <= k < |rs| && InWindow(w, rs[k]) && rs[k] == Some(v)
    decreases |rs|
  {
    var front := rs[..|rs| - 1];
    if v in Keep(w, front) {
      KeepSound(w, front, v);
      var k :| 0 <= k < |front| && InWindow(w, front[k]) && front[k] == Some(v);
      assert rs[k] == front[k];
    } else {
      assert InWindow(w, rs[|rs| - 1]) && rs[|rs| - 1] == Some(v);
    }
  }

  /** The first reading kept is that of the first reading in the window. */
  lemma KeepFirst(w: Window, rs: seq<Option<real>>, k: nat)
    requires k < |rs| && InWindow(w, rs[k])
    requires forall j :: 0 <= j < k ==> !InWindow(w, rs[j])
    ensures Keep(w, rs) != [] && Keep(w, rs)[0] == rs[k].value
  {
    var pre := rs[..k];
    assert forall j :: 0 <= j < |pre| ==> pre[j] == rs[j];
    KeepEmpty(w, pre);
    assert rs == (pre + [rs[k]]) + rs[k + 1..];
    KeepConcat(w, pre + [rs[k]], rs[k + 1..]);
    KeepSnoc(w, pre, rs[k]);
  }

  /** The first plausible reading is that of the first plausible hit. */
  lemma FirstValueAt(kind: Reading, w: Window, hs: seq<Hit>, k: nat)
    requires k < |hs| && Accepts(kind, w, hs[k])
    requires forall j :: 0 <= j < k ==> !Accepts(kind, w, hs[j])
    ensures FirstValue(kind, w, hs) == Read(kind, hs[k].group)
  {
    ReadingsEach(kind, hs);
    KeepFirst(w, Readings(kind, hs), k);
  }

  /** No plausible reading exactly when no hit is plausible. */
  lemma ValuesEmpty(kind: Reading, w: Window, hs: seq<Hit>)
    ensures Values(kind, w, hs) == [] <==> forall k :: 0 <= k < |hs| ==> !Accepts(kind, w, hs[k])
  {
    ReadingsEach(kind, hs);
    KeepEmpty(w, Readings(kind, hs));
  }

  lemma ValuesSnoc(kind: Reading, w: Window, hs: seq<Hit>, h: Hit)
    ensures Values(kind, w, hs + [h])
            == Values(kind, w, hs) + (if Accepts(kind, w, h) then [Read(kind, h.group).value] else [])
  {
    ReadingsSnoc(kind, hs, h);
    KeepSnoc(w, Readings(kind, hs), Read(kind, h.group));
  }

  /** After hits with no plausible reading, a plausible hit gives the first reading. */
  lemma LeadingHit(kind: Reading, w: Window, pre: seq<Hit>, h: Hit, post: seq<Hit>)
    requires Values(kind, w, pre) == [] && Accepts(kind, w, h)
    ensures FirstValue(kind, w, pre + [h] + post) == Read(kind, h.group)
  {
    ReadingsConcat(kind, pre + [h], post);
    KeepConcat(w, Readings(kind, pre + [h]), Readings(kind, post));
    ValuesSnoc(kind, w, pre, h);
  }

  /** A plausible hit's reading is among the readings. */
  lemma ValuesComplete(kind: Reading, w: Window, hs: seq<Hit>, k: nat)
    requires k < |hs| && Accepts(kind, w, hs[k])
    ensures Read(kind, hs[k].group).value in Values(kind, w, hs)
  {
    ReadingsAt(kind, hs, k);
    KeepComplete(w, Readings(kind, hs), k);
  }

  /** Every reading comes from a plausible hit. */
  lemma ValuesSound(kind: Reading, w: Window, hs: seq<Hit>, v: real)
    requires v in Values(kind, w, hs)
    ensures exists k :: 0 <= k < |hs| && Accepts(kind, w, hs[k]) && Read(kind, hs[k].group) == Some(v)
  {
    ReadingsEach(kind, hs);
    KeepSound(w, Readings(kind, hs), v);
  }

  // ----- parse_currency_amount -----

  /**
   * The principal: the first keyword-anchored amount in [1000, 1e9]; failing that, the
   * largest dollar amount in [1000, 1e8]; `None` for empty text or when neither exists.
   */
  function PrincipalOf(text: string): (r: Option<real>)
    ensures r.Some? ==> 1000.0 <= r.value <= 1000000000.0
  {
    if text == [] then None
    else
      ValuesInWindow(Amount, FallbackWindow, HitsOver(CurrencyPatterns, text));
      var keyed := FirstValue(Amount, PrincipalWindow, HitsOver(PrincipalPatterns, text));
      if keyed.Some? then keyed
      else
        var amounts := Values(Amount, FallbackWindow, HitsOver(CurrencyPatterns, text));
        if amounts == [] then None else Some(MaxOf(amounts))
  }

  /** `parse_currency_amount`, with the early return of the keyword loop. */
  method ParseCurrencyAmount(text: string) returns (r: Option<real>)
    ensures r == PrincipalOf(text)
  {
    if text == [] {
      return None;
    }
    ghost var done: seq<Hit> := [];
    var i := 0;
    assert PrincipalPatterns[0..] == PrincipalPatterns;
    while i < |PrincipalPatterns|
      invariant 0 <= i <= |PrincipalPatterns|
      invariant done + HitsOver(PrincipalPatterns[i..], text) == HitsOver(PrincipalPatterns, text)
      invariant Values(Amount, PrincipalWindow, done) == []
    {
      var matches := FindAll(PrincipalPatterns[i], text, 0);
      HitsOverAdvance(text, PrincipalPatterns, i, done);
      var amount := FirstValueOf(Amount, PrincipalWindow, matches);
      ValuesConcat(Amount, PrincipalWindow, done, matches);
      if amount.Some? {
        FirstValueAfter(Amount, PrincipalWindow, done, matches, HitsOver(PrincipalPatterns[i + 1..], text));
        return amount;
      }
      done := done + matches;
      i := i + 1;
    }
    assert done == HitsOver(PrincipalPatterns, text);
    var amounts := PlausibleValues(Amount, FallbackWindow, CurrencyPatterns, text);
    if amounts == [] {
      return None;
    }
    return Some(MaxOf(amounts));
  }

  /** The plausible readings of two runs of hits, one after the other. */
  lemma ValuesConcat(kind: Reading, w: Window, a: seq<Hit>, b: seq<Hit>)
    ensures Values(kind, w, a + b) == Values(kind, w, a) + Values(kind, w, b)
  {
    ReadingsConcat(kind, a, b);
    KeepConcat(w, Readings(kind, a), Readings(kind, b));
  }

  /** The inner loop over one pattern's matches, each plausible reading appended. */
  method ValuesOf(kind: Reading, w: Window, matches: seq<Hit>) returns (values: seq<real>)
    ensures values == Values(kind, w, matches)
  {
    values := [];
    var j := 0;
    while j < |matches|
      invariant 0 <= j <= |matches|
      invariant values == Values(kind, w, matches[..j])
    {
      var value := Read(kind, matches[j].group);
      assert matches[..j + 1] == matches[..j] + [matches[j]];
      ValuesSnoc(kind, w, matches[..j], matches[j]);
      if InWindow(w, value) {
        values := values + [value.value];
      }
      j := j + 1;
    }
    assert matches[..j] == matches;
  }

  /** The inner loop of the keyword search: the first match in turn that reads as a value in the window. */
  method FirstValueOf(kind: Reading, w: Window, matches: seq<Hit>) returns (r: Option<real>)
    ensures r == FirstValue(kind, w, matches)
  {
    var j := 0;
    while j < |matches|
      invariant 0 <= j <= |matches|
      invariant Values(kind, w, matches[..j]) == []
    {
      var value := Read(kind, matches[j].group);
      if InWindow(w, value) {
        assert matches == matches[..j] + [matches[j]] + matches[j + 1..];
        LeadingHit(kind, w, matches[..j], matches[j], matches[j + 1..]);
        return value;
      }
      assert matches[..j + 1] == matches[..j] + [matches[j]];
      ValuesSnoc(kind, w, matches[..j], matches[j]);
      j := j + 1;
    }
    assert matches[..j] == matches;
    return None;
  }

  /** After hits with no plausible reading, the first plausible reading of the next ones comes first. */
  lemma FirstValueAfter(kind: Reading, w: Window, pre: seq<Hit>, mid: seq<Hit>, post: seq<Hit>)
    requires Values(kind, w, pre) == [] && FirstValue(kind, w, mid).Some?
    ensures FirstValue(kind, w, (pre + mid) + post) == FirstValue(kind, w, mid)
  {
    ValuesConcat(kind, w, pre + mid, post);
    ValuesConcat(kind, w, pre, mid);
  }

  /** One more pattern's matches taken from the hits still to go through. */
  lemma HitsOverAdvance(text: string, ps: seq<Pattern>, i: nat, done: seq<Hit>)
    requires i < |ps| && done + HitsOver(ps[i..], text) == HitsOver(ps, text)
    ensures (done + FindAll(ps[i], text, 0)) + HitsOver(ps[i + 1..], text) == HitsOver(ps, text)
    ensures WithinText(text, done) && WithinText(text, done + FindAll(ps[i], text, 0))
  {
    var matches, rest := FindAll(ps[i], text, 0), HitsOver(ps[i + 1..], text);
    assert ps[i..][1..] == ps[i + 1..];
    assert HitsOver(ps[i..], text) == matches + rest;
    assert done + (matches + rest) == (done + matches) + rest;
    assert WithinText(text, HitsOver(ps, text));
    assert WithinText(text, (done + matches) + rest);
    WithinTextPart(text, done + matches, rest, 0);
    WithinTextPart(text, done, matches, 0);
    assert (done + matches) + rest[..0] == done + matches;
  }

  /**
   * The loop the extractor writes out for each field: every pattern in turn, every match of
   * it in turn, and each plausible reading appended.
   */
  method PlausibleValues(kind: Reading, w: Window, ps: seq<Pattern>, text: string) returns (values: seq<real>)
    ensures values == Values(kind, w, HitsOver(ps, text))
  {
    values := [];
    ghost var done: seq<Hit> := [];
    var i := 0;
    assert ps[0..] == ps;
    while i < |ps|
      invariant 0 <= i <= |ps|
      invariant done + HitsOver(ps[i..], text) == HitsOver(ps, text)
      invariant values == Values(kind, w, done)
    {
      var matches := FindAll(ps[i], text, 0);
      HitsOverAdvance(text, ps, i, done);
      var vs := ValuesOf(kind, w, matches);
      ValuesConcat(kind, w, done, matches);
      values := values + vs;
      done := done + matches;
      i := i + 1;
    }
    assert done == HitsOver(ps, text);
  }

  /** A keyword-anchored amount in range is taken, the first one in pattern-then-position order. */
  lemma PrincipalKeywordFirst(text: string, k: nat)
    requires k < |HitsOver(PrincipalPatterns, text)|
    requires Accepts(Amount, PrincipalWindow, HitsOver(PrincipalPatterns, text)[k])
    requires forall j :: 0 <= j < k ==> !Accepts(Amount, PrincipalWindow, HitsOver(PrincipalPatterns, text)[j])
    ensures PrincipalOf(text) == Read(Amount, HitsOver(PrincipalPatterns, text)[k].group)
  {
    FirstValueAt(Amount, PrincipalWindow, HitsOver(PrincipalPatterns, text), k);
  }

  /**
   * With no keyword-anchored amount in range, the principal is the largest dollar amount in
   * [1000, 1e8], and there is none exactly when no dollar amount is in that range.
   */
  lemma PrincipalFallback(text: string)
    requires text != []
    requires forall j :: 0 <= j < |HitsOver(PrincipalPatterns, text)| ==>
      !Accepts(Amount, PrincipalWindow, HitsOver(PrincipalPatterns, text)[j])
    ensures var ds := HitsOver(CurrencyPatterns, text);
      (PrincipalOf(text).None? <==> forall k :: 0 <= k < |ds| ==> !Accepts(Amount, FallbackWindow, ds[k]))
      && (PrincipalOf(text).Some? ==>
            (exists k :: 0 <= k < |ds| && Accepts(Amount, FallbackWindow, ds[k])
                         && Read(Amount, ds[k].group) == PrincipalOf(text))
            && forall k :: 0 <= k < |ds| && Accepts(Amount, FallbackWindow, ds[k]) ==>
                 Read(Amount, ds[k].group).value <= PrincipalOf(text).value)
  {
    var hs, ds := HitsOver(PrincipalPatterns, text), HitsOver(CurrencyPatterns, text);
    ValuesEmpty(Amount, PrincipalWindow, hs);
    ValuesEmpty(Amount, FallbackWindow, ds);
    var amounts := Values(Amount, FallbackWindow, ds);
    if amounts != [] {
      ValuesSound(Amount, FallbackWindow, ds, MaxOf(amounts));
      forall k | 0 <= k < |ds| && Accepts(Amount, FallbackWindow, ds[k])
        ensures Read(Amount, ds[k].group).value <= MaxOf(amounts)
      {
        ValuesComplete(Amount, FallbackWindow, ds, k);
      }
    }
  }

  /** What `format(c / 100, ',.2f')` prints reads back, once its commas are dropped, as `c / 100`. */
  lemma AmountReadsFormattedCents(c: nat)
    ensures Read(Amount, FormatCents(c)) == Some(c as real / 100.0)
  {
    CentsRoundTrip(c);
  }

  // ----- parse_percentage -----

  /** The rate: the first percentage, in pattern-then-position order, whose value / 100 is in [0.001, 0.5]. */
  function RateOf(text: string): (r: Option<real>)
    ensures r.Some? ==> 0.001 <= r.value <= 0.5
  {
    if text == [] then None else FirstValue(Rate, RateWindow, HitsOver(PercentPatterns, text))
  }

  /** `parse_percentage`. */
  method ParsePercentage(text: string) returns (r: Option<real>)
    ensures r == RateOf(text)
  {
    if text == [] {
      return None;
    }
    var percentages := PlausibleValues(Rate, RateWindow, PercentPatterns, text);
    r := if percentages != [] then Some(percentages[0]) else None;
  }

  /** The rate read is that of the first plausible candidate. */
  lemma RateFirst(text: string, k: nat)
    requires k < |HitsOver(PercentPatterns, text)|
    requires Accepts(Rate, RateWindow, HitsOver(PercentPatterns, text)[k])
    requires forall j :: 0 <= j < k ==> !Accepts(Rate, RateWindow, HitsOver(PercentPatterns, text)[j])
    ensures RateOf(text) == Read(Rate, HitsOver(PercentPatterns, text)[k].group)
  {
    FirstValueAt(Rate, RateWindow, HitsOver(PercentPatterns, text), k);
  }

  /** No rate exactly when no candidate is plausible. */
  lemma RateNone(text: string)
    ensures RateOf(text).None? <==>
      forall k :: 0 <= k < |HitsOver(PercentPatterns, text)| ==> !Accepts(Rate, RateWindow, HitsOver(PercentPatterns, text)[k])
  {
    ValuesEmpty(Rate, RateWindow, HitsOver(PercentPatterns, text));
  }

  // ----- extract_interest_amount -----

  /** The stated interest: the first keyword-anchored amount in [1, 1e7]. */
  function InterestAmountOf(n: Numeral, text: string): (r: Option<real>)
    ensures r.Some? ==> 1.0 <= r.value <= 10000000.0
  {
    if text == [] then None else FirstValue(Amount, InterestWindow, HitsOver(InterestPatterns(n), text))
  }

  /**
   * `extract_interest_amount`, with the number grammar of its patterns as a parameter: the
   * source's `GroupedDigits`, or the `CommaDigits` grammar the rest of the model uses.
   */
  method ExtractInterestAmount(n: Numeral, text: string) returns (r: Option<real>)
    ensures r == InterestAmountOf(n, text)
  {
    if text == [] {
      return None;
    }
    var amounts := PlausibleValues(Amount, InterestWindow, InterestPatterns(n), text);
    r := if amounts != [] then Some(amounts[0]) else None;
  }

  /** The amount read is that of the first keyword-anchored hit in range; none exactly when there is no such hit. */
  lemma InterestAmountFirst(n: Numeral, text: string, k: nat)
    requires k < |HitsOver(InterestPatterns(n), text)|
    requires Accepts(Amount, InterestWindow, HitsOver(InterestPatterns(n), text)[k])
    requires forall j :: 0 <= j < k ==> !Accepts(Amount, InterestWindow, HitsOver(InterestPatterns(n), text)[j])
    ensures InterestAmountOf(n, text) == Read(Amount, HitsOver(InterestPatterns(n), text)[k].group)
  {
    FirstValueAt(Amount, InterestWindow, HitsOver(InterestPatterns(n), text), k);
  }

  lemma InterestAmountNone(n: Numeral, text: string)
    ensures InterestAmountOf(n, text).None? <==>
      forall k :: 0 <= k < |HitsOver(InterestPatterns(n), text)| ==>
        !Accepts(Amount, InterestWindow, HitsOver(InterestPatterns(n), text)[k])
  {
    ValuesEmpty(Amount, InterestWindow, HitsOver(InterestPatterns(n), text));
  }

  const DueKeyword: string := "interest due "
  const UnseparatedAmount: string := "13125"

  /** The keyword group of the first interest pattern matches "interest due" as its third phrase. */
  lemma InterestDueAnchor()
    ensures AnchorAt(DueKeyword + UnseparatedAmount, 0, InterestAnchors[0]) == Some(12)
    ensures OptionalDollarGap(DueKeyword + UnseparatedAmount, 12) == |DueKeyword|
  {
    var t := DueKeyword + UnseparatedAmount;
    assert t == "interest due 13125";
    assert WordAt(t, 0, "interest") by {
      assert t[..8] == "interest";
    }
    assert t[9] == 'd';
    assert !WordAt(t, 9, "amount") by { assert Lower(t[9]) != "amount"[0]; }
    assert !WordAt(t, 9, "payment") by { assert Lower(t[9]) != "payment"[0]; }
    assert WordAt(t, 9, "due") by { assert t[9..12] == "due"; }
    assert IsSpace(t[8]);
    assert SkipSpaces(t, 8) == 9;
    assert PhraseAt(t, 0, ["interest", "amount"]).None?;
    assert PhraseAt(t, 0, ["interest", "payment"]).None?;
    assert PhraseAt(t, 0, ["interest", "due"]) == Some(12);
    var alts := InterestAnchors[0];
    assert alts[2..][0] == ["interest", "due"];
    assert AnchorAt(t, 0, alts[2..]) == Some(12);
    assert alts[1..][0] == ["interest", "payment"] && alts[1..][1..] == alts[2..];
    assert AnchorAt(t, 0, alts[1..]) == Some(12);
    assert IsSpace(t[12]) && !IsSpace(t[13]) && t[13] != ':' && t[13] != '$';
    assert SkipSpaces(t, 12) == 13;
  }

  /**
   * On a notice that writes the interest without a thousands separator ("interest due 13125"),
   * the first interest pattern as the source writes it captures "131"; the corrected grammar
   * captures the whole amount.
   */
  lemma UnseparatedInterestAmount()
    ensures MatchAt(KeyedAmount(InterestAnchors[0], GroupedDigits), DueKeyword + UnseparatedAmount, 0)
              == Some(Hit(0, 16, UnseparatedAmount[..3]))
    ensures MatchAt(KeyedAmount(InterestAnchors[0], CommaDigits), DueKeyword + UnseparatedAmount, 0)
              == Some(Hit(0, 18, UnseparatedAmount))
  {
    var t := DueKeyword + UnseparatedAmount;
    InterestDueAnchor();
    assert t == DueKeyword + UnseparatedAmount + "";
    GroupedDigitsCutsRun(DueKeyword, UnseparatedAmount, "");
    CommaDigitsReadsWholeRun(DueKeyword, UnseparatedAmount, "");
    KeyedAmountMatch(InterestAnchors[0], GroupedDigits, t, 0, 13, 16);
    KeyedAmountMatch(InterestAnchors[0], CommaDigits, t, 0, 13, 18);
    assert t[13..16] == UnseparatedAmount[..3];
    assert t[13..18] == UnseparatedAmount;
  }

  /** A hit of the first interest pattern at the start of the text that is in range is the amount read. */
  lemma LeadingInterestHit(n: Numeral, text: string, h: Hit)
    requires text != []
    requires MatchAt(KeyedAmount(InterestAnchors[0], n), text, 0) == Some(h)
    requires Accepts(Amount, InterestWindow, h)
    ensures InterestAmountOf(n, text) == Read(Amount, h.group)
  {
    var ps := InterestPatterns(n);
    FindAllStep(ps[0], text, 0);
    assert HitsOver(ps, text) == FindAll(ps[0], text, 0) + HitsOver(ps[1..], text);
    assert HitsOver(ps, text)[0] == h;
    InterestAmountFirst(n, text, 0);
  }

  /** A run of digits reads as the number it denotes. */
  lemma DigitsRead(ds: string)
    requires |ds| >= 1 && AllDigits(ds)
    ensures Read(Amount, ds) == Some(DigitsValue(ds) as real)
  {
    DigitsHaveNoCommas(ds);
    ParseFloatWhole(ds);
  }

  /** What the extraction records as the notice's interest is what `extract_interest_amount` reads. */
  lemma ExtractionInterest(n: Numeral, text: string)
    ensures Extraction(n, text).noticeInterestAmount == InterestAmountOf(n, text)
  {
  }

  /** The value of a five-digit run, and of its first three digits, by place. */
  lemma FiveDigitPlaces(s: string)
    requires |s| == 5 && AllDigits(s)
    ensures DigitsValue(s[..3]) == DigitValue(s[0]) * 100 + DigitValue(s[1]) * 10 + DigitValue(s[2])
    ensures DigitsValue(s) == DigitsValue(s[..3]) * 100 + DigitValue(s[3]) * 10 + DigitValue(s[4])
  {
    assert s[..1][..0] == [] && s[..2][..1] == s[..1] && s[..3][..2] == s[..2];
    assert DigitsValue(s[..1]) == DigitValue(s[0]);
    assert DigitsValue(s[..2]) == DigitsValue(s[..1]) * 10 + DigitValue(s[1]);
    assert DigitsValue(s[..3]) == DigitsValue(s[..2]) * 10 + DigitValue(s[2]);
    assert s[..4][..3] == s[..3];
    assert DigitsValue(s[..4]) == DigitsValue(s[..3]) * 10 + DigitValue(s[3]);
    assert DigitsValue(s) == DigitsValue(s[..4]) * 10 + DigitValue(s[4]);
  }

  /** The two captures of "interest due 13125" read as 131 and as 13125. */
  lemma UnseparatedReadings()
    ensures Read(Amount, UnseparatedAmount[..3]) == Some(131.0)
    ensures Read(Amount, UnseparatedAmount) == Some(13125.0)
  {
    FiveDigitPlaces(UnseparatedAmount);
    DigitsRead(UnseparatedAmount[..3]);
    DigitsRead(UnseparatedAmount);
  }

  /**
   * End to end: on "interest due 13125", `extract_interest_amount` as written reads 131, so the
   * record `extract_loan_data` builds says 131; the corrected grammar reads 13125.
   */
  lemma UnseparatedInterestExtraction()
    ensures InterestAmountOf(GroupedDigits, DueKeyword + UnseparatedAmount) == Some(131.0)
    ensures InterestAmountOf(CommaDigits, DueKeyword + UnseparatedAmount) == Some(13125.0)
    ensures Extraction(GroupedDigits, DueKeyword + UnseparatedAmount).noticeInterestAmount == Some(131.0)
    ensures Extraction(CommaDigits, DueKeyword + UnseparatedAmount).noticeInterestAmount == Some(13125.0)
  {
    var t := DueKeyword + UnseparatedAmount;
    UnseparatedInterestAmount();
    UnseparatedReadings();
    LeadingInterestHit(GroupedDigits, t, Hit(0, 16, UnseparatedAmount[..3]));
    LeadingInterestHit(CommaDigits, t, Hit(0, 18, UnseparatedAmount));
    ExtractionInterest(GroupedDigits, t);
    ExtractionInterest(CommaDigits, t);
  }

  // ----- parse_date -----

  /** The first format of `fmts` that `strptime` accepts on `s`. */
  function FirstFormat(s: string, fmts: seq<seq<Directive>>): (r: Option<CalDate>)
    // The measure names `s` as well, so that the fixed list of formats is not unrolled
    // wherever a date is read from a text that is not itself a literal.
    decreases |fmts|, |s|
  {
    if fmts == [] then None
    else
      match Strptime(s, fmts[0])
      case Some(d) => Some(d)
      case None => FirstFormat(s, fmts[1..])
  }

  /** The first format wins: a date is what some format reads, and there is none exactly when every format fails. */
  lemma {:induction false} FirstFormatSpec(s: string, fmts: seq<seq<Directive>>)
    ensures FirstFormat(s, fmts).Some? ==> exists k :: 0 <= k < |fmts| && Strptime(s, fmts[k]) == FirstFormat(s, fmts)
    ensures FirstFormat(s, fmts).None? <==> forall k :: 0 <= k < |fmts| ==> Strptime(s, fmts[k]).None?
    decreases |fmts|
  {
    if fmts != [] {
      FirstFormatSpec(s, fmts[1..]);
      assert forall k :: 1 <= k < |fmts| ==> fmts[k] == fmts[1..][k - 1];
      if Strptime(s, fmts[0]).None? && FirstFormat(s, fmts).Some? {
        var k :| 0 <= k < |fmts[1..]| && Strptime(s, fmts[1..][k]) == FirstFormat(s, fmts[1..]);
        assert Strptime(s, fmts[k + 1]) == FirstFormat(s, fmts);
      }
    }
  }

  /** What `parse_date` returns: `None` for empty text, else the first format that reads the stripped text. */
  function DateOf(text: string): Option<CalDate> {
    if text == [] then None else FirstFormat(Strip(text), DateFormats)
  }

  /** `parse_date`: try each format in turn and return the first date `strptime` produces. */
  method ParseDate(text: string) returns (r: Option<CalDate>)
    ensures r == DateOf(text)
  {
    if text == [] {
      return None;
    }
    var s := Strip(text);
    var i := 0;
    while i < |DateFormats|
      invariant 0 <= i <= |DateFormats|
      invariant FirstFormat(s, DateFormats[i..]) == DateOf(text)
    {
      assert DateFormats[i..][1..] == DateFormats[i + 1..];
      var parsed := Strptime(s, DateFormats[i]);
      if parsed.Some? {
        return parsed;
      }
      i := i + 1;
    }
    return None;
  }

  /** The formats are tried in order: the date is that of the first format that accepts the stripped text. */
  lemma DateOfFirstFormat(text: string, k: nat)
    requires text != [] && k < |DateFormats|
    requires Strptime(Strip(text), DateFormats[k]).Some?
    requires forall j :: 0 <= j < k ==> Strptime(Strip(text), DateFormats[j]).None?
    ensures DateOf(text) == Strptime(Strip(text), DateFormats[k])
  {
    var s := Strip(text);
    var i := 0;
    while i < k
      invariant 0 <= i <= k
      invariant FirstFormat(s, DateFormats[i..]) == FirstFormat(s, DateFormats)
    {
      assert DateFormats[i..][1..] == DateFormats[i + 1..];
      i := i + 1;
    }
  }

  /** A numeric date as `strftime('%m/%d/%Y')` writes it reads back as that date. */
  lemma DateOfRoundTrip(d: CalDate)
    requires d.year >= 1000
    ensures DateOf(FormatMDY(d)) == Some(d)
  {
    var s := FormatMDY(d);
    assert IsDigit(s[0]) && IsDigit(s[9]) by {
      NatToStringLength4(d.year);
      assert s[0] == TwoDigits(d.month)[0];
      assert s[9] == NatToString(d.year)[3];
    }
    assert SkipSpaces(s, 0) == 0 && TrimEnd(s, |s|) == |s|;
    assert Strip(s) == s;
    FormatMDYRoundTrip(d);
    assert DateFormats[0] == SlashMDY;
  }

  // ----- extract_dates -----

  /**
   * The ±50-character window around a match, lower-cased, mentions "notice" or
   * "reference": the match is likely a notice date and is skipped.
   */
  predicate Flagged(text: string, h: Hit)
    requires h.start <= h.end <= |text|
  {
    var contextStart := if h.start >= 50 then h.start - 50 else 0;
    var contextEnd := if h.end + 50 <= |text| then h.end + 50 else |text|;
    var context := LowerString(text[contextStart..contextEnd]);
    Contains(context, "notice") || Contains(context, "reference")
  }

  predicate WithinText(text: string, hs: seq<Hit>) {
    forall k :: 0 <= k < |hs| ==> hs[k].start < hs[k].end <= |text|
  }

  /** A parsed date passes the screen: always for the keyed dates, for the others only outside a notice context. */
  predicate Admits(text: string, h: Hit, screened: bool)
    requires h.start <= h.end <= |text|
  {
    !screened || !Flagged(text, h)
  }

  /**
   * The dates read from the hits, each kept once, in the order first seen; with `screened`,
   * only those whose first admissible occurrence is outside a notice context.
   */
  function CollectDates(text: string, hs: seq<Hit>, screened: bool): (ds: seq<CalDate>)
    requires WithinText(text, hs)
    decreases |hs|, 1
  {
    if hs == [] then [] else CollectLast(text, hs, screened)
  }

  /**
   * `CollectDates` on a non-empty list: the date of the last hit added to those of the others.
   * A function of its own, so that a proof sees one step of the collection only where it asks for it.
   */
  function CollectLast(text: string, hs: seq<Hit>, screened: bool): (ds: seq<CalDate>)
    requires WithinText(text, hs) && hs != []
    decreases |hs|, 0
  {
    var prev := CollectDates(text, hs[..|hs| - 1], screened);
    var last := hs[|hs| - 1];
    var d := DateOf(last.group);
    if d.Some? && d.value !in prev && Admits(text, last, screened) then prev + [d.value] else prev
  }

  lemma CollectDatesSnoc(text: string, hs: seq<Hit>, h: Hit, screened: bool)
    requires WithinText(text, hs + [h])
    ensures WithinText(text, hs) && h.start < h.end <= |text|
    ensures var prev := CollectDates(text, hs, screened); var d := DateOf(h.group);
      CollectDates(text, hs + [h], screened)
      == if d.Some? && d.value !in prev && Admits(text, h, screened) then prev + [d.value] else prev
  {
    assert (hs + [h])[..|hs|] == hs;
    assert forall k :: 0 <= k < |hs| ==> hs[k] == (hs + [h])[k];
    assert (hs + [h])[|hs|] == h;
    assert CollectDates(text, hs + [h], screened) == CollectLast(text, hs + [h], screened);
  }

  /** No date is collected twice. */
  lemma {:induction false} CollectDatesDistinct(text: string, hs: seq<Hit>, screened: bool)
    requires WithinText(text, hs)
    ensures Distinct(CollectDates(text, hs, screened))
    decreases |hs|
  {
    if hs != [] {
      var front, last := hs[..|hs| - 1], hs[|hs| - 1];
      assert hs == front + [last];
      CollectDatesSnoc(text, front, last, screened);
      CollectDatesDistinct(text, front, screened);
    }
  }

  /** Every collected date is read from an admissible hit. */
  lemma {:induction false} CollectDatesSound(text: string, hs: seq<Hit>, screened: bool, d: CalDate)
    requires WithinText(text, hs) && d in CollectDates(text, hs, screened)
    ensures exists k :: 0 <= k < |hs| && DateOf(hs[k].group) == Some(d) && Admits(text, hs[k], screened)
    decreases |hs|
  {
    var front := hs[..|hs| - 1];
    assert WithinText(text, front);
    if d in CollectDates(text, front, screened) {
      CollectDatesSound(text, front, screened, d);
      var k :| 0 <= k < |front| && DateOf(front[k].group) == Some(d) && Admits(text, front[k], screened);
      assert hs[k] == front[k];
    }
  }

  /** Every date read from an admissible hit is collected. */
  lemma {:induction false} CollectDatesComplete(text: string, hs: seq<Hit>, screened: bool, k: nat)
    requires WithinText(text, hs) && k < |hs|
    requires DateOf(hs[k].group).Some? && Admits(text, hs[k], screened)
    ensures DateOf(hs[k].group).value in CollectDates(text, hs, screened)
    decreases |hs|
  {
    var front, last := hs[..|hs| - 1], hs[|hs| - 1];
    assert hs == front + [last];
    CollectDatesSnoc(text, front, last, screened);
    if k < |hs| - 1 {
      assert front[k] == hs[k];
      CollectDatesComplete(text, front, screened, k);
    }
  }

  /** The dates of the interest-period patterns. */
  function KeyedDates(text: string): seq<CalDate> {
    CollectDates(text, HitsOver(InterestDatePatterns, text), false)
  }

  /** The dates of the general patterns, notice dates screened out. */
  function GeneralDates(text: string): seq<CalDate> {
    CollectDates(text, HitsOver(GeneralDatePatterns, text), true)
  }

  /** The dates chosen among: the keyed ones when there are at least two, else the general ones. */
  function CandidateDates(text: string): (ds: seq<CalDate>)
    ensures Distinct(ds)
  {
    CollectDatesDistinct(text, HitsOver(InterestDatePatterns, text), false);
    CollectDatesDistinct(text, HitsOver(GeneralDatePatterns, text), true);
    if |KeyedDates(text)| >= 2 then KeyedDates(text) else GeneralDates(text)
  }

  /** The first two of a list, or the whole list when it is shorter. */
  function FirstTwo(s: seq<CalDate>): (r: seq<CalDate>)
    ensures |r| == if |s| >= 2 then 2 else |s|
    ensures r == s[..|r|]
  {
    if |s| >= 2 then s[..2] else s
  }

  /** What `extract_dates` returns: the two earliest candidates, in chronological order. */
  function DatesOf(text: string): (ds: seq<CalDate>)
    ensures |ds| <= 2 && Increasing(ds)
    ensures |ds| == 2 ==> Before(ds[0], ds[1])
  {
    SortDatesIncreasing(CandidateDates(text));
    FirstTwo(SortDates(CandidateDates(text)))
  }

  /** The context test of the general-pattern loop: the ±50 window around `m`, lower-cased, mentions neither word. */
  method OutsideNotice(text: string, m: Hit) returns (clear: bool)
    requires m.start <= m.end <= |text|
    ensures clear <==> !Flagged(text, m)
  {
    var contextStart := if m.start >= 50 then m.start - 50 else 0;
    var contextEnd := if m.end + 50 <= |text| then m.end + 50 else |text|;
    var context := LowerString(text[contextStart..contextEnd]);
    clear := !Contains(context, "notice") && !Contains(context, "reference");
  }

  /** A prefix of hits within the text, followed by part of the rest, is within the text. */
  lemma WithinTextPart(text: string, done: seq<Hit>, rest: seq<Hit>, j: nat)
    requires WithinText(text, done + rest) && j <= |rest|
    ensures WithinText(text, done) && WithinText(text, done + rest[..j])
  {
    assert forall k :: 0 <= k < |done| ==> done[k] == (done + rest)[k];
    assert forall k :: 0 <= k < |done| + j ==> (done + rest[..j])[k] == (done + rest)[k];
  }

  /**
   * The inner loop of `CollectDatesFrom`, over one pattern's matches: `dates0` collected
   * from the hits `done` before them grows to what is collected from `done + matches`.
   */
  method CollectDatesOver(text: string, matches: seq<Hit>, screened: bool, ghost done: seq<Hit>, dates0: seq<CalDate>)
    returns (dates: seq<CalDate>)
    requires WithinText(text, done + matches) && WithinText(text, done)
    requires dates0 == CollectDates(text, done, screened)
    ensures dates == CollectDates(text, done + matches, screened)
  {
    dates := dates0;
    var j := 0;
    assert done + matches[..0] == done;
    while j < |matches|
      invariant 0 <= j <= |matches|
      invariant WithinText(text, done + matches[..j])
      invariant dates == CollectDates(text, done + matches[..j], screened)
    {
      WithinTextPart(text, done, matches, j + 1);
      assert done + matches[..j + 1] == (done + matches[..j]) + [matches[j]];
      dates := CollectDate(text, matches[j], screened, done + matches[..j], dates);
      j := j + 1;
    }
    assert matches[..j] == matches;
  }

  /** The body of the inner loop: the date of one match, added when it is new and, if screened, outside a notice. */
  method CollectDate(text: string, m: Hit, screened: bool, ghost hs: seq<Hit>, dates0: seq<CalDate>)
    returns (dates: seq<CalDate>)
    requires WithinText(text, hs + [m])
    requires WithinText(text, hs) && dates0 == CollectDates(text, hs, screened)
    ensures dates == CollectDates(text, hs + [m], screened)
  {
    CollectDatesSnoc(text, hs, m, screened);
    dates := dates0;
    var parsed := ParseDate(m.group);
    if parsed.Some? && parsed.value !in dates {
      if screened {
        var clear := OutsideNotice(text, m);
        if clear {
          dates := dates + [parsed.value];
        }
      } else {
        dates := dates + [parsed.value];
      }
    }
  }

  /** The loop over patterns and matches that fills `interest_dates` or `all_dates`. */
  method CollectDatesFrom(text: string, ps: seq<Pattern>, screened: bool) returns (dates: seq<CalDate>)
    ensures dates == CollectDates(text, HitsOver(ps, text), screened)
  {
    dates := [];
    ghost var done: seq<Hit> := [];
    var i := 0;
    assert ps[0..] == ps;
    while i < |ps|
      invariant 0 <= i <= |ps|
      invariant done + HitsOver(ps[i..], text) == HitsOver(ps, text)
      invariant WithinText(text, done)
      invariant dates == CollectDates(text, done, screened)
    {
      var matches := FindAll(ps[i], text, 0);
      HitsOverAdvance(text, ps, i, done);
      dates := CollectDatesOver(text, matches, screened, done, dates);
      done := done + matches;
      i := i + 1;
    }
    assert done == HitsOver(ps, text);
  }

  /** `extract_dates`. */
  method ExtractDates(text: string) returns (dates: seq<CalDate>)
    ensures dates == DatesOf(text)
  {
    var interestDates := CollectDatesFrom(text, InterestDatePatterns, false);
    if |interestDates| >= 2 {
      interestDates := SortDates(interestDates);
      return interestDates[..2];
    }
    var allDates := CollectDatesFrom(text, GeneralDatePatterns, true);
    allDates := SortDates(allDates);
    dates := if |allDates| >= 2 then allDates[..2] else allDates;
  }

  /**
   * The dates returned are the earliest candidates: each is a candidate, and a candidate left
   * out comes after both of them.
   */
  lemma DatesOfEarliest(text: string)
    ensures forall d :: d in DatesOf(text) ==> d in CandidateDates(text)
    ensures forall d :: d in CandidateDates(text) && d !in DatesOf(text) ==>
      |DatesOf(text)| == 2 && Before(DatesOf(text)[1], d)
    ensures |DatesOf(text)| == if |CandidateDates(text)| >= 2 then 2 else |CandidateDates(text)|
  {
    var c := CandidateDates(text);
    var s := SortDates(c);
    SortDatesIncreasing(c);
    forall d | d in DatesOf(text) ensures d in c {
      assert d in s;
      assert d in multiset(s);
    }
    forall d | d in c && d !in DatesOf(text)
      ensures |DatesOf(text)| == 2 && Before(DatesOf(text)[1], d)
    {
      assert d in multiset(c);
      assert d in multiset(s);
      var k :| 0 <= k < |s| && s[k] == d;
      assert k >= 2;
    }
  }

  /** Each candidate was read from a match, and a fallback candidate from one outside a notice context. */
  lemma CandidatesFromMatches(text: string, d: CalDate)
    requires d in CandidateDates(text)
    ensures |KeyedDates(text)| >= 2 ==>
      exists k :: 0 <= k < |HitsOver(InterestDatePatterns, text)|
        && DateOf(HitsOver(InterestDatePatterns, text)[k].group) == Some(d)
    ensures |KeyedDates(text)| < 2 ==>
      exists k :: 0 <= k < |HitsOver(GeneralDatePatterns, text)|
        && DateOf(HitsOver(GeneralDatePatterns, text)[k].group) == Some(d)
        && !Flagged(text, HitsOver(GeneralDatePatterns, text)[k])
  {
    if |KeyedDates(text)| >= 2 {
      CollectDatesSound(text, HitsOver(InterestDatePatterns, text), false, d);
    } else {
      CollectDatesSound(text, HitsOver(GeneralDatePatterns, text), true, d);
    }
  }

  /** A general-pattern match outside a notice context that reads as a date makes that date a fallback candidate. */
  lemma UnflaggedDatesAreCandidates(text: string, k: nat)
    requires |KeyedDates(text)| < 2
    requires k < |HitsOver(GeneralDatePatterns, text)|
    requires DateOf(HitsOver(GeneralDatePatterns, text)[k].group).Some?
    requires !Flagged(text, HitsOver(GeneralDatePatterns, text)[k])
    ensures DateOf(HitsOver(GeneralDatePatterns, text)[k].group).value in CandidateDates(text)
  {
    CollectDatesComplete(text, HitsOver(GeneralDatePatterns, text), true, k);
  }

  // ----- ExtractedData and extract_loan_data -----

  /** The fields of an `ExtractedData`, as a value. */
  datatype Record = Record(principalAmount: Option<real>, interestRate: Option<real>,
                           startDate: Option<CalDate>, endDate: Option<CalDate>,
                           noticeInterestAmount: Option<real>, extractionConfidence: map<string, real>)

  /** The result of extraction, filled in field by field. */
  class ExtractedData {
    var principalAmount: Option<real>
    var interestRate: Option<real>
    var startDate: Option<CalDate>
    var endDate: Option<CalDate>
    var noticeInterestAmount: Option<real>
    var extractionConfidence: map<string, real>

    constructor ()
      ensures Snapshot() == Record(None, None, None, None, None, map[])
    {
      principalAmount := None;
      interestRate := None;
      startDate := None;
      endDate := None;
      noticeInterestAmount := None;
      extractionConfidence := map[];
    }

    function Snapshot(): Record
      reads this
    {
      Record(principalAmount, interestRate, startDate, endDate, noticeInterestAmount, extractionConfidence)
    }
  }

  /** The text `extract_loan_data` builds: each page that has text, followed by a newline. */
  function JoinPages(pages: seq<string>): string
    decreases |pages|
  {
    if pages == [] then ""
    else
      var last := pages[|pages| - 1];
      JoinPages(pages[..|pages| - 1]) + (if last != "" then last + "\n" else "")
  }

  const NoTextMessage: string := "Failed to extract data from PDF: No text could be extracted from the PDF"

  /**
   * The record `extract_loan_data` fills in from the text, with the confidence of each field it set.
   * `GroupedDigits` reads the interest amount as the program does, `CommaDigits` as it evidently intends.
   */
  function Extraction(n: Numeral, text: string): Record {
    Assemble(PrincipalOf(text), RateOf(text), DatesOf(text), InterestAmountOf(n, text))
  }

  /** The record built from what each extractor found, with the confidence of each field set. */
  function Assemble(principal: Option<real>, rate: Option<real>, dates: seq<CalDate>, interest: Option<real>): Record {
    var c1 := if principal.Some? then map["principal" := 0.8] else map[];
    var c2 := if rate.Some? then c1["rate" := 0.8] else c1;
    var c3 := if |dates| >= 2 then c2["dates" := 0.7] else c2;
    var c4 := if interest.Some? then c3["interest_amount" := 0.8] else c3;
    Record(principal, rate, if |dates| >= 2 then Some(dates[0]) else None,
           if |dates| >= 2 then Some(dates[1]) else None, interest, c4)
  }

  /**
   * `extract_loan_data` from the text of each page (`""` where a page has none): the error
   * when no page has any text but whitespace, else a fresh `ExtractedData` filled in.
   */
  method ExtractLoanData(n: Numeral, pages: seq<string>) returns (r: Result<ExtractedData, string>)
    ensures r.Failure? <==> IsBlank(JoinPages(pages))
    ensures r.Failure? ==> r.error == NoTextMessage
    ensures r.Success? ==> fresh(r.value) && r.value.Snapshot() == Extraction(n, JoinPages(pages))
  {
    var extractedData := new ExtractedData();
    var fullText := "";
    var k := 0;
    while k < |pages|
      invariant 0 <= k <= |pages|
      invariant fullText == JoinPages(pages[..k])
    {
      assert pages[..k + 1][..k] == pages[..k];
      if pages[k] != "" {
        fullText := fullText + pages[k] + "\n";
      }
      k := k + 1;
    }
    assert pages[..k] == pages;
    if Strip(fullText) == [] {
      return Failure(NoTextMessage);
    }
    var principal := ParseCurrencyAmount(fullText);
    var rate := ParsePercentage(fullText);
    var dates := ExtractDates(fullText);
    var interestAmount := ExtractInterestAmount(n, fullText);
    FillIn(extractedData, principal, rate, dates, interestAmount);
    return Success(extractedData);
  }

  method FillIn(extractedData: ExtractedData, principal: Option<real>, rate: Option<real>, dates: seq<CalDate>, interestAmount: Option<real>)
    requires extractedData.Snapshot() == Record(None, None, None, None, None, map[])
    modifies extractedData
    ensures extractedData.Snapshot() == Assemble(principal, rate, dates, interestAmount)
  {
    if principal.Some? {
      extractedData.principalAmount := principal;
      extractedData.extractionConfidence := extractedData.extractionConfidence["principal" := 0.8];
    }
    if rate.Some? {
      extractedData.interestRate := rate;
      extractedData.extractionConfidence := extractedData.extractionConfidence["rate" := 0.8];
    }
    if |dates| >= 2 {
      extractedData.startDate := Some(dates[0]);
      extractedData.endDate := Some(dates[1]);
      extractedData.extractionConfidence := extractedData.extractionConfidence["dates" := 0.7];
    }
    if interestAmount.Some? {
      extractedData.noticeInterestAmount := interestAmount;
      extractedData.extractionConfidence := extractedData.extractionConfidence["interest_amount" := 0.8];
    }
  }

  lemma BlankConcat(a: string, b: string)
    ensures IsBlank(a + b) <==> IsBlank(a) && IsBlank(b)
  {
    assert forall k :: 0 <= k < |a| ==> (a + b)[k] == a[k];
    assert forall k :: 0 <= k < |b| ==> (a + b)[|a| + k] == b[k];
  }

  /** Extraction fails exactly when every page is empty or whitespace. */
  lemma {:induction false} JoinPagesBlank(pages: seq<string>)
    ensures IsBlank(JoinPages(pages)) <==> forall k :: 0 <= k < |pages| ==> IsBlank(pages[k])
    decreases |pages|
  {
    if pages != [] {
      var front, last := pages[..|pages| - 1], pages[|pages| - 1];
      JoinPagesBlank(front);
      assert forall k :: 0 <= k < |front| ==> front[k] == pages[k];
      assert (forall k :: 0 <= k < |pages| ==> IsBlank(pages[k]))
         <==> (forall k :: 0 <= k < |front| ==> IsBlank(front[k])) && IsBlank(last);
      if last != "" {
        BlankConcat(JoinPages(front), last + "\n");
        BlankConcat(last, "\n");
      } else {
        assert JoinPages(pages) == JoinPages(front) + "";
        assert JoinPages(front) + "" == JoinPages(front);
      }
    }
  }

  lemma ConfidenceKeysDistinct()
    ensures "principal" != "rate" && "principal" != "dates" && "principal" != "interest_amount"
    ensures "rate" != "dates" && "rate" != "interest_amount" && "dates" != "interest_amount"
  {
    assert "principal"[0] != "rate"[0] && "principal"[0] != "dates"[0] && "principal"[0] != "interest_amount"[0];
    assert "rate"[0] != "dates"[0] && "rate"[0] != "interest_amount"[0] && "dates"[0] != "interest_amount"[0];
  }

  /**
   * A confidence score exists exactly for each field that was found: 0.8 for the principal,
   * the rate and the interest amount, 0.7 for the dates. The dates come as a pair, in order.
   */
  lemma AssembleConfidence(principal: Option<real>, rate: Option<real>, dates: seq<CalDate>, interest: Option<real>)
    requires |dates| >= 2 ==> Before(dates[0], dates[1])
    ensures var r := Assemble(principal, rate, dates, interest);
      r.extractionConfidence.Keys <= {"principal", "rate", "dates", "interest_amount"}
      && ("principal" in r.extractionConfidence <==> r.principalAmount.Some?)
      && ("rate" in r.extractionConfidence <==> r.interestRate.Some?)
      && ("dates" in r.extractionConfidence <==> r.startDate.Some?)
      && ("interest_amount" in r.extractionConfidence <==> r.noticeInterestAmount.Some?)
      && ("principal" in r.extractionConfidence ==> r.extractionConfidence["principal"] == 0.8)
      && ("rate" in r.extractionConfidence ==> r.extractionConfidence["rate"] == 0.8)
      && ("dates" in r.extractionConfidence ==> r.extractionConfidence["dates"] == 0.7)
      && ("interest_amount" in r.extractionConfidence ==> r.extractionConfidence["interest_amount"] == 0.8)
      && (r.startDate.Some? <==> r.endDate.Some?)
      && (r.startDate.Some? ==> Before(r.startDate.value, r.endDate.value))
  {
    ConfidenceKeysDistinct();
  }

  /** The same for the record extracted from a text. */
  lemma ExtractionConfidence(n: Numeral, text: string)
    ensures var r := Extraction(n, text);
      r.extractionConfidence.Keys <= {"principal", "rate", "dates", "interest_amount"}
      && ("principal" in r.extractionConfidence <==> r.principalAmount.Some?)
      && ("rate" in r.extractionConfidence <==> r.interestRate.Some?)
      && ("dates" in r.extractionConfidence <==> r.startDate.Some?)
      && ("interest_amount" in r.extractionConfidence <==> r.noticeInterestAmount.Some?)
      && ("principal" in r.extractionConfidence ==> r.extractionConfidence["principal"] == 0.8)
      && ("rate" in r.extractionConfidence ==> r.extractionConfidence["rate"] == 0.8)
      && ("dates" in r.extractionConfidence ==> r.extractionConfidence["dates"] == 0.7)
      && ("interest_amount" in r.extractionConfidence ==> r.extractionConfidence["interest_amount"] == 0.8)
      && (r.startDate.Some? ==> Before(r.startDate.value, r.endDate.value))
  {
    AssembleConfidence(PrincipalOf(text), RateOf(text), DatesOf(text), InterestAmountOf(n, text));
  }

  /** Every field found lies in its plausibility window, and the dates are the two earliest candidates. */
  lemma ExtractionRanges(n: Numeral, text: string)
    ensures var r := Extraction(n, text);
      (r.principalAmount.Some? ==> 1000.0 <= r.principalAmount.value <= 1000000000.0)
      && (r.interestRate.Some? ==> 0.001 <= r.interestRate.value <= 0.5)
      && (r.noticeInterestAmount.Some? ==> 1.0 <= r.noticeInterestAmount.value <= 10000000.0)
      && (r.startDate.Some? <==> |CandidateDates(text)| >= 2)
      && (r.startDate.Some? ==> r.startDate.value in CandidateDates(text) && r.endDate.value in CandidateDates(text))
  {
    DatesOfEarliest(text);
  }
}
