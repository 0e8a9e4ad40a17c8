/**
 * Decimal numerals: reading them the way `int()` and `float()` do on the digit strings the
 * extractor captures, and writing them the way `str(n)` and the `:,.2f` format do.
 */
module Numerals {
  import opened Wrappers
  import opened Text

  predicate AllDigits(s: string) {
    forall k :: 0 <= k < |s| ==> IsDigit(s[k])
  }

  function DigitValue(c: char): (d: nat)
    requires IsDigit(c)
    ensures d < 10
  {
    c as int - '0' as int
  }

  function DigitChar(d: nat): (c: char)
    requires d < 10
    ensures IsDigit(c) && DigitValue(c) == d
  {
    ('0' as int + d) as char
  }

  /** The number a run of decimal digits denotes (`int(s)`, with 0 for the empty run). */
  function DigitsValue(s: string): nat
    requires AllDigits(s)
    decreases |s|
  {
    if s == [] then 0 else DigitsValue(s[..|s| - 1]) * 10 + DigitValue(s[|s| - 1])
  }

  /** The value of the digits after a decimal point: `0.d1d2...` for the run `d1d2...`. */
  function FractionValue(s: string): (f: real)
    requires AllDigits(s)
    ensures 0.0 <= f <= 1.0
  {
    if s == [] then 0.0 else (DigitValue(s[0]) as real + FractionValue(s[1..])) / 10.0
  }

  /** `str(n)` for a natural number. */
  function NatToString(n: nat): (s: string)
    ensures |s| >= 1 && AllDigits(s)
  {
    if n < 10 then [DigitChar(n)] else NatToString(n / 10) + [DigitChar(n % 10)]
  }

  /** `str(n)` for any integer: a minus sign before the digits of a negative number. */
  function IntToString(n: int): (s: string)
    ensures |s| >= 1
    ensures n < 0 <==> s[0] == '-'
  {
    if n < 0 then "-" + NatToString(-n) else NatToString(n)
  }

  /** `"%02d" % n`. */
  function TwoDigits(n: nat): (s: string)
    requires n < 100
    ensures |s| == 2 && AllDigits(s) && DigitsValue(s) == n
  {
    var s := [DigitChar(n / 10), DigitChar(n % 10)];
    assert s[..1] == [DigitChar(n / 10)] && s[..1][..0] == [];
    assert DigitsValue(s[..1]) == n / 10;
    s
  }

  /** `s.replace(',', '')`. */
  function StripCommas(s: string): (r: string)
    ensures |r| <= |s|
  {
    if s == [] then [] else (if s[0] == ',' then [] else [s[0]]) + StripCommas(s[1..])
  }

  /** The first position of `c` in `s`, or `|s|` when there is none (`s.find(c)` with -1 mapped to `|s|`). */
  function IndexOf(s: string, c: char): (k: nat)
    ensures k <= |s|
    ensures k < |s| ==> s[k] == c
    ensures forall j :: 0 <= j < k ==> s[j] != c
  {
    if s == [] then 0 else if s[0] == c then 0 else 1 + IndexOf(s[1..], c)
  }

  /**
   * `float(s)` on the strings the extractor hands it, which are made of digits and points:
   * one optional point splits the whole part from the fraction, and at least one digit is
   * needed. Anything else raises `ValueError` in the source and is `None` here.
   */
  function ParseFloat(s: string): (r: Option<real>)
    ensures r.Some? ==> r.value >= 0.0
  {
    var k := IndexOf(s, '.');
    var whole := s[..k];
    var frac := if k < |s| then s[k + 1..] else "";
    if AllDigits(whole) && AllDigits(frac) && |whole| + |frac| >= 1 then
      Some(DigitsValue(whole) as real + FractionValue(frac))
    else
      None
  }

  /** The whole part of `format(x, ',.2f')`: a comma before each group of three digits from the right. */
  function GroupThousands(ds: string): (r: string)
    decreases |ds|
  {
    if |ds| <= 3 then ds else GroupThousands(ds[..|ds| - 3]) + "," + ds[|ds| - 3..]
  }

  /** `format(c / 100, ',.2f')` for a whole number of cents `c >= 0`. */
  function FormatCents(c: nat): string {
    GroupThousands(NatToString(c / 100)) + "." + TwoDigits(c % 100)
  }

  /** `str(n)` reads back as `n`. */
  lemma {:induction false} NatToStringRoundTrip(n: nat)
    ensures DigitsValue(NatToString(n)) == n
  {
    if n >= 10 {
      var s := NatToString(n);
      assert s[..|s| - 1] == NatToString(n / 10);
      NatToStringRoundTrip(n / 10);
    }
  }

  /** No comma is left, and a string without commas is unchanged. */
  lemma {:induction false} StripCommasSpec(s: string)
    ensures ',' !in StripCommas(s)
    ensures ',' !in s ==> StripCommas(s) == s
    decreases |s|
  {
    if s != [] {
      StripCommasSpec(s[1..]);
      assert s == [s[0]] + s[1..];
    }
  }

  lemma {:induction false} StripCommasConcat(a: string, b: string)
    ensures StripCommas(a + b) == StripCommas(a) + StripCommas(b)
    decreases |a|
  {
    if a == [] {
      assert a + b == b;
    } else {
      assert (a + b)[0] == a[0];
      assert (a + b)[1..] == a[1..] + b;
      StripCommasConcat(a[1..], b);
    }
  }

  /** A run of digits has no comma to remove. */
  lemma DigitsHaveNoCommas(ds: string)
    requires AllDigits(ds)
    ensures StripCommas(ds) == ds
  {
    assert forall k :: 0 <= k < |ds| ==> ds[k] != ',' by {
      forall k | 0 <= k < |ds| ensures ds[k] != ',' { assert IsDigit(ds[k]); }
    }
    StripCommasSpec(ds);
  }

  /** Both parts of a run of digits are runs of digits. */
  lemma AllDigitsSplit(ds: string, n: nat)
    requires AllDigits(ds) && n <= |ds|
    ensures AllDigits(ds[..n]) && AllDigits(ds[n..])
  {
    assert forall k :: 0 <= k < n ==> ds[..n][k] == ds[k];
    assert forall k :: 0 <= k < |ds| - n ==> ds[n..][k] == ds[n + k];
  }

  /** The commas removed from a group, a separator and three more digits. */
  lemma StripCommasGroup(g: string, tail: string)
    requires AllDigits(tail)
    ensures StripCommas((g + ",") + tail) == StripCommas(g) + tail
  {
    DigitsHaveNoCommas(tail);
    StripCommasConcat(g + ",", tail);
    StripCommasConcat(g, ",");
    assert StripCommas(",") == [] by {
      assert ","[1..] == [];
    }
    assert StripCommas(g) + [] == StripCommas(g);
  }

  /** Removing the commas of a grouped numeral gives back its digits. */
  lemma {:induction false} GroupThousandsStrip(ds: string)
    requires AllDigits(ds)
    ensures StripCommas(GroupThousands(ds)) == ds
    decreases |ds|
  {
    if |ds| <= 3 {
      DigitsHaveNoCommas(ds);
    } else {
      var n := |ds| - 3;
      AllDigitsSplit(ds, n);
      var g := GroupThousands(ds[..n]);
      assert GroupThousands(ds) == (g + ",") + ds[n..];
      GroupThousandsStrip(ds[..n]);
      StripCommasGroup(g, ds[n..]);
      assert ds[..n] + ds[n..] == ds;
    }
  }

  /** A grouped numeral is made of digits and commas only. */
  lemma {:induction false} GroupThousandsShape(ds: string)
    requires AllDigits(ds)
    ensures forall k :: 0 <= k < |GroupThousands(ds)| ==> IsDigit(GroupThousands(ds)[k]) || GroupThousands(ds)[k] == ','
    ensures |GroupThousands(ds)| >= |ds|
    decreases |ds|
  {
    if |ds| > 3 {
      GroupThousandsShape(ds[..|ds| - 3]);
    }
  }

  /** Digits without a point read as the whole number they denote. */
  lemma {:induction false} ParseFloatWhole(ds: string)
    requires AllDigits(ds) && |ds| >= 1
    ensures ParseFloat(ds) == Some(DigitsValue(ds) as real)
  {
    var k := IndexOf(ds, '.');
    assert k == |ds|;
    assert ds[..k] == ds;
  }

  /** Digits, a point and fraction digits read as whole part plus fraction. */
  lemma {:induction false} ParseFloatFraction(ds: string, fs: string)
    requires AllDigits(ds) && AllDigits(fs) && |ds| >= 1
    ensures ParseFloat(ds + "." + fs)
            == Some(DigitsValue(ds) as real + FractionValue(fs))
  {
    var s := ds + "." + fs;
    var k := IndexOf(s, '.');
    assert forall j :: 0 <= j < |ds| ==> s[j] == ds[j];
    assert s[|ds|] == '.';
    assert k == |ds|;
    assert s[..k] == ds;
    assert s[k + 1..] == fs;
  }

  /** With its commas removed, `format(c / 100, ',.2f')` is the whole part, a point and two digits. */
  lemma {:induction false} FormatCentsStrip(c: nat)
    ensures StripCommas(FormatCents(c)) == NatToString(c / 100) + "." + TwoDigits(c % 100)
  {
    var whole := NatToString(c / 100);
    var frac := TwoDigits(c % 100);
    StripCommasConcat(GroupThousands(whole) + ".", frac);
    StripCommasConcat(GroupThousands(whole), ".");
    GroupThousandsStrip(whole);
    DigitsHaveNoCommas(frac);
    assert StripCommas(".") == ".";
  }

  /** Two digits after a point read as hundredths. */
  lemma TwoDigitsFraction(m: nat)
    requires m < 100
    ensures FractionValue(TwoDigits(m)) == m as real / 100.0
  {
    var s := TwoDigits(m);
    var d0, d1 := m / 10, m % 10;
    assert s[0] == DigitChar(d0) && s[1] == DigitChar(d1);
    assert s[1..][1..] == [];
    assert FractionValue(s[1..]) == (d1 as real + FractionValue(s[1..][1..])) / 10.0;
    assert FractionValue(s) == (d0 as real + d1 as real / 10.0) / 10.0;
    assert m == 10 * d0 + d1;
  }

  /** What `format(c / 100, ',.2f')` prints, with its commas removed, `float()` reads back as `c / 100`. */
  lemma {:induction false} CentsRoundTrip(c: nat)
    ensures ParseFloat(StripCommas(FormatCents(c))) == Some(c as real / 100.0)
  {
    var whole := NatToString(c / 100);
    var frac := TwoDigits(c % 100);
    FormatCentsStrip(c);
    ParseFloatFraction(whole, frac);
    NatToStringRoundTrip(c / 100);
    var q, m := c / 100, c % 100;
    TwoDigitsFraction(m);
    assert c == 100 * q + m;
    assert q as real + m as real / 100.0 == c as real / 100.0;
  }
}
