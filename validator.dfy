/**
 * `validator.py`: the reconciliation of the calculated interest with the interest the notice
 * states, the recommendations that follow from the verdict, and the pre-flight checks that say
 * whether a comparison can be made at all.
 */
module Validator {
  import opened Wrappers
  import opened Dates
  import Calculator
  import opened Extractor

  datatype Status = Pass | Fail

  /** Which `detailed_explanation` is given; the amounts it quotes are fields of the result. */
  datatype Explanation = WithinTolerance | MoreThanExpected | LessThanExpected

  /** `ValidationResult`. */
  datatype ValidationResult = ValidationResult(
    status: Status,
    differenceAmount: real,
    percentageDifference: real,
    message: string,
    detailedExplanation: Explanation,
    toleranceUsed: real,
    expectedAmount: real,
    noticeAmount: real)

  function Max(a: real, b: real): (m: real)
    ensures m >= a && m >= b && (m == a || m == b)
  {
    if a >= b then a else b
  }

  /**
   * `calculate_tolerance`, which the validator defines again for itself: $1 for amounts that
   * are not positive, else `max(1.0, amount * 0.0001)`. It agrees with the calculator's.
   */
  function CalculateTolerance(amount: real): (t: real)
    ensures t == Calculator.CalculateTolerance(amount)
  {
    if amount <= 0.0 then 1.0 else Max(1.0, amount * 0.0001)
  }

  function Abs(x: real): (r: real)
    ensures r >= 0.0 && (r == x || r == -x)
  {
    if x >= 0.0 then x else -x
  }

  const PassMessage: string := "Notice is Correct"
  const FailMessage: string := "Issue Detected"
  const MissingResultMessage: string := "Calculation result is required for validation"
  const MissingNoticeMessage: string := "Notice interest amount is required for validation"

  /**
   * The comparison itself, once both amounts are known: the absolute difference, the percentage
   * of the expected amount it makes (0 when nothing is expected), the tolerance for the expected
   * amount, and PASS exactly when the difference is within it.
   */
  function Compare(expected: real, notice: real): (v: ValidationResult)
    ensures v.expectedAmount == expected && v.noticeAmount == notice
    ensures v.differenceAmount >= 0.0
    ensures v.differenceAmount == expected - notice || v.differenceAmount == notice - expected
    ensures expected > 0.0 ==> v.percentageDifference * expected == v.differenceAmount * 100.0
    ensures expected <= 0.0 ==> v.percentageDifference == 0.0
    ensures v.toleranceUsed == Calculator.CalculateTolerance(expected)
    ensures v.status == Pass <==> v.differenceAmount <= v.toleranceUsed
    ensures v.status == Pass ==> v.message == PassMessage && v.detailedExplanation == WithinTolerance
    ensures v.status == Fail ==> v.message == FailMessage
    ensures v.status == Fail ==> (v.detailedExplanation == MoreThanExpected <==> notice > expected)
    ensures v.status == Fail ==> (v.detailedExplanation == LessThanExpected <==> notice <= expected)
  {
    var difference := Abs(expected - notice);
    var percentageDiff := if expected > 0.0 then difference / expected * 100.0 else 0.0;
    var tolerance := CalculateTolerance(expected);
    if difference <= tolerance then
      ValidationResult(Pass, difference, percentageDiff, PassMessage, WithinTolerance, tolerance, expected, notice)
    else
      var explanation := if notice > expected then MoreThanExpected else LessThanExpected;
      ValidationResult(Fail, difference, percentageDiff, FailMessage, explanation, tolerance, expected, notice)
  }

  /**
   * `validate_interest_calculation`: the error raised when the calculation result or its expected
   * interest is missing, then the one raised when the notice amount is missing, else the comparison.
   */
  function ValidateInterestCalculation(extracted: Option<Record>, calculation: Option<Calculator.CalculationResult>)
    : (r: Result<ValidationResult, string>)
    ensures calculation.None? || calculation.value.expectedInterest.None? ==> r == Failure(MissingResultMessage)
    ensures (calculation.Some? && calculation.value.expectedInterest.Some?
             && (extracted.None? || extracted.value.noticeInterestAmount.None?)) ==> r == Failure(MissingNoticeMessage)
    ensures r.Success? <==> calculation.Some? && calculation.value.expectedInterest.Some?
                            && extracted.Some? && extracted.value.noticeInterestAmount.Some?
    ensures r.Success? ==>
              r.value == Compare(calculation.value.expectedInterest.value, extracted.value.noticeInterestAmount.value)
  {
    if calculation.None? || calculation.value.expectedInterest.None? then Failure(MissingResultMessage)
    else if extracted.None? || extracted.value.noticeInterestAmount.None? then Failure(MissingNoticeMessage)
    else Success(Compare(calculation.value.expectedInterest.value, extracted.value.noticeInterestAmount.value))
  }

  /** A notice that states exactly the expected amount passes, with no difference. */
  lemma EqualAmountsPass(amount: real)
    ensures Compare(amount, amount).status == Pass
    ensures Compare(amount, amount).differenceAmount == 0.0
    ensures Compare(amount, amount).percentageDifference == 0.0
  {
    if amount > 0.0 {
      var v := Compare(amount, amount);
      assert v.percentageDifference * amount == 0.0;
    }
  }

  /** Up to $10,000 of expected interest, a notice passes exactly when it is within one dollar. */
  lemma DollarToleranceBelowTenThousand(expected: real, notice: real)
    requires expected <= 10000.0
    ensures Compare(expected, notice).status == Pass <==> Abs(expected - notice) <= 1.0
  {
    Calculator.ToleranceThreshold(expected);
  }

  /**
   * A failing notice is off by more than one basis point of a positive expected amount, and a
   * passing notice on an expected amount of $10,000 or more is off by at most one basis point.
   */
  lemma VerdictInBasisPoints(expected: real, notice: real)
    requires expected > 0.0
    ensures Compare(expected, notice).status == Fail ==> Compare(expected, notice).percentageDifference > 0.01
    ensures expected >= 10000.0 && Compare(expected, notice).status == Pass ==>
              Compare(expected, notice).percentageDifference <= 0.01
  {
    var v := Compare(expected, notice);
    Calculator.ToleranceThreshold(expected);
    PercentageAgainstBasisPoint(v.percentageDifference, expected, v.differenceAmount);
  }

  /** A percentage of a positive amount exceeds 0.01 exactly when the difference exceeds one basis point of it. */
  lemma PercentageAgainstBasisPoint(percentage: real, amount: real, difference: real)
    requires amount > 0.0 && percentage * amount == difference * 100.0
    ensures percentage > 0.01 <==> difference > amount * 0.0001
  {
    if percentage > 0.01 {
      assert percentage * amount > 0.01 * amount;
    } else {
      assert percentage * amount <= 0.01 * amount;
    }
  }

  // get_validation_recommendations

  const PassAdvice: seq<string> := [
    "The notice is ready to be sent to lenders",
    "No further action required for this interest calculation",
    "Consider archiving this validation result for audit purposes"]

  const ReviewAdvice: string := "Review the interest calculation in the notice before sending"
  const VerifyAdvice: string := "Verify that the principal amount, interest rate, and dates are correct"
  const TermsAdvice: string := "Check for any special terms or adjustments that might affect the calculation"
  const RecalculateAdvice: string := "Consider recalculating the interest using the extracted data"
  const FailAdvice: seq<string> := [ReviewAdvice, VerifyAdvice, TermsAdvice, RecalculateAdvice]

  const SignificantAdvice: string := "The difference is significant (>5%) - double-check all input values"
  const ModerateAdvice: string := "The difference is moderate (>1%) - review calculation methodology"
  const HigherAdvice: string := "The notice amount is higher than expected - check for additional fees or adjustments"
  const LowerAdvice: string := "The notice amount is lower than expected - check for missing interest components"

  /** The recommendations for a verdict, as the list they are appended to reads in the end. */
  function Recommendations(v: ValidationResult): seq<string> {
    if v.status == Pass then PassAdvice
    else
      FailAdvice
      + (if v.percentageDifference > 5.0 then [SignificantAdvice]
         else if v.percentageDifference > 1.0 then [ModerateAdvice] else [])
      + [if v.noticeAmount > v.expectedAmount then HigherAdvice else LowerAdvice]
  }

  /** `get_validation_recommendations`: the fixed advice for the verdict, then for a failure its magnitude and direction. */
  method GetValidationRecommendations(v: ValidationResult) returns (recommendations: seq<string>)
    ensures recommendations == Recommendations(v)
  {
    recommendations := [];
    if v.status == Pass {
      recommendations := recommendations + PassAdvice;
    } else {
      recommendations := recommendations + FailAdvice;
      if v.percentageDifference > 5.0 {
        recommendations := recommendations + [SignificantAdvice];
      } else if v.percentageDifference > 1.0 {
        recommendations := recommendations + [ModerateAdvice];
      }
      if v.noticeAmount > v.expectedAmount {
        recommendations := recommendations + [HigherAdvice];
      } else {
        recommendations := recommendations + [LowerAdvice];
      }
    }
  }

  /**
   * A pass gets exactly the three fixed items. A failure gets the four fixed items, then at most
   * one item on the size of the gap (over 5% significant, else over 1% moderate), then exactly one
   * on its direction, chosen by whether the notice is above the expected amount.
   */
  lemma RecommendationsShape(v: ValidationResult)
    ensures var recs := Recommendations(v);
      (v.status == Pass ==> recs == PassAdvice)
      && (v.status == Fail ==>
            5 <= |recs| <= 6 && recs[..4] == FailAdvice
            && (|recs| == 6 <==> v.percentageDifference > 1.0)
            && (|recs| == 6 ==> recs[4] == if v.percentageDifference > 5.0 then SignificantAdvice else ModerateAdvice)
            && recs[|recs| - 1] == (if v.noticeAmount > v.expectedAmount then HigherAdvice else LowerAdvice))
  {
    if v.status == Fail {
      var recs := Recommendations(v);
      var magnitude := if v.percentageDifference > 5.0 then [SignificantAdvice]
                       else if v.percentageDifference > 1.0 then [ModerateAdvice] else [];
      var direction := if v.noticeAmount > v.expectedAmount then HigherAdvice else LowerAdvice;
      assert recs == FailAdvice + magnitude + [direction];
      assert recs[..4] == FailAdvice;
    }
  }

  // format_validation_for_display

  /** The dictionary `format_validation_for_display` returns. */
  datatype Display = Display(
    statusColor: string,
    statusIcon: string,
    statusText: string,
    statusMessage: string,
    cardStyle: string,
    explanation: Explanation,
    recommendations: seq<string>)

  /** A green "success" card for a pass, a red "error" card for a failure, carrying the message, explanation and recommendations. */
  function FormatValidationForDisplay(v: ValidationResult): (d: Display)
    ensures d.statusText == "PASS" <==> v.status == Pass
    ensures d.statusText == "FAIL" <==> v.status == Fail
    ensures d.statusColor == d.cardStyle && (d.cardStyle == "success" <==> v.status == Pass)
    ensures d.statusMessage == v.message && d.explanation == v.detailedExplanation
    ensures d.recommendations == Recommendations(v)
  {
    if v.status == Pass then
      Display("success", "\U{1F7E2}", "PASS", v.message, "success", v.detailedExplanation, Recommendations(v))
    else
      Display("error", "\U{1F534}", "FAIL", v.message, "error", v.detailedExplanation, Recommendations(v))
  }

  // validate_extracted_data_completeness

  /** A dictionary built by assignment to keys not yet present: its entries in insertion order. */
  type Entries = seq<(Key, string)>

  /** The keys the completeness check reports under; `KeyName` is the key as the source spells it. */
  datatype Key = GeneralKey | PrincipalKey | RateKey | StartDateKey | EndDateKey | DateRangeKey | NoticeAmountKey

  function KeyName(k: Key): string {
    match k
    case GeneralKey => "general"
    case PrincipalKey => "principal"
    case RateKey => "rate"
    case StartDateKey => "start_date"
    case EndDateKey => "end_date"
    case DateRangeKey => "date_range"
    case NoticeAmountKey => "notice_amount"
  }

  function KeysOf(es: Entries): (ks: seq<Key>)
    ensures |ks| == |es| && forall k :: 0 <= k < |es| ==> ks[k] == es[k].0
  {
    seq(|es|, k requires 0 <= k < |es| => es[k].0)
  }

  function PrincipalProblem(d: Record): (r: Entries)
    ensures AtMostOne(r, PrincipalKey)
  {
    if d.principalAmount.None? then [(PrincipalKey, "Principal amount not found in PDF")]
    else if d.principalAmount.value <= 0.0 then [(PrincipalKey, "Principal amount must be positive")]
    else []
  }

  function RateProblem(d: Record): (r: Entries)
    ensures AtMostOne(r, RateKey)
  {
    if d.interestRate.None? then [(RateKey, "Interest rate not found in PDF")]
    else if d.interestRate.value < 0.0 then [(RateKey, "Interest rate cannot be negative")]
    else []
  }

  function StartProblem(d: Record): (r: Entries)
    ensures AtMostOne(r, StartDateKey)
  {
    if d.startDate.None? then [(StartDateKey, "Start date not found in PDF")] else []
  }

  function EndProblem(d: Record): (r: Entries)
    ensures AtMostOne(r, EndDateKey)
  {
    if d.endDate.None? then [(EndDateKey, "End date not found in PDF")] else []
  }

  function RangeProblem(d: Record): (r: Entries)
    ensures AtMostOne(r, DateRangeKey)
  {
    if d.startDate.Some? && d.endDate.Some? && !Before(d.startDate.value, d.endDate.value)
    then [(DateRangeKey, "Start date must be before end date")]
    else []
  }

  function NoticeProblem(d: Record): (r: Entries)
    ensures AtMostOne(r, NoticeAmountKey)
  {
    if d.noticeInterestAmount.None? then [(NoticeAmountKey, "Interest amount not found in PDF notice")]
    else if d.noticeInterestAmount.value < 0.0 then [(NoticeAmountKey, "Interest amount cannot be negative")]
    else []
  }

  /** The entries `validate_extracted_data_completeness` makes, in the order it makes them. */
  function CompletenessErrors(data: Option<Record>): Entries {
    if data.None? then [(GeneralKey, "No extracted data available")]
    else
      var d := data.value;
      PrincipalProblem(d) + RateProblem(d) + StartProblem(d) + EndProblem(d) + RangeProblem(d) + NoticeProblem(d)
  }

  /** `validate_extracted_data_completeness`: the dictionary of problems, filled field by field. */
  method ValidateExtractedDataCompleteness(data: Option<Record>) returns (errors: Entries)
    ensures errors == CompletenessErrors(data)
  {
    errors := [];
    if data.None? {
      errors := errors + [(GeneralKey, "No extracted data available")];
      return;
    }
    var d := data.value;
    errors := CheckPrincipal(errors, d);
    assert errors == PrincipalProblem(d);
    errors := CheckRate(errors, d);
    ghost var fields := errors;
    if d.startDate.None? {
      errors := errors + [(StartDateKey, "Start date not found in PDF")];
    }
    assert errors == fields + StartProblem(d);
    fields := errors;
    if d.endDate.None? {
      errors := errors + [(EndDateKey, "End date not found in PDF")];
    }
    assert errors == fields + EndProblem(d);
    fields := errors;
    if d.startDate.Some? && d.endDate.Some? {
      if !Before(d.startDate.value, d.endDate.value) {
        errors := errors + [(DateRangeKey, "Start date must be before end date")];
      }
    }
    assert errors == fields + RangeProblem(d);
    errors := CheckNotice(errors, d);
  }

  method CheckPrincipal(errors: Entries, d: Record) returns (result: Entries)
    ensures result == errors + PrincipalProblem(d)
  {
    result := errors;
    if d.principalAmount.None? {
      result := result + [(PrincipalKey, "Principal amount not found in PDF")];
    } else if d.principalAmount.value <= 0.0 {
      result := result + [(PrincipalKey, "Principal amount must be positive")];
    }
  }

  method CheckRate(errors: Entries, d: Record) returns (result: Entries)
    ensures result == errors + RateProblem(d)
  {
    result := errors;
    if d.interestRate.None? {
      result := result + [(RateKey, "Interest rate not found in PDF")];
    } else if d.interestRate.value < 0.0 {
      result := result + [(RateKey, "Interest rate cannot be negative")];
    }
  }

  method CheckNotice(errors: Entries, d: Record) returns (result: Entries)
    ensures result == errors + NoticeProblem(d)
  {
    result := errors;
    if d.noticeInterestAmount.None? {
      result := result + [(NoticeAmountKey, "Interest amount not found in PDF notice")];
    } else if d.noticeInterestAmount.value < 0.0 {
      result := result + [(NoticeAmountKey, "Interest amount cannot be negative")];
    }
  }

  /** The record has every field a comparison needs, each in range. */
  predicate Complete(d: Record) {
    d.principalAmount.Some? && d.principalAmount.value > 0.0
    && d.interestRate.Some? && d.interestRate.value >= 0.0
    && d.startDate.Some? && d.endDate.Some? && Before(d.startDate.value, d.endDate.value)
    && d.noticeInterestAmount.Some? && d.noticeInterestAmount.value >= 0.0
  }

  /** No key is entered twice. */
  predicate DistinctKeys(es: Entries) {
    forall i, j :: 0 <= i < j < |es| ==> es[i].0 != es[j].0
  }

  function KeySet(es: Entries): set<Key> {
    set i | 0 <= i < |es| :: es[i].0
  }

  lemma DistinctAppend(a: Entries, b: Entries)
    requires DistinctKeys(a) && DistinctKeys(b) && KeySet(a) !! KeySet(b)
    ensures DistinctKeys(a + b) && KeySet(a + b) == KeySet(a) + KeySet(b)
  {
    forall i, j | 0 <= i < j < |a + b|
      ensures (a + b)[i].0 != (a + b)[j].0
    {
      if j >= |a| && i < |a| {
        assert (a + b)[i].0 in KeySet(a);
        assert (a + b)[j] == b[j - |a|];
        assert (a + b)[j].0 in KeySet(b);
      }
    }
    forall k | k in KeySet(a + b)
      ensures k in KeySet(a) + KeySet(b)
    {
      var i :| 0 <= i < |a + b| && (a + b)[i].0 == k;
      if i >= |a| {
        assert (a + b)[i] == b[i - |a|];
      }
    }
    forall k | k in KeySet(a) + KeySet(b)
      ensures k in KeySet(a + b)
    {
      if k in KeySet(a) {
        var i :| 0 <= i < |a| && a[i].0 == k;
        assert (a + b)[i] == a[i];
      } else {
        var i :| 0 <= i < |b| && b[i].0 == k;
        assert (a + b)[|a| + i] == b[i];
      }
    }
  }

  /** At most one entry, under the given key. */
  predicate AtMostOne(es: Entries, k: Key) {
    es == [] || (|es| == 1 && es[0].0 == k)
  }

  lemma OneEntry(es: Entries, k: Key)
    requires AtMostOne(es, k)
    ensures DistinctKeys(es) && KeySet(es) <= {k}
  {
  }

  /** Six pieces of at most one entry each, under six different keys, never repeat a key. */
  lemma SixDistinct(p: Entries, r: Entries, s: Entries, e: Entries, g: Entries, n: Entries)
    requires AtMostOne(p, PrincipalKey) && AtMostOne(r, RateKey) && AtMostOne(s, StartDateKey)
    requires AtMostOne(e, EndDateKey) && AtMostOne(g, DateRangeKey) && AtMostOne(n, NoticeAmountKey)
    ensures DistinctKeys(p + r + s + e + g + n)
  {
    OneEntry(p, PrincipalKey);
    OneEntry(r, RateKey);
    OneEntry(s, StartDateKey);
    OneEntry(e, EndDateKey);
    OneEntry(g, DateRangeKey);
    OneEntry(n, NoticeAmountKey);
    DistinctAppend(p, r);
    DistinctAppend(p + r, s);
    DistinctAppend(p + r + s, e);
    DistinctAppend(p + r + s + e, g);
    DistinctAppend(p + r + s + e + g, n);
  }

  /**
   * No problem is reported exactly when there is a record and it is complete.
   */
  lemma CompletenessEmptyIffComplete(data: Option<Record>)
    ensures CompletenessErrors(data) == [] <==> data.Some? && Complete(data.value)
    ensures data.None? ==> KeysOf(CompletenessErrors(data)) == [GeneralKey]
  {
  }

  /** No key is entered twice, so the list of entries is the dictionary the source returns. */
  lemma CompletenessKeysDistinct(data: Option<Record>)
    ensures DistinctKeys(CompletenessErrors(data))
  {
    if data.Some? {
      var d := data.value;
      SixDistinct(PrincipalProblem(d), RateProblem(d), StartProblem(d), EndProblem(d),
        RangeProblem(d), NoticeProblem(d));
    }
  }

  // can_perform_validation

  const DataIssuePrefix: string := "Data extraction issue: "

  /** `[f"Data extraction issue: {error}" for error in data_errors.values()]`. */
  function DataIssues(es: Entries): (issues: seq<string>)
    ensures |issues| == |es|
    ensures forall k :: 0 <= k < |es| ==> issues[k] == DataIssuePrefix + es[k].1
  {
    seq(|es|, k requires 0 <= k < |es| => DataIssuePrefix + es[k].1)
  }

  /** The issue, if any, with the calculation result. */
  function CalculationIssues(calculation: Option<Calculator.CalculationResult>): seq<string> {
    if calculation.None? then ["Interest calculation not available"]
    else if calculation.value.expectedInterest.None? then ["Calculated interest amount not available"]
    else if calculation.value.expectedInterest.value < 0.0 then ["Calculated interest amount is invalid"]
    else []
  }

  /** The issue list of `can_perform_validation`: the data problems, then the calculation's. */
  function ValidationIssues(data: Option<Record>, calculation: Option<Calculator.CalculationResult>): seq<string> {
    DataIssues(CompletenessErrors(data)) + CalculationIssues(calculation)
  }

  /** `can_perform_validation`: whether the issue list came out empty, and the list. */
  method CanPerformValidation(data: Option<Record>, calculation: Option<Calculator.CalculationResult>)
    returns (canValidate: bool, issues: seq<string>)
    ensures issues == ValidationIssues(data, calculation)
    ensures canValidate <==> issues == []
  {
    issues := [];
    var dataErrors := ValidateExtractedDataCompleteness(data);
    if dataErrors != [] {
      issues := issues + DataIssues(dataErrors);
    }
    assert issues == DataIssues(dataErrors);
    ghost var dataIssues := issues;
    if calculation.None? {
      issues := issues + ["Interest calculation not available"];
    } else if calculation.value.expectedInterest.None? {
      issues := issues + ["Calculated interest amount not available"];
    } else if calculation.value.expectedInterest.value < 0.0 {
      issues := issues + ["Calculated interest amount is invalid"];
    }
    assert issues == dataIssues + CalculationIssues(calculation);
    canValidate := |issues| == 0;
  }

  /** A calculation result that has a non-negative expected amount. */
  predicate UsableCalculation(calculation: Option<Calculator.CalculationResult>) {
    calculation.Some? && calculation.value.expectedInterest.Some? && calculation.value.expectedInterest.value >= 0.0
  }

  /**
   * One issue per data problem, plus exactly one when the result is missing, has no expected
   * amount, or has a negative one; so validation can go ahead exactly when the record is complete
   * and the calculation usable.
   */
  lemma IssueCount(data: Option<Record>, calculation: Option<Calculator.CalculationResult>)
    ensures |ValidationIssues(data, calculation)| ==
              |CompletenessErrors(data)| + (if UsableCalculation(calculation) then 0 else 1)
    ensures ValidationIssues(data, calculation) == [] <==>
              data.Some? && Complete(data.value) && UsableCalculation(calculation)
  {
    CompletenessEmptyIffComplete(data);
  }

  /**
   * When `can_perform_validation` finds no issue, `validate_interest_calculation` does not
   * raise, and its verdict compares two non-negative amounts.
   */
  lemma NoIssuesMeansComparison(data: Option<Record>, calculation: Option<Calculator.CalculationResult>)
    requires ValidationIssues(data, calculation) == []
    ensures ValidateInterestCalculation(data, calculation).Success?
    ensures ValidateInterestCalculation(data, calculation).value.expectedAmount >= 0.0
    ensures ValidateInterestCalculation(data, calculation).value.noticeAmount >= 0.0
  {
    IssueCount(data, calculation);
  }
}
