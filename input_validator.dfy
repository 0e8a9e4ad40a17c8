/**
 * `input_validator.py`: range and sanity rules on each extracted field, each producing a list
 * of findings tagged "error" or "warning", and the aggregate that sorts them into errors and
 * warnings and calls the data valid when there is no error.
 */
module InputValidator {
  import opened Wrappers
  import opened Dates
  import opened Numerals
  import opened Extractor
  import Patterns
  import Validator

  datatype Severity = Error | Warning | Info

  /**
   * The message of a finding, by template; the values a template quotes are carried, their
   * rendering is not modelled.
   */
  datatype Message =
    | Required(name: string)                      // "{name} is required"
    | NoData                                      // "No data was extracted from the PDF"
    | TooFarInPast(name: string, year: int)
    | TooFarInFuture(name: string, year: int)
    | FallsOnWeekend(name: string, weekday: int)
    | StartNotBeforeEnd
    | PeriodUnderOneDay
    | PeriodVeryLong(days: int)
    | PeriodUnreasonablyLong(days: int)
    | NotPositive(amount: real)                   // "… must be positive"
    | Negative(value: real)                       // "… cannot be negative"
    | VerySmall(value: real)
    | VeryLarge(value: real)
    | UnreasonablyLarge(value: real)
    | RateVeryLow(rate: real)
    | RateHigh(rate: real)
    | RateUnreasonablyHigh(rate: real)
    | ExceedsPrincipal(amount: real, principal: real)
    | VeryHighRatio(ratio: real)
    | MissingFields(names: seq<string>)
    | LowConfidence(fields: set<string>)

  /** `ValidationError`: the field it is about, its message and its severity. */
  datatype ValidationError = ValidationError(field: string, message: Message, severity: Severity)

  /** `validated_data`: the five fields as they were read. */
  datatype ValidatedData = ValidatedData(
    principalAmount: Option<real>,
    interestRate: Option<real>,
    startDate: Option<CalDate>,
    endDate: Option<CalDate>,
    noticeInterestAmount: Option<real>)

  /** `ValidationResult`; `validatedData` is `None` where the source leaves the dictionary empty. */
  datatype ValidationResult = ValidationResult(
    isValid: bool,
    errors: seq<ValidationError>,
    warnings: seq<ValidationError>,
    validatedData: Option<ValidatedData>)

  /** A finding when the condition holds, none otherwise. */
  function When(c: bool, e: ValidationError): (r: seq<ValidationError>)
    ensures c ==> r == [e]
    ensures !c ==> r == []
  {
    if c then [e] else []
  }

  /** `[e for e in findings if e.severity == s]`. */
  function OfSeverity(findings: seq<ValidationError>, s: Severity): (r: seq<ValidationError>)
    ensures |r| <= |findings|
    decreases |findings|
  {
    if findings == [] then []
    else (if findings[0].severity == s then [findings[0]] else []) + OfSeverity(findings[1..], s)
  }

  lemma {:induction false} OfSeverityMembers(findings: seq<ValidationError>, s: Severity)
    ensures forall e :: e in OfSeverity(findings, s) <==> e in findings && e.severity == s
    decreases |findings|
  {
    if findings != [] {
      OfSeverityMembers(findings[1..], s);
      assert findings == [findings[0]] + findings[1..];
    }
  }

  lemma {:induction false} OfSeverityConcat(a: seq<ValidationError>, b: seq<ValidationError>, s: Severity)
    ensures OfSeverity(a + b, s) == OfSeverity(a, s) + OfSeverity(b, s)
    decreases |a|
  {
    if a == [] {
      assert a + b == b;
    } else {
      var h, t := a[0], a[1..];
      assert a == [h] + t;
      assert a + b == [h] + (t + b);
      OfSeverityCons(h, t + b, s);
      OfSeverityConcat(t, b, s);
      OfSeverityCons(h, t, s);
    }
  }

  /** Filtering a list that starts with `h` decides about `h` first. */
  lemma OfSeverityCons(h: ValidationError, t: seq<ValidationError>, s: Severity)
    ensures OfSeverity([h] + t, s) == (if h.severity == s then [h] else []) + OfSeverity(t, s)
  {
    assert ([h] + t)[0] == h;
    assert ([h] + t)[1..] == t;
  }

  /** One step of the partition: a finding that is not informational goes to exactly one side. */
  lemma PartitionStep(h: ValidationError, t: seq<ValidationError>)
    requires h.severity != Info
    requires multiset(OfSeverity(t, Error)) + multiset(OfSeverity(t, Warning)) == multiset(t)
    ensures multiset(OfSeverity([h] + t, Error)) + multiset(OfSeverity([h] + t, Warning)) == multiset([h] + t)
  {
    OfSeverityCons(h, t, Error);
    OfSeverityCons(h, t, Warning);
    if h.severity == Error {
      assert OfSeverity([h] + t, Warning) == [] + OfSeverity(t, Warning);
    } else {
      assert OfSeverity([h] + t, Error) == [] + OfSeverity(t, Error);
    }
  }

  /** Without informational findings, the errors and the warnings together are all the findings. */
  lemma {:induction false} OfSeverityPartition(findings: seq<ValidationError>)
    requires forall i :: 0 <= i < |findings| ==> findings[i].severity != Info
    ensures multiset(OfSeverity(findings, Error)) + multiset(OfSeverity(findings, Warning)) == multiset(findings)
    decreases |findings|
  {
    if findings != [] {
      var h, t := findings[0], findings[1..];
      assert forall i :: 0 <= i < |t| ==> t[i] == findings[i + 1];
      OfSeverityPartition(t);
      PartitionStep(h, t);
      assert findings == [h] + t;
    }
  }

  // validate_date_format_and_range

  function DateFindings(date: Option<CalDate>, name: string, currentYear: int): seq<ValidationError> {
    if date.None? then [ValidationError(name, Required(name), Error)]
    else
      var d := date.value;
      When(d.year < currentYear - 50, ValidationError(name, TooFarInPast(name, d.year), Error))
      + When(d.year > currentYear + 10, ValidationError(name, TooFarInFuture(name, d.year), Error))
      + When(Weekday(d) >= 5, ValidationError(name, FallsOnWeekend(name, Weekday(d)), Warning))
  }

  /**
   * `validate_date_format_and_range`, with the current year passed in: a missing date is one
   * error; a year more than 50 years back or 10 years ahead is an error; a weekend is a warning.
   */
  method ValidateDateFormatAndRange(date: Option<CalDate>, name: string, currentYear: int)
    returns (errors: seq<ValidationError>)
    ensures errors == DateFindings(date, name, currentYear)
  {
    errors := [];
    if date.None? {
      errors := errors + [ValidationError(name, Required(name), Error)];
      return;
    }
    var d := date.value;
    var minYear := currentYear - 50;
    var maxYear := currentYear + 10;
    if d.year < minYear {
      errors := errors + [ValidationError(name, TooFarInPast(name, d.year), Error)];
    }
    if d.year > maxYear {
      errors := errors + [ValidationError(name, TooFarInFuture(name, d.year), Error)];
    }
    if Weekday(d) >= 5 {
      errors := errors + [ValidationError(name, FallsOnWeekend(name, Weekday(d)), Warning)];
    }
  }

  /**
   * A missing date is exactly one error. A present one has an error exactly when its year lies
   * outside `[currentYear - 50, currentYear + 10]`, never two, and a warning exactly when it is a
   * Saturday or Sunday. Every finding is about the named field.
   */
  lemma DateFindingsShape(date: Option<CalDate>, name: string, currentYear: int)
    ensures var r := DateFindings(date, name, currentYear);
      (date.None? ==> |r| == 1 && r[0].severity == Error)
      && (date.Some? ==>
            |OfSeverity(r, Error)| == (if currentYear - 50 <= date.value.year <= currentYear + 10 then 0 else 1)
            && |OfSeverity(r, Warning)| == (if Weekday(date.value) >= 5 then 1 else 0))
      && forall e :: e in r ==> e.field == name && e.severity != Info
  {
    var r := DateFindings(date, name, currentYear);
    if date.Some? {
      var d := date.value;
      var past := When(d.year < currentYear - 50, ValidationError(name, TooFarInPast(name, d.year), Error));
      var future := When(d.year > currentYear + 10, ValidationError(name, TooFarInFuture(name, d.year), Error));
      var weekend := When(Weekday(d) >= 5, ValidationError(name, FallsOnWeekend(name, Weekday(d)), Warning));
      OfSeverityConcat(past, future, Error);
      OfSeverityConcat(past + future, weekend, Error);
      OfSeverityConcat(past, future, Warning);
      OfSeverityConcat(past + future, weekend, Warning);
    }
  }

  // validate_date_range

  function DateRangeFindings(start: Option<CalDate>, end: Option<CalDate>): seq<ValidationError> {
    if start.None? || end.None? then []
    else if !Before(start.value, end.value) then [ValidationError("date_range", StartNotBeforeEnd, Error)]
    else
      var days := DaysBetween(start.value, end.value);
      When(days < 1, ValidationError("date_range", PeriodUnderOneDay, Warning))
      + When(days > 730, ValidationError("date_range", PeriodVeryLong(days), Warning))
      + When(days > 3650, ValidationError("date_range", PeriodUnreasonablyLong(days), Error))
  }

  /**
   * `validate_date_range`: nothing when a date is missing; one error when the start is not
   * before the end; otherwise warnings for a period under a day or over two years, and an error
   * for one over ten years.
   */
  method ValidateDateRange(start: Option<CalDate>, end: Option<CalDate>) returns (errors: seq<ValidationError>)
    ensures errors == DateRangeFindings(start, end)
  {
    errors := [];
    if start.None? || end.None? {
      return;
    }
    var s, e := start.value, end.value;
    if !Before(s, e) {
      errors := errors + [ValidationError("date_range", StartNotBeforeEnd, Error)];
      return;
    }
    var periodDays := DaysBetween(s, e);
    if periodDays < 1 {
      errors := errors + [ValidationError("date_range", PeriodUnderOneDay, Warning)];
    }
    if periodDays > 730 {
      errors := errors + [ValidationError("date_range", PeriodVeryLong(periodDays), Warning)];
    }
    if periodDays > 3650 {
      errors := errors + [ValidationError("date_range", PeriodUnreasonablyLong(periodDays), Error)];
    }
  }

  /**
   * Nothing is said when a date is missing, and exactly one error when they are out of order.
   * For dates in order the period is at least a day, so its findings are exactly: none up to
   * two years, a warning up to ten years, and that warning followed by an error beyond.
   */
  lemma DateRangeFindingsShape(start: Option<CalDate>, end: Option<CalDate>)
    ensures var r := DateRangeFindings(start, end);
      (start.None? || end.None? ==> r == [])
      && (start.Some? && end.Some? && !Before(start.value, end.value) ==>
            |r| == 1 && r[0].severity == Error && r[0].message == StartNotBeforeEnd)
      && (start.Some? && end.Some? && Before(start.value, end.value) ==>
            var days := DaysBetween(start.value, end.value);
            days >= 1
            && (days <= 730 ==> r == [])
            && (730 < days <= 3650 ==> r == [ValidationError("date_range", PeriodVeryLong(days), Warning)])
            && (days > 3650 ==> r == [ValidationError("date_range", PeriodVeryLong(days), Warning),
                                      ValidationError("date_range", PeriodUnreasonablyLong(days), Error)]))
  {
    if start.Some? && end.Some? && Before(start.value, end.value) {
      BeforeIsOrdinalOrder(start.value, end.value);
    }
  }

  // validate_principal_amount

  function PrincipalFindings(amount: Option<real>): seq<ValidationError> {
    if amount.None? then [ValidationError("principal_amount", Required("Principal amount"), Error)]
    else if amount.value <= 0.0 then [ValidationError("principal_amount", NotPositive(amount.value), Error)]
    else
      var a := amount.value;
      When(a < 1000.0, ValidationError("principal_amount", VerySmall(a), Warning))
      + When(a > 1000000000.0, ValidationError("principal_amount", VeryLarge(a), Warning))
      + When(a > 100000000000.0, ValidationError("principal_amount", UnreasonablyLarge(a), Error))
  }

  /**
   * `validate_principal_amount`: one error for a missing or non-positive amount; else a warning
   * under $1,000, a warning over $1 billion, and an error over $100 billion.
   */
  method ValidatePrincipalAmount(amount: Option<real>) returns (errors: seq<ValidationError>)
    ensures errors == PrincipalFindings(amount)
  {
    errors := [];
    if amount.None? {
      errors := errors + [ValidationError("principal_amount", Required("Principal amount"), Error)];
      return;
    }
    var a := amount.value;
    if a <= 0.0 {
      errors := errors + [ValidationError("principal_amount", NotPositive(a), Error)];
      return;
    }
    if a < 1000.0 {
      errors := errors + [ValidationError("principal_amount", VerySmall(a), Warning)];
    }
    if a > 1000000000.0 {
      errors := errors + [ValidationError("principal_amount", VeryLarge(a), Warning)];
    }
    if a > 100000000000.0 {
      errors := errors + [ValidationError("principal_amount", UnreasonablyLarge(a), Error)];
    }
  }

  /**
   * A missing or non-positive principal is exactly one error and nothing else. A positive one
   * has an error exactly when it is over $100 billion, a warning under $1,000, and a warning
   * over $1 billion (so over $100 billion it gets both); an amount from $1,000 to exactly
   * $1 billion has no finding at all.
   */
  lemma PrincipalFindingsShape(amount: Option<real>)
    ensures var r := PrincipalFindings(amount);
      (amount.None? || amount.value <= 0.0 ==> |r| == 1 && r[0].severity == Error)
      && (amount.Some? && amount.value > 0.0 ==>
            |OfSeverity(r, Error)| == (if amount.value > 100000000000.0 then 1 else 0)
            && |OfSeverity(r, Warning)| == (if amount.value < 1000.0 || amount.value > 1000000000.0 then 1 else 0)
            && (1000.0 <= amount.value <= 1000000000.0 <==> r == []))
      && forall e :: e in r ==> e.field == "principal_amount" && e.severity != Info
  {
    if amount.Some? && amount.value > 0.0 {
      var a := amount.value;
      var small := When(a < 1000.0, ValidationError("principal_amount", VerySmall(a), Warning));
      var large := When(a > 1000000000.0, ValidationError("principal_amount", VeryLarge(a), Warning));
      var huge := When(a > 100000000000.0, ValidationError("principal_amount", UnreasonablyLarge(a), Error));
      OfSeverityConcat(small, large, Error);
      OfSeverityConcat(small + large, huge, Error);
      OfSeverityConcat(small, large, Warning);
      OfSeverityConcat(small + large, huge, Warning);
    }
  }

  /** The limit is strict: exactly $1,000,000,000 raises nothing. */
  lemma PrincipalAtOneBillion()
    ensures PrincipalFindings(Some(1000000000.0)) == []
  {
    PrincipalFindingsShape(Some(1000000000.0));
  }

  // validate_interest_rate

  function RateFindings(rate: Option<real>): seq<ValidationError> {
    if rate.None? then [ValidationError("interest_rate", Required("Interest rate"), Error)]
    else if rate.value < 0.0 then [ValidationError("interest_rate", Negative(rate.value), Error)]
    else
      var r := rate.value;
      When(r < 0.0001, ValidationError("interest_rate", RateVeryLow(r), Warning))
      + When(r > 0.25, ValidationError("interest_rate", RateHigh(r), Warning))
      + When(r > 1.0, ValidationError("interest_rate", RateUnreasonablyHigh(r), Error))
  }

  /**
   * `validate_interest_rate`: one error for a missing or negative rate; else a warning under
   * 0.01%, a warning over 25%, and an error over 100%.
   */
  method ValidateInterestRate(rate: Option<real>) returns (errors: seq<ValidationError>)
    ensures errors == RateFindings(rate)
  {
    errors := [];
    if rate.None? {
      errors := errors + [ValidationError("interest_rate", Required("Interest rate"), Error)];
      return;
    }
    var r := rate.value;
    if r < 0.0 {
      errors := errors + [ValidationError("interest_rate", Negative(r), Error)];
      return;
    }
    if r < 0.0001 {
      errors := errors + [ValidationError("interest_rate", RateVeryLow(r), Warning)];
    }
    if r > 0.25 {
      errors := errors + [ValidationError("interest_rate", RateHigh(r), Warning)];
    }
    if r > 1.0 {
      errors := errors + [ValidationError("interest_rate", RateUnreasonablyHigh(r), Error)];
    }
  }

  /**
   * A missing or negative rate is a single error. Any other rate has an error exactly when it is
   * over 100% (and then also the over-25% warning), and a warning under 0.01% or over 25%.
   */
  lemma RateFindingsShape(rate: Option<real>)
    ensures var r := RateFindings(rate);
      (rate.None? || rate.value < 0.0 ==> |r| == 1 && r[0].severity == Error)
      && (rate.Some? && rate.value >= 0.0 ==>
            |OfSeverity(r, Error)| == (if rate.value > 1.0 then 1 else 0)
            && |OfSeverity(r, Warning)| == (if rate.value < 0.0001 || rate.value > 0.25 then 1 else 0)
            && (0.0001 <= rate.value <= 0.25 <==> r == []))
      && forall e :: e in r ==> e.field == "interest_rate" && e.severity != Info
  {
    if rate.Some? && rate.value >= 0.0 {
      var x := rate.value;
      var low := When(x < 0.0001, ValidationError("interest_rate", RateVeryLow(x), Warning));
      var high := When(x > 0.25, ValidationError("interest_rate", RateHigh(x), Warning));
      var absurd := When(x > 1.0, ValidationError("interest_rate", RateUnreasonablyHigh(x), Error));
      OfSeverityConcat(low, high, Error);
      OfSeverityConcat(low + high, absurd, Error);
      OfSeverityConcat(low, high, Warning);
      OfSeverityConcat(low + high, absurd, Warning);
    }
  }

  // validate_interest_amount

  /** The comparison with the principal, made only when a positive principal is known. */
  function RatioFindings(amount: real, principal: Option<real>): seq<ValidationError> {
    if principal.Some? && principal.value > 0.0 then
      var ratio := amount / principal.value;
      if ratio > 1.0 then [ValidationError("interest_amount", ExceedsPrincipal(amount, principal.value), Error)]
      else if ratio > 0.5 then [ValidationError("interest_amount", VeryHighRatio(ratio), Warning)]
      else []
    else []
  }

  function InterestAmountFindings(amount: Option<real>, principal: Option<real>): seq<ValidationError> {
    if amount.None? then [ValidationError("interest_amount", Required("Interest amount"), Error)]
    else if amount.value < 0.0 then [ValidationError("interest_amount", Negative(amount.value), Error)]
    else
      When(amount.value < 1.0, ValidationError("interest_amount", VerySmall(amount.value), Warning))
      + RatioFindings(amount.value, principal)
  }

  /**
   * `validate_interest_amount`: one error for a missing or negative amount; else a warning
   * under $1, and, against a positive principal, an error when the interest exceeds it or else
   * a warning when it is over half of it.
   */
  method ValidateInterestAmount(amount: Option<real>, principal: Option<real>) returns (errors: seq<ValidationError>)
    ensures errors == InterestAmountFindings(amount, principal)
  {
    errors := [];
    if amount.None? {
      errors := errors + [ValidationError("interest_amount", Required("Interest amount"), Error)];
      return;
    }
    var a := amount.value;
    if a < 0.0 {
      errors := errors + [ValidationError("interest_amount", Negative(a), Error)];
      return;
    }
    if a < 1.0 {
      errors := errors + [ValidationError("interest_amount", VerySmall(a), Warning)];
    }
    if principal.Some? && principal.value > 0.0 {
      var ratio := a / principal.value;
      if ratio > 1.0 {
        errors := errors + [ValidationError("interest_amount", ExceedsPrincipal(a, principal.value), Error)];
      } else if ratio > 0.5 {
        errors := errors + [ValidationError("interest_amount", VeryHighRatio(ratio), Warning)];
      }
    }
  }

  /**
   * The interest is checked against the principal only when the principal is positive; it then
   * gives an error exactly when the interest is larger than the principal, a warning exactly when
   * it is more than half of it but not larger, and never both.
   */
  lemma RatioFindingsShape(amount: real, principal: Option<real>)
    requires amount >= 0.0
    ensures var r := RatioFindings(amount, principal);
      |r| <= 1
      && (principal.None? || principal.value <= 0.0 ==> r == [])
      && (principal.Some? && principal.value > 0.0 ==>
            (|OfSeverity(r, Error)| == 1 <==> amount > principal.value)
            && (|OfSeverity(r, Warning)| == 1 <==> 0.5 * principal.value < amount <= principal.value))
  {
    if principal.Some? && principal.value > 0.0 {
      RatioAgainst(amount, principal.value, 1.0);
      RatioAgainst(amount, principal.value, 0.5);
    }
  }

  /** `amount / principal` against a bound, as a comparison of the amounts. */
  lemma RatioAgainst(amount: real, principal: real, bound: real)
    requires principal > 0.0
    ensures amount / principal > bound <==> amount > bound * principal
  {
    var ratio := amount / principal;
    assert ratio * principal == amount;
    if ratio > bound {
      assert (ratio - bound) * principal > 0.0;
    } else {
      assert (bound - ratio) * principal >= 0.0;
    }
  }

  /**
   * A missing or negative interest amount is exactly one error; otherwise the findings are the
   * small-amount warning, when under $1, followed by the comparison with the principal: an error
   * when the interest exceeds a positive principal, a warning when it is over half of it.
   */
  lemma InterestAmountFindingsShape(amount: Option<real>, principal: Option<real>)
    ensures var r := InterestAmountFindings(amount, principal);
      (amount.None? || amount.value < 0.0 ==> |r| == 1 && r[0].severity == Error)
      && (amount.Some? && amount.value >= 0.0 ==>
            |OfSeverity(r, Error)| == (if principal.Some? && principal.value > 0.0 && amount.value > principal.value
                                       then 1 else 0)
            && |OfSeverity(r, Warning)| ==
                 (if amount.value < 1.0 then 1 else 0)
                 + (if principal.Some? && principal.value > 0.0
                       && 0.5 * principal.value < amount.value <= principal.value then 1 else 0))
      && forall e :: e in r ==> e.field == "interest_amount" && e.severity != Info
  {
    if amount.Some? && amount.value >= 0.0 {
      var a := amount.value;
      var small := When(a < 1.0, ValidationError("interest_amount", VerySmall(a), Warning));
      OfSeverityConcat(small, RatioFindings(a, principal), Error);
      OfSeverityConcat(small, RatioFindings(a, principal), Warning);
      RatioFindingsShape(a, principal);
    }
  }

  // validate_required_fields_completeness

  /** The display names of `required_fields`, in the order the dictionary lists them. */
  const RequiredFieldNames: seq<string> := ["Principal amount", "Interest rate", "Start date", "End date", "Interest amount"]

  /** Whether each required field is present, in the same order. */
  function FieldsPresent(d: Record): (p: seq<bool>)
    ensures |p| == |RequiredFieldNames|
  {
    [d.principalAmount.Some?, d.interestRate.Some?, d.startDate.Some?, d.endDate.Some?, d.noticeInterestAmount.Some?]
  }

  /** The display names of the missing fields among the first `n`, in order. */
  function MissingAmong(d: Record, n: nat): (m: seq<string>)
    requires n <= |RequiredFieldNames|
    ensures |m| <= n
  {
    if n == 0 then []
    else MissingAmong(d, n - 1) + (if FieldsPresent(d)[n - 1] then [] else [RequiredFieldNames[n - 1]])
  }

  /** `s` is `of` with some elements left out. */
  predicate Subsequence(s: seq<string>, of: seq<string>)
    decreases |of|
  {
    if s == [] then true
    else if of == [] then false
    else if s[|s| - 1] == of[|of| - 1] then Subsequence(s[..|s| - 1], of[..|of| - 1])
    else Subsequence(s, of[..|of| - 1])
  }

  /** Appending the same name to both keeps a subsequence; so does appending a name it does not contain to the longer. */
  lemma SubsequenceExtend(s: seq<string>, of: seq<string>, x: string)
    requires Subsequence(s, of)
    ensures Subsequence(s + [x], of + [x])
    ensures x !in s ==> Subsequence(s, of + [x])
  {
    assert (of + [x])[..|of|] == of;
    assert (s + [x])[..|s|] == s;
    if s != [] && x !in s {
      assert s[|s| - 1] in s;
    }
  }

  /** The display names of the missing fields among the first `n`, in the order of `required_fields`. */
  lemma {:induction false} MissingAmongOrder(d: Record, n: nat)
    requires n <= |RequiredFieldNames|
    ensures Subsequence(MissingAmong(d, n), RequiredFieldNames[..n])
  {
    if n > 0 {
      MissingAmongOrder(d, n - 1);
      MissingAmongNames(d, n - 1);
      NamesDistinct();
      var x := RequiredFieldNames[n - 1];
      assert RequiredFieldNames[..n] == RequiredFieldNames[..n - 1] + [x];
      assert x !in RequiredFieldNames[..n - 1];
      SubsequenceExtend(MissingAmong(d, n - 1), RequiredFieldNames[..n - 1], x);
      if FieldsPresent(d)[n - 1] {
        assert MissingAmong(d, n) == MissingAmong(d, n - 1) + [];
        assert MissingAmong(d, n - 1) + [] == MissingAmong(d, n - 1);
      } else {
        assert MissingAmong(d, n) == MissingAmong(d, n - 1) + [x];
      }
    }
  }

  /** Among the first `n` fields, a display name is listed exactly when its field is missing. */
  lemma {:induction false} MissingAmongMembers(d: Record, n: nat)
    requires n <= |RequiredFieldNames|
    ensures forall k :: 0 <= k < n ==> (RequiredFieldNames[k] in MissingAmong(d, n) <==> !FieldsPresent(d)[k])
  {
    if n > 0 {
      MissingAmongMembers(d, n - 1);
      MissingAmongNames(d, n - 1);
      NamesDistinct();
      var x := RequiredFieldNames[n - 1];
      assert x !in RequiredFieldNames[..n - 1];
      assert x in MissingAmong(d, n) <==> !FieldsPresent(d)[n - 1];
      forall k | 0 <= k < n - 1
        ensures RequiredFieldNames[k] in MissingAmong(d, n) <==> RequiredFieldNames[k] in MissingAmong(d, n - 1)
      {
        assert RequiredFieldNames[k] != x;
      }
    }
  }

  /** The missing names are drawn from the first `n` display names. */
  lemma {:induction false} MissingAmongNames(d: Record, n: nat)
    requires n <= |RequiredFieldNames|
    ensures forall x :: x in MissingAmong(d, n) ==> x in RequiredFieldNames[..n]
  {
    if n > 0 {
      MissingAmongNames(d, n - 1);
      assert forall x :: x in RequiredFieldNames[..n - 1] ==> x in RequiredFieldNames[..n];
    }
  }

  lemma NamesDistinct()
    ensures forall i, j :: 0 <= i < j < |RequiredFieldNames| ==> RequiredFieldNames[i] != RequiredFieldNames[j]
  {
    assert RequiredFieldNames[0][0] == 'P' && RequiredFieldNames[1][0] == 'I' && RequiredFieldNames[2][0] == 'S';
    assert RequiredFieldNames[3][0] == 'E' && RequiredFieldNames[4][0] == 'I';
    assert RequiredFieldNames[1][9] != RequiredFieldNames[4][9];
  }

  /** The fields whose extraction confidence is under one half (their order is not kept). */
  function LowConfidenceFields(confidence: map<string, real>): set<string> {
    set k | k in confidence && confidence[k] < 0.5
  }

  /** The loop over `extraction_confidence` that collects the fields scored under 50%. */
  method CollectLowConfidence(confidence: map<string, real>) returns (low: set<string>)
    ensures low == LowConfidenceFields(confidence)
  {
    low := {};
    var remaining := confidence.Keys;
    while remaining != {}
      invariant remaining <= confidence.Keys
      invariant low == set k | k in confidence && k !in remaining && confidence[k] < 0.5
      decreases |remaining|
    {
      var k :| k in remaining;
      if confidence[k] < 0.5 {
        low := low + {k};
      }
      remaining := remaining - {k};
    }
  }

  function CompletenessFindings(data: Option<Record>): seq<ValidationError> {
    if data.None? then [ValidationError("general", NoData, Error)]
    else
      var d := data.value;
      var missing := MissingAmong(d, |RequiredFieldNames|);
      var low := LowConfidenceFields(d.extractionConfidence);
      When(missing != [], ValidationError("completeness", MissingFields(missing), Error))
      + When(|d.extractionConfidence| > 0 && low != {}, ValidationError("confidence", LowConfidence(low), Warning))
  }

  /**
   * `validate_required_fields_completeness`: one error when there is no record; else one error
   * naming the missing fields, if any, and one warning naming the fields scored under 50%, if any.
   */
  method ValidateRequiredFieldsCompleteness(data: Option<Record>) returns (errors: seq<ValidationError>)
    ensures errors == CompletenessFindings(data)
  {
    errors := [];
    if data.None? {
      errors := errors + [ValidationError("general", NoData, Error)];
      return;
    }
    var d := data.value;
    var present := FieldsPresent(d);
    var missing: seq<string> := [];
    for k := 0 to |RequiredFieldNames|
      invariant missing == MissingAmong(d, k)
    {
      if !present[k] {
        missing := missing + [RequiredFieldNames[k]];
      }
    }
    if |missing| > 0 {
      errors := errors + [ValidationError("completeness", MissingFields(missing), Error)];
    }
    if |d.extractionConfidence| > 0 {
      var low := CollectLowConfidence(d.extractionConfidence);
      if |low| > 0 {
        errors := errors + [ValidationError("confidence", LowConfidence(low), Warning)];
      }
    }
  }

  /**
   * With no record there is exactly one error. Otherwise there is at most one "completeness"
   * error, there exactly when a field is missing, and at most one "confidence" warning, there
   * exactly when some field is scored under 50%.
   */
  lemma CompletenessFindingsShape(data: Option<Record>)
    ensures var r := CompletenessFindings(data);
      (data.None? ==> |r| == 1 && r[0].severity == Error)
      && (data.Some? ==>
            |OfSeverity(r, Error)| == (if false in FieldsPresent(data.value) then 1 else 0)
            && |OfSeverity(r, Warning)| == (if LowConfidenceFields(data.value.extractionConfidence) != {} then 1 else 0)
            && (forall e :: e in r ==> e.field in {"completeness", "confidence"}))
      && forall e :: e in r ==> e.severity != Info
  {
    if data.Some? {
      var d := data.value;
      var missing := MissingAmong(d, |RequiredFieldNames|);
      var low := LowConfidenceFields(d.extractionConfidence);
      var e1 := When(missing != [], ValidationError("completeness", MissingFields(missing), Error));
      var e2 := When(|d.extractionConfidence| > 0 && low != {}, ValidationError("confidence", LowConfidence(low), Warning));
      OfSeverityConcat(e1, e2, Error);
      OfSeverityConcat(e1, e2, Warning);
      MissingAmongMembers(d, |RequiredFieldNames|);
      MissingAmongNames(d, |RequiredFieldNames|);
      assert RequiredFieldNames[..|RequiredFieldNames|] == RequiredFieldNames;
      if false in FieldsPresent(d) {
        var k :| 0 <= k < |FieldsPresent(d)| && !FieldsPresent(d)[k];
        assert RequiredFieldNames[k] in missing;
      }
      if missing != [] {
        assert missing[0] in RequiredFieldNames;
        var k :| 0 <= k < |RequiredFieldNames| && RequiredFieldNames[k] == missing[0];
        assert !FieldsPresent(d)[k];
      }
      if low != {} {
        var k :| k in low;
        assert k in d.extractionConfidence;
      }
    }
  }

  /**
   * The "completeness" error lists the display names of exactly the missing fields, in the fixed
   * order principal, rate, start, end, interest.
   */
  lemma MissingFieldsListed(d: Record)
    ensures Subsequence(MissingAmong(d, |RequiredFieldNames|), RequiredFieldNames)
    ensures forall k :: 0 <= k < |RequiredFieldNames| ==>
              (RequiredFieldNames[k] in MissingAmong(d, |RequiredFieldNames|) <==> !FieldsPresent(d)[k])
  {
    MissingAmongOrder(d, |RequiredFieldNames|);
    MissingAmongMembers(d, |RequiredFieldNames|);
    assert RequiredFieldNames[..|RequiredFieldNames|] == RequiredFieldNames;
  }

  /** A record just extracted from a text scores every field it has at 0.7 or 0.8, so it never draws the confidence warning. */
  lemma ExtractionHasNoLowConfidence(n: Patterns.Numeral, text: string)
    ensures LowConfidenceFields(Extraction(n, text).extractionConfidence) == {}
  {
    var principal, rate, dates := PrincipalOf(text), RateOf(text), DatesOf(text);
    var interest := InterestAmountOf(n, text);
    assert Extraction(n, text) == Assemble(principal, rate, dates, interest);
    AssembledScoresAreHigh(principal, rate, dates, interest);
  }

  lemma AssembledScoresAreHigh(principal: Option<real>, rate: Option<real>, dates: seq<CalDate>, interest: Option<real>)
    ensures LowConfidenceFields(Assemble(principal, rate, dates, interest).extractionConfidence) == {}
  {
    var m := Assemble(principal, rate, dates, interest).extractionConfidence;
    assert forall k :: k in m ==> m[k] >= 0.5;
  }

  // perform_comprehensive_validation

  /** Every finding of every rule, in the order `perform_comprehensive_validation` runs them. */
  function AllFindings(data: Option<Record>, currentYear: int): seq<ValidationError> {
    if data.None? then CompletenessFindings(data)
    else
      var d := data.value;
      CompletenessFindings(data) + PrincipalFindings(d.principalAmount) + RateFindings(d.interestRate)
      + DateFindings(d.startDate, "Start date", currentYear) + DateFindings(d.endDate, "End date", currentYear)
      + DateRangeFindings(d.startDate, d.endDate) + InterestAmountFindings(d.noticeInterestAmount, d.principalAmount)
  }

  /**
   * `perform_comprehensive_validation`: the findings of every rule, split by severity, valid
   * exactly when there is a record and no error among them.
   */
  method PerformComprehensiveValidation(data: Option<Record>, currentYear: int) returns (result: ValidationResult)
    ensures result.errors == OfSeverity(AllFindings(data, currentYear), Error)
    ensures result.warnings == OfSeverity(AllFindings(data, currentYear), Warning)
    ensures result.isValid <==> data.Some? && result.errors == []
    ensures data.None? ==> result.validatedData.None?
    ensures data.Some? ==> result.validatedData == Some(ValidatedData(
              data.value.principalAmount, data.value.interestRate, data.value.startDate, data.value.endDate,
              data.value.noticeInterestAmount))
  {
    var allErrors: seq<ValidationError> := [];
    var allWarnings: seq<ValidationError> := [];
    ghost var seen: seq<ValidationError> := [];

    var completenessErrors := ValidateRequiredFieldsCompleteness(data);
    allErrors, allWarnings, seen := Absorb(allErrors, allWarnings, seen, completenessErrors);
    if data.None? {
      assert seen == AllFindings(data, currentYear) by {
        assert [] + completenessErrors == completenessErrors;
      }
      return ValidationResult(false, allErrors, allWarnings, None);
    }
    var d := data.value;

    var principalErrors := ValidatePrincipalAmount(d.principalAmount);
    allErrors, allWarnings, seen := Absorb(allErrors, allWarnings, seen, principalErrors);
    var rateErrors := ValidateInterestRate(d.interestRate);
    allErrors, allWarnings, seen := Absorb(allErrors, allWarnings, seen, rateErrors);
    var startDateErrors := ValidateDateFormatAndRange(d.startDate, "Start date", currentYear);
    allErrors, allWarnings, seen := Absorb(allErrors, allWarnings, seen, startDateErrors);
    var endDateErrors := ValidateDateFormatAndRange(d.endDate, "End date", currentYear);
    allErrors, allWarnings, seen := Absorb(allErrors, allWarnings, seen, endDateErrors);
    var dateRangeErrors := ValidateDateRange(d.startDate, d.endDate);
    allErrors, allWarnings, seen := Absorb(allErrors, allWarnings, seen, dateRangeErrors);
    var interestErrors := ValidateInterestAmount(d.noticeInterestAmount, d.principalAmount);
    allErrors, allWarnings, seen := Absorb(allErrors, allWarnings, seen, interestErrors);

    assert seen == AllFindings(data, currentYear) by {
      assert [] + completenessErrors == completenessErrors;
    }
    var validatedData := ValidatedData(d.principalAmount, d.interestRate, d.startDate, d.endDate, d.noticeInterestAmount);
    var isValid := |allErrors| == 0;
    return ValidationResult(isValid, allErrors, allWarnings, Some(validatedData));
  }

  /**
   * One rule's `all_errors.extend(...)` and `all_warnings.extend(...)`; `seen` is every finding
   * so far, which the two lists are the split of.
   */
  method Absorb(errors: seq<ValidationError>, warnings: seq<ValidationError>, ghost seen: seq<ValidationError>,
                findings: seq<ValidationError>)
    returns (errors': seq<ValidationError>, warnings': seq<ValidationError>, ghost seen': seq<ValidationError>)
    requires errors == OfSeverity(seen, Error) && warnings == OfSeverity(seen, Warning)
    ensures seen' == seen + findings
    ensures errors' == OfSeverity(seen', Error) && warnings' == OfSeverity(seen', Warning)
  {
    errors' := errors + OfSeverity(findings, Error);
    warnings' := warnings + OfSeverity(findings, Warning);
    seen' := seen + findings;
    OfSeverityConcat(seen, findings, Error);
    OfSeverityConcat(seen, findings, Warning);
  }

  /** No rule makes an informational finding. */
  lemma NoInformationalFindings(data: Option<Record>, currentYear: int)
    ensures forall e :: e in AllFindings(data, currentYear) ==> e.severity != Info
  {
    CompletenessFindingsShape(data);
    if data.Some? {
      var d := data.value;
      PrincipalFindingsShape(d.principalAmount);
      RateFindingsShape(d.interestRate);
      DateFindingsShape(d.startDate, "Start date", currentYear);
      DateFindingsShape(d.endDate, "End date", currentYear);
      InterestAmountFindingsShape(d.noticeInterestAmount, d.principalAmount);
      DateRangeFindingsShape(d.startDate, d.endDate);
      assert forall e :: e in DateRangeFindings(d.startDate, d.endDate) ==> e.severity != Info;
    }
  }

  /**
   * Every reported error has severity "error" and every warning "warning"; between them they
   * hold every finding of every rule, each exactly as often as it was made.
   */
  lemma ErrorsAndWarningsPartitionFindings(data: Option<Record>, currentYear: int)
    ensures var all := AllFindings(data, currentYear);
      (forall e :: e in OfSeverity(all, Error) ==> e.severity == Error)
      && (forall e :: e in OfSeverity(all, Warning) ==> e.severity == Warning)
      && multiset(OfSeverity(all, Error)) + multiset(OfSeverity(all, Warning)) == multiset(all)
  {
    var all := AllFindings(data, currentYear);
    OfSeverityMembers(all, Error);
    OfSeverityMembers(all, Warning);
    NoInformationalFindings(data, currentYear);
    OfSeverityPartition(all);
  }

  /**
   * Data that passes comprehensive validation is what the reconciliation's own completeness
   * check asks for: every field present, a positive principal, a non-negative rate and
   * notice amount, and the start before the end.
   */
  lemma ValidDataIsComplete(data: Option<Record>, currentYear: int)
    requires data.Some?
    ensures OfSeverity(AllFindings(data, currentYear), Error) == [] ==> Validator.Complete(data.value)
    ensures OfSeverity(AllFindings(data, currentYear), Error) == [] ==> Validator.CompletenessErrors(data) == []
  {
    var d := data.value;
    Validator.CompletenessEmptyIffComplete(data);
    if !Validator.Complete(d) {
      var c, p, r := CompletenessFindings(data), PrincipalFindings(d.principalAmount), RateFindings(d.interestRate);
      var s, e := DateFindings(d.startDate, "Start date", currentYear), DateFindings(d.endDate, "End date", currentYear);
      var g, i := DateRangeFindings(d.startDate, d.endDate), InterestAmountFindings(d.noticeInterestAmount, d.principalAmount);
      assert AllFindings(data, currentYear) == c + p + r + s + e + g + i;
      ErrorFreeParts(c, p, r, s, e, g, i);
      if d.principalAmount.None? || d.principalAmount.value <= 0.0 {
        PrincipalFindingsShape(d.principalAmount);
        FirstIsError(p);
      } else if d.interestRate.None? || d.interestRate.value < 0.0 {
        RateFindingsShape(d.interestRate);
        FirstIsError(r);
      } else if d.startDate.None? {
        DateFindingsShape(d.startDate, "Start date", currentYear);
        FirstIsError(s);
      } else if d.endDate.None? {
        DateFindingsShape(d.endDate, "End date", currentYear);
        FirstIsError(e);
      } else if !Before(d.startDate.value, d.endDate.value) {
        DateRangeFindingsShape(d.startDate, d.endDate);
        FirstIsError(g);
      } else {
        InterestAmountFindingsShape(d.noticeInterestAmount, d.principalAmount);
        FirstIsError(i);
      }
    }
  }

  /** A list of findings that starts with an error has an error. */
  lemma FirstIsError(findings: seq<ValidationError>)
    requires |findings| >= 1 && findings[0].severity == Error
    ensures OfSeverity(findings, Error) != []
  {
  }

  /** Seven lists of findings joined have no error only when none of them has one. */
  lemma ErrorFreeParts(c: seq<ValidationError>, p: seq<ValidationError>, r: seq<ValidationError>,
                       s: seq<ValidationError>, e: seq<ValidationError>, g: seq<ValidationError>,
                       i: seq<ValidationError>)
    ensures OfSeverity(c + p + r + s + e + g + i, Error) == [] ==>
      OfSeverity(c, Error) == [] && OfSeverity(p, Error) == [] && OfSeverity(r, Error) == []
      && OfSeverity(s, Error) == [] && OfSeverity(e, Error) == [] && OfSeverity(g, Error) == []
      && OfSeverity(i, Error) == []
  {
    OfSeverityConcat(c, p, Error);
    OfSeverityConcat(c + p, r, Error);
    OfSeverityConcat(c + p + r, s, Error);
    OfSeverityConcat(c + p + r + s, e, Error);
    OfSeverityConcat(c + p + r + s + e, g, Error);
    OfSeverityConcat(c + p + r + s + e + g, i, Error);
  }

  // format_validation_errors_for_display

  /** One entry of the `errors` or `warnings` list of the display: the field and the message. */
  datatype DisplayEntry = DisplayEntry(field: string, message: Message)

  /** The dictionary `format_validation_errors_for_display` returns. */
  datatype ErrorDisplay = ErrorDisplay(
    hasErrors: bool,
    hasWarnings: bool,
    errorCount: nat,
    warningCount: nat,
    errors: seq<DisplayEntry>,
    warnings: seq<DisplayEntry>,
    summary: string)

  /** The summary line for the given numbers of errors and warnings. */
  function Summary(errorCount: nat, warningCount: nat): string {
    if errorCount > 0 then
      "Found " + NatToString(errorCount) + " error(s)"
      + (if warningCount > 0 then " and " + NatToString(warningCount) + " warning(s)" else "")
    else if warningCount > 0 then "Found " + NatToString(warningCount) + " warning(s)"
    else "All validations passed"
  }

  /**
   * `format_validation_errors_for_display`: the counts, one entry per error and per warning in
   * their order, and the summary line.
   */
  method FormatValidationErrorsForDisplay(result: ValidationResult) returns (info: ErrorDisplay)
    ensures info.hasErrors <==> |result.errors| > 0
    ensures info.hasWarnings <==> |result.warnings| > 0
    ensures info.errorCount == |result.errors| && info.warningCount == |result.warnings|
    ensures |info.errors| == |result.errors| && |info.warnings| == |result.warnings|
    ensures forall k :: 0 <= k < |result.errors| ==>
              info.errors[k] == DisplayEntry(result.errors[k].field, result.errors[k].message)
    ensures forall k :: 0 <= k < |result.warnings| ==>
              info.warnings[k] == DisplayEntry(result.warnings[k].field, result.warnings[k].message)
    ensures info.summary == Summary(|result.errors|, |result.warnings|)
  {
    var errors: seq<DisplayEntry> := [];
    for k := 0 to |result.errors|
      invariant |errors| == k
      invariant forall j :: 0 <= j < k ==> errors[j] == DisplayEntry(result.errors[j].field, result.errors[j].message)
    {
      errors := errors + [DisplayEntry(result.errors[k].field, result.errors[k].message)];
    }
    var warnings: seq<DisplayEntry> := [];
    for k := 0 to |result.warnings|
      invariant |warnings| == k
      invariant forall j :: 0 <= j < k ==>
                  warnings[j] == DisplayEntry(result.warnings[j].field, result.warnings[j].message)
    {
      warnings := warnings + [DisplayEntry(result.warnings[k].field, result.warnings[k].message)];
    }
    var hasErrors := |result.errors| > 0;
    var hasWarnings := |result.warnings| > 0;
    var summary := "";
    if hasErrors {
      summary := "Found " + NatToString(|result.errors|) + " error(s)";
      if hasWarnings {
        summary := summary + " and " + NatToString(|result.warnings|) + " warning(s)";
      }
    } else if hasWarnings {
      summary := "Found " + NatToString(|result.warnings|) + " warning(s)";
    } else {
      summary := "All validations passed";
    }
    info := ErrorDisplay(hasErrors, hasWarnings, |result.errors|, |result.warnings|, errors, warnings, summary);
  }

  /**
   * The summary says "All validations passed" exactly when there is nothing to report, and
   * otherwise starts with the number of errors, or of warnings when there is no error, which
   * reads back from its digits.
   */
  lemma SummaryReadsBack(errorCount: nat, warningCount: nat)
    ensures Summary(errorCount, warningCount) == "All validations passed" <==> errorCount == 0 && warningCount == 0
    ensures errorCount > 0 || warningCount > 0 ==>
              var n := if errorCount > 0 then errorCount else warningCount;
              var s := Summary(errorCount, warningCount);
              var w := |NatToString(n)|;
              6 + w < |s| && s[..6] == "Found " && s[6 + w] == ' '
              && AllDigits(s[6..6 + w]) && DigitsValue(s[6..6 + w]) == n
  {
    var s := Summary(errorCount, warningCount);
    if errorCount > 0 || warningCount > 0 {
      var n := if errorCount > 0 then errorCount else warningCount;
      var digits := NatToString(n);
      var w := |digits|;
      var rest := if errorCount > 0 then " error(s)" + (if warningCount > 0 then " and " + NatToString(warningCount) + " warning(s)" else "")
                  else " warning(s)";
      assert s == "Found " + digits + rest;
      assert s[6..6 + w] == digits;
      assert s[6 + w] == rest[0] == ' ';
      NatToStringRoundTrip(n);
      assert s[0] == 'F';
    }
  }
}
