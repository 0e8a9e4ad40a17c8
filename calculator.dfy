/**
 * The interest calculator: actual/360 interest on a principal between two dates, the day
 * count, the detailed breakdown, the non-raising input pre-check, the comparison tolerance
 * and the display helpers for amounts and day counts.
 * A raised `ValueError` is a `Failure` carrying its message.
 */
module Calculator {
  import opened Wrappers
  import opened Numerals
  import opened Dates

  /** The label of the day-count convention and the formula, as the calculator reports them. */
  const DayCountConvention: string := "360-day"
  const Formula: string := "Interest = Principal × Rate × Days / 360"

  predicate IsWholeCents(x: real) {
    (x * 100.0).Floor as real == x * 100.0
  }

  /**
   * `round(x, 2)`: the nearest whole number of cents, a tie going to the even cent.
   * Amounts are exact reals here, so a tie is an exact half cent.
   */
  function RoundCents(x: real): (r: real)
    ensures IsWholeCents(r)
    ensures -0.005 <= r - x <= 0.005
    ensures x >= 0.0 ==> r >= 0.0
    ensures IsWholeCents(x) ==> r == x
  {
    var c := x * 100.0;
    var f := c.Floor;
    var frac := c - f as real;
    var n := if frac < 0.5 then f else if frac > 0.5 then f + 1 else if f % 2 == 0 then f else f + 1;
    n as real / 100.0
  }

  /** An exact half cent goes to the even neighbour: 0.125 rounds to 0.12, 0.135 to 0.14. */
  lemma RoundCentsHalfEven(x: real)
    requires x * 100.0 - (x * 100.0).Floor as real == 0.5
    ensures (RoundCents(x) * 100.0).Floor % 2 == 0
    ensures RoundCents(x) * 100.0 - x * 100.0 == 0.5 || x * 100.0 - RoundCents(x) * 100.0 == 0.5
  {
  }

  /** Rounding an amount that is already rounded changes nothing. */
  lemma RoundCentsIdempotent(x: real)
    ensures RoundCents(RoundCents(x)) == RoundCents(x)
  {
  }

  /** `calculate_days`: the whole days from `start` to `end`, which must come first. */
  function CalculateDays(start: CalDate, end: CalDate): (r: Result<int, string>)
    ensures r.Success? <==> Before(start, end)
    ensures r.Failure? ==> r.error == "Start date must be before end date"
    ensures r.Success? ==> r.value >= 1
  {
    if !Before(start, end) then Failure("Start date must be before end date")
    else
      BeforeIsOrdinalOrder(start, end);
      Success(DaysBetween(start, end))
  }

  /** The day count is the number of calendar days stepped from the start to the end. */
  lemma CalculateDaysCountsDays(start: CalDate, n: nat)
    requires n >= 1 && IsValid(AddDays(start, n))
    ensures CalculateDays(start, AddDays(start, n)) == Success(n)
  {
    OrdinalAddDays(start, n);
    BeforeIsOrdinalOrder(start, AddDays(start, n));
  }

  /** Consecutive periods add up. */
  lemma CalculateDaysAdditive(a: CalDate, b: CalDate, c: CalDate)
    requires Before(a, b) && Before(b, c)
    ensures Before(a, c)
    ensures CalculateDays(a, c).value == CalculateDays(a, b).value + CalculateDays(b, c).value
  {
  }

  /** January 1 to January 31, 2024 is 30 days. */
  lemma CalculateDaysJanuary()
    ensures CalculateDays(Date(2024, 1, 1), Date(2024, 1, 31)) == Success(30)
  {
  }

  /** January 1 to April 1, 2024 is 91 days, as the leap day counts. */
  lemma CalculateDaysFirstQuarter()
    ensures CalculateDays(Date(2024, 1, 1), Date(2024, 4, 1)) == Success(91)
  {
  }

  /** The unrounded actual/360 interest. */
  function ExactInterest(principal: real, rate: real, days: int): real {
    principal * rate * days as real / 360.0
  }

  /**
   * `calculate_interest`: principal times rate times days over 360, rounded to cents. The
   * checks run in the source's order, so the first failing one decides the message.
   */
  function CalculateInterest(principal: real, rate: real, start: CalDate, end: CalDate): (r: Result<real, string>)
    ensures r.Success? <==> principal > 0.0 && rate >= 0.0 && Before(start, end)
    ensures principal <= 0.0 ==> r == Failure("Principal amount must be positive")
    ensures principal > 0.0 && rate < 0.0 ==> r == Failure("Interest rate cannot be negative")
    ensures principal > 0.0 && rate >= 0.0 && !Before(start, end) ==> r == Failure("Start date must be before end date")
    ensures r.Success? ==> r.value >= 0.0 && IsWholeCents(r.value)
    ensures r.Success? ==> -0.005 <= r.value - ExactInterest(principal, rate, DaysBetween(start, end)) <= 0.005
    ensures r.Success? && rate == 0.0 ==> r.value == 0.0
  {
    if principal <= 0.0 then Failure("Principal amount must be positive")
    else if rate < 0.0 then Failure("Interest rate cannot be negative")
    else if !Before(start, end) then Failure("Start date must be before end date")
    else
      var days := CalculateDays(start, end).value;
      assert ExactInterest(principal, rate, days) >= 0.0 by {
        assert principal * rate >= 0.0;
        assert principal * rate * days as real >= 0.0;
      }
      assert rate == 0.0 ==> ExactInterest(principal, rate, days) == 0.0;
      Success(RoundCents(ExactInterest(principal, rate, days)))
  }

  /** $1,000,000 at 5% from January 1 to April 1, 2024 is $12,638.89. */
  lemma CalculateInterestExample()
    ensures CalculateInterest(1000000.0, 0.05, Date(2024, 1, 1), Date(2024, 4, 1)) == Success(12638.89)
  {
    CalculateDaysFirstQuarter();
    assert ExactInterest(1000000.0, 0.05, 91) == 4550000.0 / 360.0;
    assert (4550000.0 / 360.0 * 100.0).Floor == 1263888;
  }

  /** One line of the written-out calculation; the numbers are kept, not their rendering. */
  datatype Step =
    | PrincipalStep(principal: real)                        // "Principal = $…"
    | RateStep(ratePercentage: real)                        // "Annual Rate = …%"
    | DaysStep(days: int)                                   // "Days = …"
    | FormulaStep(principal: real, rate: real, days: int)   // "Interest = $… × … × … / 360"
    | ResultStep(interest: real)                            // "Interest = $…"

  /** The `calculation_details` dictionary. */
  datatype Details = Details(
    principal: real,
    annualRate: real,
    annualRatePercentage: real,
    startDate: string,
    endDate: string,
    days: int,
    dayCountConvention: string,
    formula: string,
    steps: seq<Step>)

  /**
   * `CalculationResult`. The validator also meets results whose expected amount is missing,
   * so the amount is optional here; the calculator always fills it in.
   */
  datatype CalculationResult = CalculationResult(
    expectedInterest: Option<real>,
    daysCalculated: int,
    formulaUsed: string,
    details: Details)

  /** `calculate_interest_with_details`: the interest, the day count and the breakdown. */
  function CalculateInterestWithDetails(principal: real, rate: real, start: CalDate, end: CalDate)
    : (r: Result<CalculationResult, string>)
    ensures r.Failure? <==> CalculateInterest(principal, rate, start, end).Failure?
    ensures r.Failure? ==> r.error == CalculateInterest(principal, rate, start, end).error
    ensures r.Success? ==> r.value.expectedInterest == Some(CalculateInterest(principal, rate, start, end).value)
    ensures r.Success? ==>
              CalculateDays(start, end) == Success(r.value.daysCalculated) && r.value.details.days == r.value.daysCalculated
    ensures r.Success? ==> r.value.details.startDate == FormatMDY(start) && r.value.details.endDate == FormatMDY(end)
    ensures r.Success? ==>
              r.value.details.principal == principal && r.value.details.annualRate == rate
              && r.value.details.annualRatePercentage == rate * 100.0
    ensures r.Success? ==> r.value.formulaUsed == Formula
  {
    match CalculateInterest(principal, rate, start, end)
    case Failure(e) => Failure(e)
    case Success(interest) =>
      var days := CalculateDays(start, end).value;
      var details := Details(principal, rate, rate * 100.0, FormatMDY(start), FormatMDY(end), days,
        DayCountConvention, Formula,
        [PrincipalStep(principal), RateStep(rate * 100.0), DaysStep(days),
         FormulaStep(principal, rate, days), ResultStep(interest)]);
      Success(CalculationResult(Some(interest), days, Formula, details))
  }

  /** `format_currency` on an amount given in whole cents: `$` and `:,.2f`, a minus sign in front. */
  function FormatCurrency(cents: Option<int>): (s: string)
    ensures cents.None? <==> s == "N/A"
    ensures cents.Some? && cents.value < 0 ==> |s| > 2 && s[..2] == "-$"
    ensures cents.Some? && cents.value >= 0 ==> |s| > 1 && s[0] == '$'
  {
    match cents
    case None => "N/A"
    case Some(c) => if c < 0 then "-$" + FormatCents(-c) else "$" + FormatCents(c)
  }

  /** What `format_currency` prints reads back, through comma stripping and `float()`, as the amount. */
  lemma FormatCurrencyRoundTrip(c: int)
    ensures c >= 0 ==> ParseFloat(StripCommas(FormatCurrency(Some(c))[1..])) == Some(c as real / 100.0)
    ensures c < 0 ==> ParseFloat(StripCommas(FormatCurrency(Some(c))[2..])) == Some(-c as real / 100.0)
  {
    if c >= 0 {
      var s := FormatCents(c);
      assert ("$" + s)[1..] == s;
      CentsRoundTrip(c);
    } else {
      var s := FormatCents(-c);
      assert ("-$" + s)[2..] == s;
      CentsRoundTrip(-c);
    }
  }

  /** `format_days`: "1 day", otherwise the count and "days". */
  function FormatDays(days: Option<int>): (s: string)
    ensures days.None? <==> s == "N/A"
    ensures days == Some(1) <==> s == "1 day"
    ensures days.Some? && days.value != 1 ==> s == IntToString(days.value) + " days"
  {
    match days
    case None => "N/A"
    case Some(n) => if n == 1 then "1 day" else IntToString(n) + " days"
  }

  /** The count in front of " days" reads back as the count. */
  lemma FormatDaysRoundTrip(n: nat)
    requires n != 1
    ensures var s := FormatDays(Some(n)); AllDigits(s[..|s| - 5]) && DigitsValue(s[..|s| - 5]) == n
  {
    var s := FormatDays(Some(n));
    assert s[..|s| - 5] == NatToString(n);
    NatToStringRoundTrip(n);
  }

  /** `calculate_tolerance`: the larger of one dollar and one basis point of the amount. */
  function CalculateTolerance(amount: real): (t: real)
    ensures t >= 1.0
    ensures amount > 0.0 ==> t >= amount * 0.0001 && (t == 1.0 || t == amount * 0.0001)
    ensures amount <= 0.0 ==> t == 1.0
  {
    if amount <= 0.0 then 1.0
    else
      var percentageTolerance := amount * 0.0001;
      if 1.0 >= percentageTolerance then 1.0 else percentageTolerance
  }

  /** The tolerance is one dollar up to $10,000 and grows with the amount beyond. */
  lemma ToleranceThreshold(amount: real)
    ensures amount <= 10000.0 ==> CalculateTolerance(amount) == 1.0
    ensures amount > 10000.0 ==> CalculateTolerance(amount) == amount / 10000.0
  {
  }

  /** The keys `validate_calculation_inputs` may report under. */
  const CalculationInputKeys: set<string> := {"principal", "rate", "start_date", "end_date", "date_range"}

  /** Both dates are present and out of order, or more than ten years apart. */
  predicate BadDateRange(start: Option<CalDate>, end: Option<CalDate>) {
    start.Some? && end.Some?
    && (!Before(start.value, end.value) || DaysBetween(start.value, end.value) > 3650)
  }

  function PrincipalMessage(principal: Option<real>): string {
    if principal.None? then "Principal amount is required"
    else if principal.value <= 0.0 then "Principal amount must be positive"
    else "Principal amount seems unreasonably large"
  }

  function RateMessage(rate: Option<real>): string {
    if rate.None? then "Interest rate is required"
    else if rate.value < 0.0 then "Interest rate cannot be negative"
    else "Interest rate seems unreasonably high (over 100%)"
  }

  function DateRangeMessage(start: CalDate, end: CalDate): string {
    if !Before(start, end) then "Start date must be before end date"
    else "Date range seems unreasonably long (over 10 years)"
  }

  lemma InputKeysDistinct()
    ensures "principal" != "rate" && "principal" != "start_date" && "principal" != "end_date"
    ensures "principal" != "date_range" && "rate" != "start_date" && "rate" != "end_date"
    ensures "rate" != "date_range" && "start_date" != "end_date" && "start_date" != "date_range"
    ensures "end_date" != "date_range"
  {
    assert "principal"[0] != "rate"[0] && "principal"[0] != "start_date"[0];
    assert "principal"[0] != "end_date"[0] && "principal"[0] != "date_range"[0];
    assert "rate"[0] != "start_date"[0] && "rate"[0] != "end_date"[0] && "rate"[0] != "date_range"[0];
    assert "start_date"[0] != "end_date"[0] && "start_date"[0] != "date_range"[0];
    assert "end_date"[0] != "date_range"[0];
  }

  predicate BadPrincipal(principal: Option<real>) {
    principal.None? || principal.value <= 0.0 || principal.value > 1000000000.0
  }

  predicate BadRate(rate: Option<real>) {
    rate.None? || rate.value < 0.0 || rate.value > 1.0
  }

  /**
   * The map `validate_calculation_inputs` builds, entry after entry in the source's order.
   * For the date range, an out-of-order pair is entered first and a span of over ten years
   * would then overwrite it; `DateRangeNeverOverwritten` shows the two cannot both hold.
   */
  function CalculationInputErrors(principal: Option<real>, rate: Option<real>,
                                  start: Option<CalDate>, end: Option<CalDate>): map<string, string>
  {
    var m1 := if BadPrincipal(principal) then map["principal" := PrincipalMessage(principal)] else map[];
    var m2 := if BadRate(rate) then m1["rate" := RateMessage(rate)] else m1;
    var m3 := if start.None? then m2["start_date" := "Start date is required"] else m2;
    var m4 := if end.None? then m3["end_date" := "End date is required"] else m3;
    if BadDateRange(start, end) then m4["date_range" := DateRangeMessage(start.value, end.value)] else m4
  }

  /**
   * `validate_calculation_inputs`: a map from field to message, filled field by field;
   * empty when the inputs are in range.
   */
  method ValidateCalculationInputs(principal: Option<real>, rate: Option<real>,
                                   start: Option<CalDate>, end: Option<CalDate>)
    returns (errors: map<string, string>)
    ensures errors == CalculationInputErrors(principal, rate, start, end)
  {
    errors := map[];
    errors := CheckPrincipal(errors, principal);
    errors := CheckRate(errors, rate);
    if start.None? {
      errors := errors["start_date" := "Start date is required"];
    }
    if end.None? {
      errors := errors["end_date" := "End date is required"];
    }
    errors := CheckDateRange(errors, start, end);
  }

  method CheckPrincipal(errors: map<string, string>, principal: Option<real>)
    returns (result: map<string, string>)
    ensures result == if BadPrincipal(principal) then errors["principal" := PrincipalMessage(principal)] else errors
  {
    result := errors;
    if principal.None? {
      result := result["principal" := "Principal amount is required"];
    } else if principal.value <= 0.0 {
      result := result["principal" := "Principal amount must be positive"];
    } else if principal.value > 1000000000.0 {
      result := result["principal" := "Principal amount seems unreasonably large"];
    }
  }

  method CheckRate(errors: map<string, string>, rate: Option<real>)
    returns (result: map<string, string>)
    ensures result == if BadRate(rate) then errors["rate" := RateMessage(rate)] else errors
  {
    result := errors;
    if rate.None? {
      result := result["rate" := "Interest rate is required"];
    } else if rate.value < 0.0 {
      result := result["rate" := "Interest rate cannot be negative"];
    } else if rate.value > 1.0 {
      result := result["rate" := "Interest rate seems unreasonably high (over 100%)"];
    }
  }

  method CheckDateRange(errors: map<string, string>, start: Option<CalDate>, end: Option<CalDate>)
    returns (result: map<string, string>)
    ensures result == if BadDateRange(start, end) then errors["date_range" := DateRangeMessage(start.value, end.value)]
                      else errors
  {
    result := errors;
    if start.Some? && end.Some? {
      var s, e := start.value, end.value;
      DateRangeNeverOverwritten(s, e);
      if !Before(s, e) {
        result := result["date_range" := "Start date must be before end date"];
      }
      if DaysBetween(s, e) > 3650 {
        result := result["date_range" := "Date range seems unreasonably long (over 10 years)"];
      }
    }
  }

  /** A pair out of order spans no days, so the over-ten-years entry never replaces the order entry. */
  lemma DateRangeNeverOverwritten(start: CalDate, end: CalDate)
    ensures !Before(start, end) ==> DaysBetween(start, end) <= 0
  {
    BeforeIsOrdinalOrder(start, end);
  }

  /** Only the five field names ever appear as keys. */
  lemma CalculationInputKeysOnly(principal: Option<real>, rate: Option<real>,
                                 start: Option<CalDate>, end: Option<CalDate>)
    ensures CalculationInputErrors(principal, rate, start, end).Keys <= CalculationInputKeys
  {
  }

  /** `principal` is reported exactly when it is missing, not positive or over $1,000,000,000. */
  lemma PrincipalEntry(principal: Option<real>, rate: Option<real>,
                       start: Option<CalDate>, end: Option<CalDate>)
    ensures var errors := CalculationInputErrors(principal, rate, start, end);
      ("principal" in errors <==> BadPrincipal(principal))
      && ("principal" in errors ==> errors["principal"] == PrincipalMessage(principal))
  {
    InputKeysDistinct();
  }

  /** `rate` is reported exactly when it is missing, negative or over 100%. */
  lemma RateEntry(principal: Option<real>, rate: Option<real>,
                  start: Option<CalDate>, end: Option<CalDate>)
    ensures var errors := CalculationInputErrors(principal, rate, start, end);
      ("rate" in errors <==> BadRate(rate)) && ("rate" in errors ==> errors["rate"] == RateMessage(rate))
  {
    InputKeysDistinct();
  }

  /** Each date is reported exactly when it is missing. */
  lemma DateEntries(principal: Option<real>, rate: Option<real>,
                    start: Option<CalDate>, end: Option<CalDate>)
    ensures var errors := CalculationInputErrors(principal, rate, start, end);
      ("start_date" in errors <==> start.None?) && ("end_date" in errors <==> end.None?)
      && ("start_date" in errors ==> errors["start_date"] == "Start date is required")
      && ("end_date" in errors ==> errors["end_date"] == "End date is required")
  {
    InputKeysDistinct();
  }

  /**
   * `date_range` is reported exactly when both dates are present and out of order or over
   * ten years apart, with the message for the case that holds; never when a date is missing.
   */
  lemma DateRangeEntry(principal: Option<real>, rate: Option<real>,
                       start: Option<CalDate>, end: Option<CalDate>)
    ensures var errors := CalculationInputErrors(principal, rate, start, end);
      ("date_range" in errors <==> BadDateRange(start, end))
      && (start.None? || end.None? ==> "date_range" !in errors)
      && ("date_range" in errors ==>
            errors["date_range"] == DateRangeMessage(start.value, end.value))
  {
    InputKeysDistinct();
  }

  /** In-range inputs give an empty map, and only they do. */
  lemma ValidInputsHaveNoErrors(principal: Option<real>, rate: Option<real>,
                                start: Option<CalDate>, end: Option<CalDate>)
    ensures CalculationInputErrors(principal, rate, start, end) == map[] <==>
      !BadPrincipal(principal) && !BadRate(rate) && start.Some? && end.Some?
      && Before(start.value, end.value) && DaysBetween(start.value, end.value) <= 3650
  {
    PrincipalEntry(principal, rate, start, end);
    RateEntry(principal, rate, start, end);
    DateEntries(principal, rate, start, end);
    DateRangeEntry(principal, rate, start, end);
  }

  /** The limits are strict: exactly $1,000,000,000 and exactly 100% are accepted. */
  lemma LimitsAreStrict(start: Option<CalDate>, end: Option<CalDate>)
    ensures "principal" !in CalculationInputErrors(Some(1000000000.0), Some(1.0), start, end)
    ensures "rate" !in CalculationInputErrors(Some(1000000000.0), Some(1.0), start, end)
  {
    PrincipalEntry(Some(1000000000.0), Some(1.0), start, end);
    RateEntry(Some(1000000000.0), Some(1.0), start, end);
  }

  /** The day count and the pre-check agree: a date range the calculation accepts has no `date_range` entry unless it spans over ten years. */
  lemma DateRangeCheckMatchesCalculation(start: CalDate, end: CalDate)
    ensures BadDateRange(Some(start), Some(end)) <==>
      CalculateDays(start, end).Failure? || CalculateDays(start, end).value > 3650
  {
  }
}
