# SyndiClean interest-notice checker, modelled in Dafny

SyndiClean checks interest notices sent to the lenders of a syndicated loan. The text of a notice
goes through three stages:

- **extraction** reads the principal, the interest rate, the interest-period dates and the stated
  interest amount out of the text, using keyword-anchored regular expressions;
- **calculation** recomputes the interest on the actual/360 convention (principal × rate × days /
  360, rounded to cents);
- **reconciliation** compares the two amounts against a tolerance of the larger of $1 and one basis
  point, and produces a PASS/FAIL verdict with recommendations.

Alongside these stages, an **input validator** grades every extracted field as an error or a
warning before anything is calculated.

The project models these four modules. Each module of the program has one Dafny module.

- `Calculator` (calculator.dfy) holds the day count, the interest formula with its error cases, the
  detailed result, the input checks that build a field-to-message dictionary, the tolerance and the
  display formatting of amounts and day counts.
- `Extractor` (extractor.dfy) holds the amount, rate, date and interest-amount parsers.
  - Each parser has a `method` with the loops of the program, and the method is proved against a
    specification function on the text.
  - `ExtractedData` is a `class` whose fields `ExtractLoanData` fills in place.
- `Validator` (validator.dfy) holds the reconciliation, the recommendations, the display record,
  the completeness dictionary and the "can we validate" check.
- `InputValidator` (input_validator.dfy) holds the per-field graders, the required-fields check, the
  comprehensive validation that splits the findings into errors and warnings, and the display
  summary.

Four support modules model the parts of Python the program relies on:

- `Text` covers character classes, `lower()`, `strip()` and substring search;
- `Numerals` covers `float()` on a digit string, `str()` of an integer and `:,.2f`;
- `Dates` covers proleptic-Gregorian dates, `toordinal`, `weekday`, date comparison, `strptime`
  for the nine formats used, `strftime('%m/%d/%Y')` and sorting;
- `Patterns` has one deterministic greedy matcher for each regular expression of the extractor,
  and `re.finditer` as a left-to-right scan that resumes at the end of each match.

Money, rates and day counts are exact: amounts and rates are `real`, and days are `int`. Python's
`round(x, 2)` is modelled as rounding half to even on the exact value.

## Model

| member | source | states |
|---|---|---|
| Calculator.RoundCents | calculator.py:57 | the result is a whole number of cents within half a cent of the input, and whole-cent inputs are unchanged |
| Calculator.RoundCentsHalfEven | calculator.py:57 | an amount exactly half a cent from two neighbours rounds to the even one |
| Calculator.RoundCentsIdempotent | calculator.py:57 | rounding an already rounded amount changes nothing |
| Calculator.CalculateDays | calculator.py:60-82 | succeeds exactly when start is before end, and then gives at least one day; otherwise it fails with the start/end message |
| Calculator.CalculateDaysCountsDays | calculator.py:77-82 | from a date to the date n days later is exactly n days |
| Calculator.CalculateDaysAdditive | calculator.py:77-82 | day counts over consecutive periods add up |
| Calculator.CalculateDaysJanuary | calculator.py:60-82 | 2024-01-01 to 2024-01-31 is 30 days |
| Calculator.CalculateDaysFirstQuarter | calculator.py:60-82 | 2024-01-01 to 2024-04-01 is 91 days (leap February) |
| Calculator.CalculateInterest | calculator.py:23-57 | checks principal, then rate, then dates with the three messages; on success the result is non-negative, whole cents, within half a cent of principal × rate × days / 360, and zero at a zero rate |
| Calculator.CalculateInterestExample | calculator.py:52-57 | $1,000,000 at 5% over Q1 2024 is $12,638.89 |
| Calculator.CalculateInterestWithDetails | calculator.py:85-126 | fails exactly when the calculation fails, with the same message; the result carries the calculated interest, the day count, the dates as MM/DD/YYYY and the formula text |
| Calculator.FormatCurrency | calculator.py:129-146 | "N/A" exactly for a missing amount; negative amounts start with "-$", others with "$" |
| Calculator.FormatCurrencyRoundTrip | calculator.py:143-146 | removing the sign and the commas from the formatted amount and reading it back gives the amount |
| Calculator.FormatDays | calculator.py:236-252 | "N/A" exactly for a missing count, "1 day" exactly for one, and otherwise the number followed by " days" |
| Calculator.FormatDaysRoundTrip | calculator.py:249-252 | the digits before " days" read back as the count |
| Calculator.CalculateTolerance | calculator.py:198-217 | at least $1; for a positive amount it is the larger of $1 and one basis point; $1 for amounts at or below zero |
| Calculator.ToleranceThreshold | calculator.py:210-217 | $1 up to an amount of $10,000, and one basis point above it |
| Calculator.ValidateCalculationInputs | calculator.py:149-195 | the loop-free method builds the same dictionary as the specification of the four checks |
| Calculator.CheckPrincipal | calculator.py:166-171 | adds the principal message exactly when the principal is missing, non-positive or above $1 billion |
| Calculator.CheckRate | calculator.py:174-179 | adds the rate message exactly when the rate is missing, negative or above 100% |
| Calculator.CheckDateRange | calculator.py:187-193 | adds the date-range message when both dates are present and the range is inverted or longer than 3650 days |
| Calculator.InputKeysDistinct | calculator.py:166-193 | the five dictionary keys are distinct, so no check overwrites another's entry |
| Calculator.DateRangeNeverOverwritten | calculator.py:187-193 | an inverted range has a non-positive day count, so the "over 10 years" message never replaces the "before" message |
| Calculator.CalculationInputKeysOnly | calculator.py:149-195 | the dictionary uses only the five keys |
| Calculator.PrincipalEntry | calculator.py:166-171 | the principal entry is present exactly in the three bad cases, with the matching message |
| Calculator.RateEntry | calculator.py:174-179 | the rate entry is present exactly in the three bad cases, with the matching message |
| Calculator.DateEntries | calculator.py:182-185 | the start and end entries are present exactly when that date is missing |
| Calculator.DateRangeEntry | calculator.py:187-193 | the date-range entry is present exactly for an inverted or over-long range, with the matching message |
| Calculator.ValidInputsHaveNoErrors | calculator.py:149-195 | the dictionary is empty exactly when all inputs are present and in range |
| Calculator.LimitsAreStrict | calculator.py:166-179 | a $1,000,000,000 principal and a 100% rate are accepted |
| Calculator.DateRangeCheckMatchesCalculation | calculator.py:187-193 | the date-range check rejects exactly what the interest calculation would reject, or a range over 3650 days |
| Extractor.InterestPatterns | extractor.py:290-295 | the four interest patterns pair each keyword group with the amount grammar |
| Extractor.MaxOf | extractor.py:138 | the maximum is an element and bounds every element |
| Extractor.KeepInWindow | extractor.py:129-133 | every kept value lies in the plausibility window |
| Extractor.KeepComplete | extractor.py:129-132 | every reading in the window is kept |
| Extractor.KeepSound | extractor.py:129-132 | every kept value comes from a reading in the window |
| Extractor.KeepEmpty | extractor.py:137-138 | nothing is kept exactly when no reading is in the window |
| Extractor.FirstValueAt | extractor.py:108-117 | the first value is the reading of the first match accepted |
| Extractor.ValuesComplete | extractor.py:296-306 | every accepted match contributes its reading |
| Extractor.ValuesSound | extractor.py:296-306 | every value comes from an accepted match |
| Extractor.PrincipalOf | extractor.py:87-138 | a found principal lies within [1000, 1e9] |
| Extractor.ParseCurrencyAmount | extractor.py:87-138 | the nested loops compute PrincipalOf |
| Extractor.ValuesOf | extractor.py:124-135 | the loop over the matches collects Values |
| Extractor.FirstValueOf | extractor.py:108-117 | the loop over the matches returns the first accepted reading |
| Extractor.PlausibleValues | extractor.py:297-308 | the loop over the patterns collects the values of all their matches in order |
| Extractor.PrincipalKeywordFirst | extractor.py:101-117 | the principal is the first keyword-anchored amount in [1000, 1e9] |
| Extractor.PrincipalFallback | extractor.py:119-138 | with no keyed amount in range, the principal is missing exactly when no dollar amount is in [1000, 1e8], and is otherwise the largest one |
| Extractor.AmountReadsFormattedCents | extractor.py:112-113 | an amount written with thousands separators and two decimals reads back as that amount |
| Extractor.RateOf | extractor.py:237-274 | a found rate lies within [0.001, 0.5] |
| Extractor.ParsePercentage | extractor.py:237-274 | the loops compute RateOf |
| Extractor.RateFirst | extractor.py:259-274 | the rate is the first percentage, across the patterns in order, whose decimal value is in range |
| Extractor.RateNone | extractor.py:273-274 | no rate exactly when no percentage is in range |
| Extractor.InterestAmountOf | extractor.py:276-311 | a found interest amount lies within [1, 1e7] |
| Extractor.ExtractInterestAmount | extractor.py:276-311 | the loops compute InterestAmountOf |
| Extractor.InterestAmountFirst | extractor.py:297-311 | the interest amount is the first keyed amount in range |
| Extractor.InterestAmountNone | extractor.py:310-311 | no interest amount exactly when no keyed amount is in range |
| Extractor.InterestDueAnchor | extractor.py:291 | in "interest due 13125" the keywords end at 12 and the amount starts at 13 |
| Extractor.UnseparatedInterestAmount | extractor.py:291 | the pattern as written captures only "131" of "interest due 13125"; the corrected grammar captures "13125" |
| Extractor.LeadingInterestHit | extractor.py:297-311 | an in-range hit of the first interest pattern at the start of the text is the amount returned |
| Extractor.UnseparatedReadings | extractor.py:303-304 | "131" reads as 131.0 and "13125" as 13125.0 |
| Extractor.ExtractionInterest | extractor.py:77-80 | the extracted record's interest amount is the one the interest parser finds in the text |
| Extractor.UnseparatedInterestExtraction | extractor.py:291-311 | on "interest due 13125" the program as written extracts an interest amount of 131.0, and the corrected grammar 13125.0 |
| Extractor.FirstFormatSpec | extractor.py:166-172 | the result comes from some format, and is missing exactly when every format fails |
| Extractor.ParseDate | extractor.py:140-172 | the loop over the formats computes DateOf |
| Extractor.DateOfFirstFormat | extractor.py:166-170 | the first format that parses the stripped text decides the date |
| Extractor.DateOfRoundTrip | extractor.py:155 | a date written as MM/DD/YYYY parses back to the same date |
| Extractor.CollectDatesDistinct | extractor.py:196-202 | collected dates have no duplicates |
| Extractor.CollectDatesSound | extractor.py:218-231 | each collected date is read from a match, and in the fallback from one outside a notice context |
| Extractor.CollectDatesComplete | extractor.py:218-231 | every admitted match contributes its date |
| Extractor.CandidateDates | extractor.py:204-231 | the candidate dates are distinct |
| Extractor.FirstTwo | extractor.py:233-235 | the first two elements, or all of them when there are fewer |
| Extractor.DatesOf | extractor.py:174-235 | at most two dates, in increasing order, the first strictly before the second |
| Extractor.OutsideNotice | extractor.py:225-230 | true exactly when the ±50-character window, lower-cased, contains neither "notice" nor "reference" |
| Extractor.CollectDatesOver | extractor.py:221-231 | the loop over the matches collects CollectDates |
| Extractor.CollectDate | extractor.py:222-231 | one match adds its date when it parses, is new and (in the fallback) is outside a notice context |
| Extractor.CollectDatesFrom | extractor.py:218-231 | the loop over the patterns collects the dates of all their matches |
| Extractor.ExtractDates | extractor.py:174-235 | the method computes DatesOf |
| Extractor.DatesOfEarliest | extractor.py:204-235 | the dates returned are candidates, any candidate left out is later than both, and two are returned whenever there are two |
| Extractor.CandidatesFromMatches | extractor.py:194-231 | every candidate was read from a keyed match, or in the fallback from a general match outside a notice context |
| Extractor.UnflaggedDatesAreCandidates | extractor.py:218-231 | in the fallback, a general match outside a notice context that parses becomes a candidate |
| Extractor.ExtractedData.constructor | extractor.py:18-24 | all fields unset and an empty confidence map |
| Extractor.ExtractLoanData | extractor.py:26-85 | fails with the no-text message exactly when the joined pages are blank, and otherwise returns a fresh object holding the extraction of the text, for either interest-amount grammar |
| Extractor.FillIn | extractor.py:56-80 | the object's fields become the record assembled from the four parsers' results |
| Extractor.BlankConcat | extractor.py:53 | a concatenation is blank exactly when both parts are |
| Extractor.JoinPagesBlank | extractor.py:47-54 | the joined text is blank exactly when every page is blank |
| Extractor.ConfidenceKeysDistinct | extractor.py:58-80 | the four confidence keys are distinct |
| Extractor.AssembleConfidence | extractor.py:56-80 | a confidence entry exists exactly for each field found, at 0.8 (0.7 for the dates); both dates are set together, the start before the end |
| Extractor.ExtractionConfidence | extractor.py:56-80 | the same facts for the record extracted from a text |
| Extractor.ExtractionRanges | extractor.py:56-80 | every field found lies in its window, and the dates are set exactly when there are two candidates, taken from those candidates |
| Patterns.NumeralAt | extractor.py:291-294 | the comma-digit grammar matches exactly at a digit or comma, and the grouped grammar exactly at a digit |
| Patterns.CommaDigitsReadsWholeRun | extractor.py:102-104 | `[0-9,]+` takes a whole run of digits (and cents) |
| Patterns.GroupsStopInRun | extractor.py:291 | the repeated groups `(?:,?[0-9]{3})*` stop at the last whole group of three inside a digit run whose length is not a multiple of three |
| Patterns.GroupedDigitsCutsRun | extractor.py:291-294 | `[0-9]{1,3}(?:,?[0-9]{3})*(?:\.[0-9]{2})?` stops short of the end of an unseparated amount of four or more digits whose length is not a multiple of three, at its last whole group of three |
| Patterns.KeyedAmountMatch | extractor.py:291-294 | a keyed amount matches from the keywords through the optional dollar sign to the end of the number, capturing the number |
| Patterns.AnchorAtFirst | extractor.py:291-294 | a keyword alternation matches exactly when one of its phrases does, ending where that phrase ends |
| Patterns.PrincipalKeywordAt | extractor.py:102 | matches exactly at the word "principal" |
| Patterns.MatchAt | extractor.py:101-104 | a match starts at the position, is non-empty and has a non-empty group |
| Patterns.SearchUnfold | extractor.py:109 | finditer takes the match at the position and resumes at its end, or moves on one character |
| Patterns.SearchMatches | extractor.py:109 | every match found is the pattern's match at its start |
| Patterns.SearchFirst | extractor.py:109 | the first match found is the first position where the pattern matches |
| Patterns.SearchNone | extractor.py:109 | no match found when the pattern matches nowhere |
| Patterns.SearchComplete | extractor.py:109 | a match at a position reached by the scan is found |
| Patterns.FindAll | extractor.py:297-300 | matches lie within the text, in order and without overlap |
| Patterns.FindAllComplete | extractor.py:196-198 | every match reached by the scan is reported |
| Dates.FormatMDYRoundTrip | calculator.py:107-108 | a date written with `%m/%d/%Y` parses back to the same date |
| Dates.BeforeIsOrdinalOrder | calculator.py:48 | date comparison agrees with the order of the day numbers |
| Dates.OrdinalAddDays | calculator.py:77-82 | n days later has a day number larger by n |
| Dates.WeekdayNextDay | input_validator.py:77 | the weekday cycles by one each day |
| Dates.SortDates | extractor.py:233-235 | sorting permutes the list |
| Dates.SortDatesIncreasing | extractor.py:233-235 | the sorted list is increasing |
| Numerals.CentsRoundTrip | calculator.py:146 | `:,.2f` of an amount in cents, without its commas, reads back as the amount |
| Numerals.GroupThousandsStrip | calculator.py:146 | removing the thousands separators restores the digits |
| Numerals.NatToStringRoundTrip | calculator.py:252 | `str()` of a count reads back as the count |
| Text.Strip | extractor.py:168 | the stripped text has no space at either end, and is empty exactly when the text is blank |
| Text.StripTrims | extractor.py:168 | the stripped text is the text with a run of leading spaces and a run of trailing spaces cut off, and nothing else |
| Validator.Max | validator.py:48 | the larger of two values |
| Validator.CalculateTolerance | validator.py:28-48 | the same tolerance as the calculator's |
| Validator.Abs | validator.py:76 | a non-negative value equal to x or -x |
| Validator.Compare | validator.py:72-121 | the difference is the distance between the amounts; the percentage satisfies percentage × expected = difference × 100 (0 when expected ≤ 0); PASS exactly when the difference is within the tolerance; FAIL says "more" exactly when the notice is higher |
| Validator.ValidateInterestCalculation | validator.py:51-121 | fails with the calculation message when the calculated interest is missing, then with the notice message when the notice amount is missing, and otherwise succeeds with the comparison of the two |
| Validator.EqualAmountsPass | validator.py:83-91 | equal amounts PASS with no difference |
| Validator.DollarToleranceBelowTenThousand | validator.py:76-83 | below $10,000 the verdict is PASS exactly when the amounts are within $1 |
| Validator.VerdictInBasisPoints | validator.py:77-83 | a FAIL differs by more than 0.01%, and at or above $10,000 a PASS differs by at most 0.01% |
| Validator.PercentageAgainstBasisPoint | validator.py:77 | a percentage over 0.01 means a difference over one basis point of the amount |
| Validator.GetValidationRecommendations | validator.py:161-199 | the method computes Recommendations |
| Validator.RecommendationsShape | validator.py:171-199 | three fixed lines for a PASS; for a FAIL four fixed lines, a magnitude line exactly above 1%, and one direction line |
| Validator.FormatValidationForDisplay | validator.py:202-231 | "PASS"/"success" exactly for a PASS and "FAIL"/"error" for a FAIL, with the message, explanation and recommendations carried over |
| Validator.KeysOf | validator.py:244-276 | one key per entry, in order |
| Validator.PrincipalProblem | validator.py:251-254 | at most one entry, keyed principal |
| Validator.RateProblem | validator.py:256-259 | at most one entry, keyed rate |
| Validator.StartProblem | validator.py:261-262 | at most one entry, keyed start_date |
| Validator.EndProblem | validator.py:264-265 | at most one entry, keyed end_date |
| Validator.RangeProblem | validator.py:267-269 | at most one entry, keyed date_range |
| Validator.NoticeProblem | validator.py:271-274 | at most one entry, keyed notice_amount |
| Validator.ValidateExtractedDataCompleteness | validator.py:234-276 | the method computes CompletenessErrors |
| Validator.CheckPrincipal | validator.py:251-254 | appends the principal problem |
| Validator.CheckRate | validator.py:256-259 | appends the rate problem |
| Validator.CheckNotice | validator.py:271-274 | appends the notice-amount problem |
| Validator.DistinctAppend | validator.py:244-276 | joining entry lists with disjoint keys keeps the keys distinct |
| Validator.CompletenessEmptyIffComplete | validator.py:234-276 | no problems exactly when data exists with every field present, positive principal, non-negative rate and notice, and start before end; missing data gives only the general entry |
| Validator.CompletenessKeysDistinct | validator.py:244-276 | no key appears twice, as in the dictionary |
| Validator.DataIssues | validator.py:294-295 | one prefixed issue per dictionary message, in order |
| Validator.CanPerformValidation | validator.py:279-306 | the issues are the data issues followed by the calculation issue, and validation is possible exactly when there are none |
| Validator.IssueCount | validator.py:290-306 | one issue per data problem plus one for an unusable calculation; none exactly when the data is complete and the calculation usable |
| Validator.NoIssuesMeansComparison | validator.py:279-306 | when validation is possible, the comparison succeeds on non-negative amounts |
| InputValidator.When | input_validator.py:33-333 | the finding exactly when its condition holds |
| InputValidator.OfSeverity | input_validator.py:413-451 | no longer than the list |
| InputValidator.OfSeverityMembers | input_validator.py:413-451 | exactly the findings of that severity |
| InputValidator.OfSeverityConcat | input_validator.py:413-451 | filtering distributes over concatenation |
| InputValidator.OfSeverityPartition | input_validator.py:413-451 | with no informational findings, the errors and the warnings together are the findings |
| InputValidator.ValidateDateFormatAndRange | input_validator.py:33-86 | the method computes DateFindings |
| InputValidator.DateFindingsShape | input_validator.py:33-86 | a missing date is one error; otherwise one error exactly when the year lies outside [now - 50, now + 10], and one warning exactly on a Saturday or Sunday |
| InputValidator.ValidateDateRange | input_validator.py:89-145 | the method computes DateRangeFindings |
| InputValidator.DateRangeFindingsShape | input_validator.py:89-145 | nothing with a date missing; one error for an inverted range; otherwise the period is at least one day, with a warning above 730 days and a warning plus an error above 3650 |
| InputValidator.ValidatePrincipalAmount | input_validator.py:148-206 | the method computes PrincipalFindings |
| InputValidator.PrincipalFindingsShape | input_validator.py:148-206 | one error when missing or non-positive; otherwise an error exactly above $100 billion, a warning exactly outside [$1,000, $1 billion], and nothing exactly inside that range |
| InputValidator.PrincipalAtOneBillion | input_validator.py:189 | $1 billion draws no finding |
| InputValidator.ValidateInterestRate | input_validator.py:209-267 | the method computes RateFindings |
| InputValidator.RateFindingsShape | input_validator.py:209-267 | one error when missing or negative; otherwise an error exactly above 100%, a warning exactly outside [0.01%, 25%], and nothing exactly inside |
| InputValidator.ValidateInterestAmount | input_validator.py:270-333 | the method computes InterestAmountFindings |
| InputValidator.RatioFindingsShape | input_validator.py:312-331 | with a positive principal, an error exactly when the interest exceeds it and a warning exactly above half of it |
| InputValidator.RatioAgainst | input_validator.py:313-327 | comparing the ratio equals comparing the amount with the scaled principal |
| InputValidator.InterestAmountFindingsShape | input_validator.py:270-333 | one error when missing or negative; otherwise an error exactly when the interest exceeds a positive principal, and one warning for an amount under $1 plus one for an amount above half of, but not above, a positive principal |
| InputValidator.FieldsPresent | input_validator.py:358-369 | one flag per required field |
| InputValidator.MissingAmong | input_validator.py:366-369 | no more names than fields examined |
| InputValidator.MissingAmongOrder | input_validator.py:366-369 | the missing names keep the order of the required fields |
| InputValidator.MissingAmongMembers | input_validator.py:366-369 | a name is listed exactly when its field is missing |
| InputValidator.MissingAmongNames | input_validator.py:366-369 | only required display names are listed |
| InputValidator.NamesDistinct | input_validator.py:358-364 | the display names are distinct |
| InputValidator.CollectLowConfidence | input_validator.py:381-385 | the loop collects the fields below 0.5 |
| InputValidator.ValidateRequiredFieldsCompleteness | input_validator.py:336-395 | the method computes CompletenessFindings |
| InputValidator.CompletenessFindingsShape | input_validator.py:336-395 | missing data is one error; otherwise one error exactly when a field is missing and one warning exactly when a confidence is below 0.5 |
| InputValidator.MissingFieldsListed | input_validator.py:366-374 | the error lists exactly the missing fields in the fixed order |
| InputValidator.ExtractionHasNoLowConfidence | input_validator.py:379-393 | a record extracted from text never draws the low-confidence warning |
| InputValidator.AssembledScoresAreHigh | input_validator.py:383 | the extractor's fixed scores are all at least 0.5 |
| InputValidator.PerformComprehensiveValidation | input_validator.py:398-470 | errors and warnings are the findings of every check, in order, split by severity; valid exactly when data exists and there are no errors; the validated data are the five fields |
| InputValidator.Absorb | input_validator.py:413-451 | adding a check's findings extends the errors and warnings by its own |
| InputValidator.NoInformationalFindings | input_validator.py:33-395 | no check produces an informational finding |
| InputValidator.ErrorsAndWarningsPartitionFindings | input_validator.py:413-451 | every finding lands in exactly one of errors and warnings |
| InputValidator.ValidDataIsComplete | input_validator.py:398-470 | data with no errors is complete in the reconciliation's sense, so its completeness check is empty |
| InputValidator.FormatValidationErrorsForDisplay | input_validator.py:473-519 | the flags and counts match the lists, each entry carries its finding's field and message, and the summary is the one for those counts |
| InputValidator.SummaryReadsBack | input_validator.py:509-517 | "All validations passed" exactly when there are no findings; otherwise "Found " followed by the error count, or the warning count when there are no errors |

## Left out

- Reading PDFs with pdfplumber (extractor.py:43-51) and the re-wrapping of its exceptions
  (extractor.py:84-85) are calls into a library. `ExtractLoanData` takes the pages' text as a
  sequence of strings.
- Floating point is not modelled. Amounts and rates are exact reals, so the comparisons at the
  range limits are exact, and `round` rounds half to even on the exact value.
- Messages whose text interpolates numbers or dates are kept as structured values, for example
  `PeriodVeryLong(days)`, and are not rendered as text. The fixed messages are kept verbatim.
- The `suggestion` texts of input_validator.py are not modelled, because they are free text that
  nothing reads.
- `generate_validation_summary` (validator.py:124-158) is not modelled, because it only formats
  the verdict.
- `format_percentage` (calculator.py:220-233) is not modelled, because it is `:.4f` float
  formatting.
- The steps of `calculation_steps` (calculator.py:112-118) are kept as structured values, for
  example `RateStep(ratePercentage)`. The number formatting inside their text is not modelled.
- Calculator.FormatCurrency: takes the amount as whole cents. The rounding that `:,.2f` applies
  to a float is left to `RoundCents`.
- `datetime.now()` is not read. The current year is a `currentYear` parameter of
  `PerformComprehensiveValidation` and of the date checks.
- The confidence dictionary is a `map`, so the order in which its low-confidence fields would be
  listed is not kept. The warning carries the set of those fields.
- Month names for `%B` and `%b` are the fixed English names and abbreviations. Locale-dependent
  names are not modelled.
- Text is ASCII in the model. Character classes, the `\s` and `\b` of the patterns and `lower()`
  are their ASCII forms.
- The interest-amount number grammar is a `Numeral` argument of `InterestAmountOf`,
  `Extraction`, `ExtractLoanData` and the lemmas about them. `GroupedDigits` is the pattern as the
  program writes it, and `CommaDigits` is the corrected reading (see Findings).
- The web front end (app.py) and the logging set-up (logging_config.py) are not part of this
  model.

## Findings

| source | as written | input that shows it | evidently intended | confidence | as-written member | corrected member |
|---|---|---|---|---|---|---|
| extractor.py:291-294 | the number group `[0-9]{1,3}(?:,?[0-9]{3})*(?:\.[0-9]{2})?` has no right boundary, so on an unseparated amount of four or more digits whose length is not a multiple of three it stops at the last whole group of three, drops the cents, and still reports a match | "Interest Due: $13125.00" is read as 131 and "Interest Due: $1312500.00" as 131250; the model exhibits "interest due 13125" extracted as 131.0 | read the whole amount, as the `[0-9,]+(?:\.[0-9]{2})?` of the principal patterns (extractor.py:102-104) does | not executed | Patterns.GroupedDigitsCutsRun | Patterns.CommaDigitsReadsWholeRun |
