# salty: a verified model of the SALT-log rule checks

salty audits the monthly SALT (safety-audit) log of a team, which is kept as a
spreadsheet. Each week of the log has three columns per employee: category,
result and comment. The rule-checking core has three parts:

- the weekly `Validator`, whose checks append `SaltError` findings to a list;
- `SaltWeek`, which gives the week's column layout, the lookups by row or by
  employee, the keyword searches down a column and the week-level
  `validate_comment` / `validate_result` predicates;
- the `MonthValidator`, which checks each employee's monthly training drill
  and the operation name of the log.

This project models that core in Dafny and proves its rules.

- **The worksheet** is a map from `(row, column)` to a cell value (`Grid.Sheet`).
  A value is text or a date, and a date is a day number (`Calendar.Ordinal`).
- **Employees** are objects: `SaltRecords.Employee` has a name, a row and a
  mutable cache of drill days.
- **Findings** are values `SaltRecords.SaltError(employee, cell, message)`.
  A message is a constructor standing for one message text of the source.
- **Regular expressions** are written out as recognisers (`Patterns.MatchAt`).
  Each source call is modelled by the matching operation:
  - `re.match` is a match at position 0;
  - `re.search` is the leftmost match, `Patterns.Search`.
- **Python exceptions** become outcomes, not preconditions. Examples are
  `.strip()` on a cell without text, a regular expression run on a date, and
  the explicit `raise`.
  - The week-level predicates return a `Week.Verdict` (`Returns(b)`,
    `ReturnsNone` or `Raises`).
  - The checks return a `raised` flag beside the findings they appended
    before the exception.

The Python methods that change state are imperative here:
- **The validator** is a class (`Validation.Validator`) with a `saltErrors`
  sequence that each check extends. Each method is proved to append exactly
  the findings of a specification function in `ValidatorRules`.
- **The month validator** is also a class (`MonthCheck.MonthValidator`):
  - `RunChecks` loops over the roster;
  - `SetValidEmployeeDates` loops over the weeks and appends to the
    employee's cache in place;
  - the loops carry the invariants that tie them to `MonthCheck.Chain` and
    `MonthCheck.EligibleDates`.
- **`_find_in_col` and `_find_salt_cell`** are search loops
  (`Week.ScanColumn`), proved to return the first matching row
  (`Week.FirstHit`).

The month validator reads four facts about a SALT log that the log class
does not define: the operation name, its cell and the two drill columns.
`MonthCheck.MonthValidator` takes them as constructor parameters.

## Model

| member | source | states |
|---|---|---|
| Grid.ValueAt | week.py:63-65 | a cell has a value exactly when the sheet holds one at that coordinate, and it is that value |
| SaltRecords.Employee.constructor | employee.py:14-18 | an employee keeps the name and row given and starts with an empty drill-day cache |
| Calendar.DaysInMonth | week.py:92-93 | every month has 28 to 31 days |
| Calendar.DaysBeforeMonth | week.py:92-93 | plumbing: the days of a year before month `m` are at most 31 per earlier month (a bound the later lemmas use) |
| Calendar.Ordinal | week.py:92-93 | plumbing: a valid date has a positive day number, as `toordinal()` counts from 1 |
| Calendar.OrdinalNextDay | MonthValidator.py:102-105 | the next day within one month has the next day number |
| Calendar.OrdinalNextMonth | MonthValidator.py:102-105 | the first of the next month has the day number after the last day of this month |
| Calendar.DaysBeforeDecember | week.py:92-93 | January to November have 334 days, 335 in a leap year |
| Calendar.YearLength | week.py:92-93 | a year adds 366 days to the count when it is a leap year and 365 otherwise |
| Calendar.OrdinalNextYear | MonthValidator.py:102-105 | 1 January has the day number after 31 December of the year before; with the two lemmas above, consecutive dates always have consecutive day numbers, so subtracting a `timedelta` of days is subtracting from the day number |
| Text.TrimStart | validator.py:80 | leading whitespace removed: no longer than the input, every dropped character is whitespace, the first kept one is not |
| Text.TrimStartSuffix | validator.py:80 | what is kept is a suffix of the input |
| Text.TrimEnd | validator.py:80 | trailing whitespace removed: every dropped character is whitespace, the last kept one is not |
| Text.TrimEndPrefix | validator.py:80 | what is kept is a prefix of the input |
| Text.Strip | validator.py:80 | `str.strip()`: no longer than the input and neither end is whitespace |
| Text.StripUnchanged | validator.py:129 | text with no whitespace at either end is its own stripped form |
| Text.StripTrailingSpace | week.py:47 | stripping removes one trailing whitespace character after stripped text |
| Text.LowerChar | validator.py:80 | a lowered character is never an upper-case letter |
| Text.Lower | validator.py:80 | `str.lower()`: same length, each character lowered |
| Text.Upper | week.py:98 | `str.upper()`: same length, each character raised |
| Text.UpperStripUnchanged | week.py:98 | text without surrounding space or lower-case letters is its own stripped upper-case form |
| Text.LowerDiffersFromUpperCased | validator.py:130 | a lowered string never equals a string holding a capital letter |
| Text.Run | week.py:131 | the longest run of one character class from a position: all in the class, and the next is not |
| Text.RunIs | week.py:131 | any run that ends where the class ends is the longest run |
| Text.DigitValue | validator.py:90-91 | plumbing: a digit's value is at most 9 |
| Text.DigitChar | validator.py:90-91 | the digit for a value below 10 reads back as that value |
| Text.Pow10 | validator.py:90-91 | plumbing: powers of ten are positive |
| Text.NumberValue | validator.py:90-91 | `int()` of `k` digits is below `10^k` |
| Text.Show | week.py:93 | the decimal form of a number is a non-empty digit string |
| Text.NumberValueShow | validator.py:90-91 | reading back the decimal form of `n` gives `n` |
| Text.ShowTwoDigits | validator.py:84 | numbers 10 to 99 have two digits |
| Text.ShowLength | validator.py:84 | a number below `10^k` has at most `k` digits, one at least `10^(k-1)` at least `k` |
| TextFacts.StripLiveSalt | validator.py:124 | plumbing: `Live Salt` is its own stripped form |
| TextFacts.StripAcceptableDiamond | validator.py:129 | plumbing: `Acceptable Diamond Label` is its own stripped form |
| TextFacts.StripBogusLabel | validator.py:129 | plumbing: `Bogus Label` is its own stripped form |
| TextFacts.StripA | week.py:98 | plumbing: `A` is its own stripped form |
| TextFacts.StripUR | week.py:98 | plumbing: `U/R` is its own stripped form |
| TextFacts.StripU | validator.py:136-137 | plumbing: `U` is its own stripped form |
| TextFacts.UpperStripA | week.py:98 | plumbing: `A` is its own stripped upper-case form |
| TextFacts.UpperStripUR | week.py:98 | plumbing: `U/R` is its own stripped upper-case form |
| TextFacts.StripHazMatLabel | week.py:47 | plumbing: stripping removes the trailing space of `Un-audited HazMat Package ` |
| TextFacts.StripOtherFireworks | week.py:131 | plumbing: `Other Fireworks` is its own stripped form |
| Patterns.DigitRun | validator.py:84 | the maximal run of digits from a position |
| Patterns.ShortNumberThen | validator.py:84 | `\d{1,2}` then a separator: one or two digits, a value at most 99, then a separator character |
| Patterns.AllDigitsSlice | validator.py:84 | a prefix of a digit run is digits |
| Patterns.ObservationHead | validator.py:84 | `[Oo]bservation ?` spans 11 or 12 characters |
| Patterns.FractionFrom | week.py:103 | `(\d{1,2})/(\d{2})` (or `\d{2,}`): a match of at least four characters with a count at most 99, and a two-digit total in the narrow form |
| Patterns.Direction | MonthValidator.py:34 | the direction alternatives `North`, `N`, `South`, `S` (first letter in either case) start with N, n, S or s |
| Patterns.PosiTail | MonthValidator.py:34 | `[1-7] ?` and a direction: a match that consumes at least one character |
| Patterns.LiteralAt | MonthValidator.py:85-89 | a literal pattern matches at `i` exactly when the text occurs there |
| Patterns.EndingDateAt | week.py:38 | `\d{1,2}[/-]\d{1,2}[/-]\d{2,4}` spans at least six characters and has no groups |
| Patterns.ObservationAt | week.py:121 | `[Oo]bservation ?(\d{1,2})/(\d{2})`: at least 15 characters, two groups |
| Patterns.ObservationAsWrittenAt | validator.py:84 | the pattern as written spans a `]` at its end |
| Patterns.OtherSaltTypeAt | week.py:131 | `[Oo]ther [a-zA-Z0-9_/-][\sa-zA-Z0-9_/-]+` spans at least eight characters |
| Patterns.PosiCodeAt | MonthValidator.py:34 | the position-code pattern consumes at least one character |
| Patterns.MatchAt | validator.py:84 | a match at `i` starts at `i`, ends inside the text, and has each pattern's number of groups |
| Patterns.MatchAtFraction | week.py:103 | plumbing: one-step unfolding, the fraction pattern is the fraction reader from the start position |
| Patterns.MatchAtWeekObservation | week.py:121 | plumbing: one-step unfolding, the week's observation pattern is the head reader then the fraction reader |
| Patterns.MatchesOf | validator.py:84 | the match at every position, end included |
| Patterns.FirstIndex | validator.py:84 | the first position holding a match, no earlier one does |
| Patterns.FirstIndexIs | validator.py:84 | any position with a match and none before is the first |
| Patterns.Search | validator.py:84 | `re.search`: a found match starts at or after `from` and is the match at its start |
| Patterns.SearchIsLeftmost | validator.py:84 | no position before the found match (none at all if none is found) holds a match |
| Patterns.SearchSkips | validator.py:84 | positions without a match can be skipped |
| Patterns.SearchAtStart | week.py:121 | a match at the start is what the search finds, so `re.match` and `re.search` agree there |
| Patterns.SearchStep | validator.py:84 | a position without a match can be skipped |
| Patterns.FractionNeedsDigit | week.py:103 | no fraction starts at a non-digit |
| Patterns.NoFractionBefore | week.py:103 | no fraction starts inside a digit-free prefix |
| Patterns.FractionAfterPrefix | week.py:103 | after a digit-free prefix, the search finds the fraction right after it |
| Patterns.ShowRunAt | validator.py:90-91 | the digit run over a shown number is exactly that number's digits |
| Patterns.ShortNumberShow | validator.py:84 | a shown count followed by the separator is read as that count |
| Patterns.FractionShown | week.py:103 | `good/total` written out is read as the match with groups `good` and `total` |
| Patterns.TwoDigitsAt | week.py:103 | a shown two-digit total is read back |
| Patterns.FractionOfParts | week.py:103 | a count, `/` and a two-digit total make the fraction match |
| Patterns.FoundIff | validator.py:84 | a pattern is found exactly when it matches at some position |
| Patterns.ContainsIff | MonthValidator.py:85-89 | a literal is found exactly when it occurs somewhere in the text |
| Patterns.PosiTailIff | MonthValidator.py:34 | the position tail matches exactly when a digit 1-7 is followed, after at most one space, by N, n, S or s |
| Patterns.FoundPosiIff | MonthValidator.py:34 | the position-code pattern is found exactly when some digit 1-7 is followed, after at most one space, by N, n, S or s |
| Patterns.ObservationCommentAsWrittenNeedsBracket | validator.py:84 | the pattern as written is never found in a text without `]` |
| Week.FirstHit | week.py:83-90 | a row found is at or below the start, within the sheet, and its cell hits |
| Week.FirstHitIsFirst | week.py:83-90 | no row between the start and the one found hits; when none is found, no row of the column hits |
| Week.FirstHitHere | week.py:86-87 | plumbing: one-step unfolding, a hit at the start row is the row found |
| Week.FirstHitNext | week.py:86-89 | plumbing: one-step unfolding, a start row whose cell does not hit is passed over |
| Week.MentionsAny | week.py:79 | the loop over keywords finds one exactly when some keyword occurs in the lowered text |
| Week.ProbeCell | week.py:79 | the cell's text, lowered, contains the key (or a SALT-type keyword); a cell without text is skipped |
| Week.ScanColumn | week.py:77-81 | the loop down a column returns the first hitting row |
| Week.FindInCol | week.py:83-90 | `_find_in_col` returns the first row at or below the heading whose lowered text contains the lowered key, and nothing when no row does |
| Week.FindSaltCell | week.py:76-81 | `_find_salt_cell` returns the first comment-column cell naming a SALT type, and fails exactly when none does |
| Week.ParseDate | week.py:92-93 | a parsed date has a positive day number |
| Week.YearShow | week.py:93 | a written four-digit year is read back |
| Week.ParseDateOfFields | week.py:93 | month, `/`, day, `/`, four-digit year of a valid date parse to that date |
| Week.FormatDateLayout | week.py:93 | a written `M/D/YYYY` text has the field layout |
| Week.ParseDateOfLayout | week.py:93 | text with that layout parses to the date |
| Week.ParseFormatDate | week.py:93 | parsing a written `M/D/YYYY` date gives that date back |
| Week.HeadingDate | week.py:37-39 | the date text taken from the heading parses to the ending date |
| Week.ObservationResultVerdict | week.py:96-110 | never `None`; raises exactly when the code is `A` or `U/R` after strip and upper and the comment is missing or holds no fraction |
| Week.FractionNumbers | week.py:103-104 | counts are read exactly when the comment holds a fraction |
| Week.LiveCommentVerdictAsWritten | week.py:130-131 | as written, the live comment rule returns true or raises, never false |
| Week.ResultVerdictCodes | week.py:96-110 | meaning of `Week.ResultVerdictOf`, with the two lemmas below: only `A` and `U/R` after strip and upper can pass; those raise exactly when the comment holds no fraction |
| Week.AcceptableAgreesWithFraction | week.py:105-106 | `A` passes exactly when good is not below total |
| Week.UnacceptableAgreesWithFraction | week.py:107-108 | `U/R` passes exactly when good differs from total |
| Week.ObservationResultWithoutFraction | week.py:102-104 | a valid code with a comment lacking a fraction raises |
| Week.HeadsHaveNoDigit | week.py:121 | the `[Oo]bservation ?` head holds no digit |
| Week.ShownObservationLayoutHolds | week.py:121 | head, count, `/` and total written out have the comment layout |
| Week.ShownObservationHead | week.py:121 | the head of such a comment is read |
| Week.ShownObservationStrip | week.py:121 | such a comment is its own stripped form |
| Week.ShownObservationFraction | week.py:103 | the search finds the written fraction right after the head |
| Week.ShownFractionAt | week.py:103 | the fraction matches right after the head |
| Week.ShownHeadNoDigit | week.py:103 | the comment holds no digit before the fraction |
| Week.ShownObservationMatch | week.py:121 | the whole written comment matches with groups good and total |
| Week.ObservationCommentUnstripped | week.py:119-127 | on stripped text, the comment is accepted exactly when it matches with good at most total and total at most 19 |
| Week.ShownObservationVerdict | week.py:119-127 | the same for a written comment |
| Week.ObservationCommentOfLayout | week.py:119-127 | meaning of `Week.ObservationCommentVerdict`: a comment with the written layout is accepted exactly when good is at most total and total at most 19 |
| Week.ObservationCommentOfShown | week.py:119-127 | `Observation good/total` is accepted exactly when good is at most total and total at most 19 |
| Week.ShownFractionNumbers | week.py:103-104 | the counts read from `Observation good/total` are good and total |
| Week.ObservationResultOfShown | week.py:96-110 | with `Observation good/total`, `A` passes exactly when good is not below total and `U/R` exactly when they differ |
| Week.SaltWeek.constructor | week.py:8-52 | the columns are heading = category, result one right, comment two right; the PCM and signature cells sit in the comment column at the rows found; the ending date is the parsed heading date |
| Week.BuildFailure | week.py:21-44 | a missing row reported is missing; a missing SALT category is reported only once the heading date parsed; there is no failure exactly when the three rows, the heading date and the SALT-type cell are all found |
| Week.SaltWeek.Build | week.py:8-44 | the week is built exactly when the `topic`, `date` and `signature` rows, the heading date and the SALT-type cell are all found, each the first match; otherwise the failure says which was missing |
| Week.SaltWeek.EntryCells | week.py:14-17 | an entry's cells are `(row, base)`, `(row, base + 1)`, `(row, base + 2)`, three distinct cells |
| Week.SaltWeek.GetEntryOfEmployee | week.py:54-58 | an employee's entry is the entry of their row, in both modes |
| Week.SaltWeek.EntryValues | week.py:62-66 | the values of the category, result and comment cells, `(row, base)` to `(row, base + 2)` |
| Week.SaltWeek.GetEntry | week.py:54-71 | value mode gives three values, reference mode the three cells of the row of the number or of the employee |
| Week.SaltWeek.GetEntryModesAgree | week.py:60-71 | value mode gives exactly the values of the cells reference mode gives |
| Week.SaltWeek.ValidateResult | week.py:95-116 | the result rule for Observation, Live (`A` or `U/A` after strip and upper) and Supplemental Drill (`A`), and no verdict for any other type |
| Week.SaltWeek.ValidateComment | week.py:118-134 | the comment rule for Observation and Live; Supplemental Drill raises; no verdict for any other type |
| WeekExamples.EightOfEleven | week.py:119-127 | `Observation 8/11` is accepted |
| WeekExamples.TenOfTenUnspaced | week.py:119-127 | `observation10/10` is accepted |
| WeekExamples.TenOfEight | week.py:119-127 | `Observation 10/8` is rejected |
| WeekExamples.TwentyOfTwenty | week.py:124-125 | `Observation 20/20` is rejected |
| WeekExamples.FiveOfSix | week.py:121-123 | `Observation 5/6` is rejected |
| WeekExamples.ObservationCommentsWithShortTotal | week.py:121-123 | `Observation n/d` with a one-digit total is rejected |
| WeekExamples.ShortTotalUnmatched | week.py:121 | such a comment does not match the pattern |
| WeekExamples.ResultExamples | week.py:105-110 | `A` with 10/10 and `U/R` with 5/10 pass; `U/R` with 10/10 and `A` with 5/10 fail |
| WeekExamples.ResultCodeUR | week.py:98-99 | `UR` is rejected whatever the comment |
| ValidatorRules.NotPresentComments | validator.py:55-61 | every no-result category has at least one accepted comment |
| ValidatorRules.BlanksFindings | validator.py:25-30 | three findings, on category, result and comment in that order, exactly when all three cells are empty; none otherwise |
| ValidatorRules.BlankResultFindings | validator.py:32-41 | at most one finding, on the result cell, exactly when the result is empty, the category is not a no-result one, and category and comment are not both empty |
| ValidatorRules.BlankCategoryFinding | validator.py:43-48 | a finding on the category cell exactly when the category is empty |
| ValidatorRules.NoResultReport | validator.py:50-72 | nothing unless the raw category is one of the five no-result labels; then a result-cell finding exactly when a result is present, a comment-cell finding exactly when the stripped, lowered comment is not whitelisted, and a raise exactly when the comment holds no text |
| ValidatorRules.CountFindings | validator.py:92-100 | three independent findings on the comment cell: total below 10, total above 19, good above total |
| ValidatorRules.ObservationResultReport | validator.py:102-116 | at most one finding, on the result cell; a raise exactly when the result is a date |
| ValidatorRules.ObservationReport | validator.py:74-116 | with the pattern as meant, a row whose category and comment hold text and whose result is not a date never raises |
| ValidatorRules.ObservationReportAsWritten | validator.py:84-91 | as written, an observation row whose comment the pattern does not read always raises |
| ValidatorRules.ObservationCheck | validator.py:74-81 | nothing unless the stripped, lowered category is `observation`; a category without text raises |
| ValidatorRules.LiveResultFindings | validator.py:136-142 | stripped `U` gives the `U/A` hint, `A` and `U/A` nothing, anything else the invalid-result finding |
| ValidatorRules.LiveSaltReport | validator.py:118-142 | nothing unless the category is `live salt`; otherwise the salt-type finding exactly when the comment is neither listed nor `Other …`, followed by the result findings |
| ValidatorRules.LiveCommentFlaggedAsWritten | validator.py:129-131 | as written, the salt-type test either flags or raises |
| ValidatorRules.FullyBlankRow | validator.py:25-72 | a row of three empty cells draws the three blank findings and the blank-category finding, and nothing from the result checks |
| ValidatorRules.ResultChecksComplement | validator.py:32-41 | the blank-result and result-must-be-blank findings together put exactly one finding on the result cell when it is in the wrong state, and none otherwise |
| ObservationFacts.ObservationResultCases | validator.py:104-116 | blank gives the blank finding; `A` passes exactly on a perfect score; `U/R` exactly when good is below total; anything else is invalid |
| ObservationFacts.ResultBlank | validator.py:107-108 | a blank or whitespace result gives exactly the blank finding |
| ObservationFacts.ResultA | validator.py:109-111 | `A` draws no finding exactly when good equals total |
| ObservationFacts.ResultUR | validator.py:112-114 | `U/R` draws no finding exactly when good is below total |
| ObservationFacts.ResultOther | validator.py:115-116 | any other result gives exactly the invalid-result finding |
| ObservationFacts.ObservationCategoryText | validator.py:80 | a category that lowers to `observation` is checked |
| ObservationFacts.ShownObservationComment | validator.py:84 | `Observation good/total` yields the counts good and total |
| ObservationFacts.CountsOfMatchAtStart | validator.py:84 | a match at the start of stripped text gives its counts |
| ObservationFacts.ShownObservationCommentMatch | validator.py:84 | `Observation good/total` matches the comment pattern as a whole |
| ObservationFacts.ObservationOfShown | validator.py:84-116 | for an `observation` category and `Observation good/total`, the report is the count findings followed by the result check |
| ObservationFacts.ObservationCheckOfCategory | validator.py:80-91 | for an `observation` category, the report is the counts step on the counts read from the comment |
| ObservationFacts.UnreadCommentStops | validator.py:85-86 | a comment the rule cannot read gives the comment finding (when the raw category lowers to `observation`) and ends the check without raising |
| ObservationFacts.ResultOfPerfect | validator.py:109-114 | on a perfect score `A` draws nothing and `U/R` one finding |
| ObservationFacts.PerfectScore | validator.py:84-116 | `Observation n/n` with 10 to 19 observed: `A` draws nothing and `U/R` only the `U/R` finding |
| ObservationFacts.NoCountFindings | validator.py:92-100 | a count of 10 to 19, all good, adds no count finding |
| ObservationFacts.TenOfTenLayout | validator.py:84 | `Observation 10/10` has the written layout |
| ObservationFacts.PerfectTen | validator.py:84-116 | `Observation 10/10`: `A` draws nothing, `U/R` exactly the `U/R` finding |
| ObservationFacts.AsWrittenReadsNoCounts | validator.py:84 | the pattern as written reads no counts from a comment without `]` |
| ObservationFacts.ObservationAsWrittenRejectsPlainComments | validator.py:84-91 | as written, every comment without `]` gets the invalid-comment finding and then raises |
| LiveSaltFacts.LowerNotInCapitalised | validator.py:130 | lowered text is never in a list of capitalised labels |
| LiveSaltFacts.LiveCommentAlwaysFlaggedAsWritten | validator.py:130-131 | as written, every live SALT comment is flagged |
| LiveSaltFacts.LiveSaltCategory | validator.py:124 | `Live Salt` is a live SALT category |
| LiveSaltFacts.AcceptableDiamondListed | validator.py:16-21 | `Acceptable Diamond Label` is accepted |
| LiveSaltFacts.BogusLabelUnlisted | validator.py:129-131 | `Bogus Label` is not accepted |
| LiveSaltFacts.LiveAcceptableDiamond | validator.py:118-142 | `Acceptable Diamond Label` with `A` draws no finding |
| LiveSaltFacts.LiveBogusLabel | validator.py:118-142 | `Bogus Label` with `U` draws the salt-type finding and then the `U/A` hint |
| LiveSaltFacts.LiveResultOfA | validator.py:139-140 | `A` draws no finding |
| LiveSaltFacts.LiveResultOfU | validator.py:137-138 | `U` draws the `U/A` hint |
| LiveSaltFacts.LiveSaltOfTexts | validator.py:118-142 | with text cells and a live SALT category: the salt-type finding exactly when the comment is not accepted, then the result findings, and no raise |
| LiveSaltFacts.HazMatLabelNeverListed | week.py:47 | no stripped comment equals the listed label with its trailing space |
| LiveSaltFacts.AcceptedAsListed | validator.py:16-21 | the list as meant is the source's list with that one label stripped |
| LiveSaltFacts.ListedCommentsAccepted | week.py:130-131 | meaning of `Week.LiveCommentValid`: it accepts every comment whose stripped text the source's list holds |
| LiveSaltFacts.LiveHazMatLabel | validator.py:118-142 | the validator's live SALT check, with the list as meant, passes that label with result `A` |
| LiveSaltFacts.HazMatLabelAsWritten | week.py:130-131 | as written, the week's rule raises on `Un-audited HazMat Package ` |
| LiveSaltFacts.HazMatLabelAccepted | week.py:130-131 | the rule as meant accepts that label |
| LiveSaltFacts.OtherTypeAsWritten | week.py:131 | as written, the week's rule raises on `Other Fireworks` |
| LiveSaltFacts.OtherTypeAccepted | week.py:131 | the rule as meant accepts it through the `Other` pattern |
| Validation.Validator.constructor | validator.py:8-23 | a validator starts over its week with no findings |
| Validation.Validator.CheckForBlanks | validator.py:25-30 | appends exactly the blank findings; earlier findings are kept |
| Validation.Validator.CheckForBlankResult | validator.py:32-41 | appends exactly the blank-result finding, if any |
| Validation.Validator.CheckForBlankCategory | validator.py:43-48 | returns the blank-category finding and changes nothing |
| Validation.Validator.CheckCategoryNoResult | validator.py:50-72 | appends exactly the no-result findings and raises exactly when the report does |
| Validation.Validator.CheckObservationWith | validator.py:74-116 | appends exactly the observation findings for a given comment pattern |
| Validation.Validator.CheckObservation | validator.py:74-116 | appends exactly the observation findings with the comment pattern as meant |
| Validation.Validator.CheckLiveSalt | validator.py:118-142 | appends exactly the live SALT findings |
| MonthCheck.DrillDays | MonthValidator.py:102-105 | four days, exactly ending-5 to ending-2 |
| MonthCheck.AttendanceOf | MonthValidator.py:96-99 | one entry per week: present exactly when the raw category is not a no-result label, with the week's ending day |
| MonthCheck.DatesOfStep | MonthValidator.py:96-105 | plumbing: one-step unfolding, one more week adds its four days when present |
| MonthCheck.DatesOfLast | MonthValidator.py:96-105 | a day is collected from the weeks so far or from the last week |
| MonthCheck.DatesOfSound | MonthValidator.py:96-105 | every day collected is Monday to Thursday of a week present |
| MonthCheck.DatesOfComplete | MonthValidator.py:96-105 | every Monday to Thursday of a week present is collected |
| MonthCheck.DatesOfMembership | MonthValidator.py:96-105 | a day is collected exactly when it is a drill day of a week present |
| MonthCheck.DatesOfCount | MonthValidator.py:101-105 | four days per week present |
| MonthCheck.DatesOfEmpty | MonthValidator.py:101-105 | nothing is collected exactly when no week is present |
| MonthCheck.EligibleDatesMembership | MonthValidator.py:95-105 | meaning of `MonthCheck.EligibleDates`, with the two lemmas below: a day is eligible exactly when it is between ending-5 and ending-2 of a week the employee was present |
| MonthCheck.EligibleDatesCount | MonthValidator.py:95-105 | four eligible days per week present |
| MonthCheck.EligibleDatesEmpty | MonthValidator.py:58-63 | no eligible day exactly when the employee was absent all month, the case that raises |
| MonthCheck.Then | MonthValidator.py:38-44 | the second step runs only if the first did not raise; findings accumulate in order |
| MonthCheck.Chain | MonthValidator.py:39-40 | the steps raise exactly when one of them does |
| MonthCheck.ChainStops | MonthValidator.py:39-40 | once a step raises, the later ones do not matter |
| MonthCheck.ChainBound | MonthValidator.py:39-40 | steps of at most `n` findings give at most `n` per step |
| MonthCheck.ChainStep | MonthValidator.py:39-40 | plumbing: one-step unfolding, one more step is one more `Then` |
| MonthCheck.ChainAppend | MonthValidator.py:39-40 | recording step `i` after the earlier steps records the first `i + 1` |
| MonthCheck.DrillDatePart | MonthValidator.py:53-68 | the date part raises exactly in those cases |
| MonthCheck.DrillResultPart | MonthValidator.py:71-77 | the result part raises exactly on a date |
| MonthCheck.DrillResultEitherCase | MonthValidator.py:75-77 | both `P` and `p` pass; `X` draws the finding |
| MonthCheck.DrillReportMeaning | MonthValidator.py:46-77 | meaning of `MonthCheck.DrillReport`: at most two findings, about the employee's date and result cells; the empty-date finding exactly on an empty date; the not-present finding exactly on a date outside the eligible days; the empty-result finding exactly on an empty result; the not-`P` finding exactly when the lowered result is not `p`; a raise exactly when the date raises or the result is a date |
| MonthCheck.DrillReportWithoutDate | MonthValidator.py:53-54 | an empty date never looks at the eligible days |
| MonthCheck.OperationNameMeaning | MonthValidator.py:79-93 | meaning of `MonthCheck.OperationNameReport`: an empty name gives one finding and nothing else; a date raises; a text name gives a finding for each of the three codes it lacks, 0 to 3 in all |
| MonthCheck.OperationNamePosi | MonthValidator.py:91-93 | the position finding exactly when no digit 1-7 is followed, after at most one space, by N, n, S or s |
| MonthCheck.OperationNameSortCode | MonthValidator.py:85-86 | the sort-code finding exactly when `2DA` occurs nowhere |
| MonthCheck.MonthValidator.constructor | MonthValidator.py:22-36 | the validator keeps the log parts given and starts with no findings |
| MonthCheck.MonthValidator.DrillOutcomes | MonthValidator.py:39-40 | one drill outcome per employee, in roster order |
| MonthCheck.MonthValidator.MonthReportBound | MonthValidator.py:38-44 | about `MonthCheck.MonthValidator.MonthReport`, the outcome `RunChecks` is proved to produce: a month yields at most two findings per employee and three about the log |
| MonthCheck.MonthValidator.SetValidEmployeeDates | MonthValidator.py:95-105 | appends exactly the eligible days, in week order, to the employee's cache |
| MonthCheck.MonthValidator.CheckTrainingDrill | MonthValidator.py:46-77 | fills an empty cache on a filled-in date, then appends exactly the drill findings for the cache |
| MonthCheck.MonthValidator.CheckDrillDate | MonthValidator.py:48-68 | the date part, with the cache filled once |
| MonthCheck.MonthValidator.CheckDrillResult | MonthValidator.py:70-77 | the result part |
| MonthCheck.MonthValidator.CheckOperationName | MonthValidator.py:79-93 | appends exactly the operation-name findings |
| MonthCheck.MonthValidator.RunChecks | MonthValidator.py:38-44 | the roster's drill checks in order, stopping at the first raise, then the operation-name check; returns all findings |
| MonthCheck.MonthValidator.CheckDrills | MonthValidator.py:39-40 | the loop over the roster appends each drill outcome in order and keeps every cache sound |
| MonthCheck.MonthValidator.CheckRosterDrill | MonthValidator.py:40 | one employee's drill check appends its outcome and keeps the caches sound |
| MonthCheck.MonthValidator.DrillStep | MonthValidator.py:58-59 | a sound cache stays sound, and the check's outcome does not depend on whether it was filled before |

## Left out

- `salt_log.py` is not part of this model. It discovers the roster, the
  weeks and the operation name with openpyxl. Their values are inputs here:
  the sheet, the employees, the weeks and the cells.
- `ErrorProcessor.py` and `main.py` are not part of this model. They are
  output styling and workbook loading.
- `main.py` calls supplemental-drill and PCM checks that no shown code
  implements, so no such rules are invented. The PCM and signature cells
  of a week are located and kept but not checked.
- Week.SaltWeek.constructor: the openpyxl cell fetching is replaced by the
  sheet map.
  - The constructor reads its rows found as parameters. `Build` performs the
    searches and the heading-date parse.
  - week.py:43-44 call `find_salt_cell` and read `salt_type_cell`. The class
    defines `_find_salt_cell` and `_salt_type_cell`, so the source's
    constructor always fails. The model uses the evidently intended names.
- Week.FindSaltCell: the model corrects two things in `_find_salt_cell`
  (week.py:76-81).
  - `iter_rows` yields a tuple of cells per row, so `cell.value` at
    week.py:79 raises `AttributeError` on the first row. As written, the
    method never returns a cell. The model reads the row's one cell, as
    `_find_in_col` does with `cell[0]`.
  - A comment-column cell without text is skipped, as the `try` of
    `_find_in_col` skips it. `_find_salt_cell` has no `try`, so its
    `.lower()` on `None` would raise.
- Week.ParseDate: only `M/D/YYYY` with a one- or two-digit month and day and
  a four-digit year is read. Dates are day numbers from `Calendar.Ordinal`,
  not Python `date` objects. Time zones and times of day do not arise.
- Text.Lower: case mapping is modelled on ASCII letters only. Python's
  Unicode case mapping is left out.
- Text.Upper: likewise ASCII only. Python's `str.upper()` also maps other
  letters, so a result code written with non-ASCII letters may be read
  differently here.
- Digits (`Text.IsDigit`) are the ASCII digits `0`-`9`. Python's `\d` and `int()`
  also accept every other Unicode decimal digit, so a comment such as
  `Observation ١٠/١٠` (Arabic-Indic digits) parses in the source but not in
  this model.
- The case and whitespace handling of text is `Text.Strip` and `Text.Lower`.
  Python string formatting of messages is replaced by the `Message`
  constructors.
- Patterns: only the fixed patterns of the core are modelled, and general
  regular-expression semantics is not. In the week's and the corrected
  validator's rule, `Observation 5/6` does not parse, because the total must
  have two digits.
- The `drill_row` field of `MonthValidator` (MonthValidator.py:28) is never
  read, and is left out.
- MonthCheck.MonthValidator.RunChecks does not restate the soundness of the
  roster caches after the run; `CheckDrills` ensures it.
- MonthCheck.MonthValidator.RunChecks requires that every cache is empty or
  already holds the employee's eligible days. A fresh roster meets this.
- ValidatorRules.NoResultReport: a comment cell without text makes the
  source raise on `.strip()` (validator.py:71). The model raises there,
  after the result-cell finding, rather than treat it as not whitelisted.
- Validation.Validator.CheckObservation, Validation.Validator.CheckLiveSalt
  and Week.SaltWeek.ValidateComment use the rules as evidently meant.
  `ValidateComment`'s live branch uses the corrected week.py:131 rule
  (`Week.LiveCommentValid`). The rules as written are
  `ValidatorRules.ObservationReportAsWritten` and
  `ValidatorRules.LiveCommentFlaggedAsWritten` (see Findings).
- `SaltError.py` and `employee.py` are records: `SaltRecords.SaltError` and
  `SaltRecords.Employee`. An employee's openpyxl cell is replaced by its row.
- ValidatorRules.LiveSaltReport: the comment is compared with
  `Week.AcceptedLiveSaltTypes`, through `Week.LiveCommentValid`. That is
  the validator's own list (validator.py:16-21), which repeats the trailing
  space of `Un-audited HazMat Package `, with that space removed. The list
  as written is `Week.LiveSaltTypes` (see Findings).
- Week.SaltWeek.GetEntry: the dispatch on the Python type name of the row
  source becomes a two-case datatype. Other types, which raise `KeyError`,
  cannot be passed.

## Findings

| source | as written | input that shows it | evidently intended | confidence | as-written member | corrected member |
|---|---|---|---|---|---|---|
| validator.py:84 | the pattern is `i[Oo]bservation ?(\d{1,2})/(\d{2,})]`, with a stray leading `i` and trailing `]` | category `Observation`, comment `Observation 10/10` | `[Oo]bservation ?(\d{1,2})/(\d{2,})` | not executed | ObservationFacts.ObservationAsWrittenRejectsPlainComments | ObservationFacts.PerfectTen |
| validator.py:85-91 | after the invalid-comment finding the method goes on to read the groups of a missing match and raises | category `Observation`, comment `Observation` | record the finding and end the check | not executed | ObservationFacts.ObservationAsWrittenRejectsPlainComments | ObservationFacts.UnreadCommentStops |
| validator.py:130 | `salt_type.lower() not in` a list of capitalised labels always holds, so every comment is flagged before the broken `re.match` is reached | category `Live Salt`, comment `Acceptable Diamond Label`, result `A` | flag only a comment that is neither a listed label nor `Other …` | not executed | LiveSaltFacts.LiveCommentAlwaysFlaggedAsWritten | LiveSaltFacts.LiveAcceptableDiamond |
| week.py:131 | `re.match` is called without the comment, so the rule raises whenever the comment is not a listed label | Live week, comment `Other Fireworks` | match `[Oo]ther …` against the stripped comment | not executed | LiveSaltFacts.OtherTypeAsWritten | LiveSaltFacts.OtherTypeAccepted |
| week.py:47 | the label `Un-audited HazMat Package ` ends in a space but is compared with stripped text | Live week, comment `Un-audited HazMat Package ` | the label without the trailing space | not executed | LiveSaltFacts.HazMatLabelAsWritten | LiveSaltFacts.HazMatLabelAccepted |
| validator.py:16-21 | the validator's list repeats the label with the trailing space, and it is compared with stripped text, so the label can never be on the list | category `Live Salt`, comment `Un-audited HazMat Package `, result `A` | the label without the trailing space | not executed | LiveSaltFacts.HazMatLabelNeverListed | LiveSaltFacts.LiveHazMatLabel |
