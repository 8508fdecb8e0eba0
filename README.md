# UveCheck risk engine in Dafny

UveCheck estimates how likely a child with juvenile idiopathic arthritis is to
develop uveitis, and how often the child's eyes should be screened. The
clinician picks a region. The region selects one of eight national or
international guidelines. The clinician fills in a short form: date of birth,
date of diagnosis, sub-diagnosis, ANA status and, for the Nordic guideline,
methotrexate and biological treatment. The guideline's evaluator then returns
four things:

- a risk level;
- a screening recommendation;
- a follow-up period;
- a justification.

This project models that engine:

- `DateService` (`date_service.dfy`) covers `parseDate` and `yearsDaysDiff`. Calendar dates are counted by day numbers.
- `GuidelineCommon` holds the pieces every evaluator shares:
  - the threshold tests "≤ N years" and "> N years";
  - the date parsing guard;
  - the ages computed from the dates.
- There is one module per evaluator: `UkGuideline`, `NordicGuideline`, `UsPakistanGuideline`, `GermanyGuideline`, `SpainPortugalGuideline`, `CzechSlovakGuideline`, `ArgentinaGuideline` and `MiwgucGuideline`.
  - Each has a method (`...Calculate`) that follows the source step by step: it assigns the four result variables and reassigns them through the if/else chains and second passes.
  - Each method is proved equal to an independently written decision table (`...Assessment` / `...Table`).
  - The guideline's properties are proved about that table.
- `AlgorithmService` is the guideline registry:
  - names, age limits, questions and option lists;
  - `getAlgorithm`;
  - dispatch to the evaluators.
- `Constants` holds the region table `COUNTRIES` and its sort by label.
- `CalculatorPage` models four parts of the page:
  - the guideline lookup for the selected region;
  - the form-update rule that clears a diagnosis date now before the birth date;
  - the completeness check;
  - the guarded calculation.
- `DateInput` models the keystroke mask of the date field and the formatter for a date picked in the calendar.
- `Types` mirrors the records of `types.ts`. `Wrappers` holds `Option`.

The wall clock that the evaluators read is a `today` parameter.

## Model

| member | source | states |
|---|---|---|
| DateService.ParseDate | src/services/dateService.ts:3-15 | The text is accepted only if it matches `DD/MM/YYYY` and names an existing date with a year the Date constructor keeps. The result's day, month and year are the numbers written. Every such text is accepted. |
| DateService.ParseDateExamples | src/services/dateService.ts:3-15 | 29/02/2024 parses. These are rejected: 31/02/2023, 29/02/2023, 00/01/2020, 32/01/2020, 01/13/2020, a year 0099, a one-digit day and dashes. |
| DateService.WrittenDigits | src/services/dateService.ts:5-8 | `parseInt` of the three fields of a matching text gives the numbers the digits spell. |
| DateService.ConstructorYear | src/services/dateService.ts:9-11 | The year `new Date(year, month, day)` builds: a written year from 0 to 99 becomes 1900 to 1999, any other stays. `ParseDate` rejects every text whose year it changes (0000–0099), through `RoundTrips`. |
| DateService.DayNumberOrder | src/services/dateService.ts:18 | Comparing two valid dates as timestamps agrees with calendar order. Equal day numbers mean equal dates. |
| DateService.FebruaryTwentyNinthRollsOver | src/services/dateService.ts:38 | In a common year the constructor turns 29 February into 1 March. |
| DateService.YearsDaysDiff | src/services/dateService.ts:17-44 | `years` is never negative, and `days` lies in 0..365. |
| DateService.AnniversaryBracket | src/services/dateService.ts:31-41 | The anniversary the source builds lies on or before the later date. The next anniversary lies after it, and it is at most 365 days back. |
| DateService.AnniversaryGap | src/services/dateService.ts:37-38 | Consecutive anniversaries are 365 or 366 days apart. |
| DateService.YearsDaysDiffMeaning | src/services/dateService.ts:17-44 | `years` anniversaries of the earlier date fall on or before the later date and the next does not. `days` counts the days from that anniversary to the later date. |
| DateService.YearsDaysDiffYearsUnique | src/services/dateService.ts:31-35 | `years` is the only whole-year count that fits between the two dates. |
| DateService.YearsDaysDiffSymmetric | src/services/dateService.ts:18-21 | Swapping the arguments does not change the result. |
| DateService.YearsDaysDiffYears | src/services/dateService.ts:31-35 | `years` is the difference of the years, less one exactly when the later date's month and day come before the earlier date's. |
| DateService.YearsDaysDiffOfSameDate | src/services/dateService.ts:31-43 | A date is 0 years and 0 days from itself. |
| DateService.YearsDaysDiffExamples | src/services/dateService.ts:31-43 | These pairs give these results: 2020-01-01 → 2024-01-01 is {4,0}; → 2024-01-02 is {4,1}; 2020-02-29 → 2021-02-28 is {0,365}, in either order; 2020-02-29 → 2021-03-01 is {1,0}. |
| GuidelineCommon.ThresholdsMonotone | src/services/algorithmService.ts:139-145 | A longer time passes fewer "≤ N years" tests and more "> N years" tests. |
| GuidelineCommon.ThresholdsComplementary | src/services/algorithmService.ts:140-141 | For a difference with non-negative days, "≤ N" and "> N" split every threshold without gap or overlap. |
| GuidelineCommon.ThresholdBoundary | src/services/algorithmService.ts:140-141 | Exactly N years and 0 days is "≤ N"; N years and 1 day is "> N". |
| GuidelineCommon.AtMost | src/services/algorithmService.ts:139-140 | The `*_leq_N` flags: fewer than N whole years, or exactly N years and no day more. Its relation to `MoreThan` and to longer durations is stated by `ThresholdsMonotone`, `ThresholdsComplementary` and `ThresholdBoundary`. |
| GuidelineCommon.MoreThan | src/services/algorithmService.ts:141-142 | The `*_gt_N` flags: more than N whole years, or N years and at least one day. Stated by the same three lemmas. |
| GuidelineCommon.PatientDates | src/services/algorithmService.ts:24-26 | Both dates are present exactly when both texts parse, and then both are valid dates. |
| GuidelineCommon.AgesOf | src/services/algorithmService.ts:126-128 | The current age, the age at onset and the time since diagnosis all have non-negative day counts. |
| UkGuideline.UkCalculate | src/services/algorithmService.ts:23-107 | The UK evaluator returns the UK decision table's result. A date that does not parse gives the invalid-date error. |
| UkGuideline.FractionalYears | src/services/algorithmService.ts:6-11 | `calculateYears` and the onset division at line 29: elapsed days divided by 365.25, as an exact real over whole days (see "## Left out"). |
| UkGuideline.UkDecide | src/services/algorithmService.ts:31-107 | Given the two fractional-year readings, the override, the ladder and the prefix pass together give the table's result. |
| UkGuideline.UkLadder | src/services/algorithmService.ts:49-100 | The ladder's risk, interval, follow-up and reason are those the guideline gives at diagnosis for the group, ANA and onset. |
| UkGuideline.GroupMembership | src/services/algorithmService.ts:36-38 | Each of the three groups is exactly its list of sub-diagnoses. |
| UkGuideline.PastScreeningMeansLimit | src/services/algorithmService.ts:41-44 | The override condition as written is exactly "time since diagnosis exceeds the group's screening period". |
| UkGuideline.OverrideBeforeLadder | src/services/algorithmService.ts:40-47 | Past the screening period the result is the very-low-risk override, whatever else holds. |
| UkGuideline.EarlyOnsetLongAgo | src/services/algorithmService.ts:41-46 | Oligoarticular onset before 3, with more than 8 years since diagnosis, needs no screening. |
| UkGuideline.WithinScreeningPeriod | src/services/algorithmService.ts:41-105 | Within the screening period every listed group is high risk, with the prefixed "Every 3 - 4 Months" interval. The exception is systemic onset after 16. |
| UkGuideline.InductionPhaseOnlyOnIntervals | src/services/algorithmService.ts:102-105 | The two-monthly prefix is added exactly to recommendations other than the three sentinels. Nothing else changes. |
| UkGuideline.NoRiskHasNoInterval | src/services/algorithmService.ts:31-105 | A "No Risk" result keeps the recommendation "None". |
| UkGuideline.PersistentOligoarthritisScenario | src/services/algorithmService.ts:41-46 | Onset at 2 and diagnosis 9 years ago: very low risk. |
| UkGuideline.UkNeverErrs | src/services/algorithmService.ts:31-107 | With readable dates the result is never an error. |
| NordicGuideline.NordicCalculate | src/services/algorithmService.ts:120-202 | The Nordic evaluator returns the Nordic table's result, including the biological-treatment downgrade. |
| NordicGuideline.NordicLadder | src/services/algorithmService.ts:150-191 | The ladder's four results are the graded result for the group, onset, ANA, methotrexate and time since diagnosis. |
| NordicGuideline.NordicGroupsDisjoint | src/services/algorithmService.ts:135-137 | Each group is exactly its list, so the order of the tests does not matter. |
| NordicGuideline.NordicAgeGate | src/services/algorithmService.ts:147-149 | Past 16 years and 0 days the result is the age gate. Up to that age it is the graded, possibly downgraded, result. |
| NordicGuideline.DowngradeOneStep | src/services/algorithmService.ts:193-199 | The downgrade moves high to medium and medium to low. Every other level, and the follow-up, is left alone. |
| NordicGuideline.DowngradeNeverHigh | src/services/algorithmService.ts:193-199 | A downgraded result is never high risk. |
| NordicGuideline.AdalimumabScenario | src/services/algorithmService.ts:150-199 | ANA-positive, onset at 3, one year since diagnosis, no methotrexate: high risk. Adalimumab makes it medium; etanercept does not. |
| NordicGuideline.DiagnosedTodayGap | src/services/algorithmService.ts:151-169 | A methotrexate-treated group-1 patient diagnosed today falls through the ladder in two cases: ANA-negative with early onset, or ANA-positive with late onset. The result stays "No Risk". |
| NordicGuideline.NordicRiskFallsWithTime | src/services/algorithmService.ts:151-182 | Apart from exactly that gap (methotrexate, diagnosed today, early onset with negative ANA or late onset with positive ANA), a group-1 patient's risk never rises as time since diagnosis grows. |
| NordicGuideline.NordicNeverErrs | src/services/algorithmService.ts:130-201 | With readable dates the result is never an error. |
| UsPakistanGuideline.UsPakistanCalculate | src/services/algorithmService.ts:212-261 | The US/Pakistan evaluator returns its table's result. |
| UsPakistanGuideline.UsPakistanGroupsDisjoint | src/services/algorithmService.ts:225-226 | The two groups do not overlap. |
| UsPakistanGuideline.UsPakistanFollowupIntoAdulthood | src/services/algorithmService.ts:260 | With readable dates the follow-up is always "into adulthood" and the result is never an error. |
| UsPakistanGuideline.UsPakistanRiskFallsWithTime | src/services/algorithmService.ts:234-255 | For a listed sub-diagnosis the risk never rises as time since diagnosis grows. |
| UsPakistanGuideline.UsPakistanGroupTwoLow | src/services/algorithmService.ts:256-257 | Group 2 is low risk, and the reason names the sub-diagnosis. |
| GermanyGuideline.GermanyCalculate | src/services/algorithmService.ts:271-325 | The German evaluator returns its table's result. |
| GermanyGuideline.GermanyGroupsDisjoint | src/services/algorithmService.ts:290-291 | The two groups do not overlap. |
| GermanyGuideline.GermanyScreeningEnds | src/services/algorithmService.ts:285-288 | More than 7 years and 0 days after diagnosis the result is very low risk, before the sub-diagnosis is read. Up to that point it never is. |
| GermanyGuideline.GermanyRiskFallsWithTime | src/services/algorithmService.ts:285-322 | For a listed sub-diagnosis the risk never rises with time since diagnosis, the end of screening included. |
| GermanyGuideline.GermanyNeverErrs | src/services/algorithmService.ts:280-324 | With readable dates the result is never an error. |
| SpainPortugalGuideline.SpainPortugalCalculate | src/services/algorithmService.ts:336-394 | The Spain/Portugal evaluator returns its table's result. |
| SpainPortugalGuideline.SpainPortugalGroupsDisjoint | src/services/algorithmService.ts:355-356 | The two groups do not overlap. |
| SpainPortugalGuideline.SpainPortugalAgeGate | src/services/algorithmService.ts:346-348 | Past 16 years and 0 days the result is very low risk. Up to that age it never is. |
| SpainPortugalGuideline.SpainPortugalRiskFallsWithTime | src/services/algorithmService.ts:366-391 | For a listed sub-diagnosis the risk never rises as time since diagnosis grows. |
| SpainPortugalGuideline.UndifferentiatedUngraded | src/services/algorithmService.ts:331-356 | The offered "Undifferentiated Arthritis" is in neither group. Up to 16 it gets "No Risk" and empty texts. |
| SpainPortugalGuideline.SpainPortugalNeverErrs | src/services/algorithmService.ts:346-393 | With readable dates the result is never an error. |
| CzechSlovakGuideline.CzechSlovakCalculate | src/services/algorithmService.ts:404-471 | The Czech/Slovak evaluator returns its table's result, including the over-18 ANA-positive override. |
| CzechSlovakGuideline.OutrightMediumRisk | src/services/algorithmService.ts:417-432 | RF-positive polyarthritis and systemic onset are medium risk at any age and ANA. |
| CzechSlovakGuideline.AdultAnaNegativeVeryLow | src/services/algorithmService.ts:434-436 | Every other sub-diagnosis, for an ANA-negative patient past 18 years and 0 days, is very low risk. |
| CzechSlovakGuideline.AdultAnaPositiveLowToMedium | src/services/algorithmService.ts:458-460 | An ANA-positive adult in a listed group is low-to-medium risk, every 6-12 months. |
| CzechSlovakGuideline.ChildhoodGrades | src/services/algorithmService.ts:449-467 | Up to 18, a listed group is high risk for the first 4 years after diagnosis and medium risk after. |
| CzechSlovakGuideline.CzechSlovakNeverErrs | src/services/algorithmService.ts:414-470 | With readable dates the result is never an error. |
| ArgentinaGuideline.ArgentinaCalculate | src/services/algorithmService.ts:481-533 | The Argentina evaluator returns its table's result. |
| ArgentinaGuideline.ArgentinaAgeGate | src/services/algorithmService.ts:491-493 | Past 21 years and 0 days the result is very low risk. Up to that age it never is. |
| ArgentinaGuideline.SystemicLowRisk | src/services/algorithmService.ts:495-498 | Below the age limit, systemic onset is low risk. |
| ArgentinaGuideline.SubDiagnosisIgnored | src/services/algorithmService.ts:500-531 | Any two sub-diagnoses other than systemic onset are assessed alike. |
| ArgentinaGuideline.LateOnsetAnaNegativeGap | src/services/algorithmService.ts:523-531 | Late onset, negative ANA and at most 4 years since diagnosis: no branch fires, and the result stays "No Risk". |
| ArgentinaGuideline.ArgentinaRiskFallsWithTime | src/services/algorithmService.ts:511-531 | Wherever the ladder fires, the risk never rises as time since diagnosis grows. |
| ArgentinaGuideline.ArgentinaNeverErrs | src/services/algorithmService.ts:491-532 | With readable dates the result is never an error. |
| MiwgucGuideline.MiwgucCalculate | src/services/algorithmService.ts:539-585 | The MIWGUC evaluator returns its table's result. |
| MiwgucGuideline.JiaRiskFallsWithTime | src/services/algorithmService.ts:563-581 | For JIA the risk never rises as time since diagnosis grows. |
| MiwgucGuideline.EarlyOnsetAtLeastAsSevere | src/services/algorithmService.ts:563-581 | For the same time since diagnosis, onset before 7 is never graded lower than later onset. |
| MiwgucGuideline.OnlyJiaScreened | src/services/algorithmService.ts:547-561 | Only JIA ever gets a screening interval. |
| MiwgucGuideline.MiwgucNeverErrs | src/services/algorithmService.ts:544-584 | With readable dates the result is never an error. |
| AlgorithmService.GetAlgorithm | src/services/algorithmService.ts:14-589 | The record for a key runs that key's evaluator, and its questions start with the two dates and the sub-diagnosis. |
| AlgorithmService.Name | src/services/algorithmService.ts:14-587 | Each guideline's `name` literal. |
| AlgorithmService.MaxAge | src/services/algorithmService.ts:14-587 | Each guideline's `maxAge`, or none where the record has no limit. `PastAgeLimit` ties each limit to its evaluator's gate. |
| AlgorithmService.Questions | src/services/algorithmService.ts:14-587 | Each guideline's `questions` list, in the written order. `OnlyAskedQuestionsMatter` and `OnlyNordicAsksAboutTreatment` state what it means. |
| AlgorithmService.SubDiagnosisOptions | src/services/algorithmService.ts:14-587 | Each guideline's `subDiagnosisOptions` list. `OfferedSubDiagnosesGraded` states which of them its evaluator grades. |
| AlgorithmService.TreatmentOptions | src/services/algorithmService.ts:14-587 | The `treatmentOptions` list, present only in the Nordic record. `OnlyNordicAsksAboutTreatment` states this. |
| AlgorithmService.Calculate | src/services/algorithmService.ts:14-589 | Each key dispatches to its own evaluator. |
| AlgorithmService.Assessment | src/services/algorithmService.ts:589 | `getAlgorithm(key).calculate`: the result of the key's own evaluator, as the table of that guideline. `ErrorOnlyForUnreadableDate`, `OnlyAskedQuestionsMatter` and `PastAgeLimit` state its properties. |
| AlgorithmService.ErrorOnlyForUnreadableDate | src/services/algorithmService.ts:14-587 | Every guideline answers exactly the invalid-date error when a date does not parse. No guideline reports an error in any other case. |
| AlgorithmService.OnlyAskedQuestionsMatter | src/services/algorithmService.ts:14-587 | Two forms that agree on a guideline's questions get the same result from it. |
| AlgorithmService.OnlyNordicAsksAboutTreatment | src/services/algorithmService.ts:113-119 | Only the Nordic guideline asks about methotrexate and biological treatment, and only it offers treatments. |
| AlgorithmService.PastAgeLimit | src/services/algorithmService.ts:110-493 | Past its age limit a guideline with a limit gives very low risk. For Czech/Slovak this holds only for ANA-negative patients outside the two outright groups. |
| AlgorithmService.OfferedSubDiagnosesGraded | src/services/algorithmService.ts:14-587 | Every offered sub-diagnosis is graded by its evaluator, except Spain/Portugal's "Undifferentiated Arthritis". |
| Constants.LabelLeqTotal | constants.ts:17 | Any two labels are ordered one way or the other. |
| Constants.LabelLeq | constants.ts:17 | The `localeCompare` order of the sort, taken as character-code order on labels. `LabelLeqTotal`, `LabelLeqTransitive` and `LabelLeqAntisymmetric` show it is a total order. |
| Constants.LabelLeqTransitive | constants.ts:17 | The label order is transitive. |
| Constants.LabelLeqAntisymmetric | constants.ts:17 | Labels ordered both ways are equal. |
| Constants.Insert | constants.ts:17 | Insertion adds exactly one entry, and keeps a sorted list sorted. |
| Constants.SortByLabel | constants.ts:17 | The sort is a permutation, and its result is in ascending order of label. |
| Constants.SortingSortedIsIdentity | constants.ts:17 | Sorting a list already in order returns it unchanged. |
| Constants.CountriesAscendingAt | constants.ts:6-16 | Adjacent entries ascend strictly in both label and value. |
| Constants.SortKeepsCountries | constants.ts:5-17 | Sorting the written entries by label leaves them as written, so the exported table is the written list. |
| Constants.CountriesDistinct | constants.ts:3-16 | There are eleven regions, and no value occurs twice. |
| Constants.CountriesCoverAllGuidelines | constants.ts:6-16 | Every one of the eight guidelines is reached from at least one region. |
| Constants.CountriesAscending | constants.ts:17 | Every label is at most each later one. |
| CalculatorPage.Find | components/CalculatorPage.tsx:17 | None exactly when no entry has the value. Otherwise the result is the first entry that has it. |
| CalculatorPage.SelectedAlgorithm | components/CalculatorPage.tsx:15-19 | The `useMemo`: no guideline for an empty selection or one no region has, otherwise `getAlgorithm` of the first matching region's key. `SelectionFollowsTable` states it against the table. |
| CalculatorPage.SelectionFollowsTable | components/CalculatorPage.tsx:15-19 | No guideline for an empty or unknown selection. Otherwise the guideline is that of the region with the selected value. |
| CalculatorPage.CzechSlovakShared | components/CalculatorPage.tsx:15-19 | "czech" and "slovakia" both select the Czech/Slovak guideline. |
| CalculatorPage.SpainPortugalShared | components/CalculatorPage.tsx:15-19 | "spain" and "portugal" both select the Spain/Portugal guideline. |
| CalculatorPage.UsPakistanShared | components/CalculatorPage.tsx:15-19 | "us" and "pakistan" both select the US/Pakistan guideline. |
| CalculatorPage.HandleFormChange | components/CalculatorPage.tsx:29-42 | The edited field gets the new value and no other field changes, apart from the clearing rule. The diagnosis date becomes '' exactly when the birth date was edited, both dates read as dates and the diagnosis comes first. After a birth-date edit the diagnosis is never before the birth. |
| CalculatorPage.ClearingRule | components/CalculatorPage.tsx:34-37 | The source's guard fires exactly when the diagnosis is dated before the birth. The guard tests truthiness, parses both dates and compares the parsed Dates. |
| CalculatorPage.AllAnswered | components/CalculatorPage.tsx:46-50 | `every` holds exactly when each question holds a boolean or a value other than undefined, null and ''. |
| CalculatorPage.IsFormComplete | components/CalculatorPage.tsx:44-51 | False when no guideline is selected, otherwise `AllAnswered` of its questions. `CompleteFormHasCoreAnswers` and `HandleCalculate` state its consequences. |
| CalculatorPage.CompleteFormHasCoreAnswers | components/CalculatorPage.tsx:44-51 | A complete form has both dates and the sub-diagnosis filled in. |
| CalculatorPage.ToFormData | components/CalculatorPage.tsx:55 | `formData as FormData` as the evaluators read it: text fields as their text, the two yes/no fields by truthiness. `ReadBackFilledForm` shows a full record is read back unchanged. The null and false cases are under "## Left out". |
| CalculatorPage.ReadBackFilledForm | components/CalculatorPage.tsx:55 | A form filled with a full record's answers is read back by the evaluator as that record. |
| CalculatorPage.HandleCalculate | components/CalculatorPage.tsx:53-59 | A result comes back exactly when a guideline is selected and the form is complete. It is then that guideline's assessment of the form. |
| CalculatorPage.UnaskedFieldsIgnored | components/CalculatorPage.tsx:44-58 | Fields the guideline does not ask about do not change its result. |
| DateInput.IndexOf | components/DateInput.tsx:21 | -1 exactly when the character is absent. Otherwise the result is its first position. |
| DateInput.LastIndexOf | components/DateInput.tsx:21 | -1 exactly when the character is absent. Otherwise the result is its last position. |
| DateInput.OnlySlashAtTwo | components/DateInput.tsx:21 | Both searches stop at 2 exactly when position 2 holds the only slash. |
| DateInput.KeepDateChars | components/DateInput.tsx:17 | The filter keeps only digits and slashes and never lengthens the text. `KeepDateCharsAppend` shows it keeps the kept characters in their order. |
| DateInput.KeepDateCharsAppend | components/DateInput.tsx:17 | Filtering a concatenation is filtering each part and concatenating the results, so the kept characters stay in their original order. |
| DateInput.KeepDateCharsCounts | components/DateInput.tsx:17 | Each digit and slash keeps its count, and every other character is dropped. |
| DateInput.KeepDateCharsIdentity | components/DateInput.tsx:17 | Text made only of digits and slashes passes unchanged. |
| DateInput.HandleInputChange | components/DateInput.tsx:16-28 | The step-by-step handler produces the masked text. |
| DateInput.Masked | components/DateInput.tsx:17-25 | The filtered text, with a slash added when `SlashDue` holds, cut to ten characters. `MaskedShape`, `LongInputTruncated` and `MaskIdempotent` state its properties. |
| DateInput.MaskedShape | components/DateInput.tsx:17-25 | The masked text has at most ten characters, all digits or slashes. |
| DateInput.LongInputTruncated | components/DateInput.tsx:25 | Filtered text longer than ten characters keeps its first ten. |
| DateInput.MaskIdempotent | components/DateInput.tsx:16-28 | Masking the text the field already shows changes nothing. |
| DateInput.DecimalText | components/DateInput.tsx:31-33 | `String(n)` is a non-empty run of digits. |
| DateInput.DecimalTextValue | components/DateInput.tsx:31-33 | Reading those digits back gives the number. |
| DateInput.FourDigits | components/DateInput.tsx:33-34 | A year has four digits exactly when it lies in 1000..9999. |
| DateInput.PadStart2 | components/DateInput.tsx:31-32 | Padding gives at least two characters. |
| DateInput.PaddedValue | components/DateInput.tsx:31-32 | A padded day or month is two digits that read back as the number. |
| DateInput.FormatPickedDate | components/DateInput.tsx:30-34 | `padStart(2, '0')` of the day and of the 1-based month (`getMonth() + 1`), then `String(year)`, joined by slashes. `FormatThenParse` proves the text reads back as the date. |
| DateInput.FormatThenParse | components/DateInput.tsx:30-36 | A picked date with a four-digit year is written as text that `parseDate` accepts and reads back as the same date. Any other year is rejected. |

## Left out

- The wall clock. `new Date()` in the evaluators and in `calculateYears` is the `today` parameter. Dates are calendar dates without time of day, so the daylight-saving effect on `Math.floor(timeDiff / 86400000)` is not modelled; whole-day differences are used.
- UkGuideline.UkCalculate: the two fractional-year readings (`calculateYears` and the age at onset) are exact reals (whole days / 365.25), not IEEE doubles. Floating-point rounding at the thresholds is not modelled. `calculateYears` also adds the fraction of the current day that has passed, which the whole-day model drops. So a "> N years" threshold that the source already passes on day ⌊365.25·N⌋ once the clock is past the remainder (day 365 after 06:00 for N = 1, day 730 after 12:00 for N = 2, day 2922 just after midnight for N = 8) is reached in the model only on the following day. Both millisecond differences (lines 8 and 29) also carry the daylight-saving hour when the span crosses a clock change, which the model drops too. That hour can move a reading across a threshold on an exact day: 4383 days is exactly 12 × 365.25, so across a change that removes an hour the source reads an onset just under 12 where the model reads 12.
- Constants.LabelLeq: `localeCompare` is taken as character-code order. For these eleven labels it gives the same order, but locale collation in general is not modelled.
- Constants.Countries is the table in its written order. The sort is applied once, and `SortKeepsCountries` proves that it changes nothing, so this constant is the exported array.
- The risk level is a closed datatype rather than free text. Every other result field is text as in the source.
- The evaluators' fixed texts are written once each, as cases of a `Message` type per guideline. The text of each case is the source's literal.
- CalculatorPage.ToFormData: `formData as FormData` passes the partial object through. The model reads `null` in a text field as `"null"` and a boolean as `"true"` or `"false"`, the way the date pattern test converts them. It reads an absent field as '', where the source sees `undefined` and the pattern test converts it to `"undefined"`. Both texts fail the date pattern, match no sub-diagnosis group and are falsy to the treatment test, so the evaluators behave the same on either. In the biological-treatment field this differs from the source for two values, which its truthiness test reads as no answer: `false` and `null` become non-empty text. So `null` there would take the Nordic one-step downgrade, while the source's test at `src/services/algorithmService.ts` line 193 does not. Neither value reaches an evaluator: the form never stores a boolean or `null` in a text field, and `HandleCalculate` runs only on a complete form, in which every asked field holds a boolean or non-empty text.
- React state updates, the rendering, `handleCountryChange`, `handleNewCalculation` and `handleEdit` are not modelled. Each modelled handler returns the value it would store.
- `handleDateSelect` closing the calendar, and the click-outside listener and calendar toggle of the date field, are not modelled.
- `Calendar.tsx`, `Form.tsx`, `ResultPage.tsx`, `IntroPage.tsx`, `RadioInput.tsx`, `SelectInput.tsx` and `App.tsx` are not part of this model. They hold rendering and navigation with no decision content.
- The guidelines' gaps are reproduced as written, not corrected. Examples are the Argentina late-onset ANA-negative case, the Nordic diagnosed-today case and UK group 1 with onset at 12 or later, which is high risk with follow-up "None". Clinical correctness is out of scope.
