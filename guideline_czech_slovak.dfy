/**
 * The Czech and Slovak guideline. Two sub-diagnoses are medium risk outright;
 * ANA-negative patients past 18 need no screening; the others are graded by
 * age at onset, ANA and time since diagnosis, and a second pass lowers
 * ANA-positive patients past 18 to low-to-medium risk.
 */
module CzechSlovakGuideline {
  import opened Wrappers
  import opened DateService
  import opened Types
  import opened GuidelineCommon

  const CzechGroup1 := ["Persistent Oligoarthritis", "Extended Oligoarthritis", "Psoriatic Arthritis", "RF Negative Polyarthritis"]
  const CzechGroup2 := "HLAB27+ Arthritis"

  const RfPositive := "RF Positive Polyarthritis"
  const SystemicOnset := "Systemic Onset Arthritis"

  /** The fixed texts the evaluator puts into its results. */
  datatype Message =
      UntilEighteen
    | IntoAdulthood
    | RfPositiveReason
    | SystemicInterval
    | SystemicReason
    | AdultAnaNegativeReason
    | FirstMonthsReason
    | EarlyShortReason
    | EarlyLongReason
    | AdultAnaPositiveReason
    | LateShortReason
    | LateLongReason

  function Text(m: Message): string {
    match m
    case UntilEighteen => "Until 18 years of age"
    case IntoAdulthood => "Continue into adulthood"
    case RfPositiveReason => "Medium risk due to diagnosis of RF Positive Polyarthritis."
    case SystemicInterval => "Screen at diagnosis, then every 6 months until 18 years of age"
    case SystemicReason => "Medium risk due to diagnosis of Systemic Onset Arthritis."
    case AdultAnaNegativeReason => "Very low risk due to age > 18 years and negative ANA."
    case FirstMonthsReason => "High risk due to onset age < 6 or positive ANA, and time since diagnosis < 0.5 years."
    case EarlyShortReason => "High risk due to onset age < 6 or positive ANA, and time since diagnosis ≤ 4 years."
    case EarlyLongReason => "Medium risk due to onset age < 6 or positive ANA, time since diagnosis >4 years."
    case AdultAnaPositiveReason => "Low to medium risk due to age > 18 and positive ANA."
    case LateShortReason => "High risk due to negative ANA, onset age > 6, and time since diagnosis ≤ 4 years."
    case LateLongReason => "Medium risk due to negative ANA, onset age > 6, and time since diagnosis > 4 years."
  }

  method CzechSlovakCalculate(data: FormData, today: Date) returns (r: CalculationResult)
    requires Valid(today)
    ensures r == CzechSlovakAssessment(data, today)
  {
    var dob := ParseDate(data.dateOfBirth);
    var dod := ParseDate(data.dateOfDiagnosis);
    if dob.None? || dod.None? {
      return InvalidDate;
    }

    var currentAge := YearsDaysDiff(dob.value, today);
    var timeSinceDiagnosis := YearsDaysDiff(dod.value, today);
    var ageAtOnset := YearsDaysDiff(dob.value, dod.value);
    assert CzechSlovakAssessment(data, today)
        == CzechSlovakTable(data.subDiagnosis, data.anaPositive, Ages(currentAge, ageAtOnset, timeSinceDiagnosis));
    ThresholdsComplementary(timeSinceDiagnosis, 4);

    var group1 := data.subDiagnosis in CzechGroup1;
    var group2 := data.subDiagnosis == CzechGroup2;

    if data.subDiagnosis == RfPositive {
      return CalculationResult(MediumRisk, "Every 6 months", Text(UntilEighteen), Text(RfPositiveReason));
    }
    if data.subDiagnosis == SystemicOnset {
      return CalculationResult(MediumRisk, Text(SystemicInterval), "", Text(SystemicReason));
    }

    if MoreThan(currentAge, 18) && !data.anaPositive {
      return AdultAnaNegative;
    }

    var riskLevel := NoRisk;
    var recommendation := "";
    var followup := "";
    var justification := "";

    var onsetLeq6 := AtMost(ageAtOnset, 6);
    var timeuLeq4 := AtMost(timeSinceDiagnosis, 4);
    var timeuGt4 := MoreThan(timeSinceDiagnosis, 4);
    var inFirst6Months := timeSinceDiagnosis.years == 0 && timeSinceDiagnosis.days < 183;
    var isOver18 := MoreThan(currentAge, 18);

    if group1 || group2 {
      if onsetLeq6 || data.anaPositive {
        if inFirst6Months {
          riskLevel, recommendation, followup, justification := HighRisk, "Every 2 months", Text(IntoAdulthood), Text(FirstMonthsReason);
        } else if timeuLeq4 {
          riskLevel, recommendation, followup, justification := HighRisk, "Every 3 months", Text(IntoAdulthood), Text(EarlyShortReason);
        } else if timeuGt4 {
          riskLevel, recommendation, followup, justification := MediumRisk, "Every 6 months", Text(IntoAdulthood), Text(EarlyLongReason);
        }
        if isOver18 && data.anaPositive {
          riskLevel, recommendation, followup, justification := LowToMediumRisk, "Every 6-12 months", Text(IntoAdulthood), Text(AdultAnaPositiveReason);
        }
      } else {
        if timeuLeq4 {
          riskLevel, recommendation, followup, justification := HighRisk, "Every 3 months", Text(UntilEighteen), Text(LateShortReason);
        } else {
          riskLevel, recommendation, followup, justification := MediumRisk, "Every 6 months", Text(UntilEighteen), Text(LateLongReason);
        }
      }
    }

    return CalculationResult(riskLevel, recommendation, followup, justification);
  }

  // ---------------------------------------------------------------------------
  // The guideline as a table

  const AdultAnaNegative := CalculationResult(VeryLowRisk, "No screening required", "None", Text(AdultAnaNegativeReason))

  /** The grade for the two listed groups when onset is early or ANA positive, before the adult override. */
  function EarlyOrAnaPositiveGrade(time: DateDifference): CalculationResult {
    if time.years == 0 && time.days < 183 then CalculationResult(HighRisk, "Every 2 months", Text(IntoAdulthood), Text(FirstMonthsReason))
    else if AtMost(time, 4) then CalculationResult(HighRisk, "Every 3 months", Text(IntoAdulthood), Text(EarlyShortReason))
    else CalculationResult(MediumRisk, "Every 6 months", Text(IntoAdulthood), Text(EarlyLongReason))
  }

  function CzechSlovakTable(subDiagnosis: string, ana: bool, ages: Ages): CalculationResult {
    if subDiagnosis == RfPositive then CalculationResult(MediumRisk, "Every 6 months", Text(UntilEighteen), Text(RfPositiveReason))
    else if subDiagnosis == SystemicOnset then CalculationResult(MediumRisk, Text(SystemicInterval), "", Text(SystemicReason))
    else if MoreThan(ages.currentAge, 18) && !ana then AdultAnaNegative
    else if !(subDiagnosis in CzechGroup1 || subDiagnosis == CzechGroup2) then CalculationResult(NoRisk, "", "", "")
    else if MoreThan(ages.currentAge, 18) then CalculationResult(LowToMediumRisk, "Every 6-12 months", Text(IntoAdulthood), Text(AdultAnaPositiveReason))
    else if AtMost(ages.ageAtOnset, 6) || ana then EarlyOrAnaPositiveGrade(ages.timeSinceDiagnosis)
    else if AtMost(ages.timeSinceDiagnosis, 4) then CalculationResult(HighRisk, "Every 3 months", Text(UntilEighteen), Text(LateShortReason))
    else CalculationResult(MediumRisk, "Every 6 months", Text(UntilEighteen), Text(LateLongReason))
  }

  function CzechSlovakAssessment(data: FormData, today: Date): CalculationResult
    requires Valid(today)
  {
    match PatientDates(data)
    case None => InvalidDate
    case Some((dob, dod)) => CzechSlovakTable(data.subDiagnosis, data.anaPositive, AgesOf(dob, dod, today))
  }

  // ---------------------------------------------------------------------------
  // Properties

  /** RF positive polyarthritis and systemic onset arthritis are medium risk whatever the age and ANA, the age test included. */
  lemma OutrightMediumRisk(subDiagnosis: string, ana: bool, ages: Ages)
    requires subDiagnosis == RfPositive || subDiagnosis == SystemicOnset
    ensures CzechSlovakTable(subDiagnosis, ana, ages).riskLevel == MediumRisk
  {
  }

  /** Any other sub-diagnosis of an ANA-negative patient past 18 years and 0 days is very low risk. */
  lemma AdultAnaNegativeVeryLow(subDiagnosis: string, ages: Ages)
    requires subDiagnosis != RfPositive && subDiagnosis != SystemicOnset
    requires MoreThan(ages.currentAge, 18)
    ensures CzechSlovakTable(subDiagnosis, false, ages) == AdultAnaNegative
  {
  }

  /** An ANA-positive patient past 18 years and 0 days in either listed group is low-to-medium risk, whatever the onset and times. */
  lemma AdultAnaPositiveLowToMedium(subDiagnosis: string, ages: Ages)
    requires subDiagnosis in CzechGroup1 || subDiagnosis == CzechGroup2
    requires MoreThan(ages.currentAge, 18)
    ensures CzechSlovakTable(subDiagnosis, true, ages).riskLevel == LowToMediumRisk
    ensures CzechSlovakTable(subDiagnosis, true, ages).recommendation == "Every 6-12 months"
  {
    assert subDiagnosis != RfPositive && subDiagnosis != SystemicOnset;
  }

  /** Up to 18 years and 0 days the listed groups are high risk in the first four years after diagnosis, medium after. */
  lemma {:induction false} ChildhoodGrades(subDiagnosis: string, ana: bool, ages: Ages)
    requires subDiagnosis in CzechGroup1 || subDiagnosis == CzechGroup2
    requires 0 <= ages.timeSinceDiagnosis.days
    requires !MoreThan(ages.currentAge, 18)
    ensures CzechSlovakTable(subDiagnosis, ana, ages).riskLevel == (if AtMost(ages.timeSinceDiagnosis, 4) then HighRisk else MediumRisk)
  {
    assert subDiagnosis != RfPositive && subDiagnosis != SystemicOnset;
    if ana || AtMost(ages.ageAtOnset, 6) {
      var t := ages.timeSinceDiagnosis;
      if t.years == 0 && t.days < 183 {
        assert AtMost(t, 4);
      }
    }
  }

  /** The evaluator reports an error only for a date that does not parse. */
  lemma CzechSlovakNeverErrs(subDiagnosis: string, ana: bool, ages: Ages)
    ensures CzechSlovakTable(subDiagnosis, ana, ages).riskLevel != Error
  {
  }
}
