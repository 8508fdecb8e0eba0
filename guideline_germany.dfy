/**
 * The German guideline: screening ends seven years after diagnosis; before
 * that, risk is graded by sub-diagnosis group, ANA, age at onset and time
 * since diagnosis.
 */
module GermanyGuideline {
  import opened Wrappers
  import opened DateService
  import opened Types
  import opened GuidelineCommon

  const GermanGroup1 := ["Persistent Oligoarthritis", "Extended Oligoarthritis", "RF Negative Polyarthritis", "Psoriatic Arthritis", "Undifferentiated Arthritis"]
  const GermanGroup2 := ["Enthesitis related Arthritis", "RF Positive Arthritis", "Systemic onset Arthritis"]

  /** The fixed texts the evaluator puts into its results. */
  datatype Message =
      SevenYears
    | LongSinceDiagnosis
    | AnaPosEarlyShort
    | AnaPosEarlyLong
    | AnaNegEarlyShort
    | AnaNegEarlyLong
    | AnaPosLateShort
    | AnaPosLateLong
    | AnaNegLate

  function Text(m: Message): string {
    match m
    case SevenYears => "Follow-up continues for 7 years from diagnosis"
    case LongSinceDiagnosis => "Very low risk due to time since diagnosis > 7 years."
    case AnaPosEarlyShort => "High risk due to positive ANA, onset age ≤ 6, and time since diagnosis ≤ 4 years."
    case AnaPosEarlyLong => "Medium risk due to positive ANA, onset age ≤ 6, and time since diagnosis > 4 years."
    case AnaNegEarlyShort => "Medium risk due to negative ANA, onset age ≤ 6, and time since diagnosis ≤ 4 years."
    case AnaNegEarlyLong => "Low risk due to negative ANA, onset age ≤ 6, and time since diagnosis > 4 years."
    case AnaPosLateShort => "Medium risk due to positive ANA, onset age > 6, and time since diagnosis ≤ 2 years."
    case AnaPosLateLong => "Low risk due to positive ANA, onset age > 6, and time since diagnosis > 2 years."
    case AnaNegLate => "Low risk due to negative ANA and onset age > 6."
  }

  method GermanyCalculate(data: FormData, today: Date) returns (r: CalculationResult)
    requires Valid(today)
    ensures r == GermanyAssessment(data, today)
  {
    var dob := ParseDate(data.dateOfBirth);
    var dod := ParseDate(data.dateOfDiagnosis);
    if dob.None? || dod.None? {
      return InvalidDate;
    }

    var timeSinceDiagnosis := YearsDaysDiff(dod.value, today);
    var ageAtOnset := YearsDaysDiff(dob.value, dod.value);
    assert GermanyAssessment(data, today)
        == GermanyTable(data.subDiagnosis, data.anaPositive, Ages(YearsDaysDiff(dob.value, today), ageAtOnset, timeSinceDiagnosis));
    ThresholdsComplementary(timeSinceDiagnosis, 4);
    ThresholdsComplementary(timeSinceDiagnosis, 2);

    var riskLevel := NoRisk;
    var followup := "No screening required";
    var recommendation := "None";
    var justification := StandardRisk;

    var timeuGt7 := MoreThan(timeSinceDiagnosis, 7);
    if timeuGt7 {
      return CalculationResult(VeryLowRisk, "None", "No screening required", Text(LongSinceDiagnosis));
    }

    var subdGroup1 := data.subDiagnosis in GermanGroup1;
    var subdGroup2 := data.subDiagnosis in GermanGroup2;

    var onsetLeq6 := AtMost(ageAtOnset, 6);
    var timeuLeq4 := AtMost(timeSinceDiagnosis, 4);
    var timeuGt4 := MoreThan(timeSinceDiagnosis, 4);
    var timeuLeq2 := AtMost(timeSinceDiagnosis, 2);
    var timeuGt2 := MoreThan(timeSinceDiagnosis, 2);

    if subdGroup1 {
      if onsetLeq6 {
        if data.anaPositive && timeuLeq4 {
          recommendation, riskLevel, justification := "Every 3 Months", HighRisk, Text(AnaPosEarlyShort);
        } else if data.anaPositive && timeuGt4 {
          recommendation, riskLevel, justification := "Every 6 Months", MediumRisk, Text(AnaPosEarlyLong);
        } else if !data.anaPositive && timeuLeq4 {
          recommendation, riskLevel, justification := "Every 6 Months", MediumRisk, Text(AnaNegEarlyShort);
        } else if !data.anaPositive && timeuGt4 {
          recommendation, riskLevel, justification := "Every 12 Months", LowRisk, Text(AnaNegEarlyLong);
        }
      } else {
        if data.anaPositive && timeuLeq2 {
          recommendation, riskLevel, justification := "Every 6 Months", MediumRisk, Text(AnaPosLateShort);
        } else if data.anaPositive && timeuGt2 {
          recommendation, riskLevel, justification := "Every 12 Months", LowRisk, Text(AnaPosLateLong);
        } else {
          recommendation, riskLevel, justification := "Every 12 Months", LowRisk, Text(AnaNegLate);
        }
      }
      followup := Text(SevenYears);
    } else if subdGroup2 {
      recommendation, riskLevel, followup, justification := "Every 12 Months", LowRisk, Text(SevenYears), DiagnosisReason(data.subDiagnosis);
    }
    assert CalculationResult(riskLevel, recommendation, followup, justification)
        == GermanyGrade(GermanyGroupOf(data.subDiagnosis), data.subDiagnosis, data.anaPositive, ageAtOnset, timeSinceDiagnosis);

    return CalculationResult(riskLevel, recommendation, followup, justification);
  }

  // ---------------------------------------------------------------------------
  // The guideline as a table

  function GermanyGroupOf(subDiagnosis: string): Group {
    GroupOfFlags(subDiagnosis in GermanGroup1, subDiagnosis in GermanGroup2, false)
  }

  /** The result once screening still applies: by group, ANA, age at onset and time since diagnosis. */
  function GermanyGrade(group: Group, subDiagnosis: string, ana: bool, onset: DateDifference, time: DateDifference): CalculationResult {
    match group
    case Group1 =>
      var (level, interval, why) :=
        if AtMost(onset, 6) then
          if ana then
            if AtMost(time, 4) then (HighRisk, "Every 3 Months", Text(AnaPosEarlyShort))
            else (MediumRisk, "Every 6 Months", Text(AnaPosEarlyLong))
          else if AtMost(time, 4) then (MediumRisk, "Every 6 Months", Text(AnaNegEarlyShort))
          else (LowRisk, "Every 12 Months", Text(AnaNegEarlyLong))
        else if !ana then (LowRisk, "Every 12 Months", Text(AnaNegLate))
        else if AtMost(time, 2) then (MediumRisk, "Every 6 Months", Text(AnaPosLateShort))
        else (LowRisk, "Every 12 Months", Text(AnaPosLateLong));
      CalculationResult(level, interval, Text(SevenYears), why)
    case Group2 => CalculationResult(LowRisk, "Every 12 Months", Text(SevenYears), DiagnosisReason(subDiagnosis))
    case _ => CalculationResult(NoRisk, "None", "No screening required", StandardRisk)
  }

  /** The result once screening is over. */
  const ScreeningOver := CalculationResult(VeryLowRisk, "None", "No screening required", Text(LongSinceDiagnosis))

  function GermanyTable(subDiagnosis: string, ana: bool, ages: Ages): CalculationResult {
    if MoreThan(ages.timeSinceDiagnosis, 7) then ScreeningOver
    else GermanyGrade(GermanyGroupOf(subDiagnosis), subDiagnosis, ana, ages.ageAtOnset, ages.timeSinceDiagnosis)
  }

  function GermanyAssessment(data: FormData, today: Date): CalculationResult
    requires Valid(today)
  {
    match PatientDates(data)
    case None => InvalidDate
    case Some((dob, dod)) => GermanyTable(data.subDiagnosis, data.anaPositive, AgesOf(dob, dod, today))
  }

  // ---------------------------------------------------------------------------
  // Properties

  /** The two groups do not overlap. */
  lemma GermanyGroupsDisjoint(subDiagnosis: string)
    ensures !(subDiagnosis in GermanGroup1 && subDiagnosis in GermanGroup2)
  {
  }

  /**
   * More than 7 years and 0 days after diagnosis the result is very low risk
   * with recommendation "None", before any sub-diagnosis is looked at; up to
   * 7 years and 0 days it never is.
   */
  lemma GermanyScreeningEnds(subDiagnosis: string, ana: bool, ages: Ages)
    ensures MoreThan(ages.timeSinceDiagnosis, 7) ==> GermanyTable(subDiagnosis, ana, ages) == ScreeningOver
    ensures !MoreThan(ages.timeSinceDiagnosis, 7) ==> GermanyTable(subDiagnosis, ana, ages).riskLevel != VeryLowRisk
  {
  }

  /** For a listed sub-diagnosis the risk never rises as the time since diagnosis grows, the end of screening included. */
  lemma {:induction false} GermanyRiskFallsWithTime(subDiagnosis: string, ana: bool, ages1: Ages, ages2: Ages)
    requires GermanyGroupOf(subDiagnosis) != Ungrouped
    requires ages1.ageAtOnset == ages2.ageAtOnset
    requires 0 <= ages1.timeSinceDiagnosis.days && NoLonger(ages1.timeSinceDiagnosis, ages2.timeSinceDiagnosis)
    ensures Severity(GermanyTable(subDiagnosis, ana, ages2).riskLevel) <= Severity(GermanyTable(subDiagnosis, ana, ages1).riskLevel)
  {
    ThresholdsMonotone(ages1.timeSinceDiagnosis, ages2.timeSinceDiagnosis, 7);
    ThresholdsMonotone(ages1.timeSinceDiagnosis, ages2.timeSinceDiagnosis, 4);
    ThresholdsMonotone(ages1.timeSinceDiagnosis, ages2.timeSinceDiagnosis, 2);
  }

  /** The evaluator reports an error only for a date that does not parse. */
  lemma GermanyNeverErrs(subDiagnosis: string, ana: bool, ages: Ages)
    ensures GermanyTable(subDiagnosis, ana, ages).riskLevel != Error
  {
  }
}
