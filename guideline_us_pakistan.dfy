/**
 * The US and Pakistan guideline: no age limit, follow-up into adulthood,
 * risk graded by sub-diagnosis group, ANA, age at onset (whole years below 7)
 * and time since diagnosis.
 */
module UsPakistanGuideline {
  import opened Wrappers
  import opened DateService
  import opened Types
  import opened GuidelineCommon

  const UsGroup1 := ["Extended Oligoarthritis", "Persistent Oligoarthritis", "RF Negative Polyarthritis", "Psoriatic Arthritis", "Undifferentiated Arthritis"]
  const UsGroup2 := ["Enthesitis related Arthritis", "RF Positive Arthritis", "Systemic onset Arthritis"]

  /** The fixed texts the evaluator puts into its results. */
  datatype Message =
      IntoAdulthood
    | AnaPosEarlyShort
    | AnaPosEarlyMiddle
    | AnaPosEarlyLong
    | AnaNegEarlyShort
    | AnaNegEarlyLong
    | AnaPosLateShort
    | AnaPosLateLong
    | AnaNegLate

  function Text(m: Message): string {
    match m
    case IntoAdulthood => "Follow-up continues into adulthood"
    case AnaPosEarlyShort => "High risk due to positive ANA, age at onset < 7, time since diagnosis ≤ 4 years."
    case AnaPosEarlyMiddle => "Medium risk due to positive ANA, age at onset < 7, time since diagnosis between 4 and 7 years."
    case AnaPosEarlyLong => "Low risk due to positive ANA, age at onset < 7, time since diagnosis > 7 years."
    case AnaNegEarlyShort => "Medium risk due to negative ANA, age at onset < 7, time since diagnosis ≤ 4 years."
    case AnaNegEarlyLong => "Low risk due to negative ANA, age at onset < 7, time since diagnosis > 4 years."
    case AnaPosLateShort => "Medium risk due to positive ANA, age at onset ≥ 7, time since diagnosis ≤ 4 years."
    case AnaPosLateLong => "Low risk due to positive ANA, age at onset ≥ 7, time since diagnosis > 4 years."
    case AnaNegLate => "Low risk due to negative ANA and age at onset > 7."
  }

  method UsPakistanCalculate(data: FormData, today: Date) returns (r: CalculationResult)
    requires Valid(today)
    ensures r == UsPakistanAssessment(data, today)
  {
    var dob := ParseDate(data.dateOfBirth);
    var dod := ParseDate(data.dateOfDiagnosis);
    if dob.None? || dod.None? {
      return InvalidDate;
    }

    var timeSinceDiagnosis := YearsDaysDiff(dod.value, today);
    var ageAtOnset := YearsDaysDiff(dob.value, dod.value);
    assert UsPakistanAssessment(data, today)
        == UsPakistanTable(data.subDiagnosis, data.anaPositive, Ages(YearsDaysDiff(dob.value, today), ageAtOnset, timeSinceDiagnosis));
    ThresholdsComplementary(timeSinceDiagnosis, 4);
    ThresholdsComplementary(timeSinceDiagnosis, 7);

    var riskLevel := NoRisk;
    var recommendation := "No screening required";
    var justification := StandardRisk;

    var subdGroup1 := data.subDiagnosis in UsGroup1;
    var subdGroup2 := data.subDiagnosis in UsGroup2;

    var onsetLt7 := ageAtOnset.years < 7;
    var timeuLeq4 := AtMost(timeSinceDiagnosis, 4);
    var timeuGt4 := MoreThan(timeSinceDiagnosis, 4);
    var timeuLt7 := AtMost(timeSinceDiagnosis, 7);
    var timeuGt7 := MoreThan(timeSinceDiagnosis, 7);

    if subdGroup1 {
      if onsetLt7 {
        if data.anaPositive && timeuLeq4 {
          recommendation, riskLevel, justification := "Every 3 Months", HighRisk, Text(AnaPosEarlyShort);
        } else if data.anaPositive && timeuGt4 && timeuLt7 {
          recommendation, riskLevel, justification := "Every 6 Months", MediumRisk, Text(AnaPosEarlyMiddle);
        } else if data.anaPositive && timeuGt7 {
          recommendation, riskLevel, justification := "Every 12 Months", LowRisk, Text(AnaPosEarlyLong);
        } else if !data.anaPositive && timeuLeq4 {
          recommendation, riskLevel, justification := "Every 6 Months", MediumRisk, Text(AnaNegEarlyShort);
        } else if !data.anaPositive && timeuGt4 {
          recommendation, riskLevel, justification := "Every 12 Months", LowRisk, Text(AnaNegEarlyLong);
        }
      } else {
        if data.anaPositive && timeuLeq4 {
          recommendation, riskLevel, justification := "Every 6 Months", MediumRisk, Text(AnaPosLateShort);
        } else if data.anaPositive && timeuGt4 {
          recommendation, riskLevel, justification := "Every 12 Months", LowRisk, Text(AnaPosLateLong);
        } else {
          recommendation, riskLevel, justification := "Every 12 Months", LowRisk, Text(AnaNegLate);
        }
      }
    } else if subdGroup2 {
      recommendation, riskLevel, justification := "Every 12 Months", LowRisk, DiagnosisReason(data.subDiagnosis);
    }
    assert (riskLevel, recommendation, justification) == UsPakistanGrade(data.subDiagnosis, data.anaPositive, ageAtOnset, timeSinceDiagnosis);

    return CalculationResult(riskLevel, recommendation, Text(IntoAdulthood), justification);
  }

  // ---------------------------------------------------------------------------
  // The guideline as a table

  function UsPakistanGroupOf(subDiagnosis: string): Group {
    GroupOfFlags(subDiagnosis in UsGroup1, subDiagnosis in UsGroup2, false)
  }

  /** Risk, interval and reason by group, ANA, age at onset and time since diagnosis. */
  function UsPakistanGrade(subDiagnosis: string, ana: bool, onset: DateDifference, time: DateDifference): (RiskLevel, string, string) {
    match UsPakistanGroupOf(subDiagnosis)
    case Group1 =>
      if onset.years < 7 then
        if ana then
          if AtMost(time, 4) then (HighRisk, "Every 3 Months", Text(AnaPosEarlyShort))
          else if AtMost(time, 7) then (MediumRisk, "Every 6 Months", Text(AnaPosEarlyMiddle))
          else (LowRisk, "Every 12 Months", Text(AnaPosEarlyLong))
        else if AtMost(time, 4) then (MediumRisk, "Every 6 Months", Text(AnaNegEarlyShort))
        else (LowRisk, "Every 12 Months", Text(AnaNegEarlyLong))
      else if !ana then (LowRisk, "Every 12 Months", Text(AnaNegLate))
      else if AtMost(time, 4) then (MediumRisk, "Every 6 Months", Text(AnaPosLateShort))
      else (LowRisk, "Every 12 Months", Text(AnaPosLateLong))
    case Group2 => (LowRisk, "Every 12 Months", DiagnosisReason(subDiagnosis))
    case _ => (NoRisk, "No screening required", StandardRisk)
  }

  function UsPakistanTable(subDiagnosis: string, ana: bool, ages: Ages): CalculationResult {
    var (level, interval, why) := UsPakistanGrade(subDiagnosis, ana, ages.ageAtOnset, ages.timeSinceDiagnosis);
    CalculationResult(level, interval, Text(IntoAdulthood), why)
  }

  function UsPakistanAssessment(data: FormData, today: Date): CalculationResult
    requires Valid(today)
  {
    match PatientDates(data)
    case None => InvalidDate
    case Some((dob, dod)) => UsPakistanTable(data.subDiagnosis, data.anaPositive, AgesOf(dob, dod, today))
  }

  // ---------------------------------------------------------------------------
  // Properties

  /** The two groups do not overlap. */
  lemma UsPakistanGroupsDisjoint(subDiagnosis: string)
    ensures !(subDiagnosis in UsGroup1 && subDiagnosis in UsGroup2)
  {
  }

  /** Whatever the answers, a result with readable dates promises follow-up into adulthood and is never an error. */
  lemma UsPakistanFollowupIntoAdulthood(subDiagnosis: string, ana: bool, ages: Ages)
    ensures UsPakistanTable(subDiagnosis, ana, ages).followup == Text(IntoAdulthood)
    ensures UsPakistanTable(subDiagnosis, ana, ages).riskLevel != Error
  {
  }

  /** The risk for a listed sub-diagnosis never rises as the time since diagnosis grows. */
  lemma {:induction false} UsPakistanRiskFallsWithTime(subDiagnosis: string, ana: bool, onset: DateDifference, t1: DateDifference, t2: DateDifference)
    requires 0 <= t1.days && NoLonger(t1, t2)
    ensures Severity(UsPakistanGrade(subDiagnosis, ana, onset, t2).0) <= Severity(UsPakistanGrade(subDiagnosis, ana, onset, t1).0)
  {
    ThresholdsMonotone(t1, t2, 4);
    ThresholdsMonotone(t1, t2, 7);
  }

  /** The second group is low risk whatever the ANA, the ages and the times, and the reason names the sub-diagnosis. */
  lemma UsPakistanGroupTwoLow(subDiagnosis: string, ana: bool, ages: Ages)
    requires subDiagnosis in UsGroup2
    ensures UsPakistanTable(subDiagnosis, ana, ages).riskLevel == LowRisk
    ensures UsPakistanTable(subDiagnosis, ana, ages).justification == "Low risk due to diagnosis of " + subDiagnosis + "."
  {
    UsPakistanGroupsDisjoint(subDiagnosis);
  }
}
