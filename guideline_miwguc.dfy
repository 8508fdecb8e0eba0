/**
 * The MIWGUC guideline: systemic-onset arthritis needs no screening; juvenile
 * idiopathic arthritis is graded by age at onset (whole years below 7) and
 * time since diagnosis; any other sub-diagnosis is not graded.
 */
module MiwgucGuideline {
  import opened Wrappers
  import opened DateService
  import opened Types
  import opened GuidelineCommon

  const Jia := "Juvenile Idiopathic Arthritis"
  const SystemicOnset := "Systemic-onset Arthritis"

  /** The fixed texts the evaluator puts into its results. */
  datatype Message =
      IntoAdulthood
    | SystemicReason
    | EarlyFirstYear
    | EarlyFourYears
    | EarlySevenYears
    | EarlyLong
    | LateFirstYear
    | LateFourYears
    | LateLong

  function Text(m: Message): string {
    match m
    case IntoAdulthood => "Follow-up continues into adulthood"
    case SystemicReason => "Very low risk due to diagnosis of Systemic-onset Arthritis."
    case EarlyFirstYear => "High risk due to JIA diagnosed before 7 years of age and within the last year."
    case EarlyFourYears => "High risk due to JIA diagnosed before 7 years of age and within 4 years."
    case EarlySevenYears => "Medium risk due to JIA diagnosed before 7 years of age and within 7 years."
    case EarlyLong => "Low risk due to JIA diagnosed before 7 years of age and over 7 years ago."
    case LateFirstYear => "High risk due to JIA diagnosed at or after 7 years of age and within the last year."
    case LateFourYears => "Medium risk due to JIA diagnosed at or after 7 years of age and within 4 years."
    case LateLong => "Low risk due to JIA diagnosed at or after 7 years of age and over 4 years ago"
  }

  method MiwgucCalculate(data: FormData, today: Date) returns (r: CalculationResult)
    requires Valid(today)
    ensures r == MiwgucAssessment(data, today)
  {
    var dob := ParseDate(data.dateOfBirth);
    var dod := ParseDate(data.dateOfDiagnosis);
    if dob.None? || dod.None? {
      return InvalidDate;
    }

    var timeSinceDiagnosis := YearsDaysDiff(dod.value, today);
    var ageAtOnset := YearsDaysDiff(dob.value, dod.value);
    assert MiwgucAssessment(data, today) == MiwgucTable(data.subDiagnosis, ageAtOnset, timeSinceDiagnosis);

    if data.subDiagnosis == SystemicOnset {
      return CalculationResult(VeryLowRisk, "No screening required", "None", Text(SystemicReason));
    }

    var riskLevel := NoRisk;
    var recommendation := "No screening required";
    var followup := "None";
    var justification := "None";

    var onsetLt7 := ageAtOnset.years < 7;
    var timeuLeq1 := AtMost(timeSinceDiagnosis, 1);
    var timeuLeq4 := AtMost(timeSinceDiagnosis, 4);
    var timeuLeq7 := AtMost(timeSinceDiagnosis, 7);

    if data.subDiagnosis == Jia {
      followup := Text(IntoAdulthood);
      if onsetLt7 {
        if timeuLeq1 {
          riskLevel, recommendation, justification := HighRisk, "Every 2 Months", Text(EarlyFirstYear);
        } else if timeuLeq4 {
          riskLevel, recommendation, justification := HighRisk, "Every 3–4 Months", Text(EarlyFourYears);
        } else if timeuLeq7 {
          riskLevel, recommendation, justification := MediumRisk, "Every 6 Months", Text(EarlySevenYears);
        } else {
          riskLevel, recommendation, justification := LowRisk, "Every 12 Months", Text(EarlyLong);
        }
      } else {
        if timeuLeq1 {
          riskLevel, recommendation, justification := HighRisk, "Every 3–4 Months", Text(LateFirstYear);
        } else if timeuLeq4 {
          riskLevel, recommendation, justification := MediumRisk, "Every 6 Months", Text(LateFourYears);
        } else {
          riskLevel, recommendation, justification := LowRisk, "Every 12 Months", Text(LateLong);
        }
      }
    }

    return CalculationResult(riskLevel, recommendation, followup, justification);
  }

  // ---------------------------------------------------------------------------
  // The guideline as a table

  /** Risk, interval and reason for juvenile idiopathic arthritis, by the first time threshold not yet passed. */
  function JiaGrade(onset: DateDifference, time: DateDifference): (RiskLevel, string, string) {
    if onset.years < 7 then
      if AtMost(time, 1) then (HighRisk, "Every 2 Months", Text(EarlyFirstYear))
      else if AtMost(time, 4) then (HighRisk, "Every 3–4 Months", Text(EarlyFourYears))
      else if AtMost(time, 7) then (MediumRisk, "Every 6 Months", Text(EarlySevenYears))
      else (LowRisk, "Every 12 Months", Text(EarlyLong))
    else
      if AtMost(time, 1) then (HighRisk, "Every 3–4 Months", Text(LateFirstYear))
      else if AtMost(time, 4) then (MediumRisk, "Every 6 Months", Text(LateFourYears))
      else (LowRisk, "Every 12 Months", Text(LateLong))
  }

  /** The guideline needs no current age: only age at onset and time since diagnosis. */
  function MiwgucTable(subDiagnosis: string, onset: DateDifference, time: DateDifference): CalculationResult {
    if subDiagnosis == SystemicOnset then CalculationResult(VeryLowRisk, "No screening required", "None", Text(SystemicReason))
    else if subDiagnosis == Jia then
      var (level, interval, why) := JiaGrade(onset, time);
      CalculationResult(level, interval, Text(IntoAdulthood), why)
    else CalculationResult(NoRisk, "No screening required", "None", "None")
  }

  function MiwgucAssessment(data: FormData, today: Date): CalculationResult
    requires Valid(today)
  {
    match PatientDates(data)
    case None => InvalidDate
    case Some((dob, dod)) => MiwgucTable(data.subDiagnosis, YearsDaysDiff(dob, dod), YearsDaysDiff(dod, today))
  }

  // ---------------------------------------------------------------------------
  // Properties

  /** The risk for juvenile idiopathic arthritis never rises as the time since diagnosis grows. */
  lemma {:induction false} JiaRiskFallsWithTime(onset: DateDifference, t1: DateDifference, t2: DateDifference)
    requires 0 <= t1.days && NoLonger(t1, t2)
    ensures Severity(JiaGrade(onset, t2).0) <= Severity(JiaGrade(onset, t1).0)
  {
    ThresholdsMonotone(t1, t2, 1);
    ThresholdsMonotone(t1, t2, 4);
    ThresholdsMonotone(t1, t2, 7);
  }

  /** For the same time since diagnosis, onset before 7 is never graded lower than onset at 7 or after. */
  lemma EarlyOnsetAtLeastAsSevere(early: DateDifference, late: DateDifference, time: DateDifference)
    requires early.years < 7 <= late.years
    ensures Severity(JiaGrade(late, time).0) <= Severity(JiaGrade(early, time).0)
  {
  }

  /** Only juvenile idiopathic arthritis is ever given a screening interval. */
  lemma OnlyJiaScreened(subDiagnosis: string, onset: DateDifference, time: DateDifference)
    requires subDiagnosis != Jia
    ensures MiwgucTable(subDiagnosis, onset, time).recommendation == "No screening required"
  {
  }

  /** The evaluator reports an error only for a date that does not parse. */
  lemma MiwgucNeverErrs(subDiagnosis: string, onset: DateDifference, time: DateDifference)
    ensures MiwgucTable(subDiagnosis, onset, time).riskLevel != Error
  {
  }
}
