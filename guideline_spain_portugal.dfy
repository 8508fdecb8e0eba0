/**
 * The Spain and Portugal guideline: screening until 16 years of age, graded
 * by sub-diagnosis group, ANA, age at onset and time since diagnosis.
 */
module SpainPortugalGuideline {
  import opened Wrappers
  import opened DateService
  import opened Types
  import opened GuidelineCommon

  const IberianGroup1 := ["Persistent Oligoarthritis", "Extended Oligoarthritis", "RF Negative Polyarthritis", "Psoriatic Arthritis"]
  const IberianGroup2 := ["Enthesitis related Arthritis", "RF Positive Arthritis", "Systemic onset Arthritis"]

  /** The fixed texts the evaluator puts into its results. */
  datatype Message =
      UntilSixteen
    | AgeGateReason
    | AnaPosEarlyShort
    | AnaPosEarlyMiddle
    | AnaPosEarlyLong
    | AnaNegEarlyShort
    | AnaNegEarlyLong
    | AnaPosLateShort
    | AnaPosLateLong
    | AnaNegLate

  function Text(m: Message): string {
    match m
    case UntilSixteen => "Follow-up continues until 16 years of age"
    case AgeGateReason => "Very low risk due to current age > 16 years."
    case AnaPosEarlyShort => "High risk due to positive ANA, onset age ≤ 6, and time since diagnosis ≤ 4 years."
    case AnaPosEarlyMiddle => "Medium risk due to positive ANA, onset age ≤ 6, and time since diagnosis between 4 and 7 years."
    case AnaPosEarlyLong => "Low risk due to positive ANA, onset age ≤ 6, and time since diagnosis > 7 years."
    case AnaNegEarlyShort => "Medium risk due to negative ANA, onset age ≤ 6, and time since diagnosis ≤ 4 years."
    case AnaNegEarlyLong => "Low risk due to negative ANA, onset age ≤ 6, and time since diagnosis > 4 years."
    case AnaPosLateShort => "Medium risk due to positive ANA, onset age > 6, and time since diagnosis ≤ 2 years."
    case AnaPosLateLong => "Low risk due to positive ANA, onset age > 6, and time since diagnosis > 2 years."
    case AnaNegLate => "Low risk due to negative ANA and onset age > 6."
  }

  method SpainPortugalCalculate(data: FormData, today: Date) returns (r: CalculationResult)
    requires Valid(today)
    ensures r == SpainPortugalAssessment(data, today)
  {
    var dob := ParseDate(data.dateOfBirth);
    var dod := ParseDate(data.dateOfDiagnosis);
    if dob.None? || dod.None? {
      return InvalidDate;
    }

    var currentAge := YearsDaysDiff(dob.value, today);
    var timeSinceDiagnosis := YearsDaysDiff(dod.value, today);
    var ageAtOnset := YearsDaysDiff(dob.value, dod.value);
    assert SpainPortugalAssessment(data, today)
        == SpainPortugalTable(data.subDiagnosis, data.anaPositive, Ages(currentAge, ageAtOnset, timeSinceDiagnosis));
    ThresholdsComplementary(timeSinceDiagnosis, 4);
    ThresholdsComplementary(timeSinceDiagnosis, 7);
    ThresholdsComplementary(timeSinceDiagnosis, 2);

    if MoreThan(currentAge, 16) {
      return AgeGate;
    }

    var riskLevel := NoRisk;
    var recommendation := "";
    var followup := "";
    var justification := "";

    var subdGroup1 := data.subDiagnosis in IberianGroup1;
    var subdGroup2 := data.subDiagnosis in IberianGroup2;

    var onsetLeq6 := AtMost(ageAtOnset, 6);
    var timeuLeq4 := AtMost(timeSinceDiagnosis, 4);
    var timeuGt4 := MoreThan(timeSinceDiagnosis, 4);
    var timeuLeq7 := AtMost(timeSinceDiagnosis, 7);
    var timeuGt7 := MoreThan(timeSinceDiagnosis, 7);
    var timeuLeq2 := AtMost(timeSinceDiagnosis, 2);
    var timeuGt2 := MoreThan(timeSinceDiagnosis, 2);

    if subdGroup1 {
      if onsetLeq6 {
        if data.anaPositive && timeuLeq4 {
          recommendation, riskLevel, justification := "Every 3 Months", HighRisk, Text(AnaPosEarlyShort);
        } else if data.anaPositive && timeuGt4 && timeuLeq7 {
          recommendation, riskLevel, justification := "Every 6 Months", MediumRisk, Text(AnaPosEarlyMiddle);
        } else if data.anaPositive && timeuGt7 {
          recommendation, riskLevel, justification := "Every 12 Months", LowRisk, Text(AnaPosEarlyLong);
        } else if !data.anaPositive && timeuLeq4 {
          recommendation, riskLevel, justification := "Every 6 Months", MediumRisk, Text(AnaNegEarlyShort);
        } else if !data.anaPositive && timeuGt4 {
          recommendation, riskLevel, justification := "Every 12 Months", LowRisk, Text(AnaNegEarlyLong);
        }
      } else {
        if data.anaPositive && timeuLeq2 {
          recommendation, riskLevel, justification := "Every 6 Months", MediumRisk, Text(AnaPosLateShort);
        } else if data.anaPositive && timeuGt2 {
          recommendation, riskLevel, justification := "Every 12 Months", LowRisk, Text(AnaPosLateLong);
        } else {
          recommendation, riskLevel, justification := "Every 12 Months", LowRisk, Text(AnaNegLate);
        }
      }
      followup := Text(UntilSixteen);
    } else if subdGroup2 {
      recommendation, riskLevel, followup, justification := "Every 12 Months", LowRisk, Text(UntilSixteen), DiagnosisReason(data.subDiagnosis);
    }
    assert CalculationResult(riskLevel, recommendation, followup, justification)
        == SpainPortugalGrade(SpainPortugalGroupOf(data.subDiagnosis), data.subDiagnosis, data.anaPositive, ageAtOnset, timeSinceDiagnosis);

    return CalculationResult(riskLevel, recommendation, followup, justification);
  }

  // ---------------------------------------------------------------------------
  // The guideline as a table

  function SpainPortugalGroupOf(subDiagnosis: string): Group {
    GroupOfFlags(subDiagnosis in IberianGroup1, subDiagnosis in IberianGroup2, false)
  }

  /** The result up to 16 years of age: by group, ANA, age at onset and time since diagnosis. */
  function SpainPortugalGrade(group: Group, subDiagnosis: string, ana: bool, onset: DateDifference, time: DateDifference): CalculationResult {
    match group
    case Group1 =>
      var (level, interval, why) :=
        if AtMost(onset, 6) then
          if ana then
            if AtMost(time, 4) then (HighRisk, "Every 3 Months", Text(AnaPosEarlyShort))
            else if AtMost(time, 7) then (MediumRisk, "Every 6 Months", Text(AnaPosEarlyMiddle))
            else (LowRisk, "Every 12 Months", Text(AnaPosEarlyLong))
          else if AtMost(time, 4) then (MediumRisk, "Every 6 Months", Text(AnaNegEarlyShort))
          else (LowRisk, "Every 12 Months", Text(AnaNegEarlyLong))
        else if !ana then (LowRisk, "Every 12 Months", Text(AnaNegLate))
        else if AtMost(time, 2) then (MediumRisk, "Every 6 Months", Text(AnaPosLateShort))
        else (LowRisk, "Every 12 Months", Text(AnaPosLateLong));
      CalculationResult(level, interval, Text(UntilSixteen), why)
    case Group2 => CalculationResult(LowRisk, "Every 12 Months", Text(UntilSixteen), DiagnosisReason(subDiagnosis))
    case _ => CalculationResult(NoRisk, "", "", "")
  }

  const AgeGate := CalculationResult(VeryLowRisk, "None", "No screening required", Text(AgeGateReason))

  function SpainPortugalTable(subDiagnosis: string, ana: bool, ages: Ages): CalculationResult {
    if MoreThan(ages.currentAge, 16) then AgeGate
    else SpainPortugalGrade(SpainPortugalGroupOf(subDiagnosis), subDiagnosis, ana, ages.ageAtOnset, ages.timeSinceDiagnosis)
  }

  function SpainPortugalAssessment(data: FormData, today: Date): CalculationResult
    requires Valid(today)
  {
    match PatientDates(data)
    case None => InvalidDate
    case Some((dob, dod)) => SpainPortugalTable(data.subDiagnosis, data.anaPositive, AgesOf(dob, dod, today))
  }

  // ---------------------------------------------------------------------------
  // Properties

  /** The two groups do not overlap. */
  lemma SpainPortugalGroupsDisjoint(subDiagnosis: string)
    ensures !(subDiagnosis in IberianGroup1 && subDiagnosis in IberianGroup2)
  {
  }

  /**
   * Past 16 years and 0 days of age the result is very low risk whatever the
   * other answers; up to and including 16 years and 0 days it is never.
   */
  lemma SpainPortugalAgeGate(subDiagnosis: string, ana: bool, ages: Ages)
    ensures MoreThan(ages.currentAge, 16) ==> SpainPortugalTable(subDiagnosis, ana, ages) == AgeGate
    ensures !MoreThan(ages.currentAge, 16) ==> SpainPortugalTable(subDiagnosis, ana, ages).riskLevel != VeryLowRisk
  {
  }

  /** For a listed sub-diagnosis the risk never rises as the time since diagnosis grows. */
  lemma {:induction false} SpainPortugalRiskFallsWithTime(group: Group, subDiagnosis: string, ana: bool, onset: DateDifference, t1: DateDifference, t2: DateDifference)
    requires 0 <= t1.days && NoLonger(t1, t2)
    ensures Severity(SpainPortugalGrade(group, subDiagnosis, ana, onset, t2).riskLevel)
         <= Severity(SpainPortugalGrade(group, subDiagnosis, ana, onset, t1).riskLevel)
  {
    ThresholdsMonotone(t1, t2, 4);
    ThresholdsMonotone(t1, t2, 7);
    ThresholdsMonotone(t1, t2, 2);
  }

  /** "Undifferentiated Arthritis", offered by this guideline, is in neither group: up to 16 it gets "No Risk" and empty texts. */
  lemma UndifferentiatedUngraded(ana: bool, ages: Ages)
    requires !MoreThan(ages.currentAge, 16)
    ensures SpainPortugalTable("Undifferentiated Arthritis", ana, ages) == CalculationResult(NoRisk, "", "", "")
  {
    assert "Undifferentiated Arthritis" !in IberianGroup1;
    assert "Undifferentiated Arthritis" !in IberianGroup2;
  }

  /** The evaluator reports an error only for a date that does not parse. */
  lemma SpainPortugalNeverErrs(subDiagnosis: string, ana: bool, ages: Ages)
    ensures SpainPortugalTable(subDiagnosis, ana, ages).riskLevel != Error
  {
  }
}
