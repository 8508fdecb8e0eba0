/**
 * The Argentine guideline: screening until 21 years of age; systemic onset is
 * low risk outright, every other sub-diagnosis is graded by ANA, age at onset
 * and time since diagnosis without any grouping.
 */
module ArgentinaGuideline {
  import opened Wrappers
  import opened DateService
  import opened Types
  import opened GuidelineCommon

  const SystemicOnset := "Systemic onset Arthritis"

  /** The fixed texts the evaluator puts into its results. */
  datatype Message =
      UntilTwentyOne
    | AgeGateReason
    | SystemicReason
    | AnaPosEarlyShort
    | AnaPosEarlyMiddle
    | AnaPosEarlyLong
    | AnaNegEarlyShort
    | AnaNegEarlyLong
    | AnaPosLateShort
    | AnaPosLateLong
    | AnaNegLateLong

  function Text(m: Message): string {
    match m
    case UntilTwentyOne => "Until 21 years"
    case AgeGateReason => "Very low risk due to age > 21 years."
    case SystemicReason => "Low risk due to diagnosis of Systemic onset Arthritis."
    case AnaPosEarlyShort => "High risk due to positive ANA, onset age ≤ 6, and time since diagnosis ≤ 4 years."
    case AnaPosEarlyMiddle => "Medium risk due to positive ANA, onset age ≤ 6, and time since diagnosis between 4 and 7 years."
    case AnaPosEarlyLong => "Low risk due to positive ANA, onset age ≤ 6, and time since diagnosis > 7 years."
    case AnaNegEarlyShort => "Medium risk due to negative ANA, onset age ≤ 6, and time since diagnosis ≤ 4 years."
    case AnaNegEarlyLong => "Low risk due to negative ANA, onset age ≤ 6, and time since diagnosis > 4 years."
    case AnaPosLateShort => "Medium risk due to positive ANA, onset age > 6, and time since diagnosis ≤ 4 years."
    case AnaPosLateLong => "Low risk due to positive ANA, onset age > 6, and time since diagnosis > 4 years."
    case AnaNegLateLong => "Low risk due to negative ANA, onset age > 6, and time since diagnosis > 4 years."
  }

  method ArgentinaCalculate(data: FormData, today: Date) returns (r: CalculationResult)
    requires Valid(today)
    ensures r == ArgentinaAssessment(data, today)
  {
    var dob := ParseDate(data.dateOfBirth);
    var dod := ParseDate(data.dateOfDiagnosis);
    if dob.None? || dod.None? {
      return InvalidDate;
    }

    var currentAge := YearsDaysDiff(dob.value, today);
    var timeSinceDiagnosis := YearsDaysDiff(dod.value, today);
    var ageAtOnset := YearsDaysDiff(dob.value, dod.value);
    assert ArgentinaAssessment(data, today)
        == ArgentinaTable(data.subDiagnosis, data.anaPositive, Ages(currentAge, ageAtOnset, timeSinceDiagnosis));
    ThresholdsComplementary(timeSinceDiagnosis, 4);
    ThresholdsComplementary(timeSinceDiagnosis, 7);

    if MoreThan(currentAge, 21) {
      return AgeGate;
    }

    var isSystemic := data.subDiagnosis == SystemicOnset;
    if isSystemic {
      return CalculationResult(LowRisk, "Every 12 Months", Text(UntilTwentyOne), Text(SystemicReason));
    }

    var riskLevel := NoRisk;
    var recommendation := "";
    var followup := Text(UntilTwentyOne);
    var justification := "";

    var onsetLeq6 := AtMost(ageAtOnset, 6);
    var timeuLeq4 := AtMost(timeSinceDiagnosis, 4);
    var timeuGt4 := MoreThan(timeSinceDiagnosis, 4);
    var timeuBetween4And7 := timeuGt4 && AtMost(timeSinceDiagnosis, 7);
    var timeuGt7 := MoreThan(timeSinceDiagnosis, 7);

    if onsetLeq6 {
      if data.anaPositive && timeuLeq4 {
        riskLevel, recommendation, justification := HighRisk, "Every 3 Months", Text(AnaPosEarlyShort);
      } else if data.anaPositive && timeuBetween4And7 {
        riskLevel, recommendation, justification := MediumRisk, "Every 6 Months", Text(AnaPosEarlyMiddle);
      } else if data.anaPositive && timeuGt7 {
        riskLevel, recommendation, justification := LowRisk, "Every 12 Months", Text(AnaPosEarlyLong);
      } else if !data.anaPositive && timeuLeq4 {
        riskLevel, recommendation, justification := MediumRisk, "Every 6 Months", Text(AnaNegEarlyShort);
      } else if !data.anaPositive && timeuGt4 {
        riskLevel, recommendation, justification := LowRisk, "Every 12 Months", Text(AnaNegEarlyLong);
      }
    } else {
      if data.anaPositive && timeuLeq4 {
        riskLevel, recommendation, justification := MediumRisk, "Every 6 Months", Text(AnaPosLateShort);
      } else if data.anaPositive && timeuGt4 {
        riskLevel, recommendation, justification := LowRisk, "Every 12 Months", Text(AnaPosLateLong);
      } else if !data.anaPositive && timeuGt4 {
        riskLevel, recommendation, justification := LowRisk, "Every 12 Months", Text(AnaNegLateLong);
      }
    }
    return CalculationResult(riskLevel, recommendation, followup, justification);
  }

  // ---------------------------------------------------------------------------
  // The guideline as a table

  const AgeGate := CalculationResult(VeryLowRisk, "No screening required", "None", Text(AgeGateReason))

  /** Risk, interval and reason by ANA, age at onset and time since diagnosis; late-onset ANA-negative patients in their first four years get none. */
  function ArgentinaGrade(ana: bool, onset: DateDifference, time: DateDifference): (RiskLevel, string, string) {
    if AtMost(onset, 6) then
      if ana then
        if AtMost(time, 4) then (HighRisk, "Every 3 Months", Text(AnaPosEarlyShort))
        else if AtMost(time, 7) then (MediumRisk, "Every 6 Months", Text(AnaPosEarlyMiddle))
        else (LowRisk, "Every 12 Months", Text(AnaPosEarlyLong))
      else if AtMost(time, 4) then (MediumRisk, "Every 6 Months", Text(AnaNegEarlyShort))
      else (LowRisk, "Every 12 Months", Text(AnaNegEarlyLong))
    else if AtMost(time, 4) then
      if ana then (MediumRisk, "Every 6 Months", Text(AnaPosLateShort)) else (NoRisk, "", "")
    else (LowRisk, "Every 12 Months", if ana then Text(AnaPosLateLong) else Text(AnaNegLateLong))
  }

  function ArgentinaTable(subDiagnosis: string, ana: bool, ages: Ages): CalculationResult {
    if MoreThan(ages.currentAge, 21) then AgeGate
    else if subDiagnosis == SystemicOnset then CalculationResult(LowRisk, "Every 12 Months", Text(UntilTwentyOne), Text(SystemicReason))
    else
      var (level, interval, why) := ArgentinaGrade(ana, ages.ageAtOnset, ages.timeSinceDiagnosis);
      CalculationResult(level, interval, Text(UntilTwentyOne), why)
  }

  function ArgentinaAssessment(data: FormData, today: Date): CalculationResult
    requires Valid(today)
  {
    match PatientDates(data)
    case None => InvalidDate
    case Some((dob, dod)) => ArgentinaTable(data.subDiagnosis, data.anaPositive, AgesOf(dob, dod, today))
  }

  // ---------------------------------------------------------------------------
  // Properties

  /**
   * Past 21 years and 0 days of age the result is very low risk whatever the
   * other answers; up to and including 21 years and 0 days it is never.
   */
  lemma ArgentinaAgeGate(subDiagnosis: string, ana: bool, ages: Ages)
    ensures MoreThan(ages.currentAge, 21) ==> ArgentinaTable(subDiagnosis, ana, ages) == AgeGate
    ensures !MoreThan(ages.currentAge, 21) ==> ArgentinaTable(subDiagnosis, ana, ages).riskLevel != VeryLowRisk
  {
  }

  /** Below the age limit, systemic onset arthritis is low risk whatever the ANA, onset and times. */
  lemma SystemicLowRisk(ana: bool, ages: Ages)
    requires !MoreThan(ages.currentAge, 21)
    ensures ArgentinaTable(SystemicOnset, ana, ages).riskLevel == LowRisk
  {
  }

  /** No grouping: any two sub-diagnoses other than systemic onset are assessed alike. */
  lemma SubDiagnosisIgnored(s1: string, s2: string, ana: bool, ages: Ages)
    requires s1 != SystemicOnset && s2 != SystemicOnset
    ensures ArgentinaTable(s1, ana, ages) == ArgentinaTable(s2, ana, ages)
  {
  }

  /** Late onset, negative ANA and at most four years since diagnosis: no branch fires, and the result stays "No Risk". */
  lemma LateOnsetAnaNegativeGap(subDiagnosis: string, ages: Ages)
    requires subDiagnosis != SystemicOnset && !MoreThan(ages.currentAge, 21)
    requires !AtMost(ages.ageAtOnset, 6) && AtMost(ages.timeSinceDiagnosis, 4)
    ensures ArgentinaTable(subDiagnosis, false, ages) == CalculationResult(NoRisk, "", Text(UntilTwentyOne), "")
  {
  }

  /** Where the ladder fires at all, the risk never rises as the time since diagnosis grows. */
  lemma {:induction false} ArgentinaRiskFallsWithTime(ana: bool, onset: DateDifference, t1: DateDifference, t2: DateDifference)
    requires 0 <= t1.days && NoLonger(t1, t2)
    requires ArgentinaGrade(ana, onset, t1).0 != NoRisk
    ensures Severity(ArgentinaGrade(ana, onset, t2).0) <= Severity(ArgentinaGrade(ana, onset, t1).0)
  {
    ThresholdsMonotone(t1, t2, 4);
    ThresholdsMonotone(t1, t2, 7);
  }

  /** The evaluator reports an error only for a date that does not parse. */
  lemma ArgentinaNeverErrs(subDiagnosis: string, ana: bool, ages: Ages)
    ensures ArgentinaTable(subDiagnosis, ana, ages).riskLevel != Error
  {
  }
}
