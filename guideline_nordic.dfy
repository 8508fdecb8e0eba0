/**
 * The Nordic guideline: screening until 16 years of age, graded by
 * sub-diagnosis group, age at onset, ANA, methotrexate and time since
 * diagnosis, then lowered one step for a biological treatment other than
 * etanercept.
 */
module NordicGuideline {
  import opened Wrappers
  import opened DateService
  import opened Types
  import opened GuidelineCommon

  const NordicGroup1 := ["Oligoarthritis", "RF Negative Polyarthritis", "Psoriatic Arthritis", "Undifferentiated Arthritis"]
  const NordicGroup2 := "Enthesitis related Arthritis"
  const NordicGroup3 := ["RF Positive Arthritis", "Systemic Onset Arthritis"]

  /** The fixed texts the evaluator puts into its results. */
  datatype Message =
      UntilSixteen
    | TwoToFourYears
    | FourToSevenYears
    | AgeGateReason
    | DowngradeNote
    | AnaPosNoMtxEarlyShort
    | AnaPosMtxEarlyShort
    | AnaPosNoMtxEarlyMiddle
    | AnaPosMtxEarlyLong
    | AnaPosNoMtxEarlyLong
    | AnaNegNoMtxEarlyShort
    | AnaNegNoMtxEarlyLong
    | AnaNegMtxEarly
    | AnaPosNoMtxLateShort
    | AnaPosNoMtxLateLong
    | AnaPosMtxLate
    | AnaNegLate
    | EnthesitisEarly
    | EnthesitisLate
    | SystemicReason

  function Text(m: Message): string {
    match m
    case UntilSixteen => "Follow-up continues until 16 Years of age"
    case TwoToFourYears => "Follow-up for 2 - 4 years, max 16 years of age"
    case FourToSevenYears => "Follow-up for 4 - 7 years, max 16 years of age"
    case AgeGateReason => "Screening guidelines apply only until 16 years of age."
    case DowngradeNote => "Risk downgraded due to biological treatment."
    case AnaPosNoMtxEarlyShort => "High risk due to ANA+ without methotrexate, age at onset ≤ 6 years, time since diagnosis 0–4 years."
    case AnaPosMtxEarlyShort => "Medium risk due to ANA+ with methotrexate, age at onset ≤ 6 years, time since diagnosis 0–4 years."
    case AnaPosNoMtxEarlyMiddle => "Medium risk due to ANA+ without methotrexate, age at onset ≤ 6 years, time since diagnosis 4–7 years."
    case AnaPosMtxEarlyLong => "Low risk due to ANA+ with methotrexate, age at onset ≤ 6 years, time since diagnosis >4 years."
    case AnaPosNoMtxEarlyLong => "Low risk due to ANA+ without methotrexate, age at onset ≤ 6 years, time since diagnosis >7 years."
    case AnaNegNoMtxEarlyShort => "Medium risk due to ANA- without methotrexate, age at onset ≤ 6 years, time since diagnosis 0–4 years."
    case AnaNegNoMtxEarlyLong => "Low risk due to ANA- without methotrexate, age at onset ≤ 6 years, time since diagnosis > 4 years."
    case AnaNegMtxEarly => "Low risk due to ANA- with methotrexate, age at onset ≤ 6 years"
    case AnaPosNoMtxLateShort => "Medium risk due to ANA+ without methotrexate, age at onset > 6 years, time since diagnosis ≤ 2 years."
    case AnaPosNoMtxLateLong => "Low risk due to ANA+ without methotrexate, onset > 6 years, time since diagnosis > 2 years."
    case AnaPosMtxLate => "Low risk due to ANA+ with methotrexate, onset > 6 years."
    case AnaNegLate => "Low risk due to ANA- regardless of methotrexate, onset > 6 years."
    case EnthesitisEarly => "Low risk: Enthesitis related arthritis with onset ≤ 6 years."
    case EnthesitisLate => "Low risk: Enthesitis related arthritis with onset > 6 years."
    case SystemicReason => "Very low risk: RF positive or systemic onset arthritis."
  }

  method NordicCalculate(data: FormData, today: Date) returns (r: CalculationResult)
    requires Valid(today)
    ensures r == NordicAssessment(data, today)
  {
    var dob := ParseDate(data.dateOfBirth);
    var dod := ParseDate(data.dateOfDiagnosis);
    if dob.None? || dod.None? {
      return InvalidDate;
    }

    var currentAge := YearsDaysDiff(dob.value, today);
    var timeSinceDiagnosis := YearsDaysDiff(dod.value, today);
    var ageAtOnset := YearsDaysDiff(dob.value, dod.value);
    ghost var ages := Ages(currentAge, ageAtOnset, timeSinceDiagnosis);
    assert NordicAssessment(data, today) == NordicTable(data.subDiagnosis, data.anaPositive, data.onMethotrexate, data.biologicalTreatment, ages);

    var subdGroup1 := data.subDiagnosis in NordicGroup1;
    var subdGroup2 := data.subDiagnosis == NordicGroup2;
    var subdGroup3 := data.subDiagnosis in NordicGroup3;

    if MoreThan(currentAge, 16) {
      return CalculationResult(VeryLowRisk, "No screening required", "None", Text(AgeGateReason));
    }

    var riskLevel, recommendation, followup, justification :=
      NordicLadder(subdGroup1, subdGroup2, subdGroup3, data.anaPositive, data.onMethotrexate, ageAtOnset, timeSinceDiagnosis);
    ghost var grade := CalculationResult(riskLevel, recommendation, followup, justification);
    assert grade == NordicGrade(NordicGroupOf(data.subDiagnosis), data.anaPositive, data.onMethotrexate, ageAtOnset, timeSinceDiagnosis);

    if data.biologicalTreatment != "" && !(data.biologicalTreatment == "None / Other" || data.biologicalTreatment == "Etanercept") {
      if riskLevel == HighRisk {
        riskLevel := MediumRisk;
        recommendation := "Every 6 Months";
        justification := Text(DowngradeNote);
      } else if riskLevel == MediumRisk {
        riskLevel := LowRisk;
        recommendation := "Every 12 Months";
        justification := Text(DowngradeNote);
      }
    }

    return CalculationResult(riskLevel, recommendation, followup, justification);
  }

  /** The ladder by group, age at onset, ANA, methotrexate and time since diagnosis, before any downgrade. */
  method NordicLadder(subdGroup1: bool, subdGroup2: bool, subdGroup3: bool, anaPositive: bool, onMethotrexate: bool,
                      ageAtOnset: DateDifference, timeSinceDiagnosis: DateDifference)
    returns (riskLevel: RiskLevel, recommendation: string, followup: string, justification: string)
    requires 0 <= timeSinceDiagnosis.days
    ensures CalculationResult(riskLevel, recommendation, followup, justification)
            == NordicGrade(GroupOfFlags(subdGroup1, subdGroup2, subdGroup3), anaPositive, onMethotrexate, ageAtOnset, timeSinceDiagnosis)
  {
    riskLevel := NoRisk;
    followup := "None";
    recommendation := "None";
    justification := StandardRisk;

    var onsetLeq6 := AtMost(ageAtOnset, 6);
    var timeuLeq4 := AtMost(timeSinceDiagnosis, 4);
    var timeuGt4 := MoreThan(timeSinceDiagnosis, 4);
    var timeuGt7 := MoreThan(timeSinceDiagnosis, 7);
    var timeuLeq2 := AtMost(timeSinceDiagnosis, 2);
    var timeuGt2 := MoreThan(timeSinceDiagnosis, 2);
    var timeuGt0 := MoreThan(timeSinceDiagnosis, 0);
    ThresholdsComplementary(timeSinceDiagnosis, 4);
    ThresholdsComplementary(timeSinceDiagnosis, 7);
    ThresholdsComplementary(timeSinceDiagnosis, 2);

    if subdGroup1 {
      if onsetLeq6 {
        if anaPositive && !onMethotrexate && timeuLeq4 {
          recommendation, riskLevel, justification := "Every 3 Months", HighRisk, Text(AnaPosNoMtxEarlyShort);
        } else if anaPositive && onMethotrexate && timeuLeq4 {
          recommendation, riskLevel, justification := "Every 6 Months", MediumRisk, Text(AnaPosMtxEarlyShort);
        } else if anaPositive && !onMethotrexate && timeuGt4 && !timeuGt7 {
          recommendation, riskLevel, justification := "Every 6 Months", MediumRisk, Text(AnaPosNoMtxEarlyMiddle);
        } else if anaPositive && onMethotrexate && timeuGt4 {
          recommendation, riskLevel, justification := "Every 12 Months", LowRisk, Text(AnaPosMtxEarlyLong);
        } else if anaPositive && !onMethotrexate && timeuGt7 {
          recommendation, riskLevel, justification := "Every 12 Months", LowRisk, Text(AnaPosNoMtxEarlyLong);
        } else if !anaPositive && !onMethotrexate && timeuLeq4 {
          recommendation, riskLevel, justification := "Every 6 Months", MediumRisk, Text(AnaNegNoMtxEarlyShort);
        } else if !anaPositive && !onMethotrexate && timeuGt4 {
          recommendation, riskLevel, justification := "Every 12 Months", LowRisk, Text(AnaNegNoMtxEarlyLong);
        } else if !anaPositive && onMethotrexate && timeuGt0 {
          recommendation, riskLevel, justification := "Every 12 Months", LowRisk, Text(AnaNegMtxEarly);
        }
        followup := Text(UntilSixteen);
      } else {
        if anaPositive && !onMethotrexate && timeuLeq2 {
          recommendation, riskLevel, justification := "Every 6 Months", MediumRisk, Text(AnaPosNoMtxLateShort);
        } else if anaPositive && !onMethotrexate && timeuGt2 {
          recommendation, riskLevel, justification := "Every 12 Months", LowRisk, Text(AnaPosNoMtxLateLong);
        } else if anaPositive && onMethotrexate && timeuGt0 {
          recommendation, riskLevel, justification := "Every 12 Months", LowRisk, Text(AnaPosMtxLate);
        } else if !anaPositive {
          recommendation, riskLevel, justification := "Every 12 Months", LowRisk, Text(AnaNegLate);
        }
        followup := Text(TwoToFourYears);
      }
    } else if subdGroup2 {
      if onsetLeq6 {
        recommendation, riskLevel, followup, justification := "Every 12 Months", LowRisk, Text(FourToSevenYears), Text(EnthesitisEarly);
      } else {
        recommendation, riskLevel, followup, justification := "Every 12 Months", LowRisk, Text(TwoToFourYears), Text(EnthesitisLate);
      }
    } else if subdGroup3 {
      recommendation, riskLevel, followup, justification := "Screen at Diagnosis", VeryLowRisk, "No Follow up required", Text(SystemicReason);
    }
  }

  // ---------------------------------------------------------------------------
  // The guideline as a table

  function NordicGroupOf(subDiagnosis: string): Group {
    GroupOfFlags(subDiagnosis in NordicGroup1, subDiagnosis == NordicGroup2, subDiagnosis in NordicGroup3)
  }

  /** Risk, interval and reason for group 1 with onset at most 6 years; the methotrexate-treated ANA-negative patient diagnosed today gets none. */
  function EarlyOnsetGrade(ana: bool, mtx: bool, time: DateDifference): (RiskLevel, string, string) {
    if ana && !mtx then
      if AtMost(time, 4) then (HighRisk, "Every 3 Months", Text(AnaPosNoMtxEarlyShort))
      else if AtMost(time, 7) then (MediumRisk, "Every 6 Months", Text(AnaPosNoMtxEarlyMiddle))
      else (LowRisk, "Every 12 Months", Text(AnaPosNoMtxEarlyLong))
    else if ana then
      if AtMost(time, 4) then (MediumRisk, "Every 6 Months", Text(AnaPosMtxEarlyShort))
      else (LowRisk, "Every 12 Months", Text(AnaPosMtxEarlyLong))
    else if !mtx then
      if AtMost(time, 4) then (MediumRisk, "Every 6 Months", Text(AnaNegNoMtxEarlyShort))
      else (LowRisk, "Every 12 Months", Text(AnaNegNoMtxEarlyLong))
    else if MoreThan(time, 0) then (LowRisk, "Every 12 Months", Text(AnaNegMtxEarly))
    else (NoRisk, "None", StandardRisk)
  }

  /** Risk, interval and reason for group 1 with onset after 6 years; the methotrexate-treated ANA-positive patient diagnosed today gets none. */
  function LateOnsetGrade(ana: bool, mtx: bool, time: DateDifference): (RiskLevel, string, string) {
    if !ana then (LowRisk, "Every 12 Months", Text(AnaNegLate))
    else if !mtx then
      if AtMost(time, 2) then (MediumRisk, "Every 6 Months", Text(AnaPosNoMtxLateShort))
      else (LowRisk, "Every 12 Months", Text(AnaPosNoMtxLateLong))
    else if MoreThan(time, 0) then (LowRisk, "Every 12 Months", Text(AnaPosMtxLate))
    else (NoRisk, "None", StandardRisk)
  }

  /** The grade before the biological-treatment downgrade. */
  function NordicGrade(group: Group, ana: bool, mtx: bool, onset: DateDifference, time: DateDifference): CalculationResult {
    match group
    case Group1 =>
      if AtMost(onset, 6) then
        var (level, interval, why) := EarlyOnsetGrade(ana, mtx, time);
        CalculationResult(level, interval, Text(UntilSixteen), why)
      else
        var (level, interval, why) := LateOnsetGrade(ana, mtx, time);
        CalculationResult(level, interval, Text(TwoToFourYears), why)
    case Group2 =>
      if AtMost(onset, 6) then CalculationResult(LowRisk, "Every 12 Months", Text(FourToSevenYears), Text(EnthesitisEarly))
      else CalculationResult(LowRisk, "Every 12 Months", Text(TwoToFourYears), Text(EnthesitisLate))
    case Group3 => CalculationResult(VeryLowRisk, "Screen at Diagnosis", "No Follow up required", Text(SystemicReason))
    case Ungrouped => CalculationResult(NoRisk, "None", "None", StandardRisk)
  }

  /** A biological treatment lowers the risk unless it is absent, "None / Other" or etanercept. */
  predicate DowngradeApplies(biologicalTreatment: string) {
    biologicalTreatment != "" && biologicalTreatment != "None / Other" && biologicalTreatment != "Etanercept"
  }

  /** One step down from high or medium risk, with the interval of the level reached. */
  function Downgrade(r: CalculationResult): CalculationResult {
    match r.riskLevel
    case HighRisk => r.(riskLevel := MediumRisk, recommendation := "Every 6 Months", justification := Text(DowngradeNote))
    case MediumRisk => r.(riskLevel := LowRisk, recommendation := "Every 12 Months", justification := Text(DowngradeNote))
    case _ => r
  }

  const AgeGate := CalculationResult(VeryLowRisk, "No screening required", "None", Text(AgeGateReason))

  function NordicTable(subDiagnosis: string, ana: bool, mtx: bool, biologicalTreatment: string, ages: Ages): CalculationResult {
    if MoreThan(ages.currentAge, 16) then AgeGate
    else
      var grade := NordicGrade(NordicGroupOf(subDiagnosis), ana, mtx, ages.ageAtOnset, ages.timeSinceDiagnosis);
      if DowngradeApplies(biologicalTreatment) then Downgrade(grade) else grade
  }

  function NordicAssessment(data: FormData, today: Date): CalculationResult
    requires Valid(today)
  {
    match PatientDates(data)
    case None => InvalidDate
    case Some((dob, dod)) =>
      NordicTable(data.subDiagnosis, data.anaPositive, data.onMethotrexate, data.biologicalTreatment, AgesOf(dob, dod, today))
  }

  // ---------------------------------------------------------------------------
  // Properties

  /** The three groups do not overlap, so the order of the membership tests does not matter. */
  lemma NordicGroupsDisjoint(subDiagnosis: string)
    ensures NordicGroupOf(subDiagnosis) == Group1 <==> subDiagnosis in NordicGroup1
    ensures NordicGroupOf(subDiagnosis) == Group2 <==> subDiagnosis == NordicGroup2
    ensures NordicGroupOf(subDiagnosis) == Group3 <==> subDiagnosis in NordicGroup3
  {
  }

  /**
   * Past 16 years and 0 days of age the result is the age gate, whatever the
   * other fields; up to and including 16 years and 0 days it is the graded,
   * possibly downgraded, result.
   */
  lemma NordicAgeGate(subDiagnosis: string, ana: bool, mtx: bool, biologicalTreatment: string, ages: Ages)
    ensures MoreThan(ages.currentAge, 16) ==> NordicTable(subDiagnosis, ana, mtx, biologicalTreatment, ages) == AgeGate
    ensures !MoreThan(ages.currentAge, 16) ==>
      var grade := NordicGrade(NordicGroupOf(subDiagnosis), ana, mtx, ages.ageAtOnset, ages.timeSinceDiagnosis);
      NordicTable(subDiagnosis, ana, mtx, biologicalTreatment, ages) in {grade, Downgrade(grade)}
  {
  }

  /**
   * The downgrade moves high to medium and medium to low, one step at most;
   * any other level, and the follow-up in every case, is left alone.
   */
  lemma DowngradeOneStep(r: CalculationResult)
    ensures var d := Downgrade(r);
      && d.followup == r.followup
      && (r.riskLevel == HighRisk ==> d.riskLevel == MediumRisk && d.recommendation == "Every 6 Months")
      && (r.riskLevel == MediumRisk ==> d.riskLevel == LowRisk && d.recommendation == "Every 12 Months")
      && (r.riskLevel != HighRisk && r.riskLevel != MediumRisk ==> d == r)
      && Severity(d.riskLevel) <= Severity(r.riskLevel)
  {
  }

  /** A downgraded result is never high risk. */
  lemma DowngradeNeverHigh(r: CalculationResult)
    ensures Downgrade(r).riskLevel != HighRisk
  {
  }

  /** An ANA-positive child with onset at 3, diagnosed a year ago and not on methotrexate, is high risk; adalimumab makes it medium, etanercept does not. */
  lemma AdalimumabScenario()
    ensures var ages := Ages(DateDifference(5, 0), DateDifference(3, 0), DateDifference(1, 0));
      && NordicTable("Oligoarthritis", true, false, "Adalimumab", ages).riskLevel == MediumRisk
      && NordicTable("Oligoarthritis", true, false, "Adalimumab", ages).recommendation == "Every 6 Months"
      && NordicTable("Oligoarthritis", true, false, "Etanercept", ages).riskLevel == HighRisk
      && NordicTable("Oligoarthritis", true, false, "Etanercept", ages).recommendation == "Every 3 Months"
  {
    NordicGroupsDisjoint("Oligoarthritis");
  }

  /**
   * A methotrexate-treated group-1 patient diagnosed today falls through the
   * ladder when ANA-negative with early onset, or ANA-positive with late onset:
   * the result stays "No Risk".
   */
  lemma DiagnosedTodayGap(ana: bool, onset: DateDifference)
    requires AtMost(onset, 6) <==> !ana
    ensures NordicGrade(Group1, ana, true, onset, DateDifference(0, 0)).riskLevel == NoRisk
  {
  }

  /**
   * Apart from that gap (on methotrexate, diagnosed today, with early onset and
   * ANA-negative or late onset and ANA-positive), the risk of a group-1 patient
   * never rises as the time since diagnosis grows.
   */
  lemma {:induction false} NordicRiskFallsWithTime(ana: bool, mtx: bool, onset: DateDifference, t1: DateDifference, t2: DateDifference)
    requires 0 <= t1.days && 0 <= t2.days
    requires NoLonger(t1, t2)
    requires !(mtx && !MoreThan(t1, 0) && (AtMost(onset, 6) <==> !ana))
    ensures Severity(NordicGrade(Group1, ana, mtx, onset, t2).riskLevel) <= Severity(NordicGrade(Group1, ana, mtx, onset, t1).riskLevel)
  {
    ThresholdsMonotone(t1, t2, 4);
    ThresholdsMonotone(t1, t2, 7);
    ThresholdsMonotone(t1, t2, 2);
    ThresholdsComplementary(t1, 0);
    ThresholdsComplementary(t2, 0);
  }

  /** The evaluator reports an error only for a date that does not parse. */
  lemma NordicNeverErrs(subDiagnosis: string, ana: bool, mtx: bool, biologicalTreatment: string, ages: Ages)
    ensures NordicTable(subDiagnosis, ana, mtx, biologicalTreatment, ages).riskLevel != Error
  {
  }
}
