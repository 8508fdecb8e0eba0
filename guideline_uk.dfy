/**
 * The United Kingdom guideline. Alone among the evaluators it measures age at
 * onset and time since diagnosis in fractional years (elapsed days / 365.25),
 * checks a "very low risk" override before its ladder, and puts an induction
 * phase in front of every interval it recommends.
 */
module UkGuideline {
  import opened Wrappers
  import opened DateService
  import opened Types
  import opened GuidelineCommon

  const Oligoarticular := ["Persistent Oligoarthritis", "Extended Oligoarthritis", "Psoriatic Arthritis", "Enthesitis-related Arthritis"]
  const RfNegative := "RF Negative Polyarthritis"
  const Systemic := ["Systemic Onset Arthritis", "RF Positive Polyarthritis"]


  /** The fixed texts the evaluator puts into its results. */
  datatype Message =
      InductionPhase
    | FollowEightYears
    | FollowSixYears
    | FollowFiveYears
    | FollowThreeYears
    | FollowTwoYears
    | FollowOneYear
    | OnsetUnder3
    | Onset3To4
    | Onset5To8
    | Onset9To11
    | OnsetUnder6AnaPositive
    | Onset6To9AnaPositive
    | OnsetOver9AnaPositive
    | EarlyOnsetAnaNegative
    | OnsetFrom7AnaNegative
    | OnsetUnder7
    | Onset7To16

  function Text(m: Message): string {
    match m
    case InductionPhase => "Screen for every 2 months, for the first 6 months. Then screen "
    case FollowEightYears => "Follow up continues for 8 years"
    case FollowSixYears => "Follow up continues for 6 years"
    case FollowFiveYears => "Follow up continues for 5 years"
    case FollowThreeYears => "Follow up continues for 3 years"
    case FollowTwoYears => "Follow up continues for 2 years"
    case FollowOneYear => "Follow up continues for 1 year"
    case OnsetUnder3 => "High risk due to onset age <3 years."
    case Onset3To4 => "High risk due to onset age between 3 and 4 years."
    case Onset5To8 => "High risk due to onset age between 5 and 8 years."
    case Onset9To11 => "High risk due to onset age between 9 and 11 years."
    case OnsetUnder6AnaPositive => "High risk due to onset age <6 years with positive ANA."
    case Onset6To9AnaPositive => "High risk due to onset age between 6 and 9 years with positive ANA."
    case OnsetOver9AnaPositive => "High risk due to onset age >9 with positive ANA."
    case EarlyOnsetAnaNegative => "High risk due to early onset age with negative ANA."
    case OnsetFrom7AnaNegative => "High risk due to onset age at or after 7 years with negative ANA."
    case OnsetUnder7 => "High risk due to onset age <7 years."
    case Onset7To16 => "High risk due to onset age between 7 and 16 years."
  }

  /**
   * Elapsed years as a real number: whole days between the two dates divided by
   * 365.25, in exact arithmetic.
   */
  function FractionalYears(from: Date, to: Date): real
    requires Valid(from) && Valid(to)
  {
    (DayNumber(to) - DayNumber(from)) as real / 365.25
  }

  method UkCalculate(data: FormData, today: Date) returns (r: CalculationResult)
    requires Valid(today)
    ensures r == UkAssessment(data, today)
  {
    var dob := ParseDate(data.dateOfBirth);
    var dod := ParseDate(data.dateOfDiagnosis);
    if dob.None? || dod.None? {
      return InvalidDate;
    }

    var timeu := FractionalYears(dod.value, today);
    var ageAtOnset := FractionalYears(dob.value, dod.value);
    r := UkDecide(data.subDiagnosis, data.anaPositive, ageAtOnset, timeu);
  }

  /** The body of the evaluator once both fractional-year readings are taken. */
  method UkDecide(subDiagnosis: string, anaPositive: bool, ageAtOnset: real, timeu: real) returns (r: CalculationResult)
    ensures r == UkTable(subDiagnosis, anaPositive, ageAtOnset, timeu)
  {
    var group1 := subDiagnosis in Oligoarticular;
    var group2 := subDiagnosis == RfNegative;
    var group3 := subDiagnosis in Systemic;
    GroupMembership(subDiagnosis);
    assert FlagsGroup(group1, group2, group3) == UkGroupOf(subDiagnosis);

    PastScreeningMeansLimit(group1, group2, group3, anaPositive, ageAtOnset, timeu);
    if PastScreening(group1, group2, group3, anaPositive, ageAtOnset, timeu) {
      return CalculationResult(VeryLowRisk, "No screening required", "None", "Very low risk due to long time since diagnosis.");
    }

    var riskLevel, recommendation, followup, justification := UkLadder(group1, group2, group3, anaPositive, ageAtOnset);

    if recommendation != "Screen at Diagnosis" && recommendation != "No screening required" && recommendation != "None" {
      recommendation := Text(InductionPhase) + recommendation;
    }

    return CalculationResult(riskLevel, recommendation, followup, justification);
  }

  /**
   * The "very low risk" override: the sub-diagnosis group, ANA and age at onset
   * fix how many years of screening are due, and time since diagnosis exceeds them.
   */
  predicate PastScreening(group1: bool, group2: bool, group3: bool, anaPositive: bool, ageAtOnset: real, timeu: real) {
    (group1 && ((ageAtOnset < 3.0 && timeu > 8.0) || (ageAtOnset >= 3.0 && ageAtOnset < 5.0 && timeu > 6.0)
                || (ageAtOnset >= 5.0 && ageAtOnset < 9.0 && timeu > 3.0) || (ageAtOnset >= 9.0 && timeu > 1.0)))
    || (group2 && anaPositive && ((ageAtOnset < 6.0 && timeu > 5.0) || (ageAtOnset >= 6.0 && ageAtOnset <= 9.0 && timeu > 2.0)
                                  || (ageAtOnset > 9.0 && timeu > 1.0)))
    || (group2 && !anaPositive && ((ageAtOnset < 7.0 && timeu > 5.0) || (ageAtOnset >= 7.0 && timeu > 1.0)))
    || (group3 && ((ageAtOnset < 7.0 && timeu > 5.0) || (ageAtOnset >= 7.0 && timeu > 1.0)))
  }

  /** The ladder of risk by group, ANA and age at onset, without the induction phase. */
  method UkLadder(group1: bool, group2: bool, group3: bool, anaPositive: bool, ageAtOnset: real)
    returns (riskLevel: RiskLevel, recommendation: string, followup: string, justification: string)
    ensures riskLevel == AtDiagnosis(FlagsGroup(group1, group2, group3), anaPositive, ageAtOnset).riskLevel
    ensures recommendation == AtDiagnosis(FlagsGroup(group1, group2, group3), anaPositive, ageAtOnset).recommendation
    ensures followup == FollowupText(FlagsGroup(group1, group2, group3), anaPositive, ageAtOnset)
    ensures justification == Reason(FlagsGroup(group1, group2, group3), anaPositive, ageAtOnset)
  {
    riskLevel := NoRisk;
    followup := "None";
    recommendation := "None";
    justification := "None";

    if group1 {
      riskLevel := HighRisk;
      recommendation := "Every 3 - 4 Months";
      if ageAtOnset < 3.0 {
        followup := Text(FollowEightYears);
        justification := Text(OnsetUnder3);
      } else if ageAtOnset >= 3.0 && ageAtOnset < 5.0 {
        followup := Text(FollowSixYears);
        justification := Text(Onset3To4);
      } else if ageAtOnset >= 5.0 && ageAtOnset < 9.0 {
        followup := Text(FollowThreeYears);
        justification := Text(Onset5To8);
      } else if ageAtOnset >= 9.0 && ageAtOnset < 12.0 {
        followup := Text(FollowOneYear);
        justification := Text(Onset9To11);
      }
    } else if group2 {
      riskLevel := HighRisk;
      recommendation := "Every 3 - 4 Months";
      if anaPositive {
        if ageAtOnset < 6.0 {
          followup := Text(FollowFiveYears);
          justification := Text(OnsetUnder6AnaPositive);
        } else if ageAtOnset >= 6.0 && ageAtOnset <= 9.0 {
          followup := Text(FollowTwoYears);
          justification := Text(Onset6To9AnaPositive);
        } else if ageAtOnset > 9.0 {
          followup := Text(FollowOneYear);
          justification := Text(OnsetOver9AnaPositive);
        }
      } else {
        if ageAtOnset < 7.0 {
          followup := Text(FollowFiveYears);
          justification := Text(EarlyOnsetAnaNegative);
        } else if ageAtOnset >= 7.0 {
          followup := Text(FollowOneYear);
          justification := Text(OnsetFrom7AnaNegative);
        }
      }
    } else if group3 {
      if ageAtOnset < 7.0 {
        riskLevel := HighRisk;
        recommendation := "Every 3 - 4 Months";
        followup := Text(FollowFiveYears);
        justification := Text(OnsetUnder7);
      } else if ageAtOnset >= 7.0 && ageAtOnset <= 16.0 {
        riskLevel := HighRisk;
        recommendation := "Every 3 - 4 Months";
        followup := Text(FollowOneYear);
        justification := Text(Onset7To16);
      }
    }
  }

  // ---------------------------------------------------------------------------
  // The guideline as a table

  datatype UkGroup = Oligo | PolyRfNegative | SystemicOrRfPositive | Unlisted

  function UkGroupOf(subDiagnosis: string): UkGroup {
    if subDiagnosis in Oligoarticular then Oligo
    else if subDiagnosis == RfNegative then PolyRfNegative
    else if subDiagnosis in Systemic then SystemicOrRfPositive
    else Unlisted
  }

  /** The group named by the three membership tests, taken in the order the source tests them. */
  function FlagsGroup(group1: bool, group2: bool, group3: bool): UkGroup {
    if group1 then Oligo else if group2 then PolyRfNegative else if group3 then SystemicOrRfPositive else Unlisted
  }

  /** The three groups do not overlap. */
  lemma GroupMembership(subDiagnosis: string)
    ensures UkGroupOf(subDiagnosis) == Oligo <==> subDiagnosis in Oligoarticular
    ensures UkGroupOf(subDiagnosis) == PolyRfNegative <==> subDiagnosis == RfNegative
    ensures UkGroupOf(subDiagnosis) == SystemicOrRfPositive <==> subDiagnosis in Systemic
  {
  }

  /**
   * How many years after diagnosis screening stops, by group, ANA and age at
   * onset; none for a sub-diagnosis outside the three groups.
   */
  function ScreeningYears(group: UkGroup, ana: bool, ageAtOnset: real): Option<real> {
    match group
    case Oligo =>
      Some(if ageAtOnset < 3.0 then 8.0 else if ageAtOnset < 5.0 then 6.0 else if ageAtOnset < 9.0 then 3.0 else 1.0)
    case PolyRfNegative =>
      if ana then Some(if ageAtOnset < 6.0 then 5.0 else if ageAtOnset <= 9.0 then 2.0 else 1.0)
      else Some(if ageAtOnset < 7.0 then 5.0 else 1.0)
    case SystemicOrRfPositive =>
      Some(if ageAtOnset < 7.0 then 5.0 else 1.0)
    case Unlisted => None
  }

  /** The result when screening has already run its course. */
  const ScreeningOver := CalculationResult(VeryLowRisk, "No screening required", "None", "Very low risk due to long time since diagnosis.")

  /** Whether the guideline gives an interval at diagnosis: every listed group, except systemic onset after 16. */
  predicate Covered(group: UkGroup, ageAtOnset: real) {
    group != Unlisted && !(group == SystemicOrRfPositive && ageAtOnset > 16.0)
  }

  /** How long follow-up continues, by group, ANA and age at onset. */
  function FollowupText(group: UkGroup, ana: bool, ageAtOnset: real): string {
    match group
    case Oligo =>
      if ageAtOnset < 3.0 then Text(FollowEightYears)
      else if ageAtOnset < 5.0 then Text(FollowSixYears)
      else if ageAtOnset < 9.0 then Text(FollowThreeYears)
      else if ageAtOnset < 12.0 then Text(FollowOneYear)
      else "None"
    case PolyRfNegative =>
      if ana then
        if ageAtOnset < 6.0 then Text(FollowFiveYears)
        else if ageAtOnset <= 9.0 then Text(FollowTwoYears)
        else Text(FollowOneYear)
      else if ageAtOnset < 7.0 then Text(FollowFiveYears)
      else Text(FollowOneYear)
    case SystemicOrRfPositive =>
      if ageAtOnset < 7.0 then Text(FollowFiveYears)
      else if ageAtOnset <= 16.0 then Text(FollowOneYear)
      else "None"
    case Unlisted => "None"
  }

  /** The reason given for the risk, by group, ANA and age at onset. */
  function Reason(group: UkGroup, ana: bool, ageAtOnset: real): string {
    match group
    case Oligo =>
      if ageAtOnset < 3.0 then Text(OnsetUnder3)
      else if ageAtOnset < 5.0 then Text(Onset3To4)
      else if ageAtOnset < 9.0 then Text(Onset5To8)
      else if ageAtOnset < 12.0 then Text(Onset9To11)
      else "None"
    case PolyRfNegative =>
      if ana then
        if ageAtOnset < 6.0 then Text(OnsetUnder6AnaPositive)
        else if ageAtOnset <= 9.0 then Text(Onset6To9AnaPositive)
        else Text(OnsetOver9AnaPositive)
      else if ageAtOnset < 7.0 then Text(EarlyOnsetAnaNegative)
      else Text(OnsetFrom7AnaNegative)
    case SystemicOrRfPositive =>
      if ageAtOnset < 7.0 then Text(OnsetUnder7)
      else if ageAtOnset <= 16.0 then Text(Onset7To16)
      else "None"
    case Unlisted => "None"
  }

  /** The risk, interval, follow-up and reason the guideline gives at diagnosis, before the induction phase is added. */
  function AtDiagnosis(group: UkGroup, ana: bool, ageAtOnset: real): CalculationResult {
    if Covered(group, ageAtOnset) then
      CalculationResult(HighRisk, "Every 3 - 4 Months", FollowupText(group, ana, ageAtOnset), Reason(group, ana, ageAtOnset))
    else
      CalculationResult(NoRisk, "None", "None", "None")
  }

  /** A recommendation that is not a screening interval, and so gets no induction phase. */
  predicate IsSentinel(recommendation: string) {
    recommendation == "Screen at Diagnosis" || recommendation == "No screening required" || recommendation == "None"
  }

  /** The second pass: every interval is preceded by two-monthly screening for the first six months. */
  function WithInductionPhase(r: CalculationResult): CalculationResult {
    if IsSentinel(r.recommendation) then r else r.(recommendation := Text(InductionPhase) + r.recommendation)
  }

  /** The decision for a group on the two fractional-year readings: the screening period is checked before the ladder. */
  function UkRule(group: UkGroup, ana: bool, ageAtOnset: real, timeu: real): CalculationResult {
    var limit := ScreeningYears(group, ana, ageAtOnset);
    if limit.Some? && timeu > limit.value then ScreeningOver
    else WithInductionPhase(AtDiagnosis(group, ana, ageAtOnset))
  }

  function UkTable(subDiagnosis: string, ana: bool, ageAtOnset: real, timeu: real): CalculationResult {
    UkRule(UkGroupOf(subDiagnosis), ana, ageAtOnset, timeu)
  }

  function UkAssessment(data: FormData, today: Date): CalculationResult
    requires Valid(today)
  {
    match PatientDates(data)
    case None => InvalidDate
    case Some((dob, dod)) => UkTable(data.subDiagnosis, data.anaPositive, FractionalYears(dob, dod), FractionalYears(dod, today))
  }

  // ---------------------------------------------------------------------------
  // Properties

  /** The override condition, as written, is exactly "time since diagnosis exceeds the group's screening period". */
  lemma PastScreeningMeansLimit(group1: bool, group2: bool, group3: bool, ana: bool, ageAtOnset: real, timeu: real)
    requires !(group1 && group2) && !(group1 && group3) && !(group2 && group3)
    ensures var limit := ScreeningYears(FlagsGroup(group1, group2, group3), ana, ageAtOnset);
      PastScreening(group1, group2, group3, ana, ageAtOnset, timeu) <==> limit.Some? && timeu > limit.value
  {
  }

  /** The override is checked first: once time since diagnosis passes the screening period, nothing else matters. */
  lemma OverrideBeforeLadder(group: UkGroup, ana: bool, ageAtOnset: real, timeu: real)
    requires var limit := ScreeningYears(group, ana, ageAtOnset); limit.Some? && timeu > limit.value
    ensures UkRule(group, ana, ageAtOnset, timeu) == ScreeningOver
  {
  }

  /** An oligoarticular patient with onset before 3 and more than 8 years since diagnosis needs no screening. */
  lemma EarlyOnsetLongAgo(subDiagnosis: string, ana: bool, ageAtOnset: real, timeu: real)
    requires subDiagnosis in Oligoarticular && ageAtOnset < 3.0 && timeu > 8.0
    ensures UkTable(subDiagnosis, ana, ageAtOnset, timeu) == ScreeningOver
  {
  }

  /** Within the screening period every listed group is high risk, screened every 3 - 4 months after the induction phase. */
  lemma WithinScreeningPeriod(group: UkGroup, ana: bool, ageAtOnset: real, timeu: real)
    requires group != Unlisted
    requires timeu <= ScreeningYears(group, ana, ageAtOnset).value
    requires group == SystemicOrRfPositive ==> ageAtOnset <= 16.0
    ensures UkRule(group, ana, ageAtOnset, timeu).riskLevel == HighRisk
    ensures UkRule(group, ana, ageAtOnset, timeu).recommendation == Text(InductionPhase) + "Every 3 - 4 Months"
  {
    IntervalIsNoSentinel();
  }

  lemma IntervalIsNoSentinel()
    ensures !IsSentinel("Every 3 - 4 Months")
    ensures Text(InductionPhase) + "Every 3 - 4 Months" != "None"
  {
    assert "Every 3 - 4 Months"[0] == 'E';
    assert |Text(InductionPhase) + "Every 3 - 4 Months"| != |"None"|;
  }

  /** The induction phase is put in front of a recommendation exactly when it is not a sentinel, and nothing else changes. */
  lemma InductionPhaseOnlyOnIntervals(r: CalculationResult)
    ensures var p := WithInductionPhase(r);
      && p.riskLevel == r.riskLevel && p.followup == r.followup && p.justification == r.justification
      && (IsSentinel(r.recommendation) ==> p.recommendation == r.recommendation)
      && (!IsSentinel(r.recommendation) ==> p.recommendation == Text(InductionPhase) + r.recommendation)
  {
  }

  /** A "No Risk" outcome keeps the recommendation "None": no induction phase is ever announced without an interval. */
  lemma NoRiskHasNoInterval(group: UkGroup, ana: bool, ageAtOnset: real, timeu: real)
    ensures var r := UkRule(group, ana, ageAtOnset, timeu);
      r.riskLevel == NoRisk <==> r.recommendation == "None"
  {
    IntervalIsNoSentinel();
  }

  /** The scenario of a 2-year-old at onset, diagnosed 9 years ago with persistent oligoarthritis. */
  lemma PersistentOligoarthritisScenario(ana: bool)
    ensures UkTable("Persistent Oligoarthritis", ana, 2.0, 9.0).riskLevel == VeryLowRisk
  {
  }

  /** The evaluator reports an error only for a date that does not parse. */
  lemma UkNeverErrs(subDiagnosis: string, ana: bool, ageAtOnset: real, timeu: real)
    ensures UkTable(subDiagnosis, ana, ageAtOnset, timeu).riskLevel != Error
  {
  }
}
