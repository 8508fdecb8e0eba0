/**
 * What the eight evaluators share: the error result for an unreadable date,
 * the "at most N years" and "more than N years" tests on a (years, days) pair,
 * and the three elapsed times they compare against their thresholds.
 */
module GuidelineCommon {
  import opened Wrappers
  import opened DateService
  import opened Types

  /** The one error an evaluator reports, when either date does not parse. */
  const InvalidDate := CalculationResult(Error, "Invalid date format", "", "")

  /** The justification an evaluator starts from before any rule fires. */
  const StandardRisk := "Standard risk calculation applied."

  /**
   * The sub-diagnosis groups of an evaluator, taken in the order its ladder
   * tests them: the first membership test that holds decides.
   */
  datatype Group = Group1 | Group2 | Group3 | Ungrouped

  function GroupOfFlags(group1: bool, group2: bool, group3: bool): Group {
    if group1 then Group1 else if group2 then Group2 else if group3 then Group3 else Ungrouped
  }

  /** The reason given when the sub-diagnosis alone decides a low risk. */
  function DiagnosisReason(subDiagnosis: string): string {
    "Low risk due to diagnosis of " + subDiagnosis + "."
  }

  /** The order of the risk levels, from no risk up to high risk; an error ranks with no risk. */
  function Severity(level: RiskLevel): nat {
    match level
    case HighRisk => 5
    case MediumRisk => 4
    case LowToMediumRisk => 3
    case LowRisk => 2
    case VeryLowRisk => 1
    case NoRisk => 0
    case Error => 0
  }

  /** `p` is no longer than `q`: whole years first, then days. */
  predicate NoLonger(p: DateDifference, q: DateDifference) {
    p.years < q.years || (p.years == q.years && p.days <= q.days)
  }

  /** "≤ N years": fewer than N whole years, or exactly N years and no day more. */
  predicate AtMost(p: DateDifference, n: int) {
    p.years < n || (p.years == n && p.days == 0)
  }

  /** "> N years": more than N whole years, or N years and at least one day. */
  predicate MoreThan(p: DateDifference, n: int) {
    p.years > n || (p.years == n && p.days > 0)
  }

  /** A longer time passes fewer "≤ N years" tests and more "> N years" tests. */
  lemma ThresholdsMonotone(p: DateDifference, q: DateDifference, n: int)
    requires 0 <= p.days && NoLonger(p, q)
    ensures AtMost(q, n) ==> AtMost(p, n)
    ensures MoreThan(p, n) ==> MoreThan(q, n)
  {
  }

  /** For a difference with a non-negative day count the two tests split every threshold without gap or overlap. */
  lemma ThresholdsComplementary(p: DateDifference, n: int)
    requires 0 <= p.days
    ensures AtMost(p, n) <==> !MoreThan(p, n)
  {
  }

  lemma ThresholdBoundary(n: int)
    ensures AtMost(DateDifference(n, 0), n) && !MoreThan(DateDifference(n, 0), n)
    ensures MoreThan(DateDifference(n, 1), n) && !AtMost(DateDifference(n, 1), n)
  {
  }

  /** Both dates of the form, when both parse. */
  function PatientDates(data: FormData): (r: Option<(Date, Date)>)
    ensures r.Some? <==> ParseDate(data.dateOfBirth).Some? && ParseDate(data.dateOfDiagnosis).Some?
    ensures r.Some? ==> Valid(r.value.0) && Valid(r.value.1)
  {
    match (ParseDate(data.dateOfBirth), ParseDate(data.dateOfDiagnosis))
    case (Some(dob), Some(dod)) => Some((dob, dod))
    case _ => None
  }

  /** Age today, age at onset and time since diagnosis, each as whole years plus days. */
  datatype Ages = Ages(currentAge: DateDifference, ageAtOnset: DateDifference, timeSinceDiagnosis: DateDifference)

  function AgesOf(dob: Date, dod: Date, today: Date): (ages: Ages)
    requires Valid(dob) && Valid(dod) && Valid(today)
    ensures 0 <= ages.currentAge.days && 0 <= ages.ageAtOnset.days && 0 <= ages.timeSinceDiagnosis.days
  {
    Ages(YearsDaysDiff(dob, today), YearsDaysDiff(dob, dod), YearsDaysDiff(dod, today))
  }
}
