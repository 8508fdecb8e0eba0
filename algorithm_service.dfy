/**
 * The registry of the eight guidelines: what each asks, which sub-diagnoses
 * and treatments it offers, its age limit, and the evaluator it runs.
 */
module AlgorithmService {
  import opened Wrappers
  import opened DateService
  import opened Types
  import opened GuidelineCommon
  import UkGuideline
  import NordicGuideline
  import UsPakistanGuideline
  import GermanyGuideline
  import SpainPortugalGuideline
  import CzechSlovakGuideline
  import ArgentinaGuideline
  import MiwgucGuideline

  const CoreQuestions := [DateOfBirth, DateOfDiagnosis, SubDiagnosis, AnaPositive]

  /** The title of each guideline. */
  function Name(key: AlgorithmKey): string {
    match key
    case Uk => "United Kingdom Guidelines"
    case Nordic => "Nordic Guidelines"
    case UsPakistan => "US and Pakistan Guidelines"
    case Germany => "German Guidelines"
    case SpainPortugal => "Spain and Portugal Guidelines"
    case CzechSlovak => "Czech and Slovak Guidelines"
    case Argentina => "Argentina Guidelines"
    case Miwguc => "MIWGUC Guidelines"
  }

  /** The age up to which a guideline screens, where it states one. */
  function MaxAge(key: AlgorithmKey): Option<nat> {
    match key
    case Uk => None
    case Nordic => Some(16)
    case UsPakistan => None
    case Germany => None
    case SpainPortugal => Some(16)
    case CzechSlovak => Some(18)
    case Argentina => Some(21)
    case Miwguc => None
  }

  /** The questions each guideline asks, in the order the form shows them. */
  function Questions(key: AlgorithmKey): seq<QuestionKey> {
    match key
    case Uk => CoreQuestions
    case Nordic => CoreQuestions + [OnMethotrexate, BiologicalTreatment]
    case UsPakistan => CoreQuestions
    case Germany => CoreQuestions
    case SpainPortugal => CoreQuestions
    case CzechSlovak => CoreQuestions
    case Argentina => CoreQuestions
    case Miwguc => [DateOfBirth, DateOfDiagnosis, SubDiagnosis]
  }

  /** The sub-diagnoses each guideline offers. */
  function SubDiagnosisOptions(key: AlgorithmKey): seq<string> {
    match key
    case Uk => ["Persistent Oligoarthritis", "Extended Oligoarthritis", "Psoriatic Arthritis", "Enthesitis-related Arthritis", "RF Negative Polyarthritis", "Systemic Onset Arthritis", "RF Positive Polyarthritis"]
    case Nordic => ["Oligoarthritis", "RF Negative Polyarthritis", "Psoriatic Arthritis", "RF Positive Arthritis", "Enthesitis related Arthritis", "Systemic Onset Arthritis", "Undifferentiated Arthritis"]
    case UsPakistan => ["Extended Oligoarthritis", "Persistent Oligoarthritis", "RF Negative Polyarthritis", "Psoriatic Arthritis", "RF Positive Arthritis", "Enthesitis related Arthritis", "Systemic onset Arthritis", "Undifferentiated Arthritis"]
    case Germany => ["Persistent Oligoarthritis", "Extended Oligoarthritis", "RF Negative Polyarthritis", "Psoriatic Arthritis", "RF Positive Arthritis", "Enthesitis related Arthritis", "Systemic onset Arthritis", "Undifferentiated Arthritis"]
    case SpainPortugal => ["Persistent Oligoarthritis", "Extended Oligoarthritis", "RF Negative Polyarthritis", "Psoriatic Arthritis", "RF Positive Arthritis", "Enthesitis related Arthritis", "Systemic onset Arthritis", "Undifferentiated Arthritis"]
    case CzechSlovak => ["Persistent Oligoarthritis", "Extended Oligoarthritis", "RF Negative Polyarthritis", "Psoriatic Arthritis", "RF Positive Polyarthritis", "Systemic Onset Arthritis", "HLAB27+ Arthritis"]
    case Argentina => ["Persistent Oligoarthritis", "Extended Oligoarthritis", "RF Negative Polyarthritis", "Psoriatic Arthritis", "RF Positive Arthritis", "Enthesitis related Arthritis", "Systemic onset Arthritis"]
    case Miwguc => ["Juvenile Idiopathic Arthritis", "Systemic-onset Arthritis"]
  }

  /** The biological treatments a guideline offers, where it asks about one. */
  function TreatmentOptions(key: AlgorithmKey): Option<seq<string>> {
    match key
    case Uk => None
    case Nordic => Some(["Adalimumab", "Certolizumab", "Golimumab", "Infliximab", "Etanercept", "None / Other"])
    case UsPakistan => None
    case Germany => None
    case SpainPortugal => None
    case CzechSlovak => None
    case Argentina => None
    case Miwguc => None
  }

  /** The guideline registered under a key; every key has one. */
  function GetAlgorithm(key: AlgorithmKey): (a: Algorithm)
    ensures a.calculate == key
    ensures |a.questions| >= 3 && a.questions[..3] == [DateOfBirth, DateOfDiagnosis, SubDiagnosis]
  {
    Algorithm(Name(key), MaxAge(key), Questions(key), SubDiagnosisOptions(key), TreatmentOptions(key), key)
  }

  /** Runs the evaluator of a guideline on a completed form, with `today` as the reference date. */
  method Calculate(key: AlgorithmKey, data: FormData, today: Date) returns (r: CalculationResult)
    requires Valid(today)
    ensures r == Assessment(key, data, today)
  {
    match key {
      case Uk => r := UkGuideline.UkCalculate(data, today);
      case Nordic => r := NordicGuideline.NordicCalculate(data, today);
      case UsPakistan => r := UsPakistanGuideline.UsPakistanCalculate(data, today);
      case Germany => r := GermanyGuideline.GermanyCalculate(data, today);
      case SpainPortugal => r := SpainPortugalGuideline.SpainPortugalCalculate(data, today);
      case CzechSlovak => r := CzechSlovakGuideline.CzechSlovakCalculate(data, today);
      case Argentina => r := ArgentinaGuideline.ArgentinaCalculate(data, today);
      case Miwguc => r := MiwgucGuideline.MiwgucCalculate(data, today);
    }
  }

  /** What the evaluator of a guideline returns. */
  function Assessment(key: AlgorithmKey, data: FormData, today: Date): CalculationResult
    requires Valid(today)
  {
    match key
    case Uk => UkGuideline.UkAssessment(data, today)
    case Nordic => NordicGuideline.NordicAssessment(data, today)
    case UsPakistan => UsPakistanGuideline.UsPakistanAssessment(data, today)
    case Germany => GermanyGuideline.GermanyAssessment(data, today)
    case SpainPortugal => SpainPortugalGuideline.SpainPortugalAssessment(data, today)
    case CzechSlovak => CzechSlovakGuideline.CzechSlovakAssessment(data, today)
    case Argentina => ArgentinaGuideline.ArgentinaAssessment(data, today)
    case Miwguc => MiwgucGuideline.MiwgucAssessment(data, today)
  }

  // ---------------------------------------------------------------------------
  // Properties

  /**
   * Every guideline answers exactly the invalid-date error when either date
   * does not parse, and that is the only way any of them reports an error.
   */
  lemma ErrorOnlyForUnreadableDate(key: AlgorithmKey, data: FormData, today: Date)
    requires Valid(today)
    ensures PatientDates(data).None? ==> Assessment(key, data, today) == InvalidDate
    ensures Assessment(key, data, today).riskLevel == Error <==> PatientDates(data).None?
  {
    match PatientDates(data)
    case None =>
    case Some((dob, dod)) =>
      var ages := AgesOf(dob, dod, today);
      match key {
        case Uk =>
          UkGuideline.UkNeverErrs(data.subDiagnosis, data.anaPositive,
            UkGuideline.FractionalYears(dob, dod), UkGuideline.FractionalYears(dod, today));
        case Nordic =>
          NordicGuideline.NordicNeverErrs(data.subDiagnosis, data.anaPositive, data.onMethotrexate, data.biologicalTreatment, ages);
        case UsPakistan => UsPakistanGuideline.UsPakistanFollowupIntoAdulthood(data.subDiagnosis, data.anaPositive, ages);
        case Germany => GermanyGuideline.GermanyNeverErrs(data.subDiagnosis, data.anaPositive, ages);
        case SpainPortugal => SpainPortugalGuideline.SpainPortugalNeverErrs(data.subDiagnosis, data.anaPositive, ages);
        case CzechSlovak => CzechSlovakGuideline.CzechSlovakNeverErrs(data.subDiagnosis, data.anaPositive, ages);
        case Argentina => ArgentinaGuideline.ArgentinaNeverErrs(data.subDiagnosis, data.anaPositive, ages);
        case Miwguc => MiwgucGuideline.MiwgucNeverErrs(data.subDiagnosis, YearsDaysDiff(dob, dod), YearsDaysDiff(dod, today));
      }
  }

  /** Two forms that give the same answers to a list of questions. */
  predicate AgreeOn(d1: FormData, d2: FormData, questions: seq<QuestionKey>) {
    && (DateOfBirth in questions ==> d1.dateOfBirth == d2.dateOfBirth)
    && (DateOfDiagnosis in questions ==> d1.dateOfDiagnosis == d2.dateOfDiagnosis)
    && (SubDiagnosis in questions ==> d1.subDiagnosis == d2.subDiagnosis)
    && (AnaPositive in questions ==> d1.anaPositive == d2.anaPositive)
    && (OnMethotrexate in questions ==> d1.onMethotrexate == d2.onMethotrexate)
    && (BiologicalTreatment in questions ==> d1.biologicalTreatment == d2.biologicalTreatment)
  }

  /** An evaluator reads only the answers to the questions its guideline asks. */
  lemma OnlyAskedQuestionsMatter(key: AlgorithmKey, d1: FormData, d2: FormData, today: Date)
    requires Valid(today)
    requires AgreeOn(d1, d2, Questions(key))
    ensures Assessment(key, d1, today) == Assessment(key, d2, today)
  {
    var qs := Questions(key);
    assert qs[0] == DateOfBirth && qs[1] == DateOfDiagnosis && qs[2] == SubDiagnosis;
    assert PatientDates(d1) == PatientDates(d2);
    if key != Miwguc {
      assert qs[3] == AnaPositive;
    }
    if key == Nordic {
      assert qs[4] == OnMethotrexate && qs[5] == BiologicalTreatment;
    }
  }

  /** Only the Nordic guideline asks about methotrexate and biological treatment, and only it offers treatments. */
  lemma OnlyNordicAsksAboutTreatment(key: AlgorithmKey)
    ensures OnMethotrexate in Questions(key) <==> key == Nordic
    ensures BiologicalTreatment in Questions(key) <==> key == Nordic
    ensures TreatmentOptions(key).Some? <==> key == Nordic
  {
  }

  /**
   * Past its age limit a guideline with a limit no longer screens: Nordic and
   * Spain/Portugal past 16 years and 0 days, Argentina past 21 years and 0
   * days, and Czech/Slovak past 18 years and 0 days unless ANA is positive.
   */
  lemma PastAgeLimit(key: AlgorithmKey, data: FormData, today: Date)
    requires Valid(today)
    requires MaxAge(key).Some?
    requires PatientDates(data).Some?
    requires MoreThan(YearsDaysDiff(PatientDates(data).value.0, today), MaxAge(key).value)
    requires key == CzechSlovak ==>
      !data.anaPositive && data.subDiagnosis != CzechSlovakGuideline.RfPositive && data.subDiagnosis != CzechSlovakGuideline.SystemicOnset
    ensures Assessment(key, data, today).riskLevel == VeryLowRisk
  {
  }

  /** A sub-diagnosis the evaluator of a guideline places in one of its graded groups. */
  predicate Graded(key: AlgorithmKey, subDiagnosis: string) {
    match key
    case Uk => UkGuideline.UkGroupOf(subDiagnosis) != UkGuideline.Unlisted
    case Nordic => NordicGuideline.NordicGroupOf(subDiagnosis) != Ungrouped
    case UsPakistan => UsPakistanGuideline.UsPakistanGroupOf(subDiagnosis) != Ungrouped
    case Germany => GermanyGuideline.GermanyGroupOf(subDiagnosis) != Ungrouped
    case SpainPortugal => SpainPortugalGuideline.SpainPortugalGroupOf(subDiagnosis) != Ungrouped
    case CzechSlovak =>
      || subDiagnosis in CzechSlovakGuideline.CzechGroup1 || subDiagnosis == CzechSlovakGuideline.CzechGroup2
      || subDiagnosis == CzechSlovakGuideline.RfPositive || subDiagnosis == CzechSlovakGuideline.SystemicOnset
    case Argentina => true
    case Miwguc => subDiagnosis == MiwgucGuideline.Jia || subDiagnosis == MiwgucGuideline.SystemicOnset
  }

  /**
   * Every sub-diagnosis a guideline offers is one its evaluator grades, with
   * one exception: Spain/Portugal offers "Undifferentiated Arthritis" and
   * places it in no group.
   */
  lemma OfferedSubDiagnosesGraded(key: AlgorithmKey, i: nat)
    requires i < |SubDiagnosisOptions(key)|
    ensures var s := SubDiagnosisOptions(key)[i];
      Graded(key, s) <==> !(key == SpainPortugal && s == "Undifferentiated Arthritis")
  {
  }
}
