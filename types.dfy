/** The records and key types every other module shares. */
module Types {
  import opened Wrappers

  datatype QuestionKey =
    | DateOfBirth
    | DateOfDiagnosis
    | SubDiagnosis
    | AnaPositive
    | OnMethotrexate
    | BiologicalTreatment

  /** A completed form, as an evaluator receives it; dates are `DD/MM/YYYY` text. */
  datatype FormData = FormData(
    dateOfBirth: string,
    dateOfDiagnosis: string,
    subDiagnosis: string,
    anaPositive: bool,
    onMethotrexate: bool,
    biologicalTreatment: string)

  /** The closed vocabulary of risk levels; `Text` is the label the result carries. */
  datatype RiskLevel =
    | HighRisk
    | MediumRisk
    | LowToMediumRisk
    | LowRisk
    | VeryLowRisk
    | NoRisk
    | Error
  {
    function Text(): string {
      match this
      case HighRisk => "High Risk"
      case MediumRisk => "Medium Risk"
      case LowToMediumRisk => "Low to Medium Risk"
      case LowRisk => "Low Risk"
      case VeryLowRisk => "Very Low Risk"
      case NoRisk => "No Risk"
      case Error => "Error"
    }
  }

  datatype CalculationResult = CalculationResult(
    riskLevel: RiskLevel,
    recommendation: string,
    followup: string,
    justification: string)

  datatype AlgorithmKey =
    | Argentina
    | CzechSlovak
    | Germany
    | Miwguc
    | Nordic
    | UsPakistan
    | SpainPortugal
    | Uk

  /**
   * A guideline definition. The source keeps the evaluation procedure in the
   * record as a closure; here `calculate` names the evaluator, which the
   * dispatcher runs.
   */
  datatype Algorithm = Algorithm(
    name: string,
    maxAge: Option<nat>,
    questions: seq<QuestionKey>,
    subDiagnosisOptions: seq<string>,
    biologicalTreatmentOptions: Option<seq<string>>,
    calculate: AlgorithmKey)

  /** A region entry of the selector; `labelText` is the source's `label`, a reserved word in Dafny. */
  datatype Country = Country(value: string, labelText: string, algorithmKey: AlgorithmKey)
}
