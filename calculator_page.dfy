/**
 * The calculator page's decision logic: which guideline a region selection
 * picks, how an edit updates the partially filled form, when the form counts
 * as complete, and when a calculation runs. The page's state updates and
 * rendering are not modelled; each handler returns the value it would store.
 */
module CalculatorPage {
  import opened Wrappers
  import opened DateService
  import opened Types
  import opened Constants
  import opened AlgorithmService

  /** What a form field can hold: text, a yes/no answer, or `null`. */
  datatype FieldValue = Str(s: string) | Bool(b: bool) | Null

  /** `Partial<FormData>`: a field that was never set is absent. */
  type PartialForm = map<QuestionKey, FieldValue>

  // ---------------------------------------------------------------------------
  // The selected guideline

  /** `find`: the first region whose value is `value`, if any. */
  function Find(countries: seq<Country>, value: string): (r: Option<Country>)
    ensures r.None? <==> forall i :: 0 <= i < |countries| ==> countries[i].value != value
    ensures r.Some? ==> r.value.value == value
    ensures r.Some? ==> exists i :: (0 <= i < |countries| && countries[i] == r.value &&
                                     forall j :: 0 <= j < i ==> countries[j].value != value)
  {
    if |countries| == 0 then None
    else if countries[0].value == value then Some(countries[0])
    else Find(countries[1..], value)
  }

  /** The guideline for the selected region: none while nothing or an unknown region is selected. */
  function SelectedAlgorithm(selectedValue: string): Option<Algorithm> {
    if selectedValue == "" then None
    else match Find(Countries, selectedValue)
      case None => None
      case Some(country) => Some(GetAlgorithm(country.algorithmKey))
  }

  /**
   * A selection picks a guideline exactly when some region has that value,
   * and then it is the guideline of that region.
   */
  lemma SelectionFollowsTable(selectedValue: string)
    ensures SelectedAlgorithm(selectedValue).None? <==>
      forall i :: 0 <= i < |Countries| ==> Countries[i].value != selectedValue
    ensures forall i :: 0 <= i < |Countries| && Countries[i].value == selectedValue ==>
      SelectedAlgorithm(selectedValue) == Some(GetAlgorithm(Countries[i].algorithmKey))
  {
    CountriesDistinct();
    if selectedValue == "" {
      forall i | 0 <= i < |Countries| ensures Countries[i].value != selectedValue {
        assert |Countries[i].value| > 0;
      }
    }
  }

  /** Czech Republic and Slovakia share one guideline. */
  lemma CzechSlovakShared()
    ensures SelectedAlgorithm("czech") == SelectedAlgorithm("slovakia") == Some(GetAlgorithm(CzechSlovak))
  {
    SelectionFollowsTable("czech");
    assert Countries[1].value == "czech";
    SelectionFollowsTable("slovakia");
    assert Countries[7].value == "slovakia";
  }

  /** Spain and Portugal share one guideline. */
  lemma SpainPortugalShared()
    ensures SelectedAlgorithm("spain") == SelectedAlgorithm("portugal") == Some(GetAlgorithm(SpainPortugal))
  {
    SelectionFollowsTable("spain");
    assert Countries[8].value == "spain";
    SelectionFollowsTable("portugal");
    assert Countries[6].value == "portugal";
  }

  /** The US and Pakistan share one guideline. */
  lemma UsPakistanShared()
    ensures SelectedAlgorithm("us") == SelectedAlgorithm("pakistan") == Some(GetAlgorithm(UsPakistan))
  {
    SelectionFollowsTable("us");
    assert Countries[10].value == "us";
    SelectionFollowsTable("pakistan");
    assert Countries[5].value == "pakistan";
  }

  // ---------------------------------------------------------------------------
  // Editing the form

  /** JavaScript truthiness of a field: absent, `null`, `false` and '' are false. */
  predicate Truthy(form: PartialForm, q: QuestionKey) {
    q in form && match form[q]
      case Str(s) => s != ""
      case Bool(b) => b
      case Null => false
  }

  /** A field value as text, the way the date pattern test converts its argument. */
  function AsText(v: FieldValue): string {
    match v
    case Str(s) => s
    case Bool(b) => if b then "true" else "false"
    case Null => "null"
  }

  /** The date a field holds, when it holds one. */
  function DateIn(form: PartialForm, q: QuestionKey): Option<Date> {
    if q in form then ParseDate(AsText(form[q])) else None
  }

  /** Both dates are readable and the diagnosis is dated before the birth. */
  predicate DiagnosisBeforeBirth(form: PartialForm) {
    DateIn(form, DateOfBirth).Some? && DateIn(form, DateOfDiagnosis).Some?
    && Precedes(DateIn(form, DateOfDiagnosis).value, DateIn(form, DateOfBirth).value)
  }

  /**
   * `handleFormChange`: store the new value; after an edit of the birth date,
   * clear a diagnosis date that now lies before it.
   */
  method HandleFormChange(formData: PartialForm, field: QuestionKey, value: FieldValue)
    returns (newFormData: PartialForm)
    ensures newFormData.Keys == formData.Keys + {field}
    ensures newFormData[field] == value
    ensures forall q :: q in formData && q != field && q != DateOfDiagnosis ==> newFormData[q] == formData[q]
    ensures DateOfDiagnosis != field && DateOfDiagnosis in formData ==>
      newFormData[DateOfDiagnosis] ==
        if field == DateOfBirth && DiagnosisBeforeBirth(formData[field := value]) then Str("")
        else formData[DateOfDiagnosis]
    ensures field == DateOfBirth ==> !DiagnosisBeforeBirth(newFormData)
  {
    newFormData := formData[field := value];
    if field == DateOfBirth && Truthy(newFormData, DateOfBirth) && Truthy(newFormData, DateOfDiagnosis) {
      var dob := ParseDate(AsText(newFormData[DateOfBirth]));
      var dod := ParseDate(AsText(newFormData[DateOfDiagnosis]));
      if dob.Some? && dod.Some? && DayNumber(dod.value) < DayNumber(dob.value) {
        newFormData := newFormData[DateOfDiagnosis := Str("")];
      }
    }
    ClearingRule(formData[field := value]);
    assert ParseDate("") == None;
  }

  /**
   * The guard of the clearing rule, which tests truthiness first and then
   * compares the parsed dates' timestamps, fires exactly on forms whose
   * diagnosis is dated before the birth.
   */
  lemma ClearingRule(form: PartialForm)
    ensures (Truthy(form, DateOfBirth) && Truthy(form, DateOfDiagnosis)
      && DateIn(form, DateOfBirth).Some? && DateIn(form, DateOfDiagnosis).Some?
      && DayNumber(DateIn(form, DateOfDiagnosis).value) < DayNumber(DateIn(form, DateOfBirth).value))
      <==> DiagnosisBeforeBirth(form)
  {
    ReadableDateIsText(form, DateOfBirth);
    ReadableDateIsText(form, DateOfDiagnosis);
    if DateIn(form, DateOfBirth).Some? && DateIn(form, DateOfDiagnosis).Some? {
      DayNumberOrder(DateIn(form, DateOfDiagnosis).value, DateIn(form, DateOfBirth).value);
    }
  }

  /** Only non-empty text reads as a date, so a readable date field is truthy. */
  lemma ReadableDateIsText(form: PartialForm, q: QuestionKey)
    ensures DateIn(form, q).Some? ==> form[q].Str? && Truthy(form, q)
  {
    assert !MatchesPattern("true") && !MatchesPattern("false") && !MatchesPattern("null");
    assert !MatchesPattern("");
  }

  // ---------------------------------------------------------------------------
  // Completeness and calculation

  /** A question counts as answered by a yes/no value or by text other than ''. */
  predicate Answered(form: PartialForm, q: QuestionKey) {
    q in form && (form[q].Bool? || (form[q].Str? && form[q].s != ""))
  }

  /** `every`: each question in turn is answered. */
  function AllAnswered(form: PartialForm, questions: seq<QuestionKey>): (r: bool)
    ensures r <==> forall i :: 0 <= i < |questions| ==> Answered(form, questions[i])
  {
    if |questions| == 0 then true
    else Answered(form, questions[0]) && AllAnswered(form, questions[1..])
  }

  /** `isFormComplete`: a guideline is selected and each of its questions is answered. */
  function IsFormComplete(algorithm: Option<Algorithm>, form: PartialForm): bool {
    match algorithm
    case None => false
    case Some(a) => AllAnswered(form, a.questions)
  }

  /** A complete form has both dates and a sub-diagnosis filled in, whichever guideline is selected. */
  lemma CompleteFormHasCoreAnswers(selectedValue: string, form: PartialForm)
    requires IsFormComplete(SelectedAlgorithm(selectedValue), form)
    ensures Answered(form, DateOfBirth) && Answered(form, DateOfDiagnosis) && Answered(form, SubDiagnosis)
  {
    var a := SelectedAlgorithm(selectedValue).value;
    assert a.questions[..3] == [DateOfBirth, DateOfDiagnosis, SubDiagnosis];
    assert a.questions[0] == DateOfBirth && a.questions[1] == DateOfDiagnosis && a.questions[2] == SubDiagnosis;
  }

  /** A text field as an evaluator reads it; an unset field reads as ''. */
  function TextField(form: PartialForm, q: QuestionKey): string {
    if q in form then AsText(form[q]) else ""
  }

  /** `formData as FormData`: the evaluator reads each field as the form holds it. */
  function ToFormData(form: PartialForm): FormData {
    FormData(
      TextField(form, DateOfBirth),
      TextField(form, DateOfDiagnosis),
      TextField(form, SubDiagnosis),
      Truthy(form, AnaPositive),
      Truthy(form, OnMethotrexate),
      TextField(form, BiologicalTreatment))
  }

  /** The form that holds every answer of a completed record. */
  function FromFormData(d: FormData): PartialForm {
    map[
      DateOfBirth := Str(d.dateOfBirth),
      DateOfDiagnosis := Str(d.dateOfDiagnosis),
      SubDiagnosis := Str(d.subDiagnosis),
      AnaPositive := Bool(d.anaPositive),
      OnMethotrexate := Bool(d.onMethotrexate),
      BiologicalTreatment := Str(d.biologicalTreatment)]
  }

  /** Reading back a filled-in record gives the record. */
  lemma ReadBackFilledForm(d: FormData)
    ensures ToFormData(FromFormData(d)) == d
  {
  }

  /**
   * `handleCalculate`: a result comes back only when a guideline is selected
   * and the form is complete, and then it is that guideline's assessment of
   * the form.
   */
  method HandleCalculate(selectedValue: string, form: PartialForm, today: Date)
    returns (r: Option<CalculationResult>)
    requires Valid(today)
    ensures r.Some? <==> IsFormComplete(SelectedAlgorithm(selectedValue), form)
    ensures r.Some? ==> r.value == Assessment(SelectedAlgorithm(selectedValue).value.calculate, ToFormData(form), today)
  {
    var algorithm := SelectedAlgorithm(selectedValue);
    if algorithm.Some? && IsFormComplete(algorithm, form) {
      var result := Calculate(algorithm.value.calculate, ToFormData(form), today);
      r := Some(result);
    } else {
      r := None;
    }
  }

  /** Fields the selected guideline does not ask about do not change its result. */
  lemma UnaskedFieldsIgnored(key: AlgorithmKey, f1: PartialForm, f2: PartialForm, today: Date)
    requires Valid(today)
    requires forall q :: q in GetAlgorithm(key).questions ==>
      (q in f1 <==> q in f2) && (q in f1 ==> f1[q] == f2[q])
    ensures Assessment(key, ToFormData(f1), today) == Assessment(key, ToFormData(f2), today)
  {
    OnlyAskedQuestionsMatter(key, ToFormData(f1), ToFormData(f2), today);
  }
}
