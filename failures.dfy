/**
 * Failure categorisation: each error row of the unified evaluation gets
 * exactly one of six categories, checked in a fixed order.
 */
module FailureCategories {
  import opened Wrappers
  import opened Json
  import opened Evaluation

  datatype Category = DomainFailure | ActionFailure | NoActionDetected | ParametersMissing | ParametersWrong | Other

  /** The category's name in the output counts. */
  function Name(c: Category): string {
    match c
    case DomainFailure => "domain_failure"
    case ActionFailure => "action_failure"
    case NoActionDetected => "no_action_detected"
    case ParametersMissing => "parameters_missing"
    case ParametersWrong => "parameters_wrong"
    case Other => "other"
  }

  /** An error row: the labels, the expected parameters, and the parser's raw output when the row has one. */
  datatype ErrorRecord = ErrorRecord(
    expectedDomain: Label, predictedDomain: Label,
    expectedAction: Label, predictedAction: Label,
    expectedParameters: Json,
    parsed: Option<Obj>)

  /** `e.get("parsed", {})`. */
  function Parsed(e: ErrorRecord): Obj {
    e.parsed.GetOr(map[])
  }

  /** `e.get("parsed", {}).get("action")` is truthy. */
  predicate ActionDetected(e: ErrorRecord) {
    Truthy(Get(Parsed(e), "action"))
  }

  /** `e["expected_parameters"] or {}`. */
  function ExpectedParams(e: ErrorRecord): Json {
    Or(e.expectedParameters, JObj(map[]))
  }

  /** `e["parsed"].get("parameters", {}) or {}`. */
  function PredictedParams(e: ErrorRecord): Json {
    Or(Get(Parsed(e), "parameters"), JObj(map[]))
  }

  predicate LabelsAgree(e: ErrorRecord) {
    e.predictedDomain == e.expectedDomain && e.predictedAction == e.expectedAction
  }

  /** `categorize_failure`: the first test that fires decides. */
  function Categorize(e: ErrorRecord): (c: Category)
    ensures c == DomainFailure <==> e.predictedDomain != e.expectedDomain
    ensures c == ActionFailure <==> e.predictedDomain == e.expectedDomain && e.predictedAction != e.expectedAction
    ensures c == NoActionDetected <==> LabelsAgree(e) && !ActionDetected(e)
    ensures c == ParametersMissing <==>
              LabelsAgree(e) && ActionDetected(e) && Truthy(ExpectedParams(e)) && !Truthy(PredictedParams(e))
    ensures c == ParametersWrong <==>
              LabelsAgree(e) && ActionDetected(e) && Truthy(PredictedParams(e)) && !PyEq(PredictedParams(e), ExpectedParams(e))
  {
    if e.predictedDomain != e.expectedDomain then DomainFailure
    else if e.predictedAction != e.expectedAction then ActionFailure
    else if !ActionDetected(e) then NoActionDetected
    else
      var expected := ExpectedParams(e);
      var predicted := PredictedParams(e);
      if Truthy(expected) && !Truthy(predicted) then ParametersMissing
      else if Truthy(predicted) && !PyEq(predicted, expected) then ParametersWrong
      else Other
  }

  /** An empty dict equals only values that are themselves falsy. */
  lemma EmptyEqualsOnlyFalsy(v: Json)
    requires PyEq(JObj(map[]), v)
    ensures !Truthy(v)
  {
    assert Num(JObj(map[])).None?;
    if Num(v).None? {
      assert v.JObj? && v.fields.Keys == {};
      assert v.fields == map[];
    }
  }

  /**
   * "other" is left exactly when nothing can be blamed: the labels agree, an
   * action was detected and the parameters are equal as Python values.
   */
  lemma OtherIffParametersMatch(e: ErrorRecord)
    ensures Categorize(e) == Other <==>
              LabelsAgree(e) && ActionDetected(e) && PyEq(PredictedParams(e), ExpectedParams(e))
  {
    var expected := ExpectedParams(e);
    var predicted := PredictedParams(e);
    if LabelsAgree(e) && ActionDetected(e) {
      if !Truthy(predicted) {
        assert predicted == JObj(map[]);
        if PyEq(predicted, expected) {
          EmptyEqualsOnlyFalsy(expected);
        }
        if !Truthy(expected) {
          assert expected == JObj(map[]);
          PyEqRefl(expected);
        }
      }
    }
  }
}
