/**
 * The unified parser evaluator: runs the parser over the dataset and
 * accumulates accuracy, per-domain accuracy, error buckets, a domain
 * confusion matrix and per-domain and per-action precision/recall/F1.
 */
module EvalUnified {
  import opened Wrappers
  import opened Json
  import opened Evaluation

  /** The outcome for one dataset item. */
  datatype EvalResult = EvalResult(
    id: string, command: string,
    expectedDomain: Label, expectedAction: Label,
    predictedDomain: Label, predictedAction: Label,
    domainCorrect: bool, actionCorrect: bool, parametersMatch: bool,
    errorType: Option<string>,
    rawParsed: Prediction)

  /** The checks of one item against the parser's prediction. */
  function Judge(item: EvalItem, p: Prediction): EvalResult {
    var domainOk := p.domain == item.expectedDomain;
    var actionOk := p.action == item.expectedAction;
    var paramsOk := SubsetMatch(item.expectedParameters, p.parameters);
    EvalResult(item.id, item.command, item.expectedDomain, item.expectedAction, p.domain, p.action,
               domainOk, actionOk, paramsOk, ClassifyError(domainOk, actionOk, paramsOk), p)
  }

  /** A result whose error type is the classification of its three checks. */
  predicate Judged(r: EvalResult) {
    r.errorType == ClassifyError(r.domainCorrect, r.actionCorrect, r.parametersMatch)
  }

  // ---------------------------------------------------------------------------
  // What each counter counts
  // ---------------------------------------------------------------------------

  function ErrorOf(r: EvalResult): Option<string> { r.errorType }

  function CountCorrect(rs: seq<EvalResult>): nat
    decreases |rs|
  {
    if rs == [] then 0 else CountCorrect(rs[..|rs| - 1]) + (if rs[|rs| - 1].errorType.None? then 1 else 0)
  }

  /** Domain hits: a present expected domain predicted exactly. */
  function DomainTpOf(r: EvalResult): Option<string> {
    if Present(r.expectedDomain) && r.predictedDomain == r.expectedDomain then Some(r.expectedDomain.value) else None
  }

  /** Domain misses: a present expected domain predicted otherwise. */
  function DomainFnOf(r: EvalResult): Option<string> {
    if Present(r.expectedDomain) && r.predictedDomain != r.expectedDomain then Some(r.expectedDomain.value) else None
  }

  /** Wrong domains: a miss whose prediction is present counts against the predicted domain. */
  function DomainFpOf(r: EvalResult): Option<string> {
    if Present(r.expectedDomain) && r.predictedDomain != r.expectedDomain && Present(r.predictedDomain)
    then Some(r.predictedDomain.value) else None
  }

  function ActionTpOf(r: EvalResult): Option<string> {
    if Present(r.expectedAction) && r.predictedAction == r.expectedAction then Some(r.expectedAction.value) else None
  }

  function ActionFnOf(r: EvalResult): Option<string> {
    if Present(r.expectedAction) && r.predictedAction != r.expectedAction then Some(r.expectedAction.value) else None
  }

  function ActionFpOf(r: EvalResult): Option<string> {
    if Present(r.expectedAction) && r.predictedAction != r.expectedAction && Present(r.predictedAction)
    then Some(r.predictedAction.value) else None
  }

  /** The confusion-matrix row of a result: its expected domain, or "unknown". */
  function RowKey(r: EvalResult): string {
    if Present(r.expectedDomain) then r.expectedDomain.value else "unknown"
  }

  /** The confusion-matrix column of a result: its predicted domain, or "none". */
  function ColumnKey(r: EvalResult): string {
    if Present(r.predictedDomain) then r.predictedDomain.value else "none"
  }

  function PerDomain(rs: seq<EvalResult>): map<Label, DomainTally>
    decreases |rs|
  {
    if rs == [] then map[]
    else
      var m := PerDomain(rs[..|rs| - 1]);
      var r := rs[|rs| - 1];
      var t := if r.expectedDomain in m then m[r.expectedDomain] else DomainTally(0, 0);
      m[r.expectedDomain := DomainTally(t.total + 1, t.correct + (if r.errorType.None? then 1 else 0))]
  }

  function Confusion(rs: seq<EvalResult>): map<string, map<string, nat>>
    decreases |rs|
  {
    if rs == [] then map[]
    else
      var m := Confusion(rs[..|rs| - 1]);
      var r := rs[|rs| - 1];
      var row := if RowKey(r) in m then m[RowKey(r)] else map[];
      m[RowKey(r) := Inc(row, ColumnKey(r))]
  }

  // ---------------------------------------------------------------------------
  // The summary
  // ---------------------------------------------------------------------------

  datatype Summary = Summary(
    version: string,
    total: nat,
    correct: nat,
    accuracy: real,
    perDomainAccuracy: map<Label, real>,
    errorBuckets: map<string, nat>,
    confusionMatrix: map<string, map<string, nat>>,
    perDomainPrf: map<string, Prf>,
    perActionPrf: map<string, Prf>)

  /** The summary of a list of results, as the counters left after the loop give it. */
  function Summarize(rs: seq<EvalResult>, version: string): Summary {
    var perDomain := PerDomain(rs);
    Summary(
      version, |rs|, CountCorrect(rs), Ratio(CountCorrect(rs), |rs|),
      map d | d in perDomain :: Ratio(perDomain[d].correct, perDomain[d].total),
      Tally(Collect(rs, ErrorOf)),
      Confusion(rs),
      PrfTable(Tally(Collect(rs, DomainTpOf)), Tally(Collect(rs, DomainFpOf)), Tally(Collect(rs, DomainFnOf))),
      PrfTable(Tally(Collect(rs, ActionTpOf)), Tally(Collect(rs, ActionFpOf)), Tally(Collect(rs, ActionFnOf))))
  }

  /** The checks of one item: parse its command, compare, classify. */
  method JudgeItem(item: EvalItem, parse: string -> Prediction) returns (r: EvalResult)
    ensures r == Judge(item, parse(item.command))
    ensures Judged(r)
  {
    var parsed := parse(item.command);
    var domainOk := parsed.domain == item.expectedDomain;
    var actionOk := parsed.action == item.expectedAction;
    var paramsOk := ParametersMatch(item.expectedParameters, parsed.parameters);
    var errorType := ClassifyError(domainOk, actionOk, paramsOk);
    r := EvalResult(item.id, item.command, item.expectedDomain, item.expectedAction, parsed.domain, parsed.action,
                    domainOk, actionOk, paramsOk, errorType, parsed);
  }

  // ---------------------------------------------------------------------------
  // One step of the loop, counter group by counter group
  // ---------------------------------------------------------------------------

  /** Correct count, error bucket, per-domain counts and confusion cell of one more result. */
  method CountOutcome(correct: nat, errorBuckets: map<string, nat>, perDomain: map<Label, DomainTally>,
                      confusion: map<string, map<string, nat>>, ghost rs: seq<EvalResult>, r: EvalResult)
    returns (correct': nat, errorBuckets': map<string, nat>, perDomain': map<Label, DomainTally>,
             confusion': map<string, map<string, nat>>)
    requires correct == CountCorrect(rs) && errorBuckets == Tally(Collect(rs, ErrorOf))
    requires perDomain == PerDomain(rs) && confusion == Confusion(rs)
    ensures correct' == CountCorrect(rs + [r]) && errorBuckets' == Tally(Collect(rs + [r], ErrorOf))
    ensures perDomain' == PerDomain(rs + [r]) && confusion' == Confusion(rs + [r])
  {
    correct', errorBuckets' := CountError(correct, errorBuckets, rs, r);
    perDomain', confusion' := CountDomainCell(perDomain, confusion, rs, r);
  }

  /** The correct count and the error bucket of one more result. */
  method CountError(correct: nat, errorBuckets: map<string, nat>, ghost rs: seq<EvalResult>, r: EvalResult)
    returns (correct': nat, errorBuckets': map<string, nat>)
    requires correct == CountCorrect(rs) && errorBuckets == Tally(Collect(rs, ErrorOf))
    ensures correct' == CountCorrect(rs + [r]) && errorBuckets' == Tally(Collect(rs + [r], ErrorOf))
  {
    assert (rs + [r])[..|rs|] == rs;
    TallyCollectSnoc(rs, r, ErrorOf);
    correct', errorBuckets' := correct, errorBuckets;
    if r.errorType.None? {
      correct' := correct + 1;
    }
    if r.errorType.Some? {
      errorBuckets' := Inc(errorBuckets, r.errorType.value);
    }
  }

  /** The per-domain counts and the confusion cell of one more result. */
  method CountDomainCell(perDomain: map<Label, DomainTally>, confusion: map<string, map<string, nat>>,
                         ghost rs: seq<EvalResult>, r: EvalResult)
    returns (perDomain': map<Label, DomainTally>, confusion': map<string, map<string, nat>>)
    requires perDomain == PerDomain(rs) && confusion == Confusion(rs)
    ensures perDomain' == PerDomain(rs + [r]) && confusion' == Confusion(rs + [r])
  {
    assert (rs + [r])[..|rs|] == rs;
    var stats := if r.expectedDomain in perDomain then perDomain[r.expectedDomain] else DomainTally(0, 0);
    perDomain' := perDomain[r.expectedDomain := DomainTally(stats.total + 1, stats.correct + (if r.errorType.None? then 1 else 0))];
    var row := if RowKey(r) in confusion then confusion[RowKey(r)] else map[];
    confusion' := confusion[RowKey(r) := Inc(row, ColumnKey(r))];
  }

  /** The domain hit, miss and wrong-prediction counts of one more result. */
  method CountDomain(tp: map<string, nat>, fp: map<string, nat>, fn: map<string, nat>, ghost rs: seq<EvalResult>, r: EvalResult)
    returns (tp': map<string, nat>, fp': map<string, nat>, fn': map<string, nat>)
    requires tp == Tally(Collect(rs, DomainTpOf)) && fp == Tally(Collect(rs, DomainFpOf)) && fn == Tally(Collect(rs, DomainFnOf))
    ensures tp' == Tally(Collect(rs + [r], DomainTpOf)) && fp' == Tally(Collect(rs + [r], DomainFpOf))
    ensures fn' == Tally(Collect(rs + [r], DomainFnOf))
  {
    TallyCollectSnoc(rs, r, DomainTpOf);
    TallyCollectSnoc(rs, r, DomainFpOf);
    TallyCollectSnoc(rs, r, DomainFnOf);
    tp', fp', fn' := tp, fp, fn;
    if Present(r.expectedDomain) {
      if r.predictedDomain == r.expectedDomain {
        tp' := Inc(tp, r.expectedDomain.value);
      } else {
        fn' := Inc(fn, r.expectedDomain.value);
        if Present(r.predictedDomain) {
          fp' := Inc(fp, r.predictedDomain.value);
        }
      }
    }
  }

  /** The action hit, miss and wrong-prediction counts of one more result. */
  method CountAction(tp: map<string, nat>, fp: map<string, nat>, fn: map<string, nat>, ghost rs: seq<EvalResult>, r: EvalResult)
    returns (tp': map<string, nat>, fp': map<string, nat>, fn': map<string, nat>)
    requires tp == Tally(Collect(rs, ActionTpOf)) && fp == Tally(Collect(rs, ActionFpOf)) && fn == Tally(Collect(rs, ActionFnOf))
    ensures tp' == Tally(Collect(rs + [r], ActionTpOf)) && fp' == Tally(Collect(rs + [r], ActionFpOf))
    ensures fn' == Tally(Collect(rs + [r], ActionFnOf))
  {
    TallyCollectSnoc(rs, r, ActionTpOf);
    TallyCollectSnoc(rs, r, ActionFpOf);
    TallyCollectSnoc(rs, r, ActionFnOf);
    tp', fp', fn' := tp, fp, fn;
    if Present(r.expectedAction) {
      if r.predictedAction == r.expectedAction {
        tp' := Inc(tp, r.expectedAction.value);
      } else {
        fn' := Inc(fn, r.expectedAction.value);
        if Present(r.predictedAction) {
          fp' := Inc(fp, r.predictedAction.value);
        }
      }
    }
  }

  /** Judging one more item extends the judged prefix. */
  lemma JudgedSnoc(items: seq<EvalItem>, parse: string -> Prediction, results: seq<EvalResult>, r: EvalResult)
    requires |results| < |items|
    requires forall j :: 0 <= j < |results| ==> results[j] == Judge(items[j], parse(items[j].command))
    requires r == Judge(items[|results|], parse(items[|results|].command))
    ensures forall j :: 0 <= j < |results| + 1 ==> (results + [r])[j] == Judge(items[j], parse(items[j].command))
  {
  }

  /** The domain and action hit/miss/wrong counts of one more result. */
  method CountPrf(domainTp: map<string, nat>, domainFp: map<string, nat>, domainFn: map<string, nat>,
                  actionTp: map<string, nat>, actionFp: map<string, nat>, actionFn: map<string, nat>,
                  ghost rs: seq<EvalResult>, r: EvalResult)
    returns (domainTp': map<string, nat>, domainFp': map<string, nat>, domainFn': map<string, nat>,
             actionTp': map<string, nat>, actionFp': map<string, nat>, actionFn': map<string, nat>)
    requires domainTp == Tally(Collect(rs, DomainTpOf)) && domainFp == Tally(Collect(rs, DomainFpOf))
    requires domainFn == Tally(Collect(rs, DomainFnOf))
    requires actionTp == Tally(Collect(rs, ActionTpOf)) && actionFp == Tally(Collect(rs, ActionFpOf))
    requires actionFn == Tally(Collect(rs, ActionFnOf))
    ensures domainTp' == Tally(Collect(rs + [r], DomainTpOf)) && domainFp' == Tally(Collect(rs + [r], DomainFpOf))
    ensures domainFn' == Tally(Collect(rs + [r], DomainFnOf))
    ensures actionTp' == Tally(Collect(rs + [r], ActionTpOf)) && actionFp' == Tally(Collect(rs + [r], ActionFpOf))
    ensures actionFn' == Tally(Collect(rs + [r], ActionFnOf))
  {
    domainTp', domainFp', domainFn' := CountDomain(domainTp, domainFp, domainFn, rs, r);
    actionTp', actionFp', actionFn' := CountAction(actionTp, actionFp, actionFn, rs, r);
  }

  /**
   * `run`, with the parser as an input: judge each item in order and update
   * every counter; then derive the ratios.
   */
  method Run(items: seq<EvalItem>, parse: string -> Prediction, version: string)
    returns (results: seq<EvalResult>, summary: Summary)
    ensures |results| == |items|
    ensures forall i :: 0 <= i < |items| ==> results[i] == Judge(items[i], parse(items[i].command))
    ensures summary == Summarize(results, version)
  {
    results := [];
    var correct := 0;
    var perDomain: map<Label, DomainTally> := map[];
    var confusion: map<string, map<string, nat>> := map[];
    var errorBuckets: map<string, nat> := map[];
    var domainTp: map<string, nat> := map[];
    var domainFp: map<string, nat> := map[];
    var domainFn: map<string, nat> := map[];
    var actionTp: map<string, nat> := map[];
    var actionFp: map<string, nat> := map[];
    var actionFn: map<string, nat> := map[];
    for i := 0 to |items|
      invariant |results| == i
      invariant forall j :: 0 <= j < i ==> results[j] == Judge(items[j], parse(items[j].command))
      invariant correct == CountCorrect(results)
      invariant errorBuckets == Tally(Collect(results, ErrorOf))
      invariant perDomain == PerDomain(results)
      invariant confusion == Confusion(results)
      invariant domainTp == Tally(Collect(results, DomainTpOf))
      invariant domainFp == Tally(Collect(results, DomainFpOf))
      invariant domainFn == Tally(Collect(results, DomainFnOf))
      invariant actionTp == Tally(Collect(results, ActionTpOf))
      invariant actionFp == Tally(Collect(results, ActionFpOf))
      invariant actionFn == Tally(Collect(results, ActionFnOf))
    {
      var r := JudgeItem(items[i], parse);
      correct, errorBuckets, perDomain, confusion := CountOutcome(correct, errorBuckets, perDomain, confusion, results, r);
      domainTp, domainFp, domainFn, actionTp, actionFp, actionFn :=
        CountPrf(domainTp, domainFp, domainFn, actionTp, actionFp, actionFn, results, r);
      JudgedSnoc(items, parse, results, r);
      results := results + [r];
    }
    var perDomainAccuracy := map d | d in perDomain :: Ratio(perDomain[d].correct, perDomain[d].total);
    var accuracy := Ratio(correct, |items|);
    summary := Summary(version, |items|, correct, accuracy, perDomainAccuracy, errorBuckets, confusion,
                       PrfTable(domainTp, domainFp, domainFn), PrfTable(actionTp, actionFp, actionFn));
  }

  // ---------------------------------------------------------------------------
  // What the summary promises
  // ---------------------------------------------------------------------------

  /** Every result is correct or lands in exactly one error bucket. */
  lemma {:induction false} CorrectOrBucketed(rs: seq<EvalResult>)
    ensures CountCorrect(rs) + |Collect(rs, ErrorOf)| == |rs|
    decreases |rs|
  {
    if rs != [] {
      CorrectOrBucketed(rs[..|rs| - 1]);
    }
  }

  /**
   * `correct` never exceeds `total`, so the accuracy is in [0, 1] (and 0
   * without items), and the error buckets hold `total - correct` results.
   */
  lemma AccuracyAndBuckets(rs: seq<EvalResult>, version: string)
    ensures Summarize(rs, version).correct <= Summarize(rs, version).total == |rs|
    ensures 0.0 <= Summarize(rs, version).accuracy <= 1.0
    ensures rs == [] ==> Summarize(rs, version).accuracy == 0.0
    ensures MapSum(Summarize(rs, version).errorBuckets) == |rs| - Summarize(rs, version).correct
  {
    CorrectOrBucketed(rs);
    TallySum(Collect(rs, ErrorOf));
  }

  /** For judged results the only bucket names are the three mismatch kinds. */
  lemma BucketNames(rs: seq<EvalResult>, k: string)
    requires forall i :: 0 <= i < |rs| ==> Judged(rs[i])
    requires k in Tally(Collect(rs, ErrorOf))
    ensures k == "domain_mismatch" || k == "action_mismatch" || k == "parameters_mismatch"
  {
    TallyCounts(Collect(rs, ErrorOf), k);
    CollectFrom(rs, ErrorOf, k);
  }

  /** Every per-domain entry counts at least one item and no more correct items than items. */
  lemma {:induction false} PerDomainBounds(rs: seq<EvalResult>, d: Label)
    requires d in PerDomain(rs)
    ensures 0 < PerDomain(rs)[d].total && PerDomain(rs)[d].correct <= PerDomain(rs)[d].total
    decreases |rs|
  {
    var init := rs[..|rs| - 1];
    if d != rs[|rs| - 1].expectedDomain {
      PerDomainBounds(init, d);
    } else if d in PerDomain(init) {
      PerDomainBounds(init, d);
    }
  }

  /** Per-domain accuracy is in [0, 1] for every domain seen. */
  lemma PerDomainAccuracyBounds(rs: seq<EvalResult>, version: string, d: Label)
    requires d in Summarize(rs, version).perDomainAccuracy
    ensures 0.0 <= Summarize(rs, version).perDomainAccuracy[d] <= 1.0
  {
    PerDomainBounds(rs, d);
  }

  /**
   * A confusion-matrix row sums to its domain's per-domain total: the row
   * of a named domain (other than the "unknown" that also collects items
   * without a domain) exists exactly when the domain has per-domain counts.
   */
  lemma {:induction false} ConfusionRowTotal(rs: seq<EvalResult>, d: string)
    requires d != "" && d != "unknown"
    ensures d in Confusion(rs) <==> Some(d) in PerDomain(rs)
    ensures d in Confusion(rs) ==> MapSum(Confusion(rs)[d]) == PerDomain(rs)[Some(d)].total
    decreases |rs|
  {
    if rs != [] {
      var init := rs[..|rs| - 1];
      var r := rs[|rs| - 1];
      ConfusionRowTotal(init, d);
      if RowKey(r) == d {
        var row := if d in Confusion(init) then Confusion(init)[d] else map[];
        MapSumInc(row, ColumnKey(r));
        assert row == map[] ==> MapSum(row) == 0;
      }
    }
  }

  /** Whether a result names an expected domain, keyed by it. */
  function ExpectedDomainOf(r: EvalResult): Option<string> {
    if Present(r.expectedDomain) then Some(r.expectedDomain.value) else None
  }

  /** Whether a result names an expected action, keyed by it. */
  function ExpectedActionOf(r: EvalResult): Option<string> {
    if Present(r.expectedAction) then Some(r.expectedAction.value) else None
  }

  /**
   * Every item with an expected domain is a hit or a miss for it, so the
   * domain hits and misses add up to those items; wrong predictions are
   * counted only on misses, so there are no more of them than misses.
   */
  lemma DomainPrfCounts(rs: seq<EvalResult>)
    ensures MapSum(Tally(Collect(rs, DomainTpOf))) + MapSum(Tally(Collect(rs, DomainFnOf)))
            == |Collect(rs, ExpectedDomainOf)|
    ensures MapSum(Tally(Collect(rs, DomainFpOf))) <= MapSum(Tally(Collect(rs, DomainFnOf)))
  {
    CollectPartition(rs, DomainTpOf, DomainFnOf, ExpectedDomainOf);
    CollectWithin(rs, DomainFpOf, DomainFnOf);
    TallySum(Collect(rs, DomainTpOf));
    TallySum(Collect(rs, DomainFnOf));
    TallySum(Collect(rs, DomainFpOf));
  }

  /** The same accounting for actions. */
  lemma ActionPrfCounts(rs: seq<EvalResult>)
    ensures MapSum(Tally(Collect(rs, ActionTpOf))) + MapSum(Tally(Collect(rs, ActionFnOf)))
            == |Collect(rs, ExpectedActionOf)|
    ensures MapSum(Tally(Collect(rs, ActionFpOf))) <= MapSum(Tally(Collect(rs, ActionFnOf)))
  {
    CollectPartition(rs, ActionTpOf, ActionFnOf, ExpectedActionOf);
    CollectWithin(rs, ActionFpOf, ActionFnOf);
    TallySum(Collect(rs, ActionTpOf));
    TallySum(Collect(rs, ActionFnOf));
    TallySum(Collect(rs, ActionFpOf));
  }
}
