/**
 * The first parser evaluator: an item is correct only when its domain,
 * action and expected parameters all match; it reports accuracy,
 * per-domain accuracy and an approximate precision/recall per
 * "domain:action" key.
 */
module ParserEvaluation {
  import opened Wrappers
  import opened Json
  import opened Evaluation

  /** The outcome for one dataset item (this evaluator keeps no error type). */
  datatype Outcome = Outcome(
    id: string, command: string,
    expectedDomain: Label, expectedAction: Label,
    predictedDomain: Label, predictedAction: Label,
    domainCorrect: bool, actionCorrect: bool, parametersMatch: bool,
    rawParsed: Prediction)

  predicate AllCorrect(o: Outcome) {
    o.domainCorrect && o.actionCorrect && o.parametersMatch
  }

  /** The checks of one item against the parser's prediction. */
  function Check(item: EvalItem, p: Prediction): Outcome {
    Outcome(item.id, item.command, item.expectedDomain, item.expectedAction, p.domain, p.action,
            p.domain == item.expectedDomain, p.action == item.expectedAction,
            SubsetMatch(item.expectedParameters, p.parameters), p)
  }

  // ---------------------------------------------------------------------------
  // "domain:action" keys
  // ---------------------------------------------------------------------------

  /** The key of the expected pair, always present. */
  function ExpKey(o: Outcome): string {
    Render(o.expectedDomain) + ":" + Render(o.expectedAction)
  }

  /** The key of the predicted pair, only when both predicted labels are non-empty. */
  function PredKey(o: Outcome): Option<string> {
    if Present(o.predictedDomain) && Present(o.predictedAction)
    then Some(o.predictedDomain.value + ":" + o.predictedAction.value) else None
  }

  /** A fully correct item counts a hit for its expected key. */
  function HitOf(o: Outcome): Option<string> {
    if AllCorrect(o) then Some(ExpKey(o)) else None
  }

  /** Any other item counts a miss for its expected key. */
  function MissOf(o: Outcome): Option<string> {
    if !AllCorrect(o) then Some(ExpKey(o)) else None
  }

  /** ... and a wrong prediction for its predicted key, if it has one. */
  function WrongOf(o: Outcome): Option<string> {
    if !AllCorrect(o) then PredKey(o) else None
  }

  function CorrectCount(os: seq<Outcome>): nat
    decreases |os|
  {
    if os == [] then 0 else CorrectCount(os[..|os| - 1]) + (if AllCorrect(os[|os| - 1]) then 1 else 0)
  }

  function DomainStats(os: seq<Outcome>): map<Label, DomainTally>
    decreases |os|
  {
    if os == [] then map[]
    else
      var m := DomainStats(os[..|os| - 1]);
      var o := os[|os| - 1];
      var t := if o.expectedDomain in m then m[o.expectedDomain] else DomainTally(0, 0);
      m[o.expectedDomain := DomainTally(t.total + 1, t.correct + (if AllCorrect(o) then 1 else 0))]
  }

  // ---------------------------------------------------------------------------
  // The summary
  // ---------------------------------------------------------------------------

  /** Precision and recall of one key, with its counts (no F1 here). */
  datatype KeyMetrics = KeyMetrics(precision: real, recall: real, tp: nat, fp: nat, fn: nat)

  /** `tp / (tp + fp)` and `tp / (tp + fn)`, 0 on an empty denominator: both in [0, 1], both 0 without hits. */
  function KeyMetricsOf(tp: nat, fp: nat, fn: nat): (m: KeyMetrics)
    ensures m.tp == tp && m.fp == fp && m.fn == fn
    ensures m.precision == Ratio(tp, tp + fp) && m.recall == Ratio(tp, tp + fn)
    ensures 0.0 <= m.precision <= 1.0 && 0.0 <= m.recall <= 1.0
    ensures tp == 0 ==> m.precision == 0.0 && m.recall == 0.0
  {
    KeyMetrics(Ratio(tp, tp + fp), Ratio(tp, tp + fn), tp, fp, fn)
  }

  /** One row per key counted in any of the three counters, each that key's metrics. */
  function MetricsTable(tp: map<string, nat>, fp: map<string, nat>, fn: map<string, nat>): (t: map<string, KeyMetrics>)
    ensures t.Keys == tp.Keys + fp.Keys + fn.Keys
    ensures forall k :: k in t ==> t[k] == KeyMetricsOf(Get0(tp, k), Get0(fp, k), Get0(fn, k))
  {
    map k | k in tp.Keys + fp.Keys + fn.Keys :: KeyMetricsOf(Get0(tp, k), Get0(fp, k), Get0(fn, k))
  }

  datatype EvalSummary = EvalSummary(
    total: nat, correct: nat, accuracy: real,
    perDomainAccuracy: map<Label, real>,
    perAction: map<string, KeyMetrics>)

  function SummarizeOutcomes(os: seq<Outcome>): EvalSummary {
    var stats := DomainStats(os);
    EvalSummary(
      |os|, CorrectCount(os), Ratio(CorrectCount(os), |os|),
      map d | d in stats :: Ratio(stats[d].correct, stats[d].total),
      MetricsTable(Tally(Collect(os, HitOf)), Tally(Collect(os, WrongOf)), Tally(Collect(os, MissOf))))
  }

  // ---------------------------------------------------------------------------
  // The loop
  // ---------------------------------------------------------------------------

  method CheckItem(item: EvalItem, parse: string -> Prediction) returns (o: Outcome)
    ensures o == Check(item, parse(item.command))
  {
    var parsed := parse(item.command);
    var paramsMatch := ParametersMatch(item.expectedParameters, parsed.parameters);
    o := Outcome(item.id, item.command, item.expectedDomain, item.expectedAction, parsed.domain, parsed.action,
                 parsed.domain == item.expectedDomain, parsed.action == item.expectedAction, paramsMatch, parsed);
  }

  /** The correct count and the per-domain counts of one more outcome. */
  method CountCorrectness(correct: nat, stats: map<Label, DomainTally>, ghost os: seq<Outcome>, o: Outcome)
    returns (correct': nat, stats': map<Label, DomainTally>)
    requires correct == CorrectCount(os) && stats == DomainStats(os)
    ensures correct' == CorrectCount(os + [o]) && stats' == DomainStats(os + [o])
  {
    assert (os + [o])[..|os|] == os;
    correct' := if AllCorrect(o) then correct + 1 else correct;
    var t := if o.expectedDomain in stats then stats[o.expectedDomain] else DomainTally(0, 0);
    stats' := stats[o.expectedDomain := DomainTally(t.total + 1, t.correct + (if AllCorrect(o) then 1 else 0))];
  }

  /** The key counts of one more outcome. */
  method CountKeys(tp: map<string, nat>, fp: map<string, nat>, fn: map<string, nat>, ghost os: seq<Outcome>, o: Outcome)
    returns (tp': map<string, nat>, fp': map<string, nat>, fn': map<string, nat>)
    requires tp == Tally(Collect(os, HitOf)) && fp == Tally(Collect(os, WrongOf)) && fn == Tally(Collect(os, MissOf))
    ensures tp' == Tally(Collect(os + [o], HitOf)) && fp' == Tally(Collect(os + [o], WrongOf))
    ensures fn' == Tally(Collect(os + [o], MissOf))
  {
    TallyCollectSnoc(os, o, HitOf);
    TallyCollectSnoc(os, o, WrongOf);
    TallyCollectSnoc(os, o, MissOf);
    var expKey := Render(o.expectedDomain) + ":" + Render(o.expectedAction);
    var predKey := PredKey(o);
    tp', fp', fn' := tp, fp, fn;
    if AllCorrect(o) {
      tp' := Inc(tp, expKey);
    } else {
      fn' := Inc(fn, expKey);
      if predKey.Some? {
        fp' := Inc(fp, predKey.value);
      }
    }
  }

  /** One pass of the loop: check the item, count it, append its outcome. */
  method EvaluateOne(item: EvalItem, parse: string -> Prediction, results: seq<Outcome>,
                     correct: nat, stats: map<Label, DomainTally>,
                     tp: map<string, nat>, fp: map<string, nat>, fn: map<string, nat>)
    returns (results': seq<Outcome>, correct': nat, stats': map<Label, DomainTally>,
             tp': map<string, nat>, fp': map<string, nat>, fn': map<string, nat>)
    requires correct == CorrectCount(results) && stats == DomainStats(results)
    requires tp == Tally(Collect(results, HitOf)) && fp == Tally(Collect(results, WrongOf))
    requires fn == Tally(Collect(results, MissOf))
    ensures results' == results + [Check(item, parse(item.command))]
    ensures correct' == CorrectCount(results') && stats' == DomainStats(results')
    ensures tp' == Tally(Collect(results', HitOf)) && fp' == Tally(Collect(results', WrongOf))
    ensures fn' == Tally(Collect(results', MissOf))
  {
    var o := CheckItem(item, parse);
    correct', stats' := CountCorrectness(correct, stats, results, o);
    tp', fp', fn' := CountKeys(tp, fp, fn, results, o);
    results' := results + [o];
  }

  /** `run`, with the parser as an input. */
  method RunEvaluator(items: seq<EvalItem>, parse: string -> Prediction) returns (results: seq<Outcome>, summary: EvalSummary)
    ensures |results| == |items|
    ensures forall i :: 0 <= i < |items| ==> results[i] == Check(items[i], parse(items[i].command))
    ensures summary == SummarizeOutcomes(results)
  {
    results := [];
    var correct := 0;
    var stats: map<Label, DomainTally> := map[];
    var tp: map<string, nat> := map[];
    var fp: map<string, nat> := map[];
    var fn: map<string, nat> := map[];
    for i := 0 to |items|
      invariant |results| == i
      invariant forall j :: 0 <= j < i ==> results[j] == Check(items[j], parse(items[j].command))
      invariant correct == CorrectCount(results) && stats == DomainStats(results)
      invariant tp == Tally(Collect(results, HitOf))
      invariant fp == Tally(Collect(results, WrongOf))
      invariant fn == Tally(Collect(results, MissOf))
    {
      results, correct, stats, tp, fp, fn := EvaluateOne(items[i], parse, results, correct, stats, tp, fp, fn);
    }
    var perDomainAccuracy := map d | d in stats :: Ratio(stats[d].correct, stats[d].total);
    summary := EvalSummary(|items|, correct, Ratio(correct, |items|), perDomainAccuracy, MetricsTable(tp, fp, fn));
  }

  // ---------------------------------------------------------------------------
  // What the summary promises
  // ---------------------------------------------------------------------------

  /** One hit per correct item and one miss per other item. */
  lemma {:induction false} HitsAndMisses(os: seq<Outcome>)
    ensures |Collect(os, HitOf)| == CorrectCount(os)
    ensures |Collect(os, HitOf)| + |Collect(os, MissOf)| == |os|
    decreases |os|
  {
    if os != [] {
      HitsAndMisses(os[..|os| - 1]);
    }
  }

  /**
   * Hits and misses over all keys add up to the number of items, the hits
   * being the correct items; wrong predictions come only with misses; the
   * accuracy is in [0, 1] and 0 without items.
   */
  lemma SummaryCounts(os: seq<Outcome>)
    ensures MapSum(Tally(Collect(os, HitOf))) == SummarizeOutcomes(os).correct
    ensures MapSum(Tally(Collect(os, HitOf))) + MapSum(Tally(Collect(os, MissOf))) == SummarizeOutcomes(os).total
    ensures MapSum(Tally(Collect(os, WrongOf))) <= MapSum(Tally(Collect(os, MissOf)))
    ensures SummarizeOutcomes(os).correct <= SummarizeOutcomes(os).total
    ensures 0.0 <= SummarizeOutcomes(os).accuracy <= 1.0
    ensures os == [] ==> SummarizeOutcomes(os).accuracy == 0.0
  {
    HitsAndMisses(os);
    CollectWithin(os, WrongOf, MissOf);
    TallySum(Collect(os, HitOf));
    TallySum(Collect(os, MissOf));
    TallySum(Collect(os, WrongOf));
  }

  /** Every per-domain entry counts at least one item and no more correct items than items. */
  lemma {:induction false} DomainStatsBounds(os: seq<Outcome>, d: Label)
    requires d in DomainStats(os)
    ensures 0 < DomainStats(os)[d].total && DomainStats(os)[d].correct <= DomainStats(os)[d].total
    decreases |os|
  {
    var init := os[..|os| - 1];
    if d != os[|os| - 1].expectedDomain || d in DomainStats(init) {
      DomainStatsBounds(init, d);
    }
  }

  /** Per-domain accuracy is in [0, 1]. */
  lemma PerDomainAccuracyInRange(os: seq<Outcome>, d: Label)
    requires d in SummarizeOutcomes(os).perDomainAccuracy
    ensures 0.0 <= SummarizeOutcomes(os).perDomainAccuracy[d] <= 1.0
  {
    DomainStatsBounds(os, d);
  }

  /** A key counted as a hit is the expected "domain:action" of some fully correct item. */
  lemma HitKeysAreCorrect(os: seq<Outcome>, k: string)
    requires k in Tally(Collect(os, HitOf))
    ensures exists i :: 0 <= i < |os| && AllCorrect(os[i]) && ExpKey(os[i]) == k
  {
    TallyCounts(Collect(os, HitOf), k);
    CollectFrom(os, HitOf, k);
  }

  /** A key counted as a wrong prediction names a failing item's non-empty predicted domain and action. */
  lemma WrongKeysArePredicted(os: seq<Outcome>, k: string)
    requires k in Tally(Collect(os, WrongOf))
    ensures exists i :: 0 <= i < |os| && !AllCorrect(os[i]) && Present(os[i].predictedDomain)
                        && Present(os[i].predictedAction)
                        && k == os[i].predictedDomain.value + ":" + os[i].predictedAction.value
  {
    TallyCounts(Collect(os, WrongOf), k);
    CollectFrom(os, WrongOf, k);
  }
}
