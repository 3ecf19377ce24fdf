/**
 * The second evaluator: the same per-item checks, correctness count,
 * error buckets, per-domain accuracy and confusion matrix as the unified
 * evaluator, but different precision/recall bookkeeping. Action hits are
 * counted only for fully correct items; every failing item is a miss for
 * its expected action and a wrong prediction for its predicted action,
 * None included. Domain hits, misses and wrong predictions are counted in
 * a second pass over the results, keyed by the label as it is, None
 * included.
 */
module EvalV2 {
  import opened Wrappers
  import opened Json
  import opened Evaluation
  import opened EvalUnified

  // ---------------------------------------------------------------------------
  // What each counter counts
  // ---------------------------------------------------------------------------

  /** Action hits: a fully correct item, keyed by its predicted action. */
  function ActionTpOfV2(r: EvalResult): Option<Label> {
    if r.errorType.None? then Some(r.predictedAction) else None
  }

  /** Action misses: a failing item, keyed by its expected action. */
  function ActionFnOfV2(r: EvalResult): Option<Label> {
    if r.errorType.Some? then Some(r.expectedAction) else None
  }

  /** Wrong actions: a failing item, keyed by its predicted action, even None. */
  function ActionFpOfV2(r: EvalResult): Option<Label> {
    if r.errorType.Some? then Some(r.predictedAction) else None
  }

  /** Domain hits: expected and predicted labels equal (both None included). */
  function DomainTpOfV2(r: EvalResult): Option<Label> {
    if r.expectedDomain == r.predictedDomain then Some(r.expectedDomain) else None
  }

  function DomainFnOfV2(r: EvalResult): Option<Label> {
    if r.expectedDomain != r.predictedDomain then Some(r.expectedDomain) else None
  }

  function DomainFpOfV2(r: EvalResult): Option<Label> {
    if r.expectedDomain != r.predictedDomain then Some(r.predictedDomain) else None
  }

  /** The summary: the unified evaluator's fields with scores keyed by labels. */
  datatype SummaryV2 = SummaryV2(
    version: string,
    total: nat,
    correct: nat,
    accuracy: real,
    perDomainAccuracy: map<Label, real>,
    errorBuckets: map<string, nat>,
    confusionMatrix: map<string, map<string, nat>>,
    perDomainPrf: map<Label, Prf>,
    perActionPrf: map<Label, Prf>)

  function SummarizeV2(rs: seq<EvalResult>, version: string): SummaryV2 {
    var perDomain := PerDomain(rs);
    SummaryV2(
      version, |rs|, CountCorrect(rs), Ratio(CountCorrect(rs), |rs|),
      map d | d in perDomain :: Ratio(perDomain[d].correct, perDomain[d].total),
      Tally(Collect(rs, ErrorOf)),
      Confusion(rs),
      PrfTable(Tally(Collect(rs, DomainTpOfV2)), Tally(Collect(rs, DomainFpOfV2)), Tally(Collect(rs, DomainFnOfV2))),
      PrfTable(Tally(Collect(rs, ActionTpOfV2)), Tally(Collect(rs, ActionFpOfV2)), Tally(Collect(rs, ActionFnOfV2))))
  }

  // ---------------------------------------------------------------------------
  // The loops
  // ---------------------------------------------------------------------------

  /** The action counts of one more result. */
  method CountActionV2(tp: map<Label, nat>, fp: map<Label, nat>, fn: map<Label, nat>, ghost rs: seq<EvalResult>, r: EvalResult)
    returns (tp': map<Label, nat>, fp': map<Label, nat>, fn': map<Label, nat>)
    requires tp == Tally(Collect(rs, ActionTpOfV2)) && fp == Tally(Collect(rs, ActionFpOfV2)) && fn == Tally(Collect(rs, ActionFnOfV2))
    ensures tp' == Tally(Collect(rs + [r], ActionTpOfV2)) && fp' == Tally(Collect(rs + [r], ActionFpOfV2))
    ensures fn' == Tally(Collect(rs + [r], ActionFnOfV2))
  {
    TallyCollectSnoc(rs, r, ActionTpOfV2);
    TallyCollectSnoc(rs, r, ActionFpOfV2);
    TallyCollectSnoc(rs, r, ActionFnOfV2);
    tp', fp', fn' := tp, fp, fn;
    if r.errorType.None? {
      tp' := Inc(tp, r.predictedAction);
    } else {
      fn' := Inc(fn, r.expectedAction);
      fp' := Inc(fp, r.predictedAction);
    }
  }

  /** The second pass: domain hits, misses and wrong predictions over the results. */
  method DomainPrfV2(results: seq<EvalResult>) returns (tp: map<Label, nat>, fp: map<Label, nat>, fn: map<Label, nat>)
    ensures tp == Tally(Collect(results, DomainTpOfV2))
    ensures fp == Tally(Collect(results, DomainFpOfV2))
    ensures fn == Tally(Collect(results, DomainFnOfV2))
  {
    tp, fp, fn := map[], map[], map[];
    for i := 0 to |results|
      invariant tp == Tally(Collect(results[..i], DomainTpOfV2))
      invariant fp == Tally(Collect(results[..i], DomainFpOfV2))
      invariant fn == Tally(Collect(results[..i], DomainFnOfV2))
    {
      var r := results[i];
      assert results[..i + 1] == results[..i] + [r];
      TallyCollectSnoc(results[..i], r, DomainTpOfV2);
      TallyCollectSnoc(results[..i], r, DomainFpOfV2);
      TallyCollectSnoc(results[..i], r, DomainFnOfV2);
      if r.expectedDomain == r.predictedDomain {
        tp := Inc(tp, r.expectedDomain);
      } else {
        fn := Inc(fn, r.expectedDomain);
        fp := Inc(fp, r.predictedDomain);
      }
    }
    assert results[..|results|] == results;
  }

  /** One pass of the loop: judge the item, count it, append its result. */
  method JudgeOneV2(item: EvalItem, parse: string -> Prediction, results: seq<EvalResult>,
                    correct: nat, errorBuckets: map<string, nat>, perDomain: map<Label, DomainTally>,
                    confusion: map<string, map<string, nat>>,
                    actionTp: map<Label, nat>, actionFp: map<Label, nat>, actionFn: map<Label, nat>)
    returns (results': seq<EvalResult>, correct': nat, errorBuckets': map<string, nat>,
             perDomain': map<Label, DomainTally>, confusion': map<string, map<string, nat>>,
             actionTp': map<Label, nat>, actionFp': map<Label, nat>, actionFn': map<Label, nat>)
    requires correct == CountCorrect(results) && errorBuckets == Tally(Collect(results, ErrorOf))
    requires perDomain == PerDomain(results) && confusion == Confusion(results)
    requires actionTp == Tally(Collect(results, ActionTpOfV2)) && actionFp == Tally(Collect(results, ActionFpOfV2))
    requires actionFn == Tally(Collect(results, ActionFnOfV2))
    ensures results' == results + [Judge(item, parse(item.command))]
    ensures correct' == CountCorrect(results') && errorBuckets' == Tally(Collect(results', ErrorOf))
    ensures perDomain' == PerDomain(results') && confusion' == Confusion(results')
    ensures actionTp' == Tally(Collect(results', ActionTpOfV2)) && actionFp' == Tally(Collect(results', ActionFpOfV2))
    ensures actionFn' == Tally(Collect(results', ActionFnOfV2))
  {
    var r := JudgeItem(item, parse);
    correct', errorBuckets', perDomain', confusion' := CountOutcome(correct, errorBuckets, perDomain, confusion, results, r);
    actionTp', actionFp', actionFn' := CountActionV2(actionTp, actionFp, actionFn, results, r);
    results' := results + [r];
  }

  /** `run`, with the parser as an input. */
  method RunV2(items: seq<EvalItem>, parse: string -> Prediction, version: string)
    returns (results: seq<EvalResult>, summary: SummaryV2)
    ensures |results| == |items|
    ensures forall i :: 0 <= i < |items| ==> results[i] == Judge(items[i], parse(items[i].command))
    ensures summary == SummarizeV2(results, version)
  {
    results := [];
    var correct := 0;
    var perDomain: map<Label, DomainTally> := map[];
    var confusion: map<string, map<string, nat>> := map[];
    var errorBuckets: map<string, nat> := map[];
    var actionTp: map<Label, nat> := map[];
    var actionFp: map<Label, nat> := map[];
    var actionFn: map<Label, nat> := map[];
    for i := 0 to |items|
      invariant |results| == i
      invariant forall j :: 0 <= j < i ==> results[j] == Judge(items[j], parse(items[j].command))
      invariant correct == CountCorrect(results)
      invariant errorBuckets == Tally(Collect(results, ErrorOf))
      invariant perDomain == PerDomain(results)
      invariant confusion == Confusion(results)
      invariant actionTp == Tally(Collect(results, ActionTpOfV2))
      invariant actionFp == Tally(Collect(results, ActionFpOfV2))
      invariant actionFn == Tally(Collect(results, ActionFnOfV2))
    {
      JudgedSnoc(items, parse, results, Judge(items[i], parse(items[i].command)));
      results, correct, errorBuckets, perDomain, confusion, actionTp, actionFp, actionFn :=
        JudgeOneV2(items[i], parse, results, correct, errorBuckets, perDomain, confusion, actionTp, actionFp, actionFn);
    }
    var perDomainAccuracy := map d | d in perDomain :: Ratio(perDomain[d].correct, perDomain[d].total);
    var domainTp, domainFp, domainFn := DomainPrfV2(results);
    summary := SummaryV2(version, |items|, correct, Ratio(correct, |items|), perDomainAccuracy, errorBuckets, confusion,
                         PrfTable(domainTp, domainFp, domainFn), PrfTable(actionTp, actionFp, actionFn));
  }

  // ---------------------------------------------------------------------------
  // What the summary promises
  // ---------------------------------------------------------------------------

  /** Correct never exceeds total, the accuracy is in [0, 1] and 0 without items, and the buckets hold the failures. */
  lemma AccuracyAndBucketsV2(rs: seq<EvalResult>, version: string)
    ensures SummarizeV2(rs, version).correct <= SummarizeV2(rs, version).total == |rs|
    ensures 0.0 <= SummarizeV2(rs, version).accuracy <= 1.0
    ensures rs == [] ==> SummarizeV2(rs, version).accuracy == 0.0
    ensures MapSum(SummarizeV2(rs, version).errorBuckets) == |rs| - SummarizeV2(rs, version).correct
  {
    CorrectOrBucketed(rs);
    TallySum(Collect(rs, ErrorOf));
  }

  /** Per-domain accuracy is in [0, 1], since no domain has more correct items than items. */
  lemma PerDomainAccuracyBoundsV2(rs: seq<EvalResult>, version: string, d: Label)
    requires d in SummarizeV2(rs, version).perDomainAccuracy
    ensures 0.0 <= SummarizeV2(rs, version).perDomainAccuracy[d] <= 1.0
  {
    PerDomainBounds(rs, d);
  }

  /**
   * Every result is a domain hit or a domain miss, so hits and misses over
   * all domains add up to the number of results.
   */
  lemma DomainHitsAndMissesV2(rs: seq<EvalResult>)
    ensures MapSum(Tally(Collect(rs, DomainTpOfV2))) + MapSum(Tally(Collect(rs, DomainFnOfV2))) == |rs|
  {
    CollectPartition(rs, DomainTpOfV2, DomainFnOfV2, Everything);
    CollectAll(rs);
    TallySum(Collect(rs, DomainTpOfV2));
    TallySum(Collect(rs, DomainFnOfV2));
  }

  /** Each domain miss adds exactly one wrong prediction, None included. */
  lemma DomainWrongPerMissV2(rs: seq<EvalResult>)
    ensures MapSum(Tally(Collect(rs, DomainFpOfV2))) == MapSum(Tally(Collect(rs, DomainFnOfV2)))
  {
    CollectWithin(rs, DomainFpOfV2, DomainFnOfV2);
    CollectWithin(rs, DomainFnOfV2, DomainFpOfV2);
    TallySum(Collect(rs, DomainFnOfV2));
    TallySum(Collect(rs, DomainFpOfV2));
  }

  /**
   * Every result is an action hit (when correct) or an action miss (when
   * not), so hits and misses add up to the number of results; the hits are
   * the correct items; each failure adds one miss and one wrong prediction.
   */
  lemma ActionPrfCountsV2(rs: seq<EvalResult>)
    ensures MapSum(Tally(Collect(rs, ActionTpOfV2))) == CountCorrect(rs)
    ensures MapSum(Tally(Collect(rs, ActionTpOfV2))) + MapSum(Tally(Collect(rs, ActionFnOfV2))) == |rs|
    ensures MapSum(Tally(Collect(rs, ActionFpOfV2))) == MapSum(Tally(Collect(rs, ActionFnOfV2)))
  {
    CollectPartition(rs, ActionTpOfV2, ActionFnOfV2, Everything);
    CollectAll(rs);
    CorrectHits(rs);
    CollectWithin(rs, ActionFpOfV2, ActionFnOfV2);
    CollectWithin(rs, ActionFnOfV2, ActionFpOfV2);
    TallySum(Collect(rs, ActionTpOfV2));
    TallySum(Collect(rs, ActionFnOfV2));
    TallySum(Collect(rs, ActionFpOfV2));
  }

  /** A label that every result has. */
  function Everything(r: EvalResult): Option<Label> {
    Some(None)
  }

  /** Collecting from every result collects one key per result. */
  lemma {:induction false} CollectAll(rs: seq<EvalResult>)
    ensures |Collect(rs, Everything)| == |rs|
    decreases |rs|
  {
    if rs != [] {
      CollectAll(rs[..|rs| - 1]);
    }
  }

  /** One action hit per correct result. */
  lemma {:induction false} CorrectHits(rs: seq<EvalResult>)
    ensures |Collect(rs, ActionTpOfV2)| == CountCorrect(rs)
    decreases |rs|
  {
    if rs != [] {
      CorrectHits(rs[..|rs| - 1]);
    }
  }

  /** An action counted as a hit was predicted by some fully correct item. */
  lemma ActionHitsAreCorrect(rs: seq<EvalResult>, a: Label)
    requires a in Tally(Collect(rs, ActionTpOfV2))
    ensures exists i :: 0 <= i < |rs| && rs[i].errorType.None? && rs[i].predictedAction == a
  {
    TallyCounts(Collect(rs, ActionTpOfV2), a);
    CollectFrom(rs, ActionTpOfV2, a);
  }
}
