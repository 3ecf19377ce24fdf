/**
 * The pattern miner: scans the evaluation's error rows for systematic
 * problems — which domains and actions are confused with which, which
 * expected parameters the parser misses, and which command words recur.
 */
module PatternMining {
  import opened Wrappers
  import opened Text
  import opened Json
  import opened Evaluation

  /** One error row, with the fields the miner reads. */
  datatype ErrorRow = ErrorRow(
    command: string,
    expectedDomain: Label, predictedDomain: Label,
    expectedAction: Label, predictedAction: Label,
    expectedParameters: Obj,
    predictedParameters: Obj)

  /** `value or "none"`. */
  function OrNone(l: Label): string {
    if Present(l) then l.value else "none"
  }

  /** The (expected, predicted) domain pair of each row, a missing prediction as "none". */
  function DomainPairs(es: seq<ErrorRow>): (ps: seq<(Label, string)>)
    ensures |ps| == |es|
  {
    seq(|es|, i requires 0 <= i < |es| => (es[i].expectedDomain, OrNone(es[i].predictedDomain)))
  }

  function ActionPairs(es: seq<ErrorRow>): (ps: seq<(Label, string)>)
    ensures |ps| == |es|
  {
    seq(|es|, i requires 0 <= i < |es| => (es[i].expectedAction, OrNone(es[i].predictedAction)))
  }

  /** The expected parameter names a row's prediction lacks. */
  function MissingKeys(e: ErrorRow): set<string> {
    e.expectedParameters.Keys - e.predictedParameters.Keys
  }

  /** A counter with every key of `s` incremented once. */
  function AddAll(m: map<string, nat>, s: set<string>): map<string, nat> {
    map k | k in m.Keys + s :: Get0(m, k) + (if k in s then 1 else 0)
  }

  /** The missing-parameter counter after the given rows. */
  function MissingCounts(es: seq<ErrorRow>): map<string, nat>
    decreases |es|
  {
    if es == [] then map[] else AddAll(MissingCounts(es[..|es| - 1]), MissingKeys(es[|es| - 1]))
  }

  /** How many rows expect `k` and do not get it. */
  function MissingIn(es: seq<ErrorRow>, k: string): nat
    decreases |es|
  {
    if es == [] then 0 else MissingIn(es[..|es| - 1], k) + (if k in MissingKeys(es[|es| - 1]) then 1 else 0)
  }

  function LowerAll(ws: seq<string>): (r: seq<string>)
    ensures |r| == |ws|
  {
    seq(|ws|, i requires 0 <= i < |ws| => Lower(ws[i]))
  }

  /** The lower-cased whitespace tokens of every row's command, in order. */
  function Tokens(es: seq<ErrorRow>): seq<string>
    decreases |es|
  {
    if es == [] then [] else Tokens(es[..|es| - 1]) + LowerAll(Words(es[|es| - 1].command))
  }

  /** The tokens seen more than once, with their counts. */
  function Frequent(t: map<string, nat>): map<string, nat> {
    map k | k in t && t[k] > 1 :: t[k]
  }

  datatype PatternSummary = PatternSummary(
    domainConfusion: map<Label, map<string, nat>>,
    actionConfusion: map<Label, map<string, nat>>,
    missingParameters: map<string, nat>,
    frequentPhrasingTokens: map<string, nat>)

  /** The miner over a fixed list of error rows. */
  class PatternMiner {
    var errors: seq<ErrorRow>

    /** The rows read from the error file. */
    constructor (rows: seq<ErrorRow>)
      ensures errors == rows
    {
      errors := rows;
    }

    /** `matrix[expected][predicted or "none"] += 1` over the rows. */
    method DomainConfusionPatterns() returns (matrix: map<Label, map<string, nat>>)
      ensures matrix == NestedTally(DomainPairs(errors))
    {
      matrix := map[];
      for i := 0 to |errors|
        invariant matrix == NestedTally(DomainPairs(errors[..i]))
      {
        var e := errors[i];
        var exp := e.expectedDomain;
        var pred := OrNone(e.predictedDomain);
        assert DomainPairs(errors[..i + 1])[..i] == DomainPairs(errors[..i]);
        var row := if exp in matrix then matrix[exp] else map[];
        matrix := matrix[exp := Inc(row, pred)];
      }
      assert errors[..|errors|] == errors;
    }

    /** The same for actions. */
    method ActionConfusionPatterns() returns (patterns: map<Label, map<string, nat>>)
      ensures patterns == NestedTally(ActionPairs(errors))
    {
      patterns := map[];
      for i := 0 to |errors|
        invariant patterns == NestedTally(ActionPairs(errors[..i]))
      {
        var e := errors[i];
        var exp := e.expectedAction;
        var pred := OrNone(e.predictedAction);
        assert ActionPairs(errors[..i + 1])[..i] == ActionPairs(errors[..i]);
        var row := if exp in patterns then patterns[exp] else map[];
        patterns := patterns[exp := Inc(row, pred)];
      }
      assert errors[..|errors|] == errors;
    }

    /** `missing[k] += 1` for every expected key a row's prediction lacks. */
    method MissingParameterPatterns() returns (missing: map<string, nat>)
      ensures missing == MissingCounts(errors)
    {
      missing := map[];
      for i := 0 to |errors|
        invariant missing == MissingCounts(errors[..i])
      {
        var e := errors[i];
        assert errors[..i + 1][..i] == errors[..i];
        missing := CountMissing(missing, e);
      }
      assert errors[..|errors|] == errors;
    }

    /** `tokens[w.lower()] += 1` over every command's words, keeping the counts above 1. */
    method PhrasingPatterns() returns (frequent: map<string, nat>)
      ensures frequent == Frequent(Tally(Tokens(errors)))
    {
      var tokens: map<string, nat> := map[];
      for i := 0 to |errors|
        invariant tokens == Tally(Tokens(errors[..i]))
      {
        assert errors[..i + 1][..i] == errors[..i];
        tokens := CountWords(tokens, Tokens(errors[..i]), Words(errors[i].command));
      }
      assert errors[..|errors|] == errors;
      frequent := map k | k in tokens && tokens[k] > 1 :: tokens[k];
    }

    /** The four pattern tables. */
    method Summarize() returns (s: PatternSummary)
      ensures s == PatternSummary(NestedTally(DomainPairs(errors)), NestedTally(ActionPairs(errors)),
                                  MissingCounts(errors), Frequent(Tally(Tokens(errors))))
    {
      var d := DomainConfusionPatterns();
      var a := ActionConfusionPatterns();
      var m := MissingParameterPatterns();
      var f := PhrasingPatterns();
      s := PatternSummary(d, a, m, f);
    }
  }

  /** One command's words, lower-cased and counted one by one. */
  method CountWords(tokens: map<string, nat>, ghost seen: seq<string>, ws: seq<string>) returns (tokens': map<string, nat>)
    requires tokens == Tally(seen)
    ensures tokens' == Tally(seen + LowerAll(ws))
  {
    tokens' := tokens;
    assert seen + LowerAll(ws[..0]) == seen;
    for j := 0 to |ws|
      invariant tokens' == Tally(seen + LowerAll(ws[..j]))
    {
      TallySnoc(seen + LowerAll(ws[..j]), Lower(ws[j]));
      assert LowerAll(ws[..j + 1]) == LowerAll(ws[..j]) + [Lower(ws[j])];
      assert seen + LowerAll(ws[..j + 1]) == seen + LowerAll(ws[..j]) + [Lower(ws[j])];
      tokens' := Inc(tokens', Lower(ws[j]));
    }
    assert ws[..|ws|] == ws;
  }

  /** Counting one more key. */
  lemma AddAllInsert(m: map<string, nat>, s: set<string>, k: string)
    requires k !in s
    ensures AddAll(m, s + {k}) == Inc(AddAll(m, s), k)
  {
  }

  /** Taking one key off the to-do set adds it to the done set exactly when it is missing. */
  lemma MissingKeysStep(e: ErrorRow, todo: set<string>, k: string)
    requires k in todo && todo <= e.expectedParameters.Keys
    ensures MissingKeys(e) - (todo - {k}) == (MissingKeys(e) - todo) + (if k in e.predictedParameters then {} else {k})
  {
    var lhs := MissingKeys(e) - (todo - {k});
    var rhs := (MissingKeys(e) - todo) + (if k in e.predictedParameters then {} else {k});
    forall x | x in lhs ensures x in rhs {}
    forall x | x in rhs ensures x in lhs {}
  }

  /** `if k not in predicted: missing[k] += 1`, for one expected key. */
  method CountKey(m: map<string, nat>, ghost base: map<string, nat>, ghost done: set<string>,
                  e: ErrorRow, ghost todo: set<string>, k: string)
      returns (m': map<string, nat>, ghost done': set<string>)
    requires k in todo && todo <= e.expectedParameters.Keys
    requires done == MissingKeys(e) - todo && m == AddAll(base, done)
    ensures done' == MissingKeys(e) - (todo - {k}) && m' == AddAll(base, done')
  {
    MissingKeysStep(e, todo, k);
    m', done' := m, done;
    if k !in e.predictedParameters {
      AddAllInsert(base, done, k);
      m' := Inc(m, k);
      done' := done + {k};
    }
  }

  /** One row's missing keys, counted key by key. */
  method CountMissing(missing: map<string, nat>, e: ErrorRow) returns (missing': map<string, nat>)
    ensures missing' == AddAll(missing, MissingKeys(e))
  {
    missing' := missing;
    var todo := e.expectedParameters.Keys;
    ghost var done: set<string> := {};
    assert AddAll(missing, done) == missing;
    while todo != {}
      invariant todo <= e.expectedParameters.Keys
      invariant done == MissingKeys(e) - todo
      invariant missing' == AddAll(missing, done)
      decreases todo
    {
      var k :| k in todo;
      missing', done := CountKey(missing', missing, done, e, todo, k);
      todo := todo - {k};
    }
    assert done == MissingKeys(e);
  }

  // ---------------------------------------------------------------------------
  // What the tables mean
  // ---------------------------------------------------------------------------

  /** The domain confusion cells add up to the number of error rows, each cell counting its pair. */
  lemma DomainConfusionTotal(es: seq<ErrorRow>, a: Label, b: string)
    ensures NestedSum(NestedTally(DomainPairs(es))) == |es|
    ensures Cell(NestedTally(DomainPairs(es)), a, b) == Occurrences(DomainPairs(es), (a, b))
  {
    NestedTallySum(DomainPairs(es));
    NestedTallyCounts(DomainPairs(es), a, b);
  }

  /** The same for actions. */
  lemma ActionConfusionTotal(es: seq<ErrorRow>, a: Label, b: string)
    ensures NestedSum(NestedTally(ActionPairs(es))) == |es|
    ensures Cell(NestedTally(ActionPairs(es)), a, b) == Occurrences(ActionPairs(es), (a, b))
  {
    NestedTallySum(ActionPairs(es));
    NestedTallyCounts(ActionPairs(es), a, b);
  }

  /** A missing prediction is counted under "none", never under the empty string or None. */
  lemma PredictedNoneColumn(es: seq<ErrorRow>, i: nat)
    requires i < |es| && !Present(es[i].predictedDomain)
    ensures DomainPairs(es)[i].1 == "none"
  {
  }

  /** Each missing-parameter count is the number of rows that expect the key and do not get it. */
  lemma {:induction false} MissingCountsMeaning(es: seq<ErrorRow>, k: string)
    ensures Get0(MissingCounts(es), k) == MissingIn(es, k)
    ensures k in MissingCounts(es) <==> MissingIn(es, k) > 0
    decreases |es|
  {
    if es != [] {
      MissingCountsMeaning(es[..|es| - 1], k);
    }
  }

  /** Exactly the tokens seen more than once are kept, each with its number of occurrences. */
  lemma FrequentMeaning(es: seq<ErrorRow>, k: string)
    ensures k in Frequent(Tally(Tokens(es))) <==> Occurrences(Tokens(es), k) > 1
    ensures k in Frequent(Tally(Tokens(es))) ==> Frequent(Tally(Tokens(es)))[k] == Occurrences(Tokens(es), k)
  {
    TallyCounts(Tokens(es), k);
  }
}
