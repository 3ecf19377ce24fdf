/**
 * The guardrail generator: turns the pattern miner's tables into rule
 * suggestions — a domain or action pair confused at least twice, a
 * parameter missed at least twice, a command word seen at least four times.
 */
module GuardrailGeneration {
  import opened Wrappers
  import opened Evaluation
  import opened PatternMining

  /** The two confusion tables and the two counters a rule can come from. */
  datatype ConfusionTable = DomainTable | ActionTable
  datatype CounterTable = ParameterTable | PhrasingTable

  /**
   * A confused (expected, wrongly predicted) pair with its count and its
   * suggestion text; domain rules also carry a reason, action rules none.
   */
  datatype ConfusionRule = ConfusionRule(
    reason: Option<string>, expected: Label, wrongPredicted: string, count: nat, suggestion: string)

  /** A parameter or a token with its count and its suggestion text. */
  datatype CountRule = CountRule(key: string, count: nat, suggestion: string)

  /** A counter entry: a key with its count. */
  datatype Entry = Entry(key: string, count: nat)

  /** The four rule lists of the generator's output. */
  datatype Suggestions = Suggestions(
    domainRules: seq<ConfusionRule>,
    actionRules: seq<ConfusionRule>,
    parameterRules: seq<CountRule>,
    phrasingRules: seq<CountRule>)

  const DomainThreshold: nat := 2
  const ActionThreshold: nat := 2
  const ParameterThreshold: nat := 2
  const PhrasingThreshold: nat := 4

  const DomainReason := "frequent domain confusion"

  /** The reason and suggestion text of a confusion rule, as the generator formats them. */
  function ConfusionReason(table: ConfusionTable): Option<string> {
    if table == DomainTable then Some(DomainReason) else None
  }

  function ConfusionText(table: ConfusionTable, expected: Label, predicted: string): string {
    match table
    case DomainTable => "Add few-shot examples emphasizing " + Render(expected) + " vs " + predicted
    case ActionTable => "Provide disambiguation between '" + Render(expected) + "' and '" + predicted + "' in few-shots."
  }

  /** The suggestion text of a parameter or phrasing rule. */
  function CountText(table: CounterTable, key: string): string {
    match table
    case ParameterTable => "Add parameter presence hints for '" + key + "' in prompt rules."
    case PhrasingTable => "Consider few-shot examples involving '" + key + "'."
  }

  /** `expected != predicted` between a label (possibly None) and a string. */
  predicate Differs(expected: Label, predicted: string) {
    expected.None? || expected.value != predicted
  }

  /** No element is listed twice. */
  predicate Distinct<T(==)>(xs: seq<T>) {
    forall i, j :: 0 <= i < j < |xs| ==> xs[i] != xs[j]
  }

  /** A counter entry at or above a threshold. */
  predicate EntryAtLeast(m: map<string, nat>, e: Entry, n: nat) {
    e.key in m && e.count == m[e.key] && e.count >= n
  }

  /** A rule for a counter entry at or above a threshold, with the table's text. */
  predicate CountAtLeast(m: map<string, nat>, r: CountRule, n: nat, table: CounterTable) {
    r.key in m && r.count == m[r.key] && r.count >= n && r.suggestion == CountText(table, r.key)
  }

  /** A confusion cell that deserves a rule: a real mismatch seen at least `n` times, with the table's reason and text. */
  predicate Flagged(t: map<Label, map<string, nat>>, r: ConfusionRule, n: nat, table: ConfusionTable) {
    r.expected in t && r.wrongPredicted in t[r.expected] && r.count == t[r.expected][r.wrongPredicted]
    && Differs(r.expected, r.wrongPredicted) && r.count >= n
    && r.reason == ConfusionReason(table) && r.suggestion == ConfusionText(table, r.expected, r.wrongPredicted)
  }

  /** The entries of `m` whose key is not excluded and whose count reaches `n`, each once. */
  method Select(m: map<string, nat>, excluded: Label, n: nat) returns (rs: seq<Entry>)
    ensures forall e :: e in rs <==> EntryAtLeast(m, e, n) && Differs(excluded, e.key)
    ensures Distinct(rs)
  {
    rs := [];
    var todo := m.Keys;
    while todo != {}
      invariant todo <= m.Keys
      invariant forall e :: e in rs <==> EntryAtLeast(m, e, n) && Differs(excluded, e.key) && e.key !in todo
      invariant Distinct(rs)
      decreases todo
    {
      var k :| k in todo;
      if m[k] >= n && Differs(excluded, k) {
        rs := rs + [Entry(k, m[k])];
      }
      todo := todo - {k};
    }
  }

  /** `for exp, row in t.items(): for pred, count in row.items(): if exp != pred and count >= n`. */
  method FlagConfusions(t: map<Label, map<string, nat>>, n: nat, table: ConfusionTable) returns (rules: seq<ConfusionRule>)
    ensures forall r :: r in rules <==> Flagged(t, r, n, table)
    ensures Distinct(rules)
  {
    rules := [];
    var todo := t.Keys;
    while todo != {}
      invariant todo <= t.Keys
      invariant forall r :: r in rules <==> Flagged(t, r, n, table) && r.expected !in todo
      invariant Distinct(rules)
      decreases todo
    {
      var e :| e in todo;
      var row := Select(t[e], e, n);
      var added := seq(|row|, i requires 0 <= i < |row| =>
        ConfusionRule(ConfusionReason(table), e, row[i].key, row[i].count, ConfusionText(table, e, row[i].key)));
      forall r | r in added ensures Flagged(t, r, n, table) && r.expected == e {
        var i :| 0 <= i < |added| && added[i] == r;
        assert row[i] in row;
      }
      forall r | Flagged(t, r, n, table) && r.expected == e ensures r in added {
        var c := Entry(r.wrongPredicted, r.count);
        assert c in row;
        var i :| 0 <= i < |row| && row[i] == c;
        assert added[i] == r;
      }
      rules := rules + added;
      todo := todo - {e};
    }
  }

  /** `for key, count in m.items(): if count >= n`: one rule per entry reaching the threshold, with its text. */
  method CountRules(m: map<string, nat>, n: nat, table: CounterTable) returns (rules: seq<CountRule>)
    ensures forall r :: r in rules <==> CountAtLeast(m, r, n, table)
    ensures Distinct(rules)
  {
    var es := Select(m, None, n);
    rules := seq(|es|, i requires 0 <= i < |es| => CountRule(es[i].key, es[i].count, CountText(table, es[i].key)));
    forall r | r in rules ensures CountAtLeast(m, r, n, table) {
      var i :| 0 <= i < |rules| && rules[i] == r;
      assert es[i] in es;
    }
    forall r | CountAtLeast(m, r, n, table) ensures r in rules {
      var e := Entry(r.key, r.count);
      assert e in es;
      var i :| 0 <= i < |es| && es[i] == e;
      assert rules[i] == r;
    }
  }

  /** The thresholds of `generate`, applied to the miner's four tables. */
  method Suggest(summary: PatternSummary) returns (s: Suggestions)
    ensures forall r :: r in s.domainRules <==> Flagged(summary.domainConfusion, r, DomainThreshold, DomainTable)
    ensures forall r :: r in s.actionRules <==> Flagged(summary.actionConfusion, r, ActionThreshold, ActionTable)
    ensures forall r :: r in s.parameterRules <==> CountAtLeast(summary.missingParameters, r, ParameterThreshold, ParameterTable)
    ensures forall r :: r in s.phrasingRules <==> CountAtLeast(summary.frequentPhrasingTokens, r, PhrasingThreshold, PhrasingTable)
    ensures Distinct(s.domainRules) && Distinct(s.actionRules) && Distinct(s.parameterRules) && Distinct(s.phrasingRules)
  {
    var domainRules := FlagConfusions(summary.domainConfusion, DomainThreshold, DomainTable);
    var actionRules := FlagConfusions(summary.actionConfusion, ActionThreshold, ActionTable);
    var parameterRules := CountRules(summary.missingParameters, ParameterThreshold, ParameterTable);
    var phrasingRules := CountRules(summary.frequentPhrasingTokens, PhrasingThreshold, PhrasingTable);
    s := Suggestions(domainRules, actionRules, parameterRules, phrasingRules);
  }

  /** The generator over its miner. */
  class GuardrailGenerator {
    const miner: PatternMiner

    constructor (miner: PatternMiner)
      ensures this.miner == miner
    {
      this.miner := miner;
    }

    /** Summarize the error rows and keep the patterns above the thresholds. */
    method Generate() returns (s: Suggestions)
      ensures forall r :: r in s.domainRules <==> Flagged(NestedTally(DomainPairs(miner.errors)), r, DomainThreshold, DomainTable)
      ensures forall r :: r in s.actionRules <==> Flagged(NestedTally(ActionPairs(miner.errors)), r, ActionThreshold, ActionTable)
      ensures forall r :: r in s.parameterRules <==> CountAtLeast(MissingCounts(miner.errors), r, ParameterThreshold, ParameterTable)
      ensures forall r :: r in s.phrasingRules <==> CountAtLeast(Frequent(Tally(Tokens(miner.errors))), r, PhrasingThreshold, PhrasingTable)
      ensures Distinct(s.domainRules) && Distinct(s.actionRules) && Distinct(s.parameterRules) && Distinct(s.phrasingRules)
    {
      var summary := miner.Summarize();
      s := Suggest(summary);
    }
  }

  // ---------------------------------------------------------------------------
  // What a rule says about the error rows
  // ---------------------------------------------------------------------------

  /** A domain rule's count is the number of error rows with its pair, at least two, and the pair is a mismatch. */
  lemma DomainRuleMeaning(es: seq<ErrorRow>, r: ConfusionRule)
    requires Flagged(NestedTally(DomainPairs(es)), r, DomainThreshold, DomainTable)
    ensures r.count == Occurrences(DomainPairs(es), (r.expected, r.wrongPredicted)) >= 2
    ensures Differs(r.expected, r.wrongPredicted)
    ensures r.reason == Some("frequent domain confusion")
  {
    DomainConfusionTotal(es, r.expected, r.wrongPredicted);
  }

  /** The same for actions. */
  lemma ActionRuleMeaning(es: seq<ErrorRow>, r: ConfusionRule)
    requires Flagged(NestedTally(ActionPairs(es)), r, ActionThreshold, ActionTable)
    ensures r.count == Occurrences(ActionPairs(es), (r.expected, r.wrongPredicted)) >= 2
    ensures Differs(r.expected, r.wrongPredicted)
    ensures r.reason.None?
  {
    ActionConfusionTotal(es, r.expected, r.wrongPredicted);
  }

  /** A parameter rule exists exactly for a key at least two rows expect and do not get. */
  lemma ParameterRuleMeaning(es: seq<ErrorRow>, k: string)
    ensures CountAtLeast(MissingCounts(es), CountRule(k, MissingIn(es, k), CountText(ParameterTable, k)), ParameterThreshold, ParameterTable)
            <==> MissingIn(es, k) >= 2
  {
    MissingCountsMeaning(es, k);
  }

  /** A phrasing rule exists exactly for a token seen at least four times. */
  lemma PhrasingRuleMeaning(es: seq<ErrorRow>, k: string)
    ensures CountAtLeast(Frequent(Tally(Tokens(es))), CountRule(k, Occurrences(Tokens(es), k), CountText(PhrasingTable, k)),
                         PhrasingThreshold, PhrasingTable)
            <==> Occurrences(Tokens(es), k) >= 4
  {
    FrequentMeaning(es, k);
  }
}
