/**
 * The domain weakness detector: for every domain of the per-domain
 * precision/recall/F1 table it adds up a severity score from threshold
 * checks, false-negative excess, misclassification density, drift and the
 * most frequent confusion, grades the score, recommends actions, and
 * finally orders the domains from most to least severe.
 */
module WeaknessDetection {
  import opened Wrappers
  import opened Ordering

  /** One row of `per_domain_prf` (a missing key reads as 0). */
  datatype DomainScores = DomainScores(precision: real, recall: real, f1: real, tp: nat, fp: nat, fn: nat)

  /** A confusion-matrix row in insertion order: (predicted domain, count) pairs. */
  type ConfusionRow = seq<(string, nat)>

  datatype WeaknessEntry = WeaknessEntry(
    domain: string,
    precision: real, recall: real, f1: real,
    tp: nat, fp: nat, fn: nat,
    severity: string,
    weaknessScore: real,
    reasons: seq<string>,
    confusedWith: seq<(string, nat)>,
    actions: seq<string>)

  // ---------------------------------------------------------------------------
  // The score, contribution by contribution
  // ---------------------------------------------------------------------------

  function MinReal(a: real, b: real): real {
    if a <= b then a else b
  }

  /** Low F1: `(0.80 - f) * 1.2` below 0.80. */
  function F1Part(f: real): (c: real)
    ensures c >= 0.0 && (c > 0.0 <==> f < 0.80)
  {
    if f < 0.80 then (0.80 - f) * 1.2 else 0.0
  }

  function PrecisionPart(p: real): (c: real)
    ensures c >= 0.0 && (c > 0.0 <==> p < 0.75)
  {
    if p < 0.75 then (0.75 - p) * 1.0 else 0.0
  }

  function RecallPart(r: real): (c: real)
    ensures c >= 0.0 && (c > 0.0 <==> r < 0.75)
  {
    if r < 0.75 then (0.75 - r) * 1.1 else 0.0
  }

  /** More misses than wrong predictions: 0.05 per excess miss, at most 1. */
  function FnExcessPart(fp: nat, fn: nat): (c: real)
    ensures 0.0 <= c <= 1.0 && (c > 0.0 <==> fn > fp)
  {
    if fn > fp then MinReal(((fn - fp) as real) * 0.05, 1.0) else 0.0
  }

  /** The share of misclassifications among all counts. */
  function Density(tp: nat, fp: nat, fn: nat): (w: real)
    requires tp + fp + fn > 0
    ensures 0.0 <= w <= 1.0
  {
    Ratio01(fp + fn, tp + fp + fn)
  }

  function Ratio01(a: nat, b: nat): (q: real)
    requires 0 < b && a <= b
    ensures 0.0 <= q <= 1.0
  {
    var q := (a as real) / (b as real);
    assert q * (b as real) == a as real;
    q
  }

  /** Misclassification density, weighted 0.6, when there are any counts. */
  function DensityPart(tp: nat, fp: nat, fn: nat): (c: real)
    ensures 0.0 <= c <= 0.6
  {
    if tp + fp + fn > 0 then Density(tp, fp, fn) * 0.6 else 0.0
  }

  /** The sum of a row's counts. */
  function RowTotal(row: ConfusionRow): nat
    decreases |row|
  {
    if row == [] then 0 else row[0].1 + RowTotal(row[1..])
  }

  /** Drift: the row has predictions and under 40% of them are hits. */
  predicate Drift(tp: nat, row: ConfusionRow) {
    RowTotal(row) > 0 && (tp as real) / (RowTotal(row) as real) < 0.4
  }

  function DriftPart(tp: nat, row: ConfusionRow): (c: real)
    ensures c == 0.0 || c == 0.7
  {
    if Drift(tp, row) then 0.7 else 0.0
  }

  /** The row without the domain's own column. */
  function Others(row: ConfusionRow, dom: string): (r: ConfusionRow)
    ensures forall e :: e in r <==> e in row && e.0 != dom
    ensures |r| <= |row|
    decreases |row|
  {
    if row == [] then []
    else if row[0].0 != dom then [row[0]] + Others(row[1..], dom)
    else Others(row[1..], dom)
  }

  function Count(e: (string, nat)): int {
    e.1
  }

  /** The other domains, most frequent first. */
  function ConfusedWith(row: ConfusionRow, dom: string): (r: ConfusionRow)
    ensures SortedDesc(r, Count)
    ensures multiset(r) == multiset(Others(row, dom))
  {
    SortDesc(Others(row, dom), Count)
  }

  /** The most frequent confusion, 0.1 per occurrence, at most 1. */
  function ConfusionPart(confused: ConfusionRow): (c: real)
    ensures 0.0 <= c <= 1.0
    ensures confused == [] ==> c == 0.0
  {
    if confused == [] then 0.0 else MinReal((confused[0].1 as real) * 0.1, 1.0)
  }

  /** The threshold checks: F1, precision, recall. */
  function ThresholdScore(m: DomainScores): real {
    F1Part(m.f1) + PrecisionPart(m.precision) + RecallPart(m.recall)
  }

  /** The count checks: false-negative excess and misclassification density. */
  function CountScore(m: DomainScores): real {
    FnExcessPart(m.fp, m.fn) + DensityPart(m.tp, m.fp, m.fn)
  }

  /** The confusion-matrix checks: drift and the most frequent confusion. */
  function ConfusionScore(m: DomainScores, row: ConfusionRow, dom: string): real {
    DriftPart(m.tp, row) + ConfusionPart(ConfusedWith(row, dom))
  }

  /**
   * The severity score of one domain: the sum of the seven contributions.
   * Every contribution is non-negative, so the score is too, and a low F1,
   * precision or recall, or more misses than wrong predictions, makes it
   * positive.
   */
  function Score(m: DomainScores, row: ConfusionRow, dom: string): (s: real)
    ensures s >= 0.0
    ensures m.f1 < 0.80 || m.precision < 0.75 || m.recall < 0.75 || m.fn > m.fp ==> s > 0.0
  {
    ThresholdScore(m) + CountScore(m) + ConfusionScore(m, row, dom)
  }

  /** The grade of a score. */
  function Severity(score: real): (s: string)
    ensures s in ["critical", "high", "medium", "low", "healthy"]
    ensures s == "critical" <==> score >= 2.5
    ensures s == "high" <==> 1.6 <= score < 2.5
    ensures s == "medium" <==> 0.9 <= score < 1.6
    ensures s == "low" <==> 0.0 < score < 0.9
    ensures s == "healthy" <==> score <= 0.0
  {
    if score >= 2.5 then "critical"
    else if score >= 1.6 then "high"
    else if score >= 0.9 then "medium"
    else if score > 0.0 then "low"
    else "healthy"
  }

  /** The rank the results are ordered by. */
  function Rank(severity: string): int {
    if severity == "critical" then 4
    else if severity == "high" then 3
    else if severity == "medium" then 2
    else if severity == "low" then 1
    else 0
  }

  const AddExamples := "Add 5–10 new training examples for this domain"
  const ReviewPatterns := "Review prompt+guardrail patterns for this domain"
  const ImproveBoundary := "Improve domain boundary classification patterns"
  const AddSlotRules := "Add slot rules to reduce false negatives"
  const UrgentFewShot := "Urgent: add explicit few-shot examples for this domain"
  const InspectConfusion := "Manually inspect confusion_matrix for domain drift"

  /**
   * The recommended actions for a grade and the miss/wrong-prediction
   * balance: high or critical adds two, an imbalance one, critical two more.
   */
  function Actions(severity: string, fp: nat, fn: nat): (a: seq<string>)
    ensures |a| == (if severity == "high" || severity == "critical" then 2 else 0)
                   + (if fp != fn then 1 else 0)
                   + (if severity == "critical" then 2 else 0)
    ensures severity == "critical" ==> a[|a| - 2..] == [UrgentFewShot, InspectConfusion]
  {
    (if severity == "high" || severity == "critical" then [AddExamples, ReviewPatterns] else [])
    + (if fp > fn then [ImproveBoundary] else [])
    + (if fn > fp then [AddSlotRules] else [])
    + (if severity == "critical" then [UrgentFewShot, InspectConfusion] else [])
  }

  // ---------------------------------------------------------------------------
  // One domain
  // ---------------------------------------------------------------------------

  const LowF1 := "Low F1 score"
  const LowPrecision := "Low precision"
  const LowRecall := "Low recall (likely high FN)"
  const FnHeavy := "High false-negative rate"
  const Dense := "Significant misclassification density"
  const Drifting := "Domain drift detected (low TP ratio)"

  /** The reason naming the most frequent confusion. */
  function ConfusedReason(other: string): string {
    "Frequently confused with '" + other + "'"
  }

  function ThresholdReasons(m: DomainScores): seq<string> {
    (if m.f1 < 0.80 then [LowF1] else [])
    + (if m.precision < 0.75 then [LowPrecision] else [])
    + (if m.recall < 0.75 then [LowRecall] else [])
  }

  function CountReasons(m: DomainScores): seq<string> {
    (if m.fn > m.fp then [FnHeavy] else [])
    + (if m.tp + m.fp + m.fn > 0 && Density(m.tp, m.fp, m.fn) > 0.4 then [Dense] else [])
  }

  function ConfusionReasons(m: DomainScores, row: ConfusionRow, dom: string): seq<string> {
    var confused := ConfusedWith(row, dom);
    (if Drift(m.tp, row) then [Drifting] else [])
    + (if confused != [] then [ConfusedReason(confused[0].0)] else [])
  }

  /** The reasons, in the order the checks add them. */
  function Reasons(m: DomainScores, row: ConfusionRow, dom: string): seq<string> {
    ThresholdReasons(m) + CountReasons(m) + ConfusionReasons(m, row, dom)
  }

  /** The F1, precision and recall checks, as the loop body adds them. */
  method CheckThresholds(m: DomainScores) returns (score: real, reasons: seq<string>)
    ensures score == ThresholdScore(m) && reasons == ThresholdReasons(m)
  {
    reasons := [];
    score := 0.0;
    if m.f1 < 0.80 {
      reasons := reasons + [LowF1];
      score := score + (0.80 - m.f1) * 1.2;
    }
    if m.precision < 0.75 {
      reasons := reasons + [LowPrecision];
      score := score + (0.75 - m.precision) * 1.0;
    }
    if m.recall < 0.75 {
      reasons := reasons + [LowRecall];
      score := score + (0.75 - m.recall) * 1.1;
    }
  }

  /** The false-negative excess and density checks. */
  method CheckCounts(m: DomainScores) returns (score: real, reasons: seq<string>)
    ensures score == CountScore(m) && reasons == CountReasons(m)
  {
    reasons := [];
    score := 0.0;
    if m.fn > m.fp {
      score := score + MinReal(((m.fn - m.fp) as real) * 0.05, 1.0);
      reasons := reasons + [FnHeavy];
    }
    var denom := m.tp + m.fp + m.fn;
    if denom > 0 {
      var weakness := Density(m.tp, m.fp, m.fn);
      score := score + weakness * 0.6;
      if weakness > 0.4 {
        reasons := reasons + [Dense];
      }
    }
  }

  /** The drift and confusion checks on the domain's confusion-matrix row. */
  method CheckConfusion(m: DomainScores, row: ConfusionRow, dom: string) returns (score: real, reasons: seq<string>)
    ensures score == ConfusionScore(m, row, dom) && reasons == ConfusionReasons(m, row, dom)
  {
    reasons := [];
    score := 0.0;
    var totalPredictions := RowTotal(row);
    if totalPredictions > 0 && (m.tp as real) / (totalPredictions as real) < 0.4 {
      reasons := reasons + [Drifting];
      score := score + 0.7;
    }
    var confused := ConfusedWith(row, dom);
    if confused != [] {
      reasons := reasons + [ConfusedReason(confused[0].0)];
      score := score + MinReal((confused[0].1 as real) * 0.1, 1.0);
    }
  }

  /** The score and reasons of one domain, added up in the detector's order. */
  method ScoreDomain(dom: string, m: DomainScores, row: ConfusionRow) returns (score: real, reasons: seq<string>)
    ensures score == Score(m, row, dom)
    ensures reasons == Reasons(m, row, dom)
  {
    var s1, r1 := CheckThresholds(m);
    var s2, r2 := CheckCounts(m);
    var s3, r3 := CheckConfusion(m, row, dom);
    score := s1 + s2 + s3;
    reasons := r1 + r2 + r3;
  }

  /** The recommended actions, appended in the detector's order. */
  method Recommend(severity: string, fp: nat, fn: nat) returns (actions: seq<string>)
    ensures actions == Actions(severity, fp, fn)
  {
    actions := [];
    if severity == "high" || severity == "critical" {
      actions := actions + [AddExamples, ReviewPatterns];
    }
    if fp > fn {
      actions := actions + [ImproveBoundary];
    }
    if fn > fp {
      actions := actions + [AddSlotRules];
    }
    if severity == "critical" {
      actions := actions + [UrgentFewShot, InspectConfusion];
    }
  }

  /** The top three confusions of a row. */
  function TopConfusions(row: ConfusionRow, dom: string): seq<(string, nat)> {
    var all := ConfusedWith(row, dom);
    all[..if |all| < 3 then |all| else 3]
  }

  /** The analysis of one domain: score, grade, reasons, actions and top confusions. */
  function Analysis(dom: string, m: DomainScores, row: ConfusionRow): WeaknessEntry {
    var score := Score(m, row, dom);
    var severity := Severity(score);
    WeaknessEntry(dom, m.precision, m.recall, m.f1, m.tp, m.fp, m.fn, severity, score, Reasons(m, row, dom),
                  TopConfusions(row, dom), Actions(severity, m.fp, m.fn))
  }

  /** One pass of the detector's loop: the entry is the domain's analysis, its counts and scores copied from the table. */
  method AnalyzeDomain(dom: string, m: DomainScores, row: ConfusionRow) returns (e: WeaknessEntry)
    ensures e == Analysis(dom, m, row)
    ensures e.domain == dom && e.tp == m.tp && e.fp == m.fp && e.fn == m.fn
    ensures e.precision == m.precision && e.recall == m.recall && e.f1 == m.f1
    ensures e.weaknessScore == Score(m, row, dom)
    ensures e.reasons == Reasons(m, row, dom)
    ensures e.severity == Severity(Score(m, row, dom))
    ensures e.actions == Actions(e.severity, m.fp, m.fn)
    ensures e.confusedWith == TopConfusions(row, dom)
  {
    var score, reasons := ScoreDomain(dom, m, row);
    var severity := Severity(score);
    var actions := Recommend(severity, m.fp, m.fn);
    e := WeaknessEntry(dom, m.precision, m.recall, m.f1, m.tp, m.fp, m.fn, severity, score, reasons,
                       TopConfusions(row, dom), actions);
  }

  // ---------------------------------------------------------------------------
  // All domains
  // ---------------------------------------------------------------------------

  function Severe(e: WeaknessEntry): int {
    Rank(e.severity)
  }

  /** `confusion.get(dom, {})`. */
  function RowOf(confusion: map<string, ConfusionRow>, dom: string): ConfusionRow {
    if dom in confusion then confusion[dom] else []
  }

  /** The entry of a table row is its analysis, every field of it. */
  predicate Analyzed(e: WeaknessEntry, row: (string, DomainScores), confusion: map<string, ConfusionRow>) {
    e == Analysis(row.0, row.1, RowOf(confusion, row.0))
  }

  /** The loop over the table: one analysed entry per row, in table order. */
  method AnalyzeAll(prf: seq<(string, DomainScores)>, confusion: map<string, ConfusionRow>)
    returns (entries: seq<WeaknessEntry>)
    ensures |entries| == |prf|
    ensures forall i :: 0 <= i < |prf| ==> Analyzed(entries[i], prf[i], confusion)
  {
    entries := [];
    for i := 0 to |prf|
      invariant |entries| == i
      invariant forall j :: 0 <= j < i ==> Analyzed(entries[j], prf[j], confusion)
    {
      var e := AnalyzeDomain(prf[i].0, prf[i].1, RowOf(confusion, prf[i].0));
      assert Analyzed(e, prf[i], confusion);
      entries := entries + [e];
    }
  }

  /**
   * `detect_weak_domains`: one entry per row of the table, then a stable
   * sort by severity rank, most severe first.
   */
  method DetectWeakDomains(prf: seq<(string, DomainScores)>, confusion: map<string, ConfusionRow>)
    returns (results: seq<WeaknessEntry>)
    ensures |results| == |prf|
    ensures SortedDesc(results, Severe)
    ensures forall e :: e in results ==> exists i :: 0 <= i < |prf| && Analyzed(e, prf[i], confusion)
    ensures forall i :: 0 <= i < |prf| ==> exists e :: e in results && Analyzed(e, prf[i], confusion)
  {
    var entries := AnalyzeAll(prf, confusion);
    results := SortDesc(entries, Severe);
    ReorderedAnalysis(prf, confusion, entries, results);
  }

  /** Reordering the entries keeps one entry per domain and nothing else. */
  lemma ReorderedAnalysis(prf: seq<(string, DomainScores)>, confusion: map<string, ConfusionRow>,
                          entries: seq<WeaknessEntry>, results: seq<WeaknessEntry>)
    requires |entries| == |prf|
    requires forall i :: 0 <= i < |prf| ==> Analyzed(entries[i], prf[i], confusion)
    requires multiset(results) == multiset(entries)
    ensures forall e :: e in results ==> exists i :: 0 <= i < |prf| && Analyzed(e, prf[i], confusion)
    ensures forall i :: 0 <= i < |prf| ==> exists e :: e in results && Analyzed(e, prf[i], confusion)
  {
    forall e | e in results
      ensures exists i :: 0 <= i < |prf| && Analyzed(e, prf[i], confusion)
    {
      assert e in multiset(entries);
      var j :| 0 <= j < |entries| && entries[j] == e;
    }
    forall i | 0 <= i < |prf|
      ensures exists e :: e in results && Analyzed(e, prf[i], confusion)
    {
      assert entries[i] in multiset(results);
    }
  }

  // ---------------------------------------------------------------------------
  // What the grading promises
  // ---------------------------------------------------------------------------

  /** A domain is healthy exactly when it scores 0. */
  lemma HealthyIffZero(m: DomainScores, row: ConfusionRow, dom: string)
    ensures Severity(Score(m, row, dom)) == "healthy" <==> Score(m, row, dom) == 0.0
  {
  }

  /** The confusions listed exclude the domain itself, come most frequent first, and number at most three. */
  lemma ConfusedWithShape(row: ConfusionRow, dom: string, e: WeaknessEntry)
    requires e.confusedWith == TopConfusions(row, dom)
    ensures |e.confusedWith| <= 3
    ensures forall c :: c in e.confusedWith ==> c.0 != dom && c in row
    ensures SortedDesc(e.confusedWith, Count)
  {
    var all := ConfusedWith(row, dom);
    forall c | c in e.confusedWith
      ensures c.0 != dom && c in row
    {
      assert c in multiset(all);
      assert c in multiset(Others(row, dom));
    }
  }

  /** The contribution of the top confusion is that of the most frequent other domain. */
  lemma TopConfusionIsMostFrequent(row: ConfusionRow, dom: string, c: (string, nat))
    requires c in row && c.0 != dom
    ensures ConfusedWith(row, dom) != [] && ConfusedWith(row, dom)[0].1 >= c.1
  {
    var all := ConfusedWith(row, dom);
    assert c in Others(row, dom);
    assert c in multiset(Others(row, dom));
    assert c in multiset(all);
    FirstIsLargest(all, Count, c);
  }
}
