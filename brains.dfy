/**
 * The three learning brains. Each keeps one activity counter and three
 * meta values (cumulative learning, confidence level, memory factor). The
 * knowledge, pattern and skill brains run the same state machine and
 * differ only in their thresholds, rates and texts, so one class carries
 * them all and its kind selects the constants.
 */
module Brains {
  import opened Text

  datatype Kind = Knowledge | Pattern | Skill

  /** The brain's name in its insights. */
  function Name(k: Kind): string {
    match k
    case Knowledge => "knowledge"
    case Pattern => "pattern"
    case Skill => "skill"
  }

  /** The state key of the counter. */
  function CounterName(k: Kind): string {
    match k
    case Knowledge => "docs_indexed"
    case Pattern => "patterns_detected"
    case Skill => "skills_learned"
  }

  /** The key of an update that feeds the counter. */
  function InputKey(k: Kind): string {
    match k
    case Knowledge => "docs_added"
    case Pattern => "patterns"
    case Skill => "skills"
  }

  /** `data.get(key, 0)` for the brain's input key. */
  function Added(k: Kind, data: map<string, int>): int {
    if InputKey(k) in data then data[InputKey(k)] else 0
  }

  // ---------------------------------------------------------------------------
  // Activity tiers: `analyze` and `score`
  // ---------------------------------------------------------------------------

  /** The tier of a counter value: the branch of `analyze` and of `score` it takes. */
  function Tier(k: Kind, n: int): (t: nat)
    ensures t <= 3
    ensures t == 0 <==> n == 0
  {
    if n == 0 then 0
    else
      match k
      case Knowledge => if n < 5 then 1 else if n < 20 then 2 else 3
      case Pattern => if n == 1 then 1 else if n < 5 then 2 else 3
      case Skill => if n < 3 then 1 else if n < 10 then 2 else 3
  }

  /** The insight texts of `analyze`, tier by tier. */
  const KnowledgeNone := "No documents processed yet."
  const KnowledgeSmall := "Small document activity."
  const KnowledgeModerate := "Moderate document ingestion."
  const KnowledgeHigh := "High document ingestion — ORKO is learning a lot."
  const PatternNone := "No patterns detected."
  const PatternOne := "One pattern detected — good start."
  const PatternRepeated := " repeated patterns found."
  const PatternStrong := "Strong pattern activity — ORKO sees correlations."
  const SkillNone := "No skills triggered yet."
  const SkillSome := "Some skills executed — early reinforcement."
  const SkillSteady := "Skill execution is increasing steadily."
  const SkillHigh := "High-skill activity — automation strength rising."

  /** `analyze`: the insight text of the tier. */
  function Insight(k: Kind, n: int): string {
    match k
    case Knowledge =>
      if n == 0 then KnowledgeNone
      else if n < 5 then KnowledgeSmall
      else if n < 20 then KnowledgeModerate
      else KnowledgeHigh
    case Pattern =>
      if n == 0 then PatternNone
      else if n == 1 then PatternOne
      else if n < 5 then IntText(n) + PatternRepeated
      else PatternStrong
    case Skill =>
      if n == 0 then SkillNone
      else if n < 3 then SkillSome
      else if n < 10 then SkillSteady
      else SkillHigh
  }

  /** The result of `score`. */
  datatype Score = Score(confidence: real, weight: real)

  /** The confidence of each tier. */
  function TierConfidence(k: Kind, t: nat): real
    requires t <= 3
  {
    match k
    case Knowledge => [0.0, 0.25, 0.5, 0.75][t]
    case Pattern => [0.0, 0.2, 0.4, 0.7][t]
    case Skill => [0.0, 0.3, 0.6, 0.85][t]
  }

  /** `score`: the tier's confidence, and a weight growing with the counter. */
  function ScoreOf(k: Kind, n: int): Score {
    var t := Tier(k, n);
    var weight :=
      match k
      case Knowledge => [0.0, n as real, n as real * 1.2, n as real * 1.5][t]
      case Pattern => [0.0, 1.0, n as real * 1.1, n as real * 1.4][t]
      case Skill => [0.0, n as real, n as real * 1.2, n as real * 1.6][t]
    ;
    Score(TierConfidence(k, t), weight)
  }

  /** `analyze` and `score` cut the counter at the same places. */
  lemma InsightFollowsTier(k: Kind, a: int, b: int)
    requires Tier(k, a) == Tier(k, b) && (k == Pattern ==> Tier(k, a) != 2)
    ensures Insight(k, a) == Insight(k, b)
    ensures ScoreOf(k, a).confidence == ScoreOf(k, b).confidence
  {
    match k
    case Knowledge =>
    case Pattern =>
    case Skill =>
  }

  /** More activity never lowers the tier, and so never lowers the confidence. */
  lemma TierMonotone(k: Kind, a: int, b: int)
    requires 0 <= a <= b
    ensures Tier(k, a) <= Tier(k, b)
    ensures ScoreOf(k, a).confidence <= ScoreOf(k, b).confidence
  {
  }

  /** The confidence is 0 exactly without activity, and never above 0.85. */
  lemma ConfidenceBounds(k: Kind, n: int)
    ensures 0.0 <= ScoreOf(k, n).confidence <= 0.85
    ensures ScoreOf(k, n).confidence == 0.0 <==> n == 0
  {
  }

  /** For a non-negative counter the weight lies between the counter and 1.6 times it. */
  lemma WeightBounds(k: Kind, n: int)
    requires n >= 0
    ensures n as real <= ScoreOf(k, n).weight <= 1.6 * n as real
  {
  }

  // ---------------------------------------------------------------------------
  // Meta learning: `apply_learning` and `decay_long_term`
  // ---------------------------------------------------------------------------

  /** The meta dictionary. */
  datatype Meta = Meta(cumulative: real, confidence: real, memory: real)

  const InitialMeta := Meta(0.0, 0.0, 1.0)

  /** The meta values stay in their ranges. */
  predicate Sound(m: Meta) {
    m.cumulative >= 0.0 && 0.0 <= m.confidence <= 1.0 && 0.5 <= m.memory <= 2.0
  }

  /** The rates of one kind of brain. */
  datatype Rates = Rates(
    growCumulative: real, growConfidence: real, growMemory: real,
    dropConfidence: real, dropMemory: real,
    keepCumulative: real, keepMemory: real, keepConfidence: real)

  function RatesOf(k: Kind): Rates {
    match k
    case Knowledge => Rates(1.0, 0.1, 0.05, 0.05, 0.02, 0.98, 0.995, 0.995)
    case Pattern => Rates(0.8, 0.08, 0.04, 0.04, 0.015, 0.985, 0.997, 0.997)
    case Skill => Rates(1.2, 0.12, 0.06, 0.06, 0.025, 0.975, 0.994, 0.994)
  }

  function Min(a: real, b: real): real {
    if a <= b then a else b
  }

  function Max(a: real, b: real): real {
    if a >= b then a else b
  }

  /**
   * The meta after `apply_learning(s)`: growth from 0.5 on, capped at 1 and 2;
   * decay below 0.25, floored at 0 and 0.5; no change in between.
   */
  function Learn(k: Kind, m: Meta, s: real): Meta {
    var r := RatesOf(k);
    if s >= 0.5 then
      Meta(m.cumulative + s * r.growCumulative,
           Min(1.0, m.confidence + s * r.growConfidence),
           Min(2.0, m.memory + s * r.growMemory))
    else if s < 0.25 then
      Meta(m.cumulative, Max(0.0, m.confidence - r.dropConfidence), Max(0.5, m.memory - r.dropMemory))
    else m
  }

  /** The meta after `decay_long_term`. */
  function LongTerm(k: Kind, m: Meta): Meta {
    var r := RatesOf(k);
    Meta(Max(0.0, m.cumulative * r.keepCumulative),
         Min(1.0, m.confidence * r.keepConfidence),
         Max(0.5, m.memory * r.keepMemory))
  }

  /** Learning and long-term decay keep a sound brain sound. */
  lemma LearnSound(k: Kind, m: Meta, s: real)
    requires Sound(m)
    ensures Sound(Learn(k, m, s))
  {
  }

  lemma LongTermSound(k: Kind, m: Meta)
    requires Sound(m)
    ensures Sound(LongTerm(k, m))
  {
  }

  /**
   * Strong learning raises every meta value (cumulative strictly), weak
   * learning lowers confidence and memory and keeps cumulative, and the
   * band in between changes nothing.
   */
  lemma LearnDirection(k: Kind, m: Meta, s: real)
    requires Sound(m)
    ensures var m' := Learn(k, m, s);
            (s >= 0.5 ==> m'.cumulative > m.cumulative && m'.confidence >= m.confidence && m'.memory >= m.memory)
            && (s < 0.25 ==> m'.cumulative == m.cumulative && m'.confidence <= m.confidence && m'.memory <= m.memory)
            && (0.25 <= s < 0.5 ==> m' == m)
  {
  }

  /** Weak learning reaches the floors only from near them: confidence hits 0 iff it was at most the drop. */
  lemma DecayFloors(k: Kind, m: Meta, s: real)
    requires s < 0.25
    ensures Learn(k, m, s).confidence == 0.0 <==> m.confidence <= RatesOf(k).dropConfidence
    ensures Learn(k, m, s).memory == 0.5 <==> m.memory <= 0.5 + RatesOf(k).dropMemory
  {
  }

  /** Long-term decay never raises a sound meta value. */
  lemma LongTermShrinks(k: Kind, m: Meta)
    requires Sound(m)
    ensures var m' := LongTerm(k, m);
            m'.cumulative <= m.cumulative && m'.confidence <= m.confidence && m'.memory <= m.memory
    ensures m.cumulative > 0.0 ==> LongTerm(k, m).cumulative < m.cumulative
  {
  }

  /** What `collect_insights` reports. */
  datatype Insights = Insights(brain: string, counter: string, value: int)

  /** One brain: its kind, its counter and its meta values. */
  class Brain {
    const kind: Kind
    var count: int
    var meta: Meta

    constructor (kind: Kind)
      ensures this.kind == kind && count == 0 && meta == InitialMeta
      ensures Sound(meta)
    {
      this.kind := kind;
      count := 0;
      meta := InitialMeta;
    }

    /** `load_state`. */
    function State(): map<string, int>
      reads this
    {
      map[CounterName(kind) := count]
    }

    /** `update`: the counter grows by the update's value for its key, 0 when absent. */
    method Update(data: map<string, int>) returns (state: map<string, int>)
      modifies this
      ensures count == old(count) + Added(kind, data) && meta == old(meta)
      ensures state == State()
    {
      count := count + Added(kind, data);
      state := State();
    }

    /** `collect_insights`. */
    function CollectInsights(): Insights
      reads this
    {
      Insights(Name(kind), CounterName(kind), count)
    }

    /** `analyze`. */
    function Analyze(): string
      reads this
    {
      Insight(kind, count)
    }

    /** `score`. */
    function Score(): Score
      reads this
    {
      ScoreOf(kind, count)
    }

    /** `apply_learning`: the meta values are updated one at a time. */
    method ApplyLearning(strength: real)
      modifies this
      ensures meta == Learn(kind, old(meta), strength) && count == old(count)
    {
      var r := RatesOf(kind);
      if strength >= 0.5 {
        meta := meta.(cumulative := meta.cumulative + strength * r.growCumulative);
        meta := meta.(confidence := Min(1.0, meta.confidence + strength * r.growConfidence));
        meta := meta.(memory := Min(2.0, meta.memory + strength * r.growMemory));
      } else if strength < 0.25 {
        meta := meta.(confidence := Max(0.0, meta.confidence - r.dropConfidence));
        meta := meta.(memory := Max(0.5, meta.memory - r.dropMemory));
      }
    }

    /** `decay_long_term`. */
    method DecayLongTerm()
      modifies this
      ensures meta == LongTerm(kind, old(meta)) && count == old(count)
    {
      var r := RatesOf(kind);
      meta := meta.(cumulative := Max(0.0, meta.cumulative * r.keepCumulative));
      meta := meta.(memory := Max(0.5, meta.memory * r.keepMemory));
      meta := meta.(confidence := Min(1.0, meta.confidence * r.keepConfidence));
    }
  }
}
