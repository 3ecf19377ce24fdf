/**
 * The learning engine: it feeds timeline events to the three brains, writes
 * a journal entry for every step, turns scores and insights into one
 * learning strength, applies it to the brains, clamps them, and decays them
 * every fifth journal entry. The journal is the in-memory list of entries.
 */
module LearningEngine {
  import opened Wrappers
  import opened Text
  import opened Json
  import opened Brains

  /** What an entry's metadata holds; lists are in the order knowledge, pattern, skill. */
  datatype Metadata =
    | EventMeta(event: Obj, mapped: Mapped)
    | InsightsMeta(insights: seq<Insights>)
    | HeuristicsMeta(texts: seq<string>)
    | ScoresMeta(scores: seq<Score>)
    | StrengthMeta(confidenceAvg: real, weightNormalized: real, heuristicSignal: real, learningStrength: real)
    | MetasMeta(metas: seq<Meta>, strength: Option<real>)

  /** A journal entry without its random id and its clock timestamp. */
  datatype Entry = Entry(brain: Json, summary: Json, metadata: Metadata)

  /** The update `map_event_type` produces: brain name to update data. */
  type Mapped = map<string, map<string, int>>

  // ---------------------------------------------------------------------------
  // Helpers
  // ---------------------------------------------------------------------------

  const MaxValue: real := 50.0

  /** `normalize`: the value capped at the maximum, as a fraction of it. */
  function Normalize(value: real, maxValue: real): (r: real)
    requires maxValue != 0.0
    ensures 0.0 <= value && 0.0 < maxValue ==> 0.0 <= r <= 1.0
    ensures 0.0 < maxValue ==> (r == 1.0 <==> value >= maxValue)
    ensures 0.0 < maxValue && value < maxValue ==> r * maxValue == value
  {
    Min(value, maxValue) / maxValue
  }

  /**
   * What one insight adds to the heuristic signal: 1 when its lower-cased
   * text mentions "high", else 0.5 when it mentions "moderate", else 0 (the
   * source's "no" branch adds 0 too).
   */
  function Points(text: string): (p: real)
    ensures p == 0.0 || p == 0.5 || p == 1.0
  {
    var t := Lower(text);
    if Contains(t, "high") then 1.0
    else if Contains(t, "moderate") then 0.5
    else 0.0
  }

  /** The points of the insights, summed in order. */
  function Total(texts: seq<string>): real
    decreases |texts|
  {
    if texts == [] then 0.0 else Total(texts[..|texts| - 1]) + Points(texts[|texts| - 1])
  }

  /** Every insight adds between 0 and 1. */
  lemma {:induction false} TotalBounds(texts: seq<string>)
    ensures 0.0 <= Total(texts) <= |texts| as real
    decreases |texts|
  {
    if texts != [] {
      TotalBounds(texts[..|texts| - 1]);
    }
  }

  /** `heuristic_signal`. */
  method HeuristicSignal(texts: seq<string>) returns (signal: real)
    ensures signal == Total(texts) / 3.0
  {
    var sum := 0.0;
    for i := 0 to |texts|
      invariant sum == Total(texts[..i])
    {
      assert texts[..i + 1][..i] == texts[..i];
      sum := sum + Points(texts[i]);
    }
    assert texts[..|texts|] == texts;
    signal := sum / 3.0;
  }

  /** The signal of `n` insights lies in [0, n/3]. */
  lemma SignalBounds(texts: seq<string>)
    ensures 0.0 <= Total(texts) / 3.0 <= |texts| as real / 3.0
  {
    TotalBounds(texts);
  }

  /** `apply_stability_rules` for one brain: confidence into [0, 1], memory into [0.5, 2]. */
  function Clamp(m: Meta): Meta {
    Meta(m.cumulative, Min(1.0, Max(0.0, m.confidence)), Min(2.0, Max(0.5, m.memory)))
  }

  /**
   * Clamping puts confidence and memory in range and keeps cumulative, so it
   * makes a meta with non-negative cumulative sound; it changes a meta
   * exactly when confidence or memory is out of range.
   */
  lemma ClampSound(m: Meta)
    ensures Clamp(m).cumulative == m.cumulative
    ensures m.cumulative >= 0.0 ==> Sound(Clamp(m))
    ensures Clamp(m) == m <==> 0.0 <= m.confidence <= 1.0 && 0.5 <= m.memory <= 2.0
  {
  }

  /** `apply_diminishing_returns` with `count` journal entries. */
  function Diminished(count: nat, strength: real): real {
    if count > 25 then strength * 0.8 else strength
  }

  /** A non-zero strength is scaled down exactly after 25 entries. */
  lemma DiminishedIff(count: nat, strength: real)
    requires strength != 0.0
    ensures Diminished(count, strength) == strength * 0.8 <==> count > 25
    ensures Diminished(count, strength) == strength <==> count <= 25
  {
  }

  // ---------------------------------------------------------------------------
  // Event mapping
  // ---------------------------------------------------------------------------

  /** `event.get("brain") or event.get("tag") or ""`. */
  function Tag(event: Obj): Json {
    Or(Or(Get(event, "brain"), Get(event, "tag")), JStr(""))
  }

  /** The update for a lower-cased tag. */
  function UpdateFor(tag: string): Mapped {
    if tag == "knowledge" then map["knowledge" := map["docs_added" := 1]]
    else if tag == "pattern" then map["pattern" := map["patterns" := 1]]
    else if tag == "skill" then map["skill" := map["skills" := 1]]
    else map["system" := map[]]
  }

  /** `map_event_type`; None where `.lower()` fails because the tag is not a string. */
  function MapEventType(event: Obj): (r: Option<Mapped>)
    ensures r.Some? <==> Tag(event).JStr?
    ensures r.Some? ==> |r.value| == 1
  {
    match Tag(event)
    case JStr(s) => Some(UpdateFor(Lower(s)))
    case _ => None
  }

  /** How much an update adds to the brain of kind `k`. */
  function Increment(mapped: Mapped, k: Kind): int {
    if Name(k) in mapped then Added(k, mapped[Name(k)]) else 0
  }

  /** The brain the tag names gets one more, every other brain nothing. */
  lemma EventTargetsOneBrain(event: Obj, k: Kind)
    requires MapEventType(event).Some?
    ensures Increment(MapEventType(event).value, k) == if Lower(Tag(event).s) == Name(k) then 1 else 0
  {
  }

  /** A tag that names no brain maps to the system update. */
  lemma UnknownTagIsSystem(event: Obj)
    requires Tag(event).JStr?
    requires forall k: Kind :: Lower(Tag(event).s) != Name(k)
    ensures MapEventType(event) == Some(map["system" := map[]])
  {
    assert Lower(Tag(event).s) != Name(Knowledge);
    assert Lower(Tag(event).s) != Name(Pattern);
    assert Lower(Tag(event).s) != Name(Skill);
  }

  /** The entry `process_event` writes. */
  function EventEntry(event: Obj, mapped: Mapped): Entry {
    Entry(GetOr(event, "brain", JStr("system")), GetOr(event, "title", JStr("Timeline event processed")),
          EventMeta(event, mapped))
  }

  /** Every event maps. */
  predicate AllMapped(events: seq<Obj>) {
    forall i :: 0 <= i < |events| ==> MapEventType(events[i]).Some?
  }

  /** What a batch of events adds to the brain of kind `k`. */
  function Tally(events: seq<Obj>, k: Kind): int
    requires AllMapped(events)
    decreases |events|
  {
    if events == [] then 0
    else
      var init := events[..|events| - 1];
      assert AllMapped(init) by {
        forall i | 0 <= i < |init| ensures MapEventType(init[i]).Some? {
          assert init[i] == events[i];
        }
      }
      Tally(init, k) + Increment(MapEventType(events[|events| - 1]).value, k)
  }

  /** Each event feeds at most one brain, so the three tallies add up to at most the batch size. */
  lemma {:induction false} TallyBounds(events: seq<Obj>)
    requires AllMapped(events)
    ensures Tally(events, Knowledge) >= 0 && Tally(events, Pattern) >= 0 && Tally(events, Skill) >= 0
    ensures Tally(events, Knowledge) + Tally(events, Pattern) + Tally(events, Skill) <= |events|
    decreases |events|
  {
    if events != [] {
      var init := events[..|events| - 1];
      var last := events[|events| - 1];
      assert AllMapped(init) by {
        forall i | 0 <= i < |init| ensures MapEventType(init[i]).Some? {
          assert init[i] == events[i];
        }
      }
      TallyBounds(init);
      EventTargetsOneBrain(last, Knowledge);
      EventTargetsOneBrain(last, Pattern);
      EventTargetsOneBrain(last, Skill);
    }
  }

  /** Extending a batch by one event adds that event's increment. */
  lemma TallyStep(events: seq<Obj>, i: nat)
    requires i < |events| && AllMapped(events[..i]) && MapEventType(events[i]).Some?
    ensures AllMapped(events[..i + 1])
    ensures forall k :: Tally(events[..i + 1], k) == Tally(events[..i], k) + Increment(MapEventType(events[i]).value, k)
  {
    assert events[..i + 1][..i] == events[..i];
    var ext := events[..i + 1];
    forall j | 0 <= j < |ext| ensures MapEventType(ext[j]).Some? {
      if j < i {
        assert ext[j] == events[..i][j];
      }
    }
  }

  /** The entries `process_event` writes for a batch of events, in order. */
  function EventEntries(events: seq<Obj>): (r: seq<Entry>)
    requires AllMapped(events)
    ensures |r| == |events|
    decreases |events|
  {
    if events == [] then []
    else
      var init := events[..|events| - 1];
      assert AllMapped(init) by {
        forall i | 0 <= i < |init| ensures MapEventType(init[i]).Some? {
          assert init[i] == events[i];
        }
      }
      var last := events[|events| - 1];
      EventEntries(init) + [EventEntry(last, MapEventType(last).value)]
  }

  /** One entry per event, each the entry of its own event. */
  lemma {:induction false} EventEntriesAt(events: seq<Obj>)
    requires AllMapped(events)
    ensures |EventEntries(events)| == |events|
    ensures forall i :: 0 <= i < |events| ==>
              EventEntries(events)[i] == EventEntry(events[i], MapEventType(events[i]).value)
    decreases |events|
  {
    if events != [] {
      var init := events[..|events| - 1];
      assert AllMapped(init) by {
        forall i | 0 <= i < |init| ensures MapEventType(init[i]).Some? {
          assert init[i] == events[i];
        }
      }
      EventEntriesAt(init);
      forall i | 0 <= i < |events| - 1
        ensures EventEntries(events)[i] == EventEntry(events[i], MapEventType(events[i]).value)
      {
        assert init[i] == events[i];
      }
    }
  }

  /** Extending a batch by one event appends that event's entry. */
  lemma EventEntriesStep(events: seq<Obj>, i: nat)
    requires i < |events| && AllMapped(events[..i]) && MapEventType(events[i]).Some?
    ensures AllMapped(events[..i + 1])
    ensures EventEntries(events[..i + 1]) == EventEntries(events[..i]) + [EventEntry(events[i], MapEventType(events[i]).value)]
  {
    TallyStep(events, i);
    assert events[..i + 1][..i] == events[..i];
  }

  // ---------------------------------------------------------------------------
  // Learning strength and the cycle's effect on a brain
  // ---------------------------------------------------------------------------

  /** The integer nearest to `y`, a tie going to the even one. */
  function RoundHalfEven(y: real): (n: int)
    ensures -0.5 <= n as real - y <= 0.5
    ensures y - y.Floor as real == 0.5 ==> n % 2 == 0
  {
    var f := y.Floor;
    if y - f as real > 0.5 || (y - f as real == 0.5 && f % 2 == 1) then f + 1 else f
  }

  /** Rounding to an integer keeps a value between two integers between them. */
  lemma RoundHalfEvenWithin(y: real, lo: int, hi: int)
    requires lo as real <= y <= hi as real
    ensures lo <= RoundHalfEven(y) <= hi
  {
    var f := y.Floor;
    assert lo <= f <= hi;
    if RoundHalfEven(y) == f + 1 {
      assert f as real < y;
    }
  }

  /**
   * `round(x, 4)` on the exact value: the nearest multiple of 0.0001, a tie
   * going to the even multiple.
   */
  function Round4(x: real): (r: real)
    ensures r == RoundHalfEven(x * 10000.0) as real / 10000.0
    ensures -0.00005 <= r - x <= 0.00005
  {
    RoundHalfEven(x * 10000.0) as real / 10000.0
  }

  /** Rounding keeps a value between two multiples of 0.0001 between them. */
  lemma Round4Within(x: real, lo: int, hi: int)
    requires lo as real / 10000.0 <= x <= hi as real / 10000.0
    ensures lo as real / 10000.0 <= Round4(x) <= hi as real / 10000.0
  {
    RoundHalfEvenWithin(x * 10000.0, lo, hi);
  }

  /** A multiple of 0.0001 is its own rounding. */
  lemma Round4Exact(n: int)
    ensures Round4(n as real / 10000.0) == n as real / 10000.0
  {
    assert (n as real / 10000.0) * 10000.0 == n as real;
  }

  /**
   * `compute_learning_strength` from the three scores and insights: 0.6 of
   * the mean confidence, 0.3 of the normalised total weight and 0.1 of the
   * heuristic signal, rounded to four decimals; the parts are not rounded.
   */
  function StrengthOf(scores: seq<Score>, texts: seq<string>): Metadata
    requires |scores| == 3
  {
    var avg := (scores[0].confidence + scores[1].confidence + scores[2].confidence) / 3.0;
    var weight := Normalize(scores[0].weight + scores[1].weight + scores[2].weight, MaxValue);
    var signal := Total(texts) / 3.0;
    StrengthMeta(avg, weight, signal, Strength(avg, weight, signal))
  }

  /** The strength metadata is made of the mean confidence, the normalised weight and the signal. */
  lemma StrengthOfParts(scores: seq<Score>, texts: seq<string>, avg: real, weight: real, signal: real)
    requires |scores| == 3
    requires avg == (scores[0].confidence + scores[1].confidence + scores[2].confidence) / 3.0
    requires weight == Normalize(scores[0].weight + scores[1].weight + scores[2].weight, MaxValue)
    requires signal == Total(texts) / 3.0
    ensures StrengthOf(scores, texts) == StrengthMeta(avg, weight, signal, Strength(avg, weight, signal))
  {
  }

  /** The learning strength of its three parts, rounded to four decimals. */
  function Strength(avg: real, weight: real, signal: real): real {
    Round4(avg * 0.6 + weight * 0.3 + signal * 0.1)
  }

  /** The strength of brains with the counters `kc`, `pc` and `sc`. */
  function StrengthFor(kc: int, pc: int, sc: int): Metadata {
    StrengthOf([ScoreOf(Knowledge, kc), ScoreOf(Pattern, pc), ScoreOf(Skill, sc)],
               [Insight(Knowledge, kc), Insight(Pattern, pc), Insight(Skill, sc)])
  }

  /** With non-negative counters every part and the strength lie in [0, 1]; the strength stays below 0.87. */
  lemma StrengthBounds(kc: int, pc: int, sc: int)
    requires kc >= 0 && pc >= 0 && sc >= 0
    ensures var m := StrengthFor(kc, pc, sc);
            0.0 <= m.confidenceAvg <= 0.85 && 0.0 <= m.weightNormalized <= 1.0 && 0.0 <= m.heuristicSignal <= 1.0
            && 0.0 <= m.learningStrength <= 0.87
  {
    ConfidenceBounds(Knowledge, kc);
    ConfidenceBounds(Pattern, pc);
    ConfidenceBounds(Skill, sc);
    WeightBounds(Knowledge, kc);
    WeightBounds(Pattern, pc);
    WeightBounds(Skill, sc);
    SignalBounds([Insight(Knowledge, kc), Insight(Pattern, pc), Insight(Skill, sc)]);
    var m := StrengthFor(kc, pc, sc);
    Round4Within(m.confidenceAvg * 0.6 + m.weightNormalized * 0.3 + m.heuristicSignal * 0.1, 0, 8700);
  }

  /** A brain's meta after one cycle: learning, clamping, and the long-term decay when it fires. */
  function AfterCycle(k: Kind, m: Meta, strength: real, decays: bool): Meta {
    var c := Clamp(Learn(k, m, strength));
    if decays then LongTerm(k, c) else c
  }

  /** The cycle keeps a sound brain sound, and the stability rules then never change anything. */
  lemma AfterCycleSound(k: Kind, m: Meta, strength: real, decays: bool)
    requires Sound(m)
    ensures Sound(AfterCycle(k, m, strength, decays))
    ensures AfterCycle(k, m, strength, decays) == if decays then LongTerm(k, Learn(k, m, strength)) else Learn(k, m, strength)
  {
    LearnSound(k, m, strength);
    ClampSound(Learn(k, m, strength));
    LongTermSound(k, Learn(k, m, strength));
  }

  /** What `process_events` returns. */
  datatype Batch = Batch(heuristics: Entry, scores: Entry, learningStrength: Entry)

  /** What `run_cycle` returns. */
  datatype Cycle = Cycle(snapshot: Entry, heuristics: Entry, scores: Entry, learningStrength: Entry, meta: Entry, decay: Option<Entry>)

  const System := JStr("system")

  // ---------------------------------------------------------------------------
  // The engine
  // ---------------------------------------------------------------------------

  class Engine {
    var journal: seq<Entry>
    const knowledge: Brain
    const pattern: Brain
    const skill: Brain

    /** Each brain is of its own kind. */
    predicate Wired() {
      knowledge.kind == Knowledge && pattern.kind == Pattern && skill.kind == Skill
    }

    /** The brains are wired, every counter is non-negative and every meta sound. */
    ghost predicate Valid()
      reads this, knowledge, pattern, skill
    {
      Wired()
      && knowledge.count >= 0 && pattern.count >= 0 && skill.count >= 0
      && Sound(knowledge.meta) && Sound(pattern.meta) && Sound(skill.meta)
    }

    /** A new engine over the journal loaded so far, with fresh brains. */
    constructor (loaded: seq<Entry>)
      ensures Valid() && journal == loaded
      ensures fresh(knowledge) && fresh(pattern) && fresh(skill)
      ensures knowledge.count == 0 && pattern.count == 0 && skill.count == 0
      ensures knowledge.meta == InitialMeta && pattern.meta == InitialMeta && skill.meta == InitialMeta
    {
      journal := loaded;
      knowledge := new Brain(Knowledge);
      pattern := new Brain(Pattern);
      skill := new Brain(Skill);
    }

    function Metas(): seq<Meta>
      reads knowledge, pattern, skill
    {
      [knowledge.meta, pattern.meta, skill.meta]
    }

    /** `collect_all_insights`. */
    function CollectAllInsights(): seq<Insights>
      reads knowledge, pattern, skill
    {
      [knowledge.CollectInsights(), pattern.CollectInsights(), skill.CollectInsights()]
    }

    /** `run_heuristics`. */
    function RunHeuristics(): seq<string>
      reads knowledge, pattern, skill
    {
      [knowledge.Analyze(), pattern.Analyze(), skill.Analyze()]
    }

    /** `run_scores`. */
    function RunScores(): seq<Score>
      reads knowledge, pattern, skill
    {
      [knowledge.Score(), pattern.Score(), skill.Score()]
    }

    /** `generate_journal_entry`: a snapshot of the insights, not yet journalled. */
    function GenerateJournalEntry(): Entry
      reads knowledge, pattern, skill
    {
      Entry(System, JStr("Periodic learning snapshot."), InsightsMeta(CollectAllInsights()))
    }

    /** The entry `record_heuristic_insights` writes. */
    function HeuristicsEntry(): Entry
      reads knowledge, pattern, skill
    {
      Entry(System, JStr("Heuristic learning analysis completed."), HeuristicsMeta(RunHeuristics()))
    }

    /** The entry `record_scores` writes. */
    function ScoresEntry(): Entry
      reads knowledge, pattern, skill
    {
      Entry(System, JStr("Learning score evaluation completed."), ScoresMeta(RunScores()))
    }

    /** The entry `record_learning_strength` writes. */
    function StrengthEntry(): Entry
      reads knowledge, pattern, skill
    {
      Entry(System, JStr("Learning strength evaluation completed."), StrengthOf(RunScores(), RunHeuristics()))
    }

    /** The entry `record_decay_event` writes. */
    function DecayEntry(): Entry
      reads knowledge, pattern, skill
    {
      Entry(System, JStr("Long-term decay applied."), MetasMeta(Metas(), None))
    }

    /** The entry `record_meta_evolution` writes for the given strength. */
    function MetaEntry(strength: real): Entry
      reads knowledge, pattern, skill
    {
      Entry(System, JStr("Brain meta updated based on learning strength."), MetasMeta(Metas(), Some(strength)))
    }

    /** `append_entry`, without the write to disk. */
    method AppendEntry(e: Entry)
      modifies this
      ensures journal == old(journal) + [e]
    {
      journal := journal + [e];
    }

    /** `apply_stability_rules`: every brain is clamped in turn. */
    method ApplyStabilityRules()
      requires Valid()
      modifies knowledge, pattern, skill
      ensures knowledge.meta == Clamp(old(knowledge.meta)) && pattern.meta == Clamp(old(pattern.meta))
              && skill.meta == Clamp(old(skill.meta))
      ensures knowledge.count == old(knowledge.count) && pattern.count == old(pattern.count)
              && skill.count == old(skill.count)
    {
      var brains := [knowledge, pattern, skill];
      for i := 0 to 3
        invariant forall j :: 0 <= j < i ==> brains[j].meta == Clamp(old(brains[j].meta))
        invariant forall j :: i <= j < 3 ==> brains[j].meta == old(brains[j].meta)
        invariant forall j :: 0 <= j < 3 ==> brains[j].count == old(brains[j].count)
      {
        var b := brains[i];
        assert forall j :: 0 <= j < 3 && j != i ==> brains[j] != b by {
          assert brains[0].kind != brains[1].kind && brains[1].kind != brains[2].kind && brains[0].kind != brains[2].kind;
        }
        b.meta := b.meta.(confidence := Min(1.0, Max(0.0, b.meta.confidence)));
        b.meta := b.meta.(memory := Min(2.0, Max(0.5, b.meta.memory)));
      }
    }

    /** `apply_diminishing_returns`. */
    function ApplyDiminishingReturns(strength: real): real
      reads this
    {
      Diminished(|journal|, strength)
    }

    /** `record_decay_event`. */
    method RecordDecayEvent() returns (e: Entry)
      modifies this
      ensures e == DecayEntry() && e.metadata == MetasMeta(Metas(), None)
      ensures journal == old(journal) + [e]
    {
      e := DecayEntry();
      AppendEntry(e);
    }

    /** `maybe_apply_long_term_decay`: every brain decays, and one entry is written, iff the count is a multiple of 5. */
    method MaybeApplyLongTermDecay() returns (e: Option<Entry>)
      requires Valid()
      modifies this, knowledge, pattern, skill
      ensures Valid()
      ensures e.Some? <==> |old(journal)| % 5 == 0
      ensures e.Some? ==> journal == old(journal) + [e.value] && e.value == DecayEntry()
      ensures e.None? ==> journal == old(journal)
      ensures var decays := |old(journal)| % 5 == 0;
              knowledge.meta == (if decays then LongTerm(Knowledge, old(knowledge.meta)) else old(knowledge.meta))
              && pattern.meta == (if decays then LongTerm(Pattern, old(pattern.meta)) else old(pattern.meta))
              && skill.meta == (if decays then LongTerm(Skill, old(skill.meta)) else old(skill.meta))
      ensures knowledge.count == old(knowledge.count) && pattern.count == old(pattern.count)
              && skill.count == old(skill.count)
    {
      if |journal| % 5 == 0 {
        LongTermSound(Knowledge, knowledge.meta);
        LongTermSound(Pattern, pattern.meta);
        LongTermSound(Skill, skill.meta);
        knowledge.DecayLongTerm();
        pattern.DecayLongTerm();
        skill.DecayLongTerm();
        var d := RecordDecayEvent();
        e := Some(d);
      } else {
        e := None;
      }
    }

    /** One `if "<name>" in mapped: <brain>.update(mapped["<name>"])` step of `process_event`. */
    static method Feed(b: Brain, mapped: Mapped)
      modifies b
      ensures b.count == old(b.count) + Increment(mapped, b.kind) && b.meta == old(b.meta)
    {
      if Name(b.kind) in mapped {
        var _ := b.Update(mapped[Name(b.kind)]);
      }
    }

    /**
     * `process_event`: the mapped update goes to the brain it names and one
     * entry is written. None stands for the error raised when the tag is not
     * a string; nothing has changed then.
     */
    method ProcessEvent(event: Obj) returns (entry: Option<Entry>)
      requires Valid()
      modifies this, knowledge, pattern, skill
      ensures Valid()
      ensures entry.Some? <==> MapEventType(event).Some?
      ensures entry.None? ==> (journal == old(journal) && knowledge.count == old(knowledge.count)
                               && pattern.count == old(pattern.count) && skill.count == old(skill.count))
      ensures entry.Some? ==>
                var mapped := MapEventType(event).value;
                entry.value == EventEntry(event, mapped) && journal == old(journal) + [entry.value]
                && knowledge.count == old(knowledge.count) + Increment(mapped, Knowledge)
                && pattern.count == old(pattern.count) + Increment(mapped, Pattern)
                && skill.count == old(skill.count) + Increment(mapped, Skill)
      ensures knowledge.meta == old(knowledge.meta) && pattern.meta == old(pattern.meta) && skill.meta == old(skill.meta)
    {
      var m := MapEventType(event);
      if m.None? {
        return None;
      }
      var mapped := m.value;
      EventTargetsOneBrain(event, Knowledge);
      EventTargetsOneBrain(event, Pattern);
      EventTargetsOneBrain(event, Skill);
      Feed(knowledge, mapped);
      Feed(pattern, mapped);
      Feed(skill, mapped);
      var e := EventEntry(event, mapped);
      AppendEntry(e);
      entry := Some(e);
    }

    /** `record_heuristic_insights`. */
    method RecordHeuristicInsights() returns (e: Entry)
      modifies this
      ensures e == HeuristicsEntry() && e.metadata == HeuristicsMeta(RunHeuristics())
      ensures journal == old(journal) + [e]
    {
      e := HeuristicsEntry();
      AppendEntry(e);
    }

    /** `record_scores`. */
    method RecordScores() returns (e: Entry)
      modifies this
      ensures e == ScoresEntry() && e.metadata == ScoresMeta(RunScores())
      ensures journal == old(journal) + [e]
    {
      e := ScoresEntry();
      AppendEntry(e);
    }

    /** `compute_learning_strength`. */
    method ComputeLearningStrength() returns (m: Metadata)
      ensures m == StrengthOf(RunScores(), RunHeuristics())
    {
      var scores := RunScores();
      var heuristics := RunHeuristics();
      var avg := (scores[0].confidence + scores[1].confidence + scores[2].confidence) / 3.0;
      var totalWeight := scores[0].weight + scores[1].weight + scores[2].weight;
      var weight := Normalize(totalWeight, MaxValue);
      var signal := HeuristicSignal(heuristics);
      m := StrengthMeta(avg, weight, signal, Strength(avg, weight, signal));
      StrengthOfParts(scores, heuristics, avg, weight, signal);
    }

    /** With wired brains the strength is that of their counters. */
    lemma StrengthMatchesCounts()
      requires Wired()
      ensures StrengthOf(RunScores(), RunHeuristics()) == StrengthFor(knowledge.count, pattern.count, skill.count)
    {
      assert RunScores() == [ScoreOf(Knowledge, knowledge.count), ScoreOf(Pattern, pattern.count), ScoreOf(Skill, skill.count)];
      assert RunHeuristics() == [Insight(Knowledge, knowledge.count), Insight(Pattern, pattern.count), Insight(Skill, skill.count)];
    }

    /** `record_learning_strength`. */
    method RecordLearningStrength() returns (e: Entry)
      modifies this
      ensures e == StrengthEntry() && e.metadata == StrengthOf(RunScores(), RunHeuristics())
      ensures journal == old(journal) + [e]
    {
      var m := ComputeLearningStrength();
      e := Entry(System, JStr("Learning strength evaluation completed."), m);
      AppendEntry(e);
    }

    /** `apply_learning_to_all`. */
    method ApplyLearningToAll(strength: real)
      requires Valid()
      modifies knowledge, pattern, skill
      ensures Valid()
      ensures knowledge.meta == Learn(Knowledge, old(knowledge.meta), strength)
              && pattern.meta == Learn(Pattern, old(pattern.meta), strength)
              && skill.meta == Learn(Skill, old(skill.meta), strength)
      ensures knowledge.count == old(knowledge.count) && pattern.count == old(pattern.count)
              && skill.count == old(skill.count)
    {
      LearnSound(Knowledge, knowledge.meta, strength);
      LearnSound(Pattern, pattern.meta, strength);
      LearnSound(Skill, skill.meta, strength);
      knowledge.ApplyLearning(strength);
      pattern.ApplyLearning(strength);
      skill.ApplyLearning(strength);
    }

    /** `record_meta_evolution`. */
    method RecordMetaEvolution(strength: real) returns (e: Entry)
      modifies this
      ensures e == MetaEntry(strength) && e.metadata == MetasMeta(Metas(), Some(strength))
      ensures journal == old(journal) + [e]
    {
      e := MetaEntry(strength);
      AppendEntry(e);
    }

    /** The heuristics, scores and strength entries, recorded in that order by `process_events` and `run_cycle`. */
    method RecordEvaluation() returns (b: Batch)
      modifies this
      ensures b == Batch(HeuristicsEntry(), ScoresEntry(), StrengthEntry())
      ensures journal == old(journal) + [b.heuristics, b.scores, b.learningStrength]
      ensures b.heuristics.metadata == HeuristicsMeta(RunHeuristics()) && b.scores.metadata == ScoresMeta(RunScores())
      ensures b.learningStrength.metadata == StrengthOf(RunScores(), RunHeuristics())
    {
      var h := RecordHeuristicInsights();
      var sc := RecordScores();
      var l := RecordLearningStrength();
      b := Batch(h, sc, l);
    }

    /**
     * The second half of `run_cycle`: the strength diminished by the entry
     * count, applied to every brain and clamped, the long-term decay when it
     * fires, and the meta entry.
     */
    method Evolve(strength: real) returns (decay: Option<Entry>, meta: Entry)
      requires Valid()
      modifies this, knowledge, pattern, skill
      ensures Valid()
      ensures decay.Some? <==> |old(journal)| % 5 == 0
      ensures journal == old(journal) + (if decay.Some? then [decay.value] else []) + [meta]
      ensures meta == MetaEntry(Diminished(|old(journal)|, strength))
      ensures decay.Some? ==> decay.value == DecayEntry()
      ensures var n := |old(journal)|;
              var s := Diminished(n, strength);
              knowledge.meta == AfterCycle(Knowledge, old(knowledge.meta), s, n % 5 == 0)
              && pattern.meta == AfterCycle(Pattern, old(pattern.meta), s, n % 5 == 0)
              && skill.meta == AfterCycle(Skill, old(skill.meta), s, n % 5 == 0)
      ensures knowledge.count == old(knowledge.count) && pattern.count == old(pattern.count)
              && skill.count == old(skill.count)
    {
      var diminished := ApplyDiminishingReturns(strength);
      ApplyLearningToAll(diminished);
      ClampSound(knowledge.meta);
      ClampSound(pattern.meta);
      ClampSound(skill.meta);
      ApplyStabilityRules();
      decay := MaybeApplyLongTermDecay();
      meta := RecordMetaEvolution(diminished);
    }

    /**
     * One round of the loop of `process_events`: the journal and the counters,
     * which hold the first `i` events, come to hold the first `i + 1`, or
     * nothing changes when the event's tag is not a string.
     */
    method FeedOne(events: seq<Obj>, i: nat, ghost start: seq<Entry>, ghost k0: int, ghost p0: int, ghost s0: int)
      returns (ok: bool)
      requires Valid() && i < |events| && AllMapped(events[..i])
      requires journal == start + EventEntries(events[..i])
      requires knowledge.count == k0 + Tally(events[..i], Knowledge) && pattern.count == p0 + Tally(events[..i], Pattern)
               && skill.count == s0 + Tally(events[..i], Skill)
      modifies this, knowledge, pattern, skill
      ensures Valid()
      ensures ok <==> MapEventType(events[i]).Some?
      ensures !ok ==> journal == old(journal) && knowledge.count == old(knowledge.count)
                      && pattern.count == old(pattern.count) && skill.count == old(skill.count)
      ensures ok ==>
                AllMapped(events[..i + 1]) && journal == start + EventEntries(events[..i + 1])
                && knowledge.count == k0 + Tally(events[..i + 1], Knowledge)
                && pattern.count == p0 + Tally(events[..i + 1], Pattern)
                && skill.count == s0 + Tally(events[..i + 1], Skill)
      ensures knowledge.meta == old(knowledge.meta) && pattern.meta == old(pattern.meta) && skill.meta == old(skill.meta)
    {
      var e := ProcessEvent(events[i]);
      ok := e.Some?;
      if ok {
        TallyStep(events, i);
        EventEntriesStep(events, i);
        assert journal == start + (EventEntries(events[..i]) + [e.value]);
      }
    }

    /**
     * The loop of `process_events`: every event in turn, stopping at the
     * first one whose tag is not a string; the events before it stay
     * processed.
     */
    method FeedEvents(events: seq<Obj>) returns (ok: bool)
      requires Valid()
      modifies this, knowledge, pattern, skill
      ensures Valid()
      ensures ok <==> AllMapped(events)
      ensures |old(journal)| <= |journal| && journal[..|old(journal)|] == old(journal)
      ensures ok ==>
                journal == old(journal) + EventEntries(events)
                && knowledge.count == old(knowledge.count) + Tally(events, Knowledge)
                && pattern.count == old(pattern.count) + Tally(events, Pattern)
                && skill.count == old(skill.count) + Tally(events, Skill)
      ensures !ok ==>
                var k := |journal| - |old(journal)|;
                0 <= k < |events| && AllMapped(events[..k]) && MapEventType(events[k]).None?
                && journal == old(journal) + EventEntries(events[..k])
                && knowledge.count == old(knowledge.count) + Tally(events[..k], Knowledge)
                && pattern.count == old(pattern.count) + Tally(events[..k], Pattern)
                && skill.count == old(skill.count) + Tally(events[..k], Skill)
      ensures knowledge.meta == old(knowledge.meta) && pattern.meta == old(pattern.meta) && skill.meta == old(skill.meta)
    {
      var i := 0;
      assert events[..0] == [];
      while i < |events|
        invariant 0 <= i <= |events|
        invariant Valid()
        invariant AllMapped(events[..i])
        invariant journal == old(journal) + EventEntries(events[..i])
        invariant knowledge.count == old(knowledge.count) + Tally(events[..i], Knowledge)
        invariant pattern.count == old(pattern.count) + Tally(events[..i], Pattern)
        invariant skill.count == old(skill.count) + Tally(events[..i], Skill)
        invariant knowledge.meta == old(knowledge.meta) && pattern.meta == old(pattern.meta) && skill.meta == old(skill.meta)
      {
        var fed := FeedOne(events, i, old(journal), old(knowledge.count), old(pattern.count), old(skill.count));
        if !fed {
          return false;
        }
        i := i + 1;
      }
      assert events[..|events|] == events;
      ok := true;
    }

    /**
     * `process_events`: every event in turn, then the heuristics, scores and
     * strength entries. None stands for the error of the first event whose
     * tag is not a string; the events before it stay processed.
     */
    method ProcessEvents(events: seq<Obj>) returns (r: Option<Batch>)
      requires Valid()
      modifies this, knowledge, pattern, skill
      ensures Valid()
      ensures r.Some? <==> AllMapped(events)
      ensures |old(journal)| <= |journal| && journal[..|old(journal)|] == old(journal)
      ensures r.Some? ==>
                journal == old(journal) + EventEntries(events) + [r.value.heuristics, r.value.scores, r.value.learningStrength]
                && r.value == Batch(HeuristicsEntry(), ScoresEntry(), StrengthEntry())
                && knowledge.count == old(knowledge.count) + Tally(events, Knowledge)
                && pattern.count == old(pattern.count) + Tally(events, Pattern)
                && skill.count == old(skill.count) + Tally(events, Skill)
                && r.value.learningStrength.metadata == StrengthOf(RunScores(), RunHeuristics())
      ensures r.None? ==>
                var k := |journal| - |old(journal)|;
                0 <= k < |events| && AllMapped(events[..k]) && MapEventType(events[k]).None?
                && journal == old(journal) + EventEntries(events[..k])
                && knowledge.count == old(knowledge.count) + Tally(events[..k], Knowledge)
                && pattern.count == old(pattern.count) + Tally(events[..k], Pattern)
                && skill.count == old(skill.count) + Tally(events[..k], Skill)
      ensures knowledge.meta == old(knowledge.meta) && pattern.meta == old(pattern.meta) && skill.meta == old(skill.meta)
    {
      var ok := FeedEvents(events);
      if !ok {
        return None;
      }
      ghost var fed := journal;
      var b := RecordEvaluation();
      r := Some(b);
      assert journal == fed + [b.heuristics, b.scores, b.learningStrength];
    }

    /** The first half of `run_cycle`: the snapshot entry, then the heuristics, scores and strength entries. */
    method RecordSnapshotAndEvaluation() returns (snapshot: Entry, b: Batch)
      modifies this
      ensures snapshot == GenerateJournalEntry() && b == Batch(HeuristicsEntry(), ScoresEntry(), StrengthEntry())
      ensures journal == old(journal) + [snapshot, b.heuristics, b.scores, b.learningStrength]
    {
      snapshot := GenerateJournalEntry();
      AppendEntry(snapshot);
      b := RecordEvaluation();
    }

    /**
     * `run_cycle`: four entries (snapshot, heuristics, scores, strength), the
     * diminished strength applied and clamped, the decay when the count has
     * reached a multiple of 5, and the meta entry: five or six entries.
     */
    method RunCycle() returns (c: Cycle)
      requires Valid()
      modifies this, knowledge, pattern, skill
      ensures Valid()
      ensures c.decay.Some? <==> (|old(journal)| + 4) % 5 == 0
      ensures journal == old(journal) + [c.snapshot, c.heuristics, c.scores, c.learningStrength]
                         + (if c.decay.Some? then [c.decay.value] else []) + [c.meta]
      ensures c.snapshot == old(GenerateJournalEntry()) && c.heuristics == old(HeuristicsEntry())
              && c.scores == old(ScoresEntry()) && c.learningStrength == old(StrengthEntry())
      ensures c.learningStrength.metadata == StrengthFor(old(knowledge.count), old(pattern.count), old(skill.count))
      ensures c.meta == MetaEntry(Diminished(|old(journal)| + 4, c.learningStrength.metadata.learningStrength))
      ensures c.decay.Some? ==> c.decay.value == DecayEntry()
      ensures var n := |old(journal)|;
              var decays := (n + 4) % 5 == 0;
              var s := Diminished(n + 4, StrengthFor(old(knowledge.count), old(pattern.count), old(skill.count)).learningStrength);
              knowledge.meta == AfterCycle(Knowledge, old(knowledge.meta), s, decays)
              && pattern.meta == AfterCycle(Pattern, old(pattern.meta), s, decays)
              && skill.meta == AfterCycle(Skill, old(skill.meta), s, decays)
      ensures knowledge.count == old(knowledge.count) && pattern.count == old(pattern.count)
              && skill.count == old(skill.count)
    {
      StrengthMatchesCounts();
      var snapshot, b := RecordSnapshotAndEvaluation();
      var decay, meta := Evolve(b.learningStrength.metadata.learningStrength);
      c := Cycle(snapshot, b.heuristics, b.scores, b.learningStrength, meta, decay);
    }
  }
}
