/**
 * Slot filling: every slot a workflow needs gets the first value present in
 * a priority list of sources (the intent's parameters, then the request
 * context, then defaults); an intent value that disagrees with a context
 * value is recorded as ambiguous, and required slots left empty as missing.
 * The loop over the slot names is shared by the slot-filling engine and the
 * intent mapper; only the sources differ.
 */
module SlotFilling {
  import opened Wrappers
  import opened Json
  import opened AiParser

  // ---------------------------------------------------------------------------
  // Values by priority
  // ---------------------------------------------------------------------------

  /** The first value that is not None, or None: `a if a is not None else b if ...`. */
  function Pick(vals: seq<Json>): Json
    decreases |vals|
  {
    if |vals| == 0 then JNull
    else if vals[0] != JNull then vals[0]
    else Pick(vals[1..])
  }

  /** A present value wins over every later one, and only when every earlier one is missing. */
  lemma {:induction false} PickPriority(vals: seq<Json>, i: nat)
    requires i < |vals| && vals[i] != JNull
    requires forall h :: 0 <= h < i ==> vals[h] == JNull
    ensures Pick(vals) == vals[i]
    decreases i
  {
    if i > 0 {
      PickPriority(vals[1..], i - 1);
    }
  }

  /** The result is None exactly when every source is None. */
  lemma {:induction false} PickNone(vals: seq<Json>)
    ensures Pick(vals) == JNull <==> forall h :: 0 <= h < |vals| ==> vals[h] == JNull
    decreases |vals|
  {
    if |vals| > 0 {
      PickNone(vals[1..]);
      assert forall h :: 1 <= h < |vals| ==> vals[h] == vals[1..][h - 1];
    }
  }

  /** `source.get(key)` for each source, in priority order. */
  function Values(sources: seq<Obj>, key: string): (vs: seq<Json>)
    ensures |vs| == |sources|
  {
    seq(|sources|, i requires 0 <= i < |sources| => Get(sources[i], key))
  }

  /** `iv is not None and cv is not None and iv != cv`: the intent and context values disagree. */
  predicate Conflict(sources: seq<Obj>, key: string)
    requires |sources| >= 2
  {
    var iv := Get(sources[0], key);
    var cv := Get(sources[1], key);
    iv != JNull && cv != JNull && !PyEq(iv, cv)
  }

  predicate Distinct(xs: seq<string>) {
    forall i, j :: 0 <= i < j < |xs| ==> xs[i] != xs[j]
  }

  // ---------------------------------------------------------------------------
  // The filling loop
  // ---------------------------------------------------------------------------

  /**
   * One slot of the loop: the intent's value on a disagreement (recorded
   * with both values), else the first present value; a required slot left
   * None is listed as missing.
   */
  method FillSlot(key: string, required: seq<string>, sources: seq<Obj>,
                  filled: Obj, missing: seq<string>, ambiguous: map<string, (Json, Json)>)
    returns (filled': Obj, missing': seq<string>, ambiguous': map<string, (Json, Json)>)
    requires |sources| >= 2
    ensures filled' == filled[key := Pick(Values(sources, key))]
    ensures ambiguous' == if Conflict(sources, key) then ambiguous[key := (Get(sources[0], key), Get(sources[1], key))] else ambiguous
    ensures missing' == if key in required && Pick(Values(sources, key)) == JNull then missing + [key] else missing
  {
    filled', missing', ambiguous' := filled, missing, ambiguous;
    var iv := Get(sources[0], key);
    var cv := Get(sources[1], key);
    if iv != JNull && cv != JNull && !PyEq(iv, cv) {
      PickPriority(Values(sources, key), 0);
      ambiguous' := ambiguous'[key := (iv, cv)];
      filled' := filled'[key := iv];
    } else {
      filled' := filled'[key := Pick(Values(sources, key))];
    }
    if key in required && filled'[key] == JNull {
      missing' := missing' + [key];
    }
  }

  /**
   * The loop over the slot names (a set, so in no particular order): each
   * slot gets the first present value of the sources, an intent/context
   * disagreement is recorded with both values (the intent's kept), and a
   * required slot left None is listed once in `missing`.
   */
  method FillSlots(keys: set<string>, required: seq<string>, sources: seq<Obj>)
    returns (filled: Obj, missing: seq<string>, ambiguous: map<string, (Json, Json)>)
    requires |sources| >= 2
    ensures filled.Keys == keys
    ensures forall k :: k in keys ==> filled[k] == Pick(Values(sources, k))
    ensures forall k :: k in ambiguous <==> k in keys && Conflict(sources, k)
    ensures forall k :: k in ambiguous ==> ambiguous[k] == (Get(sources[0], k), Get(sources[1], k))
    ensures forall k :: k in missing <==> k in keys && k in required && Pick(Values(sources, k)) == JNull
    ensures Distinct(missing)
  {
    filled, missing, ambiguous := map[], [], map[];
    var todo := keys;
    while todo != {}
      invariant todo <= keys
      invariant SlotsDone(keys - todo, required, sources, filled, missing, ambiguous)
      decreases todo
    {
      var key :| key in todo;
      var filled', missing', ambiguous' := FillSlot(key, required, sources, filled, missing, ambiguous);
      FilledStep(keys, todo, key, required, sources, filled, missing, ambiguous, filled', missing', ambiguous');
      filled, missing, ambiguous := filled', missing', ambiguous';
      todo := todo - {key};
    }
    assert keys - todo == keys;
  }

  /** The state of the loop once the slots `done` are filled. */
  ghost predicate SlotsDone(done: set<string>, required: seq<string>, sources: seq<Obj>,
                         filled: Obj, missing: seq<string>, ambiguous: map<string, (Json, Json)>)
    requires |sources| >= 2
  {
    filled.Keys == done
    && (forall k :: k in filled ==> filled[k] == Pick(Values(sources, k)))
    && (forall k :: k in ambiguous <==> k in done && Conflict(sources, k))
    && (forall k :: k in ambiguous ==> ambiguous[k] == (Get(sources[0], k), Get(sources[1], k)))
    && (forall k :: k in missing <==> k in done && k in required && Pick(Values(sources, k)) == JNull)
    && Distinct(missing)
  }

  /** Filling one more slot keeps the loop state. */
  lemma FilledStep(keys: set<string>, todo: set<string>, key: string, required: seq<string>, sources: seq<Obj>,
                   filled: Obj, missing: seq<string>, ambiguous: map<string, (Json, Json)>,
                   filled': Obj, missing': seq<string>, ambiguous': map<string, (Json, Json)>)
    requires |sources| >= 2 && key in todo && todo <= keys
    requires SlotsDone(keys - todo, required, sources, filled, missing, ambiguous)
    requires filled' == filled[key := Pick(Values(sources, key))]
    requires ambiguous' == if Conflict(sources, key) then ambiguous[key := (Get(sources[0], key), Get(sources[1], key))] else ambiguous
    requires missing' == if key in required && Pick(Values(sources, key)) == JNull then missing + [key] else missing
    ensures SlotsDone(keys - (todo - {key}), required, sources, filled', missing', ambiguous')
  {
    var done := keys - todo;
    assert key !in missing;
    assert keys - (todo - {key}) == done + {key};
  }

  /** A duplicate-free list of required names is no longer than the required list. */
  lemma {:induction false} DistinctWithin(xs: seq<string>, ys: seq<string>)
    requires Distinct(xs)
    requires forall i :: 0 <= i < |xs| ==> xs[i] in ys
    ensures |xs| <= |ys|
    decreases |ys|
  {
    if |xs| > 0 {
      var y := xs[|xs| - 1];
      var j :| 0 <= j < |ys| && ys[j] == y;
      var ys' := ys[..j] + ys[j + 1..];
      var xs' := xs[..|xs| - 1];
      forall i | 0 <= i < |xs'|
        ensures xs'[i] in ys'
      {
        assert xs'[i] != y;
        var h :| 0 <= h < |ys| && ys[h] == xs'[i];
        if h < j {
          assert ys'[h] == xs'[i];
        } else {
          assert ys'[h - 1] == xs'[i];
        }
      }
      DistinctWithin(xs', ys');
    }
  }

  // ---------------------------------------------------------------------------
  // `SlotFillingEngine.fill`
  // ---------------------------------------------------------------------------

  /** A workflow template: its required parameter names and its defaults. */
  datatype Template = Template(required: seq<string>, defaults: Obj)

  /** `DOMAIN_DEFAULTS.get(domain, {})`. */
  function DomainDefaults(domain: Json): Obj {
    if domain == JStr("finance") then map["currency" := JStr("USD")]
    else if domain == JStr("logistics") then map["unit" := JStr("tons"), "region" := JStr("global")]
    else if domain == JStr("hr") then map["employment_type" := JStr("full_time")]
    else if domain == JStr("it_ops") then map["env" := JStr("production")]
    else map[]
  }

  /** The share of required slots filled: `1 - missing / (required or 1)`. */
  function Completeness(nMissing: nat, nRequired: nat): real {
    1.0 - (nMissing as real) / (if nRequired == 0 then 1.0 else nRequired as real)
  }

  /** The ambiguity factor: 0.1 off per ambiguous slot, at most 0.5 off. */
  function AmbiguityPenalty(nAmbiguous: nat): real {
    1.0 - (if (nAmbiguous as real) * 0.1 < 0.5 then (nAmbiguous as real) * 0.1 else 0.5)
  }

  /** The confidence of a fill: completeness times the ambiguity factor, clamped to [0, 1]. */
  function FillConfidence(nMissing: nat, nRequired: nat, nAmbiguous: nat): real {
    Clamp01(Completeness(nMissing, nRequired) * AmbiguityPenalty(nAmbiguous))
  }

  /**
   * The confidence is in [0, 1] and the ambiguity factor in [0.5, 1]; a
   * complete unambiguous fill scores 1, and while no more slots are missing
   * than required the clamp never binds, so ambiguity costs at most half.
   */
  lemma FillConfidenceBounds(nMissing: nat, nRequired: nat, nAmbiguous: nat)
    ensures 0.0 <= FillConfidence(nMissing, nRequired, nAmbiguous) <= 1.0
    ensures 0.5 <= AmbiguityPenalty(nAmbiguous) <= 1.0
    ensures nMissing == 0 && nAmbiguous == 0 ==> FillConfidence(nMissing, nRequired, nAmbiguous) == 1.0
    ensures nMissing <= nRequired ==> 0.0 <= Completeness(nMissing, nRequired) <= 1.0
    ensures nMissing <= nRequired ==>
              FillConfidence(nMissing, nRequired, nAmbiguous) == Completeness(nMissing, nRequired) * AmbiguityPenalty(nAmbiguous)
  {
    var penalty := AmbiguityPenalty(nAmbiguous);
    if nMissing <= nRequired {
      var completeness := Completeness(nMissing, nRequired);
      var total := if nRequired == 0 then 1.0 else nRequired as real;
      var q := (nMissing as real) / total;
      assert q * total == nMissing as real;
      assert q <= 1.0 by {
        assert nMissing as real <= total;
      }
      assert 0.0 <= completeness <= 1.0;
      assert completeness * 0.5 <= completeness * penalty <= completeness;
      assert 0.0 <= completeness * penalty <= 1.0;
    }
  }

  /** The result of a fill. */
  datatype Filled = Filled(parameters: Obj, missing: seq<string>, ambiguous: map<string, (Json, Json)>, confidence: real)

  /** The names of the sequence, as a set. */
  function Names(xs: seq<string>): set<string> {
    set i | 0 <= i < |xs| :: xs[i]
  }

  /**
   * `fill`: the slots are the required names and the keys of the parameters,
   * the template defaults and the domain defaults; the priority is intent,
   * context, domain default, template default.
   */
  method Fill(template: Template, parameters: Obj, domain: Json, context: Obj) returns (r: Result<Filled>)
    ensures r.Err? <==> domain.JList? || domain.JObj?
    ensures r.Ok? ==>
              var sources := [parameters, context, DomainDefaults(domain), template.defaults];
              var keys := Names(template.required) + parameters.Keys + template.defaults.Keys + DomainDefaults(domain).Keys;
              r.value.parameters.Keys == keys
              && (forall k :: k in keys ==> r.value.parameters[k] == Pick(Values(sources, k)))
              && (forall k :: k in r.value.ambiguous <==> k in keys && Conflict(sources, k))
              && (forall k :: k in r.value.ambiguous ==> r.value.ambiguous[k] == (Get(parameters, k), Get(context, k)))
              && (forall k :: k in r.value.missing <==> k in template.required && r.value.parameters[k] == JNull)
              && Distinct(r.value.missing)
              && |r.value.missing| <= |template.required|
              && r.value.confidence == FillConfidence(|r.value.missing|, |template.required|, |r.value.ambiguous|)
  {
    if domain.JList? || domain.JObj? {
      return Err("TypeError: unhashable type");
    }
    var domainDefaults := DomainDefaults(domain);
    var keys := Names(template.required) + parameters.Keys + template.defaults.Keys + domainDefaults.Keys;
    var sources := [parameters, context, domainDefaults, template.defaults];
    var filled, missing, ambiguous := FillSlots(keys, template.required, sources);
    assert sources[0] == parameters && sources[1] == context;
    forall i | 0 <= i < |missing|
      ensures missing[i] in template.required
    {
      assert missing[i] in missing;
    }
    DistinctWithin(missing, template.required);
    var confidence := FillConfidence(|missing|, |template.required|, |ambiguous|);
    return Ok(Filled(filled, missing, ambiguous, confidence));
  }
}
