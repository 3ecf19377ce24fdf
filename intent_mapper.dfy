/**
 * The intent mapper: resolves the mapping entry for an intent (first
 * "{domain}.{name}", then the bare name), fills the entry's slots from the
 * intent, the request context and the entry's defaults, routes to a
 * workflow by the intent's risk, and scores how complete the mapping is.
 */
module IntentMapper {
  import opened Wrappers
  import opened Text
  import opened Json
  import opened AiParser
  import opened SlotFilling

  /**
   * One entry of the intent-to-workflow mapping file: `workflow_name` (None
   * when the key is absent), `required_params`, `defaults`, and the optional
   * `admin_workflow` and `elevated_workflow` (JNull when absent).
   */
  datatype MappingEntry = MappingEntry(
    workflowName: Option<Json>,
    required: seq<string>,
    defaults: Obj,
    adminWorkflow: Json,
    elevatedWorkflow: Json)

  type Mapping = map<string, MappingEntry>

  // ---------------------------------------------------------------------------
  // Slot filling (`_slot_fill`)
  // ---------------------------------------------------------------------------

  /**
   * `_slot_fill`: the slots are the required names, the intent's parameter
   * names and the default names; each takes the intent's value, else the
   * context's, else the default; a disagreeing intent/context pair is
   * ambiguous and keeps the intent's value; required slots left None are
   * missing, each once.
   */
  method SlotFill(entry: MappingEntry, intentParams: Obj, context: Obj)
    returns (filled: Obj, missing: seq<string>, ambiguous: map<string, (Json, Json)>)
    ensures filled.Keys == Names(entry.required) + intentParams.Keys + entry.defaults.Keys
    ensures forall k :: k in filled ==>
              filled[k] == Pick([Get(intentParams, k), Get(context, k), Get(entry.defaults, k)])
    ensures forall k :: k in ambiguous <==> k in filled && Conflict([intentParams, context], k)
    ensures forall k :: k in ambiguous ==> ambiguous[k] == (Get(intentParams, k), Get(context, k))
    ensures forall k :: k in missing <==> k in entry.required && filled[k] == JNull
    ensures Distinct(missing) && |missing| <= |entry.required|
  {
    var keys := Names(entry.required) + intentParams.Keys + entry.defaults.Keys;
    var sources := [intentParams, context, entry.defaults];
    filled, missing, ambiguous := FillSlots(keys, entry.required, sources);
    ThreeSources(intentParams, context, entry.defaults);
    MissingWithin(missing, entry.required);
  }

  /** The sources of a slot are the intent's parameters, the context and the defaults, in that order. */
  lemma ThreeSources(intentParams: Obj, context: Obj, defaults: Obj)
    ensures forall k :: Values([intentParams, context, defaults], k)
                        == [Get(intentParams, k), Get(context, k), Get(defaults, k)]
    ensures forall k :: Conflict([intentParams, context, defaults], k) == Conflict([intentParams, context], k)
  {
  }

  /** A duplicate-free list of required slots is no longer than the required list. */
  lemma MissingWithin(missing: seq<string>, required: seq<string>)
    requires Distinct(missing) && forall k :: k in missing ==> k in required
    ensures |missing| <= |required|
  {
    forall i | 0 <= i < |missing|
      ensures missing[i] in required
    {
      assert missing[i] in missing;
    }
    DistinctWithin(missing, required);
  }

  // ---------------------------------------------------------------------------
  // Guardrail-aware routing (`_guardrail_routing`)
  // ---------------------------------------------------------------------------

  /** `cfg["workflow_name"]`, a KeyError when the entry has none. */
  function BaseWorkflow(entry: MappingEntry): Result<Json> {
    if entry.workflowName.Some? then Ok(entry.workflowName.value) else Err("KeyError: 'workflow_name'")
  }

  /** `cfg.get(name) or cfg["workflow_name"]`. */
  function OrBase(w: Json, entry: MappingEntry): Result<Json> {
    if Truthy(w) then Ok(w) else BaseWorkflow(entry)
  }

  /**
   * The workflow for an intent whose context carries `risk_level` and
   * `requires_admin`: blocked intents go to the blocked-action workflow,
   * admin intents to the admin workflow, high-risk ones to the elevated
   * workflow, each override falling back to the entry's own workflow.
   */
  function GuardrailRouting(ctx: Obj, entry: MappingEntry): (r: Result<Json>)
    ensures Get(ctx, "risk_level") == JStr("blocked") ==> r == Ok(JStr("blocked_action_workflow"))
    ensures (Get(ctx, "risk_level") != JStr("blocked") && Truthy(Get(ctx, "requires_admin"))
             && Truthy(entry.adminWorkflow)) ==> r == Ok(entry.adminWorkflow)
    ensures (Get(ctx, "risk_level") == JStr("high") && !Truthy(Get(ctx, "requires_admin"))
             && Truthy(entry.elevatedWorkflow)) ==> r == Ok(entry.elevatedWorkflow)
    ensures (Get(ctx, "risk_level") != JStr("blocked") && Get(ctx, "risk_level") != JStr("high")
             && !Truthy(Get(ctx, "requires_admin"))) ==> r == BaseWorkflow(entry)
    ensures r.Err? <==>
              Get(ctx, "risk_level") != JStr("blocked") && entry.workflowName.None?
              && (if Truthy(Get(ctx, "requires_admin")) then !Truthy(entry.adminWorkflow)
                  else Get(ctx, "risk_level") == JStr("high") ==> !Truthy(entry.elevatedWorkflow))
    ensures r.Ok? ==> r.value in [JStr("blocked_action_workflow"), entry.adminWorkflow, entry.elevatedWorkflow]
                      || entry.workflowName == Some(r.value)
  {
    var risk := Get(ctx, "risk_level");
    if risk == JStr("blocked") then Ok(JStr("blocked_action_workflow"))
    else if Truthy(Get(ctx, "requires_admin")) then OrBase(entry.adminWorkflow, entry)
    else if risk == JStr("high") then OrBase(entry.elevatedWorkflow, entry)
    else BaseWorkflow(entry)
  }

  // ---------------------------------------------------------------------------
  // Action canonicalisation (`_canonicalize_action`)
  // ---------------------------------------------------------------------------

  /** Synonyms of the three canonical action names. */
  const ActionSynonyms: map<string, string> :=
    map["create" := "create", "make" := "create", "add" := "create",
        "remove" := "delete", "delete" := "delete",
        "update" := "update", "modify" := "update"]

  /** `(action or "").strip().lower()`, then the synonym table, else the normalised name. */
  function CanonicalizeAction(action: string): (r: string)
    ensures r in ["create", "delete", "update"] || r == Lower(Strip(action))
    ensures Lower(Strip(action)) in {"create", "make", "add"} ==> r == "create"
    ensures Lower(Strip(action)) in {"delete", "remove"} ==> r == "delete"
    ensures Lower(Strip(action)) in {"update", "modify"} ==> r == "update"
    ensures Lower(Strip(action)) !in {"create", "make", "add", "delete", "remove", "update", "modify"}
            ==> r == Lower(Strip(action))
  {
    var act := Lower(Strip(action));
    SynonymMeaning(act);
    if act in ActionSynonyms then ActionSynonyms[act] else act
  }

  /** The synonym table, read entry by entry. */
  lemma SynonymMeaning(act: string)
    ensures act in {"create", "make", "add"} ==> act in ActionSynonyms && ActionSynonyms[act] == "create"
    ensures act in {"delete", "remove"} ==> act in ActionSynonyms && ActionSynonyms[act] == "delete"
    ensures act in {"update", "modify"} ==> act in ActionSynonyms && ActionSynonyms[act] == "update"
    ensures act !in {"create", "make", "add", "delete", "remove", "update", "modify"} ==> act !in ActionSynonyms
  {
    assert ActionSynonyms.Keys == {"create", "make", "add", "remove", "delete", "update", "modify"};
    if act == "make" || act == "add" {
      assert act[0] != 'r' && act[0] != 'd' && act[0] != 'u';
      assert act != "modify" by { if act == "make" { assert act[1] != "modify"[1]; } }
    } else if act == "create" {
      SynonymFixed(act);
    } else if act == "remove" {
      assert act[0] != 'd' && act[0] != 'u' && act[0] != 'm';
    } else if act == "delete" || act == "update" {
      SynonymFixed(act);
    }
  }

  /** Lower-casing an ASCII string neither adds nor removes edge whitespace, so a stripped string stays stripped. */
  lemma StripLower(s: string)
    requires Strip(s) == s
    ensures Strip(Lower(s)) == Lower(s)
  {
    var l := Lower(s);
    if l != [] {
      assert !IsSpace(s[0]) && !IsSpace(s[|s| - 1]);
      assert !IsSpace(l[0]) && !IsSpace(l[|l| - 1]);
    }
    TrimLeftNoLead(l);
    TrimRightNoTrail(l);
  }

  /** A normalised name normalises to itself. */
  lemma NormalFixed(action: string)
    ensures Lower(Strip(Lower(Strip(action)))) == Lower(Strip(action))
  {
    var s := Strip(action);
    StripIdempotent(action);
    StripLower(s);
    LowerIdempotent(s);
  }

  /** The three canonical names are normalised and map to themselves. */
  lemma CanonicalFixed(c: string)
    requires c == "create" || c == "delete" || c == "update"
    ensures Lower(Strip(c)) == c
    ensures c in ActionSynonyms && ActionSynonyms[c] == c
  {
    if c == "create" {
      LowerStripFixed("create");
      SynonymFixed("create");
    } else if c == "delete" {
      LowerStripFixed("delete");
      SynonymFixed("delete");
    } else {
      LowerStripFixed("update");
      SynonymFixed("update");
    }
  }

  /** A canonical name is its own synonym: the later keys of the table differ from it in their first letter. */
  lemma SynonymFixed(c: string)
    requires c == "create" || c == "delete" || c == "update"
    ensures c in ActionSynonyms && ActionSynonyms[c] == c
  {
    if c == "create" {
      assert "create" != "remove" by { assert "create"[0] != "remove"[0]; }
      assert "create" != "delete" by { assert "create"[0] != "delete"[0]; }
      assert "create" != "update" by { assert "create"[0] != "update"[0]; }
      assert "create" != "modify" by { assert "create"[0] != "modify"[0]; }
    } else if c == "delete" {
      assert "delete" != "update" by { assert "delete"[0] != "update"[0]; }
      assert "delete" != "modify" by { assert "delete"[0] != "modify"[0]; }
    } else {
      assert "update" != "modify" by { assert "update"[0] != "modify"[0]; }
    }
  }

  /** Canonicalising an already canonical name changes nothing. */
  lemma CanonicalizeActionIdempotent(action: string)
    ensures CanonicalizeAction(CanonicalizeAction(action)) == CanonicalizeAction(action)
  {
    if Lower(Strip(action)) in ActionSynonyms {
      SynonymIdempotent(action);
    } else {
      NormalFixed(action);
    }
  }

  /** A synonym maps to a canonical name, which canonicalises to itself. */
  lemma SynonymIdempotent(action: string)
    requires Lower(Strip(action)) in ActionSynonyms
    ensures CanonicalizeAction(CanonicalizeAction(action)) == CanonicalizeAction(action)
  {
    var act := Lower(Strip(action));
    SynonymMeaning(act);
    assert act in {"create", "make", "add", "delete", "remove", "update", "modify"};
    var c := CanonicalizeAction(action);
    assert c == "create" || c == "delete" || c == "update";
    CanonicalStays(c);
  }

  /** A canonical name canonicalises to itself. */
  lemma CanonicalStays(c: string)
    requires c == "create" || c == "delete" || c == "update"
    ensures CanonicalizeAction(c) == c
  {
    CanonicalFixed(c);
  }

  // ---------------------------------------------------------------------------
  // Multi-domain key resolution (`_resolve_intent_key`)
  // ---------------------------------------------------------------------------

  /** The mapping key for an intent: "{domain or 'general'}.{name}" when present, else the bare name. */
  function ResolveIntentKey(mapping: Mapping, name: string, domain: string): (r: Result<string>)
    ensures r.Ok? ==> r.value in mapping
    ensures r.Ok? <==> (if domain == "" then "general" else domain) + "." + name in mapping || name in mapping
    ensures (if domain == "" then "general" else domain) + "." + name in mapping
            ==> r == Ok((if domain == "" then "general" else domain) + "." + name)
    ensures r.Ok? && r.value != name ==> r.value == (if domain == "" then "general" else domain) + "." + name
  {
    var dom := if domain == "" then "general" else domain;
    var composite := dom + "." + name;
    if composite in mapping then Ok(composite)
    else if name in mapping then Ok(name)
    else Err("IntentMappingError: No mapping entry for: " + name)
  }

  // ---------------------------------------------------------------------------
  // Mapping confidence and `map_v7`
  // ---------------------------------------------------------------------------

  /** `max(0, min(1, completeness * 0.9))` with completeness over `max(len(required), 1)`. */
  function MappingConfidence(nMissing: nat, nRequired: nat): real {
    Clamp01(Completeness(nMissing, nRequired) * 0.9)
  }

  /** The mapping confidence never exceeds 0.9, is 0.9 with nothing missing, and falls as more is missing. */
  lemma MappingConfidenceBounds(nMissing: nat, nRequired: nat, moreMissing: nat)
    ensures 0.0 <= MappingConfidence(nMissing, nRequired) <= 0.9
    ensures nMissing == 0 ==> MappingConfidence(nMissing, nRequired) == 0.9
    ensures nMissing <= moreMissing ==> MappingConfidence(moreMissing, nRequired) <= MappingConfidence(nMissing, nRequired)
  {
    var total := if nRequired == 0 then 1.0 else nRequired as real;
    assert Completeness(nMissing, nRequired) <= 1.0;
    if nMissing <= moreMissing {
      assert (nMissing as real) / total <= (moreMissing as real) / total;
      assert Completeness(moreMissing, nRequired) <= Completeness(nMissing, nRequired);
    }
  }

  /** The result of `map_v7`. */
  datatype Mapped = Mapped(
    workflowName: Json,
    parameters: Obj,
    missing: seq<string>,
    ambiguous: map<string, (Json, Json)>,
    confidence: real,
    version: string)

  /**
   * `map_v7` for an intent with the given name, domain, parameters and
   * context: resolve the entry, fill its slots, route, score.
   */
  method MapV7(mapping: Mapping, name: string, domain: string, intentParams: Obj, intentContext: Obj, context: Obj)
    returns (r: Result<Mapped>)
    ensures ResolveIntentKey(mapping, name, domain).Err? ==> r.Err?
    ensures ResolveIntentKey(mapping, name, domain).Ok? ==>
              var entry := mapping[ResolveIntentKey(mapping, name, domain).value];
              (r.Err? <==> GuardrailRouting(intentContext, entry).Err?)
              && (r.Ok? ==>
                    Ok(r.value.workflowName) == GuardrailRouting(intentContext, entry)
                    && r.value.parameters.Keys == Names(entry.required) + intentParams.Keys + entry.defaults.Keys
                    && (forall k :: k in r.value.parameters ==>
                          r.value.parameters[k] == Pick([Get(intentParams, k), Get(context, k), Get(entry.defaults, k)]))
                    && (forall k :: k in r.value.ambiguous <==> k in r.value.parameters && Conflict([intentParams, context], k))
                    && (forall k :: k in r.value.ambiguous ==> r.value.ambiguous[k] == (Get(intentParams, k), Get(context, k)))
                    && (forall k :: k in r.value.missing ==> k in entry.required)
                    && (forall k :: k in entry.required ==>
                          (k in r.value.missing <==> Pick([Get(intentParams, k), Get(context, k), Get(entry.defaults, k)]) == JNull))
                    && |r.value.missing| <= |entry.required|
                    && r.value.confidence == MappingConfidence(|r.value.missing|, |entry.required|)
                    && r.value.version == "v7")
  {
    var key := ResolveIntentKey(mapping, name, domain);
    if key.Err? {
      return Err(key.error);
    }
    var entry := mapping[key.value];
    var params, missing, ambiguous := SlotFill(entry, intentParams, context);
    var workflow := GuardrailRouting(intentContext, entry);
    if workflow.Err? {
      return Err(workflow.error);
    }
    var confidence := MappingConfidence(|missing|, |entry.required|);
    return Ok(Mapped(workflow.value, params, missing, ambiguous, confidence, "v7"));
  }
}
