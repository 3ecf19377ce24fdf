/**
 * The parsing orchestration: risk tagging of a parse by the verb guardrails,
 * the heuristic fallback parser, the decision to fall back, and the pure
 * steps of `parse_command` that assemble, canonicalise and flag a parse.
 * Configuration files, the language-model call, the prompt-version file,
 * the database log and telemetry are parameters or left out.
 */
module ParserEngine {
  import opened Wrappers
  import opened Text
  import opened Json
  import opened Canonicalizer
  import opened Masking
  import opened AiParser

  // ---------------------------------------------------------------------------
  // Flag merging: `list(dict.fromkeys(existing + new))`
  // ---------------------------------------------------------------------------

  /** The dictionary key a hashable value stands for: bools, ints and floats that compare equal share one key. */
  function Key(v: Json): Json {
    if Num(v).Some? then JReal(Num(v).value) else v
  }

  /** On hashable values, Python's `==` is equality of keys. */
  lemma KeyIsPyEq(a: Json, b: Json)
    requires Hashable(a) && Hashable(b)
    ensures PyEq(a, b) <==> Key(a) == Key(b)
  {
  }

  predicate AllHashable(xs: seq<Json>) {
    forall i :: 0 <= i < |xs| ==> Hashable(xs[i])
  }

  /** Some element of `xs` has the key of `v`. */
  predicate Seen(xs: seq<Json>, v: Json) {
    exists i :: 0 <= i < |xs| && Key(xs[i]) == Key(v)
  }

  /** The first occurrence of each key, in order. */
  function Dedup(xs: seq<Json>): seq<Json>
    decreases |xs|
  {
    if |xs| == 0 then []
    else
      var d := Dedup(xs[..|xs| - 1]);
      if Seen(d, xs[|xs| - 1]) then d else d + [xs[|xs| - 1]]
  }

  predicate DistinctKeys(xs: seq<Json>) {
    forall i, j :: 0 <= i < j < |xs| ==> Key(xs[i]) != Key(xs[j])
  }

  /** The merged flags hold no two equal values. */
  lemma {:induction false} DedupDistinct(xs: seq<Json>)
    ensures DistinctKeys(Dedup(xs))
    decreases |xs|
  {
    if |xs| > 0 {
      DedupDistinct(xs[..|xs| - 1]);
    }
  }

  /** The merged flags are values of the input. */
  lemma {:induction false} DedupSound(xs: seq<Json>)
    ensures forall i :: 0 <= i < |Dedup(xs)| ==> Dedup(xs)[i] in xs
    decreases |xs|
  {
    if |xs| > 0 {
      var pre := xs[..|xs| - 1];
      DedupSound(pre);
      forall i | 0 <= i < |Dedup(pre)|
        ensures Dedup(pre)[i] in xs
      {
        assert Dedup(pre)[i] in pre;
      }
    }
  }

  /** Every input value is represented in the merged flags. */
  lemma {:induction false} DedupComplete(xs: seq<Json>)
    ensures forall i :: 0 <= i < |xs| ==> Seen(Dedup(xs), xs[i])
    decreases |xs|
  {
    if |xs| > 0 {
      var pre := xs[..|xs| - 1];
      DedupComplete(pre);
      var d := Dedup(pre);
      assert d <= Dedup(xs);
      forall i | 0 <= i < |pre|
        ensures Seen(Dedup(xs), xs[i])
      {
        assert Seen(d, pre[i]);
        var h :| 0 <= h < |d| && Key(d[h]) == Key(pre[i]);
        assert Dedup(xs)[h] == d[h];
      }
      if !Seen(d, xs[|xs| - 1]) {
        assert Dedup(xs)[|d|] == xs[|xs| - 1];
      }
    }
  }

  /** Values already present keep their place: merging more flags only appends. */
  lemma {:induction false} DedupPrefix(xs: seq<Json>, ys: seq<Json>)
    ensures Dedup(xs) <= Dedup(xs + ys)
    decreases |ys|
  {
    if |ys| == 0 {
      assert xs + ys == xs;
    } else {
      var ys' := ys[..|ys| - 1];
      DedupPrefix(xs, ys');
      assert (xs + ys)[..|xs + ys| - 1] == xs + ys';
    }
  }

  /** Merging values whose keys are all present already changes nothing. */
  lemma {:induction false} DedupAppendSeen(xs: seq<Json>, ys: seq<Json>)
    requires forall i :: 0 <= i < |ys| ==> Seen(Dedup(xs), ys[i])
    ensures Dedup(xs + ys) == Dedup(xs)
    decreases |ys|
  {
    if |ys| == 0 {
      assert xs + ys == xs;
    } else {
      var ys' := ys[..|ys| - 1];
      DedupAppendSeen(xs, ys');
      assert (xs + ys)[..|xs + ys| - 1] == xs + ys';
      assert Seen(Dedup(xs), ys[|ys| - 1]);
    }
  }

  /** A list without repeated keys is its own merge. */
  lemma {:induction false} DedupOfDistinct(xs: seq<Json>)
    requires DistinctKeys(xs)
    ensures Dedup(xs) == xs
    decreases |xs|
  {
    if |xs| > 0 {
      var pre := xs[..|xs| - 1];
      DedupOfDistinct(pre);
      assert pre + [xs[|xs| - 1]] == xs;
    }
  }

  /** Tagging an already tagged parse again leaves its flags as they are. */
  lemma MergeFlagsStable(existing: seq<Json>, added: seq<Json>)
    ensures Dedup(Dedup(existing + added) + added) == Dedup(existing + added)
  {
    var m := Dedup(existing + added);
    DedupDistinct(existing + added);
    DedupComplete(existing + added);
    DedupOfDistinct(m);
    forall i | 0 <= i < |added|
      ensures Seen(Dedup(m), added[i])
    {
      assert (existing + added)[|existing| + i] == added[i];
    }
    DedupAppendSeen(m, added);
  }

  // ---------------------------------------------------------------------------
  // `apply_guardrails`
  // ---------------------------------------------------------------------------

  /** The verb lists of the guardrails configuration file, as sets. */
  datatype Guardrails = Guardrails(allowed: set<string>, risky: set<string>, blocked: set<string>)

  /** The risk level by precedence: blocked, then risky, then allowed, else medium. */
  function RiskLevel(cfg: Guardrails, action: string): string {
    if action in cfg.blocked then "blocked"
    else if action in cfg.risky then "high"
    else if action in cfg.allowed then "low"
    else "medium"
  }

  /** The flag raised alongside the risk level, if any. */
  function TierFlags(cfg: Guardrails, action: string): seq<Json> {
    if action in cfg.blocked then [JStr("blocked_action")]
    else if action in cfg.risky then [JStr("risky_action")]
    else if action in cfg.allowed then []
    else [JStr("unknown_action")]
  }

  /** Each level holds exactly for its verbs, a listed verb always outranks a lower list, and only "low" raises no flag. */
  lemma RiskPrecedence(cfg: Guardrails, action: string)
    ensures RiskLevel(cfg, action) == "blocked" <==> action in cfg.blocked
    ensures RiskLevel(cfg, action) == "high" <==> action !in cfg.blocked && action in cfg.risky
    ensures RiskLevel(cfg, action) == "low" <==>
              action !in cfg.blocked && action !in cfg.risky && action in cfg.allowed
    ensures RiskLevel(cfg, action) == "medium" <==>
              action !in cfg.blocked && action !in cfg.risky && action !in cfg.allowed
    ensures TierFlags(cfg, action) == [] <==> RiskLevel(cfg, action) == "low"
  {
  }

  /** `(parsed.get("action") or "").lower()`; only a string or a falsy action gets that far. */
  function ActionLower(parsed: Obj): string
    requires StrOrFalsy(Get(parsed, "action"))
  {
    var a := Get(parsed, "action");
    if Truthy(a) then Lower(a.s) else ""
  }

  /** The context after `setdefault("context", {})`, or None when it is not a mapping (`.get` raises). */
  function ContextIn(parsed: Obj): Option<Obj> {
    if "context" !in parsed then Some(map[])
    else if parsed["context"].JObj? then Some(parsed["context"].fields)
    else None
  }

  /** The precedence chain of `apply_guardrails`: the risk level it sets and the flag it raises. */
  method RaiseTier(cfg: Guardrails, action: string, parsed: Obj) returns (out: Obj, flags: seq<Json>)
    ensures out == parsed["risk_level" := JStr(RiskLevel(cfg, action))]
    ensures flags == TierFlags(cfg, action)
  {
    flags := [];
    out := parsed;
    if action in cfg.blocked {
      flags := flags + [JStr("blocked_action")];
      out := out["risk_level" := JStr("blocked")];
    } else if action in cfg.risky {
      flags := flags + [JStr("risky_action")];
      out := out["risk_level" := JStr("high")];
    } else if action in cfg.allowed {
      out := out["risk_level" := JStr("low")];
    } else {
      flags := flags + [JStr("unknown_action")];
      out := out["risk_level" := JStr("medium")];
    }
  }

  /**
   * `apply_guardrails` with the configuration as a parameter: sets the risk
   * level and merges the existing flags with the new one, deduplicated in
   * order. Raises (Err) for a non-string action, a non-mapping context or an
   * unhashable existing flag; never changes any other key, in particular
   * neither the domain nor the action.
   */
  method ApplyGuardrails(parsed: Obj, cfg: Guardrails, render: Json -> string) returns (r: Result<Obj>)
    ensures r.Err? <==> !StrOrFalsy(Get(parsed, "action")) || ContextIn(parsed).None?
                        || !AllHashable(FlagsOf(ContextIn(parsed).value, render))
    ensures r.Ok? ==>
              r.value.Keys == parsed.Keys + {"risk_level", "context"}
              && forall k :: k in parsed && k !in {"risk_level", "context"} ==> r.value[k] == parsed[k]
    ensures r.Ok? ==> r.value["risk_level"] == JStr(RiskLevel(cfg, ActionLower(parsed)))
    ensures r.Ok? ==>
              var ctx := ContextIn(parsed).value;
              r.value["context"]
              == JObj(ctx["guardrail_flags" := JList(Dedup(FlagsOf(ctx, render) + TierFlags(cfg, ActionLower(parsed))))])
  {
    var raw := Get(parsed, "action");
    if !StrOrFalsy(raw) {
      return Err("AttributeError: lower");
    }
    var action := if Truthy(raw) then Lower(raw.s) else "";
    var out := parsed;
    if "context" !in out {
      out := out["context" := JObj(map[])];
    }
    if !out["context"].JObj? {
      return Err("AttributeError: get");
    }
    var ctx := out["context"].fields;
    var existing := FlagsOf(ctx, render);
    var flags;
    out, flags := RaiseTier(cfg, action, out);
    if !AllHashable(existing) {
      return Err("TypeError: unhashable type");
    }
    var merged := Dedup(existing + flags);
    out := out["context" := JObj(ctx["guardrail_flags" := JList(merged)])];
    return Ok(out);
  }

  // ---------------------------------------------------------------------------
  // The heuristic fallback parser
  // ---------------------------------------------------------------------------

  /** The keyword chain of `CommandParser._guess_domain`, in order. */
  const FallbackIndex: seq<Group> := [
    TradingWords, LogisticsWords, FinanceWords, HrWords, ItOpsWords,
    DevopsWords, CustomerSupportWords, OperationsWords, AnalyticsWords, SalesWords,
    MarketingWords, ProcurementWords, ManufacturingWords, LegalWords, RetailWords,
    EnergyWords, HealthcareAdminWords, GeneralAdminWords, KnowledgeWorkWords
  ]

  const TradingWords := Group("trading", ["contract", "hedge", "pnl", "hedging", "mt", "shipment"])
  const LogisticsWords := Group("logistics", ["ship", "vessel", "eta", "load", "port", "truck", "warehouse", "delivery"])
  const FinanceWords := Group("finance", ["invoice", "cashflow", "pnl", "tax", "budget", "expense"])
  const HrWords := Group("hr", ["employee", "onboarding", "vacation", "leave", "hr"])
  const ItOpsWords := Group("it_ops", ["service", "incident", "cluster", "server", "restart", "patch"])
  const DevopsWords := Group("devops", ["microservice", "load test", "deploy pipeline", "devops"])
  const CustomerSupportWords := Group("customer_support", ["ticket", "support case", "escalation"])
  const OperationsWords := Group("operations", ["maintenance", "checklist", "operational risk", "incidents"])
  const AnalyticsWords := Group("analytics", ["forecast", "demand", "retention", "churn", "analytics"])
  const SalesWords := Group("sales", ["opportunity", "pipeline", "win-loss", "sales"])
  const MarketingWords := Group("marketing", ["campaign", "marketing", "engagement", "competitive report"])
  const ProcurementWords := Group("procurement", ["purchase order", "suppliers", "vendor", "sourcing"])
  const ManufacturingWords := Group("manufacturing", ["machine", "work orders", "plant", "assembly"])
  const LegalWords := Group("legal", ["nda", "contract", "compliance", "regulation", "legal"])
  const RetailWords := Group("retail", ["store", "inventory", "stockout", "retail"])
  const EnergyWords := Group("energy", ["grid", "outage", "energy", "renewable"])
  const HealthcareAdminWords := Group("healthcare_admin", ["patient", "claims", "lab results"])
  const GeneralAdminWords := Group("general_admin", ["meeting", "travel request", "okr", "office supplies"])
  const KnowledgeWorkWords := Group("knowledge_work", ["knowledge base", "documentation", "specification", "docs"])

  /** `_guess_domain`: the first group with a keyword in the lowercased text, else `default`. */
  function GuessDomain(text: string, default: string): string {
    var i := FirstGroup(Lower(text), FallbackIndex);
    if i < |FallbackIndex| then FallbackIndex[i].name else default
  }

  /** The guess is the first group, in chain order, with a keyword in the lowercased text; with none, the default. */
  lemma GuessDomainFirstMatch(text: string, default: string)
    ensures var t := Lower(text);
            forall j :: 0 <= j < |FallbackIndex| && AnyIn(t, FallbackIndex[j].keywords) ==>
              exists i :: 0 <= i <= j && GuessDomain(text, default) == FallbackIndex[i].name
                          && AnyIn(t, FallbackIndex[i].keywords)
                          && forall h :: 0 <= h < i ==> !AnyIn(t, FallbackIndex[h].keywords)
    ensures var t := Lower(text);
            forall j :: 0 <= j < |FallbackIndex| && AnyIn(t, FallbackIndex[j].keywords)
                        && (forall h :: 0 <= h < j ==> !AnyIn(t, FallbackIndex[h].keywords))
                        ==> GuessDomain(text, default) == FallbackIndex[j].name
    ensures (forall j :: 0 <= j < |FallbackIndex| ==> !AnyIn(Lower(text), FallbackIndex[j].keywords))
            ==> GuessDomain(text, default) == default
  {
  }

  /** "contract" is claimed by trading before legal, and "pnl" by trading before finance. */
  lemma TradingShadows(text: string, default: string)
    requires Contains(Lower(text), "contract") || Contains(Lower(text), "pnl")
    ensures GuessDomain(text, default) == "trading"
  {
    var t := Lower(text);
    AnyInIff(t, TradingWords.keywords);
    if Contains(t, "contract") {
      assert Contains(t, TradingWords.keywords[0]);
    } else {
      assert Contains(t, TradingWords.keywords[2]);
    }
    FirstGroupIs(t, FallbackIndex, 0);
  }

  /** `_extract_action`: the first whitespace-separated token, lowercased, or "unknown" for blank text. */
  function ExtractAction(text: string): string {
    var parts := Words(Strip(text));
    if |parts| > 0 then Lower(parts[0]) else "unknown"
  }

  /** Blank text gives "unknown"; any other text its first token, lowercased, which is non-empty and has no whitespace. */
  lemma ExtractActionMeaning(text: string)
    ensures AllSpace(text) ==> ExtractAction(text) == "unknown"
    ensures !AllSpace(text) ==>
              ExtractAction(text) == Lower(TakeWord(Strip(text)))
              && ExtractAction(text) != [] && NoSpace(ExtractAction(text))
  {
    if AllSpace(text) {
      assert Strip(text) == [];
    } else {
      FirstWordOf(Strip(text));
    }
  }

  /** The first token of a stripped non-blank text is its first word, non-empty and without whitespace once lowercased. */
  lemma FirstWordOf(s: string)
    requires s != [] && !IsSpace(s[0])
    ensures var parts := Words(s);
            |parts| > 0 && parts[0] == TakeWord(s) && Lower(parts[0]) != [] && NoSpace(Lower(parts[0]))
  {
    var w := TakeWord(s);
    assert w == [s[0]] + TakeWord(s[1..]);
    assert Words(s) == [w] + Words(s[|w|..]);
    var l := Lower(w);
    forall i | 0 <= i < |l| ensures !IsSpace(l[i]) {
      assert !IsSpace(w[i]);
    }
  }

  /** The six-key parse both parsers produce. */
  function Record(rawText: Json, intent: Json, action: Json, parameters: Json, domain: Json, context: Json): (p: Obj)
    ensures p.Keys == {"raw_text", "intent", "action", "parameters", "domain", "context"}
    ensures p["raw_text"] == rawText && p["intent"] == intent && p["action"] == action
    ensures p["parameters"] == parameters && p["domain"] == domain && p["context"] == context
  {
    map["raw_text" := rawText, "intent" := intent, "action" := action,
        "parameters" := parameters, "domain" := domain, "context" := context]
  }

  /** `CommandParser.extract`: the heuristic parse of a command. */
  function Extract(text: string, domain: string): (p: Obj)
    ensures p.Keys == {"raw_text", "intent", "action", "parameters", "domain", "context"}
    ensures p["action"] == JStr(ExtractAction(text)) && p["domain"] == JStr(GuessDomain(text, domain))
    ensures p["parameters"] == JObj(map[]) && p["context"] == JObj(map[])
  {
    Record(JStr(text), JStr(""), JStr(ExtractAction(text)), JObj(map[]), JStr(GuessDomain(text, domain)), JObj(map[]))
  }

  // ---------------------------------------------------------------------------
  // `_should_use_fallback`
  // ---------------------------------------------------------------------------

  /** `v is None or v == ""`. */
  predicate Blank(v: Json) {
    v == JNull || v == JStr("")
  }

  /** `_should_use_fallback`, as the chain of early returns it is. */
  function ShouldUseFallback(ai: Obj): bool {
    if ai == map[] then true
    else
      var ctx := Or(Get(ai, "context"), JObj(map[]));
      if ctx.JObj? && Truthy(Get(ctx.fields, "parse_error")) then true
      else Blank(Get(ai, "domain")) && Blank(Get(ai, "action"))
  }

  /** The AI result is unusable exactly when it is empty, reports a parse error, or names neither domain nor action. */
  lemma ShouldUseFallbackIff(ai: Obj)
    ensures ShouldUseFallback(ai) <==>
              ai == map[]
              || (Get(ai, "context").JObj? && Truthy(Get(Get(ai, "context").fields, "parse_error")))
              || (Blank(Get(ai, "domain")) && Blank(Get(ai, "action")))
  {
    if !Truthy(Get(ai, "context")) && Get(ai, "context").JObj? {
      assert Get(ai, "context").fields == map[];
    }
  }

  // ---------------------------------------------------------------------------
  // `parse_command`
  // ---------------------------------------------------------------------------

  /** `dict(context or {})` with the domain argument added as a hint when it is non-empty and absent. */
  function BaseContext(context: Obj, domain: string): (b: Obj)
    ensures domain != "" && "domain" !in context ==> b == context["domain" := JStr(domain)]
    ensures domain == "" || "domain" in context ==> b == context
  {
    if domain != "" && "domain" !in context then context["domain" := JStr(domain)] else context
  }

  /** The parse built on the fallback path, marked as such, with confidence 0.3. */
  function FallbackDraft(text: string, domain: string): (p: Obj)
    ensures p.Keys == {"raw_text", "intent", "action", "parameters", "domain", "context"}
    ensures p["action"] == JStr(ExtractAction(text))
    ensures p["domain"] == Or(JStr(GuessDomain(text, domain)), JStr(domain))
    ensures p["parameters"] == JObj(map[])
    ensures p["context"] == JObj(map["used_fallback_parser" := JBool(true), "confidence" := JReal(0.3)])
  {
    var base := Extract(text, domain);
    FallbackFields(text, domain);
    Record(JStr(text), JStr(""), Get(base, "action"), Or(Get(base, "parameters"), JObj(map[])),
           Or(Get(base, "domain"), JStr(domain)), JObj(FallbackContext()))
  }

  /** The fallback context: the fallback mark, then `setdefault("confidence", 0.3)`. */
  function FallbackContext(): (ctx: Obj)
    ensures ctx == map["used_fallback_parser" := JBool(true), "confidence" := JReal(0.3)]
  {
    var ctx := map["used_fallback_parser" := JBool(true)];
    if "confidence" in ctx then ctx else ctx["confidence" := JReal(0.3)]
  }

  /** The fields the fallback parse takes over from the heuristic parse. */
  lemma FallbackFields(text: string, domain: string)
    ensures var base := Extract(text, domain);
            Get(base, "action") == JStr(ExtractAction(text))
            && Or(Get(base, "parameters"), JObj(map[])) == JObj(map[])
            && Or(Get(base, "domain"), JStr(domain)) == Or(JStr(GuessDomain(text, domain)), JStr(domain))
  {
  }

  /** `ai_parsed.get("context") or {}`, a non-mapping wrapped as `{"value": ...}`. */
  function AiContext(ai: Obj): Obj {
    var c := Or(Get(ai, "context"), JObj(map[]));
    if c.JObj? then c.fields else map["value" := c]
  }

  /** The parse built from a usable AI result: the inbound context overrides the parser's, marked as not a fallback. */
  function AiDraft(ai: Obj, base: Obj, text: string, domain: string): (p: Obj)
    ensures p.Keys == {"raw_text", "intent", "action", "parameters", "domain", "context"}
    ensures p["action"] == Get(ai, "action")
    ensures Truthy(Get(ai, "domain")) ==> p["domain"] == Get(ai, "domain")
    ensures Truthy(p["domain"])
    ensures p["context"] == JObj(MergedContext(AiContext(ai), base))
  {
    var merged := MergedContext(AiContext(ai), base);
    var finalDomain := Or(Or(Or(Get(ai, "domain"), Get(base, "domain")), JStr(domain)), JStr("general"));
    Record(JStr(text), (if "intent" in ai then ai["intent"] else JStr("")), Get(ai, "action"),
           Or(Get(ai, "parameters"), JObj(map[])), finalDomain, JObj(merged))
  }

  /** `{**ai_context, **base_context, "used_fallback_parser": False}`. */
  function MergedContext(aiCtx: Obj, base: Obj): (ctx: Obj)
    ensures ctx.Keys == aiCtx.Keys + base.Keys + {"used_fallback_parser"}
    ensures ctx["used_fallback_parser"] == JBool(false)
    ensures forall k :: k in base && k != "used_fallback_parser" ==> ctx[k] == base[k]
    ensures forall k :: k in aiCtx && k !in base && k != "used_fallback_parser" ==> ctx[k] == aiCtx[k]
  {
    var merged := map k | k in aiCtx.Keys + base.Keys :: if k in base then base[k] else aiCtx[k];
    merged["used_fallback_parser" := JBool(false)]
  }

  /** The parse before canonicalisation: the AI result unless it is unusable (or the call raised: None). */
  function Draft(text: string, context: Obj, domain: string, ai: Option<Obj>): (p: Obj)
    ensures "context" in p && p["context"].JObj?
  {
    var aiParsed := ai.GetOr(map[]);
    if ShouldUseFallback(aiParsed) then FallbackDraft(text, domain)
    else AiDraft(aiParsed, BaseContext(context, domain), text, domain)
  }

  /** The parse records which path built it. */
  lemma DraftMarksFallback(text: string, context: Obj, domain: string, ai: Option<Obj>)
    ensures Get(Draft(text, context, domain, ai)["context"].fields, "used_fallback_parser")
            == JBool(ShouldUseFallback(ai.GetOr(map[])))
  {
  }

  /** On the fallback path the confidence is 0.3. */
  lemma FallbackConfidence(text: string, domain: string, parseFloat: string -> Option<real>)
    ensures ConfidenceOf(FallbackDraft(text, domain)["context"].fields, parseFloat) == 0.3
  {
    FallbackContextConfidence(parseFloat);
  }

  /** The context the fallback path writes carries the confidence 0.3. */
  lemma FallbackContextConfidence(parseFloat: string -> Option<real>)
    ensures ConfidenceOf(map["used_fallback_parser" := JBool(true), "confidence" := JReal(0.3)], parseFloat) == 0.3
  {
    var ctx := map["used_fallback_parser" := JBool(true), "confidence" := JReal(0.3)];
    assert ctx["confidence"] == JReal(0.3);
  }

  /** The verb sets of the intent guardrails configuration. */
  datatype IntentGuardrails = IntentGuardrails(destructive: set<string>, highRisk: set<string>, mediumRisk: set<string>)

  /**
   * The confirmation step of `parse_command`: a destructive, medium- or
   * high-risk verb requires confirmation, a high-risk verb also requires an
   * administrator; nothing else in the context changes.
   */
  method MarkConfirmation(ctx: Obj, action: string, cfg: IntentGuardrails) returns (r: Obj)
    ensures forall k :: k in ctx && k !in {"requires_confirmation", "requires_admin"} ==> k in r && r[k] == ctx[k]
    ensures forall k :: k !in ctx && k !in {"requires_confirmation", "requires_admin"} ==> k !in r
    ensures action in cfg.destructive + cfg.mediumRisk + cfg.highRisk ==> Get(r, "requires_confirmation") == JBool(true)
    ensures action !in cfg.destructive + cfg.mediumRisk + cfg.highRisk ==>
              Get(r, "requires_confirmation") == Get(ctx, "requires_confirmation")
    ensures action in cfg.highRisk ==> Get(r, "requires_admin") == JBool(true)
    ensures action !in cfg.highRisk ==> Get(r, "requires_admin") == Get(ctx, "requires_admin")
  {
    r := ctx;
    if action in cfg.destructive {
      r := r["requires_confirmation" := JBool(true)];
    }
    if action in cfg.mediumRisk {
      r := r["requires_confirmation" := JBool(true)];
    }
    if action in cfg.highRisk {
      r := r["requires_confirmation" := JBool(true)];
      r := r["requires_admin" := JBool(true)];
    }
  }

  /** The configuration `parse_command` reads. */
  datatype EngineConfig = EngineConfig(guardrails: Guardrails, intent: IntentGuardrails)

  /** A canonical parse: the shape `canonicalize` returns, with the context a mapping. */
  predicate Canonical(parsed: Obj) {
    "action" in parsed && parsed["action"].JStr? && "domain" in parsed && parsed["domain"].JStr?
    && "context" in parsed && parsed["context"].JObj?
  }

  /** `parsed["context"].get("reasoning_trace")`, masked when present: the value the log records. */
  function MaskedReasoning(ctx: Obj, m: Maskers): Json {
    var reasoning := Get(ctx, "reasoning_trace");
    if Truthy(reasoning) then MaskReasoning(m, reasoning) else JNull
  }

  /**
   * What steps 3 to 7 of `parse_command` do to a canonical parse: the risk
   * level, merged flags, confirmation and administrator marks, the clamped
   * confidence and the prompt version are set; every other key of the parse
   * and of its context is kept; the masked reasoning is returned for the log.
   */
  ghost predicate Finished(parsed: Obj, out: Obj, masked: Json, cfg: EngineConfig,
                           parseFloat: string -> Option<real>, render: Json -> string,
                           versions: string -> (Json, Json), m: Maskers)
    requires Canonical(parsed)
  {
    FinishedParse(parsed, out, cfg, versions)
    && FinishedContext(parsed, out, cfg, parseFloat, render)
    && masked == MaskedReasoning(parsed["context"].fields, m)
  }

  /** The top level: risk level and prompt version added, the context replaced, nothing else changed. */
  ghost predicate FinishedParse(parsed: Obj, out: Obj, cfg: EngineConfig, versions: string -> (Json, Json))
    requires Canonical(parsed)
  {
    out.Keys == parsed.Keys + {"risk_level", "prompt_version", "prompt_version_updated_at"}
    && (forall k :: k in parsed && k !in {"context", "risk_level", "prompt_version", "prompt_version_updated_at"} ==>
          out[k] == parsed[k])
    && out["risk_level"] == JStr(RiskLevel(cfg.guardrails, Lower(parsed["action"].s)))
    && (out["prompt_version"], out["prompt_version_updated_at"]) == versions(parsed["domain"].s)
    && out["context"].JObj?
  }

  /** The context: marks, merged flags and clamped confidence set, every other entry kept. */
  ghost predicate FinishedContext(parsed: Obj, out: Obj, cfg: EngineConfig,
                                  parseFloat: string -> Option<real>, render: Json -> string)
    requires Canonical(parsed)
  {
    var a := Lower(parsed["action"].s);
    var pctx := parsed["context"].fields;
    "context" in out && out["context"].JObj?
    && var ctx := out["context"].fields;
    (forall k :: k in pctx && k !in {"requires_confirmation", "requires_admin", "guardrail_flags", "confidence"} ==>
       k in ctx && ctx[k] == pctx[k])
    && (forall k :: k !in pctx && k !in {"requires_confirmation", "requires_admin", "guardrail_flags", "confidence"} ==>
       k !in ctx)
    && Get(ctx, "confidence") == JReal(ConfidenceOf(pctx, parseFloat))
    && Get(ctx, "guardrail_flags") == JList(Dedup(FlagsOf(pctx, render) + TierFlags(cfg.guardrails, a)))
    && (a in cfg.intent.destructive + cfg.intent.mediumRisk + cfg.intent.highRisk ==>
          Get(ctx, "requires_confirmation") == JBool(true))
    && (a !in cfg.intent.destructive + cfg.intent.mediumRisk + cfg.intent.highRisk ==>
          Get(ctx, "requires_confirmation") == Get(pctx, "requires_confirmation"))
    && (a in cfg.intent.highRisk ==> Get(ctx, "requires_admin") == JBool(true))
    && (a !in cfg.intent.highRisk ==> Get(ctx, "requires_admin") == Get(pctx, "requires_admin"))
  }

  /** Steps 5 and 6 of `parse_command`: the clamped confidence and the prompt version of the domain. */
  method Stamp(parsed: Obj, parseFloat: string -> Option<real>, versions: string -> (Json, Json))
    returns (out: Obj)
    requires "context" in parsed && parsed["context"].JObj? && "domain" in parsed && parsed["domain"].JStr?
    ensures out.Keys == parsed.Keys + {"prompt_version", "prompt_version_updated_at"}
    ensures forall k :: k in parsed && k !in {"context", "prompt_version", "prompt_version_updated_at"} ==>
              out[k] == parsed[k]
    ensures (out["prompt_version"], out["prompt_version_updated_at"]) == versions(parsed["domain"].s)
    ensures var ctx := parsed["context"].fields;
            out["context"] == JObj(ctx["confidence" := JReal(ConfidenceOf(ctx, parseFloat))])
  {
    var ctx := parsed["context"].fields;
    ctx := ctx["confidence" := JReal(ConfidenceOf(ctx, parseFloat))];
    out := parsed["context" := JObj(ctx)];
    var (version, updatedAt) := versions(out["domain"].s);
    out := out["prompt_version" := version]["prompt_version_updated_at" := updatedAt];
  }

  /** What the confirmation step does to the context: the marks set as the verb lists say, every other entry kept. */
  ghost predicate Marked(pctx: Obj, ctx: Obj, a: string, cfg: IntentGuardrails) {
    (forall k :: k in pctx && k !in {"requires_confirmation", "requires_admin"} ==> k in ctx && ctx[k] == pctx[k])
    && (forall k :: k !in pctx && k !in {"requires_confirmation", "requires_admin"} ==> k !in ctx)
    && (a in cfg.destructive + cfg.mediumRisk + cfg.highRisk ==> Get(ctx, "requires_confirmation") == JBool(true))
    && (a !in cfg.destructive + cfg.mediumRisk + cfg.highRisk ==>
          Get(ctx, "requires_confirmation") == Get(pctx, "requires_confirmation"))
    && (a in cfg.highRisk ==> Get(ctx, "requires_admin") == JBool(true))
    && (a !in cfg.highRisk ==> Get(ctx, "requires_admin") == Get(pctx, "requires_admin"))
  }

  /** What guardrail tagging does to the marked parse: the risk level set and the flags merged into the marked context. */
  ghost predicate Tagged(parsed: Obj, ctx: Obj, tagged: Obj, cfg: Guardrails, render: Json -> string)
    requires Canonical(parsed)
  {
    var a := Lower(parsed["action"].s);
    tagged.Keys == parsed.Keys + {"risk_level", "context"}
    && (forall k :: k in parsed && k !in {"risk_level", "context"} ==> tagged[k] == parsed[k])
    && tagged["risk_level"] == JStr(RiskLevel(cfg, a))
    && tagged["context"] == JObj(ctx["guardrail_flags" := JList(Dedup(FlagsOf(parsed["context"].fields, render) + TierFlags(cfg, a)))])
  }

  /** Steps 3 and 4 of `parse_command`: the confirmation marks, then the guardrails; raises only for an unhashable flag. */
  method MarkAndTag(parsed: Obj, cfg: EngineConfig, render: Json -> string) returns (ctx: Obj, tagged: Result<Obj>)
    requires Canonical(parsed)
    ensures Marked(parsed["context"].fields, ctx, Lower(parsed["action"].s), cfg.intent)
    ensures tagged.Err? <==> !AllHashable(FlagsOf(parsed["context"].fields, render))
    ensures tagged.Ok? ==> Tagged(parsed, ctx, tagged.value, cfg.guardrails, render)
  {
    var pctx := parsed["context"].fields;
    var actionLower := Lower(parsed["action"].s);
    ctx := MarkConfirmation(pctx, actionLower, cfg.intent);
    var marked := parsed["context" := JObj(ctx)];
    assert FlagsOf(ctx, render) == FlagsOf(pctx, render) by {
      assert Get(ctx, "guardrail_flags") == Get(pctx, "guardrail_flags");
    }
    assert ActionLower(marked) == actionLower;
    tagged := ApplyGuardrails(marked, cfg.guardrails, render);
  }

  /** Steps 3 to 7 of `parse_command` on a canonical parse; raises only for an unhashable flag to merge. */
  method Finish(parsed: Obj, cfg: EngineConfig, parseFloat: string -> Option<real>, render: Json -> string,
                versions: string -> (Json, Json), m: Maskers)
    returns (r: Result<(Obj, Json)>)
    requires Canonical(parsed)
    ensures r.Err? <==> !AllHashable(FlagsOf(parsed["context"].fields, render))
    ensures r.Ok? ==> Finished(parsed, r.value.0, r.value.1, cfg, parseFloat, render, versions, m)
  {
    var ctx, tagged := MarkAndTag(parsed, cfg, render);
    if tagged.Err? {
      return Err(tagged.error);
    }
    var out := Stamp(tagged.value, parseFloat, versions);
    var masked := MaskedReasoning(out["context"].fields, m);
    FinishedFrom(parsed, ctx, tagged.value, out, masked, cfg, parseFloat, render, versions, m);
    return Ok((out, masked));
  }

  /** Marking, tagging and stamping give the finished parse. */
  lemma FinishedFrom(parsed: Obj, ctx: Obj, tagged: Obj, out: Obj, masked: Json, cfg: EngineConfig,
                     parseFloat: string -> Option<real>, render: Json -> string,
                     versions: string -> (Json, Json), m: Maskers)
    requires Canonical(parsed)
    requires Marked(parsed["context"].fields, ctx, Lower(parsed["action"].s), cfg.intent)
    requires Tagged(parsed, ctx, tagged, cfg.guardrails, render)
    requires out.Keys == tagged.Keys + {"prompt_version", "prompt_version_updated_at"}
    requires forall k :: k in tagged && k !in {"context", "prompt_version", "prompt_version_updated_at"} ==> out[k] == tagged[k]
    requires (out["prompt_version"], out["prompt_version_updated_at"]) == versions(tagged["domain"].s)
    requires var tctx := tagged["context"].fields;
             out["context"] == JObj(tctx["confidence" := JReal(ConfidenceOf(tctx, parseFloat))])
    requires masked == MaskedReasoning(out["context"].fields, m)
    ensures Finished(parsed, out, masked, cfg, parseFloat, render, versions, m)
  {
    var pctx := parsed["context"].fields;
    var tctx := tagged["context"].fields;
    FinishedParseFrom(parsed, tagged, out, cfg, versions);
    FinishedContextFrom(parsed, ctx, tctx, out, cfg, parseFloat, render);
    var flags := Dedup(FlagsOf(pctx, render) + TierFlags(cfg.guardrails, Lower(parsed["action"].s)));
    ReasoningKept(pctx, ctx, tctx, out["context"].fields, JList(flags), JReal(ConfidenceOf(tctx, parseFloat)));
  }

  /** Marking, flag merging and the confidence update leave the reasoning trace alone. */
  lemma ReasoningKept(pctx: Obj, ctx: Obj, tctx: Obj, octx: Obj, flags: Json, confidence: Json)
    requires forall k :: k in pctx && k !in {"requires_confirmation", "requires_admin"} ==> k in ctx && ctx[k] == pctx[k]
    requires forall k :: k !in pctx && k !in {"requires_confirmation", "requires_admin"} ==> k !in ctx
    requires tctx == ctx["guardrail_flags" := flags] && octx == tctx["confidence" := confidence]
    ensures Get(octx, "reasoning_trace") == Get(pctx, "reasoning_trace")
  {
    var rt := "reasoning_trace";
    assert rt != "requires_confirmation" && rt != "requires_admin" && rt != "confidence" by {
      assert |rt| == 15;
    }
    assert rt != "guardrail_flags" by {
      assert rt[0] != "guardrail_flags"[0];
    }
  }

  /** Guardrail tagging then stamping give the finished top level. */
  lemma FinishedParseFrom(parsed: Obj, tagged: Obj, out: Obj, cfg: EngineConfig, versions: string -> (Json, Json))
    requires Canonical(parsed)
    requires tagged.Keys == parsed.Keys + {"risk_level", "context"}
    requires forall k :: k in parsed && k !in {"risk_level", "context"} ==> tagged[k] == parsed[k]
    requires tagged["risk_level"] == JStr(RiskLevel(cfg.guardrails, Lower(parsed["action"].s)))
    requires out.Keys == tagged.Keys + {"prompt_version", "prompt_version_updated_at"}
    requires forall k :: k in tagged && k !in {"context", "prompt_version", "prompt_version_updated_at"} ==> out[k] == tagged[k]
    requires (out["prompt_version"], out["prompt_version_updated_at"]) == versions(tagged["domain"].s)
    requires out["context"].JObj?
    ensures FinishedParse(parsed, out, cfg, versions)
  {
  }

  /** Marking, flag merging and the confidence update give the finished context. */
  lemma FinishedContextFrom(parsed: Obj, ctx: Obj, tagged: Obj, out: Obj, cfg: EngineConfig,
                            parseFloat: string -> Option<real>, render: Json -> string)
    requires Canonical(parsed)
    requires Marked(parsed["context"].fields, ctx, Lower(parsed["action"].s), cfg.intent)
    requires tagged == ctx["guardrail_flags" := JList(Dedup(FlagsOf(parsed["context"].fields, render)
                                                            + TierFlags(cfg.guardrails, Lower(parsed["action"].s))))]
    requires "context" in out && out["context"] == JObj(tagged["confidence" := JReal(ConfidenceOf(tagged, parseFloat))])
    ensures FinishedContext(parsed, out, cfg, parseFloat, render)
  {
    var pctx := parsed["context"].fields;
    assert Get(tagged, "confidence") == Get(pctx, "confidence");
    assert tagged.Keys == ctx.Keys + {"guardrail_flags"};
  }

  /** The parse handed to `canonicalize`. */
  function Canon(text: string, context: Obj, domain: string, ai: Option<Obj>): (c: Obj)
    requires CanonicalizeReady(Draft(text, context, domain, ai))
    ensures Canonical(c)
    ensures c["context"] == Draft(text, context, domain, ai)["context"]
  {
    Canonicalize(Draft(text, context, domain, ai), text)
  }

  /**
   * The pure steps of `parse_command`. `ai` is the AI parser's result (None
   * when it raised), `versions` the prompt-version lookup, `m` the masking
   * substitutions. Returns the final parse and the masked reasoning that goes
   * to the log. Raises (Err) when canonicalisation meets a non-string domain
   * or action, or parameters on which the vendor test's `in` raises, or a
   * flag to merge is unhashable.
   */
  method ParseCommand(text: string, context: Obj, domain: string, ai: Option<Obj>, cfg: EngineConfig,
                      parseFloat: string -> Option<real>, render: Json -> string,
                      versions: string -> (Json, Json), m: Maskers)
    returns (r: Result<(Obj, Json)>)
    ensures r.Err? <==> !CanonicalizeReady(Draft(text, context, domain, ai))
                        || !AllHashable(FlagsOf(Draft(text, context, domain, ai)["context"].fields, render))
    ensures r.Ok? ==>
              CanonicalizeReady(Draft(text, context, domain, ai))
              && Finished(Canon(text, context, domain, ai), r.value.0, r.value.1, cfg, parseFloat, render, versions, m)
  {
    var draft := Draft(text, context, domain, ai);
    if !CanonicalizeReady(draft) {
      if StrOrFalsy(Get(draft, "domain")) && StrOrFalsy(Get(draft, "action")) {
        return Err("TypeError: argument is not iterable");
      }
      return Err("AttributeError: strip");
    }
    var parsed := Canon(text, context, domain, ai);
    r := Finish(parsed, cfg, parseFloat, render, versions, m);
  }
}
