# ORKO command parsing and learning core, modelled in Dafny

ORKO turns a free-text business command into a structured intent. It
recognises the domain and action, fills slots, assigns a risk level and
flags when a guardrail is needed, then evaluates that pipeline offline
against labelled datasets. This project models the core of that backend:

- the shared text helpers, the JSON-like values the pipeline passes around,
  and Python's `int(...)` on strings (`foundation.dfy`);
- the domain registry and its keyword guess, and PII masking of reasoning
  text (`domain_registry.dfy`, `masking.dfy`);
- the semi-strict post-processing of the language model's parse: the
  action catalogue built from the registry examples, action resolution,
  parameter projection and default backfill (`ai_parser.dfy`);
- canonicalisation of actions, parameters, risk and guardrail flags
  (`canonicalizer.dfy`);
- the orchestrating parser engine, the intent mapper and slot filling
  (`parser_engine.dfy`, `intent_mapper.dfy`, `slot_filling.dfy`);
- the older command parser with its rule-based fallback
  (`command_parser.dfy`);
- the evaluation runners, the per-key metrics, the weakness report,
  pattern mining, guardrail suggestions, failure categories and the
  dataset builder (`evaluation.dfy`, `eval_unified.dfy`, `eval_v2.dfy`,
  `parser_evaluator.dfy`, `weakness.dfy`, `pattern_miner.dfy`,
  `guardrail.dfy`, `failures.dfy`, `dataset.dfy`);
- text cleaning and chunking of ingested files (`cleaning.dfy`);
- payload normalisation of incoming messages (`normalizer.dfy`);
- the three learning brains and the learning engine with its journal
  (`brains.dfy`, `engine.dfy`).

Pure code becomes functions over datatypes. The loops become methods proved
against those functions. Objects that update their own fields (the brains,
the engine, the pattern miner, the guardrail generator, the command
parser's intent) become classes.

## Model

| member | source | states |
|---|---|---|
| Text.Strip | orko-backend/backend/app/services/parsing/canonicalizer.py:9 | the stripped text is the slice of the input that begins after its leading whitespace and has only whitespace after it; it has no whitespace at either edge and is empty exactly when the input is all whitespace |
| Text.StripIdempotent | orko-backend/backend/app/services/parsing/canonicalizer.py:9 | stripping twice is stripping once |
| Text.Lower | orko-backend/backend/app/services/parsing/canonicalizer.py:9-40 | lower-casing keeps the length and maps each character on its own |
| Text.LowerIdempotent | orko-backend/backend/app/services/parsing/canonicalizer.py:40 | lower-casing twice is lower-casing once |
| Text.StripLower | orko-backend/backend/app/services/parsing/canonicalizer.py:6-9 | the result is the lowercased strip of the text, with no whitespace at either edge and no upper-case letter |
| Text.NormalisedText | orko-backend/backend/app/services/parsing/canonicalizer.py:6-9 | normalising already normalised text changes nothing |
| Text.AnyInIff | orko-backend/backend/app/services/parsing/canonicalizer.py:45 | some keyword of the list occurs in the text exactly when the any() test holds |
| Text.FirstGroup | orko-backend/backend/app/services/parsing/canonicalizer.py:36-85 | the index of the first keyword group with a keyword in the text: no earlier group matches, and past the end means none does |
| Text.FirstGroupIs | orko-backend/backend/app/services/parsing/domain_registry.py:66-69 | a matching group with no earlier match is the one chosen |
| Text.Find | orko-backend/backend/app/integrations/files/cleaning.py:107 | the first position where the marker occurs, or none when it occurs nowhere |
| Text.RFindChar | orko-backend/backend/app/integrations/files/cleaning.py:135 | the last position of the character in the window, or none when the window lacks it |
| Text.Lines | orko-backend/backend/app/integrations/files/cleaning.py:63-95 | the lines hold no newline, and empty text has no lines |
| Text.LinesJoin | orko-backend/backend/app/integrations/files/cleaning.py:63-81 | joining the lines with newlines gives the text back, less one final newline |
| Text.TakeWord | orko-backend/backend/app/services/parsing/parser_engine.py:195-196 | the leading run of non-whitespace characters, ending at whitespace or at the end |
| Text.Words | orko-backend/backend/app/services/parsing/parser_engine.py:195 | the words are non-empty and contain no whitespace |
| Text.WordsOfSpace | orko-backend/backend/app/services/parsing/parser_engine.py:195-196 | blank text has no words |
| Text.WordsOfWord | orko-backend/backend/app/services/parsing/parser_engine.py:195 | a run of non-whitespace is a single word |
| Text.WordsSplitAtSpace | orko-backend/backend/app/services/parsing/parser_engine.py:195 | splitting the text at a whitespace character splits its words there, so the words come in the text's order |
| Text.FindChar | orko-backend/backend/app/services/parsing/generate_eval_dataset_v7.py:43 | the first position of the character, or none when the text lacks it |
| Text.Pad3 | orko-backend/backend/app/services/parsing/generate_eval_dataset_v7.py:59 | the number's own decimal digits, preceded by just enough '0's to make three characters (none when it already has three or more), reading back as the number |
| Text.ParsePad3 | orko-backend/backend/app/services/parsing/generate_eval_dataset_v7.py:43-59 | parsing a zero-padded number gives the number back |
| Text.ParseDigits | orko-backend/backend/app/services/parsing/generate_eval_dataset_v7.py:43 | a non-empty run of digits parses to its value |
| Json.Get | orko-backend/backend/app/services/parsing/eval_unified.py:164-166 | a missing key reads as None, a present key as its value |
| Json.Or | orko-backend/backend/app/services/parsing/eval_unified.py:166 | a truthy left operand is the result, otherwise the right one |
| Json.PyEqRefl | orko-backend/backend/app/services/parsing/eval_unified.py:108 | every value equals itself |
| Json.PyEqSym | orko-backend/backend/app/services/parsing/eval_unified.py:108 | value equality is symmetric |
| Canonicalizer.Norm | orko-backend/backend/app/services/parsing/canonicalizer.py:6-9 | "" for None or any falsy value; a non-empty string becomes its stripped, lowercased text, with no whitespace at either end and no upper-case letter |
| Canonicalizer.NormIdempotent | orko-backend/backend/app/services/parsing/canonicalizer.py:6-9 | normalising an already normalised name returns it unchanged |
| Canonicalizer.HeuristicDomain | orko-backend/backend/app/services/parsing/canonicalizer.py:36-84 | an answer other than the default is a canonical domain; when no group's keyword occurs in the lowercased text the answer is the default |
| Canonicalizer.ContractMeansTrading | orko-backend/backend/app/services/parsing/canonicalizer.py:43-46 | text containing "contract" is trading, although "contract" is also a legal keyword |
| Canonicalizer.HeuristicFirstMatch | orko-backend/backend/app/services/parsing/canonicalizer.py:36-84 | when a keyword of group i occurs, the guess is the name of the first group j <= i whose keyword occurs, no earlier group matching |
| Canonicalizer.HeuristicPicksFirst | orko-backend/backend/app/services/parsing/canonicalizer.py:36-84 | a group whose keyword occurs, when no earlier group's does, is the guess whatever the default |
| Canonicalizer.NameCanonical | orko-backend/backend/app/services/parsing/canonicalizer.py:13-83 | every keyword group of the heuristic names a canonical domain |
| Canonicalizer.DomainSynonym | orko-backend/backend/app/services/parsing/canonicalizer.py:111-151 | every synonym hit is a canonical domain |
| Canonicalizer.ResolveDomain | orko-backend/backend/app/services/parsing/canonicalizer.py:105-176 | the result is a canonical domain, or the input domain itself when that is not a generic marker |
| Canonicalizer.CanonicalizeDomain | orko-backend/backend/app/services/parsing/canonicalizer.py:87-176 | defined for parameters of any kind unless the vendor test runs on a value Python's `in` rejects; the result is never "" and is a canonical domain or the normalised input domain |
| Canonicalizer.ContractParameters | orko-backend/backend/app/services/parsing/canonicalizer.py:133-136 | a contract-management domain goes to procurement exactly for the renewal approval or parameters holding "vendor_name" in Python's sense of `in`, and to legal otherwise |
| Canonicalizer.SequenceParametersAccepted | orko-backend/backend/app/services/parsing/canonicalizer.py:134 | a list, a string or a mapping of parameters never makes the vendor test raise |
| Canonicalizer.ItSynonyms | orko-backend/backend/app/services/parsing/canonicalizer.py:111-112 | "it-ops", "it_ops" and "it" give it_ops whatever the text says |
| Canonicalizer.ComplianceIsLegal | orko-backend/backend/app/services/parsing/canonicalizer.py:138-142 | "compliance" and "audit" give legal whatever the text says |
| Canonicalizer.ContractManagement | orko-backend/backend/app/services/parsing/canonicalizer.py:133-136 | contract_management is procurement exactly for the renewal action or a vendor_name parameter, else legal |
| Canonicalizer.CanonicalNotSynonym | orko-backend/backend/app/services/parsing/canonicalizer.py:111-151 | no canonical domain other than it_ops is caught by the synonym table |
| Canonicalizer.GenericNotSynonym | orko-backend/backend/app/services/parsing/canonicalizer.py:111-163 | no generic marker is caught by the synonym table |
| Canonicalizer.GenericNotCanonical | orko-backend/backend/app/services/parsing/canonicalizer.py:13-33 | no generic marker is a canonical domain |
| Canonicalizer.CanonicalRefinedByText | orko-backend/backend/app/services/parsing/canonicalizer.py:156-158 | a canonical domain other than it_ops is the heuristic guess with itself as default, so it survives when no keyword occurs |
| Canonicalizer.GenericDomainGuessed | orko-backend/backend/app/services/parsing/canonicalizer.py:163-168 | a generic marker resolves to the heuristic guess with "general_admin" as default |
| Canonicalizer.FirstFiring | orko-backend/backend/app/services/parsing/canonicalizer.py:194-529 | the index of a rule that fires (or the table length) with no earlier rule firing |
| Canonicalizer.FirstFiringIs | orko-backend/backend/app/services/parsing/canonicalizer.py:194-529 | a rule that fires with no earlier rule firing is the one the scan stops at |
| Canonicalizer.ResolveAction | orko-backend/backend/app/services/parsing/canonicalizer.py:179-531 | no firing rule leaves the normalised action; otherwise the result is the target of a rule of the domain's table that fires with no earlier rule firing |
| Canonicalizer.ResolveActionPicksFirst | orko-backend/backend/app/services/parsing/canonicalizer.py:179-531 | any rule that fires with no earlier rule firing gives the result: its target |
| Canonicalizer.CanonicalizeAction | orko-backend/backend/app/services/parsing/canonicalizer.py:179-531 | on the normalised action (a falsy one as "") and the lowercased text: the first firing rule of the domain's table gives its target, and with none firing the normalised action is returned |
| Canonicalizer.LogisticsBookTransport | orko-backend/backend/app/services/parsing/canonicalizer.py:194-196 | logistics "book_transport" becomes book_truck |
| Canonicalizer.FinanceCashflowReport | orko-backend/backend/app/services/parsing/canonicalizer.py:211-213 | finance "cashflow_report" becomes generate_cashflow_report |
| Canonicalizer.DeployDependsOnDomain | orko-backend/backend/app/services/parsing/canonicalizer.py:267-279 | "deploy" is deploy_service in it_ops and deploy_microservice in devops |
| Canonicalizer.ManufacturingShow | orko-backend/backend/app/services/parsing/canonicalizer.py:335-338 | manufacturing "show" becomes machine_utilization exactly when the text mentions "utilization", else stays "show" |
| Canonicalizer.ShowOnlyInFirstRule | orko-backend/backend/app/services/parsing/canonicalizer.py:335-357 | only the first manufacturing rule can match "show" |
| Canonicalizer.UnknownDomainKeepsAction | orko-backend/backend/app/services/parsing/canonicalizer.py:531 | a domain outside the canonical set keeps the normalised action |
| Canonicalizer.NoTableOutsideCanonical | orko-backend/backend/app/services/parsing/canonicalizer.py:194-531 | only canonical domains have an action table |
| Canonicalizer.Canonicalize | orko-backend/backend/app/services/parsing/canonicalizer.py:534-562 | defined unless the domain or action is a truthy non-string or the vendor test meets parameters (`data.get("parameters") or {}`) that are not a container; the keys are the input's plus domain, action and raw_text; every other entry is unchanged; raw_text is defaulted only when absent; the domain is `canonicalize_domain`'s result on the parse's domain, action, parameters and text (a non-empty canonical or normalised name), and the action is its canonicalised action |
| Canonicalizer.Restamp | orko-backend/backend/app/services/parsing/canonicalizer.py:541-560 | the shallow copy with domain and action overwritten and raw_text set only when absent, every other entry kept |
| DomainRegistry.Domains | orko-backend/backend/app/services/parsing/domain_registry.py:55-57 | exactly the configured domain names, in the order of the loaded data |
| DomainRegistry.GetExamples | orko-backend/backend/app/services/parsing/domain_registry.py:59-60 | {} for a domain that is not configured; otherwise the examples stored under that domain |
| DomainRegistry.FallbackDomain | orko-backend/backend/app/services/parsing/domain_registry.py:71-76 | "operations" when configured, else the first configured domain, else "operations" |
| DomainRegistry.GuessDomain | orko-backend/backend/app/services/parsing/domain_registry.py:65-76 | when some index entry has a keyword in the lowercased command, the guess is the name of an entry that has one with no earlier entry having one; with no keyword anywhere, the fallback domain |
| DomainRegistry.GuessDomainPicksFirst | orko-backend/backend/app/services/parsing/domain_registry.py:65-69 | any index entry with a keyword in the lowercased command, and none before it with one, is the guess |
| DomainRegistry.GuessDomainRange | orko-backend/backend/app/services/parsing/domain_registry.py:38-76 | the guess is "operations", a configured domain, or a keyword-index name |
| DomainRegistry.GuessOutsideConfiguration | orko-backend/backend/app/services/parsing/domain_registry.py:38-69 | with nothing configured, "PnL" is still guessed as trading, a domain outside the configuration |
| Masking.MaskPii | orko-backend/backend/app/services/parsing/masking.py:50-59 | non-strings come back unchanged; a string goes through the email, phone, ID and name substitutions in that order |
| Masking.MaskItem | orko-backend/backend/app/services/parsing/masking.py:86-92 | list elements: strings masked, mappings masked as a whole reasoning value (same keys, each value masked as a field), anything else kept |
| Masking.MaskField | orko-backend/backend/app/services/parsing/masking.py:78-96 | strings masked, mappings masked as a whole reasoning value (same keys, each value masked as a field), lists keep their length with each element masked as a list element, other values kept |
| Masking.MaskReasoning | orko-backend/backend/app/services/parsing/masking.py:71-98 | a non-mapping is returned unchanged; a mapping keeps exactly its keys, each value masked as a field |
| Masking.MaskReasoningIdentity | orko-backend/backend/app/services/parsing/masking.py:62-98 | with substitutions that change nothing, masking leaves every reasoning value as it was |
| Masking.MaskFieldIdentity | orko-backend/backend/app/services/parsing/masking.py:78-96 | with substitutions that change nothing, masking leaves every field value as it was |
| Masking.MaskKeepsKinds | orko-backend/backend/app/services/parsing/masking.py:76-96 | each masked value has the kind of the original: strings stay strings, mappings mappings, lists lists of the same length, and other values are copied |
| Masking.NestedListsUnmasked | orko-backend/backend/app/services/parsing/masking.py:84-92 | a list nested inside a list is copied without masking |
| AiParser.ActionsInIff | orko-backend/backend/app/services/parsing/ai_parser.py:65-71 | an action is collected for a domain exactly when some example of it names that action |
| AiParser.ParamKeysIff | orko-backend/backend/app/services/parsing/ai_parser.py:73-79 | a parameter name is allowed for an action exactly when some example naming that action has it |
| AiParser.FirstParamsIsFirst | orko-backend/backend/app/services/parsing/ai_parser.py:81-84 | defaults exist exactly for declared actions and are the parameters of the first example naming the action |
| AiParser.UndeclaredHasNoKeys | orko-backend/backend/app/services/parsing/ai_parser.py:68-79 | an action no example names has no allowed parameter names |
| AiParser.BuiltIsCatalog | orko-backend/backend/app/services/parsing/ai_parser.py:57-87 | building over distinct domains yields the catalogue the examples describe: actions only for domains that have some, allowed keys the union of example keys, defaults from the first example |
| AiParser.CatalogMeaning | orko-backend/backend/app/services/parsing/ai_parser.py:49-87 | for a registry with distinct domain names the built catalogue is exactly that catalogue |
| AiParser.AIParser.constructor | orko-backend/backend/app/services/parsing/ai_parser.py:33-43 | a new parser holds the registry and the catalogue its examples describe |
| AiParser.AIParser.BuildCatalog | orko-backend/backend/app/services/parsing/ai_parser.py:57-87 | the loop over domains leaves the three maps equal to the catalogue built from the registry's domains in order |
| AiParser.AIParser.ScanExamples | orko-backend/backend/app/services/parsing/ai_parser.py:59-85 | the loop over one domain's examples returns its declared actions and adds their keys and first defaults, leaving allowed actions alone |
| AiParser.AIParser.ReadExample | orko-backend/backend/app/services/parsing/ai_parser.py:66-84 | an example with an action adds it, unions its keys and stores its parameters unless a default exists; an example without one changes nothing |
| AiParser.Squeeze | orko-backend/backend/app/services/parsing/ai_parser.py:239 | the text without any "_" or " ": every other character keeps its number of occurrences and nothing is added |
| AiParser.SqueezeAppend | orko-backend/backend/app/services/parsing/ai_parser.py:239 | removing "_" and " " distributes over concatenation, so the kept characters stay in their order |
| AiParser.NormForCompare | orko-backend/backend/app/services/parsing/ai_parser.py:233-240 | non-strings are returned unchanged; a string becomes its stripped, lowercased text with every "_" and " " removed |
| AiParser.SqueezeCompact | orko-backend/backend/app/services/parsing/ai_parser.py:239 | removing "_" and " " from a text that has neither changes nothing |
| AiParser.NormForCompareFixes | orko-backend/backend/app/services/parsing/ai_parser.py:233-240 | a stripped, lower-case text without "_" or " " is its own comparison form |
| AiParser.NearDupAsWritten | orko-backend/backend/app/services/parsing/ai_parser.py:312-314 | the test as written, raising TypeError when `in` meets a non-string or an unhashable operand |
| AiParser.NumericDefaultRaises | orko-backend/backend/app/services/parsing/ai_parser.py:312-314 | as written, the numeric value 10 against the numeric default 5 raises TypeError; the corrected test reports no duplicate |
| AiParser.NearDup | orko-backend/backend/app/services/parsing/ai_parser.py:312-317 | on two strings: equal or containing one another after normalising; on two non-strings: Python equality; a string and a non-string never match |
| AiParser.NearDupAgreesOnStrings | orko-backend/backend/app/services/parsing/ai_parser.py:312-314 | on two strings the corrected test gives the as-written answer and never raises |
| AiParser.NearDupRefl | orko-backend/backend/app/services/parsing/ai_parser.py:312-314 | every value is a near-duplicate of itself |
| AiParser.EmptyDefaultAbsorbs | orko-backend/backend/app/services/parsing/ai_parser.py:312-315 | an empty string default absorbs every string value |
| AiParser.ProjectMeaning | orko-backend/backend/app/services/parsing/ai_parser.py:304-323 | a key is in the projection exactly when it is allowed and present in the parameters or defaults; a missing key is backfilled from the default, a key without default is kept, a near-duplicate is replaced by the default |
| AiParser.ProjectIdempotent | orko-backend/backend/app/services/parsing/ai_parser.py:304-323 | projecting an already projected parameter set changes nothing |
| AiParser.FilterParams | orko-backend/backend/app/services/parsing/ai_parser.py:304-323 | the loop over the allowed keys, in any order, produces the projection |
| AiParser.ContextOf | orko-backend/backend/app/services/parsing/ai_parser.py:259-263 | a missing context becomes {}, a mapping is kept, anything else is wrapped as {"value": ...} |
| AiParser.FlagsOf | orko-backend/backend/app/services/parsing/ai_parser.py:264-266 | falsy flags become [], a list is kept, any other value becomes the one-element list of its text |
| AiParser.AddFlag | orko-backend/backend/app/services/parsing/ai_parser.py:291-334 | the flag is present afterwards; the old flags are a prefix and at most one entry is added |
| AiParser.CountZero | orko-backend/backend/app/services/parsing/ai_parser.py:291-292 | a flag occurs zero times exactly when it is absent |
| AiParser.AddFlagOnce | orko-backend/backend/app/services/parsing/ai_parser.py:291-334 | adding a flag leaves it present once if it was absent and its count unchanged otherwise, so adding twice is adding once |
| AiParser.Clamp01 | orko-backend/backend/app/services/parsing/ai_parser.py:341 | the result is in [0, 1], equals the input inside it and the nearer bound outside |
| AiParser.ConfidenceOf | orko-backend/backend/app/services/parsing/ai_parser.py:337-341 | the confidence is 1.0 when absent or not convertible to a float, and otherwise that float clamped to [0, 1] |
| AiParser.ResolveRegistered | orko-backend/backend/app/services/parsing/ai_parser.py:269-278 | a registered raw domain is kept; otherwise the registry's guess when that is registered, else None; the result is always registered or None |
| AiParser.AIParser.NormalizeAction | orko-backend/backend/app/services/parsing/ai_parser.py:281-334 | with the corrected near-duplicate test: fails exactly for an unhashable truthy action when the domain allows actions; a missing action gives None, {} and "unknown_action"; a registered action with known keys gets the projection; any other action keeps its parameters and gets "unregistered_action" |
| AiParser.AIParser.KnownActionKeys | orko-backend/backend/app/services/parsing/ai_parser.py:295-326 | every projected key of a registered action belongs to a registered domain and comes from an example naming that action |
| AiParser.AIParser.PostprocessParsed | orko-backend/backend/app/services/parsing/ai_parser.py:242-346 | with the corrected near-duplicate test: fails exactly on an unhashable domain or action; otherwise only domain, action, parameters and context change; the domain is the registered one, the context gets the clamped confidence and the flags, and the action and parameters follow the three cases |
| ParserEngine.KeyIsPyEq | orko-backend/backend/app/services/parsing/parser_engine.py:103 | on hashable values, Python equality is equality of the dictionary keys the merge uses |
| ParserEngine.DedupDistinct | orko-backend/backend/app/services/parsing/parser_engine.py:103 | the merged flags hold no two equal values |
| ParserEngine.DedupSound | orko-backend/backend/app/services/parsing/parser_engine.py:103 | every merged flag is one of the inputs |
| ParserEngine.DedupComplete | orko-backend/backend/app/services/parsing/parser_engine.py:103 | every input flag is represented in the merged flags |
| ParserEngine.DedupPrefix | orko-backend/backend/app/services/parsing/parser_engine.py:103 | merging more flags only appends: existing flags keep their place and order |
| ParserEngine.DedupAppendSeen | orko-backend/backend/app/services/parsing/parser_engine.py:103 | merging flags that are all present already changes nothing |
| ParserEngine.DedupOfDistinct | orko-backend/backend/app/services/parsing/parser_engine.py:103 | a list without repeated values is its own merge |
| ParserEngine.MergeFlagsStable | orko-backend/backend/app/services/parsing/parser_engine.py:103-104 | tagging an already tagged parse again leaves its flags as they are |
| ParserEngine.RiskPrecedence | orko-backend/backend/app/services/parsing/parser_engine.py:90-100 | blocked, high, low and medium hold exactly for blocked verbs, risky non-blocked verbs, allowed verbs in neither list, and all other verbs; only "low" raises no flag |
| ParserEngine.RaiseTier | orko-backend/backend/app/services/parsing/parser_engine.py:90-100 | the parse gains the risk level of the precedence chain and the flag it raises |
| ParserEngine.ApplyGuardrails | orko-backend/backend/app/services/parsing/parser_engine.py:69-106 | fails exactly on a non-string truthy action, a non-mapping context or an unhashable flag; otherwise only risk_level and context change, and the context's flags are the existing flags then the new one, deduplicated in order |
| ParserEngine.GuessDomainFirstMatch | orko-backend/backend/app/services/parsing/parser_engine.py:139-187 | when group j has a keyword in the lowercased text, the guess is a group no later than j that has one with no earlier group having one; a group with a keyword and none before it is the guess; with none, the default |
| ParserEngine.TradingShadows | orko-backend/backend/app/services/parsing/parser_engine.py:148-174 | text with "contract" or "pnl" is trading, never finance or legal |
| ParserEngine.ExtractActionMeaning | orko-backend/backend/app/services/parsing/parser_engine.py:189-196 | blank text gives "unknown"; any other text gives its first token lowercased, which is non-empty and has no whitespace |
| ParserEngine.FirstWordOf | orko-backend/backend/app/services/parsing/parser_engine.py:195-196 | a text starting with a non-space character has a first token, and it is the maximal non-space prefix |
| ParserEngine.Record | orko-backend/backend/app/services/parsing/parser_engine.py:206-213 | the six-field parse record holds exactly the given fields |
| ParserEngine.Extract | orko-backend/backend/app/services/parsing/parser_engine.py:201-213 | the fallback parse holds the extracted action, the guessed domain and empty parameters and context |
| ParserEngine.ShouldUseFallbackIff | orko-backend/backend/app/services/parsing/parser_engine.py:249-269 | fall back exactly when the result is empty, its context reports a parse error, or both domain and action are None or "" |
| ParserEngine.BaseContext | orko-backend/backend/app/services/parsing/parser_engine.py:282-284 | the domain hint is added to the inbound context only when non-empty and absent |
| ParserEngine.FallbackDraft | orko-backend/backend/app/services/parsing/parser_engine.py:304-318 | the fallback parse has the extracted action, the guessed domain (or the hint), empty parameters, and a context marked used_fallback_parser with confidence 0.3 |
| ParserEngine.FallbackContext | orko-backend/backend/app/services/parsing/parser_engine.py:316-318 | the fallback context is exactly the fallback mark and the default confidence 0.3 |
| ParserEngine.FallbackFields | orko-backend/backend/app/services/parsing/parser_engine.py:304-313 | the fields the fallback parse reads from the heuristic parse are its action, {} and the guessed domain |
| ParserEngine.AiDraft | orko-backend/backend/app/services/parsing/parser_engine.py:320-350 | the parse of a usable result keeps the AI action and a truthy AI domain, always has a truthy domain, and holds the merged context |
| ParserEngine.MergedContext | orko-backend/backend/app/services/parsing/parser_engine.py:323-350 | the merged context has the keys of both contexts; inbound entries override parser entries and it is marked not a fallback |
| ParserEngine.DraftMarksFallback | orko-backend/backend/app/services/parsing/parser_engine.py:298-350 | the parse records in used_fallback_parser whether the fallback path built it |
| ParserEngine.FallbackConfidence | orko-backend/backend/app/services/parsing/parser_engine.py:318-386 | on the fallback path the normalised confidence is 0.3 |
| ParserEngine.FallbackContextConfidence | orko-backend/backend/app/services/parsing/parser_engine.py:318-386 | the fallback context's confidence normalises to 0.3 |
| ParserEngine.MarkConfirmation | orko-backend/backend/app/services/parsing/parser_engine.py:365-376 | destructive, medium-risk and high-risk verbs set requires_confirmation and only high-risk verbs set requires_admin; every other context entry is untouched |
| ParserEngine.Stamp | orko-backend/backend/app/services/parsing/parser_engine.py:381-392 | the confidence is clamped into the context and the prompt version of the domain added; every other entry is unchanged |
| ParserEngine.MarkAndTag | orko-backend/backend/app/services/parsing/parser_engine.py:365-379 | the marks are set, and tagging fails exactly on unhashable flags, otherwise giving the guardrail-tagged parse |
| ParserEngine.Finish | orko-backend/backend/app/services/parsing/parser_engine.py:356-396 | fails exactly on unhashable flags; otherwise the result is the finished parse and the masked reasoning |
| ParserEngine.FinishedFrom | orko-backend/backend/app/services/parsing/parser_engine.py:356-396 | marking, tagging, stamping and masking in sequence give the finished parse |
| ParserEngine.ReasoningKept | orko-backend/backend/app/services/parsing/parser_engine.py:394-396 | the reasoning trace the log masks is the canonical parse's, untouched by the marks, flags and confidence |
| ParserEngine.FinishedParseFrom | orko-backend/backend/app/services/parsing/parser_engine.py:379-392 | risk level and prompt version are added, the context replaced, and nothing else at the top level changes |
| ParserEngine.FinishedContextFrom | orko-backend/backend/app/services/parsing/parser_engine.py:365-386 | the finished context keeps every other entry, gains no key beyond the marks, the flags and the confidence, and holds the marks, the merged flags and the clamped confidence |
| ParserEngine.Canon | orko-backend/backend/app/services/parsing/parser_engine.py:352-354 | the canonicalised parse has string domain and action and keeps the drafted context |
| ParserEngine.ParseCommand | orko-backend/backend/app/services/parsing/parser_engine.py:274-396 | fails exactly when canonicalisation meets a truthy non-string domain or action or parameters on which the vendor test's `in` raises, or a flag is unhashable; otherwise returns the finished parse of the canonicalised draft and its masked reasoning |
| IntentMapper.SlotFill | orko-backend/backend/app/services/parser/intent_mapper.py:69-97 | the slots are exactly required, intent and default names; each holds intent, then context, then default; a slot is ambiguous exactly when intent and context values are both present and differ, recording both; missing lists, once each, exactly the required slots left None |
| IntentMapper.ThreeSources | orko-backend/backend/app/services/parser/intent_mapper.py:81-92 | the three lookups are intent, context and default in that order, and only the first two decide a conflict |
| IntentMapper.MissingWithin | orko-backend/backend/app/services/parser/intent_mapper.py:94-95 | distinct missing names drawn from the required list are no more than it |
| IntentMapper.GuardrailRouting | orko-backend/backend/app/services/parser/intent_mapper.py:102-113 | blocked goes to blocked_action_workflow; otherwise requires_admin picks the admin workflow and high risk the elevated workflow, each falling back to workflow_name; KeyError exactly when the needed workflow_name is absent |
| IntentMapper.CanonicalizeAction | orko-backend/backend/app/services/parser/intent_mapper.py:118-129 | the stripped, lowercased action is looked up: create, make and add give create; delete and remove give delete; update and modify give update; any other action is returned as its stripped, lowercased self |
| IntentMapper.StripLower | orko-backend/backend/app/services/parser/intent_mapper.py:119 | lower-casing a stripped action keeps it stripped |
| IntentMapper.NormalFixed | orko-backend/backend/app/services/parser/intent_mapper.py:119 | stripping and lower-casing twice is doing it once |
| IntentMapper.CanonicalFixed | orko-backend/backend/app/services/parser/intent_mapper.py:120-128 | create, delete and update are their own normal forms and synonyms |
| IntentMapper.SynonymFixed | orko-backend/backend/app/services/parser/intent_mapper.py:120-128 | the synonym table maps each canonical verb to itself |
| IntentMapper.CanonicalizeActionIdempotent | orko-backend/backend/app/services/parser/intent_mapper.py:118-129 | canonicalising an action twice is canonicalising it once |
| IntentMapper.SynonymIdempotent | orko-backend/backend/app/services/parser/intent_mapper.py:118-129 | a listed synonym's canonical verb canonicalises to itself |
| IntentMapper.CanonicalStays | orko-backend/backend/app/services/parser/intent_mapper.py:118-129 | create, delete and update are unchanged |
| IntentMapper.ResolveIntentKey | orko-backend/backend/app/services/parser/intent_mapper.py:134-152 | "domain.name" (domain defaulting to general) when mapped, else the bare name when mapped, else IntentMappingError; a result is always a mapped key |
| IntentMapper.MappingConfidenceBounds | orko-backend/backend/app/services/parser/intent_mapper.py:183-184 | the mapping confidence lies in [0, 0.9], is 0.9 when nothing is missing, and never rises with more missing slots |
| IntentMapper.MapV7 | orko-backend/backend/app/services/parser/intent_mapper.py:172-198 | an unresolvable intent or a missing workflow name raises; otherwise the workflow is the routing's; the parameter keys are the required slots, the intent's and the defaults', each valued by the first present of the intent's, the context's and the default; the ambiguous slots are exactly the filled ones on which intent and context disagree, with both values; missing marks exactly the required slots left without a value; the confidence is that of the missing count; version "v7" |
| SlotFilling.PickPriority | orko-backend/backend/app/services/parser/slot_filling.py:71-80 | the first present value in priority order is chosen |
| SlotFilling.PickNone | orko-backend/backend/app/services/parser/slot_filling.py:71-80 | the result is None exactly when every source lacks the key |
| SlotFilling.Values | orko-backend/backend/app/services/parser/slot_filling.py:62-65 | one lookup per source, in priority order |
| SlotFilling.FillSlot | orko-backend/backend/app/services/parser/slot_filling.py:61-84 | one slot: the chosen value stored, the slot recorded ambiguous with the intent and context values on a conflict, and listed missing when required and still None |
| SlotFilling.FillSlots | orko-backend/backend/app/services/parser/slot_filling.py:61-84 | after the loop every slot holds its priority value, ambiguous holds exactly the conflicting slots with both values, and missing lists each required None slot exactly once |
| SlotFilling.FilledStep | orko-backend/backend/app/services/parser/slot_filling.py:61-84 | one loop step keeps the invariant over the slots done so far |
| SlotFilling.DistinctWithin | orko-backend/backend/app/services/parser/slot_filling.py:83-84 | a list of distinct names all in another list is no longer than it |
| SlotFilling.FillConfidenceBounds | orko-backend/backend/app/services/parser/slot_filling.py:90-93 | the confidence is in [0, 1] and the ambiguity factor in [0.5, 1]; a complete, unambiguous fill scores 1.0; while no more slots are missing than required the clamp never binds |
| SlotFilling.Fill | orko-backend/backend/app/services/parser/slot_filling.py:34-100 | raises exactly for an unhashable domain; otherwise the slots are required, parameter, template-default and domain-default names, each filled by intent, context, domain default, template default; a slot is ambiguous exactly when intent and context disagree, with both values recorded; missing slots are the required ones left None, each once; the confidence is that of those counts |
| CommandParsing.WordPrefix | orko-backend/backend/app/services/parser/command_parser.py:74 | the longest prefix of word characters: every character in it is a word character and the next one is not |
| CommandParsing.WordAndRest | orko-backend/backend/app/services/parser/command_parser.py:74 | a match has a non-empty word prefix and a rest without line breaks; no word prefix means no match |
| CommandParsing.WordAndRestSplits | orko-backend/backend/app/services/parser/command_parser.py:74 | a match splits the text into the word and a rest that does not start with a word character, with at most one final newline after it |
| CommandParsing.WordAndRestFails | orko-backend/backend/app/services/parser/command_parser.py:74 | the pattern fails exactly when there is no word prefix or a line break occurs before the final character of the rest |
| CommandParsing.RegexExtract | orko-backend/backend/app/services/parser/command_parser.py:88-109 | the payload keeps the command and context with no intent; when the pattern matches, the action is the lowercased first word of the left-trimmed text and the parameters hold only raw_text, the stripped remainder; otherwise there is no action and no parameters |
| CommandParsing.WordAndRestOfVerb | orko-backend/backend/app/services/parser/command_parser.py:74 | a word followed by a space and a one-line tail matches as that word and tail |
| CommandParsing.RegexExtractFirstWord | orko-backend/backend/app/services/parser/command_parser.py:88-109 | an indented verb and tail give the lowercased verb as action and the stripped tail as raw_text |
| CommandParsing.LeadingSpace | orko-backend/backend/app/services/parser/command_parser.py:74 | leading whitespace is skipped up to the first non-space character |
| CommandParsing.WordPrefixOf | orko-backend/backend/app/services/parser/command_parser.py:74 | a word followed by a non-word character is the word prefix |
| CommandParsing.RegexValidate | orko-backend/backend/app/services/parser/command_parser.py:111-113 | validation fails exactly for an empty command |
| CommandParsing.RegexParseRefusesOnlyEmpty | orko-backend/backend/app/services/parser/command_parser.py:76-113 | the regex parser refuses exactly the empty text, and a blank text gives a payload without action |
| CommandParsing.TrimLeftOfSpace | orko-backend/backend/app/services/parser/command_parser.py:74 | an all-space text leaves nothing after skipping leading whitespace |
| CommandParsing.SelectDomain | orko-backend/backend/app/services/parser/command_parser.py:214-216 | the prompt domain is a supported one or the default; a given domain is used lowercased when supported, else the default |
| CommandParsing.BuildPromptMetadata | orko-backend/backend/app/services/parser/command_parser.py:213-253 | the prompt metadata holds the selected domain, the default prompt version and the template "<domain>_base" |
| CommandParsing.Intent.constructor | orko-backend/backend/app/services/parser/intent_schema.py:7-39 | a new intent holds exactly the given fields |
| CommandParsing.Validate | orko-backend/backend/app/services/parser/command_parser.py:281-302 | refuses exactly unknown actions, email_send without recipient and db_update without table and where; destructive actions are marked for confirmation; an empty risk level of an accepted intent becomes "medium"; nothing else changes |
| CommandParsing.ExtractIntent | orko-backend/backend/app/services/parser/command_parser.py:264-276 | fails exactly for a non-mapping response or content, or content that does not fit the intent schema; otherwise a new intent with the content's command, action, parameters, context, risk level, confirmation and raw text, each absent one taking the schema default |
| CommandParsing.Parse | orko-backend/backend/app/services/parser/command_parser.py:174-194 | a blank command is refused; otherwise it fails exactly when extraction fails or validation refuses the content's action and parameters; an accepted intent carries the content's fields, the "medium" risk for an empty one, and confirmation when asked for or destructive |
| Evaluation.ParametersMatch | orko-backend/backend/app/services/parsing/eval_unified.py:105-110 | the loop answers true exactly when every expected key is predicted with an equal value; an empty expectation always matches |
| Evaluation.SubsetMatchIgnoresExtra | orko-backend/backend/app/services/parsing/eval_unified.py:105-110 | extra predicted keys never change the match |
| Evaluation.ClassifyError | orko-backend/backend/app/services/parsing/eval_unified.py:112-129 | None exactly when all three checks hold; otherwise the domain mismatch first, then the action, then the parameters; "unknown" is never returned |
| Evaluation.TallyCounts | orko-backend/backend/app/services/parsing/eval_unified.py:180 | a counter built by incrementing holds each key's number of occurrences and has exactly the keys that occurred |
| Evaluation.TallySum | orko-backend/backend/app/services/parsing/eval_unified.py:180 | a counter's counts add up to the number of increments |
| Evaluation.TallySnoc | orko-backend/backend/app/services/parsing/eval_unified.py:180 | counting one more key increments just that key |
| Evaluation.NestedTallyCounts | orko-backend/backend/app/services/parsing/eval_unified.py:191-194 | a two-level counter holds each pair's number of occurrences |
| Evaluation.NestedTallySum | orko-backend/backend/app/services/parsing/eval_unified.py:191-194 | all cells of a two-level counter add up to the number of increments |
| Evaluation.NestedSumInc | orko-backend/backend/app/services/parsing/eval_unified.py:193-194 | incrementing one cell raises the total by one |
| Evaluation.CollectPartition | orko-backend/backend/app/services/parsing/eval_unified.py:175-180 | when no record has both of two keys and a third key is present exactly when one of them is, the two collected counts add up to the third |
| Evaluation.CollectWithin | orko-backend/backend/app/services/parsing/eval_unified.py:197-214 | a key present only where another is present is collected no more often |
| Evaluation.CollectFrom | orko-backend/backend/app/services/parsing/eval_unified.py:180 | every collected key comes from some record of the run |
| Evaluation.Ratio | orko-backend/backend/app/services/parsing/eval_unified.py:240-302 | 0.0 on a zero denominator, otherwise the value that times the denominator gives the numerator; never negative, and at most 1 when the numerator is at most the denominator |
| Evaluation.F1 | orko-backend/backend/app/services/parsing/eval_unified.py:256-260 | the harmonic mean lies in [0, 1] and is 0.0 when precision and recall are both 0 |
| Evaluation.PrfOf | orko-backend/backend/app/services/parsing/eval_unified.py:250-269 | the row keeps tp, fp and fn, its precision and recall are the ratios with zero-denominator guards, all three scores lie in [0, 1], and no true positive means all scores 0 |
| Evaluation.PrfTable | orko-backend/backend/app/services/parsing/eval_unified.py:246-269 | one row per key counted in any of the three counters, each the scores of that key's counts |
| EvalUnified.JudgeItem | orko-backend/backend/app/services/parsing/eval_unified.py:142-180 | the result of one item is the judgement of its command's prediction, and every judged result carries a known error bucket or none |
| EvalUnified.CountError | orko-backend/backend/app/services/parsing/eval_unified.py:174-180 | after one more result, the correct count and the error buckets equal those of the extended run |
| EvalUnified.CountDomainCell | orko-backend/backend/app/services/parsing/eval_unified.py:182-194 | after one more result, the per-domain totals and the confusion matrix equal those of the extended run |
| EvalUnified.CountDomain | orko-backend/backend/app/services/parsing/eval_unified.py:196-203 | after one more result, the domain true-positive, false-positive and false-negative counters equal those of the extended run |
| EvalUnified.CountAction | orko-backend/backend/app/services/parsing/eval_unified.py:205-214 | after one more result, the action counters equal those of the extended run |
| EvalUnified.CountPrf | orko-backend/backend/app/services/parsing/eval_unified.py:196-214 | the domain and action counters together are kept equal to those of the run so far |
| EvalUnified.CountOutcome | orko-backend/backend/app/services/parsing/eval_unified.py:174-194 | the correct count, error buckets, per-domain totals and confusion matrix are kept equal to those of the run so far |
| EvalUnified.JudgedSnoc | orko-backend/backend/app/services/parsing/eval_unified.py:142-231 | appending the next item's judgement keeps every result equal to the judgement of its own item |
| EvalUnified.Run | orko-backend/backend/app/services/parsing/eval_unified.py:134-310 | one result per item, in order, each the judgement of that item's prediction, and the summary is the one computed from those results |
| EvalUnified.CorrectOrBucketed | orko-backend/backend/app/services/parsing/eval_unified.py:174-180 | every result is either correct or in exactly one error bucket |
| EvalUnified.AccuracyAndBuckets | orko-backend/backend/app/services/parsing/eval_unified.py:174-180 | correct is at most the total, accuracy lies in [0, 1] and is 0.0 on an empty dataset, and the error buckets hold exactly the incorrect results |
| EvalUnified.BucketNames | orko-backend/backend/app/services/parsing/eval_unified.py:112-180 | the only error bucket names are domain_mismatch, action_mismatch and parameters_mismatch |
| EvalUnified.PerDomainBounds | orko-backend/backend/app/services/parsing/eval_unified.py:182-188 | every domain listed has at least one item and no more correct items than items |
| EvalUnified.PerDomainAccuracyBounds | orko-backend/backend/app/services/parsing/eval_unified.py:236-241 | every per-domain accuracy lies in [0, 1] |
| EvalUnified.ConfusionRowTotal | orko-backend/backend/app/services/parsing/eval_unified.py:182-194 | a confusion-matrix row exists exactly for a domain that has a per-domain count, and its cells add up to that domain's total |
| EvalUnified.DomainPrfCounts | orko-backend/backend/app/services/parsing/eval_unified.py:196-203 | domain hits plus misses equal the items that name an expected domain, and wrong predictions are no more than misses |
| EvalUnified.ActionPrfCounts | orko-backend/backend/app/services/parsing/eval_unified.py:205-214 | action hits plus misses equal the items that name an expected action, and wrong predictions are no more than misses |
| EvalV2.CountActionV2 | orko-backend/backend/app/services/parsing/eval_v2.py:149-157 | after one more result, the action counters equal those of the extended run |
| EvalV2.DomainPrfV2 | orko-backend/backend/app/services/parsing/eval_v2.py:195-208 | the second pass leaves the domain hit, miss and wrong-prediction counters equal to the tallies of the results, None labels included |
| EvalV2.JudgeOneV2 | orko-backend/backend/app/services/parsing/eval_v2.py:137-184 | one more item appends its judgement and keeps the correct count, error buckets, per-domain totals, confusion matrix and action counters equal to those of the extended results |
| EvalV2.RunV2 | orko-backend/backend/app/services/parsing/eval_v2.py:120-273 | one result per item, in order, each the judgement of that item's prediction, and the summary is the one computed from those results |
| EvalV2.AccuracyAndBucketsV2 | orko-backend/backend/app/services/parsing/eval_v2.py:149-157 | correct is at most the total, accuracy lies in [0, 1] and is 0.0 on an empty dataset, and the error buckets hold exactly the incorrect results |
| EvalV2.PerDomainAccuracyBoundsV2 | orko-backend/backend/app/services/parsing/eval_v2.py:189-192 | every per-domain accuracy lies in [0, 1] |
| EvalV2.DomainHitsAndMissesV2 | orko-backend/backend/app/services/parsing/eval_v2.py:199-208 | every result is a domain hit or a domain miss, so the two counters add up to the number of results |
| EvalV2.DomainWrongPerMissV2 | orko-backend/backend/app/services/parsing/eval_v2.py:205-208 | each domain miss is also a wrong prediction, so the two counters have the same total |
| EvalV2.ActionPrfCountsV2 | orko-backend/backend/app/services/parsing/eval_v2.py:149-157 | action hits are exactly the correct results, hits plus misses are all results, and wrong predictions equal misses |
| EvalV2.ActionHitsAreCorrect | orko-backend/backend/app/services/parsing/eval_v2.py:149-152 | every action with a hit is the predicted action of some fully correct result |
| ParserEvaluation.KeyMetricsOf | orko-backend/backend/app/services/parsing/parser_evaluator.py:176-187 | the row keeps tp, fp and fn; precision and recall are the ratios with zero-denominator guards, both in [0, 1] and both 0 without a hit |
| ParserEvaluation.MetricsTable | orko-backend/backend/app/services/parsing/parser_evaluator.py:173-187 | one row per "domain:action" key counted in any of the three counters, each that key's metrics |
| ParserEvaluation.CheckItem | orko-backend/backend/app/services/parsing/parser_evaluator.py:111-121 | the outcome of one item is the check of its command's prediction: domain and action compared, expected parameters a subset of the predicted ones |
| ParserEvaluation.CountCorrectness | orko-backend/backend/app/services/parsing/parser_evaluator.py:121-129 | after one more outcome, the correct count and per-domain totals equal those of the extended run |
| ParserEvaluation.CountKeys | orko-backend/backend/app/services/parsing/parser_evaluator.py:132-144 | after one more outcome, the hit, miss and wrong-prediction counters equal those of the extended run |
| ParserEvaluation.EvaluateOne | orko-backend/backend/app/services/parsing/parser_evaluator.py:111-159 | one more item appends its outcome and keeps every counter equal to that of the extended outcomes |
| ParserEvaluation.RunEvaluator | orko-backend/backend/app/services/parsing/parser_evaluator.py:99-197 | one outcome per item, in order, each the check of that item's prediction, and the summary is the one computed from those outcomes |
| ParserEvaluation.HitsAndMisses | orko-backend/backend/app/services/parsing/parser_evaluator.py:139-142 | hits are exactly the fully correct items, and every item is a hit or a miss |
| ParserEvaluation.SummaryCounts | orko-backend/backend/app/services/parsing/parser_evaluator.py:139-162 | the hit counters add up to the correct count, hits plus misses to the total, wrong predictions are no more than misses, and accuracy lies in [0, 1], 0.0 on an empty dataset |
| ParserEvaluation.DomainStatsBounds | orko-backend/backend/app/services/parsing/parser_evaluator.py:126-129 | every domain listed has at least one item and no more correct items than items |
| ParserEvaluation.PerDomainAccuracyInRange | orko-backend/backend/app/services/parsing/parser_evaluator.py:164-171 | every per-domain accuracy lies in [0, 1] |
| ParserEvaluation.HitKeysAreCorrect | orko-backend/backend/app/services/parsing/parser_evaluator.py:132-140 | every hit key is the expected key of some fully correct item |
| ParserEvaluation.WrongKeysArePredicted | orko-backend/backend/app/services/parsing/parser_evaluator.py:133-144 | every wrong-prediction key is the predicted "domain:action" of some failing item whose predicted domain and action are both non-empty |
| WeaknessDetection.F1Part | orko-backend/backend/app/services/parsing/domain_weakness_detector.py:76-78 | the low-F1 contribution is never negative and is positive exactly when F1 is below 0.80 |
| WeaknessDetection.PrecisionPart | orko-backend/backend/app/services/parsing/domain_weakness_detector.py:80-82 | the low-precision contribution is never negative and is positive exactly when precision is below 0.75 |
| WeaknessDetection.RecallPart | orko-backend/backend/app/services/parsing/domain_weakness_detector.py:84-86 | the low-recall contribution is never negative and is positive exactly when recall is below 0.75 |
| WeaknessDetection.FnExcessPart | orko-backend/backend/app/services/parsing/domain_weakness_detector.py:91-93 | the false-negative contribution lies in [0, 1] and is positive exactly when misses exceed wrong predictions |
| WeaknessDetection.Density | orko-backend/backend/app/services/parsing/domain_weakness_detector.py:99-101 | the misclassification density of a non-empty count lies in [0, 1] |
| WeaknessDetection.DensityPart | orko-backend/backend/app/services/parsing/domain_weakness_detector.py:99-102 | the density contribution lies in [0, 0.6] |
| WeaknessDetection.DriftPart | orko-backend/backend/app/services/parsing/domain_weakness_detector.py:110-115 | the drift contribution is either nothing or 0.7 |
| WeaknessDetection.Others | orko-backend/backend/app/services/parsing/domain_weakness_detector.py:122 | the confusion entries kept are exactly those naming another domain |
| WeaknessDetection.ConfusedWith | orko-backend/backend/app/services/parsing/domain_weakness_detector.py:121-125 | the other domains' entries, most frequent first, a permutation of those entries |
| WeaknessDetection.ConfusionPart | orko-backend/backend/app/services/parsing/domain_weakness_detector.py:128-131 | the top-confusion contribution lies in [0, 1] and is nothing when no other domain was predicted |
| WeaknessDetection.Score | orko-backend/backend/app/services/parsing/domain_weakness_detector.py:70-131 | the severity score is never negative, and a low F1, precision or recall or more misses than wrong predictions makes it positive |
| WeaknessDetection.Severity | orko-backend/backend/app/services/parsing/domain_weakness_detector.py:136-145 | each grade holds exactly on its score band: critical from 2.5, high from 1.6, medium from 0.9, low above 0, healthy otherwise |
| WeaknessDetection.Actions | orko-backend/backend/app/services/parsing/domain_weakness_detector.py:150-163 | two actions for high or critical, one when misses and wrong predictions differ, two more for critical, the critical ones last |
| WeaknessDetection.CheckThresholds | orko-backend/backend/app/services/parsing/domain_weakness_detector.py:76-86 | the F1, precision and recall checks add the threshold score and their reasons in order |
| WeaknessDetection.CheckCounts | orko-backend/backend/app/services/parsing/domain_weakness_detector.py:91-104 | the miss-excess and density checks add the count score and their reasons in order |
| WeaknessDetection.CheckConfusion | orko-backend/backend/app/services/parsing/domain_weakness_detector.py:110-131 | the drift and confusion checks add the confusion score and their reasons in order |
| WeaknessDetection.ScoreDomain | orko-backend/backend/app/services/parsing/domain_weakness_detector.py:70-131 | the accumulated score is the domain's severity score and the reasons are the checks' reasons in order |
| WeaknessDetection.Recommend | orko-backend/backend/app/services/parsing/domain_weakness_detector.py:150-163 | the recommended actions are those of the grade and the miss/wrong-prediction balance |
| WeaknessDetection.AnalyzeDomain | orko-backend/backend/app/services/parsing/domain_weakness_detector.py:62-183 | the entry copies the domain's scores and counts, carries its severity score, grade, reasons and actions, and the top three confusions |
| WeaknessDetection.AnalyzeAll | orko-backend/backend/app/services/parsing/domain_weakness_detector.py:62-183 | each entry is the whole analysis of its table row (every field), one per row, in table order |
| WeaknessDetection.DetectWeakDomains | orko-backend/backend/app/services/parsing/domain_weakness_detector.py:56-189 | the result is ordered from the most severe grade to the least, and holds exactly the analyses of the domains, one per domain |
| WeaknessDetection.ReorderedAnalysis | orko-backend/backend/app/services/parsing/domain_weakness_detector.py:186-187 | a reordering of the analysed entries still holds an analysis of every domain and nothing else |
| WeaknessDetection.HealthyIffZero | orko-backend/backend/app/services/parsing/domain_weakness_detector.py:136-145 | a domain is healthy exactly when its score is zero |
| WeaknessDetection.ConfusedWithShape | orko-backend/backend/app/services/parsing/domain_weakness_detector.py:121-181 | at most three confusions are listed, none naming the domain itself, each from its confusion row, most frequent first |
| WeaknessDetection.TopConfusionIsMostFrequent | orko-backend/backend/app/services/parsing/domain_weakness_detector.py:121-131 | the top confusion is at least as frequent as any other domain predicted instead |
| Ordering.InsertDesc | orko-backend/backend/app/services/parsing/domain_weakness_detector.py:186-187 | inserting into a list ordered by descending key keeps it ordered and adds exactly the one element |
| Ordering.SortDesc | orko-backend/backend/app/services/parsing/domain_weakness_detector.py:121-187 | the sorted list is ordered by descending key and is a permutation of the input |
| Ordering.FirstIsLargest | orko-backend/backend/app/services/parsing/domain_weakness_detector.py:128-129 | the head of a list ordered by descending key has the largest key |
| PatternMining.PatternMiner.constructor | orko-backend/backend/app/services/parsing/pattern_miner.py:20-29 | the miner holds the error rows it was given |
| PatternMining.PatternMiner.DomainConfusionPatterns | orko-backend/backend/app/services/parsing/pattern_miner.py:31-37 | the matrix counts each (expected domain, predicted domain or "none") pair of the error rows |
| PatternMining.PatternMiner.ActionConfusionPatterns | orko-backend/backend/app/services/parsing/pattern_miner.py:39-45 | the matrix counts each (expected action, predicted action or "none") pair of the error rows |
| PatternMining.PatternMiner.MissingParameterPatterns | orko-backend/backend/app/services/parsing/pattern_miner.py:47-55 | each parameter name counts the rows that expected it but did not get it |
| PatternMining.PatternMiner.PhrasingPatterns | orko-backend/backend/app/services/parsing/pattern_miner.py:57-62 | the lower-cased command tokens counted across the rows, only those seen more than once |
| PatternMining.PatternMiner.Summarize | orko-backend/backend/app/services/parsing/pattern_miner.py:64-70 | the summary holds the four pattern tables of the same rows |
| PatternMining.CountWords | orko-backend/backend/app/services/parsing/pattern_miner.py:60-61 | counting one command's lower-cased words extends the token counter by exactly those words |
| PatternMining.CountKey | orko-backend/backend/app/services/parsing/pattern_miner.py:52-54 | one more expected key counts once when it is missing from the predicted parameters |
| PatternMining.CountMissing | orko-backend/backend/app/services/parsing/pattern_miner.py:50-54 | one row adds one to each of its expected keys missing from the predicted parameters, and nothing else |
| PatternMining.DomainConfusionTotal | orko-backend/backend/app/services/parsing/pattern_miner.py:31-37 | the domain matrix cells add up to the number of error rows, each cell counting its pair |
| PatternMining.ActionConfusionTotal | orko-backend/backend/app/services/parsing/pattern_miner.py:39-45 | the action matrix cells add up to the number of error rows, each cell counting its pair |
| PatternMining.PredictedNoneColumn | orko-backend/backend/app/services/parsing/pattern_miner.py:35 | a row with no predicted domain is counted in the "none" column |
| PatternMining.MissingCountsMeaning | orko-backend/backend/app/services/parsing/pattern_miner.py:47-55 | each count is the number of rows missing that key, and a key is listed exactly when some row misses it |
| PatternMining.FrequentMeaning | orko-backend/backend/app/services/parsing/pattern_miner.py:57-62 | a token is listed exactly when it occurs more than once, with its number of occurrences |
| GuardrailGeneration.Select | orko-backend/backend/app/services/parsing/guardrail_generator.py:53-68 | the entries are exactly the counter entries whose count reaches the threshold and whose key is not excluded, each once |
| GuardrailGeneration.FlagConfusions | orko-backend/backend/app/services/parsing/guardrail_generator.py:30-50 | the rules are exactly the confusion cells with differing expected and predicted labels seen at least the threshold number of times, each once, each with the table's reason and suggestion text |
| GuardrailGeneration.CountRules | orko-backend/backend/app/services/parsing/guardrail_generator.py:53-68 | the rules are exactly the counter entries reaching the threshold, each once, with the table's suggestion text |
| GuardrailGeneration.Suggest | orko-backend/backend/app/services/parsing/guardrail_generator.py:20-68 | domain and action rules are the mismatches seen at least twice, parameter rules the keys missing at least twice, phrasing rules the tokens seen at least four times, none repeated, each carrying its reason (domain rules only) and its suggestion text |
| GuardrailGeneration.GuardrailGenerator.constructor | orko-backend/backend/app/services/parsing/guardrail_generator.py:16-17 | the generator holds the given pattern miner |
| GuardrailGeneration.GuardrailGenerator.Generate | orko-backend/backend/app/services/parsing/guardrail_generator.py:19-75 | the four rule lists, with their texts, are those flagged in the miner's summary of its error rows |
| GuardrailGeneration.DomainRuleMeaning | orko-backend/backend/app/services/parsing/guardrail_generator.py:30-39 | a domain rule counts a real mismatch pair that occurs at least twice among the error rows, and gives the reason "frequent domain confusion" |
| GuardrailGeneration.ActionRuleMeaning | orko-backend/backend/app/services/parsing/guardrail_generator.py:42-50 | an action rule counts a real mismatch pair that occurs at least twice among the error rows, and carries no reason |
| GuardrailGeneration.ParameterRuleMeaning | orko-backend/backend/app/services/parsing/guardrail_generator.py:53-59 | a parameter gets a rule exactly when at least two rows miss it |
| GuardrailGeneration.PhrasingRuleMeaning | orko-backend/backend/app/services/parsing/guardrail_generator.py:62-68 | a token gets a rule exactly when it occurs at least four times |
| FailureCategories.Categorize | orko-backend/backend/app/services/parsing/categorize_failures_v1.py:7-26 | each category holds exactly under its condition: a domain mismatch first, then an action mismatch, then no detected action, then expected but empty parameters, then differing predicted parameters |
| FailureCategories.EmptyEqualsOnlyFalsy | orko-backend/backend/app/services/parsing/categorize_failures_v1.py:17-23 | a value equal to the empty object is falsy |
| FailureCategories.OtherIffParametersMatch | orko-backend/backend/app/services/parsing/categorize_failures_v1.py:23-26 | "other" is returned exactly when labels agree, an action was detected and the predicted parameters equal the expected ones |
| EvalDataset.NextIdNumber | orko-backend/backend/app/services/parsing/generate_eval_dataset_v7.py:33-48 | one more than the largest number among the "CMD-" ids that parse, 1 when there is none |
| EvalDataset.MaxIdIsMax | orko-backend/backend/app/services/parsing/generate_eval_dataset_v7.py:39-45 | no parsed id number exceeds the maximum |
| EvalDataset.MaxIdOccurs | orko-backend/backend/app/services/parsing/generate_eval_dataset_v7.py:39-45 | the maximum is 0 or the number of some item's id |
| EvalDataset.IdRoundTrip | orko-backend/backend/app/services/parsing/generate_eval_dataset_v7.py:43-59 | a made "CMD-" id reads back as its number |
| EvalDataset.MadeItemId | orko-backend/backend/app/services/parsing/generate_eval_dataset_v7.py:51-66 | a made item's id reads back as the number it was made with |
| EvalDataset.GenerateSynthetic | orko-backend/backend/app/services/parsing/generate_eval_dataset_v7.py:69-90 | as many items as are still needed up to the target, capped by the specs available, the first specs numbered consecutively from the start id |
| EvalDataset.SyntheticIds | orko-backend/backend/app/services/parsing/generate_eval_dataset_v7.py:82-89 | the i-th synthetic item has number start id plus i |
| EvalDataset.BuildV7 | orko-backend/backend/app/services/parsing/generate_eval_dataset_v7.py:418-424 | the base items unchanged, followed by the synthetic items numbered from the next id |
| EvalDataset.NoIdClash | orko-backend/backend/app/services/parsing/generate_eval_dataset_v7.py:418-424 | no synthetic item's number equals the number of a base item |
| Cleaning.ControlsToSpaces | orko-backend/backend/app/integrations/files/cleaning.py:41 | each control character becomes a space (sparing newlines when asked), every other character is kept, and the length is unchanged |
| Cleaning.DropBlanks | orko-backend/backend/app/integrations/files/cleaning.py:44 | what follows a run of spaces and tabs, starting with neither |
| Cleaning.SqueezeBlanks | orko-backend/backend/app/integrations/files/cleaning.py:44 | no tab and no two spaces in a row remain, the non-blank characters are kept in order, nothing but spaces is added, and the text is empty or starts with a blank exactly when the input does |
| Cleaning.SqueezeSplit | orko-backend/backend/app/integrations/files/cleaning.py:44 | squeezing splits at every non-blank character: only the blank runs between them change |
| Cleaning.SqueezeRun | orko-backend/backend/app/integrations/files/cleaning.py:44 | a non-empty run of blanks becomes one space |
| Cleaning.CollapseFirst | orko-backend/backend/app/integrations/files/cleaning.py:47 | the collapse is empty only for empty text and starts with a newline exactly when the text does |
| Cleaning.CollapseChars | orko-backend/backend/app/integrations/files/cleaning.py:47 | the collapse introduces no character that was not in the text |
| Cleaning.CollapseNoTriple | orko-backend/backend/app/integrations/files/cleaning.py:47 | after the collapse no three newlines stand in a row |
| Cleaning.CollapseSplit | orko-backend/backend/app/integrations/files/cleaning.py:47 | the collapse splits at every character other than a newline: only the newline runs between them change |
| Cleaning.CollapseRun | orko-backend/backend/app/integrations/files/cleaning.py:47 | a run of three or more newlines becomes two, a shorter run stays |
| Cleaning.ControlsReplaced | orko-backend/backend/app/integrations/files/cleaning.py:41 | after the replacement no control character is left, except newlines when they are spared |
| Cleaning.StripKeepsShape | orko-backend/backend/app/integrations/files/cleaning.py:50 | stripping keeps the absence of control characters and of triple newlines |
| Cleaning.NormalizeShape | orko-backend/backend/app/integrations/files/cleaning.py:27-50 | normalised text holds no control character and no three newlines in a row |
| Cleaning.NormalizeAsWrittenDropsNewlines | orko-backend/backend/app/integrations/files/cleaning.py:41-47 | as written, normalised text holds no newline at all, so the newline collapse never applies |
| Cleaning.NormalizeTextShape | orko-backend/backend/app/integrations/files/cleaning.py:27-50 | with newlines spared, normalised text holds only newlines among control characters and never three in a row |
| Cleaning.RemoveHeadersAndFooters | orko-backend/backend/app/integrations/files/cleaning.py:56-81 | the pass over the lines yields the lines kept by the filter, joined by newlines, and empty text for empty input |
| Cleaning.KeepLineClean | orko-backend/backend/app/integrations/files/cleaning.py:65-79 | a line is dropped exactly when it is a non-blank page number or short header, and whatever is kept is blank or stripped and neither of those |
| Cleaning.CleanedLinesClean | orko-backend/backend/app/integrations/files/cleaning.py:63-81 | the kept lines are no more than the input lines and are all clean |
| Cleaning.KeepCleanLine | orko-backend/backend/app/integrations/files/cleaning.py:65-79 | the filter returns a line unchanged exactly when it is stripped and not dropped |
| Cleaning.CleanedLinesUnchanged | orko-backend/backend/app/integrations/files/cleaning.py:63-81 | lines that all pass unchanged come out as they went in |
| Cleaning.LastLines | orko-backend/backend/app/integrations/files/cleaning.py:96 | at most the last forty lines, a suffix of the lines |
| Cleaning.FirstMarkerFound | orko-backend/backend/app/integrations/files/cleaning.py:97-108 | the marker found is the first of the list present in the tail, at its first position, and none is found exactly when no marker occurs |
| Cleaning.FindMarker | orko-backend/backend/app/integrations/files/cleaning.py:106-108 | the loop over the markers stops at the first marker found, with its position |
| Cleaning.RemoveSignatures | orko-backend/backend/app/integrations/files/cleaning.py:87-112 | the method returns the signature removal as written |
| Cleaning.CutLines | orko-backend/backend/app/integrations/files/cleaning.py:109-110 | the cut keeps the lines before the as-written cutoff, joined and stripped |
| Cleaning.AsWrittenIsCut | orko-backend/backend/app/integrations/files/cleaning.py:105-110 | when a marker is found, the result is the as-written cut at its position |
| Cleaning.FirstLineWith | orko-backend/backend/app/integrations/files/cleaning.py:107 | the first tail line holding the marker, none before it holding it, or none at all |
| Cleaning.SignaturesCutAtMarkerLine | orko-backend/backend/app/integrations/files/cleaning.py:105-110 | the corrected removal keeps exactly the lines before the first tail line holding the marker, which does hold it |
| Cleaning.SignaturesAreCut | orko-backend/backend/app/integrations/files/cleaning.py:105-110 | when a marker is found, the corrected result is the cut at the marker's line |
| Cleaning.NoMarkerNoCut | orko-backend/backend/app/integrations/files/cleaning.py:112 | without a marker in the tail both versions return the text unchanged |
| Cleaning.OneLineCutAsWritten | orko-backend/backend/app/integrations/files/cleaning.py:107-110 | on one line holding a marker, the as-written cut keeps the whole stripped line when the marker starts it and erases it otherwise |
| Cleaning.OneLineCut | orko-backend/backend/app/integrations/files/cleaning.py:105-110 | on one line holding a marker, the corrected cut removes the line |
| Cleaning.SignatureCutExample | orko-backend/backend/app/integrations/files/cleaning.py:109-110 | as written, the text "sincerely" comes back whole |
| Cleaning.SignatureCutExampleCorrected | orko-backend/backend/app/integrations/files/cleaning.py:105-110 | the corrected cut removes the text "sincerely" |
| Cleaning.Break | orko-backend/backend/app/integrations/files/cleaning.py:135-137 | the break lies in the window: the last '.' before the chunk end, or the chunk end |
| Cleaning.Next | orko-backend/backend/app/integrations/files/cleaning.py:139 | the next start is always past the break, so the loop makes progress |
| Cleaning.Cut | orko-backend/backend/app/integrations/files/cleaning.py:129-139 | one round of the loop appends the next stripped piece and leaves the remaining pieces to cut from a later start |
| Cleaning.ChunkText | orko-backend/backend/app/integrations/files/cleaning.py:118-141 | the chunks are the stripped pieces of the text with the empty ones dropped, and empty text gives no chunks |
| Cleaning.PiecesBounded | orko-backend/backend/app/integrations/files/cleaning.py:129-138 | no piece is longer than the chunk size plus one |
| Cleaning.PiecesTile | orko-backend/backend/app/integrations/files/cleaning.py:128-139 | with the overlap the code passes, the pieces put together are the text: nothing is read twice and nothing is skipped |
| Cleaning.ChunksShape | orko-backend/backend/app/integrations/files/cleaning.py:138-141 | every chunk is non-empty, stripped and at most the chunk size plus one long |
| Cleaning.CleanText | orko-backend/backend/app/integrations/files/cleaning.py:147-154 | the corrected pipeline (newlines kept through normalisation, the cut at the marker's line): the result is stripped, holds no control character but the newline, and without a signature marker is the stripped header-filtered text |
| Cleaning.CleanTextAsWritten | orko-backend/backend/app/integrations/files/cleaning.py:147-154 | as written: the result is stripped, and without a signature marker it is the stripped header-filtered text of the newline-dropping normalisation |
| Cleaning.OneLineHeaders | orko-backend/backend/app/integrations/files/cleaning.py:56-81 | a one-line text the filter keeps passes the header removal unchanged |
| Cleaning.CleanTextAsWrittenErases | orko-backend/backend/app/integrations/files/cleaning.py:147-154 | as written, a one-line text with a marker past its start is erased entirely |
| PayloadNormalizer.TimestampUnwritten | orko-backend/backend/app/db/helpers/normalizer.py:51-54 | writing the source does not change the timestamp the next step reads |
| PayloadNormalizer.ContentUnwritten | orko-backend/backend/app/db/helpers/normalizer.py:51-57 | writing the source and timestamp does not change the content the next step reads |
| PayloadNormalizer.AttachmentsUnwritten | orko-backend/backend/app/db/helpers/normalizer.py:51-63 | the earlier writes do not change the attachments the next step reads |
| PayloadNormalizer.OrgIdUnwritten | orko-backend/backend/app/db/helpers/normalizer.py:51-72 | the earlier writes do not change the organisation id the next step reads |
| PayloadNormalizer.SetSource | orko-backend/backend/app/db/helpers/normalizer.py:47-51 | the source field becomes the stripped, lower-cased source text, "unknown" when that is empty |
| PayloadNormalizer.KnownSourceNamed | orko-backend/backend/app/db/helpers/normalizer.py:6-50 | no known source is empty, so the known-source test never changes the result |
| PayloadNormalizer.SetContent | orko-backend/backend/app/db/helpers/normalizer.py:57-60 | the content field becomes the content's text, "" when missing or None |
| PayloadNormalizer.SetAttachments | orko-backend/backend/app/db/helpers/normalizer.py:63-68 | the attachments field becomes a list: [] when missing or None, a single value wrapped |
| PayloadNormalizer.SetOrgId | orko-backend/backend/app/db/helpers/normalizer.py:71-75 | the organisation id becomes int() of the value, or the default where int() raises |
| PayloadNormalizer.NormalizePayload | orko-backend/backend/app/db/helpers/normalizer.py:34-77 | the result is the payload with the five canonical fields written over it |
| PayloadNormalizer.KeysDistinct | orko-backend/backend/app/db/helpers/normalizer.py:47-75 | the five canonical field names are distinct |
| PayloadNormalizer.OverwriteShape | orko-backend/backend/app/db/helpers/normalizer.py:44-77 | the result has the payload's keys plus the canonical ones, the canonical fields hold the given values, and every other field is kept |
| PayloadNormalizer.NormalizedShape | orko-backend/backend/app/db/helpers/normalizer.py:36-43 | source, timestamp and content are strings, attachments a list and the organisation id an integer, and extra fields are kept |
| PayloadNormalizer.SourceKept | orko-backend/backend/app/db/helpers/normalizer.py:47-50 | a non-empty source text is kept as it is, an empty one becomes "unknown" |
| PayloadNormalizer.SourceTextClean | orko-backend/backend/app/db/helpers/normalizer.py:47 | the source text is lower-case and stripped |
| PayloadNormalizer.SourceMeaning | orko-backend/backend/app/db/helpers/normalizer.py:47-51 | the stored source is non-empty, lower-case and stripped |
| PayloadNormalizer.NoneSource | orko-backend/backend/app/db/helpers/normalizer.py:47 | a None source is stored as "none", not "unknown" |
| PayloadNormalizer.ContentMeaning | orko-backend/backend/app/db/helpers/normalizer.py:57-60 | missing or None content becomes "", and string content is kept |
| PayloadNormalizer.AttachmentsMeaning | orko-backend/backend/app/db/helpers/normalizer.py:63-68 | missing or None attachments become [], a list is kept, any other value becomes a one-element list |
| PayloadNormalizer.OrgIdMeaning | orko-backend/backend/app/db/helpers/normalizer.py:71-75 | a missing, None, list or object id gives the default, an integer is kept, and a string is parsed or gives the default |
| PayloadNormalizer.OrgIdTruncates | orko-backend/backend/app/db/helpers/normalizer.py:72 | a float id is truncated toward zero |
| PayloadNormalizer.OverwriteSame | orko-backend/backend/app/db/helpers/normalizer.py:44-77 | writing fields that already hold the values changes nothing |
| PayloadNormalizer.FieldsStable | orko-backend/backend/app/db/helpers/normalizer.py:47-75 | normalising again reads back the same source, content, attachments and organisation id, and the timestamp already converted |
| PayloadNormalizer.NormalizeIdempotent | orko-backend/backend/app/db/helpers/normalizer.py:34-77 | when timestamp conversion is idempotent, normalising a normalised payload changes nothing |
| Brains.Tier | orko-backend/backend/app/learning/brains/knowledge_brain.py:43-72 | the tier of a counter is one of four, and the first exactly when the counter is 0 |
| Brains.InsightFollowsTier | orko-backend/backend/app/learning/brains/knowledge_brain.py:43-72 | counters in the same tier get the same insight text and the same confidence (apart from the pattern tier whose text names the count) |
| Brains.TierMonotone | orko-backend/backend/app/learning/brains/knowledge_brain.py:60-72 | a larger counter never falls into a lower tier nor gets a lower confidence |
| Brains.ConfidenceBounds | orko-backend/backend/app/learning/brains/knowledge_brain.py:60-72 | the score's confidence lies between 0 and 0.85 and is 0 exactly when the counter is 0 |
| Brains.WeightBounds | orko-backend/backend/app/learning/brains/knowledge_brain.py:60-72 | the weight of a non-negative counter lies between the counter and 1.6 times it |
| Brains.LearnSound | orko-backend/backend/app/learning/brains/knowledge_brain.py:77-102 | learning keeps the cumulative value non-negative, the confidence in [0, 1] and the memory factor in [0.5, 2] |
| Brains.LongTermSound | orko-backend/backend/app/learning/brains/knowledge_brain.py:107-124 | long-term decay keeps the same bounds |
| Brains.LearnDirection | orko-backend/backend/app/learning/brains/knowledge_brain.py:77-102 | strength from 0.5 grows every meta value, strength below 0.25 lowers confidence and memory and keeps the cumulative value, anything between changes nothing |
| Brains.DecayFloors | orko-backend/backend/app/learning/brains/knowledge_brain.py:92-102 | in decay mode the confidence reaches 0 and the memory factor 0.5 exactly when they were within one step of those floors |
| Brains.LongTermShrinks | orko-backend/backend/app/learning/brains/knowledge_brain.py:107-124 | long-term decay never raises a meta value, and a positive cumulative value always shrinks |
| Brains.Brain.constructor | orko-backend/backend/app/learning/brains/knowledge_brain.py:5-14 | a new brain has a zero counter and the initial meta values, which are sound |
| Brains.Brain.Update | orko-backend/backend/app/learning/brains/knowledge_brain.py:23-29 | the counter grows by the update's value for the brain's key, 0 when absent, the meta values stay, and the new state is returned |
| Brains.Brain.ApplyLearning | orko-backend/backend/app/learning/brains/knowledge_brain.py:77-102 | the meta values become those of learning at the given strength, and the counter stays |
| Brains.Brain.DecayLongTerm | orko-backend/backend/app/learning/brains/knowledge_brain.py:107-124 | the meta values become those of long-term decay, and the counter stays |
| LearningEngine.Normalize | orko-backend/backend/app/learning/engine/engine.py:22-24 | a non-negative value capped at a positive maximum lands in [0, 1], is 1 exactly from the maximum on, and below it is the value as a fraction of the maximum |
| LearningEngine.Points | orko-backend/backend/app/learning/engine/engine.py:29-36 | each insight text contributes 0, 0.5 or 1 |
| LearningEngine.TotalBounds | orko-backend/backend/app/learning/engine/engine.py:27-36 | the points of the texts add up to between 0 and the number of texts |
| LearningEngine.HeuristicSignal | orko-backend/backend/app/learning/engine/engine.py:26-38 | the loop adds up the points of the insight texts and divides by 3 |
| LearningEngine.SignalBounds | orko-backend/backend/app/learning/engine/engine.py:38 | the signal lies between 0 and a third of the number of texts |
| LearningEngine.ClampSound | orko-backend/backend/app/learning/engine/engine.py:43-47 | clamping keeps the cumulative value, puts confidence in [0, 1] and memory in [0.5, 2], and changes a meta exactly when one of them is out of range |
| LearningEngine.DiminishedIff | orko-backend/backend/app/learning/engine/engine.py:52-55 | a non-zero strength is scaled by 0.8 exactly when the journal has more than 25 entries |
| LearningEngine.MapEventType | orko-backend/backend/app/learning/engine/engine.py:86-96 | an update exists exactly when the event's brain or tag, or "", is a string, and it holds exactly one entry |
| LearningEngine.EventTargetsOneBrain | orko-backend/backend/app/learning/engine/engine.py:86-109 | the brain the lower-cased tag names gets one more, every other brain nothing |
| LearningEngine.UnknownTagIsSystem | orko-backend/backend/app/learning/engine/engine.py:96 | a tag naming no brain maps to the empty system update |
| LearningEngine.TallyBounds | orko-backend/backend/app/learning/engine/engine.py:125-127 | the counts an event batch adds are non-negative and together no more than the number of events |
| LearningEngine.TallyStep | orko-backend/backend/app/learning/engine/engine.py:126-127 | one more event adds its own increment to each brain's count |
| LearningEngine.RoundHalfEven | orko-backend/backend/app/learning/engine/engine.py:237 | the nearest integer, within one half, a tie going to the even one |
| LearningEngine.RoundHalfEvenWithin | orko-backend/backend/app/learning/engine/engine.py:237 | rounding a value between two integers stays between them |
| LearningEngine.Round4 | orko-backend/backend/app/learning/engine/engine.py:237 | `round(x, 4)`: the nearest multiple of 0.0001, within 0.00005 of x, ties to the even multiple |
| LearningEngine.Round4Within | orko-backend/backend/app/learning/engine/engine.py:237 | rounding a value between two multiples of 0.0001 stays between them |
| LearningEngine.Round4Exact | orko-backend/backend/app/learning/engine/engine.py:237 | a multiple of 0.0001 is its own rounding |
| LearningEngine.StrengthBounds | orko-backend/backend/app/learning/engine/engine.py:207-238 | with non-negative counters, the mean confidence lies in [0, 0.85], the normalised weight and the signal in [0, 1], and the rounded strength in [0, 0.87] |
| LearningEngine.AfterCycleSound | orko-backend/backend/app/learning/engine/engine.py:293-303 | learning, clamping and decay keep a sound brain sound, and on a sound brain the clamp changes nothing |
| LearningEngine.Engine.constructor | orko-backend/backend/app/learning/engine/engine.py:13-17 | the engine starts with the loaded journal and three fresh brains at zero with the initial meta values |
| LearningEngine.Engine.AppendEntry | orko-backend/backend/app/learning/journal/learning_journal.py:61-68 | the entry is appended to the journal |
| LearningEngine.Engine.ApplyStabilityRules | orko-backend/backend/app/learning/engine/engine.py:43-47 | each brain's meta is clamped and its counter kept |
| LearningEngine.Engine.RecordDecayEvent | orko-backend/backend/app/learning/engine/engine.py:68-81 | a system entry "Long-term decay applied." with the three metas is appended |
| LearningEngine.Engine.MaybeApplyLongTermDecay | orko-backend/backend/app/learning/engine/engine.py:60-66 | when the journal length is a multiple of 5, every brain decays and one decay entry is appended; otherwise nothing changes |
| LearningEngine.Engine.ProcessEvent | orko-backend/backend/app/learning/engine/engine.py:101-120 | an event whose tag is a string bumps the counter of the brain it names and appends one entry; any other event changes nothing |
| LearningEngine.Engine.RecordHeuristicInsights | orko-backend/backend/app/learning/engine/engine.py:170-180 | a system entry with the three insight texts is appended |
| LearningEngine.Engine.RecordScores | orko-backend/backend/app/learning/engine/engine.py:192-202 | a system entry with the three scores is appended |
| LearningEngine.Engine.ComputeLearningStrength | orko-backend/backend/app/learning/engine/engine.py:207-238 | the strength is that of the current scores and insight texts, rounded to four decimals |
| LearningEngine.Engine.StrengthMatchesCounts | orko-backend/backend/app/learning/engine/engine.py:207-238 | the strength depends only on the three counters |
| LearningEngine.Engine.RecordLearningStrength | orko-backend/backend/app/learning/engine/engine.py:240-250 | a system entry with the computed strength is appended |
| LearningEngine.Engine.ApplyLearningToAll | orko-backend/backend/app/learning/engine/engine.py:255-258 | each brain learns at the same strength and keeps its counter |
| LearningEngine.Engine.RecordMetaEvolution | orko-backend/backend/app/learning/engine/engine.py:263-277 | a system entry with the three metas and the strength is appended |
| LearningEngine.Engine.RecordEvaluation | orko-backend/backend/app/learning/engine/engine.py:129-137 | the heuristics entry (the three insight texts), the scores entry (the three scores) and the strength entry (the strength of those scores and texts) are returned and appended in that order |
| LearningEngine.Engine.Evolve | orko-backend/backend/app/learning/engine/engine.py:293-306 | the strength diminished by the journal length is learned, clamped and decayed every fifth entry; the journal gains the decay entry (the new metas) when decay happens, then the meta entry (the new metas and the diminished strength) |
| LearningEngine.Engine.FeedEvents | orko-backend/backend/app/learning/engine/engine.py:125-127 | when every event maps, the journal gains exactly the events' own entries, in order, and each counter grows by its tally; when an event's tag is not a string, exactly the events before it are processed (their entries appended, their tallies counted); the metas stay |
| LearningEngine.Engine.FeedOne | orko-backend/backend/app/learning/engine/engine.py:125-127 | one round of the loop: a mapped event extends the journal and the counters from the first i events to the first i + 1; an unmapped one changes nothing |
| LearningEngine.EventEntriesAt | orko-backend/backend/app/learning/engine/engine.py:111-119 | the entries of a batch are one per event, each that event's own entry |
| LearningEngine.Engine.ProcessEvents | orko-backend/backend/app/learning/engine/engine.py:125-137 | when every event maps, the journal gains the events' own entries, then the heuristics, scores and strength entries of the updated brains, which are returned; the counters grow by their tallies; on an event whose tag is not a string, exactly the events before it are processed (their entries appended) and nothing else happens |
| LearningEngine.Engine.RecordSnapshotAndEvaluation | orko-backend/backend/app/learning/engine/engine.py:283-288 | the snapshot of the insights, then the heuristics, scores and strength entries, returned and appended in that order |
| LearningEngine.Engine.RunCycle | orko-backend/backend/app/learning/engine/engine.py:282-315 | the journal gains, in order, the snapshot, heuristics, scores and strength entries of the old brains, the decay entry exactly when the length after those four is a multiple of 5, and the meta entry with the new metas and the diminished strength; the strength entry holds the four-decimal rounded strength of the old counters, and each brain's meta becomes that of this strength diminished |

## Left out

- The language-model call itself and the text of the prompts it is sent: the model's reply is a parameter of the parse, and a call that raises is modelled as no reply.
- Database writes, telemetry and log lines written while a command is parsed: they do not influence the returned result.
- Reading configuration, dataset and registry files from disk: their parsed contents are parameters. Writing reports, datasets, guardrail files and the learning journal to disk (including the state save and load of the brains) is not modelled; the journal is the in-memory list of entries.
- SlotFilling.Fill and SlotFilling.FillConfidenceBounds: the fill confidence is the exact rational, not rounded to three decimals (`round(…, 3)`, slot_filling.py:93).
- IntentMapper.MapV7 and IntentMapper.MappingConfidenceBounds: the mapping confidence is the exact rational, not rounded to three decimals (`round(…, 3)`, intent_mapper.py:184).
- WeaknessDetection.AnalyzeDomain: the entry's weakness score is the exact severity score, not rounded to four decimals (`round(severity_score, 4)`, domain_weakness_detector.py:177); the grade is computed from the unrounded score, as in the source.
- The learning strength, which the cycle learns from, is rounded to four decimals as the source does (LearningEngine.Round4, engine.py:237).
- Lower-casing, stripping and character classes are ASCII. Unicode NFKC normalisation is a parameter. `splitlines` splits on the newline character only.
- The iteration order of Python dictionaries: maps are unordered, so where the source walks a dict (slot definitions, counters), the model states the result independently of that order. Sorting is proved sorted and a permutation, but its stability is not stated.
- Timestamp conversion to ISO 8601 (clock and calendar) and the `repr` text of floats, lists and dicts are parameters of the payload normaliser.
- Python's `int(...)` on strings with digit-group underscores and non-ASCII digits is not modelled; ASCII digits, a sign and surrounding ASCII whitespace are.
- Random identifiers and clock timestamps of dataset items and journal entries are left out of the modelled values.
- The regular-expression PII maskers are parameters of the masking step; the model proves which fields they are applied to and that everything else is untouched.
- In-place mutation of the parsed dictionaries is modelled as functions returning the new dictionary; aliasing between caller and callee copies is not captured.
- Cleaning.ChunkText: a negative chunk size is not modelled. The restart `max(next_break - overlap, next_break + 1)` always equals `next_break + 1`, so the configured overlap never produces overlapping chunks; the model keeps that behaviour and proves the chunks tile the text.
- Dataset item ids are natural numbers; an id counter read back from a malformed file is not modelled.
- The failure categoriser's command-line entry point and its file reading are left out; categorisation of one record is modelled.
- Writing the generated guardrail rules to a file is left out; the rules themselves are modelled.
- Brain updates carry integer values only; a non-integer update value (which Python would add as a float) is not modelled.
- CommandParsing.ExtractIntent: `Intent(**content)` is validated by pydantic, which coerces some values (a number or a bool to a string where a string is declared, a string such as "true" to a bool); the model accepts only values already of the declared kind, so it rejects some responses the source would coerce and accept. Coercion rules belong to the validation library, which is not part of this model.
- ParserEvaluation: `parsed.get("parameters", {})` raises when the key holds `None`; the model treats a missing or non-mapping parameters value as empty.
- Report writers, API routes, integrations other than file cleaning, and the database layer other than payload normalisation are outside this model.

## Findings

| source | as written | input that shows it | evidently intended | confidence | as-written member | corrected member |
|---|---|---|---|---|---|---|
| orko-backend/backend/app/services/parsing/ai_parser.py:312-314 | `ndv in nv or nv in ndv` runs on whatever `_norm_value_for_compare` returns, and that is the value itself when it is not a string | parameter value `10` with example default `5`: `5 in 10` raises TypeError and the whole post-processing fails | substring containment only between two strings; other values compare by equality | not executed | AiParser.NumericDefaultRaises | AiParser.NearDupAgreesOnStrings |
| orko-backend/backend/app/integrations/files/cleaning.py:105-110 | the cutoff is `len(lines)` minus the number of lines before the marker, which counts from the wrong end | the text `sincerely`: the marker is at position 0, the cutoff is 1, and the text comes back whole | keep only the lines before the line holding the first marker | not executed | Cleaning.SignatureCutExample | Cleaning.SignatureCutExampleCorrected |
| orko-backend/backend/app/integrations/files/cleaning.py:41-47 | the control-character class `[\x00-\x1F\x7F]` includes the newline, so every newline becomes a space before the newline collapse runs | `Title\n\n\n\nBody`: the result has no newline at all, and the collapse to two newlines never applies | remove control characters other than the newline, then collapse three or more newlines to two | not executed | Cleaning.NormalizeAsWrittenDropsNewlines | Cleaning.NormalizeTextShape |
