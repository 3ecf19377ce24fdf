/**
 * The command parsers of the intent pipeline: the regex baseline parser
 * (first word is the action, the rest of the line its raw text), the
 * domain selection of the LLM prompt, and the validation of the LLM's
 * intent (allowed actions, confirmation for destructive ones, required
 * parameters, default risk level).
 */
module CommandParsing {
  import opened Wrappers
  import opened Text
  import opened Json

  // ---------------------------------------------------------------------------
  // The regex baseline parser: `^\s*(?P<action>\w+)\b(?P<rest>.*)$`
  // ---------------------------------------------------------------------------

  /** A regex word character (`\w`) on ASCII: a letter, a digit or `_`. */
  predicate IsWordChar(c: char) {
    ('a' <= c <= 'z') || ('A' <= c <= 'Z') || ('0' <= c <= '9') || c == '_'
  }

  predicate AllWordChars(s: string) {
    forall i :: 0 <= i < |s| ==> IsWordChar(s[i])
  }

  /** The greedy `\w+` prefix (possibly empty). */
  function WordPrefix(s: string): (w: string)
    ensures |w| <= |s| && w == s[..|w|]
    ensures AllWordChars(w)
    ensures |w| < |s| ==> !IsWordChar(s[|w|])
  {
    if |s| > 0 && IsWordChar(s[0]) then [s[0]] + WordPrefix(s[1..]) else []
  }

  /**
   * `(?P<action>\w+)\b(?P<rest>.*)$` matched at the start of `t`: the word
   * (after which `\b` always holds), and the rest of the line, which must
   * reach the end of `t` or stop just before a final newline.
   */
  function WordAndRest(t: string): (m: Option<(string, string)>)
    ensures m.Some? ==> m.value.0 == WordPrefix(t) != [] && '\n' !in m.value.1
    ensures WordPrefix(t) == [] ==> m.None?
  {
    var w := WordPrefix(t);
    var rest := t[|w|..];
    if w == [] then None
    else if '\n' !in rest then Some((w, rest))
    else if '\n' !in rest[..|rest| - 1] && rest[|rest| - 1] == '\n' then Some((w, rest[..|rest| - 1]))
    else None
  }

  /** `ACTION_PATTERN.match(text)` as its two groups: `\s*` takes the leading whitespace. */
  function ActionMatch(text: string): Option<(string, string)> {
    WordAndRest(TrimLeft(text))
  }

  /**
   * A match splits the text into the word and a rest that starts with no
   * word character, possibly followed by one final newline.
   */
  lemma WordAndRestSplits(t: string)
    requires WordAndRest(t).Some?
    ensures var (w, rest) := WordAndRest(t).value;
            (rest == [] || !IsWordChar(rest[0]))
            && (t == w + rest || t == w + rest + ['\n'])
  {
    var w := WordPrefix(t);
    var rest := t[|w|..];
    var m := WordAndRest(t).value;
    if '\n' !in rest {
      assert m.1 == rest;
      assert t == w + rest;
    } else {
      assert m.1 == rest[..|rest| - 1] && rest[|rest| - 1] == '\n';
      assert t == w + m.1 + ['\n'];
    }
  }

  /**
   * There is no match exactly when no word starts the text, or a newline
   * comes after the word but before the last character.
   */
  lemma WordAndRestFails(t: string)
    ensures WordAndRest(t).None? <==>
              WordPrefix(t) == [] || (|WordPrefix(t)| < |t| && '\n' in t[|WordPrefix(t)|..|t| - 1])
  {
    var w := WordPrefix(t);
    var rest := t[|w|..];
    if w != [] && |w| < |t| {
      assert t[|w|..|t| - 1] == rest[..|rest| - 1];
      if '\n' !in rest {
        assert '\n' !in rest[..|rest| - 1];
      } else if rest[|rest| - 1] != '\n' {
        var j :| 0 <= j < |rest| && rest[j] == '\n';
        assert rest[..|rest| - 1][j] == '\n';
      }
    }
  }

  /** The dict built by the regex parser, with its five fixed keys. */
  datatype Payload = Payload(command: string, intent: Json, action: Option<string>, parameters: Obj, context: Obj)

  /** `RegexCommandParser.extract`: the lower-cased first word and the stripped rest, or no action. */
  function RegexExtract(text: string, context: Obj): (p: Payload)
    ensures p.command == text && p.intent == JNull && p.context == context
    ensures p.action.None? <==> ActionMatch(text).None?
    ensures p.action.None? ==> p.parameters == map[]
    ensures p.action.Some? ==> p.action.value == Lower(WordPrefix(TrimLeft(text)))
    ensures ActionMatch(text).Some? ==>
              p.parameters == map["raw_text" := JStr(Strip(ActionMatch(text).value.1))]
  {
    match ActionMatch(text)
    case None => Payload(text, JNull, None, map[], context)
    case Some((w, rest)) => Payload(text, JNull, Some(Lower(w)), map["raw_text" := JStr(Strip(rest))], context)
  }

  /** A word, a space and a single-line tail match as that word and the space-led tail. */
  lemma WordAndRestOfVerb(verb: string, tail: string)
    requires verb != [] && AllWordChars(verb) && '\n' !in tail
    ensures WordAndRest(verb + " " + tail) == Some((verb, " " + tail))
  {
    var t := verb + " " + tail;
    assert t == verb + (" " + tail);
    WordPrefixOf(verb, " " + tail);
    assert t[|verb|..] == " " + tail;
  }

  /** A command "verb rest" (optionally indented) yields the lower-cased verb and the stripped rest. */
  lemma RegexExtractFirstWord(indent: string, verb: string, tail: string, context: Obj)
    requires AllSpace(indent) && verb != [] && AllWordChars(verb)
    requires '\n' !in tail
    ensures RegexExtract(indent + verb + " " + tail, context).action == Some(Lower(verb))
    ensures RegexExtract(indent + verb + " " + tail, context).parameters == map["raw_text" := JStr(Strip(" " + tail))]
  {
    var text := indent + verb + " " + tail;
    assert text == indent + (verb + " " + tail);
    LeadingSpace(indent, verb + " " + tail);
    WordAndRestOfVerb(verb, tail);
    assert ActionMatch(text) == Some((verb, " " + tail));
  }

  /** Leading whitespace is exactly what `TrimLeft` removes. */
  lemma {:induction false} LeadingSpace(indent: string, s: string)
    requires AllSpace(indent) && s != [] && !IsSpace(s[0])
    ensures TrimLeft(indent + s) == s
    decreases |indent|
  {
    if indent != [] {
      assert (indent + s)[1..] == indent[1..] + s;
      LeadingSpace(indent[1..], s);
    }
  }

  /** The `\w+` prefix of a word followed by a non-word character is that word. */
  lemma {:induction false} WordPrefixOf(w: string, s: string)
    requires AllWordChars(w) && (s == [] || !IsWordChar(s[0]))
    ensures WordPrefix(w + s) == w
    decreases |w|
  {
    if w != [] {
      assert (w + s)[1..] == w[1..] + s;
      WordPrefixOf(w[1..], s);
    }
  }

  /** `RegexCommandParser.validate`: the command text must be non-empty. */
  function RegexValidate(p: Payload): (r: Result<()>)
    ensures r.Err? <==> p.command == ""
  {
    if p.command == "" then Err("ValueError: Command text is required.") else Ok(())
  }

  /** `RegexCommandParser.parse`: extract, validate, and keep the payload's fields. */
  function RegexParse(text: string, context: Obj): (r: Result<Payload>)
  {
    var p := RegexExtract(text, context);
    match RegexValidate(p)
    case Err(e) => Err(e)
    case Ok(_) => Ok(p)
  }

  /** Only the empty command is refused; a blank command parses with no action. */
  lemma RegexParseRefusesOnlyEmpty(text: string, context: Obj)
    ensures RegexParse(text, context).Err? <==> text == ""
    ensures AllSpace(text) && text != [] ==> RegexParse(text, context) == Ok(Payload(text, JNull, None, map[], context))
  {
    if AllSpace(text) && text != [] {
      TrimLeftOfSpace(text);
    }
  }

  lemma {:induction false} TrimLeftOfSpace(s: string)
    requires AllSpace(s)
    ensures TrimLeft(s) == []
    decreases |s|
  {
    if s != [] {
      TrimLeftOfSpace(s[1..]);
    }
  }

  // ---------------------------------------------------------------------------
  // Prompt domain selection (`CommandParser._build_prompt`)
  // ---------------------------------------------------------------------------

  const SupportedDomains: set<string> := {"trading", "logistics", "docs"}
  const DefaultPromptVersion: string := "v1"

  /**
   * `(domain or default_domain or "trading").lower()`, replaced by the
   * parser's default domain when it is not supported (the empty string
   * stands for None).
   */
  function SelectDomain(domain: string, defaultDomain: string): (r: string)
    ensures r in SupportedDomains || r == defaultDomain
    ensures domain != "" && Lower(domain) in SupportedDomains ==> r == Lower(domain)
    ensures domain != "" && Lower(domain) !in SupportedDomains ==> r == defaultDomain
  {
    var selected := Lower(if domain != "" then domain else if defaultDomain != "" then defaultDomain else "trading");
    if selected in SupportedDomains then selected else defaultDomain
  }

  /** The prompt's metadata: domain, version and template name. */
  datatype PromptMetadata = PromptMetadata(domain: string, version: string, templateName: string)

  function BuildPromptMetadata(domain: string, defaultDomain: string): (m: PromptMetadata)
    ensures m.domain == SelectDomain(domain, defaultDomain)
    ensures m.version == DefaultPromptVersion
    ensures m.templateName == m.domain + "_base"
  {
    var selected := SelectDomain(domain, defaultDomain);
    PromptMetadata(selected, DefaultPromptVersion, selected + "_base")
  }

  // ---------------------------------------------------------------------------
  // The intent and its validation
  // ---------------------------------------------------------------------------

  const AllowedActions: set<string> := {"db_update", "sheets_update", "email_send", "chat_post", "doc_generate"}
  const DestructiveActions: set<string> := {"db_update", "sheets_update"}

  /** The structured intent the LLM parser produces; validation updates it in place. */
  class Intent {
    var command: string
    var action: string
    var parameters: Obj
    var context: Obj
    var riskLevel: string
    var requiresConfirmation: bool
    var rawText: Option<string>

    constructor (command: string, action: string, parameters: Obj, context: Obj,
                 riskLevel: string, requiresConfirmation: bool, rawText: Option<string>)
      ensures this.command == command && this.action == action
      ensures this.parameters == parameters && this.context == context
      ensures this.riskLevel == riskLevel && this.requiresConfirmation == requiresConfirmation
      ensures this.rawText == rawText
    {
      this.command := command;
      this.action := action;
      this.parameters := parameters;
      this.context := context;
      this.riskLevel := riskLevel;
      this.requiresConfirmation := requiresConfirmation;
      this.rawText := rawText;
    }
  }

  /** The reasons `validate` refuses an intent with this action and these parameters. */
  predicate Refused(action: string, params: Obj) {
    action !in AllowedActions
    || (action == "email_send" && !Truthy(Get(params, "recipient")))
    || (action == "db_update" && (!Truthy(Get(params, "table")) || !Truthy(Get(params, "where"))))
  }

  /**
   * `CommandParser.validate`: refuses unknown actions, marks destructive
   * ones as needing confirmation (before the parameter checks, so a refused
   * destructive intent is still marked), checks the parameters email_send
   * and db_update need, and gives an empty risk level the default "medium".
   */
  method Validate(intent: Intent) returns (r: Result<()>)
    modifies intent
    ensures r.Err? <==> Refused(intent.action, intent.parameters)
    ensures intent.requiresConfirmation == (old(intent.requiresConfirmation) || intent.action in DestructiveActions)
    ensures intent.riskLevel == if r.Ok? && old(intent.riskLevel) == "" then "medium" else old(intent.riskLevel)
    ensures intent.command == old(intent.command) && intent.action == old(intent.action)
    ensures intent.parameters == old(intent.parameters) && intent.context == old(intent.context)
    ensures intent.rawText == old(intent.rawText)
  {
    var action := intent.action;
    if action !in AllowedActions {
      return Err("ValueError: Unsupported or unsafe action: " + action);
    }
    if action in DestructiveActions {
      if !intent.requiresConfirmation {
        intent.requiresConfirmation := true;
      }
    }
    var params := intent.parameters;
    if action == "email_send" && !Truthy(Get(params, "recipient")) {
      return Err("ValueError: email_send requires recipient");
    }
    if action == "db_update" {
      if !Truthy(Get(params, "table")) || !Truthy(Get(params, "where")) {
        return Err("ValueError: db_update requires table + where");
      }
    }
    if intent.riskLevel == "" {
      intent.riskLevel := "medium";
    }
    return Ok(());
  }

  // ---------------------------------------------------------------------------
  // Extraction from the LLM response (`CommandParser.extract`)
  // ---------------------------------------------------------------------------

  /** A field of the content that is absent or of the expected kind. */
  predicate StrField(content: Obj, k: string) { k !in content || content[k].JStr? }
  predicate ObjField(content: Obj, k: string) { k !in content || content[k].JObj? }

  /** The content satisfies the intent schema: command and action strings, the rest optional and well typed. */
  predicate SchemaOk(content: Obj) {
    "command" in content && content["command"].JStr?
    && "action" in content && content["action"].JStr?
    && ObjField(content, "parameters") && ObjField(content, "context")
    && StrField(content, "risk_level")
    && ("requires_confirmation" !in content || content["requires_confirmation"].JBool?)
    && ("raw_text" !in content || content["raw_text"].JStr? || content["raw_text"].JNull?)
  }

  /** The content after `setdefault("raw_text", raw_text)` when the response carries a truthy raw text. */
  function WithRawText(content: Obj, rawText: Json): (c: Obj)
    ensures c.Keys == content.Keys || c.Keys == content.Keys + {"raw_text"}
    ensures "raw_text" in content ==> c == content
  {
    if Truthy(rawText) && "raw_text" !in content then content["raw_text" := rawText] else content
  }

  /** The response is a dict whose "content" is a dict. */
  predicate HasContent(response: Json) {
    response.JObj? && Get(response.fields, "content").JObj?
  }

  /** The content the intent is built from, after the raw text is defaulted in. */
  function ContentOf(response: Json): (c: Obj)
    requires HasContent(response)
    ensures Get(response.fields, "content").fields.Keys <= c.Keys
  {
    WithRawText(Get(response.fields, "content").fields, Get(response.fields, "raw_text"))
  }

  /** `extract` succeeds: there is a content and it fits the intent schema. */
  predicate Extractable(response: Json) {
    HasContent(response) && SchemaOk(ContentOf(response))
  }

  /** The schema's fields of a content, with their defaults. */
  function ParamsIn(content: Obj): Obj {
    if "parameters" in content && content["parameters"].JObj? then content["parameters"].fields else map[]
  }

  function ContextIn(content: Obj): Obj {
    if "context" in content && content["context"].JObj? then content["context"].fields else map[]
  }

  function RiskIn(content: Obj): string {
    if "risk_level" in content && content["risk_level"].JStr? then content["risk_level"].s else "medium"
  }

  function ConfirmIn(content: Obj): bool {
    "requires_confirmation" in content && content["requires_confirmation"].JBool? && content["requires_confirmation"].b
  }

  function RawTextIn(content: Obj): Option<string> {
    if "raw_text" in content && content["raw_text"].JStr? then Some(content["raw_text"].s) else None
  }

  /**
   * `CommandParser.extract`: the response must be a dict whose "content"
   * is a dict satisfying the intent schema; absent fields take the schema's
   * defaults (empty parameters and context, "medium", no confirmation).
   */
  method ExtractIntent(response: Json) returns (r: Result<Intent>)
    ensures r.Err? <==> !Extractable(response)
    ensures r.Ok? ==>
              Extractable(response)
              && var c := ContentOf(response);
              fresh(r.value)
              && r.value.command == c["command"].s && r.value.action == c["action"].s
              && r.value.parameters == ParamsIn(c) && r.value.context == ContextIn(c)
              && r.value.riskLevel == RiskIn(c) && r.value.requiresConfirmation == ConfirmIn(c)
              && r.value.rawText == RawTextIn(c)
  {
    if !response.JObj? {
      return Err("ValueError: raw_response must be a dict");
    }
    var raw := Get(response.fields, "content");
    if !raw.JObj? {
      return Err("ValueError: raw_response['content'] must be a dict");
    }
    var content := WithRawText(raw.fields, Get(response.fields, "raw_text"));
    if !SchemaOk(content) {
      return Err("ValidationError: content does not match the intent schema");
    }
    var intent := new Intent(content["command"].s, content["action"].s, ParamsIn(content), ContextIn(content),
                             RiskIn(content), ConfirmIn(content), RawTextIn(content));
    return Ok(intent);
  }

  /**
   * `CommandParser.parse` with the LLM's response as an input: a blank
   * command is refused before any call; the response is extracted and
   * validated.
   */
  method Parse(rawCommand: string, response: Json) returns (r: Result<Intent>)
    ensures AllSpace(rawCommand) ==> r.Err?
    ensures !AllSpace(rawCommand) ==>
              (r.Err? <==> !Extractable(response)
                           || Refused(ContentOf(response)["action"].s, ParamsIn(ContentOf(response))))
    ensures r.Ok? ==>
              fresh(r.value)
              && !Refused(r.value.action, r.value.parameters)
              && r.value.riskLevel != ""
              && (r.value.action in DestructiveActions ==> r.value.requiresConfirmation)
    ensures r.Ok? ==>
              Extractable(response)
              && var c := ContentOf(response);
              r.value.command == c["command"].s && r.value.action == c["action"].s
              && r.value.parameters == ParamsIn(c) && r.value.context == ContextIn(c)
              && r.value.rawText == RawTextIn(c)
              && r.value.riskLevel == (if RiskIn(c) == "" then "medium" else RiskIn(c))
              && r.value.requiresConfirmation == (ConfirmIn(c) || r.value.action in DestructiveActions)
  {
    if Strip(rawCommand) == "" {
      return Err("ValueError: raw_command must be a non-empty string");
    }
    var extracted := ExtractIntent(response);
    if extracted.Err? {
      return Err(extracted.error);
    }
    var intent := extracted.value;
    var valid := Validate(intent);
    if valid.Err? {
      return Err(valid.error);
    }
    return Ok(intent);
  }
}
