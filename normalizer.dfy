/**
 * Payload normalisation for incoming messages: every payload leaves with a
 * lower-cased source, an ISO timestamp, string content, a list of
 * attachments and an integer org id, and keeps every other field it had.
 * Timestamp conversion (clock and calendar) and the text form of floats,
 * lists and dicts are parameters.
 */
module PayloadNormalizer {
  import opened Wrappers
  import opened Text
  import opened Json

  const KnownSources: set<string> := {"telegram", "whatsapp", "gmail", "drive", "sharepoint"}

  const Source := "source"
  const Timestamp := "timestamp"
  const Content := "content"
  const Attachments := "attachments"
  const OrgId := "org_id"
  const Unknown := "unknown"

  /** The five fields the normaliser writes. */
  const CanonicalKeys: set<string> := {Source, Timestamp, Content, Attachments, OrgId}

  /** Python's `str(v)`; floats, lists and dicts are printed by `repr`. */
  function PyStr(v: Json, repr: Json -> string): string {
    match v
    case JStr(s) => s
    case JNull => "None"
    case JBool(b) => if b then "True" else "False"
    case JInt(i) => IntText(i)
    case _ => repr(v)
  }

  /** Python's `int(v)`, or None where it raises. Floats are truncated toward zero. */
  function PyInt(v: Json): Option<int> {
    match v
    case JInt(i) => Some(i)
    case JBool(b) => Some(if b then 1 else 0)
    case JReal(r) => Some(if r >= 0.0 then r.Floor else -((-r).Floor))
    case JStr(s) => ParseInt(s)
    case _ => None
  }

  /** `str(data.get("source", "")).strip().lower()`. */
  function SourceText(data: Obj, repr: Json -> string): string {
    Lower(Strip(PyStr(GetOr(data, Source, JStr("")), repr)))
  }

  /**
   * The source text, with an empty one replaced by "unknown". The source's
   * test against the known sources only decides between `src` and
   * `src or "unknown"`, which differ only on "", not a known source.
   */
  function SourceOf(data: Obj, repr: Json -> string): string {
    var src := SourceText(data, repr);
    if src == [] then Unknown else src
  }

  /** `str(content)`, with a missing or None content read as "". */
  function ContentOf(data: Obj, repr: Json -> string): string {
    var c := GetOr(data, Content, JStr(""));
    PyStr(if c.JNull? then JStr("") else c, repr)
  }

  /** The attachments as a list: missing or None is [], a single value is wrapped. */
  function AttachmentsOf(data: Obj): seq<Json> {
    var a := GetOr(data, Attachments, JList([]));
    if a.JNull? then [] else if a.JList? then a.items else [a]
  }

  /** `int(data.get("org_id", default_org_id))`, falling back to the default where `int` raises. */
  function OrgIdOf(data: Obj, defaultOrgId: int): int {
    PyInt(GetOr(data, OrgId, JInt(defaultOrgId))).GetOr(defaultOrgId)
  }

  /** The payload with the five canonical fields written over it. */
  function Overwrite(payload: Obj, source: string, timestamp: string, content: string, attachments: seq<Json>, orgId: int): Obj {
    payload[Source := JStr(source)][Timestamp := JStr(timestamp)][Content := JStr(content)]
           [Attachments := JList(attachments)][OrgId := JInt(orgId)]
  }

  /** What `normalize_payload` returns. */
  function Normalized(payload: Obj, defaultOrgId: int, toIso: Json -> string, repr: Json -> string): Obj {
    Overwrite(payload, SourceOf(payload, repr), toIso(Get(payload, Timestamp)), ContentOf(payload, repr),
              AttachmentsOf(payload), OrgIdOf(payload, defaultOrgId))
  }

  /** Each step reads a field no earlier step has written, so it reads the payload's own value. */
  lemma TimestampUnwritten(p: Obj, src: string)
    ensures Get(p[Source := JStr(src)], Timestamp) == Get(p, Timestamp)
  {
    KeysDistinct();
  }

  lemma ContentUnwritten(p: Obj, src: string, ts: string, repr: Json -> string)
    ensures ContentOf(p[Source := JStr(src)][Timestamp := JStr(ts)], repr) == ContentOf(p, repr)
  {
    KeysDistinct();
    assert GetOr(p[Source := JStr(src)][Timestamp := JStr(ts)], Content, JStr("")) == GetOr(p, Content, JStr(""));
  }

  lemma AttachmentsUnwritten(p: Obj, src: string, ts: string, c: string)
    ensures AttachmentsOf(p[Source := JStr(src)][Timestamp := JStr(ts)][Content := JStr(c)]) == AttachmentsOf(p)
  {
    KeysDistinct();
    assert GetOr(p[Source := JStr(src)][Timestamp := JStr(ts)][Content := JStr(c)], Attachments, JList([]))
        == GetOr(p, Attachments, JList([]));
  }

  lemma OrgIdUnwritten(p: Obj, src: string, ts: string, c: string, a: seq<Json>, defaultOrgId: int)
    ensures OrgIdOf(p[Source := JStr(src)][Timestamp := JStr(ts)][Content := JStr(c)][Attachments := JList(a)], defaultOrgId)
            == OrgIdOf(p, defaultOrgId)
  {
    KeysDistinct();
    assert GetOr(p[Source := JStr(src)][Timestamp := JStr(ts)][Content := JStr(c)][Attachments := JList(a)], OrgId, JInt(defaultOrgId))
        == GetOr(p, OrgId, JInt(defaultOrgId));
  }

  /** The source step: lower-case and strip, and keep an unknown source unless it is blank. */
  method SetSource(data: Obj, repr: Json -> string) returns (data': Obj)
    ensures data' == data[Source := JStr(SourceOf(data, repr))]
  {
    var src := Lower(Strip(PyStr(GetOr(data, Source, JStr("")), repr)));
    if src !in KnownSources {
      src := if src != [] then src else Unknown;
    } else {
      KnownSourceNamed(src);
    }
    data' := data[Source := JStr(src)];
  }

  /** Every known source has a non-empty name, so keeping it agrees with the blank check. */
  lemma KnownSourceNamed(src: string)
    requires src in KnownSources
    ensures src != []
  {
  }

  /** The content step: None becomes "", anything else its text. */
  method SetContent(data: Obj, repr: Json -> string) returns (data': Obj)
    ensures data' == data[Content := JStr(ContentOf(data, repr))]
  {
    var content := GetOr(data, Content, JStr(""));
    if content == JNull {
      content := JStr("");
    }
    data' := data[Content := JStr(PyStr(content, repr))];
  }

  /** The attachments step: None becomes [], a value that is not a list is wrapped in one. */
  method SetAttachments(data: Obj) returns (data': Obj)
    ensures data' == data[Attachments := JList(AttachmentsOf(data))]
  {
    var atts := GetOr(data, Attachments, JList([]));
    if atts == JNull {
      atts := JList([]);
    }
    if !atts.JList? {
      atts := JList([atts]);
    }
    data' := data[Attachments := atts];
  }

  /** The org id step: `int(...)`, or the default where it raises. */
  method SetOrgId(data: Obj, defaultOrgId: int) returns (data': Obj)
    ensures data' == data[OrgId := JInt(OrgIdOf(data, defaultOrgId))]
  {
    var orgId := defaultOrgId;
    var parsed := PyInt(GetOr(data, OrgId, JInt(defaultOrgId)));
    if parsed.Some? {
      orgId := parsed.value;
    }
    data' := data[OrgId := JInt(orgId)];
  }

  /** `normalize_payload`: a copy of the payload, updated field by field. */
  method NormalizePayload(payload: Obj, defaultOrgId: int, toIso: Json -> string, repr: Json -> string)
      returns (data: Obj)
    ensures data == Normalized(payload, defaultOrgId, toIso, repr)
  {
    data := if payload != map[] then payload else map[];
    var src := SourceOf(payload, repr);
    var ts := toIso(Get(payload, Timestamp));
    var c := ContentOf(payload, repr);
    var a := AttachmentsOf(payload);
    data := SetSource(data, repr);
    TimestampUnwritten(payload, src);
    data := data[Timestamp := JStr(toIso(Get(data, Timestamp)))];
    ContentUnwritten(payload, src, ts, repr);
    data := SetContent(data, repr);
    AttachmentsUnwritten(payload, src, ts, c);
    data := SetAttachments(data);
    OrgIdUnwritten(payload, src, ts, c, a, defaultOrgId);
    data := SetOrgId(data, defaultOrgId);
  }

  // ---------------------------------------------------------------------------
  // What the normalised payload holds
  // ---------------------------------------------------------------------------

  /** The five field names are different from each other. */
  lemma KeysDistinct()
    ensures Source != Timestamp && Source != Content && Source != Attachments && Source != OrgId
    ensures Timestamp != Content && Timestamp != Attachments && Timestamp != OrgId
    ensures Content != Attachments && Content != OrgId && Attachments != OrgId
  {
    assert Source[0] != OrgId[0];
  }

  /** Writing the five fields: they hold what was written, and every other field is as it was. */
  lemma OverwriteShape(payload: Obj, source: string, timestamp: string, content: string, attachments: seq<Json>, orgId: int)
    ensures var d := Overwrite(payload, source, timestamp, content, attachments, orgId);
            d.Keys == payload.Keys + CanonicalKeys
            && d[Source] == JStr(source) && d[Timestamp] == JStr(timestamp) && d[Content] == JStr(content)
            && d[Attachments] == JList(attachments) && d[OrgId] == JInt(orgId)
            && forall k :: k in payload && k !in CanonicalKeys ==> d[k] == payload[k]
  {
    KeysDistinct();
  }

  /** The canonical shape: the five fields with their types, and every other field as it was. */
  lemma NormalizedShape(payload: Obj, defaultOrgId: int, toIso: Json -> string, repr: Json -> string)
    ensures var d := Normalized(payload, defaultOrgId, toIso, repr);
            d.Keys == payload.Keys + CanonicalKeys
            && d[Source].JStr? && d[Timestamp].JStr? && d[Content].JStr? && d[Attachments].JList? && d[OrgId].JInt?
            && forall k :: k in payload && k !in CanonicalKeys ==> d[k] == payload[k]
  {
    OverwriteShape(payload, SourceOf(payload, repr), toIso(Get(payload, Timestamp)), ContentOf(payload, repr),
                   AttachmentsOf(payload), OrgIdOf(payload, defaultOrgId));
  }

  /** Characters that `Lower` changes are letters, never whitespace. */
  lemma LowerKeepsSpace(c: char)
    ensures IsSpace(LowerChar(c)) <==> IsSpace(c)
  {
  }

  /** Lower-casing a stripped string leaves it stripped. */
  lemma LowerKeepsStripped(t: string)
    requires Strip(t) == t
    ensures Strip(Lower(t)) == Lower(t)
  {
    var l := Lower(t);
    if t != [] {
      assert !IsSpace(t[0]) && !IsSpace(t[|t| - 1]);
      LowerKeepsSpace(t[0]);
      LowerKeepsSpace(t[|t| - 1]);
      assert !IsSpace(l[0]) && !IsSpace(l[|l| - 1]);
    }
    TrimLeftNoLead(l);
    TrimRightNoTrail(l);
    assert Strip(l) == TrimRight(TrimLeft(l));
  }

  lemma UnknownClean()
    ensures Unknown != [] && Lower(Unknown) == Unknown && Strip(Unknown) == Unknown
  {
    var u: string := Unknown;
    assert Lower(u) == u;
    TrimLeftNoLead(u);
    TrimRightNoTrail(u);
  }

  /** A non-blank source text is kept as the source, whether or not it is a known one; a blank one becomes "unknown". */
  lemma SourceKept(data: Obj, repr: Json -> string)
    ensures SourceText(data, repr) != [] ==> SourceOf(data, repr) == SourceText(data, repr)
    ensures SourceText(data, repr) == [] ==> SourceOf(data, repr) == Unknown
  {
  }

  /** The source text is lower-case and stripped. */
  lemma SourceTextClean(data: Obj, repr: Json -> string)
    ensures Lower(SourceText(data, repr)) == SourceText(data, repr)
    ensures Strip(SourceText(data, repr)) == SourceText(data, repr)
  {
    var raw := PyStr(GetOr(data, Source, JStr("")), repr);
    var s := Strip(raw);
    LowerIdempotent(s);
    StripIdempotent(raw);
    LowerKeepsStripped(s);
  }

  /** The source is never empty, and is lower-case and stripped. */
  lemma SourceMeaning(data: Obj, repr: Json -> string)
    ensures var r := SourceOf(data, repr);
            r != [] && Lower(r) == r && Strip(r) == r
  {
    SourceKept(data, repr);
    if SourceText(data, repr) == [] {
      UnknownClean();
    } else {
      SourceTextClean(data, repr);
    }
  }

  lemma NoneText()
    ensures Lower(Strip("None")) == "none"
  {
    NoneStripped();
    NoneLowered();
  }

  lemma NoneStripped()
    ensures Strip("None") == "None"
  {
    var n: string := "None";
    assert n[0] == 'N' && n[3] == 'e';
    StripFixed(n);
  }

  lemma NoneLowered()
    ensures Lower("None") == "none"
  {
    var l := Lower("None");
    assert l[0] == 'n' && l[1] == 'o' && l[2] == 'n' && l[3] == 'e';
  }

  /** A source of None is printed as "None" first, so it becomes "none", not "unknown". */
  lemma NoneSource(data: Obj, repr: Json -> string)
    requires Source in data && data[Source] == JNull
    ensures SourceOf(data, repr) == "none"
  {
    NoneText();
    assert SourceText(data, repr) == Lower(Strip("None"));
  }

  /** Missing or None content is "", string content is kept as it is. */
  lemma ContentMeaning(data: Obj, repr: Json -> string)
    ensures Content !in data || data[Content] == JNull ==> ContentOf(data, repr) == []
    ensures Content in data && data[Content].JStr? ==> ContentOf(data, repr) == data[Content].s
  {
  }

  /** Missing or None attachments give [], a list is kept, anything else becomes a one-element list. */
  lemma AttachmentsMeaning(data: Obj)
    ensures Attachments !in data || data[Attachments] == JNull ==> AttachmentsOf(data) == []
    ensures Attachments in data && data[Attachments].JList? ==> AttachmentsOf(data) == data[Attachments].items
    ensures Attachments in data && !data[Attachments].JList? && !data[Attachments].JNull? ==>
              AttachmentsOf(data) == [data[Attachments]]
  {
  }

  /**
   * The org id: the default when the field is missing, None, a container or a
   * string that is not an integer; an integer or numeric string otherwise.
   */
  lemma OrgIdMeaning(data: Obj, defaultOrgId: int)
    ensures OrgId !in data ==> OrgIdOf(data, defaultOrgId) == defaultOrgId
    ensures OrgId in data && (data[OrgId].JNull? || data[OrgId].JList? || data[OrgId].JObj?) ==>
              OrgIdOf(data, defaultOrgId) == defaultOrgId
    ensures OrgId in data && data[OrgId].JInt? ==> OrgIdOf(data, defaultOrgId) == data[OrgId].i
    ensures OrgId in data && data[OrgId].JStr? ==>
              OrgIdOf(data, defaultOrgId) == ParseInt(data[OrgId].s).GetOr(defaultOrgId)
  {
  }

  /** A float org id is truncated toward zero: same sign, less than one away. */
  lemma OrgIdTruncates(data: Obj, defaultOrgId: int)
    requires OrgId in data && data[OrgId].JReal?
    ensures var r := data[OrgId].r; var n := OrgIdOf(data, defaultOrgId);
            (r >= 0.0 ==> 0 <= n && n as real <= r < n as real + 1.0)
            && (r < 0.0 ==> n <= 0 && n as real - 1.0 < r <= n as real)
  {
  }

  /** Writing back the values a payload already holds changes nothing. */
  lemma OverwriteSame(d: Obj, source: string, timestamp: string, content: string, attachments: seq<Json>, orgId: int)
    requires Source in d && d[Source] == JStr(source) && Timestamp in d && d[Timestamp] == JStr(timestamp)
    requires Content in d && d[Content] == JStr(content) && Attachments in d && d[Attachments] == JList(attachments)
    requires OrgId in d && d[OrgId] == JInt(orgId)
    ensures Overwrite(d, source, timestamp, content, attachments, orgId) == d
  {
    var e := Overwrite(d, source, timestamp, content, attachments, orgId);
    OverwriteShape(d, source, timestamp, content, attachments, orgId);
    assert e.Keys == d.Keys;
    forall k | k in d ensures e[k] == d[k] {
      if k !in CanonicalKeys {
      }
    }
  }

  /** Each field function reads back a value of the canonical form. */
  lemma SourceStable(d: Obj, r: string, repr: Json -> string)
    requires Source in d && d[Source] == JStr(r) && r != [] && Lower(r) == r && Strip(r) == r
    ensures SourceOf(d, repr) == r
  {
    var raw := PyStr(GetOr(d, Source, JStr("")), repr);
    assert raw == r;
    assert Strip(raw) == r;
    assert SourceText(d, repr) == Lower(r);
  }

  lemma ContentStable(d: Obj, c: string, repr: Json -> string)
    requires Content in d && d[Content] == JStr(c)
    ensures ContentOf(d, repr) == c
  {
  }

  lemma AttachmentsStable(d: Obj, a: seq<Json>)
    requires Attachments in d && d[Attachments] == JList(a)
    ensures AttachmentsOf(d) == a
  {
  }

  lemma OrgIdStable(d: Obj, o: int, defaultOrgId: int)
    requires OrgId in d && d[OrgId] == JInt(o)
    ensures OrgIdOf(d, defaultOrgId) == o
  {
  }

  /** Each field function reads back the value the normaliser wrote. */
  lemma FieldsStable(payload: Obj, defaultOrgId: int, toIso: Json -> string, repr: Json -> string)
    ensures var d := Normalized(payload, defaultOrgId, toIso, repr);
            SourceOf(d, repr) == SourceOf(payload, repr) && ContentOf(d, repr) == ContentOf(payload, repr)
            && AttachmentsOf(d) == AttachmentsOf(payload) && OrgIdOf(d, defaultOrgId) == OrgIdOf(payload, defaultOrgId)
            && Get(d, Timestamp) == JStr(toIso(Get(payload, Timestamp)))
  {
    var r := SourceOf(payload, repr);
    var c := ContentOf(payload, repr);
    var a := AttachmentsOf(payload);
    var o := OrgIdOf(payload, defaultOrgId);
    var d := Normalized(payload, defaultOrgId, toIso, repr);
    OverwriteShape(payload, r, toIso(Get(payload, Timestamp)), c, a, o);
    SourceMeaning(payload, repr);
    SourceStable(d, r, repr);
    ContentStable(d, c, repr);
    AttachmentsStable(d, a);
    OrgIdStable(d, o, defaultOrgId);
  }

  /** Normalising a normalised payload changes nothing, when the timestamp conversion keeps its own output. */
  lemma NormalizeIdempotent(payload: Obj, defaultOrgId: int, toIso: Json -> string, repr: Json -> string)
    requires forall v :: toIso(JStr(toIso(v))) == toIso(v)
    ensures var d := Normalized(payload, defaultOrgId, toIso, repr);
            Normalized(d, defaultOrgId, toIso, repr) == d
  {
    var d := Normalized(payload, defaultOrgId, toIso, repr);
    FieldsStable(payload, defaultOrgId, toIso, repr);
    var ts := toIso(Get(payload, Timestamp));
    assert toIso(Get(d, Timestamp)) == ts;
    OverwriteShape(payload, SourceOf(payload, repr), ts, ContentOf(payload, repr),
                   AttachmentsOf(payload), OrgIdOf(payload, defaultOrgId));
    OverwriteSame(d, SourceOf(payload, repr), ts, ContentOf(payload, repr),
                  AttachmentsOf(payload), OrgIdOf(payload, defaultOrgId));
  }
}
