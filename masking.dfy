/**
 * PII masking of reasoning traces before they are logged. The four regular
 * expression substitutions (e-mail, phone, ID, name) are taken as given
 * string-to-string functions; what is modelled is the order they are applied
 * in and how a nested reasoning value is traversed.
 */
module Masking {
  import opened Json

  /** The four substitutions, each replacing every match of its pattern by its marker. */
  datatype Maskers = Maskers(
    email: string -> string,
    phone: string -> string,
    id: string -> string,
    name: string -> string)

  /** `mask_pii`: strings go through the four substitutions in order; any other value is returned unchanged. */
  function MaskPii(m: Maskers, v: Json): (r: Json)
    ensures !v.JStr? ==> r == v
    ensures v.JStr? ==> r.JStr? && r.s == m.name(m.id(m.phone(m.email(v.s))))
  {
    match v
    case JStr(s) =>
      var masked := m.email(s);
      var masked := m.phone(masked);
      var masked := m.id(masked);
      JStr(m.name(masked))
    case _ => v
  }

  /** One element of a list value: strings are masked, objects recursed into, anything else (nested lists too) kept. */
  function MaskItem(m: Maskers, item: Json): (r: Json)
    ensures !item.JStr? && !item.JObj? ==> r == item
    ensures item.JStr? ==> r == MaskPii(m, item)
    ensures item.JObj? ==> r.JObj? && r.fields.Keys == item.fields.Keys
    ensures item.JObj? ==> r == MaskReasoning(m, item)
    decreases item, 1
  {
    if item.JStr? then MaskPii(m, item)
    else if item.JObj? then MaskReasoning(m, item)
    else item
  }

  /** The masked value stored under one key of a reasoning object. */
  function MaskField(m: Maskers, value: Json): (r: Json)
    ensures value.JStr? ==> r == MaskPii(m, value)
    ensures value.JObj? ==> r.JObj? && r.fields.Keys == value.fields.Keys
    ensures value.JObj? ==> r == MaskReasoning(m, value)
    ensures value.JList? ==> r.JList? && |r.items| == |value.items|
                             && forall i :: 0 <= i < |r.items| ==> r.items[i] == MaskItem(m, value.items[i])
    ensures !value.JStr? && !value.JObj? && !value.JList? ==> r == value
    decreases value, 2
  {
    match value
    case JStr(_) => MaskPii(m, value)
    case JObj(_) => MaskReasoning(m, value)
    case JList(items) =>
      JList(seq(|items|, i requires 0 <= i < |items| => MaskItem(m, items[i])))
    case _ => value
  }

  /**
   * `mask_reasoning`: a non-object is returned as it is; an object keeps its
   * keys and each value is masked by kind.
   */
  function MaskReasoning(m: Maskers, reasoning: Json): (r: Json)
    ensures !reasoning.JObj? ==> r == reasoning
    ensures reasoning.JObj? ==> r.JObj? && r.fields.Keys == reasoning.fields.Keys
    ensures reasoning.JObj? ==>
              forall k :: k in reasoning.fields ==> r.fields[k] == MaskField(m, reasoning.fields[k])
    decreases reasoning, 0
  {
    match reasoning
    case JObj(fields) =>
      JObj(map k | k in fields :: MaskField(m, fields[k]))
    case _ => reasoning
  }

  /** The identity substitutions: patterns that never match. */
  function NoMatches(): Maskers {
    Maskers(s => s, s => s, s => s, s => s)
  }

  /** With substitutions that change nothing, masking a reasoning value changes nothing. */
  lemma {:induction false} MaskReasoningIdentity(reasoning: Json)
    ensures MaskReasoning(NoMatches(), reasoning) == reasoning
    decreases reasoning, 0
  {
    if reasoning.JObj? {
      var r := MaskReasoning(NoMatches(), reasoning);
      forall k | k in reasoning.fields
        ensures r.fields[k] == reasoning.fields[k]
      {
        MaskFieldIdentity(reasoning.fields[k]);
      }
      assert r.fields == reasoning.fields;
    }
  }

  lemma {:induction false} MaskFieldIdentity(value: Json)
    ensures MaskField(NoMatches(), value) == value
    decreases value, 1
  {
    match value
    case JObj(_) => MaskReasoningIdentity(value);
    case JList(items) =>
      var r := MaskField(NoMatches(), value);
      forall i | 0 <= i < |items| ensures r.items[i] == items[i] {
        if items[i].JObj? {
          MaskReasoningIdentity(items[i]);
        }
      }
      assert r.items == items;
    case _ =>
  }

  /**
   * Masking preserves the shape of a reasoning object: every key keeps a
   * value of the same kind, and list values keep their length.
   */
  lemma MaskKeepsKinds(m: Maskers, reasoning: Json, k: string)
    requires reasoning.JObj? && k in reasoning.fields
    ensures var v := reasoning.fields[k];
            var w := MaskReasoning(m, reasoning).fields[k];
            v.JStr? == w.JStr? && v.JObj? == w.JObj? && v.JList? == w.JList?
            && (v.JList? ==> |w.items| == |v.items|)
            && (!v.JStr? && !v.JObj? && !v.JList? ==> w == v)
  {
  }

  /** A list nested inside a list value is copied without masking. */
  lemma NestedListsUnmasked(m: Maskers, reasoning: Json, k: string, i: nat)
    requires reasoning.JObj? && k in reasoning.fields
    requires reasoning.fields[k].JList? && i < |reasoning.fields[k].items|
    requires reasoning.fields[k].items[i].JList?
    ensures MaskReasoning(m, reasoning).fields[k].items[i] == reasoning.fields[k].items[i]
  {
  }
}
