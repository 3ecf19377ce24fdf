/**
 * The semi-strict post-processing of the language model's parse: a catalogue
 * of known actions, their parameter names and default parameter values built
 * from the domain examples, and the projection of a raw parse onto it.
 */
module AiParser {
  import opened Wrappers
  import opened Text
  import opened Json
  import opened DomainRegistry

  // ---------------------------------------------------------------------------
  // Reading the examples configuration
  // ---------------------------------------------------------------------------

  /** `registry.get_examples(domain) or {}`, read as a mapping. */
  function Cfg(reg: Registry, d: string): Obj {
    var c := GetExamples(reg, d);
    if c.JObj? then c.fields else map[]
  }

  /** `cfg.get("examples", []) or []`. */
  function Examples(reg: Registry, d: string): seq<Json> {
    var e := Get(Cfg(reg, d), "examples");
    if e.JList? then e.items else []
  }

  /** `ex.get("expected") or {}`. */
  function Expected(ex: Json): Obj {
    if ex.JObj? then
      var e := Get(ex.fields, "expected");
      if e.JObj? then e.fields else map[]
    else map[]
  }

  function ActionOf(ex: Json): Json {
    Get(Expected(ex), "action")
  }

  /** `expected.get("parameters") or {}`. */
  function ExParams(ex: Json): Obj {
    var p := Get(Expected(ex), "parameters");
    if p.JObj? then p.fields else map[]
  }

  /** The example's expected action is the (non-empty) name `a`. */
  predicate NamesAction(ex: Json, a: string) {
    ActionOf(ex) == JStr(a) && a != ""
  }

  predicate BlockReady(v: Json) {
    v.JObj? || !Truthy(v)
  }

  /** An example the catalogue builder reads without raising: a mapping whose expected block, action and parameters have the types the code calls methods on. */
  predicate ExampleWellTyped(ex: Json) {
    ex.JObj?
    && BlockReady(Get(ex.fields, "expected"))
    && (Truthy(ActionOf(ex)) ==> ActionOf(ex).JStr? && BlockReady(Get(Expected(ex), "parameters")))
  }

  predicate DomainReady(reg: Registry, d: string) {
    BlockReady(GetExamples(reg, d))
    && (var e := Get(Cfg(reg, d), "examples"); e.JList? || !Truthy(e))
    && forall j :: 0 <= j < |Examples(reg, d)| ==> ExampleWellTyped(Examples(reg, d)[j])
  }

  /** A configuration the catalogue builder reads without raising. */
  predicate ConfigReady(reg: Registry) {
    DistinctKeys(reg.data) && forall d :: d in Domains(reg) ==> DomainReady(reg, d)
  }

  // ---------------------------------------------------------------------------
  // What the catalogue holds, as functions of the examples
  // ---------------------------------------------------------------------------

  /** The action names the examples declare. */
  function ActionsIn(exs: seq<Json>): set<string>
    decreases |exs|
  {
    if |exs| == 0 then {}
    else
      var a := ActionOf(exs[|exs| - 1]);
      ActionsIn(exs[..|exs| - 1]) + (if a.JStr? && a.s != "" then {a.s} else {})
  }

  /** The union of the parameter names of the examples for action `a`. */
  function ParamKeys(exs: seq<Json>, a: string): set<string>
    decreases |exs|
  {
    if |exs| == 0 then {}
    else
      var last := exs[|exs| - 1];
      ParamKeys(exs[..|exs| - 1], a) + (if NamesAction(last, a) then ExParams(last).Keys else {})
  }

  /** The parameters of the first example for action `a`. */
  function FirstParams(exs: seq<Json>, a: string): Option<Obj>
    decreases |exs|
  {
    if |exs| == 0 then None
    else if FirstParams(exs[..|exs| - 1], a).Some? then FirstParams(exs[..|exs| - 1], a)
    else if NamesAction(exs[|exs| - 1], a) then Some(ExParams(exs[|exs| - 1]))
    else None
  }

  lemma {:induction false} ActionsInIff(exs: seq<Json>, a: string)
    ensures a in ActionsIn(exs) <==> exists j :: 0 <= j < |exs| && NamesAction(exs[j], a)
    decreases |exs|
  {
    if |exs| > 0 {
      var pre := exs[..|exs| - 1];
      ActionsInIff(pre, a);
      if exists j :: 0 <= j < |pre| && NamesAction(pre[j], a) {
        var j :| 0 <= j < |pre| && NamesAction(pre[j], a);
        assert NamesAction(exs[j], a);
      }
      if exists j :: 0 <= j < |exs| && NamesAction(exs[j], a) {
        var j :| 0 <= j < |exs| && NamesAction(exs[j], a);
        if j < |pre| {
          assert NamesAction(pre[j], a);
        }
      }
    }
  }

  lemma {:induction false} ParamKeysIff(exs: seq<Json>, a: string, k: string)
    ensures k in ParamKeys(exs, a) <==>
            exists j :: 0 <= j < |exs| && NamesAction(exs[j], a) && k in ExParams(exs[j])
    decreases |exs|
  {
    if |exs| > 0 {
      var pre := exs[..|exs| - 1];
      ParamKeysIff(pre, a, k);
      if exists j :: 0 <= j < |pre| && NamesAction(pre[j], a) && k in ExParams(pre[j]) {
        var j :| 0 <= j < |pre| && NamesAction(pre[j], a) && k in ExParams(pre[j]);
        assert exs[j] == pre[j];
      }
      if exists j :: 0 <= j < |exs| && NamesAction(exs[j], a) && k in ExParams(exs[j]) {
        var j :| 0 <= j < |exs| && NamesAction(exs[j], a) && k in ExParams(exs[j]);
        if j < |pre| {
          assert exs[j] == pre[j];
        }
      }
    }
  }

  /** The default parameters are those of the first example for the action, and exist exactly for declared actions. */
  lemma {:induction false} FirstParamsIsFirst(exs: seq<Json>, a: string)
    ensures FirstParams(exs, a).Some? <==> a in ActionsIn(exs)
    ensures FirstParams(exs, a).Some? ==>
              exists j :: 0 <= j < |exs| && NamesAction(exs[j], a)
                          && FirstParams(exs, a) == Some(ExParams(exs[j]))
                          && forall h :: 0 <= h < j ==> !NamesAction(exs[h], a)
    decreases |exs|
  {
    if |exs| > 0 {
      var pre := exs[..|exs| - 1];
      FirstParamsIsFirst(pre, a);
      ActionsInIff(pre, a);
      ActionsInIff(exs, a);
      if FirstParams(pre, a).Some? {
        var j :| 0 <= j < |pre| && NamesAction(pre[j], a)
                 && FirstParams(pre, a) == Some(ExParams(pre[j]))
                 && forall h :: 0 <= h < j ==> !NamesAction(pre[h], a);
        assert exs[j] == pre[j];
        assert forall h :: 0 <= h < j ==> exs[h] == pre[h];
      } else if NamesAction(exs[|exs| - 1], a) {
        assert forall h :: 0 <= h < |pre| ==> exs[h] == pre[h];
      }
    }
  }

  /** The allowed actions: a domain is listed exactly when its examples declare at least one action. */
  ghost predicate ActionsCatalog(reg: Registry, doms: seq<string>, aa: map<string, set<string>>) {
    (forall d :: d in aa <==> d in doms && ActionsIn(Examples(reg, d)) != {})
    && forall d :: d in aa ==> aa[d] == ActionsIn(Examples(reg, d))
  }

  /** The allowed parameter names: one entry per (domain, declared action), the union of the examples' keys. */
  ghost predicate ParamsCatalog(reg: Registry, doms: seq<string>, ap: map<(string, string), set<string>>) {
    (forall k :: k in ap <==> k.0 in doms && k.1 in ActionsIn(Examples(reg, k.0)))
    && forall k :: k in ap ==> ap[k] == ParamKeys(Examples(reg, k.0), k.1)
  }

  /** The default parameters: one entry per (domain, declared action), from its first example. */
  ghost predicate DefaultsCatalog(reg: Registry, doms: seq<string>, dp: map<(string, string), Obj>) {
    (forall k :: k in dp <==> k.0 in doms && k.1 in ActionsIn(Examples(reg, k.0)))
    && forall k :: k in dp ==> Some(dp[k]) == FirstParams(Examples(reg, k.0), k.1)
  }

  ghost predicate IsCatalog(reg: Registry, aa: map<string, set<string>>,
                      ap: map<(string, string), set<string>>, dp: map<(string, string), Obj>) {
    ActionsCatalog(reg, Domains(reg), aa) && ParamsCatalog(reg, Domains(reg), ap)
    && DefaultsCatalog(reg, Domains(reg), dp)
  }

  /** The catalogue while domain `d` is being read: the finished domains `doms` and the prefix `pre` of `d`'s examples. */
  ghost predicate ParamsPartial(reg: Registry, doms: seq<string>, d: string, pre: seq<Json>,
                          ap: map<(string, string), set<string>>) {
    (forall k :: k in ap <==>
       (k.0 in doms && k.1 in ActionsIn(Examples(reg, k.0))) || (k.0 == d && k.1 in ActionsIn(pre)))
    && forall k :: k in ap ==>
         ap[k] == (if k.0 == d then ParamKeys(pre, k.1) else ParamKeys(Examples(reg, k.0), k.1))
  }

  ghost predicate DefaultsPartial(reg: Registry, doms: seq<string>, d: string, pre: seq<Json>,
                            dp: map<(string, string), Obj>) {
    (forall k :: k in dp <==>
       (k.0 in doms && k.1 in ActionsIn(Examples(reg, k.0))) || (k.0 == d && k.1 in ActionsIn(pre)))
    && forall k :: k in dp ==>
         Some(dp[k]) == (if k.0 == d then FirstParams(pre, k.1) else FirstParams(Examples(reg, k.0), k.1))
  }

  /** `allowed_params[key].update(keys)`, creating the entry first when it is missing. */
  function AddParamKeys(ap: map<(string, string), set<string>>, key: (string, string), keys: set<string>)
    : map<(string, string), set<string>>
  {
    var current := if key in ap then ap[key] else {};
    ap[key := current + keys]
  }

  /** `default_params[key] = dict(params)` unless the entry exists: the first example wins. */
  function AddDefault(dp: map<(string, string), Obj>, key: (string, string), params: Obj): map<(string, string), Obj> {
    if key in dp then dp else dp[key := params]
  }

  /** The parameter names after `_build_action_catalog` has read the examples `exs` of domain `d`, starting from `ap`. */
  function ScanParams(d: string, exs: seq<Json>, ap: map<(string, string), set<string>>): map<(string, string), set<string>>
    decreases |exs|
  {
    if |exs| == 0 then ap
    else
      var prev := ScanParams(d, exs[..|exs| - 1], ap);
      var a := ActionOf(exs[|exs| - 1]);
      if a.JStr? && a.s != "" then AddParamKeys(prev, (d, a.s), ExParams(exs[|exs| - 1]).Keys) else prev
  }

  /** The default parameters after reading the examples `exs` of domain `d`, starting from `dp`. */
  function ScanDefaults(d: string, exs: seq<Json>, dp: map<(string, string), Obj>): map<(string, string), Obj>
    decreases |exs|
  {
    if |exs| == 0 then dp
    else
      var prev := ScanDefaults(d, exs[..|exs| - 1], dp);
      var a := ActionOf(exs[|exs| - 1]);
      if a.JStr? && a.s != "" then AddDefault(prev, (d, a.s), ExParams(exs[|exs| - 1])) else prev
  }

  /** The allowed actions after reading the domains `doms`. */
  function BuiltActions(reg: Registry, doms: seq<string>): map<string, set<string>>
    decreases |doms|
  {
    if |doms| == 0 then map[]
    else
      var prev := BuiltActions(reg, doms[..|doms| - 1]);
      var d := doms[|doms| - 1];
      var acts := ActionsIn(Examples(reg, d));
      if acts != {} then prev[d := acts] else prev
  }

  function BuiltParams(reg: Registry, doms: seq<string>): map<(string, string), set<string>>
    decreases |doms|
  {
    if |doms| == 0 then map[]
    else ScanParams(doms[|doms| - 1], Examples(reg, doms[|doms| - 1]), BuiltParams(reg, doms[..|doms| - 1]))
  }

  function BuiltDefaults(reg: Registry, doms: seq<string>): map<(string, string), Obj>
    decreases |doms|
  {
    if |doms| == 0 then map[]
    else ScanDefaults(doms[|doms| - 1], Examples(reg, doms[|doms| - 1]), BuiltDefaults(reg, doms[..|doms| - 1]))
  }

  lemma ScanStep(d: string, exs: seq<Json>, j: nat,
                 ap: map<(string, string), set<string>>, dp: map<(string, string), Obj>)
    requires j < |exs|
    ensures ActionOf(exs[j]).JStr? && ActionOf(exs[j]).s != "" ==>
              ScanParams(d, exs[..j + 1], ap) == AddParamKeys(ScanParams(d, exs[..j], ap), (d, ActionOf(exs[j]).s), ExParams(exs[j]).Keys)
              && ScanDefaults(d, exs[..j + 1], dp) == AddDefault(ScanDefaults(d, exs[..j], dp), (d, ActionOf(exs[j]).s), ExParams(exs[j]))
    ensures !(ActionOf(exs[j]).JStr? && ActionOf(exs[j]).s != "") ==>
              ScanParams(d, exs[..j + 1], ap) == ScanParams(d, exs[..j], ap)
              && ScanDefaults(d, exs[..j + 1], dp) == ScanDefaults(d, exs[..j], dp)
  {
    assert exs[..j + 1][..j] == exs[..j];
  }

  lemma ActionsStep(exs: seq<Json>, j: nat)
    requires j < |exs|
    ensures ActionsIn(exs[..j + 1]) ==
            ActionsIn(exs[..j]) + (if ActionOf(exs[j]).JStr? && ActionOf(exs[j]).s != "" then {ActionOf(exs[j]).s} else {})
  {
    assert exs[..j + 1][..j] == exs[..j];
  }

  lemma {:induction false} UndeclaredHasNoKeys(exs: seq<Json>, a: string)
    requires a !in ActionsIn(exs)
    ensures ParamKeys(exs, a) == {}
    decreases |exs|
  {
    if |exs| > 0 {
      UndeclaredHasNoKeys(exs[..|exs| - 1], a);
    }
  }

  lemma ParamKeysStep(exs: seq<Json>, j: nat, b: string)
    requires j < |exs|
    ensures ParamKeys(exs[..j + 1], b) ==
            ParamKeys(exs[..j], b) + (if NamesAction(exs[j], b) then ExParams(exs[j]).Keys else {})
  {
    assert exs[..j + 1][..j] == exs[..j];
  }

  lemma ParamsStep(reg: Registry, doms: seq<string>, d: string, exs: seq<Json>, j: nat,
                   ap: map<(string, string), set<string>>)
    requires j < |exs| && d !in doms
    requires ParamsPartial(reg, doms, d, exs[..j], ap)
    ensures ActionOf(exs[j]).JStr? && ActionOf(exs[j]).s != "" ==>
              ParamsPartial(reg, doms, d, exs[..j + 1], AddParamKeys(ap, (d, ActionOf(exs[j]).s), ExParams(exs[j]).Keys))
    ensures !(ActionOf(exs[j]).JStr? && ActionOf(exs[j]).s != "") ==>
              ParamsPartial(reg, doms, d, exs[..j + 1], ap)
  {
    ActionsStep(exs, j);
    if ActionOf(exs[j]).JStr? && ActionOf(exs[j]).s != "" && ActionOf(exs[j]).s !in ActionsIn(exs[..j]) {
      UndeclaredHasNoKeys(exs[..j], ActionOf(exs[j]).s);
    }
    forall b ensures ParamKeys(exs[..j + 1], b) ==
                     ParamKeys(exs[..j], b) + (if NamesAction(exs[j], b) then ExParams(exs[j]).Keys else {}) {
      ParamKeysStep(exs, j, b);
    }
  }

  lemma DefaultsStep(reg: Registry, doms: seq<string>, d: string, exs: seq<Json>, j: nat,
                     dp: map<(string, string), Obj>)
    requires j < |exs| && d !in doms
    requires DefaultsPartial(reg, doms, d, exs[..j], dp)
    ensures ActionOf(exs[j]).JStr? && ActionOf(exs[j]).s != "" ==>
              DefaultsPartial(reg, doms, d, exs[..j + 1], AddDefault(dp, (d, ActionOf(exs[j]).s), ExParams(exs[j])))
    ensures !(ActionOf(exs[j]).JStr? && ActionOf(exs[j]).s != "") ==>
              DefaultsPartial(reg, doms, d, exs[..j + 1], dp)
  {
    assert exs[..j + 1][..j] == exs[..j];
    ActionsStep(exs, j);
    forall b | b in ActionsIn(exs[..j])
      ensures FirstParams(exs[..j], b).Some?
    {
      FirstParamsIsFirst(exs[..j], b);
    }
    forall b | b !in ActionsIn(exs[..j])
      ensures FirstParams(exs[..j], b).None?
    {
      FirstParamsIsFirst(exs[..j], b);
    }
  }

  /** Before the first example of domain `d`. */
  lemma CatalogStart(reg: Registry, doms: seq<string>, d: string,
                     ap: map<(string, string), set<string>>, dp: map<(string, string), Obj>)
    requires d !in doms
    requires ParamsCatalog(reg, doms, ap) && DefaultsCatalog(reg, doms, dp)
    ensures ParamsPartial(reg, doms, d, [], ap) && DefaultsPartial(reg, doms, d, [], dp)
  {
  }

  /** After the last example of domain `d`. */
  lemma ActionsFinish(reg: Registry, doms: seq<string>, d: string, aa: map<string, set<string>>)
    requires d !in doms
    requires ActionsCatalog(reg, doms, aa)
    ensures var acts := ActionsIn(Examples(reg, d));
            ActionsCatalog(reg, doms + [d], if acts != {} then aa[d := acts] else aa)
  {
  }

  lemma ParamsFinish(reg: Registry, doms: seq<string>, d: string, ap: map<(string, string), set<string>>)
    requires ParamsPartial(reg, doms, d, Examples(reg, d), ap)
    ensures ParamsCatalog(reg, doms + [d], ap)
  {
  }

  lemma DefaultsFinish(reg: Registry, doms: seq<string>, d: string, dp: map<(string, string), Obj>)
    requires DefaultsPartial(reg, doms, d, Examples(reg, d), dp)
    ensures DefaultsCatalog(reg, doms + [d], dp)
  {
  }

  lemma {:induction false} ScanPartial(reg: Registry, doms: seq<string>, d: string, exs: seq<Json>, j: nat,
                                      ap: map<(string, string), set<string>>, dp: map<(string, string), Obj>)
    requires j <= |exs| && d !in doms
    requires ParamsCatalog(reg, doms, ap) && DefaultsCatalog(reg, doms, dp)
    ensures ParamsPartial(reg, doms, d, exs[..j], ScanParams(d, exs[..j], ap))
    ensures DefaultsPartial(reg, doms, d, exs[..j], ScanDefaults(d, exs[..j], dp))
    decreases j
  {
    if j == 0 {
      CatalogStart(reg, doms, d, ap, dp);
      assert exs[..0] == [];
    } else {
      ScanPartial(reg, doms, d, exs, j - 1, ap, dp);
      ParamsStep(reg, doms, d, exs, j - 1, ScanParams(d, exs[..j - 1], ap));
      DefaultsStep(reg, doms, d, exs, j - 1, ScanDefaults(d, exs[..j - 1], dp));
      assert exs[..j][..j - 1] == exs[..j - 1];
    }
  }

  /** What the catalogue builder produces is the catalogue the examples describe. */
  lemma {:induction false} BuiltIsCatalog(reg: Registry, doms: seq<string>)
    requires forall h, h' :: 0 <= h < h' < |doms| ==> doms[h] != doms[h']
    ensures ActionsCatalog(reg, doms, BuiltActions(reg, doms))
    ensures ParamsCatalog(reg, doms, BuiltParams(reg, doms))
    ensures DefaultsCatalog(reg, doms, BuiltDefaults(reg, doms))
    decreases |doms|
  {
    if |doms| > 0 {
      var pre := doms[..|doms| - 1];
      var d := doms[|doms| - 1];
      BuiltIsCatalog(reg, pre);
      assert d !in pre;
      var exs := Examples(reg, d);
      ScanPartial(reg, pre, d, exs, |exs|, BuiltParams(reg, pre), BuiltDefaults(reg, pre));
      assert exs[..|exs|] == exs;
      ActionsFinish(reg, pre, d, BuiltActions(reg, pre));
      ParamsFinish(reg, pre, d, BuiltParams(reg, doms));
      DefaultsFinish(reg, pre, d, BuiltDefaults(reg, doms));
      assert pre + [d] == doms;
    }
  }

  lemma CatalogMeaning(reg: Registry)
    requires DistinctKeys(reg.data)
    ensures IsCatalog(reg, BuiltActions(reg, Domains(reg)), BuiltParams(reg, Domains(reg)), BuiltDefaults(reg, Domains(reg)))
  {
    BuiltIsCatalog(reg, Domains(reg));
  }

  // ---------------------------------------------------------------------------
  // Comparing parameter values against the defaults
  // ---------------------------------------------------------------------------

  /** `.replace("_", "").replace(" ", "")`. */
  function Squeeze(s: string): (r: string)
    ensures |r| <= |s|
    ensures forall i :: 0 <= i < |r| ==> r[i] != '_' && r[i] != ' ' && r[i] in s
    ensures forall c :: c != '_' && c != ' ' ==> multiset(r)[c] == multiset(s)[c]
    decreases |s|
  {
    if |s| == 0 then []
    else
      assert s == [s[0]] + s[1..];
      var head := if s[0] == '_' || s[0] == ' ' then [] else [s[0]];
      var tail := Squeeze(s[1..]);
      assert multiset(s) == multiset([s[0]]) + multiset(s[1..]);
      assert multiset(head + tail) == multiset(head) + multiset(tail);
      head + tail
  }

  /** Squeezing works character by character, so every kept character stays in its place in the order. */
  lemma {:induction false} SqueezeAppend(a: string, b: string)
    ensures Squeeze(a + b) == Squeeze(a) + Squeeze(b)
    decreases |a|
  {
    if a == [] {
      assert a + b == b;
    } else {
      var head := if a[0] == '_' || a[0] == ' ' then [] else [a[0]];
      var ab := a + b;
      assert ab[0] == a[0] && ab[1..] == a[1..] + b;
      SqueezeAppend(a[1..], b);
      assert Squeeze(ab) == head + (Squeeze(a[1..]) + Squeeze(b));
    }
  }

  /** A string `_norm_value_for_compare` leaves as it is. */
  predicate Compact(s: string) {
    (s == [] || (!IsSpace(s[0]) && !IsSpace(s[|s| - 1])))
    && forall i :: 0 <= i < |s| ==> s[i] != '_' && s[i] != ' ' && !('A' <= s[i] <= 'Z')
  }

  /** `_norm_value_for_compare`: strings are stripped, lowercased and lose every "_" and " "; other values are unchanged. */
  function NormForCompare(v: Json): (r: Json)
    ensures !v.JStr? ==> r == v
    ensures v.JStr? ==> r.JStr? && |r.s| <= |v.s|
    ensures v.JStr? ==> forall i :: 0 <= i < |r.s| ==> r.s[i] != '_' && r.s[i] != ' ' && !('A' <= r.s[i] <= 'Z')
    ensures v.JStr? ==> r == JStr(Squeeze(Lower(Strip(v.s))))
  {
    if v.JStr? then JStr(Squeeze(Lower(Strip(v.s)))) else v
  }

  lemma {:induction false} SqueezeCompact(s: string)
    requires forall i :: 0 <= i < |s| ==> s[i] != '_' && s[i] != ' '
    ensures Squeeze(s) == s
    decreases |s|
  {
    if |s| > 0 {
      SqueezeCompact(s[1..]);
    }
  }

  /** The strings `_norm_value_for_compare` leaves unchanged include every compact one. */
  lemma NormForCompareFixes(s: string)
    requires Compact(s)
    ensures NormForCompare(JStr(s)) == JStr(s)
  {
    TrimLeftNoLead(s);
    TrimRightNoTrail(s);
    assert Strip(s) == s;
    assert Lower(s) == s;
    SqueezeCompact(s);
  }

  /** The near-duplicate test as written: `nv == ndv or ndv in nv or nv in ndv`, on any values. */
  function NearDupAsWritten(v: Json, dv: Json): (r: Result<bool>)
    ensures PyEq(NormForCompare(v), NormForCompare(dv)) ==> r == Ok(true)
    ensures v.JStr? && dv.JStr? ==> r.Ok?
  {
    var nv := NormForCompare(v);
    var ndv := NormForCompare(dv);
    StringInString(ndv, nv);
    StringInString(nv, ndv);
    if PyEq(nv, ndv) then Ok(true)
    else
      var first := PyIn(ndv, nv);
      if first.Err? then first
      else if first.value then Ok(true)
      else PyIn(nv, ndv)
  }

  /** `in` between two strings never raises. */
  lemma StringInString(x: Json, t: Json)
    ensures x.JStr? && t.JStr? ==> PyIn(x, t).Ok?
  {
  }

  /** The near-duplicate test as the code means it: containment on normalised strings, equality on anything else. */
  function NearDup(v: Json, dv: Json): (r: bool)
    ensures !v.JStr? && !dv.JStr? ==> (r <==> PyEq(v, dv))
    ensures v.JStr? != dv.JStr? ==> !r
    ensures v.JStr? && dv.JStr? ==>
              (r <==> (var a := NormForCompare(v).s; var b := NormForCompare(dv).s;
                       a == b || Contains(a, b) || Contains(b, a)))
  {
    if v.JStr? && dv.JStr? then
      var a := NormForCompare(v).s;
      var b := NormForCompare(dv).s;
      a == b || Contains(a, b) || Contains(b, a)
    else if v.JStr? || dv.JStr? then false
    else PyEq(v, dv)
  }

  /** On two strings the corrected test is the test as written, and that never raises. */
  lemma NearDupAgreesOnStrings(a: string, b: string)
    ensures NearDupAsWritten(JStr(a), JStr(b)) == Ok(NearDup(JStr(a), JStr(b)))
  {
    var x := NormForCompare(JStr(a)).s;
    var y := NormForCompare(JStr(b)).s;
    PyEqStr(x, y);
  }

  lemma PyEqStr(x: string, y: string)
    ensures PyEq(JStr(x), JStr(y)) <==> x == y
  {
  }

  /** As written, a numeric parameter that differs from its numeric default raises TypeError. */
  lemma NumericDefaultRaises()
    ensures NearDupAsWritten(JInt(10), JInt(5)).Err?
    ensures !NearDup(JInt(10), JInt(5))
  {
  }

  /** Every value is a near-duplicate of itself. */
  lemma NearDupRefl(v: Json)
    ensures NearDup(v, v)
  {
    PyEqRefl(v);
  }

  /** An empty string default absorbs every string value. */
  lemma EmptyDefaultAbsorbs(s: string)
    ensures NearDup(JStr(s), JStr(""))
  {
    ContainsAt(NormForCompare(JStr(s)).s, "", 0);
  }

  // ---------------------------------------------------------------------------
  // Parameter projection
  // ---------------------------------------------------------------------------

  /** The value kept for one allowed key: the default when the value is a near-duplicate of it. */
  function Projected(key: string, params: Obj, defaults: Obj): Json
    requires key in params || key in defaults
  {
    if key in params then
      if key in defaults && NearDup(params[key], defaults[key]) then defaults[key] else params[key]
    else defaults[key]
  }

  /** The parameters projected onto the allowed keys, backfilled from the defaults. */
  function Project(allowedKeys: set<string>, params: Obj, defaults: Obj): Obj {
    map key | key in allowedKeys && (key in params || key in defaults) :: Projected(key, params, defaults)
  }

  /** The projection keeps only allowed keys, fills every allowed key it can, and replaces near-duplicates by the default. */
  lemma ProjectMeaning(allowedKeys: set<string>, params: Obj, defaults: Obj, key: string)
    ensures key in Project(allowedKeys, params, defaults) <==>
            key in allowedKeys && (key in params || key in defaults)
    ensures key in allowedKeys && key !in params && key in defaults ==>
            Project(allowedKeys, params, defaults)[key] == defaults[key]
    ensures key in allowedKeys && key in params && key !in defaults ==>
            Project(allowedKeys, params, defaults)[key] == params[key]
    ensures key in allowedKeys && key in params && key in defaults ==>
            Project(allowedKeys, params, defaults)[key]
            == (if NearDup(params[key], defaults[key]) then defaults[key] else params[key])
  {
  }

  /** Projecting twice is projecting once. */
  lemma ProjectIdempotent(allowedKeys: set<string>, params: Obj, defaults: Obj)
    ensures Project(allowedKeys, Project(allowedKeys, params, defaults), defaults)
            == Project(allowedKeys, params, defaults)
  {
    var p := Project(allowedKeys, params, defaults);
    var q := Project(allowedKeys, p, defaults);
    forall key | key in q
      ensures q[key] == p[key]
    {
      if key in defaults && p[key] == defaults[key] {
        NearDupRefl(defaults[key]);
      }
    }
    assert q.Keys == p.Keys;
  }

  /** The loop of `_postprocess_parsed` that builds `filtered` over the allowed keys, in any iteration order. */
  method FilterParams(allowedKeys: set<string>, params: Obj, defaults: Obj) returns (filtered: Obj)
    ensures filtered == Project(allowedKeys, params, defaults)
  {
    filtered := map[];
    var todo := allowedKeys;
    while todo != {}
      invariant todo <= allowedKeys
      invariant filtered == Project(allowedKeys - todo, params, defaults)
      decreases |todo|
    {
      var key :| key in todo;
      if key in params {
        var v := params[key];
        if key in defaults {
          var dv := defaults[key];
          if NearDup(v, dv) {
            filtered := filtered[key := dv];
          } else {
            filtered := filtered[key := v];
          }
        } else {
          filtered := filtered[key := v];
        }
      } else if key in defaults {
        filtered := filtered[key := defaults[key]];
      }
      todo := todo - {key};
    }
    assert allowedKeys - todo == allowedKeys;
  }

  // ---------------------------------------------------------------------------
  // Context, flags and confidence
  // ---------------------------------------------------------------------------

  /** `parsed.setdefault("context", {})`, a non-mapping wrapped as `{"value": ...}`. */
  function ContextOf(parsed: Obj): (ctx: Obj)
    ensures "context" !in parsed ==> ctx == map[]
    ensures "context" in parsed && parsed["context"].JObj? ==> ctx == parsed["context"].fields
    ensures "context" in parsed && !parsed["context"].JObj? ==> ctx == map["value" := parsed["context"]]
  {
    if "context" !in parsed then map[]
    else if parsed["context"].JObj? then parsed["context"].fields
    else map["value" := parsed["context"]]
  }

  /** `ctx.get("guardrail_flags") or []`, a non-list replaced by `[str(flags)]` (`render` is `str`). */
  function FlagsOf(ctx: Obj, render: Json -> string): (flags: seq<Json>)
    ensures !Truthy(Get(ctx, "guardrail_flags")) ==> flags == []
    ensures Get(ctx, "guardrail_flags").JList? ==> flags == Get(ctx, "guardrail_flags").items
    ensures Truthy(Get(ctx, "guardrail_flags")) && !Get(ctx, "guardrail_flags").JList? ==>
              flags == [JStr(render(Get(ctx, "guardrail_flags")))]
  {
    var f := Get(ctx, "guardrail_flags");
    if !Truthy(f) then [] else if f.JList? then f.items else [JStr(render(f))]
  }

  /** `if flag not in flags: flags.append(flag)`. */
  function AddFlag(flags: seq<Json>, flag: string): (r: seq<Json>)
    ensures JStr(flag) in r
    ensures flags <= r && |r| <= |flags| + 1
  {
    if JStr(flag) in flags then flags else flags + [JStr(flag)]
  }

  function Count(flags: seq<Json>, f: Json): nat
    decreases |flags|
  {
    if |flags| == 0 then 0
    else Count(flags[..|flags| - 1], f) + (if flags[|flags| - 1] == f then 1 else 0)
  }

  lemma {:induction false} CountZero(flags: seq<Json>, f: Json)
    ensures Count(flags, f) == 0 <==> f !in flags
    decreases |flags|
  {
    if |flags| > 0 {
      CountZero(flags[..|flags| - 1], f);
      assert f in flags <==> f in flags[..|flags| - 1] || flags[|flags| - 1] == f;
    }
  }

  /** A flag is added at most once: afterwards it occurs once if it was absent, as often as before otherwise. */
  lemma AddFlagOnce(flags: seq<Json>, flag: string)
    ensures Count(AddFlag(flags, flag), JStr(flag)) == if JStr(flag) in flags then Count(flags, JStr(flag)) else 1
    ensures AddFlag(AddFlag(flags, flag), flag) == AddFlag(flags, flag)
  {
    CountZero(flags, JStr(flag));
    if JStr(flag) !in flags {
      assert AddFlag(flags, flag)[..|flags|] == flags;
    }
  }

  /** `max(0.0, min(1.0, x))`. */
  function Clamp01(x: real): (r: real)
    ensures 0.0 <= r <= 1.0
    ensures 0.0 <= x <= 1.0 ==> r == x
    ensures x > 1.0 ==> r == 1.0
    ensures x < 0.0 ==> r == 0.0
  {
    var m := if x < 1.0 then x else 1.0;
    if m > 0.0 then m else 0.0
  }

  /** `float(v)`: numbers and bools convert, strings through `parseFloat`, anything else raises (None). */
  function ToFloat(v: Json, parseFloat: string -> Option<real>): Option<real> {
    if v.JStr? then parseFloat(v.s) else Num(v)
  }

  /** The clamped confidence: `float(ctx.get("confidence", 1.0))`, or 1.0 when that raises. */
  function ConfidenceOf(ctx: Obj, parseFloat: string -> Option<real>): (c: real)
    ensures 0.0 <= c <= 1.0
    ensures "confidence" !in ctx ==> c == 1.0
    ensures "confidence" in ctx && ToFloat(ctx["confidence"], parseFloat).None? ==> c == 1.0
    ensures "confidence" in ctx && ToFloat(ctx["confidence"], parseFloat).Some? ==>
              var x := ToFloat(ctx["confidence"], parseFloat).value;
              c == if x < 0.0 then 0.0 else if x > 1.0 then 1.0 else x
  {
    var conf := if "confidence" in ctx then ToFloat(ctx["confidence"], parseFloat).GetOr(1.0) else 1.0;
    Clamp01(conf)
  }

  // ---------------------------------------------------------------------------
  // Domain and action resolution
  // ---------------------------------------------------------------------------

  predicate Hashable(v: Json) {
    !v.JList? && !v.JObj?
  }

  /** `parsed.get("domain") or domain_hint`. */
  function RawDomain(parsed: Obj, domainHint: Json): Json {
    Or(Get(parsed, "domain"), domainHint)
  }

  /** A registered domain is kept; otherwise the registry's guess if that is registered, else None. */
  function ResolveRegistered(reg: Registry, raw: Json, command: string): (r: Option<string>)
    ensures r.Some? ==> r.value in Domains(reg)
    ensures raw.JStr? && raw.s in Domains(reg) ==> r == Some(raw.s)
    ensures !(raw.JStr? && raw.s in Domains(reg)) ==>
              (r.Some? <==> GuessDomain(reg, command) in Domains(reg))
              && (r.Some? ==> r.value == GuessDomain(reg, command))
  {
    if raw.JStr? && raw.s in Domains(reg) then Some(raw.s)
    else
      var g := GuessDomain(reg, command);
      if g in Domains(reg) then Some(g) else None
  }

  /** `parsed.get("parameters") or {}`, a non-mapping replaced by `{}`. */
  function ParamsIn(parsed: Obj): Obj {
    var p := Get(parsed, "parameters");
    if p.JObj? then p.fields else map[]
  }

  function DomainJson(d: Option<string>): Json {
    if d.Some? then JStr(d.value) else JNull
  }

  class AIParser {
    const registry: Registry
    var allowedActions: map<string, set<string>>
    var allowedParams: map<(string, string), set<string>>
    var defaultParams: map<(string, string), Obj>

    /** The parser with its catalogue built from the registry's examples. */
    constructor (reg: Registry)
      requires ConfigReady(reg)
      ensures registry == reg
      ensures IsCatalog(reg, allowedActions, allowedParams, defaultParams)
    {
      registry := reg;
      allowedActions := map[];
      allowedParams := map[];
      defaultParams := map[];
      new;
      BuildCatalog();
      CatalogMeaning(reg);
    }

    /** `_build_action_catalog`: fills the three catalogues, domain by domain and example by example. */
    method BuildCatalog()
      requires ConfigReady(registry)
      requires allowedActions == map[] && allowedParams == map[] && defaultParams == map[]
      modifies this
      ensures allowedActions == BuiltActions(registry, Domains(registry))
      ensures allowedParams == BuiltParams(registry, Domains(registry))
      ensures defaultParams == BuiltDefaults(registry, Domains(registry))
    {
      var domains := Domains(registry);
      var i := 0;
      while i < |domains|
        invariant 0 <= i <= |domains|
        invariant allowedActions == BuiltActions(registry, domains[..i])
        invariant allowedParams == BuiltParams(registry, domains[..i])
        invariant defaultParams == BuiltDefaults(registry, domains[..i])
      {
        var domain := domains[i];
        assert DomainReady(registry, domain);
        var actions := ScanExamples(domain);
        if actions != {} {
          allowedActions := allowedActions[domain := actions];
        }
        assert domains[..i + 1][..i] == domains[..i];
        i := i + 1;
      }
      assert domains[..i] == domains;
    }

    /** The inner loop of `_build_action_catalog`, over the examples of one domain. */
    method ScanExamples(domain: string) returns (actions: set<string>)
      requires forall j :: 0 <= j < |Examples(registry, domain)| ==> ExampleWellTyped(Examples(registry, domain)[j])
      modifies this
      ensures actions == ActionsIn(Examples(registry, domain))
      ensures allowedActions == old(allowedActions)
      ensures allowedParams == ScanParams(domain, Examples(registry, domain), old(allowedParams))
      ensures defaultParams == ScanDefaults(domain, Examples(registry, domain), old(defaultParams))
    {
      var examples := Examples(registry, domain);
      var params0, defaults0 := allowedParams, defaultParams;
      actions := {};
      var j := 0;
      while j < |examples|
        invariant 0 <= j <= |examples|
        invariant actions == ActionsIn(examples[..j])
        invariant allowedParams == ScanParams(domain, examples[..j], params0)
        invariant defaultParams == ScanDefaults(domain, examples[..j], defaults0)
        invariant unchanged(`allowedActions)
      {
        ActionsStep(examples, j);
        ScanStep(domain, examples, j, params0, defaults0);
        actions := ReadExample(domain, examples[j], actions);
        j := j + 1;
      }
      assert examples[..j] == examples;
    }

    /** The body of the inner loop: one example's action and parameters enter the catalogue. */
    method ReadExample(domain: string, ex: Json, actions0: set<string>) returns (actions: set<string>)
      requires ExampleWellTyped(ex)
      modifies this`allowedParams, this`defaultParams
      ensures var a := ActionOf(ex);
              if a.JStr? && a.s != "" then
                actions == actions0 + {a.s}
                && allowedParams == AddParamKeys(old(allowedParams), (domain, a.s), ExParams(ex).Keys)
                && defaultParams == AddDefault(old(defaultParams), (domain, a.s), ExParams(ex))
              else
                actions == actions0 && allowedParams == old(allowedParams) && defaultParams == old(defaultParams)
    {
      actions := actions0;
      var expected := Expected(ex);
      var action := Get(expected, "action");
      if !Truthy(action) {
        return;
      }
      var a := action.s;
      actions := actions + {a};
      var params := ExParams(ex);
      var key := (domain, a);
      if key !in allowedParams {
        allowedParams := allowedParams[key := {}];
      }
      allowedParams := allowedParams[key := allowedParams[key] + params.Keys];
      if key !in defaultParams {
        defaultParams := defaultParams[key := params];
      }
    }

    /** The actions registered for a resolved domain; `allowed_actions.get(domain or "", set())`. */
    function AllowedFor(domain: Option<string>): set<string>
      reads this
    {
      var d := domain.GetOr("");
      if d in allowedActions then allowedActions[d] else {}
    }

    /** The parameter names and defaults for (domain, action); a None domain has none. */
    function KeysFor(domain: Option<string>, a: string): set<string>
      reads this
    {
      if domain.Some? && (domain.value, a) in allowedParams then allowedParams[(domain.value, a)] else {}
    }

    function DefaultsFor(domain: Option<string>, a: string): Obj
      reads this
    {
      if domain.Some? && (domain.value, a) in defaultParams then defaultParams[(domain.value, a)] else map[]
    }

    /** The raw action is a string registered for the domain. */
    predicate Registered(domain: Option<string>, raw: Json)
      reads this
    {
      AllowedFor(domain) != {} && raw.JStr? && raw.s in AllowedFor(domain)
    }

    /** The flags after the action step: "unknown_action" for a missing action, "unregistered_action" for one not registered. */
    function FlagsAfter(domain: Option<string>, raw: Json, flags: seq<Json>): seq<Json>
      reads this
    {
      if !Truthy(raw) then AddFlag(flags, "unknown_action")
      else if Registered(domain, raw) then flags
      else AddFlag(flags, "unregistered_action")
    }

    /**
     * The action and parameter step of `_postprocess_parsed`: a missing action
     * clears the parameters, a registered one has them projected onto the
     * catalogue (kept as they are when the catalogue knows no keys), and any
     * other is kept with its parameters. Raises only when an unhashable action
     * is looked up in a non-empty action set.
     */
    method NormalizeAction(domain: Option<string>, raw: Json, params: Obj, flags: seq<Json>)
      returns (r: Result<(Json, Obj, seq<Json>)>)
      ensures r.Err? <==> Truthy(raw) && AllowedFor(domain) != {} && !Hashable(raw)
      ensures r.Ok? ==> r.value.2 == FlagsAfter(domain, raw, flags)
      ensures r.Ok? && !Truthy(raw) ==> r.value.0 == JNull && r.value.1 == map[]
      ensures r.Ok? && Truthy(raw) ==> r.value.0 == raw
      ensures r.Ok? && Truthy(raw) && Registered(domain, raw) && KeysFor(domain, raw.s) != {} ==>
                r.value.1 == Project(KeysFor(domain, raw.s), params, DefaultsFor(domain, raw.s))
      ensures r.Ok? && Truthy(raw) && (!Registered(domain, raw) || KeysFor(domain, raw.s) == {}) ==>
                r.value.1 == params
    {
      var allowedForDomain := AllowedFor(domain);
      if !Truthy(raw) {
        var flags' := flags;
        if JStr("unknown_action") !in flags' {
          flags' := flags' + [JStr("unknown_action")];
        }
        return Ok((JNull, map[], flags'));
      }
      if allowedForDomain != {} && !Hashable(raw) {
        return Err("TypeError: unhashable type");
      }
      if allowedForDomain != {} && raw.JStr? && raw.s in allowedForDomain {
        var allowedKeys := KeysFor(domain, raw.s);
        var defaults := DefaultsFor(domain, raw.s);
        var filtered: Obj;
        if allowedKeys == {} {
          filtered := params;
        } else {
          filtered := FilterParams(allowedKeys, params, defaults);
        }
        return Ok((raw, filtered, flags));
      }
      var flags' := flags;
      if JStr("unregistered_action") !in flags' {
        flags' := flags' + [JStr("unregistered_action")];
      }
      return Ok((raw, params, flags'));
    }

    /**
     * With the catalogue built from the configuration, a registered action's
     * projected parameters only use names that some example for that action
     * in that domain declares.
     */
    lemma KnownActionKeys(domain: Option<string>, a: string, params: Obj, k: string)
      requires IsCatalog(registry, allowedActions, allowedParams, defaultParams)
      requires Registered(domain, JStr(a)) && KeysFor(domain, a) != {}
      requires k in Project(KeysFor(domain, a), params, DefaultsFor(domain, a))
      ensures domain.Some? && domain.value in Domains(registry)
      ensures a in ActionsIn(Examples(registry, domain.value))
      ensures exists j :: 0 <= j < |Examples(registry, domain.value)|
                          && NamesAction(Examples(registry, domain.value)[j], a)
                          && k in ExParams(Examples(registry, domain.value)[j])
    {
      ProjectMeaning(KeysFor(domain, a), params, DefaultsFor(domain, a), k);
      ParamKeysIff(Examples(registry, domain.value), a, k);
    }

    /** The four keys `_postprocess_parsed` writes back; every other key of the parse is kept. */
    static function Store(parsed: Obj, ctx: Obj, domain: Option<string>, action: Json, params: Obj): (out: Obj)
      ensures out.Keys == parsed.Keys + {"domain", "action", "parameters", "context"}
      ensures forall k :: k in parsed && k !in {"domain", "action", "parameters", "context"} ==> out[k] == parsed[k]
      ensures out["context"] == JObj(ctx) && out["domain"] == DomainJson(domain)
      ensures out["action"] == action && out["parameters"] == JObj(params)
    {
      parsed["context" := JObj(ctx)]["domain" := DomainJson(domain)]["action" := action]["parameters" := JObj(params)]
    }

    /**
     * `_postprocess_parsed`. Raises (Err) exactly when a set-membership test
     * meets an unhashable domain or action value. Otherwise the domain is
     * resolved against the registry, a registered action has its parameters
     * projected onto the catalogue, a missing action clears the parameters,
     * flags are added at most once and the confidence is clamped; every other
     * key of the parse and of its context is kept.
     */
    method PostprocessParsed(parsed: Obj, command: string, domainHint: Json,
                             parseFloat: string -> Option<real>, render: Json -> string)
      returns (r: Result<Obj>)
      ensures var raw := Get(parsed, "action");
              var domain := ResolveRegistered(registry, RawDomain(parsed, domainHint), command);
              r.Err? <==> !Hashable(RawDomain(parsed, domainHint))
                          || (Truthy(raw) && AllowedFor(domain) != {} && !Hashable(raw))
      ensures r.Ok? ==>
                r.value.Keys == parsed.Keys + {"domain", "action", "parameters", "context"}
                && forall k :: k in parsed && k !in {"domain", "action", "parameters", "context"} ==>
                     r.value[k] == parsed[k]
      ensures r.Ok? ==>
                r.value["domain"] == DomainJson(ResolveRegistered(registry, RawDomain(parsed, domainHint), command))
      ensures r.Ok? ==>
                var ctx := ContextOf(parsed);
                var domain := ResolveRegistered(registry, RawDomain(parsed, domainHint), command);
                var flags := FlagsAfter(domain, Get(parsed, "action"), FlagsOf(ctx, render));
                r.value["context"] == JObj(ctx["confidence" := JReal(ConfidenceOf(ctx, parseFloat))]
                                           ["guardrail_flags" := JList(flags)])
      ensures r.Ok? && !Truthy(Get(parsed, "action")) ==>
                r.value["action"] == JNull && r.value["parameters"] == JObj(map[])
      ensures r.Ok? && Truthy(Get(parsed, "action")) ==>
                var raw := Get(parsed, "action");
                var domain := ResolveRegistered(registry, RawDomain(parsed, domainHint), command);
                r.value["action"] == raw
                && (Registered(domain, raw) && KeysFor(domain, raw.s) != {} ==>
                      r.value["parameters"] == JObj(Project(KeysFor(domain, raw.s), ParamsIn(parsed), DefaultsFor(domain, raw.s))))
                && (!Registered(domain, raw) || KeysFor(domain, raw.s) == {} ==>
                      r.value["parameters"] == JObj(ParamsIn(parsed)))
    {
      var ctx := ContextOf(parsed);
      var flags := FlagsOf(ctx, render);
      var rawDomain := RawDomain(parsed, domainHint);
      if !Hashable(rawDomain) {
        return Err("TypeError: unhashable type");
      }
      var domain := ResolveRegistered(registry, rawDomain, command);
      var step := NormalizeAction(domain, Get(parsed, "action"), ParamsIn(parsed), flags);
      if step.Err? {
        return Err(step.error);
      }
      var (action, params, flags') := step.value;
      ctx := ctx["confidence" := JReal(ConfidenceOf(ctx, parseFloat))];
      ctx := ctx["guardrail_flags" := JList(flags')];
      r := Ok(Store(parsed, ctx, domain, action, params));
    }
  }
}
