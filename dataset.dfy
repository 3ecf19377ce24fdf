/**
 * The v7 evaluation-set generator: numbers new commands after the highest
 * "CMD-" id of the base set and appends synthetic commands until the target
 * size is reached or the synthetic list runs out.
 */
module EvalDataset {
  import opened Wrappers
  import opened Text
  import opened Json

  const IdPrefix := "CMD-"

  /** `raw.split("-")[1]` for an id that starts with "CMD-": the text up to the next '-'. */
  function SecondPart(raw: string): string
    requires StartsWith(raw, IdPrefix)
  {
    var rest := raw[|IdPrefix|..];
    match FindChar(rest, '-')
    case None => rest
    case Some(i) => rest[..i]
  }

  /** The number of a "CMD-" id, or None when the prefix is missing or the number does not parse. */
  function IdValue(raw: string): Option<int> {
    if StartsWith(raw, IdPrefix) then ParseInt(SecondPart(raw)) else None
  }

  /** The number of an item's id, or None when the id is not a string or is not a "CMD-" id. */
  function IdNumber(item: Obj): Option<int> {
    var raw := Get(item, "id");
    if raw.JStr? then IdValue(raw.s) else None
  }

  /** Each item's id number. */
  function Numbers(items: seq<Obj>): (ns: seq<Option<int>>)
    ensures |ns| == |items|
  {
    seq(|items|, i requires 0 <= i < |items| => IdNumber(items[i]))
  }

  /** The running maximum of the present numbers, starting at 0. */
  function MaxOf(ns: seq<Option<int>>): nat
    decreases |ns|
  {
    if ns == [] then 0
    else
      var m := MaxOf(ns[..|ns| - 1]);
      match ns[|ns| - 1]
      case Some(n) => if n > m then n else m
      case None => m
  }

  /** One more number raises the running maximum when it is present and above it. */
  lemma MaxOfStep(ns: seq<Option<int>>, i: nat)
    requires i < |ns|
    ensures MaxOf(ns[..i + 1]) == if ns[i].Some? && ns[i].value > MaxOf(ns[..i]) then ns[i].value else MaxOf(ns[..i])
  {
    assert ns[..i + 1][..i] == ns[..i];
  }

  /** The highest "CMD-" number of the items, 0 when there is none above 0. */
  function MaxId(items: seq<Obj>): nat {
    MaxOf(Numbers(items))
  }

  /** `_next_id_number`. */
  method NextIdNumber(existing: seq<Obj>) returns (next: int)
    ensures next == MaxId(existing) + 1
  {
    var maxId := 0;
    ghost var ns := Numbers(existing);
    for i := 0 to |existing|
      invariant maxId == MaxOf(ns[..i])
    {
      MaxOfStep(ns, i);
      var num := IdNumber(existing[i]);
      assert num == ns[i];
      if num.Some? && num.value > maxId {
        maxId := num.value;
      }
    }
    assert ns[..|existing|] == ns;
    next := maxId + 1;
  }

  /** The maximum bounds every present number and is 0 or one of them. */
  lemma {:induction false} MaxOfIsMax(ns: seq<Option<int>>)
    ensures forall i :: 0 <= i < |ns| && ns[i].Some? ==> ns[i].value <= MaxOf(ns)
    ensures MaxOf(ns) == 0 || exists i :: 0 <= i < |ns| && ns[i] == Some(MaxOf(ns) as int)
    decreases |ns|
  {
    if ns != [] {
      var init := ns[..|ns| - 1];
      MaxOfIsMax(init);
      assert forall i :: 0 <= i < |init| ==> ns[i] == init[i];
    }
  }

  /** The next number is above every numbered id, and is 1 or one past an id that occurs. */
  lemma MaxIdIsMax(items: seq<Obj>, j: nat)
    requires j < |items| && IdNumber(items[j]).Some?
    ensures IdNumber(items[j]).value <= MaxId(items)
  {
    MaxOfIsMax(Numbers(items));
    assert Numbers(items)[j] == IdNumber(items[j]);
  }

  lemma MaxIdOccurs(items: seq<Obj>)
    ensures MaxId(items) == 0 || exists j :: 0 <= j < |items| && IdNumber(items[j]) == Some(MaxId(items) as int)
  {
    var ns := Numbers(items);
    MaxOfIsMax(ns);
    if MaxId(items) != 0 {
      var j :| 0 <= j < |ns| && ns[j] == Some(MaxOf(ns) as int);
      assert IdNumber(items[j]) == ns[j];
    }
  }

  /** One synthetic command: text, expected domain, action and parameters. */
  datatype Spec = Spec(text: string, domain: string, action: string, params: Json)

  /** "CMD-" and the number zero-padded to three digits. */
  function IdOf(n: nat): string {
    IdPrefix + Pad3(n)
  }

  /** `_make_item`: falsy parameters become {}. */
  function MakeItem(idNum: nat, command: string, domain: string, action: string, params: Json): Obj {
    map["id" := JStr(IdOf(idNum)),
        "command" := JStr(command),
        "expected" := JObj(map["domain" := JStr(domain), "action" := JStr(action), "parameters" := Or(params, JObj(map[]))])]
  }

  /** A made id reads back as its number. */
  lemma IdRoundTrip(n: nat)
    ensures IdValue(IdOf(n)) == Some(n)
  {
    var raw := IdOf(n);
    assert raw[..|IdPrefix|] == IdPrefix;
    var rest := raw[|IdPrefix|..];
    assert rest == Pad3(n);
    assert '-' !in rest by {
      forall i | 0 <= i < |rest| ensures rest[i] != '-' { assert IsDigit(rest[i]); }
    }
    assert SecondPart(raw) == Pad3(n);
    ParsePad3(n);
  }

  /** A made item reads back the number it was made with. */
  lemma MadeItemId(idNum: nat, command: string, domain: string, action: string, params: Json)
    ensures IdNumber(MakeItem(idNum, command, domain, action, params)) == Some(idNum)
  {
    var item := MakeItem(idNum, command, domain, action, params);
    assert item["id"] == JStr(IdOf(idNum));
    IdRoundTrip(idNum);
  }

  /** `max(0, target_total - (start_id - 1))`. */
  function Needed(startId: nat, targetTotal: int): nat {
    if targetTotal - (startId - 1) > 0 then targetTotal - (startId - 1) else 0
  }

  function Min(a: nat, b: nat): nat {
    if a < b then a else b
  }

  /** The synthetic items the generator emits: the first specs, numbered from `startId`. */
  function Synthetic(specs: seq<Spec>, startId: nat, count: nat): (items: seq<Obj>)
    requires count <= |specs|
    ensures |items| == count
  {
    seq(count, i requires 0 <= i < count => MakeItem(startId + i, specs[i].text, specs[i].domain, specs[i].action, specs[i].params))
  }

  /**
   * `_generate_synthetic_items`, with the spec tables concatenated: `add`
   * stamps the next id on a made item while `needed` is positive, and the
   * walk stops as soon as `add` reports that nothing more is needed.
   */
  method GenerateSynthetic(specs: seq<Spec>, startId: nat, targetTotal: int) returns (items: seq<Obj>)
    ensures |items| == Min(Needed(startId, targetTotal), |specs|)
    ensures items == Synthetic(specs, startId, |items|)
  {
    items := [];
    var currentId := startId;
    var needed: int := Needed(startId, targetTotal);
    var i := 0;
    while i < |specs|
      invariant 0 <= i <= |specs|
      invariant i <= Needed(startId, targetTotal)
      invariant items == Synthetic(specs, startId, i)
      invariant currentId == startId + i && needed == Needed(startId, targetTotal) - i
      invariant i < |specs| ==> needed > 0 || Needed(startId, targetTotal) == 0
      decreases |specs| - i
    {
      var s := specs[i];
      var cmd := MakeItem(0, s.text, s.domain, s.action, s.params);
      if needed <= 0 {
        return;
      }
      cmd := cmd["id" := JStr(IdOf(currentId))];
      assert cmd == MakeItem(currentId, s.text, s.domain, s.action, s.params);
      currentId := currentId + 1;
      needed := needed - 1;
      items := items + [cmd];
      i := i + 1;
      if !(needed > 0) {
        return;
      }
    }
  }

  /** Synthetic ids are consecutive from `startId`. */
  lemma SyntheticIds(specs: seq<Spec>, startId: nat, count: nat, i: nat)
    requires count <= |specs| && i < count
    ensures IdNumber(Synthetic(specs, startId, count)[i]) == Some(startId + i)
  {
    var s := specs[i];
    assert Synthetic(specs, startId, count)[i] == MakeItem(startId + i, s.text, s.domain, s.action, s.params);
    MadeItemId(startId + i, s.text, s.domain, s.action, s.params);
  }

  /** `main`: the base commands, then the synthetic ones numbered after the base set's highest id. */
  method BuildV7(base: seq<Obj>, specs: seq<Spec>, targetTotal: int) returns (all: seq<Obj>)
    ensures |all| == |base| + Min(Needed(MaxId(base) + 1, targetTotal), |specs|)
    ensures all[..|base|] == base
    ensures all[|base|..] == Synthetic(specs, MaxId(base) + 1, |all| - |base|)
  {
    var startId := NextIdNumber(base);
    var synthetic := GenerateSynthetic(specs, startId, targetTotal);
    all := base + synthetic;
    assert all[|base|..] == synthetic;
  }

  /** No synthetic id repeats the number of a base id. */
  lemma NoIdClash(base: seq<Obj>, specs: seq<Spec>, count: nat, i: nat, j: nat)
    requires count <= |specs| && i < count && j < |base|
    ensures IdNumber(Synthetic(specs, MaxId(base) + 1, count)[i]) != IdNumber(base[j])
  {
    if IdNumber(base[j]).Some? {
      MaxIdIsMax(base, j);
    }
    SyntheticIds(specs, MaxId(base) + 1, count, i);
  }
}
