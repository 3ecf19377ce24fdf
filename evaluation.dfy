/**
 * What the parser evaluators share: the evaluation items and the parser's
 * predictions, subset matching of parameters, the error precedence, counters
 * kept as dictionaries, and the ratio and precision/recall/F1 helpers.
 */
module Evaluation {
  import opened Wrappers
  import opened Json

  /** A domain or action label from the dataset or the parser: a string or None. */
  type Label = Option<string>

  /** Python truthiness of a label: present and non-empty. */
  predicate Present(l: Label) {
    l.Some? && l.value != ""
  }

  /** A label as an f-string renders it: the string itself, or "None". */
  function Render(l: Label): string {
    if l.Some? then l.value else "None"
  }

  /** One dataset command with its expected domain, action and parameters. */
  datatype EvalItem = EvalItem(id: string, command: string, expectedDomain: Label, expectedAction: Label, expectedParameters: Obj)

  /** What the parser returned for a command: its domain, action and parameters. */
  datatype Prediction = Prediction(domain: Label, action: Label, parameters: Obj)

  // ---------------------------------------------------------------------------
  // Parameter matching and error precedence
  // ---------------------------------------------------------------------------

  /** Every expected parameter is predicted with an equal value; extra predicted keys do not matter. */
  predicate SubsetMatch(expected: Obj, predicted: Obj) {
    forall k :: k in expected ==> PyEq(Get(predicted, k), expected[k])
  }

  /** `_parameters_match`: stop at the first expected key whose predicted value differs. */
  method ParametersMatch(expected: Obj, predicted: Obj) returns (ok: bool)
    ensures ok == SubsetMatch(expected, predicted)
    ensures expected == map[] ==> ok
  {
    var todo := expected.Keys;
    while todo != {}
      invariant todo <= expected.Keys
      invariant forall k :: k in expected.Keys - todo ==> PyEq(Get(predicted, k), expected[k])
      decreases |todo|
    {
      var k :| k in todo;
      if !PyEq(Get(predicted, k), expected[k]) {
        return false;
      }
      todo := todo - {k};
    }
    return true;
  }

  /** Adding predicted keys that are not expected never changes the match. */
  lemma SubsetMatchIgnoresExtra(expected: Obj, predicted: Obj, extra: Obj)
    requires forall k :: k in extra ==> k !in expected
    ensures SubsetMatch(expected, predicted + extra) == SubsetMatch(expected, predicted)
  {
    forall k | k in expected
      ensures Get(predicted + extra, k) == Get(predicted, k)
    {
    }
  }

  /**
   * `_classify_error`: no error when all three checks hold, otherwise the
   * first failing check in the order domain, action, parameters; the final
   * "unknown" cannot be reached.
   */
  function ClassifyError(domainOk: bool, actionOk: bool, paramsOk: bool): (e: Option<string>)
    ensures e.None? <==> domainOk && actionOk && paramsOk
    ensures !domainOk ==> e == Some("domain_mismatch")
    ensures domainOk && !actionOk ==> e == Some("action_mismatch")
    ensures domainOk && actionOk && !paramsOk ==> e == Some("parameters_mismatch")
    ensures e != Some("unknown")
  {
    if domainOk && actionOk && paramsOk then None
    else if !domainOk then Some("domain_mismatch")
    else if !actionOk then Some("action_mismatch")
    else if !paramsOk then Some("parameters_mismatch")
    else Some("unknown")
  }

  // ---------------------------------------------------------------------------
  // Counters: `d[k] = d.get(k, 0) + 1`
  // ---------------------------------------------------------------------------

  function Get0<K>(m: map<K, nat>, k: K): nat {
    if k in m then m[k] else 0
  }

  function Inc<K>(m: map<K, nat>, k: K): map<K, nat> {
    m[k := Get0(m, k) + 1]
  }

  /** The counter built by incrementing each key of `ks` in turn. */
  function Tally<K>(ks: seq<K>): map<K, nat>
    decreases |ks|
  {
    if ks == [] then map[] else Inc(Tally(ks[..|ks| - 1]), ks[|ks| - 1])
  }

  ghost function Occurrences<K>(ks: seq<K>, k: K): nat
    decreases |ks|
  {
    if ks == [] then 0 else Occurrences(ks[..|ks| - 1], k) + (if ks[|ks| - 1] == k then 1 else 0)
  }

  /** A counter holds exactly the keys seen, each with its number of occurrences. */
  lemma {:induction false} TallyCounts<K>(ks: seq<K>, k: K)
    ensures Get0(Tally(ks), k) == Occurrences(ks, k)
    ensures k in Tally(ks) <==> k in ks
    decreases |ks|
  {
    if ks != [] {
      var init := ks[..|ks| - 1];
      TallyCounts(init, k);
      assert ks == init + [ks[|ks| - 1]];
    }
  }

  /** The per-domain `{"total", "correct"}` counts. */
  datatype DomainTally = DomainTally(total: nat, correct: nat)

  /** The sum of a counter's values. */
  ghost function MapSum<K>(m: map<K, nat>): nat
    decreases |m|
  {
    if m == map[] then 0
    else
      assert exists k :: k in m by {
        var k :| k in m.Keys;
      }
      var k :| k in m;
      m[k] + MapSum(m - {k})
  }

  /** The sum does not depend on which key is taken first. */
  lemma {:induction false} MapSumRemove<K>(m: map<K, nat>, k: K)
    requires k in m
    ensures MapSum(m) == m[k] + MapSum(m - {k})
    decreases |m|
  {
    var j :| j in m && MapSum(m) == m[j] + MapSum(m - {j});
    if j != k {
      MapSumRemove(m - {j}, k);
      MapSumRemove(m - {k}, j);
      assert m - {j} - {k} == m - {k} - {j};
    }
  }

  /** Replacing one value changes the sum by the difference. */
  lemma MapSumUpdate<K>(m: map<K, nat>, k: K, v: nat)
    ensures MapSum(m[k := v]) + Get0(m, k) == MapSum(m) + v
  {
    var n := m[k := v];
    MapSumRemove(n, k);
    assert n - {k} == m - {k};
    if k in m {
      MapSumRemove(m, k);
    } else {
      assert m - {k} == m;
    }
  }

  /** Incrementing a counter adds one to its sum. */
  lemma MapSumInc<K>(m: map<K, nat>, k: K)
    ensures MapSum(Inc(m, k)) == MapSum(m) + 1
  {
    var n := Inc(m, k);
    MapSumRemove(n, k);
    assert n - {k} == m - {k};
    if k in m {
      MapSumRemove(m, k);
    } else {
      assert m - {k} == m;
    }
  }

  /** A counter's values sum to the number of increments. */
  lemma {:induction false} TallySum<K>(ks: seq<K>)
    ensures MapSum(Tally(ks)) == |ks|
    decreases |ks|
  {
    if ks != [] {
      TallySum(ks[..|ks| - 1]);
      MapSumInc(Tally(ks[..|ks| - 1]), ks[|ks| - 1]);
    }
  }

  /** A counter is incremented by one more key. */
  lemma TallySnoc<K>(ks: seq<K>, k: K)
    ensures Tally(ks + [k]) == Inc(Tally(ks), k)
  {
    assert (ks + [k])[..|ks|] == ks;
  }

  // ---------------------------------------------------------------------------
  // Two-level counters: `matrix[a][b] += 1`
  // ---------------------------------------------------------------------------

  /** The two-level counter built by incrementing each pair's cell in turn. */
  function NestedTally<A, B>(ps: seq<(A, B)>): map<A, map<B, nat>>
    decreases |ps|
  {
    if ps == [] then map[]
    else
      var m := NestedTally(ps[..|ps| - 1]);
      var p := ps[|ps| - 1];
      var row := if p.0 in m then m[p.0] else map[];
      m[p.0 := Inc(row, p.1)]
  }

  /** The cell of a two-level counter, 0 when absent. */
  function Cell<A, B>(m: map<A, map<B, nat>>, a: A, b: B): nat {
    if a in m then Get0(m[a], b) else 0
  }

  /** The sum of all cells of a two-level counter. */
  ghost function NestedSum<A, B>(m: map<A, map<B, nat>>): nat {
    MapSum(RowSums(m))
  }

  /** Each row's sum. */
  ghost function RowSums<A, B>(m: map<A, map<B, nat>>): map<A, nat> {
    map a | a in m :: MapSum(m[a])
  }

  lemma RowSumsUpdate<A, B>(m: map<A, map<B, nat>>, a: A, row: map<B, nat>)
    ensures RowSums(m[a := row]) == RowSums(m)[a := MapSum(row)]
  {
  }

  /** Each cell counts its pair's occurrences. */
  lemma {:induction false} NestedTallyCounts<A, B>(ps: seq<(A, B)>, a: A, b: B)
    ensures Cell(NestedTally(ps), a, b) == Occurrences(ps, (a, b))
    decreases |ps|
  {
    if ps != [] {
      NestedTallyCounts(ps[..|ps| - 1], a, b);
    }
  }

  /** The cells of a two-level counter add up to the number of pairs. */
  lemma {:induction false} NestedTallySum<A, B>(ps: seq<(A, B)>)
    ensures NestedSum(NestedTally(ps)) == |ps|
    decreases |ps|
  {
    if ps != [] {
      var init := ps[..|ps| - 1];
      var p := ps[|ps| - 1];
      NestedTallySum(init);
      NestedSumInc(NestedTally(init), p.0, p.1);
    }
  }

  /** Incrementing one cell adds one to the total. */
  lemma NestedSumInc<A, B>(m: map<A, map<B, nat>>, a: A, b: B)
    ensures var row := if a in m then m[a] else map[];
            NestedSum(m[a := Inc(row, b)]) == NestedSum(m) + 1
  {
    var row := if a in m then m[a] else map[];
    MapSumInc(row, b);
    assert row == map[] ==> MapSum(row) == 0;
    assert Get0(RowSums(m), a) == MapSum(row);
    RowSumsUpdate(m, a, Inc(row, b));
    MapSumUpdate(RowSums(m), a, MapSum(row) + 1);
  }

  /** The keys `f` picks from the results, in order: the increments of one counter. */
  function Collect<R, K>(rs: seq<R>, f: R -> Option<K>): seq<K>
    decreases |rs|
  {
    if rs == [] then []
    else
      var last := f(rs[|rs| - 1]);
      Collect(rs[..|rs| - 1], f) + (if last.Some? then [last.value] else [])
  }

  /** One more result adds its key, if it has one. */
  lemma CollectSnoc<R, K>(rs: seq<R>, r: R, f: R -> Option<K>)
    ensures Collect(rs + [r], f) == Collect(rs, f) + (if f(r).Some? then [f(r).value] else [])
  {
    assert (rs + [r])[..|rs|] == rs;
  }

  /** The counter of one more result: its key, if it has one, is incremented. */
  lemma TallyCollectSnoc<R, K>(rs: seq<R>, r: R, f: R -> Option<K>)
    ensures Tally(Collect(rs + [r], f))
            == if f(r).Some? then Inc(Tally(Collect(rs, f)), f(r).value) else Tally(Collect(rs, f))
  {
    CollectSnoc(rs, r, f);
    var ks := Collect(rs, f);
    if f(r).Some? {
      assert (ks + [f(r).value])[..|ks|] == ks;
    } else {
      assert ks + [] == ks;
    }
  }

  /** Every collected key comes from some result. */
  lemma {:induction false} CollectFrom<R, K>(rs: seq<R>, f: R -> Option<K>, k: K)
    requires k in Collect(rs, f)
    ensures exists i :: 0 <= i < |rs| && f(rs[i]) == Some(k)
    decreases |rs|
  {
    var init := rs[..|rs| - 1];
    var last := rs[|rs| - 1];
    if k in Collect(init, f) {
      CollectFrom(init, f, k);
      var i :| 0 <= i < |init| && f(init[i]) == Some(k);
      assert rs[i] == init[i];
    } else {
      assert f(rs[|rs| - 1]) == Some(k);
    }
  }

  /** Two counters that never both count a result count, together, what a third counts. */
  lemma {:induction false} CollectPartition<R, K>(rs: seq<R>, f: R -> Option<K>, g: R -> Option<K>, h: R -> Option<K>)
    requires forall i :: 0 <= i < |rs| ==> (h(rs[i]).Some? <==> f(rs[i]).Some? || g(rs[i]).Some?)
    requires forall i :: 0 <= i < |rs| ==> !(f(rs[i]).Some? && g(rs[i]).Some?)
    ensures |Collect(rs, f)| + |Collect(rs, g)| == |Collect(rs, h)|
    decreases |rs|
  {
    if rs != [] {
      var init := rs[..|rs| - 1];
      assert forall i :: 0 <= i < |init| ==> init[i] == rs[i];
      CollectPartition(init, f, g, h);
    }
  }

  /** A counter that counts only results another counts counts no more. */
  lemma {:induction false} CollectWithin<R, K>(rs: seq<R>, f: R -> Option<K>, g: R -> Option<K>)
    requires forall i :: 0 <= i < |rs| ==> f(rs[i]).Some? ==> g(rs[i]).Some?
    ensures |Collect(rs, f)| <= |Collect(rs, g)|
    decreases |rs|
  {
    if rs != [] {
      var init := rs[..|rs| - 1];
      assert forall i :: 0 <= i < |init| ==> init[i] == rs[i];
      CollectWithin(init, f, g);
    }
  }

  // ---------------------------------------------------------------------------
  // Ratios
  // ---------------------------------------------------------------------------

  /** `num / den if den else 0.0`. */
  function Ratio(num: nat, den: nat): (r: real)
    ensures den == 0 ==> r == 0.0
    ensures 0.0 <= r
    ensures num <= den ==> r <= 1.0
    ensures den > 0 ==> r * (den as real) == num as real
  {
    if den == 0 then 0.0 else (num as real) / (den as real)
  }

  /** Precision, recall and F1 of one label, with its counts. */
  datatype Prf = Prf(precision: real, recall: real, f1: real, tp: nat, fp: nat, fn: nat)

  /** A share of a positive whole is in [0, 1]. */
  lemma ShareBounds(a: real, b: real)
    requires 0.0 <= a <= b && b > 0.0
    ensures 0.0 <= a / b <= 1.0
  {
  }

  /** Scaling by a factor in [0, 1] does not grow a non-negative number. */
  lemma ScaleDown(p: real, r: real)
    requires 0.0 <= p && 0.0 <= r <= 1.0
    ensures 0.0 <= p * r <= p
  {
  }

  /** `2 * p * r / (p + r) if (p + r) else 0.0`. */
  function F1(p: real, r: real): (f: real)
    requires 0.0 <= p <= 1.0 && 0.0 <= r <= 1.0
    ensures 0.0 <= f <= 1.0
    ensures p + r == 0.0 ==> f == 0.0
  {
    if p + r == 0.0 then 0.0
    else
      var pr := p * r;
      ScaleDown(p, r);
      ScaleDown(r, p);
      assert r * p == pr;
      assert pr <= p && pr <= r;
      assert 2.0 * pr <= p + r;
      ShareBounds(2.0 * pr, p + r);
      2.0 * pr / (p + r)
  }

  /** The scores of one label: all in [0, 1], and all 0 when it has no true positive. */
  function PrfOf(tp: nat, fp: nat, fn: nat): (s: Prf)
    ensures s.tp == tp && s.fp == fp && s.fn == fn
    ensures s.precision == Ratio(tp, tp + fp) && s.recall == Ratio(tp, tp + fn)
    ensures 0.0 <= s.precision <= 1.0 && 0.0 <= s.recall <= 1.0 && 0.0 <= s.f1 <= 1.0
    ensures tp == 0 ==> s.precision == 0.0 && s.recall == 0.0 && s.f1 == 0.0
  {
    var p := Ratio(tp, tp + fp);
    var r := Ratio(tp, tp + fn);
    Prf(p, r, F1(p, r), tp, fp, fn)
  }

  /** The scores of every label counted as a hit, a miss or a wrong prediction. */
  function PrfTable<K>(tp: map<K, nat>, fp: map<K, nat>, fn: map<K, nat>): (t: map<K, Prf>)
    ensures t.Keys == tp.Keys + fp.Keys + fn.Keys
    ensures forall k :: k in t ==> t[k] == PrfOf(Get0(tp, k), Get0(fp, k), Get0(fn, k))
  {
    map k | k in tp.Keys + fp.Keys + fn.Keys :: PrfOf(Get0(tp, k), Get0(fp, k), Get0(fn, k))
  }
}
