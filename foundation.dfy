/** Option and Result, the two failure-carrying values the rest of the model uses. */
module Wrappers {

  datatype Option<+T> = None | Some(value: T) {
    function GetOr(default: T): T {
      match this
      case Some(v) => v
      case None => default
    }
  }

  /** An operation that either succeeds with a value or raises the named error. */
  datatype Result<+T> = Ok(value: T) | Err(error: string)
}

/**
 * The parts of Python's `str` that the pipeline relies on, restricted to
 * ASCII: `isspace`, `strip`, `lower`, the `in` operator on strings,
 * `startswith`, `find`, `rfind`, `split()`, `splitlines()`, `join` and `int()`.
 */
module Text {
  import opened Wrappers

  /** Python's `str.isspace` on one ASCII character (0x1C-0x1F are line/record separators). */
  predicate IsSpace(c: char) {
    c == ' ' || c == '\t' || c == '\n' || c == '\r' || c == '\U{000B}' || c == '\U{000C}'
    || ('\U{001C}' <= c <= '\U{001F}')
  }

  predicate NoSpace(s: string) {
    forall i :: 0 <= i < |s| ==> !IsSpace(s[i])
  }

  predicate AllSpace(s: string) {
    forall i :: 0 <= i < |s| ==> IsSpace(s[i])
  }

  function TrimLeft(s: string): (r: string)
    ensures |r| <= |s| && r == s[|s| - |r|..]
    ensures AllSpace(s[..|s| - |r|])
    ensures r != [] ==> !IsSpace(r[0])
  {
    if |s| > 0 && IsSpace(s[0]) then TrimLeft(s[1..]) else s
  }

  function TrimRight(s: string): (r: string)
    ensures |r| <= |s| && r == s[..|r|]
    ensures AllSpace(s[|r|..])
    ensures r != [] ==> !IsSpace(r[|r| - 1])
  {
    if |s| > 0 && IsSpace(s[|s| - 1]) then TrimRight(s[..|s| - 1]) else s
  }

  /** `r` is the slice of `s` at `i`, and only whitespace lies before and after it. */
  predicate SliceBetweenSpace(s: string, r: string, i: int) {
    0 <= i && i + |r| <= |s| && r == s[i..i + |r|] && AllSpace(s[..i]) && AllSpace(s[i + |r|..])
  }

  /** Python's `s.strip()`: the longest slice of `s` that neither starts nor ends with whitespace. */
  function Strip(s: string): (r: string)
    ensures SliceBetweenSpace(s, r, |s| - |TrimLeft(s)|)
    ensures r != [] ==> !IsSpace(r[0]) && !IsSpace(r[|r| - 1])
    ensures r == [] <==> AllSpace(s)
  {
    TrimBothSlice(s);
    TrimRight(TrimLeft(s))
  }

  lemma TrimBothSlice(s: string)
    ensures SliceBetweenSpace(s, TrimRight(TrimLeft(s)), |s| - |TrimLeft(s)|)
  {
    var t := TrimLeft(s);
    var r := TrimRight(t);
    var i := |s| - |t|;
    assert s[i..i + |r|] == t[..|r|];
    assert s[i + |r|..] == t[|r|..];
  }

  lemma {:induction false} TrimLeftNoLead(s: string)
    requires s == [] || !IsSpace(s[0])
    ensures TrimLeft(s) == s
  {
  }

  lemma {:induction false} TrimRightNoTrail(s: string)
    requires s == [] || !IsSpace(s[|s| - 1])
    ensures TrimRight(s) == s
  {
  }

  /** Stripping twice is stripping once. */
  lemma {:induction false} StripIdempotent(s: string)
    ensures Strip(Strip(s)) == Strip(s)
  {
    StripFixed(Strip(s));
  }

  /** A text that neither starts nor ends with whitespace is its own strip. */
  lemma {:induction false} StripFixed(r: string)
    requires r == [] || (!IsSpace(r[0]) && !IsSpace(r[|r| - 1]))
    ensures Strip(r) == r
  {
    TrimLeftNoLead(r);
    TrimRightNoTrail(r);
  }

  function LowerChar(c: char): char {
    if 'A' <= c <= 'Z' then (c as int + 32) as char else c
  }

  /** Python's `s.lower()` on ASCII letters. */
  function Lower(s: string): (r: string)
    ensures |r| == |s|
    ensures forall i :: 0 <= i < |s| ==> r[i] == LowerChar(s[i])
  {
    seq(|s|, i requires 0 <= i < |s| => LowerChar(s[i]))
  }

  /** A word of lower-case ASCII letters is its own stripped lower case. */
  lemma LowerStripFixed(s: string)
    requires forall i :: 0 <= i < |s| ==> 'a' <= s[i] <= 'z'
    ensures Lower(Strip(s)) == s
  {
    if s != [] {
      assert !IsSpace(s[0]) && !IsSpace(s[|s| - 1]);
    }
    StripFixed(s);
  }

  /** No whitespace at either end and no upper-case letter. */
  predicate NormalName(r: string) {
    (r != [] ==> !IsSpace(r[0]) && !IsSpace(r[|r| - 1]))
    && forall i :: 0 <= i < |r| ==> !('A' <= r[i] <= 'Z')
  }

  /** The stripped, lowercased text. */
  function StripLower(s: string): (r: string)
    ensures NormalName(r)
    ensures r == Lower(Strip(s))
  {
    var t := Strip(s);
    LowerEdges(t);
    Lower(t)
  }

  /** Lower-casing keeps a stripped text stripped and leaves no upper-case letter. */
  lemma LowerEdges(t: string)
    requires t != [] ==> !IsSpace(t[0]) && !IsSpace(t[|t| - 1])
    ensures NormalName(Lower(t))
  {
    if t != [] {
      assert Lower(t)[0] == LowerChar(t[0]);
      assert Lower(t)[|t| - 1] == LowerChar(t[|t| - 1]);
    }
  }

  /** A text without edge whitespace or upper-case letters is its own stripped lower case. */
  lemma NormalisedText(r: string)
    requires NormalName(r)
    ensures StripLower(r) == r
  {
    StripFixed(r);
    assert Lower(r) == r;
  }

  lemma LowerIdempotent(s: string)
    ensures Lower(Lower(s)) == Lower(s)
  {
  }

  /** Python's `k in t` for strings: `k` occurs as a contiguous substring of `t`. */
  function Contains(t: string, k: string): bool
    decreases |t|
  {
    if |k| > |t| then false
    else if t[..|k|] == k then true
    else Contains(t[1..], k)
  }

  /** `Contains` agrees with "occurs at some position". */
  lemma {:induction false} ContainsAt(t: string, k: string, i: nat)
    requires i + |k| <= |t| && t[i..i + |k|] == k
    ensures Contains(t, k)
  {
    if t[..|k|] != k {
      assert i > 0;
      assert t[1..][i - 1..i - 1 + |k|] == t[i..i + |k|];
      ContainsAt(t[1..], k, i - 1);
    }
  }

  lemma {:induction false} ContainsWitness(t: string, k: string) returns (i: nat)
    requires Contains(t, k)
    ensures i + |k| <= |t| && t[i..i + |k|] == k
    decreases |t|
  {
    if t[..|k|] == k {
      i := 0;
    } else {
      var j := ContainsWitness(t[1..], k);
      assert t[1..][j..j + |k|] == t[j + 1..j + 1 + |k|];
      i := j + 1;
    }
  }

  lemma ContainsSelf(t: string)
    ensures Contains(t, t)
  {
    ContainsAt(t, t, 0);
  }

  /** Python's `any(k in t for k in ks)`. */
  predicate AnyIn(t: string, ks: seq<string>)
    decreases |ks|
  {
    |ks| > 0 && (Contains(t, ks[0]) || AnyIn(t, ks[1..]))
  }

  lemma {:induction false} AnyInIff(t: string, ks: seq<string>)
    ensures AnyIn(t, ks) <==> exists j :: 0 <= j < |ks| && Contains(t, ks[j])
    decreases |ks|
  {
    if |ks| > 0 {
      AnyInIff(t, ks[1..]);
      if AnyIn(t, ks[1..]) {
        var j :| 0 <= j < |ks[1..]| && Contains(t, ks[1..][j]);
        assert Contains(t, ks[j + 1]);
      }
      if exists j :: 0 <= j < |ks| && Contains(t, ks[j]) {
        var j :| 0 <= j < |ks| && Contains(t, ks[j]);
        if j > 0 {
          assert Contains(t, ks[1..][j - 1]);
        }
      }
    }
  }

  /** A named keyword group of a first-match heuristic. */
  datatype Group = Group(name: string, keywords: seq<string>)

  /**
   * The index of the first group with a keyword contained in `t`, or `|gs|`
   * when none has: the order of an `if any(...): return` chain.
   */
  function FirstGroup(t: string, gs: seq<Group>): (i: nat)
    ensures i <= |gs|
    ensures i < |gs| ==> AnyIn(t, gs[i].keywords)
    ensures forall j :: 0 <= j < i ==> !AnyIn(t, gs[j].keywords)
    decreases |gs|
  {
    if |gs| == 0 then 0
    else if AnyIn(t, gs[0].keywords) then 0
    else 1 + FirstGroup(t, gs[1..])
  }

  /** A group that matches, preceded only by groups that do not, is the first match. */
  lemma FirstGroupIs(t: string, gs: seq<Group>, i: nat)
    requires i < |gs| && AnyIn(t, gs[i].keywords)
    requires forall j :: 0 <= j < i ==> !AnyIn(t, gs[j].keywords)
    ensures FirstGroup(t, gs) == i
  {
  }

  predicate StartsWith(s: string, p: string) {
    |p| <= |s| && s[..|p|] == p
  }

  /** `k` occurs in `t` starting at index `j`. */
  predicate OccursAt(t: string, k: string, j: int) {
    0 <= j && j + |k| <= |t| && t[j..j + |k|] == k
  }

  lemma OccursShift(t: string, k: string, j: int)
    requires |t| > 0 && j >= 1
    ensures OccursAt(t, k, j) == OccursAt(t[1..], k, j - 1)
  {
    if j + |k| <= |t| {
      assert t[1..][j - 1..j - 1 + |k|] == t[j..j + |k|];
    }
  }

  /** Python's `t.find(k)`: the first index at which `k` occurs, or None for -1. */
  function Find(t: string, k: string): (r: Option<nat>)
    ensures r.Some? ==> OccursAt(t, k, r.value)
    ensures r.Some? ==> forall j :: 0 <= j < r.value ==> !OccursAt(t, k, j)
    ensures r.None? ==> forall j :: !OccursAt(t, k, j)
    decreases |t|
  {
    if |k| > |t| then None
    else if t[..|k|] == k then Some(0)
    else
      var r := Find(t[1..], k);
      assert forall j :: 1 <= j ==> OccursAt(t, k, j) == OccursAt(t[1..], k, j - 1) by {
        forall j | 1 <= j ensures OccursAt(t, k, j) == OccursAt(t[1..], k, j - 1) { OccursShift(t, k, j); }
      }
      assert !OccursAt(t, k, 0);
      if r.None? then None else Some(r.value + 1)
  }

  /** The first index of character `c` in `s`, or None. */
  function FindChar(s: string, c: char): (r: Option<nat>)
    ensures r.Some? ==> r.value < |s| && s[r.value] == c && forall j :: 0 <= j < r.value ==> s[j] != c
    ensures r.None? ==> c !in s
  {
    if s == [] then None
    else if s[0] == c then Some(0)
    else
      var r := FindChar(s[1..], c);
      if r.None? then None else Some(r.value + 1)
  }

  /** Python's `t.rfind(c, lo, hi)` for one character: the last index in [lo, hi) holding `c`. */
  function RFindChar(t: string, c: char, lo: int, hi: int): (r: Option<nat>)
    requires 0 <= lo && hi <= |t|
    ensures r.Some? ==> lo <= r.value < hi && t[r.value] == c
    ensures r.Some? ==> forall j :: r.value < j < hi ==> t[j] != c
    ensures r.None? ==> forall j :: lo <= j < hi ==> t[j] != c
    decreases hi - lo
  {
    if hi <= lo then None
    else if t[hi - 1] == c then Some(hi - 1)
    else RFindChar(t, c, lo, hi - 1)
  }

  /** The maximal prefix of `s` without whitespace. */
  function TakeWord(s: string): (r: string)
    ensures |r| <= |s| && r == s[..|r|]
    ensures NoSpace(r)
    ensures |r| < |s| ==> IsSpace(s[|r|])
  {
    if |s| == 0 || IsSpace(s[0]) then [] else [s[0]] + TakeWord(s[1..])
  }

  /** Python's `s.split()` with no argument: the whitespace-separated, non-empty tokens. */
  function Words(s: string): (ws: seq<string>)
    ensures forall i :: 0 <= i < |ws| ==> ws[i] != [] && NoSpace(ws[i])
    decreases |s|
  {
    if s == [] then []
    else if IsSpace(s[0]) then Words(s[1..])
    else
      var w := TakeWord(s);
      [w] + Words(s[|w|..])
  }

  /** A single run of non-whitespace is one word. */
  lemma {:induction false} WordsOfWord(w: string)
    requires w != [] && NoSpace(w)
    ensures Words(w) == [w]
  {
    TakeWordAll(w);
    assert w[|w|..] == [];
  }

  lemma {:induction false} TakeWordAll(w: string)
    requires NoSpace(w)
    ensures TakeWord(w) == w
    decreases |w|
  {
    if w != [] {
      TakeWordAll(w[1..]);
    }
  }

  /** The first word of `a + [c] + b`, with `c` whitespace, lies in `a`. */
  lemma {:induction false} TakeWordBeforeSpace(a: string, c: char, b: string)
    requires IsSpace(c)
    ensures TakeWord(a + [c] + b) == TakeWord(a)
    decreases |a|
  {
    if a == [] {
      assert (a + [c] + b)[0] == c;
    } else if !IsSpace(a[0]) {
      assert (a + [c] + b)[1..] == a[1..] + [c] + b;
      TakeWordBeforeSpace(a[1..], c, b);
    }
  }

  /** Splitting at a whitespace character splits the words: `split()` reads the input's runs in order. */
  lemma {:induction false} WordsSplitAtSpace(a: string, c: char, b: string)
    requires IsSpace(c)
    ensures Words(a + [c] + b) == Words(a) + Words(b)
    decreases |a|
  {
    var s := a + [c] + b;
    if a == [] {
      assert s[1..] == b;
    } else if IsSpace(a[0]) {
      assert s[1..] == a[1..] + [c] + b;
      WordsSplitAtSpace(a[1..], c, b);
    } else {
      var w := TakeWord(s);
      TakeWordBeforeSpace(a, c, b);
      assert s[|w|..] == a[|w|..] + [c] + b;
      WordsSplitAtSpace(a[|w|..], c, b);
    }
  }

  lemma {:induction false} WordsOfSpace(s: string)
    requires AllSpace(s)
    ensures Words(s) == []
  {
    if s != [] {
      WordsOfSpace(s[1..]);
    }
  }

  /** Python's `s.splitlines()` with '\n' as the only line boundary. */
  function Lines(s: string): (ls: seq<string>)
    ensures forall i :: 0 <= i < |ls| ==> '\n' !in ls[i]
    ensures s == [] <==> ls == []
    decreases |s|
  {
    if s == [] then []
    else
      match FindChar(s, '\n')
      case None => [s]
      case Some(i) => [s[..i]] + Lines(s[i + 1..])
  }

  /** Joining the lines with '\n' gives the text back, less one final newline. */
  lemma {:induction false} LinesJoin(s: string)
    ensures s != [] && s[|s| - 1] == '\n' ==> Join("\n", Lines(s)) + "\n" == s
    ensures !(s != [] && s[|s| - 1] == '\n') ==> Join("\n", Lines(s)) == s
    decreases |s|
  {
    if s != [] {
      match FindChar(s, '\n')
      case None =>
        assert s[|s| - 1] in s;
      case Some(i) =>
        var t := s[i + 1..];
        assert s == s[..i] + "\n" + t;
        LinesJoin(t);
        if t != [] {
          assert Lines(t) != [];
          assert Join("\n", Lines(s)) == s[..i] + "\n" + Join("\n", Lines(t));
          assert s[|s| - 1] == t[|t| - 1];
        }
    }
  }

  /** Python's `sep.join(parts)`. */
  function Join(sep: string, parts: seq<string>): string
  {
    if |parts| == 0 then []
    else if |parts| == 1 then parts[0]
    else parts[0] + sep + Join(sep, parts[1..])
  }

  predicate IsDigit(c: char) { '0' <= c <= '9' }

  predicate AllDigits(s: string) {
    forall i :: 0 <= i < |s| ==> IsDigit(s[i])
  }

  /** The value of a string of decimal digits (leading zeros allowed). */
  function DigitsValue(s: string): (n: nat)
    requires AllDigits(s)
  {
    if s == [] then 0 else 10 * DigitsValue(s[..|s| - 1]) + (s[|s| - 1] as int - '0' as int)
  }

  /**
   * Python's `int(s)` on a string: optional surrounding whitespace, an optional
   * sign and at least one decimal digit; anything else raises (None here).
   */
  function ParseInt(s: string): (r: Option<int>)
  {
    var t := Strip(s);
    if |t| > 0 && (t[0] == '+' || t[0] == '-') then
      var d := t[1..];
      if d != [] && AllDigits(d) then
        var v: int := DigitsValue(d);
        Some(if t[0] == '-' then -v else v)
      else None
    else if t != [] && AllDigits(t) then Some(DigitsValue(t))
    else None
  }

  /** The decimal digits of `n`, most significant first, without leading zeros. */
  function NatToDigits(n: nat): (s: string)
    ensures s != [] && AllDigits(s) && DigitsValue(s) == n
    ensures n >= 10 ==> |s| >= 2
    decreases n
  {
    var last := ['0' + (n % 10) as char];
    if n < 10 then last
    else
      var prefix := NatToDigits(n / 10);
      var s := prefix + last;
      assert s[..|s| - 1] == prefix;
      s
  }

  /** A signed decimal integer, as Python prints it. */
  function IntText(i: int): string {
    if i < 0 then "-" + NatToDigits(-i) else NatToDigits(i)
  }

  /** Python's `f"{n:03d}"` for a natural number: its digits, zero-padded on the left to width 3. */
  function Pad3(n: nat): (s: string)
    ensures AllDigits(s) && DigitsValue(s) == n
    ensures |s| == if |NatToDigits(n)| < 3 then 3 else |NatToDigits(n)|
    ensures s[|s| - |NatToDigits(n)|..] == NatToDigits(n)
    ensures forall i :: 0 <= i < |s| - |NatToDigits(n)| ==> s[i] == '0'
  {
    var d := NatToDigits(n);
    var zeros := seq(if |d| < 3 then 3 - |d| else 0, _ => '0');
    LeadingZeros(zeros, d);
    zeros + d
  }

  lemma {:induction false} LeadingZeros(zeros: string, d: string)
    requires forall i :: 0 <= i < |zeros| ==> zeros[i] == '0'
    requires AllDigits(d)
    ensures AllDigits(zeros + d) && DigitsValue(zeros + d) == DigitsValue(d)
    decreases |d|
  {
    var s := zeros + d;
    if d == [] {
      ZerosValue(zeros);
      assert s == zeros;
    } else {
      assert s[..|s| - 1] == zeros + d[..|d| - 1];
      LeadingZeros(zeros, d[..|d| - 1]);
    }
  }

  lemma {:induction false} ZerosValue(zeros: string)
    requires forall i :: 0 <= i < |zeros| ==> zeros[i] == '0'
    ensures AllDigits(zeros) && DigitsValue(zeros) == 0
  {
    if zeros != [] {
      ZerosValue(zeros[..|zeros| - 1]);
    }
  }

  /** `int()` reads back a number printed with `Pad3`. */
  lemma ParsePad3(n: nat)
    ensures ParseInt(Pad3(n)) == Some(n)
  {
    ParseDigits(Pad3(n));
  }

  /** `int()` of a non-empty string of digits is its decimal value. */
  lemma ParseDigits(s: string)
    requires s != [] && AllDigits(s)
    ensures ParseInt(s) == Some(DigitsValue(s))
  {
    assert IsDigit(s[0]) && IsDigit(s[|s| - 1]);
    StripFixed(s);
  }
}

/**
 * JSON-like values as the pipeline passes them around (parsed LLM output,
 * parameters, contexts), with Python's truthiness, `dict.get`, `or` and `==`.
 */
module Json {
  import opened Wrappers
  import Text

  datatype Json =
    | JNull
    | JBool(b: bool)
    | JInt(i: int)
    | JReal(r: real)
    | JStr(s: string)
    | JList(items: seq<Json>)
    | JObj(fields: map<string, Json>)

  type Obj = map<string, Json>

  /** Python's `bool(v)`. */
  predicate Truthy(v: Json) {
    match v
    case JNull => false
    case JBool(b) => b
    case JInt(i) => i != 0
    case JReal(r) => r != 0.0
    case JStr(s) => s != []
    case JList(xs) => xs != []
    case JObj(m) => m != map[]
  }

  /** Python's `d.get(k)`: the value under `k`, or None. */
  function Get(d: Obj, k: string): (v: Json)
    ensures k !in d ==> v == JNull
    ensures k in d ==> v == d[k]
  {
    if k in d then d[k] else JNull
  }

  /** Python's `d.get(k, default)`. */
  function GetOr(d: Obj, k: string, default: Json): Json {
    if k in d then d[k] else default
  }

  /** Python's `a or b`. */
  function Or(a: Json, b: Json): (v: Json)
    ensures Truthy(a) ==> v == a
    ensures !Truthy(a) ==> v == b
  {
    if Truthy(a) then a else b
  }

  /** The numeric value of a bool, int or float (Python compares these across types). */
  function Num(v: Json): Option<real> {
    match v
    case JBool(b) => Some(if b then 1.0 else 0.0)
    case JInt(i) => Some(i as real)
    case JReal(r) => Some(r)
    case _ => None
  }

  /** Python's `a == b` on JSON values: numbers compare by value, containers element by element. */
  predicate PyEq(a: Json, b: Json)
    decreases a
  {
    if Num(a).Some? || Num(b).Some? then Num(a) == Num(b)
    else match a
      case JList(xs) =>
        b.JList? && |xs| == |b.items|
        && forall i :: 0 <= i < |xs| ==> PyEq(xs[i], b.items[i])
      case JObj(m) =>
        b.JObj? && m.Keys == b.fields.Keys
        && forall k :: k in m ==> PyEq(m[k], b.fields[k])
      case _ => a == b
  }

  lemma {:induction false} PyEqRefl(a: Json)
    ensures PyEq(a, a)
    decreases a
  {
    match a
    case JList(xs) =>
      forall i | 0 <= i < |xs| ensures PyEq(xs[i], xs[i]) { PyEqRefl(xs[i]); }
    case JObj(m) =>
      forall k | k in m ensures PyEq(m[k], m[k]) { PyEqRefl(m[k]); }
    case _ =>
  }

  lemma {:induction false} PyEqSym(a: Json, b: Json)
    requires PyEq(a, b)
    ensures PyEq(b, a)
    decreases a
  {
    if Num(a).None? && Num(b).None? {
      match a
      case JList(xs) =>
        forall i | 0 <= i < |xs| ensures PyEq(b.items[i], xs[i]) { PyEqSym(xs[i], b.items[i]); }
      case JObj(m) =>
        forall k | k in b.fields ensures PyEq(b.fields[k], m[k]) { PyEqSym(m[k], b.fields[k]); }
      case _ =>
    }
  }

  /** Python's `x in container`, or the TypeError it raises. */
  function PyIn(x: Json, container: Json): Result<bool> {
    match container
    case JStr(t) => if x.JStr? then Ok(Text.Contains(t, x.s)) else Err("TypeError: 'in <string>' requires string as left operand")
    case JList(items) => Ok(exists i :: 0 <= i < |items| && PyEq(x, items[i]))
    case JObj(fields) =>
      if x.JStr? then Ok(x.s in fields)
      else if x.JList? || x.JObj? then Err("TypeError: unhashable type")
      else Ok(false)
    case _ => Err("TypeError: argument is not iterable")
  }

  /** A string or None: the values Python code that calls `.strip()` on a field, after `or`, accepts. */
  predicate StrOrFalsy(v: Json) {
    v.JStr? || !Truthy(v)
  }
}

/**
 * Python's stable `sort(key=..., reverse=True)` on integer keys, as an
 * insertion sort on values.
 */
module Ordering {
  /** Keys never increase along the sequence. */
  predicate SortedDesc<T>(s: seq<T>, key: T -> int) {
    forall i, j :: 0 <= i < j < |s| ==> key(s[i]) >= key(s[j])
  }

  /** Put `x` before the first element whose key is not larger than its own. */
  function InsertDesc<T>(x: T, s: seq<T>, key: T -> int): (r: seq<T>)
    requires SortedDesc(s, key)
    ensures SortedDesc(r, key)
    ensures multiset(r) == multiset(s) + multiset{x}
    ensures |r| == |s| + 1
    decreases |s|
  {
    if s == [] || key(s[0]) <= key(x) then [x] + s
    else
      var rest := InsertDesc(x, s[1..], key);
      assert s == [s[0]] + s[1..];
      InsertedBelowHead(x, s, key, rest);
      [s[0]] + rest
  }

  /** What is inserted into the tail of `s` stays below the head when `x` does. */
  lemma InsertedBelowHead<T>(x: T, s: seq<T>, key: T -> int, rest: seq<T>)
    requires SortedDesc(s, key) && s != [] && key(s[0]) > key(x)
    requires multiset(rest) == multiset(s[1..]) + multiset{x}
    ensures forall i :: 0 <= i < |rest| ==> key(rest[i]) <= key(s[0])
  {
    forall i | 0 <= i < |rest|
      ensures key(rest[i]) <= key(s[0])
    {
      assert rest[i] in multiset(rest);
      if rest[i] != x {
        assert rest[i] in multiset(s[1..]);
        var j :| 0 <= j < |s[1..]| && s[1..][j] == rest[i];
        assert s[j + 1] == rest[i];
      }
    }
  }

  /** The elements of `s`, by key, largest first. */
  function SortDesc<T>(s: seq<T>, key: T -> int): (r: seq<T>)
    ensures SortedDesc(r, key)
    ensures multiset(r) == multiset(s)
    ensures |r| == |s|
    decreases |s|
  {
    if s == [] then []
    else
      assert s == [s[0]] + s[1..];
      InsertDesc(s[0], SortDesc(s[1..], key), key)
  }

  /** The first element of a non-empty descending sequence has the largest key. */
  lemma FirstIsLargest<T>(s: seq<T>, key: T -> int, y: T)
    requires SortedDesc(s, key) && y in s
    ensures key(s[0]) >= key(y)
  {
    var j :| 0 <= j < |s| && s[j] == y;
    if j > 0 {
      assert key(s[0]) >= key(s[j]);
    }
  }
}
