/**
 * Text cleaning for embedding: character normalisation, header and footer
 * removal, signature removal, and chunking into pieces of bounded size.
 * Unicode NFKC normalisation is a parameter; character classes are ASCII.
 */
module Cleaning {
  import opened Wrappers
  import opened Text

  // ---------------------------------------------------------------------------
  // Part A: normalisation
  // ---------------------------------------------------------------------------

  /** The regex class `[\x00-\x1F\x7F]`. */
  predicate IsControl(c: char) {
    c <= '\U{001F}' || c == '\U{007F}'
  }

  /** The regex class `[ \t]`. */
  predicate IsBlank(c: char) {
    c == ' ' || c == '\t'
  }

  /** `re.sub(r"[\x00-\x1F\x7F]", " ", s)`, optionally sparing '\n'. */
  function ControlsToSpaces(s: string, keepNewlines: bool): (r: string)
    ensures |r| == |s|
    ensures forall i :: 0 <= i < |s| ==> r[i] == (if IsControl(s[i]) && !(keepNewlines && s[i] == '\n') then ' ' else s[i])
  {
    seq(|s|, i requires 0 <= i < |s| => if IsControl(s[i]) && !(keepNewlines && s[i] == '\n') then ' ' else s[i])
  }

  /** The suffix after the leading blanks. */
  function DropBlanks(s: string): (r: string)
    ensures |r| <= |s|
    ensures r != [] ==> !IsBlank(r[0])
  {
    if s != [] && IsBlank(s[0]) then DropBlanks(s[1..]) else s
  }

  /** What is left is a suffix of the text. */
  lemma {:induction false} DropBlanksSuffix(s: string)
    ensures DropBlanks(s) == s[|s| - |DropBlanks(s)|..]
    decreases |s|
  {
    if s != [] && IsBlank(s[0]) {
      DropBlanksSuffix(s[1..]);
      assert s[1..][|s| - 1 - |DropBlanks(s)|..] == s[|s| - |DropBlanks(s)|..];
    }
  }

  /** No two blanks in a row and no tab. */
  predicate Squeezed(r: string) {
    (forall i :: 0 <= i < |r| ==> r[i] != '\t')
    && forall i :: 0 <= i < |r| - 1 ==> !(r[i] == ' ' && r[i + 1] == ' ')
  }

  /** The characters of `s` other than blanks, in order. */
  function NonBlanks(s: string): string
    decreases |s|
  {
    if s == [] then [] else (if IsBlank(s[0]) then [] else [s[0]]) + NonBlanks(s[1..])
  }

  /** `re.sub(r"[ \t]+", " ", s)`. */
  function SqueezeBlanks(s: string): (r: string)
    ensures r == [] <==> s == []
    ensures r != [] ==> (IsBlank(r[0]) <==> IsBlank(s[0]))
    ensures Squeezed(r)
    ensures forall c :: c in r ==> c == ' ' || c in s
    ensures NonBlanks(r) == NonBlanks(s)
    decreases |s|
  {
    if s == [] then []
    else if IsBlank(s[0]) then
      var rest := DropBlanks(s);
      DropBlanksSuffix(s);
      assert forall c :: c in rest ==> c in s;
      DropBlanksNonBlanks(s);
      [' '] + SqueezeBlanks(rest)
    else
      assert forall c :: c in s[1..] ==> c in s;
      [s[0]] + SqueezeBlanks(s[1..])
  }

  /** Dropping leading blanks keeps every other character. */
  lemma {:induction false} DropBlanksNonBlanks(s: string)
    ensures NonBlanks(DropBlanks(s)) == NonBlanks(s)
    decreases |s|
  {
    if s != [] && IsBlank(s[0]) {
      DropBlanksNonBlanks(s[1..]);
    }
  }

  /** Leading blanks of `a` followed by a non-blank are dropped within `a`. */
  lemma {:induction false} DropBlanksBefore(a: string, c: char, b: string)
    requires !IsBlank(c)
    ensures DropBlanks(a + [c] + b) == DropBlanks(a) + [c] + b
    decreases |a|
  {
    if a == [] {
      assert (a + [c] + b)[0] == c;
    } else if IsBlank(a[0]) {
      assert (a + [c] + b)[1..] == a[1..] + [c] + b;
      DropBlanksBefore(a[1..], c, b);
    }
  }

  /** Squeezing splits at every non-blank character: only the blank runs between them change. */
  lemma {:induction false} SqueezeSplit(a: string, c: char, b: string)
    requires !IsBlank(c)
    ensures SqueezeBlanks(a + [c] + b) == SqueezeBlanks(a) + [c] + SqueezeBlanks(b)
    decreases |a|
  {
    var s := a + [c] + b;
    if a == [] {
      assert s[0] == c && s[1..] == b;
    } else if IsBlank(a[0]) {
      DropBlanksBefore(a, c, b);
      assert s[0] == a[0];
      SqueezeSplit(DropBlanks(a), c, b);
    } else {
      SlicesAround(a, c, b, 1);
      assert s[0] == a[0];
      SqueezeSplit(a[1..], c, b);
    }
  }

  /** A non-empty run of blanks becomes one space. */
  lemma {:induction false} SqueezeRun(s: string)
    requires s != [] && forall i :: 0 <= i < |s| ==> IsBlank(s[i])
    ensures SqueezeBlanks(s) == " "
  {
    BlanksDropped(s);
  }

  lemma {:induction false} BlanksDropped(s: string)
    requires forall i :: 0 <= i < |s| ==> IsBlank(s[i])
    ensures DropBlanks(s) == []
    decreases |s|
  {
    if s != [] {
      BlanksDropped(s[1..]);
    }
  }

  /** The length of the run of '\n' at the front. */
  function NewlineRun(s: string): (n: nat)
    ensures n <= |s|
    ensures n < |s| ==> s[n] != '\n'
  {
    if s != [] && s[0] == '\n' then 1 + NewlineRun(s[1..]) else 0
  }

  /** No three newlines in a row. */
  predicate NoTripleNewline(r: string) {
    forall i :: 0 <= i < |r| - 2 ==> !(r[i] == '\n' && r[i + 1] == '\n' && r[i + 2] == '\n')
  }

  /** `re.sub(r"\n{3,}", "\n\n", s)`: every run of three or more newlines becomes two. */
  function CollapseNewlines(s: string): string
    decreases |s|
  {
    if s == [] then []
    else if s[0] == '\n' then
      var k := NewlineRun(s);
      (if k >= 3 then "\n\n" else s[..k]) + CollapseNewlines(s[k..])
    else [s[0]] + CollapseNewlines(s[1..])
  }

  /** A run of newlines in front of another character ends within the run. */
  lemma {:induction false} NewlineRunBefore(a: string, c: char, b: string)
    requires c != '\n'
    ensures NewlineRun(a + [c] + b) == NewlineRun(a)
    decreases |a|
  {
    if a == [] {
      assert (a + [c] + b)[0] == c;
    } else if a[0] == '\n' {
      assert (a + [c] + b)[1..] == a[1..] + [c] + b;
      NewlineRunBefore(a[1..], c, b);
    }
  }

  /** The collapse splits at every character other than a newline: only the newline runs between them change. */
  lemma {:induction false} CollapseSplit(a: string, c: char, b: string)
    requires c != '\n'
    ensures CollapseNewlines(a + [c] + b) == CollapseNewlines(a) + [c] + CollapseNewlines(b)
    decreases |a|
  {
    if a == [] {
      var s := a + [c] + b;
      assert s[0] == c && s[1..] == b;
    } else if a[0] == '\n' {
      CollapseSplit(a[NewlineRun(a)..], c, b);
      CollapseSplitRun(a, c, b);
    } else {
      CollapseSplit(a[1..], c, b);
      CollapseSplitChar(a, c, b);
    }
  }

  /** The step of `CollapseSplit` over a leading newline run. */
  lemma {:induction false} CollapseSplitRun(a: string, c: char, b: string)
    requires c != '\n' && a != [] && a[0] == '\n'
    requires CollapseNewlines(a[NewlineRun(a)..] + [c] + b)
             == CollapseNewlines(a[NewlineRun(a)..]) + [c] + CollapseNewlines(b)
    ensures CollapseNewlines(a + [c] + b) == CollapseNewlines(a) + [c] + CollapseNewlines(b)
  {
    var s := a + [c] + b;
    var k := NewlineRun(a);
    NewlineRunBefore(a, c, b);
    SlicesAround(a, c, b, k);
    CollapseUnfold(s);
    CollapseUnfold(a);
  }

  /** Cutting `a + [c] + b` inside `a`. */
  lemma SlicesAround(a: string, c: char, b: string, k: nat)
    requires k <= |a|
    ensures (a + [c] + b)[..k] == a[..k]
    ensures (a + [c] + b)[k..] == a[k..] + [c] + b
  {
  }

  /** The step of `CollapseSplit` over a leading character other than a newline. */
  lemma {:induction false} CollapseSplitChar(a: string, c: char, b: string)
    requires a != [] && a[0] != '\n'
    requires CollapseNewlines(a[1..] + [c] + b) == CollapseNewlines(a[1..]) + [c] + CollapseNewlines(b)
    ensures CollapseNewlines(a + [c] + b) == CollapseNewlines(a) + [c] + CollapseNewlines(b)
  {
    SlicesAround(a, c, b, 1);
    assert (a + [c] + b)[0] == a[0];
  }

  lemma {:induction false} CollapseUnfold(s: string)
    requires s != [] && s[0] == '\n'
    ensures CollapseNewlines(s) ==
              (if NewlineRun(s) >= 3 then "\n\n" else s[..NewlineRun(s)]) + CollapseNewlines(s[NewlineRun(s)..])
  {
  }

  /** A run of three or more newlines becomes two; a shorter run stays. */
  lemma CollapseRun(s: string)
    requires forall i :: 0 <= i < |s| ==> s[i] == '\n'
    ensures CollapseNewlines(s) == if |s| >= 3 then "\n\n" else s
  {
    if s != [] {
      AllNewlines(s);
      assert s[|s|..] == [];
      assert s[..|s|] == s;
    }
  }

  lemma {:induction false} AllNewlines(s: string)
    requires forall i :: 0 <= i < |s| ==> s[i] == '\n'
    ensures NewlineRun(s) == |s|
    decreases |s|
  {
    if s != [] {
      AllNewlines(s[1..]);
    }
  }

  /** The collapse is empty only for the empty text, and starts with a newline exactly when the text does. */
  lemma CollapseFirst(s: string)
    ensures CollapseNewlines(s) == [] <==> s == []
    ensures CollapseNewlines(s) != [] ==> (CollapseNewlines(s)[0] == '\n' <==> s[0] == '\n')
  {
  }

  /** The collapse only drops characters: each one it keeps comes from the text. */
  lemma {:induction false} CollapseChars(s: string)
    ensures forall c :: c in CollapseNewlines(s) ==> c in s
    decreases |s|
  {
    if s != [] {
      var k := if s[0] == '\n' then NewlineRun(s) else 1;
      CollapseChars(s[k..]);
      assert forall c :: c in s[k..] ==> c in s;
      assert forall c :: c in s[..k] ==> c in s;
      if s[0] == '\n' && k >= 3 {
        assert s[0] == '\n' && s[0] in s;
      }
    }
  }

  /** After the collapse no three newlines follow each other. */
  lemma {:induction false} CollapseNoTriple(s: string)
    ensures NoTripleNewline(CollapseNewlines(s))
    decreases |s|
  {
    if s != [] {
      var k := if s[0] == '\n' then NewlineRun(s) else 1;
      CollapseNoTriple(s[k..]);
      CollapseFirst(s[k..]);
      var head := if s[0] != '\n' then [s[0]] else if k >= 3 then "\n\n" else s[..k];
      RunThenText(head, CollapseNewlines(s[k..]));
    }
  }

  /**
   * At most two characters, newlines only if followed by a text that does
   * not start with one, in front of a text without three newlines in a row.
   */
  lemma RunThenText(head: string, tail: string)
    requires |head| <= 2 && NoTripleNewline(tail)
    requires tail != [] && tail[0] == '\n' ==> forall i :: 0 <= i < |head| ==> head[i] != '\n'
    ensures NoTripleNewline(head + tail)
  {
    var r := head + tail;
    forall i | 0 <= i < |r| - 2 ensures !(r[i] == '\n' && r[i + 1] == '\n' && r[i + 2] == '\n') {
      if i >= |head| {
        assert r[i] == tail[i - |head|] && r[i + 1] == tail[i - |head| + 1] && r[i + 2] == tail[i - |head| + 2];
      } else if tail != [] && tail[0] == '\n' {
        assert r[i] == head[i];
      } else {
        assert r[|head|] == tail[0];
      }
    }
  }

  /** Only characters of the given class: no control character except, when `keepNewlines`, '\n'. */
  predicate NoControl(s: string, keepNewlines: bool) {
    forall c :: c in s ==> !IsControl(c) || (keepNewlines && c == '\n')
  }

  lemma ControlsReplaced(s: string, keepNewlines: bool)
    ensures NoControl(ControlsToSpaces(s, keepNewlines), keepNewlines)
  {
    var r := ControlsToSpaces(s, keepNewlines);
    forall c | c in r ensures !IsControl(c) || (keepNewlines && c == '\n') {
      var i :| 0 <= i < |r| && r[i] == c;
    }
  }

  /** Stripping keeps a slice of its input. */
  lemma StripSlice(s: string) returns (lo: nat)
    ensures lo + |Strip(s)| <= |s| && forall i :: 0 <= i < |Strip(s)| ==> Strip(s)[i] == s[lo + i]
  {
    lo := |s| - |TrimLeft(s)|;
    var l := TrimLeft(s);
    var r := TrimRight(l);
    assert l == s[lo..];
    forall i | 0 <= i < |r| ensures r[i] == s[lo + i] {
      assert r[i] == l[i];
    }
  }

  lemma StripKeepsShape(s: string, keepNewlines: bool)
    requires NoControl(s, keepNewlines) && NoTripleNewline(s)
    ensures NoControl(Strip(s), keepNewlines) && NoTripleNewline(Strip(s))
  {
    var lo := StripSlice(s);
    var r := Strip(s);
    assert NoControl(r, keepNewlines) by {
      forall c | c in r ensures c in s {
        var i :| 0 <= i < |r| && r[i] == c;
        assert c == s[lo + i];
      }
    }
    assert NoTripleNewline(r) by {
      forall i | 0 <= i < |r| - 2 ensures !(r[i] == '\n' && r[i + 1] == '\n' && r[i + 2] == '\n') {
        assert r[i] == s[lo + i] && r[i + 1] == s[lo + i + 1] && r[i + 2] == s[lo + i + 2];
      }
    }
  }

  /** The normalisation steps after NFKC; `keepNewlines` picks the control class. */
  function Normalize(raw: string, nfkc: string -> string, keepNewlines: bool): string {
    if raw == [] then []
    else Strip(CollapseNewlines(SqueezeBlanks(ControlsToSpaces(nfkc(raw), keepNewlines))))
  }

  /** Every step keeps the control class, and the newline collapse leaves no run of three. */
  lemma {:induction false} NormalizeShape(raw: string, nfkc: string -> string, keepNewlines: bool)
    ensures NoControl(Normalize(raw, nfkc, keepNewlines), keepNewlines)
    ensures NoTripleNewline(Normalize(raw, nfkc, keepNewlines))
  {
    if raw != [] {
      var a := ControlsToSpaces(nfkc(raw), keepNewlines);
      ControlsReplaced(nfkc(raw), keepNewlines);
      var b := SqueezeBlanks(a);
      assert NoControl(b, keepNewlines);
      var c := CollapseNewlines(b);
      CollapseChars(b);
      CollapseNoTriple(b);
      assert NoControl(c, keepNewlines);
      StripKeepsShape(c, keepNewlines);
    }
  }

  /** `normalize_text` as written: '\n' is inside `[\x00-\x1F]`, so it is replaced too. */
  function NormalizeTextAsWritten(raw: string, nfkc: string -> string): string {
    Normalize(raw, nfkc, false)
  }

  /** `normalize_text` sparing '\n', so that the newline collapse has newlines to act on. */
  function NormalizeText(raw: string, nfkc: string -> string): string {
    Normalize(raw, nfkc, true)
  }

  /** As written, no newline survives normalisation, nor does any other control character. */
  lemma NormalizeAsWrittenDropsNewlines(raw: string, nfkc: string -> string)
    ensures forall c :: c in NormalizeTextAsWritten(raw, nfkc) ==> !IsControl(c)
    ensures '\n' !in NormalizeTextAsWritten(raw, nfkc)
  {
    NormalizeShape(raw, nfkc, false);
  }

  /** Sparing '\n': the only control character left is '\n', and never three in a row. */
  lemma NormalizeTextShape(raw: string, nfkc: string -> string)
    ensures forall c :: c in NormalizeText(raw, nfkc) ==> !IsControl(c) || c == '\n'
    ensures NoTripleNewline(NormalizeText(raw, nfkc))
  {
    NormalizeShape(raw, nfkc, true);
  }

  // ---------------------------------------------------------------------------
  // Part B: headers and footers
  // ---------------------------------------------------------------------------

  /** The number of leading decimal digits. */
  function DigitRun(s: string): (n: nat)
    ensures n <= |s|
    ensures forall i :: 0 <= i < n ==> IsDigit(s[i])
    ensures n < |s| ==> !IsDigit(s[n])
  {
    if s != [] && IsDigit(s[0]) then 1 + DigitRun(s[1..]) else 0
  }

  const Page := "page"
  const Of := "of"

  /** `\s*of\s*\d+$` on what follows the page number. */
  predicate OfTotal(b: string) {
    var c := TrimLeft(b);
    StartsWith(c, Of) && (var e := TrimLeft(c[|Of|..]); var d := DigitRun(e); d > 0 && d == |e|)
  }

  /** `re.match(r"^page\s*\d+(\s*of\s*\d+)?$", l, re.IGNORECASE)`. */
  predicate IsPageNumber(l: string) {
    var t := Lower(l);
    StartsWith(t, Page)
    && (var a := TrimLeft(t[|Page|..]); var d := DigitRun(a); d > 0 && (d == |a| || OfTotal(a[d..])))
  }

  const Confidential := "confidential"
  const Draft := "draft"
  const DocumentId := "document id"

  /** Shorter than 40 characters and mentioning confidential, draft or document id, in any case. */
  predicate IsShortHeader(l: string) {
    |l| < 40 && (Contains(Lower(l), Confidential) || Contains(Lower(l), Draft) || Contains(Lower(l), DocumentId))
  }

  /** What one line contributes: "" for a blank line, nothing for page numbers and short headers, else the stripped line. */
  function KeepLine(line: string): Option<string> {
    var l := Strip(line);
    if l == [] then Some([])
    else if IsPageNumber(l) then None
    else if IsShortHeader(l) then None
    else Some(l)
  }

  /** The `cleaned` list after the given lines. */
  function CleanedLines(ls: seq<string>): seq<string>
    decreases |ls|
  {
    if ls == [] then []
    else
      var init := CleanedLines(ls[..|ls| - 1]);
      match KeepLine(ls[|ls| - 1])
      case Some(l) => init + [l]
      case None => init
  }

  /** `remove_headers_and_footers` on a whole text. */
  function HeadersRemoved(text: string): string {
    if text == [] then [] else Join("\n", CleanedLines(Lines(text)))
  }

  /** `remove_headers_and_footers`: one pass over the lines, appending what is kept. */
  method RemoveHeadersAndFooters(text: string) returns (r: string)
    ensures r == HeadersRemoved(text)
  {
    if text == [] {
      return [];
    }
    var lines := Lines(text);
    var cleaned: seq<string> := [];
    for i := 0 to |lines|
      invariant cleaned == CleanedLines(lines[..i])
    {
      assert lines[..i + 1][..i] == lines[..i];
      var stripped := Strip(lines[i]);
      if stripped == [] {
        cleaned := cleaned + [[]];
        continue;
      }
      if IsPageNumber(stripped) {
        continue;
      }
      if IsShortHeader(stripped) {
        continue;
      }
      cleaned := cleaned + [stripped];
    }
    assert lines[..|lines|] == lines;
    r := Join("\n", cleaned);
  }

  /** A line the filter removes: a page number or a short header once stripped. */
  predicate Dropped(line: string) {
    Strip(line) != [] && (IsPageNumber(Strip(line)) || IsShortHeader(Strip(line)))
  }

  /** What may appear in the output: a blank line, or a stripped line that is neither a page number nor a short header. */
  predicate CleanLine(l: string) {
    l == [] || (Strip(l) == l && !IsPageNumber(l) && !IsShortHeader(l))
  }

  lemma KeepLineClean(line: string)
    ensures KeepLine(line).Some? ==> CleanLine(KeepLine(line).value)
    ensures KeepLine(line).None? <==> Dropped(line)
  {
    StripIdempotent(line);
  }

  /** Every kept line is clean, and no more lines come out than go in. */
  lemma {:induction false} CleanedLinesClean(ls: seq<string>)
    ensures |CleanedLines(ls)| <= |ls|
    ensures forall l :: l in CleanedLines(ls) ==> CleanLine(l)
    decreases |ls|
  {
    if ls != [] {
      CleanedLinesClean(ls[..|ls| - 1]);
      KeepLineClean(ls[|ls| - 1]);
    }
  }

  /** A line the filter passes through as it is. */
  predicate AlreadyClean(line: string) {
    Strip(line) == line && !Dropped(line)
  }

  /** The filter returns a line unchanged exactly when it is already clean. */
  lemma KeepCleanLine(line: string)
    ensures KeepLine(line) == Some(line) <==> AlreadyClean(line)
  {
  }

  /** Lines the filter passes through as they are come out as they went in. */
  lemma {:induction false} CleanedLinesUnchanged(ls: seq<string>)
    requires forall i :: 0 <= i < |ls| ==> KeepLine(ls[i]) == Some(ls[i])
    ensures CleanedLines(ls) == ls
    decreases |ls|
  {
    if ls != [] {
      var init := ls[..|ls| - 1];
      assert forall i :: 0 <= i < |init| ==> init[i] == ls[i];
      CleanedLinesUnchanged(init);
      LastSplit(ls);
    }
  }

  lemma LastSplit(ls: seq<string>)
    requires ls != []
    ensures ls[..|ls| - 1] + [ls[|ls| - 1]] == ls
  {
  }

  // ---------------------------------------------------------------------------
  // Part C: signatures
  // ---------------------------------------------------------------------------

  const BestRegards := "best regards"
  const Sincerely := "sincerely"
  const ConfidentialityNotice := "confidentiality notice"
  const DoNotShare := "do not share"
  const Disclaimer := "disclaimer"

  /** The markers, in the order they are tried. */
  const Markers: seq<string> := [BestRegards, Sincerely, ConfidentialityNotice, DoNotShare, Disclaimer]

  /** `lines[-40:]`. */
  function LastLines(lines: seq<string>): (t: seq<string>)
    ensures |t| <= |lines| && t == lines[|lines| - |t|..]
  {
    if |lines| > 40 then lines[|lines| - 40..] else lines
  }

  /** `lines[:n]` for any integer `n`, negative counting from the end. */
  function SliceTo(lines: seq<string>, n: int): seq<string> {
    if n >= |lines| then lines
    else if n >= 0 then lines[..n]
    else if |lines| + n > 0 then lines[..|lines| + n]
    else []
  }

  /** The first marker, in marker order, that occurs in `low`, with its first position. */
  function FirstMarker(low: string, ms: seq<string>): (r: Option<(string, nat)>)
    ensures r.Some? ==> r.value.1 <= |low|
  {
    if ms == [] then None
    else match Find(low, ms[0])
      case Some(idx) => Some((ms[0], idx))
      case None => FirstMarker(low, ms[1..])
  }

  /** The marker found is the first of the list that occurs, at its first position. */
  lemma {:induction false} FirstMarkerFound(low: string, ms: seq<string>)
    ensures FirstMarker(low, ms).Some? ==>
              FirstMarker(low, ms).value.0 in ms && Find(low, FirstMarker(low, ms).value.0) == Some(FirstMarker(low, ms).value.1)
    ensures FirstMarker(low, ms).None? <==> forall m :: m in ms ==> Find(low, m).None?
  {
    if ms != [] && Find(low, ms[0]).None? {
      FirstMarkerFound(low, ms[1..]);
      assert forall m :: m in ms[1..] ==> m in ms;
      assert forall m :: m in ms ==> m == ms[0] || m in ms[1..];
    }
  }

  /** `"\n".join(lines[-40:])`. */
  function TailText(text: string): string {
    Join("\n", LastLines(Lines(text)))
  }

  /** The first marker found in the lower-cased tail, and where. */
  function Found(text: string): (r: Option<(string, nat)>)
    ensures r.Some? ==> r.value.1 <= |TailText(text)|
  {
    FirstMarker(Lower(TailText(text)), Markers)
  }

  /** `"\n".join(lines[:len(lines) - len(tail[:idx].splitlines())]).strip()`. */
  function CutAsWritten(text: string, idx: nat): string
    requires idx <= |TailText(text)|
  {
    var lines := Lines(text);
    Strip(Join("\n", SliceTo(lines, |lines| - |Lines(TailText(text)[..idx])|)))
  }

  /** `remove_signatures` as written: the cutoff is the number of lines minus the lines of the tail before the marker. */
  function SignaturesAsWritten(text: string): string {
    if text == [] then []
    else
      match Found(text)
      case None => text
      case Some((_, idx)) => CutAsWritten(text, idx)
  }

  /** `for marker in markers: idx = low.find(marker); if idx != -1: ...`: the first marker found, and where. */
  method FindMarker(low: string, ms: seq<string>) returns (found: Option<(string, nat)>)
    ensures found == FirstMarker(low, ms)
  {
    for i := 0 to |ms|
      invariant FirstMarker(low, ms) == FirstMarker(low, ms[i..])
    {
      assert ms[i..][1..] == ms[i + 1..];
      var idx := Find(low, ms[i]);
      if idx.Some? {
        return Some((ms[i], idx.value));
      }
    }
    assert ms[|ms|..] == [];
    found := None;
  }

  /** `remove_signatures`: the first marker found in the lower-cased tail decides the cut. */
  method RemoveSignatures(text: string) returns (r: string)
    ensures r == SignaturesAsWritten(text)
  {
    if text == [] {
      return [];
    }
    var lines := Lines(text);
    var tail := Join("\n", LastLines(lines));
    assert tail == TailText(text);
    var found := FindMarker(Lower(tail), Markers);
    assert found == Found(text);
    if found.None? {
      NoMarkerNoCut(text);
      r := text;
    } else {
      r := CutLines(text, lines, tail, found.value.1);
      AsWrittenIsCut(text);
    }
  }

  /** `cutoff = len(lines) - len(tail[:idx].splitlines())`, then the kept lines joined and stripped. */
  method CutLines(text: string, lines: seq<string>, tail: string, idx: nat) returns (r: string)
    requires lines == Lines(text) && tail == TailText(text) && idx <= |tail|
    ensures r == CutAsWritten(text, idx)
  {
    var cutoff := |lines| - |Lines(tail[..idx])|;
    assert cutoff == |Lines(text)| - |Lines(TailText(text)[..idx])|;
    var kept := SliceTo(lines, cutoff);
    assert kept == SliceTo(Lines(text), |Lines(text)| - |Lines(TailText(text)[..idx])|);
    r := Strip(Join("\n", kept));
    assert CutAsWritten(text, idx) == Strip(Join("\n", kept));
  }

  /** With a marker found, the version as written is the cut at the marker's offset. */
  lemma AsWrittenIsCut(text: string)
    requires text != [] && Found(text).Some?
    ensures SignaturesAsWritten(text) == CutAsWritten(text, Found(text).value.1)
  {
  }

  /** The first line, in order, whose lower-cased text contains `m`. */
  function FirstLineWith(ls: seq<string>, m: string): (r: Option<nat>)
    ensures r.Some? ==> r.value < |ls| && Contains(Lower(ls[r.value]), m)
    ensures r.Some? ==> forall j :: 0 <= j < r.value ==> !Contains(Lower(ls[j]), m)
    ensures r.None? ==> forall j :: 0 <= j < |ls| ==> !Contains(Lower(ls[j]), m)
  {
    if ls == [] then None
    else if Contains(Lower(ls[0]), m) then Some(0)
    else
      var r := FirstLineWith(ls[1..], m);
      if r.None? then None else Some(r.value + 1)
  }

  /** Everything before the first line of the tail that holds `m`, stripped. */
  function CutAtMarkerLine(text: string, m: string): string {
    var lines := Lines(text);
    var tail := LastLines(lines);
    match FirstLineWith(tail, m)
    case None => text
    case Some(k) => Strip(Join("\n", lines[..|lines| - |tail| + k]))
  }

  /**
   * Signature removal cutting where evidently intended: at the line of the
   * tail on which the first marker found begins, keeping every line before it.
   */
  function Signatures(text: string): string {
    if text == [] then []
    else
      match Found(text)
      case None => text
      case Some((m, _)) => CutAtMarkerLine(text, m)
  }

  /**
   * The corrected cut keeps all lines before the marker's line: the dropped
   * block begins with a line holding the marker, and no kept line of the
   * tail holds it.
   */
  lemma SignaturesCutAtMarkerLine(text: string, m: string, k: nat)
    requires text != [] && Found(text).Some? && m == Found(text).value.0
    requires FirstLineWith(LastLines(Lines(text)), m) == Some(k)
    ensures var lines := Lines(text); var c := |lines| - |LastLines(lines)| + k;
            c < |lines| && Contains(Lower(lines[c]), m)
            && (forall j :: |lines| - |LastLines(lines)| <= j < c ==> !Contains(Lower(lines[j]), m))
            && Signatures(text) == Strip(Join("\n", lines[..c]))
  {
    MarkerLineOfTail(Lines(text), m, k);
    SignaturesAreCut(text);
    CutAtLine(text, m, k);
  }

  /** With a marker found, the corrected version is the cut at the marker's line. */
  lemma SignaturesAreCut(text: string)
    requires text != [] && Found(text).Some?
    ensures Signatures(text) == CutAtMarkerLine(text, Found(text).value.0)
  {
  }

  /** The cut at the `k`-th line of the tail keeps the lines before it. */
  lemma CutAtLine(text: string, m: string, k: nat)
    requires FirstLineWith(LastLines(Lines(text)), m) == Some(k)
    ensures var lines := Lines(text);
            CutAtMarkerLine(text, m) == Strip(Join("\n", lines[..|lines| - |LastLines(lines)| + k]))
  {
  }

  /** The `k`-th line of the tail is the line `|lines| - |tail| + k` of the text. */
  lemma MarkerLineOfTail(lines: seq<string>, m: string, k: nat)
    requires FirstLineWith(LastLines(lines), m) == Some(k)
    ensures var c := |lines| - |LastLines(lines)| + k;
            c < |lines| && Contains(Lower(lines[c]), m)
            && (forall j :: |lines| - |LastLines(lines)| <= j < c ==> !Contains(Lower(lines[j]), m))
  {
    var tail := LastLines(lines);
    var c := |lines| - |tail| + k;
    assert lines[c] == tail[k];
    forall j | |lines| - |tail| <= j < c ensures !Contains(Lower(lines[j]), m) {
      assert lines[j] == tail[j - (|lines| - |tail|)];
    }
  }

  /** Without any marker in the last 40 lines, both versions return the text unchanged. */
  lemma NoMarkerNoCut(text: string)
    requires Found(text).None?
    ensures SignaturesAsWritten(text) == text && Signatures(text) == text
  {
  }

  /** A text without '\n' is one line, and is its own tail. */
  lemma OneLine(t: string)
    requires t != [] && '\n' !in t
    ensures Lines(t) == [t] && TailText(t) == t
  {
    var one: seq<string> := [t];
    assert LastLines(one) == one;
  }

  /**
   * On a one-line text holding a marker, the as-written cutoff is 1 minus the
   * number of lines before the marker: the line survives whole when the
   * marker opens it and is removed otherwise.
   */
  lemma OneLineCutAsWritten(t: string, m: string, idx: nat)
    requires t != [] && '\n' !in t
    requires FirstMarker(Lower(t), Markers) == Some((m, idx))
    ensures SignaturesAsWritten(t) == (if idx == 0 then Strip(t) else [])
  {
    OneLine(t);
    assert Found(t) == Some((m, idx));
    var one: seq<string> := [t];
    if idx > 0 {
      assert '\n' !in t[..idx] by {
        forall i | 0 <= i < idx ensures t[..idx][i] != '\n' { assert t[i] in t; }
      }
      OneLine(t[..idx]);
      assert SliceTo(one, 0) == [];
      assert CutAsWritten(t, idx) == Strip([]);
      assert Strip([]) == [];
    } else {
      assert Lines(t[..0]) == [];
      assert SliceTo(one, 1) == one;
      assert CutAsWritten(t, idx) == Strip(t);
    }
  }

  /** On a one-line text holding a marker, the corrected cut removes the line. */
  lemma OneLineCut(t: string, m: string, idx: nat)
    requires t != [] && '\n' !in t
    requires FirstMarker(Lower(t), Markers) == Some((m, idx))
    ensures Signatures(t) == []
  {
    OneLine(t);
    var one: seq<string> := [t];
    assert Found(t) == Some((m, idx));
    assert Contains(Lower(t), m) by {
      FirstMarkerFound(Lower(t), Markers);
      ContainsAt(Lower(t), m, idx);
    }
    assert FirstLineWith(one, m) == Some(0);
    SignaturesCutAtMarkerLine(t, m, 0);
    assert one[..0] == [];
  }

  const Example := "sincerely"

  /** "sincerely" is one line whose marker is found at position 0. */
  lemma ExampleMarker()
    ensures Example != [] && '\n' !in Example
    ensures FirstMarker(Lower(Example), Markers) == Some((Sincerely, 0))
  {
    assert Lower(Example) == Example;
    assert Find(Example, BestRegards) == None;
    assert Find(Example, Sincerely) == Some(0);
  }

  /** As written, a text that is only "sincerely" is returned whole. */
  lemma SignatureCutExample()
    ensures SignaturesAsWritten(Example) == Example
  {
    ExampleMarker();
    OneLineCutAsWritten(Example, Sincerely, 0);
    ExampleStripped();
  }

  lemma ExampleStripped()
    ensures Strip(Example) == Example
  {
    TrimLeftNoLead(Example);
    TrimRightNoTrail(Example);
  }

  /** The corrected cut removes it. */
  lemma SignatureCutExampleCorrected()
    ensures Signatures(Example) == []
  {
    ExampleMarker();
    OneLineCut(Example, Sincerely, 0);
  }

  // ---------------------------------------------------------------------------
  // Part D: chunking
  // ---------------------------------------------------------------------------

  /** `text.rfind(".", start, end)`, or `end` without a '.'. */
  function Break(text: string, start: nat, size: nat): (nb: nat)
    requires start + size < |text|
    ensures start <= nb <= start + size
  {
    match RFindChar(text, '.', start, start + size) case Some(j) => j case None => start + size
  }

  /** `max(next_break - overlap, next_break + 1)`. */
  function Next(nb: nat, overlap: int): (n: nat)
    ensures n > nb
  {
    if nb - overlap > nb + 1 then nb - overlap else nb + 1
  }

  /**
   * The raw pieces `text[start:next_break + 1]` the loop cuts from `start` on:
   * the last piece is the rest of the text, every other one ends at the last
   * '.' before `start + size` or, without one, one character past that point.
   */
  function Pieces(text: string, start: nat, size: nat, overlap: int): seq<string>
    decreases |text| - start
  {
    if start >= |text| then []
    else if start + size >= |text| then [text[start..]]
    else
      var nb := Break(text, start, size);
      [text[start..nb + 1]] + Pieces(text, Next(nb, overlap), size, overlap)
  }

  function StripAll(ps: seq<string>): (r: seq<string>)
    ensures |r| == |ps| && forall i :: 0 <= i < |ps| ==> r[i] == Strip(ps[i])
  {
    seq(|ps|, i requires 0 <= i < |ps| => Strip(ps[i]))
  }

  lemma StripAllSnoc(ps: seq<string>, p: string)
    ensures StripAll(ps + [p]) == StripAll(ps) + [Strip(p)]
  {
    var a := StripAll(ps + [p]);
    var b := StripAll(ps) + [Strip(p)];
    forall i | 0 <= i < |a| ensures a[i] == b[i] {
      assert (ps + [p])[i] == if i < |ps| then ps[i] else p;
    }
  }

  /** `[c for c in chunks if c]`. */
  function NonEmpty(cs: seq<string>): (r: seq<string>)
    ensures forall c :: c in r ==> c != [] && c in cs
    ensures |r| <= |cs|
  {
    if cs == [] then []
    else
      var rest := NonEmpty(cs[1..]);
      if cs[0] == [] then rest else [cs[0]] + rest
  }

  /** One cut of the loop: the piece, and where the next one starts. */
  method Cut(text: string, start: nat, size: nat, overlap: int, ghost raw: seq<string>, cut: seq<string>)
      returns (ghost raw': seq<string>, cut': seq<string>, start': nat, done: bool)
    requires start < |text| && cut == StripAll(raw)
    ensures cut' == StripAll(raw')
    ensures done ==> raw + Pieces(text, start, size, overlap) == raw'
    ensures !done ==> raw + Pieces(text, start, size, overlap) == raw' + Pieces(text, start', size, overlap) && start' > start
  {
    var end := start + size;
    if end >= |text| {
      raw' := raw + [text[start..]];
      assert Pieces(text, start, size, overlap) == [text[start..]];
      StripAllSnoc(raw, text[start..]);
      cut' := cut + [Strip(text[start..])];
      start', done := start, true;
      return;
    }
    var nextBreak := match RFindChar(text, '.', start, end) case Some(j) => j case None => end;
    assert nextBreak == Break(text, start, size);
    raw' := raw + [text[start..nextBreak + 1]];
    start' := if nextBreak - overlap > nextBreak + 1 then nextBreak - overlap else nextBreak + 1;
    assert start' == Next(nextBreak, overlap);
    assert Pieces(text, start, size, overlap) == [text[start..nextBreak + 1]] + Pieces(text, start', size, overlap);
    AppendOne(raw, text[start..nextBreak + 1], Pieces(text, start', size, overlap));
    StripAllSnoc(raw, text[start..nextBreak + 1]);
    cut' := cut + [Strip(text[start..nextBreak + 1])];
    done := false;
  }

  lemma AppendNone(xs: seq<string>)
    ensures xs + [] == xs
  {
  }

  lemma AppendOne(xs: seq<string>, x: string, ys: seq<string>)
    ensures xs + ([x] + ys) == (xs + [x]) + ys
  {
  }

  /** `chunk_text`: cut, strip, then drop the empty chunks. */
  method ChunkText(text: string, size: nat, overlap: int) returns (chunks: seq<string>)
    ensures chunks == NonEmpty(StripAll(Pieces(text, 0, size, overlap)))
    ensures text == [] ==> chunks == []
  {
    if text == [] {
      return [];
    }
    var cut: seq<string> := [];
    ghost var raw: seq<string> := [];
    var start: nat := 0;
    var done := false;
    while !done && start < |text|
      invariant !done ==> Pieces(text, 0, size, overlap) == raw + Pieces(text, start, size, overlap)
      invariant done ==> Pieces(text, 0, size, overlap) == raw
      invariant cut == StripAll(raw)
      decreases !done, |text| - start
    {
      raw, cut, start, done := Cut(text, start, size, overlap, raw, cut);
    }
    if !done {
      assert Pieces(text, start, size, overlap) == [];
      AppendNone(raw);
    }
    chunks := NonEmpty(cut);
  }

  /** Every raw piece is at most `size + 1` characters long. */
  lemma {:induction false} PiecesBounded(text: string, start: nat, size: nat, overlap: int)
    ensures forall p :: p in Pieces(text, start, size, overlap) ==> |p| <= size + 1
    decreases |text| - start
  {
    if start < |text| && start + size < |text| {
      PiecesBounded(text, Next(Break(text, start, size), overlap), size, overlap);
    }
  }

  function Concat(ps: seq<string>): string {
    if ps == [] then [] else ps[0] + Concat(ps[1..])
  }

  /** With a non-negative overlap the pieces tile the text: nothing is read twice, nothing is skipped. */
  lemma {:induction false} PiecesTile(text: string, start: nat, size: nat, overlap: int)
    requires overlap >= -1 && start <= |text|
    ensures Concat(Pieces(text, start, size, overlap)) == text[start..]
    decreases |text| - start
  {
    if start + size >= |text| {
      LastPiece(text, start, size, overlap);
    } else {
      var nb := Break(text, start, size);
      PiecesTile(text, nb + 1, size, overlap);
      PiecesJoin(text, start, size, overlap, nb);
    }
  }

  /** The first piece followed by the tiled rest is the text from `start` on. */
  lemma PiecesJoin(text: string, start: nat, size: nat, overlap: int, nb: nat)
    requires overlap >= -1 && start + size < |text| && nb == Break(text, start, size)
    requires Concat(Pieces(text, nb + 1, size, overlap)) == text[nb + 1..]
    ensures Concat(Pieces(text, start, size, overlap)) == text[start..]
  {
    PiecesStep(text, start, size, overlap, nb);
    SliceSplit(text, start, nb + 1);
  }

  /** From the last piece on, the pieces are the rest of the text. */
  lemma LastPiece(text: string, start: nat, size: nat, overlap: int)
    requires start <= |text| && start + size >= |text|
    ensures Concat(Pieces(text, start, size, overlap)) == text[start..]
  {
    if start < |text| {
      ConcatCons(text[start..], []);
    }
  }

  /**
   * With a non-negative overlap the next piece starts right after the break
   * `nb`, so the text read is the first piece and then the rest.
   */
  lemma PiecesStep(text: string, start: nat, size: nat, overlap: int, nb: nat)
    requires overlap >= -1 && start + size < |text| && nb == Break(text, start, size)
    ensures Concat(Pieces(text, start, size, overlap)) == text[start..nb + 1] + Concat(Pieces(text, nb + 1, size, overlap))
  {
    assert Next(nb, overlap) == nb + 1;
    ConcatCons(text[start..nb + 1], Pieces(text, nb + 1, size, overlap));
  }

  lemma SliceSplit(s: string, i: nat, j: nat)
    requires i <= j <= |s|
    ensures s[i..] == s[i..j] + s[j..]
  {
  }

  lemma ConcatCons(p: string, ps: seq<string>)
    ensures Concat([p] + ps) == p + Concat(ps)
  {
    assert ([p] + ps)[1..] == ps;
  }

  /** The chunks are non-empty, stripped, and at most `size + 1` characters long. */
  lemma ChunksShape(text: string, size: nat, overlap: int)
    ensures forall c :: c in NonEmpty(StripAll(Pieces(text, 0, size, overlap))) ==> c != [] && Strip(c) == c && |c| <= size + 1
  {
    var ps := Pieces(text, 0, size, overlap);
    PiecesBounded(text, 0, size, overlap);
    forall c | c in NonEmpty(StripAll(ps)) ensures c != [] && Strip(c) == c && |c| <= size + 1 {
      var i :| 0 <= i < |ps| && StripAll(ps)[i] == c;
      assert ps[i] in ps;
      StripIdempotent(ps[i]);
    }
  }

  // ---------------------------------------------------------------------------
  // Part E: the pipeline
  // ---------------------------------------------------------------------------

  /** `clean_text` as written: normalise, drop headers and footers, cut signatures, strip. */
  function CleanTextAsWritten(raw: string, nfkc: string -> string): (r: string)
    ensures Strip(r) == r
    ensures Found(HeadersRemoved(NormalizeTextAsWritten(raw, nfkc))).None? ==>
              r == Strip(HeadersRemoved(NormalizeTextAsWritten(raw, nfkc)))
  {
    var h := HeadersRemoved(NormalizeTextAsWritten(raw, nfkc));
    StripIdempotent(SignaturesAsWritten(h));
    Strip(SignaturesAsWritten(h))
  }

  /** `clean_text` with both corrections: newlines survive normalisation and the cut is at the marker's line. */
  function CleanText(raw: string, nfkc: string -> string): (r: string)
    ensures Strip(r) == r
    ensures NoControl(r, true)
    ensures Found(HeadersRemoved(NormalizeText(raw, nfkc))).None? ==> r == Strip(HeadersRemoved(NormalizeText(raw, nfkc)))
  {
    CleanedShape(HeadersRemoved(NormalizeText(raw, nfkc)), raw, nfkc);
    Strip(Signatures(HeadersRemoved(NormalizeText(raw, nfkc))))
  }

  lemma CleanedShape(h: string, raw: string, nfkc: string -> string)
    requires h == HeadersRemoved(NormalizeText(raw, nfkc))
    ensures Strip(Strip(Signatures(h))) == Strip(Signatures(h))
    ensures NoControl(Strip(Signatures(h)), true)
    ensures Found(h).None? ==> Strip(Signatures(h)) == Strip(h)
  {
    NormalizeShape(raw, nfkc, true);
    HeadersNoControl(NormalizeText(raw, nfkc));
    SignaturesNoControl(h);
    StripNoControl(Signatures(h));
    StripIdempotent(Signatures(h));
  }

  /** Stripping keeps the characters of a slice. */
  lemma StripNoControl(s: string)
    requires NoControl(s, true)
    ensures NoControl(Strip(s), true)
  {
    var r := Strip(s);
    var i := |s| - |TrimLeft(s)|;
    forall c | c in r ensures !IsControl(c) || c == '\n' {
      var j :| 0 <= j < |r| && r[j] == c;
      assert s[i + j] == c;
    }
  }

  /** The lines of a text hold only its characters. */
  lemma {:induction false} LinesNoControl(s: string)
    requires NoControl(s, true)
    ensures forall l :: l in Lines(s) ==> NoControl(l, true)
    decreases |s|
  {
    if s != [] {
      match FindChar(s, '\n')
      case None =>
      case Some(i) =>
        assert forall c :: c in s[..i] ==> c in s;
        assert forall c :: c in s[i + 1..] ==> c in s;
        LinesNoControl(s[i + 1..]);
    }
  }

  /** Joining with '\n' adds only newlines. */
  lemma {:induction false} JoinNoControl(parts: seq<string>)
    requires forall p :: p in parts ==> NoControl(p, true)
    ensures NoControl(Join("\n", parts), true)
    decreases |parts|
  {
    if |parts| > 0 {
      assert parts[0] in parts;
    }
    if |parts| > 1 {
      assert forall p :: p in parts[1..] ==> p in parts;
      JoinNoControl(parts[1..]);
    }
  }

  lemma {:induction false} CleanedLinesNoControl(ls: seq<string>)
    requires forall l :: l in ls ==> NoControl(l, true)
    ensures forall l :: l in CleanedLines(ls) ==> NoControl(l, true)
    decreases |ls|
  {
    if ls != [] {
      assert forall l :: l in ls[..|ls| - 1] ==> l in ls;
      CleanedLinesNoControl(ls[..|ls| - 1]);
      assert ls[|ls| - 1] in ls;
      StripNoControl(ls[|ls| - 1]);
    }
  }

  /** Header and footer removal adds no control character. */
  lemma HeadersNoControl(text: string)
    requires NoControl(text, true)
    ensures NoControl(HeadersRemoved(text), true)
  {
    if text != [] {
      LinesNoControl(text);
      CleanedLinesNoControl(Lines(text));
      JoinNoControl(CleanedLines(Lines(text)));
    }
  }

  /** The corrected signature cut adds no control character. */
  lemma SignaturesNoControl(text: string)
    requires NoControl(text, true)
    ensures NoControl(Signatures(text), true)
  {
    if text != [] && Found(text).Some? {
      var m := Found(text).value.0;
      var lines := Lines(text);
      LinesNoControl(text);
      match FirstLineWith(LastLines(lines), m)
      case None =>
      case Some(k) =>
        var kept := lines[..|lines| - |LastLines(lines)| + k];
        assert forall l :: l in kept ==> l in lines;
        JoinNoControl(kept);
        StripNoControl(Join("\n", kept));
    }
  }

  /** A one-line text that the header filter passes is left as it is. */
  lemma OneLineHeaders(t: string)
    requires t != [] && '\n' !in t && KeepLine(t) == Some(t)
    ensures HeadersRemoved(t) == t
  {
    OneLine(t);
    var one: seq<string> := [t];
    assert CleanedLines(one) == one by { assert one[..0] == []; }
  }

  /**
   * As written, a document whose normalised text survives the header filter
   * and mentions a marker anywhere but at its very start cleans to "": the
   * normalised text is one line, and the as-written cutoff of one line minus
   * one is 0.
   */
  lemma CleanTextAsWrittenErases(raw: string, nfkc: string -> string, m: string, idx: nat)
    requires var t := NormalizeTextAsWritten(raw, nfkc); t != [] && KeepLine(t) == Some(t)
    requires FirstMarker(Lower(NormalizeTextAsWritten(raw, nfkc)), Markers) == Some((m, idx)) && idx > 0
    ensures CleanTextAsWritten(raw, nfkc) == []
  {
    var t := NormalizeTextAsWritten(raw, nfkc);
    NormalizeAsWrittenDropsNewlines(raw, nfkc);
    OneLineHeaders(t);
    OneLineCutAsWritten(t, m, idx);
  }
}
