/** The line stages of the log filter (`janus/src/workflow/filter.rs:83-163`):
    progress bars are collapsed into one summary, equal lines into a count. */
module LogLines {
  import opened Wrappers
  import opened Ansi
  import opened Sessions

  // --- Lines ----------------------------------------------------------------

  /** The first part of a text, up to a newline. */
  function LineLength(s: string): (k: nat)
    ensures k <= |s| && '\n' !in s[..k] && (k < |s| ==> s[k] == '\n')
  {
    if s == [] || s[0] == '\n' then 0
    else
      var k := LineLength(s[1..]);
      assert s[..k + 1] == [s[0]] + s[1..][..k];
      k + 1
  }

  function WithoutCr(s: string): string {
    if s != [] && s[|s| - 1] == '\r' then s[..|s| - 1] else s
  }

  /** `str::lines`. */
  function Lines(s: string): seq<string> {
    if s == [] then []
    else
      var k := LineLength(s);
      if k == |s| then [s] else [WithoutCr(s[..k])] + Lines(s[k + 1..])
  }

  function Join(lines: seq<string>): string {
    if lines == [] then ""
    else if |lines| == 1 then lines[0]
    else lines[0] + "\n" + Join(lines[1..])
  }

  /** A text without line breaks. */
  predicate IsLine(s: string) {
    '\n' !in s && (s == "" || s[|s| - 1] != '\r')
  }

  lemma {:induction false} LineLengthIs(w: string, rest: string)
    requires '\n' !in w
    ensures LineLength(w) == |w| && LineLength(w + "\n" + rest) == |w|
  {
    var t := w + "\n" + rest;
    if w != [] {
      assert t[1..] == w[1..] + "\n" + rest;
      LineLengthIs(w[1..], rest);
    }
  }

  /** Joined lines read back, unless the last one is empty. */
  lemma {:induction false} LinesReadBack(lines: seq<string>)
    requires (forall i | 0 <= i < |lines| :: IsLine(lines[i])) && (lines == [] || lines[|lines| - 1] != "")
    ensures Lines(Join(lines)) == lines
  {
    if |lines| == 1 {
      LineLengthIs(lines[0], "");
    } else if lines != [] {
      hide IsLine, Lines;
      LinesReadBack(lines[1..]);
      FirstLine(lines[0], Join(lines[1..]));
    }
  }

  lemma FirstLine(w: string, rest: string)
    requires IsLine(w)
    ensures Lines(w + "\n" + rest) == [w] + Lines(rest)
  {
    LineLengthIs(w, rest);
    hide LineLength;
    var s := w + "\n" + rest;
    assert s[..|w|] == w && s[|w| + 1..] == rest;
  }

  // --- Progress indicators --------------------------------------------------

  /** The value of a digit string, most significant digit first. */
  function DigitsValue(s: string): Option<nat> {
    if s == [] then Some(0)
    else
      var high := DigitsValue(s[..|s| - 1]);
      var c := s[|s| - 1];
      if high.Some? && IsDigit(c) then Some(high.value * 10 + (c as int - '0' as int)) else None
  }

  /** `parse::<u32>`: an optional plus sign, at least one digit, no overflow. */
  function ParseU32(s: string): Option<nat> {
    var digits := if s != [] && s[0] == '+' then s[1..] else s;
    if digits == [] then None
    else
      var v := DigitsValue(digits);
      if v.Some? && v.value < 0x1_0000_0000 then v else None
  }

  function Percentage(s: string): Option<nat> {
    var p := ParseU32(s);
    if p.Some? && p.value <= 100 then p else None
  }

  /** The leading run of characters that are not white space. */
  function WordLength(t: string): (k: nat)
    ensures k <= |t| && (k < |t| ==> IsWhite(t[k]))
  {
    if t == [] || IsWhite(t[0]) then 0 else WordLength(t[1..]) + 1
  }

  lemma TrimStartShrinks(t: string)
    ensures |TrimStart(t)| <= |t|
  {
  }

  /** `split_whitespace`. */
  function Words(t: string): seq<string>
    decreases |t|
  {
    var s := TrimStart(t);
    TrimStartShrinks(t);
    if s == [] then []
    else
      var k := WordLength(s);
      [s[..k]] + Words(s[k..])
  }

  function WordPercentage(words: seq<string>): (p: Option<nat>)
    ensures p.Some? ==> p.value <= 100
  {
    if words == [] then None
    else
      var w := words[0];
      var p := if w != [] && w[|w| - 1] == '%' then Percentage(w[..|w| - 1]) else None;
      if p.Some? then p else WordPercentage(words[1..])
  }

  /** `extract_progress_pct`. */
  function ProgressPct(line: string): (p: Option<nat>)
    ensures p.Some? ==> p.value <= 100
  {
    var t := Trim(line);
    var p := if t != [] && t[|t| - 1] == '%' then Percentage(Trim(t[..|t| - 1])) else None;
    if p.Some? then p else WordPercentage(Words(t))
  }

  predicate IsProgress(line: string) {
    ProgressPct(line).Some?
  }

  /** `[MetaMach: progress <first>% -> <last>% (<n> lines collapsed)]`, with an arrow. */
  function Summary(first: nat, last: nat, n: nat): string {
    "[MetaMach:" + (" " + ("progress" + (" " + (Decimal(first) + "%" + (" " + SummaryTail(last, n))))))
  }

  function SummaryTail(last: nat, n: nat): string {
    "\U{2192} " + Decimal(last) + "% (" + Decimal(n) + " lines collapsed)]"
  }

  // --- Collapsing -----------------------------------------------------------

  /** Where the progress run that begins at `i` ends. */
  function RunEnd(lines: seq<string>, i: nat): (j: nat)
    requires i <= |lines|
    ensures i <= j <= |lines| && (forall k | i <= k < j :: IsProgress(lines[k]))
    ensures j < |lines| ==> !IsProgress(lines[j])
    decreases |lines| - i
  {
    if i == |lines| || !IsProgress(lines[i]) then i else RunEnd(lines, i + 1)
  }

  function GroupEnd(lines: seq<string>, i: nat): (j: nat)
    requires i < |lines|
    ensures i < j <= |lines|
  {
    if IsProgress(lines[i]) then RunEnd(lines, i + 1) else i + 1
  }

  predicate IsGroup(g: seq<string>) {
    g != [] && (|g| > 1 ==> forall i | 0 <= i < |g| :: IsProgress(g[i]))
  }

  /** The input from `i` on, cut into single lines and maximal progress runs. */
  function Groups(lines: seq<string>, i: nat): (gs: seq<seq<string>>)
    requires i <= |lines|
    ensures forall k | 0 <= k < |gs| :: IsGroup(gs[k])
    decreases |lines| - i
  {
    if i == |lines| then []
    else
      var j := GroupEnd(lines, i);
      [lines[i..j]] + Groups(lines, j)
  }

  /** A run of at least two progress lines becomes one summary. */
  function Summarize(g: seq<string>): string
    requires IsGroup(g)
  {
    if |g| > 1 then Summary(ProgressPct(g[0]).value, ProgressPct(g[|g| - 1]).value, |g|) else g[0]
  }

  function Summaries(gs: seq<seq<string>>): (r: seq<string>)
    requires forall k | 0 <= k < |gs| :: IsGroup(gs[k])
    ensures |r| == |gs| && forall i | 0 <= i < |gs| :: r[i] == Summarize(gs[i])
  {
    hide IsGroup, Summarize;
    seq(|gs|, i requires 0 <= i < |gs| => Summarize(gs[i]))
  }

  function CollapsedFrom(lines: seq<string>, i: nat): seq<string>
    requires i <= |lines|
  {
    Summaries(Groups(lines, i))
  }

  function Collapse(lines: seq<string>): seq<string> {
    CollapsedFrom(lines, 0)
  }

  lemma GroupOf(lines: seq<string>, i: nat)
    requires i < |lines|
    ensures IsGroup(lines[i..GroupEnd(lines, i)])
  {
    hide IsGroup, ProgressPct;
    assert Groups(lines, i)[0] == lines[i..GroupEnd(lines, i)];
  }

  function GroupItem(lines: seq<string>, i: nat): string
    requires i < |lines|
  {
    GroupOf(lines, i);
    Summarize(lines[i..GroupEnd(lines, i)])
  }

  lemma NextGroup(lines: seq<string>, i: nat)
    requires i < |lines|
    ensures CollapsedFrom(lines, i) == [GroupItem(lines, i)] + CollapsedFrom(lines, GroupEnd(lines, i))
  {
    hide IsGroup, IsProgress, Summarize, GroupEnd;
    var gs := Groups(lines, i);
    assert gs[0] == lines[i..GroupEnd(lines, i)] && gs[1..] == Groups(lines, GroupEnd(lines, i));
    FirstSummary(gs);
  }

  lemma FirstSummary(gs: seq<seq<string>>)
    requires gs != [] && forall k | 0 <= k < |gs| :: IsGroup(gs[k])
    ensures Summaries(gs) == [Summarize(gs[0])] + Summaries(gs[1..])
  {
    hide IsGroup, Summarize;
  }

  /** The inner loop: the end of a progress run and its last percentage. */
  method ScanRun(lines: seq<string>, i: nat) returns (j: nat, last: nat)
    requires i < |lines| && IsProgress(lines[i])
    ensures j == GroupEnd(lines, i) && ProgressPct(lines[j - 1]) == Some(last)
  {
    hide ProgressPct;
    last := ProgressPct(lines[i]).value;
    j := i + 1;
    while j < |lines| && IsProgress(lines[j])
      invariant i < j <= |lines| && RunEnd(lines, j) == RunEnd(lines, i + 1)
      invariant ProgressPct(lines[j - 1]) == Some(last)
    {
      last := ProgressPct(lines[j]).value;
      j := j + 1;
    }
  }

  /** One turn of the outer loop: a single line, or the summary of a run. */
  method NextItem(lines: seq<string>, i: nat) returns (item: string, j: nat)
    requires i < |lines|
    ensures j == GroupEnd(lines, i) && item == GroupItem(lines, i)
  {
    hide ProgressPct, Summary, RunEnd;
    item, j := lines[i], i + 1;
    GroupOf(lines, i);
    if IsProgress(lines[i]) {
      var last;
      j, last := ScanRun(lines, i);
      if j > i + 1 {
        item := Summary(ProgressPct(lines[i]).value, last, j - i);
      }
    }
  }

  method CollapseLines(lines: seq<string>) returns (out: seq<string>)
    ensures out == Collapse(lines)
  {
    hide CollapsedFrom, GroupItem, GroupEnd, IsProgress;
    out := [];
    var i := 0;
    while i < |lines|
      invariant 0 <= i <= |lines| && out + CollapsedFrom(lines, i) == Collapse(lines)
    {
      NextGroup(lines, i);
      var item, j := NextItem(lines, i);
      assert out + ([item] + CollapsedFrom(lines, j)) == out + [item] + CollapsedFrom(lines, j);
      out := out + [item];
      i := j;
    }
    NoGroups(lines);
  }

  lemma NoGroups(lines: seq<string>)
    ensures CollapsedFrom(lines, |lines|) == []
  {
  }

  function CollapsedText(s: string): string {
    if |Lines(s)| < 2 then s else Join(Collapse(Lines(s)))
  }

  method CollapseProgressBars(s: string) returns (out: string)
    ensures out == CollapsedText(s)
  {
    var lines := Lines(s);
    if |lines| < 2 {
      return s;
    }
    var kept := CollapseLines(lines);
    return Join(kept);
  }

  // --- What collapsing keeps ------------------------------------------------

  function Flat(gs: seq<seq<string>>): seq<string> {
    if gs == [] then [] else gs[0] + Flat(gs[1..])
  }

  /** Every input line is in exactly one group, in order; a summary stands for
      the lines of its group and states their number. */
  lemma {:induction false} EveryLineCounted(lines: seq<string>, i: nat)
    requires i <= |lines|
    ensures Flat(Groups(lines, i)) == lines[i..]
    decreases |lines| - i
  {
    hide IsProgress;
    if i < |lines| {
      var j := GroupEnd(lines, i);
      EveryLineCounted(lines, j);
      assert Groups(lines, i)[1..] == Groups(lines, j);
      assert lines[i..j] + lines[j..] == lines[i..];
    }
  }

  /** The first line of the groups from `i` on is line `i`. */
  lemma FirstOfGroup(lines: seq<string>, i: nat)
    requires i < |lines|
    ensures Groups(lines, i) != [] && Groups(lines, i)[0][0] == lines[i]
    ensures |Groups(lines, i)[0]| > 1 ==> IsProgress(lines[i])
  {
  }

  /** Groups are maximal: two neighbours are never both progress. */
  lemma {:induction false} GroupsAreMaximal(lines: seq<string>, i: nat, n: nat)
    requires i <= |lines| && n + 1 < |Groups(lines, i)|
    ensures var gs := Groups(lines, i); !IsProgress(gs[n][0]) || !IsProgress(gs[n + 1][0])
    decreases |lines| - i
  {
    hide IsProgress;
    var j := GroupEnd(lines, i);
    assert Groups(lines, i)[1..] == Groups(lines, j);
    if n == 0 {
      FirstOfGroup(lines, j);
    } else {
      GroupsAreMaximal(lines, j, n - 1);
    }
  }

  predicate NoTwoAdjacent(lines: seq<string>) {
    forall i | 0 <= i < |lines| - 1 :: !IsProgress(lines[i]) || !IsProgress(lines[i + 1])
  }

  /** A line that is kept as it is, and is no progress line, ends every run. */
  lemma CollapsedHasNoTwoAdjacent(lines: seq<string>)
    ensures NoTwoAdjacent(Collapse(lines))
  {
    hide IsProgress, Groups;
    var gs := Groups(lines, 0);
    forall i | 0 <= i < |gs| - 1
      ensures !IsProgress(Collapse(lines)[i]) || !IsProgress(Collapse(lines)[i + 1])
    {
      GroupsAreMaximal(lines, 0, i);
      assert IsGroup(gs[i]) && IsGroup(gs[i + 1]);
    }
  }

  /** `r` is what the lines are from `i` on. */
  predicate Rest(r: seq<string>, lines: seq<string>, i: nat) {
    i <= |lines| && |r| == |lines| - i && forall k | 0 <= k < |r| :: r[k] == lines[i + k]
  }

  lemma PrependRest(r: seq<string>, lines: seq<string>, i: nat)
    requires i < |lines| && Rest(r, lines, i + 1)
    ensures Rest([lines[i]] + r, lines, i)
  {
  }

  lemma {:induction false} NothingToCollapse(lines: seq<string>, i: nat)
    requires NoTwoAdjacent(lines) && i <= |lines|
    ensures Rest(CollapsedFrom(lines, i), lines, i)
    decreases |lines| - i
  {
    if i == |lines| {
      NoGroups(lines);
    } else {
      hide *;
      LoneLine(lines, i);
      NothingToCollapse(lines, i + 1);
      PrependRest(CollapsedFrom(lines, i + 1), lines, i);
    }
  }

  lemma LoneLine(lines: seq<string>, i: nat)
    requires NoTwoAdjacent(lines) && i < |lines|
    ensures CollapsedFrom(lines, i) == [lines[i]] + CollapsedFrom(lines, i + 1)
  {
    NextGroup(lines, i);
  }

  /** Collapsing the lines twice is collapsing them once. */
  lemma CollapseIsIdempotent(lines: seq<string>)
    ensures Collapse(Collapse(lines)) == Collapse(lines)
  {
    CollapsedHasNoTwoAdjacent(lines);
    NothingToCollapse(Collapse(lines), 0);
    hide CollapsedFrom;
    assert CollapsedFrom(Collapse(lines), 0) == Collapse(lines);
  }

  function Others(lines: seq<string>): seq<string> {
    if lines == [] then [] else (if IsProgress(lines[0]) then [] else [lines[0]]) + Others(lines[1..])
  }

  lemma {:induction false} OthersOfConcat(a: seq<string>, b: seq<string>)
    ensures Others(a + b) == Others(a) + Others(b)
  {
    hide IsProgress;
    if a == [] {
      assert a + b == b;
    } else {
      assert (a + b)[1..] == a[1..] + b;
      OthersOfConcat(a[1..], b);
    }
  }

  lemma {:induction false} OthersOfRun(g: seq<string>)
    requires forall i | 0 <= i < |g| :: IsProgress(g[i])
    ensures Others(g) == []
  {
    hide IsProgress;
    if g != [] {
      OthersOfRun(g[1..]);
    }
  }

  /** All other lines are kept, in order: no summary is mistaken for one. */
  lemma {:induction false} OtherLinesKept(lines: seq<string>, i: nat)
    requires i <= |lines|
    ensures Others(CollapsedFrom(lines, i)) == Others(lines[i..])
    decreases |lines| - i
  {
    hide IsProgress, CollapsedFrom, GroupItem, Others;
    if i == |lines| {
      NoGroups(lines);
      assert lines[i..] == [];
    } else {
      var j := GroupEnd(lines, i);
      var g := lines[i..j];
      NextGroup(lines, i);
      OtherLinesKept(lines, j);
      OthersOfConcat([GroupItem(lines, i)], CollapsedFrom(lines, j));
      OthersOfConcat(g, lines[j..]);
      assert g + lines[j..] == lines[i..];
      OthersOfItem(lines, i);
    }
  }

  lemma OthersOfItem(lines: seq<string>, i: nat)
    requires i < |lines|
    ensures Others([GroupItem(lines, i)]) == Others(lines[i..GroupEnd(lines, i)])
  {
    hide IsProgress, Summarize, IsGroup, Others;
    GroupOf(lines, i);
    OthersOfGroup(lines[i..GroupEnd(lines, i)]);
  }

  lemma OthersOfGroup(g: seq<string>)
    requires IsGroup(g)
    ensures Others([Summarize(g)]) == Others(g)
  {
    hide ProgressPct, Summary;
    if |g| > 1 {
      OthersOfRun(g);
      SummaryIsProgress(ProgressPct(g[0]).value, ProgressPct(g[|g| - 1]).value, |g|);
    } else {
      assert g == [g[0]];
    }
  }

  // --- A summary is itself a progress line ----------------------------------

  lemma {:induction false} DecimalReadsBack(n: nat)
    ensures DigitsValue(Decimal(n)) == Some(n)
  {
    if n >= 10 {
      var s := Decimal(n);
      assert s[..|s| - 1] == Decimal(n / 10);
      DecimalReadsBack(n / 10);
    }
  }

  lemma PercentageReadsBack(n: nat)
    requires n <= 100
    ensures Percentage(Decimal(n)) == Some(n)
  {
    DecimalReadsBack(n);
    assert Decimal(n)[0] != '+';
  }

  lemma {:induction false} WordLengthOf(w: string, rest: string)
    requires forall i | 0 <= i < |w| :: !IsWhite(w[i])
    ensures WordLength(w + " " + rest) == |w|
  {
    var t := w + " " + rest;
    if w != [] {
      assert t[1..] == w[1..] + " " + rest;
      WordLengthOf(w[1..], rest);
    }
  }

  lemma FirstWord(w: string, rest: string)
    requires w != [] && forall i | 0 <= i < |w| :: !IsWhite(w[i])
    ensures Words(w + (" " + rest)) == [w] + Words(" " + rest) && Words(" " + rest) == Words(rest)
  {
    var t := w + (" " + rest);
    assert t == w + " " + rest;
    assert !IsWhite(t[0]);
    WordLengthOf(w, rest);
    assert t[..|w|] == w && t[|w|..] == " " + rest;
    assert (" " + rest)[1..] == rest;
  }

  lemma TrimKeeps(t: string)
    requires t != [] && !IsWhite(t[0]) && !IsWhite(t[|t| - 1])
    ensures Trim(t) == t
  {
  }

  lemma SummaryEnds(first: nat, last: nat, n: nat)
    ensures var s := Summary(first, last, n); s != [] && s[0] == '[' && s[|s| - 1] == ']'
  {
  }

  lemma SummaryWords(first: nat, last: nat, n: nat)
    ensures exists more :: Words(Summary(first, last, n)) == ["[MetaMach:", "progress", Decimal(first) + "%"] + more
  {
    hide Words, SummaryTail, Decimal;
    var pct := Decimal(first) + "%";
    var t3 := pct + (" " + SummaryTail(last, n));
    var t2 := "progress" + (" " + t3);
    NoWhite(first);
    FirstWord(pct, SummaryTail(last, n));
    FirstWord("progress", t3);
    FirstWord("[MetaMach:", t2);
    var more := Words(SummaryTail(last, n));
    assert Words(t3) == [pct] + more;
    assert Words(t2) == ["progress"] + ([pct] + more);
    assert Words(Summary(first, last, n)) == ["[MetaMach:"] + (["progress"] + ([pct] + more));
    assert ["[MetaMach:"] + (["progress"] + ([pct] + more)) == ["[MetaMach:", "progress", pct] + more;
  }

  lemma NoWhite(n: nat)
    ensures forall i | 0 <= i < |Decimal(n) + "%"| :: !IsWhite((Decimal(n) + "%")[i])
  {
  }

  /** The first percentage of a summary is the first of its run. */
  lemma SummaryIsProgress(first: nat, last: nat, n: nat)
    requires first <= 100
    ensures ProgressPct(Summary(first, last, n)) == Some(first)
  {
    hide Summary, Words, Trim, Decimal, Percentage, IsWhite;
    var s := Summary(first, last, n);
    SummaryEnds(first, last, n);
    BracketIsNotWhite();
    TrimKeeps(s);
    SummaryWords(first, last, n);
    var more :| Words(s) == ["[MetaMach:", "progress", Decimal(first) + "%"] + more;
    PercentageReadsBack(first);
    ThirdWord("[MetaMach:", "progress", Decimal(first), first, more);
  }

  /** A line that is a percentage, with white space around the number and the sign. */
  lemma BarePercentage(pre: string, n: nat, gap: string, post: string)
    requires n <= 100 && AllWhite(pre) && AllWhite(gap) && AllWhite(post)
    ensures ProgressPct(pre + (Decimal(n) + gap + "%") + post) == Some(n)
  {
    DigitsAreNotWhite(n);
    hide *;
    PercentageReadsBack(n);
    var body := Decimal(n) + gap;
    assert (body + "%")[0] == Decimal(n)[0];
    TrimOf(pre, body + "%", post);
    assert "" + Decimal(n) + gap == body && AllWhite("") by { NothingIsWhite(); }
    TrimOf("", Decimal(n), gap);
    SignOff(pre + (body + "%") + post, body, n);
  }

  lemma NothingIsWhite()
    ensures AllWhite("")
  {
  }

  lemma SignOff(line: string, body: string, n: nat)
    requires Trim(line) == body + "%" && Percentage(Trim(body)) == Some(n)
    ensures ProgressPct(line) == Some(n)
  {
    hide Trim, Percentage, Words, WordPercentage;
    assert (body + "%")[..|body|] == body;
  }

  lemma DigitsAreNotWhite(n: nat)
    ensures !IsWhite(Decimal(n)[0]) && !IsWhite(Decimal(n)[|Decimal(n)| - 1]) && !IsWhite('%')
  {
  }

  /** What a summary prints: the first and last percentage of its run and how
      many lines it stands for, each as digits of that value. */
  lemma SummaryTells(g: seq<string>) returns (first: string, last: string, count: string)
    requires IsGroup(g) && |g| > 1
    ensures Summarize(g) ==
              "[MetaMach: progress " + first + "% \U{2192} " + last + "% (" + count + " lines collapsed)]"
    ensures DigitsValue(first) == ProgressPct(g[0]) && DigitsValue(last) == ProgressPct(g[|g| - 1])
    ensures DigitsValue(count) == Some(|g|)
  {
    hide ProgressPct, DigitsValue, Decimal, Summary;
    var a, b := ProgressPct(g[0]).value, ProgressPct(g[|g| - 1]).value;
    first, last, count := Decimal(a), Decimal(b), Decimal(|g|);
    DecimalReadsBack(a);
    DecimalReadsBack(b);
    DecimalReadsBack(|g|);
    SummaryText(a, b, |g|);
  }

  lemma SummaryText(a: nat, b: nat, n: nat)
    ensures Summary(a, b, n) ==
              "[MetaMach: progress " + Decimal(a) + "% \U{2192} " + Decimal(b) + "% (" + Decimal(n) + " lines collapsed)]"
  {
    hide Decimal;
    assert "[MetaMach:" + " " + "progress" + " " == "[MetaMach: progress ";
    assert "%" + " " + "\U{2192} " == "% \U{2192} ";
    Regrouped("[MetaMach:", " ", "progress", Decimal(a), "%", "\U{2192} ", Decimal(b), "% (" + Decimal(n) + " lines collapsed)]");
    assert "\U{2192} " + Decimal(b) + "% (" + Decimal(n) + " lines collapsed)]"
           == "\U{2192} " + Decimal(b) + ("% (" + Decimal(n) + " lines collapsed)]");
  }

  lemma Regrouped(o: string, s: string, p: string, a: string, c: string, arrow: string, b: string, end: string)
    ensures o + (s + (p + (s + (a + c + (s + (arrow + b + end)))))) == o + s + p + s + a + (c + s + arrow) + b + end
  {
  }

  lemma BracketIsNotWhite()
    ensures !IsWhite('[') && !IsWhite(']')
  {
  }

  lemma ThirdWord(a: string, b: string, digits: string, p: nat, more: seq<string>)
    requires a != [] && a[|a| - 1] != '%' && b != [] && b[|b| - 1] != '%' && Percentage(digits) == Some(p)
    ensures WordPercentage([a, b, digits + "%"] + more) == Some(p)
  {
    var words := [a, b, digits + "%"] + more;
    var c := digits + "%";
    assert c[..|c| - 1] == digits;
    assert words[1..] == [b, c] + more && words[1..][1..] == [c] + more;
    assert WordPercentage([c] + more) == Some(p);
    assert WordPercentage([b, c] + more) == WordPercentage(([b, c] + more)[1..]);
  }

  // --- Equal lines ----------------------------------------------------------

  datatype Run = Run(line: string, count: nat)

  /** Where the lines equal to line `i` end. */
  function SameEnd(lines: seq<string>, i: nat, j: nat): (e: nat)
    requires i < j <= |lines|
    ensures j <= e <= |lines| && (forall k | j <= k < e :: lines[k] == lines[i])
    ensures e < |lines| ==> lines[e] != lines[i]
    decreases |lines| - j
  {
    if j == |lines| || lines[j] != lines[i] then j else SameEnd(lines, i, j + 1)
  }

  function Runs(lines: seq<string>, i: nat): seq<Run>
    requires i <= |lines|
    decreases |lines| - i
  {
    if i == |lines| then []
    else
      var e := SameEnd(lines, i, i + 1);
      [Run(lines[i], e - i)] + Runs(lines, e)
  }

  function Render(r: Run): string {
    if r.count > 1 then r.line + " (\U{D7}" + Decimal(r.count) + ")" else r.line
  }

  /** A line that stands for more than one says how many. */
  lemma RenderTells(r: Run) returns (count: string)
    ensures r.count > 1 ==> Render(r) == r.line + " (\U{D7}" + count + ")" && DigitsValue(count) == Some(r.count)
    ensures r.count <= 1 ==> Render(r) == r.line
  {
    hide DigitsValue, Decimal;
    count := Decimal(r.count);
    DecimalReadsBack(r.count);
  }

  function RenderAll(rs: seq<Run>): (r: seq<string>)
    ensures |r| == |rs| && forall i | 0 <= i < |rs| :: r[i] == Render(rs[i])
  {
    if rs == [] then [] else [Render(rs[0])] + RenderAll(rs[1..])
  }

  function Deduplicated(lines: seq<string>): seq<string> {
    RenderAll(Runs(lines, 0))
  }

  lemma NextRun(lines: seq<string>, i: nat)
    requires i < |lines|
    ensures var e := SameEnd(lines, i, i + 1);
            RenderAll(Runs(lines, i)) == [Render(Run(lines[i], e - i))] + RenderAll(Runs(lines, e))
  {
  }

  /** The inner loop: how many lines from `i` on are equal to line `i`. */
  method CountSame(lines: seq<string>, i: nat) returns (count: nat)
    requires i < |lines|
    ensures i + count == SameEnd(lines, i, i + 1)
  {
    count := 1;
    while i + count < |lines| && lines[i + count] == lines[i]
      invariant 1 <= count && i + count <= |lines|
      invariant SameEnd(lines, i, i + count) == SameEnd(lines, i, i + 1)
    {
      count := count + 1;
    }
  }

  method DeduplicateAll(lines: seq<string>) returns (out: seq<string>)
    ensures out == Deduplicated(lines)
  {
    hide RenderAll, Runs, Render;
    out := [];
    var i := 0;
    while i < |lines|
      invariant 0 <= i <= |lines| && out + RenderAll(Runs(lines, i)) == Deduplicated(lines)
    {
      var count := CountSame(lines, i);
      NextRun(lines, i);
      var item := Render(Run(lines[i], count));
      ghost var rest := RenderAll(Runs(lines, i + count));
      assert out + ([item] + rest) == out + [item] + rest;
      out := out + [item];
      i := i + count;
    }
    NoRuns(lines);
  }

  lemma NoRuns(lines: seq<string>)
    ensures RenderAll(Runs(lines, |lines|)) == []
  {
  }

  method DeduplicateLines(s: string) returns (out: string)
    ensures out == Join(Deduplicated(Lines(s)))
  {
    var kept := DeduplicateAll(Lines(s));
    return Join(kept);
  }

  function Repeat(line: string, n: nat): seq<string> {
    seq(n, i => line)
  }

  function Expand(rs: seq<Run>): seq<string> {
    if rs == [] then [] else Repeat(rs[0].line, rs[0].count) + Expand(rs[1..])
  }

  /** Runs are never empty, and neighbours differ. */
  predicate Maximal(rs: seq<Run>) {
    && (forall i | 0 <= i < |rs| :: rs[i].count >= 1)
    && (forall i | 0 <= i < |rs| - 1 :: rs[i].line != rs[i + 1].line)
  }

  /** The runs are maximal, and expanding them gives back the lines. */
  lemma {:induction false} RunsExpand(lines: seq<string>, i: nat)
    requires i <= |lines|
    ensures Maximal(Runs(lines, i)) && Expand(Runs(lines, i)) == lines[i..]
    decreases |lines| - i
  {
    if i < |lines| {
      var e := SameEnd(lines, i, i + 1);
      RunsExpand(lines, e);
      assert Runs(lines, i)[1..] == Runs(lines, e);
      assert Repeat(lines[i], e - i) == lines[i..e];
      assert lines[i..e] + lines[e..] == lines[i..];
    }
  }

  lemma ExpandEmpty(rs: seq<Run>)
    requires Maximal(rs)
    ensures rs == [] <==> Expand(rs) == []
  {
  }

  lemma ExpandFirst(rs: seq<Run>)
    requires Maximal(rs) && rs != []
    ensures var x := Expand(rs); var n := rs[0].count;
            && n <= |x| && (forall i | 0 <= i < n :: x[i] == rs[0].line) && x[n..] == Expand(rs[1..])
            && (n < |x| ==> x[n] != rs[0].line)
  {
  }

  lemma NotShorter(a: seq<Run>, b: seq<Run>)
    requires Maximal(a) && Maximal(b) && a != [] && b != [] && Expand(a) == Expand(b)
    ensures a[0].count >= b[0].count
  {
    hide Expand;
    ExpandFirst(a);
    ExpandFirst(b);
    var x := Expand(a);
    assert x[0] == a[0].line == b[0].line;
    assert a[0].count < |x| ==> x[a[0].count] != a[0].line;
  }

  /** No other maximal runs expand to the same lines. */
  lemma {:induction false} RunsAreUnique(a: seq<Run>, b: seq<Run>)
    requires Maximal(a) && Maximal(b) && Expand(a) == Expand(b)
    ensures a == b
  {
    hide Expand;
    ExpandEmpty(a);
    ExpandEmpty(b);
    if a != [] {
      ExpandFirst(a);
      ExpandFirst(b);
      assert Expand(a)[0] == a[0].line == b[0].line;
      NotShorter(a, b);
      NotShorter(b, a);
      RunsAreUnique(a[1..], b[1..]);
      assert a == [a[0]] + a[1..] && b == [b[0]] + b[1..];
    }
  }

  predicate NoEqualNeighbours(lines: seq<string>) {
    forall i | 0 <= i < |lines| - 1 :: lines[i] != lines[i + 1]
  }

  lemma {:induction false} RunsAreFewer(lines: seq<string>, i: nat)
    requires i <= |lines|
    ensures |Runs(lines, i)| <= |lines| - i
    ensures |Runs(lines, i)| == |lines| - i ==> forall k | i <= k < |lines| - 1 :: lines[k] != lines[k + 1]
    decreases |lines| - i
  {
    if i < |lines| {
      RunsAreFewer(lines, SameEnd(lines, i, i + 1));
    }
  }

  lemma {:induction false} NothingToDeduplicate(lines: seq<string>, i: nat)
    requires NoEqualNeighbours(lines) && i <= |lines|
    ensures RenderAll(Runs(lines, i)) == lines[i..]
    decreases |lines| - i
  {
    if i < |lines| {
      NextRun(lines, i);
      NothingToDeduplicate(lines, i + 1);
      assert lines[i..] == [lines[i]] + lines[i + 1..];
    }
  }

  /** The stage changes a log exactly when two neighbouring lines are equal. */
  lemma KeptExactly(lines: seq<string>)
    ensures Deduplicated(lines) == lines <==> NoEqualNeighbours(lines)
  {
    RunsAreFewer(lines, 0);
    if NoEqualNeighbours(lines) {
      NothingToDeduplicate(lines, 0);
    }
  }
}
