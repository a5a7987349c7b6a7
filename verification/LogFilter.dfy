/** The whole filter (`janus/src/workflow/filter.rs:15-20`): escapes, progress
    bars, equal lines, in that order. */
module LogFilter {
  import opened Wrappers
  import opened Ansi
  import opened LogLines
  import opened Sessions

  function Cleaned(raw: string): string {
    Join(Deduplicated(Lines(CollapsedText(Stripped(raw)))))
  }

  method CleanPtyOutput(raw: string) returns (out: string)
    ensures out == Cleaned(raw)
  {
    out := StripAnsi(raw);
    out := CollapseProgressBars(out);
    out := DeduplicateLines(out);
  }

  predicate NoEscape(s: string) {
    ESCAPE !in s
  }

  predicate NoneEscape(lines: seq<string>) {
    forall i | 0 <= i < |lines| :: NoEscape(lines[i])
  }

  lemma {:induction false} LinesKeepOut(s: string)
    requires NoEscape(s)
    ensures NoneEscape(Lines(s))
    decreases |s|
  {
    if s != [] && LineLength(s) < |s| {
      LinesKeepOut(s[LineLength(s) + 1..]);
    }
  }

  lemma {:induction false} JoinKeepsOut(lines: seq<string>)
    requires NoneEscape(lines)
    ensures NoEscape(Join(lines))
  {
    if |lines| > 1 {
      JoinKeepsOut(lines[1..]);
    }
  }

  lemma SummaryKeepsOut(first: nat, last: nat, n: nat)
    ensures NoEscape(Summary(first, last, n))
  {
  }

  lemma RenderKeepsOut(r: Run)
    requires NoEscape(r.line)
    ensures NoEscape(Render(r))
  {
  }

  lemma {:induction false} CollapseKeepsOut(lines: seq<string>, i: nat)
    requires NoneEscape(lines) && i <= |lines|
    ensures NoneEscape(Summaries(Groups(lines, i)))
    decreases |lines| - i
  {
    hide NoEscape, ProgressPct, Summary, Groups, Summaries;
    if i == |lines| {
      NoGroups(lines);
    } else {
      var j := GroupEnd(lines, i);
      NextGroup(lines, i);
      var g := lines[i..j];
      if |g| > 1 {
        SummaryKeepsOut(ProgressPct(g[0]).value, ProgressPct(g[|g| - 1]).value, |g|);
      }
      CollapseKeepsOut(lines, j);
    }
  }

  lemma {:induction false} RunsKeepOut(lines: seq<string>, i: nat)
    requires NoneEscape(lines) && i <= |lines|
    ensures NoneEscape(RenderAll(Runs(lines, i)))
    decreases |lines| - i
  {
    hide NoEscape, Render, RenderAll, Runs;
    if i == |lines| {
      NoRuns(lines);
    } else {
      var e := SameEnd(lines, i, i + 1);
      NextRun(lines, i);
      RenderKeepsOut(Run(lines[i], e - i));
      RunsKeepOut(lines, e);
    }
  }

  lemma {:induction false} TrimStartKeepsOut(t: string)
    requires NoEscape(t)
    ensures NoEscape(TrimStart(t))
  {
    if t != [] && IsWhite(t[0]) {
      TrimStartKeepsOut(t[1..]);
    }
  }

  /** Unless the raw output ends inside a freshly opened escape sequence, the
      stored log carries no ESC at all. */
  lemma CleanedHasNoEscape(raw: string)
    requires Scan(Plain, raw) != Escaped
    ensures NoEscape(Cleaned(raw))
  {
    EscapeLeftExactly(raw);
    TrimStartKeepsOut(StripText(raw));
    assert NoEscape(Stripped(raw));
    hide NoEscape, Stripped, Lines;
    var s := Stripped(raw);
    LinesKeepOut(s);
    CollapseKeepsOut(Lines(s), 0);
    JoinKeepsOut(Collapse(Lines(s)));
    LinesKeepOut(CollapsedText(s));
    RunsKeepOut(Lines(CollapsedText(s)), 0);
    JoinKeepsOut(Deduplicated(Lines(CollapsedText(s))));
  }

  lemma SummaryIsLine(first: nat, last: nat, n: nat)
    ensures IsLine(Summary(first, last, n)) && Summary(first, last, n) != ""
  {
    SummaryEnds(first, last, n);
  }

  lemma OneGroup(lines: seq<string>, first: nat, last: nat)
    requires |lines| >= 2 && forall i | 0 <= i < |lines| :: IsProgress(lines[i])
    requires ProgressPct(lines[0]) == Some(first) && ProgressPct(lines[|lines| - 1]) == Some(last)
    ensures Collapse(lines) == [Summary(first, last, |lines|)]
  {
    hide ProgressPct, Summary;
    assert GroupEnd(lines, 0) == |lines| && lines[0..|lines|] == lines;
    NextGroup(lines, 0);
    NoGroups(lines);
  }

  lemma OneLine(line: string)
    ensures Deduplicated([line]) == [line] && Join([line]) == line
  {
    KeptExactly([line]);
  }

  /** The stages in their order: what is progress once the escapes are gone
      becomes one summary of all its lines, before equal lines are counted. */
  lemma ProgressBecomesOneLine(raw: string, lines: seq<string>, first: nat, last: nat)
    requires |lines| >= 2 && forall i | 0 <= i < |lines| :: IsLine(lines[i]) && IsProgress(lines[i])
    requires ProgressPct(lines[0]) == Some(first) && ProgressPct(lines[|lines| - 1]) == Some(last)
    requires Stripped(raw) == Join(lines)
    ensures Cleaned(raw) == Summary(first, last, |lines|)
  {
    EmptyIsNoProgress();
    hide *;
    var line := Summary(first, last, |lines|);
    assert IsProgress(lines[|lines| - 1]);
    LinesReadBack(lines);
    OneGroup(lines, first, last);
    OneLine(line);
    SummaryIsLine(first, last, |lines|);
    LinesReadBack([line]);
    CleanedInSteps(raw);
  }

  lemma CleanedInSteps(raw: string)
    ensures var lines := Lines(Stripped(raw));
            |lines| >= 2 ==> Cleaned(raw) == Join(Deduplicated(Lines(Join(Collapse(lines)))))
  {
    hide Lines, Join, Collapse, Deduplicated, Stripped;
  }

  lemma EmptyIsNoProgress()
    ensures !IsProgress("")
  {
  }
}
