/** tmux session names (`janus/src/tmux/mod.rs:27-43`, used by
    `janus/src/workflow/mod.rs:406, 477-482, 787-801`): injective in task, step
    and correction, so that the stale sweep hits exactly one task. */
module Sessions {
  import opened Wrappers
  import opened Envelope

  const SESSION_PREFIX := "tmux-janus-task-"
  const CORRECTION := "-corr-"

  /** The uuid without its hyphens. */
  function Simple(id: Uuid): string {
    id[0..8] + id[9..13] + id[14..18] + id[19..23] + id[24..36]
  }

  function Digit(n: nat): char
    requires n < 10
  {
    '0' + n as char
  }

  predicate IsDigit(c: char) {
    '0' <= c <= '9'
  }

  function Decimal(n: nat): (s: string)
    ensures s != [] && forall i | 0 <= i < |s| :: IsDigit(s[i])
  {
    if n < 10 then [Digit(n)] else Decimal(n / 10) + [Digit(n % 10)]
  }

  function SweepPrefix(task: Uuid): string {
    SESSION_PREFIX + Simple(task) + "-"
  }

  function Suffix(correction: nat): string {
    if correction == 0 then "" else CORRECTION + Decimal(correction)
  }

  /** The first try of a step has no suffix; correction `c` is numbered from 1. */
  function SessionName(task: Uuid, step: nat, correction: nat): string {
    SweepPrefix(task) + Decimal(step) + Suffix(correction)
  }

  function StartsWith(s: string, prefix: string): bool {
    |prefix| <= |s| && s[..|prefix|] == prefix
  }

  /** Where a character of the uuid that is no hyphen ends up. */
  function Shifted(i: nat): int {
    i - (if i > 23 then 4 else if i > 18 then 3 else if i > 13 then 2 else if i > 8 then 1 else 0)
  }

  lemma SimpleAt(id: Uuid, i: nat)
    requires i < 36 && !HyphenAt(i)
    ensures |Simple(id)| == 32 && 0 <= Shifted(i) < 32 && Simple(id)[Shifted(i)] == id[i]
  {
  }

  lemma SimpleInjective(a: Uuid, b: Uuid)
    requires Simple(a) == Simple(b)
    ensures a == b
  {
    hide Simple, Shifted, HexDigit;
    forall i: nat | i < 36
      ensures a[i] == b[i]
    {
      if !HyphenAt(i) {
        SimpleAt(a, i);
        SimpleAt(b, i);
      }
    }
  }

  lemma {:induction false} DecimalInjective(m: nat, n: nat)
    requires Decimal(m) == Decimal(n)
    ensures m == n
  {
    var s := Decimal(m);
    if m >= 10 && n >= 10 {
      assert Decimal(m / 10) == s[..|s| - 1] == Decimal(n / 10);
      DecimalInjective(m / 10, n / 10);
      assert s[|s| - 1] == Digit(m % 10) == Digit(n % 10);
    }
  }

  lemma TaskOfPrefix(a: Uuid, b: Uuid, s: string)
    requires StartsWith(s, SweepPrefix(a)) && StartsWith(s, SweepPrefix(b))
    ensures a == b
  {
    SimpleSize(a);
    SimpleSize(b);
    hide Simple;
    assert |SweepPrefix(a)| == |SweepPrefix(b)| == 49;
    var p := SweepPrefix(a);
    assert p == SweepPrefix(b);
    assert Simple(a) == p[16..48] && Simple(b) == p[16..48];
    SimpleInjective(a, b);
  }

  /** The stale sweep of task `a` matches a session exactly when it is `a`'s. */
  lemma SweepIsExact(a: Uuid, b: Uuid, step: nat, correction: nat)
    ensures StartsWith(SessionName(b, step, correction), SweepPrefix(a)) <==> a == b
  {
    var s := SessionName(b, step, correction);
    assert s[..|SweepPrefix(b)|] == SweepPrefix(b);
    if StartsWith(s, SweepPrefix(a)) {
      TaskOfPrefix(a, b, s);
    }
  }

  lemma LongerDigits(a: string, x: string, b: string, y: string)
    requires |a| < |b| && (forall i | 0 <= i < |b| :: IsDigit(b[i])) && (x == "" || !IsDigit(x[0]))
    ensures a + x != b + y
  {
    if x != "" {
      assert (a + x)[|a|] == x[0] && (b + y)[|a|] == b[|a|];
    }
  }

  /** Where a run of digits ends. */
  lemma DigitsEnd(a: string, x: string, b: string, y: string)
    requires a + x == b + y
    requires forall i | 0 <= i < |a| :: IsDigit(a[i])
    requires forall i | 0 <= i < |b| :: IsDigit(b[i])
    requires x == "" || !IsDigit(x[0])
    requires y == "" || !IsDigit(y[0])
    ensures a == b && x == y
  {
    if |a| < |b| {
      LongerDigits(a, x, b, y);
    } else if |b| < |a| {
      LongerDigits(b, y, a, x);
    }
    assert a == (a + x)[..|a|] && b == (b + y)[..|b|];
    assert x == (a + x)[|a|..] && y == (b + y)[|b|..];
  }

  /** Different (task, step, correction) triples never share a session name. */
  lemma NameInjective(a: Uuid, i: nat, c: nat, b: Uuid, j: nat, d: nat)
    requires SessionName(a, i, c) == SessionName(b, j, d)
    ensures a == b && i == j && c == d
  {
    NameTail(a, i, c);
    NameTail(b, j, d);
    SuffixStart(c);
    SuffixStart(d);
    hide *;
    TaskOfPrefix(a, b, SessionName(a, i, c));
    DigitsEnd(Decimal(i), Suffix(c), Decimal(j), Suffix(d));
    DecimalInjective(i, j);
    SuffixInjective(c, d);
  }

  lemma NameTail(task: Uuid, step: nat, correction: nat)
    ensures var s := SessionName(task, step, correction);
            |s| >= 49 && StartsWith(s, SweepPrefix(task)) && s[49..] == Decimal(step) + Suffix(correction)
  {
    hide Simple, Decimal, Suffix;
    SimpleSize(task);
    var p, tail := SweepPrefix(task), Decimal(step) + Suffix(correction);
    assert SessionName(task, step, correction) == p + tail && |p| == 49;
  }

  lemma SimpleSize(id: Uuid)
    ensures |Simple(id)| == 32
  {
  }

  lemma SuffixStart(correction: nat)
    ensures Suffix(correction) == "" || !IsDigit(Suffix(correction)[0])
  {
  }

  lemma SuffixInjective(c: nat, d: nat)
    requires Suffix(c) == Suffix(d)
    ensures c == d
  {
    if c != 0 && d != 0 {
      assert Suffix(c)[|CORRECTION|..] == Decimal(c) && Suffix(d)[|CORRECTION|..] == Decimal(d);
      hide Decimal;
      DecimalInjective(c, d);
    }
  }
}
