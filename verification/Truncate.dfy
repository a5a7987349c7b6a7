/** `truncate_16k` (`janus/src/protocol.rs:195-218`): the 16 KiB log budget. */
module Truncate {
  import opened Utf8

  const SIZE_BUDGET: nat := 16 * 1024
  /** The tag is 30 characters of plain ASCII. */
  function BudgetTag(): (t: string)
    ensures |t| == 30 && forall i | 0 <= i < |t| :: t[i] as int < 0x80
  {
    "[MetaMach Log Budget Exceeded]"
  }

  function Tag(): (b: seq<Byte>)
    ensures |b| == 30 && b == EncodeAll(BudgetTag())
  {
    hide BudgetTag;
    AsciiBytes(BudgetTag());
    EncodeAll(BudgetTag())
  }

  /** How much text fits beside the tag. */
  function Target(): nat {
    SIZE_BUDGET - |BudgetTag()|
  }

  /** Moves back to a character boundary. */
  function BackUp(s: seq<Byte>, cut: nat): (k: nat)
    requires cut <= |s|
    ensures k <= cut && Boundary(s, k) && forall j | k < j <= cut :: !Boundary(s, j)
  {
    if Boundary(s, cut) then cut else BackUp(s, cut - 1)
  }

  function Truncated(s: seq<Byte>): seq<Byte> {
    if |s| <= SIZE_BUDGET then s else s[..BackUp(s, Target())] + Tag()
  }

  method Truncate16k(s: seq<Byte>) returns (out: seq<Byte>)
    ensures out == Truncated(s)
  {
    hide BudgetTag;
    if |s| <= SIZE_BUDGET {
      return s;
    }
    var cut := Target();
    while !Boundary(s, cut)
      invariant 0 <= cut <= |s| && BackUp(s, cut) == BackUp(s, Target())
      decreases cut
    {
      cut := cut - 1;
    }
    out := s[..cut];
    out := out + Tag();
  }

  /** The first `n` characters are the most that leave room for the tag. */
  ghost predicate CutAt(t: string, n: nat) {
    && n < |t| && Truncated(EncodeAll(t)) == EncodeAll(t[..n] + BudgetTag())
    && Offset(t, n) <= Target() <= Offset(t, n) + 3
    && (forall m: nat | n < m <= |t| :: Offset(t, m) > Target())
  }

  /** A text that fits is kept. Any other becomes its longest whole-character
      prefix that leaves room for the tag, found within three bytes, then the tag. */
  lemma LongestPrefix(t: string)
    ensures |EncodeAll(t)| <= SIZE_BUDGET ==> Truncated(EncodeAll(t)) == EncodeAll(t)
    ensures |EncodeAll(t)| > SIZE_BUDGET ==> exists n: nat :: CutAt(t, n)
  {
    assert Target() <= SIZE_BUDGET;
    hide BudgetTag, EncodeAll, BackUp, Offset, Target;
    var s := EncodeAll(t);
    if |s| > SIZE_BUDGET {
      var n := CharsBefore(t, BackUp(s, Target()));
      CutIsLongest(t, n);
      CutText(t, n);
      hide Truncated;
      assert CutAt(t, n);
    }
  }

  lemma CutText(t: string, n: nat)
    requires |EncodeAll(t)| > SIZE_BUDGET && n <= |t| && Offset(t, n) == BackUp(EncodeAll(t), Target())
    ensures Truncated(EncodeAll(t)) == EncodeAll(t[..n] + BudgetTag())
  {
    hide BudgetTag, EncodeAll, BackUp;
    SplitAt(t, n);
    EncodeAllConcat(t[..n], BudgetTag());
  }

  /** Backing up from the target finds the last boundary before it. */
  lemma CutIsLongest(t: string, n: nat)
    requires |EncodeAll(t)| > SIZE_BUDGET && n <= |t| && Offset(t, n) == BackUp(EncodeAll(t), Target())
    ensures n < |t| && Offset(t, n) <= Target() <= Offset(t, n) + 3
    ensures forall m: nat | n < m <= |t| :: Offset(t, m) > Target()
  {
    var near := BoundaryIsNear(t, Target());
    BoundaryIsOffset(t, Offset(t, near));
    OffsetsGrow(t, near, |t|);
    assert t[..|t|] == t;
    hide EncodeAll, BudgetTag;
    forall m: nat | n < m <= |t|
      ensures Offset(t, m) > Target()
    {
      OffsetsGrow(t, n, m);
      OffsetsGrow(t, m, |t|);
      BoundaryIsOffset(t, Offset(t, m));
    }
  }

  lemma {:induction false} OffsetsGrow(t: string, i: nat, j: nat)
    requires i <= j <= |t|
    ensures Offset(t, i) + (j - i) <= Offset(t, j)
    decreases j
  {
    if i < j {
      OffsetsGrow(t, i, j - 1);
      EncodeAllConcat(t[..j - 1], [t[j - 1]]);
      assert t[..j] == t[..j - 1] + [t[j - 1]];
      assert EncodeAll([t[j - 1]]) == Encode(t[j - 1]) + EncodeAll([]);
    }
  }

  /** The result is valid UTF-8 of at most 16384 bytes, and a second truncation
      changes nothing. */
  lemma FitsAndIdempotent(s: seq<Byte>)
    requires ValidUtf8(s)
    ensures ValidUtf8(Truncated(s)) && |Truncated(s)| <= SIZE_BUDGET
    ensures Truncated(Truncated(s)) == Truncated(s)
  {
    AtMostBudget(s);
    ShortIsKept(Truncated(s));
    hide Truncated, CutAt;
    var t: string :| EncodeAll(t) == s;
    LongestPrefix(t);
    if |s| > SIZE_BUDGET {
      var n: nat :| CutAt(t, n);
      CutIsValid(t, n);
    }
  }

  lemma CutIsValid(t: string, n: nat)
    requires CutAt(t, n)
    ensures ValidUtf8(Truncated(EncodeAll(t)))
  {
    hide Truncated, BudgetTag, Offset, Target, EncodeAll;
  }

  lemma ShortIsKept(s: seq<Byte>)
    ensures |s| <= SIZE_BUDGET ==> Truncated(s) == s
  {
  }

  lemma AtMostBudget(s: seq<Byte>)
    ensures |Truncated(s)| <= SIZE_BUDGET
  {
    hide BudgetTag;
  }
}
