/** `strip_ansi` (`janus/src/workflow/filter.rs:25-76`): a loop over UTF-8
    bytes, a lossy decoding and a trim, against a grammar of escape sequences on
    characters. Final bytes of control sequences are those of section 5.4 of
    ECMA-48. */
module Ansi {
  import opened Wrappers
  import opened Utf8

  const ESC: Byte := 0x1b
  const BEL: Byte := 0x07

  predicate IsCsiTerminator(b: Byte) {
    0x40 <= b <= 0x7E
  }

  // --- The grammar on bytes -------------------------------------------------

  /** What follows the parameters and the final byte of a control sequence. */
  function AfterCsi(b: seq<Byte>): (r: seq<Byte>)
    ensures |r| <= |b|
  {
    if b == [] then [] else if IsCsiTerminator(b[0]) then b[1..] else AfterCsi(b[1..])
  }

  /** What follows an operating system command: BEL or ESC \ ends it, and so
      does any other ESC, which is swallowed. */
  function AfterOsc(b: seq<Byte>): (r: seq<Byte>)
    ensures |r| <= |b|
  {
    if b == [] then []
    else if b[0] == BEL then b[1..]
    else if b[0] == ESC then if |b| > 1 && b[1] == 0x5C then b[2..] else b[1..]
    else AfterOsc(b[1..])
  }

  predicate StartsEscape(b: seq<Byte>) {
    |b| >= 2 && b[0] == ESC
  }

  /** What follows one escape sequence. */
  function AfterEscape(b: seq<Byte>): (r: seq<Byte>)
    requires StartsEscape(b)
    ensures |r| < |b|
  {
    if b[1] == 0x5B then AfterCsi(b[2..]) else if b[1] == 0x5D then AfterOsc(b[2..]) else b[2..]
  }

  function Strip(b: seq<Byte>): seq<Byte>
    decreases |b|
  {
    if b == [] then []
    else if StartsEscape(b) then Strip(AfterEscape(b))
    else [b[0]] + Strip(b[1..])
  }

  // --- The loop -------------------------------------------------------------

  method SkipCsi(bytes: seq<Byte>, from: nat) returns (i: nat)
    requires from <= |bytes|
    ensures from <= i <= |bytes| && bytes[i..] == AfterCsi(bytes[from..])
  {
    i := from;
    while i < |bytes| && !IsCsiTerminator(bytes[i])
      invariant from <= i <= |bytes| && AfterCsi(bytes[i..]) == AfterCsi(bytes[from..])
    {
      assert bytes[i..][1..] == bytes[i + 1..];
      i := i + 1;
    }
    if i < |bytes| {
      assert bytes[i..][1..] == bytes[i + 1..];
      i := i + 1;
    }
  }

  method SkipOsc(bytes: seq<Byte>, from: nat) returns (i: nat)
    requires from <= |bytes|
    ensures from <= i <= |bytes| && bytes[i..] == AfterOsc(bytes[from..])
  {
    i := from;
    while i < |bytes| && bytes[i] != BEL && bytes[i] != ESC
      invariant from <= i <= |bytes| && AfterOsc(bytes[i..]) == AfterOsc(bytes[from..])
    {
      assert bytes[i..][1..] == bytes[i + 1..];
      i := i + 1;
    }
    assert i < |bytes| ==> bytes[i..][1..] == bytes[i + 1..];
    assert i + 1 < |bytes| ==> bytes[i..][2..] == bytes[i + 2..] && bytes[i..][1] == bytes[i + 1];
    if i < |bytes| && bytes[i] == ESC && i + 1 < |bytes| && bytes[i + 1] == 0x5C {
      i := i + 2;
    } else if i < |bytes| {
      i := i + 1;
    }
  }

  method StripBytes(bytes: seq<Byte>) returns (out: seq<Byte>)
    ensures out == Strip(bytes)
  {
    out := [];
    var i := 0;
    while i < |bytes|
      invariant 0 <= i <= |bytes| && out + Strip(bytes[i..]) == Strip(bytes)
    {
      var rest := bytes[i..];
      if bytes[i] == ESC && i + 1 < |bytes| {
        assert StartsEscape(rest) && rest[2..] == bytes[i + 2..];
        if bytes[i + 1] == 0x5B {
          i := SkipCsi(bytes, i + 2);
        } else if bytes[i + 1] == 0x5D {
          i := SkipOsc(bytes, i + 2);
        } else {
          i := i + 2;
        }
      } else {
        assert rest[1..] == bytes[i + 1..];
        out := out + [bytes[i]];
        i := i + 1;
      }
    }
  }

  method StripAnsi(s: string) returns (out: string)
    ensures out == Stripped(s)
  {
    var bytes := StripBytes(EncodeAll(s));
    StripDecodes(s);
    out := Trim(Lossy(bytes));
  }

  // --- The grammar on characters --------------------------------------------

  const ESCAPE := '\U{1B}'

  predicate EndsCsi(c: char) {
    0x40 <= c as int <= 0x7E
  }

  function TextAfterCsi(t: string): (r: string)
    ensures |r| <= |t| && (r != [] ==> r[|r| - 1] == t[|t| - 1])
  {
    if t == [] then [] else if EndsCsi(t[0]) then t[1..] else TextAfterCsi(t[1..])
  }

  function TextAfterOsc(t: string): (r: string)
    ensures |r| <= |t| && (r != [] ==> r[|r| - 1] == t[|t| - 1])
  {
    if t == [] then []
    else if t[0] == '\U{07}' then t[1..]
    else if t[0] == ESCAPE then if |t| > 1 && t[1] == '\\' then t[2..] else t[1..]
    else TextAfterOsc(t[1..])
  }

  /** A two-byte escape takes the first byte of a wider character; what is left
      of that character decodes to U+FFFD. */
  function Remains(c: char): (r: string)
    ensures |r| == Width(c) - 1 && forall i | 0 <= i < |r| :: r[i] == REPLACEMENT
  {
    Marks(Width(c) - 1)
  }

  function Marks(n: nat): (r: string)
    ensures |r| == n && forall i | 0 <= i < n :: r[i] == REPLACEMENT
  {
    if n == 0 then "" else [REPLACEMENT] + Marks(n - 1)
  }

  function StripText(t: string): string
    decreases |t|
  {
    if t == [] then []
    else if t[0] != ESCAPE || |t| == 1 then [t[0]] + StripText(t[1..])
    else if t[1] == '[' then StripText(TextAfterCsi(t[2..]))
    else if t[1] == ']' then StripText(TextAfterOsc(t[2..]))
    else Remains(t[1]) + StripText(t[2..])
  }

  predicate IsWhite(c: char) {
    var n := c as int;
    || 9 <= n <= 13 || n == 0x20 || n == 0x85 || n == 0xA0 || n == 0x1680 || 0x2000 <= n <= 0x200A
    || n == 0x2028 || n == 0x2029 || n == 0x202F || n == 0x205F || n == 0x3000
  }

  function TrimStart(t: string): (r: string)
    ensures r != [] ==> !IsWhite(r[0])
  {
    if t == [] || !IsWhite(t[0]) then t else TrimStart(t[1..])
  }

  function TrimEnd(t: string): (r: string)
    ensures r <= t
    ensures r != [] ==> !IsWhite(r[|r| - 1])
    ensures forall i | |r| <= i < |t| :: IsWhite(t[i])
  {
    if t == [] || !IsWhite(t[|t| - 1]) then t else TrimEnd(t[..|t| - 1])
  }

  /** `str::trim`. */
  function Trim(t: string): (r: string)
    ensures r != [] ==> !IsWhite(r[0]) && !IsWhite(r[|r| - 1])
  {
    TrimEnd(TrimStart(t))
  }

  function Stripped(s: string): string {
    Trim(StripText(s))
  }

  predicate AllWhite(t: string) {
    forall i | 0 <= i < |t| :: IsWhite(t[i])
  }

  lemma {:induction false} StartTrimmed(t: string) returns (pre: string)
    ensures t == pre + TrimStart(t) && AllWhite(pre)
  {
    if t == [] || !IsWhite(t[0]) {
      pre := "";
    } else {
      var more := StartTrimmed(t[1..]);
      pre := [t[0]] + more;
    }
  }

  /** Trimming takes white space off both ends, all of it and nothing else. */
  lemma TrimIsExact(t: string) returns (pre: string, post: string)
    ensures t == pre + Trim(t) + post && AllWhite(pre) && AllWhite(post)
    ensures Trim(t) != "" ==> !IsWhite(Trim(t)[0]) && !IsWhite(Trim(t)[|Trim(t)| - 1])
  {
    hide IsWhite, TrimStart, TrimEnd;
    pre := StartTrimmed(t);
    var rest := TrimStart(t);
    post := rest[|Trim(t)|..];
    assert rest == Trim(t) + post;
  }

  lemma {:induction false} TrimStartOf(pre: string, core: string)
    requires AllWhite(pre) && core != "" && !IsWhite(core[0])
    ensures TrimStart(pre + core) == core
  {
    if pre == "" {
      assert pre + core == core;
    } else {
      assert (pre + core)[1..] == pre[1..] + core;
      TrimStartOf(pre[1..], core);
    }
  }

  lemma {:induction false} TrimEndOf(core: string, post: string)
    requires AllWhite(post) && core != "" && !IsWhite(core[|core| - 1])
    ensures TrimEnd(core + post) == core
  {
    if post == "" {
      assert core + post == core;
    } else {
      assert (core + post)[..|core + post| - 1] == core + post[..|post| - 1];
      TrimEndOf(core, post[..|post| - 1]);
    }
  }

  /** A text between white space is what trimming leaves. */
  lemma TrimOf(pre: string, core: string, post: string)
    requires AllWhite(pre) && AllWhite(post) && core != "" && !IsWhite(core[0]) && !IsWhite(core[|core| - 1])
    ensures Trim(pre + core + post) == core
  {
    hide IsWhite, TrimStart, TrimEnd;
    assert pre + core + post == pre + (core + post);
    TrimStartOf(pre, core + post);
    TrimEndOf(core, post);
  }

  // --- The loop on bytes is the grammar on characters -----------------------

  /** No byte of this character is taken for an escape or a final byte. */
  lemma WideBytes(c: char, i: nat)
    requires i < Width(c)
    ensures Encode(c)[i] as int == c as int || (Encode(c)[i] >= 0x80 && c as int >= 0x80)
  {
  }

  lemma {:induction false} StripPlain(b: seq<Byte>, rest: seq<Byte>)
    requires forall i | 0 <= i < |b| :: b[i] != ESC
    ensures Strip(b + rest) == b + Strip(rest)
  {
    if b == [] {
      assert b + rest == rest;
    } else {
      assert (b + rest)[1..] == b[1..] + rest;
      StripPlain(b[1..], rest);
    }
  }

  lemma {:induction false} CsiPlain(b: seq<Byte>, rest: seq<Byte>)
    requires forall i | 0 <= i < |b| :: !IsCsiTerminator(b[i])
    ensures AfterCsi(b + rest) == AfterCsi(rest)
  {
    if b == [] {
      assert b + rest == rest;
    } else {
      assert (b + rest)[1..] == b[1..] + rest;
      CsiPlain(b[1..], rest);
    }
  }

  lemma {:induction false} CsiOnText(t: string)
    ensures AfterCsi(EncodeAll(t)) == EncodeAll(TextAfterCsi(t))
  {
    if t != [] {
      var b := Encode(t[0]);
      if EndsCsi(t[0]) {
        assert (b + EncodeAll(t[1..]))[1..] == EncodeAll(t[1..]);
      } else {
        forall i | 0 <= i < |b|
          ensures !IsCsiTerminator(b[i])
        {
          WideBytes(t[0], i);
        }
        CsiPlain(b, EncodeAll(t[1..]));
        CsiOnText(t[1..]);
      }
    }
  }

  lemma {:induction false} OscPlain(b: seq<Byte>, rest: seq<Byte>)
    requires forall i | 0 <= i < |b| :: b[i] != BEL && b[i] != ESC
    ensures AfterOsc(b + rest) == AfterOsc(rest)
  {
    if b == [] {
      assert b + rest == rest;
    } else {
      assert (b + rest)[1..] == b[1..] + rest;
      OscPlain(b[1..], rest);
    }
  }

  lemma FirstByte(t: string)
    requires t != []
    ensures EncodeAll(t) != [] && (t[0] as int < 0x80 <==> EncodeAll(t)[0] < 0x80)
    ensures t[0] as int < 0x80 ==> EncodeAll(t)[0] as int == t[0] as int && EncodeAll(t)[1..] == EncodeAll(t[1..])
  {
  }

  lemma {:induction false} OscOnText(t: string)
    ensures AfterOsc(EncodeAll(t)) == EncodeAll(TextAfterOsc(t))
  {
    if t != [] {
      FirstByte(t);
      if t[0] == ESCAPE {
        if |t| > 1 {
          FirstByte(t[1..]);
          assert EncodeAll(t)[1] == EncodeAll(t[1..])[0];
          assert t[1..][1..] == t[2..];
          assert EncodeAll(t)[2..] == EncodeAll(t[1..])[1..];
        }
      } else if t[0] != '\U{07}' {
        forall i | 0 <= i < Width(t[0])
          ensures Encode(t[0])[i] != BEL && Encode(t[0])[i] != ESC
        {
          WideBytes(t[0], i);
        }
        OscPlain(Encode(t[0]), EncodeAll(t[1..]));
        OscOnText(t[1..]);
      }
    }
  }

  lemma {:induction false} LossyStrays(b: seq<Byte>, rest: seq<Byte>)
    requires forall i | 0 <= i < |b| :: IsContinuation(b[i])
    ensures Lossy(b + rest) == Marks(|b|) + Lossy(rest)
  {
    hide Lossy, IsContinuation;
    if b == [] {
      assert b + rest == rest && Marks(0) + Lossy(rest) == Lossy(rest);
    } else {
      assert b + rest == [b[0]] + (b[1..] + rest);
      LossyStray(b[0], b[1..] + rest);
      LossyStrays(b[1..], rest);
      assert Marks(|b|) + Lossy(rest) == [REPLACEMENT] + (Marks(|b| - 1) + Lossy(rest));
    }
  }

  lemma EscapeByte(t: string)
    requires |t| >= 2 && t[0] == ESCAPE
    ensures StartsEscape(EncodeAll(t)) && EncodeAll(t)[1] == EncodeAll(t[1..])[0]
    ensures EncodeAll(t)[2..] == EncodeAll(t[1..])[1..]
  {
    FirstByte(t);
    FirstByte(t[1..]);
  }

  lemma {:induction false} StripDecodes(t: string)
    ensures Lossy(Strip(EncodeAll(t))) == StripText(t)
    decreases |t|
  {
    hide Encode, Lossy;
    if t == [] {
      assert Strip(EncodeAll(t)) == EncodeAll(t);
      RoundTrip(t);
    } else if t[0] != ESCAPE || |t| == 1 {
      StripDecodes(t[1..]);
      PlainFirst(t);
    } else if t[1] == '[' || t[1] == ']' {
      EscapeByte(t);
      FirstByte(t[1..]);
      assert t[1..][1..] == t[2..];
      CsiOnText(t[2..]);
      OscOnText(t[2..]);
      StripDecodes(if t[1] == '[' then TextAfterCsi(t[2..]) else TextAfterOsc(t[2..]));
    } else {
      StripDecodes(t[2..]);
      TwoByteEscape(t);
    }
  }

  lemma PlainFirst(t: string)
    requires t != [] && (t[0] != ESCAPE || |t| == 1)
    ensures Lossy(Strip(EncodeAll(t))) == [t[0]] + Lossy(Strip(EncodeAll(t[1..])))
  {
    hide Lossy;
    if t[0] != ESCAPE {
      forall i | 0 <= i < Width(t[0])
        ensures Encode(t[0])[i] != ESC
      {
        WideBytes(t[0], i);
      }
      StripPlain(Encode(t[0]), EncodeAll(t[1..]));
      LossyStep(t[0], Strip(EncodeAll(t[1..])));
    } else {
      assert EncodeAll(t[1..]) == [] && EncodeAll(t) == [ESC];
      assert Strip(EncodeAll(t)) == Encode(ESCAPE) + [];
      LossyStep(ESCAPE, []);
    }
  }

  lemma TwoByteEscape(t: string)
    requires |t| >= 2 && t[0] == ESCAPE && t[1] != '[' && t[1] != ']'
    ensures Lossy(Strip(EncodeAll(t))) == Remains(t[1]) + Lossy(Strip(EncodeAll(t[2..])))
  {
    hide Lossy, Width;
    var left := Encode(t[1])[1..];
    var rest := EncodeAll(t[2..]);
    RestOfPair(t);
    StripPlain(left, rest);
    LossyStrays(left, Strip(rest));
  }

  lemma EncodeCons(c: char, t: string)
    ensures EncodeAll([c] + t) == Encode(c) + EncodeAll(t)
  {
  }

  /** After a two-byte escape: the rest of the character it cut, and the rest. */
  lemma RestOfPair(t: string)
    requires |t| >= 2 && t[0] == ESCAPE && t[1] != '[' && t[1] != ']'
    ensures Strip(EncodeAll(t)) == Strip(Encode(t[1])[1..] + EncodeAll(t[2..]))
  {
    assert Encode(ESCAPE) == [ESC];
    hide *;
    assert t == [ESCAPE] + ([t[1]] + t[2..]);
    EncodeCons(ESCAPE, [t[1]] + t[2..]);
    EncodeCons(t[1], t[2..]);
    CutCharacter(t[1], EncodeAll(t[2..]));
  }

  lemma CutCharacter(c: char, rest: seq<Byte>)
    requires c != '[' && c != ']'
    ensures Strip([ESC] + (Encode(c) + rest)) == Strip(Encode(c)[1..] + rest)
  {
    WideBytes(c, 0);
    var b := [ESC] + (Encode(c) + rest);
    assert b[1] == Encode(c)[0];
    assert b[2..] == Encode(c)[1..] + rest;
  }

  // --- What stripping keeps and removes -------------------------------------

  /** At most the last character is an ESC. */
  predicate EscapeOnlyLast(t: string) {
    forall i | 0 <= i < |t| - 1 :: t[i] != ESCAPE
  }

  lemma PrependPlain(a: string, t: string)
    requires ESCAPE !in a && EscapeOnlyLast(t)
    ensures EscapeOnlyLast(a + t)
  {
  }

  /** An ESC is left only at the end, and only when the input ends with one. */
  lemma {:induction false} EscapeLeftOnlyAtEnd(t: string)
    ensures EscapeOnlyLast(StripText(t))
    ensures ESCAPE in StripText(t) ==> t[|t| - 1] == ESCAPE && StripText(t)[|StripText(t)| - 1] == ESCAPE
    decreases |t|
  {
    if t == [] {
    } else if t[0] != ESCAPE || |t| == 1 {
      EscapeLeftOnlyAtEnd(t[1..]);
    } else if t[1] == '[' {
      EscapeLeftOnlyAtEnd(TextAfterCsi(t[2..]));
    } else if t[1] == ']' {
      EscapeLeftOnlyAtEnd(TextAfterOsc(t[2..]));
    } else {
      EscapeLeftOnlyAtEnd(t[2..]);
      PrependPlain(Remains(t[1]), StripText(t[2..]));
    }
  }

  lemma {:induction false} StableText(t: string)
    requires EscapeOnlyLast(t)
    ensures StripText(t) == t
  {
    if t != [] {
      StableText(t[1..]);
    }
  }

  lemma {:induction false} TrimStartKeepsEscapeLast(t: string)
    requires EscapeOnlyLast(t)
    ensures EscapeOnlyLast(TrimStart(t))
  {
    if t != [] && IsWhite(t[0]) {
      TrimStartKeepsEscapeLast(t[1..]);
    }
  }

  lemma TrimKeepsEscapeLast(t: string)
    requires EscapeOnlyLast(t)
    ensures EscapeOnlyLast(Trim(t))
  {
    TrimStartKeepsEscapeLast(t);
  }

  lemma TrimTwice(t: string)
    ensures Trim(Trim(t)) == Trim(t)
  {
  }

  /** Text without ESC is kept, apart from the trim. */
  lemma PlainTextKept(t: string)
    requires ESCAPE !in t
    ensures Stripped(t) == Trim(t)
  {
    StableText(t);
  }

  /** Stripping twice is stripping once. */
  lemma StripIsIdempotent(t: string)
    ensures Stripped(Stripped(t)) == Stripped(t)
  {
    EscapeLeftOnlyAtEnd(t);
    TrimKeepsEscapeLast(StripText(t));
    StableText(Stripped(t));
    TrimTwice(StripText(t));
  }

  /** The dangling ESC does occur: nothing follows it to be skipped. */
  lemma DanglingEscape(t: string)
    requires ESCAPE !in t
    ensures StripText(t + [ESCAPE]) == t + [ESCAPE]
  {
    StableText(t + [ESCAPE]);
  }

  /** A control sequence goes as a whole: parameter bytes up to the first final
      byte, which is one of 0x40 to 0x7E. */
  lemma {:induction false} ControlSequenceGoes(p: string, final: char, t: string)
    requires forall i | 0 <= i < |p| :: !(0x40 <= p[i] as int <= 0x7E)
    requires 0x40 <= final as int <= 0x7E
    ensures StripText("\U{1B}[" + p + [final] + t) == StripText(t)
  {
    var whole, rest := "\U{1B}[" + p + [final] + t, p + [final] + t;
    assert whole[0] == ESCAPE && whole[1] == '[' && whole[2..] == rest;
    TextAfterParameters(p, final, t);
  }

  lemma {:induction false} TextAfterParameters(p: string, final: char, t: string)
    requires forall i | 0 <= i < |p| :: !(0x40 <= p[i] as int <= 0x7E)
    requires 0x40 <= final as int <= 0x7E
    ensures TextAfterCsi(p + [final] + t) == t
  {
    var rest := p + [final] + t;
    if p == "" {
      assert rest[0] == final && rest[1..] == t;
    } else {
      assert rest[0] == p[0] && rest[1..] == p[1..] + [final] + t;
      TextAfterParameters(p[1..], final, t);
    }
  }

  /** An operating system command goes up to BEL or ESC \, and with it. */
  lemma {:induction false} CommandGoes(p: string, t: string)
    requires forall i | 0 <= i < |p| :: p[i] != '\U{07}' && p[i] != '\U{1B}'
    ensures StripText("\U{1B}]" + p + "\U{07}" + t) == StripText(t)
    ensures StripText("\U{1B}]" + p + "\U{1B}\\" + t) == StripText(t)
    ensures t != "" && t[0] != '\\' ==> StripText("\U{1B}]" + p + "\U{1B}" + t) == StripText(t)
  {
    forall end: string | end in {"\U{07}", "\U{1B}\\", "\U{1B}"} && (end == "\U{1B}" ==> t != "" && t[0] != '\\')
      ensures StripText("\U{1B}]" + p + end + t) == StripText(t)
    {
      var whole := "\U{1B}]" + p + end + t;
      assert whole[0] == ESCAPE && whole[1] == ']' && whole[2..] == p + end + t;
      TextAfterCommand(p, end, t);
    }
  }

  lemma {:induction false} TextAfterCommand(p: string, end: string, t: string)
    requires forall i | 0 <= i < |p| :: p[i] != '\U{07}' && p[i] != '\U{1B}'
    requires end in {"\U{07}", "\U{1B}\\", "\U{1B}"} && (end == "\U{1B}" ==> t != "" && t[0] != '\\')
    ensures TextAfterOsc(p + end + t) == t
  {
    var rest := p + end + t;
    if p == "" {
      assert rest == end + t && rest[|end|..] == t;
    } else {
      assert rest[0] == p[0] && rest[1..] == p[1..] + end + t;
      TextAfterCommand(p[1..], end, t);
    }
  }

  /** Any other ESC takes the character behind it, here one of a single byte. */
  lemma ShortEscapeGoes(c: char, t: string)
    requires c as int < 0x80 && c != '[' && c != ']'
    ensures StripText("\U{1B}" + [c] + t) == StripText(t)
  {
    var whole := "\U{1B}" + [c] + t;
    assert whole[0] == ESCAPE && whole[1] == c && whole[2..] == t;
    assert Remains(c) == "";
  }

  // --- Exactly when an ESC is left ------------------------------------------

  /** Where a reader of the text stands, character by character. */
  datatype Mode = Plain | Escaped | InCsi | InOsc | OscEscaped

  function Next(m: Mode, c: char): Mode {
    match m
    case Plain => if c == ESCAPE then Escaped else Plain
    case Escaped => if c == '[' then InCsi else if c == ']' then InOsc else Plain
    case InCsi => if EndsCsi(c) then Plain else InCsi
    case InOsc => if c == '\U{07}' then Plain else if c == ESCAPE then OscEscaped else InOsc
    case OscEscaped => if c == '\\' then Plain else if c == ESCAPE then Escaped else Plain
  }

  function Scan(m: Mode, t: string): Mode
    decreases |t|
  {
    if t == [] then m else Scan(Next(m, t[0]), t[1..])
  }

  lemma {:induction false} ScanCsi(t: string)
    ensures Scan(InCsi, t) == Escaped <==> Scan(Plain, TextAfterCsi(t)) == Escaped
  {
    if t != [] && !EndsCsi(t[0]) {
      ScanCsi(t[1..]);
    }
  }

  lemma {:induction false} ScanOsc(t: string)
    ensures Scan(InOsc, t) == Escaped <==> Scan(Plain, TextAfterOsc(t)) == Escaped
  {
    if t == [] {
    } else if t[0] == ESCAPE {
      if |t| > 1 {
        assert t[1..][1..] == t[2..];
      }
    } else if t[0] != '\U{07}' {
      ScanOsc(t[1..]);
    }
  }

  /** Stripping leaves an ESC exactly when the text ends right after one that
      opens a sequence. */
  lemma {:induction false} EscapeLeftExactly(t: string)
    ensures ESCAPE in StripText(t) <==> Scan(Plain, t) == Escaped
    decreases |t|
  {
    if t == [] {
    } else if t[0] != ESCAPE {
      EscapeLeftExactly(t[1..]);
    } else if |t| == 1 {
      assert Scan(Escaped, t[1..]) == Escaped && StripText(t[1..]) == [];
    } else {
      assert t[1..][1..] == t[2..];
      assert Scan(Plain, t) == Scan(Next(Escaped, t[1]), t[2..]);
      if t[1] == '[' {
        ScanCsi(t[2..]);
        EscapeLeftExactly(TextAfterCsi(t[2..]));
      } else if t[1] == ']' {
        ScanOsc(t[2..]);
        EscapeLeftExactly(TextAfterOsc(t[2..]));
      } else {
        EscapeLeftExactly(t[2..]);
      }
    }
  }
}
