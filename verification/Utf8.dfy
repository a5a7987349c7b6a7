/** UTF-8 as section 3 of RFC 3629 defines it, and the lossy decoding that
    replaces ill-formed bytes by U+FFFD. */
module Utf8 {
  import opened Wrappers

  newtype Byte = b: int | 0 <= b < 256

  const REPLACEMENT := '\U{FFFD}'

  function Width(c: char): nat {
    var n := c as int;
    if n < 0x80 then 1 else if n < 0x800 then 2 else if n < 0x1_0000 then 3 else 4
  }

  predicate IsContinuation(b: Byte) {
    0x80 <= b < 0xC0
  }

  function Continuation(bits: int): (b: Byte)
    ensures IsContinuation(b)
  {
    (0x80 + bits % 0x40) as Byte
  }

  function Encode(c: char): (bytes: seq<Byte>)
    ensures |bytes| == Width(c)
    ensures !IsContinuation(bytes[0])
    ensures forall i | 0 < i < |bytes| :: IsContinuation(bytes[i])
  {
    var n := c as int;
    if n < 0x80 then [n as Byte]
    else if n < 0x800 then [(0xC0 + n / 0x40) as Byte, Continuation(n)]
    else if n < 0x1_0000 then [(0xE0 + n / 0x1000) as Byte, Continuation(n / 0x40), Continuation(n)]
    else [(0xF0 + n / 0x4_0000) as Byte, Continuation(n / 0x1000), Continuation(n / 0x40), Continuation(n)]
  }

  function EncodeAll(t: string): seq<Byte> {
    if t == [] then [] else Encode(t[0]) + EncodeAll(t[1..])
  }

  ghost predicate ValidUtf8(bytes: seq<Byte>) {
    exists t: string :: EncodeAll(t) == bytes
  }

  function Bits(b: Byte): int {
    (b % 0x40) as int
  }

  /** How many bytes the lead byte announces; 0 when it cannot start a character. */
  function Announced(lead: Byte): nat {
    if lead < 0x80 then 1
    else if 0xC2 <= lead < 0xE0 then 2
    else if 0xE0 <= lead < 0xF0 then 3
    else if 0xF0 <= lead < 0xF5 then 4
    else 0
  }

  /** The second byte excludes overlong forms, surrogates and values above U+10FFFF. */
  predicate SecondOk(lead: Byte, second: Byte) {
    && IsContinuation(second)
    && (lead == 0xE0 ==> second >= 0xA0) && (lead == 0xED ==> second < 0xA0)
    && (lead == 0xF0 ==> second >= 0x90) && (lead == 0xF4 ==> second < 0x90)
  }

  /** How many of the first bytes can belong to one character. */
  function Fitting(b: seq<Byte>): (n: nat)
    requires b != []
    ensures 1 <= n <= |b|
  {
    var k := Announced(b[0]);
    if k < 2 || |b| < 2 || !SecondOk(b[0], b[1]) then 1
    else if k < 3 || |b| < 3 || !IsContinuation(b[2]) then 2
    else if k < 4 || |b| < 4 || !IsContinuation(b[3]) then 3
    else 4
  }

  predicate StartsChar(b: seq<Byte>) {
    b != [] && Announced(b[0]) == Fitting(b)
  }

  function FirstCode(b: seq<Byte>): (n: int)
    requires StartsChar(b)
    ensures 0 <= n < 0xD800 || 0xE000 <= n < 0x11_0000
  {
    var k := Fitting(b);
    if k == 1 then b[0] as int
    else if k == 2 then (b[0] as int - 0xC0) * 0x40 + Bits(b[1])
    else if k == 3 then (b[0] as int - 0xE0) * 0x1000 + Bits(b[1]) * 0x40 + Bits(b[2])
    else (b[0] as int - 0xF0) * 0x4_0000 + Bits(b[1]) * 0x1000 + Bits(b[2]) * 0x40 + Bits(b[3])
  }

  function FirstChar(b: seq<Byte>): char
    requires StartsChar(b)
  {
    FirstCode(b) as char
  }

  /** `String::from_utf8_lossy`: one U+FFFD per maximal ill-formed piece. */
  function Lossy(b: seq<Byte>): string {
    if b == [] then []
    else [if StartsChar(b) then FirstChar(b) else REPLACEMENT] + Lossy(b[Fitting(b)..])
  }

  lemma DecodeThree(c: char, rest: seq<Byte>)
    requires 0x800 <= c as int < 0x1_0000
    ensures var b := Encode(c) + rest; StartsChar(b) && FirstCode(b) == c as int && Fitting(b) == 3
  {
    var n := c as int;
    assert n == (n / 0x1000) * 0x1000 + (n / 0x40 % 0x40) * 0x40 + n % 0x40;
    assert n / 0x1000 == 0 ==> n / 0x40 % 0x40 >= 0x20;
    assert n / 0x1000 == 0xD ==> n / 0x40 % 0x40 < 0x20;
  }

  /** A code point of four bytes in base 64. */
  lemma FourDigits(n: int)
    requires 0x1_0000 <= n < 0x11_0000
    ensures n == (n / 0x4_0000) * 0x4_0000 + (n / 0x1000 % 0x40) * 0x1000 + (n / 0x40 % 0x40) * 0x40 + n % 0x40
    ensures 0 <= n / 0x4_0000 <= 4
    ensures n / 0x4_0000 == 0 ==> n / 0x1000 % 0x40 >= 0x10
    ensures n / 0x4_0000 == 4 ==> n / 0x1000 % 0x40 < 0x10
  {
  }

  lemma BitsOf(n: int)
    ensures Bits(Continuation(n)) == n % 0x40
  {
  }

  lemma DecodeFour(c: char, rest: seq<Byte>)
    requires 0x1_0000 <= c as int
    ensures var b := Encode(c) + rest; StartsChar(b) && FirstCode(b) == c as int && Fitting(b) == 4
  {
    var n := c as int;
    FourDigits(n);
    BitsOf(n / 0x1000);
    BitsOf(n / 0x40);
    BitsOf(n);
    var b := Encode(c) + rest;
    assert b[0] as int == 0xF0 + n / 0x4_0000 && b[1] == Continuation(n / 0x1000);
    assert SecondOk(b[0], b[1]);
    hide Continuation, SecondOk, Bits;
    assert Fitting(b) == 4;
  }

  lemma DecodeEncoded(c: char, rest: seq<Byte>)
    ensures var b := Encode(c) + rest; StartsChar(b) && FirstChar(b) == c && Fitting(b) == Width(c)
  {
    if c as int < 0x800 {
    } else if c as int < 0x1_0000 {
      DecodeThree(c, rest);
    } else {
      DecodeFour(c, rest);
    }
  }

  lemma LossyStep(c: char, rest: seq<Byte>)
    ensures Lossy(Encode(c) + rest) == [c] + Lossy(rest)
  {
    hide Encode, StartsChar, FirstChar, Fitting;
    DecodeEncoded(c, rest);
    assert (Encode(c) + rest)[Width(c)..] == rest;
  }

  lemma {:induction false} LossyEncoded(t: string, rest: seq<Byte>)
    ensures Lossy(EncodeAll(t) + rest) == t + Lossy(rest)
  {
    hide Encode, Lossy;
    if t == [] {
      assert EncodeAll(t) + rest == rest;
    } else {
      assert EncodeAll(t) + rest == Encode(t[0]) + (EncodeAll(t[1..]) + rest);
      LossyStep(t[0], EncodeAll(t[1..]) + rest);
      LossyEncoded(t[1..], rest);
    }
  }

  /** Decoding what was encoded is the identity; encoding is injective. */
  lemma RoundTrip(t: string)
    ensures Lossy(EncodeAll(t)) == t
  {
    LossyEncoded(t, []);
    assert EncodeAll(t) + [] == EncodeAll(t);
  }

  lemma LossyStray(b: Byte, rest: seq<Byte>)
    requires IsContinuation(b)
    ensures Lossy([b] + rest) == [REPLACEMENT] + Lossy(rest)
  {
  }

  lemma {:induction false} EncodeAllConcat(a: string, b: string)
    ensures EncodeAll(a + b) == EncodeAll(a) + EncodeAll(b)
  {
    if a == [] {
      assert a + b == b;
    } else {
      assert (a + b)[1..] == a[1..] + b;
      EncodeAllConcat(a[1..], b);
    }
  }

  // --- Character boundaries -------------------------------------------------

  /** `str::is_char_boundary`. */
  predicate Boundary(s: seq<Byte>, k: nat)
    requires k <= |s|
  {
    k == 0 || k == |s| || !IsContinuation(s[k])
  }

  /** The byte offset of character `n`. */
  function Offset(t: string, n: nat): nat
    requires n <= |t|
  {
    |EncodeAll(t[..n])|
  }

  lemma {:induction false} SplitAt(t: string, n: nat)
    requires n <= |t|
    ensures EncodeAll(t) == EncodeAll(t[..n]) + EncodeAll(t[n..])
  {
    hide Encode;
    if n == 0 {
      assert t[0..] == t;
    } else {
      SplitAt(t[1..], n - 1);
      assert t[..n][1..] == t[1..][..n - 1];
      assert t[n..] == t[1..][n - 1..];
    }
  }

  lemma OffsetStep(t: string, n: nat)
    requires 0 < n <= |t|
    ensures Offset(t, n) == Width(t[0]) + Offset(t[1..], n - 1)
  {
    assert t[..n][1..] == t[1..][..n - 1];
  }

  /** A byte position is a boundary exactly when a whole number of characters lies before it. */
  lemma BoundaryIsOffset(t: string, k: nat)
    requires k <= |EncodeAll(t)|
    ensures Boundary(EncodeAll(t), k) <==> exists n: nat :: n <= |t| && Offset(t, n) == k
  {
    if Boundary(EncodeAll(t), k) {
      var n := CharsBefore(t, k);
    }
    forall n: nat | n <= |t| && Offset(t, n) == k
      ensures Boundary(EncodeAll(t), k)
    {
      SplitAt(t, n);
      if n < |t| {
        assert EncodeAll(t)[k] == EncodeAll(t[n..])[0] == Encode(t[n])[0];
      } else {
        assert t[..n] == t;
      }
    }
  }

  lemma {:induction false} CharsBefore(t: string, k: nat) returns (n: nat)
    requires k <= |EncodeAll(t)| && Boundary(EncodeAll(t), k)
    ensures n <= |t| && Offset(t, n) == k
  {
    if k == 0 {
      return 0;
    }
    var w := Width(t[0]);
    forall j | 0 < j < w
      ensures !Boundary(EncodeAll(t), j)
    {
      assert EncodeAll(t)[j] == Encode(t[0])[j];
    }
    assert k < |EncodeAll(t)| ==> EncodeAll(t)[k] == EncodeAll(t[1..])[k - w];
    n := CharsBefore(t[1..], k - w);
    n := n + 1;
    OffsetStep(t, n);
  }

  /** No position is more than three bytes after a boundary. */
  lemma {:induction false} BoundaryIsNear(t: string, k: nat) returns (n: nat)
    requires k <= |EncodeAll(t)|
    ensures n <= |t| && Offset(t, n) <= k <= Offset(t, n) + 3
  {
    if t == [] || k < Width(t[0]) {
      return 0;
    }
    n := BoundaryIsNear(t[1..], k - Width(t[0]));
    n := n + 1;
    OffsetStep(t, n);
  }

  lemma {:induction false} AsciiBytes(t: string)
    requires forall i | 0 <= i < |t| :: t[i] as int < 0x80
    ensures |EncodeAll(t)| == |t| && forall i | 0 <= i < |t| :: EncodeAll(t)[i] as int == t[i] as int
  {
    if t != [] {
      AsciiBytes(t[1..]);
    }
  }
}
