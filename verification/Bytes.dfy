/**
 Integers as bytes: little-endian two's complement of any width, and the narrowest width that holds
 a value.
 */
module Bytes {

  type byte = x: int | 0 <= x < 256

  const TWO_TO_THE_31: int := 0x8000_0000
  const TWO_TO_THE_32: int := 0x1_0000_0000
  const TWO_TO_THE_63: int := 0x8000_0000_0000_0000
  const TWO_TO_THE_64: int := 0x1_0000_0000_0000_0000

  type i64 = x: int | -TWO_TO_THE_63 <= x < TWO_TO_THE_63
  type u64 = x: int | 0 <= x < TWO_TO_THE_64

  /** The low `width` bytes of `n`, least significant first; a negative `n` in two's complement. */
  function LittleEndian(n: int, width: nat): (bs: seq<byte>)
    ensures |bs| == width
    decreases width
  {
    if width == 0 then [] else [n % 256] + LittleEndian(n / 256, width - 1)
  }

  function BigEndian(n: int, width: nat): (bs: seq<byte>)
    ensures |bs| == width
    decreases width
  {
    if width == 0 then [] else BigEndian(n / 256, width - 1) + [n % 256]
  }

  function Unsigned(bs: seq<byte>): nat {
    if bs == [] then 0 else bs[0] + 256 * Unsigned(bs[1..])
  }

  function UnsignedBigEndian(bs: seq<byte>): nat {
    if bs == [] then 0 else 256 * UnsignedBigEndian(bs[..|bs| - 1]) + bs[|bs| - 1]
  }

  /** Two's complement: the last byte carries the sign. No bytes at all are zero. */
  function Signed(bs: seq<byte>): int {
    if bs == [] then 0
    else if |bs| == 1 then if bs[0] < 128 then bs[0] else bs[0] - 256
    else bs[0] + 256 * Signed(bs[1..])
  }

  function Power256(k: nat): (p: nat)
    ensures p > 0
  {
    if k == 0 then 1 else 256 * Power256(k - 1)
  }

  /** Whether `width` bytes of two's complement can hold `n`. */
  predicate Holds(width: nat, n: int) {
    if width == 0 then n == 0 else -128 * Power256(width - 1) <= n < 128 * Power256(width - 1)
  }

  // ---------------------------------------------------------------- there and back

  lemma {:induction false} UnsignedUndoes(n: nat, width: nat)
    requires n < Power256(width)
    ensures Unsigned(LittleEndian(n, width)) == n
  {
    if width > 0 {
      UnsignedUndoes(n / 256, width - 1);
      assert LittleEndian(n, width)[1..] == LittleEndian(n / 256, width - 1);
    }
  }

  lemma {:induction false} BigEndianUndoes(n: nat, width: nat)
    requires n < Power256(width)
    ensures UnsignedBigEndian(BigEndian(n, width)) == n
  {
    if width > 0 {
      BigEndianUndoes(n / 256, width - 1);
      assert BigEndian(n, width)[..width - 1] == BigEndian(n / 256, width - 1);
    }
  }

  /** Decoding gives a value back exactly when the width holds it: one byte too few flips the sign. */
  lemma {:induction false} SignedUndoesIff(n: int, width: nat)
    ensures Signed(LittleEndian(n, width)) == n <==> Holds(width, n)
    decreases width
  {
    if width >= 2 {
      SignedUndoesIff(n / 256, width - 1);
      assert LittleEndian(n, width)[1..] == LittleEndian(n / 256, width - 1);
      assert Power256(width - 1) == 256 * Power256(width - 2);
    } else if width == 1 {
      assert LittleEndian(n, 1) == [n % 256];
    }
  }

  /** A body of any length decodes to something that length can hold. */
  lemma {:induction false} SignedIsHeld(bs: seq<byte>)
    ensures Holds(|bs|, Signed(bs))
  {
    if |bs| >= 2 {
      SignedIsHeld(bs[1..]);
      assert Power256(|bs| - 1) == 256 * Power256(|bs| - 2);
    }
  }

  lemma {:induction false} WiderHolds(narrow: nat, wide: nat, n: int)
    requires narrow <= wide && Holds(narrow, n)
    ensures Holds(wide, n)
  {
    if narrow < wide {
      WiderHolds(narrow, wide - 1, n);
      if wide >= 2 {
        assert Power256(wide - 1) == 256 * Power256(wide - 2);
      }
    }
  }

  lemma {:induction false} EightBytesHold(n: i64)
    ensures Holds(8, n)
    ensures Power256(4) == TWO_TO_THE_32 && Power256(8) == TWO_TO_THE_64
  {
    assert Power256(2) == 0x1_0000;
    assert Power256(4) == 0x1_0000_0000;
    assert Power256(6) == 0x1_0000_0000_0000;
    assert Power256(8) == 0x1_0000_0000_0000_0000;
  }

  // ---------------------------------------------------------------- the narrowest body

  function NarrowestUpTo(n: i64, width: nat): (w: nat)
    requires 1 <= width && Holds(width, n)
    ensures 1 <= w <= width && Holds(w, n)
    ensures w > 1 ==> !Holds(w - 1, n)
  {
    if width > 1 && Holds(width - 1, n) then NarrowestUpTo(n, width - 1) else width
  }

  /** The fewest bytes, but never none, that hold `n`. */
  function Narrowest(n: i64): (w: nat)
    ensures 1 <= w <= 8 && Holds(w, n)
    ensures w > 1 ==> !Holds(w - 1, n)
  {
    EightBytesHold(n);
    NarrowestUpTo(n, 8)
  }

  /** How the writer sees that a byte can go: it is sign extension and the byte below carries the sign. */
  lemma {:induction false} SignExtension(n: int, width: nat)
    requires width >= 2 && Holds(width, n)
    ensures var bs := LittleEndian(n, width);
            Holds(width - 1, n) <==>
              if n < 0 then bs[width - 1] == 255 && bs[width - 2] >= 128 else bs[width - 1] == 0 && bs[width - 2] < 128
    decreases width
  {
    assert Power256(width - 1) == 256 * Power256(width - 2);
    if width >= 3 {
      SignExtension(n / 256, width - 1);
      assert Power256(width - 2) == 256 * Power256(width - 3);
      assert LittleEndian(n, width)[1..] == LittleEndian(n / 256, width - 1);
    } else {
      assert LittleEndian(n, 2) == [n % 256, n / 256 % 256];
    }
  }

  lemma {:induction false} PrefixOfLittleEndian(n: int, narrow: nat, wide: nat)
    requires narrow <= wide
    ensures LittleEndian(n, wide)[..narrow] == LittleEndian(n, narrow)
    decreases wide
  {
    if narrow > 0 {
      PrefixOfLittleEndian(n / 256, narrow - 1, wide - 1);
      assert LittleEndian(n, wide)[..narrow] == [n % 256] + LittleEndian(n / 256, wide - 1)[..narrow - 1];
    }
  }

  /** `long1_body`: the shortest encoding of `n` whose sign bit is right. */
  method Long1Body(n: i64) returns (body: seq<byte>)
    ensures body == LittleEndian(n, Narrowest(n))
    ensures Signed(body) == n
    ensures 1 <= |body| <= 8
    ensures forall bs: seq<byte> :: Signed(bs) == n && bs != [] ==> |body| <= |bs|
    ensures forall bs: seq<byte> :: Signed(bs) == n && |bs| == |body| ==> bs == body
  {
    var full := LittleEndian(n, 8);
    var len := 8;
    var pad: byte := if n < 0 then 0xff else 0x00;
    EightBytesHold(n);
    while len > 1 && full[len - 1] == pad && (if n < 0 then full[len - 2] >= 0x80 else full[len - 2] < 0x80)
      invariant 1 <= len <= 8 && Holds(len, n)
    {
      PrefixOfLittleEndian(n, len, 8);
      assert full[..len][len - 2] == full[len - 2];
      SignExtension(n, len);
      len := len - 1;
    }
    PrefixOfLittleEndian(n, len, 8);
    if len > 1 {
      assert full[..len][len - 2] == full[len - 2];
      SignExtension(n, len);
    }
    body := full[..len];
    OnlyNarrowest(n, len);
    SignedUndoesIff(n, len);
    forall bs: seq<byte> | Signed(bs) == n && bs != []
      ensures |body| <= |bs|
    {
      SignedIsHeld(bs);
      if |bs| < len { WiderHolds(|bs|, len - 1, n); }
    }
    forall bs: seq<byte> | Signed(bs) == n && |bs| == |body|
      ensures bs == body
    {
      SignedIsInjective(bs, body);
    }
  }

  lemma {:induction false} OnlyNarrowest(n: i64, width: nat)
    requires 1 <= width <= 8 && Holds(width, n) && (width > 1 ==> !Holds(width - 1, n))
    ensures width == Narrowest(n)
  {
    var w := Narrowest(n);
    if w < width { WiderHolds(w, width - 1, n); }
    if width < w { WiderHolds(width, w - 1, n); }
  }

  /** Two bodies of one length that decode alike are the same body. */
  lemma {:induction false} SignedIsInjective(a: seq<byte>, b: seq<byte>)
    requires |a| == |b| && Signed(a) == Signed(b)
    ensures a == b
  {
    if |a| >= 2 {
      assert a[0] == b[0];
      SignedIsInjective(a[1..], b[1..]);
      assert a == [a[0]] + a[1..] && b == [b[0]] + b[1..];
    }
  }

  // ---------------------------------------------------------------- regrouping

  lemma {:induction false} Regroup(a: seq<byte>, b: seq<byte>, c: seq<byte>)
    ensures (a + b) + c == a + (b + c)
  {
  }

  lemma {:induction false} RegroupOpcode(buffer: seq<byte>, op: byte, length: byte, body: seq<byte>)
    ensures buffer + [op] + [length] + body == buffer + ([op, length] + body)
  {
    assert [op] + [length] == [op, length];
  }
}
