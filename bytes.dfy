/**
 * Machine integers of the interpreter (u8, u16, u32) as bounded integers,
 * with the wrapping arithmetic of a release build and the bitwise
 * operators `&`, `|` and `^` defined bit by bit.
 */
module Bytes {

  type U8 = x: int | 0 <= x < 0x100
  type U16 = x: int | 0 <= x < 0x1_0000
  type U32 = x: int | 0 <= x < 0x1_0000_0000

  /** u8 `+`, `-` and `*` as a release build evaluates them: modulo 256. */
  function Wrap8(x: int): (r: U8)
    ensures 0 <= x < 0x100 ==> r == x
    ensures 0x100 <= x < 0x200 ==> r == x - 0x100
    ensures -0x100 <= x < 0 ==> r == x + 0x100
  {
    x % 0x100
  }

  /** u16 `+` as a release build evaluates it: modulo 65536. */
  function Wrap16(x: int): (r: U16)
    ensures 0 <= x < 0x1_0000 ==> r == x
  {
    x % 0x1_0000
  }

  lemma DivMod16(q: int, rem: int)
    requires 0 <= rem < 0x10
    ensures (q * 0x10 + rem) / 0x10 == q && (q * 0x10 + rem) % 0x10 == rem
  {
  }

  lemma DivMod256(q: int, rem: int)
    requires 0 <= rem < 0x100
    ensures (q * 0x100 + rem) / 0x100 == q && (q * 0x100 + rem) % 0x100 == rem
  {
  }

  lemma DivMod4096(q: int, rem: int)
    requires 0 <= rem < 0x1000
    ensures (q * 0x1000 + rem) / 0x1000 == q && (q * 0x1000 + rem) % 0x1000 == rem
  {
  }

  function Pow2(n: nat): (r: nat)
    ensures r >= 1
  {
    if n == 0 then 1 else 2 * Pow2(n - 1)
  }

  datatype BitOp = AndOp | OrOp | XorOp

  /** The operator applied to two single bits. */
  function Combine(op: BitOp, p: nat, q: nat): (r: nat)
    requires p < 2 && q < 2
    ensures r < 2
    ensures op.AndOp? ==> (r == 1 <==> p == 1 && q == 1)
    ensures op.OrOp? ==> (r == 1 <==> p == 1 || q == 1)
    ensures op.XorOp? ==> (r == 1 <==> p != q)
  {
    match op
    case AndOp => if p == 1 && q == 1 then 1 else 0
    case OrOp => if p + q > 0 then 1 else 0
    case XorOp => (p + q) % 2
  }

  /** The low `width` bits of `a op b`, least significant bit first. */
  function Bitwise(op: BitOp, a: nat, b: nat, width: nat): nat
    decreases width
  {
    if width == 0 then 0
    else 2 * Bitwise(op, a / 2, b / 2, width - 1) + Combine(op, a % 2, b % 2)
  }

  /** The result has no bit at or above `width`. */
  lemma {:induction false} BitwiseBound(op: BitOp, a: nat, b: nat, width: nat)
    ensures Bitwise(op, a, b, width) < Pow2(width)
    decreases width
  {
    if width > 0 {
      BitwiseBound(op, a / 2, b / 2, width - 1);
    }
  }

  /** Bit k of v, counting from the least significant bit 0. */
  function Bit(v: nat, k: nat): (b: nat)
    ensures b < 2
    decreases k
  {
    if k == 0 then v % 2 else Bit(v / 2, k - 1)
  }

  /** Each of the low `width` bits of `a op b` is the operator applied to those bits of a and b. */
  lemma {:induction false} BitwiseBits(op: BitOp, a: nat, b: nat, width: nat)
    ensures forall k :: 0 <= k < width ==> Bit(Bitwise(op, a, b, width), k) == Combine(op, Bit(a, k), Bit(b, k))
    decreases width
  {
    if width > 0 {
      var rest := Bitwise(op, a / 2, b / 2, width - 1);
      var r := Bitwise(op, a, b, width);
      assert r / 2 == rest && r % 2 == Combine(op, a % 2, b % 2);
      BitwiseBits(op, a / 2, b / 2, width - 1);
      forall k | 0 < k < width
        ensures Bit(r, k) == Combine(op, Bit(a, k), Bit(b, k))
      {
        assert Bit(r, k) == Bit(rest, k - 1);
      }
    }
  }

  /** u8 `&`: bit k is set exactly when it is set in both operands. */
  function And8(a: U8, b: U8): (r: U8)
    ensures forall k :: 0 <= k < 8 ==> (Bit(r, k) == 1 <==> Bit(a, k) == 1 && Bit(b, k) == 1)
  {
    BitwiseBound(AndOp, a, b, 8);
    BitwiseBits(AndOp, a, b, 8);
    assert Pow2(8) == 0x100;
    Bitwise(AndOp, a, b, 8)
  }

  /** u8 `|`: bit k is set exactly when it is set in either operand. */
  function Or8(a: U8, b: U8): (r: U8)
    ensures forall k :: 0 <= k < 8 ==> (Bit(r, k) == 1 <==> Bit(a, k) == 1 || Bit(b, k) == 1)
  {
    BitwiseBound(OrOp, a, b, 8);
    BitwiseBits(OrOp, a, b, 8);
    assert Pow2(8) == 0x100;
    Bitwise(OrOp, a, b, 8)
  }

  /** u8 `^`: bit k is set exactly when the operands differ there. */
  function Xor8(a: U8, b: U8): (r: U8)
    ensures forall k :: 0 <= k < 8 ==> (Bit(r, k) == 1 <==> Bit(a, k) != Bit(b, k))
  {
    BitwiseBound(XorOp, a, b, 8);
    BitwiseBits(XorOp, a, b, 8);
    assert Pow2(8) == 0x100;
    Bitwise(XorOp, a, b, 8)
  }

  /** A conjunction never has a bit outside its second operand: `(a & b) & b == a & b`. */
  lemma {:induction false} AndStaysWithin(a: nat, b: nat, width: nat)
    ensures Bitwise(AndOp, Bitwise(AndOp, a, b, width), b, width) == Bitwise(AndOp, a, b, width)
    ensures Bitwise(AndOp, a, b, width) <= b
  {
    if width > 0 {
      var r := Bitwise(AndOp, a, b, width);
      var rest := Bitwise(AndOp, a / 2, b / 2, width - 1);
      AndStaysWithin(a / 2, b / 2, width - 1);
      assert r / 2 == rest && r % 2 == Combine(AndOp, a % 2, b % 2);
    }
  }

  /** u8 `&` never sets a bit its second operand lacks. */
  lemma And8Within(a: U8, b: U8)
    ensures And8(a, b) <= b && And8(And8(a, b), b) == And8(a, b)
  {
    AndStaysWithin(a, b, 8);
  }

  /** No bit is set in `a op 0` when `0 op 0` is 0, and none in `a & 0`. */
  lemma {:induction false} BitwiseOfZero(op: BitOp, a: nat, width: nat)
    requires op.AndOp? || a == 0
    ensures Bitwise(op, a, 0, width) == 0
    decreases width
  {
    if width > 0 {
      BitwiseOfZero(op, a / 2, width - 1);
    }
  }

  /** `v & 1` is the lowest bit of v. */
  lemma AndOne(v: U8)
    ensures And8(v, 1) == v % 2
  {
    BitwiseOfZero(AndOp, v / 2, 7);
    assert And8(v, 1) == 2 * Bitwise(AndOp, v / 2, 0, 7) + Combine(AndOp, v % 2, 1);
  }

  /** Exclusive or with the same operand twice gives the low bits back. */
  lemma {:induction false} XorTwice(a: nat, b: nat, width: nat)
    requires a < Pow2(width)
    ensures Bitwise(XorOp, Bitwise(XorOp, a, b, width), b, width) == a
  {
    if width > 0 {
      var r := Bitwise(XorOp, a, b, width);
      var rest := Bitwise(XorOp, a / 2, b / 2, width - 1);
      assert r / 2 == rest && r % 2 == Combine(XorOp, a % 2, b % 2);
      XorTwice(a / 2, b / 2, width - 1);
    }
  }

  /** `|` with the same operand again changes nothing: `(a | b) | b == a | b`. */
  lemma {:induction false} OrIdempotent(a: nat, b: nat, width: nat)
    ensures Bitwise(OrOp, Bitwise(OrOp, a, b, width), b, width) == Bitwise(OrOp, a, b, width)
  {
    if width > 0 {
      var r := Bitwise(OrOp, a, b, width);
      var rest := Bitwise(OrOp, a / 2, b / 2, width - 1);
      assert r / 2 == rest && r % 2 == Combine(OrOp, a % 2, b % 2);
      OrIdempotent(a / 2, b / 2, width - 1);
    }
  }
}
