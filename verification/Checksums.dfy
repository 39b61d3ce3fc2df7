/** The CRC that the archive formats share, by its bit loop and by the table of RFC 1952. */
module Checksums {
  import opened Basics
  import opened ByteFormat

  const POLYNOMIAL: bv32 := 0xedb88320
  const BITS: nat := 8

  function Word(b: Byte): bv32 {
    b as bv32
  }

  function Shift(c: bv32): bv32 {
    if c & 1 == 1 then POLYNOMIAL ^ (c >> 1) else c >> 1
  }

  function Iterate<T>(f: T -> T, c: T, times: nat): T
    decreases times
  {
    if times == 0 then c else Iterate(f, f(c), times - 1)
  }

  /** One byte of the checksum loop. */
  function CrcStep(c: bv32, b: Byte): bv32 {
    Stepped(c, Word(b))
  }

  function Stepped(c: bv32, w: bv32): bv32 {
    Iterate(Shift, Xor(c, w), BITS)
  }

  function Xor(a: bv32, b: bv32): bv32 {
    a ^ b
  }

  function Fold(step: (bv32, Byte) -> bv32, c: bv32, data: Bytes): bv32
    decreases |data|
  {
    if data == [] then c else Fold(step, step(c, data[0]), data[1..])
  }

  lemma {:induction false} FoldAppend(step: (bv32, Byte) -> bv32, c: bv32, a: Bytes, b: Bytes)
    ensures Fold(step, c, a + b) == Fold(step, Fold(step, c, a), b)
    decreases |a|
  {
    if a == [] {
      assert a + b == b;
    } else {
      assert (a + b)[1..] == a[1..] + b;
      FoldAppend(step, step(c, a[0]), a[1..], b);
    }
  }

  lemma {:induction false} FoldSame(step: (bv32, Byte) -> bv32, other: (bv32, Byte) -> bv32, c: bv32, data: Bytes)
    requires forall x, b :: step(x, b) == other(x, b)
    ensures Fold(step, c, data) == Fold(other, c, data)
    decreases |data|
  {
    if data != [] {
      FoldSame(step, other, step(c, data[0]), data[1..]);
    }
  }

  function Not(c: bv32): bv32 {
    !c
  }

  /** The checksum that continues from an earlier one. */
  function Crc32(crc: bv32, data: Bytes): bv32 {
    Not(Fold(CrcStep, Not(crc), data))
  }

  function Number(c: bv32): (r: nat)
    ensures r < U32
  {
    c as nat
  }

  function Checksum(data: Bytes): (r: nat)
    ensures r < U32
  {
    Number(Crc32(0, data))
  }

  lemma NotNot(c: bv32)
    ensures Not(Not(c)) == c
  {
  }

  /** A checksum may be computed piece by piece. */
  lemma CrcContinues(crc: bv32, a: Bytes, b: Bytes)
    ensures Crc32(Crc32(crc, a), b) == Crc32(crc, a + b)
  {
    FoldAppend(CrcStep, Not(crc), a, b);
    NotNot(Fold(CrcStep, Not(crc), a));
  }

  // ------------------------------------------------------------------------------------------
  // The same checksum by the table of section 8 of RFC 1952.

  /** Entry n of the table. */
  function Table(n: bv32): bv32 {
    Iterate(Shift, n, BITS)
  }

  /** The first entries are those of the published table. */
  lemma TableBegins()
    ensures Table(1) == 0x77073096 && Table(128) == 0xedb88320
  {
    assert Iterate(Shift, 128, 7) == 1;
  }

  function TableStep(c: bv32, b: Byte): bv32 {
    Xor(Table(LowByte(Xor(c, Word(b)))), UpperBytes(c))
  }

  function LowByte(c: bv32): bv32 {
    c & 0xff
  }

  function UpperBytes(c: bv32): bv32 {
    c >> 8
  }

  lemma XorShift(a: bv32, b: bv32)
    ensures (a ^ b) >> 1 == (a >> 1) ^ (b >> 1)
  {
  }

  lemma XorLow(a: bv32, b: bv32)
    ensures (a ^ b) & 1 == (a & 1) ^ (b & 1)
  {
  }

  lemma LowBit(a: bv32)
    ensures a & 1 == 0 || a & 1 == 1
  {
  }

  lemma XorRegroup(p: bv32, x: bv32, y: bv32)
    ensures (p ^ x) ^ (p ^ y) == x ^ y && (p ^ x) ^ y == p ^ (x ^ y) && x ^ (p ^ y) == p ^ (x ^ y)
  {
  }

  lemma ShiftLinear(a: bv32, b: bv32)
    ensures Shift(a ^ b) == Shift(a) ^ Shift(b)
  {
    XorShift(a, b);
    XorLow(a, b);
    LowBit(a);
    LowBit(b);
    XorRegroup(POLYNOMIAL, a >> 1, b >> 1);
  }

  lemma {:induction false} IterateLinear<T(!new)>(f: T -> T, op: (T, T) -> T, a: T, b: T, times: nat)
    requires forall x, y :: f(op(x, y)) == op(f(x), f(y))
    ensures Iterate(f, op(a, b), times) == op(Iterate(f, a, times), Iterate(f, b, times))
    decreases times
  {
    if times > 0 {
      IterateLinear(f, op, f(a), f(b), times - 1);
    }
  }

  /** A word whose low bits under the mask are clear is only moved down. */
  lemma ShiftClear(a: bv32, mask: bv32)
    requires a & mask == 0 && mask & 1 == 1
    ensures Shift(a) == a >> 1 && (a >> 1) & (mask >> 1) == 0
  {
    assert a & 1 == 0;
  }

  lemma MovedDown(a: bv32)
    ensures (((((((a >> 1) >> 1) >> 1) >> 1) >> 1) >> 1) >> 1) >> 1 == a >> 8
  {
  }

  lemma IterateClear(a: bv32)
    requires a & 0xff == 0
    ensures Iterate(Shift, a, BITS) == a >> 8
  {
    var a1 := Shift(a);
    ShiftClear(a, 0xff);
    var a2 := Shift(a1);
    ShiftClear(a1, 0x7f);
    var a3 := Shift(a2);
    ShiftClear(a2, 0x3f);
    var a4 := Shift(a3);
    ShiftClear(a3, 0x1f);
    var a5 := Shift(a4);
    ShiftClear(a4, 0xf);
    var a6 := Shift(a5);
    ShiftClear(a5, 7);
    var a7 := Shift(a6);
    ShiftClear(a6, 3);
    ShiftClear(a7, 1);
    MovedDown(a);
    IterateEight(Shift, a);
  }

  lemma IterateEight<T>(f: T -> T, a: T)
    ensures Iterate(f, a, BITS) == f(f(f(f(f(f(f(f(a))))))))
  {
    assert Iterate(f, a, 8) == Iterate(f, f(a), 7) == Iterate(f, f(f(a)), 6) == Iterate(f, f(f(f(a))), 5);
    assert Iterate(f, f(f(f(a))), 5) == Iterate(f, f(f(f(f(a)))), 4) == Iterate(f, f(f(f(f(f(a))))), 3);
  }

  function Upper(x: bv32): bv32 {
    x & 0xffffff00
  }

  /** A word is its low byte and the rest. */
  lemma Split(x: bv32)
    ensures Xor(Upper(x), LowByte(x)) == x && LowByte(Upper(x)) == 0
  {
  }

  /** A byte changes the low byte only. */
  lemma UpperKept(c: bv32, w: bv32)
    requires LowByte(w) == w
    ensures UpperBytes(Upper(Xor(c, w))) == UpperBytes(c)
  {
  }

  lemma XorSwap(a: bv32, b: bv32)
    ensures Xor(a, b) == Xor(b, a)
  {
  }

  lemma WordLow(b: Byte)
    ensures LowByte(Word(b)) == Word(b)
  {
  }

  lemma TableXor(high: bv32, low: bv32)
    requires LowByte(high) == 0
    ensures Iterate(Shift, Xor(high, low), BITS) == Xor(UpperBytes(high), Table(low))
  {
    forall y, z
      ensures Shift(Xor(y, z)) == Xor(Shift(y), Shift(z))
    {
      ShiftLinear(y, z);
    }
    IterateLinear(Shift, Xor, high, low, BITS);
    IterateClear(high);
  }

  lemma SteppedByTable(c: bv32, w: bv32)
    requires LowByte(w) == w
    ensures Stepped(c, w) == Xor(Table(LowByte(Xor(c, w))), UpperBytes(c))
  {
    var x := Xor(c, w);
    Split(x);
    UpperKept(c, w);
    TableXor(Upper(x), LowByte(x));
    XorSwap(UpperBytes(c), Table(LowByte(Xor(c, w))));
  }

  lemma StepIsTableStep(c: bv32, b: Byte)
    ensures CrcStep(c, b) == TableStep(c, b)
  {
    WordLow(b);
    SteppedByTable(c, Word(b));
  }

  /** The bitwise loop computes the checksum of RFC 1952. */
  lemma CrcIsTableCrc(crc: bv32, data: Bytes)
    ensures Crc32(crc, data) == Not(Fold(TableStep, Not(crc), data))
  {
    forall c, b
      ensures CrcStep(c, b) == TableStep(c, b)
    {
      StepIsTableStep(c, b);
    }
    FoldSame(CrcStep, TableStep, Not(crc), data);
  }
}
