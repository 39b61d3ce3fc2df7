/** Bytes, the little-endian integers of the archive formats and the big-endian words of the network formats. */
module ByteFormat {
  import opened Basics

  type Byte = b: nat | b < 0x100

  type Bytes = seq<Byte>

  const U64: nat := 0x1_0000_0000_0000_0000

  // ------------------------------------------------------------------------------------------
  // Integers.

  function Limit(n: nat): (r: nat)
    ensures r > 0
  {
    if n == 0 then 1 else 0x100 * Limit(n - 1)
  }

  function Put(value: nat, n: nat): (r: Bytes)
    ensures |r| == n
  {
    if n == 0 then [] else [value % 0x100] + Put(value / 0x100, n - 1)
  }

  function Get(bytes: Bytes): (r: nat) {
    if bytes == [] then 0 else bytes[0] + 0x100 * Get(bytes[1..])
  }

  lemma {:induction false} GetPut(value: nat, n: nat)
    requires value < Limit(n)
    ensures Get(Put(value, n)) == value
  {
    if n > 0 {
      GetPut(value / 0x100, n - 1);
      assert Put(value, n)[1..] == Put(value / 0x100, n - 1);
    }
  }

  lemma {:induction false} PutGet(bytes: Bytes)
    ensures Get(bytes) < Limit(|bytes|) && Put(Get(bytes), |bytes|) == bytes
  {
    if bytes != [] {
      PutGet(bytes[1..]);
    }
  }

  lemma Limits()
    ensures Limit(4) == U32 && Limit(8) == U64
  {
    assert Limit(1) == 0x100 && Limit(2) == 0x1_0000 && Limit(3) == 0x100_0000;
    assert Limit(4) == U32 && Limit(5) == 0x100_0000_0000 && Limit(6) == 0x1_0000_0000_0000 && Limit(7) == 0x100_0000_0000_0000;
  }

  // ------------------------------------------------------------------------------------------
  // Big-endian words.

  function Word(v: nat): (r: Bytes)
    ensures |r| == 2
  {
    [v / 0x100 % 0x100, v % 0x100]
  }

  function WordAt(packet: Bytes, offset: nat): (v: nat)
    requires offset + 2 <= |packet|
    ensures v < U16
  {
    var high: nat := packet[offset];
    high * 0x100 + packet[offset + 1]
  }

  lemma WordRead(before: Bytes, v: nat, after: Bytes)
    requires v < U16
    ensures WordAt(before + Word(v) + after, |before|) == v
  {
    var packet := before + Word(v) + after;
    assert packet[|before|] == Word(v)[0] && packet[|before| + 1] == Word(v)[1];
  }
}
