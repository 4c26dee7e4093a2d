/** Bytes, and bytes as machine words. */
module Bytes {
  type Byte = x: int | 0 <= x < 256

  // A byte and its eight bits, in two groups of four, highest first.

  datatype Nibble = Nibble(b3: bool, b2: bool, b1: bool, b0: bool)

  datatype Bits = Bits(high: Nibble, low: Nibble)

  function NibbleOf(n: nat): Nibble
    requires n < 16
  {
    var r2 := if n >= 8 then n - 8 else n;
    var r1 := if r2 >= 4 then r2 - 4 else r2;
    Nibble(n >= 8, r2 >= 4, r1 >= 2, r1 == 1 || r1 == 3)
  }

  function WeighNibble(b: Nibble): (r: nat)
    ensures r < 16
  {
    (if b.b3 then 8 else 0) + (if b.b2 then 4 else 0) + (if b.b1 then 2 else 0) + (if b.b0 then 1 else 0)
  }

  function BitsOf(byte: Byte): Bits {
    Bits(NibbleOf(byte / 16), NibbleOf(byte % 16))
  }

  function Weigh(b: Bits): Byte {
    16 * WeighNibble(b.high) + WeighNibble(b.low)
  }

  function PackNibble(b: Nibble): bv8 {
    (if b.b3 then 0x08 else 0) | (if b.b2 then 0x04 else 0) | (if b.b1 then 0x02 else 0) | (if b.b0 then 0x01 else 0)
  }

  function UnpackNibble(octet: bv8): Nibble {
    Nibble(octet & 0x08 != 0, octet & 0x04 != 0, octet & 0x02 != 0, octet & 0x01 != 0)
  }

  function Pack(b: Bits): bv8 {
    (PackNibble(b.high) << 4) | PackNibble(b.low)
  }

  function Unpack(octet: bv8): Bits {
    Bits(UnpackNibble(octet >> 4), UnpackNibble(octet & 0x0F))
  }

  function Octet(byte: Byte): bv8 {
    Pack(BitsOf(byte))
  }

  function ByteOf(octet: bv8): Byte {
    Weigh(Unpack(octet))
  }

  lemma NibbleRoundTrips(n: nat, b: Nibble)
    ensures n < 16 ==> WeighNibble(NibbleOf(n)) == n
    ensures NibbleOf(WeighNibble(b)) == b
  {
  }

  lemma WeightOfBits(byte: Byte)
    ensures Weigh(BitsOf(byte)) == byte
  {
    hide WeighNibble, NibbleOf;
    NibbleRoundTrips(byte / 16, NibbleOf(0));
    NibbleRoundTrips(byte % 16, NibbleOf(0));
  }

  lemma BitsOfWeight(b: Bits)
    ensures BitsOf(Weigh(b)) == b
  {
    NibbleRoundTrips(0, b.high);
    NibbleRoundTrips(0, b.low);
    hide NibbleOf;
    assert Weigh(b) / 16 == WeighNibble(b.high) && Weigh(b) % 16 == WeighNibble(b.low);
  }

  lemma UnpackOfPack(b: Bits)
    ensures Unpack(Pack(b)) == b
  {
  }

  lemma PackOfUnpack(octet: bv8)
    ensures Pack(Unpack(octet)) == octet
  {
  }

  lemma ByteOfOctet(byte: Byte)
    ensures ByteOf(Octet(byte)) == byte
  {
    hide Weigh, Pack, Unpack, BitsOf;
    UnpackOfPack(BitsOf(byte));
    WeightOfBits(byte);
  }

  lemma OctetOfByte(octet: bv8)
    ensures Octet(ByteOf(octet)) == octet
  {
    hide Weigh, Pack, Unpack, BitsOf;
    BitsOfWeight(Unpack(octet));
    PackOfUnpack(octet);
  }

  /** The octet of a byte has the byte's value: it counts up from zero with it. */
  lemma OctetCounts(byte: Byte)
    ensures Octet(0) == 0
    ensures byte < 255 ==> Octet(byte + 1) == Octet(byte) + 1
  {
    hide NibbleOf, PackNibble;
    NibbleCounts(0);
    ShiftZero();
    if byte < 255 {
      var h, l := byte / 16, byte % 16;
      if l < 15 {
        assert (byte + 1) / 16 == h && (byte + 1) % 16 == l + 1;
        NibbleCounts(l);
        NibbleCounts(h);
        CountLow(PackNibble(NibbleOf(h)), PackNibble(NibbleOf(l)));
      } else {
        assert (byte + 1) / 16 == h + 1 && (byte + 1) % 16 == 0;
        NibbleCounts(h);
        NibbleCounts(15);
        CountHigh(PackNibble(NibbleOf(h)));
      }
    }
  }

  lemma NibbleCounts(n: nat)
    requires n < 16
    ensures PackNibble(NibbleOf(0)) == 0 && PackNibble(NibbleOf(15)) == 15 && PackNibble(NibbleOf(n)) <= 15
    ensures n < 15 ==> PackNibble(NibbleOf(n)) <= 14 && PackNibble(NibbleOf(n + 1)) == PackNibble(NibbleOf(n)) + 1
  {
  }

  lemma ShiftZero()
    ensures ((0 as bv8) << 4) | (0 as bv8) == 0
  {
  }

  lemma CountLow(high: bv8, low: bv8)
    requires high <= 15 && low <= 14
    ensures (high << 4) | (low + 1) == ((high << 4) | low) + 1
  {
  }

  lemma CountHigh(high: bv8)
    requires high <= 14
    ensures ((high + 1) << 4) | 0 == ((high << 4) | 15) + 1
  {
  }

  function Widen(octet: bv8): bv32 {
    octet as bv32
  }

  function Word(byte: Byte): bv32 {
    Widen(Octet(byte))
  }

  function Pow256(n: nat): (r: nat)
    ensures r > 0
  {
    if n == 0 then 1 else 256 * Pow256(n - 1)
  }

  lemma ShiftTwice(value: nat, done: nat)
    requires done > 0
    ensures value / 256 / Pow256(done - 1) == value / Pow256(done)
  {
    var a, p := value / 256, Pow256(done - 1);
    var q := a / p;
    assert Pow256(done) == 256 * p && value == 256 * a + value % 256 && a == q * p + a % p;
    assert value == q * (256 * p) + (256 * (a % p) + value % 256);
    Quotient(value, 256 * p, q, 256 * (a % p) + value % 256);
  }

  lemma Quotient(value: nat, divisor: nat, quotient: nat, remainder: nat)
    requires 0 <= remainder < divisor && value == quotient * divisor + remainder
    ensures value / divisor == quotient
  {
    var q := value / divisor;
    assert q * divisor + value % divisor == value;
    if q > quotient {
      Scale(quotient + 1, q, divisor);
    } else if q < quotient {
      Scale(q + 1, quotient, divisor);
    }
  }

  lemma Scale(a: nat, b: nat, factor: nat)
    requires a <= b
    ensures a * factor <= b * factor
  {
  }
}
