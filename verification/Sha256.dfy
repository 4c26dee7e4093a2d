/** SHA-256 as the standard defines it, FIPS 180-4. */
module Sha256 {
  import opened Bytes

  type Block = b: seq<Byte> | |b| == 64 witness seq(64, _ => 0)

  datatype Words = Words(a: bv32, b: bv32, c: bv32, d: bv32, e: bv32, f: bv32, g: bv32, h: bv32)

  // Section 5.3.3: the initial hash value.
  const INITIAL := Words(0x6a09e667, 0xbb67ae85, 0x3c6ef372, 0xa54ff53a, 0x510e527f, 0x9b05688c, 0x1f83d9ab, 0x5be0cd19)

  // Section 4.2.2: the constants.
  const K0: seq<bv32> := [0x428a2f98, 0x71374491, 0xb5c0fbcf, 0xe9b5dba5, 0x3956c25b, 0x59f111f1, 0x923f82a4, 0xab1c5ed5]
  const K1: seq<bv32> := [0xd807aa98, 0x12835b01, 0x243185be, 0x550c7dc3, 0x72be5d74, 0x80deb1fe, 0x9bdc06a7, 0xc19bf174]
  const K2: seq<bv32> := [0xe49b69c1, 0xefbe4786, 0x0fc19dc6, 0x240ca1cc, 0x2de92c6f, 0x4a7484aa, 0x5cb0a9dc, 0x76f988da]
  const K3: seq<bv32> := [0x983e5152, 0xa831c66d, 0xb00327c8, 0xbf597fc7, 0xc6e00bf3, 0xd5a79147, 0x06ca6351, 0x14292967]
  const K4: seq<bv32> := [0x27b70a85, 0x2e1b2138, 0x4d2c6dfc, 0x53380d13, 0x650a7354, 0x766a0abb, 0x81c2c92e, 0x92722c85]
  const K5: seq<bv32> := [0xa2bfe8a1, 0xa81a664b, 0xc24b8b70, 0xc76c51a3, 0xd192e819, 0xd6990624, 0xf40e3585, 0x106aa070]
  const K6: seq<bv32> := [0x19a4c116, 0x1e376c08, 0x2748774c, 0x34b0bcb5, 0x391c0cb3, 0x4ed8aa4a, 0x5b9cca4f, 0x682e6ff3]
  const K7: seq<bv32> := [0x748f82ee, 0x78a5636f, 0x84c87814, 0x8cc70208, 0x90befffa, 0xa4506ceb, 0xbef9a3f7, 0xc67178f2]
  const K: seq<bv32> := K0 + K1 + K2 + K3 + K4 + K5 + K6 + K7

  // ---------------------------------------------------------------------
  // Section 4.1.2: the functions
  // ---------------------------------------------------------------------

  function Add(x: bv32, y: bv32): bv32 { x + y }

  function Sum(x: bv32, y: bv32, z: bv32, w: bv32): bv32 { x + y + z + w }

  function Xor3(x: bv32, y: bv32, z: bv32): bv32 { x ^ y ^ z }

  function Rotr(x: bv32, n: bv8): bv32
    requires 0 < n < 32
  {
    (x >> n) | (x << (32 - n))
  }

  function Ch(x: bv32, y: bv32, z: bv32): bv32 { (x & y) ^ (!x & z) }

  function Maj(x: bv32, y: bv32, z: bv32): bv32 { (x & y) ^ (x & z) ^ (y & z) }

  function BigSigma0(x: bv32): bv32 { Xor3(Rotr(x, 2), Rotr(x, 13), Rotr(x, 22)) }

  function BigSigma1(x: bv32): bv32 { Xor3(Rotr(x, 6), Rotr(x, 11), Rotr(x, 25)) }

  function SmallSigma0(x: bv32): bv32 { Xor3(Rotr(x, 7), Rotr(x, 18), x >> 3) }

  function SmallSigma1(x: bv32): bv32 { Xor3(Rotr(x, 17), Rotr(x, 19), x >> 10) }

  // ---------------------------------------------------------------------
  // Section 5.1.1: padding
  // ---------------------------------------------------------------------

  const TWO_TO_64 := 0x1_0000_0000_0000_0000

  /** How many zero bytes follow the byte that holds the one bit. */
  function ZeroBytes(length: nat): nat {
    (119 - length % 64) % 64
  }

  /** It is the smallest number that brings the length to 448 bits modulo 512. */
  lemma ZeroBytesIsSmallest(length: nat, other: nat)
    ensures (length + 1 + ZeroBytes(length)) % 64 == 56
    ensures (length + 1 + other) % 64 == 56 ==> ZeroBytes(length) <= other
  {
    var r := length % 64;
    var q := length / 64;
    assert length == 64 * q + r;
    var z := ZeroBytes(length);
    if r <= 55 {
      assert z == 55 - r && length + 1 + z == 64 * q + 56;
      if other < z {
        assert length + 1 + other == 64 * q + (r + 1 + other) && r + 1 + other < 56;
      }
    } else {
      assert z == 119 - r && length + 1 + z == 64 * (q + 1) + 56;
      if other < z {
        var t := r + 1 + other;
        assert length + 1 + other == 64 * q + t && 56 < t < 120;
        if t >= 64 {
          assert length + 1 + other == 64 * (q + 1) + (t - 64) && t - 64 < 56;
        }
      }
    }
  }

  function Zeros(count: nat): (r: seq<Byte>)
    ensures |r| == count
  {
    seq(count, _ => 0)
  }

  /** The low bytes of the number, highest first. */
  function BigEndian(value: nat, width: nat): (r: seq<Byte>)
    ensures |r| == width
  {
    if width == 0 then [] else BigEndian(value / 256, width - 1) + [value % 256]
  }

  lemma WholeBlocks(length: nat)
    ensures (length + 1 + ZeroBytes(length) + 8) % 64 == 0
  {
    ZeroBytesIsSmallest(length, 0);
    var total := length + 1 + ZeroBytes(length);
    assert total == 64 * (total / 64) + 56;
    assert total + 8 == 64 * (total / 64 + 1);
  }

  function Padded(message: seq<Byte>): (r: seq<Byte>)
    ensures |r| % 64 == 0
  {
    WholeBlocks(|message|);
    message + [0x80] + Zeros(ZeroBytes(|message|)) + BigEndian(8 * |message|, 8)
  }

  // ---------------------------------------------------------------------
  // Section 6.2.2: the hash computation
  // ---------------------------------------------------------------------

  function Combine(b0: bv32, b1: bv32, b2: bv32, b3: bv32): bv32 {
    (b0 << 24) | (b1 << 16) | (b2 << 8) | b3
  }

  /** The t-th word of a block, big-endian. */
  function BlockWord(block: Block, t: nat): bv32
    requires t < 16
  {
    Combine(Word(block[4 * t]), Word(block[4 * t + 1]), Word(block[4 * t + 2]), Word(block[4 * t + 3]))
  }

  /** The message schedule. */
  function W(block: Block, t: nat): bv32 {
    if t < 16 then BlockWord(block, t)
    else Sum(SmallSigma1(W(block, t - 2)), W(block, t - 7), SmallSigma0(W(block, t - 15)), W(block, t - 16))
  }

  function Round(v: Words, k: bv32, w: bv32): Words {
    var t1 := Add(Add(Add(Add(v.h, BigSigma1(v.e)), Ch(v.e, v.f, v.g)), k), w);
    var t2 := Add(BigSigma0(v.a), Maj(v.a, v.b, v.c));
    Words(Add(t1, t2), v.a, v.b, v.c, Add(v.d, t1), v.e, v.f, v.g)
  }

  function Rounds(v: Words, block: Block, t: nat): Words
    requires t <= 64
  {
    if t == 0 then v else Round(Rounds(v, block, t - 1), K[t - 1], W(block, t - 1))
  }

  function AddWords(x: Words, y: Words): Words {
    Words(Add(x.a, y.a), Add(x.b, y.b), Add(x.c, y.c), Add(x.d, y.d), Add(x.e, y.e), Add(x.f, y.f), Add(x.g, y.g), Add(x.h, y.h))
  }

  function HashBlock(v: Words, block: Block): Words {
    AddWords(Rounds(v, block, 64), v)
  }

  function HashBlocks(v: Words, bytes: seq<Byte>): Words
    requires |bytes| % 64 == 0
    decreases |bytes|
  {
    if bytes == [] then v else HashBlock(HashBlocks(v, bytes[..|bytes| - 64]), bytes[|bytes| - 64..])
  }

  function Hash(message: seq<Byte>): Words {
    HashBlocks(INITIAL, Padded(message))
  }
}
