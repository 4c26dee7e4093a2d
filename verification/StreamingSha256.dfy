/** The streaming digest object, against the standard. */
module StreamingSha256 {
  import opened Bytes
  import opened Sha256

  /** The standard adds the four terms in the other order. */
  lemma SumOrder(a: bv32, b: bv32, c: bv32, d: bv32)
    ensures Sum(a, b, c, d) == Sum(d, c, b, a)
  {
  }

  lemma AddCommutes(a: bv32, b: bv32)
    ensures Add(a, b) == Add(b, a)
  {
  }

  lemma AddWordsCommutes(x: Words, y: Words)
    ensures AddWords(x, y) == AddWords(y, x)
  {
    hide Add;
    AddCommutes(x.a, y.a);
    AddCommutes(x.b, y.b);
    AddCommutes(x.c, y.c);
    AddCommutes(x.d, y.d);
    AddCommutes(x.e, y.e);
    AddCommutes(x.f, y.f);
    AddCommutes(x.g, y.g);
    AddCommutes(x.h, y.h);
  }

  lemma HashOneMore(v: Words, bytes: seq<Byte>, block: Block)
    requires |bytes| % 64 == 0
    ensures (|bytes| + 64) % 64 == 0 && HashBlocks(v, bytes + block) == HashBlock(HashBlocks(v, bytes), block)
  {
    hide HashBlock;
    assert (bytes + block)[..|bytes|] == bytes && (bytes + block)[|bytes|..] == block;
  }

  /** The schedule as the program computes it, one word after the other. */
  method Schedule(block: Block) returns (schedule: array<bv32>)
    ensures fresh(schedule) && schedule.Length == 64 && forall t :: 0 <= t < 64 ==> schedule[t] == W(block, t)
  {
    hide Combine, Word, SmallSigma0, SmallSigma1, Sum;
    schedule := new bv32[64];
    for index := 0 to 16
      invariant forall t :: 0 <= t < index ==> schedule[t] == W(block, t)
    {
      var offset := 4 * index;
      schedule[index] := Combine(Word(block[offset]), Word(block[offset + 1]), Word(block[offset + 2]), Word(block[offset + 3]));
    }
    for index := 16 to 64
      invariant forall t :: 0 <= t < index ==> schedule[t] == W(block, t)
    {
      var s0 := SmallSigma0(schedule[index - 15]);
      var s1 := SmallSigma1(schedule[index - 2]);
      SumOrder(schedule[index - 16], s0, schedule[index - 7], s1);
      schedule[index] := Sum(schedule[index - 16], s0, schedule[index - 7], s1);
    }
  }

  method Compress(state: Words, block: Block) returns (r: Words)
    ensures r == HashBlock(state, block)
  {
    hide W, BigSigma0, BigSigma1, Ch, Maj, Add;
    var schedule := Schedule(block);
    var a, b, c, d, e, f, g, h := state.a, state.b, state.c, state.d, state.e, state.f, state.g, state.h;
    for index := 0 to 64
      invariant schedule.Length == 64 && forall t :: 0 <= t < 64 ==> schedule[t] == W(block, t)
      invariant Words(a, b, c, d, e, f, g, h) == Rounds(state, block, index)
    {
      var first := Add(Add(Add(Add(h, BigSigma1(e)), Ch(e, f, g)), K[index]), schedule[index]);
      var second := Add(BigSigma0(a), Maj(a, b, c));
      h := g;
      g := f;
      f := e;
      e := Add(d, first);
      d := c;
      c := b;
      b := a;
      a := Add(first, second);
    }
    AddWordsCommutes(state, Words(a, b, c, d, e, f, g, h));
    return Words(Add(state.a, a), Add(state.b, b), Add(state.c, c), Add(state.d, d),
                 Add(state.e, e), Add(state.f, f), Add(state.g, g), Add(state.h, h));
  }

  class Digest {
    var state: Words
    const buffer: array<Byte>
    var bufferSize: nat
    var bitCount: nat
    ghost var hashed: seq<Byte>
    ghost var message: seq<Byte>

    /** The blocks hashed so far and the buffer together are the message so far. */
    ghost predicate Valid()
      reads this, buffer
    {
      && buffer.Length == 64 && bufferSize < 64 && |hashed| % 64 == 0
      && message == hashed + buffer[..bufferSize]
      && state == HashBlocks(INITIAL, hashed)
      && bitCount == (8 * |message|) % TWO_TO_64
    }

    constructor ()
      ensures Valid() && fresh(buffer) && message == []
    {
      state := INITIAL;
      buffer := new Byte[64](_ => 0);
      bufferSize, bitCount := 0, 0;
      hashed, message := [], [];
    }

    method Transform()
      requires buffer.Length == 64 && |hashed| % 64 == 0 && state == HashBlocks(INITIAL, hashed)
      modifies this`state, this`hashed
      ensures hashed == old(hashed) + buffer[..]
      ensures |hashed| % 64 == 0 && state == HashBlocks(INITIAL, hashed)
    {
      hide HashBlocks, HashBlock;
      HashOneMore(INITIAL, hashed, buffer[..]);
      state := Compress(state, buffer[..]);
      hashed := hashed + buffer[..];
    }

    method Update(input: seq<Byte>)
      requires Valid()
      modifies this, buffer
      ensures Valid() && message == old(message) + input
    {
      hide Valid;
      assert input[..0] == [];
      for index := 0 to |input|
        invariant Valid() && message == old(message) + input[..index]
      {
        Take(input[index]);
        assert input[..index + 1] == input[..index] + [input[index]];
      }
      assert input[..|input|] == input;
    }

    /** One byte of the message. */
    method Take(byte: Byte)
      requires Valid()
      modifies this, buffer
      ensures Valid() && message == old(message) + [byte]
    {
      hide HashBlocks;
      CountByte(|message|, bitCount);
      buffer[bufferSize] := byte;
      bufferSize := bufferSize + 1;
      bitCount := (bitCount + 8) % TWO_TO_64;
      message := message + [byte];
      assert message == hashed + buffer[..bufferSize];
      if bufferSize == 64 {
        assert buffer[..64] == buffer[..];
        Transform();
        bufferSize := 0;
        assert message == hashed + buffer[..0];
      }
    }

    /** Pads the message and gives its hash. */
    method Finish() returns (r: Words)
      requires Valid()
      modifies this, buffer
      ensures message == old(message)
      ensures |message| < 0x2000_0000_0000_0000 ==> hashed == Padded(message) && r == Hash(message)
    {
      hide HashBlocks, HashBlock, Padded, BigEndian, Zeros;
      var messageBits := bitCount;
      ghost var size, head, first := bufferSize, buffer[..bufferSize], hashed;
      buffer[bufferSize] := 0x80;
      bufferSize := bufferSize + 1;
      assert buffer[..bufferSize] == head + [0x80];
      if bufferSize > 56 {
        FillZeros(bufferSize, 64);
        Transform();
        bufferSize := 0;
        assert buffer[..0] == [];
        LastBlock(messageBits, []);
        TwoBlocksPad(first, head);
      } else {
        LastBlock(messageBits, head + [0x80]);
        OneBlockPads(first, head);
      }
      return state;
    }

    /** Zeros and the length after what the buffer already holds, and the last block. */
    method LastBlock(messageBits: nat, ghost kept: seq<Byte>)
      requires buffer.Length == 64 && bufferSize <= 56 && buffer[..bufferSize] == kept
      requires |hashed| % 64 == 0 && state == HashBlocks(INITIAL, hashed)
      modifies this`state, this`hashed, buffer
      ensures hashed == old(hashed) + (kept + Zeros(56 - bufferSize) + BigEndian(messageBits, 8))
      ensures |hashed| % 64 == 0 && state == HashBlocks(INITIAL, hashed)
    {
      hide HashBlocks, BigEndian;
      FillZeros(bufferSize, 56);
      assert buffer[..56] == kept + Zeros(56 - bufferSize);
      PutLength(messageBits);
      Transform();
    }

    method FillZeros(from: nat, to: nat)
      requires from <= to <= buffer.Length
      modifies buffer
      ensures buffer[..] == old(buffer[..from]) + Zeros(to - from) + old(buffer[to..])
      ensures to == 64 == buffer.Length ==> buffer[..] == old(buffer[..from]) + Zeros(to - from)
    {
      for index := from to to
        invariant forall k :: 0 <= k < from || index <= k < buffer.Length ==> buffer[k] == old(buffer[k])
        invariant forall k :: from <= k < index ==> buffer[k] == 0
      {
        buffer[index] := 0;
      }
    }

    method PutLength(messageBits: nat)
      requires buffer.Length == 64
      modifies buffer
      ensures buffer[..] == old(buffer[..56]) + BigEndian(messageBits, 8)
    {
      hide BigEndian;
      ghost var kept := buffer[..56];
      BigEndianNothing(messageBits);
      assert buffer[64..] == [];
      for index := 0 to 8
        invariant buffer[..56] == kept && buffer[64 - index..] == BigEndian(messageBits, index)
      {
        BigEndianOneMore(messageBits, index);
        ghost var low := buffer[64 - index..];
        buffer[63 - index] := (messageBits / Pow256(index)) % 256;
        assert buffer[64 - index..] == low;
        assert buffer[63 - index..] == [buffer[63 - index]] + buffer[64 - index..];
      }
      assert buffer[..] == buffer[..56] + buffer[56..];
    }
  }

  lemma BigEndianNothing(value: nat)
    ensures BigEndian(value, 0) == []
  {
  }

  lemma {:induction false} BigEndianOneMore(value: nat, width: nat)
    ensures BigEndian(value, width + 1) == [(value / Pow256(width)) % 256] + BigEndian(value, width)
  {
    if width > 0 {
      BigEndianOneMore(value / 256, width - 1);
      ShiftTwice(value, width);
      assert BigEndian(value, width + 1) == BigEndian(value / 256, width) + [value % 256];
      assert BigEndian(value, width) == BigEndian(value / 256, width - 1) + [value % 256];
    } else {
      assert BigEndian(value, 1) == BigEndian(value / 256, 0) + [value % 256];
    }
  }

  lemma ZerosToAdd(whole: nat, part: nat)
    requires whole % 64 == 0 && part < 64
    ensures ZeroBytes(whole + part) == if part < 56 then 55 - part else 119 - part
  {
    Remainder(whole, part);
  }

  lemma PaddedIs(message: seq<Byte>)
    ensures Padded(message) == message + [0x80] + Zeros(ZeroBytes(|message|)) + BigEndian(8 * |message|, 8)
  {
    hide BigEndian;
  }

  lemma ZerosAdd(a: nat, b: nat)
    ensures Zeros(a) + Zeros(b) == Zeros(a + b)
  {
  }

  /** A block after the message has room for the length ... */
  lemma OneBlockPads(first: seq<Byte>, head: seq<Byte>)
    requires |first| % 64 == 0 && |head| < 56
    ensures first + (head + [0x80] + Zeros(55 - |head|) + BigEndian(8 * |first + head|, 8)) == Padded(first + head)
  {
    hide BigEndian, Padded, Zeros, ZeroBytes;
    ZerosToAdd(|first|, |head|);
    PaddedIs(first + head);
    Regroup(first, head, [0x80], Zeros(55 - |head|), BigEndian(8 * |first + head|, 8));
  }

  /** ... or another block is needed. */
  lemma TwoBlocksPad(first: seq<Byte>, head: seq<Byte>)
    requires |first| % 64 == 0 && 56 <= |head| < 64
    ensures first + (head + [0x80] + Zeros(63 - |head|)) + (Zeros(56) + BigEndian(8 * |first + head|, 8)) == Padded(first + head)
  {
    hide BigEndian, Padded, Zeros, ZeroBytes;
    ZerosToAdd(|first|, |head|);
    PaddedIs(first + head);
    ZerosAdd(63 - |head|, 56);
    RegroupTwo(first, head, [0x80], Zeros(63 - |head|), Zeros(56), BigEndian(8 * |first + head|, 8));
  }

  lemma Regroup(a: seq<Byte>, b: seq<Byte>, c: seq<Byte>, d: seq<Byte>, e: seq<Byte>)
    ensures a + (b + c + d + e) == a + b + c + d + e
  {
  }

  lemma RegroupTwo(a: seq<Byte>, b: seq<Byte>, c: seq<Byte>, d: seq<Byte>, d': seq<Byte>, e: seq<Byte>)
    ensures a + (b + c + d) + (d' + e) == a + b + c + (d + d') + e
  {
    assert a + (b + c + d) == a + b + c + d;
    assert a + b + c + d + (d' + e) == a + b + c + (d + d') + e;
  }

  lemma Remainder(whole: nat, part: nat)
    requires whole % 64 == 0 && part < 64
    ensures (whole + part) % 64 == part
  {
  }

  lemma CountByte(length: nat, bits: nat)
    requires bits == (8 * length) % TWO_TO_64
    ensures (bits + 8) % TWO_TO_64 == (8 * (length + 1)) % TWO_TO_64
  {
    var q := (8 * length) / TWO_TO_64;
    assert 8 * (length + 1) == q * TWO_TO_64 + (bits + 8);
  }

  function Joined(chunks: seq<seq<Byte>>): seq<Byte> {
    if chunks == [] then [] else Joined(chunks[..|chunks| - 1]) + chunks[|chunks| - 1]
  }

  /** However a message is split into updates, the digest is the standard's hash of it. */
  method DigestOf(chunks: seq<seq<Byte>>) returns (r: Words)
    ensures |Joined(chunks)| < 0x2000_0000_0000_0000 ==> r == Hash(Joined(chunks))
  {
    hide Hash;
    var digest := new Digest();
    for i := 0 to |chunks|
      invariant digest.Valid() && fresh(digest) && fresh(digest.buffer) && digest.message == Joined(chunks[..i])
    {
      digest.Update(chunks[i]);
      assert chunks[..i + 1][..i] == chunks[..i];
    }
    assert chunks[..|chunks|] == chunks;
    r := digest.Finish();
  }
}
