/** The checksum of a journal frame. */
module Crc {
  import opened Bytes

  const POLYNOMIAL: bv32 := 0xEDB88320
  const ALL_ONES: bv32 := 0xFFFF_FFFF

  function Xor(a: bv32, b: bv32): bv32 {
    a ^ b
  }

  function Half(crc: bv32): bv32 {
    crc >> 1
  }

  /** The mask is all ones exactly when the low bit is set. */
  function Feedback(crc: bv32): bv32 {
    POLYNOMIAL & (0 - (crc & 1))
  }

  /** One bit. */
  function Shift(crc: bv32): bv32 {
    Xor(Half(crc), Feedback(crc))
  }

  function Shifts(crc: bv32, bits: nat): bv32 {
    if bits == 0 then crc else Shift(Shifts(crc, bits - 1))
  }

  function From(crc: bv32, bytes: seq<Byte>): bv32
    decreases |bytes|
  {
    if bytes == [] then crc else Shifts(Xor(From(crc, bytes[..|bytes| - 1]), Word(bytes[|bytes| - 1])), 8)
  }

  function Checksum(bytes: seq<Byte>): bv32 {
    Xor(From(ALL_ONES, bytes), ALL_ONES)
  }

  method Crc32(bytes: seq<Byte>) returns (r: bv32)
    ensures r == Checksum(bytes)
  {
    hide Shift, Word, Xor;
    var crc := ALL_ONES;
    for i := 0 to |bytes|
      invariant crc == From(ALL_ONES, bytes[..i])
    {
      ghost var before := crc;
      crc := Xor(crc, Word(bytes[i]));
      for bit := 0 to 8
        invariant crc == Shifts(Xor(before, Word(bytes[i])), bit)
      {
        crc := Shift(crc);
      }
      assert bytes[..i + 1][..i] == bytes[..i];
    }
    assert bytes[..|bytes|] == bytes;
    return Xor(crc, ALL_ONES);
  }

  /** The checksum of the letter a, which depends on every constant. */
  lemma ChecksumOfLetter()
    ensures Checksum([0x61]) == 0xE8B7BE43
  {
    hide Word;
    LetterWord();
    assert [0x61][..0] == [];
    assert From(ALL_ONES, [0x61]) == Shifts(Xor(From(ALL_ONES, []), Word(0x61)), 8);
    assert Shifts(0xFFFF_FF9E, 4) == Shift(Shift(Shift(Shift(0xFFFF_FF9E))));
    var half := Shifts(0xFFFF_FF9E, 4);
    assert Shifts(0xFFFF_FF9E, 8) == Shift(Shift(Shift(Shift(half))));
  }

  lemma LetterWord()
    ensures Word(0x61) == 0x61
  {
  }

  // ---------------------------------------------------------------------
  // One wrong byte is always noticed
  // ---------------------------------------------------------------------

  lemma ShiftIsInjective(a: bv32, b: bv32)
    requires Shift(a) == Shift(b)
    ensures a == b
  {
  }

  lemma {:induction false} ShiftsAreInjective(a: bv32, b: bv32, bits: nat)
    requires Shifts(a, bits) == Shifts(b, bits)
    ensures a == b
  {
    hide Shift;
    if bits > 0 {
      ShiftIsInjective(Shifts(a, bits - 1), Shifts(b, bits - 1));
      ShiftsAreInjective(a, b, bits - 1);
    }
  }

  lemma CancelLeft(crc: bv32, a: bv32, b: bv32)
    requires Xor(crc, a) == Xor(crc, b)
    ensures a == b
  {
  }

  lemma CancelRight(crc: bv32, a: bv32, b: bv32)
    requires Xor(a, crc) == Xor(b, crc)
    ensures a == b
  {
  }

  lemma WidenIsInjective(a: bv8, b: bv8)
    requires Widen(a) == Widen(b)
    ensures a == b
  {
  }

  lemma WordIsInjective(a: Byte, b: Byte)
    requires Word(a) == Word(b)
    ensures a == b
  {
    hide Widen, Octet, ByteOf;
    WidenIsInjective(Octet(a), Octet(b));
    ByteOfOctet(a);
    ByteOfOctet(b);
  }

  /** Two payloads that agree except, perhaps, in the byte at one position. */
  predicate AgreeExceptAt(a: seq<Byte>, b: seq<Byte>, position: nat) {
    |a| == |b| && position < |a| && forall i :: 0 <= i < |a| && i != position ==> a[i] == b[i]
  }

  lemma {:induction false} OneByteDecides(a: seq<Byte>, b: seq<Byte>, position: nat, crc: bv32)
    requires AgreeExceptAt(a, b, position)
    requires From(crc, a) == From(crc, b)
    ensures a == b
    decreases |a|
  {
    hide Shift, Shifts, Word, Xor;
    var last := |a| - 1;
    var fa, fb := From(crc, a[..last]), From(crc, b[..last]);
    ShiftsAreInjective(Xor(fa, Word(a[last])), Xor(fb, Word(b[last])), 8);
    if position == last {
      assert a[..last] == b[..last];
      CancelLeft(fa, Word(a[last]), Word(b[last]));
      WordIsInjective(a[last], b[last]);
    } else {
      CancelRight(Word(a[last]), fa, fb);
      OneByteDecides(a[..last], b[..last], position, crc);
      assert a == a[..last] + [a[last]] && b == b[..last] + [b[last]];
    }
  }

  /** Equal-length payloads that differ in exactly one byte have different checksums. */
  lemma OneByteChangesChecksum(a: seq<Byte>, b: seq<Byte>, position: nat)
    requires AgreeExceptAt(a, b, position) && a[position] != b[position]
    ensures Checksum(a) != Checksum(b)
  {
    hide From, Xor;
    if Checksum(a) == Checksum(b) {
      CancelRight(ALL_ONES, From(ALL_ONES, a), From(ALL_ONES, b));
      OneByteDecides(a, b, position, ALL_ONES);
    }
  }

  // ---------------------------------------------------------------------
  // The table-driven form of section 8 of RFC 1952
  // ---------------------------------------------------------------------

  function TableStep(d: bv32): bv32 {
    if d & 1 != 0 then POLYNOMIAL ^ (d >> 1) else d >> 1
  }

  /** An entry of the table: eight steps that test the low bit. */
  function TableSteps(c: bv32, k: nat): bv32 {
    if k == 0 then c else TableStep(TableSteps(c, k - 1))
  }

  function Low(c: bv32): bv32 {
    c & 0xFF
  }

  function High(c: bv32): bv32 {
    c & 0xFFFF_FF00
  }

  function Above(c: bv32): bv32 {
    c >> 8
  }

  /** The table is indexed by the low byte of crc ^ byte. */
  function TableUpdate(crc: bv32, byte: Byte): bv32 {
    Xor(TableSteps(Low(Xor(crc, Word(byte))), 8), Above(crc))
  }

  function UpdateCrc(crc: bv32, bytes: seq<Byte>): bv32
    decreases |bytes|
  {
    if bytes == [] then crc else TableUpdate(UpdateCrc(crc, bytes[..|bytes| - 1]), bytes[|bytes| - 1])
  }

  lemma ShiftTestsTheLowBit(d: bv32)
    ensures Shift(d) == TableStep(d)
  {
    assert d & 1 == 0 || d & 1 == 1;
  }

  lemma {:induction false} StepsAreShifts(c: bv32, k: nat)
    ensures TableSteps(c, k) == Shifts(c, k)
  {
    hide Shift, TableStep;
    if k > 0 {
      StepsAreShifts(c, k - 1);
      ShiftTestsTheLowBit(Shifts(c, k - 1));
    }
  }

  predicate Odd(c: bv32) {
    c & 1 == 1
  }

  lemma FeedbackOf(c: bv32)
    ensures Feedback(c) == if Odd(c) then POLYNOMIAL else 0
  {
    assert c & 1 == 0 || c & 1 == 1;
  }

  lemma SumIsOdd(a: bv32, b: bv32)
    ensures Odd(Xor(a, b)) <==> Odd(a) != Odd(b)
  {
  }

  lemma FeedbackIsLinear(a: bv32, b: bv32)
    ensures Feedback(Xor(a, b)) == Xor(Feedback(a), Feedback(b))
  {
    hide Feedback, Odd;
    SumIsOdd(a, b);
    FeedbackOf(a);
    FeedbackOf(b);
    FeedbackOf(Xor(a, b));
    assert Xor(POLYNOMIAL, POLYNOMIAL) == 0 && Xor(POLYNOMIAL, 0) == POLYNOMIAL && Xor(0, POLYNOMIAL) == POLYNOMIAL;
  }

  lemma HalfIsLinear(a: bv32, b: bv32)
    ensures Half(Xor(a, b)) == Xor(Half(a), Half(b))
  {
  }

  lemma Associate(a: bv32, b: bv32, c: bv32)
    ensures Xor(Xor(a, b), c) == Xor(a, Xor(b, c))
  {
  }

  lemma Commute(a: bv32, b: bv32)
    ensures Xor(a, b) == Xor(b, a)
  {
  }

  lemma Exchange(a: bv32, b: bv32, c: bv32, d: bv32)
    ensures Xor(Xor(a, b), Xor(c, d)) == Xor(Xor(a, c), Xor(b, d))
  {
    hide Xor;
    Associate(a, b, Xor(c, d));
    Associate(b, c, d);
    Commute(b, c);
    Associate(c, b, d);
    Associate(a, c, Xor(b, d));
  }

  lemma ShiftIsLinear(a: bv32, b: bv32)
    ensures Shift(Xor(a, b)) == Xor(Shift(a), Shift(b))
  {
    hide Xor, Half, Feedback;
    HalfIsLinear(a, b);
    FeedbackIsLinear(a, b);
    Exchange(Half(a), Half(b), Feedback(a), Feedback(b));
  }

  lemma {:induction false} ShiftsAreLinear(a: bv32, b: bv32, bits: nat)
    ensures Shifts(Xor(a, b), bits) == Xor(Shifts(a, bits), Shifts(b, bits))
  {
    hide Shift, Xor;
    if bits > 0 {
      ShiftsAreLinear(a, b, bits - 1);
      ShiftIsLinear(Shifts(a, bits - 1), Shifts(b, bits - 1));
    }
  }

  /** With a clear low bit, a shift only moves bits. */
  lemma EvenShift(h: bv32)
    requires !Odd(h)
    ensures Shift(h) == Half(h)
  {
    assert h & 1 == 0;
  }

  function Halves(c: bv32, k: nat): bv32 {
    if k == 0 then c else Half(Halves(c, k - 1))
  }

  lemma ClearLowByte(c: bv32)
    ensures var a := Half(High(c)); var b := Half(Half(a)); var d := Half(Half(b));
            && !Odd(High(c)) && !Odd(a) && !Odd(Half(a)) && !Odd(b) && !Odd(Half(b)) && !Odd(d) && !Odd(Half(d)) && !Odd(Half(Half(d)))
            && Half(Half(Half(d))) == Above(c)
  {
  }

  lemma HalvesOneByOne(h: bv32)
    ensures Halves(h, 0) == h && Halves(h, 1) == Half(h) && forall k: nat :: 0 < k ==> Halves(h, k) == Half(Halves(h, k - 1))
  {
  }

  /** Above the low byte, eight shifts only move bits. */
  lemma HighBitsMove(c: bv32)
    ensures Shifts(High(c), 8) == Above(c)
  {
    hide Shift, Half, Halves, Odd, High, Above;
    ClearLowByte(c);
    var h := High(c);
    HalvesOneByOne(h);
    assert Halves(h, 3) == Half(Halves(h, 2)) && Halves(h, 5) == Half(Halves(h, 4)) && Halves(h, 8) == Half(Halves(h, 7));
    assert Halves(h, 4) == Half(Halves(h, 3)) && Halves(h, 6) == Half(Halves(h, 5)) && Halves(h, 7) == Half(Halves(h, 6));
    ShiftsAreHalves(h, 8);
  }

  lemma {:induction false} ShiftsAreHalves(h: bv32, k: nat)
    requires forall i :: 0 <= i < k ==> !Odd(Halves(h, i))
    ensures Shifts(h, k) == Halves(h, k)
  {
    hide Shift, Half, Odd;
    if k > 0 {
      ShiftsAreHalves(h, k - 1);
      EvenShift(Halves(h, k - 1));
    }
  }

  lemma SplitWord(c: bv32)
    ensures c == Xor(Low(c), High(c))
  {
  }

  lemma ByteIsLow(crc: bv32, byte: bv8)
    ensures Above(Xor(crc, Widen(byte))) == Above(crc)
  {
  }

  lemma UpdateIsTableUpdate(crc: bv32, byte: Byte)
    ensures Shifts(Xor(crc, Word(byte)), 8) == TableUpdate(crc, byte)
  {
    hide Shift, Shifts, TableSteps, Xor, Low, High, Above, Octet, Widen;
    var c := Xor(crc, Word(byte));
    SplitWord(c);
    ShiftsAreLinear(Low(c), High(c), 8);
    HighBitsMove(c);
    StepsAreShifts(Low(c), 8);
    ByteIsLow(crc, Octet(byte));
  }

  /** The bit-by-bit loop computes the checksum of the sample code of RFC 1952. */
  lemma {:induction false} ChecksumIsRfc1952(bytes: seq<Byte>, crc: bv32)
    ensures From(crc, bytes) == UpdateCrc(crc, bytes)
    ensures Checksum(bytes) == Xor(UpdateCrc(ALL_ONES, bytes), ALL_ONES)
    decreases |bytes|
  {
    hide Shift, Shifts, Word, TableUpdate, Xor;
    FromIsUpdate(bytes, crc);
    FromIsUpdate(bytes, ALL_ONES);
  }

  lemma {:induction false} FromIsUpdate(bytes: seq<Byte>, crc: bv32)
    ensures From(crc, bytes) == UpdateCrc(crc, bytes)
    decreases |bytes|
  {
    hide Shift, Shifts, Word, TableUpdate, Xor;
    if bytes != [] {
      var last := |bytes| - 1;
      FromIsUpdate(bytes[..last], crc);
      UpdateIsTableUpdate(From(crc, bytes[..last]), bytes[last]);
    }
  }

  // ---------------------------------------------------------------------
  // The checksum as four bytes
  // ---------------------------------------------------------------------

  /** The low byte of a word. */
  function LowByte(crc: bv32): bv8 {
    (crc & 0xFF) as bv8
  }

  function PutWord(crc: bv32): (r: seq<Byte>)
    ensures |r| == 4
  {
    [ByteOf(LowByte(crc)), ByteOf(LowByte(crc >> 8)), ByteOf(LowByte(crc >> 16)), ByteOf(LowByte(crc >> 24))]
  }

  function Join(a: bv32, b: bv32, c: bv32, d: bv32): bv32 {
    a | (b << 8) | (c << 16) | (d << 24)
  }

  function GetWord(bytes: seq<Byte>): bv32
    requires |bytes| == 4
  {
    Join(Word(bytes[0]), Word(bytes[1]), Word(bytes[2]), Word(bytes[3]))
  }

  lemma Reassemble(crc: bv32)
    ensures crc == Join(Widen(LowByte(crc)), Widen(LowByte(crc >> 8)), Widen(LowByte(crc >> 16)), Widen(LowByte(crc >> 24)))
  {
  }

  lemma GetOfPutWord(crc: bv32)
    ensures GetWord(PutWord(crc)) == crc
  {
    hide Widen, ByteOf, Octet, LowByte, Join;
    OctetOfByte(LowByte(crc));
    OctetOfByte(LowByte(crc >> 8));
    OctetOfByte(LowByte(crc >> 16));
    OctetOfByte(LowByte(crc >> 24));
    Reassemble(crc);
  }
}
