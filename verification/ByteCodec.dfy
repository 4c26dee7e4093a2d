/** Little-endian integers, length-prefixed byte strings and identifier lists. */
module ByteCodec {
  import opened Bytes
  import opened JournalEvents

  datatype Parsed<+T> = Bad | Good(value: T, rest: seq<Byte>)

  const TWO_TO_16 := 0x1_0000
  const TWO_TO_32 := 0x1_0000_0000
  const TWO_TO_64 := 0x1_0000_0000_0000_0000

  lemma Widths()
    ensures Pow256(1) == 256 && Pow256(2) == TWO_TO_16 && Pow256(4) == TWO_TO_32 && Pow256(8) == TWO_TO_64
  {
    assert Pow256(3) == 256 * Pow256(2) && Pow256(5) == 256 * Pow256(4);
    assert Pow256(6) == 256 * Pow256(5) && Pow256(7) == 256 * Pow256(6);
  }

  // ---------------------------------------------------------------------
  // Integers
  // ---------------------------------------------------------------------

  /** The low `width` bytes of the value, lowest first. */
  function Put(value: nat, width: nat): (r: seq<Byte>)
    ensures |r| == width
  {
    if width == 0 then [] else [value % 256] + Put(value / 256, width - 1)
  }

  lemma PutLength(value: nat, width: nat)
    ensures |Put(value, width)| == width
  {
  }

  function Get(bytes: seq<Byte>): (r: nat) {
    if bytes == [] then 0 else bytes[0] + 256 * Get(bytes[1..])
  }

  lemma {:induction false} GetOfPut(value: nat, width: nat)
    requires value < Pow256(width)
    ensures Get(Put(value, width)) == value
  {
    if width > 0 {
      assert value / 256 < Pow256(width - 1);
      GetOfPut(value / 256, width - 1);
      assert Put(value, width)[1..] == Put(value / 256, width - 1);
    }
  }

  lemma {:induction false} PutOfGet(bytes: seq<Byte>)
    ensures Get(bytes) < Pow256(|bytes|) && Put(Get(bytes), |bytes|) == bytes
  {
    if bytes != [] {
      PutOfGet(bytes[1..]);
      assert Get(bytes) % 256 == bytes[0] && Get(bytes) / 256 == Get(bytes[1..]);
    }
  }

  function TakeInt(bytes: seq<Byte>, width: nat): Parsed<nat> {
    if |bytes| < width then Bad else Good(Get(bytes[..width]), bytes[width..])
  }

  lemma TakeOfPut(value: nat, width: nat, rest: seq<Byte>)
    requires value < Pow256(width)
    ensures TakeInt(Put(value, width) + rest, width) == Good(value, rest)
  {
    GetOfPut(value, width);
    assert (Put(value, width) + rest)[..width] == Put(value, width);
    assert (Put(value, width) + rest)[width..] == rest;
  }

  lemma PutOfTake(bytes: seq<Byte>, width: nat)
    requires TakeInt(bytes, width).Good?
    ensures var r := TakeInt(bytes, width); r.value < Pow256(width) && bytes == Put(r.value, width) + r.rest
  {
    PutOfGet(bytes[..width]);
  }

  // Signed integers travel as their two's complement.

  function ToUnsigned(value: int, width: nat): (r: int) {
    if value < 0 then value + Pow256(width) else value
  }

  function ToSigned(value: nat, width: nat): (r: int) {
    if 2 * value >= Pow256(width) then value - Pow256(width) else value
  }

  predicate SignedFits(value: int, width: nat) {
    0 <= 2 * value + Pow256(width) && 2 * value < Pow256(width)
  }

  lemma SignedRoundTrip(value: int, width: nat)
    requires SignedFits(value, width)
    ensures 0 <= ToUnsigned(value, width) < Pow256(width) && ToSigned(ToUnsigned(value, width), width) == value
  {
  }

  lemma UnsignedRoundTrip(value: nat, width: nat)
    requires value < Pow256(width)
    ensures SignedFits(ToSigned(value, width), width) && ToUnsigned(ToSigned(value, width), width) == value
  {
  }

  // ---------------------------------------------------------------------
  // Byte strings
  // ---------------------------------------------------------------------

  function PutString(text: seq<Byte>): seq<Byte> {
    Put(|text|, 4) + text
  }

  function TakeString(bytes: seq<Byte>): Parsed<seq<Byte>> {
    match TakeInt(bytes, 4)
    case Bad => Bad
    case Good(length, rest) => if length > |rest| then Bad else Good(rest[..length], rest[length..])
  }

  lemma TakeOfPutString(text: seq<Byte>, rest: seq<Byte>)
    requires |text| < TWO_TO_32
    ensures TakeString(PutString(text) + rest) == Good(text, rest)
  {
    Widths();
    assert PutString(text) + rest == Put(|text|, 4) + (text + rest);
    TakeOfPut(|text|, 4, text + rest);
  }

  lemma PutOfTakeString(bytes: seq<Byte>)
    requires TakeString(bytes).Good?
    ensures var r := TakeString(bytes); |r.value| < TWO_TO_32 && bytes == PutString(r.value) + r.rest
  {
    Widths();
    PutOfTake(bytes, 4);
  }

  // ---------------------------------------------------------------------
  // Identifier lists
  // ---------------------------------------------------------------------

  predicate IdsFit(ids: seq<nat>) {
    forall i :: 0 <= i < |ids| ==> ids[i] < TWO_TO_64
  }

  function PutAll(ids: seq<nat>): seq<Byte> {
    if ids == [] then [] else Put(ids[0], 8) + PutAll(ids[1..])
  }

  function PutIds(ids: seq<nat>): seq<Byte> {
    Put(|ids|, 4) + PutAll(ids)
  }

  function TakeAll(bytes: seq<Byte>, count: nat): Parsed<seq<nat>> {
    if count == 0 then Good([], bytes)
    else
      match TakeInt(bytes, 8)
      case Bad => Bad
      case Good(id, rest) =>
        match TakeAll(rest, count - 1)
        case Bad => Bad
        case Good(ids, rest') => Good([id] + ids, rest')
  }

  function TakeIds(bytes: seq<Byte>): Parsed<seq<nat>> {
    match TakeInt(bytes, 4)
    case Bad => Bad
    case Good(count, rest) => if count > |rest| / 8 then Bad else TakeAll(rest, count)
  }

  lemma {:induction false} TakeOfPutAll(ids: seq<nat>, rest: seq<Byte>)
    requires IdsFit(ids)
    ensures |PutAll(ids)| == 8 * |ids| && TakeAll(PutAll(ids) + rest, |ids|) == Good(ids, rest)
  {
    hide Put, Get, TakeInt, Pow256;
    if ids == [] {
      assert PutAll(ids) + rest == rest;
    } else {
      Widths();
      PutLength(ids[0], 8);
      assert PutAll(ids) + rest == Put(ids[0], 8) + (PutAll(ids[1..]) + rest);
      TakeOfPut(ids[0], 8, PutAll(ids[1..]) + rest);
      TakeOfPutAll(ids[1..], rest);
      assert ids == [ids[0]] + ids[1..];
    }
  }

  lemma {:induction false} PutOfTakeAll(bytes: seq<Byte>, count: nat)
    requires TakeAll(bytes, count).Good?
    ensures var r := TakeAll(bytes, count); |r.value| == count && IdsFit(r.value) && bytes == PutAll(r.value) + r.rest
  {
    if count > 0 {
      Widths();
      PutOfTake(bytes, 8);
      var first := TakeInt(bytes, 8);
      PutOfTakeAll(first.rest, count - 1);
      var others := TakeAll(first.rest, count - 1);
      var r := TakeAll(bytes, count);
      assert r.value == [first.value] + others.value && r.value[1..] == others.value;
      assert bytes == Put(first.value, 8) + (PutAll(others.value) + others.rest);
    }
  }

  lemma TakeOfPutIds(ids: seq<nat>, rest: seq<Byte>)
    requires IdsFit(ids) && |ids| < TWO_TO_32
    ensures TakeIds(PutIds(ids) + rest) == Good(ids, rest)
  {
    Widths();
    assert PutIds(ids) + rest == Put(|ids|, 4) + (PutAll(ids) + rest);
    TakeOfPut(|ids|, 4, PutAll(ids) + rest);
    TakeOfPutAll(ids, rest);
  }

  lemma PutOfTakeIds(bytes: seq<Byte>)
    requires TakeIds(bytes).Good?
    ensures var r := TakeIds(bytes); IdsFit(r.value) && |r.value| < TWO_TO_32 && bytes == PutIds(r.value) + r.rest
  {
    Widths();
    PutOfTake(bytes, 4);
    var first := TakeInt(bytes, 4);
    PutOfTakeAll(first.rest, first.value);
    var r := TakeIds(bytes);
    assert bytes == Put(|r.value|, 4) + (PutAll(r.value) + r.rest);
  }
}
