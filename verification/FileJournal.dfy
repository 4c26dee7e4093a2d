/** The journal file: checksummed frames, read back and repaired after a crash. */
module FileJournal {
  import opened Wrappers
  import opened Bytes
  import opened ExecutionModel
  import opened JournalEvents
  import opened ByteCodec
  import opened JournalCodec
  import opened JournalLayout
  import opened JournalPayload
  import opened Crc

  const MAGIC := 0x4A46564F
  const MINIMUM_VERSION := 1
  const VERSION := 2
  const HEADER_SIZE := 16

  // ---------------------------------------------------------------------
  // Frames
  // ---------------------------------------------------------------------

  datatype Head = Head(magic: nat, version: nat, reserved: nat, size: nat, checksum: bv32)

  function PutHead(head: Head): (r: seq<Byte>)
    ensures |r| == HEADER_SIZE
  {
    Put(head.magic, 4) + Put(head.version, 2) + Put(head.reserved, 2) + Put(head.size, 4) + PutWord(head.checksum)
  }

  function GetHead(bytes: seq<Byte>): Head
    requires |bytes| == HEADER_SIZE
  {
    Head(Get(bytes[..4]), Get(bytes[4..6]), Get(bytes[6..8]), Get(bytes[8..12]), GetWord(bytes[12..]))
  }

  function HeadFor(payload: seq<Byte>): Head {
    Head(MAGIC, VERSION, 0, |payload|, Checksum(payload))
  }

  predicate HeadIsValid(head: Head, maximum: nat) {
    && head.magic == MAGIC && MINIMUM_VERSION <= head.version <= VERSION && head.reserved == 0
    && head.size <= maximum
  }

  lemma GetOfPutHead(head: Head)
    requires head.magic < TWO_TO_32 && head.version < TWO_TO_16 && head.reserved < TWO_TO_16 && head.size < TWO_TO_32
    ensures GetHead(PutHead(head)) == head
  {
    hide Put, Get, PutWord, GetWord;
    Widths();
    var bytes := PutHead(head);
    var word := PutWord(head.checksum);
    WordLength(head.checksum);
    assert |Put(head.magic, 4)| == 4 && |Put(head.version, 2)| == 2 && |Put(head.reserved, 2)| == 2 && |Put(head.size, 4)| == 4 by {
      PutLength(head.magic, 4);
      PutLength(head.version, 2);
      PutLength(head.reserved, 2);
      PutLength(head.size, 4);
    }
    assert bytes[..4] == Put(head.magic, 4);
    assert bytes[4..6] == Put(head.version, 2);
    assert bytes[6..8] == Put(head.reserved, 2);
    assert bytes[8..12] == Put(head.size, 4);
    assert bytes[12..] == word;
    GetOfPut(head.magic, 4);
    GetOfPut(head.version, 2);
    GetOfPut(head.reserved, 2);
    GetOfPut(head.size, 4);
    GetOfPutWord(head.checksum);
  }

  /** A frame starts with the letters OVFJ, version 2 and two zero bytes; then come the
      length and the checksum of the payload, lowest byte first, and the payload. */
  lemma FrameLayout(payload: seq<Byte>)
    ensures var frame := FrameOf(payload);
            && frame[0..8] == [0x4F, 0x56, 0x46, 0x4A, 2, 0, 0, 0]
            && frame[8..12] == Little(|payload|, 4)
            && (var checksum := Checksum(payload);
                && Word(frame[12]) == checksum & 0xFF && Word(frame[13]) == (checksum >> 8) & 0xFF
                && Word(frame[14]) == (checksum >> 16) & 0xFF && Word(frame[15]) == (checksum >> 24) & 0xFF)
            && frame[16..] == payload
  {
    hide Put, Little, Checksum, Word, PutWord;
    var a, b, c, d := Put(MAGIC, 4), Put(VERSION, 2), Put(0, 2), Put(|payload|, 4);
    var crc := Checksum(payload);
    var word := PutWord(crc);
    WordLength(crc);
    WordBytes(crc);
    HeadConstants();
    LittleIsPut(|payload|, 4);
    assert |d| == 4 by { PutLength(|payload|, 4); }
    assert FrameOf(payload) == a + b + c + d + word + payload;
  }

  lemma HeadConstants()
    ensures Put(MAGIC, 4) == [0x4F, 0x56, 0x46, 0x4A] && Put(VERSION, 2) == [2, 0] && Put(0, 2) == [0, 0]
  {
    assert Put(MAGIC, 4) == [0x4F] + Put(0x4A4656, 3) && Put(0x4A4656, 3) == [0x56] + Put(0x4A46, 2);
    assert Put(0x4A46, 2) == [0x46] + Put(0x4A, 1) && Put(0x4A, 1) == [0x4A] + Put(0, 0);
    assert Put(VERSION, 2) == [2] + Put(0, 1) && Put(0, 1) == [0] + Put(0, 0) && Put(0, 2) == [0] + Put(0, 1);
  }

  lemma WordBytes(crc: bv32)
    ensures var word := PutWord(crc);
            && Word(word[0]) == crc & 0xFF && Word(word[1]) == (crc >> 8) & 0xFF
            && Word(word[2]) == (crc >> 16) & 0xFF && Word(word[3]) == (crc >> 24) & 0xFF
  {
    hide Widen, ByteOf, Octet, LowByte;
    OctetOfByte(LowByte(crc));
    OctetOfByte(LowByte(crc >> 8));
    OctetOfByte(LowByte(crc >> 16));
    OctetOfByte(LowByte(crc >> 24));
    LowIsMasked(crc);
    LowIsMasked(crc >> 8);
    LowIsMasked(crc >> 16);
    LowIsMasked(crc >> 24);
  }

  lemma LowIsMasked(word: bv32)
    ensures Widen(LowByte(word)) == word & 0xFF
  {
  }

  /** A header is accepted exactly with these bytes: the letters, version 1 or 2, the two
      reserved bytes zero, and a length within the limit. */
  lemma HeaderBytes(bytes: seq<Byte>, maximum: nat)
    requires |bytes| == HEADER_SIZE
    ensures HeadIsValid(GetHead(bytes), maximum) <==>
            && bytes[0..4] == [0x4F, 0x56, 0x46, 0x4A] && (bytes[4] == 1 || bytes[4] == 2) && bytes[5] == 0 && bytes[6] == 0 && bytes[7] == 0
            && Get(bytes[8..12]) <= maximum
  {
    hide Get, GetWord, Weighted, Pair;
    FourBytes(bytes[..4]);
    TwoBytes(bytes[4..6]);
    TwoBytes(bytes[6..8]);
    assert bytes[0..4] == [bytes[0], bytes[1], bytes[2], bytes[3]];
    MagicBytes(bytes[0], bytes[1], bytes[2], bytes[3]);
    SmallBytes(bytes[4], bytes[5]);
    SmallBytes(bytes[6], bytes[7]);
  }

  lemma SmallBytes(a: int, b: int)
    requires 0 <= a < 256 && 0 <= b < 256
    ensures 1 <= Pair(a, b) <= 2 <==> (a == 1 || a == 2) && b == 0
    ensures Pair(a, b) == 0 <==> a == 0 && b == 0
  {
    assert b > 0 ==> Pair(a, b) >= 256;
  }

  function Pair(a: int, b: int): int {
    a + 0x100 * b
  }

  function Weighted(a: int, b: int, c: int, d: int): int {
    a + 0x100 * b + 0x1_0000 * c + 0x100_0000 * d
  }

  lemma FourBytes(bytes: seq<Byte>)
    requires |bytes| == 4
    ensures Get(bytes) == Weighted(bytes[0], bytes[1], bytes[2], bytes[3])
  {
    assert Get(bytes) == bytes[0] + 256 * Get(bytes[1..]) && Get(bytes[1..]) == bytes[1] + 256 * Get(bytes[2..]);
    assert bytes[1..][1..] == bytes[2..] && bytes[2..][1..] == bytes[3..] && bytes[3..][1..] == [];
    assert Get(bytes[2..]) == bytes[2] + 256 * Get(bytes[3..]) && Get(bytes[3..]) == bytes[3] + 256 * Get([]);
  }

  lemma TwoBytes(bytes: seq<Byte>)
    requires |bytes| == 2
    ensures Get(bytes) == Pair(bytes[0], bytes[1])
  {
    assert Get(bytes) == bytes[0] + 256 * Get(bytes[1..]) && bytes[1..][1..] == [];
    assert Get(bytes[1..]) == bytes[1] + 256 * Get([]);
  }

  lemma MagicBytes(a: Byte, b: Byte, c: Byte, d: Byte)
    ensures Weighted(a, b, c, d) == MAGIC <==> a == 0x4F && b == 0x56 && c == 0x46 && d == 0x4A
  {
  }

  lemma WordLength(crc: bv32)
    ensures |PutWord(crc)| == 4
  {
  }

  function FrameOf(payload: seq<Byte>): (r: seq<Byte>)
    ensures |r| == HEADER_SIZE + |payload|
  {
    PutHead(HeadFor(payload)) + payload
  }

  predicate Encodable(event: JournalEvent, maximum: nat) {
    Encode(event, maximum).Some?
  }

  function Frame(event: JournalEvent, maximum: nat): seq<Byte>
    requires Encodable(event, maximum)
  {
    FrameOf(Encode(event, maximum).value)
  }

  predicate AllEncodable(events: seq<JournalEvent>, maximum: nat) {
    forall i :: 0 <= i < |events| ==> Encodable(events[i], maximum)
  }

  /** What appending the events writes to an empty file. */
  function Frames(events: seq<JournalEvent>, maximum: nat): seq<Byte>
    requires AllEncodable(events, maximum)
  {
    if events == [] then [] else Frame(events[0], maximum) + Frames(events[1..], maximum)
  }

  function JournaledAll(events: seq<JournalEvent>): (r: seq<JournalEvent>)
    ensures |r| == |events| && forall i :: 0 <= i < |r| ==> r[i] == Journaled(events[i])
  {
    seq(|events|, i requires 0 <= i < |events| => Journaled(events[i]))
  }

  // ---------------------------------------------------------------------
  // Reading a file back
  // ---------------------------------------------------------------------

  /** The events of a file and how many of its bytes are kept. */
  datatype Scanned = Scanned(events: seq<JournalEvent>, kept: nat)

  /** The first frame of a file, and how long it is. */
  datatype First = Torn | Corrupt | Read(event: JournalEvent, length: nat)

  function ReadFrame(bytes: seq<Byte>, maximum: nat): (r: First)
    ensures r.Read? ==> HEADER_SIZE <= r.length <= |bytes|
  {
    if |bytes| < HEADER_SIZE then Torn
    else
      var head := GetHead(bytes[..HEADER_SIZE]);
      if !HeadIsValid(head, maximum) then Corrupt
      else if |bytes| - HEADER_SIZE < head.size then Torn
      else
        var payload := bytes[HEADER_SIZE..HEADER_SIZE + head.size];
        if Checksum(payload) != head.checksum then Corrupt
        else
          match Decode(payload, head.version)
          case None => Corrupt
          case Some(event) => Read(event, HEADER_SIZE + head.size)
  }

  function After(event: JournalEvent, length: nat, rest: Option<Scanned>): Option<Scanned> {
    match rest
    case None => None
    case Some(scanned) => Some(Scanned([event] + scanned.events, length + scanned.kept))
  }

  /** None when the file is refused. */
  function Scan(bytes: seq<Byte>, maximum: nat): (r: Option<Scanned>)
    ensures r.Some? ==> r.value.kept <= |bytes|
    decreases |bytes|
  {
    match ReadFrame(bytes, maximum)
    case Torn => Some(Scanned([], 0))
    case Corrupt => None
    case Read(event, length) => After(event, length, Scan(bytes[length..], maximum))
  }

  lemma ReadWholeFrame(event: JournalEvent, maximum: nat, rest: seq<Byte>)
    requires maximum < TWO_TO_32 && Encodable(event, maximum)
    ensures ReadFrame(Frame(event, maximum) + rest, maximum) == Read(Journaled(event), |Frame(event, maximum)|)
  {
    hide PutHead, GetHead, Checksum, Decode, Encode, Journaled;
    var payload := Encode(event, maximum).value;
    PayloadFits(event, maximum);
    var head := HeadFor(payload);
    var bytes := FrameOf(payload) + rest;
    GetOfPutHead(head);
    HeadLength(head);
    assert bytes[..HEADER_SIZE] == PutHead(head);
    assert bytes[HEADER_SIZE..HEADER_SIZE + |payload|] == payload;
    DecodeOfEncode(event, maximum);
  }

  lemma HeadLength(head: Head)
    ensures |PutHead(head)| == HEADER_SIZE
  {
  }

  lemma PayloadFits(event: JournalEvent, maximum: nat)
    requires Encodable(event, maximum)
    ensures |Encode(event, maximum).value| <= maximum
  {
    hide PutEvent;
  }

  /** A proper prefix of a frame is torn, wherever it is cut. */
  lemma ReadTornFrame(event: JournalEvent, maximum: nat, cut: nat)
    requires maximum < TWO_TO_32 && Encodable(event, maximum) && cut < |Frame(event, maximum)|
    ensures ReadFrame(Frame(event, maximum)[..cut], maximum) == Torn
  {
    hide PutHead, GetHead, Checksum, Decode, Encode, Journaled;
    var payload := Encode(event, maximum).value;
    PayloadFits(event, maximum);
    var head := HeadFor(payload);
    if cut >= HEADER_SIZE {
      GetOfPutHead(head);
      HeadLength(head);
      assert Frame(event, maximum)[..cut][..HEADER_SIZE] == PutHead(head);
    }
  }

  lemma ScanFrame(event: JournalEvent, maximum: nat, rest: seq<Byte>)
    requires maximum < TWO_TO_32 && Encodable(event, maximum)
    ensures Scan(Frame(event, maximum) + rest, maximum) ==
            After(Journaled(event), |Frame(event, maximum)|, Scan(rest, maximum))
  {
    hide ReadFrame, Frame, Journaled, Encodable;
    ReadWholeFrame(event, maximum, rest);
    assert (Frame(event, maximum) + rest)[|Frame(event, maximum)|..] == rest;
  }

  // ---------------------------------------------------------------------
  // Cutting the file at any byte
  // ---------------------------------------------------------------------

  /** How many of the frames lie whole before the cut. */
  function WholeFrames(events: seq<JournalEvent>, maximum: nat, cut: nat): (n: nat)
    requires AllEncodable(events, maximum)
    ensures n <= |events|
  {
    if events == [] || cut < |Frame(events[0], maximum)| then 0
    else 1 + WholeFrames(events[1..], maximum, cut - |Frame(events[0], maximum)|)
  }

  lemma PrefixFrames(events: seq<JournalEvent>, maximum: nat, n: nat)
    requires AllEncodable(events, maximum) && 0 < n <= |events|
    ensures Frames(events[..n], maximum) == Frame(events[0], maximum) + Frames(events[1..][..n - 1], maximum)
  {
    hide Frame, Encodable;
    assert events[..n][1..] == events[1..][..n - 1];
  }

  /** The count is the one a reader of the file would expect: those frames fit
      before the cut, and the next one does not. */
  lemma {:induction false} WholeFramesAreMost(events: seq<JournalEvent>, maximum: nat, cut: nat)
    requires AllEncodable(events, maximum)
    ensures var n := WholeFrames(events, maximum, cut);
            && |Frames(events[..n], maximum)| <= cut
            && (n < |events| ==> cut < |Frames(events[..n + 1], maximum)|)
            && Frames(events[..n], maximum) <= Frames(events, maximum)
  {
    hide Frame, Encodable;
    if events != [] {
      var first := |Frame(events[0], maximum)|;
      var n := WholeFrames(events, maximum, cut);
      if cut < first {
        PrefixFrames(events, maximum, 1);
        assert events[..0] == [];
      } else {
        WholeFramesAreMost(events[1..], maximum, cut - first);
        PrefixFrames(events, maximum, n);
        if n < |events| {
          PrefixFrames(events, maximum, n + 1);
        }
      }
    } else {
      assert events[..0] == [];
    }
  }

  lemma {:induction false} ScanOfCut(events: seq<JournalEvent>, maximum: nat, cut: nat)
    requires maximum < TWO_TO_32 && AllEncodable(events, maximum) && cut <= |Frames(events, maximum)|
    ensures var n := WholeFrames(events, maximum, cut);
            Scan(Frames(events, maximum)[..cut], maximum) ==
            Some(Scanned(JournaledAll(events[..n]), |Frames(events[..n], maximum)|))
    decreases |events|
  {
    hide Frame, Encodable, ReadFrame, Scan, Journaled, JournaledAll;
    var file := Frames(events, maximum)[..cut];
    NothingJournaled();
    if events == [] {
      EmptyIsTorn(maximum);
      TornEndsScan(file, maximum);
      assert file == [] && events[..0] == [];
    } else {
      var first := Frame(events[0], maximum);
      if cut < |first| {
        ReadTornFrame(events[0], maximum, cut);
        assert file == first[..cut] && events[..0] == [];
        TornEndsScan(file, maximum);
      } else {
        var rest := Frames(events[1..], maximum)[..cut - |first|];
        assert file == first + rest;
        ScanFrame(events[0], maximum, rest);
        ScanOfCut(events[1..], maximum, cut - |first|);
        OneMoreScanned(events, maximum, WholeFrames(events, maximum, cut));
      }
    }
  }

  lemma OneMoreScanned(events: seq<JournalEvent>, maximum: nat, n: nat)
    requires AllEncodable(events, maximum) && 0 < n <= |events|
    ensures Some(Scanned(JournaledAll(events[..n]), |Frames(events[..n], maximum)|)) ==
            After(Journaled(events[0]), |Frame(events[0], maximum)|,
                  Some(Scanned(JournaledAll(events[1..][..n - 1]), |Frames(events[1..][..n - 1], maximum)|)))
  {
    hide Frame, Frames, Encodable, Journaled, JournaledAll;
    PrefixFrames(events, maximum, n);
    OneMoreJournaled(events, n);
  }

  lemma NothingJournaled()
    ensures JournaledAll([]) == []
  {
  }

  lemma OneMoreJournaled(events: seq<JournalEvent>, n: nat)
    requires 0 < n <= |events|
    ensures JournaledAll(events[..n]) == [Journaled(events[0])] + JournaledAll(events[1..][..n - 1])
  {
    hide Journaled;
  }

  lemma TornEndsScan(bytes: seq<Byte>, maximum: nat)
    requires ReadFrame(bytes, maximum) == Torn
    ensures Scan(bytes, maximum) == Some(Scanned([], 0))
  {
    hide ReadFrame;
  }

  lemma EmptyIsTorn(maximum: nat)
    ensures ReadFrame([], maximum) == Torn
  {
  }

  /** Crash cut: whatever was appended and wherever the file was cut, reading it back
      gives exactly the events whose frames are whole, keeps exactly their frames, and
      one more append then reads back as those events and the new one. */
  lemma CrashCut(events: seq<JournalEvent>, maximum: nat, cut: nat, next: JournalEvent)
    requires maximum < TWO_TO_32 && AllEncodable(events, maximum) && cut <= |Frames(events, maximum)| && Encodable(next, maximum)
    ensures var n := WholeFrames(events, maximum, cut);
            var file := Frames(events, maximum)[..cut];
            && Scan(file, maximum) == Some(Scanned(JournaledAll(events[..n]), |Frames(events[..n], maximum)|))
            && |Frames(events[..n], maximum)| <= cut
            && file[..|Frames(events[..n], maximum)|] == Frames(events[..n], maximum)
            && Scan(Frames(events[..n], maximum) + Frame(next, maximum), maximum) ==
               Some(Scanned(JournaledAll(events[..n] + [next]), |Frames(events[..n], maximum)| + |Frame(next, maximum)|))
  {
    hide Frame, Frames, Scan, Encodable, ReadFrame, Journaled, WholeFrames;
    ScanOfCut(events, maximum, cut);
    WholeFramesAreMost(events, maximum, cut);
    var n := WholeFrames(events, maximum, cut);
    var kept := Frames(events[..n], maximum);
    var file := Frames(events, maximum)[..cut];
    assert file[..|kept|] == kept;
    AppendAfterRepair(file, maximum, next);
    assert JournaledAll(events[..n] + [next]) == JournaledAll(events[..n]) + [Journaled(next)];
  }

  // ---------------------------------------------------------------------
  // Any accepted file
  // ---------------------------------------------------------------------

  lemma ReadIgnoresWhatFollows(bytes: seq<Byte>, maximum: nat, more: seq<Byte>)
    requires ReadFrame(bytes, maximum).Read?
    ensures ReadFrame(bytes + more, maximum) == ReadFrame(bytes, maximum)
    ensures ReadFrame(bytes[..ReadFrame(bytes, maximum).length], maximum) == ReadFrame(bytes, maximum)
  {
    hide GetHead, Checksum, Decode;
    var length := ReadFrame(bytes, maximum).length;
    assert (bytes + more)[..HEADER_SIZE] == bytes[..HEADER_SIZE] == bytes[..length][..HEADER_SIZE];
    assert (bytes + more)[HEADER_SIZE..length] == bytes[HEADER_SIZE..length] == bytes[..length][HEADER_SIZE..length];
  }

  /** Whatever file was accepted (frames of either version), after the repair a new
      event is appended behind exactly the events that were read. */
  lemma {:induction false} AppendAfterRepair(file: seq<Byte>, maximum: nat, next: JournalEvent)
    requires maximum < TWO_TO_32 && Scan(file, maximum).Some? && Encodable(next, maximum)
    ensures var s := Scan(file, maximum).value;
            && Scan(file[..s.kept], maximum) == Some(s)
            && Scan(file[..s.kept] + Frame(next, maximum), maximum) ==
               Some(Scanned(s.events + [Journaled(next)], s.kept + |Frame(next, maximum)|))
    decreases |file|
  {
    hide Frame, Encodable, ReadFrame, Journaled;
    var s := Scan(file, maximum).value;
    var frame := Frame(next, maximum);
    EmptyIsTorn(maximum);
    match ReadFrame(file, maximum) {
      case Torn =>
        ScanFrame(next, maximum, []);
        assert frame + [] == frame && file[..0] == [] && [] + frame == frame;
        assert Scan([], maximum) == Some(Scanned([], 0));
        assert [Journaled(next)] + [] == [] + [Journaled(next)];
      case Read(event, length) =>
        ReadBounds(file, maximum);
        AppendAfterRepair(file[length..], maximum, next);
        var t := Scan(file[length..], maximum).value;
        var kept := file[..s.kept];
        ReadPrefix(file, maximum, s.kept);
        ReadIgnoresWhatFollows(kept, maximum, frame);
        assert kept[length..] == file[length..][..t.kept];
        assert (kept + frame)[length..] == file[length..][..t.kept] + frame;
        assert [event] + (t.events + [Journaled(next)]) == s.events + [Journaled(next)];
      case Corrupt =>
    }
  }

  lemma ReadBounds(file: seq<Byte>, maximum: nat)
    requires ReadFrame(file, maximum).Read?
    ensures HEADER_SIZE <= ReadFrame(file, maximum).length <= |file|
  {
  }

  lemma ReadPrefix(file: seq<Byte>, maximum: nat, kept: nat)
    requires ReadFrame(file, maximum).Read? && ReadFrame(file, maximum).length <= kept <= |file|
    ensures ReadFrame(file[..kept], maximum) == ReadFrame(file, maximum)
  {
    hide ReadFrame;
    var length := ReadFrame(file, maximum).length;
    ReadIgnoresWhatFollows(file, maximum, []);
    ReadIgnoresWhatFollows(file[..length], maximum, file[length..kept]);
    assert file[..length] + file[length..kept] == file[..kept];
  }

  // ---------------------------------------------------------------------
  // Corruption
  // ---------------------------------------------------------------------

  /** A frame in which exactly one payload byte was changed is refused, whatever
      comes before and after it. */
  lemma {:induction false} OneWrongByteIsRefused(
    before: seq<JournalEvent>, event: JournalEvent, maximum: nat, damaged: seq<Byte>, position: nat, rest: seq<Byte>)
    requires maximum < TWO_TO_32 && AllEncodable(before, maximum) && Encodable(event, maximum)
    requires AgreeExceptAt(Encode(event, maximum).value, damaged, position)
    requires Encode(event, maximum).value[position] != damaged[position]
    ensures Scan(Frames(before, maximum) + (PutHead(HeadFor(Encode(event, maximum).value)) + damaged + rest), maximum) == None
    decreases |before|
  {
    hide PutHead, GetHead, Checksum, Decode, Encode, Journaled;
    var payload := Encode(event, maximum).value;
    var tail := PutHead(HeadFor(payload)) + damaged + rest;
    if before == [] {
      DamagedFrame(payload, maximum, damaged, position, rest) by { PayloadFits(event, maximum); }
      assert Frames(before, maximum) + tail == tail;
    } else {
      OneWrongByteIsRefused(before[1..], event, maximum, damaged, position, rest);
      ScanFrame(before[0], maximum, Frames(before[1..], maximum) + tail);
      assert Frames(before, maximum) + tail == Frame(before[0], maximum) + (Frames(before[1..], maximum) + tail);
    }
  }

  lemma DamagedFrame(payload: seq<Byte>, maximum: nat, damaged: seq<Byte>, position: nat, rest: seq<Byte>)
    requires |payload| <= maximum < TWO_TO_32
    requires AgreeExceptAt(payload, damaged, position) && payload[position] != damaged[position]
    ensures ReadFrame(PutHead(HeadFor(payload)) + damaged + rest, maximum) == Corrupt
  {
    hide PutHead, GetHead, Checksum, Decode;
    var head := HeadFor(payload);
    var bytes := PutHead(head) + damaged + rest;
    GetOfPutHead(head);
    HeadLength(head);
    assert bytes[..HEADER_SIZE] == PutHead(head);
    assert bytes[HEADER_SIZE..HEADER_SIZE + |payload|] == damaged;
    OneByteChangesChecksum(payload, damaged, position);
  }

  // ---------------------------------------------------------------------
  // The journal object
  // ---------------------------------------------------------------------

  /** What was read before a position, followed by what is still to be read. */
  function Resumed(events: seq<JournalEvent>, position: nat, rest: Option<Scanned>): Option<Scanned> {
    match rest
    case None => None
    case Some(scanned) => Some(Scanned(events + scanned.events, position + scanned.kept))
  }

  lemma ResumedAfter(events: seq<JournalEvent>, position: nat, event: JournalEvent, length: nat, rest: Option<Scanned>)
    ensures Resumed(events, position, After(event, length, rest)) == Resumed(events + [event], position + length, rest)
  {
    if rest.Some? {
      assert events + ([event] + rest.value.events) == events + [event] + rest.value.events;
    }
  }

  lemma ResumedFromStart(rest: Option<Scanned>)
    ensures Resumed([], 0, rest) == rest
  {
    if rest.Some? {
      assert [] + rest.value.events == rest.value.events;
    }
  }

  class FileTransitionJournal {
    var file: seq<Byte>
    const maximum: nat

    constructor (file: seq<Byte>, maximum: nat)
      requires 4096 <= maximum < TWO_TO_32
      ensures this.file == file && this.maximum == maximum
    {
      this.file := file;
      this.maximum := maximum;
    }

    /** `accepted` is how many bytes the device takes before it stops. */
    method Append(event: JournalEvent, accepted: nat) returns (ok: bool)
      requires EventNumbersFit(event)
      modifies this`file
      ensures ok ==> Encodable(event, maximum) && file == old(file) + Frame(event, maximum)
      ensures !ok && Encodable(event, maximum) ==>
              accepted < |Frame(event, maximum)| && file == old(file) + Frame(event, maximum)[..accepted]
      ensures !Encodable(event, maximum) ==> !ok && file == old(file)
    {
      hide PutHead, Checksum, Encode;
      var encoded := EncodeEvent(event, maximum);
      if encoded.None? { return false; }
      var payload := encoded.value;
      var checksum := Crc32(payload);
      var frame := PutHead(Head(MAGIC, VERSION, 0, |payload|, checksum)) + payload;
      if accepted < |frame| {
        file := file + frame[..accepted];
        return false;
      }
      file := file + frame;
      return true;
    }

    method Replay() returns (r: Option<seq<JournalEvent>>)
      modifies this`file
      ensures Scan(old(file), maximum).None? ==> r == None && file == old(file)
      ensures Scan(old(file), maximum).Some? ==>
              var s := Scan(old(file), maximum).value; r == Some(s.events) && file == old(file)[..s.kept]
    {
      hide ReadFrame;
      var events: seq<JournalEvent> := [];
      var position := 0;
      ResumedFromStart(Scan(file, maximum));
      assert file[0..] == file;
      while true
        invariant position <= |file| && file == old(file)
        invariant Scan(file, maximum) == Resumed(events, position, Scan(file[position..], maximum))
        decreases |file| - position
      {
        var first := NextFrame(position);
        match first {
          case Torn =>
            TornEndsScan(file[position..], maximum);
            assert events + [] == events;
            file := file[..position];
            return Some(events);
          case Corrupt => return None;
          case Read(event, length) =>
            ReadBounds(file[position..], maximum);
            ResumedAfter(events, position, event, length, Scan(file[position..][length..], maximum));
            assert file[position..][length..] == file[position + length..];
            events, position := events + [event], position + length;
        }
      }
    }

    /** Reads the frame at a position: its header, then as many bytes as that announces. */
    method NextFrame(position: nat) returns (r: First)
      requires position <= |file|
      ensures r == ReadFrame(file[position..], maximum)
    {
      hide GetHead, Checksum, Decode, HeadIsValid;
      ghost var rest := file[position..];
      if |file| - position < HEADER_SIZE { return Torn; }
      assert rest[..HEADER_SIZE] == file[position..position + HEADER_SIZE];
      var head := GetHead(file[position..position + HEADER_SIZE]);
      if !HeadIsValid(head, maximum) { return Corrupt; }
      var start := position + HEADER_SIZE;
      if |file| - start < head.size { return Torn; }
      var payload := file[start..start + head.size];
      assert rest[HEADER_SIZE..HEADER_SIZE + head.size] == payload;
      var checksum := Crc32(payload);
      if checksum != head.checksum { return Corrupt; }
      var decoded := DecodeEvent(payload, head.version);
      if decoded.None? { return Corrupt; }
      return Read(decoded.value, HEADER_SIZE + head.size);
    }
  }
}
