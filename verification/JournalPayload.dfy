/** The encoder and the decoder objects that write and read a payload step by step. */
module JournalPayload {
  import opened Wrappers
  import opened Bytes
  import opened ExecutionModel
  import opened Planner
  import opened JournalEvents
  import opened ByteCodec
  import opened JournalCodec
  import opened JournalLayout

  /** One more byte, written after the low `done` bytes of the value. */
  lemma {:induction false} PutOneMore(value: nat, done: nat)
    ensures Put(value, done + 1) == Put(value, done) + [(value / Pow256(done)) % 256]
  {
    if done > 0 {
      PutOneMore(value / 256, done - 1);
      ShiftTwice(value, done);
      assert Put(value, done + 1) == [value % 256] + Put(value / 256, done);
      assert Put(value, done) == [value % 256] + Put(value / 256, done - 1);
    } else {
      assert Put(value, 1) == [value % 256] + Put(value / 256, 0);
    }
  }

  lemma {:induction false} GetOneMore(bytes: seq<Byte>, last: Byte)
    ensures Get(bytes + [last]) == Get(bytes) + last * Pow256(|bytes|)
  {
    if bytes == [] {
      assert (bytes + [last])[1..] == [];
    } else {
      GetOneMore(bytes[1..], last);
      assert (bytes + [last])[1..] == bytes[1..] + [last];
    }
  }

  lemma {:induction false} PutAllOneMore(ids: seq<nat>, last: nat)
    ensures PutAll(ids + [last]) == PutAll(ids) + Put(last, 8)
  {
    hide Put;
    if ids == [] {
      assert (ids + [last])[1..] == [];
      assert PutAll(ids + [last]) == Put(last, 8) + PutAll([]);
    } else {
      PutAllOneMore(ids[1..], last);
      assert (ids + [last])[1..] == ids[1..] + [last];
    }
  }

  lemma Regroup(s: seq<Byte>, a: seq<Byte>, b: seq<Byte>, c: seq<Byte>, d: seq<Byte>, e: seq<Byte>)
    ensures s + a + b + c + d + e == s + (a + (b + (c + (d + e))))
  {
    assert c + d + e == c + (d + e);
    assert a + b + (c + d + e) == a + (b + (c + d + e));
    assert s + a + b + c + d + e == s + (a + b + (c + d + e));
  }

  class Encoder {
    var bytes: seq<Byte>

    constructor ()
      ensures bytes == []
    {
      bytes := [];
    }

    method Integer(value: nat, width: nat)
      modifies this
      ensures bytes == old(bytes) + Put(value, width)
    {
      for index := 0 to width
        invariant bytes == old(bytes) + Put(value, index)
      {
        bytes := bytes + [(value / Pow256(index)) % 256];
        PutOneMore(value, index);
      }
    }

    method Signed(value: int, width: nat)
      requires SignedFits(value, width)
      modifies this
      ensures bytes == old(bytes) + PutSigned(value, width)
    {
      SignedRoundTrip(value, width);
      Integer(ToUnsigned(value, width), width);
    }

    method Flag(flag: bool)
      modifies this
      ensures bytes == old(bytes) + PutFlag(flag)
    {
      bytes := bytes + [if flag then 1 else 0];
    }

    method String(text: seq<Byte>) returns (ok: bool)
      modifies this
      ensures ok == (|text| < TWO_TO_32)
      ensures bytes == if ok then old(bytes) + PutString(text) else old(bytes)
    {
      if |text| >= TWO_TO_32 { return false; }
      Integer(|text|, 4);
      bytes := bytes + text;
      return true;
    }

    method Ids(ids: seq<nat>) returns (ok: bool)
      modifies this
      ensures ok == (|ids| < TWO_TO_32)
      ensures bytes == if ok then old(bytes) + PutIds(ids) else old(bytes)
    {
      hide Put;
      if |ids| >= TWO_TO_32 { return false; }
      Integer(|ids|, 4);
      assert ids[..0] == [];
      for index := 0 to |ids|
        invariant bytes == old(bytes) + (Put(|ids|, 4) + PutAll(ids[..index]))
      {
        Integer(ids[index], 8);
        PutAllOneMore(ids[..index], ids[index]);
        assert ids[..index + 1] == ids[..index] + [ids[index]];
      }
      assert ids[..|ids|] == ids;
      return true;
    }

    method OptionalId(id: Option<nat>)
      modifies this
      ensures bytes == old(bytes) + PutOptionalId(id)
    {
      hide Put, PutFlag;
      Flag(id.Some?);
      if id.Some? { Integer(id.value, 8); }
    }

    method Fault(error: Error) returns (ok: bool)
      modifies this
      ensures ok == (|error.message| < TWO_TO_32)
      ensures ok ==> bytes == old(bytes) + PutError(error)
    {
      hide Put, PutString;
      Integer(CodeNumber(error.code), 2);
      Integer(error.supportData, 8);
      ok := String(error.message);
    }

    method Core(core: Core) returns (ok: bool)
      requires NumbersFit(core)
      modifies this
      ensures ok == CoreFits(core)
      ensures ok ==> bytes == old(bytes) + PutCore(core)
    {
      hide Put, PutString, PutSigned, SignedFits, PutError, PutOptionalId;
      ok := Fault(core.error);
      if !ok { return; }
      OptionalId(core.application);
      Signed(core.evidence.exitCode, 4);
      Signed(core.evidence.signal, 4);
      Integer(core.evidence.nativeCode, 8);
      ok := String(core.evidence.message);
      if ok {
        assert bytes == old(bytes) + (PutError(core.error) + (PutOptionalId(core.application) + PutEvidence(core.evidence)));
      }
    }

    method Policy(policy: Policy) returns (ok: bool)
      modifies this
      ensures ok == (policy.error.Some? ==> |policy.error.value.message| < TWO_TO_32)
      ensures ok ==> bytes == old(bytes) + PutPolicy(policy)
    {
      hide Put, PutFlag, PutError;
      ghost var action, attempted, succeeded := Put(ActionNumber(policy.action), 1), PutFlag(policy.attempted), PutFlag(policy.succeeded);
      Integer(ActionNumber(policy.action), 1);
      Flag(policy.attempted);
      Flag(policy.succeeded);
      Flag(policy.error.Some?);
      if policy.error.None? {
        Regroup(old(bytes), action, attempted, succeeded, PutFlag(false), []);
        return true;
      }
      ok := Fault(policy.error.value);
      if ok {
        Regroup(old(bytes), action, attempted, succeeded, PutFlag(true), PutError(policy.error.value));
      }
    }

    method Report(report: Report) returns (ok: bool)
      requires ReportNumbersFit(report)
      modifies this
      ensures ok == ReportFits(report)
      ensures ok ==> bytes == old(bytes) + PutReport(report)
    {
      hide PutPolicy, PutOptionalId, PutIds, IdsFit;
      var policy := report.policy;
      ok := Policy(policy);
      if !ok { return; }
      OptionalId(report.mode);
      ok := Ids(report.stopped);
      if !ok { return; }
      ok := Ids(report.started);
      if ok {
        assert bytes == old(bytes) + (PutPolicy(policy) + (PutOptionalId(report.mode) + (PutIds(report.stopped) + PutIds(report.started))));
      }
    }

    method FivePlanLists(plan: Plan) returns (ok: bool)
      modifies this
      ensures ok == (|plan.retain| < TWO_TO_32 && |plan.stop| < TWO_TO_32 && |plan.start| < TWO_TO_32 &&
                     |plan.guarded| < TWO_TO_32 && |plan.resources| < TWO_TO_32)
      ensures ok ==> bytes == old(bytes) + (PutIds(plan.retain) + (PutIds(plan.stop) + (PutIds(plan.start) + (PutIds(plan.guarded) + PutIds(plan.resources)))))
    {
      hide PutIds;
      ghost var a, b, c, d, e := PutIds(plan.retain), PutIds(plan.stop), PutIds(plan.start), PutIds(plan.guarded), PutIds(plan.resources);
      ok := Ids(plan.retain);
      if !ok { return; }
      ok := Ids(plan.stop);
      if !ok { return; }
      ok := Ids(plan.start);
      if !ok { return; }
      ok := Ids(plan.guarded);
      if !ok { return; }
      ok := Ids(plan.resources);
      if !ok { return; }
      assert bytes == old(bytes) + a + b + c + d + e;
      Regroup(old(bytes), a, b, c, d, e);
    }

    method FourNames(names: Names)
      modifies this
      ensures bytes == old(bytes) + PutNames(names)
    {
      hide Put;
      Integer(names.first, 8);
      Integer(names.second, 8);
      Integer(names.third, 8);
      Integer(names.fourth, 8);
    }
  }

  /** What the field types of the source guarantee; lengths are checked when encoding. */
  predicate NumbersFit(core: Core) {
    && core.error.supportData < TWO_TO_64 && OptionalIdFits(core.application)
    && SignedFits(core.evidence.exitCode, 4) && SignedFits(core.evidence.signal, 4) && core.evidence.nativeCode < TWO_TO_64
  }

  predicate ReportNumbersFit(report: Report) {
    && (report.policy.error.Some? ==> report.policy.error.value.supportData < TWO_TO_64)
    && OptionalIdFits(report.mode) && IdsFit(report.stopped) && IdsFit(report.started)
  }

  predicate PlanNumbersFit(plan: Plan) {
    && NamesFit(Names(plan.generation, plan.domain, plan.source, plan.target))
    && IdsFit(plan.retain) && IdsFit(plan.stop) && IdsFit(plan.start) && IdsFit(plan.guarded) && IdsFit(plan.resources)
  }

  predicate FailureNumbersFit(failure: Failure) {
    NumbersFit(CoreOf(failure)) && ReportNumbersFit(ReportOf(failure))
  }

  predicate EventNumbersFit(event: JournalEvent) {
    var t := event.transition;
    && event.generation < TWO_TO_64 && NamesFit(Names(t.id, t.domain, t.source, t.target)) && SignedFits(t.updatedAt, 8)
    && (t.failure.Some? ==> FailureNumbersFit(t.failure.value))
    && (event.plan.Some? ==> PlanNumbersFit(event.plan.value))
  }

  method EncodeFailure(encoder: Encoder, failure: Option<Failure>) returns (ok: bool)
    requires failure.Some? ==> FailureNumbersFit(failure.value)
    modifies encoder
    ensures ok == (failure.Some? ==> FailureFits(failure.value))
    ensures ok ==> encoder.bytes == old(encoder.bytes) + PutOptionalFailure(failure)
  {
    hide PutFlag, PutCore, PutReport, CoreFits, ReportFits, NumbersFit, ReportNumbersFit;
    encoder.Flag(failure.Some?);
    if failure.None? { return true; }
    ok := encoder.Core(CoreOf(failure.value));
    if !ok { return; }
    ok := encoder.Report(ReportOf(failure.value));
  }

  method EncodePlan(encoder: Encoder, plan: Option<Plan>) returns (ok: bool)
    requires plan.Some? ==> PlanNumbersFit(plan.value)
    modifies encoder
    ensures ok == (plan.Some? ==> PlanFits(plan.value))
    ensures ok ==> encoder.bytes == old(encoder.bytes) + PutOptionalPlan(plan)
  {
    hide PutFlag, PutNames, PutIds, NamesFit, IdsFit;
    encoder.Flag(plan.Some?);
    if plan.None? { return true; }
    var p := plan.value;
    encoder.FourNames(Names(p.generation, p.domain, p.source, p.target));
    ok := encoder.FivePlanLists(p);
    if ok {
      assert encoder.bytes == old(encoder.bytes) + (PutFlag(true) + PutPlan(p));
    }
  }

  method EncodeEvent(event: JournalEvent, maximum: nat) returns (r: Option<seq<Byte>>)
    requires EventNumbersFit(event)
    ensures r == Encode(event, maximum)
    ensures r.Some? ==> EventFits(event) && r.value == Flat(Fields(event))
  {
    hide Put, PutNames, PutSigned, PutOptionalFailure, PutOptionalPlan, FailureFits, PlanFits, FailureNumbersFit, PlanNumbersFit, NamesFit, SignedFits, Flat, Fields;
    var t := event.transition;
    var encoder := new Encoder();
    encoder.Integer(event.generation, 8);
    encoder.FourNames(Names(t.id, t.domain, t.source, t.target));
    encoder.Integer(Rank(t.phase), 1);
    encoder.Signed(t.updatedAt, 8);
    var ok := EncodeFailure(encoder, t.failure);
    if !ok { return None; }
    ok := EncodePlan(encoder, event.plan);
    if !ok { return None; }
    assert encoder.bytes == PutEvent(event);
    EventLayout(event);
    if |encoder.bytes| > maximum { return None; }
    return Some(encoder.bytes);
  }

  /** What a read gives, and what it leaves, against the parse of what was there. */
  predicate Took<T(==)>(parsed: Parsed<T>, r: Option<T>, rest: seq<Byte>) {
    if parsed.Bad? then r.None? else r == Some(parsed.value) && rest == parsed.rest
  }

  class Decoder {
    const bytes: seq<Byte>
    var offset: nat

    ghost predicate Valid()
      reads this`offset
    {
      offset <= |bytes|
    }

    function Rest(): seq<Byte>
      requires Valid()
      reads this`offset
    {
      bytes[offset..]
    }

    constructor (bytes: seq<Byte>)
      ensures Valid() && Rest() == bytes && this.bytes == bytes
    {
      this.bytes := bytes;
      offset := 0;
    }

    method Integer(width: nat) returns (r: Option<nat>)
      requires Valid()
      modifies this`offset
      ensures Valid() && Took(TakeInt(old(Rest()), width), r, Rest())
    {
      if |bytes| - offset < width { return None; }
      var decoded := 0;
      for index := 0 to width
        invariant offset == old(offset) && offset + width <= |bytes|
        invariant decoded == Get(bytes[offset..offset + index])
      {
        decoded := decoded + bytes[offset + index] * Pow256(index);
        GetOneMore(bytes[offset..offset + index], bytes[offset + index]);
        assert bytes[offset..offset + index + 1] == bytes[offset..offset + index] + [bytes[offset + index]];
      }
      assert old(Rest())[width..] == bytes[offset + width..];
      assert old(Rest())[..width] == bytes[offset..offset + width];
      offset := offset + width;
      return Some(decoded);
    }

    method Signed(width: nat) returns (r: Option<int>)
      requires Valid()
      modifies this`offset
      ensures Valid() && Took(TakeSigned(old(Rest()), width), r, Rest())
    {
      hide TakeInt;
      var n := Integer(width);
      if n.None? { return None; }
      return Some(ToSigned(n.value, width));
    }

    method Flag() returns (r: Option<bool>)
      requires Valid()
      modifies this`offset
      ensures Valid() && Took(TakeFlag(old(Rest())), r, Rest())
    {
      hide TakeInt;
      var n := Integer(1);
      if n.None? || n.value > 1 { return None; }
      return Some(n.value != 0);
    }

    method String() returns (r: Option<seq<Byte>>)
      requires Valid()
      modifies this`offset
      ensures Valid() && Took(TakeString(old(Rest())), r, Rest())
    {
      hide TakeInt;
      var n := Integer(4);
      if n.None? || n.value > |bytes| - offset { return None; }
      var text := bytes[offset..offset + n.value];
      assert Rest()[..n.value] == text && Rest()[n.value..] == bytes[offset + n.value..];
      offset := offset + n.value;
      return Some(text);
    }

    method Ids() returns (r: Option<seq<nat>>)
      requires Valid()
      modifies this`offset
      ensures Valid() && Took(TakeIds(old(Rest())), r, Rest())
    {
      hide TakeInt;
      var count := Integer(4);
      if count.None? || count.value > (|bytes| - offset) / 8 { return None; }
      ghost var start := Rest();
      var ids: seq<nat> := [];
      PrependNothing(TakeAll(start, count.value));
      for index := 0 to count.value
        invariant Valid() && |ids| == index
        invariant TakeAll(start, count.value) == Prepended(ids, TakeAll(Rest(), count.value - index))
      {
        ghost var here := Rest();
        var id := Integer(8);
        if id.None? { return None; }
        ids := ids + [id.value];
        PrependOneMore(ids[..index], id.value, TakeAll(Rest(), count.value - index - 1));
        assert ids[..index] + [id.value] == ids;
      }
      assert TakeAll(Rest(), 0) == Good([], Rest()) && ids + [] == ids;
      return Some(ids);
    }

    method OptionalId() returns (r: Option<Option<nat>>)
      requires Valid()
      modifies this`offset
      ensures Valid() && Took(TakeOptionalId(old(Rest())), r, Rest())
    {
      hide TakeInt, TakeFlag;
      var present := Flag();
      if present.None? { return None; }
      if !present.value { return Some(None); }
      var id := Integer(8);
      if id.None? { return None; }
      return Some(id);
    }

    method Fault() returns (r: Option<Error>)
      requires Valid()
      modifies this`offset
      ensures Valid() && Took(TakeError(old(Rest())), r, Rest())
    {
      hide TakeInt, TakeString;
      var code := Integer(2);
      if code.None? { return None; }
      var support := Integer(8);
      if support.None? { return None; }
      var message := String();
      if message.None? || code.value > CodeNumber(InternalError) { return None; }
      return Some(Error(CODES[code.value], message.value, support.value));
    }

    method Observed() returns (r: Option<Evidence>)
      requires Valid()
      modifies this`offset
      ensures Valid() && Took(TakeEvidence(old(Rest())), r, Rest())
    {
      hide TakeInt, TakeString, TakeSigned;
      var exitCode := Signed(4);
      if exitCode.None? { return None; }
      var signal := Signed(4);
      if signal.None? { return None; }
      var native := Integer(8);
      if native.None? { return None; }
      var message := String();
      if message.None? { return None; }
      return Some(Evidence(UnknownState, exitCode.value, signal.value, native.value, message.value));
    }

    method CorePart() returns (r: Option<Core>)
      requires Valid()
      modifies this`offset
      ensures Valid() && Took(TakeCore(old(Rest())), r, Rest())
    {
      hide TakeError, TakeOptionalId, TakeEvidence;
      var error := Fault();
      if error.None? { return None; }
      var application := OptionalId();
      if application.None? { return None; }
      var evidence := Observed();
      if evidence.None? { return None; }
      return Some(Core(error.value, application.value, evidence.value));
    }

    method PolicyPart() returns (r: Option<Policy>)
      requires Valid()
      modifies this`offset
      ensures Valid() && Took(TakePolicy(old(Rest())), r, Rest())
    {
      hide TakeInt, TakeFlag, TakeError;
      var action := Integer(1);
      if action.None? { return None; }
      var attempted := Flag();
      if attempted.None? { return None; }
      var succeeded := Flag();
      if succeeded.None? { return None; }
      var failed := Flag();
      if failed.None? || (action.value > ActionNumber(RequestSystemRecovery)) { return None; }
      if !failed.value { return Some(Policy(ACTIONS[action.value], attempted.value, succeeded.value, None)); }
      var error := Fault();
      if error.None? { return None; }
      return Some(Policy(ACTIONS[action.value], attempted.value, succeeded.value, error));
    }

    method ReportPart() returns (r: Option<Report>)
      requires Valid()
      modifies this`offset
      ensures Valid() && Took(TakeReport(old(Rest())), r, Rest())
    {
      hide TakePolicy, TakeOptionalId, TakeIds;
      var policy := PolicyPart();
      if policy.None? { return None; }
      var mode := OptionalId();
      if mode.None? { return None; }
      var stopped := Ids();
      if stopped.None? { return None; }
      var started := Ids();
      if started.None? { return None; }
      return Some(Report(policy.value, mode.value, stopped.value, started.value));
    }

    method FailurePart(version: nat) returns (r: Option<Option<Failure>>)
      requires Valid()
      modifies this`offset
      ensures Valid() && Took(TakeOptionalFailure(old(Rest()), version), r, Rest())
    {
      hide TakeFlag, TakeCore, TakeReport;
      var present := Flag();
      if present.None? { return None; }
      if !present.value { return Some(None); }
      var core := CorePart();
      if core.None? { return None; }
      if version < 2 { return Some(Some(FailureOf(core.value, NO_REPORT))); }
      var report := ReportPart();
      if report.None? { return None; }
      return Some(Some(FailureOf(core.value, report.value)));
    }

    method FourNames() returns (r: Option<Names>)
      requires Valid()
      modifies this`offset
      ensures Valid() && Took(TakeNames(old(Rest())), r, Rest())
    {
      hide TakeInt;
      var first := Integer(8);
      if first.None? { return None; }
      var second := Integer(8);
      if second.None? { return None; }
      var third := Integer(8);
      if third.None? { return None; }
      var fourth := Integer(8);
      if fourth.None? { return None; }
      return Some(Names(first.value, second.value, third.value, fourth.value));
    }

    method OpeningPart() returns (r: Option<Opening>)
      requires Valid()
      modifies this`offset
      ensures Valid() && Took(TakeOpening(old(Rest())), r, Rest())
    {
      hide TakeInt, TakeNames, TakeSigned;
      var generation := Integer(8);
      if generation.None? { return None; }
      var names := FourNames();
      if names.None? { return None; }
      var phase := Integer(1);
      if phase.None? { return None; }
      var updated := Signed(8);
      if updated.None? { return None; }
      return Some(Opening(generation.value, names.value, phase.value, updated.value));
    }

    method EventPart(version: nat) returns (r: Option<JournalEvent>)
      requires Valid()
      modifies this`offset
      ensures Valid() && Took(TakeEvent(old(Rest()), version), r, Rest())
    {
      hide TakeOpening, TakeOptionalFailure, TakeOptionalPlan, TakeEvent, EventOf;
      TakeEventIs(Rest(), version);
      var opening := OpeningPart();
      if opening.None? { return None; }
      var failure := FailurePart(version);
      if failure.None? || opening.value.phase > Rank(Recovering) { return None; }
      var plan := PlanPart();
      if plan.None? { return None; }
      return Some(EventOf(opening.value, failure.value, plan.value));
    }

    method PlanPart() returns (r: Option<Option<Plan>>)
      requires Valid()
      modifies this`offset
      ensures Valid() && Took(TakeOptionalPlan(old(Rest())), r, Rest())
    {
      hide TakeFlag, TakeNames, TakeIds;
      var present := Flag();
      if present.None? { return None; }
      if !present.value { return Some(None); }
      var names := FourNames();
      if names.None? { return None; }
      var retain := Ids();
      if retain.None? { return None; }
      var stop := Ids();
      if stop.None? { return None; }
      var start := Ids();
      if start.None? { return None; }
      var guarded := Ids();
      if guarded.None? { return None; }
      var resources := Ids();
      if resources.None? { return None; }
      var n := names.value;
      return Some(Some(Plan(n.first, n.second, n.third, n.fourth, retain.value, stop.value, start.value, guarded.value, resources.value)));
    }
  }

  function Prepended(ids: seq<nat>, parsed: Parsed<seq<nat>>): Parsed<seq<nat>> {
    match parsed
    case Bad => Bad
    case Good(more, rest) => Good(ids + more, rest)
  }

  lemma PrependNothing(parsed: Parsed<seq<nat>>)
    ensures Prepended([], parsed) == parsed
  {
    if parsed.Good? {
      assert [] + parsed.value == parsed.value;
    }
  }

  lemma PrependOneMore(ids: seq<nat>, id: nat, parsed: Parsed<seq<nat>>)
    ensures Prepended(ids, Prepended([id], parsed)) == Prepended(ids + [id], parsed)
  {
    if parsed.Good? {
      assert ids + ([id] + parsed.value) == ids + [id] + parsed.value;
    }
  }

  /** The part of an event before its failure. */
  datatype Opening = Opening(generation: nat, names: Names, phase: nat, updatedAt: int)

  function TakeOpening(bytes: seq<Byte>): Parsed<Opening> {
    match TakeInt(bytes, 8)
    case Bad => Bad
    case Good(generation, rest1) =>
      match TakeNames(rest1)
      case Bad => Bad
      case Good(names, rest2) =>
        match TakeInt(rest2, 1)
        case Bad => Bad
        case Good(phase, rest3) =>
          match TakeSigned(rest3, 8)
          case Bad => Bad
          case Good(updatedAt, rest4) => Good(Opening(generation, names, phase, updatedAt), rest4)
  }

  function EventOf(opening: Opening, failure: Option<Failure>, plan: Option<Plan>): JournalEvent
    requires opening.phase < |PHASES|
  {
    var n := opening.names;
    JournalEvent(Snapshot(n.first, n.second, n.third, n.fourth, PHASES[opening.phase], opening.updatedAt, failure),
                 opening.generation, plan)
  }

  lemma TakeEventIs(bytes: seq<Byte>, version: nat)
    ensures TakeEvent(bytes, version) ==
            match TakeOpening(bytes)
            case Bad => Bad
            case Good(opening, rest1) =>
              match TakeOptionalFailure(rest1, version)
              case Bad => Bad
              case Good(failure, rest2) =>
                match TakeOptionalPlan(rest2)
                case Bad => Bad
                case Good(plan, rest3) =>
                  if opening.phase >= |PHASES| then Bad else Good(EventOf(opening, failure, plan), rest3)
  {
    hide TakeInt, TakeNames, TakeSigned, TakeOptionalFailure, TakeOptionalPlan;
  }

  method DecodeEvent(bytes: seq<Byte>, version: nat) returns (r: Option<JournalEvent>)
    ensures r == Decode(bytes, version)
    ensures r.Some? && version == 1 ==> EventFits(r.value) && bytes == Flat(FieldsOfVersionOne(r.value))
    ensures r.Some? && version == 2 ==> EventFits(r.value) && bytes == Flat(Fields(r.value))
  {
    hide TakeEvent, Decode, Took, EventFits, Flat, Fields, FieldsOfVersionOne;
    var decoder := new Decoder(bytes);
    r := decoder.EventPart(version);
    DecodeIs(bytes, version, r, decoder.Rest());
    assert decoder.Rest() == [] <==> decoder.offset == |bytes|;
    if r.Some? && decoder.offset != |bytes| { return None; }
    if r.Some? {
      DecodedLayout(bytes, version);
    }
  }

  lemma DecodedLayout(bytes: seq<Byte>, version: nat)
    requires Decode(bytes, version).Some?
    ensures version == 1 ==> EventFits(Decode(bytes, 1).value) && bytes == Flat(FieldsOfVersionOne(Decode(bytes, 1).value))
    ensures version == 2 ==> EventFits(Decode(bytes, 2).value) && bytes == Flat(Fields(Decode(bytes, 2).value))
  {
    hide TakeEvent, Decode, Flat, FieldsOfVersionOne, Fields, PutEvent, EventFits;
    if version == 1 {
      VersionOneOfDecode(bytes);
    } else if version == 2 {
      EncodeOfDecode(bytes, |bytes|);
      EventLayout(Decode(bytes, 2).value);
    }
  }

  lemma DecodeIs(bytes: seq<Byte>, version: nat, r: Option<JournalEvent>, rest: seq<Byte>)
    requires Took(TakeEvent(bytes, version), r, rest)
    ensures Decode(bytes, version) == if r.Some? && rest != [] then None else r
  {
    hide TakeEvent;
  }
}
