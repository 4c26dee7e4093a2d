/** The journal payload field by field, as a reader of the file format would describe it. */
module JournalLayout {
  import opened Wrappers
  import opened Bytes
  import opened ExecutionModel
  import opened Planner
  import opened JournalEvents
  import opened ByteCodec
  import opened JournalCodec

  type Field = seq<Byte>

  /** The fields, one after the other. */
  function Flat(fields: seq<Field>): seq<Byte> {
    if fields == [] then [] else fields[0] + Flat(fields[1..])
  }

  /** Little endian: byte k has the weight 256 to the k. */
  function Little(value: nat, width: nat): Field {
    seq(width, k requires 0 <= k < width => value / Pow256(k) % 256)
  }

  /** Two's complement. */
  function Complement(value: int, width: nat): Field
    requires SignedFits(value, width)
  {
    Little(if value < 0 then Pow256(width) + value else value, width)
  }

  function Bool(flag: bool): Field {
    [if flag then 1 else 0]
  }

  function PhaseByte(phase: Phase): Byte {
    match phase
    case Received => 0
    case Validated => 1
    case Planned => 2
    case Stopping => 3
    case Starting => 4
    case AwaitingReadiness => 5
    case Committing => 6
    case Succeeded => 7
    case Rejected => 8
    case Failed => 9
    case PhaseCancelled => 10
    case PhaseSuperseded => 11
    case PhaseDeadlineExceeded => 12
    case RecoveryFailed => 13
    case Recovering => 14
  }

  function CodeByte(code: ErrorCode): Byte {
    match code
    case NoError => 0
    case InvalidArgument => 1
    case InvalidIdentifier => 2
    case InvalidTransition => 3
    case AlreadyExists => 4
    case NotFound => 5
    case PermissionDenied => 6
    case Busy => 7
    case Superseded => 8
    case Cancelled => 9
    case DeadlineExceeded => 10
    case ResourceExhausted => 11
    case ConfigurationError => 12
    case CommunicationError => 13
    case BackendUnavailable => 14
    case BackendError => 15
    case PersistenceError => 16
    case IncompatibleAbi => 17
    case Unsupported => 18
    case InternalError => 19
  }

  function ActionByte(action: FailureAction): Byte {
    match action
    case HoldObservedConfiguration => 0
    case EnterFallbackMode => 1
    case RollbackIfDeclaredSafe => 2
    case StopDomain => 3
    case RequestSystemRecovery => 4
  }

  // ---------------------------------------------------------------------
  // The fields
  // ---------------------------------------------------------------------

  /** The code in two bytes, the support data, and the message behind its length. */
  function ErrorFields(error: Error): seq<Field> {
    [[CodeByte(error.code), 0], Little(error.supportData, 8), Little(|error.message|, 4), error.message]
  }

  function OptionalIdFields(id: Option<nat>): seq<Field> {
    match id
    case None => [[0]]
    case Some(value) => [[1], Little(value, 8)]
  }

  function OptionalErrorFields(error: Option<Error>): seq<Field> {
    match error
    case None => [[0]]
    case Some(value) => [[1]] + ErrorFields(value)
  }

  function ListFields(ids: seq<nat>): seq<Field> {
    [Little(|ids|, 4)] + seq(|ids|, k requires 0 <= k < |ids| => Little(ids[k], 8))
  }

  function EvidenceFields(evidence: Evidence): seq<Field>
    requires EvidenceFits(evidence)
  {
    [Complement(evidence.exitCode, 4), Complement(evidence.signal, 4), Little(evidence.nativeCode, 8),
     Little(|evidence.message|, 4), evidence.message]
  }

  /** What every version has of a failure. */
  function CoreFields(failure: Failure): seq<Field>
    requires EvidenceFits(failure.evidence)
  {
    ErrorFields(failure.error) + OptionalIdFields(failure.application) + EvidenceFields(failure.evidence)
  }

  /** What version 2 adds. */
  function ReportFields(failure: Failure): seq<Field> {
    [[ActionByte(failure.recoveryAction)], Bool(failure.recoveryAttempted), Bool(failure.recoverySucceeded)] +
    OptionalErrorFields(failure.recoveryError) + OptionalIdFields(failure.recoveredMode) +
    ListFields(failure.stopped) + ListFields(failure.started)
  }

  function PlanFields(plan: Plan): seq<Field> {
    [Little(plan.generation, 8), Little(plan.domain, 8), Little(plan.source, 8), Little(plan.target, 8)] +
    ListFields(plan.retain) + ListFields(plan.stop) + ListFields(plan.start) +
    ListFields(plan.guarded) + ListFields(plan.resources)
  }

  function HeadFields(event: JournalEvent): seq<Field>
    requires SignedFits(event.transition.updatedAt, 8)
  {
    var t := event.transition;
    [Little(event.generation, 8), Little(t.id, 8), Little(t.domain, 8), Little(t.source, 8), Little(t.target, 8),
     [PhaseByte(t.phase)], Complement(t.updatedAt, 8)]
  }

  function FailureFields(failure: Option<Failure>): seq<Field>
    requires failure.Some? ==> EvidenceFits(failure.value.evidence)
  {
    match failure
    case None => [[0]]
    case Some(value) => [[1]] + CoreFields(value) + ReportFields(value)
  }

  function OptionalPlanFields(plan: Option<Plan>): seq<Field> {
    match plan
    case None => [[0]]
    case Some(value) => [[1]] + PlanFields(value)
  }

  /** The whole payload in the order in which it is written. */
  function Fields(event: JournalEvent): seq<Field>
    requires EventFits(event)
  {
    HeadFields(event) + FailureFields(event.transition.failure) + OptionalPlanFields(event.plan)
  }

  // ---------------------------------------------------------------------
  // The encoding has this layout
  // ---------------------------------------------------------------------

  lemma {:induction false} FlatBoth(a: seq<Field>, b: seq<Field>)
    ensures Flat(a + b) == Flat(a) + Flat(b)
  {
    if a == [] {
      assert a + b == b;
    } else {
      assert (a + b)[0] == a[0] && (a + b)[1..] == a[1..] + b;
      FlatBoth(a[1..], b);
    }
  }

  lemma FlatOne(field: Field)
    ensures Flat([field]) == field
  {
    assert [field][1..] == [];
  }

  lemma FlatFirst(field: Field, rest: seq<Field>)
    ensures Flat([field] + rest) == field + Flat(rest)
  {
    assert ([field] + rest)[1..] == rest;
  }

  /** Byte k of a written integer has the weight 256 to the k. */
  lemma {:induction false} LittleIsPut(value: nat, width: nat)
    ensures Put(value, width) == Little(value, width)
  {
    if width > 0 {
      LittleIsPut(value / 256, width - 1);
      forall k | 0 <= k < width ensures Put(value, width)[k] == Little(value, width)[k] {
        if k == 0 {
          assert Pow256(0) == 1;
        } else {
          ShiftTwice(value, k);
          assert Put(value, width)[k] == Little(value / 256, width - 1)[k - 1];
        }
      }
    }
  }

  lemma SignedLayout(value: int, width: nat)
    requires SignedFits(value, width)
    ensures PutSigned(value, width) == Complement(value, width)
  {
    hide Put, Little;
    LittleIsPut(ToUnsigned(value, width), width);
  }

  lemma FlagLayout(flag: bool)
    ensures PutFlag(flag) == Bool(flag) && Bool(true) == [1] && Bool(false) == [0]
  {
  }

  lemma CodeLayout(code: ErrorCode)
    ensures Put(CodeNumber(code), 2) == [CodeByte(code), 0]
  {
    var n := CodeNumber(code);
    assert n == CodeByte(code);
    assert Put(n, 2) == [n % 256] + Put(n / 256, 1) && Put(n / 256, 1) == [n / 256 % 256] + Put(n / 256 / 256, 0);
  }

  lemma PhaseLayout(phase: Phase)
    ensures Put(Rank(phase), 1) == [PhaseByte(phase)]
  {
    var n := Rank(phase);
    assert n == PhaseByte(phase);
    assert Put(n, 1) == [n % 256] + Put(n / 256, 0);
  }

  lemma ActionLayout(action: FailureAction)
    ensures Put(ActionNumber(action), 1) == [ActionByte(action)]
  {
    var n := ActionNumber(action);
    assert n == ActionByte(action);
    assert Put(n, 1) == [n % 256] + Put(n / 256, 0);
  }

  lemma ErrorLayout(error: Error)
    ensures PutError(error) == Flat(ErrorFields(error))
  {
    hide Put, Little, CodeNumber, CodeByte, Flat;
    CodeLayout(error.code);
    LittleIsPut(error.supportData, 8);
    LittleIsPut(|error.message|, 4);
    var a, b, c, d := [CodeByte(error.code), 0], Little(error.supportData, 8), Little(|error.message|, 4), error.message;
    FlatOne(d);
    FlatFirst(c, [d]);
    FlatFirst(b, [c, d]);
    FlatFirst(a, [b, c, d]);
    assert [c] + [d] == [c, d] && [b] + [c, d] == [b, c, d] && [a] + [b, c, d] == [a, b, c, d];
  }

  lemma OptionalIdLayout(id: Option<nat>)
    ensures PutOptionalId(id) == Flat(OptionalIdFields(id))
  {
    hide Put, Little, Flat;
    match id
    case None => FlatOne([0]);
    case Some(value) =>
      LittleIsPut(value, 8);
      FlatOne(Little(value, 8));
      FlatFirst([1], [Little(value, 8)]);
      assert [[1]] + [Little(value, 8)] == [[1], Little(value, 8)];
  }

  lemma OptionalErrorLayout(error: Option<Error>)
    ensures PutOptionalError(error) == Flat(OptionalErrorFields(error))
  {
    hide PutError, ErrorFields, Flat;
    match error
    case None => FlatOne([0]);
    case Some(value) =>
      ErrorLayout(value);
      FlatFirst([1], ErrorFields(value));
  }

  lemma {:induction false} AllLayout(ids: seq<nat>)
    ensures PutAll(ids) == Flat(seq(|ids|, k requires 0 <= k < |ids| => Little(ids[k], 8)))
  {
    hide Put, Little;
    var fields := seq(|ids|, k requires 0 <= k < |ids| => Little(ids[k], 8));
    if ids == [] {
      assert fields == [];
    } else {
      AllLayout(ids[1..]);
      LittleIsPut(ids[0], 8);
      assert fields[1..] == seq(|ids[1..]|, k requires 0 <= k < |ids[1..]| => Little(ids[1..][k], 8));
    }
  }

  lemma ListLayout(ids: seq<nat>)
    ensures PutIds(ids) == Flat(ListFields(ids))
  {
    hide Put, Little, Flat, PutAll;
    LittleIsPut(|ids|, 4);
    AllLayout(ids);
    FlatFirst(Little(|ids|, 4), seq(|ids|, k requires 0 <= k < |ids| => Little(ids[k], 8)));
  }

  lemma EvidenceLayout(evidence: Evidence)
    requires EvidenceFits(evidence)
    ensures PutEvidence(evidence) == Flat(EvidenceFields(evidence))
  {
    hide Put, PutSigned, Little, Complement, SignedFits, Flat;
    SignedLayout(evidence.exitCode, 4);
    SignedLayout(evidence.signal, 4);
    LittleIsPut(evidence.nativeCode, 8);
    LittleIsPut(|evidence.message|, 4);
    var a, b := Complement(evidence.exitCode, 4), Complement(evidence.signal, 4);
    var c, d, e := Little(evidence.nativeCode, 8), Little(|evidence.message|, 4), evidence.message;
    FlatOne(e);
    FlatFirst(d, [e]);
    FlatFirst(c, [d, e]);
    FlatFirst(b, [c, d, e]);
    FlatFirst(a, [b, c, d, e]);
    assert [d] + [e] == [d, e] && [c] + [d, e] == [c, d, e] && [b] + [c, d, e] == [b, c, d, e];
    assert [a] + [b, c, d, e] == [a, b, c, d, e];
  }

  lemma CoreLayout(failure: Failure)
    requires CoreFits(CoreOf(failure))
    ensures PutCore(CoreOf(failure)) == Flat(CoreFields(failure))
  {
    hide PutError, PutOptionalId, PutEvidence, ErrorFields, OptionalIdFields, EvidenceFields, EvidenceFits, ErrorFits, OptionalIdFits, Flat;
    ErrorLayout(failure.error);
    OptionalIdLayout(failure.application);
    EvidenceLayout(failure.evidence);
    FlatBoth(ErrorFields(failure.error), OptionalIdFields(failure.application));
    FlatBoth(ErrorFields(failure.error) + OptionalIdFields(failure.application), EvidenceFields(failure.evidence));
  }

  lemma PolicyLayout(failure: Failure)
    ensures PutPolicy(ReportOf(failure).policy) ==
            Flat([[ActionByte(failure.recoveryAction)], Bool(failure.recoveryAttempted), Bool(failure.recoverySucceeded)] +
                 OptionalErrorFields(failure.recoveryError))
  {
    hide Put, PutFlag, PutOptionalError, OptionalErrorFields, ActionByte, ActionNumber, Bool, Flat;
    ActionLayout(failure.recoveryAction);
    FlagLayout(failure.recoveryAttempted);
    FlagLayout(failure.recoverySucceeded);
    OptionalErrorLayout(failure.recoveryError);
    var a, b, c := [ActionByte(failure.recoveryAction)], Bool(failure.recoveryAttempted), Bool(failure.recoverySucceeded);
    var rest := OptionalErrorFields(failure.recoveryError);
    FlatFirst(c, rest);
    FlatFirst(b, [c] + rest);
    FlatFirst(a, [b] + ([c] + rest));
    assert [a] + ([b] + ([c] + rest)) == [a, b, c] + rest;
  }

  lemma ReportLayout(failure: Failure)
    ensures PutReport(ReportOf(failure)) == Flat(ReportFields(failure))
  {
    hide PutPolicy, PutOptionalId, PutIds, OptionalErrorFields, OptionalIdFields, ListFields, ActionByte, Bool, Flat;
    PolicyLayout(failure);
    OptionalIdLayout(failure.recoveredMode);
    ListLayout(failure.stopped);
    ListLayout(failure.started);
    var policy := [[ActionByte(failure.recoveryAction)], Bool(failure.recoveryAttempted), Bool(failure.recoverySucceeded)] +
                  OptionalErrorFields(failure.recoveryError);
    FlatBoth(policy, OptionalIdFields(failure.recoveredMode));
    FlatBoth(policy + OptionalIdFields(failure.recoveredMode), ListFields(failure.stopped));
    FlatBoth(policy + OptionalIdFields(failure.recoveredMode) + ListFields(failure.stopped), ListFields(failure.started));
  }

  lemma NamesLayout(a: nat, b: nat, c: nat, d: nat)
    ensures PutNames(Names(a, b, c, d)) == Flat([Little(a, 8), Little(b, 8), Little(c, 8), Little(d, 8)])
  {
    hide Put, Little, Flat;
    LittleIsPut(a, 8);
    LittleIsPut(b, 8);
    LittleIsPut(c, 8);
    LittleIsPut(d, 8);
    var w, x, y, z := Little(a, 8), Little(b, 8), Little(c, 8), Little(d, 8);
    FlatOne(z);
    FlatFirst(y, [z]);
    FlatFirst(x, [y, z]);
    FlatFirst(w, [x, y, z]);
    assert [y] + [z] == [y, z] && [x] + [y, z] == [x, y, z] && [w] + [x, y, z] == [w, x, y, z];
  }

  lemma PlanLayout(plan: Plan)
    ensures PutPlan(plan) == Flat(PlanFields(plan))
  {
    hide PutNames, PutIds, Little, ListFields, Flat;
    NamesLayout(plan.generation, plan.domain, plan.source, plan.target);
    ListLayout(plan.retain);
    ListLayout(plan.stop);
    ListLayout(plan.start);
    ListLayout(plan.guarded);
    ListLayout(plan.resources);
    var names := [Little(plan.generation, 8), Little(plan.domain, 8), Little(plan.source, 8), Little(plan.target, 8)];
    var a, b, c := ListFields(plan.retain), ListFields(plan.stop), ListFields(plan.start);
    FlatBoth(names, a);
    FlatBoth(names + a, b);
    FlatBoth(names + a + b, c);
    FlatBoth(names + a + b + c, ListFields(plan.guarded));
    FlatBoth(names + a + b + c + ListFields(plan.guarded), ListFields(plan.resources));
  }

  lemma FailureLayout(failure: Option<Failure>)
    requires failure.Some? ==> FailureFits(failure.value)
    ensures PutOptionalFailure(failure) == Flat(FailureFields(failure))
  {
    hide PutCore, PutReport, CoreFields, ReportFields, ErrorFits, EvidenceFits, OptionalIdFits, ReportFits, Flat;
    match failure
    case None => FlatOne([0]);
    case Some(value) =>
      CoreLayout(value);
      ReportLayout(value);
      FlatFirst([1], CoreFields(value));
      FlatBoth([[1]] + CoreFields(value), ReportFields(value));
  }

  lemma OptionalPlanLayout(plan: Option<Plan>)
    ensures PutOptionalPlan(plan) == Flat(OptionalPlanFields(plan))
  {
    hide PutPlan, PlanFields, Flat;
    match plan
    case None => FlatOne([0]);
    case Some(value) =>
      PlanLayout(value);
      FlatFirst([1], PlanFields(value));
  }

  lemma HeadLayout(event: JournalEvent)
    requires EventFits(event)
    ensures var t := event.transition;
            Put(event.generation, 8) + PutNames(Names(t.id, t.domain, t.source, t.target)) + Put(Rank(t.phase), 1) +
            PutSigned(t.updatedAt, 8) == Flat(HeadFields(event))
  {
    hide Put, PutNames, PutSigned, Little, Complement, PhaseByte, Rank, SignedFits, FailureFits, PlanFits, Flat;
    var t := event.transition;
    LittleIsPut(event.generation, 8);
    NamesLayout(t.id, t.domain, t.source, t.target);
    PhaseLayout(t.phase);
    SignedLayout(t.updatedAt, 8);
    var names := [Little(t.id, 8), Little(t.domain, 8), Little(t.source, 8), Little(t.target, 8)];
    var g, p, u := Little(event.generation, 8), [PhaseByte(t.phase)], Complement(t.updatedAt, 8);
    FlatFirst(g, names);
    FlatOne(p);
    FlatOne(u);
    FlatBoth([g] + names, [p]);
    FlatBoth([g] + names + [p], [u]);
    assert [g] + names + [p] + [u] == HeadFields(event);
  }

  /** The payload is its fields in order. */
  lemma EventLayout(event: JournalEvent)
    requires EventFits(event)
    ensures PutEvent(event) == Flat(Fields(event))
  {
    hide Put, PutNames, PutSigned, PutOptionalFailure, PutOptionalPlan, HeadFields, FailureFields, OptionalPlanFields, Rank, SignedFits, ErrorFits, EvidenceFits, OptionalIdFits, ReportFits, PlanFits, Flat;
    var t := event.transition;
    HeadLayout(event);
    FailureLayout(t.failure);
    OptionalPlanLayout(event.plan);
    FlatBoth(HeadFields(event), FailureFields(t.failure));
    FlatBoth(HeadFields(event) + FailureFields(t.failure), OptionalPlanFields(event.plan));
    var a, b, c, d := Put(event.generation, 8), PutNames(Names(t.id, t.domain, t.source, t.target)), Put(Rank(t.phase), 1), PutSigned(t.updatedAt, 8);
    var e, f := PutOptionalFailure(t.failure), PutOptionalPlan(event.plan);
    assert a + (b + (c + (d + (e + f)))) == a + b + c + d + e + f;
  }

  /** The fixed offsets at the front. */
  lemma Offsets(event: JournalEvent, maximum: nat)
    requires Encode(event, maximum).Some?
    ensures var bytes := Encode(event, maximum).value; var t := event.transition;
            && |bytes| >= 51
            && bytes[0..8] == Put(event.generation, 8)
            && bytes[8..16] == Put(t.id, 8)
            && bytes[16..24] == Put(t.domain, 8)
            && bytes[24..32] == Put(t.source, 8)
            && bytes[32..40] == Put(t.target, 8)
            && bytes[40] == PhaseByte(t.phase)
            && SignedFits(t.updatedAt, 8) && bytes[41..49] == PutSigned(t.updatedAt, 8)
            && bytes[49] == (if t.failure.Some? then 1 else 0)
            && (t.failure.None? ==> bytes[50] == (if event.plan.Some? then 1 else 0))
  {
    hide Put, Rank, SignedFits, FailureFits, PlanFits, PutCore, PutReport, PutPlan;
    var t := event.transition;
    PhaseLayout(t.phase);
    var a, b, c, d, e := Put(event.generation, 8), Put(t.id, 8), Put(t.domain, 8), Put(t.source, 8), Put(t.target, 8);
    var u, f, p := PutSigned(t.updatedAt, 8), PutOptionalFailure(t.failure), PutOptionalPlan(event.plan);
    assert |a| == 8 && |b| == 8 && |c| == 8 && |d| == 8 && |e| == 8 && |u| == 8 by { Lengths(event); }
    assert PutEvent(event) == a + b + c + d + e + [PhaseByte(t.phase)] + u + f + p;
  }

  lemma Lengths(event: JournalEvent)
    requires EventFits(event)
    ensures forall value: nat :: |Put(value, 8)| == 8
    ensures |PutSigned(event.transition.updatedAt, 8)| == 8
  {
  }

  // ---------------------------------------------------------------------
  // Version 1
  // ---------------------------------------------------------------------

  /** A payload of version 1: its failure has no recovery report. */
  function FieldsOfVersionOne(event: JournalEvent): seq<Field>
    requires EventFits(event)
  {
    HeadFields(event) +
    (match event.transition.failure case None => [[0]] case Some(failure) => [[1]] + CoreFields(failure)) +
    OptionalPlanFields(event.plan)
  }

  /** The failure of a version 1 payload says that nothing was done about it. */
  function Unreported(failure: Failure): Failure {
    failure.(evidence := failure.evidence.(state := UnknownState),
             recoveryAction := HoldObservedConfiguration, recoveryAttempted := false, recoverySucceeded := false,
             recoveryError := None, recoveredMode := None, stopped := [], started := [])
  }

  lemma VersionOneLayout(event: JournalEvent)
    requires EventFits(event)
    ensures var t := event.transition;
            Flat(FieldsOfVersionOne(event)) ==
            Put(event.generation, 8) +
            (PutNames(Names(t.id, t.domain, t.source, t.target)) +
             (Put(Rank(t.phase), 1) +
              (PutSigned(t.updatedAt, 8) +
               ((match t.failure case None => PutFlag(false) case Some(failure) => PutFlag(true) + PutCore(CoreOf(failure))) +
                PutOptionalPlan(event.plan)))))
  {
    hide Put, PutNames, PutSigned, PutCore, PutOptionalPlan, HeadFields, CoreFields, OptionalPlanFields, Rank, SignedFits, PlanFits, ErrorFits, EvidenceFits, OptionalIdFits, ReportFits, Flat;
    var t := event.transition;
    HeadLayout(event);
    OptionalPlanLayout(event.plan);
    var failure: seq<Field> := match t.failure case None => [[0]] case Some(value) => [[1]] + CoreFields(value);
    FlatOne([0]);
    if t.failure.Some? {
      CoreLayout(t.failure.value);
      FlatFirst([1], CoreFields(t.failure.value));
    }
    FlatBoth(HeadFields(event), failure);
    FlatBoth(HeadFields(event) + failure, OptionalPlanFields(event.plan));
    var a, b, c, d := Put(event.generation, 8), PutNames(Names(t.id, t.domain, t.source, t.target)), Put(Rank(t.phase), 1), PutSigned(t.updatedAt, 8);
    var e, f := Flat(failure), PutOptionalPlan(event.plan);
    assert a + (b + (c + (d + (e + f)))) == a + b + c + d + e + f;
  }

  /** Version 1 payloads decode to the event that they were written for, with a failure that
      reports no recovery. */
  lemma DecodeOfVersionOne(event: JournalEvent)
    requires EventFits(event)
    ensures Decode(Flat(FieldsOfVersionOne(event)), 1) ==
            Some(event.(transition := event.transition.(failure :=
              if event.transition.failure.Some? then Some(Unreported(event.transition.failure.value)) else None)))
  {
    hide Put, Get, TakeInt, PutNames, TakeNames, PutSigned, TakeSigned, PutCore, TakeCore, TakeOptionalFailure, PutOptionalPlan, TakeOptionalPlan, CoreFits, ReportFits, PlanFits, SignedFits, NamesFit, Flat, PutFlag, Rank;
    VersionOneLayout(event);
    Widths();
    PhaseNumbers();
    var t := event.transition;
    var names := Names(t.id, t.domain, t.source, t.target);
    var phase, updated := Put(Rank(t.phase), 1), PutSigned(t.updatedAt, 8);
    var failure := match t.failure case None => PutFlag(false) case Some(value) => PutFlag(true) + PutCore(CoreOf(value));
    var plan := PutOptionalPlan(event.plan);
    TakeOfPut(event.generation, 8, PutNames(names) + (phase + (updated + (failure + plan))));
    TakeOfPutNames(names, phase + (updated + (failure + plan)));
    TakeOfPut(Rank(t.phase), 1, updated + (failure + plan));
    TakeOfPutSigned(t.updatedAt, 8, failure + plan);
    TakeOldFailure(t.failure, plan);
    TakeOfPutOptionalPlan(event.plan, []);
    assert plan + [] == plan;
  }

  lemma TakeOldFailure(failure: Option<Failure>, rest: seq<Byte>)
    requires failure.Some? ==> FailureFits(failure.value)
    ensures var bytes := match failure case None => PutFlag(false) case Some(value) => PutFlag(true) + PutCore(CoreOf(value));
            TakeOptionalFailure(bytes + rest, 1) ==
            Good(if failure.Some? then Some(Unreported(failure.value)) else None, rest)
  {
    hide PutFlag, TakeFlag, PutCore, TakeCore, CoreFits, ReportFits;
    match failure
    case None => TakeOfPutFlag(false, rest);
    case Some(value) =>
      assert PutFlag(true) + PutCore(CoreOf(value)) + rest == PutFlag(true) + (PutCore(CoreOf(value)) + rest);
      TakeOfPutFlag(true, PutCore(CoreOf(value)) + rest);
      TakeOfPutCore(CoreOf(value), rest);
  }

  /** Every payload that version 1 accepts is the version 1 form of what it decodes to. */
  lemma VersionOneOfDecode(bytes: seq<Byte>)
    requires Decode(bytes, 1).Some?
    ensures EventFits(Decode(bytes, 1).value) && bytes == Flat(FieldsOfVersionOne(Decode(bytes, 1).value))
  {
    hide Put, Get, TakeInt, PutNames, TakeNames, PutSigned, TakeSigned, PutCore, TakeCore, TakeOptionalFailure, PutOptionalPlan, TakeOptionalPlan, CoreFits, ReportFits, PlanFits, SignedFits, NamesFit, Flat, PutFlag, Rank, FieldsOfVersionOne;
    Widths();
    PhaseNumbers();
    PutOfTake(bytes, 8);
    var generation := TakeInt(bytes, 8);
    PutOfTakeNames(generation.rest);
    var names := TakeNames(generation.rest);
    PutOfTake(names.rest, 1);
    var phase := TakeInt(names.rest, 1);
    PutOfTakeSigned(phase.rest, 8);
    var updated := TakeSigned(phase.rest, 8);
    PutOfTakeOldFailure(updated.rest);
    var failure := TakeOptionalFailure(updated.rest, 1);
    PutOfTakeOptionalPlan(failure.rest);
    var plan := TakeOptionalPlan(failure.rest);
    var event := Decode(bytes, 1).value;
    VersionOneLayout(event);
    assert plan.rest == [] && PutOptionalPlan(plan.value) + [] == PutOptionalPlan(plan.value);
  }

  lemma PutOfTakeOldFailure(bytes: seq<Byte>)
    requires TakeOptionalFailure(bytes, 1).Good?
    ensures var r := TakeOptionalFailure(bytes, 1);
            && (r.value.Some? ==> FailureFits(r.value.value) && r.value.value == Unreported(r.value.value))
            && bytes == (match r.value case None => PutFlag(false) case Some(value) => PutFlag(true) + PutCore(CoreOf(value))) + r.rest
  {
    hide PutFlag, TakeFlag, PutCore, TakeCore, CoreFits;
    PutOfTakeFlag(bytes);
    var flag := TakeFlag(bytes);
    if flag.value {
      PutOfTakeCore(flag.rest);
      var core := TakeCore(flag.rest);
      var r := TakeOptionalFailure(bytes, 1);
      assert r.value.Some? && CoreOf(r.value.value) == core.value && r.rest == core.rest;
      assert bytes == PutFlag(true) + (PutCore(core.value) + core.rest);
    }
  }
}
