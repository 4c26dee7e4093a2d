/** The payload of a journal frame. */
module JournalCodec {
  import opened Wrappers
  import opened Bytes
  import opened ExecutionModel
  import opened Planner
  import opened JournalEvents
  import opened ByteCodec

  // ---------------------------------------------------------------------
  // Enumerations
  // ---------------------------------------------------------------------

  const PHASES: seq<Phase> := [Received, Validated, Planned, Stopping, Starting, AwaitingReadiness, Committing,
                               Succeeded, Rejected, Failed, PhaseCancelled, PhaseSuperseded, PhaseDeadlineExceeded,
                               RecoveryFailed, Recovering]

  const CODES: seq<ErrorCode> := [NoError, InvalidArgument, InvalidIdentifier, InvalidTransition, AlreadyExists,
                                  NotFound, PermissionDenied, Busy, Superseded, Cancelled, DeadlineExceeded,
                                  ResourceExhausted, ConfigurationError, CommunicationError, BackendUnavailable,
                                  BackendError, PersistenceError, IncompatibleAbi, Unsupported, InternalError]

  const ACTIONS: seq<FailureAction> := [HoldObservedConfiguration, EnterFallbackMode, RollbackIfDeclaredSafe,
                                        StopDomain, RequestSystemRecovery]

  function CodeNumber(code: ErrorCode): (n: nat)
    ensures n < |CODES| && CODES[n] == code
  {
    match code
    case NoError => 0
    case InvalidArgument => 1
    case InvalidIdentifier => 2
    case InvalidTransition => 3
    case AlreadyExists => 4
    case NotFound => 5
    case PermissionDenied => 6
    case Busy => 7
    case Superseded => 8
    case Cancelled => 9
    case DeadlineExceeded => 10
    case ResourceExhausted => 11
    case ConfigurationError => 12
    case CommunicationError => 13
    case BackendUnavailable => 14
    case BackendError => 15
    case PersistenceError => 16
    case IncompatibleAbi => 17
    case Unsupported => 18
    case InternalError => 19
  }

  function ActionNumber(action: FailureAction): (n: nat)
    ensures n < |ACTIONS| && ACTIONS[n] == action
  {
    match action
    case HoldObservedConfiguration => 0
    case EnterFallbackMode => 1
    case RollbackIfDeclaredSafe => 2
    case StopDomain => 3
    case RequestSystemRecovery => 4
  }

  lemma PhaseNumbers()
    ensures |PHASES| == 15 && forall phase: Phase :: PHASES[Rank(phase)] == phase
    ensures forall n :: 0 <= n < 15 ==> Rank(PHASES[n]) == n
  {
  }

  lemma CodeNumbers()
    ensures |CODES| == 20 && forall n :: 0 <= n < 20 ==> CodeNumber(CODES[n]) == n
  {
  }

  lemma ActionNumbers()
    ensures |ACTIONS| == 5 && forall n :: 0 <= n < 5 ==> ActionNumber(ACTIONS[n]) == n
  {
  }

  // ---------------------------------------------------------------------
  // Flags and optional parts
  // ---------------------------------------------------------------------

  function PutFlag(flag: bool): seq<Byte> {
    [if flag then 1 else 0]
  }

  function TakeFlag(bytes: seq<Byte>): Parsed<bool> {
    match TakeInt(bytes, 1)
    case Bad => Bad
    case Good(n, rest) => if n > 1 then Bad else Good(n == 1, rest)
  }

  lemma TakeOfPutFlag(flag: bool, rest: seq<Byte>)
    ensures TakeFlag(PutFlag(flag) + rest) == Good(flag, rest)
  {
    assert (PutFlag(flag) + rest)[..1] == PutFlag(flag) && (PutFlag(flag) + rest)[1..] == rest;
    assert Get(PutFlag(flag)) == PutFlag(flag)[0] + 256 * Get([]);
  }

  lemma PutOfTakeFlag(bytes: seq<Byte>)
    requires TakeFlag(bytes).Good?
    ensures var r := TakeFlag(bytes); bytes == PutFlag(r.value) + r.rest
  {
    assert Get(bytes[..1]) == bytes[..1][0] + 256 * Get([]);
    assert bytes == bytes[..1] + bytes[1..];
  }

  function PutOptionalId(id: Option<nat>): seq<Byte> {
    match id
    case None => PutFlag(false)
    case Some(value) => PutFlag(true) + Put(value, 8)
  }

  function TakeOptionalId(bytes: seq<Byte>): Parsed<Option<nat>> {
    match TakeFlag(bytes)
    case Bad => Bad
    case Good(present, rest) =>
      if !present then Good(None, rest)
      else
        match TakeInt(rest, 8)
        case Bad => Bad
        case Good(value, rest') => Good(Some(value), rest')
  }

  predicate OptionalIdFits(id: Option<nat>) {
    id.Some? ==> id.value < TWO_TO_64
  }

  lemma TakeOfPutOptionalId(id: Option<nat>, rest: seq<Byte>)
    requires OptionalIdFits(id)
    ensures TakeOptionalId(PutOptionalId(id) + rest) == Good(id, rest)
  {
    hide Put, Get, PutFlag, TakeFlag, TakeInt;
    Widths();
    match id
    case None => TakeOfPutFlag(false, rest);
    case Some(value) =>
      assert PutOptionalId(id) + rest == PutFlag(true) + (Put(value, 8) + rest);
      TakeOfPutFlag(true, Put(value, 8) + rest);
      TakeOfPut(value, 8, rest);
  }

  lemma PutOfTakeOptionalId(bytes: seq<Byte>)
    requires TakeOptionalId(bytes).Good?
    ensures var r := TakeOptionalId(bytes); OptionalIdFits(r.value) && bytes == PutOptionalId(r.value) + r.rest
  {
    hide Put, Get, PutFlag, TakeFlag, TakeInt;
    Widths();
    PutOfTakeFlag(bytes);
    var flag := TakeFlag(bytes);
    if flag.value {
      PutOfTake(flag.rest, 8);
    }
  }

  // ---------------------------------------------------------------------
  // Errors
  // ---------------------------------------------------------------------

  function PutError(error: Error): seq<Byte> {
    Put(CodeNumber(error.code), 2) + (Put(error.supportData, 8) + PutString(error.message))
  }

  function TakeError(bytes: seq<Byte>): Parsed<Error> {
    match TakeInt(bytes, 2)
    case Bad => Bad
    case Good(code, rest) =>
      match TakeInt(rest, 8)
      case Bad => Bad
      case Good(supportData, rest') =>
        match TakeString(rest')
        case Bad => Bad
        case Good(message, rest'') =>
          if code >= |CODES| then Bad else Good(Error(CODES[code], message, supportData), rest'')
  }

  predicate ErrorFits(error: Error) {
    error.supportData < TWO_TO_64 && |error.message| < TWO_TO_32
  }

  lemma TakeOfPutError(error: Error, rest: seq<Byte>)
    requires ErrorFits(error)
    ensures TakeError(PutError(error) + rest) == Good(error, rest)
  {
    hide Put, Get, PutString, TakeString, TakeInt;
    Widths();
    var support, message := Put(error.supportData, 8), PutString(error.message);
    assert PutError(error) + rest == Put(CodeNumber(error.code), 2) + (support + (message + rest));
    TakeOfPut(CodeNumber(error.code), 2, support + (message + rest));
    TakeOfPut(error.supportData, 8, message + rest);
    TakeOfPutString(error.message, rest);
  }

  lemma PutOfTakeError(bytes: seq<Byte>)
    requires TakeError(bytes).Good?
    ensures var r := TakeError(bytes); ErrorFits(r.value) && bytes == PutError(r.value) + r.rest
  {
    hide Put, Get, PutString, TakeString, TakeInt;
    Widths();
    CodeNumbers();
    PutOfTake(bytes, 2);
    var code := TakeInt(bytes, 2);
    PutOfTake(code.rest, 8);
    var support := TakeInt(code.rest, 8);
    PutOfTakeString(support.rest);
    var message := TakeString(support.rest);
    assert bytes == Put(code.value, 2) + (Put(support.value, 8) + (PutString(message.value) + message.rest));
  }

  function PutOptionalError(error: Option<Error>): seq<Byte> {
    match error
    case None => PutFlag(false)
    case Some(value) => PutFlag(true) + PutError(value)
  }

  function TakeOptionalError(bytes: seq<Byte>): Parsed<Option<Error>> {
    match TakeFlag(bytes)
    case Bad => Bad
    case Good(present, rest) =>
      if !present then Good(None, rest)
      else
        match TakeError(rest)
        case Bad => Bad
        case Good(value, rest') => Good(Some(value), rest')
  }

  predicate OptionalErrorFits(error: Option<Error>) {
    error.Some? ==> ErrorFits(error.value)
  }

  lemma TakeOfPutOptionalError(error: Option<Error>, rest: seq<Byte>)
    requires OptionalErrorFits(error)
    ensures TakeOptionalError(PutOptionalError(error) + rest) == Good(error, rest)
  {
    hide PutFlag, TakeFlag, PutError, TakeError;
    match error
    case None => TakeOfPutFlag(false, rest);
    case Some(value) =>
      assert PutOptionalError(error) + rest == PutFlag(true) + (PutError(value) + rest);
      TakeOfPutFlag(true, PutError(value) + rest);
      TakeOfPutError(value, rest);
  }

  lemma PutOfTakeOptionalError(bytes: seq<Byte>)
    requires TakeOptionalError(bytes).Good?
    ensures var r := TakeOptionalError(bytes); OptionalErrorFits(r.value) && bytes == PutOptionalError(r.value) + r.rest
  {
    hide PutFlag, TakeFlag, PutError, TakeError;
    PutOfTakeFlag(bytes);
    var flag := TakeFlag(bytes);
    if flag.value {
      PutOfTakeError(flag.rest);
    }
  }

  // ---------------------------------------------------------------------
  // Backend evidence: the observed state is not written
  // ---------------------------------------------------------------------

  predicate EvidenceFits(evidence: Evidence) {
    && SignedFits(evidence.exitCode, 4) && SignedFits(evidence.signal, 4)
    && evidence.nativeCode < TWO_TO_64 && |evidence.message| < TWO_TO_32
  }

  function PutSigned(value: int, width: nat): seq<Byte>
    requires SignedFits(value, width)
  {
    SignedRoundTrip(value, width);
    Put(ToUnsigned(value, width), width)
  }

  function TakeSigned(bytes: seq<Byte>, width: nat): Parsed<int> {
    match TakeInt(bytes, width)
    case Bad => Bad
    case Good(value, rest) => Good(ToSigned(value, width), rest)
  }

  lemma TakeOfPutSigned(value: int, width: nat, rest: seq<Byte>)
    requires SignedFits(value, width)
    ensures TakeSigned(PutSigned(value, width) + rest, width) == Good(value, rest)
  {
    SignedRoundTrip(value, width);
    TakeOfPut(ToUnsigned(value, width), width, rest);
  }

  lemma PutOfTakeSigned(bytes: seq<Byte>, width: nat)
    requires TakeSigned(bytes, width).Good?
    ensures var r := TakeSigned(bytes, width); SignedFits(r.value, width) && bytes == PutSigned(r.value, width) + r.rest
  {
    PutOfTake(bytes, width);
    UnsignedRoundTrip(TakeInt(bytes, width).value, width);
  }

  function PutEvidence(evidence: Evidence): seq<Byte>
    requires EvidenceFits(evidence)
  {
    PutSigned(evidence.exitCode, 4) +
    (PutSigned(evidence.signal, 4) + (Put(evidence.nativeCode, 8) + PutString(evidence.message)))
  }

  function TakeEvidence(bytes: seq<Byte>): Parsed<Evidence> {
    match TakeSigned(bytes, 4)
    case Bad => Bad
    case Good(exitCode, rest1) =>
      match TakeSigned(rest1, 4)
      case Bad => Bad
      case Good(signal, rest2) =>
        match TakeInt(rest2, 8)
        case Bad => Bad
        case Good(nativeCode, rest3) =>
          match TakeString(rest3)
          case Bad => Bad
          case Good(message, rest4) => Good(Evidence(UnknownState, exitCode, signal, nativeCode, message), rest4)
  }

  lemma TakeOfPutEvidence(evidence: Evidence, rest: seq<Byte>)
    requires EvidenceFits(evidence)
    ensures TakeEvidence(PutEvidence(evidence) + rest) == Good(evidence.(state := UnknownState), rest)
  {
    hide Put, Get, PutString, TakeString, TakeInt, PutSigned, TakeSigned, SignedFits;
    Widths();
    var native, message := Put(evidence.nativeCode, 8), PutString(evidence.message);
    var signal := PutSigned(evidence.signal, 4);
    assert PutEvidence(evidence) + rest == PutSigned(evidence.exitCode, 4) + (signal + (native + (message + rest)));
    TakeOfPutSigned(evidence.exitCode, 4, signal + (native + (message + rest)));
    TakeOfPutSigned(evidence.signal, 4, native + (message + rest));
    TakeOfPut(evidence.nativeCode, 8, message + rest);
    TakeOfPutString(evidence.message, rest);
  }

  lemma PutOfTakeEvidence(bytes: seq<Byte>)
    requires TakeEvidence(bytes).Good?
    ensures var r := TakeEvidence(bytes);
            EvidenceFits(r.value) && r.value.state == UnknownState && bytes == PutEvidence(r.value) + r.rest
  {
    hide Put, Get, PutString, TakeString, TakeInt, PutSigned, TakeSigned, SignedFits;
    Widths();
    PutOfTakeSigned(bytes, 4);
    var exitCode := TakeSigned(bytes, 4);
    PutOfTakeSigned(exitCode.rest, 4);
    var signal := TakeSigned(exitCode.rest, 4);
    PutOfTake(signal.rest, 8);
    var native := TakeInt(signal.rest, 8);
    PutOfTakeString(native.rest);
    var message := TakeString(native.rest);
    assert bytes == PutSigned(exitCode.value, 4) +
                    (PutSigned(signal.value, 4) + (Put(native.value, 8) + (PutString(message.value) + message.rest)));
  }

  // ---------------------------------------------------------------------
  // Failures: a core, and a recovery report since format version 2
  // ---------------------------------------------------------------------

  datatype Core = Core(error: Error, application: Option<nat>, evidence: Evidence)

  datatype Policy = Policy(action: FailureAction, attempted: bool, succeeded: bool, error: Option<Error>)

  datatype Report = Report(policy: Policy, mode: Option<nat>, stopped: seq<nat>, started: seq<nat>)

  predicate CoreFits(core: Core) {
    ErrorFits(core.error) && OptionalIdFits(core.application) && EvidenceFits(core.evidence)
  }

  function PutCore(core: Core): seq<Byte>
    requires CoreFits(core)
  {
    PutError(core.error) + (PutOptionalId(core.application) + PutEvidence(core.evidence))
  }

  function TakeCore(bytes: seq<Byte>): Parsed<Core> {
    match TakeError(bytes)
    case Bad => Bad
    case Good(error, rest1) =>
      match TakeOptionalId(rest1)
      case Bad => Bad
      case Good(application, rest2) =>
        match TakeEvidence(rest2)
        case Bad => Bad
        case Good(evidence, rest3) => Good(Core(error, application, evidence), rest3)
  }

  lemma TakeOfPutCore(core: Core, rest: seq<Byte>)
    requires CoreFits(core)
    ensures TakeCore(PutCore(core) + rest) == Good(core.(evidence := core.evidence.(state := UnknownState)), rest)
  {
    hide PutError, TakeError, PutOptionalId, TakeOptionalId, PutEvidence, TakeEvidence, ErrorFits, EvidenceFits;
    var application, evidence := PutOptionalId(core.application), PutEvidence(core.evidence);
    assert PutCore(core) + rest == PutError(core.error) + (application + (evidence + rest));
    TakeOfPutError(core.error, application + (evidence + rest));
    TakeOfPutOptionalId(core.application, evidence + rest);
    TakeOfPutEvidence(core.evidence, rest);
  }

  lemma PutOfTakeCore(bytes: seq<Byte>)
    requires TakeCore(bytes).Good?
    ensures var r := TakeCore(bytes);
            CoreFits(r.value) && r.value.evidence.state == UnknownState && bytes == PutCore(r.value) + r.rest
  {
    hide PutError, TakeError, PutOptionalId, TakeOptionalId, PutEvidence, TakeEvidence, ErrorFits, EvidenceFits, OptionalIdFits;
    PutOfTakeError(bytes);
    var error := TakeError(bytes);
    PutOfTakeOptionalId(error.rest);
    var application := TakeOptionalId(error.rest);
    PutOfTakeEvidence(application.rest);
    var evidence := TakeEvidence(application.rest);
    assert bytes == PutError(error.value) + (PutOptionalId(application.value) + (PutEvidence(evidence.value) + evidence.rest));
  }

  function PutPolicy(policy: Policy): seq<Byte> {
    Put(ActionNumber(policy.action), 1) + (PutFlag(policy.attempted) + (PutFlag(policy.succeeded) + PutOptionalError(policy.error)))
  }

  function TakePolicy(bytes: seq<Byte>): Parsed<Policy> {
    match TakeInt(bytes, 1)
    case Bad => Bad
    case Good(action, rest1) =>
      match TakeFlag(rest1)
      case Bad => Bad
      case Good(attempted, rest2) =>
        match TakeFlag(rest2)
        case Bad => Bad
        case Good(succeeded, rest3) =>
          match TakeOptionalError(rest3)
          case Bad => Bad
          case Good(error, rest4) =>
            if action >= |ACTIONS| then Bad else Good(Policy(ACTIONS[action], attempted, succeeded, error), rest4)
  }

  lemma TakeOfPutPolicy(policy: Policy, rest: seq<Byte>)
    requires OptionalErrorFits(policy.error)
    ensures TakePolicy(PutPolicy(policy) + rest) == Good(policy, rest)
  {
    hide Put, Get, TakeInt, PutFlag, TakeFlag, PutOptionalError, TakeOptionalError, OptionalErrorFits;
    Widths();
    var n := ActionNumber(policy.action);
    var attempted, succeeded, error := PutFlag(policy.attempted), PutFlag(policy.succeeded), PutOptionalError(policy.error);
    assert PutPolicy(policy) + rest == Put(n, 1) + (attempted + (succeeded + (error + rest)));
    TakeOfPut(n, 1, attempted + (succeeded + (error + rest)));
    TakeOfPutFlag(policy.attempted, succeeded + (error + rest));
    TakeOfPutFlag(policy.succeeded, error + rest);
    TakeOfPutOptionalError(policy.error, rest);
  }

  lemma PutOfTakePolicy(bytes: seq<Byte>)
    requires TakePolicy(bytes).Good?
    ensures var r := TakePolicy(bytes); OptionalErrorFits(r.value.error) && bytes == PutPolicy(r.value) + r.rest
  {
    hide Put, Get, TakeInt, PutFlag, TakeFlag, PutOptionalError, TakeOptionalError, OptionalErrorFits;
    Widths();
    ActionNumbers();
    PutOfTake(bytes, 1);
    var action := TakeInt(bytes, 1);
    PutOfTakeFlag(action.rest);
    var attempted := TakeFlag(action.rest);
    PutOfTakeFlag(attempted.rest);
    var succeeded := TakeFlag(attempted.rest);
    PutOfTakeOptionalError(succeeded.rest);
    var error := TakeOptionalError(succeeded.rest);
    assert bytes == Put(action.value, 1) +
                    (PutFlag(attempted.value) + (PutFlag(succeeded.value) + (PutOptionalError(error.value) + error.rest)));
  }

  predicate ListFits(ids: seq<nat>) {
    IdsFit(ids) && |ids| < TWO_TO_32
  }

  predicate ReportFits(report: Report) {
    OptionalErrorFits(report.policy.error) && OptionalIdFits(report.mode) && ListFits(report.stopped) && ListFits(report.started)
  }

  function PutReport(report: Report): seq<Byte> {
    PutPolicy(report.policy) + (PutOptionalId(report.mode) + (PutIds(report.stopped) + PutIds(report.started)))
  }

  function TakeReport(bytes: seq<Byte>): Parsed<Report> {
    match TakePolicy(bytes)
    case Bad => Bad
    case Good(policy, rest1) =>
      match TakeOptionalId(rest1)
      case Bad => Bad
      case Good(mode, rest2) =>
        match TakeIds(rest2)
        case Bad => Bad
        case Good(stopped, rest3) =>
          match TakeIds(rest3)
          case Bad => Bad
          case Good(started, rest4) => Good(Report(policy, mode, stopped, started), rest4)
  }

  lemma TakeOfPutReport(report: Report, rest: seq<Byte>)
    requires ReportFits(report)
    ensures TakeReport(PutReport(report) + rest) == Good(report, rest)
  {
    hide PutPolicy, TakePolicy, PutOptionalId, TakeOptionalId, PutIds, TakeIds, IdsFit, OptionalErrorFits, OptionalIdFits;
    var mode, stopped, started := PutOptionalId(report.mode), PutIds(report.stopped), PutIds(report.started);
    assert PutReport(report) + rest == PutPolicy(report.policy) + (mode + (stopped + (started + rest)));
    TakeOfPutPolicy(report.policy, mode + (stopped + (started + rest)));
    TakeOfPutOptionalId(report.mode, stopped + (started + rest));
    TakeOfPutIds(report.stopped, started + rest);
    TakeOfPutIds(report.started, rest);
  }

  lemma PutOfTakeReport(bytes: seq<Byte>)
    requires TakeReport(bytes).Good?
    ensures var r := TakeReport(bytes); ReportFits(r.value) && bytes == PutReport(r.value) + r.rest
  {
    hide PutPolicy, TakePolicy, PutOptionalId, TakeOptionalId, PutIds, TakeIds, IdsFit, OptionalErrorFits, OptionalIdFits;
    PutOfTakePolicy(bytes);
    var policy := TakePolicy(bytes);
    PutOfTakeOptionalId(policy.rest);
    var mode := TakeOptionalId(policy.rest);
    PutOfTakeIds(mode.rest);
    var stopped := TakeIds(mode.rest);
    PutOfTakeIds(stopped.rest);
    var started := TakeIds(stopped.rest);
    assert bytes == PutPolicy(policy.value) +
                    (PutOptionalId(mode.value) + (PutIds(stopped.value) + (PutIds(started.value) + started.rest)));
  }

  function CoreOf(failure: Failure): Core {
    Core(failure.error, failure.application, failure.evidence)
  }

  function ReportOf(failure: Failure): Report {
    Report(Policy(failure.recoveryAction, failure.recoveryAttempted, failure.recoverySucceeded, failure.recoveryError),
           failure.recoveredMode, failure.stopped, failure.started)
  }

  function FailureOf(core: Core, report: Report): Failure {
    Failure(core.error, core.application, core.evidence, report.policy.action, report.policy.attempted,
            report.policy.succeeded, report.policy.error, report.mode, report.stopped, report.started)
  }

  /** What a failure without a recovery report is taken to say. */
  const NO_REPORT := Report(Policy(HoldObservedConfiguration, false, false, None), None, [], [])

  predicate FailureFits(failure: Failure) {
    CoreFits(CoreOf(failure)) && ReportFits(ReportOf(failure))
  }

  function PutOptionalFailure(failure: Option<Failure>): seq<Byte>
    requires failure.Some? ==> FailureFits(failure.value)
  {
    match failure
    case None => PutFlag(false)
    case Some(value) => PutFlag(true) + (PutCore(CoreOf(value)) + PutReport(ReportOf(value)))
  }

  function TakeFailure(bytes: seq<Byte>, version: nat): Parsed<Failure> {
    match TakeCore(bytes)
    case Bad => Bad
    case Good(core, rest1) =>
      if version < 2 then Good(FailureOf(core, NO_REPORT), rest1)
      else
        match TakeReport(rest1)
        case Bad => Bad
        case Good(report, rest2) => Good(FailureOf(core, report), rest2)
  }

  function TakeOptionalFailure(bytes: seq<Byte>, version: nat): Parsed<Option<Failure>> {
    match TakeFlag(bytes)
    case Bad => Bad
    case Good(present, rest1) =>
      if !present then Good(None, rest1)
      else
        match TakeFailure(rest1, version)
        case Bad => Bad
        case Good(failure, rest2) => Good(Some(failure), rest2)
  }

  function WithoutState(failure: Option<Failure>): Option<Failure> {
    if failure.None? then None
    else Some(failure.value.(evidence := failure.value.evidence.(state := UnknownState)))
  }

  lemma TakeOfPutOptionalFailure(failure: Option<Failure>, rest: seq<Byte>)
    requires failure.Some? ==> FailureFits(failure.value)
    ensures TakeOptionalFailure(PutOptionalFailure(failure) + rest, 2) == Good(WithoutState(failure), rest)
  {
    hide PutFlag, TakeFlag, PutCore, TakeCore, PutReport, TakeReport, CoreFits, ReportFits;
    match failure
    case None => TakeOfPutFlag(false, rest);
    case Some(value) =>
      var core, report := PutCore(CoreOf(value)), PutReport(ReportOf(value));
      assert PutOptionalFailure(failure) + rest == PutFlag(true) + (core + (report + rest));
      TakeOfPutFlag(true, core + (report + rest));
      TakeOfPutCore(CoreOf(value), report + rest);
      TakeOfPutReport(ReportOf(value), rest);
  }

  lemma PutOfTakeOptionalFailure(bytes: seq<Byte>)
    requires TakeOptionalFailure(bytes, 2).Good?
    ensures var r := TakeOptionalFailure(bytes, 2);
            && (r.value.Some? ==> FailureFits(r.value.value) && r.value.value.evidence.state == UnknownState)
            && bytes == PutOptionalFailure(r.value) + r.rest
  {
    hide PutFlag, TakeFlag, PutCore, TakeCore, PutReport, TakeReport, CoreFits, ReportFits;
    PutOfTakeFlag(bytes);
    var flag := TakeFlag(bytes);
    if flag.value {
      PutOfTakeCore(flag.rest);
      var core := TakeCore(flag.rest);
      PutOfTakeReport(core.rest);
      var report := TakeReport(core.rest);
      assert bytes == PutFlag(true) + (PutCore(core.value) + (PutReport(report.value) + report.rest));
    }
  }

  // ---------------------------------------------------------------------
  // Plans
  // ---------------------------------------------------------------------

  datatype Names = Names(first: nat, second: nat, third: nat, fourth: nat)

  predicate NamesFit(names: Names) {
    names.first < TWO_TO_64 && names.second < TWO_TO_64 && names.third < TWO_TO_64 && names.fourth < TWO_TO_64
  }

  function PutNames(names: Names): seq<Byte> {
    Put(names.first, 8) + (Put(names.second, 8) + (Put(names.third, 8) + Put(names.fourth, 8)))
  }

  function TakeNames(bytes: seq<Byte>): Parsed<Names> {
    match TakeInt(bytes, 8)
    case Bad => Bad
    case Good(first, rest1) =>
      match TakeInt(rest1, 8)
      case Bad => Bad
      case Good(second, rest2) =>
        match TakeInt(rest2, 8)
        case Bad => Bad
        case Good(third, rest3) =>
          match TakeInt(rest3, 8)
          case Bad => Bad
          case Good(fourth, rest4) => Good(Names(first, second, third, fourth), rest4)
  }

  lemma TakeOfPutNames(names: Names, rest: seq<Byte>)
    requires NamesFit(names)
    ensures TakeNames(PutNames(names) + rest) == Good(names, rest)
  {
    hide Put, Get, TakeInt;
    Widths();
    var b, c, d := Put(names.second, 8), Put(names.third, 8), Put(names.fourth, 8);
    assert PutNames(names) + rest == Put(names.first, 8) + (b + (c + (d + rest)));
    TakeOfPut(names.first, 8, b + (c + (d + rest)));
    TakeOfPut(names.second, 8, c + (d + rest));
    TakeOfPut(names.third, 8, d + rest);
    TakeOfPut(names.fourth, 8, rest);
  }

  lemma PutOfTakeNames(bytes: seq<Byte>)
    requires TakeNames(bytes).Good?
    ensures var r := TakeNames(bytes); NamesFit(r.value) && bytes == PutNames(r.value) + r.rest
  {
    hide Put, Get, TakeInt;
    Widths();
    PutOfTake(bytes, 8);
    var a := TakeInt(bytes, 8);
    PutOfTake(a.rest, 8);
    var b := TakeInt(a.rest, 8);
    PutOfTake(b.rest, 8);
    var c := TakeInt(b.rest, 8);
    PutOfTake(c.rest, 8);
    var d := TakeInt(c.rest, 8);
    assert bytes == Put(a.value, 8) + (Put(b.value, 8) + (Put(c.value, 8) + (Put(d.value, 8) + d.rest)));
  }

  predicate PlanFits(plan: Plan) {
    && NamesFit(Names(plan.generation, plan.domain, plan.source, plan.target))
    && ListFits(plan.retain) && ListFits(plan.stop) && ListFits(plan.start) && ListFits(plan.guarded) && ListFits(plan.resources)
  }

  function PutPlan(plan: Plan): seq<Byte> {
    PutNames(Names(plan.generation, plan.domain, plan.source, plan.target)) +
    (PutIds(plan.retain) + (PutIds(plan.stop) + (PutIds(plan.start) + (PutIds(plan.guarded) + PutIds(plan.resources)))))
  }

  function TakePlan(bytes: seq<Byte>): Parsed<Plan> {
    match TakeNames(bytes)
    case Bad => Bad
    case Good(names, rest1) =>
      match TakeIds(rest1)
      case Bad => Bad
      case Good(retain, rest2) =>
        match TakeIds(rest2)
        case Bad => Bad
        case Good(stop, rest3) =>
          match TakeIds(rest3)
          case Bad => Bad
          case Good(start, rest4) =>
            match TakeIds(rest4)
            case Bad => Bad
            case Good(guarded, rest5) =>
              match TakeIds(rest5)
              case Bad => Bad
              case Good(resources, rest6) =>
                Good(Plan(names.first, names.second, names.third, names.fourth, retain, stop, start, guarded, resources), rest6)
  }

  lemma TakeOfPutPlan(plan: Plan, rest: seq<Byte>)
    requires PlanFits(plan)
    ensures TakePlan(PutPlan(plan) + rest) == Good(plan, rest)
  {
    hide PutNames, TakeNames, PutIds, TakeIds, IdsFit, NamesFit;
    var names := Names(plan.generation, plan.domain, plan.source, plan.target);
    var a, b, c, d, e := PutIds(plan.retain), PutIds(plan.stop), PutIds(plan.start), PutIds(plan.guarded), PutIds(plan.resources);
    assert PutPlan(plan) + rest == PutNames(names) + (a + (b + (c + (d + (e + rest)))));
    TakeOfPutNames(names, a + (b + (c + (d + (e + rest)))));
    TakeOfPutIds(plan.retain, b + (c + (d + (e + rest))));
    TakeOfPutIds(plan.stop, c + (d + (e + rest)));
    TakeOfPutIds(plan.start, d + (e + rest));
    TakeOfPutIds(plan.guarded, e + rest);
    TakeOfPutIds(plan.resources, rest);
  }

  lemma PutOfTakePlan(bytes: seq<Byte>)
    requires TakePlan(bytes).Good?
    ensures var r := TakePlan(bytes); PlanFits(r.value) && bytes == PutPlan(r.value) + r.rest
  {
    hide PutNames, TakeNames, PutIds, TakeIds, IdsFit, NamesFit;
    PutOfTakeNames(bytes);
    var names := TakeNames(bytes);
    PutOfTakeIds(names.rest);
    var a := TakeIds(names.rest);
    PutOfTakeIds(a.rest);
    var b := TakeIds(a.rest);
    PutOfTakeIds(b.rest);
    var c := TakeIds(b.rest);
    PutOfTakeIds(c.rest);
    var d := TakeIds(c.rest);
    PutOfTakeIds(d.rest);
    var e := TakeIds(d.rest);
    assert bytes == PutNames(names.value) +
                    (PutIds(a.value) + (PutIds(b.value) + (PutIds(c.value) + (PutIds(d.value) + (PutIds(e.value) + e.rest)))));
  }

  function PutOptionalPlan(plan: Option<Plan>): seq<Byte> {
    match plan
    case None => PutFlag(false)
    case Some(value) => PutFlag(true) + PutPlan(value)
  }

  function TakeOptionalPlan(bytes: seq<Byte>): Parsed<Option<Plan>> {
    match TakeFlag(bytes)
    case Bad => Bad
    case Good(present, rest1) =>
      if !present then Good(None, rest1)
      else
        match TakePlan(rest1)
        case Bad => Bad
        case Good(plan, rest2) => Good(Some(plan), rest2)
  }

  lemma TakeOfPutOptionalPlan(plan: Option<Plan>, rest: seq<Byte>)
    requires plan.Some? ==> PlanFits(plan.value)
    ensures TakeOptionalPlan(PutOptionalPlan(plan) + rest) == Good(plan, rest)
  {
    hide PutFlag, TakeFlag, PutPlan, TakePlan, PlanFits;
    match plan
    case None => TakeOfPutFlag(false, rest);
    case Some(value) =>
      assert PutOptionalPlan(plan) + rest == PutFlag(true) + (PutPlan(value) + rest);
      TakeOfPutFlag(true, PutPlan(value) + rest);
      TakeOfPutPlan(value, rest);
  }

  lemma PutOfTakeOptionalPlan(bytes: seq<Byte>)
    requires TakeOptionalPlan(bytes).Good?
    ensures var r := TakeOptionalPlan(bytes);
            (r.value.Some? ==> PlanFits(r.value.value)) && bytes == PutOptionalPlan(r.value) + r.rest
  {
    hide PutFlag, TakeFlag, PutPlan, TakePlan, PlanFits;
    PutOfTakeFlag(bytes);
    var flag := TakeFlag(bytes);
    if flag.value {
      PutOfTakePlan(flag.rest);
    }
  }

  // ---------------------------------------------------------------------
  // Events
  // ---------------------------------------------------------------------

  /** Every number is within its width, every string and list within the length prefix. */
  predicate EventFits(event: JournalEvent) {
    var t := event.transition;
    && event.generation < TWO_TO_64 && NamesFit(Names(t.id, t.domain, t.source, t.target)) && SignedFits(t.updatedAt, 8)
    && (t.failure.Some? ==> FailureFits(t.failure.value))
    && (event.plan.Some? ==> PlanFits(event.plan.value))
  }

  function PutEvent(event: JournalEvent): seq<Byte>
    requires EventFits(event)
  {
    var t := event.transition;
    Put(event.generation, 8) +
    (PutNames(Names(t.id, t.domain, t.source, t.target)) +
     (Put(Rank(t.phase), 1) + (PutSigned(t.updatedAt, 8) + (PutOptionalFailure(t.failure) + PutOptionalPlan(event.plan)))))
  }

  function TakeEvent(bytes: seq<Byte>, version: nat): Parsed<JournalEvent> {
    match TakeInt(bytes, 8)
    case Bad => Bad
    case Good(generation, rest1) =>
      match TakeNames(rest1)
      case Bad => Bad
      case Good(names, rest2) =>
        match TakeInt(rest2, 1)
        case Bad => Bad
        case Good(phase, rest3) =>
          match TakeSigned(rest3, 8)
          case Bad => Bad
          case Good(updatedAt, rest4) =>
            match TakeOptionalFailure(rest4, version)
            case Bad => Bad
            case Good(failure, rest5) =>
              match TakeOptionalPlan(rest5)
              case Bad => Bad
              case Good(plan, rest6) =>
                if phase >= |PHASES| then Bad
                else
                  Good(JournalEvent(
                         Snapshot(names.first, names.second, names.third, names.fourth, PHASES[phase], updatedAt, failure),
                         generation, plan), rest6)
  }

  /** The event as the journal gives it back. */
  function Journaled(event: JournalEvent): JournalEvent {
    event.(transition := event.transition.(failure := WithoutState(event.transition.failure)))
  }

  lemma TakeOfPutEvent(event: JournalEvent, rest: seq<Byte>)
    requires EventFits(event)
    ensures TakeEvent(PutEvent(event) + rest, 2) == Good(Journaled(event), rest)
  {
    hide Put, Get, TakeInt, PutNames, TakeNames, PutSigned, TakeSigned, PutOptionalFailure, TakeOptionalFailure, PutOptionalPlan, TakeOptionalPlan, FailureFits, PlanFits, SignedFits, NamesFit;
    Widths();
    PhaseNumbers();
    var t := event.transition;
    var names := Names(t.id, t.domain, t.source, t.target);
    var phase, updated := Put(Rank(t.phase), 1), PutSigned(t.updatedAt, 8);
    var failure, plan := PutOptionalFailure(t.failure), PutOptionalPlan(event.plan);
    assert PutEvent(event) + rest ==
           Put(event.generation, 8) + (PutNames(names) + (phase + (updated + (failure + (plan + rest)))));
    TakeOfPut(event.generation, 8, PutNames(names) + (phase + (updated + (failure + (plan + rest)))));
    TakeOfPutNames(names, phase + (updated + (failure + (plan + rest))));
    TakeOfPut(Rank(t.phase), 1, updated + (failure + (plan + rest)));
    TakeOfPutSigned(t.updatedAt, 8, failure + (plan + rest));
    TakeOfPutOptionalFailure(t.failure, plan + rest);
    TakeOfPutOptionalPlan(event.plan, rest);
  }

  lemma PutOfTakeEvent(bytes: seq<Byte>)
    requires TakeEvent(bytes, 2).Good?
    ensures var r := TakeEvent(bytes, 2);
            EventFits(r.value) && Journaled(r.value) == r.value && bytes == PutEvent(r.value) + r.rest
  {
    hide Put, Get, TakeInt, PutNames, TakeNames, PutSigned, TakeSigned, PutOptionalFailure, TakeOptionalFailure, PutOptionalPlan, TakeOptionalPlan, FailureFits, PlanFits, SignedFits, NamesFit;
    Widths();
    PhaseNumbers();
    PutOfTake(bytes, 8);
    var generation := TakeInt(bytes, 8);
    PutOfTakeNames(generation.rest);
    var names := TakeNames(generation.rest);
    PutOfTake(names.rest, 1);
    var phase := TakeInt(names.rest, 1);
    PutOfTakeSigned(phase.rest, 8);
    var updated := TakeSigned(phase.rest, 8);
    PutOfTakeOptionalFailure(updated.rest);
    var failure := TakeOptionalFailure(updated.rest, 2);
    PutOfTakeOptionalPlan(failure.rest);
    var plan := TakeOptionalPlan(failure.rest);
    assert bytes == Put(generation.value, 8) +
                    (PutNames(names.value) +
                     (Put(phase.value, 1) +
                      (PutSigned(updated.value, 8) +
                       (PutOptionalFailure(failure.value) + (PutOptionalPlan(plan.value) + plan.rest)))));
  }

  // ---------------------------------------------------------------------
  // Payloads
  // ---------------------------------------------------------------------

  function Encode(event: JournalEvent, maximum: nat): Option<seq<Byte>> {
    if EventFits(event) && |PutEvent(event)| <= maximum then Some(PutEvent(event)) else None
  }

  function Decode(bytes: seq<Byte>, version: nat): Option<JournalEvent> {
    match TakeEvent(bytes, version)
    case Bad => None
    case Good(event, rest) => if rest != [] then None else Some(event)
  }

  /** Decoding undoes encoding, up to the observed state in the evidence, which the
      format leaves out; so it is a round trip if and only if there is no failure or
      its evidence has the default state. */
  lemma DecodeOfEncode(event: JournalEvent, maximum: nat)
    requires Encode(event, maximum).Some?
    ensures Decode(Encode(event, maximum).value, 2) == Some(Journaled(event))
    ensures Decode(Encode(event, maximum).value, 2) == Some(event) <==>
            event.transition.failure.None? || event.transition.failure.value.evidence.state == UnknownState
  {
    hide PutEvent, TakeEvent, EventFits;
    TakeOfPutEvent(event, []);
    assert PutEvent(event) + [] == PutEvent(event);
  }

  /** Every payload that version 2 accepts is the encoding of what it decodes to. */
  lemma EncodeOfDecode(bytes: seq<Byte>, maximum: nat)
    requires Decode(bytes, 2).Some? && |bytes| <= maximum
    ensures Encode(Decode(bytes, 2).value, maximum) == Some(bytes)
  {
    hide PutEvent, TakeEvent, EventFits;
    PutOfTakeEvent(bytes);
    assert PutEvent(Decode(bytes, 2).value) + [] == PutEvent(Decode(bytes, 2).value);
  }
}
