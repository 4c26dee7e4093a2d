/** The records of the transition journal. */
module JournalEvents {
  import opened Wrappers
  import opened Bytes
  import opened ExecutionModel
  import opened Planner

  /** The phases in the order of their numeric values. */
  datatype Phase =
    | Received | Validated | Planned | Stopping | Starting | AwaitingReadiness | Committing
    | Succeeded | Rejected | Failed | PhaseCancelled | PhaseSuperseded | PhaseDeadlineExceeded
    | RecoveryFailed | Recovering

  function Rank(phase: Phase): (r: nat)
    ensures r <= 14
  {
    match phase
    case Received => 0
    case Validated => 1
    case Planned => 2
    case Stopping => 3
    case Starting => 4
    case AwaitingReadiness => 5
    case Committing => 6
    case Succeeded => 7
    case Rejected => 8
    case Failed => 9
    case PhaseCancelled => 10
    case PhaseSuperseded => 11
    case PhaseDeadlineExceeded => 12
    case RecoveryFailed => 13
    case Recovering => 14
  }

  predicate Terminal(phase: Phase) {
    phase.Succeeded? || phase.Rejected? || phase.Failed? || phase.PhaseCancelled? || phase.PhaseSuperseded? ||
    phase.PhaseDeadlineExceeded? || phase.RecoveryFailed?
  }

  datatype ApplicationState =
    | UnknownState | StartingState | ReadyState | StoppingState | StoppedState | FailedState | KilledState | UnavailableState

  datatype Error = Error(code: ErrorCode, message: seq<Byte>, supportData: nat)

  datatype Evidence = Evidence(
    state: ApplicationState, exitCode: int, signal: int, nativeCode: nat, message: seq<Byte>)

  datatype Failure = Failure(
    error: Error,
    application: Option<UnitId>,
    evidence: Evidence,
    recoveryAction: FailureAction,
    recoveryAttempted: bool,
    recoverySucceeded: bool,
    recoveryError: Option<Error>,
    recoveredMode: Option<ModeId>,
    stopped: seq<UnitId>,
    started: seq<UnitId>)

  datatype Snapshot = Snapshot(
    id: TransitionId,
    domain: DomainId,
    source: ModeId,
    target: ModeId,
    phase: Phase,
    updatedAt: int,
    failure: Option<Failure>)

  datatype JournalEvent = JournalEvent(transition: Snapshot, generation: nat, plan: Option<Plan>)
}
