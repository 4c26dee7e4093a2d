/** The execution protocol as a step machine.  A step is one region that the engine
    runs under its mutex, one journal append, one scheduler call, one backend
    effect, a crash, or a part of a restart.  Any number of transitions interleave.
    A crash may lose any number of the last records: a journal that does not
    synchronize its file promises no more. */
module Protocol {
  import opened Wrappers
  import opened ExecutionModel
  import opened Planner
  import opened JournalEvents
  import opened Replay
  import opened Scheduler
  import opened ModeConstraints

  /** Where a transition stands between two steps. */
  datatype Position =
    | Refused(error: Error)       // planning failed, refusal not yet recorded
    | Accepted                    // planned in memory, nothing recorded
    | Announced                   // `validated` recorded
    | Waiting                     // `planned` recorded, no lease yet
    | Leased                      // lease held, not planned again yet
    | Executing                   // planned again under the lease
    | CommitReady                 // `committing` recorded
    | Committed                   // mode changed in memory, `succeeded` not recorded
    | InRecovery                  // `recovering` recorded
    | FallingBack                 // fallback planned under the lease
    | FellBack                    // fallback mode set in memory, outcome not recorded
    | Failing(failure: Failure)   // terminal failure decided, not recorded
    | Finished                    // terminal phase recorded
    | Interrupted                 // found unfinished by a restart

  datatype Transition = Transition(snapshot: Snapshot, plan: Option<Plan>, position: Position)

  datatype State = State(
    up: bool,
    modes: Modes,
    running: set<UnitId>,
    transitions: map<TransitionId, Transition>,
    leases: map<TransitionId, Resources>,
    next: nat,
    journal: seq<JournalEvent>)

  datatype Action =
    | Accept(baseline: Configuration, domain: DomainId, target: ModeId, error: Error, at: int)
    | RecordRefusal(id: TransitionId, at: int)
    | RecordPhase(id: TransitionId, phase: Phase, at: int)
    | Acquire(id: TransitionId)
    | AcquireFails(id: TransitionId, error: Error)
    | Replan(id: TransitionId, error: Error)
    | Work(id: TransitionId, unit: UnitId, starts: bool)
    | Commit(id: TransitionId)
    | Abandon(id: TransitionId, failure: Failure)
    | BeginRecovery(id: TransitionId, failure: Failure, at: int)
    | Reconcile(id: TransitionId)
    | CommitFallback(id: TransitionId)
    | RecordRecovered(id: TransitionId, failure: Failure, at: int)
    | RecordRecoveryFailed(id: TransitionId, failure: Failure, at: int)
    | RecordFailure(id: TransitionId, at: int)
    | Release(id: TransitionId)
    | Crash(kept: nat)
    | Restart(observed: set<UnitId>)
    | Finalize(id: TransitionId, error: Error, at: int)

  function Start(model: Model): State {
    State(true, InitialModes(model), Required(model, InitialModes(model)), map[], map[], 1, [])
  }

  function Configured(model: Model, s: State): Configuration {
    Configuration(model.generation, s.modes, s.running)
  }

  /** A failure record without recovery. */
  function PlainFailure(error: Error): Failure {
    Failure(error, None, Evidence(UnknownState, 0, 0, 0, []), HoldObservedConfiguration, false, false, None, None, [], [])
  }

  function FailurePhase(code: ErrorCode): (phase: Phase)
    ensures Terminal(phase) && !phase.Succeeded? && Rank(phase) >= 9
  {
    match code
    case Cancelled => PhaseCancelled
    case DeadlineExceeded => PhaseDeadlineExceeded
    case Superseded => PhaseSuperseded
    case _ => Failed
  }

  function LeaseOf(plan: Plan): Resources {
    Resources(plan.guarded, plan.stop + plan.start, plan.resources)
  }

  function Recovery(model: Model, domain: DomainId): FailureAction {
    if domain in Domains(model) then Domains(model)[domain].recovery else HoldObservedConfiguration
  }

  function Fallback(model: Model, domain: DomainId): ModeId {
    if domain in Domains(model) then Domains(model)[domain].fallbackMode else 0
  }

  /** Where recording a phase leads. */
  function After(position: Position, last: Phase, phase: Phase): Option<Position> {
    match position
    case Accepted => if phase.Validated? then Some(Announced) else None
    case Announced => if phase.Planned? then Some(Waiting) else None
    case Executing =>
      if phase.Committing? then Some(CommitReady)
      else if (phase.Stopping? || phase.Starting? || phase.AwaitingReadiness?) && Rank(last) < Rank(phase) then Some(Executing)
      else None
    case Committed => if phase.Succeeded? then Some(Finished) else None
    case _ => None
  }

  predicate At(s: State, id: TransitionId) {
    s.up && id in s.transitions
  }

  /** The failure names no recovered mode and known units only. */
  predicate ReportsNoMode(model: Model, failure: Failure) {
    failure.recoveredMode.None? && KnownUnits(model, failure.stopped) && KnownUnits(model, failure.started)
  }

  predicate Enabled(model: Model, s: State, a: Action) {
    match a
    case Accept(baseline, domain, target, error, at) =>
      && s.up && (forall id <- s.transitions :: !s.transitions[id].position.Interrupted?)
      && baseline.generation == model.generation && Complete(model, baseline.modes)
      && baseline.running <= Units(model).Keys
    case RecordRefusal(id, at) => At(s, id) && s.transitions[id].position.Refused?
    case RecordPhase(id, phase, at) =>
      At(s, id) && After(s.transitions[id].position, s.transitions[id].snapshot.phase, phase).Some?
    case Acquire(id) =>
      && At(s, id) && s.transitions[id].position.Waiting? && s.transitions[id].plan.Some?
      && forall owner <- s.leases :: Disjoint(LeaseOf(s.transitions[id].plan.value), s.leases[owner])
    case AcquireFails(id, error) => At(s, id) && s.transitions[id].position.Waiting?
    case Replan(id, error) => At(s, id) && s.transitions[id].position.Leased? && s.transitions[id].plan.Some?
    case Work(id, unit, starts) =>
      && At(s, id) && unit in Units(model)
      && var position := s.transitions[id].position;
         position.Executing? || position.InRecovery? || position.FallingBack?
    case Commit(id) => At(s, id) && s.transitions[id].position.CommitReady?
    case Abandon(id, failure) =>
      At(s, id) && s.transitions[id].position.Executing? && ReportsNoMode(model, failure)
    case BeginRecovery(id, failure, at) =>
      && At(s, id) && s.transitions[id].position.Executing? && ReportsNoMode(model, failure)
      && !Recovery(model, s.transitions[id].snapshot.domain).HoldObservedConfiguration?
    case Reconcile(id) =>
      && At(s, id) && s.transitions[id].position.InRecovery?
      && var domain := s.transitions[id].snapshot.domain;
         && Recovery(model, domain).EnterFallbackMode?
         && Plannable(model, Configured(model, s), domain, Fallback(model, domain), true)
    case CommitFallback(id) => At(s, id) && s.transitions[id].position.FallingBack?
    case RecordRecovered(id, failure, at) =>
      && At(s, id)
      && var transition := s.transitions[id];
         && KnownUnits(model, failure.stopped) && KnownUnits(model, failure.started)
         && (|| (transition.position.FellBack? &&
                 failure.recoveredMode == Some(Fallback(model, transition.snapshot.domain)))
             || (transition.position.InRecovery? && failure.recoveredMode.None? &&
                 Recovery(model, transition.snapshot.domain) in {StopDomain, RequestSystemRecovery}))
    case RecordRecoveryFailed(id, failure, at) =>
      && At(s, id) && ReportsNoMode(model, failure)
      && (s.transitions[id].position.InRecovery? || s.transitions[id].position.FallingBack?)
    case RecordFailure(id, at) => At(s, id) && s.transitions[id].position.Failing?
    case Release(id) => At(s, id) && s.transitions[id].position.Finished?
    case Crash(kept) => kept <= |s.journal|
    case Restart(observed) =>
      !s.up && observed <= Units(model).Keys && ReplayAll(model, Fresh(model), s.journal).Some?
    case Finalize(id, error, at) =>
      At(s, id) && s.transitions[id].position.Interrupted? && error.code == BackendUnavailable
  }

  function Moved(s: State, id: TransitionId, position: Position): State
    requires id in s.transitions
  {
    s.(transitions := s.transitions[id := s.transitions[id].(position := position)])
  }

  /** Appends a record with a new phase and failure for one transition. */
  function Recorded(model: Model, s: State, id: TransitionId, phase: Phase, at: int, failure: Option<Failure>,
                    position: Position): State
    requires id in s.transitions
  {
    var transition := s.transitions[id];
    var snapshot := transition.snapshot.(phase := phase, updatedAt := at, failure := failure);
    s.(transitions := s.transitions[id := Transition(snapshot, transition.plan, position)],
       journal := s.journal + [JournalEvent(snapshot, model.generation, transition.plan)])
  }

  function Restored(replayed: Replayed): map<TransitionId, Transition> {
    map id | id in replayed.transitions ::
      Transition(replayed.transitions[id],
                 if id in replayed.plans then Some(replayed.plans[id]) else None,
                 if Terminal(replayed.transitions[id].phase) then Finished else Interrupted)
  }

  /** A request as it is entered, planned from the given baseline. */
  ghost function Arrival(model: Model, id: TransitionId, baseline: Configuration, domain: DomainId, target: ModeId,
                         error: Error, at: int): Transition
    requires WellFormed(model) && baseline.running <= Units(model).Keys
  {
    hide WellFormed;
    var source := if domain in baseline.modes then baseline.modes[domain] else 0;
    var snapshot := Snapshot(id, domain, source, target, Received, at, None);
    if Plannable(model, baseline, domain, target, false)
    then Transition(snapshot, Some(PlanFor(model, baseline, domain, target)), Accepted)
    else Transition(snapshot, None, Refused(error))
  }

  /** Planning again gives the same stop and start lists. */
  ghost predicate StillPlanned(model: Model, current: Configuration, snapshot: Snapshot, plan: Plan)
    requires WellFormed(model) && current.running <= Units(model).Keys
  {
    && Plannable(model, current, snapshot.domain, snapshot.target, false)
    && PlanFor(model, current, snapshot.domain, snapshot.target).start == plan.start
    && PlanFor(model, current, snapshot.domain, snapshot.target).stop == plan.stop
  }

  ghost function Apply(model: Model, s: State, a: Action): State
    requires WellFormed(model) && s.running <= Units(model).Keys && Enabled(model, s, a)
  {
    hide WellFormed, UnitIndex, DomainIndex, ModeIndex, Complete, KnownUnits, Disjoint, StillPlanned, Arrival, Plannable, Recovery, Fallback;
    match a
    case Accept(baseline, domain, target, error, at) =>
      s.(transitions := s.transitions[s.next := Arrival(model, s.next, baseline, domain, target, error, at)],
         next := s.next + 1)
    case RecordRefusal(id, at) =>
      var error := s.transitions[id].position.error;
      Recorded(model, s, id, FailurePhase(error.code), at, Some(PlainFailure(error)), Finished)
    case RecordPhase(id, phase, at) =>
      var transition := s.transitions[id];
      Recorded(model, s, id, phase, at, transition.snapshot.failure,
               After(transition.position, transition.snapshot.phase, phase).value)
    case Acquire(id) =>
      Moved(s, id, Leased).(leases := s.leases[id := LeaseOf(s.transitions[id].plan.value)])
    case AcquireFails(id, error) => Moved(s, id, Failing(PlainFailure(error)))
    case Replan(id, error) =>
      var transition := s.transitions[id];
      if StillPlanned(model, Configured(model, s), transition.snapshot, transition.plan.value) then Moved(s, id, Executing)
      else Moved(s, id, Failing(PlainFailure(error)))
    case Work(id, unit, starts) => s.(running := if starts then s.running + {unit} else s.running - {unit})
    case Commit(id) =>
      var snapshot := s.transitions[id].snapshot;
      Moved(s, id, Committed).(modes := s.modes[snapshot.domain := snapshot.target])
    case Abandon(id, failure) => Moved(s, id, Failing(failure))
    case BeginRecovery(id, failure, at) => Recorded(model, s, id, Recovering, at, Some(failure), InRecovery)
    case Reconcile(id) => Moved(s, id, FallingBack)
    case CommitFallback(id) =>
      var domain := s.transitions[id].snapshot.domain;
      Moved(s, id, FellBack).(modes := s.modes[domain := Fallback(model, domain)])
    case RecordRecovered(id, failure, at) => Recorded(model, s, id, Failed, at, Some(failure), Finished)
    case RecordRecoveryFailed(id, failure, at) => Recorded(model, s, id, RecoveryFailed, at, Some(failure), Finished)
    case RecordFailure(id, at) =>
      var failure := s.transitions[id].position.failure;
      Recorded(model, s, id, FailurePhase(failure.error.code), at, Some(failure), Finished)
    case Release(id) => s.(leases := s.leases - {id})
    case Crash(kept) => s.(up := false, transitions := map[], leases := map[], journal := s.journal[..kept])
    case Restart(observed) =>
      var replayed := ReplayAll(model, Fresh(model), s.journal).value;
      State(true, replayed.modes, observed, Restored(replayed), map[], replayed.next, s.journal)
    case Finalize(id, error, at) => Recorded(model, s, id, FailurePhase(error.code), at, Some(PlainFailure(error)), Finished)
  }
}
