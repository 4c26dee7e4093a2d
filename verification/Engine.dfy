/** The execution engine, with transitions executed one at a time against a backend
    that may answer anything.  Every method carries along the run of the protocol
    that it performs, so what holds of all runs holds of the engine. */
module Engine {
  import opened Wrappers
  import opened ExecutionModel
  import opened Sorting
  import opened UnitOrder
  import opened Planner
  import opened PlanSafety
  import opened JournalEvents
  import opened Replay
  import opened Scheduler
  import opened ModeConstraints
  import opened Protocol
  import opened ProtocolInvariant
  import opened ProtocolTheorems
  import opened Environment
  import opened RebuiltUnits

  const NO_EVIDENCE := Evidence(UnknownState, 0, 0, 0, [])

  /** The error of a call that did not do what it should. */
  function Complaint(answer: Answer): Error {
    match answer
    case Observed(_) => Error(BackendError, [], 0)
    case Errored(error) => error
  }

  /** The evidence after an answer: an error brings none. */
  function Seen(answer: Answer, before: Evidence): Evidence {
    match answer
    case Observed(evidence) => evidence
    case Errored(_) => before
  }

  /** A start finds every dependency running, a stop finds no dependent running. */
  ghost predicate SafeCall(model: Model, call: Call) {
    && Safe(model, call.running)
    && match call
       case StartCall(unit, running, _) => DependenciesRun(model, running, unit)
       case StopCall(unit, running, _) => NoDependents(model, running, unit)
  }

  ghost predicate CallsSafe(model: Model, calls: seq<Call>) {
    forall call <- calls :: SafeCall(model, call)
  }

  lemma PlannableSelects(model: Model, current: Configuration, domain: DomainId, target: ModeId)
    ensures Plannable(model, current, domain, target, false) ==> domain in current.modes
  {
  }

  lemma RefusalsFail(code: ErrorCode)
    ensures code in {ConfigurationError, NotFound, InvalidTransition} ==> FailurePhase(code) == Failed
  {
  }

  /** In a validated model every unit may be tried at least once. */
  lemma AttemptsAreAllowed(model: Model)
    requires WellFormed(model)
    ensures forall unit <- Units(model) :: Units(model)[unit].maxAttempts > 0
  {
  }

  /** The state an ordinary start has to reach. */
  predicate Reached(readiness: ReadinessPolicy, state: ApplicationState) {
    if !readiness.ProcessStarted? then state.ReadyState? else state.StartingState? || state.ReadyState?
  }

  /** The state a start during recovery has to reach; here only a lifecycle channel
      insists on readiness. */
  predicate ReachedInRecovery(readiness: ReadinessPolicy, state: ApplicationState) {
    if readiness.LifecycleChannel? then state.ReadyState? else state.StartingState? || state.ReadyState?
  }

  predicate SameRequest(a: Snapshot, b: Snapshot) {
    a.id == b.id && a.domain == b.domain && a.source == b.source && a.target == b.target
  }

  /** Nothing but transition `id` has changed among the transitions and leases. */
  ghost predicate OnlyMoved(before: State, after: State, id: TransitionId) {
    && before.leases == after.leases
    && before.transitions.Keys == after.transitions.Keys
    && forall other <- before.transitions :: other != id ==> after.transitions[other] == before.transitions[other]
  }

  ghost predicate Mirrors(s: State, modes: Modes, running: set<UnitId>, transitions: map<TransitionId, Snapshot>,
                          plans: map<TransitionId, Plan>, next: nat, journal: seq<JournalEvent>)
  {
    && s.up && s.modes == modes && s.running == running && s.next == next && s.journal == journal
    && s.transitions.Keys == transitions.Keys && plans.Keys <= transitions.Keys
    && forall id <- transitions ::
         && id < next && !s.transitions[id].position.Interrupted?
         && s.transitions[id].snapshot == transitions[id]
         && s.transitions[id].plan == if id in plans then Some(plans[id]) else None
  }

  lemma MirrorsRecord(model: Model, s: State, modes: Modes, running: set<UnitId>, transitions: map<TransitionId, Snapshot>,
                      plans: map<TransitionId, Plan>, next: nat, journal: seq<JournalEvent>,
                      id: TransitionId, phase: Phase, at: int, failure: Option<Failure>, position: Position)
    requires Mirrors(s, modes, running, transitions, plans, next, journal) && id in transitions && !position.Interrupted?
    ensures id in s.transitions && s.running == running
    ensures var snapshot := transitions[id].(phase := phase, updatedAt := at, failure := failure);
            var event := JournalEvent(snapshot, model.generation, if id in plans then Some(plans[id]) else None);
            Mirrors(Recorded(model, s, id, phase, at, failure, position), modes, running, transitions[id := snapshot], plans,
                    next, journal + [event])
  {
  }

  lemma MirrorsMove(s: State, modes: Modes, running: set<UnitId>, transitions: map<TransitionId, Snapshot>,
                    plans: map<TransitionId, Plan>, next: nat, journal: seq<JournalEvent>, id: TransitionId, position: Position)
    requires Mirrors(s, modes, running, transitions, plans, next, journal) && id in transitions && !position.Interrupted?
    ensures id in s.transitions && s.up && s.transitions[id].snapshot == transitions[id]
    ensures s.modes == modes && s.running == running
    ensures s.transitions[id].plan == if id in plans then Some(plans[id]) else None
    ensures Mirrors(Moved(s, id, position), modes, running, transitions, plans, next, journal)
    ensures forall m: Modes :: Mirrors(Moved(s, id, position).(modes := m), m, running, transitions, plans, next, journal)
    ensures forall r: set<UnitId> :: Mirrors(s.(running := r), modes, r, transitions, plans, next, journal)
    ensures forall l :: Mirrors(s.(leases := l), modes, running, transitions, plans, next, journal)
  {
  }

  /** A transition that did not succeed leaves the modes alone, or in the fallback
      mode with exactly the units running that the modes then require. */
  ghost predicate NotCommitted(model: Model, before: Modes, after: Modes, running: set<UnitId>, snapshot: Snapshot) {
    || after == before
    || (snapshot.phase == Failed && Defined(model, snapshot.domain, Fallback(model, snapshot.domain)) &&
        snapshot.domain in before && after == before[snapshot.domain := Fallback(model, snapshot.domain)] &&
        running == Required(model, after))
  }

  lemma MirrorsLease(s: State, modes: Modes, running: set<UnitId>, transitions: map<TransitionId, Snapshot>,
                     plans: map<TransitionId, Plan>, next: nat, journal: seq<JournalEvent>, id: TransitionId)
    requires Mirrors(s, modes, running, transitions, plans, next, journal) && id in transitions
    ensures id in s.transitions
    ensures forall l :: Mirrors(Moved(s, id, Leased).(leases := l), modes, running, transitions, plans, next, journal)
  {
  }

  lemma NothingCommitted(model: Model, modes: Modes, running: set<UnitId>, snapshot: Snapshot)
    ensures NotCommitted(model, modes, modes, running, snapshot)
  {
  }

  lemma MovedMeans(before: State, id: TransitionId)
    ensures forall after :: OnlyMoved(before, after, id) ==> before.leases == after.leases
  {
  }

  lemma StaysComplete(model: Model, before: Configuration, after: Modes, running: set<UnitId>, snapshot: Snapshot)
    requires Complete(model, before.modes)
    requires NotCommitted(model, before.modes, after, running, snapshot) ||
             (after == before.modes[snapshot.domain := snapshot.target] &&
              Plannable(model, before, snapshot.domain, snapshot.target, false))
    ensures Complete(model, after)
  {
    hide Required, ConstraintsHold, Closed, Selects, DomainIndex, ModeIndex;
  }

  lemma BootstrapsAreRequired(model: Model, modes: Modes)
    ensures Bootstraps(model) <= Required(model, modes)
  {
  }

  lemma FallbackSteps(model: Model, s: State, id: TransitionId, failure: Failure, at: int)
    requires WellFormed(model) && s.running <= Units(model).Keys && At(s, id)
    requires KnownUnits(model, failure.stopped) && KnownUnits(model, failure.started)
    requires failure.recoveredMode == Some(Fallback(model, s.transitions[id].snapshot.domain))
    ensures s.transitions[id].position.FallingBack? ==>
              && Enabled(model, s, CommitFallback(id))
              && Apply(model, s, CommitFallback(id)) ==
                 Moved(s, id, FellBack).(modes := s.modes[s.transitions[id].snapshot.domain := failure.recoveredMode.value])
    ensures s.transitions[id].position.FellBack? ==>
              && Enabled(model, s, RecordRecovered(id, failure, at))
              && Apply(model, s, RecordRecovered(id, failure, at)) == Recorded(model, s, id, Failed, at, Some(failure), Finished)
  {
    hide WellFormed, UnitIndex, DomainIndex, KnownUnits, Fallback;
  }

  lemma BeginRecoveryStep(model: Model, s: State, id: TransitionId, failure: Failure, at: int)
    requires WellFormed(model) && s.running <= Units(model).Keys && At(s, id) && s.transitions[id].position.Executing?
    requires !Recovery(model, s.transitions[id].snapshot.domain).HoldObservedConfiguration? && ReportsNoMode(model, failure)
    ensures Enabled(model, s, BeginRecovery(id, failure, at))
    ensures Apply(model, s, BeginRecovery(id, failure, at)) == Recorded(model, s, id, Recovering, at, Some(failure), InRecovery)
  {
    hide WellFormed, UnitIndex, Recovery;
  }

  lemma AcceptStep(model: Model, s: State, baseline: Configuration, domain: DomainId, target: ModeId, error: Error, at: int)
    requires WellFormed(model) && s.running <= Units(model).Keys && s.up
    requires forall id <- s.transitions :: !s.transitions[id].position.Interrupted?
    requires baseline.generation == model.generation && Complete(model, baseline.modes) && baseline.running <= Units(model).Keys
    ensures var a := Accept(baseline, domain, target, error, at);
            && Enabled(model, s, a)
            && Apply(model, s, a) ==
               s.(transitions := s.transitions[s.next := Arrival(model, s.next, baseline, domain, target, error, at)], next := s.next + 1)
  {
    hide WellFormed, UnitIndex, Complete, Arrival;
  }

  lemma ArrivalIs(model: Model, id: TransitionId, baseline: Configuration, domain: DomainId, target: ModeId, error: Error, at: int)
    requires WellFormed(model) && baseline.running <= Units(model).Keys
    ensures var t := Arrival(model, id, baseline, domain, target, error, at);
            && t.snapshot == Snapshot(id, domain, if domain in baseline.modes then baseline.modes[domain] else 0, target, Received, at, None)
            && (Plannable(model, baseline, domain, target, false) ==>
                  domain in baseline.modes &&
                  t.position == Accepted && t.plan == Some(PlanFor(model, baseline, domain, target)))
            && (!Plannable(model, baseline, domain, target, false) ==> t.position == Refused(error) && t.plan == None)
  {
    hide WellFormed, UnitIndex, PlanFor;
  }

  lemma RefusalStep(model: Model, s: State, id: TransitionId, at: int)
    requires WellFormed(model) && s.running <= Units(model).Keys && At(s, id) && s.transitions[id].position.Refused?
    ensures var error := s.transitions[id].position.error;
            && Enabled(model, s, RecordRefusal(id, at))
            && Apply(model, s, RecordRefusal(id, at)) ==
               Recorded(model, s, id, FailurePhase(error.code), at, Some(PlainFailure(error)), Finished)
  {
    hide WellFormed, UnitIndex, FailurePhase;
  }

  lemma MirrorsArrival(model: Model, s: State, modes: Modes, running: set<UnitId>, transitions: map<TransitionId, Snapshot>,
                       plans: map<TransitionId, Plan>, next: nat, journal: seq<JournalEvent>, t: Transition)
    requires Mirrors(s, modes, running, transitions, plans, next, journal) && !t.position.Interrupted?
    ensures s.up && s.running == running && s.next == next
    ensures forall id <- s.transitions :: !s.transitions[id].position.Interrupted?
    ensures var after := if t.plan.Some? then plans[next := t.plan.value] else plans;
            Mirrors(s.(transitions := s.transitions[next := t], next := next + 1), modes, running,
                    transitions[next := t.snapshot], after, next + 1, journal)
  {
  }

  lemma PhaseStep(model: Model, s: State, id: TransitionId, phase: Phase, at: int)
    requires WellFormed(model) && s.running <= Units(model).Keys && At(s, id)
    requires After(s.transitions[id].position, s.transitions[id].snapshot.phase, phase).Some? && s.transitions[id].snapshot.failure.None?
    ensures Enabled(model, s, RecordPhase(id, phase, at))
    ensures !After(s.transitions[id].position, s.transitions[id].snapshot.phase, phase).value.Interrupted?
    ensures Apply(model, s, RecordPhase(id, phase, at)) ==
            Recorded(model, s, id, phase, at, None, After(s.transitions[id].position, s.transitions[id].snapshot.phase, phase).value)
  {
    hide WellFormed, UnitIndex;
  }

  lemma WorkStep(model: Model, s: State, id: TransitionId, unit: UnitId, starts: bool)
    requires WellFormed(model) && s.running <= Units(model).Keys && At(s, id) && unit in Units(model)
    requires var position := s.transitions[id].position;
             position.Executing? || position.InRecovery? || position.FallingBack?
    ensures Enabled(model, s, Work(id, unit, starts))
    ensures Apply(model, s, Work(id, unit, starts)) == s.(running := if starts then s.running + {unit} else s.running - {unit})
  {
    hide WellFormed, UnitIndex;
  }

  lemma ReleaseStep(model: Model, s: State, id: TransitionId)
    requires WellFormed(model) && s.running <= Units(model).Keys && At(s, id) && s.transitions[id].position.Finished?
    ensures Enabled(model, s, Release(id)) && Apply(model, s, Release(id)) == s.(leases := s.leases - {id})
  {
    hide WellFormed, UnitIndex;
  }

  lemma FailureStep(model: Model, s: State, id: TransitionId, failure: Failure, at: int)
    requires WellFormed(model) && s.running <= Units(model).Keys && At(s, id)
    ensures s.transitions[id].position == Failing(failure) ==>
              && Enabled(model, s, RecordFailure(id, at))
              && Apply(model, s, RecordFailure(id, at)) ==
                 Recorded(model, s, id, FailurePhase(failure.error.code), at, Some(failure), Finished)
    ensures s.transitions[id].position.Executing? && ReportsNoMode(model, failure) ==>
              Enabled(model, s, Abandon(id, failure)) && Apply(model, s, Abandon(id, failure)) == Moved(s, id, Failing(failure))
  {
    hide WellFormed, UnitIndex, FailurePhase, KnownUnits;
  }

  lemma RecoveryEndStep(model: Model, s: State, id: TransitionId, failure: Failure, at: int)
    requires WellFormed(model) && s.running <= Units(model).Keys && At(s, id) && ReportsNoMode(model, failure)
    ensures s.transitions[id].position.InRecovery? &&
            Recovery(model, s.transitions[id].snapshot.domain) in {StopDomain, RequestSystemRecovery} ==>
              && Enabled(model, s, RecordRecovered(id, failure, at))
              && Apply(model, s, RecordRecovered(id, failure, at)) == Recorded(model, s, id, Failed, at, Some(failure), Finished)
    ensures s.transitions[id].position.InRecovery? || s.transitions[id].position.FallingBack? ==>
              && Enabled(model, s, RecordRecoveryFailed(id, failure, at))
              && Apply(model, s, RecordRecoveryFailed(id, failure, at)) ==
                 Recorded(model, s, id, RecoveryFailed, at, Some(failure), Finished)
  {
    hide WellFormed, UnitIndex, KnownUnits, Recovery, DomainIndex;
  }

  lemma AcquireStep(model: Model, s: State, id: TransitionId, error: Error)
    requires WellFormed(model) && s.running <= Units(model).Keys && At(s, id) && s.transitions[id].position.Waiting?
    requires s.transitions[id].plan.Some? && s.leases == map[]
    ensures Enabled(model, s, Acquire(id))
    ensures Apply(model, s, Acquire(id)) == Moved(s, id, Leased).(leases := map[id := LeaseOf(s.transitions[id].plan.value)])
    ensures Enabled(model, s, AcquireFails(id, error))
    ensures Apply(model, s, AcquireFails(id, error)) == Moved(s, id, Failing(PlainFailure(error)))
  {
    hide WellFormed, UnitIndex;
  }

  lemma ReplanStep(model: Model, s: State, id: TransitionId, error: Error)
    requires WellFormed(model) && s.running <= Units(model).Keys && At(s, id) && s.transitions[id].position.Leased?
    requires s.transitions[id].plan.Some?
    ensures Enabled(model, s, Replan(id, error))
    ensures Apply(model, s, Replan(id, error)) ==
            Moved(s, id, if StillPlanned(model, Configured(model, s), s.transitions[id].snapshot, s.transitions[id].plan.value)
                         then Executing else Failing(PlainFailure(error)))
  {
    hide WellFormed, UnitIndex, StillPlanned;
  }

  lemma CommitStep(model: Model, s: State, id: TransitionId)
    requires WellFormed(model) && s.running <= Units(model).Keys && At(s, id) && s.transitions[id].position.CommitReady?
    ensures Enabled(model, s, Commit(id))
    ensures Apply(model, s, Commit(id)) ==
            Moved(s, id, Committed).(modes := s.modes[s.transitions[id].snapshot.domain := s.transitions[id].snapshot.target])
  {
    hide WellFormed, UnitIndex;
  }

  lemma ReconcileStep(model: Model, s: State, id: TransitionId)
    requires WellFormed(model) && s.running <= Units(model).Keys && At(s, id) && s.transitions[id].position.InRecovery?
    requires Recovery(model, s.transitions[id].snapshot.domain).EnterFallbackMode?
    requires var domain := s.transitions[id].snapshot.domain;
             Plannable(model, Configured(model, s), domain, Fallback(model, domain), true)
    ensures Enabled(model, s, Reconcile(id)) && Apply(model, s, Reconcile(id)) == Moved(s, id, FallingBack)
  {
    hide WellFormed, UnitIndex, Plannable, Recovery, Fallback;
  }

  /** In a dependency-closed running set nothing depends on a unit that does not run. */
  lemma NothingDependsOnAbsent(model: Model, running: set<UnitId>, unit: UnitId)
    requires unit !in running
    ensures Safe(model, running) ==> NoDependents(model, running, unit)
  {
  }

  lemma StopListIsKnown(model: Model, running: set<UnitId>, required: set<UnitId>)
    requires WellFormed(model) && running <= Units(model).Keys
    ensures forall unit <- StopList(model, running, required) :: unit in Units(model)
  {
    hide WellFormed, UnitIndex, OrderOf;
    OrderIsTopological(model, running - required);
  }

  lemma StartListIsNew(model: Model, running: set<UnitId>, required: set<UnitId>, i: nat)
    requires WellFormed(model) && required <= Units(model).Keys && i < |StartList(model, running, required)|
    ensures StartList(model, running, required)[i] in Units(model)
    ensures StartList(model, running, required)[i] !in running + ToSet(StartList(model, running, required)[..i])
  {
    hide WellFormed, UnitIndex, OrderOf;
    OrderIsTopological(model, required - running);
    assert StartList(model, running, required)[i] in StartList(model, running, required);
  }

  lemma StopListIsExact(model: Model, running: set<UnitId>, required: set<UnitId>)
    requires WellFormed(model) && running <= Units(model).Keys
    ensures running - ToSet(StopList(model, running, required)) == running * required
    ensures KnownUnits(model, StopList(model, running, required))
  {
    hide WellFormed, UnitIndex, OrderOf;
    OrderIsTopological(model, running - required);
  }

  lemma StartListIsExact(model: Model, running: set<UnitId>, required: set<UnitId>)
    requires WellFormed(model) && required <= Units(model).Keys && running <= required
    ensures running + ToSet(StartList(model, running, required)) == required
    ensures KnownUnits(model, StartList(model, running, required))
  {
    hide WellFormed, UnitIndex, OrderOf;
    OrderIsTopological(model, required - running);
  }

  lemma PrefixIsKnown(model: Model, units: seq<UnitId>, prefix: seq<UnitId>)
    requires KnownUnits(model, units) && prefix <= units
    ensures KnownUnits(model, prefix)
  {
  }

  /** The lists of a plan in terms of the units it requires. */
  lemma PlanListsAre(model: Model, current: Configuration, domain: DomainId, target: ModeId)
    requires WellFormed(model) && current.running <= Units(model).Keys && domain in current.modes
    ensures var required := Required(model, current.modes[domain := target]);
            var plan := PlanFor(model, current, domain, target);
            && required <= Units(model).Keys && Bootstraps(model) <= required
            && plan.stop == StopList(model, current.running, required)
            && plan.start == StartList(model, current.running * required, required)
            && current.running * required + ToSet(plan.start) == required
  {
    hide WellFormed, UnitIndex, OrderOf, Required, Bootstraps;
    var required := Required(model, current.modes[domain := target]);
    RequiredIsKnown(model, current.modes[domain := target]);
    BootstrapsAreRequired(model, current.modes[domain := target]);
    assert required - current.running == required - current.running * required;
    OrderIsTopological(model, required - current.running);
  }

  lemma StopListIs(model: Model, running: set<UnitId>, required: set<UnitId>)
    requires running <= Units(model).Keys
    ensures OrderOf(model, running - required, true) == StopList(model, running, required)
  {
  }

  lemma MovedNothing(s: State, id: TransitionId)
    ensures OnlyMoved(s, s, id)
  {
  }

  lemma MovedTwice(a: State, b: State, c: State, id: TransitionId)
    requires OnlyMoved(a, b, id) && OnlyMoved(b, c, id)
    ensures OnlyMoved(a, c, id) && a.leases == b.leases == c.leases && a.transitions.Keys == c.transitions.Keys
  {
  }

  lemma MirroredPlan(s: State, modes: Modes, running: set<UnitId>, transitions: map<TransitionId, Snapshot>,
                     plans: map<TransitionId, Plan>, next: nat, journal: seq<JournalEvent>, id: TransitionId)
    requires Mirrors(s, modes, running, transitions, plans, next, journal) && id in transitions
    ensures s.up && s.journal == journal && id in s.transitions
    ensures s.transitions[id].plan == if id in plans then Some(plans[id]) else None
  {
  }

  lemma OnlyLiveProgress(position: Position, last: Phase, phase: Phase)
    requires After(position, last, phase).Some?
    ensures Live(position)
  {
  }

  lemma NothingShown()
    ensures forall before: Evidence :: Shown([], before) == before
  {
  }

  lemma TriesOn(model: Model, unit: UnitId, notes: seq<Note>, recovering: bool)
    requires Rounds(notes, unit) && StartsOnly(notes, [unit]) && Favourable(notes) && !StartedIn(model, notes, unit, recovering)
    ensures Trying(model, unit, notes, recovering)
  {
  }

  // ---------------------------------------------------------------------
  // How a transition ends
  // ---------------------------------------------------------------------

  /** The terminal phase that an error without recovery leads to. */
  ghost predicate PhaseByCode(phase: Phase, code: ErrorCode) {
    phase ==
    if code == Cancelled then PhaseCancelled
    else if code == DeadlineExceeded then PhaseDeadlineExceeded
    else if code == Superseded then PhaseSuperseded
    else Failed
  }

  lemma FailurePhaseMeans(code: ErrorCode)
    ensures PhaseByCode(FailurePhase(code), code) && Terminal(FailurePhase(code)) && !FailurePhase(code).Succeeded?
  {
  }

  /** A failure as recovery finds it: nothing reported yet. */
  ghost predicate NewReport(failure: Failure) {
    && failure.stopped == [] && failure.started == []
    && failure.recoveredMode.None? && failure.recoveryError.None? && !failure.recoverySucceeded
  }

  /** The report is about the same failure and the same recovery. */
  ghost predicate SameFailure(a: Failure, b: Failure) {
    a.error == b.error && a.recoveryAction == b.recoveryAction && a.recoveryAttempted == b.recoveryAttempted
  }

  ghost predicate HeldStill(before: Configuration, after: Configuration, failure: Failure, notes: seq<Note>) {
    after == before && notes == [] && failure.stopped == [] && failure.started == [] && failure.recoveredMode.None?
  }

  /** The final record of a recovery tells whether it succeeded, and what it stopped and
      started. */
  ghost predicate Concluded(before: Configuration, after: Configuration, snapshot: Snapshot) {
    && snapshot.failure.Some? && snapshot.phase in {Failed, RecoveryFailed}
    && (snapshot.phase.Failed? <==> snapshot.failure.value.recoverySucceeded)
    && (snapshot.phase.Failed? <==> snapshot.failure.value.recoveryError.None?)
    && after.running == before.running - ToSet(snapshot.failure.value.stopped) + ToSet(snapshot.failure.value.started)
  }

  /** Recovery into the fallback mode: it succeeds exactly when the mode can be planned and
      the plan is carried out; then the mode is committed. */
  ghost predicate FellBackTo(model: Model, before: Configuration, after: Configuration, snapshot: Snapshot, notes: seq<Note>,
                             fallback: ModeId)
    requires WellFormed(model) && before.running <= Units(model).Keys
  {
    && Concluded(before, after, snapshot)
    && var failure := snapshot.failure.value;
       if !Plannable(model, before, snapshot.domain, fallback, true)
       then HeldStill(before, after, failure, notes) && snapshot.phase.RecoveryFailed?
       else
         var plan := PlanFor(model, before, snapshot.domain, fallback);
         && (snapshot.phase.Failed? <==> CarriedOut(model, plan.stop, plan.start, notes, true))
         && (snapshot.phase.Failed? ==>
               && failure.stopped == plan.stop && failure.started == plan.start && failure.recoveredMode == Some(fallback)
               && after.modes == before.modes[snapshot.domain := fallback])
         && (snapshot.phase.RecoveryFailed? ==>
               && failure.stopped <= plan.stop && failure.started <= plan.start && failure.recoveredMode.None?
               && after.modes == before.modes && BrokenOff(model, notes, failure.recoveryError.value, true))
  }

  /** Recovery by stopping: it succeeds exactly when the units to stop can be told and all
      are stopped; the modes stay. */
  ghost predicate StoppedDomain(model: Model, before: Configuration, after: Configuration, snapshot: Snapshot, notes: seq<Note>)
    requires WellFormed(model) && before.running <= Units(model).Keys
  {
    && Concluded(before, after, snapshot)
    && var failure := snapshot.failure.value;
       if !Stoppable(model, before, snapshot.domain)
       then HeldStill(before, after, failure, notes) && snapshot.phase.RecoveryFailed?
       else
         var stop := OrderOf(model, before.running - Required(model, before.modes - {snapshot.domain}), true);
         && after.modes == before.modes && failure.recoveredMode.None? && failure.started == []
         && (snapshot.phase.Failed? <==> CarriedOut(model, stop, [], notes, true))
         && (snapshot.phase.Failed? ==> failure.stopped == stop)
         && (snapshot.phase.RecoveryFailed? ==> failure.stopped <= stop && BrokenOff(model, notes, failure.recoveryError.value, true))
  }

  /** A request for system recovery touches nothing, and ends as it is answered. */
  ghost predicate AskedForRecovery(before: Configuration, after: Configuration, snapshot: Snapshot, notes: seq<Note>) {
    && Concluded(before, after, snapshot) && HeldStill(before, after, snapshot.failure.value, [])
    && |notes| == 1 && notes[0].Requested? && snapshot.failure.value.recoveryError == notes[0].refusal
  }

  /** A policy that no validated model may have. */
  ghost predicate NoSuchPolicy(before: Configuration, after: Configuration, snapshot: Snapshot, notes: seq<Note>) {
    && Concluded(before, after, snapshot) && HeldStill(before, after, snapshot.failure.value, notes)
    && snapshot.failure.value.recoveryError == Some(Error(InternalError, [], 0))
  }

  /** What happens after a backend failure, as the domain's policy says. */
  ghost predicate Recovered(model: Model, before: Configuration, after: Configuration, snapshot: Snapshot, notes: seq<Note>)
    requires WellFormed(model) && before.running <= Units(model).Keys
  {
    && snapshot.failure.Some?
    && var failure, domain := snapshot.failure.value, snapshot.domain;
       if domain !in Domains(model) || Domains(model)[domain].recovery.HoldObservedConfiguration?
       then
         && HeldStill(before, after, failure, notes) && PhaseByCode(snapshot.phase, failure.error.code)
         && failure.recoveryAction == HoldObservedConfiguration && !failure.recoveryAttempted
       else
         && failure.recoveryAction == Domains(model)[domain].recovery && failure.recoveryAttempted
         && match Domains(model)[domain].recovery
            case EnterFallbackMode => FellBackTo(model, before, after, snapshot, notes, Domains(model)[domain].fallbackMode)
            case StopDomain => StoppedDomain(model, before, after, snapshot, notes)
            case RequestSystemRecovery => AskedForRecovery(before, after, snapshot, notes)
            case _ => NoSuchPolicy(before, after, snapshot, notes)
  }

  /** A transition that broke off: the error is that of the last note.  A cancelled one is
      recorded as it is; any other goes to recovery. */
  ghost predicate BrokeOff(model: Model, before: Configuration, after: Configuration, snapshot: Snapshot,
                           notes: seq<Note>, aftermath: seq<Note>)
    requires WellFormed(model) && before.running <= Units(model).Keys
  {
    && snapshot.failure.Some? && BrokenOff(model, notes, snapshot.failure.value.error, false)
    && if Last(notes).Poll?
       then HeldStill(before, after, snapshot.failure.value, aftermath) && snapshot.phase == PhaseCancelled &&
            !snapshot.failure.value.recoveryAttempted
       else Recovered(model, before, after, snapshot, aftermath)
  }

  lemma NoUnitsAreKnown(model: Model)
    ensures KnownUnits(model, [])
  {
  }

  lemma FallbackIs(model: Model, domain: DomainId)
    ensures domain in Domains(model) ==> Fallback(model, domain) == Domains(model)[domain].fallbackMode
  {
  }

  /** What recovery into the fallback mode leaves committed. */
  lemma FellBackMeans(model: Model, before: Configuration, after: Configuration, snapshot: Snapshot, notes: seq<Note>, fallback: ModeId)
    requires WellFormed(model) && before.running <= Units(model).Keys
    requires FellBackTo(model, before, after, snapshot, notes, fallback) && fallback == Fallback(model, snapshot.domain)
    requires snapshot.phase == Failed ==>
               snapshot.domain in before.modes && Defined(model, snapshot.domain, fallback) &&
               after.running == Required(model, after.modes)
    ensures Terminal(snapshot.phase) && !snapshot.phase.Succeeded?
    ensures NotCommitted(model, before.modes, after.modes, after.running, snapshot)
  {
    hide WellFormed, UnitIndex, DomainIndex, Plannable, PlanFor, Required, Fallback, CarriedOut, BrokenOff, Defined;
  }

  lemma StoppedMeans(model: Model, before: Configuration, after: Configuration, snapshot: Snapshot, notes: seq<Note>)
    requires WellFormed(model) && before.running <= Units(model).Keys && StoppedDomain(model, before, after, snapshot, notes)
    ensures Terminal(snapshot.phase) && !snapshot.phase.Succeeded?
    ensures NotCommitted(model, before.modes, after.modes, after.running, snapshot)
  {
    hide WellFormed, UnitIndex, DomainIndex, Stoppable, OrderOf, Required, Fallback, CarriedOut, BrokenOff, Defined;
  }

  lemma AskedMeans(model: Model, before: Configuration, snapshot: Snapshot, notes: seq<Note>)
    requires AskedForRecovery(before, before, snapshot, notes)
    ensures Terminal(snapshot.phase) && !snapshot.phase.Succeeded? && ReportsNothing(snapshot.failure)
    ensures NotCommitted(model, before.modes, before.modes, before.running, snapshot)
  {
  }

  lemma LoopEndMeans(model: Model, stop: seq<UnitId>, start: seq<UnitId>, notes: seq<Note>, recovering: bool,
                     done: bool, cancelled: bool, error: Error)
    requires LoopEnd(model, stop, start, notes, recovering, done, cancelled, error)
    ensures done <==> CarriedOut(model, stop, start, notes, recovering)
    ensures !done ==> BrokenOff(model, notes, error, recovering) && notes != [] && (cancelled <==> Last(notes).Poll?)
  {
  }

  /** The lease was not granted in time. */
  ghost predicate LeaseRefused(before: Configuration, after: Configuration, snapshot: Snapshot, notes: seq<Note>, aftermath: seq<Note>) {
    && notes == [Lease(false)] && aftermath == [] && after == before
    && snapshot.phase == PhaseDeadlineExceeded && snapshot.failure == Some(PlainFailure(Error(DeadlineExceeded, [], 0)))
  }

  /** The request can no longer be planned, or has another plan by now. */
  ghost predicate Outdated(model: Model, before: Configuration, after: Configuration, snapshot: Snapshot,
                           notes: seq<Note>, aftermath: seq<Note>)
  {
    && notes == [Lease(true)] && aftermath == [] && after == before
    && snapshot.failure.Some? && snapshot.failure.value == PlainFailure(snapshot.failure.value.error)
    && var code := snapshot.failure.value.error.code;
       if Plannable(model, before, snapshot.domain, snapshot.target, false)
       then code == Superseded && snapshot.phase == PhaseSuperseded
       else code in PlanErrors(model, before, snapshot.domain, snapshot.target, false) && snapshot.phase == Failed
  }

  /** What was stopped and started is a part of the plan, in its order. */
  ghost predicate PartOf(plan: Plan, stopped: seq<UnitId>, started: seq<UnitId>) {
    stopped <= plan.stop && started <= plan.start && (started != [] ==> stopped == plan.stop)
  }

  /** The stop loop has broken off at this unit. */
  ghost predicate ShortOfStop(stop: seq<UnitId>, stopped: seq<UnitId>, notes: seq<Note>) {
    && notes != [] && |stopped| < |stop|
    && (Last(notes).Poll? ||
        (Last(notes).Answered? && Last(notes).call.StopCall? && Last(notes).call.unit == stop[|stopped|]))
  }

  /** The start loop has broken off at this unit. */
  ghost predicate ShortOfStart(start: seq<UnitId>, started: seq<UnitId>, notes: seq<Note>) {
    notes != [] && |started| < |start| && (Last(notes).Answered? ==> Last(notes).call.unit == start[|started|])
  }

  /** Where a transition has broken off. */
  ghost predicate ShortOf(plan: Plan, stopped: seq<UnitId>, started: seq<UnitId>, notes: seq<Note>) {
    if |stopped| < |plan.stop| then started == [] && ShortOfStop(plan.stop, stopped, notes)
    else stopped == plan.stop && ShortOfStart(plan.start, started, notes)
  }

  lemma ShortAtStop(plan: Plan, stopped: seq<UnitId>, notes: seq<Note>)
    requires ShortOfStop(plan.stop, stopped, notes) && stopped <= plan.stop
    ensures ShortOf(plan, stopped, [], notes)
  {
  }

  lemma ShortAtStart(plan: Plan, started: seq<UnitId>, stops: seq<Note>, starts: seq<Note>)
    requires ShortOfStart(plan.start, started, starts)
    ensures ShortOf(plan, plan.stop, started, stops + starts)
  {
  }

  lemma PartsOf(plan: Plan, stopped: seq<UnitId>, started: seq<UnitId>)
    ensures stopped <= plan.stop ==> PartOf(plan, stopped, [])
    ensures started <= plan.start ==> PartOf(plan, plan.stop, started)
  {
  }

  lemma ShortOfLater(plan: Plan, stopped: seq<UnitId>, started: seq<UnitId>, notes: seq<Note>, longer: seq<Note>)
    requires ShortOf(plan, stopped, started, notes) && notes != [] && longer != [] && Last(longer) == Last(notes)
    ensures ShortOf(plan, stopped, started, longer)
  {
  }

  ghost function FailureUnits(failure: Failure): set<UnitId> {
    ToSet(failure.stopped) + ToSet(failure.started)
  }

  lemma BrokeOffMoves(model: Model, before: Configuration, after: Configuration, snapshot: Snapshot,
                      notes: seq<Note>, aftermath: seq<Note>)
    requires WellFormed(model) && before.running <= Units(model).Keys && BrokeOff(model, before, after, snapshot, notes, aftermath)
    ensures after.running == before.running - ToSet(snapshot.failure.value.stopped) + ToSet(snapshot.failure.value.started)
  {
    hide WellFormed, UnitIndex, DomainIndex, BrokenOff, Plannable, PlanFor, Stoppable, OrderOf, Required, CarriedOut;
  }

  lemma BrokeOffLater(model: Model, before: Configuration, after: Configuration, snapshot: Snapshot,
                      notes: seq<Note>, longer: seq<Note>, aftermath: seq<Note>)
    requires WellFormed(model) && before.running <= Units(model).Keys && BrokeOff(model, before, after, snapshot, notes, aftermath)
    requires BrokenOff(model, longer, snapshot.failure.value.error, false) && longer != [] && Last(longer) == Last(notes)
    ensures BrokeOff(model, before, after, snapshot, longer, aftermath)
  {
    hide WellFormed, UnitIndex, DomainIndex, BrokenOff, Recovered;
  }

  lemma BrokeOffMeans(model: Model, before: Configuration, after: Configuration, snapshot: Snapshot,
                      notes: seq<Note>, aftermath: seq<Note>)
    requires WellFormed(model) && before.running <= Units(model).Keys && BrokeOff(model, before, after, snapshot, notes, aftermath)
    ensures snapshot.failure.Some? && notes != []
  {
    hide WellFormed, UnitIndex, DomainIndex, Recovered, Favourable;
  }

  lemma CancelledBrokeOff(model: Model, before: Configuration, snapshot: Snapshot, notes: seq<Note>)
    requires WellFormed(model) && before.running <= Units(model).Keys && notes != []
    requires BrokenOff(model, notes, Error(Cancelled, [], 0), false) && Last(notes).Poll?
    requires snapshot.phase == PhaseCancelled && snapshot.failure == Some(PlainFailure(Error(Cancelled, [], 0)))
    ensures BrokeOff(model, before, before, snapshot, notes, [])
  {
    hide WellFormed, UnitIndex, BrokenOff;
  }

  lemma RecoveredBrokeOff(model: Model, before: Configuration, after: Configuration, snapshot: Snapshot, notes: seq<Note>, aftermath: seq<Note>)
    requires WellFormed(model) && before.running <= Units(model).Keys && notes != [] && !Last(notes).Poll?
    requires snapshot.failure.Some? && Recovered(model, before, after, snapshot, aftermath) && BrokenOff(model, notes, snapshot.failure.value.error, false)
    ensures BrokeOff(model, before, after, snapshot, notes, aftermath)
  {
    hide WellFormed, UnitIndex, BrokenOff, Recovered;
  }

  /** The lists of a plan concern units that run and units that do not. */
  lemma PlanMoves(model: Model, current: Configuration, domain: DomainId, target: ModeId)
    requires WellFormed(model) && current.running <= Units(model).Keys && domain in current.modes
    ensures var plan := PlanFor(model, current, domain, target);
            ToSet(plan.stop) <= current.running && ToSet(plan.start) !! current.running
  {
    hide WellFormed, UnitIndex, PlanFor, Required;
    PlanPartitions(model, current, domain, target);
    var plan := PlanFor(model, current, domain, target);
    StartsAreNew(model, current, domain, target);
  }

  lemma StartsAreNew(model: Model, current: Configuration, domain: DomainId, target: ModeId)
    requires WellFormed(model) && current.running <= Units(model).Keys && domain in current.modes
    ensures ToSet(PlanFor(model, current, domain, target).start) !! current.running
  {
    hide WellFormed, OrderOf, Required;
    RequiredIsKnown(model, current.modes[domain := target]);
    OrderIsTopological(model, Required(model, current.modes[domain := target]) - current.running);
  }

  lemma PartMoves(plan: Plan, running: set<UnitId>, stopped: seq<UnitId>, started: seq<UnitId>)
    requires ToSet(plan.stop) <= running && ToSet(plan.start) !! running && PartOf(plan, stopped, started)
    ensures ToSet(stopped) <= running && ToSet(started) !! running && ToSet(stopped) !! ToSet(started)
  {
  }

  lemma CausedBy(model: Model, notes: seq<Note>, error: Error)
    requires BrokenOff(model, notes, error, false)
    ensures notes != [] && (Last(notes).Poll? ==> error == Error(Cancelled, [], 0))
  {
  }

  lemma DoneWithoutError(model: Model, stop: seq<UnitId>, start: seq<UnitId>, notes: seq<Note>, recovering: bool, error: Error)
    requires LoopEnd(model, stop, start, notes, recovering, true, false, error)
    ensures LoopEnd(model, stop, start, notes, recovering, true, false, Error(NoError, [], 0))
  {
    hide CarriedOut, BrokenOff;
  }

  /** The outcome of a transition, for the record it leaves. */
  ghost function ErrorOf(snapshot: Snapshot): Error {
    if snapshot.failure.Some? then snapshot.failure.value.error else Error(NoError, [], 0)
  }

  lemma NothingTouched(running: set<UnitId>, rebuilt: set<UnitId>, error: Error)
    ensures Apart(running, rebuilt) ==
            Drifted(Apart(running, rebuilt), Ending(ToSet([]) + ToSet([]), FailureUnits(PlainFailure(error))))
  {
  }

  lemma LeaseRefusedMeans(model: Model, plan: Plan, before: Configuration, snapshot: Snapshot, notes: seq<Note>)
    requires LeaseRefused(before, before, snapshot, notes, [])
    ensures Terminal(snapshot.phase) && !snapshot.phase.Succeeded?
    ensures snapshot.failure == Some(PlainFailure(ErrorOf(snapshot)))
    ensures !CarriedOut(model, plan.stop, plan.start, notes, false)
  {
    hide Favourable;
    LeaseIsFine();
  }

  lemma OutdatedMeans(model: Model, before: Configuration, snapshot: Snapshot, notes: seq<Note>)
    requires Outdated(model, before, before, snapshot, notes, [])
    ensures Terminal(snapshot.phase) && !snapshot.phase.Succeeded?
    ensures snapshot.failure == Some(PlainFailure(ErrorOf(snapshot)))
  {
    hide Plannable, PlanErrors;
  }

  lemma StillPlannedMoves(model: Model, before: Configuration, request: Snapshot, plan: Plan, stopped: seq<UnitId>, started: seq<UnitId>)
    requires WellFormed(model) && before.running <= Units(model).Keys && StillPlanned(model, before, request, plan)
    requires PartOf(plan, stopped, started)
    ensures ToSet(stopped) <= before.running && ToSet(started) !! before.running && ToSet(stopped) !! ToSet(started)
  {
    hide WellFormed, UnitIndex, PlanFor, ConstraintsHold, Selects, Closed, Required, Defined;
    PlanMoves(model, before, request.domain, request.target);
    PartMoves(plan, before.running, stopped, started);
  }

  /** How far the units that run and those that would be rebuilt are apart afterwards. */
  lemma BrokeOffDrifts(model: Model, running: set<UnitId>, middle: Configuration, after: Configuration, snapshot: Snapshot,
                       stopped: seq<UnitId>, started: seq<UnitId>, notes: seq<Note>, aftermath: seq<Note>, rebuilt: set<UnitId>)
    requires WellFormed(model) && middle.running <= Units(model).Keys
    requires ToSet(stopped) <= running && ToSet(started) !! running && ToSet(stopped) !! ToSet(started)
    requires middle.running == running - ToSet(stopped) + ToSet(started)
    requires BrokeOff(model, middle, after, snapshot, notes, aftermath) && snapshot.failure.Some?
    ensures Apart(after.running, Reported(rebuilt, snapshot.failure, None)) ==
            Drifted(Apart(running, rebuilt), Ending(ToSet(stopped) + ToSet(started), FailureUnits(snapshot.failure.value)))
  {
    hide WellFormed, UnitIndex, BrokeOff, Apart, Drifted, Reported;
    BrokeOffMoves(model, middle, after, snapshot, notes, aftermath);
    EndingDrifts(running, rebuilt, stopped, started, snapshot.failure.value);
  }

  lemma LastOfBoth(a: seq<Note>, b: seq<Note>)
    requires b != []
    ensures a + b != [] && Last(a + b) == Last(b)
  {
  }

  lemma DriftBegins(drift: set<UnitId>)
    ensures Drift(drift, []) == drift
  {
  }

  lemma ApartMeans(a: set<UnitId>, b: set<UnitId>)
    ensures Apart(a, b) == {} <==> a == b
  {
    if Apart(a, b) == {} {
      assert forall x :: x in a ==> x !in a - b;
      assert forall x :: x in b ==> x !in b - a;
      assert a == b;
    }
  }

  /** The end of a transition, seen with the lease in front. */
  lemma Performed(model: Model, plan: Plan, before: Configuration, after: Configuration, snapshot: Snapshot,
                  stopped: seq<UnitId>, started: seq<UnitId>, notes: seq<Note>, aftermath: seq<Note>)
    requires WellFormed(model) && before.running - ToSet(stopped) + ToSet(started) <= Units(model).Keys
    requires LoopEnd(model, plan.stop, plan.start, notes, false, snapshot.phase.Succeeded?,
                     !snapshot.phase.Succeeded? && notes != [] && Last(notes).Poll?, ErrorOf(snapshot))
    requires var middle := before.(running := before.running - ToSet(stopped) + ToSet(started));
             !snapshot.phase.Succeeded? ==>
               BrokeOff(model, middle, after, snapshot, notes, aftermath) && ShortOf(plan, stopped, started, notes)
    ensures snapshot.phase.Succeeded? <==> CarriedOut(model, plan.stop, plan.start, [Lease(true)] + notes, false)
    ensures snapshot.phase.Succeeded? ==> !Last([Lease(true)] + notes).Poll? && !Last([Lease(true)] + notes).Clock?
    ensures var middle := before.(running := before.running - ToSet(stopped) + ToSet(started));
            !snapshot.phase.Succeeded? ==>
              && BrokeOff(model, middle, after, snapshot, [Lease(true)] + notes, aftermath)
              && ShortOf(plan, stopped, started, [Lease(true)] + notes)
  {
    hide WellFormed, UnitIndex, CarriedOut, BrokeOff, BrokenOff, LoopEnd, ShortOf;
    var middle := before.(running := before.running - ToSet(stopped) + ToSet(started));
    var succeeded := snapshot.phase.Succeeded?;
    LeaseAdds(model, plan.stop, plan.start, notes, succeeded, !succeeded && notes != [] && Last(notes).Poll?, ErrorOf(snapshot));
    if !succeeded {
      BrokeOffMeans(model, middle, after, snapshot, notes, aftermath);
      BrokeOffLater(model, middle, after, snapshot, notes, [Lease(true)] + notes, aftermath);
      ShortOfLater(plan, stopped, started, notes, [Lease(true)] + notes);
    }
  }

  lemma LeaseWasRefused(current: Configuration, snapshot: Snapshot)
    requires snapshot.failure == Some(PlainFailure(Error(DeadlineExceeded, [], 0))) && PhaseByCode(snapshot.phase, DeadlineExceeded)
    ensures LeaseRefused(current, current, snapshot, [Lease(false)], [])
  {
  }

  lemma PlanWasOutdated(model: Model, current: Configuration, snapshot: Snapshot, error: Error)
    requires snapshot.failure == Some(PlainFailure(error)) && PhaseByCode(snapshot.phase, error.code)
    requires if Plannable(model, current, snapshot.domain, snapshot.target, false) then error.code == Superseded
             else error.code in PlanErrors(model, current, snapshot.domain, snapshot.target, false) &&
                  error.code in {ConfigurationError, NotFound, InvalidTransition}
    ensures Outdated(model, current, current, snapshot, [Lease(true)], [])
  {
    hide Plannable, PlanErrors;
  }

  class ExecutionEngine {
    const model: Model
    const world: World
    var modes: Modes
    var running: set<UnitId>
    var transitions: map<TransitionId, Snapshot>
    var plans: map<TransitionId, Plan>
    var next: nat
    var journal: seq<JournalEvent>
    var asked: nat
    ghost var calls: seq<Call>
    ghost var states: seq<State>
    ghost var actions: seq<Action>

    ghost function Now(): State
      requires states != []
      reads this`states
    {
      states[|states| - 1]
    }

    /** The fields are the last state of a run of the protocol. */
    ghost predicate Coupled()
      reads this`modes, this`running, this`next, this`journal, this`transitions, this`plans, this`states, this`actions
    {
      && WellFormed(model) && states != [] && IsRun(model, states, actions)
      && running <= Units(model).Keys
      && Mirrors(Now(), modes, running, transitions, plans, next, journal)
    }

    ghost function PositionOf(id: TransitionId): Position
      requires states != [] && id in Now().transitions
      reads this`states
    {
      Now().transitions[id].position
    }

    function Current(): Configuration
      reads this`modes, this`running
    {
      Configuration(model.generation, modes, running)
    }

    /** The questions asked and the calls made so far. */
    ghost function Here(): Point
      reads this`asked, this`calls
    {
      Point(asked, calls)
    }

    lemma KnownNow(id: TransitionId)
      requires Coupled() && id in transitions
      ensures id in Now().transitions && !PositionOf(id).Interrupted?
    {
    }

    /** What holds of all runs holds now. */
    lemma InvNow()
      requires states != [] && IsRun(model, states, actions)
      ensures Inv(model, Now())
    {
      hide WellFormed, Inv, Start, Next;
      RunKeepsInvariant(model, states, actions, |states| - 1);
    }

    ghost method Take(a: Action)
      requires IsRun(model, states, actions)
      requires Now().running <= Units(model).Keys && Enabled(model, Now(), a)
      modifies this`states, this`actions
      ensures IsRun(model, states, actions) && Now() == Apply(model, old(Now()), a)
    {
      ExtendRun(model, states, actions, a);
      states, actions := states + [Apply(model, Now(), a)], actions + [a];
    }

    /** A fresh start: no journal, and the initially required units run. */
    constructor (model: Model, world: World)
      requires WellFormed(model) && Closed(model, Required(model, InitialModes(model)))
      ensures Coupled() && Idle() && this.model == model && this.world == world && Now() == Start(model)
      ensures modes == InitialModes(model) && running == Required(model, modes) && Safe(model, running)
      ensures journal == [] && calls == [] && transitions == map[] && Rebuilt(model, journal) == running
    {
      hide WellFormed, IsRun, InitialModes, Required, Closed;
      this.model, this.world := model, world;
      RequiredIsKnown(model, InitialModes(model));
      EmptyRun(model);
      BootstrapsAreRequired(model, InitialModes(model));
      modes := InitialModes(model);
      running := Required(model, InitialModes(model));
      transitions, plans, next, journal := map[], map[], 1, [];
      asked, calls, states, actions := 0, [], [Start(model)], [];
    }

    /** Appends one record and keeps the snapshot it carries; what replay would rebuild
        changes by what the record reports. */
    method Record(id: TransitionId, phase: Phase, at: int, failure: Option<Failure>, ghost position: Position, ghost a: Action)
      requires Coupled() && id in transitions && !position.Interrupted?
      requires Enabled(model, Now(), a)
      requires Apply(model, Now(), a) == Recorded(model, Now(), id, phase, at, failure, position)
      requires id in Now().transitions && (Live(PositionOf(id)) || (ReportsNothing(failure) && !phase.Succeeded?))
      modifies this`transitions, this`journal, this`states, this`actions
      ensures Coupled() && Now() == Recorded(model, old(Now()), id, phase, at, failure, position)
      ensures transitions == old(transitions[id := transitions[id].(phase := phase, updatedAt := at, failure := failure)])
      ensures OnlyMoved(old(Now()), Now(), id)
      ensures phase.Succeeded? ==> id in plans
      ensures Rebuilt(model, journal) ==
              Reported(old(Rebuilt(model, journal)), failure, if phase.Succeeded? then Some(plans[id]) else None)
    {
      hide WellFormed, IsRun, Enabled, Apply, Mirrors, Inv, Rebuilt, Reported, Live;
      MirrorsRecord(model, Now(), modes, running, transitions, plans, next, journal, id, phase, at, failure, position);
      var snapshot := transitions[id].(phase := phase, updatedAt := at, failure := failure);
      var plan := if id in plans then Some(plans[id]) else None;
      ghost var before := Now();
      MirroredPlan(before, modes, running, transitions, plans, next, journal, id);
      InvNow();
      Take(a);
      InvNow();
      RecordRebuilds(model, before, id, phase, at, failure, position);
      journal, transitions := journal + [JournalEvent(snapshot, model.generation, plan)], transitions[id := snapshot];
      MirroredPlan(Now(), modes, running, transitions, plans, next, journal, id);
    }

    /** Records that a transition has reached the next phase. */
    method Progress(id: TransitionId, phase: Phase)
      requires Coupled() && id in transitions && transitions[id].failure.None?
      requires After(PositionOf(id), transitions[id].phase, phase).Some?
      modifies this`transitions, this`journal, this`states, this`actions
      ensures Coupled() && OnlyMoved(old(Now()), Now(), id) && id in transitions
      ensures PositionOf(id) == After(old(PositionOf(id)), old(transitions[id].phase), phase).value
      ensures SameRequest(transitions[id], old(transitions[id])) && transitions[id].phase == phase && transitions[id].failure.None?
      ensures phase.Succeeded? ==> id in plans
      ensures Rebuilt(model, journal) ==
              Reported(old(Rebuilt(model, journal)), None, if phase.Succeeded? then Some(plans[id]) else None)
    {
      hide WellFormed, IsRun, UnitIndex, After, Mirrors, Apply, Enabled, Rebuilt, Reported, Live;
      KnownNow(id);
      MirrorsMove(Now(), modes, running, transitions, plans, next, journal, id, PositionOf(id));
      var at: int := *;
      PhaseStep(model, Now(), id, phase, at);
      OnlyLiveProgress(PositionOf(id), transitions[id].phase, phase);
      Record(id, phase, at, None, After(PositionOf(id), transitions[id].phase, phase).value, RecordPhase(id, phase, at));
    }

    /** A step of the protocol that changes the position of one transition only. */
    ghost method Move(id: TransitionId, position: Position, a: Action)
      requires Coupled() && id in transitions && Enabled(model, Now(), a) && !position.Interrupted?
      requires Apply(model, Now(), a) == Moved(Now(), id, position)
      modifies this`states, this`actions
      ensures Coupled() && OnlyMoved(old(Now()), Now(), id) && id in transitions && PositionOf(id) == position
    {
      hide WellFormed, IsRun, Enabled, Apply, Mirrors;
      MirrorsMove(Now(), modes, running, transitions, plans, next, journal, id, position);
      Take(a);
    }

    // -------------------------------------------------------------------
    // Questions to the outside
    // -------------------------------------------------------------------

    method IsCancelled(ghost origin: Point, ghost before: seq<Note>) returns (cancelled: bool, ghost notes: seq<Note>)
      requires Witnessed(world, origin, Here(), before)
      modifies this`asked
      ensures notes == before + [Poll(cancelled)] && Witnessed(world, origin, Here(), notes)
    {
      hide Witnessed, CallsOf;
      ghost var here := Here();
      cancelled := world.cancelled(asked);
      asked := asked + 1;
      notes := before + [Poll(cancelled)];
      WitnessedOne(world, here, Here(), Poll(cancelled));
      WitnessedBoth(world, origin, here, Here(), before, [Poll(cancelled)]);
    }

    method IsExpired(ghost origin: Point, ghost before: seq<Note>) returns (expired: bool, ghost notes: seq<Note>)
      requires Witnessed(world, origin, Here(), before)
      modifies this`asked
      ensures notes == before + [Clock(expired)] && Witnessed(world, origin, Here(), notes)
    {
      hide Witnessed, CallsOf;
      ghost var here := Here();
      expired := world.expired(asked);
      asked := asked + 1;
      notes := before + [Clock(expired)];
      WitnessedOne(world, here, Here(), Clock(expired));
      WitnessedBoth(world, origin, here, Here(), before, [Clock(expired)]);
    }

    method CallStart(unit: UnitId, ghost origin: Point, ghost before: seq<Note>) returns (answer: Answer, ghost notes: seq<Note>)
      requires Witnessed(world, origin, Here(), before)
      modifies this`asked, this`calls
      ensures calls == old(calls) + [StartCall(unit, running, answer)]
      ensures notes == before + [Answered(StartCall(unit, running, answer))] && Witnessed(world, origin, Here(), notes)
    {
      hide Witnessed, CallsOf;
      ghost var here := Here();
      answer := world.answer(asked);
      asked := asked + 1;
      ghost var call := StartCall(unit, running, answer);
      calls, notes := calls + [call], before + [Answered(call)];
      WitnessedOne(world, here, Here(), Answered(call));
      WitnessedBoth(world, origin, here, Here(), before, [Answered(call)]);
    }

    method CallStop(unit: UnitId, ghost origin: Point, ghost before: seq<Note>) returns (answer: Answer, ghost notes: seq<Note>)
      requires Witnessed(world, origin, Here(), before)
      modifies this`asked, this`calls
      ensures calls == old(calls) + [StopCall(unit, running, answer)]
      ensures notes == before + [Answered(StopCall(unit, running, answer))] && Witnessed(world, origin, Here(), notes)
    {
      hide Witnessed, CallsOf;
      ghost var here := Here();
      answer := world.answer(asked);
      asked := asked + 1;
      ghost var call := StopCall(unit, running, answer);
      calls, notes := calls + [call], before + [Answered(call)];
      WitnessedOne(world, here, Here(), Answered(call));
      WitnessedBoth(world, origin, here, Here(), before, [Answered(call)]);
    }

    /** Stops one unit: the call is made with the running set as it is, and only an
        answer that reports the unit stopped takes it out of the running set. */
    method StopUnit(id: TransitionId, unit: UnitId, ghost origin: Point, ghost before: seq<Note>)
      returns (answer: Answer, stopped: bool, ghost notes: seq<Note>)
      requires Coupled() && id in transitions && unit in Units(model)
      requires PositionOf(id).Executing? || PositionOf(id).InRecovery? || PositionOf(id).FallingBack?
      requires Witnessed(world, origin, Here(), before)
      modifies this`running, this`asked, this`calls, this`states, this`actions
      ensures Coupled() && OnlyMoved(old(Now()), Now(), id) && PositionOf(id) == old(PositionOf(id))
      ensures calls == old(calls) + [StopCall(unit, old(running), answer)]
      ensures notes == before + [Answered(StopCall(unit, old(running), answer))] && Witnessed(world, origin, Here(), notes)
      ensures stopped <==> answer.Observed? && answer.evidence.state.StoppedState?
      ensures running == if stopped then old(running) - {unit} else old(running)
    {
      hide WellFormed, IsRun, UnitIndex, Mirrors, Apply, Enabled, Witnessed;
      KnownNow(id);
      MirrorsMove(Now(), modes, running, transitions, plans, next, journal, id, PositionOf(id));
      WorkStep(model, Now(), id, unit, false);
      answer, notes := CallStop(unit, origin, before);
      stopped := answer.Observed? && answer.evidence.state.StoppedState?;
      if stopped {
        Take(Work(id, unit, false));
        running := running - {unit};
      }
    }

    /** Marks a started unit as running. */
    method MarkRunning(id: TransitionId, unit: UnitId)
      requires Coupled() && id in transitions && unit in Units(model)
      requires PositionOf(id).Executing? || PositionOf(id).InRecovery? || PositionOf(id).FallingBack?
      modifies this`running, this`states, this`actions
      ensures Coupled() && OnlyMoved(old(Now()), Now(), id) && PositionOf(id) == old(PositionOf(id))
      ensures running == old(running) + {unit}
    {
      hide WellFormed, IsRun, UnitIndex, Mirrors, Apply, Enabled;
      KnownNow(id);
      MirrorsMove(Now(), modes, running, transitions, plans, next, journal, id, PositionOf(id));
      WorkStep(model, Now(), id, unit, true);
      Take(Work(id, unit, true));
      running := running + {unit};
    }

    /** Stops a unit whose start has failed. */
    method CleanUp(unit: UnitId, before: Evidence, complaint: Error,
                   ghost origin: Point, ghost earlier: seq<Note>, ghost base: Evidence, ghost recovering: bool)
      returns (cleaned: bool, evidence: Evidence, error: Error, ghost notes: seq<Note>)
      requires unit in Units(model) && unit !in running && |earlier| % 3 == 2
      requires Witnessed(world, origin, Here(), earlier) && Trying(model, unit, earlier, recovering) && before == Shown(earlier, base)
      modifies this`asked, this`calls
      ensures Witnessed(world, origin, Here(), notes) && |notes| == |earlier| + 1 && evidence == Shown(notes, base)
      ensures cleaned ==> Trying(model, unit, notes, recovering) && error == complaint
      ensures !cleaned ==> !Favourable(notes) && Rounds(notes, unit) && StartsOnly(notes, [unit]) && BrokenOff(model, notes, error, recovering)
      ensures Last(notes).Answered?
      ensures Safe(model, running) && CallsSafe(model, old(calls)) ==> CallsSafe(model, calls)
    {
      hide UnitIndex, Safe, Witnessed, Shown, Trying, StartedIn, Favourable, Rounds, StartsOnly, BrokenOff;
      NothingDependsOnAbsent(model, running, unit);
      var answer;
      answer, notes := CallStop(unit, origin, earlier);
      ghost var stop := StopCall(unit, running, answer);
      TryingOn(model, unit, earlier, Answered(stop), recovering);
      ShownOneMore(earlier, Answered(stop), base);
      cleaned := answer.Observed? && answer.evidence.state.StoppedState?;
      evidence, error := before, complaint;
      if cleaned {
        TriesOn(model, unit, notes, recovering);
      } else {
        evidence, error := Seen(answer, before), Complaint(answer);
      }
    }

    /** The attempts to start one unit.  Every attempt is made with the same running
        set; a failed attempt is cleaned up by stopping the unit, which is not yet in
        the running set.  Only a start that reaches its state, an expired deadline, a failed
        clean-up or the last attempt ends them. */
    method StartUnit(unit: UnitId) returns (started: bool, evidence: Evidence, error: Error, ghost notes: seq<Note>)
      requires unit in Units(model) && unit !in running && Units(model)[unit].maxAttempts > 0
      modifies this`asked, this`calls
      ensures Witnessed(world, old(Here()), Here(), notes) && Tried(model, unit, notes, started, error, false)
      ensures evidence == Shown(notes, NO_EVIDENCE)
      ensures Safe(model, running) && DependenciesRun(model, running, unit) && CallsSafe(model, old(calls)) ==>
                CallsSafe(model, calls)
    {
      hide UnitIndex, Closed, Bootstraps, Witnessed, Shown, Trying, StartedIn, Favourable, Rounds, StartsOnly, BrokenOff, Safe, DependenciesRun;
      NothingDependsOnAbsent(model, running, unit);
      var definition := Units(model)[unit];
      evidence, error, started := NO_EVIDENCE, Error(BackendError, [], 0), false;
      ghost var origin := Here();
      notes := [];
      WitnessedNothing(world, origin);
      TryingBegins(model, unit, false);
      assert evidence == Shown(notes, NO_EVIDENCE) by { NothingShown(); }
      var attempt := 1;
      while attempt <= definition.maxAttempts
        invariant !started && 1 <= attempt <= definition.maxAttempts && |notes| == 3 * (attempt - 1)
        invariant Witnessed(world, origin, Here(), notes) && Trying(model, unit, notes, false)
        invariant evidence == Shown(notes, NO_EVIDENCE)
        invariant Safe(model, running) && DependenciesRun(model, running, unit) && CallsSafe(model, old(calls)) ==>
                    CallsSafe(model, calls)
      {
        ghost var before := notes;
        var expired;
        expired, notes := IsExpired(origin, notes);
        TryingOn(model, unit, before, Clock(expired), false);
        ShownOneMore(before, Clock(expired), NO_EVIDENCE);
        if expired {
          error := Error(DeadlineExceeded, [], 0);
          return;
        }
        assert Trying(model, unit, notes, false) by { TriesOn(model, unit, notes, false); }
        before := notes;
        var answer;
        answer, notes := CallStart(unit, origin, notes);
        ghost var start := StartCall(unit, running, answer);
        TryingOn(model, unit, before, Answered(start), false);
        ShownOneMore(before, Answered(start), NO_EVIDENCE);
        evidence := Seen(answer, evidence);
        if answer.Observed? && Reached(definition.readiness, evidence.state) {
          started := true;
          return;
        }
        error := Complaint(answer);
        if attempt == definition.maxAttempts {
          return;
        }
        assert Trying(model, unit, notes, false) by { TriesOn(model, unit, notes, false); }
        var cleaned;
        cleaned, evidence, error, notes := CleanUp(unit, evidence, error, origin, notes, NO_EVIDENCE, false);
        if !cleaned {
          return;
        }
        attempt := attempt + 1;
      }
    }

    /** The attempts to start one unit during recovery.  An expired deadline is not blamed
        on the unit. */
    method RestartUnit(unit: UnitId, before: Evidence)
      returns (started: bool, evidence: Evidence, error: Error, blamed: bool, ghost notes: seq<Note>)
      requires unit in Units(model) && unit !in running && Units(model)[unit].maxAttempts > 0
      modifies this`asked, this`calls
      ensures Witnessed(world, old(Here()), Here(), notes) && Tried(model, unit, notes, started, error, true)
      ensures !started ==> (blamed <==> !Last(notes).Clock?)
      ensures evidence == Shown(notes, before)
      ensures Safe(model, running) && DependenciesRun(model, running, unit) && CallsSafe(model, old(calls)) ==>
                CallsSafe(model, calls)
    {
      hide UnitIndex, Closed, Bootstraps, Witnessed, Shown, Trying, StartedIn, Favourable, Rounds, StartsOnly, BrokenOff, Safe, DependenciesRun;
      NothingDependsOnAbsent(model, running, unit);
      var definition := Units(model)[unit];
      evidence, error, blamed, started := before, Error(BackendError, [], 0), true, false;
      ghost var origin := Here();
      notes := [];
      WitnessedNothing(world, origin);
      TryingBegins(model, unit, true);
      assert evidence == Shown(notes, before) by { NothingShown(); }
      var attempt := 1;
      while attempt <= definition.maxAttempts
        invariant !started && blamed && 1 <= attempt <= definition.maxAttempts + 1
        invariant attempt <= definition.maxAttempts ==> |notes| == 3 * (attempt - 1)
        invariant attempt > definition.maxAttempts ==>
                    |notes| == 3 * definition.maxAttempts - 1 && BrokenOff(model, notes, error, true) && Last(notes).Answered?
        invariant Witnessed(world, origin, Here(), notes) && Trying(model, unit, notes, true)
        invariant evidence == Shown(notes, before)
        invariant Safe(model, running) && DependenciesRun(model, running, unit) && CallsSafe(model, old(calls)) ==>
                    CallsSafe(model, calls)
      {
        ghost var earlier := notes;
        var expired;
        expired, notes := IsExpired(origin, notes);
        TryingOn(model, unit, earlier, Clock(expired), true);
        ShownOneMore(earlier, Clock(expired), before);
        if expired {
          error, blamed := Error(DeadlineExceeded, [], 0), false;
          return;
        }
        assert Trying(model, unit, notes, true) by { TriesOn(model, unit, notes, true); }
        earlier := notes;
        var answer;
        answer, notes := CallStart(unit, origin, notes);
        ghost var start := StartCall(unit, running, answer);
        TryingOn(model, unit, earlier, Answered(start), true);
        ShownOneMore(earlier, Answered(start), before);
        evidence, error := Seen(answer, evidence), Complaint(answer);
        if answer.Observed? && ReachedInRecovery(definition.readiness, evidence.state) {
          started := true;
          return;
        }
        assert Trying(model, unit, notes, true) by { TriesOn(model, unit, notes, true); }
        if attempt < definition.maxAttempts {
          var cleaned;
          cleaned, evidence, error, notes := CleanUp(unit, evidence, error, origin, notes, before, true);
          if !cleaned {
            return;
          }
        }
        attempt := attempt + 1;
      }
      TryingMeans(model, unit, notes, true);
    }

    // -------------------------------------------------------------------
    // Carrying out a plan
    // -------------------------------------------------------------------

    /** What a loop over stops or starts keeps of the surroundings. */
    ghost predicate Working(id: TransitionId, before: State)
      reads this`modes, this`running, this`next, this`journal, this`transitions, this`plans, this`states, this`actions
    {
      && Coupled() && id in transitions && before.transitions.Keys == Now().transitions.Keys && id in before.transitions
      && OnlyMoved(before, Now(), id) && Now().leases == before.leases && PositionOf(id) == before.transitions[id].position
      && (PositionOf(id).Executing? || PositionOf(id).InRecovery? || PositionOf(id).FallingBack?)
    }

    /** Nothing has happened yet. */
    ghost method WorkBegins(id: TransitionId)
      requires Coupled() && id in transitions
      requires PositionOf(id).Executing? || PositionOf(id).InRecovery? || PositionOf(id).FallingBack?
      ensures Working(id, Now())
    {
      hide WellFormed, IsRun, UnitIndex, Mirrors, OnlyMoved;
      MovedNothing(Now(), id);
      KnownNow(id);
    }

    method StopNext(id: TransitionId, unit: UnitId, ghost first: State, ghost origin: Point, ghost before: seq<Note>)
      returns (answer: Answer, stopped: bool, ghost notes: seq<Note>)
      requires Working(id, first) && unit in Units(model) && Witnessed(world, origin, Here(), before)
      modifies this`running, this`asked, this`calls, this`states, this`actions
      ensures Working(id, first)
      ensures calls == old(calls) + [StopCall(unit, old(running), answer)]
      ensures notes == before + [Answered(StopCall(unit, old(running), answer))] && Witnessed(world, origin, Here(), notes)
      ensures stopped <==> answer.Observed? && answer.evidence.state.StoppedState?
      ensures running == if stopped then old(running) - {unit} else old(running)
    {
      hide WellFormed, IsRun, UnitIndex, Mirrors, OnlyMoved, Witnessed;
      ghost var now := Now();
      answer, stopped, notes := StopUnit(id, unit, origin, before);
      MovedTwice(first, now, Now(), id);
    }

    /** The stop loop of a transition; `cancellable` loops test for cancellation. */
    method StopUnits(id: TransitionId, stop: seq<UnitId>, cancellable: bool, before: Evidence, ghost required: set<UnitId>)
      returns (done: bool, cancelled: bool, error: Error, failed: Option<UnitId>, evidence: Evidence, stopped: seq<UnitId>,
               ghost notes: seq<Note>)
      requires Coupled() && id in transitions
      requires PositionOf(id).Executing? || PositionOf(id).InRecovery? || PositionOf(id).FallingBack?
      requires Closed(model, required) && Bootstraps(model) <= required
      requires stop == StopList(model, running, required)
      modifies this`running, this`asked, this`calls, this`states, this`actions
      ensures Working(id, old(Now()))
      ensures Witnessed(world, old(Here()), Here(), notes) && StartsOnly(notes, [])
      ensures LoopEnd(model, stop, [], notes, !cancellable, done, cancelled, error)
      ensures cancelled ==> cancellable && !done
      ensures stopped <= stop && (done ==> stopped == stop && failed == None && evidence == before)
      ensures !done ==> ShortOfStop(stop, stopped, notes)
      ensures !done && !cancelled ==> failed == Some(stop[|stopped|]) && evidence == Seen(Last(notes).call.answer, before)
      ensures running == old(running) - ToSet(stopped)
      ensures old(Safe(model, running) && CallsSafe(model, calls)) ==> Safe(model, running) && CallsSafe(model, calls)
    {
      hide WellFormed, IsRun, UnitIndex, StopList, Safe, Closed, Bootstraps, NoDependents, Mirrors, OnlyMoved, Working, Witnessed, StopsDone, StartsOnly, Favourable, StoppedIn, BrokenOff;
      error, failed, evidence := Error(NoError, [], 0), None, before;
      ghost var ran := running;
      ghost var safe := Safe(model, running) && CallsSafe(model, calls);
      ghost var start := Now();
      ghost var origin := Here();
      StopListIsKnown(model, running, required);
      done, cancelled, stopped, notes := false, false, [], [];
      WorkBegins(id);
      WitnessedNothing(world, origin);
      StopsBegin(stop);
      for i := 0 to |stop|
        invariant Working(id, start)
        invariant Witnessed(world, origin, Here(), notes) && StopsDone(stop, i, notes)
        invariant stopped == stop[..i] && running == ran - ToSet(stop[..i])
        invariant safe ==> Safe(model, running) && CallsSafe(model, calls)
      {
        ghost var earlier, polled: seq<Note> := notes, [];
        StopsMean(stop, i, notes);
        if cancellable {
          cancelled, notes := IsCancelled(origin, notes);
          if cancelled {
            CancelBreaks(model, earlier, [], false);
            error := Error(Cancelled, [], 0);
            return;
          }
          polled := [Poll(false)];
        }
        assert notes == earlier + polled;
        if safe {
          StopsStaySafe(model, ran, required, i);
          StopsStaySafe(model, ran, required, i + 1);
        }
        ghost var found := running;
        var answer, ok;
        answer, ok, notes := StopNext(id, stop[i], start, origin, notes);
        StopAdds(model, !cancellable, stop, i, earlier, polled, StopCall(stop[i], found, answer));
        if !ok {
          failed, error, evidence := Some(stop[i]), Complaint(answer), Seen(answer, before);
          return;
        }
        stopped := stopped + [stop[i]];
        assert stop[..i + 1] == stop[..i] + [stop[i]];
      }
      done := true;
      StopsMean(stop, |stop|, notes);
      StopsEnd(model, stop, notes, !cancellable, error);
    }

    /** One unit of the start loop: it joins the running set when it has started. */
    method StartOne(id: TransitionId, unit: UnitId, recovering: bool, before: Evidence)
      returns (ok: bool, evidence: Evidence, error: Error, blamed: bool, ghost notes: seq<Note>)
      requires Coupled() && id in transitions && unit in Units(model) && unit !in running
      requires PositionOf(id).Executing? || PositionOf(id).InRecovery? || PositionOf(id).FallingBack?
      modifies this`running, this`asked, this`calls, this`states, this`actions
      ensures Coupled() && OnlyMoved(old(Now()), Now(), id) && PositionOf(id) == old(PositionOf(id))
      ensures running == if ok then old(running) + {unit} else old(running)
      ensures Witnessed(world, old(Here()), Here(), notes) && Tried(model, unit, notes, ok, error, recovering)
      ensures !ok ==> (blamed <==> !recovering || !Last(notes).Clock?)
      ensures evidence == Shown(notes, if recovering then before else NO_EVIDENCE)
      ensures old(Safe(model, running) && DependenciesRun(model, running, unit) && CallsSafe(model, calls)) ==>
                CallsSafe(model, calls)
    {
      hide WellFormed, IsRun, UnitIndex, Safe, DependenciesRun, CallsSafe, Mirrors, OnlyMoved, Apply, Enabled, Witnessed, Shown, StartedIn, Favourable, Rounds, StartsOnly, BrokenOff;
      MovedNothing(Now(), id);
      AttemptsAreAllowed(model);
      if recovering {
        ok, evidence, error, blamed, notes := RestartUnit(unit, before);
      } else {
        ok, evidence, error, notes := StartUnit(unit);
        blamed := true;
      }
      if ok {
        MarkRunning(id, unit);
      }
    }

    method StartNext(id: TransitionId, unit: UnitId, recovering: bool, before: Evidence, ghost first: State)
      returns (ok: bool, evidence: Evidence, error: Error, blamed: bool, ghost notes: seq<Note>)
      requires Working(id, first) && unit in Units(model) && unit !in running
      modifies this`running, this`asked, this`calls, this`states, this`actions
      ensures Working(id, first)
      ensures running == if ok then old(running) + {unit} else old(running)
      ensures Witnessed(world, old(Here()), Here(), notes) && Tried(model, unit, notes, ok, error, recovering)
      ensures !ok ==> notes != [] && (blamed <==> !recovering || !Last(notes).Clock?)
      ensures !ok ==> (Last(notes).Answered? ==> Last(notes).call.unit == unit)
      ensures old(Safe(model, running) && DependenciesRun(model, running, unit) && CallsSafe(model, calls)) ==>
                CallsSafe(model, calls)
    {
      hide WellFormed, IsRun, UnitIndex, Safe, DependenciesRun, CallsSafe, Mirrors, OnlyMoved, Witnessed, Tried, Shown;
      ghost var now := Now();
      ok, evidence, error, blamed, notes := StartOne(id, unit, recovering, before);
      TriedSomething(model, unit, notes, ok, error, recovering);
      TriedIts(model, unit, notes, ok, error, recovering);
      MovedTwice(first, now, Now(), id);
    }

    /** The start loop of a transition, or of a recovery. */
    method StartUnits(id: TransitionId, start: seq<UnitId>, recovering: bool, before: Evidence, ghost required: set<UnitId>)
      returns (done: bool, cancelled: bool, error: Error, failed: Option<UnitId>, evidence: Evidence, started: seq<UnitId>,
               ghost notes: seq<Note>)
      requires Coupled() && id in transitions
      requires PositionOf(id).Executing? || PositionOf(id).InRecovery? || PositionOf(id).FallingBack?
      requires required <= Units(model).Keys && Closed(model, required) && Bootstraps(model) <= required
      requires running <= required && start == StartList(model, running, required)
      modifies this`running, this`asked, this`calls, this`states, this`actions
      ensures Working(id, old(Now()))
      ensures Witnessed(world, old(Here()), Here(), notes)
      ensures LoopEnd(model, [], start, notes, recovering, done, cancelled, error)
      ensures cancelled ==> !recovering && !done
      ensures started <= start && (done ==> started == start && failed == None)
      ensures !done ==> ShortOfStart(start, started, notes)
      ensures !done && !cancelled ==> failed == if recovering && Last(notes).Clock? then None else Some(start[|started|])
      ensures running == old(running) + ToSet(started)
      ensures old(Safe(model, running) && CallsSafe(model, calls)) ==> Safe(model, running) && CallsSafe(model, calls)
    {
      hide WellFormed, IsRun, UnitIndex, StartList, Safe, Closed, Bootstraps, DependenciesRun, Mirrors, OnlyMoved, CallsSafe, Working, Witnessed, StartsDone, StartsOnly, Favourable, StartedIn, BrokenOff, Tried, CarriedOut;
      error, failed, evidence := Error(NoError, [], 0), None, before;
      ghost var ran := running;
      ghost var safe := Safe(model, running) && CallsSafe(model, calls);
      ghost var first := Now();
      ghost var origin := Here();
      assert ran * required == ran;
      done, cancelled, started, notes := false, false, [], [];
      WorkBegins(id);
      WitnessedNothing(world, origin);
      StartsBegin(model, start, recovering);
      for i := 0 to |start|
        invariant Working(id, first)
        invariant Witnessed(world, origin, Here(), notes) && StartsDone(model, start, i, notes, recovering)
        invariant started == start[..i] && running == ran + ToSet(start[..i])
        invariant safe ==> Safe(model, running) && CallsSafe(model, calls)
      {
        ghost var earlier, polled: seq<Note> := notes, [];
        StartsMean(model, start, i, notes, recovering);
        if !recovering {
          cancelled, notes := IsCancelled(origin, notes);
          if cancelled {
            CancelBreaks(model, earlier, start[..i], recovering);
            CancelledEnd(model, start, notes, recovering);
            error := Error(Cancelled, [], 0);
            return;
          }
          polled := [Poll(false)];
        }
        assert notes == earlier + polled;
        if safe {
          StartsStaySafe(model, ran, required, i);
          StartsStaySafe(model, ran, required, i + 1);
        }
        StartListIsNew(model, ran, required, i);
        ghost var middle := Here();
        var ok, blamed;
        ghost var tried;
        ok, evidence, error, blamed, tried := StartNext(id, start[i], recovering, evidence, first);
        WitnessedBoth(world, origin, middle, Here(), notes, tried);
        notes := notes + tried;
        StartAdds(model, start, i, earlier, polled, tried, ok, error, recovering);
        if !ok {
          failed := if blamed then Some(start[i]) else None;
          TriedEnd(model, start, notes, tried, start[i], error, recovering);
          return;
        }
        started := started + [start[i]];
        assert start[..i + 1] == start[..i] + [start[i]];
      }
      done := true;
      StartsEnd(model, start, notes, recovering, error);
    }

    // -------------------------------------------------------------------
    // Ending a transition
    // -------------------------------------------------------------------

    /** Gives up the lease, if any, of a transition with a terminal record. */
    ghost method Finish(id: TransitionId)
      requires Coupled() && id in transitions && PositionOf(id).Finished?
      modifies this`states, this`actions
      ensures Coupled() && id in Now().transitions && PositionOf(id).Finished?
      ensures Now().leases == old(Now().leases) - {id} && Now().transitions == old(Now().transitions)
    {
      hide WellFormed, IsRun, UnitIndex, Mirrors, Apply, Enabled;
      KnownNow(id);
      MirrorsMove(Now(), modes, running, transitions, plans, next, journal, id, PositionOf(id));
      ReleaseStep(model, Now(), id);
      Take(Release(id));
    }

    /** Records the terminal failure that was decided on. */
    method RecordDecision(id: TransitionId, failure: Failure)
      requires Coupled() && id in transitions && PositionOf(id) == Failing(failure) && failure.stopped == [] && failure.started == []
      modifies this`transitions, this`journal, this`states, this`actions
      ensures Coupled() && id in transitions && PositionOf(id).Finished?
      ensures Now().leases == old(Now().leases) - {id}
      ensures SameRequest(transitions[id], old(transitions[id]))
      ensures transitions[id].failure == Some(failure) && Rebuilt(model, journal) == old(Rebuilt(model, journal))
      ensures transitions[id].phase ==
              match failure.error.code
              case Cancelled => PhaseCancelled
              case DeadlineExceeded => PhaseDeadlineExceeded
              case Superseded => PhaseSuperseded
              case _ => Failed
    {
      hide WellFormed, IsRun, UnitIndex, FailurePhase, Mirrors, Apply, Enabled, Rebuilt;
      KnownNow(id);
      MirrorsMove(Now(), modes, running, transitions, plans, next, journal, id, PositionOf(id));
      var at: int := *;
      FailureStep(model, Now(), id, failure, at);
      FailurePhaseMeans(failure.error.code);
      Record(id, FailurePhase(failure.error.code), at, Some(failure), Finished, RecordFailure(id, at));
      Finish(id);
    }

    /** `Fail` for a transition that has begun to execute. */
    method Fail(id: TransitionId, error: Error, application: Option<UnitId>, evidence: Evidence)
      requires Coupled() && id in transitions && PositionOf(id).Executing?
      modifies this`transitions, this`journal, this`states, this`actions
      ensures Coupled() && id in transitions && PositionOf(id).Finished?
      ensures Now().leases == old(Now().leases) - {id}
      ensures SameRequest(transitions[id], old(transitions[id]))
      ensures transitions[id].failure == Some(PlainFailure(error).(application := application, evidence := evidence))
      ensures Rebuilt(model, journal) == old(Rebuilt(model, journal))
      ensures transitions[id].phase ==
              match error.code
              case Cancelled => PhaseCancelled
              case DeadlineExceeded => PhaseDeadlineExceeded
              case Superseded => PhaseSuperseded
              case _ => Failed
    {
      hide WellFormed, IsRun, UnitIndex, FailurePhase, Mirrors, Apply, Enabled, Rebuilt;
      var failure := PlainFailure(error).(application := application, evidence := evidence);
      KnownNow(id);
      MirrorsMove(Now(), modes, running, transitions, plans, next, journal, id, PositionOf(id));
      FailureStep(model, Now(), id, failure, 0);
      Move(id, Failing(failure), Abandon(id, failure));
      RecordDecision(id, failure);
    }

    /** The stops and starts of a recovery plan, and what the report says of them. */
    method ApplyRecoveryPlan(id: TransitionId, stop: seq<UnitId>, start: seq<UnitId>, failure: Failure, ghost required: set<UnitId>)
      returns (ok: bool, error: Error, report: Failure, ghost notes: seq<Note>)
      requires Coupled() && id in transitions
      requires PositionOf(id).InRecovery? || PositionOf(id).FallingBack?
      requires required <= Units(model).Keys && Closed(model, required) && Bootstraps(model) <= required
      requires stop == StopList(model, running, required)
      requires start == [] || start == StartList(model, running * required, required)
      modifies this`running, this`asked, this`calls, this`states, this`actions
      ensures Working(id, old(Now()))
      ensures Witnessed(world, old(Here()), Here(), notes) && LoopEnd(model, stop, start, notes, true, ok, false, error)
      ensures report == failure.(application := report.application, evidence := report.evidence,
                                 stopped := report.stopped, started := report.started)
      ensures KnownUnits(model, report.stopped) && KnownUnits(model, report.started)
      ensures report.stopped <= stop && report.started <= start && (report.started != [] ==> report.stopped == stop)
      ensures running == old(running) - ToSet(report.stopped) + ToSet(report.started)
      ensures ok ==> report.stopped == stop && report.started == start && report.application == failure.application
      ensures ok ==> running == old(running) * required + ToSet(start)
      ensures !ok && report.stopped != stop ==> report.application == Some(stop[|report.stopped|])
      ensures !ok && report.stopped == stop && !Last(notes).Clock? ==>
              |report.started| < |start| && report.application == Some(start[|report.started|])
      ensures old(Safe(model, running) && CallsSafe(model, calls)) ==> Safe(model, running) && CallsSafe(model, calls)
    {
      hide WellFormed, IsRun, UnitIndex, StopList, StartList, Safe, Closed, Bootstraps, Mirrors, OnlyMoved, CallsSafe, Witnessed, LoopEnd, StartsOnly;
      ghost var first := Now();
      ghost var origin := Here();
      var done, cancelled, failed, evidence, stopped;
      StopListIsExact(model, running, required);
      done, cancelled, error, failed, evidence, stopped, notes := StopUnits(id, stop, false, failure.evidence, required);
      PrefixIsKnown(model, stop, stopped);
      LoopEndMeans(model, stop, [], notes, true, done, cancelled, error);
      report := failure.(stopped := stopped, started := [], evidence := evidence,
                         application := if failed.Some? then failed else failure.application);
      if !done {
        FirstEnds(model, stop, start, notes, true, cancelled, error);
        ok := false;
        return;
      }
      if start == [] {
        ok := true;
        return;
      }
      ghost var second := Now();
      ghost var middle := Here();
      StartListIsExact(model, running, required);
      var started, late;
      ghost var starts;
      done, cancelled, late, failed, evidence, started, starts := StartUnits(id, start, true, evidence, required);
      PrefixIsKnown(model, start, started);
      MovedTwice(first, second, Now(), id);
      WitnessedBoth(world, origin, middle, Here(), notes, starts);
      BothEnd(model, stop, start, notes, starts, true, done, cancelled, error, late);
      LoopEndMeans(model, [], start, starts, true, done, cancelled, late);
      report := report.(started := started, evidence := evidence,
                        application := if failed.Some? then failed else failure.application);
      notes, error, ok := notes + starts, late, done;
    }

    /** The final record of a recovery that left the committed modes alone. */
    method EndRecovery(id: TransitionId, failure: Failure, succeeded: bool)
      requires Coupled() && id in transitions && ReportsNoMode(model, failure)
      requires if succeeded then PositionOf(id).InRecovery? && Recovery(model, transitions[id].domain) in {StopDomain, RequestSystemRecovery}
               else PositionOf(id).InRecovery? || PositionOf(id).FallingBack?
      modifies this`transitions, this`journal, this`states, this`actions
      ensures Coupled() && id in transitions && PositionOf(id).Finished?
      ensures Now().leases == old(Now().leases) - {id}
      ensures SameRequest(transitions[id], old(transitions[id])) && transitions[id].failure == Some(failure)
      ensures transitions[id].phase == if succeeded then Failed else RecoveryFailed
      ensures Rebuilt(model, journal) == Reported(old(Rebuilt(model, journal)), Some(failure), None)
    {
      hide WellFormed, IsRun, UnitIndex, DomainIndex, KnownUnits, Recovery, Mirrors, Apply, Enabled, Rebuilt, Reported;
      KnownNow(id);
      MirrorsMove(Now(), modes, running, transitions, plans, next, journal, id, PositionOf(id));
      var at: int := *;
      RecoveryEndStep(model, Now(), id, failure, at);
      if succeeded {
        Record(id, Failed, at, Some(failure), Finished, RecordRecovered(id, failure, at));
      } else {
        Record(id, RecoveryFailed, at, Some(failure), Finished, RecordRecoveryFailed(id, failure, at));
      }
      Finish(id);
    }

    /** Commits the fallback mode and records it. */
    method EndInFallback(id: TransitionId, failure: Failure)
      requires Coupled() && id in transitions && PositionOf(id).FallingBack?
      requires KnownUnits(model, failure.stopped) && KnownUnits(model, failure.started)
      requires failure.recoveredMode == Some(Fallback(model, transitions[id].domain))
      modifies this`modes, this`transitions, this`journal, this`states, this`actions
      ensures Coupled() && id in transitions && PositionOf(id).Finished?
      ensures Now().leases == old(Now().leases) - {id}
      ensures modes == old(modes[transitions[id].domain := Fallback(model, transitions[id].domain)])
      ensures SameRequest(transitions[id], old(transitions[id])) && transitions[id].failure == Some(failure)
      ensures transitions[id].phase == Failed
      ensures Rebuilt(model, journal) == Reported(old(Rebuilt(model, journal)), Some(failure), None)
    {
      hide WellFormed, IsRun, UnitIndex, DomainIndex, KnownUnits, Fallback, Recovery, Apply, Enabled, Mirrors, Rebuilt, Reported;
      KnownNow(id);
      MirrorsMove(Now(), modes, running, transitions, plans, next, journal, id, PositionOf(id));
      var domain := transitions[id].domain;
      var at: int := *;
      FallbackSteps(model, Now(), id, failure, at);
      Take(CommitFallback(id));
      modes := modes[domain := Fallback(model, domain)];
      MirrorsMove(Now(), modes, running, transitions, plans, next, journal, id, PositionOf(id));
      FallbackSteps(model, Now(), id, failure, at);
      Record(id, Failed, at, Some(failure), Finished, RecordRecovered(id, failure, at));
      Finish(id);
    }

    /** Carries out a fallback plan: the mode is committed only when the units it
        requires, and no others, run. */
    method CarryOutFallback(id: TransitionId, failure: Failure, plan: Plan) returns (ghost notes: seq<Note>)
      requires Coupled() && id in transitions && PositionOf(id).FallingBack? && NewReport(failure)
      requires Plannable(model, Current(), transitions[id].domain, Fallback(model, transitions[id].domain), true)
      requires transitions[id].domain in modes
      requires plan == PlanFor(model, Current(), transitions[id].domain, Fallback(model, transitions[id].domain))
      requires Closed(model, Required(model, modes[transitions[id].domain := Fallback(model, transitions[id].domain)]))
      modifies this`modes, this`running, this`asked, this`calls, this`transitions, this`journal, this`states, this`actions
      ensures Coupled() && id in transitions && PositionOf(id).Finished?
      ensures Now().leases == old(Now().leases) - {id}
      ensures SameRequest(transitions[id], old(transitions[id])) && transitions[id].failure.Some?
      ensures SameFailure(transitions[id].failure.value, failure)
      ensures Witnessed(world, old(Here()), Here(), notes)
      ensures FellBackTo(model, old(Current()), Current(), transitions[id], notes, Fallback(model, transitions[id].domain))
      ensures transitions[id].phase == Failed ==> running == Required(model, modes)
      ensures Rebuilt(model, journal) == Reported(old(Rebuilt(model, journal)), transitions[id].failure, None)
      ensures old(Safe(model, running) && CallsSafe(model, calls)) ==> Safe(model, running) && CallsSafe(model, calls)
    {
      hide WellFormed, IsRun, UnitIndex, KnownUnits, Fallback, Required, Closed, Safe, CallsSafe, StopList, StartList, Plannable, PlanFor, Mirrors, Apply, Enabled, OnlyMoved, Witnessed, LoopEnd, CarriedOut, BrokenOff, Rebuilt, Reported;
      var domain := transitions[id].domain;
      ghost var required := Required(model, modes[domain := Fallback(model, domain)]);
      PlanListsAre(model, Current(), domain, Fallback(model, domain));
      var ok, error, report;
      ok, error, report, notes := ApplyRecoveryPlan(id, plan.stop, plan.start, failure, required);
      LoopEndMeans(model, plan.stop, plan.start, notes, true, ok, false, error);
      if ok {
        EndInFallback(id, report.(recoverySucceeded := true, recoveredMode := Some(Fallback(model, domain))));
      } else {
        EndRecovery(id, report.(recoveryError := Some(error)), false);
      }
    }

    /** Recovery into the fallback mode. */
    method RecoverToFallback(id: TransitionId, failure: Failure) returns (ghost notes: seq<Note>)
      requires Coupled() && id in transitions && PositionOf(id).InRecovery?
      requires Recovery(model, transitions[id].domain).EnterFallbackMode? && NewReport(failure)
      modifies this`modes, this`running, this`asked, this`calls, this`transitions, this`journal, this`states, this`actions
      ensures Coupled() && id in transitions && PositionOf(id).Finished?
      ensures Now().leases == old(Now().leases) - {id}
      ensures SameRequest(transitions[id], old(transitions[id])) && transitions[id].failure.Some?
      ensures SameFailure(transitions[id].failure.value, failure)
      ensures Witnessed(world, old(Here()), Here(), notes)
      ensures FellBackTo(model, old(Current()), Current(), transitions[id], notes, Fallback(model, transitions[id].domain))
      ensures transitions[id].phase == Failed ==>
                && old(transitions[id].domain in modes) && Defined(model, transitions[id].domain, Fallback(model, transitions[id].domain))
                && running == Required(model, modes)
      ensures Rebuilt(model, journal) == Reported(old(Rebuilt(model, journal)), transitions[id].failure, None)
      ensures old(Safe(model, running) && CallsSafe(model, calls)) ==> Safe(model, running) && CallsSafe(model, calls)
    {
      hide WellFormed, IsRun, UnitIndex, KnownUnits, Fallback, Required, Closed, Safe, CallsSafe, PlanFor, PlanErrors, Mirrors, Apply, Enabled, Recovery, ConstraintsHold, Selects, Defined, Witnessed, CarriedOut, BrokenOff, Rebuilt;
      var domain := transitions[id].domain;
      var planned := BuildPlan(model, Current(), domain, Fallback(model, domain), true);
      if planned.Err? {
        notes := [];
        WitnessedNothing(world, Here());
        NoUnitsAreKnown(model);
        EndRecovery(id, failure.(recoveryError := Some(Error(planned.error, [], 0))), false);
        return;
      }
      MirrorsMove(Now(), modes, running, transitions, plans, next, journal, id, FallingBack);
      ReconcileStep(model, Now(), id);
      Move(id, FallingBack, Reconcile(id));
      notes := CarryOutFallback(id, failure, planned.value);
    }

    /** Stops the units that only the domain still needs. */
    method StopDomainNow(id: TransitionId, failure: Failure, stop: seq<UnitId>) returns (ghost notes: seq<Note>)
      requires Coupled() && id in transitions && PositionOf(id).InRecovery?
      requires Recovery(model, transitions[id].domain).StopDomain? && NewReport(failure)
      requires Stoppable(model, Current(), transitions[id].domain)
      requires Closed(model, Required(model, modes - {transitions[id].domain}))
      requires stop == OrderOf(model, running - Required(model, modes - {transitions[id].domain}), true)
      modifies this`running, this`asked, this`calls, this`transitions, this`journal, this`states, this`actions
      ensures Coupled() && id in transitions && PositionOf(id).Finished?
      ensures Now().leases == old(Now().leases) - {id}
      ensures SameRequest(transitions[id], old(transitions[id])) && transitions[id].failure.Some?
      ensures SameFailure(transitions[id].failure.value, failure)
      ensures Witnessed(world, old(Here()), Here(), notes)
      ensures StoppedDomain(model, old(Current()), Current(), transitions[id], notes)
      ensures transitions[id].phase == Failed ==> running == old(running * Required(model, modes - {transitions[id].domain}))
      ensures Rebuilt(model, journal) == Reported(old(Rebuilt(model, journal)), transitions[id].failure, None)
      ensures old(Safe(model, running) && CallsSafe(model, calls)) ==> Safe(model, running) && CallsSafe(model, calls)
    {
      hide WellFormed, IsRun, UnitIndex, KnownUnits, Required, Closed, Safe, CallsSafe, StopList, StartList, Mirrors, Apply, Enabled, Recovery, Defined, OrderOf, Bootstraps, OnlyMoved, Witnessed, LoopEnd, CarriedOut, BrokenOff, Rebuilt, Reported, Stoppable;
      ghost var domain := transitions[id].domain;
      ghost var required := Required(model, modes - {domain});
      RequiredIsKnown(model, modes - {domain});
      BootstrapsAreRequired(model, modes - {domain});
      StopListIs(model, running, required);
      assert running * required + ToSet([]) == running * required;
      var ok, error, report;
      ok, error, report, notes := ApplyRecoveryPlan(id, stop, [], failure, required);
      LoopEndMeans(model, stop, [], notes, true, ok, false, error);
      EndRecovery(id, report.(recoverySucceeded := ok,
                              recoveryError := if ok then None else Some(error)), ok);
    }

    /** Recovery that stops what only the domain still needs. */
    method RecoverByStopping(id: TransitionId, failure: Failure) returns (ghost notes: seq<Note>)
      requires Coupled() && id in transitions && PositionOf(id).InRecovery?
      requires Recovery(model, transitions[id].domain).StopDomain? && NewReport(failure)
      modifies this`running, this`asked, this`calls, this`transitions, this`journal, this`states, this`actions
      ensures Coupled() && id in transitions && PositionOf(id).Finished?
      ensures Now().leases == old(Now().leases) - {id}
      ensures SameRequest(transitions[id], old(transitions[id])) && transitions[id].failure.Some?
      ensures SameFailure(transitions[id].failure.value, failure)
      ensures Witnessed(world, old(Here()), Here(), notes)
      ensures StoppedDomain(model, old(Current()), Current(), transitions[id], notes)
      ensures transitions[id].phase == Failed ==> running == old(running * Required(model, modes - {transitions[id].domain}))
      ensures Rebuilt(model, journal) == Reported(old(Rebuilt(model, journal)), transitions[id].failure, None)
      ensures old(Safe(model, running) && CallsSafe(model, calls)) ==> Safe(model, running) && CallsSafe(model, calls)
    {
      hide WellFormed, IsRun, UnitIndex, KnownUnits, Required, Closed, Safe, CallsSafe, StopList, StartList, Mirrors, Apply, Enabled, Recovery, Defined, OrderOf, Bootstraps, OnlyMoved, Witnessed, CarriedOut, BrokenOff, Rebuilt;
      var domain := transitions[id].domain;
      var list := StopDomainUnits(model, Current(), domain);
      if list.Err? {
        notes := [];
        WitnessedNothing(world, Here());
        NoUnitsAreKnown(model);
        EndRecovery(id, failure.(recoveryError := Some(Error(list.error, [], 0))), false);
        return;
      }
      notes := StopDomainNow(id, failure, list.value);
    }

    /** The request for system recovery, and its answer. */
    method AskForRecovery(id: TransitionId, failure: Failure) returns (ghost notes: seq<Note>)
      requires Coupled() && id in transitions && PositionOf(id).InRecovery?
      requires Recovery(model, transitions[id].domain).RequestSystemRecovery? && NewReport(failure)
      modifies this`asked, this`transitions, this`journal, this`states, this`actions
      ensures Coupled() && id in transitions && PositionOf(id).Finished?
      ensures Now().leases == old(Now().leases) - {id}
      ensures SameRequest(transitions[id], old(transitions[id])) && transitions[id].failure.Some?
      ensures SameFailure(transitions[id].failure.value, failure)
      ensures Witnessed(world, old(Here()), Here(), notes)
      ensures AskedForRecovery(Current(), Current(), transitions[id], notes)
      ensures Rebuilt(model, journal) == old(Rebuilt(model, journal))
    {
      hide WellFormed, IsRun, UnitIndex, Mirrors, Apply, Enabled, Recovery, Witnessed, Rebuilt, Coupled;
      ghost var here := Here();
      var refusal := world.refusal(asked);
      asked := asked + 1;
      notes := [Requested(refusal)];
      WitnessedOne(world, here, Here(), Requested(refusal));
      EndRecovery(id, failure.(recoverySucceeded := refusal.None?, recoveryError := refusal), refusal.None?);
    }

    /** The record with which recovery begins. */
    method EnterRecovery(id: TransitionId, report: Failure)
      requires Coupled() && id in transitions && PositionOf(id).Executing? && NewReport(report)
      requires !Recovery(model, transitions[id].domain).HoldObservedConfiguration?
      modifies this`transitions, this`journal, this`states, this`actions
      ensures Coupled() && id in transitions && PositionOf(id).InRecovery? && Now().leases == old(Now().leases)
      ensures SameRequest(transitions[id], old(transitions[id])) && Rebuilt(model, journal) == old(Rebuilt(model, journal))
    {
      hide WellFormed, IsRun, UnitIndex, Mirrors, Apply, Enabled, Recovery, Rebuilt;
      var at: int := *;
      KnownNow(id);
      MirrorsMove(Now(), modes, running, transitions, plans, next, journal, id, InRecovery);
      BeginRecoveryStep(model, Now(), id, report, at);
      Record(id, Recovering, at, Some(report), InRecovery, BeginRecovery(id, report, at));
    }

    /** The recovery that the domain's policy asks for. */
    method RecoverAs(id: TransitionId, report: Failure) returns (ghost notes: seq<Note>)
      requires Coupled() && id in transitions && PositionOf(id).InRecovery? && NewReport(report)
      requires report.recoveryAttempted && report.recoveryAction == Recovery(model, transitions[id].domain)
      requires !report.recoveryAction.HoldObservedConfiguration?
      modifies this`modes, this`running, this`asked, this`calls, this`transitions, this`journal, this`states, this`actions
      ensures Coupled() && id in transitions && PositionOf(id).Finished?
      ensures Now().leases == old(Now().leases) - {id}
      ensures SameRequest(transitions[id], old(transitions[id]))
      ensures Witnessed(world, old(Here()), Here(), notes)
      ensures Recovered(model, old(Current()), Current(), transitions[id], notes)
      ensures transitions[id].failure.Some? && transitions[id].failure.value.error == report.error
      ensures Terminal(transitions[id].phase) && !transitions[id].phase.Succeeded?
      ensures NotCommitted(model, old(modes), modes, running, transitions[id])
      ensures Rebuilt(model, journal) == Reported(old(Rebuilt(model, journal)), transitions[id].failure, None)
      ensures old(Safe(model, running) && CallsSafe(model, calls)) ==> Safe(model, running) && CallsSafe(model, calls)
    {
      hide WellFormed, IsRun, UnitIndex, DomainIndex, KnownUnits, Required, Closed, Safe, CallsSafe, Mirrors, Apply, Enabled, Defined, Witnessed, Rebuilt, FellBackTo, StoppedDomain, AskedForRecovery, Fallback, NotCommitted;
      var domain := transitions[id].domain;
      var action := Recovery(model, domain);
      FallbackIs(model, domain);
      ghost var before := Current();
      if action.EnterFallbackMode? {
        notes := RecoverToFallback(id, report);
        FellBackMeans(model, before, Current(), transitions[id], notes, Fallback(model, domain));
      } else if action.StopDomain? {
        notes := RecoverByStopping(id, report);
        StoppedMeans(model, before, Current(), transitions[id], notes);
      } else if action.RequestSystemRecovery? {
        notes := AskForRecovery(id, report);
        AskedMeans(model, before, transitions[id], notes);
      } else {
        notes := [];
        WitnessedNothing(world, Here());
        NoUnitsAreKnown(model);
        EndRecovery(id, report.(recoveryError := Some(Error(InternalError, [], 0))), false);
        NothingCommitted(model, modes, running, transitions[id]);
      }
    }

    /** What happens after a backend failure, as the domain's policy says. */
    method Recover(id: TransitionId, error: Error, application: Option<UnitId>, evidence: Evidence) returns (ghost notes: seq<Note>)
      requires Coupled() && id in transitions && PositionOf(id).Executing?
      modifies this`modes, this`running, this`asked, this`calls, this`transitions, this`journal, this`states, this`actions
      ensures Coupled() && id in transitions && PositionOf(id).Finished?
      ensures Now().leases == old(Now().leases) - {id}
      ensures SameRequest(transitions[id], old(transitions[id]))
      ensures Witnessed(world, old(Here()), Here(), notes)
      ensures Recovered(model, old(Current()), Current(), transitions[id], notes)
      ensures transitions[id].failure.Some? && transitions[id].failure.value.error == error
      ensures Terminal(transitions[id].phase) && !transitions[id].phase.Succeeded?
      ensures NotCommitted(model, old(modes), modes, running, transitions[id])
      ensures Rebuilt(model, journal) == Reported(old(Rebuilt(model, journal)), transitions[id].failure, None)
      ensures old(Safe(model, running) && CallsSafe(model, calls)) ==> Safe(model, running) && CallsSafe(model, calls)
    {
      hide WellFormed, IsRun, UnitIndex, DomainIndex, KnownUnits, Required, Closed, Safe, CallsSafe, Mirrors, Apply, Enabled, Defined, Witnessed, Rebuilt, FellBackTo, StoppedDomain, AskedForRecovery, NoSuchPolicy, Fallback, NotCommitted;
      var action := Recovery(model, transitions[id].domain);
      if action.HoldObservedConfiguration? {
        notes := [];
        WitnessedNothing(world, Here());
        Fail(id, error, application, evidence);
        NothingCommitted(model, modes, running, transitions[id]);
      } else {
        var report := PlainFailure(error).(application := application, evidence := evidence,
                                           recoveryAction := action, recoveryAttempted := true);
        EnterRecovery(id, report);
        notes := RecoverAs(id, report);
      }
    }

    // -------------------------------------------------------------------
    // Requests
    // -------------------------------------------------------------------

    /** No transition holds a lease. */
    ghost predicate Idle()
      reads this`states
    {
      states != [] && Now().leases == map[]
    }

    /** Enters a request and plans it from the given baseline. */
    method Enter(baseline: Configuration, domain: DomainId, target: ModeId) returns (id: TransitionId, refusal: Option<Error>)
      requires Coupled() && Idle()
      requires baseline.generation == model.generation && Complete(model, baseline.modes) && baseline.running <= Units(model).Keys
      modifies this`transitions, this`plans, this`next, this`states, this`actions
      ensures Coupled() && Idle() && id in transitions && id == old(next) && next == old(next) + 1
      ensures refusal.None? <==> Plannable(model, baseline, domain, target, false)
      ensures transitions[id].domain == domain && transitions[id].target == target
      ensures transitions[id].failure.None? && transitions[id].phase == Received
      ensures refusal.None? ==> PositionOf(id).Accepted? && id in plans && plans[id] == PlanFor(model, baseline, domain, target)
      ensures refusal.Some? ==> PositionOf(id) == Refused(refusal.value) && FailurePhase(refusal.value.code) == Failed
      ensures refusal.Some? ==> refusal.value.code in PlanErrors(model, baseline, domain, target, false)
    {
      hide WellFormed, IsRun, Mirrors, Complete, Plannable, PlanFor, PlanErrors, Defined, Units, FailurePhase;
      var planned := BuildPlan(model, baseline, domain, target, false);
      var error := Error(if planned.Err? then planned.error else NoError, [], 0);
      PlannableSelects(model, baseline, domain, target);
      id := Admit(baseline, domain, target, if planned.Ok? then Some(planned.value) else None, error);
      RefusalsFail(error.code);
      refusal := if planned.Err? then Some(error) else None;
    }

    method Admit(baseline: Configuration, domain: DomainId, target: ModeId, plan: Option<Plan>, error: Error) returns (id: TransitionId)
      requires Coupled() && Idle()
      requires baseline.generation == model.generation && Complete(model, baseline.modes) && baseline.running <= Units(model).Keys
      requires plan.Some? <==> Plannable(model, baseline, domain, target, false)
      requires plan.Some? ==> domain in baseline.modes && plan.value == PlanFor(model, baseline, domain, target)
      modifies this`transitions, this`plans, this`next, this`states, this`actions
      ensures Coupled() && Idle() && id in transitions && id == old(next) && next == old(next) + 1
      ensures transitions[id].domain == domain && transitions[id].target == target
      ensures transitions[id].failure.None? && transitions[id].phase == Received
      ensures plan.Some? ==> PositionOf(id).Accepted? && id in plans && plans[id] == plan.value
      ensures plan.None? ==> PositionOf(id) == Refused(error)
    {
      hide WellFormed, IsRun, Mirrors, Apply, Enabled, Complete, Plannable, PlanFor, Arrival, Defined, Units;
      id := next;
      var at: int := *;
      var source := if domain in baseline.modes then baseline.modes[domain] else 0;
      ghost var t := Arrival(model, id, baseline, domain, target, error, at);
      ArrivalIs(model, id, baseline, domain, target, error, at);
      MirrorsArrival(model, Now(), modes, running, transitions, plans, next, journal, t);
      AcceptStep(model, Now(), baseline, domain, target, error, at);
      Take(Accept(baseline, domain, target, error, at));
      transitions, plans, next :=
        transitions[id := Snapshot(id, domain, source, target, Received, at, None)],
        if plan.Some? then plans[id := plan.value] else plans,
        next + 1;
    }

    /** Accepts or refuses a request.  A refusal is recorded too. */
    method AcceptModeFrom(baseline: Configuration, domain: DomainId, target: ModeId) returns (id: TransitionId, accepted: bool)
      requires Coupled() && Idle()
      requires baseline.generation == model.generation && Complete(model, baseline.modes) && baseline.running <= Units(model).Keys
      modifies this`transitions, this`plans, this`next, this`journal, this`states, this`actions
      ensures Coupled() && Idle() && id in transitions && id == old(next) && next == old(next) + 1
      ensures accepted <==> Plannable(model, baseline, domain, target, false)
      ensures transitions[id].domain == domain && transitions[id].target == target
      ensures accepted ==> PositionOf(id).Waiting? && transitions[id].failure.None? && transitions[id].phase == Planned
      ensures accepted ==> id in plans && plans[id] == PlanFor(model, baseline, domain, target)
      ensures !accepted ==> PositionOf(id).Finished? && transitions[id].phase == Failed
      ensures !accepted ==> transitions[id].failure.Some? &&
                            transitions[id].failure.value.error.code in PlanErrors(model, baseline, domain, target, false)
      ensures Rebuilt(model, journal) == old(Rebuilt(model, journal))
    {
      hide WellFormed, IsRun, UnitIndex, Mirrors, Apply, Enabled, Complete, Plannable, PlanFor, PlanErrors, FailurePhase, Rebuilt, Live;
      var refusal;
      id, refusal := Enter(baseline, domain, target);
      accepted := refusal.None?;
      MirrorsMove(Now(), modes, running, transitions, plans, next, journal, id, Finished);
      if accepted {
        Progress(id, Validated);
        Progress(id, Planned);
      } else {
        RecordRefused(id, refusal.value);
      }
    }

    method RecordRefused(id: TransitionId, error: Error)
      requires Coupled() && Idle() && id in transitions && PositionOf(id) == Refused(error) && FailurePhase(error.code) == Failed
      modifies this`transitions, this`journal, this`states, this`actions
      ensures Coupled() && Idle() && id in transitions && PositionOf(id).Finished?
      ensures SameRequest(transitions[id], old(transitions[id]))
      ensures transitions[id].phase == Failed && transitions[id].failure == Some(PlainFailure(error))
      ensures Rebuilt(model, journal) == old(Rebuilt(model, journal))
    {
      hide WellFormed, IsRun, UnitIndex, Mirrors, Apply, Enabled, FailurePhase, Rebuilt, Live;
      KnownNow(id);
      MirrorsMove(Now(), modes, running, transitions, plans, next, journal, id, Finished);
      var at: int := *;
      RefusalStep(model, Now(), id, at);
      Record(id, FailurePhase(error.code), at, Some(PlainFailure(error)), Finished, RecordRefusal(id, at));
    }

    // -------------------------------------------------------------------
    // Execution
    // -------------------------------------------------------------------

    /** The plan made again from the current configuration has the accepted lists. */
    ghost predicate Replanned(id: TransitionId)
      requires WellFormed(model) && running <= Units(model).Keys && id in transitions && id in plans
      reads this`modes, this`running, this`transitions, this`plans
    {
      StillPlanned(model, Current(), transitions[id], plans[id])
    }

    /** Ends a transition that has not touched any unit. */
    method Decline(id: TransitionId, error: Error, ghost a: Action)
      requires Coupled() && id in transitions && Enabled(model, Now(), a)
      requires Protocol.Apply(model, Now(), a) == Moved(Now(), id, Failing(PlainFailure(error)))
      modifies this`transitions, this`journal, this`states, this`actions
      ensures Coupled() && id in transitions && PositionOf(id).Finished? && Now().leases == old(Now().leases) - {id}
      ensures SameRequest(transitions[id], old(transitions[id]))
      ensures transitions[id].failure == Some(PlainFailure(error)) && PhaseByCode(transitions[id].phase, error.code)
      ensures Rebuilt(model, journal) == old(Rebuilt(model, journal))
    {
      hide WellFormed, IsRun, UnitIndex, Mirrors, Protocol.Apply, Enabled, Rebuilt;
      KnownNow(id);
      Move(id, Failing(PlainFailure(error)), a);
      RecordDecision(id, PlainFailure(error));
    }

    method IsGranted() returns (granted: bool, ghost notes: seq<Note>)
      modifies this`asked
      ensures notes == [Lease(granted)] && Witnessed(world, old(Here()), Here(), notes)
    {
      hide Witnessed;
      ghost var here := Here();
      granted := world.granted(asked);
      asked := asked + 1;
      notes := [Lease(granted)];
      WitnessedOne(world, here, Here(), Lease(granted));
    }

    /** Waits for the lease.  A plan passes every other check of the scheduler, so a refusal
        means that the deadline has passed. */
    method Acquire(id: TransitionId) returns (ok: bool, ghost notes: seq<Note>)
      requires Coupled() && id in transitions && id in plans && PositionOf(id).Waiting? && Now().leases == map[]
      modifies this`asked, this`transitions, this`journal, this`states, this`actions
      ensures Coupled() && id in transitions && SameRequest(transitions[id], old(transitions[id]))
      ensures notes == [Lease(ok)] && Witnessed(world, old(Here()), Here(), notes)
      ensures ok ==> PositionOf(id).Leased? && Now().leases == map[id := LeaseOf(plans[id])] && transitions == old(transitions)
      ensures !ok ==> PositionOf(id).Finished? && Now().leases == map[]
      ensures !ok ==> LeaseRefused(Current(), Current(), transitions[id], notes, [])
      ensures Rebuilt(model, journal) == old(Rebuilt(model, journal))
    {
      hide WellFormed, IsRun, UnitIndex, FailurePhase, Mirrors, Protocol.Apply, Enabled, Rebuilt, Witnessed, LeaseRefused, PlainFailure, PhaseByCode;
      ok, notes := IsGranted();
      var error := Error(DeadlineExceeded, [], 0);
      KnownNow(id);
      MirrorsMove(Now(), modes, running, transitions, plans, next, journal, id, Leased);
      AcquireStep(model, Now(), id, error);
      if ok {
        MirrorsLease(Now(), modes, running, transitions, plans, next, journal, id);
        Take(Protocol.Acquire(id));
      } else {
        Decline(id, error, AcquireFails(id, error));
        LeaseWasRefused(Current(), transitions[id]);
      }
    }

    method Replan(id: TransitionId) returns (ok: bool)
      requires Coupled() && id in transitions && id in plans && PositionOf(id).Leased?
      modifies this`transitions, this`journal, this`states, this`actions
      ensures Coupled() && id in transitions && SameRequest(transitions[id], old(transitions[id]))
      ensures ok <==> old(Replanned(id))
      ensures ok ==> PositionOf(id).Executing? && Now().leases == old(Now().leases) && transitions == old(transitions)
      ensures !ok ==> PositionOf(id).Finished? && Now().leases == old(Now().leases) - {id}
      ensures !ok ==> Outdated(model, Current(), Current(), transitions[id], [Lease(true)], [])
      ensures Rebuilt(model, journal) == old(Rebuilt(model, journal))
    {
      hide WellFormed, IsRun, UnitIndex, FailurePhase, Mirrors, Protocol.Apply, Enabled, Plannable, PlanFor, PlanErrors, Rebuilt, Outdated, PlainFailure, PhaseByCode, Required, Closed, FindMode, Defined;
      var plan := plans[id];
      var planned := BuildPlan(model, Current(), transitions[id].domain, transitions[id].target, false);
      ok := planned.Ok? && planned.value.start == plan.start && planned.value.stop == plan.stop;
      var error := Error(if planned.Ok? then Superseded else planned.error, [], 0);
      KnownNow(id);
      MirrorsMove(Now(), modes, running, transitions, plans, next, journal, id, PositionOf(id));
      ReplanStep(model, Now(), id, error);
      if ok {
        Move(id, Executing, Protocol.Replan(id, error));
      } else {
        Decline(id, error, Protocol.Replan(id, error));
        PlanWasOutdated(model, Current(), transitions[id], error);
      }
    }

    /** Commits the target mode and records success. */
    method CommitMode(id: TransitionId)
      requires Coupled() && id in transitions && PositionOf(id).Executing? && transitions[id].failure.None?
      modifies this`modes, this`transitions, this`journal, this`states, this`actions
      ensures Coupled() && id in transitions && PositionOf(id).Finished?
      ensures Now().leases == old(Now().leases) - {id}
      ensures SameRequest(transitions[id], old(transitions[id])) && transitions[id].phase == Succeeded && transitions[id].failure.None?
      ensures modes == old(modes[transitions[id].domain := transitions[id].target])
      ensures id in plans && Rebuilt(model, journal) == Reported(old(Rebuilt(model, journal)), None, Some(plans[id]))
    {
      hide WellFormed, IsRun, UnitIndex, Mirrors, Protocol.Apply, Enabled, Rebuilt;
      Progress(id, Committing);
      KnownNow(id);
      MirrorsMove(Now(), modes, running, transitions, plans, next, journal, id, Committed);
      CommitStep(model, Now(), id);
      Take(Commit(id));
      modes := modes[transitions[id].domain := transitions[id].target];
      Progress(id, Succeeded);
      Finish(id);
    }

    /** What is known of a transition that has ended without success. */
    ghost predicate EndedWithoutSuccess(id: TransitionId, before: Modes, leases: map<TransitionId, Resources>, request: Snapshot)
      reads this`modes, this`running, this`next, this`journal, this`transitions, this`plans, this`states, this`actions
    {
      && Coupled() && id in transitions && id in Now().transitions && PositionOf(id).Finished?
      && Now().leases == leases - {id}
      && SameRequest(transitions[id], request)
      && Terminal(transitions[id].phase) && !transitions[id].phase.Succeeded?
      && NotCommitted(model, before, modes, running, transitions[id])
    }

    ghost predicate StillExecuting(id: TransitionId, before: Modes, leases: map<TransitionId, Resources>, request: Snapshot)
      reads this`modes, this`running, this`next, this`journal, this`transitions, this`plans, this`states, this`actions
    {
      && Coupled() && id in transitions && id in Now().transitions && PositionOf(id).Executing?
      && Now().leases == leases && modes == before
      && SameRequest(transitions[id], request) && transitions[id].failure.None?
    }

    /** Ends a transition whose stop or start loop has broken off. */
    method BreakOff(id: TransitionId, cancelled: bool, error: Error, failed: Option<UnitId>, evidence: Evidence, ghost notes: seq<Note>)
      returns (ghost aftermath: seq<Note>)
      requires Coupled() && id in transitions && PositionOf(id).Executing?
      requires BrokenOff(model, notes, error, false) && notes != [] && (cancelled <==> Last(notes).Poll?)
      modifies this`modes, this`running, this`asked, this`calls, this`transitions, this`journal, this`states, this`actions
      ensures EndedWithoutSuccess(id, old(modes), old(Now().leases), old(transitions[id]))
      ensures Witnessed(world, old(Here()), Here(), aftermath)
      ensures BrokeOff(model, old(Current()), Current(), transitions[id], notes, aftermath)
      ensures transitions[id].failure.Some? && transitions[id].failure.value.error == error
      ensures Rebuilt(model, journal) == Reported(old(Rebuilt(model, journal)), transitions[id].failure, None)
      ensures old(Safe(model, running) && CallsSafe(model, calls)) ==> Safe(model, running) && CallsSafe(model, calls)
    {
      hide WellFormed, IsRun, UnitIndex, Mirrors, Protocol.Apply, Enabled, Safe, CallsSafe, NotCommitted, Witnessed, BrokenOff, Recovered, BrokeOff, Rebuilt;
      KnownNow(id);
      MirrorsMove(Now(), modes, running, transitions, plans, next, journal, id, Executing);
      ghost var before := Current();
      if cancelled {
        aftermath := [];
        WitnessedNothing(world, Here());
        CausedBy(model, notes, error);
        Fail(id, Error(Cancelled, [], 0), None, NO_EVIDENCE);
        NothingCommitted(model, modes, running, transitions[id]);
        CancelledBrokeOff(model, before, transitions[id], notes);
        assert ReportsNothing(transitions[id].failure);
      } else {
        aftermath := Recover(id, error, failed, evidence);
        RecoveredBrokeOff(model, before, Current(), transitions[id], notes, aftermath);
      }
      KnownNow(id);
    }

    /** The stop half of a plan; a failed stop is handed to recovery. */
    method StopPhase(id: TransitionId, stop: seq<UnitId>, ghost required: set<UnitId>)
      returns (ok: bool, ghost stopped: seq<UnitId>, ghost middle: Configuration, ghost notes: seq<Note>, ghost aftermath: seq<Note>)
      requires Coupled() && id in transitions && PositionOf(id).Executing?
      requires transitions[id].failure.None? && transitions[id].phase == Planned
      requires Closed(model, required) && Bootstraps(model) <= required && stop == StopList(model, running, required)
      modifies this`modes, this`running, this`asked, this`calls, this`transitions, this`journal, this`states, this`actions
      ensures Witnessed(world, old(Here()), Here(), notes + aftermath) && StartsOnly(notes, [])
      ensures stopped <= stop && middle == old(Configuration(model.generation, modes, running - ToSet(stopped)))
      ensures middle.running <= Units(model).Keys
      ensures ok ==> StillExecuting(id, old(modes), old(Now().leases), old(transitions[id])) && 2 <= Rank(transitions[id].phase) <= 3 && running == old(running) * required
      ensures ok ==> stopped == stop && Current() == middle && aftermath == []
      ensures ok ==> LoopEnd(model, stop, [], notes, false, true, false, Error(NoError, [], 0))
      ensures ok ==> Rebuilt(model, journal) == old(Rebuilt(model, journal))
      ensures !ok ==> EndedWithoutSuccess(id, old(modes), old(Now().leases), old(transitions[id])) && BrokeOff(model, middle, Current(), transitions[id], notes, aftermath)
      ensures !ok ==> notes != [] && transitions[id].failure.Some? &&
                      LoopEnd(model, stop, [], notes, false, false, Last(notes).Poll?, transitions[id].failure.value.error)
      ensures !ok ==> ShortOfStop(stop, stopped, notes)
      ensures !ok ==> Rebuilt(model, journal) == Reported(old(Rebuilt(model, journal)), transitions[id].failure, None)
      ensures old(Safe(model, running) && CallsSafe(model, calls)) ==> Safe(model, running) && CallsSafe(model, calls)
    {
      hide WellFormed, IsRun, UnitIndex, Mirrors, Protocol.Apply, Enabled, Closed, Bootstraps, StopList, Safe, CallsSafe, OnlyMoved, NotCommitted, FailurePhase, Witnessed, LoopEnd, BrokenOff, BrokeOff, Rebuilt, StartsOnly;
      KnownNow(id);
      MirrorsMove(Now(), modes, running, transitions, plans, next, journal, id, Executing);
      MovedMeans(Now(), id);
      ghost var origin := Here();
      if stop != [] {
        Progress(id, Stopping);
      }
      StopListIsExact(model, running, required);
      var done, cancelled, error, failed, evidence, gone;
      done, cancelled, error, failed, evidence, gone, notes := StopUnits(id, stop, true, NO_EVIDENCE, required);
      LoopEndMeans(model, stop, [], notes, false, done, cancelled, error);
      ok, stopped, middle, aftermath := done, gone, Current(), [];
      assert notes + [] == notes;
      if done {
        DoneWithoutError(model, stop, [], notes, false, error);
      } else {
        ghost var here := Here();
        aftermath := BreakOff(id, cancelled, error, failed, evidence, notes);
        WitnessedBoth(world, origin, here, Here(), notes, aftermath);
        BrokeOffMeans(model, middle, Current(), transitions[id], notes, aftermath);
      }
      KnownNow(id);
    }

    /** The start half of a plan; a failed start is handed to recovery. */
    method StartPhase(id: TransitionId, start: seq<UnitId>, ghost required: set<UnitId>)
      returns (ok: bool, ghost started: seq<UnitId>, ghost middle: Configuration, ghost notes: seq<Note>, ghost aftermath: seq<Note>)
      requires Coupled() && id in transitions && PositionOf(id).Executing?
      requires transitions[id].failure.None? && 2 <= Rank(transitions[id].phase) <= 3
      requires required <= Units(model).Keys && Closed(model, required) && Bootstraps(model) <= required
      requires running <= required && start == StartList(model, running, required)
      modifies this`modes, this`running, this`asked, this`calls, this`transitions, this`journal, this`states, this`actions
      ensures Witnessed(world, old(Here()), Here(), notes + aftermath)
      ensures started <= start && middle == old(Configuration(model.generation, modes, running + ToSet(started)))
      ensures middle.running <= Units(model).Keys
      ensures ok ==> StillExecuting(id, old(modes), old(Now().leases), old(transitions[id])) && running == required
      ensures ok ==> started == start && Current() == middle && aftermath == []
      ensures ok ==> LoopEnd(model, [], start, notes, false, true, false, Error(NoError, [], 0))
      ensures ok ==> Rebuilt(model, journal) == old(Rebuilt(model, journal))
      ensures !ok ==> EndedWithoutSuccess(id, old(modes), old(Now().leases), old(transitions[id])) && BrokeOff(model, middle, Current(), transitions[id], notes, aftermath)
      ensures !ok ==> notes != [] && transitions[id].failure.Some? &&
                      LoopEnd(model, [], start, notes, false, false, Last(notes).Poll?, transitions[id].failure.value.error)
      ensures !ok ==> ShortOfStart(start, started, notes)
      ensures !ok ==> Rebuilt(model, journal) == Reported(old(Rebuilt(model, journal)), transitions[id].failure, None)
      ensures old(Safe(model, running) && CallsSafe(model, calls)) ==> Safe(model, running) && CallsSafe(model, calls)
    {
      hide WellFormed, IsRun, UnitIndex, Mirrors, Protocol.Apply, Enabled, Closed, Bootstraps, StartList, Safe, CallsSafe, OnlyMoved, NotCommitted, FailurePhase, Witnessed, LoopEnd, BrokenOff, BrokeOff, Rebuilt;
      KnownNow(id);
      MirrorsMove(Now(), modes, running, transitions, plans, next, journal, id, Executing);
      MovedMeans(Now(), id);
      ghost var origin := Here();
      StartListIsExact(model, running, required);
      RecordStarting(id, start);
      var done, cancelled, error, failed, evidence, up;
      done, cancelled, error, failed, evidence, up, notes := StartUnits(id, start, false, NO_EVIDENCE, required);
      LoopEndMeans(model, [], start, notes, false, done, cancelled, error);
      ok, started, middle, aftermath := done, up, Current(), [];
      assert notes + [] == notes;
      if done {
        DoneWithoutError(model, [], start, notes, false, error);
      } else {
        ghost var here := Here();
        aftermath := BreakOff(id, cancelled, error, failed, evidence, notes);
        WitnessedBoth(world, origin, here, Here(), notes, aftermath);
        BrokeOffMeans(model, middle, Current(), transitions[id], notes, aftermath);
      }
      KnownNow(id);
    }

    /** Records `starting`, and `awaiting_readiness` if a unit has to report readiness. */
    method RecordStarting(id: TransitionId, start: seq<UnitId>)
      requires Coupled() && id in transitions && PositionOf(id).Executing?
      requires transitions[id].failure.None? && 2 <= Rank(transitions[id].phase) <= 3 && KnownUnits(model, start)
      modifies this`transitions, this`journal, this`states, this`actions
      ensures Coupled() && id in transitions && id in Now().transitions && PositionOf(id).Executing?
      ensures OnlyMoved(old(Now()), Now(), id)
      ensures SameRequest(transitions[id], old(transitions[id])) && transitions[id].failure.None?
      ensures transitions[id].phase ==
              if start == [] then old(transitions[id].phase)
              else if exists unit <- start :: !Units(model)[unit].readiness.ProcessStarted? then AwaitingReadiness else Starting
      ensures Rebuilt(model, journal) == old(Rebuilt(model, journal))
    {
      hide WellFormed, IsRun, UnitIndex, Mirrors, Protocol.Apply, Enabled, OnlyMoved, Rebuilt;
      KnownNow(id);
      ghost var first := Now();
      MovedNothing(first, id);
      if start != [] {
        Progress(id, Starting);
        ghost var second := Now();
        if exists unit <- start :: !Units(model)[unit].readiness.ProcessStarted? {
          Progress(id, AwaitingReadiness);
          MovedTwice(first, second, Now(), id);
        }
      }
      KnownNow(id);
    }

    /** Executes an accepted transition to its end.  It succeeds if and only if the lease was
        granted, planning again gave the same lists, nobody cancelled, no deadline expired,
        every stop was reported stopped and some attempt of every start reached the state
        required.  Success leaves exactly the units running that the new modes require; a
        running set that was safe stays safe, and every backend call made on the way is
        safe.  `stopped` and `started` are what the transition itself has done to the units,
        `aftermath` is what recovery was told. */
    method Execute(id: TransitionId)
      returns (ghost notes: seq<Note>, ghost aftermath: seq<Note>, ghost stopped: seq<UnitId>, ghost started: seq<UnitId>)
      requires Coupled() && id in transitions && id in plans && PositionOf(id).Waiting?
      requires transitions[id].failure.None? && transitions[id].phase == Planned && Now().leases == map[]
      modifies this`modes, this`running, this`asked, this`calls, this`transitions, this`journal, this`states, this`actions
      ensures Coupled() && id in transitions && Now().leases == map[] && PositionOf(id).Finished?
      ensures SameRequest(transitions[id], old(transitions[id])) && Terminal(transitions[id].phase)
      ensures Witnessed(world, old(Here()), Here(), notes + aftermath) && notes != [] && notes[0].Lease?
      ensures transitions[id].phase.Succeeded? <==>
                old(Replanned(id)) && CarriedOut(model, plans[id].stop, plans[id].start, notes, false)
      ensures transitions[id].phase.Succeeded? ==>
                && transitions[id].failure.None? && aftermath == [] && !Last(notes).Poll? && !Last(notes).Clock?
                && stopped == plans[id].stop && started == plans[id].start
                && modes == old(modes[transitions[id].domain := transitions[id].target])
                && running == Required(model, modes)
      ensures transitions[id].failure.None? <==> transitions[id].phase.Succeeded?
      ensures PartOf(plans[id], stopped, started) && old(running) - ToSet(stopped) + ToSet(started) <= Units(model).Keys
      ensures !transitions[id].phase.Succeeded? && notes[0] == Lease(false) ==>
                LeaseRefused(old(Current()), Current(), transitions[id], notes, aftermath) && stopped == [] && started == []
      ensures !transitions[id].phase.Succeeded? && notes[0] == Lease(true) && !old(Replanned(id)) ==>
                Outdated(model, old(Current()), Current(), transitions[id], notes, aftermath) && stopped == [] && started == []
      ensures !transitions[id].phase.Succeeded? && notes[0] == Lease(true) && old(Replanned(id)) ==>
                && ShortOf(plans[id], stopped, started, notes)
                && BrokeOff(model, old(Configuration(model.generation, modes, running - ToSet(stopped) + ToSet(started))),
                            Current(), transitions[id], notes, aftermath)
      ensures !transitions[id].phase.Succeeded? ==> NotCommitted(model, old(modes), modes, running, transitions[id])
      ensures Apart(running, Rebuilt(model, journal)) ==
              Drifted(old(Apart(running, Rebuilt(model, journal))),
                      Ending(ToSet(stopped) + ToSet(started),
                             if transitions[id].failure.None? then ToSet(plans[id].stop) + ToSet(plans[id].start)
                             else FailureUnits(transitions[id].failure.value)))
      ensures old(Safe(model, running) && CallsSafe(model, calls)) ==> Safe(model, running) && CallsSafe(model, calls)
    {
      hide WellFormed, IsRun, UnitIndex, Mirrors, Protocol.Apply, Enabled, Closed, Bootstraps, StartList, StopList, Safe, CallsSafe, NotCommitted, Plannable, PlanFor, Witnessed, CarriedOut, BrokeOff, Rebuilt, Apart, Drifted, Reported, Required, StillPlanned, PlanErrors, FailureUnits, Last, LoopEnd, ShortOf, LeaseRefused, Outdated, Terminal, PlainFailure;
      ghost var plan := plans[id];
      ghost var before, rebuilt := Current(), Rebuilt(model, journal);
      ghost var origin := Here();
      aftermath, stopped, started := [], [], [];
      assert running - ToSet(stopped) + ToSet(started) == running;
      var ok;
      ok, notes := Acquire(id);
      assert notes + [] == notes;
      if ok {
        ok := Replan(id);
        if ok {
          ghost var here := Here();
          ghost var rest;
          rest, aftermath, stopped, started := Perform(id);
          WitnessedBoth(world, origin, here, Here(), notes, rest + aftermath);
          assert notes + (rest + aftermath) == (notes + rest) + aftermath;
          notes := notes + rest;
          Performed(model, plan, before, Current(), transitions[id], stopped, started, rest, aftermath);
        } else {
          OutdatedMeans(model, before, transitions[id], notes);
          NothingTouched(running, rebuilt, ErrorOf(transitions[id]));
          NothingCommitted(model, modes, running, transitions[id]);
        }
      } else {
        LeaseRefusedMeans(model, plan, before, transitions[id], notes);
        NothingTouched(running, rebuilt, ErrorOf(transitions[id]));
        NothingCommitted(model, modes, running, transitions[id]);
      }
    }

    /** The stops, the starts and the commit, once the plan is known to be current. */
    method Perform(id: TransitionId)
      returns (ghost notes: seq<Note>, ghost aftermath: seq<Note>, ghost stopped: seq<UnitId>, ghost started: seq<UnitId>)
      requires Coupled() && id in transitions && id in plans && PositionOf(id).Executing?
      requires transitions[id].failure.None? && transitions[id].phase == Planned && Replanned(id)
      modifies this`modes, this`running, this`asked, this`calls, this`transitions, this`journal, this`states, this`actions
      ensures Coupled() && id in transitions && PositionOf(id).Finished? && Now().leases == old(Now().leases) - {id}
      ensures SameRequest(transitions[id], old(transitions[id])) && Terminal(transitions[id].phase)
      ensures transitions[id].failure.None? <==> transitions[id].phase.Succeeded?
      ensures Witnessed(world, old(Here()), Here(), notes + aftermath)
      ensures LoopEnd(model, plans[id].stop, plans[id].start, notes, false, transitions[id].phase.Succeeded?,
                      !transitions[id].phase.Succeeded? && notes != [] && Last(notes).Poll?, ErrorOf(transitions[id]))
      ensures PartOf(plans[id], stopped, started) && old(running) - ToSet(stopped) + ToSet(started) <= Units(model).Keys
      ensures transitions[id].phase.Succeeded? ==>
                && aftermath == [] && stopped == plans[id].stop && started == plans[id].start
                && modes == old(modes[transitions[id].domain := transitions[id].target]) && running == Required(model, modes)
      ensures !transitions[id].phase.Succeeded? ==>
                && NotCommitted(model, old(modes), modes, running, transitions[id])
                && BrokeOff(model, old(Configuration(model.generation, modes, running - ToSet(stopped) + ToSet(started))),
                            Current(), transitions[id], notes, aftermath)
                && ShortOf(plans[id], stopped, started, notes)
      ensures Apart(running, Rebuilt(model, journal)) ==
              Drifted(old(Apart(running, Rebuilt(model, journal))),
                      Ending(ToSet(stopped) + ToSet(started),
                             if transitions[id].failure.None? then ToSet(plans[id].stop) + ToSet(plans[id].start)
                             else FailureUnits(transitions[id].failure.value)))
      ensures old(Safe(model, running) && CallsSafe(model, calls)) ==> Safe(model, running) && CallsSafe(model, calls)
    {
      hide WellFormed, IsRun, UnitIndex, Mirrors, Protocol.Apply, Enabled, Closed, Bootstraps, StartList, StopList, Safe, CallsSafe, NotCommitted, Required, PlanFor, OnlyMoved, ConstraintsHold, Selects, Defined, Witnessed, CarriedOut, BrokeOff, Rebuilt, Apart, Drifted, Reported, FailureUnits, LoopEnd, StartsOnly, PartOf, ShortOf, ShortOfStop, ShortOfStart, Last;
      KnownNow(id);
      MirrorsMove(Now(), modes, running, transitions, plans, next, journal, id, Executing);
      var plan := plans[id];
      var domain, target := transitions[id].domain, transitions[id].target;
      ghost var before, rebuilt, request, origin := Current(), Rebuilt(model, journal), transitions[id], Here();
      ghost var required := Required(model, modes[domain := target]);
      PlanListsAre(model, Current(), domain, target);
      var ok;
      ghost var middle;
      started := [];
      ok, stopped, middle, notes, aftermath := StopPhase(id, plan.stop, required);
      PartsOf(plan, stopped, started);
      StillPlannedMoves(model, before, request, plan, stopped, started);
      assert middle.running + ToSet(started) == middle.running;
      if !ok {
        ShortAtStop(plan, stopped, notes);
        FirstEnds(model, plan.stop, plan.start, notes, false, Last(notes).Poll?, ErrorOf(transitions[id]));
        BrokeOffDrifts(model, before.running, middle, Current(), transitions[id], stopped, started, notes, aftermath, rebuilt);
        return;
      }
      MirrorsMove(Now(), modes, running, transitions, plans, next, journal, id, Executing);
      ghost var here, stops := Here(), notes;
      assert stops + [] == stops;
      ghost var starts;
      started, middle, starts, aftermath := StartAndCommit(id, plan.start, required);
      PartsOf(plan, stopped, started);
      StillPlannedMoves(model, before, request, plan, stopped, started);
      WitnessedBoth(world, origin, here, Here(), stops, starts + aftermath);
      assert stops + (starts + aftermath) == (stops + starts) + aftermath;
      notes := stops + starts;
      ghost var error, cancelled := ErrorOf(transitions[id]), starts != [] && Last(starts).Poll? && transitions[id].failure.Some?;
      BothEnd(model, plan.stop, plan.start, stops, starts, false, transitions[id].failure.None?, cancelled, Error(NoError, [], 0), error);
      LoopEndMeans(model, plan.stop, plan.start, notes, false, transitions[id].failure.None?, cancelled, error);
      if transitions[id].failure.None? {
        SuccessDrifts(before.running, rebuilt, plan);
      } else {
        LastOfBoth(stops, starts);
        ShortAtStart(plan, started, stops, starts);
        BrokeOffLater(model, middle, Current(), transitions[id], starts, notes, aftermath);
        BrokeOffDrifts(model, before.running, middle, Current(), transitions[id], stopped, started, notes, aftermath, rebuilt);
      }
    }

    /** The start half of a plan and, once it is done, the commit. */
    method StartAndCommit(id: TransitionId, start: seq<UnitId>, ghost required: set<UnitId>)
      returns (ghost started: seq<UnitId>, ghost middle: Configuration, ghost notes: seq<Note>, ghost aftermath: seq<Note>)
      requires Coupled() && id in transitions && id in plans && PositionOf(id).Executing?
      requires transitions[id].failure.None? && 2 <= Rank(transitions[id].phase) <= 3
      requires required <= Units(model).Keys && Closed(model, required) && Bootstraps(model) <= required
      requires running <= required && start == StartList(model, running, required)
      modifies this`modes, this`running, this`asked, this`calls, this`transitions, this`journal, this`states, this`actions
      ensures Coupled() && id in transitions && PositionOf(id).Finished? && Now().leases == old(Now().leases) - {id}
      ensures SameRequest(transitions[id], old(transitions[id])) && Terminal(transitions[id].phase)
      ensures transitions[id].failure.None? <==> transitions[id].phase.Succeeded?
      ensures Witnessed(world, old(Here()), Here(), notes + aftermath)
      ensures started <= start && middle == old(Configuration(model.generation, modes, running + ToSet(started)))
      ensures middle.running <= Units(model).Keys
      ensures LoopEnd(model, [], start, notes, false, transitions[id].failure.None?,
                      notes != [] && Last(notes).Poll? && transitions[id].failure.Some?, ErrorOf(transitions[id]))
      ensures transitions[id].failure.None? ==>
                && aftermath == [] && started == start && running == required
                && modes == old(modes[transitions[id].domain := transitions[id].target])
                && Rebuilt(model, journal) == Reported(old(Rebuilt(model, journal)), None, Some(plans[id]))
      ensures transitions[id].failure.Some? ==>
                && notes != [] && ShortOfStart(start, started, notes)
                && NotCommitted(model, old(modes), modes, running, transitions[id])
                && BrokeOff(model, middle, Current(), transitions[id], notes, aftermath)
                && Rebuilt(model, journal) == Reported(old(Rebuilt(model, journal)), transitions[id].failure, None)
      ensures old(Safe(model, running) && CallsSafe(model, calls)) ==> Safe(model, running) && CallsSafe(model, calls)
    {
      hide WellFormed, IsRun, UnitIndex, Mirrors, Protocol.Apply, Enabled, Closed, Bootstraps, StartList, Safe, CallsSafe, NotCommitted, Witnessed, BrokeOff, Rebuilt, Reported, LoopEnd, ShortOfStart, Last;
      var ok;
      ok, started, middle, notes, aftermath := StartPhase(id, start, required);
      if ok {
        CommitMode(id);
      }
    }

    /** A whole history: requests executed one after the other.  If the engine starts safe,
        every call of the history is safe and so is the running set between and after the
        transitions.  The units that run and those that a restart would rebuild drift apart
        exactly by what failed transitions have done and not reported. */
    method RunRequests(requests: seq<ModeRef>) returns (ghost endings: seq<Ending>)
      requires Coupled() && Idle() && Complete(model, modes)
      modifies this
      ensures Coupled() && Idle() && Complete(model, modes)
      ensures Apart(running, Rebuilt(model, journal)) == Drift(old(Apart(running, Rebuilt(model, journal))), endings)
      ensures old(running == Rebuilt(model, journal)) && (forall ending <- endings :: ending.touched <= ending.reported) ==>
                running == Rebuilt(model, journal)
      ensures Clean(model, journal) ==>
                && ReplayAll(model, Fresh(model), journal).Some?
                && ReplayAll(model, Fresh(model), journal).value.running == Rebuilt(model, journal)
      ensures old(Safe(model, running) && CallsSafe(model, calls)) ==> Safe(model, running) && CallsSafe(model, calls)
    {
      hide WellFormed, IsRun, UnitIndex, Mirrors, Safe, CallsSafe, Plannable, PlanFor, PlanErrors, Required, Complete, NotCommitted, Replanned, Witnessed, CarriedOut, BrokeOff, LeaseRefused, Outdated, Rebuilt, Apart, Drifted, Drift, FailureUnits, Last, PartOf, ShortOf, Clean, ReplayAll, Fresh;
      endings := [];
      ghost var drift := Apart(running, Rebuilt(model, journal));
      DriftBegins(drift);
      for i := 0 to |requests|
        invariant Coupled() && Idle() && Complete(model, modes)
        invariant Apart(running, Rebuilt(model, journal)) == Drift(drift, endings)
        invariant old(Safe(model, running) && CallsSafe(model, calls)) ==> Safe(model, running) && CallsSafe(model, calls)
      {
        ghost var ending;
        var id;
        id, ending := RunRequest(requests[i]);
        if ending.Some? {
          DriftOneMore(drift, endings, ending.value);
          endings := endings + [ending.value];
        }
      }
      ApartMeans(old(running), old(Rebuilt(model, journal)));
      ApartMeans(running, Rebuilt(model, journal));
      if forall ending <- endings :: ending.touched <= ending.reported {
        ReportedIsSettled(endings);
      }
      ReplaysRebuilt();
    }

    /** What replay makes of a journal that it accepts. */
    lemma ReplaysRebuilt()
      requires Coupled()
      ensures Clean(model, journal) ==>
                && ReplayAll(model, Fresh(model), journal).Some?
                && ReplayAll(model, Fresh(model), journal).value.running == Rebuilt(model, journal)
    {
      hide WellFormed, IsRun, UnitIndex, Rebuilt, Clean, ReplayAll, Fresh, Inv;
      InvNow();
      if Clean(model, journal) {
        RebuiltIsReplayed(model, Now());
      }
    }

    /** One request of a history. */
    method RunRequest(request: ModeRef) returns (id: TransitionId, ghost ending: Option<Ending>)
      requires Coupled() && Idle() && Complete(model, modes)
      modifies this
      ensures Coupled() && Idle() && Complete(model, modes)
      ensures id in transitions && transitions[id].domain == request.domain && transitions[id].target == request.mode
      ensures ending.Some? <==> old(Plannable(model, Current(), request.domain, request.mode, false))
      ensures ending.None? ==> running == old(running) && Rebuilt(model, journal) == old(Rebuilt(model, journal))
      ensures ending.Some? ==>
                Apart(running, Rebuilt(model, journal)) == Drifted(old(Apart(running, Rebuilt(model, journal))), ending.value)
      ensures ending.Some? && old(running == Rebuilt(model, journal)) ==>
                (running == Rebuilt(model, journal) <==> ending.value.touched <= ending.value.reported)
      ensures transitions[id].phase.Succeeded? ==> running == Required(model, modes)
      ensures transitions[id].phase.Succeeded? && old(running == Rebuilt(model, journal)) ==>
                Rebuilt(model, journal) == Required(model, modes)
      ensures old(Safe(model, running) && CallsSafe(model, calls)) ==> Safe(model, running) && CallsSafe(model, calls)
    {
      hide WellFormed, IsRun, UnitIndex, Mirrors, Safe, CallsSafe, Plannable, PlanFor, PlanErrors, Required, Complete, NotCommitted, StillPlanned, Witnessed, CarriedOut, BrokeOff, LeaseRefused, Outdated, Rebuilt, Apart, Drifted, FailureUnits, Last, PartOf, ShortOf;
      var current := Current();
      ghost var rebuilt := Rebuilt(model, journal);
      var accepted;
      id, accepted := AcceptModeFrom(current, request.domain, request.mode);
      ending := None;
      if accepted {
        ghost var notes, aftermath, stopped, started := Execute(id);
        ending := Some(Ending(ToSet(stopped) + ToSet(started),
                              if transitions[id].failure.None? then ToSet(plans[id].stop) + ToSet(plans[id].start)
                              else FailureUnits(transitions[id].failure.value)));
        StaysComplete(model, current, modes, running, transitions[id]);
        ApartMeans(current.running, rebuilt);
        ApartMeans(running, Rebuilt(model, journal));
        SettledIff(ending.value);
      }
    }
  }
}
