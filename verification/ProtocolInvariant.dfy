/** What every step of the execution protocol keeps. */
module ProtocolInvariant {
  import opened Wrappers
  import opened ExecutionModel
  import opened Sorting
  import opened UnitOrder
  import opened Planner
  import opened JournalEvents
  import opened Replay
  import opened Scheduler
  import opened ModeConstraints
  import opened Protocol

  type Transitions = map<TransitionId, Transition>

  /** Positions that belong to a planned request of this engine run. */
  predicate Live(position: Position) {
    !position.Refused? && !position.Finished? && !position.Interrupted?
  }

  predicate HoldsLease(position: Position) {
    position.Leased? || position.Executing? || position.CommitReady? || position.Committed? ||
    position.InRecovery? || position.FallingBack? || position.FellBack?
  }

  predicate MayHoldLease(position: Position) {
    HoldsLease(position) || position.Failing? || position.Finished?
  }

  /** The mode has been changed in memory and the record of it is missing. */
  predicate Unsettled(position: Position) {
    position.Committed? || position.FellBack?
  }

  predicate PhaseFits(position: Position, phase: Phase) {
    match position
    case Refused(_) => phase.Received?
    case Accepted => phase.Received?
    case Announced => phase.Validated?
    case Waiting => phase.Planned?
    case Leased => phase.Planned?
    case Executing => 2 <= Rank(phase) <= 5
    case CommitReady => phase.Committing?
    case Committed => phase.Committing?
    case InRecovery => phase.Recovering?
    case FallingBack => phase.Recovering?
    case FellBack => phase.Recovering?
    case Failing(_) => 2 <= Rank(phase) <= 5
    case Finished => Terminal(phase)
    case Interrupted => !Terminal(phase) && !phase.Received?
  }

  /** The plan locks the domains guarded by its own domain. */
  ghost predicate PlanFits(model: Model, snapshot: Snapshot, plan: Plan) {
    ValidPlan(model, snapshot, model.generation, plan) && SameElements(plan.guarded, Guarded(model, snapshot.domain))
  }

  /** The request names a mode that the model defines. */
  predicate Named(model: Model, snapshot: Snapshot) {
    Defined(model, snapshot.domain, snapshot.target)
  }

  /** The records of requests that name defined modes. */
  function Kept(model: Model, journal: seq<JournalEvent>): seq<JournalEvent> {
    if journal == [] then []
    else
      var last := journal[|journal| - 1];
      var kept := Kept(model, journal[..|journal| - 1]);
      if Named(model, last.transition) then kept + [last] else kept
  }

  ghost predicate StaticOk(model: Model, id: TransitionId, t: Transition) {
    && t.snapshot.id == id && id != 0
    && PhaseFits(t.position, t.snapshot.phase)
    && (t.position.Refused? ==>
          t.plan.None? && (Named(model, t.snapshot) ==> ValidIdentity(model, t.snapshot)))
    && (Live(t.position) || t.position.Interrupted? ==> ValidIdentity(model, t.snapshot))
    && (Live(t.position) ==> t.plan.Some?)
    && (t.plan.Some? ==> PlanFits(model, t.snapshot, t.plan.value))
    && (Rank(t.snapshot.phase) <= 6 ==> t.snapshot.failure.None?)
    && (t.position.FallingBack? || t.position.FellBack? ==>
          Defined(model, t.snapshot.domain, Fallback(model, t.snapshot.domain)))
    && (t.position.Failing? ==> ReportsNoMode(model, t.position.failure))
  }

  ghost predicate RecordedOk(model: Model, r: Replayed, id: TransitionId, t: Transition) {
    if t.snapshot.phase.Received? || !Named(model, t.snapshot) then id !in r.transitions && id !in r.plans
    else
      && id in r.transitions && r.transitions[id] == t.snapshot
      && (t.plan.Some? <==> id in r.plans)
      && (t.plan.Some? ==> r.plans[id] == t.plan.value)
  }

  ghost predicate LeaseOk(leases: map<TransitionId, Resources>, id: TransitionId, t: Transition) {
    && (HoldsLease(t.position) ==> id in leases)
    && (id in leases ==> t.plan.Some? && leases[id] == LeaseOf(t.plan.value) && MayHoldLease(t.position))
  }

  /** Between planning under the lease and the final record, the constraints around
      the domain hold for the mode it is about to take or has taken. */
  ghost predicate FrozenOk(model: Model, modes: Modes, t: Transition) {
    var domain := t.snapshot.domain;
    && (t.position.Executing? || t.position.CommitReady? || t.position.Committed? ==>
          HoldAround(model, modes[domain := t.snapshot.target], domain))
    && (t.position.FallingBack? || t.position.FellBack? ==>
          HoldAround(model, modes[domain := Fallback(model, domain)], domain))
    && (t.position.Committed? ==> domain in modes && modes[domain] == t.snapshot.target)
    && (t.position.FellBack? ==> domain in modes && modes[domain] == Fallback(model, domain))
  }

  ghost predicate AllStatic(model: Model, ts: Transitions) { forall id <- ts :: StaticOk(model, id, ts[id]) }

  ghost predicate AllRecorded(model: Model, r: Replayed, ts: Transitions) {
    && (forall id <- ts :: RecordedOk(model, r, id, ts[id]))
    && r.plans.Keys <= r.transitions.Keys <= ts.Keys
  }

  ghost predicate AllLeased(leases: map<TransitionId, Resources>, ts: Transitions) {
    && leases.Keys <= ts.Keys
    && (forall id <- ts :: LeaseOk(leases, id, ts[id]))
    && (forall a, b :: a in leases && b in leases && a != b ==> Disjoint(leases[a], leases[b]))
  }

  ghost predicate AllFrozen(model: Model, modes: Modes, ts: Transitions) { forall id <- ts :: FrozenOk(model, modes, ts[id]) }

  /** Memory and journal agree on every domain without an unsettled transition. */
  ghost predicate Agree(model: Model, memory: Modes, durable: Modes, ts: Transitions) {
    forall domain <- Domains(model) :: domain in memory && domain in durable &&
      ((forall id <- ts :: Unsettled(ts[id].position) ==> ts[id].snapshot.domain != domain) ==>
         durable[domain] == memory[domain])
  }

  /** The initial modes are not checked when an engine is created. */
  ghost predicate StartsSound(model: Model) {
    ConstraintsHold(model, InitialModes(model))
  }

  /** Every domain has a mode; the constraints hold if they held at the start. */
  ghost predicate Fits(model: Model, modes: Modes) {
    Complete(model, modes) && (StartsSound(model) ==> ConstraintsHold(model, modes))
  }

  ghost predicate IdsBelow(ts: Transitions, r: Replayed, next: nat) {
    0 < r.next <= next && forall id <- ts :: id < next
  }

  ghost predicate ReplayConsistent(r: Replayed) {
    && r.plans.Keys <= r.transitions.Keys && 0 < r.next
    && (forall id <- r.transitions :: id < r.next)
  }

  function PlanOf(r: Replayed, id: TransitionId): Option<Plan> {
    if id in r.plans then Some(r.plans[id]) else None
  }

  ghost predicate EntryOk(model: Model, id: TransitionId, snapshot: Snapshot, plan: Option<Plan>) {
    && snapshot.id == id && id != 0 && !snapshot.phase.Received? && ValidIdentity(model, snapshot)
    && (Rank(snapshot.phase) <= 6 ==> snapshot.failure.None?)
    && (plan.Some? ==> PlanFits(model, snapshot, plan.value))
  }

  /** What is always true of the journal, also while the engine is down. */
  ghost predicate DurableOk(model: Model, r: Replayed) {
    && ReplayConsistent(r) && Fits(model, r.modes)
    && (forall id <- r.transitions :: EntryOk(model, id, r.transitions[id], PlanOf(r, id)))
  }

  ghost predicate VolatileOk(model: Model, s: State, r: Replayed) {
    && Fits(model, s.modes)
    && AllStatic(model, s.transitions)
    && AllRecorded(model, r, s.transitions)
    && AllLeased(s.leases, s.transitions)
    && AllFrozen(model, s.modes, s.transitions)
    && Agree(model, s.modes, r.modes, s.transitions)
    && IdsBelow(s.transitions, r, s.next)
  }

  /** What replay makes of the records that it does not reject. */
  function Durable(model: Model, s: State): Option<Replayed> {
    ReplayAll(model, Fresh(model), Kept(model, s.journal))
  }

  /** A crash that leaves this journal leaves a good one. */
  ghost predicate Survives(model: Model, journal: seq<JournalEvent>) {
    var r := ReplayAll(model, Fresh(model), Kept(model, journal));
    r.Some? && DurableOk(model, r.value)
  }

  ghost predicate PrefixesSurvive(model: Model, journal: seq<JournalEvent>) {
    forall k :: 0 <= k <= |journal| ==> Survives(model, journal[..k])
  }

  ghost predicate Inv(model: Model, s: State) {
    && WellFormed(model) && s.running <= Units(model).Keys
    && Durable(model, s).Some?
    && DurableOk(model, Durable(model, s).value)
    && (s.up ==> VolatileOk(model, s, Durable(model, s).value))
  }
}
