/** The replay of the journal when an engine is created. */
module Replay {
  import opened Wrappers
  import opened ExecutionModel
  import opened Planner
  import opened JournalEvents

  datatype Replayed = Replayed(
    modes: map<DomainId, ModeId>,
    running: set<UnitId>,
    transitions: map<TransitionId, Snapshot>,
    plans: map<TransitionId, Plan>,
    next: nat)

  predicate ValidProgress(previous: Phase, next: Phase) {
    if previous == next then true
    else if previous.Recovering? then next.Failed? || next.RecoveryFailed?
    else !Terminal(previous) && Rank(previous) < Rank(next)
  }

  predicate ValidIdentity(model: Model, transition: Snapshot) {
    && transition.id != 0 && transition.domain != 0 && transition.source != 0 && transition.target != 0
    && Defined(model, transition.domain, transition.source)
    && Defined(model, transition.domain, transition.target)
  }

  predicate SameIdentity(a: Snapshot, b: Snapshot) {
    a.domain == b.domain && a.source == b.source && a.target == b.target
  }

  predicate Continues(transitions: map<TransitionId, Snapshot>, transition: Snapshot) {
    transition.id in transitions ==>
      SameIdentity(transitions[transition.id], transition) &&
      ValidProgress(transitions[transition.id].phase, transition.phase)
  }

  predicate KnownUnits(model: Model, units: seq<UnitId>) {
    forall unit <- units :: unit in Units(model)
  }

  predicate ValidPlan(model: Model, transition: Snapshot, generation: nat, plan: Plan) {
    && plan.generation == generation
    && plan.domain == transition.domain && plan.source == transition.source && plan.target == transition.target
    && KnownUnits(model, plan.retain) && KnownUnits(model, plan.stop) && KnownUnits(model, plan.start)
    && (forall domain <- plan.guarded :: domain in Domains(model))
  }

  predicate ValidFailure(model: Model, domain: DomainId, failure: Failure) {
    && (failure.recoveredMode.Some? ==> Defined(model, domain, failure.recoveredMode.value))
    && KnownUnits(model, failure.stopped) && KnownUnits(model, failure.started)
  }

  /** The conditions under which the loop accepts one more event. */
  predicate Acceptable(model: Model, before: Replayed, event: JournalEvent) {
    var transition := event.transition;
    && event.generation == model.generation
    && ValidIdentity(model, transition)
    && Continues(before.transitions, transition)
    && (event.plan.Some? ==> ValidPlan(model, transition, event.generation, event.plan.value))
    && (transition.failure.Some? ==> ValidFailure(model, transition.domain, transition.failure.value))
    && (transition.phase.Succeeded? ==> event.plan.Some? || transition.id in before.plans)
  }

  function PlansAfter(before: Replayed, event: JournalEvent): map<TransitionId, Plan> {
    if event.plan.Some? then before.plans[event.transition.id := event.plan.value] else before.plans
  }

  /** The committed modes after a failure record, and then after a success record. */
  function ModesAfter(before: Replayed, event: JournalEvent): map<DomainId, ModeId>
    requires event.transition.phase.Succeeded? ==> event.transition.id in PlansAfter(before, event)
  {
    var transition := event.transition;
    var recovered :=
      if transition.failure.Some? && transition.failure.value.recoveredMode.Some?
      then before.modes[transition.domain := transition.failure.value.recoveredMode.value] else before.modes;
    if transition.phase.Succeeded?
    then var plan := PlansAfter(before, event)[transition.id]; recovered[plan.domain := plan.target]
    else recovered
  }

  function RunningAfter(before: Replayed, event: JournalEvent): set<UnitId>
    requires event.transition.phase.Succeeded? ==> event.transition.id in PlansAfter(before, event)
  {
    var transition := event.transition;
    var recovered :=
      if transition.failure.Some?
      then before.running - (set x | x in transition.failure.value.stopped) + (set x | x in transition.failure.value.started)
      else before.running;
    if transition.phase.Succeeded?
    then var plan := PlansAfter(before, event)[transition.id];
         recovered - (set x | x in plan.stop) + (set x | x in plan.start)
    else recovered
  }

  function Step(model: Model, before: Replayed, event: JournalEvent): (after: Replayed)
    requires Acceptable(model, before, event)
  {
    Replayed(
      ModesAfter(before, event),
      RunningAfter(before, event),
      before.transitions[event.transition.id := event.transition],
      PlansAfter(before, event),
      if event.transition.id + 1 > before.next then event.transition.id + 1 else before.next)
  }

  function ReplayAll(model: Model, start: Replayed, events: seq<JournalEvent>): (r: Option<Replayed>) {
    if events == [] then Some(start)
    else
      var before := ReplayAll(model, start, events[..|events| - 1]);
      var event := events[|events| - 1];
      if before.Some? && Acceptable(model, before.value, event) then Some(Step(model, before.value, event)) else None
  }

  function Fresh(model: Model): Replayed {
    Replayed(InitialModes(model), Required(model, InitialModes(model)), map[], map[], 1)
  }

  /** Replay accepts a journal exactly when it accepts it event by event. */
  lemma ReplayOneMore(model: Model, start: Replayed, events: seq<JournalEvent>, event: JournalEvent)
    ensures ReplayAll(model, start, events + [event]) ==
            (var before := ReplayAll(model, start, events);
             if before.Some? && Acceptable(model, before.value, event) then Some(Step(model, before.value, event)) else None)
  {
    assert (events + [event])[..|events|] == events;
  }

  /** Every prefix of an accepted journal is accepted. */
  lemma {:induction false} PrefixIsAccepted(model: Model, start: Replayed, events: seq<JournalEvent>, n: nat)
    requires n <= |events| && ReplayAll(model, start, events).Some?
    ensures ReplayAll(model, start, events[..n]).Some?
  {
    if n == |events| {
      assert events[..n] == events;
    } else {
      assert events[..|events| - 1][..n] == events[..n];
      PrefixIsAccepted(model, start, events[..|events| - 1], n);
    }
  }

  lemma {:induction false} RejectedPrefixRejects(model: Model, start: Replayed, events: seq<JournalEvent>, n: nat)
    requires n < |events| && !ValidIdentity(model, events[n].transition)
    ensures ReplayAll(model, start, events).None?
  {
    if n < |events| - 1 {
      RejectedPrefixRejects(model, start, events[..|events| - 1], n);
    }
  }

  /** What a transition may come to: a terminal phase is final, a recovery ends as failed or
      as a failed recovery, and otherwise the phases go on in their order. */
  ghost predicate MayComeTo(a: Phase, b: Phase) {
    match a
    case Succeeded => b.Succeeded?
    case Rejected => b.Rejected?
    case Failed => b.Failed?
    case PhaseCancelled => b.PhaseCancelled?
    case PhaseSuperseded => b.PhaseSuperseded?
    case PhaseDeadlineExceeded => b.PhaseDeadlineExceeded?
    case RecoveryFailed => b.RecoveryFailed?
    case Recovering => b.Recovering? || b.Failed? || b.RecoveryFailed?
    case _ => Rank(a) <= Rank(b)
  }

  lemma ProgressGoesOn(a: Phase, b: Phase, c: Phase)
    requires MayComeTo(a, b) && ValidProgress(b, c)
    ensures MayComeTo(a, c)
  {
  }

  /** In an accepted journal the records of one transition have one identity, and the last
      of them is one that the earlier ones may come to. */
  lemma {:induction false} RecordsAgree(model: Model, start: Replayed, events: seq<JournalEvent>, i: nat)
    requires i < |events| && ReplayAll(model, start, events).Some?
    ensures var t := events[i].transition; var r := ReplayAll(model, start, events).value;
            && t.id in r.transitions && SameIdentity(t, r.transitions[t.id]) && MayComeTo(t.phase, r.transitions[t.id].phase)
  {
    hide Defined, ModesAfter, RunningAfter, PlansAfter, ValidIdentity, ValidPlan, ValidFailure, ValidProgress, MayComeTo;
    var front, last := events[..|events| - 1], events[|events| - 1];
    if i == |events| - 1 {
      MayStay(last.transition.phase);
    } else {
      RecordsAgree(model, start, front, i);
      var before := ReplayAll(model, start, front).value;
      var t := events[i].transition;
      if last.transition.id == t.id {
        ProgressGoesOn(t.phase, before.transitions[t.id].phase, last.transition.phase);
      }
    }
  }

  lemma MayStay(phase: Phase)
    ensures MayComeTo(phase, phase)
  {
  }

  /** Any two records of one transition in an accepted journal. */
  lemma AcceptedIsConsistent(model: Model, events: seq<JournalEvent>, i: nat, j: nat)
    requires i <= j < |events| && events[i].transition.id == events[j].transition.id
    requires ReplayAll(model, Fresh(model), events).Some?
    ensures var a, b := events[i].transition, events[j].transition;
            && a.domain == b.domain && a.source == b.source && a.target == b.target && MayComeTo(a.phase, b.phase)
  {
    hide MayComeTo, Fresh, Acceptable, Step, ReplayAll;
    PrefixIsAccepted(model, Fresh(model), events, j + 1);
    var part := events[..j + 1];
    RecordsAgree(model, Fresh(model), part, i);
    LastIsKept(model, Fresh(model), part);
  }

  lemma LastIsKept(model: Model, start: Replayed, events: seq<JournalEvent>)
    requires events != [] && ReplayAll(model, start, events).Some?
    ensures var t := events[|events| - 1].transition; var r := ReplayAll(model, start, events).value;
            t.id in r.transitions && r.transitions[t.id] == t
  {
    hide Acceptable;
  }

  // ---------------------------------------------------------------------
  // The loop itself
  // ---------------------------------------------------------------------

  method Erase(running: set<UnitId>, units: seq<UnitId>) returns (r: set<UnitId>)
    ensures r == running - (set x | x in units)
  {
    r := running;
    for i := 0 to |units|
      invariant r == running - (set x | x in units[..i])
    {
      r := r - {units[i]};
      assert units[..i + 1] == units[..i] + [units[i]];
    }
    assert units[..|units|] == units;
  }

  method Insert(running: set<UnitId>, units: seq<UnitId>) returns (r: set<UnitId>)
    ensures r == running + (set x | x in units)
  {
    r := running;
    for i := 0 to |units|
      invariant r == running + (set x | x in units[..i])
    {
      r := r + {units[i]};
      assert units[..i + 1] == units[..i] + [units[i]];
    }
    assert units[..|units|] == units;
  }

  method ReplayFailure(model: Model, domain: DomainId, failure: Failure, modes: map<DomainId, ModeId>, running: set<UnitId>)
    returns (ok: bool, modes': map<DomainId, ModeId>, running': set<UnitId>)
    ensures ok == ValidFailure(model, domain, failure)
    ensures ok ==> modes' == (if failure.recoveredMode.Some? then modes[domain := failure.recoveredMode.value] else modes)
    ensures ok ==> running' == running - (set x | x in failure.stopped) + (set x | x in failure.started)
  {
    hide KnownUnits, Defined;
    modes', running' := modes, running;
    if failure.recoveredMode.Some? {
      if !Defined(model, domain, failure.recoveredMode.value) { return false, modes', running'; }
      modes' := modes[domain := failure.recoveredMode.value];
    }
    if !KnownUnits(model, failure.stopped) { return false, modes', running'; }
    running' := Erase(running', failure.stopped);
    if !KnownUnits(model, failure.started) { return false, modes', running'; }
    running' := Insert(running', failure.started);
    ok := true;
  }

  /** One event, over the state it updates in place. */
  method ReplayEvent(model: Model, before: Replayed, event: JournalEvent) returns (r: Option<Replayed>)
    ensures r == if Acceptable(model, before, event) then Some(Step(model, before, event)) else None
  {
    hide ValidIdentity, ValidProgress, KnownUnits, ValidPlan, SameIdentity, Defined, ValidFailure;
    var transition := event.transition;
    if event.generation != model.generation { return None; }
    if !ValidIdentity(model, transition) { return None; }
    if transition.id in before.transitions {
      var previous := before.transitions[transition.id];
      if !SameIdentity(previous, transition) || !ValidProgress(previous.phase, transition.phase) { return None; }
    }
    var modes, running, plans := before.modes, before.running, before.plans;
    var transitions := before.transitions[transition.id := transition];
    var next := if transition.id + 1 > before.next then transition.id + 1 else before.next;
    if event.plan.Some? {
      if !ValidPlan(model, transition, event.generation, event.plan.value) { return None; }
      plans := plans[transition.id := event.plan.value];
    }
    if transition.failure.Some? {
      var ok;
      ok, modes, running := ReplayFailure(model, transition.domain, transition.failure.value, modes, running);
      if !ok { return None; }
    }
    if transition.phase.Succeeded? {
      if transition.id !in plans { return None; }
      var plan := plans[transition.id];
      modes := modes[plan.domain := plan.target];
      running := Erase(running, plan.stop);
      running := Insert(running, plan.start);
    }
    return Some(Replayed(modes, running, transitions, plans, next));
  }

  method ReplayJournal(model: Model, start: Replayed, events: seq<JournalEvent>) returns (r: Option<Replayed>)
    ensures r == ReplayAll(model, start, events)
  {
    hide Acceptable, Step;
    var state := start;
    for i := 0 to |events|
      invariant ReplayAll(model, start, events[..i]) == Some(state)
    {
      ReplayOneMore(model, start, events[..i], events[i]);
      assert events[..i + 1] == events[..i] + [events[i]];
      var after := ReplayEvent(model, state, events[i]);
      if after.None? {
        if ReplayAll(model, start, events).Some? {
          PrefixIsAccepted(model, start, events, i + 1);
        }
        return None;
      }
      state := after.value;
    }
    assert events[..|events|] == events;
    return Some(state);
  }
}
