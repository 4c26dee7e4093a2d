/** The main results about runs of the execution protocol: any interleaving of
    transitions, any backend behaviour, crashes and restarts included. */
module ProtocolTheorems {
  import opened Wrappers
  import opened ExecutionModel
  import opened Planner
  import opened JournalEvents
  import opened Replay
  import opened ModeConstraints
  import Scheduler
  import opened Protocol
  import opened ProtocolInvariant
  import opened ProtocolSteps

  ghost predicate Next(model: Model, s: State, a: Action, s': State)
    requires WellFormed(model)
  {
    s.running <= Units(model).Keys && Enabled(model, s, a) && s' == Apply(model, s, a)
  }

  /** A run from a fresh start. */
  ghost predicate IsRun(model: Model, states: seq<State>, actions: seq<Action>) {
    && WellFormed(model)
    && |states| == |actions| + 1
    && states[0] == Start(model)
    && forall i :: 0 <= i < |actions| ==> Next(model, states[i], actions[i], states[i + 1])
  }

  predicate Clean(model: Model, journal: seq<JournalEvent>) {
    forall event <- journal :: Named(model, event.transition)
  }

  lemma {:induction false} CleanIsKept(model: Model, journal: seq<JournalEvent>)
    requires Clean(model, journal)
    ensures Kept(model, journal) == journal
  {
    if journal != [] {
      CleanIsKept(model, journal[..|journal| - 1]);
    }
  }

  lemma AcceptedIsClean(model: Model, journal: seq<JournalEvent>)
    requires ReplayAll(model, Fresh(model), journal).Some?
    ensures Clean(model, journal)
  {
    hide ReplayAll, Fresh, DomainIndex, ModeIndex;
    forall event <- journal ensures Named(model, event.transition) {
      var n :| 0 <= n < |journal| && journal[n] == event;
      if !Named(model, event.transition) {
        RejectedPrefixRejects(model, Fresh(model), journal, n);
      }
    }
  }

  lemma StartIsConsistent(model: Model)
    requires WellFormed(model)
    ensures Inv(model, Start(model)) && PrefixesSurvive(model, Start(model).journal)
  {
    hide WellFormed, UnitIndex, Fits, DurableOk, VolatileOk, Required, InitialModes;
    RequiredIsKnown(model, InitialModes(model));
    FreshIsDurable(model);
    FreshIsVolatile(model);
    assert Start(model).journal[..0] == [];
  }

  lemma FreshFits(model: Model)
    requires WellFormed(model)
    ensures Fits(model, InitialModes(model))
  {
    hide WellFormed, ConstraintsHold;
    InitialIsComplete(model);
  }

  lemma FreshIsDurable(model: Model)
    requires WellFormed(model)
    ensures DurableOk(model, Fresh(model))
  {
    hide WellFormed, Fits, InitialModes, Required;
    FreshFits(model);
  }

  lemma FreshIsVolatile(model: Model)
    requires WellFormed(model)
    ensures VolatileOk(model, Start(model), Fresh(model))
  {
    hide WellFormed, DomainIndex, ModeIndex, ConstraintsHold, Required;
    FreshFits(model);
  }

  /** Every state of every run satisfies the invariant, and so would what any crash at
      that point leaves. */
  lemma {:induction false} RunKeepsInvariant(model: Model, states: seq<State>, actions: seq<Action>, n: nat)
    requires IsRun(model, states, actions) && n < |states|
    ensures Inv(model, states[n]) && PrefixesSurvive(model, states[n].journal)
  {
    hide WellFormed, Inv, Start, Apply, Enabled, ReplayAll, Kept, Fresh, DurableOk, PrefixesSurvive;
    if n == 0 {
      StartIsConsistent(model);
    } else {
      RunKeepsInvariant(model, states, actions, n - 1);
      var s, a := states[n - 1], actions[n - 1];
      assert Next(model, s, a, states[n]);
      if a.Restart? {
        RestartIsEnabled(model, s, a);
        AcceptedIsClean(model, s.journal);
        CleanIsKept(model, s.journal);
      } else if a.Crash? {
        CrashIsSurvived(model, s, a);
      }
      StepKeeps(model, s, a);
      PrefixesKept(model, s, a);
    }
  }

  lemma RestartIsEnabled(model: Model, s: State, a: Action)
    requires a.Restart? && Enabled(model, s, a)
    ensures ReplayAll(model, Fresh(model), s.journal).Some?
  {
    hide ReplayAll, Fresh;
  }

  lemma CrashIsSurvived(model: Model, s: State, a: Action)
    requires a.Crash? && Enabled(model, s, a) && PrefixesSurvive(model, s.journal)
    ensures a.kept <= |s.journal| && Survives(model, s.journal[..a.kept])
  {
    hide Survives;
  }

  /** The committed modes of a model satisfy the constraints in every reachable
      state, in memory and in what a restart would rebuild, if and only if the
      initial modes satisfy them. */
  lemma ConstraintsAlwaysHold(model: Model)
    requires WellFormed(model)
    ensures ConstraintsHold(model, InitialModes(model)) <==>
            forall states, actions, n: nat :: IsRun(model, states, actions) && n < |states| ==> ModesFit(model, states[n])
  {
    hide WellFormed, Start, ConstraintsHold, IsRun, ModesFit;
    if ConstraintsHold(model, InitialModes(model)) {
      forall states, actions, n: nat | IsRun(model, states, actions) && n < |states|
        ensures ModesFit(model, states[n])
      {
        RunKeepsInvariant(model, states, actions, n);
        InvariantFits(model, states[n]);
      }
    } else {
      EmptyRun(model);
      assert IsRun(model, [Start(model)], []);
      assert !ModesFit(model, [Start(model)][0]);
    }
  }

  /** The constraints hold in memory, and in what a restart rebuilds after a crash that
      keeps any number of records. */
  ghost predicate ModesFit(model: Model, s: State) {
    && (s.up ==> ConstraintsHold(model, s.modes))
    && (forall k :: 0 <= k <= |s.journal| && ReplayAll(model, Fresh(model), s.journal[..k]).Some? ==>
          ConstraintsHold(model, ReplayAll(model, Fresh(model), s.journal[..k]).value.modes))
  }

  /** Said of one selection: the modes in memory at some point of a run, or those that a
      restart rebuilds from any part of the journal at that point.  Every selected mode
      finds the modes that it requires selected, and none of those that it excludes. */
  lemma EveryConstraintIsMet(model: Model, states: seq<State>, actions: seq<Action>, n: nat, k: nat, modes: Modes)
    requires IsRun(model, states, actions) && n < |states|
    requires
      || (states[n].up && modes == states[n].modes)
      || (k <= |states[n].journal| && ReplayAll(model, Fresh(model), states[n].journal[..k]).Some? &&
          modes == ReplayAll(model, Fresh(model), states[n].journal[..k]).value.modes)
    requires var initial := InitialModes(model);
             forall selected <- initial :: Defined(model, selected, initial[selected]) &&
               forall c <- FindMode(model, selected, initial[selected]).constraints ::
                 var met := c.other.domain in initial && initial[c.other.domain] == c.other.mode;
                 (c.kind.RequiresMode? ==> met) && (c.kind.ExcludesMode? ==> !met)
    ensures forall selected <- modes :: Defined(model, selected, modes[selected]) &&
              forall c <- FindMode(model, selected, modes[selected]).constraints ::
                var met := c.other.domain in modes && modes[c.other.domain] == c.other.mode;
                (c.kind.RequiresMode? ==> met) && (c.kind.ExcludesMode? ==> !met)
  {
    hide WellFormed, Start, Defined, FindMode, ConstraintsHold, IsRun, ReplayAll, Fresh, InitialModes;
    ConstraintsMean(model, InitialModes(model));
    ConstraintsMean(model, modes);
    RunLength(model, states, actions);
    ConstraintsAlwaysHold(model);
    assert ModesFit(model, states[n]);
  }

  lemma EmptyRun(model: Model)
    requires WellFormed(model)
    ensures IsRun(model, [Start(model)], [])
    ensures ModesFit(model, Start(model)) ==> ConstraintsHold(model, InitialModes(model))
  {
  }

  lemma InvariantFits(model: Model, s: State)
    requires Inv(model, s) && PrefixesSurvive(model, s.journal) && ConstraintsHold(model, InitialModes(model))
    ensures ModesFit(model, s)
  {
    hide WellFormed, ReplayAll, Fresh, Kept, ConstraintsHold, AllStatic, AllRecorded, AllLeased, AllFrozen, Agree, IdsBelow, EntryOk, Survives;
    forall k | 0 <= k <= |s.journal| && ReplayAll(model, Fresh(model), s.journal[..k]).Some?
      ensures ConstraintsHold(model, ReplayAll(model, Fresh(model), s.journal[..k]).value.modes)
    {
      SurvivorFits(model, s.journal[..k]);
    }
  }

  lemma SurvivorFits(model: Model, journal: seq<JournalEvent>)
    requires Survives(model, journal) && ReplayAll(model, Fresh(model), journal).Some?
    requires ConstraintsHold(model, InitialModes(model))
    ensures ConstraintsHold(model, ReplayAll(model, Fresh(model), journal).value.modes)
  {
    hide ReplayAll, Fresh, Kept, ConstraintsHold, EntryOk;
    AcceptedIsClean(model, journal);
    CleanIsKept(model, journal);
  }

  /** Replay accepts what is left of the journal of a run, after a crash that keeps any
      number of records, if and only if each of these records names a defined mode. */
  lemma ReplayAcceptsIffNamed(model: Model, states: seq<State>, actions: seq<Action>, n: nat, k: nat)
    requires IsRun(model, states, actions) && n < |states| && k <= |states[n].journal|
    ensures ReplayAll(model, Fresh(model), states[n].journal[..k]).Some? <==> Clean(model, states[n].journal[..k])
  {
    hide IsRun, Inv, ReplayAll, Fresh, Kept, Clean, DurableOk;
    RunKeepsInvariant(model, states, actions, n);
    var journal := states[n].journal[..k];
    assert Survives(model, journal);
    if Clean(model, journal) {
      CleanIsKept(model, journal);
    } else if ReplayAll(model, Fresh(model), journal).Some? {
      AcceptedIsClean(model, journal);
      assert false;
    }
  }

  /** Whatever interleaves, two transitions between lease and final record stop or start
      different units, use different exclusive resources and are guarded by different
      domains. */
  lemma ConcurrentPlansAreApart(model: Model, states: seq<State>, actions: seq<Action>, n: nat, a: TransitionId, b: TransitionId)
    requires IsRun(model, states, actions) && n < |states| && states[n].up && a != b
    requires a in states[n].transitions && HoldsLease(states[n].transitions[a].position)
    requires b in states[n].transitions && HoldsLease(states[n].transitions[b].position)
    ensures var p, q := states[n].transitions[a].plan, states[n].transitions[b].plan;
            && p.Some? && q.Some?
            && (forall unit <- p.value.stop + p.value.start :: unit !in q.value.stop && unit !in q.value.start)
            && (forall resource <- p.value.resources :: resource !in q.value.resources)
            && (forall domain <- p.value.guarded :: domain !in q.value.guarded)
            && p.value.domain in p.value.guarded && q.value.domain in q.value.guarded
            && p.value.domain != q.value.domain
  {
    hide IsRun, WellFormed, UnitIndex, Kept, ReplayAll, Fresh, DurableOk, Fits, AllRecorded, AllFrozen, Agree, IdsBelow, PrefixesSurvive;
    RunKeepsInvariant(model, states, actions, n);
    var s := states[n];
    assert LeaseOk(s.leases, a, s.transitions[a]) && LeaseOk(s.leases, b, s.transitions[b]);
    assert Scheduler.Disjoint(s.leases[a], s.leases[b]);
    PlanGuardsItself(model, a, s.transitions[a]);
    PlanGuardsItself(model, b, s.transitions[b]);
  }

  lemma PlanGuardsItself(model: Model, id: TransitionId, t: Transition)
    requires StaticOk(model, id, t) && t.plan.Some?
    ensures t.plan.value.domain in t.plan.value.guarded
  {
    hide Defined, KnownUnits, DomainNeighbours;
  }

  predicate AllNamed(model: Model, s: State) {
    Clean(model, s.journal) && forall id <- s.transitions :: Named(model, s.transitions[id].snapshot)
  }

  /** Requests that name defined modes leave a clean journal. */
  lemma {:induction false} NamedRequestsStayClean(model: Model, states: seq<State>, actions: seq<Action>, n: nat)
    requires IsRun(model, states, actions) && n < |states|
    requires forall i :: 0 <= i < n && actions[i].Accept? ==> Defined(model, actions[i].domain, actions[i].target)
    ensures AllNamed(model, states[n])
  {
    hide WellFormed, Units, Defined, Apply, Enabled, Clean;
    if n == 0 {
      StartIsNamed(model);
    } else {
      NamedRequestsStayClean(model, states, actions, n - 1);
      assert Next(model, states[n - 1], actions[n - 1], states[n]);
      CleanStep(model, states[n - 1], actions[n - 1]);
    }
  }

  lemma StartIsNamed(model: Model)
    ensures AllNamed(model, Start(model))
  {
  }

  lemma CleanStep(model: Model, s: State, a: Action)
    requires WellFormed(model) && s.running <= Units(model).Keys && Enabled(model, s, a) && AllNamed(model, s)
    requires a.Accept? ==> Defined(model, a.domain, a.target)
    ensures AllNamed(model, Apply(model, s, a))
  {
    hide WellFormed, Units, Defined, Apply, Enabled, AllNamed;
    match a
    case Accept(_, _, _, _, _) => CleanAccept(model, s, a);
    case Restart(_) => CleanRestart(model, s, a);
    case Crash(_) => CleanCrash(model, s, a);
    case RecordRefusal(_, _) => CleanRecord(model, s, a);
    case RecordPhase(_, _, _) => CleanRecord(model, s, a);
    case BeginRecovery(_, _, _) => CleanRecord(model, s, a);
    case RecordRecovered(_, _, _) => CleanRecord(model, s, a);
    case RecordRecoveryFailed(_, _, _) => CleanRecord(model, s, a);
    case RecordFailure(_, _) => CleanRecord(model, s, a);
    case Finalize(_, _, _) => CleanRecord(model, s, a);
    case _ => CleanMove(model, s, a);
  }

  predicate Records(a: Action) {
    a.RecordRefusal? || a.RecordPhase? || a.BeginRecovery? || a.RecordRecovered? || a.RecordRecoveryFailed? ||
    a.RecordFailure? || a.Finalize?
  }

  lemma CleanAccept(model: Model, s: State, a: Action)
    requires WellFormed(model) && s.running <= Units(model).Keys && a.Accept? && Enabled(model, s, a)
    requires AllNamed(model, s) && Defined(model, a.domain, a.target)
    ensures AllNamed(model, Apply(model, s, a))
  {
    hide WellFormed, UnitIndex, Defined, Clean, Plannable, PlanFor, Complete;
  }

  lemma RecordedIsNamed(model: Model, s: State, id: TransitionId, phase: Phase, at: int, failure: Option<Failure>, position: Position)
    requires AllNamed(model, s) && id in s.transitions
    ensures AllNamed(model, Recorded(model, s, id, phase, at, failure, position))
  {
    hide Defined;
  }

  /** A recording step is the record of one transition. */
  lemma RecordingStep(model: Model, s: State, a: Action)
    returns (phase: Phase, failure: Option<Failure>, position: Position)
    requires WellFormed(model) && s.running <= Units(model).Keys && Records(a) && Enabled(model, s, a)
    ensures a.id in s.transitions && Apply(model, s, a) == Recorded(model, s, a.id, phase, a.at, failure, position)
  {
    hide WellFormed, UnitIndex, KnownUnits, Recovery, Fallback, Recorded;
    match a {
      case RecordRefusal(id, at) =>
        var error := s.transitions[id].position.error;
        phase, failure, position := FailurePhase(error.code), Some(PlainFailure(error)), Finished;
      case RecordPhase(id, p, at) =>
        var t := s.transitions[id];
        phase, failure, position := p, t.snapshot.failure, After(t.position, t.snapshot.phase, p).value;
      case BeginRecovery(id, f, at) => phase, failure, position := Recovering, Some(f), InRecovery;
      case RecordRecovered(id, f, at) => phase, failure, position := Failed, Some(f), Finished;
      case RecordRecoveryFailed(id, f, at) => phase, failure, position := RecoveryFailed, Some(f), Finished;
      case RecordFailure(id, at) =>
        var f := s.transitions[id].position.failure;
        phase, failure, position := FailurePhase(f.error.code), Some(f), Finished;
      case Finalize(id, error, at) =>
        phase, failure, position := FailurePhase(error.code), Some(PlainFailure(error)), Finished;
    }
  }

  lemma CleanRecord(model: Model, s: State, a: Action)
    requires WellFormed(model) && s.running <= Units(model).Keys && Records(a) && Enabled(model, s, a) && AllNamed(model, s)
    ensures AllNamed(model, Apply(model, s, a))
  {
    hide WellFormed, Units, Enabled, Apply, Recorded, AllNamed;
    var phase, failure, position := RecordingStep(model, s, a);
    RecordedIsNamed(model, s, a.id, phase, a.at, failure, position);
  }

  lemma CleanMove(model: Model, s: State, a: Action)
    requires WellFormed(model) && s.running <= Units(model).Keys && Enabled(model, s, a) && AllNamed(model, s)
    requires !Records(a) && !a.Accept? && !a.Restart? && !a.Crash?
    ensures AllNamed(model, Apply(model, s, a))
  {
    hide WellFormed, UnitIndex, DomainIndex, ModeIndex, Defined, Clean, StillPlanned, KnownUnits, Plannable, Recovery, Fallback;
  }

  lemma CleanCrash(model: Model, s: State, a: Action)
    requires WellFormed(model) && s.running <= Units(model).Keys && a.Crash? && Enabled(model, s, a) && AllNamed(model, s)
    ensures AllNamed(model, Apply(model, s, a))
  {
    hide WellFormed, UnitIndex, Defined;
  }

  lemma CleanRestart(model: Model, s: State, a: Action)
    requires WellFormed(model) && s.running <= Units(model).Keys && a.Restart? && Enabled(model, s, a) && AllNamed(model, s)
    ensures AllNamed(model, Apply(model, s, a))
  {
    hide WellFormed, UnitIndex, Defined, Clean, ReplayAll, Fresh;
    ReplayedIsNamed(model, s.journal);
  }

  lemma {:induction false} ReplayedIsNamed(model: Model, journal: seq<JournalEvent>)
    requires Clean(model, journal) && ReplayAll(model, Fresh(model), journal).Some?
    ensures var r := ReplayAll(model, Fresh(model), journal).value;
            forall id <- r.transitions :: Named(model, r.transitions[id])
  {
    hide Defined, ModesAfter, RunningAfter, Acceptable, PlansAfter;
    if journal != [] {
      ReplayedIsNamed(model, journal[..|journal| - 1]);
    }
  }

  /** If every request names a defined mode, replay accepts the journal at every
      point of the run, after a crash that keeps any number of records. */
  lemma NamedRequestsReplay(model: Model, states: seq<State>, actions: seq<Action>, n: nat, k: nat)
    requires IsRun(model, states, actions) && n < |states|
    requires forall i :: 0 <= i < n && actions[i].Accept? ==> Defined(model, actions[i].domain, actions[i].target)
    requires k <= |states[n].journal|
    ensures ReplayAll(model, Fresh(model), states[n].journal[..k]).Some?
  {
    hide IsRun, ReplayAll, Fresh, Defined;
    NamedRequestsStayClean(model, states, actions, n);
    ReplayAcceptsIffNamed(model, states, actions, n, k);
  }

  /** The modes that replay rebuilds are the modes in memory, except for domains
      with a transition between its commit and its final record. */
  lemma RebuiltModesAgree(model: Model, states: seq<State>, actions: seq<Action>, n: nat)
    requires IsRun(model, states, actions) && n < |states|
    requires states[n].up && Clean(model, states[n].journal)
    requires forall id <- states[n].transitions :: !Unsettled(states[n].transitions[id].position)
    ensures ReplayAll(model, Fresh(model), states[n].journal).Some?
    ensures ReplayAll(model, Fresh(model), states[n].journal).value.modes == states[n].modes
  {
    hide IsRun, ReplayAll, Fresh, Kept, Inv, PrefixesSurvive, Clean;
    RunKeepsInvariant(model, states, actions, n);
    CleanIsKept(model, states[n].journal);
    SettledAgrees(model, states[n]);
  }

  lemma SettledAgrees(model: Model, s: State)
    requires Inv(model, s) && s.up && forall id <- s.transitions :: !Unsettled(s.transitions[id].position)
    ensures Durable(model, s).Some? && Durable(model, s).value.modes == s.modes
  {
    hide WellFormed, UnitIndex, DomainIndex, ReplayAll, Fresh, Kept, Defined, StartsSound, ConstraintsHold, AllStatic, AllRecorded, AllLeased, AllFrozen, IdsBelow, EntryOk, ReplayConsistent;
  }

  /** After a restart only the finalization of interrupted transitions is left
      between the engine and a state in which every transition is terminal. */
  lemma {:induction false} RestartSettles(model: Model, states: seq<State>, actions: seq<Action>, k: nat, n: nat)
    requires IsRun(model, states, actions) && k < n < |states|
    requires actions[k].Restart? && forall i :: k < i < n ==> actions[i].Finalize?
    ensures forall id <- states[n].transitions ::
              || Terminal(states[n].transitions[id].snapshot.phase)
              || (states[n].transitions[id].position.Interrupted? &&
                  forall error: Error, at: int :: error.code == BackendUnavailable ==>
                    Enabled(model, states[n], Finalize(id, error, at)))
  {
    hide IsRun, Inv, PrefixesSurvive, Terminal;
    RunKeepsInvariant(model, states, actions, n);
    OnlySettling(model, states, actions, k, n);
    forall id <- states[n].transitions | states[n].transitions[id].position.Finished?
      ensures Terminal(states[n].transitions[id].snapshot.phase)
    {
      FinishedIsTerminal(model, states[n], id);
    }
  }

  lemma FinishedIsTerminal(model: Model, s: State, id: TransitionId)
    requires Inv(model, s) && At(s, id) && s.transitions[id].position.Finished?
    ensures Terminal(s.transitions[id].snapshot.phase)
  {
    hide Inv, ValidIdentity, PlanFits, Defined, FrozenOk, LeaseOk;
    OneTransition(model, s, id);
  }

  /** The engine is up, and every transition is finished or interrupted. */
  predicate Settling(s: State) {
    s.up && forall id <- s.transitions :: s.transitions[id].position.Finished? || s.transitions[id].position.Interrupted?
  }

  lemma {:induction false} OnlySettling(model: Model, states: seq<State>, actions: seq<Action>, k: nat, n: nat)
    requires IsRun(model, states, actions) && k < n < |states|
    requires actions[k].Restart? && forall i :: k < i < n ==> actions[i].Finalize?
    ensures Settling(states[n])
  {
    hide WellFormed, Units, Apply, Enabled, Settling, Start;
    assert Next(model, states[n - 1], actions[n - 1], states[n]);
    if k < n - 1 {
      OnlySettling(model, states, actions, k, n - 1);
    }
    SettlingStep(model, states[n - 1], actions[n - 1]);
  }

  lemma SettlingStep(model: Model, s: State, a: Action)
    requires WellFormed(model) && s.running <= Units(model).Keys && Enabled(model, s, a)
    requires a.Restart? || (a.Finalize? && Settling(s))
    ensures Settling(Apply(model, s, a))
  {
    hide WellFormed, UnitIndex, ReplayAll, Fresh, Terminal;
  }

  function Unfinished(s: State): set<TransitionId> {
    set id <- s.transitions | s.transitions[id].position.Interrupted?
  }

  /** One restart, carried through, leaves every transition terminal: finalizing the
      interrupted transitions one by one is a run, and ends with none left. */
  lemma {:induction false} RestartLeavesAllTerminal(model: Model, states: seq<State>, actions: seq<Action>, k: nat)
    returns (states': seq<State>, actions': seq<Action>)
    requires IsRun(model, states, actions) && k < |actions|
    requires actions[k].Restart? && forall i :: k < i < |actions| ==> actions[i].Finalize?
    ensures IsRun(model, states', actions') && actions <= actions'
    ensures forall i :: k < i < |actions'| ==> actions'[i].Finalize?
    ensures var s := states'[|actions'|];
            s.up && forall id <- s.transitions :: Terminal(s.transitions[id].snapshot.phase)
    decreases |Unfinished(states[|actions|])|
  {
    hide IsRun, WellFormed, Inv, PrefixesSurvive, Terminal, Apply;
    var n := |actions|;
    assert n < |states| by { RunLength(model, states, actions); }
    var s := states[n];
    RestartSettles(model, states, actions, k, n);
    OnlySettling(model, states, actions, k, n);
    if Unfinished(s) == {} {
      states', actions' := states, actions;
      forall id <- s.transitions
        ensures Terminal(s.transitions[id].snapshot.phase)
      {
        assert id !in Unfinished(s);
      }
    } else {
      var id :| id in Unfinished(s);
      var a := Finalize(id, Error(BackendUnavailable, [], 0), 0);
      RunKeepsInvariant(model, states, actions, n);
      KnownUnitsRun(model, s);
      RunLength(model, states, actions);
      FinalizeIsEnabled(model, s, id);
      ExtendRun(model, states, actions, a);
      OneLess(model, s, id);
      states', actions' := RestartLeavesAllTerminal(model, states + [Apply(model, s, a)], actions + [a], k);
    }
  }

  lemma RunLength(model: Model, states: seq<State>, actions: seq<Action>)
    requires IsRun(model, states, actions)
    ensures |states| == |actions| + 1 && WellFormed(model)
  {
    hide WellFormed, Next, Start;
  }

  lemma KnownUnitsRun(model: Model, s: State)
    requires Inv(model, s)
    ensures s.running <= Units(model).Keys
  {
  }

  lemma FinalizeIsEnabled(model: Model, s: State, id: TransitionId)
    requires s.up && id in Unfinished(s)
    ensures Enabled(model, s, Finalize(id, Error(BackendUnavailable, [], 0), 0))
  {
  }

  lemma OneLess(model: Model, s: State, id: TransitionId)
    requires WellFormed(model) && s.running <= Units(model).Keys && id in Unfinished(s)
    requires Enabled(model, s, Finalize(id, Error(BackendUnavailable, [], 0), 0))
    ensures Unfinished(Apply(model, s, Finalize(id, Error(BackendUnavailable, [], 0), 0))) == Unfinished(s) - {id}
  {
    hide WellFormed, Units, Terminal;
  }

  lemma ExtendRun(model: Model, states: seq<State>, actions: seq<Action>, a: Action)
    requires IsRun(model, states, actions)
    requires var s := states[|states| - 1]; s.running <= Units(model).Keys && Enabled(model, s, a)
    ensures var s := states[|states| - 1]; IsRun(model, states + [Apply(model, s, a)], actions + [a])
  {
    hide WellFormed, Enabled, Apply, Start;
    var s := states[|states| - 1];
    var after, taken := states + [Apply(model, s, a)], actions + [a];
    forall i | 0 <= i < |taken| ensures Next(model, after[i], taken[i], after[i + 1]) {
      if i < |actions| {
        assert Next(model, states[i], actions[i], states[i + 1]);
      }
    }
  }

  /** Whatever undefined mode is requested, of a defined domain or not: the refusal is
      recorded like any other, and the engine can then not be created from its journal. */
  lemma UndefinedModeBlocksReplay(model: Model, domain: DomainId, target: ModeId)
    requires WellFormed(model) && !Defined(model, domain, target)
    ensures exists states: seq<State>, actions: seq<Action> ::
              && IsRun(model, states, actions) && |actions| == 2 && actions[1].RecordRefusal?
              && actions[0].Accept? && actions[0].domain == domain && actions[0].target == target
              && ReplayAll(model, Fresh(model), states[2].journal).None?
  {
    hide WellFormed, Units, IsRun, Apply, Enabled, ReplayAll, Fresh, Defined;
    var s0 := Start(model);
    var error := Error(NotFound, [], 0);
    EmptyRun(model);
    RequestIsEntered(model, domain, target, error);
    var a0 := Accept(Configured(model, s0), domain, target, error, 0);
    ExtendRun(model, [s0], [], a0);
    var s1 := Apply(model, s0, a0);
    assert [s0] + [s1] == [s0, s1] && [] + [a0] == [a0];
    ExtendRun(model, [s0, s1], [a0], RecordRefusal(1, 0));
    var s2 := Apply(model, s1, RecordRefusal(1, 0));
    assert [s0, s1] + [s2] == [s0, s1, s2];
    assert [a0] + [RecordRefusal(1, 0)] == [a0, RecordRefusal(1, 0)];
    RejectedPrefixRejects(model, Fresh(model), s2.journal, 0);
    assert IsRun(model, [s0, s1, s2], [a0, RecordRefusal(1, 0)]);
    assert [s0, s1, s2][2] == s2;
  }

  /** The first request of a fresh engine, when it names no defined mode. */
  lemma RequestIsEntered(model: Model, domain: DomainId, target: ModeId, error: Error)
    requires WellFormed(model) && !Defined(model, domain, target)
    ensures var s0 := Start(model); var a0 := Accept(Configured(model, s0), domain, target, error, 0);
            && s0.running <= Units(model).Keys && Enabled(model, s0, a0)
            && var s1 := Apply(model, s0, a0);
            && s1.running <= Units(model).Keys && Enabled(model, s1, RecordRefusal(1, 0))
            && var s2 := Apply(model, s1, RecordRefusal(1, 0));
            && |s2.journal| == 1 && !ValidIdentity(model, s2.journal[0].transition)
  {
    hide WellFormed, UnitIndex, DomainIndex, ModeIndex, Required, Selects, Complete;
    RequiredIsKnown(model, InitialModes(model));
    InitialIsComplete(model);
  }

  lemma InitialIsComplete(model: Model)
    requires WellFormed(model)
    ensures Complete(model, InitialModes(model))
  {
    hide WellFormed, DomainIndex, ModeIndex;
    InitialModesAreDefined(model);
  }
}
