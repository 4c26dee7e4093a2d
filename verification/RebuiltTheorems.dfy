/** When a recovery that was carried through is rebuilt as it was left, and a history in
    which it is not. */
module RebuiltTheorems {
  import opened Wrappers
  import opened ExecutionModel
  import opened Sorting
  import opened UnitOrder
  import opened Planner
  import opened PlanSafety
  import opened JournalEvents
  import opened Environment
  import opened RebuiltUnits
  import opened ModeConstraints
  import opened Protocol
  import opened ProtocolTheorems
  import opened Engine

  /** A completed fallback reports every unit that the failed transition had touched if and
      only if the fallback mode needs all that was stopped and nothing that was started. */
  lemma FallbackSettlesIff(model: Model, before: Configuration, after: Configuration, snapshot: Snapshot, notes: seq<Note>,
                           fallback: ModeId, stopped: seq<UnitId>, started: seq<UnitId>)
    requires WellFormed(model) && before.running - ToSet(stopped) + ToSet(started) <= Units(model).Keys
    requires ToSet(stopped) <= before.running && ToSet(started) !! before.running
    requires FellBackTo(model, before.(running := before.running - ToSet(stopped) + ToSet(started)), after, snapshot, notes, fallback)
    requires snapshot.phase.Failed?
    ensures ToSet(stopped) + ToSet(started) <= FailureUnits(snapshot.failure.value) <==>
            ToSet(stopped) <= Required(model, after.modes) && ToSet(started) !! Required(model, after.modes)
    ensures after.running == Required(model, after.modes)
  {
    hide WellFormed, UnitIndex, Required, PlanFor, CarriedOut, BrokenOff, ConstraintsHold, Selects, Closed, Defined;
    var middle := before.(running := before.running - ToSet(stopped) + ToSet(started));
    PlanReachesRequired(model, middle, snapshot.domain, fallback);
    FallbackTouches(model, middle, snapshot.domain, fallback);
  }

  lemma FallbackTouches(model: Model, current: Configuration, domain: DomainId, fallback: ModeId)
    requires WellFormed(model) && current.running <= Units(model).Keys && domain in current.modes
    ensures var plan := PlanFor(model, current, domain, fallback); var required := Required(model, current.modes[domain := fallback]);
            ToSet(plan.stop) == current.running - required && ToSet(plan.start) == required - current.running
  {
    hide WellFormed, UnitIndex, OrderOf, Required;
    var required := Required(model, current.modes[domain := fallback]);
    RequiredIsKnown(model, current.modes[domain := fallback]);
    OrderIsTopological(model, current.running - required);
    OrderIsTopological(model, required - current.running);
  }

  /** Falling back to the mode that the domain was in is always rebuilt as it was left. */
  lemma ReturnSettles(model: Model, before: Configuration, after: Configuration, snapshot: Snapshot, notes: seq<Note>,
                      stopped: seq<UnitId>, started: seq<UnitId>)
    requires WellFormed(model) && before.running - ToSet(stopped) + ToSet(started) <= Units(model).Keys
    requires ToSet(stopped) <= before.running && ToSet(started) !! before.running
    requires before.running == Required(model, before.modes) && snapshot.domain in before.modes
    requires FellBackTo(model, before.(running := before.running - ToSet(stopped) + ToSet(started)), after, snapshot, notes,
                        before.modes[snapshot.domain])
    requires snapshot.phase.Failed?
    ensures ToSet(stopped) + ToSet(started) <= FailureUnits(snapshot.failure.value)
  {
    hide WellFormed, UnitIndex, Required, PlanFor, CarriedOut, BrokenOff, ConstraintsHold, Selects, Closed, Defined;
    FallbackSettlesIff(model, before, after, snapshot, notes, before.modes[snapshot.domain], stopped, started);
    assert after.modes == before.modes;
  }

  /** A completed stop of the domain does so if and only if nothing had been stopped before,
      and what had been started is not needed by the other domains. */
  lemma StoppingSettlesIff(model: Model, before: Configuration, after: Configuration, snapshot: Snapshot, notes: seq<Note>,
                           stopped: seq<UnitId>, started: seq<UnitId>)
    requires WellFormed(model) && before.running - ToSet(stopped) + ToSet(started) <= Units(model).Keys
    requires ToSet(stopped) <= before.running && ToSet(started) !! before.running
    requires StoppedDomain(model, before.(running := before.running - ToSet(stopped) + ToSet(started)), after, snapshot, notes)
    requires snapshot.phase.Failed?
    ensures ToSet(stopped) + ToSet(started) <= FailureUnits(snapshot.failure.value) <==>
            stopped == [] && ToSet(started) !! Required(model, before.modes - {snapshot.domain})
  {
    hide WellFormed, UnitIndex, Required, OrderOf, CarriedOut, BrokenOff, Stoppable;
    var running := before.running - ToSet(stopped) + ToSet(started);
    var required := Required(model, before.modes - {snapshot.domain});
    OrderIsTopological(model, running - required);
    assert ToSet(OrderOf(model, running - required, true)) == running - required;
    if stopped != [] {
      assert stopped[0] in ToSet(stopped) && stopped[0] !in running - required;
    }
  }

  // ---------------------------------------------------------------------
  // A stop that is forgotten
  // ---------------------------------------------------------------------

  function Plain(id: UnitId, name: string): UnitDefinition {
    UnitDefinition(id, name, Service, ProcessStarted, 1, 1, 1, 0, [], [], false)
  }

  /** One domain: mode 1 with unit 1, mode 2 with unit 2, and a fallback mode 3 without units. */
  function Example(): Model {
    Model(1, [Plain(1, "a"), Plain(2, "b")],
          [DomainDefinition(1, "d", 1, RejectWhileBusy, EnterFallbackMode, 1, 3,
                            [ModeDefinition(1, "p", [1], []), ModeDefinition(2, "q", [2], []), ModeDefinition(3, "r", [], [])])])
  }

  lemma ExampleModes()
    ensures forall domain, mode :: Defined(Example(), domain, mode) <==> domain == 1 && mode in {1, 2, 3}
    ensures Defined(Example(), 1, 1) && FindMode(Example(), 1, 1) == ModeDefinition(1, "p", [1], [])
    ensures Defined(Example(), 1, 2) && FindMode(Example(), 1, 2) == ModeDefinition(2, "q", [2], [])
    ensures Defined(Example(), 1, 3) && FindMode(Example(), 1, 3) == ModeDefinition(3, "r", [], [])
    ensures Domains(Example()).Keys == {1} && Domains(Example())[1] == Example().domains[0]
  {
    hide DomainIndex, ModeIndex;
    var model := Example();
    assert model.domains[0] in model.domains;
    var modes := model.domains[0].modes;
    assert modes[0] in modes && modes[1] in modes && modes[2] in modes;
  }

  lemma ExampleUnits()
    ensures Units(Example()).Keys == {1, 2} && forall id <- Units(Example()) :: Units(Example())[id].dependencies == []
    ensures Units(Example())[1] == Plain(1, "a") && Units(Example())[2] == Plain(2, "b")
  {
    hide UnitIndex;
    var model := Example();
    assert model.units[0] in model.units && model.units[1] in model.units;
  }

  lemma ExampleIsWellFormed()
    ensures WellFormed(Example())
  {
    hide UnitIndex, DomainIndex, ModeIndex, Defined, FindMode, UnitsWellFormed, DomainWellFormed, Assigned, Presentable, Acyclic, ConstraintWellFormed;
    ExampleIsPresentable();
    ExampleUnitsAreWellFormed();
    ExampleDomainIsWellFormed();
    assert forall domain <- Example().domains :: domain == Example().domains[0];
  }

  lemma ExampleUnitsAreWellFormed()
    ensures UnitsWellFormed(Example()) && Acyclic(Units(Example()))
  {
    hide UnitIndex;
    var model := Example();
    ExampleUnits();
    forall path: seq<UnitId> | |path| >= 2 ensures !IsPath(Units(model), path) {
      assert !Edge(Units(model), path[0], path[1]);
    }
  }

  lemma ExampleDomainIsWellFormed()
    ensures DomainWellFormed(Example(), Example().domains[0]) && UniqueDomains(Example().domains)
    ensures forall unit <- Example().units :: Assigned(Example(), unit.id)
    ensures forall mode <- Example().domains[0].modes :: ConstraintWellFormed(Example(), ModeRef(1, mode.id), mode.constraints)
  {
    hide UnitIndex, DomainIndex, ModeIndex;
    var domain := Example().domains[0];
    ExampleUnits();
    assert domain in Example().domains && domain.modes[0] in domain.modes && domain.modes[1] in domain.modes;
    assert domain.modes[2] in domain.modes;
    assert 1 in domain.modes[0].units && 2 in domain.modes[1].units;
  }

  lemma ExampleIsPresentable()
    ensures Presentable(Example())
  {
  }

  /** What the modes of the example require. */
  lemma ExampleRequires(mode: ModeId)
    requires mode in {1, 2, 3}
    ensures Required(Example(), map[1 := mode]) == if mode == 3 then {} else {mode}
    ensures InitialModes(Example()) == map[1 := 1]
    ensures Closed(Example(), Required(Example(), map[1 := mode]))
    ensures ConstraintsHold(Example(), map[1 := mode]) && Selects(Example(), map[1 := mode])
  {
    hide UnitIndex, DomainIndex, ModeIndex, Defined, FindMode;
    ExampleUnits();
    ExampleModes();
    var modes := map[1 := mode];
    assert ModeUnits(Example(), modes, 1) == if mode == 3 then [] else [mode];
    assert Bootstraps(Example()) == {};
    assert forall unit :: unit in Required(Example(), modes) <==> unit in ModeUnits(Example(), modes, 1);
  }

  const STOPPED := Observed(Evidence(StoppedState, 0, 0, 0, []))

  /** The lease is granted, nobody cancels, nothing expires, and every call is answered with
      a stopped unit: stops work, starts do not. */
  function Unwilling(): World {
    World(n => true, n => false, n => false, n => STOPPED, n => None)
  }

  lemma UnwillingIsFine(before: Point, after: Point, notes: seq<Note>, aftermath: seq<Note>)
    requires Witnessed(Unwilling(), before, after, notes + aftermath)
    ensures Favourable(notes) && Favourable(aftermath)
    ensures forall unit :: !StartedIn(Example(), notes, unit, false)
  {
    hide CallsOf, Units;
    forall k | 0 <= k < |notes| ensures Says(Unwilling(), before.asked + k, notes[k]) {
      assert (notes + aftermath)[k] == notes[k];
    }
    forall k | 0 <= k < |aftermath| ensures Says(Unwilling(), before.asked + |notes| + k, aftermath[k]) {
      assert (notes + aftermath)[|notes| + k] == aftermath[k];
    }
  }

  /** Where the unwilling world leads a transition from mode 1 to mode 2. */
  lemma Forgotten(after: Configuration, snapshot: Snapshot, plan: Plan, notes: seq<Note>, aftermath: seq<Note>,
                  stopped: seq<UnitId>, started: seq<UnitId>)
    requires WellFormed(Example()) && snapshot.domain == 1 && ToSet(plan.stop) == {1} && ToSet(plan.start) == {2}
    requires Distinct(plan.start) && PartOf(plan, stopped, started)
    requires Favourable(notes) && Favourable(aftermath) && ShortOf(plan, stopped, started, notes)
    requires {1} - ToSet(stopped) + ToSet(started) <= Units(Example()).Keys
    requires BrokeOff(Example(), Configuration(1, map[1 := 1], {1} - ToSet(stopped) + ToSet(started)), after, snapshot, notes, aftermath)
    ensures snapshot.failure.Some? && snapshot.phase.Failed? && after.modes == map[1 := 3] && after.running == {}
    ensures ToSet(stopped) + ToSet(started) == {1} && FailureUnits(snapshot.failure.value) == {}
  {
    hide WellFormed, UnitIndex, DomainIndex, ModeIndex, PlanFor, Required, Closed, ConstraintsHold, Selects, Defined, FindMode, Rounds, StartedIn;
    assert Last(notes) in notes && Fine(Last(notes));
    assert Exhausted(Example(), notes, false);
    assert stopped == plan.stop && ToSet(stopped) == {1};
    assert |plan.start| == 1 && started == [] by { OnlyOne(plan.start, 2); }
    var middle := Configuration(1, map[1 := 1], {1} - ToSet(stopped) + ToSet(started));
    assert middle.running == {};
    ExampleModes();
    ExampleRequires(3);
    assert map[1 := 1][1 := 3] == map[1 := 3];
    assert Plannable(Example(), middle, 1, 3, true);
    FallbackTouches(Example(), middle, 1, 3);
    var fallback := PlanFor(Example(), middle, 1, 3);
    assert fallback.stop == [] && fallback.start == [] by { NoneListed(fallback.stop); NoneListed(fallback.start); }
  }

  lemma OnlyOne(units: seq<UnitId>, unit: UnitId)
    requires Distinct(units)
    ensures ToSet(units) == {unit} ==> units == [unit]
  {
    if |units| >= 2 {
      assert units[0] in ToSet(units) && units[1] in ToSet(units);
    } else if |units| == 1 {
      assert units[0] in ToSet(units);
    } else {
      assert unit !in ToSet(units);
    }
  }

  lemma NoneListed(units: seq<UnitId>)
    ensures ToSet(units) == {} ==> units == []
  {
    if units != [] {
      assert units[0] in ToSet(units);
    }
  }

  lemma ExampleFits()
    ensures Example().generation == 1 && Complete(Example(), map[1 := 1])
    ensures Plannable(Example(), Configuration(1, map[1 := 1], {1}), 1, 2, false)
  {
    hide DomainIndex, ModeIndex, Defined, FindMode, Required, Closed, ConstraintsHold, Selects;
    ExampleModes();
    ExampleRequires(2);
    assert map[1 := 1][1 := 2] == map[1 := 2];
  }

  lemma UnwillingFails(plan: Plan, notes: seq<Note>)
    requires 2 in ToSet(plan.start) && forall unit :: !StartedIn(Example(), notes, unit, false)
    ensures !CarriedOut(Example(), plan.stop, plan.start, notes, false)
  {
    hide StartedIn, Favourable, StoppedIn;
    assert 2 in plan.start && !StartedIn(Example(), notes, 2, false);
  }

  lemma UnwillingGrants(before: Point, after: Point, notes: seq<Note>, aftermath: seq<Note>)
    requires Witnessed(Unwilling(), before, after, notes + aftermath) && notes != [] && notes[0].Lease?
    ensures notes[0] == Lease(true)
  {
    hide CallsOf;
    assert Says(Unwilling(), before.asked + 0, (notes + aftermath)[0]);
  }

  lemma LeftApart(rebuilt: set<UnitId>)
    requires Apart({}, rebuilt) == Drifted(Apart({1}, {1}), Ending({1}, {}))
    ensures rebuilt == {1}
  {
    assert Apart({}, rebuilt) == rebuilt && Apart({1}, {1}) == {};
  }

  /** The transition stops unit 1 and cannot start unit 2; the fallback mode needs neither, so
      recovery has nothing to do and reports nothing.  Nothing runs afterwards, and yet a
      restart would rebuild unit 1 as running. */
  method ForgottenStop() returns (engine: ExecutionEngine)
    ensures fresh(engine) && engine.model == Example() && engine.Coupled()
    ensures engine.modes == map[1 := 3] && engine.running == {} && Required(Example(), engine.modes) == {}
    ensures Rebuilt(Example(), engine.journal) == {1}
  {
    hide WellFormed, UnitIndex, DomainIndex, ModeIndex, PlanFor, Required, Closed, ConstraintsHold, Selects, Defined, FindMode, CarriedOut, BrokeOff, Rebuilt, Witnessed, PlanErrors, ShortOf, LeaseRefused, Outdated, Start, InitialModes, FailureUnits, Example, Unwilling, IsRun, Mirrors, Safe, CallsSafe, NotCommitted, Apart, Drifted, Plannable, Terminal, ToSet, Last, PartOf;
    ExampleIsWellFormed();
    ExampleRequires(3);
    var id;
    engine, id := AskForModeTwo();
    ghost var before := engine.Here();
    ghost var plan := engine.plans[id];
    ghost var notes, aftermath, stopped, started := engine.Execute(id);
    UnwillingIsFine(before, engine.Here(), notes, aftermath);
    UnwillingFails(plan, notes);
    UnwillingGrants(before, engine.Here(), notes, aftermath);
    Forgotten(engine.Current(), engine.transitions[id], plan, notes, aftermath, stopped, started);
    LeftApart(Rebuilt(Example(), engine.journal));
  }

  /** A fresh engine for the example, asked for mode 2. */
  method AskForModeTwo() returns (engine: ExecutionEngine, id: TransitionId)
    ensures fresh(engine) && engine.model == Example() && engine.world == Unwilling() && engine.Coupled() && engine.Idle()
    ensures engine.Current() == Configuration(1, map[1 := 1], {1}) && Rebuilt(Example(), engine.journal) == {1}
    ensures id in engine.transitions && id in engine.plans && engine.PositionOf(id).Waiting? && engine.Replanned(id)
    ensures engine.transitions[id].domain == 1 && engine.transitions[id].failure.None? && engine.transitions[id].phase == Planned
    ensures ToSet(engine.plans[id].stop) == {1} && ToSet(engine.plans[id].start) == {2} && Distinct(engine.plans[id].start)
  {
    hide WellFormed, UnitIndex, DomainIndex, ModeIndex, PlanFor, Required, Closed, ConstraintsHold, Selects, Defined, FindMode, Rebuilt, PlanErrors, Start, InitialModes, Example, Unwilling, IsRun, Mirrors, Safe, CallsSafe, Plannable;
    ExampleIsWellFormed();
    ExampleRequires(1);
    ExampleRequires(2);
    ExampleFits();
    engine := new ExecutionEngine(Example(), Unwilling());
    var accepted;
    id, accepted := engine.AcceptModeFrom(engine.Current(), 1, 2);
    assert map[1 := 1][1 := 2] == map[1 := 2];
    FallbackTouches(Example(), engine.Current(), 1, 2);
    PlanPartitions(Example(), engine.Current(), 1, 2);
  }
}
