/** The running units that a restart would rebuild from the journal, next to those that
    run. */
module RebuiltUnits {
  import opened Wrappers
  import opened ExecutionModel
  import opened Planner
  import opened PlanSafety
  import opened JournalEvents
  import opened Replay
  import opened Protocol
  import opened ProtocolInvariant
  import opened ProtocolSteps
  import opened ProtocolTheorems

  /** What replay makes of the records that it does not reject. */
  function Rebuilt(model: Model, journal: seq<JournalEvent>): set<UnitId> {
    match ReplayAll(model, Fresh(model), Kept(model, journal))
    case Some(replayed) => replayed.running
    case None => {}
  }

  /** What one record should change: a failure reports what recovery stopped and started,
      a success what its plan stopped and started. */
  ghost function Reported(before: set<UnitId>, failure: Option<Failure>, plan: Option<Plan>): set<UnitId> {
    var recovered := if failure.Some? then before - ToSet(failure.value.stopped) + ToSet(failure.value.started) else before;
    if plan.Some? then recovered - ToSet(plan.value.stop) + ToSet(plan.value.start) else recovered
  }

  ghost predicate ReportsNothing(failure: Option<Failure>) {
    failure.Some? ==> failure.value.stopped == [] && failure.value.started == []
  }

  /** One more record changes the rebuilt units by what it reports. */
  lemma RecordRebuilds(model: Model, s: State, id: TransitionId, phase: Phase, at: int, failure: Option<Failure>, position: Position)
    requires id in s.transitions && s.up && Inv(model, s) && Inv(model, Recorded(model, s, id, phase, at, failure, position))
    requires Live(s.transitions[id].position) || (ReportsNothing(failure) && !phase.Succeeded?)
    ensures phase.Succeeded? ==> s.transitions[id].plan.Some?
    ensures Rebuilt(model, Recorded(model, s, id, phase, at, failure, position).journal) ==
            Reported(Rebuilt(model, s.journal), failure, if phase.Succeeded? then s.transitions[id].plan else None)
  {
    hide WellFormed, DurableOk, Fits, AllRecorded, AllLeased, AllFrozen, Agree, IdsBelow, ReplayAll, Fresh, Kept, Acceptable, Defined, ValidProgress;
    var t := s.transitions[id];
    assert StaticOk(model, id, t);
    var event := JournalEvent(t.snapshot.(phase := phase, updatedAt := at, failure := failure), model.generation, t.plan);
    KeptOneMore(model, s.journal, event);
    ReplayOneMore(model, Fresh(model), Kept(model, s.journal), event);
  }

  /** A journal that replay accepts is replayed to the rebuilt units. */
  lemma RebuiltIsReplayed(model: Model, s: State)
    requires Inv(model, s) && Clean(model, s.journal)
    ensures ReplayAll(model, Fresh(model), s.journal).Some?
    ensures ReplayAll(model, Fresh(model), s.journal).value.running == Rebuilt(model, s.journal)
  {
    hide WellFormed, DurableOk, VolatileOk, ReplayAll, Fresh, Kept, Clean;
    CleanIsKept(model, s.journal);
  }

  // ---------------------------------------------------------------------
  // Drift: the units that run and would not be rebuilt, or the other way round
  // ---------------------------------------------------------------------

  ghost function Apart(a: set<UnitId>, b: set<UnitId>): set<UnitId> {
    (a - b) + (b - a)
  }

  /** One executed transition: the units that it stopped or started itself, and those that
      its final record reports. */
  datatype Ending = Ending(touched: set<UnitId>, reported: set<UnitId>)

  ghost function Drifted(drift: set<UnitId>, ending: Ending): set<UnitId> {
    Apart(drift, ending.touched) - ending.reported
  }

  ghost function Drift(drift: set<UnitId>, endings: seq<Ending>): set<UnitId> {
    if endings == [] then drift
    else Drifted(Drift(drift, endings[..|endings| - 1]), endings[|endings| - 1])
  }

  lemma DriftOneMore(drift: set<UnitId>, endings: seq<Ending>, ending: Ending)
    ensures Drift(drift, endings + [ending]) == Drifted(Drift(drift, endings), ending)
  {
    assert (endings + [ending])[..|endings|] == endings;
  }

  /** If every transition reports what it touched, nothing drifts. */
  lemma {:induction false} ReportedIsSettled(endings: seq<Ending>)
    requires forall ending <- endings :: ending.touched <= ending.reported
    ensures Drift({}, endings) == {}
  {
    if endings != [] {
      ReportedIsSettled(endings[..|endings| - 1]);
      assert endings[|endings| - 1] in endings;
    }
  }

  /** From agreement, one transition leaves agreement if and only if its record reports
      every unit that it stopped or started. */
  lemma SettledIff(ending: Ending)
    ensures Drifted({}, ending) == {} <==> ending.touched <= ending.reported
  {
  }

  /** A transition that stops and starts units itself and then reports others. */
  lemma EndingDrifts(running: set<UnitId>, rebuilt: set<UnitId>, stopped: seq<UnitId>, started: seq<UnitId>, failure: Failure)
    requires ToSet(stopped) <= running && ToSet(started) !! running && ToSet(stopped) !! ToSet(started)
    ensures Apart(running - ToSet(stopped) + ToSet(started) - ToSet(failure.stopped) + ToSet(failure.started),
                  Reported(rebuilt, Some(failure), None)) ==
            Drifted(Apart(running, rebuilt),
                    Ending(ToSet(stopped) + ToSet(started), ToSet(failure.stopped) + ToSet(failure.started)))
  {
  }

  lemma SuccessDrifts(running: set<UnitId>, rebuilt: set<UnitId>, plan: Plan)
    requires ToSet(plan.stop) <= running && ToSet(plan.start) !! running && ToSet(plan.stop) !! ToSet(plan.start)
    ensures Apart(running - ToSet(plan.stop) + ToSet(plan.start), Reported(rebuilt, None, Some(plan))) ==
            Drifted(Apart(running, rebuilt),
                    Ending(ToSet(plan.stop) + ToSet(plan.start), ToSet(plan.stop) + ToSet(plan.start)))
  {
  }
}
