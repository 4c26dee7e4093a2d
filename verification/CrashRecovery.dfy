/** From the bytes that a crash leaves to the engine that is created from them. */
module CrashRecovery {
  import opened Wrappers
  import opened Bytes
  import opened ByteCodec
  import opened ExecutionModel
  import opened Planner
  import opened JournalEvents
  import opened JournalCodec
  import opened FileJournal
  import opened Replay
  import opened ModeConstraints
  import opened Protocol
  import opened ProtocolInvariant
  import opened ProtocolTheorems

  function Forgotten(snapshot: Snapshot): Snapshot {
    snapshot.(failure := WithoutState(snapshot.failure))
  }

  /** The same replay state, up to the observed states that the journal does not keep. */
  predicate Alike(a: Replayed, b: Replayed) {
    && a.modes == b.modes && a.running == b.running && a.plans == b.plans && a.next == b.next
    && a.transitions.Keys == b.transitions.Keys
    && forall id <- a.transitions :: b.transitions[id] == Forgotten(a.transitions[id])
  }

  lemma StepAlike(model: Model, a: Replayed, b: Replayed, event: JournalEvent)
    requires Alike(a, b)
    ensures Acceptable(model, a, event) <==> Acceptable(model, b, Journaled(event))
    ensures Acceptable(model, a, event) ==> Alike(Step(model, a, event), Step(model, b, Journaled(event)))
  {
    hide Defined, KnownUnits, ValidProgress, ValidPlan;
    AcceptableAlike(model, a, b, event);
  }

  lemma AcceptableAlike(model: Model, a: Replayed, b: Replayed, event: JournalEvent)
    requires Alike(a, b)
    ensures Acceptable(model, a, event) <==> Acceptable(model, b, Journaled(event))
  {
    hide Defined, KnownUnits, ValidProgress;
  }

  /** Replay does not depend on what the journal format leaves out. */
  lemma {:induction false} ReplayOfJournaled(model: Model, a: Replayed, b: Replayed, events: seq<JournalEvent>)
    requires Alike(a, b)
    ensures ReplayAll(model, a, events).Some? <==> ReplayAll(model, b, JournaledAll(events)).Some?
    ensures ReplayAll(model, a, events).Some? ==>
              Alike(ReplayAll(model, a, events).value, ReplayAll(model, b, JournaledAll(events)).value)
    decreases |events|
  {
    hide Alike, Acceptable, Step, Journaled;
    if events != [] {
      var front, last := events[..|events| - 1], events[|events| - 1];
      ReplayOfJournaled(model, a, b, front);
      assert JournaledAll(events)[..|events| - 1] == JournaledAll(front);
      if ReplayAll(model, a, front).Some? {
        StepAlike(model, ReplayAll(model, a, front).value, ReplayAll(model, b, JournaledAll(front)).value, last);
      }
    }
  }

  lemma FreshIsAlike(model: Model)
    ensures Alike(Fresh(model), Fresh(model))
  {
  }

  /** Whatever run wrote the journal file, and at whatever byte a crash cut it: the file
      reads back as the records whose frames are whole, and the engine accepts them if and
      only if each of them names a defined mode.  If the initial modes satisfy the
      constraints, so do the modes that are rebuilt. */
  lemma EveryCutRestarts(model: Model, states: seq<State>, actions: seq<Action>, n: nat, maximum: nat, cut: nat)
    requires IsRun(model, states, actions) && n < |states|
    requires maximum < TWO_TO_32 && AllEncodable(states[n].journal, maximum) && cut <= |Frames(states[n].journal, maximum)|
    ensures var r := Scan(Frames(states[n].journal, maximum)[..cut], maximum);
            var k := WholeFrames(states[n].journal, maximum, cut);
            && r.Some? && k <= |states[n].journal| && r.value.events == JournaledAll(states[n].journal[..k])
            && (ReplayAll(model, Fresh(model), r.value.events).Some? <==> Clean(model, states[n].journal[..k]))
            && (ReplayAll(model, Fresh(model), r.value.events).Some? && ConstraintsHold(model, InitialModes(model)) ==>
                  ConstraintsHold(model, ReplayAll(model, Fresh(model), r.value.events).value.modes))
  {
    hide IsRun, ReplayAll, Fresh, ConstraintsHold, Clean, Scan, Frames, WholeFrames, Journaled, Encodable;
    var journal := states[n].journal;
    ScanOfCut(journal, maximum, cut);
    WholeFramesBound(journal, maximum, cut);
    var k := WholeFrames(journal, maximum, cut);
    ReplayAcceptsIffNamed(model, states, actions, n, k);
    FreshIsAlike(model);
    ReplayOfJournaled(model, Fresh(model), Fresh(model), journal[..k]);
    if ConstraintsHold(model, InitialModes(model)) && ReplayAll(model, Fresh(model), journal[..k]).Some? {
      CutModesFit(model, states, actions, n, k);
    }
  }

  lemma WholeFramesBound(events: seq<JournalEvent>, maximum: nat, cut: nat)
    requires AllEncodable(events, maximum)
    ensures WholeFrames(events, maximum, cut) <= |events|
  {
  }

  /** What is rebuilt from any number of a run's records satisfies the constraints. */
  lemma CutModesFit(model: Model, states: seq<State>, actions: seq<Action>, n: nat, k: nat)
    requires IsRun(model, states, actions) && n < |states| && ConstraintsHold(model, InitialModes(model))
    requires k <= |states[n].journal| && ReplayAll(model, Fresh(model), states[n].journal[..k]).Some?
    ensures ConstraintsHold(model, ReplayAll(model, Fresh(model), states[n].journal[..k]).value.modes)
  {
    hide IsRun, ReplayAll, Fresh, ConstraintsHold, Inv, Survives;
    RunKeepsInvariant(model, states, actions, n);
    SurvivorFits(model, states[n].journal[..k]);
  }

  /** Cutting the file at any byte and repairing it is a crash step of the protocol: the
      run goes on, and the file holds exactly the frames of the records that it kept. */
  lemma CutIsACrash(model: Model, states: seq<State>, actions: seq<Action>, maximum: nat, cut: nat)
    requires IsRun(model, states, actions) && states != []
    requires var journal := states[|states| - 1].journal;
             maximum < TWO_TO_32 && AllEncodable(journal, maximum) && cut <= |Frames(journal, maximum)|
    ensures var s := states[|states| - 1]; var file := Frames(s.journal, maximum)[..cut];
            var a := Crash(WholeFrames(s.journal, maximum, cut));
            && s.running <= Units(model).Keys && Enabled(model, s, a) && Scan(file, maximum).Some?
            && var s' := Apply(model, s, a);
            && IsRun(model, states + [s'], actions + [a])
            && AllEncodable(s'.journal, maximum)
            && Scan(file, maximum).value.kept <= cut
            && file[..Scan(file, maximum).value.kept] == Frames(s'.journal, maximum)
  {
    hide IsRun, Scan, Frames, WholeFrames, Journaled, Encodable, Inv, PrefixesSurvive;
    var n := |states| - 1;
    var s := states[n];
    var k := WholeFrames(s.journal, maximum, cut);
    RunKeepsInvariant(model, states, actions, n);
    KnownUnitsRun(model, s);
    RunLength(model, states, actions);
    WholeFramesBound(s.journal, maximum, cut);
    ScanOfCut(s.journal, maximum, cut);
    WholeFramesAreMost(s.journal, maximum, cut);
    ExtendRun(model, states, actions, Crash(k));
    var kept := Frames(s.journal[..k], maximum);
    assert Frames(s.journal, maximum)[..cut][..|kept|] == kept;
  }
}
