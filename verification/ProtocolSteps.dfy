/** Each step of the execution protocol keeps the invariant. */
module ProtocolSteps {
  import opened Wrappers
  import opened ExecutionModel
  import opened Sorting
  import opened UnitOrder
  import opened Planner
  import opened JournalEvents
  import opened Replay
  import opened Scheduler
  import opened ModeConstraints
  import opened Protocol
  import opened ProtocolInvariant

  // ---------------------------------------------------------------------
  // Appending a record
  // ---------------------------------------------------------------------

  function EventOf(model: Model, t: Transition, phase: Phase, at: int, failure: Option<Failure>): JournalEvent {
    JournalEvent(t.snapshot.(phase := phase, updatedAt := at, failure := failure), model.generation, t.plan)
  }

  /** The record may follow what the journal already says about the transition. */
  ghost predicate Appendable(model: Model, t: Transition, phase: Phase, failure: Option<Failure>) {
    && ValidIdentity(model, t.snapshot)
    && !phase.Received?
    && (t.snapshot.phase.Received? || ValidProgress(t.snapshot.phase, phase))
    && (failure.Some? ==> ValidFailure(model, t.snapshot.domain, failure.value))
    && (phase.Succeeded? ==> t.plan.Some?)
    && (Rank(phase) <= 6 ==> failure.None?)
  }

  lemma KeptOneMore(model: Model, journal: seq<JournalEvent>, event: JournalEvent)
    ensures Kept(model, journal + [event]) ==
            if Named(model, event.transition) then Kept(model, journal) + [event] else Kept(model, journal)
  {
    assert (journal + [event])[..|journal|] == journal;
  }

  lemma AppendIsAccepted(model: Model, s: State, r: Replayed, id: TransitionId, phase: Phase, at: int,
                         failure: Option<Failure>, position: Position)
    requires id in s.transitions && Durable(model, s) == Some(r)
    requires StaticOk(model, id, s.transitions[id]) && RecordedOk(model, r, id, s.transitions[id])
    requires Appendable(model, s.transitions[id], phase, failure)
    ensures Acceptable(model, r, EventOf(model, s.transitions[id], phase, at, failure))
    ensures Durable(model, Recorded(model, s, id, phase, at, failure, position)) ==
            Some(Step(model, r, EventOf(model, s.transitions[id], phase, at, failure)))
  {
    hide ReplayAll, Fresh, UnitIndex, DomainIndex, ModeIndex, Kept;
    var event := EventOf(model, s.transitions[id], phase, at, failure);
    KeptOneMore(model, s.journal, event);
    ReplayOneMore(model, Fresh(model), Kept(model, s.journal), event);
  }

  lemma AppendIsTracked(model: Model, s: State, r: Replayed, id: TransitionId, phase: Phase, at: int,
                        failure: Option<Failure>, position: Position)
    requires id in s.transitions && Acceptable(model, r, EventOf(model, s.transitions[id], phase, at, failure))
    requires AllRecorded(model, r, s.transitions) && IdsBelow(s.transitions, r, s.next)
    requires s.transitions[id].snapshot.id == id && Named(model, s.transitions[id].snapshot) && !phase.Received?
    ensures var r' := Step(model, r, EventOf(model, s.transitions[id], phase, at, failure));
            var s' := Recorded(model, s, id, phase, at, failure, position);
            AllRecorded(model, r', s'.transitions) && IdsBelow(s'.transitions, r', s'.next)
  {
    hide Acceptable, ModesAfter, RunningAfter, Defined;
  }

  lemma NewEntry(model: Model, id: TransitionId, t: Transition, phase: Phase, at: int, failure: Option<Failure>)
    requires StaticOk(model, id, t) && Appendable(model, t, phase, failure)
    ensures t.snapshot.id == id && EntryOk(model, id, EventOf(model, t, phase, at, failure).transition, t.plan)
  {
    hide UnitIndex, DomainIndex, ModeIndex, Guarded, SameElements;
  }

  lemma AppendKeepsDurable(model: Model, r: Replayed, id: TransitionId, t: Transition, phase: Phase, at: int, failure: Option<Failure>)
    requires DurableOk(model, r) && StaticOk(model, id, t) && RecordedOk(model, r, id, t)
    requires Appendable(model, t, phase, failure)
    requires Acceptable(model, r, EventOf(model, t, phase, at, failure))
    requires Fits(model, ModesAfter(r, EventOf(model, t, phase, at, failure)))
    ensures DurableOk(model, Step(model, r, EventOf(model, t, phase, at, failure)))
  {
    hide ModesAfter, RunningAfter, Fits, EntryOk, Acceptable, StaticOk, Appendable;
    NewEntry(model, id, t, phase, at, failure);
    var event := EventOf(model, t, phase, at, failure);
    var after := Step(model, r, event);
    forall other <- after.transitions
      ensures EntryOk(model, other, after.transitions[other], PlanOf(after, other))
    {
      if other != id {
        assert after.transitions[other] == r.transitions[other] && PlanOf(after, other) == PlanOf(r, other);
      }
    }
  }

  // ---------------------------------------------------------------------
  // Replacing one transition
  // ---------------------------------------------------------------------

  /** A replacement that is fine on its own leaves the rest as it was. */
  ghost predicate FitsIn(model: Model, s: State, id: TransitionId, t: Transition) {
    && StaticOk(model, id, t) && LeaseOk(s.leases, id, t) && FrozenOk(model, s.modes, t)
    && (id in s.transitions && Unsettled(s.transitions[id].position) ==>
          Unsettled(t.position) && t.snapshot.domain == s.transitions[id].snapshot.domain)
  }

  lemma ReplaceKeeps(model: Model, s: State, r: Replayed, id: TransitionId, t: Transition)
    requires VolatileOk(model, s, r) && FitsIn(model, s, id, t)
    ensures AllStatic(model, s.transitions[id := t]) && AllLeased(s.leases, s.transitions[id := t])
    ensures AllFrozen(model, s.modes, s.transitions[id := t])
    ensures Agree(model, s.modes, r.modes, s.transitions[id := t])
  {
    hide StaticOk, LeaseOk, FrozenOk, Fits, AllRecorded, IdsBelow, DomainIndex, Disjoint;
    var after := s.transitions[id := t];
    forall domain <- Domains(model) |
        forall other <- after :: Unsettled(after[other].position) ==> after[other].snapshot.domain != domain
      ensures r.modes[domain] == s.modes[domain]
    {
      forall other <- s.transitions | Unsettled(s.transitions[other].position)
        ensures s.transitions[other].snapshot.domain != domain
      {
        assert other in after;
      }
    }
  }

  /** A step that only moves one transition to another position. */
  lemma MoveKeeps(model: Model, s: State, id: TransitionId, position: Position)
    requires Inv(model, s) && At(s, id)
    requires FitsIn(model, s, id, s.transitions[id].(position := position))
    ensures Inv(model, Moved(s, id, position))
  {
    hide WellFormed, UnitIndex, DurableOk, FitsIn, ReplayAll, Fresh, Fits, AllStatic, AllLeased, AllFrozen, Agree;
    ReplaceKeeps(model, s, Durable(model, s).value, id, s.transitions[id].(position := position));
  }

  /** A record that leaves the committed modes alone. */
  lemma QuietAppendKeeps(model: Model, s: State, id: TransitionId, phase: Phase, at: int, failure: Option<Failure>, position: Position)
    requires Inv(model, s) && At(s, id)
    requires Appendable(model, s.transitions[id], phase, failure)
    requires !phase.Succeeded? && (failure.Some? ==> failure.value.recoveredMode.None?)
    requires FitsIn(model, s, id, Transition(EventOf(model, s.transitions[id], phase, at, failure).transition,
                                             s.transitions[id].plan, position))
    ensures Inv(model, Recorded(model, s, id, phase, at, failure, position))
  {
    hide WellFormed, UnitIndex, DurableOk, FitsIn, ReplayAll, Fresh, Fits, StaticOk, RecordedOk, AllLeased, AllFrozen, Agree, IdsBelow, Appendable, Acceptable, RunningAfter;
    var r := Durable(model, s).value;
    var t := s.transitions[id];
    var event := EventOf(model, t, phase, at, failure);
    AppendFacts(model, s, r, id, phase, at, failure, position);
    assert ModesAfter(r, event) == r.modes;
    DurableFits(model, r);
    AppendKeepsDurable(model, r, id, t, phase, at, failure);
    ReplaceKeeps(model, s, r, id, Transition(event.transition, t.plan, position));
  }

  lemma DurableFits(model: Model, r: Replayed)
    requires DurableOk(model, r)
    ensures Fits(model, r.modes)
  {
  }

  lemma AppendableIsNamed(model: Model, id: TransitionId, t: Transition, phase: Phase, failure: Option<Failure>)
    requires StaticOk(model, id, t) && Appendable(model, t, phase, failure)
    ensures t.snapshot.id == id && Named(model, t.snapshot) && !phase.Received?
  {
  }

  lemma AppendFacts(model: Model, s: State, r: Replayed, id: TransitionId, phase: Phase, at: int,
                    failure: Option<Failure>, position: Position)
    requires Durable(model, s) == Some(r) && VolatileOk(model, s, r) && id in s.transitions
    requires Appendable(model, s.transitions[id], phase, failure)
    ensures StaticOk(model, id, s.transitions[id]) && RecordedOk(model, r, id, s.transitions[id])
    ensures s.transitions[id].snapshot.id == id
    ensures Acceptable(model, r, EventOf(model, s.transitions[id], phase, at, failure))
    ensures var r' := Step(model, r, EventOf(model, s.transitions[id], phase, at, failure));
            var s' := Recorded(model, s, id, phase, at, failure, position);
            && Durable(model, s') == Some(r')
            && AllRecorded(model, r', s'.transitions) && IdsBelow(s'.transitions, r', s'.next)
  {
    hide ReplayAll, Fresh, Fits, StaticOk, RecordedOk, AllLeased, AllFrozen, Agree, IdsBelow, Acceptable, Appendable, Named;
    AppendableIsNamed(model, id, s.transitions[id], phase, failure);
    AppendIsAccepted(model, s, r, id, phase, at, failure, position);
    AppendIsTracked(model, s, r, id, phase, at, failure, position);
  }

  // ---------------------------------------------------------------------
  // What a lease freezes
  // ---------------------------------------------------------------------

  /** Two lease holders never guard each other's domain. */
  lemma LeasesSeparate(model: Model, s: State, id: TransitionId, other: TransitionId)
    requires AllStatic(model, s.transitions) && AllLeased(s.leases, s.transitions)
    requires id in s.transitions && other in s.transitions && id != other
    requires HoldsLease(s.transitions[id].position) && HoldsLease(s.transitions[other].position)
    ensures s.transitions[other].snapshot.domain !in Guarded(model, s.transitions[id].snapshot.domain)
  {
    hide UnitIndex, DomainIndex, ModeIndex, ValidIdentity, ValidPlan, DomainNeighbours;
    var a, b := s.transitions[id], s.transitions[other];
    assert StaticOk(model, id, a) && StaticOk(model, other, b);
    assert LeaseOk(s.leases, id, a) && LeaseOk(s.leases, other, b);
    assert Disjoint(s.leases[other], s.leases[id]);
    assert b.snapshot.domain in Guarded(model, b.snapshot.domain);
    assert b.snapshot.domain in b.plan.value.guarded;
  }

  /** Inside the guarded domains of a lease holder, memory and journal differ at
      most on its own domain. */
  lemma GuardedIsSettled(model: Model, s: State, r: Replayed, id: TransitionId, mode: ModeId)
    requires VolatileOk(model, s, r) && Complete(model, r.modes)
    requires id in s.transitions && HoldsLease(s.transitions[id].position)
    ensures var domain := s.transitions[id].snapshot.domain;
            AgreeOn(s.modes[domain := mode], r.modes[domain := mode], Guarded(model, domain))
  {
    hide UnitIndex, DomainIndex, ModeIndex, AllStatic, AllLeased, AllFrozen, AllRecorded, IdsBelow, Guarded, ConstraintsHold;
    var domain := s.transitions[id].snapshot.domain;
    forall other <- Guarded(model, domain) | other != domain
      ensures (other in s.modes <==> other in r.modes) && (other in s.modes ==> s.modes[other] == r.modes[other])
    {
      forall k <- s.transitions | Unsettled(s.transitions[k].position)
        ensures s.transitions[k].snapshot.domain != other
      {
        if k != id {
          LeasesSeparate(model, s, id, k);
        }
      }
    }
  }

  /** A change of one leased domain keeps what every other transition relies on. */
  lemma CommitKeepsFrozen(model: Model, s: State, id: TransitionId, mode: ModeId, other: TransitionId)
    requires AllStatic(model, s.transitions) && AllLeased(s.leases, s.transitions)
    requires id in s.transitions && other in s.transitions && id != other
    requires HoldsLease(s.transitions[id].position) && FrozenOk(model, s.modes, s.transitions[other])
    ensures FrozenOk(model, s.modes[s.transitions[id].snapshot.domain := mode], s.transitions[other])
  {
    hide UnitIndex, DomainIndex, ModeIndex, AllStatic, AllLeased, Guarded, HoldAround;
    var t := s.transitions[other];
    if HoldsLease(t.position) {
      LeasesSeparate(model, s, other, id);
      LeasesSeparate(model, s, id, other);
      OwnDomainIsGuarded(model, t.snapshot.domain);
      var after := s.modes[s.transitions[id].snapshot.domain := mode];
      if t.position.Executing? || t.position.CommitReady? || t.position.Committed? {
        HoldAroundIsLocal(model, s.modes[t.snapshot.domain := t.snapshot.target],
                          after[t.snapshot.domain := t.snapshot.target], t.snapshot.domain);
      }
      if t.position.FallingBack? || t.position.FellBack? {
        var fallback := Fallback(model, t.snapshot.domain);
        HoldAroundIsLocal(model, s.modes[t.snapshot.domain := fallback],
                          after[t.snapshot.domain := fallback], t.snapshot.domain);
      }
    }
  }

  lemma OwnDomainIsGuarded(model: Model, domain: DomainId)
    ensures domain in Guarded(model, domain)
  {
  }

  lemma OneStatic(model: Model, ts: Transitions, id: TransitionId, t: Transition)
    requires AllStatic(model, ts) && StaticOk(model, id, t)
    ensures AllStatic(model, ts[id := t])
  {
    hide StaticOk;
  }

  lemma OneLeased(leases: map<TransitionId, Resources>, ts: Transitions, id: TransitionId, t: Transition)
    requires AllLeased(leases, ts) && LeaseOk(leases, id, t)
    ensures AllLeased(leases, ts[id := t])
  {
    hide LeaseOk, Disjoint;
  }

  lemma OneFrozen(model: Model, modes: Modes, ts: Transitions, id: TransitionId, t: Transition)
    requires AllFrozen(model, modes, ts) && FrozenOk(model, modes, t)
    ensures AllFrozen(model, modes, ts[id := t])
  {
    hide FrozenOk;
  }

  lemma OneRecorded(model: Model, r: Replayed, ts: Transitions, next: nat, id: TransitionId, position: Position)
    requires AllRecorded(model, r, ts) && IdsBelow(ts, r, next) && id in ts
    ensures AllRecorded(model, r, ts[id := ts[id].(position := position)])
    ensures IdsBelow(ts[id := ts[id].(position := position)], r, next)
  {
  }

  lemma FitsAfter(model: Model, modes: Modes, domain: DomainId, mode: ModeId)
    requires Fits(model, modes) && domain in modes && Defined(model, domain, mode)
    requires HoldAround(model, modes[domain := mode], domain)
    ensures Fits(model, modes[domain := mode])
  {
    hide DomainIndex, ModeIndex, HoldAround, ConstraintsHold, StartsSound;
    if StartsSound(model) {
      OneDomainChanges(model, modes, domain, mode);
    }
  }

  /** Taking a mode whose constraints were checked under the lease. */
  lemma CommitKeeps(model: Model, s: State, id: TransitionId, mode: ModeId, position: Position)
    requires Inv(model, s) && At(s, id) && HoldsLease(s.transitions[id].position) && HoldsLease(position)
    requires var snapshot := s.transitions[id].snapshot;
             && Defined(model, snapshot.domain, mode) && snapshot.domain in s.modes
             && HoldAround(model, s.modes[snapshot.domain := mode], snapshot.domain)
             && StaticOk(model, id, s.transitions[id].(position := position))
             && FrozenOk(model, s.modes[snapshot.domain := mode], s.transitions[id].(position := position))
    requires Unsettled(position)
    ensures Inv(model, Moved(s, id, position).(modes := s.modes[s.transitions[id].snapshot.domain := mode]))
  {
    hide WellFormed, UnitIndex, DomainIndex, ModeIndex, DurableOk, ReplayAll, Fresh, StaticOk, FrozenOk, HoldAround, Fits, AllStatic, AllLeased, AllFrozen, Agree, AllRecorded, IdsBelow;
    var r := Durable(model, s).value;
    var t := s.transitions[id].(position := position);
    var domain := t.snapshot.domain;
    FitsAfter(model, s.modes, domain, mode);
    OneRecorded(model, r, s.transitions, s.next, id, position);
    AllKeepFrozen(model, s, id, mode);
    OneStatic(model, s.transitions, id, t);
    LeaseStays(s.leases, s.transitions, id, position);
    OneFrozen(model, s.modes[domain := mode], s.transitions - {id}, id, t);
    assert (s.transitions - {id})[id := t] == s.transitions[id := t];
    CommitKeepsAgree(model, s, r, id, mode, position);
  }

  lemma LeaseStays(leases: map<TransitionId, Resources>, ts: Transitions, id: TransitionId, position: Position)
    requires AllLeased(leases, ts) && id in ts && HoldsLease(ts[id].position) && MayHoldLease(position)
    ensures AllLeased(leases, ts[id := ts[id].(position := position)])
  {
    hide Disjoint;
    assert LeaseOk(leases, id, ts[id]);
    OneLeased(leases, ts, id, ts[id].(position := position));
  }

  lemma AllKeepFrozen(model: Model, s: State, id: TransitionId, mode: ModeId)
    requires AllStatic(model, s.transitions) && AllLeased(s.leases, s.transitions)
    requires AllFrozen(model, s.modes, s.transitions)
    requires id in s.transitions && HoldsLease(s.transitions[id].position)
    ensures AllFrozen(model, s.modes[s.transitions[id].snapshot.domain := mode], s.transitions - {id})
  {
    hide AllStatic, AllLeased, FrozenOk;
    forall other <- s.transitions - {id}
      ensures FrozenOk(model, s.modes[s.transitions[id].snapshot.domain := mode], s.transitions[other])
    {
      CommitKeepsFrozen(model, s, id, mode, other);
    }
  }

  lemma CommitKeepsAgree(model: Model, s: State, r: Replayed, id: TransitionId, mode: ModeId, position: Position)
    requires Agree(model, s.modes, r.modes, s.transitions) && id in s.transitions && Unsettled(position)
    ensures var domain := s.transitions[id].snapshot.domain;
            Agree(model, s.modes[domain := mode], r.modes, Moved(s, id, position).transitions)
  {
    hide DomainIndex;
    var domain := s.transitions[id].snapshot.domain;
    var after := Moved(s, id, position).transitions;
    forall d <- Domains(model) |
        forall k <- after :: Unsettled(after[k].position) ==> after[k].snapshot.domain != d
      ensures r.modes[d] == s.modes[domain := mode][d]
    {
      assert id in after && after[id].snapshot.domain == domain;
      forall k <- s.transitions | Unsettled(s.transitions[k].position) ensures s.transitions[k].snapshot.domain != d {
        assert k in after;
      }
    }
  }

  /** The record that makes a changed mode durable. */
  lemma SettlingAppendKeeps(model: Model, s: State, id: TransitionId, phase: Phase, at: int, failure: Option<Failure>, mode: ModeId)
    requires Inv(model, s) && At(s, id) && Unsettled(s.transitions[id].position)
    requires Appendable(model, s.transitions[id], phase, failure) && Terminal(phase) && s.transitions[id].plan.Some?
    requires var snapshot := s.transitions[id].snapshot;
             && Defined(model, snapshot.domain, mode) && snapshot.domain in s.modes && s.modes[snapshot.domain] == mode
             && HoldAround(model, s.modes[snapshot.domain := mode], snapshot.domain)
    requires if phase.Succeeded? then failure.None? && mode == s.transitions[id].snapshot.target
             else failure.Some? && failure.value.recoveredMode == Some(mode)
    ensures Inv(model, Recorded(model, s, id, phase, at, failure, Finished))
  {
    hide WellFormed, UnitIndex, DomainIndex, ModeIndex, DurableOk, ReplayAll, Fresh, StaticOk, RecordedOk, AllStatic, AllLeased, AllFrozen, IdsBelow, AllRecorded, Appendable, Acceptable, RunningAfter, ModesAfter, HoldAround, Fits, Agree, Guarded, AgreeOn;
    var r := Durable(model, s).value;
    var t := s.transitions[id];
    var domain := t.snapshot.domain;
    var event := EventOf(model, t, phase, at, failure);
    AppendFacts(model, s, r, id, phase, at, failure, Finished);
    SettledModes(model, id, r, t, phase, at, failure, mode);
    DurableFits(model, r);
    DomainIsDurable(model, r, domain, mode);
    GuardedIsSettled(model, s, r, id, mode);
    HoldAroundIsLocal(model, s.modes[domain := mode], r.modes[domain := mode], domain);
    FitsAfter(model, r.modes, domain, mode);
    AppendKeepsDurable(model, r, id, t, phase, at, failure);
    SettledKeepsRest(model, s, r, id, Transition(event.transition, t.plan, Finished), mode);
  }

  lemma DomainIsDurable(model: Model, r: Replayed, domain: DomainId, mode: ModeId)
    requires Fits(model, r.modes) && Defined(model, domain, mode)
    ensures domain in r.modes && Complete(model, r.modes)
  {
  }

  lemma SettledModes(model: Model, id: TransitionId, r: Replayed, t: Transition, phase: Phase, at: int, failure: Option<Failure>, mode: ModeId)
    requires StaticOk(model, id, t) && Acceptable(model, r, EventOf(model, t, phase, at, failure))
    requires if phase.Succeeded? then failure.None? && mode == t.snapshot.target && t.plan.Some?
             else failure.Some? && failure.value.recoveredMode == Some(mode)
    ensures ModesAfter(r, EventOf(model, t, phase, at, failure)) == r.modes[t.snapshot.domain := mode]
  {
    hide UnitIndex, DomainIndex, ModeIndex, Guarded, SameElements;
  }

  lemma SettledKeepsRest(model: Model, s: State, r: Replayed, id: TransitionId, t: Transition, mode: ModeId)
    requires VolatileOk(model, s, r) && id in s.transitions
    requires Unsettled(s.transitions[id].position)
    requires t.position.Finished? && Terminal(t.snapshot.phase) && t.plan == s.transitions[id].plan
    requires t.snapshot.id == s.transitions[id].snapshot.id && SameIdentity(t.snapshot, s.transitions[id].snapshot)
    requires t.snapshot.domain in s.modes && s.modes[t.snapshot.domain] == mode
    ensures AllStatic(model, s.transitions[id := t]) && AllLeased(s.leases, s.transitions[id := t])
    ensures AllFrozen(model, s.modes, s.transitions[id := t])
    ensures Agree(model, s.modes, r.modes[t.snapshot.domain := mode], s.transitions[id := t])
  {
    hide AllRecorded, IdsBelow, Fits, DomainIndex, AllFrozen, StaticOk, FrozenOk;
    FinishedIsStatic(model, s.transitions, id, t);
    OneStatic(model, s.transitions, id, t);
    LeaseOfFinished(s.leases, s.transitions, id, t);
    OneLeased(s.leases, s.transitions, id, t);
    FinishedIsFrozen(model, s.modes, t);
    OneFrozen(model, s.modes, s.transitions, id, t);
    SettledAgree(model, s, r, id, t, mode);
  }

  lemma FinishedIsStatic(model: Model, ts: Transitions, id: TransitionId, t: Transition)
    requires AllStatic(model, ts) && id in ts && Unsettled(ts[id].position)
    requires t.position.Finished? && Terminal(t.snapshot.phase) && t.plan == ts[id].plan
    requires t.snapshot.id == ts[id].snapshot.id && SameIdentity(t.snapshot, ts[id].snapshot)
    ensures StaticOk(model, id, t)
  {
    hide UnitIndex, DomainIndex, ModeIndex, Guarded, SameElements;
    assert StaticOk(model, id, ts[id]);
  }

  lemma LeaseOfFinished(leases: map<TransitionId, Resources>, ts: Transitions, id: TransitionId, t: Transition)
    requires AllLeased(leases, ts) && id in ts && t.plan == ts[id].plan && t.position.Finished?
    ensures LeaseOk(leases, id, t)
  {
    hide Disjoint;
    assert LeaseOk(leases, id, ts[id]);
  }

  lemma FinishedIsFrozen(model: Model, modes: Modes, t: Transition)
    requires t.position.Finished? || t.position.Interrupted?
    ensures FrozenOk(model, modes, t)
  {
  }

  lemma SettledAgree(model: Model, s: State, r: Replayed, id: TransitionId, t: Transition, mode: ModeId)
    requires Agree(model, s.modes, r.modes, s.transitions) && id in s.transitions
    requires t.position.Finished? && t.snapshot.domain == s.transitions[id].snapshot.domain
    requires t.snapshot.domain in s.modes && s.modes[t.snapshot.domain] == mode
    ensures Agree(model, s.modes, r.modes[t.snapshot.domain := mode], s.transitions[id := t])
  {
    hide DomainIndex;
    var after := s.transitions[id := t];
    forall d <- Domains(model) |
        forall k <- after :: Unsettled(after[k].position) ==> after[k].snapshot.domain != d
      ensures r.modes[t.snapshot.domain := mode][d] == s.modes[d]
    {
      if d != t.snapshot.domain {
        forall k <- s.transitions | Unsettled(s.transitions[k].position) ensures s.transitions[k].snapshot.domain != d {
          assert k in after;
        }
      }
    }
  }

  // ---------------------------------------------------------------------
  // The individual steps
  // ---------------------------------------------------------------------

  lemma AcceptKeeps(model: Model, s: State, baseline: Configuration, domain: DomainId, target: ModeId, error: Error, at: int)
    requires Inv(model, s) && Enabled(model, s, Accept(baseline, domain, target, error, at))
    ensures Inv(model, Apply(model, s, Accept(baseline, domain, target, error, at)))
  {
    hide WellFormed, UnitIndex, DomainIndex, ModeIndex, DurableOk, ReplayAll, Fresh, Fits, AllStatic, AllLeased, AllFrozen, Agree, StaticOk, FrozenOk, LeaseOk, Arrival;
    var r := Durable(model, s).value;
    var t := Arrival(model, s.next, baseline, domain, target, error, at);
    ArrivalFits(model, s, r, baseline, domain, target, error, at);
    ReplaceKeeps(model, s, r, s.next, t);
  }

  lemma ArrivalFits(model: Model, s: State, r: Replayed, baseline: Configuration, domain: DomainId, target: ModeId, error: Error, at: int)
    requires WellFormed(model) && VolatileOk(model, s, r)
    requires Complete(model, baseline.modes) && baseline.running <= Units(model).Keys && baseline.generation == model.generation
    ensures FitsIn(model, s, s.next, Arrival(model, s.next, baseline, domain, target, error, at))
    ensures RecordedOk(model, r, s.next, Arrival(model, s.next, baseline, domain, target, error, at))
  {
    hide WellFormed, Fits, AllStatic, AllFrozen, Agree, StaticOk, Complete, Plannable, PlanFor, AllRecorded, IdsBelow, AllLeased;
    NextIsNew(model, s, r);
    ArrivalIsStatic(model, s.next, baseline, domain, target, error, at);
  }

  lemma ArrivalIsStatic(model: Model, id: TransitionId, baseline: Configuration, domain: DomainId, target: ModeId, error: Error, at: int)
    requires WellFormed(model) && id != 0
    requires Complete(model, baseline.modes) && baseline.running <= Units(model).Keys && baseline.generation == model.generation
    ensures StaticOk(model, id, Arrival(model, id, baseline, domain, target, error, at))
  {
    hide WellFormed, UnitIndex, PlanFits, Plannable, PlanFor, Complete, Defined, ReportsNoMode;
    PlannableIsDefined(model, baseline, domain, target, false);
    if Defined(model, domain, target) {
      CompleteIsDefined(model, baseline.modes, domain, target);
      DefinedIsNonzero(model, domain, target);
      DefinedIsNonzero(model, domain, baseline.modes[domain]);
    }
    if Plannable(model, baseline, domain, target, false) {
      PlanIsValid(model, baseline, domain, target, Arrival(model, id, baseline, domain, target, error, at).snapshot);
    }
  }

  lemma CompleteIsDefined(model: Model, modes: Modes, domain: DomainId, target: ModeId)
    requires Complete(model, modes) && Defined(model, domain, target)
    ensures domain in modes && Defined(model, domain, modes[domain])
  {
  }

  lemma NextIsNew(model: Model, s: State, r: Replayed)
    requires AllRecorded(model, r, s.transitions) && IdsBelow(s.transitions, r, s.next) && AllLeased(s.leases, s.transitions)
    ensures s.next != 0 && s.next !in s.transitions && s.next !in s.leases && s.next !in r.transitions && s.next !in r.plans
  {
  }

  lemma PlannableIsDefined(model: Model, current: Configuration, domain: DomainId, target: ModeId, allowCurrent: bool)
    ensures Plannable(model, current, domain, target, allowCurrent) ==> Defined(model, domain, target)
  {
  }

  lemma DefinedIsNonzero(model: Model, domain: DomainId, mode: ModeId)
    requires WellFormed(model) && Defined(model, domain, mode)
    ensures domain != 0 && mode != 0
  {
    DefinedModeIsListed(model, domain, mode);
    assert DomainWellFormed(model, Domains(model)[domain]);
  }

  /** What the planner returns is what replay accepts. */
  lemma PlanIsValid(model: Model, current: Configuration, domain: DomainId, target: ModeId, snapshot: Snapshot)
    requires WellFormed(model) && current.running <= Units(model).Keys && current.generation == model.generation
    requires domain in current.modes && Defined(model, domain, target)
    requires snapshot.domain == domain && snapshot.target == target && snapshot.source == current.modes[domain]
    ensures PlanFits(model, snapshot, PlanFor(model, current, domain, target))
  {
    hide WellFormed, UnitIndex, DomainIndex, ModeIndex, OrderOf, Required, Guarded;
    var required := Required(model, current.modes[domain := target]);
    RequiredIsKnown(model, current.modes[domain := target]);
    OrderIsTopological(model, required * current.running);
    OrderIsTopological(model, current.running - required);
    OrderIsTopological(model, required - current.running);
    GuardedIsKnown(model, domain);
  }

  lemma GuardedIsKnown(model: Model, domain: DomainId)
    requires WellFormed(model) && domain in Domains(model)
    ensures Guarded(model, domain) <= Domains(model).Keys
  {
    hide WellFormed, DomainIndex;
    ConstraintsAreKnown(model);
  }

  lemma RefusalKeeps(model: Model, s: State, id: TransitionId, at: int)
    requires Inv(model, s) && Enabled(model, s, RecordRefusal(id, at))
    requires Named(model, s.transitions[id].snapshot)
    ensures Inv(model, Apply(model, s, RecordRefusal(id, at)))
  {
    hide WellFormed, UnitIndex, DomainIndex, ModeIndex, DurableOk, ReplayAll, Fresh, Fits, AllFrozen, Agree, AllRecorded, IdsBelow;
    var t := s.transitions[id];
    assert StaticOk(model, id, t) && LeaseOk(s.leases, id, t);
    QuietAppendKeeps(model, s, id, FailurePhase(t.position.error.code), at, Some(PlainFailure(t.position.error)), Finished);
  }

  /** The parts of the invariant that concern one transition. */
  lemma OneTransition(model: Model, s: State, id: TransitionId)
    requires Inv(model, s) && At(s, id)
    ensures StaticOk(model, id, s.transitions[id]) && LeaseOk(s.leases, id, s.transitions[id])
    ensures FrozenOk(model, s.modes, s.transitions[id])
    ensures ValidIdentity(model, s.transitions[id].snapshot) ==> s.transitions[id].snapshot.domain in s.modes
  {
    hide WellFormed, UnitIndex, ModeIndex, StaticOk, LeaseOk, FrozenOk, DurableOk, AllRecorded, IdsBelow, Agree, ReplayAll;
  }

  lemma SuccessKeeps(model: Model, s: State, id: TransitionId, at: int)
    requires Inv(model, s) && Enabled(model, s, RecordPhase(id, Succeeded, at))
    ensures Inv(model, Apply(model, s, RecordPhase(id, Succeeded, at)))
  {
    hide WellFormed, UnitIndex, DomainIndex, ModeIndex, Inv, PlanFits, HoldAround, ValidFailure;
    OneTransition(model, s, id);
    SettlingAppendKeeps(model, s, id, Succeeded, at, None, s.transitions[id].snapshot.target);
  }

  lemma ProgressKeeps(model: Model, s: State, id: TransitionId, phase: Phase, at: int)
    requires Inv(model, s) && Enabled(model, s, RecordPhase(id, phase, at)) && !phase.Succeeded?
    ensures Inv(model, Apply(model, s, RecordPhase(id, phase, at)))
  {
    hide WellFormed, UnitIndex, DomainIndex, ModeIndex, Inv, PlanFits, HoldAround, ValidFailure, ValidIdentity;
    var t := s.transitions[id];
    OneTransition(model, s, id);
    PlanFitsAnyPhase(model, t, phase, at, None);
    SameIdentityAnyPhase(model, t, phase, at, None);
    QuietAppendKeeps(model, s, id, phase, at, None, After(t.position, t.snapshot.phase, phase).value);
  }

  lemma SameIdentityAnyPhase(model: Model, t: Transition, phase: Phase, at: int, failure: Option<Failure>)
    ensures ValidIdentity(model, t.snapshot) <==> ValidIdentity(model, EventOf(model, t, phase, at, failure).transition)
  {
  }

  lemma PlanFitsAnyPhase(model: Model, t: Transition, phase: Phase, at: int, failure: Option<Failure>)
    requires t.plan.Some? ==> PlanFits(model, t.snapshot, t.plan.value)
    ensures t.plan.Some? ==> PlanFits(model, EventOf(model, t, phase, at, failure).transition, t.plan.value)
  {
    hide Guarded;
  }

  lemma AcquireKeeps(model: Model, s: State, id: TransitionId)
    requires Inv(model, s) && Enabled(model, s, Acquire(id))
    ensures Inv(model, Apply(model, s, Acquire(id)))
  {
    hide WellFormed, UnitIndex, DomainIndex, ModeIndex, DurableOk, ReplayAll, Fresh, Fits, AllStatic, AllLeased, AllFrozen, Agree, AllRecorded, IdsBelow, PlanFits;
    var r := Durable(model, s).value;
    var t := s.transitions[id].(position := Leased);
    OneTransition(model, s, id);
    OneStatic(model, s.transitions, id, t);
    OneFrozen(model, s.modes, s.transitions, id, t);
    OneRecorded(model, r, s.transitions, s.next, id, Leased);
    GrantedLease(s.leases, s.transitions, id);
    SettledMoveAgree(model, s, r, id, Leased);
  }

  lemma GrantedLease(leases: map<TransitionId, Resources>, ts: Transitions, id: TransitionId)
    requires AllLeased(leases, ts) && id in ts && ts[id].position.Waiting? && ts[id].plan.Some?
    requires forall owner <- leases :: Disjoint(LeaseOf(ts[id].plan.value), leases[owner])
    ensures AllLeased(leases[id := LeaseOf(ts[id].plan.value)], ts[id := ts[id].(position := Leased)])
  {
    assert LeaseOk(leases, id, ts[id]);
    var lease := LeaseOf(ts[id].plan.value);
    forall owner <- leases ensures Disjoint(leases[owner], lease) {
      assert Disjoint(lease, leases[owner]);
    }
    hide Disjoint;
  }

  lemma SettledMoveAgree(model: Model, s: State, r: Replayed, id: TransitionId, position: Position)
    requires Agree(model, s.modes, r.modes, s.transitions) && id in s.transitions
    requires !Unsettled(s.transitions[id].position)
    ensures Agree(model, s.modes, r.modes, Moved(s, id, position).transitions)
  {
    hide DomainIndex;
    var after := Moved(s, id, position).transitions;
    forall d <- Domains(model) |
        forall k <- after :: Unsettled(after[k].position) ==> after[k].snapshot.domain != d
      ensures r.modes[d] == s.modes[d]
    {
      forall k <- s.transitions | Unsettled(s.transitions[k].position) ensures s.transitions[k].snapshot.domain != d {
        assert k in after;
      }
    }
  }

  lemma AcquireFailsKeeps(model: Model, s: State, id: TransitionId, error: Error)
    requires Inv(model, s) && Enabled(model, s, AcquireFails(id, error))
    ensures Inv(model, Apply(model, s, AcquireFails(id, error)))
  {
    hide WellFormed, UnitIndex, DomainIndex, ModeIndex, Inv, PlanFits, HoldAround;
    OneTransition(model, s, id);
    MoveKeeps(model, s, id, Failing(PlainFailure(error)));
  }

  lemma ReplanKeeps(model: Model, s: State, id: TransitionId, error: Error)
    requires Inv(model, s) && Enabled(model, s, Replan(id, error))
    ensures Inv(model, Apply(model, s, Replan(id, error)))
  {
    hide WellFormed, UnitIndex, DomainIndex, ModeIndex, PlanFits, HoldAround, PlanFor, ConstraintsHold, DurableOk, VolatileOk, Closed, Selects, Required, ReplayAll;
    var t := s.transitions[id];
    OneTransition(model, s, id);
    if StillPlanned(model, Configured(model, s), t.snapshot, t.plan.value) {
      AllHoldAround(model, s.modes[t.snapshot.domain := t.snapshot.target], t.snapshot.domain);
      MoveKeeps(model, s, id, Executing);
    } else {
      MoveKeeps(model, s, id, Failing(PlainFailure(error)));
    }
  }

  lemma ReconcileKeeps(model: Model, s: State, id: TransitionId)
    requires Inv(model, s) && Enabled(model, s, Reconcile(id))
    ensures Inv(model, Apply(model, s, Reconcile(id)))
  {
    hide WellFormed, UnitIndex, DomainIndex, ModeIndex, PlanFits, HoldAround, ConstraintsHold, DurableOk, VolatileOk, Closed, Selects, Required, ReplayAll;
    var domain := s.transitions[id].snapshot.domain;
    OneTransition(model, s, id);
    AllHoldAround(model, s.modes[domain := Fallback(model, domain)], domain);
    MoveKeeps(model, s, id, FallingBack);
  }

  lemma CommitStepKeeps(model: Model, s: State, id: TransitionId)
    requires Inv(model, s) && Enabled(model, s, Commit(id))
    ensures Inv(model, Apply(model, s, Commit(id)))
  {
    hide WellFormed, UnitIndex, DomainIndex, ModeIndex, PlanFits, HoldAround, Inv;
    OneTransition(model, s, id);
    var snapshot := s.transitions[id].snapshot;
    assert s.modes[snapshot.domain := snapshot.target][snapshot.domain := snapshot.target] ==
           s.modes[snapshot.domain := snapshot.target];
    CommitKeeps(model, s, id, snapshot.target, Committed);
  }

  lemma CommitFallbackKeeps(model: Model, s: State, id: TransitionId)
    requires Inv(model, s) && Enabled(model, s, CommitFallback(id))
    ensures Inv(model, Apply(model, s, CommitFallback(id)))
  {
    hide WellFormed, UnitIndex, DomainIndex, ModeIndex, PlanFits, HoldAround, Inv, Fallback;
    OneTransition(model, s, id);
    var domain := s.transitions[id].snapshot.domain;
    var fallback := Fallback(model, domain);
    assert s.modes[domain := fallback][domain := fallback] == s.modes[domain := fallback];
    CommitKeeps(model, s, id, fallback, FellBack);
  }

  lemma AbandonKeeps(model: Model, s: State, id: TransitionId, failure: Failure)
    requires Inv(model, s) && Enabled(model, s, Abandon(id, failure))
    ensures Inv(model, Apply(model, s, Abandon(id, failure)))
  {
    hide WellFormed, UnitIndex, DomainIndex, ModeIndex, Inv, PlanFits, HoldAround, KnownUnits;
    OneTransition(model, s, id);
    MoveKeeps(model, s, id, Failing(failure));
  }

  /** Records of recovery and failure that leave the committed modes alone. */
  lemma FailureRecordKeeps(model: Model, s: State, id: TransitionId, phase: Phase, at: int, failure: Failure, position: Position)
    requires Inv(model, s) && At(s, id) && ReportsNoMode(model, failure) && Rank(phase) >= 9
    requires var t := s.transitions[id];
             && !t.position.Refused? && !Unsettled(t.position) && !t.position.Finished?
             && ValidProgress(t.snapshot.phase, phase) && !t.snapshot.phase.Received?
    requires (position.Finished? && Terminal(phase)) ||
             (position.InRecovery? && phase.Recovering? && HoldsLease(s.transitions[id].position) && s.transitions[id].plan.Some?)
    requires s.transitions[id].position.Interrupted? ==> id !in s.leases
    ensures Inv(model, Recorded(model, s, id, phase, at, Some(failure), position))
  {
    hide WellFormed, UnitIndex, DomainIndex, ModeIndex, Inv, PlanFits, HoldAround, KnownUnits;
    OneTransition(model, s, id);
    PlanFitsAnyPhase(model, s.transitions[id], phase, at, Some(failure));
    QuietAppendKeeps(model, s, id, phase, at, Some(failure), position);
  }

  /** Recording the refusal of a request that names an undefined mode. */
  lemma UnnamedRefusalKeeps(model: Model, s: State, id: TransitionId, at: int)
    requires Inv(model, s) && Enabled(model, s, RecordRefusal(id, at))
    requires !Named(model, s.transitions[id].snapshot)
    ensures Inv(model, Apply(model, s, RecordRefusal(id, at)))
  {
    hide WellFormed, UnitIndex, DurableOk, ReplayAll, Fresh, Kept, Defined, Fits, AllStatic, AllLeased, AllFrozen, Agree, IdsBelow, ValidIdentity, PlanFits;
    var r := Durable(model, s).value;
    var error := s.transitions[id].position.error;
    var event := EventOf(model, s.transitions[id], FailurePhase(error.code), at, Some(PlainFailure(error)));
    var t := Transition(event.transition, s.transitions[id].plan, Finished);
    OneTransition(model, s, id);
    KeptOneMore(model, s.journal, event);
    ReplaceKeeps(model, s, r, id, t);
    assert IdsBelow(s.transitions[id := t], r, s.next) by {
      OneRecorded(model, r, s.transitions, s.next, id, Finished);
      SameKeysBelow(s.transitions[id := s.transitions[id].(position := Finished)], s.transitions[id := t], r, s.next);
    }
  }

  lemma SameKeysBelow(a: Transitions, b: Transitions, r: Replayed, next: nat)
    requires IdsBelow(a, r, next) && a.Keys == b.Keys
    ensures IdsBelow(b, r, next)
  {
  }

  lemma RecoveredKeeps(model: Model, s: State, id: TransitionId, failure: Failure, at: int)
    requires Inv(model, s) && Enabled(model, s, RecordRecovered(id, failure, at))
    ensures Inv(model, Apply(model, s, RecordRecovered(id, failure, at)))
  {
    hide WellFormed, UnitIndex, DomainIndex, ModeIndex, Inv, PlanFits, HoldAround, KnownUnits, Fallback, Recovery;
    var t := s.transitions[id];
    OneTransition(model, s, id);
    if t.position.FellBack? {
      SettlingAppendKeeps(model, s, id, Failed, at, Some(failure), Fallback(model, t.snapshot.domain));
    } else {
      FailureRecordKeeps(model, s, id, Failed, at, failure, Finished);
    }
  }

  lemma ReleaseStepKeeps(model: Model, s: State, id: TransitionId)
    requires Inv(model, s) && Enabled(model, s, Release(id))
    ensures Inv(model, Apply(model, s, Release(id)))
  {
    hide WellFormed, UnitIndex, DurableOk, ReplayAll, Fresh, Kept, Fits, AllStatic, AllFrozen, Agree, AllRecorded, IdsBelow, Disjoint;
  }

  /** A restart rebuilds a state that satisfies the invariant. */
  lemma RestartKeeps(model: Model, s: State, observed: set<UnitId>)
    requires Inv(model, s) && Enabled(model, s, Restart(observed))
    requires Kept(model, s.journal) == s.journal
    ensures Inv(model, Apply(model, s, Restart(observed)))
  {
    hide WellFormed, UnitIndex, DurableOk, ReplayAll, Fresh, Kept, Fits, AllStatic, AllLeased, AllFrozen, Agree, AllRecorded, IdsBelow, Restored;
    RestoredIsConsistent(model, Durable(model, s).value);
  }

  lemma RestoredIsConsistent(model: Model, r: Replayed)
    requires DurableOk(model, r)
    ensures Fits(model, r.modes)
    ensures AllStatic(model, Restored(r)) && AllRecorded(model, r, Restored(r)) && AllLeased(map[], Restored(r))
    ensures AllFrozen(model, r.modes, Restored(r)) && Agree(model, r.modes, r.modes, Restored(r))
    ensures IdsBelow(Restored(r), r, r.next)
  {
    hide DomainIndex, ModeIndex, Fits, StaticOk, RecordedOk, FrozenOk, EntryOk, Named;
    var ts := Restored(r);
    forall id <- ts
      ensures StaticOk(model, id, ts[id]) && RecordedOk(model, r, id, ts[id]) && FrozenOk(model, r.modes, ts[id])
    {
      RestoredOne(model, r, id);
      FinishedIsFrozen(model, r.modes, ts[id]);
    }
    DurableCovers(model, r.modes);
  }

  lemma DurableCovers(model: Model, modes: Modes)
    requires Fits(model, modes)
    ensures forall domain <- Domains(model) :: domain in modes
  {
  }

  lemma RestoredOne(model: Model, r: Replayed, id: TransitionId)
    requires id in r.transitions && EntryOk(model, id, r.transitions[id], PlanOf(r, id))
    ensures StaticOk(model, id, Restored(r)[id]) && RecordedOk(model, r, id, Restored(r)[id])
  {
    hide UnitIndex, DomainIndex, ModeIndex, PlanFits;
  }

  ghost predicate CrashLeavesGood(model: Model, s: State, a: Action) {
    a.Crash? ==> a.kept <= |s.journal| && Survives(model, s.journal[..a.kept])
  }

  /** Every step keeps the invariant. */
  lemma StepKeeps(model: Model, s: State, a: Action)
    requires WellFormed(model) && s.running <= Units(model).Keys && Enabled(model, s, a)
    requires Inv(model, s) && CrashLeavesGood(model, s, a)
    requires a.Restart? ==> Kept(model, s.journal) == s.journal
    ensures Inv(model, Apply(model, s, a))
  {
    hide WellFormed, UnitIndex, DomainIndex, ModeIndex, DurableOk, VolatileOk, ReplayAll, Fresh, Kept, Plannable, Named;
    match a
    case Accept(baseline, domain, target, error, at) => AcceptKeeps(model, s, baseline, domain, target, error, at);
    case RecordRefusal(id, at) =>
      if Named(model, s.transitions[id].snapshot) {
        RefusalKeeps(model, s, id, at);
      } else {
        UnnamedRefusalKeeps(model, s, id, at);
      }
    case RecordPhase(id, phase, at) =>
      if phase.Succeeded? {
        SuccessKeeps(model, s, id, at);
      } else {
        ProgressKeeps(model, s, id, phase, at);
      }
    case Acquire(id) => AcquireKeeps(model, s, id);
    case AcquireFails(id, error) => AcquireFailsKeeps(model, s, id, error);
    case Replan(id, error) => ReplanKeeps(model, s, id, error);
    case Work(id, unit, starts) => WorkKeeps(model, s, a);
    case Commit(id) => CommitStepKeeps(model, s, id);
    case Abandon(id, failure) => AbandonKeeps(model, s, id, failure);
    case BeginRecovery(id, failure, at) => RecoveryRecordKeeps(model, s, a);
    case Reconcile(id) => ReconcileKeeps(model, s, id);
    case CommitFallback(id) => CommitFallbackKeeps(model, s, id);
    case RecordRecovered(id, failure, at) => RecoveredKeeps(model, s, id, failure, at);
    case RecordRecoveryFailed(id, failure, at) => RecoveryRecordKeeps(model, s, a);
    case RecordFailure(id, at) => FailureStepKeeps(model, s, a);
    case Release(id) => ReleaseStepKeeps(model, s, id);
    case Crash(kept) =>
    case Restart(observed) => RestartKeeps(model, s, observed);
    case Finalize(id, error, at) => FailureStepKeeps(model, s, a);
  }

  /** A step appends at most one record, unless it is a crash. */
  lemma OneRecordAtATime(model: Model, s: State, a: Action)
    requires WellFormed(model) && s.running <= Units(model).Keys && Enabled(model, s, a) && !a.Crash?
    ensures var s' := Apply(model, s, a); s.journal <= s'.journal && |s'.journal| <= |s.journal| + 1
  {
    hide WellFormed, ReplayAll, Plannable, StillPlanned, Complete, KnownUnits, UnitIndex, Arrival, Disjoint;
  }

  lemma PrefixesKept(model: Model, s: State, a: Action)
    requires WellFormed(model) && s.running <= Units(model).Keys && Enabled(model, s, a)
    requires Inv(model, s) && PrefixesSurvive(model, s.journal)
    requires Inv(model, Apply(model, s, a))
    ensures PrefixesSurvive(model, Apply(model, s, a).journal)
  {
    hide WellFormed, Apply, Enabled, ReplayAll, Fresh, Kept, DurableOk, VolatileOk, Units;
    var after := Apply(model, s, a).journal;
    if a.Crash? {
      CrashKeepsPrefix(model, s, a);
    } else {
      OneRecordAtATime(model, s, a);
    }
    forall k | 0 <= k <= |after|
      ensures Survives(model, after[..k])
    {
      if k <= |s.journal| {
        assert after[..k] == s.journal[..k];
      } else {
        assert after[..k] == after;
      }
    }
  }

  lemma CrashKeepsPrefix(model: Model, s: State, a: Action)
    requires WellFormed(model) && s.running <= Units(model).Keys && a.Crash? && Enabled(model, s, a)
    ensures a.kept <= |s.journal| && Apply(model, s, a).journal == s.journal[..a.kept]
  {
    hide WellFormed, UnitIndex;
  }

  lemma WorkKeeps(model: Model, s: State, a: Action)
    requires Inv(model, s) && a.Work? && Enabled(model, s, a)
    ensures Inv(model, Apply(model, s, a))
  {
    hide WellFormed, UnitIndex, DurableOk, ReplayAll, Fresh, Kept, Fits, AllStatic, AllLeased, AllFrozen, Agree, AllRecorded, IdsBelow;
  }

  lemma RecoveryRecordKeeps(model: Model, s: State, a: Action)
    requires Inv(model, s) && Enabled(model, s, a) && (a.BeginRecovery? || a.RecordRecoveryFailed?)
    ensures Inv(model, Apply(model, s, a))
  {
    hide WellFormed, UnitIndex, DomainIndex, ModeIndex, Inv, PlanFits, HoldAround, KnownUnits, Recovery, ValidIdentity, FrozenOk;
    OneTransition(model, s, a.id);
    match a
    case BeginRecovery(id, failure, at) => FailureRecordKeeps(model, s, id, Recovering, at, failure, InRecovery);
    case RecordRecoveryFailed(id, failure, at) => FailureRecordKeeps(model, s, id, RecoveryFailed, at, failure, Finished);
  }

  lemma FailureStepKeeps(model: Model, s: State, a: Action)
    requires Inv(model, s) && Enabled(model, s, a) && (a.RecordFailure? || a.Finalize?)
    ensures Inv(model, Apply(model, s, a))
  {
    hide Inv, Apply, Enabled;
    match a
    case RecordFailure(_, _) => DecidedFailureKeeps(model, s, a);
    case Finalize(_, _, _) => FinalizeKeeps(model, s, a);
  }

  lemma DecidedFailureKeeps(model: Model, s: State, a: Action)
    requires Inv(model, s) && Enabled(model, s, a) && a.RecordFailure?
    ensures Inv(model, Apply(model, s, a))
  {
    hide WellFormed, UnitIndex, DomainIndex, ModeIndex, Inv, PlanFits, HoldAround, ValidIdentity, FrozenOk, KnownUnits;
    OneTransition(model, s, a.id);
    var failure := s.transitions[a.id].position.failure;
    FailureRecordKeeps(model, s, a.id, FailurePhase(failure.error.code), a.at, failure, Finished);
  }

  lemma FinalizeKeeps(model: Model, s: State, a: Action)
    requires Inv(model, s) && Enabled(model, s, a) && a.Finalize?
    ensures Inv(model, Apply(model, s, a))
  {
    hide WellFormed, UnitIndex, DomainIndex, ModeIndex, Inv, PlanFits, HoldAround, ValidIdentity, FrozenOk, KnownUnits;
    OneTransition(model, s, a.id);
    NothingKnown(model, a.error);
    FailureRecordKeeps(model, s, a.id, FailurePhase(a.error.code), a.at, PlainFailure(a.error), Finished);
  }

  lemma NothingKnown(model: Model, error: Error)
    ensures ReportsNoMode(model, PlainFailure(error))
  {
  }
}
