/** What the execution engine learns from outside: the scheduler, the cancellation flag,
    the clock and the process backend.  Everything outside is fixed in advance by a
    `World`, which gives the answer to the n-th question whatever the question is. */
module Environment {
  import opened Wrappers
  import opened ExecutionModel
  import opened Planner
  import opened JournalEvents

  datatype Answer = Observed(evidence: Evidence) | Errored(error: Error)

  /** A backend call, with the units that ran when it was made, and its answer. */
  datatype Call =
    | StartCall(unit: UnitId, running: set<UnitId>, answer: Answer)
    | StopCall(unit: UnitId, running: set<UnitId>, answer: Answer)

  /** One thing the engine asked, and what it was told. */
  datatype Note =
    | Lease(granted: bool)
    | Poll(cancelled: bool)
    | Clock(expired: bool)
    | Answered(call: Call)
    | Requested(refusal: Option<Error>)

  datatype World = World(
    granted: nat -> bool,
    cancelled: nat -> bool,
    expired: nat -> bool,
    answer: nat -> Answer,
    refusal: nat -> Option<Error>)

  /** The note is what the world says to the n-th question. */
  ghost predicate Says(world: World, n: nat, note: Note) {
    match note
    case Lease(granted) => granted == world.granted(n)
    case Poll(cancelled) => cancelled == world.cancelled(n)
    case Clock(expired) => expired == world.expired(n)
    case Answered(call) => call.answer == world.answer(n)
    case Requested(refusal) => refusal == world.refusal(n)
  }

  function CallsOf(notes: seq<Note>): seq<Call> {
    if notes == [] then []
    else
      var last := notes[|notes| - 1];
      CallsOf(notes[..|notes| - 1]) + if last.Answered? then [last.call] else []
  }

  /** How much was asked and which calls were made, at some point. */
  datatype Point = Point(asked: nat, calls: seq<Call>)

  /** The notes are everything that was asked between two points, and the answers are those
      of the world. */
  ghost predicate Witnessed(world: World, before: Point, after: Point, notes: seq<Note>) {
    && after.asked == before.asked + |notes|
    && after.calls == before.calls + CallsOf(notes)
    && forall k :: 0 <= k < |notes| ==> Says(world, before.asked + k, notes[k])
  }

  lemma WitnessedNothing(world: World, at: Point)
    ensures Witnessed(world, at, at, [])
  {
  }

  lemma WitnessedOne(world: World, before: Point, after: Point, note: Note)
    requires after.asked == before.asked + 1 && Says(world, before.asked, note)
    requires after.calls == before.calls + if note.Answered? then [note.call] else []
    ensures Witnessed(world, before, after, [note])
  {
    assert CallsOf([note]) == if note.Answered? then [note.call] else [];
  }

  lemma {:induction false} CallsOfBoth(a: seq<Note>, b: seq<Note>)
    ensures CallsOf(a + b) == CallsOf(a) + CallsOf(b)
  {
    if b == [] {
      assert a + b == a;
    } else {
      CallsOfBoth(a, b[..|b| - 1]);
      assert (a + b)[..|a + b| - 1] == a + b[..|b| - 1];
    }
  }

  lemma WitnessedBoth(world: World, first: Point, second: Point, third: Point, a: seq<Note>, b: seq<Note>)
    requires Witnessed(world, first, second, a) && Witnessed(world, second, third, b)
    ensures Witnessed(world, first, third, a + b)
  {
    hide Says, CallsOf;
    CallsOfBoth(a, b);
    forall k | 0 <= k < |a + b| ensures Says(world, first.asked + k, (a + b)[k]) {
      if k >= |a| {
        assert Says(world, second.asked + (k - |a|), b[k - |a|]);
      }
    }
  }

  // ---------------------------------------------------------------------
  // Good and bad news
  // ---------------------------------------------------------------------

  ghost predicate ReportsStopped(answer: Answer) {
    answer.Observed? && answer.evidence.state.StoppedState?
  }

  /** An ordinary start has to be ready, or at least starting if no readiness is asked for;
      during recovery only a lifecycle channel insists on readiness. */
  ghost predicate ReportsStarted(readiness: ReadinessPolicy, answer: Answer, recovering: bool) {
    && answer.Observed?
    && (|| answer.evidence.state.ReadyState?
        || (answer.evidence.state.StartingState? &&
            (if recovering then !readiness.LifecycleChannel? else readiness.ProcessStarted?)))
  }

  /** Nothing in the note stands in the way: a failed start may still be tried again. */
  ghost predicate Fine(note: Note) {
    match note
    case Lease(granted) => granted
    case Poll(cancelled) => !cancelled
    case Clock(expired) => !expired
    case Answered(call) => call.StopCall? ==> ReportsStopped(call.answer)
    case Requested(refusal) => refusal.None?
  }

  ghost predicate Favourable(notes: seq<Note>) {
    forall note <- notes :: Fine(note)
  }

  ghost predicate StoppedIn(notes: seq<Note>, unit: UnitId) {
    exists note <- notes :: note.Answered? && note.call.StopCall? && note.call.unit == unit && ReportsStopped(note.call.answer)
  }

  ghost predicate StartedIn(model: Model, notes: seq<Note>, unit: UnitId, recovering: bool) {
    && unit in Units(model)
    && exists note <- notes ::
         && note.Answered? && note.call.StartCall? && note.call.unit == unit
         && ReportsStarted(Units(model)[unit].readiness, note.call.answer, recovering)
  }

  /** Nobody cancelled, no deadline expired, every stop was reported stopped, clean-up stops
      included, and some attempt of every start reached the state it has to reach. */
  ghost predicate CarriedOut(model: Model, stop: seq<UnitId>, start: seq<UnitId>, notes: seq<Note>, recovering: bool) {
    && Favourable(notes)
    && (forall unit <- stop :: StoppedIn(notes, unit))
    && (forall unit <- start :: StartedIn(model, notes, unit, recovering))
  }

  /** The only units that the notes see started are these. */
  ghost predicate StartsOnly(notes: seq<Note>, units: seq<UnitId>) {
    forall note <- notes :: note.Answered? && note.call.StartCall? ==> note.call.unit in units
  }

  /** The error that a bad note leads to. */
  ghost function Cause(note: Note): Error {
    match note
    case Lease(_) => Error(DeadlineExceeded, [], 0)
    case Poll(_) => Error(Cancelled, [], 0)
    case Clock(_) => Error(DeadlineExceeded, [], 0)
    case Answered(call) => (match call.answer case Observed(_) => Error(BackendError, [], 0) case Errored(error) => error)
    case Requested(refusal) => if refusal.Some? then refusal.value else Error(NoError, [], 0)
  }

  lemma FavourableBoth(a: seq<Note>, b: seq<Note>)
    ensures Favourable(a + b) <==> Favourable(a) && Favourable(b)
  {
    hide Fine;
    if Favourable(a + b) {
      forall note <- a ensures Fine(note) { assert note in a + b; }
      forall note <- b ensures Fine(note) { assert note in a + b; }
    }
  }

  lemma StoppedInBoth(a: seq<Note>, b: seq<Note>, unit: UnitId)
    ensures StoppedIn(a + b, unit) <==> StoppedIn(a, unit) || StoppedIn(b, unit)
  {
    hide ReportsStopped;
    if note :| note in a && note.Answered? && note.call.StopCall? && note.call.unit == unit && ReportsStopped(note.call.answer) {
      assert note in a + b;
    }
    if note :| note in b && note.Answered? && note.call.StopCall? && note.call.unit == unit && ReportsStopped(note.call.answer) {
      assert note in a + b;
    }
  }

  lemma StartedInBoth(model: Model, a: seq<Note>, b: seq<Note>, unit: UnitId, recovering: bool)
    ensures StartedIn(model, a + b, unit, recovering) <==> StartedIn(model, a, unit, recovering) || StartedIn(model, b, unit, recovering)
  {
    hide ReportsStarted, Units;
    if StartedIn(model, a, unit, recovering) {
      var note :| note in a && note.Answered? && note.call.StartCall? && note.call.unit == unit &&
                  ReportsStarted(Units(model)[unit].readiness, note.call.answer, recovering);
      assert note in a + b;
    }
    if StartedIn(model, b, unit, recovering) {
      var note :| note in b && note.Answered? && note.call.StartCall? && note.call.unit == unit &&
                  ReportsStarted(Units(model)[unit].readiness, note.call.answer, recovering);
      assert note in a + b;
    }
  }

  lemma StartsOnlyBoth(a: seq<Note>, b: seq<Note>, units: seq<UnitId>)
    requires StartsOnly(a, units) && StartsOnly(b, units)
    ensures StartsOnly(a + b, units)
  {
  }

  lemma NeverStarted(model: Model, notes: seq<Note>, units: seq<UnitId>, unit: UnitId, recovering: bool)
    requires StartsOnly(notes, units) && unit !in units
    ensures !StartedIn(model, notes, unit, recovering)
  {
    hide ReportsStarted, Units;
  }

  // ---------------------------------------------------------------------
  // The loops
  // ---------------------------------------------------------------------

  ghost function Last(notes: seq<Note>): Note
    requires notes != []
  {
    notes[|notes| - 1]
  }

  /** Everything was fine up to the last note, and that one gives the error: it is bad, or
      it is the last of the attempts that the unit is allowed. */
  ghost predicate BrokenOff(model: Model, notes: seq<Note>, error: Error, recovering: bool) {
    && notes != [] && Favourable(notes[..|notes| - 1]) && error == Cause(Last(notes))
    && (!Fine(Last(notes)) || Exhausted(model, notes, recovering))
  }

  /** The notes end with as many rounds as the unit has attempts, and none has worked. */
  ghost predicate Exhausted(model: Model, notes: seq<Note>, recovering: bool) {
    && notes != [] && Last(notes).Answered? && Last(notes).call.StartCall? && Last(notes).call.unit in Units(model)
    && var unit := Last(notes).call.unit; var n := 3 * Units(model)[unit].maxAttempts - 1;
       0 < n <= |notes| && Rounds(notes[|notes| - n..], unit) && !StartedIn(model, notes, unit, recovering)
  }

  /** The attempts to start one unit: the clock, a start, and a clean-up stop, over again. */
  ghost predicate InRound(k: nat, note: Note, unit: UnitId) {
    if k % 3 == 0 then note.Clock?
    else note.Answered? && note.call.unit == unit && if k % 3 == 1 then note.call.StartCall? else note.call.StopCall?
  }

  ghost predicate Rounds(notes: seq<Note>, unit: UnitId) {
    forall k :: 0 <= k < |notes| ==> InRound(k, notes[k], unit)
  }

  /** What broke off is broken off, whatever other units were started before. */
  lemma BrokenOffLater(model: Model, a: seq<Note>, b: seq<Note>, error: Error, recovering: bool, units: seq<UnitId>)
    requires Favourable(a) && BrokenOff(model, b, error, recovering) && StartsOnly(a, units)
    requires b != [] && Last(b).Answered? ==> Last(b).call.unit !in units
    ensures BrokenOff(model, a + b, error, recovering) && Last(a + b) == Last(b)
  {
    hide Fine, Cause, Units, StartedIn, Rounds, StartsOnly;
    assert (a + b)[..|a + b| - 1] == a + b[..|b| - 1];
    FavourableBoth(a, b[..|b| - 1]);
    if Exhausted(model, b, recovering) {
      var unit := Last(b).call.unit;
      var n := 3 * Units(model)[unit].maxAttempts - 1;
      assert (a + b)[|a + b| - n..] == b[|b| - n..];
      NeverStarted(model, a, units, unit, recovering);
      StartedInBoth(model, a, b, unit, recovering);
    }
  }

  /** The stop loop after `i` units. */
  ghost predicate StopsDone(stop: seq<UnitId>, i: nat, notes: seq<Note>)
    requires i <= |stop|
  {
    && Favourable(notes) && StartsOnly(notes, []) && (notes != [] ==> Last(notes).Answered?)
    && forall unit <- stop[..i] :: StoppedIn(notes, unit)
  }

  /** One unit of the stop loop, with or without a look at the cancellation flag before. */
  lemma StopAdds(model: Model, recovering: bool, stop: seq<UnitId>, i: nat, notes: seq<Note>, polled: seq<Note>, call: Call)
    requires i < |stop| && StopsDone(stop, i, notes) && (polled == [] || polled == [Poll(false)])
    requires call.StopCall? && call.unit == stop[i]
    ensures StartsOnly(notes + polled + [Answered(call)], []) && Last(notes + polled + [Answered(call)]) == Answered(call)
    ensures ReportsStopped(call.answer) ==> StopsDone(stop, i + 1, notes + polled + [Answered(call)])
    ensures !ReportsStopped(call.answer) ==>
              && !Favourable(notes + polled + [Answered(call)])
              && BrokenOff(model, notes + polled + [Answered(call)], Cause(Answered(call)), recovering)
  {
    hide ReportsStopped, Cause, StoppedIn, Exhausted;
    var after := notes + polled + [Answered(call)];
    assert after[..|after| - 1] == notes + polled;
    assert Answered(call) in after;
    if ReportsStopped(call.answer) {
      forall unit <- stop[..i + 1] ensures StoppedIn(after, unit) {
        StoppedInBoth(notes + polled, [Answered(call)], unit);
        StoppedInBoth(notes, polled, unit);
        if unit !in stop[..i] {
          StoppedByOne(call);
        }
      }
    }
  }

  lemma StoppedByOne(call: Call)
    requires call.StopCall? && ReportsStopped(call.answer)
    ensures StoppedIn([Answered(call)], call.unit)
  {
    assert Answered(call) in [Answered(call)];
  }

  /** A look at the cancellation flag that finds it set. */
  lemma CancelBreaks(model: Model, notes: seq<Note>, units: seq<UnitId>, recovering: bool)
    requires Favourable(notes) && StartsOnly(notes, units)
    ensures !Favourable(notes + [Poll(true)]) && StartsOnly(notes + [Poll(true)], units)
    ensures BrokenOff(model, notes + [Poll(true)], Error(Cancelled, [], 0), recovering) && Last(notes + [Poll(true)]) == Poll(true)
  {
    var after := notes + [Poll(true)];
    assert Poll(true) in after && !Fine(Poll(true));
    assert after[..|after| - 1] == notes;
  }

  /** Nothing bad so far, and no attempt has worked. */
  ghost predicate Trying(model: Model, unit: UnitId, notes: seq<Note>, recovering: bool) {
    Rounds(notes, unit) && StartsOnly(notes, [unit]) && Favourable(notes) && !StartedIn(model, notes, unit, recovering)
  }

  /** How the attempts end: with the first that works, with the first bad news, or when all
      the attempts that the unit is allowed have been made. */
  ghost predicate Tried(model: Model, unit: UnitId, notes: seq<Note>, started: bool, error: Error, recovering: bool)
    requires unit in Units(model)
  {
    && notes != [] && Rounds(notes, unit) && StartsOnly(notes, [unit])
    && |notes| <= 3 * Units(model)[unit].maxAttempts - 1
    && (started <==> Favourable(notes) && StartedIn(model, notes, unit, recovering))
    && (started ==> Last(notes).Answered?)
    && (!started ==> BrokenOff(model, notes, error, recovering) && !Last(notes).Poll?)
    && (!started && Favourable(notes) ==> |notes| == 3 * Units(model)[unit].maxAttempts - 1)
  }

  lemma TryingBegins(model: Model, unit: UnitId, recovering: bool)
    ensures Trying(model, unit, [], recovering)
  {
  }

  lemma TryingOn(model: Model, unit: UnitId, notes: seq<Note>, note: Note, recovering: bool)
    requires Trying(model, unit, notes, recovering) && InRound(|notes|, note, unit) && unit in Units(model)
    ensures var after := notes + [note];
            && Rounds(after, unit) && StartsOnly(after, [unit]) && Last(after) == note
            && (!Fine(note) || (note.Answered? && note.call.StartCall? && |after| == 3 * Units(model)[unit].maxAttempts - 1 &&
                                !ReportsStarted(Units(model)[unit].readiness, note.call.answer, recovering)) ==>
                  BrokenOff(model, after, Cause(note), recovering))
            && (Favourable(after) <==> Fine(note))
            && (StartedIn(model, after, unit, recovering) <==>
                  note.Answered? && note.call.StartCall? && ReportsStarted(Units(model)[unit].readiness, note.call.answer, recovering))
  {
    hide Units, ReportsStarted, Fine, Cause, InRound;
    var after := notes + [note];
    assert note in after && after[..|after| - 1] == notes;
    FavourableBoth(notes, [note]);
    assert Favourable([note]) <==> Fine(note) by { assert note in [note]; }
    StartedInBoth(model, notes, [note], unit, recovering);
    assert note in [note];
    assert InRound(|notes|, note, unit);
    TryingUnit(notes, note, unit);
    assert after[0..] == after;
  }

  lemma TryingUnit(notes: seq<Note>, note: Note, unit: UnitId)
    requires StartsOnly(notes, [unit]) && InRound(|notes|, note, unit)
    ensures StartsOnly(notes + [note], [unit]) && (note.Answered? ==> note.call.unit == unit)
  {
  }

  /** The start loop after `i` units. */
  ghost predicate StartsDone(model: Model, start: seq<UnitId>, i: nat, notes: seq<Note>, recovering: bool)
    requires i <= |start|
  {
    && Favourable(notes) && StartsOnly(notes, start[..i]) && (notes != [] ==> Last(notes).Answered?)
    && forall unit <- start[..i] :: StartedIn(model, notes, unit, recovering)
  }

  /** One unit of the start loop. */
  lemma StartAdds(model: Model, start: seq<UnitId>, i: nat, notes: seq<Note>, polled: seq<Note>, tried: seq<Note>,
                  started: bool, error: Error, recovering: bool)
    requires i < |start| && start[i] in Units(model) && start[i] !in start[..i]
    requires StartsDone(model, start, i, notes, recovering) && (polled == [] || polled == [Poll(false)])
    requires Tried(model, start[i], tried, started, error, recovering)
    ensures started ==> StartsDone(model, start, i + 1, notes + polled + tried, recovering)
    ensures !started ==> !CarriedOut(model, [], start, notes + polled + tried, recovering)
    ensures !started ==> BrokenOff(model, notes + polled + tried, error, recovering)
    ensures notes + polled + tried != [] && Last(notes + polled + tried) == Last(tried)
    ensures StartsOnly(notes + polled + tried, start)
  {
    hide Units, StartedIn, Fine, Cause, Rounds;
    var unit, before := start[i], notes + polled;
    assert Favourable(polled) by { PollIsFine(); }
    FavourableBoth(notes, polled);
    FavourableBoth(before, tried);
    assert start[..i + 1] == start[..i] + [unit];
    StartsWithin(before, start[..i], start[..i + 1]);
    StartsWithin(tried, [unit], start[..i + 1]);
    StartsOnlyBoth(before, tried, start[..i + 1]);
    StartsWithin(before + tried, start[..i + 1], start);
    if started {
      forall other <- start[..i + 1] ensures StartedIn(model, before + tried, other, recovering) {
        StartedInBoth(model, before, tried, other, recovering);
        StartedInBoth(model, notes, polled, other, recovering);
      }
    } else {
      TriedIts(model, unit, tried, started, error, recovering);
      StartsWithin(before, start[..i], start[..i]);
      BrokenOffLater(model, before, tried, error, recovering, start[..i]);
      StartedInBoth(model, before, tried, unit, recovering);
      NeverStarted(model, before, start[..i], unit, recovering);
    }
  }

  lemma TriedIts(model: Model, unit: UnitId, notes: seq<Note>, started: bool, error: Error, recovering: bool)
    requires unit in Units(model) && Tried(model, unit, notes, started, error, recovering)
    ensures notes != [] && (Last(notes).Answered? ==> Last(notes).call.unit == unit)
  {
    assert InRound(|notes| - 1, Last(notes), unit);
  }

  lemma PollIsFine()
    ensures Favourable([Poll(false)])
  {
  }

  lemma StartsWithin(notes: seq<Note>, units: seq<UnitId>, more: seq<UnitId>)
    requires StartsOnly(notes, units) && forall unit <- units :: unit in more
    ensures StartsOnly(notes, more)
  {
  }

  /** The two loops one after the other. */
  lemma BothLoops(model: Model, stop: seq<UnitId>, start: seq<UnitId>, a: seq<Note>, b: seq<Note>, recovering: bool)
    requires StartsOnly(a, [])
    ensures CarriedOut(model, stop, [], a, recovering) && CarriedOut(model, [], start, b, recovering) ==>
            CarriedOut(model, stop, start, a + b, recovering)
    ensures CarriedOut(model, stop, start, a + b, recovering) ==> CarriedOut(model, [], start, b, recovering) && Favourable(a)
  {
    hide Units, StoppedIn, StartedIn, Fine;
    FavourableBoth(a, b);
    forall unit <- stop ensures StoppedIn(a, unit) ==> StoppedIn(a + b, unit) {
      StoppedInBoth(a, b, unit);
    }
    forall unit <- start ensures StartedIn(model, a + b, unit, recovering) <==> StartedIn(model, b, unit, recovering) {
      StartedInBoth(model, a, b, unit, recovering);
      NeverStarted(model, a, [], unit, recovering);
    }
  }

  /** How a loop, or two loops in a row, have ended. */
  ghost predicate LoopEnd(model: Model, stop: seq<UnitId>, start: seq<UnitId>, notes: seq<Note>, recovering: bool,
                          done: bool, cancelled: bool, error: Error)
  {
    && (done <==> CarriedOut(model, stop, start, notes, recovering))
    && (done ==> !cancelled && (notes != [] ==> Last(notes).Answered?))
    && (!done ==> BrokenOff(model, notes, error, recovering) && (cancelled <==> Last(notes).Poll?))
  }

  lemma StopsEnd(model: Model, stop: seq<UnitId>, notes: seq<Note>, recovering: bool, error: Error)
    requires StopsDone(stop, |stop|, notes)
    ensures LoopEnd(model, stop, [], notes, recovering, true, false, error)
  {
    hide StoppedIn, Favourable, StartsOnly, Cause, StartedIn;
    assert stop[..|stop|] == stop;
  }

  lemma StartsEnd(model: Model, start: seq<UnitId>, notes: seq<Note>, recovering: bool, error: Error)
    requires StartsDone(model, start, |start|, notes, recovering)
    ensures LoopEnd(model, [], start, notes, recovering, true, false, error)
  {
    hide StoppedIn, Favourable, StartsOnly, Cause, StartedIn;
    assert start[..|start|] == start;
  }

  /** The start loop ends for both, whether or not it has been carried out. */
  lemma BothEnd(model: Model, stop: seq<UnitId>, start: seq<UnitId>, a: seq<Note>, b: seq<Note>, recovering: bool,
                done: bool, cancelled: bool, first: Error, error: Error)
    requires StartsOnly(a, [])
    requires LoopEnd(model, stop, [], a, recovering, true, false, first)
    requires LoopEnd(model, [], start, b, recovering, done, cancelled, error)
    ensures LoopEnd(model, stop, start, a + b, recovering, done, cancelled, error)
  {
    hide Favourable, Cause, StartsOnly;
    BothLoops(model, stop, start, a, b, recovering);
    if done {
      assert a + b != [] ==> Last(a + b) == if b != [] then Last(b) else Last(a);
    } else {
      BrokenOffLater(model, a, b, error, recovering, []);
    }
  }

  /** A stop loop that has not been carried out settles the matter. */
  lemma FirstEnds(model: Model, stop: seq<UnitId>, start: seq<UnitId>, notes: seq<Note>, recovering: bool, cancelled: bool, error: Error)
    requires LoopEnd(model, stop, [], notes, recovering, false, cancelled, error)
    ensures LoopEnd(model, stop, start, notes, recovering, false, cancelled, error)
  {
    hide Favourable, Cause, StoppedIn;
  }

  /** The lease comes first. */
  lemma LeaseAdds(model: Model, stop: seq<UnitId>, start: seq<UnitId>, notes: seq<Note>, done: bool, cancelled: bool, error: Error)
    requires LoopEnd(model, stop, start, notes, false, done, cancelled, error)
    ensures done <==> CarriedOut(model, stop, start, [Lease(true)] + notes, false)
    ensures !done ==> BrokenOff(model, [Lease(true)] + notes, error, false) && Last([Lease(true)] + notes) == Last(notes)
    ensures done ==> Last([Lease(true)] + notes).Lease? || Last([Lease(true)] + notes).Answered?
  {
    hide Favourable, Cause, StoppedIn, StartedIn;
    assert Favourable([Lease(true)]) by { LeaseIsFine(); }
    FavourableBoth([Lease(true)], notes);
    forall unit <- stop ensures StoppedIn([Lease(true)] + notes, unit) <==> StoppedIn(notes, unit) {
      StoppedInBoth([Lease(true)], notes, unit);
      LeaseStopsNothing(unit);
    }
    forall unit <- start ensures StartedIn(model, [Lease(true)] + notes, unit, false) <==> StartedIn(model, notes, unit, false) {
      StartedInBoth(model, [Lease(true)], notes, unit, false);
      LeaseStartsNothing(model, unit);
    }
    if !done {
      assert StartsOnly([Lease(true)], []) by { LeaseIsFine(); }
      BrokenOffLater(model, [Lease(true)], notes, error, false, []);
    }
  }

  lemma LeaseIsFine()
    ensures Favourable([Lease(true)]) && !Favourable([Lease(false)]) && StartsOnly([Lease(true)], [])
  {
    assert Lease(false) in [Lease(false)] && !Fine(Lease(false));
  }

  lemma LeaseStopsNothing(unit: UnitId)
    ensures !StoppedIn([Lease(true)], unit)
  {
  }

  lemma LeaseStartsNothing(model: Model, unit: UnitId)
    ensures !StartedIn(model, [Lease(true)], unit, false)
  {
  }

  lemma TryingMeans(model: Model, unit: UnitId, notes: seq<Note>, recovering: bool)
    requires Trying(model, unit, notes, recovering)
    ensures Rounds(notes, unit) && StartsOnly(notes, [unit]) && Favourable(notes) && !StartedIn(model, notes, unit, recovering)
  {
  }

  lemma TriedSomething(model: Model, unit: UnitId, notes: seq<Note>, started: bool, error: Error, recovering: bool)
    requires unit in Units(model) && Tried(model, unit, notes, started, error, recovering)
    ensures notes != []
  {
  }

  lemma StopsBegin(stop: seq<UnitId>)
    ensures StopsDone(stop, 0, [])
  {
  }

  lemma StopsMean(stop: seq<UnitId>, i: nat, notes: seq<Note>)
    requires i <= |stop| && StopsDone(stop, i, notes)
    ensures Favourable(notes) && StartsOnly(notes, [])
  {
  }

  lemma StartsBegin(model: Model, start: seq<UnitId>, recovering: bool)
    ensures StartsDone(model, start, 0, [], recovering)
  {
  }

  lemma StartsMean(model: Model, start: seq<UnitId>, i: nat, notes: seq<Note>, recovering: bool)
    requires i <= |start| && StartsDone(model, start, i, notes, recovering)
    ensures Favourable(notes) && StartsOnly(notes, start[..i])
  {
  }

  lemma CancelledEnd(model: Model, start: seq<UnitId>, notes: seq<Note>, recovering: bool)
    requires !Favourable(notes) && BrokenOff(model, notes, Error(Cancelled, [], 0), recovering) && Last(notes).Poll?
    ensures LoopEnd(model, [], start, notes, recovering, false, true, Error(Cancelled, [], 0))
  {
    hide Favourable, Cause;
  }

  lemma TriedEnd(model: Model, start: seq<UnitId>, notes: seq<Note>, tried: seq<Note>, unit: UnitId, error: Error, recovering: bool)
    requires unit in Units(model) && Tried(model, unit, tried, false, error, recovering) && notes != [] && Last(notes) == Last(tried)
    requires BrokenOff(model, notes, error, recovering) && !CarriedOut(model, [], start, notes, recovering)
    ensures LoopEnd(model, [], start, notes, recovering, false, false, error)
  {
    hide Favourable, Cause, StartedIn, Rounds, StartsOnly, CarriedOut;
  }

  // ---------------------------------------------------------------------
  // Evidence
  // ---------------------------------------------------------------------

  /** The evidence that stays: of the last start that was observed, or of a stop that was
      observed and did not stop the unit. */
  ghost function Shown(notes: seq<Note>, before: Evidence): Evidence {
    if notes == [] then before
    else
      var last := notes[|notes| - 1];
      if last.Answered? && last.call.answer.Observed? && (last.call.StartCall? || !ReportsStopped(last.call.answer))
      then last.call.answer.evidence
      else Shown(notes[..|notes| - 1], before)
  }

  lemma ShownOneMore(notes: seq<Note>, note: Note, before: Evidence)
    ensures Shown(notes + [note], before) ==
            if note.Answered? && note.call.answer.Observed? && (note.call.StartCall? || !ReportsStopped(note.call.answer))
            then note.call.answer.evidence else Shown(notes, before)
  {
    assert (notes + [note])[..|notes|] == notes;
  }
}
