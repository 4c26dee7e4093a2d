/** Resumable migration: interrupted sessions against one uninterrupted pass. */
module Migrations {
  import opened Wrappers
  import opened Bytes
  import opened KeyOrder
  import opened Store
  import opened StoreHistory
  import opened MemoryStore
  import opened Cursors

  /** What becomes of a source entry: another entry, or nothing. */
  type Transform = Entry -> Option<Entry>

  datatype Plan = Plan(id: string, source: Schema, target: Schema, allowDowngrade: bool)

  const CHECKPOINT_ROOM := 4096

  /** One pass in key order; a later entry may overwrite the target of an earlier one. */
  function Migrated(transform: Transform, entries: seq<Entry>): Values {
    if entries == [] then map[]
    else
      var before := Migrated(transform, entries[..|entries| - 1]);
      var target := transform(entries[|entries| - 1]);
      if target.Some? then before[target.value.key := target.value.value] else before
  }

  lemma MigratedOneMore(transform: Transform, entries: seq<Entry>, n: nat)
    requires n < |entries|
    ensures Migrated(transform, entries[..n + 1]) ==
            (var before := Migrated(transform, entries[..n]);
             var target := transform(entries[n]);
             if target.Some? then before[target.value.key := target.value.value] else before)
  {
    assert entries[..n + 1][..n] == entries[..n];
  }

  /** Where the sessions so far stopped: behind the first `processed` source entries. */
  ghost predicate Reached(transform: Transform, m: Migration, entries: seq<Entry>) {
    && m.processed <= |entries|
    && m.values == Migrated(transform, entries[..m.processed])
    && m.checkpoint == if m.processed == 0 then [] else entries[m.processed - 1].key
  }

  ghost predicate Progress(transform: Transform, s: State) {
    s.migration.id != "" ==> Reached(transform, s.migration, Entries(s.current.values))
  }

  ghost predicate StoreInv(s: State) {
    WriterInv(s) && HandleInv(s) && KeysInv(s) && CursorsInRange(s)
  }

  lemma CallKeepsStoreInv(limits: Limits, s: State, call: Call)
    requires StoreInv(s)
    ensures StoreInv(Perform(limits, s, call).state)
  {
    hide Perform, WriterInv, HandleInv, KeysInv, CursorsInRange;
    WriterKept(limits, s, call);
    HandleKept(limits, s, call);
    KeysKept(limits, s, call);
    CursorsStayInRange(limits, s, call);
  }

  // ---------------------------------------------------------------------
  // Other clients
  // ---------------------------------------------------------------------

  /** A call that is neither a rollback nor part of a migration; it may stop the provider. */
  predicate Foreign(call: Call) {
    !call.RollbackCall? && !OnMigrations(call)
  }

  predicate AllForeign(calls: seq<Call>) {
    forall i :: 0 <= i < |calls| ==> Foreign(calls[i])
  }

  /** The migration is the same, whether or not a handle is open on it. */
  predicate SameMigration(a: Migration, b: Migration) {
    a == b.(handleActive := a.handleActive)
  }

  /** While a migration is in progress, no other client changes its source or its state;
      a stop of the provider takes the handles of the session away. */
  lemma ForeignLeavesMigration(limits: Limits, s: State, call: Call)
    requires StoreInv(s) && Foreign(call)
    ensures var s' := Perform(limits, s, call).state;
            && SameMigration(s'.migration, s.migration) && s.next <= s'.next
            && (s.migration.id != "" ==> s'.current == s.current && s'.generation == s.generation)
            && s'.migrations == (if call.StopCall? then {} else s.migrations)
            && s'.migration.handleActive == (s.migration.handleActive && !(call.StopCall? && s.migrations != {}))
  {
    hide WriterInv, Perform, HandleInv, KeysInv;
    WriterExcludesMigration(s);
    if !s.writerActive {
      NoWritersLeft(s);
    }
    if OnTransactions(call) {
      TransactionsLeaveMigration(limits, s, call);
    } else if OnBlobs(call) {
      BlobsLeaveMigration(limits, s, call);
    } else {
      OthersLeaveMigration(limits, s, call);
    }
  }

  lemma TransactionsLeaveMigration(limits: Limits, s: State, call: Call)
    requires OnTransactions(call) && (s.migration.id != "" ==> forall h :: !Writable(s, h))
    ensures var s' := Perform(limits, s, call).state;
            && s'.migration == s.migration && s'.migrations == s.migrations && s.next <= s'.next
            && (s.migration.id != "" ==> s'.current == s.current && s'.generation == s.generation)
  {
    hide Fits;
  }

  lemma BlobsLeaveMigration(limits: Limits, s: State, call: Call)
    requires OnBlobs(call) && (s.migration.id != "" ==> forall h :: !Streaming(s, h))
    ensures var s' := Perform(limits, s, call).state;
            && s'.migration == s.migration && s'.migrations == s.migrations && s.next <= s'.next
            && (s.migration.id != "" ==> s'.current == s.current && s'.generation == s.generation)
  {
    hide Fits, Zeros;
  }

  lemma OthersLeaveMigration(limits: Limits, s: State, call: Call)
    requires Foreign(call) && !OnTransactions(call) && !OnBlobs(call)
    ensures var s' := Perform(limits, s, call).state;
            && SameMigration(s'.migration, s.migration) && s.next <= s'.next
            && (s.migration.id != "" ==> s'.current == s.current && s'.generation == s.generation)
            && s'.migrations == (if call.StopCall? then {} else s.migrations)
            && s'.migration.handleActive == (s.migration.handleActive && !(call.StopCall? && s.migrations != {}))
  {
    hide Fits, Replacement, Writers, Entries, WithPrefix;
  }

  lemma NoWritersLeft(s: State)
    requires WriterInv(s) && !s.writerActive
    ensures forall h :: !Writable(s, h) && !Streaming(s, h)
  {
    forall h
      ensures !Writable(s, h) && !Streaming(s, h)
    {
      assert Writable(s, h) || Streaming(s, h) ==> h in Writers(s);
    }
  }

  lemma ProgressKept(transform: Transform, s: State, s': State)
    requires Progress(transform, s) && SameMigration(s'.migration, s.migration)
    requires s.migration.id != "" ==> s'.current == s.current && s'.generation == s.generation
    ensures Progress(transform, s')
  {
  }

  // ---------------------------------------------------------------------
  // One session
  // ---------------------------------------------------------------------

  /** The entries up to the checkpoint are the ones already done. */
  lemma SkipsWhatIsDone(transform: Transform, s: State, i: nat)
    requires InSession(transform, s, s) && s.migration.id != "" && i < |Entries(s.current.values)|
    ensures var key := Entries(s.current.values)[i].key;
            key != [] && ((s.migration.checkpoint != [] && !Less(s.migration.checkpoint, key)) <==> i < s.migration.processed)
  {
    hide Entries, Less, Migrated, WriterInv, HandleInv;
    var values, m := s.current.values, s.migration;
    EntriesAreOrdered(values);
    var entries := Entries(values);
    assert entries[i].key in values;
    if m.processed > 0 {
      var last := m.processed - 1;
      assert entries[last].key in values;
      if i < last {
        assert Less(entries[i].key, entries[last].key);
        LessIsStrict(entries[i].key, entries[last].key);
      } else if i == last {
        LessIsStrict(entries[i].key, entries[i].key);
      } else {
        assert Less(entries[last].key, entries[i].key);
      }
    }
  }

  lemma EverythingHasEmptyPrefix(entries: seq<Entry>)
    ensures WithPrefix(entries, []) == entries
  {
    WithPrefixOfRun(entries, [], 0, |entries|);
  }

  lemma ApplyReaches(limits: Limits, s: State, origin: State, h: Handle, transform: Transform)
    requires InSession(transform, s, origin) && s.migration.id != "" && s.migration.processed < |Entries(s.current.values)|
    requires ApplyMigration(limits, s, h, Entries(s.current.values)[s.migration.processed].key,
                            transform(Entries(s.current.values)[s.migration.processed])).status.Ok?
    ensures var s' := ApplyMigration(limits, s, h, Entries(s.current.values)[s.migration.processed].key,
                                     transform(Entries(s.current.values)[s.migration.processed])).state;
            InSession(transform, s', origin) && s'.migration.processed == s.migration.processed + 1
  {
    hide Entries, Migrated, Fits, Less, StoreInv;
    var source := Entries(s.current.values)[s.migration.processed];
    MigratedOneMore(transform, Entries(s.current.values), s.migration.processed);
    CallKeepsStoreInv(limits, s, ApplyMigrationCall(h, source.key, transform(source)));
  }

  lemma BeginReaches(limits: Limits, s: State, access: Access, plan: Plan, transform: Transform)
    requires StoreInv(s) && Progress(transform, s)
    requires BeginMigration(s, access, plan.id, plan.source, plan.target, CHECKPOINT_ROOM).status.Ok?
    ensures var s' := BeginMigration(s, access, plan.id, plan.source, plan.target, CHECKPOINT_ROOM).state;
            && InSession(transform, s', s') && s'.migration.id == plan.id != "" && s'.migration.target == plan.target
            && s'.current == s.current && s'.generation == s.generation
            && s'.migration.processed == Done(s.migration)
            && s'.migration.sourceGeneration == (if s.migration.id != "" then s.migration.sourceGeneration else s.generation)
            && s'.migrations == s.migrations + {s.next} && s'.transactions == s.transactions && s'.writerActive == s.writerActive
            && s'.migration.source == plan.source
  {
    hide Entries, StoreInv, BeginMigration, Migrated;
    CallKeepsStoreInv(limits, s, BeginMigrationCall(access, plan.id, plan.source, plan.target, CHECKPOINT_ROOM));
    MigrationBegins(s, access, plan);
    assert Entries(s.current.values)[..0] == [];
    MigratedNothing(transform);
  }

  /** A migration is begun at its first entry, or resumed where it was left. */
  lemma MigrationBegins(s: State, access: Access, plan: Plan)
    requires BeginMigration(s, access, plan.id, plan.source, plan.target, CHECKPOINT_ROOM).status.Ok?
    ensures var s' := BeginMigration(s, access, plan.id, plan.source, plan.target, CHECKPOINT_ROOM).state;
            && s'.current == s.current && s'.generation == s.generation && plan.id != ""
            && s'.migration == (if s.migration.id != "" then s.migration.(handleActive := true)
                                else Migration(plan.id, s.current.schema, plan.target, s.generation, map[], [], 0, true))
            && s'.migration.id == plan.id && s'.migration.target == plan.target
            && s'.migrations == s.migrations + {s.next} && s'.transactions == s.transactions && s'.writerActive == s.writerActive
            && s'.migration.source == plan.source
  {
  }

  lemma BeginRefusedReaches(s: State, access: Access, plan: Plan, transform: Transform)
    requires Progress(transform, s)
    requires !BeginMigration(s, access, plan.id, plan.source, plan.target, CHECKPOINT_ROOM).status.Ok?
    ensures BeginMigration(s, access, plan.id, plan.source, plan.target, CHECKPOINT_ROOM).state == s
  {
  }

  lemma MigratedNothing(transform: Transform)
    ensures Migrated(transform, []) == map[]
  {
  }

  // ---------------------------------------------------------------------
  // What a session depends on
  // ---------------------------------------------------------------------

  /** Entry `i` of the source can be applied: its target is within the limits, and so is
      everything migrated up to there. */
  ghost predicate StepFits(limits: Limits, transform: Transform, entries: seq<Entry>, i: nat)
    requires i < |entries|
  {
    && (var target := transform(entries[i]);
        target.Some? ==> target.value.key != [] && |target.value.key| <= limits.maxKey && |target.value.value| <= limits.maxValue)
    && Fits(limits, Migrated(transform, entries[..i + 1]), map[])
  }

  ghost predicate AllStepsFit(limits: Limits, transform: Transform, entries: seq<Entry>, start: nat, end: nat)
    requires end <= |entries|
  {
    forall i :: start <= i < end ==> StepFits(limits, transform, entries, i)
  }

  predicate Quiet(calls: seq<Call>) {
    forall i :: 0 <= i < |calls| ==> !calls[i].StopCall?
  }

  /** Nobody stops the provider before entry `n` is read. */
  ghost predicate QuietBefore(others: seq<seq<Call>>, n: nat) {
    forall p :: 0 <= p < n && p < |others| ==> Quiet(others[p])
  }

  /** A session that starts behind the first `start` entries gets to the end of the source
      and keeps its handles. */
  ghost predicate Smooth(limits: Limits, transform: Transform, entries: seq<Entry>, start: nat, patience: nat, others: seq<seq<Call>>) {
    && start <= |entries| && |entries| - start <= patience
    && AllStepsFit(limits, transform, entries, start, |entries|)
    && QuietBefore(others, |entries| + 1)
  }

  /** The plan is valid and the store lets it begin, or resume, a migration. */
  ghost predicate MayBegin(s: State, access: Access, plan: Plan) {
    && plan.id != "" && plan.source.id != "" && plan.target.id != "" && plan.source.version > 0 && plan.target.version > 0
    && (plan.allowDowngrade || plan.target.version > plan.source.version)
    && access.ReadWrite? && !s.writerActive && !s.migration.handleActive
    && (if s.migration.id != ""
        then s.migration.id == plan.id && s.migration.source == plan.source && s.migration.target == plan.target &&
             |s.migration.checkpoint| <= 4096
        else plan.source == s.current.schema)
  }

  /** Exactly what a session needs to succeed. */
  ghost predicate CanFinish(limits: Limits, s: State, access: Access, plan: Plan, transform: Transform, patience: nat,
                            others: seq<seq<Call>>)
  {
    && MayBegin(s, access, plan) && |s.transactions| < limits.maxTransactions
    && Smooth(limits, transform, Entries(s.current.values), Done(s.migration), patience, others)
    && (s.migration.id != "" ==> s.generation == s.migration.sourceGeneration)
  }

  /** Everything that a session needs but patience. */
  ghost predicate OnlyPatienceFails(limits: Limits, s: State, access: Access, plan: Plan, transform: Transform, others: seq<seq<Call>>) {
    var entries := Entries(s.current.values);
    && MayBegin(s, access, plan) && |s.transactions| < limits.maxTransactions
    && AllStepsFit(limits, transform, entries, Done(s.migration), |entries|) && QuietBefore(others, |entries| + 1)
    && (s.migration.id != "" ==> s.generation == s.migration.sourceGeneration)
  }

  lemma BeginOkIff(s: State, access: Access, plan: Plan)
    ensures MayBegin(s, access, plan) <==>
            PlanIsValid(plan) && BeginMigration(s, access, plan.id, plan.source, plan.target, CHECKPOINT_ROOM).status.Ok?
    ensures MayBegin(s, access, plan) ==> access.ReadWrite?
  {
  }

  lemma QuietOneMore(others: seq<seq<Call>>, n: nat)
    ensures QuietBefore(others, n + 1) <==> QuietBefore(others, n) && (n < |others| ==> Quiet(others[n]))
  {
    hide Quiet;
  }

  lemma QuietUpTo(others: seq<seq<Call>>, m: nat, n: nat)
    ensures m <= n && QuietBefore(others, n + 1) ==> QuietBefore(others, m + 1)
  {
    hide Quiet;
  }

  lemma NoStepsYet(limits: Limits, transform: Transform, entries: seq<Entry>, start: nat)
    requires start <= |entries|
    ensures AllStepsFit(limits, transform, entries, start, start)
  {
  }

  lemma StepsGrow(limits: Limits, transform: Transform, entries: seq<Entry>, start: nat, n: nat)
    requires start <= n < |entries| && AllStepsFit(limits, transform, entries, start, n) && StepFits(limits, transform, entries, n)
    ensures AllStepsFit(limits, transform, entries, start, n + 1)
  {
    hide StepFits;
  }

  /** How the loop over the source ends, from whether it had and has its handle. */
  ghost predicate EndsAs(limits: Limits, transform: Transform, entries: seq<Entry>, start: nat, patience: nat,
                         others: seq<seq<Call>>, had: bool, ok: bool, has: bool, processed: nat)
  {
    && (ok ==> processed == |entries| || !has)
    && (ok && has <==> had && Smooth(limits, transform, entries, start, patience, others))
    && (had && QuietBefore(others, |entries| + 1) ==> has)
    && (!ok && had && QuietBefore(others, |entries| + 1) && AllStepsFit(limits, transform, entries, start, |entries|) ==>
          processed == start + patience)
  }

  /** At the end of the source, or without the handle. */
  lemma EndsWell(limits: Limits, transform: Transform, entries: seq<Entry>, start: nat, patience: nat, others: seq<seq<Call>>,
                 had: bool, has: bool, processed: nat, position: nat)
    requires start <= processed <= |entries| && position <= |entries| && processed - start <= patience
    requires AllStepsFit(limits, transform, entries, start, processed)
    requires has <==> had && QuietBefore(others, position + 1)
    requires (position == |entries| && processed == |entries|) || !has
    ensures EndsAs(limits, transform, entries, start, patience, others, had, true, has, processed)
  {
    hide StepFits, Quiet, QuietBefore, AllStepsFit;
    QuietUpTo(others, position, |entries|);
  }

  /** At an entry that the transform or the store refuses. */
  lemma EndsBadly(limits: Limits, transform: Transform, entries: seq<Entry>, start: nat, patience: nat, others: seq<seq<Call>>,
                  had: bool, processed: nat)
    requires start <= processed < |entries| && had
    requires processed - start == patience || !StepFits(limits, transform, entries, processed)
    ensures EndsAs(limits, transform, entries, start, patience, others, had, false, true, processed)
  {
    hide StepFits, Quiet, QuietBefore;
  }

  /** How many source entries are done. */
  function Done(m: Migration): nat {
    if m.id != "" then m.processed else 0
  }

  /** The store in the middle of a session that began in state `origin`. */
  ghost predicate InSession(transform: Transform, s: State, origin: State) {
    && StoreInv(s) && Progress(transform, s)
    && s.current == origin.current && s.generation == origin.generation
    && s.migration.id == origin.migration.id && s.migration.target == origin.migration.target
    && s.migration.sourceGeneration == origin.migration.sourceGeneration && s.migration.source == origin.migration.source
  }

  lemma LeaveKeeps(limits: Limits, transform: Transform, s: State, origin: State, h: Handle, call: Call)
    requires InSession(transform, s, origin) && (call == AbortMigrationCall(h) || call == CloseMigrationCall(h))
    ensures InSession(transform, Perform(limits, s, call).state, origin)
    ensures Perform(limits, s, call).state.migration.processed == s.migration.processed
    ensures HandleIsSafe(s, h) ==> !Perform(limits, s, call).state.migration.handleActive
    ensures call.AbortMigrationCall? ==> Perform(limits, s, call).state.migrations == s.migrations
  {
    hide StoreInv, Reached, Entries;
    CallKeepsStoreInv(limits, s, call);
    ReachedIgnoresHandle(transform, s.migration, Perform(limits, s, call).state.migration, Entries(s.current.values));
  }

  /** Gives the session up; what was done so far stays. */
  method GiveUp(store: MemoryStore, migration: Handle, ghost transform: Transform, ghost origin: State)
    requires InSession(transform, store.View(), origin)
    modifies store
    ensures InSession(transform, store.View(), origin)
    ensures store.migration.processed == old(store.migration.processed)
    ensures old(HandleIsSafe(store.View(), migration)) ==> !store.migration.handleActive
    ensures store.transactions == old(store.transactions) && store.writerActive == old(store.writerActive)
  {
    hide InSession, AbortMigration, CloseMigration;
    LeaveKeeps(store.limits, transform, store.View(), origin, migration, AbortMigrationCall(migration));
    var _ := store.Interrupt(migration);
    LeaveKeeps(store.limits, transform, store.View(), origin, migration, CloseMigrationCall(migration));
    var _ := store.Leave(migration);
  }

  lemma ReachedIgnoresHandle(transform: Transform, m: Migration, m': Migration, entries: seq<Entry>)
    requires m'.processed == m.processed && m'.values == m.values && m'.checkpoint == m.checkpoint
    ensures Reached(transform, m, entries) == Reached(transform, m', entries)
  {
  }

  lemma ForeignKeepsSession(limits: Limits, transform: Transform, s: State, origin: State, call: Call)
    requires InSession(transform, s, origin) && Foreign(call) && origin.migration.id != ""
    ensures var s' := Perform(limits, s, call).state; InSession(transform, s', origin) && SameMigration(s'.migration, s.migration)
  {
    hide StoreInv, Reached, Perform;
    CallKeepsStoreInv(limits, s, call);
    ForeignLeavesMigration(limits, s, call);
    ProgressKept(transform, s, Perform(limits, s, call).state);
  }

  /** A call on the session's own cursor: nobody else has its handle. */
  predicate Names(call: Call, cursor: Handle) {
    (call.NextCursorCall? || call.CloseCursorCall?) && call.handle == cursor
  }

  /** The session's cursor is where it was, or a stop has taken it away and the handle of
      the migration with it. */
  predicate HasCursor(s: State, cursor: Handle, migration: Handle, expected: CursorState) {
    && cursor < s.next
    && (cursor in s.cursors <==> migration in s.migrations)
    && (cursor in s.cursors ==> s.cursors[cursor] == expected)
    && HandleIsSafe(s, migration)
  }

  /** The migration is not held by a handle that is gone. */
  predicate HandleIsSafe(s: State, migration: Handle) {
    migration in s.migrations || !s.migration.handleActive
  }

  lemma ForeignLeavesCursor(limits: Limits, s: State, call: Call, cursor: Handle, migration: Handle, expected: CursorState)
    requires StoreInv(s) && Foreign(call) && !Names(call, cursor) && HasCursor(s, cursor, migration, expected)
    ensures HasCursor(Perform(limits, s, call).state, cursor, migration, expected)
    ensures migration in Perform(limits, s, call).state.migrations <==> migration in s.migrations && !call.StopCall?
  {
    hide StoreInv, Perform;
    ForeignLeavesMigration(limits, s, call);
    if cursor in s.cursors {
      OwnCursorStays(limits, s, call, cursor);
    } else {
      NoCursorAppears(limits, s, call, cursor);
    }
  }

  lemma OwnCursorStays(limits: Limits, s: State, call: Call, cursor: Handle)
    requires cursor in s.cursors && cursor < s.next && !Names(call, cursor)
    ensures var s' := Perform(limits, s, call).state;
            if call.StopCall? then cursor !in s'.cursors else cursor in s'.cursors && s'.cursors[cursor] == s.cursors[cursor]
  {
    hide Perform;
    if OnCursors(call) {
      OtherCursorCall(limits, s, call, cursor);
    } else {
      CursorsUntouched(limits, s, call);
    }
  }

  lemma OtherCursorCall(limits: Limits, s: State, call: Call, cursor: Handle)
    requires OnCursors(call) && cursor < s.next && !Names(call, cursor)
    ensures var s' := Perform(limits, s, call).state;
            (cursor in s'.cursors <==> cursor in s.cursors) && (cursor in s.cursors ==> s'.cursors[cursor] == s.cursors[cursor])
  {
    hide Entries, WithPrefix;
  }

  lemma NoCursorAppears(limits: Limits, s: State, call: Call, cursor: Handle)
    requires cursor !in s.cursors && cursor < s.next && !Names(call, cursor)
    ensures cursor !in Perform(limits, s, call).state.cursors
  {
    hide Perform;
    if OnCursors(call) {
      OtherCursorCall(limits, s, call, cursor);
    } else {
      CursorsUntouched(limits, s, call);
    }
  }

  /** Other clients at work during a session. */
  method Meanwhile(store: MemoryStore, calls: seq<Call>, cursor: Handle, ghost migration: Handle, ghost expected: CursorState,
                   ghost transform: Transform, ghost origin: State)
    requires AllForeign(calls) && InSession(transform, store.View(), origin) && origin.migration.id != ""
    requires HasCursor(store.View(), cursor, migration, expected)
    modifies store
    ensures InSession(transform, store.View(), origin) && SameMigration(store.migration, old(store.migration))
    ensures HasCursor(store.View(), cursor, migration, expected)
    ensures migration in store.migrations <==> old(migration in store.migrations) && Quiet(calls)
    ensures calls == [] ==> store.View() == old(store.View())
  {
    hide InSession, Perform, HasCursor, StoreInv, CursorsInRange, Progress;
    for i := 0 to |calls|
      invariant InSession(transform, store.View(), origin) && SameMigration(store.migration, old(store.migration))
      invariant HasCursor(store.View(), cursor, migration, expected)
      invariant migration in store.migrations <==> old(migration in store.migrations) && Quiet(calls[..i])
      invariant i == 0 ==> store.View() == old(store.View())
    {
      assert Quiet(calls[..i + 1]) <==> Quiet(calls[..i]) && !calls[i].StopCall? by {
        assert calls[..i + 1] == calls[..i] + [calls[i]];
      }
      if !Names(calls[i], cursor) {
        SessionMeans(transform, store.View(), origin);
        InvHasRange(store.View());
        ForeignKeepsSession(store.limits, transform, store.View(), origin, calls[i]);
        ForeignLeavesCursor(store.limits, store.View(), calls[i], cursor, migration, expected);
        store.Do(calls[i]);
      }
    }
    assert calls[..|calls|] == calls;
  }

  lemma InvHasRange(s: State)
    requires StoreInv(s)
    ensures CursorsInRange(s)
  {
  }

  /** Other clients at work between sessions. */
  method Between(store: MemoryStore, calls: seq<Call>, ghost transform: Transform)
    requires AllForeign(calls) && StoreInv(store.View()) && Progress(transform, store.View())
    modifies store
    ensures StoreInv(store.View()) && Progress(transform, store.View())
    ensures SameMigration(store.migration, old(store.migration))
    ensures store.migration.id != "" ==> store.values == old(store.values) && store.generation == old(store.generation)
    ensures store.View() == Performed(store.limits, old(store.View()), calls)
  {
    hide StoreInv, Progress, Perform, CursorsInRange;
    for i := 0 to |calls|
      invariant StoreInv(store.View()) && Progress(transform, store.View())
      invariant SameMigration(store.migration, old(store.migration))
      invariant store.migration.id != "" ==> store.values == old(store.values) && store.generation == old(store.generation)
      invariant store.View() == Performed(store.limits, old(store.View()), calls[..i])
    {
      assert calls[..i + 1][..i] == calls[..i];
      CallKeepsStoreInv(store.limits, store.View(), calls[i]);
      ForeignLeavesMigration(store.limits, store.View(), calls[i]);
      InvHasRange(store.View());
      ghost var before := store.View();
      store.Do(calls[i]);
      ProgressKept(transform, before, store.View());
    }
    assert calls[..|calls|] == calls;
  }

  /** The store after some calls. */
  function Performed(limits: Limits, s: State, calls: seq<Call>): State {
    if calls == [] then s else Perform(limits, Performed(limits, s, calls[..|calls| - 1]), calls[|calls| - 1]).state
  }

  predicate PlanIsValid(plan: Plan) {
    && plan.id != "" && plan.source.id != "" && plan.target.id != "" && plan.source.version != 0 && plan.target.version != 0
    && (plan.allowDowngrade || plan.target.version > plan.source.version)
  }

  /** One call of Migrate.  The transform gives up when it was asked `patience` times;
      other clients work on the store before each entry is read.  `applied` is what
      was applied in this session. */
  method Migrate(store: MemoryStore, access: Access, plan: Plan, transform: Transform, patience: nat, others: seq<seq<Call>>)
    returns (r: Option<nat>, ghost applied: seq<Entry>)
    requires StoreInv(store.View()) && Progress(transform, store.View())
    requires forall i :: 0 <= i < |others| ==> AllForeign(others[i])
    modifies store
    ensures StoreInv(store.View()) && Progress(transform, store.View())
    ensures r.Some? <==> CanFinish(store.limits, old(store.View()), access, plan, transform, patience, others)
    ensures r.None? && store.migration.id != "" ==>
            store.migration.sourceGeneration ==
            if old(store.migration.id) != "" then old(store.migration.sourceGeneration) else store.generation
    ensures !MayBegin(old(store.View()), access, plan) ==> store.View() == old(store.View())
    ensures MayBegin(old(store.View()), access, plan) ==> !store.migration.handleActive
    ensures MayBegin(old(store.View()), access, plan) && r.None? ==>
            store.migration.id == plan.id && store.migration.source == plan.source && store.migration.target == plan.target
    ensures others == [] ==> store.transactions == old(store.transactions) && store.writerActive == old(store.writerActive)
    ensures r.None? && OnlyPatienceFails(store.limits, old(store.View()), access, plan, transform, others) ==>
            store.migration.processed == Done(old(store.migration)) + patience
    ensures r.None? ==>
            && store.View().current == old(store.View().current) && store.generation == old(store.generation)
            && Done(old(store.migration)) <= Done(store.migration) <= |Entries(old(store.values))|
            && applied == Entries(old(store.values))[Done(old(store.migration))..Done(store.migration)]
    ensures r.Some? ==>
            && store.values == Migrated(transform, Entries(old(store.values)))
            && store.schema == plan.target && store.blobs == old(store.blobs)
            && store.generation == old(store.generation) + 1 && store.rollback == Some(old(store.View().current))
            && r.value == |old(store.values)| && store.migration.id == ""
            && Done(old(store.migration)) <= |Entries(old(store.values))|
            && applied == Entries(old(store.values))[Done(old(store.migration))..]
  {
    hide StoreInv, Progress, Entries, Migrated, BeginMigration, CommitMigration, CloseMigration, InSession, MayBegin, Smooth, AllStepsFit, QuietBefore, PlanIsValid, HandleIsSafe;
    applied := [];
    ghost var s0 := store.View();
    DoneIsBounded(transform, s0);
    assert Entries(s0.current.values)[Done(s0.migration)..Done(s0.migration)] == [];
    BeginOkIff(s0, access, plan);
    if !PlanIsValid(plan) { return None, applied; }
    var status, migration := store.OpenMigration(access, plan.id, plan.source, plan.target, CHECKPOINT_ROOM);
    if !status.Ok? {
      BeginRefusedReaches(s0, access, plan, transform);
      return None, applied;
    }
    ghost var s1 := store.View();
    BeginReaches(store.limits, s0, access, plan, transform);
    r, applied := Session(store, access, migration, transform, patience, others);
  }

  /** The session itself, once the migration is begun or resumed. */
  method Session(store: MemoryStore, access: Access, migration: Handle, transform: Transform, patience: nat, others: seq<seq<Call>>)
    returns (r: Option<nat>, ghost applied: seq<Entry>)
    requires InSession(transform, store.View(), store.View()) && store.migration.id != "" && migration in store.migrations
    requires forall i :: 0 <= i < |others| ==> AllForeign(others[i])
    modifies store
    ensures StoreInv(store.View()) && Progress(transform, store.View()) && !store.migration.handleActive
    ensures r.Some? <==>
            && !access.Unopened? && old(|store.transactions|) < store.limits.maxTransactions
            && Smooth(store.limits, transform, Entries(old(store.values)), old(store.migration.processed), patience, others)
            && old(store.generation == store.migration.sourceGeneration)
    ensures r.None? ==>
            && store.View().current == old(store.View().current) && store.generation == old(store.generation)
            && store.migration.id == old(store.migration.id) && store.migration.source == old(store.migration.source)
            && store.migration.target == old(store.migration.target)
            && store.migration.sourceGeneration == old(store.migration.sourceGeneration)
            && old(store.migration.processed) <= store.migration.processed <= |Entries(old(store.values))|
            && applied == Entries(old(store.values))[old(store.migration.processed)..store.migration.processed]
    ensures r.Some? ==>
            && store.values == Migrated(transform, Entries(old(store.values)))
            && store.schema == old(store.migration.target) && store.blobs == old(store.blobs)
            && store.generation == old(store.generation) + 1 && store.rollback == Some(old(store.View().current))
            && store.migration.id == "" && r.value == |Entries(old(store.values))|
            && old(store.migration.processed) <= |Entries(old(store.values))|
            && applied == Entries(old(store.values))[old(store.migration.processed)..]
    ensures others == [] ==> store.transactions == old(store.transactions) && store.writerActive == old(store.writerActive)
    ensures r.None? && !access.Unopened? && old(|store.transactions|) < store.limits.maxTransactions &&
            QuietBefore(others, |Entries(old(store.values))| + 1) && old(store.generation == store.migration.sourceGeneration) &&
            AllStepsFit(store.limits, transform, Entries(old(store.values)), old(store.migration.processed), |Entries(old(store.values))|) ==>
            store.migration.processed == old(store.migration.processed) + patience
  {
    hide StoreInv, Progress, Entries, Migrated, CommitMigration, CloseMigration, InSession, Smooth, AllStepsFit, QuietBefore, HandleIsSafe;
    ghost var origin := store.View();
    ghost var entries := Entries(store.values);
    SessionIsBounded(transform, origin, origin);
    var ok, processed;
    ok, processed, applied := Pass(store, access, migration, transform, patience, others, store.migration.checkpoint, store.migration.processed);
    SessionMeans(transform, store.View(), origin);
    assert entries[..|entries|] == entries;
    if ok {
      ok := Finish(store, migration, transform, origin);
      return (if ok then Some(processed) else None), applied;
    }
    GiveUp(store, migration, transform, origin);
    SessionMeans(transform, store.View(), origin);
    return None, applied;
  }

  /** Commits what was migrated; a refused commit leaves it for another session. */
  method Finish(store: MemoryStore, migration: Handle, ghost transform: Transform, ghost origin: State) returns (ok: bool)
    requires InSession(transform, store.View(), origin) && store.migration.id != ""
    requires store.migration.processed == |Entries(store.values)| || migration !in store.migrations
    requires HandleIsSafe(store.View(), migration)
    modifies store
    ensures StoreInv(store.View()) && Progress(transform, store.View())
    ensures ok <==> old(migration in store.migrations && store.generation == store.migration.sourceGeneration)
    ensures !store.migration.handleActive
    ensures store.transactions == old(store.transactions) && store.writerActive == old(store.writerActive)
    ensures !ok ==> store.migration.source == old(store.migration.source) && store.migration.target == old(store.migration.target)
    ensures !ok ==>
            && store.migration.sourceGeneration == old(store.migration.sourceGeneration)
            && store.View().current == old(store.View().current) && store.generation == old(store.generation)
            && store.migration.processed == old(store.migration.processed) && store.migration.id == old(store.migration.id)
    ensures ok ==>
            && store.values == Migrated(transform, Entries(old(store.values))) && store.schema == old(store.migration.target)
            && store.blobs == old(store.blobs) && store.rollback == Some(old(store.View().current))
            && store.generation == old(store.generation) + 1 && store.migration.id == ""
            && old(store.migration.processed) == |Entries(old(store.values))|
  {
    hide StoreInv, Progress, Entries, Migrated, CommitMigration, CloseMigration, InSession;
    ghost var s := store.View();
    CommitInstalls(store.limits, s, origin, migration, transform);
    SessionMeans(transform, s, origin);
    var status := store.FinishMigration(migration);
    if !status.Ok? {
      LeaveKeeps(store.limits, transform, s, origin, migration, CloseMigrationCall(migration));
      var _ := store.Leave(migration);
      SessionMeans(transform, store.View(), origin);
      return false;
    }
    LeaveAfterCommit(store.limits, store.View(), migration, transform);
    var _ := store.Leave(migration);
    return true;
  }

  lemma DoneIsBounded(transform: Transform, s: State)
    requires Progress(transform, s)
    ensures Done(s.migration) <= |Entries(s.current.values)|
  {
    hide Entries;
  }

  lemma SessionMeans(transform: Transform, s: State, origin: State)
    requires InSession(transform, s, origin)
    ensures StoreInv(s) && Progress(transform, s)
    ensures s.current == origin.current && s.generation == origin.generation
    ensures s.migration.id == origin.migration.id && s.migration.target == origin.migration.target
    ensures s.migration.sourceGeneration == origin.migration.sourceGeneration && s.migration.source == origin.migration.source
  {
    hide StoreInv, Progress;
  }

  lemma CommitInstalls(limits: Limits, s: State, origin: State, h: Handle, transform: Transform)
    requires InSession(transform, s, origin) && s.migration.id != ""
    requires s.migration.processed == |Entries(s.current.values)| || h !in s.migrations
    ensures var r := CommitMigration(s, h);
            && StoreInv(r.state) && Progress(transform, r.state)
            && (r.status.Ok? <==> h in s.migrations && s.generation == s.migration.sourceGeneration)
            && (r.status.Ok? ==>
                  && r.state.current.values == Migrated(transform, Entries(s.current.values))
                  && r.state.current.schema == s.migration.target && r.state.current.blobs == s.current.blobs
                  && r.state.rollback == Some(s.current) && r.state.generation == s.generation + 1
                  && s.migration.processed == |Entries(s.current.values)|
                  && r.state.migration.id == "")
            && (!r.status.Ok? ==> r.state == s)
            && (r.status.Ok? ==> !r.state.migration.handleActive)
            && r.state.transactions == s.transactions && r.state.writerActive == s.writerActive
  {
    hide Entries, Migrated, StoreInv;
    CallKeepsStoreInv(limits, s, CommitMigrationCall(h));
    assert Entries(s.current.values)[..|Entries(s.current.values)|] == Entries(s.current.values);
  }

  lemma LeaveAfterCommit(limits: Limits, s: State, h: Handle, transform: Transform)
    requires StoreInv(s) && s.migration.id == ""
    ensures var s' := CloseMigration(s, h).state;
            && StoreInv(s') && Progress(transform, s') && s'.current == s.current && s'.generation == s.generation
            && s'.rollback == s.rollback && s'.migration.id == ""
            && (!s.migration.handleActive ==> !s'.migration.handleActive)
            && s'.transactions == s.transactions && s'.writerActive == s.writerActive
  {
    hide StoreInv, Reached;
    CallKeepsStoreInv(limits, s, CloseMigrationCall(h));
  }

  /** Reads the source in key order, skips what is done and applies the rest.  A session
      that runs to the end of its cursor has done everything, or has lost its handle. */
  method Pass(store: MemoryStore, access: Access, migration: Handle, transform: Transform, patience: nat,
              others: seq<seq<Call>>, resumeAfter: Key, start: nat)
    returns (ok: bool, processed: nat, ghost applied: seq<Entry>)
    requires InSession(transform, store.View(), store.View()) && store.migration.id != ""
    requires forall i :: 0 <= i < |others| ==> AllForeign(others[i])
    requires resumeAfter == store.migration.checkpoint && start == store.migration.processed && migration in store.migrations
    modifies store
    ensures InSession(transform, store.View(), old(store.View()))
    ensures start <= store.migration.processed <= |Entries(old(store.values))|
    ensures applied == Entries(old(store.values))[start..store.migration.processed]
    ensures ok ==> processed == store.migration.processed
    ensures ok ==> store.migration.processed == |Entries(old(store.values))| || migration !in store.migrations
    ensures ok && migration in store.migrations <==>
            && !access.Unopened? && old(|store.transactions|) < store.limits.maxTransactions
            && Smooth(store.limits, transform, Entries(old(store.values)), start, patience, others)
    ensures HandleIsSafe(store.View(), migration)
    ensures QuietBefore(others, |Entries(old(store.values))| + 1) ==> migration in store.migrations
    ensures !ok && !access.Unopened? && old(|store.transactions|) < store.limits.maxTransactions &&
            QuietBefore(others, |Entries(old(store.values))| + 1) &&
            AllStepsFit(store.limits, transform, Entries(old(store.values)), start, |Entries(old(store.values))|) ==>
            store.migration.processed == start + patience
    ensures others == [] ==> store.transactions == old(store.transactions) && store.writerActive == old(store.writerActive)
  {
    hide InSession, Entries, HasCursor, Smooth, AllStepsFit, QuietBefore;
    ghost var origin := store.View();
    SessionIsBounded(transform, origin, origin);
    assert Entries(store.values)[start..start] == [];
    var read, cursor, found := OpenSource(store, access, migration, transform, origin);
    if !found { return false, start, []; }
    ok, processed, applied := ApplyAll(store, migration, cursor, transform, patience, others, resumeAfter, start, origin);
    CloseSource(store, cursor, read, migration, transform, origin);
  }

  /** The loop over the source. */
  method ApplyAll(store: MemoryStore, migration: Handle, cursor: Handle, transform: Transform, patience: nat,
                  others: seq<seq<Call>>, resumeAfter: Key, start: nat, ghost origin: State)
    returns (ok: bool, processed: nat, ghost applied: seq<Entry>)
    requires InSession(transform, origin, origin) && origin.migration.id != ""
    requires InSession(transform, store.View(), origin) && store.migration.processed == start
    requires HasCursor(store.View(), cursor, migration, CursorState(Entries(origin.current.values), 0))
    requires forall i :: 0 <= i < |others| ==> AllForeign(others[i])
    requires resumeAfter == origin.migration.checkpoint && start == origin.migration.processed
    modifies store
    ensures InSession(transform, store.View(), origin)
    ensures start <= store.migration.processed <= |Entries(origin.current.values)|
    ensures applied == Entries(origin.current.values)[start..store.migration.processed]
    ensures ok ==> processed == store.migration.processed
    ensures HandleIsSafe(store.View(), migration)
    ensures EndsAs(store.limits, transform, Entries(origin.current.values), start, patience, others,
                   old(migration in store.migrations), ok, migration in store.migrations, store.migration.processed)
    ensures others == [] ==> store.transactions == old(store.transactions) && store.writerActive == old(store.writerActive)
  {
    hide InSession, Entries, Less, HasCursor, StepFits, Quiet, QuietBefore, EndsAs, AllStepsFit, HandleIsSafe, Part;
    ghost var entries := Entries(origin.current.values);
    applied, processed := [], start;
    SessionIsBounded(transform, origin, origin);
    PartGrows(entries, start, start);
    var asked, position := 0, 0;
    NobodyYet(others);
    NoStepsYet(store.limits, transform, entries, start);
    while true
      invariant InSession(transform, store.View(), origin) && position <= |entries|
      invariant HasCursor(store.View(), cursor, migration, CursorState(entries, position))
      invariant store.migration.processed == processed == if position < start then start else position
      invariant processed <= |entries| && applied == Part(entries, start, processed)
      invariant migration in store.migrations <==> old(migration in store.migrations) && QuietBefore(others, position)
      invariant AllStepsFit(store.limits, transform, entries, start, processed) && asked == processed - start <= patience
      invariant others == [] ==> store.transactions == old(store.transactions) && store.writerActive == old(store.writerActive)
      decreases |entries| - position
    {
      QuietOneMore(others, position);
      PartGrows(entries, start, processed);
      NobodyYet(others);
      var calls := if position < |others| then others[position] else [];
      var step := OneEntry(store, calls, cursor, migration, position, transform, asked == patience, resumeAfter, origin);
      if step.Ended? {
        EndsWell(store.limits, transform, entries, start, patience, others, old(migration in store.migrations),
                 migration in store.migrations, processed, position);
        return true, processed, applied;
      }
      position := position + 1;
      if step.Skipped? { continue; }
      if step.Stopped? {
        EndsBadly(store.limits, transform, entries, start, patience, others, old(migration in store.migrations), processed);
        return false, processed, applied;
      }
      StepsGrow(store.limits, transform, entries, start, processed);
      applied := applied + [step.entry];
      asked, processed := asked + 1, processed + 1;
    }
  }

  /** What became of one entry: none was left, it was done before, it ended the session, or
      it was applied. */
  datatype Step = Ended | Skipped | Stopped | Applied(entry: Entry)

  /** One turn of the loop: other clients, the next entry, the comparison with the checkpoint,
      the transform, which may be `tired`, and the entry itself. */
  method OneEntry(store: MemoryStore, calls: seq<Call>, cursor: Handle, migration: Handle, ghost position: nat,
                  transform: Transform, tired: bool, resumeAfter: Key, ghost origin: State)
    returns (step: Step)
    requires InSession(transform, store.View(), origin) && InSession(transform, origin, origin) && origin.migration.id != ""
    requires AllForeign(calls) && position <= |Entries(origin.current.values)| && resumeAfter == origin.migration.checkpoint
    requires HasCursor(store.View(), cursor, migration, CursorState(Entries(origin.current.values), position))
    requires store.migration.processed == if position < origin.migration.processed then origin.migration.processed else position
    modifies store
    ensures InSession(transform, store.View(), origin) && HandleIsSafe(store.View(), migration)
    ensures migration in store.migrations <==> old(migration in store.migrations) && Quiet(calls)
    ensures step.Ended? <==> position == |Entries(origin.current.values)| || migration !in store.migrations
    ensures !step.Ended? ==> HasCursor(store.View(), cursor, migration, CursorState(Entries(origin.current.values), position + 1))
    ensures step.Skipped? <==> !step.Ended? && position < origin.migration.processed
    ensures step.Applied? <==> !step.Ended? && !step.Skipped? && !tired &&
                               StepFits(store.limits, transform, Entries(origin.current.values), position)
    ensures step.Applied? ==> step.entry == Entries(origin.current.values)[position]
    ensures store.migration.processed == old(store.migration.processed) + if step.Applied? then 1 else 0
    ensures calls == [] ==> store.transactions == old(store.transactions) && store.writerActive == old(store.writerActive)
  {
    hide InSession, Entries, Less, HasCursor, StepFits, Quiet, HandleIsSafe;
    var next := ReadSource(store, calls, cursor, migration, position, transform, origin);
    if !next.Delivered? { return Ended; }
    ghost var expected := CursorState(Entries(origin.current.values), position + 1);
    CursorMeans(store.View(), cursor, migration, expected);
    if resumeAfter != [] && !Less(resumeAfter, next.entry.key) { return Skipped; }
    if tired { return Stopped; }
    var done := ApplyNext(store, migration, next.entry, transform, cursor, expected, origin);
    CursorMeans(store.View(), cursor, migration, expected);
    return if done then Applied(next.entry) else Stopped;
  }

  function Part(entries: seq<Entry>, start: nat, n: nat): seq<Entry>
    requires start <= n <= |entries|
  {
    entries[start..n]
  }

  lemma PartGrows(entries: seq<Entry>, start: nat, n: nat)
    requires start <= n <= |entries|
    ensures Part(entries, start, start) == [] && Part(entries, start, n) == entries[start..n]
    ensures n < |entries| ==> Part(entries, start, n + 1) == Part(entries, start, n) + [entries[n]]
  {
  }

  lemma CursorMeans(s: State, cursor: Handle, migration: Handle, expected: CursorState)
    requires HasCursor(s, cursor, migration, expected)
    ensures HandleIsSafe(s, migration)
  {
  }

  lemma NobodyYet(others: seq<seq<Call>>)
    ensures QuietBefore(others, 0) && Quiet([])
  {
  }

  /** A read transaction on the source and a cursor over all of it. */
  method OpenSource(store: MemoryStore, access: Access, ghost migration: Handle, ghost transform: Transform, ghost origin: State)
    returns (read: Handle, cursor: Handle, ok: bool)
    requires InSession(transform, store.View(), origin) && store.View() == origin && migration in store.migrations
    modifies store
    ensures InSession(transform, store.View(), origin) && store.migration == old(store.migration)
    ensures store.migrations == old(store.migrations)
    ensures ok <==> !access.Unopened? && |origin.transactions| < store.limits.maxTransactions
    ensures store.writerActive == old(store.writerActive)
    ensures ok ==> read in store.transactions && !store.transactions[read].write && store.transactions - {read} == old(store.transactions)
    ensures !ok ==> store.View() == origin
    ensures ok ==> HasCursor(store.View(), cursor, migration, CursorState(Entries(origin.current.values), 0))
  {
    hide InSession, Entries, Begin, WithPrefix, OpenCursor;
    ReadBegins(store.limits, transform, origin, origin, access);
    var status;
    status, read := store.BeginTransaction(access, false, None);
    if !status.Ok? { return read, 0, false; }
    ghost var s := store.View();
    ScanBegins(store.limits, transform, s, origin, read);
    status, cursor := store.BeginScan(read, []);
    ok := status.Ok?;
  }

  lemma ScanBegins(limits: Limits, transform: Transform, s: State, origin: State, read: Handle)
    requires InSession(transform, s, origin)
    requires read in s.transactions && s.transactions[read].values == origin.current.values
    ensures var r := OpenCursor(s, read, []);
            && InSession(transform, r.state, origin) && r.state.migration == s.migration && r.state.migrations == s.migrations
            && r.state.transactions == s.transactions && r.state.writerActive == s.writerActive
            && (r.status.Ok? <==> !s.transactions[read].finished && !s.transactions[read].write)
            && (r.status.Ok? ==> s.next in r.state.cursors && s.next < r.state.next &&
                                 r.state.cursors[s.next] == CursorState(Entries(origin.current.values), 0))
  {
    hide StoreInv, Reached, Entries, WithPrefix;
    CallKeepsStoreInv(limits, s, OpenCursorCall(read, []));
    EverythingHasEmptyPrefix(Entries(origin.current.values));
  }

  /** The cursor and the transaction are closed, if they are still open. */
  method CloseSource(store: MemoryStore, cursor: Handle, read: Handle, ghost migration: Handle, ghost transform: Transform, ghost origin: State)
    requires InSession(transform, store.View(), origin)
    modifies store
    ensures InSession(transform, store.View(), origin) && store.migration == old(store.migration)
    ensures store.migrations == old(store.migrations)
    ensures store.transactions == old(store.transactions) - {read}
    ensures old(read in store.transactions ==> !store.transactions[read].write) ==> store.writerActive == old(store.writerActive)
  {
    hide InSession, CloseCursor, Store.CloseTransaction;
    ScanCloses(store.limits, transform, store.View(), origin, cursor);
    var _ := store.EndScan(cursor);
    ReadCloses(store.limits, transform, store.View(), origin, read);
    var _ := store.Close(read);
  }

  lemma ScanCloses(limits: Limits, transform: Transform, s: State, origin: State, cursor: Handle)
    requires InSession(transform, s, origin)
    ensures var s' := CloseCursor(s, cursor).state;
            && InSession(transform, s', origin) && s'.migration == s.migration && s'.migrations == s.migrations
            && s'.transactions == s.transactions && s'.writerActive == s.writerActive
  {
    hide StoreInv, Reached;
    CallKeepsStoreInv(limits, s, CloseCursorCall(cursor));
  }

  /** Other clients at work, then the next source entry, and whether it lies behind the checkpoint; at the end of the
      source, or without a cursor, there is none. */
  method ReadSource(store: MemoryStore, calls: seq<Call>, cursor: Handle, ghost migration: Handle, ghost position: nat,
                    ghost transform: Transform, ghost origin: State)
    returns (next: Reading)
    requires InSession(transform, store.View(), origin) && InSession(transform, origin, origin) && origin.migration.id != ""
    requires AllForeign(calls) && position <= |Entries(origin.current.values)|
    requires HasCursor(store.View(), cursor, migration, CursorState(Entries(origin.current.values), position))
    modifies store
    ensures InSession(transform, store.View(), origin) && store.migration.processed == old(store.migration.processed)
    ensures next.Delivered? ==>
            && position < |Entries(origin.current.values)| && next.entry == Entries(origin.current.values)[position]
            && HasCursor(store.View(), cursor, migration, CursorState(Entries(origin.current.values), position + 1))
            && ((origin.migration.checkpoint != [] && !Less(origin.migration.checkpoint, next.entry.key)) <==>
                position < origin.migration.processed)
    ensures next.Delivered? <==> position < |Entries(origin.current.values)| && migration in store.migrations
    ensures HandleIsSafe(store.View(), migration)
    ensures calls == [] ==> store.transactions == old(store.transactions) && store.writerActive == old(store.writerActive)
    ensures migration in store.migrations <==> old(migration in store.migrations) && Quiet(calls)
  {
    hide InSession, Entries, Less, StoreInv, CursorsInRange, Progress, Quiet;
    if position < |Entries(origin.current.values)| {
      SkipsWhatIsDone(transform, origin, position);
    }
    Meanwhile(store, calls, cursor, migration, CursorState(Entries(origin.current.values), position), transform, origin);
    SessionMeans(transform, store.View(), origin);
    InvHasRange(store.View());
    ghost var s := store.View();
    next := Next(store, cursor);
    NextKeepsSession(transform, s, store.View(), origin);
  }

  lemma NextKeepsSession(transform: Transform, s: State, s': State, origin: State)
    requires InSession(transform, s, origin) && s' == s.(cursors := s'.cursors) && CursorsInRange(s')
    requires s'.cursors.Keys == s.cursors.Keys
    ensures InSession(transform, s', origin)
  {
    hide Reached, Writers, KeysInv, CursorsInRange;
    WritersUnchanged(s, s');
    SameKeys(s, s');
  }

  lemma SameKeys(s: State, s': State)
    requires KeysInv(s) && s' == s.(cursors := s'.cursors)
    ensures KeysInv(s')
  {
  }

  method ApplyNext(store: MemoryStore, migration: Handle, source: Entry, transform: Transform, ghost cursor: Handle,
                   ghost expected: CursorState, ghost origin: State)
    returns (ok: bool)
    requires InSession(transform, store.View(), origin) && origin.migration.id != ""
    requires HasCursor(store.View(), cursor, migration, expected)
    requires store.migration.processed < |Entries(origin.current.values)|
    requires source == Entries(origin.current.values)[store.migration.processed]
    modifies store`migration
    ensures InSession(transform, store.View(), origin) && HasCursor(store.View(), cursor, migration, expected)
    ensures store.migration.processed == old(store.migration.processed) + if ok then 1 else 0
    ensures ok <==> migration in store.migrations &&
                    StepFits(store.limits, transform, Entries(origin.current.values), old(store.migration.processed))
  {
    hide InSession, Entries, ApplyMigration, StepFits;
    var status := store.Apply(migration, source.key, transform(source));
    SessionMeans(transform, old(store.View()), origin);
    ApplyOkIff(store.limits, old(store.View()), origin, migration, transform);
    if status.Ok? {
      ApplyReaches(store.limits, old(store.View()), origin, migration, transform);
    } else {
      ApplyRefused(store.limits, old(store.View()), migration, source.key, transform(source));
    }
    return status.Ok?;
  }

  /** The next entry is applied exactly when the handle is still there and it is within the
      limits; it always lies behind the checkpoint. */
  lemma ApplyOkIff(limits: Limits, s: State, origin: State, h: Handle, transform: Transform)
    requires InSession(transform, s, origin) && s.migration.id != "" && s.migration.processed < |Entries(s.current.values)|
    ensures var entries := Entries(s.current.values); var source := entries[s.migration.processed];
            ApplyMigration(limits, s, h, source.key, transform(source)).status.Ok? <==>
            h in s.migrations && StepFits(limits, transform, entries, s.migration.processed)
  {
    hide Entries, Migrated, Fits, Less, StoreInv;
    var entries := Entries(s.current.values);
    assert InSession(transform, s, s);
    SkipsWhatIsDone(transform, s, s.migration.processed);
    MigratedOneMore(transform, entries, s.migration.processed);
  }

  lemma SessionIsBounded(transform: Transform, s: State, origin: State)
    requires InSession(transform, s, origin) && s.migration.id != ""
    ensures s.migration.processed <= |Entries(s.current.values)|
  {
    hide Entries;
  }

  lemma ReadBegins(limits: Limits, transform: Transform, s: State, origin: State, access: Access)
    requires InSession(transform, s, origin)
    ensures var r := Begin(limits, s, access, false, None);
            && InSession(transform, r.state, origin) && r.state.migration == s.migration
            && r.state.migrations == s.migrations
            && (r.status.Ok? <==> !access.Unopened? && |s.transactions| < limits.maxTransactions)
            && r.state.writerActive == s.writerActive && (!r.status.Ok? ==> r.state == s)
            && (r.status.Ok? ==> s.next !in s.transactions && r.state.transactions - {s.next} == s.transactions)
            && (r.status.Ok? ==> s.next in r.state.transactions &&
                                 r.state.transactions[s.next] == Transaction(s.current.values, s.generation, false, false))
  {
    hide WriterInv, KeysInv, CursorsInRange, Reached;
    CallKeepsStoreInv(limits, s, BeginCall(access, false, None));
  }

  lemma ReadCloses(limits: Limits, transform: Transform, s: State, origin: State, h: Handle)
    requires InSession(transform, s, origin)
    ensures var s' := Store.CloseTransaction(s, h).state;
            && InSession(transform, s', origin) && s'.migration == s.migration && s'.migrations == s.migrations
            && s'.transactions == s.transactions - {h}
            && ((h in s.transactions ==> !s.transactions[h].write) ==> s'.writerActive == s.writerActive)
  {
    hide StoreInv, Progress, Store.CloseTransaction;
    CallKeepsStoreInv(limits, s, CloseTransactionCall(h));
    CloseIs(s, h);
    ProgressKept(transform, s, Store.CloseTransaction(s, h).state);
  }

  lemma CloseIs(s: State, h: Handle)
    ensures var s' := Store.CloseTransaction(s, h).state;
            && s'.current == s.current && s'.generation == s.generation && s'.migration == s.migration
            && s'.migrations == s.migrations && s'.transactions == s.transactions - {h}
            && ((h in s.transactions ==> !s.transactions[h].write) ==> s'.writerActive == s.writerActive)
  {
  }

  lemma ApplyRefused(limits: Limits, s: State, h: Handle, source: Key, target: Option<Entry>)
    requires !ApplyMigration(limits, s, h, source, target).status.Ok?
    ensures ApplyMigration(limits, s, h, source, target).state == s
  {
    hide Fits, Less;
  }

  // ---------------------------------------------------------------------
  // Any number of sessions
  // ---------------------------------------------------------------------

  /** A session, and what other clients do before and during it. */
  datatype Attempt = Attempt(before: seq<Call>, patience: nat, during: seq<seq<Call>>)

  predicate AttemptIsForeign(attempt: Attempt) {
    AllForeign(attempt.before) && forall i :: 0 <= i < |attempt.during| ==> AllForeign(attempt.during[i])
  }

  /** Resumed equals uninterrupted: however often the migration is interrupted, when a
      session succeeds the values are those of one pass over all the source entries,
      every source entry was applied exactly once, and the count is their number. */
  method MigrateInSessions(store: MemoryStore, access: Access, plan: Plan, transform: Transform, attempts: seq<Attempt>)
    returns (r: Option<nat>, ghost source: Values, ghost applied: seq<Entry>, ghost states: seq<State>)
    requires StoreInv(store.View()) && store.migration.id == ""
    requires forall i :: 0 <= i < |attempts| ==> AttemptIsForeign(attempts[i])
    modifies store
    ensures StoreInv(store.View())
    ensures r.Some? ==>
            && store.values == Migrated(transform, Entries(source)) && store.schema == plan.target
            && applied == Entries(source) && r.value == |source|
    ensures |states| <= |attempts| && (r.None? ==> |states| == |attempts|)
    ensures states != [] ==> states[0] == Performed(store.limits, old(store.View()), attempts[0].before)
    ensures forall i :: 0 <= i < |states| ==>
            (CanFinish(store.limits, states[i], access, plan, transform, attempts[i].patience, attempts[i].during) <==>
             r.Some? && i == |states| - 1)
    ensures r.Some? ==> states != []
    ensures r.None? && store.migration.id != "" ==>
            store.values == source && Done(store.migration) <= |Entries(source)| && applied == Entries(source)[..Done(store.migration)]
  {
    hide StoreInv, Reached, Entries, Migrated, Foreign, CanFinish, Performed;
    applied, source, states := [], store.values, [];
    for i := 0 to |attempts|
      invariant StoreInv(store.View()) && Progress(transform, store.View())
      invariant store.migration.id != "" ==> source == store.values
      invariant Done(store.migration) <= |Entries(source)|
      invariant applied == Entries(source)[..Done(store.migration)]
      invariant |states| == i && (i == 0 ==> store.View() == old(store.View()))
      invariant states != [] ==> states[0] == Performed(store.limits, old(store.View()), attempts[0].before)
      invariant forall k :: 0 <= k < |states| ==>
                !CanFinish(store.limits, states[k], access, plan, transform, attempts[k].patience, attempts[k].during)
    {
      Between(store, attempts[i].before, transform);
      if store.migration.id == "" { source := store.values; }
      states := states + [store.View()];
      ghost var done, more := Done(store.migration), [];
      r, more := Migrate(store, access, plan, transform, attempts[i].patience, attempts[i].during);
      applied := applied + more;
      if r.Some? {
        assert Entries(source)[..done] + Entries(source)[done..] == Entries(source);
        return;
      }
      assert Entries(source)[..done] + Entries(source)[done..Done(store.migration)] == Entries(source)[..Done(store.migration)];
      if store.migration.id == "" {
        source := store.values;
      }
    }
    r := None;
  }

  // ---------------------------------------------------------------------
  // Sessions that nobody disturbs
  // ---------------------------------------------------------------------

  /** Whether sessions that last for so many entries each get to the end: a session resumes
      only behind a key that its buffer holds. */
  function GetsThrough(entries: seq<Entry>, done: nat, patiences: seq<nat>): bool
    requires done <= |entries|
    decreases |patiences|
  {
    && patiences != [] && (done == 0 || |entries[done - 1].key| <= 4096)
    && (|entries| - done <= patiences[0] || GetsThrough(entries, done + patiences[0], patiences[1..]))
  }

  function Total(patiences: seq<nat>): nat {
    if patiences == [] then 0 else patiences[0] + Total(patiences[1..])
  }

  /** With keys that the buffer holds, it is only the sum that counts. */
  lemma {:induction false} EnoughPatience(entries: seq<Entry>, done: nat, patiences: seq<nat>)
    requires done <= |entries| && forall i :: 0 <= i < |entries| ==> |entries[i].key| <= 4096
    ensures GetsThrough(entries, done, patiences) <==> patiences != [] && |entries| - done <= Total(patiences)
    decreases |patiences|
  {
    if patiences != [] && |entries| - done > patiences[0] {
      EnoughPatience(entries, done + patiences[0], patiences[1..]);
    }
  }

  /** A migration that was interrupted behind a longer key can never be resumed. */
  lemma LongKeyIsFinal(entries: seq<Entry>, done: nat, patiences: seq<nat>)
    requires 0 < done <= |entries| && |entries[done - 1].key| > 4096
    ensures !GetsThrough(entries, done, patiences)
  {
  }

  /** Where a migration that only wants for patience stands. */
  ghost predicate Waits(limits: Limits, s: State, access: Access, plan: Plan, transform: Transform) {
    && StoreInv(s) && Progress(transform, s) && access.ReadWrite? && !s.writerActive && !s.migration.handleActive
    && |s.transactions| < limits.maxTransactions
    && plan.id != "" && plan.source.id != "" && plan.target.id != "" && plan.source.version > 0 && plan.target.version > 0
    && (plan.allowDowngrade || plan.target.version > plan.source.version)
    && (if s.migration.id == "" then plan.source == s.current.schema
        else s.migration.id == plan.id && s.migration.source == plan.source && s.migration.target == plan.target &&
             s.generation == s.migration.sourceGeneration)
    && AllStepsFit(limits, transform, Entries(s.current.values), 0, |Entries(s.current.values)|)
  }

  lemma WaitingMeans(limits: Limits, s: State, access: Access, plan: Plan, transform: Transform, patience: nat)
    requires Waits(limits, s, access, plan, transform)
    ensures var entries := Entries(s.current.values); var done := Done(s.migration);
            && done <= |entries| && plan.id != ""
            && (MayBegin(s, access, plan) <==> done == 0 || |entries[done - 1].key| <= 4096)
            && (CanFinish(limits, s, access, plan, transform, patience, []) <==>
                  MayBegin(s, access, plan) && |entries| - done <= patience)
            && (MayBegin(s, access, plan) ==> OnlyPatienceFails(limits, s, access, plan, transform, []))
  {
    hide StoreInv, Entries, Migrated, StepFits;
  }

  /** With nobody else at work, no step beyond the limits and nothing in the way, interrupted
      sessions get through exactly when their patience adds up to the number of entries and no
      session has to resume behind a key that is longer than the buffer for it. */
  method MigrateAlone(store: MemoryStore, access: Access, plan: Plan, transform: Transform, patiences: seq<nat>)
    returns (r: Option<nat>)
    requires Waits(store.limits, store.View(), access, plan, transform) && store.migration.id == ""
    modifies store
    ensures r.Some? <==> GetsThrough(Entries(old(store.values)), 0, patiences)
    ensures r.Some? ==>
            && store.values == Migrated(transform, Entries(old(store.values))) && store.schema == plan.target
            && r.value == |old(store.values)|
    ensures r.None? ==> store.values == old(store.values) && store.schema == old(store.schema)
  {
    hide Waits, Entries, Migrated, MayBegin, CanFinish, OnlyPatienceFails, StoreInv, Progress;
    ghost var entries := Entries(store.values);
    for i := 0 to |patiences|
      invariant Waits(store.limits, store.View(), access, plan, transform) && Done(store.migration) <= |entries|
      invariant store.View().current == old(store.View().current)
      invariant GetsThrough(entries, 0, patiences) <==> GetsThrough(entries, Done(store.migration), patiences[i..])
    {
      ghost var s := store.View();
      WaitingMeans(store.limits, s, access, plan, transform, patiences[i]);
      assert patiences[i..][0] == patiences[i] && patiences[i..][1..] == patiences[i + 1..];
      WaitingKeeps(store.limits, s, access, plan, transform);
      var result;
      ghost var applied;
      result, applied := Migrate(store, access, plan, transform, patiences[i], []);
      if result.Some? { return result; }
      WaitsOn(store.limits, s, store.View(), access, plan, transform);
    }
    return None;
  }

  /** After a session that did not succeed, the next one finds everything as it should be. */
  lemma WaitsOn(limits: Limits, s: State, s': State, access: Access, plan: Plan, transform: Transform)
    requires Waits(limits, s, access, plan, transform) && StoreInv(s') && Progress(transform, s')
    requires s'.current == s.current && s'.generation == s.generation
    requires s'.transactions == s.transactions && s'.writerActive == s.writerActive
    requires s' == s || (!s'.migration.handleActive && s'.migration.id == plan.id && s'.migration.source == plan.source &&
                         s'.migration.target == plan.target &&
                         s'.migration.sourceGeneration == if s.migration.id != "" then s.migration.sourceGeneration else s'.generation)
    ensures Waits(limits, s', access, plan, transform)
  {
    hide StoreInv, Progress, AllStepsFit, Entries;
  }

  lemma WaitingKeeps(limits: Limits, s: State, access: Access, plan: Plan, transform: Transform)
    requires Waits(limits, s, access, plan, transform)
    ensures StoreInv(s) && Progress(transform, s)
  {
    hide StoreInv, Progress, AllStepsFit, Entries;
  }
}
