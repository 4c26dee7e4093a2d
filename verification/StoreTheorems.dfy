/** What holds of a store over every run of provider calls. */
module StoreTheorems {
  import opened Wrappers
  import opened Bytes
  import opened KeyOrder
  import opened Store
  import opened StoreHistory

  lemma StartIsGood(schema: Schema)
    ensures Inv(Start(schema))
  {
    assert Writers(Opened(schema)) == {};
  }

  lemma {:induction false} RunKeepsInvariant(limits: Limits, schema: Schema, calls: seq<Call>)
    ensures Inv(After(limits, schema, calls))
    decreases |calls|
  {
    hide Advance, Inv;
    if calls == [] {
      StartIsGood(schema);
    } else {
      RunKeepsInvariant(limits, schema, calls[..|calls| - 1]);
      CallKeepsInvariant(limits, After(limits, schema, calls[..|calls| - 1]), calls[|calls| - 1]);
    }
  }

  lemma AfterOneMore(limits: Limits, schema: Schema, calls: seq<Call>, call: Call)
    ensures After(limits, schema, calls + [call]) == Advance(limits, After(limits, schema, calls), call)
  {
    assert (calls + [call])[..|calls|] == calls;
  }

  /** Serial history: the contents at each generation never change afterwards, and the
      values, blobs and schema change only in a call that raises the generation by one. */
  lemma SerialHistory(limits: Limits, schema: Schema, calls: seq<Call>, call: Call)
    ensures var t, t' := After(limits, schema, calls), After(limits, schema, calls + [call]);
            && |t.history| == t.state.generation + 1 && t.history[t.state.generation] == t.state.current
            && |t'.history| == t'.state.generation + 1 && t'.history[t'.state.generation] == t'.state.current
            && t.history <= t'.history
            && (t'.state.generation == t.state.generation + 1 ||
                (t'.state.generation == t.state.generation && t'.state.current == t.state.current))
            && t'.state.commits == t'.state.generation
  {
    hide Advance, After, SnapshotInv, StreamInv, WriterInv, KeysInv, MigrationInv, HandleInv, UndoInv, CursorInv;
    RunKeepsInvariant(limits, schema, calls);
    AfterOneMore(limits, schema, calls, call);
    HistoryKept(limits, After(limits, schema, calls), call);
  }

  /** Over any later run, the contents at an earlier generation stay on record. */
  lemma {:induction false} HistoryIsPermanent(limits: Limits, schema: Schema, calls: seq<Call>, more: seq<Call>)
    ensures After(limits, schema, calls).history <= After(limits, schema, calls + more).history
    decreases |more|
  {
    hide After;
    if more == [] {
      assert calls + more == calls;
    } else {
      var before := more[..|more| - 1];
      HistoryIsPermanent(limits, schema, calls, before);
      SerialHistory(limits, schema, calls + before, more[|more| - 1]);
      assert calls + before + [more[|more| - 1]] == calls + more;
    }
  }

  /** A read transaction always sees the values of the generation it began at. */
  lemma ReaderSeesItsGeneration(limits: Limits, schema: Schema, calls: seq<Call>, h: Handle)
    requires var s := After(limits, schema, calls).state; h in s.transactions && !s.transactions[h].write
    ensures var t := After(limits, schema, calls); var x := t.state.transactions[h];
            x.base <= t.state.generation < |t.history| && x.values == t.history[x.base].values
  {
    hide After, StreamInv, WriterInv, KeysInv, MigrationInv, HandleInv, UndoInv, CursorInv;
    RunKeepsInvariant(limits, schema, calls);
    assert Snapshot(After(limits, schema, calls), h);
  }

  /** A cursor always delivers the matching entries of the generation at which the read
      transaction began on which it was opened. */
  lemma CursorReadsItsGeneration(limits: Limits, schema: Schema, calls: seq<Call>, h: Handle)
    requires h in After(limits, schema, calls).state.cursors
    ensures var t := After(limits, schema, calls); var c := t.state.cursors[h];
            && h in t.openings && t.openings[h].base <= t.state.generation < |t.history| && c.position <= |c.entries|
            && c.entries == WithPrefix(Entries(t.history[t.openings[h].base].values), t.openings[h].prefix)
  {
    hide After, SnapshotInv, StreamInv, WriterInv, KeysInv, MigrationInv, HandleInv, UndoInv, Entries, WithPrefix;
    RunKeepsInvariant(limits, schema, calls);
    assert Scanned(After(limits, schema, calls), h);
  }

  /** At most one unfinished writer exists, and the flag says whether it does. */
  lemma OneWriterAtMost(limits: Limits, schema: Schema, calls: seq<Call>)
    ensures var s := After(limits, schema, calls).state;
            && (forall a, b :: a in Writers(s) && b in Writers(s) ==> a == b)
            && (s.writerActive <==> Writers(s) != {})
            && !(s.writerActive && s.migration.id != "")
  {
    hide After, StreamInv, SnapshotInv, HistoryInv, KeysInv, MigrationInv, HandleInv, UndoInv, CursorInv;
    RunKeepsInvariant(limits, schema, calls);
    var s := After(limits, schema, calls).state;
    if s.writerActive {
      var h :| Writers(s) == {h};
      assert h in Writers(s);
    }
  }

  /** A commit succeeds exactly when nothing was committed since the writer began; it then
      installs the writer's own puts and erases over the contents it began with. */
  lemma CommitInstallsItsEdits(limits: Limits, schema: Schema, calls: seq<Call>, h: Handle)
    requires Writable(After(limits, schema, calls).state, h)
    ensures var t := After(limits, schema, calls); var t' := After(limits, schema, calls + [CommitCall(h)]);
            var base := t.state.transactions[h].base;
            && base < |t.history| && h in t.edits
            && (Commit(t.state, h).status.Ok? <==> base == t.state.generation)
            && (base == t.state.generation ==>
                  t'.state.current == t.history[base].(values := Applied(t.history[base].values, t.edits[h])))
            && (base != t.state.generation ==> Commit(t.state, h).status.Conflict? && t'.state.current == t.state.current)
            && !t'.state.writerActive
  {
    hide After, StreamInv, WriterInv, KeysInv, MigrationInv, HandleInv, UndoInv, CursorInv, Applied;
    RunKeepsInvariant(limits, schema, calls);
    AfterOneMore(limits, schema, calls, CommitCall(h));
    assert Snapshot(After(limits, schema, calls), h);
  }

  /** A rollback restores the contents that the last migration replaced, schema included,
      whatever was committed since; it is possible exactly once after a migration. */
  lemma RollbackRestores(limits: Limits, schema: Schema, calls: seq<Call>, access: Access)
    ensures var t := After(limits, schema, calls); var t' := After(limits, schema, calls + [RollbackCall(access)]);
            && (Rollback(t.state, access).status.Ok? <==> access.ReadWrite? && t.undo.Some?)
            && (Rollback(t.state, access).status.Ok? ==>
                  && t.undo.value < |t.history| && t'.state.current == t.history[t.undo.value]
                  && t'.state.generation == t.state.generation + 1 && t'.undo.None?)
  {
    hide After, SnapshotInv, StreamInv, WriterInv, KeysInv, MigrationInv, HandleInv, CursorInv;
    RunKeepsInvariant(limits, schema, calls);
    AfterOneMore(limits, schema, calls, RollbackCall(access));
  }

  /** A reset succeeds only with allowed entries whose keys differ, and leaves exactly them. */
  lemma ResetInstalls(limits: Limits, s: State, access: Access, entries: seq<Entry>)
    requires Reset(limits, s, access, entries).status.Ok?
    ensures var c := Reset(limits, s, access, entries).state.current;
            && Lists(entries, c.values) && KeysDiffer(entries) && c.blobs == map[] && c.schema == s.current.schema
            && AllAllowed(limits, entries)
  {
    hide Fits, Replacement, EntryAllowed;
    ReplacementMeans(limits, entries);
  }

  /** A committed blob is exactly the bytes that were streamed into it. */
  lemma BlobCommitInstallsItsBytes(limits: Limits, schema: Schema, calls: seq<Call>, h: Handle)
    requires CommitBlob(After(limits, schema, calls).state, h).status.Ok?
    ensures var t := After(limits, schema, calls); var t' := After(limits, schema, calls + [CommitBlobCall(h)]);
            && h in t.state.blobs && h in t.bytes
            && var b := t.state.blobs[h];
            && b.base == t.state.generation < |t.history|
            && t'.state.current == t.history[b.base].(blobs := t.history[b.base].blobs[b.key := t.bytes[h]])
  {
    hide After, SnapshotInv, WriterInv, KeysInv, MigrationInv, HandleInv, UndoInv, CursorInv;
    RunKeepsInvariant(limits, schema, calls);
    AfterOneMore(limits, schema, calls, CommitBlobCall(h));
    var t := After(limits, schema, calls);
    assert Streamed(t, h);
    assert t.state.blobs[h].value[..t.state.blobs[h].written] == t.state.blobs[h].value;
  }

  /** The last writer that ends leaves none that could be out of date. */
  lemma SoleWriter(s: State, h: Handle)
    requires WriterInv(s) && h in Writers(s)
    ensures forall other :: other in Writers(s) ==> other == h
    ensures s.migration.id == ""
  {
    assert s.writerActive;
    var w :| Writers(s) == {w};
    assert h == w;
  }

  lemma NobodyWaits(s: State)
    requires WriterInv(s) && !s.writerActive
    ensures forall h :: !Writable(s, h) && !Streaming(s, h)
  {
    WritersAre(s);
  }

  lemma CommitEnds(limits: Limits, s: State, call: Call)
    requires (call.CommitCall? || call.CommitBlobCall?) && Perform(limits, s, call).state != s
    ensures !Perform(limits, s, call).state.writerActive && (Writable(s, call.handle) || Streaming(s, call.handle))
    ensures Perform(limits, s, call).state.migration == s.migration
  {
  }

  // ---------------------------------------------------------------------
  // A rollback during a migration
  // ---------------------------------------------------------------------

  /** A migration is in progress, its source generation is gone, and there is nothing
      to roll back to. */
  predicate Wedged(s: State) {
    s.migration.id != "" && s.generation > s.migration.sourceGeneration && s.rollback.None?
  }

  /** The rollback at a position of a run succeeds. */
  predicate RollsBack(limits: Limits, schema: Schema, calls: seq<Call>, i: nat) {
    && i < |calls| && calls[i].RollbackCall?
    && Rollback(After(limits, schema, calls[..i]).state, calls[i].access).status.Ok?
  }

  /** It does so while a migration is in progress. */
  predicate RollsBackMigration(limits: Limits, schema: Schema, calls: seq<Call>, i: nat) {
    RollsBack(limits, schema, calls, i) && After(limits, schema, calls[..i]).state.migration.id != ""
  }

  /** A migration in progress can be committed, or the store is wedged. */
  ghost predicate CommittableOrWedged(s: State) {
    s.migration.id != "" ==> s.generation == s.migration.sourceGeneration || Wedged(s)
  }

  lemma WedgeStep(limits: Limits, s: State, call: Call)
    requires WriterInv(s) && CommittableOrWedged(s)
    ensures var s' := Perform(limits, s, call).state;
            && CommittableOrWedged(s')
            && (Wedged(s') <==>
                  Wedged(s) || (call.RollbackCall? && s.migration.id != "" && Rollback(s, call.access).status.Ok?))
  {
    hide Perform, WriterInv, CommittableOrWedged, Wedged;
    if Wedged(s) {
      WedgedStays(limits, s, call);
      WedgedIsEither(Perform(limits, s, call).state);
    } else if s.migration.id != "" {
      MigrationStep(limits, s, call);
    } else {
      NoMigrationStep(limits, s, call);
    }
  }

  lemma WedgedIsEither(s: State)
    requires Wedged(s)
    ensures CommittableOrWedged(s)
  {
  }

  lemma MigrationStep(limits: Limits, s: State, call: Call)
    requires WriterInv(s) && CommittableOrWedged(s) && s.migration.id != "" && !Wedged(s)
    ensures var s' := Perform(limits, s, call).state;
            CommittableOrWedged(s') && (Wedged(s') <==> call.RollbackCall? && Rollback(s, call.access).status.Ok?)
  {
    hide Fits, Replacement, WriterInv, Writers, Entries, WithPrefix;
    WriterExcludesMigration(s);
    NobodyWaits(s);
  }

  lemma NoMigrationStep(limits: Limits, s: State, call: Call)
    requires s.migration.id == ""
    ensures var s' := Perform(limits, s, call).state; CommittableOrWedged(s') && !Wedged(s')
  {
    hide Fits, Replacement, Writers, Entries, WithPrefix;
  }

  lemma {:induction false} EitherSoFar(limits: Limits, schema: Schema, calls: seq<Call>)
    ensures CommittableOrWedged(After(limits, schema, calls).state)
    decreases |calls|
  {
    hide Perform, CommittableOrWedged, SnapshotInv, StreamInv, HistoryInv, KeysInv, MigrationInv, HandleInv, WriterInv, UndoInv, CursorInv;
    if calls == [] {
      NoMigrationAtStart(limits, schema);
    } else {
      var front := calls[..|calls| - 1];
      EitherSoFar(limits, schema, front);
      RunKeepsInvariant(limits, schema, front);
      WedgeStep(limits, After(limits, schema, front).state, calls[|calls| - 1]);
    }
  }

  lemma NoMigrationAtStart(limits: Limits, schema: Schema)
    ensures CommittableOrWedged(After(limits, schema, []).state) && !Wedged(After(limits, schema, []).state)
  {
  }

  /** A store is wedged if and only if some rollback succeeded while a migration was in
      progress. */
  lemma {:induction false} WedgedIff(limits: Limits, schema: Schema, calls: seq<Call>)
    ensures Wedged(After(limits, schema, calls).state) <==> exists i: nat :: RollsBackMigration(limits, schema, calls, i)
    decreases |calls|
  {
    hide After, Perform, Rollback, Wedged, CommittableOrWedged, SnapshotInv, StreamInv, HistoryInv, KeysInv, MigrationInv, HandleInv, WriterInv, UndoInv, CursorInv;
    if calls == [] {
      NoMigrationAtStart(limits, schema);
    } else {
      var front, last := calls[..|calls| - 1], calls[|calls| - 1];
      assert front + [last] == calls;
      WedgedIff(limits, schema, front);
      EitherSoFar(limits, schema, front);
      RunKeepsInvariant(limits, schema, front);
      StateOneMore(limits, schema, front, last, calls);
      WedgeStep(limits, After(limits, schema, front).state, last);
      forall i: nat | i < |front|
        ensures RollsBackMigration(limits, schema, calls, i) <==> RollsBackMigration(limits, schema, front, i)
      {
        assert calls[..i] == front[..i];
      }
      if Wedged(After(limits, schema, calls).state) && !Wedged(After(limits, schema, front).state) {
        assert RollsBackMigration(limits, schema, calls, |front|);
      }
      if i: nat :| RollsBackMigration(limits, schema, calls, i) {
        assert i == |front| || RollsBackMigration(limits, schema, front, i);
      }
    }
  }

  /** So the commit of a migration in progress conflicts exactly in a wedged store. */
  lemma MigrationConflictsIff(limits: Limits, schema: Schema, calls: seq<Call>, h: Handle)
    requires var s := After(limits, schema, calls).state; s.migration.id != "" && h in s.migrations
    ensures CommitMigration(After(limits, schema, calls).state, h).status.Conflict? <==>
            exists i: nat :: RollsBackMigration(limits, schema, calls, i)
  {
    hide After, RollsBackMigration;
    EitherSoFar(limits, schema, calls);
    WedgedIff(limits, schema, calls);
  }

  // ---------------------------------------------------------------------
  // A rollback under an open writer
  // ---------------------------------------------------------------------

  /** A rollback succeeded while the writer was open. */
  ghost predicate Overtaken(limits: Limits, schema: Schema, calls: seq<Call>, h: Handle) {
    exists i: nat :: RollsBack(limits, schema, calls, i) && h in Writers(After(limits, schema, calls[..i]).state)
  }

  function BaseOf(s: State, h: Handle): nat
    requires h in Writers(s)
  {
    if h in s.transactions then s.transactions[h].base else s.blobs[h].base
  }

  /** While a writer is open, only a rollback raises the generation. */
  lemma OpenWriterStep(limits: Limits, s: State, call: Call, h: Handle)
    requires WriterInv(s) && HandleInv(s) && h in Writers(s) && h in Writers(Perform(limits, s, call).state)
    requires s.migrations != {} && s.generation == s.migration.sourceGeneration ==> s.migration.id != ""
    ensures var s' := Perform(limits, s, call).state;
            && BaseOf(s', h) == BaseOf(s, h) && s.generation <= s'.generation
            && (s'.generation != s.generation <==> call.RollbackCall? && Rollback(s, call.access).status.Ok?)
  {
    hide Perform, WriterInv, Writers, HandleInv;
    SoleWriter(s, h);
    WritersAre(s);
    WritersAre(Perform(limits, s, call).state);
    WriterIsActive(s, h);
    if OnTransactions(call) || OnBlobs(call) {
      WriterCallKeepsBase(limits, s, call, h);
    } else {
      OtherCallKeepsBase(limits, s, call, h);
    }
  }

  lemma WriterIsActive(s: State, h: Handle)
    requires WriterInv(s) && h in Writers(s)
    ensures s.writerActive
  {
  }

  lemma WriterCallKeepsBase(limits: Limits, s: State, call: Call, h: Handle)
    requires HandleInv(s) && s.writerActive && (OnTransactions(call) || OnBlobs(call))
    requires Writable(s, h) || Streaming(s, h)
    requires Writable(Perform(limits, s, call).state, h) || Streaming(Perform(limits, s, call).state, h)
    requires forall other :: Writable(s, other) || Streaming(s, other) ==> other == h
    ensures var s' := Perform(limits, s, call).state;
            && s'.generation == s.generation
            && (if h in s'.transactions then s'.transactions[h].base else s'.blobs[h].base) ==
               (if h in s.transactions then s.transactions[h].base else s.blobs[h].base)
  {
    hide Perform;
    if OnTransactions(call) {
      BlobFrame(limits, s, call);
      TransactionKeepsBase(limits, s, call, h);
    } else {
      TransactionFrame(limits, s, call);
      BlobKeepsBase(limits, s, call, h);
    }
  }

  lemma TransactionKeepsBase(limits: Limits, s: State, call: Call, h: Handle)
    requires HandleInv(s) && s.writerActive && OnTransactions(call)
    requires forall other :: Writable(s, other) ==> other == h
    requires Writable(s, h) ==> Writable(Perform(limits, s, call).state, h)
    requires Writable(s, h) || (h in s.blobs && h !in s.transactions)
    ensures var s' := Perform(limits, s, call).state;
            && s'.generation == s.generation && (h in s'.transactions <==> h in s.transactions)
            && (h in s.transactions ==> s'.transactions[h].base == s.transactions[h].base)
  {
    hide Fits;
  }

  lemma BlobKeepsBase(limits: Limits, s: State, call: Call, h: Handle)
    requires s.writerActive && OnBlobs(call)
    requires forall other :: Streaming(s, other) ==> other == h
    requires Streaming(s, h) ==> Streaming(Perform(limits, s, call).state, h)
    ensures var s' := Perform(limits, s, call).state;
            && s'.generation == s.generation
            && (Streaming(s, h) ==> s'.blobs[h].base == s.blobs[h].base)
  {
    hide Fits, Zeros;
  }

  lemma OtherCallKeepsBase(limits: Limits, s: State, call: Call, h: Handle)
    requires s.writerActive && !OnTransactions(call) && !OnBlobs(call) && s.migration.id == ""
    requires s.migrations != {} && s.generation == s.migration.sourceGeneration ==> s.migration.id != ""
    requires Writable(s, h) || Streaming(s, h)
    requires Writable(Perform(limits, s, call).state, h) || Streaming(Perform(limits, s, call).state, h)
    ensures var s' := Perform(limits, s, call).state;
            && s'.transactions == s.transactions && s'.blobs == s.blobs && s.generation <= s'.generation
            && (s'.generation != s.generation <==> call.RollbackCall? && Rollback(s, call.access).status.Ok?)
  {
    hide Fits, Replacement, Entries, WithPrefix, Writers;
  }

  /** A handle that becomes a writer is new, and begins at the current generation. */
  lemma NewWriterStep(limits: Limits, s: State, call: Call, h: Handle)
    requires HandleInv(s) && h !in Writers(s) && h in Writers(Perform(limits, s, call).state)
    ensures h == s.next && BaseOf(Perform(limits, s, call).state, h) == Perform(limits, s, call).state.generation
    ensures !call.RollbackCall?
  {
    hide Perform, Writers, HandleInv;
    WritersAre(s);
    WritersAre(Perform(limits, s, call).state);
    if OnTransactions(call) || OnBlobs(call) {
      NewWriterBegins(limits, s, call, h);
    } else {
      OthersOpenNoWriter(limits, s, call, h);
    }
  }

  lemma NewWriterBegins(limits: Limits, s: State, call: Call, h: Handle)
    requires HandleInv(s) && (OnTransactions(call) || OnBlobs(call)) && !Writable(s, h) && !Streaming(s, h)
    requires var s' := Perform(limits, s, call).state; Writable(s', h) || Streaming(s', h)
    ensures var s' := Perform(limits, s, call).state;
            h == s.next && s'.generation == (if h in s'.transactions then s'.transactions[h].base else s'.blobs[h].base)
  {
    hide Perform;
    if OnTransactions(call) {
      BlobFrame(limits, s, call);
      NewTransaction(limits, s, call, h);
    } else {
      TransactionFrame(limits, s, call);
      NewBlob(limits, s, call, h);
    }
  }

  lemma NewTransaction(limits: Limits, s: State, call: Call, h: Handle)
    requires OnTransactions(call) && !Writable(s, h) && Writable(Perform(limits, s, call).state, h)
    ensures var s' := Perform(limits, s, call).state; h == s.next && s'.generation == s'.transactions[h].base
  {
    hide Fits;
  }

  lemma NewBlob(limits: Limits, s: State, call: Call, h: Handle)
    requires OnBlobs(call) && !Streaming(s, h) && Streaming(Perform(limits, s, call).state, h)
    ensures var s' := Perform(limits, s, call).state; h == s.next && s'.generation == s'.blobs[h].base
  {
    hide Fits, Zeros;
  }

  lemma OthersOpenNoWriter(limits: Limits, s: State, call: Call, h: Handle)
    requires !OnTransactions(call) && !OnBlobs(call) && !Writable(s, h) && !Streaming(s, h)
    ensures var s' := Perform(limits, s, call).state; !Writable(s', h) && !Streaming(s', h)
  {
    hide Fits, Replacement, Entries, WithPrefix, Writers;
  }

  lemma {:induction false} HandlesOnlyGrow(limits: Limits, schema: Schema, calls: seq<Call>, i: nat)
    requires i <= |calls|
    ensures After(limits, schema, calls[..i]).state.next <= After(limits, schema, calls).state.next
    decreases |calls|
  {
    hide After, Perform;
    if i == |calls| {
      assert calls[..i] == calls;
    } else {
      var front := calls[..|calls| - 1];
      assert front[..i] == calls[..i] && front + [calls[|calls| - 1]] == calls;
      HandlesOnlyGrow(limits, schema, front, i);
      StateOneMore(limits, schema, front, calls[|calls| - 1], calls);
      NextGrows(limits, After(limits, schema, front).state, calls[|calls| - 1]);
    }
  }

  lemma NextGrows(limits: Limits, s: State, call: Call)
    ensures s.next <= Perform(limits, s, call).state.next
  {
    hide Fits, Replacement, Entries, WithPrefix, Writers;
  }

  /** An open writer is out of date if and only if a rollback succeeded while it was open. */
  lemma {:induction false} OutOfDateIff(limits: Limits, schema: Schema, calls: seq<Call>, h: Handle)
    requires h in Writers(After(limits, schema, calls).state)
    ensures var s := After(limits, schema, calls).state;
            && BaseOf(s, h) <= s.generation
            && (BaseOf(s, h) != s.generation <==> Overtaken(limits, schema, calls, h))
    decreases |calls|
  {
    hide After, Perform, Writers, BaseOf, RollsBack, SnapshotInv, StreamInv, HistoryInv, KeysInv, HandleInv, WriterInv, UndoInv, CursorInv;
    if calls == [] {
      NoWriterAtStart(limits, schema);
    } else {
      var front, last := calls[..|calls| - 1], calls[|calls| - 1];
      assert front + [last] == calls;
      var s := After(limits, schema, front).state;
      StateOneMore(limits, schema, front, last, calls);
      RunKeepsInvariant(limits, schema, front);
      EarlierRollbacks(limits, schema, calls, h);
      if h in Writers(s) {
        OutOfDateIff(limits, schema, front, h);
        OpenWriterStep(limits, s, last, h);
      } else {
        NewWriterStep(limits, s, last, h);
        NewIsNotOvertaken(limits, schema, front, h);
      }
    }
  }

  lemma NoWriterAtStart(limits: Limits, schema: Schema)
    ensures Writers(After(limits, schema, []).state) == {}
  {
  }

  /** Overtaken so far, or by the last call. */
  lemma EarlierRollbacks(limits: Limits, schema: Schema, calls: seq<Call>, h: Handle)
    requires calls != []
    ensures var front, last := calls[..|calls| - 1], calls[|calls| - 1];
            var s := After(limits, schema, front).state;
            Overtaken(limits, schema, calls, h) <==>
            Overtaken(limits, schema, front, h) ||
            (last.RollbackCall? && Rollback(s, last.access).status.Ok? && h in Writers(s))
  {
    hide After, Writers, Rollback;
    var front, last := calls[..|calls| - 1], calls[|calls| - 1];
    forall i: nat | i < |front|
      ensures calls[..i] == front[..i] && (RollsBack(limits, schema, calls, i) <==> RollsBack(limits, schema, front, i))
    {
      assert calls[..i] == front[..i];
    }
    if i: nat :| RollsBack(limits, schema, calls, i) && h in Writers(After(limits, schema, calls[..i]).state) {
      assert i == |front| || (i < |front| && RollsBack(limits, schema, front, i));
    }
    if i: nat :| RollsBack(limits, schema, front, i) && h in Writers(After(limits, schema, front[..i]).state) {
      assert RollsBack(limits, schema, calls, i);
    }
    if last.RollbackCall? && Rollback(After(limits, schema, front).state, last.access).status.Ok? {
      assert RollsBack(limits, schema, calls, |front|);
    }
  }

  lemma NewIsNotOvertaken(limits: Limits, schema: Schema, calls: seq<Call>, h: Handle)
    requires h == After(limits, schema, calls).state.next
    ensures !Overtaken(limits, schema, calls, h)
  {
    hide After, Rollback, Writers, SnapshotInv, StreamInv, HistoryInv, KeysInv, MigrationInv, WriterInv, UndoInv, CursorInv;
    forall i: nat | i <= |calls|
      ensures h !in Writers(After(limits, schema, calls[..i]).state)
    {
      HandlesOnlyGrow(limits, schema, calls, i);
      RunKeepsInvariant(limits, schema, calls[..i]);
      WritersAre(After(limits, schema, calls[..i]).state);
    }
  }

  /** The commit of an open transaction, or of a complete blob, conflicts if and only if a
      rollback succeeded while it was open. */
  lemma CommitConflictsIff(limits: Limits, schema: Schema, calls: seq<Call>, h: Handle)
    ensures var s := After(limits, schema, calls).state;
            && (Writable(s, h) ==> (Commit(s, h).status.Conflict? <==> Overtaken(limits, schema, calls, h)))
            && (Streaming(s, h) && s.blobs[h].written == |s.blobs[h].value| ==>
                  (CommitBlob(s, h).status.Conflict? <==> Overtaken(limits, schema, calls, h)))
  {
    hide After, Overtaken, Writers, SnapshotInv, StreamInv, HistoryInv, KeysInv, MigrationInv, WriterInv, UndoInv, CursorInv;
    var s := After(limits, schema, calls).state;
    WritersAre(s);
    RunKeepsInvariant(limits, schema, calls);
    if h in Writers(s) {
      OutOfDateIff(limits, schema, calls, h);
    }
  }

  predicate NoRollback(calls: seq<Call>) {
    forall i :: 0 <= i < |calls| ==> !calls[i].RollbackCall?
  }

  /** Without rollbacks no commit of a transaction, of a blob or of a migration in
      progress ever conflicts: the writer flag and the migration exclude each other. */
  lemma OnlyRollbackConflicts(limits: Limits, schema: Schema, calls: seq<Call>, h: Handle)
    requires NoRollback(calls)
    ensures var s := After(limits, schema, calls).state;
            && !Commit(s, h).status.Conflict? && !CommitBlob(s, h).status.Conflict?
            && (s.migration.id != "" ==> !CommitMigration(s, h).status.Conflict?)
  {
    hide After, Commit, CommitBlob, CommitMigration;
    var s := After(limits, schema, calls).state;
    CommitConflictsIff(limits, schema, calls, h);
    CommitNeedsWriter(s, h);
    if s.migration.id != "" && h in s.migrations {
      MigrationConflictsIff(limits, schema, calls, h);
    }
  }

  lemma CommitNeedsWriter(s: State, h: Handle)
    ensures Commit(s, h).status.Conflict? ==> Writable(s, h)
    ensures CommitBlob(s, h).status.Conflict? ==> Streaming(s, h) && s.blobs[h].written == |s.blobs[h].value|
    ensures CommitMigration(s, h).status.Conflict? ==> h in s.migrations
  {
  }

  lemma WedgedStays(limits: Limits, s: State, call: Call)
    requires Wedged(s) && WriterInv(s)
    ensures var s' := Perform(limits, s, call).state;
            Wedged(s') && s'.current == s.current && s'.generation == s.generation
  {
    hide Fits, Replacement, WriterInv, Writers;
    WriterExcludesMigration(s);
    NobodyWaits(s);
  }

  /** From then on nothing changes the store: whatever is called, every commit, reset,
      rollback and migration commit fails, and every new writer is refused. */
  lemma {:induction false} WedgedForever(limits: Limits, schema: Schema, calls: seq<Call>, more: seq<Call>)
    requires Wedged(After(limits, schema, calls).state)
    ensures var s, s' := After(limits, schema, calls).state, After(limits, schema, calls + more).state;
            Wedged(s') && s'.current == s.current && s'.generation == s.generation
    decreases |more|
  {
    hide After, Wedged, Perform, SnapshotInv, StreamInv, HistoryInv, KeysInv, MigrationInv, HandleInv, WriterInv, UndoInv, CursorInv;
    if more == [] {
      assert calls + more == calls;
    } else {
      var before, last := more[..|more| - 1], more[|more| - 1];
      WedgedForever(limits, schema, calls, before);
      RunKeepsInvariant(limits, schema, calls + before);
      AfterOneMore(limits, schema, calls + before, last);
      WedgedStays(limits, After(limits, schema, calls + before).state, last);
      assert calls + before + [last] == calls + more;
    }
  }

  /** Calls that change any store which is not wedged: drop every handle, then reset the
      store, or resume the migration in progress and commit it. */
  function Rescue(s: State): seq<Call> {
    if s.migration.id == "" then [StopCall, ResetCall(ReadWrite, [])]
    else
      [StopCall, BeginMigrationCall(ReadWrite, s.migration.id, s.migration.source, s.migration.target, |s.migration.checkpoint|),
       CommitMigrationCall(s.next)]
  }

  lemma StopFrees(s: State)
    requires WriterInv(s) && (s.migration.handleActive ==> s.migrations != {})
    ensures var s' := Stop(s).state;
            && !s'.writerActive && !s'.migration.handleActive && s'.generation == s.generation && s'.next == s.next
            && s'.migration == s.migration.(handleActive := false)
  {
    assert s.writerActive ==> Writers(s) != {};
  }

  lemma ResetChanges(limits: Limits, s: State)
    requires !s.writerActive && s.migration.id == ""
    ensures Reset(limits, s, ReadWrite, []).state.generation == s.generation + 1
  {
    assert Entries(map[]) == [];
  }

  lemma ResumeAndCommitChanges(s: State, room: nat)
    requires !s.writerActive && !s.migration.handleActive && s.migration.id != "" && room == |s.migration.checkpoint|
    requires s.migration.target.id != "" && s.migration.target.version != 0 && s.generation == s.migration.sourceGeneration
    ensures var begun := BeginMigration(s, ReadWrite, s.migration.id, s.migration.source, s.migration.target, room).state;
            CommitMigration(begun, s.next).state.generation == s.generation + 1
  {
  }

  lemma RescueChanges(limits: Limits, schema: Schema, calls: seq<Call>)
    requires !Wedged(After(limits, schema, calls).state)
    ensures var s := After(limits, schema, calls).state;
            After(limits, schema, calls + Rescue(s)).state.generation == s.generation + 1
  {
    hide After, Stop, Reset, BeginMigration, CommitMigration, SnapshotInv, StreamInv, HistoryInv, KeysInv, HandleInv, WriterInv, UndoInv, CursorInv;
    var s := After(limits, schema, calls).state;
    RunKeepsInvariant(limits, schema, calls);
    EitherSoFar(limits, schema, calls);
    StopFrees(s);
    var stopped := Stop(s).state;
    StateOneMore(limits, schema, calls, StopCall, calls + [StopCall]);
    if s.migration.id == "" {
      ResetChanges(limits, stopped);
      StateOneMore(limits, schema, calls + [StopCall], ResetCall(ReadWrite, []), calls + Rescue(s));
    } else {
      var begin := BeginMigrationCall(ReadWrite, s.migration.id, s.migration.source, s.migration.target, |s.migration.checkpoint|);
      ResumeAndCommitChanges(stopped, |s.migration.checkpoint|);
      StateOneMore(limits, schema, calls + [StopCall], begin, calls + [StopCall, begin]);
      StateOneMore(limits, schema, calls + [StopCall, begin], CommitMigrationCall(s.next), calls + Rescue(s));
    }
  }

  /** No sequence of calls ever changes a store again if and only if it is wedged. */
  lemma FrozenIffWedged(limits: Limits, schema: Schema, calls: seq<Call>)
    ensures (forall more :: After(limits, schema, calls + more).state.generation == After(limits, schema, calls).state.generation) <==>
            Wedged(After(limits, schema, calls).state)
  {
    hide After, Wedged;
    if Wedged(After(limits, schema, calls).state) {
      forall more ensures After(limits, schema, calls + more).state.generation == After(limits, schema, calls).state.generation {
        WedgedForever(limits, schema, calls, more);
      }
    } else {
      RescueChanges(limits, schema, calls);
    }
  }

  lemma WedgedRefusesWriters(limits: Limits, s: State, access: Access, expected: Option<nat>)
    requires Wedged(s)
    ensures !Begin(limits, s, access, true, expected).status.Ok?
    ensures forall key, size :: !BeginBlobReplace(limits, s, access, key, size).status.Ok?
    ensures forall entries :: !Reset(limits, s, access, entries).status.Ok?
    ensures forall h :: !CommitMigration(s, h).status.Ok?
    ensures !Rollback(s, access).status.Ok?
  {
    hide Fits, Replacement;
  }

  lemma StateOneMore(limits: Limits, schema: Schema, calls: seq<Call>, call: Call, more: seq<Call>)
    requires more == calls + [call]
    ensures After(limits, schema, more).state == Perform(limits, After(limits, schema, calls).state, call).state
  {
    hide Perform;
    AfterOneMore(limits, schema, calls, call);
  }

  const FIRST := BeginMigrationCall(ReadWrite, "a", Schema("s", 1), Schema("s", 2), 4096)
  const SECOND := BeginMigrationCall(ReadWrite, "b", Schema("s", 2), Schema("s", 3), 4096)

  /** Four calls that wedge a store: migrate, start another migration, roll back. */
  lemma WedgeIsReachable(limits: Limits)
    ensures Wedged(After(limits, Schema("s", 1), [FIRST, CommitMigrationCall(1), SECOND, RollbackCall(ReadWrite)]).state)
  {
    hide After;
    var schema := Schema("s", 1);
    var empty: Values := map[];
    StateOneMore(limits, schema, [], FIRST, [FIRST]);
    StateOneMore(limits, schema, [FIRST], CommitMigrationCall(1), [FIRST, CommitMigrationCall(1)]);
    StateOneMore(limits, schema, [FIRST, CommitMigrationCall(1)], SECOND, [FIRST, CommitMigrationCall(1), SECOND]);
    StateOneMore(limits, schema, [FIRST, CommitMigrationCall(1), SECOND], RollbackCall(ReadWrite),
                 [FIRST, CommitMigrationCall(1), SECOND, RollbackCall(ReadWrite)]);
    StartState(limits, schema);
    var one := Perform(limits, Opened(schema), FIRST).state;
    assert one.migration.id == "a" && 1 in one.migrations && one.generation == 0;
    var two := Perform(limits, one, CommitMigrationCall(1)).state;
    assert two.rollback.Some? && two.current.schema == Schema("s", 2) && two.migration.id == "" && two.generation == 1;
    var three := Perform(limits, two, SECOND).state;
    assert three.migration.id == "b" && three.rollback.Some? && three.migration.sourceGeneration == 1 == three.generation;
  }

  lemma StartState(limits: Limits, schema: Schema)
    ensures After(limits, schema, []).state == Opened(schema)
  {
  }
}
