/** What access, expected generations and size limits guarantee over every run. */
module StoreAccess {
  import opened Wrappers
  import opened Bytes
  import opened KeyOrder
  import opened Store
  import opened StoreHistory
  import opened StoreTheorems

  /** Exactly when a transaction may begin. */
  lemma BeginOkIff(limits: Limits, s: State, access: Access, write: bool, expected: Option<nat>)
    ensures Begin(limits, s, access, write, expected).status.Ok? <==>
            && (access.ReadOnly? || access.ReadWrite?) && |s.transactions| < limits.maxTransactions
            && (write ==>
                  && access.ReadWrite? && !s.writerActive && s.migration.id == ""
                  && (expected.Some? ==> expected.value == s.generation))
    ensures Begin(limits, s, access, write, expected).status.Conflict? ==>
            write && expected.Some? && expected.value != s.generation
  {
  }

  /** A writer that begins with an expected generation begins with the values of that
      generation, over every run. */
  lemma ExpectedGeneration(limits: Limits, schema: Schema, calls: seq<Call>, access: Access, expected: nat)
    requires Begin(limits, After(limits, schema, calls).state, access, true, Some(expected)).status.Ok?
    ensures var t := After(limits, schema, calls); var s' := Begin(limits, t.state, access, true, Some(expected)).state;
            && expected < |t.history| && t.state.next in s'.transactions && s'.transactions[t.state.next].write
            && s'.transactions[t.state.next].base == expected
            && s'.transactions[t.state.next].values == t.history[expected].values
  {
    hide After, SnapshotInv, StreamInv, WriterInv, KeysInv, MigrationInv, HandleInv, UndoInv, CursorInv;
    RunKeepsInvariant(limits, schema, calls);
  }

  // ---------------------------------------------------------------------
  // Without write access
  // ---------------------------------------------------------------------

  /** The call is not made on a store handle that was opened for writing. */
  predicate WithoutWriteAccess(call: Call) {
    match call
    case BeginCall(access, _, _) => !access.ReadWrite?
    case OpenBlobReadCall(access, _) => !access.ReadWrite?
    case BeginBlobReplaceCall(access, _, _) => !access.ReadWrite?
    case ResetCall(access, _) => !access.ReadWrite?
    case RollbackCall(access) => !access.ReadWrite?
    case BeginMigrationCall(access, _, _, _, _) => !access.ReadWrite?
    case _ => true
  }

  /** Nobody has anything open with which the store could be changed. */
  ghost predicate NothingOpenForWriting(s: State) {
    (forall h :: !Writable(s, h) && !Streaming(s, h)) && s.migrations == {}
  }

  lemma ReadersChangeNothing(limits: Limits, s: State, call: Call)
    requires NothingOpenForWriting(s) && WithoutWriteAccess(call)
    ensures var s' := Perform(limits, s, call).state;
            NothingOpenForWriting(s') && s'.current == s.current && s'.generation == s.generation
  {
    hide Fits, Replacement, Writers, Entries, WithPrefix, Zeros, Perform;
    if OnTransactions(call) {
      TransactionsChangeNothing(limits, s, call);
    } else if OnBlobs(call) {
      BlobsChangeNothing(limits, s, call);
    } else {
      OthersChangeNothing(limits, s, call);
    }
  }

  lemma TransactionsChangeNothing(limits: Limits, s: State, call: Call)
    requires NothingOpenForWriting(s) && WithoutWriteAccess(call) && OnTransactions(call)
    ensures var s' := Perform(limits, s, call).state;
            NothingOpenForWriting(s') && s'.current == s.current && s'.generation == s.generation
  {
    hide Fits;
    var s' := Perform(limits, s, call).state;
    if call.BeginCall? || call.AbortCall? || call.CloseTransactionCall? {
      assert s'.blobs == s.blobs && s'.migrations == s.migrations;
      forall h ensures !Writable(s', h) && !Streaming(s', h) {
        assert !Writable(s, h) && !Streaming(s, h);
      }
    } else {
      assert !Writable(s, call.handle);
      assert s' == s;
    }
  }

  lemma BlobsChangeNothing(limits: Limits, s: State, call: Call)
    requires NothingOpenForWriting(s) && WithoutWriteAccess(call) && OnBlobs(call)
    ensures var s' := Perform(limits, s, call).state;
            NothingOpenForWriting(s') && s'.current == s.current && s'.generation == s.generation
  {
    hide Fits, Zeros;
    var s' := Perform(limits, s, call).state;
    assert s'.transactions == s.transactions && s'.migrations == s.migrations;
    forall h ensures !Writable(s', h) && !Streaming(s', h) {
      assert !Writable(s, h) && !Streaming(s, h);
    }
  }

  lemma OthersChangeNothing(limits: Limits, s: State, call: Call)
    requires NothingOpenForWriting(s) && WithoutWriteAccess(call) && !OnTransactions(call) && !OnBlobs(call)
    ensures var s' := Perform(limits, s, call).state;
            NothingOpenForWriting(s') && s'.current == s.current && s'.generation == s.generation
  {
    hide Fits, Replacement, Writers, Entries, WithPrefix, Less;
    var s' := Perform(limits, s, call).state;
    forall h ensures !Writable(s', h) && !Streaming(s', h) {
      assert !Writable(s, h) && !Streaming(s, h);
    }
  }

  /** From any point of any run at which nothing is open for writing, no number of calls
      without write access changes the store. */
  lemma {:induction false} ReadersNeverChange(limits: Limits, schema: Schema, calls: seq<Call>, more: seq<Call>)
    requires NothingOpenForWriting(After(limits, schema, calls).state)
    requires forall i :: 0 <= i < |more| ==> WithoutWriteAccess(more[i])
    ensures NothingOpenForWriting(After(limits, schema, calls + more).state)
    ensures After(limits, schema, calls + more).state.current == After(limits, schema, calls).state.current
    ensures After(limits, schema, calls + more).state.generation == After(limits, schema, calls).state.generation
    decreases |more|
  {
    hide After, NothingOpenForWriting, Perform, WithoutWriteAccess;
    if more == [] {
      assert calls + more == calls;
    } else {
      var before, call := more[..|more| - 1], more[|more| - 1];
      ReadersNeverChange(limits, schema, calls, before);
      ReadersChangeNothing(limits, After(limits, schema, calls + before).state, call);
      AfterOneMore(limits, schema, calls + before, call);
      assert calls + before + [call] == calls + more;
    }
  }

  // ---------------------------------------------------------------------
  // Size limits
  // ---------------------------------------------------------------------

  ghost predicate Within(values: Values, key: nat, value: nat) {
    forall k <- values :: k != [] && |k| <= key && |values[k]| <= value
  }

  ghost predicate ContentsWithin(limits: Limits, contents: Contents) {
    Within(contents.values, limits.maxKey, limits.maxValue) && Within(contents.blobs, limits.maxKey, limits.maxBlob)
  }

  ghost predicate StagedWithin(limits: Limits, s: State) {
    && (forall h <- s.transactions :: Within(s.transactions[h].values, limits.maxKey, limits.maxValue))
    && (forall h <- s.blobs :: s.blobs[h].write ==>
          s.blobs[h].key != [] && |s.blobs[h].key| <= limits.maxKey && |s.blobs[h].value| <= limits.maxBlob)
    && Within(s.migration.values, limits.maxKey, limits.maxValue)
  }

  /** Everything stored, staged or kept for a rollback is within the size limits. */
  ghost predicate SizesHold(limits: Limits, s: State) {
    && ContentsWithin(limits, s.current) && StagedWithin(limits, s)
    && (s.rollback.Some? ==> ContentsWithin(limits, s.rollback.value))
  }

  lemma TransactionSizes(limits: Limits, s: State, call: Call)
    requires SizesHold(limits, s) && OnTransactions(call)
    ensures SizesHold(limits, Perform(limits, s, call).state)
  {
    hide Perform, SizesHold;
    if call.PutCall? || call.EraseCall? {
      EditSizes(limits, s, call);
    } else {
      TransactionHandleSizes(limits, s, call);
    }
  }

  lemma EditSizes(limits: Limits, s: State, call: Call)
    requires SizesHold(limits, s) && (call.PutCall? || call.EraseCall?)
    ensures SizesHold(limits, Perform(limits, s, call).state)
  {
    hide Fits, Within, ContentsWithin;
    if Writable(s, call.handle) {
      var values := s.transactions[call.handle].values;
      if call.EraseCall? {
        WithinErase(values, call.key, limits.maxKey, limits.maxValue);
      } else if call.key != [] && |call.key| <= limits.maxKey && |call.value| <= limits.maxValue {
        WithinPut(values, call.key, call.value, limits.maxKey, limits.maxValue);
      }
    }
  }

  lemma TransactionHandleSizes(limits: Limits, s: State, call: Call)
    requires SizesHold(limits, s) && OnTransactions(call) && !call.PutCall? && !call.EraseCall?
    ensures SizesHold(limits, Perform(limits, s, call).state)
  {
    hide Within;
  }

  lemma WithinPut(values: Values, k: Key, v: seq<Byte>, key: nat, value: nat)
    requires Within(values, key, value) && k != [] && |k| <= key && |v| <= value
    ensures Within(values[k := v], key, value)
  {
  }

  lemma WithinErase(values: Values, k: Key, key: nat, value: nat)
    requires Within(values, key, value)
    ensures Within(values - {k}, key, value)
  {
  }

  lemma BlobSizes(limits: Limits, s: State, call: Call)
    requires SizesHold(limits, s) && OnBlobs(call)
    ensures SizesHold(limits, Perform(limits, s, call).state)
  {
    hide Perform, SizesHold;
    if call.WriteBlobCall? || call.CommitBlobCall? {
      StreamSizes(limits, s, call);
    } else {
      BlobHandleSizes(limits, s, call);
    }
  }

  lemma StreamSizes(limits: Limits, s: State, call: Call)
    requires SizesHold(limits, s) && (call.WriteBlobCall? || call.CommitBlobCall?)
    ensures SizesHold(limits, Perform(limits, s, call).state)
  {
    hide Within;
    if call.CommitBlobCall? && Streaming(s, call.handle) {
      var blob := s.blobs[call.handle];
      WithinPut(s.current.blobs, blob.key, blob.value, limits.maxKey, limits.maxBlob);
    }
  }

  lemma BlobHandleSizes(limits: Limits, s: State, call: Call)
    requires SizesHold(limits, s) && OnBlobs(call) && !call.WriteBlobCall? && !call.CommitBlobCall?
    ensures SizesHold(limits, Perform(limits, s, call).state)
  {
    hide Fits, Within, Zeros;
    if call.BeginBlobReplaceCall? {
      ZerosLength(call.size);
    }
  }

  lemma ZerosLength(size: nat)
    ensures |Zeros(size)| == size
  {
  }

  lemma MigrationSizes(limits: Limits, s: State, call: Call)
    requires SizesHold(limits, s) && OnMigrations(call)
    ensures SizesHold(limits, Perform(limits, s, call).state)
  {
    hide Perform, SizesHold;
    if call.ApplyMigrationCall? {
      ApplySizes(limits, s, call);
    } else if call.CommitMigrationCall? {
      CommitMigrationSizes(limits, s, call);
    } else {
      MigrationHandleSizes(limits, s, call);
    }
  }

  lemma ApplySizes(limits: Limits, s: State, call: Call)
    requires SizesHold(limits, s) && call.ApplyMigrationCall?
    ensures SizesHold(limits, Perform(limits, s, call).state)
  {
    hide Fits, Less, Within, ContentsWithin;
    if call.entry.Some? && EntryAllowed(limits, call.entry.value) {
      WithinPut(s.migration.values, call.entry.value.key, call.entry.value.value, limits.maxKey, limits.maxValue);
    }
  }

  lemma MigrationHandleSizes(limits: Limits, s: State, call: Call)
    requires SizesHold(limits, s) && OnMigrations(call) && !call.ApplyMigrationCall? && !call.CommitMigrationCall?
    ensures SizesHold(limits, Perform(limits, s, call).state)
  {
    hide Within, ContentsWithin;
    EmptyIsWithin(limits.maxKey, limits.maxValue);
  }

  lemma CommitMigrationSizes(limits: Limits, s: State, call: Call)
    requires SizesHold(limits, s) && call.CommitMigrationCall?
    ensures SizesHold(limits, Perform(limits, s, call).state)
  {
    hide Within;
    EmptyIsWithin(limits.maxKey, limits.maxValue);
  }

  lemma OtherSizes(limits: Limits, s: State, call: Call)
    requires SizesHold(limits, s) && !OnTransactions(call) && !OnBlobs(call) && !OnMigrations(call)
    ensures SizesHold(limits, Perform(limits, s, call).state)
  {
    hide Fits, Replacement, Writers, Entries, WithPrefix, Within;
    EmptyIsWithin(limits.maxKey, limits.maxBlob);
    if call.ResetCall? {
      ReplacementIsWithin(limits, call.entries);
    }
  }

  lemma EmptyIsWithin(key: nat, value: nat)
    ensures Within(map[], key, value)
  {
  }

  lemma {:induction false} ReplacementIsWithin(limits: Limits, entries: seq<Entry>)
    ensures Replacement(limits, entries).Some? ==> Within(Replacement(limits, entries).value, limits.maxKey, limits.maxValue)
  {
    if entries != [] {
      ReplacementIsWithin(limits, entries[..|entries| - 1]);
    }
  }

  /** Over every run, no key, value or blob beyond its limit is ever stored. */
  lemma {:induction false} SizeLimitsHold(limits: Limits, schema: Schema, calls: seq<Call>)
    ensures SizesHold(limits, After(limits, schema, calls).state)
    decreases |calls|
  {
    hide SizesHold, Perform, EditsAfter, BytesAfter, OpenedAfter, UndoAfter;
    if calls == [] {
      StartSizes(limits, schema);
    } else {
      SizeLimitsHold(limits, schema, calls[..|calls| - 1]);
      var s, call := After(limits, schema, calls[..|calls| - 1]).state, calls[|calls| - 1];
      if OnTransactions(call) {
        TransactionSizes(limits, s, call);
      } else if OnBlobs(call) {
        BlobSizes(limits, s, call);
      } else if OnMigrations(call) {
        MigrationSizes(limits, s, call);
      } else {
        OtherSizes(limits, s, call);
      }
    }
  }

  lemma StartSizes(limits: Limits, schema: Schema)
    ensures SizesHold(limits, Start(schema).state)
  {
  }
}
