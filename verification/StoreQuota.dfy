/** The quotas of a store: its values and blobs together never exceed them. */
module StoreQuota {
  import opened Wrappers
  import opened Bytes
  import opened KeyOrder
  import opened Store
  import opened StoreHistory
  import opened StoreTheorems

  // ---------------------------------------------------------------------
  // Sizes
  // ---------------------------------------------------------------------

  lemma {:induction false} SizeOfFirst(first: Entry, rest: seq<Entry>)
    ensures SizeOf([first] + rest) == |first.key| + |first.value| + SizeOf(rest)
    decreases |rest|
  {
    var all := [first] + rest;
    if rest == [] {
      assert all[..0] == [];
    } else {
      SizeOfFirst(first, rest[..|rest| - 1]);
      assert all[..|all| - 1] == [first] + rest[..|rest| - 1];
    }
  }

  lemma SizeWithoutLeast(values: Values)
    requires values != map[]
    ensures var least := Least(values.Keys);
            least in values && |values - {least}| < |values| &&
            Size(values) == |least| + |values[least]| + Size(values - {least})
  {
    hide SizeOf, Less;
    var least := Least(values.Keys);
    assert least in values.Keys;
    RemoveOne(values, least);
    SizeOfFirst(Entry(least, values[least]), Entries(values - {least}));
  }

  /** The size of a map is the size of any one entry and of the others. */
  lemma {:induction false} SizeWithout(values: Values, key: Key)
    requires key in values
    ensures Size(values) == |key| + |values[key]| + Size(values - {key})
    decreases |values|
  {
    hide Size, Less;
    SizeWithoutLeast(values);
    var least := Least(values.Keys);
    if key != least {
      var fewer := values - {key};
      SizeWithout(values - {least}, key);
      LeastStays(values, key);
      SizeWithoutLeast(fewer);
      assert values - {least} - {key} == fewer - {least};
    }
  }

  lemma LeastStays(values: Values, key: Key)
    requires key in values && key != Least(values.Keys)
    ensures values - {key} != map[] && Least((values - {key}).Keys) == Least(values.Keys)
  {
    hide Less;
    var least := Least(values.Keys);
    assert least in values - {key};
    assert (values - {key}).Keys <= values.Keys;
    assert IsLeast(least, (values - {key}).Keys);
    LeastIsUnique(least, Least((values - {key}).Keys), (values - {key}).Keys);
  }

  lemma SizeWith(values: Values, key: Key, value: seq<Byte>)
    ensures Size(values[key := value]) == |key| + |value| + Size(values - {key})
    ensures |values[key := value]| == 1 + |values - {key}|
  {
    hide Size;
    var after := values[key := value];
    SizeWithout(after, key);
    assert after - {key} == values - {key};
    assert after == (values - {key})[key := value];
  }

  /** Erasing never breaks a quota. */
  lemma EraseFits(limits: Limits, values: Values, key: Key, others: Values)
    requires Fits(limits, values, others)
    ensures Fits(limits, values - {key}, others)
  {
    hide Size;
    if key in values {
      SizeWithout(values, key);
      RemoveOne(values, key);
    } else {
      assert values - {key} == values;
    }
  }

  /** A quota depends on the length of a value alone. */
  lemma SameLengthFits(limits: Limits, values: Values, key: Key, a: seq<Byte>, b: seq<Byte>, others: Values)
    requires Fits(limits, values[key := a], others) && |a| == |b|
    ensures Fits(limits, values[key := b], others)
  {
    hide Size;
    SizeWith(values, key, a);
    SizeWith(values, key, b);
  }

  lemma FitsEitherWay(limits: Limits, a: Values, b: Values)
    ensures Fits(limits, a, b) <==> Fits(limits, b, a)
  {
    hide Size;
  }

  // ---------------------------------------------------------------------
  // Every state
  // ---------------------------------------------------------------------

  /** The contents fit, and so do the contents that an unfinished writer would install. */
  ghost predicate QuotaInv(limits: Limits, s: State) {
    && Fits(limits, s.current.values, s.current.blobs)
    && (forall h <- s.transactions :: Writable(s, h) ==> Fits(limits, s.transactions[h].values, s.current.blobs))
    && (forall h <- s.blobs :: Streaming(s, h) ==>
          Fits(limits, s.current.blobs[s.blobs[h].key := s.blobs[h].value], s.current.values))
  }

  lemma CommitsKeepQuota(limits: Limits, s: State, call: Call)
    requires QuotaInv(limits, s) && WriterInv(s) && HandleInv(s) && (call.CommitCall? || call.CommitBlobCall?)
    ensures QuotaInv(limits, Perform(limits, s, call).state)
  {
    hide Fits, WriterInv, Perform, Writable, Streaming;
    var s' := Perform(limits, s, call).state;
    if s' != s {
      WriterKept(limits, s, call);
      CommitEnds(limits, s, call);
      NobodyWaits(s');
      CommittedFits(limits, s, call);
    }
  }

  lemma CommittedFits(limits: Limits, s: State, call: Call)
    requires QuotaInv(limits, s) && (call.CommitCall? || call.CommitBlobCall?)
    ensures var c := Perform(limits, s, call).state.current; Fits(limits, c.values, c.blobs)
  {
    hide Fits;
    var c := Perform(limits, s, call).state.current;
    FitsEitherWay(limits, c.blobs, c.values);
  }

  lemma ResetKeepsQuota(limits: Limits, s: State, call: Call)
    requires QuotaInv(limits, s) && WriterInv(s) && HandleInv(s) && call.ResetCall?
    ensures QuotaInv(limits, Perform(limits, s, call).state)
  {
    hide Fits, WriterInv, Replacement;
    var s' := Perform(limits, s, call).state;
    if s' != s {
      WriterKept(limits, s, call);
      NobodyWaits(s');
    }
  }

  lemma EditsKeepQuota(limits: Limits, s: State, call: Call)
    requires QuotaInv(limits, s) && HandleInv(s) && (call.PutCall? || call.EraseCall? || call.WriteBlobCall?)
    ensures QuotaInv(limits, Perform(limits, s, call).state)
  {
    hide Fits;
    if call.EraseCall? && Writable(s, call.handle) {
      EraseFits(limits, s.transactions[call.handle].values, call.key, s.current.blobs);
    } else if call.WriteBlobCall? && WriteBlob(s, call.handle, call.offset, call.input).status.Ok? {
      var b, b' := s.blobs[call.handle], Perform(limits, s, call).state.blobs[call.handle];
      SameLengthFits(limits, s.current.blobs, b.key, b.value, b'.value, s.current.values);
    }
  }

  lemma OthersKeepQuota(limits: Limits, s: State, call: Call)
    requires QuotaInv(limits, s) && HandleInv(s)
    requires !(call.CommitCall? || call.CommitBlobCall? || call.ResetCall? || call.PutCall? || call.EraseCall? ||
               call.WriteBlobCall? || call.CommitMigrationCall? || call.RollbackCall?)
    ensures QuotaInv(limits, Perform(limits, s, call).state)
  {
    hide QuotaInv, HandleInv, Perform;
    if OnCursors(call) {
      CursorFrame(limits, s, call);
      SameWritersSameQuota(limits, s, Perform(limits, s, call).state);
    } else if OnMigrations(call) {
      MigrationFrame(limits, s, call);
      SameWritersSameQuota(limits, s, Perform(limits, s, call).state);
    } else {
      OpeningsKeepQuota(limits, s, call);
    }
  }

  lemma SameWritersSameQuota(limits: Limits, s: State, s': State)
    requires QuotaInv(limits, s) && s'.current == s.current && s'.transactions == s.transactions && s'.blobs == s.blobs
    ensures QuotaInv(limits, s')
  {
    hide Fits;
  }

  lemma OpeningsKeepQuota(limits: Limits, s: State, call: Call)
    requires QuotaInv(limits, s) && HandleInv(s) && !OnCursors(call) && !OnMigrations(call)
    requires !(call.CommitCall? || call.CommitBlobCall? || call.ResetCall? || call.PutCall? || call.EraseCall? ||
               call.WriteBlobCall? || call.RollbackCall?)
    ensures QuotaInv(limits, Perform(limits, s, call).state)
  {
    hide Fits, Writers, Zeros;
  }

  lemma CallKeepsQuota(limits: Limits, s: State, call: Call)
    requires QuotaInv(limits, s) && WriterInv(s) && HandleInv(s) && s.rollback.None? && !call.CommitMigrationCall?
    ensures QuotaInv(limits, Perform(limits, s, call).state) && Perform(limits, s, call).state.rollback.None?
  {
    hide QuotaInv, WriterInv, HandleInv, Perform;
    NothingToRollBack(limits, s, call);
    match call
    case CommitCall(_) => CommitsKeepQuota(limits, s, call);
    case CommitBlobCall(_) => CommitsKeepQuota(limits, s, call);
    case ResetCall(_, _) => ResetKeepsQuota(limits, s, call);
    case PutCall(_, _, _) => EditsKeepQuota(limits, s, call);
    case EraseCall(_, _) => EditsKeepQuota(limits, s, call);
    case WriteBlobCall(_, _, _) => EditsKeepQuota(limits, s, call);
    case RollbackCall(_) =>
    case _ => OthersKeepQuota(limits, s, call);
  }

  lemma NothingToRollBack(limits: Limits, s: State, call: Call)
    requires s.rollback.None? && !call.CommitMigrationCall?
    ensures Perform(limits, s, call).state.rollback.None?
    ensures call.RollbackCall? ==> Perform(limits, s, call).state == s
  {
    hide Fits, Replacement, Writers;
  }

  /** Until a migration is committed, values and blobs together stay within the store's
      number of entries and its capacity, whatever is called. */
  lemma {:induction false} QuotaHolds(limits: Limits, schema: Schema, calls: seq<Call>)
    requires forall i :: 0 <= i < |calls| ==> !calls[i].CommitMigrationCall?
    ensures var s := After(limits, schema, calls).state;
            && QuotaInv(limits, s) && s.rollback.None? && Fits(limits, s.current.values, s.current.blobs)
            && |s.current.values| + |s.current.blobs| <= limits.maxEntries
            && Size(s.current.values) + Size(s.current.blobs) <= limits.capacity
    decreases |calls|
  {
    hide Fits, Perform, WriterInv, HandleInv, SnapshotInv, StreamInv, HistoryInv, KeysInv, MigrationInv, UndoInv, CursorInv;
    if calls == [] {
      EmptyFits(limits);
    } else {
      var front := calls[..|calls| - 1];
      QuotaHolds(limits, schema, front);
      RunKeepsInvariant(limits, schema, front);
      CallKeepsQuota(limits, After(limits, schema, front).state, calls[|calls| - 1]);
    }
    FitsMeans(limits, After(limits, schema, calls).state.current);
  }

  lemma FitsMeans(limits: Limits, contents: Contents)
    ensures Fits(limits, contents.values, contents.blobs) <==>
            && |contents.values| + |contents.blobs| <= limits.maxEntries
            && Size(contents.values) + Size(contents.blobs) <= limits.capacity
  {
  }

  lemma EmptyFits(limits: Limits)
    ensures Fits(limits, map[], map[])
  {
    assert Entries(map[]) == [];
  }
}
