/** The serial history of a store: what every run of provider calls keeps. */
module StoreHistory {
  import opened Wrappers
  import opened Bytes
  import opened KeyOrder
  import opened Store

  /** What a writer did to its values. */
  datatype Edit = Putting(key: Key, value: seq<Byte>) | Erasing(key: Key)

  function Edited(values: Values, edit: Edit): Values {
    if edit.Putting? then values[edit.key := edit.value] else values - {edit.key}
  }

  function Applied(values: Values, edits: seq<Edit>): Values {
    if edits == [] then values else Edited(Applied(values, edits[..|edits| - 1]), edits[|edits| - 1])
  }

  lemma AppliedOneMore(values: Values, edits: seq<Edit>, edit: Edit)
    ensures Applied(values, edits + [edit]) == Edited(Applied(values, edits), edit)
  {
    assert (edits + [edit])[..|edits|] == edits;
  }

  /** A state, the contents it had at each generation, what each open handle was given
      so far (the edits of a transaction, the bytes of a blob, the generation and the
      prefix of a cursor), and the generation that the last migration replaced, unless
      it was rolled back. */
  datatype Trace = Trace(
    state: State, history: seq<Contents>, edits: map<Handle, seq<Edit>>, bytes: map<Handle, seq<Byte>>,
    openings: map<Handle, Opening>, undo: Option<nat>)

  datatype Opening = Opening(base: nat, prefix: Key)

  function EditsAfter(t: Trace, call: Call, status: Status): map<Handle, seq<Edit>> {
    if !status.Ok? then t.edits
    else
      match call
      case BeginCall(_, _, _) => t.edits[t.state.next := []]
      case PutCall(h, key, value) => t.edits[h := (if h in t.edits then t.edits[h] else []) + [Putting(key, value)]]
      case EraseCall(h, key) => t.edits[h := (if h in t.edits then t.edits[h] else []) + [Erasing(key)]]
      case _ => t.edits
  }

  function BytesAfter(t: Trace, call: Call, status: Status): map<Handle, seq<Byte>> {
    if !status.Ok? then t.bytes
    else
      match call
      case BeginBlobReplaceCall(_, _, _) => t.bytes[t.state.next := []]
      case WriteBlobCall(h, _, input) => t.bytes[h := (if h in t.bytes then t.bytes[h] else []) + input]
      case _ => t.bytes
  }

  function OpenedAfter(t: Trace, call: Call, status: Status): map<Handle, Opening> {
    if status.Ok? && call.OpenCursorCall? && call.handle in t.state.transactions
    then t.openings[t.state.next := Opening(t.state.transactions[call.handle].base, call.prefix)] else t.openings
  }

  function UndoAfter(t: Trace, call: Call, status: Status): Option<nat> {
    if !status.Ok? then t.undo
    else if call.CommitMigrationCall? then Some(t.state.generation)
    else if call.RollbackCall? then None
    else t.undo
  }

  function Advance(limits: Limits, t: Trace, call: Call): Trace {
    var r := Perform(limits, t.state, call);
    Trace(r.state,
          if r.state.generation == t.state.generation then t.history else t.history + [r.state.current],
          EditsAfter(t, call, r.status), BytesAfter(t, call, r.status), OpenedAfter(t, call, r.status),
          UndoAfter(t, call, r.status))
  }

  function Start(schema: Schema): Trace {
    Trace(Opened(schema), [Opened(schema).current], map[], map[], map[], None)
  }

  /** The trace after any sequence of calls. */
  function After(limits: Limits, schema: Schema, calls: seq<Call>): Trace {
    if calls == [] then Start(schema)
    else Advance(limits, After(limits, schema, calls[..|calls| - 1]), calls[|calls| - 1])
  }

  // ---------------------------------------------------------------------
  // The invariant
  // ---------------------------------------------------------------------

  /** The history has one entry for each generation, the last being the current one. */
  ghost predicate HistoryInv(t: Trace) {
    && |t.history| == t.state.generation + 1 && t.history[t.state.generation] == t.state.current
    && t.state.commits == t.state.generation
  }

  /** A reader sees the values of its generation, a writer those with its own edits. */
  ghost predicate Snapshot(t: Trace, h: Handle)
    requires h in t.state.transactions
  {
    var x := t.state.transactions[h];
    && x.base < |t.history| && h in t.edits
    && x.values == Applied(t.history[x.base].values, t.edits[h])
    && (!x.write ==> t.edits[h] == [])
  }

  ghost predicate SnapshotInv(t: Trace) {
    forall h <- t.state.transactions :: Snapshot(t, h)
  }

  /** A blob being written holds, up to where it was written, the bytes it was given;
      a blob being read holds the blob of its generation. */
  ghost predicate Streamed(t: Trace, h: Handle)
    requires h in t.state.blobs
  {
    var b := t.state.blobs[h];
    && b.base < |t.history| && b.written <= |b.value|
    && (b.write ==> h in t.bytes && b.value[..b.written] == t.bytes[h])
    && (!b.write ==> b.key in t.history[b.base].blobs && b.value == t.history[b.base].blobs[b.key])
  }

  ghost predicate StreamInv(t: Trace) {
    forall h <- t.state.blobs :: Streamed(t, h)
  }

  /** A cursor holds the matching entries of its generation, in key order. */
  ghost predicate Scanned(t: Trace, h: Handle)
    requires h in t.state.cursors
  {
    var c := t.state.cursors[h];
    && h in t.openings && t.openings[h].base < |t.history| && c.position <= |c.entries|
    && c.entries == WithPrefix(Entries(t.history[t.openings[h].base].values), t.openings[h].prefix)
  }

  ghost predicate CursorInv(t: Trace) {
    forall h <- t.state.cursors :: Scanned(t, h)
  }

  /** The flag is set exactly when there is an unfinished writer, and there is at most one. */
  ghost predicate WriterInv(s: State) {
    && (s.writerActive ==> exists h :: Writers(s) == {h})
    && (!s.writerActive ==> Writers(s) == {})
    && (s.writerActive ==> s.migration.id == "")
  }

  ghost predicate HandleInv(s: State) {
    && (forall h <- s.transactions :: h < s.next)
    && (forall h <- s.blobs :: h < s.next && h !in s.transactions)
    && (forall h <- s.migrations :: h < s.next)
    && (forall h <- s.cursors :: h < s.next)
  }

  ghost predicate KeysInv(s: State) {
    && [] !in s.current.values && [] !in s.current.blobs && [] !in s.migration.values
    && (s.rollback.Some? ==> [] !in s.rollback.value.values && [] !in s.rollback.value.blobs)
    && (forall h <- s.transactions :: [] !in s.transactions[h].values)
    && (forall h <- s.blobs :: s.blobs[h].key != [])
  }

  /** A migration that can still be committed is one in progress. */
  ghost predicate MigrationInv(t: Trace) {
    var s := t.state;
    && s.migration.sourceGeneration <= s.generation < |t.history|
    && (s.migrations != {} && s.generation == s.migration.sourceGeneration ==> s.migration.id != "")
    && (s.migration.id != "" ==> s.migration.source == t.history[s.migration.sourceGeneration].schema)
    && (s.migration.id != "" ==> s.migration.target.id != "" && s.migration.target.version != 0)
    && (s.migration.handleActive ==> s.migrations != {})
  }

  /** What a rollback would restore is what the last migration replaced. */
  ghost predicate UndoInv(t: Trace) {
    && (t.undo.Some? <==> t.state.rollback.Some?)
    && (t.undo.Some? ==> t.undo.value < |t.history| && t.state.rollback.value == t.history[t.undo.value])
  }

  ghost predicate Inv(t: Trace) {
    && HistoryInv(t) && SnapshotInv(t) && StreamInv(t) && WriterInv(t.state) && HandleInv(t.state)
    && KeysInv(t.state) && MigrationInv(t) && UndoInv(t) && CursorInv(t)
  }

  // ---------------------------------------------------------------------
  // Every call keeps it
  // ---------------------------------------------------------------------

  /** A call changes nothing that is on record, or makes the next generation. */
  predicate NextOrSame(s: State, s': State) {
    || (s'.generation == s.generation && s'.current == s.current && s'.commits == s.commits)
    || (s'.generation == s.generation + 1 && s'.commits == s.commits + 1)
  }

  lemma CallMakesNextOrSame(limits: Limits, s: State, call: Call)
    ensures NextOrSame(s, Perform(limits, s, call).state)
  {
    hide Perform, NextOrSame;
    if OnTransactions(call) {
      TransactionMakesNextOrSame(limits, s, call);
    } else if OnBlobs(call) {
      BlobMakesNextOrSame(limits, s, call);
    } else {
      OtherMakesNextOrSame(limits, s, call);
    }
  }

  lemma TransactionMakesNextOrSame(limits: Limits, s: State, call: Call)
    requires OnTransactions(call)
    ensures NextOrSame(s, Perform(limits, s, call).state)
  {
    hide Fits;
  }

  lemma BlobMakesNextOrSame(limits: Limits, s: State, call: Call)
    requires OnBlobs(call)
    ensures NextOrSame(s, Perform(limits, s, call).state)
  {
    hide Fits, Zeros;
  }

  lemma OtherMakesNextOrSame(limits: Limits, s: State, call: Call)
    requires !OnTransactions(call) && !OnBlobs(call)
    ensures NextOrSame(s, Perform(limits, s, call).state)
  {
    hide Fits, Replacement, Entries, WithPrefix, Writers;
  }

  lemma HistoryKept(limits: Limits, t: Trace, call: Call)
    requires HistoryInv(t)
    ensures HistoryInv(Advance(limits, t, call)) && t.history <= Advance(limits, t, call).history
    ensures var s, s' := t.state, Advance(limits, t, call).state;
            s'.generation == s.generation + 1 || (s'.generation == s.generation && s'.current == s.current)
  {
    hide Perform, EditsAfter, BytesAfter, OpenedAfter, UndoAfter;
    CallMakesNextOrSame(limits, t.state, call);
  }

  lemma SnapshotGrows(t: Trace, t': Trace, h: Handle)
    requires h in t.state.transactions && h in t'.state.transactions && Snapshot(t, h)
    requires t.history <= t'.history && h in t'.edits && t'.edits[h] == t.edits[h]
    requires var x, x' := t.state.transactions[h], t'.state.transactions[h];
             x'.values == x.values && x'.base == x.base && x'.write == x.write
    ensures Snapshot(t', h)
  {
  }

  lemma SnapshotEdited(t: Trace, t': Trace, h: Handle, edit: Edit)
    requires h in t.state.transactions && h in t'.state.transactions && Snapshot(t, h)
    requires t'.history == t.history && h in t'.edits && t'.edits[h] == t.edits[h] + [edit]
    requires var x, x' := t.state.transactions[h], t'.state.transactions[h];
             x'.base == x.base && x'.write && x.write && x'.values == Edited(x.values, edit)
    ensures Snapshot(t', h)
  {
    var x := t.state.transactions[h];
    AppliedOneMore(t.history[x.base].values, t.edits[h], edit);
  }

  lemma SnapshotKept(limits: Limits, t: Trace, call: Call)
    requires HistoryInv(t) && SnapshotInv(t) && HandleInv(t.state)
    ensures SnapshotInv(Advance(limits, t, call))
  {
    hide Fits, Replacement, Applied, BytesAfter, Snapshot;
    HistoryKept(limits, t, call);
    var t' := Advance(limits, t, call);
    forall h <- t'.state.transactions
      ensures Snapshot(t', h)
    {
      if h == t.state.next && call.BeginCall? {
        SnapshotBegins(limits, t, call);
      } else if (call.PutCall? || call.EraseCall?) && call.handle == h && Perform(limits, t.state, call).status.Ok? {
        SnapshotEdits(limits, t, call);
      } else {
        TransactionUntouched(limits, t, call, h);
        SnapshotGrows(t, t', h);
      }
    }
  }

  lemma SnapshotBegins(limits: Limits, t: Trace, call: Call)
    requires HistoryInv(t) && HandleInv(t.state) && call.BeginCall?
    ensures t.state.next in Advance(limits, t, call).state.transactions ==> Snapshot(Advance(limits, t, call), t.state.next)
  {
    hide BytesAfter;
    assert t.state.next !in t.state.transactions;
  }

  lemma SnapshotEdits(limits: Limits, t: Trace, call: Call)
    requires HistoryInv(t) && SnapshotInv(t) && (call.PutCall? || call.EraseCall?)
    requires Perform(limits, t.state, call).status.Ok?
    ensures var t' := Advance(limits, t, call); call.handle in t'.state.transactions && Snapshot(t', call.handle)
  {
    hide Fits, Snapshot, BytesAfter, Applied;
    var t' := Advance(limits, t, call);
    var h := call.handle;
    assert Snapshot(t, h);
    SnapshotHasEdits(t, h);
    var edit := if call.PutCall? then Putting(call.key, call.value) else Erasing(call.key);
    SnapshotEdited(t, t', h, edit);
  }

  lemma SnapshotHasEdits(t: Trace, h: Handle)
    requires h in t.state.transactions && Snapshot(t, h)
    ensures h in t.edits
  {
  }

  lemma TransactionUntouched(limits: Limits, t: Trace, call: Call, h: Handle)
    requires SnapshotInv(t) && HandleInv(t.state)
    requires h in Advance(limits, t, call).state.transactions
    requires !(h == t.state.next && call.BeginCall?)
    requires !((call.PutCall? || call.EraseCall?) && call.handle == h && Perform(limits, t.state, call).status.Ok?)
    ensures h in t.state.transactions && Snapshot(t, h)
    ensures var t' := Advance(limits, t, call);
            && h in t.edits && h in t'.edits && t'.edits[h] == t.edits[h]
            && var x, x' := t.state.transactions[h], t'.state.transactions[h];
               x'.values == x.values && x'.base == x.base && x'.write == x.write
  {
    hide Fits, Replacement, BytesAfter, Snapshot;
    ValuesUntouched(limits, t.state, call, h);
    SnapshotHasEdits(t, h);
    EditsUntouched(t, call, Perform(limits, t.state, call).status, h);
  }

  lemma ValuesUntouched(limits: Limits, s: State, call: Call, h: Handle)
    requires h in Perform(limits, s, call).state.transactions
    requires !(h == s.next && call.BeginCall?)
    requires !((call.PutCall? || call.EraseCall?) && call.handle == h && Perform(limits, s, call).status.Ok?)
    ensures h in s.transactions
    ensures var x, x' := s.transactions[h], Perform(limits, s, call).state.transactions[h];
            x'.values == x.values && x'.base == x.base && x'.write == x.write
  {
    hide Perform;
    if OnTransactions(call) {
      ValuesUntouchedHere(limits, s, call, h);
    } else {
      TransactionFrame(limits, s, call);
    }
  }

  lemma ValuesUntouchedHere(limits: Limits, s: State, call: Call, h: Handle)
    requires OnTransactions(call) && h in Perform(limits, s, call).state.transactions && !(h == s.next && call.BeginCall?)
    requires !((call.PutCall? || call.EraseCall?) && call.handle == h && Perform(limits, s, call).status.Ok?)
    ensures h in s.transactions
    ensures var x, x' := s.transactions[h], Perform(limits, s, call).state.transactions[h];
            x'.values == x.values && x'.base == x.base && x'.write == x.write
  {
    hide Fits;
  }

  /** Other calls leave the transactions alone, but for a stop, which drops them. */
  lemma TransactionFrame(limits: Limits, s: State, call: Call)
    requires !OnTransactions(call)
    ensures Perform(limits, s, call).state.transactions == if call.StopCall? then map[] else s.transactions
  {
    hide Fits, Replacement, Entries, WithPrefix, Writers;
  }

  lemma BlobFrame(limits: Limits, s: State, call: Call)
    requires !OnBlobs(call)
    ensures Perform(limits, s, call).state.blobs == if call.StopCall? then map[] else s.blobs
  {
    hide Fits, Replacement, Entries, WithPrefix, Writers;
  }

  lemma EditsUntouched(t: Trace, call: Call, status: Status, h: Handle)
    requires h in t.edits && !(h == t.state.next && call.BeginCall?)
    requires !((call.PutCall? || call.EraseCall?) && call.handle == h && status.Ok?)
    ensures var after := EditsAfter(t, call, status); h in after && after[h] == t.edits[h]
  {
  }

  lemma StreamKept(limits: Limits, t: Trace, call: Call)
    requires HistoryInv(t) && StreamInv(t) && HandleInv(t.state) && KeysInv(t.state)
    ensures StreamInv(Advance(limits, t, call))
  {
    hide Fits, Replacement, EditsAfter, Streamed;
    HistoryKept(limits, t, call);
    var t' := Advance(limits, t, call);
    forall h <- t'.state.blobs
      ensures Streamed(t', h)
    {
      if h == t.state.next && (call.OpenBlobReadCall? || call.BeginBlobReplaceCall?) {
        StreamBegins(limits, t, call);
      } else if call.WriteBlobCall? && call.handle == h {
        StreamWrites(limits, t, call);
      } else {
        BlobUntouched(limits, t, call, h);
        StreamGrows(t, t', h);
      }
    }
  }

  lemma StreamGrows(t: Trace, t': Trace, h: Handle)
    requires h in t.state.blobs && h in t'.state.blobs && Streamed(t, h)
    requires t.history <= t'.history && (h in t.bytes ==> h in t'.bytes && t'.bytes[h] == t.bytes[h])
    requires var b, b' := t.state.blobs[h], t'.state.blobs[h];
             b'.value == b.value && b'.base == b.base && b'.write == b.write && b'.written == b.written && b'.key == b.key
    ensures Streamed(t', h)
  {
  }

  lemma StreamBegins(limits: Limits, t: Trace, call: Call)
    requires HistoryInv(t) && HandleInv(t.state) && KeysInv(t.state) && (call.OpenBlobReadCall? || call.BeginBlobReplaceCall?)
    ensures t.state.next in Advance(limits, t, call).state.blobs ==> Streamed(Advance(limits, t, call), t.state.next)
  {
    hide Fits, EditsAfter;
    assert t.state.next !in t.state.blobs;
  }

  lemma StreamWrites(limits: Limits, t: Trace, call: Call)
    requires HistoryInv(t) && StreamInv(t) && call.WriteBlobCall? && call.handle in t.state.blobs
    ensures call.handle in Advance(limits, t, call).state.blobs && Streamed(Advance(limits, t, call), call.handle)
  {
    hide EditsAfter;
    var b := t.state.blobs[call.handle];
    assert Streamed(t, call.handle);
    var b' := Advance(limits, t, call).state.blobs[call.handle];
    if Perform(limits, t.state, call).status.Ok? {
      assert b'.value[..b'.written] == b.value[..b.written] + call.input;
    }
  }

  lemma BlobUntouched(limits: Limits, t: Trace, call: Call, h: Handle)
    requires StreamInv(t) && HandleInv(t.state)
    requires h in Advance(limits, t, call).state.blobs
    requires !(h == t.state.next && (call.OpenBlobReadCall? || call.BeginBlobReplaceCall?))
    requires !(call.WriteBlobCall? && call.handle == h)
    ensures h in t.state.blobs && Streamed(t, h)
    ensures var t' := Advance(limits, t, call);
            && (h in t.bytes ==> h in t'.bytes && t'.bytes[h] == t.bytes[h])
            && var b, b' := t.state.blobs[h], t'.state.blobs[h];
               b'.value == b.value && b'.base == b.base && b'.write == b.write && b'.written == b.written && b'.key == b.key
  {
    hide Fits, Replacement, EditsAfter, BytesAfter, Streamed, Perform;
    BlobStays(limits, t.state, call, h);
    if h in t.bytes {
      BytesUntouched(t, call, Perform(limits, t.state, call).status, h);
    }
  }

  lemma BlobStays(limits: Limits, s: State, call: Call, h: Handle)
    requires h in Perform(limits, s, call).state.blobs
    requires !(h == s.next && (call.OpenBlobReadCall? || call.BeginBlobReplaceCall?))
    requires !(call.WriteBlobCall? && call.handle == h)
    ensures h in s.blobs
    ensures var b, b' := s.blobs[h], Perform(limits, s, call).state.blobs[h];
            b'.value == b.value && b'.base == b.base && b'.write == b.write && b'.written == b.written && b'.key == b.key
  {
    hide Perform;
    if OnBlobs(call) {
      BlobStaysHere(limits, s, call, h);
    } else {
      BlobFrame(limits, s, call);
    }
  }

  lemma BlobStaysHere(limits: Limits, s: State, call: Call, h: Handle)
    requires OnBlobs(call) && h in Perform(limits, s, call).state.blobs
    requires !(h == s.next && (call.OpenBlobReadCall? || call.BeginBlobReplaceCall?)) && !(call.WriteBlobCall? && call.handle == h)
    ensures h in s.blobs
    ensures var b, b' := s.blobs[h], Perform(limits, s, call).state.blobs[h];
            b'.value == b.value && b'.base == b.base && b'.write == b.write && b'.written == b.written && b'.key == b.key
  {
    hide Fits, Zeros;
  }

  lemma BytesUntouched(t: Trace, call: Call, status: Status, h: Handle)
    requires h in t.bytes && !(h == t.state.next && call.BeginBlobReplaceCall?) && !(call.WriteBlobCall? && call.handle == h)
    ensures var after := BytesAfter(t, call, status); h in after && after[h] == t.bytes[h]
  {
  }

  /** A cursor call touches cursors only. */
  lemma CursorFrame(limits: Limits, s: State, call: Call)
    requires OnCursors(call)
    ensures var s' := Perform(limits, s, call).state; s' == s.(cursors := s'.cursors, next := s'.next) && s.next <= s'.next
  {
    hide Entries, WithPrefix;
  }

  /** A migration call other than a commit touches the migration only. */
  lemma MigrationFrame(limits: Limits, s: State, call: Call)
    requires OnMigrations(call) && !call.CommitMigrationCall?
    ensures var s' := Perform(limits, s, call).state;
            s' == s.(migration := s'.migration, migrations := s'.migrations, next := s'.next) && s.next <= s'.next
  {
    hide Fits, Less;
  }

  lemma HandleKept(limits: Limits, s: State, call: Call)
    requires HandleInv(s)
    ensures HandleInv(Perform(limits, s, call).state)
  {
    hide Perform, HandleInv;
    if OnTransactions(call) {
      TransactionHandles(limits, s, call);
    } else if OnBlobs(call) {
      BlobHandles(limits, s, call);
    } else {
      OtherHandles(limits, s, call);
    }
  }

  lemma TransactionHandles(limits: Limits, s: State, call: Call)
    requires HandleInv(s) && OnTransactions(call)
    ensures HandleInv(Perform(limits, s, call).state)
  {
    hide Fits;
  }

  lemma BlobHandles(limits: Limits, s: State, call: Call)
    requires HandleInv(s) && OnBlobs(call)
    ensures HandleInv(Perform(limits, s, call).state)
  {
    hide Fits, Zeros;
  }

  lemma OtherHandles(limits: Limits, s: State, call: Call)
    requires HandleInv(s) && !OnTransactions(call) && !OnBlobs(call)
    ensures HandleInv(Perform(limits, s, call).state)
  {
    hide Fits, Replacement, Entries, WithPrefix, Writers;
  }

  lemma SameWriters(s: State, s': State)
    requires WriterInv(s) && Writers(s') == Writers(s)
    requires s'.writerActive == s.writerActive && (s.writerActive ==> s'.migration.id == "")
    ensures WriterInv(s')
  {
  }

  lemma NewWriter(s: State, s': State)
    requires WriterInv(s) && !s.writerActive && s'.writerActive && s'.migration.id == ""
    requires exists h :: Writers(s') == Writers(s) + {h}
    ensures WriterInv(s')
  {
    var h :| Writers(s') == Writers(s) + {h};
    assert Writers(s') == {h};
  }

  lemma WriterGone(s: State, s': State, h: Handle)
    requires WriterInv(s) && h in Writers(s) && !s'.writerActive && Writers(s') == Writers(s) - {h}
    ensures WriterInv(s')
  {
    assert s.writerActive;
    var w :| Writers(s) == {w};
    assert h == w;
  }

  lemma WriterKept(limits: Limits, s: State, call: Call)
    requires WriterInv(s) && HandleInv(s)
    ensures WriterInv(Perform(limits, s, call).state)
  {
    hide Fits, Replacement, WriterInv, Perform;
    match call
    case BeginCall(_, _, _) => WriterBegins(limits, s, call);
    case BeginBlobReplaceCall(_, _, _) => WriterBegins(limits, s, call);
    case CommitCall(_) => WriterEnds(limits, s, call);
    case AbortCall(_) => WriterEnds(limits, s, call);
    case CloseTransactionCall(_) => WriterEnds(limits, s, call);
    case CommitBlobCall(_) => BlobWriterEnds(limits, s, call);
    case AbortBlobCall(_) => BlobWriterEnds(limits, s, call);
    case CloseBlobCall(_) => BlobWriterEnds(limits, s, call);
    case StopCall => WriterStops(limits, s);
    case BeginMigrationCall(_, _, _, _, _) => MigrationWaitsForWriter(limits, s, call);
    case OpenCursorCall(_, _) => CursorIgnoresWriter(limits, s, call);
    case NextCursorCall(_, _, _) => CursorIgnoresWriter(limits, s, call);
    case CloseCursorCall(_) => CursorIgnoresWriter(limits, s, call);
    case _ => WriterStays(limits, s, call);
  }

  lemma WriterBegins(limits: Limits, s: State, call: Call)
    requires WriterInv(s) && HandleInv(s) && (call.BeginCall? || call.BeginBlobReplaceCall?)
    ensures WriterInv(Perform(limits, s, call).state)
  {
    hide Fits, WriterInv, Writers;
    var s' := Perform(limits, s, call).state;
    WriterExcludesMigration(s);
    if s'.writerActive && !s.writerActive {
      WritersGrow(limits, s, call);
      NewWriter(s, s');
    } else {
      WritersStay(limits, s, call);
      SameWriters(s, s');
    }
  }

  lemma WritersGrow(limits: Limits, s: State, call: Call)
    requires HandleInv(s) && (call.BeginCall? || call.BeginBlobReplaceCall?)
    requires Perform(limits, s, call).state.writerActive && !s.writerActive
    ensures Writers(Perform(limits, s, call).state) == Writers(s) + {s.next}
  {
    hide Fits;
  }

  lemma WritersStay(limits: Limits, s: State, call: Call)
    requires HandleInv(s) && (call.BeginCall? || call.BeginBlobReplaceCall?)
    requires Perform(limits, s, call).state.writerActive ==> s.writerActive
    ensures Writers(Perform(limits, s, call).state) == Writers(s)
  {
    hide Fits, Writers;
    WritersUnchanged(s, Perform(limits, s, call).state);
  }

  lemma WriterEnds(limits: Limits, s: State, call: Call)
    requires WriterInv(s) && HandleInv(s) && (call.CommitCall? || call.AbortCall? || call.CloseTransactionCall?)
    ensures WriterInv(Perform(limits, s, call).state)
  {
    hide WriterInv, Writers;
    var s' := Perform(limits, s, call).state;
    WriterExcludesMigration(s);
    if Writable(s, call.handle) {
      OneWriterLess(s, s', call.handle);
      WriterGone(s, s', call.handle);
    } else {
      WritersUnchanged(s, s');
      SameWriters(s, s');
    }
  }

  lemma WritersUnchanged(s: State, s': State)
    requires forall h :: Writable(s', h) <==> Writable(s, h)
    requires forall h :: Streaming(s', h) <==> Streaming(s, h)
    ensures Writers(s') == Writers(s)
  {
    hide Writable, Streaming;
    WritersAre(s);
    WritersAre(s');
  }

  lemma OneWriterLess(s: State, s': State, gone: Handle)
    requires Writable(s, gone) || Streaming(s, gone)
    requires forall h :: Writable(s', h) <==> Writable(s, h) && h != gone
    requires forall h :: Streaming(s', h) <==> Streaming(s, h) && h != gone
    ensures gone in Writers(s) && Writers(s') == Writers(s) - {gone}
  {
    hide Writable, Streaming;
    WritersAre(s);
    WritersAre(s');
  }

  lemma WritersAre(s: State)
    ensures forall h :: h in Writers(s) <==> Writable(s, h) || Streaming(s, h)
  {
  }

  lemma BlobWriterEnds(limits: Limits, s: State, call: Call)
    requires WriterInv(s) && HandleInv(s) && (call.CommitBlobCall? || call.AbortBlobCall? || call.CloseBlobCall?)
    ensures WriterInv(Perform(limits, s, call).state)
  {
    hide WriterInv, Writers;
    var s' := Perform(limits, s, call).state;
    WriterExcludesMigration(s);
    if Streaming(s, call.handle) && !(call.CommitBlobCall? && s.blobs[call.handle].written != |s.blobs[call.handle].value|) {
      OneWriterLess(s, s', call.handle);
      WriterGone(s, s', call.handle);
    } else {
      WritersUnchanged(s, s');
      SameWriters(s, s');
    }
  }

  lemma WriterStops(limits: Limits, s: State)
    requires WriterInv(s)
    ensures WriterInv(Perform(limits, s, StopCall).state)
  {
    assert s.writerActive ==> exists h :: h in Writers(s);
    assert Writers(Stop(s).state) == {};
  }

  lemma MigrationWaitsForWriter(limits: Limits, s: State, call: Call)
    requires WriterInv(s) && call.BeginMigrationCall?
    ensures WriterInv(Perform(limits, s, call).state)
  {
    hide WriterInv, Writers;
    var s' := Perform(limits, s, call).state;
    WriterExcludesMigration(s);
    WritersUnchanged(s, s');
    SameWriters(s, s');
  }

  lemma WriterStays(limits: Limits, s: State, call: Call)
    requires WriterInv(s) && HandleInv(s)
    requires call.PutCall? || call.EraseCall? || call.OpenBlobReadCall? || call.WriteBlobCall? || call.ResetCall? ||
             call.RollbackCall? || call.ApplyMigrationCall? || call.CommitMigrationCall? || call.AbortMigrationCall? ||
             call.CloseMigrationCall?
    ensures WriterInv(Perform(limits, s, call).state)
  {
    hide WriterInv, Writers, Perform, Writable, Streaming, HandleInv;
    var s' := Perform(limits, s, call).state;
    if call.PutCall? || call.EraseCall? || call.OpenBlobReadCall? || call.WriteBlobCall? {
      WorkLeavesWriters(limits, s, call);
    } else {
      OthersLeaveWriters(limits, s, call);
    }
    WritersUnchanged(s, s');
    WriterExcludesMigration(s);
    SameWriters(s, s');
  }

  lemma WorkLeavesWriters(limits: Limits, s: State, call: Call)
    requires HandleInv(s) && (call.PutCall? || call.EraseCall? || call.OpenBlobReadCall? || call.WriteBlobCall?)
    ensures var s' := Perform(limits, s, call).state;
            && (forall h :: Writable(s', h) <==> Writable(s, h)) && (forall h :: Streaming(s', h) <==> Streaming(s, h))
            && s'.writerActive == s.writerActive && s'.migration.id == s.migration.id
  {
    hide Fits;
  }

  lemma OthersLeaveWriters(limits: Limits, s: State, call: Call)
    requires call.ResetCall? || call.RollbackCall? || call.ApplyMigrationCall? || call.CommitMigrationCall? ||
             call.AbortMigrationCall? || call.CloseMigrationCall?
    ensures var s' := Perform(limits, s, call).state;
            && (forall h :: Writable(s', h) <==> Writable(s, h)) && (forall h :: Streaming(s', h) <==> Streaming(s, h))
            && s'.writerActive == s.writerActive && (s.migration.id == "" ==> s'.migration.id == "")
  {
    hide Perform;
    TransactionFrame(limits, s, call);
    BlobFrame(limits, s, call);
    FlagFrame(limits, s, call);
  }

  lemma FlagFrame(limits: Limits, s: State, call: Call)
    requires call.ResetCall? || call.RollbackCall? || call.ApplyMigrationCall? || call.CommitMigrationCall? ||
             call.AbortMigrationCall? || call.CloseMigrationCall?
    ensures var s' := Perform(limits, s, call).state;
            s'.writerActive == s.writerActive && (s.migration.id == "" ==> s'.migration.id == "")
  {
    hide Fits, Replacement;
  }

  lemma CursorIgnoresWriter(limits: Limits, s: State, call: Call)
    requires WriterInv(s) && OnCursors(call)
    ensures WriterInv(Perform(limits, s, call).state)
  {
    hide WriterInv, Writers, Perform;
    CursorFrame(limits, s, call);
    var s' := Perform(limits, s, call).state;
    WriterExcludesMigration(s);
    WritersUnchanged(s, s');
    SameWriters(s, s');
  }

  lemma WriterExcludesMigration(s: State)
    requires WriterInv(s)
    ensures s.writerActive ==> s.migration.id == ""
  {
  }

  predicate KeysDiffer(entries: seq<Entry>) {
    forall i, j :: 0 <= i < j < |entries| ==> entries[i].key != entries[j].key
  }

  predicate AllAllowed(limits: Limits, entries: seq<Entry>) {
    forall i :: 0 <= i < |entries| ==> EntryAllowed(limits, entries[i])
  }

  /** A reset is possible exactly with allowed entries whose keys differ; it then holds
      these entries and no others. */
  lemma {:induction false} ReplacementMeans(limits: Limits, entries: seq<Entry>)
    ensures Replacement(limits, entries).Some? <==> KeysDiffer(entries) && AllAllowed(limits, entries)
    ensures Replacement(limits, entries).Some? ==> Lists(entries, Replacement(limits, entries).value)
    decreases |entries|
  {
    hide EntryAllowed, AllAllowed, KeysDiffer, Lists;
    if entries == [] {
      NoEntries(limits);
    } else {
      var front, last := entries[..|entries| - 1], entries[|entries| - 1];
      ReplacementMeans(limits, front);
      OneEntryMore(limits, front, last);
      assert front + [last] == entries;
      if Replacement(limits, front).Some? {
        var before := Replacement(limits, front).value;
        NewKeyDiffers(front, last, before);
        if last.key !in before {
          ListsOneLast(front, last, before);
        }
      }
    }
  }

  lemma NoEntries(limits: Limits)
    ensures KeysDiffer([]) && AllAllowed(limits, []) && Lists([], map[])
  {
  }

  lemma OneEntryMore(limits: Limits, front: seq<Entry>, last: Entry)
    ensures AllAllowed(limits, front + [last]) <==> AllAllowed(limits, front) && EntryAllowed(limits, last)
    ensures KeysDiffer(front + [last]) ==> KeysDiffer(front)
  {
    hide EntryAllowed;
    var all := front + [last];
    assert all[|front|] == last && forall i :: 0 <= i < |front| ==> all[i] == front[i];
  }

  lemma NewKeyDiffers(front: seq<Entry>, last: Entry, before: Values)
    requires KeysDiffer(front) && Lists(front, before)
    ensures KeysDiffer(front + [last]) <==> last.key !in before
  {
    var all := front + [last];
    if last.key in before {
      var i :| 0 <= i < |front| && front[i].key == last.key;
      assert all[i].key == all[|front|].key;
    }
  }

  lemma ListsOneLast(front: seq<Entry>, last: Entry, before: Values)
    requires Lists(front, before) && last.key !in before
    ensures Lists(front + [last], before[last.key := last.value])
  {
    var all, after := front + [last], before[last.key := last.value];
    forall key <- after
      ensures exists i :: 0 <= i < |all| && all[i].key == key
    {
      if key == last.key {
        assert all[|front|].key == key;
      } else {
        var i :| 0 <= i < |front| && front[i].key == key;
        assert all[i].key == key;
      }
    }
  }

  lemma {:induction false} ReplacementKeys(limits: Limits, entries: seq<Entry>)
    ensures Replacement(limits, entries).Some? ==> [] !in Replacement(limits, entries).value
    decreases |entries|
  {
    if entries != [] {
      ReplacementKeys(limits, entries[..|entries| - 1]);
    }
  }

  lemma KeysKept(limits: Limits, s: State, call: Call)
    requires KeysInv(s)
    ensures KeysInv(Perform(limits, s, call).state)
  {
    hide KeysInv, Perform;
    match call
    case ResetCall(_, _) => ContentsKeysKept(limits, s, call);
    case RollbackCall(_) => ContentsKeysKept(limits, s, call);
    case CommitBlobCall(_) => ContentsKeysKept(limits, s, call);
    case CommitCall(_) => TransactionKeysKept(limits, s, call);
    case BeginCall(_, _, _) => TransactionKeysKept(limits, s, call);
    case PutCall(_, _, _) => TransactionKeysKept(limits, s, call);
    case EraseCall(_, _) => TransactionKeysKept(limits, s, call);
    case AbortCall(_) => TransactionKeysKept(limits, s, call);
    case CloseTransactionCall(_) => TransactionKeysKept(limits, s, call);
    case _ => OtherKeysKept(limits, s, call);
  }

  lemma ContentsKeysKept(limits: Limits, s: State, call: Call)
    requires KeysInv(s) && (call.ResetCall? || call.RollbackCall? || call.CommitBlobCall?)
    ensures KeysInv(Perform(limits, s, call).state)
  {
    hide Fits, Replacement;
    if call.ResetCall? {
      ReplacementKeys(limits, call.entries);
    }
  }

  lemma TransactionKeysKept(limits: Limits, s: State, call: Call)
    requires KeysInv(s)
    requires call.CommitCall? || call.BeginCall? || call.PutCall? || call.EraseCall? || call.AbortCall? || call.CloseTransactionCall?
    ensures KeysInv(Perform(limits, s, call).state)
  {
    hide Fits;
  }

  lemma OtherKeysKept(limits: Limits, s: State, call: Call)
    requires KeysInv(s)
    requires !(call.CommitCall? || call.BeginCall? || call.PutCall? || call.EraseCall? || call.AbortCall? ||
               call.CloseTransactionCall? || call.ResetCall? || call.RollbackCall? || call.CommitBlobCall?)
    ensures KeysInv(Perform(limits, s, call).state)
  {
    hide Fits;
  }

  lemma MigrationKept(limits: Limits, t: Trace, call: Call)
    requires HistoryInv(t) && MigrationInv(t)
    ensures MigrationInv(Advance(limits, t, call))
  {
    hide EditsAfter, BytesAfter, OpenedAfter, Perform;
    HistoryKept(limits, t, call);
    if OnMigrations(call) {
      MigrationCalls(limits, t, call);
    } else {
      MigrationUntouched(limits, t.state, call);
    }
  }

  /** What is left of a migration after a call that is not about migrations. */
  ghost predicate Untouched(s: State, s': State) {
    && s'.migration == s.migration.(handleActive := s'.migration.handleActive)
    && s'.migrations <= s.migrations
    && (s'.migration.handleActive ==> s.migration.handleActive && s'.migrations == s.migrations)
    && s.generation <= s'.generation
  }

  lemma MigrationUntouched(limits: Limits, s: State, call: Call)
    requires !OnMigrations(call)
    ensures Untouched(s, Perform(limits, s, call).state)
  {
    hide Perform, Untouched;
    if OnTransactions(call) {
      MigrationUntouchedByTransactions(limits, s, call);
    } else if OnBlobs(call) {
      MigrationUntouchedByBlobs(limits, s, call);
    } else {
      MigrationUntouchedByOthers(limits, s, call);
    }
  }

  lemma MigrationUntouchedByTransactions(limits: Limits, s: State, call: Call)
    requires OnTransactions(call)
    ensures Untouched(s, Perform(limits, s, call).state)
  {
    hide Fits;
  }

  lemma MigrationUntouchedByBlobs(limits: Limits, s: State, call: Call)
    requires OnBlobs(call)
    ensures Untouched(s, Perform(limits, s, call).state)
  {
    hide Fits, Zeros;
  }

  lemma MigrationUntouchedByOthers(limits: Limits, s: State, call: Call)
    requires !OnTransactions(call) && !OnBlobs(call) && !OnMigrations(call)
    ensures Untouched(s, Perform(limits, s, call).state)
  {
    hide Fits, Replacement, Entries, WithPrefix, Writers;
  }

  lemma MigrationCalls(limits: Limits, t: Trace, call: Call)
    requires HistoryInv(t) && MigrationInv(t) && OnMigrations(call)
    ensures MigrationInv(Advance(limits, t, call))
  {
    hide MigrationInv, HistoryInv, Advance;
    match call
    case BeginMigrationCall(_, _, _, _, _) => MigrationBegun(limits, t, call);
    case CommitMigrationCall(_) => MigrationCommitted(limits, t, call);
    case _ => MigrationWorked(limits, t, call);
  }

  lemma MigrationBegun(limits: Limits, t: Trace, call: Call)
    requires HistoryInv(t) && MigrationInv(t) && call.BeginMigrationCall?
    ensures MigrationInv(Advance(limits, t, call))
  {
    hide EditsAfter, BytesAfter, OpenedAfter, UndoAfter;
  }

  lemma MigrationCommitted(limits: Limits, t: Trace, call: Call)
    requires HistoryInv(t) && MigrationInv(t) && call.CommitMigrationCall?
    ensures MigrationInv(Advance(limits, t, call))
  {
    hide EditsAfter, BytesAfter, OpenedAfter, UndoAfter;
  }

  lemma MigrationWorked(limits: Limits, t: Trace, call: Call)
    requires HistoryInv(t) && MigrationInv(t) && (call.ApplyMigrationCall? || call.AbortMigrationCall? || call.CloseMigrationCall?)
    ensures MigrationInv(Advance(limits, t, call))
  {
    hide EditsAfter, BytesAfter, OpenedAfter, UndoAfter, Fits, Less;
  }

  lemma CursorKept(limits: Limits, t: Trace, call: Call)
    requires HistoryInv(t) && SnapshotInv(t) && CursorInv(t) && HandleInv(t.state)
    ensures CursorInv(Advance(limits, t, call))
  {
    hide Fits, Replacement, EditsAfter, BytesAfter, OpenedAfter, Scanned, Perform;
    HistoryKept(limits, t, call);
    var t' := Advance(limits, t, call);
    forall h <- t'.state.cursors
      ensures Scanned(t', h)
    {
      if h == t.state.next && call.OpenCursorCall? {
        CursorBegins(limits, t, call);
      } else {
        CursorStays(limits, t.state, call, h);
        OpeningStays(t, call, Perform(limits, t.state, call).status, h);
        ScannedGrows(t, t', h);
      }
    }
  }

  lemma ScannedGrows(t: Trace, t': Trace, h: Handle)
    requires h in t.state.cursors && h in t'.state.cursors && Scanned(t, h) && t.history <= t'.history
    requires h in t.openings ==> h in t'.openings && t'.openings[h] == t.openings[h]
    requires var c, c' := t.state.cursors[h], t'.state.cursors[h];
             c'.entries == c.entries && (c.position <= |c.entries| ==> c'.position <= |c.entries|)
    ensures Scanned(t', h)
  {
    hide Entries, WithPrefix;
  }

  lemma CursorBegins(limits: Limits, t: Trace, call: Call)
    requires HistoryInv(t) && SnapshotInv(t) && HandleInv(t.state) && call.OpenCursorCall?
    ensures t.state.next in Advance(limits, t, call).state.cursors ==> Scanned(Advance(limits, t, call), t.state.next)
  {
    hide Entries, WithPrefix, EditsAfter, BytesAfter;
    assert t.state.next !in t.state.cursors;
    if OpenCursor(t.state, call.handle, call.prefix).status.Ok? {
      assert Snapshot(t, call.handle);
      var x := t.state.transactions[call.handle];
      assert x.values == t.history[x.base].values;
    }
  }

  lemma CursorStays(limits: Limits, s: State, call: Call, h: Handle)
    requires h in Perform(limits, s, call).state.cursors && !(h == s.next && call.OpenCursorCall?)
    ensures h in s.cursors
    ensures var c, c' := s.cursors[h], Perform(limits, s, call).state.cursors[h];
            c'.entries == c.entries && (c.position <= |c.entries| ==> c'.position <= |c.entries|)
  {
    hide Perform;
    if OnCursors(call) {
      CursorStaysHere(limits, s, call, h);
    } else {
      CursorsUntouched(limits, s, call);
    }
  }

  lemma CursorStaysHere(limits: Limits, s: State, call: Call, h: Handle)
    requires OnCursors(call) && h in Perform(limits, s, call).state.cursors && !(h == s.next && call.OpenCursorCall?)
    ensures h in s.cursors
    ensures var c, c' := s.cursors[h], Perform(limits, s, call).state.cursors[h];
            c'.entries == c.entries && (c.position <= |c.entries| ==> c'.position <= |c.entries|)
  {
    hide Entries, WithPrefix;
  }

  lemma CursorsUntouched(limits: Limits, s: State, call: Call)
    requires !OnCursors(call)
    ensures Perform(limits, s, call).state.cursors == if call.StopCall? then map[] else s.cursors
  {
    hide Fits, Replacement, Writers;
  }

  lemma OpeningStays(t: Trace, call: Call, status: Status, h: Handle)
    requires !(h == t.state.next && call.OpenCursorCall?)
    ensures h in t.openings ==> h in OpenedAfter(t, call, status) && OpenedAfter(t, call, status)[h] == t.openings[h]
  {
  }

  lemma UndoKept(limits: Limits, t: Trace, call: Call)
    requires HistoryInv(t) && UndoInv(t)
    ensures UndoInv(Advance(limits, t, call))
  {
    hide EditsAfter, BytesAfter, OpenedAfter, Perform;
    HistoryKept(limits, t, call);
    RollbackStays(limits, t.state, call);
  }

  lemma RollbackStays(limits: Limits, s: State, call: Call)
    ensures var r := Perform(limits, s, call);
            if call.CommitMigrationCall? && r.status.Ok? then r.state.rollback == Some(s.current)
            else if call.RollbackCall? && r.status.Ok? then r.state.rollback == None
            else r.state.rollback == s.rollback
  {
    hide Fits, Replacement, Entries, WithPrefix, Writers;
  }

  lemma CallKeepsInvariant(limits: Limits, t: Trace, call: Call)
    requires Inv(t)
    ensures Inv(Advance(limits, t, call))
  {
    hide Perform, HistoryInv, SnapshotInv, StreamInv, WriterInv, HandleInv, KeysInv, MigrationInv, UndoInv, CursorInv;
    UndoKept(limits, t, call);
    CursorKept(limits, t, call);
    HistoryKept(limits, t, call);
    SnapshotKept(limits, t, call);
    StreamKept(limits, t, call);
    WriterKept(limits, t.state, call);
    HandleKept(limits, t.state, call);
    KeysKept(limits, t.state, call);
    MigrationKept(limits, t, call);
  }
}
