/** The in-memory provider's store object; every method refines a step of the model. */
module MemoryStore {
  import opened Wrappers
  import opened Bytes
  import opened KeyOrder
  import opened Store
  import opened StoreHistory

  method MeasureValues(values: Values) returns (total: nat)
    ensures total == Size(values)
  {
    hide Entries;
    var entries := Entries(values);
    total := 0;
    for i := 0 to |entries|
      invariant total == SizeOf(entries[..i])
    {
      total := total + |entries[i].key| + |entries[i].value|;
      assert entries[..i + 1][..i] == entries[..i];
    }
    assert entries[..|entries|] == entries;
  }

  class MemoryStore {
    const limits: Limits
    var values: Values
    var blobs: Values
    var schema: Schema
    var generation: nat
    var commits: nat
    var writerActive: bool
    var rollback: Option<Contents>
    var migration: Migration
    var transactions: map<Handle, Transaction>
    var blobOperations: map<Handle, BlobOperation>
    var cursors: map<Handle, CursorState>
    var migrations: set<Handle>
    var next: Handle

    function View(): State
      reads this
    {
      State(Contents(values, blobs, schema), generation, commits, writerActive, rollback, migration,
            transactions, blobOperations, cursors, migrations, next)
    }

    constructor (limits: Limits, schema: Schema)
      ensures View() == Opened(schema) && this.limits == limits
    {
      this.limits := limits;
      values, blobs, this.schema, generation, commits, writerActive := map[], map[], schema, 0, 0, false;
      rollback := None;
      migration := Migration("", Schema("", 0), Schema("", 0), 0, map[], [], 0, false);
      transactions, blobOperations, cursors, migrations, next := map[], map[], map[], {}, 1;
    }

    method WithinQuota(some: Values, others: Values) returns (ok: bool)
      ensures ok == Fits(limits, some, others)
    {
      hide Size;
      var a := MeasureValues(some);
      var b := MeasureValues(others);
      return |some| + |others| <= limits.maxEntries && a + b <= limits.capacity;
    }

    method BeginTransaction(access: Access, write: bool, expected: Option<nat>) returns (status: Status, handle: Handle)
      modifies this
      ensures Outcome(View(), status) == Begin(limits, old(View()), access, write, expected)
      ensures status.Ok? ==> handle == old(next)
    {
      handle := next;
      if access.Unopened? { return NotFound, 0; }
      if |transactions| >= limits.maxTransactions { return ResourceExhausted, 0; }
      if write && !access.ReadWrite? { return PermissionDenied, 0; }
      if write && writerActive { return Busy, 0; }
      if write && migration.id != "" { return Busy, 0; }
      if write && expected.Some? && generation != expected.value { return Conflict, 0; }
      if write { writerActive := true; }
      transactions := transactions[next := Transaction(values, generation, write, false)];
      next := next + 1;
      return Ok, handle;
    }

    /** The value, or nothing, as the transaction sees it; `room` is the size of the
        caller's buffer, and nothing when there is no buffer at all. */
    method GetValue(handle: Handle, key: Key, room: Option<nat>) returns (status: Status, value: seq<Byte>, size: nat)
      ensures status.InvalidArgument? <==> key == []
      ensures status.Ok? || status.BufferTooSmall? <==>
              key != [] && handle in transactions && !transactions[handle].finished && key in transactions[handle].values
      ensures status.Ok? || status.BufferTooSmall? ==>
              && size == |transactions[handle].values[key]|
              && (status.Ok? <==> room.Some? && size <= room.value)
      ensures status.Ok? ==> value == transactions[handle].values[key]
    {
      if key == [] { return InvalidArgument, [], 0; }
      if handle !in transactions || transactions[handle].finished { return NotFound, [], 0; }
      if key !in transactions[handle].values { return NotFound, [], 0; }
      value := transactions[handle].values[key];
      if room.None? || room.value < |value| { return BufferTooSmall, [], |value|; }
      return Ok, value, |value|;
    }

    method PutValue(handle: Handle, key: Key, value: seq<Byte>) returns (status: Status)
      modifies this`transactions
      ensures Outcome(View(), status) == Put(limits, old(View()), handle, key, value)
    {
      hide Fits;
      if key == [] { return InvalidArgument; }
      if handle !in transactions || !transactions[handle].write || transactions[handle].finished { return InvalidState; }
      if |key| > limits.maxKey || |value| > limits.maxValue { return QuotaExceeded; }
      var candidate := transactions[handle].values[key := value];
      var ok := WithinQuota(candidate, blobs);
      if !ok { return QuotaExceeded; }
      transactions := transactions[handle := transactions[handle].(values := candidate)];
      return Ok;
    }

    method EraseValue(handle: Handle, key: Key) returns (status: Status, erased: bool)
      modifies this`transactions
      ensures Outcome(View(), status) == Erase(old(View()), handle, key)
      ensures status.Ok? ==> handle in old(transactions) && erased == (key in old(transactions)[handle].values)
    {
      if key == [] { return InvalidArgument, false; }
      if handle !in transactions || !transactions[handle].write || transactions[handle].finished { return InvalidState, false; }
      var transaction := transactions[handle];
      erased := key in transaction.values;
      transactions := transactions[handle := transaction.(values := transaction.values - {key})];
      return Ok, erased;
    }

    method CommitTransaction(handle: Handle) returns (status: Status)
      modifies this
      ensures Outcome(View(), status) == Commit(old(View()), handle)
    {
      if handle !in transactions || !transactions[handle].write || transactions[handle].finished { return InvalidState; }
      var item := transactions[handle];
      if generation != item.base {
        writerActive := false;
        transactions := transactions[handle := item.(finished := true)];
        return Conflict;
      }
      values := item.values;
      generation := generation + 1;
      commits := commits + 1;
      writerActive := false;
      transactions := transactions[handle := item.(finished := true)];
      return Ok;
    }

    method AbortTransaction(handle: Handle) returns (status: Status)
      modifies this`transactions, this`writerActive
      ensures Outcome(View(), status) == Abort(old(View()), handle)
    {
      if handle !in transactions { return NotFound; }
      if transactions[handle].write && !transactions[handle].finished { writerActive := false; }
      transactions := transactions[handle := transactions[handle].(finished := true)];
      return Ok;
    }

    method Close(handle: Handle) returns (status: Status)
      modifies this`transactions, this`writerActive
      ensures Outcome(View(), status) == CloseTransaction(old(View()), handle)
    {
      if handle !in transactions { return NotFound; }
      if transactions[handle].write && !transactions[handle].finished { writerActive := false; }
      transactions := transactions - {handle};
      return Ok;
    }

    method OpenBlob(access: Access, key: Key) returns (status: Status, handle: Handle)
      modifies this`blobOperations, this`next
      ensures Outcome(View(), status) == OpenBlobRead(old(View()), access, key)
      ensures status.Ok? ==> handle == old(next)
    {
      if key == [] { return InvalidArgument, 0; }
      if access.Unopened? || key !in blobs { return NotFound, 0; }
      handle := next;
      blobOperations := blobOperations[handle := BlobOperation(key, blobs[key], generation, |blobs[key]|, false, false)];
      next := next + 1;
      return Ok, handle;
    }

    method ReplaceBlob(access: Access, key: Key, size: nat) returns (status: Status, handle: Handle)
      modifies this`blobOperations, this`next, this`writerActive
      ensures Outcome(View(), status) == BeginBlobReplace(limits, old(View()), access, key, size)
      ensures status.Ok? ==> handle == old(next)
    {
      hide Fits;
      if key == [] { return InvalidArgument, 0; }
      if access.Unopened? { return NotFound, 0; }
      if access.ReadOnly? { return PermissionDenied, 0; }
      if writerActive { return Busy, 0; }
      if migration.id != "" { return Busy, 0; }
      if |key| > limits.maxKey || size > limits.maxBlob { return QuotaExceeded, 0; }
      var ok := WithinQuota(blobs[key := Zeros(size)], values);
      if !ok { return QuotaExceeded, 0; }
      writerActive := true;
      handle := next;
      blobOperations := blobOperations[handle := BlobOperation(key, Zeros(size), generation, 0, true, false)];
      next := next + 1;
      return Ok, handle;
    }

    method Read(handle: Handle, offset: nat, size: nat) returns (status: Status, data: seq<Byte>)
      ensures status.Ok? <==>
              && handle in blobOperations && !blobOperations[handle].write && !blobOperations[handle].finished
              && offset + size <= |blobOperations[handle].value|
      ensures status.Ok? ==> data == blobOperations[handle].value[offset..offset + size]
    {
      if handle !in blobOperations || blobOperations[handle].write || blobOperations[handle].finished ||
         offset > |blobOperations[handle].value| || size > |blobOperations[handle].value| - offset {
        return InvalidArgument, [];
      }
      return Ok, blobOperations[handle].value[offset..offset + size];
    }

    method Write(handle: Handle, offset: nat, input: seq<Byte>) returns (status: Status)
      modifies this`blobOperations
      ensures Outcome(View(), status) == WriteBlob(old(View()), handle, offset, input)
    {
      if handle !in blobOperations || !blobOperations[handle].write || blobOperations[handle].finished { return InvalidState; }
      var blob := blobOperations[handle];
      if offset != blob.written || |input| > |blob.value| - offset { return InvalidState; }
      var value := blob.value[..offset] + input + blob.value[offset + |input|..];
      blobOperations := blobOperations[handle := blob.(value := value, written := offset + |input|)];
      return Ok;
    }

    method FinishBlob(handle: Handle) returns (status: Status)
      modifies this
      ensures Outcome(View(), status) == CommitBlob(old(View()), handle)
    {
      if handle !in blobOperations || !blobOperations[handle].write || blobOperations[handle].finished ||
         blobOperations[handle].written != |blobOperations[handle].value| { return InvalidState; }
      var item := blobOperations[handle];
      if generation != item.base {
        writerActive := false;
        blobOperations := blobOperations[handle := item.(finished := true)];
        return Conflict;
      }
      blobs := blobs[item.key := item.value];
      generation := generation + 1;
      commits := commits + 1;
      writerActive := false;
      blobOperations := blobOperations[handle := item.(finished := true)];
      return Ok;
    }

    /** Scans the snapshot of a read transaction from the lower bound of the prefix. */
    method BeginScan(handle: Handle, prefix: Key) returns (status: Status, cursor: Handle)
      modifies this`cursors, this`next
      ensures Outcome(View(), status) == OpenCursor(old(View()), handle, prefix)
      ensures status.Ok? ==> cursor == old(next)
    {
      hide Entries, WithPrefix;
      if handle !in transactions || transactions[handle].finished || transactions[handle].write { return InvalidState, 0; }
      var found := Scan(transactions[handle].values, prefix);
      cursor := next;
      cursors := cursors[cursor := CursorState(found, 0)];
      next := next + 1;
      return Ok, cursor;
    }

    /** Delivers the next entry if it fits the buffers, and its sizes if it does not. */
    method Advance(cursor: Handle, keyRoom: nat, valueRoom: nat) returns (status: Status, keySize: nat, valueSize: nat, entry: Entry)
      requires cursor in cursors ==> cursors[cursor].position <= |cursors[cursor].entries|
      modifies this`cursors
      ensures Outcome(View(), status) == NextCursor(old(View()), cursor, keyRoom, valueRoom)
      ensures !status.NotFound? ==>
              && !AtEnd(old(View()), cursor)
              && keySize == |NextEntry(old(View()), cursor).key| && valueSize == |NextEntry(old(View()), cursor).value|
              && (status.Ok? ==> entry == NextEntry(old(View()), cursor))
    {
      if cursor !in cursors { return NotFound, 0, 0, Entry([], []); }
      var c := cursors[cursor];
      if c.position == |c.entries| { return NotFound, 0, 0, Entry([], []); }
      entry := c.entries[c.position];
      if |entry.key| > keyRoom || |entry.value| > valueRoom {
        return BufferTooSmall, |entry.key|, |entry.value|, Entry([], []);
      }
      cursors := cursors[cursor := c.(position := c.position + 1)];
      return Ok, |entry.key|, |entry.value|, entry;
    }

    method EndScan(cursor: Handle) returns (status: Status)
      modifies this`cursors
      ensures Outcome(View(), status) == CloseCursor(old(View()), cursor)
    {
      if cursor !in cursors { return NotFound; }
      cursors := cursors - {cursor};
      return Ok;
    }

    method ResetStore(access: Access, entries: seq<Entry>) returns (status: Status)
      modifies this
      ensures Outcome(View(), status) == Reset(limits, old(View()), access, entries)
    {
      hide Fits;
      if access.Unopened? { return NotFound; }
      if access.ReadOnly? { return PermissionDenied; }
      if writerActive { return Busy; }
      if migration.id != "" { return Busy; }
      var replacement: Values := map[];
      for i := 0 to |entries|
        invariant Replacement(limits, entries[..i]) == Some(replacement)
        invariant View() == old(View())
      {
        assert entries[..i + 1][..i] == entries[..i];
        if !EntryAllowed(limits, entries[i]) || entries[i].key in replacement {
          ReplacementFails(limits, entries, i + 1);
          return InvalidArgument;
        }
        replacement := replacement[entries[i].key := entries[i].value];
      }
      assert entries[..|entries|] == entries;
      var ok := WithinQuota(replacement, map[]);
      if !ok { return QuotaExceeded; }
      values := replacement;
      blobs := map[];
      generation := generation + 1;
      commits := commits + 1;
      return Ok;
    }

    method RollbackStore(access: Access) returns (status: Status)
      modifies this
      ensures Outcome(View(), status) == Rollback(old(View()), access)
    {
      if access.Unopened? { return NotFound; }
      if access.ReadOnly? { return PermissionDenied; }
      if rollback.None? { return NotFound; }
      values := rollback.value.values;
      blobs := rollback.value.blobs;
      schema := rollback.value.schema;
      rollback := None;
      generation := generation + 1;
      commits := commits + 1;
      return Ok;
    }

    method OpenMigration(access: Access, id: string, source: Schema, target: Schema, room: nat)
      returns (status: Status, handle: Handle)
      modifies this`migration, this`migrations, this`next
      ensures Outcome(View(), status) == BeginMigration(old(View()), access, id, source, target, room)
      ensures status.Ok? ==> handle == old(next)
    {
      if id == "" || target.id == "" || target.version == 0 { return InvalidArgument, 0; }
      if access.Unopened? { return NotFound, 0; }
      if access.ReadOnly? { return PermissionDenied, 0; }
      if writerActive || migration.handleActive { return Busy, 0; }
      if migration.id != "" {
        if migration.id != id || migration.source != source || migration.target != target { return Conflict, 0; }
      } else {
        if source != schema { return Conflict, 0; }
        migration := Migration(id, schema, target, generation, map[], [], 0, false);
      }
      if room < |migration.checkpoint| { return BufferTooSmall, 0; }
      migration := migration.(handleActive := true);
      handle := next;
      migrations := migrations + {handle};
      next := next + 1;
      return Ok, handle;
    }

    method Apply(handle: Handle, source: Key, target: Option<Entry>) returns (status: Status)
      modifies this`migration
      ensures Outcome(View(), status) == ApplyMigration(limits, old(View()), handle, source, target)
    {
      hide Fits, Less;
      if source == [] { return InvalidArgument; }
      if handle !in migrations { return NotFound; }
      if migration.checkpoint != [] && !Less(migration.checkpoint, source) { return Conflict; }
      var candidate := migration.values;
      if target.Some? {
        if !EntryAllowed(limits, target.value) { return InvalidArgument; }
        candidate := candidate[target.value.key := target.value.value];
      }
      var ok := WithinQuota(candidate, map[]);
      if !ok { return QuotaExceeded; }
      migration := migration.(values := candidate, checkpoint := source, processed := migration.processed + 1);
      return Ok;
    }

    method FinishMigration(handle: Handle) returns (status: Status)
      modifies this
      ensures Outcome(View(), status) == CommitMigration(old(View()), handle)
    {
      if handle !in migrations { return NotFound; }
      if generation != migration.sourceGeneration { return Conflict; }
      rollback := Some(Contents(values, blobs, schema));
      values := migration.values;
      schema := migration.target;
      migration := migration.(id := "", values := map[], checkpoint := [], handleActive := false);
      generation := generation + 1;
      commits := commits + 1;
      return Ok;
    }

    method Leave(handle: Handle) returns (status: Status)
      modifies this`migration, this`migrations
      ensures Outcome(View(), status) == CloseMigration(old(View()), handle)
    {
      if handle !in migrations { return NotFound; }
      migration := migration.(handleActive := false);
      migrations := migrations - {handle};
      return Ok;
    }

    method Interrupt(handle: Handle) returns (status: Status)
      modifies this`migration
      ensures Outcome(View(), status) == AbortMigration(old(View()), handle)
    {
      if handle !in migrations { return NotFound; }
      migration := migration.(handleActive := false);
      return Ok;
    }

    method AbandonBlob(handle: Handle) returns (status: Status)
      modifies this`blobOperations, this`writerActive
      ensures Outcome(View(), status) == AbortBlob(old(View()), handle)
    {
      if handle !in blobOperations { return NotFound; }
      if blobOperations[handle].write && !blobOperations[handle].finished { writerActive := false; }
      blobOperations := blobOperations[handle := blobOperations[handle].(finished := true)];
      return Ok;
    }

    method ReleaseBlob(handle: Handle) returns (status: Status)
      modifies this`blobOperations, this`writerActive
      ensures Outcome(View(), status) == CloseBlob(old(View()), handle)
    {
      if handle !in blobOperations { return NotFound; }
      if blobOperations[handle].write && !blobOperations[handle].finished { writerActive := false; }
      blobOperations := blobOperations - {handle};
      return Ok;
    }

    method StopProvider()
      modifies this
      ensures View() == Stop(old(View())).state
    {
      hide Writers;
      var open := HasWriter();
      writerActive, transactions, blobOperations, cursors := writerActive && !open, map[], map[], map[];
      migration, migrations := if migrations != {} then migration.(handleActive := false) else migration, {};
    }

    method HasWriter() returns (open: bool)
      ensures open <==> Writers(View()) != {}
    {
      hide Writers;
      SomeWriter(View());
      return
        (exists h <- transactions :: transactions[h].write && !transactions[h].finished) ||
        (exists h <- blobOperations :: blobOperations[h].write && !blobOperations[h].finished);
    }

    method DoTransaction(call: Call)
      requires call.BeginCall? || call.PutCall? || call.EraseCall? || call.CommitCall? || call.AbortCall? || call.CloseTransactionCall?
      modifies this
      ensures View() == Perform(limits, old(View()), call).state
    {
      hide Begin, Put, Erase, Commit, Abort, Store.CloseTransaction;
      match call {
        case BeginCall(access, write, expected) => var _, _ := BeginTransaction(access, write, expected);
        case PutCall(handle, key, value) => var _ := PutValue(handle, key, value);
        case EraseCall(handle, key) => var _, _ := EraseValue(handle, key);
        case CommitCall(handle) => var _ := CommitTransaction(handle);
        case AbortCall(handle) => var _ := AbortTransaction(handle);
        case CloseTransactionCall(handle) => var _ := Close(handle);
      }
    }

    method DoBlob(call: Call)
      requires call.OpenBlobReadCall? || call.BeginBlobReplaceCall? || call.WriteBlobCall? || call.CommitBlobCall? ||
               call.AbortBlobCall? || call.CloseBlobCall?
      modifies this
      ensures View() == Perform(limits, old(View()), call).state
    {
      hide OpenBlobRead, BeginBlobReplace, WriteBlob, CommitBlob, AbortBlob, CloseBlob;
      match call {
        case OpenBlobReadCall(access, key) => var _, _ := OpenBlob(access, key);
        case BeginBlobReplaceCall(access, key, size) => var _, _ := ReplaceBlob(access, key, size);
        case WriteBlobCall(handle, offset, input) => var _ := Write(handle, offset, input);
        case CommitBlobCall(handle) => var _ := FinishBlob(handle);
        case AbortBlobCall(handle) => var _ := AbandonBlob(handle);
        case CloseBlobCall(handle) => var _ := ReleaseBlob(handle);
      }
    }

    /** Any call, as another client of the store may make it. */
    method Do(call: Call)
      requires CursorsInRange(View())
      modifies this
      ensures View() == Perform(limits, old(View()), call).state
    {
      hide Reset, Rollback, Stop, OpenCursor, NextCursor, CloseCursor, BeginMigration, ApplyMigration, CommitMigration, AbortMigration, CloseMigration;
      match call {
        case ResetCall(access, entries) => var _ := ResetStore(access, entries);
        case RollbackCall(access) => var _ := RollbackStore(access);
        case StopCall => StopProvider();
        case BeginMigrationCall(access, id, source, target, room) => var _, _ := OpenMigration(access, id, source, target, room);
        case ApplyMigrationCall(handle, source, entry) => var _ := Apply(handle, source, entry);
        case CommitMigrationCall(handle) => var _ := FinishMigration(handle);
        case AbortMigrationCall(handle) => var _ := Interrupt(handle);
        case CloseMigrationCall(handle) => var _ := Leave(handle);
        case OpenCursorCall(handle, prefix) => var _, _ := BeginScan(handle, prefix);
        case NextCursorCall(handle, keyRoom, valueRoom) => var _, _, _, _ := Advance(handle, keyRoom, valueRoom);
        case CloseCursorCall(handle) => var _ := EndScan(handle);
        case OpenBlobReadCall(_, _) => DoBlob(call);
        case BeginBlobReplaceCall(_, _, _) => DoBlob(call);
        case WriteBlobCall(_, _, _) => DoBlob(call);
        case CommitBlobCall(_) => DoBlob(call);
        case AbortBlobCall(_) => DoBlob(call);
        case CloseBlobCall(_) => DoBlob(call);
        case _ => DoTransaction(call);
      }
    }

    /** Whatever is called on a new store, the object is in the state that the specification
        gives for these calls, so what holds after every sequence of calls holds of it. */
    method Serve(schema: Schema, calls: seq<Call>)
      requires View() == Opened(schema)
      modifies this
      ensures View() == After(limits, schema, calls).state
    {
      hide Perform, After, CursorsInRange;
      assert calls[..0] == [];
      NothingCalled(limits, schema);
      for i := 0 to |calls|
        invariant View() == After(limits, schema, calls[..i]).state && CursorsInRange(View())
      {
        OneMoreCall(limits, schema, calls, i);
        CursorsStayInRange(limits, View(), calls[i]);
        Do(calls[i]);
      }
      assert calls[..|calls|] == calls;
    }
  }

  /** No cursor is past its end. */
  predicate CursorsInRange(s: State) {
    forall h <- s.cursors :: s.cursors[h].position <= |s.cursors[h].entries|
  }

  lemma CursorsStayInRange(limits: Limits, s: State, call: Call)
    requires CursorsInRange(s)
    ensures CursorsInRange(Perform(limits, s, call).state)
  {
    hide Perform, WithPrefix, Entries;
    var s' := Perform(limits, s, call).state;
    forall h <- s'.cursors
      ensures s'.cursors[h].position <= |s'.cursors[h].entries|
    {
      if h == s.next && call.OpenCursorCall? {
        NewCursorInRange(limits, s, call);
      } else {
        CursorStays(limits, s, call, h);
      }
    }
  }

  lemma NewCursorInRange(limits: Limits, s: State, call: Call)
    requires CursorsInRange(s) && call.OpenCursorCall?
    ensures CursorsInRange(Perform(limits, s, call).state)
  {
    hide WithPrefix, Entries;
  }

  lemma NothingCalled(limits: Limits, schema: Schema)
    ensures After(limits, schema, []).state == Opened(schema) && CursorsInRange(Opened(schema))
  {
  }

  lemma OneMoreCall(limits: Limits, schema: Schema, calls: seq<Call>, i: nat)
    requires i < |calls|
    ensures After(limits, schema, calls[..i + 1]).state == Perform(limits, After(limits, schema, calls[..i]).state, calls[i]).state
  {
    hide Perform;
    assert calls[..i + 1][..i] == calls[..i];
  }

  lemma SomeWriter(s: State)
    ensures Writers(s) != {} <==>
            (exists h <- s.transactions :: s.transactions[h].write && !s.transactions[h].finished) ||
            (exists h <- s.blobs :: s.blobs[h].write && !s.blobs[h].finished)
  {
    if h: Handle :| h in s.transactions && s.transactions[h].write && !s.transactions[h].finished {
      assert h in Writers(s);
    }
    if h: Handle :| h in s.blobs && s.blobs[h].write && !s.blobs[h].finished {
      assert h in Writers(s);
    }
    if h :| h in Writers(s) {
      assert Writable(s, h) || Streaming(s, h);
    }
  }

  lemma {:induction false} ReplacementFails(limits: Limits, entries: seq<Entry>, n: nat)
    requires n <= |entries| && Replacement(limits, entries[..n]).None?
    ensures Replacement(limits, entries).None?
    decreases |entries|
  {
    if n == |entries| {
      assert entries[..n] == entries;
    } else {
      assert entries[..|entries| - 1][..n] == entries[..n];
      ReplacementFails(limits, entries[..|entries| - 1], n);
    }
  }
}
