/** One store of the in-memory provider: what each provider call does to it. */
module Store {
  import opened Wrappers
  import opened Bytes
  import opened KeyOrder

  type Handle = nat

  datatype Schema = Schema(id: string, version: nat)

  datatype Contents = Contents(values: Values, blobs: Values, schema: Schema)

  datatype Limits = Limits(
    capacity: nat, maxEntries: nat, maxKey: nat, maxValue: nat, maxBlob: nat, maxTransactions: nat)

  /** What a store handle permits; a handle that is not open permits nothing. */
  datatype Access = Unopened | ReadOnly | ReadWrite

  datatype Status =
    | Ok | InvalidArgument | NotFound | ResourceExhausted | PermissionDenied | Busy | Conflict
    | InvalidState | QuotaExceeded | BufferTooSmall

  datatype Transaction = Transaction(values: Values, base: nat, write: bool, finished: bool)

  datatype BlobOperation = BlobOperation(
    key: Key, value: seq<Byte>, base: nat, written: nat, write: bool, finished: bool)

  datatype CursorState = CursorState(entries: seq<Entry>, position: nat)

  /** The migration in progress; there is one when `id` is not empty. */
  datatype Migration = Migration(
    id: string, source: Schema, target: Schema, sourceGeneration: nat, values: Values, checkpoint: Key,
    processed: nat, handleActive: bool)

  datatype State = State(
    current: Contents,
    generation: nat,
    commits: nat,
    writerActive: bool,
    rollback: Option<Contents>,
    migration: Migration,
    transactions: map<Handle, Transaction>,
    blobs: map<Handle, BlobOperation>,
    cursors: map<Handle, CursorState>,
    migrations: set<Handle>,
    next: Handle)

  datatype Outcome = Outcome(state: State, status: Status)

  function Opened(schema: Schema): State {
    State(Contents(map[], map[], schema), 0, 0, false, None,
          Migration("", Schema("", 0), Schema("", 0), 0, map[], [], 0, false), map[], map[], map[], {}, 1)
  }

  // ---------------------------------------------------------------------
  // Quotas
  // ---------------------------------------------------------------------

  function SizeOf(entries: seq<Entry>): nat {
    if entries == [] then 0
    else SizeOf(entries[..|entries| - 1]) + |entries[|entries| - 1].key| + |entries[|entries| - 1].value|
  }

  function Size(values: Values): nat {
    SizeOf(Entries(values))
  }

  predicate Fits(limits: Limits, some: Values, others: Values) {
    |some| + |others| <= limits.maxEntries && Size(some) + Size(others) <= limits.capacity
  }

  // ---------------------------------------------------------------------
  // Transactions
  // ---------------------------------------------------------------------

  function Refused(s: State, status: Status): Outcome {
    Outcome(s, status)
  }

  function Begin(limits: Limits, s: State, access: Access, write: bool, expected: Option<nat>): Outcome {
    if access.Unopened? then Refused(s, NotFound)
    else if |s.transactions| >= limits.maxTransactions then Refused(s, ResourceExhausted)
    else if write && !access.ReadWrite? then Refused(s, PermissionDenied)
    else if write && s.writerActive then Refused(s, Busy)
    else if write && s.migration.id != "" then Refused(s, Busy)
    else if write && expected.Some? && s.generation != expected.value then Refused(s, Conflict)
    else
      Outcome(
        s.(writerActive := s.writerActive || write,
           transactions := s.transactions[s.next := Transaction(s.current.values, s.generation, write, false)],
           next := s.next + 1), Ok)
  }

  predicate Writable(s: State, handle: Handle) {
    handle in s.transactions && s.transactions[handle].write && !s.transactions[handle].finished
  }

  function Put(limits: Limits, s: State, handle: Handle, key: Key, value: seq<Byte>): Outcome {
    if key == [] then Refused(s, InvalidArgument)
    else if !Writable(s, handle) then Refused(s, InvalidState)
    else if |key| > limits.maxKey || |value| > limits.maxValue then Refused(s, QuotaExceeded)
    else
      var transaction := s.transactions[handle];
      var candidate := transaction.values[key := value];
      if !Fits(limits, candidate, s.current.blobs) then Refused(s, QuotaExceeded)
      else Outcome(s.(transactions := s.transactions[handle := transaction.(values := candidate)]), Ok)
  }

  function Erase(s: State, handle: Handle, key: Key): Outcome {
    if key == [] then Refused(s, InvalidArgument)
    else if !Writable(s, handle) then Refused(s, InvalidState)
    else
      var transaction := s.transactions[handle];
      Outcome(s.(transactions := s.transactions[handle := transaction.(values := transaction.values - {key})]), Ok)
  }

  function Commit(s: State, handle: Handle): Outcome {
    if !Writable(s, handle) then Refused(s, InvalidState)
    else
      var transaction := s.transactions[handle];
      var closed := s.(writerActive := false, transactions := s.transactions[handle := transaction.(finished := true)]);
      if s.generation != transaction.base then Outcome(closed, Conflict)
      else
        Outcome(
          closed.(current := s.current.(values := transaction.values), generation := s.generation + 1,
                  commits := s.commits + 1), Ok)
  }

  function Abort(s: State, handle: Handle): Outcome {
    if handle !in s.transactions then Refused(s, NotFound)
    else
      Outcome(
        s.(writerActive := s.writerActive && !Writable(s, handle),
           transactions := s.transactions[handle := s.transactions[handle].(finished := true)]), Ok)
  }

  function CloseTransaction(s: State, handle: Handle): Outcome {
    if handle !in s.transactions then Refused(s, NotFound)
    else
      Outcome(
        s.(writerActive := s.writerActive && !Writable(s, handle), transactions := s.transactions - {handle}), Ok)
  }

  // ---------------------------------------------------------------------
  // Blobs
  // ---------------------------------------------------------------------

  function Zeros(size: nat): (r: seq<Byte>)
    ensures |r| == size
  {
    seq(size, _ => 0)
  }

  function OpenBlobRead(s: State, access: Access, key: Key): Outcome {
    if key == [] then Refused(s, InvalidArgument)
    else if access.Unopened? || key !in s.current.blobs then Refused(s, NotFound)
    else
      var value := s.current.blobs[key];
      Outcome(
        s.(blobs := s.blobs[s.next := BlobOperation(key, value, s.generation, |value|, false, false)],
           next := s.next + 1), Ok)
  }

  function BeginBlobReplace(limits: Limits, s: State, access: Access, key: Key, size: nat): Outcome {
    if key == [] then Refused(s, InvalidArgument)
    else if access.Unopened? then Refused(s, NotFound)
    else if access.ReadOnly? then Refused(s, PermissionDenied)
    else if s.writerActive || s.migration.id != "" then Refused(s, Busy)
    else if |key| > limits.maxKey || size > limits.maxBlob then Refused(s, QuotaExceeded)
    else if !Fits(limits, s.current.blobs[key := Zeros(size)], s.current.values) then Refused(s, QuotaExceeded)
    else
      Outcome(
        s.(writerActive := true,
           blobs := s.blobs[s.next := BlobOperation(key, Zeros(size), s.generation, 0, true, false)],
           next := s.next + 1), Ok)
  }

  predicate Streaming(s: State, handle: Handle) {
    handle in s.blobs && s.blobs[handle].write && !s.blobs[handle].finished
  }

  function WriteBlob(s: State, handle: Handle, offset: nat, input: seq<Byte>): Outcome {
    if !Streaming(s, handle) then Refused(s, InvalidState)
    else
      var blob := s.blobs[handle];
      if offset != blob.written || offset + |input| > |blob.value| then Refused(s, InvalidState)
      else
        var value := blob.value[..offset] + input + blob.value[offset + |input|..];
        Outcome(s.(blobs := s.blobs[handle := blob.(value := value, written := offset + |input|)]), Ok)
  }

  function CommitBlob(s: State, handle: Handle): Outcome {
    if !Streaming(s, handle) || s.blobs[handle].written != |s.blobs[handle].value| then Refused(s, InvalidState)
    else
      var blob := s.blobs[handle];
      var closed := s.(writerActive := false, blobs := s.blobs[handle := blob.(finished := true)]);
      if s.generation != blob.base then Outcome(closed, Conflict)
      else
        Outcome(
          closed.(current := s.current.(blobs := s.current.blobs[blob.key := blob.value]),
                  generation := s.generation + 1, commits := s.commits + 1), Ok)
  }

  function AbortBlob(s: State, handle: Handle): Outcome {
    if handle !in s.blobs then Refused(s, NotFound)
    else
      Outcome(
        s.(writerActive := s.writerActive && !Streaming(s, handle),
           blobs := s.blobs[handle := s.blobs[handle].(finished := true)]), Ok)
  }

  function CloseBlob(s: State, handle: Handle): Outcome {
    if handle !in s.blobs then Refused(s, NotFound)
    else Outcome(s.(writerActive := s.writerActive && !Streaming(s, handle), blobs := s.blobs - {handle}), Ok)
  }

  // ---------------------------------------------------------------------
  // Cursors
  // ---------------------------------------------------------------------

  /** A cursor is opened on a read transaction and copies what it will deliver. */
  function OpenCursor(s: State, handle: Handle, prefix: Key): Outcome {
    if handle !in s.transactions || s.transactions[handle].finished || s.transactions[handle].write
    then Refused(s, InvalidState)
    else
      Outcome(
        s.(cursors := s.cursors[s.next := CursorState(WithPrefix(Entries(s.transactions[handle].values), prefix), 0)],
           next := s.next + 1), Ok)
  }

  predicate AtEnd(s: State, handle: Handle) {
    handle !in s.cursors || s.cursors[handle].position >= |s.cursors[handle].entries|
  }

  function NextEntry(s: State, handle: Handle): Entry
    requires !AtEnd(s, handle)
  {
    s.cursors[handle].entries[s.cursors[handle].position]
  }

  /** An entry that does not fit the buffers stays where it is; a handle that is not, or
      no longer, open answers like a cursor at its end. */
  function NextCursor(s: State, handle: Handle, keyRoom: nat, valueRoom: nat): Outcome {
    if AtEnd(s, handle) then Refused(s, NotFound)
    else if |NextEntry(s, handle).key| > keyRoom || |NextEntry(s, handle).value| > valueRoom then Refused(s, BufferTooSmall)
    else
      var cursor := s.cursors[handle];
      Outcome(s.(cursors := s.cursors[handle := cursor.(position := cursor.position + 1)]), Ok)
  }

  function CloseCursor(s: State, handle: Handle): Outcome {
    if handle !in s.cursors then Refused(s, NotFound) else Outcome(s.(cursors := s.cursors - {handle}), Ok)
  }

  // ---------------------------------------------------------------------
  // Reset, rollback, stop
  // ---------------------------------------------------------------------

  predicate EntryAllowed(limits: Limits, entry: Entry) {
    entry.key != [] && |entry.key| <= limits.maxKey && |entry.value| <= limits.maxValue
  }

  /** The map of the entries, when each is allowed and no key comes twice. */
  function Replacement(limits: Limits, entries: seq<Entry>): Option<Values> {
    if entries == [] then Some(map[])
    else
      var before := Replacement(limits, entries[..|entries| - 1]);
      var last := entries[|entries| - 1];
      if before.None? || !EntryAllowed(limits, last) || last.key in before.value then None
      else Some(before.value[last.key := last.value])
  }

  function Reset(limits: Limits, s: State, access: Access, entries: seq<Entry>): Outcome {
    if access.Unopened? then Refused(s, NotFound)
    else if access.ReadOnly? then Refused(s, PermissionDenied)
    else if s.writerActive || s.migration.id != "" then Refused(s, Busy)
    else
      match Replacement(limits, entries)
      case None => Refused(s, InvalidArgument)
      case Some(values) =>
        if !Fits(limits, values, map[]) then Refused(s, QuotaExceeded)
        else
          Outcome(
            s.(current := s.current.(values := values, blobs := map[]), generation := s.generation + 1,
               commits := s.commits + 1), Ok)
  }

  /** A rollback looks neither at the writer nor at a migration in progress. */
  function Rollback(s: State, access: Access): Outcome {
    if access.Unopened? then Refused(s, NotFound)
    else if access.ReadOnly? then Refused(s, PermissionDenied)
    else if s.rollback.None? then Refused(s, NotFound)
    else
      Outcome(
        s.(current := s.rollback.value, rollback := None, generation := s.generation + 1, commits := s.commits + 1), Ok)
  }

  /** The unfinished writers. */
  function Writers(s: State): set<Handle> {
    (set h <- s.transactions | Writable(s, h)) + (set h <- s.blobs | Streaming(s, h))
  }

  /** Stopping the provider drops every handle and keeps the store. */
  function Stop(s: State): Outcome {
    Outcome(
      s.(writerActive := s.writerActive && Writers(s) == {},
         transactions := map[], blobs := map[], cursors := map[], migrations := {},
         migration := s.migration.(handleActive := s.migration.handleActive && s.migrations == {})), Ok)
  }

  // ---------------------------------------------------------------------
  // Migration
  // ---------------------------------------------------------------------

  /** `room` is the size of the caller's checkpoint buffer. */
  function BeginMigration(s: State, access: Access, id: string, source: Schema, target: Schema, room: nat): Outcome {
    if id == "" || target.id == "" || target.version == 0 then Refused(s, InvalidArgument)
    else if access.Unopened? then Refused(s, NotFound)
    else if access.ReadOnly? then Refused(s, PermissionDenied)
    else if s.writerActive || s.migration.handleActive then Refused(s, Busy)
    else if s.migration.id != "" && !(s.migration.id == id && s.migration.source == source && s.migration.target == target)
    then Refused(s, Conflict)
    else if s.migration.id == "" && source != s.current.schema then Refused(s, Conflict)
    else
      var m := if s.migration.id != "" then s.migration
               else Migration(id, s.current.schema, target, s.generation, map[], [], 0, false);
      if room < |m.checkpoint| then Outcome(s.(migration := m), BufferTooSmall)
      else
        Outcome(
          s.(migration := m.(handleActive := true), migrations := s.migrations + {s.next}, next := s.next + 1), Ok)
  }

  function ApplyMigration(limits: Limits, s: State, handle: Handle, source: Key, target: Option<Entry>): Outcome {
    var m := s.migration;
    if source == [] then Refused(s, InvalidArgument)
    else if handle !in s.migrations then Refused(s, NotFound)
    else if m.checkpoint != [] && !Less(m.checkpoint, source) then Refused(s, Conflict)
    else if target.Some? && !EntryAllowed(limits, target.value) then Refused(s, InvalidArgument)
    else
      var candidate := if target.Some? then m.values[target.value.key := target.value.value] else m.values;
      if !Fits(limits, candidate, map[]) then Refused(s, QuotaExceeded)
      else Outcome(s.(migration := m.(values := candidate, checkpoint := source, processed := m.processed + 1)), Ok)
  }

  function CommitMigration(s: State, handle: Handle): Outcome {
    var m := s.migration;
    if handle !in s.migrations then Refused(s, NotFound)
    else if s.generation != m.sourceGeneration then Refused(s, Conflict)
    else
      Outcome(
        s.(rollback := Some(s.current), current := s.current.(values := m.values, schema := m.target),
           migration := m.(id := "", values := map[], checkpoint := [], handleActive := false),
           generation := s.generation + 1, commits := s.commits + 1), Ok)
  }

  function AbortMigration(s: State, handle: Handle): Outcome {
    if handle !in s.migrations then Refused(s, NotFound)
    else Outcome(s.(migration := s.migration.(handleActive := false)), Ok)
  }

  function CloseMigration(s: State, handle: Handle): Outcome {
    if handle !in s.migrations then Refused(s, NotFound)
    else Outcome(s.(migration := s.migration.(handleActive := false), migrations := s.migrations - {handle}), Ok)
  }

  // ---------------------------------------------------------------------
  // Any call
  // ---------------------------------------------------------------------

  datatype Call =
    | BeginCall(access: Access, write: bool, expected: Option<nat>)
    | PutCall(handle: Handle, key: Key, value: seq<Byte>)
    | EraseCall(handle: Handle, key: Key)
    | CommitCall(handle: Handle)
    | AbortCall(handle: Handle)
    | CloseTransactionCall(handle: Handle)
    | OpenBlobReadCall(access: Access, key: Key)
    | BeginBlobReplaceCall(access: Access, key: Key, size: nat)
    | WriteBlobCall(handle: Handle, offset: nat, input: seq<Byte>)
    | CommitBlobCall(handle: Handle)
    | AbortBlobCall(handle: Handle)
    | CloseBlobCall(handle: Handle)
    | OpenCursorCall(handle: Handle, prefix: Key)
    | NextCursorCall(handle: Handle, keyRoom: nat, valueRoom: nat)
    | CloseCursorCall(handle: Handle)
    | ResetCall(access: Access, entries: seq<Entry>)
    | RollbackCall(access: Access)
    | StopCall
    | BeginMigrationCall(access: Access, id: string, source: Schema, target: Schema, room: nat)
    | ApplyMigrationCall(handle: Handle, sourceKey: Key, entry: Option<Entry>)
    | CommitMigrationCall(handle: Handle)
    | AbortMigrationCall(handle: Handle)
    | CloseMigrationCall(handle: Handle)

  predicate OnTransactions(call: Call) {
    call.BeginCall? || call.PutCall? || call.EraseCall? || call.CommitCall? || call.AbortCall? || call.CloseTransactionCall?
  }

  predicate OnBlobs(call: Call) {
    call.OpenBlobReadCall? || call.BeginBlobReplaceCall? || call.WriteBlobCall? || call.CommitBlobCall? ||
    call.AbortBlobCall? || call.CloseBlobCall?
  }

  predicate OnCursors(call: Call) {
    call.OpenCursorCall? || call.NextCursorCall? || call.CloseCursorCall?
  }

  predicate OnMigrations(call: Call) {
    call.BeginMigrationCall? || call.ApplyMigrationCall? || call.CommitMigrationCall? || call.AbortMigrationCall? ||
    call.CloseMigrationCall?
  }

  function Perform(limits: Limits, s: State, call: Call): Outcome {
    match call
    case BeginCall(access, write, expected) => Begin(limits, s, access, write, expected)
    case PutCall(handle, key, value) => Put(limits, s, handle, key, value)
    case EraseCall(handle, key) => Erase(s, handle, key)
    case CommitCall(handle) => Commit(s, handle)
    case AbortCall(handle) => Abort(s, handle)
    case CloseTransactionCall(handle) => CloseTransaction(s, handle)
    case OpenBlobReadCall(access, key) => OpenBlobRead(s, access, key)
    case BeginBlobReplaceCall(access, key, size) => BeginBlobReplace(limits, s, access, key, size)
    case WriteBlobCall(handle, offset, input) => WriteBlob(s, handle, offset, input)
    case CommitBlobCall(handle) => CommitBlob(s, handle)
    case AbortBlobCall(handle) => AbortBlob(s, handle)
    case CloseBlobCall(handle) => CloseBlob(s, handle)
    case OpenCursorCall(handle, prefix) => OpenCursor(s, handle, prefix)
    case NextCursorCall(handle, keyRoom, valueRoom) => NextCursor(s, handle, keyRoom, valueRoom)
    case CloseCursorCall(handle) => CloseCursor(s, handle)
    case ResetCall(access, entries) => Reset(limits, s, access, entries)
    case RollbackCall(access) => Rollback(s, access)
    case StopCall => Stop(s)
    case BeginMigrationCall(access, id, source, target, room) => BeginMigration(s, access, id, source, target, room)
    case ApplyMigrationCall(handle, source, entry) => ApplyMigration(limits, s, handle, source, entry)
    case CommitMigrationCall(handle) => CommitMigration(s, handle)
    case AbortMigrationCall(handle) => AbortMigration(s, handle)
    case CloseMigrationCall(handle) => CloseMigration(s, handle)
  }
}
