/** Reading a cursor as a client does. */
module Cursors {
  import opened Bytes
  import opened KeyOrder
  import opened Store
  import opened MemoryStore

  datatype Reading = Finished | Delivered(entry: Entry) | Failed(status: Status)

  /** Asks for the sizes with no room at all, then reads.  A cursor that is no longer open
      looks finished.  Exactly an entry with an empty key and an empty value is lost: the
      question takes it. */
  method Next(store: MemoryStore, cursor: Handle) returns (r: Reading)
    requires CursorsInRange(store.View())
    modifies store`cursors
    ensures CursorsInRange(store.View())
    ensures r.Finished? <==> AtEnd(old(store.View()), cursor)
    ensures r.Finished? ==> store.cursors == old(store.cursors)
    ensures !r.Finished? ==>
            var c := old(store.cursors)[cursor];
            store.cursors == old(store.cursors)[cursor := c.(position := c.position + 1)]
    ensures r.Delivered? ==> r.entry == NextEntry(old(store.View()), cursor)
    ensures r.Failed? <==> !AtEnd(old(store.View()), cursor) && NextEntry(old(store.View()), cursor) == Entry([], [])
  {
    var status, keySize, valueSize, entry := store.Advance(cursor, 0, 0);
    if status.NotFound? { return Finished; }
    if !status.BufferTooSmall? { return Failed(status); }
    status, keySize, valueSize, entry := store.Advance(cursor, keySize, valueSize);
    return Delivered(entry);
  }

  /** Reading a cursor to its end delivers every entry with the prefix that the read
      transaction sees exactly once, in key order; the entry that could be lost cannot be
      there, since keys are not empty. */
  method ReadAll(store: MemoryStore, handle: Handle, prefix: Key) returns (status: Status, read: seq<Entry>)
    requires CursorsInRange(store.View())
    requires handle in store.transactions ==> [] !in store.transactions[handle].values
    modifies store
    ensures status == OpenCursor(old(store.View()), handle, prefix).status
    ensures status.Ok? ==> handle in old(store.transactions) && read == WithPrefix(Entries(old(store.transactions)[handle].values), prefix)
    ensures store.View().current == old(store.View().current) && store.transactions == old(store.transactions)
  {
    hide Entries, WithPrefix, HasPrefix;
    NewCursorInRange(store.limits, store.View(), OpenCursorCall(handle, prefix));
    var cursor;
    status, cursor := store.BeginScan(handle, prefix);
    read := [];
    if !status.Ok? { return; }
    FoundKeysAreNotEmpty(store.transactions[handle].values, prefix);
    read := Drain(store, cursor);
    var _ := store.EndScan(cursor);
  }

  /** Reads what a cursor has left. */
  method Drain(store: MemoryStore, cursor: Handle) returns (read: seq<Entry>)
    requires CursorsInRange(store.View()) && cursor in store.cursors && store.cursors[cursor].position == 0
    requires forall i :: 0 <= i < |store.cursors[cursor].entries| ==> store.cursors[cursor].entries[i].key != []
    modifies store`cursors
    ensures CursorsInRange(store.View()) && cursor in store.cursors && read == old(store.cursors[cursor].entries)
  {
    hide CursorsInRange;
    read := [];
    ghost var found := store.cursors[cursor].entries;
    while true
      invariant CursorsInRange(store.View()) && cursor in store.cursors && store.cursors[cursor].entries == found
      invariant store.cursors[cursor].position <= |found| && read == found[..store.cursors[cursor].position]
      decreases |found| - store.cursors[cursor].position
    {
      var next := Next(store, cursor);
      if next.Finished? { break; }
      assert !next.Failed?;
      read := read + [next.entry];
    }
    assert found[..|found|] == found;
  }

  lemma FoundKeysAreNotEmpty(values: Values, prefix: Key)
    requires [] !in values
    ensures forall i :: 0 <= i < |WithPrefix(Entries(values), prefix)| ==> WithPrefix(Entries(values), prefix)[i].key != []
  {
    hide Entries, HasPrefix, WithPrefix;
    EntriesAreOrdered(values);
    WithPrefixMeans(Entries(values), prefix);
    var found := WithPrefix(Entries(values), prefix);
    forall i | 0 <= i < |found|
      ensures found[i].key != []
    {
      assert found[i] in Entries(values);
    }
  }
}
