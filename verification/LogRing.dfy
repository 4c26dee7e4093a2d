/** The log runtime's ring buffer with a reserve for critical records. */
module LogRing {
  import opened Wrappers
  import opened Bytes

  datatype Level = Fatal | Error | Warning | Info | Debug | Trace

  function Severity(level: Level): nat {
    match level
    case Fatal => 0
    case Error => 1
    case Warning => 2
    case Info => 3
    case Debug => 4
    case Trace => 5
  }

  predicate IsCritical(level: Level) {
    level == Fatal || level == Error
  }

  /** Fatal and error are critical; a level lets through itself and everything graver. */
  lemma LevelsMean(wanted: Level, level: Level)
    ensures IsCritical(wanted) <==> wanted == Fatal || wanted == Error
    ensures Severity(wanted) <= Severity(level) <==> LetsThrough(level, wanted)
  {
  }

  ghost predicate LetsThrough(level: Level, wanted: Level) {
    match level
    case Fatal => wanted == Fatal
    case Error => wanted in {Fatal, Error}
    case Warning => wanted in {Fatal, Error, Warning}
    case Info => wanted in {Fatal, Error, Warning, Info}
    case Debug => wanted in {Fatal, Error, Warning, Info, Debug}
    case Trace => true
  }

  /** A record; `text` stands for everything the sink is given beside the level. */
  datatype Record = Record(level: Level, text: string)

  /** `Waits` is a critical producer that released the lock until there is room. */
  datatype WriteResult = Accepted | Filtered | Dropped | Invalid | ShuttingDown | Waits

  /** What the worker holds outside the lock. */
  datatype Hand = Empty | Holding(record: Record) | Handed

  // ---------------------------------------------------------------------
  // The ring as a queue
  // ---------------------------------------------------------------------

  function Slot(head: nat, i: nat, size: nat): (r: nat)
    requires size > 0
    ensures r < size
  {
    (head + i) % size
  }

  /** The queue that the ring stands for, oldest first. */
  function Contents(ring: seq<Record>, head: nat, count: nat): (r: seq<Record>)
    requires |ring| > 0
    ensures |r| == count
  {
    seq(count, i requires 0 <= i => ring[Slot(head, i, |ring|)])
  }

  /** A slot is reached with or without going round once. */
  lemma SlotIs(head: nat, i: nat, size: nat)
    requires head < size && i <= size
    ensures Slot(head, i, size) == if head + i < size then head + i else head + i - size
  {
    if head + i < size {
      Quotient(head + i, size, 0, head + i);
    } else {
      Quotient(head + i, size, 1, head + i - size);
    }
  }

  lemma SlotsDiffer(head: nat, i: nat, j: nat, size: nat)
    requires i < j < size && head < size
    ensures Slot(head, i, size) != Slot(head, j, size)
  {
    SlotIs(head, i, size);
    SlotIs(head, j, size);
  }

  lemma NextSlot(head: nat, i: nat, size: nat)
    requires head < size && i < size
    ensures (head + 1) % size < size && Slot((head + 1) % size, i, size) == Slot(head, i + 1, size)
    ensures (Slot(head, i, size) + 1) % size == Slot(head, i + 1, size)
  {
    SlotIs(head, 1, size);
    assert Slot(head, 1, size) == (head + 1) % size;
    SlotIs(Slot(head, 1, size), i, size);
    SlotIs(head, i, size);
    SlotIs(head, i + 1, size);
    SlotIs(Slot(head, i, size), 1, size);
  }

  lemma PushAtTail(ring: seq<Record>, head: nat, count: nat, record: Record)
    requires head < |ring| && count < |ring|
    ensures var tail := Slot(head, count, |ring|);
            Contents(ring[tail := record], head, count + 1) == Contents(ring, head, count) + [record]
  {
    hide Slot;
    var tail := Slot(head, count, |ring|);
    SlotInRange(head, count, |ring|);
    var after := Contents(ring[tail := record], head, count + 1);
    forall i | 0 <= i < count
      ensures after[i] == Contents(ring, head, count)[i]
    {
      SlotInRange(head, i, |ring|);
      SlotsDiffer(head, i, count, |ring|);
    }
  }

  lemma SlotInRange(head: nat, i: nat, size: nat)
    requires size > 0
    ensures Slot(head, i, size) < size
  {
  }

  lemma PopAtHead(ring: seq<Record>, head: nat, count: nat)
    requires 0 < count <= |ring| && head < |ring|
    ensures Contents(ring, head, count)[0] == ring[head]
    ensures Contents(ring, (head + 1) % |ring|, count - 1) == Contents(ring, head, count)[1..]
  {
    SlotIs(head, 0, |ring|);
    var before, after := Contents(ring, head, count), Contents(ring, (head + 1) % |ring|, count - 1);
    forall i | 0 <= i < |after|
      ensures after[i] == before[1..][i]
    {
      NextSlot(head, i, |ring|);
    }
  }

  // ---------------------------------------------------------------------
  // Ordinary and critical records
  // ---------------------------------------------------------------------

  function Ordinary(records: seq<Record>): nat {
    if records == [] then 0
    else Ordinary(records[..|records| - 1]) + if IsCritical(records[|records| - 1].level) then 0 else 1
  }

  function Critical(records: seq<Record>): nat {
    if records == [] then 0
    else Critical(records[..|records| - 1]) + if IsCritical(records[|records| - 1].level) then 1 else 0
  }

  lemma {:induction false} EveryRecordIsOne(records: seq<Record>)
    ensures Ordinary(records) + Critical(records) == |records|
    decreases |records|
  {
    if records != [] { EveryRecordIsOne(records[..|records| - 1]); }
  }

  lemma OrdinaryOneMore(records: seq<Record>, record: Record)
    ensures Ordinary(records + [record]) == Ordinary(records) + if IsCritical(record.level) then 0 else 1
  {
    assert (records + [record])[..|records|] == records;
  }

  lemma {:induction false} OrdinaryOneLess(records: seq<Record>)
    requires records != []
    ensures Ordinary(records[1..]) <= Ordinary(records)
    decreases |records|
  {
    if |records| > 1 {
      var front := records[..|records| - 1];
      OrdinaryOneLess(front);
      assert records[1..][..|records| - 2] == front[1..];
    }
  }

  // ---------------------------------------------------------------------
  // The runtime; every method is one region under the lock, or one call of the sink
  // ---------------------------------------------------------------------

  datatype Event =
    | Screens(record: Record, valid: bool)
    | Places(record: Record)
    | WakesUp(record: Record, expired: bool)
    | WorkerLooks
    | WorkerWrites(ok: bool)
    | WorkerReturns
    | SetsLevel(level: Level)
    | Stops

  class RuntimeState {
    const queue: array<Record>
    const reserve: nat
    var head: nat
    var tail: nat
    var count: nat
    var dispatching: bool
    var running: bool
    var finished: bool
    var level: Level
    var hand: Hand
    var written: seq<Record>
    var accepted: nat
    var filtered: nat
    var dropped: nat
    var invalid: nat
    var bindingErrors: nat
    ghost var history: seq<Record>

    function Queued(): (r: seq<Record>)
      requires queue.Length > 0
      reads this`head, this`count, queue
    {
      Contents(queue[..], head, count)
    }

    /** Every accepted record, in the order of acceptance, is written, in the worker's
        hand, or queued; ordinary records never take the reserve. */
    ghost predicate Valid()
      reads this, queue
    {
      && reserve < queue.Length && head < queue.Length && count <= queue.Length && tail == Slot(head, count, queue.Length)
      && history == written + (if hand.Holding? then [hand.record] else []) + Queued()
      && accepted == |history|
      && Ordinary(Queued()) <= queue.Length - reserve
      && dispatching == !hand.Empty?
      && (finished ==> count == 0 && !running && hand.Empty?)
    }

    constructor (capacity: nat, reserve: nat, level: Level)
      requires reserve < capacity
      ensures Valid() && fresh(queue) && queue.Length == capacity && this.reserve == reserve && running && history == []
    {
      queue := new Record[capacity](_ => Record(Trace, ""));
      this.reserve, this.level := reserve, level;
      head, tail, count := 0, 0, 0;
      dispatching, running, finished, hand := false, true, false, Empty;
      written, history := [], [];
      accepted, filtered, dropped, invalid, bindingErrors := 0, 0, 0, 0, 0;
    }

    predicate Enabled(wanted: Level)
      reads this`level
    {
      Severity(wanted) <= Severity(level)
    }

    /** Puts the record at the tail, when the runtime still runs. */
    method Enqueue(record: Record) returns (r: WriteResult)
      requires Valid() && count < queue.Length && (!IsCritical(record.level) ==> count < queue.Length - reserve)
      modifies this`tail, this`count, this`accepted, this`history, queue
      ensures Valid()
      ensures r == if running then Accepted else ShuttingDown
      ensures running ==> Queued() == old(Queued()) + [record] && history == old(history) + [record]
      ensures !running ==> Queued() == old(Queued()) && history == old(history)
    {
      hide Slot, Contents, Ordinary, Critical;
      if !running { return ShuttingDown; }
      ghost var before := Queued();
      ContentsLength(queue[..], head, count);
      PushAtTail(queue[..], head, count, record);
      OrdinaryOneMore(before, record);
      EveryRecordIsOne(before);
      NextSlot(head, count, queue.Length);
      SlotInRange(head, count, queue.Length);
      ghost var whole := queue[..];
      queue[tail] := record;
      assert queue[..] == whole[tail := record];
      tail := (tail + 1) % queue.Length;
      count := count + 1;
      accepted := accepted + 1;
      history := history + [record];
      return Accepted;
    }

    /** What a producer looks at before it takes the lock: nothing, if the record may go on. */
    method Screen(record: Record, valid: bool) returns (refused: Option<WriteResult>)
      requires Valid()
      modifies this`filtered, this`invalid
      ensures Valid()
      ensures refused == if !running then Some(ShuttingDown)
                         else if !Enabled(record.level) then Some(Filtered)
                         else if !valid then Some(Invalid)
                         else None
      ensures filtered == old(filtered) + (if refused == Some(Filtered) then 1 else 0)
      ensures invalid == old(invalid) + (if refused == Some(Invalid) then 1 else 0)
    {
      hide Ordinary, Contents, Slot;
      if !running { return Some(ShuttingDown); }
      if !Enabled(record.level) {
        filtered := filtered + 1;
        return Some(Filtered);
      }
      if !valid {
        invalid := invalid + 1;
        return Some(Invalid);
      }
      return None;
    }

    /** What a level may take of the ring. */
    function Share(wanted: Level): nat
      reads this
      requires reserve < queue.Length
    {
      if IsCritical(wanted) then queue.Length else queue.Length - reserve
    }

    /** The part of a submission under the lock; the level may have changed since the record
        was screened, and the runtime may have been stopped.  The queue is looked at first. */
    method Place(record: Record) returns (r: WriteResult)
      requires Valid()
      modifies this`tail, this`count, this`accepted, this`dropped, this`history, queue
      ensures Valid()
      ensures r == if old(count) >= Share(record.level) then (if IsCritical(record.level) then Waits else Dropped)
                   else if running then Accepted else ShuttingDown
      ensures dropped == old(dropped) + (if r.Dropped? then 1 else 0)
      ensures r.Accepted? ==> Queued() == old(Queued()) + [record] && history == old(history) + [record]
      ensures !r.Accepted? ==> Queued() == old(Queued()) && history == old(history)
      ensures running && IsCritical(record.level) && Critical(old(Queued())) < reserve ==> r.Accepted?
    {
      hide Ordinary, Critical, Contents, Slot;
      ContentsLength(queue[..], head, count);
      EveryRecordIsOne(Queued());
      if count >= Share(record.level) {
        if !IsCritical(record.level) {
          dropped := dropped + 1;
          return Dropped;
        }
        return Waits;
      }
      r := Enqueue(record);
    }

    /** A submission that nothing comes between. */
    method Submit(record: Record, valid: bool) returns (r: WriteResult)
      requires Valid()
      modifies this`tail, this`count, this`accepted, this`filtered, this`dropped, this`invalid, this`history, queue
      ensures Valid()
      ensures r.Accepted? <==> running && Enabled(record.level) && valid && old(count) < old(Share(record.level))
      ensures r.Accepted? <==>
              && running && valid && LetsThrough(level, record.level)
              && old(count) < if record.level == Fatal || record.level == Error then queue.Length else queue.Length - reserve
      ensures r.Accepted? ==> Queued() == old(Queued()) + [record] && history == old(history) + [record]
      ensures !r.Accepted? ==> Queued() == old(Queued()) && history == old(history)
      ensures running && Enabled(record.level) && valid && IsCritical(record.level) && Critical(old(Queued())) < reserve ==> r.Accepted?
    {
      hide Ordinary, Critical, Contents, Slot, Severity;
      LevelsMean(record.level, level);
      var refused := Screen(record, valid);
      if refused.Some? { return refused.value; }
      r := Place(record);
    }

    /** A waiting producer looks again, having been woken or having waited too long. */
    method WakeUp(record: Record, expired: bool) returns (r: WriteResult)
      requires Valid() && IsCritical(record.level)
      modifies this`tail, this`count, this`accepted, this`dropped, this`history, queue
      ensures Valid()
      ensures r.Accepted? <==> running && old(count) < queue.Length
      ensures r.Accepted? ==> Queued() == old(Queued()) + [record] && history == old(history) + [record]
      ensures !r.Accepted? ==> Queued() == old(Queued()) && history == old(history)
      ensures r.Dropped? <==> expired && running && old(count) == queue.Length
    {
      if count < queue.Length {
        r := Enqueue(record);
      } else if !running {
        r := ShuttingDown;
      } else if expired {
        dropped := dropped + 1;
        r := Dropped;
      } else {
        r := Waits;
      }
    }

    /** The worker takes the oldest record, waits, or ends. */
    method Look()
      requires Valid() && hand.Empty? && !finished
      modifies this`head, this`count, this`dispatching, this`hand, this`finished
      ensures Valid() && history == old(history) && written == old(written)
      ensures finished <==> old(count) == 0 && !running
      ensures old(count) > 0 ==> hand == Holding(old(Queued())[0]) && Queued() == old(Queued())[1..]
    {
      hide Slot, Contents, Ordinary;
      ContentsLength(queue[..], head, count);
      if count == 0 {
        finished := !running;
        return;
      }
      ghost var before := Queued();
      PopAtHead(queue[..], head, count);
      OrdinaryOneLess(before);
      NextSlot(head, count - 1, queue.Length);
      SlotInRange(head, 1, queue.Length);
      assert before == [before[0]] + before[1..];
      assert written + [] + before == written + [before[0]] + before[1..];
      assert tail == Slot((head + 1) % queue.Length, count - 1, queue.Length);
      hand, head, count, dispatching := Holding(queue[head]), (head + 1) % queue.Length, count - 1, true;
    }

    /** The sink is called without the lock; whatever it answers, it was given the record. */
    method WriteRecord(ok: bool)
      requires Valid() && hand.Holding?
      modifies this`written, this`hand, this`bindingErrors
      ensures Valid() && history == old(history) && written == old(written) + [old(hand).record] && hand == Handed
    {
      hide Slot, Contents, Ordinary;
      if !ok { bindingErrors := bindingErrors + 1; }
      written := written + [hand.record];
      hand := Handed;
    }

    method ReturnToLock()
      requires Valid() && hand.Handed?
      modifies this`dispatching, this`hand
      ensures Valid() && hand.Empty? && history == old(history)
    {
      dispatching := false;
      hand := Empty;
    }

    method Stop()
      requires Valid()
      modifies this`running
      ensures Valid() && !running
    {
      running := false;
    }

    method Step(event: Event)
      requires Valid()
      modifies this, queue
      ensures Valid() && old(history) <= history && old(written) <= written
      ensures old(finished) ==> finished && history == old(history)
    {
      hide Slot, Contents, Ordinary, Critical, Severity;
      match event {
        case Screens(record, valid) => var _ := Screen(record, valid);
        case Places(record) => var _ := Place(record);
        case WakesUp(record, expired) =>
          if IsCritical(record.level) { var _ := WakeUp(record, expired); }
        case WorkerLooks =>
          if hand.Empty? && !finished { Look(); }
        case WorkerWrites(ok) =>
          if hand.Holding? { WriteRecord(ok); }
        case WorkerReturns =>
          if hand.Handed? { ReturnToLock(); }
        case SetsLevel(wanted) => level := wanted;
        case Stops => Stop();
      }
    }

    /** Any interleaving of producers, the worker and the owner. */
    method Run(schedule: seq<Event>)
      requires Valid()
      modifies this, queue
      ensures Valid() && old(history) <= history
      ensures written <= history && accepted == |written| + (if hand.Holding? then 1 else 0) + |Queued()|
      ensures finished || (count == 0 && !dispatching) ==> written == history
    {
      hide Valid;
      for k := 0 to |schedule|
        invariant Valid() && old(history) <= history
      {
        Step(schedule[k]);
      }
      NothingIsLost(this);
    }
  }

  lemma ContentsLength(ring: seq<Record>, head: nat, count: nat)
    requires |ring| > 0
    ensures |Contents(ring, head, count)| == count
  {
  }

  /** A queue, in every reachable state: what was written is what was accepted first, in
      that order and once each; nothing is missing once the queue is empty and the worker
      is idle, and so when the worker has ended. */
  lemma NothingIsLost(r: RuntimeState)
    requires r.Valid()
    ensures r.queue.Length > 0
    ensures r.written <= r.history && r.accepted == |r.written| + (if r.hand.Holding? then 1 else 0) + |r.Queued()|
    ensures r.finished || (r.count == 0 && !r.dispatching) ==> r.written == r.history
  {
    hide Ordinary, Slot, Contents;
    ContentsLength(r.queue[..], r.head, r.count);
    if r.count == 0 && !r.dispatching {
      assert r.Queued() == [];
      assert r.written + [] + [] == r.written;
    }
  }
}
