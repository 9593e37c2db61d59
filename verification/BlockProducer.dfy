/** internal/block_producers/block_producer.ts: delivered blocks are queued and drained into the collection. */
module BlockProducers {
  import opened Chain
  import opened Queues
  import opened ProducedBlocks
  import opened RestartPoints

  /** What lies between two steps of the event loop. `inserting` holds one block for every drain that is waiting
      for its insertion to settle; `lastDrainFailed` remembers how the latest drain ended; `restarting` says that a
      restart of the producer is under way. */
  datatype State = State(
    queue: seq<ProducedBlock>, inProcess: bool, inserting: seq<ProducedBlock>, store: Store, lastDrainFailed: bool,
    restarting: bool)

  datatype Event =
    | Delivered(partition: int, block: ProducedBlock)
      // The insertion of one drain settles, after `faults` attempts were failed by the database itself.
    | Settled(drain: nat, faults: nat)
      // The producer has been stopped and started again.
    | Restarted

  /** Up to five attempts; a duplicate height fails every one of them. */
  function AddWithRetry(store: Store, block: ProducedBlock, depth: nat, faults: nat, retryCount: nat): Option<Store>
    requires retryCount <= 4
    decreases 4 - retryCount
  {
    var attempt := if faults > 0 then None else Add(store, block, depth);
    if attempt.Some? then attempt
    else if retryCount < 4 then
      AddWithRetry(store, block, depth, if faults > 0 then faults - 1 else 0, retryCount + 1)
    else None
  }

  lemma {:induction false} AddWithRetryOutcome(store: Store, block: ProducedBlock, depth: nat, faults: nat,
                                               retryCount: nat)
    requires retryCount <= 4
    ensures AddWithRetry(store, block, depth, faults, retryCount)
            == if faults + retryCount <= 4 then Add(store, block, depth) else None
    decreases 4 - retryCount
  {
    if retryCount < 4 {
      AddWithRetryOutcome(store, block, depth, if faults > 0 then faults - 1 else 0, retryCount + 1);
    }
  }

  /** How many entries the drain takes off a non-empty queue at once. */
  function Batch(length: nat, depth: nat): nat {
    if length > depth then length - depth else 1
  }

  /** The drain loop from its head to its next wait. */
  function Drained(s: State, depth: nat): State {
    if s.queue == [] then s.(inProcess := false, lastDrainFailed := false)
    else
      var batch := Batch(|s.queue|, depth);
      s.(queue := s.queue[batch..], inserting := s.inserting + [s.queue[batch - 1]])
  }

  predicate Enabled(s: State, e: Event) {
    match e
    case Delivered(_, _) => true
    case Settled(drain, _) => drain < |s.inserting|
    case Restarted => s.restarting
  }

  function Without<T>(s: seq<T>, i: nat): seq<T>
    requires i < |s|
  {
    s[..i] + s[i + 1..]
  }

  function Next(s: State, e: Event, depth: nat): State
    requires Enabled(s, e)
  {
    match e
    case Delivered(partition, block) =>
      if partition == -1 then s.(restarting := true)
      else
        var queued := s.(queue := s.queue + [block]);
        if s.inProcess then queued else Drained(queued.(inProcess := true), depth)
    case Settled(drain, faults) =>
      var result := AddWithRetry(s.store, s.inserting[drain], depth, faults, 0);
      var rest := s.(inserting := Without(s.inserting, drain));
      if result.Some? then Drained(rest.(store := result.value), depth)
      else rest.(inProcess := false, lastDrainFailed := true)
    case Restarted => s.(restarting := false)
  }

  ghost predicate Feasible(s: State, events: seq<Event>, depth: nat)
    decreases |events|
  {
    events != [] ==> Enabled(s, events[0]) && Feasible(Next(s, events[0], depth), events[1..], depth)
  }

  function Run(s: State, events: seq<Event>, depth: nat): State
    requires Feasible(s, events, depth)
    decreases |events|
  {
    if events == [] then s else Run(Next(s, events[0], depth), events[1..], depth)
  }

  function Idle(store: Store): State {
    State([], false, [], store, false, false)
  }

  // ---- One drain at a time, and none forgotten ----

  /** At most one drain is active; when none is, nothing waits unless the last one ended in a failure. */
  ghost predicate Exclusive(s: State) {
    && |s.inserting| == (if s.inProcess then 1 else 0)
    && (!s.inProcess && s.queue != [] ==> s.lastDrainFailed)
  }

  lemma StepExclusive(s: State, e: Event, depth: nat)
    requires Exclusive(s) && Enabled(s, e)
    ensures Exclusive(Next(s, e, depth))
  {
  }

  lemma {:induction false} OneDrainAtATime(s: State, events: seq<Event>, depth: nat)
    requires Exclusive(s) && Feasible(s, events, depth)
    ensures Exclusive(Run(s, events, depth))
    decreases |events|
  {
    if events != [] {
      StepExclusive(s, events[0], depth);
      OneDrainAtATime(Next(s, events[0], depth), events[1..], depth);
    }
  }

  /** After a failed insertion the next delivery sets the drain going again. */
  lemma DeliveryResumesDrain(store: Store, events: seq<Event>, partition: int, block: ProducedBlock, depth: nat)
    requires Feasible(Idle(store), events, depth) && partition != -1
    ensures var s := Next(Run(Idle(store), events, depth), Delivered(partition, block), depth);
            s.inProcess && |s.inserting| == 1
  {
    OneDrainAtATime(Idle(store), events, depth);
  }

  // ---- Failed deliveries ----

  /** Whether a delivery has failed since the producer was last restarted, or since the beginning. */
  function DeliveryFailed(events: seq<Event>): bool
    decreases |events|
  {
    if events == [] then false
    else
      var last, before := events[|events| - 1], events[..|events| - 1];
      (last.Delivered? && last.partition == -1) || (!last.Restarted? && DeliveryFailed(before))
  }

  lemma {:induction false} FailedDeliveryRestarts(s: State, events: seq<Event>, before: seq<Event>, depth: nat)
    requires Feasible(s, events, depth) && s.restarting == DeliveryFailed(before)
    ensures Run(s, events, depth).restarting == DeliveryFailed(before + events)
    decreases |events|
  {
    if events == [] {
      assert before + events == before;
    } else {
      assert (before + [events[0]])[..|before|] == before;
      FailedDeliveryRestarts(Next(s, events[0], depth), events[1..], before + [events[0]], depth);
      assert before + [events[0]] + events[1..] == before + events;
    }
  }

  /** In every run: the producer is being restarted exactly when a delivery has failed since the last restart. */
  lemma RestartingAfterFailedDelivery(store: Store, events: seq<Event>, depth: nat)
    requires Feasible(Idle(store), events, depth)
    ensures Run(Idle(store), events, depth).restarting == DeliveryFailed(events)
  {
    FailedDeliveryRestarts(Idle(store), events, [], depth);
    assert [] + events == events;
  }

  // ---- Batched recording is one-by-one recording ----

  function Deliveries(events: seq<Event>): seq<ProducedBlock>
    decreases |events|
  {
    if events == [] then []
    else (if events[0].Delivered? && events[0].partition != -1 then [events[0].block] else []) + Deliveries(events[1..])
  }

  ghost predicate AllInsertionsSucceed(events: seq<Event>) {
    forall i :: 0 <= i < |events| && events[i].Settled? ==> events[i].faults <= 4
  }

  /** Everything delivered whose record is still to come, oldest first. */
  function Pending(s: State): seq<ProducedBlock> {
    s.inserting + s.queue
  }

  /** Recording the rest one by one, from any point of the run, gives one and the same store. */
  lemma DrainKeepsOutcome(s: State, later: seq<ProducedBlock>, depth: nat)
    requires s.inserting == []
    requires Rising(s.queue + later) && Above(s.store, s.queue + later)
    ensures var s' := Drained(s, depth);
            && s'.store == s.store
            && Recorded(s'.store, Pending(s') + later, depth) == Recorded(s.store, s.queue + later, depth)
            && Rising(Pending(s') + later) && Above(s'.store, Pending(s') + later)
  {
    var all := s.queue + later;
    if s.queue == [] {
      assert Pending(Drained(s, depth)) + later == all;
    } else {
      var skipped := Batch(|s.queue|, depth) - 1;
      assert Pending(Drained(s, depth)) + later == all[skipped..];
      if skipped > 0 {
        SkippingPrunedBlocks(s.store, all, skipped, depth);
      } else {
        assert all[skipped..] == all;
      }
      assert forall i :: 0 <= i < |all[skipped..]| ==> all[skipped..][i] == all[skipped + i];
    }
  }

  lemma StepKeepsOutcome(s: State, e: Event, later: seq<ProducedBlock>, depth: nat)
    requires Exclusive(s) && Enabled(s, e) && (e.Settled? ==> e.faults <= 4)
    requires Rising(Pending(s) + Deliveries([e]) + later) && Above(s.store, Pending(s) + Deliveries([e]) + later)
    ensures var s' := Next(s, e, depth);
            && Recorded(s'.store, Pending(s') + later, depth)
               == Recorded(s.store, Pending(s) + Deliveries([e]) + later, depth)
            && Rising(Pending(s') + later) && Above(s'.store, Pending(s') + later)
  {
    match e
    case Delivered(partition, block) =>
      assert Deliveries([e]) == if partition == -1 then [] else [block];
      if partition == -1 {
        assert Pending(s) + [] + later == Pending(Next(s, e, depth)) + later;
      } else if s.inProcess {
        assert Pending(s) + [block] + later == Pending(Next(s, e, depth)) + later;
      } else {
        assert Pending(s) + [block] == s.queue + [block];
        DrainKeepsOutcome(s.(queue := s.queue + [block], inProcess := true), later, depth);
      }
    case Settled(drain, faults) =>
      assert Deliveries([e]) == [];
      var all := Pending(s) + [] + later;
      var block := s.inserting[0];
      assert all[0] == block && all[1..] == s.queue + later;
      assert s.inserting == [block];
      assert block.number !in s.store;
      AddWithRetryOutcome(s.store, block, depth, faults, 0);
      var store' := Add(s.store, block, depth).value;
      assert Rising(s.queue + later) && Above(store', s.queue + later) by {
        assert forall i :: 0 <= i < |all[1..]| ==> all[1..][i] == all[i + 1];
      }
      DrainKeepsOutcome(s.(inserting := [], store := store'), later, depth);
    case Restarted =>
      assert Deliveries([e]) == [];
      assert Pending(s) + [] + later == Pending(Next(s, e, depth)) + later;
  }

  lemma DeliveriesSplit(events: seq<Event>)
    requires events != []
    ensures Deliveries(events) == Deliveries([events[0]]) + Deliveries(events[1..])
  {
    assert [events[0]][1..] == [];
  }

  lemma StepRemembersNoFailure(s: State, e: Event, later: seq<ProducedBlock>, depth: nat)
    requires Exclusive(s) && Enabled(s, e) && (e.Settled? ==> e.faults <= 4)
    requires Above(s.store, Pending(s) + later)
    ensures Next(s, e, depth).lastDrainFailed ==> s.lastDrainFailed
  {
    if e.Settled? {
      assert s.inserting[0] == (Pending(s) + later)[0];
      AddWithRetryOutcome(s.store, s.inserting[0], depth, e.faults, 0);
    }
  }

  lemma PendingSplit(s: State, events: seq<Event>)
    requires events != []
    ensures Pending(s) + Deliveries(events) == Pending(s) + Deliveries([events[0]]) + Deliveries(events[1..])
  {
    DeliveriesSplit(events);
  }

  lemma FirstStepRecords(s: State, events: seq<Event>, depth: nat)
    requires events != [] && Exclusive(s) && Enabled(s, events[0]) && AllInsertionsSucceed(events)
    requires Rising(Pending(s) + Deliveries(events)) && Above(s.store, Pending(s) + Deliveries(events))
    ensures var s', rest := Next(s, events[0], depth), events[1..];
            && Recorded(s'.store, Pending(s') + Deliveries(rest), depth)
               == Recorded(s.store, Pending(s) + Deliveries(events), depth)
            && Rising(Pending(s') + Deliveries(rest)) && Above(s'.store, Pending(s') + Deliveries(rest))
  {
    PendingSplit(s, events);
    StepKeepsOutcome(s, events[0], Deliveries(events[1..]), depth);
  }

  lemma FirstStepKeepsOutcome(s: State, events: seq<Event>, depth: nat)
    requires events != [] && Exclusive(s) && Feasible(s, events, depth) && AllInsertionsSucceed(events)
    requires Rising(Pending(s) + Deliveries(events)) && Above(s.store, Pending(s) + Deliveries(events))
    ensures var s', rest := Next(s, events[0], depth), events[1..];
            && Recorded(s'.store, Pending(s') + Deliveries(rest), depth)
               == Recorded(s.store, Pending(s) + Deliveries(events), depth)
            && Rising(Pending(s') + Deliveries(rest)) && Above(s'.store, Pending(s') + Deliveries(rest))
            && Exclusive(s') && (s'.lastDrainFailed ==> s.lastDrainFailed)
  {
    FirstStepRecords(s, events, depth);
    StepRemembersNoFailure(s, events[0], Deliveries(events), depth);
    StepExclusive(s, events[0], depth);
  }

  lemma {:induction false} RunKeepsOutcome(s: State, events: seq<Event>, depth: nat)
    requires Exclusive(s) && Feasible(s, events, depth) && AllInsertionsSucceed(events)
    requires Rising(Pending(s) + Deliveries(events)) && Above(s.store, Pending(s) + Deliveries(events))
    ensures var end := Run(s, events, depth);
            && Recorded(end.store, Pending(end), depth) == Recorded(s.store, Pending(s) + Deliveries(events), depth)
            && (end.lastDrainFailed ==> s.lastDrainFailed)
    decreases |events|
  {
    if events == [] {
      assert Pending(s) + [] == Pending(s);
    } else {
      FirstStepKeepsOutcome(s, events, depth);
      RunKeepsOutcome(Next(s, events[0], depth), events[1..], depth);
    }
  }

  /** Whatever the interleaving of deliveries and insertions, once the queue has run empty the collection is what
      adding every delivered block in turn would have made it. */
  lemma BatchedEqualsOneByOne(store: Store, events: seq<Event>, depth: nat)
    requires Feasible(Idle(store), events, depth) && AllInsertionsSucceed(events)
    requires Rising(Deliveries(events)) && Above(store, Deliveries(events))
    ensures var end := Run(Idle(store), events, depth);
            !end.inProcess ==> end.queue == [] && end.store == Recorded(store, Deliveries(events), depth)
  {
    var end := Run(Idle(store), events, depth);
    assert Pending(Idle(store)) + Deliveries(events) == Deliveries(events);
    RunKeepsOutcome(Idle(store), events, depth);
    OneDrainAtATime(Idle(store), events, depth);
  }

  // ---- Insertions that fail for good ----

  predicate Succeeds(s: State, e: Event, depth: nat)
    requires Enabled(s, e)
  {
    e.Settled? && AddWithRetry(s.store, s.inserting[e.drain], depth, e.faults, 0).Some?
  }

  /** The blocks whose insertion succeeded, in order. */
  function Inserted(s: State, events: seq<Event>, depth: nat): seq<ProducedBlock>
    requires Feasible(s, events, depth)
    decreases |events|
  {
    if events == [] then []
    else
      (if Succeeds(s, events[0], depth) then [s.inserting[events[0].drain]] else [])
      + Inserted(Next(s, events[0], depth), events[1..], depth)
  }

  /** What a drain passes over when it takes its next block off the queue. */
  function PassedOver(queue: seq<ProducedBlock>, depth: nat): multiset<ProducedBlock> {
    if queue == [] then multiset{} else multiset(queue[..Batch(|queue|, depth) - 1])
  }

  /** The block whose insertion fails for good in a step, and those passed over in it. */
  function LeftOutBy(s: State, e: Event, depth: nat): multiset<ProducedBlock>
    requires Enabled(s, e)
  {
    match e
    case Delivered(partition, block) =>
      if partition == -1 || s.inProcess then multiset{} else PassedOver(s.queue + [block], depth)
    case Settled(drain, _) =>
      if Succeeds(s, e, depth) then PassedOver(s.queue, depth) else multiset{s.inserting[drain]}
    case Restarted => multiset{}
  }

  function LeftOut(s: State, events: seq<Event>, depth: nat): multiset<ProducedBlock>
    requires Feasible(s, events, depth)
    decreases |events|
  {
    if events == [] then multiset{}
    else LeftOutBy(s, events[0], depth) + LeftOut(Next(s, events[0], depth), events[1..], depth)
  }

  lemma StepInserts(s: State, e: Event, depth: nat)
    requires Enabled(s, e)
    ensures Next(s, e, depth).store
            == Recorded(s.store, if Succeeds(s, e, depth) then [s.inserting[e.drain]] else [], depth)
  {
    if e.Settled? {
      var block := s.inserting[e.drain];
      AddWithRetryOutcome(s.store, block, depth, e.faults, 0);
      LastOne(s.store, block, depth);
    }
  }

  lemma {:induction false} StoreIsWhatWasInserted(s: State, events: seq<Event>, depth: nat)
    requires Feasible(s, events, depth)
    ensures Run(s, events, depth).store == Recorded(s.store, Inserted(s, events, depth), depth)
    decreases |events|
  {
    if events != [] {
      var e, s', rest := events[0], Next(s, events[0], depth), events[1..];
      StepInserts(s, e, depth);
      StoreIsWhatWasInserted(s', rest, depth);
      var first := if Succeeds(s, e, depth) then [s.inserting[e.drain]] else [];
      RecordedSplit(s.store, first, Inserted(s', rest, depth), depth);
    }
  }

  lemma TakenApart(queue: seq<ProducedBlock>, batch: nat)
    requires 1 <= batch <= |queue|
    ensures multiset(queue) == multiset(queue[..batch - 1]) + multiset([queue[batch - 1]] + queue[batch..])
  {
    assert queue == queue[..batch - 1] + ([queue[batch - 1]] + queue[batch..]);
  }

  lemma DrainConserves(s: State, depth: nat)
    ensures multiset(Pending(s)) == multiset(Pending(Drained(s, depth))) + PassedOver(s.queue, depth)
  {
    if s.queue != [] {
      var batch := Batch(|s.queue|, depth);
      TakenApart(s.queue, batch);
      assert Pending(Drained(s, depth)) == s.inserting + ([s.queue[batch - 1]] + s.queue[batch..]);
    }
  }

  lemma DeliveryConserves(s: State, block: ProducedBlock, depth: nat)
    ensures multiset(Pending(s)) + multiset{block}
            == multiset(Pending(Next(s, Delivered(0, block), depth))) + LeftOutBy(s, Delivered(0, block), depth)
  {
    var queued := s.(queue := s.queue + [block]);
    assert Pending(queued) == Pending(s) + [block];
    if !s.inProcess {
      DrainConserves(queued.(inProcess := true), depth);
    }
  }

  lemma WithoutOne(s: State, drain: nat)
    requires drain < |s.inserting|
    ensures multiset(Pending(s))
            == multiset(Pending(s.(inserting := Without(s.inserting, drain)))) + multiset{s.inserting[drain]}
  {
    assert s.inserting == s.inserting[..drain] + [s.inserting[drain]] + s.inserting[drain + 1..];
  }

  lemma SettlementConserves(s: State, e: Event, depth: nat)
    requires e.Settled? && Enabled(s, e)
    ensures multiset(Pending(s))
            == multiset(Pending(Next(s, e, depth))) + LeftOutBy(s, e, depth)
               + if Succeeds(s, e, depth) then multiset{s.inserting[e.drain]} else multiset{}
  {
    var result := AddWithRetry(s.store, s.inserting[e.drain], depth, e.faults, 0);
    var rest := s.(inserting := Without(s.inserting, e.drain));
    WithoutOne(s, e.drain);
    if result.Some? {
      DrainConserves(rest.(store := result.value), depth);
    }
  }

  lemma StepConserves(s: State, e: Event, depth: nat)
    requires Enabled(s, e)
    ensures multiset(Pending(s)) + multiset(Deliveries([e]))
            == multiset(Pending(Next(s, e, depth))) + LeftOutBy(s, e, depth)
               + if Succeeds(s, e, depth) then multiset{s.inserting[e.drain]} else multiset{}
  {
    assert Deliveries([e]) == if e.Delivered? && e.partition != -1 then [e.block] else [];
    if e.Settled? {
      SettlementConserves(s, e, depth);
    } else if e.Delivered? && e.partition != -1 {
      DeliveryConserves(s, e.block, depth);
    }
  }

  lemma InsertedSplit(s: State, events: seq<Event>, depth: nat)
    requires events != [] && Feasible(s, events, depth)
    ensures multiset(Inserted(s, events, depth))
            == multiset(Inserted(Next(s, events[0], depth), events[1..], depth))
               + if Succeeds(s, events[0], depth) then multiset{s.inserting[events[0].drain]} else multiset{}
  {
  }

  lemma TwoStages<T>(p: multiset<T>, d1: multiset<T>, d2: multiset<T>, p': multiset<T>, l1: multiset<T>,
                     l2: multiset<T>, i1: multiset<T>, i2: multiset<T>, end: multiset<T>)
    requires p + d1 == p' + l1 + i1 && p' + d2 == i2 + l2 + end
    ensures p + (d1 + d2) == (i2 + i1) + (l1 + l2) + end
  {
    forall x: T
      ensures (p + (d1 + d2))[x] == ((i2 + i1) + (l1 + l2) + end)[x]
    {
      assert (p + d1)[x] == (p' + l1 + i1)[x] && (p' + d2)[x] == (i2 + l2 + end)[x];
    }
  }

  /** Every delivered block is recorded, left out or pending, and that once. */
  lemma {:induction false} DeliveriesConserved(s: State, events: seq<Event>, depth: nat)
    requires Feasible(s, events, depth)
    ensures multiset(Pending(s)) + multiset(Deliveries(events))
            == multiset(Inserted(s, events, depth)) + LeftOut(s, events, depth)
               + multiset(Pending(Run(s, events, depth)))
    decreases |events|
  {
    if events != [] {
      var e, s', rest := events[0], Next(s, events[0], depth), events[1..];
      DeliveriesSplit(events);
      StepConserves(s, e, depth);
      InsertedSplit(s, events, depth);
      DeliveriesConserved(s', rest, depth);
      TwoStages(multiset(Pending(s)), multiset(Deliveries([e])), multiset(Deliveries(rest)), multiset(Pending(s')),
                LeftOutBy(s, e, depth), LeftOut(s', rest, depth),
                if Succeeds(s, e, depth) then multiset{s.inserting[e.drain]} else multiset{},
                multiset(Inserted(s', rest, depth)), multiset(Pending(Run(s', rest, depth))));
    }
  }

  /** For every run from rest, with insertions that fail, in whatever number, and with heights that repeat: the
      collection is what adding the blocks inserted with success in turn gives, and each delivered block is one of
      those, was lost or passed over, or is still to come. */
  lemma StoreAfterFailures(store: Store, events: seq<Event>, depth: nat)
    requires Feasible(Idle(store), events, depth)
    ensures var end, inserted := Run(Idle(store), events, depth), Inserted(Idle(store), events, depth);
            && end.store == Recorded(store, inserted, depth)
            && multiset(Deliveries(events))
               == multiset(inserted) + LeftOut(Idle(store), events, depth) + multiset(Pending(end))
  {
    StoreIsWhatWasInserted(Idle(store), events, depth);
    DeliveriesConserved(Idle(store), events, depth);
    assert Pending(Idle(store)) == [];
  }

  function Numbered(k: int): ProducedBlock {
    ProducedBlock(k, Hash(1))
  }

  /** Depth 1: blocks 1 to 3 are delivered while block 0 is inserted; block 1 is passed over in favour of block 2; then
      block 3 fails for good. */
  function LateLoss(): seq<Event> {
    [Delivered(0, Numbered(0)), Delivered(0, Numbered(1)), Delivered(0, Numbered(2)), Delivered(0, Numbered(3))]
    + [Settled(0, 0), Settled(0, 0), Settled(0, 5)]
  }

  lemma {:induction false} RunsOn(s: State, a: seq<Event>, b: seq<Event>, depth: nat)
    requires Feasible(s, a, depth) && Feasible(Run(s, a, depth), b, depth)
    ensures Feasible(s, a + b, depth) && Run(s, a + b, depth) == Run(Run(s, a, depth), b, depth)
    decreases |a|
  {
    if a == [] {
      assert a + b == b;
    } else {
      RunsOn(Next(s, a[0], depth), a[1..], b, depth);
      assert (a + b)[1..] == a[1..] + b;
    }
  }

  lemma SettlesAlone(s: State, faults: nat, depth: nat)
    requires |s.inserting| == 1 && s.inserting[0].number !in s.store
    ensures var block := s.inserting[0];
            Next(s, Settled(0, faults), depth) ==
            if faults <= 4 then
              var added := Pruned(s.store[block.number := block.hash], block.number, depth);
              Drained(s.(inserting := [], store := added), depth)
            else s.(inserting := [], inProcess := false, lastDrainFailed := true)
  {
    AddWithRetryOutcome(s.store, s.inserting[0], depth, faults, 0);
    assert Without(s.inserting, 0) == [];
  }

  lemma DeliveredWhileInserting() returns (s: State)
    ensures Feasible(Idle(map[]), LateLoss()[..4], 1) && s == Run(Idle(map[]), LateLoss()[..4], 1)
    ensures s == State([Numbered(1), Numbered(2), Numbered(3)], true, [Numbered(0)], map[], false, false)
  {
    s := State([Numbered(1), Numbered(2), Numbered(3)], true, [Numbered(0)], map[], false, false);
    var s1 := State([], true, [Numbered(0)], map[], false, false);
    assert Next(Idle(map[]), LateLoss()[0], 1) == s1;
    var s2 := s1.(queue := [Numbered(1)]);
    var s3 := s1.(queue := [Numbered(1), Numbered(2)]);
    assert LateLoss()[..4][1..][1..][1..][1..] == [];
    assert Run(s, [], 1) == s;
  }

  lemma SettledOneByOne(s: State) returns (end: State)
    requires s == State([Numbered(1), Numbered(2), Numbered(3)], true, [Numbered(0)], map[], false, false)
    ensures Feasible(s, LateLoss()[4..], 1) && end == Run(s, LateLoss()[4..], 1)
    ensures end == State([], false, [], map[2 := Hash(1)], true, false)
  {
    SettlesAlone(s, 0, 1);
    assert Pruned(map[0 := Hash(1)], 0, 1) == map[0 := Hash(1)];
    var s1 := State([Numbered(3)], true, [Numbered(2)], map[0 := Hash(1)], false, false);
    assert Next(s, Settled(0, 0), 1) == s1;
    SettlesAlone(s1, 0, 1);
    assert Pruned(map[0 := Hash(1), 2 := Hash(1)], 2, 1) == map[2 := Hash(1)];
    var s2 := State([], true, [Numbered(3)], map[2 := Hash(1)], false, false);
    SettlesAlone(s2, 5, 1);
    end := s2.(inserting := [], inProcess := false, lastDrainFailed := true);
    assert LateLoss()[4..][1..][1..][1..] == [];
    assert Run(end, [], 1) == end;
  }

  /** What a failed insertion takes with it is more than its own block: the store is left without block 1, which adding
      every block but the lost one in turn would have kept. */
  lemma LossLeavesGapBelow()
    ensures Feasible(Idle(map[]), LateLoss(), 1)
    ensures Run(Idle(map[]), LateLoss(), 1) == State([], false, [], map[2 := Hash(1)], true, false)
    ensures 1 in Recorded(map[], [Numbered(0), Numbered(1), Numbered(2)], 1)
  {
    var s := DeliveredWhileInserting();
    var end := SettledOneByOne(s);
    RunsOn(Idle(map[]), LateLoss()[..4], LateLoss()[4..], 1);
    assert LateLoss()[..4] + LateLoss()[4..] == LateLoss();
    OthersOneByOne();
  }

  lemma OthersOneByOne()
    ensures 1 in Recorded(map[], [Numbered(0), Numbered(1), Numbered(2)], 1)
  {
    ProducedWindow(_ => Hash(1), 0, 2, 1);
    assert Blocks(_ => Hash(1), 0, 2) == [Numbered(0), Numbered(1), Numbered(2)];
    assert Between(1, 1, 3);
  }

  class BlockProducer {
    const mongoInsertQueue: Queue<ProducedBlock>
    const producedBlocksModel: ProducedBlocksModel
    const startBlock: int
    const maxReOrgDepth: nat
    var mongoInsertInProcess: bool
    var inserting: seq<ProducedBlock>
    var lastDrainFailed: bool
    var restarting: bool

    ghost predicate Valid()
      reads this, mongoInsertQueue
    {
      mongoInsertQueue.Valid()
    }

    ghost function View(): State
      reads this, mongoInsertQueue, producedBlocksModel
    {
      State(mongoInsertQueue.contents, mongoInsertInProcess, inserting, producedBlocksModel.blocks, lastDrainFailed,
            restarting)
    }

    constructor (producedBlocksModel: ProducedBlocksModel, startBlock: int, maxReOrgDepth: nat)
      ensures Valid() && View() == Idle(producedBlocksModel.blocks)
      ensures this.producedBlocksModel == producedBlocksModel && fresh(mongoInsertQueue)
      ensures this.startBlock == startBlock && this.maxReOrgDepth == maxReOrgDepth
    {
      this.producedBlocksModel := producedBlocksModel;
      this.startBlock := startBlock;
      this.maxReOrgDepth := maxReOrgDepth;
      mongoInsertQueue := new Queue();
      mongoInsertInProcess := false;
      inserting := [];
      lastDrainFailed := false;
      restarting := false;
    }

    /** The delivery listener. A failed delivery is a fatal error, and has the producer restarted. */
    method OnDelivered(partition: int, block: ProducedBlock)
      requires Valid()
      modifies this, mongoInsertQueue
      ensures Valid() && View() == Next(old(View()), Delivered(partition, block), maxReOrgDepth)
    {
      if partition == -1 {
        OnFatalError();
        return;
      }
      mongoInsertQueue.Enqueue(block);
      if !mongoInsertInProcess {
        mongoInsertInProcess := true;
        ProcessQueue();
      }
    }

    /** A restart that is already under way serves for this error, too. */
    method OnFatalError()
      modifies this`restarting
      ensures restarting
    {
      if !restarting {
        restarting := true;
      }
    }

    method OnRestarted()
      requires Valid() && restarting
      modifies this`restarting
      ensures Valid() && View() == Next(old(View()), Restarted, maxReOrgDepth)
    {
      restarting := false;
    }

    /** The drain loop, up to where it waits for an insertion. */
    method ProcessQueue()
      requires Valid()
      modifies this, mongoInsertQueue
      ensures Valid() && View() == Drained(old(View()), maxReOrgDepth)
    {
      var empty := mongoInsertQueue.IsEmpty();
      if empty {
        mongoInsertInProcess := false;
        lastDrainFailed := false;
        return;
      }
      var queueLength := mongoInsertQueue.GetLength();
      var taken: Taken<ProducedBlock>;
      if queueLength > maxReOrgDepth {
        taken := mongoInsertQueue.ShiftByN(queueLength - maxReOrgDepth);
      } else {
        taken := mongoInsertQueue.Shift();
      }
      inserting := inserting + [taken.value];
    }

    /** The drain goes on once the insertion it waits for has settled. */
    method OnSettled(drain: nat, faults: nat)
      requires Valid() && drain < |inserting|
      modifies this, mongoInsertQueue, producedBlocksModel
      ensures Valid() && View() == Next(old(View()), Settled(drain, faults), maxReOrgDepth)
    {
      var details := inserting[drain];
      inserting := inserting[..drain] + inserting[drain + 1..];
      var ok := AddBlockToMongo(details, faults, 0);
      if ok {
        ProcessQueue();
      } else {
        mongoInsertInProcess := false;
        lastDrainFailed := true;
      }
    }

    method AddBlockToMongo(details: ProducedBlock, faults: nat, retryCount: nat) returns (ok: bool)
      requires retryCount <= 4
      modifies producedBlocksModel
      ensures var result := AddWithRetry(old(producedBlocksModel.blocks), details, maxReOrgDepth, faults, retryCount);
              && ok == result.Some?
              && producedBlocksModel.blocks == if ok then result.value else old(producedBlocksModel.blocks)
      decreases 4 - retryCount
    {
      ok := false;
      if faults == 0 {
        ok := producedBlocksModel.AddBlock(details, maxReOrgDepth);
      }
      if !ok && retryCount < 4 {
        ok := AddBlockToMongo(details, if faults > 0 then faults - 1 else 0, retryCount + 1);
      }
    }

    /** Walks down from the highest record to one that the node confirms. */
    method GetStartBlock(node: Node) returns (start: Start)
      ensures start == StartHeight(producedBlocksModel.blocks, node, maxReOrgDepth, startBlock)
    {
      var top := producedBlocksModel.GetBlock(None);
      var blockNumber := if top.Some? then Some(top.value.number) else None;
      for depth := 0 to maxReOrgDepth
        invariant StartHeight(producedBlocksModel.blocks, node, maxReOrgDepth, startBlock)
                  == Walk(producedBlocksModel.blocks, node, blockNumber, maxReOrgDepth - depth, startBlock)
      {
        var block := producedBlocksModel.GetBlock(blockNumber);
        if block.None? {
          if blockNumber.Some? && blockNumber.value != 0 {
            return At(blockNumber.value);
          }
          return At(startBlock);
        }
        var remoteHash := node(block.value.number);
        if remoteHash.None? {
          return FetchFailed(block.value.number);
        }
        if remoteHash.value == block.value.hash {
          return At(block.value.number + 1);
        }
        blockNumber := Some(block.value.number - 1);
      }
      start := At(OrDefault(blockNumber, startBlock));
    }
  }
}
