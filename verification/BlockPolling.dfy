/** internal/block_subscription/block_polling.ts: the sequential poller. */
module BlockPollers {
  import opened Chain

  /** Where a suspended startBlockPolling waits. */
  datatype Waiting = ForLatest | Asleep | ForBlock(blockNum: int, latest: int)

  datatype Poll = Poll(lastBlockNumber: int, waiting: Waiting)

  /** `polls` holds the suspended polling loops by their polling id; `emitted` and `heads` belong to the latest
      subscription: the blocks its observer was given and the heads reported to it. */
  datatype State = State(
    pollingId: Option<nat>, polls: map<nat, Poll>, pollings: nat, emitted: seq<Block>, heads: set<int>, errored: bool)

  datatype Event =
    | Subscribe(startBlock: int)
    | Unsubscribe
    | LatestKnown(id: nat, latest: int)
    | Wakes(id: nat)
    | BlockKnown(id: nat, block: Block)
      // The node fails to answer a polling loop.
    | Fails(id: nat)

  predicate Enabled(s: State, e: Event) {
    match e
    case Subscribe(_) => true
    case Unsubscribe => true
    case LatestKnown(id, _) => id in s.polls && s.polls[id].waiting.ForLatest?
    case Wakes(id) => id in s.polls && s.polls[id].waiting.Asleep?
    case BlockKnown(id, block) =>
      id in s.polls && s.polls[id].waiting.ForBlock? && block.number == s.polls[id].waiting.blockNum
    case Fails(id) => id in s.polls && !s.polls[id].waiting.Asleep?
  }

  /** The outer loop at its head. */
  function OuterLoop(s: State, id: nat, lastBlockNumber: int): State {
    if s.pollingId == Some(id) then s.(polls := s.polls[id := Poll(lastBlockNumber, ForLatest)])
    else s.(polls := s.polls - {id})
  }

  /** The inner loop at its head. */
  function InnerLoop(s: State, id: nat, lastBlockNumber: int, latest: int): State {
    if lastBlockNumber + 1 <= latest && s.pollingId == Some(id) then
      s.(polls := s.polls[id := Poll(lastBlockNumber, ForBlock(lastBlockNumber + 1, latest))])
    else OuterLoop(s, id, lastBlockNumber)
  }

  function Next(s: State, e: Event): State
    requires Enabled(s, e)
  {
    match e
    case Subscribe(startBlock) =>
      s.(pollingId := Some(s.pollings), pollings := s.pollings + 1, emitted := [], heads := {},
         polls := s.polls[s.pollings := Poll(startBlock - 1, ForLatest)])
    case Unsubscribe => s.(pollingId := None)
    case LatestKnown(id, latest) =>
      var last := s.polls[id].lastBlockNumber;
      var told := if s.pollingId == Some(id) then s.(heads := s.heads + {latest}) else s;
      if latest <= last then told.(polls := s.polls[id := Poll(last, Asleep)]) else InnerLoop(told, id, last, latest)
    case Wakes(id) => OuterLoop(s, id, s.polls[id].lastBlockNumber)
    case BlockKnown(id, block) =>
      var Poll(last, ForBlock(blockNum, latest)) := s.polls[id];
      if s.pollingId != Some(id) then s.(polls := s.polls - {id})
      else InnerLoop(s.(emitted := s.emitted + [block]), id, blockNum, latest)
    case Fails(id) => s.(polls := s.polls - {id}, errored := true)
  }

  ghost predicate Feasible(s: State, events: seq<Event>)
    decreases |events|
  {
    events != [] ==> Enabled(s, events[0]) && Feasible(Next(s, events[0]), events[1..])
  }

  function Run(s: State, events: seq<Event>): State
    requires Feasible(s, events)
    decreases |events|
  {
    if events == [] then s else Run(Next(s, events[0]), events[1..])
  }

  /** s, s + 1, ..., each no higher than some head reported. */
  ghost predicate UpToHead(start: int, emitted: seq<Block>, heads: set<int>) {
    && (forall k :: 0 <= k < |emitted| ==> emitted[k].number == start + k)
    && (emitted != [] ==> exists h :: h in heads && start + |emitted| - 1 <= h)
  }

  ghost predicate Polling(s: State, start: int) {
    && UpToHead(start, s.emitted, s.heads)
    && (forall id :: id in s.polls ==> id < s.pollings)
    && (s.pollingId.Some? ==>
          && s.pollingId.value + 1 == s.pollings
          && (s.pollingId.value in s.polls ==>
                var p := s.polls[s.pollingId.value];
                && p.lastBlockNumber == start + |s.emitted| - 1
                && (p.waiting.ForBlock? ==>
                      p.waiting.blockNum == p.lastBlockNumber + 1 <= p.waiting.latest && p.waiting.latest in s.heads)))
  }

  lemma UpToHeadMore(start: int, emitted: seq<Block>, heads: set<int>, latest: int)
    requires UpToHead(start, emitted, heads)
    ensures UpToHead(start, emitted, heads + {latest})
  {
    if emitted != [] {
      var h :| h in heads && start + |emitted| - 1 <= h;
      assert h in heads + {latest};
    }
  }

  lemma PollingStep(s: State, e: Event, start: int)
    requires Polling(s, start) && Enabled(s, e) && !e.Subscribe?
    ensures Polling(Next(s, e), start)
  {
    if e.LatestKnown? {
      UpToHeadMore(start, s.emitted, s.heads, e.latest);
    } else if e.BlockKnown? && s.pollingId == Some(e.id) {
      var p := s.polls[e.id];
      assert p.waiting.latest in s.heads && start + |s.emitted| <= p.waiting.latest;
      assert UpToHead(start, s.emitted + [e.block], s.heads);
    }
  }

  lemma {:induction false} PollingStays(s: State, events: seq<Event>, start: int)
    requires Polling(s, start) && Feasible(s, events)
    requires forall i :: 0 <= i < |events| ==> !events[i].Subscribe?
    ensures Polling(Run(s, events), start)
    decreases |events|
  {
    if events != [] {
      assert forall i :: 0 <= i < |events[1..]| ==> events[1..][i] == events[i + 1];
      PollingStep(s, events[0], start);
      PollingStays(Next(s, events[0]), events[1..], start);
    }
  }

  ghost predicate Ready(s: State) {
    forall id :: id in s.polls ==> id < s.pollings
  }

  /** A subscription is given start, start + 1, ..., none above the heads it was told of, whatever earlier polling
      loops are still suspended, and whether or not it is unsubscribed or fails. */
  lemma SequentialStream(s: State, start: int, events: seq<Event>)
    requires Ready(s)
    requires Feasible(Next(s, Subscribe(start)), events)
    requires forall i :: 0 <= i < |events| ==> !events[i].Subscribe?
    ensures var end := Run(Next(s, Subscribe(start)), events);
            UpToHead(start, end.emitted, end.heads)
  {
    PollingStays(Next(s, Subscribe(start)), events, start);
  }

  function Answers(id: nat, blocks: seq<Block>): (events: seq<Event>)
    ensures |events| == |blocks|
    ensures forall i :: 0 <= i < |blocks| ==> events[i] == BlockKnown(id, blocks[i])
  {
    seq(|blocks|, i requires 0 <= i < |blocks| => BlockKnown(id, blocks[i]))
  }

  /** The other direction: every such stream is one that the sequential poller produces. */
  lemma {:induction false} AnswersAreEmitted(s: State, id: nat, blocks: seq<Block>, latest: int)
    requires s.pollingId == Some(id) && id in s.polls
    requires blocks != [] ==> s.polls[id].waiting == ForBlock(s.polls[id].lastBlockNumber + 1, latest)
    requires forall k :: 0 <= k < |blocks| ==> blocks[k].number == s.polls[id].lastBlockNumber + 1 + k
    requires s.polls[id].lastBlockNumber + |blocks| <= latest
    ensures Feasible(s, Answers(id, blocks))
    ensures var end := Run(s, Answers(id, blocks));
            end.emitted == s.emitted + blocks && end.heads == s.heads && end.errored == s.errored
    decreases |blocks|
  {
    if blocks == [] {
      assert s.emitted + [] == s.emitted;
    } else {
      var events, s1 := Answers(id, blocks), Next(s, BlockKnown(id, blocks[0]));
      assert events[1..] == Answers(id, blocks[1..]);
      assert forall k :: 0 <= k < |blocks[1..]| ==> blocks[1..][k] == blocks[k + 1];
      AnswersAreEmitted(s1, id, blocks[1..], latest);
      assert s.emitted + [blocks[0]] + blocks[1..] == s.emitted + blocks;
    }
  }

  lemma EveryStreamIsSequential(s: State, start: int, blocks: seq<Block>, heads: set<int>) returns (events: seq<Event>)
    requires Ready(s) && UpToHead(start, blocks, heads)
    ensures Feasible(Next(s, Subscribe(start)), events)
    ensures forall i :: 0 <= i < |events| ==> !events[i].Subscribe? && !events[i].Unsubscribe?
    ensures var end := Run(Next(s, Subscribe(start)), events);
            end.emitted == blocks && end.heads <= heads && end.errored == s.errored
  {
    var s0, id := Next(s, Subscribe(start)), s.pollings;
    if blocks == [] {
      events := [];
    } else {
      var h :| h in heads && start + |blocks| - 1 <= h;
      var s1 := Next(s0, LatestKnown(id, h));
      AnswersAreEmitted(s1, id, blocks, h);
      events := [LatestKnown(id, h)] + Answers(id, blocks);
      assert events[1..] == Answers(id, blocks);
    }
  }

  // ---- A subscription goes on until it is ended ----

  lemma StepFollowed(s: State, e: Event, id: nat)
    requires s.pollingId == Some(id) && id in s.polls && Enabled(s, e)
    requires !e.Subscribe? && !e.Unsubscribe? && e != Fails(id)
    ensures var s' := Next(s, e); s'.pollingId == Some(id) && id in s'.polls
  {
  }

  lemma {:induction false} RunFollowed(s: State, events: seq<Event>, id: nat)
    requires s.pollingId == Some(id) && id in s.polls && Feasible(s, events)
    requires forall i :: 0 <= i < |events| ==>
               !events[i].Subscribe? && !events[i].Unsubscribe? && events[i] != Fails(id)
    ensures var end := Run(s, events); end.pollingId == Some(id) && id in end.polls
    decreases |events|
  {
    if events != [] {
      StepFollowed(s, events[0], id);
      assert forall i :: 0 <= i < |events[1..]| ==> events[1..][i] == events[i + 1];
      RunFollowed(Next(s, events[0]), events[1..], id);
    }
  }

  lemma {:induction false} RunsOn(s: State, a: seq<Event>, b: seq<Event>)
    requires Feasible(s, a) && Feasible(Run(s, a), b)
    ensures Feasible(s, a + b) && Run(s, a + b) == Run(Run(s, a), b)
    decreases |a|
  {
    if a == [] {
      assert a + b == b;
    } else {
      RunsOn(Next(s, a[0]), a[1..], b);
      assert (a + b)[1..] == a[1..] + b;
    }
  }

  lemma OneStep(s: State, e: Event)
    requires Enabled(s, e)
    ensures Feasible(s, [e]) && Run(s, [e]) == Next(s, e)
  {
    assert [e][1..] == [];
    assert Run(Next(s, e), []) == Next(s, e);
  }

  lemma PolledBlockComes(s: State, id: nat, block: Block, head: int)
    requires s.pollingId == Some(id) && id in s.polls && s.polls[id].waiting.ForLatest?
    requires block.number == s.polls[id].lastBlockNumber + 1 <= head
    ensures Feasible(s, [LatestKnown(id, head)] + [BlockKnown(id, block)])
    ensures Run(s, [LatestKnown(id, head)] + [BlockKnown(id, block)]).emitted == s.emitted + [block]
  {
    var m := Next(s, LatestKnown(id, head));
    OneStep(s, LatestKnown(id, head));
    OneStep(m, BlockKnown(id, block));
    RunsOn(s, [LatestKnown(id, head)], [BlockKnown(id, block)]);
  }

  /** From wherever the loop of the subscription is suspended, its sleep at the head included, the next block can come,
      whichever it is. */
  lemma AwaitedBlockComes(s: State, id: nat, block: Block, head: int) returns (events: seq<Event>)
    requires s.pollingId == Some(id) && id in s.polls && block.number == s.polls[id].lastBlockNumber + 1 <= head
    requires s.polls[id].waiting.ForBlock? ==> s.polls[id].waiting.blockNum == s.polls[id].lastBlockNumber + 1
    ensures Feasible(s, events) && Run(s, events).emitted == s.emitted + [block]
    ensures forall i :: 0 <= i < |events| ==> !events[i].Subscribe? && !events[i].Unsubscribe? && !events[i].Fails?
  {
    match s.polls[id].waiting
    case ForLatest =>
      PolledBlockComes(s, id, block, head);
      events := [LatestKnown(id, head)] + [BlockKnown(id, block)];
    case Asleep =>
      PolledBlockComes(Next(s, Wakes(id)), id, block, head);
      OneStep(s, Wakes(id));
      RunsOn(s, [Wakes(id)], [LatestKnown(id, head)] + [BlockKnown(id, block)]);
      events := [Wakes(id)] + ([LatestKnown(id, head)] + [BlockKnown(id, block)]);
    case ForBlock(_, _) =>
      OneStep(s, BlockKnown(id, block));
      events := [BlockKnown(id, block)];
  }

  /** At every point of a subscription that is not unsubscribed and whose loop has not failed: the block due can come
      next, given a head at its height or above. */
  lemma NextBlockCanCome(s: State, start: int, events: seq<Event>, block: Block, head: int) returns (more: seq<Event>)
    requires Ready(s) && Feasible(Next(s, Subscribe(start)), events)
    requires forall i :: 0 <= i < |events| ==>
               !events[i].Subscribe? && !events[i].Unsubscribe? && events[i] != Fails(s.pollings)
    requires block.number == start + |Run(Next(s, Subscribe(start)), events).emitted| <= head
    ensures var end := Run(Next(s, Subscribe(start)), events);
            Feasible(end, more) && Run(end, more).emitted == end.emitted + [block]
    ensures forall i :: 0 <= i < |more| ==> !more[i].Subscribe? && !more[i].Unsubscribe? && !more[i].Fails?
  {
    PollingStays(Next(s, Subscribe(start)), events, start);
    RunFollowed(Next(s, Subscribe(start)), events, s.pollings);
    more := AwaitedBlockComes(Run(Next(s, Subscribe(start)), events), s.pollings, block, head);
  }

  /** No loop is suspended under the current id. */
  ghost predicate Abandoned(s: State) {
    Ready(s) && (s.pollingId.Some? ==> s.pollingId.value !in s.polls)
  }

  lemma {:induction false} AbandonedEmitsNothing(s: State, events: seq<Event>)
    requires Abandoned(s) && Feasible(s, events)
    requires forall i :: 0 <= i < |events| ==> !events[i].Subscribe?
    ensures Abandoned(Run(s, events)) && Run(s, events).emitted == s.emitted
    decreases |events|
  {
    if events != [] {
      assert Abandoned(Next(s, events[0])) && Next(s, events[0]).emitted == s.emitted;
      assert forall i :: 0 <= i < |events[1..]| ==> events[1..][i] == events[i + 1];
      AbandonedEmitsNothing(Next(s, events[0]), events[1..]);
    }
  }

  /** After unsubscribe, and after the node has failed to answer the loop of the subscription, nothing is emitted until
      the next subscribe, whatever loops are still suspended. */
  lemma NothingEmittedWithoutLoop(s: State, ending: Event, events: seq<Event>)
    requires Ready(s) && Enabled(s, ending)
    requires ending == Unsubscribe || (s.pollingId.Some? && ending == Fails(s.pollingId.value))
    requires Feasible(Next(s, ending), events) && forall i :: 0 <= i < |events| ==> !events[i].Subscribe?
    ensures Run(Next(s, ending), events).emitted == s.emitted
  {
    AbandonedEmitsNothing(Next(s, ending), events);
  }

  /** The observer is told of an error exactly when the node has failed to answer. */
  lemma {:induction false} ErrorsAreReported(s: State, events: seq<Event>)
    requires Feasible(s, events)
    ensures Run(s, events).errored <==> s.errored || exists i :: 0 <= i < |events| && events[i].Fails?
    decreases |events|
  {
    if events != [] {
      var rest := events[1..];
      ErrorsAreReported(Next(s, events[0]), rest);
      assert forall i :: 0 < i < |events| ==> events[i] == rest[i - 1];
      assert forall i :: 0 <= i < |rest| ==> rest[i] == events[i + 1];
      if Next(s, events[0]).errored && !s.errored {
        assert events[0].Fails?;
      }
    }
  }

  class BlockPoller {
    var pollingId: Option<nat>
    var polls: map<nat, Poll>
    var pollings: nat
    var emitted: seq<Block>
    var heads: set<int>
    var errored: bool

    ghost function View(): State
      reads this
    {
      State(pollingId, polls, pollings, emitted, heads, errored)
    }

    constructor ()
      ensures View() == State(None, map[], 0, [], {}, false)
    {
      pollingId, polls, pollings, emitted, heads, errored := None, map[], 0, [], {}, false;
    }

    method OnSubscribe(startBlock: int)
      modifies this
      ensures View() == Next(old(View()), Subscribe(startBlock))
    {
      pollingId := Some(pollings);
      emitted, heads := [], {};
      polls := polls[pollings := Poll(startBlock - 1, ForLatest)];
      pollings := pollings + 1;
    }

    method OnUnsubscribe()
      modifies this
      ensures View() == Next(old(View()), Unsubscribe)
    {
      pollingId := None;
    }

    method ContinuePolling(id: nat, lastBlockNumber: int)
      modifies this
      ensures View() == OuterLoop(old(View()), id, lastBlockNumber)
    {
      if pollingId == Some(id) {
        polls := polls[id := Poll(lastBlockNumber, ForLatest)];
      } else {
        polls := polls - {id};
      }
    }

    method ContinueBlocks(id: nat, lastBlockNumber: int, latest: int)
      modifies this
      ensures View() == InnerLoop(old(View()), id, lastBlockNumber, latest)
    {
      var blockNum := lastBlockNumber + 1;
      if blockNum <= latest && pollingId == Some(id) {
        polls := polls[id := Poll(lastBlockNumber, ForBlock(blockNum, latest))];
      } else {
        ContinuePolling(id, lastBlockNumber);
      }
    }

    method OnLatestKnown(id: nat, latest: int)
      requires Enabled(View(), LatestKnown(id, latest))
      modifies this
      ensures View() == Next(old(View()), LatestKnown(id, latest))
    {
      var last := polls[id].lastBlockNumber;
      if pollingId == Some(id) {
        heads := heads + {latest};
      }
      if latest <= last {
        polls := polls[id := Poll(last, Asleep)];
      } else {
        ContinueBlocks(id, last, latest);
      }
    }

    method OnWakes(id: nat)
      requires Enabled(View(), Wakes(id))
      modifies this
      ensures View() == Next(old(View()), Wakes(id))
    {
      ContinuePolling(id, polls[id].lastBlockNumber);
    }

    method OnBlockKnown(id: nat, block: Block)
      requires Enabled(View(), BlockKnown(id, block))
      modifies this
      ensures View() == Next(old(View()), BlockKnown(id, block))
    {
      var ForBlock(blockNum, latest) := polls[id].waiting;
      if pollingId != Some(id) {
        polls := polls - {id};
        return;
      }
      emitted := emitted + [block];
      ContinueBlocks(id, blockNum, latest);
    }

    method OnFails(id: nat)
      requires Enabled(View(), Fails(id))
      modifies this
      ensures View() == Next(old(View()), Fails(id))
    {
      polls := polls - {id};
      errored := true;
    }
  }
}
