/** internal/block_subscription/erigon_block_polling.ts: the poller that prefetches from several workers in turn. */
module ErigonBlockPollers {
  import opened Chain
  import opened Queues
  import opened Fetches

  /** Where a suspended startBlockPolling waits. */
  datatype Waiting = ForLatest | Asleep | ForRoom(blockNum: nat, latest: int)

  type Reached = n: int | n >= -1 witness -1

  datatype Poll = Poll(lastBlockNumber: Reached, waiting: Waiting)

  /** What the observer is told. */
  datatype Entry = Emitted(block: Block) | ReOrgError | FetchError | PollError

  /** `polls` holds the suspended polling loops by their polling id, `fetching` the request that the suspended
      consumer loop waits for. The consumer loop also waits inside unsubscribe when it has found a re-org. */
  datatype State = State(
    queue: seq<nat>, pollingId: Option<nat>, processingQueue: bool, fatalError: bool, lastSavedBlockHash: Option<Hash>,
    polls: map<nat, Poll>, pollings: nat, fetching: Option<nat>, reOrgFound: bool,
    requests: seq<Request>, log: seq<Entry>)

  datatype Event =
    | Subscribe(startBlock: nat)
    | Unsubscribe
    | Answered(request: nat, answer: Answer)
    | LatestKnown(id: nat, latest: int)
    | Wakes(id: nat)
    | LatestFails(id: nat)
    | ConsumerResumes
    | ReOrgReported

  /** The consumer loop from its head to its next wait. */
  function ConsumerLoop(s: State): State {
    if s.queue != [] && !s.fatalError then s.(fetching := Some(s.queue[0]), queue := s.queue[1..])
    else s.(fetching := None, processingQueue := false)
  }

  /** Asks the worker whose turn it is for the block, and sets the consumer going. */
  function Fetched(s: State, blockNum: nat, workers: nat): State
    requires workers > 0
  {
    var queued := s.(requests := s.requests + [Request(blockNum, blockNum % workers, Pending)],
                     queue := s.queue + [|s.requests|]);
    if s.processingQueue then queued else ConsumerLoop(queued.(processingQueue := true))
  }

  /** The outer polling loop at its head. */
  function OuterLoop(s: State, id: nat, lastBlockNumber: Reached): State {
    if s.pollingId == Some(id) then s.(polls := s.polls[id := Poll(lastBlockNumber, ForLatest)])
    else s.(polls := s.polls - {id})
  }

  /** The inner polling loop at its head: fetches on without a pause until the queue is full or the head reached. */
  function InnerLoop(s: State, id: nat, blockNum: nat, latest: int, workers: nat): State
    decreases latest - blockNum
  {
    if blockNum > latest || s.pollingId != Some(id) then OuterLoop(s, id, blockNum - 1)
    else if |s.queue| >= workers * 100 then s.(polls := s.polls[id := Poll(blockNum - 1, ForRoom(blockNum, latest))])
    else InnerLoop(Fetched(s, blockNum, workers), id, blockNum + 1, latest, workers)
  }

  predicate Enabled(s: State, e: Event) {
    match e
    case Subscribe(_) => true
    case Unsubscribe => true
    case Answered(r, answer) =>
      && r < |s.requests| && s.requests[r].answer.Pending? && !answer.Pending?
      && (answer.Success? ==> answer.block.number == s.requests[r].height)
    case LatestKnown(id, _) => id in s.polls && s.polls[id].waiting.ForLatest?
    case Wakes(id) => id in s.polls && !s.polls[id].waiting.ForLatest?
    case LatestFails(id) => id in s.polls && s.polls[id].waiting.ForLatest?
    case ConsumerResumes =>
      s.fetching.Some? && s.fetching.value < |s.requests| && !s.requests[s.fetching.value].answer.Pending?
    case ReOrgReported => s.reOrgFound
  }

  function Next(s: State, e: Event, workers: nat): State
    requires Enabled(s, e)
  {
    match e
    case Subscribe(startBlock) =>
      s.(pollingId := Some(s.pollings), pollings := s.pollings + 1, fatalError := false,
         polls := s.polls[s.pollings := Poll(startBlock - 1, ForLatest)])
    case Unsubscribe => s.(pollingId := None)
    case Answered(r, answer) => s.(requests := s.requests[r := s.requests[r].(answer := answer)])
    case LatestKnown(id, latest) =>
      var last := s.polls[id].lastBlockNumber;
      if latest <= last then s.(polls := s.polls[id := Poll(last, Asleep)])
      else InnerLoop(s, id, last + 1, latest, workers)
    case Wakes(id) =>
      (match s.polls[id].waiting
       case Asleep => OuterLoop(s, id, s.polls[id].lastBlockNumber)
       case ForRoom(blockNum, latest) =>
         if |s.queue| >= workers * 100 then s else InnerLoop(s, id, blockNum, latest, workers))
    case LatestFails(id) => s.(polls := s.polls - {id}, log := s.log + [PollError])
    case ConsumerResumes => Consumed(s, s.requests[s.fetching.value].answer)
    case ReOrgReported =>
      s.(queue := [], fatalError := true, reOrgFound := false, processingQueue := false, log := s.log + [ReOrgError])
  }

  /** The consumer loop, after the answer it was waiting for. */
  function Consumed(s: State, answer: Answer): State
    requires !answer.Pending?
  {
    match answer
    case Failure => s.(fetching := None, fatalError := true, processingQueue := false, log := s.log + [FetchError])
    case Success(block) =>
      if s.lastSavedBlockHash.Some? && s.lastSavedBlockHash.value != block.parentHash then
        s.(fetching := None, lastSavedBlockHash := None, pollingId := None, reOrgFound := true)
      else ConsumerLoop(s.(lastSavedBlockHash := Some(block.hash), log := s.log + [Emitted(block)]))
  }

  ghost predicate Feasible(s: State, events: seq<Event>, workers: nat)
    decreases |events|
  {
    events != [] ==> Enabled(s, events[0]) && Feasible(Next(s, events[0], workers), events[1..], workers)
  }

  function Run(s: State, events: seq<Event>, workers: nat): State
    requires Feasible(s, events, workers)
    decreases |events|
  {
    if events == [] then s else Run(Next(s, events[0], workers), events[1..], workers)
  }

  class ErigonBlockPoller {
    const workers: nat
    const queue: Queue<nat>
    var pollingId: Option<nat>
    var processingQueue: bool
    var fatalError: bool
    var lastSavedBlockHash: Option<Hash>
    var polls: map<nat, Poll>
    var pollings: nat
    var fetching: Option<nat>
    var reOrgFound: bool
    var requests: seq<Request>
    var log: seq<Entry>

    ghost predicate Valid()
      reads this, queue
    {
      queue.Valid()
    }

    ghost function View(): State
      reads this, queue
    {
      State(queue.contents, pollingId, processingQueue, fatalError, lastSavedBlockHash,
            polls, pollings, fetching, reOrgFound, requests, log)
    }

    constructor (workers: nat)
      ensures Valid() && this.workers == workers && fresh(queue)
      ensures View() == State([], None, false, false, None, map[], 0, None, false, [], [])
    {
      this.workers := workers;
      queue := new Queue();
      pollingId, processingQueue, fatalError, lastSavedBlockHash := None, false, false, None;
      polls, pollings, fetching, reOrgFound, requests, log := map[], 0, None, false, [], [];
    }

    method OnSubscribe(startBlock: nat)
      requires Valid()
      modifies this
      ensures Valid() && View() == Next(old(View()), Subscribe(startBlock), workers)
    {
      pollingId := Some(pollings);
      fatalError := false;
      polls := polls[pollings := Poll(startBlock - 1, ForLatest)];
      pollings := pollings + 1;
    }

    method OnUnsubscribe()
      requires Valid()
      modifies this
      ensures Valid() && View() == Next(old(View()), Unsubscribe, workers)
    {
      pollingId := None;
    }

    method OnAnswered(request: nat, answer: Answer)
      requires Valid() && Enabled(View(), Answered(request, answer))
      modifies this
      ensures Valid() && View() == Next(old(View()), Answered(request, answer), workers)
    {
      requests := requests[request := requests[request].(answer := answer)];
    }

    method GetBlockFromWorker(blockNum: nat, worker: nat) returns (request: nat)
      requires Valid()
      modifies this`requests
      ensures Valid() && request == |old(requests)|
      ensures requests == old(requests) + [Request(blockNum, worker, Pending)]
    {
      request := |requests|;
      requests := requests + [Request(blockNum, worker, Pending)];
    }

    method ContinuePolling(id: nat, lastBlockNumber: Reached)
      requires Valid()
      modifies this
      ensures Valid() && View() == OuterLoop(old(View()), id, lastBlockNumber)
    {
      if pollingId == Some(id) {
        polls := polls[id := Poll(lastBlockNumber, ForLatest)];
      } else {
        polls := polls - {id};
      }
    }

    method EnqueueFetch(blockNum: nat)
      requires Valid() && workers > 0
      modifies this, queue
      ensures Valid() && View() == Fetched(old(View()), blockNum, workers)
    {
      var request := GetBlockFromWorker(blockNum, blockNum % workers);
      queue.Enqueue(request);
      if !processingQueue {
        ProcessQueue();
      }
    }

    /** The inner polling loop, from a block number on, to its next wait. */
    method PollBlocks(id: nat, firstBlock: nat, latest: int)
      requires Valid()
      modifies this, queue
      ensures Valid() && View() == InnerLoop(old(View()), id, firstBlock, latest, workers)
    {
      var blockNum := firstBlock;
      while blockNum <= latest && pollingId == Some(id)
        invariant Valid()
        invariant InnerLoop(old(View()), id, firstBlock, latest, workers)
                  == InnerLoop(View(), id, blockNum, latest, workers)
        decreases latest - blockNum
      {
        var length := queue.GetLength();
        if length >= workers * 100 {
          polls := polls[id := Poll(blockNum - 1, ForRoom(blockNum, latest))];
          return;
        }
        EnqueueFetch(blockNum);
        blockNum := blockNum + 1;
      }
      ContinuePolling(id, blockNum - 1);
    }

    method OnLatestKnown(id: nat, latest: int)
      requires Valid() && Enabled(View(), LatestKnown(id, latest))
      modifies this, queue
      ensures Valid() && View() == Next(old(View()), LatestKnown(id, latest), workers)
    {
      var last := polls[id].lastBlockNumber;
      if latest <= last {
        polls := polls[id := Poll(last, Asleep)];
      } else {
        PollBlocks(id, last + 1, latest);
      }
    }

    method OnWakes(id: nat)
      requires Valid() && Enabled(View(), Wakes(id))
      modifies this, queue
      ensures Valid() && View() == Next(old(View()), Wakes(id), workers)
    {
      match polls[id].waiting
      case Asleep =>
        ContinuePolling(id, polls[id].lastBlockNumber);
      case ForRoom(blockNum, latest) =>
        var length := queue.GetLength();
        if length < workers * 100 {
          PollBlocks(id, blockNum, latest);
        }
    }

    method OnLatestFails(id: nat)
      requires Valid() && Enabled(View(), LatestFails(id))
      modifies this
      ensures Valid() && View() == Next(old(View()), LatestFails(id), workers)
    {
      polls := polls - {id};
      log := log + [PollError];
    }

    method ProcessQueue()
      requires Valid()
      modifies this, queue
      ensures Valid() && View() == ConsumerLoop(old(View()).(processingQueue := true))
    {
      processingQueue := true;
      ContinueConsuming();
    }

    /** The consumer loop from its head to its next wait. */
    method ContinueConsuming()
      requires Valid()
      modifies this, queue
      ensures Valid() && View() == ConsumerLoop(old(View()))
    {
      var empty := queue.IsEmpty();
      if !empty && !fatalError {
        var promise := queue.Shift();
        fetching := Some(promise.value);
        return;
      }
      fetching := None;
      processingQueue := false;
    }

    method OnConsumerResumes()
      requires Valid() && Enabled(View(), ConsumerResumes)
      modifies this, queue
      ensures Valid() && View() == Next(old(View()), ConsumerResumes, workers)
    {
      var answer := requests[fetching.value].answer;
      if answer.Failure? {
        fetching := None;
        fatalError := true;
        log := log + [FetchError];
        processingQueue := false;
        return;
      }
      var block := answer.block;
      if lastSavedBlockHash.Some? && lastSavedBlockHash.value != block.parentHash {
        fetching := None;
        lastSavedBlockHash := None;
        OnUnsubscribe();
        reOrgFound := true;
        return;
      }
      lastSavedBlockHash := Some(block.hash);
      log := log + [Emitted(block)];
      ContinueConsuming();
    }

    /** The consumer loop, after unsubscribe has come back: the queue is dropped and the re-org reported. */
    method OnReOrgReported()
      requires Valid() && reOrgFound
      modifies this, queue
      ensures Valid() && View() == Next(old(View()), ReOrgReported, workers)
    {
      reOrgFound := false;
      var _ := queue.Clear();
      fatalError := true;
      log := log + [ReOrgError];
      processingQueue := false;
    }
  }
}
