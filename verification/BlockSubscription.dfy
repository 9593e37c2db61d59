/** internal/block_subscription: backfilling with concurrent workers, chained into a live log subscription. */
module BlockSubscriptions {
  import opened Chain
  import opened Queues
  import opened LogHandlers
  import opened Fetches

  /** A suspended addWorkerJobToQueue: waiting for the queue to shrink, or for its own block. */
  datatype Job = Throttled(request: nat) | Awaiting(request: nat)

  datatype JobKey = JobKey(session: nat, worker: nat)

  /** A suspended subscribe: waiting for the last finalized block, or for the chain to reach the start block. */
  datatype Subscribing = Idle | AwaitFinalized(startBlock: int) | AwaitLatest(startBlock: int)

  datatype BlockRef = BlockRef(number: int, hash: Hash)

  datatype Emission = Emission(block: Block, live: bool)

  const QUEUE_LIMIT := 2500

  /** The subscription between two steps of the event loop. Beyond the fields of the class: the requests made, the
      suspended jobs, the request that each suspended backfill loop and the suspended live loop wait for, the number
      of sessions opened, where the current session or live phase began, and what the observer was given. */
  datatype State = State(
    queue: seq<nat>, nextBlock: int, activeBackFillingId: Option<nat>, lastFinalizedBlock: int, fatalError: bool,
    cursor: Cursor, lastEmittedBlock: Option<BlockRef>, processingQueue: bool,
    listening: bool, watched: Option<Hash>, subscribing: Subscribing,
    requests: seq<Request>, jobs: map<JobKey, Job>, backFills: map<nat, nat>, liveFetch: Option<nat>,
    sessions: nat, base: nat, baseHeight: int,
    emitted: seq<Emission>, errored: bool)

  /** A subscription just made, that nobody has called. */
  const FRESH := State([], 0, None, 0, false, Cursor(None, 0), None, false, false, None, Idle,
                       [], map[], map[], None, 0, 0, 0, [], false)

  datatype Event =
    | Subscribe(startBlock: int)
    | FinalizedKnown(finalized: int)
    | LatestKnown(latest: int)
    | Answered(request: nat, answer: Answer)
    | JobWakes(key: JobKey)
    | JobResumes(key: JobKey)
    | BackFillResumes(session: nat)
    | LogArrives(log: Log)
    | LiveResumes
    | TimerFires
    | Unsubscribe

  /** Asks a worker for the blocks and enqueues the promises. */
  function Fetched(s: State, heights: seq<int>, worker: nat): State {
    s.(requests := s.requests + Asked(heights, worker),
       queue := s.queue + Ids(|s.requests|, |s.requests| + |heights|))
  }

  /** addWorkerJobToQueue up to its first wait. */
  function JobAdded(s: State, height: int, key: JobKey): State {
    var fetched := Fetched(s, [height], key.worker);
    var job := if |fetched.queue| >= QUEUE_LIMIT then Throttled(|s.requests|) else Awaiting(|s.requests|);
    fetched.(jobs := s.jobs[key := job])
  }

  /** One job for every worker from the given one on. */
  function JobsAdded(s: State, session: nat, worker: nat, workers: nat): State
    decreases workers - worker
  {
    if worker >= workers then s
    else JobsAdded(JobAdded(s, s.nextBlock + worker, JobKey(session, worker)), session, worker + 1, workers)
  }

  /** The backfill loop from its head to its next wait: for the next block, or inside the chained subscribe. */
  function BackFillLoop(s: State, session: nat): State {
    if s.nextBlock <= s.lastFinalizedBlock && s.queue != [] then
      s.(backFills := s.backFills[session := s.queue[0]], queue := s.queue[1..])
    else
      s.(activeBackFillingId := None, subscribing := AwaitFinalized(s.nextBlock))
  }

  function SessionOpened(s: State): State {
    s.(activeBackFillingId := Some(s.sessions), sessions := s.sessions + 1, subscribing := Idle,
       base := |s.requests|, baseHeight := s.nextBlock)
  }

  function BackFillStarted(s: State, workers: nat): State {
    BackFillLoop(JobsAdded(SessionOpened(s), s.sessions, 0, workers), s.sessions)
  }

  /** The live loop from its head to its next wait. */
  function LiveLoop(s: State): State {
    if s.queue != [] && !s.fatalError then s.(liveFetch := Some(s.queue[0]), queue := s.queue[1..])
    else s.(liveFetch := None, processingQueue := false)
  }

  predicate ReOrgMissed(s: State, block: Block) {
    && s.lastEmittedBlock.Some?
    && block.number > s.lastEmittedBlock.value.number
    && s.lastEmittedBlock.value.hash != block.parentHash
  }

  predicate Settled(s: State, request: nat) {
    request < |s.requests| && !s.requests[request].answer.Pending?
  }

  predicate Enabled(s: State, e: Event) {
    match e
      // A caller subscribes when nothing is active: first of all, or after unsubscribe.
    case Subscribe(_) => s.subscribing.Idle? && s.activeBackFillingId.None? && !s.listening
    case FinalizedKnown(_) => s.subscribing.AwaitFinalized?
    case LatestKnown(_) => s.subscribing.AwaitLatest?
    case Answered(r, answer) =>
      && r < |s.requests| && s.requests[r].answer.Pending? && !answer.Pending?
      && (answer.Success? ==> answer.block.number == s.requests[r].height)
    case JobWakes(key) => key in s.jobs && s.jobs[key].Throttled?
    case JobResumes(key) => key in s.jobs && s.jobs[key].Awaiting? && Settled(s, s.jobs[key].request)
    case BackFillResumes(session) => session in s.backFills && Settled(s, s.backFills[session])
    case LogArrives(_) => s.listening
    case LiveResumes => s.liveFetch.Some? && Settled(s, s.liveFetch.value)
    case TimerFires => s.listening
    case Unsubscribe => true
  }

  function Unsubscribed(s: State): State {
    s.(activeBackFillingId := None, queue := [], listening := false)
  }

  /** A call of subscribe, with a new observer, up to its first wait. */
  function Subscribed(s: State, startBlock: int): State {
    s.(subscribing := AwaitFinalized(startBlock), emitted := [], errored := false)
  }

  function FinalizedLearned(s: State, finalized: int): State
    requires s.subscribing.AwaitFinalized?
  {
    var start := s.subscribing.startBlock;
    s.(lastFinalizedBlock := finalized, queue := [], fatalError := false, nextBlock := start,
       cursor := Cursor(None, start - 1), subscribing := AwaitLatest(start))
  }

  function LiveStarted(s: State): State {
    s.(watched := s.cursor.lastBlockHash, listening := true, subscribing := Idle,
       base := |s.requests|, baseHeight := s.nextBlock)
  }

  function LatestLearned(s: State, latest: int, workers: nat): State
    requires s.subscribing.AwaitLatest?
  {
    if s.nextBlock > latest then s
    else if s.lastFinalizedBlock - 20 > s.subscribing.startBlock then BackFillStarted(s, workers)
    else LiveStarted(s)
  }

  function AnswerReceived(s: State, r: nat, answer: Answer): State
    requires r < |s.requests|
  {
    s.(requests := s.requests[r := s.requests[r].(answer := answer)])
  }

  function JobWoken(s: State, key: JobKey): State
    requires key in s.jobs
  {
    if |s.queue| >= QUEUE_LIMIT then s else s.(jobs := s.jobs[key := Awaiting(s.jobs[key].request)])
  }

  function JobResumed(s: State, key: JobKey): State {
    if s.activeBackFillingId == Some(key.session) && s.nextBlock + |s.queue| < s.lastFinalizedBlock then
      JobAdded(s, s.nextBlock + |s.queue| + 1, key)
    else s.(jobs := s.jobs - {key})
  }

  function BackFillResumed(s: State, session: nat): State
    requires session in s.backFills && Settled(s, s.backFills[session])
  {
    var answer, waited := s.requests[s.backFills[session]].answer, s.(backFills := s.backFills - {session});
    if answer.Failure? then waited.(activeBackFillingId := None, fatalError := true, errored := true)
    else if s.activeBackFillingId != Some(session) || s.fatalError then waited
    else
      BackFillLoop(waited.(emitted := s.emitted + [Emission(answer.block, false)], nextBlock := s.nextBlock + 1),
                   session)
  }

  function LogHandled(s: State, log: Log): State {
    if !Accepted(s.cursor, log) then s
    else
      var fetched := Fetched(s, Requested(s.cursor, log), 0).(cursor := Received(s.cursor, log));
      if s.processingQueue then fetched else LiveLoop(fetched.(processingQueue := true))
  }

  function LiveFailed(s: State): State {
    s.(liveFetch := None, processingQueue := false, fatalError := true, errored := true)
  }

  function LiveResumed(s: State): State
    requires s.liveFetch.Some? && Settled(s, s.liveFetch.value)
  {
    var answer := s.requests[s.liveFetch.value].answer;
    if answer.Failure? then LiveFailed(s) else LiveChecked(s, answer.block)
  }

  function LiveChecked(s: State, block: Block): State {
    var noted := s.(nextBlock := block.number + 1);
    if ReOrgMissed(s, block) then LiveFailed(noted)
    else
      LiveLoop(noted.(emitted := s.emitted + [Emission(block, true)],
                      lastEmittedBlock := Some(BlockRef(block.number, block.hash))))
  }

  /** Unsubscribes, and subscribes at the next block on behalf of the same observer. */
  function Restarted(s: State): State {
    Unsubscribed(s).(subscribing := AwaitFinalized(s.nextBlock))
  }

  function TimerFired(s: State): State {
    if s.cursor.lastBlockHash == s.watched then Restarted(s)
    else s.(watched := s.cursor.lastBlockHash)
  }

  function Next(s: State, e: Event, workers: nat): State
    requires Enabled(s, e)
  {
    match e
    case Subscribe(startBlock) => Subscribed(s, startBlock)
    case FinalizedKnown(finalized) => FinalizedLearned(s, finalized)
    case LatestKnown(latest) => LatestLearned(s, latest, workers)
    case Answered(r, answer) => AnswerReceived(s, r, answer)
    case JobWakes(key) => JobWoken(s, key)
    case JobResumes(key) => JobResumed(s, key)
    case BackFillResumes(session) => BackFillResumed(s, session)
    case LogArrives(log) => LogHandled(s, log)
    case LiveResumes => LiveResumed(s)
    case TimerFires => TimerFired(s)
    case Unsubscribe => Unsubscribed(s)
  }

  lemma FetchedInTurn(s: State, heights: seq<int>, height: int, worker: nat)
    ensures Fetched(Fetched(s, heights, worker), [height], worker) == Fetched(s, heights + [height], worker)
  {
    var once, twice := Fetched(s, heights + [height], worker), Fetched(Fetched(s, heights, worker), [height], worker);
    assert once.requests == twice.requests;
    assert once.queue == twice.queue;
  }

  lemma FetchedNothing(s: State, worker: nat)
    ensures Fetched(s, [], worker) == s
  {
    assert s.queue + Ids(|s.requests|, |s.requests|) == s.queue;
    assert s.requests + Asked([], worker) == s.requests;
  }

  /** The heights between the last one received and the one of a log. */
  function MissedBlocks(last: int, number: int): seq<int> {
    if number - last > 1 then Following(last, number - last - 1) else []
  }

  lemma MissedAndReceived(last: int, number: int)
    ensures MissedBlocks(last, number) + [number] == UpTo(last, number)
  {
    if number - last > 1 {
      FollowingOneMore(last, number - last - 1);
    }
  }

  class BlockSubscription {
    const workers: nat
    const queue: Queue<nat>
    var nextBlock: int
    var activeBackFillingId: Option<nat>
    var lastFinalizedBlock: int
    var fatalError: bool
    var lastBlockHash: Option<Hash>
    var lastReceivedBlockNumber: int
    var lastEmittedBlock: Option<BlockRef>
    var processingQueue: bool
    var listening: bool
    var watched: Option<Hash>
    var subscribing: Subscribing
    var requests: seq<Request>
    var jobs: map<JobKey, Job>
    var backFills: map<nat, nat>
    var liveFetch: Option<nat>
    var sessions: nat
    var base: nat
    var baseHeight: int
    var emitted: seq<Emission>
    var errored: bool

    ghost predicate Valid()
      reads this, queue
    {
      queue.Valid()
    }

    ghost function View(): State
      reads this, queue
    {
      State(queue.contents, nextBlock, activeBackFillingId, lastFinalizedBlock, fatalError,
            Cursor(lastBlockHash, lastReceivedBlockNumber), lastEmittedBlock, processingQueue,
            listening, watched, subscribing, requests, jobs, backFills, liveFetch,
            sessions, base, baseHeight, emitted, errored)
    }

    constructor (workers: nat)
      ensures Valid() && this.workers == workers && fresh(queue)
      ensures View() == FRESH
    {
      this.workers := workers;
      queue := new Queue();
      nextBlock, activeBackFillingId, lastFinalizedBlock, fatalError := 0, None, 0, false;
      lastBlockHash, lastReceivedBlockNumber, lastEmittedBlock, processingQueue := None, 0, None, false;
      listening, watched, subscribing, requests := false, None, Idle, [];
      jobs, backFills, liveFetch, sessions := map[], map[], None, 0;
      base, baseHeight, emitted, errored := 0, 0, [], false;
    }

    method Subscribe(startBlock: int)
      requires Valid()
      modifies this
      ensures Valid() && View() == Subscribed(old(View()), startBlock)
    {
      subscribing := AwaitFinalized(startBlock);
      emitted := [];
      errored := false;
    }

    /** subscribe, when the last finalized block has come in. */
    method OnFinalizedKnown(finalized: int)
      requires Valid() && subscribing.AwaitFinalized?
      modifies this, queue
      ensures Valid() && View() == Next(old(View()), FinalizedKnown(finalized), workers)
    {
      var startBlock := subscribing.startBlock;
      lastFinalizedBlock := finalized;
      var _ := queue.Clear();
      fatalError := false;
      nextBlock := startBlock;
      lastBlockHash := None;
      lastReceivedBlockNumber := startBlock - 1;
      subscribing := AwaitLatest(startBlock);
    }

    /** subscribe, when the head of the chain has come in: wait on, backfill, or listen to the logs. */
    method OnLatestKnown(latest: int)
      requires Valid() && subscribing.AwaitLatest?
      modifies this, queue
      ensures Valid() && View() == Next(old(View()), LatestKnown(latest), workers)
    {
      if nextBlock > latest {
        return;
      }
      if lastFinalizedBlock - 20 > subscribing.startBlock {
        BackFillBlocks();
        return;
      }
      StartListening();
    }

    method StartListening()
      requires Valid()
      modifies this
      ensures Valid() && View() == LiveStarted(old(View()))
    {
      watched := lastBlockHash;
      listening := true;
      MarkOrigin();
    }

    /** A session or a live phase begins here. */
    method MarkOrigin()
      requires Valid()
      modifies this`subscribing, this`base, this`baseHeight
      ensures Valid() && subscribing == Idle && base == |requests| && baseHeight == nextBlock
    {
      subscribing := Idle;
      base, baseHeight := |requests|, nextBlock;
    }

    /** backFillBlocks up to its first wait. */
    method BackFillBlocks()
      requires Valid()
      modifies this, queue
      ensures Valid() && View() == BackFillStarted(old(View()), workers)
    {
      var backFillingId := OpenSession();
      ghost var before := View();
      for i := 0 to workers
        invariant Valid() && nextBlock == before.nextBlock
        invariant JobsAdded(before, backFillingId, 0, workers) == JobsAdded(View(), backFillingId, i, workers)
      {
        AddWorkerJobToQueue(nextBlock + i, JobKey(backFillingId, i));
      }
      ContinueBackFill(backFillingId);
    }

    method OpenSession() returns (backFillingId: nat)
      requires Valid()
      modifies this
      ensures Valid() && View() == SessionOpened(old(View())) && backFillingId == old(sessions)
    {
      backFillingId := sessions;
      sessions := sessions + 1;
      activeBackFillingId := Some(backFillingId);
      MarkOrigin();
    }

    /** The backfill loop from its head to its next wait. */
    method ContinueBackFill(backFillingId: nat)
      requires Valid()
      modifies this, queue
      ensures Valid() && View() == BackFillLoop(old(View()), backFillingId)
    {
      var empty := queue.IsEmpty();
      if nextBlock <= lastFinalizedBlock && !empty {
        var promise := queue.Shift();
        backFills := backFills[backFillingId := promise.value];
        return;
      }
      activeBackFillingId := None;
      subscribing := AwaitFinalized(nextBlock);
    }

    method GetBlockFromWorker(blockNumber: int, worker: nat) returns (request: nat)
      requires Valid()
      modifies this`requests
      ensures Valid() && request == |old(requests)|
      ensures requests == old(requests) + [Request(blockNumber, worker, Pending)]
    {
      request := |requests|;
      requests := requests + [Request(blockNumber, worker, Pending)];
    }

    /** Asks a worker for the block and enqueues the promise. */
    method EnqueueFetch(blockNumber: int, worker: nat)
      requires Valid()
      modifies this`requests, queue
      ensures Valid() && View() == Fetched(old(View()), [blockNumber], worker)
    {
      var request := GetBlockFromWorker(blockNumber, worker);
      queue.Enqueue(request);
      assert Asked([blockNumber], worker) == [Request(blockNumber, worker, Pending)];
      assert Ids(request, request + 1) == [request];
    }

    method AddWorkerJobToQueue(blockNumber: int, key: JobKey)
      requires Valid()
      modifies this, queue
      ensures Valid() && View() == JobAdded(old(View()), blockNumber, key)
    {
      var request := |requests|;
      EnqueueFetch(blockNumber, key.worker);
      var length := queue.GetLength();
      jobs := jobs[key := if length >= QUEUE_LIMIT then Throttled(request) else Awaiting(request)];
    }

    /** The promise of a request settles. */
    method OnAnswered(request: nat, answer: Answer)
      requires Valid() && Enabled(View(), Answered(request, answer))
      modifies this
      ensures Valid() && View() == Next(old(View()), Answered(request, answer), workers)
    {
      requests := requests[request := requests[request].(answer := answer)];
    }

    /** addWorkerJobToQueue, after a pause for the length of the queue. */
    method OnJobWakes(key: JobKey)
      requires Valid() && Enabled(View(), JobWakes(key))
      modifies this
      ensures Valid() && View() == Next(old(View()), JobWakes(key), workers)
    {
      var length := queue.GetLength();
      if length < QUEUE_LIMIT {
        jobs := jobs[key := Awaiting(jobs[key].request)];
      }
    }

    /** addWorkerJobToQueue, after its own block has arrived or failed. */
    method OnJobResumes(key: JobKey)
      requires Valid() && Enabled(View(), JobResumes(key))
      modifies this, queue
      ensures Valid() && View() == Next(old(View()), JobResumes(key), workers)
    {
      var length := queue.GetLength();
      if activeBackFillingId == Some(key.session) && nextBlock + length < lastFinalizedBlock {
        AddWorkerJobToQueue(nextBlock + length + 1, key);
      } else {
        jobs := jobs - {key};
      }
    }

    /** The backfill loop of a session, after the block it was waiting for. */
    method OnBackFillResumes(session: nat)
      requires Valid() && Enabled(View(), BackFillResumes(session))
      modifies this, queue
      ensures Valid() && View() == Next(old(View()), BackFillResumes(session), workers)
    {
      var answer := requests[backFills[session]].answer;
      backFills := backFills - {session};
      if answer.Failure? {
        FailBackFill();
      } else if activeBackFillingId == Some(session) && !fatalError {
        EmitBackFilled(session, answer.block);
      }
    }

    method FailBackFill()
      requires Valid()
      modifies this`activeBackFillingId, this`fatalError, this`errored
      ensures Valid()
      ensures View() == old(View()).(activeBackFillingId := None, fatalError := true, errored := true)
    {
      activeBackFillingId := None;
      fatalError := true;
      errored := true;
    }

    method EmitBackFilled(session: nat, block: Block)
      requires Valid()
      modifies this, queue
      ensures Valid()
      ensures View() == BackFillLoop(old(View()).(emitted := old(emitted) + [Emission(block, false)],
                                                  nextBlock := old(nextBlock) + 1), session)
    {
      emitted := emitted + [Emission(block, false)];
      nextBlock := nextBlock + 1;
      ContinueBackFill(session);
    }

    /** The handler of log events. */
    method OnLog(log: Log)
      requires Valid()
      modifies this, queue
      ensures Valid() && View() == LogHandled(old(View()), log)
    {
      if log.blockHash.None? || log.blockHash.value == ZERO_HASH || log.blockNumber.None?
         || log.blockNumber.value < lastReceivedBlockNumber {
        return;
      }
      if lastBlockHash == log.blockHash {
        return;
      }
      EnqueueUpTo(log.blockHash, log.blockNumber.value);
      if !processingQueue {
        ProcessQueue();
      }
    }

    /** Fetches the blocks passed over and the block of the log, and moves the cursor there. */
    method EnqueueUpTo(blockHash: Option<Hash>, number: int)
      requires Valid() && number >= lastReceivedBlockNumber
      modifies this, queue
      ensures Valid()
      ensures View() == Fetched(old(View()), UpTo(old(lastReceivedBlockNumber), number), 0)
                        .(cursor := Cursor(blockHash, number))
    {
      ghost var before, last := View(), lastReceivedBlockNumber;
      ghost var missed := MissedBlocks(last, number);
      FetchMissed(number);
      FetchedInTurn(before, missed, number, 0);
      MissedAndReceived(last, number);
      EnqueueFetch(number, 0);
      lastBlockHash := blockHash;
      lastReceivedBlockNumber := number;
    }

    method FetchMissed(number: int)
      requires Valid()
      modifies this`requests, queue
      ensures Valid() && View() == Fetched(old(View()), MissedBlocks(lastReceivedBlockNumber, number), 0)
    {
      FetchedNothing(View(), 0);
      if number - lastReceivedBlockNumber > 1 {
        EnqueueMissedBlocks(number);
      }
    }

    method EnqueueMissedBlocks(currentBlockNumber: int)
      requires Valid() && currentBlockNumber - lastReceivedBlockNumber > 1
      modifies this`requests, queue
      ensures Valid()
      ensures View() == Fetched(old(View()),
                                Following(lastReceivedBlockNumber, currentBlockNumber - lastReceivedBlockNumber - 1), 0)
    {
      ghost var before, last := View(), lastReceivedBlockNumber;
      FetchedNothing(before, 0);
      FollowingOneMore(last, 0);
      for i := 1 to currentBlockNumber - lastReceivedBlockNumber
        invariant Valid()
        invariant View() == Fetched(before, Following(last, i - 1), 0)
      {
        FetchedInTurn(before, Following(last, i - 1), last + i, 0);
        FollowingOneMore(last, i - 1);
        EnqueueFetch(lastReceivedBlockNumber + i, 0);
      }
    }

    method ProcessQueue()
      requires Valid()
      modifies this, queue
      ensures Valid() && View() == LiveLoop(old(View()).(processingQueue := true))
    {
      processingQueue := true;
      ContinueLive();
    }

    /** The live loop from its head to its next wait. */
    method ContinueLive()
      requires Valid()
      modifies this, queue
      ensures Valid() && View() == LiveLoop(old(View()))
    {
      var empty := queue.IsEmpty();
      if !empty && !fatalError {
        var promise := queue.Shift();
        liveFetch := Some(promise.value);
        return;
      }
      liveFetch := None;
      processingQueue := false;
    }

    method FailLive()
      requires Valid()
      modifies this`liveFetch, this`fatalError, this`errored, this`processingQueue
      ensures Valid() && View() == LiveFailed(old(View()))
    {
      liveFetch := None;
      fatalError := true;
      errored := true;
      processingQueue := false;
    }

    /** The live loop, after the block it was waiting for. */
    method OnLiveResumes()
      requires Valid() && Enabled(View(), LiveResumes)
      modifies this, queue
      ensures Valid() && View() == Next(old(View()), LiveResumes, workers)
    {
      var answer := requests[liveFetch.value].answer;
      if answer.Failure? {
        FailLive();
      } else {
        CheckAndEmit(answer.block);
      }
    }

    method CheckAndEmit(block: Block)
      requires Valid()
      modifies this, queue
      ensures Valid() && View() == LiveChecked(old(View()), block)
    {
      nextBlock := block.number + 1;
      if lastEmittedBlock.Some? && block.number > lastEmittedBlock.value.number
         && lastEmittedBlock.value.hash != block.parentHash {
        FailLive();
      } else {
        EmitLive(block);
      }
    }

    method EmitLive(block: Block)
      requires Valid()
      modifies this, queue
      ensures Valid()
      ensures View() == LiveLoop(old(View()).(emitted := old(emitted) + [Emission(block, true)],
                                              lastEmittedBlock := Some(BlockRef(block.number, block.hash))))
    {
      emitted := emitted + [Emission(block, true)];
      lastEmittedBlock := Some(BlockRef(block.number, block.hash));
      ContinueLive();
    }

    /** The liveness timer. */
    method OnTimerFires()
      requires Valid() && Enabled(View(), TimerFires)
      modifies this, queue
      ensures Valid() && View() == Next(old(View()), TimerFires, workers)
    {
      if lastBlockHash == watched {
        OnUnsubscribe();
        subscribing := AwaitFinalized(nextBlock);
      } else {
        watched := lastBlockHash;
      }
    }

    method OnUnsubscribe()
      requires Valid()
      modifies this, queue
      ensures Valid() && View() == Unsubscribed(old(View()))
    {
      activeBackFillingId := None;
      var _ := queue.Clear();
      listening := false;
    }
  }
}
