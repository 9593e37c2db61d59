/** internal/kafka/consumer: messages are handled one by one or concurrently, and committed strictly in order. */
module KafkaConsumers {
  import opened Chain
  import opened Queues

  datatype Message = Message(offset: int, payload: int)

  /** A thrown value: one of the library's own errors with its fatal flag, an error of the Kafka client with
      its flag, or anything else. */
  datatype Error = Base(fatal: bool) | Librd(fatal: bool) | Other

  datatype Outcome = Succeeds | Fails(error: Error)

  /** KafkaError.createUnknown: own errors stay as they are, unknown values become fatal. */
  function CreateUnknown(error: Error): Error {
    match error
    case Base(fatal) => error
    case Librd(fatal) => Base(fatal)
    case Other => Base(true)
  }

  /** The state of one retryPromise: still calling the observer after `errorCount` failures, or settled. */
  datatype Promise = Calling(errorCount: nat) | Fulfilled | Rejected(error: Error)

  /** What retryPromise does with the outcome of its current call of the observer. */
  function RetryPromise(errorCount: nat, outcome: Outcome, maxRetries: nat): Promise {
    match outcome
    case Succeeds => Fulfilled
    case Fails(error) =>
      if errorCount >= maxRetries || error == Base(true) then Rejected(CreateUnknown(error))
      else Calling(errorCount + 1)
  }

  /** The calls of the observer that one retryPromise makes, given what each of them would come to. */
  function Retried(outcomes: seq<Outcome>, errorCount: nat, maxRetries: nat): Promise
    decreases |outcomes|
  {
    if outcomes == [] then Calling(errorCount)
    else
      var next := RetryPromise(errorCount, outcomes[0], maxRetries);
      if next.Calling? then Retried(outcomes[1..], next.errorCount, maxRetries) else next
  }

  /** Call n is the one that exhausts the retries or fails fatally, after nothing but failures. */
  ghost predicate GivenUpAt(outcomes: seq<Outcome>, errorCount: nat, maxRetries: nat, n: nat) {
    && n < |outcomes|
    && (forall i :: 0 <= i <= n ==> outcomes[i].Fails?)
    && (errorCount + n == maxRetries || outcomes[n].error == Base(true))
  }

  /** Own errors and those of the Kafka client say so of themselves; a thrown value of any other kind is fatal. */
  predicate IsFatal(error: Error) {
    error == Base(true) || error == Librd(true) || error.Other?
  }

  /** A message is given up exactly after maxRetries + 1 failures, or at the first fatal one, with no success before. */
  lemma {:induction false} RetriesAreBounded(outcomes: seq<Outcome>, errorCount: nat, maxRetries: nat)
    requires errorCount <= maxRetries
    ensures Retried(outcomes, errorCount, maxRetries).Rejected? <==>
            exists n :: GivenUpAt(outcomes, errorCount, maxRetries, n)
    decreases |outcomes|
  {
    if outcomes != [] {
      var next := RetryPromise(errorCount, outcomes[0], maxRetries);
      if next.Calling? {
        var rest := outcomes[1..];
        RetriesAreBounded(rest, next.errorCount, maxRetries);
        if n: nat :| GivenUpAt(rest, next.errorCount, maxRetries, n) {
          assert forall i :: 0 < i <= n + 1 ==> outcomes[i] == rest[i - 1];
          assert GivenUpAt(outcomes, errorCount, maxRetries, n + 1);
        }
        if n: nat :| GivenUpAt(outcomes, errorCount, maxRetries, n) {
          assert n > 0;
          assert forall i :: 0 <= i < n ==> rest[i] == outcomes[i + 1];
          assert GivenUpAt(rest, next.errorCount, maxRetries, n - 1);
        }
      } else if next.Rejected? {
        assert GivenUpAt(outcomes, errorCount, maxRetries, 0);
      }
    }
  }

  /** A message that is given up is rejected with an error of the library's own, as fatal as the failure it was given
      up at. */
  lemma {:induction false} GivenUpAsFatal(outcomes: seq<Outcome>, errorCount: nat, maxRetries: nat, n: nat)
    requires errorCount + n <= maxRetries && GivenUpAt(outcomes, errorCount, maxRetries, n)
    requires forall i :: 0 <= i < n ==> outcomes[i].error != Base(true)
    ensures Retried(outcomes, errorCount, maxRetries) == Rejected(Base(IsFatal(outcomes[n].error)))
    decreases |outcomes|
  {
    if n > 0 {
      assert forall i :: 0 <= i < n ==> outcomes[1..][i] == outcomes[i + 1];
      assert outcomes[0].Fails?;
      GivenUpAsFatal(outcomes[1..], errorCount + 1, maxRetries, n - 1);
    }
  }

  /** An entry of the internal queue. `index` is the place of the message among all accepted ones; only the
      concurrent form carries a promise, and it is the one started for that message. */
  datatype Element = Element(message: Message, index: nat, promise: Option<nat>)

  datatype Config = Config(concurrent: bool, maxRetries: nat, maxBufferLength: nat, startOffset: int)

  /** The consumer between two steps of the event loop, with the record of what it has accepted, committed and had
      handled with success, and whether the observer has been told of an error. `seeking` counts the seeks to the
      start offset under way; `stopping` says that the consumer is being disconnected. */
  datatype State = State(
    queue: seq<Element>, queueIsProcessing: bool, errorCount: nat, consumerPaused: bool, promises: seq<Promise>,
    accepted: seq<Message>, committed: seq<Message>, handled: set<nat>, errored: bool,
    seekCalled: bool, seeking: nat, stopping: bool)

  datatype Event =
      // A message arrives, and is deserialised unless it is skipped.
    | Data(message: Message)
      // A message arrives that is not behind the start offset, and cannot be deserialised.
    | BadData(error: Error)
      // A seek to the start offset comes to an end, with a fault or without.
    | SeekEnds(failure: Option<Error>)
      // One call of the observer made by a promise of the concurrent form comes to an end.
    | CallEnds(promise: nat, outcome: Outcome)
      // The wait of processQueue is over: `outcome` is what the call of the observer came to in the one-by-one form;
      // `faults` attempts to commit are going to throw `fault`.
    | WaitEnds(outcome: Outcome, faults: nat, fault: Error)

  function Backpressure(s: State, max: nat): State {
    if !s.consumerPaused && max <= |s.queue| then s.(consumerPaused := true)
    else if s.consumerPaused && |s.queue| < max then s.(consumerPaused := false)
    else s
  }

  function OnError(s: State, error: Error): State {
    if CreateUnknown(error) == Base(true) then s.(queue := [], errored := true, stopping := true)
    else s.(errored := true)
  }

  /** What the wait of processQueue resolves to. */
  function WaitOutcome(s: State, outcome: Outcome): Outcome
    requires s.queue != [] && (s.queue[0].promise.Some? ==> s.queue[0].promise.value < |s.promises|)
  {
    if s.queue[0].promise.None? then outcome
    else
      match s.promises[s.queue[0].promise.value]
      case Rejected(error) => Fails(error)
      case _ => Succeeds
  }

  function SafeCommit(s: State, message: Message, faults: nat, fault: Error, config: Config): State {
    if faults <= config.maxRetries then s.(committed := s.committed + [message]) else OnError(s, fault)
  }

  /** A message behind the start offset is dropped, and has the consumer seek unless a seek has gone through. */
  function Skipped(s: State): State {
    if s.seekCalled then s else s.(seeking := s.seeking + 1)
  }

  /** The message enters the queue; in the concurrent form its handling begins at once. */
  function Queued(s: State, message: Message, config: Config): State {
    var element := Element(message, |s.accepted|, if config.concurrent then Some(|s.promises|) else None);
    s.(queue := s.queue + [element], accepted := s.accepted + [message],
       promises := if config.concurrent then s.promises + [Calling(0)] else s.promises)
  }

  /** The loop of processQueue after a commit, up to its next wait. */
  function Advanced(s: State, config: Config): State {
    var shifted := s.(queue := Shifted(s.queue).1, errorCount := 0);
    var pressed := Backpressure(shifted, config.maxBufferLength);
    if pressed.queue == [] then pressed.(queueIsProcessing := false) else pressed
  }

  /** The loop of processQueue after its wait has ended well. */
  function Handled(s: State, faults: nat, fault: Error, config: Config): State
    requires s.queue != []
  {
    var element := s.queue[0];
    var noted := if element.promise.None? then s.(handled := s.handled + {element.index}) else s;
    Advanced(SafeCommit(noted, element.message, faults, fault, config), config)
  }

  predicate Enabled(s: State, e: Event) {
    match e
    case Data(_) => true
    case BadData(_) => true
    case SeekEnds(_) => s.seeking > 0
    case CallEnds(p, _) => p < |s.promises| && s.promises[p].Calling?
    case WaitEnds(_, _, _) =>
      && s.queueIsProcessing && s.queue != []
      && (s.queue[0].promise.Some? ==>
            s.queue[0].promise.value < |s.promises| && !s.promises[s.queue[0].promise.value].Calling?)
  }

  function Next(s: State, e: Event, config: Config): State
    requires Enabled(s, e)
  {
    match e
    case Data(message) =>
      if message.offset < config.startOffset then Skipped(s)
      else
        var pressed := Backpressure(Queued(s, message, config), config.maxBufferLength);
        if s.queueIsProcessing then pressed else pressed.(queueIsProcessing := true, errorCount := 0)
    case BadData(error) => OnError(s, error)
    case SeekEnds(failure) =>
      var sought := s.(seeking := s.seeking - 1);
      if failure.Some? then OnError(sought, failure.value) else sought.(seekCalled := true)
    case CallEnds(p, outcome) =>
      s.(promises := s.promises[p := RetryPromise(s.promises[p].errorCount, outcome, config.maxRetries)],
         handled := if outcome.Succeeds? then s.handled + {p} else s.handled)
    case WaitEnds(outcome, faults, fault) =>
      match WaitOutcome(s, outcome)
      case Succeeds => Handled(s, faults, fault, config)
      case Fails(error) =>
        if s.errorCount + 1 > config.maxRetries || error == Base(true) then
          OnError(s.(errorCount := s.errorCount + 1), error)
        else s.(errorCount := s.errorCount + 1)
  }

  /** Runs end with the first error reported to the observer. */
  ghost predicate Feasible(s: State, events: seq<Event>, config: Config)
    decreases |events|
  {
    events != [] ==> !s.errored && Enabled(s, events[0]) && Feasible(Next(s, events[0], config), events[1..], config)
  }

  function Run(s: State, events: seq<Event>, config: Config): State
    requires Feasible(s, events, config)
    decreases |events|
  {
    if events == [] then s else Run(Next(s, events[0], config), events[1..], config)
  }

  const START := State([], false, 0, false, [], [], [], {}, false, false, 0, false)

  // ---- Ordered commit ----

  /** Committed messages are a prefix of the accepted ones, each handled with success. */
  ghost predicate CommittedInOrder(s: State) {
    && s.committed <= s.accepted
    && (forall k :: 0 <= k < |s.committed| ==> k in s.handled)
  }

  /** The queue is the accepted rest, in order. */
  ghost predicate QueueIsRest(s: State) {
    && |s.committed| + |s.queue| == |s.accepted|
    && (forall i :: 0 <= i < |s.queue| ==>
          s.queue[i].index == |s.committed| + i && s.queue[i].message == s.accepted[|s.committed| + i])
  }

  ghost predicate PromisesInStep(s: State, config: Config) {
    if config.concurrent then
      && |s.promises| == |s.accepted|
      && (forall i :: 0 <= i < |s.queue| ==> s.queue[i].promise == Some(s.queue[i].index))
      && (forall p :: 0 <= p < |s.promises| ==>
            match s.promises[p]
            case Fulfilled => p in s.handled
            case Calling(n) => n <= config.maxRetries
            case Rejected(_) => true)
    else s.promises == [] && forall i :: 0 <= i < |s.queue| ==> s.queue[i].promise == None
  }

  ghost predicate NotBehind(messages: seq<Message>, startOffset: int) {
    forall i :: 0 <= i < |messages| ==> startOffset <= messages[i].offset
  }

  ghost predicate Consistent(s: State, config: Config) {
    && CommittedInOrder(s) && QueueIsRest(s) && PromisesInStep(s, config)
    && (s.queueIsProcessing <==> s.queue != [])
    && (s.consumerPaused <==> config.maxBufferLength <= |s.queue|)
    && s.errorCount <= config.maxRetries && !s.stopping
    && NotBehind(s.accepted, config.startOffset)
    && (forall k :: k in s.handled ==> k < |s.accepted| && (!config.concurrent ==> k <= |s.committed|))
  }

  lemma QueuedKeepsOrder(s: State, message: Message, config: Config)
    requires Consistent(s, config) && config.startOffset <= message.offset
    ensures var s' := Queued(s, message, config);
            CommittedInOrder(s') && QueueIsRest(s') && PromisesInStep(s', config)
            && NotBehind(s'.accepted, config.startOffset)
  {
    var s' := Queued(s, message, config);
    assert QueueIsRest(s');
  }

  lemma DataKeepsOrder(s: State, message: Message, config: Config)
    requires config.maxBufferLength > 0 && config.startOffset <= message.offset
    requires Consistent(s, config) && !s.errored
    ensures Consistent(Next(s, Data(message), config), config) && !Next(s, Data(message), config).errored
  {
    QueuedKeepsOrder(s, message, config);
    PressureKeepsOrder(Queued(s, message, config), config);
    assert Queued(s, message, config).queue != [];
  }

  lemma PressureKeepsOrder(s: State, config: Config)
    ensures var s' := Backpressure(s, config.maxBufferLength);
            && s' == s.(consumerPaused := s'.consumerPaused)
            && (s'.consumerPaused <==> config.maxBufferLength <= |s.queue|)
  {
  }

  lemma SkippingKeepsOrder(s: State, config: Config)
    requires Consistent(s, config) && !s.errored
    ensures Consistent(Skipped(s), config) && !Skipped(s).errored
  {
  }

  lemma SeekEndKeepsOrder(s: State, e: Event, config: Config)
    requires e.SeekEnds? && Enabled(s, e)
    requires Consistent(s, config) && !s.errored
    ensures var s' := Next(s, e, config);
            if s'.errored then CommittedInOrder(s') else Consistent(s', config)
  {
    var sought := s.(seeking := s.seeking - 1);
    if e.failure.Some? {
      ErrorKeepsCommits(s, sought, e.failure.value);
    }
  }

  lemma CallEndKeepsOrder(s: State, e: Event, config: Config)
    requires e.CallEnds? && Enabled(s, e)
    requires Consistent(s, config) && !s.errored
    ensures Consistent(Next(s, e, config), config) && !Next(s, e, config).errored
  {
    var s' := Next(s, e, config);
    assert CommittedInOrder(s') && QueueIsRest(s');
    assert PromisesInStep(s', config);
  }

  lemma WaitEndKeepsOrder(s: State, e: Event, config: Config)
    requires config.maxBufferLength > 0 && e.WaitEnds? && Enabled(s, e)
    requires Consistent(s, config) && !s.errored
    ensures var s' := Next(s, e, config);
            if s'.errored then CommittedInOrder(s') else Consistent(s', config)
  {
    if WaitOutcome(s, e.outcome).Succeeds? {
      HandlingKeepsOrder(s, e, config);
    } else {
      ErrorKeepsCommits(s, s.(errorCount := s.errorCount + 1), WaitOutcome(s, e.outcome).error);
    }
  }

  lemma HandlingKeepsOrder(s: State, e: Event, config: Config)
    requires e.WaitEnds? && Enabled(s, e) && WaitOutcome(s, e.outcome).Succeeds?
    requires Consistent(s, config) && !s.errored
    ensures var s' := Handled(s, e.faults, e.fault, config);
            if s'.errored then CommittedInOrder(s') else Consistent(s', config)
  {
    var noted := FrontHandled(s, e, config);
    var settled := SafeCommit(noted, s.queue[0].message, e.faults, e.fault, config);
    assert Handled(s, e.faults, e.fault, config) == Advanced(settled, config);
    if e.faults <= config.maxRetries {
      CommitKeepsOrder(s, noted, config);
    } else {
      ErrorKeepsCommits(s, noted, e.fault);
      AdvancingKeepsCommits(settled, config);
    }
  }

  lemma ErrorKeepsCommits(s: State, s': State, error: Error)
    requires CommittedInOrder(s)
    requires s'.committed == s.committed && s'.accepted == s.accepted && s.handled <= s'.handled
    ensures OnError(s', error).errored && CommittedInOrder(OnError(s', error))
  {
  }

  lemma AdvancingKeepsCommits(s: State, config: Config)
    requires s.errored && CommittedInOrder(s)
    ensures Advanced(s, config).errored && CommittedInOrder(Advanced(s, config))
  {
  }

  /** When the wait ends well, the front message has been handled. */
  lemma FrontHandled(s: State, e: Event, config: Config) returns (noted: State)
    requires e.WaitEnds? && Enabled(s, e) && Consistent(s, config) && !s.errored
    requires WaitOutcome(s, e.outcome).Succeeds?
    ensures noted == if s.queue[0].promise.None? then s.(handled := s.handled + {s.queue[0].index}) else s
    ensures |s.committed| in noted.handled
  {
    noted := if s.queue[0].promise.None? then s.(handled := s.handled + {s.queue[0].index}) else s;
  }

  /** The state right after the commit of the front message, and its removal from the queue. */
  ghost predicate Committed(s: State, s': State, noted: State) {
    && s.queue != [] && s.handled <= noted.handled <= s.handled + {|s.committed|} && |s.committed| in noted.handled
    && s' == s.(handled := noted.handled, committed := s.committed + [s.queue[0].message], queue := s.queue[1..],
                errorCount := 0, consumerPaused := s'.consumerPaused, queueIsProcessing := s'.queueIsProcessing)
  }

  lemma AdvancedAfterCommit(s: State, noted: State, config: Config)
    requires s.queue != [] && s.queueIsProcessing && |s.committed| in noted.handled
    requires noted == s.(handled := noted.handled) && s.handled <= noted.handled <= s.handled + {|s.committed|}
    ensures var s' := Advanced(noted.(committed := noted.committed + [s.queue[0].message]), config);
            && Committed(s, s', noted) && (s'.queueIsProcessing <==> s'.queue != [])
            && (s'.consumerPaused <==> config.maxBufferLength <= |s'.queue|)
  {
    var shifted := noted.(committed := noted.committed + [s.queue[0].message], queue := s.queue[1..], errorCount := 0);
    PressureKeepsOrder(shifted, config);
  }

  lemma CommitKeepsQueue(s: State, s': State, noted: State, config: Config)
    requires Consistent(s, config) && Committed(s, s', noted)
    ensures CommittedInOrder(s') && QueueIsRest(s')
  {
    assert s.queue[0].message == s.accepted[|s.committed|];
  }

  lemma CommitKeepsPromises(s: State, s': State, noted: State, config: Config)
    requires Consistent(s, config) && Committed(s, s', noted)
    ensures PromisesInStep(s', config)
  {
  }

  lemma CommitKeepsOrder(s: State, noted: State, config: Config)
    requires Consistent(s, config) && !s.errored && s.queue != []
    requires noted == s.(handled := noted.handled) && s.handled <= noted.handled <= s.handled + {|s.committed|}
    requires |s.committed| in noted.handled
    ensures var s' := Advanced(noted.(committed := noted.committed + [s.queue[0].message]), config);
            Consistent(s', config) && !s'.errored
  {
    var s' := Advanced(noted.(committed := noted.committed + [s.queue[0].message]), config);
    AdvancedAfterCommit(s, noted, config);
    CommitKeepsQueue(s, s', noted, config);
    CommitKeepsPromises(s, s', noted, config);
  }

  lemma {:induction false} OrderKept(s: State, events: seq<Event>, config: Config)
    requires config.maxBufferLength > 0
    requires (s.errored && CommittedInOrder(s)) || (!s.errored && Consistent(s, config))
    requires Feasible(s, events, config)
    ensures var end := Run(s, events, config);
            && CommittedInOrder(end)
            && (!end.errored ==> Consistent(end, config))
    decreases |events|
  {
    if events != [] {
      match events[0] {
        case Data(message) =>
          if message.offset < config.startOffset {
            SkippingKeepsOrder(s, config);
          } else {
            DataKeepsOrder(s, message, config);
          }
        case BadData(error) => ErrorKeepsCommits(s, s, error);
        case SeekEnds(_) => SeekEndKeepsOrder(s, events[0], config);
        case CallEnds(_, _) => CallEndKeepsOrder(s, events[0], config);
        case WaitEnds(_, _, _) => WaitEndKeepsOrder(s, events[0], config);
      }
      OrderKept(Next(s, events[0], config), events[1..], config);
    }
  }

  function Messages(queue: seq<Element>): (messages: seq<Message>)
    ensures |messages| == |queue|
    ensures forall i :: 0 <= i < |queue| ==> messages[i] == queue[i].message
  {
    seq(|queue|, i requires 0 <= i < |queue| => queue[i].message)
  }

  /** For every interleaving of arrivals, ends of calls, retries and commits, up to and including the first error, in
      both forms: the committed messages are a prefix of the accepted ones, and each was handled with success. */
  lemma CommittedPrefix(events: seq<Event>, config: Config)
    requires config.maxBufferLength > 0 && Feasible(START, events, config)
    ensures var end := Run(START, events, config);
            end.committed <= end.accepted && forall k :: 0 <= k < |end.committed| ==> k in end.handled
  {
    OrderKept(START, events, config);
  }

  /** Before the first error no accepted message is lost or overtaken, and none is behind the start offset; the drain
      is at rest exactly when everything accepted is committed; the consumer is paused exactly while the buffer is full;
      and the one-by-one form handles no message beyond the next one to be committed. */
  lemma NothingLostBeforeError(events: seq<Event>, config: Config)
    requires config.maxBufferLength > 0 && Feasible(START, events, config)
    ensures var end := Run(START, events, config);
            !end.errored ==>
              && end.accepted == end.committed + Messages(end.queue)
              && (!end.queueIsProcessing <==> end.committed == end.accepted)
              && (end.consumerPaused <==> config.maxBufferLength <= |end.accepted| - |end.committed|)
              && (!config.concurrent ==> forall k :: k in end.handled ==> k <= |end.committed|)
              && NotBehind(end.accepted, config.startOffset)
  {
    OrderKept(START, events, config);
  }

  class KafkaConsumer {
    const config: Config
    const queue: Queue<Element>
    var queueIsProcessing: bool
    var errorCount: nat
    var consumerPaused: bool
    var promises: seq<Promise>
    var accepted: seq<Message>
    var committed: seq<Message>
    var handled: set<nat>
    var errored: bool
    var seekCalled: bool
    var seeking: nat
    var stopping: bool

    ghost predicate Valid()
      reads this, queue
    {
      queue.Valid()
    }

    ghost function View(): State
      reads this, queue
    {
      State(queue.contents, queueIsProcessing, errorCount, consumerPaused, promises, accepted, committed, handled,
            errored, seekCalled, seeking, stopping)
    }

    constructor (config: Config)
      ensures Valid() && View() == START && this.config == config && fresh(queue)
    {
      this.config := config;
      queue := new Queue();
      queueIsProcessing, errorCount, consumerPaused, promises := false, 0, false, [];
      accepted, committed, handled, errored := [], [], {}, false;
      seekCalled, seeking, stopping := false, 0, false;
    }

    method HandleBackpressure()
      requires Valid()
      modifies this
      ensures Valid() && View() == Backpressure(old(View()), config.maxBufferLength)
    {
      var length := queue.GetLength();
      if !consumerPaused && config.maxBufferLength <= length {
        consumerPaused := true;
        return;
      }
      if consumerPaused && length < config.maxBufferLength {
        consumerPaused := false;
      }
    }

    method ReportError(error: Error)
      requires Valid()
      modifies this, queue
      ensures Valid() && View() == OnError(old(View()), error)
    {
      if CreateUnknown(error) == Base(true) {
        var _ := queue.Clear();
        stopping := true;
      }
      errored := true;
    }

    /** A Kafka message, deserialised, from its arrival to the first wait of processQueue. */
    method OnData(message: Message)
      requires Valid()
      modifies this, queue
      ensures Valid() && View() == Next(old(View()), Data(message), config)
    {
      if message.offset < config.startOffset {
        Skip();
        return;
      }
      EnqueueMessage(message);
      HandleBackpressure();
      if !queueIsProcessing {
        errorCount := 0;
        queueIsProcessing := true;
      }
    }

    method Skip()
      requires Valid()
      modifies this`seeking
      ensures Valid() && View() == Skipped(old(View()))
    {
      if !seekCalled {
        seeking := seeking + 1;
      }
    }

    method EnqueueMessage(message: Message)
      requires Valid()
      modifies this`promises, this`accepted, queue
      ensures Valid() && View() == Queued(old(View()), message, config)
    {
      if config.concurrent {
        queue.Enqueue(Element(message, |accepted|, Some(|promises|)));
        promises := promises + [Calling(0)];
      } else {
        queue.Enqueue(Element(message, |accepted|, None));
      }
      accepted := accepted + [message];
    }

    method OnBadData(error: Error)
      requires Valid()
      modifies this, queue
      ensures Valid() && View() == Next(old(View()), BadData(error), config)
    {
      ReportError(error);
    }

    method OnSeekEnds(failure: Option<Error>)
      requires Valid() && seeking > 0
      modifies this, queue
      ensures Valid() && View() == Next(old(View()), SeekEnds(failure), config)
    {
      seeking := seeking - 1;
      if failure.Some? {
        ReportError(failure.value);
      } else {
        seekCalled := true;
      }
    }

    method OnCallEnds(promise: nat, outcome: Outcome)
      requires Valid() && promise < |promises| && promises[promise].Calling?
      modifies this
      ensures Valid() && View() == Next(old(View()), CallEnds(promise, outcome), config)
    {
      promises := promises[promise := RetryPromise(promises[promise].errorCount, outcome, config.maxRetries)];
      if outcome.Succeeds? {
        handled := handled + {promise};
      }
    }

    /** Tries again until the commit goes through or the retries are used up. */
    method SafeCommitMessage(message: Message, faults: nat, fault: Error, errorCount: nat)
      requires Valid() && errorCount <= config.maxRetries
      modifies this, queue
      ensures Valid()
      ensures View() == if faults + errorCount <= config.maxRetries
                        then old(View()).(committed := old(committed) + [message])
                        else OnError(old(View()), fault)
      decreases faults
    {
      if faults == 0 {
        committed := committed + [message];
      } else if config.maxRetries <= errorCount {
        ReportError(fault);
      } else {
        SafeCommitMessage(message, faults - 1, fault, errorCount + 1);
      }
    }

    /** Drops the front message and goes back to the head of the loop. */
    method Advance()
      requires Valid()
      modifies this, queue
      ensures Valid() && View() == Advanced(old(View()), config)
    {
      var _ := queue.Shift();
      HandleBackpressure();
      errorCount := 0;
      var empty := queue.IsEmpty();
      if empty {
        queueIsProcessing := false;
      }
    }

    /** The loop of processQueue from the end of one wait to the next. */
    method OnWaitEnds(outcome: Outcome, faults: nat, fault: Error)
      requires Valid() && Enabled(View(), WaitEnds(outcome, faults, fault))
      modifies this, queue
      ensures Valid() && View() == Next(old(View()), WaitEnds(outcome, faults, fault), config)
    {
      var result := WaitedFor(outcome);
      if result.Succeeds? {
        OnHandled(faults, fault);
      } else {
        errorCount := errorCount + 1;
        if errorCount > config.maxRetries || result.error == Base(true) {
          ReportError(result.error);
        }
      }
    }

    method WaitedFor(outcome: Outcome) returns (result: Outcome)
      requires Valid() && queue.contents != []
      requires queue.contents[0].promise.Some? ==> queue.contents[0].promise.value < |promises|
      ensures result == WaitOutcome(View(), outcome)
    {
      var front := queue.Front();
      result := outcome;
      if front.value.promise.Some? {
        result := match promises[front.value.promise.value]
          case Rejected(error) => Fails(error)
          case _ => Succeeds;
      }
    }

    /** The front message has been handled: commit it and go on. */
    method OnHandled(faults: nat, fault: Error)
      requires Valid() && queue.contents != []
      modifies this, queue
      ensures Valid() && View() == Handled(old(View()), faults, fault, config)
    {
      var message := NoteHandled();
      ghost var noted := View();
      SafeCommitMessage(message, faults, fault, 0);
      assert View() == SafeCommit(noted, message, faults, fault, config);
      Advance();
    }

    method NoteHandled() returns (message: Message)
      requires Valid() && queue.contents != []
      modifies this`handled
      ensures Valid() && message == queue.contents[0].message
      ensures View() == if queue.contents[0].promise.None?
                        then old(View()).(handled := old(handled) + {queue.contents[0].index})
                        else old(View())
    {
      var front := queue.Front();
      if front.value.promise.None? {
        handled := handled + {front.value.index};
      }
      message := front.value.message;
    }
  }
}
