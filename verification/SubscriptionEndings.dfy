/** How a subscription ends and starts again: after an error, after unsubscribe, and what is left over from before. */
module SubscriptionEndings {
  import opened Chain
  import opened LogHandlers
  import opened Fetches
  import opened BlockSubscriptions
  import opened SubscriptionRuns

  // ---- What every step keeps, errors, unsubscribing and new subscriptions included ----

  ghost predicate QueueKnown(queue: seq<nat>, requested: nat) {
    forall i :: 0 <= i < |queue| ==> queue[i] < requested
  }

  /** At most one of a suspended subscribe, a session and the listening to logs. */
  ghost predicate OneAtATime(s: State) {
    && (s.subscribing.Idle? || (s.activeBackFillingId.None? && !s.listening))
    && (s.activeBackFillingId.Some? ==> !s.listening && s.activeBackFillingId.value < s.sessions)
    && (s.subscribing.AwaitLatest? ==> s.queue == [])
  }

  ghost predicate LoopTracked(s: State) {
    && (s.processingQueue <==> s.liveFetch.Some?)
    && (s.liveFetch.Some? ==> s.liveFetch.value < |s.requests|)
  }

  ghost predicate Steady(s: State, workers: nat) {
    WellFormed(s, workers) && QueueKnown(s.queue, |s.requests|) && OneAtATime(s) && LoopTracked(s)
  }

  lemma FetchedSteady(s: State, heights: seq<int>, worker: nat, workers: nat)
    requires Steady(s, workers) && s.subscribing.Idle?
    ensures Steady(Fetched(s, heights, worker), workers)
  {
    FetchedWellFormed(s, Fetched(s, heights, worker), heights, worker, workers);
  }

  lemma JobAddedSteady(s: State, height: int, key: JobKey, workers: nat)
    requires Steady(s, workers) && s.subscribing.Idle? && key.worker < workers && key.session < s.sessions
    ensures Steady(JobAdded(s, height, key), workers)
  {
    FetchedSteady(s, [height], key.worker, workers);
  }

  lemma {:induction false} JobsAddedSteady(s: State, session: nat, worker: nat, workers: nat)
    requires Steady(s, workers) && s.subscribing.Idle? && session < s.sessions
    ensures Steady(JobsAdded(s, session, worker, workers), workers)
    decreases workers - worker
  {
    if worker < workers {
      var key := JobKey(session, worker);
      JobAddedSteady(s, s.nextBlock + worker, key, workers);
      JobAddedFrame(s, s.nextBlock + worker, key);
      JobsAddedSteady(JobAdded(s, s.nextBlock + worker, key), session, worker + 1, workers);
    }
  }

  lemma BackFillLoopSteady(s: State, session: nat, workers: nat)
    requires Steady(s, workers) && s.activeBackFillingId == Some(session)
    ensures Steady(BackFillLoop(s, session), workers)
  {
  }

  lemma BackFillStartedSteady(s: State, workers: nat)
    requires Steady(s, workers) && s.subscribing.AwaitLatest?
    ensures Steady(BackFillStarted(s, workers), workers)
  {
    var s0 := SessionOpened(s);
    assert Steady(s0, workers);
    JobsAddedSteady(s0, s.sessions, 0, workers);
    JobsAddedFrame(s0, s.sessions, 0, workers);
    BackFillLoopSteady(JobsAdded(s0, s.sessions, 0, workers), s.sessions, workers);
  }

  lemma BackFillResumedSteady(s: State, session: nat, workers: nat)
    requires Steady(s, workers) && Enabled(s, BackFillResumes(session))
    ensures Steady(BackFillResumed(s, session), workers)
  {
    var answer := s.requests[s.backFills[session]].answer;
    if answer.Success? && s.activeBackFillingId == Some(session) && !s.fatalError {
      ActiveSessionEmits(s, session);
      var s1 := s.(backFills := s.backFills - {session}, nextBlock := s.nextBlock + 1,
                   emitted := s.emitted + [Emission(answer.block, false)]);
      assert Steady(s1, workers);
      BackFillLoopSteady(s1, session, workers);
    }
  }

  lemma JobResumedSteady(s: State, key: JobKey, workers: nat)
    requires Steady(s, workers) && Enabled(s, JobResumes(key))
    ensures Steady(JobResumed(s, key), workers)
  {
    JobResumedCases(s, key);
    if s.activeBackFillingId == Some(key.session) && s.nextBlock + |s.queue| < s.lastFinalizedBlock {
      JobAddedSteady(s, s.nextBlock + |s.queue| + 1, key, workers);
    }
  }

  lemma LiveLoopSteady(s: State, workers: nat)
    requires WellFormed(s, workers) && QueueKnown(s.queue, |s.requests|) && OneAtATime(s) && s.processingQueue
    ensures Steady(LiveLoop(s), workers)
  {
  }

  lemma LogHandledSteady(s: State, log: Log, workers: nat)
    requires Steady(s, workers) && s.listening
    ensures Steady(LogHandled(s, log), workers)
  {
    if Accepted(s.cursor, log) {
      FetchedSteady(s, Requested(s.cursor, log), 0, workers);
      if !s.processingQueue {
        var fetched := Fetched(s, Requested(s.cursor, log), 0).(cursor := Received(s.cursor, log));
        LiveLoopSteady(fetched.(processingQueue := true), workers);
      }
    }
  }

  lemma LiveResumedSteady(s: State, workers: nat)
    requires Steady(s, workers) && Enabled(s, LiveResumes)
    ensures Steady(LiveResumed(s), workers)
  {
    var answer := s.requests[s.liveFetch.value].answer;
    if answer.Success? && !ReOrgMissed(s, answer.block) {
      var block := answer.block;
      LiveResumedEmits(s, block);
      LiveLoopSteady(s.(nextBlock := block.number + 1, emitted := s.emitted + [Emission(block, true)],
                        lastEmittedBlock := Some(BlockRef(block.number, block.hash))), workers);
    }
  }

  lemma AnsweredSteady(s: State, r: nat, answer: Answer, workers: nat)
    requires Steady(s, workers) && Enabled(s, Answered(r, answer))
    ensures Steady(AnswerReceived(s, r, answer), workers)
  {
  }

  lemma LatestLearnedSteady(s: State, latest: int, workers: nat)
    requires Steady(s, workers) && s.subscribing.AwaitLatest?
    ensures Steady(LatestLearned(s, latest, workers), workers)
  {
    BackFillStartedSteady(s, workers);
    assert Steady(LiveStarted(s), workers);
  }

  lemma CallSteady(s: State, e: Event, workers: nat)
    requires Steady(s, workers) && Enabled(s, e)
    requires e.Subscribe? || e.FinalizedKnown? || e.JobWakes? || e.TimerFires? || e.Unsubscribe?
    ensures Steady(Next(s, e, workers), workers)
  {
  }

  lemma StepSteady(s: State, e: Event, workers: nat)
    requires Steady(s, workers) && Enabled(s, e)
    ensures Steady(Next(s, e, workers), workers)
  {
    match e
    case LatestKnown(latest) => LatestLearnedSteady(s, latest, workers);
    case Answered(r, answer) => AnsweredSteady(s, r, answer, workers);
    case JobResumes(key) => JobResumedSteady(s, key, workers);
    case BackFillResumes(session) => BackFillResumedSteady(s, session, workers);
    case LogArrives(log) => LogHandledSteady(s, log, workers);
    case LiveResumes => LiveResumedSteady(s, workers);
    case _ => CallSteady(s, e, workers);
  }

  lemma {:induction false} RunSteady(s: State, events: seq<Event>, workers: nat)
    requires Steady(s, workers) && Feasible(s, events, workers)
    ensures Steady(Run(s, events, workers), workers)
    decreases |events|
  {
    if events != [] {
      StepSteady(s, events[0], workers);
      RunSteady(Next(s, events[0], workers), events[1..], workers);
    }
  }

  /** In every run since the subscription was made, over errors, restarts and whatever earlier subscriptions have left
      suspended: where a caller may subscribe, the state is one that gap-freedom starts from, but for a live loop that
      still waits for a block. */
  lemma DormantBetweenSubscriptions(before: seq<Event>, start: int, workers: nat)
    requires Feasible(FRESH, before, workers)
    ensures var s := Run(FRESH, before, workers);
            Dormant(s, workers) <==> Enabled(s, Subscribe(start)) && s.liveFetch.None?
  {
    RunSteady(FRESH, before, workers);
  }

  // ---- After an error ----

  /** Either an error was reported and no subscribe has followed, or unsubscribe was called outside of subscribe. */
  ghost predicate WindingDown(s: State) {
    s.subscribing.Idle? && (s.fatalError || (s.activeBackFillingId.None? && !s.listening && s.queue == []))
  }

  /** What was emitted, and what the live loop is bound to emit. */
  function Bound(s: State): nat {
    |s.emitted| + if s.liveFetch.Some? then 1 else 0
  }

  ghost predicate Calmer(s: State, s': State) {
    WindingDown(s') && s.emitted <= s'.emitted && Bound(s') <= Bound(s)
  }

  /** Nothing more is emitted, but for a block that the live loop was already waiting for. */
  lemma {:induction false} WindsDown(s: State, events: seq<Event>, workers: nat)
    requires WindingDown(s) && Feasible(s, events, workers)
    requires forall i :: 0 <= i < |events| ==> !events[i].Subscribe? && !events[i].TimerFires?
    ensures Calmer(s, Run(s, events, workers))
    decreases |events|
  {
    if events != [] {
      OneStepDown(s, events[0], workers);
      assert forall i :: 0 <= i < |events[1..]| ==> events[1..][i] == events[i + 1];
      WindsDown(Next(s, events[0], workers), events[1..], workers);
    }
  }

  lemma OneStepDown(s: State, e: Event, workers: nat)
    requires WindingDown(s) && Enabled(s, e) && !e.Subscribe? && !e.TimerFires?
    ensures Calmer(s, Next(s, e, workers))
  {
    match e
    case LogArrives(log) => LogWhileWindingDown(s, log);
    case LiveResumes => LiveWhileWindingDown(s);
    case JobResumes(key) => JobWhileWindingDown(s, key);
    case BackFillResumes(session) => BackFillWhileWindingDown(s, session);
    case _ =>
  }

  lemma LogWhileWindingDown(s: State, log: Log)
    requires WindingDown(s) && s.listening
    ensures Calmer(s, LogHandled(s, log))
  {
  }

  lemma LiveWhileWindingDown(s: State)
    requires WindingDown(s) && Enabled(s, LiveResumes)
    ensures Calmer(s, LiveResumed(s))
  {
    var answer := s.requests[s.liveFetch.value].answer;
    if answer.Success? && !ReOrgMissed(s, answer.block) {
      LiveResumedEmits(s, answer.block);
    }
  }

  lemma JobWhileWindingDown(s: State, key: JobKey)
    requires WindingDown(s) && Enabled(s, JobResumes(key))
    ensures Calmer(s, JobResumed(s, key))
  {
  }

  lemma BackFillWhileWindingDown(s: State, session: nat)
    requires WindingDown(s) && Enabled(s, BackFillResumes(session))
    ensures Calmer(s, BackFillResumed(s, session))
  {
  }

  /** A fetch failure or a re-org found in the live phase is the end of the stream until the next subscribe, or the
      restart by the timer. */
  lemma LiveErrorIsFinal(s: State, start: int, events: seq<Event>, workers: nat)
    requires Invariant(s, start, workers) && Enabled(s, LiveResumes) && !s.errored && LiveResumed(s).errored
    requires Feasible(LiveResumed(s), events, workers)
    requires forall i :: 0 <= i < |events| ==> !events[i].Subscribe? && !events[i].TimerFires?
    ensures Run(LiveResumed(s), events, workers).emitted == s.emitted
  {
    ListeningIsLive(s, workers);
    LiveErrorState(s);
    WindsDown(LiveResumed(s), events, workers);
  }

  lemma LiveErrorState(s: State)
    requires Live(s) && Enabled(s, LiveResumes) && !s.errored && LiveResumed(s).errored
    ensures var s' := LiveResumed(s);
            s'.fatalError && s'.subscribing.Idle? && s'.liveFetch.None? && s'.emitted == s.emitted
  {
  }

  /** A late failure of an earlier session is the end of the active one, and of the live phase but for a block that is
      in flight. */
  lemma StaleFailureEndsStream(s: State, session: nat, start: int, events: seq<Event>, workers: nat)
    requires Invariant(s, start, workers) && s.subscribing.Idle? && Enabled(s, BackFillResumes(session))
    requires s.activeBackFillingId != Some(session) && s.requests[s.backFills[session]].answer.Failure?
    requires Feasible(BackFillResumed(s, session), events, workers)
    requires forall i :: 0 <= i < |events| ==> !events[i].Subscribe? && !events[i].TimerFires?
    ensures var end := Run(BackFillResumed(s, session), events, workers);
            && s.emitted <= end.emitted
            && |end.emitted| <= |s.emitted| + (if s.activeBackFillingId.Some? then 0 else 1)
  {
    WindsDown(BackFillResumed(s, session), events, workers);
    BackFillingIsNotLive(s, workers);
  }

  lemma BackFillingIsNotLive(s: State, workers: nat)
    requires Moded(s, workers)
    ensures s.activeBackFillingId.Some? ==> s.liveFetch.None?
  {
  }

  // ---- After unsubscribe ----

  /** Nothing is active or queued; a live loop may still wait for a block, and jobs and loops of sessions may linger. */
  ghost predicate Closed(s: State) {
    s.subscribing.Idle? && s.activeBackFillingId.None? && !s.listening && s.queue == []
  }

  lemma ClosedStep(s: State, e: Event, workers: nat)
    requires Closed(s) && Enabled(s, e) && !e.Subscribe?
    ensures Closed(Next(s, e, workers))
    ensures e.LiveResumes? ==> Next(s, e, workers).liveFetch.None?
    ensures !e.LiveResumes? ==> Next(s, e, workers).liveFetch == s.liveFetch
  {
    if e.LiveResumes? {
      var answer := s.requests[s.liveFetch.value].answer;
      if answer.Success? && !ReOrgMissed(s, answer.block) {
        LiveResumedEmits(s, answer.block);
      }
    }
  }

  lemma {:induction false} ClosedRun(s: State, events: seq<Event>, workers: nat)
    requires Closed(s) && Feasible(s, events, workers) && forall i :: 0 <= i < |events| ==> !events[i].Subscribe?
    ensures Closed(Run(s, events, workers))
    ensures forall i :: 0 <= i < |events| ==> !events[i].TimerFires?
    ensures Run(s, events, workers).liveFetch ==
            if exists i :: 0 <= i < |events| && events[i].LiveResumes? then None else s.liveFetch
    decreases |events|
  {
    if events != [] {
      var rest := events[1..];
      ClosedStep(s, events[0], workers);
      assert forall i :: 0 <= i < |rest| ==> rest[i] == events[i + 1];
      ClosedRun(Next(s, events[0], workers), rest, workers);
      forall i | 0 <= i < |events|
        ensures !events[i].TimerFires?
      {
        assert i > 0 ==> events[i] == rest[i - 1];
      }
    }
  }

  /** Once the live loop, if it was waiting for a block, has got it, another subscribe starts from a dormant state. */
  lemma DormantAfterUnsubscribe(before: seq<Event>, later: seq<Event>, workers: nat)
    requires Feasible(FRESH, before, workers) && Run(FRESH, before, workers).subscribing.Idle?
    requires var s := Unsubscribed(Run(FRESH, before, workers));
             Feasible(s, later, workers) && forall i :: 0 <= i < |later| ==> !later[i].Subscribe?
    ensures var s := Unsubscribed(Run(FRESH, before, workers));
            Dormant(Run(s, later, workers), workers)
            <==> s.liveFetch.None? || exists i :: 0 <= i < |later| && later[i].LiveResumes?
  {
    var s := Run(FRESH, before, workers);
    RunSteady(FRESH, before, workers);
    StepSteady(s, Unsubscribe, workers);
    RunSteady(Unsubscribed(s), later, workers);
    ClosedRun(Unsubscribed(s), later, workers);
  }

  /** Unsubscribing ends the stream: at once while backfilling, and with the block in flight while live. */
  lemma UnsubscribeEndsStream(s: State, start: int, events: seq<Event>, workers: nat)
    requires Invariant(s, start, workers) && s.subscribing.Idle?
    requires Feasible(Unsubscribed(s), events, workers) && forall i :: 0 <= i < |events| ==> !events[i].Subscribe?
    ensures var end := Run(Unsubscribed(s), events, workers);
            && s.emitted <= end.emitted
            && |end.emitted| <= |s.emitted| + (if s.activeBackFillingId.Some? then 0 else 1)
  {
    ClosedRun(Unsubscribed(s), events, workers);
    WindsDown(Unsubscribed(s), events, workers);
    BackFillingIsNotLive(s, workers);
  }

  // ---- Unsubscribing while subscribe waits for the node ----

  /** A job that looks at a queue that is still full, and goes on waiting. */
  predicate Idling(s: State, e: Event) {
    e.JobWakes? && |s.queue| >= QUEUE_LIMIT
  }

  /** The run without the steps that change nothing. */
  function Stirring(s: State, events: seq<Event>, workers: nat): seq<Event>
    requires Feasible(s, events, workers)
    decreases |events|
  {
    if events == [] then []
    else
      var stirring := Stirring(Next(s, events[0], workers), events[1..], workers);
      if Idling(s, events[0]) then stirring else [events[0]] + stirring
  }

  ghost predicate Waiting(s: State) {
    && !s.subscribing.Idle? && s.activeBackFillingId.None? && !s.listening && s.liveFetch.None?
    && (s.subscribing.AwaitLatest? ==> s.queue == [])
  }

  /** A step of a waiting subscribe goes the same way after unsubscribe, and has the same outcome once the node has
      answered. */
  lemma WaitingStep(s: State, e: Event, workers: nat)
    requires Waiting(s) && Enabled(s, e) && !Idling(s, e)
    ensures Enabled(Unsubscribed(s), e)
    ensures var s', u := Next(s, e, workers), Next(Unsubscribed(s), e, workers);
            u == s' || (u == Unsubscribed(s') && Waiting(s'))
  {
    match e
    case FinalizedKnown(finalized) =>
    case LatestKnown(latest) => assert Unsubscribed(s) == s;
    case JobResumes(key) => JobResumedCases(s, key);
    case _ =>
  }

  lemma {:induction false} WaitingRunsOn(s: State, events: seq<Event>, workers: nat)
    requires Waiting(s) && Feasible(s, events, workers)
    ensures Feasible(Unsubscribed(s), Stirring(s, events, workers), workers)
    ensures var end, end' := Run(s, events, workers), Run(Unsubscribed(s), Stirring(s, events, workers), workers);
            end' == end || end' == Unsubscribed(end)
    decreases |events|
  {
    if events != [] {
      var s', rest := Next(s, events[0], workers), events[1..];
      var stirring := Stirring(s', rest, workers);
      if Idling(s, events[0]) {
        WaitingRunsOn(s, rest, workers);
      } else {
        WaitingStep(s, events[0], workers);
        assert ([events[0]] + stirring)[1..] == stirring;
        if Next(Unsubscribed(s), events[0], workers) == s' {
          StirringRuns(s', rest, workers);
        } else {
          WaitingRunsOn(s', rest, workers);
        }
      }
    }
  }

  lemma {:induction false} StirringRuns(s: State, events: seq<Event>, workers: nat)
    requires Feasible(s, events, workers)
    ensures Feasible(s, Stirring(s, events, workers), workers)
    ensures Run(s, Stirring(s, events, workers), workers) == Run(s, events, workers)
    decreases |events|
  {
    if events != [] {
      var s', rest := Next(s, events[0], workers), events[1..];
      StirringRuns(s', rest, workers);
      if !Idling(s, events[0]) {
        assert ([events[0]] + Stirring(s', rest, workers))[1..] == Stirring(s', rest, workers);
      }
    }
  }

  /** Unsubscribing while subscribe is waiting for the node stops nothing: whatever could happen can still happen, step
      by step, and gives the observer the same stream and the same error. */
  lemma UnsubscribeInsideSubscribeIsLost(before: seq<Event>, events: seq<Event>, workers: nat)
    requires Feasible(FRESH, before, workers)
    requires !Run(FRESH, before, workers).subscribing.Idle? && Run(FRESH, before, workers).liveFetch.None?
    requires Feasible(Run(FRESH, before, workers), events, workers)
    ensures var s := Run(FRESH, before, workers);
            && Feasible(Unsubscribed(s), Stirring(s, events, workers), workers)
            && var end, end' := Run(s, events, workers), Run(Unsubscribed(s), Stirring(s, events, workers), workers);
               end'.emitted == end.emitted && end'.errored == end.errored
  {
    RunSteady(FRESH, before, workers);
    WaitingRunsOn(Run(FRESH, before, workers), events, workers);
  }

  /** A run, without another call of subscribe, that gives the observer more blocks. */
  ghost predicate Delivers(s: State, events: seq<Event>, workers: nat) {
    && Feasible(s, events, workers) && (forall i :: 0 <= i < |events| ==> !events[i].Subscribe?)
    && |Run(s, events, workers).emitted| > |s.emitted|
  }

  lemma DeliversAfter(s: State, e: Event, events: seq<Event>, workers: nat)
    requires Enabled(s, e) && !e.Subscribe? && |Next(s, e, workers).emitted| >= |s.emitted|
    requires Delivers(Next(s, e, workers), events, workers)
    ensures Delivers(s, [e] + events, workers)
  {
    assert ([e] + events)[1..] == events;
  }

  lemma DeliversAtOnce(s: State, e: Event, workers: nat)
    requires Enabled(s, e) && !e.Subscribe? && |Next(s, e, workers).emitted| > |s.emitted|
    ensures Delivers(s, [e], workers)
  {
    OneStep(s, e, workers);
  }

  /** The block of a height that no re-org check rejects. */
  function Welcome(s: State, height: int): Block {
    Block(height, ZERO_HASH, if s.lastEmittedBlock.Some? then s.lastEmittedBlock.value.hash else ZERO_HASH)
  }

  lemma LiveDelivers(s: State, workers: nat) returns (events: seq<Event>)
    requires s.listening && !s.processingQueue && s.queue == [] && !s.fatalError && s.cursor.lastBlockHash.None?
    ensures Delivers(s, events, workers)
  {
    var height, f := s.cursor.lastReceivedBlockNumber + 1, |s.requests|;
    var log, answered := Log(Some(Hash(1)), Some(height)), Answered(f, Success(Welcome(s, height)));
    var s1 := Next(s, LogArrives(log), workers);
    assert Requested(s.cursor, log) == [height];
    assert s1.liveFetch == Some(f) && s1.requests == s.requests + [Request(height, 0, Pending)];
    var s2 := Next(s1, answered, workers);
    LiveResumedEmits(s2, Welcome(s, height));
    DeliversAtOnce(s2, LiveResumes, workers);
    DeliversAfter(s1, answered, [LiveResumes], workers);
    DeliversAfter(s, LogArrives(log), [answered] + [LiveResumes], workers);
    events := [LogArrives(log)] + ([answered] + [LiveResumes]);
  }

  lemma SessionDelivers(s: State, session: nat, workers: nat) returns (events: seq<Event>)
    requires s.activeBackFillingId == Some(session) && session in s.backFills && !s.fatalError
    requires s.backFills[session] < |s.requests| && s.requests[s.backFills[session]].answer.Pending?
    ensures Delivers(s, events, workers)
  {
    var f := s.backFills[session];
    var answered := Answered(f, Success(Welcome(s, s.requests[f].height)));
    var s1 := Next(s, answered, workers);
    ActiveSessionEmits(s1, session);
    DeliversAtOnce(s1, BackFillResumes(session), workers);
    DeliversAfter(s, answered, [BackFillResumes(session)], workers);
    events := [answered] + [BackFillResumes(session)];
  }

  lemma AwaitFinalizedDelivers(s: State, workers: nat) returns (events: seq<Event>)
    requires Starting(s) && s.subscribing.AwaitFinalized?
    ensures Delivers(s, events, workers)
  {
    var start := s.subscribing.startBlock;
    var s1 := Next(s, FinalizedKnown(start), workers);
    var s2 := Next(s1, LatestKnown(start), workers);
    var live := LiveDelivers(s2, workers);
    DeliversAfter(s1, LatestKnown(start), live, workers);
    DeliversAfter(s, FinalizedKnown(start), [LatestKnown(start)] + live, workers);
    events := [FinalizedKnown(start)] + ([LatestKnown(start)] + live);
  }

  lemma AwaitLatestDelivers(s: State, start: int, workers: nat) returns (events: seq<Event>)
    requires Invariant(s, start, workers) && Starting(s) && s.subscribing.AwaitLatest?
    ensures Delivers(s, events, workers)
  {
    var latest := s.nextBlock;
    var s1, rest := Next(s, LatestKnown(latest), workers), [];
    if s.lastFinalizedBlock - 20 <= s.subscribing.startBlock {
      rest := LiveDelivers(s1, workers);
    } else if workers > 0 {
      SessionOpensWith(s, start, workers);
      rest := SessionDelivers(s1, s.sessions, workers);
    } else {
      rest := AwaitFinalizedDelivers(s1, workers);
    }
    DeliversAfter(s, LatestKnown(latest), rest, workers);
    events := [LatestKnown(latest)] + rest;
  }

  /** Unsubscribe ends the stream, but for a block that the live loop already waits for, exactly when subscribe is not
      waiting for the node. */
  lemma UnsubscribeWorksUnlessWaiting(s: State, start: int, workers: nat)
    requires Invariant(s, start, workers)
    ensures s.subscribing.Idle? <==>
            forall events :: Delivers(Unsubscribed(s), events, workers) ==>
              s.liveFetch.Some? && |Run(Unsubscribed(s), events, workers).emitted| == |s.emitted| + 1
  {
    var u := Unsubscribed(s);
    if s.subscribing.Idle? {
      forall events | Delivers(u, events, workers)
        ensures s.liveFetch.Some? && |Run(u, events, workers).emitted| == |s.emitted| + 1
      {
        ClosedRun(u, events, workers);
        WindsDown(u, events, workers);
      }
    } else {
      assert Starting(s) && Starting(u);
      SameStream(s, u, start);
      if s.subscribing.AwaitFinalized? {
        var events := AwaitFinalizedDelivers(u, workers);
      } else {
        var events := AwaitLatestDelivers(u, start, workers);
      }
    }
  }

  // ---- A late failure of an earlier session ----

  lemma {:induction false} RunsOn(s: State, a: seq<Event>, b: seq<Event>, workers: nat)
    requires Feasible(s, a, workers) && Feasible(Run(s, a, workers), b, workers)
    ensures Feasible(s, a + b, workers) && Run(s, a + b, workers) == Run(Run(s, a, workers), b, workers)
    decreases |a|
  {
    if a == [] {
      assert a + b == b;
    } else {
      RunsOn(Next(s, a[0], workers), a[1..], b, workers);
      assert (a + b)[1..] == a[1..] + b;
    }
  }

  lemma OneStep(s: State, e: Event, workers: nat)
    requires Enabled(s, e)
    ensures Feasible(s, [e], workers) && Run(s, [e], workers) == Next(s, e, workers)
  {
    assert [e][1..] == [];
    assert Run(Next(s, e, workers), [], workers) == Next(s, e, workers);
  }

  lemma {:induction false} JobsAsk(s: State, session: nat, worker: nat, workers: nat)
    ensures var s' := JobsAdded(s, session, worker, workers);
            && s.requests <= s'.requests
            && forall r :: |s.requests| <= r < |s'.requests| ==> s'.requests[r].answer.Pending?
    decreases workers - worker
  {
    if worker < workers {
      JobsAsk(JobAdded(s, s.nextBlock + worker, JobKey(session, worker)), session, worker + 1, workers);
    }
  }

  /** A subscribe that opens a backfill session. */
  function Opening(start: int, finalized: int): seq<Event> {
    [Subscribe(start), FinalizedKnown(finalized), LatestKnown(finalized)]
  }

  lemma SessionOpensWith(s: State, start: int, workers: nat)
    requires Invariant(s, start, workers) && Starting(s) && s.subscribing.AwaitLatest? && workers > 0
    requires s.lastFinalizedBlock - 20 > s.subscribing.startBlock
    ensures var s' := BackFillStarted(s, workers);
            && s'.activeBackFillingId == Some(s.sessions) && s'.sessions == s.sessions + 1 && !s'.fatalError
            && s'.backFills == s.backFills[s.sessions := |s.requests|]
            && s.requests < s'.requests && s'.requests[|s.requests|].answer.Pending?
            && s'.emitted == s.emitted && s'.errored == s.errored && Invariant(s', start, workers)
  {
    var s0 := SessionOpened(s);
    var jobs := JobsAdded(s0, s.sessions, 0, workers);
    JobsAsk(s0, s.sessions, 0, workers);
    JobsAddedFrame(s0, s.sessions, 0, workers);
    JobsStarted(s, jobs, start, workers);
    assert jobs.queue[0] == |s.requests|;
    BackFillStarts(s, start, workers);
  }

  lemma SessionStarts(s: State, start: int, finalized: int, workers: nat) returns (s': State)
    requires Dormant(s, workers) && workers > 0 && start < finalized - 20
    ensures Feasible(s, Opening(start, finalized), workers) && s' == Run(s, Opening(start, finalized), workers)
    ensures s'.activeBackFillingId == Some(s.sessions) && s'.sessions == s.sessions + 1
    ensures s'.backFills == s.backFills[s.sessions := |s.requests|]
    ensures s.requests < s'.requests && s'.requests[|s.requests|].answer.Pending?
    ensures s'.emitted == [] && !s'.errored && Invariant(s', start, workers)
  {
    var s1 := Next(s, Subscribe(start), workers);
    var s2 := Next(s1, FinalizedKnown(finalized), workers);
    s' := BackFillStarted(s2, workers);
    assert Starting(s2) && Streaming(s2, start);
    SessionOpensWith(s2, start, workers);
    OneStep(s2, LatestKnown(finalized), workers);
    assert Opening(start, finalized)[1..][1..] == [LatestKnown(finalized)];
    assert Run(s1, Opening(start, finalized)[1..], workers) == Run(s2, [LatestKnown(finalized)], workers);
  }

  /** A session is given up with its first block outstanding; the next subscribe opens another; then the old block
      fails. */
  function StaleFailure(start: int, restart: int, finalized: int): seq<Event> {
    Opening(start, finalized) + [Unsubscribe] + Opening(restart, finalized)
    + [Answered(0, Failure)] + [BackFillResumes(0)]
  }

  /** The new session, which has done nothing wrong, is closed before its first block. */
  lemma StaleFailureFromFresh(start: int, restart: int, finalized: int, workers: nat)
    requires workers > 0 && start < finalized - 20 && restart < finalized - 20
    ensures Feasible(FRESH, StaleFailure(start, restart, finalized), workers)
    ensures var end := Run(FRESH, StaleFailure(start, restart, finalized), workers);
            end.errored && end.activeBackFillingId.None? && end.sessions == 2 && end.emitted == []
  {
    var s1 := SessionStarts(FRESH, start, finalized, workers);
    var first := Opening(start, finalized) + [Unsubscribe];
    OneStep(s1, Unsubscribe, workers);
    RunsOn(FRESH, Opening(start, finalized), [Unsubscribe], workers);
    UnsubscribedDormant(s1, start, workers);
    var s2 := SessionStarts(Unsubscribed(s1), restart, finalized, workers);
    RunsOn(FRESH, first, Opening(restart, finalized), workers);
    assert s2.backFills[0] == 0;
    var s3 := Next(s2, Answered(0, Failure), workers);
    OneStep(s2, Answered(0, Failure), workers);
    RunsOn(FRESH, first + Opening(restart, finalized), [Answered(0, Failure)], workers);
    OneStep(s3, BackFillResumes(0), workers);
    RunsOn(FRESH, first + Opening(restart, finalized) + [Answered(0, Failure)], [BackFillResumes(0)], workers);
  }

  lemma UnsubscribedDormant(s: State, start: int, workers: nat)
    requires Invariant(s, start, workers) && s.activeBackFillingId.Some?
    ensures Dormant(Unsubscribed(s), workers)
  {
    BackFillingIsNotLive(s, workers);
    ActiveIsBackFilling(s, s.activeBackFillingId.value, workers);
  }

  // ---- A restart by the timer while the live loop waits for a block ----

  lemma ThenStep(s: State, events: seq<Event>, e: Event, workers: nat)
    requires Feasible(s, events, workers) && Enabled(Run(s, events, workers), e)
    ensures Feasible(s, events + [e], workers)
    ensures Run(s, events + [e], workers) == Next(Run(s, events, workers), e, workers)
  {
    OneStep(Run(s, events, workers), e, workers);
    RunsOn(s, events, [e], workers);
  }

  /** Block 0 is asked for in the live phase, and no other log is accepted until the timer fires for the second time. */
  function SlowBlock(): seq<Event> {
    [Subscribe(0)] + [FinalizedKnown(0)] + [LatestKnown(0)] + [LogArrives(Log(Some(Hash(1)), Some(0)))]
    + [TimerFires] + [TimerFires]
  }

  lemma SlowBlockRun() returns (s: State)
    ensures Feasible(FRESH, SlowBlock(), 1) && s == Run(FRESH, SlowBlock(), 1)
    ensures s.requests == [Request(0, 0, Pending)] && s.liveFetch == Some(0) && s.processingQueue && s.queue == []
    ensures s.subscribing == AwaitFinalized(0) && s.activeBackFillingId.None? && !s.listening && s.sessions == 0
    ensures s.jobs == map[] && s.lastEmittedBlock.None? && s.emitted == [] && !s.errored
  {
    var log := Log(Some(Hash(1)), Some(0));
    OneStep(FRESH, Subscribe(0), 1);
    ThenStep(FRESH, [Subscribe(0)], FinalizedKnown(0), 1);
    ThenStep(FRESH, [Subscribe(0)] + [FinalizedKnown(0)], LatestKnown(0), 1);
    var live := [Subscribe(0)] + [FinalizedKnown(0)] + [LatestKnown(0)];
    assert Requested(Cursor(None, -1), log) == [0];
    ThenStep(FRESH, live, LogArrives(log), 1);
    ThenStep(FRESH, live + [LogArrives(log)], TimerFires, 1);
    ThenStep(FRESH, live + [LogArrives(log)] + [TimerFires], TimerFires, 1);
    s := Run(FRESH, SlowBlock(), 1);
    assert s.requests == Asked([0], 0);
  }

  const FIRST := Block(0, Hash(1), ZERO_HASH)
  const THIRD := Block(2, Hash(3), Hash(2))

  /** The restarted subscription backfills from block 0, and both requests for that block are answered. */
  function BothArrive(): seq<Event> {
    [FinalizedKnown(21)] + [LatestKnown(21)] + [Answered(0, Success(FIRST))] + [LiveResumes]
    + [Answered(1, Success(FIRST))]
  }

  lemma BothArriveRun(s: State) returns (s': State)
    requires s.requests == [Request(0, 0, Pending)] && s.liveFetch == Some(0) && s.processingQueue && s.queue == []
    requires s.subscribing == AwaitFinalized(0) && s.activeBackFillingId.None? && !s.listening && s.sessions == 0
    requires s.jobs == map[] && s.lastEmittedBlock.None? && s.emitted == [] && !s.errored
    ensures Feasible(s, BothArrive(), 1) && s' == Run(s, BothArrive(), 1)
    ensures s'.requests == [Request(0, 0, Success(FIRST)), Request(0, 0, Success(FIRST))] && s'.queue == []
    ensures s'.activeBackFillingId == Some(0) && 0 in s'.backFills && s'.backFills[0] == 1
    ensures s'.jobs == map[JobKey(0, 0) := Awaiting(1)] && !s'.fatalError && !s'.errored
    ensures s'.nextBlock == 1 && s'.lastFinalizedBlock == 21 && s'.emitted == [Emission(FIRST, true)]
  {
    OneStep(s, FinalizedKnown(21), 1);
    ThenStep(s, [FinalizedKnown(21)], LatestKnown(21), 1);
    var opening := [FinalizedKnown(21)] + [LatestKnown(21)];
    var s2 := Run(s, opening, 1);
    OneWorkerStarts(Next(s, FinalizedKnown(21), 1));
    ThenStep(s, opening, Answered(0, Success(FIRST)), 1);
    var s3 := Run(s, opening + [Answered(0, Success(FIRST))], 1);
    LiveResumedEmits(s3, FIRST);
    ThenStep(s, opening + [Answered(0, Success(FIRST))], LiveResumes, 1);
    var live := opening + [Answered(0, Success(FIRST))] + [LiveResumes];
    ThenStep(s, live, Answered(1, Success(FIRST)), 1);
    s' := Run(s, BothArrive(), 1);
  }

  /** The job of the worker and the backfill loop go on, in the order in which they have begun to wait for the block. */
  function BothResume(): seq<Event> {
    [JobResumes(JobKey(0, 0))] + [BackFillResumes(0)]
  }

  /** A session of one worker, whose only outstanding request has been answered. */
  ghost predicate BothReady(s: State, f: nat, block: Block) {
    && s.activeBackFillingId == Some(0) && 0 in s.backFills && s.backFills[0] == f < |s.requests|
    && s.requests[f].answer == Success(block) && s.queue == []
    && JobKey(0, 0) in s.jobs && s.jobs[JobKey(0, 0)] == Awaiting(f)
    && s.nextBlock < s.lastFinalizedBlock && !s.fatalError
  }

  lemma BothResumeRun(s: State, f: nat, block: Block) returns (s': State)
    requires BothReady(s, f, block)
    ensures Feasible(s, BothResume(), 1) && s' == Run(s, BothResume(), 1)
    ensures s'.requests == s.requests + [Request(s.nextBlock + 1, 0, Pending)] && s'.queue == []
    ensures s'.activeBackFillingId == Some(0) && 0 in s'.backFills && s'.backFills[0] == |s.requests|
    ensures JobKey(0, 0) in s'.jobs && s'.jobs[JobKey(0, 0)] == Awaiting(|s.requests|) && !s'.fatalError
    ensures s'.nextBlock == s.nextBlock + 1 && s'.lastFinalizedBlock == s.lastFinalizedBlock
    ensures s'.emitted == s.emitted + [Emission(block, false)] && s'.errored == s.errored
  {
    var key := JobKey(0, 0);
    var s1 := Next(s, JobResumes(key), 1);
    OneStep(s, JobResumes(key), 1);
    JobResumedAsks(s, key);
    ActiveSessionEmits(s1, 0);
    ThenStep(s, [JobResumes(key)], BackFillResumes(0), 1);
    s' := Run(s, BothResume(), 1);
    assert s1.queue[1..] == [];
  }

  lemma JobResumedAsks(s: State, key: JobKey)
    requires s.activeBackFillingId == Some(key.session) && s.nextBlock < s.lastFinalizedBlock && s.queue == []
    ensures var s' := JobResumed(s, key);
            && s'.requests == s.requests + [Request(s.nextBlock + 1, key.worker, Pending)] && s'.queue == [|s.requests|]
            && s' == s.(requests := s'.requests, queue := s'.queue, jobs := s.jobs[key := Awaiting(|s.requests|)])
  {
    assert Asked([s.nextBlock + 1], key.worker) == [Request(s.nextBlock + 1, key.worker, Pending)];
    assert Ids(|s.requests|, |s.requests| + 1) == [|s.requests|];
  }

  lemma OneWorkerStarts(s: State)
    requires s.queue == [] && s.sessions == 0 && s.nextBlock == 0 <= s.lastFinalizedBlock && s.jobs == map[]
    ensures var s' := BackFillStarted(s, 1);
            && s' == SessionOpened(s).(jobs := s'.jobs, requests := s.requests + [Request(0, 0, Pending)],
                                       backFills := s.backFills[0 := |s.requests|])
            && s'.jobs == map[JobKey(0, 0) := Awaiting(|s.requests|)]
  {
    var s0 := SessionOpened(s);
    var s1 := JobAdded(s0, 0, JobKey(0, 0));
    assert Ids(|s.requests|, |s.requests| + 1) == [|s.requests|];
    assert Asked([0], 0) == [Request(0, 0, Pending)];
    assert JobsAdded(s1, 0, 1, 1) == s1;
    assert JobsAdded(s0, 0, 0, 1) == s1;
    assert s1.queue[1..] == [];
  }

  /** Block 0 is asked for by two loops; the one worker of the session goes on with what it takes for the next block. */
  function Overlap(): seq<Event> {
    SlowBlock() + BothArrive() + BothResume() + [Answered(2, Success(THIRD))] + BothResume()
  }

  /** Why gap-freedom leaves such a restart out: the old wait moves the next block on as well, so that block 0 is given
      twice, and block 1 never. */
  lemma OverlappingRestartLeavesGap()
    ensures Feasible(FRESH, Overlap(), 1) && !Run(FRESH, Overlap(), 1).errored
    ensures Run(FRESH, Overlap(), 1).emitted
            == [Emission(FIRST, true), Emission(FIRST, false), Emission(THIRD, false)]
  {
    var s1 := SlowBlockRun();
    var s2 := BothArriveRun(s1);
    RunsOn(FRESH, SlowBlock(), BothArrive(), 1);
    var s3 := BothResumeRun(s2, 1, FIRST);
    RunsOn(FRESH, SlowBlock() + BothArrive(), BothResume(), 1);
    ThenStep(FRESH, SlowBlock() + BothArrive() + BothResume(), Answered(2, Success(THIRD)), 1);
    var s4 := Next(s3, Answered(2, Success(THIRD)), 1);
    var s5 := BothResumeRun(s4, 2, THIRD);
    RunsOn(FRESH, SlowBlock() + BothArrive() + BothResume() + [Answered(2, Success(THIRD))], BothResume(), 1);
  }
}
