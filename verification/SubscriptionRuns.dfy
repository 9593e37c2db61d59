/** Runs of the block subscription: the invariant of every step, and what the observer is given over whole runs. */
module SubscriptionRuns {
  import opened Chain
  import opened LogHandlers
  import opened Fetches
  import opened BlockSubscriptions

  // ---- What the observer sees ----

  function Expected(start: int, emitted: seq<Emission>): int {
    if emitted == [] then start else emitted[|emitted| - 1].block.number + 1
  }

  /** The stream begins at the start block or one below, goes on by 0 or 1, and by exactly 1 while backfilling. */
  ghost predicate GapFree(start: int, emitted: seq<Emission>) {
    forall i :: 0 <= i < |emitted| ==>
      var due := Expected(start, emitted[..i]);
      emitted[i].block.number == due || (emitted[i].live && emitted[i].block.number == due - 1)
  }

  /** Of two adjacent live blocks the later is no higher, or it is the child of the earlier. */
  ghost predicate LiveLinked(emitted: seq<Emission>) {
    forall i :: 0 < i < |emitted| && emitted[i - 1].live && emitted[i].live ==>
      || emitted[i].block.number <= emitted[i - 1].block.number
      || emitted[i].block.parentHash == emitted[i - 1].block.hash
  }

  ghost predicate Sound(s: State, start: int) {
    GapFree(start, s.emitted) && LiveLinked(s.emitted)
  }

  // ---- The invariant ----

  ghost predicate JobsKnown(jobs: map<JobKey, Job>, sessions: nat, workers: nat, requested: nat) {
    forall k :: k in jobs ==> k.session < sessions && k.worker < workers && jobs[k].request < requested
  }

  ghost predicate BackFillsKnown(backFills: map<nat, nat>, sessions: nat, requested: nat) {
    forall n :: n in backFills ==> n < sessions && backFills[n] < requested
  }

  ghost predicate WellFormed(s: State, workers: nat) {
    && JobsKnown(s.jobs, s.sessions, workers, |s.requests|)
    && BackFillsKnown(s.backFills, s.sessions, |s.requests|)
    && AnswersFit(s.requests)
  }

  function ThrottledWorkers(jobs: map<JobKey, Job>, session: nat, workers: nat): set<nat> {
    set w: nat | w < workers && JobKey(session, w) in jobs && jobs[JobKey(session, w)].Throttled?
  }

  /** The requests of the session are for consecutive heights, its queue is the latest of them in order, and the
      queue has outgrown the limit by no more than the throttled jobs. */
  ghost predicate Prefetched(s: State, session: nat, workers: nat) {
    && s.base + |s.queue| <= |s.requests|
    && s.queue == Ids(|s.requests| - |s.queue|, |s.requests|)
    && Consecutive(s.requests, s.base, s.baseHeight)
    && |s.queue| < QUEUE_LIMIT + |ThrottledWorkers(s.jobs, session, workers)|
    && s.baseHeight + (|s.requests| - s.base) - 1 <= Max(s.lastFinalizedBlock, s.baseHeight + workers - 1)
  }

  /** While a session is active: one fetch is in flight, for the next block, and the queue holds the heights that
      follow it. */
  ghost predicate BackFilling(s: State, session: nat, workers: nat) {
    && s.subscribing.Idle? && !s.listening && s.liveFetch.None? && !s.processingQueue && !s.fatalError
    && session + 1 == s.sessions && session in s.backFills
    && s.backFills[session] + |s.queue| + 1 == |s.requests|
    && s.base <= s.backFills[session] && s.nextBlock - s.baseHeight == s.backFills[session] - s.base
    && s.nextBlock <= s.lastFinalizedBlock && s.baseHeight < s.lastFinalizedBlock - 20
    && Prefetched(s, session, workers)
  }

  /** The id of the next live block to be emitted. */
  function Front(s: State): nat {
    if s.liveFetch.Some? then s.liveFetch.value else |s.requests|
  }

  function HeightBefore(requests: seq<Request>, base: nat, baseHeight: int, r: nat): int
    requires r <= |requests|
  {
    if r <= base then baseHeight - 1 else requests[r - 1].height
  }

  ghost predicate StepsUp(requests: seq<Request>, base: nat, baseHeight: int) {
    forall r :: base <= r < |requests| ==> Step(HeightBefore(requests, base, baseHeight, r), requests[r].height)
  }

  ghost predicate Live(s: State) {
    && s.subscribing.Idle? && s.listening && s.activeBackFillingId.None? && !s.fatalError
    && (s.processingQueue <==> s.liveFetch.Some?)
    && s.base <= Front(s) <= |s.requests|
    && (s.liveFetch.Some? ==> s.liveFetch.value < |s.requests|)
    && s.queue == Ids(Front(s) + 1, |s.requests|)
    && StepsUp(s.requests, s.base, s.baseHeight)
    && HeightBefore(s.requests, s.base, s.baseHeight, |s.requests|) == s.cursor.lastReceivedBlockNumber
    && s.nextBlock == HeightBefore(s.requests, s.base, s.baseHeight, Front(s)) + 1
  }

  ghost predicate Starting(s: State) {
    && !s.listening && s.liveFetch.None? && !s.processingQueue && s.activeBackFillingId.None?
    && match s.subscribing
       case Idle => false
       case AwaitFinalized(_) => true
       case AwaitLatest(start) =>
         s.nextBlock == start && s.queue == [] && !s.fatalError && s.cursor == Cursor(None, start - 1)
  }

  function Due(s: State): int {
    if s.subscribing.Idle? then s.nextBlock else s.subscribing.startBlock
  }

  /** The stream so far, what is due next, and the memory of the last live block. */
  ghost predicate Streaming(s: State, start: int) {
    && Sound(s, start)
    && Due(s) == Expected(start, s.emitted)
    && (s.emitted != [] && s.emitted[|s.emitted| - 1].live ==>
          var last := s.emitted[|s.emitted| - 1].block; s.lastEmittedBlock == Some(BlockRef(last.number, last.hash)))
  }

  /** One of the three: a suspended subscribe, a backfill session, or the live phase. */
  ghost predicate Moded(s: State, workers: nat) {
    || Starting(s) || Live(s)
    || (s.activeBackFillingId.Some? && BackFilling(s, s.activeBackFillingId.value, workers))
  }

  ghost predicate Invariant(s: State, start: int, workers: nat) {
    WellFormed(s, workers) && Streaming(s, start) && Moded(s, workers)
  }

  // ---- Emitting ----

  lemma EmissionIsSound(start: int, emitted: seq<Emission>, e: Emission)
    requires GapFree(start, emitted) && LiveLinked(emitted)
    requires e.block.number == Expected(start, emitted) || (e.live && e.block.number == Expected(start, emitted) - 1)
    requires e.live && emitted != [] && emitted[|emitted| - 1].live ==>
               || e.block.number <= emitted[|emitted| - 1].block.number
               || e.block.parentHash == emitted[|emitted| - 1].block.hash
    ensures GapFree(start, emitted + [e]) && LiveLinked(emitted + [e])
  {
    var all := emitted + [e];
    forall i | 0 <= i < |all|
      ensures var due := Expected(start, all[..i]);
              all[i].block.number == due || (all[i].live && all[i].block.number == due - 1)
    {
      if i < |emitted| {
        assert all[..i] == emitted[..i];
      } else {
        assert all[..i] == emitted;
      }
    }
  }

  // ---- Backfilling ----

  lemma JobAddedThrottles(s: State, height: int, key: JobKey, workers: nat)
    requires key.worker < workers
    requires |s.queue| < QUEUE_LIMIT + |ThrottledWorkers(s.jobs, key.session, workers)|
    requires key !in s.jobs || s.jobs[key].Awaiting?
    ensures var s' := JobAdded(s, height, key);
            |s'.queue| < QUEUE_LIMIT + |ThrottledWorkers(s'.jobs, key.session, workers)|
  {
    var s' := JobAdded(s, height, key);
    var before := ThrottledWorkers(s.jobs, key.session, workers);
    var after := ThrottledWorkers(s'.jobs, key.session, workers);
    assert key == JobKey(key.session, key.worker);
    if s'.jobs[key].Throttled? {
      assert after == before + {key.worker} && key.worker !in before;
    } else {
      assert after == before;
    }
  }

  /** The height a job asks for next is the one fresh height after everything asked for. */
  lemma JobAddedKeepsPrefetch(s: State, height: int, key: JobKey, workers: nat)
    requires Prefetched(s, key.session, workers) && WellFormed(s, workers)
    requires key.worker < workers && key.session < s.sessions && (key !in s.jobs || s.jobs[key].Awaiting?)
    requires height == s.baseHeight + (|s.requests| - s.base)
    requires height <= Max(s.lastFinalizedBlock, s.baseHeight + workers - 1)
    ensures Prefetched(JobAdded(s, height, key), key.session, workers)
    ensures WellFormed(JobAdded(s, height, key), workers)
  {
    JobAddedThrottles(s, height, key, workers);
    var s' := JobAdded(s, height, key);
    assert s'.queue == Ids(|s'.requests| - |s'.queue|, |s'.requests|);
  }

  lemma JobAddedFrame(s: State, height: int, key: JobKey)
    ensures var s' := JobAdded(s, height, key);
            && s' == s.(jobs := s'.jobs, requests := s'.requests, queue := s'.queue)
            && s'.jobs.Keys == s.jobs.Keys + {key}
            && |s'.requests| == |s.requests| + 1 && |s'.queue| == |s.queue| + 1
  {
  }

  lemma {:induction false} JobsAddedFrame(s: State, session: nat, worker: nat, workers: nat)
    requires worker <= workers
    ensures var s' := JobsAdded(s, session, worker, workers);
            && s' == s.(jobs := s'.jobs, requests := s'.requests, queue := s'.queue)
            && |s'.requests| == |s.requests| + (workers - worker) && |s'.queue| == |s.queue| + (workers - worker)
    decreases workers - worker
  {
    if worker < workers {
      var key := JobKey(session, worker);
      JobAddedFrame(s, s.nextBlock + worker, key);
      JobsAddedFrame(JobAdded(s, s.nextBlock + worker, key), session, worker + 1, workers);
    }
  }

  /** The jobs of the workers from the given one on are still to be started. */
  ghost predicate StartingJobs(s: State, session: nat, worker: nat, workers: nat) {
    && worker <= workers && session < s.sessions
    && Prefetched(s, session, workers) && WellFormed(s, workers)
    && s.nextBlock == s.baseHeight && |s.requests| == s.base + worker
    && (forall w :: worker <= w < workers ==> JobKey(session, w) !in s.jobs)
  }

  lemma StartingOneJob(s: State, session: nat, worker: nat, workers: nat)
    requires StartingJobs(s, session, worker, workers) && worker < workers
    ensures StartingJobs(JobAdded(s, s.nextBlock + worker, JobKey(session, worker)), session, worker + 1, workers)
  {
    var key := JobKey(session, worker);
    JobAddedFrame(s, s.nextBlock + worker, key);
    JobAddedKeepsPrefetch(s, s.nextBlock + worker, key, workers);
  }

  lemma {:induction false} StartingAllJobs(s: State, session: nat, worker: nat, workers: nat)
    requires StartingJobs(s, session, worker, workers)
    ensures StartingJobs(JobsAdded(s, session, worker, workers), session, workers, workers)
    decreases workers - worker
  {
    if worker < workers {
      StartingOneJob(s, session, worker, workers);
      StartingAllJobs(JobAdded(s, s.nextBlock + worker, JobKey(session, worker)), session, worker + 1, workers);
    }
  }

  /** The backfill loop at its head: everything asked for and not yet emitted is queued. */
  ghost predicate BackFillHead(s: State, session: nat, workers: nat) {
    && s.subscribing.Idle? && !s.listening && s.liveFetch.None? && !s.processingQueue && !s.fatalError
    && s.activeBackFillingId == Some(session) && session + 1 == s.sessions
    && s.nextBlock - s.baseHeight == |s.requests| - |s.queue| - s.base
    && s.baseHeight < s.lastFinalizedBlock - 20
    && Prefetched(s, session, workers)
  }

  lemma SameStream(s: State, s': State, start: int)
    requires Streaming(s, start)
    requires s'.emitted == s.emitted && s'.lastEmittedBlock == s.lastEmittedBlock && Due(s') == Due(s)
    ensures Streaming(s', start)
  {
  }

  lemma LoopPops(s: State, session: nat, workers: nat)
    requires BackFillHead(s, session, workers)
    requires s.nextBlock <= s.lastFinalizedBlock && s.queue != []
    ensures BackFilling(BackFillLoop(s, session), session, workers)
  {
    var s' := BackFillLoop(s, session);
    assert s'.queue == Ids(|s'.requests| - |s'.queue|, |s'.requests|);
    assert Prefetched(s', session, workers);
  }

  lemma LoopKeepsFrame(s: State, session: nat, start: int, workers: nat)
    requires BackFillHead(s, session, workers) && WellFormed(s, workers) && Streaming(s, start)
    ensures WellFormed(BackFillLoop(s, session), workers)
    ensures Streaming(BackFillLoop(s, session), start)
  {
    SameStream(s, BackFillLoop(s, session), start);
  }

  lemma LoopEnds(s: State, session: nat, workers: nat)
    requires BackFillHead(s, session, workers)
    requires s.nextBlock > s.lastFinalizedBlock || s.queue == []
    ensures Starting(BackFillLoop(s, session))
  {
  }

  lemma LoopFromHead(s: State, session: nat, start: int, workers: nat)
    requires BackFillHead(s, session, workers) && WellFormed(s, workers) && Streaming(s, start)
    ensures Invariant(BackFillLoop(s, session), start, workers)
  {
    LoopKeepsFrame(s, session, start, workers);
    if s.nextBlock <= s.lastFinalizedBlock && s.queue != [] {
      LoopPops(s, session, workers);
    } else {
      LoopEnds(s, session, workers);
    }
  }

  lemma SessionOpens(s: State, s0: State, workers: nat)
    requires WellFormed(s, workers) && s.queue == []
    requires s0 == SessionOpened(s)
    ensures StartingJobs(s0, s.sessions, 0, workers)
  {
    assert Prefetched(s0, s.sessions, workers);
    forall w | 0 <= w < workers
      ensures JobKey(s.sessions, w) !in s0.jobs
    {
      var key := JobKey(s.sessions, w);
      assert key in s0.jobs ==> key.session < s.sessions;
    }
  }

  lemma AllJobsStarted(s0: State, s1: State, session: nat, workers: nat)
    requires s0.subscribing.Idle? && !s0.listening && s0.liveFetch.None? && !s0.processingQueue && !s0.fatalError
    requires s0.activeBackFillingId == Some(session) && session + 1 == s0.sessions && s0.queue == []
    requires s0.baseHeight < s0.lastFinalizedBlock - 20
    requires s1 == s0.(jobs := s1.jobs, requests := s1.requests, queue := s1.queue)
    requires StartingJobs(s1, session, workers, workers) && |s1.queue| == workers
    ensures BackFillHead(s1, session, workers) && WellFormed(s1, workers)
  {
  }

  lemma JobsStarted(s: State, s1: State, start: int, workers: nat)
    requires WellFormed(s, workers) && Streaming(s, start) && Starting(s) && s.subscribing.AwaitLatest?
    requires s.lastFinalizedBlock - 20 > s.subscribing.startBlock
    requires s1 == JobsAdded(SessionOpened(s), s.sessions, 0, workers)
    ensures BackFillHead(s1, s.sessions, workers) && WellFormed(s1, workers) && Streaming(s1, start)
  {
    var s0, session := SessionOpened(s), s.sessions;
    SessionOpens(s, s0, workers);
    StartingAllJobs(s0, session, 0, workers);
    JobsAddedFrame(s0, session, 0, workers);
    AllJobsStarted(s0, s1, session, workers);
    SameStream(s, s1, start);
  }

  lemma BackFillStarts(s: State, start: int, workers: nat)
    requires WellFormed(s, workers) && Streaming(s, start) && Starting(s) && s.subscribing.AwaitLatest?
    requires s.lastFinalizedBlock - 20 > s.subscribing.startBlock
    ensures Invariant(BackFillStarted(s, workers), start, workers)
  {
    var s1 := JobsAdded(SessionOpened(s), s.sessions, 0, workers);
    JobsStarted(s, s1, start, workers);
    LoopFromHead(s1, s.sessions, start, workers);
  }

  lemma BackFillEmits(s: State, s1: State, session: nat, start: int, workers: nat)
    requires WellFormed(s, workers) && Streaming(s, start) && BackFilling(s, session, workers)
    requires s.activeBackFillingId == Some(session)
    requires s.requests[s.backFills[session]].answer.Success?
    requires s1 == s.(backFills := s.backFills - {session}, nextBlock := s.nextBlock + 1,
                      emitted := s.emitted + [Emission(s.requests[s.backFills[session]].answer.block, false)])
    ensures WellFormed(s1, workers) && Streaming(s1, start) && BackFillHead(s1, session, workers)
  {
    var f := s.backFills[session];
    var block := s.requests[f].answer.block;
    assert block.number == s.requests[f].height;
    assert s.requests[f].height == s.nextBlock;
    EmissionIsSound(start, s.emitted, Emission(block, false));
    assert Streaming(s1, start);
  }

  lemma ActiveSessionEmits(s: State, session: nat)
    requires session in s.backFills && Settled(s, s.backFills[session])
    requires s.requests[s.backFills[session]].answer.Success?
    requires s.activeBackFillingId == Some(session) && !s.fatalError
    ensures BackFillResumed(s, session) ==
            BackFillLoop(s.(backFills := s.backFills - {session}, nextBlock := s.nextBlock + 1,
                            emitted := s.emitted + [Emission(s.requests[s.backFills[session]].answer.block, false)]),
                         session)
  {
  }

  lemma ActiveSessionResumes(s: State, session: nat, start: int, workers: nat)
    requires WellFormed(s, workers) && Streaming(s, start) && BackFilling(s, session, workers)
    requires s.activeBackFillingId == Some(session) && Settled(s, s.backFills[session])
    requires s.requests[s.backFills[session]].answer.Success?
    ensures Invariant(BackFillResumed(s, session), start, workers)
  {
    var s1 := s.(backFills := s.backFills - {session}, nextBlock := s.nextBlock + 1,
                 emitted := s.emitted + [Emission(s.requests[s.backFills[session]].answer.block, false)]);
    ActiveSessionEmits(s, session);
    BackFillEmits(s, s1, session, start, workers);
    LoopFromHead(s1, session, start, workers);
  }

  lemma ActiveIsBackFilling(s: State, session: nat, workers: nat)
    requires Moded(s, workers) && s.activeBackFillingId == Some(session)
    ensures BackFilling(s, session, workers)
  {
  }

  lemma BackFillResumesSafely(s: State, session: nat, start: int, workers: nat)
    requires Invariant(s, start, workers) && !s.errored && session in s.backFills && Settled(s, s.backFills[session])
    ensures var s' := BackFillResumed(s, session);
            if s'.errored then Sound(s', start) else Invariant(s', start, workers)
  {
    if s.requests[s.backFills[session]].answer.Success? {
      if s.activeBackFillingId == Some(session) {
        ActiveIsBackFilling(s, session, workers);
        ActiveSessionResumes(s, session, start, workers);
      } else {
        StaleSessionEnds(s, session, start, workers);
      }
    }
  }

  /** The mode does not depend on the loops of other sessions, nor on jobs, but for the throttled ones. */
  lemma SameMode(s: State, s': State, workers: nat)
    requires Moded(s, workers)
    requires s' == s.(backFills := s'.backFills, jobs := s'.jobs)
    requires s.activeBackFillingId.Some? ==>
               var session := s.activeBackFillingId.value;
               && (session in s.backFills ==> session in s'.backFills && s'.backFills[session] == s.backFills[session])
               && (|s.queue| < QUEUE_LIMIT
                   || ThrottledWorkers(s'.jobs, session, workers) == ThrottledWorkers(s.jobs, session, workers))
    ensures Moded(s', workers)
  {
    if s.listening {
      ListeningIsLive(s, workers);
      assert Live(s');
    } else if s.activeBackFillingId.Some? {
      ActiveIsBackFilling(s, s.activeBackFillingId.value, workers);
      assert BackFilling(s', s.activeBackFillingId.value, workers);
    } else {
      assert Starting(s');
    }
  }

  /** The loop of an earlier session that resumes drops out without a trace exactly when its block has arrived. The
      answer is looked at before the session: a late failure closes the active session and is reported to its
      observer. */
  lemma StaleSessionEnds(s: State, session: nat, start: int, workers: nat)
    requires Invariant(s, start, workers) && !s.errored && Enabled(s, BackFillResumes(session))
    requires s.activeBackFillingId != Some(session)
    ensures var s', answer, gone := BackFillResumed(s, session), s.requests[s.backFills[session]].answer,
                                    s.(backFills := s.backFills - {session});
            && (s' == gone <==> answer.Success?)
            && (s' == gone ==> Invariant(s', start, workers))
            && (s' != gone ==> s' == gone.(activeBackFillingId := None, fatalError := true, errored := true))
  {
    var gone := s.(backFills := s.backFills - {session});
    if s.requests[s.backFills[session]].answer.Success? {
      SameStream(s, gone, start);
      SameMode(s, gone, workers);
    }
  }

  /** Jobs outside an active session change nothing that matters there. */
  lemma JobsElsewhere(s: State, s': State, start: int, workers: nat)
    requires Invariant(s, start, workers)
    requires s' == s.(jobs := s'.jobs) && JobsKnown(s'.jobs, s.sessions, workers, |s.requests|)
    requires s.activeBackFillingId.Some? ==>
               || |s.queue| < QUEUE_LIMIT
               || ThrottledWorkers(s'.jobs, s.activeBackFillingId.value, workers)
                  == ThrottledWorkers(s.jobs, s.activeBackFillingId.value, workers)
    ensures Invariant(s', start, workers)
  {
    SameStream(s, s', start);
    SameMode(s, s', workers);
  }

  lemma JobWakesSafely(s: State, key: JobKey, start: int, workers: nat)
    requires Invariant(s, start, workers) && Enabled(s, JobWakes(key))
    ensures Invariant(JobWoken(s, key), start, workers)
  {
    if |s.queue| < QUEUE_LIMIT {
      JobsElsewhere(s, JobWoken(s, key), start, workers);
    }
  }

  lemma JobEnds(s: State, key: JobKey, start: int, workers: nat)
    requires Invariant(s, start, workers) && key in s.jobs && s.jobs[key].Awaiting?
    ensures Invariant(s.(jobs := s.jobs - {key}), start, workers)
  {
    var s' := s.(jobs := s.jobs - {key});
    if s.activeBackFillingId.Some? {
      var session := s.activeBackFillingId.value;
      assert ThrottledWorkers(s'.jobs, session, workers) == ThrottledWorkers(s.jobs, session, workers);
    }
    JobsElsewhere(s, s', start, workers);
  }

  lemma JobGoesOnPrefetching(s: State, key: JobKey, workers: nat)
    requires WellFormed(s, workers) && BackFilling(s, key.session, workers)
    requires key in s.jobs && s.jobs[key].Awaiting? && s.nextBlock + |s.queue| < s.lastFinalizedBlock
    ensures var s' := JobAdded(s, s.nextBlock + |s.queue| + 1, key);
            WellFormed(s', workers) && BackFilling(s', key.session, workers)
  {
    var height := s.nextBlock + |s.queue| + 1;
    JobAddedKeepsPrefetch(s, height, key, workers);
    JobAddedFrame(s, height, key);
  }

  lemma JobGoesOn(s: State, key: JobKey, start: int, workers: nat)
    requires Invariant(s, start, workers) && key in s.jobs && s.jobs[key].Awaiting?
    requires s.activeBackFillingId == Some(key.session) && s.nextBlock + |s.queue| < s.lastFinalizedBlock
    ensures Invariant(JobAdded(s, s.nextBlock + |s.queue| + 1, key), start, workers)
  {
    ActiveIsBackFilling(s, key.session, workers);
    JobGoesOnPrefetching(s, key, workers);
    JobAddedFrame(s, s.nextBlock + |s.queue| + 1, key);
    SameStream(s, JobAdded(s, s.nextBlock + |s.queue| + 1, key), start);
  }

  lemma JobResumedCases(s: State, key: JobKey)
    ensures JobResumed(s, key) ==
            if s.activeBackFillingId == Some(key.session) && s.nextBlock + |s.queue| < s.lastFinalizedBlock then
              JobAdded(s, s.nextBlock + |s.queue| + 1, key)
            else s.(jobs := s.jobs - {key})
  {
  }

  lemma JobResumesSafely(s: State, key: JobKey, start: int, workers: nat)
    requires Invariant(s, start, workers) && key in s.jobs && s.jobs[key].Awaiting?
    ensures Invariant(JobResumed(s, key), start, workers)
  {
    JobResumedCases(s, key);
    if s.activeBackFillingId == Some(key.session) && s.nextBlock + |s.queue| < s.lastFinalizedBlock {
      JobGoesOn(s, key, start, workers);
    } else {
      JobEnds(s, key, start, workers);
    }
  }

  // ---- Subscribing and answers ----

  lemma FinalizedKnownSafely(s: State, finalized: int, start: int, workers: nat)
    requires Invariant(s, start, workers) && s.subscribing.AwaitFinalized?
    ensures Invariant(FinalizedLearned(s, finalized), start, workers)
  {
    var s' := FinalizedLearned(s, finalized);
    SameStream(s, s', start);
    assert Starting(s');
  }

  lemma LatestKnownSafely(s: State, latest: int, start: int, workers: nat)
    requires Invariant(s, start, workers) && s.subscribing.AwaitLatest?
    ensures Invariant(LatestLearned(s, latest, workers), start, workers)
  {
    assert Starting(s);
    if s.nextBlock <= latest {
      if s.lastFinalizedBlock - 20 > s.subscribing.startBlock {
        BackFillStarts(s, start, workers);
      } else {
        var s' := LatestLearned(s, latest, workers);
        SameStream(s, s', start);
        assert Live(s');
      }
    }
  }

  lemma AnsweredSafely(s: State, r: nat, answer: Answer, start: int, workers: nat)
    requires Invariant(s, start, workers) && Enabled(s, Answered(r, answer))
    ensures Invariant(AnswerReceived(s, r, answer), start, workers)
  {
    var s' := AnswerReceived(s, r, answer);
    SameStream(s, s', start);
    AnswersKeepMode(s, s', workers);
    assert AnswersFit(s'.requests);
  }

  lemma AnswersKeepMode(s: State, s': State, workers: nat)
    requires Moded(s, workers) && s' == s.(requests := s'.requests)
    requires |s'.requests| == |s.requests|
    requires forall q :: 0 <= q < |s.requests| ==> s'.requests[q].height == s.requests[q].height
    ensures Moded(s', workers)
  {
    if s.listening {
      ListeningIsLive(s, workers);
      AnswersKeepLive(s, s');
    } else if s.activeBackFillingId.Some? {
      ActiveIsBackFilling(s, s.activeBackFillingId.value, workers);
      assert Consecutive(s'.requests, s'.base, s'.baseHeight);
    } else {
      assert Starting(s');
    }
  }

  lemma AnswersKeepLive(s: State, s': State)
    requires Live(s) && s' == s.(requests := s'.requests)
    requires |s'.requests| == |s.requests|
    requires forall q :: 0 <= q < |s.requests| ==> s'.requests[q].height == s.requests[q].height
    ensures Live(s')
  {
    AnswersKeepSteps(s.requests, s'.requests, s.base, s.baseHeight);
  }

  lemma AnswersKeepSteps(before: seq<Request>, after: seq<Request>, base: nat, baseHeight: int)
    requires StepsUp(before, base, baseHeight) && |before| == |after|
    requires forall q :: 0 <= q < |before| ==> after[q].height == before[q].height
    ensures StepsUp(after, base, baseHeight)
    ensures forall q :: 0 <= q <= |before| ==>
              HeightBefore(after, base, baseHeight, q) == HeightBefore(before, base, baseHeight, q)
  {
    forall r | base <= r < |after|
      ensures Step(HeightBefore(after, base, baseHeight, r), after[r].height)
    {
      assert Step(HeightBefore(before, base, baseHeight, r), before[r].height);
    }
  }

  // ---- The live phase ----

  lemma FetchingStepsUp(requests: seq<Request>, base: nat, baseHeight: int, heights: seq<int>, worker: nat)
    requires base <= |requests| && StepsUp(requests, base, baseHeight)
    requires Stepwise(HeightBefore(requests, base, baseHeight, |requests|), heights)
    ensures var more := requests + Asked(heights, worker);
            && StepsUp(more, base, baseHeight)
            && HeightBefore(more, base, baseHeight, |more|)
               == Last(HeightBefore(requests, base, baseHeight, |requests|), heights)
            && forall q :: 0 <= q <= |requests| ==>
                 HeightBefore(more, base, baseHeight, q) == HeightBefore(requests, base, baseHeight, q)
  {
    var more := requests + Asked(heights, worker);
    forall r | base <= r < |more|
      ensures Step(HeightBefore(more, base, baseHeight, r), more[r].height)
    {
      if r < |requests| {
        assert Step(HeightBefore(requests, base, baseHeight, r), requests[r].height);
      } else if r > |requests| {
        assert Step(heights[r - |requests| - 1], heights[r - |requests|]);
      }
    }
  }

  /** The live loop at its head: what is asked for and not yet emitted is queued. */
  ghost predicate LiveHead(s: State) {
    && s.subscribing.Idle? && s.listening && s.activeBackFillingId.None? && !s.fatalError && s.processingQueue
    && s.base + |s.queue| <= |s.requests|
    && s.queue == Ids(|s.requests| - |s.queue|, |s.requests|)
    && StepsUp(s.requests, s.base, s.baseHeight)
    && HeightBefore(s.requests, s.base, s.baseHeight, |s.requests|) == s.cursor.lastReceivedBlockNumber
    && s.nextBlock == HeightBefore(s.requests, s.base, s.baseHeight, |s.requests| - |s.queue|) + 1
  }

  lemma ListeningIsLive(s: State, workers: nat)
    requires Moded(s, workers) && (s.listening || s.liveFetch.Some?)
    ensures Live(s)
  {
  }

  lemma LiveLoopPops(s: State)
    requires LiveHead(s)
    ensures Live(LiveLoop(s))
  {
    if s.queue != [] {
      IdsTail(|s.requests| - |s.queue|, |s.requests|);
    }
  }

  lemma LiveFromHead(s: State, start: int, workers: nat)
    requires LiveHead(s) && WellFormed(s, workers) && Streaming(s, start)
    ensures Invariant(LiveLoop(s), start, workers)
  {
    LiveLoopPops(s);
    SameStream(s, LiveLoop(s), start);
  }

  lemma LogFetchesWhileBusy(s: State, s1: State, log: Log)
    requires Live(s) && Accepted(s.cursor, log) && s.processingQueue
    requires s1 == Fetched(s, Requested(s.cursor, log), 0).(cursor := Received(s.cursor, log))
    ensures Live(s1)
  {
    var heights := Requested(s.cursor, log);
    RequestedStepwise(s.cursor, log);
    FetchingStepsUp(s.requests, s.base, s.baseHeight, heights, 0);
    IdsConcat(Front(s) + 1, |s.requests|, |s.requests| + |heights|);
    assert Front(s1) == Front(s);
  }

  /** From rest, the fetches of a log are the whole queue. */
  lemma FetchedFromRest(requests: seq<Request>, base: nat, baseHeight: int, c: Cursor, log: Log)
    requires base <= |requests| && StepsUp(requests, base, baseHeight) && Accepted(c, log)
    requires HeightBefore(requests, base, baseHeight, |requests|) == c.lastReceivedBlockNumber
    ensures var heights := Requested(c, log);
            var more := requests + Asked(heights, 0);
            && StepsUp(more, base, baseHeight)
            && HeightBefore(more, base, baseHeight, |more|) == Received(c, log).lastReceivedBlockNumber
            && HeightBefore(more, base, baseHeight, |requests|) == c.lastReceivedBlockNumber
  {
    RequestedStepwise(c, log);
    FetchingStepsUp(requests, base, baseHeight, Requested(c, log), 0);
  }

  lemma RestsEmpty(s: State)
    requires Live(s) && !s.processingQueue
    ensures s.queue == [] && s.nextBlock == s.cursor.lastReceivedBlockNumber + 1
  {
  }

  lemma LogFetchesAtRest(s: State, s1: State, log: Log)
    requires Live(s) && Accepted(s.cursor, log) && !s.processingQueue
    requires s1 == Fetched(s, Requested(s.cursor, log), 0).(cursor := Received(s.cursor, log), processingQueue := true)
    ensures LiveHead(s1)
  {
    RestsEmpty(s);
    FetchedFromRest(s.requests, s.base, s.baseHeight, s.cursor, log);
    assert [] + Ids(|s.requests|, |s1.requests|) == Ids(|s.requests|, |s1.requests|);
  }

  lemma FetchedWellFormed(s: State, s1: State, heights: seq<int>, worker: nat, workers: nat)
    requires WellFormed(s, workers)
    requires s1.requests == s.requests + Asked(heights, worker)
    requires s1.jobs == s.jobs && s1.backFills == s.backFills && s1.sessions == s.sessions
    ensures WellFormed(s1, workers)
  {
  }

  lemma LogArrivesSafely(s: State, log: Log, start: int, workers: nat)
    requires Invariant(s, start, workers) && s.listening
    ensures Invariant(LogHandled(s, log), start, workers)
  {
    ListeningIsLive(s, workers);
    if Accepted(s.cursor, log) {
      var s1 := Fetched(s, Requested(s.cursor, log), 0).(cursor := Received(s.cursor, log));
      SameStream(s, s1, start);
      FetchedWellFormed(s, s1, Requested(s.cursor, log), 0, workers);
      if s.processingQueue {
        LogFetchesWhileBusy(s, s1, log);
      } else {
        var s2 := s1.(processingQueue := true);
        LogFetchesAtRest(s, s2, log);
        SameStream(s1, s2, start);
        LiveFromHead(s2, start, workers);
      }
    }
  }

  /** The block that the live loop waits for is the one due, or it repeats the last height. */
  lemma LiveBlockIsDue(s: State, block: Block, start: int, workers: nat)
    requires WellFormed(s, workers) && Streaming(s, start) && Live(s) && s.liveFetch.Some?
    requires s.requests[s.liveFetch.value].answer == Success(block)
    ensures block.number == s.requests[s.liveFetch.value].height
    ensures block.number == Expected(start, s.emitted) || block.number == Expected(start, s.emitted) - 1
  {
    var f := s.liveFetch.value;
    assert Step(HeightBefore(s.requests, s.base, s.baseHeight, f), s.requests[f].height);
  }

  lemma LiveEmits(s: State, s1: State, block: Block, start: int, workers: nat)
    requires WellFormed(s, workers) && Streaming(s, start) && Live(s) && s.liveFetch.Some?
    requires s.requests[s.liveFetch.value].answer == Success(block) && !ReOrgMissed(s, block)
    requires s1 == s.(nextBlock := block.number + 1, emitted := s.emitted + [Emission(block, true)],
                      lastEmittedBlock := Some(BlockRef(block.number, block.hash)))
    ensures WellFormed(s1, workers) && Streaming(s1, start) && LiveHead(s1)
  {
    LiveBlockIsDue(s, block, start, workers);
    EmissionIsSound(start, s.emitted, Emission(block, true));
    LiveHeadAgain(s, s1, block);
  }

  lemma LiveHeadAgain(s: State, s1: State, block: Block)
    requires Live(s) && s.liveFetch.Some? && block.number == s.requests[s.liveFetch.value].height
    requires s1 == s.(nextBlock := block.number + 1, emitted := s1.emitted, lastEmittedBlock := s1.lastEmittedBlock)
    ensures LiveHead(s1)
  {
    assert |s1.requests| - |s1.queue| == s.liveFetch.value + 1;
  }

  lemma LiveResumedEmits(s: State, block: Block)
    requires s.liveFetch.Some? && Settled(s, s.liveFetch.value)
    requires s.requests[s.liveFetch.value].answer == Success(block) && !ReOrgMissed(s, block)
    ensures LiveResumed(s) ==
            LiveLoop(s.(nextBlock := block.number + 1, emitted := s.emitted + [Emission(block, true)],
                        lastEmittedBlock := Some(BlockRef(block.number, block.hash))))
  {
  }

  lemma LiveGoesOn(s: State, block: Block, start: int, workers: nat)
    requires Invariant(s, start, workers) && s.liveFetch.Some? && Settled(s, s.liveFetch.value)
    requires s.requests[s.liveFetch.value].answer == Success(block) && !ReOrgMissed(s, block)
    ensures Invariant(LiveResumed(s), start, workers)
  {
    ListeningIsLive(s, workers);
    var s1 := s.(nextBlock := block.number + 1, emitted := s.emitted + [Emission(block, true)],
                 lastEmittedBlock := Some(BlockRef(block.number, block.hash)));
    LiveResumedEmits(s, block);
    LiveEmits(s, s1, block, start, workers);
    LiveFromHead(s1, start, workers);
  }

  lemma LiveResumesSafely(s: State, start: int, workers: nat)
    requires Invariant(s, start, workers) && s.liveFetch.Some? && Settled(s, s.liveFetch.value)
    ensures var s' := LiveResumed(s);
            if s'.errored then Sound(s', start) else Invariant(s', start, workers)
  {
    var answer := s.requests[s.liveFetch.value].answer;
    if answer.Success? && !ReOrgMissed(s, answer.block) {
      LiveGoesOn(s, answer.block, start, workers);
    }
    assert LiveResumed(s).errored ==> LiveResumed(s).emitted == s.emitted || Invariant(LiveResumed(s), start, workers);
  }

  lemma TimerFiresSafely(s: State, start: int, workers: nat)
    requires Invariant(s, start, workers) && Enabled(s, TimerFires) && !Overlapping(s, TimerFires)
    ensures Invariant(TimerFired(s), start, workers)
  {
    ListeningIsLive(s, workers);
    var s' := TimerFired(s);
    SameStream(s, s', start);
    TimerKeepsMode(s);
  }

  lemma TimerKeepsMode(s: State)
    requires Live(s) && Enabled(s, TimerFires) && !Overlapping(s, TimerFires)
    ensures if s.cursor.lastBlockHash == s.watched then Starting(TimerFired(s)) else Live(TimerFired(s))
  {
  }

  // ---- Whole runs ----

  ghost predicate Feasible(s: State, events: seq<Event>, workers: nat)
    decreases |events|
  {
    events != [] ==> Enabled(s, events[0]) && Feasible(Next(s, events[0], workers), events[1..], workers)
  }

  function Run(s: State, events: seq<Event>, workers: nat): State
    requires Feasible(s, events, workers)
    decreases |events|
  {
    if events == [] then s else Run(Next(s, events[0], workers), events[1..], workers)
  }

  /** The timer restarts the subscription while the live loop still waits for a block. */
  predicate Overlapping(s: State, e: Event) {
    e.TimerFires? && s.cursor.lastBlockHash == s.watched && s.liveFetch.Some?
  }

  /** The run ends with the first error reported, before subscribe or unsubscribe is called again, and before a restart
      that overlaps with a block in flight. */
  ghost predicate Uninterrupted(s: State, events: seq<Event>, workers: nat)
    requires Feasible(s, events, workers)
    decreases |events|
  {
    events != [] ==>
      && !s.errored && !events[0].Subscribe? && !events[0].Unsubscribe? && !Overlapping(s, events[0])
      && Uninterrupted(Next(s, events[0], workers), events[1..], workers)
  }

  lemma StepSafely(s: State, e: Event, start: int, workers: nat)
    requires Invariant(s, start, workers) && !s.errored && Enabled(s, e)
    requires !e.Subscribe? && !e.Unsubscribe? && !Overlapping(s, e)
    ensures var s' := Next(s, e, workers);
            if s'.errored then Sound(s', start) else Invariant(s', start, workers)
  {
    match e
    case FinalizedKnown(finalized) => FinalizedKnownSafely(s, finalized, start, workers);
    case LatestKnown(latest) => LatestKnownSafely(s, latest, start, workers);
    case Answered(r, answer) => AnsweredSafely(s, r, answer, start, workers);
    case JobWakes(key) => JobWakesSafely(s, key, start, workers);
    case JobResumes(key) => JobResumesSafely(s, key, start, workers);
    case BackFillResumes(session) => BackFillResumesSafely(s, session, start, workers);
    case LogArrives(log) => LogArrivesSafely(s, log, start, workers);
    case LiveResumes => LiveResumesSafely(s, start, workers);
    case TimerFires => TimerFiresSafely(s, start, workers);
  }

  lemma {:induction false} RunSafely(s: State, events: seq<Event>, start: int, workers: nat)
    requires if s.errored then Sound(s, start) else Invariant(s, start, workers)
    requires Feasible(s, events, workers) && Uninterrupted(s, events, workers)
    ensures var end := Run(s, events, workers);
            && Sound(end, start)
            && (!end.errored ==> Invariant(end, start, workers))
    decreases |events|
  {
    if events != [] {
      StepSafely(s, events[0], start, workers);
      RunSafely(Next(s, events[0], workers), events[1..], start, workers);
    }
  }

  /** Nothing is active: no session, no live phase, no subscribe. Loops and jobs of earlier sessions may linger. */
  ghost predicate Dormant(s: State, workers: nat) {
    && s.activeBackFillingId.None? && !s.listening && s.liveFetch.None? && !s.processingQueue && s.subscribing.Idle?
    && WellFormed(s, workers)
  }

  /** From one subscribe through any number of backfill sessions, live phases and timer restarts, with the workers
      answering in any order: the stream starts at the start block or one below, never leaves a height out, goes on by
      exactly one while backfilling, and repeats a height only for a same-height log. */
  lemma WholeRunGapFree(s: State, start: int, events: seq<Event>, workers: nat)
    requires Dormant(s, workers)
    requires Feasible(Subscribed(s, start), events, workers) && Uninterrupted(Subscribed(s, start), events, workers)
    ensures var e := Run(Subscribed(s, start), events, workers).emitted;
            && (e != [] ==> e[0].block.number == start || (e[0].live && e[0].block.number == start - 1))
            && (forall i :: 0 < i < |e| ==>
                  || e[i].block.number == e[i - 1].block.number + 1
                  || (e[i].live && e[i].block.number == e[i - 1].block.number))
  {
    assert Starting(Subscribed(s, start));
    RunSafely(Subscribed(s, start), events, start, workers);
    var e := Run(Subscribed(s, start), events, workers).emitted;
    assert e != [] ==> e[..0] == [];
    forall i | 0 < i < |e|
      ensures || e[i].block.number == e[i - 1].block.number + 1
              || (e[i].live && e[i].block.number == e[i - 1].block.number)
    {
      assert e[..i][|e[..i]| - 1] == e[i - 1];
      assert Expected(start, e[..i]) == e[i - 1].block.number + 1;
    }
  }

  /** Over the same runs: between adjacent live blocks a step up is a step from parent to child, so every rise in
      the live stream follows the hash links. */
  lemma LiveStreamHashLinked(s: State, start: int, events: seq<Event>, workers: nat)
    requires Dormant(s, workers)
    requires Feasible(Subscribed(s, start), events, workers) && Uninterrupted(Subscribed(s, start), events, workers)
    ensures var e := Run(Subscribed(s, start), events, workers).emitted;
            forall i :: 0 < i < |e| && e[i - 1].live && e[i].live ==>
              if e[i].block.number == e[i - 1].block.number + 1 then e[i].block.parentHash == e[i - 1].block.hash
              else e[i].block.number == e[i - 1].block.number
  {
    WholeRunGapFree(s, start, events, workers);
    assert Starting(Subscribed(s, start));
    RunSafely(Subscribed(s, start), events, start, workers);
  }

  /** At every point of an active session: one fetch is in flight, for the next block, which is final; the queue holds
      the fetches of the heights after it in order; no height was asked for twice in the session; the height a job
      would ask for next is the first one not asked for; and the queue and the heights stay within their bounds. */
  lemma InFlight(s: State, start: int, events: seq<Event>, workers: nat)
    requires Dormant(s, workers)
    requires Feasible(Subscribed(s, start), events, workers) && Uninterrupted(Subscribed(s, start), events, workers)
    requires var end := Run(Subscribed(s, start), events, workers);
             !end.errored && end.activeBackFillingId.Some?
    ensures var end := Run(Subscribed(s, start), events, workers);
            var session := end.activeBackFillingId.value;
            && session in end.backFills && end.backFills[session] < |end.requests|
            && end.requests[end.backFills[session]].height == end.nextBlock <= end.lastFinalizedBlock
            && end.baseHeight < end.lastFinalizedBlock - 20
            && (forall i :: 0 <= i < |end.queue| ==>
                  end.queue[i] < |end.requests| && end.requests[end.queue[i]].height == end.nextBlock + 1 + i)
            && (forall r :: end.base <= r < |end.requests| ==>
                  end.baseHeight <= end.requests[r].height < end.nextBlock + |end.queue| + 1)
            && (forall q, r :: end.base <= q < r < |end.requests| ==> end.requests[q].height < end.requests[r].height)
            && |end.queue| <= QUEUE_LIMIT - 1 + workers
            && end.nextBlock + |end.queue| <= Max(end.lastFinalizedBlock, end.baseHeight + workers - 1)
  {
    assert Starting(Subscribed(s, start));
    RunSafely(Subscribed(s, start), events, start, workers);
    var end := Run(Subscribed(s, start), events, workers);
    var session := end.activeBackFillingId.value;
    assert BackFilling(end, session, workers);
    ThrottledAreWorkers(end.jobs, session, workers);
  }

  lemma ThrottledAreWorkers(jobs: map<JobKey, Job>, session: nat, workers: nat)
    ensures |ThrottledWorkers(jobs, session, workers)| <= workers
  {
    assert forall w :: w in ThrottledWorkers(jobs, session, workers) ==> Between(0, w, workers);
    SubsetSize<int>(ThrottledWorkers(jobs, session, workers), Range(0, workers));
    RangeSize(0, workers);
  }
}
