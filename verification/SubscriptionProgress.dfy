/** The block subscription does its work: no worker is left idle, the live stream is what the logs ask for, the timer
    restarts a quiet subscription, and the next block can come. */
module SubscriptionProgress {
  import opened Chain
  import opened LogHandlers
  import opened Fetches
  import opened BlockSubscriptions
  import opened SubscriptionRuns
  import opened SubscriptionEndings
  import opened SubscriptionRestarts

  // ---- Backfilling: no worker is left idle ----

  /** In an active session each worker has a job suspended, unless everything up to the last finalized block has been
      asked for. */
  ghost predicate Staffed(s: State, workers: nat) {
    s.activeBackFillingId.Some? && s.nextBlock + |s.queue| < s.lastFinalizedBlock ==>
      forall w: nat :: w < workers ==> JobKey(s.activeBackFillingId.value, w) in s.jobs
  }

  lemma {:induction false} JobsAddedStaff(s: State, session: nat, worker: nat, workers: nat)
    ensures var s' := JobsAdded(s, session, worker, workers);
            && (forall key :: key in s.jobs ==> key in s'.jobs)
            && (forall w: nat :: worker <= w < workers ==> JobKey(session, w) in s'.jobs)
    decreases workers - worker
  {
    if worker < workers {
      JobsAddedStaff(JobAdded(s, s.nextBlock + worker, JobKey(session, worker)), session, worker + 1, workers);
    }
  }

  lemma SessionStaffed(s: State, workers: nat)
    ensures Staffed(BackFillStarted(s, workers), workers)
  {
    JobsAddedStaff(SessionOpened(s), s.sessions, 0, workers);
    JobsAddedFrame(SessionOpened(s), s.sessions, 0, workers);
  }

  lemma JobResumedStaffed(s: State, key: JobKey, workers: nat)
    requires Staffed(s, workers) && key in s.jobs
    ensures Staffed(JobResumed(s, key), workers)
  {
    JobResumedCases(s, key);
  }

  lemma BackFillResumedStaffed(s: State, session: nat, workers: nat)
    requires Staffed(s, workers) && session in s.backFills && Settled(s, s.backFills[session])
    ensures Staffed(BackFillResumed(s, session), workers)
  {
    var answer := s.requests[s.backFills[session]].answer;
    if answer.Success? && s.activeBackFillingId == Some(session) && !s.fatalError {
      ActiveSessionEmits(s, session);
    }
  }

  lemma LiveStaysUnstaffed(s: State, e: Event, workers: nat)
    requires Live(s) && Enabled(s, e) && (e.LogArrives? || e.LiveResumes? || e.TimerFires?)
    ensures Next(s, e, workers).activeBackFillingId.None?
  {
  }

  lemma StepStaffed(s: State, e: Event, start: int, workers: nat)
    requires Invariant(s, start, workers) && Staffed(s, workers) && Enabled(s, e) && !e.Subscribe? && !e.Unsubscribe?
    ensures Staffed(Next(s, e, workers), workers)
  {
    if e.LogArrives? || e.LiveResumes? || e.TimerFires? {
      ListeningIsLive(s, workers);
      LiveStaysUnstaffed(s, e, workers);
    } else if e.FinalizedKnown? || e.LatestKnown? {
      assert Starting(s);
      SessionStaffed(s, workers);
    } else {
      JobStepStaffed(s, e, workers);
    }
  }

  lemma JobStepStaffed(s: State, e: Event, workers: nat)
    requires Staffed(s, workers) && Enabled(s, e)
    requires e.Answered? || e.JobWakes? || e.JobResumes? || e.BackFillResumes?
    ensures Staffed(Next(s, e, workers), workers)
  {
    match e
    case JobResumes(key) => JobResumedStaffed(s, key, workers);
    case BackFillResumes(session) => BackFillResumedStaffed(s, session, workers);
    case _ =>
  }

  lemma {:induction false} RunStaffed(s: State, events: seq<Event>, start: int, workers: nat)
    requires if s.errored then Sound(s, start) else Invariant(s, start, workers)
    requires Staffed(s, workers) && Feasible(s, events, workers) && Uninterrupted(s, events, workers)
    ensures Staffed(Run(s, events, workers), workers)
    decreases |events|
  {
    if events != [] {
      StepSafely(s, events[0], start, workers);
      StepStaffed(s, events[0], start, workers);
      RunStaffed(Next(s, events[0], workers), events[1..], start, workers);
    }
  }

  /** At every point of an active session: each worker has a job, or every height up to the last finalized block has
      been asked for. */
  lemma NoWorkerIdle(s: State, start: int, events: seq<Event>, workers: nat)
    requires Dormant(s, workers)
    requires Feasible(Subscribed(s, start), events, workers) && Uninterrupted(Subscribed(s, start), events, workers)
    ensures Staffed(Run(Subscribed(s, start), events, workers), workers)
  {
    assert Starting(Subscribed(s, start));
    RunStaffed(Subscribed(s, start), events, start, workers);
  }

  lemma ResumedJobAsks(s: State, key: JobKey)
    requires key in s.jobs && s.jobs[key].Awaiting? && Settled(s, s.jobs[key].request)
    requires s.activeBackFillingId == Some(key.session) && s.nextBlock + |s.queue| < s.lastFinalizedBlock
    ensures var s' := JobResumed(s, key);
            && s'.requests == s.requests + [Request(s.nextBlock + |s.queue| + 1, key.worker, Pending)]
            && s'.queue == s.queue + [|s.requests|] && key in s'.jobs
  {
    JobResumedCases(s, key);
    assert Ids(|s.requests|, |s.requests| + 1) == [|s.requests|];
    assert Asked([s.nextBlock + |s.queue| + 1], key.worker)
           == [Request(s.nextBlock + |s.queue| + 1, key.worker, Pending)];
  }

  lemma AnsweredJobAsks(s: State, key: JobKey, answer: Answer, workers: nat) returns (events: seq<Event>, s': State)
    requires key in s.jobs && s.jobs[key].Awaiting? && Enabled(s, Answered(s.jobs[key].request, answer))
    requires s.activeBackFillingId == Some(key.session) && s.nextBlock + |s.queue| < s.lastFinalizedBlock
    ensures events == [Answered(s.jobs[key].request, answer)] + [JobResumes(key)]
    ensures Feasible(s, events, workers) && s' == Run(s, events, workers)
    ensures |s'.requests| == |s.requests| + 1
    ensures s'.requests[|s.requests|] == Request(s.nextBlock + |s.queue| + 1, key.worker, Pending)
    ensures s'.queue == s.queue + [|s.requests|] && key in s'.jobs
  {
    var r := s.jobs[key].request;
    var m := Next(s, Answered(r, answer), workers);
    OneStep(s, Answered(r, answer), workers);
    ResumedJobAsks(m, key);
    ThenStep(s, [Answered(r, answer)], JobResumes(key), workers);
    events, s' := [Answered(r, answer)] + [JobResumes(key)], Next(m, JobResumes(key), workers);
  }

  /** A job paused for the length of the queue goes on once there is room: when its block has arrived or failed it asks
      its worker for the first height that nobody has asked for. */
  lemma ThrottledJobGoesOn(s: State, key: JobKey, answer: Answer, workers: nat) returns (events: seq<Event>, s': State)
    requires key in s.jobs && s.jobs[key].Throttled? && Enabled(s, Answered(s.jobs[key].request, answer))
    requires s.activeBackFillingId == Some(key.session) && s.nextBlock + |s.queue| < s.lastFinalizedBlock
    requires |s.queue| < QUEUE_LIMIT
    ensures events == [JobWakes(key)] + ([Answered(s.jobs[key].request, answer)] + [JobResumes(key)])
    ensures Feasible(s, events, workers) && s' == Run(s, events, workers)
    ensures |s'.requests| == |s.requests| + 1
    ensures s'.requests[|s.requests|] == Request(s.nextBlock + |s.queue| + 1, key.worker, Pending)
    ensures s'.queue == s.queue + [|s.requests|] && key in s'.jobs
  {
    var m := Next(s, JobWakes(key), workers);
    OneStep(s, JobWakes(key), workers);
    var rest;
    rest, s' := AnsweredJobAsks(m, key, answer, workers);
    RunsOn(s, [JobWakes(key)], rest, workers);
    events := [JobWakes(key)] + rest;
  }

  // ---- The live stream is what the logs ask for ----

  function LogsOf(events: seq<Event>): seq<Log>
    decreases |events|
  {
    if events == [] then []
    else (if events[0].LogArrives? then [events[0].log] else []) + LogsOf(events[1..])
  }

  /** From s to s': the logs have been heeded, each as the ones before it leave it to be, and the live loop has emitted
      the blocks of its requests in order. */
  ghost predicate Serves(s: State, logs: seq<Log>, s': State) {
    && s'.cursor == ReceivedAll(s.cursor, logs) && s'.watched == s.watched
    && AsksFor(s.requests, Requests(s.cursor, logs), s'.requests)
    && Front(s) <= Front(s') && |s'.emitted| == |s.emitted| + (Front(s') - Front(s)) && Front(s') <= |s'.requests|
    && s.emitted <= s'.emitted
    && forall r :: Front(s) <= r < Front(s') ==>
         s'.emitted[|s.emitted| + (r - Front(s))].block.number == s'.requests[r].height
  }

  /** The heights have been asked for, after the requests made before. */
  ghost predicate AsksFor(requests: seq<Request>, heights: seq<int>, more: seq<Request>) {
    && |more| == |requests| + |heights|
    && (forall r :: 0 <= r < |requests| ==> more[r].height == requests[r].height)
    && (forall i :: 0 <= i < |heights| ==> more[|requests| + i].height == heights[i])
  }

  lemma AsksForBoth(a: seq<Request>, h: seq<int>, b: seq<Request>, k: seq<int>, c: seq<Request>)
    requires AsksFor(a, h, b) && AsksFor(b, k, c)
    ensures AsksFor(a, h + k, c)
  {
    forall i | 0 <= i < |h + k|
      ensures c[|a| + i].height == (h + k)[i]
    {
      if i >= |h| {
        assert c[|b| + (i - |h|)].height == k[i - |h|];
      } else {
        assert c[|a| + i].height == b[|a| + i].height;
      }
    }
  }

  lemma ServesBoth(s: State, a: seq<Log>, m: State, b: seq<Log>, t: State)
    requires Serves(s, a, m) && Serves(m, b, t) && Front(m) <= |m.requests|
    ensures Serves(s, a + b, t)
  {
    RequestsSplit(s.cursor, a, b);
    AsksForBoth(s.requests, Requests(s.cursor, a), m.requests, Requests(m.cursor, b), t.requests);
    forall r | Front(s) <= r < Front(t)
      ensures t.emitted[|s.emitted| + (r - Front(s))].block.number == t.requests[r].height
    {
      if r < Front(m) {
        assert t.emitted[|s.emitted| + (r - Front(s))] == m.emitted[|s.emitted| + (r - Front(s))];
        assert t.requests[r].height == m.requests[r].height;
      } else {
        assert t.emitted[|m.emitted| + (r - Front(m))].block.number == t.requests[r].height;
      }
    }
  }

  lemma LogServed(s: State, log: Log)
    requires Live(s)
    ensures Serves(s, [log], LogHandled(s, log)) && LogHandled(s, log).listening
  {
    var heights := Requested(s.cursor, log);
    OneLog(s.cursor, log);
    if Accepted(s.cursor, log) {
      var fetched := Fetched(s, heights, 0).(cursor := Received(s.cursor, log));
      assert AsksFor(s.requests, heights, fetched.requests);
      if !s.processingQueue {
        AtRestAsks(s, fetched, heights);
      }
    }
  }

  lemma AtRestAsks(s: State, fetched: State, heights: seq<int>)
    requires Live(s) && !s.processingQueue && heights != []
    requires fetched.queue == s.queue + Ids(|s.requests|, |s.requests| + |heights|) && !fetched.fatalError
    ensures LiveLoop(fetched.(processingQueue := true)).liveFetch == Some(|s.requests|)
  {
    RestsEmpty(s);
  }

  lemma EmissionServed(s: State, workers: nat)
    requires WellFormed(s, workers) && Live(s) && Enabled(s, LiveResumes) && !s.errored && !LiveResumed(s).errored
    ensures Serves(s, [], LiveResumed(s)) && LiveResumed(s).listening
  {
    var f := s.liveFetch.value;
    var block := s.requests[f].answer.block;
    LiveResumedEmits(s, block);
    if s.queue == [] {
      assert f + 1 == |s.requests|;
    }
  }

  lemma NothingServed(s: State, s': State)
    requires Live(s) && s'.cursor == s.cursor && s'.watched == s.watched && s'.emitted == s.emitted
    requires s'.liveFetch == s.liveFetch && AsksFor(s.requests, [], s'.requests)
    ensures Serves(s, [], s')
  {
  }

  lemma AnswerServed(s: State, r: nat, answer: Answer)
    requires Live(s) && Enabled(s, Answered(r, answer))
    ensures Serves(s, [], AnswerReceived(s, r, answer))
  {
    NothingServed(s, AnswerReceived(s, r, answer));
  }

  lemma LeftOversServed(s: State, e: Event, workers: nat)
    requires Live(s) && Enabled(s, e) && (e.JobWakes? || e.JobResumes? || e.BackFillResumes?)
    ensures Serves(s, [], Next(s, e, workers)) && Next(s, e, workers).listening
  {
    if e.JobResumes? {
      JobResumedCases(s, e.key);
    }
    NothingServed(s, Next(s, e, workers));
  }

  lemma LogOfOne(e: Event)
    ensures LogsOf([e]) == if e.LogArrives? then [e.log] else []
  {
    assert [e][1..] == [];
  }

  lemma LiveStepServed(s: State, e: Event, start: int, workers: nat)
    requires Invariant(s, start, workers) && s.listening && !s.errored && Enabled(s, e) && !e.Subscribe?
    requires !e.Unsubscribe? && !e.TimerFires? && !Next(s, e, workers).errored
    ensures Serves(s, LogsOf([e]), Next(s, e, workers)) && Next(s, e, workers).listening
  {
    ListeningIsLive(s, workers);
    LogOfOne(e);
    ServedByKind(s, e, Next(s, e, workers), workers);
  }

  lemma NextByKind(s: State, e: Event, workers: nat)
    requires Enabled(s, e)
    ensures e.LogArrives? ==> Next(s, e, workers) == LogHandled(s, e.log)
    ensures e.LiveResumes? ==> Next(s, e, workers) == LiveResumed(s)
    ensures e.Answered? ==> Next(s, e, workers) == AnswerReceived(s, e.request, e.answer)
  {
  }

  lemma ServedByKind(s: State, e: Event, s': State, workers: nat)
    requires WellFormed(s, workers) && Live(s) && !s.errored && Enabled(s, e) && !e.Subscribe?
    requires !e.Unsubscribe? && !e.TimerFires? && s' == Next(s, e, workers) && !s'.errored
    ensures Serves(s, if e.LogArrives? then [e.log] else [], s') && s'.listening
  {
    NextByKind(s, e, workers);
    if e.LogArrives? {
      LogServed(s, e.log);
    } else if e.LiveResumes? {
      EmissionServed(s, workers);
    } else if e.Answered? {
      AnswerServed(s, e.request, e.answer);
    } else {
      LeftOversServed(s, e, workers);
    }
  }

  lemma {:induction false} LiveRunServed(s: State, start: int, events: seq<Event>, workers: nat)
    requires Invariant(s, start, workers) && s.listening && !s.errored
    requires Feasible(s, events, workers) && Uninterrupted(s, events, workers) && !Run(s, events, workers).errored
    requires forall i :: 0 <= i < |events| ==> !events[i].TimerFires?
    ensures Serves(s, LogsOf(events), Run(s, events, workers)) && Run(s, events, workers).listening
    decreases |events|
  {
    if events == [] {
      ListeningIsLive(s, workers);
      NothingServed(s, s);
    } else {
      var m, rest := Next(s, events[0], workers), events[1..];
      assert forall i :: 0 <= i < |rest| ==> rest[i] == events[i + 1];
      assert !m.errored;
      LiveStepServed(s, events[0], start, workers);
      StepSafely(s, events[0], start, workers);
      LiveRunServed(m, start, rest, workers);
      ListeningIsLive(m, workers);
      ServesBoth(s, LogsOf([events[0]]), m, LogsOf(rest), Run(m, rest, workers));
      LogsSplit(events);
    }
  }

  lemma LogsSplit(events: seq<Event>)
    requires events != []
    ensures LogsOf(events) == LogsOf([events[0]]) + LogsOf(events[1..])
  {
    assert [events[0]][1..] == [];
  }

  lemma ServedFromRest(s: State, heights: seq<int>, logs: seq<Log>, end: State)
    requires Serves(s, logs, end) && heights == Requests(s.cursor, logs) && Front(s) == |s.requests|
    ensures |end.emitted| - |s.emitted| <= |heights| && s.emitted <= end.emitted
    ensures forall i :: 0 <= i < |end.emitted| - |s.emitted| ==>
              end.emitted[|s.emitted| + i].block.number == heights[i]
  {
    forall i | 0 <= i < |end.emitted| - |s.emitted|
      ensures end.emitted[|s.emitted| + i].block.number == heights[i]
    {
      var r := Front(s) + i;
      assert end.emitted[|s.emitted| + (r - Front(s))].block.number == end.requests[r].height;
      assert end.requests[|s.requests| + i].height == heights[i];
    }
  }

  /** From a live loop at rest, until the timer fires or an error comes: the blocks emitted are those that the logs ask
      for, one by one and in order; and where the loop is at rest again, all of them. */
  lemma LiveStreamFollowsLogs(s: State, start: int, events: seq<Event>, workers: nat)
    requires Invariant(s, start, workers) && s.listening && !s.processingQueue && !s.errored
    requires Feasible(s, events, workers) && Uninterrupted(s, events, workers) && !Run(s, events, workers).errored
    requires forall i :: 0 <= i < |events| ==> !events[i].TimerFires?
    ensures var end, heights := Run(s, events, workers), Requests(s.cursor, LogsOf(events));
            && s.emitted <= end.emitted && |end.emitted| - |s.emitted| <= |heights|
            && (forall i :: 0 <= i < |end.emitted| - |s.emitted| ==>
                  end.emitted[|s.emitted| + i].block.number == heights[i])
            && (!end.processingQueue ==> |end.emitted| - |s.emitted| == |heights|)
  {
    var end := Run(s, events, workers);
    LiveRunServed(s, start, events, workers);
    RunSafely(s, events, start, workers);
    FrontAtRest(s, workers);
    FrontAtRest(end, workers);
    ServedFromRest(s, Requests(s.cursor, LogsOf(events)), LogsOf(events), end);
  }

  lemma FrontAtRest(s: State, workers: nat)
    requires Moded(s, workers) && s.listening
    ensures !s.processingQueue ==> Front(s) == |s.requests|
  {
    ListeningIsLive(s, workers);
  }

  /** The timer, armed with the hash of the log accepted last, restarts the subscription at the next block if and only
      if the logs that have arrived since leave the cursor with that hash: because none of them was accepted, or because
      the last one accepted brings it back. Otherwise it is armed again. */
  lemma TimerRestartsExactlyWhenQuiet(s: State, start: int, events: seq<Event>, workers: nat)
    requires Invariant(s, start, workers) && s.listening && !s.errored && s.watched == s.cursor.lastBlockHash
    requires Feasible(s, events, workers) && Uninterrupted(s, events, workers) && !Run(s, events, workers).errored
    requires forall i :: 0 <= i < |events| ==> !events[i].TimerFires?
    ensures var end, cursor := Run(s, events, workers), ReceivedAll(s.cursor, LogsOf(events));
            && Enabled(end, TimerFires)
            && var fired := Next(end, TimerFires, workers);
               if cursor.lastBlockHash == s.cursor.lastBlockHash then
                 !fired.listening && fired.subscribing == AwaitFinalized(end.nextBlock)
               else fired.listening && fired.watched == cursor.lastBlockHash
  {
    LiveRunServed(s, start, events, workers);
  }

  // ---- What the re-org check rejects ----

  /** After a live block, the next one to arrive is rejected if and only if it is one higher and not its child: a block
      of a height that repeats is emitted whatever its parent. */
  lemma RejectedExactlyWhenUnlinked(s: State, block: Block, start: int, workers: nat)
    requires Invariant(s, start, workers) && !s.errored && Enabled(s, LiveResumes)
    requires s.requests[s.liveFetch.value].answer == Success(block)
    requires s.emitted != [] && s.emitted[|s.emitted| - 1].live
    ensures var last, s' := s.emitted[|s.emitted| - 1].block, LiveResumed(s);
            if block.number == last.number + 1 && block.parentHash != last.hash then
              s'.errored && s'.emitted == s.emitted
            else !s'.errored && s'.emitted == s.emitted + [Emission(block, true)]
  {
    ListeningIsLive(s, workers);
    LiveBlockIsDue(s, block, start, workers);
    if !ReOrgMissed(s, block) {
      LiveResumedEmits(s, block);
    }
  }

  // ---- The next block can come ----

  /** What the loop in charge waits for has arrived, and ends in an error. */
  predicate Hopeless(s: State) {
    || (s.activeBackFillingId.Some? && s.activeBackFillingId.value in s.backFills
        && s.backFills[s.activeBackFillingId.value] < |s.requests|
        && s.requests[s.backFills[s.activeBackFillingId.value]].answer.Failure?)
    || Doomed(s)
  }

  ghost predicate GoesWell(s: State, events: seq<Event>, end: State, workers: nat) {
    Follows(s, events, end, workers) && !end.errored && |end.emitted| > |s.emitted|
  }

  lemma GoesWellAfter(s: State, events: seq<Event>, m: State, rest: seq<Event>, end: State, workers: nat)
    requires Follows(s, events, m, workers) && |m.emitted| >= |s.emitted| && GoesWell(m, rest, end, workers)
    ensures GoesWell(s, events + rest, end, workers)
  {
    FollowsOn(s, events, m, rest, end, workers);
  }

  lemma SessionGoesWell(s: State, workers: nat) returns (events: seq<Event>, end: State)
    requires s.activeBackFillingId.Some? && !s.fatalError && !s.errored
    requires var session := s.activeBackFillingId.value;
             && session in s.backFills && s.backFills[session] < |s.requests|
             && !s.requests[s.backFills[session]].answer.Failure?
    ensures GoesWell(s, events, end, workers)
  {
    var session := s.activeBackFillingId.value;
    var f, none: seq<Event>, m := s.backFills[session], [], s;
    events := none;
    assert Follows(s, none, s, workers);
    if s.requests[f].answer.Pending? {
      var answered := Answered(f, Success(Welcome(s, s.requests[f].height)));
      Then(s, none, s, answered, workers);
      events, m := none + [answered], Next(s, answered, workers);
    }
    ActiveSessionEmits(m, session);
    Then(s, events, m, BackFillResumes(session), workers);
    events, end := events + [BackFillResumes(session)], Next(m, BackFillResumes(session), workers);
  }

  lemma LiveGoesWell(s: State, workers: nat) returns (events: seq<Event>, end: State)
    requires s.liveFetch.Some? && s.liveFetch.value < |s.requests| && !Doomed(s) && !s.errored
    ensures GoesWell(s, events, end, workers)
  {
    var f, none: seq<Event>, m := s.liveFetch.value, [], s;
    events := none;
    assert Follows(s, none, s, workers);
    if s.requests[f].answer.Pending? {
      var answered := Answered(f, Success(Welcome(s, s.requests[f].height)));
      Then(s, none, s, answered, workers);
      events, m := none + [answered], Next(s, answered, workers);
    }
    LiveResumedEmits(m, m.requests[f].answer.block);
    Then(s, events, m, LiveResumes, workers);
    events, end := events + [LiveResumes], Next(m, LiveResumes, workers);
  }

  lemma LogGoesWell(s: State, workers: nat) returns (events: seq<Event>, end: State)
    requires s.listening && !s.processingQueue && s.queue == [] && !s.fatalError && !s.errored
    ensures GoesWell(s, events, end, workers)
  {
    var none: seq<Event>, n := [], s.cursor.lastReceivedBlockNumber + 1;
    var log := Log(Some(if s.cursor.lastBlockHash == Some(Hash(1)) then Hash(2) else Hash(1)), Some(n));
    var m := Next(s, LogArrives(log), workers);
    assert Requested(s.cursor, log) == [n];
    assert m.liveFetch == Some(|s.requests|) && m.requests == s.requests + [Request(n, 0, Pending)];
    assert Follows(s, none, s, workers);
    Then(s, none, s, LogArrives(log), workers);
    var rest;
    rest, end := LiveGoesWell(m, workers);
    GoesWellAfter(s, none + [LogArrives(log)], m, rest, end, workers);
    events := none + [LogArrives(log)] + rest;
  }

  lemma StartGoesWell(s: State, start: int, workers: nat) returns (events: seq<Event>, end: State)
    requires Invariant(s, start, workers) && Starting(s) && !s.errored && workers > 0
    ensures GoesWell(s, events, end, workers)
  {
    if s.subscribing.AwaitFinalized? {
      events, end := StartsLive(s, workers);
    } else {
      var none: seq<Event>, latest := [], LatestKnown(s.nextBlock);
      var m, rest := Next(s, latest, workers), none;
      assert Follows(s, none, s, workers);
      Then(s, none, s, latest, workers);
      if s.lastFinalizedBlock - 20 > s.subscribing.startBlock {
        SessionOpensWith(s, start, workers);
        rest, end := SessionGoesWell(m, workers);
      } else {
        rest, end := LogGoesWell(m, workers);
      }
      GoesWellAfter(s, none + [latest], m, rest, end, workers);
      events := none + [latest] + rest;
    }
  }

  /** Stays hopeless, with nothing emitted, up to the error. */
  ghost predicate Hanging(s: State, start: int, workers: nat) {
    Invariant(s, start, workers) && Hopeless(s)
  }

  lemma HangingSession(s: State, e: Event, start: int, workers: nat)
    requires Hanging(s, start, workers) && !s.errored && s.activeBackFillingId.Some? && Enabled(s, e)
    requires !e.Subscribe? && !e.Unsubscribe?
    ensures var s' := Next(s, e, workers); s'.errored || (Hopeless(s') && s'.emitted == s.emitted)
  {
    ActiveIsBackFilling(s, s.activeBackFillingId.value, workers);
    match e
    case Answered(_, _) =>
    case JobWakes(_) =>
    case JobResumes(key) => JobResumedCases(s, key);
    case BackFillResumes(session) =>
    case _ =>
  }

  lemma HangingLive(s: State, e: Event, start: int, workers: nat)
    requires Hanging(s, start, workers) && !s.errored && s.activeBackFillingId.None? && Enabled(s, e)
    requires !e.Subscribe? && !e.Unsubscribe? && !Overlapping(s, e)
    ensures var s' := Next(s, e, workers); s'.errored || (Hopeless(s') && s'.emitted == s.emitted)
  {
    ListeningIsLive(s, workers);
    match e
    case LogArrives(log) =>
    case LiveResumes =>
    case TimerFires =>
    case _ => DoomLasts(s, e, workers);
  }

  lemma {:induction false} HangingEmitsNothing(s: State, events: seq<Event>, start: int, workers: nat)
    requires Hanging(s, start, workers) && !s.errored
    requires Feasible(s, events, workers) && Uninterrupted(s, events, workers) && !Run(s, events, workers).errored
    ensures Run(s, events, workers).emitted == s.emitted
    decreases |events|
  {
    if events != [] {
      assert !Next(s, events[0], workers).errored;
      StepSafely(s, events[0], start, workers);
      if s.activeBackFillingId.Some? {
        HangingSession(s, events[0], start, workers);
      } else {
        HangingLive(s, events[0], start, workers);
      }
      HangingEmitsNothing(Next(s, events[0], workers), events[1..], start, workers);
    }
  }

  /** At every point of an uninterrupted run, whatever it is waiting for: another block can come, without another call
      and without an error, if and only if the loop in charge has not already been given a failure or a block of another
      chain. */
  lemma NextBlockCanCome(s: State, start: int, workers: nat)
    requires Invariant(s, start, workers) && !s.errored && workers > 0
    ensures (exists events, end :: GoesWell(s, events, end, workers)) <==> !Hopeless(s)
  {
    if Hopeless(s) {
      forall events, end | Follows(s, events, end, workers) && !end.errored
        ensures end.emitted == s.emitted
      {
        HangingEmitsNothing(s, events, start, workers);
      }
    } else if s.activeBackFillingId.Some? {
      ActiveIsBackFilling(s, s.activeBackFillingId.value, workers);
      var events, end := SessionGoesWell(s, workers);
    } else if s.listening {
      ListeningIsLive(s, workers);
      if s.liveFetch.Some? {
        var events, end := LiveGoesWell(s, workers);
      } else {
        RestsEmpty(s);
        var events, end := LogGoesWell(s, workers);
      }
    } else {
      var events, end := StartGoesWell(s, start, workers);
    }
  }
}
