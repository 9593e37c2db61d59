/** The prefetching poller does not come to rest: which polling loops live on, and when the next height can come. */
module ErigonProgress {
  import opened Chain
  import opened Fetches
  import opened ErigonBlockPollers
  import opened ErigonRuns

  // ---- The polling loop of a subscription lives on ----

  ghost predicate ReOrgSince(log: seq<Entry>, since: nat) {
    exists k :: since <= k < |log| && log[k].ReOrgError?
  }

  /** The loop is suspended under the current id, or a re-org has put an end to the subscription. */
  ghost predicate Followed(s: State, id: nat, since: nat) {
    (s.pollingId == Some(id) && id in s.polls) || s.reOrgFound || ReOrgSince(s.log, since)
  }

  lemma {:induction false} FetchingFollows(s: State, id: nat, i: nat, blockNum: nat, latest: int, workers: nat)
    requires s.pollingId == Some(id) && id in s.polls
    ensures var s' := InnerLoop(s, i, blockNum, latest, workers); s'.pollingId == Some(id) && id in s'.polls
    decreases latest - blockNum
  {
    if blockNum <= latest && s.pollingId == Some(i) && |s.queue| < workers * 100 {
      FetchingFollows(Fetched(s, blockNum, workers), id, i, blockNum + 1, latest, workers);
    }
  }

  lemma StepFollows(s: State, e: Event, id: nat, since: nat, workers: nat)
    requires Followed(s, id, since) && since <= |s.log| && Enabled(s, e)
    requires !e.Subscribe? && !e.Unsubscribe? && e != LatestFails(id)
    ensures Followed(Next(s, e, workers), id, since)
  {
    var s' := Next(s, e, workers);
    StepGrowsLog(s, e, workers);
    if ReOrgSince(s.log, since) {
      var k :| since <= k < |s.log| && s.log[k].ReOrgError?;
      assert s'.log[k].ReOrgError?;
    } else if s.reOrgFound {
      ReOrgPersists(s, e, since, workers);
    } else if e.LatestKnown? && e.latest > s.polls[e.id].lastBlockNumber {
      FetchingFollows(s, id, e.id, s.polls[e.id].lastBlockNumber + 1, e.latest, workers);
    } else if e.Wakes? && s.polls[e.id].waiting.ForRoom? && |s.queue| < workers * 100 {
      FetchingFollows(s, id, e.id, s.polls[e.id].waiting.blockNum, s.polls[e.id].waiting.latest, workers);
    }
  }

  lemma {:induction false} FetchingKeepsReOrg(s: State, id: nat, blockNum: nat, latest: int, workers: nat)
    ensures InnerLoop(s, id, blockNum, latest, workers).reOrgFound == s.reOrgFound
    decreases latest - blockNum
  {
    if blockNum <= latest && s.pollingId == Some(id) && |s.queue| < workers * 100 {
      FetchingKeepsReOrg(Fetched(s, blockNum, workers), id, blockNum + 1, latest, workers);
    }
  }

  lemma ReOrgPersists(s: State, e: Event, since: nat, workers: nat)
    requires s.reOrgFound && since <= |s.log| && Enabled(s, e)
    ensures Next(s, e, workers).reOrgFound || ReOrgSince(Next(s, e, workers).log, since)
  {
    if e.LatestKnown? && e.latest > s.polls[e.id].lastBlockNumber {
      FetchingKeepsReOrg(s, e.id, s.polls[e.id].lastBlockNumber + 1, e.latest, workers);
    } else if e.Wakes? && s.polls[e.id].waiting.ForRoom? && |s.queue| < workers * 100 {
      FetchingKeepsReOrg(s, e.id, s.polls[e.id].waiting.blockNum, s.polls[e.id].waiting.latest, workers);
    } else if e.ReOrgReported? {
      assert Next(s, e, workers).log[|s.log|].ReOrgError?;
    }
  }

  lemma {:induction false} RunFollows(s: State, events: seq<Event>, id: nat, since: nat, workers: nat)
    requires Followed(s, id, since) && since <= |s.log| && Feasible(s, events, workers)
    requires forall i :: 0 <= i < |events| ==>
               !events[i].Subscribe? && !events[i].Unsubscribe? && events[i] != LatestFails(id)
    ensures Followed(Run(s, events, workers), id, since)
    decreases |events|
  {
    if events != [] {
      StepFollows(s, events[0], id, since, workers);
      StepGrowsLog(s, events[0], workers);
      assert forall i :: 0 <= i < |events[1..]| ==> events[1..][i] == events[i + 1];
      RunFollows(Next(s, events[0], workers), events[1..], id, since, workers);
    }
  }

  /** Whatever the state a subscription starts from: for as long as nobody subscribes or unsubscribes and the node
      answers its polls, its polling loop is suspended somewhere under the current id, through sleeps, waits for room
      and failed fetches. Only a re-org ends it. */
  lemma PollingOutlivesRun(s: State, start: nat, events: seq<Event>, workers: nat)
    requires Feasible(Next(s, Subscribe(start), workers), events, workers)
    requires forall i :: 0 <= i < |events| ==>
               !events[i].Subscribe? && !events[i].Unsubscribe? && events[i] != LatestFails(s.pollings)
    ensures Followed(Run(Next(s, Subscribe(start), workers), events, workers), s.pollings, |s.log|)
  {
    RunFollows(Next(s, Subscribe(start), workers), events, s.pollings, |s.log|, workers);
  }

  // ---- Without a subscription nothing is fetched ----

  /** No loop is suspended under the current id. */
  ghost predicate Abandoned(s: State) {
    Known(s.polls, s.pollings) && (s.pollingId.Some? ==> s.pollingId.value !in s.polls)
  }

  lemma StepFetchesNothing(s: State, e: Event, workers: nat)
    requires Abandoned(s) && Enabled(s, e) && !e.Subscribe?
    ensures Abandoned(Next(s, e, workers)) && |Next(s, e, workers).requests| == |s.requests|
  {
  }

  lemma {:induction false} AbandonedFetchesNothing(s: State, events: seq<Event>, workers: nat)
    requires Abandoned(s) && Feasible(s, events, workers)
    requires forall i :: 0 <= i < |events| ==> !events[i].Subscribe?
    ensures |Run(s, events, workers).requests| == |s.requests|
    decreases |events|
  {
    if events != [] {
      StepFetchesNothing(s, events[0], workers);
      assert forall i :: 0 <= i < |events[1..]| ==> events[1..][i] == events[i + 1];
      AbandonedFetchesNothing(Next(s, events[0], workers), events[1..], workers);
    }
  }

  lemma {:induction false} FetchingKnows(s: State, id: nat, blockNum: nat, latest: int, workers: nat)
    requires Known(s.polls, s.pollings) && id in s.polls
    ensures var s' := InnerLoop(s, id, blockNum, latest, workers); Known(s'.polls, s'.pollings)
    decreases latest - blockNum
  {
    if blockNum <= latest && s.pollingId == Some(id) && |s.queue| < workers * 100 {
      FetchingKnows(Fetched(s, blockNum, workers), id, blockNum + 1, latest, workers);
    }
  }

  lemma StepKnows(s: State, e: Event, workers: nat)
    requires Known(s.polls, s.pollings) && Enabled(s, e)
    ensures Known(Next(s, e, workers).polls, Next(s, e, workers).pollings)
  {
    if e.LatestKnown? && e.latest > s.polls[e.id].lastBlockNumber {
      FetchingKnows(s, e.id, s.polls[e.id].lastBlockNumber + 1, e.latest, workers);
    } else if e.Wakes? && s.polls[e.id].waiting.ForRoom? && |s.queue| < workers * 100 {
      FetchingKnows(s, e.id, s.polls[e.id].waiting.blockNum, s.polls[e.id].waiting.latest, workers);
    }
  }

  lemma {:induction false} RunKnows(s: State, events: seq<Event>, workers: nat)
    requires Known(s.polls, s.pollings) && Feasible(s, events, workers)
    ensures Known(Run(s, events, workers).polls, Run(s, events, workers).pollings)
    decreases |events|
  {
    if events != [] {
      StepKnows(s, events[0], workers);
      RunKnows(Next(s, events[0], workers), events[1..], workers);
    }
  }

  /** In every run: after unsubscribe, and after the node has failed to answer the loop of the subscription, no block is
      asked for until the next subscribe. */
  lemma NothingFetchedWithoutLoop(before: seq<Event>, ending: Event, events: seq<Event>, workers: nat)
    requires Feasible(START, before, workers) && Enabled(Run(START, before, workers), ending)
    requires var s := Run(START, before, workers);
             ending == Unsubscribe || (s.pollingId.Some? && ending == LatestFails(s.pollingId.value))
    requires Feasible(Next(Run(START, before, workers), ending, workers), events, workers)
    requires forall i :: 0 <= i < |events| ==> !events[i].Subscribe?
    ensures |Run(Next(Run(START, before, workers), ending, workers), events, workers).requests|
            == |Run(START, before, workers).requests|
  {
    RunKnows(START, before, workers);
    AbandonedFetchesNothing(Next(Run(START, before, workers), ending, workers), events, workers);
  }

  lemma StepStaysSilent(s: State, e: Event, workers: nat)
    requires s.pollingId.None? && s.fetching.None? && Enabled(s, e) && !e.Subscribe?
    ensures var s' := Next(s, e, workers);
            && s'.pollingId.None? && s'.fetching.None?
            && forall k :: |s.log| <= k < |s'.log| ==> !s'.log[k].Emitted?
  {
  }

  lemma {:induction false} StaysSilent(s: State, events: seq<Event>, workers: nat)
    requires s.pollingId.None? && s.fetching.None? && Feasible(s, events, workers)
    requires forall i :: 0 <= i < |events| ==> !events[i].Subscribe?
    ensures !EmitsMore(s, Run(s, events, workers))
    decreases |events|
  {
    if events != [] {
      var s' := Next(s, events[0], workers);
      StepStaysSilent(s, events[0], workers);
      StepGrowsLog(s, events[0], workers);
      LogGrows(s', events[1..], workers);
      assert forall i :: 0 <= i < |events[1..]| ==> events[1..][i] == events[i + 1];
      StaysSilent(s', events[1..], workers);
    }
  }

  /** When the consumer finds a re-org it unsubscribes: whatever was queued or asked for, nothing more is fetched or
      emitted until the next subscribe. */
  lemma ReOrgEndsSubscription(s: State, events: seq<Event>, workers: nat)
    requires Known(s.polls, s.pollings) && Enabled(s, ConsumerResumes) && !s.reOrgFound
    requires Next(s, ConsumerResumes, workers).reOrgFound
    requires Feasible(Next(s, ConsumerResumes, workers), events, workers)
    requires forall i :: 0 <= i < |events| ==> !events[i].Subscribe?
    ensures var end := Run(Next(s, ConsumerResumes, workers), events, workers);
            |end.requests| == |s.requests| && !EmitsMore(s, end)
  {
    var s' := Next(s, ConsumerResumes, workers);
    assert s'.pollingId.None? && s'.fetching.None? && s'.log == s.log;
    AbandonedFetchesNothing(s', events, workers);
    StaysSilent(s', events, workers);
  }

  // ---- The next height can come ----

  /** Steps by which the subscription goes on, told of no head but the given one. */
  predicate Onward(e: Event, id: nat, head: int) {
    !e.Subscribe? && !e.Unsubscribe? && (e.LatestKnown? ==> e == LatestKnown(id, head))
  }

  ghost predicate Goes(s: State, events: seq<Event>, end: State, id: nat, head: int, workers: nat) {
    && Feasible(s, events, workers) && Run(s, events, workers) == end
    && forall i :: 0 <= i < |events| ==> Onward(events[i], id, head)
  }

  lemma {:induction false} GoesOn(s: State, events: seq<Event>, m: State, e: Event, id: nat, head: int, workers: nat)
    requires Goes(s, events, m, id, head, workers) && Enabled(m, e) && Onward(e, id, head)
    ensures Goes(s, events + [e], Next(m, e, workers), id, head, workers)
  {
    assert [e][1..] == [];
    assert Run(Next(m, e, workers), [], workers) == Next(m, e, workers);
    assert Feasible(m, [e], workers) && Run(m, [e], workers) == Next(m, e, workers);
    RunsOn(s, events, [e], workers);
  }

  /** The answer that the consumer waits for is there, and it is a failure or not the child of the last block. */
  predicate Doomed(s: State) {
    && s.fetching.Some? && s.fetching.value < |s.requests|
    && match s.requests[s.fetching.value].answer
       case Pending => false
       case Failure => true
       case Success(block) => s.lastSavedBlockHash.Some? && s.lastSavedBlockHash.value != block.parentHash
  }

  /** One block is emitted, with nothing else in the log. */
  ghost predicate EmitsOne(s: State, end: State) {
    |end.log| == |s.log| + 1 && s.log <= end.log && end.log[|s.log|].Emitted?
  }

  lemma AwaitedBlockComes(s: State, id: nat, head: int, workers: nat) returns (events: seq<Event>, end: State)
    requires s.fetching.Some? && s.fetching.value < |s.requests| && !Doomed(s)
    ensures Goes(s, events, end, id, head, workers) && EmitsOne(s, end)
  {
    var f := s.fetching.value;
    var m := s;
    events := [];
    assert Goes(s, events, s, id, head, workers);
    if s.requests[f].answer.Pending? {
      var answered := Answered(f, Fitting(s, s.requests[f].height));
      GoesOn(s, events, s, answered, id, head, workers);
      events, m := events + [answered], Next(s, answered, workers);
    }
    GoesOn(s, events, m, ConsumerResumes, id, head, workers);
    end := Next(m, ConsumerResumes, workers);
    assert end.log == s.log + [Emitted(m.requests[f].answer.block)];
    events := events + [ConsumerResumes];
  }

  /** The consumer has begun to wait for request f, which has just been made. */
  ghost predicate Taken(s: State, f: nat) {
    && s.processingQueue && s.fetching == Some(f) && f < |s.requests| && s.requests[f].answer.Pending?
  }

  lemma {:induction false} FetchingStaysTaken(s: State, f: nat, id: nat, blockNum: nat, latest: int, workers: nat)
    requires Taken(s, f)
    ensures var s' := InnerLoop(s, id, blockNum, latest, workers); Taken(s', f) && s'.log == s.log
    decreases latest - blockNum
  {
    if blockNum <= latest && s.pollingId == Some(id) && |s.queue| < workers * 100 {
      FetchingStaysTaken(Fetched(s, blockNum, workers), f, id, blockNum + 1, latest, workers);
    }
  }

  lemma FetchingIsTaken(s: State, id: nat, blockNum: nat, latest: int, workers: nat)
    requires !s.processingQueue && s.queue == [] && !s.fatalError && s.pollingId == Some(id)
    requires blockNum <= latest && workers > 0
    ensures var s' := InnerLoop(s, id, blockNum, latest, workers); Taken(s', |s.requests|) && s'.log == s.log
  {
    FetchingStaysTaken(Fetched(s, blockNum, workers), |s.requests|, id, blockNum + 1, latest, workers);
  }

  /** The consumer is at rest over an empty queue, and the polling loop of the subscription is due for a height. */
  ghost predicate Caught(s: State, id: nat, due: int) {
    && !s.processingQueue && s.fetching.None? && s.queue == [] && !s.fatalError && s.pollingId == Some(id)
    && id in s.polls && PollInStep(s.polls[id], due)
  }

  lemma PolledBlockComes(s: State, id: nat, due: int, head: int, workers: nat) returns (events: seq<Event>, end: State)
    requires Caught(s, id, due) && s.polls[id].waiting.ForLatest? && due <= head && workers > 0
    ensures Goes(s, events, end, id, head, workers) && EmitsOne(s, end)
  {
    var none: seq<Event> := [];
    var m := Next(s, LatestKnown(id, head), workers);
    FetchingIsTaken(s, id, due, head, workers);
    assert Goes(s, none, s, id, head, workers);
    GoesOn(s, none, s, LatestKnown(id, head), id, head, workers);
    var rest, e := AwaitedBlockComes(m, id, head, workers);
    GoesThen(s, none + [LatestKnown(id, head)], m, rest, e, id, head, workers);
    events, end := none + [LatestKnown(id, head)] + rest, e;
  }

  lemma GoesThen(s: State, a: seq<Event>, m: State, b: seq<Event>, end: State, id: nat, head: int, workers: nat)
    requires Goes(s, a, m, id, head, workers) && Goes(m, b, end, id, head, workers)
    ensures Goes(s, a + b, end, id, head, workers)
  {
    RunsOn(s, a, b, workers);
  }

  /** Out of its sleep at the head, and out of its wait for room, the polling loop goes on. */
  lemma CaughtBlockComes(s: State, id: nat, due: int, head: int, workers: nat) returns (events: seq<Event>, end: State)
    requires Caught(s, id, due) && due <= head && workers > 0
    ensures Goes(s, events, end, id, head, workers) && EmitsOne(s, end)
  {
    if s.polls[id].waiting.ForLatest? {
      events, end := PolledBlockComes(s, id, due, head, workers);
    } else {
      var none: seq<Event> := [];
      var m := Next(s, Wakes(id), workers);
      var rest, e;
      assert Goes(s, none, s, id, head, workers);
      GoesOn(s, none, s, Wakes(id), id, head, workers);
      if s.polls[id].waiting.ForRoom? && due <= s.polls[id].waiting.latest {
        FetchingIsTaken(s, id, due, s.polls[id].waiting.latest, workers);
        rest, e := AwaitedBlockComes(m, id, head, workers);
      } else {
        assert Caught(m, id, due) && m.polls[id].waiting.ForLatest? && m.log == s.log;
        rest, e := PolledBlockComes(m, id, due, head, workers);
      }
      GoesThen(s, none + [Wakes(id)], m, rest, e, id, head, workers);
      events, end := none + [Wakes(id)] + rest, e;
    }
  }

  // ---- Over the runs of a subscription ----

  ghost predicate QueueEmptyAtRest(s: State) {
    !s.processingQueue && !s.fatalError ==> s.queue == []
  }

  lemma {:induction false} FetchingRestsEmpty(s: State, id: nat, blockNum: nat, latest: int, workers: nat)
    requires QueueEmptyAtRest(s)
    ensures QueueEmptyAtRest(InnerLoop(s, id, blockNum, latest, workers))
    decreases latest - blockNum
  {
    if blockNum <= latest && s.pollingId == Some(id) && |s.queue| < workers * 100 {
      FetchingRestsEmpty(Fetched(s, blockNum, workers), id, blockNum + 1, latest, workers);
    }
  }

  lemma StepRestsEmpty(s: State, e: Event, workers: nat)
    requires QueueEmptyAtRest(s) && Enabled(s, e) && !e.Subscribe?
    ensures QueueEmptyAtRest(Next(s, e, workers))
  {
    if e.LatestKnown? && e.latest > s.polls[e.id].lastBlockNumber {
      FetchingRestsEmpty(s, e.id, s.polls[e.id].lastBlockNumber + 1, e.latest, workers);
    } else if e.Wakes? && s.polls[e.id].waiting.ForRoom? && |s.queue| < workers * 100 {
      FetchingRestsEmpty(s, e.id, s.polls[e.id].waiting.blockNum, s.polls[e.id].waiting.latest, workers);
    }
  }

  lemma {:induction false} RunRestsEmpty(s: State, events: seq<Event>, workers: nat)
    requires QueueEmptyAtRest(s) && Feasible(s, events, workers)
    requires forall i :: 0 <= i < |events| ==> !events[i].Subscribe?
    ensures QueueEmptyAtRest(Run(s, events, workers))
    decreases |events|
  {
    if events != [] {
      StepRestsEmpty(s, events[0], workers);
      assert forall i :: 0 <= i < |events[1..]| ==> events[1..][i] == events[i + 1];
      RunRestsEmpty(Next(s, events[0], workers), events[1..], workers);
    }
  }

  /** What the consumer waits for can only end in an error, or already has. */
  predicate Ending(s: State) {
    s.reOrgFound || Doomed(s)
  }

  lemma {:induction false} FetchingKeepsEnding(s: State, id: nat, blockNum: nat, latest: int, workers: nat)
    requires Ending(s) && s.processingQueue
    ensures var s' := InnerLoop(s, id, blockNum, latest, workers); Ending(s') && s'.processingQueue && s'.log == s.log
    decreases latest - blockNum
  {
    if blockNum <= latest && s.pollingId == Some(id) && |s.queue| < workers * 100 {
      FetchingKeepsEnding(Fetched(s, blockNum, workers), id, blockNum + 1, latest, workers);
    }
  }

  lemma StepEnding(s: State, e: Event, workers: nat)
    requires Ending(s) && s.processingQueue && !(s.fetching.Some? && s.reOrgFound) && Enabled(s, e)
    ensures var s' := Next(s, e, workers); (Ending(s') && s'.log == s.log) || !ErrorFree(s'.log, |s.log|)
  {
    var s' := Next(s, e, workers);
    if e.LatestKnown? && e.latest > s.polls[e.id].lastBlockNumber {
      FetchingKeepsEnding(s, e.id, s.polls[e.id].lastBlockNumber + 1, e.latest, workers);
    } else if e.Wakes? && s.polls[e.id].waiting.ForRoom? && |s.queue| < workers * 100 {
      FetchingKeepsEnding(s, e.id, s.polls[e.id].waiting.blockNum, s.polls[e.id].waiting.latest, workers);
    } else if |s'.log| > |s.log| {
      assert !s'.log[|s.log|].Emitted?;
    }
  }

  lemma ErrorFreePrefix(log: seq<Entry>, longer: seq<Entry>, since: nat)
    requires log <= longer && ErrorFree(longer, since)
    ensures ErrorFree(log, since)
  {
    forall k | since <= k < |log|
      ensures log[k].Emitted?
    {
      assert longer[k].Emitted?;
    }
  }

  lemma {:induction false} EndingEmitsNothing(s: State, events: seq<Event>, id: nat, base: nat, start: nat,
                                              workers: nat)
    requires Ending(s) && Prefetching(s, id, base, start, workers) && Feasible(s, events, workers)
    requires forall i :: 0 <= i < |events| ==> !events[i].Subscribe?
    requires ErrorFree(Run(s, events, workers).log, |s.log|)
    ensures Run(s, events, workers).log == s.log
    decreases |events|
  {
    if events != [] {
      var s' := Next(s, events[0], workers);
      StepEnding(s, events[0], workers);
      StepPrefetches(s, events[0], id, base, start, workers);
      LogGrows(s', events[1..], workers);
      ErrorFreePrefix(s'.log, Run(s, events, workers).log, |s.log|);
      assert forall i :: 0 <= i < |events[1..]| ==> events[1..][i] == events[i + 1];
      EndingEmitsNothing(s', events[1..], id, base, start, workers);
    }
  }

  lemma {:induction false} FailedPollShows(s: State, events: seq<Event>, since: nat, workers: nat)
    requires Feasible(s, events, workers) && since <= |s.log| && ErrorFree(Run(s, events, workers).log, since)
    ensures forall i :: 0 <= i < |events| ==> !events[i].LatestFails?
    decreases |events|
  {
    if events != [] {
      var s', rest := Next(s, events[0], workers), events[1..];
      StepGrowsLog(s, events[0], workers);
      LogGrows(s', rest, workers);
      ErrorFreePrefix(s'.log, Run(s, events, workers).log, since);
      if events[0].LatestFails? {
        ErrorShows(s.log, PollError, since);
      }
      FailedPollShows(s', rest, since, workers);
      assert forall i :: 0 < i < |events| ==> events[i] == rest[i - 1];
    }
  }

  /** A subscription that has gone on without an error, with nothing doomed: it waits for a block that can still come,
      or it is caught up and due for the next height. */
  lemma WaitsOrCaught(s: State, start: nat, events: seq<Event>, workers: nat)
    requires IdleAndEmpty(s) && Feasible(Next(s, Subscribe(start), workers), events, workers)
    requires forall i :: 0 <= i < |events| ==> !events[i].Subscribe? && !events[i].Unsubscribe?
    requires ErrorFree(Run(Next(s, Subscribe(start), workers), events, workers).log, |s.log|)
    ensures var end := Run(Next(s, Subscribe(start), workers), events, workers);
            && |s.log| <= |end.log| && (end.fetching.Some? ==> end.fetching.value < |end.requests|)
            && Prefetching(end, s.pollings, |s.requests|, start, workers)
            && OnTime(end, s.pollings, |s.requests|, start, |s.log|, HeadsTold(events, s.pollings))
            && (end.fetching.None? && !end.reOrgFound ==> Caught(end, s.pollings, start + (|end.log| - |s.log|)))
  {
    var s0 := Next(s, Subscribe(start), workers);
    var end := Run(s0, events, workers);
    SubscribedIdle(s, start, workers);
    RunOnTime(s0, events, s.pollings, |s.requests|, start, |s.log|, {}, workers);
    assert {} + HeadsTold(events, s.pollings) == HeadsTold(events, s.pollings);
    RunPrefetches(s0, events, s.pollings, |s.requests|, start, workers);
    RunRestsEmpty(s0, events, workers);
    FailedPollShows(s0, events, |s.log|, workers);
    PollingOutlivesRun(s, start, events, workers);
    NoReOrgReported(end.log, |s.log|);
  }

  lemma NoReOrgReported(log: seq<Entry>, since: nat)
    requires ErrorFree(log, since)
    ensures !ReOrgSince(log, since)
  {
  }

  /** At every point of a subscription that no error has interrupted: the block due can come next, given a head at its
      height or above, without another call and without an error, if and only if the consumer has not already been
      given a failure or a block of another chain in its place. */
  lemma NextHeightCanCome(s: State, start: nat, events: seq<Event>, head: nat, workers: nat)
    requires IdleAndEmpty(s) && workers > 0 && Feasible(Next(s, Subscribe(start), workers), events, workers)
    requires forall i :: 0 <= i < |events| ==> !events[i].Subscribe? && !events[i].Unsubscribe?
    requires ErrorFree(Run(Next(s, Subscribe(start), workers), events, workers).log, |s.log|)
    requires start + (|Run(Next(s, Subscribe(start), workers), events, workers).log| - |s.log|) <= head
    ensures var end := Run(Next(s, Subscribe(start), workers), events, workers);
            (exists more, later :: Goes(end, more, later, s.pollings, head, workers) && EmitsOne(end, later))
            <==> !Ending(end)
  {
    var s0 := Next(s, Subscribe(start), workers);
    var end := Run(s0, events, workers);
    WaitsOrCaught(s, start, events, workers);
    if !Ending(end) {
      if end.fetching.Some? {
        var more, later := AwaitedBlockComes(end, s.pollings, head, workers);
      } else {
        var more, later := CaughtBlockComes(end, s.pollings, start + (|end.log| - |s.log|), head, workers);
      }
    } else {
      forall more, later | Goes(end, more, later, s.pollings, head, workers)
        ensures !EmitsOne(end, later)
      {
        if ErrorFree(later.log, |end.log|) {
          EndingEmitsNothing(end, more, s.pollings, |s.requests|, start, workers);
        }
      }
    }
  }
}
