/** Runs of the prefetching poller: hash-linked emission, agreement with the sequential poller, and load. */
module ErigonRuns {
  import opened Chain
  import opened Fetches
  import opened ErigonBlockPollers
  import Sequential = BlockPollers

  const START := State([], None, false, false, None, map[], 0, None, false, [], [])

  // ---- Hash-linked emission ----

  /** The last block emitted, unless a re-org was reported since. */
  function LastBlock(log: seq<Entry>): Option<Block>
    decreases |log|
  {
    if log == [] then None
    else
      match log[|log| - 1]
      case Emitted(block) => Some(block)
      case ReOrgError => None
      case _ => LastBlock(log[..|log| - 1])
  }

  ghost predicate HashLinked(log: seq<Entry>) {
    forall k :: 0 <= k < |log| && log[k].Emitted? && LastBlock(log[..k]).Some? ==>
      log[k].block.parentHash == LastBlock(log[..k]).value.hash
  }

  /** The consumer is busy with one thing at a time, and remembers the last block. */
  ghost predicate Remembering(s: State) {
    && (s.processingQueue <==> s.fetching.Some? || s.reOrgFound)
    && !(s.fetching.Some? && s.reOrgFound)
    && s.lastSavedBlockHash ==
       (if s.reOrgFound || LastBlock(s.log).None? then None else Some(LastBlock(s.log).value.hash))
    && HashLinked(s.log)
  }

  lemma LogOneMore(log: seq<Entry>, e: Entry)
    requires HashLinked(log)
    requires e.Emitted? && LastBlock(log).Some? ==> e.block.parentHash == LastBlock(log).value.hash
    ensures HashLinked(log + [e])
    ensures LastBlock(log + [e]) == match e
                                    case Emitted(block) => Some(block)
                                    case ReOrgError => None
                                    case _ => LastBlock(log)
  {
    var all := log + [e];
    assert all[..|log|] == log;
    forall k | 0 <= k < |all| && all[k].Emitted? && LastBlock(all[..k]).Some?
      ensures all[k].block.parentHash == LastBlock(all[..k]).value.hash
    {
      if k < |log| {
        assert all[..k] == log[..k];
      }
    }
  }

  lemma {:induction false} FetchingRemembers(s: State, id: nat, blockNum: nat, latest: int, workers: nat)
    requires Remembering(s)
    ensures var s' := InnerLoop(s, id, blockNum, latest, workers);
            Remembering(s') && s'.log == s.log && s'.reOrgFound == s.reOrgFound
    decreases latest - blockNum
  {
    if blockNum <= latest && s.pollingId == Some(id) && |s.queue| < workers * 100 {
      FetchingRemembers(Fetched(s, blockNum, workers), id, blockNum + 1, latest, workers);
    }
  }

  lemma StepRemembers(s: State, e: Event, workers: nat)
    requires Remembering(s) && Enabled(s, e)
    ensures Remembering(Next(s, e, workers))
  {
    match e
    case LatestKnown(id, latest) =>
      if latest > s.polls[id].lastBlockNumber {
        FetchingRemembers(s, id, s.polls[id].lastBlockNumber + 1, latest, workers);
      }
    case Wakes(id) =>
      if s.polls[id].waiting.ForRoom? && |s.queue| < workers * 100 {
        FetchingRemembers(s, id, s.polls[id].waiting.blockNum, s.polls[id].waiting.latest, workers);
      }
    case LatestFails(id) => LogOneMore(s.log, PollError);
    case ConsumerResumes =>
      var answer := s.requests[s.fetching.value].answer;
      if answer.Failure? {
        LogOneMore(s.log, FetchError);
      } else if s.lastSavedBlockHash.None? || s.lastSavedBlockHash.value == answer.block.parentHash {
        LogOneMore(s.log, Emitted(answer.block));
      }
    case ReOrgReported => LogOneMore(s.log, ReOrgError);
    case _ =>
  }

  lemma {:induction false} RunRemembers(s: State, events: seq<Event>, workers: nat)
    requires Remembering(s) && Feasible(s, events, workers)
    ensures Remembering(Run(s, events, workers))
    decreases |events|
  {
    if events != [] {
      StepRemembers(s, events[0], workers);
      RunRemembers(Next(s, events[0], workers), events[1..], workers);
    }
  }

  /** Entries i and j are blocks emitted one after the other, with no re-org reported in between. */
  ghost predicate Adjacent(log: seq<Entry>, i: nat, j: nat) {
    && i < j < |log| && log[i].Emitted? && log[j].Emitted?
    && (forall k :: i < k < j ==> !log[k].Emitted? && !log[k].ReOrgError?)
  }

  lemma {:induction false} LastBlockBefore(log: seq<Entry>, i: nat, j: nat)
    requires i < j <= |log| && log[i].Emitted?
    requires forall k :: i < k < j ==> !log[k].Emitted? && !log[k].ReOrgError?
    ensures LastBlock(log[..j]) == Some(log[i].block)
    decreases j
  {
    assert log[..j][..j - 1] == log[..j - 1];
    if i + 1 < j {
      LastBlockBefore(log, i, j - 1);
    }
  }

  /** Across fetch failures, failed polls, unsubscribing, new subscriptions and what earlier ones left in the queue:
      adjacent blocks are parent and child, so their heights differ by exactly one. */
  lemma AdjacentEmissionsLinked(events: seq<Event>, workers: nat, headers: Hash -> Header, i: nat, j: nat)
    requires Feasible(START, events, workers)
    requires Adjacent(Run(START, events, workers).log, i, j)
    requires var log := Run(START, events, workers).log;
             Authentic(log[i].block, headers) && Authentic(log[j].block, headers)
    ensures var log := Run(START, events, workers).log;
            && log[j].block.parentHash == log[i].block.hash
            && log[j].block.number == log[i].block.number + 1
  {
    RunRemembers(START, events, workers);
    LastBlockBefore(Run(START, events, workers).log, i, j);
  }

  /** When a re-org is reported the queue is dropped with it, and from then on the first block fetched is accepted. */
  lemma ReOrgClearsTheWay(events: seq<Event>, later: seq<Event>, workers: nat)
    requires Feasible(START, events, workers) && Run(START, events, workers).reOrgFound
    ensures var s := Next(Run(START, events, workers), ReOrgReported, workers);
            && s.queue == [] && s.fetching.None? && s.fatalError
            && (Feasible(s, later, workers) && Enabled(Run(s, later, workers), ConsumerResumes)
                && (forall k :: |s.log| <= k < |Run(s, later, workers).log| ==> !Run(s, later, workers).log[k].Emitted?)
                && Run(s, later, workers).requests[Run(s, later, workers).fetching.value].answer.Success? ==>
                  var end := Run(s, later, workers);
                  Next(end, ConsumerResumes, workers).log
                  == end.log + [Emitted(end.requests[end.fetching.value].answer.block)])
  {
    RunRemembers(START, events, workers);
    var s := Next(Run(START, events, workers), ReOrgReported, workers);
    StepRemembers(Run(START, events, workers), ReOrgReported, workers);
    if Feasible(s, later, workers) {
      var end := Run(s, later, workers);
      RunRemembers(s, later, workers);
      LogGrows(s, later, workers);
      if Enabled(end, ConsumerResumes)
         && (forall k :: |s.log| <= k < |end.log| ==> !end.log[k].Emitted?)
         && end.requests[end.fetching.value].answer.Success? {
        NothingSince(end.log, |s.log|);
      }
    }
  }

  lemma {:induction false} NothingSince(log: seq<Entry>, n: nat)
    requires 0 < n <= |log| && log[n - 1].ReOrgError?
    requires forall k :: n <= k < |log| ==> !log[k].Emitted?
    ensures LastBlock(log).None?
    decreases |log|
  {
    if n < |log| {
      NothingSince(log[..|log| - 1], n);
    }
  }

  lemma {:induction false} FetchingKeepsLog(s: State, id: nat, blockNum: nat, latest: int, workers: nat)
    ensures InnerLoop(s, id, blockNum, latest, workers).log == s.log
    decreases latest - blockNum
  {
    if blockNum <= latest && s.pollingId == Some(id) && |s.queue| < workers * 100 {
      FetchingKeepsLog(Fetched(s, blockNum, workers), id, blockNum + 1, latest, workers);
    }
  }

  lemma {:induction false} LogGrows(s: State, events: seq<Event>, workers: nat)
    requires Feasible(s, events, workers)
    ensures s.log <= Run(s, events, workers).log
    decreases |events|
  {
    if events != [] {
      StepGrowsLog(s, events[0], workers);
      LogGrows(Next(s, events[0], workers), events[1..], workers);
    }
  }

  lemma StepGrowsLog(s: State, e: Event, workers: nat)
    requires Enabled(s, e)
    ensures s.log <= Next(s, e, workers).log
  {
    if e.LatestKnown? && e.latest > s.polls[e.id].lastBlockNumber {
      FetchingKeepsLog(s, e.id, s.polls[e.id].lastBlockNumber + 1, e.latest, workers);
    } else if e.Wakes? && s.polls[e.id].waiting.ForRoom? && |s.queue| < workers * 100 {
      FetchingKeepsLog(s, e.id, s.polls[e.id].waiting.blockNum, s.polls[e.id].waiting.latest, workers);
    }
  }

  // ---- One subscription: the order of the prefetch ----

  /** Requests not yet consumed: the one the consumer waits for and the queued ones. */
  function Outstanding(s: State): nat {
    |s.queue| + if s.fetching.Some? then 1 else 0
  }

  /** The height that the subscription asks for next. */
  function NextHeight(s: State, base: nat, start: nat): int {
    start + (|s.requests| - base)
  }

  ghost predicate InTurn(requests: seq<Request>, base: nat, workers: nat) {
    workers > 0 ==>
      forall r :: base <= r < |requests| ==>
        requests[r].height >= 0 && requests[r].worker == requests[r].height % workers
  }

  ghost predicate PollInStep(p: Poll, next: int) {
    p.lastBlockNumber + 1 == next && (p.waiting.ForRoom? ==> p.waiting.blockNum == next)
  }

  /** The requests of the subscription, from id `base` on, are for start, start + 1, ...; the latest of them are
      outstanding, in order. */
  ghost predicate Lined(s: State, base: nat, start: nat, workers: nat) {
    && base + Outstanding(s) <= |s.requests|
    && s.queue == Ids(|s.requests| - |s.queue|, |s.requests|)
    && (s.fetching.Some? ==> s.fetching.value + Outstanding(s) == |s.requests|)
    && Consecutive(s.requests, base, start) && InTurn(s.requests, base, workers)
    && |s.queue| <= workers * 100
    && (s.processingQueue <==> s.fetching.Some? || s.reOrgFound) && !(s.fetching.Some? && s.reOrgFound)
  }

  ghost predicate Known(polls: map<nat, Poll>, pollings: nat) {
    forall id :: id in polls ==> id < pollings
  }

  /** And the polling loop of the subscription goes on with the first height not asked for. */
  ghost predicate Prefetching(s: State, id: nat, base: nat, start: nat, workers: nat) {
    && Lined(s, base, start, workers) && Known(s.polls, s.pollings)
    && (s.pollingId.Some? ==>
          && s.pollingId == Some(id) && id + 1 == s.pollings
          && (id in s.polls ==> PollInStep(s.polls[id], NextHeight(s, base, start))))
  }

  lemma FetchedInOrder(s: State, s': State, base: nat, start: nat, workers: nat)
    requires Lined(s, base, start, workers) && |s.queue| < workers * 100
    requires s' == Fetched(s, NextHeight(s, base, start), workers)
    ensures Lined(s', base, start, workers)
    ensures |s'.requests| == |s.requests| + 1 && Outstanding(s') == Outstanding(s) + 1
    ensures s' == s.(requests := s'.requests, queue := s'.queue, processingQueue := s'.processingQueue,
                     fetching := s'.fetching)
  {
    var grown := s.queue + [|s.requests|];
    assert grown == Ids(|s'.requests| - |grown|, |s'.requests|);
    assert s'.queue == Ids(|s'.requests| - |s'.queue|, |s'.requests|);
  }

  /** What polling leaves alone. */
  ghost predicate Extended(s: State, s': State) {
    && s'.log == s.log && s'.pollings == s.pollings && s'.pollingId == s.pollingId
    && s'.fatalError == s.fatalError && s'.reOrgFound == s.reOrgFound
    && |s'.requests| >= |s.requests| && (AnswersFit(s.requests) ==> AnswersFit(s'.requests))
    && |s'.requests| - Outstanding(s') == |s.requests| - Outstanding(s)
  }

  lemma {:induction false} FetchingLines(s: State, id: nat, blockNum: nat, latest: int, base: nat, start: nat,
                                         workers: nat)
    requires Lined(s, base, start, workers)
    requires s.pollingId == Some(id) ==> blockNum == NextHeight(s, base, start)
    ensures Lined(InnerLoop(s, id, blockNum, latest, workers), base, start, workers)
    decreases latest - blockNum
  {
    if blockNum <= latest && s.pollingId == Some(id) && |s.queue| < workers * 100 {
      var s1 := Fetched(s, blockNum, workers);
      FetchedInOrder(s, s1, base, start, workers);
      FetchingLines(s1, id, blockNum + 1, latest, base, start, workers);
    }
  }

  lemma {:induction false} FetchingExtends(s: State, id: nat, blockNum: nat, latest: int, base: nat, start: nat,
                                           workers: nat)
    requires Lined(s, base, start, workers)
    requires s.pollingId == Some(id) ==> blockNum == NextHeight(s, base, start)
    ensures Extended(s, InnerLoop(s, id, blockNum, latest, workers))
    decreases latest - blockNum
  {
    if blockNum <= latest && s.pollingId == Some(id) && |s.queue| < workers * 100 {
      var s1 := Fetched(s, blockNum, workers);
      FetchedInOrder(s, s1, base, start, workers);
      assert Extended(s, s1);
      FetchingExtends(s1, id, blockNum + 1, latest, base, start, workers);
    }
  }

  /** Where the inner loop leaves the polling loop that runs it. */
  ghost predicate Parked(s: State, s': State, id: nat, latest: int, base: nat, start: nat) {
    && s'.polls.Keys <= s.polls.Keys + {id}
    && (forall i :: i in s'.polls && i != id ==> s'.polls[i] == s.polls[i])
    && if s.pollingId == Some(id) then
         && id in s'.polls && PollInStep(s'.polls[id], NextHeight(s', base, start))
         && (s'.polls[id].waiting.ForRoom? ==> s'.polls[id].waiting.latest == latest)
       else id !in s'.polls && s'.requests == s.requests
  }

  lemma {:induction false} FetchingParks(s: State, id: nat, blockNum: nat, latest: int, base: nat, start: nat,
                                         workers: nat)
    requires Lined(s, base, start, workers)
    requires s.pollingId == Some(id) ==> blockNum == NextHeight(s, base, start)
    ensures Parked(s, InnerLoop(s, id, blockNum, latest, workers), id, latest, base, start)
    decreases latest - blockNum
  {
    if blockNum <= latest && s.pollingId == Some(id) && |s.queue| < workers * 100 {
      var s1 := Fetched(s, blockNum, workers);
      FetchedInOrder(s, s1, base, start, workers);
      FetchingParks(s1, id, blockNum + 1, latest, base, start, workers);
    }
  }

  /** No height above the head is asked for. */
  lemma {:induction false} FetchingStopsAtHead(s: State, id: nat, blockNum: nat, latest: int, base: nat, start: nat,
                                               workers: nat)
    requires Lined(s, base, start, workers)
    requires s.pollingId == Some(id) ==> blockNum == NextHeight(s, base, start)
    ensures var s' := InnerLoop(s, id, blockNum, latest, workers);
            |s'.requests| > |s.requests| ==> NextHeight(s', base, start) - 1 <= latest
    decreases latest - blockNum
  {
    if blockNum <= latest && s.pollingId == Some(id) && |s.queue| < workers * 100 {
      var s1 := Fetched(s, blockNum, workers);
      FetchedInOrder(s, s1, base, start, workers);
      FetchingStopsAtHead(s1, id, blockNum + 1, latest, base, start, workers);
      FetchingExtends(s1, id, blockNum + 1, latest, base, start, workers);
    }
  }

  lemma Polled(s: State, id: nat, blockNum: nat, latest: int, current: nat, base: nat, start: nat, workers: nat)
    requires Prefetching(s, current, base, start, workers) && id in s.polls
    requires s.pollingId == Some(id) ==> blockNum == NextHeight(s, base, start)
    ensures Prefetching(InnerLoop(s, id, blockNum, latest, workers), current, base, start, workers)
  {
    var s' := InnerLoop(s, id, blockNum, latest, workers);
    FetchingLines(s, id, blockNum, latest, base, start, workers);
    FetchingExtends(s, id, blockNum, latest, base, start, workers);
    FetchingParks(s, id, blockNum, latest, base, start, workers);
    assert Known(s'.polls, s'.pollings);
  }

  lemma StepPrefetches(s: State, e: Event, id: nat, base: nat, start: nat, workers: nat)
    requires Prefetching(s, id, base, start, workers) && Enabled(s, e) && !e.Subscribe?
    ensures Prefetching(Next(s, e, workers), id, base, start, workers)
  {
    match e
    case LatestKnown(i, latest) =>
      if latest > s.polls[i].lastBlockNumber {
        Polled(s, i, s.polls[i].lastBlockNumber + 1, latest, id, base, start, workers);
      }
    case Wakes(i) => WakingPrefetches(s, i, id, base, start, workers);
    case ConsumerResumes => ConsumptionPrefetches(s, s.requests[s.fetching.value].answer, id, base, start, workers);
    case Answered(r, answer) => AnswerPrefetches(s, r, answer, id, base, start, workers);
    case _ =>
  }

  lemma WakingPrefetches(s: State, i: nat, id: nat, base: nat, start: nat, workers: nat)
    requires Prefetching(s, id, base, start, workers) && Enabled(s, Wakes(i))
    ensures Prefetching(Next(s, Wakes(i), workers), id, base, start, workers)
  {
    if s.polls[i].waiting.ForRoom? && |s.queue| < workers * 100 {
      var ForRoom(blockNum, latest) := s.polls[i].waiting;
      Polled(s, i, blockNum, latest, id, base, start, workers);
    }
  }

  lemma AnswerPrefetches(s: State, r: nat, answer: Answer, id: nat, base: nat, start: nat, workers: nat)
    requires Prefetching(s, id, base, start, workers) && r < |s.requests|
    ensures Prefetching(s.(requests := s.requests[r := s.requests[r].(answer := answer)]), id, base, start, workers)
  {
  }

  lemma ConsumptionPrefetches(s: State, answer: Answer, id: nat, base: nat, start: nat, workers: nat)
    requires Prefetching(s, id, base, start, workers) && s.fetching.Some? && !answer.Pending?
    ensures Prefetching(Consumed(s, answer), id, base, start, workers)
  {
    var s' := Consumed(s, answer);
    assert s'.queue == Ids(|s'.requests| - |s'.queue|, |s'.requests|);
  }

  // ---- One subscription, up to the first error: what is emitted ----

  predicate WithinHeads(n: int, heads: set<int>) {
    exists h :: h in heads && n <= h
  }

  /** Since entry `since` of the log nothing but the next heights has been emitted; nothing consumed is missing; and
      nothing was asked for beyond the heads reported. */
  ghost predicate OnTime(s: State, id: nat, base: nat, start: nat, since: nat, heads: set<int>) {
    && since <= |s.log|
    && (forall k :: since <= k < |s.log| ==> s.log[k].Emitted? && s.log[k].block.number == start + (k - since))
    && |s.log| - since <= |s.requests| - base
    && (!s.reOrgFound ==> !s.fatalError && |s.log| - since == |s.requests| - Outstanding(s) - base)
    && (s.reOrgFound ==> s.pollingId.None?)
    && (|s.requests| > base ==> WithinHeads(NextHeight(s, base, start) - 1, heads))
    && (s.pollingId.Some? && id in s.polls && s.polls[id].waiting.ForRoom? ==> s.polls[id].waiting.latest in heads)
    && AnswersFit(s.requests)
  }

  ghost predicate ErrorFree(log: seq<Entry>, since: nat) {
    forall k :: since <= k < |log| ==> log[k].Emitted?
  }

  lemma ErrorShows(log: seq<Entry>, e: Entry, since: nat)
    requires since <= |log| && !e.Emitted?
    ensures !ErrorFree(log + [e], since)
  {
    assert (log + [e])[|log|] == e;
  }

  lemma PolledOnTime(s: State, i: nat, blockNum: nat, latest: int, id: nat, base: nat, start: nat, since: nat,
                     heads: set<int>, workers: nat)
    requires Prefetching(s, id, base, start, workers) && OnTime(s, id, base, start, since, heads) && i in s.polls
    requires s.pollingId == Some(i) ==> blockNum == NextHeight(s, base, start) && latest in heads
    ensures OnTime(InnerLoop(s, i, blockNum, latest, workers), id, base, start, since, heads)
  {
    var s' := InnerLoop(s, i, blockNum, latest, workers);
    FetchingExtends(s, i, blockNum, latest, base, start, workers);
    FetchingParks(s, i, blockNum, latest, base, start, workers);
    FetchingStopsAtHead(s, i, blockNum, latest, base, start, workers);
    if |s'.requests| > |s.requests| {
      assert WithinHeads(NextHeight(s', base, start) - 1, heads);
    }
  }

  lemma ConsumedOnTime(s: State, id: nat, base: nat, start: nat, since: nat, heads: set<int>, workers: nat)
    requires Prefetching(s, id, base, start, workers) && OnTime(s, id, base, start, since, heads)
    requires Enabled(s, ConsumerResumes) && ErrorFree(Next(s, ConsumerResumes, workers).log, since)
    ensures OnTime(Next(s, ConsumerResumes, workers), id, base, start, since, heads)
  {
    var s', f := Next(s, ConsumerResumes, workers), s.fetching.value;
    assert s.requests[f].height == start + (f - base);
    assert s.requests[f].answer.Success? ==> s.requests[f].answer.block.number == s.requests[f].height;
    ErrorShows(s.log, FetchError, since);
  }

  function HeadsTold(events: seq<Event>, id: nat): set<int>
    decreases |events|
  {
    if events == [] then {}
    else (if events[0].LatestKnown? && events[0].id == id then {events[0].latest} else {}) + HeadsTold(events[1..], id)
  }

  lemma StepOnTime(s: State, e: Event, id: nat, base: nat, start: nat, since: nat, heads: set<int>, workers: nat)
    requires Prefetching(s, id, base, start, workers) && OnTime(s, id, base, start, since, heads)
    requires Enabled(s, e) && !e.Subscribe? && !e.Unsubscribe? && ErrorFree(Next(s, e, workers).log, since)
    ensures OnTime(Next(s, e, workers), id, base, start, since, heads + HeadsTold([e], id))
  {
    var heads' := heads + HeadsTold([e], id);
    MoreHeads(s, id, base, start, since, heads, heads');
    ErrorShows(s.log, PollError, since);
    ErrorShows(s.log, ReOrgError, since);
    match e
    case LatestKnown(i, latest) =>
      assert i == id ==> latest in heads' by {
        assert [e][0] == e;
      }
      if latest > s.polls[i].lastBlockNumber {
        PolledOnTime(s, i, s.polls[i].lastBlockNumber + 1, latest, id, base, start, since, heads', workers);
      }
    case Wakes(i) => WakingOnTime(s, i, id, base, start, since, heads', workers);
    case ConsumerResumes => ConsumedOnTime(s, id, base, start, since, heads', workers);
    case Answered(r, answer) => AnsweredOnTime(s, r, answer, id, base, start, since, heads');
    case _ =>
  }

  lemma MoreHeads(s: State, id: nat, base: nat, start: nat, since: nat, heads: set<int>, heads': set<int>)
    requires OnTime(s, id, base, start, since, heads) && heads <= heads'
    ensures OnTime(s, id, base, start, since, heads')
  {
    if |s.requests| > base {
      var h :| h in heads && NextHeight(s, base, start) - 1 <= h;
      assert h in heads';
    }
  }

  lemma WakingOnTime(s: State, i: nat, id: nat, base: nat, start: nat, since: nat, heads: set<int>, workers: nat)
    requires Prefetching(s, id, base, start, workers) && OnTime(s, id, base, start, since, heads)
    requires Enabled(s, Wakes(i))
    ensures OnTime(Next(s, Wakes(i), workers), id, base, start, since, heads)
  {
    if s.polls[i].waiting.ForRoom? && |s.queue| < workers * 100 {
      var ForRoom(blockNum, latest) := s.polls[i].waiting;
      PolledOnTime(s, i, blockNum, latest, id, base, start, since, heads, workers);
    }
  }

  lemma AnsweredOnTime(s: State, r: nat, answer: Answer, id: nat, base: nat, start: nat, since: nat, heads: set<int>)
    requires OnTime(s, id, base, start, since, heads) && Enabled(s, Answered(r, answer))
    ensures OnTime(s.(requests := s.requests[r := s.requests[r].(answer := answer)]), id, base, start, since, heads)
  {
  }

  lemma {:induction false} RunOnTime(s: State, events: seq<Event>, id: nat, base: nat, start: nat, since: nat,
                                     heads: set<int>, workers: nat)
    requires Prefetching(s, id, base, start, workers) && OnTime(s, id, base, start, since, heads)
    requires Feasible(s, events, workers) && ErrorFree(Run(s, events, workers).log, since)
    requires forall i :: 0 <= i < |events| ==> !events[i].Subscribe? && !events[i].Unsubscribe?
    ensures OnTime(Run(s, events, workers), id, base, start, since, heads + HeadsTold(events, id))
    decreases |events|
  {
    if events == [] {
      assert heads + {} == heads;
    } else {
      var e, s1 := events[0], Next(s, events[0], workers);
      LogGrows(s1, events[1..], workers);
      assert forall k :: since <= k < |s1.log| ==> s1.log[k] == Run(s, events, workers).log[k];
      StepOnTime(s, e, id, base, start, since, heads, workers);
      StepPrefetches(s, e, id, base, start, workers);
      assert forall i :: 0 <= i < |events[1..]| ==> events[1..][i] == events[i + 1];
      RunOnTime(s1, events[1..], id, base, start, since, heads + HeadsTold([e], id), workers);
      assert HeadsTold(events, id) == HeadsTold([e], id) + HeadsTold(events[1..], id) by {
        assert [e][1..] == [];
      }
      assert heads + HeadsTold([e], id) + HeadsTold(events[1..], id) == heads + HeadsTold(events, id);
    }
  }

  /** Nothing queued, fetched or reported; loops of earlier subscriptions may still be suspended. */
  ghost predicate IdleAndEmpty(s: State) {
    && s.queue == [] && s.fetching.None? && !s.processingQueue && !s.reOrgFound
    && Known(s.polls, s.pollings) && AnswersFit(s.requests)
  }

  function BlocksOf(log: seq<Entry>, since: nat): (blocks: seq<Block>)
    requires ErrorFree(log, since)
    ensures |blocks| == if since <= |log| then |log| - since else 0
    ensures forall k :: 0 <= k < |blocks| ==> blocks[k] == log[since + k].block
  {
    if since <= |log| then seq(|log| - since, k requires 0 <= k < |log| - since => log[since + k].block) else []
  }

  lemma SubscribedIdle(s: State, start: nat, workers: nat)
    requires IdleAndEmpty(s)
    ensures var s0 := Next(s, Subscribe(start), workers);
            && Prefetching(s0, s.pollings, |s.requests|, start, workers)
            && OnTime(s0, s.pollings, |s.requests|, start, |s.log|, {})
  {
    var s0 := Next(s, Subscribe(start), workers);
    assert s0.queue == Ids(|s0.requests|, |s0.requests|);
  }

  /** Whatever order the workers answer in, up to the first error: start, start + 1, ... are emitted, none above the
      heads reported, and a run of the sequential poller that is told no other heads emits the very same blocks. */
  lemma PipelinedRefinesSequential(s: State, start: nat, events: seq<Event>, workers: nat, q: Sequential.State)
    returns (sequential: seq<Sequential.Event>)
    requires IdleAndEmpty(s) && Sequential.Ready(q)
    requires Feasible(Next(s, Subscribe(start), workers), events, workers)
    requires forall i :: 0 <= i < |events| ==> !events[i].Subscribe? && !events[i].Unsubscribe?
    requires ErrorFree(Run(Next(s, Subscribe(start), workers), events, workers).log, |s.log|)
    ensures var end := Run(Next(s, Subscribe(start), workers), events, workers);
            var blocks := BlocksOf(end.log, |s.log|);
            var heads := HeadsTold(events, s.pollings);
            && Sequential.UpToHead(start, blocks, heads)
            && (forall i :: 0 <= i < |sequential| ==> !sequential[i].Subscribe? && !sequential[i].Unsubscribe?)
            && Sequential.Feasible(Sequential.Next(q, Sequential.Subscribe(start)), sequential)
            && var end' := Sequential.Run(Sequential.Next(q, Sequential.Subscribe(start)), sequential);
               end'.emitted == blocks && end'.heads <= heads && end'.errored == q.errored
  {
    var s0 := Next(s, Subscribe(start), workers);
    var end, heads := Run(s0, events, workers), HeadsTold(events, s.pollings);
    SubscribedIdle(s, start, workers);
    RunOnTime(s0, events, s.pollings, |s.requests|, start, |s.log|, {}, workers);
    assert {} + heads == heads;
    var blocks := BlocksOf(end.log, |s.log|);
    if blocks != [] {
      var h :| h in heads && NextHeight(end, |s.requests|, start) - 1 <= h;
      assert start + |blocks| - 1 <= h;
    }
    sequential := Sequential.EveryStreamIsSequential(q, start, blocks, heads);
  }

  // ---- Load ----

  lemma {:induction false} RunPrefetches(s: State, events: seq<Event>, id: nat, base: nat, start: nat, workers: nat)
    requires Prefetching(s, id, base, start, workers) && Feasible(s, events, workers)
    requires forall i :: 0 <= i < |events| ==> !events[i].Subscribe?
    ensures Prefetching(Run(s, events, workers), id, base, start, workers)
    decreases |events|
  {
    if events != [] {
      StepPrefetches(s, events[0], id, base, start, workers);
      assert forall i :: 0 <= i < |events[1..]| ==> events[1..][i] == events[i + 1];
      RunPrefetches(Next(s, events[0], workers), events[1..], id, base, start, workers);
    }
  }

  /** How many of the requests lo, ..., hi - 1 went to the worker. */
  function Load(requests: seq<Request>, lo: nat, hi: nat, worker: nat): nat
    requires lo <= hi <= |requests|
    decreases hi - lo
  {
    if lo == hi then 0 else (if requests[lo].worker == worker then 1 else 0) + Load(requests, lo + 1, hi, worker)
  }

  /** How many of the n heights from `from` on leave the remainder w. */
  function Residues(from: nat, n: nat, workers: nat, w: nat): nat
    requires workers > 0
    decreases n
  {
    if n == 0 then 0 else (if from % workers == w then 1 else 0) + Residues(from + 1, n - 1, workers, w)
  }

  lemma {:induction false} LoadIsResidues(requests: seq<Request>, lo: nat, hi: nat, base: nat, start: nat, workers: nat,
                                          w: nat)
    requires workers > 0 && base <= lo <= hi <= |requests|
    requires Consecutive(requests, base, start) && InTurn(requests, base, workers)
    ensures Load(requests, lo, hi, w) == Residues(start + (lo - base), hi - lo, workers, w)
    decreases hi - lo
  {
    if lo < hi {
      assert requests[lo].height == start + (lo - base);
      LoadIsResidues(requests, lo + 1, hi, base, start, workers, w);
    }
  }

  lemma {:induction false} ResiduesSplit(from: nat, m: nat, n: nat, workers: nat, w: nat)
    requires workers > 0
    ensures Residues(from, m + n, workers, w) == Residues(from, m, workers, w) + Residues(from + m, n, workers, w)
    decreases m
  {
    if m > 0 {
      ResiduesSplit(from + 1, m - 1, n, workers, w);
    }
  }

  lemma RemainderIs(x: int, quotient: int, rest: int, workers: nat)
    requires workers > 0 && x == quotient * workers + rest && 0 <= rest < workers
    ensures x % workers == rest
  {
    var d := quotient - x / workers;
    assert x == workers * (x / workers) + x % workers;
    assert d * workers == x % workers - rest;
    assert d >= 1 ==> d * workers >= workers;
    assert d <= -1 ==> d * workers + workers <= 0;
    assert d == 0;
  }

  lemma NextRemainder(x: nat, workers: nat)
    requires workers > 0
    ensures (x + 1) % workers == if x % workers + 1 == workers then 0 else x % workers + 1
  {
    var quotient := x / workers;
    assert x == quotient * workers + x % workers;
    if x % workers + 1 == workers {
      assert x + 1 == (quotient + 1) * workers + 0;
      RemainderIs(x + 1, quotient + 1, 0, workers);
    } else {
      RemainderIs(x + 1, quotient, x % workers + 1, workers);
    }
  }

  /** How far it is from a height to the next one that leaves the remainder. */
  function Distance(from: nat, workers: nat, w: nat): nat
    requires w < workers
  {
    if from % workers <= w then w - from % workers else w + workers - from % workers
  }

  lemma {:induction false} NoResidue(from: nat, n: nat, workers: nat, w: nat)
    requires w < workers && n <= Distance(from, workers, w)
    ensures Residues(from, n, workers, w) == 0
    decreases n
  {
    if n > 0 {
      NextRemainder(from, workers);
      NoResidue(from + 1, n - 1, workers, w);
    }
  }

  /** As many heights in a row as there are workers meet every remainder once. */
  lemma OneEach(from: nat, workers: nat, w: nat)
    requires w < workers
    ensures Residues(from, workers, workers, w) == 1
  {
    var t, quotient := Distance(from, workers, w), from / workers;
    assert from == quotient * workers + from % workers;
    if from % workers <= w {
      RemainderIs(from + t, quotient, w, workers);
    } else {
      assert from + t == (quotient + 1) * workers + w;
      RemainderIs(from + t, quotient + 1, w, workers);
    }
    ResiduesSplit(from, t, workers - t, workers, w);
    NoResidue(from, t, workers, w);
    NextRemainder(from + t, workers);
    NoResidue(from + t + 1, workers - t - 1, workers, w);
  }

  function Rounds(n: nat, workers: nat): nat
    requires workers > 0
  {
    if n < workers then 0 else 1 + Rounds(n - workers, workers)
  }

  lemma {:induction false} ResiduesEven(from: nat, n: nat, workers: nat, w: nat)
    requires w < workers
    ensures Rounds(n, workers) <= Residues(from, n, workers, w) <= Rounds(n, workers) + 1
    decreases n
  {
    OneEach(from, workers, w);
    if n < workers {
      ResiduesSplit(from, n, workers - n, workers, w);
    } else {
      ResiduesSplit(from, workers, n - workers, workers, w);
      ResiduesEven(from + workers, n - workers, workers, w);
    }
  }

  lemma {:induction false} ResiduesBound(from: nat, n: nat, k: nat, workers: nat, w: nat)
    requires w < workers && n <= k * workers + 1
    ensures Residues(from, n, workers, w) <= k + 1
    decreases k
  {
    OneEach(from, workers, w);
    if n < workers {
      ResiduesSplit(from, n, workers - n, workers, w);
    } else if k > 0 {
      ResiduesSplit(from, workers, n - workers, workers, w);
      assert (k - 1) * workers == k * workers - workers;
      ResiduesBound(from + workers, n - workers, k - 1, workers, w);
    }
  }

  /** The queue holds ids of requests, at most a hundred for every worker. */
  ghost predicate Bounded(s: State, workers: nat) {
    |s.queue| <= workers * 100 && forall i :: 0 <= i < |s.queue| ==> s.queue[i] < |s.requests|
  }

  lemma {:induction false} FetchingBounded(s: State, id: nat, blockNum: nat, latest: int, workers: nat)
    requires Bounded(s, workers)
    ensures Bounded(InnerLoop(s, id, blockNum, latest, workers), workers)
    decreases latest - blockNum
  {
    if blockNum <= latest && s.pollingId == Some(id) && |s.queue| < workers * 100 {
      FetchingBounded(Fetched(s, blockNum, workers), id, blockNum + 1, latest, workers);
    }
  }

  lemma StepBounded(s: State, e: Event, workers: nat)
    requires Bounded(s, workers) && Enabled(s, e)
    ensures Bounded(Next(s, e, workers), workers)
  {
    if e.LatestKnown? && e.latest > s.polls[e.id].lastBlockNumber {
      FetchingBounded(s, e.id, s.polls[e.id].lastBlockNumber + 1, e.latest, workers);
    } else if e.Wakes? && s.polls[e.id].waiting.ForRoom? && |s.queue| < workers * 100 {
      FetchingBounded(s, e.id, s.polls[e.id].waiting.blockNum, s.polls[e.id].waiting.latest, workers);
    }
  }

  lemma {:induction false} RunBounded(s: State, events: seq<Event>, workers: nat)
    requires Bounded(s, workers) && Feasible(s, events, workers)
    ensures Bounded(Run(s, events, workers), workers)
    decreases |events|
  {
    if events != [] {
      StepBounded(s, events[0], workers);
      RunBounded(Next(s, events[0], workers), events[1..], workers);
    }
  }

  /** In every run, over any number of subscriptions, failures, re-orgs and whatever they left in the queue: never
      more than a hundred promises a worker are queued. */
  lemma QueueNeverOutgrowsWorkers(events: seq<Event>, workers: nat)
    requires Feasible(START, events, workers)
    ensures |Run(START, events, workers).queue| <= workers * 100
  {
    RunBounded(START, events, workers);
  }

  /** In a subscription started with an empty queue the outstanding heights are spread evenly: any two workers have
      the same number of them but for one, and none has more than 101. Fetch failures, failed polls and unsubscribing
      change nothing about that. */
  lemma RoundRobin(s: State, start: nat, events: seq<Event>, workers: nat, w1: nat, w2: nat)
    requires IdleAndEmpty(s) && w1 < workers && w2 < workers
    requires Feasible(Next(s, Subscribe(start), workers), events, workers)
    requires forall i :: 0 <= i < |events| ==> !events[i].Subscribe?
    ensures var end := Run(Next(s, Subscribe(start), workers), events, workers);
            && Outstanding(end) <= |end.requests|
            && var l1, l2 := Load(end.requests, |end.requests| - Outstanding(end), |end.requests|, w1),
                             Load(end.requests, |end.requests| - Outstanding(end), |end.requests|, w2);
               -1 <= l1 - l2 <= 1 && l1 <= 101
  {
    var s0, base := Next(s, Subscribe(start), workers), |s.requests|;
    var end := Run(s0, events, workers);
    SubscribedIdle(s, start, workers);
    RunPrefetches(s0, events, s.pollings, base, start, workers);
    var lo, n := |end.requests| - Outstanding(end), Outstanding(end);
    var from := start + (lo - base);
    LoadIsResidues(end.requests, lo, |end.requests|, base, start, workers, w1);
    LoadIsResidues(end.requests, lo, |end.requests|, base, start, workers, w2);
    ResiduesEven(from, n, workers, w1);
    ResiduesEven(from, n, workers, w2);
    ResiduesBound(from, n, 100, workers, w1);
  }

  // ---- A full queue after a failure ----

  /** The consumer has stopped and the queue is full: there is no room to fetch, and only fetching restarts it. */
  ghost predicate Stalled(s: State, workers: nat) {
    && !s.processingQueue && s.fetching.None? && !s.reOrgFound && |s.queue| >= workers * 100
  }

  lemma {:induction false} StalledFetchesNothing(s: State, id: nat, blockNum: nat, latest: int, workers: nat)
    requires Stalled(s, workers)
    ensures var s' := InnerLoop(s, id, blockNum, latest, workers);
            s'.queue == s.queue && s'.log == s.log && Stalled(s', workers)
  {
  }

  /** No later subscription brings a stalled poller back: nothing is emitted any more. */
  lemma {:induction false} StalledForGood(s: State, events: seq<Event>, workers: nat)
    requires Stalled(s, workers) && Feasible(s, events, workers)
    ensures var end := Run(s, events, workers);
            && Stalled(end, workers) && end.queue == s.queue && |s.log| <= |end.log|
            && forall k :: |s.log| <= k < |end.log| ==> !end.log[k].Emitted?
    decreases |events|
  {
    if events != [] {
      var s1 := Next(s, events[0], workers);
      StalledStep(s, events[0], workers);
      StalledForGood(s1, events[1..], workers);
      LogGrows(s1, events[1..], workers);
    }
  }

  lemma StalledStep(s: State, e: Event, workers: nat)
    requires Stalled(s, workers) && Enabled(s, e)
    ensures var s' := Next(s, e, workers);
            && Stalled(s', workers) && s'.queue == s.queue && (s'.log == s.log || s'.log == s.log + [PollError])
  {
    if e.LatestKnown? && e.latest > s.polls[e.id].lastBlockNumber {
      StalledFetchesNothing(s, e.id, s.polls[e.id].lastBlockNumber + 1, e.latest, workers);
    }
  }

  // ---- With room in the queue the poller can be brought back ----

  ghost predicate AtRest(s: State) {
    !s.processingQueue && s.fetching.None? && !s.reOrgFound
  }

  ghost predicate EmitsMore(s: State, end: State) {
    exists k :: |s.log| <= k < |end.log| && end.log[k].Emitted?
  }

  /** No run, with whatever subscriptions in it, emits a block any more. */
  ghost predicate Silenced(s: State, workers: nat) {
    forall events :: Feasible(s, events, workers) ==> !EmitsMore(s, Run(s, events, workers))
  }

  lemma {:induction false} RunsOn(s: State, a: seq<Event>, b: seq<Event>, workers: nat)
    requires Feasible(s, a, workers) && Feasible(Run(s, a, workers), b, workers)
    ensures Feasible(s, a + b, workers) && Run(s, a + b, workers) == Run(Run(s, a, workers), b, workers)
    decreases |a|
  {
    if a == [] {
      assert a + b == b;
    } else {
      RunsOn(Next(s, a[0], workers), a[1..], b, workers);
      assert (a + b)[1..] == a[1..] + b;
    }
  }

  /** How many of the queued requests have been answered. */
  function AnsweredIn(queue: seq<nat>, requests: seq<Request>): nat {
    if queue == [] then 0
    else
      (if queue[0] < |requests| && !requests[queue[0]].answer.Pending? then 1 else 0) + AnsweredIn(queue[1..], requests)
  }

  lemma {:induction false} AnsweredInMore(queue: seq<nat>, requests: seq<Request>, request: Request)
    requires request.answer.Pending? && forall i :: 0 <= i < |queue| ==> queue[i] < |requests|
    ensures AnsweredIn(queue + [|requests|], requests + [request]) == AnsweredIn(queue, requests)
    decreases |queue|
  {
    if queue == [] {
      assert [|requests|][1..] == [];
    } else {
      AnsweredInMore(queue[1..], requests, request);
      assert (queue + [|requests|])[1..] == queue[1..] + [|requests|];
    }
  }

  /** A new subscription whose first head is its start block: the consumer goes back to the front of the queue. */
  function Restart(s: State): seq<Event> {
    [Subscribe(0), LatestKnown(s.pollings, 0)]
  }

  lemma Restarts(s: State, workers: nat) returns (s': State)
    requires AtRest(s) && Bounded(s, workers) && |s.queue| < workers * 100
    ensures Feasible(s, Restart(s), workers) && s' == Run(s, Restart(s), workers)
    ensures s'.log == s.log && s'.lastSavedBlockHash == s.lastSavedBlockHash && !s'.reOrgFound
    ensures s'.requests == s.requests + [Request(0, 0, Pending)] && s'.fetching.Some?
    ensures [s'.fetching.value] + s'.queue == s.queue + [|s.requests|]
    ensures Bounded(s', workers) && s'.fetching.value < |s'.requests|
  {
    var s1, id := Next(s, Subscribe(0), workers), s.pollings;
    var s2 := Fetched(s1, 0, workers);
    assert InnerLoop(s2, id, 1, 0, workers) == OuterLoop(s2, id, 0);
    s' := OuterLoop(s2, id, 0);
    assert Next(s1, LatestKnown(id, 0), workers) == s';
    RunTwo(s, Subscribe(0), LatestKnown(id, 0), workers);
  }

  lemma RunTwo(s: State, a: Event, b: Event, workers: nat)
    requires Enabled(s, a) && Enabled(Next(s, a, workers), b)
    ensures Feasible(s, [a, b], workers)
    ensures Run(s, [a, b], workers) == Next(Next(s, a, workers), b, workers)
  {
    var s1 := Next(s, a, workers);
    assert [a, b][1..] == [b] && [b][1..] == [];
    assert Run(s1, [b], workers) == Run(Next(s1, b, workers), [], workers);
  }

  /** The answer that the consumer accepts after what it emitted last. */
  function Fitting(s: State, height: int): Answer {
    Success(Block(height, ZERO_HASH, if s.lastSavedBlockHash.Some? then s.lastSavedBlockHash.value else ZERO_HASH))
  }

  lemma PendingFrontEmits(s: State, workers: nat) returns (events: seq<Event>)
    requires s.fetching.Some? && s.fetching.value < |s.requests| && s.requests[s.fetching.value].answer.Pending?
    ensures Feasible(s, events, workers) && EmitsMore(s, Run(s, events, workers))
  {
    var f := s.fetching.value;
    var answered := Answered(f, Fitting(s, s.requests[f].height));
    events := [answered, ConsumerResumes];
    var s1 := Next(s, answered, workers);
    assert s1.requests[f].answer == Fitting(s, s.requests[f].height);
    FittingEmits(s1, workers);
    RunTwo(s, answered, ConsumerResumes, workers);
  }

  lemma FittingEmits(s: State, workers: nat)
    requires Enabled(s, ConsumerResumes) && s.requests[s.fetching.value].answer.Success?
    requires s.lastSavedBlockHash.Some? ==>
               s.lastSavedBlockHash.value == s.requests[s.fetching.value].answer.block.parentHash
    ensures EmitsMore(s, Next(s, ConsumerResumes, workers))
  {
    var s', block := Next(s, ConsumerResumes, workers), s.requests[s.fetching.value].answer.block;
    assert s'.log == s.log + [Emitted(block)];
    assert s'.log[|s.log|].Emitted?;
  }

  /** Over failed entries, and over a re-org found in a stale one, new subscriptions reach a block to emit. */
  lemma {:induction false} Revives(s: State, workers: nat) returns (events: seq<Event>)
    requires AtRest(s) && Bounded(s, workers) && |s.queue| < workers * 100
    ensures Feasible(s, events, workers) && EmitsMore(s, Run(s, events, workers))
    decreases AnsweredIn(s.queue, s.requests)
  {
    var s1 := Restarts(s, workers);
    var f, rest := s1.fetching.value, [];
    AnsweredInMore(s.queue, s.requests, Request(0, 0, Pending));
    assert (s.queue + [|s.requests|])[1..] == s1.queue;
    if s1.requests[f].answer.Pending? {
      rest := PendingFrontEmits(s1, workers);
    } else {
      rest := SettledFrontRevives(s1, AnsweredIn(s.queue, s.requests), workers);
    }
    RunsOn(s, Restart(s), rest, workers);
    events := Restart(s) + rest;
  }

  lemma {:induction false} SettledFrontRevives(s: State, answered: nat, workers: nat) returns (events: seq<Event>)
    requires Bounded(s, workers) && |s.queue| < workers * 100 && !s.reOrgFound
    requires s.fetching.Some? && s.fetching.value < |s.requests| && !s.requests[s.fetching.value].answer.Pending?
    requires 1 + AnsweredIn(s.queue, s.requests) == answered
    ensures Feasible(s, events, workers) && EmitsMore(s, Run(s, events, workers))
    decreases answered, 0
  {
    var s1 := Next(s, ConsumerResumes, workers);
    var answer := s.requests[s.fetching.value].answer;
    if answer.Failure? {
      var more := Revives(s1, workers);
      assert ([ConsumerResumes] + more)[1..] == more;
      events := [ConsumerResumes] + more;
    } else if s1.reOrgFound {
      var more := Revives(Next(s1, ReOrgReported, workers), workers);
      RunTwo(s, ConsumerResumes, ReOrgReported, workers);
      RunsOn(s, [ConsumerResumes, ReOrgReported], more, workers);
      events := [ConsumerResumes, ReOrgReported] + more;
    } else {
      FittingEmits(s, workers);
      events := [ConsumerResumes];
    }
  }

  /** A poller at rest can be brought back by new subscriptions exactly while there is room in its queue. */
  lemma SilencedExactlyWhenFull(before: seq<Event>, workers: nat)
    requires Feasible(START, before, workers) && !Run(START, before, workers).processingQueue
    ensures var s := Run(START, before, workers);
            Silenced(s, workers) <==> |s.queue| == workers * 100
  {
    RunRemembers(START, before, workers);
    RunBounded(START, before, workers);
    RestIsSilencedWhenFull(Run(START, before, workers), workers);
  }

  lemma RestIsSilencedWhenFull(s: State, workers: nat)
    requires AtRest(s) && Bounded(s, workers)
    ensures Silenced(s, workers) <==> |s.queue| == workers * 100
  {
    if |s.queue| == workers * 100 {
      forall events | Feasible(s, events, workers)
        ensures !EmitsMore(s, Run(s, events, workers))
      {
        StalledForGood(s, events, workers);
      }
    } else {
      var events := Revives(s, workers);
    }
  }

  // ---- A failed fetch does not stop the polling loop ----

  /** After an error the fetches of the polling loop pile up: they fill the queue exactly when the head is as many
      blocks away as there is room for. */
  lemma {:induction false} FailedPollerFills(s: State, id: nat, blockNum: nat, latest: int, workers: nat)
    requires AtRest(s) && s.fatalError && s.pollingId == Some(id)
    requires |s.queue| <= workers * 100 && blockNum <= latest + 1
    ensures var s' := InnerLoop(s, id, blockNum, latest, workers);
            AtRest(s') && (|s'.queue| >= workers * 100 <==> blockNum + (workers * 100 - |s.queue|) <= latest + 1)
    decreases latest - blockNum
  {
    if blockNum <= latest && |s.queue| < workers * 100 {
      FailedPollerFills(Fetched(s, blockNum, workers), id, blockNum + 1, latest, workers);
    }
  }

  /** A failed fetch does not stop the polling loop. The next head it is told of puts an end to all emission, whatever
      subscriptions follow on the same object, exactly when it is at least as far ahead as there is room in the
      queue. */
  lemma FailureThenFullQueueStalls(before: seq<Event>, id: nat, latest: int, workers: nat)
    requires Feasible(START, before, workers)
    requires var s := Run(START, before, workers);
             s.fatalError && !s.processingQueue && s.pollingId == Some(id) && Enabled(s, LatestKnown(id, latest))
    ensures var s := Run(START, before, workers);
            Silenced(Next(s, LatestKnown(id, latest), workers), workers)
            <==> workers * 100 - |s.queue| <= Max(latest - s.polls[id].lastBlockNumber, 0)
  {
    var s := Run(START, before, workers);
    RunRemembers(START, before, workers);
    RunBounded(START, before, workers);
    StepBounded(s, LatestKnown(id, latest), workers);
    if latest > s.polls[id].lastBlockNumber {
      FailedPollerFills(s, id, s.polls[id].lastBlockNumber + 1, latest, workers);
    }
    RestIsSilencedWhenFull(Next(s, LatestKnown(id, latest), workers), workers);
  }

  /** One failed fetch, then a hundred blocks a worker. */
  function FailureAndLag(workers: nat): seq<Event> {
    [Subscribe(0), LatestKnown(0, 0), Answered(0, Failure), ConsumerResumes, LatestKnown(0, workers * 100)]
  }

  /** Such a run silences a new poller. */
  lemma SilencedFromStart(workers: nat)
    requires workers > 0
    ensures Feasible(START, FailureAndLag(workers), workers)
    ensures Silenced(Run(START, FailureAndLag(workers), workers), workers)
  {
    var s2 := Restarts(START, workers);
    assert s2.polls == map[0 := Poll(0, ForLatest)] && s2.pollingId == Some(0);
    RunTwo(s2, Answered(0, Failure), ConsumerResumes, workers);
    var failed := [Answered(0, Failure), ConsumerResumes];
    RunsOn(START, Restart(START), failed, workers);
    var before := Restart(START) + failed;
    FailureThenFullQueueStalls(before, 0, workers * 100, workers);
    var last := [LatestKnown(0, workers * 100)];
    assert last[1..] == [];
    RunsOn(START, before, last, workers);
    assert before + last == FailureAndLag(workers);
  }
}
