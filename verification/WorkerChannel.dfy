/** How getBlockFromWorker of internal/block_subscription matches the replies of one worker with the requests made
    to it: every request listens for its own callback id, the time of the request plus the block number. */
module WorkerChannels {
  import opened Chain

  /** A request is known by its place among all requests made to the worker. */
  datatype Listener = Listener(callBackId: int, request: nat)

  datatype Channel = Channel(listeners: seq<Listener>, callBackIds: seq<int>, resolved: seq<nat>)

  datatype Event =
    | Ask(blockNumber: int, now: int)
    | Reply(callBackId: int)
    | WorkerError

  /** The requests that listen for the id, in the order of their registration. */
  function Matching(listeners: seq<Listener>, callBackId: int): seq<nat> {
    if listeners == [] then []
    else
      (if listeners[0].callBackId == callBackId then [listeners[0].request] else [])
      + Matching(listeners[1..], callBackId)
  }

  function Others(listeners: seq<Listener>, callBackId: int): seq<Listener> {
    if listeners == [] then []
    else (if listeners[0].callBackId != callBackId then [listeners[0]] else []) + Others(listeners[1..], callBackId)
  }

  function RequestsOf(listeners: seq<Listener>): seq<nat> {
    if listeners == [] then [] else [listeners[0].request] + RequestsOf(listeners[1..])
  }

  function Next(c: Channel, e: Event): Channel {
    match e
    case Ask(blockNumber, now) =>
      var callBackId := now + blockNumber;
      Channel(c.listeners + [Listener(callBackId, |c.callBackIds|)], c.callBackIds + [callBackId], c.resolved)
    case Reply(callBackId) =>
      Channel(Others(c.listeners, callBackId), c.callBackIds, c.resolved + Matching(c.listeners, callBackId))
    case WorkerError =>
      Channel([], c.callBackIds, c.resolved + RequestsOf(c.listeners))
  }

  function Run(c: Channel, events: seq<Event>): Channel
    decreases |events|
  {
    if events == [] then c else Run(Next(c, events[0]), events[1..])
  }

  const QUIET := Channel([], [], [])

  /** A request as it was made: the block and the time. */
  datatype Call = Call(blockNumber: int, now: int)

  function CallBackId(call: Call): int {
    call.now + call.blockNumber
  }

  /** The requests made in a run, in order. */
  function Calls(events: seq<Event>): seq<Call>
    decreases |events|
  {
    if events == [] then []
    else
      match events[0]
      case Ask(blockNumber, now) => [Call(blockNumber, now)] + Calls(events[1..])
      case _ => Calls(events[1..])
  }

  /** The worker is asked for rising heights by a clock that does not run backwards. */
  ghost predicate Orderly(calls: seq<Call>) {
    forall i, j :: 0 <= i < j < |calls| ==>
      calls[i].blockNumber < calls[j].blockNumber && calls[i].now <= calls[j].now
  }

  /** The same for heights that may repeat, as they do in the live phase. */
  ghost predicate Unhurried(calls: seq<Call>) {
    forall i, j :: 0 <= i < j < |calls| ==>
      calls[i].blockNumber <= calls[j].blockNumber && calls[i].now <= calls[j].now
  }

  ghost predicate Ascending(ids: seq<int>) {
    forall i, j :: 0 <= i < j < |ids| ==> ids[i] < ids[j]
  }

  /** The requests 0, ..., n - 1, each once. */
  ghost function AllOnce(n: nat): multiset<nat> {
    if n == 0 then multiset{} else AllOnce(n - 1) + multiset{n - 1}
  }

  lemma {:induction false} AllOnceCounts(n: nat, r: nat)
    ensures AllOnce(n)[r] == if r < n then 1 else 0
  {
    if n > 0 {
      AllOnceCounts(n - 1, r);
    }
  }

  ghost predicate OwnIds(listeners: seq<Listener>, callBackIds: seq<int>) {
    forall l :: l in listeners ==> l.request < |callBackIds| && l.callBackId == callBackIds[l.request]
  }

  lemma OwnIdsAppend(listeners: seq<Listener>, callBackIds: seq<int>, id: int)
    requires OwnIds(listeners, callBackIds)
    ensures OwnIds(listeners + [Listener(id, |callBackIds|)], callBackIds + [id])
  {
  }

  /** Every request either listens, under its own id, or has been resolved, and that once. */
  ghost predicate Accounted(c: Channel) {
    && OwnIds(c.listeners, c.callBackIds)
    && multiset(RequestsOf(c.listeners)) + multiset(c.resolved) == AllOnce(|c.callBackIds|)
  }

  lemma MatchingCons(listeners: seq<Listener>, callBackId: int)
    requires listeners != []
    ensures multiset(Matching(listeners, callBackId)) ==
            (if listeners[0].callBackId == callBackId then multiset{listeners[0].request} else multiset{})
            + multiset(Matching(listeners[1..], callBackId))
  {
  }

  lemma OthersCons(listeners: seq<Listener>, callBackId: int)
    requires listeners != []
    ensures multiset(RequestsOf(Others(listeners, callBackId))) ==
            (if listeners[0].callBackId != callBackId then multiset{listeners[0].request} else multiset{})
            + multiset(RequestsOf(Others(listeners[1..], callBackId)))
  {
    var rest := Others(listeners[1..], callBackId);
    if listeners[0].callBackId != callBackId {
      RequestsOfCons(listeners[0], rest);
    } else {
      assert [] + rest == rest;
    }
  }

  lemma {:induction false} ReplyKeepsRequests(listeners: seq<Listener>, callBackId: int)
    ensures multiset(RequestsOf(Others(listeners, callBackId))) + multiset(Matching(listeners, callBackId))
            == multiset(RequestsOf(listeners))
    decreases |listeners|
  {
    if listeners != [] {
      ReplyKeepsRequests(listeners[1..], callBackId);
      MatchingCons(listeners, callBackId);
      OthersCons(listeners, callBackId);
      RequestsOfCons(listeners[0], listeners[1..]);
      assert [listeners[0]] + listeners[1..] == listeners;
    }
  }

  lemma {:induction false} OthersAreListeners(listeners: seq<Listener>, callBackId: int)
    ensures forall l :: l in Others(listeners, callBackId) ==> l in listeners
  {
    if listeners != [] {
      OthersAreListeners(listeners[1..], callBackId);
    }
  }

  lemma RequestsOfCons(l: Listener, rest: seq<Listener>)
    ensures multiset(RequestsOf([l] + rest)) == multiset([l.request]) + multiset(RequestsOf(rest))
  {
    assert ([l] + rest)[1..] == rest;
  }

  lemma {:induction false} RequestsOfAppend(listeners: seq<Listener>, l: Listener)
    ensures RequestsOf(listeners + [l]) == RequestsOf(listeners) + [l.request]
    decreases |listeners|
  {
    if listeners == [] {
      assert [] + [l] == [l] && [l][1..] == [];
    } else {
      RequestsOfAppend(listeners[1..], l);
      assert (listeners + [l])[1..] == listeners[1..] + [l];
    }
  }

  lemma StepAccounted(c: Channel, e: Event)
    requires Accounted(c)
    ensures Accounted(Next(c, e))
  {
    match e
    case Ask(h, t) => AskStep(c, h, t);
    case Reply(id) => ReplyAccounted(c, id);
    case WorkerError => ErrorAccounted(c);
  }

  lemma AskStep(c: Channel, h: int, t: int)
    requires Accounted(c)
    ensures Accounted(Next(c, Ask(h, t)))
  {
    var l := Listener(t + h, |c.callBackIds|);
    OwnIdsAppend(c.listeners, c.callBackIds, t + h);
    AskAccounted(c.listeners, c.callBackIds, c.resolved, l);
    assert Next(c, Ask(h, t)) == Channel(c.listeners + [l], c.callBackIds + [t + h], c.resolved);
  }

  lemma ErrorAccounted(c: Channel)
    requires Accounted(c)
    ensures Accounted(Next(c, WorkerError))
  {
    assert multiset(c.resolved + RequestsOf(c.listeners)) == multiset(c.resolved) + multiset(RequestsOf(c.listeners));
  }

  lemma AskAccounted(listeners: seq<Listener>, callBackIds: seq<int>, resolved: seq<nat>, l: Listener)
    requires l.request == |callBackIds|
    requires multiset(RequestsOf(listeners)) + multiset(resolved) == AllOnce(|callBackIds|)
    ensures multiset(RequestsOf(listeners + [l])) + multiset(resolved) == AllOnce(|callBackIds| + 1)
  {
    RequestsOfAppend(listeners, l);
    OneMoreOutstanding(RequestsOf(listeners), resolved, l.request);
  }

  lemma OneMoreOutstanding(outstanding: seq<nat>, resolved: seq<nat>, r: nat)
    requires multiset(outstanding) + multiset(resolved) == AllOnce(r)
    ensures multiset(outstanding + [r]) + multiset(resolved) == AllOnce(r + 1)
  {
    assert AllOnce(r + 1) == AllOnce(r) + multiset{r};
  }

  lemma ReplyAccounted(c: Channel, id: int)
    requires Accounted(c)
    ensures Accounted(Next(c, Reply(id)))
  {
    ReplyKeepsRequests(c.listeners, id);
    OthersAreListeners(c.listeners, id);
    var c' := Next(c, Reply(id));
    assert multiset(c'.resolved) == multiset(c.resolved) + multiset(Matching(c.listeners, id));
  }

  /** Whatever is asked and replied, in any order: the listeners are those of the unresolved requests, and no request
      is resolved twice. */
  lemma {:induction false} NothingLostOrRepeated(c: Channel, events: seq<Event>)
    requires Accounted(c)
    ensures Accounted(Run(c, events))
    ensures forall r :: multiset(Run(c, events).resolved)[r] <= 1
    decreases |events|
  {
    if events != [] {
      StepAccounted(c, events[0]);
      NothingLostOrRepeated(Next(c, events[0]), events[1..]);
    } else {
      forall r: nat
        ensures multiset(c.resolved)[r] <= 1
      {
        AllOnceCounts(|c.callBackIds|, r);
        assert multiset(c.resolved)[r] <= AllOnce(|c.callBackIds|)[r];
      }
    }
  }

  /** An error of the worker leaves nobody waiting: every request made so far is resolved, once. */
  lemma WorkerErrorResolvesAll(events: seq<Event>)
    ensures var c := Run(QUIET, events);
            && Next(c, WorkerError).listeners == []
            && forall r :: 0 <= r < |c.callBackIds| ==> multiset(Next(c, WorkerError).resolved)[r] == 1
  {
    var c := Run(QUIET, events);
    NothingLostOrRepeated(QUIET, events);
    ErrorAccounted(c);
    forall r: nat | r < |c.callBackIds|
      ensures multiset(Next(c, WorkerError).resolved)[r] == 1
    {
      AllOnceCounts(|c.callBackIds|, r);
    }
  }

  lemma {:induction false} IdsOfCalls(c: Channel, events: seq<Event>)
    ensures var ids, calls := Run(c, events).callBackIds, Calls(events);
            && |ids| == |c.callBackIds| + |calls|
            && (forall r :: 0 <= r < |c.callBackIds| ==> ids[r] == c.callBackIds[r])
            && (forall r :: 0 <= r < |calls| ==> ids[|c.callBackIds| + r] == CallBackId(calls[r]))
    decreases |events|
  {
    if events != [] {
      IdsOfCalls(Next(c, events[0]), events[1..]);
    }
  }

  lemma {:induction false} MatchingCounts(listeners: seq<Listener>, callBackIds: seq<int>, callBackId: int, r: nat)
    requires OwnIds(listeners, callBackIds) && r < |callBackIds|
    ensures multiset(Matching(listeners, callBackId))[r]
            == if callBackIds[r] == callBackId then multiset(RequestsOf(listeners))[r] else 0
    decreases |listeners|
  {
    if listeners != [] {
      var l, rest := listeners[0], listeners[1..];
      assert forall k :: k in rest ==> k in listeners;
      MatchingCounts(rest, callBackIds, callBackId, r);
      var found := if l.callBackId == callBackId then [l.request] else [];
      assert multiset(found + Matching(rest, callBackId)) == multiset(found) + multiset(Matching(rest, callBackId));
      RequestsOfCons(l, rest);
      assert listeners == [l] + rest && l in listeners;
    }
  }

  /** A reply resolves the outstanding requests with its id, and no others. */
  lemma ReplyCounts(c: Channel, callBackId: int, r: nat)
    requires Accounted(c) && r < |c.callBackIds|
    ensures multiset(Matching(c.listeners, callBackId))[r]
            == if c.callBackIds[r] == callBackId && r !in c.resolved then 1 else 0
  {
    MatchingCounts(c.listeners, c.callBackIds, callBackId, r);
    AllOnceCounts(|c.callBackIds|, r);
    assert multiset(RequestsOf(c.listeners))[r] + multiset(c.resolved)[r] == 1;
    assert r in c.resolved <==> multiset(c.resolved)[r] > 0;
  }

  lemma {:induction false} MatchingKnown(listeners: seq<Listener>, callBackIds: seq<int>, callBackId: int)
    requires OwnIds(listeners, callBackIds)
    ensures forall i :: 0 <= i < |Matching(listeners, callBackId)| ==>
              Matching(listeners, callBackId)[i] < |callBackIds|
    decreases |listeners|
  {
    if listeners != [] {
      assert listeners[0] in listeners && forall k :: k in listeners[1..] ==> k in listeners;
      MatchingKnown(listeners[1..], callBackIds, callBackId);
    }
  }

  lemma {:induction false} AllTheSame(found: seq<nat>, r: nat)
    requires forall i :: 0 <= i < |found| ==> found[i] == r
    ensures multiset(found)[r] == |found|
  {
    if found != [] {
      AllTheSame(found[1..], r);
      assert found == [found[0]] + found[1..];
    }
  }

  lemma SingleFound(found: seq<nat>, r: nat)
    ensures found == [r] <==> multiset(found)[r] == 1 && forall i :: 0 <= i < |found| ==> found[i] == r
  {
    if forall i :: 0 <= i < |found| ==> found[i] == r {
      AllTheSame(found, r);
    }
  }

  lemma SameTail(front: seq<nat>, a: seq<nat>, b: seq<nat>)
    ensures front + a == front + b <==> a == b
  {
    assert (front + a)[|front|..] == a && (front + b)[|front|..] == b;
  }

  /** Each request found is outstanding and has the id, and each such request is found. */
  lemma FoundRequests(c: Channel, callBackId: int, found: seq<nat>)
    requires Accounted(c) && found == Matching(c.listeners, callBackId)
    ensures forall i :: 0 <= i < |found| ==>
              found[i] < |c.callBackIds| && c.callBackIds[found[i]] == callBackId && found[i] !in c.resolved
    ensures forall q :: 0 <= q < |c.callBackIds| && c.callBackIds[q] == callBackId && q !in c.resolved ==>
              exists i :: 0 <= i < |found| && found[i] == q
  {
    MatchingKnown(c.listeners, c.callBackIds, callBackId);
    forall i | 0 <= i < |found|
      ensures c.callBackIds[found[i]] == callBackId && found[i] !in c.resolved
    {
      ReplyCounts(c, callBackId, found[i]);
      assert found[i] in multiset(found);
    }
    forall q | 0 <= q < |c.callBackIds| && c.callBackIds[q] == callBackId && q !in c.resolved
      ensures exists i :: 0 <= i < |found| && found[i] == q
    {
      ReplyCounts(c, callBackId, q);
      assert q in multiset(found);
    }
  }

  lemma ReplyAlone(c: Channel, r: nat)
    requires Accounted(c) && r < |c.callBackIds| && r !in c.resolved
    ensures Next(c, Reply(c.callBackIds[r])).resolved == c.resolved + [r]
            <==> forall q :: 0 <= q < |c.callBackIds| && q != r && q !in c.resolved ==>
                   c.callBackIds[q] != c.callBackIds[r]
  {
    var id := c.callBackIds[r];
    var found := Matching(c.listeners, id);
    FoundRequests(c, id, found);
    ReplyCounts(c, id, r);
    SingleFound(found, r);
    SameTail(c.resolved, found, [r]);
  }

  /** In every run, with whatever heights, times, replies and worker errors: the reply to an outstanding request
      resolves that request alone exactly when no other outstanding one has the same sum of time and height. */
  lemma ReplyResolvesOnlyItsOwn(events: seq<Event>, r: nat)
    requires r < |Calls(events)| && r !in Run(QUIET, events).resolved
    ensures var c, calls := Run(QUIET, events), Calls(events);
            Next(c, Reply(CallBackId(calls[r]))).resolved == c.resolved + [r]
            <==> forall q :: 0 <= q < |calls| && q != r && q !in c.resolved ==>
                   CallBackId(calls[q]) != CallBackId(calls[r])
  {
    NothingLostOrRepeated(QUIET, events);
    IdsOfCalls(QUIET, events);
    ReplyAlone(Run(QUIET, events), r);
  }

  /** With rising heights the callback ids rise, so a reply resolves exactly the one request it answers, if that is
      still outstanding. */
  lemma ReplyResolvesItsRequest(events: seq<Event>, r: nat)
    requires Orderly(Calls(events)) && r < |Calls(events)|
    ensures var c := Run(QUIET, events);
            && Ascending(c.callBackIds)
            && Next(c, Reply(CallBackId(Calls(events)[r]))).resolved
               == c.resolved + if r in c.resolved then [] else [r]
  {
    var c, calls := Run(QUIET, events), Calls(events);
    IdsOfCalls(QUIET, events);
    NothingLostOrRepeated(QUIET, events);
    OrderlyIdsAscend(calls, c.callBackIds);
    if r in c.resolved {
      ResolvedOnce(c, r);
    } else {
      OrderlyIdsDiffer(calls, r);
      ReplyResolvesOnlyItsOwn(events, r);
    }
  }

  lemma ResolvedOnce(c: Channel, r: nat)
    requires Accounted(c) && Ascending(c.callBackIds) && r < |c.callBackIds| && r in c.resolved
    ensures Next(c, Reply(c.callBackIds[r])).resolved == c.resolved
  {
    var found := Matching(c.listeners, c.callBackIds[r]);
    FoundRequests(c, c.callBackIds[r], found);
    forall i | 0 <= i < |found|
      ensures found[i] == r
    {
      assert c.callBackIds[found[i]] == c.callBackIds[r];
    }
    AllTheSame(found, r);
    ReplyCounts(c, c.callBackIds[r], r);
  }

  lemma OrderlyIdsDiffer(calls: seq<Call>, r: nat)
    requires Orderly(calls) && r < |calls|
    ensures forall q :: 0 <= q < |calls| && q != r ==> CallBackId(calls[q]) != CallBackId(calls[r])
  {
  }

  lemma OrderlyIdsAscend(calls: seq<Call>, ids: seq<int>)
    requires Orderly(calls) && |ids| == |calls| && forall r :: 0 <= r < |calls| ==> ids[r] == CallBackId(calls[r])
    ensures Ascending(ids)
  {
    forall i, j | 0 <= i < j < |ids|
      ensures ids[i] < ids[j]
    {
      assert calls[i].blockNumber < calls[j].blockNumber && calls[i].now <= calls[j].now;
    }
  }

  /** Where heights only do not fall, as in the live phase, what spoils a reply is another outstanding request for
      the same height made in the same millisecond. */
  lemma SharedCallBackId(events: seq<Event>, r: nat)
    requires Unhurried(Calls(events)) && r < |Calls(events)| && r !in Run(QUIET, events).resolved
    ensures var c, calls := Run(QUIET, events), Calls(events);
            Next(c, Reply(CallBackId(calls[r]))).resolved == c.resolved + [r]
            <==> forall q :: 0 <= q < |calls| && q != r && q !in c.resolved ==> calls[q] != calls[r]
  {
    ReplyResolvesOnlyItsOwn(events, r);
  }

  /** Where heights may fall, as they do when a subscription starts lower down while prefetched blocks are still
      outstanding, two heights can share an id: the reply to the one resolves the request for the other. */
  lemma SharedCallBackIdResolvesBoth(h1: int, t1: int, h2: int, t2: int)
    requires t1 + h1 == t2 + h2
    ensures var asked := Next(Next(QUIET, Ask(h1, t1)), Ask(h2, t2));
            Next(asked, Reply(t1 + h1)).resolved == [0, 1] && Next(asked, Reply(t1 + h1)).listeners == []
  {
    var asked := Next(Next(QUIET, Ask(h1, t1)), Ask(h2, t2));
    var id := t1 + h1;
    assert asked.listeners == [Listener(id, 0), Listener(id, 1)];
    assert asked.listeners[1..] == [Listener(id, 1)];
    assert asked.listeners[1..][1..] == [];
    assert Matching(asked.listeners[1..], id) == [1];
    assert Others(asked.listeners[1..], id) == [];
  }

  /** Height 1000 asked for at time 50, and height 900 at time 150. */
  lemma LowerHeightSharesId()
    ensures var events := [Ask(1000, 50), Ask(900, 150)];
            Run(QUIET, events + [Reply(1050)]).resolved == [0, 1]
  {
    var events := [Ask(1000, 50), Ask(900, 150), Reply(1050)];
    SharedCallBackIdResolvesBoth(1000, 50, 900, 150);
    var c1 := Next(QUIET, events[0]);
    var c2 := Next(c1, events[1]);
    assert events[1..][1..] == [Reply(1050)] && events[1..][1..][1..] == [];
    assert Run(c2, [Reply(1050)]) == Next(c2, Reply(1050));
    assert [Ask(1000, 50), Ask(900, 150)] + [Reply(1050)] == events;
  }

  lemma FirstListener(listeners: seq<Listener>, i: nat, callBackId: int)
    requires i < |listeners|
    ensures Matching(listeners[i..], callBackId)
            == (if listeners[i].callBackId == callBackId then [listeners[i].request] else [])
               + Matching(listeners[i + 1..], callBackId)
    ensures Others(listeners[i..], callBackId)
            == (if listeners[i].callBackId != callBackId then [listeners[i]] else [])
               + Others(listeners[i + 1..], callBackId)
  {
    assert listeners[i..][1..] == listeners[i + 1..];
  }

  class WorkerChannel {
    var listeners: seq<Listener>
    var callBackIds: seq<int>
    var resolved: seq<nat>

    ghost function View(): Channel
      reads this
    {
      Channel(listeners, callBackIds, resolved)
    }

    constructor ()
      ensures View() == QUIET
    {
      listeners, callBackIds, resolved := [], [], [];
    }

    /** getBlockFromWorker: registers the listener and posts the message. */
    method GetBlock(blockNumber: int, now: int) returns (callBackId: int)
      modifies this
      ensures View() == Next(old(View()), Ask(blockNumber, now)) && callBackId == now + blockNumber
    {
      callBackId := now + blockNumber;
      listeners := listeners + [Listener(callBackId, |callBackIds|)];
      callBackIds := callBackIds + [callBackId];
    }

    /** A message of the worker reaches every listener; those with its id resolve and leave. */
    method OnMessage(callBackId: int)
      modifies this
      ensures View() == Next(old(View()), Reply(callBackId))
    {
      var answered, staying := Dispatch(listeners, callBackId);
      resolved := resolved + answered;
      listeners := staying;
    }

    static method Dispatch(called: seq<Listener>, callBackId: int) returns (answered: seq<nat>, staying: seq<Listener>)
      ensures answered == Matching(called, callBackId) && staying == Others(called, callBackId)
    {
      answered, staying := [], [];
      for i := 0 to |called|
        invariant staying + Others(called[i..], callBackId) == Others(called, callBackId)
        invariant answered + Matching(called[i..], callBackId) == Matching(called, callBackId)
      {
        FirstListener(called, i, callBackId);
        if called[i].callBackId == callBackId {
          answered := answered + [called[i].request];
        } else {
          staying := staying + [called[i]];
        }
      }
    }

    /** An error of the worker resolves every outstanding request. */
    method OnError()
      modifies this
      ensures View() == Next(old(View()), WorkerError)
    {
      var failed: seq<nat> := [];
      for i := 0 to |listeners|
        invariant failed + RequestsOf(listeners[i..]) == RequestsOf(listeners)
      {
        assert listeners[i..][1..] == listeners[i + 1..];
        failed := failed + [listeners[i].request];
      }
      resolved := resolved + failed;
      listeners := [];
    }
  }
}
