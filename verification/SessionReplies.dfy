/** The requests that a backfill session makes to one worker, and the replies they get. */
module SessionReplies {
  import opened Chain
  import opened Fetches
  import Subscriptions = BlockSubscriptions
  import Runs = SubscriptionRuns
  import opened WorkerChannels

  /** The requests from id `base` on that went to the worker, each with the time it was made at. */
  function CallsTo(requests: seq<Request>, base: nat, worker: nat, clock: nat -> int): seq<Call>
    decreases |requests|
  {
    if |requests| <= base then []
    else
      var last := |requests| - 1;
      CallsTo(requests[..last], base, worker, clock)
      + if requests[last].worker == worker then [Call(requests[last].height, clock(last))] else []
  }

  ghost predicate RisingHeights(requests: seq<Request>, base: nat) {
    forall q, r :: base <= q < r < |requests| ==> requests[q].height < requests[r].height
  }

  ghost predicate Running(clock: nat -> int) {
    forall q: nat, r: nat :: q < r ==> clock(q) <= clock(r)
  }

  ghost predicate Made(call: Call, requests: seq<Request>, base: nat, clock: nat -> int) {
    exists r :: base <= r < |requests| && call == Call(requests[r].height, clock(r))
  }

  lemma MadeEarlier(call: Call, requests: seq<Request>, base: nat, clock: nat -> int)
    requires |requests| > 0 && Made(call, requests[..|requests| - 1], base, clock)
    ensures Made(call, requests, base, clock)
  {
    var earlier := requests[..|requests| - 1];
    var r :| base <= r < |earlier| && call == Call(earlier[r].height, clock(r));
    assert requests[r] == earlier[r];
  }

  lemma {:induction false} CallsWereMade(requests: seq<Request>, base: nat, worker: nat, clock: nat -> int, i: nat)
    requires i < |CallsTo(requests, base, worker, clock)|
    ensures Made(CallsTo(requests, base, worker, clock)[i], requests, base, clock)
    decreases |requests|
  {
    var last := |requests| - 1;
    if i < |CallsTo(requests[..last], base, worker, clock)| {
      CallsWereMade(requests[..last], base, worker, clock, i);
      MadeEarlier(CallsTo(requests[..last], base, worker, clock)[i], requests, base, clock);
    } else {
      assert base <= last < |requests|;
    }
  }

  lemma {:induction false} CallsAreOrderly(requests: seq<Request>, base: nat, worker: nat, clock: nat -> int)
    requires RisingHeights(requests, base) && Running(clock)
    ensures Orderly(CallsTo(requests, base, worker, clock))
    decreases |requests|
  {
    if |requests| > base {
      var last := |requests| - 1;
      var earlier := CallsTo(requests[..last], base, worker, clock);
      CallsAreOrderly(requests[..last], base, worker, clock);
      forall i | 0 <= i < |earlier|
        ensures earlier[i].blockNumber < requests[last].height && earlier[i].now <= clock(last)
      {
        CallsWereMade(requests[..last], base, worker, clock, i);
      }
    }
  }

  /** In a backfill session, at every point of it: the callback ids of each worker rise, and each reply resolves its own
      request and no other, and that once, whatever replies have come in so far, in whatever order. `events` is what
      happened between the session and the worker, and `clock` gives the time of every request. */
  lemma SessionRepliesResolveTheirRequests(s: Subscriptions.State, start: int, run: seq<Subscriptions.Event>,
                                           workers: nat, worker: nat, clock: nat -> int, events: seq<Event>, r: nat)
    requires Runs.Dormant(s, workers)
    requires var s0 := Subscriptions.Subscribed(s, start);
             && Runs.Feasible(s0, run, workers) && Runs.Uninterrupted(s0, run, workers)
             && var end := Runs.Run(s0, run, workers);
                && !end.errored && end.activeBackFillingId.Some?
                && Calls(events) == CallsTo(end.requests, end.base, worker, clock)
    requires Running(clock) && r < |Calls(events)|
    ensures var c := WorkerChannels.Run(QUIET, events);
            && Ascending(c.callBackIds)
            && Next(c, Reply(CallBackId(Calls(events)[r]))).resolved
               == c.resolved + if r in c.resolved then [] else [r]
  {
    Runs.InFlight(s, start, run, workers);
    var end := Runs.Run(Subscriptions.Subscribed(s, start), run, workers);
    CallsAreOrderly(end.requests, end.base, worker, clock);
    ReplyResolvesItsRequest(events, r);
  }
}
