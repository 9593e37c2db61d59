/** What the consumer makes of a run, told from the events alone: which messages it accepts, how many of them it
    commits, when it seeks, and when the observer is told of which error. */
module KafkaRuns {
  import opened Chain
  import opened KafkaConsumers

  // ---- Reading a run of events ----

  /** The messages that arrive and are not behind the start offset, in order. */
  function Arrived(events: seq<Event>, startOffset: int): seq<Message>
    decreases |events|
  {
    if events == [] then []
    else
      var last := events[|events| - 1];
      Arrived(events[..|events| - 1], startOffset)
      + if last.Data? && startOffset <= last.message.offset then [last.message] else []
  }

  /** Whether a seek has gone through. */
  function SeekDone(events: seq<Event>): bool
    decreases |events|
  {
    events != [] && (events[|events| - 1] == SeekEnds(None) || SeekDone(events[..|events| - 1]))
  }

  /** One seek for each message behind the start offset, until one has gone through; less those that have ended. */
  function SeeksUnderWay(events: seq<Event>, startOffset: int): int
    decreases |events|
  {
    if events == [] then 0
    else
      var last, before := events[|events| - 1], events[..|events| - 1];
      SeeksUnderWay(before, startOffset)
      + (if last.Data? && last.message.offset < startOffset && !SeekDone(before) then 1
         else if last.SeekEnds? then -1 else 0)
  }

  /** What the calls of the observer for one message have come to, in the concurrent form. */
  function OutcomesOf(events: seq<Event>, index: nat): seq<Outcome>
    decreases |events|
  {
    if events == [] then []
    else
      var last := events[|events| - 1];
      OutcomesOf(events[..|events| - 1], index)
      + if last.CallEnds? && last.promise == index then [last.outcome] else []
  }

  /** What a wait that ends after these events comes to, for the message that is next to be committed. */
  function WaitedFor(events: seq<Event>, outcome: Outcome, config: Config): Outcome
    decreases |events|, 1
  {
    if !config.concurrent then outcome
    else
      match Retried(OutcomesOf(events, Commits(events, config)), 0, config.maxRetries)
      case Rejected(error) => Fails(error)
      case _ => Succeeds
  }

  /** How many messages are committed: one for each wait that ends well, if the commit goes through in time. */
  function Commits(events: seq<Event>, config: Config): nat
    decreases |events|, 0
  {
    if events == [] then 0
    else
      var last, before := events[|events| - 1], events[..|events| - 1];
      var goes := last.WaitEnds? && WaitedFor(before, last.outcome, config).Succeeds?;
      Commits(before, config) + if goes && last.faults <= config.maxRetries then 1 else 0
  }

  /** How many waits for the message at the front have failed. */
  function Failures(events: seq<Event>, config: Config): nat
    decreases |events|
  {
    if events == [] then 0
    else
      var last, before := events[|events| - 1], events[..|events| - 1];
      if !last.WaitEnds? then Failures(before, config)
      else if WaitedFor(before, last.outcome, config).Succeeds? then 0 else Failures(before, config) + 1
  }

  /** The error that the last of the events brings about: a message that cannot be deserialised, a seek or a commit that
      fails, or a message given up at the failure after the last retry, or at once when the failure is fatal. */
  function ErrorOf(events: seq<Event>, config: Config): Option<Error> {
    if events == [] then None
    else
      var before := events[..|events| - 1];
      match events[|events| - 1]
      case BadData(error) => Some(error)
      case SeekEnds(failure) => failure
      case WaitEnds(outcome, faults, fault) =>
        (match WaitedFor(before, outcome, config)
         case Succeeds => if faults <= config.maxRetries then None else Some(fault)
         case Fails(error) =>
           if Failures(before, config) == config.maxRetries || error == Base(true) then Some(error) else None)
      case _ => None
  }

  /** Whether the last wait ended well, but the commit that followed failed for good: the message leaves the queue. */
  predicate CommitLost(events: seq<Event>, config: Config) {
    && events != [] && events[|events| - 1].WaitEnds?
    && WaitedFor(events[..|events| - 1], events[|events| - 1].outcome, config).Succeeds?
    && events[|events| - 1].faults > config.maxRetries
  }

  // ---- The consumer does just that ----

  lemma {:induction false} RunInTwo(s: State, events: seq<Event>, config: Config)
    requires events != [] && Feasible(s, events, config)
    ensures var before, last := events[..|events| - 1], events[|events| - 1];
            && Feasible(s, before, config)
            && var m := Run(s, before, config);
               !m.errored && Enabled(m, last) && Run(s, events, config) == Next(m, last, config)
    decreases |events|
  {
    if |events| == 1 {
      assert events[..0] == [] && events[1..] == [];
      assert Run(Next(s, events[0], config), [], config) == Next(s, events[0], config);
    } else {
      RunInTwo(Next(s, events[0], config), events[1..], config);
      assert events[..|events| - 1][1..] == events[1..][..|events| - 2];
    }
  }

  ghost predicate ReadsArrivals(s: State, events: seq<Event>, config: Config) {
    && s.accepted == Arrived(events, config.startOffset)
    && s.seekCalled == SeekDone(events)
    && s.seeking == SeeksUnderWay(events, config.startOffset)
  }

  /** Nothing has arrived in between, and no promise has moved. */
  ghost predicate SameArrivals(s: State, s': State) {
    && s'.accepted == s.accepted && s'.seekCalled == s.seekCalled && s'.seeking == s.seeking
    && s'.promises == s.promises
  }

  lemma ErrorAcceptsNothing(s: State, error: Error)
    ensures SameArrivals(s, OnError(s, error))
  {
  }

  lemma AdvancingAcceptsNothing(s: State, config: Config)
    ensures var s' := Advanced(s, config);
            && SameArrivals(s, s') && s'.committed == s.committed && s'.handled == s.handled && s'.errorCount == 0
            && s'.errored == s.errored && s'.stopping == s.stopping
  {
  }

  lemma WaitAcceptsNothing(s: State, e: Event, config: Config)
    requires e.WaitEnds? && Enabled(s, e)
    ensures SameArrivals(s, Next(s, e, config))
  {
    match WaitOutcome(s, e.outcome)
    case Succeeds =>
      var element := s.queue[0];
      var noted := if element.promise.None? then s.(handled := s.handled + {element.index}) else s;
      var settled := SafeCommit(noted, element.message, e.faults, e.fault, config);
      ErrorAcceptsNothing(noted, e.fault);
      AdvancingAcceptsNothing(settled, config);
      assert Next(s, e, config) == Advanced(settled, config);
    case Fails(error) => ErrorAcceptsNothing(s.(errorCount := s.errorCount + 1), error);
  }

  lemma ArrivalsAfter(events: seq<Event>, e: Event, startOffset: int)
    ensures Arrived(events + [e], startOffset)
            == Arrived(events, startOffset)
               + if e.Data? && startOffset <= e.message.offset then [e.message] else []
    ensures SeekDone(events + [e]) == (SeekDone(events) || e == SeekEnds(None))
    ensures SeeksUnderWay(events + [e], startOffset)
            == SeeksUnderWay(events, startOffset)
               + if e.Data? && e.message.offset < startOffset && !SeekDone(events) then 1
                 else if e.SeekEnds? then -1 else 0
  {
    assert (events + [e])[..|events|] == events;
  }

  lemma DataAccepts(s: State, message: Message, config: Config)
    ensures var s' := Next(s, Data(message), config);
            && s'.accepted == s.accepted + (if config.startOffset <= message.offset then [message] else [])
            && s'.seekCalled == s.seekCalled
            && s'.seeking == s.seeking + if message.offset < config.startOffset && !s.seekCalled then 1 else 0
  {
  }

  lemma StepReadsArrivals(s: State, events: seq<Event>, e: Event, config: Config)
    requires ReadsArrivals(s, events, config) && Enabled(s, e)
    ensures ReadsArrivals(Next(s, e, config), events + [e], config)
  {
    ArrivalsAfter(events, e, config.startOffset);
    match e
    case Data(message) => DataAccepts(s, message, config);
    case WaitEnds(_, _, _) => WaitAcceptsNothing(s, e, config);
    case BadData(error) => ErrorAcceptsNothing(s, error);
    case _ =>
  }

  lemma {:induction false} ArrivalsAccepted(events: seq<Event>, config: Config)
    requires Feasible(START, events, config)
    ensures ReadsArrivals(Run(START, events, config), events, config)
    decreases |events|
  {
    if events != [] {
      var before := events[..|events| - 1];
      RunInTwo(START, events, config);
      ArrivalsAccepted(before, config);
      StepReadsArrivals(Run(START, before, config), before, events[|events| - 1], config);
      assert before + [events[|events| - 1]] == events;
    }
  }

  /** Each promise of the concurrent form is where the calls made for it have brought it, and a message is handled
      exactly when one of them has succeeded. */
  ghost predicate PromisesFollow(s: State, events: seq<Event>, config: Config) {
    config.concurrent ==>
      && (forall p :: 0 <= p < |s.promises| ==> s.promises[p] == Retried(OutcomesOf(events, p), 0, config.maxRetries))
      && (forall p :: |s.promises| <= p ==> OutcomesOf(events, p) == [])
  }

  lemma {:induction false} RetriedMore(outcomes: seq<Outcome>, errorCount: nat, outcome: Outcome, maxRetries: nat)
    requires Retried(outcomes, errorCount, maxRetries).Calling?
    ensures Retried(outcomes + [outcome], errorCount, maxRetries)
            == RetryPromise(Retried(outcomes, errorCount, maxRetries).errorCount, outcome, maxRetries)
    decreases |outcomes|
  {
    if outcomes == [] {
      assert [] + [outcome] == [outcome] && [outcome][1..] == [];
    } else {
      var next := RetryPromise(errorCount, outcomes[0], maxRetries);
      assert (outcomes + [outcome])[1..] == outcomes[1..] + [outcome];
      RetriedMore(outcomes[1..], next.errorCount, outcome, maxRetries);
    }
  }

  lemma OutcomesAfter(events: seq<Event>, e: Event, p: nat)
    ensures OutcomesOf(events + [e], p)
            == if e.CallEnds? && e.promise == p then OutcomesOf(events, p) + [e.outcome] else OutcomesOf(events, p)
  {
    assert (events + [e])[..|events|] == events;
  }

  lemma NoCallEnds(s: State, s': State, events: seq<Event>, e: Event, config: Config)
    requires PromisesFollow(s, events, config) && !e.CallEnds?
    requires s'.promises == s.promises || (config.concurrent && s'.promises == s.promises + [Calling(0)])
    ensures PromisesFollow(s', events + [e], config)
  {
    if config.concurrent {
      forall p: nat
        ensures OutcomesOf(events + [e], p) == OutcomesOf(events, p)
      {
        OutcomesAfter(events, e, p);
      }
    }
  }

  lemma CallEndFollowsAt(s: State, events: seq<Event>, e: Event, p: nat, config: Config)
    requires PromisesFollow(s, events, config) && e.CallEnds? && Enabled(s, e) && config.concurrent
    ensures var s' := Next(s, e, config);
            if p < |s'.promises| then
              s'.promises[p] == Retried(OutcomesOf(events + [e], p), 0, config.maxRetries)
            else OutcomesOf(events + [e], p) == []
  {
    OutcomesAfter(events, e, p);
    if p == e.promise {
      RetriedMore(OutcomesOf(events, p), 0, e.outcome, config.maxRetries);
    }
  }

  lemma CallEndFollows(s: State, events: seq<Event>, e: Event, config: Config)
    requires PromisesFollow(s, events, config) && e.CallEnds? && Enabled(s, e)
    ensures PromisesFollow(Next(s, e, config), events + [e], config)
  {
    if config.concurrent {
      forall p: nat
        ensures var s' := Next(s, e, config);
                if p < |s'.promises| then
                  s'.promises[p] == Retried(OutcomesOf(events + [e], p), 0, config.maxRetries)
                else OutcomesOf(events + [e], p) == []
      {
        CallEndFollowsAt(s, events, e, p, config);
      }
    }
  }

  lemma StepPromisesFollow(s: State, events: seq<Event>, e: Event, config: Config)
    requires PromisesFollow(s, events, config) && Enabled(s, e)
    ensures PromisesFollow(Next(s, e, config), events + [e], config)
  {
    match e
    case CallEnds(_, _) => CallEndFollows(s, events, e, config);
    case WaitEnds(_, _, _) =>
      WaitAcceptsNothing(s, e, config);
      NoCallEnds(s, Next(s, e, config), events, e, config);
    case _ => NoCallEnds(s, Next(s, e, config), events, e, config);
  }

  lemma {:induction false} PromisesFollowCalls(events: seq<Event>, config: Config)
    requires Feasible(START, events, config)
    ensures PromisesFollow(Run(START, events, config), events, config)
    decreases |events|
  {
    if events != [] {
      var before := events[..|events| - 1];
      RunInTwo(START, events, config);
      PromisesFollowCalls(before, config);
      StepPromisesFollow(Run(START, before, config), before, events[|events| - 1], config);
      assert before + [events[|events| - 1]] == events;
    }
  }

  // ---- Commits, retries and errors ----

  /** The number of commits and of failures, and the error reported, are those that the events tell. */
  ghost predicate ReadsOutcome(s: State, events: seq<Event>, config: Config) {
    && s.errored == ErrorOf(events, config).Some?
    && s.stopping == (s.errored && IsFatal(ErrorOf(events, config).value))
    && |s.committed| == Commits(events, config)
    && (!s.errored ==> s.errorCount == Failures(events, config) && (s.queue == [] ==> s.errorCount == 0))
    && |s.queue| == (if s.stopping then 0
                     else |s.accepted| - |s.committed| - if CommitLost(events, config) then 1 else 0)
  }

  lemma WaitIsWaitedFor(s: State, events: seq<Event>, outcome: Outcome, config: Config)
    requires Consistent(s, config) && s.queue != []
    requires s.queue[0].promise.Some? ==>
               s.queue[0].promise.value < |s.promises| && !s.promises[s.queue[0].promise.value].Calling?
    requires PromisesFollow(s, events, config) && |s.committed| == Commits(events, config)
    ensures WaitOutcome(s, outcome) == WaitedFor(events, outcome, config)
  {
    assert s.queue[0].index == |s.committed|;
  }

  lemma AfterOtherEvent(events: seq<Event>, e: Event, config: Config)
    requires !e.WaitEnds?
    ensures Commits(events + [e], config) == Commits(events, config)
    ensures Failures(events + [e], config) == Failures(events, config)
    ensures !CommitLost(events + [e], config)
    ensures ErrorOf(events + [e], config)
            == match e
               case BadData(error) => Some(error)
               case SeekEnds(failure) => failure
               case _ => None
  {
    assert (events + [e])[..|events|] == events;
  }

  lemma AfterWait(events: seq<Event>, outcome: Outcome, faults: nat, fault: Error, config: Config)
    ensures var e, waited, all := WaitEnds(outcome, faults, fault), WaitedFor(events, outcome, config),
                                  events + [WaitEnds(outcome, faults, fault)];
            match waited
            case Succeeds =>
              && Failures(all, config) == 0 && CommitLost(all, config) == (faults > config.maxRetries)
              && Commits(all, config) == Commits(events, config) + (if faults <= config.maxRetries then 1 else 0)
              && ErrorOf(all, config) == if faults <= config.maxRetries then None else Some(fault)
            case Fails(error) =>
              && Failures(all, config) == Failures(events, config) + 1 && !CommitLost(all, config)
              && Commits(all, config) == Commits(events, config)
              && ErrorOf(all, config)
                 == if Failures(events, config) == config.maxRetries || error == Base(true) then Some(error) else None
  {
    var all := events + [WaitEnds(outcome, faults, fault)];
    assert all[..|events|] == events;
  }

  lemma GoodWaitReadsOutcome(s: State, events: seq<Event>, e: Event, config: Config)
    requires e.WaitEnds? && Enabled(s, e) && !s.errored && Consistent(s, config)
    requires ReadsOutcome(s, events, config) && WaitOutcome(s, e.outcome).Succeeds?
    requires WaitedFor(events, e.outcome, config).Succeeds?
    ensures ReadsOutcome(Next(s, e, config), events + [e], config)
  {
    var element := s.queue[0];
    var noted := if element.promise.None? then s.(handled := s.handled + {element.index}) else s;
    var settled := SafeCommit(noted, element.message, e.faults, e.fault, config);
    AfterWait(events, e.outcome, e.faults, e.fault, config);
    AdvancingAcceptsNothing(settled, config);
    assert Next(s, e, config) == Advanced(settled, config);
  }

  lemma FailedWaitReadsOutcome(s: State, events: seq<Event>, e: Event, config: Config)
    requires e.WaitEnds? && Enabled(s, e) && !s.errored && Consistent(s, config)
    requires ReadsOutcome(s, events, config) && WaitOutcome(s, e.outcome).Fails?
    requires WaitedFor(events, e.outcome, config) == WaitOutcome(s, e.outcome)
    ensures ReadsOutcome(Next(s, e, config), events + [e], config)
  {
    AfterWait(events, e.outcome, e.faults, e.fault, config);
  }

  lemma WaitReadsOutcome(s: State, events: seq<Event>, e: Event, config: Config)
    requires e.WaitEnds? && Enabled(s, e) && !s.errored && Consistent(s, config)
    requires PromisesFollow(s, events, config) && ReadsOutcome(s, events, config)
    ensures ReadsOutcome(Next(s, e, config), events + [e], config)
  {
    WaitIsWaitedFor(s, events, e.outcome, config);
    if WaitOutcome(s, e.outcome).Succeeds? {
      GoodWaitReadsOutcome(s, events, e, config);
    } else {
      FailedWaitReadsOutcome(s, events, e, config);
    }
  }

  lemma DataReadsOutcome(s: State, events: seq<Event>, message: Message, config: Config)
    requires !s.errored && ReadsOutcome(s, events, config) && (s.queueIsProcessing <==> s.queue != [])
    ensures ReadsOutcome(Next(s, Data(message), config), events + [Data(message)], config)
  {
    AfterOtherEvent(events, Data(message), config);
  }

  lemma OtherStepReadsOutcome(s: State, events: seq<Event>, e: Event, config: Config)
    requires !e.WaitEnds? && Enabled(s, e) && !s.errored && Consistent(s, config)
    requires ReadsOutcome(s, events, config)
    ensures ReadsOutcome(Next(s, e, config), events + [e], config)
  {
    if e.Data? {
      DataReadsOutcome(s, events, e.message, config);
    } else {
      AfterOtherEvent(events, e, config);
    }
  }

  lemma StepReadsOutcome(before: seq<Event>, e: Event, config: Config)
    requires config.maxBufferLength > 0 && Feasible(START, before, config)
    requires var s := Run(START, before, config);
             !s.errored && Enabled(s, e) && ReadsOutcome(s, before, config)
    ensures ReadsOutcome(Next(Run(START, before, config), e, config), before + [e], config)
  {
    var s := Run(START, before, config);
    OrderKept(START, before, config);
    PromisesFollowCalls(before, config);
    if e.WaitEnds? {
      WaitReadsOutcome(s, before, e, config);
    } else {
      OtherStepReadsOutcome(s, before, e, config);
    }
  }

  /** In every run up to and including the first error, in both forms: the observer is told of an error exactly when
      the last event brings one about, and the consumer is stopped exactly when that one is fatal; committed are as
      many messages as waits have ended well. */
  lemma {:induction false} OutcomeOfRun(events: seq<Event>, config: Config)
    requires config.maxBufferLength > 0 && Feasible(START, events, config)
    ensures ReadsOutcome(Run(START, events, config), events, config)
    decreases |events|
  {
    if events != [] {
      var before, e := events[..|events| - 1], events[|events| - 1];
      RunInTwo(START, events, config);
      OutcomeOfRun(before, config);
      StepReadsOutcome(before, e, config);
      assert before + [e] == events;
    }
  }

  /** In every run up to the first error: accepted are the messages that have arrived at the start offset or above, in
      order; committed are as many of them as the waits have brought through; before the error the others are queued in
      order, the one at the front with whatever failures it has behind it, within the retries. */
  lemma ConsumerOfRun(events: seq<Event>, config: Config)
    requires config.maxBufferLength > 0 && Feasible(START, events, config)
    ensures var end, arrived, n := Run(START, events, config), Arrived(events, config.startOffset),
                                   Commits(events, config);
            && end.accepted == arrived && n <= |arrived| && end.committed == arrived[..n]
            && (end.errored <==> ErrorOf(events, config).Some?)
            && (!end.errored ==> Messages(end.queue) == arrived[n..] && Failures(events, config) <= config.maxRetries)
  {
    ArrivalsAccepted(events, config);
    OutcomeOfRun(events, config);
    CommittedPrefix(events, config);
    WithinRetries(events, config);
    NothingLostBeforeError(events, config);
    Rest(Run(START, events, config).accepted, Run(START, events, config).committed);
  }

  lemma WithinRetries(events: seq<Event>, config: Config)
    requires config.maxBufferLength > 0 && Feasible(START, events, config)
    ensures !Run(START, events, config).errored ==> Failures(events, config) <= config.maxRetries
  {
    OutcomeOfRun(events, config);
    OrderKept(START, events, config);
  }

  lemma Rest(accepted: seq<Message>, committed: seq<Message>)
    requires committed <= accepted
    ensures committed == accepted[..|committed|]
    ensures forall rest :: accepted == committed + rest ==> rest == accepted[|committed|..]
  {
  }

  /** How many calls of the observer the drain of the one-by-one form has seen succeed. */
  function Handlings(events: seq<Event>): nat
    decreases |events|
  {
    if events == [] then 0
    else
      var last := events[|events| - 1];
      Handlings(events[..|events| - 1]) + if last.WaitEnds? && last.outcome.Succeeds? then 1 else 0
  }

  /** Handled is what the observer has taken with success: messages that a call was made for in the concurrent form, and
      the first so many in the one-by-one form. */
  ghost predicate ReadsHandled(s: State, events: seq<Event>, config: Config) {
    if config.concurrent then forall k: nat :: k in s.handled <==> Succeeds in OutcomesOf(events, k)
    else
      && (forall k: nat :: k in s.handled <==> k < Handlings(events))
      && (!s.errored ==> Handlings(events) == |s.committed|)
  }

  lemma HandlingsAfter(events: seq<Event>, e: Event)
    ensures Handlings(events + [e]) == Handlings(events) + if e.WaitEnds? && e.outcome.Succeeds? then 1 else 0
  {
    assert (events + [e])[..|events|] == events;
  }

  /** A wait that ends well adds the front message of the one-by-one form, and nothing in the concurrent form. */
  lemma WaitHandles(s: State, e: Event, config: Config)
    requires e.WaitEnds? && Enabled(s, e) && !s.errored && Consistent(s, config)
    ensures var s' := Next(s, e, config);
            && s'.handled == s.handled + (if !config.concurrent && e.outcome.Succeeds? then {|s.committed|} else {})
            && (!s'.errored ==> |s'.committed| == |s.committed| + if WaitOutcome(s, e.outcome).Succeeds? then 1 else 0)
  {
    assert s.queue[0].index == |s.committed|;
    if WaitOutcome(s, e.outcome).Succeeds? {
      var element := s.queue[0];
      var noted := if element.promise.None? then s.(handled := s.handled + {element.index}) else s;
      var settled := SafeCommit(noted, element.message, e.faults, e.fault, config);
      AdvancingAcceptsNothing(settled, config);
      assert Next(s, e, config) == Advanced(settled, config);
    }
  }

  lemma CallHandles(s: State, events: seq<Event>, e: Event, handled: set<nat>, config: Config)
    requires config.concurrent && ReadsHandled(s, events, config)
    requires forall k: nat :: k in handled <==>
               k in s.handled || (e.CallEnds? && e.promise == k && e.outcome == Succeeds)
    ensures forall k: nat :: k in handled <==> Succeeds in OutcomesOf(events + [e], k)
  {
    forall k: nat
      ensures k in handled <==> Succeeds in OutcomesOf(events + [e], k)
    {
      OutcomesAfter(events, e, k);
    }
  }

  lemma ConcurrentStepReadsHandled(s: State, events: seq<Event>, e: Event, config: Config)
    requires Enabled(s, e) && !s.errored && Consistent(s, config) && ReadsHandled(s, events, config)
    requires config.concurrent
    ensures ReadsHandled(Next(s, e, config), events + [e], config)
  {
    if e.WaitEnds? {
      WaitHandles(s, e, config);
    }
    CallHandles(s, events, e, Next(s, e, config).handled, config);
  }

  lemma StepReadsHandled(s: State, events: seq<Event>, e: Event, config: Config)
    requires Enabled(s, e) && !s.errored && Consistent(s, config) && ReadsHandled(s, events, config)
    ensures ReadsHandled(Next(s, e, config), events + [e], config)
  {
    if config.concurrent {
      ConcurrentStepReadsHandled(s, events, e, config);
    } else {
      HandlingsAfter(events, e);
      if e.WaitEnds? {
        WaitHandles(s, e, config);
      }
    }
  }

  lemma {:induction false} HandledOfRun(events: seq<Event>, config: Config)
    requires config.maxBufferLength > 0 && Feasible(START, events, config)
    ensures ReadsHandled(Run(START, events, config), events, config)
    decreases |events|
  {
    if events != [] {
      var before, e := events[..|events| - 1], events[|events| - 1];
      RunInTwo(START, events, config);
      HandledOfRun(before, config);
      OrderKept(START, before, config);
      StepReadsHandled(Run(START, before, config), before, e, config);
      assert before + [e] == events;
    }
  }

  function Waits(events: seq<Event>): nat
    decreases |events|
  {
    if events == [] then 0 else (if events[0].WaitEnds? then 1 else 0) + Waits(events[1..])
  }

  /** The promise of the message at the front has been rejected; `failures` waits for it are over. */
  ghost predicate RejectedFront(s: State, error: Error, failures: nat, config: Config) {
    && config.concurrent && s.queue != [] && s.queue[0].promise.Some?
    && s.queue[0].promise.value < |s.promises| && s.promises[s.queue[0].promise.value] == Rejected(error)
    && s.errorCount == failures && s.queueIsProcessing
  }

  /** A rejected promise stays rejected, but the drain waits for it again: the observer is told after maxRetries + 1
      waits in all, and after the first one when the error is fatal. */
  lemma {:induction false} RejectedPromiseIsReported(s: State, events: seq<Event>, error: Error, config: Config)
    requires !s.errored && RejectedFront(s, error, s.errorCount, config) && Feasible(s, events, config)
    requires s.errorCount <= config.maxRetries
    requires forall i :: 0 <= i < |events| ==> !events[i].BadData? && !events[i].SeekEnds?
    ensures Run(s, events, config).errored <==>
            Waits(events) == if error == Base(true) then 1 else config.maxRetries + 1 - s.errorCount
    decreases |events|
  {
    if events != [] {
      var s', rest := Next(s, events[0], config), events[1..];
      assert forall i :: 0 <= i < |rest| ==> rest[i] == events[i + 1];
      if s'.errored {
        assert rest == [];
      } else {
        RejectedPromiseIsReported(s', rest, error, config);
      }
    }
  }
}
