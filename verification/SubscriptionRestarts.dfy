/** Restarts of a live subscription by its timer: which of them keep the stream free of gaps. */
module SubscriptionRestarts {
  import opened Chain
  import opened LogHandlers
  import opened Fetches
  import opened BlockSubscriptions
  import opened SubscriptionRuns
  import opened SubscriptionEndings

  /** The run goes from s to s' with no error before its last step, no other call, and no overlapping restart. */
  ghost predicate Follows(s: State, events: seq<Event>, s': State, workers: nat) {
    Feasible(s, events, workers) && Uninterrupted(s, events, workers) && Run(s, events, workers) == s'
  }

  lemma {:induction false} Then(s: State, events: seq<Event>, m: State, e: Event, workers: nat)
    requires Follows(s, events, m, workers) && Enabled(m, e)
    requires !m.errored && !e.Subscribe? && !e.Unsubscribe? && !Overlapping(m, e)
    ensures Follows(s, events + [e], Next(m, e, workers), workers)
    decreases |events|
  {
    if events == [] {
      assert [] + [e] == [e] && [e][1..] == [];
      assert Run(Next(m, e, workers), [], workers) == Next(m, e, workers);
    } else {
      Then(Next(s, events[0], workers), events[1..], m, e, workers);
      assert (events + [e])[1..] == events[1..] + [e];
    }
  }

  // ---- A live loop that waits for an answer that it will not emit ----

  /** The answer is there, and it is a failure or a block that the re-org check rejects. */
  predicate Doomed(s: State) {
    && s.liveFetch.Some? && Settled(s, s.liveFetch.value)
    && var answer := s.requests[s.liveFetch.value].answer; answer.Failure? || ReOrgMissed(s, answer.block)
  }

  /** The subscription without its suspended live loop. */
  function Detached(s: State): State {
    s.(liveFetch := None, processingQueue := false)
  }

  lemma JobAddedDetached(s: State, height: int, key: JobKey)
    ensures JobAdded(Detached(s), height, key) == Detached(JobAdded(s, height, key))
  {
  }

  lemma {:induction false} JobsAddedDetached(s: State, session: nat, worker: nat, workers: nat)
    ensures JobsAdded(Detached(s), session, worker, workers) == Detached(JobsAdded(s, session, worker, workers))
    decreases workers - worker
  {
    if worker < workers {
      JobAddedDetached(s, s.nextBlock + worker, JobKey(session, worker));
      JobsAddedDetached(JobAdded(s, s.nextBlock + worker, JobKey(session, worker)), session, worker + 1, workers);
    }
  }

  lemma BackFillLoopDetached(s: State, session: nat)
    ensures BackFillLoop(Detached(s), session) == Detached(BackFillLoop(s, session))
  {
    var d := Detached(s);
    if s.nextBlock <= s.lastFinalizedBlock && s.queue != [] {
      assert BackFillLoop(d, session) == d.(backFills := s.backFills[session := s.queue[0]], queue := s.queue[1..]);
    } else {
      assert BackFillLoop(d, session) == d.(activeBackFillingId := None, subscribing := AwaitFinalized(s.nextBlock));
    }
  }

  lemma BackFillStartedDetached(s: State, workers: nat)
    ensures BackFillStarted(Detached(s), workers) == Detached(BackFillStarted(s, workers))
  {
    assert SessionOpened(Detached(s)) == Detached(SessionOpened(s));
    JobsAddedDetached(SessionOpened(s), s.sessions, 0, workers);
    BackFillLoopDetached(JobsAdded(SessionOpened(s), s.sessions, 0, workers), s.sessions);
  }

  lemma LatestDetached(s: State, latest: int, workers: nat)
    requires s.subscribing.AwaitLatest?
    ensures LatestLearned(Detached(s), latest, workers) == Detached(LatestLearned(s, latest, workers))
  {
    BackFillStartedDetached(s, workers);
  }

  lemma JobDetached(s: State, key: JobKey)
    ensures JobResumed(Detached(s), key) == Detached(JobResumed(s, key))
  {
    JobResumedCases(s, key);
    JobResumedCases(Detached(s), key);
  }

  lemma BackFillDetached(s: State, session: nat)
    requires session in s.backFills && Settled(s, s.backFills[session])
    ensures BackFillResumed(Detached(s), session) == Detached(BackFillResumed(s, session))
  {
    var answer := s.requests[s.backFills[session]].answer;
    if answer.Success? && s.activeBackFillingId == Some(session) && !s.fatalError {
      ActiveSessionEmits(s, session);
      ActiveSessionEmits(Detached(s), session);
      BackFillLoopDetached(s.(backFills := s.backFills - {session}, nextBlock := s.nextBlock + 1,
                              emitted := s.emitted + [Emission(answer.block, false)]), session);
    }
  }

  /** The stream is in order, and what remains of the old live loop can only end in an error. */
  ghost predicate Sheltered(s: State, start: int, workers: nat) {
    && Doomed(s) && s.processingQueue && WellFormed(s, workers) && Streaming(s, start)
    && if s.listening then s.subscribing.Idle? && s.activeBackFillingId.None? else Moded(Detached(s), workers)
  }

  /** Steps that have nothing to do with the live loop. */
  predicate Apart(e: Event) {
    e.FinalizedKnown? || e.LatestKnown? || e.Answered? || e.JobWakes? || e.JobResumes? || e.BackFillResumes?
  }

  lemma StepDetached(s: State, e: Event, workers: nat)
    requires Apart(e) && Enabled(s, e)
    ensures Enabled(Detached(s), e) && Next(Detached(s), e, workers) == Detached(Next(s, e, workers))
  {
    match e
    case FinalizedKnown(finalized) =>
      assert FinalizedLearned(Detached(s), finalized) == Detached(FinalizedLearned(s, finalized));
    case LatestKnown(latest) => LatestDetached(s, latest, workers);
    case Answered(r, answer) => assert AnswerReceived(Detached(s), r, answer) == Detached(AnswerReceived(s, r, answer));
    case JobWakes(key) => assert JobWoken(Detached(s), key) == Detached(JobWoken(s, key));
    case JobResumes(key) => JobDetached(s, key);
    case BackFillResumes(session) => BackFillDetached(s, session);
  }

  /** The live loop waits for what it has waited for, and remembers the same block. */
  ghost predicate Untouched(s: State, s': State) {
    && s'.liveFetch == s.liveFetch && s'.processingQueue == s.processingQueue
    && s'.lastEmittedBlock == s.lastEmittedBlock && |s.requests| <= |s'.requests|
    && forall r :: 0 <= r < |s.requests| && !s.requests[r].answer.Pending? ==> s'.requests[r] == s.requests[r]
  }

  lemma BackFillLoopUntouched(s: State, session: nat)
    ensures Untouched(s, BackFillLoop(s, session))
  {
  }

  lemma BackFillStartedUntouched(s: State, workers: nat)
    ensures Untouched(s, BackFillStarted(s, workers))
  {
    var s0 := SessionOpened(s);
    var s1 := JobsAdded(s0, s.sessions, 0, workers);
    JobsAsk(s0, s.sessions, 0, workers);
    JobsAddedFrame(s0, s.sessions, 0, workers);
    assert Untouched(s0, s1);
    BackFillLoopUntouched(s1, s.sessions);
  }

  lemma BackFillUntouched(s: State, session: nat)
    requires session in s.backFills && Settled(s, s.backFills[session])
    ensures Untouched(s, BackFillResumed(s, session))
  {
    var answer := s.requests[s.backFills[session]].answer;
    if answer.Success? && s.activeBackFillingId == Some(session) && !s.fatalError {
      ActiveSessionEmits(s, session);
    }
  }

  lemma ApartStepUntouched(s: State, e: Event, workers: nat)
    requires Apart(e) && Enabled(s, e)
    ensures Untouched(s, Next(s, e, workers))
  {
    match e
    case LatestKnown(latest) => BackFillStartedUntouched(s, workers);
    case JobResumes(key) => JobResumedCases(s, key);
    case BackFillResumes(session) => BackFillUntouched(s, session);
    case _ =>
  }

  lemma DoomLasts(s: State, e: Event, workers: nat)
    requires Apart(e) && Enabled(s, e) && Doomed(s)
    ensures Untouched(s, Next(s, e, workers)) && Doomed(Next(s, e, workers))
  {
    ApartStepUntouched(s, e, workers);
  }

  lemma ApartStepSheltered(s: State, e: Event, start: int, workers: nat)
    requires Sheltered(s, start, workers) && !s.errored && !s.listening && Apart(e) && Enabled(s, e)
    ensures var s' := Next(s, e, workers);
            if s'.errored then Sound(s', start) else Sheltered(s', start, workers)
  {
    var d := Detached(s);
    SameStream(s, d, start);
    StepDetached(s, e, workers);
    StepSafely(d, e, start, workers);
    DoomLasts(s, e, workers);
    var s' := Next(s, e, workers);
    if !s'.errored {
      SameStream(Detached(s'), s', start);
      if s'.listening {
        ListeningIsLive(Detached(s'), workers);
      }
    }
  }

  lemma AnswerSheltered(s: State, r: nat, answer: Answer, start: int, workers: nat)
    requires Sheltered(s, start, workers) && s.listening && Enabled(s, Answered(r, answer))
    requires Doomed(AnswerReceived(s, r, answer))
    ensures Sheltered(AnswerReceived(s, r, answer), start, workers)
  {
    SameStream(s, AnswerReceived(s, r, answer), start);
  }

  lemma JobsSheltered(s: State, s': State, start: int, workers: nat)
    requires Sheltered(s, start, workers) && s.listening
    requires s' == s.(jobs := s'.jobs) && JobsKnown(s'.jobs, s.sessions, workers, |s.requests|)
    ensures Sheltered(s', start, workers)
  {
    SameStream(s, s', start);
  }

  lemma ListeningStepSheltered(s: State, e: Event, start: int, workers: nat)
    requires Sheltered(s, start, workers) && !s.errored && s.listening && Apart(e) && Enabled(s, e)
    ensures var s' := Next(s, e, workers);
            if s'.errored then Sound(s', start) else Sheltered(s', start, workers)
  {
    DoomLasts(s, e, workers);
    match e
    case Answered(r, answer) => AnswerSheltered(s, r, answer, start, workers);
    case JobWakes(key) => JobsSheltered(s, JobWoken(s, key), start, workers);
    case JobResumes(key) =>
      JobResumedCases(s, key);
      JobsSheltered(s, JobResumed(s, key), start, workers);
    case BackFillResumes(session) => LeftBackFillSheltered(s, session, start, workers);
  }

  lemma LeftBackFillSheltered(s: State, session: nat, start: int, workers: nat)
    requires Sheltered(s, start, workers) && !s.errored && s.listening && Enabled(s, BackFillResumes(session))
    requires Doomed(BackFillResumed(s, session))
    ensures var s' := BackFillResumed(s, session);
            if s'.errored then Sound(s', start) else Sheltered(s', start, workers)
  {
    if s.requests[s.backFills[session]].answer.Success? {
      SameStream(s, s.(backFills := s.backFills - {session}), start);
    }
  }

  lemma LogSheltered(s: State, log: Log, start: int, workers: nat)
    requires Sheltered(s, start, workers) && !s.errored && s.listening
    ensures Sheltered(LogHandled(s, log), start, workers) && !LogHandled(s, log).errored
  {
    if Accepted(s.cursor, log) {
      var s' := Fetched(s, Requested(s.cursor, log), 0).(cursor := Received(s.cursor, log));
      assert LogHandled(s, log) == s';
      FetchedWellFormed(s, s', Requested(s.cursor, log), 0, workers);
      SameStream(s, s', start);
    }
  }

  lemma TimerSheltered(s: State, start: int, workers: nat)
    requires Sheltered(s, start, workers) && !s.errored && s.listening
    ensures Sheltered(TimerFired(s), start, workers) && !TimerFired(s).errored
  {
    SameStream(s, TimerFired(s), start);
    assert s.cursor.lastBlockHash == s.watched ==> Starting(Detached(Restarted(s)));
  }

  lemma LiveStepSheltered(s: State, e: Event, start: int, workers: nat)
    requires Sheltered(s, start, workers) && !s.errored && Enabled(s, e)
    requires e.LogArrives? || e.LiveResumes? || e.TimerFires?
    ensures var s' := Next(s, e, workers);
            if s'.errored then Sound(s', start) else Sheltered(s', start, workers)
  {
    match e
    case LogArrives(log) => LogSheltered(s, log, start, workers);
    case TimerFires => TimerSheltered(s, start, workers);
    case LiveResumes => assert LiveResumed(s).errored && LiveResumed(s).emitted == s.emitted;
  }

  /** Whatever happens up to the first error, and however often the timer fires in between. */
  lemma {:induction false} ShelteredRun(s: State, events: seq<Event>, start: int, workers: nat)
    requires if s.errored then Sound(s, start) else Sheltered(s, start, workers)
    requires Feasible(s, events, workers) && Uninterrupted(s, events, workers)
    ensures Sound(Run(s, events, workers), start)
    decreases |events|
  {
    if events != [] {
      var e := events[0];
      if !Apart(e) {
        LiveStepSheltered(s, e, start, workers);
      } else if s.listening {
        ListeningStepSheltered(s, e, start, workers);
      } else {
        ApartStepSheltered(s, e, start, workers);
      }
      ShelteredRun(Next(s, e, workers), events[1..], start, workers);
    }
  }

  lemma RestartSheltered(s: State, start: int, workers: nat)
    requires Invariant(s, start, workers) && s.listening && Doomed(s)
    ensures Sheltered(Restarted(s), start, workers)
  {
    ListeningIsLive(s, workers);
    SameStream(s, Restarted(s), start);
    assert Starting(Detached(Restarted(s)));
  }

  // ---- A live loop that still has a block to emit ----

  lemma TwoOutOfOrder(start: int, emitted: seq<Emission>, first: Emission, second: Emission)
    requires second.block.number != first.block.number + 1
    requires second.block.number == first.block.number ==> !second.live
    ensures !GapFree(start, emitted + [first] + [second])
  {
    var all := emitted + [first] + [second];
    assert all[..|emitted| + 1] == emitted + [first];
    assert Expected(start, all[..|emitted| + 1]) == first.block.number + 1;
    assert all[|emitted| + 1] == second;
  }

  /** Both the live loop and the loop of the session have their answers: block b for the one, block c for the other. */
  ghost predicate BothAnswered(s: State, session: nat, b: Block, c: Block) {
    && Enabled(s, LiveResumes) && s.requests[s.liveFetch.value].answer == Success(b) && !ReOrgMissed(s, b)
    && Enabled(s, BackFillResumes(session)) && s.requests[s.backFills[session]].answer == Success(c)
    && s.activeBackFillingId == Some(session) && !s.fatalError && !s.errored
  }

  lemma LiveFirst(s: State, session: nat, b: Block, c: Block)
    requires BothAnswered(s, session, b, c)
    ensures var s' := LiveResumed(s);
            && Enabled(s', BackFillResumes(session)) && !s'.errored
            && BackFillResumed(s', session).emitted == s.emitted + [Emission(b, true)] + [Emission(c, false)]
  {
    LiveResumedEmits(s, b);
    ActiveSessionEmits(LiveResumed(s), session);
  }

  lemma BackFillFirst(s: State, session: nat, b: Block, c: Block)
    requires BothAnswered(s, session, b, c)
    ensures var s' := BackFillResumed(s, session);
            && Enabled(s', LiveResumes) && !s'.errored
            && LiveResumed(s').emitted == s.emitted + [Emission(c, false)] + [Emission(b, true)]
  {
    ActiveSessionEmits(s, session);
    BackFillUntouched(s, session);
    LiveResumedEmits(BackFillResumed(s, session), b);
  }

  /** The order that puts the stream out of order: the higher block first, or, of two equal ones, the live one. */
  lemma OutOfOrder(s: State, session: nat, b: Block, c: Block, start: int, workers: nat) returns (events: seq<Event>)
    requires BothAnswered(s, session, b, c) && (b.number == c.number || b.number == c.number - 1)
    ensures exists end :: Follows(s, events, end, workers) && !GapFree(start, end.emitted)
  {
    var empty: seq<Event> := [];
    assert Follows(s, empty, s, workers);
    if b.number == c.number {
      LiveFirst(s, session, b, c);
      TwoOutOfOrder(start, s.emitted, Emission(b, true), Emission(c, false));
      Then(s, empty, s, LiveResumes, workers);
      Then(s, empty + [LiveResumes], LiveResumed(s), BackFillResumes(session), workers);
      events := empty + [LiveResumes] + [BackFillResumes(session)];
    } else {
      BackFillFirst(s, session, b, c);
      TwoOutOfOrder(start, s.emitted, Emission(c, false), Emission(b, true));
      Then(s, empty, s, BackFillResumes(session), workers);
      Then(s, empty + [BackFillResumes(session)], BackFillResumed(s, session), LiveResumes, workers);
      events := empty + [BackFillResumes(session)] + [LiveResumes];
    }
  }

  lemma {:induction false} FollowsOn(s: State, a: seq<Event>, m: State, b: seq<Event>, end: State, workers: nat)
    requires Follows(s, a, m, workers) && Follows(m, b, end, workers)
    ensures Follows(s, a + b, end, workers)
    decreases |a|
  {
    if a == [] {
      assert a + b == b;
    } else {
      FollowsOn(Next(s, a[0], workers), a[1..], m, b, end, workers);
      assert (a + b)[1..] == a[1..] + b;
    }
  }

  /** The restarted subscription backfills: it waits for the block that was next, in a session of its own. */
  lemma RestartBackFills(s: State, start: int, workers: nat) returns (events: seq<Event>, s': State)
    requires Invariant(s, start, workers) && !s.errored && s.listening && s.liveFetch.Some? && workers > 0
    ensures Follows(Restarted(s), events, s', workers)
    ensures Untouched(s, s') && s'.emitted == s.emitted && !s'.errored && !s'.fatalError && AnswersFit(s'.requests)
    ensures s'.activeBackFillingId == Some(s.sessions) && s.sessions in s'.backFills
    ensures s'.backFills[s.sessions] == |s.requests| < |s'.requests|
    ensures s'.requests[|s.requests|].answer.Pending? && s'.requests[|s.requests|].height == s.nextBlock
    ensures s.requests[s.liveFetch.value].answer.Pending? ==>
              s'.requests[s.liveFetch.value] == s.requests[s.liveFetch.value]
  {
    var finalized, empty: seq<Event> := s.nextBlock + 21, [];
    var s0 := Restarted(s);
    var s1 := Next(s0, FinalizedKnown(finalized), workers);
    s' := Next(s1, LatestKnown(finalized), workers);
    assert Follows(s0, empty, s0, workers);
    Then(s0, empty, s0, FinalizedKnown(finalized), workers);
    Then(s0, empty + [FinalizedKnown(finalized)], s1, LatestKnown(finalized), workers);
    events := empty + [FinalizedKnown(finalized)] + [LatestKnown(finalized)];
    ListeningIsLive(s, workers);
    SameStream(s, Detached(s1), start);
    assert Starting(Detached(s1));
    SessionOpensWith(Detached(s1), start, workers);
    BackFillStartedDetached(s1, workers);
    BackFillStartedUntouched(s1, workers);
    ActiveIsBackFilling(Detached(s'), s.sessions, workers);
    assert Detached(s').requests[|s.requests|].height == s.nextBlock;
  }

  /** An overlapping restart whose old wait may still end in a block can put the stream out of order. */
  lemma OverlapBreaksStream(s: State, start: int, workers: nat) returns (events: seq<Event>)
    requires Invariant(s, start, workers) && !s.errored && s.listening && s.liveFetch.Some? && !Doomed(s) && workers > 0
    ensures exists end :: Follows(Restarted(s), events, end, workers) && !GapFree(start, end.emitted)
  {
    ListeningIsLive(s, workers);
    var f, r, session := s.liveFetch.value, |s.requests|, s.sessions;
    assert Step(HeightBefore(s.requests, s.base, s.baseHeight, f), s.requests[f].height);
    var opening, s2 := RestartBackFills(s, start, workers);
    var s3, arrived := s2, opening;
    if s.requests[f].answer.Pending? {
      var answered := Answered(f, Success(Welcome(s2, s.requests[f].height)));
      s3, arrived := Next(s2, answered, workers), opening + [answered];
      Then(Restarted(s), opening, s2, answered, workers);
    }
    var c := Block(s.nextBlock, ZERO_HASH, ZERO_HASH);
    var s4 := Next(s3, Answered(r, Success(c)), workers);
    Then(Restarted(s), arrived, s3, Answered(r, Success(c)), workers);
    var b := s4.requests[f].answer.block;
    var rest := OutOfOrder(s4, session, b, c, start, workers);
    var end :| Follows(s4, rest, end, workers) && !GapFree(start, end.emitted);
    events := arrived + [Answered(r, Success(c))] + rest;
    FollowsOn(Restarted(s), arrived + [Answered(r, Success(c))], s4, rest, end, workers);
  }

  // ---- Which restarts keep the stream free of gaps ----

  /** Every way in which things may go on, up to the first error and without another overlapping restart, gives a
      stream without gaps. */
  ghost predicate StaysGapFree(s: State, start: int, workers: nat) {
    forall events, end :: Follows(s, events, end, workers) ==> GapFree(start, end.emitted)
  }

  /** The timer finds that no log was accepted since it was set, and restarts the subscription. The stream stays free of
      gaps, whatever comes, if and only if the live loop is not waiting for a block, or what it is waiting for has
      already arrived and is an error. */
  lemma RestartKeepsStreamExactlyWhen(s: State, start: int, workers: nat)
    requires Invariant(s, start, workers) && !s.errored && workers > 0
    requires Enabled(s, TimerFires) && s.cursor.lastBlockHash == s.watched
    ensures StaysGapFree(TimerFired(s), start, workers) <==> s.liveFetch.None? || Doomed(s)
  {
    if s.liveFetch.None? {
      TimerFiresSafely(s, start, workers);
      forall events, end | Follows(TimerFired(s), events, end, workers)
        ensures GapFree(start, end.emitted)
      {
        RunSafely(TimerFired(s), events, start, workers);
      }
    } else if Doomed(s) {
      RestartSheltered(s, start, workers);
      forall events, end | Follows(TimerFired(s), events, end, workers)
        ensures GapFree(start, end.emitted)
      {
        ShelteredRun(TimerFired(s), events, start, workers);
      }
    } else {
      var events := OverlapBreaksStream(s, start, workers);
    }
  }

  // ---- A restart after a live re-org error ----

  /** From entry `since` on, a block above the height that was due comes before any block of that height. */
  ghost predicate PassesOver(due: int, since: nat, emitted: seq<Emission>) {
    exists i :: since <= i < |emitted| && emitted[i].block.number > due
                && forall j :: since <= j < i ==> emitted[j].block.number != due
  }

  lemma {:induction false} NothingPassedOver(start: int, emitted: seq<Emission>, since: nat, i: nat)
    requires GapFree(start, emitted) && since <= i < |emitted|
    requires forall j :: since <= j < i ==> emitted[j].block.number != Expected(start, emitted[..since])
    ensures emitted[i].block.number <= Expected(start, emitted[..since])
    decreases i
  {
    var due := Expected(start, emitted[..i]);
    assert emitted[i].block.number == due || (emitted[i].live && emitted[i].block.number == due - 1);
    if i > since {
      NothingPassedOver(start, emitted, since, i - 1);
      assert emitted[..i][|emitted[..i]| - 1] == emitted[i - 1];
    }
  }

  lemma GapFreePassesNothing(start: int, emitted: seq<Emission>, before: seq<Emission>)
    requires GapFree(start, emitted) && before <= emitted
    ensures !PassesOver(Expected(start, before), |before|, emitted)
  {
    assert emitted[..|before|] == before;
    forall i | |before| <= i < |emitted| && emitted[i].block.number > Expected(start, before)
      ensures exists j :: |before| <= j < i && emitted[j].block.number == Expected(start, before)
    {
      if forall j :: |before| <= j < i ==> emitted[j].block.number != Expected(start, before) {
        NothingPassedOver(start, emitted, |before|, i);
      }
    }
  }

  lemma BackFillEmitsOn(s: State, session: nat)
    requires session in s.backFills && Settled(s, s.backFills[session])
    ensures s.emitted <= BackFillResumed(s, session).emitted
  {
    var answer := s.requests[s.backFills[session]].answer;
    if answer.Success? && s.activeBackFillingId == Some(session) && !s.fatalError {
      ActiveSessionEmits(s, session);
    }
  }

  lemma LiveEmitsOn(s: State)
    requires s.liveFetch.Some? && Settled(s, s.liveFetch.value)
    ensures s.emitted <= LiveResumed(s).emitted
  {
    var answer := s.requests[s.liveFetch.value].answer;
    if answer.Success? && !ReOrgMissed(s, answer.block) {
      LiveResumedEmits(s, answer.block);
    }
  }

  lemma LatestEmitsNothing(s: State, latest: int, workers: nat)
    requires s.subscribing.AwaitLatest?
    ensures LatestLearned(s, latest, workers).emitted == s.emitted
  {
    JobsAddedFrame(SessionOpened(s), s.sessions, 0, workers);
  }

  lemma StepEmitsOn(s: State, e: Event, workers: nat)
    requires Enabled(s, e) && !e.Subscribe?
    ensures s.emitted <= Next(s, e, workers).emitted
  {
    match e
    case LatestKnown(latest) => LatestEmitsNothing(s, latest, workers);
    case JobResumes(key) => JobResumedCases(s, key);
    case BackFillResumes(session) => BackFillEmitsOn(s, session);
    case LiveResumes => LiveEmitsOn(s);
    case _ =>
  }

  lemma {:induction false} RunEmitsOn(s: State, events: seq<Event>, workers: nat)
    requires Feasible(s, events, workers) && Uninterrupted(s, events, workers)
    ensures s.emitted <= Run(s, events, workers).emitted
    decreases |events|
  {
    if events != [] {
      StepEmitsOn(s, events[0], workers);
      RunEmitsOn(Next(s, events[0], workers), events[1..], workers);
    }
  }

  /** A subscription that starts at the head of the chain is given the block it starts with, live. */
  lemma StartsLive(s: State, workers: nat) returns (events: seq<Event>, end: State)
    requires Starting(s) && s.subscribing.AwaitFinalized? && !s.errored
    ensures Follows(s, events, end, workers)
    ensures end.emitted == s.emitted + [Emission(Welcome(s, s.subscribing.startBlock), true)] && !end.errored
  {
    var n, f, empty: seq<Event> := s.subscribing.startBlock, |s.requests|, [];
    var log, block := Log(Some(Hash(1)), Some(n)), Welcome(s, n);
    var s1 := Next(s, FinalizedKnown(n), workers);
    var s2 := Next(s1, LatestKnown(n), workers);
    assert Requested(s2.cursor, log) == [n];
    var s3 := Next(s2, LogArrives(log), workers);
    assert s3.liveFetch == Some(f) && s3.requests == s.requests + [Request(n, 0, Pending)];
    var s4 := Next(s3, Answered(f, Success(block)), workers);
    LiveResumedEmits(s4, block);
    end := Next(s4, LiveResumes, workers);
    assert Follows(s, empty, s, workers);
    Then(s, empty, s, FinalizedKnown(n), workers);
    Then(s, empty + [FinalizedKnown(n)], s1, LatestKnown(n), workers);
    events := empty + [FinalizedKnown(n)] + [LatestKnown(n)];
    Then(s, events, s2, LogArrives(log), workers);
    Then(s, events + [LogArrives(log)], s3, Answered(f, Success(block)), workers);
    Then(s, events + [LogArrives(log)] + [Answered(f, Success(block))], s4, LiveResumes, workers);
    events := events + [LogArrives(log)] + [Answered(f, Success(block))] + [LiveResumes];
  }

  /** A live re-org error emits nothing, but has moved the next block past the one it rejected. If the timer restarts
      the subscription from there, some way in which things go on leaves the block that was due out if and only if that
      is the block rejected. (Only the record of the error is set back, to follow the run up to the next one.) */
  lemma ReOrgErrorPassesBlock(s: State, block: Block, start: int, workers: nat)
    requires Invariant(s, start, workers) && Enabled(s, LiveResumes)
    requires s.requests[s.liveFetch.value].answer == Success(block) && ReOrgMissed(s, block)
    ensures LiveResumed(s).emitted == s.emitted && LiveResumed(s).errored
    ensures var restarted := Restarted(LiveResumed(s)).(errored := false);
            (exists events, end ::
               && Follows(restarted, events, end, workers)
               && PassesOver(Expected(start, s.emitted), |s.emitted|, end.emitted))
            <==> block.number == Expected(start, s.emitted)
  {
    ListeningIsLive(s, workers);
    var due, restarted := Expected(start, s.emitted), Restarted(LiveResumed(s)).(errored := false);
    LiveBlockIsDue(s, block, start, workers);
    assert Starting(restarted) && restarted.emitted == s.emitted && WellFormed(restarted, workers);
    if block.number == due {
      var events, end := StartsLive(restarted, workers);
      assert end.emitted[|s.emitted|].block.number > due;
    } else {
      SameStream(s, restarted, start);
      forall events, end | Follows(restarted, events, end, workers)
        ensures !PassesOver(due, |s.emitted|, end.emitted)
      {
        RunSafely(restarted, events, start, workers);
        RunEmitsOn(restarted, events, workers);
        GapFreePassesNothing(start, end.emitted, s.emitted);
      }
    }
  }
}
