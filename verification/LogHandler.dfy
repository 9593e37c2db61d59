/** The log handler of internal/block_subscription/abstract_block_subscription.ts: which blocks a stream of
    log events asks for. */
module LogHandlers {
  import opened Chain

  /** A log event. A hash that is absent or empty is None, and so is a block number that is not a finite number. */
  datatype Log = Log(blockHash: Option<Hash>, blockNumber: Option<int>)

  datatype Cursor = Cursor(lastBlockHash: Option<Hash>, lastReceivedBlockNumber: int)

  predicate Malformed(c: Cursor, log: Log) {
    || log.blockHash.None? || log.blockHash.value == ZERO_HASH
    || log.blockNumber.None? || log.blockNumber.value < c.lastReceivedBlockNumber
  }

  predicate Accepted(c: Cursor, log: Log) {
    !Malformed(c, log) && c.lastBlockHash != log.blockHash
  }

  /** The heights last + 1, ..., last + count. */
  function Following(last: int, count: nat): seq<int> {
    seq(count, i => last + 1 + i)
  }

  lemma FollowingOneMore(last: int, count: nat)
    ensures Following(last, count) + [last + 1 + count] == Following(last, count + 1)
    ensures Following(last, 0) == []
  {
  }

  /** The heights above `last` up to and including n; n itself in any case. */
  function UpTo(last: int, n: int): seq<int> {
    if n - last > 1 then Following(last, n - last) else [n]
  }

  function Requested(c: Cursor, log: Log): seq<int> {
    if Accepted(c, log) then UpTo(c.lastReceivedBlockNumber, log.blockNumber.value) else []
  }

  function Received(c: Cursor, log: Log): Cursor {
    if Accepted(c, log) then Cursor(log.blockHash, log.blockNumber.value) else c
  }

  // ---- Streams of logs ----

  function Requests(c: Cursor, logs: seq<Log>): seq<int>
    decreases |logs|
  {
    if logs == [] then [] else Requested(c, logs[0]) + Requests(Received(c, logs[0]), logs[1..])
  }

  function ReceivedAll(c: Cursor, logs: seq<Log>): Cursor
    decreases |logs|
  {
    if logs == [] then c else ReceivedAll(Received(c, logs[0]), logs[1..])
  }

  /** How many accepted logs repeat the height received last. */
  function Repeats(c: Cursor, logs: seq<Log>): nat
    decreases |logs|
  {
    if logs == [] then 0
    else
      (if Accepted(c, logs[0]) && logs[0].blockNumber.value == c.lastReceivedBlockNumber then 1 else 0)
      + Repeats(Received(c, logs[0]), logs[1..])
  }

  function AcceptedOnly(c: Cursor, logs: seq<Log>): seq<Log>
    decreases |logs|
  {
    if logs == [] then []
    else (if Accepted(c, logs[0]) then [logs[0]] else []) + AcceptedOnly(Received(c, logs[0]), logs[1..])
  }

  /** One fetch for every height passed, and one more for every repeated height; the cursor never falls back. */
  lemma {:induction false} RequestsConserved(c: Cursor, logs: seq<Log>)
    ensures var end := ReceivedAll(c, logs);
            && end.lastReceivedBlockNumber >= c.lastReceivedBlockNumber
            && |Requests(c, logs)| == end.lastReceivedBlockNumber - c.lastReceivedBlockNumber + Repeats(c, logs)
    decreases |logs|
  {
    if logs != [] {
      RequestsConserved(Received(c, logs[0]), logs[1..]);
    }
  }

  /** Rejected logs have no influence: without them the same blocks are asked for. */
  lemma {:induction false} RejectedLogsDoNotInterfere(c: Cursor, logs: seq<Log>)
    ensures Requests(c, AcceptedOnly(c, logs)) == Requests(c, logs)
    ensures ReceivedAll(c, AcceptedOnly(c, logs)) == ReceivedAll(c, logs)
    decreases |logs|
  {
    if logs != [] {
      var rest := AcceptedOnly(Received(c, logs[0]), logs[1..]);
      RejectedLogsDoNotInterfere(Received(c, logs[0]), logs[1..]);
      if Accepted(c, logs[0]) {
        assert AcceptedOnly(c, logs)[1..] == rest;
      } else {
        assert AcceptedOnly(c, logs) == rest;
      }
    }
  }

  function Last(before: int, heights: seq<int>): int {
    if heights == [] then before else heights[|heights| - 1]
  }

  predicate Step(from: int, to: int) {
    from <= to <= from + 1
  }

  /** Every height is its predecessor or one more; `before` precedes the first. */
  ghost predicate Stepwise(before: int, heights: seq<int>) {
    && (heights != [] ==> Step(before, heights[0]))
    && (forall i :: 0 < i < |heights| ==> Step(heights[i - 1], heights[i]))
  }

  lemma StepwiseAppend(before: int, a: seq<int>, b: seq<int>)
    requires Stepwise(before, a) && Stepwise(Last(before, a), b)
    ensures Stepwise(before, a + b) && Last(before, a + b) == Last(Last(before, a), b)
  {
    if a == [] {
      assert a + b == b;
    } else if b == [] {
      assert a + b == a;
    } else {
      forall i | 0 < i < |a + b|
        ensures Step((a + b)[i - 1], (a + b)[i])
      {
        if i > |a| {
          assert (a + b)[i] == b[i - |a|] && (a + b)[i - 1] == b[i - |a| - 1];
        }
      }
    }
  }

  lemma RequestedStepwise(c: Cursor, log: Log)
    ensures Stepwise(c.lastReceivedBlockNumber, Requested(c, log))
    ensures Received(c, log).lastReceivedBlockNumber == Last(c.lastReceivedBlockNumber, Requested(c, log))
  {
  }

  /** The fetches of a stream leave no height out and end at the height received last. */
  lemma {:induction false} RequestsStepwise(c: Cursor, logs: seq<Log>)
    ensures Stepwise(c.lastReceivedBlockNumber, Requests(c, logs))
    ensures ReceivedAll(c, logs).lastReceivedBlockNumber == Last(c.lastReceivedBlockNumber, Requests(c, logs))
    decreases |logs|
  {
    if logs != [] {
      var c' := Received(c, logs[0]);
      RequestedStepwise(c, logs[0]);
      RequestsStepwise(c', logs[1..]);
      StepwiseAppend(c.lastReceivedBlockNumber, Requested(c, logs[0]), Requests(c', logs[1..]));
    }
  }

  // ---- Which logs ask for blocks ----

  lemma {:induction false} RequestsSplit(c: Cursor, a: seq<Log>, b: seq<Log>)
    ensures Requests(c, a + b) == Requests(c, a) + Requests(ReceivedAll(c, a), b)
    ensures ReceivedAll(c, a + b) == ReceivedAll(ReceivedAll(c, a), b)
    decreases |a|
  {
    if a == [] {
      assert a + b == b;
    } else {
      assert (a + b)[1..] == a[1..] + b;
      RequestsSplit(Received(c, a[0]), a[1..], b);
    }
  }

  lemma OneLog(c: Cursor, l: Log)
    ensures Requests(c, [l]) == Requested(c, l) && ReceivedAll(c, [l]) == Received(c, l)
  {
    assert [l][1..] == [];
  }

  /** The further logs of a block ask for nothing: a log delivered twice in a row is as good as one. */
  lemma DoubledLogChangesNothing(c: Cursor, a: seq<Log>, l: Log, b: seq<Log>)
    ensures Requests(c, a + [l, l] + b) == Requests(c, a + [l] + b)
    ensures ReceivedAll(c, a + [l, l] + b) == ReceivedAll(c, a + [l] + b)
  {
    var before := ReceivedAll(c, a);
    assert [l, l] == [l] + [l];
    RequestsSplit(c, a, [l, l]);
    RequestsSplit(c, a, [l]);
    RequestsSplit(before, [l], [l]);
    OneLog(before, l);
    OneLog(Received(before, l), l);
    RequestsSplit(c, a + [l, l], b);
    RequestsSplit(c, a + [l], b);
  }

  /** No hash, or that of no block; no number; or a number below the height received last. */
  predicate Poisoned(l: Log, last: int) {
    l.blockHash == None || l.blockHash == Some(ZERO_HASH) || l.blockNumber == None || l.blockNumber.value < last
  }

  lemma RejectedInBetween(c: Cursor, a: seq<Log>, l: Log, b: seq<Log>)
    requires Requested(ReceivedAll(c, a), l) == [] && Received(ReceivedAll(c, a), l) == ReceivedAll(c, a)
    ensures Requests(c, a + [l] + b) == Requests(c, a + b) && ReceivedAll(c, a + [l] + b) == ReceivedAll(c, a + b)
  {
    RequestsSplit(c, a, [l]);
    OneLog(ReceivedAll(c, a), l);
    RequestsSplit(c, a + [l], b);
    RequestsSplit(c, a, b);
  }

  /** A poisoned log asks for nothing and moves nothing, wherever in the stream it arrives. */
  lemma PoisonedLogChangesNothing(c: Cursor, a: seq<Log>, l: Log, b: seq<Log>)
    requires Poisoned(l, Last(c.lastReceivedBlockNumber, Requests(c, a)))
    ensures Requests(c, a + [l] + b) == Requests(c, a + b) && ReceivedAll(c, a + [l] + b) == ReceivedAll(c, a + b)
  {
    RequestsStepwise(c, a);
    RejectedInBetween(c, a, l, b);
  }

  /** The logs of blocks on and on: with a hash other than the one before, and no lower than it. */
  ghost predicate Forward(hash: Option<Hash>, height: int, logs: seq<Log>)
    decreases |logs|
  {
    logs != [] ==>
      && logs[0].blockHash.Some? && logs[0].blockHash != Some(ZERO_HASH) && logs[0].blockHash != hash
      && logs[0].blockNumber.Some? && height <= logs[0].blockNumber.value
      && Forward(logs[0].blockHash, logs[0].blockNumber.value, logs[1..])
  }

  function LastHeight(height: int, logs: seq<Log>): int
    decreases |logs|
  {
    if logs == [] then height
    else LastHeight(if logs[0].blockNumber.Some? then logs[0].blockNumber.value else height, logs[1..])
  }

  /** How many logs have the number of the one before. */
  function SameHeights(height: int, logs: seq<Log>): nat
    decreases |logs|
  {
    if logs == [] || logs[0].blockNumber.None? then 0
    else (if logs[0].blockNumber.value == height then 1 else 0) + SameHeights(logs[0].blockNumber.value, logs[1..])
  }

  /** Logs of ever new blocks are all heeded: one fetch for every height from the cursor up to the last log, and one
      more for every other block at a height just received. */
  lemma {:induction false} ForwardLogsAreHeeded(c: Cursor, logs: seq<Log>)
    requires Forward(c.lastBlockHash, c.lastReceivedBlockNumber, logs)
    ensures var end := LastHeight(c.lastReceivedBlockNumber, logs);
            && |Requests(c, logs)| == end - c.lastReceivedBlockNumber + SameHeights(c.lastReceivedBlockNumber, logs)
            && ReceivedAll(c, logs).lastReceivedBlockNumber == end
            && Last(c.lastReceivedBlockNumber, Requests(c, logs)) == end
    decreases |logs|
  {
    RequestsStepwise(c, logs);
    if logs != [] {
      ForwardLogsAreHeeded(Received(c, logs[0]), logs[1..]);
    }
  }
}
