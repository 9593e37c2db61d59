/** Blocks asked of the workers: every request is known by its place in the list of all requests, its id, and the
    queues of internal/block_subscription hold the promises of requests. */
module Fetches {
  import opened Chain

  datatype Answer = Pending | Success(block: Block) | Failure

  /** A block asked of a worker. A request is known by its place in the list of all requests, its id. */
  datatype Request = Request(height: int, worker: nat, answer: Answer)

  function Ids(from: nat, to: nat): (ids: seq<nat>)
    ensures |ids| == if from <= to then to - from else 0
    ensures forall i :: 0 <= i < |ids| ==> ids[i] == from + i
  {
    if from <= to then seq(to - from, i requires 0 <= i => from + i) else []
  }

  function Asked(heights: seq<int>, worker: nat): (asked: seq<Request>)
    ensures |asked| == |heights|
    ensures forall i :: 0 <= i < |heights| ==> asked[i] == Request(heights[i], worker, Pending)
  {
    seq(|heights|, i requires 0 <= i < |heights| => Request(heights[i], worker, Pending))
  }

  ghost predicate AnswersFit(requests: seq<Request>) {
    forall r :: 0 <= r < |requests| && requests[r].answer.Success? ==>
      requests[r].answer.block.number == requests[r].height
  }

  ghost predicate Consecutive(requests: seq<Request>, base: nat, baseHeight: int) {
    forall r :: base <= r < |requests| ==> requests[r].height == baseHeight + (r - base)
  }

  lemma IdsConcat(a: nat, b: nat, c: nat)
    requires a <= b <= c
    ensures Ids(a, b) + Ids(b, c) == Ids(a, c)
  {
  }

  lemma IdsTail(a: nat, b: nat)
    requires a < b
    ensures Ids(a, b)[0] == a && Ids(a, b)[1..] == Ids(a + 1, b)
  {
  }
}
