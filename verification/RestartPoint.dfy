/** The height at which internal/block_producers/block_producer.ts resumes after a shutdown. */
module RestartPoints {
  import opened Chain
  import opened ProducedBlocks

  datatype Start = At(height: int) | FetchFailed(height: int)

  /** The remote node: the hash it reports for a height, or None when the request fails. */
  type Node = int -> Option<Hash>

  function OrDefault(blockNumber: Option<int>, startBlock: int): int {
    if blockNumber.Some? && blockNumber.value != 0 then blockNumber.value else startBlock
  }

  /** The backward walk with `left` comparisons to go. */
  function Walk(store: Store, node: Node, blockNumber: Option<int>, left: nat, startBlock: int): Start
    decreases left
  {
    if left == 0 then At(OrDefault(blockNumber, startBlock))
    else
      match Get(store, blockNumber)
      case None => At(OrDefault(blockNumber, startBlock))
      case Some(block) =>
        match node(block.number)
        case None => FetchFailed(block.number)
        case Some(hash) =>
          if hash == block.hash then At(block.number + 1)
          else Walk(store, node, Some(block.number - 1), left - 1, startBlock)
  }

  function TopNumber(store: Store): Option<int> {
    var top := Get(store, None);
    if top.Some? then Some(top.value.number) else None
  }

  function StartHeight(store: Store, node: Node, depth: nat, startBlock: int): Start {
    Walk(store, node, TopNumber(store), depth, startBlock)
  }

  // ---- Hash-linked chains ----

  /** Block k of the chain, 1 <= k <= m, has number k and the block before it as parent. */
  ghost predicate Linked(chain: int -> Hash, headers: Hash -> Header, m: int) {
    forall k :: 1 <= k <= m ==> headers(chain(k)) == Header(k, chain(k - 1))
  }

  /** f is the last common height of the two chains, which are both at least m high. */
  ghost predicate ForkHeight(mine: int -> Hash, theirs: int -> Hash, f: int, m: int) {
    0 <= f <= m && mine(f) == theirs(f) && (f < m ==> mine(f + 1) != theirs(f + 1))
  }

  lemma {:induction false} LinkedChainsAgreeBelow(mine: int -> Hash, theirs: int -> Hash, headers: Hash -> Header,
                                                  j: int, k: int)
    requires Linked(mine, headers, k) && Linked(theirs, headers, k)
    requires 0 <= j <= k && mine(k) == theirs(k)
    ensures mine(j) == theirs(j)
    decreases k
  {
    if j < k {
      assert headers(mine(k)) == Header(k, mine(k - 1));
      LinkedChainsAgreeBelow(mine, theirs, headers, j, k - 1);
    }
  }

  /** A hash fixes everything below it, so the chains agree exactly up to the fork. */
  lemma AgreeExactlyUpToFork(mine: int -> Hash, theirs: int -> Hash, headers: Hash -> Header, f: int, m: int)
    requires Linked(mine, headers, m) && Linked(theirs, headers, m) && ForkHeight(mine, theirs, f, m)
    ensures forall k :: 0 <= k <= m ==> (mine(k) == theirs(k) <==> k <= f)
  {
    forall k | 0 <= k <= m
      ensures mine(k) == theirs(k) <==> k <= f
    {
      if k <= f {
        LinkedChainsAgreeBelow(mine, theirs, headers, k, f);
      } else if mine(k) == theirs(k) {
        LinkedChainsAgreeBelow(mine, theirs, headers, f + 1, k);
      }
    }
  }

  // ---- The store after producing first, ..., m ----

  function Blocks(mine: int -> Hash, first: int, m: int): (blocks: seq<ProducedBlock>)
    requires first <= m + 1
    ensures |blocks| == m + 1 - first
    ensures forall i :: 0 <= i < |blocks| ==> blocks[i] == ProducedBlock(first + i, mine(first + i))
    decreases m - first
  {
    if first > m then [] else Blocks(mine, first, m - 1) + [ProducedBlock(m, mine(m))]
  }

  function Window(mine: int -> Hash, lo: int, m: int): (store: Store)
    ensures store.Keys == Range(lo, m + 1)
  {
    map k | k in Range(lo, m + 1) :: mine(k)
  }

  lemma {:induction false} ProducedWindow(mine: int -> Hash, first: int, m: int, depth: nat)
    requires first <= m
    ensures Recorded(map[], Blocks(mine, first, m), depth) == Window(mine, Max(first, m - depth), m)
    decreases m - first
  {
    var last := ProducedBlock(m, mine(m));
    var earlier := Blocks(mine, first, m - 1);
    RecordedSplit(map[], earlier, [last], depth);
    var before := Recorded(map[], earlier, depth);
    if first == m {
      assert before == map[];
    } else {
      ProducedWindow(mine, first, m - 1, depth);
      assert m !in before;
    }
    assert Recorded(before, [last], depth) == Recorded(Add(before, last, depth).value, [], depth);
    assert Add(before, last, depth).value == Window(mine, Max(first, m - depth), m);
  }

  // ---- Where the walk ends ----

  /** The resume height for a window lo, ..., m and a fork at f. */
  function Resume(f: int, lo: int, m: int, depth: nat): int {
    if lo <= f && m - f < depth then f + 1 else Max(lo - 1, m - depth)
  }

  ghost predicate Answers(node: Node, theirs: int -> Hash, lo: int, m: int) {
    forall k :: lo <= k <= m ==> node(k) == Some(theirs(k))
  }

  ghost predicate AgreeUpTo(mine: int -> Hash, theirs: int -> Hash, f: int, lo: int, m: int) {
    forall k :: lo <= k <= m ==> (mine(k) == theirs(k) <==> k <= f)
  }

  lemma {:induction false} WalkDown(mine: int -> Hash, theirs: int -> Hash, node: Node, f: int, lo: int, m: int,
                                    depth: nat, done: nat, startBlock: int)
    requires 1 <= lo <= m && m - depth <= lo && f <= m - done && done <= depth && lo - 1 <= m - done
    requires Resume(f, lo, m, depth) != 0
    requires Answers(node, theirs, lo, m) && AgreeUpTo(mine, theirs, f, lo, m)
    ensures Walk(Window(mine, lo, m), node, Some(m - done), depth - done, startBlock) == At(Resume(f, lo, m, depth))
    decreases depth - done
  {
    var store, height := Window(mine, lo, m), m - done;
    if done < depth && height >= lo {
      assert Between(lo, height, m + 1);
      assert Get(store, Some(height)) == Some(ProducedBlock(height, mine(height)));
      assert node(height) == Some(theirs(height));
      assert mine(height) == theirs(height) <==> height <= f;
      if height > f {
        WalkDown(mine, theirs, node, f, lo, m, depth, done + 1, startBlock);
      }
    } else if done < depth {
      assert height !in store;
    }
  }

  lemma WindowTop(mine: int -> Hash, lo: int, m: int)
    requires lo <= m
    ensures TopNumber(Window(mine, lo, m)) == Some(m)
  {
    assert Between(lo, m, m + 1);
    assert m in Window(mine, lo, m);
  }

  lemma WalkFromTop(mine: int -> Hash, theirs: int -> Hash, node: Node, f: int, lo: int, m: int, depth: nat,
                    startBlock: int)
    requires 1 <= lo <= m && m - depth <= lo && f <= m
    requires Resume(f, lo, m, depth) != 0
    requires Answers(node, theirs, lo, m) && AgreeUpTo(mine, theirs, f, lo, m)
    ensures StartHeight(Window(mine, lo, m), node, depth, startBlock) == At(Resume(f, lo, m, depth))
  {
    WindowTop(mine, lo, m);
    WalkDown(mine, theirs, node, f, lo, m, depth, 0, startBlock);
  }

  /** The resume height after producing first, ..., m in order, when the node's chain forks off at f.
      The premise on Resume keeps the walk away from height 0, which the store reads as "the top". */
  lemma RestartPoint(mine: int -> Hash, theirs: int -> Hash, headers: Hash -> Header, node: Node,
                     f: int, first: int, m: int, depth: nat, startBlock: int)
    requires 1 <= first <= m
    requires Linked(mine, headers, m) && Linked(theirs, headers, m) && ForkHeight(mine, theirs, f, m)
    requires Answers(node, theirs, Max(first, m - depth), m)
    requires Resume(f, Max(first, m - depth), m, depth) != 0
    ensures StartHeight(Recorded(map[], Blocks(mine, first, m), depth), node, depth, startBlock)
            == At(Resume(f, Max(first, m - depth), m, depth))
  {
    ProducedWindow(mine, first, m, depth);
    AgreeExactlyUpToFork(mine, theirs, headers, f, m);
    WalkFromTop(mine, theirs, node, f, Max(first, m - depth), m, depth, startBlock);
  }

  /** With a full window, no height of the node's chain is skipped exactly for forks at most depth + 1 deep,
      and exactly the forks less than depth deep, or just depth + 1 deep, are met without repeating a block. */
  lemma RestartSafeAndTight(mine: int -> Hash, theirs: int -> Hash, headers: Hash -> Header, node: Node,
                            f: int, first: int, m: int, depth: nat, startBlock: int)
    requires 1 <= first <= m - depth
    requires Linked(mine, headers, m) && Linked(theirs, headers, m) && ForkHeight(mine, theirs, f, m)
    requires Answers(node, theirs, m - depth, m)
    ensures var start := StartHeight(Recorded(map[], Blocks(mine, first, m), depth), node, depth, startBlock);
            && start.At?
            && (start.height <= f + 1 <==> m - f <= depth + 1)
            && (start.height == f + 1 <==> m - f < depth || m - f == depth + 1)
  {
    RestartPoint(mine, theirs, headers, node, f, first, m, depth, startBlock);
  }

  /** Nothing stored: the configured start block. */
  lemma RestartFromNothing(node: Node, depth: nat, startBlock: int)
    ensures StartHeight(map[], node, depth, startBlock) == At(startBlock)
  {
    assert Get(map[], None) == None;
  }

  // ---- A node that does not answer ----

  /** The request for height h is the one that fails: it is made, it fails, and all higher ones were answered with
      other hashes. */
  ghost predicate FailsAt(mine: int -> Hash, node: Node, lo: int, m: int, depth: nat, h: int) {
    && Max(lo, m - depth + 1) <= h <= m && node(h).None?
    && forall k :: h < k <= m ==> node(k).Some? && node(k) != Some(mine(k))
  }

  /** Whole rounds over a window that reaches down to height 1, all of it answered with other hashes. */
  lemma {:induction false} AnsweredWalkEnds(mine: int -> Hash, node: Node, m: int, height: int, left: nat,
                                            startBlock: int)
    requires 0 <= height <= m && 1 <= m
    requires forall k :: 1 <= k <= m ==> node(k).Some? && node(k) != Some(mine(k))
    ensures Walk(Window(mine, 1, m), node, Some(height), left, startBlock).At?
    decreases left
  {
    if left > 0 {
      var reached := if height == 0 then m else height;
      WindowTop(mine, 1, m);
      assert Between(1, reached, m + 1);
      assert Get(Window(mine, 1, m), Some(height)) == Some(ProducedBlock(reached, mine(reached)));
      assert node(reached).Some? && node(reached) != Some(mine(reached));
      AnsweredWalkEnds(mine, node, m, reached - 1, left - 1, startBlock);
    }
  }

  lemma {:induction false} WalkFails(mine: int -> Hash, node: Node, lo: int, m: int, depth: nat, done: nat,
                                     startBlock: int, h: int)
    requires 1 <= lo <= m && m - depth <= lo && done <= depth && lo - 1 <= m - done
    requires forall k :: m - done < k <= m ==> node(k).Some? && node(k) != Some(mine(k))
    ensures Walk(Window(mine, lo, m), node, Some(m - done), depth - done, startBlock) == FetchFailed(h)
            <==> FailsAt(mine, node, lo, m, depth, h)
    decreases depth - done
  {
    var height := m - done;
    if height == 0 {
      AnsweredWalkEnds(mine, node, m, 0, depth - done, startBlock);
    } else if done < depth && height >= lo {
      assert Between(lo, height, m + 1);
      assert Get(Window(mine, lo, m), Some(height)) == Some(ProducedBlock(height, mine(height)));
      if node(height).Some? && node(height) != Some(mine(height)) {
        WalkFails(mine, node, lo, m, depth, done + 1, startBlock, h);
      }
    } else if done < depth {
      assert height !in Window(mine, lo, m);
    }
  }

  /** The restart is given up over the request for height h exactly when that one fails, is within the depth and the
      window, and every higher height was answered with another hash. No other fault stops it. */
  lemma RestartGivenUp(mine: int -> Hash, node: Node, first: int, m: int, depth: nat, startBlock: int, h: int)
    requires 1 <= first <= m
    ensures StartHeight(Recorded(map[], Blocks(mine, first, m), depth), node, depth, startBlock) == FetchFailed(h)
            <==> FailsAt(mine, node, Max(first, m - depth), m, depth, h)
  {
    var lo := Max(first, m - depth);
    ProducedWindow(mine, first, m, depth);
    WindowTop(mine, lo, m);
    WalkFails(mine, node, lo, m, depth, 0, startBlock, h);
  }

  // ---- The walk that does reach height 0 ----

  lemma {:induction false} WalkWraps(mine: int -> Hash, theirs: int -> Hash, node: Node, m: int,
                                     height: int, left: nat, startBlock: int, rounds: int, rest: int)
    requires 0 <= height <= m && 1 <= m
    requires m - height + left == m * rounds + rest && 0 <= rest < m
    requires height < m || left > 0
    requires Answers(node, theirs, 1, m) && forall k :: 1 <= k <= m ==> mine(k) != theirs(k)
    ensures Walk(Window(mine, 1, m), node, Some(height), left, startBlock) ==
            At(if rest != 0 then m - rest else startBlock)
    decreases left
  {
    var store := Window(mine, 1, m);
    if left > 0 {
      var reached := if height == 0 then m else height;
      WindowTop(mine, 1, m);
      assert Between(1, reached, m + 1);
      assert Get(store, Some(height)) == Some(ProducedBlock(reached, mine(reached)));
      assert node(reached) == Some(theirs(reached));
      var rounds' := if height == 0 then rounds - 1 else rounds;
      assert m * (rounds - 1) == m * rounds - m;
      WalkWraps(mine, theirs, node, m, reached - 1, left - 1, startBlock, rounds', rest);
    } else {
      OneRound(m, m - height, rounds, rest);
    }
  }

  lemma OneRound(m: int, total: int, rounds: int, rest: int)
    requires 1 <= m && 1 <= total <= m && 0 <= rest < m && total == m * rounds + rest
    ensures if total == m then rest == 0 else rest == total
  {
    assert rounds >= 2 ==> m * rounds >= m * 2;
    assert rounds < 0 ==> m * rounds <= m * -1;
  }

  /** A store that reaches down to height 1 and shares nothing above genesis with the node: the walk does not
      stop at the bottom but starts again from the top, so the resume height is a remainder of the depth. */
  lemma RestartWrapsAtGenesis(mine: int -> Hash, theirs: int -> Hash, headers: Hash -> Header, node: Node,
                              m: int, depth: nat, startBlock: int)
    requires 1 <= m <= depth
    requires Linked(mine, headers, m) && Linked(theirs, headers, m) && ForkHeight(mine, theirs, 0, m)
    requires Answers(node, theirs, 1, m)
    ensures StartHeight(Recorded(map[], Blocks(mine, 1, m), depth), node, depth, startBlock)
            == At(if depth % m == 0 then startBlock else m - depth % m)
  {
    ProducedWindow(mine, 1, m, depth);
    AgreeExactlyUpToFork(mine, theirs, headers, 0, m);
    WalkFromTopWraps(mine, theirs, node, m, depth, startBlock);
  }

  lemma WalkFromTopWraps(mine: int -> Hash, theirs: int -> Hash, node: Node, m: int, depth: nat, startBlock: int)
    requires 1 <= m <= depth
    requires Answers(node, theirs, 1, m) && forall k :: 1 <= k <= m ==> mine(k) != theirs(k)
    ensures StartHeight(Window(mine, 1, m), node, depth, startBlock)
            == At(if depth % m == 0 then startBlock else m - depth % m)
  {
    WindowTop(mine, 1, m);
    WalkWraps(mine, theirs, node, m, m, depth, startBlock, depth / m, depth % m);
  }

  // ---- Every window and every fork ----

  /** The walk reaches height 0: everything down to height 1 is stored, and none of it is the node's. */
  predicate ReachesGenesis(f: int, first: int, m: int, depth: nat) {
    first == 1 && m <= depth && f == 0
  }

  /** Whatever was produced, and wherever the chains part: the restart leaves out no height from the first one
      produced on that the node has otherwise, if and only if the fork is at most depth + 1 below the top or
      everything produced is still within the depth. Only a walk that reaches height 0 goes by another rule. */
  lemma RestartSafe(mine: int -> Hash, theirs: int -> Hash, headers: Hash -> Header, node: Node,
                    f: int, first: int, m: int, depth: nat, startBlock: int)
    requires 1 <= first <= m
    requires Linked(mine, headers, m) && Linked(theirs, headers, m) && ForkHeight(mine, theirs, f, m)
    requires Answers(node, theirs, Max(first, m - depth), m)
    ensures var start := StartHeight(Recorded(map[], Blocks(mine, first, m), depth), node, depth, startBlock);
            && start.At?
            && (start.height <= Max(f + 1, first) <==>
                if ReachesGenesis(f, first, m, depth) then
                  if depth % m == 0 then startBlock <= 1 else depth % m == m - 1
                else m - f <= depth + 1 || m - first <= depth)
  {
    if ReachesGenesis(f, first, m, depth) {
      RestartWrapsAtGenesis(mine, theirs, headers, node, m, depth, startBlock);
    } else {
      RestartPoint(mine, theirs, headers, node, f, first, m, depth, startBlock);
    }
  }

  // ---- Two chains that part ----

  /** A chain of the hashes 1, 2, ..., and one that leaves it after height 5. */
  function Mine(k: int): Hash {
    Hash(if k > 0 then k else 0)
  }

  function Theirs(k: int): Hash {
    if k <= 5 then Mine(k) else Hash(100 + k)
  }

  function Resolve(hash: Hash): Header {
    var d := hash.digest;
    if d <= 100 then Header(d, Mine(d - 1)) else Header(d - 100, Theirs(d - 101))
  }

  /** A re-org of five blocks with a depth of two: after producing 1, ..., 10 the restart is at 8, and the node's
      blocks 6 and 7 are left out. */
  lemma DeepReOrgSkipsHeights(startBlock: int)
    ensures Linked(Mine, Resolve, 10) && Linked(Theirs, Resolve, 10) && ForkHeight(Mine, Theirs, 5, 10)
    ensures StartHeight(Recorded(map[], Blocks(Mine, 1, 10), 2), k => Some(Theirs(k)), 2, startBlock) == At(8)
  {
    RestartPoint(Mine, Theirs, Resolve, k => Some(Theirs(k)), 5, 1, 10, 2, startBlock);
  }

  // ---- Whose hashes the collection holds after a restart ----

  /** The window lo, ..., m of one chain, after the other chain was produced from a height in it or above it up to t. */
  function Overlaid(mine: int -> Hash, theirs: int -> Hash, lo: int, m: int, from: int, t: int, depth: nat): Store {
    var (bottom, top) := if from <= t && m < t then (Max(lo, t - depth), t) else (lo, m);
    map k | k in Range(bottom, top + 1) && (k <= m || from <= k) :: if k <= m then mine(k) else theirs(k)
  }

  lemma OverlaidOneMore(mine: int -> Hash, theirs: int -> Hash, lo: int, from: int, t: int, m: int, depth: nat)
    requires lo <= from <= t && lo <= m
    ensures Recorded(Overlaid(mine, theirs, lo, m, from, t - 1, depth), [ProducedBlock(t, theirs(t))], depth)
            == Overlaid(mine, theirs, lo, m, from, t, depth)
  {
    var before, last := Overlaid(mine, theirs, lo, m, from, t - 1, depth), ProducedBlock(t, theirs(t));
    LastOne(before, last, depth);
    if t <= m {
      assert Between(lo, t, m + 1);
      assert t in before;
    } else {
      assert t !in before;
      assert Pruned(before[t := last.hash], t, depth) == Overlaid(mine, theirs, lo, m, from, t, depth);
    }
  }

  /** Heights that are still stored keep the hash of the chain that was left; those above the old top are new. */
  lemma {:induction false} ReproducedHeightsKeepOldHashes(mine: int -> Hash, theirs: int -> Hash, lo: int, from: int,
                                                          t: int, m: int, depth: nat)
    requires lo <= from <= t + 1 && lo <= m
    ensures Recorded(Window(mine, lo, m), Blocks(theirs, from, t), depth)
            == Overlaid(mine, theirs, lo, m, from, t, depth)
    decreases t - from
  {
    if from <= t {
      RecordedSplit(Window(mine, lo, m), Blocks(theirs, from, t - 1), [ProducedBlock(t, theirs(t))], depth);
      ReproducedHeightsKeepOldHashes(mine, theirs, lo, from, t - 1, m, depth);
      OverlaidOneMore(mine, theirs, lo, from, t, m, depth);
    } else {
      assert Overlaid(mine, theirs, lo, m, from, t, depth) == Window(mine, lo, m);
    }
  }

  /** A height below the window is a fresh one: its record drives out all others, and the collection starts anew. */
  lemma ProducedFromBelow(mine: int -> Hash, theirs: int -> Hash, lo: int, from: int, t: int, m: int, depth: nat)
    requires from < lo <= m && from <= t
    ensures Recorded(Window(mine, lo, m), Blocks(theirs, from, t), depth) == Window(theirs, Max(from, t - depth), t)
  {
    var store, blocks := Window(mine, lo, m), Blocks(theirs, from, t);
    assert from !in store;
    assert Add(store, blocks[0], depth).value == Add(map[], blocks[0], depth).value;
    assert Recorded(store, blocks, depth) == Recorded(map[], blocks, depth);
    ProducedWindow(theirs, from, t, depth);
  }

  ghost predicate HoldsOnly(store: Store, theirs: int -> Hash) {
    forall k :: k in store ==> store[k] == theirs(k)
  }

  lemma HoldsOnlyTheirs(mine: int -> Hash, theirs: int -> Hash, f: int, lo: int, from: int, t: int, m: int, depth: nat)
    requires lo <= m && from <= t + 1 && f <= m && AgreeUpTo(mine, theirs, f, lo, m)
    ensures HoldsOnly(Recorded(Window(mine, lo, m), Blocks(theirs, from, t), depth), theirs)
            <==> f == m || (from <= t && (from < lo || m + depth < t))
  {
    if lo <= from {
      var store := Overlaid(mine, theirs, lo, m, from, t, depth);
      ReproducedHeightsKeepOldHashes(mine, theirs, lo, from, t, m, depth);
      if !(from <= t && m + depth < t) {
        assert Between(lo, m, m + 1);
        assert m <= t <= m + depth ==> Between(Max(lo, t - depth), m, t + 1);
        assert m in store && store[m] == mine(m);
      }
    } else if from <= t {
      ProducedFromBelow(mine, theirs, lo, from, t, m, depth);
    } else {
      assert Blocks(theirs, from, t) == [];
      assert Between(lo, m, m + 1);
      assert m in Window(mine, lo, m);
    }
  }

  /** After producing first, ..., m, the node has forked off at f; the producer restarts where getStartBlock tells it
      and produces up to t. Then the collection holds the node's hashes and no others if and only if there was no
      re-org, or the restart was below everything stored, or production has gone more than the depth past the old
      top. */
  lemma NodeHashesAfterRestart(mine: int -> Hash, theirs: int -> Hash, headers: Hash -> Header, node: Node,
                               f: int, first: int, m: int, depth: nat, startBlock: int, t: int)
    requires 1 <= first <= m
    requires Linked(mine, headers, m) && Linked(theirs, headers, m) && ForkHeight(mine, theirs, f, m)
    requires Answers(node, theirs, Max(first, m - depth), m)
    requires var start := StartHeight(Recorded(map[], Blocks(mine, first, m), depth), node, depth, startBlock);
             start.At? ==> start.height <= t + 1
    ensures var store := Recorded(map[], Blocks(mine, first, m), depth);
            var start := StartHeight(store, node, depth, startBlock);
            && start.At?
            && (HoldsOnly(Recorded(store, Blocks(theirs, start.height, t), depth), theirs) <==>
                || f == m
                || (start.height <= t && (start.height < Max(first, m - depth) || m + depth < t)))
  {
    RestartSafe(mine, theirs, headers, node, f, first, m, depth, startBlock);
    ProducedWindow(mine, first, m, depth);
    AgreeExactlyUpToFork(mine, theirs, headers, f, m);
    var from := StartHeight(Recorded(map[], Blocks(mine, first, m), depth), node, depth, startBlock).height;
    HoldsOnlyTheirs(mine, theirs, f, Max(first, m - depth), from, t, m, depth);
  }
}
