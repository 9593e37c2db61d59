/** internal/block_producers/produced_blocks_model.ts: the collection of produced blocks, one record a height. */
module ProducedBlocks {
  import opened Chain

  datatype ProducedBlock = ProducedBlock(number: int, hash: Hash)

  /** The collection: the unique index on `number` makes it a map from height to hash. */
  type Store = map<int, Hash>

  lemma {:induction false} HighestExists(heights: set<int>)
    requires heights != {}
    ensures exists h :: h in heights && forall k :: k in heights ==> k <= h
    decreases |heights|
  {
    if forall k :: k !in heights {
      assert false;
    }
    var x: int :| x in heights;
    var others := heights - {x};
    assert forall k :: k in heights ==> k == x || k in others;
    if others != {} {
      HighestExists(others);
      var h :| h in others && forall k :: k in others ==> k <= h;
      var top := Max(x, h);
      assert top in heights && forall k :: k in heights ==> k <= top;
    } else {
      assert forall k :: k in heights ==> k <= x;
    }
  }

  function Highest(heights: set<int>): (h: int)
    requires heights != {}
    ensures h in heights && forall k :: k in heights ==> k <= h
  {
    HighestExists(heights);
    var h :| h in heights && forall k :: k in heights ==> k <= h;
    h
  }

  /** Whether a record of height k answers a query: no height, and also height 0, asks for any record. */
  predicate Matches(blockNumber: Option<int>, k: int) {
    blockNumber.None? || blockNumber.value == 0 || blockNumber.value == k
  }

  /** Looks a height up. No height, and also height 0, asks for the highest record. */
  function Get(store: Store, blockNumber: Option<int>): Option<ProducedBlock> {
    if blockNumber.None? || blockNumber.value == 0 then
      if store.Keys == {} then None
      else var top := Highest(store.Keys); Some(ProducedBlock(top, store[top]))
    else if blockNumber.value in store then
      Some(ProducedBlock(blockNumber.value, store[blockNumber.value]))
    else None
  }

  /** What survives the pruning that follows the insertion of height n. */
  function Pruned(store: Store, n: int, depth: nat): Store {
    map k | k in store && n - depth <= k <= n :: store[k]
  }

  /** None: the unique index rejects a height that is already stored, and nothing is pruned. */
  function Add(store: Store, block: ProducedBlock, depth: nat): Option<Store> {
    if block.number in store then None
    else Some(Pruned(store[block.number := block.hash], block.number, depth))
  }

  /** Adds every block in turn; a rejected one leaves the collection as it was. */
  function Recorded(store: Store, blocks: seq<ProducedBlock>, depth: nat): Store
    decreases |blocks|
  {
    if blocks == [] then store
    else
      var next := Add(store, blocks[0], depth);
      Recorded(if next.Some? then next.value else store, blocks[1..], depth)
  }

  /** The last block of a run that was not rejected. */
  function LastAccepted(store: Store, blocks: seq<ProducedBlock>, depth: nat): Option<ProducedBlock>
    decreases |blocks|
  {
    if blocks == [] then None
    else
      var next := Add(store, blocks[0], depth);
      var rest := LastAccepted(if next.Some? then next.value else store, blocks[1..], depth);
      if rest.None? && next.Some? then Some(blocks[0]) else rest
  }

  ghost predicate TopWindow(store: Store, top: ProducedBlock, depth: nat) {
    && top.number in store && store[top.number] == top.hash
    && (forall k :: k in store ==> top.number - depth <= k <= top.number)
  }

  lemma TopOfWindow(store: Store, top: ProducedBlock, depth: nat)
    requires TopWindow(store, top, depth)
    ensures Get(store, None) == Some(top)
    ensures |store| <= depth + 1
  {
    assert store.Keys <= Range(top.number - depth, top.number + 1);
    SubsetSize(store.Keys, Range(top.number - depth, top.number + 1));
    RangeSize(top.number - depth, top.number + 1);
    assert |store| == |store.Keys|;
  }

  /** Over every run of additions, whatever was stored before and whichever additions were rejected:
      the records are the window that ends at the last block accepted. */
  lemma {:induction false} WindowAfterAnyRun(store: Store, blocks: seq<ProducedBlock>, depth: nat)
    requires LastAccepted(store, blocks, depth).Some?
    ensures var top := LastAccepted(store, blocks, depth).value;
            && TopWindow(Recorded(store, blocks, depth), top, depth)
            && Get(Recorded(store, blocks, depth), None) == Some(top)
            && |Recorded(store, blocks, depth)| <= depth + 1
    decreases |blocks|
  {
    var next := Add(store, blocks[0], depth);
    var store' := if next.Some? then next.value else store;
    if LastAccepted(store', blocks[1..], depth).Some? {
      WindowAfterAnyRun(store', blocks[1..], depth);
    } else {
      RejectedRunChangesNothing(store', blocks[1..], depth);
      TopOfWindow(store', blocks[0], depth);
    }
  }

  lemma {:induction false} RejectedRunChangesNothing(store: Store, blocks: seq<ProducedBlock>, depth: nat)
    ensures LastAccepted(store, blocks, depth).None? <==>
            forall b :: b in blocks ==> b.number in store
    ensures LastAccepted(store, blocks, depth).None? ==> Recorded(store, blocks, depth) == store
    decreases |blocks|
  {
    if blocks != [] {
      var next := Add(store, blocks[0], depth);
      RejectedRunChangesNothing(if next.Some? then next.value else store, blocks[1..], depth);
      if next.Some? {
        assert blocks[0] in blocks;
      } else {
        assert forall b :: b in blocks <==> b == blocks[0] || b in blocks[1..];
      }
    }
  }

  // ---- Runs of fresh, rising heights ----

  ghost predicate Rising(blocks: seq<ProducedBlock>) {
    forall i, j :: 0 <= i < j < |blocks| ==> blocks[i].number < blocks[j].number
  }

  ghost predicate Above(store: Store, blocks: seq<ProducedBlock>) {
    forall k, i :: k in store && 0 <= i < |blocks| ==> k < blocks[i].number
  }

  /** The two stores hold the same records from height x on. */
  ghost predicate AgreeFrom(a: Store, b: Store, x: int) {
    forall k :: k >= x ==> (k in a <==> k in b) && (k in a ==> a[k] == b[k])
  }

  /** Records below the final window have no influence on the outcome. */
  lemma {:induction false} RecordedForgetsBelowWindow(a: Store, b: Store, blocks: seq<ProducedBlock>, x: int,
                                                      depth: nat)
    requires blocks != [] && Rising(blocks) && Above(a, blocks) && Above(b, blocks)
    requires AgreeFrom(a, b, x) && x <= blocks[|blocks| - 1].number - depth
    ensures Recorded(a, blocks, depth) == Recorded(b, blocks, depth)
    decreases |blocks|
  {
    var first, rest := blocks[0], blocks[1..];
    assert first.number !in a && first.number !in b;
    var a', b' := Add(a, first, depth).value, Add(b, first, depth).value;
    if rest == [] {
      assert a' == b';
    } else {
      assert rest[|rest| - 1] == blocks[|blocks| - 1];
      assert forall i :: 0 <= i < |rest| ==> rest[i] == blocks[i + 1];
      RecordedForgetsBelowWindow(a', b', rest, x, depth);
    }
  }

  lemma {:induction false} RecordedBounds(store: Store, blocks: seq<ProducedBlock>, n: int, depth: nat)
    requires forall k :: k in store ==> k <= n
    requires forall b :: b in blocks ==> b.number <= n
    ensures forall k :: k in Recorded(store, blocks, depth) ==> k <= n
    decreases |blocks|
  {
    if blocks != [] {
      assert blocks[0] in blocks;
      var next := Add(store, blocks[0], depth);
      RecordedBounds(if next.Some? then next.value else store, blocks[1..], n, depth);
    }
  }

  ghost predicate HigherThan(blocks: seq<ProducedBlock>, x: int) {
    forall i :: 0 <= i < |blocks| ==> x < blocks[i].number
  }

  ghost predicate NoneAbove(blocks: seq<ProducedBlock>, x: int) {
    forall b :: b in blocks ==> b.number <= x
  }

  ghost predicate StoredBelow(store: Store, x: int) {
    forall k :: k in store ==> k < x
  }

  lemma RisingSuffix(store: Store, blocks: seq<ProducedBlock>, cut: nat)
    requires Rising(blocks) && Above(store, blocks) && 0 < cut < |blocks|
    ensures var rest, x := blocks[cut..], blocks[cut - 1].number;
            && rest != [] && Rising(rest) && x + |rest| <= rest[|rest| - 1].number
            && HigherThan(rest, x) && StoredBelow(store, x) && NoneAbove(blocks[..cut], x)
  {
    RisingGap(blocks, cut - 1, |blocks| - 1);
    forall b | b in blocks[..cut]
      ensures b.number <= blocks[cut - 1].number
    {
      var i :| 0 <= i < cut && blocks[..cut][i] == b;
      assert blocks[i] == b;
    }
  }

  /** Blocks that a window of `depth + 1` later ones would push out need not be recorded at all. */
  lemma SkippingPrunedBlocks(store: Store, blocks: seq<ProducedBlock>, skipped: nat, depth: nat)
    requires Rising(blocks) && Above(store, blocks)
    requires skipped + depth + 1 <= |blocks|
    ensures Recorded(store, blocks, depth) == Recorded(store, blocks[skipped..], depth)
  {
    var gone, rest := blocks[..skipped], blocks[skipped..];
    RecordedSplit(store, gone, rest, depth);
    assert gone + rest == blocks;
    if skipped > 0 {
      RisingSuffix(store, blocks, skipped);
      ForgottenPrefix(store, gone, rest, blocks[skipped - 1].number, depth);
    } else {
      assert Recorded(store, gone, depth) == store;
    }
  }

  lemma ForgottenPrefix(store: Store, gone: seq<ProducedBlock>, rest: seq<ProducedBlock>, x: int, depth: nat)
    requires rest != [] && Rising(rest) && x < rest[|rest| - 1].number - depth
    requires HigherThan(rest, x) && StoredBelow(store, x) && NoneAbove(gone, x)
    ensures Recorded(Recorded(store, gone, depth), rest, depth) == Recorded(store, rest, depth)
  {
    RecordedBounds(store, gone, x, depth);
    RecordedForgetsBelowWindow(Recorded(store, gone, depth), store, rest, x + 1, depth);
  }

  lemma {:induction false} RisingGap(blocks: seq<ProducedBlock>, i: nat, j: nat)
    requires Rising(blocks) && i <= j < |blocks|
    ensures blocks[i].number + (j - i) <= blocks[j].number
    decreases j - i
  {
    if i < j {
      RisingGap(blocks, i, j - 1);
    }
  }

  lemma {:induction false} RecordedSplit(store: Store, blocks: seq<ProducedBlock>, more: seq<ProducedBlock>, depth: nat)
    ensures Recorded(store, blocks + more, depth) == Recorded(Recorded(store, blocks, depth), more, depth)
    decreases |blocks|
  {
    if blocks == [] {
      assert blocks + more == more;
    } else {
      var next := Add(store, blocks[0], depth);
      RecordedSplit(if next.Some? then next.value else store, blocks[1..], more, depth);
      assert (blocks + more)[1..] == blocks[1..] + more;
    }
  }

  lemma LastOne(store: Store, block: ProducedBlock, depth: nat)
    ensures Recorded(store, [block], depth) ==
            if block.number in store then store else Pruned(store[block.number := block.hash], block.number, depth)
  {
    assert [block][1..] == [];
    var next := Add(store, block, depth);
    assert Recorded(store, [block], depth) == Recorded(if next.Some? then next.value else store, [], depth);
  }

  class ProducedBlocksModel {
    var blocks: Store

    constructor ()
      ensures blocks == map[]
    {
      blocks := map[];
    }

    /** Searches the records that match the query for the highest one. */
    method GetBlock(blockNumber: Option<int>) returns (block: Option<ProducedBlock>)
      ensures block.None? <==> forall k :: k in blocks ==> !Matches(blockNumber, k)
      ensures block.Some? ==>
                && block.value.number in blocks && blocks[block.value.number] == block.value.hash
                && Matches(blockNumber, block.value.number)
                && forall k :: k in blocks && Matches(blockNumber, k) ==> k <= block.value.number
      ensures block == Get(blocks, blockNumber)
    {
      block := None;
      var keys := blocks.Keys;
      while keys != {}
        invariant keys <= blocks.Keys
        invariant block.None? <==> forall k :: k in blocks.Keys - keys ==> !Matches(blockNumber, k)
        invariant block.Some? ==>
                    && block.value.number in blocks && blocks[block.value.number] == block.value.hash
                    && Matches(blockNumber, block.value.number)
                    && forall k :: k in blocks.Keys - keys && Matches(blockNumber, k) ==> k <= block.value.number
        decreases keys
      {
        HighestExists(keys);
        var key :| key in keys;
        keys := keys - {key};
        if Matches(blockNumber, key) && (block.None? || key > block.value.number) {
          block := Some(ProducedBlock(key, blocks[key]));
        }
      }
    }

    /** Fails, without effect, on a height that is already stored. */
    method AddBlock(block: ProducedBlock, maxReOrgDepth: nat) returns (ok: bool)
      modifies this
      ensures ok <==> block.number !in old(blocks)
      ensures Add(old(blocks), block, maxReOrgDepth) == if ok then Some(blocks) else None
      ensures !ok ==> blocks == old(blocks)
    {
      if block.number in blocks {
        return false;
      }
      blocks := blocks[block.number := block.hash];
      var doomed := set k | k in blocks && (k < block.number - maxReOrgDepth || k > block.number);
      blocks := blocks - doomed;
      assert blocks == Pruned(old(blocks)[block.number := block.hash], block.number, maxReOrgDepth);
      ok := true;
    }
  }
}
