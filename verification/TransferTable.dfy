/** examples/matic_transfer/consumer/src: the table of transfers kept in step with a chain that re-orgs. */
module TransferTables {
  import opened Chain

  datatype Transfer = Transfer(blockNumber: int, timestamp: int, details: int)

  type Table = seq<Transfer>

  /** The table without the transfers at height h and above. */
  function Truncated(table: Table, h: int): Table {
    if table == [] then []
    else
      var last := table[|table| - 1];
      Truncated(table[..|table| - 1], h) + if last.blockNumber < h then [last] else []
  }

  lemma {:induction false} TruncatedMembers(table: Table, h: int)
    ensures forall t :: t in Truncated(table, h) <==> t in table && t.blockNumber < h
  {
    if table != [] {
      var front := table[..|table| - 1];
      TruncatedMembers(front, h);
      assert forall t :: t in table <==> t in front || t == table[|table| - 1];
    }
  }

  /** A height that getLastTransferBlock may report: that of a transfer with the latest timestamp, 0 for an empty table.
      Which one is reported among equally late transfers is up to the database. */
  ghost predicate MayBeLatest(table: Table, latest: int) {
    if table == [] then latest == 0
    else exists t :: t in table && t.blockNumber == latest && forall u :: u in table ==> u.timestamp <= t.timestamp
  }

  /** TransferService.save, given the reported latest height. */
  function Saved(table: Table, batch: seq<Transfer>, latest: int): Table {
    if batch == [] then table
    else (if latest >= batch[0].blockNumber then Truncated(table, batch[0].blockNumber) else table) + batch
  }

  /** The plain view of a chain that re-orgs: cut off everything from the batch's height on, then append. */
  function Replaced(table: Table, batch: seq<Transfer>): Table {
    if batch == [] then table else Truncated(table, batch[0].blockNumber) + batch
  }

  function Folded(table: Table, batches: seq<seq<Transfer>>): Table
    decreases |batches|
  {
    if batches == [] then table else Folded(Replaced(table, batches[0]), batches[1..])
  }

  /** Lower heights are strictly earlier. */
  ghost predicate Chronological(table: Table) {
    forall t, u :: t in table && u in table && t.blockNumber < u.blockNumber ==> t.timestamp < u.timestamp
  }

  /** A batch of one height, later than everything stored below that height. */
  ghost predicate Extends(table: Table, batch: seq<Transfer>) {
    forall t :: t in batch ==>
      && t.blockNumber == batch[0].blockNumber
      && forall u :: u in table && u.blockNumber < t.blockNumber ==> u.timestamp < t.timestamp
  }

  lemma {:induction false} TruncatedBelow(table: Table, h: int)
    ensures (forall t :: t in table ==> t.blockNumber < h) <==> Truncated(table, h) == table
  {
    if table != [] {
      var front, last := table[..|table| - 1], table[|table| - 1];
      TruncatedMembers(table, h);
      TruncatedBelow(front, h);
      assert front + [last] == table;
      TruncatedShorter(front, h);
      assert forall t :: t in table <==> t in front || t == last;
    }
  }

  lemma {:induction false} TruncatedShorter(table: Table, h: int)
    ensures |Truncated(table, h)| <= |table|
  {
    if table != [] {
      TruncatedShorter(table[..|table| - 1], h);
    }
  }

  /** The guard of save does the right thing exactly when it fires on every table that has something to cut off. */
  lemma GuardedSaveIsReplace(table: Table, batch: seq<Transfer>, latest: int)
    requires batch != []
    ensures Saved(table, batch, latest) == Replaced(table, batch)
            <==> (latest >= batch[0].blockNumber || forall t :: t in table ==> t.blockNumber < batch[0].blockNumber)
  {
    var h := batch[0].blockNumber;
    TruncatedBelow(table, h);
    if latest < h && Truncated(table, h) + batch == table + batch {
      TruncatedShorter(table, h);
      assert |Truncated(table, h)| == |table|;
      assert (Truncated(table, h) + batch)[..|table|] == (table + batch)[..|table|];
    }
  }

  /** In a chronological table the latest transfer has the greatest height. */
  lemma LatestIsHighest(table: Table, latest: int)
    requires Chronological(table) && MayBeLatest(table, latest)
    ensures forall t :: t in table ==> t.blockNumber <= latest
  {
  }

  lemma ReplacedChronological(table: Table, batch: seq<Transfer>)
    requires Chronological(table) && Extends(table, batch)
    ensures Chronological(Replaced(table, batch))
  {
    if batch != [] {
      TruncatedMembers(table, batch[0].blockNumber);
    }
  }

  lemma SaveStep(table: Table, batch: seq<Transfer>, latest: int)
    requires Chronological(table) && Extends(table, batch) && MayBeLatest(table, latest)
    ensures Saved(table, batch, latest) == Replaced(table, batch)
    ensures Chronological(Replaced(table, batch))
  {
    if batch != [] {
      LatestIsHighest(table, latest);
      GuardedSaveIsReplace(table, batch, latest);
      ReplacedChronological(table, batch);
    }
  }

  // ---- Runs of saves ----

  /** Every batch of the run extends the table it meets. */
  ghost predicate RunExtends(table: Table, batches: seq<seq<Transfer>>)
    decreases |batches|
  {
    batches != [] ==> Extends(table, batches[0]) && RunExtends(Replaced(table, batches[0]), batches[1..])
  }

  /** `end` is a table that saving the batches one after another can leave, whatever the database reports. */
  ghost predicate MaySaveTo(table: Table, batches: seq<seq<Transfer>>, end: Table)
    decreases |batches|
  {
    if batches == [] then end == table
    else exists latest :: MayBeLatest(table, latest) && MaySaveTo(Saved(table, batches[0], latest), batches[1..], end)
  }

  lemma {:induction false} SavesAgreeWithFold(table: Table, batches: seq<seq<Transfer>>, end: Table)
    requires Chronological(table) && RunExtends(table, batches) && MaySaveTo(table, batches, end)
    ensures end == Folded(table, batches) && Chronological(end)
    decreases |batches|
  {
    if batches != [] {
      var latest :| MayBeLatest(table, latest) && MaySaveTo(Saved(table, batches[0], latest), batches[1..], end);
      SaveStep(table, batches[0], latest);
      SavesAgreeWithFold(Replaced(table, batches[0]), batches[1..], end);
    }
  }

  // ---- Replays ----

  /** Non-empty batches of one height each, the heights strictly rising. */
  ghost predicate RisingBatches(batches: seq<seq<Transfer>>) {
    && (forall i :: 0 <= i < |batches| ==>
          batches[i] != [] && forall t :: t in batches[i] ==> t.blockNumber == batches[i][0].blockNumber)
    && (forall i, j :: 0 <= i < j < |batches| ==> batches[i][0].blockNumber < batches[j][0].blockNumber)
  }

  lemma {:induction false} TruncatedAppend(a: Table, b: Table, h: int)
    ensures Truncated(a + b, h) == Truncated(a, h) + Truncated(b, h)
    decreases |b|
  {
    if b == [] {
      assert a + b == a;
    } else {
      var front := b[..|b| - 1];
      TruncatedAppend(a, front, h);
      assert (a + b)[..|a + b| - 1] == a + front;
    }
  }

  lemma {:induction false} TruncatedTwice(table: Table, low: int, high: int)
    requires low <= high
    ensures Truncated(Truncated(table, high), low) == Truncated(table, low)
    decreases |table|
  {
    if table != [] {
      var front, last := table[..|table| - 1], table[|table| - 1];
      TruncatedTwice(front, low, high);
      TruncatedAppend(Truncated(front, high), if last.blockNumber < high then [last] else [], low);
    }
  }

  lemma TruncatedAway(table: Table, h: int)
    requires forall t :: t in table ==> h <= t.blockNumber
    ensures Truncated(table, h) == []
  {
    TruncatedMembers(table, h);
    if Truncated(table, h) != [] {
      assert Truncated(table, h)[0] in Truncated(table, h);
    }
  }

  /** What a replayed run finds below its first height is what the run itself found there. */
  lemma {:induction false} FoldKeepsBelow(table: Table, batches: seq<seq<Transfer>>, h: int)
    requires RisingBatches(batches) && forall i :: 0 <= i < |batches| ==> h <= batches[i][0].blockNumber
    ensures Truncated(Folded(table, batches), h) == Truncated(table, h)
    decreases |batches|
  {
    if batches != [] {
      var first := batches[0];
      assert forall i :: 0 <= i < |batches[1..]| ==> batches[1..][i] == batches[i + 1];
      FoldKeepsBelow(Replaced(table, first), batches[1..], h);
      TruncatedAppend(Truncated(table, first[0].blockNumber), first, h);
      TruncatedTwice(table, h, first[0].blockNumber);
      TruncatedAway(first, h);
    }
  }

  /** Saving a rising run of batches a second time leaves the table as it was, whatever the database reports. */
  lemma ReplayChangesNothing(table: Table, batches: seq<seq<Transfer>>, end: Table)
    requires Chronological(table) && RisingBatches(batches) && RunExtends(table, batches)
    requires MaySaveTo(Folded(table, batches), batches, end)
    ensures end == Folded(table, batches)
  {
    if batches != [] {
      var first, once := batches[0], Folded(table, batches);
      var h := first[0].blockNumber;
      FoldKeepsBelow(table, batches, h);
      assert Replaced(once, first) == Replaced(table, first);
      FoldStaysChronological(table, batches);
      assert Extends(once, first) by {
        forall t, u | t in first && u in once && u.blockNumber < t.blockNumber
          ensures u.timestamp < t.timestamp
        {
          TruncatedMembers(once, h);
          TruncatedMembers(table, h);
          assert u in Truncated(table, h);
        }
      }
      SavesAgreeWithFold(once, batches, end);
    }
  }

  lemma {:induction false} FoldStaysChronological(table: Table, batches: seq<seq<Transfer>>)
    requires Chronological(table) && RunExtends(table, batches)
    ensures Chronological(Folded(table, batches))
    decreases |batches|
  {
    if batches != [] {
      ReplacedChronological(table, batches[0]);
      FoldStaysChronological(Replaced(table, batches[0]), batches[1..]);
    }
  }

  class TransferService {
    var transfers: Table

    constructor ()
      ensures transfers == []
    {
      transfers := [];
    }

    /** The height of a transfer with the latest timestamp. */
    method GetLastTransferBlock() returns (latest: int)
      ensures MayBeLatest(transfers, latest)
    {
      if |transfers| == 0 {
        return 0;
      }
      var best := transfers[0];
      for i := 1 to |transfers|
        invariant best in transfers
        invariant forall u :: u in transfers[..i] ==> u.timestamp <= best.timestamp
      {
        assert transfers[..i + 1] == transfers[..i] + [transfers[i]];
        if transfers[i].timestamp > best.timestamp {
          best := transfers[i];
        }
      }
      assert transfers[..|transfers|] == transfers;
      latest := best.blockNumber;
    }

    method AddAllTransfers(data: seq<Transfer>)
      modifies this
      ensures transfers == old(transfers) + data
    {
      for i := 0 to |data|
        invariant transfers == old(transfers) + data[..i]
      {
        transfers := transfers + [data[i]];
        assert data[..i + 1] == data[..i] + [data[i]];
      }
      assert data[..|data|] == data;
    }

    /** Keeps the transfers below the height, in their order, and counts the others. */
    method DeleteTxsForReorg(blockNumber: int) returns (deletedCount: nat)
      modifies this
      ensures transfers == Truncated(old(transfers), blockNumber)
      ensures forall t :: t in transfers <==> t in old(transfers) && t.blockNumber < blockNumber
      ensures deletedCount + |transfers| == |old(transfers)|
    {
      deletedCount := 0;
      var kept: Table := [];
      for i := 0 to |transfers|
        invariant transfers == old(transfers)
        invariant kept == Truncated(transfers[..i], blockNumber) && deletedCount + |kept| == i
      {
        assert transfers[..i + 1][..i] == transfers[..i];
        if transfers[i].blockNumber >= blockNumber {
          deletedCount := deletedCount + 1;
        } else {
          kept := kept + [transfers[i]];
        }
      }
      assert transfers[..|transfers|] == transfers;
      TruncatedMembers(transfers, blockNumber);
      transfers := kept;
    }

    method Save(data: seq<Transfer>)
      modifies this
      ensures exists latest :: MayBeLatest(old(transfers), latest) && transfers == Saved(old(transfers), data, latest)
      ensures Chronological(old(transfers)) && Extends(old(transfers), data) ==>
                transfers == Replaced(old(transfers), data) && Chronological(transfers)
    {
      var latest := GetLastTransferBlock();
      if Chronological(transfers) && Extends(transfers, data) {
        SaveStep(transfers, data, latest);
      }
      if |data| > 0 {
        if latest >= data[0].blockNumber {
          var _ := DeleteTxsForReorg(data[0].blockNumber);
        }
        AddAllTransfers(data);
      }
    }
  }
}
