/** internal/queue/queue.ts: a FIFO kept as a sparse record of items between a head and a tail index. */
module Queues {
  import opened Chain

  /** What a removal hands back. `Undefined` is a read of an absent key, `Null` an explicit refusal. */
  datatype Taken<+T> = Null | Undefined | Item(value: T)

  // ---- The plain sequence that the record stands for ----

  function Shifted<T>(s: seq<T>): (Taken<T>, seq<T>) {
    if s == [] then (Null, s) else (Item(s[0]), s[1..])
  }

  function ShiftedByN<T>(s: seq<T>, position: nat): (Taken<T>, seq<T>) {
    if |s| < position then (Null, s)
    else if position == 0 then (Undefined, s)
    else (Item(s[position - 1]), s[position..])
  }

  /** `times` calls of shift in a row, with the result of the last one. */
  function ShiftedRepeatedly<T>(s: seq<T>, times: nat): (Taken<T>, seq<T>)
    requires times >= 1
  {
    if times == 1 then Shifted(s) else ShiftedRepeatedly(Shifted(s).1, times - 1)
  }

  /** One bulk removal is the same as that many single ones. */
  lemma {:induction false} ShiftByNIsRepeatedShift<T>(s: seq<T>, position: nat)
    requires 1 <= position <= |s|
    ensures ShiftedByN(s, position) == ShiftedRepeatedly(s, position)
    decreases position
  {
    if position > 1 {
      ShiftByNIsRepeatedShift(s[1..], position - 1);
      assert s[1..][position - 1..] == s[position..];
    }
  }

  function Stretch<T>(items: map<int, T>, head: int, tail: int): seq<T>
    requires head <= tail && items.Keys == Range(head, tail)
  {
    seq(tail - head, i requires 0 <= i < tail - head => assert head + i in Range(head, tail); items[head + i])
  }

  class Queue<T> {
    var items: map<int, T>
    var head: int
    var tail: int
    ghost var contents: seq<T>

    /** The record holds exactly the keys from head up to tail, and stands for the contents. */
    ghost predicate Valid()
      reads this
    {
      head <= tail && items.Keys == Range(head, tail) && contents == Stretch(items, head, tail)
    }

    constructor ()
      ensures Valid() && contents == []
    {
      items, head, tail := map[], 0, 0;
      contents := [];
    }

    method Enqueue(item: T)
      requires Valid()
      modifies this
      ensures Valid() && contents == old(contents) + [item]
    {
      items := items[tail := item];
      tail := tail + 1;
      contents := contents + [item];
    }

    method Shift() returns (taken: Taken<T>)
      requires Valid()
      modifies this
      ensures Valid() && (taken, contents) == Shifted(old(contents))
      ensures old(contents) == [] ==> taken == Null && contents == []
      ensures old(contents) != [] ==> taken == Item(old(contents)[0]) && contents == old(contents)[1..]
    {
      var empty := IsEmpty();
      if empty {
        return Null;
      }
      assert head in Range(head, tail);
      taken := Item(items[head]);
      items := items - {head};
      head := head + 1;
      contents := contents[1..];
    }

    /** Keeps the record intact exactly for the positions that are not negative. */
    method ShiftByN(position: int) returns (taken: Taken<T>)
      requires Valid()
      modifies this
      ensures Valid() <==> position >= 0
      ensures position >= 0 ==> (taken, contents) == ShiftedByN(old(contents), position)
      ensures 1 <= position <= |old(contents)| ==>
                taken == Item(old(contents)[position - 1]) && contents == old(contents)[position..]
      ensures position == 0 || position > |old(contents)| ==>
                taken == (if position == 0 then Undefined else Null) && contents == old(contents)
      ensures position < 0 ==> taken == Undefined && items == old(items)
                               && head == old(head) + position && tail == old(tail)
    {
      var length := GetLength();
      if length < position && position != 0 {
        return Null;
      }
      head := head + position - 1;
      taken := if head in items then Item(items[head]) else Undefined;
      var keys := items.Keys;
      while keys != {}
        invariant head == old(head) + position - 1 && tail == old(tail) && contents == old(contents)
        invariant keys <= old(items).Keys
        invariant items == map k | k in old(items) && (k in keys || k > head) :: old(items)[k]
        decreases keys
      {
        var key :| key in keys;
        keys := keys - {key};
        if key <= head {
          items := items - {key};
        }
      }
      head := head + 1;
      if position < 0 {
        assert head in Range(head, tail) && head !in items;
      } else {
        contents := contents[position..];
        assert items.Keys == Range(head, tail);
      }
    }

    method Front() returns (taken: Taken<T>)
      requires Valid()
      ensures taken == if contents == [] then Null else Item(contents[0])
    {
      var empty := IsEmpty();
      if empty {
        return Null;
      }
      assert head in Range(head, tail);
      taken := Item(items[head]);
    }

    method IsEmpty() returns (empty: bool)
      requires Valid()
      ensures empty <==> contents == []
    {
      var length := GetLength();
      empty := length == 0;
    }

    method GetLength() returns (length: int)
      requires Valid()
      ensures length == |contents|
    {
      length := tail - head;
    }

    method Clear() returns (length: int)
      modifies this
      ensures Valid() && contents == [] && length == 0
    {
      head, tail := 0, 0;
      items := map[];
      contents := [];
      length := 0;
    }
  }
}
