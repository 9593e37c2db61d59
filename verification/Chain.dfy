/** Values shared by the whole pipeline: block hashes, blocks, and the usual option type. */
module Chain {

  datatype Option<+T> = None | Some(value: T)

  /** A block hash. Two spellings of one hash that differ only in letter case are the same digest. */
  datatype Hash = Hash(digest: nat)

  const ZERO_HASH := Hash(0)

  datatype Block = Block(number: int, hash: Hash, parentHash: Hash)

  /** What a hash commits to: the number of its block and the hash of the parent block. */
  datatype Header = Header(number: int, parentHash: Hash)

  /** `headers` resolves every hash to its header; the block is the one its hash stands for,
      and its parent is one lower. */
  ghost predicate Authentic(b: Block, headers: Hash -> Header) {
    && headers(b.hash) == Header(b.number, b.parentHash)
    && headers(b.parentHash).number == b.number - 1
  }

  function Max(a: int, b: int): int {
    if a > b then a else b
  }

  predicate Between(lo: int, i: int, hi: int) {
    lo <= i < hi
  }

  /** The integers lo, lo + 1, ..., hi - 1. */
  function Range(lo: int, hi: int): set<int> {
    set i | lo <= i < hi && Between(lo, i, hi)
  }

  lemma {:induction false} RangeSize(lo: int, hi: int)
    requires lo <= hi
    ensures |Range(lo, hi)| == hi - lo
    decreases hi - lo
  {
    if lo == hi {
      assert Range(lo, hi) == {};
    } else {
      RangeSize(lo, hi - 1);
      assert Range(lo, hi) == Range(lo, hi - 1) + {hi - 1};
    }
  }

  lemma {:induction false} SubsetSize<T>(a: set<T>, b: set<T>)
    requires a <= b
    ensures |a| <= |b|
    decreases |b|
  {
    if a == {} {
    } else {
      var x :| x in a;
      SubsetSize(a - {x}, b - {x});
    }
  }
}
