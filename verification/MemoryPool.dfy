/** The table of MemoryPool that maps a request size to the small-size pool that serves it. */
module MemoryPool {

  const MAX_ALLOC_SIZE: nat := 4096

  /** The block sizes for which the constructor makes a pool. */
  predicate IsPoolSize(p: int) {
    || (32 <= p < 1024 && p % 32 == 0)
    || (1024 <= p < 2048 && p % 128 == 0)
    || (2048 <= p < 4096 && p % 256 == 0)
  }

  /** `p` is the smallest pool whose blocks hold `s` bytes. */
  ghost predicate BestFit(s: int, p: int) {
    IsPoolSize(p) && s <= p && forall q :: IsPoolSize(q) && s <= q ==> p <= q
  }

  /** The table up to `recent` is complete and nothing beyond is filled; 0 is a null entry. */
  ghost predicate FilledTo(table: seq<nat>, recent: nat) {
    && |table| == MAX_ALLOC_SIZE + 1 && recent <= MAX_ALLOC_SIZE
    && (forall s :: 1 <= s <= recent ==> BestFit(s, table[s]))
    && (forall s :: 0 <= s < |table| && (s == 0 || s > recent) ==> table[s] == 0)
  }

  /** No pool lies strictly between `recent` and `i`. */
  ghost predicate NextPool(recent: int, i: int) {
    forall q :: IsPoolSize(q) ==> q <= recent || i <= q
  }

  /** The inner loop: every size above the last pool up to `i` is served by pool `i`. */
  method AddPool(table: seq<nat>, recent: nat, i: nat) returns (r: seq<nat>)
    requires FilledTo(table, recent) && recent < i <= MAX_ALLOC_SIZE && IsPoolSize(i) && NextPool(recent, i)
    ensures FilledTo(r, i)
  {
    r := table;
    for j := recent + 1 to i + 1
      invariant |r| == |table|
      invariant forall s :: 0 <= s < |r| ==> r[s] == if recent < s < j then i else table[s]
    {
      r := r[j := i];
    }
  }

  /** The constructor's three loops. Every size from 1 to 3840 gets its best-fitting pool; the sizes
      3841 to 4096, which Allocate also looks up, stay null. */
  method BuildTable() returns (table: seq<nat>)
    ensures FilledTo(table, 3840)
  {
    table := seq(MAX_ALLOC_SIZE + 1, _ => 0);
    var recent := 0;
    var i := 32;
    while i < 1024
      invariant FilledTo(table, recent) && recent < i <= 1024 && i % 32 == 0 && NextPool(recent, i)
    {
      table := AddPool(table, recent, i);
      recent, i := i, i + 32;
    }
    i := 1024;
    while i < 2048
      invariant FilledTo(table, recent) && recent < i <= 2048 && i >= 1024 && i % 128 == 0 && NextPool(recent, i)
    {
      table := AddPool(table, recent, i);
      recent, i := i, i + 128;
    }
    i := 2048;
    while i < 4096
      invariant FilledTo(table, recent) && recent < i <= 4096 && i >= 2048 && i % 256 == 0 && NextPool(recent, i)
      invariant recent < 4096 && (i == 4096 ==> recent == 3840) && (i > 2048 ==> recent == i - 256)
    {
      table := AddPool(table, recent, i);
      recent, i := i, i + 256;
    }
  }

  datatype Allocation = Pooled(block: nat) | Direct(size: nat) | NullPool

  /** Allocate of `size` bytes with a header of `header` bytes. A request that is looked up in the table
      finds a null pool, and crashes, exactly when header and payload together take more than 3840
      bytes; larger requests that bypass the table and smaller ones are served with enough room. */
  method Allocate(table: seq<nat>, size: nat, header: nat) returns (r: Allocation)
    requires FilledTo(table, 3840) && header > 0
    ensures r == NullPool <==> 3840 < size + header <= MAX_ALLOC_SIZE
    ensures r.Pooled? ==> BestFit(size + header, r.block)
    ensures r.Direct? ==> r.size == size + header > MAX_ALLOC_SIZE
  {
    var realAllocSize := size + header;
    if realAllocSize > MAX_ALLOC_SIZE {
      return Direct(realAllocSize);
    }
    r := if table[realAllocSize] == 0 then NullPool else Pooled(table[realAllocSize]);
  }
}
