/** The object pool behind `new` and `delete` of contexts and sessions: chunks of slots threaded into
    a free list through their first word. The loop that threads a fresh chunk stops one short, so the
    last word keeps whatever the memory held. */
module ObjectPool {
  import Ownership

  const ALLOC_COUNT: nat := Ownership.ALLOC_COUNT

  /** A pointer-sized word: null, the address of a slot, or uninitialised memory read as a pointer. */
  datatype Link = Null | Slot(addr: nat) | Wild

  /** The loop over a fresh chunk at `base`: each slot links to the next, and the last is not written. */
  method ThreadChunk(words: map<nat, Link>, base: nat, garbage: Link) returns (w: map<nat, Link>)
    ensures forall k: nat :: base <= k < base + ALLOC_COUNT ==>
              k in w && w[k] == if k + 1 < base + ALLOC_COUNT then Slot(k + 1) else garbage
  {
    var last := base + ALLOC_COUNT - 1;
    w := words[last := garbage];
    for i := 0 to ALLOC_COUNT - 1
      invariant last in w && w[last] == garbage
      invariant forall k: nat :: base <= k < base + i ==> k in w && w[k] == Slot(k + 1)
    {
      w := w[base + i := Slot(base + i + 1)];
    }
  }

  /** `words` is the first word of every slot allocated so far; slots are numbered in the order their
      chunks were allocated. The ghost fields are the slots handed out, the free slots in list order,
      and what the last link of the list reads as. */
  class Pool {
    var freeList: Link
    var words: map<nat, Link>
    var totalAllocCount: nat
    var currentUseCount: int
    ghost var used: set<nat>
    ghost var free: seq<nat>
    ghost var tail: Link
    ghost var built: nat
    ghost var deleted: nat

    /** The pool as the ownership protocol sees it. */
    ghost function View(): Ownership.Pool
      reads this
    {
      Ownership.Pool(built, deleted, currentUseCount, totalAllocCount, tail == Wild)
    }

    /** The list holds each free slot once and ends in `tail`; every slot is free or used, not both. */
    ghost predicate Valid()
      reads this
    {
      && !tail.Slot?
      && Apart(free, used, totalAllocCount)
      && freeList == Head(free, tail)
      && Linked(words, free, tail)
      && currentUseCount == |used| && totalAllocCount == |used| + |free|
    }

    constructor ()
      ensures Valid() && used == {} && totalAllocCount == 0 && tail == Null && View() == Ownership.EMPTY_POOL
    {
      freeList, words, totalAllocCount, currentUseCount := Null, map[], 0, 0;
      used, free, tail, built, deleted := {}, [], Null, 0, 0;
    }

    /** Allocates and threads a chunk whose last word happens to read as `garbage`. */
    method AddChunk(garbage: Link)
      requires Valid() && freeList == Null && !garbage.Slot?
      modifies this
      ensures Valid() && used == old(used) && tail == garbage && built == old(built) && deleted == old(deleted)
      ensures totalAllocCount == old(totalAllocCount) + ALLOC_COUNT && |free| == ALLOC_COUNT
    {
      var base := totalAllocCount;
      words := ThreadChunk(words, base, garbage);
      freeList := Slot(base);
      totalAllocCount := totalAllocCount + ALLOC_COUNT;
      free := seq(ALLOC_COUNT, i => base + i);
      tail := garbage;
    }

    /** operator new. A slot comes back, and one that is not in use, if and only if a free slot is left
        or the list ends in a real null; otherwise the wild last link is handed out as an object. */
    method New(garbage: Link) returns (r: Link)
      requires Valid() && !garbage.Slot?
      modifies this
      ensures r.Slot? <==> !Ownership.Exhausted(old(View()))
      ensures r.Slot? ==> Valid() && r.addr !in old(used) && used == old(used) + {r.addr}
      ensures r.Slot? ==> View() == Ownership.Allocated(old(View()), garbage == Wild)
      ensures if old(freeList == Null) then totalAllocCount == old(totalAllocCount) + ALLOC_COUNT && tail == garbage
              else totalAllocCount == old(totalAllocCount) && tail == old(tail)
      ensures !r.Slot? ==> r == Wild
    {
      if freeList.Null? {
        AddChunk(garbage);
      }
      r := freeList;
      if r.Wild? {
        return;
      }
      LinkedRest(words, free, tail);
      ApartTake(free, used, totalAllocCount);
      freeList := words[r.addr];
      currentUseCount := currentUseCount + 1;
      used, built := used + {r.addr}, built + 1;
      free := free[1..];
    }

    /** operator delete of an object that came from the pool: its assertion holds, and the slot goes to
        the head of the list. */
    method Delete(obj: nat)
      requires Valid() && obj in used
      modifies this
      ensures Valid() && old(currentUseCount) > 0 && used == old(used) - {obj} && tail == old(tail)
      ensures freeList == Slot(obj)
      ensures View() == old(View()).(deleted := old(deleted) + 1, inUse := old(currentUseCount) - 1)
    {
      ApartGive(free, used, totalAllocCount, obj);
      LinkedPush(words, free, tail, obj);
      currentUseCount := currentUseCount - 1;
      words := words[obj := freeList];
      freeList := Slot(obj);
      used, deleted := used - {obj}, deleted + 1;
      free := [obj] + free;
    }
  }

  /** The free slots are different, none is in use, and all slots are below `total`. */
  ghost predicate Apart(free: seq<nat>, used: set<nat>, total: nat) {
    && (forall i, j :: 0 <= i < j < |free| ==> free[i] != free[j])
    && (forall i :: 0 <= i < |free| ==> free[i] !in used && free[i] < total)
    && (forall a :: a in used ==> a < total)
  }

  lemma ApartTake(free: seq<nat>, used: set<nat>, total: nat)
    requires Apart(free, used, total) && free != []
    ensures Apart(free[1..], used + {free[0]}, total)
  {
  }

  lemma ApartGive(free: seq<nat>, used: set<nat>, total: nat, a: nat)
    requires Apart(free, used, total) && a in used
    ensures a !in free && Apart([a] + free, used - {a}, total)
  {
  }

  function Head(free: seq<nat>, tail: Link): Link {
    if free == [] then tail else Slot(free[0])
  }

  ghost predicate LinkAt(words: map<nat, Link>, free: seq<nat>, tail: Link, i: nat)
    requires i < |free|
  {
    free[i] in words && words[free[i]] == if i + 1 < |free| then Slot(free[i + 1]) else tail
  }

  /** The words of the free slots thread them in order and end in `tail`. */
  ghost predicate Linked(words: map<nat, Link>, free: seq<nat>, tail: Link) {
    forall i :: 0 <= i < |free| ==> LinkAt(words, free, tail, i)
  }

  lemma LinkedRest(words: map<nat, Link>, free: seq<nat>, tail: Link)
    requires Linked(words, free, tail) && free != []
    ensures Linked(words, free[1..], tail) && free[0] in words && words[free[0]] == Head(free[1..], tail)
  {
    assert LinkAt(words, free, tail, 0);
    forall i | 0 <= i < |free[1..]|
      ensures LinkAt(words, free[1..], tail, i)
    {
      assert LinkAt(words, free, tail, i + 1);
    }
  }

  lemma LinkedPush(words: map<nat, Link>, free: seq<nat>, tail: Link, a: nat)
    requires Linked(words, free, tail) && a !in free
    ensures Linked(words[a := Head(free, tail)], [a] + free, tail)
  {
    var w, f := words[a := Head(free, tail)], [a] + free;
    forall i | 0 <= i < |f|
      ensures LinkAt(w, f, tail, i)
    {
      if i > 0 {
        assert LinkAt(words, free, tail, i - 1);
      }
    }
  }

  // ----- every sequence of allocations and frees -----

  /** Release gives back any of the objects in use. */
  datatype Op = Allocate | Release(which: nat)

  /** How many objects are in use after one more operation; releasing with none in use is no operation. */
  function Next(inUse: nat, op: Op): nat {
    if op == Allocate then inUse + 1 else if inUse > 0 then inUse - 1 else 0
  }

  /** No prefix of `ops` leaves more than `limit` objects in use. */
  predicate NeverAbove(ops: seq<Op>, inUse: nat, limit: nat)
    decreases |ops|
  {
    inUse <= limit && (ops != [] ==> NeverAbove(ops[1..], Next(inUse, ops[0]), limit))
  }

  /** Only the last of `chunks` chunks may be wild. */
  ghost predicate NoneWildBefore(chunks: nat, wild: nat -> bool) {
    forall k: nat :: wild(k) ==> chunks <= k + 1
  }

  lemma {:induction false} NeverAboveNow(ops: seq<Op>, i: nat, inUse: nat, limit: nat)
    requires i < |ops| && inUse <= limit
    ensures NeverAbove(ops[i..], inUse, limit) <==> NeverAbove(ops[i + 1..], Next(inUse, ops[i]), limit)
  {
    assert ops[i..][0] == ops[i] && ops[i..][1..] == ops[i + 1..];
  }

  /** What is still to be done decides: with limit 100 * (k + 1) for every wild chunk k, `ops` is served
      if and only if the operations from `i` on are. */
  ghost predicate Decides(ops: seq<Op>, i: nat, inUse: nat, wild: nat -> bool)
    requires i <= |ops|
  {
    forall k: nat :: wild(k) ==>
      (NeverAbove(ops, 0, ALLOC_COUNT * (k + 1)) <==> NeverAbove(ops[i..], inUse, ALLOC_COUNT * (k + 1)))
  }

  lemma {:induction false} DecidesNext(ops: seq<Op>, i: nat, inUse: nat, wild: nat -> bool, chunks: nat)
    requires i < |ops| && Decides(ops, i, inUse, wild) && inUse <= ALLOC_COUNT * chunks
    requires NoneWildBefore(chunks, wild)
    ensures Decides(ops, i + 1, Next(inUse, ops[i]), wild)
  {
    forall k: nat | wild(k)
      ensures NeverAbove(ops, 0, ALLOC_COUNT * (k + 1)) <==>
              NeverAbove(ops[i + 1..], Next(inUse, ops[i]), ALLOC_COUNT * (k + 1))
    {
      NeverAboveNow(ops, i, inUse, ALLOC_COUNT * (k + 1));
    }
  }

  ghost predicate Served(ops: seq<Op>, wild: nat -> bool) {
    forall k: nat :: wild(k) ==> NeverAbove(ops, 0, 100 * (k + 1))
  }

  lemma {:induction false} NotServed(ops: seq<Op>, i: nat, inUse: nat, wild: nat -> bool, k: nat)
    requires i <= |ops| && Decides(ops, i, inUse, wild) && wild(k) && inUse > ALLOC_COUNT * (k + 1)
    ensures !Served(ops, wild)
  {
    assert !NeverAbove(ops[i..], inUse, ALLOC_COUNT * (k + 1));
  }

  lemma {:induction false} AllServed(ops: seq<Op>, inUse: nat, wild: nat -> bool, chunks: nat)
    requires Decides(ops, |ops|, inUse, wild) && inUse <= ALLOC_COUNT * chunks
    requires NoneWildBefore(chunks, wild)
    ensures Served(ops, wild)
  {
    forall k: nat | wild(k)
      ensures NeverAbove(ops, 0, ALLOC_COUNT * (k + 1))
    {
      assert ops[|ops|..] == [] && NeverAbove([], inUse, ALLOC_COUNT * (k + 1));
    }
  }

  /** `held` lists the slots in use, each once. */
  ghost predicate Holds(held: seq<nat>, used: set<nat>) {
    && |held| == |used| && (forall k :: 0 <= k < |held| ==> held[k] in used)
    && (forall j, k :: 0 <= j < k < |held| ==> held[j] != held[k])
  }

  lemma HoldsMore(held: seq<nat>, used: set<nat>, a: nat)
    requires Holds(held, used) && a !in used
    ensures Holds(held + [a], used + {a})
  {
  }

  lemma HoldsFewer(held: seq<nat>, used: set<nat>, k: nat)
    requires Holds(held, used) && k < |held|
    ensures Holds(held[k := held[|held| - 1]][..|held| - 1], used - {held[k]})
  {
  }

  /** The pool has `chunks` chunks, and its list ends as the last of them does. */
  ghost predicate Chunked(pool: Pool, chunks: nat, wild: nat -> bool)
    reads pool
  {
    && pool.Valid() && pool.totalAllocCount == ALLOC_COUNT * chunks && |pool.used| <= pool.totalAllocCount
    && pool.tail == if chunks > 0 && wild(chunks - 1) then Wild else Null
  }

  method AllocateOne(pool: Pool, chunks: nat, wild: nat -> bool, held: seq<nat>)
    returns (ok: bool, n: nat, more: seq<nat>)
    requires Chunked(pool, chunks, wild) && NoneWildBefore(chunks, wild) && Holds(held, pool.used)
    modifies pool
    ensures !ok <==> |held| == ALLOC_COUNT * chunks && chunks > 0 && wild(chunks - 1)
    ensures ok ==>
      Chunked(pool, n, wild) && NoneWildBefore(n, wild) && Holds(more, pool.used) && |more| == |held| + 1
  {
    n := if pool.freeList.Null? then chunks + 1 else chunks;
    ghost var used := pool.used;
    var r := pool.New(if wild(chunks) then Wild else Null);
    ok, more := r.Slot?, held;
    if ok {
      HoldsMore(held, used, r.addr);
      more := held + [r.addr];
    }
  }

  method ReleaseOne(pool: Pool, chunks: nat, wild: nat -> bool, held: seq<nat>, k: nat) returns (rest: seq<nat>)
    requires Chunked(pool, chunks, wild) && Holds(held, pool.used) && k < |held|
    modifies pool
    ensures Chunked(pool, chunks, wild) && Holds(rest, pool.used) && |rest| == |held| - 1
    ensures pool.used == old(pool.used) - {held[k]}
  {
    HoldsFewer(held, pool.used, k);
    pool.Delete(held[k]);
    rest := held[k := held[|held| - 1]][..|held| - 1];
  }

  /** Runs `ops` on a new pool; `wild(k)` says that the last word of the k-th chunk does not read as
      null. Every allocation gets a slot if and only if, for each wild chunk, no more objects are ever
      in use than fit in the chunks up to it: so the first wild chunk is the last. */
  method Serve(ops: seq<Op>, wild: nat -> bool) returns (ok: bool)
    ensures ok <==> Served(ops, wild)
  {
    var pool := new Pool();
    var held: seq<nat> := [];
    var chunks: nat := 0;
    assert ops[0..] == ops;
    for i := 0 to |ops|
      invariant Chunked(pool, chunks, wild) && fresh(pool) && Holds(held, pool.used)
      invariant NoneWildBefore(chunks, wild) && Decides(ops, i, |held|, wild)
    {
      DecidesNext(ops, i, |held|, wild, chunks);
      if ops[i] == Allocate {
        var served, n, more := AllocateOne(pool, chunks, wild, held);
        if !served {
          NotServed(ops, i + 1, |held| + 1, wild, chunks - 1);
          return false;
        }
        held, chunks := more, n;
      } else if |held| > 0 {
        held := ReleaseOne(pool, chunks, wild, held, ops[i].which % |held|);
      }
    }
    AllServed(ops, |held|, wild, chunks);
    ok := true;
  }
}
