/** The two-region circular buffer: region A holds the front of the contents, region B, once it is
    allocated at the start of the storage, holds what was appended after A could not grow. */
module CircularBuffer {

  type Byte = bv8

  function Min(a: nat, b: nat): nat {
    if a < b then a else b
  }

  /** Taking `a` bytes off a front region and `b` off a back one, and none off the back one while
      some of the front one is left, drops `a + b` bytes of the whole. */
  lemma DropFront(s: seq<Byte>, f: nat, f': nat, b: nat, b': nat, x: nat, y: nat)
    requires f + x <= f' <= |s| && b + y <= b' <= |s| && (y > 0 ==> f + x == f')
    ensures s[f + x..f'] + s[b + y..b'] == (s[f..f'] + s[b..b'])[x + y..]
  {
  }

  /** Offsets into `storage` stand for the source's pointers; `bLive` is mBRegionPointer != nullptr. */
  class Buffer {
    const storage: array<Byte>
    var aStart: nat
    var aSize: nat
    var bLive: bool
    var bStart: nat
    var bSize: nat

    ghost predicate Valid()
      reads this
    {
      && aStart + aSize <= storage.Length
      && (bLive ==> bStart == 0 && aSize > 0 && bSize <= aStart)
      && (!bLive ==> bSize == bStart == 0)
      && (aSize == 0 ==> aStart == 0)
    }

    /** The bytes stored, oldest first. */
    ghost function Contents(): seq<Byte>
      reads this, storage
      requires Valid()
    {
      storage[aStart..aStart + aSize] + if bLive then storage[..bSize] else []
    }

    constructor (capacity: nat)
      ensures Valid() && fresh(storage) && storage.Length == capacity && Contents() == []
    {
      storage := new Byte[capacity];
      aStart, aSize, bLive, bStart, bSize := 0, 0, false, 0, 0;
    }

    method GetStoredSize() returns (n: nat)
      requires Valid()
      ensures n == |Contents()|
    {
      n := aSize + bSize;
    }

    /** Zero exactly when nothing is stored; the bytes from GetBufferStart on are the front. */
    method GetContiguousBytes() returns (n: nat)
      requires Valid()
      ensures n == aSize && (n == 0 <==> Contents() == [])
      ensures n <= |Contents()| && storage[aStart..aStart + n] == Contents()[..n]
    {
      n := if aSize > 0 then aSize else bSize;
    }

    /** The longest piece that can be appended: behind B once B is open, else the larger of the
        space behind A and the space before A. */
    ghost function FreeSpace(): nat
      reads this
      requires Valid()
    {
      if bLive then aStart - bSize
      else if storage.Length - aStart - aSize < aStart then aStart
      else storage.Length - aStart - aSize
    }

    /** Reports the free space; opens region B when that is where the space is. */
    method GetFreeSpaceSize() returns (n: nat)
      requires Valid()
      modifies this`bLive, this`bStart
      ensures Valid() && Contents() == old(Contents())
      ensures n == old(FreeSpace()) == FreeSpace() == Room()
      ensures old(bLive) ==> n == aStart - bSize
      ensures !old(bLive) ==> n >= aStart && n >= storage.Length - aStart - aSize
      ensures n + |Contents()| <= storage.Length && (Contents() == [] ==> n == storage.Length)
    {
      if bLive {
        n := aStart - bStart - bSize;
      } else if storage.Length - aStart - aSize < aStart {
        bLive, bStart := true, 0;
        n := aStart - bStart - bSize;
      } else {
        n := storage.Length - aStart - aSize;
      }
    }

    /** The room at the current append position. */
    function Room(): nat
      reads this
      requires Valid()
    {
      if bLive then aStart - bSize else storage.Length - aStart - aSize
    }

    method Copy(tail: nat, data: seq<Byte>)
      requires tail + |data| <= storage.Length
      modifies storage
      ensures storage[tail..tail + |data|] == data
      ensures forall i :: 0 <= i < storage.Length && !(tail <= i < tail + |data|) ==> storage[i] == old(storage[i])
    {
      forall i | 0 <= i < |data| {
        storage[tail + i] := data[i];
      }
    }

    method AppendToA(data: seq<Byte>)
      requires Valid() && |data| <= Room() && !bLive
      modifies this`aSize, storage
      ensures Valid() && aSize == old(aSize) + |data|
      ensures storage[aStart..aStart + aSize] == old(storage[aStart..aStart + aSize]) + data
    {
      Copy(aStart + aSize, data);
      aSize := aSize + |data|;
    }

    method AppendToB(data: seq<Byte>)
      requires Valid() && |data| <= Room() && bLive
      modifies this`bSize, storage
      ensures Valid() && bSize == old(bSize) + |data|
      ensures storage[..bSize] == old(storage[..bSize]) + data
      ensures storage[aStart..aStart + aSize] == old(storage[aStart..aStart + aSize])
    {
      Copy(bSize, data);
      bSize := bSize + |data|;
    }

    /** memcpy to GetBuffer() followed by Commit; region A keeps its place. */
    method Append(data: seq<Byte>)
      requires Valid() && |data| <= Room()
      modifies this`aSize, this`bSize, storage
      ensures Valid() && Contents() == old(Contents()) + data
      ensures old(aSize) <= aSize
    {
      if bLive {
        AppendToB(data);
      } else {
        AppendToA(data);
      }
    }

    /** The check, copy and commit of PostSend: all of `data` is appended if it fits in one piece. */
    method TryAppend(data: seq<Byte>) returns (ok: bool)
      requires Valid()
      modifies this, storage
      ensures Valid() && aStart == old(aStart) && old(aSize) <= aSize
      ensures ok <==> |data| <= old(FreeSpace())
      ensures Contents() == if ok then old(Contents()) + data else old(Contents())
    {
      var room := GetFreeSpaceSize();
      ok := |data| <= room;
      if ok {
        Append(data);
      }
    }

    /** Region A followed by region B wherever B starts: the contents in the middle of Remove. */
    ghost function Regions(): seq<Byte>
      reads this, storage
      requires aStart + aSize <= storage.Length && bStart + bSize <= storage.Length
    {
      storage[aStart..aStart + aSize] + storage[bStart..bStart + bSize]
    }

    method MoveToStart(from: nat, size: nat)
      requires from + size <= storage.Length
      modifies storage
      ensures storage[..size] == old(storage[from..from + size])
    {
      forall i | 0 <= i < size {
        storage[i] := storage[from + i];
      }
    }

    /** When A is empty, B moves to the start of the storage and becomes A. */
    method PromoteB()
      requires aStart + aSize <= storage.Length && bStart + bSize <= storage.Length
      requires aSize > 0 ==> Valid()
      modifies this, storage
      ensures Valid() && Contents() == old(Regions())
    {
      if aSize == 0 {
        if bSize > 0 {
          if bStart != 0 {
            MoveToStart(bStart, bSize);
          }
          aStart, aSize := 0, bSize;
        } else {
          aStart, aSize := 0, 0;
        }
        bLive, bStart, bSize := false, 0, 0;
      }
    }

    /** Takes up to `len` bytes off A, then off B. */
    method Shrink(len: nat)
      requires Valid()
      modifies this`aStart, this`aSize, this`bStart, this`bSize
      ensures var a := Min(len, old(aSize));
        var b := Min(len - a, old(bSize));
        && aStart == old(aStart) + a && aSize == old(aSize) - a
        && bStart == old(bStart) + b && bSize == old(bSize) - b
    {
      var cnt := len;
      if aSize > 0 {
        var aRemove := Min(cnt, aSize);
        aSize, aStart := aSize - aRemove, aStart + aRemove;
        cnt := cnt - aRemove;
      }
      if cnt > 0 && bSize > 0 {
        var bRemove := Min(cnt, bSize);
        bSize, bStart := bSize - bRemove, bStart + bRemove;
        cnt := cnt - bRemove;
      }
    }

    /** The part of Remove before region B moves. */
    method Drop(len: nat)
      requires Valid()
      modifies this`aStart, this`aSize, this`bStart, this`bSize
      ensures aStart + aSize <= storage.Length && bStart + bSize <= storage.Length && (aSize > 0 ==> Valid())
      ensures Regions() == old(Contents())[Min(len, |old(Contents())|)..]
    {
      ghost var a := Min(len, aSize);
      ghost var b := Min(len - a, bSize);
      DropFront(storage[..], aStart, aStart + aSize, bStart, bStart + bSize, a, b);
      assert Contents() == Regions();
      Shrink(len);
    }

    /** Drops `len` bytes from the front, or all of them when fewer are stored. */
    method Remove(len: nat)
      requires Valid()
      modifies this, storage
      ensures Valid() && Contents() == old(Contents())[Min(len, |old(Contents())|)..]
    {
      Drop(len);
      PromoteB();
    }
  }
}
