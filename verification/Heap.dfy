/**
 The bump heap both interpreters allocate from: addresses only grow, every block is
 rounded up to a multiple of eight, and the limit is checked before rounding.
 */
module Heap {

  const MEM_SZ: nat := 0x4000_0000

  function Round8(n: nat): (r: nat)
    ensures n <= r < n + 8 && r % 8 == 0
  {
    var diff := 8 - n % 8;
    if diff != 8 then n + diff else n
  }

  // Whether a request still fits, by the check the allocator makes.
  predicate Fits(used: nat, size: nat) { used + size <= MEM_SZ }

  // Bytes in use after a request.
  function After(used: nat, size: nat): nat { Round8(used + size) }

  // A request fits up to the very last byte; the room it takes is the least multiple of
  // eight that holds it.
  lemma Rounding(used: nat, size: nat)
    ensures Fits(used, size) <==> used + size <= 0x4000_0000
    ensures After(used, size) % 8 == 0 && used + size <= After(used, size)
    ensures forall n :: n % 8 == 0 && used + size <= n ==> After(used, size) <= n
  {
  }

  // Sizes of the value structures, in bytes.
  const INTEGER_SZ: nat := 8
  const BOOLEAN_SZ: nat := 2
  const NULL_SZ: nat := 1
  const FUNCTION_SZ: nat := 16
  function ArraySize(n: nat): nat { 16 + 8 * n }
  function ObjectSize(n: nat): nat { 24 + 24 * n }

  datatype Block = Block(at: nat, size: nat)

  predicate Disjoint(a: Block, b: Block) {
    a.at + a.size <= b.at || b.at + b.size <= a.at
  }

  // What memory holds in a block, whatever a byte is.
  function Held<Byte>(memory: seq<Byte>, b: Block): (bytes: seq<Byte>)
    requires b.at + b.size <= |memory|
    ensures |bytes| == b.size
  {
    memory[b.at..b.at + b.size]
  }

  // Writing inside one block changes no block apart from it.
  lemma HeldStill<Byte>(memory: seq<Byte>, after: seq<Byte>, a: Block, b: Block)
    requires |after| == |memory| && a.at + a.size <= |memory| && Disjoint(a, b)
    requires forall k :: 0 <= k < |memory| && !(b.at <= k < b.at + b.size) ==> after[k] == memory[k]
    ensures Held(after, a) == Held(memory, a)
  {
    forall i | 0 <= i < a.size ensures Held(after, a)[i] == Held(memory, a)[i] {
      assert after[a.at + i] == memory[a.at + i];
    }
  }

  // Blocks are aligned, lie between two addresses, and no two overlap.
  ghost predicate Placed(blocks: seq<Block>, start: nat, free: nat) {
    && (forall i :: 0 <= i < |blocks| ==> start <= blocks[i].at && blocks[i].at % 8 == 0)
    && (forall i :: 0 <= i < |blocks| ==> blocks[i].at + blocks[i].size <= free)
    && (forall i, j :: 0 <= i < j < |blocks| ==> Disjoint(blocks[i], blocks[j]))
  }

  // One more block behind all of them.
  lemma PlacesOne(blocks: seq<Block>, start: nat, used: nat, size: nat, free: nat)
    requires Placed(blocks, start, start + used) && start % 8 == 0 && used % 8 == 0 && start + used + size <= free
    ensures Placed(blocks + [Block(start + used, size)], start, free)
  {
  }

  class Heap {
    var heapFree: nat
    var heapSize: nat
    const heapStart: nat
    ghost var blocks: seq<Block>

    // Every block handed out so far is aligned, lies below the free pointer and the
    // limit, and no two overlap.
    ghost predicate Valid()
      reads this
    {
      && heapStart % 8 == 0 && heapSize == heapFree - heapStart && heapSize % 8 == 0 && heapSize <= MEM_SZ
      && Placed(blocks, heapStart, heapFree)
    }

    constructor (start: nat)
      requires start % 8 == 0
      ensures Valid() && heapStart == start && heapSize == 0 && blocks == []
    {
      heapStart, heapFree, heapSize, blocks := start, start, 0, [];
    }

    // A block for the request, or nothing when the heap is full.
    method Alloc(size: nat) returns (ok: bool, at: nat)
      requires Valid()
      modifies this
      ensures Valid() && ok == Fits(old(heapSize), size)
      ensures if ok then heapSize == After(old(heapSize), size) && blocks == old(blocks) + [Block(at, size)]
              else heapSize == old(heapSize) && blocks == old(blocks)
    {
      hide Placed;
      if heapSize + size > MEM_SZ {
        return false, 0;
      }
      ok, at := true, heapFree;
      heapFree := heapFree + size;
      heapSize := heapSize + size;
      var diff := 8 - heapSize % 8;
      if diff != 8 {
        heapFree := heapFree + diff;
        heapSize := heapSize + diff;
      }
      PlacesOne(blocks, heapStart, old(heapSize), size, heapFree);
      blocks := blocks + [Block(at, size)];
    }

    // A new value: room for it is taken and its bytes are written there. Every value made
    // before is as it was.
    method Construct<Byte>(memory: array<Byte>, data: seq<Byte>) returns (ok: bool, at: nat)
      requires Valid() && heapStart + MEM_SZ <= memory.Length
      modifies this, memory
      ensures Valid() && ok == Fits(old(heapSize), |data|)
      ensures if ok then heapSize == After(old(heapSize), |data|) && blocks == old(blocks) + [Block(at, |data|)]
                         && at + |data| <= memory.Length && Held(memory[..], Block(at, |data|)) == data
              else heapSize == old(heapSize) && blocks == old(blocks)
      ensures forall i :: 0 <= i < |old(blocks)| ==>
                Held(memory[..], old(blocks)[i]) == Held(old(memory[..]), old(blocks)[i])
    {
      ghost var was, before := memory[..], blocks;
      ok, at := Alloc(|data|);
      if ok {
        assert blocks[|before|] == Block(at, |data|) && at + |data| <= heapFree <= memory.Length;
        var i := 0;
        while i < |data|
          modifies memory
          invariant 0 <= i <= |data|
          invariant forall k :: 0 <= k < memory.Length ==>
                      memory[k] == if at <= k < at + i then data[k - at] else was[k]
        {
          memory[at + i] := data[i];
          i := i + 1;
        }
        forall j | 0 <= j < |before| ensures Held(memory[..], before[j]) == Held(was, before[j]) {
          assert blocks[j] == before[j] && blocks[|before|] == Block(at, |data|);
          HeldStill(was, memory[..], before[j], Block(at, |data|));
        }
      }
    }
  }

  // ------------------------------------------------------- allocation sequences

  // Bytes in use after a run of requests, refused ones included.
  function Usage(used: nat, sizes: seq<nat>): nat
    decreases |sizes|
  {
    if sizes == [] then used
    else Usage(if Fits(used, sizes[0]) then After(used, sizes[0]) else used, sizes[1..])
  }

  // Rounding up past the check never exceeds the limit, over any run of requests.
  lemma {:induction false} UsageBounded(used: nat, sizes: seq<nat>)
    requires used % 8 == 0 && used <= MEM_SZ
    ensures used <= Usage(used, sizes) <= MEM_SZ && Usage(used, sizes) % 8 == 0
    decreases |sizes|
  {
    if sizes != [] {
      UsageBounded(if Fits(used, sizes[0]) then After(used, sizes[0]) else used, sizes[1..]);
    }
  }
}
