/** The arena over linked chunks. */
module Arena {
  import S = ArenaSpec

  // The memory of a chunk begins with these fields.
  class ArenaChunk {
    const size: nat
    var pos: nat
    const prev: ArenaChunk?

    constructor (size: nat, pos: nat, prev: ArenaChunk?)
      ensures this.size == size && this.pos == pos && this.prev == prev
    {
      this.size, this.pos, this.prev := size, pos, prev;
    }
  }

  class Arena {
    const sentinel: ArenaChunk
    var current: ArenaChunk
    var prevSizeSum: nat
    ghost var chain: seq<ArenaChunk>

    // From the sentinel to the current chunk, each chunk linked to the one before.
    ghost predicate Linked()
      reads this, chain
    {
      && |chain| > 0 && chain[0] == sentinel && chain[|chain| - 1] == current
      && (forall i :: 0 < i < |chain| ==> chain[i].prev == chain[i - 1])
      && (forall i, j :: 0 <= i < j < |chain| ==> chain[i] != chain[j])
    }

    ghost function View(): (a: S.Arena)
      reads this, chain
      ensures |a| == |chain|
    {
      seq(|chain|, i requires 0 <= i < |chain| reads this, chain => S.Chunk(chain[i].size, chain[i].pos))
    }

    ghost predicate Valid()
      reads this, chain
    {
      Linked() && S.Valid(View()) && prevSizeSum == S.Below(View())
    }

    constructor ()
      ensures Valid() && fresh(chain) && View() == S.INIT
    {
      var chunk := new ArenaChunk(0, 0, null);
      sentinel, current, prevSizeSum, chain := chunk, chunk, 0, [chunk];
    }

    // A new current chunk, linked to the one it follows.
    method AddChunk(size: nat, pos: nat)
      requires Valid() && S.HEADER_SZ <= pos <= size && S.FIRST_SZ <= size
      modifies this
      ensures Valid() && fresh(current) && chain == old(chain) + [current]
      ensures View() == old(View()) + [S.Chunk(size, pos)]
    {
      ghost var view := View();
      prevSizeSum := prevSizeSum + current.size;
      current := new ArenaChunk(size, pos, current);
      chain := chain + [current];
      assert View() == view + [S.Chunk(size, pos)];
      assert View()[..|view|] == view;
    }

    method SetPos(pos: nat)
      requires Valid() && pos <= current.size && (current == sentinel ==> pos == 0)
      modifies current
      ensures Valid() && View() == S.WithPos(old(View()), pos)
    {
      ghost var view := View();
      current.pos := pos;
      assert View() == S.WithPos(view, pos);
      S.BelowPrefix(view, View());
    }

    method Alloc(size: nat) returns (chunk: ArenaChunk, at: nat)
      requires Valid()
      modifies this, chain
      ensures Valid() && fresh(set c | c in chain && c !in old(chain)) && chunk == chain[|chain| - 1]
      ensures (View(), S.Block(|chain| - 1, at, size)) == S.Alloc(old(View()), size)
    {
      hide Linked;
      at := S.Align(current.pos);
      Top();
      if at + size > current.size {
        at := S.Align(S.HEADER_SZ);
        AddChunk(size + (if current.size > 0 then 2 * current.size else S.FIRST_SZ), at + size);
      } else {
        SetPos(at + size);
      }
      chunk := current;
      Top();
    }

    lemma Top()
      requires Valid()
      ensures current in chain && current == chain[|chain| - 1]
      ensures S.Current(View()) == S.Chunk(current.size, current.pos)
      ensures current == sentinel ==> current.size == current.pos == 0
    {
    }

    method Save() returns (pos: nat)
      requires Valid()
      ensures pos == S.Save(View())
    {
      pos := prevSizeSum + current.pos;
    }

    // Frees the current chunk.
    method PopChunk()
      requires Valid() && |chain| > 1
      modifies this
      ensures Valid() && chain == old(chain[..|chain| - 1]) && View() == old(View()[..|chain| - 1])
    {
      ghost var view := View();
      current := current.prev;
      prevSizeSum := prevSizeSum - current.size;
      chain := chain[..|chain| - 1];
      assert View() == view[..|view| - 1];
    }

    // For positions that were saved before.
    method Restore(pos: nat)
      requires Valid() && S.Valid(S.Restore(View(), pos))
      modifies this, chain
      ensures Valid() && View() == S.Restore(old(View()), pos) && chain <= old(chain)
    {
      ghost var due := S.Restore(View(), pos);
      while pos < prevSizeSum
        invariant Valid() && chain <= old(chain) && due == S.Restore(View(), pos)
        decreases |chain|
      {
        PopChunk();
      }
      ghost var view := View();
      current.pos := pos - prevSizeSum;
      assert View() == S.WithPos(view, pos - prevSizeSum);
      S.BelowPrefix(view, View());
    }

    method Destroy()
      requires Valid()
      modifies this, chain
      ensures Valid() && View() == S.INIT
    {
      ghost var view := View();
      S.DestroyEmpties(view);
      S.RestoreZero(view);
      Restore(0);
      if current != sentinel {
        current := sentinel;
        chain := [sentinel];
        assert View() == S.INIT;
      }
    }
  }
}
