/**
 The arena: allocation from a chain of ever larger chunks, with positions that can be
 saved and restored like a stack.
 */
module ArenaSpec {

  // A chunk and how much of it is used, header included.
  datatype Chunk = Chunk(size: nat, pos: nat)

  // The chain, the current chunk last. The first one is the empty sentinel.
  type Arena = seq<Chunk>

  const HEADER_SZ: nat := 24
  const FIRST_SZ: nat := 1024
  const INIT: Arena := [Chunk(0, 0)]

  function Align(pos: nat): (r: nat)
    ensures pos <= r < pos + 8 && r % 8 == 0
  {
    (pos + 7) / 8 * 8
  }

  lemma Nearest(pos: nat)
    ensures pos <= Align(pos) && Align(pos) % 8 == 0 && forall at :: at % 8 == 0 && pos <= at ==> Align(pos) <= at
  {
  }

  // Every chunk but the sentinel has room for its header.
  predicate Valid(a: Arena) {
    && |a| > 0 && a[0] == Chunk(0, 0)
    && forall i :: 0 <= i < |a| ==> a[i].pos <= a[i].size && (i > 0 ==> a[i].size >= FIRST_SZ)
  }

  function Current(a: Arena): Chunk
    requires |a| > 0
  {
    a[|a| - 1]
  }

  // Sizes of the chunks below the current one.
  function Below(a: Arena): nat
    requires |a| > 0
  {
    if |a| == 1 then 0 else Below(a[..|a| - 1]) + a[|a| - 2].size
  }

  // A block is known by its chunk and the offset in it.
  datatype Block = Block(chunk: nat, at: nat, size: nat)

  predicate Grows(a: Arena, size: nat)
    requires |a| > 0
  {
    Align(Current(a).pos) + size > Current(a).size
  }

  function GrownSize(a: Arena, size: nat): nat
    requires |a| > 0
  {
    size + if Current(a).size > 0 then 2 * Current(a).size else FIRST_SZ
  }

  function WithPos(a: Arena, pos: nat): (b: Arena)
    requires |a| > 0
    ensures |b| == |a|
  {
    a[|a| - 1 := Current(a).(pos := pos)]
  }

  // `b` has the chunks of `a`, the current one possibly used further, and perhaps more.
  predicate Extends(a: Arena, b: Arena)
    requires |a| > 0
  {
    && Valid(b) && |a| <= |b| && b[..|a| - 1] == a[..|a| - 1] && b[|a| - 1].size == Current(a).size
  }

  // The block lies at the end of the current chunk, behind what was used of it, or behind
  // the header of a new chunk with room for both.
  function Alloc(a: Arena, size: nat): (r: (Arena, Block))
    requires Valid(a)
    ensures Extends(a, r.0)
    ensures var (b, block) := r;
            && block.chunk == |b| - 1 && block.size == size && block.at % 8 == 0
            && block.at + size == Current(b).pos <= Current(b).size
            && (if |b| == |a| then Current(a).pos <= block.at < Current(a).pos + 8
                else |b| == |a| + 1 && HEADER_SZ <= block.at < HEADER_SZ + 8)
    ensures var fits := exists at :: at % 8 == 0 && Current(a).pos <= at && at + size <= Current(a).size;
            if fits then |r.0| == |a|
            else |r.0| == |a| + 1 && Current(r.0).size == size + if |a| > 1 then 2 * Current(a).size else FIRST_SZ
  {
    Nearest(Current(a).pos);
    if Grows(a, size) then
      var pos := Align(HEADER_SZ);
      (a + [Chunk(GrownSize(a, size), pos + size)], Block(|a|, pos, size))
    else
      var pos := Align(Current(a).pos);
      (WithPos(a, pos + size), Block(|a| - 1, pos, size))
  }

  function Save(a: Arena): nat
    requires |a| > 0
  {
    Below(a) + Current(a).pos
  }

  // Chunks are freed while the position lies below the current one.
  function Restore(a: Arena, pos: nat): (b: Arena)
    requires |a| > 0
    ensures 0 < |b| <= |a|
    decreases |a|
  {
    if pos < Below(a) then Restore(a[..|a| - 1], pos) else WithPos(a, pos - Below(a))
  }

  function Destroy(a: Arena): Arena
    requires |a| > 0
  {
    var b := Restore(a, 0);
    if |b| > 1 then INIT else b
  }

  // ---------------------------------------------------------- growth of the chain

  lemma ExtendsOn(a: Arena, b: Arena, c: Arena)
    requires |a| > 0 && |b| > 0 && Extends(a, b) && Extends(b, c)
    ensures Extends(a, c)
  {
    assert a[..|a| - 1] == b[..|a| - 1] == c[..|a| - 1] by {
      forall i | 0 <= i < |a| - 1 ensures c[i] == b[i] { assert c[i] == c[..|b| - 1][i]; }
    }
    if |a| < |b| { assert c[|a| - 1] == c[..|b| - 1][|a| - 1]; }
  }

  // The sum of sizes depends on the chunks below only, and grows with each of them.
  lemma {:induction false} BelowPrefix(a: Arena, b: Arena)
    requires 0 < |a| == |b| && a[..|a| - 1] == b[..|b| - 1]
    ensures Below(a) == Below(b)
  {
    if |a| > 1 {
      var a', b' := a[..|a| - 1], b[..|b| - 1];
      assert a' == b' && a[|a| - 2] == a'[|a| - 2];
    }
  }

  lemma {:induction false} BelowGrows(a: Arena, b: Arena)
    requires |a| > 0 && Extends(a, b) && |a| < |b|
    ensures Below(b) >= Below(a) + Current(a).size
    ensures |b| > |a| + 1 ==> Below(b) > Below(a) + Current(a).size
    ensures |b| == |a| + 1 ==> Below(b) == Below(a) + Current(a).size
    decreases |b|
  {
    var b' := b[..|b| - 1];
    if |b| == |a| + 1 {
      BelowPrefix(a, b');
    } else {
      assert Extends(a, b');
      BelowGrows(a, b');
    }
  }

  // Restoring after growth: exactly the saved chain, unless the saved chunk was full and
  // chunks were added. Then the first added chunk stays, with nothing of it in use.
  lemma {:induction false} RestoreAfter(a: Arena, b: Arena)
    requires Valid(a) && Extends(a, b)
    ensures Restore(b, Save(a))
         == if Current(a).pos < Current(a).size || |b| == |a| then a else b[..|a|] + [b[|a|].(pos := 0)]
    ensures Extends(a, Restore(b, Save(a)))
    decreases |b|
  {
    if |b| == |a| {
      BelowPrefix(a, b);
      assert WithPos(b, Current(a).pos) == a;
    } else {
      BelowGrows(a, b);
      var b' := b[..|b| - 1];
      if |b| > |a| + 1 || Current(a).pos < Current(a).size {
        assert Extends(a, b');
        RestoreAfter(a, b');
        if |b| > |a| + 1 { assert b'[..|a|] + [b'[|a|].(pos := 0)] == b[..|a|] + [b[|a|].(pos := 0)]; }
      } else {
        assert WithPos(b, 0) == b[..|a|] + [b[|a|].(pos := 0)];
      }
    }
  }

  // ------------------------------------------------------------ nested uses

  // What is done with an arena: allocations, and saves with what happens up to their
  // restores.
  datatype Use = Take(size: nat) | Scope(body: seq<Use>)

  function Run(a: Arena, uses: seq<Use>): (b: Arena)
    requires Valid(a)
    ensures Extends(a, b)
    decreases uses
  {
    if uses == [] then a
    else
      var next := Step(a, uses[0]);
      ExtendsOn(a, next, Run(next, uses[1..]));
      Run(next, uses[1..])
  }

  function Step(a: Arena, use: Use): (b: Arena)
    requires Valid(a)
    ensures Extends(a, b)
    decreases use
  {
    match use
    case Take(size) => Alloc(a, size).0
    case Scope(body) =>
      RestoreAfter(a, Run(a, body));
      Restore(Run(a, body), Save(a))
  }

  predicate Exact(a: Arena, body: seq<Use>)
    requires Valid(a)
  {
    Current(a).pos < Current(a).size || |Run(a, body)| == |a|
  }

  // The stack principle: after any nested uses, restoring gives back the saved chain,
  // position and sum of sizes exactly when the saved chunk was not full (the sentinel
  // always is) or no chunk was added since.
  lemma StackPrinciple(a: Arena, uses: seq<Use>)
    requires Valid(a)
    ensures Restore(Run(a, uses), Save(a)) == a <==> Exact(a, uses)
  {
    RestoreAfter(a, Run(a, uses));
  }

  // ----------------------------------------------------------------- live blocks

  // The blocks still live after some uses: those of a scope are given up with it.
  function Live(a: Arena, live: seq<Block>, uses: seq<Use>): seq<Block>
    requires Valid(a)
    decreases uses
  {
    if uses == [] then live
    else
      var more := if uses[0].Take? then live + [Alloc(a, uses[0].size).1] else live;
      Live(Step(a, uses[0]), more, uses[1..])
  }

  predicate Apart(b: Block, c: Block) {
    b.chunk != c.chunk || b.at + b.size <= c.at || c.at + c.size <= b.at
  }

  // A block is aligned, behind the header of its chunk and in the part in use.
  predicate Inside(a: Arena, b: Block) {
    b.chunk < |a| && b.at % 8 == 0 && (b.chunk > 0 ==> HEADER_SZ <= b.at) && b.at + b.size <= a[b.chunk].pos
  }

  predicate Sound(a: Arena, live: seq<Block>) {
    && Valid(a) && (forall i :: 0 < i < |a| ==> HEADER_SZ <= a[i].pos)
    && (forall i :: 0 <= i < |live| ==> Inside(a, live[i]))
    && (forall i, j :: 0 <= i < j < |live| ==> Apart(live[i], live[j]))
  }

  // Every restore on the way is exact.
  predicate Careful(a: Arena, uses: seq<Use>)
    requires Valid(a)
    decreases uses
  {
    uses == [] || (CarefulUse(a, uses[0]) && Careful(Step(a, uses[0]), uses[1..]))
  }

  predicate CarefulUse(a: Arena, use: Use)
    requires Valid(a)
    decreases use
  {
    use.Scope? ==> Exact(a, use.body) && Careful(a, use.body)
  }

  lemma AllocSound(a: Arena, live: seq<Block>, size: nat)
    requires Sound(a, live)
    ensures Sound(Alloc(a, size).0, live + [Alloc(a, size).1])
  {
    var (b, block) := Alloc(a, size);
    forall i | 0 <= i < |live| ensures Inside(b, live[i]) && Apart(live[i], block) {
      assert Inside(a, live[i]);
    }
  }

  // While every restore is exact, live blocks are aligned, inside their chunks, clear of
  // all headers and of each other.
  lemma {:induction false} BlocksStaySound(a: Arena, live: seq<Block>, uses: seq<Use>)
    requires Sound(a, live) && Careful(a, uses)
    ensures Sound(Run(a, uses), Live(a, live, uses))
    decreases uses
  {
    if uses != [] {
      match uses[0] {
        case Take(size) =>
          AllocSound(a, live, size);
          BlocksStaySound(Alloc(a, size).0, live + [Alloc(a, size).1], uses[1..]);
        case Scope(body) =>
          StackPrinciple(a, body);
          BlocksStaySound(a, live, uses[1..]);
      }
    }
  }

  // A restore that is not exact puts the next block on the header of its chunk.
  lemma HeaderOverwritten(a: Arena, uses: seq<Use>, size: nat)
    requires Valid(a) && !Exact(a, uses)
    ensures var b := Restore(Run(a, uses), Save(a));
            Valid(b) && Current(b).pos == 0 && |b| == |a| + 1
            && (size <= Current(b).size ==> Alloc(b, size).1 == Block(|a|, 0, size))
  {
    RestoreAfter(a, Run(a, uses));
  }

  // Whether anything of positive size is allocated, in a scope or not.
  predicate Allocates(uses: seq<Use>)
    decreases uses
  {
    uses != [] && (AllocatesUse(uses[0]) || Allocates(uses[1..]))
  }

  predicate AllocatesUse(use: Use)
    decreases use
  {
    match use
    case Take(size) => size > 0
    case Scope(body) => Allocates(body)
  }

  // It happens to every save taken before the first allocation, unless nothing is
  // allocated up to the restore either.
  lemma {:induction false} EmptyArenaIsFull(uses: seq<Use>)
    ensures Exact(INIT, uses) <==> !Allocates(uses)
    ensures !Allocates(uses) ==> Run(INIT, uses) == INIT
    decreases uses
  {
    if uses != [] {
      var next := Step(INIT, uses[0]);
      match uses[0] {
        case Take(size) =>
        case Scope(body) =>
          EmptyArenaIsFull(body);
          RestoreAfter(INIT, Run(INIT, body));
      }
      if next == INIT {
        EmptyArenaIsFull(uses[1..]);
      } else {
        assert Extends(next, Run(next, uses[1..]));
      }
    }
  }

  // Destroying frees every chunk, whatever was done before.
  lemma {:induction false} DestroyEmpties(a: Arena)
    requires Valid(a)
    ensures Destroy(a) == INIT && |Restore(a, 0)| <= 2
    decreases |a|
  {
    if |a| == 1 {
    } else if |a| == 2 {
      assert Below(a) == 0;
    } else {
      var a' := a[..|a| - 1];
      assert Valid(a') && Below(a) >= a[|a| - 2].size > 0;
      DestroyEmpties(a');
    }
  }

  lemma {:induction false} RestoreZero(a: Arena)
    requires Valid(a)
    ensures Valid(Restore(a, 0)) && Below(Restore(a, 0)) == 0
    decreases |a|
  {
    if |a| > 2 { RestoreZero(a[..|a| - 1]); }
  }
}
