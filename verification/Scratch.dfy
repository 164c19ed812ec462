/**
 The growable scratch stack the parser collects lists on. Its memory is a buffer of
 8-byte words: a tree pointer takes one, a string (pointer and length) takes two.
 Growing moves the contents to a new buffer of twice the size.
 */
module Scratch {
  import opened Ast

  datatype Word = AstWord(ast: Ast) | StrWord(str: string) | LengthWord(length: nat) | Unused

  // Alignment is a power of two; only 8 is used here.
  function Align8(pos: nat): (r: nat)
    ensures pos <= r < pos + 8 && r % 8 == 0
  {
    (pos + 7) / 8 * 8
  }

  class GArena {
    var mem: array<Word>
    var pos: nat

    // The capacity in bytes.
    function Capacity(): nat
      reads this
    {
      8 * mem.Length
    }

    // A buffer that exists holds at least eight of the smallest elements.
    ghost predicate Valid()
      reads this
    {
      pos % 8 == 0 && pos <= Capacity() && (mem.Length == 0 || mem.Length >= 8)
    }

    // The words in use, bottom first.
    ghost function Used(): seq<Word>
      reads this, mem
      requires Valid()
    {
      mem[..pos / 8]
    }

    constructor ()
      ensures Valid() && Used() == [] && fresh(mem)
    {
      mem, pos := new Word[0], 0;
    }

    // Room for `size` bytes at the returned position. One doubling is always enough.
    method Alloc(size: nat) returns (at: nat)
      requires Valid() && (size == 8 || size == 16)
      modifies this
      ensures Valid() && at == old(pos) && pos == at + size
      ensures mem == old(mem) || fresh(mem)
      ensures mem[..at / 8] == old(Used())
      ensures Capacity() == if old(pos) + size <= old(Capacity()) then old(Capacity())
                            else if old(Capacity()) == 0 then 8 * size else 2 * old(Capacity())
    {
      at := Align8(pos);
      if at + size > Capacity() {
        var words := if mem.Length == 0 then size else 2 * mem.Length;
        var old_mem := mem;
        var grown := new Word[words](_ => Unused);
        forall i | 0 <= i < old_mem.Length { grown[i] := old_mem[i]; }
        mem := grown;
      }
      pos := at + size;
    }

    method PushAst(a: Ast)
      requires Valid()
      modifies this, mem
      ensures Valid() && pos == old(pos) + 8 && (mem == old(mem) || fresh(mem))
      ensures Used() == old(Used()) + [AstWord(a)]
    {
      var at := Alloc(8);
      mem[at / 8] := AstWord(a);
    }

    // Reserves a string; `SetStr` fills it in.
    method PushStr() returns (at: nat)
      requires Valid()
      modifies this, mem
      ensures Valid() && at == old(pos) && pos == at + 16 && (mem == old(mem) || fresh(mem))
      ensures Used() == old(Used()) + [StrWord(""), LengthWord(0)]
    {
      at := Alloc(16);
      mem[at / 8] := StrWord("");
      mem[at / 8 + 1] := LengthWord(0);
    }

    method SetStr(at: nat, str: string)
      requires Valid() && at % 8 == 0 && at + 16 <= pos
      modifies mem
      ensures Valid() && Used() == old(Used())[at / 8 := StrWord(str)][at / 8 + 1 := LengthWord(|str|)]
    {
      mem[at / 8] := StrWord(str);
      mem[at / 8 + 1] := LengthWord(|str|);
    }

    // Takes the trees above `start` off the stack.
    method MoveAsts(start: nat) returns (es: seq<Ast>)
      requires Valid() && start % 8 == 0 && start <= pos
      requires forall i :: start / 8 <= i < pos / 8 ==> mem[i].AstWord?
      modifies this`pos
      ensures Valid() && pos == start && Used() == old(Used())[..start / 8]
      ensures |es| == (old(pos) - start) / 8
      ensures forall i :: 0 <= i < |es| ==> old(Used())[start / 8 + i] == AstWord(es[i])
    {
      var n := (pos - start) / 8;
      es := seq(n, i requires 0 <= i < n reads this, mem
                     requires start / 8 + n <= mem.Length && mem[start / 8 + i].AstWord? => mem[start / 8 + i].ast);
      pos := start;
    }

    // Takes the strings above `start` off the stack.
    method MoveStrs(start: nat) returns (xs: seq<string>)
      requires Valid() && start % 8 == 0 && start <= pos && (pos - start) % 16 == 0
      requires forall i :: 0 <= i < (pos - start) / 16 ==> mem[start / 8 + 2 * i].StrWord?
      modifies this`pos
      ensures Valid() && pos == start && Used() == old(Used())[..start / 8]
      ensures |xs| == (old(pos) - start) / 16
      ensures forall i :: 0 <= i < |xs| ==> old(Used())[start / 8 + 2 * i] == StrWord(xs[i])
    {
      var n := (pos - start) / 16;
      xs := seq(n, i requires 0 <= i < n reads this, mem
                     requires start / 8 + 2 * n <= mem.Length && mem[start / 8 + 2 * i].StrWord? =>
                     mem[start / 8 + 2 * i].str);
      pos := start;
    }
  }
}
