/**
 The loader: it reads a bytecode file and lays its constants out in one block of memory,
 where the machine finds them through a table of addresses.
 */
module Loader {
  import opened Bytecode
  import opened LoaderSpec

  class Loader {
    const file: seq<Byte>
    var pos: nat
    const constPool: array<Byte>
    var constPoolMap: array<nat>
    var globals: array<nat>
    var entryPoint: nat

    ghost predicate Valid()
      reads this
    {
      constPool.Length == CONST_POOL_SZ && constPoolMap != globals
    }

    // The file is read from its beginning; the pool holds whatever was in memory.
    constructor (file: seq<Byte>)
      ensures Valid() && this.file == file && pos == 0 && fresh(constPool) && fresh(constPoolMap) && fresh(globals)
    {
      this.file := file;
      pos, entryPoint := 0, 0;
      constPool := new Byte[CONST_POOL_SZ];
      constPoolMap := new nat[1];
      globals := new nat[0];
    }

    // The loaded program, as the machine reads it.
    ghost predicate Represents(p: Program)
      reads this, constPool, constPoolMap, globals
    {
      && constPoolMap.Length == |p.constants| + 1 && PoolHolds(constPool[..], constPoolMap[..], p.constants)
      && globals[..] == p.globals && entryPoint == p.entry
    }

    // ---------------------------------------------------------------- the file

    // The next `n` bytes of the file.
    method Fread(n: nat) returns (r: Res<seq<Byte>>)
      modifies this`pos
      ensures if pos == old(pos) + n && old(pos) + n <= |file| then r == Ok(file[old(pos)..pos])
              else r == Err(TRUNCATED) && pos == old(pos) && old(pos) + n > |file|
    {
      if pos + n > |file| {
        return Err(TRUNCATED);
      }
      r := Ok(file[pos..pos + n]);
      pos := pos + n;
    }

    // A count and as many 16-bit numbers.
    method ReadCounted() returns (r: Res<seq<nat>>)
      modifies this`pos
      ensures r == ReadU16s(file, old(pos)) && (r.Ok? ==> pos == old(pos) + 2 + 2 * |r.value|)
    {
      var start := pos;
      var data := Fread(2);
      if data.Err? {
        return Err(data.error);
      }
      var n := U16(data.value, 0);
      var ns := [];
      while |ns| < n
        invariant |ns| <= n && pos == start + 2 + 2 * |ns| <= |file|
        invariant forall j :: 0 <= j < |ns| ==> ns[j] == U16(file, start + 2 + 2 * j)
      {
        data := Fread(2);
        if data.Err? {
          return Err(data.error);
        }
        ns := ns + [U16(data.value, 0)];
      }
      r := Ok(ns);
      assert ns == GetU16s(file, start + 2, n);
    }

    // -------------------------------------------------------------- the memory

    // Copies bytes into the pool.
    method Put(at: nat, data: seq<Byte>)
      requires at + |data| <= constPool.Length
      modifies constPool
      ensures forall k :: 0 <= k < constPool.Length ==>
                constPool[k] == if at <= k < at + |data| then data[k - at] else old(constPool[k])
    {
      ghost var was := constPool[..];
      var i := 0;
      while i < |data|
        invariant 0 <= i <= |data|
        invariant forall k :: 0 <= k < constPool.Length ==>
                    constPool[k] == if at <= k < at + i then data[k - at] else was[k]
      {
        constPool[at + i] := data[i];
        i := i + 1;
      }
    }

    // A tag, the fixed part that ends eight bytes behind it, and the bytes that follow.
    method PutParts(slot: nat, tag: Byte, head: seq<Byte>, body: seq<Byte>)
      requires 0 < |head| < 8 && slot + 8 + |body| <= constPool.Length
      modifies constPool
      ensures constPool[slot] == tag && constPool[slot + 8 - |head|..slot + 8] == head
      ensures constPool[slot + 8..slot + 8 + |body|] == body
      ensures forall k :: 0 <= k < slot ==> constPool[k] == old(constPool[k])
    {
      Put(slot, [tag]);
      Put(slot + 8 - |head|, head);
      Put(slot + 8, body);
    }

    // The constant that was read is in its slot, and the next slot is known.
    static ghost predicate Placed(out: Res<(Constant, nat)>, slot: nat, r: Res<nat>, pos: nat, pool: seq<Byte>) {
      match out
      case Err(e) => r == Err(e)
      case Ok((c, at)) =>
        if slot + Written(c) > CONST_POOL_SZ then r == Err(POOL_FULL)
        else r == Ok(NextSlot(slot, c)) && pos == at && Holds(pool, slot, c)
    }

    // One constant. Nothing below its slot is written.
    method LoadConstant(slot: nat) returns (r: Res<nat>)
      requires Valid()
      modifies this`pos, constPool
      ensures Placed(ReadConstant(file, old(pos)), slot, r, pos, constPool[..])
      ensures forall k :: 0 <= k < slot && k < constPool.Length ==> constPool[k] == old(constPool[k])
    {
      hide Holds, ReadString, ReadFunction, ReadClass, NextSlot;
      var tag := Fread(1);
      if tag.Err? {
        return Err(tag.error);
      }
      var kind := tag.value[0];
      if kind == TAG_INTEGER {
        r := LoadInteger(slot);
      } else if kind == TAG_BOOLEAN {
        r := LoadBoolean(slot);
      } else if kind == TAG_NULL {
        r := LoadNull(slot);
      } else if kind == TAG_STRING {
        r := LoadString(slot);
      } else if kind == TAG_FUNCTION {
        r := LoadFunction(slot);
      } else if kind == TAG_CLASS {
        r := LoadClass(slot);
      } else {
        r := Err(BAD_TAG);
      }
    }

    method LoadInteger(slot: nat) returns (r: Res<nat>)
      requires Valid() && 0 < pos <= |file| && file[pos - 1] == TAG_INTEGER
      modifies this`pos, constPool
      ensures Placed(ReadConstant(file, old(pos) - 1), slot, r, pos, constPool[..])
      ensures forall k :: 0 <= k < slot && k < constPool.Length ==> constPool[k] == old(constPool[k])
    {
      var data := Fread(4);
      if data.Err? {
        return Err(data.error);
      }
      if slot + 8 > CONST_POOL_SZ {
        return Err(POOL_FULL);
      }
      Put(slot, [TAG_INTEGER]);
      Put(slot + 4, data.value);
      r := Ok(Align8(slot + 8));
    }

    method LoadBoolean(slot: nat) returns (r: Res<nat>)
      requires Valid() && 0 < pos <= |file| && file[pos - 1] == TAG_BOOLEAN
      modifies this`pos, constPool
      ensures Placed(ReadConstant(file, old(pos) - 1), slot, r, pos, constPool[..])
      ensures forall k :: 0 <= k < slot && k < constPool.Length ==> constPool[k] == old(constPool[k])
    {
      var data := Fread(1);
      if data.Err? {
        return Err(data.error);
      }
      if slot + 2 > CONST_POOL_SZ {
        return Err(POOL_FULL);
      }
      Put(slot, [TAG_BOOLEAN]);
      Put(slot + 1, data.value);
      r := Ok(Align8(slot + 2));
    }

    method LoadNull(slot: nat) returns (r: Res<nat>)
      requires Valid() && 0 < pos <= |file| && file[pos - 1] == TAG_NULL
      modifies constPool
      ensures Placed(ReadConstant(file, pos - 1), slot, r, pos, constPool[..])
      ensures forall k :: 0 <= k < slot && k < constPool.Length ==> constPool[k] == old(constPool[k])
    {
      if slot + 1 > CONST_POOL_SZ {
        return Err(POOL_FULL);
      }
      Put(slot, [TAG_NULL]);
      r := Ok(Align8(slot + 1));
    }

    // The terminator goes behind the last byte, where the next slot may begin.
    method LoadString(slot: nat) returns (r: Res<nat>)
      requires Valid()
      modifies this`pos, constPool
      ensures Placed(ReadString(file, old(pos)), slot, r, pos, constPool[..])
      ensures forall k :: 0 <= k < slot && k < constPool.Length ==> constPool[k] == old(constPool[k])
    {
      hide Holds;
      var start := pos;
      var length := Fread(4);
      if length.Err? {
        return Err(length.error);
      }
      var n := U32(length.value, 0);
      var value := Fread(n);
      if value.Err? {
        return Err(value.error);
      }
      if slot + 8 + n + 1 > CONST_POOL_SZ {
        return Err(POOL_FULL);
      }
      PutParts(slot, TAG_STRING, length.value, value.value);
      ghost var was := constPool[..];
      Put(slot + 8 + n, [0]);
      assert constPool[slot + 4..slot + 8] == was[slot + 4..slot + 8];
      assert constPool[slot + 8..slot + 8 + n] == was[slot + 8..slot + 8 + n];
      StringHolds(constPool[..], slot, file, start);
      r := Ok(Align8(slot + 8 + n));
    }

    method LoadFunction(slot: nat) returns (r: Res<nat>)
      requires Valid()
      modifies this`pos, constPool
      ensures Placed(ReadFunction(file, old(pos)), slot, r, pos, constPool[..])
      ensures forall k :: 0 <= k < slot && k < constPool.Length ==> constPool[k] == old(constPool[k])
    {
      hide Holds;
      var start := pos;
      var head := Fread(7);
      if head.Err? {
        return Err(head.error);
      }
      var n := U32(head.value, 3);
      var code := Fread(n);
      if code.Err? {
        return Err(code.error);
      }
      if slot + 8 + n > CONST_POOL_SZ {
        return Err(POOL_FULL);
      }
      PutParts(slot, TAG_FUNCTION, head.value, code.value);
      FunctionHolds(constPool[..], slot, file, start);
      r := Ok(Align8(slot + 8 + n));
    }

    method LoadClass(slot: nat) returns (r: Res<nat>)
      requires Valid()
      modifies this`pos, constPool
      ensures Placed(ReadClass(file, old(pos)), slot, r, pos, constPool[..])
      ensures forall k :: 0 <= k < slot && k < constPool.Length ==> constPool[k] == old(constPool[k])
    {
      hide Holds;
      var start := pos;
      var members := ReadCounted();
      if members.Err? {
        return Err(members.error);
      }
      var n := |members.value|;
      if slot + 4 + 2 * n > CONST_POOL_SZ {
        return Err(POOL_FULL);
      }
      Put(slot, [TAG_CLASS]);
      Put(slot + 2, file[start..pos]);
      ClassHolds(constPool[..], slot, file, start);
      r := Ok(Align8(slot + 4 + 2 * n));
    }

    // ------------------------------------------------------------ the whole file

    // The constants read so far, and those still to come.
    static ghost function After(cs: seq<Constant>, r: Res<(seq<Constant>, nat)>): Res<(seq<Constant>, nat)> {
      match r
      case Ok((more, at)) => Ok((cs + more, at))
      case Err(e) => Err(e)
    }

    static lemma AfterOne(cs: seq<Constant>, c: Constant, r: Res<(seq<Constant>, nat)>)
      ensures After(cs, After([c], r)) == After(cs + [c], r)
    {
      if r.Ok? { assert cs + ([c] + r.value.0) == cs + [c] + r.value.0; }
    }

    static lemma AfterNone(r: Res<(seq<Constant>, nat)>)
      ensures After([], r) == r
    {
      if r.Ok? { assert [] + r.value.0 == r.value.0; }
    }

    method LoadConstants(n: nat) returns (r: Res<()>)
      requires Valid() && constPoolMap.Length == n + 1
      modifies this`pos, constPool, constPoolMap
      ensures match ReadConstants(file, old(pos), n, 0)
              case Err(e) => r == Err(e)
              case Ok((cs, at)) => r == Ok(()) && pos == at && PoolHolds(constPool[..], constPoolMap[..], cs)
    {
      hide ReadConstant, Holds, NextSlot, Written, SlotOf;
      ghost var due := ReadConstants(file, pos, n, 0);
      ghost var cs := [];
      constPoolMap[0] := 0;
      FirstSlot(cs);
      AfterNone(due);
      var i := 0;
      while i < n
        invariant 0 <= i <= n && |cs| == i
        invariant PoolHolds(constPool[..], constPoolMap[..], cs)
        invariant due == After(cs, ReadConstants(file, pos, n - i, SlotOf(cs, i)))
      {
        ghost var at, pool, slots := pos, constPool[..], constPoolMap[..];
        var slot := constPoolMap[i];
        assert slot == SlotOf(cs, i);
        var next := LoadConstant(slot);
        if next.Err? {
          return Err(next.error);
        }
        constPoolMap[i + 1] := next.value;
        ghost var c := ReadConstant(file, at).value.0;
        PoolGrows(pool, constPool[..], slots, cs, c);
        assert constPoolMap[..] == slots[i + 1 := next.value];
        AfterOne(cs, c, ReadConstants(file, pos, n - i - 1, next.value));
        cs := cs + [c];
        i := i + 1;
        assert SlotOf(cs, i) == constPoolMap[..][i];
      }
      AllRead(cs, pos);
      r := Ok(());
    }

    static lemma FirstSlot(cs: seq<Constant>)
      ensures SlotOf(cs, 0) == 0
    {
    }

    static lemma AllRead(cs: seq<Constant>, at: nat)
      ensures After(cs, Ok(([], at))) == Ok((cs, at))
    {
      assert cs + [] == cs;
    }

    // The format is read front to back; the first thing wrong with it ends the loading.
    method Deserialize() returns (r: Res<()>)
      requires Valid() && pos == 0
      modifies this, constPool
      ensures Valid()
      ensures match ReadProgram(file)
              case Err(e) => r == Err(e)
              case Ok(p) => r == Ok(()) && Represents(p)
    {
      hide PoolHolds, Holds, ReadConstants, ReadU16s, SlotOf;
      var header := Fread(4);
      if header.Err? {
        return Err(TRUNCATED);
      }
      if header.value != HEADER {
        return Err(BAD_HEADER);
      }
      var count := Fread(2);
      if count.Err? {
        return Err(TRUNCATED);
      }
      var n := U16(count.value, 0);
      constPoolMap := new nat[n + 1];
      var loaded := LoadConstants(n);
      if loaded.Err? {
        return loaded;
      }
      var names := ReadCounted();
      if names.Err? {
        return Err(names.error);
      }
      var ns := names.value;
      globals := new nat[|ns|](i requires 0 <= i < |ns| => ns[i]);
      var entry := Fread(2);
      if entry.Err? {
        return Err(TRUNCATED);
      }
      entryPoint := U16(entry.value, 0);
      if entryPoint >= n {
        return Err(BAD_ENTRY);
      }
      assert globals[..] == ns;
      r := Ok(());
    }

    // ------------------------------------------------- what the machine finds there

    // The constant at an address. `c` is the one that was loaded.
    method ConstantAt(at: nat, ghost c: Constant) returns (d: Constant)
      requires Valid() && Holds(constPool[..], at, c)
      ensures d == c
    {
      var kind := constPool[at];
      if kind == TAG_INTEGER {
        d := KInteger(Signed(U32(constPool[at + 4..at + 8], 0)));
      } else if kind == TAG_NULL {
        d := KNull;
      } else if kind == TAG_BOOLEAN {
        d := KBoolean(constPool[at + 1] != 0);
      } else if kind == TAG_STRING {
        var n := U32(constPool[at + 4..at + 8], 0);
        d := KString(Chars(constPool[at + 8..at + 8 + n]));
      } else if kind == TAG_FUNCTION {
        var n := U32(constPool[at + 4..at + 8], 0);
        d := KFunction(constPool[at + 1] as nat, U16(constPool[at + 2..at + 4], 0), constPool[at + 8..at + 8 + n]);
      } else {
        var n := U16(constPool[at + 2..at + 4], 0);
        d := KClass(GetU16s(constPool[at + 4..at + 4 + 2 * n], 0, n));
      }
      HoldsOne(constPool[..], at, c, d);
    }

    // The whole program in memory. `p` is the one that was loaded.
    method Loaded(ghost p: Program) returns (q: Program)
      requires Valid() && Represents(p)
      ensures q == p
    {
      hide Holds, SlotOf;
      var cs, i := [], 0;
      while i + 1 < constPoolMap.Length
        invariant 0 <= i <= |p.constants| && cs == p.constants[..i]
      {
        var c := ConstantAt(constPoolMap[i], p.constants[i]);
        cs := cs + [c];
        i := i + 1;
      }
      q := Program(cs, globals[..], entryPoint);
    }
  }
}
