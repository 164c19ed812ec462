/** Bytecode programs, values and machine states. */
module Bytecode {

  newtype Byte = x: int | 0 <= x < 256

  // Entries of the constant pool.
  datatype Constant =
    | KInteger(i: int)
    | KNull
    | KString(s: string)
    | KFunction(params: nat, locals: nat, code: seq<Byte>)
    | KBoolean(b: bool)
    | KClass(members: seq<nat>)

  // `globals` lists the names of the global variables by their constants.
  datatype Program = Program(constants: seq<Constant>, globals: seq<nat>, entry: nat)

  // A value is a pointer in the machine. Integers, booleans and null are never changed
  // once made, so they stand for themselves here; strings and functions point into the
  // constant pool, arrays and objects into the heap. VUnset is the content of a slot
  // nothing was stored in.
  datatype Value =
    | VInt(i: int) | VNull | VBool(b: bool)
    | VString(k: nat) | VFunc(k: nat)
    | VRef(a: nat)
    | VUnset

  datatype Field = Field(name: string, value: Value)
  datatype Cell = Arr(elems: seq<Value>) | Obj(parent: Value, fields: seq<Field>)

  // An instruction address: the function constant it lies in and the byte offset.
  datatype Loc = Loc(func: nat, off: int)

  datatype Frame = Frame(ret: Loc, locals: seq<Value>)

  // One execution of a print instruction.
  datatype Printed = Printed(format: string, args: seq<Value>)

  datatype State = State(ip: Loc, frames: seq<Frame>, operands: seq<Value>, globals: seq<Value>,
                         cells: seq<Cell>, used: nat, output: seq<Printed>)

  const MAX_OPERANDS: nat := 16384
  const MAX_FRAMES: nat := 16384

  // ---------------------------------------------------------------- instructions

  datatype Instr =
    | Drop
    | Constant(index: nat)
    | Print(index: nat, argc: nat)
    | MakeArray
    | MakeObject(index: nat)
    | GetField(index: nat)
    | SetField(index: nat)
    | CallMethod(index: nat, argc: nat)
    | CallFunction(argc: nat)
    | SetLocal(index: nat)
    | GetLocal(index: nat)
    | SetGlobal(index: nat)
    | GetGlobal(index: nat)
    | Branch(offset: int)
    | Jump(offset: int)
    | Return

  datatype Decoded = Decoded(instr: Instr, length: nat) | BadOpcode | OutsideCode

  function U16(code: seq<Byte>, at: nat): nat
    requires at + 1 < |code|
  {
    code[at] as int + 256 * (code[at + 1] as int)
  }

  // Two bytes as a signed 16-bit number.
  function I16(code: seq<Byte>, at: nat): (d: int)
    requires at + 1 < |code|
    ensures -0x8000 <= d < 0x8000 && (d - U16(code, at)) % 0x1_0000 == 0
  {
    var u := U16(code, at);
    if u < 0x8000 then u else u - 0x1_0000
  }

  // The instruction at an offset with its operands; all of it must lie in the code.
  function Decode(code: seq<Byte>, at: int): (d: Decoded)
    ensures d.Decoded? ==> 0 <= at && 0 < d.length && at + d.length <= |code|
  {
    if at < 0 || at >= |code| then OutsideCode
    else
      var op := code[at];
      if op > 0x0F then BadOpcode
      else if op == 0x00 then Decoded(Drop, 1)
      else if op == 0x03 then Decoded(MakeArray, 1)
      else if op == 0x0F then Decoded(Return, 1)
      else if op == 0x08 then
        if at + 2 > |code| then OutsideCode else Decoded(CallFunction(code[at + 1] as nat), 2)
      else if op == 0x02 || op == 0x07 then
        if at + 4 > |code| then OutsideCode
        else
          var index, argc := U16(code, at + 1), code[at + 3] as nat;
          Decoded(if op == 0x02 then Instr.Print(index, argc) else CallMethod(index, argc), 4)
      else if at + 3 > |code| then OutsideCode
      else if op == 0x0D then Decoded(Branch(I16(code, at + 1)), 3)
      else if op == 0x0E then Decoded(Jump(I16(code, at + 1)), 3)
      else
        var index := U16(code, at + 1);
        Decoded(if op == 0x01 then Constant(index)
                else if op == 0x04 then MakeObject(index)
                else if op == 0x05 then GetField(index)
                else if op == 0x06 then SetField(index)
                else if op == 0x09 then SetLocal(index)
                else if op == 0x0A then GetLocal(index)
                else if op == 0x0B then SetGlobal(index)
                else GetGlobal(index), 3)
  }

  // The bytes of an instruction, by the table of opcodes.
  function Assemble(instr: Instr): (d: seq<Byte>)
    requires Encodable(instr)
    ensures |d| > 0
  {
    match instr
    case Drop => [0x00]
    case Constant(k) => [0x01] + PutU16(k)
    case Print(k, argc) => [0x02] + PutU16(k) + [argc as Byte]
    case MakeArray => [0x03]
    case MakeObject(k) => [0x04] + PutU16(k)
    case GetField(k) => [0x05] + PutU16(k)
    case SetField(k) => [0x06] + PutU16(k)
    case CallMethod(k, argc) => [0x07] + PutU16(k) + [argc as Byte]
    case CallFunction(argc) => [0x08, argc as Byte]
    case SetLocal(k) => [0x09] + PutU16(k)
    case GetLocal(k) => [0x0A] + PutU16(k)
    case SetGlobal(k) => [0x0B] + PutU16(k)
    case GetGlobal(k) => [0x0C] + PutU16(k)
    case Branch(offset) => [0x0D] + PutU16(offset % 0x1_0000)
    case Jump(offset) => [0x0E] + PutU16(offset % 0x1_0000)
    case Return => [0x0F]
  }

  function Byte0(n: nat): Byte { (n % 0x100) as Byte }

  // Two bytes, the lower one first.
  function PutU16(n: nat): seq<Byte> { [Byte0(n), Byte0(n / 0x100)] }

  // Operands are 16-bit indices and offsets, and 8-bit counts.
  predicate Encodable(instr: Instr) {
    match instr
    case Print(k, argc) => k < 0x1_0000 && argc < 0x100
    case CallMethod(k, argc) => k < 0x1_0000 && argc < 0x100
    case CallFunction(argc) => argc < 0x100
    case Branch(offset) => -0x8000 <= offset < 0x8000
    case Jump(offset) => -0x8000 <= offset < 0x8000
    case Constant(k) => k < 0x1_0000
    case MakeObject(k) => k < 0x1_0000
    case GetField(k) => k < 0x1_0000
    case SetField(k) => k < 0x1_0000
    case SetLocal(k) => k < 0x1_0000
    case GetLocal(k) => k < 0x1_0000
    case SetGlobal(k) => k < 0x1_0000
    case GetGlobal(k) => k < 0x1_0000
    case _ => true
  }

  lemma PutLength(n: nat)
    ensures |PutU16(n)| == 2
  {
  }

  lemma Get16(code: seq<Byte>, at: nat, n: nat)
    requires at + 2 <= |code| && n < 0x1_0000 && code[at..at + 2] == PutU16(n)
    ensures U16(code, at) == n
    ensures forall d :: -0x8000 <= d < 0x8000 && d % 0x1_0000 == n ==> I16(code, at) == d
  {
    assert code[at] == code[at..at + 2][0] && code[at + 1] == code[at..at + 2][1];
  }

  // Decoding undoes assembling, wherever the instruction stands.
  lemma DecodeAssemble(code: seq<Byte>, at: nat, instr: Instr)
    requires Encodable(instr) && at + |Assemble(instr)| <= |code|
    requires code[at..at + |Assemble(instr)|] == Assemble(instr)
    ensures Decode(code, at) == Decoded(instr, |Assemble(instr)|)
  {
    hide U16, I16, PutU16;
    var d, n := Assemble(instr), OperandOf(instr);
    PutLength(n);
    if |d| <= 2 {
      assert code[at] == code[at..at + |d|][0] == d[0];
      if |d| == 2 { assert code[at + 1] == code[at..at + 2][1]; }
    } else {
      assert d == [d[0]] + PutU16(n) + d[3..];
      Split(code, at, d[0], PutU16(n), d[3..]);
      Get16(code, at + 1, n);
    }
  }

  lemma Split(code: seq<Byte>, at: nat, op: Byte, operand: seq<Byte>, rest: seq<Byte>)
    requires at + 1 + |operand| + |rest| <= |code|
    requires code[at..at + 1 + |operand| + |rest|] == [op] + operand + rest
    ensures code[at] == op && code[at + 1..at + 1 + |operand|] == operand
    ensures rest != [] ==> code[at + 1 + |operand|] == rest[0]
  {
    var d := [op] + operand + rest;
    var here := code[at..at + |d|];
    assert here == d;
    assert code[at] == here[0];
    forall i | 0 <= i < |operand| ensures code[at + 1..at + 1 + |operand|][i] == operand[i] {
      assert here[1 + i] == d[1 + i] == operand[i];
    }
    if rest != [] { assert code[at + 1 + |operand|] == here[1 + |operand|]; }
  }

  // And nothing else decodes: the bytes of a decoded instruction are those it assembles to.
  lemma AssembleDecode(code: seq<Byte>, at: nat)
    requires Decode(code, at).Decoded?
    ensures var Decoded(instr, length) := Decode(code, at);
            Encodable(instr) && length == |Assemble(instr)| && code[at..at + length] == Assemble(instr)
  {
    hide U16, I16, PutU16;
    var Decoded(instr, length) := Decode(code, at);
    if length >= 3 {
      Put16(code, at + 1);
      assert code[at..at + length] == [code[at]] + code[at + 1..at + 3] + code[at + 3..at + length];
    }
    if length == 4 { assert code[at + 3..at + 4] == [code[at + 3]]; }
    if length <= 2 { assert code[at..at + length] == if length == 1 then [code[at]] else [code[at], code[at + 1]]; }
  }

  // Every opcode, with its operands, the lower byte first.
  lemma Opcodes()
    ensures Decode([0x00], 0) == Decoded(Drop, 1)
    ensures Decode([0x01, 2, 1], 0) == Decoded(Constant(258), 3)
    ensures Decode([0x02, 2, 1, 3], 0) == Decoded(Instr.Print(258, 3), 4)
    ensures Decode([0x03], 0) == Decoded(MakeArray, 1)
    ensures Decode([0x04, 2, 1], 0) == Decoded(MakeObject(258), 3)
    ensures Decode([0x05, 2, 1], 0) == Decoded(GetField(258), 3)
    ensures Decode([0x06, 2, 1], 0) == Decoded(SetField(258), 3)
    ensures Decode([0x07, 2, 1, 3], 0) == Decoded(CallMethod(258, 3), 4)
  {
  }

  lemma MoreOpcodes()
    ensures Decode([0x08, 3], 0) == Decoded(CallFunction(3), 2)
    ensures Decode([0x09, 2, 1], 0) == Decoded(SetLocal(258), 3)
    ensures Decode([0x0A, 2, 1], 0) == Decoded(GetLocal(258), 3)
    ensures Decode([0x0B, 2, 1], 0) == Decoded(SetGlobal(258), 3)
    ensures Decode([0x0C, 2, 1], 0) == Decoded(GetGlobal(258), 3)
    ensures Decode([0x0D, 0xFE, 0xFF], 0) == Decoded(Branch(-2), 3)
    ensures Decode([0x0E, 0xFE, 0xFF], 0) == Decoded(Jump(-2), 3)
    ensures Decode([0x0F], 0) == Decoded(Return, 1)
  {
  }

  lemma Put16(code: seq<Byte>, at: nat)
    requires at + 2 <= |code|
    ensures U16(code, at) < 0x1_0000 && code[at..at + 2] == PutU16(U16(code, at))
    ensures I16(code, at) % 0x1_0000 == U16(code, at)
  {
  }

  // The 16-bit operand of an instruction that has one.
  function OperandOf(instr: Instr): (n: nat)
    requires Encodable(instr)
    ensures n < 0x1_0000
  {
    match instr
    case Branch(offset) => offset % 0x1_0000
    case Jump(offset) => offset % 0x1_0000
    case Print(k, _) => k
    case CallMethod(k, _) => k
    case Constant(k) => k
    case MakeObject(k) => k
    case GetField(k) => k
    case SetField(k) => k
    case SetLocal(k) => k
    case GetLocal(k) => k
    case SetGlobal(k) => k
    case GetGlobal(k) => k
    case _ => 0
  }

  // -------------------------------------------------------------------- stopping

  // Why a run stops. The first group depends on the program text alone.
  datatype Stop =
    | STACK_UNDERFLOW   // an operand is missing
    | OUTSIDE_CODE      // the instruction pointer left its function
    | BAD_OPCODE
    | BAD_CONSTANT      // a constant index out of range or of the wrong kind
    | NO_LOCAL          // a local index out of range
    | NOT_GLOBAL        // a name that is not a global variable
    | PRINT_ARGS        // more placeholders than arguments
    // No run comes to this one.
    | DANGLING          // a reference to no cell, or a parent chain that climbs
    // The rest depends on the values and on the limits of the machine.
    | KIND              // an operand of the wrong kind, or a wrong number of arguments
    | UNSET             // use of a slot nothing was stored in
    | TOO_FEW_ARGS      // a built-in reads an argument that was not passed
    | ARITHMETIC        // division by zero or overflowing division
    | BOUNDS            // an array index or size out of range
    | NO_FIELD
    | NO_METHOD
    | CALLER_FRAME      // the caller has fewer locals than the built-in has arguments
    | OPERAND_LIMIT
    | FRAME_LIMIT
    | HEAP_LIMIT

  predicate Static(stop: Stop) {
    stop in {STACK_UNDERFLOW, OUTSIDE_CODE, BAD_OPCODE, BAD_CONSTANT, NO_LOCAL, NOT_GLOBAL, PRINT_ARGS}
  }

  datatype Outcome = Next(state: State) | Halted(stop: Stop)
}
