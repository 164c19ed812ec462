/** One step of the bytecode machine. */
module BcSpec {
  import opened Ast
  import opened Bytecode
  import opened Operators
  import H = Heap

  // --------------------------------------------------------------- small pieces

  function Push(s: State, v: Value): Outcome {
    if |s.operands| < MAX_OPERANDS then Next(s.(operands := s.operands + [v])) else Halted(OPERAND_LIMIT)
  }

  // Push a value that takes room on the heap.
  function PushNew(s: State, v: Value, size: nat): Outcome {
    if H.Fits(s.used, size) then Push(s.(used := H.After(s.used, size)), v) else Halted(HEAP_LIMIT)
  }

  function PushBool(s: State, b: bool): Outcome { PushNew(s, VBool(b), H.BOOLEAN_SZ) }
  function Popped(s: State, n: nat): State
    requires n <= |s.operands|
  {
    s.(operands := s.operands[..|s.operands| - n])
  }

  // The operand `n` places below the top.
  function Peek(s: State, n: nat): Value
    requires n < |s.operands|
  {
    s.operands[|s.operands| - 1 - n]
  }

  predicate IsStringConstant(p: Program, k: nat) { k < |p.constants| && p.constants[k].KString? }
  predicate IsFunctionConstant(p: Program, k: nat) { k < |p.constants| && p.constants[k].KFunction? }
  predicate IsClassConstant(p: Program, k: nat) {
    && k < |p.constants| && p.constants[k].KClass?
    && forall i :: 0 <= i < |p.constants[k].members| ==> IsStringConstant(p, p.constants[k].members[i])
  }

  // The frame size of a function.
  function Slots(p: Program, k: nat): nat
    requires IsFunctionConstant(p, k)
  {
    p.constants[k].params + p.constants[k].locals
  }

  function Truthy(v: Value): bool { !v.VNull? && v != VBool(false) }

  // ------------------------------------------------------------ field lookup

  function FieldIndex(fields: seq<Field>, name: string): (i: nat)
    ensures i <= |fields|
    ensures i < |fields| ==> fields[i].name == name
    ensures forall j :: 0 <= j < i ==> fields[j].name != name
  {
    if fields == [] || fields[0].name == name then 0 else 1 + FieldIndex(fields[1..], name)
  }

  // The first definition of a name on the parent chain, or what ends the chain.
  datatype Lookup = Slot(a: nat, i: nat) | ChainEnd(v: Value) | BadChain

  predicate IsObject(cells: seq<Cell>, v: Value) { v.VRef? && v.a < |cells| && cells[v.a].Obj? }

  function Find(cells: seq<Cell>, v: Value, name: string): (r: Lookup)
    ensures r.Slot? ==> r.a < |cells| && cells[r.a].Obj? && r.i < |cells[r.a].fields|
                        && cells[r.a].fields[r.i].name == name
    decreases if v.VRef? then v.a + 1 else 0
  {
    if !v.VRef? then ChainEnd(v)
    else if v.a >= |cells| then BadChain
    else if cells[v.a].Arr? then ChainEnd(v)
    else
      var i := FieldIndex(cells[v.a].fields, name);
      if i < |cells[v.a].fields| then Slot(v.a, i)
      else
        var up := cells[v.a].parent;
        if up.VRef? && up.a >= v.a then BadChain else Find(cells, up, name)
  }

  // ------------------------------------------------------------- instructions

  function ExecDrop(s: State): Outcome {
    if |s.operands| == 0 then Halted(STACK_UNDERFLOW) else Next(Popped(s, 1))
  }

  function ExecConstant(p: Program, s: State, k: nat): Outcome {
    if k >= |p.constants| then Halted(BAD_CONSTANT)
    else
      match p.constants[k]
      case KInteger(i) => PushNew(s, VInt(i), H.INTEGER_SZ)
      case KNull => Push(s, VNull)
      case KBoolean(b) => PushBool(s, b)
      case KString(_) => Push(s, VString(k))
      case KFunction(_, _, _) => Push(s, VFunc(k))
      case KClass(_) => Halted(BAD_CONSTANT)
  }

  function ExecPrint(p: Program, s: State, k: nat, argc: nat): Outcome {
    if !IsStringConstant(p, k) then Halted(BAD_CONSTANT)
    else if |s.operands| < argc then Halted(STACK_UNDERFLOW)
    else
      var n := Placeholders(p.constants[k].s);
      var args := s.operands[|s.operands| - argc..];
      if n > argc then Halted(PRINT_ARGS)
      else if VUnset in args[..n] then Halted(UNSET)
      else Push(Popped(s, argc).(output := s.output + [Printed(p.constants[k].s, args[..n])]), VNull)
  }

  function ExecArray(s: State): Outcome {
    if |s.operands| < 2 then Halted(STACK_UNDERFLOW)
    else
      match Peek(s, 1)
      case VUnset => Halted(UNSET)
      case VInt(n) =>
        if n < 0 then Halted(BOUNDS)
        else if !H.Fits(s.used, H.ArraySize(n)) then Halted(HEAP_LIMIT)
        else
          var cell := Arr(seq(n, _ => Peek(s, 0)));
          Push(Popped(s, 2).(used := H.After(s.used, H.ArraySize(n)), cells := s.cells + [cell]), VRef(|s.cells|))
      case _ => Halted(KIND)
  }

  function MakeFields(p: Program, members: seq<nat>, values: seq<Value>): (fields: seq<Field>)
    requires |members| == |values| && forall i :: 0 <= i < |members| ==> IsStringConstant(p, members[i])
  {
    seq(|members|, i requires 0 <= i < |members| && IsStringConstant(p, members[i]) && i < |values| =>
      Field(p.constants[members[i]].s, values[i]))
  }

  function ExecObject(p: Program, s: State, k: nat): Outcome {
    if !IsClassConstant(p, k) then Halted(BAD_CONSTANT)
    else
      var members := p.constants[k].members;
      var n := |members|;
      if !H.Fits(s.used, H.ObjectSize(n)) then Halted(HEAP_LIMIT)
      else if |s.operands| < n + 1 then Halted(STACK_UNDERFLOW)
      else
        var cell := Obj(Peek(s, n), MakeFields(p, members, s.operands[|s.operands| - n..]));
        Push(Popped(s, n + 1).(used := H.After(s.used, H.ObjectSize(n)), cells := s.cells + [cell]), VRef(|s.cells|))
  }

  // Fields exist on objects only; a chain that ends without the field is an error.
  function FieldStop(cells: seq<Cell>, v: Value, r: Lookup): Stop
    requires !r.Slot?
  {
    if v == VUnset then UNSET
    else if r.BadChain? then DANGLING
    else if !IsObject(cells, v) then KIND
    else if r.v == VUnset then UNSET
    else NO_FIELD
  }

  function ExecGetField(p: Program, s: State, k: nat): Outcome {
    if !IsStringConstant(p, k) then Halted(BAD_CONSTANT)
    else if |s.operands| < 1 then Halted(STACK_UNDERFLOW)
    else
      var r := Find(s.cells, Peek(s, 0), p.constants[k].s);
      if r.Slot? then Push(Popped(s, 1), s.cells[r.a].fields[r.i].value)
      else Halted(FieldStop(s.cells, Peek(s, 0), r))
  }

  function WithField(cells: seq<Cell>, a: nat, i: nat, v: Value): seq<Cell>
    requires a < |cells| && cells[a].Obj? && i < |cells[a].fields|
  {
    cells[a := cells[a].(fields := cells[a].fields[i := cells[a].fields[i].(value := v)])]
  }

  function ExecSetField(p: Program, s: State, k: nat): Outcome {
    if !IsStringConstant(p, k) then Halted(BAD_CONSTANT)
    else if |s.operands| < 2 then Halted(STACK_UNDERFLOW)
    else
      var r := Find(s.cells, Peek(s, 1), p.constants[k].s);
      if r.Slot? then Push(Popped(s, 2).(cells := WithField(s.cells, r.a, r.i, Peek(s, 0))), Peek(s, 0))
      else Halted(FieldStop(s.cells, Peek(s, 1), r))
  }

  // -------------------------------------------------------------------- calls

  // The slots of a new frame: what the caller left in them, resized, and null from slot
  // `argc + 1` on. For a method slot `argc` is one nothing was stored in.
  function FrameLocals(scratch: seq<Value>, size: nat): (locals: seq<Value>)
    ensures |locals| == size
  {
    seq(size, i requires 0 <= i < size => if i < |scratch| then scratch[i] else VNull)
  }

  // Enter a user function whose arguments are in `scratch`.
  function Enter(p: Program, s: State, f: Value, argc: nat, isMethod: bool, scratch: seq<Value>): Outcome {
    match f
    case VUnset => Halted(UNSET)
    case VFunc(k) =>
      if !IsFunctionConstant(p, k) then Halted(KIND)
      else if (if isMethod then argc else argc + 1) != p.constants[k].params then Halted(KIND)
      else Next(s.(frames := s.frames + [Frame(s.ip, FrameLocals(scratch, Slots(p, k)))], ip := Loc(k, 0)))
    case _ => Halted(KIND)
  }

  // A null receiver and the arguments.
  function FunctionScratch(s: State, argc: nat): (scratch: seq<Value>)
    requires argc <= |s.operands|
    ensures |scratch| == argc + 1
  {
    [VNull] + s.operands[|s.operands| - argc..]
  }

  function ExecCallFunction(p: Program, s: State, argc: nat): Outcome {
    if |s.operands| < argc then Halted(STACK_UNDERFLOW)
    else if |s.frames| >= MAX_FRAMES then Halted(FRAME_LIMIT)
    else if |s.operands| < argc + 1 then Halted(STACK_UNDERFLOW)
    else
      Enter(p, Popped(s, argc + 1), Peek(s, argc), argc, false, FunctionScratch(s, argc))
  }

  // Receiver, arguments and the slot left unset.
  function MethodScratch(s: State, argc: nat): (scratch: seq<Value>)
    requires argc <= |s.operands| && 0 < |s.operands|
    ensures |scratch| == argc + 1
  {
    if argc == 0 then [Peek(s, 0)] else s.operands[|s.operands| - argc..] + [VUnset]
  }

  // The values a method call takes off the stack.
  function MethodPops(argc: nat): nat { if argc == 0 then 1 else argc }

  function ExecCallMethod(p: Program, s: State, k: nat, argc: nat): Outcome {
    if !IsStringConstant(p, k) then Halted(BAD_CONSTANT)
    else if |s.operands| < MethodPops(argc) then Halted(STACK_UNDERFLOW)
    else if |s.frames| >= MAX_FRAMES then Halted(FRAME_LIMIT)
    else
      var scratch := MethodScratch(s, argc);
      Dispatch(p, Popped(s, MethodPops(argc)), p.constants[k].s, argc, scratch)
  }

  // The nearest definition on the receiver's chain is entered with the receiver itself;
  // a chain without one ends in a value whose built-in methods are tried.
  function Dispatch(p: Program, s: State, name: string, argc: nat, scratch: seq<Value>): Outcome
    requires |scratch| == argc + 1
  {
    match Find(s.cells, scratch[0], name)
    case Slot(a, i) => Enter(p, s, s.cells[a].fields[i].value, argc, true, scratch)
    case ChainEnd(v) => Builtin(s, v, name, argc, scratch)
    case BadChain => Halted(DANGLING)
  }

  predicate IsPrimitive(v: Value) { v.VInt? || v.VBool? || v.VNull? }

  // A built-in reads its arguments from the frame being prepared, but checks the index
  // against the frame of the caller.
  predicate CallerHas(s: State, n: nat) { |s.frames| > 0 && n <= |s.frames[|s.frames| - 1].locals| }

  function Builtin(s: State, v: Value, name: string, argc: nat, scratch: seq<Value>): Outcome
    requires |scratch| == argc + 1
  {
    if v == VUnset then Halted(UNSET)
    else if IsPrimitive(v) && argc != 2 then Halted(KIND)
    else if IsPrimitive(v) && !CallerHas(s, 1) then Halted(CALLER_FRAME)
    else if IsPrimitive(v) && IsOperation(v, name) then Operation(s, v, name, scratch[1])
    else if name == "set" then (if IsArray(s.cells, v) then ArraySet(s, v.a, argc, scratch) else Next(s))
    else if name == "get" then (if IsArray(s.cells, v) then ArrayGet(s, v.a, argc, scratch) else Next(s))
    else Halted(NO_METHOD)
  }

  predicate IsArray(cells: seq<Cell>, v: Value) { v.VRef? && v.a < |cells| && cells[v.a].Arr? }

  predicate IsOperation(v: Value, name: string) {
    || name in ARITHMETIC_OPS || name in COMPARISON_OPS || name == "==" || name == "!="
    || (v.VBool? && (name == "&" || name == "|"))
  }

  function Operation(s: State, v: Value, name: string, second: Value): Outcome
    requires IsPrimitive(v) && IsOperation(v, name)
  {
    if second == VUnset then Halted(UNSET)
    else if name == "==" then PushBool(s, SameValue(v, second))
    else if name == "!=" then PushBool(s, !SameValue(v, second))
    else if name == "&" || name == "|" then
      if !second.VBool? then Halted(KIND)
      else PushBool(s, if name == "&" then v.b && second.b else v.b || second.b)
    else if !v.VInt? || !second.VInt? then Halted(KIND)
    else
      var x, y := v.i, second.i;
      if name in ARITHMETIC_OPS then
        if Traps(name, x, y) then Halted(ARITHMETIC) else PushNew(s, VInt(Arithmetic(name, x, y)), H.INTEGER_SZ)
      else PushBool(s, Compares(name, x, y))
  }

  predicate SameValue(v: Value, w: Value)
    requires IsPrimitive(v)
  {
    v == w
  }

  function ArraySet(s: State, a: nat, argc: nat, scratch: seq<Value>): Outcome
    requires |scratch| == argc + 1 && a < |s.cells| && s.cells[a].Arr?
  {
    if !CallerHas(s, 1) || !CallerHas(s, 2) then Halted(CALLER_FRAME)
    else if argc < 2 then Halted(TOO_FEW_ARGS)
    else if scratch[1] == VUnset then Halted(UNSET)
    else if !scratch[1].VInt? then Halted(KIND)
    else
      var i := scratch[1].i;
      if i < 0 || i >= |s.cells[a].elems| then Halted(BOUNDS)
      else Push(s.(cells := s.cells[a := Arr(s.cells[a].elems[i := scratch[2]])]), scratch[2])
  }

  function ArrayGet(s: State, a: nat, argc: nat, scratch: seq<Value>): Outcome
    requires |scratch| == argc + 1 && a < |s.cells| && s.cells[a].Arr?
  {
    if !CallerHas(s, 1) then Halted(CALLER_FRAME)
    else if argc < 2 then Halted(TOO_FEW_ARGS)
    else if scratch[1] == VUnset then Halted(UNSET)
    else if !scratch[1].VInt? then Halted(KIND)
    else
      var i := scratch[1].i;
      if i < 0 || i >= |s.cells[a].elems| then Halted(BOUNDS) else Push(s, s.cells[a].elems[i])
  }

  // ------------------------------------------------- variables and control flow

  function ExecSetLocal(s: State, i: nat): Outcome
    requires |s.frames| > 0
  {
    var top := |s.frames| - 1;
    if |s.operands| == 0 then Halted(STACK_UNDERFLOW)
    else if i >= |s.frames[top].locals| then Halted(NO_LOCAL)
    else Next(s.(frames := s.frames[top := s.frames[top].(locals := s.frames[top].locals[i := Peek(s, 0)])]))
  }

  function ExecGetLocal(s: State, i: nat): Outcome
    requires |s.frames| > 0
  {
    var top := |s.frames| - 1;
    if i >= |s.frames[top].locals| then Halted(NO_LOCAL) else Push(s, s.frames[top].locals[i])
  }

  function GlobalStop(p: Program, s: State, k: nat): (r: (bool, Stop))
    ensures r.0 <==> IsStringConstant(p, k) && k in p.globals && k < |s.globals|
  {
    if !IsStringConstant(p, k) || k >= |s.globals| then (false, BAD_CONSTANT)
    else (k in p.globals, NOT_GLOBAL)
  }

  function ExecSetGlobal(p: Program, s: State, k: nat): Outcome {
    var (ok, stop) := GlobalStop(p, s, k);
    if !ok then Halted(stop)
    else if |s.operands| == 0 then Halted(STACK_UNDERFLOW)
    else Next(s.(globals := s.globals[k := Peek(s, 0)]))
  }

  function ExecGetGlobal(p: Program, s: State, k: nat): Outcome {
    var (ok, stop) := GlobalStop(p, s, k);
    if !ok then Halted(stop) else Push(s, s.globals[k])
  }

  function Moved(s: State, d: int): State { s.(ip := Loc(s.ip.func, s.ip.off + d)) }

  function ExecBranch(s: State, d: int): Outcome {
    if |s.operands| == 0 then Halted(STACK_UNDERFLOW)
    else if Peek(s, 0) == VUnset then Halted(UNSET)
    else Next(if Truthy(Peek(s, 0)) then Moved(Popped(s, 1), d) else Popped(s, 1))
  }

  function ExecReturn(s: State): Outcome
    requires |s.frames| > 0
  {
    var top := |s.frames| - 1;
    Next(s.(ip := s.frames[top].ret, frames := s.frames[..top]))
  }

  // --------------------------------------------------------------- the machine

  function Fetch(p: Program, ip: Loc): Decoded {
    if IsFunctionConstant(p, ip.func) then Decode(p.constants[ip.func].code, ip.off) else OutsideCode
  }

  function Exec(p: Program, s: State, instr: Instr): Outcome
    requires |s.frames| > 0
  {
    match instr
    case Drop => ExecDrop(s)
    case Constant(k) => ExecConstant(p, s, k)
    case Print(k, argc) => ExecPrint(p, s, k, argc)
    case MakeArray => ExecArray(s)
    case MakeObject(k) => ExecObject(p, s, k)
    case GetField(k) => ExecGetField(p, s, k)
    case SetField(k) => ExecSetField(p, s, k)
    case CallMethod(k, argc) => ExecCallMethod(p, s, k, argc)
    case CallFunction(argc) => ExecCallFunction(p, s, argc)
    case SetLocal(i) => ExecSetLocal(s, i)
    case GetLocal(i) => ExecGetLocal(s, i)
    case SetGlobal(k) => ExecSetGlobal(p, s, k)
    case GetGlobal(k) => ExecGetGlobal(p, s, k)
    case Branch(d) => ExecBranch(s, d)
    case Jump(d) => Next(Moved(s, d))
    case Return => ExecReturn(s)
  }

  // The instruction pointer is past the instruction while it executes.
  function Step(p: Program, s: State): Outcome
    requires |s.frames| > 0
  {
    match Fetch(p, s.ip)
    case OutsideCode => Halted(OUTSIDE_CODE)
    case BadOpcode => Halted(BAD_OPCODE)
    case Decoded(instr, length) => Exec(p, Moved(s, length), instr)
  }

  // The first state: the entry function has been called without arguments.
  function Start(p: Program): Outcome {
    if p.entry >= |p.constants| then Halted(BAD_CONSTANT)
    else
      var s := State(Loc(p.entry, 0), [], [], seq(|p.constants|, _ => VNull), [], H.After(0, H.NULL_SZ), []);
      Enter(p, s, if IsFunctionConstant(p, p.entry) then VFunc(p.entry) else VNull, 0, false, [VNull])
  }

  // -------------------------------------------------------------------- runs

  // Consecutive states of a run.
  ghost predicate IsRun(p: Program, ss: seq<State>) {
    && |ss| > 0
    && forall i :: 0 <= i < |ss| - 1 ==> |ss[i].frames| > 0 && Step(p, ss[i]) == Next(ss[i + 1])
  }

  // A run without its last step.
  lemma Front(p: Program, ss: seq<State>) returns (front: seq<State>)
    requires IsRun(p, ss) && |ss| > 1
    ensures front == ss[..|ss| - 1] && IsRun(p, front)
    ensures var t := ss[|ss| - 2];
            && front[0] == ss[0] && front[|front| - 1] == t && (forall i :: 0 <= i < |front| ==> front[i] == ss[i])
            && |t.frames| > 0 && Step(p, t) == Next(ss[|ss| - 1])
  {
    hide Step;
    front := ss[..|ss| - 1];
  }

  // A state that is not the last has a next one.
  lemma Continues(p: Program, ss: seq<State>, n: nat)
    requires IsRun(p, ss) && n < |ss|
    ensures n < |ss| - 1 ==> |ss[n].frames| > 0 && Step(p, ss[n]) == Next(ss[n + 1])
  {
    hide Step;
  }

  // The machine is deterministic: of two runs from one state, the shorter begins the other.
  lemma {:induction false} RunsAgree(p: Program, ss: seq<State>, zs: seq<State>)
    requires IsRun(p, ss) && IsRun(p, zs) && ss[0] == zs[0] && |ss| <= |zs|
    ensures ss == zs[..|ss|]
    decreases |ss|
  {
    hide Step;
    if |ss| > 1 {
      var front := Front(p, ss);
      RunsAgree(p, front, zs);
      var i := |ss| - 2;
      assert zs[i] == zs[..|front|][i] == ss[i] && Step(p, zs[i]) == Next(zs[i + 1]);
    } else {
      assert zs[..1] == [zs[0]];
    }
  }

  // No run from the same state goes beyond one that has come to its end.
  lemma RunEnds(p: Program, ss: seq<State>, zs: seq<State>)
    requires IsRun(p, ss) && IsRun(p, zs) && ss[0] == zs[0]
    requires var t := ss[|ss| - 1]; t.frames == [] || Step(p, t).Halted?
    ensures |zs| <= |ss| && zs == ss[..|zs|]
  {
    hide Step;
    if |ss| <= |zs| {
      RunsAgree(p, ss, zs);
      assert zs[|ss| - 1] == zs[..|ss|][|ss| - 1];
      Continues(p, zs, |ss| - 1);
      assert zs == zs[..|ss|];
    } else {
      RunsAgree(p, zs, ss);
    }
  }
}
