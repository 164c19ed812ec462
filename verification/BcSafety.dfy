/**
 Stack discipline of checked programs. A table gives every reachable instruction one
 operand height; programs it fits never miss an operand, leave their code or touch a
 local or constant that is not there, over any run.
 */
module BcSafety {
  import opened Ast
  import opened Bytecode
  import opened BcSpec
  import opened BcValues
  import H = Heap

  // The number of operands of the current function when an instruction starts.
  type Heights = map<Loc, nat>

  // ------------------------------------------------------------ checked programs

  // Operands an instruction takes and leaves.
  function Pops(p: Program, instr: Instr): nat {
    match instr
    case Drop => 1
    case Print(_, argc) => argc
    case MakeArray => 2
    case MakeObject(k) => if IsClassConstant(p, k) then |p.constants[k].members| + 1 else 0
    case GetField(_) => 1
    case SetField(_) => 2
    case CallMethod(_, argc) => MethodPops(argc)
    case CallFunction(argc) => argc + 1
    case SetLocal(_) => 1
    case SetGlobal(_) => 1
    case Branch(_) => 1
    case Return => 1
    case _ => 0
  }

  function Pushes(instr: Instr): nat {
    match instr
    case Drop => 0
    case Branch(_) => 0
    case Jump(_) => 0
    case _ => 1
  }

  // Indices in range and of the right kind.
  predicate InstrOk(p: Program, func: nat, instr: Instr) {
    match instr
    case Constant(k) => k < |p.constants| && !p.constants[k].KClass?
    case Print(k, argc) => IsStringConstant(p, k) && Placeholders(p.constants[k].s) <= argc
    case MakeObject(k) => IsClassConstant(p, k)
    case GetField(k) => IsStringConstant(p, k)
    case SetField(k) => IsStringConstant(p, k)
    case CallMethod(k, _) => IsStringConstant(p, k)
    case SetLocal(i) => IsFunctionConstant(p, func) && i < Slots(p, func)
    case GetLocal(i) => IsFunctionConstant(p, func) && i < Slots(p, func)
    case SetGlobal(k) => IsStringConstant(p, k) && k in p.globals
    case GetGlobal(k) => IsStringConstant(p, k) && k in p.globals
    case _ => true
  }

  predicate At(heights: Heights, loc: Loc, h: int) { loc in heights && heights[loc] == h }

  // One instruction against the table.
  predicate FlowOk(p: Program, heights: Heights, loc: Loc)
    requires loc in heights
  {
    match Fetch(p, loc)
    case Decoded(instr, length) =>
      var next := Loc(loc.func, loc.off + length);
      var h := heights[loc] - Pops(p, instr) + Pushes(instr);
      && InstrOk(p, loc.func, instr) && Pops(p, instr) <= heights[loc]
      && (match instr
          case Return => heights[loc] == 1
          case Jump(d) => At(heights, Loc(next.func, next.off + d), h)
          case Branch(d) => At(heights, next, h) && At(heights, Loc(next.func, next.off + d), h)
          case _ => At(heights, next, h))
    case _ => false
  }

  ghost predicate Checked(p: Program, heights: Heights) {
    && (forall k :: IsFunctionConstant(p, k) ==> At(heights, Loc(k, 0), 0))
    && (forall loc :: loc in heights ==> FlowOk(p, heights, loc))
  }

  // --------------------------------------------------------- the stack invariant

  // Where the function of frame `i` goes on: the instruction pointer, or the return
  // address kept in the frame above.
  function Resumes(s: State, i: nat): Loc
    requires i < |s.frames|
  {
    if i == |s.frames| - 1 then s.ip else s.frames[i + 1].ret
  }

  // Operands that belong to the callers of frame `n`: each waits for one result.
  function Below(heights: Heights, frames: seq<Frame>, n: nat): int
    requires n < |frames|
  {
    if n == 0 then 0
    else Below(heights, frames, n - 1) + (if frames[n].ret in heights then heights[frames[n].ret] as int - 1 else 0)
  }

  ghost predicate Inv(p: Program, heights: Heights, s: State) {
    && |s.frames| > 0 && |s.globals| == |p.constants|
    && (forall i :: 0 <= i < |s.frames| ==> FrameOk(p, heights, s, i))
    && (forall i :: 1 <= i < |s.frames| ==> s.frames[i].ret in heights && heights[s.frames[i].ret] >= 1)
    && s.ip in heights && |s.operands| == Below(heights, s.frames, |s.frames| - 1) + heights[s.ip]
  }

  // The frame is of the function that goes on in it, at a known instruction.
  predicate FrameOk(p: Program, heights: Heights, s: State, i: nat)
    requires i < |s.frames|
  {
    var loc := Resumes(s, i);
    loc in heights && IsFunctionConstant(p, loc.func) && |s.frames[i].locals| == Slots(p, loc.func)
  }

  // ------------------------------------------------------------ shapes of a step

  // A step within a function: the callers and what lies below its operands stay.
  ghost predicate Flat(s: State, t: State, pops: nat, pushes: nat) {
    && |t.frames| == |s.frames| > 0 && |t.globals| == |s.globals|
    && t.frames[..|s.frames| - 1] == s.frames[..|s.frames| - 1]
    && t.frames[|s.frames| - 1].ret == s.frames[|s.frames| - 1].ret
    && |t.frames[|s.frames| - 1].locals| == |s.frames[|s.frames| - 1].locals|
    && pops <= |s.operands| && |t.operands| == |s.operands| - pops + pushes
    && t.operands[..|s.operands| - pops] == s.operands[..|s.operands| - pops]
  }

  // A step into a user function.
  ghost predicate Entered(p: Program, s: State, t: State, ret: Loc, pops: nat) {
    && |t.frames| == |s.frames| + 1 && |t.globals| == |s.globals|
    && t.frames[..|s.frames|] == s.frames
    && t.frames[|s.frames|].ret == ret
    && IsFunctionConstant(p, t.ip.func) && t.ip.off == 0
    && |t.frames[|s.frames|].locals| == Slots(p, t.ip.func)
    && pops <= |s.operands| && t.operands == s.operands[..|s.operands| - pops]
    && t.cells == s.cells
  }

  // ------------------------------------------------------- single instructions

  // A step that stays in the function, or a stop no program text can prevent.
  ghost predicate FlatOutcome(s: State, out: Outcome, pops: nat, pushes: nat) {
    match out
    case Halted(stop) => !Static(stop)
    case Next(t) => Flat(s, t, pops, pushes)
  }

  // What an executing instruction may rely on.
  ghost predicate Ready(p: Program, s: State, instr: Instr) {
    && |s.frames| > 0 && |s.globals| == |p.constants|
    && InstrOk(p, s.ip.func, instr) && Pops(p, instr) <= |s.operands|
    && IsFunctionConstant(p, s.ip.func) && |s.frames[|s.frames| - 1].locals| == Slots(p, s.ip.func)
  }

  lemma PopFlat(s: State, n: nat)
    requires |s.frames| > 0 && n <= |s.operands|
    ensures Flat(s, Popped(s, n), n, 0)
  {
  }

  // Pushing a value after popping some.
  lemma PushFlat(s: State, u: State, v: Value, pops: nat)
    requires Flat(s, u, pops, 0)
    ensures FlatOutcome(s, Push(u, v), pops, 1)
  {
    if |u.operands| < MAX_OPERANDS {
      var t := u.(operands := u.operands + [v]);
      assert t.operands[..|s.operands| - pops] == u.operands[..|s.operands| - pops];
      assert Push(u, v) == Next(t);
    }
  }

  lemma NewFlat(s: State, u: State, v: Value, size: nat, pops: nat)
    requires Flat(s, u, pops, 0)
    ensures FlatOutcome(s, PushNew(u, v, size), pops, 1)
  {
    if H.Fits(u.used, size) { PushFlat(s, u.(used := H.After(u.used, size)), v, pops); }
  }

  lemma ConstantFlat(p: Program, s: State, k: nat)
    requires Ready(p, s, Constant(k))
    ensures FlatOutcome(s, ExecConstant(p, s, k), 0, 1)
  {
    hide FlatOutcome, Push, PushNew;
    PopFlat(s, 0);
    assert Popped(s, 0) == s;
    match p.constants[k]
    case KInteger(i) => NewFlat(s, s, VInt(i), H.INTEGER_SZ, 0);
    case KNull => PushFlat(s, s, VNull, 0);
    case KBoolean(b) => NewFlat(s, s, VBool(b), H.BOOLEAN_SZ, 0);
    case KString(_) => PushFlat(s, s, VString(k), 0);
    case KFunction(_, _, _) => PushFlat(s, s, VFunc(k), 0);
  }

  lemma PrintFlat(p: Program, s: State, k: nat, argc: nat)
    requires Ready(p, s, Instr.Print(k, argc))
    ensures FlatOutcome(s, ExecPrint(p, s, k, argc), argc, 1)
  {
    hide Push;
    PopFlat(s, argc);
    var args := s.operands[|s.operands| - argc..];
    var u := Popped(s, argc).(output := s.output + [Printed(p.constants[k].s, args[..Placeholders(p.constants[k].s)])]);
    PushFlat(s, u, VNull, argc);
  }

  lemma ArrayFlat(p: Program, s: State)
    requires Ready(p, s, MakeArray)
    ensures FlatOutcome(s, ExecArray(s), 2, 1)
  {
    hide Push, H.Fits, H.After;
    PopFlat(s, 2);
    if Peek(s, 1).VInt? && Peek(s, 1).i >= 0 {
      var n := Peek(s, 1).i;
      var used, cells := H.After(s.used, H.ArraySize(n)), s.cells + [Arr(seq(n, _ => Peek(s, 0)))];
      PushFlat(s, Popped(s, 2).(used := used, cells := cells), VRef(|s.cells|), 2);
    }
  }

  lemma ObjectFlat(p: Program, s: State, k: nat)
    requires Ready(p, s, MakeObject(k))
    ensures FlatOutcome(s, ExecObject(p, s, k), |p.constants[k].members| + 1, 1)
  {
    hide Push, H.Fits, H.After;
    var members := p.constants[k].members;
    var n := |members|;
    PopFlat(s, n + 1);
    var cell := Obj(Peek(s, n), MakeFields(p, members, s.operands[|s.operands| - n..]));
    var used := H.After(s.used, H.ObjectSize(n));
    PushFlat(s, Popped(s, n + 1).(used := used, cells := s.cells + [cell]), VRef(|s.cells|), n + 1);
  }

  lemma FieldFlat(p: Program, s: State, k: nat)
    requires Ready(p, s, GetField(k))
    ensures FlatOutcome(s, ExecGetField(p, s, k), 1, 1)
    ensures |s.operands| >= 2 ==> FlatOutcome(s, ExecSetField(p, s, k), 2, 1)
  {
    hide Push, Find;
    PopFlat(s, 1);
    var r := Find(s.cells, Peek(s, 0), p.constants[k].s);
    if r.Slot? { PushFlat(s, Popped(s, 1), s.cells[r.a].fields[r.i].value, 1); }
    if |s.operands| >= 2 {
      PopFlat(s, 2);
      r := Find(s.cells, Peek(s, 1), p.constants[k].s);
      if r.Slot? { PushFlat(s, Popped(s, 2).(cells := WithField(s.cells, r.a, r.i, Peek(s, 0))), Peek(s, 0), 2); }
    }
  }

  lemma LocalFlat(p: Program, s: State, i: nat)
    requires Ready(p, s, GetLocal(i))
    ensures FlatOutcome(s, ExecGetLocal(s, i), 0, 1)
    ensures |s.operands| > 0 ==> FlatOutcome(s, ExecSetLocal(s, i), 1, 1)
  {
    hide Push;
    PushFlat(s, s, s.frames[|s.frames| - 1].locals[i], 0);
  }

  lemma GlobalFlat(p: Program, s: State, k: nat)
    requires Ready(p, s, GetGlobal(k))
    ensures FlatOutcome(s, ExecGetGlobal(p, s, k), 0, 1)
    ensures |s.operands| > 0 ==> FlatOutcome(s, ExecSetGlobal(p, s, k), 1, 1)
  {
    hide Push;
    PushFlat(s, s, s.globals[k], 0);
  }

  // ---------------------------------------------------------------------- calls

  // A built-in `get` or `set` that reaches a value other than an array pushes no result.
  predicate SilentCall(p: Program, s: State, k: nat, argc: nat)
    requires CallReady(p, s, k, argc)
  {
    var r := Target(p, s, k, argc);
    && (p.constants[k].s == "get" || p.constants[k].s == "set")
    && |s.frames| < MAX_FRAMES && r.ChainEnd? && r.v != VUnset && !IsArray(s.cells, r.v)
    && (IsPrimitive(r.v) ==> argc == 2 && CallerHas(s, 1))
  }

  ghost predicate CallOutcome(p: Program, s: State, out: Outcome, pops: nat, silent: bool) {
    match out
    case Halted(stop) => !Static(stop) && !silent
    case Next(t) =>
      if silent then Flat(s, t, pops, 0) && t.ip == s.ip
      else (Flat(s, t, pops, 1) && t.ip == s.ip) || Entered(p, s, t, s.ip, pops)
  }

  lemma EnterCall(p: Program, s: State, pops: nat, f: Value, argc: nat, isMethod: bool, scratch: seq<Value>)
    requires |s.frames| > 0 && pops <= |s.operands|
    ensures CallOutcome(p, s, Enter(p, Popped(s, pops), f, argc, isMethod, scratch), pops, false)
  {
    var out := Enter(p, Popped(s, pops), f, argc, isMethod, scratch);
    if out.Next? { assert out.state.frames[..|s.frames|] == s.frames; }
  }

  lemma FunctionCalled(p: Program, s: State, argc: nat)
    requires Ready(p, s, CallFunction(argc))
    ensures CallOutcome(p, s, ExecCallFunction(p, s, argc), argc + 1, false)
  {
    hide Enter;
    if |s.frames| < MAX_FRAMES {
      EnterCall(p, s, argc + 1, Peek(s, argc), argc, false, FunctionScratch(s, argc));
    }
  }

  lemma FlatIsCall(p: Program, s: State, out: Outcome, pops: nat)
    requires FlatOutcome(s, out, pops, 1) && (out.Next? ==> out.state.ip == s.ip)
    ensures CallOutcome(p, s, out, pops, false)
  {
  }

  lemma OperationFlat(p: Program, s: State, u: State, v: Value, name: string, second: Value, pops: nat)
    requires Flat(s, u, pops, 0) && u.ip == s.ip && IsPrimitive(v) && IsOperation(v, name)
    ensures CallOutcome(p, s, Operation(u, v, name, second), pops, false)
  {
    hide FlatOutcome, PushNew, Flat;
    var out := Operation(u, v, name, second);
    if second != VUnset && out != Halted(KIND) && out != Halted(ARITHMETIC) {
      var w, size := OperationPushes(u, v, name, second);
      NewFlat(s, u, w, size, pops);
      PushesKeepIp(u);
      FlatIsCall(p, s, out, pops);
    }
  }

  lemma ArrayFlats(p: Program, s: State, u: State, a: nat, argc: nat, scratch: seq<Value>, pops: nat)
    requires Flat(s, u, pops, 0) && u.ip == s.ip && |scratch| == argc + 1 && a < |u.cells| && u.cells[a].Arr?
    ensures CallOutcome(p, s, ArraySet(u, a, argc, scratch), pops, false)
    ensures CallOutcome(p, s, ArrayGet(u, a, argc, scratch), pops, false)
  {
    hide Push;
    PushesKeepIp(u);
    if argc >= 2 && scratch[1].VInt? && 0 <= scratch[1].i < |u.cells[a].elems| {
      var w := u.(cells := u.cells[a := Arr(u.cells[a].elems[scratch[1].i := scratch[2]])]);
      PushFlat(s, w, scratch[2], pops);
      PushFlat(s, u, u.cells[a].elems[scratch[1].i], pops);
    }
  }

  // A method call enters a user function, pushes one result, or is silent.
  lemma MethodCalled(p: Program, s: State, k: nat, argc: nat)
    requires Ready(p, s, CallMethod(k, argc))
    ensures CallOutcome(p, s, ExecCallMethod(p, s, k, argc), MethodPops(argc), SilentCall(p, s, k, argc))
  {
    hide Enter, Builtin, Find, CallOutcome;
    var name, pops := p.constants[k].s, MethodPops(argc);
    if |s.frames| >= MAX_FRAMES {
      StopIsCall(p, s, FRAME_LIMIT, pops);
    } else {
      var scratch := MethodScratch(s, argc);
      assert scratch[0] == Peek(s, pops - 1);
      match Find(s.cells, scratch[0], name) {
        case Slot(a, i) => EnterCall(p, s, pops, s.cells[a].fields[i].value, argc, true, scratch);
        case ChainEnd(v) => BuiltinCalled(p, s, k, argc, v);
        case BadChain => StopIsCall(p, s, DANGLING, pops);
      }
    }
  }

  lemma StopIsCall(p: Program, s: State, stop: Stop, pops: nat)
    requires !Static(stop)
    ensures CallOutcome(p, s, Halted(stop), pops, false)
  {
  }

  lemma BuiltinCalled(p: Program, s: State, k: nat, argc: nat, v: Value)
    requires Ready(p, s, CallMethod(k, argc)) && |s.frames| < MAX_FRAMES
    requires Target(p, s, k, argc) == ChainEnd(v)
    ensures var out := Builtin(Popped(s, MethodPops(argc)), v, p.constants[k].s, argc, MethodScratch(s, argc));
            CallOutcome(p, s, out, MethodPops(argc), SilentCall(p, s, k, argc))
  {
    hide CallOutcome, Operation, ArraySet, ArrayGet, Find, IsOperation, Flat;
    var name, pops := p.constants[k].s, MethodPops(argc);
    var u, scratch := Popped(s, pops), MethodScratch(s, argc);
    PopFlat(s, pops);
    NoOperations(v);
    var out := Builtin(u, v, name, argc, scratch);
    if IsPrimitive(v) && argc == 2 && CallerHas(u, 1) && IsOperation(v, name) {
      OperationFlat(p, s, u, v, name, scratch[1], pops);
    } else if (name == "set" || name == "get") && IsArray(s.cells, v) {
      ArrayFlats(p, s, u, v.a, argc, scratch, pops);
    } else if out.Halted? {
      StopIsCall(p, s, out.stop, pops);
    } else {
      SilentOutcome(p, s, u, pops);
    }
  }

  lemma NoOperations(v: Value)
    ensures !IsOperation(v, "get") && !IsOperation(v, "set")
  {
  }

  lemma SilentOutcome(p: Program, s: State, u: State, pops: nat)
    requires Flat(s, u, pops, 0) && u.ip == s.ip
    ensures CallOutcome(p, s, Next(u), pops, true)
  {
  }

  // ----------------------------------------------------------- the whole machine

  predicate IsCall(instr: Instr) { instr.CallMethod? || instr.CallFunction? }

  lemma FlatInstruction(p: Program, s: State, instr: Instr)
    requires Ready(p, s, instr) && !IsCall(instr) && !instr.Return?
    ensures FlatOutcome(s, Exec(p, s, instr), Pops(p, instr), Pushes(instr))
  {
    hide FlatOutcome, ExecConstant, ExecPrint, ExecArray, ExecObject, ExecGetField, ExecSetField, ExecSetLocal,
         ExecGetLocal, ExecSetGlobal, ExecGetGlobal;
    match instr
    case Drop => PlainFlat(s, 0);
    case Constant(k) => ConstantFlat(p, s, k);
    case Print(k, argc) => PrintFlat(p, s, k, argc);
    case MakeArray => ArrayFlat(p, s);
    case MakeObject(k) => ObjectFlat(p, s, k);
    case GetField(k) => FieldFlat(p, s, k);
    case SetField(k) => FieldFlat(p, s, k);
    case SetLocal(i) => LocalFlat(p, s, i);
    case GetLocal(i) => LocalFlat(p, s, i);
    case SetGlobal(k) => GlobalFlat(p, s, k);
    case GetGlobal(k) => GlobalFlat(p, s, k);
    case Branch(d) => PlainFlat(s, d);
    case Jump(d) => PlainFlat(s, d);
  }

  lemma PlainFlat(s: State, d: int)
    requires |s.frames| > 0
    ensures FlatOutcome(s, Next(Moved(s, d)), 0, 0)
    ensures |s.operands| > 0 ==> FlatOutcome(s, ExecDrop(s), 1, 0) && FlatOutcome(s, ExecBranch(s, d), 1, 0)
  {
  }

  // Where a flat instruction continues.
  lemma Lands(p: Program, s: State, instr: Instr)
    requires |s.frames| > 0 && !IsCall(instr) && !instr.Return? && Exec(p, s, instr).Next?
    ensures var t := Exec(p, s, instr).state;
            match instr
            case Jump(d) => t.ip == Loc(s.ip.func, s.ip.off + d)
            case Branch(d) => t.ip == s.ip || t.ip == Loc(s.ip.func, s.ip.off + d)
            case _ => t.ip == s.ip
  {
    hide Find, FieldIndex, Placeholders, Push, PushNew;
    PushesKeepIp(s);
    var t := Exec(p, s, instr).state;
    match instr
    case Drop => assert t.ip == s.ip;
    case Constant(k) => assert t.ip == s.ip;
    case Print(k, argc) => assert t.ip == s.ip;
    case MakeArray => assert t.ip == s.ip;
    case MakeObject(k) => assert t.ip == s.ip;
    case GetField(k) => assert t.ip == s.ip;
    case SetField(k) => assert t.ip == s.ip;
    case SetLocal(i) => assert t.ip == s.ip;
    case GetLocal(i) => assert t.ip == s.ip;
    case SetGlobal(k) => GlobalsKeepIp(p, s, k);
    case GetGlobal(k) => GlobalsKeepIp(p, s, k);
    case _ =>
  }

  lemma GlobalsKeepIp(p: Program, s: State, k: nat)
    ensures ExecSetGlobal(p, s, k).Next? ==> ExecSetGlobal(p, s, k).state.ip == s.ip
    ensures ExecGetGlobal(p, s, k).Next? ==> ExecGetGlobal(p, s, k).state.ip == s.ip
  {
  }

  lemma PushesKeepIp(s: State)
    ensures forall u: State, v :: Push(u, v).Next? ==> Push(u, v).state.ip == u.ip
    ensures forall u: State, v, n :: PushNew(u, v, n).Next? ==> PushNew(u, v, n).state.ip == u.ip
  {
  }

  // Frames that agree in return addresses leave the same operands below them.
  lemma {:induction false} BelowSame(heights: Heights, fs: seq<Frame>, gs: seq<Frame>, n: nat)
    requires n < |fs| && n < |gs| && forall i :: 1 <= i <= n ==> fs[i].ret == gs[i].ret
    ensures Below(heights, fs, n) == Below(heights, gs, n)
  {
    if n > 0 { BelowSame(heights, fs, gs, n - 1); }
  }

  // A step within the function re-establishes the invariant exactly when it leaves as
  // many operands as the table expects.
  lemma FlatKeeps(p: Program, heights: Heights, s: State, t: State, pops: nat, pushes: nat)
    requires Inv(p, heights, s) && Flat(s, t, pops, pushes)
    requires t.ip.func == s.ip.func && t.ip in heights
    ensures Inv(p, heights, t) <==> heights[t.ip] == heights[s.ip] - pops + pushes
  {
    var top := |s.frames| - 1;
    forall i | 0 <= i < top ensures t.frames[i] == s.frames[i] {
      assert t.frames[..top][i] == s.frames[..top][i];
    }
    BelowSame(heights, s.frames, t.frames, top);
    assert FrameOk(p, heights, s, top);
    forall i | 0 <= i <= top ensures FrameOk(p, heights, t, i) {
      assert FrameOk(p, heights, s, i);
    }
  }

  lemma EnterKeeps(p: Program, heights: Heights, s: State, t: State, ret: Loc, pops: nat)
    requires Checked(p, heights) && Inv(p, heights, s) && Entered(p, s, t, ret, pops)
    requires ret.func == s.ip.func && ret in heights && heights[ret] == heights[s.ip] - pops + 1 >= 1
    ensures Inv(p, heights, t)
  {
    hide FlowOk, Slots;
    var d := |s.frames|;
    assert At(heights, Loc(t.ip.func, 0), 0);
    EnterFrames(p, heights, s, t, ret, pops);
    BelowSame(heights, s.frames, t.frames, d - 1);
    assert Below(heights, t.frames, d) == Below(heights, t.frames, d - 1) + heights[ret] - 1;
  }

  lemma EnterFrames(p: Program, heights: Heights, s: State, t: State, ret: Loc, pops: nat)
    requires Inv(p, heights, s) && Entered(p, s, t, ret, pops)
    requires ret.func == s.ip.func && ret in heights && t.ip in heights
    ensures forall i :: 0 <= i < |s.frames| ==> t.frames[i] == s.frames[i]
    ensures forall i :: 0 <= i < |t.frames| ==> FrameOk(p, heights, t, i)
  {
    hide Slots;
    var d := |s.frames|;
    forall i | 0 <= i < d ensures t.frames[i] == s.frames[i] {
      assert t.frames[..d][i] == s.frames[i];
    }
    forall i | 0 <= i <= d ensures FrameOk(p, heights, t, i) {
      if i < d { assert FrameOk(p, heights, s, i); }
    }
  }

  lemma ReturnKeeps(p: Program, heights: Heights, s: State)
    requires Inv(p, heights, s) && heights[s.ip] == 1
    ensures var t := ExecReturn(s).state; if t.frames == [] then |t.operands| == 1 else Inv(p, heights, t)
  {
    var top := |s.frames| - 1;
    var t := ExecReturn(s).state;
    if top > 0 {
      BelowSame(heights, s.frames, t.frames, top - 1);
      forall i | 0 <= i < top ensures FrameOk(p, heights, t, i) {
        assert FrameOk(p, heights, s, i);
      }
    }
  }

  // The call about to be executed is silent.
  predicate Silent(p: Program, s: State) {
    match Fetch(p, s.ip)
    case Decoded(CallMethod(k, argc), length) =>
      CallReady(p, s, k, argc) && SilentCall(p, Moved(s, length), k, argc)
    case _ => false
  }

  lemma TopFrame(p: Program, heights: Heights, s: State)
    requires Inv(p, heights, s)
    ensures |s.frames| > 0 && |s.globals| == |p.constants| && s.ip in heights && heights[s.ip] <= |s.operands|
    ensures IsFunctionConstant(p, s.ip.func) && |s.frames[|s.frames| - 1].locals| == Slots(p, s.ip.func)
  {
    assert FrameOk(p, heights, s, |s.frames| - 1);
    BelowNonNegative(heights, s.frames, |s.frames| - 1);
  }

  // Moving the instruction pointer past the instruction readies it.
  lemma Readied(p: Program, heights: Heights, s: State)
    requires Checked(p, heights) && Inv(p, heights, s)
    ensures Fetch(p, s.ip).Decoded?
    ensures var d := Fetch(p, s.ip); Ready(p, Moved(s, d.length), d.instr)
  {
    hide Fetch, Checked, Inv, InstrOk, Pops, Slots, At;
    InTable(p, heights, s);
    TopFrame(p, heights, s);
  }

  lemma {:induction false} BelowNonNegative(heights: Heights, frames: seq<Frame>, n: nat)
    requires n < |frames| && forall i :: 1 <= i <= n ==> frames[i].ret in heights && heights[frames[i].ret] >= 1
    ensures Below(heights, frames, n) >= 0
  {
    if n > 0 { BelowNonNegative(heights, frames, n - 1); }
  }

  // What a step of a checked program may do.
  ghost predicate SafeOutcome(p: Program, heights: Heights, s: State, out: Outcome) {
    match out
    case Halted(stop) => !Static(stop) && !Silent(p, s)
    case Next(t) => if t.frames == [] then |t.operands| == 1 && !Silent(p, s) else Inv(p, heights, t) <==> !Silent(p, s)
  }

  // From a state that keeps the stack discipline every step of a checked program stops
  // for reasons of values or limits only, or ends the run with one result, or keeps the
  // discipline; the last fails exactly when the step is a silent built-in.
  lemma StepSafe(p: Program, heights: Heights, s: State)
    requires Checked(p, heights) && Inv(p, heights, s)
    ensures SafeOutcome(p, heights, s, Step(p, s))
  {
    hide Exec, Static;
    Readied(p, heights, s);
    var instr := Fetch(p, s.ip).instr;
    if instr.Return? {
      ReturnSafe(p, heights, s);
    } else if IsCall(instr) {
      CallSafe(p, heights, s);
    } else {
      FlatSafe(p, heights, s);
    }
  }

  lemma FlatSafe(p: Program, heights: Heights, s: State)
    requires Checked(p, heights) && Inv(p, heights, s)
    requires var d := Fetch(p, s.ip); d.Decoded? && !IsCall(d.instr) && !d.instr.Return?
    ensures SafeOutcome(p, heights, s, Step(p, s))
  {
    hide Exec, Static, Inv, Checked;
    Readied(p, heights, s);
    var Decoded(instr, length) := Fetch(p, s.ip);
    var m := Moved(s, length);
    FlatInstruction(p, m, instr);
    assert Step(p, s) == Exec(p, m, instr);
    if Exec(p, m, instr).Next? {
      var t := Exec(p, m, instr).state;
      Lands(p, m, instr);
      assert FlowOk(p, heights, s.ip) by { InTable(p, heights, s); }
      assert Flat(s, t, Pops(p, instr), Pushes(instr));
      FlatKeeps(p, heights, s, t, Pops(p, instr), Pushes(instr));
    }
  }

  lemma InTable(p: Program, heights: Heights, s: State)
    requires Checked(p, heights) && Inv(p, heights, s)
    ensures s.ip in heights && FlowOk(p, heights, s.ip)
  {
  }

  lemma ReturnSafe(p: Program, heights: Heights, s: State)
    requires Checked(p, heights) && Inv(p, heights, s)
    requires Fetch(p, s.ip).Decoded? && Fetch(p, s.ip).instr.Return?
    ensures SafeOutcome(p, heights, s, Step(p, s))
  {
    InTable(p, heights, s);
    ReturnKeeps(p, heights, s);
    assert Step(p, s) == ExecReturn(Moved(s, Fetch(p, s.ip).length));
    assert ExecReturn(Moved(s, Fetch(p, s.ip).length)) == ExecReturn(s);
  }

  lemma CallSafe(p: Program, heights: Heights, s: State)
    requires Checked(p, heights) && Inv(p, heights, s)
    requires Fetch(p, s.ip).Decoded? && IsCall(Fetch(p, s.ip).instr)
    ensures SafeOutcome(p, heights, s, Step(p, s))
  {
    hide ExecCallFunction, ExecCallMethod, Static, Inv, Checked, SilentCall;
    Readied(p, heights, s);
    var Decoded(instr, length) := Fetch(p, s.ip);
    var m := Moved(s, length);
    InTable(p, heights, s);
    var out := Exec(p, m, instr);
    match instr {
      case CallFunction(argc) => FunctionCalled(p, m, argc);
      case CallMethod(k, argc) => MethodCalled(p, m, k, argc);
    }
    if out.Next? {
      var t, pops := out.state, Pops(p, instr);
      if Silent(p, s) {
        assert Flat(s, t, pops, 0);
        FlatKeeps(p, heights, s, t, pops, 0);
      } else if |t.frames| == |s.frames| {
        assert Flat(s, t, pops, 1);
        FlatKeeps(p, heights, s, t, pops, 1);
      } else {
        assert Entered(p, s, t, m.ip, pops);
        EnterKeeps(p, heights, s, t, m.ip, pops);
      }
    }
  }
}
