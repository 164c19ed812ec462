/** What a call finds in its slots, and when a built-in is refused for the frame of its caller. */
module BcCalls {
  import opened Bytecode
  import opened BcSpec
  import opened BcValues
  import opened BcSafety
  import opened Operators

  // ------------------------------------------------------- the slots of a frame

  // A method starts with receiver and arguments, then one slot nothing was stored in, the
  // first local, unless it was called without any, then null.
  lemma MethodSlots(p: Program, s: State)
    requires |s.frames| > 0 && Fetch(p, s.ip).Decoded? && Fetch(p, s.ip).instr.CallMethod?
    requires Step(p, s).Next? && |Step(p, s).state.frames| > |s.frames|
    ensures var t, argc := Step(p, s).state, Fetch(p, s.ip).instr.argc;
            var locals, pops := t.frames[|s.frames|].locals, MethodPops(argc);
            && |t.frames| == |s.frames| + 1 && pops <= |s.operands|
            && IsFunctionConstant(p, t.ip.func) && p.constants[t.ip.func].params == argc
            && |locals| == Slots(p, t.ip.func)
            && (forall i :: 0 <= i < |locals| ==>
                  locals[i] == if i < pops then s.operands[|s.operands| - pops + i]
                               else if i == argc then VUnset else VNull)
            && (VUnset !in s.operands ==>
                  forall i :: 0 <= i < |locals| ==> (locals[i] == VUnset <==> argc > 0 && i == argc))
  {
    hide Find, Operation, ArraySet, ArrayGet, IsOperation;
    var Decoded(CallMethod(k, argc), length) := Fetch(p, s.ip);
    var m := Moved(s, length);
    var v := MethodScratch(m, argc)[0];
    if Find(m.cells, v, p.constants[k].s).ChainEnd? {
      BuiltinStays(Popped(m, MethodPops(argc)), Find(m.cells, v, p.constants[k].s).v, p.constants[k].s, argc,
                   MethodScratch(m, argc));
      assert false;
    }
  }

  // Built-in methods run without a frame of their own.
  lemma BuiltinStays(s: State, v: Value, name: string, argc: nat, scratch: seq<Value>)
    requires |scratch| == argc + 1
    ensures Builtin(s, v, name, argc, scratch).Next? ==> Builtin(s, v, name, argc, scratch).state.frames == s.frames
  {
    hide Operation, IsOperation;
    if IsPrimitive(v) && IsOperation(v, name) && argc == 2 { OperationStays(s, v, name, scratch[1]); }
  }

  lemma OperationStays(s: State, v: Value, name: string, second: Value)
    requires IsPrimitive(v) && IsOperation(v, name)
    ensures match Operation(s, v, name, second)
            case Halted(stop) => stop != CALLER_FRAME
            case Next(t) => t.frames == s.frames
  {
    hide Arithmetic, Compares;
  }

  // A function starts with null, its arguments, and null in all other slots.
  lemma FunctionSlots(p: Program, s: State)
    requires |s.frames| > 0 && Fetch(p, s.ip).Decoded? && Fetch(p, s.ip).instr.CallFunction?
    requires Step(p, s).Next?
    ensures var t, argc := Step(p, s).state, Fetch(p, s.ip).instr.argc;
            && |t.frames| == |s.frames| + 1 && argc < |s.operands|
            && IsFunctionConstant(p, t.ip.func) && p.constants[t.ip.func].params == argc + 1
            && var locals := t.frames[|s.frames|].locals;
            && |locals| == Slots(p, t.ip.func)
            && (forall i :: 0 <= i < |locals| ==>
                  locals[i] == if 1 <= i <= argc then s.operands[|s.operands| - argc + i - 1] else VNull)
            && (VUnset !in s.operands ==> VUnset !in locals)
  {
  }

  // ------------------------------------------------------ the frame of the caller

  // The slots a built-in wants to see in the frame of its caller, although it reads its
  // arguments elsewhere.
  function Asked(p: Program, s: State, k: nat, argc: nat): nat
    requires CallReady(p, s, k, argc)
  {
    match Target(p, s, k, argc)
    case ChainEnd(v) =>
      if IsPrimitive(v) then (if argc == 2 then 1 else 0)
      else if !IsArray(s.cells, v) then 0
      else if p.constants[k].s == "set" then 2
      else if p.constants[k].s == "get" then 1
      else 0
    case _ => 0
  }

  // A built-in is about to be called by a function with too few slots.
  predicate CallerShort(p: Program, s: State) {
    match Fetch(p, s.ip)
    case Decoded(CallMethod(k, argc), length) =>
      && CallReady(p, s, k, argc) && |s.frames| < MAX_FRAMES
      && IsFunctionConstant(p, s.ip.func) && Slots(p, s.ip.func) < Asked(p, Moved(s, length), k, argc)
    case _ => false
  }

  // The check of the caller's frame fails exactly for callers of fewer slots than the
  // built-in asks for: two for `set` of an array, one for `get` and for any method of a
  // primitive value with one argument, whatever the arguments are.
  lemma CallerCheck(p: Program, heights: Heights, s: State)
    requires Checked(p, heights) && Inv(p, heights, s)
    ensures Step(p, s) == Halted(CALLER_FRAME) <==> CallerShort(p, s)
  {
    hide Exec, Inv, Checked, Slots, Asked;
    Readied(p, heights, s);
    TopFrame(p, heights, s);
    var Decoded(instr, length) := Fetch(p, s.ip);
    var m := Moved(s, length);
    if instr.CallMethod? {
      CallChecks(p, m, instr.index, instr.argc);
    } else {
      NoCheck(p, m, instr);
    }
  }

  lemma CallChecks(p: Program, s: State, k: nat, argc: nat)
    requires |s.frames| > 0 && CallReady(p, s, k, argc)
    ensures Exec(p, s, CallMethod(k, argc)) == Halted(CALLER_FRAME)
       <==> |s.frames| < MAX_FRAMES && |s.frames[|s.frames| - 1].locals| < Asked(p, s, k, argc)
  {
    hide Find, Operation, ArraySet, ArrayGet, IsOperation;
    var u, name, scratch := Popped(s, MethodPops(argc)), p.constants[k].s, MethodScratch(s, argc);
    match Target(p, s, k, argc)
    case ChainEnd(v) =>
      NoOperations(v);
      if IsArray(s.cells, v) {
        ArrayChecks(u, v.a, argc, scratch);
      } else if IsPrimitive(v) && argc == 2 && IsOperation(v, name) {
        OperationStays(u, v, name, scratch[1]);
      }
    case _ =>
  }

  lemma ArrayChecks(s: State, a: nat, argc: nat, scratch: seq<Value>)
    requires |s.frames| > 0 && |scratch| == argc + 1 && a < |s.cells| && s.cells[a].Arr?
    ensures ArraySet(s, a, argc, scratch) == Halted(CALLER_FRAME) <==> |s.frames[|s.frames| - 1].locals| < 2
    ensures ArrayGet(s, a, argc, scratch) == Halted(CALLER_FRAME) <==> |s.frames[|s.frames| - 1].locals| < 1
  {
  }

  lemma NoCheck(p: Program, s: State, instr: Instr)
    requires |s.frames| > 0 && !instr.CallMethod?
    ensures Exec(p, s, instr) != Halted(CALLER_FRAME)
  {
    hide Find;
  }
}
