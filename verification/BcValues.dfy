/**
 What the values of the machine point to, over any run of any program: references lead to
 cells that are there, parents are older than their children, and a slot nothing was
 stored in comes from a call that leaves one.
 */
module BcValues {
  import opened Ast
  import opened Bytecode
  import opened Operators
  import opened BcSpec
  import H = Heap

  // ------------------------------------------------------------- values and heap

  // A value points to something that is there; `strict` rules out unset slots.
  predicate ValueOk(p: Program, n: nat, v: Value, strict: bool) {
    match v
    case VString(k) => IsStringConstant(p, k)
    case VFunc(k) => IsFunctionConstant(p, k)
    case VRef(a) => a < n
    case VUnset => !strict
    case _ => true
  }

  ghost predicate AllOk(p: Program, n: nat, vs: seq<Value>, strict: bool) {
    forall i :: 0 <= i < |vs| ==> ValueOk(p, n, vs[i], strict)
  }

  // Parents are older than their children, whatever was written since.
  ghost predicate CellOk(p: Program, cells: seq<Cell>, a: nat, strict: bool)
    requires a < |cells|
  {
    match cells[a]
    case Arr(elems) => AllOk(p, |cells|, elems, strict)
    case Obj(parent, fields) =>
      && ValueOk(p, a, parent, strict)
      && forall i :: 0 <= i < |fields| ==> ValueOk(p, |cells|, fields[i].value, strict)
  }

  ghost predicate CellsOk(p: Program, cells: seq<Cell>, strict: bool) {
    forall a :: 0 <= a < |cells| ==> CellOk(p, cells, a, strict)
  }

  ghost predicate ValuesOk(p: Program, s: State, strict: bool) {
    && AllOk(p, |s.cells|, s.operands, strict)
    && AllOk(p, |s.cells|, s.globals, strict)
    && (forall i :: 0 <= i < |s.frames| ==> AllOk(p, |s.cells|, s.frames[i].locals, strict))
    && CellsOk(p, s.cells, strict)
  }

  lemma Weaken(p: Program, s: State, strict: bool)
    requires ValuesOk(p, s, true)
    ensures ValuesOk(p, s, strict)
  {
    forall a | 0 <= a < |s.cells| ensures CellOk(p, s.cells, a, strict) { assert CellOk(p, s.cells, a, true); }
  }

  // On such a heap every lookup ends, without a bad reference.
  lemma {:induction false} FindEnds(p: Program, cells: seq<Cell>, v: Value, name: string, strict: bool)
    requires CellsOk(p, cells, strict) && ValueOk(p, |cells|, v, strict)
    ensures !Find(cells, v, name).BadChain?
    ensures Find(cells, v, name).ChainEnd? ==>
            ValueOk(p, |cells|, Find(cells, v, name).v, strict) && !IsObject(cells, Find(cells, v, name).v)
    decreases if v.VRef? then v.a + 1 else 0
  {
    if v.VRef? && cells[v.a].Obj? {
      assert CellOk(p, cells, v.a, strict);
      FindEnds(p, cells, cells[v.a].parent, name, strict);
    }
  }

  // ---------------------------------------------------------------- method calls

  predicate CallReady(p: Program, s: State, k: nat, argc: nat) {
    IsStringConstant(p, k) && MethodPops(argc) <= |s.operands|
  }

  function Target(p: Program, s: State, k: nat, argc: nat): Lookup
    requires CallReady(p, s, k, argc)
  {
    Find(s.cells, Peek(s, MethodPops(argc) - 1), p.constants[k].s)
  }

  // Calls that leave an unset slot where a program can read it: a method with locals of
  // its own, and `set` without a value.
  predicate LeavesUnset(p: Program, s: State, k: nat, argc: nat)
    requires CallReady(p, s, k, argc)
  {
    var r := Target(p, s, k, argc);
    && argc > 0
    && match r
       case Slot(a, i) =>
         var f := s.cells[a].fields[i].value;
         f.VFunc? && IsFunctionConstant(p, f.k) && p.constants[f.k].params == argc && p.constants[f.k].locals > 0
       case ChainEnd(v) => IsArray(s.cells, v) && p.constants[k].s == "set" && argc == 2
       case BadChain => false
  }

  // The call about to be executed leaves an unset slot.
  predicate Unsets(p: Program, s: State) {
    match Fetch(p, s.ip)
    case Decoded(CallMethod(k, argc), length) =>
      CallReady(p, s, k, argc) && LeavesUnset(p, Moved(s, length), k, argc)
    case _ => false
  }

  // ------------------------------------------------------- single instructions

  // What may come of a step: no reference is bad, and no slot unset if none was.
  ghost predicate Sound(p: Program, out: Outcome, strict: bool) {
    match out
    case Halted(stop) => stop != DANGLING && (strict ==> stop != UNSET)
    case Next(t) => ValuesOk(p, t, strict)
  }

  lemma PushSound(p: Program, s: State, v: Value, strict: bool)
    requires ValuesOk(p, s, strict) && ValueOk(p, |s.cells|, v, strict)
    ensures Sound(p, Push(s, v), strict)
  {
  }

  // Taking room on the heap changes no value.
  lemma NewSound(p: Program, s: State, v: Value, size: nat, strict: bool)
    requires ValuesOk(p, s, strict) && ValueOk(p, |s.cells|, v, strict)
    ensures Sound(p, PushNew(s, v, size), strict)
  {
    if H.Fits(s.used, size) { PushSound(p, s.(used := H.After(s.used, size)), v, strict); }
  }

  lemma PopSound(p: Program, s: State, n: nat, strict: bool)
    requires ValuesOk(p, s, strict) && n <= |s.operands|
    ensures ValuesOk(p, Popped(s, n), strict)
    ensures forall i :: 0 <= i < |s.operands| ==> ValueOk(p, |s.cells|, s.operands[i], strict)
  {
  }

  lemma ConstantSound(p: Program, s: State, k: nat, strict: bool)
    requires ValuesOk(p, s, strict)
    ensures Sound(p, ExecConstant(p, s, k), strict)
  {
    hide Sound, Push, PushNew, ValuesOk;
    if k < |p.constants| && !p.constants[k].KClass? {
      match p.constants[k]
      case KInteger(i) => NewSound(p, s, VInt(i), H.INTEGER_SZ, strict);
      case KNull => PushSound(p, s, VNull, strict);
      case KBoolean(b) => NewSound(p, s, VBool(b), H.BOOLEAN_SZ, strict);
      case KString(_) => PushSound(p, s, VString(k), strict);
      case KFunction(_, _, _) => PushSound(p, s, VFunc(k), strict);
    } else {
      StopSound(p, BAD_CONSTANT, strict);
    }
  }

  lemma StopSound(p: Program, stop: Stop, strict: bool)
    requires stop != DANGLING && (strict ==> stop != UNSET)
    ensures Sound(p, Halted(stop), strict)
  {
  }

  lemma NextSound(p: Program, s: State, strict: bool)
    requires ValuesOk(p, s, strict)
    ensures Sound(p, Next(s), strict)
  {
  }

  lemma PrintSound(p: Program, s: State, k: nat, argc: nat, strict: bool)
    requires ValuesOk(p, s, strict)
    ensures Sound(p, ExecPrint(p, s, k, argc), strict)
  {
    hide Push, Placeholders;
    if IsStringConstant(p, k) && argc <= |s.operands| && Placeholders(p.constants[k].s) <= argc {
      PopSound(p, s, argc, strict);
      var args := s.operands[|s.operands| - argc..][..Placeholders(p.constants[k].s)];
      PushSound(p, Popped(s, argc).(output := s.output + [Printed(p.constants[k].s, args)]), VNull, strict);
    }
  }

  // A new cell whose contents exist already.
  lemma CellsGrow(p: Program, s: State, cell: Cell, used: nat, strict: bool)
    requires ValuesOk(p, s, strict)
    requires match cell
             case Arr(elems) => AllOk(p, |s.cells|, elems, strict)
             case Obj(parent, fields) =>
               && ValueOk(p, |s.cells|, parent, strict)
               && forall i :: 0 <= i < |fields| ==> ValueOk(p, |s.cells|, fields[i].value, strict)
    ensures ValuesOk(p, s.(used := used, cells := s.cells + [cell]), strict)
  {
    var cells := s.cells + [cell];
    forall a | 0 <= a < |cells| ensures CellOk(p, cells, a, strict) {
      if a < |s.cells| { assert CellOk(p, s.cells, a, strict); }
    }
  }

  lemma ArraySound(p: Program, s: State, strict: bool)
    requires ValuesOk(p, s, strict)
    ensures Sound(p, ExecArray(s), strict)
  {
    hide Push, H.Fits, H.After;
    if |s.operands| >= 2 {
      PopSound(p, s, 2, strict);
      if Peek(s, 1).VInt? && Peek(s, 1).i >= 0 {
        var n := Peek(s, 1).i;
        var cell := Arr(seq(n, _ => Peek(s, 0)));
        var used := H.After(s.used, H.ArraySize(n));
        CellsGrow(p, Popped(s, 2), cell, used, strict);
        PushSound(p, Popped(s, 2).(used := used, cells := s.cells + [cell]), VRef(|s.cells|), strict);
      }
    }
  }

  lemma ObjectSound(p: Program, s: State, k: nat, strict: bool)
    requires ValuesOk(p, s, strict)
    ensures Sound(p, ExecObject(p, s, k), strict)
  {
    hide Push, H.Fits, H.After;
    if IsClassConstant(p, k) && |p.constants[k].members| + 1 <= |s.operands| {
      var members := p.constants[k].members;
      var n := |members|;
      PopSound(p, s, n + 1, strict);
      var cell := Obj(Peek(s, n), MakeFields(p, members, s.operands[|s.operands| - n..]));
      var used := H.After(s.used, H.ObjectSize(n));
      CellsGrow(p, Popped(s, n + 1), cell, used, strict);
      PushSound(p, Popped(s, n + 1).(used := used, cells := s.cells + [cell]), VRef(|s.cells|), strict);
    }
  }

  // What a lookup of a good value finds.
  lemma FoundSound(p: Program, s: State, v: Value, name: string, strict: bool)
    requires ValuesOk(p, s, strict) && ValueOk(p, |s.cells|, v, strict)
    ensures match Find(s.cells, v, name)
            case Slot(a, i) => ValueOk(p, |s.cells|, s.cells[a].fields[i].value, strict)
            case ChainEnd(w) => ValueOk(p, |s.cells|, w, strict)
            case BadChain => false
  {
    hide Find;
    FindEnds(p, s.cells, v, name, strict);
    var r := Find(s.cells, v, name);
    if r.Slot? { assert CellOk(p, s.cells, r.a, strict); }
  }

  lemma FieldStops(p: Program, s: State, v: Value, name: string, strict: bool)
    requires ValuesOk(p, s, strict) && ValueOk(p, |s.cells|, v, strict)
    ensures var r := Find(s.cells, v, name); !r.Slot? ==> Sound(p, Halted(FieldStop(s.cells, v, r)), strict)
  {
    hide Find;
    FoundSound(p, s, v, name, strict);
  }

  lemma GetFieldSound(p: Program, s: State, k: nat, strict: bool)
    requires ValuesOk(p, s, strict)
    ensures Sound(p, ExecGetField(p, s, k), strict)
  {
    hide Push, Find, FieldStop;
    if IsStringConstant(p, k) && |s.operands| >= 1 {
      PopSound(p, s, 1, strict);
      var name := p.constants[k].s;
      FieldStops(p, s, Peek(s, 0), name, strict);
      var r := Find(s.cells, Peek(s, 0), name);
      FoundSound(p, s, Peek(s, 0), name, strict);
      if r.Slot? { PushSound(p, Popped(s, 1), s.cells[r.a].fields[r.i].value, strict); }
    }
  }

  // Writing a field or an element keeps the heap well founded.
  lemma CellWritten(p: Program, s: State, a: nat, cell: Cell, strict: bool)
    requires ValuesOk(p, s, strict) && a < |s.cells|
    requires CellOk(p, s.cells[a := cell], a, strict)
    ensures ValuesOk(p, s.(cells := s.cells[a := cell]), strict)
  {
    var cells := s.cells[a := cell];
    forall b | 0 <= b < |cells| ensures CellOk(p, cells, b, strict) {
      if b != a { assert CellOk(p, s.cells, b, strict); }
    }
  }

  lemma SetFieldSound(p: Program, s: State, k: nat, strict: bool)
    requires ValuesOk(p, s, strict)
    ensures Sound(p, ExecSetField(p, s, k), strict)
  {
    hide Push, Find, FieldStop;
    if IsStringConstant(p, k) && |s.operands| >= 2 {
      PopSound(p, s, 2, strict);
      var name, v := p.constants[k].s, Peek(s, 0);
      FieldStops(p, s, Peek(s, 1), name, strict);
      var r := Find(s.cells, Peek(s, 1), name);
      if r.Slot? {
        assert CellOk(p, s.cells, r.a, strict);
        var u := Popped(s, 2).(cells := WithField(s.cells, r.a, r.i, v));
        CellWritten(p, Popped(s, 2), r.a, u.cells[r.a], strict);
        PushSound(p, u, v, strict);
      }
    }
  }

  lemma LocalSound(p: Program, s: State, i: nat, strict: bool)
    requires |s.frames| > 0 && ValuesOk(p, s, strict)
    ensures Sound(p, ExecGetLocal(s, i), strict) && Sound(p, ExecSetLocal(s, i), strict)
  {
    hide Push;
    var locals := s.frames[|s.frames| - 1].locals;
    if i < |locals| { PushSound(p, s, locals[i], strict); }
  }

  lemma GlobalSound(p: Program, s: State, k: nat, strict: bool)
    requires ValuesOk(p, s, strict)
    ensures Sound(p, ExecGetGlobal(p, s, k), strict) && Sound(p, ExecSetGlobal(p, s, k), strict)
  {
    hide Push;
    if k < |s.globals| { PushSound(p, s, s.globals[k], strict); }
  }

  lemma PlainSound(p: Program, s: State, d: int, strict: bool)
    requires |s.frames| > 0 && ValuesOk(p, s, strict)
    ensures Sound(p, ExecDrop(s), strict) && Sound(p, ExecBranch(s, d), strict)
    ensures Sound(p, Next(Moved(s, d)), strict) && Sound(p, ExecReturn(s), strict)
  {
  }

  // ---------------------------------------------------------------------- calls

  // A function is entered with good slots if all of them are.
  lemma EnterSound(p: Program, s: State, f: Value, argc: nat, isMethod: bool, scratch: seq<Value>, strict: bool)
    requires ValuesOk(p, s, strict) && |scratch| == argc + 1 && ValueOk(p, |s.cells|, f, strict)
    requires AllOk(p, |s.cells|, scratch[..argc], strict)
    requires ValueOk(p, |s.cells|, scratch[argc], strict)
             || (isMethod && (f.VFunc? && p.constants[f.k].params == argc ==> p.constants[f.k].locals == 0))
    ensures Sound(p, Enter(p, s, f, argc, isMethod, scratch), strict)
  {
    var out := Enter(p, s, f, argc, isMethod, scratch);
    if out.Next? {
      var t := out.state;
      var locals := t.frames[|s.frames|].locals;
      forall i | 0 <= i < |locals| ensures ValueOk(p, |s.cells|, locals[i], strict) {
        if i < argc { assert locals[i] == scratch[..argc][i]; }
      }
    }
  }

  lemma FunctionSound(p: Program, s: State, argc: nat, strict: bool)
    requires ValuesOk(p, s, strict)
    ensures Sound(p, ExecCallFunction(p, s, argc), strict)
  {
    hide Enter;
    if |s.operands| >= argc + 1 {
      PopSound(p, s, argc + 1, strict);
      EnterSound(p, Popped(s, argc + 1), Peek(s, argc), argc, false, FunctionScratch(s, argc), strict);
    }
  }

  // An operation that does not stop pushes one new integer or boolean.
  lemma OperationPushes(u: State, v: Value, name: string, second: Value) returns (w: Value, size: nat)
    requires IsPrimitive(v) && IsOperation(v, name) && second != VUnset
    requires Operation(u, v, name, second) != Halted(KIND) && Operation(u, v, name, second) != Halted(ARITHMETIC)
    ensures (w.VInt? || w.VBool?) && Operation(u, v, name, second) == PushNew(u, w, size)
  {
    hide PushNew, Arithmetic, Compares;
    if name == "==" {
      w, size := VBool(SameValue(v, second)), H.BOOLEAN_SZ;
    } else if name == "!=" {
      w, size := VBool(!SameValue(v, second)), H.BOOLEAN_SZ;
    } else if name == "&" {
      w, size := VBool(v.b && second.b), H.BOOLEAN_SZ;
    } else if name == "|" {
      w, size := VBool(v.b || second.b), H.BOOLEAN_SZ;
    } else {
      var x, y := v.i, second.i;
      if name in ARITHMETIC_OPS {
        w, size := VInt(Arithmetic(name, x, y)), H.INTEGER_SZ;
      } else {
        w, size := VBool(Compares(name, x, y)), H.BOOLEAN_SZ;
      }
    }
  }

  lemma OperationSound(p: Program, s: State, v: Value, name: string, second: Value, strict: bool)
    requires ValuesOk(p, s, strict) && IsPrimitive(v) && IsOperation(v, name) && (strict ==> second != VUnset)
    ensures Sound(p, Operation(s, v, name, second), strict)
  {
    hide Sound, PushNew, Arithmetic, Compares, ValuesOk;
    var out := Operation(s, v, name, second);
    if second == VUnset || out == Halted(KIND) || out == Halted(ARITHMETIC) {
      StopSound(p, out.stop, strict);
    } else {
      var w, size := OperationPushes(s, v, name, second);
      NewSound(p, s, w, size, strict);
    }
  }

  lemma SetSound(p: Program, s: State, a: nat, argc: nat, scratch: seq<Value>, strict: bool)
    requires ValuesOk(p, s, strict) && |scratch| == argc + 1 && a < |s.cells| && s.cells[a].Arr?
    requires argc >= 2 ==> ValueOk(p, |s.cells|, scratch[2], strict) && (strict ==> scratch[1] != VUnset)
    ensures Sound(p, ArraySet(s, a, argc, scratch), strict)
  {
    hide Push;
    if argc >= 2 && scratch[1].VInt? && 0 <= scratch[1].i < |s.cells[a].elems| {
      assert CellOk(p, s.cells, a, strict);
      var w := s.(cells := s.cells[a := Arr(s.cells[a].elems[scratch[1].i := scratch[2]])]);
      CellWritten(p, s, a, w.cells[a], strict);
      PushSound(p, w, scratch[2], strict);
    }
  }

  lemma GetSound(p: Program, s: State, a: nat, argc: nat, scratch: seq<Value>, strict: bool)
    requires ValuesOk(p, s, strict) && |scratch| == argc + 1 && a < |s.cells| && s.cells[a].Arr?
    requires argc >= 2 && strict ==> scratch[1] != VUnset
    ensures Sound(p, ArrayGet(s, a, argc, scratch), strict)
  {
    hide Push;
    if argc >= 2 && scratch[1].VInt? && 0 <= scratch[1].i < |s.cells[a].elems| {
      assert CellOk(p, s.cells, a, strict);
      PushSound(p, s, s.cells[a].elems[scratch[1].i], strict);
    }
  }

  // Receiver and arguments are operands; the slot behind them is unset, or the receiver's.
  lemma ScratchValues(p: Program, s: State, argc: nat, strict: bool)
    requires ValuesOk(p, s, strict) && MethodPops(argc) <= |s.operands|
    ensures var scratch := MethodScratch(s, argc);
            && AllOk(p, |s.cells|, scratch[..MethodPops(argc)], strict)
            && scratch[0] == Peek(s, MethodPops(argc) - 1) && (argc > 0 ==> scratch[argc] == VUnset)
  {
    PopSound(p, s, 0, strict);
    var scratch, pops := MethodScratch(s, argc), MethodPops(argc);
    forall i | 0 <= i < pops ensures ValueOk(p, |s.cells|, scratch[..pops][i], strict) {
      assert scratch[i] == s.operands[|s.operands| - pops + i];
    }
  }

  lemma MethodSound(p: Program, s: State, k: nat, argc: nat, strict: bool)
    requires ValuesOk(p, s, strict) && CallReady(p, s, k, argc) && (strict ==> !LeavesUnset(p, s, k, argc))
    ensures Sound(p, ExecCallMethod(p, s, k, argc), strict)
  {
    hide Sound, Dispatch, ValuesOk, LeavesUnset;
    if |s.frames| >= MAX_FRAMES {
      StopSound(p, FRAME_LIMIT, strict);
    } else {
      DispatchSound(p, s, k, argc, strict);
    }
  }

  lemma DispatchSound(p: Program, s: State, k: nat, argc: nat, strict: bool)
    requires ValuesOk(p, s, strict) && CallReady(p, s, k, argc) && (strict ==> !LeavesUnset(p, s, k, argc))
    ensures Sound(p, Dispatch(p, Popped(s, MethodPops(argc)), p.constants[k].s, argc, MethodScratch(s, argc)), strict)
  {
    hide Sound, Enter, Builtin, Find, ValuesOk, LeavesUnset, MethodScratch;
    ScratchValues(p, s, argc, strict);
    PopSound(p, s, 0, strict);
    FoundSound(p, s, MethodScratch(s, argc)[0], p.constants[k].s, strict);
    match Target(p, s, k, argc)
    case Slot(a, i) => EnteredSound(p, s, k, argc, strict);
    case ChainEnd(v) => BuiltinSound(p, s, k, argc, strict);
  }

  lemma EnteredSound(p: Program, s: State, k: nat, argc: nat, strict: bool)
    requires ValuesOk(p, s, strict) && CallReady(p, s, k, argc) && (strict ==> !LeavesUnset(p, s, k, argc))
    requires Target(p, s, k, argc).Slot?
    ensures var r := Target(p, s, k, argc);
            var f := s.cells[r.a].fields[r.i].value;
            Sound(p, Enter(p, Popped(s, MethodPops(argc)), f, argc, true, MethodScratch(s, argc)), strict)
  {
    hide Enter, Find, Sound;
    var r, scratch := Target(p, s, k, argc), MethodScratch(s, argc);
    PopSound(p, s, MethodPops(argc), strict);
    ScratchValues(p, s, argc, strict);
    FoundSound(p, s, scratch[0], p.constants[k].s, strict);
    EnterSound(p, Popped(s, MethodPops(argc)), s.cells[r.a].fields[r.i].value, argc, true, scratch, strict);
  }

  lemma BuiltinSound(p: Program, s: State, k: nat, argc: nat, strict: bool)
    requires ValuesOk(p, s, strict) && CallReady(p, s, k, argc) && (strict ==> !LeavesUnset(p, s, k, argc))
    requires Target(p, s, k, argc).ChainEnd?
    ensures var v := Target(p, s, k, argc).v;
            Sound(p, Builtin(Popped(s, MethodPops(argc)), v, p.constants[k].s, argc, MethodScratch(s, argc)), strict)
  {
    hide Sound, Operation, ArraySet, ArrayGet, Find, IsOperation;
    var v, name, scratch := Target(p, s, k, argc).v, p.constants[k].s, MethodScratch(s, argc);
    var u := Popped(s, MethodPops(argc));
    PopSound(p, s, MethodPops(argc), strict);
    ScratchValues(p, s, argc, strict);
    FoundSound(p, s, scratch[0], name, strict);
    var out := Builtin(u, v, name, argc, scratch);
    if IsPrimitive(v) && argc == 2 && CallerHas(u, 1) && IsOperation(v, name) {
      assert scratch[1] == scratch[..2][1];
      OperationSound(p, u, v, name, scratch[1], strict);
    } else if IsArray(s.cells, v) && name == "set" {
      if argc >= 2 { assert scratch[1] == scratch[..argc][1]; }
      if argc >= 3 { assert scratch[2] == scratch[..argc][2]; }
      SetSound(p, u, v.a, argc, scratch, strict);
    } else if IsArray(s.cells, v) && name == "get" {
      if argc >= 2 { assert scratch[1] == scratch[..argc][1]; }
      GetSound(p, u, v.a, argc, scratch, strict);
    } else if out.Halted? {
      StopSound(p, out.stop, strict);
    } else {
      NextSound(p, u, strict);
    }
  }

  // A call that leaves an unset slot leaves it in the state it gives.
  lemma UnsetShows(p: Program, s: State, k: nat, argc: nat)
    requires ValuesOk(p, s, true) && CallReady(p, s, k, argc) && LeavesUnset(p, s, k, argc)
    ensures match ExecCallMethod(p, s, k, argc)
            case Halted(stop) => stop != UNSET && stop != DANGLING
            case Next(t) => !ValuesOk(p, t, true)
  {
    hide Find, ValuesOk, IsOperation;
    var scratch := MethodScratch(s, argc);
    ScratchValues(p, s, argc, true);
    var out := ExecCallMethod(p, s, k, argc);
    if argc == 2 { assert scratch[1] == scratch[..2][1]; }
    if out.Next? {
      if Target(p, s, k, argc).Slot? {
        EntersUnset(p, s, out.state, argc);
      } else {
        PushesUnset(p, out.state);
      }
    }
  }

  lemma EntersUnset(p: Program, s: State, t: State, argc: nat)
    requires |t.frames| > 0 && argc < |t.frames[|t.frames| - 1].locals|
    requires t.frames[|t.frames| - 1].locals[argc] == VUnset
    ensures !ValuesOk(p, t, true)
  {
    var locals := t.frames[|t.frames| - 1].locals;
    assert !ValueOk(p, |t.cells|, locals[argc], true);
  }

  lemma PushesUnset(p: Program, t: State)
    requires |t.operands| > 0 && t.operands[|t.operands| - 1] == VUnset
    ensures !ValuesOk(p, t, true)
  {
    assert !ValueOk(p, |t.cells|, t.operands[|t.operands| - 1], true);
  }

  // ----------------------------------------------------------- the whole machine

  lemma ExecSound(p: Program, s: State, instr: Instr, strict: bool)
    requires |s.frames| > 0 && ValuesOk(p, s, strict)
    requires strict && instr.CallMethod? && CallReady(p, s, instr.index, instr.argc) ==>
             !LeavesUnset(p, s, instr.index, instr.argc)
    ensures Sound(p, Exec(p, s, instr), strict)
  {
    hide Sound, ExecDrop, ExecConstant, ExecPrint, ExecArray, ExecObject, ExecGetField, ExecSetField, ExecSetLocal,
         ExecGetLocal, ExecSetGlobal, ExecGetGlobal, ExecBranch, ExecReturn, ExecCallFunction, ValuesOk, LeavesUnset;
    match instr
    case Drop => PlainSound(p, s, 0, strict);
    case Constant(k) => ConstantSound(p, s, k, strict);
    case Print(k, argc) => PrintSound(p, s, k, argc, strict);
    case MakeArray => ArraySound(p, s, strict);
    case MakeObject(k) => ObjectSound(p, s, k, strict);
    case GetField(k) => GetFieldSound(p, s, k, strict);
    case SetField(k) => SetFieldSound(p, s, k, strict);
    case CallMethod(k, argc) => CallSound(p, s, k, argc, strict);
    case CallFunction(argc) => FunctionSound(p, s, argc, strict);
    case SetLocal(i) => LocalSound(p, s, i, strict);
    case GetLocal(i) => LocalSound(p, s, i, strict);
    case SetGlobal(k) => GlobalSound(p, s, k, strict);
    case GetGlobal(k) => GlobalSound(p, s, k, strict);
    case Branch(d) => PlainSound(p, s, d, strict);
    case Jump(d) => PlainSound(p, s, d, strict);
    case Return => PlainSound(p, s, 0, strict);
  }

  lemma CallSound(p: Program, s: State, k: nat, argc: nat, strict: bool)
    requires ValuesOk(p, s, strict) && (strict && CallReady(p, s, k, argc) ==> !LeavesUnset(p, s, k, argc))
    ensures Sound(p, ExecCallMethod(p, s, k, argc), strict)
  {
    hide Sound, Dispatch, LeavesUnset, ValuesOk;
    if CallReady(p, s, k, argc) {
      MethodSound(p, s, k, argc, strict);
    } else {
      StopSound(p, ExecCallMethod(p, s, k, argc).stop, strict);
    }
  }

  lemma MovedValues(p: Program, s: State, d: int, strict: bool)
    requires ValuesOk(p, s, strict)
    ensures ValuesOk(p, Moved(s, d), strict)
  {
  }

  // Every step of every program keeps references good and parents older than children,
  // whatever becomes of its operands, and never stops for a bad reference. From a state
  // without unset slots it never stops for one, and it gives a state without them exactly
  // if it is no call that leaves one.
  lemma StepValues(p: Program, s: State)
    requires |s.frames| > 0 && ValuesOk(p, s, false)
    ensures match Step(p, s)
            case Halted(stop) => stop != DANGLING && (ValuesOk(p, s, true) ==> stop != UNSET)
            case Next(t) =>
              ValuesOk(p, t, false) && (ValuesOk(p, s, true) ==> (ValuesOk(p, t, true) <==> !Unsets(p, s)))
  {
    hide Exec, ValuesOk, LeavesUnset;
    if Fetch(p, s.ip).Decoded? {
      var Decoded(instr, length) := Fetch(p, s.ip);
      var m := Moved(s, length);
      MovedValues(p, s, length, false);
      ExecSound(p, m, instr, false);
      if ValuesOk(p, s, true) {
        MovedValues(p, s, length, true);
        if Unsets(p, s) { UnsetStep(p, m, instr); } else { ExecSound(p, m, instr, true); }
      }
    }
  }

  lemma UnsetStep(p: Program, m: State, instr: Instr)
    requires |m.frames| > 0 && ValuesOk(p, m, true) && instr.CallMethod?
    requires CallReady(p, m, instr.index, instr.argc) && LeavesUnset(p, m, instr.index, instr.argc)
    ensures match Exec(p, m, instr)
            case Halted(stop) => stop != UNSET
            case Next(t) => !ValuesOk(p, t, true)
  {
    hide ExecCallMethod, ValuesOk, LeavesUnset;
    UnsetShows(p, m, instr.index, instr.argc);
  }

  // ----------------------------------------------------------------- whole runs

  lemma StartValues(p: Program)
    requires Start(p).Next?
    ensures ValuesOk(p, Start(p).state, true)
  {
  }

  lemma {:induction false} RunValues(p: Program, ss: seq<State>)
    requires IsRun(p, ss) && ValuesOk(p, ss[0], false)
    ensures ValuesOk(p, ss[|ss| - 1], false)
    decreases |ss|
  {
    hide Step, ValuesOk;
    if |ss| > 1 {
      var front := Front(p, ss);
      RunValues(p, front);
      StepValues(p, ss[|ss| - 2]);
    }
  }

  // Whatever state a run of any program reaches, its references and parent chains are
  // good, and the next step does not stop for one that is not.
  lemma ReachableHeaps(p: Program, ss: seq<State>)
    requires IsRun(p, ss) && Start(p) == Next(ss[0])
    ensures var s := ss[|ss| - 1];
            ValuesOk(p, s, false) && (s.frames != [] ==> Step(p, s) != Halted(DANGLING))
  {
    hide Step, Start, ValuesOk;
    StartValues(p);
    Weaken(p, ss[0], false);
    RunValues(p, ss);
    if ss[|ss| - 1].frames != [] { StepValues(p, ss[|ss| - 1]); }
  }

  lemma {:induction false} NoneUnset(p: Program, ss: seq<State>)
    requires IsRun(p, ss) && ValuesOk(p, ss[0], true)
    requires forall i :: 0 <= i < |ss| - 1 ==> !Unsets(p, ss[i])
    ensures ValuesOk(p, ss[|ss| - 1], true)
    decreases |ss|
  {
    hide Step, Unsets, ValuesOk;
    if |ss| > 1 {
      var t := ss[|ss| - 2];
      var front := Front(p, ss);
      NoneUnset(p, front);
      Weaken(p, t, false);
      StepValues(p, t);
    }
  }

  // Over whole runs of any program no unset slot appears exactly as long as no call
  // leaves one; and then the next step, such a call or not, does not stop for one.
  lemma UnsetExactly(p: Program, ss: seq<State>)
    requires IsRun(p, ss) && Start(p) == Next(ss[0])
    ensures (forall i :: 0 <= i < |ss| ==> ValuesOk(p, ss[i], true))
       <==> (forall i :: 0 <= i < |ss| - 1 ==> !Unsets(p, ss[i]))
    ensures var s := ss[|ss| - 1];
            (forall i :: 0 <= i < |ss| - 1 ==> !Unsets(p, ss[i])) && s.frames != [] ==> Step(p, s) != Halted(UNSET)
  {
    hide Step, Start, Unsets, ValuesOk;
    StartValues(p);
    if forall i :: 0 <= i < |ss| - 1 ==> !Unsets(p, ss[i]) {
      forall i | 0 <= i < |ss| ensures ValuesOk(p, ss[i], true) {
        var front := ss[..i + 1];
        NoneUnset(p, front);
        assert front[|front| - 1] == ss[i];
      }
      var s := ss[|ss| - 1];
      Weaken(p, s, false);
      if s.frames != [] { StepValues(p, s); }
    }
    if forall i :: 0 <= i < |ss| ==> ValuesOk(p, ss[i], true) {
      forall i | 0 <= i < |ss| - 1 ensures !Unsets(p, ss[i]) {
        assert ValuesOk(p, ss[i], true) && ValuesOk(p, ss[i + 1], true);
        Weaken(p, ss[i], false);
        StepValues(p, ss[i]);
      }
    }
  }
}
