/**
 The bytecode interpreter: operand stack and frames in fixed arrays, one method per
 instruction, proved to take exactly the steps of `BcSpec`. A failed assertion or an
 `exit` becomes a Stopped status.
 */
module BcInterpreter {
  import opened Ast
  import opened Bytecode
  import opened Operators
  import opened BcSpec
  import H = Heap

  datatype Status = Running | Stopped(stop: Stop)

  // A method did what the specification says: the same next state, or the same stop.
  ghost predicate Agrees(out: Outcome, status: Status, view: State) {
    match out
    case Next(t) => status == Running && view == t
    case Halted(stop) => status == Stopped(stop)
  }

  class BcInterpreter {
    const program: Program
    var ip: Loc
    const frames: array<Frame>
    var framesSz: nat
    const operands: array<Value>
    var opSz: nat
    const globals: array<Value>
    const heap: H.Heap
    var cells: seq<Cell>
    var output: seq<Printed>

    ghost predicate Valid()
      reads this, heap
    {
      && frames.Length == MAX_FRAMES && framesSz <= MAX_FRAMES
      && operands.Length == MAX_OPERANDS && opSz <= MAX_OPERANDS && operands != globals
      && globals.Length == |program.constants| && heap.Valid()
    }

    ghost function View(): State
      reads this, frames, operands, globals, heap
      requires Valid()
    {
      State(ip, frames[..framesSz], operands[..opSz], globals[..], cells, heap.heapSize, output)
    }

    constructor (program: Program)
      ensures this.program == program && Valid() && fresh(frames) && fresh(operands) && fresh(globals) && fresh(heap)
      ensures View() == State(Loc(program.entry, 0), [], [], seq(|program.constants|, _ => VNull), [],
                              H.After(0, H.NULL_SZ), [])
    {
      this.program := program;
      ip := Loc(program.entry, 0);
      var h := new H.Heap(0);
      var ok, _ := h.Alloc(H.NULL_SZ);
      heap := h;
      frames := new Frame[MAX_FRAMES](_ => Frame(Loc(0, 0), []));
      operands := new Value[MAX_OPERANDS](_ => VUnset);
      globals := new Value[|program.constants|](_ => VNull);
      framesSz, opSz, cells, output := 0, 0, [], [];
    }

    // ------------------------------------------------------------ operand stack

    method PushOperand(v: Value) returns (status: Status)
      requires Valid()
      modifies this`opSz, operands
      ensures Valid() && Agrees(Push(old(View()), v), status, View())
    {
      if opSz >= MAX_OPERANDS {
        return Stopped(OPERAND_LIMIT);
      }
      operands[opSz] := v;
      opSz := opSz + 1;
      status := Running;
    }

    method PopOperand() returns (v: Value)
      requires Valid() && opSz > 0
      modifies this`opSz
      ensures Valid() && v == Peek(old(View()), 0) && View() == Popped(old(View()), 1) && opSz == old(opSz) - 1
    {
      opSz := opSz - 1;
      v := operands[opSz];
    }

    method PopOperands(n: nat)
      requires Valid() && n <= opSz
      modifies this`opSz
      ensures Valid() && View() == Popped(old(View()), n)
    {
      opSz := opSz - n;
    }

    method PeekOperand() returns (v: Value)
      requires Valid() && opSz > 0
      ensures v == Peek(View(), 0)
    {
      v := operands[opSz - 1];
    }

    // Room on the heap, then the value that takes it.
    method PushConstructed(v: Value, size: nat) returns (status: Status)
      requires Valid()
      modifies this`opSz, operands, heap
      ensures Valid() && Agrees(PushNew(old(View()), v, size), status, View())
    {
      var ok, _ := heap.Alloc(size);
      if !ok {
        return Stopped(HEAP_LIMIT);
      }
      status := PushOperand(v);
    }

    // -------------------------------------------------------------- instructions

    method Drop() returns (status: Status)
      requires Valid()
      modifies this`opSz
      ensures Valid() && Agrees(ExecDrop(old(View())), status, View())
    {
      if opSz == 0 {
        return Stopped(STACK_UNDERFLOW);
      }
      var _ := PopOperand();
      status := Running;
    }

    method Constant(k: nat) returns (status: Status)
      requires Valid()
      modifies this`opSz, operands, heap
      ensures Valid() && Agrees(ExecConstant(program, old(View()), k), status, View())
    {
      if k >= |program.constants| {
        return Stopped(BAD_CONSTANT);
      }
      match program.constants[k]
      case KInteger(i) => status := PushConstructed(VInt(i), H.INTEGER_SZ);
      case KNull => status := PushOperand(VNull);
      case KBoolean(b) => status := PushConstructed(VBool(b), H.BOOLEAN_SZ);
      case KString(_) => status := PushOperand(VString(k));
      case KFunction(_, _, _) => status := PushOperand(VFunc(k));
      case KClass(_) => status := Stopped(BAD_CONSTANT);
    }

    method Print(k: nat, argc: nat) returns (status: Status)
      requires Valid()
      modifies this`opSz, this`output, operands
      ensures Valid() && Agrees(ExecPrint(program, old(View()), k, argc), status, View())
    {
      hide Push, Placeholders;
      if !IsStringConstant(program, k) {
        return Stopped(BAD_CONSTANT);
      }
      if opSz < argc {
        return Stopped(STACK_UNDERFLOW);
      }
      var format := program.constants[k].s;
      var count := Placeholders(format);
      if count > argc {
        return Stopped(PRINT_ARGS);
      }
      var shown := PopArguments(argc, count);
      var unset := AnyUnset(shown);
      if unset {
        return Stopped(UNSET);
      }
      output := output + [Printed(format, shown)];
      status := PushOperand(VNull);
    }

    // The popped arguments are still above the top of the stack.
    method PopArguments(argc: nat, count: nat) returns (shown: seq<Value>)
      requires Valid() && count <= argc <= opSz
      modifies this`opSz
      ensures Valid() && View() == Popped(old(View()), argc)
      ensures shown == old(View()).operands[old(opSz) - argc..][..count]
    {
      ghost var args := View().operands[opSz - argc..];
      PopOperands(argc);
      shown := operands[opSz..opSz + count];
      assert forall i :: 0 <= i < count ==> shown[i] == args[i];
    }

    static method AnyUnset(vs: seq<Value>) returns (found: bool)
      ensures found == (VUnset in vs)
    {
      var i := 0;
      while i < |vs|
        invariant 0 <= i <= |vs| && VUnset !in vs[..i]
      {
        if vs[i] == VUnset {
          return true;
        }
        i := i + 1;
      }
      found := false;
    }

    method MakeArray() returns (status: Status)
      requires Valid()
      modifies this`opSz, this`cells, operands, heap
      ensures Valid() && Agrees(ExecArray(old(View())), status, View())
    {
      if opSz < 2 {
        return Stopped(STACK_UNDERFLOW);
      }
      ghost var view := View();
      var init := PopOperand();
      var size := PopOperand();
      assert size == Peek(view, 1) && View() == Popped(view, 2);
      match size {
        case VUnset => return Stopped(UNSET);
        case VInt(n) =>
          if n < 0 {
            return Stopped(BOUNDS);
          }
          var ok, _ := heap.Alloc(H.ArraySize(n));
          if !ok {
            return Stopped(HEAP_LIMIT);
          }
          var elems := [];
          for i := 0 to n
            invariant elems == seq(i, _ => init)
          {
            elems := elems + [init];
          }
          var a := |cells|;
          cells := cells + [Arr(elems)];
          status := PushOperand(VRef(a));
        case _ => return Stopped(KIND);
      }
    }

    // Fields are filled from the last to the first.
    method PopFields(members: seq<nat>) returns (fields: seq<Field>)
      requires Valid() && |members| <= opSz
      requires forall i :: 0 <= i < |members| ==> IsStringConstant(program, members[i])
      modifies this`opSz
      ensures Valid() && View() == Popped(old(View()), |members|)
      ensures fields == MakeFields(program, members, old(View()).operands[old(opSz) - |members|..])
    {
      var n := |members|;
      ghost var view := View();
      ghost var due := MakeFields(program, members, view.operands[|view.operands| - n..]);
      fields := [];
      var i := n;
      while i > 0
        invariant 0 <= i <= n && Valid() && View() == Popped(view, n - i)
        invariant fields == due[i..]
      {
        i := i - 1;
        var v := PopOperand();
        fields := [Field(program.constants[members[i]].s, v)] + fields;
      }
    }

    // The members, then the parent below them.
    method PopObject(members: seq<nat>) returns (cell: Cell)
      requires Valid() && |members| + 1 <= opSz
      requires forall i :: 0 <= i < |members| ==> IsStringConstant(program, members[i])
      modifies this`opSz
      ensures Valid() && View() == Popped(old(View()), |members| + 1)
      ensures cell == Obj(Peek(old(View()), |members|),
                          MakeFields(program, members, old(View()).operands[old(opSz) - |members|..]))
    {
      hide MakeFields;
      var fields := PopFields(members);
      var parent := PopOperand();
      cell := Obj(parent, fields);
    }

    method PushCell(cell: Cell) returns (status: Status)
      requires Valid()
      modifies this`opSz, this`cells, operands
      ensures Valid()
      ensures Agrees(Push(old(View()).(cells := old(cells) + [cell]), VRef(|old(cells)|)), status, View())
    {
      var a := |cells|;
      cells := cells + [cell];
      status := PushOperand(VRef(a));
    }

    method MakeObject(k: nat) returns (status: Status)
      requires Valid()
      modifies this`opSz, this`cells, operands, heap
      ensures Valid() && Agrees(ExecObject(program, old(View()), k), status, View())
    {
      hide MakeFields, Push;
      if !IsClassConstant(program, k) {
        return Stopped(BAD_CONSTANT);
      }
      var members := program.constants[k].members;
      var n := |members|;
      var ok, _ := heap.Alloc(H.ObjectSize(n));
      if !ok {
        return Stopped(HEAP_LIMIT);
      }
      if opSz < n + 1 {
        return Stopped(STACK_UNDERFLOW);
      }
      var cell := PopObject(members);
      status := PushCell(cell);
    }

    // The index of a field in one object, its field count if there is none.
    method SearchFields(fields: seq<Field>, name: string) returns (i: nat)
      ensures i == FieldIndex(fields, name)
    {
      i := 0;
      while i < |fields| && fields[i].name != name
        invariant 0 <= i <= |fields|
        invariant FieldIndex(fields, name) == i + FieldIndex(fields[i..], name)
      {
        i := i + 1;
      }
    }

    // Up the parent chain to the nearest definition.
    method FindField(v: Value, name: string) returns (r: Lookup)
      ensures r == Find(cells, v, name)
      decreases if v.VRef? then v.a + 1 else 0
    {
      match v {
        case VRef(a) =>
          if a >= |cells| {
            return BadChain;
          }
          match cells[a] {
            case Arr(_) => return ChainEnd(v);
            case Obj(parent, fields) =>
              var i := SearchFields(fields, name);
              if i < |fields| {
                return Slot(a, i);
              }
              if parent.VRef? && parent.a >= a {
                return BadChain;
              }
              r := FindField(parent, name);
          }
        case _ => return ChainEnd(v);
      }
    }

    method GetField(k: nat) returns (status: Status)
      requires Valid()
      modifies this`opSz, operands
      ensures Valid() && Agrees(ExecGetField(program, old(View()), k), status, View())
    {
      hide Find, FieldStop;
      if !IsStringConstant(program, k) {
        return Stopped(BAD_CONSTANT);
      }
      if opSz < 1 {
        return Stopped(STACK_UNDERFLOW);
      }
      var obj := PopOperand();
      var r := FindField(obj, program.constants[k].s);
      if !r.Slot? {
        return Stopped(FieldStop(cells, obj, r));
      }
      status := PushOperand(cells[r.a].fields[r.i].value);
    }

    method SetField(k: nat) returns (status: Status)
      requires Valid()
      modifies this`opSz, this`cells, operands
      ensures Valid() && Agrees(ExecSetField(program, old(View()), k), status, View())
    {
      hide Find, FieldStop;
      if !IsStringConstant(program, k) {
        return Stopped(BAD_CONSTANT);
      }
      if opSz < 2 {
        return Stopped(STACK_UNDERFLOW);
      }
      ghost var view := View();
      var v := PopOperand();
      var obj := PopOperand();
      assert obj == Peek(view, 1) && View() == Popped(view, 2);
      var r := FindField(obj, program.constants[k].s);
      if !r.Slot? {
        return Stopped(FieldStop(cells, obj, r));
      }
      cells := WithField(cells, r.a, r.i, v);
      status := PushOperand(v);
    }

    // --------------------------------------------------------------------- calls

    // Moves the arguments, and the receiver of a method, into the slots of the next
    // frame, which is not pushed yet.
    method InitFrame(argc: nat, isMethod: bool)
      requires Valid() && framesSz < MAX_FRAMES
      requires if isMethod then MethodPops(argc) <= opSz else argc <= opSz
      modifies this`opSz, frames
      ensures Valid() && View() == Popped(old(View()), if isMethod then MethodPops(argc) else argc)
      ensures opSz == old(opSz) - if isMethod then MethodPops(argc) else argc
      ensures frames[framesSz].locals ==
              if isMethod then MethodScratch(old(View()), argc) else FunctionScratch(old(View()), argc)
    {
      hide MethodScratch, FunctionScratch;
      var slots;
      if isMethod {
        slots := MethodLocals(argc);
        MethodSlots(old(View()), argc);
      } else {
        slots := FunctionLocals(argc);
      }
      frames[framesSz] := frames[framesSz].(locals := slots);
    }

    // The arguments, behind a null receiver.
    method FunctionLocals(argc: nat) returns (slots: seq<Value>)
      requires Valid() && argc <= opSz
      modifies this`opSz
      ensures Valid() && View() == Popped(old(View()), argc) && opSz == old(opSz) - argc
      ensures slots == FunctionScratch(old(View()), argc)
    {
      var args := PopArgs(argc);
      slots := [VNull] + args;
    }

    // The arguments but the last popped, which is the receiver; one slot stays as it was.
    method MethodLocals(argc: nat) returns (slots: seq<Value>)
      requires Valid() && MethodPops(argc) <= opSz
      modifies this`opSz
      ensures Valid() && View() == Popped(old(View()), MethodPops(argc)) && opSz == old(opSz) - MethodPops(argc)
      ensures slots == [Peek(old(View()), MethodPops(argc) - 1)]
                       + old(View()).operands[old(opSz) - MethodPops(argc) + 1..]
                       + (if argc > 0 then [VUnset] else [])
    {
      var n := if argc > 0 then argc - 1 else 0;
      ghost var view := View();
      var args := PopArgs(n);
      var receiver := PopOperand();
      PopTwice(view, n, 1);
      slots := [receiver] + args + if argc > 0 then [VUnset] else [];
    }

    static lemma PopTwice(view: State, m: nat, n: nat)
      requires m + n <= |view.operands|
      ensures Popped(Popped(view, m), n) == Popped(view, m + n)
      ensures n > 0 ==> Peek(Popped(view, m), 0) == Peek(view, m)
    {
    }

    // The slots of a method: the receiver, the arguments, and one more.
    static lemma MethodSlots(view: State, argc: nat)
      requires MethodPops(argc) <= |view.operands|
      ensures MethodScratch(view, argc)
           == [Peek(view, MethodPops(argc) - 1)] + view.operands[|view.operands| - MethodPops(argc) + 1..]
              + (if argc > 0 then [VUnset] else [])
    {
    }

    // Arguments are popped from the last to the first.
    method PopArgs(n: nat) returns (args: seq<Value>)
      requires Valid() && n <= opSz
      modifies this`opSz
      ensures Valid() && View() == Popped(old(View()), n) && opSz == old(opSz) - n
      ensures args == old(View()).operands[old(opSz) - n..]
    {
      ghost var view := View();
      ghost var due := view.operands[|view.operands| - n..];
      args := [];
      var i := n;
      while i > 0
        invariant 0 <= i <= n && Valid() && View() == Popped(view, n - i) && opSz == old(opSz) - (n - i)
        invariant args == due[i..]
      {
        i := i - 1;
        var v := PopOperand();
        args := [v] + args;
      }
    }

    // The slots keep what is in them; the new ones become null.
    static method ResizeLocals(locals: seq<Value>, size: nat) returns (r: seq<Value>)
      ensures r == FrameLocals(locals, size)
    {
      var resized := new Value[size](i => if 0 <= i < |locals| then locals[i] else VUnset);
      var i := |locals|;
      while i < size
        invariant |locals| <= i && (i <= size || i == |locals|)
        invariant forall j :: 0 <= j < size && j < i ==> resized[j] == FrameLocals(locals, size)[j]
      {
        resized[i] := VNull;
        i := i + 1;
      }
      r := resized[..];
    }

    // Enters the function on top of the operand stack with the slots prepared in the
    // next frame: resized, and null after the slot behind the arguments.
    method InitFunCall(argc: nat, isMethod: bool) returns (status: Status)
      requires Valid() && framesSz < MAX_FRAMES && opSz > 0 && |frames[framesSz].locals| == argc + 1
      modifies this`opSz, this`framesSz, this`ip, frames
      ensures Valid()
      ensures Agrees(Enter(program, Popped(old(View()), 1), Peek(old(View()), 0), argc, isMethod,
                           old(frames[framesSz].locals)), status, View())
    {
      var f := PopOperand();
      match f
      case VUnset => status := Stopped(UNSET);
      case VFunc(k) =>
        if !IsFunctionConstant(program, k) || (if isMethod then argc else argc + 1) != program.constants[k].params {
          return Stopped(KIND);
        }
        var locals := ResizeLocals(frames[framesSz].locals, Slots(program, k));
        ghost var below := frames[..framesSz];
        frames[framesSz] := Frame(ip, locals);
        framesSz := framesSz + 1;
        assert frames[..framesSz] == below + [frames[framesSz - 1]];
        ip := Loc(k, 0);
        status := Running;
      case _ => status := Stopped(KIND);
    }

    method EnterEntry() returns (status: Status)
      requires Valid() && opSz == 1 && framesSz == 0
      modifies this`opSz, this`framesSz, this`ip, frames
      ensures Valid()
      ensures Agrees(Enter(program, Popped(old(View()), 1), Peek(old(View()), 0), 0, false, [VNull]), status, View())
    {
      hide Enter;
      ghost var view := View();
      InitFrame(0, false);
      assert View() == view && frames[framesSz].locals == [VNull];
      status := InitFunCall(0, false);
    }

    method CallFunction(argc: nat) returns (status: Status)
      requires Valid()
      modifies this`opSz, this`framesSz, this`ip, frames
      ensures Valid() && Agrees(ExecCallFunction(program, old(View()), argc), status, View())
    {
      hide Enter, Popped, Peek, FunctionScratch;
      if opSz < argc {
        return Stopped(STACK_UNDERFLOW);
      }
      if framesSz >= MAX_FRAMES {
        return Stopped(FRAME_LIMIT);
      }
      ghost var view := View();
      InitFrame(argc, false);
      if opSz == 0 {
        return Stopped(STACK_UNDERFLOW);
      }
      PopTwice(view, argc, 1);
      status := InitFunCall(argc, false);
    }

    method CallMethod(k: nat, argc: nat) returns (status: Status)
      requires Valid()
      modifies this`opSz, this`framesSz, this`ip, this`cells, frames, operands, heap
      ensures Valid() && Agrees(ExecCallMethod(program, old(View()), k, argc), status, View())
    {
      hide Dispatch;
      if !IsStringConstant(program, k) {
        return Stopped(BAD_CONSTANT);
      }
      if opSz < MethodPops(argc) {
        return Stopped(STACK_UNDERFLOW);
      }
      if framesSz >= MAX_FRAMES {
        return Stopped(FRAME_LIMIT);
      }
      InitFrame(argc, true);
      var receiver := frames[framesSz].locals[0];
      status := DispatchMethod(receiver, program.constants[k].s, argc);
    }

    // The nearest definition on the chain, or the built-in of the value that ends it.
    method DispatchMethod(receiver: Value, name: string, argc: nat) returns (status: Status)
      requires Valid() && framesSz < MAX_FRAMES && opSz < MAX_OPERANDS
      requires |frames[framesSz].locals| == argc + 1 && receiver == frames[framesSz].locals[0]
      modifies this`opSz, this`framesSz, this`ip, this`cells, frames, operands, heap
      ensures Valid()
      ensures Agrees(Dispatch(program, old(View()), name, argc, old(frames[framesSz].locals)), status, View())
    {
      hide Find, Enter, BcSpec.Builtin;
      ghost var view := View();
      var r := FindField(receiver, name);
      match r
      case Slot(a, i) =>
        var pushed := PushOperand(cells[a].fields[i].value);
        assert Popped(View(), 1) == view;
        status := InitFunCall(argc, true);
      case ChainEnd(v) => status := CallBuiltin(v, name, argc);
      case BadChain => status := Stopped(DANGLING);
    }

    // ------------------------------------------------------------------ built-ins

    // The check is against the frame of the caller, the slot is in the next frame.
    method NthLocal(n: nat) returns (ok: bool, v: Value)
      requires Valid() && framesSz < MAX_FRAMES && n < |frames[framesSz].locals|
      ensures ok == CallerHas(View(), n) && v == frames[framesSz].locals[n]
    {
      ok := framesSz > 0 && n <= |frames[framesSz - 1].locals|;
      v := frames[framesSz].locals[n];
    }

    method CallBuiltin(v: Value, name: string, argc: nat) returns (status: Status)
      requires Valid() && framesSz < MAX_FRAMES && |frames[framesSz].locals| == argc + 1
      modifies this`opSz, this`cells, operands, heap
      ensures Valid()
      ensures Agrees(Builtin(old(View()), v, name, argc, old(frames[framesSz].locals)), status, View())
    {
      hide Operation, BcSpec.ArraySet, BcSpec.ArrayGet;
      if v == VUnset {
        return Stopped(UNSET);
      }
      if IsPrimitive(v) {
        if argc != 2 {
          return Stopped(KIND);
        }
        var ok, second := NthLocal(1);
        if !ok {
          return Stopped(CALLER_FRAME);
        }
        if IsOperation(v, name) {
          status := PrimitiveOperation(v, name, second);
          return;
        }
      }
      if name == "set" {
        if IsArray(cells, v) {
          status := ArraySet(v.a, argc);
        } else {
          status := Running;
        }
      } else if name == "get" {
        if IsArray(cells, v) {
          status := ArrayGet(v.a, argc);
        } else {
          status := Running;
        }
      } else {
        status := Stopped(NO_METHOD);
      }
    }

    method PrimitiveOperation(v: Value, name: string, second: Value) returns (status: Status)
      requires Valid() && IsPrimitive(v) && IsOperation(v, name)
      modifies this`opSz, operands, heap
      ensures Valid() && Agrees(Operation(old(View()), v, name, second), status, View())
    {
      hide PushNew, Wrap32, Quotient, Operators.Remainder;
      if second == VUnset {
        return Stopped(UNSET);
      }
      if name == "==" || name == "!=" {
        status := PushConstructed(VBool(SameValue(v, second) == (name == "==")), H.BOOLEAN_SZ);
      } else if name == "&" || name == "|" {
        if !second.VBool? {
          return Stopped(KIND);
        }
        status := PushConstructed(VBool(if name == "&" then v.b && second.b else v.b || second.b), H.BOOLEAN_SZ);
      } else if !v.VInt? || !second.VInt? {
        status := Stopped(KIND);
      } else if name in ARITHMETIC_OPS {
        if (name == "/" || name == "%") && (second.i == 0 || (v.i == -0x8000_0000 && second.i == -1)) {
          return Stopped(ARITHMETIC);
        }
        var r := if name == "+" then v.i + second.i
                 else if name == "-" then v.i - second.i
                 else if name == "*" then v.i * second.i
                 else if name == "/" then Quotient(v.i, second.i)
                 else Operators.Remainder(v.i, second.i);
        status := PushConstructed(VInt(Wrap32(r)), H.INTEGER_SZ);
      } else {
        var r := if name == "<=" then v.i <= second.i
                 else if name == ">=" then v.i >= second.i
                 else if name == ">" then v.i > second.i
                 else v.i < second.i;
        status := PushConstructed(VBool(r), H.BOOLEAN_SZ);
      }
    }

    method ArraySet(a: nat, argc: nat) returns (status: Status)
      requires Valid() && framesSz < MAX_FRAMES && |frames[framesSz].locals| == argc + 1
      requires a < |cells| && cells[a].Arr?
      modifies this`opSz, this`cells, operands
      ensures Valid()
      ensures Agrees(BcSpec.ArraySet(old(View()), a, argc, old(frames[framesSz].locals)), status, View())
    {
      hide Push;
      if framesSz == 0 || 2 > |frames[framesSz - 1].locals| {
        return Stopped(CALLER_FRAME);
      }
      if argc < 2 {
        return Stopped(TOO_FEW_ARGS);
      }
      var _, index := NthLocal(1);
      var _, v := NthLocal(2);
      match index
      case VUnset => status := Stopped(UNSET);
      case VInt(i) =>
        if i < 0 || i >= |cells[a].elems| {
          return Stopped(BOUNDS);
        }
        cells := cells[a := Arr(cells[a].elems[i := v])];
        status := PushOperand(v);
      case _ => status := Stopped(KIND);
    }

    method ArrayGet(a: nat, argc: nat) returns (status: Status)
      requires Valid() && framesSz < MAX_FRAMES && |frames[framesSz].locals| == argc + 1
      requires a < |cells| && cells[a].Arr?
      modifies this`opSz, operands
      ensures Valid()
      ensures Agrees(BcSpec.ArrayGet(old(View()), a, argc, old(frames[framesSz].locals)), status, View())
    {
      hide Push;
      if framesSz == 0 || 1 > |frames[framesSz - 1].locals| {
        return Stopped(CALLER_FRAME);
      }
      if argc < 2 {
        return Stopped(TOO_FEW_ARGS);
      }
      var _, index := NthLocal(1);
      match index
      case VUnset => status := Stopped(UNSET);
      case VInt(i) =>
        if i < 0 || i >= |cells[a].elems| {
          return Stopped(BOUNDS);
        }
        status := PushOperand(cells[a].elems[i]);
      case _ => status := Stopped(KIND);
    }

    // ----------------------------------------------- variables and control flow

    method SetLocal(i: nat) returns (status: Status)
      requires Valid() && framesSz > 0
      modifies frames
      ensures Valid() && Agrees(ExecSetLocal(old(View()), i), status, View())
    {
      if opSz == 0 {
        return Stopped(STACK_UNDERFLOW);
      }
      var top := frames[framesSz - 1];
      if i >= |top.locals| {
        return Stopped(NO_LOCAL);
      }
      var v := PeekOperand();
      ghost var before := frames[..framesSz];
      frames[framesSz - 1] := top.(locals := top.locals[i := v]);
      assert frames[..framesSz] == before[framesSz - 1 := frames[framesSz - 1]];
      status := Running;
    }

    method GetLocal(i: nat) returns (status: Status)
      requires Valid() && framesSz > 0
      modifies this`opSz, operands
      ensures Valid() && Agrees(ExecGetLocal(old(View()), i), status, View())
    {
      if i >= |frames[framesSz - 1].locals| {
        return Stopped(NO_LOCAL);
      }
      status := PushOperand(frames[framesSz - 1].locals[i]);
    }

    // Whether a name is in the list of globals.
    method IndexIsGlobal(k: nat) returns (found: bool)
      ensures found == (k in program.globals)
    {
      var i := 0;
      while i < |program.globals|
        invariant 0 <= i <= |program.globals| && k !in program.globals[..i]
      {
        if program.globals[i] == k {
          return true;
        }
        i := i + 1;
      }
      found := false;
    }

    method SetGlobal(k: nat) returns (status: Status)
      requires Valid()
      modifies globals
      ensures Valid() && Agrees(ExecSetGlobal(program, old(View()), k), status, View())
    {
      if !IsStringConstant(program, k) {
        return Stopped(BAD_CONSTANT);
      }
      var known := IndexIsGlobal(k);
      if !known {
        return Stopped(NOT_GLOBAL);
      }
      if opSz == 0 {
        return Stopped(STACK_UNDERFLOW);
      }
      var v := PeekOperand();
      globals[k] := v;
      status := Running;
    }

    method GetGlobal(k: nat) returns (status: Status)
      requires Valid()
      modifies this`opSz, operands
      ensures Valid() && Agrees(ExecGetGlobal(program, old(View()), k), status, View())
    {
      if !IsStringConstant(program, k) {
        return Stopped(BAD_CONSTANT);
      }
      var known := IndexIsGlobal(k);
      if !known {
        return Stopped(NOT_GLOBAL);
      }
      status := PushOperand(globals[k]);
    }

    method Branch(d: int) returns (status: Status)
      requires Valid()
      modifies this`opSz, this`ip
      ensures Valid() && Agrees(ExecBranch(old(View()), d), status, View())
    {
      if opSz == 0 {
        return Stopped(STACK_UNDERFLOW);
      }
      var v := PopOperand();
      if v == VUnset {
        return Stopped(UNSET);
      }
      if Truthy(v) {
        ip := Loc(ip.func, ip.off + d);
      }
      status := Running;
    }

    method Jump(d: int)
      requires Valid()
      modifies this`ip
      ensures Valid() && View() == Moved(old(View()), d)
    {
      ip := Loc(ip.func, ip.off + d);
    }

    method Return()
      requires Valid() && framesSz > 0
      modifies this`framesSz, this`ip
      ensures Valid() && Next(View()) == ExecReturn(old(View()))
    {
      framesSz := framesSz - 1;
      ip := frames[framesSz].ret;
    }

    // ------------------------------------------------------------------- the loop

    // One turn of the loop: read the instruction, move past it, execute it.
    method ExecuteOne() returns (status: Status)
      requires Valid() && framesSz > 0
      modifies this, frames, operands, globals, heap
      ensures Valid() && Agrees(Step(program, old(View())), status, View())
    {
      hide ExecDrop, ExecConstant, ExecPrint, ExecArray, ExecObject, ExecGetField, ExecSetField, ExecCallMethod,
           ExecCallFunction, ExecSetLocal, ExecGetLocal, ExecSetGlobal, ExecGetGlobal, ExecBranch, Fetch;
      match Fetch(program, ip)
      case OutsideCode => status := Stopped(OUTSIDE_CODE);
      case BadOpcode => status := Stopped(BAD_OPCODE);
      case Decoded(instr, length) =>
        Jump(length);
        match instr {
          case Drop => status := Drop();
          case Constant(k) => status := Constant(k);
          case Print(k, argc) => status := Print(k, argc);
          case MakeArray => status := MakeArray();
          case MakeObject(k) => status := MakeObject(k);
          case GetField(k) => status := GetField(k);
          case SetField(k) => status := SetField(k);
          case CallMethod(k, argc) => status := CallMethod(k, argc);
          case CallFunction(argc) => status := CallFunction(argc);
          case SetLocal(i) => status := SetLocal(i);
          case GetLocal(i) => status := GetLocal(i);
          case SetGlobal(k) => status := SetGlobal(k);
          case GetGlobal(k) => status := GetGlobal(k);
          case Branch(d) => status := Branch(d);
          case Jump(d) => { Jump(d); status := Running; }
          case Return => { Return(); status := Running; }
        }
    }

    // At most `steps` turns. `trace` are the states passed.
    method Loop(steps: nat) returns (status: Status, ghost trace: seq<State>)
      requires Valid()
      modifies this, frames, operands, globals, heap
      ensures Valid() && IsRun(program, trace) && trace[0] == old(View()) && |trace| <= steps + 1
      ensures match status
              case Running => trace[|trace| - 1] == View() && (framesSz == 0 || |trace| == steps + 1)
              case Stopped(stop) =>
                && |trace| <= steps && trace[|trace| - 1].frames != []
                && Step(program, trace[|trace| - 1]) == Halted(stop)
    {
      hide Step;
      trace := [View()];
      var i := 0;
      while framesSz > 0 && i < steps
        decreases steps - i
        invariant Valid() && 0 <= i <= steps && |trace| == i + 1
        invariant IsRun(program, trace) && trace[0] == old(View()) && trace[i] == View()
      {
        assert |View().frames| > 0;
        status := ExecuteOne();
        if status != Running {
          return;
        }
        trace := trace + [View()];
        i := i + 1;
      }
      status := Running;
    }
  }

  // What comes of a program in at most `steps` turns: the states passed, from the call of
  // the entry function on, and why there are no more.
  ghost predicate Executed(p: Program, steps: nat, status: Status, trace: seq<State>) {
    match Start(p)
    case Halted(stop) => status == Stopped(stop) && trace == []
    case Next(s) =>
      && IsRun(p, trace) && trace[0] == s && |trace| <= steps + 1
      && match status
         case Running => trace[|trace| - 1].frames == [] || |trace| == steps + 1
         case Stopped(stop) =>
           |trace| <= steps && trace[|trace| - 1].frames != [] && Step(p, trace[|trace| - 1]) == Halted(stop)
  }

  // A program that ended, ends the same in any larger number of turns.
  lemma MoreSteps(p: Program, steps: nat, status: Status, trace: seq<State>,
                  more: nat, later: Status, longer: seq<State>)
    requires steps <= more && Executed(p, steps, status, trace) && Executed(p, more, later, longer)
    requires status.Stopped? || trace[|trace| - 1].frames == []
    ensures later == status && longer == trace
  {
    hide Step, Start;
    if Start(p).Next? {
      RunEnds(p, trace, longer);
      var t := longer[|longer| - 1];
      if t.frames == [] || Step(p, t).Halted? { RunEnds(p, longer, trace); }
      assert |longer| == |trace|;
    }
  }

  // The whole interpreter: call the entry function without arguments, then loop.
  method Interpret(program: Program, steps: nat) returns (status: Status, ghost trace: seq<State>)
    ensures Executed(program, steps, status, trace)
  {
    hide Step;
    trace := [];
    var itp := new BcInterpreter(program);
    if program.entry >= |program.constants| {
      return Stopped(BAD_CONSTANT), trace;
    }
    ghost var s := itp.View();
    var f := if IsFunctionConstant(program, program.entry) then VFunc(program.entry) else VNull;
    status := itp.PushOperand(f);
    assert Popped(itp.View(), 1) == s;
    var entry := itp.EnterEntry();
    if entry != Running {
      return entry, trace;
    }
    status, trace := itp.Loop(steps);
  }
}
