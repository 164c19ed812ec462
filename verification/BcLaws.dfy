/**
 Laws of the machine: what each instruction does to the state, and what pairs of them do
 together, for any program and any state they are executed in.
 */
module BcLaws {
  import opened Ast
  import opened Bytecode
  import opened Operators
  import opened BcSpec
  import H = Heap

  // The instruction a state is at, and its length.
  predicate Before(p: Program, s: State, instr: Instr, length: nat) {
    |s.frames| > 0 && Fetch(p, s.ip) == Decoded(instr, length)
  }

  // Behind the instruction, with other operands.
  function Past(s: State, length: int, operands: seq<Value>): State {
    s.(ip := Loc(s.ip.func, s.ip.off + length), operands := operands)
  }

  // Operands `vs` on top of `base`.
  predicate OnTop(s: State, base: seq<Value>, vs: seq<Value>) { s.operands == base + vs }

  // A run starts at the first instruction of the entry function, with no operand, null in
  // every slot and every global, and nothing printed.
  lemma Starts(p: Program)
    requires Start(p).Next?
    ensures var s := Start(p).state;
            && p.entry < |p.constants| && p.constants[p.entry].KFunction? && p.constants[p.entry].params == 1
            && s.ip == Loc(p.entry, 0) && |s.frames| == 1 && s.operands == [] && s.cells == [] && s.output == []
            && |s.frames[0].locals| == 1 + p.constants[p.entry].locals && |s.globals| == |p.constants|
            && (forall v :: v in s.frames[0].locals || v in s.globals ==> v == VNull)
  {
  }

  // ------------------------------------------------------------- control flow

  // A branch falls through for false and null and is taken for every other value.
  lemma Branches(p: Program, s: State, d: int, length: nat, base: seq<Value>, v: Value)
    requires Before(p, s, Branch(d), length) && OnTop(s, base, [v])
    ensures Step(p, s)
         == match v
            case VUnset => Halted(UNSET)
            case VNull => Next(Past(s, length, base))
            case VBool(false) => Next(Past(s, length, base))
            case _ => Next(Past(s, length + d, base))
  {
    assert s.operands[..|s.operands| - 1] == base;
  }

  // Loading a boolean and branching on it leaves the operands as they were, and leads to
  // the target for true alone.
  lemma BranchOnBoolean(p: Program, s: State, k: nat, b: bool, length: nat, d: int, next: nat, u: State, t: State)
    requires Before(p, s, Instr.Constant(k), length) && k < |p.constants| && p.constants[k] == KBoolean(b)
    requires Step(p, s) == Next(u) && Before(p, u, Branch(d), next) && Step(p, u) == Next(t)
    ensures t == Past(s, length + next + if b then d else 0, s.operands).(used := H.After(s.used, H.BOOLEAN_SZ))
  {
    Constants(p, s, k, length);
    Branches(p, u, d, next, s.operands, VBool(b));
  }

  lemma Jumps(p: Program, s: State, d: int, length: nat)
    requires Before(p, s, Jump(d), length)
    ensures Step(p, s) == Next(s.(ip := Loc(s.ip.func, s.ip.off + length + d)))
  {
  }

  // A return leads to the return address of the frame, which is gone.
  lemma Returns(p: Program, s: State, length: nat, below: seq<Frame>, top: Frame)
    requires Before(p, s, Return, length) && s.frames == below + [top]
    ensures Step(p, s) == Next(s.(ip := top.ret, frames := below))
  {
    assert s.frames[..|s.frames| - 1] == below;
  }

  // ------------------------------------------------------------------ constants

  // The value of a constant, and the room it takes.
  lemma Constants(p: Program, s: State, k: nat, length: nat)
    requires Before(p, s, Instr.Constant(k), length) && k < |p.constants| && Step(p, s).Next?
    ensures var (v, size) := match p.constants[k]
              case KInteger(i) => (VInt(i), H.INTEGER_SZ)
              case KBoolean(b) => (VBool(b), H.BOOLEAN_SZ)
              case KNull => (VNull, 0)
              case KString(_) => (VString(k), 0)
              case _ => (VFunc(k), 0);
            Step(p, s) == Next(Past(s, length, s.operands + [v]).(
                                 used := if size > 0 then H.After(s.used, size) else s.used))
  {
  }

  lemma Drops(p: Program, s: State, length: nat, base: seq<Value>, v: Value)
    requires Before(p, s, Drop, length) && OnTop(s, base, [v])
    ensures Step(p, s) == Next(Past(s, length, base))
  {
    assert s.operands[..|s.operands| - 1] == base;
  }

  // ------------------------------------------------------------------ variables

  // A local that was stored is read back, by the same call, and no other slot has changed.
  lemma LocalsKeep(p: Program, s: State, i: nat, length: nat, base: seq<Value>, v: Value, below: seq<Frame>, top: Frame)
    requires Before(p, s, SetLocal(i), length) && OnTop(s, base, [v])
    requires s.frames == below + [top] && i < |top.locals|
    ensures Step(p, s) == Next(Past(s, length, s.operands).(frames := below + [Frame(top.ret, top.locals[i := v])]))
  {
    var n := |s.frames| - 1;
    assert s.frames[n := Frame(top.ret, top.locals[i := v])] == below + [Frame(top.ret, top.locals[i := v])];
  }

  lemma LocalsRead(p: Program, s: State, i: nat, length: nat, below: seq<Frame>, top: Frame)
    requires Before(p, s, GetLocal(i), length) && s.frames == below + [top] && i < |top.locals|
    requires |s.operands| < MAX_OPERANDS
    ensures Step(p, s) == Next(Past(s, length, s.operands + [top.locals[i]]))
  {
  }

  // A global that was stored is what every call reads until it is stored again, and no
  // other global has changed.
  lemma GlobalsKeep(p: Program, s: State, k: nat, length: nat, base: seq<Value>, v: Value)
    requires Before(p, s, SetGlobal(k), length) && OnTop(s, base, [v]) && Step(p, s).Next?
    ensures k in p.globals && k < |s.globals|
    ensures Step(p, s) == Next(Past(s, length, s.operands).(globals := s.globals[k := v]))
  {
  }

  lemma GlobalsRead(p: Program, s: State, k: nat, length: nat, t: State, j: nat, next: nat, base: seq<Value>, v: Value)
    requires Before(p, s, SetGlobal(k), length) && OnTop(s, base, [v]) && Step(p, s).Next?
    requires Before(p, t, GetGlobal(j), next) && t.globals == Step(p, s).state.globals && Step(p, t).Next?
    ensures j < |s.globals|
    ensures Step(p, t) == Next(Past(t, next, t.operands + [if j == k then v else s.globals[j]]))
  {
    GlobalsKeep(p, s, k, length, base, v);
  }

  // -------------------------------------------------------------------- output

  // A print shows as many of its arguments as its format has placeholders, in the order
  // they were pushed, and pushes null.
  lemma Prints(p: Program, s: State, k: nat, argc: nat, length: nat, base: seq<Value>, args: seq<Value>)
    requires Before(p, s, Instr.Print(k, argc), length) && OnTop(s, base, args) && |args| == argc
    requires Step(p, s).Next?
    ensures k < |p.constants| && p.constants[k].KString? && Placeholders(p.constants[k].s) <= argc
    ensures var format := p.constants[k].s;
            Step(p, s) == Next(Past(s, length, base + [VNull]).(
                                 output := s.output + [Printed(format, args[..Placeholders(format)])]))
  {
    hide Placeholders;
    assert s.operands[|s.operands| - argc..] == args && s.operands[..|s.operands| - argc] == base;
  }

  // --------------------------------------------------------- arrays and objects

  // An array of the size pushed first, every element the value pushed last.
  lemma MakesArray(p: Program, s: State, length: nat, base: seq<Value>, n: int, v: Value)
    requires Before(p, s, MakeArray, length) && OnTop(s, base, [VInt(n), v]) && Step(p, s).Next?
    ensures n >= 0 && Step(p, s) == Next(Past(s, length, base + [VRef(|s.cells|)]).(
              cells := s.cells + [Arr(seq(n, _ => v))], used := H.After(s.used, H.ArraySize(n))))
  {
    assert s.operands[..|s.operands| - 2] == base;
  }

  // An object with the parent pushed first and the fields in the order they were pushed.
  lemma MakesObject(p: Program, s: State, k: nat, length: nat, base: seq<Value>, parent: Value, vs: seq<Value>)
    requires Before(p, s, MakeObject(k), length) && OnTop(s, base, [parent] + vs) && Step(p, s).Next?
    requires k < |p.constants| && p.constants[k].KClass? && |p.constants[k].members| == |vs|
    ensures var t := Step(p, s).state;
            && t.ip == Past(s, length, base).ip && t.operands == base + [VRef(|s.cells|)] && t.frames == s.frames
            && t.globals == s.globals && t.output == s.output && t.used == H.After(s.used, H.ObjectSize(|vs|))
            && |t.cells| == |s.cells| + 1 && t.cells[..|s.cells|] == s.cells
            && var cell := t.cells[|s.cells|];
               cell.Obj? && cell.parent == parent && |cell.fields| == |vs|
               && forall j :: 0 <= j < |vs| ==>
                    var member := p.constants[k].members[j];
                    member < |p.constants| && p.constants[member].KString?
                    && cell.fields[j] == Field(p.constants[member].s, vs[j])
  {
    var n := |vs|;
    assert s.operands[|s.operands| - n..] == vs && s.operands[..|s.operands| - n - 1] == base;
    assert Peek(s, n) == parent;
  }

  // --------------------------------------------------------------------- calls

  // A function call enters the function below its arguments and will return behind itself.
  lemma CallsFunction(p: Program, s: State, argc: nat, length: nat, base: seq<Value>, f: Value, args: seq<Value>)
    requires Before(p, s, CallFunction(argc), length) && OnTop(s, base, [f] + args) && |args| == argc
    requires Step(p, s).Next?
    ensures f.VFunc?
    ensures var t := Step(p, s).state;
            && t.ip == Loc(f.k, 0) && t.operands == base && |t.frames| == |s.frames| + 1
            && t.frames[..|s.frames|] == s.frames && t.frames[|s.frames|].ret == Past(s, length, base).ip
            && t.globals == s.globals && t.cells == s.cells && t.output == s.output
  {
    assert Peek(s, argc) == f && s.operands[..|s.operands| - argc - 1] == base;
  }

  // A method call enters the function found on the chain of the receiver, and hands it
  // the receiver, not the object it was found in.
  lemma CallsMethod(p: Program, s: State, k: nat, argc: nat, length: nat, base: seq<Value>, v: Value,
                    args: seq<Value>, a: nat, i: nat)
    requires Before(p, s, CallMethod(k, argc), length) && OnTop(s, base, [v] + args) && |args| + 1 == argc
    requires k < |p.constants| && p.constants[k].KString? && Find(s.cells, v, p.constants[k].s) == Slot(a, i)
    requires Step(p, s).Next?
    ensures s.cells[a].fields[i].value.VFunc?
    ensures var f, t := s.cells[a].fields[i].value.k, Step(p, s).state;
            && t.ip == Loc(f, 0) && t.operands == base && |t.frames| == |s.frames| + 1
            && t.frames[..|s.frames|] == s.frames
            && t.globals == s.globals && t.cells == s.cells && t.output == s.output
            && var top := t.frames[|s.frames|];
               top.ret == Past(s, length, base).ip && |top.locals| >= argc && top.locals[..argc] == [v] + args
  {
    hide Find;
    var m := Moved(s, length);
    assert s.operands[|s.operands| - argc..] == [v] + args && s.operands[..|s.operands| - argc] == base;
    assert MethodScratch(m, argc) == [v] + args + [VUnset];
  }

  // ------------------------------------------------------------------ built-ins

  // A built-in is called where the chain of the receiver ends in `w`.
  predicate Calls(p: Program, s: State, name: string, length: nat, base: seq<Value>, v: Value, args: seq<Value>,
                  w: Value)
  {
    && |s.frames| > 0 && |s.frames| < MAX_FRAMES && |s.frames[|s.frames| - 1].locals| >= 2
    && OnTop(s, base, [v] + args) && |base| < MAX_OPERANDS && Find(s.cells, v, name) == ChainEnd(w)
    && Fetch(p, s.ip).Decoded? && Fetch(p, s.ip).length == length && Fetch(p, s.ip).instr.CallMethod?
    && var CallMethod(k, argc) := Fetch(p, s.ip).instr;
       k < |p.constants| && p.constants[k] == KString(name) && argc == |args| + 1
  }

  // What the step of such a call is.
  lemma CallStep(p: Program, s: State, name: string, length: nat, base: seq<Value>, v: Value, args: seq<Value>,
                 w: Value)
    requires Calls(p, s, name, length, base, v, args, w) && |args| >= 1
    ensures var u := Past(s, length, base);
            Step(p, s) == Builtin(u, w, name, |args| + 1, [v] + args + [VUnset])
  {
    hide Find, Builtin;
    var m, argc := Moved(s, length), |args| + 1;
    assert s.operands[|s.operands| - argc..] == [v] + args && s.operands[..|s.operands| - argc] == base;
    assert MethodScratch(m, argc) == [v] + args + [VUnset];
  }

  // Conjunction and disjunction of booleans.
  lemma Booleans(p: Program, s: State, name: string, length: nat, base: seq<Value>, v: Value, b: bool, c: bool)
    requires Calls(p, s, name, length, base, v, [VBool(c)], VBool(b)) && (name == "&" || name == "|")
    requires H.Fits(s.used, H.BOOLEAN_SZ)
    ensures var r := if name == "&" then (if b then c else false) else (if b then true else c);
            Step(p, s) == Next(Past(s, length, base + [VBool(r)]).(used := H.After(s.used, H.BOOLEAN_SZ)))
  {
    CallStep(p, s, name, length, base, v, [VBool(c)], VBool(b));
  }

  // Equality of values of any kinds, and its opposite.
  lemma Equality(p: Program, s: State, name: string, length: nat, base: seq<Value>, v: Value, w: Value, x: Value)
    requires Calls(p, s, name, length, base, v, [x], w) && (name == "==" || name == "!=")
    requires (w.VInt? || w.VBool? || w.VNull?) && x != VUnset && H.Fits(s.used, H.BOOLEAN_SZ)
    ensures var same := match w
              case VInt(i) => x.VInt? && x.i == i
              case VBool(b) => x.VBool? && x.b == b
              case _ => x.VNull?;
            var r := if name == "==" then same else !same;
            Step(p, s) == Next(Past(s, length, base + [VBool(r)]).(used := H.After(s.used, H.BOOLEAN_SZ)))
  {
    CallStep(p, s, name, length, base, v, [x], w);
  }

  // Numbers: the mathematical result where it has 32 bits.
  lemma Numbers(p: Program, s: State, name: string, length: nat, base: seq<Value>, v: Value, x: int, y: int)
    requires Calls(p, s, name, length, base, v, [VInt(y)], VInt(x))
    requires Int32(x) && Int32(y) && H.Fits(s.used, H.INTEGER_SZ)
    ensures name == "+" && Int32(x + y) ==> Step(p, s) == Result(s, length, base, VInt(x + y), H.INTEGER_SZ)
    ensures name == "-" && Int32(x - y) ==> Step(p, s) == Result(s, length, base, VInt(x - y), H.INTEGER_SZ)
    ensures name == "*" && Int32(x * y) ==> Step(p, s) == Result(s, length, base, VInt(x * y), H.INTEGER_SZ)
    ensures name == "/" || name == "%" ==>
              (Step(p, s) == Halted(ARITHMETIC) <==> y == 0 || (x == -0x8000_0000 && y == -1))
  {
    hide Quotient, Remainder, Find, Step, Builtin;
    CallStep(p, s, name, length, base, v, [VInt(y)], VInt(x));
    assert [v] + [VInt(y)] + [VUnset] == [v, VInt(y), VUnset];
    Calculates(Past(s, length, base), name, [v, VInt(y), VUnset], x, y);
  }

  lemma Calculates(s: State, name: string, scratch: seq<Value>, x: int, y: int)
    requires |scratch| == 3 && scratch[1] == VInt(y) && |s.operands| < MAX_OPERANDS && H.Fits(s.used, H.INTEGER_SZ)
    requires Int32(x) && Int32(y) && |s.frames| > 0 && |s.frames[|s.frames| - 1].locals| >= 1
    ensures var r := Builtin(s, VInt(x), name, 2, scratch);
            && (name == "+" && Int32(x + y) ==> r == Pushed(s, VInt(x + y), H.INTEGER_SZ))
            && (name == "-" && Int32(x - y) ==> r == Pushed(s, VInt(x - y), H.INTEGER_SZ))
            && (name == "*" && Int32(x * y) ==> r == Pushed(s, VInt(x * y), H.INTEGER_SZ))
            && (name == "/" || name == "%" ==>
                  (r == Halted(ARITHMETIC) <==> y == 0 || (x == -0x8000_0000 && y == -1)))
  {
    hide Quotient, Remainder;
  }

  function Pushed(s: State, v: Value, size: nat): Outcome {
    Next(s.(operands := s.operands + [v], used := H.After(s.used, size)))
  }

  lemma Comparisons(p: Program, s: State, name: string, length: nat, base: seq<Value>, v: Value, x: int, y: int)
    requires Calls(p, s, name, length, base, v, [VInt(y)], VInt(x)) && H.Fits(s.used, H.BOOLEAN_SZ)
    ensures name == "<" ==> Step(p, s) == Result(s, length, base, VBool(x < y), H.BOOLEAN_SZ)
    ensures name == "<=" ==> Step(p, s) == Result(s, length, base, VBool(x <= y), H.BOOLEAN_SZ)
    ensures name == ">" ==> Step(p, s) == Result(s, length, base, VBool(x > y), H.BOOLEAN_SZ)
    ensures name == ">=" ==> Step(p, s) == Result(s, length, base, VBool(x >= y), H.BOOLEAN_SZ)
  {
    hide Find, Step, Builtin;
    CallStep(p, s, name, length, base, v, [VInt(y)], VInt(x));
    assert [v] + [VInt(y)] + [VUnset] == [v, VInt(y), VUnset];
    CompareResult(Past(s, length, base), name, [v, VInt(y), VUnset], x, y);
  }

  lemma CompareResult(s: State, name: string, scratch: seq<Value>, x: int, y: int)
    requires |scratch| == 3 && scratch[1] == VInt(y) && |s.operands| < MAX_OPERANDS && H.Fits(s.used, H.BOOLEAN_SZ)
    requires |s.frames| > 0 && |s.frames[|s.frames| - 1].locals| >= 1
    ensures var r := Builtin(s, VInt(x), name, 2, scratch);
            && (name == "<" ==> r == Pushed(s, VBool(x < y), H.BOOLEAN_SZ))
            && (name == "<=" ==> r == Pushed(s, VBool(x <= y), H.BOOLEAN_SZ))
            && (name == ">" ==> r == Pushed(s, VBool(x > y), H.BOOLEAN_SZ))
            && (name == ">=" ==> r == Pushed(s, VBool(x >= y), H.BOOLEAN_SZ))
  {
  }

  function Result(s: State, length: nat, base: seq<Value>, v: Value, size: nat): Outcome {
    Pushed(Past(s, length, base), v, size)
  }

  // Reading an element, and storing one, which pushes the value stored.
  lemma Elements(p: Program, s: State, length: nat, base: seq<Value>, v: Value, a: nat, n: int)
    requires Calls(p, s, "get", length, base, v, [VInt(n)], VRef(a)) && a < |s.cells| && s.cells[a].Arr?
    ensures Step(p, s) == if 0 <= n < |s.cells[a].elems| then Next(Past(s, length, base + [s.cells[a].elems[n]]))
                          else Halted(BOUNDS)
  {
    hide Find, Step;
    CallStep(p, s, "get", length, base, v, [VInt(n)], VRef(a));
    assert [v] + [VInt(n)] + [VUnset] == [v, VInt(n), VUnset];
    Gets(Past(s, length, base), a, [v, VInt(n), VUnset]);
  }

  lemma Gets(s: State, a: nat, scratch: seq<Value>)
    requires a < |s.cells| && s.cells[a].Arr? && |scratch| == 3 && scratch[1].VInt? && |s.operands| < MAX_OPERANDS
    requires |s.frames| > 0 && |s.frames[|s.frames| - 1].locals| >= 1
    ensures var n := scratch[1].i;
            Builtin(s, VRef(a), "get", 2, scratch)
            == if 0 <= n < |s.cells[a].elems| then Next(s.(operands := s.operands + [s.cells[a].elems[n]]))
               else Halted(BOUNDS)
  {
  }

  lemma Stores(p: Program, s: State, length: nat, base: seq<Value>, v: Value, a: nat, n: int, x: Value)
    requires Calls(p, s, "set", length, base, v, [VInt(n), x], VRef(a)) && a < |s.cells| && s.cells[a].Arr?
    ensures Step(p, s) == if 0 <= n < |s.cells[a].elems| then
                            Next(Past(s, length, base + [x]).(cells := s.cells[a := Arr(s.cells[a].elems[n := x])]))
                          else Halted(BOUNDS)
  {
    hide Find, Step;
    CallStep(p, s, "set", length, base, v, [VInt(n), x], VRef(a));
    assert [v] + [VInt(n), x] + [VUnset] == [v, VInt(n), x, VUnset];
    Sets(Past(s, length, base), a, [v, VInt(n), x, VUnset]);
  }

  lemma Sets(s: State, a: nat, scratch: seq<Value>)
    requires a < |s.cells| && s.cells[a].Arr? && |scratch| == 4 && scratch[1].VInt? && |s.operands| < MAX_OPERANDS
    requires |s.frames| > 0 && |s.frames[|s.frames| - 1].locals| >= 2
    ensures var n, x := scratch[1].i, scratch[2];
            Builtin(s, VRef(a), "set", 3, scratch)
            == if 0 <= n < |s.cells[a].elems| then
                 Next(s.(operands := s.operands + [x], cells := s.cells[a := Arr(s.cells[a].elems[n := x])]))
               else Halted(BOUNDS)
  {
  }

  // ---------------------------------------------------------------------- fields

  // A field access pushes what the slot found on the chain holds.
  lemma Fields(p: Program, s: State, k: nat, length: nat, base: seq<Value>, v: Value, a: nat, i: nat)
    requires Before(p, s, GetField(k), length) && OnTop(s, base, [v]) && |base| < MAX_OPERANDS
    requires k < |p.constants| && p.constants[k].KString? && Find(s.cells, v, p.constants[k].s) == Slot(a, i)
    ensures Step(p, s) == Next(Past(s, length, base + [s.cells[a].fields[i].value]))
  {
    hide Find;
    assert s.operands[..|s.operands| - 1] == base;
  }

  // A field assignment stores into that slot, and nowhere else, and pushes the value.
  lemma FieldStores(p: Program, s: State, k: nat, length: nat, base: seq<Value>, v: Value, x: Value, a: nat, i: nat)
    requires Before(p, s, SetField(k), length) && OnTop(s, base, [v, x])
    requires k < |p.constants| && p.constants[k].KString? && Find(s.cells, v, p.constants[k].s) == Slot(a, i)
    requires |base| < MAX_OPERANDS
    ensures var Obj(parent, fields) := s.cells[a];
            Step(p, s) == Next(Past(s, length, base + [x]).(
                                 cells := s.cells[a := Obj(parent, fields[i := Field(fields[i].name, x)])]))
  {
    hide Find;
    assert s.operands[..|s.operands| - 2] == base;
  }
}
