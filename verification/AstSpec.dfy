/**
 What running a syntax tree does, over a stack of environments whose scopes are maps.
 Every evaluation is given a bound on its depth.
 */
module AstSpec {
  import opened Ast
  import opened AstValues
  import opened Operators
  import H = Heap

  type Result = Res<(Value, State)>

  // ------------------------------------------------------------- environments

  predicate Shaped(s: State) {
    |s.envs| > 0 && forall e :: 0 <= e < |s.envs| ==> |s.envs[e]| > 0
  }

  function Top(s: State): (e: nat)
    requires Shaped(s)
    ensures e < |s.envs|
  {
    |s.envs| - 1
  }

  function WithEnv(s: State, e: nat, env: Env): State
    requires e < |s.envs|
  {
    s.(envs := s.envs[e := env])
  }

  // A new binding in the innermost scope of the current call.
  function Bind(s: State, name: string, v: Value): (r: Res<State>)
    requires Shaped(s)
    ensures r.Ok? ==> Balanced(s, r.value)
  {
    var env := s.envs[Top(s)];
    var scope := env[|env| - 1];
    if |scope.names| >= MAX_VARS then Halted(VAR_LIMIT)
    else Ok(WithEnv(s, Top(s), env[|env| - 1 := Scope(scope.vars[name := v], scope.names + [name])]))
  }

  // The innermost scope that binds a name.
  datatype Place = Bound(e: nat, k: nat) | Unbound

  function FindScope(env: Env, name: string, n: nat): (k: int)
    requires n <= |env|
    ensures -1 <= k < n && (k >= 0 ==> name in env[k].vars)
    ensures forall j :: k < j < n ==> name !in env[j].vars
  {
    if n == 0 then -1 else if name in env[n - 1].vars then n - 1 else FindScope(env, name, n - 1)
  }

  // First the scopes of the current call from the inside out, then the outermost scope
  // of the global environment.
  function Lookup(s: State, name: string): (r: Place)
    requires Shaped(s)
    ensures r.Bound? ==> r.e < |s.envs| && r.k < |s.envs[r.e]| && name in s.envs[r.e][r.k].vars
  {
    var env := s.envs[Top(s)];
    var k := FindScope(env, name, |env|);
    if k >= 0 then Bound(Top(s), k)
    else if name in s.envs[0][0].vars then Bound(0, 0)
    else Unbound
  }

  function Assign(s: State, at: Place, name: string, v: Value): (t: State)
    requires Shaped(s) && at.Bound? && at.e < |s.envs| && at.k < |s.envs[at.e]|
    ensures Balanced(s, t)
  {
    var scope := s.envs[at.e][at.k];
    WithEnv(s, at.e, s.envs[at.e][at.k := scope.(vars := scope.vars[name := v])])
  }

  function PushScope(s: State): (r: Res<State>)
    requires Shaped(s)
    ensures r.Ok? ==> Shaped(r.value)
  {
    var env := s.envs[Top(s)];
    if |env| >= MAX_SCOPES then Halted(SCOPE_LIMIT) else Ok(WithEnv(s, Top(s), env + [Scope(map[], [])]))
  }

  function PopScope(s: State): (t: State)
    requires Shaped(s)
    ensures Shaped(t)
  {
    var env := s.envs[Top(s)];
    if |env| == 1 then s else WithEnv(s, Top(s), env[..|env| - 1])
  }

  function PushEnv(s: State): (r: Res<State>)
    requires Shaped(s)
    ensures r.Ok? ==> Shaped(r.value)
  {
    if |s.envs| >= MAX_ENVS then Halted(ENV_LIMIT) else Ok(s.(envs := s.envs + [[Scope(map[], [])]]))
  }

  function PopEnv(s: State): (t: State)
    requires Shaped(s)
    ensures Shaped(t)
  {
    if |s.envs| == 1 then s else s.(envs := s.envs[..|s.envs| - 1])
  }

  // ------------------------------------------------------------------- values

  // A value that takes room on the heap.
  function New(s: State, v: Value, size: nat): Result {
    if H.Fits(s.used, size) then Ok((v, s.(used := H.After(s.used, size)))) else Halted(HEAP_LIMIT)
  }

  // Looking at a pointer that leads nowhere.
  function Usable(v: Value): Res<Value> {
    if v == VNil then Halted(NIL) else if v == VUnset then Halted(UNSET) else Ok(v)
  }

  predicate Truthy(v: Value) { !v.VNull? && v != VBool(false) }

  predicate IsArray(cells: seq<Cell>, v: Value) { v.VRef? && v.a < |cells| && cells[v.a].Arr? }
  predicate IsObject(cells: seq<Cell>, v: Value) { v.VRef? && v.a < |cells| && cells[v.a].Obj? }

  function FieldIndex(fields: seq<Field>, name: string): (i: nat)
    ensures i <= |fields|
    ensures i < |fields| ==> fields[i].name == name
    ensures forall j :: 0 <= j < i ==> fields[j].name != name
  {
    if fields == [] || fields[0].name == name then 0 else 1 + FieldIndex(fields[1..], name)
  }

  // The first definition of a name on the parent chain, or what ends the chain.
  datatype Found = Slot(a: nat, i: nat) | ChainEnd(v: Value) | BadChain

  function Find(cells: seq<Cell>, v: Value, name: string): (r: Found)
    ensures r.Slot? ==> r.a < |cells| && cells[r.a].Obj? && r.i < |cells[r.a].fields|
                        && cells[r.a].fields[r.i].name == name
    decreases if v.VRef? then v.a + 1 else 0
  {
    if !v.VRef? then ChainEnd(v)
    else if v.a >= |cells| then BadChain
    else if cells[v.a].Arr? then ChainEnd(v)
    else
      var i := FieldIndex(cells[v.a].fields, name);
      if i < |cells[v.a].fields| then Slot(v.a, i)
      else
        var up := cells[v.a].parent;
        if up.VRef? && up.a >= v.a then BadChain else Find(cells, up, name)
  }

  // The slot a field access means; only objects have fields.
  function FieldSlot(cells: seq<Cell>, v: Value, name: string): (r: Res<Found>)
    ensures r.Ok? ==> r.value.Slot? && r.value == Find(cells, v, name)
  {
    match Find(cells, v, name)
    case Slot(a, i) => Ok(Slot(a, i))
    case ChainEnd(end) =>
      if end == VNil then Halted(NIL)
      else if end == VUnset then Halted(UNSET)
      else if IsObject(cells, v) then Halted(NO_FIELD)
      else Halted(KIND)
    case BadChain => Halted(DANGLING)
  }

  function WithCell(s: State, a: nat, cell: Cell): State
    requires a < |s.cells|
  {
    s.(cells := s.cells[a := cell])
  }

  function WithField(s: State, a: nat, i: nat, name: string, v: Value): State
    requires a < |s.cells| && s.cells[a].Obj? && i < |s.cells[a].fields|
  {
    WithCell(s, a, s.cells[a].(fields := s.cells[a].fields[i := Field(name, v)]))
  }

  function WithElement(s: State, a: nat, i: nat, v: Value): State
    requires a < |s.cells| && s.cells[a].Arr? && i < |s.cells[a].elems|
  {
    WithCell(s, a, Arr(s.cells[a].elems[i := v]))
  }

  // ---------------------------------------------------------------- built-ins

  predicate IsPrimitive(v: Value) { v.VInt? || v.VBool? || v.VNull? }

  // The result of an operator on primitive values, or nothing for an unknown name.
  datatype Operation = Computes(v: Value) | Fails(stop: Stop) | NoOperation

  function Operate(v: Value, name: string, w: Value): Operation
    requires IsPrimitive(v)
  {
    if name in ARITHMETIC_OPS then
      if !v.VInt? || !w.VInt? then Fails(KIND)
      else if Traps(name, v.i, w.i) then Fails(ARITHMETIC)
      else Computes(VInt(Arithmetic(name, v.i, w.i)))
    else if name in COMPARISON_OPS then
      if !v.VInt? || !w.VInt? then Fails(KIND) else Computes(VBool(Compares(name, v.i, w.i)))
    else if name == "==" || name == "!=" then
      if v.VBool? && !w.VBool? then Fails(KIND) else Computes(VBool((v == w) == (name == "==")))
    else if v.VBool? && (name == "&" || name == "|") then
      if !w.VBool? then Fails(KIND) else Computes(VBool(if name == "&" then v.b && w.b else v.b || w.b))
    else NoOperation
  }

  function SizeOf(v: Value): nat { if v.VInt? then H.INTEGER_SZ else H.BOOLEAN_SZ }

  // A method that no object on the chain defines, on the value that ends the chain. An
  // unknown one gives the null pointer.
  function Builtin(s: State, v: Value, name: string, args: seq<Value>): Result {
    var _ :- Usable(v);
    if IsPrimitive(v) then PrimitiveBuiltin(s, v, name, args)
    else if IsArray(s.cells, v) && name == "set" then SetElement(s, v.a, args)
    else if IsArray(s.cells, v) && name == "get" then GetElement(s, v.a, args)
    else Ok((VNil, s))
  }

  function PrimitiveBuiltin(s: State, v: Value, name: string, args: seq<Value>): Result
    requires IsPrimitive(v)
  {
    if |args| != 1 then Halted(KIND)
    else
      var op := Operate(v, name, args[0]);
      if op.NoOperation? then Ok((VNil, s))
      else
        var _ :- Usable(args[0]);
        if op.Fails? then Halted(op.stop) else New(s, op.v, SizeOf(op.v))
  }

  // Storing an element gives back the array.
  function SetElement(s: State, a: nat, args: seq<Value>): Result
    requires a < |s.cells| && s.cells[a].Arr?
  {
    if |args| < 2 then Halted(KIND)
    else
      var i :- ElementIndex(s.cells, a, args[0]);
      Ok((VRef(a), WithElement(s, a, i, args[1])))
  }

  function GetElement(s: State, a: nat, args: seq<Value>): Result
    requires a < |s.cells| && s.cells[a].Arr?
  {
    if |args| < 1 then Halted(KIND)
    else
      var i :- ElementIndex(s.cells, a, args[0]);
      Ok((s.cells[a].elems[i], s))
  }

  function ElementIndex(cells: seq<Cell>, a: nat, index: Value): (r: Res<nat>)
    requires a < |cells| && cells[a].Arr?
    ensures r.Ok? ==> r.value < |cells[a].elems|
  {
    var w :- Usable(index);
    if !w.VInt? then Halted(KIND)
    else if w.i < 0 || w.i >= |cells[a].elems| then Halted(BOUNDS)
    else Ok(w.i)
  }

  // --------------------------------------------------------------- evaluation

  // As many environments, with as many scopes each.
  predicate Balanced(s: State, t: State) {
    Shaped(t) && |t.envs| == |s.envs| && forall e :: 0 <= e < |s.envs| ==> |t.envs[e]| == |s.envs[e]|
  }

  // Every completed evaluation comes back to the scope it started in.
  predicate Closed(s: State, r: Result) { r.Ok? ==> Balanced(s, r.value.1) }

  predicate IsLiteral(a: Ast) { a.Integer? || a.Boolean? || a.Null? || a.Function? }

  // What works on arrays and objects.
  predicate IsStructural(a: Ast) {
    || a.Array? || a.IndexAccess? || a.IndexAssignment?
    || a.Object? || a.FieldAccess? || a.FieldAssignment? || a.MethodCall?
  }

  function Eval(fuel: nat, a: Ast, s: State): (r: Result)
    requires Shaped(s)
    ensures Closed(s, r)
    decreases fuel, 0
  {
    if fuel == 0 then Halted(FUEL)
    else if IsLiteral(a) then EvalLiteral(a, s)
    else if IsStructural(a) then EvalStructural(fuel - 1, a, s)
    else
      match a
      case Definition(x, e) => EvalDefinition(fuel - 1, x, e, s)
      case VariableAccess(x) => EvalVariable(x, s)
      case VariableAssignment(x, e) => EvalAssignment(fuel - 1, x, e, s)
      case FunctionCall(f, args) => EvalCall(fuel - 1, f, args, s)
      case Print(format, args) => EvalPrint(fuel - 1, format, args, s)
      case Block(es) => EvalBlock(fuel - 1, es, s)
      case Top(es) => EvalSequence(fuel - 1, es, VUnset, s)
      case Loop(c, b) => EvalWhile(fuel - 1, c, b, s)
      case Conditional(c, t, e) => EvalConditional(fuel - 1, c, t, e, s)
  }

  function EvalLiteral(a: Ast, s: State): Result
    requires IsLiteral(a)
  {
    match a
    case Integer(i) => New(s, VInt(i), H.INTEGER_SZ)
    case Boolean(b) => New(s, VBool(b), H.BOOLEAN_SZ)
    case Null => New(s, VNull, H.NULL_SZ)
    case Function(ps, b) => New(s, VFun(ps, b), H.FUNCTION_SZ)
  }

  function EvalStructural(fuel: nat, a: Ast, s: State): (r: Result)
    requires Shaped(s) && IsStructural(a)
    ensures Closed(s, r)
    decreases fuel, 5
  {
    match a
    case Array(n, init) => EvalArray(fuel, n, init, s)
    case IndexAccess(o, i) => EvalIndex(fuel, o, i, s)
    case IndexAssignment(o, i, v) => EvalIndexAssignment(fuel, o, i, v, s)
    case Object(ext, members) => EvalObject(fuel, ext, members, s)
    case FieldAccess(o, f) => EvalField(fuel, o, f, s)
    case FieldAssignment(o, f, v) => EvalFieldAssignment(fuel, o, f, v, s)
    case MethodCall(o, m, args) => EvalMethodCall(fuel, o, m, args, s)
  }

  function EvalDefinition(fuel: nat, x: string, e: Ast, s: State): (r: Result)
    requires Shaped(s)
    ensures Closed(s, r)
    decreases fuel, 1
  {
    var (v, s1) :- Eval(fuel, e, s);
    var s2 :- Bind(s1, x, v);
    Ok((v, s2))
  }

  // A name bound nowhere becomes bound to null by the access.
  function EvalVariable(x: string, s: State): (r: Result)
    requires Shaped(s)
    ensures Closed(s, r)
  {
    if x == "" then Halted(EMPTY_NAME)
    else
      match Lookup(s, x)
      case Bound(e, k) => Ok((s.envs[e][k].vars[x], s))
      case Unbound =>
        var (v, s1) :- New(s, VNull, H.NULL_SZ);
        var s2 :- Bind(s1, x, v);
        New(s2, VNull, H.NULL_SZ)
  }

  function EvalAssignment(fuel: nat, x: string, e: Ast, s: State): (r: Result)
    requires Shaped(s)
    ensures Closed(s, r)
    decreases fuel, 1
  {
    var (v, s1) :- Eval(fuel, e, s);
    if x == "" then Halted(EMPTY_NAME)
    else
      match Lookup(s1, x)
      case Bound(e, k) => Ok((v, Assign(s1, Bound(e, k), x, v)))
      case Unbound =>
        var s2 :- Bind(s1, x, v);
        Ok((v, s2))
  }

  // Arguments, left to right.
  function EvalArgs(fuel: nat, es: seq<Ast>, s: State): (r: Res<(seq<Value>, State)>)
    requires Shaped(s)
    ensures r.Ok? ==> Balanced(s, r.value.1) && |r.value.0| == |es|
    decreases fuel, 1, |es|
  {
    if es == [] then Ok(([], s))
    else
      var (v, s1) :- Eval(fuel, es[0], s);
      var (vs, s2) :- EvalArgs(fuel, es[1..], s1);
      Ok(([v] + vs, s2))
  }

  // A sequence gives the value of its last expression.
  function EvalSequence(fuel: nat, es: seq<Ast>, last: Value, s: State): (r: Result)
    requires Shaped(s)
    ensures Closed(s, r)
    decreases fuel, 1, |es|
  {
    if es == [] then Ok((last, s))
    else
      var (v, s1) :- Eval(fuel, es[0], s);
      EvalSequence(fuel, es[1..], v, s1)
  }

  function EvalBlock(fuel: nat, es: seq<Ast>, s: State): (r: Result)
    requires Shaped(s)
    ensures Closed(s, r)
    decreases fuel, 2
  {
    var s1 :- PushScope(s);
    var (v, s2) :- EvalSequence(fuel, es, VUnset, s1);
    Ok((v, PopScope(s2)))
  }

  // An expression in a scope of its own.
  function EvalScoped(fuel: nat, e: Ast, s: State): (r: Result)
    requires Shaped(s)
    ensures Closed(s, r)
    decreases fuel, 1
  {
    var s1 :- PushScope(s);
    var (v, s2) :- Eval(fuel, e, s1);
    Ok((v, PopScope(s2)))
  }

  // A condition; only false and null fail it.
  function EvalTest(fuel: nat, c: Ast, s: State): (r: Res<(bool, State)>)
    requires Shaped(s)
    ensures r.Ok? ==> Balanced(s, r.value.1)
    decreases fuel, 1
  {
    var (v, s1) :- Eval(fuel, c, s);
    var w :- Usable(v);
    Ok((Truthy(w), s1))
  }

  function EvalWhile(fuel: nat, c: Ast, body: Ast, s: State): (r: Result)
    requires Shaped(s)
    ensures Closed(s, r)
    decreases fuel, 3
  {
    var (on, s1) :- EvalTest(fuel, c, s);
    if !on then New(s1, VNull, H.NULL_SZ) else EvalIteration(fuel, c, body, s1)
  }

  function EvalIteration(fuel: nat, c: Ast, body: Ast, s: State): (r: Result)
    requires Shaped(s)
    ensures Closed(s, r)
    decreases fuel, 2
  {
    var (_, s1) :- EvalScoped(fuel, body, s);
    if fuel == 0 then Halted(FUEL) else EvalWhile(fuel - 1, c, body, s1)
  }

  function EvalConditional(fuel: nat, c: Ast, t: Ast, e: Ast, s: State): (r: Result)
    requires Shaped(s)
    ensures Closed(s, r)
    decreases fuel, 3
  {
    var (on, s1) :- EvalTest(fuel, c, s);
    EvalScoped(fuel, if on then t else e, s1)
  }

  function EvalPrint(fuel: nat, format: string, args: seq<Ast>, s: State): (r: Result)
    requires Shaped(s)
    ensures Closed(s, r)
    decreases fuel, 3
  {
    var (vs, s1) :- EvalArgs(fuel, args, s);
    var n := Placeholders(format);
    if n > |vs| then Halted(PRINT_ARGS)
    else
      var _ :- AllUsable(vs[..n]);
      New(s1.(output := s1.output + [Printed(format, vs[..n])]), VNull, H.NULL_SZ)
  }

  function AllUsable(vs: seq<Value>): Res<()> {
    if vs == [] then Ok(())
    else
      var _ :- Usable(vs[0]);
      AllUsable(vs[1..])
  }

  // The array exists before its elements are computed, each in a scope of its own.
  function EvalArray(fuel: nat, n: Ast, init: Ast, s: State): (r: Result)
    requires Shaped(s)
    ensures Closed(s, r)
    decreases fuel, 3
  {
    var (size, s1) :- Eval(fuel, n, s);
    var w :- Usable(size);
    if !w.VInt? then Halted(KIND)
    else if w.i < 0 then Halted(BOUNDS)
    else
      var a := |s1.cells|;
      var (v, s2) :- New(s1.(cells := s1.cells + [Arr(seq(w.i, _ => VUnset))]), VRef(a), H.ArraySize(w.i));
      var s3 :- FillArray(fuel, a, 0, w.i, init, s2);
      Ok((v, s3))
  }

  function FillArray(fuel: nat, a: nat, i: nat, n: nat, init: Ast, s: State): (r: Res<State>)
    requires Shaped(s) && i <= n
    ensures r.Ok? ==> Balanced(s, r.value)
    decreases fuel, 2, n - i
  {
    if i == n then Ok(s)
    else
      var (v, s1) :- EvalScoped(fuel, init, s);
      if a >= |s1.cells| || !s1.cells[a].Arr? || i >= |s1.cells[a].elems| then Halted(DANGLING)
      else FillArray(fuel, a, i + 1, n, init, WithElement(s1, a, i, v))
  }

  // The object exists before its members are computed, each in a scope of its own.
  function EvalObject(fuel: nat, ext: Ast, members: seq<Ast>, s: State): (r: Result)
    requires Shaped(s)
    ensures Closed(s, r)
    decreases fuel, 3
  {
    var (parent, s1) :- Eval(fuel, ext, s);
    var n := |members|;
    var a := |s1.cells|;
    var blank := Obj(parent, seq(n, _ => Field("", VUnset)));
    var (v, s2) :- New(s1.(cells := s1.cells + [blank]), VRef(a), H.ObjectSize(n));
    var s3 :- FillObject(fuel, a, 0, members, s2);
    Ok((v, s3))
  }

  function FillObject(fuel: nat, a: nat, i: nat, members: seq<Ast>, s: State): (r: Res<State>)
    requires Shaped(s) && i <= |members|
    ensures r.Ok? ==> Balanced(s, r.value)
    decreases fuel, 2, |members| - i
  {
    if i == |members| then Ok(s)
    else if !members[i].Definition? then Halted(KIND)
    else
      var (v, s1) :- EvalScoped(fuel, members[i].defValue, s);
      if a >= |s1.cells| || !s1.cells[a].Obj? || i >= |s1.cells[a].fields| then Halted(DANGLING)
      else FillObject(fuel, a, i + 1, members, WithField(s1, a, i, members[i].defName, v))
  }

  function EvalField(fuel: nat, o: Ast, f: string, s: State): (r: Result)
    requires Shaped(s)
    ensures Closed(s, r)
    decreases fuel, 1
  {
    var (v, s1) :- Eval(fuel, o, s);
    var slot :- FieldSlot(s1.cells, v, f);
    Ok((s1.cells[slot.a].fields[slot.i].value, s1))
  }

  function EvalFieldAssignment(fuel: nat, o: Ast, f: string, e: Ast, s: State): (r: Result)
    requires Shaped(s)
    ensures Closed(s, r)
    decreases fuel, 1
  {
    var (v, s1) :- Eval(fuel, o, s);
    var (w, s2) :- Eval(fuel, e, s1);
    StoreField(s2, v, f, w)
  }

  function StoreField(s: State, v: Value, f: string, w: Value): (r: Result)
    ensures Shaped(s) ==> Closed(s, r)
  {
    var slot :- FieldSlot(s.cells, v, f);
    Ok((w, WithField(s, slot.a, slot.i, f, w)))
  }

  // -------------------------------------------------------------------- calls

  // Parameters are bound one by one after `this`.
  function BindArgs(s: State, params: seq<string>, args: seq<Value>): (r: Res<State>)
    requires Shaped(s)
    ensures r.Ok? ==> Balanced(s, r.value)
    decreases |args|
  {
    if args == [] then Ok(s)
    else if params == [] then Halted(PARAMETERS)
    else
      var s1 :- Bind(s, params[0], args[0]);
      BindArgs(s1, params[1..], args[1..])
  }

  // The body runs in an environment of its own, which is gone afterwards.
  function Invoke(fuel: nat, this_: Value, f: Value, args: seq<Value>, s: State): (r: Result)
    requires Shaped(s)
    ensures Closed(s, r)
    decreases fuel, 2
  {
    var s1 :- PushEnv(s);
    var (v, s2) :- InvokeBody(fuel, this_, f, args, s1);
    Ok((v, PopEnv(s2)))
  }

  function InvokeBody(fuel: nat, this_: Value, f: Value, args: seq<Value>, s: State): (r: Result)
    requires Shaped(s)
    ensures Closed(s, r)
    decreases fuel, 1
  {
    var (t, s1) :- if this_ == VUnset then New(s, VNull, H.NULL_SZ) else Ok((this_, s));
    var s2 :- Bind(s1, "this", t);
    var g :- Usable(f);
    if !g.VFun? then Halted(KIND)
    else
      var s3 :- BindArgs(s2, g.params, args);
      Eval(fuel, g.body, s3)
  }

  // A call without receiver: `this` is a new null.
  function EvalCall(fuel: nat, f: Ast, args: seq<Ast>, s: State): (r: Result)
    requires Shaped(s)
    ensures Closed(s, r)
    decreases fuel, 3
  {
    var (g, s1) :- Eval(fuel, f, s);
    var (vs, s2) :- EvalArgs(fuel, args, s1);
    Invoke(fuel, VUnset, g, vs, s2)
  }

  // The nearest definition is run with the object that owns it as `this`; a chain
  // without one ends in a value whose built-ins are tried.
  function CallMethod(fuel: nat, v: Value, name: string, args: seq<Value>, s: State): (r: Result)
    requires Shaped(s)
    ensures Closed(s, r)
    decreases fuel, 3
  {
    match Find(s.cells, v, name)
    case Slot(a, i) => Invoke(fuel, VRef(a), s.cells[a].fields[i].value, args, s)
    case ChainEnd(end) => Builtin(s, end, name, args)
    case BadChain => Halted(DANGLING)
  }

  function EvalIndex(fuel: nat, o: Ast, i: Ast, s: State): (r: Result)
    requires Shaped(s)
    ensures Closed(s, r)
    decreases fuel, 4
  {
    var (v, s1) :- Eval(fuel, o, s);
    var (args, s2) :- EvalArgs(fuel, [i], s1);
    CallMethod(fuel, v, "get", args, s2)
  }

  function EvalIndexAssignment(fuel: nat, o: Ast, i: Ast, e: Ast, s: State): (r: Result)
    requires Shaped(s)
    ensures Closed(s, r)
    decreases fuel, 4
  {
    var (v, s1) :- Eval(fuel, o, s);
    var (args, s2) :- EvalArgs(fuel, [i, e], s1);
    CallMethod(fuel, v, "set", args, s2)
  }

  // Methods are for objects, functions and primitive values; arrays have none of their own.
  function EvalMethodCall(fuel: nat, o: Ast, m: string, args: seq<Ast>, s: State): (r: Result)
    requires Shaped(s)
    ensures Closed(s, r)
    decreases fuel, 4
  {
    var (v, s1) :- Eval(fuel, o, s);
    var w :- Usable(v);
    if w.VRef? && !IsObject(s1.cells, w) then Halted(KIND)
    else
      var (vs, s2) :- EvalArgs(fuel, args, s1);
      CallMethod(fuel, w, m, vs, s2)
  }
}
