/**
 The tree-walking interpreter: environments are fixed arrays of scopes, scopes fixed
 arrays of bindings, searched backwards. It is proved to compute what `AstSpec` says
 over maps.
 */
module AstInterpreter {
  import opened Ast
  import opened AstValues
  import S = AstSpec
  import O = Operators
  import F = AstFrame
  import H = Heap

  datatype Variable = Variable(name: string, val: Value)
  datatype CScope = CScope(vars: seq<Variable>, varCnt: nat)
  datatype Environment = Environment(scopes: seq<CScope>, scopeCnt: nat)

  // Cleared memory: no name, no binding.
  const ZERO_VARIABLE := Variable("", VUnset)
  const ZERO_SCOPE := CScope(seq(MAX_VARS, _ => ZERO_VARIABLE), 0)
  const ZERO_ENV := Environment(seq(MAX_SCOPES, _ => ZERO_SCOPE), 0)

  // ------------------------------------------------------------- abstraction

  // The bindings made so far, the latest of a name on top.
  function Bindings(vars: seq<Variable>, n: nat): map<string, Value>
    requires n <= |vars|
  {
    if n == 0 then map[] else Bindings(vars, n - 1)[vars[n - 1].name := vars[n - 1].val]
  }

  function NamesOf(vars: seq<Variable>, n: nat): (names: seq<string>)
    requires n <= |vars|
    ensures |names| == n
  {
    seq(n, i requires 0 <= i < n => vars[i].name)
  }

  predicate ScopeOk(c: CScope) { |c.vars| == MAX_VARS && c.varCnt <= MAX_VARS }

  function AbsScope(c: CScope): Scope
    requires ScopeOk(c)
  {
    Scope(Bindings(c.vars, c.varCnt), NamesOf(c.vars, c.varCnt))
  }

  predicate EnvOk(e: Environment) {
    |e.scopes| == MAX_SCOPES && e.scopeCnt < MAX_SCOPES && forall k :: 0 <= k < MAX_SCOPES ==> ScopeOk(e.scopes[k])
  }

  function AbsEnv(e: Environment): (env: Env)
    requires EnvOk(e)
    ensures |env| == e.scopeCnt + 1
  {
    seq(e.scopeCnt + 1, k requires 0 <= k <= e.scopeCnt => AbsScope(e.scopes[k]))
  }

  // Scopes without bindings, and all scopes not in use, have a cleared first slot: the
  // search looks at it even then.
  predicate CleanScope(c: CScope)
    requires ScopeOk(c)
  {
    c.varCnt == 0 ==> c.vars[0].name == ""
  }

  predicate CleanEnv(e: Environment, live: bool)
    requires EnvOk(e)
  {
    && (forall k :: 0 <= k < MAX_SCOPES ==> CleanScope(e.scopes[k]))
    && (forall k :: (if live then e.scopeCnt else -1) < k < MAX_SCOPES ==> e.scopes[k].vars[0].name == "")
  }

  lemma {:induction false} BindingsPrefix(vars: seq<Variable>, ws: seq<Variable>, n: nat)
    requires n <= |vars| && n <= |ws| && forall i :: 0 <= i < n ==> vars[i] == ws[i]
    ensures Bindings(vars, n) == Bindings(ws, n)
  {
    if n > 0 { BindingsPrefix(vars, ws, n - 1); }
  }

  // The latest slot of a name holds its value, and writing it changes that value only.
  lemma {:induction false} BindingsAt(vars: seq<Variable>, n: nat, j: nat, name: string, v: Value)
    requires j < n <= |vars| && vars[j].name == name && forall i :: j < i < n ==> vars[i].name != name
    ensures name in Bindings(vars, n) && Bindings(vars, n)[name] == vars[j].val
    ensures Bindings(vars[j := Variable(name, v)], n) == Bindings(vars, n)[name := v]
  {
    var ws := vars[j := Variable(name, v)];
    if j == n - 1 {
      BindingsPrefix(vars, ws, n - 1);
    } else {
      BindingsAt(vars, n - 1, j, name, v);
    }
  }

  lemma {:induction false} BindingsMiss(vars: seq<Variable>, n: nat, name: string)
    requires n <= |vars| && forall i :: 0 <= i < n ==> vars[i].name != name
    ensures name !in Bindings(vars, n)
  {
    if n > 0 { BindingsMiss(vars, n - 1, name); }
  }

  // The evaluator did what the specification says: the same value and state, or the
  // same stop.
  ghost predicate Agrees(out: S.Result, r: Res<Value>, view: State) {
    match out
    case Ok((v, t)) => r == Ok(v) && view == t
    case Halted(stop) => r == Halted(stop)
  }

  ghost predicate AgreesState(out: Res<State>, r: Res<()>, view: State) {
    match out
    case Ok(t) => r == Ok(()) && view == t
    case Halted(stop) => r == Halted(stop)
  }

  class IState {
    const heap: H.Heap
    const envs: array<Environment>
    var currentEnv: nat
    var cells: seq<Cell>
    var output: seq<Printed>

    ghost predicate Valid()
      reads this, envs, heap
    {
      && heap.Valid() && envs.Length == MAX_ENVS && currentEnv < MAX_ENVS
      && (forall e :: 0 <= e < MAX_ENVS ==> EnvOk(envs[e]) && CleanEnv(envs[e], e <= currentEnv))
    }

    ghost function View(): (s: State)
      reads this, envs, heap
      requires Valid()
      ensures S.Shaped(s) && S.Top(s) == currentEnv
    {
      State(seq(currentEnv + 1, e requires 0 <= e <= currentEnv && Valid() reads this, envs, heap => AbsEnv(envs[e])),
            cells, heap.heapSize, output)
    }

    // The environments are assumed to start out cleared.
    constructor ()
      ensures Valid() && fresh(envs) && fresh(heap)
      ensures View() == State([[Scope(map[], [])]], [], H.After(0, H.NULL_SZ), [])
    {
      var h := new H.Heap(0);
      var ok, _ := h.Alloc(H.NULL_SZ);
      heap := h;
      envs := new Environment[MAX_ENVS](_ => ZERO_ENV);
      currentEnv, cells, output := 0, [], [];
      new;
      assert Valid();
      assert AbsEnv(envs[0]) == [Scope(map[], [])];
      assert View().envs == [[Scope(map[], [])]];
    }

    // ------------------------------------------------------------- environments

    // One live environment replaced.
    method SetEnv(e: nat, env: Environment)
      requires Valid() && e <= currentEnv && EnvOk(env) && CleanEnv(env, true)
      modifies envs
      ensures Valid() && View() == S.WithEnv(old(View()), e, AbsEnv(env))
    {
      ghost var view := View();
      envs[e] := env;
      assert View().envs == view.envs[e := AbsEnv(env)];
    }

    method AddToScope(v: Value, name: string) returns (r: Res<()>)
      requires Valid()
      modifies envs
      ensures Valid() && AgreesState(S.Bind(old(View()), name, v), r, View())
    {
      var env := envs[currentEnv];
      var scope := env.scopes[env.scopeCnt];
      var n := scope.varCnt;
      assert View().envs[currentEnv] == AbsEnv(env);
      if n == MAX_VARS {
        return Halted(VAR_LIMIT);
      }
      var scope' := CScope(scope.vars[n := Variable(name, v)], n + 1);
      BindingsPrefix(scope.vars, scope'.vars, n);
      assert NamesOf(scope'.vars, n + 1) == NamesOf(scope.vars, n) + [name];
      var env' := env.(scopes := env.scopes[env.scopeCnt := scope']);
      assert AbsEnv(env') == AbsEnv(env)[env.scopeCnt := AbsScope(scope')];
      SetEnv(currentEnv, env');
      r := Ok(());
    }

    method PushScope() returns (r: Res<()>)
      requires Valid()
      modifies envs
      ensures Valid() && AgreesState(S.PushScope(old(View())), r, View())
    {
      var env := envs[currentEnv];
      assert View().envs[currentEnv] == AbsEnv(env);
      if env.scopeCnt == MAX_SCOPES - 1 {
        return Halted(SCOPE_LIMIT);
      }
      var k := env.scopeCnt + 1;
      var env' := Environment(env.scopes[k := env.scopes[k].(varCnt := 0)], k);
      assert AbsEnv(env') == AbsEnv(env) + [Scope(map[], [])];
      SetEnv(currentEnv, env');
      r := Ok(());
    }

    // The scope is cleared as it is left.
    method PopScope()
      requires Valid() && envs[currentEnv].scopeCnt > 0
      modifies envs
      ensures Valid() && View() == S.PopScope(old(View()))
    {
      var env := envs[currentEnv];
      assert View().envs[currentEnv] == AbsEnv(env);
      var env' := Environment(env.scopes[env.scopeCnt := ZERO_SCOPE], env.scopeCnt - 1);
      assert AbsEnv(env') == AbsEnv(env)[..env.scopeCnt];
      SetEnv(currentEnv, env');
    }

    method PushEnv() returns (r: Res<()>)
      requires Valid()
      modifies this`currentEnv, envs
      ensures Valid() && AgreesState(S.PushEnv(old(View())), r, View())
    {
      if currentEnv == MAX_ENVS - 1 {
        return Halted(ENV_LIMIT);
      }
      ghost var view := View();
      var e := currentEnv + 1;
      var env := Environment(envs[e].scopes[0 := envs[e].scopes[0].(varCnt := 0)], 0);
      envs[e] := env;
      currentEnv := e;
      assert AbsEnv(env) == [Scope(map[], [])];
      assert View().envs == view.envs + [[Scope(map[], [])]];
      r := Ok(());
    }

    // The environment is cleared as it is left.
    method PopEnv()
      requires Valid() && currentEnv > 0
      modifies this`currentEnv, envs
      ensures Valid() && View() == S.PopEnv(old(View()))
    {
      ghost var view := View();
      envs[currentEnv] := ZERO_ENV;
      currentEnv := currentEnv - 1;
      assert View().envs == view.envs[..currentEnv + 1];
    }

    // ---------------------------------------------------------------- variables

    // The latest binding of a name in a scope. With no binding at all the first slot is
    // looked at nevertheless.
    static method FindInScope(c: CScope, name: string) returns (j: int)
      requires ScopeOk(c) && CleanScope(c) && name != ""
      ensures if j < 0 then j == -1 && name !in Bindings(c.vars, c.varCnt)
              else j < c.varCnt && c.vars[j].name == name && forall i :: j < i < c.varCnt ==> c.vars[i].name != name
    {
      j := c.varCnt;
      if j > 0 {
        j := j - 1;
      }
      while j >= 0
        invariant -1 <= j < MAX_VARS && (j < c.varCnt || j == 0 == c.varCnt)
        invariant forall i :: j < i < c.varCnt ==> c.vars[i].name != name
      {
        if c.vars[j].name == name {
          return;
        }
        j := j - 1;
      }
      BindingsMiss(c.vars, c.varCnt, name);
    }

    // From the scope on top down to the outermost one.
    static method FindInEnv(env: Environment, name: string, top: nat) returns (k: int, j: int)
      requires EnvOk(env) && CleanEnv(env, true) && top <= env.scopeCnt && name != ""
      ensures k == S.FindScope(AbsEnv(env), name, top + 1)
      ensures k >= 0 ==> 0 <= j < env.scopes[k].varCnt && env.scopes[k].vars[j].name == name
                         && forall i :: j < i < env.scopes[k].varCnt ==> env.scopes[k].vars[i].name != name
    {
      k, j := top, -1;
      while k >= 0
        invariant -1 <= k <= top
        invariant S.FindScope(AbsEnv(env), name, top + 1) == S.FindScope(AbsEnv(env), name, k + 1)
      {
        assert AbsEnv(env)[k] == AbsScope(env.scopes[k]);
        j := FindInScope(env.scopes[k], name);
        if j >= 0 {
          BindingsAt(env.scopes[k].vars, env.scopes[k].varCnt, j, name, VUnset);
          return;
        }
        k := k - 1;
      }
    }

    // The slot of a variable: in the current call, else among the globals.
    method GetVarPtr(name: string) returns (at: S.Place, j: int)
      requires Valid() && name != ""
      ensures at == S.Lookup(View(), name)
      ensures at.Bound? ==> at.e <= currentEnv && at.k <= envs[at.e].scopeCnt && SlotOf(at, j, name)
    {
      var k;
      assert View().envs[currentEnv] == AbsEnv(envs[currentEnv]) && View().envs[0] == AbsEnv(envs[0]);
      k, j := FindInEnv(envs[currentEnv], name, envs[currentEnv].scopeCnt);
      if k >= 0 {
        return S.Bound(currentEnv, k), j;
      }
      k, j := FindInEnv(envs[0], name, 0);
      at := if k >= 0 then S.Bound(0, 0) else S.Unbound;
    }

    // Slot `j` of a scope is the latest binding of `name` there.
    predicate SlotOf(at: S.Place, j: int, name: string)
      requires at.Bound? && at.e < envs.Length && at.k < |envs[at.e].scopes|
      reads this, envs
    {
      var c := envs[at.e].scopes[at.k];
      && 0 <= j < c.varCnt <= |c.vars| && c.vars[j].name == name
      && forall i :: j < i < c.varCnt ==> c.vars[i].name != name
    }

    method ReadVar(at: S.Place, j: int, name: string) returns (v: Value)
      requires Valid() && at.Bound? && at.e <= currentEnv && at.k <= envs[at.e].scopeCnt && SlotOf(at, j, name)
      ensures name in View().envs[at.e][at.k].vars && v == View().envs[at.e][at.k].vars[name]
    {
      var c := envs[at.e].scopes[at.k];
      v := c.vars[j].val;
      assert View().envs[at.e][at.k] == AbsScope(c);
      BindingsAt(c.vars, c.varCnt, j, name, v);
    }

    method WriteVar(at: S.Place, j: int, name: string, v: Value)
      requires Valid() && at.Bound? && at.e <= currentEnv && at.k <= envs[at.e].scopeCnt && SlotOf(at, j, name)
      requires name != ""
      modifies envs
      ensures Valid() && View() == S.Assign(old(View()), at, name, v)
    {
      var env := envs[at.e];
      var c := env.scopes[at.k];
      assert View().envs[at.e] == AbsEnv(env) && AbsEnv(env)[at.k] == AbsScope(c);
      var c' := c.(vars := c.vars[j := Variable(name, v)]);
      BindingsAt(c.vars, c.varCnt, j, name, v);
      assert NamesOf(c'.vars, c.varCnt) == NamesOf(c.vars, c.varCnt);
      var env' := env.(scopes := env.scopes[at.k := c']);
      assert AbsEnv(env') == AbsEnv(env)[at.k := AbsScope(c')];
      SetEnv(at.e, env');
    }

    // ------------------------------------------------------------------- values

    // Room on the heap, then the value that takes it.
    method Construct(v: Value, size: nat) returns (r: Res<Value>)
      requires Valid()
      modifies heap
      ensures Valid() && Agrees(S.New(old(View()), v, size), r, View())
    {
      ghost var view := View();
      var ok, _ := heap.Alloc(size);
      if !ok {
        return Halted(HEAP_LIMIT);
      }
      assert View().envs == view.envs;
      r := Ok(v);
    }

    method SearchFields(fields: seq<Field>, name: string) returns (i: nat)
      ensures i == S.FieldIndex(fields, name)
    {
      i := 0;
      while i < |fields| && fields[i].name != name
        invariant 0 <= i <= |fields|
        invariant S.FieldIndex(fields, name) == i + S.FieldIndex(fields[i..], name)
      {
        i := i + 1;
      }
    }

    // Up the parent chain to the nearest definition.
    method FindField(v: Value, name: string) returns (r: S.Found)
      ensures r == S.Find(cells, v, name)
      decreases if v.VRef? then v.a + 1 else 0
    {
      match v {
        case VRef(a) =>
          if a >= |cells| {
            return S.BadChain;
          }
          match cells[a] {
            case Arr(_) => return S.ChainEnd(v);
            case Obj(parent, fields) =>
              var i := SearchFields(fields, name);
              if i < |fields| {
                return S.Slot(a, i);
              }
              if parent.VRef? && parent.a >= a {
                return S.BadChain;
              }
              r := FindField(parent, name);
          }
        case _ => return S.ChainEnd(v);
      }
    }

    method FieldAccess(v: Value, name: string) returns (r: Res<S.Found>)
      ensures r == S.FieldSlot(cells, v, name)
    {
      hide S.Find;
      var found := FindField(v, name);
      match found
      case Slot(a, i) => r := Ok(S.Slot(a, i));
      case ChainEnd(end) =>
        r := Halted(if end == VNil then NIL
                    else if end == VUnset then UNSET
                    else if S.IsObject(cells, v) then NO_FIELD
                    else KIND);
      case BadChain => r := Halted(DANGLING);
    }

    // Replacing cells leaves the environments alone.
    method SetCells(cells': seq<Cell>)
      requires Valid()
      modifies this`cells
      ensures Valid() && View() == old(View()).(cells := cells')
    {
      ghost var view := View();
      cells := cells';
      assert View().envs == view.envs;
    }

    method SetField(a: nat, i: nat, name: string, v: Value)
      requires Valid() && a < |cells| && cells[a].Obj? && i < |cells[a].fields|
      modifies this`cells
      ensures Valid() && View() == S.WithField(old(View()), a, i, name, v)
    {
      SetCells(cells[a := cells[a].(fields := cells[a].fields[i := Field(name, v)])]);
    }

    method StoreElement(a: nat, i: nat, v: Value)
      requires Valid() && a < |cells| && cells[a].Arr? && i < |cells[a].elems|
      modifies this`cells
      ensures Valid() && View() == S.WithElement(old(View()), a, i, v)
    {
      SetCells(cells[a := Arr(cells[a].elems[i := v])]);
    }

    method Builtin(v: Value, name: string, args: seq<Value>) returns (r: Res<Value>)
      requires Valid()
      modifies this`cells, heap
      ensures Valid() && Agrees(S.Builtin(old(View()), v, name, args), r, View())
    {
      hide S.PrimitiveBuiltin, S.SetElement, S.GetElement;
      var usable := S.Usable(v);
      if usable.Halted? {
        return Halted(usable.stop);
      }
      if S.IsPrimitive(v) {
        r := PrimitiveBuiltin(v, name, args);
        return;
      }
      if name == "set" {
        if S.IsArray(cells, v) {
          r := SetElement(v.a, args);
          return;
        }
      }
      if name == "get" {
        if S.IsArray(cells, v) {
          r := GetElement(v.a, args);
          return;
        }
      }
      r := Ok(VNil);
    }

    // Equality compares kinds first; a boolean is compared with booleans only.
    static method Equal(v: Value, w: Value) returns (r: bool)
      requires S.IsPrimitive(v) && (v.VBool? ==> w.VBool?)
      ensures r == (v == w)
    {
      match v
      case VInt(i) => r := if w.VInt? then i == w.i else false;
      case VNull => r := w.VNull?;
      case VBool(b) => r := b == w.b;
    }

    static method Operate(v: Value, name: string, w: Value) returns (r: S.Operation)
      requires S.IsPrimitive(v)
      ensures r == S.Operate(v, name, w)
    {
      hide Wrap32, O.Quotient, O.Remainder;
      if name in O.ARITHMETIC_OPS || name in O.COMPARISON_OPS {
        if !v.VInt? || !w.VInt? {
          return S.Fails(KIND);
        }
        var x, y := v.i, w.i;
        if (name == "/" || name == "%") && (y == 0 || (x == -0x8000_0000 && y == -1)) {
          return S.Fails(ARITHMETIC);
        }
        r := S.Computes(
          if name == "+" then VInt(Wrap32(x + y))
          else if name == "-" then VInt(Wrap32(x - y))
          else if name == "*" then VInt(Wrap32(x * y))
          else if name == "/" then VInt(Wrap32(O.Quotient(x, y)))
          else if name == "%" then VInt(Wrap32(O.Remainder(x, y)))
          else if name == "<=" then VBool(x <= y)
          else if name == ">=" then VBool(x >= y)
          else if name == ">" then VBool(x > y)
          else VBool(x < y));
      } else if name == "==" || name == "!=" {
        if v.VBool? && !w.VBool? {
          return S.Fails(KIND);
        }
        var same := Equal(v, w);
        r := S.Computes(VBool(if name == "==" then same else !same));
      } else if v.VBool? && (name == "&" || name == "|") {
        if !w.VBool? {
          return S.Fails(KIND);
        }
        r := S.Computes(VBool(if name == "&" then v.b && w.b else v.b || w.b));
      } else {
        r := S.NoOperation;
      }
    }

    method PrimitiveBuiltin(v: Value, name: string, args: seq<Value>) returns (r: Res<Value>)
      requires Valid() && S.IsPrimitive(v)
      modifies heap
      ensures Valid() && Agrees(S.PrimitiveBuiltin(old(View()), v, name, args), r, View())
    {
      hide S.Operate, S.New;
      if |args| != 1 {
        return Halted(KIND);
      }
      var op := Operate(v, name, args[0]);
      if op.NoOperation? {
        return Ok(VNil);
      }
      var second := S.Usable(args[0]);
      if second.Halted? {
        return Halted(second.stop);
      }
      match op
      case Computes(w) => r := Construct(w, S.SizeOf(w));
      case Fails(stop) => r := Halted(stop);
    }

    method SetElement(a: nat, args: seq<Value>) returns (r: Res<Value>)
      requires Valid() && a < |cells| && cells[a].Arr?
      modifies this`cells
      ensures Valid() && Agrees(S.SetElement(old(View()), a, args), r, View())
    {
      if |args| < 2 {
        return Halted(KIND);
      }
      var i := S.ElementIndex(cells, a, args[0]);
      if i.Halted? {
        return Halted(i.stop);
      }
      StoreElement(a, i.value, args[1]);
      r := Ok(VRef(a));
    }

    method GetElement(a: nat, args: seq<Value>) returns (r: Res<Value>)
      requires Valid() && a < |cells| && cells[a].Arr?
      ensures Agrees(S.GetElement(View(), a, args), r, View())
    {
      if |args| < 1 {
        return Halted(KIND);
      }
      var i := S.ElementIndex(cells, a, args[0]);
      if i.Halted? {
        return Halted(i.stop);
      }
      r := Ok(cells[a].elems[i.value]);
    }

    // --------------------------------------------------------------- evaluation

    method Definition(fuel: nat, x: string, e: Ast) returns (r: Res<Value>)
      requires Valid()
      modifies this, envs, heap
      ensures Valid() && Agrees(S.EvalDefinition(fuel, x, e, old(View())), r, View())
      decreases fuel, 1
    {
      hide S.Eval, S.Bind;
      var v := Interpret(fuel, e);
      if v.Halted? {
        return v;
      }
      var bound := AddToScope(v.value, x);
      if bound.Halted? {
        return Halted(bound.stop);
      }
      r := v;
    }

    method VariableAccess(x: string) returns (r: Res<Value>)
      requires Valid()
      modifies this, envs, heap
      ensures Valid() && Agrees(S.EvalVariable(x, old(View())), r, View())
    {
      hide S.Bind, S.Lookup, S.New;
      if x == "" {
        return Halted(EMPTY_NAME);
      }
      var at, j := GetVarPtr(x);
      if at.Bound? {
        var v := ReadVar(at, j, x);
        return Ok(v);
      }
      var nl := Construct(VNull, H.NULL_SZ);
      if nl.Halted? {
        return nl;
      }
      var bound := AddToScope(nl.value, x);
      if bound.Halted? {
        return Halted(bound.stop);
      }
      r := Construct(VNull, H.NULL_SZ);
    }

    method VariableAssignment(fuel: nat, x: string, e: Ast) returns (r: Res<Value>)
      requires Valid()
      modifies this, envs, heap
      ensures Valid() && Agrees(S.EvalAssignment(fuel, x, e, old(View())), r, View())
      decreases fuel, 1
    {
      hide S.Eval, S.Bind, S.Lookup, S.Assign;
      var v := Interpret(fuel, e);
      if v.Halted? {
        return v;
      }
      if x == "" {
        return Halted(EMPTY_NAME);
      }
      var at, j := GetVarPtr(x);
      if at.Bound? {
        WriteVar(at, j, x, v.value);
      } else {
        var bound := AddToScope(v.value, x);
        if bound.Halted? {
          return Halted(bound.stop);
        }
      }
      r := v;
    }

    method Arguments(fuel: nat, es: seq<Ast>) returns (r: Res<seq<Value>>)
      requires Valid()
      modifies this, envs, heap
      ensures Valid()
      ensures match S.EvalArgs(fuel, es, old(View()))
              case Ok((vs, t)) => r == Ok(vs) && View() == t
              case Halted(stop) => r == Halted(stop)
      decreases fuel, 1
    {
      hide S.Eval;
      ghost var due := S.EvalArgs(fuel, es, View());
      var vs := [];
      var i := 0;
      assert es[0..] == es;
      AfterNone(due);
      while i < |es|
        invariant Valid() && 0 <= i <= |es|
        invariant due == After(vs, S.EvalArgs(fuel, es[i..], View()))
      {
        assert es[i..][0] == es[i] && es[i..][1..] == es[i + 1..];
        ghost var view := View();
        ghost var done := vs;
        var v := Interpret(fuel, es[i]);
        if v.Halted? {
          return Halted(v.stop);
        }
        vs := vs + [v.value];
        i := i + 1;
        AfterOne(done, v.value, S.EvalArgs(fuel, es[i..], View()));
      }
      assert due == Ok((vs + [], View()));
      assert vs + [] == vs;
      r := Ok(vs);
    }

    // The rest of a list of arguments behind the values computed so far.
    static ghost function After(vs: seq<Value>, r: Res<(seq<Value>, State)>): Res<(seq<Value>, State)> {
      match r
      case Ok((ws, t)) => Ok((vs + ws, t))
      case Halted(stop) => Halted(stop)
    }

    static lemma AfterNone(r: Res<(seq<Value>, State)>)
      ensures After([], r) == r
    {
      if r.Ok? { assert [] + r.value.0 == r.value.0; }
    }

    static lemma AfterOne(vs: seq<Value>, v: Value, r: Res<(seq<Value>, State)>)
      ensures After(vs, After([v], r)) == After(vs + [v], r)
    {
      if r.Ok? { assert vs + ([v] + r.value.0) == vs + [v] + r.value.0; }
    }

    // Expressions in order; `last` is the value of the latest one.
    method Sequence(fuel: nat, es: seq<Ast>) returns (r: Res<Value>)
      requires Valid()
      modifies this, envs, heap
      ensures Valid() && Agrees(S.EvalSequence(fuel, es, VUnset, old(View())), r, View())
      decreases fuel, 1
    {
      hide S.Eval;
      ghost var due := S.EvalSequence(fuel, es, VUnset, View());
      var last := VUnset;
      var i := 0;
      assert es[0..] == es;
      while i < |es|
        invariant Valid() && 0 <= i <= |es|
        invariant due == S.EvalSequence(fuel, es[i..], last, View())
      {
        assert es[i..][0] == es[i] && es[i..][1..] == es[i + 1..];
        var v := Interpret(fuel, es[i]);
        if v.Halted? {
          return v;
        }
        last := v.value;
        i := i + 1;
      }
      r := Ok(last);
    }

    // A scope is there to be left after a balanced evaluation.
    lemma ScopeToLeave(before: State, pushed: State)
      requires Valid() && S.Shaped(before) && S.PushScope(before) == Ok(pushed) && S.Balanced(pushed, View())
      ensures envs[currentEnv].scopeCnt > 0
    {
      assert |View().envs[currentEnv]| == |pushed.envs[currentEnv]|;
      assert View().envs[currentEnv] == AbsEnv(envs[currentEnv]);
    }

    method Block(fuel: nat, es: seq<Ast>) returns (r: Res<Value>)
      requires Valid()
      modifies this, envs, heap
      ensures Valid() && Agrees(S.EvalBlock(fuel, es, old(View())), r, View())
      decreases fuel, 2
    {
      hide S.EvalSequence, S.PushScope, S.PopScope;
      ghost var view := View();
      var pushed := PushScope();
      if pushed.Halted? {
        return Halted(pushed.stop);
      }
      ghost var inner := View();
      r := Sequence(fuel, es);
      if r.Ok? {
        ScopeToLeave(view, inner);
        PopScope();
      }
    }

    method Scoped(fuel: nat, e: Ast) returns (r: Res<Value>)
      requires Valid()
      modifies this, envs, heap
      ensures Valid() && Agrees(S.EvalScoped(fuel, e, old(View())), r, View())
      decreases fuel, 1
    {
      hide S.Eval, S.PushScope, S.PopScope;
      ghost var view := View();
      var pushed := PushScope();
      if pushed.Halted? {
        return Halted(pushed.stop);
      }
      ghost var inner := View();
      r := Interpret(fuel, e);
      if r.Ok? {
        ScopeToLeave(view, inner);
        PopScope();
      }
    }

    method Test(fuel: nat, c: Ast) returns (r: Res<bool>)
      requires Valid()
      modifies this, envs, heap
      ensures Valid()
      ensures match S.EvalTest(fuel, c, old(View()))
              case Ok((on, t)) => r == Ok(on) && View() == t
              case Halted(stop) => r == Halted(stop)
      decreases fuel, 1
    {
      hide S.Eval, S.Usable, S.Truthy;
      var v := Interpret(fuel, c);
      if v.Halted? {
        return Halted(v.stop);
      }
      var cond := S.Usable(v.value);
      r := match cond case Ok(w) => Ok(S.Truthy(w)) case Halted(stop) => Halted(stop);
    }

    method While(fuel: nat, c: Ast, body: Ast) returns (r: Res<Value>)
      requires Valid()
      modifies this, envs, heap
      ensures Valid() && Agrees(S.EvalWhile(fuel, c, body, old(View())), r, View())
      decreases fuel, 3
    {
      hide S.EvalTest, S.EvalScoped, S.New, S.Closed, S.Shaped, View, Valid;
      ghost var due := S.EvalWhile(fuel, c, body, View());
      var left: nat := fuel;
      while true
        invariant Valid() && left <= fuel
        invariant due == S.EvalWhile(left, c, body, View())
        decreases left
      {
        var on := Test(left, c);
        if on.Halted? {
          return Halted(on.stop);
        }
        if !on.value {
          r := Construct(VNull, H.NULL_SZ);
          return;
        }
        var ran := Scoped(left, body);
        if ran.Halted? {
          return ran;
        }
        if left == 0 {
          return Halted(FUEL);
        }
        left := left - 1;
      }
    }

    method Conditional(fuel: nat, c: Ast, t: Ast, e: Ast) returns (r: Res<Value>)
      requires Valid()
      modifies this, envs, heap
      ensures Valid() && Agrees(S.EvalConditional(fuel, c, t, e, old(View())), r, View())
      decreases fuel, 3
    {
      hide S.EvalTest, S.EvalScoped;
      var on := Test(fuel, c);
      if on.Halted? {
        return Halted(on.stop);
      }
      r := Scoped(fuel, if on.value then t else e);
    }

    method Print(fuel: nat, format: string, args: seq<Ast>) returns (r: Res<Value>)
      requires Valid()
      modifies this, envs, heap
      ensures Valid() && Agrees(S.EvalPrint(fuel, format, args, old(View())), r, View())
      decreases fuel, 3
    {
      hide S.EvalArgs, S.AllUsable, S.New, Placeholders;
      var vs := Arguments(fuel, args);
      if vs.Halted? {
        return Halted(vs.stop);
      }
      var n := Placeholders(format);
      if n > |vs.value| {
        return Halted(PRINT_ARGS);
      }
      var shown := S.AllUsable(vs.value[..n]);
      if shown.Halted? {
        return Halted(shown.stop);
      }
      ghost var view := View();
      output := output + [Printed(format, vs.value[..n])];
      assert View().envs == view.envs;
      r := Construct(VNull, H.NULL_SZ);
    }

    method ArrayLiteral(fuel: nat, n: Ast, init: Ast) returns (r: Res<Value>)
      requires Valid()
      modifies this, envs, heap
      ensures Valid() && Agrees(S.EvalArray(fuel, n, init, old(View())), r, View())
      decreases fuel, 3
    {
      hide S.Eval, S.FillArray, S.New;
      var size := Interpret(fuel, n);
      if size.Halted? {
        return size;
      }
      var w := S.Usable(size.value);
      if w.Halted? {
        return Halted(w.stop);
      }
      match w.value
      case VInt(length) =>
        if length < 0 {
          return Halted(BOUNDS);
        }
        var a := |cells|;
        SetCells(cells + [Arr(seq(length, _ => VUnset))]);
        r := Construct(VRef(a), H.ArraySize(length));
        if r.Ok? {
          var filled := Fill(fuel, a, length, init);
          if filled.Halted? {
            r := Halted(filled.stop);
          }
        }
      case _ => r := Halted(KIND);
    }

    method Fill(fuel: nat, a: nat, n: nat, init: Ast) returns (r: Res<()>)
      requires Valid()
      modifies this, envs, heap
      ensures Valid() && AgreesState(S.FillArray(fuel, a, 0, n, init, old(View())), r, View())
      decreases fuel, 2
    {
      hide S.EvalScoped, S.WithElement, S.Balanced;
      ghost var due := S.FillArray(fuel, a, 0, n, init, View());
      var i := 0;
      while i < n
        invariant Valid() && 0 <= i <= n
        invariant due == S.FillArray(fuel, a, i, n, init, View())
      {
        var v := Scoped(fuel, init);
        if v.Halted? {
          return Halted(v.stop);
        }
        if a >= |cells| || !cells[a].Arr? || i >= |cells[a].elems| {
          return Halted(DANGLING);
        }
        StoreElement(a, i, v.value);
        i := i + 1;
      }
      r := Ok(());
    }

    method ObjectLiteral(fuel: nat, ext: Ast, members: seq<Ast>) returns (r: Res<Value>)
      requires Valid()
      modifies this, envs, heap
      ensures Valid() && Agrees(S.EvalObject(fuel, ext, members, old(View())), r, View())
      decreases fuel, 3
    {
      hide S.Eval, S.FillObject, S.New;
      var parent := Interpret(fuel, ext);
      if parent.Halted? {
        return parent;
      }
      var a := |cells|;
      SetCells(cells + [Obj(parent.value, seq(|members|, _ => Field("", VUnset)))]);
      r := Construct(VRef(a), H.ObjectSize(|members|));
      if r.Ok? {
        var filled := FillMembers(fuel, a, members);
        if filled.Halted? {
          r := Halted(filled.stop);
        }
      }
    }

    method FillMembers(fuel: nat, a: nat, members: seq<Ast>) returns (r: Res<()>)
      requires Valid()
      modifies this, envs, heap
      ensures Valid() && AgreesState(S.FillObject(fuel, a, 0, members, old(View())), r, View())
      decreases fuel, 2
    {
      hide S.EvalScoped, S.WithField, S.Balanced;
      ghost var due := S.FillObject(fuel, a, 0, members, View());
      var i := 0;
      while i < |members|
        invariant Valid() && 0 <= i <= |members|
        invariant due == S.FillObject(fuel, a, i, members, View())
      {
        match members[i] {
          case Definition(name, value) =>
            var v := Scoped(fuel, value);
            if v.Halted? {
              return Halted(v.stop);
            }
            if a >= |cells| || !cells[a].Obj? || i >= |cells[a].fields| {
              return Halted(DANGLING);
            }
            SetField(a, i, name, v.value);
          case _ => return Halted(KIND);
        }
        i := i + 1;
      }
      r := Ok(());
    }

    method ReadField(fuel: nat, o: Ast, f: string) returns (r: Res<Value>)
      requires Valid()
      modifies this, envs, heap
      ensures Valid() && Agrees(S.EvalField(fuel, o, f, old(View())), r, View())
      decreases fuel, 1
    {
      hide S.Eval, S.FieldSlot, S.Find;
      var v := Interpret(fuel, o);
      if v.Halted? {
        return v;
      }
      var slot := FieldAccess(v.value, f);
      match slot
      case Ok(at) => r := Ok(cells[at.a].fields[at.i].value);
      case Halted(stop) => r := Halted(stop);
    }

    method WriteField(fuel: nat, o: Ast, f: string, e: Ast) returns (r: Res<Value>)
      requires Valid()
      modifies this, envs, heap
      ensures Valid() && Agrees(S.EvalFieldAssignment(fuel, o, f, e, old(View())), r, View())
      decreases fuel, 1
    {
      hide S.Eval, S.StoreField;
      var v := Interpret(fuel, o);
      if v.Halted? {
        return v;
      }
      var w := Interpret(fuel, e);
      if w.Halted? {
        return w;
      }
      r := StoreField(v.value, f, w.value);
    }

    method StoreField(v: Value, f: string, w: Value) returns (r: Res<Value>)
      requires Valid()
      modifies this`cells
      ensures Valid() && Agrees(S.StoreField(old(View()), v, f, w), r, View())
    {
      hide S.FieldSlot, S.Find, S.WithField;
      var slot := FieldAccess(v, f);
      match slot
      case Ok(at) =>
        SetField(at.a, at.i, f, w);
        r := Ok(w);
      case Halted(stop) => r := Halted(stop);
    }

    // -------------------------------------------------------------------- calls

    method BindArguments(params: seq<string>, args: seq<Value>) returns (r: Res<()>)
      requires Valid()
      modifies envs
      ensures Valid() && AgreesState(S.BindArgs(old(View()), params, args), r, View())
    {
      hide S.Bind;
      ghost var due := S.BindArgs(View(), params, args);
      var j := 0;
      assert params[0..] == params && args[0..] == args;
      while j < |args|
        invariant Valid() && 0 <= j <= |args| && j <= |params|
        invariant due == S.BindArgs(View(), params[j..], args[j..])
      {
        if j == |params| {
          return Halted(PARAMETERS);
        }
        assert params[j..][0] == params[j] && params[j..][1..] == params[j + 1..];
        assert args[j..][0] == args[j] && args[j..][1..] == args[j + 1..];
        var bound := AddToScope(args[j], params[j]);
        if bound.Halted? {
          return Halted(bound.stop);
        }
        j := j + 1;
      }
      r := Ok(());
    }

    // An environment is there to be left after a balanced evaluation.
    lemma EnvToLeave(before: State, pushed: State)
      requires Valid() && S.Shaped(before) && S.PushEnv(before) == Ok(pushed) && S.Balanced(pushed, View())
      ensures currentEnv > 0
    {
    }

    method Invoke(fuel: nat, this_: Value, f: Value, args: seq<Value>) returns (r: Res<Value>)
      requires Valid()
      modifies this, envs, heap
      ensures Valid() && Agrees(S.Invoke(fuel, this_, f, args, old(View())), r, View())
      decreases fuel, 2
    {
      hide S.Eval, S.BindArgs, S.Bind, S.PushEnv, S.PopEnv, S.InvokeBody;
      ghost var view := View();
      var pushed := PushEnv();
      if pushed.Halted? {
        return Halted(pushed.stop);
      }
      ghost var inner := View();
      r := RunBody(fuel, this_, f, args);
      if r.Ok? {
        EnvToLeave(view, inner);
        PopEnv();
      }
    }

    method RunBody(fuel: nat, this_: Value, f: Value, args: seq<Value>) returns (r: Res<Value>)
      requires Valid()
      modifies this, envs, heap
      ensures Valid() && Agrees(S.InvokeBody(fuel, this_, f, args, old(View())), r, View())
      decreases fuel, 1
    {
      hide S.Eval, S.BindArgs, S.Bind, S.New;
      var t := Ok(this_);
      if this_ == VUnset {
        t := Construct(VNull, H.NULL_SZ);
        if t.Halted? {
          return t;
        }
      }
      var bound := AddToScope(t.value, "this");
      if bound.Halted? {
        return Halted(bound.stop);
      }
      var g := S.Usable(f);
      if g.Halted? {
        return Halted(g.stop);
      }
      match g.value
      case VFun(params, body) =>
        bound := BindArguments(params, args);
        if bound.Halted? {
          return Halted(bound.stop);
        }
        r := Interpret(fuel, body);
      case _ => r := Halted(KIND);
    }

    method FunctionCall(fuel: nat, f: Ast, args: seq<Ast>) returns (r: Res<Value>)
      requires Valid()
      modifies this, envs, heap
      ensures Valid() && Agrees(S.EvalCall(fuel, f, args, old(View())), r, View())
      decreases fuel, 3
    {
      hide S.Eval, S.EvalArgs, S.Invoke;
      var g := Interpret(fuel, f);
      if g.Halted? {
        return g;
      }
      var vs := Arguments(fuel, args);
      if vs.Halted? {
        return Halted(vs.stop);
      }
      r := Invoke(fuel, VUnset, g.value, vs.value);
    }

    method CallMethod(fuel: nat, v: Value, name: string, args: seq<Value>) returns (r: Res<Value>)
      requires Valid()
      modifies this, envs, heap
      ensures Valid() && Agrees(S.CallMethod(fuel, v, name, args, old(View())), r, View())
      decreases fuel, 3
    {
      hide S.Find, S.Invoke, S.Builtin;
      var found := FindField(v, name);
      match found
      case Slot(a, i) => r := Invoke(fuel, VRef(a), cells[a].fields[i].value, args);
      case ChainEnd(end) => r := Builtin(end, name, args);
      case BadChain => r := Halted(DANGLING);
    }

    method IndexAccess(fuel: nat, o: Ast, i: Ast) returns (r: Res<Value>)
      requires Valid()
      modifies this, envs, heap
      ensures Valid() && Agrees(S.EvalIndex(fuel, o, i, old(View())), r, View())
      decreases fuel, 4
    {
      hide S.Eval, S.CallMethod, S.EvalArgs;
      var v := Interpret(fuel, o);
      if v.Halted? {
        return v;
      }
      var args := Arguments(fuel, [i]);
      if args.Halted? {
        return Halted(args.stop);
      }
      r := CallMethod(fuel, v.value, "get", args.value);
    }

    method IndexAssignment(fuel: nat, o: Ast, i: Ast, e: Ast) returns (r: Res<Value>)
      requires Valid()
      modifies this, envs, heap
      ensures Valid() && Agrees(S.EvalIndexAssignment(fuel, o, i, e, old(View())), r, View())
      decreases fuel, 4
    {
      hide S.Eval, S.CallMethod, S.EvalArgs;
      var v := Interpret(fuel, o);
      if v.Halted? {
        return v;
      }
      var args := Arguments(fuel, [i, e]);
      if args.Halted? {
        return Halted(args.stop);
      }
      r := CallMethod(fuel, v.value, "set", args.value);
    }

    method MethodCall(fuel: nat, o: Ast, m: string, args: seq<Ast>) returns (r: Res<Value>)
      requires Valid()
      modifies this, envs, heap
      ensures Valid() && Agrees(S.EvalMethodCall(fuel, o, m, args, old(View())), r, View())
      decreases fuel, 4
    {
      hide S.Eval, S.CallMethod, S.EvalArgs;
      var v := Interpret(fuel, o);
      if v.Halted? {
        return v;
      }
      var w := S.Usable(v.value);
      if w.Halted? {
        return Halted(w.stop);
      }
      if w.value.VRef? && !S.IsObject(cells, w.value) {
        return Halted(KIND);
      }
      var vs := Arguments(fuel, args);
      if vs.Halted? {
        return Halted(vs.stop);
      }
      r := CallMethod(fuel, w.value, m, vs.value);
    }

    method Literal(a: Ast) returns (r: Res<Value>)
      requires Valid() && S.IsLiteral(a)
      modifies heap
      ensures Valid() && Agrees(S.EvalLiteral(a, old(View())), r, View())
    {
      hide S.New, View, Valid;
      match a
      case Integer(i) => r := Construct(VInt(i), H.INTEGER_SZ);
      case Boolean(b) => r := Construct(VBool(b), H.BOOLEAN_SZ);
      case Null => r := Construct(VNull, H.NULL_SZ);
      case Function(params, body) => r := Construct(VFun(params, body), H.FUNCTION_SZ);
    }

    method Structural(fuel: nat, a: Ast) returns (r: Res<Value>)
      requires Valid() && S.IsStructural(a)
      modifies this, envs, heap
      ensures Valid() && Agrees(S.EvalStructural(fuel, a, old(View())), r, View())
      decreases fuel, 5
    {
      hide S.EvalArray, S.EvalIndex, S.EvalIndexAssignment, S.EvalObject, S.EvalField, S.EvalFieldAssignment,
           S.EvalMethodCall, S.Closed, S.Shaped, View, Valid;
      match a
      case Array(n, init) => r := ArrayLiteral(fuel, n, init);
      case IndexAccess(o, i) => r := IndexAccess(fuel, o, i);
      case IndexAssignment(o, i, v) => r := IndexAssignment(fuel, o, i, v);
      case Object(ext, members) => r := ObjectLiteral(fuel, ext, members);
      case FieldAccess(o, f) => r := ReadField(fuel, o, f);
      case FieldAssignment(o, f, v) => r := WriteField(fuel, o, f, v);
      case MethodCall(o, m, args) => r := MethodCall(fuel, o, m, args);
    }

    // Runs a tree, at most `fuel` levels deep.
    method Interpret(fuel: nat, a: Ast) returns (r: Res<Value>)
      requires Valid()
      modifies this, envs, heap
      ensures Valid() && Agrees(S.Eval(fuel, a, old(View())), r, View())
      decreases fuel, 0
    {
      hide S.EvalLiteral, S.EvalStructural, S.EvalDefinition, S.EvalVariable, S.EvalAssignment, S.EvalCall, S.EvalPrint,
           S.EvalBlock, S.EvalSequence, S.EvalWhile, S.EvalConditional, S.Closed, S.Shaped, View, Valid;
      if fuel == 0 {
        return Halted(FUEL);
      }
      if S.IsLiteral(a) {
        r := Literal(a);
        return;
      }
      if S.IsStructural(a) {
        r := Structural(fuel - 1, a);
        return;
      }
      match a
      case Definition(x, e) => r := Definition(fuel - 1, x, e);
      case VariableAccess(x) => r := VariableAccess(x);
      case VariableAssignment(x, e) => r := VariableAssignment(fuel - 1, x, e);
      case FunctionCall(f, args) => r := FunctionCall(fuel - 1, f, args);
      case Print(format, args) => r := Print(fuel - 1, format, args);
      case Block(es) => r := Block(fuel - 1, es);
      case Top(es) => r := Sequence(fuel - 1, es);
      case Loop(c, b) => r := While(fuel - 1, c, b);
      case Conditional(c, t, e) => r := Conditional(fuel - 1, c, t, e);
    }

    // In the arrays: a completed evaluation leaves every binding of every live scope in
    // its slot, and uses up slots of the current scope only.
    twostate lemma BindingsKept(fuel: nat, a: Ast, v: Value)
      requires old(Valid()) && Valid() && S.Eval(fuel, a, old(View())) == Ok((v, View()))
      ensures currentEnv == old(currentEnv)
      ensures forall e :: 0 <= e <= currentEnv ==> envs[e].scopeCnt == old(envs[e].scopeCnt)
      ensures forall e, k :: 0 <= e <= currentEnv && 0 <= k <= envs[e].scopeCnt ==>
                SlotsKept(old(envs[e].scopes[k]), envs[e].scopes[k], e == currentEnv && k == envs[e].scopeCnt)
    {
      hide S.Eval, F.EnvsKept, F.Rewritten, F.Widened;
      F.EvalFrames(fuel, a, old(View()));
      forall e | 0 <= e <= currentEnv
        ensures envs[e].scopeCnt == old(envs[e].scopeCnt)
        ensures forall k :: 0 <= k <= envs[e].scopeCnt ==>
                  SlotsKept(old(envs[e].scopes[k]), envs[e].scopes[k], e == currentEnv && k == envs[e].scopeCnt)
      {
        assert old(View()).envs[e] == AbsEnv(old(envs[e])) && View().envs[e] == AbsEnv(envs[e]);
        EnvSlotsKept(old(View()).envs, View().envs, e, old(envs[e]), envs[e]);
      }
    }

    static lemma EnvSlotsKept(was: seq<Env>, now: seq<Env>, e: nat, c: Environment, d: Environment)
      requires F.EnvsKept(was, now) && e < |was| && EnvOk(c) && EnvOk(d) && was[e] == AbsEnv(c) && now[e] == AbsEnv(d)
      ensures d.scopeCnt == c.scopeCnt
      ensures forall k :: 0 <= k <= d.scopeCnt ==>
                SlotsKept(c.scopes[k], d.scopes[k], e == |was| - 1 && k == d.scopeCnt)
    {
      forall k | 0 <= k <= d.scopeCnt ensures SlotsKept(c.scopes[k], d.scopes[k], e == |was| - 1 && k == d.scopeCnt) {
        assert was[e][k] == AbsScope(c.scopes[k]) && now[e][k] == AbsScope(d.scopes[k]);
        if e == 0 < |was| - 1 && k > 0 { assert was[e][1..][k - 1] == now[e][1..][k - 1]; }
        SameNames(c.scopes[k], d.scopes[k]);
      }
    }

    static lemma SameNames(c: CScope, d: CScope)
      requires ScopeOk(c) && ScopeOk(d) && NamesOf(c.vars, c.varCnt) <= NamesOf(d.vars, d.varCnt)
      ensures SlotsKept(c, d, true)
      ensures NamesOf(c.vars, c.varCnt) == NamesOf(d.vars, d.varCnt) ==> SlotsKept(c, d, false)
    {
      var was, now := NamesOf(c.vars, c.varCnt), NamesOf(d.vars, d.varCnt);
      assert forall j :: 0 <= j < c.varCnt ==> c.vars[j].name == was[j] == now[j];
    }

    // Every binding keeps its name; more may follow if the scope may grow.
    static predicate SlotsKept(c: CScope, d: CScope, grows: bool) {
      && c.varCnt <= |c.vars| && d.varCnt <= |d.vars|
      && (if grows then c.varCnt <= d.varCnt else c.varCnt == d.varCnt)
      && forall j :: 0 <= j < c.varCnt ==> d.vars[j].name == c.vars[j].name
    }
  }
}
