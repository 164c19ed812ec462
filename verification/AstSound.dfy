/**
 Runs of parsed programs meet no dangling reference, no climbing parent chain and no slot
 that was never stored in, although arrays and objects are allocated before their parts
 are computed: nothing refers to a cell under construction.
 */
module AstSound {
  import opened Ast
  import opened AstValues
  import opened AstSpec

  // What the parser guarantees of a tree that is run.
  predicate Runnable(a: Ast)
    decreases a
  {
    match a
    case Null => true
    case Boolean(_) => true
    case Integer(_) => true
    case Array(n, v) => Runnable(n) && Runnable(v)
    case Object(ext, members) => Runnable(ext) && (forall m :: m in members ==> m.Definition? && Runnable(m))
    case Function(_, b) => Runnable(b)
    case Definition(_, v) => Runnable(v)
    case VariableAccess(x) => x != ""
    case VariableAssignment(x, v) => x != "" && Runnable(v)
    case IndexAccess(o, i) => Runnable(o) && Runnable(i)
    case IndexAssignment(o, i, v) => Runnable(o) && Runnable(i) && Runnable(v)
    case FieldAccess(o, _) => Runnable(o)
    case FieldAssignment(o, _, v) => Runnable(o) && Runnable(v)
    case FunctionCall(f, args) => Runnable(f) && (forall e :: e in args ==> Runnable(e))
    case MethodCall(o, _, args) => Runnable(o) && (forall e :: e in args ==> Runnable(e))
    case Conditional(c, t, e) => Runnable(c) && Runnable(t) && Runnable(e)
    case Loop(c, b) => Runnable(c) && Runnable(b)
    case Print(f, args) => Placeholders(f) == |args| && (forall e :: e in args ==> Runnable(e))
    case Block(es) => es != [] && (forall e :: e in es ==> Runnable(e))
    case Top(es) => es != [] && (forall e :: e in es ==> Runnable(e))
  }

  // ------------------------------------------------------------------ invariant

  // A value that code may hold when there are `n` cells and those in `p` are under
  // construction.
  ghost predicate ValueOk(p: set<nat>, n: nat, v: Value) {
    match v
    case VRef(a) => a < n && a !in p
    case VFun(_, body) => Runnable(body)
    case VUnset => false
    case _ => true
  }

  ghost predicate ValuesOk(p: set<nat>, n: nat, vs: seq<Value>) {
    forall i :: 0 <= i < |vs| ==> ValueOk(p, n, vs[i])
  }

  // Only cells under construction have slots that nothing was stored in.
  ghost predicate SlotOk(p: set<nat>, n: nat, i: nat, v: Value) { ValueOk(p, n, v) || (v == VUnset && i in p) }

  // Parents are older than their children.
  ghost predicate CellOk(p: set<nat>, n: nat, i: nat, c: Cell) {
    match c
    case Arr(es) => forall j :: 0 <= j < |es| ==> SlotOk(p, n, i, es[j])
    case Obj(parent, fs) =>
      && ValueOk(p, n, parent) && (parent.VRef? ==> parent.a < i)
      && forall j :: 0 <= j < |fs| ==> SlotOk(p, n, i, fs[j].value)
  }

  ghost predicate CellsOk(p: set<nat>, cells: seq<Cell>) {
    forall i :: 0 <= i < |cells| ==> CellOk(p, |cells|, i, cells[i])
  }

  ghost predicate ScopeOk(p: set<nat>, n: nat, c: Scope) { forall x :: x in c.vars ==> ValueOk(p, n, c.vars[x]) }

  ghost predicate EnvsOk(p: set<nat>, n: nat, envs: seq<Env>) {
    forall e, k :: 0 <= e < |envs| && 0 <= k < |envs[e]| ==> ScopeOk(p, n, envs[e][k])
  }

  ghost predicate Good(p: set<nat>, s: State) {
    && Shaped(s) && (forall a :: a in p ==> a < |s.cells|)
    && CellsOk(p, s.cells) && EnvsOk(p, |s.cells|, s.envs)
  }

  // Cells under construction stay as they are.
  ghost predicate Untouched(p: set<nat>, s: State, t: State) {
    && |s.cells| <= |t.cells|
    && forall a :: a in p && a < |s.cells| ==> t.cells[a] == s.cells[a]
  }

  predicate Fault(stop: Stop) { stop == DANGLING || stop == UNSET || stop == PRINT_ARGS || stop == EMPTY_NAME }

  ghost predicate Kept(p: set<nat>, s: State, t: State) { Good(p, t) && Untouched(p, s, t) }

  ghost predicate Has(p: set<nat>, s: State, v: Value) { ValueOk(p, |s.cells|, v) }

  ghost predicate Sound(p: set<nat>, s: State, r: Result) {
    match r
    case Ok((v, t)) => Kept(p, s, t) && Has(p, t, v)
    case Halted(stop) => !Fault(stop)
  }

  ghost predicate SoundState(p: set<nat>, s: State, r: Res<State>) {
    match r
    case Ok(t) => Kept(p, s, t)
    case Halted(stop) => !Fault(stop)
  }

  lemma Compose(p: set<nat>, s: State, t: State, u: State)
    requires Kept(p, s, t) && Kept(p, t, u)
    ensures Kept(p, s, u)
  {
  }

  lemma Then(p: set<nat>, s: State, t: State, r: Result)
    requires Kept(p, s, t) && Sound(p, t, r)
    ensures Sound(p, s, r)
  {
    if r.Ok? { Compose(p, s, t, r.value.1); }
  }

  lemma ThenState(p: set<nat>, s: State, t: State, r: Res<State>)
    requires Kept(p, s, t) && SoundState(p, t, r)
    ensures SoundState(p, s, r)
  {
    if r.Ok? { Compose(p, s, t, r.value); }
  }

  lemma KeptGood(p: set<nat>, s: State, t: State)
    requires Kept(p, s, t)
    ensures Good(p, t) && Shaped(t)
  {
  }

  lemma StillHas(p: set<nat>, s: State, t: State, v: Value)
    requires Has(p, s, v) && Kept(p, s, t)
    ensures Has(p, t, v)
  {
  }

  lemma StillHasAll(p: set<nat>, s: State, t: State, vs: seq<Value>)
    requires ValuesOk(p, |s.cells|, vs) && Kept(p, s, t)
    ensures ValuesOk(p, |t.cells|, vs)
  {
  }

  lemma NoChange(p: set<nat>, s: State)
    requires Good(p, s)
    ensures Shaped(s) && Kept(p, s, s)
  {
  }

  // The null pointer is the only value in code that cannot be used.
  lemma UsableValue(p: set<nat>, s: State, v: Value)
    requires Has(p, s, v)
    ensures Usable(v) == (if v == VNil then Halted(NIL) else Ok(v))
  {
  }

  // ------------------------------------------------------------------ one step

  lemma NewSound(p: set<nat>, s: State, v: Value, size: nat)
    requires Good(p, s) && Has(p, s, v)
    ensures Sound(p, s, New(s, v, size)) && (New(s, v, size).Ok? ==> New(s, v, size).value.0 == v)
  {
  }

  lemma NullSound(p: set<nat>, s: State)
    requires Good(p, s)
    ensures Sound(p, s, New(s, VNull, H.NULL_SZ))
  {
    NewSound(p, s, VNull, H.NULL_SZ);
  }

  lemma BindSound(p: set<nat>, s: State, name: string, v: Value)
    requires Good(p, s) && Has(p, s, v)
    ensures Shaped(s) && SoundState(p, s, Bind(s, name, v))
  {
    hide CellsOk;
    var r := Bind(s, name, v);
    if r.Ok? {
      forall e, k | 0 <= e < |s.envs| && 0 <= k < |s.envs[e]| ensures ScopeOk(p, |s.cells|, r.value.envs[e][k]) {
        assert ScopeOk(p, |s.cells|, s.envs[e][k]);
      }
    }
  }

  lemma LookupSound(p: set<nat>, s: State, name: string)
    requires Good(p, s) && Lookup(s, name).Bound?
    ensures var at := Lookup(s, name); Has(p, s, s.envs[at.e][at.k].vars[name])
  {
    hide CellsOk;
    var at := Lookup(s, name);
    assert ScopeOk(p, |s.cells|, s.envs[at.e][at.k]);
  }

  lemma AssignSound(p: set<nat>, s: State, name: string, v: Value)
    requires Good(p, s) && Has(p, s, v) && Lookup(s, name).Bound?
    ensures Kept(p, s, Assign(s, Lookup(s, name), name, v))
  {
    hide CellsOk, Lookup;
    var t := Assign(s, Lookup(s, name), name, v);
    forall e, k | 0 <= e < |s.envs| && 0 <= k < |s.envs[e]| ensures ScopeOk(p, |s.cells|, t.envs[e][k]) {
      assert ScopeOk(p, |s.cells|, s.envs[e][k]);
    }
  }

  lemma PushScopeSound(p: set<nat>, s: State)
    requires Good(p, s)
    ensures Shaped(s) && SoundState(p, s, PushScope(s))
  {
    hide CellsOk;
    var r := PushScope(s);
    if r.Ok? {
      forall e, k | 0 <= e < |s.envs| && 0 <= k < |r.value.envs[e]| ensures ScopeOk(p, |s.cells|, r.value.envs[e][k]) {
        if k < |s.envs[e]| { assert ScopeOk(p, |s.cells|, s.envs[e][k]); }
      }
    }
  }

  lemma PopScopeSound(p: set<nat>, s: State)
    requires Good(p, s)
    ensures Shaped(s) && Kept(p, s, PopScope(s))
  {
    hide CellsOk;
    var t := PopScope(s);
    forall e, k | 0 <= e < |t.envs| && 0 <= k < |t.envs[e]| ensures ScopeOk(p, |s.cells|, t.envs[e][k]) {
      assert ScopeOk(p, |s.cells|, s.envs[e][k]);
    }
  }

  lemma PushEnvSound(p: set<nat>, s: State)
    requires Good(p, s)
    ensures Shaped(s) && SoundState(p, s, PushEnv(s))
  {
    hide CellsOk;
    var r := PushEnv(s);
    if r.Ok? {
      forall e, k | 0 <= e < |r.value.envs| && 0 <= k < |r.value.envs[e]|
        ensures ScopeOk(p, |s.cells|, r.value.envs[e][k])
      {
        if e < |s.envs| { assert ScopeOk(p, |s.cells|, s.envs[e][k]); }
      }
    }
  }

  lemma PopEnvSound(p: set<nat>, s: State)
    requires Good(p, s)
    ensures Shaped(s) && Kept(p, s, PopEnv(s))
  {
    hide CellsOk;
    var t := PopEnv(s);
    forall e, k | 0 <= e < |t.envs| && 0 <= k < |t.envs[e]| ensures ScopeOk(p, |s.cells|, t.envs[e][k]) {
      assert ScopeOk(p, |s.cells|, s.envs[e][k]);
    }
  }

  // A complete cell keeps its kind of content when one slot is stored in.
  lemma CellSound(p: set<nat>, s: State, a: nat, cell: Cell)
    requires Good(p, s) && a < |s.cells| && a !in p && CellOk(p, |s.cells|, a, cell)
    ensures Kept(p, s, WithCell(s, a, cell))
  {
    hide EnvsOk, CellOk;
  }

  lemma ElementSound(p: set<nat>, s: State, a: nat, i: nat, v: Value)
    requires Good(p, s) && a < |s.cells| && a !in p && s.cells[a].Arr? && i < |s.cells[a].elems| && Has(p, s, v)
    ensures Kept(p, s, WithElement(s, a, i, v))
  {
    hide EnvsOk, Untouched;
    assert CellOk(p, |s.cells|, a, s.cells[a]);
    CellSound(p, s, a, Arr(s.cells[a].elems[i := v]));
  }

  lemma FieldSound(p: set<nat>, s: State, a: nat, i: nat, name: string, v: Value)
    requires Good(p, s) && a < |s.cells| && a !in p && s.cells[a].Obj? && i < |s.cells[a].fields| && Has(p, s, v)
    ensures Kept(p, s, WithField(s, a, i, name, v))
  {
    hide EnvsOk, Untouched;
    assert CellOk(p, |s.cells|, a, s.cells[a]);
    CellSound(p, s, a, s.cells[a].(fields := s.cells[a].fields[i := Field(name, v)]));
  }

  // The chain of a value in code ends in a complete cell or a value of another kind.
  lemma {:induction false} FindSound(p: set<nat>, s: State, v: Value, name: string)
    requires Good(p, s) && Has(p, s, v)
    ensures match Find(s.cells, v, name)
            case Slot(a, i) => a !in p && Has(p, s, s.cells[a].fields[i].value)
            case ChainEnd(end) => Has(p, s, end) && !IsObject(s.cells, end)
            case BadChain => false
    decreases if v.VRef? then v.a + 1 else 0
  {
    hide EnvsOk;
    if v.VRef? {
      assert CellOk(p, |s.cells|, v.a, s.cells[v.a]);
      if s.cells[v.a].Obj? && FieldIndex(s.cells[v.a].fields, name) == |s.cells[v.a].fields| {
        FindSound(p, s, s.cells[v.a].parent, name);
      }
    }
  }

  // Construction begins: nothing refers to the new cell yet.
  lemma BeginSound(p: set<nat>, s: State, cell: Cell, size: nat)
    requires Good(p, s) && CellOk(p + {|s.cells|}, |s.cells| + 1, |s.cells|, cell)
    ensures var a := |s.cells|; var r := New(s.(cells := s.cells + [cell]), VRef(a), size);
            match r
            case Ok((v, t)) => v == VRef(a) && Good(p + {a}, t) && Untouched(p, s, t) && t.cells == s.cells + [cell]
            case Halted(stop) => stop == HEAP_LIMIT
  {
    hide CellOk, ScopeOk;
    var a := |s.cells|;
    forall i | 0 <= i < a ensures CellOk(p + {a}, a + 1, i, s.cells[i]) {
      OneMoreCell(p, a, i, s.cells[i]);
    }
    forall e, k | 0 <= e < |s.envs| && 0 <= k < |s.envs[e]| ensures ScopeOk(p + {a}, a + 1, s.envs[e][k]) {
      OneMoreScope(p, a, s.envs[e][k]);
    }
  }

  lemma OneMoreCell(p: set<nat>, a: nat, i: nat, c: Cell)
    requires CellOk(p, a, i, c)
    ensures CellOk(p + {a}, a + 1, i, c)
  {
  }

  lemma OneMoreScope(p: set<nat>, a: nat, c: Scope)
    requires ScopeOk(p, a, c)
    ensures ScopeOk(p + {a}, a + 1, c)
  {
  }

  // Construction ends: every slot is stored in.
  ghost predicate Complete(p: set<nat>, n: nat, c: Cell) {
    match c
    case Arr(es) => forall j :: 0 <= j < |es| ==> ValueOk(p, n, es[j])
    case Obj(_, fs) => forall j :: 0 <= j < |fs| ==> ValueOk(p, n, fs[j].value)
  }

  lemma EndSound(p: set<nat>, a: nat, s: State)
    requires Good(p + {a}, s) && a !in p && Complete(p + {a}, |s.cells|, s.cells[a])
    ensures Good(p, s) && Has(p, s, VRef(a))
  {
    hide CellOk, ScopeOk, Complete;
    forall i | 0 <= i < |s.cells| ensures CellOk(p, |s.cells|, i, s.cells[i]) {
      OneLessCell(p, a, |s.cells|, i, s.cells[i]);
    }
    forall e, k | 0 <= e < |s.envs| && 0 <= k < |s.envs[e]| ensures ScopeOk(p, |s.cells|, s.envs[e][k]) {
      OneLessScope(p, a, |s.cells|, s.envs[e][k]);
    }
  }

  lemma OneLessCell(p: set<nat>, a: nat, n: nat, i: nat, c: Cell)
    requires CellOk(p + {a}, n, i, c) && (i == a ==> Complete(p + {a}, n, c))
    ensures CellOk(p, n, i, c)
  {
  }

  lemma OneLessScope(p: set<nat>, a: nat, n: nat, c: Scope)
    requires ScopeOk(p + {a}, n, c)
    ensures ScopeOk(p, n, c)
  {
  }

  // ------------------------------------------------------------ whole evaluations

  lemma {:induction false} EvalSound(p: set<nat>, fuel: nat, a: Ast, s: State)
    requires Good(p, s) && Runnable(a)
    ensures Shaped(s) && Sound(p, s, Eval(fuel, a, s))
    decreases fuel, 0
  {
    hide Sound, Good, Shaped, Closed, EvalDefinition, EvalAssignment, EvalCall, EvalPrint, EvalBlock, EvalSequence,
         EvalWhile, EvalConditional, EvalStructural, EvalVariable, EvalLiteral, Placeholders;
    NoChange(p, s);
    if fuel == 0 {
      OutOfFuelSound(p, s);
    } else if IsLiteral(a) {
      LiteralSound(p, a, s);
    } else if IsStructural(a) {
      StructuralSound(p, fuel - 1, a, s);
    } else {
      match a
      case Definition(x, e) => DefinitionSound(p, fuel - 1, x, e, s);
      case VariableAccess(x) => VariableSound(p, x, s);
      case VariableAssignment(x, e) => AssignmentSound(p, fuel - 1, x, e, s);
      case FunctionCall(f, args) => FunctionCallSound(p, fuel - 1, f, args, s);
      case Print(format, args) => PrintSound(p, fuel - 1, format, args, s);
      case Block(es) => BlockSound(p, fuel - 1, es, s);
      case Top(es) => SequenceSound(p, fuel - 1, es, VUnset, s);
      case Loop(c, b) => WhileSound(p, fuel - 1, c, b, s);
      case Conditional(c, t, e) => ConditionalSound(p, fuel - 1, c, t, e, s);
    }
  }

  lemma OutOfFuelSound(p: set<nat>, s: State)
    ensures Sound(p, s, Halted(FUEL))
  {
  }

  lemma LiteralSound(p: set<nat>, a: Ast, s: State)
    requires Good(p, s) && Runnable(a) && IsLiteral(a)
    ensures Sound(p, s, EvalLiteral(a, s))
  {
    hide Sound, Good, New;
    match a
    case Integer(i) => NewSound(p, s, VInt(i), H.INTEGER_SZ);
    case Boolean(b) => NewSound(p, s, VBool(b), H.BOOLEAN_SZ);
    case Null => NewSound(p, s, VNull, H.NULL_SZ);
    case Function(ps, b) => NewSound(p, s, VFun(ps, b), H.FUNCTION_SZ);
  }

  lemma {:induction false} StructuralSound(p: set<nat>, fuel: nat, a: Ast, s: State)
    requires Good(p, s) && Runnable(a) && IsStructural(a)
    ensures Shaped(s) && Sound(p, s, EvalStructural(fuel, a, s))
    decreases fuel, 5
  {
    hide Sound, Good, Shaped, Closed, EvalArray, EvalIndex, EvalIndexAssignment, EvalObject, EvalField,
         EvalFieldAssignment, EvalMethodCall, Placeholders;
    NoChange(p, s);
    match a
    case Array(n, init) => ArraySound(p, fuel, n, init, s);
    case IndexAccess(o, i) => IndexSound(p, fuel, o, i, s);
    case IndexAssignment(o, i, v) => IndexAssignmentSound(p, fuel, o, i, v, s);
    case Object(ext, members) => ObjectSound(p, fuel, ext, members, s);
    case FieldAccess(o, f) => FieldAccessSound(p, fuel, o, f, s);
    case FieldAssignment(o, f, v) => FieldAssignmentSound(p, fuel, o, f, v, s);
    case MethodCall(o, m, args) => MethodCallSound(p, fuel, o, m, args, s);
  }

  lemma {:induction false} DefinitionSound(p: set<nat>, fuel: nat, x: string, e: Ast, s: State)
    requires Good(p, s) && Runnable(e)
    ensures Shaped(s) && Sound(p, s, EvalDefinition(fuel, x, e, s))
    decreases fuel, 1
  {
    hide Good, Kept, Has, Eval, Bind;
    EvalSound(p, fuel, e, s);
    var r := Eval(fuel, e, s);
    if r.Ok? {
      var (v, t) := r.value;
      KeptGood(p, s, t);
      BindSound(p, t, x, v);
      var bound := Bind(t, x, v);
      if bound.Ok? {
        StillHas(p, t, bound.value, v);
        Compose(p, s, t, bound.value);
      }
    }
  }

  lemma VariableSound(p: set<nat>, x: string, s: State)
    requires Good(p, s) && x != ""
    ensures Shaped(s) && Sound(p, s, EvalVariable(x, s))
  {
    hide Good, Kept, Has, Bind, New, Lookup;
    NoChange(p, s);
    if Lookup(s, x).Bound? {
      LookupSound(p, s, x);
    } else {
      NullSound(p, s);
      var nl := New(s, VNull, H.NULL_SZ);
      if nl.Ok? {
        var (v, t) := nl.value;
        KeptGood(p, s, t);
        BindSound(p, t, x, v);
        var bound := Bind(t, x, v);
        if bound.Ok? {
          Compose(p, s, t, bound.value);
          KeptGood(p, t, bound.value);
          NullSound(p, bound.value);
          Then(p, s, bound.value, New(bound.value, VNull, H.NULL_SZ));
        }
      }
    }
  }

  lemma {:induction false} AssignmentSound(p: set<nat>, fuel: nat, x: string, e: Ast, s: State)
    requires Good(p, s) && x != "" && Runnable(e)
    ensures Shaped(s) && Sound(p, s, EvalAssignment(fuel, x, e, s))
    decreases fuel, 1
  {
    hide Good, Kept, Has, Eval, Bind, Lookup, Assign;
    EvalSound(p, fuel, e, s);
    var r := Eval(fuel, e, s);
    if r.Ok? {
      var (v, t) := r.value;
      KeptGood(p, s, t);
      if Lookup(t, x).Bound? {
        AssignSound(p, t, x, v);
        var u := Assign(t, Lookup(t, x), x, v);
        StillHas(p, t, u, v);
        Compose(p, s, t, u);
      } else {
        BindSound(p, t, x, v);
        var bound := Bind(t, x, v);
        if bound.Ok? {
          StillHas(p, t, bound.value, v);
          Compose(p, s, t, bound.value);
        }
      }
    }
  }

  ghost predicate SoundArgs(p: set<nat>, s: State, r: Res<(seq<Value>, State)>) {
    match r
    case Ok((vs, t)) => Kept(p, s, t) && ValuesOk(p, |t.cells|, vs)
    case Halted(stop) => !Fault(stop)
  }

  lemma {:induction false} ArgsSound(p: set<nat>, fuel: nat, es: seq<Ast>, s: State)
    requires Good(p, s) && forall e :: e in es ==> Runnable(e)
    ensures Shaped(s) && SoundArgs(p, s, EvalArgs(fuel, es, s))
    decreases fuel, 1, |es|
  {
    hide Good, Kept, Eval, ValueOk, Runnable;
    if es == [] {
      NoChange(p, s);
    } else {
      EvalSound(p, fuel, es[0], s);
      var r := Eval(fuel, es[0], s);
      if r.Ok? {
        var (v, t) := r.value;
        KeptGood(p, s, t);
        ArgsSound(p, fuel, es[1..], t);
        var more := EvalArgs(fuel, es[1..], t);
        if more.Ok? {
          StillHas(p, t, more.value.1, v);
          Compose(p, s, t, more.value.1);
        }
      }
    }
  }

  lemma {:induction false} SequenceSound(p: set<nat>, fuel: nat, es: seq<Ast>, last: Value, s: State)
    requires Good(p, s) && (es == [] ==> Has(p, s, last)) && forall e :: e in es ==> Runnable(e)
    ensures Shaped(s) && Sound(p, s, EvalSequence(fuel, es, last, s))
    decreases fuel, 1, |es|
  {
    hide Good, Kept, Has, Eval, Runnable;
    if es == [] {
      NoChange(p, s);
    } else {
      EvalSound(p, fuel, es[0], s);
      var r := Eval(fuel, es[0], s);
      if r.Ok? {
        var (v, t) := r.value;
        KeptGood(p, s, t);
        SequenceSound(p, fuel, es[1..], v, t);
        Then(p, s, t, EvalSequence(fuel, es[1..], v, t));
      }
    }
  }

  lemma {:induction false} BlockSound(p: set<nat>, fuel: nat, es: seq<Ast>, s: State)
    requires Good(p, s) && es != [] && forall e :: e in es ==> Runnable(e)
    ensures Shaped(s) && Sound(p, s, EvalBlock(fuel, es, s))
    decreases fuel, 2
  {
    hide Good, Kept, Has, EvalSequence, PushScope, PopScope, Runnable;
    PushScopeSound(p, s);
    var pushed := PushScope(s);
    if pushed.Ok? {
      KeptGood(p, s, pushed.value);
      SequenceSound(p, fuel, es, VUnset, pushed.value);
      var r := EvalSequence(fuel, es, VUnset, pushed.value);
      if r.Ok? { LeaveScope(p, s, pushed.value, r.value.1, r.value.0); }
    }
  }

  lemma LeaveScope(p: set<nat>, s: State, t: State, u: State, v: Value)
    requires Kept(p, s, t) && Kept(p, t, u) && Has(p, u, v)
    ensures Shaped(u) && Kept(p, s, PopScope(u)) && Has(p, PopScope(u), v)
  {
    hide Good, PopScope, Has;
    KeptGood(p, t, u);
    PopScopeSound(p, u);
    StillHas(p, u, PopScope(u), v);
    Compose(p, s, t, u);
    Compose(p, s, u, PopScope(u));
  }

  lemma {:induction false} ScopedSound(p: set<nat>, fuel: nat, e: Ast, s: State)
    requires Good(p, s) && Runnable(e)
    ensures Shaped(s) && Sound(p, s, EvalScoped(fuel, e, s))
    decreases fuel, 1
  {
    hide Good, Kept, Has, Eval, PushScope, PopScope;
    PushScopeSound(p, s);
    var pushed := PushScope(s);
    if pushed.Ok? {
      KeptGood(p, s, pushed.value);
      EvalSound(p, fuel, e, pushed.value);
      var r := Eval(fuel, e, pushed.value);
      if r.Ok? { LeaveScope(p, s, pushed.value, r.value.1, r.value.0); }
    }
  }

  ghost predicate SoundTest(p: set<nat>, s: State, r: Res<(bool, State)>) {
    match r
    case Ok((_, t)) => Kept(p, s, t)
    case Halted(stop) => !Fault(stop)
  }

  lemma {:induction false} TestSound(p: set<nat>, fuel: nat, c: Ast, s: State)
    requires Good(p, s) && Runnable(c)
    ensures Shaped(s) && SoundTest(p, s, EvalTest(fuel, c, s))
    decreases fuel, 1
  {
    hide Good, Kept, Has, Eval;
    EvalSound(p, fuel, c, s);
    var r := Eval(fuel, c, s);
    if r.Ok? { UsableValue(p, r.value.1, r.value.0); }
  }

  lemma {:induction false} WhileSound(p: set<nat>, fuel: nat, c: Ast, body: Ast, s: State)
    requires Good(p, s) && Runnable(c) && Runnable(body)
    ensures Shaped(s) && Sound(p, s, EvalWhile(fuel, c, body, s))
    decreases fuel, 3
  {
    hide Good, Kept, Has, EvalTest, EvalIteration, New;
    TestSound(p, fuel, c, s);
    var test := EvalTest(fuel, c, s);
    if test.Ok? {
      var t := test.value.1;
      KeptGood(p, s, t);
      if test.value.0 {
        IterationSound(p, fuel, c, body, t);
        Then(p, s, t, EvalIteration(fuel, c, body, t));
      } else {
        NullSound(p, t);
        Then(p, s, t, New(t, VNull, H.NULL_SZ));
      }
    }
  }

  lemma {:induction false} IterationSound(p: set<nat>, fuel: nat, c: Ast, body: Ast, s: State)
    requires Good(p, s) && Runnable(c) && Runnable(body)
    ensures Shaped(s) && Sound(p, s, EvalIteration(fuel, c, body, s))
    decreases fuel, 2
  {
    hide Good, Kept, Has, EvalScoped, EvalWhile;
    ScopedSound(p, fuel, body, s);
    var ran := EvalScoped(fuel, body, s);
    if ran.Ok? && fuel > 0 {
      KeptGood(p, s, ran.value.1);
      WhileSound(p, fuel - 1, c, body, ran.value.1);
      Then(p, s, ran.value.1, EvalWhile(fuel - 1, c, body, ran.value.1));
    }
  }

  lemma {:induction false} ConditionalSound(p: set<nat>, fuel: nat, c: Ast, then_: Ast, else_: Ast, s: State)
    requires Good(p, s) && Runnable(c) && Runnable(then_) && Runnable(else_)
    ensures Shaped(s) && Sound(p, s, EvalConditional(fuel, c, then_, else_, s))
    decreases fuel, 3
  {
    hide Good, Kept, Has, EvalTest, EvalScoped;
    TestSound(p, fuel, c, s);
    var test := EvalTest(fuel, c, s);
    if test.Ok? {
      var e := if test.value.0 then then_ else else_;
      KeptGood(p, s, test.value.1);
      ScopedSound(p, fuel, e, test.value.1);
      Then(p, s, test.value.1, EvalScoped(fuel, e, test.value.1));
    }
  }

  lemma {:induction false} AllUsableValues(p: set<nat>, n: nat, vs: seq<Value>)
    requires ValuesOk(p, n, vs)
    ensures AllUsable(vs).Halted? ==> AllUsable(vs).stop == NIL
  {
    if vs != [] {
      assert ValueOk(p, n, vs[0]);
      AllUsableValues(p, n, vs[1..]);
    }
  }

  lemma {:induction false} PrintSound(p: set<nat>, fuel: nat, format: string, args: seq<Ast>, s: State)
    requires Good(p, s) && Placeholders(format) == |args| && forall e :: e in args ==> Runnable(e)
    ensures Shaped(s) && Sound(p, s, EvalPrint(fuel, format, args, s))
    decreases fuel, 3
  {
    hide Good, Kept, Has, EvalArgs, New, AllUsable, Placeholders, Runnable, ValuesOk;
    ArgsSound(p, fuel, args, s);
    var r := EvalArgs(fuel, args, s);
    if r.Ok? {
      var (vs, t) := r.value;
      var n := Placeholders(format);
      assert vs[..n] == vs;
      AllUsableValues(p, |t.cells|, vs);
      PrintedSound(p, s, t, [Printed(format, vs[..n])]);
    }
  }

  lemma PrintedSound(p: set<nat>, s: State, t: State, more: seq<Printed>)
    requires Kept(p, s, t)
    ensures Sound(p, s, New(t.(output := t.output + more), VNull, H.NULL_SZ))
  {
    var u := t.(output := t.output + more);
    NullSound(p, u);
    Then(p, s, u, New(u, VNull, H.NULL_SZ));
  }

  // ------------------------------------------------------------- arrays, objects

  lemma {:induction false} ArraySound(p: set<nat>, fuel: nat, n: Ast, init: Ast, s: State)
    requires Good(p, s) && Runnable(n) && Runnable(init)
    ensures Shaped(s) && Sound(p, s, EvalArray(fuel, n, init, s))
    decreases fuel, 3
  {
    hide Good, Eval, FillArray, New, Untouched, ValueOk;
    EvalSound(p, fuel, n, s);
    var r := Eval(fuel, n, s);
    if r.Ok? {
      var (size, t) := r.value;
      UsableValue(p, t, size);
      if size.VInt? && size.i >= 0 {
        var a, length := |t.cells|, size.i;
        var cell := Arr(seq(length, _ => VUnset));
        BlankArray(p, a, length);
        BeginSound(p, t, cell, H.ArraySize(length));
        var made := New(t.(cells := t.cells + [cell]), VRef(a), H.ArraySize(length));
        if made.Ok? {
          var u := made.value.1;
          KeptGood(p, s, t);
          assert a !in p by { Fresh(p, t); }
          FillArraySound(p, fuel, a, 0, length, init, u);
          var filled := FillArray(fuel, a, 0, length, init, u);
          if filled.Ok? { Constructed(p, s, t, u, filled.value); }
        }
      }
    }
  }

  lemma Fresh(p: set<nat>, s: State)
    requires Good(p, s)
    ensures |s.cells| !in p
  {
  }

  lemma BlankArray(p: set<nat>, a: nat, length: nat)
    ensures CellOk(p + {a}, a + 1, a, Arr(seq(length, _ => VUnset)))
  {
  }

  lemma Constructed(p: set<nat>, s: State, t: State, u: State, w: State)
    requires Kept(p, s, t) && Untouched(p, t, u) && Kept(p, u, w)
    ensures Kept(p, s, w)
  {
  }

  lemma {:induction false} FillArraySound(p: set<nat>, fuel: nat, a: nat, i: nat, n: nat, init: Ast, s: State)
    requires Good(p + {a}, s) && a !in p && i <= n && Runnable(init)
    requires a < |s.cells| && s.cells[a].Arr? && |s.cells[a].elems| == n
    requires ValuesOk(p + {a}, |s.cells|, s.cells[a].elems[..i])
    ensures Shaped(s)
    ensures var r := FillArray(fuel, a, i, n, init, s);
            SoundState(p, s, r) && (r.Ok? ==> Has(p, r.value, VRef(a)))
    decreases fuel, 2, n - i
  {
    hide Good, Untouched, EvalScoped, WithElement, ValueOk;
    NoChange(p + {a}, s);
    if i == n {
      assert s.cells[a].elems[..i] == s.cells[a].elems;
      EndSound(p, a, s);
      NoChange(p, s);
    } else {
      ScopedSound(p + {a}, fuel, init, s);
      var r := EvalScoped(fuel, init, s);
      if r.Ok? {
        var (v, t) := r.value;
        StoreNext(p, a, i, s, t, v);
        var u := WithElement(t, a, i, v);
        FillArraySound(p, fuel, a, i + 1, n, init, u);
        var filled := FillArray(fuel, a, i + 1, n, init, u);
        if filled.Ok? { Constructing(p, s, u, filled.value); }
      }
    }
  }

  lemma Constructing(p: set<nat>, s: State, u: State, w: State)
    requires Untouched(p, s, u) && Kept(p, u, w)
    ensures Kept(p, s, w)
  {
  }

  // One more element of the array under construction, which the evaluation left alone.
  lemma StoreNext(p: set<nat>, a: nat, i: nat, s: State, t: State, v: Value)
    requires a !in p && a < |s.cells| && s.cells[a].Arr? && i < |s.cells[a].elems|
    requires ValuesOk(p + {a}, |s.cells|, s.cells[a].elems[..i])
    requires Kept(p + {a}, s, t) && Has(p + {a}, t, v)
    ensures a < |t.cells| && t.cells[a] == s.cells[a] && Untouched(p, s, WithElement(t, a, i, v))
    ensures var u := WithElement(t, a, i, v);
            |u.cells| == |t.cells| && Good(p + {a}, u) && u.cells[a].Arr? && |u.cells[a].elems| == |s.cells[a].elems|
            && ValuesOk(p + {a}, |u.cells|, u.cells[a].elems[..i + 1])
  {
    hide EnvsOk;
    var u := WithElement(t, a, i, v);
    assert CellOk(p + {a}, |t.cells|, a, t.cells[a]);
    assert CellOk(p + {a}, |t.cells|, a, u.cells[a]);
    assert forall j :: 0 <= j < i ==> s.cells[a].elems[j] == s.cells[a].elems[..i][j];
  }

  lemma {:induction false} ObjectSound(p: set<nat>, fuel: nat, ext: Ast, members: seq<Ast>, s: State)
    requires Good(p, s) && Runnable(ext) && forall m :: m in members ==> m.Definition? && Runnable(m)
    ensures Shaped(s) && Sound(p, s, EvalObject(fuel, ext, members, s))
    decreases fuel, 3
  {
    hide Good, Eval, FillObject, New, Untouched, ValueOk, Runnable;
    EvalSound(p, fuel, ext, s);
    var r := Eval(fuel, ext, s);
    if r.Ok? {
      var (parent, t) := r.value;
      var a, size := |t.cells|, H.ObjectSize(|members|);
      var cell := Obj(parent, seq(|members|, _ => Field("", VUnset)));
      BlankObject(p, t, parent, |members|);
      BeginSound(p, t, cell, size);
      var made := New(t.(cells := t.cells + [cell]), VRef(a), size);
      if made.Ok? {
        var u := made.value.1;
        assert a !in p by { Fresh(p, t); }
        FillObjectSound(p, fuel, a, 0, members, u);
        var filled := FillObject(fuel, a, 0, members, u);
        if filled.Ok? { Constructed(p, s, t, u, filled.value); }
      }
    }
  }

  // The parent is older than the object.
  lemma BlankObject(p: set<nat>, s: State, parent: Value, n: nat)
    requires Has(p, s, parent)
    ensures CellOk(p + {|s.cells|}, |s.cells| + 1, |s.cells|, Obj(parent, seq(n, _ => Field("", VUnset))))
  {
  }

  ghost predicate FieldsOk(p: set<nat>, n: nat, fs: seq<Field>) {
    forall j :: 0 <= j < |fs| ==> ValueOk(p, n, fs[j].value)
  }

  lemma {:induction false} FillObjectSound(p: set<nat>, fuel: nat, a: nat, i: nat, members: seq<Ast>, s: State)
    requires Good(p + {a}, s) && a !in p && i <= |members| && forall m :: m in members ==> m.Definition? && Runnable(m)
    requires a < |s.cells| && s.cells[a].Obj? && |s.cells[a].fields| == |members|
    requires FieldsOk(p + {a}, |s.cells|, s.cells[a].fields[..i])
    ensures Shaped(s)
    ensures var r := FillObject(fuel, a, i, members, s);
            SoundState(p, s, r) && (r.Ok? ==> Has(p, r.value, VRef(a)))
    decreases fuel, 2, |members| - i
  {
    hide Good, Untouched, EvalScoped, WithField, ValueOk, Placeholders;
    NoChange(p + {a}, s);
    if i == |members| {
      assert s.cells[a].fields[..i] == s.cells[a].fields;
      EndSound(p, a, s);
      NoChange(p, s);
    } else {
      assert members[i] in members;
      var x, e := members[i].defName, members[i].defValue;
      ScopedSound(p + {a}, fuel, e, s);
      var r := EvalScoped(fuel, e, s);
      if r.Ok? {
        var (v, t) := r.value;
        StoreMember(p, a, i, x, s, t, v);
        var u := WithField(t, a, i, x, v);
        FillObjectSound(p, fuel, a, i + 1, members, u);
        var filled := FillObject(fuel, a, i + 1, members, u);
        if filled.Ok? { Constructing(p, s, u, filled.value); }
      }
    }
  }

  lemma StoreMember(p: set<nat>, a: nat, i: nat, x: string, s: State, t: State, v: Value)
    requires a !in p && a < |s.cells| && s.cells[a].Obj? && i < |s.cells[a].fields|
    requires FieldsOk(p + {a}, |s.cells|, s.cells[a].fields[..i])
    requires Kept(p + {a}, s, t) && Has(p + {a}, t, v)
    ensures a < |t.cells| && t.cells[a] == s.cells[a] && Untouched(p, s, WithField(t, a, i, x, v))
    ensures var u := WithField(t, a, i, x, v);
            |u.cells| == |t.cells| && Good(p + {a}, u) && u.cells[a].Obj? && |u.cells[a].fields| == |s.cells[a].fields|
            && FieldsOk(p + {a}, |u.cells|, u.cells[a].fields[..i + 1])
  {
    hide EnvsOk;
    var u := WithField(t, a, i, x, v);
    assert CellOk(p + {a}, |t.cells|, a, t.cells[a]);
    assert CellOk(p + {a}, |t.cells|, a, u.cells[a]);
    assert forall j :: 0 <= j < i ==> s.cells[a].fields[j] == s.cells[a].fields[..i][j];
  }

  lemma FieldSlotSound(p: set<nat>, s: State, v: Value, f: string)
    requires Good(p, s) && Has(p, s, v)
    ensures match FieldSlot(s.cells, v, f)
            case Ok(slot) => slot.a !in p && Has(p, s, s.cells[slot.a].fields[slot.i].value)
            case Halted(stop) => !Fault(stop)
  {
    hide Find, Good;
    FindSound(p, s, v, f);
  }

  lemma {:induction false} FieldAccessSound(p: set<nat>, fuel: nat, o: Ast, f: string, s: State)
    requires Good(p, s) && Runnable(o)
    ensures Shaped(s) && Sound(p, s, EvalField(fuel, o, f, s))
    decreases fuel, 1
  {
    hide Good, Kept, Has, Eval, FieldSlot, Find;
    EvalSound(p, fuel, o, s);
    var r := Eval(fuel, o, s);
    if r.Ok? {
      KeptGood(p, s, r.value.1);
      FieldSlotSound(p, r.value.1, r.value.0, f);
    }
  }

  lemma StoreFieldSound(p: set<nat>, s: State, v: Value, f: string, w: Value)
    requires Good(p, s) && Has(p, s, v) && Has(p, s, w)
    ensures Sound(p, s, StoreField(s, v, f, w))
  {
    hide Good, Kept, Has, FieldSlot, Find, WithField;
    FieldSlotSound(p, s, v, f);
    var slot := FieldSlot(s.cells, v, f);
    if slot.Ok? {
      FieldSound(p, s, slot.value.a, slot.value.i, f, w);
      StillHas(p, s, WithField(s, slot.value.a, slot.value.i, f, w), w);
    }
  }

  lemma {:induction false} FieldAssignmentSound(p: set<nat>, fuel: nat, o: Ast, f: string, e: Ast, s: State)
    requires Good(p, s) && Runnable(o) && Runnable(e)
    ensures Shaped(s) && Sound(p, s, EvalFieldAssignment(fuel, o, f, e, s))
    decreases fuel, 1
  {
    hide Good, Kept, Has, Eval, StoreField;
    EvalSound(p, fuel, o, s);
    var first := Eval(fuel, o, s);
    if first.Ok? {
      var (v, t) := first.value;
      KeptGood(p, s, t);
      EvalSound(p, fuel, e, t);
      var second := Eval(fuel, e, t);
      if second.Ok? {
        var (w, u) := second.value;
        KeptGood(p, t, u);
        StillHas(p, t, u, v);
        StoreFieldSound(p, u, v, f, w);
        Compose(p, s, t, u);
        Then(p, s, u, StoreField(u, v, f, w));
      }
    }
  }

  // -------------------------------------------------------------------- calls

  lemma {:induction false} BindArgsSound(p: set<nat>, s: State, params: seq<string>, args: seq<Value>)
    requires Good(p, s) && ValuesOk(p, |s.cells|, args)
    ensures Shaped(s) && SoundState(p, s, BindArgs(s, params, args))
    decreases |args|
  {
    hide Good, Kept, Bind, ValueOk;
    NoChange(p, s);
    if args != [] && params != [] {
      BindSound(p, s, params[0], args[0]);
      var bound := Bind(s, params[0], args[0]);
      if bound.Ok? {
        KeptGood(p, s, bound.value);
        StillHasAll(p, s, bound.value, args);
        BindArgsSound(p, bound.value, params[1..], args[1..]);
        ThenState(p, s, bound.value, BindArgs(bound.value, params[1..], args[1..]));
      }
    }
  }

  lemma {:induction false} InvokeBodySound(p: set<nat>, fuel: nat, this_: Value, f: Value, args: seq<Value>, s: State)
    requires Good(p, s) && (this_ == VUnset || Has(p, s, this_)) && Has(p, s, f) && ValuesOk(p, |s.cells|, args)
    ensures Shaped(s) && Sound(p, s, InvokeBody(fuel, this_, f, args, s))
    decreases fuel, 1
  {
    hide Good, Kept, Has, ValuesOk, Eval, Bind, BindArgs, New;
    NoChange(p, s);
    NullSound(p, s);
    var first := if this_ == VUnset then New(s, VNull, H.NULL_SZ) else Ok((this_, s));
    if first.Ok? {
      var (v, t) := first.value;
      KeptGood(p, s, t);
      BindSound(p, t, "this", v);
      var bound := Bind(t, "this", v);
      if bound.Ok? {
        var u := bound.value;
        Compose(p, s, t, u);
        StillHas(p, s, u, f);
        UsableValue(p, u, f);
        StillHasAll(p, s, u, args);
        if f.VFun? { EnterSound(p, fuel, f, args, s, u); }
      }
    }
  }

  // The body of a function, after `this` was bound.
  lemma {:induction false} EnterSound(p: set<nat>, fuel: nat, f: Value, args: seq<Value>, s: State, u: State)
    requires Kept(p, s, u) && f.VFun? && Has(p, u, f) && ValuesOk(p, |u.cells|, args)
    ensures Shaped(u)
    ensures match BindArgs(u, f.params, args)
            case Ok(w) => Shaped(w) && Sound(p, s, Eval(fuel, f.body, w))
            case Halted(stop) => !Fault(stop)
    decreases fuel, 1, 0
  {
    hide Good, Kept, ValuesOk, Eval, BindArgs;
    KeptGood(p, s, u);
    BindArgsSound(p, u, f.params, args);
    var entered := BindArgs(u, f.params, args);
    if entered.Ok? {
      var w := entered.value;
      KeptGood(p, u, w);
      Compose(p, s, u, w);
      EvalSound(p, fuel, f.body, w);
      Then(p, s, w, Eval(fuel, f.body, w));
    }
  }

  lemma {:induction false} InvokeSound(p: set<nat>, fuel: nat, this_: Value, f: Value, args: seq<Value>, s: State)
    requires Good(p, s) && (this_ == VUnset || Has(p, s, this_)) && Has(p, s, f) && ValuesOk(p, |s.cells|, args)
    ensures Shaped(s) && Sound(p, s, Invoke(fuel, this_, f, args, s))
    decreases fuel, 2
  {
    hide Good, Kept, Has, ValuesOk, InvokeBody, PushEnv, PopEnv;
    PushEnvSound(p, s);
    var pushed := PushEnv(s);
    if pushed.Ok? {
      var t := pushed.value;
      KeptGood(p, s, t);
      if this_ != VUnset { StillHas(p, s, t, this_); }
      StillHas(p, s, t, f);
      StillHasAll(p, s, t, args);
      InvokeBodySound(p, fuel, this_, f, args, t);
      var r := InvokeBody(fuel, this_, f, args, t);
      if r.Ok? { LeaveEnv(p, s, t, r.value.1, r.value.0); }
    }
  }

  lemma LeaveEnv(p: set<nat>, s: State, t: State, u: State, v: Value)
    requires Kept(p, s, t) && Kept(p, t, u) && Has(p, u, v)
    ensures Shaped(u) && Kept(p, s, PopEnv(u)) && Has(p, PopEnv(u), v)
  {
    hide Good, PopEnv, Has;
    KeptGood(p, t, u);
    PopEnvSound(p, u);
    StillHas(p, u, PopEnv(u), v);
    Compose(p, s, t, u);
    Compose(p, s, u, PopEnv(u));
  }

  lemma {:induction false} FunctionCallSound(p: set<nat>, fuel: nat, f: Ast, args: seq<Ast>, s: State)
    requires Good(p, s) && Runnable(f) && forall e :: e in args ==> Runnable(e)
    ensures Shaped(s) && Sound(p, s, EvalCall(fuel, f, args, s))
    decreases fuel, 3
  {
    hide Good, Kept, Has, ValuesOk, Eval, EvalArgs, Invoke, Runnable;
    EvalSound(p, fuel, f, s);
    var first := Eval(fuel, f, s);
    if first.Ok? {
      var (g, t) := first.value;
      KeptGood(p, s, t);
      ArgsSound(p, fuel, args, t);
      var second := EvalArgs(fuel, args, t);
      if second.Ok? {
        var (vs, u) := second.value;
        KeptGood(p, t, u);
        StillHas(p, t, u, g);
        InvokeSound(p, fuel, VUnset, g, vs, u);
        Compose(p, s, t, u);
        Then(p, s, u, Invoke(fuel, VUnset, g, vs, u));
      }
    }
  }

  lemma BuiltinSound(p: set<nat>, s: State, v: Value, name: string, args: seq<Value>)
    requires Good(p, s) && Has(p, s, v) && ValuesOk(p, |s.cells|, args)
    ensures Sound(p, s, Builtin(s, v, name, args))
  {
    hide PrimitiveBuiltin, SetElement, GetElement;
    NoChange(p, s);
    if IsPrimitive(v) {
      PrimitiveSound(p, s, v, name, args);
    } else if IsArray(s.cells, v) {
      SetElementSound(p, s, v.a, args);
      GetElementSound(p, s, v.a, args);
    }
  }

  lemma PrimitiveSound(p: set<nat>, s: State, v: Value, name: string, args: seq<Value>)
    requires Good(p, s) && IsPrimitive(v) && ValuesOk(p, |s.cells|, args)
    ensures Sound(p, s, PrimitiveBuiltin(s, v, name, args))
  {
    hide Good, Kept, Operate, New;
    NoChange(p, s);
    if |args| == 1 {
      assert ValueOk(p, |s.cells|, args[0]);
      OperateSound(v, name, args[0]);
      var op := Operate(v, name, args[0]);
      if op.Computes? { NewSound(p, s, op.v, SizeOf(op.v)); }
    }
  }

  lemma OperateSound(v: Value, name: string, w: Value)
    requires IsPrimitive(v)
    ensures match Operate(v, name, w)
            case Computes(r) => r.VInt? || r.VBool?
            case Fails(stop) => !Fault(stop)
            case NoOperation => true
  {
  }

  lemma IndexValue(p: set<nat>, s: State, a: nat, v: Value)
    requires Has(p, s, v) && a < |s.cells| && s.cells[a].Arr?
    ensures ElementIndex(s.cells, a, v).Halted? ==> !Fault(ElementIndex(s.cells, a, v).stop)
  {
  }

  lemma SetElementSound(p: set<nat>, s: State, a: nat, args: seq<Value>)
    requires Good(p, s) && Has(p, s, VRef(a)) && s.cells[a].Arr? && ValuesOk(p, |s.cells|, args)
    ensures Sound(p, s, SetElement(s, a, args))
  {
    hide Good, Kept, ElementIndex, WithElement, ValueOk;
    if |args| >= 2 {
      Outside(p, s, a);
      assert Has(p, s, args[0]) && Has(p, s, args[1]);
      IndexValue(p, s, a, args[0]);
      var i := ElementIndex(s.cells, a, args[0]);
      if i.Ok? {
        ElementSound(p, s, a, i.value, args[1]);
        StillHas(p, s, WithElement(s, a, i.value, args[1]), VRef(a));
      }
    }
  }

  lemma Outside(p: set<nat>, s: State, a: nat)
    requires Has(p, s, VRef(a))
    ensures a < |s.cells| && a !in p
  {
  }

  lemma GetElementSound(p: set<nat>, s: State, a: nat, args: seq<Value>)
    requires Good(p, s) && Has(p, s, VRef(a)) && s.cells[a].Arr? && ValuesOk(p, |s.cells|, args)
    ensures Sound(p, s, GetElement(s, a, args))
  {
    hide EnvsOk, ElementIndex;
    NoChange(p, s);
    if |args| >= 1 {
      assert Has(p, s, args[0]);
      IndexValue(p, s, a, args[0]);
      assert CellOk(p, |s.cells|, a, s.cells[a]);
    }
  }

  lemma {:induction false} CallMethodSound(p: set<nat>, fuel: nat, v: Value, name: string, args: seq<Value>, s: State)
    requires Good(p, s) && Has(p, s, v) && ValuesOk(p, |s.cells|, args)
    ensures Shaped(s) && Sound(p, s, CallMethod(fuel, v, name, args, s))
    decreases fuel, 3
  {
    hide Good, Sound, ValuesOk, Find, Invoke, Builtin;
    NoChange(p, s);
    FindSound(p, s, v, name);
    match Find(s.cells, v, name)
    case Slot(a, i) => InvokeSound(p, fuel, VRef(a), s.cells[a].fields[i].value, args, s);
    case ChainEnd(end) => BuiltinSound(p, s, end, name, args);
  }

  lemma {:induction false} IndexSound(p: set<nat>, fuel: nat, o: Ast, i: Ast, s: State)
    requires Good(p, s) && Runnable(o) && Runnable(i)
    ensures Shaped(s) && Sound(p, s, EvalIndex(fuel, o, i, s))
    decreases fuel, 4
  {
    hide Good, Kept, Has, Eval, EvalArgs, CallMethod;
    SendSound(p, fuel, o, "get", [i], s);
  }

  lemma {:induction false} IndexAssignmentSound(p: set<nat>, fuel: nat, o: Ast, i: Ast, e: Ast, s: State)
    requires Good(p, s) && Runnable(o) && Runnable(i) && Runnable(e)
    ensures Shaped(s) && Sound(p, s, EvalIndexAssignment(fuel, o, i, e, s))
    decreases fuel, 4
  {
    hide Good, Kept, Has, Eval, EvalArgs, CallMethod;
    SendSound(p, fuel, o, "set", [i, e], s);
  }

  // Receiver, arguments, then the method.
  lemma {:induction false} SendSound(p: set<nat>, fuel: nat, o: Ast, m: string, args: seq<Ast>, s: State)
    requires Good(p, s) && Runnable(o) && forall e :: e in args ==> Runnable(e)
    ensures Shaped(s)
    ensures match Eval(fuel, o, s)
            case Halted(stop) => !Fault(stop)
            case Ok((v, t)) =>
              v != VUnset &&
              match EvalArgs(fuel, args, t)
              case Halted(stop) => !Fault(stop)
              case Ok((vs, u)) => Sound(p, s, CallMethod(fuel, v, m, vs, u))
    decreases fuel, 4, 0
  {
    hide Good, Kept, Has, ValuesOk, Eval, EvalArgs, CallMethod, Runnable;
    EvalSound(p, fuel, o, s);
    var first := Eval(fuel, o, s);
    if first.Ok? {
      var (v, t) := first.value;
      UsableValue(p, t, v);
      KeptGood(p, s, t);
      ArgsSound(p, fuel, args, t);
      var second := EvalArgs(fuel, args, t);
      if second.Ok? {
        var (vs, u) := second.value;
        KeptGood(p, t, u);
        StillHas(p, t, u, v);
        CallMethodSound(p, fuel, v, m, vs, u);
        Compose(p, s, t, u);
        Then(p, s, u, CallMethod(fuel, v, m, vs, u));
      }
    }
  }

  lemma {:induction false} MethodCallSound(p: set<nat>, fuel: nat, o: Ast, m: string, args: seq<Ast>, s: State)
    requires Good(p, s) && Runnable(o) && forall e :: e in args ==> Runnable(e)
    ensures Shaped(s) && Sound(p, s, EvalMethodCall(fuel, o, m, args, s))
    decreases fuel, 4
  {
    hide Good, Kept, Has, Eval, EvalArgs, CallMethod, Runnable;
    SendSound(p, fuel, o, m, args, s);
  }
}
