/**
 What a completed evaluation leaves alone: scopes and environments come back as they were
 found, and only the innermost scope of the current call gains names.
 */
module AstFrame {
  import opened Ast
  import opened AstValues
  import opened AstSpec

  // Values may have been assigned, nothing more: every binding keeps its name and position.
  ghost predicate Rewritten(a: Scope, b: Scope) { a.vars.Keys == b.vars.Keys && a.names == b.names }

  // Bindings may have been added behind those there were.
  ghost predicate Widened(a: Scope, b: Scope) { a.vars.Keys <= b.vars.Keys && a.names <= b.names }

  ghost predicate EnvKept(a: Env, b: Env) {
    && |a| == |b| > 0 && Widened(a[|a| - 1], b[|a| - 1])
    && forall k :: 0 <= k < |a| - 1 ==> Rewritten(a[k], b[k])
  }

  // The globals may be assigned from a call, but not the scopes nested in their environment.
  ghost predicate GlobalsKept(a: Env, b: Env) {
    |a| == |b| > 0 && Rewritten(a[0], b[0]) && a[1..] == b[1..]
  }

  ghost predicate EnvsKept(a: seq<Env>, b: seq<Env>) {
    && |a| == |b| > 0 && EnvKept(a[|a| - 1], b[|a| - 1])
    && (|a| > 1 ==> GlobalsKept(a[0], b[0]))
    && forall e :: 0 < e < |a| - 1 ==> a[e] == b[e]
  }

  // A cell stays what it is: an array of its size, or an object with its parent.
  ghost predicate CellKept(c: Cell, d: Cell) {
    match c
    case Arr(es) => d.Arr? && |d.elems| == |es|
    case Obj(parent, fs) => d.Obj? && d.parent == parent && |d.fields| == |fs|
  }

  ghost predicate CellsKept(a: seq<Cell>, b: seq<Cell>) {
    |a| <= |b| && forall i :: 0 <= i < |a| ==> CellKept(a[i], b[i])
  }

  ghost predicate Frame(s: State, t: State) {
    && Shaped(s) && Shaped(t) && EnvsKept(s.envs, t.envs)
    && CellsKept(s.cells, t.cells) && s.used <= t.used && s.output <= t.output
  }

  ghost predicate Framed(s: State, r: Result) { r.Ok? ==> Frame(s, r.value.1) }
  ghost predicate FramedState(s: State, r: Res<State>) { r.Ok? ==> Frame(s, r.value) }

  lemma Same(s: State, t: State)
    requires Shaped(s) && t.envs == s.envs && CellsKept(s.cells, t.cells) && s.used <= t.used && s.output <= t.output
    ensures Frame(s, t)
  {
  }

  lemma EnvsCompose(a: seq<Env>, b: seq<Env>, c: seq<Env>)
    requires EnvsKept(a, b) && EnvsKept(b, c)
    ensures EnvsKept(a, c)
  {
    var e := |a| - 1;
    forall k | 0 <= k < |a[e]| - 1 ensures Rewritten(a[e][k], c[e][k]) {
      assert Rewritten(a[e][k], b[e][k]) && Rewritten(b[e][k], c[e][k]);
    }
  }

  lemma CellsCompose(a: seq<Cell>, b: seq<Cell>, c: seq<Cell>)
    requires CellsKept(a, b) && CellsKept(b, c)
    ensures CellsKept(a, c)
  {
    forall i | 0 <= i < |a| ensures CellKept(a[i], c[i]) {
      assert CellKept(a[i], b[i]) && CellKept(b[i], c[i]);
    }
  }

  lemma Compose(s: State, t: State, u: State)
    requires Frame(s, t) && Frame(t, u)
    ensures Frame(s, u)
  {
    hide EnvsKept, CellsKept;
    EnvsCompose(s.envs, t.envs, u.envs);
    CellsCompose(s.cells, t.cells, u.cells);
  }

  // The rest of an evaluation, from where its first part ended.
  lemma Then(s: State, t: State, r: Result)
    requires Frame(s, t) && Framed(t, r)
    ensures Framed(s, r)
  {
    if r.Ok? { Compose(s, t, r.value.1); }
  }

  lemma ThenState(s: State, t: State, r: Res<State>)
    requires Frame(s, t) && FramedState(t, r)
    ensures FramedState(s, r)
  {
    if r.Ok? { Compose(s, t, r.value); }
  }

  // ------------------------------------------------------------------ one step

  lemma NewFrames(s: State, v: Value, size: nat)
    requires Shaped(s)
    ensures Framed(s, New(s, v, size))
    ensures New(s, v, size).Ok? ==> Shaped(New(s, v, size).value.1)
  {
    var r := New(s, v, size);
    if r.Ok? { Same(s, r.value.1); }
  }

  lemma BindFrames(s: State, name: string, v: Value)
    requires Shaped(s)
    ensures FramedState(s, Bind(s, name, v))
  {
    var r := Bind(s, name, v);
    if r.Ok? {
      var e := |s.envs| - 1;
      var k := |s.envs[e]| - 1;
      assert r.value.envs[e][k].vars.Keys == s.envs[e][k].vars.Keys + {name};
    }
  }

  // An assignment reaches the current call, else the globals.
  lemma AssignFrames(s: State, at: Place, name: string, v: Value)
    requires Shaped(s) && at == Lookup(s, name) && at.Bound?
    ensures Frame(s, Assign(s, at, name, v))
  {
    var t := Assign(s, at, name, v);
    var a, b := s.envs[at.e], t.envs[at.e];
    assert b[at.k].vars.Keys == a[at.k].vars.Keys + {name} == a[at.k].vars.Keys;
    if at.e < |s.envs| - 1 {
      assert a[1..] == b[1..];
    }
  }

  lemma CellsFrame(s: State, cells: seq<Cell>)
    requires Shaped(s) && CellsKept(s.cells, cells)
    ensures Frame(s, s.(cells := cells))
  {
    Same(s, s.(cells := cells));
  }

  lemma ElementFrames(s: State, a: nat, i: nat, v: Value)
    requires Shaped(s) && a < |s.cells| && s.cells[a].Arr? && i < |s.cells[a].elems|
    ensures Frame(s, WithElement(s, a, i, v))
  {
    CellsFrame(s, WithElement(s, a, i, v).cells);
  }

  lemma FieldFrames(s: State, a: nat, i: nat, name: string, v: Value)
    requires Shaped(s) && a < |s.cells| && s.cells[a].Obj? && i < |s.cells[a].fields|
    ensures Frame(s, WithField(s, a, i, name, v))
  {
    CellsFrame(s, WithField(s, a, i, name, v).cells);
  }

  // What is bound in a scope of its own is gone afterwards.
  lemma ScopeFrames(s: State, t: State)
    requires Shaped(s) && PushScope(s).Ok? && Frame(PushScope(s).value, t)
    ensures Frame(s, PopScope(t))
  {
    var e := |s.envs| - 1;
    var a, b := s.envs[e], t.envs[e];
    assert PushScope(s).value.envs[e] == a + [Scope(map[], [])];
    forall k | 0 <= k < |a| ensures Rewritten(a[k], b[k]) {
      assert Rewritten((a + [Scope(map[], [])])[k], b[k]);
    }
    assert PopScope(t).envs == t.envs[e := b[..|a|]];
    assert EnvKept(a, b[..|a|]);
  }

  // A call touches nothing of its callers but the values of globals.
  lemma CallFrames(s: State, t: State)
    requires Shaped(s) && PushEnv(s).Ok? && Frame(PushEnv(s).value, t)
    ensures Frame(s, PopEnv(t)) && GlobalsKept(s.envs[0], PopEnv(t).envs[0])
    ensures PopEnv(t).envs == s.envs[0 := PopEnv(t).envs[0]]
  {
    var u := PushEnv(s).value;
    assert u.envs == s.envs + [[Scope(map[], [])]];
    assert PopEnv(t).envs == t.envs[..|s.envs|];
    assert forall e :: 0 < e < |s.envs| ==> u.envs[e] == s.envs[e] == t.envs[e];
    forall k | 0 <= k < |s.envs[0]| ensures Rewritten(s.envs[0][k], t.envs[0][k]) {
      if k > 0 { assert s.envs[0][k] == s.envs[0][1..][k - 1]; }
    }
  }

  // ------------------------------------------------------------ whole evaluations

  // For every tree and every state, whatever nesting of blocks, loops, objects and calls.
  lemma {:induction false} EvalFrames(fuel: nat, a: Ast, s: State)
    requires Shaped(s)
    ensures Framed(s, Eval(fuel, a, s))
    decreases fuel, 0
  {
    hide Framed, Shaped, Closed, EvalDefinition, EvalAssignment, EvalCall, EvalPrint, EvalBlock, EvalSequence,
         EvalWhile, EvalConditional, EvalStructural, EvalVariable, New;
    if fuel == 0 {
      HaltedFrames(s, FUEL);
    } else if IsLiteral(a) {
      LiteralFrames(a, s);
    } else if IsStructural(a) {
      StructuralFrames(fuel - 1, a, s);
    } else {
      match a
      case Definition(x, e) => DefinitionFrames(fuel - 1, x, e, s);
      case VariableAccess(x) => VariableFrames(x, s);
      case VariableAssignment(x, e) => AssignmentFrames(fuel - 1, x, e, s);
      case FunctionCall(f, args) => FunctionCallFrames(fuel - 1, f, args, s);
      case Print(format, args) => PrintFrames(fuel - 1, format, args, s);
      case Block(es) => BlockFrames(fuel - 1, es, s);
      case Top(es) => SequenceFrames(fuel - 1, es, VUnset, s);
      case Loop(c, b) => WhileFrames(fuel - 1, c, b, s);
      case Conditional(c, t, e) => ConditionalFrames(fuel - 1, c, t, e, s);
    }
  }

  lemma HaltedFrames(s: State, stop: Stop)
    ensures Framed(s, Halted(stop))
  {
  }

  lemma LiteralFrames(a: Ast, s: State)
    requires Shaped(s) && IsLiteral(a)
    ensures Framed(s, EvalLiteral(a, s))
  {
    hide Framed, Shaped, New;
    match a
    case Integer(i) => NewFrames(s, VInt(i), H.INTEGER_SZ);
    case Boolean(b) => NewFrames(s, VBool(b), H.BOOLEAN_SZ);
    case Null => NewFrames(s, VNull, H.NULL_SZ);
    case Function(ps, b) => NewFrames(s, VFun(ps, b), H.FUNCTION_SZ);
  }

  lemma {:induction false} StructuralFrames(fuel: nat, a: Ast, s: State)
    requires Shaped(s) && IsStructural(a)
    ensures Framed(s, EvalStructural(fuel, a, s))
    decreases fuel, 5
  {
    hide Framed, Shaped, Closed, EvalArray, EvalIndex, EvalIndexAssignment, EvalObject, EvalField, EvalFieldAssignment,
         EvalMethodCall;
    match a
    case Array(n, init) => ArrayFrames(fuel, n, init, s);
    case IndexAccess(o, i) => IndexFrames(fuel, o, i, s);
    case IndexAssignment(o, i, v) => IndexAssignmentFrames(fuel, o, i, v, s);
    case Object(ext, members) => ObjectFrames(fuel, ext, members, s);
    case FieldAccess(o, f) => FieldAccessFrames(fuel, o, f, s);
    case FieldAssignment(o, f, v) => FieldAssignmentFrames(fuel, o, f, v, s);
    case MethodCall(o, m, args) => MethodCallFrames(fuel, o, m, args, s);
  }

  lemma {:induction false} DefinitionFrames(fuel: nat, x: string, e: Ast, s: State)
    requires Shaped(s)
    ensures Framed(s, EvalDefinition(fuel, x, e, s))
    decreases fuel, 1
  {
    hide Frame, Shaped, Eval, Bind;
    EvalFrames(fuel, e, s);
    var first := Eval(fuel, e, s);
    if first.Ok? {
      BindFrames(first.value.1, x, first.value.0);
      ThenState(s, first.value.1, Bind(first.value.1, x, first.value.0));
    }
  }

  lemma VariableFrames(x: string, s: State)
    requires Shaped(s)
    ensures Framed(s, EvalVariable(x, s))
  {
    hide Frame, Bind, New, CellsKept, EnvsKept, Lookup;
    NoChange(s);
    var nl := New(s, VNull, H.NULL_SZ);
    if nl.Ok? {
      NewFrames(s, VNull, H.NULL_SZ);
      BindFrames(nl.value.1, x, nl.value.0);
      var bound := Bind(nl.value.1, x, nl.value.0);
      ThenState(s, nl.value.1, bound);
      if bound.Ok? {
        NewFrames(bound.value, VNull, H.NULL_SZ);
        Then(s, bound.value, New(bound.value, VNull, H.NULL_SZ));
      }
    }
  }

  lemma NoChange(s: State)
    requires Shaped(s)
    ensures Frame(s, s)
  {
    Same(s, s);
  }

  lemma {:induction false} AssignmentFrames(fuel: nat, x: string, e: Ast, s: State)
    requires Shaped(s)
    ensures Framed(s, EvalAssignment(fuel, x, e, s))
    decreases fuel, 1
  {
    hide Frame, Eval, Bind, Assign, Lookup;
    EvalFrames(fuel, e, s);
    var first := Eval(fuel, e, s);
    if first.Ok? && x != "" {
      var (v, t) := first.value;
      if Lookup(t, x).Bound? {
        AssignFrames(t, Lookup(t, x), x, v);
        Compose(s, t, Assign(t, Lookup(t, x), x, v));
      } else {
        BindFrames(t, x, v);
        ThenState(s, t, Bind(t, x, v));
      }
    }
  }

  lemma {:induction false} ArgsFrame(fuel: nat, es: seq<Ast>, s: State)
    requires Shaped(s)
    ensures EvalArgs(fuel, es, s).Ok? ==> Frame(s, EvalArgs(fuel, es, s).value.1)
    decreases fuel, 1, |es|
  {
    hide Frame, Eval;
    if es == [] {
      NoChange(s);
    } else {
      EvalFrames(fuel, es[0], s);
      var first := Eval(fuel, es[0], s);
      if first.Ok? {
        var t := first.value.1;
        ArgsFrame(fuel, es[1..], t);
        if EvalArgs(fuel, es[1..], t).Ok? { Compose(s, t, EvalArgs(fuel, es[1..], t).value.1); }
      }
    }
  }

  lemma {:induction false} SequenceFrames(fuel: nat, es: seq<Ast>, last: Value, s: State)
    requires Shaped(s)
    ensures Framed(s, EvalSequence(fuel, es, last, s))
    decreases fuel, 1, |es|
  {
    hide Frame, Eval;
    if es == [] {
      NoChange(s);
    } else {
      EvalFrames(fuel, es[0], s);
      var first := Eval(fuel, es[0], s);
      if first.Ok? {
        SequenceFrames(fuel, es[1..], first.value.0, first.value.1);
        Then(s, first.value.1, EvalSequence(fuel, es[1..], first.value.0, first.value.1));
      }
    }
  }

  lemma {:induction false} BlockFrames(fuel: nat, es: seq<Ast>, s: State)
    requires Shaped(s)
    ensures Framed(s, EvalBlock(fuel, es, s))
    decreases fuel, 2
  {
    hide Frame, EvalSequence, PushScope, PopScope;
    var pushed := PushScope(s);
    if pushed.Ok? {
      SequenceFrames(fuel, es, VUnset, pushed.value);
      var r := EvalSequence(fuel, es, VUnset, pushed.value);
      if r.Ok? { ScopeFrames(s, r.value.1); }
    }
  }

  lemma {:induction false} ScopedFrames(fuel: nat, e: Ast, s: State)
    requires Shaped(s)
    ensures Framed(s, EvalScoped(fuel, e, s))
    decreases fuel, 1
  {
    hide Frame, Eval, PushScope, PopScope;
    var pushed := PushScope(s);
    if pushed.Ok? {
      EvalFrames(fuel, e, pushed.value);
      var r := Eval(fuel, e, pushed.value);
      if r.Ok? { ScopeFrames(s, r.value.1); }
    }
  }

  lemma {:induction false} TestFrames(fuel: nat, c: Ast, s: State)
    requires Shaped(s)
    ensures EvalTest(fuel, c, s).Ok? ==> Frame(s, EvalTest(fuel, c, s).value.1)
    decreases fuel, 1
  {
    hide Frame, Eval;
    EvalFrames(fuel, c, s);
  }

  lemma {:induction false} WhileFrames(fuel: nat, c: Ast, body: Ast, s: State)
    requires Shaped(s)
    ensures Framed(s, EvalWhile(fuel, c, body, s))
    decreases fuel, 3
  {
    hide Frame, EvalTest, EvalIteration, New;
    TestFrames(fuel, c, s);
    var test := EvalTest(fuel, c, s);
    if test.Ok? {
      var t := test.value.1;
      if test.value.0 {
        IterationFrames(fuel, c, body, t);
        Then(s, t, EvalIteration(fuel, c, body, t));
      } else {
        NewFrames(t, VNull, H.NULL_SZ);
        Then(s, t, New(t, VNull, H.NULL_SZ));
      }
    }
  }

  lemma {:induction false} IterationFrames(fuel: nat, c: Ast, body: Ast, s: State)
    requires Shaped(s)
    ensures Framed(s, EvalIteration(fuel, c, body, s))
    decreases fuel, 2
  {
    hide Frame, EvalScoped, EvalWhile;
    ScopedFrames(fuel, body, s);
    var ran := EvalScoped(fuel, body, s);
    if ran.Ok? && fuel > 0 {
      WhileFrames(fuel - 1, c, body, ran.value.1);
      Then(s, ran.value.1, EvalWhile(fuel - 1, c, body, ran.value.1));
    }
  }

  lemma {:induction false} ConditionalFrames(fuel: nat, c: Ast, then_: Ast, else_: Ast, s: State)
    requires Shaped(s)
    ensures Framed(s, EvalConditional(fuel, c, then_, else_, s))
    decreases fuel, 3
  {
    hide Frame, EvalTest, EvalScoped;
    TestFrames(fuel, c, s);
    var test := EvalTest(fuel, c, s);
    if test.Ok? {
      var e := if test.value.0 then then_ else else_;
      ScopedFrames(fuel, e, test.value.1);
      Then(s, test.value.1, EvalScoped(fuel, e, test.value.1));
    }
  }

  lemma {:induction false} PrintFrames(fuel: nat, format: string, args: seq<Ast>, s: State)
    requires Shaped(s)
    ensures Framed(s, EvalPrint(fuel, format, args, s))
    decreases fuel, 3
  {
    hide Frame, EvalArgs, New, AllUsable, Placeholders;
    ArgsFrame(fuel, args, s);
    var r := EvalArgs(fuel, args, s);
    if r.Ok? && Placeholders(format) <= |r.value.0| {
      var t := r.value.1;
      var u := t.(output := t.output + [Printed(format, r.value.0[..Placeholders(format)])]);
      OutputFrames(t, u);
      Compose(s, t, u);
      NewFrames(u, VNull, H.NULL_SZ);
      Then(s, u, New(u, VNull, H.NULL_SZ));
    }
  }

  lemma OutputFrames(t: State, u: State)
    requires Shaped(t) && t.output <= u.output && u == t.(output := u.output)
    ensures Frame(t, u)
  {
    Same(t, u);
  }

  // A new cell, then the room it takes.
  lemma AllocFrames(s: State, cell: Cell, v: Value, size: nat)
    requires Shaped(s)
    ensures Framed(s, New(s.(cells := s.cells + [cell]), v, size))
    ensures var r := New(s.(cells := s.cells + [cell]), v, size); r.Ok? ==> Shaped(r.value.1)
  {
    hide Frame, New;
    var t := s.(cells := s.cells + [cell]);
    CellsFrame(s, t.cells);
    NewFrames(t, v, size);
    Then(s, t, New(t, v, size));
  }

  lemma {:induction false} ArrayFrames(fuel: nat, n: Ast, init: Ast, s: State)
    requires Shaped(s)
    ensures Framed(s, EvalArray(fuel, n, init, s))
    decreases fuel, 3
  {
    hide Frame, Eval, FillArray, New;
    EvalFrames(fuel, n, s);
    var size := Eval(fuel, n, s);
    if size.Ok? && size.value.0.VInt? && size.value.0.i >= 0 {
      var t := size.value.1;
      var a, length := |t.cells|, size.value.0.i;
      var cell := Arr(seq(length, _ => VUnset));
      AllocFrames(t, cell, VRef(a), H.ArraySize(length));
      var made := New(t.(cells := t.cells + [cell]), VRef(a), H.ArraySize(length));
      if made.Ok? {
        Compose(s, t, made.value.1);
        FillArrayFrames(fuel, a, 0, length, init, made.value.1);
        ThenState(s, made.value.1, FillArray(fuel, a, 0, length, init, made.value.1));
      }
    }
  }

  lemma {:induction false} FillArrayFrames(fuel: nat, a: nat, i: nat, n: nat, init: Ast, s: State)
    requires Shaped(s) && i <= n
    ensures FramedState(s, FillArray(fuel, a, i, n, init, s))
    decreases fuel, 2, n - i
  {
    hide Frame, EvalScoped, WithElement;
    if i == n {
      NoChange(s);
    } else {
      ScopedFrames(fuel, init, s);
      var r := EvalScoped(fuel, init, s);
      if r.Ok? {
        var (v, t) := r.value;
        if a < |t.cells| && t.cells[a].Arr? && i < |t.cells[a].elems| {
          var u := WithElement(t, a, i, v);
          ElementFrames(t, a, i, v);
          Compose(s, t, u);
          FillArrayFrames(fuel, a, i + 1, n, init, u);
          ThenState(s, u, FillArray(fuel, a, i + 1, n, init, u));
        }
      }
    }
  }

  lemma {:induction false} ObjectFrames(fuel: nat, ext: Ast, members: seq<Ast>, s: State)
    requires Shaped(s)
    ensures Framed(s, EvalObject(fuel, ext, members, s))
    decreases fuel, 3
  {
    hide Frame, Eval, FillObject, New;
    EvalFrames(fuel, ext, s);
    var parent := Eval(fuel, ext, s);
    if parent.Ok? {
      var t := parent.value.1;
      var a, size := |t.cells|, H.ObjectSize(|members|);
      var cell := Obj(parent.value.0, seq(|members|, _ => Field("", VUnset)));
      AllocFrames(t, cell, VRef(a), size);
      var made := New(t.(cells := t.cells + [cell]), VRef(a), size);
      if made.Ok? {
        Compose(s, t, made.value.1);
        FillObjectFrames(fuel, a, 0, members, made.value.1);
        ThenState(s, made.value.1, FillObject(fuel, a, 0, members, made.value.1));
      }
    }
  }

  lemma {:induction false} FillObjectFrames(fuel: nat, a: nat, i: nat, members: seq<Ast>, s: State)
    requires Shaped(s) && i <= |members|
    ensures FramedState(s, FillObject(fuel, a, i, members, s))
    decreases fuel, 2, |members| - i
  {
    hide Frame, EvalScoped, WithField;
    if i == |members| {
      NoChange(s);
    } else if members[i].Definition? {
      ScopedFrames(fuel, members[i].defValue, s);
      var r := EvalScoped(fuel, members[i].defValue, s);
      if r.Ok? {
        var (v, t) := r.value;
        if a < |t.cells| && t.cells[a].Obj? && i < |t.cells[a].fields| {
          var u := WithField(t, a, i, members[i].defName, v);
          FieldFrames(t, a, i, members[i].defName, v);
          Compose(s, t, u);
          FillObjectFrames(fuel, a, i + 1, members, u);
          ThenState(s, u, FillObject(fuel, a, i + 1, members, u));
        }
      }
    }
  }

  lemma {:induction false} FieldAccessFrames(fuel: nat, o: Ast, f: string, s: State)
    requires Shaped(s)
    ensures Framed(s, EvalField(fuel, o, f, s))
    decreases fuel, 1
  {
    hide Frame, Eval, FieldSlot;
    EvalFrames(fuel, o, s);
  }

  lemma {:induction false} FieldAssignmentFrames(fuel: nat, o: Ast, f: string, e: Ast, s: State)
    requires Shaped(s)
    ensures Framed(s, EvalFieldAssignment(fuel, o, f, e, s))
    decreases fuel, 1
  {
    hide Frame, Eval, FieldSlot, Find, WithField;
    EvalFrames(fuel, o, s);
    var first := Eval(fuel, o, s);
    if first.Ok? {
      var (v, t) := first.value;
      EvalFrames(fuel, e, t);
      var second := Eval(fuel, e, t);
      if second.Ok? {
        var (w, u) := second.value;
        Compose(s, t, u);
        var slot := FieldSlot(u.cells, v, f);
        if slot.Ok? {
          FieldFrames(u, slot.value.a, slot.value.i, f, w);
          Compose(s, u, WithField(u, slot.value.a, slot.value.i, f, w));
        }
      }
    }
  }

  // -------------------------------------------------------------------- calls

  lemma {:induction false} BindArgsFrames(s: State, params: seq<string>, args: seq<Value>)
    requires Shaped(s)
    ensures FramedState(s, BindArgs(s, params, args))
    decreases |args|
  {
    hide Frame, Bind;
    if args == [] {
      NoChange(s);
    } else if params != [] {
      BindFrames(s, params[0], args[0]);
      var bound := Bind(s, params[0], args[0]);
      if bound.Ok? {
        BindArgsFrames(bound.value, params[1..], args[1..]);
        ThenState(s, bound.value, BindArgs(bound.value, params[1..], args[1..]));
      }
    }
  }

  lemma {:induction false} InvokeBodyFrames(fuel: nat, this_: Value, f: Value, args: seq<Value>, s: State)
    requires Shaped(s)
    ensures Framed(s, InvokeBody(fuel, this_, f, args, s))
    decreases fuel, 1
  {
    hide Frame, Eval, Bind, BindArgs, New;
    NoChange(s);
    NewFrames(s, VNull, H.NULL_SZ);
    var t := if this_ == VUnset then New(s, VNull, H.NULL_SZ) else Ok((this_, s));
    if t.Ok? {
      BindFrames(t.value.1, "this", t.value.0);
      var bound := Bind(t.value.1, "this", t.value.0);
      ThenState(s, t.value.1, bound);
      if bound.Ok? && f.VFun? {
        BindArgsFrames(bound.value, f.params, args);
        var entered := BindArgs(bound.value, f.params, args);
        ThenState(s, bound.value, entered);
        if entered.Ok? {
          EvalFrames(fuel, f.body, entered.value);
          Then(s, entered.value, Eval(fuel, f.body, entered.value));
        }
      }
    }
  }

  // The environments of the callers come back untouched, but for values of globals.
  lemma {:induction false} InvokeFrames(fuel: nat, this_: Value, f: Value, args: seq<Value>, s: State)
    requires Shaped(s)
    ensures Framed(s, Invoke(fuel, this_, f, args, s))
    ensures var r := Invoke(fuel, this_, f, args, s);
            r.Ok? ==> var t := r.value.1;
                      |t.envs| == |s.envs| && GlobalsKept(s.envs[0], t.envs[0]) && t.envs == s.envs[0 := t.envs[0]]
    decreases fuel, 2
  {
    hide Frame, InvokeBody, PushEnv, PopEnv, GlobalsKept;
    var pushed := PushEnv(s);
    if pushed.Ok? {
      InvokeBodyFrames(fuel, this_, f, args, pushed.value);
      var r := InvokeBody(fuel, this_, f, args, pushed.value);
      if r.Ok? { CallFrames(s, r.value.1); }
    }
  }

  lemma {:induction false} FunctionCallFrames(fuel: nat, f: Ast, args: seq<Ast>, s: State)
    requires Shaped(s)
    ensures Framed(s, EvalCall(fuel, f, args, s))
    decreases fuel, 3
  {
    hide Frame, Eval, EvalArgs, Invoke, GlobalsKept;
    EvalFrames(fuel, f, s);
    var g := Eval(fuel, f, s);
    if g.Ok? {
      var t := g.value.1;
      ArgsFrame(fuel, args, t);
      var vs := EvalArgs(fuel, args, t);
      if vs.Ok? {
        var u := vs.value.1;
        Compose(s, t, u);
        InvokeFrames(fuel, VUnset, g.value.0, vs.value.0, u);
        Then(s, u, Invoke(fuel, VUnset, g.value.0, vs.value.0, u));
      }
    }
  }

  lemma BuiltinFrames(s: State, v: Value, name: string, args: seq<Value>)
    requires Shaped(s)
    ensures Framed(s, Builtin(s, v, name, args))
  {
    hide Frame, New, WithElement, Operate, ElementIndex;
    NoChange(s);
    if IsPrimitive(v) {
      if |args| == 1 {
        var op := Operate(v, name, args[0]);
        if op.Computes? { NewFrames(s, op.v, SizeOf(op.v)); }
      }
    } else if IsArray(s.cells, v) && name == "set" && |args| >= 2 {
      var i := ElementIndex(s.cells, v.a, args[0]);
      if i.Ok? { ElementFrames(s, v.a, i.value, args[1]); }
    }
  }

  lemma {:induction false} CallMethodFrames(fuel: nat, v: Value, name: string, args: seq<Value>, s: State)
    requires Shaped(s)
    ensures Framed(s, CallMethod(fuel, v, name, args, s))
    decreases fuel, 3
  {
    hide Frame, Find, Invoke, Builtin, GlobalsKept;
    match Find(s.cells, v, name)
    case Slot(a, i) => InvokeFrames(fuel, VRef(a), s.cells[a].fields[i].value, args, s);
    case ChainEnd(end) => BuiltinFrames(s, end, name, args);
    case BadChain =>
  }

  lemma {:induction false} IndexFrames(fuel: nat, o: Ast, i: Ast, s: State)
    requires Shaped(s)
    ensures Framed(s, EvalIndex(fuel, o, i, s))
    decreases fuel, 4
  {
    hide Frame, Eval, EvalArgs, CallMethod;
    EvalFrames(fuel, o, s);
    var first := Eval(fuel, o, s);
    if first.Ok? {
      var (v, t) := first.value;
      ArgsFrame(fuel, [i], t);
      var vs := EvalArgs(fuel, [i], t);
      if vs.Ok? {
        var u := vs.value.1;
        Compose(s, t, u);
        CallMethodFrames(fuel, v, "get", vs.value.0, u);
        Then(s, u, CallMethod(fuel, v, "get", vs.value.0, u));
      }
    }
  }

  lemma {:induction false} IndexAssignmentFrames(fuel: nat, o: Ast, i: Ast, e: Ast, s: State)
    requires Shaped(s)
    ensures Framed(s, EvalIndexAssignment(fuel, o, i, e, s))
    decreases fuel, 4
  {
    hide Frame, Eval, EvalArgs, CallMethod;
    EvalFrames(fuel, o, s);
    var first := Eval(fuel, o, s);
    if first.Ok? {
      var (v, t) := first.value;
      ArgsFrame(fuel, [i, e], t);
      var vs := EvalArgs(fuel, [i, e], t);
      if vs.Ok? {
        var u := vs.value.1;
        Compose(s, t, u);
        CallMethodFrames(fuel, v, "set", vs.value.0, u);
        Then(s, u, CallMethod(fuel, v, "set", vs.value.0, u));
      }
    }
  }

  lemma {:induction false} MethodCallFrames(fuel: nat, o: Ast, m: string, args: seq<Ast>, s: State)
    requires Shaped(s)
    ensures Framed(s, EvalMethodCall(fuel, o, m, args, s))
    decreases fuel, 4
  {
    hide Frame, Eval, EvalArgs, CallMethod;
    EvalFrames(fuel, o, s);
    var first := Eval(fuel, o, s);
    if first.Ok? {
      var (v, t) := first.value;
      ArgsFrame(fuel, args, t);
      var vs := EvalArgs(fuel, args, t);
      if vs.Ok? {
        var u := vs.value.1;
        Compose(s, t, u);
        CallMethodFrames(fuel, v, m, vs.value.0, u);
        Then(s, u, CallMethod(fuel, v, m, vs.value.0, u));
      }
    }
  }
}
