/**
 What an evaluation depends on. Two states that agree on the current environment, the
 outermost global scope and the heap evaluate alike, whatever calls are suspended below;
 more fuel and a shallower call stack change nothing but runs that were cut short.
 */
module AstSimulation {
  import opened Ast
  import opened AstValues
  import opened AstSpec
  import opened AstFrame

  // `z` has `d` suspended calls fewer than `s` and is the same as far as code can see.
  ghost predicate Alike(d: nat, s: State, z: State) {
    && Shaped(s) && Shaped(z) && |s.envs| == |z.envs| + d && (|s.envs| == 1 <==> |z.envs| == 1)
    && s.envs[|s.envs| - 1] == z.envs[|z.envs| - 1]
    && SharedAlike(s, z)
  }

  // What every call can see.
  ghost predicate SharedAlike(s: State, z: State)
    requires Shaped(s) && Shaped(z)
  {
    s.envs[0][0] == z.envs[0][0] && s.cells == z.cells && s.used == z.used && s.output == z.output
  }

  // A stop that may go away with `k` more fuel or `d` suspended calls fewer.
  predicate CutShort(d: nat, k: nat, stop: Stop) { (stop == FUEL && k > 0) || (stop == ENV_LIMIT && d > 0) }

  ghost predicate Matches(d: nat, k: nat, r: Result, q: Result) {
    match r
    case Ok((v, t)) => q.Ok? && q.value.0 == v && Alike(d, t, q.value.1)
    case Halted(stop) => CutShort(d, k, stop) || q == Halted(stop)
  }

  ghost predicate MatchesState(d: nat, k: nat, r: Res<State>, q: Res<State>) {
    match r
    case Ok(t) => q.Ok? && Alike(d, t, q.value)
    case Halted(stop) => CutShort(d, k, stop) || q == Halted(stop)
  }

  // ------------------------------------------------------------------ one step

  lemma NewMatches(d: nat, k: nat, s: State, z: State, v: Value, size: nat)
    requires Alike(d, s, z)
    ensures Matches(d, k, New(s, v, size), New(z, v, size))
  {
  }

  lemma BindMatches(d: nat, k: nat, s: State, z: State, name: string, v: Value)
    requires Alike(d, s, z)
    ensures MatchesState(d, k, Bind(s, name, v), Bind(z, name, v))
  {
  }

  // A name means the same slot, of the current call or of the globals.
  lemma LookupMatches(d: nat, s: State, z: State, name: string)
    requires Alike(d, s, z)
    ensures Lookup(s, name).Bound? == Lookup(z, name).Bound?
    ensures var p, q := Lookup(s, name), Lookup(z, name);
            p.Bound? ==> s.envs[p.e][p.k].vars[name] == z.envs[q.e][q.k].vars[name]
  {
  }

  lemma AssignMatches(d: nat, s: State, z: State, name: string, v: Value)
    requires Alike(d, s, z) && Lookup(s, name).Bound? && Lookup(z, name).Bound?
    ensures Alike(d, Assign(s, Lookup(s, name), name, v), Assign(z, Lookup(z, name), name, v))
  {
  }

  lemma PushScopeMatches(d: nat, k: nat, s: State, z: State)
    requires Alike(d, s, z)
    ensures MatchesState(d, k, PushScope(s), PushScope(z))
  {
  }

  lemma PopScopeMatches(d: nat, s: State, z: State)
    requires Alike(d, s, z)
    ensures Alike(d, PopScope(s), PopScope(z))
  {
  }

  lemma CellsMatch(d: nat, s: State, z: State, cells: seq<Cell>)
    requires Alike(d, s, z)
    ensures Alike(d, s.(cells := cells), z.(cells := cells))
  {
  }

  lemma AllocMatches(d: nat, k: nat, s: State, z: State, cell: Cell, v: Value, size: nat)
    requires Alike(d, s, z)
    ensures Matches(d, k, New(s.(cells := s.cells + [cell]), v, size), New(z.(cells := z.cells + [cell]), v, size))
  {
    CellsMatch(d, s, z, s.cells + [cell]);
    NewMatches(d, k, s.(cells := s.cells + [cell]), z.(cells := z.cells + [cell]), v, size);
  }

  // ------------------------------------------------------------ whole evaluations

  lemma {:induction false} EvalMatches(d: nat, k: nat, fuel: nat, a: Ast, s: State, z: State)
    requires Alike(d, s, z)
    ensures Matches(d, k, Eval(fuel, a, s), Eval(fuel + k, a, z))
    decreases fuel, 0
  {
    hide Matches, Alike, Shaped, Closed, EvalDefinition, EvalAssignment, EvalCall, EvalPrint, EvalBlock, EvalSequence,
         EvalWhile, EvalConditional, EvalStructural, EvalVariable, EvalLiteral;
    ShapedAlike(d, s, z);
    if fuel == 0 {
      Cut(d, k, Eval(fuel + k, a, z));
    } else if IsLiteral(a) {
      LiteralMatches(d, k, a, s, z);
    } else if IsStructural(a) {
      StructuralMatches(d, k, fuel - 1, a, s, z);
    } else {
      match a
      case Definition(x, e) => DefinitionMatches(d, k, fuel - 1, x, e, s, z);
      case VariableAccess(x) => VariableMatches(d, k, x, s, z);
      case VariableAssignment(x, e) => AssignmentMatches(d, k, fuel - 1, x, e, s, z);
      case FunctionCall(f, args) => FunctionCallMatches(d, k, fuel - 1, f, args, s, z);
      case Print(format, args) => PrintMatches(d, k, fuel - 1, format, args, s, z);
      case Block(es) => BlockMatches(d, k, fuel - 1, es, s, z);
      case Top(es) => SequenceMatches(d, k, fuel - 1, es, VUnset, s, z);
      case Loop(c, b) => WhileMatches(d, k, fuel - 1, c, b, s, z);
      case Conditional(c, t, e) => ConditionalMatches(d, k, fuel - 1, c, t, e, s, z);
    }
  }

  lemma ShapedAlike(d: nat, s: State, z: State)
    requires Alike(d, s, z)
    ensures Shaped(s) && Shaped(z)
  {
  }

  lemma Cut(d: nat, k: nat, q: Result)
    requires k == 0 ==> q == Halted(FUEL)
    ensures Matches(d, k, Halted(FUEL), q)
  {
  }

  lemma LiteralMatches(d: nat, k: nat, a: Ast, s: State, z: State)
    requires Alike(d, s, z) && IsLiteral(a)
    ensures Matches(d, k, EvalLiteral(a, s), EvalLiteral(a, z))
  {
    hide Matches, Alike, New;
    match a
    case Integer(i) => NewMatches(d, k, s, z, VInt(i), H.INTEGER_SZ);
    case Boolean(b) => NewMatches(d, k, s, z, VBool(b), H.BOOLEAN_SZ);
    case Null => NewMatches(d, k, s, z, VNull, H.NULL_SZ);
    case Function(ps, b) => NewMatches(d, k, s, z, VFun(ps, b), H.FUNCTION_SZ);
  }

  lemma {:induction false} StructuralMatches(d: nat, k: nat, fuel: nat, a: Ast, s: State, z: State)
    requires Alike(d, s, z) && IsStructural(a)
    ensures Matches(d, k, EvalStructural(fuel, a, s), EvalStructural(fuel + k, a, z))
    decreases fuel, 5
  {
    hide Matches, Alike, Shaped, Closed, EvalArray, EvalIndex, EvalIndexAssignment, EvalObject, EvalField,
         EvalFieldAssignment, EvalMethodCall;
    ShapedAlike(d, s, z);
    match a
    case Array(n, init) => ArrayMatches(d, k, fuel, n, init, s, z);
    case IndexAccess(o, i) => IndexMatches(d, k, fuel, o, i, s, z);
    case IndexAssignment(o, i, v) => IndexAssignmentMatches(d, k, fuel, o, i, v, s, z);
    case Object(ext, members) => ObjectMatches(d, k, fuel, ext, members, s, z);
    case FieldAccess(o, f) => FieldAccessMatches(d, k, fuel, o, f, s, z);
    case FieldAssignment(o, f, v) => FieldAssignmentMatches(d, k, fuel, o, f, v, s, z);
    case MethodCall(o, m, args) => MethodCallMatches(d, k, fuel, o, m, args, s, z);
  }

  lemma {:induction false} DefinitionMatches(d: nat, k: nat, fuel: nat, x: string, e: Ast, s: State, z: State)
    requires Alike(d, s, z)
    ensures Matches(d, k, EvalDefinition(fuel, x, e, s), EvalDefinition(fuel + k, x, e, z))
    decreases fuel, 1
  {
    hide Alike, Eval, Bind;
    ShapedAlike(d, s, z);
    EvalMatches(d, k, fuel, e, s, z);
    var r, q := Eval(fuel, e, s), Eval(fuel + k, e, z);
    if r.Ok? { BindMatches(d, k, r.value.1, q.value.1, x, r.value.0); }
  }

  lemma VariableMatches(d: nat, k: nat, x: string, s: State, z: State)
    requires Alike(d, s, z)
    ensures Matches(d, k, EvalVariable(x, s), EvalVariable(x, z))
  {
    hide Alike, Bind, New, Lookup;
    ShapedAlike(d, s, z);
    LookupMatches(d, s, z, x);
    NewMatches(d, k, s, z, VNull, H.NULL_SZ);
    NewShaped(s);
    NewShaped(z);
    var r, q := New(s, VNull, H.NULL_SZ), New(z, VNull, H.NULL_SZ);
    if r.Ok? {
      BindMatches(d, k, r.value.1, q.value.1, x, VNull);
      var t, u := Bind(r.value.1, x, VNull), Bind(q.value.1, x, VNull);
      if t.Ok? { NewMatches(d, k, t.value, u.value, VNull, H.NULL_SZ); }
    }
  }

  lemma NewShaped(s: State)
    requires Shaped(s)
    ensures var r := New(s, VNull, H.NULL_SZ); r.Ok? ==> r.value.0 == VNull && Shaped(r.value.1)
  {
  }

  lemma {:induction false} AssignmentMatches(d: nat, k: nat, fuel: nat, x: string, e: Ast, s: State, z: State)
    requires Alike(d, s, z)
    ensures Matches(d, k, EvalAssignment(fuel, x, e, s), EvalAssignment(fuel + k, x, e, z))
    decreases fuel, 1
  {
    hide Alike, Eval, Bind, Lookup, Assign;
    ShapedAlike(d, s, z);
    EvalMatches(d, k, fuel, e, s, z);
    var r, q := Eval(fuel, e, s), Eval(fuel + k, e, z);
    if r.Ok? && x != "" {
      var (v, t) := r.value;
      var u := q.value.1;
      LookupMatches(d, t, u, x);
      if Lookup(t, x).Bound? {
        AssignMatches(d, t, u, x, v);
      } else {
        BindMatches(d, k, t, u, x, v);
      }
    }
  }

  ghost predicate MatchesArgs(d: nat, k: nat, r: Res<(seq<Value>, State)>, q: Res<(seq<Value>, State)>) {
    match r
    case Ok((vs, t)) => q.Ok? && q.value.0 == vs && Alike(d, t, q.value.1)
    case Halted(stop) => CutShort(d, k, stop) || q == Halted(stop)
  }

  lemma {:induction false} ArgsMatch(d: nat, k: nat, fuel: nat, es: seq<Ast>, s: State, z: State)
    requires Alike(d, s, z)
    ensures MatchesArgs(d, k, EvalArgs(fuel, es, s), EvalArgs(fuel + k, es, z))
    decreases fuel, 1, |es|
  {
    hide Alike, Eval;
    ShapedAlike(d, s, z);
    if es != [] {
      EvalMatches(d, k, fuel, es[0], s, z);
      var r, q := Eval(fuel, es[0], s), Eval(fuel + k, es[0], z);
      if r.Ok? { ArgsMatch(d, k, fuel, es[1..], r.value.1, q.value.1); }
    }
  }

  lemma {:induction false} SequenceMatches(d: nat, k: nat, fuel: nat, es: seq<Ast>, last: Value, s: State, z: State)
    requires Alike(d, s, z)
    ensures Matches(d, k, EvalSequence(fuel, es, last, s), EvalSequence(fuel + k, es, last, z))
    decreases fuel, 1, |es|
  {
    hide Alike, Eval;
    ShapedAlike(d, s, z);
    if es != [] {
      EvalMatches(d, k, fuel, es[0], s, z);
      var r, q := Eval(fuel, es[0], s), Eval(fuel + k, es[0], z);
      if r.Ok? { SequenceMatches(d, k, fuel, es[1..], r.value.0, r.value.1, q.value.1); }
    }
  }

  lemma {:induction false} BlockMatches(d: nat, k: nat, fuel: nat, es: seq<Ast>, s: State, z: State)
    requires Alike(d, s, z)
    ensures Matches(d, k, EvalBlock(fuel, es, s), EvalBlock(fuel + k, es, z))
    decreases fuel, 2
  {
    hide Alike, EvalSequence, PushScope, PopScope;
    ShapedAlike(d, s, z);
    PushScopeMatches(d, k, s, z);
    var s1, z1 := PushScope(s), PushScope(z);
    if s1.Ok? {
      SequenceMatches(d, k, fuel, es, VUnset, s1.value, z1.value);
      var r, q := EvalSequence(fuel, es, VUnset, s1.value), EvalSequence(fuel + k, es, VUnset, z1.value);
      if r.Ok? { PopScopeMatches(d, r.value.1, q.value.1); }
    }
  }

  lemma {:induction false} ScopedMatches(d: nat, k: nat, fuel: nat, e: Ast, s: State, z: State)
    requires Alike(d, s, z)
    ensures Matches(d, k, EvalScoped(fuel, e, s), EvalScoped(fuel + k, e, z))
    decreases fuel, 1
  {
    hide Alike, Eval, PushScope, PopScope;
    ShapedAlike(d, s, z);
    PushScopeMatches(d, k, s, z);
    var s1, z1 := PushScope(s), PushScope(z);
    if s1.Ok? {
      EvalMatches(d, k, fuel, e, s1.value, z1.value);
      var r, q := Eval(fuel, e, s1.value), Eval(fuel + k, e, z1.value);
      if r.Ok? { PopScopeMatches(d, r.value.1, q.value.1); }
    }
  }

  ghost predicate MatchesTest(d: nat, k: nat, r: Res<(bool, State)>, q: Res<(bool, State)>) {
    match r
    case Ok((on, t)) => q.Ok? && q.value.0 == on && Alike(d, t, q.value.1)
    case Halted(stop) => CutShort(d, k, stop) || q == Halted(stop)
  }

  lemma {:induction false} TestMatches(d: nat, k: nat, fuel: nat, c: Ast, s: State, z: State)
    requires Alike(d, s, z)
    ensures MatchesTest(d, k, EvalTest(fuel, c, s), EvalTest(fuel + k, c, z))
    decreases fuel, 1
  {
    hide Alike, Eval;
    ShapedAlike(d, s, z);
    EvalMatches(d, k, fuel, c, s, z);
  }

  lemma {:induction false} WhileMatches(d: nat, k: nat, fuel: nat, c: Ast, body: Ast, s: State, z: State)
    requires Alike(d, s, z)
    ensures Matches(d, k, EvalWhile(fuel, c, body, s), EvalWhile(fuel + k, c, body, z))
    decreases fuel, 3
  {
    hide Alike, EvalTest, EvalIteration, New;
    ShapedAlike(d, s, z);
    TestMatches(d, k, fuel, c, s, z);
    var r, q := EvalTest(fuel, c, s), EvalTest(fuel + k, c, z);
    if r.Ok? {
      if r.value.0 {
        IterationMatches(d, k, fuel, c, body, r.value.1, q.value.1);
      } else {
        NewMatches(d, k, r.value.1, q.value.1, VNull, H.NULL_SZ);
      }
    }
  }

  lemma {:induction false} IterationMatches(d: nat, k: nat, fuel: nat, c: Ast, body: Ast, s: State, z: State)
    requires Alike(d, s, z)
    ensures Matches(d, k, EvalIteration(fuel, c, body, s), EvalIteration(fuel + k, c, body, z))
    decreases fuel, 2
  {
    hide Alike, EvalScoped, EvalWhile;
    ShapedAlike(d, s, z);
    ScopedMatches(d, k, fuel, body, s, z);
    var r, q := EvalScoped(fuel, body, s), EvalScoped(fuel + k, body, z);
    if r.Ok? && fuel > 0 { WhileMatches(d, k, fuel - 1, c, body, r.value.1, q.value.1); }
  }

  lemma {:induction false} ConditionalMatches(d: nat, k: nat, fuel: nat, c: Ast, t: Ast, e: Ast, s: State, z: State)
    requires Alike(d, s, z)
    ensures Matches(d, k, EvalConditional(fuel, c, t, e, s), EvalConditional(fuel + k, c, t, e, z))
    decreases fuel, 3
  {
    hide Alike, EvalTest, EvalScoped;
    ShapedAlike(d, s, z);
    TestMatches(d, k, fuel, c, s, z);
    var r, q := EvalTest(fuel, c, s), EvalTest(fuel + k, c, z);
    if r.Ok? { ScopedMatches(d, k, fuel, if r.value.0 then t else e, r.value.1, q.value.1); }
  }

  lemma {:induction false} PrintMatches(d: nat, k: nat, fuel: nat, format: string, args: seq<Ast>, s: State, z: State)
    requires Alike(d, s, z)
    ensures Matches(d, k, EvalPrint(fuel, format, args, s), EvalPrint(fuel + k, format, args, z))
    decreases fuel, 3
  {
    hide Alike, EvalArgs, New, AllUsable, Placeholders;
    ShapedAlike(d, s, z);
    ArgsMatch(d, k, fuel, args, s, z);
    var r, q := EvalArgs(fuel, args, s), EvalArgs(fuel + k, args, z);
    if r.Ok? && Placeholders(format) <= |r.value.0| {
      PrintedMatches(d, k, r.value.1, q.value.1, [Printed(format, r.value.0[..Placeholders(format)])]);
    }
  }

  lemma PrintedMatches(d: nat, k: nat, s: State, z: State, more: seq<Printed>)
    requires Alike(d, s, z)
    ensures Matches(d, k, New(s.(output := s.output + more), VNull, H.NULL_SZ),
                    New(z.(output := z.output + more), VNull, H.NULL_SZ))
  {
    NewMatches(d, k, s.(output := s.output + more), z.(output := z.output + more), VNull, H.NULL_SZ);
  }

  lemma {:induction false} ArrayMatches(d: nat, k: nat, fuel: nat, n: Ast, init: Ast, s: State, z: State)
    requires Alike(d, s, z)
    ensures Matches(d, k, EvalArray(fuel, n, init, s), EvalArray(fuel + k, n, init, z))
    decreases fuel, 3
  {
    hide Alike, Eval, FillArray, New;
    ShapedAlike(d, s, z);
    EvalMatches(d, k, fuel, n, s, z);
    var r, q := Eval(fuel, n, s), Eval(fuel + k, n, z);
    if r.Ok? && r.value.0.VInt? && r.value.0.i >= 0 {
      var t, u := r.value.1, q.value.1;
      var a, length := |t.cells|, r.value.0.i;
      CellsAlike(d, t, u);
      var cell := Arr(seq(length, _ => VUnset));
      AllocMatches(d, k, t, u, cell, VRef(a), H.ArraySize(length));
      AllocFrames(t, cell, VRef(a), H.ArraySize(length));
      AllocFrames(u, cell, VRef(a), H.ArraySize(length));
      var made := New(t.(cells := t.cells + [cell]), VRef(a), H.ArraySize(length));
      var made' := New(u.(cells := u.cells + [cell]), VRef(a), H.ArraySize(length));
      if made.Ok? { FillArrayMatches(d, k, fuel, a, 0, length, init, made.value.1, made'.value.1); }
    }
  }

  lemma CellsAlike(d: nat, s: State, z: State)
    requires Alike(d, s, z)
    ensures s.cells == z.cells
  {
  }

  lemma {:induction false} FillArrayMatches(d: nat, k: nat, fuel: nat, a: nat, i: nat, n: nat, init: Ast,
                                            s: State, z: State)
    requires Alike(d, s, z) && i <= n
    ensures MatchesState(d, k, FillArray(fuel, a, i, n, init, s), FillArray(fuel + k, a, i, n, init, z))
    decreases fuel, 2, n - i
  {
    hide Alike, EvalScoped;
    ShapedAlike(d, s, z);
    if i < n {
      ScopedMatches(d, k, fuel, init, s, z);
      var r, q := EvalScoped(fuel, init, s), EvalScoped(fuel + k, init, z);
      if r.Ok? {
        var (v, t) := r.value;
        var u := q.value.1;
        CellsAlike(d, t, u);
        if a < |t.cells| && t.cells[a].Arr? && i < |t.cells[a].elems| {
          CellsMatch(d, t, u, WithElement(t, a, i, v).cells);
          FillArrayMatches(d, k, fuel, a, i + 1, n, init, WithElement(t, a, i, v), WithElement(u, a, i, v));
        }
      }
    }
  }

  lemma {:induction false} ObjectMatches(d: nat, k: nat, fuel: nat, ext: Ast, members: seq<Ast>, s: State, z: State)
    requires Alike(d, s, z)
    ensures Matches(d, k, EvalObject(fuel, ext, members, s), EvalObject(fuel + k, ext, members, z))
    decreases fuel, 3
  {
    hide Alike, Eval, FillObject, New;
    ShapedAlike(d, s, z);
    EvalMatches(d, k, fuel, ext, s, z);
    var r, q := Eval(fuel, ext, s), Eval(fuel + k, ext, z);
    if r.Ok? {
      var t, u := r.value.1, q.value.1;
      CellsAlike(d, t, u);
      var a, size := |t.cells|, H.ObjectSize(|members|);
      var cell := Obj(r.value.0, seq(|members|, _ => Field("", VUnset)));
      AllocMatches(d, k, t, u, cell, VRef(a), size);
      AllocFrames(t, cell, VRef(a), size);
      AllocFrames(u, cell, VRef(a), size);
      var made := New(t.(cells := t.cells + [cell]), VRef(a), size);
      var made' := New(u.(cells := u.cells + [cell]), VRef(a), size);
      if made.Ok? { FillObjectMatches(d, k, fuel, a, 0, members, made.value.1, made'.value.1); }
    }
  }

  lemma {:induction false} FillObjectMatches(d: nat, k: nat, fuel: nat, a: nat, i: nat, members: seq<Ast>,
                                             s: State, z: State)
    requires Alike(d, s, z) && i <= |members|
    ensures MatchesState(d, k, FillObject(fuel, a, i, members, s), FillObject(fuel + k, a, i, members, z))
    decreases fuel, 2, |members| - i
  {
    hide Alike, EvalScoped;
    ShapedAlike(d, s, z);
    if i < |members| && members[i].Definition? {
      var x, e := members[i].defName, members[i].defValue;
      ScopedMatches(d, k, fuel, e, s, z);
      var r, q := EvalScoped(fuel, e, s), EvalScoped(fuel + k, e, z);
      if r.Ok? {
        var (v, t) := r.value;
        var u := q.value.1;
        CellsAlike(d, t, u);
        if a < |t.cells| && t.cells[a].Obj? && i < |t.cells[a].fields| {
          CellsMatch(d, t, u, WithField(t, a, i, x, v).cells);
          FillObjectMatches(d, k, fuel, a, i + 1, members, WithField(t, a, i, x, v), WithField(u, a, i, x, v));
        }
      }
    }
  }

  lemma {:induction false} FieldAccessMatches(d: nat, k: nat, fuel: nat, o: Ast, f: string, s: State, z: State)
    requires Alike(d, s, z)
    ensures Matches(d, k, EvalField(fuel, o, f, s), EvalField(fuel + k, o, f, z))
    decreases fuel, 1
  {
    hide Alike, Eval, FieldSlot, Find;
    ShapedAlike(d, s, z);
    EvalMatches(d, k, fuel, o, s, z);
    var r, q := Eval(fuel, o, s), Eval(fuel + k, o, z);
    if r.Ok? { CellsAlike(d, r.value.1, q.value.1); }
  }

  lemma StoreFieldMatches(d: nat, k: nat, s: State, z: State, v: Value, f: string, w: Value)
    requires Alike(d, s, z)
    ensures Matches(d, k, StoreField(s, v, f, w), StoreField(z, v, f, w))
  {
    hide FieldSlot, Find;
  }

  lemma {:induction false} FieldAssignmentMatches(d: nat, k: nat, fuel: nat, o: Ast, f: string, e: Ast,
                                                  s: State, z: State)
    requires Alike(d, s, z)
    ensures Matches(d, k, EvalFieldAssignment(fuel, o, f, e, s), EvalFieldAssignment(fuel + k, o, f, e, z))
    decreases fuel, 1
  {
    hide Alike, Eval, StoreField;
    ShapedAlike(d, s, z);
    EvalMatches(d, k, fuel, o, s, z);
    var r, q := Eval(fuel, o, s), Eval(fuel + k, o, z);
    if r.Ok? {
      EvalMatches(d, k, fuel, e, r.value.1, q.value.1);
      var r2, q2 := Eval(fuel, e, r.value.1), Eval(fuel + k, e, q.value.1);
      if r2.Ok? { StoreFieldMatches(d, k, r2.value.1, q2.value.1, r.value.0, f, r2.value.0); }
    }
  }

  // -------------------------------------------------------------------- calls

  lemma {:induction false} BindArgsMatches(d: nat, k: nat, s: State, z: State, params: seq<string>, args: seq<Value>)
    requires Alike(d, s, z)
    ensures MatchesState(d, k, BindArgs(s, params, args), BindArgs(z, params, args))
    decreases |args|
  {
    hide Alike, Bind;
    ShapedAlike(d, s, z);
    if args != [] && params != [] {
      BindMatches(d, k, s, z, params[0], args[0]);
      var r, q := Bind(s, params[0], args[0]), Bind(z, params[0], args[0]);
      if r.Ok? { BindArgsMatches(d, k, r.value, q.value, params[1..], args[1..]); }
    }
  }

  lemma {:induction false} InvokeBodyMatches(d: nat, k: nat, fuel: nat, this_: Value, f: Value, args: seq<Value>,
                                             s: State, z: State)
    requires Alike(d, s, z)
    ensures Matches(d, k, InvokeBody(fuel, this_, f, args, s), InvokeBody(fuel + k, this_, f, args, z))
    decreases fuel, 1
  {
    hide Alike, Eval, Bind, BindArgs, New;
    ShapedAlike(d, s, z);
    NewMatches(d, k, s, z, VNull, H.NULL_SZ);
    NewShaped(s);
    NewShaped(z);
    var r := if this_ == VUnset then New(s, VNull, H.NULL_SZ) else Ok((this_, s));
    var q := if this_ == VUnset then New(z, VNull, H.NULL_SZ) else Ok((this_, z));
    if r.Ok? {
      BindMatches(d, k, r.value.1, q.value.1, "this", r.value.0);
      var r2, q2 := Bind(r.value.1, "this", r.value.0), Bind(q.value.1, "this", q.value.0);
      if r2.Ok? && f.VFun? {
        BindArgsMatches(d, k, r2.value, q2.value, f.params, args);
        var r3, q3 := BindArgs(r2.value, f.params, args), BindArgs(q2.value, f.params, args);
        if r3.Ok? { EvalMatches(d, k, fuel, f.body, r3.value, q3.value); }
      }
    }
  }

  // Entering a call: only what every call can see remains in view.
  lemma PushEnvMatches(d: nat, k: nat, s: State, z: State)
    requires Shaped(s) && Shaped(z) && |s.envs| == |z.envs| + d && SharedAlike(s, z)
    ensures MatchesState(d, k, PushEnv(s), PushEnv(z))
  {
  }

  ghost predicate SameEffects(r: Result, q: Result) {
    match r
    case Ok((v, t)) => q.Ok? && q.value.0 == v && Shaped(t) && Shaped(q.value.1) && SharedAlike(t, q.value.1)
    case Halted(_) => q == r
  }

  // A call sees nothing of the environments of its callers: it has the same result and
  // effects from any two states that agree on the globals and the heap.
  lemma {:induction false} InvokeEffects(d: nat, k: nat, fuel: nat, this_: Value, f: Value, args: seq<Value>,
                                         s: State, z: State)
    requires Shaped(s) && Shaped(z) && |s.envs| == |z.envs| + d && SharedAlike(s, z)
    ensures var r, q := Invoke(fuel, this_, f, args, s), Invoke(fuel + k, this_, f, args, z);
            SameEffects(r, q) || (r.Halted? && CutShort(d, k, r.stop))
    decreases fuel, 2, 0
  {
    hide InvokeBody, Alike;
    PushEnvMatches(d, k, s, z);
    var s1, z1 := PushEnv(s), PushEnv(z);
    if s1.Ok? {
      ShapedAlike(d, s1.value, z1.value);
      InvokeBodyMatches(d, k, fuel, this_, f, args, s1.value, z1.value);
      var r, q := InvokeBody(fuel, this_, f, args, s1.value), InvokeBody(fuel + k, this_, f, args, z1.value);
      if r.Ok? { PopEnvMatches(d, r.value.1, q.value.1); }
    }
  }

  lemma PopEnvMatches(d: nat, t: State, u: State)
    requires Alike(d, t, u) && |t.envs| > 1
    ensures SharedAlike(PopEnv(t), PopEnv(u))
  {
  }

  lemma {:induction false} InvokeMatches(d: nat, k: nat, fuel: nat, this_: Value, f: Value, args: seq<Value>,
                                         s: State, z: State)
    requires Alike(d, s, z)
    ensures Matches(d, k, Invoke(fuel, this_, f, args, s), Invoke(fuel + k, this_, f, args, z))
    decreases fuel, 2
  {
    hide Invoke, Alike, Frame, GlobalsKept, SharedAlike;
    ShapedAlike(d, s, z);
    AlikeShares(d, s, z);
    InvokeEffects(d, k, fuel, this_, f, args, s, z);
    InvokeFrames(fuel, this_, f, args, s);
    InvokeFrames(fuel + k, this_, f, args, z);
    var r, q := Invoke(fuel, this_, f, args, s), Invoke(fuel + k, this_, f, args, z);
    if r.Ok? && q.Ok? { ReturnMatches(d, s, z, r.value.1, q.value.1); }
  }

  lemma AlikeShares(d: nat, s: State, z: State)
    requires Alike(d, s, z)
    ensures Shaped(s) && Shaped(z) && |s.envs| == |z.envs| + d && SharedAlike(s, z)
  {
  }

  lemma ReturnMatches(d: nat, s: State, z: State, t: State, u: State)
    requires Alike(d, s, z) && Shaped(t) && Shaped(u) && SharedAlike(t, u)
    requires |t.envs| == |s.envs| && t.envs == s.envs[0 := t.envs[0]] && GlobalsKept(s.envs[0], t.envs[0])
    requires |u.envs| == |z.envs| && u.envs == z.envs[0 := u.envs[0]] && GlobalsKept(z.envs[0], u.envs[0])
    ensures Alike(d, t, u)
  {
    if |s.envs| == 1 {
      assert t.envs[0] == [t.envs[0][0]] + s.envs[0][1..] == u.envs[0];
    }
  }

  lemma {:induction false} FunctionCallMatches(d: nat, k: nat, fuel: nat, f: Ast, args: seq<Ast>, s: State, z: State)
    requires Alike(d, s, z)
    ensures Matches(d, k, EvalCall(fuel, f, args, s), EvalCall(fuel + k, f, args, z))
    decreases fuel, 3
  {
    hide Eval, EvalArgs, Invoke, SharedAlike;
    EvalMatches(d, k, fuel, f, s, z);
    var r, q := Eval(fuel, f, s), Eval(fuel + k, f, z);
    if r.Ok? {
      ArgsMatch(d, k, fuel, args, r.value.1, q.value.1);
      var r2, q2 := EvalArgs(fuel, args, r.value.1), EvalArgs(fuel + k, args, q.value.1);
      if r2.Ok? { InvokeMatches(d, k, fuel, VUnset, r.value.0, r2.value.0, r2.value.1, q2.value.1); }
    }
  }

  lemma BuiltinMatches(d: nat, k: nat, s: State, z: State, v: Value, name: string, args: seq<Value>)
    requires Alike(d, s, z)
    ensures Matches(d, k, Builtin(s, v, name, args), Builtin(z, v, name, args))
  {
    hide Operate, Alike, New, ElementIndex;
    CellsAlike(d, s, z);
    if IsPrimitive(v) {
      if |args| == 1 {
        var op := Operate(v, name, args[0]);
        if op.Computes? { NewMatches(d, k, s, z, op.v, SizeOf(op.v)); }
      }
    } else if IsArray(s.cells, v) && name == "set" && |args| >= 2 {
      var i := ElementIndex(s.cells, v.a, args[0]);
      if i.Ok? { CellsMatch(d, s, z, WithElement(s, v.a, i.value, args[1]).cells); }
    }
  }

  lemma {:induction false} CallMethodMatches(d: nat, k: nat, fuel: nat, v: Value, name: string, args: seq<Value>,
                                             s: State, z: State)
    requires Alike(d, s, z)
    ensures Matches(d, k, CallMethod(fuel, v, name, args, s), CallMethod(fuel + k, v, name, args, z))
    decreases fuel, 3
  {
    hide Find, Invoke, Builtin;
    match Find(s.cells, v, name)
    case Slot(a, i) => InvokeMatches(d, k, fuel, VRef(a), s.cells[a].fields[i].value, args, s, z);
    case ChainEnd(end) => BuiltinMatches(d, k, s, z, end, name, args);
    case BadChain =>
  }

  lemma {:induction false} IndexMatches(d: nat, k: nat, fuel: nat, o: Ast, i: Ast, s: State, z: State)
    requires Alike(d, s, z)
    ensures Matches(d, k, EvalIndex(fuel, o, i, s), EvalIndex(fuel + k, o, i, z))
    decreases fuel, 4
  {
    hide Alike, Eval, EvalArgs, CallMethod;
    ShapedAlike(d, s, z);
    EvalMatches(d, k, fuel, o, s, z);
    var r, q := Eval(fuel, o, s), Eval(fuel + k, o, z);
    if r.Ok? {
      ArgsMatch(d, k, fuel, [i], r.value.1, q.value.1);
      var r2, q2 := EvalArgs(fuel, [i], r.value.1), EvalArgs(fuel + k, [i], q.value.1);
      if r2.Ok? { CallMethodMatches(d, k, fuel, r.value.0, "get", r2.value.0, r2.value.1, q2.value.1); }
    }
  }

  lemma {:induction false} IndexAssignmentMatches(d: nat, k: nat, fuel: nat, o: Ast, i: Ast, e: Ast, s: State, z: State)
    requires Alike(d, s, z)
    ensures Matches(d, k, EvalIndexAssignment(fuel, o, i, e, s), EvalIndexAssignment(fuel + k, o, i, e, z))
    decreases fuel, 4
  {
    hide Alike, Eval, EvalArgs, CallMethod;
    ShapedAlike(d, s, z);
    EvalMatches(d, k, fuel, o, s, z);
    var r, q := Eval(fuel, o, s), Eval(fuel + k, o, z);
    if r.Ok? {
      ArgsMatch(d, k, fuel, [i, e], r.value.1, q.value.1);
      var r2, q2 := EvalArgs(fuel, [i, e], r.value.1), EvalArgs(fuel + k, [i, e], q.value.1);
      if r2.Ok? { CallMethodMatches(d, k, fuel, r.value.0, "set", r2.value.0, r2.value.1, q2.value.1); }
    }
  }

  lemma {:induction false} MethodCallMatches(d: nat, k: nat, fuel: nat, o: Ast, m: string, args: seq<Ast>,
                                             s: State, z: State)
    requires Alike(d, s, z)
    ensures Matches(d, k, EvalMethodCall(fuel, o, m, args, s), EvalMethodCall(fuel + k, o, m, args, z))
    decreases fuel, 4
  {
    hide Alike, Eval, EvalArgs, CallMethod;
    ShapedAlike(d, s, z);
    EvalMatches(d, k, fuel, o, s, z);
    var r, q := Eval(fuel, o, s), Eval(fuel + k, o, z);
    if r.Ok? {
      CellsAlike(d, r.value.1, q.value.1);
      ArgsMatch(d, k, fuel, args, r.value.1, q.value.1);
      var r2, q2 := EvalArgs(fuel, args, r.value.1), EvalArgs(fuel + k, args, q.value.1);
      if r2.Ok? { CallMethodMatches(d, k, fuel, r.value.0, m, r2.value.0, r2.value.1, q2.value.1); }
    }
  }

  // ---------------------------------------------------------------- consequences

  // A run that ends, ends the same with any more fuel.
  lemma FuelMonotone(fuel: nat, more: nat, a: Ast, s: State)
    requires Shaped(s) && fuel <= more && Eval(fuel, a, s) != Halted(FUEL)
    ensures Eval(more, a, s) == Eval(fuel, a, s)
  {
    hide Eval;
    EvalMatches(0, more - fuel, fuel, a, s, s);
    EvalFrames(fuel, a, s);
    EvalFrames(more, a, s);
    var r, q := Eval(fuel, a, s), Eval(more, a, s);
    if r.Ok? { SameState(s, r.value.1, q.value.1); }
  }

  // Alike and framed by the same state is the same.
  lemma SameState(s: State, t: State, u: State)
    requires Frame(s, t) && Frame(s, u) && Alike(0, t, u)
    ensures t == u
  {
    forall e | 0 <= e < |t.envs| ensures t.envs[e] == u.envs[e] {
      if 0 < e < |s.envs| - 1 {
        assert t.envs[e] == s.envs[e] == u.envs[e];
      } else if e == 0 < |s.envs| - 1 {
        assert t.envs[0] == [t.envs[0][0]] + s.envs[0][1..] == u.envs[0];
      }
    }
  }

  // Calls are isolated: two call sites that agree on the outermost globals and the heap
  // get the same result and the same effects, however different the environments of
  // their callers are and however deep they are nested, unless one is too deep.
  lemma CallIsolation(fuel: nat, this_: Value, f: Value, args: seq<Value>, s: State, z: State)
    requires Shaped(s) && Shaped(z) && SharedAlike(s, z)
    requires Invoke(fuel, this_, f, args, s) != Halted(ENV_LIMIT)
    requires Invoke(fuel, this_, f, args, z) != Halted(ENV_LIMIT)
    ensures SameEffects(Invoke(fuel, this_, f, args, s), Invoke(fuel, this_, f, args, z))
  {
    hide Invoke;
    if |s.envs| >= |z.envs| {
      InvokeEffects(|s.envs| - |z.envs|, 0, fuel, this_, f, args, s, z);
    } else {
      InvokeEffects(|z.envs| - |s.envs|, 0, fuel, this_, f, args, z, s);
    }
  }
}
