/**
 Laws of the language: what each form of expression does, told by what its parts do and by
 what other forms do, for every state and every bound on the depth of evaluation.
 */
module AstLaws {
  import opened Ast
  import opened AstValues
  import opened AstSpec
  import H = Heap

  // -------------------------------------------------------------------- literals

  // A literal gives its value; the environments, cells and output stay.
  lemma Literals(fuel: nat, s: State, i: int, b: bool, ps: seq<string>, body: Ast)
    requires Shaped(s) && H.Fits(s.used, H.FUNCTION_SZ)
    ensures Eval(fuel + 1, Integer(i), s) == Ok((VInt(i), s.(used := H.After(s.used, H.INTEGER_SZ))))
    ensures Eval(fuel + 1, Boolean(b), s) == Ok((VBool(b), s.(used := H.After(s.used, H.BOOLEAN_SZ))))
    ensures Eval(fuel + 1, Null, s) == Ok((VNull, s.(used := H.After(s.used, H.NULL_SZ))))
    ensures Eval(fuel + 1, Function(ps, body), s) == Ok((VFun(ps, body), s.(used := H.After(s.used, H.FUNCTION_SZ))))
  {
  }

  // ------------------------------------------------------- sequences and blocks

  // Expressions of a sequence are evaluated one after the other, the last one last.
  lemma {:induction false} Sequences(fuel: nat, es: seq<Ast>, e: Ast, s: State)
    requires Shaped(s)
    ensures Eval(fuel + 1, Top([]), s) == Ok((VUnset, s))
    ensures Eval(fuel + 1, Top(es + [e]), s)
         == match Eval(fuel + 1, Top(es), s)
            case Halted(stop) => Halted(stop)
            case Ok((_, s1)) => Eval(fuel, e, s1)
  {
    SequenceEnd(fuel, es, e, VUnset, s);
  }

  lemma {:induction false} SequenceEnd(fuel: nat, es: seq<Ast>, e: Ast, last: Value, s: State)
    requires Shaped(s)
    ensures EvalSequence(fuel, es + [e], last, s)
         == match EvalSequence(fuel, es, last, s)
            case Halted(stop) => Halted(stop)
            case Ok((_, s1)) => Eval(fuel, e, s1)
    decreases |es|
  {
    hide Eval;
    if es == [] {
      assert [] + [e] == [e] && [e][1..] == [];
      EmptySequence(fuel, e, last, s);
    } else {
      assert (es + [e])[1..] == es[1..] + [e] && (es + [e])[0] == es[0];
      var r := Eval(fuel, es[0], s);
      if r.Ok? { SequenceEnd(fuel, es[1..], e, r.value.0, r.value.1); }
    }
  }

  lemma EmptySequence(fuel: nat, e: Ast, last: Value, s: State)
    requires Shaped(s)
    ensures EvalSequence(fuel, [e], last, s) == Eval(fuel, e, s)
  {
    hide Eval;
    assert [e][1..] == [];
  }

  // The innermost scope of the current call, opened and left.
  function Opened(s: State): State
    requires Shaped(s)
  {
    var e := |s.envs| - 1;
    s.(envs := s.envs[e := s.envs[e] + [Scope(map[], [])]])
  }

  function Left(s: State): State
    requires Shaped(s)
  {
    var e := |s.envs| - 1;
    s.(envs := s.envs[e := s.envs[e][..|s.envs[e]| - 1]])
  }

  // A block is its sequence in a scope of its own, which is gone afterwards.
  lemma Blocks(fuel: nat, es: seq<Ast>, s: State)
    requires Shaped(s) && |s.envs[|s.envs| - 1]| < MAX_SCOPES
    ensures Eval(fuel + 1, Block(es), s)
         == match Eval(fuel + 1, Top(es), Opened(s))
            case Halted(stop) => Halted(stop)
            case Ok((v, t)) => Ok((v, Left(t)))
  {
    var s1 := Opened(s);
    assert PushScope(s) == Ok(s1) && Shaped(s1);
    var r := EvalSequence(fuel, es, VUnset, s1);
    if r.Ok? { assert Balanced(s1, r.value.1); }
  }

  // An expression in a scope of its own is a block of it.
  lemma OwnScope(fuel: nat, e: Ast, s: State)
    requires Shaped(s)
    ensures Eval(fuel + 1, Block([e]), s) == EvalScoped(fuel, e, s)
  {
    hide EvalSequence;
    if PushScope(s).Ok? { EmptySequence(fuel, e, VUnset, PushScope(s).value); }
  }

  // --------------------------------------------------------- conditions and loops

  // Null and false take the alternative, every other value the consequent, each in a
  // scope of its own.
  lemma Conditionals(fuel: nat, c: Ast, t: Ast, e: Ast, s: State)
    requires Shaped(s)
    ensures Eval(fuel + 1, Conditional(c, t, e), s)
         == match Eval(fuel, c, s)
            case Halted(stop) => Halted(stop)
            case Ok((VNil, _)) => Halted(NIL)
            case Ok((VUnset, _)) => Halted(UNSET)
            case Ok((VNull, s1)) => Eval(fuel + 1, Block([e]), s1)
            case Ok((VBool(false), s1)) => Eval(fuel + 1, Block([e]), s1)
            case Ok((_, s1)) => Eval(fuel + 1, Block([t]), s1)
  {
    hide Eval, EvalScoped;
    ConditionalForm(fuel, c, t, e, s);
    var r := Eval(fuel, c, s);
    if r.Ok? {
      OwnScope(fuel, t, r.value.1);
      OwnScope(fuel, e, r.value.1);
    }
  }

  lemma ConditionalForm(fuel: nat, c: Ast, t: Ast, e: Ast, s: State)
    requires Shaped(s)
    ensures Eval(fuel + 1, Conditional(c, t, e), s) == EvalConditional(fuel, c, t, e, s)
  {
  }

  // A loop ends with null when its condition gives null or false; otherwise its body runs
  // in a scope of its own and the loop starts again.
  lemma Loops(fuel: nat, c: Ast, b: Ast, s: State)
    requires Shaped(s)
    ensures Eval(fuel + 1, Loop(c, b), s)
         == match Eval(fuel, c, s)
            case Halted(stop) => Halted(stop)
            case Ok((VNil, _)) => Halted(NIL)
            case Ok((VUnset, _)) => Halted(UNSET)
            case Ok((VNull, s1)) => Eval(1, Null, s1)
            case Ok((VBool(false), s1)) => Eval(1, Null, s1)
            case Ok((_, s1)) => (match Eval(fuel + 1, Block([b]), s1)
                                 case Halted(stop) => Halted(stop)
                                 case Ok((_, s2)) => Eval(fuel, Loop(c, b), s2))
  {
    hide Eval, EvalScoped;
    LoopForm(fuel, c, b, s);
    var r := Eval(fuel, c, s);
    if r.Ok? {
      NullForm(r.value.1);
      OwnScope(fuel, b, r.value.1);
      var body := EvalScoped(fuel, b, r.value.1);
      if body.Ok? {
        if fuel == 0 { OutOfFuel(Loop(c, b), body.value.1); } else { LoopForm(fuel - 1, c, b, body.value.1); }
      }
    }
  }

  lemma OutOfFuel(a: Ast, s: State)
    requires Shaped(s)
    ensures Eval(0, a, s) == Halted(FUEL)
  {
  }

  lemma LoopForm(fuel: nat, c: Ast, b: Ast, s: State)
    requires Shaped(s)
    ensures Eval(fuel + 1, Loop(c, b), s) == EvalWhile(fuel, c, b, s)
  {
  }

  lemma NullForm(s: State)
    requires Shaped(s)
    ensures Eval(1, Null, s) == New(s, VNull, H.NULL_SZ)
  {
  }

  // ----------------------------------------------------------------------- names

  // A name means its innermost binding in the current call, or, if that has none, its
  // binding in the outermost scope of the globals.
  ghost predicate Means(s: State, x: string, e: nat, k: nat)
    requires Shaped(s)
  {
    var current := s.envs[|s.envs| - 1];
    || (e == |s.envs| - 1 && k < |current| && x in current[k].vars
        && forall j :: k < j < |current| ==> x !in current[j].vars)
    || (e == 0 && k == 0 && x in s.envs[0][0].vars && forall j :: 0 <= j < |current| ==> x !in current[j].vars)
  }

  ghost predicate Unknown(s: State, x: string)
    requires Shaped(s)
  {
    var current := s.envs[|s.envs| - 1];
    x !in s.envs[0][0].vars && forall j :: 0 <= j < |current| ==> x !in current[j].vars
  }

  lemma MeansBinding(s: State, x: string, e: nat, k: nat)
    requires Shaped(s) && Means(s, x, e, k)
    ensures e < |s.envs| && k < |s.envs[e]| && x in s.envs[e][k].vars && Lookup(s, x) == Bound(e, k)
  {
    var env := s.envs[|s.envs| - 1];
    var n := FindScope(env, x, |env|);
  }

  lemma MeansNothing(s: State, x: string)
    requires Shaped(s)
    ensures Unknown(s, x) <==> Lookup(s, x) == Unbound
  {
    var env := s.envs[|s.envs| - 1];
    var n := FindScope(env, x, |env|);
    if n >= 0 { assert x in env[n].vars && !Unknown(s, x); }
  }

  // Every name that is not unknown means one binding.
  lemma MeansOne(s: State, x: string) returns (e: nat, k: nat)
    requires Shaped(s) && !Unknown(s, x)
    ensures Means(s, x, e, k) && forall e', k' :: Means(s, x, e', k') ==> e' == e && k' == k
  {
    var at := Lookup(s, x);
    MeansNothing(s, x);
    e, k := at.e, at.k;
    forall e', k' | Means(s, x, e', k') ensures e' == e && k' == k { MeansBinding(s, x, e', k'); }
  }

  // Reading a name gives the value of the binding it means.
  lemma Reads(fuel: nat, x: string, s: State, e: nat, k: nat)
    requires Shaped(s) && x != "" && Means(s, x, e, k)
    ensures e < |s.envs| && k < |s.envs[e]| && x in s.envs[e][k].vars
    ensures Eval(fuel + 1, VariableAccess(x), s) == Ok((s.envs[e][k].vars[x], s))
  {
    MeansBinding(s, x, e, k);
  }

  // Reading an unknown name defines it as null, and gives another null.
  lemma ReadsUnknown(fuel: nat, x: string, s: State)
    requires Shaped(s) && x != "" && Unknown(s, x)
    ensures Eval(fuel + 1, VariableAccess(x), s) == Eval(fuel + 3, Top([Definition(x, Null), Null]), s)
  {
    hide Bind, New;
    MeansNothing(s, x);
    var d := Definition(x, Null);
    Sequences(fuel + 2, [d], Null, s);
    Sequences(fuel + 2, [], d, s);
    assert [] + [d] == [d] && [d] + [Null] == [d, Null];
    DefinesNull(fuel, x, s);
  }

  lemma DefinesNull(fuel: nat, x: string, s: State)
    requires Shaped(s)
    ensures Eval(fuel + 2, Definition(x, Null), s)
         == match New(s, VNull, H.NULL_SZ)
            case Halted(stop) => Halted(stop)
            case Ok((v, s1)) => (match Bind(s1, x, v)
                                 case Halted(stop) => Halted(stop)
                                 case Ok(s2) => Ok((v, s2)))
    ensures forall t :: Shaped(t) ==> Eval(fuel + 2, Null, t) == New(t, VNull, H.NULL_SZ)
  {
    hide Bind;
    assert Eval(fuel + 1, Null, s) == New(s, VNull, H.NULL_SZ);
  }

  // A definition adds a binding to the innermost scope of the current call.
  lemma Definitions(fuel: nat, x: string, rhs: Ast, s: State, v: Value, s1: State)
    requires Shaped(s) && Eval(fuel, rhs, s) == Ok((v, s1))
    ensures Shaped(s1)
    ensures var e := |s1.envs| - 1;
            var k := |s1.envs[e]| - 1;
            var scope := s1.envs[e][k];
            |scope.names| < MAX_VARS ==>
              Eval(fuel + 1, Definition(x, rhs), s)
              == Ok((v, s1.(envs := s1.envs[e := s1.envs[e][k := Scope(scope.vars[x := v], scope.names + [x])]])))
  {
    assert Closed(s, Eval(fuel, rhs, s));
  }

  // What was defined is what is read next, whatever the globals hold.
  lemma ReadsDefined(fuel: nat, x: string, rhs: Ast, s: State, v: Value, s1: State, t: State, more: nat)
    requires Shaped(s) && x != "" && Eval(fuel, rhs, s) == Ok((v, s1))
    requires Eval(fuel + 1, Definition(x, rhs), s) == Ok((v, t))
    ensures Shaped(s1) && Shaped(t) && Eval(more + 1, VariableAccess(x), t) == Ok((v, t))
  {
    hide Eval;
    DefinitionForm(fuel, x, rhs, s, v, s1);
    var top := |s1.envs| - 1;
    var last := |s1.envs[top]| - 1;
    assert t.envs[top][last].vars == s1.envs[top][last].vars[x := v];
    assert Means(t, x, top, last);
    Reads(more, x, t, top, last);
  }

  // All other names mean what they meant.
  lemma ReadsOther(fuel: nat, x: string, rhs: Ast, s: State, v: Value, s1: State, t: State, y: string, e: nat, k: nat)
    requires Shaped(s) && Eval(fuel, rhs, s) == Ok((v, s1)) && Eval(fuel + 1, Definition(x, rhs), s) == Ok((v, t))
    requires Shaped(s1) && y != x && Means(s1, y, e, k)
    ensures Shaped(t) && Means(t, y, e, k)
    ensures e < |s1.envs| == |t.envs| && k < |s1.envs[e]| == |t.envs[e]|
    ensures y in s1.envs[e][k].vars && y in t.envs[e][k].vars && t.envs[e][k].vars[y] == s1.envs[e][k].vars[y]
  {
    hide Eval;
    DefinitionForm(fuel, x, rhs, s, v, s1);
    MeansBinding(s1, y, e, k);
  }

  lemma DefinitionForm(fuel: nat, x: string, rhs: Ast, s: State, v: Value, s1: State)
    requires Shaped(s) && Eval(fuel, rhs, s) == Ok((v, s1))
    ensures Shaped(s1)
    ensures Eval(fuel + 1, Definition(x, rhs), s)
         == match Bind(s1, x, v)
            case Halted(stop) => Halted(stop)
            case Ok(t) => Ok((v, t))
  {
    hide Bind;
    assert Closed(s, Eval(fuel, rhs, s));
  }

  // An assignment stores into the binding the name means, and nowhere else.
  lemma Assigns(fuel: nat, x: string, rhs: Ast, s: State, v: Value, s1: State, e: nat, k: nat)
    requires Shaped(s) && x != "" && Eval(fuel, rhs, s) == Ok((v, s1)) && Shaped(s1) && Means(s1, x, e, k)
    ensures e < |s1.envs| && k < |s1.envs[e]|
    ensures var scope := s1.envs[e][k];
            Eval(fuel + 1, VariableAssignment(x, rhs), s)
            == Ok((v, s1.(envs := s1.envs[e := s1.envs[e][k := Scope(scope.vars[x := v], scope.names)]])))
  {
    MeansBinding(s1, x, e, k);
  }

  // Assigning an unknown name defines it.
  lemma AssignsUnknown(fuel: nat, x: string, rhs: Ast, s: State)
    requires Shaped(s) && x != "" && (Eval(fuel, rhs, s).Ok? ==> Shaped(Eval(fuel, rhs, s).value.1))
    requires Eval(fuel, rhs, s).Ok? ==> Unknown(Eval(fuel, rhs, s).value.1, x)
    ensures Eval(fuel + 1, VariableAssignment(x, rhs), s) == Eval(fuel + 1, Definition(x, rhs), s)
  {
    var r := Eval(fuel, rhs, s);
    if r.Ok? { MeansNothing(r.value.1, x); }
  }

  // What was assigned is what is read next, and a name of the current call leaves the
  // globals alone.
  lemma ReadsAssigned(fuel: nat, x: string, rhs: Ast, s: State, v: Value, s1: State, t: State, more: nat)
    requires Shaped(s) && x != "" && Eval(fuel, rhs, s) == Ok((v, s1)) && Shaped(s1)
    requires Eval(fuel + 1, VariableAssignment(x, rhs), s) == Ok((v, t))
    ensures Shaped(t) && Eval(more + 1, VariableAccess(x), t) == Ok((v, t))
    ensures var current := s1.envs[|s1.envs| - 1];
            |s1.envs| > 1 && (exists k :: 0 <= k < |current| && x in current[k].vars) ==> t.envs[0] == s1.envs[0]
  {
    hide Eval;
    if Unknown(s1, x) {
      AssignsUnknown(fuel, x, rhs, s);
      ReadsDefined(fuel, x, rhs, s, v, s1, t, more);
    } else {
      var e, k := MeansOne(s1, x);
      Assigns(fuel, x, rhs, s, v, s1, e, k);
      MeansBinding(s1, x, e, k);
      assert Means(t, x, e, k);
      Reads(more, x, t, e, k);
    }
  }
}
