/**
 More laws of the language: arguments, calls, methods and built-ins, fields, and the
 making of arrays and objects.
 */
module AstCalls {
  import opened Ast
  import opened AstValues
  import opened AstSpec
  import opened AstLaws
  import H = Heap

  // ------------------------------------------------------------------ arguments

  // Expressions evaluated one after the other, each where the one before left off.
  ghost predicate InOrder(fuel: nat, es: seq<Ast>, ss: seq<State>, vs: seq<Value>) {
    && |ss| == |es| + 1 && |vs| == |es| && Shaped(ss[0])
    && forall i :: 0 <= i < |es| ==> Shaped(ss[i]) && Eval(fuel, es[i], ss[i]) == Ok((vs[i], ss[i + 1]))
  }

  lemma {:induction false} ArgumentsInOrder(fuel: nat, es: seq<Ast>, ss: seq<State>, vs: seq<Value>)
    requires InOrder(fuel, es, ss, vs)
    ensures Shaped(ss[|es|]) && EvalArgs(fuel, es, ss[0]) == Ok((vs, ss[|es|]))
    decreases |es|
  {
    hide Eval;
    if es != [] {
      assert Closed(ss[0], Eval(fuel, es[0], ss[0]));
      ArgumentsInOrder(fuel, es[1..], ss[1..], vs[1..]);
      assert [vs[0]] + vs[1..] == vs;
    }
  }

  // The first argument that stops, stops the rest.
  lemma {:induction false} ArgumentStops(fuel: nat, es: seq<Ast>, n: nat, ss: seq<State>, vs: seq<Value>)
    requires n < |es| && InOrder(fuel, es[..n], ss, vs)
    requires Shaped(ss[n]) && Eval(fuel, es[n], ss[n]).Halted?
    ensures EvalArgs(fuel, es, ss[0]) == Halted(Eval(fuel, es[n], ss[n]).stop)
    decreases n
  {
    hide Eval;
    if n > 0 {
      assert es[..n][0] == es[0] && Eval(fuel, es[0], ss[0]) == Ok((vs[0], ss[1]));
      assert es[1..][..n - 1] == es[..n][1..];
      ArgumentStops(fuel, es[1..], n - 1, ss[1..], vs[1..]);
    }
  }

  // --------------------------------------------------------------------- calls

  // The state a body runs in: one more environment, with one scope, in which `this` and
  // the parameters are bound and nothing else is; of equal parameters the last counts.
  ghost predicate Entered(s: State, t: State, this_: Value, ps: seq<string>, vs: seq<Value>) {
    && |vs| <= |ps| && |t.envs| == |s.envs| + 1 && t.envs[..|s.envs|] == s.envs && |t.envs[|s.envs|]| == 1
    && t.cells == s.cells && t.output == s.output
    && (forall x :: x in Bindings(t) <==> x == "this" || x in ps[..|vs|])
    && ("this" !in ps[..|vs|] ==> Bindings(t)["this"] == this_)
    && LastCounts(Bindings(t), ps, vs)
  }

  lemma ThisMeans(s: State, t: State, this_: Value, ps: seq<string>, vs: seq<Value>)
    requires Shaped(t) && Entered(s, t, this_, ps, vs) && "this" !in ps
    ensures Means(t, "this", |t.envs| - 1, 0) && Bindings(t)["this"] == this_
  {
  }

  lemma ParameterMeans(s: State, t: State, this_: Value, ps: seq<string>, vs: seq<Value>, i: nat)
    requires Shaped(t) && Entered(s, t, this_, ps, vs) && i < |vs| && ps[i] !in ps[i + 1..|vs|]
    ensures |s.envs| + 1 == |t.envs| && t.envs[..|s.envs|] == s.envs && t.cells == s.cells
    ensures Means(t, ps[i], |t.envs| - 1, 0) && Bindings(t)[ps[i]] == vs[i]
  {
    assert ps[..|vs|][i] == ps[i];
  }

  // The result of a body, with its environment gone.
  function Returned(r: Result): Result {
    match r
    case Halted(stop) => Halted(stop)
    case Ok((v, t)) => Ok((v, if |t.envs| > 1 then t.(envs := t.envs[..|t.envs| - 1]) else t))
  }

  // What parameters are bound to; of equal ones the last counts.
  ghost predicate LastCounts(vars: map<string, Value>, ps: seq<string>, vs: seq<Value>)
    requires |vs| <= |ps|
  {
    forall i :: 0 <= i < |vs| && ps[i] !in ps[i + 1..|vs|] ==> ps[i] in vars && vars[ps[i]] == vs[i]
  }

  // Environments but the last, cells and output are as they were; the last has one scope.
  ghost predicate OneScope(s: State, t: State) {
    && |t.envs| == |s.envs| > 0 && t.envs[..|s.envs| - 1] == s.envs[..|s.envs| - 1]
    && |s.envs[|s.envs| - 1]| == 1 && |t.envs[|s.envs| - 1]| == 1 && t.cells == s.cells && t.output == s.output
  }

  // The bindings of the current call.
  function Bindings(s: State): map<string, Value>
    requires |s.envs| > 0 && |s.envs[|s.envs| - 1]| == 1
  {
    s.envs[|s.envs| - 1][0].vars
  }

  lemma BindOne(s: State, x: string, v: Value)
    requires Shaped(s) && |s.envs[|s.envs| - 1]| == 1 && Bind(s, x, v).Ok?
    ensures var t := Bind(s, x, v).value; Shaped(t) && OneScope(s, t) && Bindings(t) == Bindings(s)[x := v]
  {
  }

  lemma {:induction false} Parameters(s: State, ps: seq<string>, vs: seq<Value>)
    requires Shaped(s) && |s.envs[|s.envs| - 1]| == 1 && BindArgs(s, ps, vs).Ok?
    ensures |vs| <= |ps|
    ensures var t := BindArgs(s, ps, vs).value;
            && OneScope(s, t) && LastCounts(Bindings(t), ps, vs)
            && (forall x :: x in Bindings(t) <==> x in Bindings(s) || x in ps[..|vs|])
            && forall x :: x in Bindings(s) && x !in ps[..|vs|] ==> Bindings(t)[x] == Bindings(s)[x]
    decreases |vs|
  {
    hide Bind, LastCounts;
    var t := BindArgs(s, ps, vs).value;
    if vs == [] {
      NoParameters(s, ps);
    } else {
      var u := Bind(s, ps[0], vs[0]).value;
      BindOne(s, ps[0], vs[0]);
      Parameters(u, ps[1..], vs[1..]);
      assert ps[..|vs|] == [ps[0]] + ps[1..][..|vs| - 1];
      LastStep(Bindings(u), Bindings(t), ps, vs);
    }
  }

  lemma NoParameters(s: State, ps: seq<string>)
    requires |s.envs| > 0 && |s.envs[|s.envs| - 1]| == 1
    ensures LastCounts(Bindings(s), ps, [])
  {
  }

  lemma LastStep(before: map<string, Value>, after: map<string, Value>, ps: seq<string>, vs: seq<Value>)
    requires 0 < |vs| <= |ps| && LastCounts(after, ps[1..], vs[1..])
    requires ps[0] in before && before[ps[0]] == vs[0]
    requires ps[0] !in ps[1..][..|vs| - 1] ==> ps[0] in after && after[ps[0]] == before[ps[0]]
    ensures LastCounts(after, ps, vs)
  {
    forall i | 0 <= i < |vs| && ps[i] !in ps[i + 1..|vs|] ensures ps[i] in after && after[ps[i]] == vs[i] {
      if i == 0 {
        assert ps[1..|vs|] == ps[1..][..|vs| - 1];
      } else {
        assert ps[1..][i - 1] == ps[i] && ps[1..][i..|vs| - 1] == ps[i + 1..|vs|];
      }
    }
  }

  // Why a function may not be entered: too many calls, arguments or bindings, or no room
  // for the null that stands for `this`.
  predicate Refused(s: State, ps: seq<string>, vs: seq<Value>, stop: Stop) {
    || (stop == ENV_LIMIT && |s.envs| >= MAX_ENVS) || (stop == HEAP_LIMIT && !H.Fits(s.used, H.NULL_SZ))
    || (stop == PARAMETERS && |vs| > |ps|) || (stop == VAR_LIMIT && |vs| >= MAX_VARS)
  }

  // A function runs its body in such a state, unless it is refused.
  lemma Invokes(fuel: nat, this_: Value, ps: seq<string>, body: Ast, vs: seq<Value>, s: State) returns (t: State)
    requires Shaped(s)
    ensures var r := Invoke(fuel, this_, VFun(ps, body), vs, s);
            || (r.Halted? && Refused(s, ps, vs, r.stop))
            || (Shaped(t) && Entered(s, t, if this_ == VUnset then VNull else this_, ps, vs)
                && r == Returned(Eval(fuel, body, t)))
  {
    hide Eval, BindArgs, Entered, InvokeBody;
    t := s;
    if |s.envs| < MAX_ENVS && (this_ == VUnset ==> H.Fits(s.used, H.NULL_SZ)) {
      var s1 := s.(envs := s.envs + [[Scope(map[], [])]]);
      assert PushEnv(s) == Ok(s1);
      var me := if this_ == VUnset then VNull else this_;
      var s2 := ThisBound(s, s1, this_);
      var r := BindArgs(s2, ps, vs);
      Fills(s2, ps, vs);
      BodyRuns(fuel, this_, ps, body, vs, s1, s2);
      if r.Ok? {
        t := r.value;
        EnteredFrom(s, s2, t, me, ps, vs);
      }
    } else {
      NotEntered(fuel, this_, ps, body, vs, s);
    }
  }

  lemma NotEntered(fuel: nat, this_: Value, ps: seq<string>, body: Ast, vs: seq<Value>, s: State)
    requires Shaped(s) && (|s.envs| >= MAX_ENVS || (this_ == VUnset && !H.Fits(s.used, H.NULL_SZ)))
    ensures var r := Invoke(fuel, this_, VFun(ps, body), vs, s); r.Halted? && Refused(s, ps, vs, r.stop)
  {
    hide Eval, BindArgs;
  }

  // The new environment with `this`.
  lemma ThisBound(s: State, s1: State, this_: Value) returns (s2: State)
    requires Shaped(s) && s1 == s.(envs := s.envs + [[Scope(map[], [])]])
    requires this_ == VUnset ==> H.Fits(s.used, H.NULL_SZ)
    ensures var r := if this_ == VUnset then New(s1, VNull, H.NULL_SZ) else Ok((this_, s1));
            r.Ok? && Shaped(r.value.1) && Bind(r.value.1, "this", r.value.0) == Ok(s2)
    ensures var me := if this_ == VUnset then VNull else this_;
            && s2.envs == s.envs + [[Scope(map["this" := me], ["this"])]]
            && s2.cells == s.cells && s2.output == s.output && Shaped(s2)
  {
    var r := if this_ == VUnset then New(s1, VNull, H.NULL_SZ) else Ok((this_, s1));
    s2 := Bind(r.value.1, "this", r.value.0).value;
    var n, me := |s.envs|, r.value.0;
    assert s1.envs[n] == [Scope(map[], [])] && [] + ["this"] == ["this"];
    var c := Scope(map["this" := me], ["this"]);
    assert s1.envs[n][0 := c] == [c];
    assert s2.envs == s1.envs[n := [c]];
  }

  lemma EnteredFrom(s: State, s2: State, t: State, me: Value, ps: seq<string>, vs: seq<Value>)
    requires Shaped(s) && s2.envs == s.envs + [[Scope(map["this" := me], ["this"])]]
    requires s2.cells == s.cells && s2.output == s.output && Shaped(s2) && BindArgs(s2, ps, vs) == Ok(t)
    ensures Entered(s, t, me, ps, vs)
  {
    hide BindArgs;
    Parameters(s2, ps, vs);
    assert t.envs[..|s.envs|] == s2.envs[..|s.envs|] == s.envs;
  }

  // Binding arguments stops for too many of them only.
  lemma {:induction false} Fills(s: State, ps: seq<string>, vs: seq<Value>)
    requires Shaped(s)
    ensures var used := |s.envs[|s.envs| - 1][|s.envs[|s.envs| - 1]| - 1].names|;
            match BindArgs(s, ps, vs)
            case Halted(stop) => (stop == VAR_LIMIT && used + |vs| > MAX_VARS) || (stop == PARAMETERS && |vs| > |ps|)
            case Ok(t) => true
    decreases |vs|
  {
    if vs != [] && ps != [] && Bind(s, ps[0], vs[0]).Ok? { Fills(Bind(s, ps[0], vs[0]).value, ps[1..], vs[1..]); }
  }

  lemma BodyRuns(fuel: nat, this_: Value, ps: seq<string>, body: Ast, vs: seq<Value>, s1: State, s2: State)
    requires Shaped(s1) && |s1.envs| > 1
    requires var r := if this_ == VUnset then New(s1, VNull, H.NULL_SZ) else Ok((this_, s1));
             r.Ok? && Shaped(r.value.1) && Bind(r.value.1, "this", r.value.0) == Ok(s2)
    ensures Shaped(s2)
    ensures match BindArgs(s2, ps, vs)
            case Halted(stop) => InvokeBody(fuel, this_, VFun(ps, body), vs, s1) == Halted(stop)
            case Ok(t) =>
              && Shaped(t) && InvokeBody(fuel, this_, VFun(ps, body), vs, s1) == Eval(fuel, body, t)
              && var r := Eval(fuel, body, t);
                 r.Ok? ==> Shaped(r.value.1) && |r.value.1.envs| == |s1.envs|
  {
    hide Eval, BindArgs, Bind;
    var b := BindArgs(s2, ps, vs);
    if b.Ok? {
      var r := Eval(fuel, body, b.value);
      assert Closed(b.value, r);
    }
  }

  // A call evaluates the function, then its arguments, and runs the body with `this` a
  // new null.
  lemma Calls(fuel: nat, f: Ast, es: seq<Ast>, s: State, ps: seq<string>, body: Ast, ss: seq<State>, vs: seq<Value>)
    returns (t: State)
    requires Shaped(s) && InOrder(fuel, es, ss, vs) && Eval(fuel, f, s) == Ok((VFun(ps, body), ss[0]))
    ensures var r := Eval(fuel + 1, FunctionCall(f, es), s);
            || (r.Halted? && Refused(ss[|es|], ps, vs, r.stop))
            || (Shaped(t) && Entered(ss[|es|], t, VNull, ps, vs) && r == Returned(Eval(fuel, body, t)))
  {
    hide Invoke;
    ArgumentsInOrder(fuel, es, ss, vs);
    CallForm(fuel, f, es, s);
    t := Invokes(fuel, VUnset, ps, body, vs, ss[|es|]);
  }

  lemma CallForm(fuel: nat, f: Ast, es: seq<Ast>, s: State)
    requires Shaped(s)
    ensures Eval(fuel + 1, FunctionCall(f, es), s) == EvalCall(fuel, f, es, s)
  {
  }

  // A parameter reads its argument, whatever the caller and the globals call by its name.
  lemma ParameterReads(fuel: nat, f: Ast, es: seq<Ast>, s: State, ps: seq<string>, i: nat,
                       ss: seq<State>, vs: seq<Value>)
    requires Shaped(s) && fuel > 0 && InOrder(fuel, es, ss, vs) && i < |vs| <= |ps|
    requires ps[i] != "" && ps[i] !in ps[i + 1..|vs|]
    requires Eval(fuel, f, s) == Ok((VFun(ps, VariableAccess(ps[i])), ss[0]))
    ensures var r := Eval(fuel + 1, FunctionCall(f, es), s);
            || (r.Halted? && Refused(ss[|es|], ps, vs, r.stop))
            || (r.Ok? && r.value.0 == vs[i] && r.value.1.envs == ss[|es|].envs && r.value.1.cells == ss[|es|].cells)
  {
    hide Eval, Entered, Means;
    ArgumentsInOrder(fuel, es, ss, vs);
    var t := Calls(fuel, f, es, s, ps, VariableAccess(ps[i]), ss, vs);
    if Shaped(t) && Entered(ss[|es|], t, VNull, ps, vs) {
      ParameterMeans(ss[|es|], t, VNull, ps, vs, i);
      Reads(fuel - 1, ps[i], t, |t.envs| - 1, 0);
      assert Eval(fuel, VariableAccess(ps[i]), t) == Ok((vs[i], t));
      assert t.envs[..|t.envs| - 1] == ss[|es|].envs;
    }
  }
}
