/** Laws of fields, methods, built-ins and output, and of the making of arrays and objects. */
module AstObjects {
  import opened Ast
  import opened AstValues
  import opened AstSpec
  import opened AstLaws
  import opened AstCalls
  import opened Operators
  import S = AstSound
  import H = Heap

  // -------------------------------------------------------------------- lookups

  // The first field of a name.
  ghost predicate FieldNamed(fields: seq<Field>, name: string, i: nat) {
    i < |fields| && fields[i].name == name && forall j :: 0 <= j < i ==> fields[j].name != name
  }

  // `v` leads to `w` through objects without the field, each the parent of the one before.
  ghost predicate Climbs(cells: seq<Cell>, v: Value, name: string, path: seq<nat>, w: Value)
    decreases |path|
  {
    if path == [] then v == w
    else
      && v == VRef(path[0]) && path[0] < |cells| && cells[path[0]].Obj?
      && (forall j :: 0 <= j < |cells[path[0]].fields| ==> cells[path[0]].fields[j].name != name)
      && (cells[path[0]].parent.VRef? ==> cells[path[0]].parent.a < path[0])
      && Climbs(cells, cells[path[0]].parent, name, path[1..], w)
  }

  lemma {:induction false} FirstIndex(fields: seq<Field>, name: string, i: nat)
    requires FieldNamed(fields, name, i)
    ensures FieldIndex(fields, name) == i
  {
  }

  lemma {:induction false} FindsField(cells: seq<Cell>, v: Value, name: string, path: seq<nat>, a: nat, i: nat)
    requires Climbs(cells, v, name, path, VRef(a))
    requires a < |cells| && cells[a].Obj? && FieldNamed(cells[a].fields, name, i)
    ensures Find(cells, v, name) == Slot(a, i)
    decreases |path|
  {
    if path == [] {
      FirstIndex(cells[a].fields, name, i);
    } else {
      FindsField(cells, cells[path[0]].parent, name, path[1..], a, i);
    }
  }

  lemma {:induction false} FindsEnd(cells: seq<Cell>, v: Value, name: string, path: seq<nat>, w: Value)
    requires Climbs(cells, v, name, path, w) && (w.VRef? ==> w.a < |cells| && cells[w.a].Arr?)
    ensures Find(cells, v, name) == ChainEnd(w)
    decreases |path|
  {
    if path != [] { FindsEnd(cells, cells[path[0]].parent, name, path[1..], w); }
  }

  // --------------------------------------------------------------------- fields

  // A field access reads the field of the first object on the chain that has it.
  lemma FieldReads(fuel: nat, o: Ast, f: string, s: State, v: Value, s1: State, path: seq<nat>, a: nat, i: nat)
    requires Shaped(s) && Eval(fuel, o, s) == Ok((v, s1)) && Climbs(s1.cells, v, f, path, VRef(a))
    requires a < |s1.cells| && s1.cells[a].Obj? && FieldNamed(s1.cells[a].fields, f, i)
    ensures Eval(fuel + 1, FieldAccess(o, f), s) == Ok((s1.cells[a].fields[i].value, s1))
  {
    hide Find;
    FindsField(s1.cells, v, f, path, a, i);
    FieldForm(fuel, o, f, s);
    assert FieldSlot(s1.cells, v, f) == Ok(Slot(a, i));
  }

  lemma FieldForm(fuel: nat, o: Ast, f: string, s: State)
    requires Shaped(s)
    ensures Eval(fuel + 1, FieldAccess(o, f), s) == EvalField(fuel, o, f, s)
  {
  }

  // A field assignment stores into that field, and nowhere else.
  lemma FieldWrites(fuel: nat, o: Ast, f: string, e: Ast, s: State, v: Value, s1: State, w: Value, s2: State,
                    path: seq<nat>, a: nat, i: nat)
    requires Shaped(s) && Eval(fuel, o, s) == Ok((v, s1)) && Shaped(s1) && Eval(fuel, e, s1) == Ok((w, s2))
    requires Climbs(s2.cells, v, f, path, VRef(a))
    requires a < |s2.cells| && s2.cells[a].Obj? && FieldNamed(s2.cells[a].fields, f, i)
    ensures var Obj(parent, fields) := s2.cells[a];
            Eval(fuel + 1, FieldAssignment(o, f, e), s)
            == Ok((w, s2.(cells := s2.cells[a := Obj(parent, fields[i := Field(f, w)])])))
  {
    FindsField(s2.cells, v, f, path, a, i);
    FieldAssignmentForm(fuel, o, f, e, s);
  }

  lemma FieldAssignmentForm(fuel: nat, o: Ast, f: string, e: Ast, s: State)
    requires Shaped(s)
    ensures Eval(fuel + 1, FieldAssignment(o, f, e), s) == EvalFieldAssignment(fuel, o, f, e, s)
  {
  }

  // -------------------------------------------------------------------- methods

  predicate IsReceiver(s: State, v: Value) { v != VNil && v != VUnset && (v.VRef? ==> IsObject(s.cells, v)) }

  lemma MethodForm(fuel: nat, o: Ast, m: string, es: seq<Ast>, s: State, v: Value, ss: seq<State>, vs: seq<Value>)
    requires Shaped(s) && InOrder(fuel, es, ss, vs) && Eval(fuel, o, s) == Ok((v, ss[0])) && IsReceiver(ss[0], v)
    ensures Shaped(ss[|es|])
    ensures Eval(fuel + 1, MethodCall(o, m, es), s) == CallMethod(fuel, v, m, vs, ss[|es|])
  {
    hide CallMethod;
    ArgumentsInOrder(fuel, es, ss, vs);
    SendForm(fuel, o, m, es, s);
  }

  lemma SendForm(fuel: nat, o: Ast, m: string, es: seq<Ast>, s: State)
    requires Shaped(s)
    ensures Eval(fuel + 1, MethodCall(o, m, es), s) == EvalMethodCall(fuel, o, m, es, s)
  {
  }

  // A method is that of the first object on the chain that has it, and runs with that
  // object as `this`.
  lemma Methods(fuel: nat, o: Ast, m: string, es: seq<Ast>, s: State, v: Value, ss: seq<State>, vs: seq<Value>,
                path: seq<nat>, a: nat, i: nat, ps: seq<string>, body: Ast)
    returns (t: State)
    requires Shaped(s) && InOrder(fuel, es, ss, vs) && Eval(fuel, o, s) == Ok((v, ss[0])) && IsReceiver(ss[0], v)
    requires var cells := ss[|es|].cells;
             && Climbs(cells, v, m, path, VRef(a)) && a < |cells| && cells[a].Obj?
             && FieldNamed(cells[a].fields, m, i) && cells[a].fields[i].value == VFun(ps, body)
    ensures var r := Eval(fuel + 1, MethodCall(o, m, es), s);
            || (r.Halted? && Refused(ss[|es|], ps, vs, r.stop))
            || (Shaped(t) && Entered(ss[|es|], t, VRef(a), ps, vs) && r == Returned(Eval(fuel, body, t)))
  {
    hide Invoke;
    MethodForm(fuel, o, m, es, s, v, ss, vs);
    FindsField(ss[|es|].cells, v, m, path, a, i);
    t := Invokes(fuel, VRef(a), ps, body, vs, ss[|es|]);
  }

  // So `this` is the object that has the method, not the one it was called on.
  lemma ThisReads(fuel: nat, o: Ast, m: string, es: seq<Ast>, s: State, v: Value, ss: seq<State>, vs: seq<Value>,
                  path: seq<nat>, a: nat, i: nat, ps: seq<string>)
    requires Shaped(s) && InOrder(fuel, es, ss, vs) && Eval(fuel, o, s) == Ok((v, ss[0])) && IsReceiver(ss[0], v)
    requires fuel > 0 && |vs| <= |ps| && "this" !in ps
    requires var cells := ss[|es|].cells;
             && Climbs(cells, v, m, path, VRef(a)) && a < |cells| && cells[a].Obj?
             && FieldNamed(cells[a].fields, m, i) && cells[a].fields[i].value == VFun(ps, VariableAccess("this"))
    ensures var r := Eval(fuel + 1, MethodCall(o, m, es), s);
            || (r.Halted? && Refused(ss[|es|], ps, vs, r.stop))
            || (r.Ok? && r.value.0 == VRef(a))
  {
    hide Eval, Entered, Means;
    var t := Methods(fuel, o, m, es, s, v, ss, vs, path, a, i, ps, VariableAccess("this"));
    if Shaped(t) && Entered(ss[|es|], t, VRef(a), ps, vs) {
      ThisMeans(ss[|es|], t, VRef(a), ps, vs);
      Reads(fuel - 1, "this", t, |t.envs| - 1, 0);
      assert Eval(fuel, VariableAccess("this"), t) == Ok((VRef(a), t));
    }
  }

  // ------------------------------------------------------------------ operators

  // The result of an operator that takes one argument, on the primitive value at the end
  // of the chain of the receiver.
  lemma Operates(fuel: nat, o: Ast, m: string, e: Ast, s: State, v: Value, s1: State, x: Value, s2: State,
                 path: seq<nat>, w: Value)
    requires Shaped(s) && Eval(fuel, o, s) == Ok((v, s1)) && IsReceiver(s1, v) && Shaped(s1)
    requires Eval(fuel, e, s1) == Ok((x, s2)) && x != VNil && x != VUnset
    requires Climbs(s2.cells, v, m, path, w) && (w.VInt? || w.VBool? || w.VNull?)
    ensures Eval(fuel + 1, MethodCall(o, m, [e]), s)
         == match Operate(w, m, x)
            case NoOperation => Ok((VNil, s2))
            case Fails(stop) => Halted(stop)
            case Computes(y) => New(s2, y, SizeOf(y))
  {
    hide Eval, Operate, Find, New;
    assert InOrder(fuel, [e], [s1, s2], [x]);
    MethodForm(fuel, o, m, [e], s, v, [s1, s2], [x]);
    FindsEnd(s2.cells, v, m, path, w);
    CallOfPrimitive(fuel, v, m, x, s2, w);
  }

  lemma CallOfPrimitive(fuel: nat, v: Value, m: string, x: Value, s: State, w: Value)
    requires Shaped(s) && Find(s.cells, v, m) == ChainEnd(w) && (w.VInt? || w.VBool? || w.VNull?)
    requires x != VNil && x != VUnset
    ensures CallMethod(fuel, v, m, [x], s)
         == match Operate(w, m, x)
            case NoOperation => Ok((VNil, s))
            case Fails(stop) => Halted(stop)
            case Computes(y) => New(s, y, SizeOf(y))
  {
    hide Operate, Find, New, Invoke;
  }

  // Conjunction and disjunction.
  lemma Booleans(b: bool, c: bool)
    ensures Operate(VBool(b), "&", VBool(c)) == Computes(VBool(if b then c else false))
    ensures Operate(VBool(b), "|", VBool(c)) == Computes(VBool(if b then true else c))
  {
  }

  // Equality of numbers, booleans and null, and its opposite; a boolean is compared with
  // booleans alone.
  lemma Equality(v: Value, w: Value)
    requires v.VInt? || v.VBool? || v.VNull?
    ensures var same := match v
              case VInt(i) => w.VInt? && w.i == i
              case VBool(b) => w.VBool? && w.b == b
              case _ => w.VNull?;
            if v.VBool? && !w.VBool? then Operate(v, "==", w) == Operate(v, "!=", w) == Fails(KIND)
            else Operate(v, "==", w) == Computes(VBool(same)) && Operate(v, "!=", w) == Computes(VBool(!same))
  {
  }

  // Numbers: the mathematical result where it has 32 bits, and no result of a division
  // without one.
  lemma Numbers(x: int, y: int)
    requires Int32(x) && Int32(y)
    ensures Int32(x + y) ==> Operate(VInt(x), "+", VInt(y)) == Computes(VInt(x + y))
    ensures Int32(x - y) ==> Operate(VInt(x), "-", VInt(y)) == Computes(VInt(x - y))
    ensures Int32(x * y) ==> Operate(VInt(x), "*", VInt(y)) == Computes(VInt(x * y))
    ensures y == 0 || (x == -0x8000_0000 && y == -1) <==> Operate(VInt(x), "/", VInt(y)) == Fails(ARITHMETIC)
    ensures y == 0 || (x == -0x8000_0000 && y == -1) <==> Operate(VInt(x), "%", VInt(y)) == Fails(ARITHMETIC)
    ensures Operate(VInt(x), "<", VInt(y)) == Computes(VBool(x < y))
    ensures Operate(VInt(x), "<=", VInt(y)) == Computes(VBool(x <= y))
    ensures Operate(VInt(x), ">", VInt(y)) == Computes(VBool(x > y))
    ensures Operate(VInt(x), ">=", VInt(y)) == Computes(VBool(x >= y))
  {
    hide Quotient, Remainder;
  }

  // --------------------------------------------------------------------- arrays

  // An index access reads the element, an index assignment stores into it and gives the
  // array; outside the array both stop.
  lemma IndexReads(fuel: nat, o: Ast, e: Ast, s: State, v: Value, s1: State, n: int, s2: State, path: seq<nat>, a: nat)
    requires Shaped(s) && Eval(fuel, o, s) == Ok((v, s1)) && Shaped(s1) && Eval(fuel, e, s1) == Ok((VInt(n), s2))
    requires Climbs(s2.cells, v, "get", path, VRef(a)) && a < |s2.cells| && s2.cells[a].Arr?
    ensures Eval(fuel + 1, IndexAccess(o, e), s)
         == if 0 <= n < |s2.cells[a].elems| then Ok((s2.cells[a].elems[n], s2)) else Halted(BOUNDS)
  {
    hide Eval, Find, CallMethod;
    assert InOrder(fuel, [e], [s1, s2], [VInt(n)]);
    ArgumentsInOrder(fuel, [e], [s1, s2], [VInt(n)]);
    FindsEnd(s2.cells, v, "get", path, VRef(a));
    IndexForm(fuel, o, e, s);
    CallsGet(fuel, v, n, s2, a);
  }

  lemma IndexForm(fuel: nat, o: Ast, e: Ast, s: State)
    requires Shaped(s)
    ensures Eval(fuel + 1, IndexAccess(o, e), s) == EvalIndex(fuel, o, e, s)
  {
  }

  lemma CallsGet(fuel: nat, v: Value, n: int, s: State, a: nat)
    requires Shaped(s) && a < |s.cells| && s.cells[a].Arr? && Find(s.cells, v, "get") == ChainEnd(VRef(a))
    ensures CallMethod(fuel, v, "get", [VInt(n)], s)
         == if 0 <= n < |s.cells[a].elems| then Ok((s.cells[a].elems[n], s)) else Halted(BOUNDS)
  {
    hide Find, Invoke;
  }

  lemma IndexWrites(fuel: nat, o: Ast, e: Ast, rhs: Ast, s: State, v: Value, s1: State, n: int, s2: State,
                    w: Value, s3: State, path: seq<nat>, a: nat)
    requires Shaped(s) && Eval(fuel, o, s) == Ok((v, s1)) && Shaped(s1) && Eval(fuel, e, s1) == Ok((VInt(n), s2))
    requires Shaped(s2) && Eval(fuel, rhs, s2) == Ok((w, s3))
    requires Climbs(s3.cells, v, "set", path, VRef(a)) && a < |s3.cells| && s3.cells[a].Arr?
    ensures Eval(fuel + 1, IndexAssignment(o, e, rhs), s)
         == if 0 <= n < |s3.cells[a].elems| then
              Ok((VRef(a), s3.(cells := s3.cells[a := Arr(s3.cells[a].elems[n := w])])))
            else Halted(BOUNDS)
  {
    hide Eval, Find, CallMethod;
    assert InOrder(fuel, [e, rhs], [s1, s2, s3], [VInt(n), w]);
    ArgumentsInOrder(fuel, [e, rhs], [s1, s2, s3], [VInt(n), w]);
    FindsEnd(s3.cells, v, "set", path, VRef(a));
    IndexAssignmentForm(fuel, o, e, rhs, s);
    CallsSet(fuel, v, n, w, s3, a);
  }

  lemma IndexAssignmentForm(fuel: nat, o: Ast, e: Ast, rhs: Ast, s: State)
    requires Shaped(s)
    ensures Eval(fuel + 1, IndexAssignment(o, e, rhs), s) == EvalIndexAssignment(fuel, o, e, rhs, s)
  {
  }

  lemma CallsSet(fuel: nat, v: Value, n: int, w: Value, s: State, a: nat)
    requires Shaped(s) && a < |s.cells| && s.cells[a].Arr? && Find(s.cells, v, "set") == ChainEnd(VRef(a))
    ensures CallMethod(fuel, v, "set", [VInt(n), w], s)
         == if 0 <= n < |s.cells[a].elems| then
              Ok((VRef(a), s.(cells := s.cells[a := Arr(s.cells[a].elems[n := w])])))
            else Halted(BOUNDS)
  {
    hide Find, Invoke;
  }

  // The expression is evaluated in a scope of its own and its value stored in a slot.
  ghost predicate StoresElement(fuel: nat, e: Ast, s: State, v: Value, a: nat, i: nat, t: State) {
    Shaped(s) && var r := Eval(fuel + 1, Block([e]), s);
    && r.Ok? && r.value.0 == v
    && var u := r.value.1;
    && a < |u.cells| && u.cells[a].Arr? && i < |u.cells[a].elems|
    && t == u.(cells := u.cells[a := Arr(u.cells[a].elems[i := v])])
  }

  lemma {:induction false} ArrayFilled(fuel: nat, a: nat, i: nat, n: nat, init: Ast, s: State)
    returns (ss: seq<State>, vs: seq<Value>)
    requires S.Good({a}, s) && i <= n && S.Runnable(init) && Shaped(s)
    requires a < |s.cells| && s.cells[a].Arr? && |s.cells[a].elems| == n
    requires S.ValuesOk({a}, |s.cells|, s.cells[a].elems[..i])
    requires FillArray(fuel, a, i, n, init, s).Ok?
    ensures |vs| == n - i && |ss| == n - i + 1 && ss[0] == s && ss[n - i] == FillArray(fuel, a, i, n, init, s).value
    ensures forall j :: 0 <= j < n - i ==> StoresElement(fuel, init, ss[j], vs[j], a, i + j, ss[j + 1])
    ensures a < |ss[n - i].cells| && ss[n - i].cells[a] == Arr(s.cells[a].elems[..i] + vs)
    decreases n - i
  {
    hide Eval, S.Good, EvalScoped, S.Untouched, S.ValueOk;
    if i == n {
      ss, vs := [s], [];
      assert s.cells[a].elems[..i] + [] == s.cells[a].elems;
    } else {
      S.ScopedSound({a}, fuel, init, s);
      OwnScope(fuel, init, s);
      var (v, t) := EvalScoped(fuel, init, s).value;
      assert {} + {a} == {a};
      S.StoreNext({}, a, i, s, t, v);
      var u := WithElement(t, a, i, v);
      assert Shaped(u) by { S.KeptGood({a}, s, t); }
      var more, rest := ArrayFilled(fuel, a, i + 1, n, init, u);
      ss, vs := [s] + more, [v] + rest;
      assert u.cells[a].elems[..i + 1] + rest == s.cells[a].elems[..i] + vs;
    }
  }

  // An array has the size asked for. Its initialiser is evaluated once for each element,
  // first to last, each time in a scope of its own, and the values are its elements.
  lemma Arrays(fuel: nat, n: Ast, init: Ast, s: State) returns (k: nat, s1: State, ss: seq<State>, vs: seq<Value>)
    requires S.Good({}, s) && Shaped(s) && S.Runnable(n) && S.Runnable(init)
    requires Eval(fuel + 1, Array(n, init), s).Ok?
    ensures Eval(fuel, n, s) == Ok((VInt(k), s1))
    ensures |vs| == k && |ss| == k + 1
    ensures ss[0] == s1.(cells := s1.cells + [Arr(seq(k, _ => VUnset))], used := H.After(s1.used, H.ArraySize(k)))
    ensures forall j :: 0 <= j < k ==> StoresElement(fuel, init, ss[j], vs[j], |s1.cells|, j, ss[j + 1])
    ensures Eval(fuel + 1, Array(n, init), s) == Ok((VRef(|s1.cells|), ss[k]))
    ensures |s1.cells| < |ss[k].cells| && ss[k].cells[|s1.cells|] == Arr(vs)
  {
    hide Eval, FillArray, S.Good, S.Untouched, S.ValueOk;
    ArrayForm(fuel, n, init, s);
    S.EvalSound({}, fuel, n, s);
    var size;
    size, s1 := Eval(fuel, n, s).value.0, Eval(fuel, n, s).value.1;
    k := size.i;
    var a := |s1.cells|;
    S.BlankArray({}, a, k);
    S.BeginSound({}, s1, Arr(seq(k, _ => VUnset)), H.ArraySize(k));
    var u := s1.(cells := s1.cells + [Arr(seq(k, _ => VUnset))], used := H.After(s1.used, H.ArraySize(k)));
    assert {} + {a} == {a};
    ss, vs := ArrayFilled(fuel, a, 0, k, init, u);
    assert u.cells[a].elems[..0] + vs == vs;
  }

  lemma ArrayForm(fuel: nat, n: Ast, init: Ast, s: State)
    requires Shaped(s)
    ensures Eval(fuel + 1, Array(n, init), s) == EvalArray(fuel, n, init, s)
  {
  }

  // -------------------------------------------------------------------- objects

  ghost predicate StoresMember(fuel: nat, m: Ast, s: State, v: Value, a: nat, i: nat, t: State) {
    Shaped(s) && m.Definition? && var r := Eval(fuel + 1, Block([m.defValue]), s);
    && r.Ok? && r.value.0 == v
    && var u := r.value.1;
    && a < |u.cells| && u.cells[a].Obj? && i < |u.cells[a].fields|
    && t == u.(cells := u.cells[a := Obj(u.cells[a].parent, u.cells[a].fields[i := Field(m.defName, v)])])
  }

  // Fields nothing was stored in.
  function NoFields(n: nat): (fields: seq<Field>)
    ensures |fields| == n
  {
    seq(n, _ => Field("", VUnset))
  }

  // Fields of the names of the members and the values given.
  function Fields(members: seq<Ast>, vs: seq<Value>): (fields: seq<Field>)
    requires |members| == |vs| && forall m :: m in members ==> m.Definition?
    ensures |fields| == |vs|
    ensures forall j :: 0 <= j < |vs| ==> fields[j] == Field(members[j].defName, vs[j])
  {
    seq(|vs|, j requires 0 <= j < |vs| && j < |members| && members[j] in members => Field(members[j].defName, vs[j]))
  }

  lemma {:induction false} ObjectFilled(fuel: nat, a: nat, i: nat, members: seq<Ast>, s: State)
    returns (ss: seq<State>, vs: seq<Value>)
    requires S.Good({a}, s) && Shaped(s) && i <= |members|
    requires forall m :: m in members ==> m.Definition? && S.Runnable(m)
    requires a < |s.cells| && s.cells[a].Obj? && |s.cells[a].fields| == |members|
    requires S.FieldsOk({a}, |s.cells|, s.cells[a].fields[..i])
    requires FillObject(fuel, a, i, members, s).Ok?
    ensures |vs| == |members| - i && |ss| == |members| - i + 1
    ensures ss[0] == s && ss[|members| - i] == FillObject(fuel, a, i, members, s).value
    ensures forall j :: i <= j < |members| ==>
              StoresMember(fuel, members[j], ss[j - i], vs[j - i], a, j, ss[j - i + 1])
    ensures a < |ss[|members| - i].cells| && ss[|members| - i].cells[a].Obj?
    ensures var Obj(parent, fields) := ss[|members| - i].cells[a];
            && parent == s.cells[a].parent && |fields| == |members|
            && (forall j :: 0 <= j < i ==> fields[j] == s.cells[a].fields[j])
            && forall j :: i <= j < |members| ==>
                 members[j].Definition? && fields[j] == Field(members[j].defName, vs[j - i])
    decreases |members| - i
  {
    hide Eval, FillObject, S.Good, S.FieldsOk, StoresMember, Shaped, S.Runnable;
    if i == |members| {
      ss, vs := [s], [];
      NoMember(fuel, a, members, s);
    } else {
      assert members[i] in members;
      var v, u := MemberFilled(fuel, a, i, members, s);
      var more, rest := ObjectFilled(fuel, a, i + 1, members, u);
      ss, vs := [s] + more, [v] + rest;
    }
  }

  lemma NoMember(fuel: nat, a: nat, members: seq<Ast>, s: State)
    requires Shaped(s)
    ensures FillObject(fuel, a, |members|, members, s) == Ok(s)
  {
  }

  // One more member of the object under construction.
  lemma MemberFilled(fuel: nat, a: nat, i: nat, members: seq<Ast>, s: State) returns (v: Value, u: State)
    requires S.Good({a}, s) && Shaped(s) && i < |members| && members[i].Definition? && S.Runnable(members[i])
    requires a < |s.cells| && s.cells[a].Obj? && |s.cells[a].fields| == |members|
    requires S.FieldsOk({a}, |s.cells|, s.cells[a].fields[..i])
    requires FillObject(fuel, a, i, members, s).Ok?
    ensures StoresMember(fuel, members[i], s, v, a, i, u)
    ensures S.Good({a}, u) && Shaped(u) && FillObject(fuel, a, i + 1, members, u) == FillObject(fuel, a, i, members, s)
    ensures a < |u.cells| && u.cells[a].Obj? && S.FieldsOk({a}, |u.cells|, u.cells[a].fields[..i + 1])
    ensures u.cells[a].parent == s.cells[a].parent
    ensures u.cells[a].fields == s.cells[a].fields[i := Field(members[i].defName, v)]
  {
    hide Eval, S.Good, EvalScoped, S.Untouched, S.ValueOk, S.FieldsOk, Placeholders;
    var x, e := members[i].defName, members[i].defValue;
    S.ScopedSound({a}, fuel, e, s);
    OwnScope(fuel, e, s);
    var t;
    v, t := EvalScoped(fuel, e, s).value.0, EvalScoped(fuel, e, s).value.1;
    assert {} + {a} == {a};
    S.StoreMember({}, a, i, x, s, t, v);
    u := WithField(t, a, i, x, v);
    assert Shaped(u) by { S.KeptGood({a}, s, t); }
  }

  // From a new object with its parent, members are stored one after the other, and the
  // values stored are its fields in the end.
  ghost predicate Built(fuel: nat, members: seq<Ast>, parent: Value, s: State, ss: seq<State>, vs: seq<Value>) {
    && |vs| == |members| && |ss| == |members| + 1 && (forall m :: m in members ==> m.Definition?)
    && ss[0] == s.(cells := s.cells + [Obj(parent, NoFields(|members|))],
                   used := H.After(s.used, H.ObjectSize(|members|)))
    && (forall j :: 0 <= j < |members| ==> StoresMember(fuel, members[j], ss[j], vs[j], |s.cells|, j, ss[j + 1]))
    && |s.cells| < |ss[|members|].cells|
    && ss[|members|].cells[|s.cells|] == Obj(parent, Fields(members, vs))
  }

  // An object has the parent evaluated first and the fields of its members, in order,
  // each evaluated once in a scope of its own.
  lemma Objects(fuel: nat, ext: Ast, members: seq<Ast>, s: State)
    returns (parent: Value, s1: State, ss: seq<State>, vs: seq<Value>)
    requires S.Good({}, s) && Shaped(s) && S.Runnable(ext)
    requires forall m :: m in members ==> m.Definition? && S.Runnable(m)
    requires Eval(fuel + 1, Object(ext, members), s).Ok?
    ensures Eval(fuel, ext, s) == Ok((parent, s1))
    ensures Built(fuel, members, parent, s1, ss, vs)
    ensures Eval(fuel + 1, Object(ext, members), s) == Ok((VRef(|s1.cells|), ss[|members|]))
  {
    hide Eval, FillObject, S.Good, Built, Shaped, S.Runnable, NoFields;
    var u;
    parent, s1, u := ObjectBegun(fuel, ext, members, s);
    ss, vs := ObjectBuilt(fuel, members, parent, s1, u);
  }

  lemma ObjectBuilt(fuel: nat, members: seq<Ast>, parent: Value, s: State, u: State)
    returns (ss: seq<State>, vs: seq<Value>)
    requires S.Good({|s.cells|}, u) && Shaped(u) && FillObject(fuel, |s.cells|, 0, members, u).Ok?
    requires forall m :: m in members ==> m.Definition? && S.Runnable(m)
    requires u == s.(cells := s.cells + [Obj(parent, NoFields(|members|))],
                     used := H.After(s.used, H.ObjectSize(|members|)))
    ensures Built(fuel, members, parent, s, ss, vs)
    ensures FillObject(fuel, |s.cells|, 0, members, u) == Ok(ss[|members|])
  {
    hide Eval, FillObject, S.Good, StoresMember, Fields, NoFields, Shaped, S.Runnable;
    ss, vs := ObjectFilled(fuel, |s.cells|, 0, members, u);
    FieldsAre(ss[|members|].cells[|s.cells|].fields, members, vs);
  }

  lemma FieldsAre(fields: seq<Field>, members: seq<Ast>, vs: seq<Value>)
    requires |fields| == |members| == |vs| && forall m :: m in members ==> m.Definition?
    requires forall j :: 0 <= j < |members| ==>
               members[j].Definition? && fields[j] == Field(members[j].defName, vs[j - 0])
    ensures fields == Fields(members, vs)
  {
  }

  // The object with its parent and no field stored yet.
  lemma ObjectBegun(fuel: nat, ext: Ast, members: seq<Ast>, s: State) returns (parent: Value, s1: State, u: State)
    requires S.Good({}, s) && Shaped(s) && S.Runnable(ext) && Eval(fuel + 1, Object(ext, members), s).Ok?
    ensures Eval(fuel, ext, s) == Ok((parent, s1))
    ensures u == s1.(cells := s1.cells + [Obj(parent, NoFields(|members|))],
                     used := H.After(s1.used, H.ObjectSize(|members|)))
    ensures S.Good({|s1.cells|}, u) && Shaped(u)
    ensures FillObject(fuel, |s1.cells|, 0, members, u).Ok?
    ensures Eval(fuel + 1, Object(ext, members), s)
         == Ok((VRef(|s1.cells|), FillObject(fuel, |s1.cells|, 0, members, u).value))
  {
    hide Eval, FillObject, S.Good, S.Untouched, S.ValueOk, Placeholders;
    ObjectForm(fuel, ext, members, s);
    S.EvalSound({}, fuel, ext, s);
    parent, s1 := Eval(fuel, ext, s).value.0, Eval(fuel, ext, s).value.1;
    var blank := Obj(parent, seq(|members|, _ => Field("", VUnset)));
    assert blank.fields == NoFields(|members|);
    S.BlankObject({}, s1, parent, |members|);
    S.BeginSound({}, s1, blank, H.ObjectSize(|members|));
    u := s1.(cells := s1.cells + [blank], used := H.After(s1.used, H.ObjectSize(|members|)));
    assert {} + {|s1.cells|} == {|s1.cells|};
  }

  lemma ObjectForm(fuel: nat, ext: Ast, members: seq<Ast>, s: State)
    requires Shaped(s)
    ensures Eval(fuel + 1, Object(ext, members), s) == EvalObject(fuel, ext, members, s)
  {
  }

  // --------------------------------------------------------------------- output

  // A print evaluates its arguments, then adds one record with as many of them as the
  // format has placeholders, and gives null.
  lemma Prints(fuel: nat, format: string, es: seq<Ast>, s: State, ss: seq<State>, vs: seq<Value>)
    requires InOrder(fuel, es, ss, vs) && ss[0] == s && Placeholders(format) <= |es|
    requires forall i :: 0 <= i < Placeholders(format) ==> vs[i] != VNil && vs[i] != VUnset
    requires H.Fits(ss[|es|].used, H.NULL_SZ)
    ensures var t := ss[|es|];
            Eval(fuel + 1, Print(format, es), s)
            == Ok((VNull, t.(output := t.output + [Printed(format, vs[..Placeholders(format)])],
                             used := H.After(t.used, H.NULL_SZ))))
  {
    hide Placeholders;
    ArgumentsInOrder(fuel, es, ss, vs);
    AllGood(vs[..Placeholders(format)]);
    PrintForm(fuel, format, es, s);
  }

  lemma {:induction false} AllGood(vs: seq<Value>)
    requires forall i :: 0 <= i < |vs| ==> vs[i] != VNil && vs[i] != VUnset
    ensures AllUsable(vs) == Ok(())
    decreases |vs|
  {
    if vs != [] { AllGood(vs[1..]); }
  }

  lemma PrintForm(fuel: nat, format: string, es: seq<Ast>, s: State)
    requires Shaped(s)
    ensures Eval(fuel + 1, Print(format, es), s) == EvalPrint(fuel, format, es, s)
  {
    hide Placeholders;
  }
}
