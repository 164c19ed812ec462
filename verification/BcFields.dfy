/** Inherited fields: where a lookup finds its slot, and what an update changes. */
module BcFields {
  import opened Bytecode
  import opened BcSpec
  import opened BcValues
  import opened Operators

  // The objects a lookup passes, the receiver first.
  function Chain(cells: seq<Cell>, v: Value): seq<nat>
    decreases if v.VRef? then v.a + 1 else 0
  {
    if !IsObject(cells, v) then []
    else
      var up := cells[v.a].parent;
      [v.a] + if up.VRef? && up.a >= v.a then [] else Chain(cells, up)
  }

  predicate Defines(cells: seq<Cell>, a: nat, name: string) {
    a < |cells| && cells[a].Obj? && exists i :: 0 <= i < |cells[a].fields| && cells[a].fields[i].name == name
  }

  // From `v` through parents, each older than its child, to a value that is no object.
  predicate Leads(cells: seq<Cell>, v: Value, chain: seq<nat>)
    decreases |chain|
  {
    if chain == [] then !IsObject(cells, v)
    else
      && IsObject(cells, v) && chain[0] == v.a && (|chain| > 1 ==> chain[1] < chain[0])
      && Leads(cells, cells[v.a].parent, chain[1..])
  }

  // The first object on the chain that defines the name, if there is one.
  ghost predicate Nearest(cells: seq<Cell>, chain: seq<nat>, name: string, r: Lookup) {
    match r
    case Slot(a, _) =>
      exists n :: 0 <= n < |chain| && chain[n] == a && Defines(cells, a, name)
                  && forall m :: 0 <= m < n ==> !Defines(cells, chain[m], name)
    case ChainEnd(_) => forall m :: 0 <= m < |chain| ==> !Defines(cells, chain[m], name)
    case BadChain => false
  }

  // On a heap whose parents are older than their children a lookup ends, at the first
  // object of a chain from child to parent that defines the name, if there is one.
  lemma {:induction false} NearestDefinition(p: Program, cells: seq<Cell>, v: Value, name: string)
    requires CellsOk(p, cells, false) && ValueOk(p, |cells|, v, false)
    ensures Leads(cells, v, Chain(cells, v))
    ensures Nearest(cells, Chain(cells, v), name, Find(cells, v, name))
    decreases if v.VRef? then v.a + 1 else 0
  {
    if IsObject(cells, v) {
      assert CellOk(p, cells, v.a, false);
      NearestDefinition(p, cells, cells[v.a].parent, name);
      StepUp(cells, v, name);
    }
  }

  lemma StepUp(cells: seq<Cell>, v: Value, name: string)
    requires IsObject(cells, v)
    requires var up := cells[v.a].parent;
             && (up.VRef? ==> up.a < v.a) && Leads(cells, up, Chain(cells, up))
             && Nearest(cells, Chain(cells, up), name, Find(cells, up, name))
    ensures Leads(cells, v, Chain(cells, v))
    ensures Nearest(cells, Chain(cells, v), name, Find(cells, v, name))
  {
    var up := cells[v.a].parent;
    var chain, rest, r := Chain(cells, v), Chain(cells, up), Find(cells, up, name);
    assert chain == [v.a] + rest && chain[1..] == rest;
    var fields := cells[v.a].fields;
    if FieldIndex(fields, name) < |fields| {
      assert chain[0] == v.a && Defines(cells, v.a, name);
    } else {
      assert !Defines(cells, v.a, name);
      if r.Slot? {
        var n :| 0 <= n < |rest| && rest[n] == r.a && forall m :: 0 <= m < n ==> !Defines(cells, rest[m], name);
        assert chain[n + 1] == r.a;
      }
    }
  }

  // So it is in every state that any run of any program reaches, for every value there.
  lemma ReachableLookups(p: Program, ss: seq<State>, v: Value, name: string)
    requires IsRun(p, ss) && Start(p) == Next(ss[0]) && ValueOk(p, |ss[|ss| - 1].cells|, v, false)
    ensures var cells := ss[|ss| - 1].cells;
            Leads(cells, v, Chain(cells, v)) && Nearest(cells, Chain(cells, v), name, Find(cells, v, name))
  {
    hide Step, Start, Find, Chain, Leads, Nearest;
    ReachableHeaps(p, ss);
    NearestDefinition(p, ss[|ss| - 1].cells, v, name);
  }

  lemma {:induction false} SameNames(fields: seq<Field>, i: nat, v: Value, name: string)
    requires i < |fields|
    ensures FieldIndex(fields[i := fields[i].(value := v)], name) == FieldIndex(fields, name)
  {
    var changed := fields[i := fields[i].(value := v)];
    if fields[0].name != name && |fields| > 1 && i > 0 {
      assert changed[1..] == fields[1..][i - 1 := fields[1..][i - 1].(value := v)];
      SameNames(fields[1..], i - 1, v, name);
    } else if i == 0 {
      assert changed[1..] == fields[1..];
    }
  }

  // Writing a field moves no slot: every lookup from anywhere resolves as before.
  lemma {:induction false} LookupsUnmoved(cells: seq<Cell>, a: nat, i: nat, v: Value, w: Value, name: string)
    requires a < |cells| && cells[a].Obj? && i < |cells[a].fields|
    ensures Find(WithField(cells, a, i, v), w, name) == Find(cells, w, name)
    decreases if w.VRef? then w.a + 1 else 0
  {
    var changed := WithField(cells, a, i, v);
    if IsObject(cells, w) {
      if w.a == a { SameNames(cells[a].fields, i, v, name); }
      var up := cells[w.a].parent;
      if !(up.VRef? && up.a >= w.a) { LookupsUnmoved(cells, a, i, v, up, name); }
    }
  }

  // What a field access of `w` reads, if it finds a slot.
  function Read(cells: seq<Cell>, w: Value, name: string): Value
    requires Find(cells, w, name).Slot?
  {
    var r := Find(cells, w, name);
    cells[r.a].fields[r.i].value
  }

  // The update law: after a field of any receiver is set, exactly the accesses that
  // resolve to the same slot read the new value, whatever object they start from; every
  // other access, and every array, is unchanged.
  lemma SetFieldLaw(p: Program, s: State, k: nat, w: Value, name: string)
    requires ExecSetField(p, s, k).Next?
    ensures var t := ExecSetField(p, s, k).state;
            var slot, found := Find(s.cells, Peek(s, 1), p.constants[k].s), Find(s.cells, w, name);
            && slot.Slot? && Find(t.cells, w, name) == found
            && (found.Slot? ==> Read(t.cells, w, name) == if found == slot then Peek(s, 0) else Read(s.cells, w, name))
            && |t.cells| == |s.cells|
            && forall b :: 0 <= b < |s.cells| && s.cells[b].Arr? ==> t.cells[b] == s.cells[b]
  {
    hide Find;
    var slot := Find(s.cells, Peek(s, 1), p.constants[k].s);
    var v := Peek(s, 0);
    LookupsUnmoved(s.cells, slot.a, slot.i, v, w, name);
    assert ExecSetField(p, s, k).state.cells == WithField(s.cells, slot.a, slot.i, v);
  }

  // ---------------------------------------------------------- what cells remain

  // An array of its size, or an object with its parent and the names of its fields.
  predicate CellKept(c: Cell, d: Cell) {
    match c
    case Arr(elems) => d.Arr? && |d.elems| == |elems|
    case Obj(parent, fields) =>
      && d.Obj? && d.parent == parent && |d.fields| == |fields|
      && forall i :: 0 <= i < |fields| ==> d.fields[i].name == fields[i].name
  }

  predicate CellsKept(a: seq<Cell>, b: seq<Cell>) {
    |a| <= |b| && forall i :: 0 <= i < |a| ==> CellKept(a[i], b[i])
  }

  // No step of any program changes kind, size, parent or field names of a cell.
  lemma StepKeepsCells(p: Program, s: State)
    requires |s.frames| > 0 && Step(p, s).Next?
    ensures CellsKept(s.cells, Step(p, s).state.cells)
  {
    hide Exec;
    match Fetch(p, s.ip)
    case Decoded(instr, length) => ExecKeepsCells(p, Moved(s, length), instr);
  }

  lemma ExecKeepsCells(p: Program, s: State, instr: Instr)
    requires |s.frames| > 0 && Exec(p, s, instr).Next?
    ensures CellsKept(s.cells, Exec(p, s, instr).state.cells)
  {
    hide ExecCallMethod, ExecArray, ExecObject, ExecSetField, Enter, GlobalStop, ExecConstant, ExecPrint, ExecGetField;
    match instr
    case Constant(_) => PushKeeps(p, s, instr);
    case Print(_, _) => PushKeeps(p, s, instr);
    case GetField(_) => PushKeeps(p, s, instr);
    case CallMethod(k, argc) => CallKeepsCells(p, s, k, argc);
    case CallFunction(argc) =>
      EnterKeepsCells(p, Popped(s, argc + 1), Peek(s, argc), argc, false, FunctionScratch(s, argc));
    case MakeArray => ArrayKeeps(s);
    case MakeObject(k) => ObjectKeeps(p, s, k);
    case SetField(k) => SetFieldKeeps(p, s, k);
    case _ =>
  }

  lemma PushKeeps(p: Program, s: State, instr: Instr)
    requires |s.frames| > 0 && (instr.Constant? || instr.Print? || instr.GetField?)
    ensures Exec(p, s, instr).Next? ==> Exec(p, s, instr).state.cells == s.cells
  {
    hide Find;
  }

  lemma EnterKeepsCells(p: Program, s: State, f: Value, argc: nat, isMethod: bool, scratch: seq<Value>)
    ensures Enter(p, s, f, argc, isMethod, scratch).Next? ==>
              Enter(p, s, f, argc, isMethod, scratch).state.cells == s.cells
  {
  }

  lemma ArrayKeeps(s: State)
    ensures ExecArray(s).Next? ==> CellsKept(s.cells, ExecArray(s).state.cells)
  {
  }

  lemma ObjectKeeps(p: Program, s: State, k: nat)
    ensures ExecObject(p, s, k).Next? ==> CellsKept(s.cells, ExecObject(p, s, k).state.cells)
  {
    hide MakeFields;
  }

  lemma SetFieldKeeps(p: Program, s: State, k: nat)
    ensures ExecSetField(p, s, k).Next? ==> CellsKept(s.cells, ExecSetField(p, s, k).state.cells)
  {
    hide Find;
  }

  lemma CallKeepsCells(p: Program, s: State, k: nat, argc: nat)
    requires ExecCallMethod(p, s, k, argc).Next?
    ensures CellsKept(s.cells, ExecCallMethod(p, s, k, argc).state.cells)
  {
    hide Find, Operation, ArraySet, ArrayGet, IsOperation;
    var u, scratch := Popped(s, MethodPops(argc)), MethodScratch(s, argc);
    match Find(s.cells, scratch[0], p.constants[k].s)
    case Slot(_, _) =>
    case ChainEnd(v) =>
      if IsArray(s.cells, v) {
        ArrayKeepsCells(u, v.a, argc, scratch);
      } else if IsPrimitive(v) && IsOperation(v, p.constants[k].s) {
        OperationKeepsCells(u, v, p.constants[k].s, scratch[1]);
      }
  }

  lemma ArrayKeepsCells(s: State, a: nat, argc: nat, scratch: seq<Value>)
    requires |scratch| == argc + 1 && a < |s.cells| && s.cells[a].Arr?
    ensures ArraySet(s, a, argc, scratch).Next? ==> CellsKept(s.cells, ArraySet(s, a, argc, scratch).state.cells)
    ensures ArrayGet(s, a, argc, scratch).Next? ==> CellsKept(s.cells, ArrayGet(s, a, argc, scratch).state.cells)
  {
  }

  lemma OperationKeepsCells(s: State, v: Value, name: string, second: Value)
    requires IsPrimitive(v) && IsOperation(v, name)
    ensures Operation(s, v, name, second).Next? ==> Operation(s, v, name, second).state.cells == s.cells
  {
    hide Arithmetic, Compares;
  }

  // Nor does any run: a parent chain leads through the same objects forever.
  lemma {:induction false} RunKeepsCells(p: Program, ss: seq<State>)
    requires IsRun(p, ss)
    ensures CellsKept(ss[0].cells, ss[|ss| - 1].cells)
    decreases |ss|
  {
    hide Step;
    if |ss| > 1 {
      var front := Front(p, ss);
      RunKeepsCells(p, front);
      StepKeepsCells(p, ss[|ss| - 2]);
    }
  }
}
