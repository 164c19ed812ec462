/** Where the tree-walking interpreter finds fields and methods. */
module AstFields {
  import opened AstValues
  import opened AstSpec
  import opened AstSound

  // The objects a lookup passes, the receiver first.
  function Chain(cells: seq<Cell>, v: Value): seq<nat>
    decreases if v.VRef? then v.a + 1 else 0
  {
    if !IsObject(cells, v) then []
    else
      var up := cells[v.a].parent;
      [v.a] + if up.VRef? && up.a >= v.a then [] else Chain(cells, up)
  }

  predicate Defines(cells: seq<Cell>, a: nat, name: string) {
    a < |cells| && cells[a].Obj? && exists i :: 0 <= i < |cells[a].fields| && cells[a].fields[i].name == name
  }

  ghost predicate Nearest(cells: seq<Cell>, chain: seq<nat>, name: string, r: Found) {
    match r
    case Slot(a, _) =>
      exists n :: 0 <= n < |chain| && chain[n] == a && Defines(cells, a, name)
                  && forall m :: 0 <= m < n ==> !Defines(cells, chain[m], name)
    case _ => forall m :: 0 <= m < |chain| ==> !Defines(cells, chain[m], name)
  }

  // In a sound state a lookup finds the first object on the chain that defines the name,
  // if there is one; the chain goes from child to older parent.
  lemma {:induction false} NearestDefinition(p: set<nat>, s: State, v: Value, name: string)
    requires Good(p, s) && Has(p, s, v)
    ensures Nearest(s.cells, Chain(s.cells, v), name, Find(s.cells, v, name))
    ensures forall m, n :: 0 <= m < n < |Chain(s.cells, v)| ==> Chain(s.cells, v)[n] < Chain(s.cells, v)[m]
    ensures Chain(s.cells, v) != [] ==> v.VRef? && Chain(s.cells, v)[0] == v.a
    decreases if v.VRef? then v.a + 1 else 0
  {
    hide EnvsOk, Shaped;
    if IsObject(s.cells, v) {
      assert CellOk(p, |s.cells|, v.a, s.cells[v.a]);
      var up := s.cells[v.a].parent;
      NearestDefinition(p, s, up, name);
      StepUp(s.cells, v, name);
    }
  }

  lemma StepUp(cells: seq<Cell>, v: Value, name: string)
    requires IsObject(cells, v)
    requires var up := cells[v.a].parent;
             (up.VRef? ==> up.a < v.a) && Nearest(cells, Chain(cells, up), name, Find(cells, up, name))
    ensures Nearest(cells, Chain(cells, v), name, Find(cells, v, name))
  {
    var up := cells[v.a].parent;
    var rest, r := Chain(cells, up), Find(cells, up, name);
    assert Chain(cells, v) == [v.a] + rest;
    var fields := cells[v.a].fields;
    if FieldIndex(fields, name) < |fields| {
      assert Chain(cells, v)[0] == v.a && Defines(cells, v.a, name);
    } else {
      assert !Defines(cells, v.a, name);
      if r.Slot? {
        var n :| 0 <= n < |rest| && rest[n] == r.a && forall m :: 0 <= m < n ==> !Defines(cells, rest[m], name);
        assert Chain(cells, v)[n + 1] == r.a;
      }
    }
  }
}
