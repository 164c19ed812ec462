/** The syntax tree built by the parser and run by the tree-walking interpreter. */
module Ast {

  datatype Ast =
    | Null
    | Boolean(b: bool)
    | Integer(i: int)
    | Array(size: Ast, initializer: Ast)
    | Object(extends_: Ast, members: seq<Ast>)
    | Function(parameters: seq<string>, body: Ast)
    | Definition(defName: string, defValue: Ast)
    | VariableAccess(varName: string)
    | VariableAssignment(asgName: string, asgValue: Ast)
    | IndexAccess(ixObject: Ast, index: Ast)
    | IndexAssignment(ixaObject: Ast, ixaIndex: Ast, ixaValue: Ast)
    | FieldAccess(faObject: Ast, field: string)
    | FieldAssignment(fasObject: Ast, fasField: string, fasValue: Ast)
    | FunctionCall(callee: Ast, fcArgs: seq<Ast>)
    | MethodCall(receiver: Ast, method_: string, mcArgs: seq<Ast>)
    | Conditional(condition: Ast, consequent: Ast, alternative: Ast)
    | Loop(loopCondition: Ast, loopBody: Ast)
    | Print(format: string, printArgs: seq<Ast>)
    | Block(expressions: seq<Ast>)
    | Top(program: seq<Ast>)

  // The wrap-around of a mathematical integer to a 32-bit two's complement number.
  function Wrap32(x: int): (r: int)
    ensures -0x8000_0000 <= r < 0x8000_0000
    ensures -0x8000_0000 <= x < 0x8000_0000 ==> r == x
    ensures (r - x) % 0x1_0000_0000 == 0
  {
    var m := x % 0x1_0000_0000;
    if m < 0x8000_0000 then m else m - 0x1_0000_0000
  }

  // `~` placeholders of a print format; a backslash hides the next byte.
  function Placeholders(format: string): nat {
    if format == "" then 0
    else if format[0] == '\\' then (if |format| == 1 then 0 else Placeholders(format[2..]))
    else (if format[0] == '~' then 1 else 0) + Placeholders(format[1..])
  }

  // Tildes are counted, but for those behind a backslash that is not hidden itself.
  lemma {:induction false} CountsTildes(plain: string, c: char, format: string)
    requires '\\' !in plain
    ensures Placeholders(plain + format) == multiset(plain)['~'] + Placeholders(format)
    ensures Placeholders("\\" + [c] + format) == Placeholders(format) && Placeholders("\\") == 0
    decreases |plain|
  {
    assert ("\\" + [c] + format)[2..] == format;
    if plain == "" {
      assert plain + format == format;
    } else {
      assert (plain + format)[1..] == plain[1..] + format;
      assert plain == [plain[0]] + plain[1..];
      CountsTildes(plain[1..], c, format);
    }
  }

  // Object members must be definitions with pairwise different names.
  predicate MembersOk(members: seq<Ast>) {
    && (forall i :: 0 <= i < |members| ==> members[i].Definition?)
    && (forall i, j :: 0 <= j < i < |members| ==> members[i].defName != members[j].defName)
  }
}
