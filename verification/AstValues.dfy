/** Values, environments and outcomes of the tree-walking interpreter. */
module AstValues {
  import opened Ast

  // Integers, booleans, null and functions are never changed once made and stand for
  // themselves; arrays and objects are cells of the heap. VNil is the null pointer a
  // missing built-in returns, VUnset the content of a slot nothing was stored in.
  datatype Value =
    | VInt(i: int) | VBool(b: bool) | VNull
    | VFun(params: seq<string>, body: Ast)
    | VRef(a: nat)
    | VNil
    | VUnset

  datatype Field = Field(name: string, value: Value)
  datatype Cell = Arr(elems: seq<Value>) | Obj(parent: Value, fields: seq<Field>)

  // A scope binds names; `names` lists the bindings made by position, shadowed ones
  // included.
  datatype Scope = Scope(vars: map<string, Value>, names: seq<string>)

  // Scopes of one call, the innermost last.
  type Env = seq<Scope>

  datatype Printed = Printed(format: string, args: seq<Value>)

  // Environments of all active calls, the global one first.
  datatype State = State(envs: seq<Env>, cells: seq<Cell>, used: nat, output: seq<Printed>)

  const MAX_ENVS: nat := 256
  const MAX_SCOPES: nat := 256
  const MAX_VARS: nat := 256

  datatype Stop =
    | KIND          // a value of the wrong kind, a missing argument
    | NIL           // use of the null pointer
    | UNSET         // use of a slot nothing was stored in
    | ARITHMETIC    // division by zero or overflowing division
    | BOUNDS        // an array index or size out of range
    | NO_FIELD      // a parent chain without the field
    | PARAMETERS    // more arguments than parameters
    | PRINT_ARGS    // more placeholders than arguments
    | EMPTY_NAME    // a variable without a name, which no source text contains
    | DANGLING      // a reference to no cell, or a parent chain that climbs
    | VAR_LIMIT
    | SCOPE_LIMIT
    | ENV_LIMIT
    | HEAP_LIMIT
    | FUEL          // the run was cut off

  datatype Res<+T> = Ok(value: T) | Halted(stop: Stop) {
    predicate IsFailure() { Halted? }
    function PropagateFailure<U>(): Res<U>
      requires Halted?
    {
      Halted(stop)
    }
    function Extract(): T
      requires Ok?
    {
      value
    }
  }
}
