/**
 Checked programs that stop for what their text cannot be blamed for: a built-in without a
 result, a slot nothing was stored in, and a caller with too few slots.
 */
module BcExamples {
  import opened Bytecode
  import opened BcSpec
  import opened BcValues
  import opened BcSafety

  // Where an instruction stands in the code of a function.
  lemma Fetched(p: Program, f: nat, off: nat, instr: Instr)
    requires IsFunctionConstant(p, f) && Encodable(instr) && off + |Assemble(instr)| <= |p.constants[f].code|
    requires p.constants[f].code[off..off + |Assemble(instr)|] == Assemble(instr)
    ensures Fetch(p, Loc(f, off)) == Decoded(instr, |Assemble(instr)|)
  {
    hide Decode;
    DecodeAssemble(p.constants[f].code, off, instr);
  }

  // A push of a constant with a small index.
  lemma PushAt(code: seq<Byte>, off: nat, k: nat)
    requires off + 3 <= |code| && k < 256 && code[off] == 0x01 && code[off + 1] == k as Byte && code[off + 2] == 0
    ensures code[off..off + 3] == Assemble(Constant(k))
  {
  }

  // -------------------------------------------------- a built-in without a result

  // push 0; push 0; 0.get(0); drop; push 0; return
  const CODE: seq<Byte> := [0x01, 1, 0, 0x01, 1, 0, 0x07, 0, 0, 2, 0x00, 0x01, 1, 0, 0x0F]

  const GET_OF_INTEGER: Program :=
    Program([KString("get"), KInteger(0), KFunction(1, 0, CODE)], [], 2)

  const HEIGHTS: Heights :=
    map[Loc(2, 0) := 0, Loc(2, 3) := 1, Loc(2, 6) := 2, Loc(2, 10) := 1, Loc(2, 11) := 0, Loc(2, 14) := 1]

  function Running(off: int, operands: seq<Value>, used: nat): State {
    State(Loc(2, off), [Frame(Loc(2, 0), [VNull])], operands, [VNull, VNull, VNull], [], used, [])
  }

  const RUN: seq<State> :=
    [Running(0, [], 8), Running(3, [VInt(0)], 16), Running(6, [VInt(0), VInt(0)], 24), Running(10, [], 24)]

  lemma FetchConstant(off: nat)
    requires off == 0 || off == 3 || off == 11
    ensures Fetch(GET_OF_INTEGER, Loc(2, off)) == Decoded(Constant(1), 3)
  {
    hide Fetch, Decode;
    PushAt(CODE, off, 1);
    Fetched(GET_OF_INTEGER, 2, off, Constant(1));
  }

  lemma FetchCall()
    ensures Fetch(GET_OF_INTEGER, Loc(2, 6)) == Decoded(CallMethod(0, 2), 4)
  {
    hide Fetch, Decode;
    assert CODE[6..10] == Assemble(CallMethod(0, 2));
    Fetched(GET_OF_INTEGER, 2, 6, CallMethod(0, 2));
  }

  lemma FetchDrop()
    ensures Fetch(GET_OF_INTEGER, Loc(2, 10)) == Decoded(Drop, 1)
  {
    hide Fetch, Decode;
    assert CODE[10..11] == Assemble(Drop);
    Fetched(GET_OF_INTEGER, 2, 10, Drop);
  }

  lemma FetchReturn()
    ensures Fetch(GET_OF_INTEGER, Loc(2, 14)) == Decoded(Return, 1)
  {
    hide Fetch, Decode;
    assert CODE[14..15] == Assemble(Return);
    Fetched(GET_OF_INTEGER, 2, 14, Return);
  }

  lemma Row(off: int)
    requires Loc(2, off) in HEIGHTS
    ensures FlowOk(GET_OF_INTEGER, HEIGHTS, Loc(2, off))
  {
    hide Fetch;
    if off == 6 {
      FetchCall();
    } else if off == 10 {
      FetchDrop();
    } else if off == 14 {
      FetchReturn();
    } else {
      FetchConstant(off);
    }
  }

  lemma FitsTable()
    ensures Checked(GET_OF_INTEGER, HEIGHTS)
  {
    hide FlowOk;
    forall loc | loc in HEIGHTS ensures FlowOk(GET_OF_INTEGER, HEIGHTS, loc) {
      Row(loc.off);
    }
    assert forall k :: IsFunctionConstant(GET_OF_INTEGER, k) ==> k == 2;
  }

  lemma Starts()
    ensures Start(GET_OF_INTEGER) == Next(RUN[0])
  {
    var t := Start(GET_OF_INTEGER).state;
    assert t.globals == [VNull, VNull, VNull];
    assert FrameLocals([VNull], 1) == [VNull];
  }

  // The program fits its table and starts well, but `get` on an integer leaves nothing
  // on the stack, and the instruction after it finds no operand.
  lemma SilentGetUnderflows()
    ensures Checked(GET_OF_INTEGER, HEIGHTS)
    ensures IsRun(GET_OF_INTEGER, RUN) && Start(GET_OF_INTEGER) == Next(RUN[0])
    ensures Silent(GET_OF_INTEGER, RUN[2]) && Step(GET_OF_INTEGER, RUN[3]) == Halted(STACK_UNDERFLOW)
  {
    hide FlowOk, Start, Step, Silent;
    FitsTable();
    Starts();
    Constants();
    Get();
    Dropped();
  }

  lemma Constants()
    ensures Step(GET_OF_INTEGER, RUN[0]) == Next(RUN[1]) && Step(GET_OF_INTEGER, RUN[1]) == Next(RUN[2])
  {
    hide Fetch;
    FetchConstant(0);
    FetchConstant(3);
  }

  lemma Get()
    ensures Step(GET_OF_INTEGER, RUN[2]) == Next(RUN[3]) && Silent(GET_OF_INTEGER, RUN[2])
  {
    hide Fetch, Builtin, IsOperation, SilentCall;
    FetchCall();
    var m := Moved(RUN[2], 4);
    assert MethodScratch(m, 2) == [VInt(0), VInt(0), VUnset];
    GetIsSilent(Popped(m, 2));
    GetSilentCall(m);
  }

  lemma GetIsSilent(s: State)
    requires |s.frames| == 1 && |s.frames[0].locals| == 1
    ensures Builtin(s, VInt(0), "get", 2, [VInt(0), VInt(0), VUnset]) == Next(s)
  {
    hide IsOperation;
    GetNoOperation();
  }

  lemma GetSilentCall(m: State)
    requires m == Moved(RUN[2], 4)
    ensures SilentCall(GET_OF_INTEGER, m, 0, 2)
  {
    hide IsOperation;
    GetNoOperation();
  }

  lemma GetNoOperation()
    ensures !IsOperation(VInt(0), "get")
  {
  }

  lemma Dropped()
    ensures Step(GET_OF_INTEGER, RUN[3]) == Halted(STACK_UNDERFLOW)
  {
    hide Fetch;
    FetchDrop();
  }

  // --------------------------------------------- a slot nothing was stored in

  // push null; push m; object; .m(); return
  const MAIN: seq<Byte> := [0x01, 3, 0, 0x01, 1, 0, 0x04, 2, 0, 0x07, 0, 0, 1, 0x0F]

  // get local 1; branch on it; push null; return
  const METHOD: seq<Byte> := [0x0A, 1, 0, 0x0D, 0, 0, 0x01, 3, 0, 0x0F]

  const FIRST_LOCAL: Program :=
    Program([KString("m"), KFunction(1, 1, METHOD), KClass([0]), KNull, KFunction(1, 0, MAIN)], [], 4)

  const LOCAL_HEIGHTS: Heights :=
    map[Loc(4, 0) := 0, Loc(4, 3) := 1, Loc(4, 6) := 2, Loc(4, 9) := 1, Loc(4, 13) := 1,
        Loc(1, 0) := 0, Loc(1, 3) := 1, Loc(1, 6) := 0, Loc(1, 9) := 1]

  const OBJECT: Cell := Obj(VNull, [Field("m", VFunc(1))])

  function InMain(off: int, operands: seq<Value>, used: nat, cells: seq<Cell>): State {
    State(Loc(4, off), [Frame(Loc(4, 0), [VNull])], operands, [VNull, VNull, VNull, VNull, VNull], cells, used, [])
  }

  function InMethod(off: int, operands: seq<Value>): State {
    State(Loc(1, off), [Frame(Loc(4, 0), [VNull]), Frame(Loc(4, 13), [VRef(0), VUnset])], operands,
          [VNull, VNull, VNull, VNull, VNull], [OBJECT], 56, [])
  }

  const LOCAL_RUN: seq<State> :=
    [InMain(0, [], 8, []), InMain(3, [VNull], 8, []), InMain(6, [VNull, VFunc(1)], 8, []),
     InMain(9, [VRef(0)], 56, [OBJECT]), InMethod(0, []), InMethod(3, [VUnset])]

  // The instructions of the two functions.
  function MainInstr(off: int): Instr
    requires Loc(4, off) in LOCAL_HEIGHTS
  {
    if off == 0 then Constant(3)
    else if off == 3 then Constant(1)
    else if off == 6 then MakeObject(2)
    else if off == 9 then CallMethod(0, 1)
    else Return
  }

  function MethodInstr(off: int): Instr
    requires Loc(1, off) in LOCAL_HEIGHTS
  {
    if off == 0 then GetLocal(1) else if off == 3 then Branch(0) else if off == 6 then Constant(3) else Return
  }

  lemma MainFetched(off: int)
    requires Loc(4, off) in LOCAL_HEIGHTS
    ensures Fetch(FIRST_LOCAL, Loc(4, off)) == Decoded(MainInstr(off), |Assemble(MainInstr(off))|)
  {
    hide Fetch, Decode;
    var instr := MainInstr(off);
    if off <= 3 {
      PushAt(MAIN, off, instr.index);
    } else if off == 6 {
      assert MAIN[6..9] == Assemble(instr);
    } else if off == 9 {
      assert MAIN[9..13] == Assemble(instr);
    } else {
      assert MAIN[13..14] == Assemble(instr);
    }
    Fetched(FIRST_LOCAL, 4, off, instr);
  }

  lemma MethodFetched(off: int)
    requires Loc(1, off) in LOCAL_HEIGHTS
    ensures Fetch(FIRST_LOCAL, Loc(1, off)) == Decoded(MethodInstr(off), |Assemble(MethodInstr(off))|)
  {
    hide Fetch, Decode;
    var instr := MethodInstr(off);
    assert METHOD[off..off + |Assemble(instr)|] == Assemble(instr);
    Fetched(FIRST_LOCAL, 1, off, instr);
  }

  lemma MainRow(off: int)
    requires Loc(4, off) in LOCAL_HEIGHTS
    ensures FlowOk(FIRST_LOCAL, LOCAL_HEIGHTS, Loc(4, off))
  {
    hide Fetch;
    MainFetched(off);
  }

  lemma MethodRow(off: int)
    requires Loc(1, off) in LOCAL_HEIGHTS
    ensures FlowOk(FIRST_LOCAL, LOCAL_HEIGHTS, Loc(1, off))
  {
    hide Fetch;
    MethodFetched(off);
  }

  lemma LocalTable()
    ensures Checked(FIRST_LOCAL, LOCAL_HEIGHTS)
  {
    hide FlowOk;
    forall loc | loc in LOCAL_HEIGHTS ensures FlowOk(FIRST_LOCAL, LOCAL_HEIGHTS, loc) {
      if loc.func == 4 { MainRow(loc.off); } else { MethodRow(loc.off); }
    }
    assert forall k :: IsFunctionConstant(FIRST_LOCAL, k) ==> k == 1 || k == 4;
  }

  lemma LocalStarts()
    ensures Start(FIRST_LOCAL) == Next(LOCAL_RUN[0])
  {
    assert Start(FIRST_LOCAL).state.globals == LOCAL_RUN[0].globals;
    assert FrameLocals([VNull], 1) == [VNull];
  }

  lemma LocalNull()
    ensures Step(FIRST_LOCAL, LOCAL_RUN[0]) == Next(LOCAL_RUN[1])
  {
    hide Fetch;
    MainFetched(0);
  }

  lemma LocalFunction()
    ensures Step(FIRST_LOCAL, LOCAL_RUN[1]) == Next(LOCAL_RUN[2])
  {
    hide Fetch;
    MainFetched(3);
  }

  lemma LocalObject()
    ensures Step(FIRST_LOCAL, LOCAL_RUN[2]) == Next(LOCAL_RUN[3])
  {
    hide Fetch, ExecObject;
    MainFetched(6);
    assert Step(FIRST_LOCAL, LOCAL_RUN[2]) == ExecObject(FIRST_LOCAL, Moved(LOCAL_RUN[2], 3), 2);
    ObjectMade(Moved(LOCAL_RUN[2], 3));
  }

  lemma ObjectMade(s: State)
    requires s.operands == [VNull, VFunc(1)] && s.cells == [] && s.used == 8
    ensures ExecObject(FIRST_LOCAL, s, 2) == Next(s.(operands := [VRef(0)], cells := [OBJECT], used := 56))
  {
    assert s.operands[1..] == [VFunc(1)];
    assert MakeFields(FIRST_LOCAL, [0], [VFunc(1)]) == OBJECT.fields;
    assert Popped(s, 2).operands == [];
  }

  lemma LocalCall()
    ensures Step(FIRST_LOCAL, LOCAL_RUN[3]) == Next(LOCAL_RUN[4]) && Unsets(FIRST_LOCAL, LOCAL_RUN[3])
  {
    hide Fetch, ExecCallMethod, LeavesUnset;
    MainFetched(9);
    assert Step(FIRST_LOCAL, LOCAL_RUN[3]) == ExecCallMethod(FIRST_LOCAL, Moved(LOCAL_RUN[3], 4), 0, 1);
    MethodEntered(Moved(LOCAL_RUN[3], 4));
    MethodUnset();
  }

  lemma MethodEntered(s: State)
    requires s.operands == [VRef(0)] && s.cells == [OBJECT] && |s.frames| == 1
    ensures ExecCallMethod(FIRST_LOCAL, s, 0, 1)
         == Next(s.(operands := [], frames := s.frames + [Frame(s.ip, [VRef(0), VUnset])], ip := Loc(1, 0)))
  {
    hide Dispatch, MethodScratch, Popped;
    ReceiverOnly(s);
    assert FIRST_LOCAL.constants[0] == KString("m");
    MethodDispatched(s.(operands := []));
  }

  lemma ReceiverOnly(s: State)
    requires s.operands == [VRef(0)]
    ensures MethodScratch(s, 1) == [VRef(0), VUnset] && Popped(s, 1) == s.(operands := [])
  {
    assert s.operands[..0] == [];
  }

  lemma MethodDispatched(s: State)
    requires s.cells == [OBJECT]
    ensures Dispatch(FIRST_LOCAL, s, "m", 1, [VRef(0), VUnset])
         == Next(s.(frames := s.frames + [Frame(s.ip, [VRef(0), VUnset])], ip := Loc(1, 0)))
  {
    hide Find, Builtin;
    FindsMethod();
    assert FrameLocals([VRef(0), VUnset], 2) == [VRef(0), VUnset];
  }

  lemma MethodUnset()
    ensures LeavesUnset(FIRST_LOCAL, Moved(LOCAL_RUN[3], 4), 0, 1)
  {
    hide Find;
    FindsMethod();
  }

  lemma FindsMethod()
    ensures Find([OBJECT], VRef(0), "m") == Slot(0, 0)
  {
    assert FieldIndex(OBJECT.fields, "m") == 0;
  }

  lemma LocalRead()
    ensures Step(FIRST_LOCAL, LOCAL_RUN[4]) == Next(LOCAL_RUN[5])
    ensures Step(FIRST_LOCAL, LOCAL_RUN[5]) == Halted(UNSET)
  {
    hide Fetch;
    MethodFetched(0);
    MethodFetched(3);
  }

  // A method that reads its first local before storing anything there: the program fits
  // its table, but the call leaves the slot unset and the branch on it has no value.
  lemma FirstLocalUnset()
    ensures Checked(FIRST_LOCAL, LOCAL_HEIGHTS)
    ensures IsRun(FIRST_LOCAL, LOCAL_RUN) && Start(FIRST_LOCAL) == Next(LOCAL_RUN[0])
    ensures Unsets(FIRST_LOCAL, LOCAL_RUN[3]) && Step(FIRST_LOCAL, LOCAL_RUN[5]) == Halted(UNSET)
  {
    hide FlowOk, Start, Step, Unsets;
    LocalTable();
    LocalStarts();
    LocalNull();
    LocalFunction();
    LocalObject();
    LocalCall();
    LocalRead();
  }

  // --------------------------------------------------- a caller with too few slots

  // a := array(1, 0); a.set(0, 1); return
  const STORE: seq<Byte> := [0x01, 1, 0, 0x01, 2, 0, 0x03, 0x01, 2, 0, 0x01, 1, 0, 0x07, 0, 0, 3, 0x0F]

  // The program, with some locals it never uses.
  function SetInRange(locals: nat): Program {
    Program([KString("set"), KInteger(1), KInteger(0), KFunction(1, locals, STORE)], [], 3)
  }

  const STORE_HEIGHTS: Heights :=
    map[Loc(3, 0) := 0, Loc(3, 3) := 1, Loc(3, 6) := 2, Loc(3, 7) := 1, Loc(3, 10) := 2, Loc(3, 13) := 3,
        Loc(3, 17) := 1]

  function Storing(locals: nat, off: int, operands: seq<Value>, used: nat, cells: seq<Cell>): State {
    State(Loc(3, off), [Frame(Loc(3, 0), seq(1 + locals, _ => VNull))], operands, [VNull, VNull, VNull, VNull], cells,
          used, [])
  }

  function StoreRun(locals: nat): seq<State> {
    [Storing(locals, 0, [], 8, []), Storing(locals, 3, [VInt(1)], 16, []),
     Storing(locals, 6, [VInt(1), VInt(0)], 24, []), Storing(locals, 7, [VRef(0)], 48, [Arr([VInt(0)])]),
     Storing(locals, 10, [VRef(0), VInt(0)], 56, [Arr([VInt(0)])]),
     Storing(locals, 13, [VRef(0), VInt(0), VInt(1)], 64, [Arr([VInt(0)])])]
  }

  function StoreInstr(off: int): Instr
    requires Loc(3, off) in STORE_HEIGHTS
  {
    if off == 0 || off == 10 then Constant(1)
    else if off == 3 || off == 7 then Constant(2)
    else if off == 6 then MakeArray
    else if off == 13 then CallMethod(0, 3)
    else Return
  }

  lemma StoreFetched(locals: nat, off: int)
    requires Loc(3, off) in STORE_HEIGHTS
    ensures Fetch(SetInRange(locals), Loc(3, off)) == Decoded(StoreInstr(off), |Assemble(StoreInstr(off))|)
  {
    hide Fetch, Decode;
    var instr := StoreInstr(off);
    if off == 6 {
      assert STORE[6..7] == Assemble(instr);
    } else if off == 13 {
      assert STORE[13..17] == Assemble(instr);
    } else if off == 17 {
      assert STORE[17..18] == Assemble(instr);
    } else {
      PushAt(STORE, off, instr.index);
    }
    Fetched(SetInRange(locals), 3, off, instr);
  }

  lemma StoreTable(locals: nat)
    ensures Checked(SetInRange(locals), STORE_HEIGHTS)
  {
    hide Fetch;
    var p := SetInRange(locals);
    forall loc | loc in STORE_HEIGHTS ensures FlowOk(p, STORE_HEIGHTS, loc) {
      StoreFetched(locals, loc.off);
    }
    assert forall k :: IsFunctionConstant(p, k) ==> k == 3;
  }

  lemma StoreStarts(locals: nat)
    ensures Start(SetInRange(locals)) == Next(StoreRun(locals)[0])
  {
    var t := Start(SetInRange(locals)).state;
    assert t.globals == [VNull, VNull, VNull, VNull];
    assert t.frames[0].locals == seq(1 + locals, _ => VNull);
  }

  lemma StorePushes(locals: nat, i: nat)
    requires i == 0 || i == 1 || i == 3 || i == 4
    ensures Step(SetInRange(locals), StoreRun(locals)[i]) == Next(StoreRun(locals)[i + 1])
  {
    hide Fetch;
    StoreFetched(locals, StoreRun(locals)[i].ip.off);
  }

  lemma StoreArray(locals: nat)
    ensures Step(SetInRange(locals), StoreRun(locals)[2]) == Next(StoreRun(locals)[3])
  {
    hide Fetch;
    StoreFetched(locals, 6);
    assert seq(1, _ => VInt(0)) == [VInt(0)];
  }

  lemma StoreCall(locals: nat)
    ensures Step(SetInRange(locals), StoreRun(locals)[5])
         == if locals == 0 then Halted(CALLER_FRAME) else Next(Storing(locals, 17, [VInt(1)], 64, [Arr([VInt(1)])]))
  {
    hide Fetch;
    StoreFetched(locals, 13);
    assert MethodScratch(StoreRun(locals)[5], 3) == [VRef(0), VInt(0), VInt(1), VUnset];
    assert [VInt(0)][0 := VInt(1)] == [VInt(1)];
  }

  // A correct call of `set`, inside the array and with all arguments, is refused because
  // the calling function has one slot, and succeeds once it declares a local more.
  lemma CallerTooShort(locals: nat)
    ensures var p, run := SetInRange(locals), StoreRun(locals);
            && Checked(p, STORE_HEIGHTS) && IsRun(p, run) && Start(p) == Next(run[0])
            && Step(p, run[5]) == if locals == 0 then Halted(CALLER_FRAME)
                                  else Next(Storing(locals, 17, [VInt(1)], 64, [Arr([VInt(1)])]))
  {
    hide FlowOk, Start, Step;
    StoreTable(locals);
    StoreStarts(locals);
    StorePushes(locals, 0);
    StorePushes(locals, 1);
    StoreArray(locals);
    StorePushes(locals, 3);
    StorePushes(locals, 4);
    StoreCall(locals);
  }
}
