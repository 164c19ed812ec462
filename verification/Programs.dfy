/** From a source text to the end of its run: parser and tree-walking interpreter together. */
module Programs {
  import opened Tokens
  import opened Ast
  import opened Lists
  import opened G = Grammar
  import opened AstValues
  import opened AstSpec
  import opened AstSound
  import AstInterpreter
  import F = AstFrame
  import M = AstSimulation
  import LexerSpec
  import P = ParserSpec
  import Soundness
  import SourceText
  import Parser

  // ------------------------------------------------------- parsed trees can be run

  lemma {:induction false} DerivedRunnable(c: Cst, next: TokenKind)
    requires G.Ok(c, next) && SourceText.CstGood(c, SourceText.NAMED)
    ensures Runnable(Abs(c))
    decreases c, 1
  {
    hide SourceText.Good, Placeholders, MembersOk, IsValueOf;
    match c
    case CPrimary(_, _) =>
    case CVar(t) => NamedVariable(t);
    case CParen(e) => DerivedRunnable(e, RPAREN);
    case CBlock(items) => DerivedListRunnable(items, SEMICOLON, END);
    case CLet(_, v) => DerivedRunnable(v, next);
    case CArray(n, v) =>
      DerivedRunnable(n, COMMA);
      DerivedRunnable(v, RPAREN);
    case CWhile(g, b) =>
      DerivedRunnable(g, DO);
      DerivedRunnable(b, next);
    case CFunction(_, _, b) => DerivedRunnable(b, next);
    case CObject(_, _) => DerivedFormRunnable(c, next);
    case CIf(_, _, _) => DerivedFormRunnable(c, next);
    case CPrint(_, _) => DerivedFormRunnable(c, next);
    case CBin(_, _, _) => DerivedInfixRunnable(c, next);
    case CCall(_, _) => DerivedCallRunnable(c, next);
    case CIndex(_, _) => DerivedInfixRunnable(c, next);
    case CField(_, _) => DerivedInfixRunnable(c, next);
    case CAssign(_, _) => DerivedAssignRunnable(c, next);
  }

  lemma {:induction false} DerivedInfixRunnable(c: Cst, next: TokenKind)
    requires G.Ok(c, next) && SourceText.CstGood(c, SourceText.NAMED) && (c.CBin? || c.CIndex? || c.CField?)
    ensures Runnable(Abs(c))
    decreases c, 0
  {
    hide SourceText.Good;
    match c
    case CBin(l, op, r) =>
      DerivedRunnable(l, op.kind);
      DerivedRunnable(r, next);
    case CIndex(l, i) =>
      DerivedRunnable(l, LBRACKET);
      DerivedRunnable(i, RBRACKET);
    case CField(l, _) => DerivedRunnable(l, DOT);
  }

  lemma {:induction false} DerivedCallRunnable(c: Cst, next: TokenKind)
    requires G.Ok(c, next) && SourceText.CstGood(c, SourceText.NAMED) && c.CCall?
    ensures Runnable(Abs(c))
    decreases c, 0
  {
    hide SourceText.Good;
    DerivedRunnable(c.l, LPAREN);
    DerivedListRunnable(c.cargs, COMMA, RPAREN);
  }

  lemma {:induction false} DerivedAssignRunnable(c: Cst, next: TokenKind)
    requires G.Ok(c, next) && SourceText.CstGood(c, SourceText.NAMED) && c.CAssign?
    ensures Runnable(Abs(c))
    decreases c, 0
  {
    hide SourceText.Good;
    DerivedRunnable(c.l, LARROW);
    DerivedRunnable(c.r, next);
  }

  lemma NamedVariable(t: Token)
    requires t.kind == IDENTIFIER && SourceText.Good(t, SourceText.NAMED)
    ensures t.str != ""
  {
  }

  lemma {:induction false} DerivedFormRunnable(c: Cst, next: TokenKind)
    requires G.Ok(c, next) && SourceText.CstGood(c, SourceText.NAMED) && (c.CObject? || c.CIf? || c.CPrint?)
    ensures Runnable(Abs(c))
    decreases c, 0
  {
    hide SourceText.Good, Placeholders, IsValueOf;
    match c
    case CObject(ext, members) =>
      if ext.CSome? { DerivedRunnable(ext.c, BEGIN); }
      DerivedListRunnable(members, SEMICOLON, END);
    case CIf(g, t, e) =>
      DerivedRunnable(g, THEN);
      DerivedRunnable(t, if e.CNone? then next else ELSE);
      if e.CSome? { DerivedRunnable(e.c, next); }
    case CPrint(_, args) =>
      if args.Args? { DerivedListRunnable(args.list, COMMA, RPAREN); }
  }

  lemma {:induction false} DerivedListRunnable(es: CList, separator: TokenKind, terminator: TokenKind)
    requires OkList(es, separator, terminator) && SourceText.ListGood(es, SourceText.NAMED)
    ensures forall e :: e in AbsList(es) ==> Runnable(e)
    decreases es
  {
    hide G.Ok, Abs, Runnable, SourceText.CstGood;
    match es
    case LNil =>
    case LLast(e) => DerivedRunnable(e, terminator);
    case LCons(e, more) =>
      DerivedRunnable(e, separator);
      DerivedListRunnable(more, separator, terminator);
  }

  // Every accepted source text gives a tree fit to run.
  lemma SourceRunnable(source: string)
    requires SourceText.ParseSource(source).Accepted?
    ensures Runnable(SourceText.ParseSource(source).ast)
  {
    hide LexerSpec.LexAll, P.Parse, Runnable;
    var tokens := LexerSpec.LexAll(source);
    SourceText.LexAllFine(source);
    var p := Soundness.AcceptedDerivation(tokens);
    SourceText.YieldListGood(p, SEMICOLON, EOF, Nil, SourceText.NAMED);
    DerivedListRunnable(p, SEMICOLON, EOF);
    ProgramRunnable(AbsList(p));
  }

  lemma ProgramRunnable(es: seq<Ast>)
    requires forall e :: e in es ==> Runnable(e)
    ensures Runnable(if es == [] then Null else Top(es))
  {
  }

  // ------------------------------------------------------------------ whole runs

  // The state an interpreter starts in.
  const START: State := State([[Scope(map[], [])]], [], H.After(0, H.NULL_SZ), [])

  // What can be seen of a run.
  datatype Run = SyntaxError | Done(v: Value, output: seq<Printed>) | Stopped(stop: Stop)

  function RunSource(source: string, fuel: nat): Run {
    match SourceText.ParseSource(source)
    case Rejected => SyntaxError
    case Accepted(ast) =>
      (match Eval(fuel, ast, START)
       case Ok((v, t)) => Done(v, t.output)
       case Halted(stop) => Stopped(stop))
  }

  // No run of any source text reads a slot nothing was stored in, follows a reference to
  // no cell or a parent chain that climbs, runs out of print arguments, or looks up an
  // empty name. In the end every parent is older than its children, and every cell that
  // was begun is complete.
  lemma RunsAreSound(source: string, fuel: nat)
    requires SourceText.ParseSource(source).Accepted?
    ensures match Eval(fuel, SourceText.ParseSource(source).ast, START)
            case Ok((v, t)) => Good({}, t) && ValueOk({}, |t.cells|, v)
            case Halted(stop) => !Fault(stop)
  {
    hide Eval, SourceText.ParseSource, Runnable;
    SourceRunnable(source);
    EvalSound({}, fuel, SourceText.ParseSource(source).ast, START);
  }

  // A completed run ends with the one environment and the one scope it began with, and
  // more fuel would have changed nothing.
  lemma RunsAreSettled(source: string, fuel: nat, more: nat)
    requires RunSource(source, fuel) != Stopped(FUEL) && fuel <= more
    ensures RunSource(source, more) == RunSource(source, fuel)
    ensures var parsed := SourceText.ParseSource(source);
            parsed.Accepted? && Eval(fuel, parsed.ast, START).Ok? ==>
              var t := Eval(fuel, parsed.ast, START).value.1; |t.envs| == 1 && |t.envs[0]| == 1
  {
    hide Eval, SourceText.ParseSource;
    var parsed := SourceText.ParseSource(source);
    if parsed.Accepted? {
      M.FuelMonotone(fuel, more, parsed.ast, START);
      F.EvalFrames(fuel, parsed.ast, START);
    }
  }

  method Interpret(source: string, fuel: nat) returns (r: Run)
    ensures r == RunSource(source, fuel)
  {
    hide Eval, SourceText.ParseSource;
    var parsed := Parser.Parse(source);
    match parsed
    case Rejected => r := SyntaxError;
    case Accepted(ast) =>
      var state := new AstInterpreter.IState();
      assert state.View() == START;
      var result := state.Interpret(fuel, ast);
      match result
      case Ok(v) => r := Done(v, state.output);
      case Halted(stop) => r := Stopped(stop);
  }
}
