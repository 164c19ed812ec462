/**
 A printer for syntax trees that writes only the parentheses the precedence table
 demands, and the proof that parsing undoes printing.
 */
module Printer {
  import opened Tokens
  import opened Ast
  import opened Lists
  import opened Grammar
  import opened ParserSpec
  import opened Completeness
  import opened Productions
  import opened Soundness

  // ------------------------------------------------------------ printable trees

  // The trees a parser can build: no empty block, no call of a field access other than
  // as a method call, objects and print nodes as checked by the parser.
  predicate Printable(a: Ast)
    decreases a
  {
    match a
    case Null => true
    case Boolean(_) => true
    case Integer(i) => -0x8000_0000 <= i < 0x8000_0000
    case Array(n, v) => Printable(n) && Printable(v)
    case Object(ext, members) => Printable(ext) && MembersOk(members) && (forall m :: m in members ==> Printable(m))
    case Function(_, b) => Printable(b)
    case Definition(_, v) => Printable(v)
    case VariableAccess(_) => true
    case VariableAssignment(_, v) => Printable(v)
    case IndexAccess(o, i) => Printable(o) && Printable(i)
    case IndexAssignment(o, i, v) => Printable(o) && Printable(i) && Printable(v)
    case FieldAccess(o, _) => Printable(o)
    case FieldAssignment(o, _, v) => Printable(o) && Printable(v)
    case FunctionCall(f, args) => !f.FieldAccess? && Printable(f) && (forall e :: e in args ==> Printable(e))
    case MethodCall(o, _, args) => Printable(o) && (forall e :: e in args ==> Printable(e))
    case Conditional(c, t, e) => Printable(c) && Printable(t) && Printable(e)
    case Loop(c, b) => Printable(c) && Printable(b)
    case Print(f, args) => Placeholders(f) == |args| && (forall e :: e in args ==> Printable(e))
    case Block(es) => es != [] && (forall e :: e in es ==> Printable(e))
    case Top(_) => false
  }

  predicate PrintableProgram(a: Ast) {
    a == Null || (a.Top? && a.program != [] && forall e :: e in a.program ==> Printable(e))
  }

  // --------------------------------------------------------------------- tokens

  // The operator written as `name`, or IDENTIFIER if there is none.
  function OperatorKind(name: string): (k: TokenKind)
    ensures IsOperator(k) ==> Spelling(k) == name
    ensures !IsOperator(k) ==> k == IDENTIFIER && forall o :: IsOperator(o) ==> Spelling(o) != name
  {
    OperatorFrom(name, BAR)
  }

  function OperatorFrom(name: string, from: TokenKind): (k: TokenKind)
    requires BAR <= from <= PERCENT
    ensures IsOperator(k) ==> Spelling(k) == name
    ensures !IsOperator(k) ==> k == IDENTIFIER && forall o :: from <= o <= PERCENT ==> Spelling(o) != name
    decreases PERCENT - from
  {
    if Spelling(from) == name then from
    else if from == PERCENT then IDENTIFIER
    else OperatorFrom(name, from + 1)
  }

  function NameToken(name: string): Token { Token(OperatorKind(name), name) }

  function DigitsText(n: nat): (text: string)
    ensures text != "" && forall c :: c in text ==> '0' <= c <= '9'
    ensures Decimal(text) == n
  {
    var last := [('0' as int + n % 10) as char];
    if n < 10 then
      assert last[..0] == "";
      last
    else
      var front := DigitsText(n / 10);
      assert (front + last)[..|front|] == front;
      front + last
  }

  function IntegerText(i: int): (text: string)
    requires -0x8000_0000 <= i < 0x8000_0000
    ensures IsValueOf(text, i)
  {
    if i < 0 then
      var text := DigitsText(-i);
      assert text[0] in text;
      assert ("-" + text)[1..] == text;
      assert Minuses(text) == 0 && text[0..] == text;
      "-" + text
    else
      var text := DigitsText(i);
      assert text[0] in text;
      text
  }

  // --------------------------------------------------------------- parentheses

  // A method call that can be written with an infix operator.
  predicate IsInfix(a: Ast) {
    a.MethodCall? && |a.mcArgs| == 1 && IsOperator(OperatorKind(a.method_))
  }

  // Prefix forms that swallow everything up to a token no expression can contain.
  predicate IsGreedy(a: Ast) {
    a.Definition? || a.Function? || a.Conditional? || a.Loop?
  }

  predicate IsAssignment(a: Ast) {
    a.VariableAssignment? || a.IndexAssignment? || a.FieldAssignment?
  }

  function AstLevel(a: Ast): nat {
    if IsInfix(a) then Lbp(OperatorKind(a.method_))
    else if a.MethodCall? || a.FunctionCall? || a.IndexAccess? || a.FieldAccess? then PREC_POST
    else if IsAssignment(a) then PREC_ASGN
    else PREC_TOP
  }

  // No parentheses needed around `a` at binding power `bp` in front of `next`.
  predicate Direct(a: Ast, bp: nat, next: TokenKind) {
    && AstLevel(a) >= bp
    && (IsGreedy(a) ==> Stops(next))
    && (IsInfix(a) ==> Lbp(next) <= AstLevel(a))
    && (IsAssignment(a) ==> Lbp(next) < PREC_ASGN)
  }

  function Canon(a: Ast, bp: nat, next: TokenKind): Cst
    requires Printable(a)
    decreases a, 1
  {
    if Direct(a, bp, next) then Bare(a, next) else CParen(Bare(a, RPAREN))
  }

  // The outermost form of `a` without parentheses. `let f = function ...` stands for
  // both spellings of a named function, and an absent `else` is left out unless the
  // next token is an `else` of an enclosing conditional.
  function Bare(a: Ast, next: TokenKind): Cst
    requires Printable(a)
    decreases a, 0
  {
    hide Canon, Direct, Placeholders, MembersOk;
    match a
    case Null => CPrimary(T(NULL), a)
    case Boolean(b) => CPrimary(T(if b then TRUE else FALSE), a)
    case Integer(i) => CPrimary(Token(NUMBER, IntegerText(i)), a)
    case Array(n, v) => CArray(Canon(n, PREC_EXPR, COMMA), Canon(v, PREC_EXPR, RPAREN))
    case Object(ext, members) =>
      CObject(if ext == Null then CNone else CSome(Canon(ext, PREC_EXPR, BEGIN)), CanonList(members, SEMICOLON, END))
    case Function(ps, b) => CFunction(Anonymous, CanonNames(ps), Canon(b, PREC_EXPR, next))
    case Definition(x, v) => CLet(NameToken(x), Canon(v, PREC_EXPR, next))
    case VariableAccess(x) => CVar(Token(IDENTIFIER, x))
    case VariableAssignment(x, v) => CAssign(CVar(Token(IDENTIFIER, x)), Canon(v, PREC_ASGN, next))
    case IndexAccess(o, i) => CIndex(Canon(o, PREC_POST, LBRACKET), Canon(i, PREC_EXPR, RBRACKET))
    case IndexAssignment(o, i, v) =>
      CAssign(CIndex(Canon(o, PREC_POST, LBRACKET), Canon(i, PREC_EXPR, RBRACKET)), Canon(v, PREC_ASGN, next))
    case FieldAccess(o, f) => CField(Canon(o, PREC_POST, DOT), NameToken(f))
    case FieldAssignment(o, f, v) =>
      CAssign(CField(Canon(o, PREC_POST, DOT), NameToken(f)), Canon(v, PREC_ASGN, next))
    case FunctionCall(f, args) => CCall(Canon(f, PREC_POST, LPAREN), CanonList(args, COMMA, RPAREN))
    case MethodCall(o, m, args) =>
      var op := NameToken(m);
      if |args| == 1 && IsOperator(op.kind) then
        CBin(Canon(o, Lbp(op.kind), op.kind), op, Canon(args[0], Rbp(op.kind), next))
      else CCall(CField(Canon(o, PREC_POST, DOT), op), CanonList(args, COMMA, RPAREN))
    case Conditional(c, t, e) =>
      if e == Null && next != ELSE then
        CIf(Canon(c, PREC_EXPR, THEN), Canon(t, PREC_EXPR, next), CNone)
      else CIf(Canon(c, PREC_EXPR, THEN), Canon(t, PREC_EXPR, ELSE), CSome(Canon(e, PREC_EXPR, next)))
    case Loop(c, b) => CWhile(Canon(c, PREC_EXPR, DO), Canon(b, PREC_EXPR, next))
    case Print(f, args) =>
      CPrint(Token(STRING, f), if args == [] then NoArgs else Args(CanonList(args, COMMA, RPAREN)))
    case Block(es) => CBlock(CanonList(es, SEMICOLON, END))
  }

  function CanonList(es: seq<Ast>, separator: TokenKind, terminator: TokenKind): CList
    requires forall e :: e in es ==> Printable(e)
    decreases es
  {
    if es == [] then LNil
    else if |es| == 1 then LLast(Canon(es[0], PREC_EXPR, terminator))
    else LCons(Canon(es[0], PREC_EXPR, separator), CanonList(es[1..], separator, terminator))
  }

  function CanonNames(xs: seq<string>): (ns: NameList)
    ensures OkNames(ns) && Names(ns) == xs
  {
    if xs == [] then NNil
    else if |xs| == 1 then NLast(NameToken(xs[0]))
    else NCons(NameToken(xs[0]), CanonNames(xs[1..]))
  }

  // ------------------------------------------------------------------ round trip

  predicate Represents(c: Cst, a: Ast, bp: nat, next: TokenKind) {
    Ok(c, next) && Level(c) >= bp && Abs(c) == a
  }

  lemma {:induction false} CanonRepresents(a: Ast, bp: nat, next: TokenKind)
    requires Printable(a) && bp <= PREC_TOP
    ensures Represents(Canon(a, bp, next), a, bp, next)
    decreases a, 3
  {
    hide Bare, Printable, MembersOk, Placeholders, Literal, OkList, OkNames;
    if Direct(a, bp, next) {
      BareRepresents(a, next);
    } else {
      BareRepresents(a, RPAREN);
    }
  }

  lemma {:induction false} BareRepresents(a: Ast, next: TokenKind)
    requires Printable(a) && Direct(a, 0, next)
    ensures Represents(Bare(a, next), a, AstLevel(a), next)
    decreases a, 2
  {
    hide Bare, Represents, Canon, Direct;
    if IsAssignment(a) {
      BareAssignment(a, next);
    } else if a.MethodCall? || a.FunctionCall? || a.IndexAccess? || a.FieldAccess? {
      BareOperation(a, next);
    } else if IsGreedy(a) {
      BareGreedy(a, next);
    } else {
      BareClosed(a, next);
    }
  }

  // An assignment from its target, written as an access, and its value.
  lemma {:induction false} AssignRepresents(l: Cst, target: Ast, r: Cst, v: Ast, next: TokenKind)
    requires Represents(l, target, PREC_POST, LARROW) && Assignable(target)
    requires Represents(r, v, PREC_ASGN, next) && Lbp(next) < PREC_ASGN
    ensures Represents(CAssign(l, r), Assignment(target, v), PREC_ASGN, next)
  {
  }

  lemma {:induction false} BareAssignment(a: Ast, next: TokenKind)
    requires Printable(a) && Direct(a, 0, next) && IsAssignment(a)
    ensures Represents(Bare(a, next), a, AstLevel(a), next)
    decreases a, 0
  {
    hide Canon, Represents, Ok, Abs, Level;
    match a
    case VariableAssignment(x, v) =>
      CanonRepresents(v, PREC_ASGN, next);
      VarRepresents(x, LARROW);
      AssignRepresents(CVar(Token(IDENTIFIER, x)), VariableAccess(x), Canon(v, PREC_ASGN, next), v, next);
    case IndexAssignment(o, i, v) =>
      CanonRepresents(o, PREC_POST, LBRACKET);
      CanonRepresents(i, PREC_EXPR, RBRACKET);
      CanonRepresents(v, PREC_ASGN, next);
      var l := CIndex(Canon(o, PREC_POST, LBRACKET), Canon(i, PREC_EXPR, RBRACKET));
      IndexRepresents(l.l, o, l.i, i, LARROW);
      AssignRepresents(l, IndexAccess(o, i), Canon(v, PREC_ASGN, next), v, next);
    case FieldAssignment(o, f, v) =>
      CanonRepresents(o, PREC_POST, DOT);
      CanonRepresents(v, PREC_ASGN, next);
      var l := CField(Canon(o, PREC_POST, DOT), NameToken(f));
      FieldRepresents(l.l, o, f, LARROW);
      AssignRepresents(l, FieldAccess(o, f), Canon(v, PREC_ASGN, next), v, next);
  }

  lemma VarRepresents(x: string, next: TokenKind)
    ensures Represents(CVar(Token(IDENTIFIER, x)), VariableAccess(x), PREC_POST, next)
  {
  }

  lemma {:induction false} IndexRepresents(l: Cst, o: Ast, r: Cst, i: Ast, next: TokenKind)
    requires Represents(l, o, PREC_POST, LBRACKET) && Represents(r, i, PREC_EXPR, RBRACKET)
    ensures Represents(CIndex(l, r), IndexAccess(o, i), PREC_POST, next)
  {
  }

  lemma {:induction false} FieldRepresents(l: Cst, o: Ast, f: string, next: TokenKind)
    requires Represents(l, o, PREC_POST, DOT)
    ensures Represents(CField(l, NameToken(f)), FieldAccess(o, f), PREC_POST, next)
  {
  }

  lemma {:induction false} CallRepresents(l: Cst, f: Ast, args: CList, next: TokenKind)
    requires Represents(l, f, PREC_POST, LPAREN) && OkList(args, COMMA, RPAREN)
    ensures Represents(CCall(l, args), Call(f, AbsList(args)), PREC_POST, next)
  {
  }

  lemma {:induction false} BinRepresents(l: Cst, o: Ast, op: Token, r: Cst, x: Ast, next: TokenKind)
    requires IsOperator(op.kind) && Lbp(next) <= Lbp(op.kind)
    requires Represents(l, o, Lbp(op.kind), op.kind) && Represents(r, x, Rbp(op.kind), next)
    ensures Represents(CBin(l, op, r), MethodCall(o, op.str, [x]), Lbp(op.kind), next)
  {
  }

  lemma {:induction false} BareOperation(a: Ast, next: TokenKind)
    requires Printable(a) && Direct(a, 0, next)
    requires a.MethodCall? || a.FunctionCall? || a.IndexAccess? || a.FieldAccess?
    ensures Represents(Bare(a, next), a, AstLevel(a), next)
    decreases a, 0
  {
    hide Canon, Represents, Ok, Abs, Level;
    match a
    case IndexAccess(o, i) =>
      CanonRepresents(o, PREC_POST, LBRACKET);
      CanonRepresents(i, PREC_EXPR, RBRACKET);
      IndexRepresents(Bare(a, next).l, o, Bare(a, next).i, i, next);
    case FieldAccess(o, f) =>
      CanonRepresents(o, PREC_POST, DOT);
      FieldRepresents(Bare(a, next).l, o, f, next);
    case FunctionCall(f, args) =>
      CanonRepresents(f, PREC_POST, LPAREN);
      ListRepresents(args, COMMA, RPAREN);
      CallRepresents(Bare(a, next).l, f, CanonList(args, COMMA, RPAREN), next);
    case MethodCall(o, m, args) =>
      if IsInfix(a) {
        CanonRepresents(o, AstLevel(a), OperatorKind(m));
        CanonRepresents(args[0], AstLevel(a) + 1, next);
        assert args == [args[0]];
        BinRepresents(Bare(a, next).l, o, NameToken(m), Bare(a, next).r, args[0], next);
      } else {
        CanonRepresents(o, PREC_POST, DOT);
        ListRepresents(args, COMMA, RPAREN);
        FieldRepresents(Canon(o, PREC_POST, DOT), o, m, LPAREN);
        CallRepresents(Bare(a, next).l, FieldAccess(o, m), CanonList(args, COMMA, RPAREN), next);
      }
  }

  lemma {:induction false} BareGreedy(a: Ast, next: TokenKind)
    requires Printable(a) && Direct(a, 0, next) && IsGreedy(a)
    ensures Represents(Bare(a, next), a, AstLevel(a), next)
    decreases a, 1
  {
    hide Canon, MembersOk, Placeholders, IsValueOf, Literal, OkList, LeftInfo;
    match a
    case Function(_, b) => CanonRepresents(b, PREC_EXPR, next);
    case Definition(_, v) => CanonRepresents(v, PREC_EXPR, next);
    case Conditional(_, _, _) => BareConditional(a, next);
    case Loop(c, b) =>
      CanonRepresents(c, PREC_EXPR, DO);
      CanonRepresents(b, PREC_EXPR, next);
  }

  lemma {:induction false} BareConditional(a: Ast, next: TokenKind)
    requires Printable(a) && Direct(a, 0, next) && a.Conditional?
    ensures Represents(Bare(a, next), a, AstLevel(a), next)
    decreases a, 0
  {
    hide Canon;
    var Conditional(c, t, e) := a;
    CanonRepresents(c, PREC_EXPR, THEN);
    if e == Null && next != ELSE {
      CanonRepresents(t, PREC_EXPR, next);
      assert AbsOpt(CNone) == e;
    } else {
      CanonRepresents(t, PREC_EXPR, ELSE);
      CanonRepresents(e, PREC_EXPR, next);
      assert AbsOpt(CSome(Canon(e, PREC_EXPR, next))) == e;
    }
  }

  lemma {:induction false} BareClosed(a: Ast, next: TokenKind)
    requires Printable(a) && Direct(a, 0, next)
    requires !IsGreedy(a) && !IsAssignment(a)
    requires !a.MethodCall? && !a.FunctionCall? && !a.IndexAccess? && !a.FieldAccess?
    ensures Represents(Bare(a, next), a, AstLevel(a), next)
    decreases a, 0
  {
    hide Canon, MembersOk, Placeholders, IsValueOf;
    match a
    case Array(n, v) =>
      CanonRepresents(n, PREC_EXPR, COMMA);
      CanonRepresents(v, PREC_EXPR, RPAREN);
    case Object(ext, members) =>
      CanonRepresents(ext, PREC_EXPR, BEGIN);
      ListRepresents(members, SEMICOLON, END);
      assert AbsOpt(Bare(a, next).ext) == ext;
    case Print(_, args) =>
      ListRepresents(args, COMMA, RPAREN);
      assert AbsArgs(Bare(a, next).args) == args;
    case Block(es) => ListRepresents(es, SEMICOLON, END);
    case _ =>
  }

  lemma {:induction false} ListRepresents(es: seq<Ast>, separator: TokenKind, terminator: TokenKind)
    requires forall e :: e in es ==> Printable(e)
    ensures OkList(CanonList(es, separator, terminator), separator, terminator)
    ensures AbsList(CanonList(es, separator, terminator)) == es
    decreases es
  {
    if es != [] {
      CanonRepresents(es[0], PREC_EXPR, if |es| == 1 then terminator else separator);
      ListRepresents(es[1..], separator, terminator);
    }
  }

  function PrintProgram(a: Ast): List<Token>
    requires PrintableProgram(a)
  {
    YieldList(CanonList(if a == Null then [] else a.program, SEMICOLON, EOF), SEMICOLON, EOF, Nil)
  }

  // An expression printed for a place of binding power `bp` is read back there, up to
  // exactly the token that follows, whenever that token binds less tightly.
  lemma ExpressionPrint(a: Ast, bp: nat, tail: List<Token>)
    requires Printable(a) && PREC_EXPR <= bp <= PREC_TOP && Lbp(Kind(tail)) < bp && Kind(tail) != ERROR
    ensures ExpressionBp(At(Yield(Canon(a, bp, Kind(tail)), tail)), bp) == (a, At(tail))
  {
    hide ExpressionBp, Yield, Canon, Ok, Level, Printable;
    CanonRepresents(a, bp, Kind(tail));
    Delimited(Canon(a, bp, Kind(tail)), bp, tail);
  }

  // Parsing undoes printing.
  lemma ParsePrint(a: Ast)
    requires PrintableProgram(a)
    ensures Parse(PrintProgram(a)) == Accepted(a)
  {
    var es := if a == Null then [] else a.program;
    ListRepresents(es, SEMICOLON, EOF);
    AcceptsGrammar(PrintProgram(a), CanonList(es, SEMICOLON, EOF));
  }

  // ------------------------------------------------------- the image of the parser

  lemma {:induction false} DerivedPrintable(c: Cst, next: TokenKind)
    requires Ok(c, next)
    ensures Printable(Abs(c))
    decreases c, 2
  {
    if c.CBin? || c.CCall? || c.CIndex? || c.CField? || c.CAssign? {
      DerivedInfixPrintable(c, next);
    } else {
      DerivedPrefixPrintable(c, next);
    }
  }

  lemma {:induction false} DerivedInfixPrintable(c: Cst, next: TokenKind)
    requires Ok(c, next) && (c.CBin? || c.CCall? || c.CIndex? || c.CField? || c.CAssign?)
    ensures Printable(Abs(c))
    decreases c, 0
  {
    hide MembersOk, Placeholders, IsValueOf, LeftInfo, OkList, OkNames, Literal;
    match c
    case CBin(l, op, r) =>
      DerivedPrintable(l, op.kind);
      DerivedPrintable(r, next);
    case CCall(_, _) => DerivedCallPrintable(c, next);
    case CIndex(l, i) =>
      DerivedPrintable(l, LBRACKET);
      DerivedPrintable(i, RBRACKET);
    case CField(l, _) => DerivedPrintable(l, DOT);
    case CAssign(_, _) => DerivedAssignPrintable(c, next);
  }

  lemma {:induction false} DerivedCallPrintable(c: Cst, next: TokenKind)
    requires Ok(c, next) && c.CCall?
    ensures Printable(Abs(c))
    decreases c, 0, 0
  {
    hide MembersOk, Placeholders, IsValueOf, LeftInfo, OkList, OkNames, Literal;
    DerivedPrintable(c.l, LPAREN);
    DerivedListPrintable(c.cargs, COMMA, RPAREN);
  }

  lemma {:induction false} DerivedAssignPrintable(c: Cst, next: TokenKind)
    requires Ok(c, next) && c.CAssign?
    ensures Printable(Abs(c))
    decreases c, 0, 0
  {
    hide MembersOk, Placeholders, IsValueOf, LeftInfo, OkList, OkNames, Literal;
    DerivedPrintable(c.l, LARROW);
    DerivedPrintable(c.r, next);
  }

  lemma {:induction false} DerivedPrefixPrintable(c: Cst, next: TokenKind)
    requires Ok(c, next) && !c.CBin? && !c.CCall? && !c.CIndex? && !c.CField? && !c.CAssign?
    ensures Printable(Abs(c))
    decreases c, 1
  {
    hide MembersOk, Placeholders, IsValueOf, LeftInfo, OkList;
    match c
    case CPrimary(t, v) => LiteralPrintable(t, v);
    case CVar(_) =>
    case CParen(e) => DerivedPrintable(e, RPAREN);
    case CBlock(items) => DerivedListPrintable(items, SEMICOLON, END);
    case CLet(_, v) => DerivedPrintable(v, next);
    case CArray(n, v) =>
      DerivedPrintable(n, COMMA);
      DerivedPrintable(v, RPAREN);
    case CObject(_, _) => DerivedObjectPrintable(c, next);
    case CIf(_, _, _) => DerivedIfPrintable(c, next);
    case CWhile(g, b) =>
      DerivedPrintable(g, DO);
      DerivedPrintable(b, next);
    case CPrint(_, _) => DerivedPrintPrintable(c, next);
    case CFunction(_, _, b) => DerivedPrintable(b, next);
  }

  lemma {:induction false} DerivedObjectPrintable(c: Cst, next: TokenKind)
    requires Ok(c, next) && c.CObject?
    ensures Printable(Abs(c))
    decreases c, 0
  {
    if c.ext.CSome? { DerivedPrintable(c.ext.c, BEGIN); }
    DerivedListPrintable(c.members, SEMICOLON, END);
  }

  lemma {:induction false} DerivedIfPrintable(c: Cst, next: TokenKind)
    requires Ok(c, next) && c.CIf?
    ensures Printable(Abs(c))
    decreases c, 0
  {
    DerivedPrintable(c.cond, THEN);
    DerivedPrintable(c.thn, if c.els.CNone? then next else ELSE);
    if c.els.CSome? { DerivedPrintable(c.els.c, next); }
  }

  lemma {:induction false} DerivedPrintPrintable(c: Cst, next: TokenKind)
    requires Ok(c, next) && c.CPrint?
    ensures Printable(Abs(c))
    decreases c, 0
  {
    if c.args.Args? { DerivedListPrintable(c.args.list, COMMA, RPAREN); }
  }

  lemma LiteralPrintable(t: Token, v: Ast)
    requires Literal(t, v)
    ensures Printable(v)
  {
  }

  lemma {:induction false} DerivedListPrintable(es: CList, separator: TokenKind, terminator: TokenKind)
    requires OkList(es, separator, terminator)
    ensures forall e :: e in AbsList(es) ==> Printable(e)
    decreases es
  {
    match es
    case LNil =>
    case LLast(e) => DerivedPrintable(e, terminator);
    case LCons(e, more) =>
      DerivedPrintable(e, separator);
      DerivedListPrintable(more, separator, terminator);
  }

  // Every accepted tree can be printed, and printing and parsing it again changes nothing.
  lemma AcceptedTreesReparse(tokens: List<Token>)
    requires Lexed(tokens) && Parse(tokens).Accepted?
    ensures PrintableProgram(Parse(tokens).ast)
    ensures Parse(PrintProgram(Parse(tokens).ast)) == Parse(tokens)
  {
    var p := AcceptedDerivation(tokens);
    DerivedListPrintable(p, SEMICOLON, EOF);
    ParsePrint(Parse(tokens).ast);
  }

  // The printer's parentheses are necessary: a tree that means the same at the same
  // place is parenthesized too, or avoids the operator by the dotted call syntax.
  lemma ParenthesesNeeded(a: Ast, bp: nat, next: TokenKind, c: Cst)
    requires Printable(a) && !Direct(a, bp, next)
    requires Represents(c, a, bp, next) && (c.CBin? ==> c.op == NameToken(c.op.str))
    ensures c.CParen? || (IsInfix(a) && c.CCall?)
  {
  }
}
