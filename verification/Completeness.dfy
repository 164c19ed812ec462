/** The parser accepts every derivable token list and returns the tree's meaning. */
module Completeness {
  import opened Tokens
  import opened Ast
  import opened Lists
  import opened Grammar
  import opened ParserSpec
  import opened Productions

  // A tree starts with a token that can start an expression.
  lemma {:induction false} Start(c: Cst, next: TokenKind, tail: List<Token>)
    requires Ok(c, next)
    ensures Yield(c, tail).Cons? && NullInfo(Kind(Yield(c, tail))) != NudErr
    decreases c
  {
    match c
    case CBin(l, op, r) => Start(l, op.kind, Cons(op, Yield(r, tail)));
    case CCall(l, args) => Start(l, LPAREN, Cons(T(LPAREN), YieldList(args, COMMA, RPAREN, tail)));
    case CIndex(l, i) => Start(l, LBRACKET, Cons(T(LBRACKET), Yield(i, Cons(T(RBRACKET), tail))));
    case CField(l, x) => Start(l, DOT, Cons(T(DOT), Cons(x, tail)));
    case CAssign(l, r) => Start(l, LARROW, Cons(T(LARROW), Yield(r, tail)));
    case _ =>
  }

  lemma DigitsDecimal(str: string, value: int)
    ensures Digits(str, value) == value * Pow10(|str|) + Decimal(str)
  {
    if str != "" {
      var d := str[0] as int - '0' as int;
      DigitsDecimal(str[1..], value * 10 + d);
      DecimalCons(str);
      Distribute(value, d, Pow10(|str| - 1));
    }
  }

  lemma Distribute(value: int, d: int, p: int)
    ensures (value * 10 + d) * p == value * (10 * p) + d * p
  {
  }

  function Pow10(n: nat): int { if n == 0 then 1 else 10 * Pow10(n - 1) }

  lemma {:induction false} DecimalCons(str: string)
    requires str != ""
    ensures Decimal(str) == (str[0] as int - '0' as int) * Pow10(|str| - 1) + Decimal(str[1..])
  {
    var n := |str|;
    var d := str[0] as int - '0' as int;
    if n == 1 {
      assert str[..0] == "";
    } else {
      var init := str[..n - 1];
      DecimalCons(init);
      assert init[1..] == str[1..][..n - 2];
      assert Decimal(str[1..]) == 10 * Decimal(init[1..]) + (str[n - 1] as int - '0' as int);
      Shift(d, Pow10(n - 2));
    }
  }

  lemma Shift(d: int, p: int)
    ensures 10 * (d * p) == d * (10 * p)
  {
  }

  lemma StripMinusMinuses(str: string)
    ensures StripMinus(str) == (Minuses(str) % 2 == 1, str[Minuses(str)..])
  {
    if str != "" && str[0] == '-' {
      StripMinusMinuses(str[1..]);
    }
  }

  // The digit loop computes the positional value.
  lemma LiteralValue(str: string)
    ensures IsValueOf(str, IntegerValue(str))
    ensures forall i :: IsValueOf(str, i) ==> i == IntegerValue(str)
  {
    StripMinusMinuses(str);
    DigitsDecimal(str[Minuses(str)..], 0);
  }

  // ---------------------------------------------------------- the main lemma

  // Parsing the tokens of `c` at any binding power its level allows reaches the token
  // after them with the meaning of `c` as left operand.
  lemma {:induction false} Complete(c: Cst, bp: nat, tail: List<Token>)
    requires Ok(c, Kind(tail)) && Level(c) >= bp >= PREC_EXPR && Kind(tail) != ERROR
    ensures ExpressionBp(At(Yield(c, tail)), bp) == Continue(At(tail), Abs(c), bp)
    decreases c, 2
  {
    hide ExpressionBp, Continue, Prefix, Infix;
    match c {
      case CBin(_, _, _) => CompleteBin(c, bp, tail);
      case CCall(_, _) => CompleteCall(c, bp, tail);
      case CIndex(_, _) => CompleteIndex(c, bp, tail);
      case CField(_, _) => CompleteField(c, bp, tail);
      case CAssign(_, _) => CompleteAssign(c, bp, tail);
      case _ =>
        CompletePrefix(c, tail);
        LoopStart(At(Yield(c, tail)), bp);
    }
  }

  // An expression in front of a token too weak to continue it.
  lemma {:induction false} Delimited(c: Cst, bp: nat, tail: List<Token>)
    requires Ok(c, Kind(tail)) && Level(c) >= bp >= PREC_EXPR && Lbp(Kind(tail)) < bp && Kind(tail) != ERROR
    ensures Parses(Yield(c, tail), bp, Abs(c), tail)
    decreases c, 3
  {
    hide ExpressionBp, Continue, Prefix, Infix, Yield, Abs, Ok, Level;
    Complete(c, bp, tail);
    LoopStop(At(tail), Abs(c), bp);
    Start(c, Kind(tail), tail);
  }

  // The same for a whole expression: every level is high enough.
  lemma {:induction false} Whole(c: Cst, tail: List<Token>)
    requires Ok(c, Kind(tail)) && Stops(Kind(tail)) && Kind(tail) != ERROR
    ensures Parses(Yield(c, tail), PREC_EXPR, Abs(c), tail)
    decreases c, 4
  {
    hide ExpressionBp, Continue, Prefix, Infix, Yield, Abs;
    Delimited(c, PREC_EXPR, tail);
  }

  lemma {:induction false} CompleteBin(c: Cst, bp: nat, tail: List<Token>)
    requires c.CBin? && Ok(c, Kind(tail)) && Level(c) >= bp >= PREC_EXPR && Kind(tail) != ERROR
    ensures ExpressionBp(At(Yield(c, tail)), bp) == Continue(At(tail), Abs(c), bp)
    decreases c, 1
  {
    hide ExpressionBp, Continue, Prefix, BinopExpr;
    var CBin(l, op, r) := c;
    var mid := Cons(op, Yield(r, tail));
    Complete(l, bp, mid);
    Delimited(r, Rbp(op.kind), tail);
    ParseBin(Abs(l), op, Yield(r, tail), Abs(r), tail);
    LoopStep(At(mid), Abs(l), bp);
  }

  lemma {:induction false} CompleteCall(c: Cst, bp: nat, tail: List<Token>)
    requires c.CCall? && Ok(c, Kind(tail)) && Level(c) >= bp >= PREC_EXPR && Kind(tail) != ERROR
    ensures ExpressionBp(At(Yield(c, tail)), bp) == Continue(At(tail), Abs(c), bp)
    decreases c, 1
  {
    hide ExpressionBp, Continue, Prefix, CallExpr;
    var CCall(l, args) := c;
    var list := YieldList(args, COMMA, RPAREN, tail);
    Complete(l, bp, Cons(T(LPAREN), list));
    CompleteList(args, COMMA, RPAREN, tail);
    ParseCall(Abs(l), list, AbsList(args), tail);
    LoopStep(At(Cons(T(LPAREN), list)), Abs(l), bp);
  }

  lemma {:induction false} CompleteIndex(c: Cst, bp: nat, tail: List<Token>)
    requires c.CIndex? && Ok(c, Kind(tail)) && Level(c) >= bp >= PREC_EXPR && Kind(tail) != ERROR
    ensures ExpressionBp(At(Yield(c, tail)), bp) == Continue(At(tail), Abs(c), bp)
    decreases c, 1
  {
    hide ExpressionBp, Continue, Prefix, IndexingExpr;
    var CIndex(l, i) := c;
    var index := Yield(i, Cons(T(RBRACKET), tail));
    Complete(l, bp, Cons(T(LBRACKET), index));
    Whole(i, Cons(T(RBRACKET), tail));
    ParseIndex(Abs(l), index, Abs(i), tail);
    LoopStep(At(Cons(T(LBRACKET), index)), Abs(l), bp);
  }

  lemma {:induction false} CompleteField(c: Cst, bp: nat, tail: List<Token>)
    requires c.CField? && Ok(c, Kind(tail)) && Level(c) >= bp >= PREC_EXPR && Kind(tail) != ERROR
    ensures ExpressionBp(At(Yield(c, tail)), bp) == Continue(At(tail), Abs(c), bp)
    decreases c, 1
  {
    hide ExpressionBp, Continue, Prefix;
    var CField(l, x) := c;
    var mid := Cons(T(DOT), Cons(x, tail));
    Complete(l, bp, mid);
    LoopStep(At(mid), Abs(l), bp);
  }

  lemma {:induction false} CompleteAssign(c: Cst, bp: nat, tail: List<Token>)
    requires c.CAssign? && Ok(c, Kind(tail)) && Level(c) >= bp >= PREC_EXPR && Kind(tail) != ERROR
    ensures ExpressionBp(At(Yield(c, tail)), bp) == Continue(At(tail), Abs(c), bp)
    decreases c, 1
  {
    hide ExpressionBp, Continue, Prefix, AssignExpr, Literal, MembersOk, Placeholders;
    var CAssign(l, r) := c;
    var mid := Cons(T(LARROW), Yield(r, tail));
    Complete(l, bp, mid);
    Delimited(r, PREC_ASGN, tail);
    ParseAssign(Abs(l), Yield(r, tail), Abs(r), tail);
    LoopStep(At(mid), Abs(l), bp);
  }

  lemma {:induction false} CompletePrefix(c: Cst, tail: List<Token>)
    requires Ok(c, Kind(tail)) && Kind(tail) != ERROR
    requires !c.CBin? && !c.CCall? && !c.CIndex? && !c.CField? && !c.CAssign?
    ensures Prefix(At(Yield(c, tail))) == (Abs(c), At(tail))
    decreases c, 1
  {
    hide Prefix, ExpressionBp, Yield, Abs;
    match c
    case CPrimary(_, _) => CompletePrimary(c, tail);
    case CVar(_) => CompletePrimary(c, tail);
    case CParen(_) => CompleteParen(c, tail);
    case CBlock(_) => CompleteBlock(c, tail);
    case CLet(_, _) => CompleteLet(c, tail);
    case CArray(_, _) => CompleteArray(c, tail);
    case CObject(_, _) => CompleteObject(c, tail);
    case CIf(_, _, _) => CompleteIf(c, tail);
    case CWhile(_, _) => CompleteWhile(c, tail);
    case CPrint(_, _) => CompletePrint(c, tail);
    case CFunction(_, _, _) => CompleteFunction(c, tail);
  }

  lemma {:induction false} CompletePrimary(c: Cst, tail: List<Token>)
    requires (c.CPrimary? || c.CVar?) && Ok(c, Kind(tail)) && Kind(tail) != ERROR
    ensures Prefix(At(Yield(c, tail))) == (Abs(c), At(tail))
  {
    hide IsValueOf, IntegerValue, ParenExpr, BlockExpr, LetExpr, ArrayExpr, ObjectExpr, CondExpr, LoopExpr,
         PrintExpr, FunctionExpr;
    LiteralValue(c.tok.str);
  }

  lemma {:induction false} CompleteParen(c: Cst, tail: List<Token>)
    requires c.CParen? && Ok(c, Kind(tail)) && Kind(tail) != ERROR
    ensures Prefix(At(Yield(c, tail))) == (Abs(c), At(tail))
    decreases c, 0
  {
    hide Prefix, ExpressionBp;
    var close := Cons(T(RPAREN), tail);
    Whole(c.inner, close);
    ParseParen(Yield(c.inner, close), Abs(c.inner), tail);
  }

  lemma {:induction false} CompleteBlock(c: Cst, tail: List<Token>)
    requires c.CBlock? && Ok(c, Kind(tail)) && Kind(tail) != ERROR
    ensures Prefix(At(Yield(c, tail))) == (Abs(c), At(tail))
    decreases c, 0
  {
    hide Prefix, ExpressionBp;
    CompleteList(c.items, SEMICOLON, END, tail);
    ParseBlock(YieldList(c.items, SEMICOLON, END, tail), AbsList(c.items), tail);
  }

  lemma {:induction false} CompleteLet(c: Cst, tail: List<Token>)
    requires c.CLet? && Ok(c, Kind(tail)) && Kind(tail) != ERROR
    ensures Prefix(At(Yield(c, tail))) == (Abs(c), At(tail))
    decreases c, 0
  {
    hide Prefix, ExpressionBp;
    Whole(c.bound, tail);
    ParseLet(c.name, Yield(c.bound, tail), Abs(c.bound), tail);
  }

  lemma {:induction false} CompleteArray(c: Cst, tail: List<Token>)
    requires c.CArray? && Ok(c, Kind(tail)) && Kind(tail) != ERROR
    ensures Prefix(At(Yield(c, tail))) == (Abs(c), At(tail))
    decreases c, 0
  {
    hide Prefix, ExpressionBp;
    var close := Cons(T(RPAREN), tail);
    var init := Yield(c.init, close);
    Whole(c.init, close);
    Whole(c.size, Cons(T(COMMA), init));
    ParseArray(Yield(c.size, Cons(T(COMMA), init)), Abs(c.size), init, Abs(c.init), tail);
  }

  lemma {:induction false} CompleteWhile(c: Cst, tail: List<Token>)
    requires c.CWhile? && Ok(c, Kind(tail)) && Kind(tail) != ERROR
    ensures Prefix(At(Yield(c, tail))) == (Abs(c), At(tail))
    decreases c, 0
  {
    hide Prefix, ExpressionBp;
    var body := Yield(c.body, tail);
    Whole(c.cond, Cons(T(DO), body));
    Whole(c.body, tail);
    ParseWhile(Yield(c.cond, Cons(T(DO), body)), Abs(c.cond), body, Abs(c.body), tail);
  }

  lemma {:induction false} CompleteObject(c: Cst, tail: List<Token>)
    requires c.CObject? && Ok(c, Kind(tail)) && Kind(tail) != ERROR
    ensures Prefix(At(Yield(c, tail))) == (Abs(c), At(tail))
    decreases c, 0
  {
    hide Prefix, MembersOk, ExpressionList, ExpressionBp;
    var CObject(ext, members) := c;
    var list := YieldList(members, SEMICOLON, END, tail);
    CompleteList(members, SEMICOLON, END, tail);
    match ext {
      case CNone => ParseObject(list, AbsList(members), tail);
      case CSome(e) =>
        Whole(e, Cons(T(BEGIN), list));
        ParseExtends(Yield(e, Cons(T(BEGIN), list)), Abs(e), list, AbsList(members), tail);
    }
  }

  lemma {:induction false} CompleteIf(c: Cst, tail: List<Token>)
    requires c.CIf? && Ok(c, Kind(tail)) && Kind(tail) != ERROR
    ensures Prefix(At(Yield(c, tail))) == (Abs(c), At(tail))
    decreases c, 0
  {
    hide Prefix, ExpressionBp;
    var CIf(g, t, els) := c;
    match els {
      case CNone =>
        var thn := Yield(t, tail);
        Whole(t, tail);
        Whole(g, Cons(T(THEN), thn));
        ParseIf(Yield(g, Cons(T(THEN), thn)), Abs(g), thn, Abs(t), tail);
      case CSome(b) =>
        var els' := Yield(b, tail);
        var thn := Yield(t, Cons(T(ELSE), els'));
        Whole(b, tail);
        Whole(t, Cons(T(ELSE), els'));
        Whole(g, Cons(T(THEN), thn));
        ParseIfElse(Yield(g, Cons(T(THEN), thn)), Abs(g), thn, Abs(t), els', Abs(b), tail);
    }
  }

  lemma {:induction false} CompletePrint(c: Cst, tail: List<Token>)
    requires c.CPrint? && Ok(c, Kind(tail)) && Kind(tail) != ERROR
    ensures Prefix(At(Yield(c, tail))) == (Abs(c), At(tail))
    decreases c, 0
  {
    hide Prefix, Placeholders, ExpressionList;
    match c.args {
      case NoArgs => ParsePrint(c.format, tail);
      case Args(es) =>
        CompleteList(es, COMMA, RPAREN, tail);
        ParsePrintArgs(c.format, YieldList(es, COMMA, RPAREN, tail), AbsList(es), tail);
    }
  }

  lemma {:induction false} CompleteFunction(c: Cst, tail: List<Token>)
    requires c.CFunction? && Ok(c, Kind(tail)) && Kind(tail) != ERROR
    ensures Prefix(At(Yield(c, tail))) == (Abs(c), At(tail))
    decreases c, 0
  {
    hide Prefix, ExpressionBp, IdentifierList;
    var CFunction(x, ps, b) := c;
    var body := Yield(b, tail);
    var names := YieldNames(ps, Cons(T(RARROW), body));
    Whole(b, tail);
    CompleteNames(ps, Cons(T(RARROW), body));
    match x {
      case Anonymous => ParseFunction(names, Names(ps), body, Abs(b), tail);
      case Named(n) => ParseNamedFunction(n, names, Names(ps), body, Abs(b), tail);
    }
  }

  lemma {:induction false} CompleteNames(xs: NameList, tail: List<Token>)
    requires OkNames(xs) && Kind(tail) != ERROR
    ensures ReadsNames(YieldNames(xs, tail), Names(xs), tail)
  {
    match xs
    case NNil =>
    case NLast(_) =>
    case NCons(_, more) => CompleteNames(more, tail);
  }

  // Neither separator nor terminator can continue or start an expression.
  predicate ListTokens(separator: TokenKind, terminator: TokenKind) {
    || (separator == SEMICOLON && (terminator == END || terminator == EOF))
    || (separator == COMMA && terminator == RPAREN)
  }

  lemma {:induction false} CompleteList(es: CList, separator: TokenKind, terminator: TokenKind, tail: List<Token>)
    requires ListTokens(separator, terminator) && OkList(es, separator, terminator)
    requires Kind(tail) != ERROR && (terminator == EOF ==> tail == Nil)
    ensures ParsesList(YieldList(es, separator, terminator, tail), separator, terminator, AbsList(es), tail)
    decreases es, 5
  {
    hide ExpressionBp, Ok, Abs, Yield;
    match es
    case LNil =>
    case LLast(e) =>
      Start(e, terminator, Close(terminator, tail));
      Whole(e, Close(terminator, tail));
    case LCons(e, more) =>
      var rest := Cons(T(separator), YieldList(more, separator, terminator, tail));
      CompleteList(more, separator, terminator, tail);
      Start(e, separator, rest);
      Whole(e, rest);
  }

  // Every derivable token list is accepted, with the meaning of its derivation.
  lemma AcceptsGrammar(tokens: List<Token>, program: CList)
    requires Derives(tokens, program)
    ensures Parse(tokens) == Accepted(ProgramAst(program))
  {
    hide ExpressionList;
    CompleteList(program, SEMICOLON, EOF, Nil);
    assert Discard(State(EOF_TOKEN, tokens, CLEAN)) == At(tokens);
  }
}
