/** Whatever the parser accepts is derivable, with exactly the tree it returned. */
module Soundness {
  import opened Tokens
  import opened Ast
  import opened Lists
  import opened Grammar
  import opened ParserSpec
  import opened Productions
  import opened Completeness
  import Strata

  // Tokens as a lexer delivers them.
  predicate Lexed(tokens: List<Token>) {
    match tokens
    case Nil => true
    case Cons(t, rest) => Spelled(t) && Lexed(rest)
  }

  // An error-free step over a token of a given kind.
  lemma Take(l: List<Token>, k: TokenKind) returns (r: List<Token>)
    requires Lexed(l) && k != EOF && k != ERROR && !CarriesText(k)
    requires Eat(At(l), k).mode == CLEAN
    ensures l == Cons(T(k), r) && Eat(At(l), k) == Discard(At(l)) == At(r)
    ensures Lexed(r) && Kind(r) != ERROR
  {
    r := l.tail;
  }

  // An error-free step over any token.
  lemma TakeAny(l: List<Token>) returns (r: List<Token>)
    requires l.Cons? && Lexed(l) && Discard(At(l)).mode == CLEAN
    ensures l == Cons(l.head, r) && Discard(At(l)) == At(r)
    ensures Lexed(r) && Kind(r) != ERROR
  {
    r := l.tail;
  }

  // A tree that a token may follow binds at least as tightly as that token.
  lemma FollowLevel(c: Cst, next: TokenKind)
    requires Ok(c, next) && Lbp(next) <= PREC_POST
    ensures Level(c) >= Lbp(next)
  {
  }

  // `l` splits into the yield of a tree and `r`, as an expression at `bp` read it.
  predicate Found(l: List<Token>, bp: nat, c: Cst, r: List<Token>)
    requires bp >= PREC_EXPR
  {
    && Level(c) >= bp && Ok(c, Kind(r)) && Lbp(Kind(r)) < bp
    && Yield(c, r) == l
    && ExpressionBp(At(l), bp) == (Abs(c), At(r))
    && Remainder(l, r)
  }

  // The same for a start form.
  predicate FoundPrefix(l: List<Token>, c: Cst, r: List<Token>) {
    && Level(c) == PREC_TOP && Ok(c, Kind(r))
    && Yield(c, r) == l
    && Prefix(At(l)) == (Abs(c), At(r))
    && Remainder(l, r)
  }

  predicate Remainder(l: List<Token>, r: List<Token>) {
    Lexed(r) && Kind(r) != ERROR && Length(r) < Length(l)
  }

  lemma {:induction false} SoundExpression(l: List<Token>, bp: nat) returns (c: Cst, r: List<Token>)
    requires Lexed(l) && PREC_EXPR <= bp <= PREC_TOP && ExpressionBp(At(l), bp).1.mode == CLEAN
    ensures Found(l, bp, c, r)
    decreases Length(l), 5
  {
    hide ExpressionBp, Continue, Prefix, Infix, Ok, Yield, Abs;
    LoopStart(At(l), bp);
    var c0, r0 := SoundPrefix(l);
    c, r := SoundLoop(r0, c0, bp);
  }

  lemma {:induction false} SoundLoop(l: List<Token>, left: Cst, bp: nat) returns (c: Cst, r: List<Token>)
    requires Lexed(l) && Kind(l) != ERROR && bp >= PREC_EXPR
    requires Ok(left, Kind(l)) && Level(left) >= bp
    requires Continue(At(l), Abs(left), bp).1.mode == CLEAN
    ensures Level(c) >= bp && Ok(c, Kind(r)) && Lbp(Kind(r)) < bp
    ensures Yield(c, r) == Yield(left, l)
    ensures Continue(At(l), Abs(left), bp) == (Abs(c), At(r))
    ensures Lexed(r) && Kind(r) != ERROR && Length(r) <= Length(l)
    decreases Length(l), 4
  {
    hide ExpressionBp, Continue, Prefix, Infix, Ok, Yield, Abs, Level;
    if Lbp(Kind(l)) < bp {
      LoopStop(At(l), Abs(left), bp);
      c, r := left, l;
    } else {
      LoopStep(At(l), Abs(left), bp);
      var c1, r1 := SoundInfix(l, left, bp);
      c, r := SoundLoop(r1, c1, bp);
    }
  }

  lemma {:induction false} SoundInfix(l: List<Token>, left: Cst, bp: nat) returns (c: Cst, r: List<Token>)
    requires Lexed(l) && Kind(l) != ERROR && Lbp(Kind(l)) >= bp >= PREC_EXPR
    requires Ok(left, Kind(l)) && Infix(At(l), Abs(left)).1.mode == CLEAN
    ensures Level(c) >= bp && Ok(c, Kind(r))
    ensures Yield(c, r) == Yield(left, l)
    ensures Infix(At(l), Abs(left)) == (Abs(c), At(r))
    ensures Remainder(l, r)
    decreases Length(l), 3
  {
    hide BinopExpr, CallExpr, IndexingExpr, FieldExpr, AssignExpr, EqErrExpr, Ok, Yield, Abs, Level;
    match LeftInfo(Kind(l)) {
      case LedBinop => c, r := SoundBin(l, left);
      case LedCall => c, r := SoundCall(l, left);
      case LedIndexing => c, r := SoundIndex(l, left);
      case LedField => c, r := SoundField(l, left);
      case LedAssign => c, r := SoundAssign(l, left);
      case _ => assert false;
    }
  }

  lemma {:induction false} SoundBin(l: List<Token>, left: Cst) returns (c: Cst, r: List<Token>)
    requires Lexed(l) && IsOperator(Kind(l))
    requires Ok(left, Kind(l)) && BinopExpr(At(l), Abs(left)).1.mode == CLEAN
    ensures Level(c) == Lbp(Kind(l)) && Ok(c, Kind(r))
    ensures Yield(c, r) == Yield(left, l)
    ensures BinopExpr(At(l), Abs(left)) == (Abs(c), At(r))
    ensures Remainder(l, r)
    decreases Length(l), 2
  {
    hide ExpressionBp;
    FollowLevel(left, Kind(l));
    var x := TakeAny(l);
    var right;
    right, r := SoundExpression(x, Rbp(Kind(l)));
    c := CBin(left, l.head, right);
  }

  lemma {:induction false} SoundCall(l: List<Token>, left: Cst) returns (c: Cst, r: List<Token>)
    requires Lexed(l) && Kind(l) == LPAREN
    requires Ok(left, Kind(l)) && CallExpr(At(l), Abs(left)).1.mode == CLEAN
    ensures Level(c) == PREC_POST && Ok(c, Kind(r))
    ensures Yield(c, r) == Yield(left, l)
    ensures CallExpr(At(l), Abs(left)) == (Abs(c), At(r))
    ensures Remainder(l, r)
    decreases Length(l), 2
  {
    hide ExpressionList;
    FollowLevel(left, LPAREN);
    var x := Take(l, LPAREN);
    var args;
    args, r := SoundList(x, COMMA, RPAREN);
    c := CCall(left, args);
  }

  lemma {:induction false} SoundIndex(l: List<Token>, left: Cst) returns (c: Cst, r: List<Token>)
    requires Lexed(l) && Kind(l) == LBRACKET
    requires Ok(left, Kind(l)) && IndexingExpr(At(l), Abs(left)).1.mode == CLEAN
    ensures Level(c) == PREC_POST && Ok(c, Kind(r))
    ensures Yield(c, r) == Yield(left, l)
    ensures IndexingExpr(At(l), Abs(left)) == (Abs(c), At(r))
    ensures Remainder(l, r)
    decreases Length(l), 2
  {
    hide ExpressionBp;
    FollowLevel(left, LBRACKET);
    var x := Take(l, LBRACKET);
    var i, y := SoundExpression(x, PREC_EXPR);
    r := Take(y, RBRACKET);
    c := CIndex(left, i);
  }

  lemma {:induction false} SoundField(l: List<Token>, left: Cst) returns (c: Cst, r: List<Token>)
    requires Lexed(l) && Kind(l) == DOT
    requires Ok(left, Kind(l)) && FieldExpr(At(l), Abs(left)).1.mode == CLEAN
    ensures Level(c) == PREC_POST && Ok(c, Kind(r))
    ensures Yield(c, r) == Yield(left, l)
    ensures FieldExpr(At(l), Abs(left)) == (Abs(c), At(r))
    ensures Remainder(l, r)
  {
    FollowLevel(left, DOT);
    var x := Take(l, DOT);
    r := TakeAny(x);
    c := CField(left, x.head);
  }

  lemma {:induction false} SoundAssign(l: List<Token>, left: Cst) returns (c: Cst, r: List<Token>)
    requires Lexed(l) && Kind(l) == LARROW
    requires Ok(left, Kind(l)) && AssignExpr(At(l), Abs(left)).1.mode == CLEAN
    ensures Level(c) == PREC_ASGN && Ok(c, Kind(r))
    ensures Yield(c, r) == Yield(left, l)
    ensures AssignExpr(At(l), Abs(left)) == (Abs(c), At(r))
    ensures Remainder(l, r)
    decreases Length(l), 2
  {
    hide ExpressionBp;
    FollowLevel(left, LARROW);
    var x := Take(l, LARROW);
    var right;
    right, r := SoundExpression(x, PREC_ASGN);
    c := CAssign(left, right);
  }

  lemma {:induction false} SoundPrefix(l: List<Token>) returns (c: Cst, r: List<Token>)
    requires Lexed(l) && Prefix(At(l)).1.mode == CLEAN
    ensures FoundPrefix(l, c, r)
    decreases Length(l), 3
  {
    hide ExpressionBp, ExpressionList, IdentifierList, ParenExpr, BlockExpr, LetExpr, ArrayExpr, ObjectExpr,
         CondExpr, LoopExpr, PrintExpr, FunctionExpr, IntegerValue, IsValueOf;
    match NullInfo(Kind(l)) {
      case NudErr => assert false;
      case NudPrimary =>
        r := TakeAny(l);
        c := CPrimary(l.head, Prefix(At(l)).0);
        LiteralValue(l.head.str);
      case NudIdent =>
        r := TakeAny(l);
        c := CVar(l.head);
      case NudParen => c, r := SoundParen(l);
      case NudBlock => c, r := SoundBlock(l);
      case NudCond => c, r := SoundIf(l);
      case NudLet => c, r := SoundLet(l);
      case NudPrint => c, r := SoundPrint(l);
      case NudObject => c, r := SoundObject(l);
      case NudLoop => c, r := SoundWhile(l);
      case NudFunction => c, r := SoundFunction(l);
      case NudArray => c, r := SoundArray(l);
    }
  }

  lemma {:induction false} SoundParen(l: List<Token>) returns (c: Cst, r: List<Token>)
    requires Lexed(l) && Kind(l) == LPAREN && ParenExpr(At(l)).1.mode == CLEAN
    ensures Level(c) == PREC_TOP && Ok(c, Kind(r)) && Yield(c, r) == l
    ensures ParenExpr(At(l)) == (Abs(c), At(r)) && Remainder(l, r)
    decreases Length(l), 2
  {
    hide ExpressionBp;
    var x := Take(l, LPAREN);
    var e, y := SoundExpression(x, PREC_EXPR);
    r := Take(y, RPAREN);
    c := CParen(e);
  }

  lemma {:induction false} SoundBlock(l: List<Token>) returns (c: Cst, r: List<Token>)
    requires Lexed(l) && Kind(l) == BEGIN && BlockExpr(At(l)).1.mode == CLEAN
    ensures Level(c) == PREC_TOP && Ok(c, Kind(r)) && Yield(c, r) == l
    ensures BlockExpr(At(l)) == (Abs(c), At(r)) && Remainder(l, r)
    decreases Length(l), 2
  {
    hide ExpressionList;
    var x := Take(l, BEGIN);
    var items;
    items, r := SoundList(x, SEMICOLON, END);
    c := CBlock(items);
  }

  lemma {:induction false} SoundLet(l: List<Token>) returns (c: Cst, r: List<Token>)
    requires Lexed(l) && Kind(l) == LET && LetExpr(At(l)).1.mode == CLEAN
    ensures Level(c) == PREC_TOP && Ok(c, Kind(r)) && Yield(c, r) == l
    ensures LetExpr(At(l)) == (Abs(c), At(r)) && Remainder(l, r)
    decreases Length(l), 2
  {
    hide ExpressionBp;
    var x := Take(l, LET);
    var y := TakeAny(x);
    var z := Take(y, EQUAL);
    var e;
    e, r := SoundExpression(z, PREC_EXPR);
    c := CLet(x.head, e);
  }

  lemma {:induction false} SoundArray(l: List<Token>) returns (c: Cst, r: List<Token>)
    requires Lexed(l) && Kind(l) == ARRAY && ArrayExpr(At(l)).1.mode == CLEAN
    ensures Level(c) == PREC_TOP && Ok(c, Kind(r)) && Yield(c, r) == l
    ensures ArrayExpr(At(l)) == (Abs(c), At(r)) && Remainder(l, r)
    decreases Length(l), 2
  {
    hide ExpressionBp;
    var x := Take(l, ARRAY);
    var y := Take(x, LPAREN);
    var n, z := SoundExpression(y, PREC_EXPR);
    var w := Take(z, COMMA);
    var v, u := SoundExpression(w, PREC_EXPR);
    r := Take(u, RPAREN);
    c := CArray(n, v);
  }

  lemma {:induction false} SoundObject(l: List<Token>) returns (c: Cst, r: List<Token>)
    requires Lexed(l) && Kind(l) == OBJECT && ObjectExpr(At(l)).1.mode == CLEAN
    ensures Level(c) == PREC_TOP && Ok(c, Kind(r)) && Yield(c, r) == l
    ensures ObjectExpr(At(l)) == (Abs(c), At(r)) && Remainder(l, r)
    decreases Length(l), 2
  {
    hide ExpressionBp, ExpressionList, MembersOk;
    var x := Take(l, OBJECT);
    var ext, y := CNone, x;
    if Kind(x) == EXTENDS {
      var z := Take(x, EXTENDS);
      var e;
      e, y := SoundExpression(z, PREC_EXPR);
      ext := CSome(e);
    }
    var w := Take(y, BEGIN);
    var members;
    members, r := SoundList(w, SEMICOLON, END);
    c := CObject(ext, members);
  }

  lemma {:induction false} SoundIf(l: List<Token>) returns (c: Cst, r: List<Token>)
    requires Lexed(l) && Kind(l) == IF && CondExpr(At(l)).1.mode == CLEAN
    ensures Level(c) == PREC_TOP && Ok(c, Kind(r)) && Yield(c, r) == l
    ensures CondExpr(At(l)) == (Abs(c), At(r)) && Remainder(l, r)
    decreases Length(l), 2
  {
    hide ExpressionBp, Lexed, Spelled, MembersOk, Literal, LeftInfo;
    var x := Take(l, IF);
    var g, y := SoundExpression(x, PREC_EXPR);
    var z := Take(y, THEN);
    var t, w := SoundExpression(z, PREC_EXPR);
    if Kind(w) == ELSE {
      var v := Take(w, ELSE);
      var e;
      e, r := SoundExpression(v, PREC_EXPR);
      c := CIf(g, t, CSome(e));
    } else {
      c, r := CIf(g, t, CNone), w;
    }
  }

  lemma {:induction false} SoundWhile(l: List<Token>) returns (c: Cst, r: List<Token>)
    requires Lexed(l) && Kind(l) == WHILE && LoopExpr(At(l)).1.mode == CLEAN
    ensures Level(c) == PREC_TOP && Ok(c, Kind(r)) && Yield(c, r) == l
    ensures LoopExpr(At(l)) == (Abs(c), At(r)) && Remainder(l, r)
    decreases Length(l), 2
  {
    hide ExpressionBp;
    var x := Take(l, WHILE);
    var g, y := SoundExpression(x, PREC_EXPR);
    var z := Take(y, DO);
    var b;
    b, r := SoundExpression(z, PREC_EXPR);
    c := CWhile(g, b);
  }

  lemma {:induction false} SoundPrint(l: List<Token>) returns (c: Cst, r: List<Token>)
    requires Lexed(l) && Kind(l) == PRINT && PrintExpr(At(l)).1.mode == CLEAN
    ensures Level(c) == PREC_TOP && Ok(c, Kind(r)) && Yield(c, r) == l
    ensures PrintExpr(At(l)) == (Abs(c), At(r)) && Remainder(l, r)
    decreases Length(l), 2
  {
    hide ExpressionList, Placeholders;
    var x := Take(l, PRINT);
    var y := Take(x, LPAREN);
    var z := TakeAny(y);
    if Kind(z) == COMMA {
      var w := Take(z, COMMA);
      var args;
      args, r := SoundList(w, COMMA, RPAREN);
      c := CPrint(y.head, Args(args));
    } else {
      r := Take(z, RPAREN);
      c := CPrint(y.head, NoArgs);
    }
  }

  lemma {:induction false} SoundFunction(l: List<Token>) returns (c: Cst, r: List<Token>)
    requires Lexed(l) && Kind(l) == FUNCTION && FunctionExpr(At(l)).1.mode == CLEAN
    ensures Level(c) == PREC_TOP && Ok(c, Kind(r)) && Yield(c, r) == l
    ensures FunctionExpr(At(l)) == (Abs(c), At(r)) && Remainder(l, r)
    decreases Length(l), 2
  {
    hide ExpressionBp, IdentifierList;
    var x := Take(l, FUNCTION);
    var name, y := Anonymous, x;
    if IsIdentifier(Kind(x)) {
      y := TakeAny(x);
      name := Named(x.head);
    }
    var z := Take(y, LPAREN);
    var ps, w := SoundNames(z);
    var v := Take(w, RARROW);
    var b;
    b, r := SoundExpression(v, PREC_EXPR);
    c := CFunction(name, ps, b);
  }

  lemma {:induction false} SoundNames(l: List<Token>) returns (xs: NameList, r: List<Token>)
    requires Lexed(l) && IdentifierList(At(l), COMMA, RPAREN).1.mode == CLEAN
    ensures OkNames(xs) && YieldNames(xs, r) == l
    ensures IdentifierList(At(l), COMMA, RPAREN) == (Names(xs), At(r)) && Remainder(l, r)
    decreases Length(l)
  {
    if Kind(l) == RPAREN {
      r := Take(l, RPAREN);
      xs := NNil;
    } else {
      var y := TakeAny(l);
      if Kind(y) == COMMA {
        var z := Take(y, COMMA);
        var more;
        more, r := SoundNames(z);
        xs := NCons(l.head, more);
      } else {
        r := Take(y, RPAREN);
        xs := NLast(l.head);
      }
    }
  }

  lemma {:induction false} SoundList(l: List<Token>, separator: TokenKind, terminator: TokenKind)
    returns (es: CList, r: List<Token>)
    requires ListTokens(separator, terminator) && Lexed(l)
    requires ExpressionList(At(l), separator, terminator).1.mode == CLEAN
    ensures OkList(es, separator, terminator) && YieldList(es, separator, terminator, r) == l
    ensures ExpressionList(At(l), separator, terminator) == (AbsList(es), At(r))
    ensures if terminator == EOF then r == Nil else Remainder(l, r)
    decreases Length(l), 6
  {
    hide ExpressionBp, Ok, Yield, Abs;
    if Kind(l) == terminator {
      es := LNil;
      if terminator == EOF {
        r := Nil;
      } else {
        r := Take(l, terminator);
      }
    } else {
      var e, x := SoundExpression(l, PREC_EXPR);
      if Kind(x) == separator {
        var y := Take(x, separator);
        var more;
        more, r := SoundList(y, separator, terminator);
        es := LCons(e, more);
      } else if terminator == EOF {
        es, r := LLast(e), Nil;
      } else {
        r := Take(x, terminator);
        es := LLast(e);
      }
    }
  }

  // The parser accepts exactly the token lists derived from the stratified grammar:
  // acceptance yields a derivation, and every derivation is accepted with its own meaning.
  lemma AcceptanceIsDerivability(tokens: List<Token>)
    requires Lexed(tokens)
    ensures Parse(tokens).Accepted? <==> exists p :: Strata.Derives(tokens, p)
    ensures forall p :: Strata.Derives(tokens, p) ==> Parse(tokens) == Accepted(ProgramAst(p))
  {
    hide Strata.Derives, Grammar.Derives;
    if Parse(tokens).Accepted? {
      var p := AcceptedDerivation(tokens);
      Strata.SameDerivations(tokens, p);
      assert Strata.Derives(tokens, p);
    }
    forall p | Strata.Derives(tokens, p) ensures Parse(tokens) == Accepted(ProgramAst(p)) {
      Strata.SameDerivations(tokens, p);
      AcceptsGrammar(tokens, p);
    }
  }

  lemma AcceptedDerivation(tokens: List<Token>) returns (p: CList)
    requires Lexed(tokens) && Parse(tokens).Accepted?
    ensures Derives(tokens, p) && Parse(tokens) == Accepted(ProgramAst(p))
  {
    hide ExpressionList;
    assert Discard(State(EOF_TOKEN, tokens, CLEAN)).mode == CLEAN;
    var r;
    p, r := SoundList(tokens, SEMICOLON, EOF);
  }
}
