/** Single steps of an error-free parse: one production, one turn of the main loop. */
module Productions {
  import opened Tokens
  import opened Ast
  import opened Lists
  import opened Grammar
  import opened ParserSpec

  // The error-free parser state with `tokens` ahead.
  function At(tokens: List<Token>): State {
    match tokens
    case Nil => State(EOF_TOKEN, Nil, CLEAN)
    case Cons(t, rest) => State(t, rest, CLEAN)
  }

  function Kind(tokens: List<Token>): TokenKind {
    match tokens
    case Nil => EOF
    case Cons(t, _) => t.kind
  }

  // ------------------------------------------------- one production at a time

  // `Parses(x, bp, a, tail)`: an expression at binding power bp reads a from x and
  // stops, without error, in front of tail.
  predicate Parses(x: List<Token>, bp: nat, a: Ast, tail: List<Token>)
    requires bp >= PREC_EXPR
  {
    Kind(x) != ERROR && Kind(tail) != ERROR && ExpressionBp(At(x), bp) == (a, At(tail))
  }

  predicate ParsesList(x: List<Token>, separator: TokenKind, terminator: TokenKind, es: seq<Ast>, tail: List<Token>)
    requires separator != EOF
  {
    && Kind(x) != ERROR && Kind(tail) != ERROR
    && ExpressionList(At(x), separator, terminator) == (es, At(tail))
  }

  predicate ReadsNames(x: List<Token>, names: seq<string>, tail: List<Token>) {
    && Kind(x) != ERROR && Kind(tail) != ERROR
    && IdentifierList(At(x), COMMA, RPAREN) == (names, At(tail))
  }

  // A list is empty, or one element, or an element, a separator and a list.
  lemma ParseListEnd(separator: TokenKind, terminator: TokenKind, tail: List<Token>)
    requires separator != EOF && terminator != EOF && terminator != ERROR && Kind(tail) != ERROR
    ensures ParsesList(Cons(T(terminator), tail), separator, terminator, [], tail)
  {
    hide ExpressionBp;
  }

  lemma ParseListLast(x: List<Token>, separator: TokenKind, terminator: TokenKind, a: Ast, tail: List<Token>)
    requires separator != EOF && terminator != EOF && separator != terminator && Kind(x) != terminator
    requires Parses(x, PREC_EXPR, a, Cons(T(terminator), tail)) && Kind(tail) != ERROR
    ensures ParsesList(x, separator, terminator, [a], tail)
  {
    hide ExpressionBp;
  }

  lemma ParseListMore(x: List<Token>, separator: TokenKind, terminator: TokenKind, a: Ast, y: List<Token>,
                      es: seq<Ast>, tail: List<Token>)
    requires separator != EOF && Kind(x) != terminator
    requires Parses(x, PREC_EXPR, a, Cons(T(separator), y)) && ParsesList(y, separator, terminator, es, tail)
    ensures ParsesList(x, separator, terminator, [a] + es, tail)
  {
    hide ExpressionBp;
  }

  // The same for names.
  lemma ReadNamesEnd(tail: List<Token>)
    requires Kind(tail) != ERROR
    ensures ReadsNames(Cons(T(RPAREN), tail), [], tail)
  {
  }

  lemma ReadNamesLast(x: Token, tail: List<Token>)
    requires IsIdentifier(x.kind) && Kind(tail) != ERROR
    ensures ReadsNames(Cons(x, Cons(T(RPAREN), tail)), [x.str], tail)
  {
  }

  lemma ReadNamesMore(x: Token, y: List<Token>, names: seq<string>, tail: List<Token>)
    requires IsIdentifier(x.kind) && ReadsNames(y, names, tail)
    ensures ReadsNames(Cons(x, Cons(T(COMMA), y)), [x.str] + names, tail)
  {
  }

  lemma ParseParen(x: List<Token>, a: Ast, tail: List<Token>)
    requires Parses(x, PREC_EXPR, a, Cons(T(RPAREN), tail)) && Kind(tail) != ERROR
    ensures Prefix(At(Cons(T(LPAREN), x))) == (a, At(tail))
  {
    hide ExpressionBp,
         BlockExpr, LetExpr, ArrayExpr, ObjectExpr, CondExpr, LoopExpr, PrintExpr, FunctionExpr;
  }

  lemma ParseBlock(x: List<Token>, es: seq<Ast>, tail: List<Token>)
    requires ParsesList(x, SEMICOLON, END, es, tail)
    ensures Prefix(At(Cons(T(BEGIN), x))) == (if es == [] then Null else Block(es), At(tail))
  {
    hide ExpressionList,
         ParenExpr, LetExpr, ArrayExpr, ObjectExpr, CondExpr, LoopExpr, PrintExpr, FunctionExpr;
  }

  lemma ParseLet(name: Token, x: List<Token>, a: Ast, tail: List<Token>)
    requires IsIdentifier(name.kind) && Parses(x, PREC_EXPR, a, tail)
    ensures Prefix(At(Cons(T(LET), Cons(name, Cons(T(EQUAL), x))))) == (Definition(name.str, a), At(tail))
  {
    hide ExpressionBp,
         ParenExpr, BlockExpr, ArrayExpr, ObjectExpr, CondExpr, LoopExpr, PrintExpr, FunctionExpr;
  }

  lemma ParseArray(x: List<Token>, n: Ast, y: List<Token>, v: Ast, tail: List<Token>)
    requires Parses(x, PREC_EXPR, n, Cons(T(COMMA), y)) && Parses(y, PREC_EXPR, v, Cons(T(RPAREN), tail))
    requires Kind(tail) != ERROR
    ensures Prefix(At(Cons(T(ARRAY), Cons(T(LPAREN), x)))) == (Array(n, v), At(tail))
  {
    hide ExpressionBp,
         ParenExpr, BlockExpr, LetExpr, ObjectExpr, CondExpr, LoopExpr, PrintExpr, FunctionExpr;
  }

  lemma ParseObject(x: List<Token>, members: seq<Ast>, tail: List<Token>)
    requires ParsesList(x, SEMICOLON, END, members, tail) && MembersOk(members)
    ensures Prefix(At(Cons(T(OBJECT), Cons(T(BEGIN), x)))) == (Object(Null, members), At(tail))
  {
    hide ExpressionBp, ExpressionList, MembersOk,
         ParenExpr, BlockExpr, LetExpr, ArrayExpr, CondExpr, LoopExpr, PrintExpr, FunctionExpr;
  }

  lemma ParseExtends(x: List<Token>, ext: Ast, y: List<Token>, members: seq<Ast>, tail: List<Token>)
    requires Parses(x, PREC_EXPR, ext, Cons(T(BEGIN), y))
    requires ParsesList(y, SEMICOLON, END, members, tail) && MembersOk(members)
    ensures Prefix(At(Cons(T(OBJECT), Cons(T(EXTENDS), x)))) == (Object(ext, members), At(tail))
  {
    hide ExpressionBp, ExpressionList, MembersOk,
         ParenExpr, BlockExpr, LetExpr, ArrayExpr, CondExpr, LoopExpr, PrintExpr, FunctionExpr;
  }

  lemma ParseIf(x: List<Token>, c: Ast, y: List<Token>, a: Ast, tail: List<Token>)
    requires Parses(x, PREC_EXPR, c, Cons(T(THEN), y)) && Parses(y, PREC_EXPR, a, tail) && Kind(tail) != ELSE
    ensures Prefix(At(Cons(T(IF), x))) == (Conditional(c, a, Null), At(tail))
  {
    hide ExpressionBp,
         ParenExpr, BlockExpr, LetExpr, ArrayExpr, ObjectExpr, LoopExpr, PrintExpr, FunctionExpr;
  }

  lemma ParseIfElse(x: List<Token>, c: Ast, y: List<Token>, a: Ast, z: List<Token>, b: Ast, tail: List<Token>)
    requires Parses(x, PREC_EXPR, c, Cons(T(THEN), y)) && Parses(y, PREC_EXPR, a, Cons(T(ELSE), z))
    requires Parses(z, PREC_EXPR, b, tail)
    ensures Prefix(At(Cons(T(IF), x))) == (Conditional(c, a, b), At(tail))
  {
    hide ExpressionBp,
         ParenExpr, BlockExpr, LetExpr, ArrayExpr, ObjectExpr, LoopExpr, PrintExpr, FunctionExpr;
  }

  lemma ParseWhile(x: List<Token>, c: Ast, y: List<Token>, b: Ast, tail: List<Token>)
    requires Parses(x, PREC_EXPR, c, Cons(T(DO), y)) && Parses(y, PREC_EXPR, b, tail)
    ensures Prefix(At(Cons(T(WHILE), x))) == (Loop(c, b), At(tail))
  {
    hide ExpressionBp,
         ParenExpr, BlockExpr, LetExpr, ArrayExpr, ObjectExpr, CondExpr, PrintExpr, FunctionExpr;
  }

  lemma ParsePrint(format: Token, tail: List<Token>)
    requires format.kind == STRING && Placeholders(format.str) == 0 && Kind(tail) != ERROR
    ensures Prefix(At(Cons(T(PRINT), Cons(T(LPAREN), Cons(format, Cons(T(RPAREN), tail))))))
         == (Print(format.str, []), At(tail))
  {
    hide ExpressionList, Placeholders,
         ParenExpr, BlockExpr, LetExpr, ArrayExpr, ObjectExpr, CondExpr, LoopExpr, FunctionExpr;
  }

  lemma ParsePrintArgs(format: Token, x: List<Token>, args: seq<Ast>, tail: List<Token>)
    requires format.kind == STRING && Placeholders(format.str) == |args|
    requires ParsesList(x, COMMA, RPAREN, args, tail)
    ensures Prefix(At(Cons(T(PRINT), Cons(T(LPAREN), Cons(format, Cons(T(COMMA), x))))))
         == (Print(format.str, args), At(tail))
  {
    hide ExpressionList, Placeholders,
         ParenExpr, BlockExpr, LetExpr, ArrayExpr, ObjectExpr, CondExpr, LoopExpr, FunctionExpr;
  }

  lemma ParseFunction(x: List<Token>, names: seq<string>, y: List<Token>, b: Ast, tail: List<Token>)
    requires ReadsNames(x, names, Cons(T(RARROW), y)) && Parses(y, PREC_EXPR, b, tail)
    ensures Prefix(At(Cons(T(FUNCTION), Cons(T(LPAREN), x)))) == (Function(names, b), At(tail))
  {
    hide ExpressionBp, IdentifierList,
         ParenExpr, BlockExpr, LetExpr, ArrayExpr, ObjectExpr, CondExpr, LoopExpr, PrintExpr;
  }

  lemma ParseNamedFunction(name: Token, x: List<Token>, names: seq<string>, y: List<Token>, b: Ast, tail: List<Token>)
    requires IsIdentifier(name.kind)
    requires ReadsNames(x, names, Cons(T(RARROW), y)) && Parses(y, PREC_EXPR, b, tail)
    ensures Prefix(At(Cons(T(FUNCTION), Cons(name, Cons(T(LPAREN), x)))))
         == (Definition(name.str, Function(names, b)), At(tail))
  {
    hide ExpressionBp, IdentifierList,
         ParenExpr, BlockExpr, LetExpr, ArrayExpr, ObjectExpr, CondExpr, LoopExpr, PrintExpr;
  }

  lemma ParseBin(left: Ast, op: Token, x: List<Token>, a: Ast, tail: List<Token>)
    requires IsOperator(op.kind) && Parses(x, Rbp(op.kind), a, tail)
    ensures BinopExpr(At(Cons(op, x)), left) == (MethodCall(left, op.str, [a]), At(tail))
  {
    hide ExpressionBp;
  }

  lemma ParseCall(left: Ast, x: List<Token>, args: seq<Ast>, tail: List<Token>)
    requires ParsesList(x, COMMA, RPAREN, args, tail)
    ensures CallExpr(At(Cons(T(LPAREN), x)), left)
         == (match left
             case FieldAccess(o, f) => MethodCall(o, f, args)
             case _ => FunctionCall(left, args), At(tail))
  {
    hide ExpressionList;
  }

  lemma ParseIndex(left: Ast, x: List<Token>, a: Ast, tail: List<Token>)
    requires Parses(x, PREC_EXPR, a, Cons(T(RBRACKET), tail)) && Kind(tail) != ERROR
    ensures IndexingExpr(At(Cons(T(LBRACKET), x)), left) == (IndexAccess(left, a), At(tail))
  {
    hide ExpressionBp;
  }

  lemma ParseAssign(left: Ast, x: List<Token>, a: Ast, tail: List<Token>)
    requires Parses(x, PREC_ASGN, a, tail)
    ensures var r := AssignExpr(At(Cons(T(LARROW), x)), left);
            match left
            case VariableAccess(v) => r == (VariableAssignment(v, a), At(tail))
            case FieldAccess(o, f) => r == (FieldAssignment(o, f, a), At(tail))
            case IndexAccess(o, i) => r == (IndexAssignment(o, i, a), At(tail))
            case _ => r.1.mode != CLEAN
  {
    hide ExpressionBp;
  }

  lemma ParseField(left: Ast, name: Token, tail: List<Token>)
    requires IsIdentifier(name.kind) && Kind(tail) != ERROR
    ensures FieldExpr(At(Cons(T(DOT), Cons(name, tail))), left) == (FieldAccess(left, name.str), At(tail))
  {
  }

  lemma ParseName(name: Token, tail: List<Token>)
    requires name.kind == IDENTIFIER && Kind(tail) != ERROR
    ensures Prefix(At(Cons(name, tail))) == (VariableAccess(name.str), At(tail))
  {
    hide ParenExpr, BlockExpr, LetExpr, ArrayExpr, ObjectExpr, CondExpr, LoopExpr, PrintExpr, FunctionExpr;
  }

  lemma ParseLiteral(t: Token, tail: List<Token>)
    requires t.kind == NULL || t.kind == TRUE || t.kind == FALSE
    requires Kind(tail) != ERROR
    ensures Prefix(At(Cons(t, tail)))
         == (if t.kind == NULL then Null else Boolean(t.kind == TRUE), At(tail))
  {
    hide ParenExpr, BlockExpr, LetExpr, ArrayExpr, ObjectExpr, CondExpr, LoopExpr, PrintExpr, FunctionExpr;
  }

  // -------------------------------------------------------------- the loop

  lemma LoopStep(s: State, left: Ast, bp: nat)
    requires Lbp(s.la.kind) >= bp >= PREC_EXPR
    ensures Continue(s, left, bp) == Continue(Infix(s, left).1, Infix(s, left).0, bp)
  {
    hide Infix;
  }

  lemma LoopStop(s: State, left: Ast, bp: nat)
    requires bp > Lbp(s.la.kind)
    ensures Continue(s, left, bp) == (left, s)
  {
    hide Infix;
  }

  lemma LoopStart(s: State, bp: nat)
    requires bp >= PREC_EXPR
    ensures ExpressionBp(s, bp) == Continue(Prefix(s).1, Prefix(s).0, bp)
  {
    hide Prefix, Continue;
  }
}
