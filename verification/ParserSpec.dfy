/**
 What the parser computes, as functions from parser state to parser state.
 The error paths are included: a parser that has already reported an error keeps
 parsing until it reaches a synchronization point.
 */
module ParserSpec {
  import opened Tokens
  import opened Ast
  import opened Lists

  // CLEAN: no error so far. ERRORED: an error was reported. PANIC: an error was
  // reported and further ones are muted until the parser has synchronized.
  datatype Mode = CLEAN | ERRORED | PANIC

  // The lookahead token, the tokens the lexer has yet to deliver (without the
  // final end of input, which it delivers forever), and the error mode.
  datatype State = State(la: Token, rest: List<Token>, mode: Mode)

  // Two units for every token not yet delivered, one for a real lookahead. A faked
  // end of input gives up one unit, so it cannot stall the parser.
  function Measure(s: State): nat {
    2 * Length(s.rest) + if s.la.kind == EOF then 0 else 1
  }

  // How parsing moves forward: the input shrinks and errors are never forgotten.
  predicate Forward(s: State, t: State) {
    && Measure(t) <= Measure(s)
    && (s.mode != CLEAN ==> t.mode != CLEAN)
  }

  function Report(s: State, panic: bool): (t: State)
    ensures t.mode != CLEAN && t.la == s.la && t.rest == s.rest
  {
    if s.mode == PANIC then s else s.(mode := if panic then PANIC else ERRORED)
  }

  function Discard(s: State): (t: State)
    ensures Forward(s, t)
    ensures s.la.kind != EOF ==> Measure(t) < Measure(s)
  {
    var t := match s.rest
      case Nil => s.(la := EOF_TOKEN)
      case Cons(next, more) => s.(la := next, rest := more);
    if t.la.kind == ERROR then Report(t, true) else t
  }

  function Eat(s: State, k: TokenKind): (t: State)
    ensures Forward(s, t)
    ensures s.la.kind == k != EOF ==> Measure(t) < Measure(s)
  {
    if s.la.kind == k then Discard(s) else Report(s, true)
  }

  function EatIdentifier(s: State): (r: (string, State))
    ensures Forward(s, r.1)
  {
    if IsIdentifier(s.la.kind) then (s.la.str, Discard(s)) else ("", Report(s, true))
  }

  function ReportUnless(s: State, ok: bool): (t: State)
    ensures Forward(s, t)
  {
    if ok then s else Report(s, false)
  }

  // ---------------------------------------------------------------- literals

  function StripMinus(str: string): (r: (bool, string))
  {
    if str != "" && str[0] == '-' then
      var (neg, digits) := StripMinus(str[1..]);
      (!neg, digits)
    else (false, str)
  }

  function Digits(str: string, value: int): int {
    if str == "" then value
    else Digits(str[1..], value * 10 + (str[0] as int - '0' as int))
  }

  // The 64-bit accumulator wraps; truncating the result to 32 bits hides that.
  function IntegerValue(str: string): int {
    var (neg, digits) := StripMinus(str);
    var v := Digits(digits, 0);
    Wrap32(if neg then -v else v)
  }

  // ------------------------------------------------------------------- lists

  function ExpressionList(s: State, separator: TokenKind, terminator: TokenKind): (r: (seq<Ast>, State))
    requires separator != EOF
    ensures Forward(s, r.1)
    decreases Measure(s), 6
  {
    if s.la.kind == terminator then ([], Discard(s))
    else
      var (e, s1) := ExpressionBp(s, PREC_EXPR);
      if s1.la.kind == separator then
        var (es, s2) := ExpressionList(Discard(s1), separator, terminator);
        ([e] + es, s2)
      else ([e], Eat(s1, terminator))
  }

  function IdentifierList(s: State, separator: TokenKind, terminator: TokenKind): (r: (seq<string>, State))
    requires separator != EOF
    ensures Forward(s, r.1)
    decreases Measure(s)
  {
    if s.la.kind == terminator then ([], Discard(s))
    else
      var (x, s1) := EatIdentifier(s);
      if s1.la.kind == separator then
        var (xs, s2) := IdentifierList(Discard(s1), separator, terminator);
        ([x] + xs, s2)
      else ([x], Eat(s1, terminator))
  }

  // ------------------------------------------------------------ start tokens

  function Primary(s: State): (r: (Ast, State))
    requires NullInfo(s.la.kind) == NudPrimary
    ensures Forward(s, r.1)
  {
    var ast := if s.la.kind == NUMBER then Integer(IntegerValue(s.la.str))
      else if s.la.kind == TRUE then Boolean(true)
      else if s.la.kind == FALSE then Boolean(false)
      else Null;
    (ast, Discard(s))
  }

  function Ident(s: State): (r: (Ast, State))
    ensures Forward(s, r.1)
  {
    var (x, s1) := EatIdentifier(s);
    (VariableAccess(x), s1)
  }

  function BlockExpr(s: State): (r: (Ast, State))
    requires s.la.kind == BEGIN
    ensures Forward(s, r.1)
    decreases Measure(s), 2
  {
    var (es, s1) := ExpressionList(Eat(s, BEGIN), SEMICOLON, END);
    (if es == [] then Null else Block(es), s1)
  }

  function LetExpr(s: State): (r: (Ast, State))
    requires s.la.kind == LET
    ensures Forward(s, r.1)
    decreases Measure(s), 2
  {
    var (x, s1) := EatIdentifier(Eat(s, LET));
    var (v, s2) := ExpressionBp(Eat(s1, EQUAL), PREC_EXPR);
    (Definition(x, v), s2)
  }

  function ArrayExpr(s: State): (r: (Ast, State))
    requires s.la.kind == ARRAY
    ensures Forward(s, r.1)
    decreases Measure(s), 2
  {
    var (n, s1) := ExpressionBp(Eat(Eat(s, ARRAY), LPAREN), PREC_EXPR);
    var (v, s2) := ExpressionBp(Eat(s1, COMMA), PREC_EXPR);
    (Array(n, v), Eat(s2, RPAREN))
  }

  function ObjectExpr(s: State): (r: (Ast, State))
    requires s.la.kind == OBJECT
    ensures Forward(s, r.1)
    decreases Measure(s), 2
  {
    var s1 := Eat(s, OBJECT);
    var (ext, s2) := if s1.la.kind == EXTENDS then ExpressionBp(Discard(s1), PREC_EXPR) else (Null, s1);
    var (members, s3) := ExpressionList(Eat(s2, BEGIN), SEMICOLON, END);
    (Object(ext, members), ReportUnless(s3, MembersOk(members)))
  }

  function CondExpr(s: State): (r: (Ast, State))
    requires s.la.kind == IF
    ensures Forward(s, r.1)
    decreases Measure(s), 2
  {
    var (c, s1) := ExpressionBp(Eat(s, IF), PREC_EXPR);
    var (t, s2) := ExpressionBp(Eat(s1, THEN), PREC_EXPR);
    var (e, s3) := if s2.la.kind == ELSE then ExpressionBp(Discard(s2), PREC_EXPR) else (Null, s2);
    (Conditional(c, t, e), s3)
  }

  function LoopExpr(s: State): (r: (Ast, State))
    requires s.la.kind == WHILE
    ensures Forward(s, r.1)
    decreases Measure(s), 2
  {
    var (c, s1) := ExpressionBp(Eat(s, WHILE), PREC_EXPR);
    var (b, s2) := ExpressionBp(Eat(s1, DO), PREC_EXPR);
    (Loop(c, b), s2)
  }

  function PrintExpr(s: State): (r: (Ast, State))
    requires s.la.kind == PRINT
    ensures Forward(s, r.1)
    decreases Measure(s), 2
  {
    var s1 := Eat(Eat(s, PRINT), LPAREN);
    var format := if s1.la.kind == STRING then s1.la.str else "";
    var s2 := Eat(s1, STRING);
    var (args, s3) := if s2.la.kind == COMMA then ExpressionList(Discard(s2), COMMA, RPAREN)
                      else ([], Eat(s2, RPAREN));
    (Print(format, args), ReportUnless(s3, Placeholders(format) == |args|))
  }

  function ParenExpr(s: State): (r: (Ast, State))
    requires s.la.kind == LPAREN
    ensures Forward(s, r.1)
    decreases Measure(s), 2
  {
    var (e, s1) := ExpressionBp(Eat(s, LPAREN), PREC_EXPR);
    (e, Eat(s1, RPAREN))
  }

  function FunctionExpr(s: State): (r: (Ast, State))
    requires s.la.kind == FUNCTION
    ensures Forward(s, r.1)
    decreases Measure(s), 2
  {
    var s1 := Eat(s, FUNCTION);
    var named := IsIdentifier(s1.la.kind);
    var (x, s2) := if named then EatIdentifier(s1) else ("", s1);
    var (params, s3) := IdentifierList(Eat(s2, LPAREN), COMMA, RPAREN);
    var (body, s4) := ExpressionBp(Eat(s3, RARROW), PREC_EXPR);
    (if named then Definition(x, Function(params, body)) else Function(params, body), s4)
  }

  function Prefix(s: State): (r: (Ast, State))
    ensures Forward(s, r.1)
    decreases Measure(s), 3
  {
    match NullInfo(s.la.kind)
    case NudErr => (Null, Report(s, true))
    case NudPrimary => Primary(s)
    case NudIdent => Ident(s)
    case NudParen => ParenExpr(s)
    case NudBlock => BlockExpr(s)
    case NudCond => CondExpr(s)
    case NudLet => LetExpr(s)
    case NudPrint => PrintExpr(s)
    case NudObject => ObjectExpr(s)
    case NudLoop => LoopExpr(s)
    case NudFunction => FunctionExpr(s)
    case NudArray => ArrayExpr(s)
  }

  // ------------------------------------------------------ continuing tokens

  function LeftErr(s: State): (r: (Ast, State))
    requires s.la.kind != EOF
    ensures Forward(s, r.1) && Measure(r.1) < Measure(s)
  {
    // the lookahead becomes a fake end of input
    var s1 := Report(s, true);
    (Null, s1.(la := s1.la.(kind := EOF)))
  }

  function BinopExpr(s: State, left: Ast): (r: (Ast, State))
    requires IsOperator(s.la.kind)
    ensures Forward(s, r.1) && Measure(r.1) < Measure(s)
    decreases Measure(s), 2
  {
    var (right, s1) := ExpressionBp(Discard(s), Rbp(s.la.kind));
    (MethodCall(left, s.la.str, [right]), s1)
  }

  // A call of a field access is a method call, whatever parentheses were around it.
  function CallExpr(s: State, left: Ast): (r: (Ast, State))
    requires s.la.kind == LPAREN
    ensures Forward(s, r.1) && Measure(r.1) < Measure(s)
    decreases Measure(s), 2
  {
    var (args, s1) := ExpressionList(Eat(s, LPAREN), COMMA, RPAREN);
    (Call(left, args), s1)
  }

  function Call(left: Ast, args: seq<Ast>): Ast {
    if left.FieldAccess? then MethodCall(left.faObject, left.field, args) else FunctionCall(left, args)
  }

  function IndexingExpr(s: State, left: Ast): (r: (Ast, State))
    requires s.la.kind == LBRACKET
    ensures Forward(s, r.1) && Measure(r.1) < Measure(s)
    decreases Measure(s), 2
  {
    var (i, s1) := ExpressionBp(Eat(s, LBRACKET), PREC_EXPR);
    (IndexAccess(left, i), Eat(s1, RBRACKET))
  }

  function FieldExpr(s: State, left: Ast): (r: (Ast, State))
    requires s.la.kind == DOT
    ensures Forward(s, r.1) && Measure(r.1) < Measure(s)
  {
    var (x, s1) := EatIdentifier(Eat(s, DOT));
    (FieldAccess(left, x), s1)
  }

  predicate Assignable(left: Ast) {
    left.VariableAccess? || left.FieldAccess? || left.IndexAccess?
  }

  function Assignment(left: Ast, value: Ast): Ast
    requires Assignable(left)
  {
    match left
    case VariableAccess(x) => VariableAssignment(x, value)
    case FieldAccess(o, f) => FieldAssignment(o, f, value)
    case IndexAccess(o, i) => IndexAssignment(o, i, value)
  }

  function AssignExpr(s: State, left: Ast): (r: (Ast, State))
    requires s.la.kind == LARROW
    ensures Forward(s, r.1) && Measure(r.1) < Measure(s)
    decreases Measure(s), 2
  {
    AssignFrom(Eat(s, LARROW), left, PREC_ASGN)
  }

  // After the arrow.
  function AssignFrom(s: State, left: Ast, rbp: nat): (r: (Ast, State))
    requires rbp >= PREC_EXPR
    ensures Forward(s, r.1)
    decreases Measure(s), 6
  {
    if Assignable(left) then
      var (value, s1) := ExpressionBp(s, rbp);
      (Assignment(left, value), s1)
    else (left, Report(s, false))
  }

  // `=` where `<-` was meant: reported, then read as an assignment whose right hand
  // side binds as tightly as the left-associative table entry of `=` says.
  function EqErrExpr(s: State, left: Ast): (r: (Ast, State))
    requires s.la.kind == EQUAL
    ensures Forward(s, r.1) && Measure(r.1) < Measure(s)
    ensures r.1.mode != CLEAN
    decreases Measure(s), 2
  {
    AssignFrom(Discard(Report(s, false)), left, Rbp(EQUAL))
  }

  function Infix(s: State, left: Ast): (r: (Ast, State))
    requires Lbp(s.la.kind) >= PREC_EXPR
    ensures Forward(s, r.1) && Measure(r.1) < Measure(s)
    decreases Measure(s), 3
  {
    match LeftInfo(s.la.kind)
    case LedErr => LeftErr(s)
    case LedBinop => BinopExpr(s, left)
    case LedCall => CallExpr(s, left)
    case LedEqErr => EqErrExpr(s, left)
    case LedAssign => AssignExpr(s, left)
    case LedField => FieldExpr(s, left)
    case LedIndexing => IndexingExpr(s, left)
  }

  // ------------------------------------------------------------ the main loop

  function Continue(s: State, left: Ast, bp: nat): (r: (Ast, State))
    requires bp >= PREC_EXPR
    ensures Forward(s, r.1)
    ensures Lbp(r.1.la.kind) < bp
    decreases Measure(s), 4
  {
    if Lbp(s.la.kind) < bp then (left, s)
    else
      var (left1, s1) := Infix(s, left);
      Continue(s1, left1, bp)
  }

  function ExpressionBp(s: State, bp: nat): (r: (Ast, State))
    requires bp >= PREC_EXPR
    ensures Forward(s, r.1)
    ensures Lbp(r.1.la.kind) < bp
    decreases Measure(s), 5
  {
    var (left, s1) := Prefix(s);
    Continue(s1, left, bp)
  }

  // ------------------------------------------------------------- whole input

  // Skip to a `;` followed by a token that starts an expression, or past the end of
  // input, real or faked.
  function Synchronize(s: State): (t: State)
    ensures Forward(s, t)
    ensures Measure(s) > 0 ==> Measure(t) < Measure(s)
    decreases Measure(s)
  {
    var t := Discard(s);
    if s.la.kind == EOF then t
    else if s.la.kind == SEMICOLON && NullInfo(t.la.kind) != NudErr then t
    else Synchronize(t)
  }

  // At the end of input nothing more can go wrong.
  lemma EndStays(s: State)
    ensures Measure(s) == 0 ==> Measure(Synchronize(s)) == 0
    ensures Measure(s) == 0 ==> ExpressionList(s, SEMICOLON, EOF) == ([], s.(la := EOF_TOKEN))
  {
  }

  function TopLoop(s: State): (r: (seq<Ast>, State))
    ensures Forward(s, r.1)
    ensures s.mode != CLEAN ==> r.1.mode != CLEAN
    decreases Measure(s), s.mode == PANIC
  {
    var (es, s1) := ExpressionList(s, SEMICOLON, EOF);
    if s1.mode != PANIC then (es, s1)
    else
      var s2 := Synchronize(s1);
      TopLoop(s2.(mode := ERRORED))
  }

  // The result of parsing a token list: the tree, or nothing after an error.
  datatype Result = Accepted(ast: Ast) | Rejected

  function Parse(tokens: List<Token>): Result {
    var s := Discard(State(EOF_TOKEN, tokens, CLEAN));
    var (es, t) := TopLoop(s);
    if t.mode != CLEAN then Rejected
    else Accepted(if es == [] then Null else Top(es))
  }
}
