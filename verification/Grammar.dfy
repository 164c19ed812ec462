/**
 Derivations of FML as concrete syntax trees. A tree keeps what the syntax tree forgets:
 parentheses, trailing separators, absent branches, spelling. `Ok` says by binding powers
 that a tree respects precedence, associativity and the greed of prefix forms when a given
 token follows it; `Strata` says the same by nonterminals. Nothing here refers to the
 parser.
 */
module Grammar {
  import opened Tokens
  import opened Ast
  import opened Lists

  datatype Cst =
    | CPrimary(tok: Token, value: Ast)
    | CVar(tok: Token)
    | CParen(inner: Cst)
    | CBlock(items: CList)
    | CLet(name: Token, bound: Cst)
    | CArray(size: Cst, init: Cst)
    | CObject(ext: COpt, members: CList)
    | CIf(cond: Cst, thn: Cst, els: COpt)
    | CWhile(cond: Cst, body: Cst)
    | CPrint(format: Token, args: CArgs)
    | CFunction(fname: NameOpt, params: NameList, body: Cst)
    | CBin(l: Cst, op: Token, r: Cst)
    | CCall(l: Cst, cargs: CList)
    | CIndex(l: Cst, i: Cst)
    | CField(l: Cst, name: Token)
    | CAssign(l: Cst, r: Cst)

  // Separated lists; a separator may follow the last element.
  datatype CList = LNil | LLast(last: Cst) | LCons(head: Cst, tail: CList)
  datatype COpt = CNone | CSome(c: Cst)
  datatype CArgs = NoArgs | Args(list: CList)
  datatype NameList = NNil | NLast(last: Token) | NCons(head: Token, tail: NameList)
  datatype NameOpt = Anonymous | Named(name: Token)

  // ------------------------------------------------------------ token yields

  // A token that is known by its kind.
  function T(k: TokenKind): Token { Token(k, Spelling(k)) }

  // The end of input is not a token of the list.
  function Close(terminator: TokenKind, tail: List<Token>): List<Token> {
    if terminator == EOF then tail else Cons(T(terminator), tail)
  }

  // The tokens of a tree, followed by `tail`.
  function Yield(c: Cst, tail: List<Token>): List<Token>
    decreases c
  {
    match c
    case CPrimary(t, _) => Cons(t, tail)
    case CVar(t) => Cons(t, tail)
    case CParen(e) => Cons(T(LPAREN), Yield(e, Cons(T(RPAREN), tail)))
    case CBlock(items) => Cons(T(BEGIN), YieldList(items, SEMICOLON, END, tail))
    case CLet(x, v) => Cons(T(LET), Cons(x, Cons(T(EQUAL), Yield(v, tail))))
    case CArray(n, v) =>
      Cons(T(ARRAY), Cons(T(LPAREN), Yield(n, Cons(T(COMMA), Yield(v, Cons(T(RPAREN), tail))))))
    case CObject(ext, members) =>
      var rest := Cons(T(BEGIN), YieldList(members, SEMICOLON, END, tail));
      Cons(T(OBJECT), match ext
                      case CNone => rest
                      case CSome(e) => Cons(T(EXTENDS), Yield(e, rest)))
    case CIf(g, t, e) =>
      var rest := match e
        case CNone => tail
        case CSome(b) => Cons(T(ELSE), Yield(b, tail));
      Cons(T(IF), Yield(g, Cons(T(THEN), Yield(t, rest))))
    case CWhile(g, b) => Cons(T(WHILE), Yield(g, Cons(T(DO), Yield(b, tail))))
    case CPrint(f, args) =>
      var rest := match args
        case NoArgs => Cons(T(RPAREN), tail)
        case Args(es) => Cons(T(COMMA), YieldList(es, COMMA, RPAREN, tail));
      Cons(T(PRINT), Cons(T(LPAREN), Cons(f, rest)))
    case CFunction(x, ps, b) =>
      var rest := Cons(T(LPAREN), YieldNames(ps, Cons(T(RARROW), Yield(b, tail))));
      Cons(T(FUNCTION), match x
                        case Anonymous => rest
                        case Named(n) => Cons(n, rest))
    case CBin(l, op, r) => Yield(l, Cons(op, Yield(r, tail)))
    case CCall(l, args) => Yield(l, Cons(T(LPAREN), YieldList(args, COMMA, RPAREN, tail)))
    case CIndex(l, i) => Yield(l, Cons(T(LBRACKET), Yield(i, Cons(T(RBRACKET), tail))))
    case CField(l, x) => Yield(l, Cons(T(DOT), Cons(x, tail)))
    case CAssign(l, r) => Yield(l, Cons(T(LARROW), Yield(r, tail)))
  }

  function YieldList(es: CList, separator: TokenKind, terminator: TokenKind, tail: List<Token>): List<Token>
    decreases es
  {
    match es
    case LNil => Close(terminator, tail)
    case LLast(e) => Yield(e, Close(terminator, tail))
    case LCons(e, more) => Yield(e, Cons(T(separator), YieldList(more, separator, terminator, tail)))
  }

  function YieldNames(xs: NameList, tail: List<Token>): List<Token> {
    match xs
    case NNil => Cons(T(RPAREN), tail)
    case NLast(x) => Cons(x, Cons(T(RPAREN), tail))
    case NCons(x, more) => Cons(x, Cons(T(COMMA), YieldNames(more, tail)))
  }

  // --------------------------------------------------------------- meanings

  function Abs(c: Cst): Ast
    decreases c
  {
    match c
    case CPrimary(_, v) => v
    case CVar(t) => VariableAccess(t.str)
    case CParen(e) => Abs(e)
    case CBlock(items) => (var es := AbsList(items); if es == [] then Null else Block(es))
    case CLet(x, v) => Definition(x.str, Abs(v))
    case CArray(n, v) => Array(Abs(n), Abs(v))
    case CObject(ext, members) => Object(AbsOpt(ext), AbsList(members))
    case CIf(g, t, e) => Conditional(Abs(g), Abs(t), AbsOpt(e))
    case CWhile(g, b) => Loop(Abs(g), Abs(b))
    case CPrint(f, args) => Print(f.str, AbsArgs(args))
    case CFunction(x, ps, b) =>
      (match x
       case Anonymous => Function(Names(ps), Abs(b))
       case Named(n) => Definition(n.str, Function(Names(ps), Abs(b))))
    case CBin(l, op, r) => MethodCall(Abs(l), op.str, [Abs(r)])
    case CCall(l, args) =>
      (match Abs(l)
       case FieldAccess(o, f) => MethodCall(o, f, AbsList(args))
       case callee => FunctionCall(callee, AbsList(args)))
    case CIndex(l, i) => IndexAccess(Abs(l), Abs(i))
    case CField(l, x) => FieldAccess(Abs(l), x.str)
    case CAssign(l, r) =>
      (match Abs(l)
       case VariableAccess(x) => VariableAssignment(x, Abs(r))
       case FieldAccess(o, f) => FieldAssignment(o, f, Abs(r))
       case IndexAccess(o, i) => IndexAssignment(o, i, Abs(r))
       case other => other)
  }

  function AbsList(es: CList): seq<Ast>
    decreases es
  {
    match es
    case LNil => []
    case LLast(e) => [Abs(e)]
    case LCons(e, more) => [Abs(e)] + AbsList(more)
  }

  function AbsOpt(o: COpt): Ast
    decreases o
  {
    match o
    case CNone => Null
    case CSome(e) => Abs(e)
  }

  function AbsArgs(a: CArgs): seq<Ast>
    decreases a
  {
    match a
    case NoArgs => []
    case Args(es) => AbsList(es)
  }

  function Names(xs: NameList): seq<string> {
    match xs
    case NNil => []
    case NLast(x) => [x.str]
    case NCons(x, more) => [x.str] + Names(more)
  }

  // The value of a one-token literal.
  predicate Literal(t: Token, v: Ast) {
    || (t.kind == NUMBER && v.Integer? && IsValueOf(t.str, v.i))
    || (t.kind == NULL && v == Null)
    || (t.kind == TRUE && v == Boolean(true))
    || (t.kind == FALSE && v == Boolean(false))
  }

  // `i` is the 32-bit number written as an optional run of minus signs and digits.
  predicate IsValueOf(str: string, i: int) {
    var m := Minuses(str);
    var v := Decimal(str[m..]);
    i == Wrap32(if m % 2 == 1 then -v else v)
  }

  function Minuses(str: string): (m: nat)
    ensures m <= |str|
  {
    if str == "" || str[0] != '-' then 0 else 1 + Minuses(str[1..])
  }

  // Positional value, the last digit counting one.
  function Decimal(digits: string): int {
    if digits == "" then 0
    else 10 * Decimal(digits[..|digits| - 1]) + (digits[|digits| - 1] as int - '0' as int)
  }

  // -------------------------------------------------------------- the levels

  // How tightly the outermost form of a tree binds.
  function Level(c: Cst): nat {
    match c
    case CBin(_, op, _) => Lbp(op.kind)
    case CCall(_, _) => PREC_POST
    case CIndex(_, _) => PREC_POST
    case CField(_, _) => PREC_POST
    case CAssign(_, _) => PREC_ASGN
    case _ => PREC_TOP
  }

  // Only a token that cannot continue an expression ends a greedy prefix form.
  predicate Stops(next: TokenKind) { Lbp(next) == PREC_NONE }

  // `c` is derivable when a token of kind `next` follows it.
  predicate Ok(c: Cst, next: TokenKind)
    decreases c
  {
    match c
    case CPrimary(t, v) => Literal(t, v)
    case CVar(t) => t.kind == IDENTIFIER
    case CParen(e) => Ok(e, RPAREN)
    case CBlock(items) => OkList(items, SEMICOLON, END)
    case CLet(x, v) => IsIdentifier(x.kind) && Ok(v, next) && Stops(next)
    case CArray(n, v) => Ok(n, COMMA) && Ok(v, RPAREN)
    case CObject(ext, members) =>
      && (match ext
          case CNone => true
          case CSome(e) => Ok(e, BEGIN))
      && OkList(members, SEMICOLON, END)
      && MembersOk(AbsList(members))
    case CIf(g, t, e) =>
      && Ok(g, THEN) && Stops(next)
      && (match e
          case CNone => Ok(t, next) && next != ELSE
          case CSome(b) => Ok(t, ELSE) && Ok(b, next))
    case CWhile(g, b) => Ok(g, DO) && Ok(b, next) && Stops(next)
    case CPrint(f, args) =>
      && f.kind == STRING
      && (match args
          case NoArgs => true
          case Args(es) => OkList(es, COMMA, RPAREN))
      && Placeholders(f.str) == |AbsArgs(args)|
    case CFunction(x, ps, b) =>
      && (x.Named? ==> IsIdentifier(x.name.kind))
      && OkNames(ps) && Ok(b, next) && Stops(next)
    case CBin(l, op, r) =>
      && IsOperator(op.kind)
      && Level(l) >= Lbp(op.kind) && Ok(l, op.kind)
      && Level(r) > Lbp(op.kind) && Ok(r, next) && Lbp(next) <= Lbp(op.kind)
    case CCall(l, args) => Level(l) >= PREC_POST && Ok(l, LPAREN) && OkList(args, COMMA, RPAREN)
    case CIndex(l, i) => Level(l) >= PREC_POST && Ok(l, LBRACKET) && Ok(i, RBRACKET)
    case CField(l, x) => Level(l) >= PREC_POST && Ok(l, DOT) && IsIdentifier(x.kind)
    case CAssign(l, r) =>
      && Level(l) > PREC_ASGN && Ok(l, LARROW)
      && (Abs(l).VariableAccess? || Abs(l).FieldAccess? || Abs(l).IndexAccess?)
      && Level(r) >= PREC_ASGN && Ok(r, next) && Lbp(next) < PREC_ASGN
  }

  predicate OkList(es: CList, separator: TokenKind, terminator: TokenKind)
    decreases es
  {
    match es
    case LNil => true
    case LLast(e) => Ok(e, terminator)
    case LCons(e, more) => Ok(e, separator) && OkList(more, separator, terminator)
  }

  predicate OkNames(xs: NameList) {
    match xs
    case NNil => true
    case NLast(x) => IsIdentifier(x.kind)
    case NCons(x, more) => IsIdentifier(x.kind) && OkNames(more)
  }

  // A program is a `;`-separated list up to the end of input.
  predicate Derives(tokens: List<Token>, program: CList) {
    OkList(program, SEMICOLON, EOF) && YieldList(program, SEMICOLON, EOF, Nil) == tokens
  }

  function ProgramAst(program: CList): Ast {
    var es := AbsList(program);
    if es == [] then Null else Top(es)
  }
}
