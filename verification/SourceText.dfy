/** From source text to syntax tree and back: lexer, parser and printer together. */
module SourceText {
  import opened Tokens
  import opened Ast
  import opened Lists
  import opened LexerSpec
  import opened Layout
  import opened Grammar
  import opened ParserSpec
  import opened Completeness
  import opened Soundness
  import opened Printer

  function ParseSource(source: string): Result {
    Parse(LexAll(source))
  }

  // ------------------------------------------------------ what the lexer delivers

  predicate IsName(n: string) { IsWord(n) && Keyword(n) == IDENTIFIER }

  // A name in a field, method, parameter or definition may be an operator.
  predicate IsMemberName(n: string) { IsName(n) || IsOperator(OperatorKind(n)) }

  // Tokens of error-free texts, but for the `=` that ends a text.
  predicate Fine(t: Token) {
    Writable(t) || (t.kind == SLASH && (t.str == "-" || t.str == ">" || t.str == "<"))
  }

  // How much is asked of a token.
  datatype Grade = NAMED | ANY_BUT_ERROR | ANY_BUT_STRAY | FINE | WRITABLE

  predicate Good(t: Token, g: Grade) {
    match g
    case NAMED => t.kind == IDENTIFIER ==> t.str != ""
    case ANY_BUT_ERROR => t.kind != ERROR
    case ANY_BUT_STRAY => t != Token(SLASH, "=")
    case FINE => Fine(t)
    case WRITABLE => Writable(t)
  }

  predicate AllGood(ts: List<Token>, g: Grade) {
    match ts
    case Nil => true
    case Cons(t, more) => Good(t, g) && AllGood(more, g)
  }

  lemma {:induction false} WordSpanPrefix(s: string)
    ensures WordSpan(s[..WordSpan(s)]) == WordSpan(s)
  {
    if s != "" && IsWordChar(s[0]) {
      WordSpanPrefix(s[1..]);
      assert s[..WordSpan(s)][1..] == s[1..][..WordSpan(s) - 1];
    }
  }

  lemma {:induction false} DigitSpanPrefix(s: string)
    ensures DigitSpan(s[..DigitSpan(s)]) == DigitSpan(s)
  {
    if s != "" && IsDigit(s[0]) {
      DigitSpanPrefix(s[1..]);
      assert s[..DigitSpan(s)][1..] == s[1..][..DigitSpan(s) - 1];
    }
  }

  lemma {:induction false} StringPrefix(s: string)
    requires StringBody(s).Closed?
    ensures var n := StringBody(s).length; StringBody(s[..n] + "\"") == Closed(n)
    decreases |s|
  {
    var n := StringBody(s).length;
    var u := s[..n] + "\"";
    assert u == s[..n + 1];
    if n > 0 {
      var k := if s[0] == '\\' then 2 else 1;
      assert StringBody(s) == Longer(k, StringBody(s[k..]));
      StringPrefix(s[k..]);
      assert u[k..] == s[k..][..n - k] + "\"";
      assert StringBody(u) == Longer(k, StringBody(u[k..]));
    }
  }

  // The four kinds of tokens: writable up to the spelling of SLASH, the stray `=`, and
  // lexical errors.
  predicate Delivered(t: Token) {
    t.kind == ERROR || t == Token(SLASH, "=") || Fine(t)
  }

  lemma PlainWord(s: string)
    requires s != "" && IsAlpha(s[0])
    ensures Delivered(Plain(s).token)
  {
    hide Keyword, Punctuation;
    WordSpanPrefix(s);
    var n := WordSpan(s);
    assert Plain(s) == Front(Keyword(s[..n]), s, n);
    assert s[..n][0] == s[0];
  }

  lemma PlainNumber(s: string)
    requires s != "" && (IsDigit(s[0]) || (s[0] == '-' && |s| > 1 && IsDigit(s[1])))
    ensures Delivered(Plain(s).token)
  {
    hide Keyword, Punctuation, Plain;
    if IsDigit(s[0]) {
      DigitSpanPrefix(s);
      PlainDigit(s);
    } else {
      DigitSpanPrefix(s[1..]);
      PlainNegative(s);
      assert s[..1 + DigitSpan(s[1..])][1..] == s[1..][..DigitSpan(s[1..])];
    }
  }

  lemma PlainString(s: string)
    requires s != "" && s[0] == '"'
    ensures Delivered(Plain(s).token)
  {
    hide Keyword, Punctuation, StringBody;
    if StringBody(s[1..]).Closed? {
      StringPrefix(s[1..]);
      assert s[1..][..StringBody(s[1..]).length] == s[1..StringBody(s[1..]).length + 1];
    }
  }

  lemma PlainPairs(s: string)
    requires s != "" && (s[0] == '=' || s[0] == '>' || s[0] == '<')
    ensures Delivered(Plain(s).token)
  {
    hide Keyword, Punctuation;
    assert s[..1] == [s[0]];
    if |s| > 1 { assert s[..2] == [s[0], s[1]]; }
  }

  lemma PlainOthers(s: string)
    requires s != "" && !IsSpace(s[0]) && !IsAlpha(s[0]) && !IsDigit(s[0]) && s[0] != '/' && s[0] != '"'
    requires s[0] != '=' && s[0] != '>' && s[0] != '<' && !(s[0] == '-' && |s| > 1 && IsDigit(s[1]))
    ensures Delivered(Plain(s).token)
  {
    hide Keyword, Punctuation;
    assert s[..1] == [s[0]];
    if |s| > 1 { assert s[..2] == [s[0], s[1]]; }
  }

  lemma {:induction false} LexDelivers(s: string)
    ensures Lex(s).token.kind != EOF ==> Delivered(Lex(s).token)
    decreases |s|
  {
    hide Plain, Delivered, Slash;
    if s == "" {
    } else if IsSpace(s[0]) {
      LexDelivers(s[1..]);
    } else if s[0] == '/' {
      SlashDelivers(s);
    } else if IsAlpha(s[0]) {
      PlainWord(s);
    } else if s[0] == '"' {
      PlainString(s);
    } else if IsDigit(s[0]) || (s[0] == '-' && |s| > 1 && IsDigit(s[1])) {
      PlainNumber(s);
    } else if s[0] == '=' || s[0] == '>' || s[0] == '<' {
      PlainPairs(s);
    } else {
      PlainOthers(s);
    }
  }

  lemma {:induction false} SlashDelivers(s: string)
    requires s != "" && s[0] == '/'
    ensures Slash(s).token.kind != EOF ==> Delivered(Slash(s).token)
    decreases |s|, 0
  {
    hide Lex, LineSpan, BlockBody;
    if |s| > 1 && s[1] == '/' {
      if 2 + LineSpan(s[2..]) < |s| { LexDelivers(s[2 + LineSpan(s[2..]) + 1..]); }
    } else if |s| > 1 && s[1] == '*' {
      if BlockBody(s[2..]).Closed? { LexDelivers(s[BlockBody(s[2..]).length + 4..]); }
    } else {
      assert s[..1] == "/";
    }
  }

  // No token is a SLASH spelled `=`, the form a text ending in `=` leads to.
  predicate NoStrayEquals(ts: List<Token>) { AllGood(ts, ANY_BUT_STRAY) }

  lemma {:induction false} LexAllFine(s: string)
    ensures Lexed(LexAll(s)) && AllGood(LexAll(s), NAMED)
    ensures ErrorFree(LexAll(s)) && NoStrayEquals(LexAll(s)) ==> AllGood(LexAll(s), FINE)
    decreases |s|
  {
    hide Lex, Fine;
    LexDelivers(s);
    var x := Lex(s);
    if x.token.kind != EOF {
      LexAllFine(x.rest);
      DeliveredSpelled(x.token);
    }
  }

  lemma DeliveredSpelled(t: Token)
    requires Delivered(t)
    ensures Spelled(t) && Good(t, NAMED)
  {
    hide Keyword, WordSpan, DigitSpan, StringBody;
  }

  // ------------------------------------------------------ the tokens of a tree

  predicate CstGood(c: Cst, g: Grade)
    decreases c
  {
    match c
    case CPrimary(t, _) => Good(t, g)
    case CVar(t) => Good(t, g)
    case CParen(e) => CstGood(e, g)
    case CBlock(items) => ListGood(items, g)
    case CLet(x, v) => Good(x, g) && CstGood(v, g)
    case CArray(n, v) => CstGood(n, g) && CstGood(v, g)
    case CObject(ext, members) => OptGood(ext, g) && ListGood(members, g)
    case CIf(cond, t, e) => CstGood(cond, g) && CstGood(t, g) && OptGood(e, g)
    case CWhile(cond, b) => CstGood(cond, g) && CstGood(b, g)
    case CPrint(f, args) =>
      && Good(f, g)
      && (match args
          case NoArgs => true
          case Args(es) => ListGood(es, g))
    case CFunction(x, ps, b) =>
      (x.Named? ==> Good(x.name, g)) && NamesGood(ps, g) && CstGood(b, g)
    case CBin(l, op, r) => CstGood(l, g) && Good(op, g) && CstGood(r, g)
    case CCall(l, args) => CstGood(l, g) && ListGood(args, g)
    case CIndex(l, i) => CstGood(l, g) && CstGood(i, g)
    case CField(l, x) => CstGood(l, g) && Good(x, g)
    case CAssign(l, r) => CstGood(l, g) && CstGood(r, g)
  }

  predicate ListGood(es: CList, g: Grade)
    decreases es
  {
    match es
    case LNil => true
    case LLast(e) => CstGood(e, g)
    case LCons(e, more) => CstGood(e, g) && ListGood(more, g)
  }

  predicate OptGood(o: COpt, g: Grade)
    decreases o
  {
    match o
    case CNone => true
    case CSome(e) => CstGood(e, g)
  }

  predicate NamesGood(xs: NameList, g: Grade) {
    match xs
    case NNil => true
    case NLast(x) => Good(x, g)
    case NCons(x, more) => Good(x, g) && NamesGood(more, g)
  }

  lemma FixedGood(k: TokenKind, g: Grade)
    requires SEMICOLON <= k <= FALSE
    ensures Good(T(k), g)
  {
  }

  lemma AllFixedGood(g: Grade)
    ensures forall k :: SEMICOLON <= k <= FALSE ==> Good(T(k), g)
  {
    forall k | SEMICOLON <= k <= FALSE ensures Good(T(k), g) { FixedGood(k, g); }
  }

  lemma {:induction false} YieldGood(c: Cst, tail: List<Token>, g: Grade)
    ensures AllGood(Yield(c, tail), g) <==> CstGood(c, g) && AllGood(tail, g)
    decreases c, 1
  {
    hide Good;
    AllFixedGood(g);
    match c
    case CPrimary(_, _) =>
    case CVar(_) =>
    case CParen(e) => YieldGood(e, Cons(T(RPAREN), tail), g);
    case CBlock(items) => YieldListGood(items, SEMICOLON, END, tail, g);
    case CLet(_, _) => YieldFormGood(c, tail, g);
    case CArray(_, _) => YieldFormGood(c, tail, g);
    case CObject(_, _) => YieldFormGood(c, tail, g);
    case CIf(_, _, _) => YieldIfGood(c, tail, g);
    case CWhile(_, _) => YieldFormGood(c, tail, g);
    case CPrint(_, _) => YieldPrintGood(c, tail, g);
    case CFunction(_, _, _) => YieldFunctionGood(c, tail, g);
    case CBin(_, _, _) => YieldInfixGood(c, tail, g);
    case CCall(_, _) => YieldInfixGood(c, tail, g);
    case CIndex(_, _) => YieldInfixGood(c, tail, g);
    case CField(_, _) => YieldInfixGood(c, tail, g);
    case CAssign(_, _) => YieldInfixGood(c, tail, g);
  }

  lemma {:induction false} YieldFormGood(c: Cst, tail: List<Token>, g: Grade)
    requires c.CLet? || c.CArray? || c.CObject? || c.CWhile?
    ensures AllGood(Yield(c, tail), g) <==> CstGood(c, g) && AllGood(tail, g)
    decreases c, 0
  {
    hide Good;
    AllFixedGood(g);
    match c
    case CLet(_, v) =>
      YieldGood(v, tail, g);
      assert AllGood(Cons(T(EQUAL), Yield(v, tail)), g) == AllGood(Yield(v, tail), g);
    case CArray(n, v) =>
      YieldGood(v, Cons(T(RPAREN), tail), g);
      YieldGood(n, Cons(T(COMMA), Yield(v, Cons(T(RPAREN), tail))), g);
    case CObject(ext, members) =>
      var list := YieldList(members, SEMICOLON, END, tail);
      YieldListGood(members, SEMICOLON, END, tail, g);
      if ext.CSome? { YieldGood(ext.c, Cons(T(BEGIN), list), g); }
    case CWhile(cond, b) =>
      YieldGood(b, tail, g);
      YieldGood(cond, Cons(T(DO), Yield(b, tail)), g);
  }

  lemma {:induction false} YieldFunctionGood(c: Cst, tail: List<Token>, g: Grade)
    requires c.CFunction?
    ensures AllGood(Yield(c, tail), g) <==> CstGood(c, g) && AllGood(tail, g)
    decreases c, 0
  {
    hide Good;
    AllFixedGood(g);
    var names := YieldNames(c.params, Cons(T(RARROW), Yield(c.body, tail)));
    YieldGood(c.body, tail, g);
    YieldNamesGood(c.params, Cons(T(RARROW), Yield(c.body, tail)), g);
    assert AllGood(Cons(T(LPAREN), names), g) <==> AllGood(names, g);
  }

  lemma {:induction false} YieldInfixGood(c: Cst, tail: List<Token>, g: Grade)
    requires c.CBin? || c.CCall? || c.CIndex? || c.CField? || c.CAssign?
    ensures AllGood(Yield(c, tail), g) <==> CstGood(c, g) && AllGood(tail, g)
    decreases c, 0
  {
    hide Good;
    AllFixedGood(g);
    match c
    case CBin(l, op, r) =>
      YieldGood(r, tail, g);
      YieldGood(l, Cons(op, Yield(r, tail)), g);
    case CCall(l, args) =>
      YieldListGood(args, COMMA, RPAREN, tail, g);
      YieldGood(l, Cons(T(LPAREN), YieldList(args, COMMA, RPAREN, tail)), g);
    case CIndex(l, i) =>
      YieldGood(i, Cons(T(RBRACKET), tail), g);
      YieldGood(l, Cons(T(LBRACKET), Yield(i, Cons(T(RBRACKET), tail))), g);
    case CField(l, x) => YieldGood(l, Cons(T(DOT), Cons(x, tail)), g);
    case CAssign(l, r) =>
      YieldGood(r, tail, g);
      YieldGood(l, Cons(T(LARROW), Yield(r, tail)), g);
  }

  lemma {:induction false} YieldIfGood(c: Cst, tail: List<Token>, g: Grade)
    requires c.CIf?
    ensures AllGood(Yield(c, tail), g) <==> CstGood(c, g) && AllGood(tail, g)
    decreases c, 0
  {
    hide Good;
    AllFixedGood(g);
    var rest := match c.els
      case CNone => tail
      case CSome(b) => Cons(T(ELSE), Yield(b, tail));
    if c.els.CSome? { YieldGood(c.els.c, tail, g); }
    YieldGood(c.thn, rest, g);
    YieldGood(c.cond, Cons(T(THEN), Yield(c.thn, rest)), g);
  }

  lemma {:induction false} YieldPrintGood(c: Cst, tail: List<Token>, g: Grade)
    requires c.CPrint?
    ensures AllGood(Yield(c, tail), g) <==> CstGood(c, g) && AllGood(tail, g)
    decreases c, 0
  {
    hide Good;
    AllFixedGood(g);
    var rest := match c.args
      case NoArgs => Cons(T(RPAREN), tail)
      case Args(es) => Cons(T(COMMA), YieldList(es, COMMA, RPAREN, tail));
    if c.args.Args? { YieldListGood(c.args.list, COMMA, RPAREN, tail, g); }
    assert AllGood(Cons(c.format, rest), g) <==> Good(c.format, g) && AllGood(rest, g);
  }

  lemma {:induction false} YieldListGood(es: CList, separator: TokenKind, terminator: TokenKind, tail: List<Token>,
                                         g: Grade)
    requires SEMICOLON <= separator <= FALSE && SEMICOLON <= terminator <= EOF
    ensures AllGood(YieldList(es, separator, terminator, tail), g) <==> ListGood(es, g) && AllGood(tail, g)
    decreases es
  {
    hide Good;
    AllFixedGood(g);
    match es
    case LNil =>
    case LLast(e) => YieldGood(e, Close(terminator, tail), g);
    case LCons(e, more) =>
      YieldListGood(more, separator, terminator, tail, g);
      YieldGood(e, Cons(T(separator), YieldList(more, separator, terminator, tail)), g);
  }

  lemma {:induction false} YieldNamesGood(xs: NameList, tail: List<Token>, g: Grade)
    ensures AllGood(YieldNames(xs, tail), g) <==> NamesGood(xs, g) && AllGood(tail, g)
  {
    hide Good;
    AllFixedGood(g);
    if xs.NCons? { YieldNamesGood(xs.tail, tail, g); }
  }

  // ------------------------------------------------------------ writable trees

  // Trees whose names and formats can be spelled in source text.
  predicate WritableAst(a: Ast)
    decreases a
  {
    match a
    case Null => true
    case Boolean(_) => true
    case Integer(_) => true
    case Array(n, v) => WritableAst(n) && WritableAst(v)
    case Object(ext, members) => WritableAst(ext) && (forall m :: m in members ==> WritableAst(m))
    case Function(ps, b) => (forall x :: x in ps ==> IsMemberName(x)) && WritableAst(b)
    case Definition(x, v) => IsMemberName(x) && WritableAst(v)
    case VariableAccess(x) => IsName(x)
    case VariableAssignment(x, v) => IsName(x) && WritableAst(v)
    case IndexAccess(o, i) => WritableAst(o) && WritableAst(i)
    case IndexAssignment(o, i, v) => WritableAst(o) && WritableAst(i) && WritableAst(v)
    case FieldAccess(o, f) => WritableAst(o) && IsMemberName(f)
    case FieldAssignment(o, f, v) => WritableAst(o) && IsMemberName(f) && WritableAst(v)
    case FunctionCall(f, args) => WritableAst(f) && (forall e :: e in args ==> WritableAst(e))
    case MethodCall(o, m, args) => WritableAst(o) && IsMemberName(m) && (forall e :: e in args ==> WritableAst(e))
    case Conditional(c, t, e) => WritableAst(c) && WritableAst(t) && WritableAst(e)
    case Loop(c, b) => WritableAst(c) && WritableAst(b)
    case Print(f, args) => StringBody(f + "\"") == Closed(|f|) && (forall e :: e in args ==> WritableAst(e))
    case Block(es) => forall e :: e in es ==> WritableAst(e)
    case Top(es) => forall e :: e in es ==> WritableAst(e)
  }

  lemma NameGood(x: string)
    requires IsMemberName(x)
    ensures Good(NameToken(x), WRITABLE)
  {
  }

  lemma {:induction false} CanonGood(a: Ast, bp: nat, next: TokenKind)
    requires Printable(a) && WritableAst(a)
    ensures CstGood(Canon(a, bp, next), WRITABLE)
    decreases a, 2
  {
    hide Bare, Printable, WritableAst;
    BareGood(a, if Direct(a, bp, next) then next else RPAREN);
  }

  lemma {:induction false} BareGood(a: Ast, next: TokenKind)
    requires Printable(a) && WritableAst(a)
    ensures CstGood(Bare(a, next), WRITABLE)
    decreases a, 1
  {
    hide Canon, Good, MembersOk, Placeholders, IsMemberName, IsName, Spelling, OperatorKind, DigitsText;
    AllFixedGood(WRITABLE);
    match a
    case IndexAccess(_, _) => OperationGood(a, next);
    case FieldAccess(_, _) => OperationGood(a, next);
    case FunctionCall(_, _) => OperationGood(a, next);
    case MethodCall(_, _, _) => OperationGood(a, next);
    case VariableAssignment(_, _) => AssignmentGood(a, next);
    case IndexAssignment(_, _, _) => AssignmentGood(a, next);
    case FieldAssignment(_, _, _) => AssignmentGood(a, next);
    case Null =>
    case Boolean(_) =>
    case Integer(i) => IntegerGood(i);
    case Array(_, _) => ClosedGood(a, next);
    case Object(_, _) => ClosedGood(a, next);
    case Print(_, _) => ClosedGood(a, next);
    case Block(_) => ClosedGood(a, next);
    case Function(ps, b) =>
      CanonNamesGood(ps);
      CanonGood(b, PREC_EXPR, next);
    case Definition(x, v) =>
      NameGood(x);
      CanonGood(v, PREC_EXPR, next);
    case VariableAccess(x) => VariableGood(x);
    case Conditional(_, _, _) => ConditionalGood(a, next);
    case Loop(c, b) =>
      CanonGood(c, PREC_EXPR, DO);
      CanonGood(b, PREC_EXPR, next);
  }

  lemma {:induction false} ClosedGood(a: Ast, next: TokenKind)
    requires Printable(a) && WritableAst(a) && (a.Array? || a.Object? || a.Print? || a.Block?)
    ensures CstGood(Bare(a, next), WRITABLE)
    decreases a, 0
  {
    hide Canon, Good, MembersOk, Placeholders, IsMemberName, IsName, Spelling, OperatorKind;
    match a
    case Array(n, v) =>
      CanonGood(n, PREC_EXPR, COMMA);
      CanonGood(v, PREC_EXPR, RPAREN);
    case Object(ext, members) =>
      CanonGood(ext, PREC_EXPR, BEGIN);
      CanonListGood(members, SEMICOLON, END);
    case Print(f, args) =>
      FormatGood(f);
      CanonListGood(args, COMMA, RPAREN);
    case Block(es) => CanonListGood(es, SEMICOLON, END);
  }

  lemma {:induction false} ConditionalGood(a: Ast, next: TokenKind)
    requires Printable(a) && WritableAst(a) && a.Conditional?
    ensures CstGood(Bare(a, next), WRITABLE)
    decreases a, 0
  {
    hide Canon, Good, Spelling;
    CanonGood(a.condition, PREC_EXPR, THEN);
    CanonGood(a.consequent, PREC_EXPR, if a.alternative == Null && next != ELSE then next else ELSE);
    CanonGood(a.alternative, PREC_EXPR, next);
  }

  lemma {:induction false} AssignmentGood(a: Ast, next: TokenKind)
    requires Printable(a) && WritableAst(a) && IsAssignment(a)
    ensures CstGood(Bare(a, next), WRITABLE)
    decreases a, 0
  {
    hide Canon, CstGood, IsMemberName, IsName;
    match a
    case VariableAssignment(x, v) =>
      VariableGood(x);
      CanonGood(v, PREC_ASGN, next);
      TargetGood(CVar(Token(IDENTIFIER, x)), Canon(v, PREC_ASGN, next));
    case IndexAssignment(o, i, v) =>
      CanonGood(o, PREC_POST, LBRACKET);
      CanonGood(i, PREC_EXPR, RBRACKET);
      CanonGood(v, PREC_ASGN, next);
      TargetGood(CIndex(Canon(o, PREC_POST, LBRACKET), Canon(i, PREC_EXPR, RBRACKET)), Canon(v, PREC_ASGN, next));
    case FieldAssignment(o, f, v) =>
      NameGood(f);
      CanonGood(o, PREC_POST, DOT);
      CanonGood(v, PREC_ASGN, next);
      TargetGood(CField(Canon(o, PREC_POST, DOT), NameToken(f)), Canon(v, PREC_ASGN, next));
  }

  // An assignment is made of its target and its value.
  lemma TargetGood(l: Cst, r: Cst)
    requires CstGood(r, WRITABLE)
    requires match l
             case CVar(t) => Good(t, WRITABLE)
             case CIndex(o, i) => CstGood(o, WRITABLE) && CstGood(i, WRITABLE)
             case CField(o, x) => CstGood(o, WRITABLE) && Good(x, WRITABLE)
             case _ => false
    ensures CstGood(CAssign(l, r), WRITABLE)
  {
    hide Good;
    assert CstGood(l, WRITABLE);
  }

  lemma {:induction false} OperationGood(a: Ast, next: TokenKind)
    requires Printable(a) && WritableAst(a)
    requires a.IndexAccess? || a.FieldAccess? || a.FunctionCall? || a.MethodCall?
    ensures CstGood(Bare(a, next), WRITABLE)
    decreases a, 0
  {
    hide Canon, Good, IsMemberName, IsName, Spelling, OperatorKind, Lbp;
    match a
    case IndexAccess(o, i) =>
      CanonGood(o, PREC_POST, LBRACKET);
      CanonGood(i, PREC_EXPR, RBRACKET);
    case FieldAccess(o, f) =>
      NameGood(f);
      CanonGood(o, PREC_POST, DOT);
    case FunctionCall(f, args) =>
      CanonGood(f, PREC_POST, LPAREN);
      CanonListGood(args, COMMA, RPAREN);
    case MethodCall(_, _, _) => MethodCallGood(a, next);
  }

  lemma {:induction false} MethodCallGood(a: Ast, next: TokenKind)
    requires Printable(a) && WritableAst(a) && a.MethodCall?
    ensures CstGood(Bare(a, next), WRITABLE)
    decreases a, 0, 0
  {
    hide Canon, Good, IsMemberName, IsName, Spelling, OperatorKind, Lbp;
    NameGood(a.method_);
    if IsInfix(a) {
      CanonGood(a.receiver, AstLevel(a), OperatorKind(a.method_));
      CanonGood(a.mcArgs[0], AstLevel(a) + 1, next);
    } else {
      CanonGood(a.receiver, PREC_POST, DOT);
      CanonListGood(a.mcArgs, COMMA, RPAREN);
      assert CstGood(Bare(a, next).l, WRITABLE);
    }
  }

  lemma VariableGood(x: string)
    requires IsName(x)
    ensures Good(Token(IDENTIFIER, x), WRITABLE)
  {
  }

  lemma FormatGood(f: string)
    requires StringBody(f + "\"") == Closed(|f|)
    ensures Good(Token(STRING, f), WRITABLE)
  {
    hide Keyword, WordSpan, DigitSpan, StringBody, Spelling;
  }

  lemma {:induction false} DigitsTextNumeral(n: nat)
    ensures DigitSpan(DigitsText(n)) == |DigitsText(n)|
  {
    AllDigits(DigitsText(n));
  }

  lemma {:induction false} AllDigits(s: string)
    requires forall c :: c in s ==> '0' <= c <= '9'
    ensures DigitSpan(s) == |s|
  {
    if s != "" {
      assert s[0] in s && forall c :: c in s[1..] ==> c in s;
      AllDigits(s[1..]);
    }
  }

  lemma IntegerGood(i: int)
    requires -0x8000_0000 <= i < 0x8000_0000
    ensures Good(Token(NUMBER, IntegerText(i)), WRITABLE)
  {
    hide DigitsText;
    var text := DigitsText(if i < 0 then -i else i);
    DigitsTextNumeral(if i < 0 then -i else i);
    assert text[0] in text;
    assert ("-" + text)[1..] == text;
  }

  lemma {:induction false} CanonNamesGood(xs: seq<string>)
    requires forall x :: x in xs ==> IsMemberName(x)
    ensures NamesGood(CanonNames(xs), WRITABLE)
  {
    hide IsMemberName, Good;
    if xs != [] {
      NameGood(xs[0]);
      CanonNamesGood(xs[1..]);
    }
  }

  lemma {:induction false} CanonListGood(es: seq<Ast>, separator: TokenKind, terminator: TokenKind)
    requires forall e :: e in es ==> Printable(e) && WritableAst(e)
    ensures ListGood(CanonList(es, separator, terminator), WRITABLE)
    decreases es
  {
    hide Canon, Printable, WritableAst;
    if es != [] {
      CanonGood(es[0], PREC_EXPR, if |es| == 1 then terminator else separator);
      CanonListGood(es[1..], separator, terminator);
    }
  }

  // ------------------------------------------------ the trees of source texts

  lemma FineName(t: Token)
    requires IsIdentifier(t.kind) && Good(t, FINE)
    ensures IsMemberName(t.str)
  {
    hide Keyword, WordSpan, OperatorFrom;
    if t.kind != IDENTIFIER {
      var k := if Writable(t) then t.kind else if t.str == "-" then MINUS else if t.str == ">" then GREATER else LESS;
      assert Spelling(k) == t.str;
      OperatorFound(t.str, k, BAR);
    }
  }

  lemma {:induction false} OperatorFound(name: string, k: TokenKind, from: TokenKind)
    requires BAR <= from <= PERCENT
    ensures from <= k <= PERCENT && Spelling(k) == name ==> IsOperator(OperatorFrom(name, from))
    decreases PERCENT - from
  {
    hide Spelling;
    if from < PERCENT { OperatorFound(name, k, from + 1); }
  }

  lemma FineVariable(t: Token)
    requires t.kind == IDENTIFIER && Good(t, FINE)
    ensures IsName(t.str)
  {
  }

  lemma FineFormat(t: Token)
    requires t.kind == STRING && Good(t, FINE)
    ensures StringBody(t.str + "\"") == Closed(|t.str|)
  {
  }

  lemma {:induction false} DerivedWritable(c: Cst, next: TokenKind)
    requires Ok(c, next) && CstGood(c, FINE)
    ensures WritableAst(Abs(c))
    decreases c, 1
  {
    hide Good, MembersOk, Placeholders, LeftInfo, IsMemberName, IsName;
    match c
    case CPrimary(_, _) =>
    case CVar(t) => FineVariable(t);
    case CParen(e) => DerivedWritable(e, RPAREN);
    case CBlock(items) => DerivedListWritable(items, SEMICOLON, END);
    case CLet(x, v) =>
      FineName(x);
      DerivedWritable(v, next);
    case CArray(n, v) =>
      DerivedWritable(n, COMMA);
      DerivedWritable(v, RPAREN);
    case CObject(_, _) => DerivedFormWritable(c, next);
    case CIf(_, _, _) => DerivedFormWritable(c, next);
    case CWhile(g, b) =>
      DerivedWritable(g, DO);
      DerivedWritable(b, next);
    case CPrint(_, _) => DerivedFormWritable(c, next);
    case CFunction(_, _, _) => DerivedFormWritable(c, next);
    case CBin(_, _, _) => DerivedInfixWritable(c, next);
    case CCall(_, _) => DerivedCallWritable(c, next);
    case CIndex(_, _) => DerivedInfixWritable(c, next);
    case CField(_, _) => DerivedInfixWritable(c, next);
    case CAssign(_, _) => DerivedAssignWritable(c, next);
  }

  lemma {:induction false} DerivedFormWritable(c: Cst, next: TokenKind)
    requires Ok(c, next) && CstGood(c, FINE)
    requires c.CObject? || c.CIf? || c.CPrint? || c.CFunction?
    ensures WritableAst(Abs(c))
    decreases c, 0
  {
    hide Good, MembersOk, Placeholders, LeftInfo, IsMemberName, IsName;
    match c
    case CObject(ext, members) =>
      if ext.CSome? { DerivedWritable(ext.c, BEGIN); }
      DerivedListWritable(members, SEMICOLON, END);
    case CIf(g, t, e) =>
      DerivedWritable(g, THEN);
      DerivedWritable(t, if e.CNone? then next else ELSE);
      if e.CSome? { DerivedWritable(e.c, next); }
    case CPrint(f, args) =>
      FineFormat(f);
      if args.Args? { DerivedListWritable(args.list, COMMA, RPAREN); }
    case CFunction(x, ps, b) =>
      if x.Named? { FineName(x.name); }
      NamesWritable(ps);
      DerivedWritable(b, next);
  }

  lemma {:induction false} DerivedInfixWritable(c: Cst, next: TokenKind)
    requires Ok(c, next) && CstGood(c, FINE)
    requires c.CBin? || c.CIndex? || c.CField?
    ensures WritableAst(Abs(c))
    decreases c, 0
  {
    hide Good, MembersOk, Placeholders, LeftInfo, IsMemberName, IsName;
    match c
    case CBin(l, op, r) =>
      DerivedWritable(l, op.kind);
      DerivedWritable(r, next);
      FineName(op);
    case CIndex(l, i) =>
      DerivedWritable(l, LBRACKET);
      DerivedWritable(i, RBRACKET);
    case CField(l, x) =>
      DerivedWritable(l, DOT);
      FineName(x);
  }

  lemma {:induction false} DerivedAssignWritable(c: Cst, next: TokenKind)
    requires Ok(c, next) && CstGood(c, FINE) && c.CAssign?
    ensures WritableAst(Abs(c))
    decreases c, 0
  {
    hide Good, LeftInfo, IsMemberName, IsName;
    DerivedWritable(c.l, LARROW);
    DerivedWritable(c.r, next);
  }

  lemma {:induction false} DerivedCallWritable(c: Cst, next: TokenKind)
    requires Ok(c, next) && CstGood(c, FINE) && c.CCall?
    ensures WritableAst(Abs(c))
    decreases c, 0
  {
    hide Good, LeftInfo, IsMemberName, IsName;
    DerivedWritable(c.l, LPAREN);
    DerivedListWritable(c.cargs, COMMA, RPAREN);
  }

  lemma {:induction false} NamesWritable(xs: NameList)
    requires OkNames(xs) && NamesGood(xs, FINE)
    ensures forall x :: x in Names(xs) ==> IsMemberName(x)
  {
    hide Good, IsMemberName;
    match xs
    case NNil =>
    case NLast(x) => FineName(x);
    case NCons(x, more) =>
      FineName(x);
      NamesWritable(more);
  }

  lemma {:induction false} DerivedListWritable(es: CList, separator: TokenKind, terminator: TokenKind)
    requires OkList(es, separator, terminator) && ListGood(es, FINE)
    ensures forall e :: e in AbsList(es) ==> WritableAst(e)
    decreases es
  {
    hide Ok, Abs, WritableAst, CstGood;
    match es
    case LNil =>
    case LLast(e) => DerivedWritable(e, terminator);
    case LCons(e, more) =>
      DerivedWritable(e, separator);
      DerivedListWritable(more, separator, terminator);
  }

  // ------------------------------------------------------------- the round trip

  function SpacedOut(ts: List<Token>): List<Item> {
    match ts
    case Nil => Nil
    case Cons(t, more) => Cons(Item(t, Cons(Space(' '), Nil)), SpacedOut(more))
  }

  // The source text of a tree: its tokens, each followed by a blank.
  function SourceOf(a: Ast): string
    requires PrintableProgram(a)
  {
    Text(SpacedOut(PrintProgram(a)))
  }

  lemma BlankGap(atEnd: bool)
    ensures GapOk(Cons(Space(' '), Nil), atEnd)
  {
  }

  lemma {:induction false} SpacedOutReads(ts: List<Token>)
    requires AllGood(ts, WRITABLE)
    ensures Spaced(SpacedOut(ts)) && TokensOf(SpacedOut(ts)) == ts
  {
    hide Writable;
    if ts.Cons? {
      SpacedOutReads(ts.tail);
      BlankGap(ts.tail == Nil);
    }
  }

  // Reading back the printed source gives the tree.
  lemma SourceRoundTrip(a: Ast)
    requires PrintableProgram(a) && WritableAst(a)
    ensures ParseSource(SourceOf(a)) == Accepted(a)
  {
    hide Printable;
    var es := if a == Null then [] else a.program;
    CanonListGood(es, SEMICOLON, EOF);
    YieldListGood(CanonList(es, SEMICOLON, EOF), SEMICOLON, EOF, Nil, WRITABLE);
    SpacedOutReads(PrintProgram(a));
    LexLayout(Nil, SpacedOut(PrintProgram(a)));
    ParsePrint(a);
  }

  // No derivation contains a lexical error.
  lemma {:induction false} NoErrors(c: Cst, next: TokenKind)
    requires Ok(c, next)
    ensures CstGood(c, ANY_BUT_ERROR)
    decreases c
  {
    hide MembersOk, Placeholders, IsValueOf;
    match c
    case CPrimary(_, _) =>
    case CVar(_) =>
    case CParen(e) => NoErrors(e, RPAREN);
    case CBlock(items) => ListNoErrors(items, SEMICOLON, END);
    case CLet(_, v) => NoErrors(v, next);
    case CArray(n, v) =>
      NoErrors(n, COMMA);
      NoErrors(v, RPAREN);
    case CObject(ext, members) =>
      if ext.CSome? { NoErrors(ext.c, BEGIN); }
      ListNoErrors(members, SEMICOLON, END);
    case CIf(cond, t, e) =>
      NoErrors(cond, THEN);
      NoErrors(t, if e.CNone? then next else ELSE);
      if e.CSome? { NoErrors(e.c, next); }
    case CWhile(cond, b) =>
      NoErrors(cond, DO);
      NoErrors(b, next);
    case CPrint(_, args) => if args.Args? { ListNoErrors(args.list, COMMA, RPAREN); }
    case CFunction(_, ps, b) =>
      NamesNoErrors(ps);
      NoErrors(b, next);
    case CBin(l, op, r) =>
      NoErrors(l, op.kind);
      NoErrors(r, next);
    case CCall(l, args) =>
      NoErrors(l, LPAREN);
      ListNoErrors(args, COMMA, RPAREN);
    case CIndex(l, i) =>
      NoErrors(l, LBRACKET);
      NoErrors(i, RBRACKET);
    case CField(l, _) => NoErrors(l, DOT);
    case CAssign(l, r) =>
      NoErrors(l, LARROW);
      NoErrors(r, next);
  }

  lemma {:induction false} ListNoErrors(es: CList, separator: TokenKind, terminator: TokenKind)
    requires OkList(es, separator, terminator)
    ensures ListGood(es, ANY_BUT_ERROR)
    decreases es
  {
    match es
    case LNil =>
    case LLast(e) => NoErrors(e, terminator);
    case LCons(e, more) =>
      NoErrors(e, separator);
      ListNoErrors(more, separator, terminator);
  }

  lemma {:induction false} NamesNoErrors(xs: NameList)
    requires OkNames(xs)
    ensures NamesGood(xs, ANY_BUT_ERROR)
  {
    if xs.NCons? { NamesNoErrors(xs.tail); }
  }

  lemma {:induction false} ErrorFreeTokens(ts: List<Token>)
    requires AllGood(ts, ANY_BUT_ERROR)
    ensures ErrorFree(ts)
  {
    if ts.Cons? { ErrorFreeTokens(ts.tail); }
  }

  // ------------------------------------------------- trees that cannot be spelled

  lemma NameNotStray(t: Token)
    requires IsMemberName(t.str)
    ensures Good(t, ANY_BUT_STRAY)
  {
    hide IsMemberName;
    EqualsNoName();
  }

  lemma EqualsNoName()
    ensures !IsMemberName("=")
  {
    hide OperatorFrom, Keyword;
    assert forall k :: IsOperator(k) ==> Spelling(k) != "=";
  }

  // A tree that can be spelled comes from no derivation with a stray `=` in it.
  lemma {:induction false} WritableNotStray(c: Cst, next: TokenKind)
    requires Ok(c, next) && WritableAst(Abs(c))
    ensures CstGood(c, ANY_BUT_STRAY)
    decreases c, 1
  {
    hide Good, MembersOk, Placeholders, IsValueOf, IsMemberName, IsName;
    match c
    case CPrimary(t, _) => OneTokenNotStray(t);
    case CVar(t) => OneTokenNotStray(t);
    case CParen(e) => WritableNotStray(e, RPAREN);
    case CBlock(items) => WritableListNotStray(items, SEMICOLON, END);
    case CLet(x, v) =>
      NameNotStray(x);
      WritableNotStray(v, next);
    case CArray(n, v) =>
      WritableNotStray(n, COMMA);
      WritableNotStray(v, RPAREN);
    case CWhile(g, b) =>
      WritableNotStray(g, DO);
      WritableNotStray(b, next);
    case CObject(_, _) => WritableFormNotStray(c, next);
    case CIf(_, _, _) => WritableFormNotStray(c, next);
    case CPrint(_, _) => WritableFormNotStray(c, next);
    case CFunction(_, _, _) => WritableFormNotStray(c, next);
    case CBin(_, _, _) => WritableInfixNotStray(c, next);
    case CCall(_, _) => WritableCallNotStray(c, next);
    case CIndex(_, _) => WritableInfixNotStray(c, next);
    case CField(_, _) => WritableInfixNotStray(c, next);
    case CAssign(_, _) => WritableAssignNotStray(c, next);
  }

  lemma OneTokenNotStray(t: Token)
    requires t.kind != SLASH
    ensures Good(t, ANY_BUT_STRAY)
  {
  }

  lemma {:induction false} WritableFormNotStray(c: Cst, next: TokenKind)
    requires Ok(c, next) && WritableAst(Abs(c))
    requires c.CObject? || c.CIf? || c.CPrint? || c.CFunction?
    ensures CstGood(c, ANY_BUT_STRAY)
    decreases c, 0
  {
    hide Good, MembersOk, Placeholders, IsMemberName, IsName;
    match c
    case CObject(ext, members) =>
      if ext.CSome? { WritableNotStray(ext.c, BEGIN); }
      WritableListNotStray(members, SEMICOLON, END);
    case CIf(g, t, e) =>
      WritableNotStray(g, THEN);
      WritableNotStray(t, if e.CNone? then next else ELSE);
      if e.CSome? { WritableNotStray(e.c, next); }
    case CPrint(f, args) =>
      OneTokenNotStray(f);
      if args.Args? { WritableListNotStray(args.list, COMMA, RPAREN); }
    case CFunction(x, ps, b) =>
      if x.Named? { NameNotStray(x.name); }
      NamesNotStray(ps);
      WritableNotStray(b, next);
  }

  lemma {:induction false} WritableInfixNotStray(c: Cst, next: TokenKind)
    requires Ok(c, next) && WritableAst(Abs(c)) && (c.CBin? || c.CIndex? || c.CField?)
    ensures CstGood(c, ANY_BUT_STRAY)
    decreases c, 0
  {
    hide Good, IsMemberName, IsName;
    match c
    case CBin(l, op, r) =>
      WritableNotStray(l, op.kind);
      assert [Abs(r)][0] == Abs(r);
      WritableNotStray(r, next);
      NameNotStray(op);
    case CIndex(l, i) =>
      WritableNotStray(l, LBRACKET);
      WritableNotStray(i, RBRACKET);
    case CField(l, x) =>
      WritableNotStray(l, DOT);
      NameNotStray(x);
  }

  lemma {:induction false} WritableCallNotStray(c: Cst, next: TokenKind)
    requires Ok(c, next) && WritableAst(Abs(c)) && c.CCall?
    ensures CstGood(c, ANY_BUT_STRAY)
    decreases c, 0
  {
    hide Good, IsMemberName, IsName;
    WritableNotStray(c.l, LPAREN);
    WritableListNotStray(c.cargs, COMMA, RPAREN);
  }

  lemma {:induction false} WritableAssignNotStray(c: Cst, next: TokenKind)
    requires Ok(c, next) && WritableAst(Abs(c)) && c.CAssign?
    ensures CstGood(c, ANY_BUT_STRAY)
    decreases c, 0
  {
    hide Good, IsMemberName, IsName;
    WritableNotStray(c.l, LARROW);
    WritableNotStray(c.r, next);
  }

  lemma {:induction false} NamesNotStray(xs: NameList)
    requires forall x :: x in Names(xs) ==> IsMemberName(x)
    ensures NamesGood(xs, ANY_BUT_STRAY)
  {
    hide Good, IsMemberName;
    match xs
    case NNil =>
    case NLast(x) =>
      assert x.str in Names(xs);
      NameNotStray(x);
    case NCons(x, more) =>
      assert Names(xs)[0] == x.str;
      NameNotStray(x);
      NamesNotStray(more);
  }

  lemma {:induction false} WritableListNotStray(es: CList, separator: TokenKind, terminator: TokenKind)
    requires OkList(es, separator, terminator) && forall e :: e in AbsList(es) ==> WritableAst(e)
    ensures ListGood(es, ANY_BUT_STRAY)
    decreases es
  {
    hide Ok, Abs, WritableAst, CstGood;
    match es
    case LNil =>
    case LLast(e) =>
      assert Abs(e) in AbsList(es);
      WritableNotStray(e, terminator);
    case LCons(e, more) =>
      assert AbsList(es)[0] == Abs(e);
      WritableNotStray(e, separator);
      WritableListNotStray(more, separator, terminator);
  }

  // ------------------------------------------------------------- reading again

  // The tree of an accepted text can be spelled exactly if no stray `=` ends the text.
  lemma WritableExactly(source: string)
    requires ParseSource(source).Accepted?
    ensures PrintableProgram(ParseSource(source).ast)
    ensures WritableAst(ParseSource(source).ast) <==> NoStrayEquals(LexAll(source))
  {
    hide LexAll, Parse, Printable, WritableAst, Good, AllGood;
    var ts := LexAll(source);
    LexAllFine(source);
    var p := AcceptedDerivation(ts);
    AcceptedTreesReparse(ts);
    ProgramWritable(Parse(ts).ast, AbsList(p));
    YieldListGood(p, SEMICOLON, EOF, Nil, ANY_BUT_STRAY);
    NothingGood(ANY_BUT_STRAY);
    if NoStrayEquals(ts) {
      ListNoErrors(p, SEMICOLON, EOF);
      YieldListGood(p, SEMICOLON, EOF, Nil, ANY_BUT_ERROR);
      NothingGood(ANY_BUT_ERROR);
      ErrorFreeTokens(ts);
      YieldListGood(p, SEMICOLON, EOF, Nil, FINE);
      DerivedListWritable(p, SEMICOLON, EOF);
    }
    if WritableAst(Parse(ts).ast) {
      WritableListNotStray(p, SEMICOLON, EOF);
    }
  }

  lemma NothingGood(g: Grade)
    ensures AllGood(Nil, g)
  {
  }

  // An accepted text is reproduced, up to layout, parentheses and spelling: printing its
  // tree and reading that source gives the tree again, exactly if no stray `=` ends it.
  lemma SourceReparse(source: string)
    requires ParseSource(source).Accepted?
    ensures PrintableProgram(ParseSource(source).ast)
    ensures ParseSource(SourceOf(ParseSource(source).ast)) == ParseSource(source) <==> NoStrayEquals(LexAll(source))
  {
    hide ParseSource, LexAll, Printable, WritableAst, NoStrayEquals;
    WritableExactly(source);
    var a := ParseSource(source).ast;
    if NoStrayEquals(LexAll(source)) {
      SourceRoundTrip(a);
    } else if ParseSource(SourceOf(a)) == ParseSource(source) {
      PrintedNotStray(a);
      WritableExactly(SourceOf(a));
    }
  }

  // With a stray `=` there is no other way to write the tree either.
  lemma Respellable(source: string)
    requires ParseSource(source).Accepted?
    ensures (exists s :: NoStrayEquals(LexAll(s)) && ParseSource(s) == ParseSource(source))
       <==> NoStrayEquals(LexAll(source))
  {
    hide ParseSource, LexAll, Printable, WritableAst, NoStrayEquals;
    WritableExactly(source);
    forall s | NoStrayEquals(LexAll(s)) && ParseSource(s) == ParseSource(source) ensures NoStrayEquals(LexAll(source)) {
      WritableExactly(s);
    }
  }

  // Printed source ends in a blank, so its last token is not the last byte.
  lemma PrintedNotStray(a: Ast)
    requires PrintableProgram(a)
    ensures NoStrayEquals(LexAll(SourceOf(a)))
  {
    hide LexAll, PrintableProgram, PrintProgram;
    BlankEnds(PrintProgram(a));
    BlankNotStray(SourceOf(a));
  }

  lemma {:induction false} BlankEnds(ts: List<Token>)
    ensures var s := Text(SpacedOut(ts)); s == "" || s[|s| - 1] == ' '
  {
    if ts.Cons? {
      BlankEnds(ts.tail);
      var s, rest := Text(SpacedOut(ts)), Text(SpacedOut(ts.tail));
      assert GapText(Cons(Space(' '), Nil), rest) == [' '] + GapText(Nil, rest);
      assert s == TokenText(ts.head) + ([' '] + rest);
    }
  }

  lemma {:induction false} BlankNotStray(s: string)
    requires s == "" || s[|s| - 1] == ' '
    ensures NoStrayEquals(LexAll(s))
    decreases |s|
  {
    hide Lex;
    LexSuffix(s);
    var x := Lex(s);
    if x.token.kind != EOF { BlankNotStray(x.rest); }
  }

  // The lexer leaves a suffix, and delivers a stray `=` as the last byte only.
  lemma {:induction false} LexSuffix(s: string)
    ensures var x := Lex(s);
            x.rest == s[|s| - |x.rest|..] && (x.token == Token(SLASH, "=") ==> s != "" && s[|s| - 1] == '=')
    decreases |s|, 1
  {
    hide Plain, Slash;
    if s == "" {
    } else if IsSpace(s[0]) {
      LexSuffix(s[1..]);
    } else if s[0] == '/' {
      SlashSuffix(s);
    } else {
      PlainSuffix(s);
    }
  }

  lemma {:induction false} SlashSuffix(s: string)
    requires s != "" && s[0] == '/'
    ensures var x := Slash(s);
            x.rest == s[|s| - |x.rest|..] && (x.token == Token(SLASH, "=") ==> s[|s| - 1] == '=')
    decreases |s|, 0
  {
    hide Lex, LineSpan, BlockBody;
    if |s| > 1 && s[1] == '/' {
      var n := 2 + LineSpan(s[2..]);
      if n < |s| { LexSuffix(s[n + 1..]); }
    } else if |s| > 1 && s[1] == '*' {
      if BlockBody(s[2..]).Closed? { LexSuffix(s[BlockBody(s[2..]).length + 4..]); }
    } else {
      assert s[..1] == "/";
    }
  }

  lemma PlainSuffix(s: string)
    requires s != "" && !IsSpace(s[0]) && s[0] != '/'
    ensures var x := Plain(s);
            x.rest == s[|s| - |x.rest|..] && (x.token == Token(SLASH, "=") ==> s[|s| - 1] == '=')
  {
    hide Keyword, WordSpan, DigitSpan, StringBody;
  }

  lemma ProgramWritable(a: Ast, es: seq<Ast>)
    requires a == (if es == [] then Null else Top(es))
    ensures WritableAst(a) <==> forall e :: e in es ==> WritableAst(e)
  {
  }

  lemma StrayTokens()
    ensures LexAll("x.=") == Cons(Token(IDENTIFIER, "x"), Cons(T(DOT), Cons(Token(SLASH, "="), Nil)))
  {
    hide Lex;
    StrayTail();
    StrayWord();
  }

  lemma StrayWord()
    ensures Lex("x.=") == Lexeme(Token(IDENTIFIER, "x"), ".=")
  {
    hide Lex, Keyword, Punctuation;
    var s := "x.=";
    LexPlain(s);
    assert forall k :: BEGIN <= k <= FALSE ==> |Spelling(k)| > 1;
    assert s[1..] == ".=" && s[..1] == "x";
  }

  lemma StrayTail()
    ensures LexAll(".=") == Cons(T(DOT), Cons(Token(SLASH, "="), Nil))
  {
    hide Lex;
    LexSingle(DOT, "=");
    LexFragile(EQUAL);
    LexEmpty();
    assert "." + "=" == ".=";
  }

  // At the end of a text, `=` reads as a division sign, which may name a field. No text
  // that does not end so can spell that name.
  lemma StrayEqualsAccepted()
    ensures ParseSource("x.=") == Accepted(Top([FieldAccess(VariableAccess("x"), "=")]))
    ensures !NoStrayEquals(LexAll("x.="))
    ensures forall s :: ParseSource(s) == ParseSource("x.=") ==> !NoStrayEquals(LexAll(s))
  {
    StrayEqualsTree();
    StrayTokens();
    Respellable("x.=");
  }

  lemma StrayEqualsTree()
    ensures ParseSource("x.=") == Accepted(Top([FieldAccess(VariableAccess("x"), "=")]))
  {
    hide LexAll, Parse;
    StrayTokens();
    AcceptsGrammar(LexAll("x.="), LLast(CField(CVar(Token(IDENTIFIER, "x")), Token(SLASH, "="))));
  }
}
