/**
 The grammar of FML, one nonterminal for each level, every operator named by its token.
 It knows no binding powers: precedence and associativity are where a nonterminal stands
 in a production. A list of tokens is derived from it exactly if it is by binding powers.
 */
module Strata {
  import opened Tokens
  import opened Ast
  import opened Lists
  import opened Grammar

  // What comes behind a tree: a token no expression goes on with, `else`, or one that
  // some expression goes on with.
  datatype After = CLOSED | BEFORE_ELSE | CONTINUED

  // ------------------------------------------------------------- nonterminals

  // expression: assignment
  predicate Expression(c: Cst, after: After)
    decreases c, 9
  {
    Assignment(c, after)
  }

  // assignment: target `<-` assignment | disjunction
  predicate Assignment(c: Cst, after: After)
    decreases c, 8
  {
    if c.CAssign? then
      && Disjunction(c.l, CONTINUED) && Assignment(c.r, after)
      && (Abs(c.l).VariableAccess? || Abs(c.l).FieldAccess? || Abs(c.l).IndexAccess?)
    else Disjunction(c, after)
  }

  // disjunction: disjunction `|` conjunction | conjunction
  predicate Disjunction(c: Cst, after: After)
    decreases c, 7
  {
    if c.CBin? && c.op.kind == BAR then Disjunction(c.l, CONTINUED) && Conjunction(c.r, after)
    else Conjunction(c, after)
  }

  // conjunction: conjunction `&` comparison | comparison
  predicate Conjunction(c: Cst, after: After)
    decreases c, 6
  {
    if c.CBin? && c.op.kind == AMPERSANT then Conjunction(c.l, CONTINUED) && Comparison(c.r, after)
    else Comparison(c, after)
  }

  // comparison: comparison (`==` | `!=` | `>` | `<` | `>=` | `<=`) sum | sum
  predicate Comparison(c: Cst, after: After)
    decreases c, 5
  {
    if c.CBin? && Compares(c.op.kind) then Comparison(c.l, CONTINUED) && Sum(c.r, after)
    else Sum(c, after)
  }

  predicate Compares(k: TokenKind) {
    || k == EQUAL_EQUAL || k == BANG_EQUAL || k == GREATER || k == LESS || k == GREATER_EQUAL || k == LESS_EQUAL
  }

  // sum: sum (`+` | `-`) product | product
  predicate Sum(c: Cst, after: After)
    decreases c, 4
  {
    if c.CBin? && (c.op.kind == PLUS || c.op.kind == MINUS) then Sum(c.l, CONTINUED) && Product(c.r, after)
    else Product(c, after)
  }

  // product: product (`*` | `/` | `%`) postfix | postfix
  predicate Product(c: Cst, after: After)
    decreases c, 3
  {
    if c.CBin? && (c.op.kind == ASTERISK || c.op.kind == SLASH || c.op.kind == PERCENT) then
      Product(c.l, CONTINUED) && Postfix(c.r, after)
    else Postfix(c, after)
  }

  // postfix: postfix `(` list `)` | postfix `[` expression `]` | postfix `.` name | primary
  predicate Postfix(c: Cst, after: After)
    decreases c, 2
  {
    match c
    case CCall(l, args) => Postfix(l, CONTINUED) && Expressions(args)
    case CIndex(l, i) => Postfix(l, CONTINUED) && Expression(i, CLOSED)
    case CField(l, x) => Postfix(l, CONTINUED) && IsName(x.kind)
    case _ => Primary(c, after)
  }

  // primary: what starts with a token of its own. The forms that end in an expression take
  // all of it, so nothing that goes on with an expression comes behind them, and no `else`
  // behind a conditional without one.
  predicate Primary(c: Cst, after: After)
    decreases c, 1
  {
    match c
    case CPrimary(t, v) => Literal(t, v)
    case CVar(t) => t.kind == IDENTIFIER
    case CParen(e) => Expression(e, CLOSED)
    case CBlock(items) => Expressions(items)
    case CArray(n, v) => Expression(n, CLOSED) && Expression(v, CLOSED)
    case CObject(ext, members) =>
      && (ext.CSome? ==> Expression(ext.c, CLOSED))
      && Expressions(members) && MembersOk(AbsList(members))
    case CPrint(f, args) =>
      && f.kind == STRING && (args.Args? ==> Expressions(args.list))
      && Placeholders(f.str) == |AbsArgs(args)|
    case CLet(x, v) => after != CONTINUED && IsName(x.kind) && Expression(v, after)
    case CWhile(g, b) => after != CONTINUED && Expression(g, CLOSED) && Expression(b, after)
    case CFunction(x, ps, b) =>
      && after != CONTINUED && (x.Named? ==> IsName(x.name.kind)) && NamesOk(ps) && Expression(b, after)
    case CIf(g, t, e) =>
      && after != CONTINUED && Expression(g, CLOSED)
      && (match e
          case CNone => after == CLOSED && Expression(t, CLOSED)
          case CSome(b) => Expression(t, BEFORE_ELSE) && Expression(b, after))
    case _ => false
  }

  // A separated list, whatever separates and ends it.
  predicate Expressions(es: CList)
    decreases es, 0
  {
    match es
    case LNil => true
    case LLast(e) => Expression(e, CLOSED)
    case LCons(e, more) => Expression(e, CLOSED) && Expressions(more)
  }

  // An identifier, or an operator used as a name.
  predicate IsName(k: TokenKind) {
    || k == IDENTIFIER || k == BAR || k == AMPERSANT || Compares(k) || k == PLUS || k == MINUS
    || k == ASTERISK || k == SLASH || k == PERCENT
  }

  predicate NamesOk(xs: NameList) {
    match xs
    case NNil => true
    case NLast(x) => IsName(x.kind)
    case NCons(x, more) => IsName(x.kind) && NamesOk(more)
  }

  // A program is a `;`-separated list of expressions up to the end of input.
  predicate Derives(tokens: List<Token>, program: CList) {
    Expressions(program) && YieldList(program, SEMICOLON, EOF, Nil) == tokens
  }

  // ------------------------------------------------------------ binding powers

  // The nonterminal that stands for trees of at least some binding power.
  predicate Derived(bp: nat, c: Cst, after: After)
    requires PREC_ASGN <= bp <= PREC_POST
  {
    if bp == PREC_ASGN then Assignment(c, after)
    else if bp == PREC_DISJ then Disjunction(c, after)
    else if bp == PREC_CONJ then Conjunction(c, after)
    else if bp == PREC_CMP then Comparison(c, after)
    else if bp == PREC_ADD then Sum(c, after)
    else if bp == PREC_MUL then Product(c, after)
    else Postfix(c, after)
  }

  function AfterOf(next: TokenKind): After {
    if next == ELSE then BEFORE_ELSE
    else if || next == SEMICOLON || next == RPAREN || next == RBRACKET || next == COMMA || next == BEGIN
            || next == END || next == THEN || next == DO || next == EOF then CLOSED
    else CONTINUED
  }

  lemma Closers(next: TokenKind)
    requires Lbp(next) <= PREC_POST
    ensures Stops(next) <==> AfterOf(next) != CONTINUED
  {
  }

  // A form that is no operator application belongs to every level alike.
  lemma PrimaryAnywhere(bp: nat, c: Cst, after: After)
    requires PREC_ASGN <= bp <= PREC_POST && Level(c) == PREC_TOP && !c.CBin?
    ensures Derived(bp, c, after) <==> Primary(c, after)
  {
    hide Primary;
    assert Postfix(c, after) == Primary(c, after);
    PostfixUp(bp, c, after);
  }

  lemma PostfixUp(bp: nat, c: Cst, after: After)
    requires PREC_ASGN <= bp <= PREC_POST && !c.CBin? && !c.CAssign?
    ensures Derived(bp, c, after) <==> Postfix(c, after)
  {
    hide Postfix;
    assert Product(c, after) == Postfix(c, after);
    assert Sum(c, after) == Product(c, after);
    assert Comparison(c, after) == Sum(c, after);
    assert Conjunction(c, after) == Comparison(c, after);
    assert Disjunction(c, after) == Conjunction(c, after);
    assert Assignment(c, after) == Disjunction(c, after);
  }

  // An application belongs to the levels up to that of its operator, and is one of it there.
  lemma BinaryLevels(bp: nat, c: Cst, after: After)
    requires PREC_ASGN <= bp <= PREC_POST && c.CBin?
    ensures !IsOperator(c.op.kind) ==> !Derived(bp, c, after)
    ensures IsOperator(c.op.kind) ==>
              var q := Lbp(c.op.kind);
              && PREC_DISJ <= q <= PREC_MUL
              && (Derived(bp, c, after) <==> bp <= q && Derived(q, c.l, CONTINUED) && Derived(q + 1, c.r, after))
  {
    var k := c.op.kind;
    var l, r := c.l, c.r;
    assert !Postfix(c, after);
    assert Product(c, after)
        == ((k == ASTERISK || k == SLASH || k == PERCENT) && Product(l, CONTINUED) && Postfix(r, after));
    assert Sum(c, after)
        == if k == PLUS || k == MINUS then Sum(l, CONTINUED) && Product(r, after) else Product(c, after);
    assert Comparison(c, after)
        == if Compares(k) then Comparison(l, CONTINUED) && Sum(r, after) else Sum(c, after);
    assert Conjunction(c, after)
        == if k == AMPERSANT then Conjunction(l, CONTINUED) && Comparison(r, after) else Comparison(c, after);
    assert Disjunction(c, after)
        == if k == BAR then Disjunction(l, CONTINUED) && Conjunction(r, after) else Conjunction(c, after);
    assert Assignment(c, after) == Disjunction(c, after);
    hide Assignment, Disjunction, Conjunction, Comparison, Sum, Product, Postfix;
  }

  // An assignment belongs to no other level.
  lemma AssignmentLevel(bp: nat, c: Cst, after: After)
    requires PREC_ASGN < bp <= PREC_POST && c.CAssign?
    ensures !Derived(bp, c, after)
  {
    assert !Postfix(c, after);
    assert !Product(c, after);
    assert !Sum(c, after);
    assert !Comparison(c, after);
    assert !Conjunction(c, after);
    assert !Disjunction(c, after);
  }

  lemma Names(k: TokenKind)
    ensures IsName(k) <==> IsIdentifier(k)
  {
  }

  lemma {:induction false} NameLists(xs: NameList)
    ensures NamesOk(xs) <==> OkNames(xs)
    decreases xs
  {
    match xs
    case NNil =>
    case NLast(x) => Names(x.kind);
    case NCons(x, more) =>
      Names(x.kind);
      NameLists(more);
  }

  // A tree has at least some binding power, and a token may follow it, exactly if it is
  // derived from the nonterminal of that level.
  lemma {:induction false} SameTrees(bp: nat, c: Cst, next: TokenKind)
    requires PREC_ASGN <= bp <= PREC_POST && Lbp(next) <= bp && (bp == PREC_ASGN ==> Stops(next))
    ensures Ok(c, next) && Level(c) >= bp <==> Derived(bp, c, AfterOf(next))
    decreases c, 3
  {
    hide Derived, Primary, Postfix;
    var after := AfterOf(next);
    if c.CBin? {
      SameBinary(bp, c, next);
    } else if c.CAssign? {
      SameAssignment(bp, c, next);
    } else if c.CCall? || c.CIndex? || c.CField? {
      PostfixUp(bp, c, after);
      SamePostfix(c, next);
    } else {
      PrimaryAnywhere(bp, c, after);
      SamePrimary(c, next);
    }
  }

  // The whole expression, in front of a token that ends it.
  lemma {:induction false} SameExpressions(c: Cst, next: TokenKind)
    requires Stops(next)
    ensures Ok(c, next) <==> Expression(c, AfterOf(next))
    decreases c, 4
  {
    hide Assignment;
    assert Ok(c, next) ==> Level(c) >= PREC_ASGN;
    SameTrees(PREC_ASGN, c, next);
  }

  lemma {:induction false} SameBinary(bp: nat, c: Cst, next: TokenKind)
    requires PREC_ASGN <= bp <= PREC_POST && Lbp(next) <= bp && c.CBin?
    ensures Ok(c, next) && Level(c) >= bp <==> Derived(bp, c, AfterOf(next))
    decreases c, 2
  {
    hide Derived;
    BinaryLevels(bp, c, AfterOf(next));
    var q := Lbp(c.op.kind);
    if IsOperator(c.op.kind) && bp <= q {
      assert AfterOf(c.op.kind) == CONTINUED;
      SameTrees(q, c.l, c.op.kind);
      SameTrees(q + 1, c.r, next);
    }
  }

  lemma {:induction false} SameAssignment(bp: nat, c: Cst, next: TokenKind)
    requires PREC_ASGN <= bp <= PREC_POST && c.CAssign? && (bp == PREC_ASGN ==> Stops(next))
    ensures Ok(c, next) && Level(c) >= bp <==> Derived(bp, c, AfterOf(next))
    decreases c, 2
  {
    hide Disjunction;
    if bp == PREC_ASGN {
      SameTrees(PREC_DISJ, c.l, LARROW);
      SameTrees(PREC_ASGN, c.r, next);
      assert Ok(c.r, next) ==> Level(c.r) >= PREC_ASGN;
    } else {
      AssignmentLevel(bp, c, AfterOf(next));
    }
  }

  lemma {:induction false} SamePostfix(c: Cst, next: TokenKind)
    requires c.CCall? || c.CIndex? || c.CField?
    ensures Ok(c, next) <==> Postfix(c, AfterOf(next))
    decreases c, 2
  {
    hide Expression;
    match c
    case CCall(l, args) =>
      SameTrees(PREC_POST, l, LPAREN);
      SameLists(args, COMMA, RPAREN);
    case CIndex(l, i) =>
      SameTrees(PREC_POST, l, LBRACKET);
      SameExpressions(i, RBRACKET);
    case CField(l, x) =>
      SameTrees(PREC_POST, l, DOT);
      Names(x.kind);
  }

  lemma {:induction false} SamePrimary(c: Cst, next: TokenKind)
    requires Lbp(next) <= PREC_POST && Level(c) == PREC_TOP && !c.CBin?
    ensures Ok(c, next) <==> Primary(c, AfterOf(next))
    decreases c, 2
  {
    hide Expression, MembersOk, Placeholders, Literal;
    match c
    case CPrimary(_, _) =>
    case CVar(_) =>
    case CParen(e) => SameExpressions(e, RPAREN);
    case CBlock(items) => SameLists(items, SEMICOLON, END);
    case CArray(n, v) =>
      SameExpressions(n, COMMA);
      SameExpressions(v, RPAREN);
    case CObject(ext, members) =>
      if ext.CSome? { SameExpressions(ext.c, BEGIN); }
      SameLists(members, SEMICOLON, END);
    case CPrint(_, args) => if args.Args? { SameLists(args.list, COMMA, RPAREN); }
    case CIf(_, _, _) => SameConditional(c, next);
    case CLet(_, _) => SameGreedy(c, next);
    case CWhile(_, _) => SameGreedy(c, next);
    case CFunction(_, _, _) => SameGreedy(c, next);
  }

  lemma {:induction false} SameGreedy(c: Cst, next: TokenKind)
    requires Lbp(next) <= PREC_POST && (c.CLet? || c.CWhile? || c.CFunction?)
    ensures Ok(c, next) <==> Primary(c, AfterOf(next))
    decreases c, 1
  {
    hide Expression;
    Closers(next);
    if Stops(next) {
      match c
      case CLet(x, v) =>
        Names(x.kind);
        SameExpressions(v, next);
      case CWhile(g, b) =>
        SameExpressions(g, DO);
        SameExpressions(b, next);
      case CFunction(x, ps, b) =>
        if x.Named? { Names(x.name.kind); }
        NameLists(ps);
        SameExpressions(b, next);
    }
  }

  lemma {:induction false} SameConditional(c: Cst, next: TokenKind)
    requires Lbp(next) <= PREC_POST && c.CIf?
    ensures Ok(c, next) <==> Primary(c, AfterOf(next))
    decreases c, 1
  {
    hide Expression;
    Closers(next);
    if Stops(next) {
      SameExpressions(c.cond, THEN);
      SameExpressions(c.thn, next);
      SameExpressions(c.thn, ELSE);
      if c.els.CSome? { SameExpressions(c.els.c, next); }
    }
  }

  lemma {:induction false} SameLists(es: CList, separator: TokenKind, terminator: TokenKind)
    requires AfterOf(separator) == CLOSED && AfterOf(terminator) == CLOSED
    ensures OkList(es, separator, terminator) <==> Expressions(es)
    decreases es, 5
  {
    hide Expression;
    match es
    case LNil =>
    case LLast(e) => SameExpressions(e, terminator);
    case LCons(e, more) =>
      SameExpressions(e, separator);
      SameLists(more, separator, terminator);
  }

  // Derivations are the same by levels and by binding powers.
  lemma SameDerivations(tokens: List<Token>, program: CList)
    ensures Derives(tokens, program) <==> Grammar.Derives(tokens, program)
  {
    hide Expression, Ok;
    SameLists(program, SEMICOLON, EOF);
  }
}
