/** What precedence and associativity do to three operands. */
module Precedence {
  import opened Tokens
  import opened Ast
  import opened Lists
  import opened Grammar
  import opened ParserSpec
  import opened Soundness
  import opened Strata

  // Classes of operators, each binding tighter than the one before.
  const CLASSES: seq<seq<TokenKind>> := [
    [BAR],
    [AMPERSANT],
    [EQUAL_EQUAL, BANG_EQUAL, GREATER, LESS, GREATER_EQUAL, LESS_EQUAL],
    [PLUS, MINUS],
    [ASTERISK, SLASH, PERCENT]
  ]

  predicate InClass(k: TokenKind, n: nat) { n < |CLASSES| && k in CLASSES[n] }

  lemma ClassPower(k: TokenKind, n: nat)
    requires InClass(k, n)
    ensures IsOperator(k) && Lbp(k) == PREC_DISJ + n
  {
  }

  // An operand without operators belongs to every level.
  lemma OperandLevel(bp: nat, c: Cst, after: After)
    requires PREC_ASGN <= bp <= PREC_POST && Postfix(c, after)
    ensures Derived(bp, c, after)
  {
    assert !c.CBin? && !c.CAssign?;
    PostfixUp(bp, c, after);
  }

  lemma Applied(bp: nat, l: Cst, op: Token, n: nat, r: Cst, after: After)
    requires InClass(op.kind, n) && PREC_ASGN <= bp <= PREC_DISJ + n
    requires Derived(PREC_DISJ + n, l, CONTINUED) && Derived(PREC_DISJ + n + 1, r, after)
    ensures Derived(bp, CBin(l, op, r), after)
  {
    hide Derived;
    ClassPower(op.kind, n);
    BinaryLevels(bp, CBin(l, op, r), after);
  }

  // The tokens of a chain of two operators.
  function Chain(a: Cst, p: Token, b: Cst, q: Token, c: Cst): List<Token> {
    Yield(a, Cons(p, Yield(b, Cons(q, Yield(c, Nil)))))
  }

  // `a p b q c` is `a p (b q c)` if q is of a later class than p, and `(a p b) q c`
  // otherwise, for any operands without operators of their own.
  lemma TwoOperators(a: Cst, p: Token, m: nat, b: Cst, q: Token, n: nat, c: Cst)
    requires Postfix(a, CONTINUED) && Postfix(b, CONTINUED) && Postfix(c, CLOSED)
    requires InClass(p.kind, m) && InClass(q.kind, n) && Lexed(Chain(a, p, b, q, c))
    ensures var right := MethodCall(Abs(a), p.str, [MethodCall(Abs(b), q.str, [Abs(c)])]);
            var left := MethodCall(MethodCall(Abs(a), p.str, [Abs(b)]), q.str, [Abs(c)]);
            Parse(Chain(a, p, b, q, c)) == Accepted(Top([if n > m then right else left]))
  {
    hide Derived, Parse, Lexed, Postfix, Strata.Assignment;
    var tree;
    if n > m {
      tree := CBin(a, p, CBin(b, q, c));
      OperandLevel(PREC_DISJ + m, a, CONTINUED);
      OperandLevel(PREC_DISJ + n, b, CONTINUED);
      OperandLevel(PREC_DISJ + n + 1, c, CLOSED);
      Applied(PREC_DISJ + m + 1, b, q, n, c, CLOSED);
      Applied(PREC_ASGN, a, p, m, CBin(b, q, c), CLOSED);
    } else {
      tree := CBin(CBin(a, p, b), q, c);
      OperandLevel(PREC_DISJ + m, a, CONTINUED);
      OperandLevel(PREC_DISJ + m + 1, b, CONTINUED);
      OperandLevel(PREC_DISJ + n + 1, c, CLOSED);
      Applied(PREC_DISJ + n, a, p, m, b, CONTINUED);
      Applied(PREC_ASGN, CBin(a, p, b), q, n, c, CLOSED);
    }
    Whole(tree);
    var end := Cons(q, Yield(c, Nil));
    assert Yield(CBin(b, q, c), Nil) == Yield(b, end) && Yield(CBin(a, p, b), end) == Yield(a, Cons(p, Yield(b, end)));
    assert YieldList(LLast(tree), SEMICOLON, EOF, Nil) == Yield(tree, Nil) == Chain(a, p, b, q, c);
    AcceptanceIsDerivability(Chain(a, p, b, q, c));
  }

  lemma Whole(tree: Cst)
    requires Derived(PREC_ASGN, tree, CLOSED)
    ensures Expressions(LLast(tree)) && ProgramAst(LLast(tree)) == Top([Abs(tree)])
  {
  }

  lemma VariableOperand(x: Token)
    requires x.kind == IDENTIFIER
    ensures Disjunction(CVar(x), CONTINUED)
  {
    OperandLevel(PREC_DISJ, CVar(x), CONTINUED);
  }

  // Assignment associates to the right.
  lemma TwoAssignments(x: Token, y: Token, c: Cst)
    requires x.kind == IDENTIFIER && y.kind == IDENTIFIER && Postfix(c, CLOSED)
    requires Lexed(Yield(CAssign(CVar(x), CAssign(CVar(y), c)), Nil))
    ensures Parse(Yield(CAssign(CVar(x), CAssign(CVar(y), c)), Nil))
         == Accepted(Top([VariableAssignment(x.str, VariableAssignment(y.str, Abs(c)))]))
  {
    hide Parse, Lexed, Postfix;
    var inner := CAssign(CVar(y), c);
    OperandLevel(PREC_ASGN, c, CLOSED);
    VariableOperand(y);
    VariableOperand(x);
    assert Strata.Assignment(inner, CLOSED);
    Whole(CAssign(CVar(x), inner));
    AcceptanceIsDerivability(Yield(CAssign(CVar(x), inner), Nil));
  }
}
