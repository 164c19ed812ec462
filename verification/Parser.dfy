/**
 The parser itself: one object updated in place by mutually recursive methods, one per
 production, proved to compute what `ParserSpec` says. Lists are collected on a scratch
 stack shared by all nesting levels.
 */
module Parser {
  import opened Tokens
  import opened Ast
  import LexerSpec
  import L = Lexer
  import opened Scratch
  import PS = ParserSpec
  import SourceText

  class Parser {
    const lexer: L.Lexer
    const scratch: GArena
    var lookahead: Token
    var prev: Token
    var hadError: bool
    var panicMode: bool

    ghost predicate Valid()
      reads this, lexer, scratch
    {
      lexer.Valid() && scratch.Valid() && (panicMode ==> hadError)
    }

    // What the parser still has to do.
    ghost function View(): PS.State
      reads this, lexer
      requires lexer.Valid()
    {
      PS.State(lookahead, LexerSpec.LexAll(lexer.Ahead()),
               if panicMode then PS.PANIC else if hadError then PS.ERRORED else PS.CLEAN)
    }

    // The scratch stack is as it was: same height, same contents.
    twostate predicate Framed()
      requires old(scratch.Valid())
      reads this, scratch, scratch.mem
    {
      && scratch.Valid() && scratch.pos == old(scratch.pos) && scratch.Used() == old(scratch.Used())
      && (scratch.mem == old(scratch.mem) || fresh(scratch.mem))
    }

    constructor (source: string)
      ensures Valid() && fresh(lexer) && fresh(scratch) && fresh(scratch.mem) && scratch.Used() == []
      ensures View() == PS.State(EOF_TOKEN, LexerSpec.LexAll(source), PS.CLEAN)
    {
      hide LexerSpec.LexAll, LexerSpec.Lex;
      lexer := new L.Lexer(source);
      scratch := new GArena();
      lookahead, prev, hadError, panicMode := EOF_TOKEN, EOF_TOKEN, false, false;
    }

    // ---------------------------------------------------------------- tokens

    method ReportError(panic: bool)
      requires Valid()
      modifies this
      ensures Valid() && View() == PS.Report(old(View()), panic)
      ensures prev == old(prev)
    {
      if !panicMode {
        hadError := true;
        panicMode := panic;
      }
    }

    method Discard() returns (t: Token)
      requires Valid()
      modifies this, lexer
      ensures Valid() && View() == PS.Discard(old(View()))
      ensures t == prev == old(lookahead)
    {
      hide LexerSpec.Lex;
      prev := lookahead;
      lookahead := lexer.Next();
      if lookahead.kind == ERROR {
        ReportError(true);
      }
      t := prev;
    }

    method Eat(kind: TokenKind)
      requires Valid()
      modifies this, lexer
      ensures Valid() && View() == PS.Eat(old(View()), kind)
      ensures old(lookahead).kind == kind ==> prev == old(lookahead)
    {
      hide LexerSpec.LexAll, PS.Discard, PS.Report;
      if lookahead.kind != kind {
        ReportError(true);
      } else {
        var _ := Discard();
      }
    }

    method TryEat(kind: TokenKind) returns (eaten: bool)
      requires Valid()
      modifies this, lexer
      ensures Valid() && eaten == (old(lookahead).kind == kind)
      ensures View() == if eaten then PS.Discard(old(View())) else old(View())
    {
      hide LexerSpec.LexAll, PS.Discard, PS.Report;
      eaten := lookahead.kind == kind;
      if eaten {
        var _ := Discard();
      }
    }

    method EatIdentifier() returns (name: string)
      requires Valid()
      modifies this, lexer
      ensures Valid() && (name, View()) == PS.EatIdentifier(old(View()))
    {
      hide LexerSpec.LexAll, PS.Discard, PS.Report;
      if !IsIdentifier(lookahead.kind) {
        ReportError(true);
        name := "";
      } else {
        var _ := Discard();
        name := prev.str;
      }
    }

    // ----------------------------------------------------------------- lists

    method ExpressionList(separator: TokenKind, terminator: TokenKind) returns (es: seq<Ast>)
      requires Valid() && separator != EOF
      modifies this, lexer, scratch, scratch.mem
      ensures Valid() && Framed() && (es, View()) == PS.ExpressionList(old(View()), separator, terminator)
      decreases PS.Measure(View()), 7
    {
      hide LexerSpec.LexAll, PS.Discard, PS.Report, PS.ExpressionBp, Words, Resume;
      var start := scratch.pos;
      ghost var due := PS.ExpressionList(View(), separator, terminator);
      ghost var items: seq<Ast> := [];
      ghost var below := scratch.Used();
      Started(due);
      var more := true;
      while more
        invariant Valid() && (scratch.mem == old(scratch.mem) || fresh(scratch.mem))
        invariant scratch.pos == start + 8 * |items|
        invariant scratch.Used()[..start / 8] == below && scratch.Used()[start / 8..] == Words(items)
        invariant PS.Measure(View()) <= old(PS.Measure(View()))
        invariant due == if more then Resume(items, PS.ExpressionList(View(), separator, terminator))
                         else (items, View())
        decreases PS.Measure(View()), more
      {
        ghost var collected := items;
        var ended := TryEat(terminator);
        if ended {
          more := false;
          Appended(collected, Ast.Null, ([], View()));
        } else {
          var e;
          e, more := Element(separator, terminator);
          items := items + [e];
          WordsAppended(collected, e);
          Appended(collected, e, if more then PS.ExpressionList(View(), separator, terminator) else ([], View()));
        }
      }
      es := CollectAsts(start, items);
      assert scratch.Used() == below;
    }

    // One element and what separates it from the next, or ends the list.
    method Element(separator: TokenKind, terminator: TokenKind) returns (e: Ast, more: bool)
      requires Valid() && separator != EOF && lookahead.kind != terminator
      modifies this, lexer, scratch, scratch.mem
      ensures Valid() && scratch.pos == old(scratch.pos) + 8 && (scratch.mem == old(scratch.mem) || fresh(scratch.mem))
      ensures scratch.Used() == old(scratch.Used()) + [AstWord(e)]
      ensures PS.Measure(View()) <= old(PS.Measure(View())) && (more ==> PS.Measure(View()) < old(PS.Measure(View())))
      ensures PS.ExpressionList(old(View()), separator, terminator)
           == if more then Resume([e], PS.ExpressionList(View(), separator, terminator)) else ([e], View())
      decreases PS.Measure(View()), 6, 1
    {
      hide LexerSpec.LexAll, PS.Discard, PS.Report, PS.ExpressionBp;
      e := PushExpression();
      more := TryEat(separator);
      if !more {
        Eat(terminator);
      }
    }

    method PushExpression() returns (e: Ast)
      requires Valid()
      modifies this, lexer, scratch, scratch.mem
      ensures Valid() && (e, View()) == PS.ExpressionBp(old(View()), PREC_EXPR)
      ensures scratch.pos == old(scratch.pos) + 8 && (scratch.mem == old(scratch.mem) || fresh(scratch.mem))
      ensures scratch.Used() == old(scratch.Used()) + [AstWord(e)]
      decreases PS.Measure(View()), 6, 0
    {
      hide LexerSpec.LexAll, PS.ExpressionBp;
      e := ExpressionBp(PREC_EXPR);
      scratch.PushAst(e);
    }

    // The list ends with exactly the elements pushed since its start.
    method CollectAsts(start: nat, ghost items: seq<Ast>) returns (es: seq<Ast>)
      requires scratch.Valid() && start % 8 == 0 && start <= scratch.pos
      requires scratch.Used()[start / 8..] == Words(items)
      modifies scratch`pos
      ensures scratch.Valid() && scratch.pos == start && scratch.Used() == old(scratch.Used())[..start / 8]
      ensures es == items
    {
      forall i | start / 8 <= i < scratch.pos / 8 ensures scratch.mem[i].AstWord? {
        assert scratch.mem[i] == scratch.Used()[start / 8..][i - start / 8];
      }
      ghost var words := scratch.Used();
      es := scratch.MoveAsts(start);
      forall i | 0 <= i < |es| ensures AstWord(es[i]) == AstWord(items[i]) {
        assert words[start / 8 + i] == words[start / 8..][i];
      }
    }

    static lemma WordsAppended(items: seq<Ast>, e: Ast)
      ensures Words(items + [e]) == Words(items) + [AstWord(e)]
    {
    }

    static ghost function Words(items: seq<Ast>): seq<Word> {
      seq(|items|, i requires 0 <= i < |items| => AstWord(items[i]))
    }

    // Appending one element moves it from the rest of the list to its front.
    static lemma Appended<T>(items: seq<T>, x: T, r: (seq<T>, PS.State))
      ensures Resume(items + [x], r) == Resume(items, ([x] + r.0, r.1)) == Resume(items, Resume([x], r))
      ensures Resume(items, ([x], r.1)) == (items + [x], r.1)
      ensures Resume(items, ([], r.1)) == (items, r.1)
    {
      assert (items + [x]) + r.0 == items + ([x] + r.0);
      assert items + [] == items;
    }

    static lemma Started<T>(r: (seq<T>, PS.State))
      ensures Resume([], r) == r
      ensures Words([]) == [] && StrWords([]) == []
    {
      assert [] + r.0 == r.0;
    }

    static ghost function Resume<T>(items: seq<T>, r: (seq<T>, PS.State)): (seq<T>, PS.State) {
      (items + r.0, r.1)
    }

    method IdentifierList(separator: TokenKind, terminator: TokenKind) returns (xs: seq<string>)
      requires Valid() && separator != EOF
      modifies this, lexer, scratch, scratch.mem
      ensures Valid() && Framed() && (xs, View()) == PS.IdentifierList(old(View()), separator, terminator)
    {
      hide LexerSpec.LexAll, PS.Discard, PS.Report, PS.EatIdentifier, StrWords, Resume;
      var start := scratch.pos;
      ghost var due := PS.IdentifierList(View(), separator, terminator);
      ghost var items: seq<string> := [];
      ghost var below := scratch.Used();
      Started(due);
      var more := true;
      while more
        invariant Valid() && (scratch.mem == old(scratch.mem) || fresh(scratch.mem))
        invariant scratch.pos == start + 16 * |items|
        invariant scratch.Used()[..start / 8] == below && scratch.Used()[start / 8..] == StrWords(items)
        invariant due == if more then Resume(items, PS.IdentifierList(View(), separator, terminator))
                         else (items, View())
        decreases PS.Measure(View()), more
      {
        ghost var collected := items;
        var ended := TryEat(terminator);
        if ended {
          more := false;
          Appended(collected, "", ([], View()));
        } else {
          var x;
          x, more := Name(separator, terminator);
          items := items + [x];
          PairAppended(collected, x);
          Appended(collected, x, if more then PS.IdentifierList(View(), separator, terminator) else ([], View()));
        }
      }
      xs := CollectStrs(start, items);
      assert scratch.Used() == below;
    }

    // One name and what separates it from the next, or ends the list.
    method Name(separator: TokenKind, terminator: TokenKind) returns (x: string, more: bool)
      requires Valid() && separator != EOF && lookahead.kind != terminator
      modifies this, lexer, scratch, scratch.mem
      ensures Valid() && scratch.pos == old(scratch.pos) + 16 && (scratch.mem == old(scratch.mem) || fresh(scratch.mem))
      ensures scratch.Used() == old(scratch.Used()) + [StrWord(x), LengthWord(|x|)]
      ensures more ==> PS.Measure(View()) < old(PS.Measure(View()))
      ensures PS.IdentifierList(old(View()), separator, terminator)
           == if more then Resume([x], PS.IdentifierList(View(), separator, terminator)) else ([x], View())
    {
      hide LexerSpec.LexAll, PS.Discard, PS.Report, PS.EatIdentifier;
      x := PushIdentifier();
      more := TryEat(separator);
      if !more {
        Eat(terminator);
      }
    }

    method CollectStrs(start: nat, ghost items: seq<string>) returns (xs: seq<string>)
      requires scratch.Valid() && start % 8 == 0 && start <= scratch.pos
      requires scratch.Used()[start / 8..] == StrWords(items)
      modifies scratch`pos
      ensures scratch.Valid() && scratch.pos == start && scratch.Used() == old(scratch.Used())[..start / 8]
      ensures xs == items
    {
      ghost var words := scratch.Used();
      assert |words[start / 8..]| == 2 * |items|;
      forall i | 0 <= i < |items| ensures scratch.mem[start / 8 + 2 * i] == StrWord(items[i]) {
        assert scratch.mem[start / 8 + 2 * i] == words[start / 8..][2 * i];
      }
      xs := scratch.MoveStrs(start);
    }

    // Room for the string is reserved before the identifier is read into it.
    method PushIdentifier() returns (x: string)
      requires Valid()
      modifies this, lexer, scratch, scratch.mem
      ensures Valid() && (x, View()) == PS.EatIdentifier(old(View()))
      ensures scratch.pos == old(scratch.pos) + 16 && (scratch.mem == old(scratch.mem) || fresh(scratch.mem))
      ensures scratch.Used() == old(scratch.Used()) + [StrWord(x), LengthWord(|x|)]
    {
      hide LexerSpec.LexAll, PS.EatIdentifier;
      var slot := scratch.PushStr();
      x := EatIdentifier();
      scratch.SetStr(slot, x);
    }

    static lemma PairAppended(items: seq<string>, x: string)
      ensures StrWords(items + [x]) == StrWords(items) + [StrWord(x), LengthWord(|x|)]
    {
    }

    static ghost function StrWords(items: seq<string>): seq<Word> {
      seq(2 * |items|, i requires 0 <= i < 2 * |items| =>
        if i % 2 == 0 then StrWord(items[i / 2]) else LengthWord(|items[i / 2]|))
    }

    // ---------------------------------------------------------- start tokens

    method NullErr() returns (ast: Ast)
      requires Valid()
      modifies this
      ensures Valid() && ast == Ast.Null && View() == PS.Report(old(View()), true)
    {
      ReportError(true);
      ast := Ast.Null;
    }

    method Primary() returns (ast: Ast)
      requires Valid() && NullInfo(lookahead.kind) == NudPrimary
      modifies this, lexer
      ensures Valid() && (ast, View()) == PS.Primary(old(View()))
    {
      hide LexerSpec.LexAll, PS.Discard, PS.IntegerValue;
      var token := Discard();
      if token.kind == NUMBER {
        var i := Number(token.str);
        ast := Ast.Integer(i);
      } else if token.kind == NULL {
        ast := Ast.Null;
      } else {
        ast := Ast.Boolean(token.kind == TRUE);
      }
    }

    // Optional minus signs and decimal digits, truncated to 32 bits.
    static method Number(str: string) returns (value: int)
      ensures value == PS.IntegerValue(str)
    {
      var pos, negative := 0, false;
      while pos < |str| && str[pos] == '-'
        invariant 0 <= pos <= |str|
        invariant PS.StripMinus(str) == (negative != PS.StripMinus(str[pos..]).0, PS.StripMinus(str[pos..]).1)
      {
        negative := !negative;
        pos := pos + 1;
      }
      ghost var digits := str[pos..];
      assert PS.StripMinus(str) == (negative, digits);
      value := 0;
      while pos < |str|
        invariant 0 <= pos <= |str|
        invariant PS.Digits(digits, 0) == PS.Digits(str[pos..], value)
      {
        value := value * 10 + (str[pos] as int - '0' as int);
        pos := pos + 1;
      }
      value := Wrap32(if negative then -value else value);
    }

    method Ident() returns (ast: Ast)
      requires Valid()
      modifies this, lexer
      ensures Valid() && (ast, View()) == PS.Ident(old(View()))
    {
      hide LexerSpec.LexAll, PS.EatIdentifier;
      var name := EatIdentifier();
      ast := Ast.VariableAccess(name);
    }

    method Block() returns (ast: Ast)
      requires Valid() && lookahead.kind == BEGIN
      modifies this, lexer, scratch, scratch.mem
      ensures Valid() && Framed() && (ast, View()) == PS.BlockExpr(old(View()))
      decreases PS.Measure(View()), 2
    {
      hide LexerSpec.LexAll, PS.Discard, PS.Report, PS.Eat, PS.ExpressionBp, PS.ExpressionList;
      Eat(BEGIN);
      var es := ExpressionList(SEMICOLON, END);
      ast := if es == [] then Ast.Null else Ast.Block(es);
    }

    method Let() returns (ast: Ast)
      requires Valid() && lookahead.kind == LET
      modifies this, lexer, scratch, scratch.mem
      ensures Valid() && Framed() && (ast, View()) == PS.LetExpr(old(View()))
      decreases PS.Measure(View()), 2
    {
      hide LexerSpec.LexAll, PS.Discard, PS.Report, PS.Eat, PS.ExpressionBp, PS.ExpressionList, PS.EatIdentifier;
      Eat(LET);
      var name := EatIdentifier();
      Eat(EQUAL);
      var value := ExpressionBp(PREC_EXPR);
      ast := Ast.Definition(name, value);
    }

    method ArrayLiteral() returns (ast: Ast)
      requires Valid() && lookahead.kind == ARRAY
      modifies this, lexer, scratch, scratch.mem
      ensures Valid() && Framed() && (ast, View()) == PS.ArrayExpr(old(View()))
      decreases PS.Measure(View()), 2
    {
      hide LexerSpec.LexAll, PS.Discard, PS.Report, PS.Eat, PS.ExpressionBp, PS.ExpressionList;
      Eat(ARRAY);
      Eat(LPAREN);
      var size := ExpressionBp(PREC_EXPR);
      Eat(COMMA);
      var init := ExpressionBp(PREC_EXPR);
      Eat(RPAREN);
      ast := Ast.Array(size, init);
    }

    method ObjectLiteral() returns (ast: Ast)
      requires Valid() && lookahead.kind == OBJECT
      modifies this, lexer, scratch, scratch.mem
      ensures Valid() && Framed() && (ast, View()) == PS.ObjectExpr(old(View()))
      decreases PS.Measure(View()), 2
    {
      hide LexerSpec.LexAll, PS.Discard, PS.Report, PS.Eat, PS.ExpressionBp, PS.ExpressionList, MembersOk;
      Eat(OBJECT);
      var ext := Ast.Null;
      var extends_ := TryEat(EXTENDS);
      if extends_ {
        ext := ExpressionBp(PREC_EXPR);
      }
      Eat(BEGIN);
      var members := ExpressionList(SEMICOLON, END);
      CheckMembers(members);
      ast := Ast.Object(ext, members);
    }

    // Every member against all earlier ones.
    method CheckMembers(members: seq<Ast>)
      requires Valid()
      modifies this
      ensures Valid() && View() == PS.ReportUnless(old(View()), MembersOk(members))
    {
      hide LexerSpec.LexAll;
      ghost var before := View();
      var i := 0;
      while i < |members|
        invariant 0 <= i <= |members|
        invariant Valid() && View() == PS.ReportUnless(before, MembersOk(members[..i]))
      {
        var ok := members[i].Definition?;
        var j := 0;
        while j < i
          invariant 0 <= j <= i
          invariant ok == (members[i].Definition?
                           && forall k :: 0 <= k < j ==>
                                 !members[k].Definition? || members[k].defName != members[i].defName)
        {
          if members[i].Definition? && members[j].Definition? && members[i].defName == members[j].defName {
            ok := false;
          }
          j := j + 1;
        }
        if !ok {
          ReportError(false);
        }
        MembersStep(members, i);
        i := i + 1;
      }
      assert members[..i] == members;
    }

    static lemma MembersStep(members: seq<Ast>, i: nat)
      requires i < |members|
      ensures MembersOk(members[..i + 1]) <==>
              && MembersOk(members[..i]) && members[i].Definition?
              && forall k :: 0 <= k < i ==> !members[k].Definition? || members[k].defName != members[i].defName
    {
      var a, b := members[..i], members[..i + 1];
      assert forall k :: 0 <= k < i ==> a[k] == members[k] == b[k];
      assert b[i] == members[i];
    }

    method Cond() returns (ast: Ast)
      requires Valid() && lookahead.kind == IF
      modifies this, lexer, scratch, scratch.mem
      ensures Valid() && Framed() && (ast, View()) == PS.CondExpr(old(View()))
      decreases PS.Measure(View()), 2
    {
      hide LexerSpec.LexAll, PS.Discard, PS.Report, PS.Eat, PS.ExpressionBp, PS.ExpressionList;
      Eat(IF);
      var condition := ExpressionBp(PREC_EXPR);
      Eat(THEN);
      var consequent := ExpressionBp(PREC_EXPR);
      var alternative := Ast.Null;
      var has_else := TryEat(ELSE);
      if has_else {
        alternative := ExpressionBp(PREC_EXPR);
      }
      ast := Ast.Conditional(condition, consequent, alternative);
    }

    method While() returns (ast: Ast)
      requires Valid() && lookahead.kind == WHILE
      modifies this, lexer, scratch, scratch.mem
      ensures Valid() && Framed() && (ast, View()) == PS.LoopExpr(old(View()))
      decreases PS.Measure(View()), 2
    {
      hide LexerSpec.LexAll, PS.Discard, PS.Report, PS.Eat, PS.ExpressionBp, PS.ExpressionList;
      Eat(WHILE);
      var condition := ExpressionBp(PREC_EXPR);
      Eat(DO);
      var body := ExpressionBp(PREC_EXPR);
      ast := Ast.Loop(condition, body);
    }

    method Print() returns (ast: Ast)
      requires Valid() && lookahead.kind == PRINT
      modifies this, lexer, scratch, scratch.mem
      ensures Valid() && Framed() && (ast, View()) == PS.PrintExpr(old(View()))
      decreases PS.Measure(View()), 2
    {
      hide LexerSpec.LexAll, PS.Discard, PS.Report, PS.Eat, PS.ExpressionBp, PS.ExpressionList, Placeholders;
      Eat(PRINT);
      Eat(LPAREN);
      var quoted := lookahead.kind == STRING;
      Eat(STRING);
      // without a format string the tree is discarded with the reported error
      var format := if quoted then prev.str else "";
      var formats := CountPlaceholders(format);
      var args := [];
      var comma := TryEat(COMMA);
      if comma {
        args := ExpressionList(COMMA, RPAREN);
      } else {
        Eat(RPAREN);
      }
      if formats != |args| {
        ReportError(false);
      }
      ast := Ast.Print(format, args);
    }

    static method CountPlaceholders(format: string) returns (n: nat)
      ensures n == Placeholders(format)
    {
      n := 0;
      var i := 0;
      while i < |format|
        invariant 0 <= i <= |format| + 1
        invariant Placeholders(format) == n + if i <= |format| then Placeholders(format[i..]) else 0
      {
        if format[i] == '\\' {
          i := i + 1;
        } else if format[i] == '~' {
          n := n + 1;
        }
        i := i + 1;
      }
    }

    method Paren() returns (ast: Ast)
      requires Valid() && lookahead.kind == LPAREN
      modifies this, lexer, scratch, scratch.mem
      ensures Valid() && Framed() && (ast, View()) == PS.ParenExpr(old(View()))
      decreases PS.Measure(View()), 2
    {
      hide LexerSpec.LexAll, PS.Discard, PS.Report, PS.Eat, PS.ExpressionBp, PS.ExpressionList;
      Eat(LPAREN);
      ast := ExpressionBp(PREC_EXPR);
      Eat(RPAREN);
    }

    method FunctionLiteral() returns (ast: Ast)
      requires Valid() && lookahead.kind == FUNCTION
      modifies this, lexer, scratch, scratch.mem
      ensures Valid() && Framed() && (ast, View()) == PS.FunctionExpr(old(View()))
      decreases PS.Measure(View()), 2
    {
      hide LexerSpec.LexAll, PS.Discard, PS.Report, PS.Eat, PS.ExpressionBp, PS.ExpressionList, PS.EatIdentifier,
           PS.IdentifierList;
      Eat(FUNCTION);
      var name := "";
      var named := IsIdentifier(lookahead.kind);
      if named {
        name := EatIdentifier();
      }
      Eat(LPAREN);
      var params := IdentifierList(COMMA, RPAREN);
      Eat(RARROW);
      var body := ExpressionBp(PREC_EXPR);
      ast := Ast.Function(params, body);
      if named {
        ast := Ast.Definition(name, ast);
      }
    }

    // The start-token table.
    method Prefix() returns (ast: Ast)
      requires Valid()
      modifies this, lexer, scratch, scratch.mem
      ensures Valid() && Framed() && (ast, View()) == PS.Prefix(old(View()))
      decreases PS.Measure(View()), 3
    {
      hide LexerSpec.LexAll, PS.Report, PS.Primary, PS.Ident, PS.ParenExpr, PS.BlockExpr, PS.LetExpr, PS.ArrayExpr,
           PS.ObjectExpr, PS.CondExpr, PS.LoopExpr, PS.PrintExpr, PS.FunctionExpr;
      match NullInfo(lookahead.kind)
      case NudErr => ast := NullErr();
      case NudPrimary => ast := Primary();
      case NudIdent => ast := Ident();
      case NudParen => ast := Paren();
      case NudBlock => ast := Block();
      case NudCond => ast := Cond();
      case NudLet => ast := Let();
      case NudPrint => ast := Print();
      case NudObject => ast := ObjectLiteral();
      case NudLoop => ast := While();
      case NudFunction => ast := FunctionLiteral();
      case NudArray => ast := ArrayLiteral();
    }

    // ----------------------------------------------------- continuing tokens

    method LeftErr() returns (ast: Ast)
      requires Valid() && lookahead.kind != EOF
      modifies this
      ensures Valid() && (ast, View()) == PS.LeftErr(old(View()))
    {
      ReportError(true);
      lookahead := lookahead.(kind := EOF);
      ast := Ast.Null;
    }

    method Binop(left: Ast) returns (ast: Ast)
      requires Valid() && IsOperator(lookahead.kind)
      modifies this, lexer, scratch, scratch.mem
      ensures Valid() && Framed() && (ast, View()) == PS.BinopExpr(old(View()), left)
      decreases PS.Measure(View()), 2
    {
      hide LexerSpec.LexAll, PS.Discard, PS.Report, PS.Eat, PS.ExpressionBp, PS.ExpressionList;
      var rbp := Rbp(lookahead.kind);
      var token := Discard();
      var right := ExpressionBp(rbp);
      ast := Ast.MethodCall(left, token.str, [right]);
    }

    method Call(left: Ast) returns (ast: Ast)
      requires Valid() && lookahead.kind == LPAREN
      modifies this, lexer, scratch, scratch.mem
      ensures Valid() && Framed() && (ast, View()) == PS.CallExpr(old(View()), left)
      decreases PS.Measure(View()), 2
    {
      hide LexerSpec.LexAll, PS.Discard, PS.Report, PS.Eat, PS.ExpressionBp, PS.ExpressionList;
      Eat(LPAREN);
      var args := ExpressionList(COMMA, RPAREN);
      match left
      case FieldAccess(object_, field) => ast := Ast.MethodCall(object_, field, args);
      case _ => ast := Ast.FunctionCall(left, args);
    }

    method Indexing(left: Ast) returns (ast: Ast)
      requires Valid() && lookahead.kind == LBRACKET
      modifies this, lexer, scratch, scratch.mem
      ensures Valid() && Framed() && (ast, View()) == PS.IndexingExpr(old(View()), left)
      decreases PS.Measure(View()), 2
    {
      hide LexerSpec.LexAll, PS.Discard, PS.Report, PS.Eat, PS.ExpressionBp, PS.ExpressionList;
      Eat(LBRACKET);
      var index := ExpressionBp(PREC_EXPR);
      Eat(RBRACKET);
      ast := Ast.IndexAccess(left, index);
    }

    method Field(left: Ast) returns (ast: Ast)
      requires Valid() && lookahead.kind == DOT
      modifies this, lexer, scratch, scratch.mem
      ensures Valid() && Framed() && (ast, View()) == PS.FieldExpr(old(View()), left)
      decreases PS.Measure(View()), 2
    {
      hide LexerSpec.LexAll, PS.Discard, PS.Report, PS.Eat, PS.ExpressionBp, PS.ExpressionList, PS.EatIdentifier;
      Eat(DOT);
      var name := EatIdentifier();
      ast := Ast.FieldAccess(left, name);
    }

    // The lookahead is `<-`, or a `=` that has been turned into one.
    method Assign(left: Ast, rbp: nat) returns (ast: Ast)
      requires Valid() && lookahead.kind == LARROW && rbp >= PREC_EXPR
      modifies this, lexer, scratch, scratch.mem
      ensures Valid() && Framed() && (ast, View()) == PS.AssignFrom(PS.Eat(old(View()), LARROW), left, rbp)
      decreases PS.Measure(View()), 1
    {
      hide LexerSpec.LexAll, PS.Discard, PS.Report, PS.Eat, PS.ExpressionBp;
      Eat(LARROW);
      match left
      case VariableAccess(name) =>
        var value := ExpressionBp(rbp);
        ast := Ast.VariableAssignment(name, value);
      case FieldAccess(object_, field) =>
        var value := ExpressionBp(rbp);
        ast := Ast.FieldAssignment(object_, field, value);
      case IndexAccess(object_, index) =>
        var value := ExpressionBp(rbp);
        ast := Ast.IndexAssignment(object_, index, value);
      case _ =>
        ReportError(false);
        ast := left;
    }

    method EqErr(left: Ast) returns (ast: Ast)
      requires Valid() && lookahead.kind == EQUAL
      modifies this, lexer, scratch, scratch.mem
      ensures Valid() && Framed() && (ast, View()) == PS.EqErrExpr(old(View()), left)
      decreases PS.Measure(View()), 2
    {
      hide LexerSpec.LexAll, PS.AssignFrom;
      ReportError(false);
      lookahead := lookahead.(kind := LARROW);
      ast := Assign(left, Rbp(EQUAL));
    }

    // The continuing-token table. A token that stops expressions never gets here.
    method Infix(left: Ast) returns (ast: Ast)
      requires Valid() && Lbp(lookahead.kind) >= PREC_EXPR
      modifies this, lexer, scratch, scratch.mem
      ensures Valid() && Framed() && (ast, View()) == PS.Infix(old(View()), left)
      decreases PS.Measure(View()), 3
    {
      hide LexerSpec.LexAll, PS.Report, PS.LeftErr, PS.BinopExpr, PS.CallExpr, PS.EqErrExpr, PS.AssignFrom,
           PS.FieldExpr, PS.IndexingExpr;
      match LeftInfo(lookahead.kind)
      case LedErr => ast := LeftErr();
      case LedBinop => ast := Binop(left);
      case LedCall => ast := Call(left);
      case LedEqErr => ast := EqErr(left);
      case LedAssign => ast := Assign(left, Rbp(LARROW));
      case LedField => ast := Field(left);
      case LedIndexing => ast := Indexing(left);
    }

    // ---------------------------------------------------------- the main loop

    method ExpressionBp(bp: nat) returns (left: Ast)
      requires Valid() && bp >= PREC_EXPR
      modifies this, lexer, scratch, scratch.mem
      ensures Valid() && Framed() && (left, View()) == PS.ExpressionBp(old(View()), bp)
      decreases PS.Measure(View()), 5
    {
      hide LexerSpec.LexAll, PS.Prefix, PS.Infix, PS.Report;
      left := Prefix();
      while Lbp(lookahead.kind) >= bp
        invariant Valid() && Framed() && PS.Measure(View()) <= old(PS.Measure(View()))
        invariant PS.ExpressionBp(old(View()), bp) == PS.Continue(View(), left, bp)
        decreases PS.Measure(View())
      {
        left := Infix(left);
      }
    }

    // ------------------------------------------------------------ whole input

    method AtSynchronizationPoint() returns (there: bool)
      ensures there == (prev.kind == EOF || (prev.kind == SEMICOLON && NullInfo(lookahead.kind) != NudErr))
    {
      if prev.kind == EOF {
        return true;
      }
      if prev.kind == SEMICOLON && NullInfo(lookahead.kind) != NudErr {
        return true;
      }
      return false;
    }

    method Synchronize()
      requires Valid()
      modifies this, lexer
      ensures Valid() && View() == PS.Synchronize(old(View()))
    {
      hide LexerSpec.LexAll, PS.Discard;
      var _ := Discard();
      var there := AtSynchronizationPoint();
      while !there
        invariant Valid()
        invariant there == (prev.kind == EOF || (prev.kind == SEMICOLON && NullInfo(lookahead.kind) != NudErr))
        invariant PS.Synchronize(old(View())) == if there then View() else PS.Synchronize(View())
        decreases !there, PS.Measure(View()) + if prev.kind == EOF then 0 else 1
      {
        var _ := Discard();
        there := AtSynchronizationPoint();
      }
    }

    method Top() returns (ast: Ast)
      requires Valid()
      modifies this, lexer, scratch, scratch.mem
      ensures Valid() && Framed()
      ensures var (es, t) := PS.TopLoop(old(View())); View() == t && ast == if es == [] then Ast.Null else Ast.Top(es)
    {
      hide LexerSpec.LexAll, PS.Discard, PS.ExpressionList, PS.Synchronize;
      var es := ExpressionList(SEMICOLON, EOF);
      while panicMode
        invariant Valid() && Framed()
        invariant PS.TopLoop(old(View())) == if panicMode then PS.TopLoop(PS.Synchronize(View()).(mode := PS.ERRORED))
                                             else (es, View())
        decreases PS.Measure(View()), panicMode
      {
        PS.EndStays(View());
        Synchronize();
        panicMode := false;
        PS.EndStays(View());
        es := ExpressionList(SEMICOLON, EOF);
      }
      ast := if es == [] then Ast.Null else Ast.Top(es);
    }
  }

  // Parsing a source text, with a new lexer and an empty scratch stack.
  method Parse(source: string) returns (r: PS.Result)
    ensures r == SourceText.ParseSource(source)
  {
    hide LexerSpec.LexAll, PS.Discard, PS.TopLoop;
    var parser := new Parser(source);
    var _ := parser.Discard();
    var ast := parser.Top();
    r := if parser.hadError then PS.Rejected else PS.Accepted(ast);
  }
}
