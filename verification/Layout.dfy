/**
 Source texts as tokens with white space and comments around them: laying tokens out and
 lexing gives them back, and every text the lexer takes without error is such a layout.
 */
module Layout {
  import opened Tokens
  import opened Lists
  import opened LexerSpec

  // What may stand between tokens. An open line comment runs to the end of input.
  datatype Piece = Space(c: char) | Line(body: string) | Block(body: string) | OpenLine(body: string)

  predicate PieceOk(p: Piece) {
    match p
    case Space(c) => IsSpace(c)
    case Line(body) => '\n' !in body
    case Block(body) => BlockBody(body + "*/") == Closed(|body|)
    case OpenLine(body) => '\n' !in body
  }

  function PieceText(p: Piece): string {
    match p
    case Space(c) => [c]
    case Line(body) => "//" + body + "\n"
    case Block(body) => "/*" + body + "*/"
    case OpenLine(body) => "//" + body
  }

  type Gap = List<Piece>

  // The text of a gap, followed by `tail`.
  function GapText(g: Gap, tail: string): string {
    match g
    case Nil => tail
    case Cons(p, more) => PieceText(p) + GapText(more, tail)
  }

  predicate GapOk(g: Gap, atEnd: bool) {
    match g
    case Nil => true
    case Cons(p, more) => PieceOk(p) && (p.OpenLine? ==> atEnd && more == Nil) && GapOk(more, atEnd)
  }

  // ------------------------------------------------------------------ tokens

  function TokenText(t: Token): string {
    if t.kind == STRING then "\"" + t.str + "\"" else t.str
  }

  predicate IsWord(str: string) {
    str != "" && IsAlpha(str[0]) && WordSpan(str) == |str|
  }

  predicate IsNumeral(str: string) {
    str != "" && (if str[0] == '-' then |str| > 1 && DigitSpan(str[1..]) == |str| - 1 else DigitSpan(str) == |str|)
  }

  // Tokens that can be written down.
  predicate Writable(t: Token) {
    if t.kind == IDENTIFIER then IsWord(t.str) && Keyword(t.str) == IDENTIFIER
    else if t.kind == NUMBER then IsNumeral(t.str)
    else if t.kind == STRING then StringBody(t.str + "\"") == Closed(|t.str|)
    else t.kind != EOF && t.kind != ERROR && t.str == Spelling(t.kind)
  }

  // Operators that change when they are the very last byte of the input.
  predicate Fragile(k: TokenKind) { k == MINUS || k == EQUAL || k == GREATER || k == LESS }

  // A token and the gap after it.
  datatype Item = Item(token: Token, gap: Gap)

  function Text(items: List<Item>): string {
    match items
    case Nil => ""
    case Cons(it, more) => TokenText(it.token) + GapText(it.gap, Text(more))
  }

  function TokensOf(items: List<Item>): List<Token> {
    match items
    case Nil => Nil
    case Cons(it, more) => Cons(it.token, TokensOf(more))
  }

  // What may follow a token that is to be read back. At the very end of the input only a
  // fragile one is lost; elsewhere the next byte must not extend the token.
  predicate Breaks(k: TokenKind, tail: string) {
    if tail == "" then !Fragile(k)
    else if k == IDENTIFIER || BEGIN <= k <= FALSE then !IsWordChar(tail[0])
    else if k == NUMBER then !IsDigit(tail[0])
    else if k == EQUAL || k == GREATER then tail[0] != '='
    else if k == LESS then tail[0] != '=' && tail[0] != '-'
    else if k == MINUS then tail[0] != '>' && !IsDigit(tail[0])
    else if k == SLASH then tail[0] != '/' && tail[0] != '*'
    else true
  }

  // Writable tokens, each in front of something that ends it; gaps may be empty.
  predicate Spaced(items: List<Item>) {
    match items
    case Nil => true
    case Cons(it, more) =>
      && Writable(it.token) && GapOk(it.gap, more == Nil)
      && Breaks(it.token.kind, GapText(it.gap, Text(more)))
      && Spaced(more)
  }

  // ------------------------------------------------------- reading over a gap

  lemma SpanStop(body: string, tail: string)
    requires '\n' !in body && (tail == "" || tail[0] == '\n')
    ensures LineSpan(body + tail) == |body|
  {
    if body == "" {
      assert body + tail == tail;
    } else {
      assert (body + tail)[1..] == body[1..] + tail;
      SpanStop(body[1..], tail);
    }
  }

  lemma {:induction false} BlockStop(body: string, tail: string)
    requires BlockBody(body + "*/") == Closed(|body|)
    ensures BlockBody(body + "*/" + tail) == Closed(|body|)
  {
    var s := body + "*/" + tail;
    if body == "" {
      assert s[0] == '*' && s[1] == '/';
    } else {
      var t := body + "*/";
      assert t[1..] == body[1..] + "*/" && s[1..] == body[1..] + "*/" + tail;
      assert BlockBody(t) == Longer(1, BlockBody(t[1..]));
      BlockStop(body[1..], tail);
      assert s[0] == t[0] && s[1] == t[1];
    }
  }

  lemma LexSkipsLine(body: string, tail: string)
    requires '\n' !in body
    ensures Lex("//" + body + "\n" + tail) == Lex(tail)
  {
    var s := "//" + body + "\n" + tail;
    SpanStop(body, "\n" + tail);
    assert s[2..] == body + ("\n" + tail) && s[|body| + 3..] == tail;
    SlashFirst(s);
    SlashLine(s);
  }

  lemma LexSkipsBlock(body: string, tail: string)
    requires BlockBody(body + "*/") == Closed(|body|)
    ensures Lex("/*" + body + "*/" + tail) == Lex(tail)
  {
    hide Lex;
    var s := "/*" + body + "*/" + tail;
    BlockStop(body, tail);
    assert s[2..] == body + "*/" + tail && s[|body| + 4..] == tail;
    SlashFirst(s);
  }

  lemma SlashFirst(s: string)
    requires s != "" && s[0] == '/'
    ensures Lex(s) == Slash(s)
  {
    hide Slash, Keyword, Punctuation;
  }

  lemma SlashLine(s: string)
    requires |s| > 1 && s[0] == s[1] == '/' && 2 + LineSpan(s[2..]) < |s|
    ensures Slash(s) == Lex(s[2 + LineSpan(s[2..]) + 1..])
  {
    hide Lex, LineSpan;
  }

  lemma LexSkipsPiece(p: Piece, tail: string)
    requires PieceOk(p) && !p.OpenLine?
    ensures Lex(PieceText(p) + tail) == Lex(tail)
  {
    hide Keyword, Punctuation, Slash;
    match p
    case Space(c) => assert ([c] + tail)[1..] == tail;
    case Line(body) => LexSkipsLine(body, tail);
    case Block(body) => LexSkipsBlock(body, tail);
  }

  lemma {:induction false} LexSkipsGap(g: Gap, tail: string)
    requires GapOk(g, tail == "")
    ensures Lex(GapText(g, tail)) == Lex(tail)
  {
    hide Lex;
    match g
    case Nil =>
    case Cons(p, more) =>
      if p.OpenLine? {
        LexOpenLine(p.body);
      } else {
        LexSkipsGap(more, tail);
        LexSkipsPiece(p, GapText(more, tail));
      }
  }

  lemma LexOpenLine(body: string)
    requires '\n' !in body
    ensures Lex("//" + body + "") == Lex("")
  {
    hide Keyword, Punctuation;
    SpanStop(body, "");
    assert ("//" + body)[2..] == body + "";
    assert "//" + body + "" == "//" + body;
  }

  // ------------------------------------------------------- reading one token

  lemma {:induction false} WordStop(str: string, tail: string)
    requires WordSpan(str) == |str| && (tail == "" || !IsWordChar(tail[0]))
    ensures WordSpan(str + tail) == |str|
  {
    if str == "" {
      assert str + tail == tail;
    } else {
      assert (str + tail)[1..] == str[1..] + tail;
      WordStop(str[1..], tail);
    }
  }

  lemma {:induction false} DigitStop(str: string, tail: string)
    requires DigitSpan(str) == |str| && (tail == "" || !IsDigit(tail[0]))
    ensures DigitSpan(str + tail) == |str|
  {
    if str == "" {
      assert str + tail == tail;
    } else {
      assert (str + tail)[1..] == str[1..] + tail;
      DigitStop(str[1..], tail);
    }
  }

  lemma {:induction false} StringStop(str: string, tail: string)
    requires StringBody(str + "\"") == Closed(|str|)
    ensures StringBody(str + "\"" + tail) == Closed(|str|)
    decreases |str|
  {
    var t := str + "\"";
    var s := t + tail;
    if str != "" {
      assert s[0] == t[0] && s[1] == t[1];
      var n := if t[0] == '\\' then 2 else 1;
      assert StringBody(t) == Longer(n, StringBody(t[n..]));
      assert n <= |str|;
      assert t[n..] == str[n..] + "\"" && s[n..] == str[n..] + "\"" + tail;
      StringStop(str[n..], tail);
    }
  }

  // No two keywords agree on their first two letters.
  function Initials(k: TokenKind): (int, int)
    requires BEGIN <= k <= FALSE
  {
    (Spelling(k)[0] as int, Spelling(k)[1] as int)
  }

  lemma KeywordsDiffer(a: TokenKind, b: TokenKind)
    requires BEGIN <= a <= FALSE && BEGIN <= b <= FALSE && a != b
    ensures Spelling(a) != Spelling(b)
  {
    assert Initials(a) != Initials(b);
  }

  lemma KeywordSpelled(k: TokenKind)
    requires BEGIN <= k <= FALSE
    ensures Keyword(Spelling(k)) == k
  {
    hide Keyword;
    var found := Keyword(Spelling(k));
    if found != IDENTIFIER && found != k {
      KeywordsDiffer(found, k);
    }
  }

  lemma KeywordIsWord(k: TokenKind)
    requires BEGIN <= k <= FALSE
    ensures IsWord(Spelling(k))
  {
    var s := Spelling(k);
    assert IsAlpha(s[0]);
    assert forall i :: 0 <= i < |s| ==> IsWordChar(s[i]);
    AllWord(s);
  }

  lemma {:induction false} AllWord(s: string)
    requires forall i :: 0 <= i < |s| ==> IsWordChar(s[i])
    ensures WordSpan(s) == |s|
  {
    if s != "" { AllWord(s[1..]); }
  }

  lemma LexWord(t: Token, tail: string)
    requires IsWord(t.str) && Keyword(t.str) == t.kind && (tail == "" || !IsWordChar(tail[0]))
    ensures Lex(t.str + tail) == Lexeme(t, tail)
  {
    hide Keyword, WordSpan, Lex, Plain;
    var s := t.str + tail;
    WordRest(t.str);
    WordStop(t.str[1..], tail);
    assert s[1..] == t.str[1..] + tail;
    assert s[..|t.str|] == t.str && s[|t.str|..] == tail;
    LexWords(s);
  }

  lemma LexWords(s: string)
    requires s != "" && IsAlpha(s[0])
    ensures var n := 1 + WordSpan(s[1..]); Lex(s) == Front(Keyword(s[..n]), s, n)
  {
    hide Keyword, WordSpan, Lex;
    LexPlain(s);
  }

  lemma WordRest(str: string)
    requires IsWord(str)
    ensures WordSpan(str[1..]) == |str| - 1
  {
  }

  lemma LexNumeral(str: string, tail: string)
    requires IsNumeral(str) && (tail == "" || !IsDigit(tail[0]))
    ensures Lex(str + tail) == Lexeme(Token(NUMBER, str), tail)
  {
    hide Lex, DigitSpan;
    var s := str + tail;
    NumeralRest(str);
    DigitStop(str[1..], tail);
    assert s[1..] == str[1..] + tail;
    assert s[..|str|] == str && s[|str|..] == tail;
    LexDigits(s);
  }

  lemma NumeralRest(str: string)
    requires IsNumeral(str)
    ensures DigitSpan(str[1..]) == |str| - 1
    ensures IsDigit(str[0]) || (str[0] == '-' && |str| > 1 && IsDigit(str[1]))
  {
  }

  lemma LexDigits(s: string)
    requires s != "" && (IsDigit(s[0]) || (s[0] == '-' && |s| > 1 && IsDigit(s[1])))
    ensures Lex(s) == Front(NUMBER, s, 1 + DigitSpan(s[1..]))
  {
    hide Lex, Plain;
    LexPlain(s);
    if IsDigit(s[0]) {
      PlainDigit(s);
    } else {
      PlainNegative(s);
    }
  }

  lemma PlainDigit(s: string)
    requires s != "" && IsDigit(s[0])
    ensures Plain(s) == Front(NUMBER, s, 1 + DigitSpan(s[1..]))
  {
    hide DigitSpan;
  }

  lemma PlainNegative(s: string)
    requires |s| > 1 && s[0] == '-' && IsDigit(s[1])
    ensures Plain(s) == Front(NUMBER, s, 1 + DigitSpan(s[1..]))
  {
    hide DigitSpan;
  }

  lemma LexQuoted(str: string, tail: string)
    requires StringBody(str + "\"") == Closed(|str|)
    ensures Lex("\"" + str + "\"" + tail) == Lexeme(Token(STRING, str), tail)
  {
    hide Keyword, Punctuation, Lex, StringBody;
    var s := "\"" + str + "\"" + tail;
    LexPlain(s);
    StringStop(str, tail);
    assert s[1..] == str + "\"" + tail;
    assert s[1..|str| + 1] == str && s[|str| + 2..] == tail;
  }

  // Operators that a second byte could extend; the text of a fragile one must not end
  // the input.
  lemma LexPair(k: TokenKind, tail: string)
    requires k == EQUAL_EQUAL || k == EQUAL || k == GREATER || k == GREATER_EQUAL || k == LESS || k == LESS_EQUAL
    requires Breaks(k, tail)
    ensures Lex(Spelling(k) + tail) == Lexeme(Token(k, Spelling(k)), tail)
  {
    hide Lex, Plain;
    var s := Spelling(k) + tail;
    LexPlain(s);
    assert s[..|Spelling(k)|] == Spelling(k) && s[|Spelling(k)|..] == tail;
    PlainPair(s);
  }

  lemma PlainPair(s: string)
    requires s != "" && (s[0] == '=' || s[0] == '>' || (s[0] == '<' && !(|s| > 1 && s[1] == '-')))
    ensures Plain(s) == if s[0] == '=' then Pair(s, '=', EQUAL_EQUAL, EQUAL)
                        else if s[0] == '>' then Pair(s, '=', GREATER_EQUAL, GREATER)
                        else Pair(s, '=', LESS_EQUAL, LESS)
  {
    hide Pair;
  }

  lemma LexArrow(k: TokenKind, tail: string)
    requires k == MINUS || k == LARROW || k == RARROW || k == BANG_EQUAL
    requires Breaks(k, tail)
    ensures Lex(Spelling(k) + tail) == Lexeme(Token(k, Spelling(k)), tail)
  {
    hide Lex, Plain;
    var s := Spelling(k) + tail;
    LexPlain(s);
    assert s[..|Spelling(k)|] == Spelling(k) && s[|Spelling(k)|..] == tail;
    PlainArrow(s);
  }

  lemma PlainArrow(s: string)
    requires s != "" && (s[0] == '-' || s[0] == '!' || (s[0] == '<' && |s| > 1 && s[1] == '-'))
    requires s[0] == '-' ==> |s| == 1 || !IsDigit(s[1])
    ensures s[0] == '<' ==> Plain(s) == Front(LARROW, s, 2)
    ensures s[0] == '!' && |s| > 1 && s[1] == '=' ==> Plain(s) == Front(BANG_EQUAL, s, 2)
    ensures s[0] == '-' && |s| > 1 ==> Plain(s) == if s[1] == '>' then Front(RARROW, s, 2) else Front(MINUS, s, 1)
  {
    hide Keyword, Punctuation, WordSpan, StringBody;
  }

  lemma LexDivision(tail: string)
    requires Breaks(SLASH, tail)
    ensures Lex("/" + tail) == Lexeme(Token(SLASH, "/"), tail)
  {
    var s := "/" + tail;
    SlashFirst(s);
    assert s[..1] == "/" && s[1..] == tail;
  }

  lemma LexSingle(k: TokenKind, tail: string)
    requires |Spelling(k)| == 1 && Punctuation(Spelling(k)[0]) == k != ERROR
    ensures Lex(Spelling(k) + tail) == Lexeme(Token(k, Spelling(k)), tail)
  {
    hide Keyword, Lex;
    var s := Spelling(k) + tail;
    LexPlain(s);
    assert s[..1] == Spelling(k) && s[1..] == tail;
  }

  lemma LexPunctuation(k: TokenKind, tail: string)
    requires BAR <= k <= COMMA && Breaks(k, tail)
    ensures Lex(Spelling(k) + tail) == Lexeme(Token(k, Spelling(k)), tail)
  {
    hide Lex;
    if k == EQUAL || EQUAL_EQUAL == k || GREATER <= k <= LESS_EQUAL {
      LexPair(k, tail);
    } else if k == MINUS || k == LARROW || k == RARROW || k == BANG_EQUAL {
      LexArrow(k, tail);
    } else if k == SLASH {
      LexDivision(tail);
    } else {
      LexSingle(k, tail);
    }
  }

  lemma LexToken(t: Token, tail: string)
    requires Writable(t) && Breaks(t.kind, tail)
    ensures Lex(TokenText(t) + tail) == Lexeme(t, tail)
  {
    hide Lex, Keyword;
    if t.kind == IDENTIFIER {
      LexWord(t, tail);
    } else if t.kind == NUMBER {
      LexNumeral(t.str, tail);
    } else if t.kind == STRING {
      LexQuoted(t.str, tail);
    } else if t.kind <= COMMA {
      LexPunctuation(t.kind, tail);
    } else {
      KeywordSpelled(t.kind);
      KeywordIsWord(t.kind);
      LexWord(t, tail);
    }
  }

  // ------------------------------------------------- reading too much of a token

  lemma {:induction false} WordOn(str: string, tail: string)
    requires WordSpan(str) == |str| && tail != "" && IsWordChar(tail[0])
    ensures WordSpan(str + tail) > |str|
  {
    if str == "" {
      assert str + tail == tail;
    } else {
      assert (str + tail)[1..] == str[1..] + tail;
      WordOn(str[1..], tail);
    }
  }

  lemma {:induction false} DigitOn(str: string, tail: string)
    requires DigitSpan(str) == |str| && tail != "" && IsDigit(tail[0])
    ensures DigitSpan(str + tail) > |str|
  {
    if str == "" {
      assert str + tail == tail;
    } else {
      assert (str + tail)[1..] == str[1..] + tail;
      DigitOn(str[1..], tail);
    }
  }

  lemma WordSwallows(str: string, tail: string)
    requires IsWord(str) && tail != "" && IsWordChar(tail[0])
    ensures |Lex(str + tail).rest| < |tail|
  {
    hide Keyword, WordSpan, Lex;
    var s := str + tail;
    WordRest(str);
    WordOn(str[1..], tail);
    assert s[1..] == str[1..] + tail;
    LexWords(s);
  }

  lemma NumeralSwallows(str: string, tail: string)
    requires IsNumeral(str) && tail != "" && IsDigit(tail[0])
    ensures |Lex(str + tail).rest| < |tail|
  {
    hide Lex, DigitSpan;
    var s := str + tail;
    NumeralRest(str);
    DigitOn(str[1..], tail);
    assert s[1..] == str[1..] + tail;
    LexDigits(s);
  }

  lemma OperatorSwallows(k: TokenKind, tail: string)
    requires (Fragile(k) || k == SLASH) && tail != "" && !Breaks(k, tail)
    ensures |Lex(Spelling(k) + tail).rest| < |tail|
  {
    hide Keyword, Punctuation, Lex, Slash;
    var s := Spelling(k) + tail;
    assert s[0] == Spelling(k)[0] && s[1] == tail[0];
    if k == SLASH {
      SlashFirst(s);
      SlashSwallows(s);
    } else {
      LexPlain(s);
    }
  }

  lemma SlashSwallows(s: string)
    requires |s| > 1 && s[0] == '/' && (s[1] == '/' || s[1] == '*')
    ensures |Slash(s).rest| < |s| - 1
  {
    hide Lex;
  }

  lemma LexFragile(k: TokenKind)
    requires Fragile(k)
    ensures Lex(Spelling(k)) == Lexeme(Token(SLASH, Spelling(k)), "")
  {
    hide Keyword, Punctuation, Lex;
    LexPlain(Spelling(k));
    assert Spelling(k)[..1] == Spelling(k) && Spelling(k)[1..] == "";
  }

  // A written token is read back, leaving what follows it, exactly if that breaks it.
  lemma LexTokenExact(t: Token, tail: string)
    requires Writable(t)
    ensures Lex(TokenText(t) + tail) == Lexeme(t, tail) <==> Breaks(t.kind, tail)
  {
    hide Lex, Keyword;
    if Breaks(t.kind, tail) {
      LexToken(t, tail);
    } else if tail == "" {
      LexFragile(t.kind);
      assert TokenText(t) + tail == Spelling(t.kind);
    } else if t.kind == NUMBER {
      NumeralSwallows(t.str, tail);
    } else if Fragile(t.kind) || t.kind == SLASH {
      OperatorSwallows(t.kind, tail);
    } else {
      if t.kind != IDENTIFIER { KeywordIsWord(t.kind); }
      WordSwallows(t.str, tail);
    }
  }

  // A lone `-`, `=`, `>` or `<` at the end of the input is delivered as a division sign.
  lemma FragileAtEnd(t: Token)
    requires Writable(t)
    ensures Lex(TokenText(t)) == Lexeme(t, "") <==> !Fragile(t.kind)
  {
    hide Lex;
    LexTokenExact(t, "");
    assert TokenText(t) + "" == TokenText(t);
  }

  // ------------------------------------------------------------- round trips

  // Lexing undoes layout.
  lemma {:induction false} LexLayout(lead: Gap, items: List<Item>)
    requires GapOk(lead, items == Nil) && Spaced(items)
    ensures LexAll(GapText(lead, Text(items))) == TokensOf(items)
    decreases items
  {
    hide Lex;
    var s := GapText(lead, Text(items));
    TextEmpty(items);
    LexSkipsGap(lead, Text(items));
    match items {
      case Nil => LexEmpty();
      case Cons(it, more) =>
        var rest := GapText(it.gap, Text(more));
        LexToken(it.token, rest);
        LexLayout(it.gap, more);
        assert Lex(s) == Lexeme(it.token, rest);
    }
  }

  lemma LexEmpty()
    ensures Lex("") == Lexeme(EOF_TOKEN, "")
  {
  }

  lemma TokenTextVisible(t: Token)
    requires Writable(t)
    ensures TokenText(t) != ""
  {
    hide Keyword, WordSpan, DigitSpan, StringBody;
    if BAR <= t.kind <= FALSE {
      assert |Spelling(t.kind)| > 0;
    }
  }

  lemma TextEmpty(items: List<Item>)
    requires Spaced(items)
    ensures Text(items) == "" <==> items == Nil
  {
    hide Writable, TokenText;
    if items.Cons? {
      TokenTextVisible(items.head.token);
    }
  }

  // ---------------------------------------------------------------- coverage

  lemma {:induction false} BlockPrefix(t: string)
    requires BlockBody(t).Closed?
    ensures var n := BlockBody(t).length; BlockBody(t[..n] + "*/") == Closed(n)
  {
    var n := BlockBody(t).length;
    var u := t[..n] + "*/";
    assert u == t[..n + 2];
    if n > 0 {
      BlockPrefix(t[1..]);
      assert u[1..] == t[1..][..n - 1] + "*/";
      assert BlockBody(u) == Longer(1, BlockBody(u[1..]));
    }
  }

  lemma {:induction false} LinePrefix(t: string)
    ensures '\n' !in t[..LineSpan(t)]
    ensures LineSpan(t) < |t| ==> t[LineSpan(t)] == '\n'
  {
    if t != "" && t[0] != '\n' {
      LinePrefix(t[1..]);
      assert t[..LineSpan(t)] == [t[0]] + t[1..][..LineSpan(t) - 1];
    }
  }

  lemma PlainText(s: string)
    requires s != "" && !IsSpace(s[0]) && s[0] != '/' && Plain(s).token.kind != ERROR
    ensures s == TokenText(Plain(s).token) + Plain(s).rest
  {
    hide Plain, Keyword;
    if s[0] == '"' {
      QuotedText(s);
    } else {
      var n := PlainFront(s);
      assert s == s[..n] + s[n..];
    }
  }

  lemma QuotedText(s: string)
    requires s != "" && s[0] == '"' && Plain(s).token.kind != ERROR
    ensures s == TokenText(Plain(s).token) + Plain(s).rest
  {
    hide Keyword, Punctuation;
    var n := StringBody(s[1..]).length;
    assert s == "\"" + s[1..n + 1] + "\"" + s[n + 2..];
  }

  // Any token but a string is the front of its text.
  lemma PlainFront(s: string) returns (n: nat)
    requires s != "" && !IsSpace(s[0]) && s[0] != '/' && s[0] != '"' && Plain(s).token.kind != ERROR
    ensures n <= |s| && Plain(s).token.kind != STRING && Plain(s) == Front(Plain(s).token.kind, s, n)
  {
    hide Keyword, WordSpan, DigitSpan;
    n := |Plain(s).token.str|;
  }

  // What the lexer reads past before a token is white space and whole comments.
  lemma {:induction false} Covered(s: string) returns (g: Gap)
    requires Lex(s).token.kind != ERROR
    ensures var x := Lex(s);
            if x.token.kind == EOF then GapOk(g, true) && s == GapText(g, "")
            else GapOk(g, false) && s == GapText(g, TokenText(x.token) + x.rest)
    decreases |s|
  {
    hide Plain, Slash;
    if s == "" {
      g := Nil;
    } else if IsSpace(s[0]) {
      var more := Covered(s[1..]);
      g := Cons(Space(s[0]), more);
      assert s == [s[0]] + s[1..];
    } else if s[0] == '/' {
      g := CoveredSlash(s);
    } else {
      PlainText(s);
      g := Nil;
    }
  }

  lemma {:induction false} CoveredSlash(s: string) returns (g: Gap)
    requires s != "" && s[0] == '/' && Slash(s).token.kind != ERROR
    ensures var x := Slash(s);
            if x.token.kind == EOF then GapOk(g, true) && s == GapText(g, "")
            else GapOk(g, false) && s == GapText(g, TokenText(x.token) + x.rest)
    decreases |s|, 0
  {
    hide Lex, BlockBody, LineSpan;
    if |s| > 1 && s[1] == '/' {
      var body := LineText(s);
      if |body| + 2 == |s| {
        g := Cons(OpenLine(body), Nil);
      } else {
        var more := Covered(s[|body| + 3..]);
        g := Cons(Line(body), more);
      }
    } else if |s| > 1 && s[1] == '*' {
      var body := BlockText(s);
      var more := Covered(s[|body| + 4..]);
      g := Cons(Block(body), more);
    } else {
      g := Nil;
      assert s == s[..1] + s[1..];
    }
  }

  lemma LineText(s: string) returns (body: string)
    requires |s| > 1 && s[0] == s[1] == '/'
    ensures |body| == LineSpan(s[2..]) && '\n' !in body
    ensures if |body| + 2 == |s| then s == PieceText(OpenLine(body)) + ""
            else s == PieceText(Line(body)) + s[|body| + 3..]
  {
    var n := LineSpan(s[2..]);
    LinePrefix(s[2..]);
    body := s[2..][..n];
    if n + 2 < |s| {
      assert s[n + 2] == '\n';
    }
  }

  lemma BlockText(s: string) returns (body: string)
    requires |s| > 1 && s[0] == '/' && s[1] == '*' && BlockBody(s[2..]).Closed?
    ensures |body| == BlockBody(s[2..]).length && PieceOk(Block(body))
    ensures s == PieceText(Block(body)) + s[|body| + 4..]
  {
    hide BlockBody;
    var n := BlockBody(s[2..]).length;
    BlockPrefix(s[2..]);
    body := s[2..][..n];
  }

  predicate ErrorFree(tokens: List<Token>) {
    match tokens
    case Nil => true
    case Cons(t, more) => t.kind != ERROR && ErrorFree(more)
  }

  predicate GapsOk(lead: Gap, items: List<Item>)
    decreases items
  {
    && GapOk(lead, items == Nil)
    && match items
       case Nil => true
       case Cons(it, more) => GapsOk(it.gap, more)
  }

  // Every text without a lexical error is its tokens laid out with such gaps.
  lemma {:induction false} Coverage(s: string) returns (lead: Gap, items: List<Item>)
    requires ErrorFree(LexAll(s))
    ensures s == GapText(lead, Text(items)) && TokensOf(items) == LexAll(s) && GapsOk(lead, items)
    decreases |s|
  {
    hide Lex;
    lead := Covered(s);
    var x := Lex(s);
    if x.token.kind == EOF {
      items := Nil;
    } else {
      var gap, more := Coverage(x.rest);
      items := Cons(Item(x.token, gap), more);
    }
  }

  // ---------------------------------------------------------------- both ways

  predicate AllWritable(tokens: List<Token>) {
    match tokens
    case Nil => true
    case Cons(t, more) => Writable(t) && AllWritable(more)
  }

  // `s` is these tokens with white space and comments around them, each in front of
  // something that ends it.
  ghost predicate IsLayout(s: string, tokens: List<Token>) {
    exists lead, items :: Laid(s, lead, items) && TokensOf(items) == tokens
  }

  predicate Laid(s: string, lead: Gap, items: List<Item>) {
    s == GapText(lead, Text(items)) && GapOk(lead, items == Nil) && Spaced(items)
  }

  // A text reads as a list of writable tokens exactly if it is such a layout of them.
  lemma LayoutExact(s: string, tokens: List<Token>)
    ensures IsLayout(s, tokens) <==> LexAll(s) == tokens && AllWritable(tokens)
  {
    hide Lex, LexAll, Spaced, Writable;
    if IsLayout(s, tokens) {
      var lead, items :| Laid(s, lead, items) && TokensOf(items) == tokens;
      LexLayout(lead, items);
      SpacedWritable(items);
    }
    if LexAll(s) == tokens && AllWritable(tokens) {
      var lead, items := LayoutOf(s);
      assert Laid(s, lead, items) && TokensOf(items) == tokens;
    }
  }

  lemma {:induction false} SpacedWritable(items: List<Item>)
    requires Spaced(items)
    ensures AllWritable(TokensOf(items))
  {
    hide Writable, Breaks;
    if items.Cons? { SpacedWritable(items.tail); }
  }

  // The layout of a text that reads as writable tokens: wherever one ends, what follows
  // breaks it.
  lemma {:induction false} LayoutOf(s: string) returns (lead: Gap, items: List<Item>)
    requires AllWritable(LexAll(s))
    ensures Laid(s, lead, items) && TokensOf(items) == LexAll(s)
    decreases |s|
  {
    hide Lex, Writable, Breaks, TokenText;
    var x := Lex(s);
    if x.token.kind == EOF {
      lead := Covered(s);
      items := Nil;
    } else {
      WritableKind(x.token);
      lead := Covered(s);
      var gap, more := LayoutOf(x.rest);
      items := Cons(Item(x.token, gap), more);
      TokenTextVisible(x.token);
      LexSkipsGap(lead, TokenText(x.token) + x.rest);
      LexTokenExact(x.token, x.rest);
    }
  }

  lemma WritableKind(t: Token)
    requires Writable(t)
    ensures t.kind != ERROR && t.kind != EOF
  {
  }

  // ----------------------------------------------------------------- spellings

  lemma OneToken(k: TokenKind, text: string)
    requires SEMICOLON <= k <= FALSE || BAR <= k <= PERCENT
    requires text == Spelling(k) && !Fragile(k)
    ensures LexAll(text) == Cons(Token(k, text), Nil)
  {
    hide Lex, LexAll, Spelling, Keyword, WordSpan, DigitSpan, StringBody;
    LexToken(Token(k, text), "");
    assert text + "" == text;
    LexOne(text, Token(k, text), "");
    LexNothing();
  }

  // Every keyword, letter by letter.
  lemma KeywordTokens()
    ensures LexAll("begin") == Cons(Token(BEGIN, "begin"), Nil) && LexAll("end") == Cons(Token(END, "end"), Nil)
    ensures LexAll("if") == Cons(Token(IF, "if"), Nil) && LexAll("then") == Cons(Token(THEN, "then"), Nil)
    ensures LexAll("else") == Cons(Token(ELSE, "else"), Nil) && LexAll("let") == Cons(Token(LET, "let"), Nil)
    ensures LexAll("null") == Cons(Token(NULL, "null"), Nil) && LexAll("print") == Cons(Token(PRINT, "print"), Nil)
    ensures LexAll("object") == Cons(Token(OBJECT, "object"), Nil)
    ensures LexAll("extends") == Cons(Token(EXTENDS, "extends"), Nil)
    ensures LexAll("while") == Cons(Token(WHILE, "while"), Nil) && LexAll("do") == Cons(Token(DO, "do"), Nil)
    ensures LexAll("function") == Cons(Token(FUNCTION, "function"), Nil)
    ensures LexAll("array") == Cons(Token(ARRAY, "array"), Nil)
    ensures LexAll("true") == Cons(Token(TRUE, "true"), Nil) && LexAll("false") == Cons(Token(FALSE, "false"), Nil)
  {
    hide LexAll, Keyword;
    OneToken(BEGIN, "begin");
    OneToken(END, "end");
    OneToken(IF, "if");
    OneToken(THEN, "then");
    OneToken(ELSE, "else");
    OneToken(LET, "let");
    OneToken(NULL, "null");
    OneToken(PRINT, "print");
    OneToken(OBJECT, "object");
    OneToken(EXTENDS, "extends");
    OneToken(WHILE, "while");
    OneToken(DO, "do");
    OneToken(FUNCTION, "function");
    OneToken(ARRAY, "array");
    OneToken(TRUE, "true");
    OneToken(FALSE, "false");
  }

  // A token in front of a space.
  lemma SpacedToken(k: TokenKind, text: string, s: string)
    requires SEMICOLON <= k <= RARROW || BAR <= k <= PERCENT
    requires text == Spelling(k) && |s| == |text| + 1 && s[..|text|] == text && s[|text|] == ' '
    ensures LexAll(s) == Cons(Token(k, text), Nil)
  {
    hide Lex, LexAll, Spelling, Keyword, WordSpan, DigitSpan, StringBody;
    assert s == text + " ";
    LexToken(Token(k, text), " ");
    LexOne(s, Token(k, text), " ");
    LexSpace();
  }

  lemma LexOne(s: string, t: Token, rest: string)
    requires Lex(s) == Lexeme(t, rest) && t.kind != EOF
    ensures LexAll(s) == Cons(t, LexAll(rest))
  {
    hide Lex;
  }

  lemma LexNothing()
    ensures LexAll("") == Nil
  {
  }

  lemma LexSpace()
    ensures LexAll(" ") == Nil
  {
    assert " "[1..] == "";
  }

  // Every operator, and the arrows.
  lemma OperatorTokens()
    ensures LexAll("| ") == Cons(Token(BAR, "|"), Nil) && LexAll("& ") == Cons(Token(AMPERSANT, "&"), Nil)
    ensures LexAll("== ") == Cons(Token(EQUAL_EQUAL, "=="), Nil) && LexAll("!= ") == Cons(Token(BANG_EQUAL, "!="), Nil)
  {
    hide LexAll, Keyword;
    SpacedToken(BAR, "|", "| ");
    SpacedToken(AMPERSANT, "&", "& ");
    SpacedToken(EQUAL_EQUAL, "==", "== ");
    SpacedToken(BANG_EQUAL, "!=", "!= ");
  }

  lemma ComparisonTokens()
    ensures LexAll("> ") == Cons(Token(GREATER, ">"), Nil) && LexAll("< ") == Cons(Token(LESS, "<"), Nil)
    ensures LexAll(">= ") == Cons(Token(GREATER_EQUAL, ">="), Nil)
    ensures LexAll("<= ") == Cons(Token(LESS_EQUAL, "<="), Nil)
  {
    hide LexAll, Keyword;
    SpacedToken(GREATER, ">", "> ");
    SpacedToken(LESS, "<", "< ");
    SpacedToken(GREATER_EQUAL, ">=", ">= ");
    SpacedToken(LESS_EQUAL, "<=", "<= ");
  }

  lemma ArithmeticTokens()
    ensures LexAll("+ ") == Cons(Token(PLUS, "+"), Nil) && LexAll("- ") == Cons(Token(MINUS, "-"), Nil)
    ensures LexAll("* ") == Cons(Token(ASTERISK, "*"), Nil) && LexAll("/ ") == Cons(Token(SLASH, "/"), Nil)
  {
    hide LexAll, Keyword;
    SpacedToken(PLUS, "+", "+ ");
    SpacedToken(MINUS, "-", "- ");
    SpacedToken(ASTERISK, "*", "* ");
    SpacedToken(SLASH, "/", "/ ");
  }

  lemma ArrowTokens()
    ensures LexAll("% ") == Cons(Token(PERCENT, "%"), Nil) && LexAll("= ") == Cons(Token(EQUAL, "="), Nil)
    ensures LexAll("<- ") == Cons(Token(LARROW, "<-"), Nil) && LexAll("-> ") == Cons(Token(RARROW, "->"), Nil)
  {
    hide LexAll, Keyword;
    SpacedToken(PERCENT, "%", "% ");
    SpacedToken(EQUAL, "=", "= ");
    SpacedToken(LARROW, "<-", "<- ");
    SpacedToken(RARROW, "->", "-> ");
  }

  // All other punctuation.
  lemma MarkTokens()
    ensures LexAll(";") == Cons(Token(SEMICOLON, ";"), Nil) && LexAll(",") == Cons(Token(COMMA, ","), Nil)
    ensures LexAll("(") == Cons(Token(LPAREN, "("), Nil) && LexAll(")") == Cons(Token(RPAREN, ")"), Nil)
    ensures LexAll("[") == Cons(Token(LBRACKET, "["), Nil) && LexAll("]") == Cons(Token(RBRACKET, "]"), Nil)
    ensures LexAll(".") == Cons(Token(DOT, "."), Nil)
  {
    hide LexAll, Keyword;
    OneToken(SEMICOLON, ";");
    OneToken(COMMA, ",");
    OneToken(LPAREN, "(");
    OneToken(RPAREN, ")");
    OneToken(LBRACKET, "[");
    OneToken(RBRACKET, "]");
    OneToken(DOT, ".");
  }

  const SMALL := "abcdefghijklmnopqrstuvwxyz"
  const CAPITAL := "ABCDEFGHIJKLMNOPQRSTUVWXYZ"
  const DIGITS := "0123456789"

  // What words, numbers and white space are made of.
  lemma Alphabet(c: char)
    ensures IsAlpha(c) <==> c in SMALL || c in CAPITAL || c == '_'
    ensures IsDigit(c) <==> c in DIGITS
    ensures LexAll([c]) == Nil <==> c == ' ' || c == '\t' || c == '\n'
  {
    AlphaIndex(c);
    DigitIndex(c);
    assert [c][1..] == "";
    if IsSpace(c) {
      LexEmpty();
    } else if c != '/' {
      LexPlain([c]);
    }
  }

  // The bytes a backslash may stand in front of in a string.
  lemma Escapes(c: char)
    ensures Lex(['"', '\\', c, '"']) == Lexeme(Token(STRING, ['\\', c]), "")
       <==> c == 'n' || c == 't' || c == 'r' || c == '~' || c == '"' || c == '\\'
  {
    hide Lex;
    var s := ['"', '\\', c, '"'];
    LexPlain(s);
    assert s[1..][2..] == ['"'] && s[1..3] == ['\\', c] && s[4..] == "";
    assert StringBody(['"']) == Closed(0);
  }

  lemma AlphaIndex(c: char)
    ensures IsAlpha(c) <==> c in SMALL || c in CAPITAL || c == '_'
  {
    assert forall i :: 0 <= i < 26 ==> SMALL[i] == ('a' as int + i) as char;
    assert forall i :: 0 <= i < 26 ==> CAPITAL[i] == ('A' as int + i) as char;
    if 'a' <= c <= 'z' { assert SMALL[c as int - 'a' as int] == c; }
    if 'A' <= c <= 'Z' { assert CAPITAL[c as int - 'A' as int] == c; }
  }

  lemma DigitIndex(c: char)
    ensures IsDigit(c) <==> c in DIGITS
  {
    assert forall i :: 0 <= i < 10 ==> DIGITS[i] == ('0' as int + i) as char;
    if '0' <= c <= '9' { assert DIGITS[c as int - '0' as int] == c; }
  }
}
