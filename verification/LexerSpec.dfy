/** What one call of the lexer delivers, by the shape of the text ahead. */
module LexerSpec {
  import opened Tokens
  import opened Lists

  predicate IsSpace(c: char) { c == ' ' || c == '\t' || c == '\n' }
  predicate IsAlpha(c: char) { c == '_' || 'a' <= c <= 'z' || 'A' <= c <= 'Z' }
  predicate IsDigit(c: char) { '0' <= c <= '9' }
  predicate IsWordChar(c: char) { IsAlpha(c) || IsDigit(c) }
  predicate IsEscape(c: char) { c == 'n' || c == 't' || c == 'r' || c == '~' || c == '"' || c == '\\' }

  // ----------------------------------------------------------- leading spans

  function WordSpan(s: string): (n: nat)
    ensures n <= |s|
  {
    if s != "" && IsWordChar(s[0]) then 1 + WordSpan(s[1..]) else 0
  }

  function DigitSpan(s: string): (n: nat)
    ensures n <= |s|
  {
    if s != "" && IsDigit(s[0]) then 1 + DigitSpan(s[1..]) else 0
  }

  // Up to a newline or the end of input.
  function LineSpan(s: string): (n: nat)
    ensures n <= |s|
  {
    if s != "" && s[0] != '\n' then 1 + LineSpan(s[1..]) else 0
  }

  // A delimited body of `length` bytes, or none: the scan gives up after `length` bytes.
  datatype Body = Closed(length: nat) | Broken(length: nat)

  function Longer(k: nat, b: Body): Body {
    if b.Closed? then Closed(k + b.length) else Broken(k + b.length)
  }

  // From after the opening quote to the closing quote.
  function StringBody(s: string): (b: Body)
    ensures if b.Closed? then b.length < |s| && s[b.length] == '"' else b.length <= |s|
  {
    if s == "" then Broken(0)
    else if s[0] == '"' then Closed(0)
    else if s[0] != '\\' then Longer(1, StringBody(s[1..]))
    else if |s| > 1 && IsEscape(s[1]) then Longer(2, StringBody(s[2..]))
    else Broken(1)
  }

  // From after `/*` to the first `*/`.
  function BlockBody(s: string): (b: Body)
    ensures if b.Closed? then b.length + 2 <= |s| && s[b.length] == '*' && s[b.length + 1] == '/'
            else b.length == |s|
  {
    if s == "" then Broken(0)
    else if |s| > 1 && s[0] == '*' && s[1] == '/' then Closed(0)
    else Longer(1, BlockBody(s[1..]))
  }

  // ------------------------------------------------------------------ tokens

  function Keyword(text: string): (k: TokenKind)
    ensures k == IDENTIFIER || (BEGIN <= k <= FALSE && Spelling(k) == text)
    ensures k == IDENTIFIER ==> forall o :: BEGIN <= o <= FALSE ==> Spelling(o) != text
  {
    KeywordFrom(text, BEGIN)
  }

  function KeywordFrom(text: string, from: TokenKind): (k: TokenKind)
    requires BEGIN <= from <= FALSE
    ensures k == IDENTIFIER || (from <= k <= FALSE && Spelling(k) == text)
    ensures k == IDENTIFIER ==> forall o :: from <= o <= FALSE ==> Spelling(o) != text
    decreases FALSE - from
  {
    if Spelling(from) == text then from
    else if from == FALSE then IDENTIFIER
    else KeywordFrom(text, from + 1)
  }

  // Punctuation that no second byte extends.
  function Punctuation(c: char): (k: TokenKind)
    ensures k != ERROR ==> Spelling(k) == [c] && BAR <= k <= COMMA
  {
    if c == ';' then SEMICOLON
    else if c == '|' then BAR
    else if c == '&' then AMPERSANT
    else if c == '+' then PLUS
    else if c == '*' then ASTERISK
    else if c == '%' then PERCENT
    else if c == '(' then LPAREN
    else if c == ')' then RPAREN
    else if c == '.' then DOT
    else if c == '[' then LBRACKET
    else if c == ']' then RBRACKET
    else if c == ',' then COMMA
    else ERROR
  }

  // The token at the front of a text, and the text after it. The text of EOF and ERROR
  // tokens only places an error message and is left empty.
  datatype Lexeme = Lexeme(token: Token, rest: string)

  function Front(k: TokenKind, s: string, n: nat): Lexeme
    requires n <= |s|
  {
    Lexeme(Token(k, s[..n]), s[n..])
  }

  function Error(s: string, n: nat): Lexeme
    requires n <= |s|
  {
    Lexeme(Token(ERROR, ""), s[n..])
  }

  // One of two tokens by the second byte; alone at the end of input, the byte is
  // delivered as a SLASH token whatever it is.
  function Pair(s: string, second: char, two: TokenKind, one: TokenKind): Lexeme
    requires s != ""
  {
    if |s| == 1 then Front(SLASH, s, 1)
    else if s[1] == second then Front(two, s, 2)
    else Front(one, s, 1)
  }

  // Tokens other than the division sign.
  function Plain(s: string): (x: Lexeme)
    requires s != "" && !IsSpace(s[0]) && s[0] != '/'
    ensures |x.rest| < |s|
    ensures x.token.kind != EOF
  {
    if IsAlpha(s[0]) then
      var n := 1 + WordSpan(s[1..]);
      Front(Keyword(s[..n]), s, n)
    else if IsDigit(s[0]) then Front(NUMBER, s, 1 + DigitSpan(s[1..]))
    else if s[0] == '"' then
      match StringBody(s[1..])
      case Closed(n) => Lexeme(Token(STRING, s[1..n + 1]), s[n + 2..])
      case Broken(n) => Error(s, n + 1)
    else if s[0] == '-' then
      if |s| > 1 && IsDigit(s[1]) then Front(NUMBER, s, 1 + DigitSpan(s[1..]))
      else Pair(s, '>', RARROW, MINUS)
    else if s[0] == '=' then Pair(s, '=', EQUAL_EQUAL, EQUAL)
    else if s[0] == '>' then Pair(s, '=', GREATER_EQUAL, GREATER)
    else if s[0] == '<' then
      if |s| > 1 && s[1] == '-' then Front(LARROW, s, 2) else Pair(s, '=', LESS_EQUAL, LESS)
    else if s[0] == '!' then
      if |s| > 1 && s[1] == '=' then Front(BANG_EQUAL, s, 2) else Error(s, 1)
    else if Punctuation(s[0]) == ERROR then Error(s, 1)
    else Front(Punctuation(s[0]), s, 1)
  }

  function Lex(s: string): (x: Lexeme)
    ensures |x.rest| <= |s|
    ensures x.token.kind == EOF ==> x.rest == "" && x.token == EOF_TOKEN
    ensures x.token.kind != EOF ==> |x.rest| < |s|
    decreases |s|, 1
  {
    if s == "" then Lexeme(EOF_TOKEN, "")
    else if IsSpace(s[0]) then Lex(s[1..])
    else if s[0] == '/' then Slash(s)
    else Plain(s)
  }

  lemma LexPlain(s: string)
    requires s != "" && !IsSpace(s[0]) && s[0] != '/'
    ensures Lex(s) == Plain(s)
  {
    hide Plain;
  }

  // A comment and what follows it, or a division sign.
  function Slash(s: string): (x: Lexeme)
    requires s != "" && s[0] == '/'
    ensures |x.rest| <= |s|
    ensures x.token.kind == EOF ==> x.rest == "" && x.token == EOF_TOKEN
    ensures x.token.kind != EOF ==> |x.rest| < |s|
    decreases |s|, 0
  {
    if |s| > 1 && s[1] == '/' then
      var n := 2 + LineSpan(s[2..]);
      if n == |s| then Lexeme(EOF_TOKEN, "") else Lex(s[n + 1..])
    else if |s| > 1 && s[1] == '*' then
      match BlockBody(s[2..])
      case Closed(n) => Lex(s[n + 4..])
      case Broken(n) => Error(s, n + 2)
    else Front(SLASH, s, 1)
  }

  // Every token of a text but the end of input.
  function LexAll(s: string): List<Token>
    decreases |s|
  {
    var x := Lex(s);
    if x.token.kind == EOF then Nil else Cons(x.token, LexAll(x.rest))
  }
}
