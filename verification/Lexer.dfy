/** The byte automaton of the lexer, proved to deliver what `LexerSpec.Lex` says. */
module Lexer {
  import opened Tokens
  import opened LexerSpec

  datatype LexState =
    | START | IN_WORD | IN_NUMBER | IN_STRING | STRING_ESC | ON_SLASH | LINE_COMMENT
    | BLOCK_COMMENT | BLOCK_COMMENT_STAR | ON_MINUS | ON_EQUAL | ON_GREATER | ON_LESS | ON_EXCLAM

  // Where the token starts once a byte has been read.
  datatype Mark = Keep | AfterHere

  // One byte of the automaton: go on, or finish with a token that does or does not
  // include the byte. `CloseQuote` consumes the byte but keeps it out of the text.
  datatype Move =
    | Shift(next: LexState, mark: Mark)
    | Done(kind: TokenKind)
    | PrevDone(kind: TokenKind)
    | CloseQuote

  function Step(state: LexState, c: char): Move {
    match state
    case START =>
      if IsSpace(c) then Shift(START, AfterHere)
      else if IsAlpha(c) then Shift(IN_WORD, Keep)
      else if IsDigit(c) then Shift(IN_NUMBER, Keep)
      else if c == '"' then Shift(IN_STRING, AfterHere)
      else if c == '/' then Shift(ON_SLASH, Keep)
      else if c == '-' then Shift(ON_MINUS, Keep)
      else if c == '=' then Shift(ON_EQUAL, Keep)
      else if c == '>' then Shift(ON_GREATER, Keep)
      else if c == '<' then Shift(ON_LESS, Keep)
      else if c == '!' then Shift(ON_EXCLAM, Keep)
      else Done(Punctuation(c))
    case IN_WORD => if IsWordChar(c) then Shift(IN_WORD, Keep) else PrevDone(IDENTIFIER)
    case IN_NUMBER => if IsDigit(c) then Shift(IN_NUMBER, Keep) else PrevDone(NUMBER)
    case IN_STRING =>
      if c == '"' then CloseQuote
      else if c == '\\' then Shift(STRING_ESC, Keep)
      else Shift(IN_STRING, Keep)
    case STRING_ESC => if IsEscape(c) then Shift(IN_STRING, Keep) else PrevDone(ERROR)
    case ON_SLASH =>
      if c == '/' then Shift(LINE_COMMENT, AfterHere)
      else if c == '*' then Shift(BLOCK_COMMENT, AfterHere)
      else PrevDone(SLASH)
    case LINE_COMMENT => if c == '\n' then Shift(START, AfterHere) else Shift(LINE_COMMENT, Keep)
    case BLOCK_COMMENT => if c == '*' then Shift(BLOCK_COMMENT_STAR, Keep) else Shift(BLOCK_COMMENT, Keep)
    case BLOCK_COMMENT_STAR =>
      if c == '*' then Shift(BLOCK_COMMENT_STAR, Keep)
      else if c == '/' then Shift(START, AfterHere)
      else Shift(BLOCK_COMMENT, Keep)
    case ON_MINUS =>
      if c == '>' then Done(RARROW) else if IsDigit(c) then Shift(IN_NUMBER, Keep) else PrevDone(MINUS)
    case ON_EQUAL => if c == '=' then Done(EQUAL_EQUAL) else PrevDone(EQUAL)
    case ON_GREATER => if c == '=' then Done(GREATER_EQUAL) else PrevDone(GREATER)
    case ON_LESS =>
      if c == '=' then Done(LESS_EQUAL) else if c == '-' then Done(LARROW) else PrevDone(LESS)
    case ON_EXCLAM => if c == '=' then Done(BANG_EQUAL) else PrevDone(ERROR)
  }

  // The token when the input ends in a state.
  function AtEnd(state: LexState): TokenKind {
    match state
    case START => EOF
    case LINE_COMMENT => EOF
    case IN_WORD => IDENTIFIER
    case IN_NUMBER => NUMBER
    case ON_SLASH => SLASH
    case ON_MINUS => SLASH
    case ON_EQUAL => SLASH
    case ON_GREATER => SLASH
    case ON_LESS => SLASH
    case _ => ERROR
  }

  // ------------------------------------------------- what a state still owes

  // The lexeme due when the automaton is in `state` at `pos` with a token begun at
  // `start`.
  ghost function Owed(state: LexState, src: string, start: nat, pos: nat): Lexeme
    requires Reached(state, src, start, pos)
  {
    match state
    case START => Lex(src[pos..])
    case IN_WORD =>
      var end := pos + WordSpan(src[pos..]);
      Lexeme(Token(Keyword(src[start..end]), src[start..end]), src[end..])
    case IN_NUMBER =>
      var end := pos + DigitSpan(src[pos..]);
      Lexeme(Token(NUMBER, src[start..end]), src[end..])
    case IN_STRING => InString(src, start, pos)
    case STRING_ESC =>
      if pos < |src| && IsEscape(src[pos]) then InString(src, start, pos + 1)
      else Lexeme(Token(ERROR, ""), src[pos..])
    case LINE_COMMENT =>
      var end := pos + LineSpan(src[pos..]);
      if end == |src| then Lexeme(EOF_TOKEN, "") else Lex(src[end + 1..])
    case BLOCK_COMMENT => AfterBlock(src, pos)
    case BLOCK_COMMENT_STAR => AfterBlock(src, pos - 1)
    case _ => Lex(src[start..])
  }

  ghost function InString(src: string, start: nat, pos: nat): Lexeme
    requires start <= pos <= |src|
  {
    match StringBody(src[pos..])
    case Closed(n) => Lexeme(Token(STRING, src[start..pos + n]), src[pos + n + 1..])
    case Broken(n) => Lexeme(Token(ERROR, ""), src[pos + n..])
  }

  ghost function AfterBlock(src: string, pos: nat): Lexeme
    requires pos <= |src|
  {
    match BlockBody(src[pos..])
    case Closed(n) => Lex(src[pos + n + 2..])
    case Broken(n) => Lexeme(Token(ERROR, ""), "")
  }

  // How a state relates to the bytes read so far.
  ghost predicate Reached(state: LexState, src: string, start: nat, pos: nat) {
    && pos <= |src| && start <= pos
    && match state
       case START => start == pos
       case IN_WORD => start < pos
       case IN_NUMBER => start < pos
       case BLOCK_COMMENT_STAR => start < pos && src[pos - 1] == '*'
       case ON_SLASH => start + 1 == pos && src[start] == '/'
       case ON_MINUS => start + 1 == pos && src[start] == '-'
       case ON_EQUAL => start + 1 == pos && src[start] == '='
       case ON_GREATER => start + 1 == pos && src[start] == '>'
       case ON_LESS => start + 1 == pos && src[start] == '<'
       case ON_EXCLAM => start + 1 == pos && src[start] == '!'
       case _ => true
  }

  function Marked(mark: Mark, start: nat, pos: nat): nat {
    match mark
    case Keep => start
    case AfterHere => pos + 1
  }

  // The text of a finished token; keywords are told from identifiers at the end.
  function Finish(kind: TokenKind, text: string): Token {
    if kind == IDENTIFIER then Token(Keyword(text), text)
    else if kind == EOF || kind == ERROR then Token(kind, "")
    else Token(kind, text)
  }

  lemma StartOwes(src: string, pos: nat)
    requires pos <= |src|
    ensures Reached(START, src, pos, pos) && Owed(START, src, pos, pos) == Lex(src[pos..])
  {
  }

  // A byte read in `state` leaves the debt unchanged or pays it.
  ghost predicate Pays(state: LexState, src: string, start: nat, pos: nat)
    requires Reached(state, src, start, pos) && pos < |src|
  {
    var owed := Owed(state, src, start, pos);
    match Step(state, src[pos])
    case Shift(next, mark) =>
      && Reached(next, src, Marked(mark, start, pos), pos + 1)
      && owed == Owed(next, src, Marked(mark, start, pos), pos + 1)
    case Done(kind) => owed == Lexeme(Finish(kind, src[start..pos + 1]), src[pos + 1..])
    case PrevDone(kind) => owed == Lexeme(Finish(kind, src[start..pos]), src[pos..])
    case CloseQuote => owed == Lexeme(Token(STRING, src[start..pos]), src[pos + 1..])
  }

  lemma Ahead(src: string, pos: nat, n: nat)
    requires pos + n < |src|
    ensures src[pos..][n] == src[pos + n] && src[pos..][n..] == src[pos + n..]
    ensures src[pos..][n + 1..] == src[pos + n + 1..]
  {
  }

  lemma FrontAt(k: TokenKind, src: string, start: nat, end: nat)
    requires start <= end <= |src|
    ensures Front(k, src[start..], end - start) == Lexeme(Token(k, src[start..end]), src[end..])
    ensures src[start..][..end - start] == src[start..end]
  {
  }

  lemma LexString(src: string, pos: nat)
    requires pos < |src| && src[pos] == '"'
    ensures Lex(src[pos..]) == InString(src, pos + 1, pos + 1)
  {
    hide StringBody, Lex;
    LexPlain(src[pos..]);
    var s := src[pos..];
    Ahead(src, pos, 0);
    match StringBody(s[1..]) {
      case Closed(n) =>
        assert s[1..n + 1] == src[pos + 1..pos + 1 + n];
        assert s[n + 2..] == src[pos + 1 + n + 1..];
      case Broken(n) => assert s[n + 1..] == src[pos + 1 + n..];
    }
  }

  lemma LexWord(src: string, p: nat)
    requires p < |src| && IsAlpha(src[p])
    ensures Lex(src[p..]) == Owed(IN_WORD, src, p, p + 1)
  {
    hide Keyword, WordSpan, Lex;
    LexPlain(src[p..]);
    Ahead(src, p, 0);
    var end := p + 1 + WordSpan(src[p + 1..]);
    FrontAt(Keyword(src[p..end]), src, p, end);
  }

  lemma LexNumber(src: string, p: nat)
    requires p < |src| && IsDigit(src[p])
    ensures Lex(src[p..]) == Owed(IN_NUMBER, src, p, p + 1)
  {
    hide DigitSpan, Lex;
    LexPlain(src[p..]);
    Ahead(src, p, 0);
    FrontAt(NUMBER, src, p, p + 1 + DigitSpan(src[p + 1..]));
  }

  // Spaces, single punctuation and bytes no token starts with.
  lemma LexOther(src: string, p: nat)
    requires p < |src| && !IsAlpha(src[p]) && !IsDigit(src[p]) && src[p] != '"' && src[p] != '/'
    requires src[p] != '-' && src[p] != '=' && src[p] != '>' && src[p] != '<' && src[p] != '!'
    ensures Lex(src[p..]) ==
            if IsSpace(src[p]) then Lex(src[p + 1..])
            else Lexeme(Finish(Punctuation(src[p]), src[p..p + 1]), src[p + 1..])
    ensures IsSpace(src[p]) ==> Punctuation(src[p]) == ERROR
  {
    Ahead(src, p, 0);
    FrontAt(Punctuation(src[p]), src, p, p + 1);
  }

  lemma StartPays(state: LexState, src: string, start: nat, pos: nat)
    requires state.START?
    requires Reached(state, src, start, pos) && pos < |src|
    ensures Pays(state, src, start, pos)
  {
    hide Keyword, Lex, Punctuation, InString, AfterBlock, WordSpan, DigitSpan;
    var c := src[pos];
    Ahead(src, pos, 0);
    if IsAlpha(c) {
      LexWord(src, pos);
    } else if IsDigit(c) {
      LexNumber(src, pos);
    } else if c == '"' {
      LexString(src, pos);
    } else if c != '/' && c != '-' && c != '=' && c != '>' && c != '<' && c != '!' {
      LexOther(src, pos);
    }
  }

  lemma WordPays(state: LexState, src: string, start: nat, pos: nat)
    requires state.IN_WORD?
    requires Reached(state, src, start, pos) && pos < |src|
    ensures Pays(state, src, start, pos)
  {
    hide Keyword, Lex, WordSpan;
    Ahead(src, pos, 0);
    WordStep(src, pos);
  }

  lemma WordStep(src: string, pos: nat)
    requires pos < |src|
    ensures WordSpan(src[pos..]) == if IsWordChar(src[pos]) then 1 + WordSpan(src[pos + 1..]) else 0
  {
    assert src[pos..][1..] == src[pos + 1..];
  }

  lemma NumberPays(state: LexState, src: string, start: nat, pos: nat)
    requires state.IN_NUMBER?
    requires Reached(state, src, start, pos) && pos < |src|
    ensures Pays(state, src, start, pos)
  {
    hide Keyword, Lex;
    Ahead(src, pos, 0);
  }

  lemma BodyStep(src: string, pos: nat)
    requires pos < |src|
    ensures StringBody(src[pos..]) ==
            if src[pos] == '"' then Closed(0)
            else if src[pos] != '\\' then Longer(1, StringBody(src[pos + 1..]))
            else if pos + 1 < |src| && IsEscape(src[pos + 1]) then Longer(2, StringBody(src[pos + 2..]))
            else Broken(1)
  {
    Ahead(src, pos, 0);
    if pos + 1 < |src| { Ahead(src, pos, 1); }
  }

  lemma StringPays(state: LexState, src: string, start: nat, pos: nat)
    requires state.IN_STRING?
    requires Reached(state, src, start, pos) && pos < |src|
    ensures Pays(state, src, start, pos)
  {
    hide Keyword, Lex, StringBody;
    BodyStep(src, pos);
  }

  lemma EscapePays(state: LexState, src: string, start: nat, pos: nat)
    requires state.STRING_ESC?
    requires Reached(state, src, start, pos) && pos < |src|
    ensures Pays(state, src, start, pos)
  {
    hide Keyword, Lex, StringBody;
  }

  lemma LinePays(state: LexState, src: string, start: nat, pos: nat)
    requires state.LINE_COMMENT?
    requires Reached(state, src, start, pos) && pos < |src|
    ensures Pays(state, src, start, pos)
  {
    hide Keyword, Lex;
    Ahead(src, pos, 0);
  }

  lemma BlockStep(s: string)
    requires s != "" && !(|s| > 1 && s[0] == '*' && s[1] == '/')
    ensures BlockBody(s) == Longer(1, BlockBody(s[1..]))
  {
  }

  lemma BlockSkip(src: string, p: nat)
    requires p < |src| && !(p + 1 < |src| && src[p] == '*' && src[p + 1] == '/')
    ensures AfterBlock(src, p) == AfterBlock(src, p + 1)
  {
    hide Lex, BlockBody;
    Ahead(src, p, 0);
    if p + 1 < |src| { Ahead(src, p, 1); }
    BlockStep(src[p..]);
  }

  lemma BlockEnd(src: string, p: nat)
    requires p + 1 < |src| && src[p] == '*' && src[p + 1] == '/'
    ensures AfterBlock(src, p) == Lex(src[p + 2..])
  {
    hide Lex;
    Ahead(src, p, 0);
    Ahead(src, p, 1);
  }

  lemma BlockPays(state: LexState, src: string, start: nat, pos: nat)
    requires state.BLOCK_COMMENT?
    requires Reached(state, src, start, pos) && pos < |src|
    ensures Pays(state, src, start, pos)
  {
    hide Keyword, Lex, AfterBlock;
    if src[pos] != '*' { BlockSkip(src, pos); }
  }

  lemma StarPays(state: LexState, src: string, start: nat, pos: nat)
    requires state.BLOCK_COMMENT_STAR?
    requires Reached(state, src, start, pos) && pos < |src|
    ensures Pays(state, src, start, pos)
  {
    hide Keyword, Lex, AfterBlock;
    if src[pos] == '/' {
      BlockEnd(src, pos - 1);
    } else {
      BlockSkip(src, pos - 1);
      if src[pos] != '*' { BlockSkip(src, pos); }
    }
  }

  lemma LexIsSlash(src: string, p: nat)
    requires p < |src| && src[p] == '/'
    ensures Lex(src[p..]) == Slash(src[p..])
  {
    hide Slash, Keyword, Punctuation;
  }

  lemma LexLineComment(src: string, p: nat)
    requires p + 1 < |src| && src[p] == src[p + 1] == '/'
    ensures Slash(src[p..]) == Owed(LINE_COMMENT, src, p, p + 2)
  {
    hide LineSpan, Lex;
    var s := src[p..];
    var n := 2 + LineSpan(s[2..]);
    assert s[2..] == src[p + 2..];
    assert n < |s| ==> s[n + 1..] == src[p + n + 1..];
  }

  lemma LexBlockComment(src: string, p: nat)
    requires p + 1 < |src| && src[p] == '/' && src[p + 1] == '*'
    ensures Slash(src[p..]) == AfterBlock(src, p + 2)
  {
    hide BlockBody, Lex;
    var s := src[p..];
    assert s[2..] == src[p + 2..];
    match BlockBody(s[2..]) {
      case Closed(n) => assert s[n + 4..] == src[p + n + 4..];
      case Broken(n) => assert s[n + 2..] == "";
    }
  }

  lemma LexSlash(src: string, p: nat)
    requires p + 1 < |src| && src[p] == '/' && src[p + 1] != '/' && src[p + 1] != '*'
    ensures Slash(src[p..]) == Lexeme(Token(SLASH, src[p..p + 1]), src[p + 1..])
  {
    hide BlockBody, LineSpan, Lex;
    FrontAt(SLASH, src, p, p + 1);
  }

  lemma SlashPays(state: LexState, src: string, start: nat, pos: nat)
    requires state.ON_SLASH?
    requires Reached(state, src, start, pos) && pos < |src|
    ensures Pays(state, src, start, pos)
  {
    hide Keyword, BlockBody, LineSpan, Lex, Slash, AfterBlock;
    LexIsSlash(src, start);
    if src[pos] == '/' {
      LexLineComment(src, start);
    } else if src[pos] == '*' {
      LexBlockComment(src, start);
    } else {
      LexSlash(src, start);
    }
  }

  lemma LexNegative(src: string, p: nat)
    requires p + 1 < |src| && src[p] == '-' && IsDigit(src[p + 1])
    ensures DigitSpan(src[p + 1..]) == 1 + DigitSpan(src[p + 2..])
    ensures Lex(src[p..]) == Owed(IN_NUMBER, src, p, p + 2)
  {
    hide Keyword, Punctuation, Lex;
    LexPlain(src[p..]);
    Ahead(src, p, 0);
    Ahead(src, p + 1, 0);
    FrontAt(NUMBER, src, p, p + 2 + DigitSpan(src[p + 2..]));
  }

  lemma LexMinus(src: string, p: nat)
    requires p + 1 < |src| && src[p] == '-' && !IsDigit(src[p + 1])
    ensures Lex(src[p..]) == if src[p + 1] == '>' then Lexeme(Token(RARROW, src[p..p + 2]), src[p + 2..])
                             else Lexeme(Token(MINUS, src[p..p + 1]), src[p + 1..])
  {
    hide DigitSpan, Keyword, Punctuation, Lex;
    LexPlain(src[p..]);
    FrontAt(RARROW, src, p, p + 2);
    FrontAt(MINUS, src, p, p + 1);
  }

  lemma MinusPays(state: LexState, src: string, start: nat, pos: nat)
    requires state.ON_MINUS?
    requires Reached(state, src, start, pos) && pos < |src|
    ensures Pays(state, src, start, pos)
  {
    hide Keyword, Lex, DigitSpan;
    if IsDigit(src[pos]) {
      LexNegative(src, start);
    } else {
      LexMinus(src, start);
    }
  }

  lemma LexExclam(src: string, p: nat)
    requires p + 1 < |src| && src[p] == '!'
    ensures Lex(src[p..]) == if src[p + 1] == '=' then Lexeme(Token(BANG_EQUAL, src[p..p + 2]), src[p + 2..])
                             else Lexeme(Token(ERROR, ""), src[p + 1..])
  {
    hide Keyword, Punctuation, Lex;
    LexPlain(src[p..]);
    FrontAt(BANG_EQUAL, src, p, p + 2);
  }

  // `=`, `>` and `<` with the byte after them.
  lemma LexPair(src: string, p: nat)
    requires p + 1 < |src| && (src[p] == '=' || src[p] == '>' || src[p] == '<')
    ensures var one := if src[p] == '=' then EQUAL else if src[p] == '>' then GREATER else LESS;
            var two := if src[p] == '=' then EQUAL_EQUAL else if src[p] == '>' then GREATER_EQUAL else LESS_EQUAL;
            Lex(src[p..]) ==
            if src[p + 1] == '=' then Lexeme(Token(two, src[p..p + 2]), src[p + 2..])
            else if src[p] == '<' && src[p + 1] == '-' then Lexeme(Token(LARROW, src[p..p + 2]), src[p + 2..])
            else Lexeme(Token(one, src[p..p + 1]), src[p + 1..])
  {
    hide Keyword, Punctuation, Lex;
    LexPlain(src[p..]);
    FrontAt(EQUAL, src, p, p + 1);
    FrontAt(EQUAL, src, p, p + 2);
  }

  lemma PairPays(state: LexState, src: string, start: nat, pos: nat)
    requires state.ON_EQUAL? || state.ON_GREATER? || state.ON_LESS? || state.ON_EXCLAM?
    requires Reached(state, src, start, pos) && pos < |src|
    ensures Pays(state, src, start, pos)
  {
    hide Keyword, Lex;
    var c := src[start];
    if c == '!' {
      LexExclam(src, start);
    } else {
      LexPair(src, start);
    }
  }

  lemma StepPays(state: LexState, src: string, start: nat, pos: nat)
    requires Reached(state, src, start, pos) && pos < |src|
    ensures Pays(state, src, start, pos)
  {
    hide Pays;
    match state
    case START => StartPays(state, src, start, pos);
    case IN_WORD => WordPays(state, src, start, pos);
    case IN_NUMBER => NumberPays(state, src, start, pos);
    case IN_STRING => StringPays(state, src, start, pos);
    case STRING_ESC => EscapePays(state, src, start, pos);
    case LINE_COMMENT => LinePays(state, src, start, pos);
    case BLOCK_COMMENT => BlockPays(state, src, start, pos);
    case BLOCK_COMMENT_STAR => StarPays(state, src, start, pos);
    case ON_SLASH => SlashPays(state, src, start, pos);
    case ON_MINUS => MinusPays(state, src, start, pos);
    case ON_EQUAL => PairPays(state, src, start, pos);
    case ON_GREATER => PairPays(state, src, start, pos);
    case ON_LESS => PairPays(state, src, start, pos);
    case ON_EXCLAM => PairPays(state, src, start, pos);
  }

  // A started operator is cut off by the end of input.
  lemma EndOperator(state: LexState, src: string, start: nat)
    requires Reached(state, src, start, |src|)
    requires state.ON_MINUS? || state.ON_EQUAL? || state.ON_GREATER? || state.ON_LESS? || state.ON_EXCLAM?
    ensures Owed(state, src, start, |src|) == Lexeme(Finish(AtEnd(state), src[start..]), "")
  {
    hide Lex, Keyword, Punctuation;
    var s := src[start..];
    assert s[0] == src[start] && s[..1] == s && s[1..] == "";
    LexPlain(s);
  }

  lemma EndSlash(src: string, start: nat)
    requires start + 1 == |src| && src[start] == '/'
    ensures Lex(src[start..]) == Lexeme(Token(SLASH, "/"), "")
  {
    hide Lex;
    LexIsSlash(src, start);
    var s := src[start..];
    assert s[..1] == "/" && s[1..] == "";
  }

  lemma EndPays(state: LexState, src: string, start: nat)
    requires Reached(state, src, start, |src|)
    ensures Owed(state, src, start, |src|) == Lexeme(Finish(AtEnd(state), src[start..]), "")
  {
    hide Keyword, Punctuation, Plain, Slash, Owed, Finish;
    match state
    case IN_WORD => EndWord(state, src, start);
    case IN_NUMBER => EndWord(state, src, start);
    case START => EndBlank(state, src, start);
    case LINE_COMMENT => EndBlank(state, src, start);
    case ON_MINUS => EndOperator(state, src, start);
    case ON_EQUAL => EndOperator(state, src, start);
    case ON_GREATER => EndOperator(state, src, start);
    case ON_LESS => EndOperator(state, src, start);
    case ON_EXCLAM => EndOperator(state, src, start);
    case ON_SLASH =>
      EndSlash(src, start);
      EndSlashPays(src, start);
    case _ => EndOpen(state, src, start);
  }

  lemma EndSlashPays(src: string, start: nat)
    requires start + 1 == |src| && src[start] == '/' && Lex(src[start..]) == Lexeme(Token(SLASH, "/"), "")
    ensures Owed(ON_SLASH, src, start, |src|) == Lexeme(Finish(SLASH, src[start..]), "")
  {
    hide Lex;
    assert src[start..] == "/";
  }

  lemma EndWord(state: LexState, src: string, start: nat)
    requires start < |src| && (state.IN_WORD? || state.IN_NUMBER?)
    ensures Owed(state, src, start, |src|) == Lexeme(Finish(AtEnd(state), src[start..]), "")
  {
    hide Keyword, Lex;
    assert src[|src|..] == "" && src[start..|src|] == src[start..];
    assert WordSpan("") == 0 && DigitSpan("") == 0;
  }

  lemma EndBlank(state: LexState, src: string, start: nat)
    requires start <= |src| && (state.START? ==> start == |src|) && (state.START? || state.LINE_COMMENT?)
    ensures Owed(state, src, start, |src|) == Lexeme(EOF_TOKEN, "") == Lexeme(Finish(AtEnd(state), src[start..]), "")
  {
    hide Keyword, Plain, Slash;
    assert src[|src|..] == "" && LineSpan("") == 0;
  }

  // A string or a block comment that the end of input leaves open.
  lemma EndOpen(state: LexState, src: string, start: nat)
    requires Reached(state, src, start, |src|)
    requires state.IN_STRING? || state.STRING_ESC? || state.BLOCK_COMMENT? || state.BLOCK_COMMENT_STAR?
    ensures Owed(state, src, start, |src|) == Lexeme(Finish(AtEnd(state), src[start..]), "")
  {
    hide Keyword, Lex;
    assert src[|src|..] == "" && StringBody("") == Broken(0) && BlockBody("") == Broken(0);
    if state.BLOCK_COMMENT_STAR? {
      assert src[|src| - 1..] == "*";
      BlockStar();
    }
  }

  lemma BlockStar()
    ensures BlockBody("*") == Broken(1)
  {
    assert "*"[1..] == "";
  }

  // The keyword table, searched from its first entry.
  method FindKeyword(text: string) returns (k: TokenKind)
    ensures k == Keyword(text)
  {
    var i := BEGIN;
    while i < FALSE && Spelling(i) != text
      invariant BEGIN <= i <= FALSE
      invariant Keyword(text) == KeywordFrom(text, i)
    {
      i := i + 1;
    }
    k := if Spelling(i) == text then i else IDENTIFIER;
  }

  class Lexer {
    const source: string
    var pos: nat

    constructor (source: string)
      ensures this.source == source && Valid() && Ahead() == source
    {
      this.source, pos := source, 0;
    }

    ghost predicate Valid()
      reads this
    {
      pos <= |source|
    }

    // The text not yet read.
    ghost function Ahead(): string
      reads this
      requires Valid()
    {
      source[pos..]
    }

    method Next() returns (token: Token)
      requires Valid()
      modifies this
      ensures Valid() && Lexeme(token, Ahead()) == Lex(old(Ahead()))
    {
      hide Lex, Owed, Reached, Step, Finish;
      StartOwes(source, pos);
      ghost var due := Lex(Ahead());
      var state := START;
      var start: nat := pos;
      while pos < |source|
        invariant pos <= |source| && start <= pos && Reached(state, source, start, pos)
        invariant Owed(state, source, start, pos) == due
      {
        StepPays(state, source, start, pos);
        match Step(state, source[pos]) {
          case Shift(next, mark) =>
            state, start, pos := next, Marked(mark, start, pos), pos + 1;
          case Done(kind) =>
            pos := pos + 1;
            token := Delimit(kind, source[start..pos]);
            return;
          case PrevDone(kind) =>
            token := Delimit(kind, source[start..pos]);
            return;
          case CloseQuote =>
            token := Token(STRING, source[start..pos]);
            pos := pos + 1;
            return;
        }
      }
      EndPays(state, source, start);
      assert source[start..] == source[start..pos] && Ahead() == "";
      token := Delimit(AtEnd(state), source[start..pos]);
    }
  }

  method Delimit(kind: TokenKind, text: string) returns (token: Token)
    ensures token == Finish(kind, text)
  {
    var k := kind;
    if kind == IDENTIFIER {
      k := FindKeyword(text);
    }
    token := Token(k, if k == EOF || k == ERROR then "" else text);
  }
}
