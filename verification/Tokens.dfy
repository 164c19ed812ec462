/**
 Tokens of the FML language and the operator table of the parser.
 A source text is a `string` in which every `char` stands for one byte.
 */
module Tokens {

  // Token kinds in the order of the token table. The order matters: the punctuation
  // that may also be used as a name is the range BAR..PERCENT.
  newtype TokenKind = k: int | 0 <= k < 44

  const NUMBER: TokenKind := 0
  const IDENTIFIER: TokenKind := 1
  const STRING: TokenKind := 2
  const BAR: TokenKind := 3
  const AMPERSANT: TokenKind := 4
  const EQUAL_EQUAL: TokenKind := 5
  const BANG_EQUAL: TokenKind := 6
  const GREATER: TokenKind := 7
  const LESS: TokenKind := 8
  const GREATER_EQUAL: TokenKind := 9
  const LESS_EQUAL: TokenKind := 10
  const PLUS: TokenKind := 11
  const MINUS: TokenKind := 12
  const ASTERISK: TokenKind := 13
  const SLASH: TokenKind := 14
  const PERCENT: TokenKind := 15
  const SEMICOLON: TokenKind := 16
  const LPAREN: TokenKind := 17
  const RPAREN: TokenKind := 18
  const EQUAL: TokenKind := 19
  const LARROW: TokenKind := 20
  const RARROW: TokenKind := 21
  const DOT: TokenKind := 22
  const LBRACKET: TokenKind := 23
  const RBRACKET: TokenKind := 24
  const COMMA: TokenKind := 25
  const BEGIN: TokenKind := 26
  const END: TokenKind := 27
  const IF: TokenKind := 28
  const THEN: TokenKind := 29
  const ELSE: TokenKind := 30
  const LET: TokenKind := 31
  const NULL: TokenKind := 32
  const PRINT: TokenKind := 33
  const OBJECT: TokenKind := 34
  const EXTENDS: TokenKind := 35
  const WHILE: TokenKind := 36
  const DO: TokenKind := 37
  const FUNCTION: TokenKind := 38
  const ARRAY: TokenKind := 39
  const TRUE: TokenKind := 40
  const FALSE: TokenKind := 41
  const EOF: TokenKind := 42
  const ERROR: TokenKind := 43

  datatype Token = Token(kind: TokenKind, str: string)

  const EOF_TOKEN := Token(EOF, "")

  predicate IsOperator(k: TokenKind) { BAR <= k <= PERCENT }

  predicate IsIdentifier(k: TokenKind) { k == IDENTIFIER || IsOperator(k) }

  // Precedences, lowest to highest.
  const PREC_NONE: nat := 0
  const PREC_EXPR: nat := 1
  const PREC_ASGN: nat := 2
  const PREC_DISJ: nat := 3
  const PREC_CONJ: nat := 4
  const PREC_CMP: nat := 5
  const PREC_ADD: nat := 6
  const PREC_MUL: nat := 7
  const PREC_POST: nat := 8
  const PREC_TOP: nat := 9

  // What a token does at the start of an expression.
  datatype Nud =
    | NudErr | NudPrimary | NudIdent | NudParen | NudBlock | NudCond | NudLet | NudPrint
    | NudObject | NudLoop | NudFunction | NudArray

  // What a token does after a complete left operand.
  datatype Led =
    | LedErr | LedStop | LedBinop | LedCall | LedEqErr | LedAssign | LedField | LedIndexing

  function NullInfo(k: TokenKind): Nud {
    if k == NUMBER || k == NULL || k == TRUE || k == FALSE then NudPrimary
    else if k == IDENTIFIER then NudIdent
    else if k == LPAREN then NudParen
    else if k == BEGIN then NudBlock
    else if k == IF then NudCond
    else if k == LET then NudLet
    else if k == PRINT then NudPrint
    else if k == OBJECT then NudObject
    else if k == WHILE then NudLoop
    else if k == FUNCTION then NudFunction
    else if k == ARRAY then NudArray
    else NudErr
  }

  function LeftInfo(k: TokenKind): Led {
    if IsOperator(k) then LedBinop
    else if k == LPAREN then LedCall
    else if k == EQUAL then LedEqErr
    else if k == LARROW then LedAssign
    else if k == DOT then LedField
    else if k == LBRACKET then LedIndexing
    else if || k == SEMICOLON || k == RPAREN || k == RBRACKET || k == COMMA || k == BEGIN || k == END
            || k == THEN || k == ELSE || k == DO || k == EOF then LedStop
    else LedErr
  }

  // Left binding power.
  function Lbp(k: TokenKind): nat {
    match LeftInfo(k)
    case LedBinop =>
      if k == BAR then PREC_DISJ
      else if k == AMPERSANT then PREC_CONJ
      else if k <= LESS_EQUAL then PREC_CMP
      else if k <= MINUS then PREC_ADD
      else PREC_MUL
    case LedCall => PREC_POST
    case LedField => PREC_POST
    case LedIndexing => PREC_POST
    case LedEqErr => PREC_ASGN
    case LedAssign => PREC_ASGN
    case LedStop => PREC_NONE
    case LedErr => PREC_TOP
  }

  // Right binding power: only `<-` associates to the right.
  function Rbp(k: TokenKind): nat {
    if k == LARROW then Lbp(k) else Lbp(k) + 1
  }

  // ----------------------------------------------------------------- spelling

  // How the tokens of the table are written.
  const SPELLINGS: seq<string> := [
    "", "", "",
    "|", "&", "==", "!=", ">", "<", ">=", "<=", "+", "-", "*", "/", "%",
    ";", "(", ")", "=", "<-", "->", ".", "[", "]", ",",
    "begin", "end", "if", "then", "else", "let", "null", "print", "object", "extends", "while", "do",
    "function", "array", "true", "false",
    "", ""
  ]

  function Spelling(k: TokenKind): string { SPELLINGS[k as int] }

  // Tokens whose text the parser looks at.
  predicate CarriesText(k: TokenKind) { k <= PERCENT }

  // Any other token is known by its kind alone.
  predicate Spelled(t: Token) {
    t.kind != EOF && (CarriesText(t.kind) || t.kind == ERROR || t.str == Spelling(t.kind))
  }
}
