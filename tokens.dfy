/**
 * Token kinds and tokens (craftinginterpreters/TokenType.py, Token.py).
 * `Break` is the kind the parser uses but the token table never declared;
 * it is added here together with its keyword.
 */
module Tokens {
  import opened Basics

  datatype TokenKind =
    // single-character tokens
    | LeftParen | RightParen | LeftBrace | RightBrace | Comma | Dot
    | Minus | Plus | Semicolon | Slash | Star
    // one- or two-character tokens
    | Bang | BangEqual | Equal | EqualEqual
    | Greater | GreaterEqual | Less | LessEqual
    // literals
    | Identifier | String | Number
    // keywords
    | And | Class | Else | False | Fun | For | If | Nil | Or
    | Print | Return | Super | This | True | Var | While | Break
    | Eof

  /** The literal a token carries: a scanned number or the text of a string. */
  datatype Literal = NoLiteral | NumberLit(r: real) | StringLit(text: string)

  datatype Token = Token(kind: TokenKind, lexeme: string, literal: Literal, line: int)

  /** The keyword table of the scanner, with "break" added. */
  const Keywords: map<string, TokenKind> := map[
    "and" := And, "class" := Class, "else" := Else, "false" := False,
    "for" := For, "fun" := Fun, "if" := If, "nil" := Nil, "or" := Or,
    "print" := Print, "return" := Return, "super" := Super, "this" := This,
    "true" := True, "var" := Var, "while" := While, "break" := Break]

  /** The kind an identifier-shaped lexeme receives: its keyword kind, else Identifier. */
  function IdentifierKind(text: string): (k: TokenKind)
    ensures text in Keywords ==> k == Keywords[text]
    ensures text !in Keywords ==> k == Identifier
    ensures k != Eof
  {
    if text in Keywords then Keywords[text] else Identifier
  }

  /** The reserved word of a keyword kind; empty for every other kind. */
  function KeywordText(k: TokenKind): string {
    match k
    case And => "and" case Class => "class" case Else => "else" case False => "false"
    case For => "for" case Fun => "fun" case If => "if" case Nil => "nil" case Or => "or"
    case Print => "print" case Return => "return" case Super => "super" case This => "this"
    case True => "true" case Var => "var" case While => "while" case Break => "break"
    case _ => ""
  }

  /** Every entry of the keyword table maps back to its own word, so no two keywords share a kind. */
  lemma KeywordsDistinct(a: string, b: string)
    requires a in Keywords && b in Keywords && a != b
    ensures Keywords[a] != Keywords[b]
    ensures Keywords[a] !in {Identifier, String, Number, Eof}
  {
    KeywordInverse(a);
    KeywordInverse(b);
  }

  lemma KeywordInverse(a: string)
    requires a in Keywords
    ensures KeywordText(Keywords[a]) == a
  {
  }
}
