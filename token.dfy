/**
 * The token vocabulary the lexer queries: the kinds of token, the token value
 * and the keyword lookup. The repository's token package is not part of this
 * model; this module stands in for it with the two reserved words of the
 * language at this stage, `fn` and `let`.
 */
module Token {

  datatype TokenType =
    | Illegal | Eof
    | Ident | Int
    | Assign | Plus | Comma | Semicolon | LParen | RParen | LBrace | RBrace
    | Function | Let
  {
    /** A reserved word: its own kind instead of the generic identifier kind. */
    predicate IsKeyword() {
      this == Function || this == Let
    }

    /** One of the eight single-rune punctuation kinds. */
    predicate IsPunctuation() {
      this in {Assign, Plus, Comma, Semicolon, LParen, RParen, LBrace, RBrace}
    }
  }

  /** A token: its kind and the exact text it was scanned from. */
  datatype Token = Token(kind: TokenType, literal: string)

  /** The spelling of a reserved word. */
  function KeywordText(k: TokenType): string
    requires k.IsKeyword()
  {
    match k
    case Function => "fn"
    case Let => "let"
  }

  /**
   * The kind of an identifier-shaped literal: the keyword it spells, or the
   * generic identifier kind.
   */
  function LookupIdent(ident: string): (t: TokenType)
    ensures t == Ident || t.IsKeyword()
    ensures t.IsKeyword() ==> KeywordText(t) == ident
  {
    if ident == "fn" then Function
    else if ident == "let" then Let
    else Ident
  }

  /** Every reserved word is looked up as itself. */
  lemma LookupKeyword(k: TokenType)
    requires k.IsKeyword()
    ensures LookupIdent(KeywordText(k)) == k
  {
  }
}
