/**
 * The lexer of lexer/lexer.go: a cursor over a buffer of runes that hands out
 * one token per call.
 *
 * The pure part (character classes, the rune-to-token table, maximal runs and
 * the one-call scan `Scan`) specifies the class `Lexer`, whose methods follow
 * the Go methods statement by statement.
 */
module Lexer {
  import opened Wrappers
  import opened Token

  // ---------------------------------------------------------------------------
  // Character classes

  /** A letter; the model restricts Unicode letters to the ASCII ones. */
  predicate IsLetter(c: char) {
    'a' <= c <= 'z' || 'A' <= c <= 'Z'
  }

  /** A decimal digit; the model restricts Unicode digits to the ASCII ones. */
  predicate IsDigit(c: char) {
    '0' <= c <= '9'
  }

  /** The four runes skipped between tokens. */
  predicate IsWhitespace(c: char) {
    c == ' ' || c == '\t' || c == '\n' || c == '\r'
  }

  /** The classes of rune a loop of the lexer steps over. */
  datatype RunClass =
    | Space      // skipWhitespaces
    | IdentRest  // readIdentifier: letters and underscores
    | Digits     // readNumber

  predicate InClass(c: char, k: RunClass) {
    match k
    case Space => IsWhitespace(c)
    case IdentRest => IsLetter(c) || c == '_'
    case Digits => IsDigit(c)
  }

  /** The rune under a cursor at index i: the input's rune, or the sentinel 0 past the end. */
  function CharAt(s: seq<char>, i: nat): char {
    if i < |s| then s[i] else '\0'
  }

  /**
   * The fixed single-rune table: eight punctuation runes, and the rune 0,
   * which stands for the end of input.
   */
  function RuneTokenMap(c: char): (r: Option<TokenType>)
    ensures r == Some(Eof) <==> c == '\0'
    ensures r.Some? ==> r.value == Eof || r.value.IsPunctuation()
  {
    match c
    case '=' => Some(Assign)
    case ';' => Some(Semicolon)
    case '(' => Some(LParen)
    case ')' => Some(RParen)
    case ',' => Some(Comma)
    case '+' => Some(Plus)
    case '{' => Some(LBrace)
    case '}' => Some(RBrace)
    case '\0' => Some(Eof)
    case _ => None
  }

  /** The rune a table kind is mapped from: the inverse of `RuneTokenMap`. */
  function TableRune(t: TokenType): Option<char> {
    match t
    case Assign => Some('=')
    case Semicolon => Some(';')
    case LParen => Some('(')
    case RParen => Some(')')
    case Comma => Some(',')
    case Plus => Some('+')
    case LBrace => Some('{')
    case RBrace => Some('}')
    case Eof => Some('\0')
    case _ => None
  }

  /** The table maps exactly one rune to each of its kinds, and to no other kind. */
  lemma RuneTokenMapInverse(c: char, t: TokenType)
    ensures RuneTokenMap(c) == Some(t) <==> TableRune(t) == Some(c)
    ensures TableRune(t).Some? <==> t == Eof || t.IsPunctuation()
  {
  }

  /**
   * The classes the lexer tells apart never overlap: a letter is not a digit,
   * and neither is whitespace, an underscore or a key of the table (0 included).
   */
  lemma ClassesDisjoint(c: char)
    ensures !(IsLetter(c) && IsDigit(c))
    ensures IsLetter(c) || IsDigit(c) || c == '_' ==> !IsWhitespace(c) && RuneTokenMap(c).None?
    ensures IsWhitespace(c) ==> RuneTokenMap(c).None?
    ensures !InClass('\0', Space) && !InClass('\0', IdentRest) && !InClass('\0', Digits)
  {
  }

  /**
   * The end of the maximal run of class k that starts at index i: every rune
   * from i up to the end is in the class, and the rune under the cursor at the
   * end (the sentinel past the input) is not.
   */
  function Span(s: seq<char>, i: nat, k: RunClass): (j: nat)
    ensures i <= j
    ensures j == i || j <= |s|
    ensures forall m :: i <= m < j ==> m < |s| && InClass(s[m], k)
    ensures !InClass(CharAt(s, j), k)
    decreases |s| - i
  {
    if i < |s| && InClass(s[i], k) then Span(s, i + 1, k) else i
  }

  // ---------------------------------------------------------------------------
  // One call of NextToken, as a function of the cursor position

  /** A token and the position the cursor is left at. */
  datatype Step = Step(tok: Token, next: nat)

  /**
   * What NextToken returns when the cursor is at pos: skip whitespace, then
   * look the rune up in the table (building the token before the deferred
   * advance), or read an identifier, or a number, or else report the rune as
   * illegal without consuming it.
   */
  function Scan(s: seq<char>, pos: nat): Step {
    var p := Span(s, pos, Space);
    var c := CharAt(s, p);
    match RuneTokenMap(c)
    case Some(t) =>
      Step(Token(t, if t == Eof then "" else [c]), p + 1)
    case None =>
      if IsLetter(c) then
        var e := Span(s, p, IdentRest);
        Step(Token(LookupIdent(s[p..e]), s[p..e]), e)
      else if IsDigit(c) then
        var e := Span(s, p, Digits);
        Step(Token(Int, s[p..e]), e)
      else
        Step(Token(Illegal, [c]), p)
  }

  /** The first n tokens successive calls return from position pos. */
  function Tokens(s: seq<char>, pos: nat, n: nat): (ts: seq<Token>)
    ensures |ts| == n
    decreases n
  {
    if n == 0 then []
    else
      var r := Scan(s, pos);
      [r.tok] + Tokens(s, r.next, n - 1)
  }

  /** The position the cursor is at after n calls from position pos. */
  function After(s: seq<char>, pos: nat, n: nat): nat
    decreases n
  {
    if n == 0 then pos else After(s, Scan(s, pos).next, n - 1)
  }

  // ---------------------------------------------------------------------------
  // The lexer object

  class Lexer {
    const input: seq<char>   // the decoded runes; never written after construction
    var position: nat        // index of the rune under examination
    var readPosition: nat    // index of the next rune to read
    var ch: char             // the rune under examination, or 0 past the end

    /** The cursor invariant. */
    ghost predicate Valid()
      reads this
    {
      readPosition == position + 1 && ch == CharAt(input, position)
    }

    /** New: the runes of the text, with the cursor on the first of them. */
    constructor New(text: string)
      ensures Valid()
      ensures input == text && position == 0
    {
      input := text;
      position, readPosition, ch := 0, 0, '\0';
      new;
      ReadChar();
    }

    /**
     * readChar: move to the rune at readPosition, or to the sentinel 0 when
     * that is past the end. It needs no invariant beforehand and always
     * leaves the cursor invariant holding.
     */
    method ReadChar()
      modifies this
      ensures Valid()
      ensures position == old(readPosition)
      ensures old(Valid()) ==> position == old(position) + 1
    {
      if readPosition >= |input| {
        ch := '\0';
      } else {
        ch := input[readPosition];
      }
      position := readPosition;
      readPosition := readPosition + 1;
    }

    /** skipWhitespaces: step over space, tab, newline and carriage return. */
    method SkipWhitespaces()
      requires Valid()
      modifies this
      ensures Valid()
      ensures position == Span(input, old(position), Space)
      ensures !IsWhitespace(ch)
      ensures forall m :: old(position) <= m < position ==> m < |input| && IsWhitespace(input[m])
    {
      while true
        invariant Valid()
        invariant old(position) <= position
        invariant Span(input, position, Space) == Span(input, old(position), Space)
        decreases |input| - position
      {
        match ch
        case ' ' | '\t' | '\n' | '\r' =>
          ReadChar();
        case _ =>
          return;
      }
    }

    /** readIdentifier: the maximal run of letters and underscores at the cursor. */
    method ReadIdentifier() returns (literal: string)
      requires Valid() && position <= |input|
      modifies this
      ensures Valid()
      ensures position == Span(input, old(position), IdentRest) && position <= |input|
      ensures literal == input[old(position)..position]
    {
      var start := position;
      while IsLetter(ch) || ch == '_'
        invariant Valid()
        invariant start <= position <= |input|
        invariant Span(input, position, IdentRest) == Span(input, start, IdentRest)
        decreases |input| - position
      {
        ReadChar();
      }
      literal := input[start..position];
    }

    /** readNumber: the maximal run of decimal digits at the cursor. */
    method ReadNumber() returns (literal: string)
      requires Valid() && position <= |input|
      modifies this
      ensures Valid()
      ensures position == Span(input, old(position), Digits) && position <= |input|
      ensures literal == input[old(position)..position]
    {
      var start := position;
      while IsDigit(ch)
        invariant Valid()
        invariant start <= position <= |input|
        invariant Span(input, position, Digits) == Span(input, start, Digits)
        decreases |input| - position
      {
        ReadChar();
      }
      literal := input[start..position];
    }

    /** NextToken: the next token, with the cursor moved past what it consumed. */
    method NextToken() returns (tok: Token)
      requires Valid()
      modifies this
      ensures Valid()
      ensures Step(tok, position) == Scan(input, old(position))
    {
      SkipWhitespaces();
      var kind := RuneTokenMap(ch);
      if kind.None? {
        if IsLetter(ch) {
          var literal := ReadIdentifier();
          tok := Token(LookupIdent(literal), literal);
          return;
        }
        if IsDigit(ch) {
          var literal := ReadNumber();
          return Token(Int, literal);
        }
        return Token(Illegal, [ch]);
      }
      // The token is built from ch before the deferred readChar advances.
      if kind.value == Eof {
        tok := Token(Eof, "");
      } else {
        tok := Token(kind.value, [ch]);
      }
      ReadChar();
    }
  }
}
