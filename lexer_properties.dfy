/**
 * What one call of NextToken returns (`Scan`), and what successive calls
 * return (`Tokens`), for every input.
 */
module LexerProperties {
  import opened Wrappers
  import opened Token
  import opened Lexer

  /**
   * A run is determined by its ends: if the runes from i up to j are all of
   * class k and the rune under the cursor at j is not, then j is where the
   * run from i ends.
   */
  lemma SpanOfRun(s: seq<char>, i: nat, j: nat, k: RunClass)
    requires i <= j <= |s|
    requires forall m :: i <= m < j ==> InClass(s[m], k)
    requires !InClass(CharAt(s, j), k)
    ensures Span(s, i, k) == j
  {
    // Both ends follow from the contract of Span: neither can stop before the other.
  }

  /** The kind of a token is decided by the first rune after the whitespace, in both directions. */
  lemma ScanKind(s: seq<char>, pos: nat)
    ensures var c := CharAt(s, Span(s, pos, Space));
            var k := Scan(s, pos).tok.kind;
            && (k == Eof <==> c == '\0')
            && (k.IsPunctuation() <==> c != '\0' && RuneTokenMap(c).Some?)
            && (k == Ident || k.IsKeyword() <==> IsLetter(c))
            && (k == Int <==> IsDigit(c))
            && (k == Illegal <==> RuneTokenMap(c).None? && !IsLetter(c) && !IsDigit(c))
  {
    var c := CharAt(s, Span(s, pos, Space));
    ClassesDisjoint(c);
  }

  /**
   * What a call consumes: a run of whitespace, then the token's literal,
   * except that an end-of-input token has an empty literal and steps over
   * the 0 under the cursor, and an illegal token consumes nothing.
   */
  lemma ScanConsumes(s: seq<char>, pos: nat)
    ensures var p := Span(s, pos, Space);
            var r := Scan(s, pos);
            && (forall m :: pos <= m < p ==> m < |s| && IsWhitespace(s[m]))
            && match r.tok.kind
               case Eof => r.tok.literal == "" && CharAt(s, p) == '\0' && r.next == p + 1
               case Illegal => p < |s| && r.tok.literal == [s[p]] && r.next == p
               case _ => p < r.next <= |s| && r.tok.literal == s[p..r.next]
  {
    var p := Span(s, pos, Space);
    ClassesDisjoint(CharAt(s, p));
  }

  /** A punctuation rune gives its table kind and itself as literal, and is consumed. */
  lemma ScanPunctuation(s: seq<char>, pos: nat, t: TokenType)
    requires t.IsPunctuation()
    requires TableRune(t) == Some(CharAt(s, Span(s, pos, Space)))
    ensures var p := Span(s, pos, Space);
            Scan(s, pos) == Step(Token(t, [s[p]]), p + 1)
  {
    RuneTokenMapInverse(CharAt(s, Span(s, pos, Space)), t);
  }

  /** The rune 0, or the end of the input, gives an end-of-input token and the cursor still advances. */
  lemma ScanEof(s: seq<char>, pos: nat)
    requires CharAt(s, Span(s, pos, Space)) == '\0'
    ensures Scan(s, pos) == Step(Token(Eof, ""), Span(s, pos, Space) + 1)
  {
  }

  /**
   * An identifier starts with a letter, is the maximal run of letters and
   * underscores from there, and is looked up as a keyword.
   */
  lemma ScanIdentifier(s: seq<char>, pos: nat)
    requires IsLetter(CharAt(s, Span(s, pos, Space)))
    ensures var p := Span(s, pos, Space);
            var r := Scan(s, pos);
            && p < r.next <= |s|
            && r.tok.literal == s[p..r.next]
            && IsLetter(r.tok.literal[0])
            && (forall m :: 0 <= m < |r.tok.literal| ==> IsLetter(r.tok.literal[m]) || r.tok.literal[m] == '_')
            && (r.next == |s| || !(IsLetter(s[r.next]) || s[r.next] == '_'))
            && r.tok.kind == LookupIdent(r.tok.literal)
  {
    var p := Span(s, pos, Space);
    ClassesDisjoint(s[p]);
  }

  /** A number is the maximal run of decimal digits at the cursor. */
  lemma ScanNumber(s: seq<char>, pos: nat)
    requires IsDigit(CharAt(s, Span(s, pos, Space)))
    ensures var p := Span(s, pos, Space);
            var r := Scan(s, pos);
            && p < r.next <= |s|
            && r.tok == Token(Int, s[p..r.next])
            && (forall m :: 0 <= m < |r.tok.literal| ==> IsDigit(r.tok.literal[m]))
            && (r.next == |s| || !IsDigit(s[r.next]))
  {
    var p := Span(s, pos, Space);
    ClassesDisjoint(s[p]);
  }

  /**
   * Conversely, whitespace followed by a word w that starts with a letter,
   * holds only letters and underscores and cannot be extended, is scanned as
   * exactly w.
   */
  lemma ScanWordAt(s: seq<char>, pos: nat, p: nat, w: string)
    requires pos <= p && p + |w| <= |s| && |w| > 0
    requires forall m :: pos <= m < p ==> IsWhitespace(s[m])
    requires forall m :: 0 <= m < |w| ==> s[p + m] == w[m]
    requires IsLetter(w[0])
    requires forall m :: 0 <= m < |w| ==> IsLetter(w[m]) || w[m] == '_'
    requires p + |w| == |s| || !(IsLetter(s[p + |w|]) || s[p + |w|] == '_')
    ensures Scan(s, pos) == Step(Token(LookupIdent(w), w), p + |w|)
  {
    var e := p + |w|;
    assert s[p..e] == w;
    ClassesDisjoint(s[p]);
    SpanOfRun(s, pos, p, Space);
    SpanOfRun(s, p, e, IdentRest);
  }

  /** Conversely, whitespace followed by a punctuation rune is scanned as that rune. */
  lemma ScanPunctuationAt(s: seq<char>, pos: nat, p: nat, t: TokenType)
    requires pos <= p < |s|
    requires forall m :: pos <= m < p ==> IsWhitespace(s[m])
    requires t.IsPunctuation() && TableRune(t) == Some(s[p])
    ensures Scan(s, pos) == Step(Token(t, [s[p]]), p + 1)
  {
    RuneTokenMapInverse(s[p], t);
    SpanOfRun(s, pos, p, Space);
  }

  /**
   * The cursor stands still exactly when the token is illegal: the next call
   * then starts where this one did and returns the same token again.
   */
  lemma StallsExactlyOnIllegal(s: seq<char>, pos: nat)
    ensures var r := Scan(s, pos);
            Scan(s, r.next) == r <==> r.tok.kind == Illegal
    ensures Scan(s, pos).tok.kind != Illegal ==> Scan(s, pos).next > pos
  {
    var r := Scan(s, pos);
    var p := Span(s, pos, Space);
    ScanConsumes(s, pos);
    if r.tok.kind == Illegal {
      assert r.next == p;
      assert Span(s, p, Space) == p;
    } else {
      ScanConsumes(s, r.next);
      ScanKind(s, r.next);
    }
  }

  /** The cursor never moves backwards over any number of calls. */
  lemma {:induction false} AfterMonotone(s: seq<char>, pos: nat, n: nat)
    ensures pos <= After(s, pos, n)
    decreases n
  {
    if n > 0 {
      StallsExactlyOnIllegal(s, pos);
      AfterMonotone(s, Scan(s, pos).next, n - 1);
    }
  }

  /** Once nothing but whitespace is left, every call returns an end-of-input token. */
  lemma {:induction false} EofForever(s: seq<char>, pos: nat, n: nat)
    requires |s| <= Span(s, pos, Space)
    ensures Tokens(s, pos, n) == seq(n, _ => Token(Eof, ""))
    decreases n
  {
    if n > 0 {
      var r := Scan(s, pos);
      assert r == Step(Token(Eof, ""), Span(s, pos, Space) + 1);
      assert Span(s, r.next, Space) == r.next;
      EofForever(s, r.next, n - 1);
    }
  }

  /** After an illegal token every further call returns that same token. */
  lemma {:induction false} IllegalRepeats(s: seq<char>, pos: nat, n: nat)
    requires Scan(s, pos).tok.kind == Illegal
    ensures Tokens(s, pos, n) == seq(n, _ => Scan(s, pos).tok)
    decreases n
  {
    if n > 0 {
      var r := Scan(s, pos);
      StallsExactlyOnIllegal(s, pos);
      IllegalRepeats(s, r.next, n - 1);
    }
  }

  /** No token of any call ever carries whitespace in its literal. */
  lemma {:induction false} NoWhitespaceInLiterals(s: seq<char>, pos: nat, n: nat)
    ensures forall i, j :: 0 <= i < n && 0 <= j < |Tokens(s, pos, n)[i].literal| ==>
              !IsWhitespace(Tokens(s, pos, n)[i].literal[j])
    decreases n
  {
    if n > 0 {
      var r := Scan(s, pos);
      ScanConsumes(s, pos);
      ScanKind(s, pos);
      var p := Span(s, pos, Space);
      forall j | 0 <= j < |r.tok.literal|
        ensures !IsWhitespace(r.tok.literal[j])
      {
        ClassesDisjoint(r.tok.literal[j]);
      }
      NoWhitespaceInLiterals(s, r.next, n - 1);
    }
  }

  /**
   * A chain of calls determines the run: when each call from stops[i] returns
   * toks[i] and leaves the cursor at stops[i + 1], the calls from stops[0]
   * return exactly toks and end at the last stop.
   */
  lemma {:induction false} TokensOfSteps(s: seq<char>, stops: seq<nat>, toks: seq<Token>)
    requires |stops| == |toks| + 1
    requires forall i :: 0 <= i < |toks| ==> Scan(s, stops[i]) == Step(toks[i], stops[i + 1])
    ensures Tokens(s, stops[0], |toks|) == toks
    ensures After(s, stops[0], |toks|) == stops[|toks|]
    decreases |toks|
  {
    if |toks| > 0 {
      TokensOfSteps(s, stops[1..], toks[1..]);
      assert [toks[0]] + toks[1..] == toks;
    }
  }

  // ---------------------------------------------------------------------------
  // Whole inputs

  /** `x = 5;` scans as an identifier, `=`, a number, `;` and the end of input. */
  lemma ExampleAssignment()
    ensures Tokens("x = 5;", 0, 5) ==
      [Token(Ident, "x"), Token(Assign, "="), Token(Int, "5"), Token(Semicolon, ";"), Token(Eof, "")]
  {
    AssignmentSteps();
  }

  /** The five calls over `x = 5;`, one by one, with where each leaves the cursor. */
  lemma AssignmentSteps()
    ensures Scan("x = 5;", 0) == Step(Token(Ident, "x"), 1)
    ensures Scan("x = 5;", 1) == Step(Token(Assign, "="), 3)
    ensures Scan("x = 5;", 3) == Step(Token(Int, "5"), 5)
    ensures Scan("x = 5;", 5) == Step(Token(Semicolon, ";"), 6)
    ensures Scan("x = 5;", 6) == Step(Token(Eof, ""), 7)
    ensures Scan("x = 5;", 7) == Step(Token(Eof, ""), 8)
  {
  }

  /** A function literal bound to a name by `let`: both keywords, identifiers and most of the table. */
  const LetAdd: string := "let add = fn(x, y) { x + y; };"

  /** The positions the cursor stops at over LetAdd, one more than there are calls. */
  const LetAddStops: seq<nat> := [0, 3, 7, 9, 12, 13, 14, 15, 17, 18, 20, 22, 24, 26, 27, 29, 30, 31]

  /** The tokens the calls over LetAdd return. */
  const LetAddTokens: seq<Token> := [
    Token(Let, "let"), Token(Ident, "add"), Token(Assign, "="), Token(Function, "fn"),
    Token(LParen, "("), Token(Ident, "x"), Token(Comma, ","), Token(Ident, "y"),
    Token(RParen, ")"), Token(LBrace, "{"), Token(Ident, "x"), Token(Plus, "+"),
    Token(Ident, "y"), Token(Semicolon, ";"), Token(RBrace, "}"), Token(Semicolon, ";"),
    Token(Eof, "")
  ]

  /** Calls a up to b over LetAdd go from stop to stop and return the listed tokens. */
  predicate LetAddSteps(a: nat, b: nat)
    requires a <= b <= |LetAddTokens|
  {
    forall i :: a <= i < b ==> Scan(LetAdd, LetAddStops[i]) == Step(LetAddTokens[i], LetAddStops[i + 1])
  }

  // Each call over LetAdd, first as what Scan returns at that position, then
  // as the numbered step of the run.

  lemma LetAddScan0()
    ensures Scan(LetAdd, 0) == Step(Token(Let, "let"), 3)
  {
    assert LetAdd[0] == 'l' && LetAdd[1] == 'e' && LetAdd[2] == 't';
    ScanWordAt(LetAdd, 0, 0, "let");
  }

  lemma LetAddStep0()
    ensures LetAddSteps(0, 1)
  {
    assert LetAddStops[0] == 0 && LetAddStops[1] == 3;
    LetAddScan0();
  }

  lemma LetAddScan3()
    ensures Scan(LetAdd, 3) == Step(Token(Ident, "add"), 7)
  {
    assert LetAdd[4] == 'a' && LetAdd[5] == 'd' && LetAdd[6] == 'd';
    ScanWordAt(LetAdd, 3, 4, "add");
  }

  lemma LetAddStep1()
    ensures LetAddSteps(1, 2)
  {
    assert LetAddStops[1] == 3 && LetAddStops[2] == 7;
    LetAddScan3();
  }

  lemma LetAddScan7()
    ensures Scan(LetAdd, 7) == Step(Token(Assign, "="), 9)
  {
    ScanPunctuationAt(LetAdd, 7, 8, Assign);
  }

  lemma LetAddStep2()
    ensures LetAddSteps(2, 3)
  {
    assert LetAddStops[2] == 7 && LetAddStops[3] == 9;
    LetAddScan7();
  }

  lemma LetAddScan9()
    ensures Scan(LetAdd, 9) == Step(Token(Function, "fn"), 12)
  {
    assert LetAdd[10] == 'f' && LetAdd[11] == 'n';
    ScanWordAt(LetAdd, 9, 10, "fn");
  }

  lemma LetAddStep3()
    ensures LetAddSteps(3, 4)
  {
    assert LetAddStops[3] == 9 && LetAddStops[4] == 12;
    LetAddScan9();
  }

  lemma LetAddScan12()
    ensures Scan(LetAdd, 12) == Step(Token(LParen, "("), 13)
  {
    ScanPunctuationAt(LetAdd, 12, 12, LParen);
  }

  lemma LetAddStep4()
    ensures LetAddSteps(4, 5)
  {
    assert LetAddStops[4] == 12 && LetAddStops[5] == 13;
    LetAddScan12();
  }

  lemma LetAddScan13()
    ensures Scan(LetAdd, 13) == Step(Token(Ident, "x"), 14)
  {
    assert LetAdd[13] == 'x';
    ScanWordAt(LetAdd, 13, 13, "x");
  }

  lemma LetAddStep5()
    ensures LetAddSteps(5, 6)
  {
    assert LetAddStops[5] == 13 && LetAddStops[6] == 14;
    LetAddScan13();
  }

  lemma LetAddScan14()
    ensures Scan(LetAdd, 14) == Step(Token(Comma, ","), 15)
  {
    ScanPunctuationAt(LetAdd, 14, 14, Comma);
  }

  lemma LetAddStep6()
    ensures LetAddSteps(6, 7)
  {
    assert LetAddStops[6] == 14 && LetAddStops[7] == 15;
    LetAddScan14();
  }

  lemma LetAddScan15()
    ensures Scan(LetAdd, 15) == Step(Token(Ident, "y"), 17)
  {
    assert LetAdd[16] == 'y';
    ScanWordAt(LetAdd, 15, 16, "y");
  }

  lemma LetAddStep7()
    ensures LetAddSteps(7, 8)
  {
    assert LetAddStops[7] == 15 && LetAddStops[8] == 17;
    LetAddScan15();
  }

  lemma LetAddScan17()
    ensures Scan(LetAdd, 17) == Step(Token(RParen, ")"), 18)
  {
    ScanPunctuationAt(LetAdd, 17, 17, RParen);
  }

  lemma LetAddStep8()
    ensures LetAddSteps(8, 9)
  {
    assert LetAddStops[8] == 17 && LetAddStops[9] == 18;
    LetAddScan17();
  }

  lemma LetAddScan18()
    ensures Scan(LetAdd, 18) == Step(Token(LBrace, "{"), 20)
  {
    ScanPunctuationAt(LetAdd, 18, 19, LBrace);
  }

  lemma LetAddStep9()
    ensures LetAddSteps(9, 10)
  {
    assert LetAddStops[9] == 18 && LetAddStops[10] == 20;
    LetAddScan18();
  }

  lemma LetAddScan20()
    ensures Scan(LetAdd, 20) == Step(Token(Ident, "x"), 22)
  {
    assert LetAdd[21] == 'x';
    ScanWordAt(LetAdd, 20, 21, "x");
  }

  lemma LetAddStep10()
    ensures LetAddSteps(10, 11)
  {
    assert LetAddStops[10] == 20 && LetAddStops[11] == 22;
    LetAddScan20();
  }

  lemma LetAddScan22()
    ensures Scan(LetAdd, 22) == Step(Token(Plus, "+"), 24)
  {
    ScanPunctuationAt(LetAdd, 22, 23, Plus);
  }

  lemma LetAddStep11()
    ensures LetAddSteps(11, 12)
  {
    assert LetAddStops[11] == 22 && LetAddStops[12] == 24;
    LetAddScan22();
  }

  lemma LetAddScan24()
    ensures Scan(LetAdd, 24) == Step(Token(Ident, "y"), 26)
  {
    assert LetAdd[25] == 'y';
    ScanWordAt(LetAdd, 24, 25, "y");
  }

  lemma LetAddStep12()
    ensures LetAddSteps(12, 13)
  {
    assert LetAddStops[12] == 24 && LetAddStops[13] == 26;
    LetAddScan24();
  }

  lemma LetAddScan26()
    ensures Scan(LetAdd, 26) == Step(Token(Semicolon, ";"), 27)
  {
    ScanPunctuationAt(LetAdd, 26, 26, Semicolon);
  }

  lemma LetAddStep13()
    ensures LetAddSteps(13, 14)
  {
    assert LetAddStops[13] == 26 && LetAddStops[14] == 27;
    LetAddScan26();
  }

  lemma LetAddScan27()
    ensures Scan(LetAdd, 27) == Step(Token(RBrace, "}"), 29)
  {
    ScanPunctuationAt(LetAdd, 27, 28, RBrace);
  }

  lemma LetAddStep14()
    ensures LetAddSteps(14, 15)
  {
    assert LetAddStops[14] == 27 && LetAddStops[15] == 29;
    LetAddScan27();
  }

  lemma LetAddScan29()
    ensures Scan(LetAdd, 29) == Step(Token(Semicolon, ";"), 30)
  {
    ScanPunctuationAt(LetAdd, 29, 29, Semicolon);
  }

  lemma LetAddStep15()
    ensures LetAddSteps(15, 16)
  {
    assert LetAddStops[15] == 29 && LetAddStops[16] == 30;
    LetAddScan29();
  }

  lemma LetAddScan30()
    ensures Scan(LetAdd, 30) == Step(Token(Eof, ""), 31)
  {
    ScanEof(LetAdd, 30);
  }

  lemma LetAddStep16()
    ensures LetAddSteps(16, 17)
  {
    assert LetAddStops[16] == 30 && LetAddStops[17] == 31;
    LetAddScan30();
  }

  /**
   * `let add = fn(x, y) { x + y; };` scans as the keyword `let`, the identifier
   * `add`, `=`, the keyword `fn`, the parameter list, the body and the two
   * semicolons, then the end of input, which steps the cursor past the input.
   */
  lemma ExampleFunctionLiteral()
    ensures Tokens(LetAdd, 0, |LetAddTokens|) == LetAddTokens
    ensures After(LetAdd, 0, |LetAddTokens|) == |LetAdd| + 1
  {
    LetAddStep0(); LetAddStep1(); LetAddStep2(); LetAddStep3(); LetAddStep4(); LetAddStep5();
    LetAddStep6(); LetAddStep7(); LetAddStep8(); LetAddStep9(); LetAddStep10(); LetAddStep11();
    LetAddStep12(); LetAddStep13(); LetAddStep14(); LetAddStep15(); LetAddStep16();
    assert LetAddSteps(0, |LetAddTokens|);
    TokensOfSteps(LetAdd, LetAddStops, LetAddTokens);
  }

  /** The empty input gives an end-of-input token on every call. */
  lemma ExampleEmpty(n: nat)
    ensures Tokens("", 0, n) == seq(n, _ => Token(Eof, ""))
  {
    EofForever("", 0, n);
  }

  /** An unknown rune is reported as illegal on every call: it is never consumed. */
  lemma ExampleIllegal(n: nat)
    ensures Tokens("@", 0, n) == seq(n, _ => Token(Illegal, "@"))
  {
    IllegalRepeats("@", 0, n);
  }

  /** A leading underscore cannot start an identifier, though one can continue it. */
  lemma ExampleUnderscore(n: nat)
    ensures Tokens("_a", 0, n) == seq(n, _ => Token(Illegal, "_"))
    ensures Tokens("a_", 0, 2) == [Token(Ident, "a_"), Token(Eof, "")]
  {
    IllegalRepeats("_a", 0, n);
    assert Scan("a_", 0) == Step(Token(Ident, "a_"), 2);
    assert Scan("a_", 2) == Step(Token(Eof, ""), 3);
  }

  /** A 0 inside the input ends a token as end of input, and scanning carries on after it. */
  lemma ExampleEmbeddedZero()
    ensures Tokens("a\0b", 0, 4) == [Token(Ident, "a"), Token(Eof, ""), Token(Ident, "b"), Token(Eof, "")]
  {
    var s := "a\0b";
    assert Scan(s, 0) == Step(Token(Ident, "a"), 1);
    assert Scan(s, 1) == Step(Token(Eof, ""), 2);
    assert Scan(s, 2) == Step(Token(Ident, "b"), 3);
    assert Scan(s, 3) == Step(Token(Eof, ""), 4);
  }

  /** A caller driving the lexer object over `x = 5;` sees the tokens of ExampleAssignment. */
  method LexAssignment() {
    var l := new Lexer.New("x = 5;");
    AssignmentSteps();
    var t := l.NextToken();
    assert t == Token(Ident, "x") && l.position == 1;
    t := l.NextToken();
    assert t == Token(Assign, "=") && l.position == 3;
    t := l.NextToken();
    assert t == Token(Int, "5") && l.position == 5;
    t := l.NextToken();
    assert t == Token(Semicolon, ";") && l.position == 6;
    t := l.NextToken();
    assert t == Token(Eof, "") && l.position == 7;
    t := l.NextToken();
    assert t == Token(Eof, "");
  }
}
