# Lexer of the Monkey language, in Dafny

This project models the lexer in `lexer/lexer.go`. The lexer turns a source
string into tokens of the Monkey language, one token per call of `NextToken`.
It holds the decoded runes of the input and a cursor. The cursor is made of
`position`, `readPosition` and the current rune `ch`, which is 0 once the
cursor has run past the end.

On each call the lexer does the following:

- It skips spaces, tabs, newlines and carriage returns.
- It looks the current rune up in a fixed table. The table maps `= ; ( ) , + { }`
  to their punctuation kinds and the rune 0 to the end-of-input kind.
- If the rune is not in the table, it reads the maximal run of letters and
  underscores when the rune is a letter. The kind of that run is looked up
  among the keywords.
- Otherwise, it reads the maximal run of decimal digits when the rune is a
  digit.
- Otherwise, it reports the rune as illegal.

The project has four files:

- `wrappers.dfy`: the `Option` type that the table lookup returns.
- `token.dfy` (module `Token`): the token vocabulary that the lexer queries.
  It holds the token kinds, the token value and `LookupIdent`.
- `lexer.dfy` (module `Lexer`): the pure specification and the class `Lexer`.
  - The pure part holds the character classes, the rune table
    `RuneTokenMap`, the end of a maximal run `Span`, and one call of
    `NextToken` as the function `Scan`.
  - The class `Lexer` has the fields of the Go struct and the predicate
    `Valid()`, which is the cursor invariant. Its methods `ReadChar`,
    `SkipWhitespaces`, `ReadIdentifier`, `ReadNumber` and `NextToken` follow
    the Go methods loop by loop. `ReadChar` is proved against the cursor
    invariant. `SkipWhitespaces`, `ReadIdentifier` and `ReadNumber` are
    proved against `Span`, and `NextToken` against `Scan`.
- `lexer_properties.dfy` (module `LexerProperties`): lemmas about `Scan` and
  about `Tokens`, the tokens of successive calls, for every input. It also
  has a few whole-input examples and a client method that drives the object.

Three behaviours of the code are easy to get wrong. The model follows the
code in each case, and each one has a lemma:

- An illegal rune is not consumed: the ILLEGAL branch returns before any
  `readChar`. The cursor therefore stays where it is, and every later call
  returns the same illegal token (`StallsExactlyOnIllegal`, `IllegalRepeats`,
  `ExampleIllegal`). The lexer does not skip the illegal rune and resume
  after it.
- Only a letter can start an identifier. An underscore can only continue one,
  so `_a` scans as an endless series of illegal `_` tokens
  (`ExampleUnderscore`).
- A rune 0 inside the input is the key of the end-of-input entry in the
  table. It yields an end-of-input token with an empty literal, the cursor
  steps over it, and scanning continues (`ExampleEmbeddedZero`).

## Model

| member | source | states |
|---|---|---|
| Token.LookupIdent | lexer/lexer.go:62 | the kind given to an identifier is the generic identifier kind or a keyword, and a keyword only for its own spelling |
| Token.LookupKeyword | lexer/lexer.go:62 | every keyword's spelling is looked up as that keyword |
| Lexer.RuneTokenMap | lexer/lexer.go:11-21 | the table gives end of input exactly for the rune 0, and otherwise only punctuation kinds |
| Lexer.RuneTokenMapInverse | lexer/lexer.go:11-21 | the table is a bijection between its nine keys and the eight punctuation kinds plus end of input |
| Lexer.ClassesDisjoint | lexer/lexer.go:57-69 | letters, digits, whitespace and the table keys (0 included) are pairwise disjoint, and an underscore is none of whitespace or a table key, so the order of the tests in NextToken does not matter |
| Lexer.Span | lexer/lexer.go:46-52 | a loop that reads while the current rune is in a class stops at the end of the maximal run: every rune stepped over is in the input and in the class, and the rune under the cursor at the stop (0 past the end) is not |
| LexerProperties.SpanOfRun | lexer/lexer.go:93-99 | the stopping point is unique: any run of the class that ends at a rune outside the class ends where the loop stops |
| Lexer.Lexer.New | lexer/lexer.go:30-34 | a new lexer holds the input unchanged, has the cursor at position 0, and satisfies the cursor invariant (readPosition is position + 1, and ch is the rune at position, or 0 past the end) |
| Lexer.Lexer.ReadChar | lexer/lexer.go:36-44 | the cursor moves to readPosition and the invariant holds afterwards from any state; from a valid state the position grows by exactly one, and past the end ch stays 0 |
| Lexer.Lexer.SkipWhitespaces | lexer/lexer.go:82-91 | the cursor stops on a rune that is not space, tab, newline or carriage return, and every rune it stepped over is one of those four |
| Lexer.Lexer.ReadIdentifier | lexer/lexer.go:46-52 | the cursor ends at the end of the maximal run of letters and underscores, the slice stays in bounds, and the result is exactly the runes stepped over |
| Lexer.Lexer.ReadNumber | lexer/lexer.go:93-99 | the cursor ends at the end of the maximal run of digits, the slice stays in bounds, and the result is exactly the runes stepped over |
| Lexer.Lexer.NextToken | lexer/lexer.go:54-80 | the token returned and the new position are those of `Scan` from the old position, and the cursor invariant is kept |
| LexerProperties.ScanKind | lexer/lexer.go:57-72 | the kind of a token is decided, in both directions, by the first rune after the whitespace: end of input exactly for 0, punctuation exactly for the other table keys, identifier or keyword exactly for a letter, integer exactly for a digit, illegal exactly for anything else |
| LexerProperties.ScanConsumes | lexer/lexer.go:54-80 | a call consumes whitespace and then exactly the literal; an end-of-input token has an empty literal and steps over the 0, and an illegal token consumes nothing |
| LexerProperties.ScanPunctuation | lexer/lexer.go:74-79 | a punctuation rune gives its kind with the rune itself as literal, and the cursor moves one past it |
| LexerProperties.ScanEof | lexer/lexer.go:74-76 | a 0 or the end of the input gives end of input with an empty literal, and the cursor still advances by one |
| LexerProperties.ScanIdentifier | lexer/lexer.go:59-63 | an identifier is non-empty, in bounds, starts with a letter, holds only letters and underscores, is maximal, and has the kind LookupIdent gives its literal |
| LexerProperties.ScanWordAt | lexer/lexer.go:59-63 | conversely, whitespace followed by a word that starts with a letter, holds only letters and underscores and cannot be extended is scanned as exactly that word, with the kind LookupIdent gives it, and the cursor stops right after it |
| LexerProperties.ScanPunctuationAt | lexer/lexer.go:74-79 | conversely, whitespace followed by a table rune of a punctuation kind is scanned as that kind with the rune as literal, and the cursor stops one past it |
| LexerProperties.ScanNumber | lexer/lexer.go:66-68 | a number is the non-empty, in-bounds, maximal run of digits at the cursor, with kind INT |
| LexerProperties.StallsExactlyOnIllegal | lexer/lexer.go:71-72 | the next call returns exactly the same token and position if and only if the token is illegal; every other token moves the cursor forward |
| LexerProperties.AfterMonotone | lexer/lexer.go:36-44 | the cursor never moves backwards over any number of calls |
| LexerProperties.EofForever | lexer/lexer.go:74-76 | once only whitespace is left, every further call returns end of input with an empty literal |
| LexerProperties.IllegalRepeats | lexer/lexer.go:71-72 | after an illegal token, every further call returns that same token |
| LexerProperties.NoWhitespaceInLiterals | lexer/lexer.go:82-91 | no literal of any token of any number of calls contains whitespace |
| LexerProperties.TokensOfSteps | lexer/lexer.go:54-80 | successive calls are chained through the cursor: when each call from one stop returns the listed token and leaves the cursor at the next stop, the run from the first stop returns exactly the listed tokens and ends at the last stop |
| LexerProperties.ExampleAssignment | lexer/lexer.go:54-80 | `x = 5;` scans as identifier `x`, `=`, integer `5`, `;` and end of input |
| LexerProperties.ExampleFunctionLiteral | lexer/lexer.go:54-80 | `let add = fn(x, y) { x + y; };` scans as the keywords `let` and `fn`, the identifiers, the punctuation and the end of input, seventeen tokens in all, and the cursor ends one past the input |
| LexerProperties.ExampleEmpty | lexer/lexer.go:30-44 | the empty input gives end of input on every call |
| LexerProperties.ExampleIllegal | lexer/lexer.go:71-72 | `@` gives illegal `@` on every call |
| LexerProperties.ExampleUnderscore | lexer/lexer.go:59 | `_a` gives illegal `_` on every call, while `a_` is one identifier |
| LexerProperties.ExampleEmbeddedZero | lexer/lexer.go:20 | a 0 inside the input gives end of input, and scanning continues after it |

## Left out

- Unicode letters and digits: `unicode.IsLetter` and `unicode.IsDigit` come from Go's Unicode tables, which are not part of this model. The model restricts them to ASCII letters and digits. A non-ASCII letter or digit is therefore illegal in the model, whereas Go starts an identifier or a number with it. The restriction also ends runs early: Go reads `aé` as one identifier, while the model returns identifier `a` and then illegal `é` on every later call. `ClassesDisjoint` states the only facts about the classes that the lemmas rely on.
- The token package is not part of this model. Module `Token` stands in for it with the kinds the lexer uses and the keywords `fn` and `let`. The general lemmas about `Scan` and `Tokens` use only the contract of `LookupIdent`, which holds for any keyword list. The examples depend on the list itself: `let` and `fn` must be keywords, and the identifiers the examples scan (`x`, `y`, `add`, `a`, `b`, `a_`) must not be.
- UTF-8 decoding: `[]rune(input)` decodes the input, and invalid bytes become U+FFFD. The model takes the input as a sequence of code points, so turning runes back into a string is the identity.
- Integer width: `position` and `readPosition` are Go `int`s. The model uses unbounded naturals, because overflowing them would take more than 2^63 calls.
- The Go map and `defer`: the table is a `match` over its nine keys. The deferred `readChar` runs after the token has been built from `ch`.
- Lexer.Lexer.ReadIdentifier: the method requires the cursor to be at most at the end of the input. That is the bound the Go slice needs so as not to panic, and `NextToken`, the only caller, guarantees it because a letter is under the cursor.
- Lexer.Lexer.ReadNumber: the method requires the cursor to be at most at the end of the input, for the same reason as `ReadIdentifier`.
