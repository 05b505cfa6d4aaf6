# A verified model of the Lox scanner

This project models the lexical scanner of jlox, the Java interpreter for
the Lox language (`Scanner.java`). The scanner makes one left-to-right pass
over a source string. It cuts the source into tokens and always ends the
sequence with an `Eof` token. Unexpected characters and unclosed strings go
to the error sink.

The model is functional state-passing:

- The state is an immutable `Cursor.State`. It holds the source, the
  `start`/`current`/`line` cursor, the tokens emitted so far, the span each
  token was cut from, and the diagnostics reported so far.
- The primitives `advance`, `peek`, `peekNext`, `match` and `isAtEnd` are
  pure functions. `advance` returns an `Outcome`: either a new state, or a
  `Fault` carrying the state at which the source would have thrown
  "Unexpected end of source".
- `scanToken` is `Scanner.ScanToken` (advance, then `Scanner.Dispatch` on
  the character). `scanTokens` is `Scanner.ScanLoop` plus the `Eof` token.
  It is also written as the imperative loop `Scanner.RunScanner`.
- The error sink `Lox.error(line, message)` appends a
  `Diagnostic(line, message)`.

Besides the scanner itself, the model has three more parts:

- **`Grammar`** is a reference description of Lox tokens that does not
  depend on the algorithm. It covers:
  - which texts a number, string or identifier admits;
  - what "maximal munch" forbids after a token;
  - on which line a source position lies.
- **`ScanInvariants` and `ScanSteps`** prove that every step keeps the
  invariant `Valid`. Under `Valid`:
  - every token is the source slice at its span, well formed and maximal
    there, and stamped with the line its last character lies on;
  - spans are in source order and do not overlap;
  - the line counter is the line of the cursor;
  - diagnostics come at non-decreasing lines.
- **`ScanProperties` and `ScanExamples`** state what one step and a whole
  scan promise, and work small sources through by hand.

Two behaviours of the code are easy to miss, and the model keeps both:

- **An unclosed string faults.** `string()` reports "Unclosed string
  literal" when its loop reaches the end of input (Scanner.java:158-160).
  It then calls `advance()` unconditionally (Scanner.java:163), and
  `advance()` throws at the end of input (Scanner.java:111-112). The model
  therefore returns `Faulted("Unexpected end of source", diags)`, and the
  last diagnostic is the unclosed-string report.
- **A multi-line string carries the line of its closing quote.** The loop
  of `string()` counts each embedded newline (Scanner.java:154) before
  `addToken` stamps the current `line` on the token (Scanner.java:107).

## Model

All source paths are in `app/src/main/java/com/craftinginterpreters/lox/`.

| member | source | states |
|---|---|---|
| Lexicon.KeywordSpellings | app/src/main/java/com/craftinginterpreters/lox/Scanner.java:19-39 | every entry of the reserved-word table maps a word to a reserved-word type whose spelling is exactly that word |
| Lexicon.KeywordTableComplete | app/src/main/java/com/craftinginterpreters/lox/Scanner.java:19-39 | each of the sixteen reserved-word types is in the table, under its own spelling |
| Lexicon.KeywordsAreIdentifierText | app/src/main/java/com/craftinginterpreters/lox/Scanner.java:19-39 | every reserved word is a letter followed by letters and digits, so the identifier rule can reach it |
| Lexicon.WordKind | app/src/main/java/com/craftinginterpreters/lox/Scanner.java:187-189 | a word the table holds gets the reserved-word type spelled exactly like it; any other word is an Identifier |
| Lexicon.CharacterClasses | app/src/main/java/com/craftinginterpreters/lox/Scanner.java:140-150 | digits and letters are disjoint; neither the underscore nor the NUL of past-the-end lookahead is alphanumeric; no alphanumeric character is a newline, a double quote or a dot |
| Lexicon.DigitChars | app/src/main/java/com/craftinginterpreters/lox/Scanner.java:140-142 | the digit class is exactly the ten ASCII digits `0`-`9` |
| Lexicon.LetterChars | app/src/main/java/com/craftinginterpreters/lox/Scanner.java:144-146 | the letter class is exactly the fifty-two ASCII letters, lower and upper case |
| Lexicon.AlphaNumericChars | app/src/main/java/com/craftinginterpreters/lox/Scanner.java:148-150 | the alphanumeric class is exactly the ASCII digits and letters, so no underscore |
| Cursor.Init | app/src/main/java/com/craftinginterpreters/lox/Scanner.java:10-17 | a fresh scan has its cursor at position 0 on line 1, within the source, with no token and no diagnostic |
| Cursor.Lookahead | app/src/main/java/com/craftinginterpreters/lox/Scanner.java:118-138 | `peek()` and `peekNext()` read the character at and after the cursor, NUL past the end, as the grammar's lookahead does; within bounds, `isAtEnd()` holds exactly at the source's length |
| Cursor.Next | app/src/main/java/com/craftinginterpreters/lox/Scanner.java:114 | moving over a present character raises `current` by exactly one |
| Cursor.Advance | app/src/main/java/com/craftinginterpreters/lox/Scanner.java:110-115 | faults exactly at the end of input, leaving the state as it was; otherwise returns the character under the cursor and moves only `current`, by one |
| Cursor.Match | app/src/main/java/com/craftinginterpreters/lox/Scanner.java:129-134 | succeeds exactly when a next character exists and is `c`; then it moves `current` by one, and otherwise it changes nothing |
| Cursor.MatchIsPeekThenAdvance | app/src/main/java/com/craftinginterpreters/lox/Scanner.java:118-134 | `match(c)` is `peek() == c` followed by `advance()` |
| Cursor.PeekNextIsPeekAfterNext | app/src/main/java/com/craftinginterpreters/lox/Scanner.java:118-127 | two-character lookahead is one-character lookahead after one step, NUL past the end included |
| Cursor.AddToken | app/src/main/java/com/craftinginterpreters/lox/Scanner.java:101-108 | appends one token whose lexeme is `source[start..current]` and whose line is the current line, together with its span; nothing else changes |
| Cursor.Report | app/src/main/java/com/craftinginterpreters/lox/Scanner.java:159 | a report appends one diagnostic with the given message at the current line and changes nothing else |
| Grammar.LineAtNext | app/src/main/java/com/craftinginterpreters/lox/Scanner.java:81 | moving over one character raises the line by one exactly when that character is a newline |
| Grammar.LineAtMonotone | app/src/main/java/com/craftinginterpreters/lox/Scanner.java:81 | the line of a source position never decreases along the source |
| Grammar.LineAtRange | app/src/main/java/com/craftinginterpreters/lox/Scanner.java:153-156 | the line at `b` is the line at `a` plus the newlines in between |
| Scanner.ConsumeWhile | app/src/main/java/com/craftinginterpreters/lox/Scanner.java:170-179 | a run stops at the end of input or on the first character that fails the class; every character it passes is in the class; only `current` moves |
| Scanner.StringBody | app/src/main/java/com/craftinginterpreters/lox/Scanner.java:153-156 | the body of a string stops at the end of input or on the next double quote; it passes no double quote; only `current` and `line` change |
| Scanner.LexString | app/src/main/java/com/craftinginterpreters/lox/Scanner.java:152-167 | the string scanner faults exactly when no double quote follows, and then at the end of input; otherwise it stops just past the closing quote, and no double quote lies between the opening and the closing one |
| Scanner.LexNumber | app/src/main/java/com/craftinginterpreters/lox/Scanner.java:169-183 | the number scanner keeps the cursor within the source and never moves it back |
| Scanner.LexIdentifier | app/src/main/java/com/craftinginterpreters/lox/Scanner.java:185-190 | the identifier scanner keeps the cursor within the source and never moves it back |
| Scanner.Operator | app/src/main/java/com/craftinginterpreters/lox/Scanner.java:68-71 | the operator step keeps the cursor within the source |
| Scanner.ScanToken | app/src/main/java/com/craftinginterpreters/lox/Scanner.java:55-99 | a step consumes at least one character, keeps the source and the lexeme start, and faults exactly at the end of input or on a double quote that no later double quote closes |
| Scanner.Dispatch | app/src/main/java/com/craftinginterpreters/lox/Scanner.java:57-98 | the switch never moves the cursor back and faults exactly on a double quote with no closing quote after it |
| Scanner.ScanLoop | app/src/main/java/com/craftinginterpreters/lox/Scanner.java:46-50 | the outer loop, when it completes, stops at the end of the source |
| Scanner.ScanTokens | app/src/main/java/com/craftinginterpreters/lox/Scanner.java:45-53 | a completed scan ends in an `Eof` token with empty lexeme and no literal; a failed scan fails with the end-of-source message |
| Scanner.RunScanner | app/src/main/java/com/craftinginterpreters/lox/Scanner.java:45-53 | the imperative loop over a mutable cursor computes the same result as the recursive scan |
| ScanInvariants.NextValid | app/src/main/java/com/craftinginterpreters/lox/Scanner.java:110-115 | moving over a character that is not a newline keeps the scan invariant |
| ScanInvariants.NewlineValid | app/src/main/java/com/craftinginterpreters/lox/Scanner.java:81 | moving over a newline while counting it keeps the scan invariant |
| ScanInvariants.ReportValid | app/src/main/java/com/craftinginterpreters/lox/Scanner.java:95 | reporting at the current line keeps the scan invariant |
| ScanInvariants.AddTokenValid | app/src/main/java/com/craftinginterpreters/lox/Scanner.java:105-108 | emitting a lexeme the grammar admits at its span keeps the invariant and emits exactly that one token, of the given type, at [start, current), with no report |
| ScanInvariants.ConsumeWhileValid | app/src/main/java/com/craftinginterpreters/lox/Scanner.java:74 | a run over a class without the newline keeps the invariant and the line |
| ScanInvariants.StringBodyLines | app/src/main/java/com/craftinginterpreters/lox/Scanner.java:153-156 | the string body counts exactly the newlines it passes, so the line counter stays the line of the cursor |
| ScanInvariants.StringBodyValid | app/src/main/java/com/craftinginterpreters/lox/Scanner.java:153-156 | the string body keeps the scan invariant |
| ScanSteps.PunctuationValid | app/src/main/java/com/craftinginterpreters/lox/Scanner.java:58-67 | a single punctuation character emits exactly one token of its type, which the grammar admits there, and keeps the invariant |
| ScanSteps.OperatorValid | app/src/main/java/com/craftinginterpreters/lox/Scanner.java:68-71 | `! = < >` emit exactly one token: the two-character operator when `=` follows and the one-character one otherwise; it is well formed and maximal, and the invariant holds |
| ScanSteps.TwoCharOperatorValid | app/src/main/java/com/craftinginterpreters/lox/Scanner.java:68-71 | an operator followed by `=` emits exactly one token, the two-character type spelled with that `=` |
| ScanSteps.SlashValid | app/src/main/java/com/craftinginterpreters/lox/Scanner.java:75-77 | a slash not followed by a slash emits exactly one well-formed Slash token and keeps the invariant |
| ScanSteps.CommentValid | app/src/main/java/com/craftinginterpreters/lox/Scanner.java:73-74 | a line comment emits nothing and keeps the invariant |
| ScanSteps.DigitsSlice | app/src/main/java/com/craftinginterpreters/lox/Scanner.java:170-172 | a run of digit positions is a digit run as text |
| ScanSteps.FractionText | app/src/main/java/com/craftinginterpreters/lox/Scanner.java:174-180 | digits, a dot and digits form a number text with a fraction |
| ScanSteps.WholeNumberLexed | app/src/main/java/com/craftinginterpreters/lox/Scanner.java:169-182 | a maximal digit run with no fraction after it is a Number token whose literal is its text |
| ScanSteps.FractionLexed | app/src/main/java/com/craftinginterpreters/lox/Scanner.java:169-182 | digits, a dot and a maximal digit run form a Number token whose literal is its text |
| ScanSteps.FractionToken | app/src/main/java/com/craftinginterpreters/lox/Scanner.java:169-182 | the text a number with a fraction spans is a well-formed, maximal Number token |
| ScanSteps.LexWholeNumberValid | app/src/main/java/com/craftinginterpreters/lox/Scanner.java:169-172 | a number with no fraction emits exactly one Number token at the lexeme's span and keeps the invariant |
| ScanSteps.LexFractionValid | app/src/main/java/com/craftinginterpreters/lox/Scanner.java:174-182 | a number with a fraction emits exactly one Number token at the lexeme's span and keeps the invariant |
| ScanSteps.LexNumberValid | app/src/main/java/com/craftinginterpreters/lox/Scanner.java:169-183 | the number scanner emits exactly one Number token, cut at the lexeme's span, reports nothing, and keeps the invariant (so the token is well formed and maximal) |
| ScanSteps.WordLexed | app/src/main/java/com/craftinginterpreters/lox/Scanner.java:185-189 | a letter followed by a maximal alphanumeric run is the reserved word it spells, or an Identifier |
| ScanSteps.LexIdentifierValid | app/src/main/java/com/craftinginterpreters/lox/Scanner.java:185-190 | the identifier scanner emits exactly one token, typed as the reserved word its lexeme spells or as an Identifier, reports nothing, and keeps the invariant |
| ScanSteps.StringLexed | app/src/main/java/com/craftinginterpreters/lox/Scanner.java:165-166 | from a quote to the next quote is a String token whose literal is the text strictly between them |
| ScanSteps.ClosedStringValid | app/src/main/java/com/craftinginterpreters/lox/Scanner.java:152-167 | a closed string literal emits exactly one String token, cut from the opening through the closing quote, reports nothing, and keeps the invariant |
| ScanSteps.UnclosedStringValid | app/src/main/java/com/craftinginterpreters/lox/Scanner.java:158-163 | an unclosed string faults at the end of input, emits nothing, and adds exactly the unclosed-string report at the last line |
| ScanSteps.LexStringValid | app/src/main/java/com/craftinginterpreters/lox/Scanner.java:152-167 | the string scanner is sound both when it completes and when it faults |
| ScanSteps.ScanTokenValid | app/src/main/java/com/craftinginterpreters/lox/Scanner.java:55-99 | every step from the start of a lexeme keeps the invariant and emits at most one token, cut at the lexeme's span |
| ScanSteps.ScanLoopValid | app/src/main/java/com/craftinginterpreters/lox/Scanner.java:45-50 | the outer loop keeps the invariant and only appends tokens, spans and diagnostics; when it faults, it is at the end of the source and the last diagnostic is the unclosed-string report |
| ScanProperties.ConsumeWhileStopsAtFirstFailure | app/src/main/java/com/craftinginterpreters/lox/Scanner.java:170-179 | a run ends exactly at the first position that fails the class, or at the end |
| ScanProperties.StringBodyStopsAtQuote | app/src/main/java/com/craftinginterpreters/lox/Scanner.java:153-156 | the string body ends exactly at the first double quote, or at the end, on the line of that position |
| ScanProperties.OperatorMaximalMunch | app/src/main/java/com/craftinginterpreters/lox/Scanner.java:68-71 | `! = < >` followed by `=` emit the two-character operator; otherwise they emit the one-character operator; one token with no literal at the current line |
| ScanProperties.PunctuationStep | app/src/main/java/com/craftinginterpreters/lox/Scanner.java:58-67 | a step on one of `(){},.-+;*` emits exactly one token, spelled as that character, with no literal, at the current line, and reports nothing |
| ScanProperties.NumberStep | app/src/main/java/com/craftinginterpreters/lox/Scanner.java:169-183 | a step on a digit emits exactly one Number token, from the cursor to the end of the longest numeral there (a dot only with a digit after it), and reports nothing |
| ScanProperties.TrailingDot | app/src/main/java/com/craftinginterpreters/lox/Scanner.java:174-180 | a digit run followed by a dot that no digit follows is a Number that stops before the dot, and the next step emits the dot as a Dot token |
| ScanProperties.WordStep | app/src/main/java/com/craftinginterpreters/lox/Scanner.java:185-190 | a step on a letter emits exactly one token over the longest run of letters and digits there, typed as the reserved word it spells or as an Identifier, and reports nothing |
| ScanProperties.LineComment | app/src/main/java/com/craftinginterpreters/lox/Scanner.java:72-74 | `//` runs up to but not including the next newline, or to the end, and emits and reports nothing |
| ScanProperties.LoneSlash | app/src/main/java/com/craftinginterpreters/lox/Scanner.java:75-77 | a slash not followed by a slash emits exactly one Slash token |
| ScanProperties.BlankStep | app/src/main/java/com/craftinginterpreters/lox/Scanner.java:79-81 | a space, tab or carriage return moves the cursor past itself and changes nothing else; a newline does the same and raises the line by one; neither emits a token or a diagnostic |
| ScanProperties.UnexpectedCharacterStep | app/src/main/java/com/craftinginterpreters/lox/Scanner.java:89-96 | an unknown character is skipped with exactly one diagnostic at the current line; nothing else changes |
| ScanProperties.LiteralStepReportsNothing | app/src/main/java/com/craftinginterpreters/lox/Scanner.java:83-93 | the string, number and identifier branches report nothing when they complete |
| ScanProperties.SymbolStepReportsNothing | app/src/main/java/com/craftinginterpreters/lox/Scanner.java:58-81 | the punctuation, operator, slash and blank branches complete and report nothing |
| ScanProperties.ExpectedStepReportsNothing | app/src/main/java/com/craftinginterpreters/lox/Scanner.java:55-99 | a step that starts on a character the switch knows reports nothing |
| ScanProperties.ClosedStringResult | app/src/main/java/com/craftinginterpreters/lox/Scanner.java:152-167 | when a later quote closes the literal, the string scanner stops on that quote and emits the token that ends just after it |
| ScanProperties.UnclosedStringResult | app/src/main/java/com/craftinginterpreters/lox/Scanner.java:158-163 | when no later quote closes the literal, the string body runs to the end of input and the string scanner reports there and then faults |
| ScanProperties.TerminatedString | app/src/main/java/com/craftinginterpreters/lox/Scanner.java:152-167 | a closed string is one String token whose literal is the quote-free text strictly between the quotes; the line rises once per embedded newline and the token carries that line |
| ScanProperties.ClosedStringLine | app/src/main/java/com/craftinginterpreters/lox/Scanner.java:153-156 | after a closed string body, the line is the opening line plus the newlines inside the quotes |
| ScanProperties.UnterminatedString | app/src/main/java/com/craftinginterpreters/lox/Scanner.java:158-163 | an unclosed string reports at the last line and then faults, with no token emitted |
| ScanProperties.ScanTokenLineMonotone | app/src/main/java/com/craftinginterpreters/lox/Scanner.java:81 | the line counter never goes back within a step |
| ScanProperties.InitValid | app/src/main/java/com/craftinginterpreters/lox/Scanner.java:10-17 | a fresh scan, at position 0 on line 1 with nothing emitted, satisfies the invariant |
| ScanProperties.ScannedFrom | app/src/main/java/com/craftinginterpreters/lox/Scanner.java:45-53 | a completed scan is the final loop state's tokens plus Eof at its line, and that state is valid at the end of the source |
| ScanProperties.FaultedFrom | app/src/main/java/com/craftinginterpreters/lox/Scanner.java:45-53 | a failed scan comes from a loop fault whose last diagnostic is the unclosed-string report at the last line |
| ScanProperties.EofSentinel | app/src/main/java/com/craftinginterpreters/lox/Scanner.java:45-53 | a completed scan ends in exactly one Eof token, with empty lexeme, no literal and the line of the end of the source; no earlier token is Eof |
| ScanProperties.TokensMatchSource | app/src/main/java/com/craftinginterpreters/lox/Scanner.java:46-49 | every token but Eof is the source slice at its span and is well formed and maximal there; the spans follow source order without overlap |
| ScanProperties.LinesMonotone | app/src/main/java/com/craftinginterpreters/lox/Scanner.java:107 | token lines never decrease along the sequence, Eof included |
| ScanProperties.LetterTokenKind | app/src/main/java/com/craftinginterpreters/lox/Scanner.java:187-189 | a well-formed token that starts with a letter is the reserved word it spells, or an Identifier |
| ScanProperties.KeywordOrIdentifier | app/src/main/java/com/craftinginterpreters/lox/Scanner.java:185-190 | in a completed scan, a token that starts with a letter is the reserved word its lexeme spells, or an Identifier |
| ScanProperties.FaultIsUnclosedString | app/src/main/java/com/craftinginterpreters/lox/Scanner.java:158-163 | a scan fails only after an unclosed string: the message is the end-of-source one and the last diagnostic is the unclosed-string report at the last line |
| ScanProperties.NoQuoteNeverFaults | app/src/main/java/com/craftinginterpreters/lox/Scanner.java:110-115 | a source with no double quote is always scanned to completion |
| ScanProperties.ExpectedSourceReportsNothing | app/src/main/java/com/craftinginterpreters/lox/Scanner.java:89-96 | a completed scan of a source made only of characters the switch knows has no diagnostic |
| ScanExamples.BangEqualExample | app/src/main/java/com/craftinginterpreters/lox/Scanner.java:68 | `!=` scans to BangEqual, then Eof |
| ScanExamples.BangAtEndExample | app/src/main/java/com/craftinginterpreters/lox/Scanner.java:68 | `!` at the end of input scans to Bang, then Eof |
| ScanExamples.TrailingDotExample | app/src/main/java/com/craftinginterpreters/lox/Scanner.java:174 | `123.` scans to Number `123`, then Dot, then Eof |
| ScanExamples.FractionExample | app/src/main/java/com/craftinginterpreters/lox/Scanner.java:174-180 | `123.45` scans to one Number, then Eof |
| ScanExamples.ClassroomExample | app/src/main/java/com/craftinginterpreters/lox/Scanner.java:185-190 | `classroom` scans to one Identifier, not to the reserved word `class` |
| ScanExamples.ClassExample | app/src/main/java/com/craftinginterpreters/lox/Scanner.java:185-190 | `class` scans to the reserved word Class |
| ScanExamples.UnclosedStringExample | app/src/main/java/com/craftinginterpreters/lox/Scanner.java:158-163 | `"abc` is reported at line 1 and then fails with the end-of-source message |
| ScanExamples.MultiLineStringExample | app/src/main/java/com/craftinginterpreters/lox/Scanner.java:152-167 | a string spanning two lines keeps its newline in the literal and carries line 2, which Eof shares |
| ScanExamples.CommentLineExample | app/src/main/java/com/craftinginterpreters/lox/Scanner.java:72-81 | `1 // note`, a newline and `2` give Number `1` on line 1, Number `2` on line 2 and Eof on line 2: the comment ends at the newline, which starts the next line |
| ScanExamples.UnexpectedCharacterExample | app/src/main/java/com/craftinginterpreters/lox/Scanner.java:95 | `@` yields only Eof and one "Unexpected character." diagnostic at line 1 |

## Left out

- `Double.parseDouble` (Scanner.java:182) is not modelled. A Number token's
  literal is `Numeral(text)`, the lexeme the conversion would read. Floating
  point is outside the model.
- `Lox.error` is not part of this model. It is modelled only as appending
  `Diagnostic(line, message)`. Whatever the error sink prints or records
  beyond that is not modelled.
- `Token.java` and `TokenType.java` are not part of this model.
  - `TokenType` is rebuilt from the names `Scanner.java` uses.
  - `Token` is `(kind, lexeme, literal, line)`, with Java's `null` literal
    as `NoLiteral`.
- Java's `int` cursor and line counter are unbounded `nat`s. Sources
  longer than 2^31 - 1 characters are not modelled.
- The `HashMap` is a Dafny `map`.
- Scanner.ScanTokens models one call of `scanTokens()` on a new Scanner.
  In Java the scanner is a mutable object. `scanTokens()` returns the
  object's own `tokens` list (Scanner.java:10, :45-53). A second call on the
  same Scanner skips the loop, because `isAtEnd()` already holds, and
  appends a second `EOF` to the list the caller already holds. The model
  passes an immutable state and has no aliasing. So `EofSentinel`'s "exactly
  one Eof" is a promise about that first call only.
- Surrogate pairs are not modelled. A Java `String` is a sequence of UTF-16
  code units; a Dafny `string` is a sequence of Unicode scalar values. A
  character outside the Basic Multilingual Plane is two Java `char`s, so
  jlox reports "Unexpected character." twice for it. In the model it is
  one `char` and draws one report.
- Scanner.LexNumber: its own contract only bounds the cursor. That it emits
  exactly one Number token at the lexeme's span is stated by
  `ScanSteps.LexNumberValid`. That the token is the longest numeral at the
  cursor is stated by `ScanProperties.NumberStep`.
- Scanner.LexIdentifier: its own contract only bounds the cursor. That it
  emits exactly one token, the reserved word or an Identifier, is stated
  by `ScanSteps.LexIdentifierValid` and `ScanProperties.WordStep`.
- Scanner.Operator: its own contract only bounds the cursor. The token it
  emits is stated by `ScanSteps.OperatorValid` and
  `ScanProperties.OperatorMaximalMunch`.
- Scanner.ScanLoop: its own contract only says where the loop stops.
  Everything it emits is characterised by `ScanSteps.ScanLoopValid`.
- `RpnPrinter.java` and the build script are not part of this model. They
  hold no scanner logic.
