/** What a scan promises: about one step of the scanner, and about the
    whole token sequence. */
module ScanProperties {
  import opened Lexicon
  import opened Grammar
  import opened Cursor
  import opened Scanner
  import opened ScanInvariants
  import opened ScanSteps

  /** The characters the dispatch knows; any other one is reported as
      unexpected. */
  predicate IsExpected(c: char) {
    c in "(){},.-+;*!=<>/ \t\r\n\"" || IsAlphaNumeric(c)
  }

  /** A run stops exactly at the first character at or after the cursor
      that fails `p`, or at the end of input. */
  lemma ConsumeWhileStopsAtFirstFailure(s: State, p: char -> bool, e: nat)
    requires Bounded(s) && s.current <= e <= |s.source|
    requires forall k :: s.current <= k < e ==> p(s.source[k])
    requires e == |s.source| || !p(s.source[e])
    ensures ConsumeWhile(s, p) == s.(current := e)
  {
  }

  /** A string body stops exactly at the first double quote at or after
      the cursor, or at the end of input, having counted the newlines before
      it. */
  lemma StringBodyStopsAtQuote(s: State, e: nat)
    requires Bounded(s) && s.current <= e <= |s.source| && s.line == LineAt(s.source, s.current)
    requires forall k :: s.current <= k < e ==> s.source[k] != '"'
    requires e == |s.source| || s.source[e] == '"'
    ensures StringBody(s) == s.(current := e, line := LineAt(s.source, e))
  {
    StringBodyLines(s);
  }

  // ---------------------------------------------------------------------
  // One step

  /** One step at `s` emitted the operator that is spelled exactly as the
      lexeme it consumed: the two-character form when `=` follows, and the
      one-character form otherwise. */
  ghost predicate MunchedOperator(s: State, r: Outcome<State>)
    requires Bounded(s) && !AtEnd(s)
  {
    var two := s.current + 1 < |s.source| && s.source[s.current + 1] == '=';
    && r.Ok?
    && r.value.current == s.current + (if two then 2 else 1)
    && |r.value.tokens| == |s.tokens| + 1 && r.value.tokens[..|s.tokens|] == s.tokens
    && var t := r.value.tokens[|s.tokens|];
       && t.lexeme == (if two then [s.source[s.current], '='] else [s.source[s.current]])
       && FixedSpelling(t.kind) == t.lexeme
       && t.literal == NoLiteral && t.line == s.line
  }

  lemma OperatorCase(s: State, c: char, two: TokenType, one: TokenType)
    requires Bounded(s) && s.start == s.current && !AtEnd(s) && s.source[s.current] == c
    requires FixedSpelling(one) == [c] && FixedSpelling(two) == [c, '=']
    requires Dispatch(Next(s), c) == Ok(Operator(Next(s), two, one))
    ensures MunchedOperator(s, ScanToken(s))
  {
    assert Advance(s) == Ok((Next(s), c));
    assert ScanToken(s) == Ok(Operator(Next(s), two, one));
    if Match(Next(s), '=').0 {
      OperatorTwoChars(s, c, two, one);
    } else {
      OperatorOneChar(s, c, two, one);
    }
  }

  lemma OperatorTwoChars(s: State, c: char, two: TokenType, one: TokenType)
    requires Bounded(s) && s.start == s.current && !AtEnd(s) && s.source[s.current] == c
    requires FixedSpelling(two) == [c, '='] && Match(Next(s), '=').0
    ensures MunchedOperator(s, Ok(Operator(Next(s), two, one)))
  {
    var r := Operator(Next(s), two, one);
    assert r == AddToken(Next(Next(s)), two, NoLiteral);
    assert r.tokens[..|s.tokens|] == s.tokens;
    assert s.source[s.current..r.current] == [c, '='];
  }

  lemma OperatorOneChar(s: State, c: char, two: TokenType, one: TokenType)
    requires Bounded(s) && s.start == s.current && !AtEnd(s) && s.source[s.current] == c
    requires FixedSpelling(one) == [c] && !Match(Next(s), '=').0
    ensures MunchedOperator(s, Ok(Operator(Next(s), two, one)))
  {
    var r := Operator(Next(s), two, one);
    assert r == AddToken(Next(s), one, NoLiteral);
    assert r.tokens[..|s.tokens|] == s.tokens;
    assert s.source[s.current..r.current] == [c];
  }

  /** `!`, `=`, `<` and `>` take a following `=` into a two-character
      operator and otherwise stand alone. */
  lemma OperatorMaximalMunch(s: State)
    requires Bounded(s) && s.start == s.current && !AtEnd(s) && s.source[s.current] in "!=<>"
    ensures MunchedOperator(s, ScanToken(s))
  {
    var c := s.source[s.current];
    if c == '!' {
      OperatorCase(s, '!', BangEqual, Bang);
    } else if c == '=' {
      OperatorCase(s, '=', EqualEqual, Equal);
    } else if c == '<' {
      OperatorCase(s, '<', LessEqual, Less);
    } else {
      OperatorCase(s, '>', GreaterEqual, Greater);
    }
  }

  /** One step at `s` emitted the one-character punctuation token spelled
      as the character under the cursor, with no literal, at the current
      line, and reported nothing. */
  ghost predicate PunctuationToken(s: State, r: Outcome<State>)
    requires Bounded(s) && !AtEnd(s)
  {
    && r.Ok?
    && r.value.current == s.current + 1
    && r.value.diags == s.diags
    && |r.value.tokens| == |s.tokens| + 1 && r.value.tokens[..|s.tokens|] == s.tokens
    && r.value.spans == s.spans + [Span(s.current, s.current + 1)]
    && var t := r.value.tokens[|s.tokens|];
       && t.lexeme == [s.source[s.current]]
       && IsPunctuation(t.kind) && FixedSpelling(t.kind) == t.lexeme
       && t.literal == NoLiteral && t.line == s.line
  }

  lemma PunctuationCase(s: State, c: char, kind: TokenType)
    requires Bounded(s) && s.start == s.current && !AtEnd(s) && s.source[s.current] == c
    requires IsPunctuation(kind) && FixedSpelling(kind) == [c]
    requires Dispatch(Next(s), c) == Ok(AddToken(Next(s), kind, NoLiteral))
    ensures ScanToken(s) == Ok(AddToken(Next(s), kind, NoLiteral))
    ensures PunctuationToken(s, ScanToken(s))
  {
    assert Advance(s) == Ok((Next(s), c));
    var r := AddToken(Next(s), kind, NoLiteral);
    assert r.tokens[..|s.tokens|] == s.tokens;
    assert s.source[s.current..s.current + 1] == [c];
  }

  /** The ten punctuation characters are tokens on their own: each step on
      one emits exactly the one-character token spelled by it. */
  lemma PunctuationStep(s: State)
    requires Bounded(s) && s.start == s.current && !AtEnd(s) && s.source[s.current] in SingleCharTokens
    ensures PunctuationToken(s, ScanToken(s))
  {
    if s.source[s.current] in "(){}," {
      BracketStep(s);
    } else {
      SignStep(s);
    }
  }

  lemma BracketStep(s: State)
    requires Bounded(s) && s.start == s.current && !AtEnd(s) && s.source[s.current] in "(){},"
    ensures PunctuationToken(s, ScanToken(s))
  {
    match s.source[s.current]
    case '(' => PunctuationCase(s, '(', LeftParen);
    case ')' => PunctuationCase(s, ')', RightParen);
    case '{' => PunctuationCase(s, '{', LeftBrace);
    case '}' => PunctuationCase(s, '}', RightBrace);
    case ',' => PunctuationCase(s, ',', Comma);
  }

  lemma SignStep(s: State)
    requires Bounded(s) && s.start == s.current && !AtEnd(s) && s.source[s.current] in ".-+;*"
    ensures PunctuationToken(s, ScanToken(s))
  {
    match s.source[s.current]
    case '.' => PunctuationCase(s, '.', Dot);
    case '-' => PunctuationCase(s, '-', Minus);
    case '+' => PunctuationCase(s, '+', Plus);
    case ';' => PunctuationCase(s, ';', Semicolon);
    case '*' => PunctuationCase(s, '*', Star);
  }

  /** A digit starts exactly one Number token, cut from the cursor to the
      end of the longest numeral there (the grammar's maximal munch: a dot
      joins the number only when a digit follows it), and reports nothing. */
  lemma NumberStep(s: State)
    requires Valid(s) && s.start == s.current && !AtEnd(s) && IsDigit(s.source[s.current])
    ensures ScanToken(s).Ok?
    ensures
      var r := ScanToken(s).value;
      && EmitsOne(s, r, Number)
      && Lexed(s.source, r.tokens[|s.tokens|], Span(s.current, r.current))
  {
    var s1 := Next(s);
    DigitStep(s);
    NextValid(s);
    LexNumberValid(s1);
    EmittedLexed(s1, LexNumber(s1), Number);
  }

  /** A step on a digit is the number scanner. */
  lemma DigitStep(s: State)
    requires Bounded(s) && !AtEnd(s) && IsDigit(s.source[s.current])
    ensures ScanToken(s) == Ok(LexNumber(Next(s)))
  {
    var c := s.source[s.current];
    assert Advance(s) == Ok((Next(s), c));
    DigitDispatch(Next(s), c);
  }

  /** A double quote hands over to the string scanner. */
  lemma QuoteDispatch(s1: State)
    requires Bounded(s1) && s1.start < s1.current
    ensures Dispatch(s1, '"') == LexString(s1)
  {
  }

  lemma DigitDispatch(s1: State, c: char)
    requires Bounded(s1) && s1.start < s1.current && IsDigit(c)
    ensures Dispatch(s1, c) == Ok(LexNumber(s1))
  {
    assert c !in "(){},.-+;*!=<>/ \t\r\n\"";
  }

  /** A letter starts exactly one token: the longest run of letters and
      digits from the cursor, typed as the reserved word it spells or else
      as an Identifier; the step reports nothing. */
  lemma WordStep(s: State)
    requires Valid(s) && s.start == s.current && !AtEnd(s) && IsAlpha(s.source[s.current])
    ensures ScanToken(s).Ok?
    ensures
      var r := ScanToken(s).value;
      && EmitsOne(s, r, WordKind(s.source[s.current..r.current]))
      && Lexed(s.source, r.tokens[|s.tokens|], Span(s.current, r.current))
  {
    var s1 := Next(s);
    LetterStep(s);
    NextValid(s);
    LexIdentifierValid(s1);
    EmittedLexed(s1, LexIdentifier(s1), WordKind(s.source[s.current..LexIdentifier(s1).current]));
  }

  /** A step on a letter is the identifier scanner. */
  lemma LetterStep(s: State)
    requires Bounded(s) && !AtEnd(s) && IsAlpha(s.source[s.current])
    ensures ScanToken(s) == Ok(LexIdentifier(Next(s)))
  {
    var c := s.source[s.current];
    assert Advance(s) == Ok((Next(s), c));
    LetterDispatch(Next(s), c);
  }

  lemma LetterDispatch(s1: State, c: char)
    requires Bounded(s1) && s1.start < s1.current && IsAlpha(c)
    ensures Dispatch(s1, c) == Ok(LexIdentifier(s1))
  {
    assert c !in "(){},.-+;*!=<>/ \t\r\n\"";
  }

  /** A dot that no digit follows is not part of the number before it: the
      number stops at the dot, and the next step emits the dot as a Dot
      token ("123." is a Number and a Dot). */
  lemma TrailingDot(s: State, e: nat)
    requires Bounded(s) && s.start == s.current && s.current < e < |s.source|
    requires forall k :: s.current <= k < e ==> IsDigit(s.source[k])
    requires s.source[e] == '.' && !IsDigit(CharAt(s.source, e + 1))
    ensures ScanToken(s).Ok? && ScanToken(s).value.current == e
    ensures
      var r := ScanToken(s).value;
      var text := s.source[s.current..e];
      && r.tokens == s.tokens + [Token(Number, text, Numeral(text), s.line)]
      && ScanToken(r.(start := e)) == Ok(AddToken(Next(r.(start := e)), Dot, NoLiteral))
      && PunctuationToken(r.(start := e), ScanToken(r.(start := e)))
  {
    var s1 := Next(s);
    DigitStep(s);
    ConsumeWhileStopsAtFirstFailure(s1, IsDigit, e);
    var r := AddToken(s1.(current := e), Number, Numeral(s.source[s.current..e]));
    assert ScanToken(s) == Ok(r);
    PunctuationCase(r.(start := e), '.', Dot);
  }

  /** `//` runs to the next newline (which it leaves for the next step) or
      to the end of input, and emits nothing. */
  lemma LineComment(s: State)
    requires Bounded(s) && s.start == s.current && s.current + 1 < |s.source|
    requires s.source[s.current] == '/' && s.source[s.current + 1] == '/'
    ensures ScanToken(s).Ok?
    ensures
      var r := ScanToken(s).value;
      && r.tokens == s.tokens && r.spans == s.spans && r.diags == s.diags && r.line == s.line
      && (forall k :: s.current + 2 <= k < r.current ==> s.source[k] != '\n')
      && (r.current == |s.source| || s.source[r.current] == '\n')
  {
  }

  /** A slash not followed by a second slash is a Slash token. */
  lemma LoneSlash(s: State)
    requires Bounded(s) && s.start == s.current && !AtEnd(s) && s.source[s.current] == '/'
    requires !(s.current + 1 < |s.source| && s.source[s.current + 1] == '/')
    ensures ScanToken(s).Ok?
    ensures
      var r := ScanToken(s).value;
      && r.current == s.current + 1
      && r.tokens == s.tokens + [Token(Slash, "/", NoLiteral, s.line)]
      && r.diags == s.diags
  {
    assert s.source[s.current..s.current + 1] == "/";
  }

  /** A character the dispatch does not know is skipped with exactly one
      diagnostic at the current line; nothing else changes. */
  lemma UnexpectedCharacterStep(s: State)
    requires Bounded(s) && !AtEnd(s) && !IsExpected(s.source[s.current])
    ensures ScanToken(s) == Ok(s.(current := s.current + 1, diags := s.diags + [Diagnostic(s.line, UnexpectedCharacter)]))
  {
  }

  /** A space, tab or carriage return is skipped: the cursor moves past it
      and nothing else changes. A newline is skipped the same way and also
      starts the next line. Neither emits a token or a diagnostic. */
  lemma BlankStep(s: State)
    requires Bounded(s) && !AtEnd(s)
    ensures s.source[s.current] in " \t\r" ==> ScanToken(s) == Ok(s.(current := s.current + 1))
    ensures s.source[s.current] == '\n' ==> ScanToken(s) == Ok(s.(current := s.current + 1, line := s.line + 1))
  {
  }

  /** The branches of the dispatch that scan a literal or a name report
      nothing. */
  lemma LiteralStepReportsNothing(s1: State, c: char)
    requires Bounded(s1) && s1.start < s1.current && (c == '"' || IsAlphaNumeric(c))
    ensures Dispatch(s1, c).Ok? ==> Dispatch(s1, c).value.diags == s1.diags
  {
    if c == '"' {
      QuoteDispatch(s1);
    } else if IsDigit(c) {
      DigitDispatch(s1, c);
    } else {
      LetterDispatch(s1, c);
    }
  }

  /** The branches of the dispatch for punctuation, operators, slashes and
      blanks report nothing. */
  lemma SymbolStepReportsNothing(s1: State, c: char)
    requires Bounded(s1) && s1.start < s1.current && c in "(){},.-+;*!=<>/ \t\r\n"
    ensures Dispatch(s1, c).Ok? && Dispatch(s1, c).value.diags == s1.diags
  {
    if c in SingleCharTokens {
      PunctuationReportsNothing(s1, c);
    } else if c in "!=<>" {
      OperatorReportsNothing(s1, c);
    } else if c == '/' {
      var (comment, s2) := Match(s1, '/');
      assert Dispatch(s1, c) == if comment then Ok(ConsumeWhile(s2, NotNewline)) else Ok(AddToken(s2, Slash, NoLiteral));
    } else {
      BlankReportsNothing(s1, c);
    }
  }

  lemma PunctuationReportsNothing(s1: State, c: char)
    requires Bounded(s1) && s1.start < s1.current && c in SingleCharTokens
    ensures Dispatch(s1, c).Ok? && Dispatch(s1, c).value.diags == s1.diags
  {
  }

  lemma OperatorReportsNothing(s1: State, c: char)
    requires Bounded(s1) && s1.start < s1.current && c in "!=<>"
    ensures Dispatch(s1, c).Ok? && Dispatch(s1, c).value.diags == s1.diags
  {
  }

  lemma BlankReportsNothing(s1: State, c: char)
    requires Bounded(s1) && s1.start < s1.current && c in " \t\r\n"
    ensures Dispatch(s1, c).Ok? && Dispatch(s1, c).value.diags == s1.diags
  {
  }

  /** A step that starts on a known character reports nothing. */
  lemma ExpectedStepReportsNothing(s: State)
    requires Bounded(s) && !AtEnd(s) && IsExpected(s.source[s.current])
    ensures ScanToken(s).Ok? ==> ScanToken(s).value.diags == s.diags
  {
    var c := s.source[s.current];
    var s1 := Next(s);
    assert ScanToken(s) == Dispatch(s1, c);
    if c in "(){},.-+;*!=<>/ \t\r\n" {
      SymbolStepReportsNothing(s1, c);
    } else {
      LiteralStepReportsNothing(s1, c);
    }
  }

  /** The string scanner on a literal that a later double quote closes:
      the token ends just after that quote. */
  lemma ClosedStringResult(s1: State)
    requires Bounded(s1) && s1.start + 1 == s1.current && !NoQuoteFrom(s1.source, s1.current)
    ensures
      var body := StringBody(s1);
      && !AtEnd(body) && s1.source[body.current] == '"'
      && LexString(s1) == Ok(AddToken(Next(body), String, Text(s1.source[s1.current..body.current])))
  {
    var body := StringBody(s1);
    var j :| s1.current <= j < |s1.source| && s1.source[j] == '"';
    assert body.current <= j;
    ClosedAfterBody(s1, body);
  }

  /** The string scanner on a literal that no later double quote closes:
      the report at the end of the body, then the fault. */
  lemma UnclosedStringResult(s1: State)
    requires Bounded(s1) && s1.start < s1.current && NoQuoteFrom(s1.source, s1.current)
    ensures StringBody(s1).current == |s1.source|
    ensures LexString(s1) == Fault(Report(StringBody(s1), UnclosedString))
  {
    var body := StringBody(s1);
    assert Advance(Report(body, UnclosedString)) == Fault(Report(body, UnclosedString));
  }

  /** A closed string literal is one String token whose literal is the text
      strictly between the quotes. It carries the line of its closing quote:
      the line counter rises once per newline inside it. */
  lemma TerminatedString(s: State)
    requires Valid(s) && s.start == s.current && !AtEnd(s)
    requires s.source[s.current] == '"' && !NoQuoteFrom(s.source, s.current + 1)
    ensures ScanToken(s).Ok?
    ensures
      var r := ScanToken(s).value;
      var text := s.source[s.current + 1..r.current - 1];
      && s.current + 2 <= r.current
      && s.source[r.current - 1] == '"'
      && (forall k :: 0 <= k < |text| ==> text[k] != '"')
      && r.tokens == s.tokens + [Token(String, s.source[s.current..r.current], Text(text), r.line)]
      && r.line == s.line + Newlines(text)
      && r.diags == s.diags
  {
    var src := s.source;
    var s1 := Next(s);
    QuoteStep(s);
    ClosedStringResult(s1);
    var body := StringBody(s1);
    var r := AddToken(Next(body), String, Text(src[s1.current..body.current]));
    assert ScanToken(s).value == r;
    ClosedStringLine(s);
    assert body == s1.(current := body.current, line := body.line);
    assert r.current == body.current + 1 && r.line == body.line && r.diags == s.diags;
    assert r.tokens == s.tokens + [Token(String, src[s.current..r.current], Text(src[s1.current..body.current]), r.line)];
  }

  /** A step on a double quote is the string scanner. */
  lemma QuoteStep(s: State)
    requires Bounded(s) && !AtEnd(s) && s.source[s.current] == '"'
    ensures ScanToken(s) == LexString(Next(s))
  {
    assert Advance(s) == Ok((Next(s), '"'));
  }

  /** The line after a closed string literal is the line of its opening
      quote plus the newlines strictly between the quotes. */
  lemma ClosedStringLine(s: State)
    requires Valid(s) && s.start == s.current && !AtEnd(s)
    requires s.source[s.current] == '"' && !NoQuoteFrom(s.source, s.current + 1)
    ensures
      var body := StringBody(Next(s));
      && body.current < |s.source|
      && body.line == s.line + Newlines(s.source[s.current + 1..body.current])
  {
    var s1 := Next(s);
    LineAtNext(s.source, s.current);
    StringBodyLines(s1);
    ClosedStringResult(s1);
    var body := StringBody(s1);
    LineAtRange(s.source, s.current + 1, body.current);
  }

  /** A string literal that no later double quote closes is reported at the
      last line, and the scanner then faults instead of recovering. */
  lemma UnterminatedString(s: State)
    requires Valid(s) && s.start == s.current && !AtEnd(s)
    requires s.source[s.current] == '"' && NoQuoteFrom(s.source, s.current + 1)
    ensures ScanToken(s).Fault?
    ensures
      var at := ScanToken(s).at;
      && at.tokens == s.tokens
      && at.diags == s.diags + [Diagnostic(LineAt(s.source, |s.source|), UnclosedString)]
  {
    ScanTokenValid(s);
  }

  /** The line counter never goes back within a step. */
  lemma ScanTokenLineMonotone(s: State)
    requires Valid(s) && s.start == s.current && !AtEnd(s)
    ensures ScanToken(s).Ok? ==> ScanToken(s).value.line >= s.line
  {
    ScanTokenValid(s);
    if ScanToken(s).Ok? {
      LineAtMonotone(s.source, s.current, ScanToken(s).value.current);
    }
  }

  // ---------------------------------------------------------------------
  // The whole scan

  lemma InitValid(source: string)
    ensures Valid(Init(source))
  {
    assert source[..0] == [];
  }

  /** The final state of a scan that does not fault. */
  lemma ScannedFrom(source: string)
    requires ScanTokens(source).Scanned?
    ensures ScanLoop(Init(source)).Ok?
    ensures
      var s := ScanLoop(Init(source)).value;
      && Valid(s) && s.current == |source| && s.source == source
      && ScanTokens(source) == Scanned(s.tokens + [Token(Eof, "", NoLiteral, s.line)], s.spans, s.diags)
  {
    InitValid(source);
    ScanLoopValid(Init(source));
  }

  /** The state a faulting scan stops in. */
  lemma FaultedFrom(source: string)
    requires ScanTokens(source).Faulted?
    ensures ScanLoop(Init(source)).Fault?
    ensures
      var at := ScanLoop(Init(source)).at;
      && ScanTokens(source) == Faulted(EndOfSource, at.diags)
      && |at.diags| > 0 && at.diags[|at.diags| - 1] == Diagnostic(at.line, UnclosedString)
      && at.line == LineAt(source, |source|)
  {
    InitValid(source);
    ScanLoopValid(Init(source));
  }

  /** A completed scan ends in exactly one Eof token, with an empty lexeme,
      no literal, and the line the end of the source is on. */
  lemma EofSentinel(source: string)
    ensures
      var r := ScanTokens(source);
      r.Scanned? ==>
        && |r.tokens| >= 1
        && r.tokens[|r.tokens| - 1] == Token(Eof, "", NoLiteral, LineAt(source, |source|))
        && (forall i :: 0 <= i < |r.tokens| - 1 ==> r.tokens[i].kind != Eof)
  {
    if ScanTokens(source).Scanned? {
      ScannedFrom(source);
      var s := ScanLoop(Init(source)).value;
      var r := ScanTokens(source);
      NoEofToken(s);
      forall i | 0 <= i < |r.tokens| - 1
        ensures r.tokens[i].kind != Eof
      {
        assert r.tokens[i] == s.tokens[i];
      }
    }
  }

  /** Every token but Eof is the source slice at its span and is a
      well-formed, maximal token there; the spans follow source order
      without overlap. */
  lemma TokensMatchSource(source: string)
    ensures
      var r := ScanTokens(source);
      r.Scanned? ==>
        && |r.spans| == |r.tokens| - 1
        && (forall i :: 0 <= i < |r.spans| ==> Lexed(source, r.tokens[i], r.spans[i]))
        && (forall i, j :: 0 <= i < j < |r.spans| ==> r.spans[i].end <= r.spans[j].start)
  {
    if ScanTokens(source).Scanned? {
      ScannedFrom(source);
      var s := ScanLoop(Init(source)).value;
      var r := ScanTokens(source);
      forall i | 0 <= i < |r.spans|
        ensures Lexed(source, r.tokens[i], r.spans[i])
      {
        assert r.tokens[i] == s.tokens[i];
      }
    }
  }

  /** Token lines never decrease along the sequence, Eof included. */
  lemma LinesMonotone(source: string)
    ensures
      var r := ScanTokens(source);
      r.Scanned? ==> forall i, j :: 0 <= i < j < |r.tokens| ==> r.tokens[i].line <= r.tokens[j].line
  {
    if ScanTokens(source).Scanned? {
      ScannedFrom(source);
      var s := ScanLoop(Init(source)).value;
      var r := ScanTokens(source);
      forall i, j | 0 <= i < j < |r.tokens|
        ensures r.tokens[i].line <= r.tokens[j].line
      {
        assert r.tokens[i] == s.tokens[i] && Lexed(source, s.tokens[i], s.spans[i]);
        if j < |s.tokens| {
          assert r.tokens[j] == s.tokens[j] && Lexed(source, s.tokens[j], s.spans[j]);
          LineAtMonotone(source, s.spans[i].end, s.spans[j].end);
        } else {
          LineAtMonotone(source, s.spans[i].end, |source|);
        }
      }
    }
  }

  /** A well-formed token whose lexeme starts with a letter is the reserved
      word it spells, or an Identifier when its lexeme is not in the table. */
  lemma LetterTokenKind(t: Token)
    requires WellFormed(t) && |t.lexeme| > 0 && IsAlpha(t.lexeme[0])
    ensures t.kind == WordKind(t.lexeme)
  {
    LexemeStart(t);
    SymbolSpellings();
    KeywordTableComplete();
  }

  /** A well-formed string starts with a quote and a well-formed number
      with a digit. */
  lemma LexemeStart(t: Token)
    requires WellFormed(t)
    ensures t.kind == String ==> |t.lexeme| > 0 && t.lexeme[0] == '"'
    ensures t.kind == Number ==> |t.lexeme| > 0 && IsDigit(t.lexeme[0])
  {
    if t.kind == Number && !IsDigits(t.lexeme) {
      var k :| 0 < k < |t.lexeme| - 1 && t.lexeme[k] == '.' && IsDigits(t.lexeme[..k]) && IsDigits(t.lexeme[k + 1..]);
      assert t.lexeme[..k][0] == t.lexeme[0];
    }
  }

  /** The fixed spellings that are not reserved words start with a symbol. */
  lemma SymbolSpellings()
    ensures forall k :: !IsKeyword(k) && |FixedSpelling(k)| > 0 ==> !IsAlpha(FixedSpelling(k)[0])
  {
  }

  /** In a completed scan, a token that starts with a letter is the reserved
      word its lexeme spells, or an Identifier when the lexeme is not in the
      table: "class" is Class, "classroom" is one Identifier. */
  lemma KeywordOrIdentifier(source: string)
    ensures
      var r := ScanTokens(source);
      r.Scanned? ==>
        forall i :: 0 <= i < |r.tokens| - 1 && |r.tokens[i].lexeme| > 0 && IsAlpha(r.tokens[i].lexeme[0]) ==>
          r.tokens[i].kind == WordKind(r.tokens[i].lexeme)
  {
    if ScanTokens(source).Scanned? {
      TokensMatchSource(source);
      var r := ScanTokens(source);
      forall i | 0 <= i < |r.tokens| - 1 && |r.tokens[i].lexeme| > 0 && IsAlpha(r.tokens[i].lexeme[0])
        ensures r.tokens[i].kind == WordKind(r.tokens[i].lexeme)
      {
        LetterTokenKind(r.tokens[i]);
      }
    }
  }

  /** A scan faults only on an unclosed string: the last diagnostic is then
      the unclosed-string report at the line the end of the source is on. */
  lemma FaultIsUnclosedString(source: string)
    ensures
      var r := ScanTokens(source);
      r.Faulted? ==>
        && r.message == EndOfSource
        && |r.diags| > 0
        && r.diags[|r.diags| - 1] == Diagnostic(LineAt(source, |source|), UnclosedString)
  {
    if ScanTokens(source).Faulted? {
      FaultedFrom(source);
    }
  }

  lemma {:induction false} NoQuoteLoop(s: State)
    requires Bounded(s) && NoQuoteFrom(s.source, s.current)
    ensures ScanLoop(s).Ok?
    decreases |s.source| - s.current
  {
    if !AtEnd(s) {
      var s1 := ScanToken(s.(start := s.current));
      NoQuoteLoop(s1.value);
    }
  }

  /** A source with no double quote never faults. */
  lemma NoQuoteNeverFaults(source: string)
    requires NoQuoteFrom(source, 0)
    ensures ScanTokens(source).Scanned?
  {
    NoQuoteLoop(Init(source));
  }

  lemma {:induction false} ExpectedLoop(s: State)
    requires Bounded(s)
    requires forall k :: s.current <= k < |s.source| ==> IsExpected(s.source[k])
    ensures ScanLoop(s).Ok? ==> ScanLoop(s).value.diags == s.diags
    decreases |s.source| - s.current
  {
    if !AtEnd(s) {
      var s0 := s.(start := s.current);
      ExpectedStepReportsNothing(s0);
      match ScanToken(s0)
      case Fault(_) =>
      case Ok(s1) => ExpectedLoop(s1);
    }
  }

  /** A source made only of characters the scanner knows is scanned without
      a single diagnostic, or faults on an unclosed string. */
  lemma ExpectedSourceReportsNothing(source: string)
    requires forall k :: 0 <= k < |source| ==> IsExpected(source[k])
    ensures ScanTokens(source).Scanned? ==> ScanTokens(source).diags == []
  {
    ExpectedLoop(Init(source));
  }
}
