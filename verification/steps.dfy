/** Every branch of the one-lexeme step keeps the scan invariant and emits
    a token that the reference grammar admits at its span. */
module ScanSteps {
  import opened Lexicon
  import opened Grammar
  import opened Cursor
  import opened Scanner
  import opened ScanInvariants

  /** The ten single-character punctuation types, which need no lookahead. */
  predicate IsPunctuation(k: TokenType) {
    k in {LeftParen, RightParen, LeftBrace, RightBrace, Comma, Dot, Minus, Plus, Semicolon, Star}
  }

  /** The four one-character operators that have a two-character form. */
  predicate IsOperatorPair(two: TokenType, one: TokenType) {
    || (two == BangEqual && one == Bang)
    || (two == EqualEqual && one == Equal)
    || (two == LessEqual && one == Less)
    || (two == GreaterEqual && one == Greater)
  }

  /** The state right after the first character of a lexeme was consumed. */
  ghost predicate AfterFirst(s: State) {
    && Valid(s) && AtLexemeStart(s)
    && s.current == s.start + 1
  }

  lemma PunctuationValid(s: State, kind: TokenType)
    requires AfterFirst(s) && IsPunctuation(kind)
    requires FixedSpelling(kind) == [s.source[s.start]]
    ensures Valid(AddToken(s, kind, NoLiteral)) && Emits(s, AddToken(s, kind, NoLiteral))
    ensures EmitsOne(s, AddToken(s, kind, NoLiteral), kind)
  {
    AddTokenValid(s, kind, NoLiteral);
  }

  lemma OperatorValid(s: State, two: TokenType, one: TokenType)
    requires AfterFirst(s) && IsOperatorPair(two, one)
    requires FixedSpelling(one) == [s.source[s.start]]
    ensures Valid(Operator(s, two, one)) && Emits(s, Operator(s, two, one))
    ensures EmitsOne(s, Operator(s, two, one), if Match(s, '=').0 then two else one)
  {
    if Match(s, '=').0 {
      TwoCharOperatorValid(s, two, one);
    } else {
      assert Operator(s, two, one) == AddToken(s, one, NoLiteral);
      AddTokenValid(s, one, NoLiteral);
    }
  }

  /** The operator followed by '=' is the two-character form. */
  lemma TwoCharOperatorValid(s: State, two: TokenType, one: TokenType)
    requires AfterFirst(s) && IsOperatorPair(two, one) && Match(s, '=').0
    requires FixedSpelling(one) == [s.source[s.start]]
    ensures Operator(s, two, one) == AddToken(Next(s), two, NoLiteral)
    ensures Valid(Operator(s, two, one)) && Emits(s, Operator(s, two, one))
    ensures EmitsOne(s, Operator(s, two, one), two)
  {
    var s1 := Next(s);
    NextValid(s);
    assert s.source[s.start..s1.current] == [s.source[s.start], '='];
    AddTokenValid(s1, two, NoLiteral);
  }

  lemma SlashValid(s: State)
    requires AfterFirst(s) && s.source[s.start] == '/' && !Match(s, '/').0
    ensures Valid(AddToken(s, Slash, NoLiteral)) && Emits(s, AddToken(s, Slash, NoLiteral))
    ensures EmitsOne(s, AddToken(s, Slash, NoLiteral), Slash)
  {
    AddTokenValid(s, Slash, NoLiteral);
  }

  lemma CommentValid(s: State)
    requires AfterFirst(s) && Match(s, '/').0
    ensures Valid(ConsumeWhile(Match(s, '/').1, NotNewline))
    ensures Emits(s, ConsumeWhile(Match(s, '/').1, NotNewline))
  {
    NextValid(s);
    ConsumeWhileValid(Match(s, '/').1, NotNewline);
  }

  /** A slice of digits is a digit run. */
  lemma DigitsSlice(src: string, a: nat, b: nat)
    requires a < b <= |src|
    requires forall k :: a <= k < b ==> IsDigit(src[k])
    ensures IsDigits(src[a..b])
  {
    var w := src[a..b];
    forall i | 0 <= i < |w|
      ensures IsDigit(w[i])
    {
      assert w[i] == src[a + i];
    }
  }

  /** Digits, a dot at `m`, and digits again make a number with a fraction. */
  lemma FractionText(src: string, a: nat, m: nat, b: nat)
    requires a < m && m + 1 < b <= |src| && src[m] == '.'
    requires IsDigits(src[a..m]) && IsDigits(src[m + 1..b])
    ensures IsNumberText(src[a..b]) && !IsDigits(src[a..b])
  {
    var w := src[a..b];
    var k := m - a;
    assert w[..k] == src[a..m];
    assert w[k + 1..] == src[m + 1..b];
    assert w[k] == '.';
  }

  /** The text from `a` to `e` is a Number token on line `line`. */
  ghost predicate LexedNumber(src: string, a: nat, e: nat, line: nat) {
    a < e <= |src| && Lexed(src, Token(Number, src[a..e], Numeral(src[a..e]), line), Span(a, e))
  }

  /** A digit run that no fraction follows is a Number token at its span. */
  lemma WholeNumberLexed(src: string, a: nat, e: nat, line: nat)
    requires a < e <= |src| && (forall k :: a <= k < e ==> IsDigit(src[k]))
    requires !IsDigit(CharAt(src, e)) && !(CharAt(src, e) == '.' && IsDigit(CharAt(src, e + 1)))
    requires line == LineAt(src, e)
    ensures LexedNumber(src, a, e, line)
  {
    DigitsSlice(src, a, e);
  }

  /** Digits, a dot at `m` and digits up to `e` are a Number token at
      their span. */
  lemma FractionLexed(src: string, a: nat, m: nat, e: nat, line: nat)
    requires a < m && m + 1 < e <= |src| && src[m] == '.'
    requires forall k :: a <= k < m ==> IsDigit(src[k])
    requires forall k :: m + 1 <= k < e ==> IsDigit(src[k])
    requires !IsDigit(CharAt(src, e)) && line == LineAt(src, e)
    ensures LexedNumber(src, a, e, line)
  {
    DigitsSlice(src, a, m);
    DigitsSlice(src, m + 1, e);
    FractionText(src, a, m, e);
  }

  /** A digit run stops before the first non-digit. */
  lemma DigitRun(s: State)
    requires Bounded(s)
    ensures
      var r := ConsumeWhile(s, IsDigit);
      && r == s.(current := r.current)
      && (forall k :: s.current <= k < r.current ==> IsDigit(s.source[k]))
      && !IsDigit(CharAt(s.source, r.current))
  {
  }

  /** A number with no fractional part. */
  lemma LexWholeNumberValid(s: State)
    requires AfterFirst(s) && IsDigit(s.source[s.start])
    requires var s1 := ConsumeWhile(s, IsDigit); !(Peek(s1) == '.' && IsDigit(PeekNext(s1)))
    ensures Valid(LexNumber(s)) && Emits(s, LexNumber(s))
    ensures EmitsOne(s, LexNumber(s), Number)
  {
    var s1 := ConsumeWhile(s, IsDigit);
    WholeNumberHere(s);
    assert LexNumber(s) == AddToken(s1, Number, Numeral(s.source[s.start..s1.current]));
    AddTokenAfterRun(s, s1, Number, Numeral(s.source[s.start..s1.current]));
  }

  /** The digit run of a number with no fractional part ends a Number
      lexeme, in a state that still satisfies the invariant. */
  lemma WholeNumberHere(s: State)
    requires AfterFirst(s) && IsDigit(s.source[s.start])
    requires var s1 := ConsumeWhile(s, IsDigit); !(Peek(s1) == '.' && IsDigit(PeekNext(s1)))
    ensures
      var s1 := ConsumeWhile(s, IsDigit);
      && s1 == s.(current := s1.current) && Valid(s1) && AtLexemeStart(s1)
      && LexedHere(s1, Number, Numeral(s.source[s.start..s1.current]))
  {
    var src := s.source;
    var s1 := ConsumeWhile(s, IsDigit);
    DigitRun(s);
    ConsumeWhileValid(s, IsDigit);
    WholeNumberLexed(src, s.start, s1.current, s1.line);
  }

  /** A number with a fractional part. */
  lemma LexFractionValid(s: State)
    requires AfterFirst(s) && IsDigit(s.source[s.start])
    requires var s1 := ConsumeWhile(s, IsDigit); Peek(s1) == '.' && IsDigit(PeekNext(s1))
    ensures Valid(LexNumber(s)) && Emits(s, LexNumber(s))
    ensures EmitsOne(s, LexNumber(s), Number)
  {
    var src := s.source;
    var s2 := ConsumeWhile(Next(ConsumeWhile(s, IsDigit)), IsDigit);
    FractionRunValid(s);
    FractionShape(s);
    FractionToken(s);
    AddTokenValid(s2, Number, Numeral(src[s.start..s2.current]));
  }

  /** A number with a fraction is emitted after the second digit run. */
  lemma FractionShape(s: State)
    requires Bounded(s) && s.start < s.current
    requires var s1 := ConsumeWhile(s, IsDigit); Peek(s1) == '.' && IsDigit(PeekNext(s1))
    ensures
      var s2 := ConsumeWhile(Next(ConsumeWhile(s, IsDigit)), IsDigit);
      LexNumber(s) == AddToken(s2, Number, Numeral(s.source[s.start..s2.current]))
  {
  }

  /** The text a number with a fraction spans is a Number token there. */
  lemma FractionToken(s: State)
    requires Bounded(s) && s.start + 1 == s.current && IsDigit(s.source[s.start])
    requires var s1 := ConsumeWhile(s, IsDigit); Peek(s1) == '.' && IsDigit(PeekNext(s1))
    ensures
      var s2 := ConsumeWhile(Next(ConsumeWhile(s, IsDigit)), IsDigit);
      LexedNumber(s.source, s.start, s2.current, LineAt(s.source, s2.current))
  {
    var src := s.source;
    var s1 := ConsumeWhile(s, IsDigit);
    var s2 := ConsumeWhile(Next(s1), IsDigit);
    DigitRun(s);
    DigitRun(Next(s1));
    FractionLexed(src, s.start, s1.current, s2.current, LineAt(src, s2.current));
  }

  /** The cursor after the digits, the dot and the second digit run still
      satisfies the invariant. */
  lemma FractionRunValid(s: State)
    requires AfterFirst(s) && IsDigit(s.source[s.start])
    requires var s1 := ConsumeWhile(s, IsDigit); Peek(s1) == '.' && IsDigit(PeekNext(s1))
    ensures
      var s2 := ConsumeWhile(Next(ConsumeWhile(s, IsDigit)), IsDigit);
      Valid(s2) && AtLexemeStart(s2) && s2.start < s2.current && s2.line == LineAt(s.source, s2.current)
  {
    var s1 := ConsumeWhile(s, IsDigit);
    ConsumeWhileValid(s, IsDigit);
    NextValid(s1);
    ConsumeWhileValid(Next(s1), IsDigit);
  }

  lemma LexNumberValid(s: State)
    requires AfterFirst(s) && IsDigit(s.source[s.start])
    ensures Valid(LexNumber(s)) && Emits(s, LexNumber(s))
    ensures EmitsOne(s, LexNumber(s), Number)
  {
    var s1 := ConsumeWhile(s, IsDigit);
    if Peek(s1) == '.' && IsDigit(PeekNext(s1)) {
      LexFractionValid(s);
    } else {
      LexWholeNumberValid(s);
    }
  }

  lemma LexIdentifierValid(s: State)
    requires AfterFirst(s) && IsAlpha(s.source[s.start])
    ensures Valid(LexIdentifier(s)) && Emits(s, LexIdentifier(s))
    ensures EmitsOne(s, LexIdentifier(s), WordKind(s.source[s.start..LexIdentifier(s).current]))
  {
    var s1 := ConsumeWhile(s, IsAlphaNumeric);
    WordRun(s);
    ConsumeWhileValid(s, IsAlphaNumeric);
    WordLexed(s.source, s.start, s1.current, s1.line);
    var text := s.source[s.start..s1.current];
    AddTokenValid(s1, WordKind(text), NoLiteral);
  }

  /** A run of ASCII letters and digits stops before the first character
      outside that class, such as `_`. */
  lemma WordRun(s: State)
    requires Bounded(s)
    ensures
      var r := ConsumeWhile(s, IsAlphaNumeric);
      && r == s.(current := r.current)
      && (forall k :: s.current <= k < r.current ==> IsAlphaNumeric(s.source[k]))
      && !IsAlphaNumeric(CharAt(s.source, r.current))
  {
  }

  /** The text from `a` to `e` is an identifier or reserved-word token on
      line `line`. */
  ghost predicate LexedWord(src: string, a: nat, e: nat, line: nat) {
    && a < e <= |src|
    && var text := src[a..e];
       Lexed(src, Token(WordKind(text), text, NoLiteral, line), Span(a, e))
  }

  /** A letter followed by a maximal alphanumeric run is an identifier, or
      the reserved word it spells. */
  lemma WordLexed(src: string, a: nat, e: nat, line: nat)
    requires a < e <= |src| && IsAlpha(src[a]) && (forall k :: a <= k < e ==> IsAlphaNumeric(src[k]))
    requires !IsAlphaNumeric(CharAt(src, e)) && line == LineAt(src, e)
    ensures LexedWord(src, a, e, line)
  {
    var text := src[a..e];
    assert IsIdentifierText(text) by {
      forall i | 0 <= i < |text|
        ensures IsAlphaNumeric(text[i])
      {
        assert text[i] == src[a + i];
      }
    }
    KeywordSpellings();
  }

  /** An unclosed string literal is reported at the end of input. */
  lemma UnclosedStringValid(s: State)
    requires AfterFirst(s) && s.source[s.start] == '"' && NoQuoteFrom(s.source, s.current)
    ensures LexString(s).Fault?
    ensures
      var at := LexString(s).at;
      && Valid(at) && at.source == s.source && at.current == |s.source|
      && at.tokens == s.tokens && at.spans == s.spans
      && at.diags == s.diags + [Diagnostic(at.line, UnclosedString)]
  {
    var s1 := StringBody(s);
    StringBodyValid(s);
    ReportValid(s1, UnclosedString);
    assert LexString(s).at == Report(s1, UnclosedString);
  }

  /** A closed string literal is a well-formed String token. */
  lemma ClosedStringValid(s: State)
    requires AfterFirst(s) && s.source[s.start] == '"' && !NoQuoteFrom(s.source, s.current)
    ensures LexString(s).Ok?
    ensures Valid(LexString(s).value) && Emits(s, LexString(s).value)
    ensures EmitsOne(s, LexString(s).value, String)
  {
    var body := StringBody(s);
    BodyStopsAtQuote(s);
    ClosedStringToken(s);
    ClosedAfterBody(s, body);
    ClosingQuoteValid(s);
    var s3 := Next(body);
    var e := body.current;
    assert s3.start == s.start && s3.current == e + 1 && s3.line == body.line && s3.source == s.source;
    StringHere(s3, e);
    AddTokenValid(s3, String, Text(s.source[s.current..e]));
  }

  /** A String token delimited at the lexeme's ends is lexed here. */
  lemma StringHere(t: State, e: nat)
    requires t.current == e + 1 && LexedString(t.source, t.start, e, t.line)
    ensures LexedHere(t, String, Text(t.source[t.start + 1..e]))
  {
  }

  /** The lexeme from the opening quote through the closing quote is a
      well-formed String token at the line after the closing quote. */
  lemma ClosedStringToken(s: State)
    requires Bounded(s) && s.start + 1 == s.current && s.line == LineAt(s.source, s.current)
    requires s.source[s.start] == '"' && !NoQuoteFrom(s.source, s.current)
    ensures !AtEnd(StringBody(s))
    ensures LexedString(s.source, s.start, StringBody(s).current, StringBody(s).line)
  {
    var body := StringBody(s);
    BodyStopsAtQuote(s);
    StringBodyLines(s);
    StringTokenAt(s.source, s.start, body.current, body.line);
  }

  /** The cursor after the closing quote still satisfies the invariant. */
  lemma ClosingQuoteValid(s: State)
    requires AfterFirst(s) && !AtEnd(StringBody(s)) && s.source[StringBody(s).current] == '"'
    ensures
      var s3 := Next(StringBody(s));
      && Valid(s3) && AtLexemeStart(s3) && s3.start < s3.current
      && s3 == s.(current := s3.current, line := s3.line)
  {
    StringBodyValid(s);
    NextValid(StringBody(s));
  }

  /** The body of a string literal that a later quote closes stops on a
      quote. */
  lemma BodyStopsAtQuote(s: State)
    requires Bounded(s) && s.start + 1 == s.current && !NoQuoteFrom(s.source, s.current)
    ensures !AtEnd(StringBody(s)) && s.source[StringBody(s).current] == '"'
    ensures forall k :: s.start < k < StringBody(s).current ==> s.source[k] != '"'
  {
    var j :| s.current <= j < |s.source| && s.source[j] == '"';
    assert StringBody(s).current <= j;
  }

  /** The quotes at `a` and `e` delimit a String token on line `line`. */
  ghost predicate LexedString(src: string, a: nat, e: nat, line: nat) {
    a < e < |src| && Lexed(src, Token(String, src[a..e + 1], Text(src[a + 1..e]), line), Span(a, e + 1))
  }

  /** The same token, at the line of the closing quote. */
  lemma StringTokenAt(src: string, a: nat, e: nat, line: nat)
    requires a < e < |src| && src[a] == '"' && src[e] == '"' && line == LineAt(src, e)
    requires forall k :: a < k < e ==> src[k] != '"'
    ensures LexedString(src, a, e, line)
  {
    LineAtNext(src, e);
    StringLexed(src, a, e);
  }

  /** From a quote to the next quote is a String token whose literal is the
      text between them. */
  lemma StringLexed(src: string, a: nat, e: nat)
    requires a < e < |src| && src[a] == '"' && src[e] == '"'
    requires forall k :: a < k < e ==> src[k] != '"'
    ensures Lexed(src, Token(String, src[a..e + 1], Text(src[a + 1..e]), LineAt(src, e + 1)), Span(a, e + 1))
  {
    var lexeme := src[a..e + 1];
    assert lexeme[0] == '"' && lexeme[|lexeme| - 1] == '"';
    forall i | 0 < i < |lexeme| - 1
      ensures lexeme[i] != '"'
    {
      assert lexeme[i] == src[a + i];
    }
    assert IsStringText(lexeme);
    var inner := lexeme[1..|lexeme| - 1];
    forall i | 0 <= i < |inner|
      ensures inner[i] == src[a + 1 + i]
    {
      assert inner[i] == lexeme[1 + i];
    }
    assert inner == src[a + 1..e];
  }

  /** The tail of the string scanner once the body stops on a quote. */
  lemma ClosedAfterBody(s1: State, body: State)
    requires Bounded(s1) && s1.start + 1 == s1.current && body == StringBody(s1) && !AtEnd(body)
    ensures LexString(s1) == Ok(AddToken(Next(body), String, Text(s1.source[s1.current..body.current])))
  {
    ClosedScan(s1, body);
    ClosedText(s1, body);
  }

  /** The literal text of a closed string is what the body passed over. */
  lemma ClosedText(s1: State, body: State)
    requires Bounded(s1) && s1.start + 1 == s1.current && body == StringBody(s1) && !AtEnd(body)
    ensures
      var s3 := Next(body);
      s3.source[s3.start + 1..s3.current - 1] == s1.source[s1.current..body.current]
  {
  }

  /** The string scanner after a body that stops before the end emits the
      lexeme up to and including the character the body stopped on. */
  lemma ClosedScan(s1: State, body: State)
    requires Bounded(s1) && s1.start + 1 == s1.current && body == StringBody(s1) && !AtEnd(body)
    ensures
      var s3 := Next(body);
      LexString(s1) == Ok(AddToken(s3, String, Text(s3.source[s3.start + 1..s3.current - 1])))
  {
    var s3 := Next(body);
    assert Advance(body) == Ok((s3, body.source[body.current]));
    assert LexString(s1) == Ok(AddToken(s3, String, Text(s3.source[s3.start + 1..s3.current - 1])));
  }

  lemma LexStringValid(s: State)
    requires AfterFirst(s) && s.source[s.start] == '"'
    ensures LexString(s).Ok? ==> Valid(LexString(s).value) && Emits(s, LexString(s).value)
    ensures LexString(s).Fault? ==>
      var at := LexString(s).at;
      && Valid(at) && at.source == s.source && at.current == |s.source|
      && at.tokens == s.tokens && at.spans == s.spans
      && at.diags == s.diags + [Diagnostic(at.line, UnclosedString)]
  {
    if NoQuoteFrom(s.source, s.current) {
      UnclosedStringValid(s);
    } else {
      ClosedStringValid(s);
    }
  }

  /** What one step from `s` to the outcome `r` guarantees: a step that
      succeeds keeps the invariant and emits at most one token, cut at the
      lexeme's span; a step that faults leaves the cursor at the end, emits
      nothing, and adds the one unclosed-string report at the last line. */
  ghost predicate StepSound(s: State, r: Outcome<State>) {
    && (r.Ok? ==> Valid(r.value) && Emits(s, r.value))
    && (r.Fault? ==>
          && Valid(r.at) && r.at.source == s.source && r.at.current == |s.source|
          && r.at.tokens == s.tokens && r.at.spans == s.spans
          && r.at.diags == s.diags + [Diagnostic(r.at.line, UnclosedString)])
  }

  /** The ten punctuation branches. */
  lemma DispatchPunctuationValid(s: State, s1: State, c: char)
    requires Valid(s) && s.start == s.current && !AtEnd(s)
    requires c == s.source[s.current] && s1 == Next(s)
    requires c in SingleCharTokens
    ensures StepSound(s, Dispatch(s1, c))
  {
    NextValid(s);
    if c in "(){}," {
      BracketStepValid(s1, c);
    } else {
      SignStepValid(s1, c);
    }
  }

  /** The brackets and the comma. */
  lemma BracketStepValid(s1: State, c: char)
    requires AfterFirst(s1) && c == s1.source[s1.start] && c in "(){},"
    ensures Dispatch(s1, c).Ok? && Valid(Dispatch(s1, c).value) && Emits(s1, Dispatch(s1, c).value)
  {
    match c
    case '(' => PunctuationStepValid(s1, c, LeftParen);
    case ')' => PunctuationStepValid(s1, c, RightParen);
    case '{' => PunctuationStepValid(s1, c, LeftBrace);
    case '}' => PunctuationStepValid(s1, c, RightBrace);
    case ',' => PunctuationStepValid(s1, c, Comma);
  }

  /** The dot, the signs, the semicolon and the star. */
  lemma SignStepValid(s1: State, c: char)
    requires AfterFirst(s1) && c == s1.source[s1.start] && c in ".-+;*"
    ensures Dispatch(s1, c).Ok? && Valid(Dispatch(s1, c).value) && Emits(s1, Dispatch(s1, c).value)
  {
    match c
    case '.' => PunctuationStepValid(s1, c, Dot);
    case '-' => PunctuationStepValid(s1, c, Minus);
    case '+' => PunctuationStepValid(s1, c, Plus);
    case ';' => PunctuationStepValid(s1, c, Semicolon);
    case '*' => PunctuationStepValid(s1, c, Star);
  }

  /** One punctuation branch. */
  lemma PunctuationStepValid(s1: State, c: char, kind: TokenType)
    requires AfterFirst(s1) && c == s1.source[s1.start]
    requires IsPunctuation(kind) && FixedSpelling(kind) == [c]
    requires Dispatch(s1, c) == Ok(AddToken(s1, kind, NoLiteral))
    ensures Dispatch(s1, c).Ok? && Valid(Dispatch(s1, c).value) && Emits(s1, Dispatch(s1, c).value)
  {
    PunctuationValid(s1, kind);
  }

  /** One operator branch. */
  lemma OperatorStepValid(s: State, s1: State, c: char, two: TokenType, one: TokenType)
    requires Valid(s) && s.start == s.current && !AtEnd(s)
    requires c == s.source[s.current] && s1 == Next(s)
    requires IsOperatorPair(two, one) && FixedSpelling(one) == [c]
    requires Dispatch(s1, c) == Ok(Operator(s1, two, one))
    ensures Dispatch(s1, c).Ok? && Valid(Dispatch(s1, c).value) && Emits(s, Dispatch(s1, c).value)
  {
    NextValid(s);
    OperatorValid(s1, two, one);
  }

  /** The four operator branches. */
  lemma DispatchOperatorValid(s: State, s1: State, c: char)
    requires Valid(s) && s.start == s.current && !AtEnd(s)
    requires c == s.source[s.current] && s1 == Next(s)
    requires c in "!=<>"
    ensures StepSound(s, Dispatch(s1, c))
  {
    match c
    case '!' => OperatorStepValid(s, s1, c, BangEqual, Bang);
    case '=' => OperatorStepValid(s, s1, c, EqualEqual, Equal);
    case '<' => OperatorStepValid(s, s1, c, LessEqual, Less);
    case '>' => OperatorStepValid(s, s1, c, GreaterEqual, Greater);
  }

  /** The slash, comment and blank branches. */
  lemma DispatchSlashOrBlankValid(s: State, s1: State, c: char)
    requires Valid(s) && s.start == s.current && !AtEnd(s)
    requires c == s.source[s.current] && s1 == Next(s)
    requires c in "/ \t\r"
    ensures StepSound(s, Dispatch(s1, c))
  {
    if c == '/' {
      DispatchSlashValid(s, s1);
    } else {
      DispatchBlankValid(s, s1, c);
    }
  }

  /** The slash branch: a line comment or a Slash token. */
  lemma DispatchSlashValid(s: State, s1: State)
    requires Valid(s) && s.start == s.current && !AtEnd(s)
    requires s.source[s.current] == '/' && s1 == Next(s)
    ensures StepSound(s, Dispatch(s1, '/'))
  {
    NextValid(s);
    var (comment, s2) := Match(s1, '/');
    if comment {
      assert Dispatch(s1, '/') == Ok(ConsumeWhile(s2, NotNewline));
      CommentValid(s1);
    } else {
      assert Dispatch(s1, '/') == Ok(AddToken(s1, Slash, NoLiteral));
      SlashValid(s1);
    }
  }

  /** The blank branches other than the newline. */
  lemma DispatchBlankValid(s: State, s1: State, c: char)
    requires Valid(s) && s.start == s.current && !AtEnd(s)
    requires c == s.source[s.current] && s1 == Next(s)
    requires c == ' ' || c == '\t' || c == '\r'
    ensures StepSound(s, Dispatch(s1, c))
  {
    NextValid(s);
    assert Dispatch(s1, c) == Ok(s1);
  }

  /** The branches for literals, names and unexpected characters. */
  lemma DispatchOtherValid(s: State, s1: State, c: char)
    requires Valid(s) && s.start == s.current && !AtEnd(s)
    requires c == s.source[s.current] && c != '\n' && s1 == Next(s)
    requires c !in "(){},.-+;*!=<>/ \t\r"
    ensures StepSound(s, Dispatch(s1, c))
  {
    NextValid(s);
    assert AfterFirst(s1);
    if c == '"' {
      DispatchQuoteValid(s1);
    } else if IsDigit(c) {
      DispatchDigitValid(s1, c);
    } else if IsAlpha(c) {
      DispatchAlphaValid(s1, c);
    } else {
      DispatchUnexpectedValid(s1, c);
    }
  }

  lemma DispatchQuoteValid(s1: State)
    requires AfterFirst(s1) && s1.source[s1.start] == '"'
    ensures StepSound(s1.(current := s1.start), Dispatch(s1, '"'))
  {
    assert Dispatch(s1, '"') == LexString(s1);
    LexStringValid(s1);
  }

  lemma DispatchDigitValid(s1: State, c: char)
    requires AfterFirst(s1) && c == s1.source[s1.start] && IsDigit(c)
    ensures Dispatch(s1, c).Ok? && Valid(Dispatch(s1, c).value) && Emits(s1, Dispatch(s1, c).value)
  {
    assert Dispatch(s1, c) == Ok(LexNumber(s1));
    LexNumberValid(s1);
  }

  lemma DispatchAlphaValid(s1: State, c: char)
    requires AfterFirst(s1) && c == s1.source[s1.start] && IsAlpha(c)
    ensures Dispatch(s1, c).Ok? && Valid(Dispatch(s1, c).value) && Emits(s1, Dispatch(s1, c).value)
  {
    assert Dispatch(s1, c) == Ok(LexIdentifier(s1));
    LexIdentifierValid(s1);
  }

  lemma DispatchUnexpectedValid(s1: State, c: char)
    requires AfterFirst(s1) && c == s1.source[s1.start]
    requires c !in "(){},.-+;*!=<>/ \t\r\n\"" && !IsDigit(c) && !IsAlpha(c)
    ensures Dispatch(s1, c).Ok? && Valid(Dispatch(s1, c).value) && Emits(s1, Dispatch(s1, c).value)
  {
    assert Dispatch(s1, c) == Ok(Report(s1, UnexpectedCharacter));
    ReportValid(s1, UnexpectedCharacter);
  }

  /** One step of the scan from the start of a lexeme is sound. */
  lemma ScanTokenValid(s: State)
    requires Valid(s) && s.start == s.current && !AtEnd(s)
    ensures StepSound(s, ScanToken(s))
  {
    var c := s.source[s.current];
    if c == '\n' {
      NewlineValid(s);
    } else if c in SingleCharTokens {
      DispatchPunctuationValid(s, Next(s), c);
    } else if c in "!=<>" {
      DispatchOperatorValid(s, Next(s), c);
    } else if c in "/ \t\r" {
      DispatchSlashOrBlankValid(s, Next(s), c);
    } else {
      DispatchOtherValid(s, Next(s), c);
    }
  }

  /** What the outer loop from `s` to the outcome `r` guarantees: when it
      completes, the invariant holds and the tokens, spans and diagnostics
      only grew; when it faults, the invariant holds at the end of the
      source and the last diagnostic is the unclosed-string report at the
      last line. */
  ghost predicate LoopSound(s: State, r: Outcome<State>) {
    && (r.Ok? ==>
          && Valid(r.value) && s.tokens <= r.value.tokens && s.spans <= r.value.spans && s.diags <= r.value.diags)
    && (r.Fault? ==>
          && Valid(r.at) && r.at.source == s.source && r.at.current == |s.source| && s.diags <= r.at.diags
          && |r.at.diags| > 0 && r.at.diags[|r.at.diags| - 1] == Diagnostic(r.at.line, UnclosedString))
  }

  /** A sound step followed by a sound rest of the loop is a sound loop. */
  lemma LoopSoundStep(s: State, s1: State, r: Outcome<State>)
    requires StepSound(s.(start := s.current), Ok(s1)) && LoopSound(s1, r)
    ensures LoopSound(s, r)
  {
    EmitsExtends(s.(start := s.current), s1);
  }

  /** A step that faults ends the loop soundly. */
  lemma LoopSoundFault(s: State, r: Outcome<State>)
    requires StepSound(s.(start := s.current), r) && r.Fault?
    ensures LoopSound(s, r)
  {
  }

  /** The outer loop keeps the invariant, only appends tokens and
      diagnostics, and when it faults the last diagnostic is the
      unclosed-string report at the last line. */
  lemma {:induction false} ScanLoopValid(s: State)
    requires Valid(s)
    ensures LoopSound(s, ScanLoop(s))
    decreases |s.source| - s.current
  {
    if !AtEnd(s) {
      var s0 := s.(start := s.current);
      LexemeStartValid(s);
      ScanTokenValid(s0);
      var o := ScanToken(s0);
      if o.Ok? {
        ScanLoopValid(o.value);
        LoopSoundStep(s, o.value, ScanLoop(o.value));
        assert ScanLoop(s) == ScanLoop(o.value);
      } else {
        LoopSoundFault(s, o);
        assert ScanLoop(s) == o;
      }
    }
  }
}
