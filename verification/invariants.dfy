/** The invariant of a scan in progress, and the proof that every step of
    the scanner keeps it. */
module ScanInvariants {
  import opened Lexicon
  import opened Grammar
  import opened Cursor
  import opened Scanner

  /** A scan in progress is consistent with its source: the cursor is in
      range, the line counter is the line the cursor is on, every token was
      cut from the source at its span (and is well formed and maximal there),
      the spans lie before the cursor in source order without overlap, and
      the diagnostics were reported at non-decreasing lines no later than the
      current one. */
  ghost predicate Valid(s: State) {
    && Bounded(s)
    && s.line == LineAt(s.source, s.current)
    && |s.spans| == |s.tokens|
    && (forall i :: 0 <= i < |s.tokens| ==> Lexed(s.source, s.tokens[i], s.spans[i]) && s.spans[i].end <= s.current)
    && (forall i, j :: 0 <= i < j < |s.spans| ==> s.spans[i].end <= s.spans[j].start)
    && (forall i :: 0 <= i < |s.diags| ==> 1 <= s.diags[i].line <= s.line)
    && (forall i, j :: 0 <= i < j < |s.diags| ==> s.diags[i].line <= s.diags[j].line)
  }

  /** All tokens so far end at or before the start of the current lexeme. */
  ghost predicate AtLexemeStart(s: State) {
    forall i :: 0 <= i < |s.spans| ==> s.spans[i].end <= s.start
  }

  /** One step from `s` to `r` keeps the source, emits at most one token
      (cut at [s.start, r.current)) and only adds diagnostics. */
  ghost predicate Emits(s: State, r: State) {
    && r.source == s.source
    && ((r.tokens == s.tokens && r.spans == s.spans)
        || (&& |r.tokens| == |s.tokens| + 1
            && r.tokens[..|s.tokens|] == s.tokens
            && r.spans == s.spans + [Span(s.start, r.current)]))
    && s.diags <= r.diags
  }

  /** One step from `s` to `r` emitted exactly one token, of type `kind`,
      cut at [s.start, r.current), and reported nothing. */
  ghost predicate EmitsOne(s: State, r: State, kind: TokenType) {
    && r.source == s.source
    && |r.tokens| == |s.tokens| + 1
    && r.tokens[..|s.tokens|] == s.tokens
    && r.tokens[|s.tokens|].kind == kind
    && r.spans == s.spans + [Span(s.start, r.current)]
    && r.diags == s.diags
  }

  /** A step that emits extends the tokens, the spans and the diagnostics. */
  lemma EmitsExtends(s: State, r: State)
    requires Emits(s, r)
    ensures s.tokens <= r.tokens && s.spans <= r.spans && s.diags <= r.diags
  {
  }

  /** Starting a new lexeme at the cursor keeps the invariant. */
  lemma LexemeStartValid(s: State)
    requires Valid(s)
    ensures Valid(s.(start := s.current)) && AtLexemeStart(s.(start := s.current))
  {
  }

  /** The token a valid step emitted is the one the grammar admits at its
      span. */
  lemma EmittedLexed(s: State, r: State, kind: TokenType)
    requires Valid(r) && EmitsOne(s, r, kind)
    ensures Lexed(r.source, r.tokens[|s.tokens|], Span(s.start, r.current))
  {
    assert r.spans[|s.tokens|] == Span(s.start, r.current);
  }

  /** No token of a valid state is Eof: Eof is never cut from the source. */
  lemma NoEofToken(s: State)
    requires Valid(s)
    ensures forall i :: 0 <= i < |s.tokens| ==> s.tokens[i].kind != Eof
  {
    forall i | 0 <= i < |s.tokens|
      ensures s.tokens[i].kind != Eof
    {
      assert Lexed(s.source, s.tokens[i], s.spans[i]);
    }
  }

  /** Moving over a character that is not a newline keeps the invariant. */
  lemma NextValid(s: State)
    requires Valid(s) && !AtEnd(s) && s.source[s.current] != '\n'
    ensures Valid(Next(s))
  {
    LineAtNext(s.source, s.current);
  }

  /** Moving over a newline while counting it keeps the invariant. */
  lemma NewlineValid(s: State)
    requires Valid(s) && !AtEnd(s) && s.source[s.current] == '\n'
    ensures Valid(Next(s).(line := s.line + 1))
  {
    LineAtNext(s.source, s.current);
    var r := Next(s).(line := s.line + 1);
    assert forall i :: 0 <= i < |r.diags| ==> r.diags[i].line <= r.line;
  }

  /** Reporting keeps the invariant. */
  lemma ReportValid(s: State, message: string)
    requires Valid(s)
    ensures Valid(Report(s, message))
  {
    var r := Report(s, message);
    LineAtMonotone(s.source, 0, s.current);
    assert forall i :: 0 <= i < |s.diags| ==> r.diags[i] == s.diags[i];
  }

  /** The current lexeme, with type `kind` and `literal`, is a token the
      grammar admits at its span. */
  ghost predicate LexedHere(s: State, kind: TokenType, literal: Literal) {
    && s.start < s.current <= |s.source|
    && Lexed(s.source, Token(kind, s.source[s.start..s.current], literal, s.line), Span(s.start, s.current))
  }

  /** Emitting a token that was lexed at [start, current) keeps the
      invariant. */
  lemma AddTokenValid(s: State, kind: TokenType, literal: Literal)
    requires Valid(s) && AtLexemeStart(s) && LexedHere(s, kind, literal)
    ensures Valid(AddToken(s, kind, literal))
    ensures Emits(s, AddToken(s, kind, literal)) && EmitsOne(s, AddToken(s, kind, literal), kind)
  {
    var r := AddToken(s, kind, literal);
    assert r.tokens[..|s.tokens|] == s.tokens;
    forall i | 0 <= i < |r.tokens|
      ensures Lexed(r.source, r.tokens[i], r.spans[i]) && r.spans[i].end <= r.current
    {
      if i < |s.tokens| {
        assert r.tokens[i] == s.tokens[i] && r.spans[i] == s.spans[i];
      }
    }
  }

  /** Emitting the lexeme a run from `s` ended at `s1` is one emission
      from `s`. */
  lemma AddTokenAfterRun(s: State, s1: State, kind: TokenType, literal: Literal)
    requires s1 == s.(current := s1.current)
    requires Valid(s1) && AtLexemeStart(s1) && LexedHere(s1, kind, literal)
    ensures Valid(AddToken(s1, kind, literal))
    ensures Emits(s, AddToken(s1, kind, literal)) && EmitsOne(s, AddToken(s1, kind, literal), kind)
  {
    AddTokenValid(s1, kind, literal);
  }

  /** A run of characters none of which is a newline keeps the invariant. */
  lemma ConsumeWhileValid(s: State, p: char -> bool)
    requires Valid(s) && !p('\n')
    ensures Valid(ConsumeWhile(s, p))
    ensures LineAt(s.source, ConsumeWhile(s, p).current) == s.line
  {
    var r := ConsumeWhile(s, p);
    LineAtSkip(s.source, s.current, r.current);
  }

  /** A string body counts exactly the newlines it passes over. */
  lemma {:induction false} StringBodyLines(s: State)
    requires Bounded(s) && s.line == LineAt(s.source, s.current)
    ensures StringBody(s).line == LineAt(s.source, StringBody(s).current)
    decreases |s.source| - s.current
  {
    if Peek(s) != '"' && !AtEnd(s) {
      LineAtNext(s.source, s.current);
      var s1 := if Peek(s) == '\n' then s.(line := s.line + 1) else s;
      StringBodyLines(Next(s1));
    }
  }

  /** A string body keeps the invariant. */
  lemma StringBodyValid(s: State)
    requires Valid(s)
    ensures Valid(StringBody(s))
  {
    var r := StringBody(s);
    StringBodyLines(s);
    LineAtMonotone(s.source, s.current, r.current);
  }
}
