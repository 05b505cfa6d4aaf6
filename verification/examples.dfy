/** Worked scans of small sources. Each is split into the step that
    consumes the lexeme and the whole scan that wraps it. */
module ScanExamples {
  import opened Lexicon
  import opened Grammar
  import opened Cursor
  import opened Scanner
  import opened ScanProperties

  /** The first step of a scan consumes the first character and dispatches
      on it. */
  lemma FirstStep(src: string)
    requires |src| > 0
    ensures ScanToken(Init(src)) == Dispatch(Init(src).(current := 1), src[0])
  {
    assert Advance(Init(src)) == Ok((Init(src).(current := 1), src[0]));
  }

  /** A source that one step consumes whole scans to that step's tokens
      followed by Eof. */
  lemma SingleStepScan(src: string, t: State)
    requires |src| > 0 && ScanToken(Init(src)) == Ok(t) && t.current == |src|
    ensures ScanTokens(src) == Scanned(t.tokens + [Token(Eof, "", NoLiteral, t.line)], t.spans, t.diags)
  {
    assert Init(src).(start := 0) == Init(src);
    assert ScanLoop(t) == Ok(t);
  }

  // ---------------------------------------------------------------------
  // Operators

  lemma BangEqualStep()
    ensures ScanToken(Init("!=")) == Ok(State("!=", 0, 2, 1, [Token(BangEqual, "!=", NoLiteral, 1)], [Span(0, 2)], []))
  {
    var s1 := Init("!=").(current := 1);
    FirstStep("!=");
    assert "!="[0] == '!';
    assert Dispatch(s1, '!') == Ok(Operator(s1, BangEqual, Bang));
    assert Match(s1, '=') == (true, s1.(current := 2));
    assert Operator(s1, BangEqual, Bang) == AddToken(s1.(current := 2), BangEqual, NoLiteral);
    assert "!="[0..2] == "!=";
    assert ScanToken(Init("!=")) == Ok(AddToken(s1.(current := 2), BangEqual, NoLiteral));
    assert AddToken(s1.(current := 2), BangEqual, NoLiteral) == State("!=", 0, 2, 1, [Token(BangEqual, "!=", NoLiteral, 1)], [Span(0, 2)], []);
  }

  /** "!=" is one two-character operator. */
  lemma BangEqualExample()
    ensures ScanTokens("!=") == Scanned([Token(BangEqual, "!=", NoLiteral, 1), Token(Eof, "", NoLiteral, 1)], [Span(0, 2)], [])
  {
    BangEqualStep();
    SingleStepScan("!=", State("!=", 0, 2, 1, [Token(BangEqual, "!=", NoLiteral, 1)], [Span(0, 2)], []));
  }

  lemma BangAtEndStep()
    ensures ScanToken(Init("!")) == Ok(State("!", 0, 1, 1, [Token(Bang, "!", NoLiteral, 1)], [Span(0, 1)], []))
  {
    var s1 := Init("!").(current := 1);
    FirstStep("!");
    assert "!"[0] == '!';
    assert Dispatch(s1, '!') == Ok(Operator(s1, BangEqual, Bang));
    assert Match(s1, '=') == (false, s1);
    assert Operator(s1, BangEqual, Bang) == AddToken(s1, Bang, NoLiteral);
    assert "!"[0..1] == "!";
    assert ScanToken(Init("!")) == Ok(AddToken(s1, Bang, NoLiteral));
    assert AddToken(s1, Bang, NoLiteral) == State("!", 0, 1, 1, [Token(Bang, "!", NoLiteral, 1)], [Span(0, 1)], []);
  }

  /** "!" at the end of input is the one-character operator. */
  lemma BangAtEndExample()
    ensures ScanTokens("!") == Scanned([Token(Bang, "!", NoLiteral, 1), Token(Eof, "", NoLiteral, 1)], [Span(0, 1)], [])
  {
    BangAtEndStep();
    SingleStepScan("!", State("!", 0, 1, 1, [Token(Bang, "!", NoLiteral, 1)], [Span(0, 1)], []));
  }

  // ---------------------------------------------------------------------
  // Numbers

  lemma TrailingDotNumberStep()
    ensures ScanToken(Init("123.")) == Ok(State("123.", 0, 3, 1, [Token(Number, "123", Numeral("123"), 1)], [Span(0, 3)], []))
  {
    var src := "123.";
    var s1 := Init(src).(current := 1);
    FirstStep(src);
    assert src[0] == '1';
    assert Dispatch(s1, '1') == Ok(LexNumber(s1));
    ConsumeWhileStopsAtFirstFailure(s1, IsDigit, 3);
    var a := s1.(current := 3);
    assert Peek(a) == '.' && PeekNext(a) == '\0';
    assert src[0..3] == "123";
    assert LexNumber(s1) == AddToken(a, Number, Numeral("123"));
    assert ScanToken(Init(src)) == Ok(AddToken(a, Number, Numeral("123")));
    assert AddToken(a, Number, Numeral("123")) == State(src, 0, 3, 1, [Token(Number, "123", Numeral("123"), 1)], [Span(0, 3)], []);
  }

  lemma TrailingDotDotStep()
    ensures ScanToken(State("123.", 3, 3, 1, [Token(Number, "123", Numeral("123"), 1)], [Span(0, 3)], []))
         == Ok(State("123.", 3, 4, 1, [Token(Number, "123", Numeral("123"), 1), Token(Dot, ".", NoLiteral, 1)], [Span(0, 3), Span(3, 4)], []))
  {
    var u := State("123.", 3, 3, 1, [Token(Number, "123", Numeral("123"), 1)], [Span(0, 3)], []);
    assert Advance(u) == Ok((u.(current := 4), '.'));
    assert Dispatch(u.(current := 4), '.') == Ok(AddToken(u.(current := 4), Dot, NoLiteral));
    assert "123."[3..4] == ".";
    assert ScanToken(u) == Ok(AddToken(u.(current := 4), Dot, NoLiteral));
    assert u.tokens + [Token(Dot, ".", NoLiteral, 1)] == [Token(Number, "123", Numeral("123"), 1), Token(Dot, ".", NoLiteral, 1)];
    assert u.spans + [Span(3, 4)] == [Span(0, 3), Span(3, 4)];
  }

  /** In "123." the dot has no digit after it, so it is left for a Dot token
      of its own. */
  lemma TrailingDotExample()
    ensures ScanTokens("123.") == Scanned(
      [Token(Number, "123", Numeral("123"), 1), Token(Dot, ".", NoLiteral, 1), Token(Eof, "", NoLiteral, 1)],
      [Span(0, 3), Span(3, 4)], [])
  {
    var t1 := State("123.", 0, 3, 1, [Token(Number, "123", Numeral("123"), 1)], [Span(0, 3)], []);
    var t2 := State("123.", 3, 4, 1, [Token(Number, "123", Numeral("123"), 1), Token(Dot, ".", NoLiteral, 1)], [Span(0, 3), Span(3, 4)], []);
    TrailingDotNumberStep();
    TrailingDotDotStep();
    assert Init("123.").(start := 0) == Init("123.");
    assert ScanLoop(t2) == Ok(t2);
    assert t1.(start := 3) == State("123.", 3, 3, 1, [Token(Number, "123", Numeral("123"), 1)], [Span(0, 3)], []);
    assert ScanToken(t1.(start := 3)) == Ok(t2);
    assert ScanLoop(t1) == Ok(t2);
  }

  lemma FractionStep()
    ensures ScanToken(Init("123.45")) == Ok(State("123.45", 0, 6, 1, [Token(Number, "123.45", Numeral("123.45"), 1)], [Span(0, 6)], []))
  {
    var src := "123.45";
    var s1 := Init(src).(current := 1);
    FirstStep(src);
    assert src[0] == '1';
    assert Dispatch(s1, '1') == Ok(LexNumber(s1));
    ConsumeWhileStopsAtFirstFailure(s1, IsDigit, 3);
    var a := s1.(current := 3);
    assert Peek(a) == '.' && PeekNext(a) == '4';
    ConsumeWhileStopsAtFirstFailure(Next(a), IsDigit, 6);
    assert src[0..6] == src;
    assert LexNumber(s1) == AddToken(s1.(current := 6), Number, Numeral(src));
    assert ScanToken(Init(src)) == Ok(AddToken(s1.(current := 6), Number, Numeral(src)));
    assert AddToken(s1.(current := 6), Number, Numeral(src))
        == State(src, 0, 6, 1, [Token(Number, src, Numeral(src), 1)], [Span(0, 6)], []);
  }

  /** "123.45" is one number with a fractional part. */
  lemma FractionExample()
    ensures ScanTokens("123.45") == Scanned(
      [Token(Number, "123.45", Numeral("123.45"), 1), Token(Eof, "", NoLiteral, 1)], [Span(0, 6)], [])
  {
    FractionStep();
    SingleStepScan("123.45", State("123.45", 0, 6, 1, [Token(Number, "123.45", Numeral("123.45"), 1)], [Span(0, 6)], []));
  }

  // ---------------------------------------------------------------------
  // Names

  /** A source that is one word takes one step, which emits that word as an
      Identifier or as the reserved word it spells. */
  lemma WordScan(w: string)
    requires |w| > 0 && IsAlpha(w[0]) && forall k :: 0 <= k < |w| ==> IsAlphaNumeric(w[k])
    ensures ScanToken(Init(w)) == Ok(State(w, 0, |w|, 1,
      [Token(WordKind(w), w, NoLiteral, 1)], [Span(0, |w|)], []))
  {
    var s0 := Init(w);
    FirstStep(w);
    ConsumeWhileStopsAtFirstFailure(Next(s0), IsAlphaNumeric, |w|);
    assert w[0..|w|] == w;
    assert !IsDigit(w[0]);
    var s1 := ConsumeWhile(Next(s0), IsAlphaNumeric);
    assert s1 == s0.(current := |w|);
    assert s1.source[s1.start..s1.current] == w;
    var kind := WordKind(w);
    assert LexIdentifier(Next(s0)) == AddToken(s1, kind, NoLiteral);
    assert AddToken(s1, kind, NoLiteral) == State(w, 0, |w|, 1, [Token(kind, w, NoLiteral, 1)], [Span(0, |w|)], []);
    assert Dispatch(Next(s0), w[0]) == Ok(LexIdentifier(Next(s0)));
  }

  lemma ClassroomIsIdentifier()
    ensures WordKind("classroom") == Identifier
  {
    assert "classroom" !in Keywords;
  }

  lemma ClassIsReserved()
    ensures WordKind("class") == Class
  {
    assert "class" in Keywords;
  }

  /** "classroom" is one Identifier, not the reserved word "class" and more. */
  lemma ClassroomExample()
    ensures ScanTokens("classroom") == Scanned(
      [Token(Identifier, "classroom", NoLiteral, 1), Token(Eof, "", NoLiteral, 1)], [Span(0, 9)], [])
  {
    WordScan("classroom");
    ClassroomIsIdentifier();
    SingleStepScan("classroom", State("classroom", 0, 9, 1, [Token(Identifier, "classroom", NoLiteral, 1)], [Span(0, 9)], []));
  }

  /** "class" is the reserved word. */
  lemma ClassExample()
    ensures ScanTokens("class") == Scanned(
      [Token(Class, "class", NoLiteral, 1), Token(Eof, "", NoLiteral, 1)], [Span(0, 5)], [])
  {
    WordScan("class");
    ClassIsReserved();
    SingleStepScan("class", State("class", 0, 5, 1, [Token(Class, "class", NoLiteral, 1)], [Span(0, 5)], []));
  }

  // ---------------------------------------------------------------------
  // Blanks and comments

  /** One turn of the outer loop: a step from the cursor that completes
      hands its state to the rest of the loop. */
  lemma LoopTurn(s: State, t: State)
    requires Bounded(s) && !AtEnd(s) && ScanToken(s.(start := s.current)) == Ok(t)
    ensures ScanLoop(s) == ScanLoop(t)
  {
  }

  const NoteSource := "1 // note\n2"
  const FirstNumber := [Token(Number, "1", Numeral("1"), 1)]

  lemma NoteNumberStep()
    ensures ScanToken(Init(NoteSource)) == Ok(State(NoteSource, 0, 1, 1, FirstNumber, [Span(0, 1)], []))
  {
    var s1 := Init(NoteSource).(current := 1);
    FirstStep(NoteSource);
    DigitDispatch(s1, '1');
    assert NoteSource[0] == '1';
    ConsumeWhileStopsAtFirstFailure(s1, IsDigit, 1);
    assert Peek(s1) == ' ';
    assert NoteSource[0..1] == "1";
    assert LexNumber(s1) == AddToken(s1, Number, Numeral("1"));
    assert AddToken(s1, Number, Numeral("1")) == State(NoteSource, 0, 1, 1, FirstNumber, [Span(0, 1)], []);
  }

  lemma NoteBlankStep()
    ensures ScanToken(State(NoteSource, 1, 1, 1, FirstNumber, [Span(0, 1)], []))
         == Ok(State(NoteSource, 1, 2, 1, FirstNumber, [Span(0, 1)], []))
  {
    BlankStep(State(NoteSource, 1, 1, 1, FirstNumber, [Span(0, 1)], []));
  }

  lemma NoteCommentStep()
    ensures ScanToken(State(NoteSource, 2, 2, 1, FirstNumber, [Span(0, 1)], []))
         == Ok(State(NoteSource, 2, 9, 1, FirstNumber, [Span(0, 1)], []))
  {
    var u := State(NoteSource, 2, 2, 1, FirstNumber, [Span(0, 1)], []);
    LineComment(u);
    var r := ScanToken(u).value;
    assert NoteSource[9] == '\n';
    assert forall k :: 4 <= k < 9 ==> NoteSource[k] != '\n';
    assert r.current == 9;
  }

  lemma NoteNewlineStep()
    ensures ScanToken(State(NoteSource, 9, 9, 1, FirstNumber, [Span(0, 1)], []))
         == Ok(State(NoteSource, 9, 10, 2, FirstNumber, [Span(0, 1)], []))
  {
    BlankStep(State(NoteSource, 9, 9, 1, FirstNumber, [Span(0, 1)], []));
  }

  lemma NoteSecondNumberStep()
    ensures ScanToken(State(NoteSource, 10, 10, 2, FirstNumber, [Span(0, 1)], []))
         == Ok(State(NoteSource, 10, 11, 2, FirstNumber + [Token(Number, "2", Numeral("2"), 2)], [Span(0, 1), Span(10, 11)], []))
  {
    var u := State(NoteSource, 10, 10, 2, FirstNumber, [Span(0, 1)], []);
    var s1 := u.(current := 11);
    assert Advance(u) == Ok((s1, '2'));
    DigitDispatch(s1, '2');
    ConsumeWhileStopsAtFirstFailure(s1, IsDigit, 11);
    assert Peek(s1) == '\0';
    assert NoteSource[10..11] == "2";
    assert LexNumber(s1) == AddToken(s1, Number, Numeral("2"));
    assert AddToken(s1, Number, Numeral("2"))
        == State(NoteSource, 10, 11, 2, FirstNumber + [Token(Number, "2", Numeral("2"), 2)], [Span(0, 1), Span(10, 11)], []);
  }

  /** A comment runs to the end of its line and the newline after it starts
      line 2: "1 // note" then "2" gives two Numbers, on lines 1 and 2, and
      an Eof on line 2. */
  lemma CommentLineExample()
    ensures ScanTokens(NoteSource) == Scanned(
      [Token(Number, "1", Numeral("1"), 1), Token(Number, "2", Numeral("2"), 2), Token(Eof, "", NoLiteral, 2)],
      [Span(0, 1), Span(10, 11)], [])
  {
    NoteLoop();
    assert FirstNumber + [Token(Number, "2", Numeral("2"), 2)] + [Token(Eof, "", NoLiteral, 2)]
        == [Token(Number, "1", Numeral("1"), 1), Token(Number, "2", Numeral("2"), 2), Token(Eof, "", NoLiteral, 2)];
  }

  lemma NoteLoop()
    ensures ScanLoop(Init(NoteSource))
         == Ok(State(NoteSource, 10, 11, 2, FirstNumber + [Token(Number, "2", Numeral("2"), 2)], [Span(0, 1), Span(10, 11)], []))
  {
    var t1 := State(NoteSource, 0, 1, 1, FirstNumber, [Span(0, 1)], []);
    NoteNumberStep();
    assert Init(NoteSource).(start := 0) == Init(NoteSource);
    LoopTurn(Init(NoteSource), t1);
    NoteTail();
  }

  /** The loop after the first Number: a blank, the comment, the newline and
      the second Number. */
  lemma NoteTail()
    ensures ScanLoop(State(NoteSource, 0, 1, 1, FirstNumber, [Span(0, 1)], []))
         == Ok(State(NoteSource, 10, 11, 2, FirstNumber + [Token(Number, "2", Numeral("2"), 2)], [Span(0, 1), Span(10, 11)], []))
  {
    var t1 := State(NoteSource, 0, 1, 1, FirstNumber, [Span(0, 1)], []);
    var t2 := State(NoteSource, 1, 2, 1, FirstNumber, [Span(0, 1)], []);
    var t3 := State(NoteSource, 2, 9, 1, FirstNumber, [Span(0, 1)], []);
    var t4 := State(NoteSource, 9, 10, 2, FirstNumber, [Span(0, 1)], []);
    var t5 := State(NoteSource, 10, 11, 2, FirstNumber + [Token(Number, "2", Numeral("2"), 2)], [Span(0, 1), Span(10, 11)], []);
    NoteBlankStep();
    NoteCommentStep();
    NoteNewlineStep();
    NoteSecondNumberStep();
    assert ScanLoop(t5) == Ok(t5);
    LoopTurn(t4, t5);
    LoopTurn(t3, t4);
    LoopTurn(t2, t3);
    LoopTurn(t1, t2);
  }

  // ---------------------------------------------------------------------
  // Strings

  /** The body of "\"abc" runs to the end of input on line 1. */
  lemma UnclosedBody()
    ensures StringBody(Init("\"abc").(current := 1)) == Init("\"abc").(current := 4)
  {
    var src := "\"abc";
    assert LineAt(src, 0) == 1;
    LineAtNext(src, 0);
    LineAtNext(src, 1);
    LineAtNext(src, 2);
    LineAtNext(src, 3);
    StringBodyStopsAtQuote(Init(src).(current := 1), 4);
  }

  lemma UnclosedStep()
    ensures ScanToken(Init("\"abc")) == Fault(State("\"abc", 0, 4, 1, [], [], [Diagnostic(1, UnclosedString)]))
  {
    var s1 := Init("\"abc").(current := 1);
    FirstStep("\"abc");
    QuoteDispatch(s1);
    UnclosedBody();
    UnclosedStringResult(s1);
  }

  /** An unclosed string is reported at line 1, and the scan then faults
      instead of completing. */
  lemma UnclosedStringExample()
    ensures ScanTokens("\"abc") == Faulted(EndOfSource, [Diagnostic(1, UnclosedString)])
  {
    UnclosedStep();
    assert Init("\"abc").(start := 0) == Init("\"abc");
  }

  /** The body of "\"a\nb\"" stops at the closing quote on line 2. */
  lemma MultiLineBody()
    ensures StringBody(Init("\"a\nb\"").(current := 1)) == Init("\"a\nb\"").(current := 4, line := 2)
  {
    var src := "\"a\nb\"";
    assert LineAt(src, 0) == 1;
    LineAtNext(src, 0);
    LineAtNext(src, 1);
    LineAtNext(src, 2);
    LineAtNext(src, 3);
    StringBodyStopsAtQuote(Init(src).(current := 1), 4);
  }

  /** The string scanner, started after the opening quote of "\"a\nb\"",
      counts the newline and closes at the second quote. */
  lemma MultiLineString()
    ensures LexString(Init("\"a\nb\"").(current := 1))
         == Ok(State("\"a\nb\"", 0, 5, 2, [Token(String, "\"a\nb\"", Text("a\nb"), 2)], [Span(0, 5)], []))
  {
    var src := "\"a\nb\"";
    var s1 := Init(src).(current := 1);
    MultiLineBody();
    var body := s1.(current := 4, line := 2);
    assert src[4] == '"';
    ClosedStringResult(s1);
    assert src[0..5] == src && src[1..4] == "a\nb";
    assert AddToken(Next(body), String, Text("a\nb"))
        == State(src, 0, 5, 2, [Token(String, src, Text("a\nb"), 2)], [Span(0, 5)], []);
  }

  lemma MultiLineStep()
    ensures ScanToken(Init("\"a\nb\"")) == Ok(State("\"a\nb\"", 0, 5, 2, [Token(String, "\"a\nb\"", Text("a\nb"), 2)], [Span(0, 5)], []))
  {
    var src := "\"a\nb\"";
    MultiLineString();
    FirstStep(src);
    QuoteDispatch(Init(src).(current := 1));
  }

  /** A string may span lines; it keeps the newline in its literal and
      carries the line of its closing quote, which Eof then shares. */
  lemma MultiLineStringExample()
    ensures ScanTokens("\"a\nb\"") == Scanned(
      [Token(String, "\"a\nb\"", Text("a\nb"), 2), Token(Eof, "", NoLiteral, 2)], [Span(0, 5)], [])
  {
    MultiLineStep();
    SingleStepScan("\"a\nb\"", State("\"a\nb\"", 0, 5, 2, [Token(String, "\"a\nb\"", Text("a\nb"), 2)], [Span(0, 5)], []));
  }

  // ---------------------------------------------------------------------
  // Diagnostics

  /** A character outside every class is reported and skipped. */
  lemma UnexpectedCharacterExample()
    ensures ScanTokens("@") == Scanned([Token(Eof, "", NoLiteral, 1)], [], [Diagnostic(1, UnexpectedCharacter)])
  {
    var s1 := Init("@").(current := 1);
    FirstStep("@");
    assert Dispatch(s1, '@') == Ok(Report(s1, UnexpectedCharacter));
    assert ScanToken(Init("@")) == Ok(Report(s1, UnexpectedCharacter));
    assert Report(s1, UnexpectedCharacter) == State("@", 0, 1, 1, [], [], [Diagnostic(1, UnexpectedCharacter)]);
    SingleStepScan("@", State("@", 0, 1, 1, [], [], [Diagnostic(1, UnexpectedCharacter)]));
  }
}
