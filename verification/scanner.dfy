/** The single-pass scanner: the dispatch on the next character, the
    sub-scanners for comments, strings, numbers and identifiers, and the
    outer loop that runs to the end of the source and appends Eof. */
module Scanner {
  import opened Lexicon
  import opened Cursor

  /** The result of a whole scan: the tokens (ending in Eof) with the spans
      of all tokens but Eof, and the diagnostics; or the fault that ended the
      scan, with the diagnostics reported before it. */
  datatype ScanResult =
    | Scanned(tokens: seq<Token>, spans: seq<Span>, diags: seq<Diagnostic>)
    | Faulted(message: string, diags: seq<Diagnostic>)

  /** The ten characters that are each a token on their own. */
  const SingleCharTokens: string := "(){},.-+;*"

  /** No double quote at or after position `from`. */
  predicate NoQuoteFrom(src: string, from: nat) {
    forall j :: from <= j < |src| ==> src[j] != '"'
  }

  predicate NotNewline(c: char) {
    c != '\n'
  }

  /** Advances while the next character satisfies `p` and input remains.
      With a `p` that rejects NUL (the digit and alphanumeric classes) the
      end test is implied by the lookahead, as in the source's loops that
      test only `peek()`. */
  function ConsumeWhile(s: State, p: char -> bool): (r: State)
    requires Bounded(s)
    ensures Bounded(r) && s.current <= r.current
    ensures r == s.(current := r.current)
    ensures forall k :: s.current <= k < r.current ==> p(s.source[k])
    ensures AtEnd(r) || !p(Peek(r))
    decreases |s.source| - s.current
  {
    if p(Peek(s)) && !AtEnd(s) then ConsumeWhile(Next(s), p) else s
  }

  /** The body of a string literal: advances up to the next double quote or
      the end of input, counting the newlines it passes over. */
  function StringBody(s: State): (r: State)
    requires Bounded(s)
    ensures Bounded(r) && s.current <= r.current
    ensures r == s.(current := r.current, line := r.line)
    ensures forall k :: s.current <= k < r.current ==> s.source[k] != '"'
    ensures AtEnd(r) || Peek(r) == '"'
    decreases |s.source| - s.current
  {
    if Peek(s) != '"' && !AtEnd(s) then
      var s1 := if Peek(s) == '\n' then s.(line := s.line + 1) else s;
      StringBody(Next(s1))
    else s
  }

  /** A string literal whose opening quote has been consumed. An unclosed
      literal is reported and then faults on the unconditional advance over
      the closing quote that is not there. */
  function LexString(s: State): (r: Outcome<State>)
    requires Bounded(s) && s.start < s.current
    ensures r.Fault? <==> NoQuoteFrom(s.source, s.current)
    ensures r.Fault? ==> r.at.current == |s.source|
    ensures r.Ok? ==> Bounded(r.value) && r.value.source == s.source && r.value.current > s.current
    ensures r.Ok? ==>
      && s.source[r.value.current - 1] == '"'
      && forall k :: s.current <= k < r.value.current - 1 ==> s.source[k] != '"'
  {
    var s1 := StringBody(s);
    var s2 := if AtEnd(s1) then Report(s1, UnclosedString) else s1;
    match Advance(s2)
    case Fault(at) => Fault(at)
    case Ok((s3, _)) => Ok(AddToken(s3, String, Text(s3.source[s3.start + 1..s3.current - 1])))
  }

  /** A number literal whose first digit has been consumed: the digit run,
      then a dot and a second digit run only when a digit follows the dot. */
  function LexNumber(s: State): (r: State)
    requires Bounded(s)
    ensures Bounded(r) && r.current >= s.current
  {
    var s1 := ConsumeWhile(s, IsDigit);
    var s2 := if Peek(s1) == '.' && IsDigit(PeekNext(s1)) then ConsumeWhile(Next(s1), IsDigit) else s1;
    AddToken(s2, Number, Numeral(s2.source[s2.start..s2.current]))
  }

  /** An identifier or reserved word whose first letter has been consumed. */
  function LexIdentifier(s: State): (r: State)
    requires Bounded(s)
    ensures Bounded(r) && r.current >= s.current
  {
    var s1 := ConsumeWhile(s, IsAlphaNumeric);
    var text := s1.source[s1.start..s1.current];
    AddToken(s1, WordKind(text), NoLiteral)
  }

  /** An operator that is `two` when the next character is '=' and `one`
      otherwise. */
  function Operator(s: State, two: TokenType, one: TokenType): (r: State)
    requires Bounded(s)
    ensures Bounded(r)
  {
    var (matched, s1) := Match(s, '=');
    AddToken(s1, if matched then two else one, NoLiteral)
  }

  /** Scans one lexeme starting at `current`: consumes at least one
      character, and faults only at the end of input or on a double quote
      that no later double quote closes. */
  function ScanToken(s: State): (r: Outcome<State>)
    requires Bounded(s)
    ensures r.Ok? ==> Bounded(r.value) && r.value.current > s.current
    ensures r.Ok? ==> r.value.source == s.source && r.value.start == s.start
    ensures r.Fault? <==> AtEnd(s) || (s.source[s.current] == '"' && NoQuoteFrom(s.source, s.current + 1))
  {
    match Advance(s)
    case Fault(at) => Fault(at)
    case Ok((s1, c)) => Dispatch(s1, c)
  }

  /** The switch on the character `c` that was just consumed. */
  function Dispatch(s1: State, c: char): (r: Outcome<State>)
    requires Bounded(s1) && s1.start < s1.current
    ensures r.Ok? ==> Bounded(r.value) && r.value.current >= s1.current
    ensures r.Ok? ==> r.value.source == s1.source && r.value.start == s1.start
    ensures r.Fault? <==> c == '"' && NoQuoteFrom(s1.source, s1.current)
  {
    match c
    case '(' => Ok(AddToken(s1, LeftParen, NoLiteral))
    case ')' => Ok(AddToken(s1, RightParen, NoLiteral))
    case '{' => Ok(AddToken(s1, LeftBrace, NoLiteral))
    case '}' => Ok(AddToken(s1, RightBrace, NoLiteral))
    case ',' => Ok(AddToken(s1, Comma, NoLiteral))
    case '.' => Ok(AddToken(s1, Dot, NoLiteral))
    case '-' => Ok(AddToken(s1, Minus, NoLiteral))
    case '+' => Ok(AddToken(s1, Plus, NoLiteral))
    case ';' => Ok(AddToken(s1, Semicolon, NoLiteral))
    case '*' => Ok(AddToken(s1, Star, NoLiteral))
    case '!' => Ok(Operator(s1, BangEqual, Bang))
    case '=' => Ok(Operator(s1, EqualEqual, Equal))
    case '<' => Ok(Operator(s1, LessEqual, Less))
    case '>' => Ok(Operator(s1, GreaterEqual, Greater))
    case '/' =>
      var (comment, s2) := Match(s1, '/');
      if comment then Ok(ConsumeWhile(s2, NotNewline)) else Ok(AddToken(s2, Slash, NoLiteral))
    case ' ' => Ok(s1)
    case '\t' => Ok(s1)
    case '\r' => Ok(s1)
    case '\n' => Ok(s1.(line := s1.line + 1))
    case '"' => LexString(s1)
    case _ =>
      if IsDigit(c) then Ok(LexNumber(s1))
      else if IsAlpha(c) then Ok(LexIdentifier(s1))
      else Ok(Report(s1, UnexpectedCharacter))
  }

  /** The outer loop: while input remains, start a new lexeme at the cursor
      and scan it. It stops only at the end of the source. */
  function ScanLoop(s: State): (r: Outcome<State>)
    requires Bounded(s)
    ensures r.Ok? ==> Bounded(r.value) && AtEnd(r.value) && r.value.source == s.source
    decreases |s.source| - s.current
  {
    if AtEnd(s) then Ok(s)
    else
      match ScanToken(s.(start := s.current))
      case Fault(at) => Fault(at)
      case Ok(s1) => ScanLoop(s1)
  }

  /** Scans a whole source: the loop's tokens followed by one Eof token with
      an empty lexeme, no literal and the final line. */
  function ScanTokens(source: string): (r: ScanResult)
    ensures r.Scanned? ==> |r.tokens| > 0 && r.tokens[|r.tokens| - 1].kind == Eof
    ensures r.Scanned? ==> r.tokens[|r.tokens| - 1].lexeme == "" && r.tokens[|r.tokens| - 1].literal == NoLiteral
    ensures r.Faulted? ==> r.message == EndOfSource
  {
    match ScanLoop(Init(source))
    case Fault(at) => Faulted(EndOfSource, at.diags)
    case Ok(s) => Scanned(s.tokens + [Token(Eof, "", NoLiteral, s.line)], s.spans, s.diags)
  }

  /** The scan as the source writes it: a loop over a mutable cursor that
      calls the one-lexeme step until the end of input. */
  method RunScanner(source: string) returns (r: ScanResult)
    ensures r == ScanTokens(source)
  {
    var s := Init(source);
    while !AtEnd(s)
      invariant Bounded(s) && s.source == source
      invariant ScanLoop(s) == ScanLoop(Init(source))
      decreases |source| - s.current
    {
      var step := ScanToken(s.(start := s.current));
      if step.Fault? {
        return Faulted(EndOfSource, step.at.diags);
      }
      s := step.value;
    }
    r := Scanned(s.tokens + [Token(Eof, "", NoLiteral, s.line)], s.spans, s.diags);
  }
}
