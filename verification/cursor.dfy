/** The scanner's cursor state and the primitives that read and move it. */
module Cursor {
  import opened Lexicon
  import opened Grammar

  /** One scan in progress: the source, the start of the lexeme being
      scanned, the character being considered, the line `current` is on,
      the tokens emitted so far together with the span each was cut from,
      and the diagnostics reported so far. */
  datatype State = State(
    source: string,
    start: nat,
    current: nat,
    line: nat,
    tokens: seq<Token>,
    spans: seq<Span>,
    diags: seq<Diagnostic>)

  /** Either a value, or the state at which the scanner faulted by reading
      past the end of the source. */
  datatype Outcome<T> = Ok(value: T) | Fault(at: State)

  const EndOfSource: string := "Unexpected end of source"

  /** A fresh scan of `source`: the cursor on the first character of line
      1, nothing emitted and nothing reported. */
  function Init(source: string): (r: State)
    ensures Bounded(r) && r.source == source && r.start == r.current == 0
    ensures r.line == 1 && r.tokens == [] && r.spans == [] && r.diags == []
  {
    State(source, 0, 0, 1, [], [], [])
  }

  /** The cursor positions stay inside the source. */
  predicate Bounded(s: State) {
    s.start <= s.current <= |s.source|
  }

  /** No character is left to consume; within bounds, exactly when the
      cursor is at the end of the source. */
  predicate AtEnd(s: State) {
    s.current >= |s.source|
  }

  /** One character of lookahead; NUL past the end. */
  function Peek(s: State): char
  {
    if AtEnd(s) then '\0' else s.source[s.current]
  }

  /** Two characters of lookahead; NUL past the end. */
  function PeekNext(s: State): char
  {
    if s.current + 1 >= |s.source| then '\0' else s.source[s.current + 1]
  }

  /** Moves the cursor over one character whose presence the caller has
      already checked. */
  function Next(s: State): (r: State)
    requires !AtEnd(s)
    ensures r.current == s.current + 1
  {
    s.(current := s.current + 1)
  }

  /** Consumes and returns the character under the cursor, faulting when
      there is none. */
  function Advance(s: State): (r: Outcome<(State, char)>)
    ensures r.Fault? <==> AtEnd(s)
    ensures r.Fault? ==> r.at == s
    ensures r.Ok? ==> r.value.1 == Peek(s) && r.value.0.current == s.current + 1
    ensures r.Ok? ==> r.value.0 == s.(current := r.value.0.current)
  {
    if AtEnd(s) then Fault(s) else Ok((Next(s), s.source[s.current]))
  }

  /** Consumes the next character when it is `c`. */
  function Match(s: State, c: char): (r: (bool, State))
    ensures r.0 <==> !AtEnd(s) && s.source[s.current] == c
    ensures r.0 ==> r.1 == s.(current := s.current + 1)
    ensures !r.0 ==> r.1 == s
  {
    if AtEnd(s) then (false, s)
    else if s.source[s.current] != c then (false, s)
    else (true, Next(s))
  }

  /** Reports a diagnostic at the current line; nothing else changes. */
  function Report(s: State, message: string): (r: State)
    ensures r.diags == s.diags + [Diagnostic(s.line, message)]
    ensures r == s.(diags := r.diags)
  {
    s.(diags := s.diags + [Diagnostic(s.line, message)])
  }

  /** Emits a token of type `kind` whose lexeme is the current lexeme
      [start, current), stamped with the current line. */
  function AddToken(s: State, kind: TokenType, literal: Literal): (r: State)
    requires Bounded(s)
    ensures r.tokens == s.tokens + [Token(kind, s.source[s.start..s.current], literal, s.line)]
    ensures r.spans == s.spans + [Span(s.start, s.current)]
    ensures r == s.(tokens := r.tokens, spans := r.spans)
  {
    s.(tokens := s.tokens + [Token(kind, s.source[s.start..s.current], literal, s.line)],
       spans := s.spans + [Span(s.start, s.current)])
  }

  /** Matching a character other than NUL is looking at it and, when it is
      there, advancing over it. */
  lemma MatchIsPeekThenAdvance(s: State, c: char)
    requires c != '\0'
    ensures Match(s, c).0 <==> Peek(s) == c
    ensures Match(s, c).0 ==> Advance(s).Ok? && Match(s, c).1 == Advance(s).value.0
  {
  }

  /** The scanner's lookahead is the grammar's: the character at the
      cursor and the one after it, NUL past the end of the source; and a
      cursor within bounds is at the end exactly on the source's length. */
  lemma Lookahead(s: State)
    ensures Peek(s) == CharAt(s.source, s.current)
    ensures PeekNext(s) == CharAt(s.source, s.current + 1)
    ensures Bounded(s) ==> (AtEnd(s) <==> s.current == |s.source|)
  {
  }

  /** Two-character lookahead is one-character lookahead after one step. */
  lemma PeekNextIsPeekAfterNext(s: State)
    requires !AtEnd(s)
    ensures PeekNext(s) == Peek(Next(s))
  {
  }
}
