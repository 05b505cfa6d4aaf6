/** A reference description of Lox tokens, independent of the scanning
    algorithm: which texts each token type admits, when a token is as long
    as it can be, and which line a source position lies on. */
module Grammar {
  import opened Lexicon

  /** The number of newline characters in `text`. */
  function Newlines(text: string): nat {
    if |text| == 0 then 0
    else Newlines(text[..|text| - 1]) + (if text[|text| - 1] == '\n' then 1 else 0)
  }

  /** The 1-based line on which position `pos` of `src` lies. */
  function LineAt(src: string, pos: nat): nat
    requires pos <= |src|
  {
    1 + Newlines(src[..pos])
  }

  /** Moving over one character raises the line by one exactly when that
      character is a newline. */
  lemma LineAtNext(src: string, pos: nat)
    requires pos < |src|
    ensures LineAt(src, pos + 1) == LineAt(src, pos) + (if src[pos] == '\n' then 1 else 0)
  {
    assert src[..pos + 1][..pos] == src[..pos];
  }

  /** Moving over text with no newline keeps the line. */
  lemma {:induction false} LineAtSkip(src: string, a: nat, b: nat)
    requires a <= b <= |src|
    requires forall k :: a <= k < b ==> src[k] != '\n'
    ensures LineAt(src, b) == LineAt(src, a)
    decreases b - a
  {
    if a < b {
      LineAtSkip(src, a, b - 1);
      LineAtNext(src, b - 1);
    }
  }

  /** Lines never decrease along the source. */
  lemma {:induction false} LineAtMonotone(src: string, a: nat, b: nat)
    requires a <= b <= |src|
    ensures LineAt(src, a) <= LineAt(src, b)
    decreases b - a
  {
    if a < b {
      LineAtMonotone(src, a, b - 1);
      LineAtNext(src, b - 1);
    }
  }

  /** The newlines of a concatenation are those of its parts. */
  lemma {:induction false} NewlinesAppend(a: string, b: string)
    ensures Newlines(a + b) == Newlines(a) + Newlines(b)
    decreases |b|
  {
    if |b| > 0 {
      var b' := b[..|b| - 1];
      assert (a + b)[..|a + b| - 1] == a + b';
      NewlinesAppend(a, b');
    } else {
      assert a + b == a;
    }
  }

  /** The line at `b` is the line at `a` plus the newlines in between. */
  lemma LineAtRange(src: string, a: nat, b: nat)
    requires a <= b <= |src|
    ensures LineAt(src, b) == LineAt(src, a) + Newlines(src[a..b])
  {
    assert src[..b] == src[..a] + src[a..b];
    NewlinesAppend(src[..a], src[a..b]);
  }

  /** A non-empty run of decimal digits. */
  predicate IsDigits(w: string) {
    |w| > 0 && forall i :: 0 <= i < |w| ==> IsDigit(w[i])
  }

  /** A number: a digit run, optionally followed by a dot and a second digit
      run; a dot with no digit after it is not part of a number. */
  ghost predicate IsNumberText(w: string) {
    || IsDigits(w)
    || exists k :: 0 < k < |w| - 1 && w[k] == '.' && IsDigits(w[..k]) && IsDigits(w[k + 1..])
  }

  /** A string literal: a double quote, anything but a double quote (newlines
      included, no escapes), and a closing double quote. */
  predicate IsStringText(w: string) {
    && |w| >= 2
    && w[0] == '"' && w[|w| - 1] == '"'
    && forall i :: 0 < i < |w| - 1 ==> w[i] != '"'
  }

  /** What a token's type says about its lexeme and literal. */
  ghost predicate WellFormed(t: Token) {
    match t.kind
    case Identifier => IsIdentifierText(t.lexeme) && t.lexeme !in Keywords && t.literal == NoLiteral
    case String => IsStringText(t.lexeme) && t.literal == Text(t.lexeme[1..|t.lexeme| - 1])
    case Number => IsNumberText(t.lexeme) && t.literal == Numeral(t.lexeme)
    case Eof => false
    case _ => t.lexeme == FixedSpelling(t.kind) && t.literal == NoLiteral
  }

  /** The character at `pos`, or NUL past the end. */
  function CharAt(src: string, pos: nat): char {
    if pos < |src| then src[pos] else '\0'
  }

  /** Maximal munch: the source after a token that ends at `end` could not
      have extended it into a longer token of the same family. */
  ghost predicate Maximal(src: string, t: Token, end: nat) {
    var next := CharAt(src, end);
    match t.kind
    case Bang | Equal | Less | Greater => next != '='
    case Slash => next != '/'
    case Identifier => !IsAlphaNumeric(next)
    case Number =>
      && !IsDigit(next)
      && (IsDigits(t.lexeme) ==> !(next == '.' && IsDigit(CharAt(src, end + 1))))
    case _ => IsKeyword(t.kind) ==> !IsAlphaNumeric(next)
  }

  /** Token `t` was cut from `src` at `sp`: its lexeme is that slice, it is
      well formed and maximal, and it carries the line its last character
      lies on. */
  ghost predicate Lexed(src: string, t: Token, sp: Span) {
    && sp.start < sp.end <= |src|
    && t.lexeme == src[sp.start..sp.end]
    && t.line == LineAt(src, sp.end)
    && WellFormed(t)
    && Maximal(src, t, sp.end)
  }
}
