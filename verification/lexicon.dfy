/** The vocabulary of the Lox scanner: token types, tokens, literals,
    diagnostics, the reserved-word table and the character classes. */
module Lexicon {

  /** The closed set of lexical categories. */
  datatype TokenType =
    // single-character punctuation
    | LeftParen | RightParen | LeftBrace | RightBrace
    | Comma | Dot | Minus | Plus | Semicolon | Slash | Star
    // one- or two-character operators
    | Bang | BangEqual | Equal | EqualEqual
    | Greater | GreaterEqual | Less | LessEqual
    // literals
    | Identifier | String | Number
    // reserved words
    | And | Class | Else | False | Fun | For | If | Nil
    | Or | Print | Return | Super | This | True | Var | While
    // end of input
    | Eof

  /** The literal value of a token: absent, the text of a string literal, or
      a numeral (the text a floating-point conversion would read). */
  datatype Literal = NoLiteral | Text(text: string) | Numeral(digits: string)

  datatype Token = Token(kind: TokenType, lexeme: string, literal: Literal, line: nat)

  /** A report handed to the diagnostic sink. */
  datatype Diagnostic = Diagnostic(line: nat, message: string)

  /** The half-open source range [start, end) a token was cut from. */
  datatype Span = Span(start: nat, end: nat)

  const UnexpectedCharacter: string := "Unexpected character."
  const UnclosedString: string := "Unclosed string literal"

  /** The reserved-word table: sixteen exact, case-sensitive spellings. */
  const Keywords: map<string, TokenType> := map[
    "and" := And, "class" := Class, "else" := Else, "false" := False,
    "for" := For, "fun" := Fun, "if" := If, "nil" := Nil,
    "or" := Or, "print" := Print, "return" := Return, "super" := Super,
    "this" := This, "true" := True, "var" := Var, "while" := While
  ]

  /** The type of a scanned word: the reserved-word type the table gives
      it, or Identifier when the table has no entry for it. */
  function WordKind(text: string): (k: TokenType)
    ensures text in Keywords ==> IsKeyword(k) && FixedSpelling(k) == text
    ensures text !in Keywords ==> k == Identifier
  {
    if text in Keywords then Keywords[text] else Identifier
  }

  predicate IsKeyword(k: TokenType) {
    match k
    case And | Class | Else | False | Fun | For | If | Nil => true
    case Or | Print | Return | Super | This | True | Var | While => true
    case _ => false
  }

  /** The one spelling a token type with a fixed lexeme has; the empty
      string for the types whose lexeme varies (and for Eof). */
  function FixedSpelling(k: TokenType): string {
    match k
    case LeftParen => "("
    case RightParen => ")"
    case LeftBrace => "{"
    case RightBrace => "}"
    case Comma => ","
    case Dot => "."
    case Minus => "-"
    case Plus => "+"
    case Semicolon => ";"
    case Slash => "/"
    case Star => "*"
    case Bang => "!"
    case BangEqual => "!="
    case Equal => "="
    case EqualEqual => "=="
    case Greater => ">"
    case GreaterEqual => ">="
    case Less => "<"
    case LessEqual => "<="
    case And => "and"
    case Class => "class"
    case Else => "else"
    case False => "false"
    case Fun => "fun"
    case For => "for"
    case If => "if"
    case Nil => "nil"
    case Or => "or"
    case Print => "print"
    case Return => "return"
    case Super => "super"
    case This => "this"
    case True => "true"
    case Var => "var"
    case While => "while"
    case Identifier | String | Number | Eof => ""
  }

  // Character classes. Only ASCII letters and digits: no underscore and no
  // other alphabet.

  predicate IsDigit(c: char) {
    '0' <= c <= '9'
  }

  predicate IsAlpha(c: char) {
    ('a' <= c <= 'z') || ('A' <= c <= 'Z')
  }

  predicate IsAlphaNumeric(c: char) {
    IsDigit(c) || IsAlpha(c)
  }

  /** The digit class is exactly the ten ASCII digits. */
  lemma DigitChars()
    ensures forall c :: IsDigit(c) <==> c in "0123456789"
  {
  }

  /** The letter class is exactly the fifty-two ASCII letters. */
  lemma LetterChars()
    ensures forall c :: IsAlpha(c) <==> c in "abcdefghijklmnopqrstuvwxyz" || c in "ABCDEFGHIJKLMNOPQRSTUVWXYZ"
  {
    LowerChars();
    UpperChars();
  }

  /** The alphanumeric class is exactly the ASCII digits and letters. */
  lemma AlphaNumericChars()
    ensures forall c :: IsAlphaNumeric(c) <==>
      c in "0123456789" || c in "abcdefghijklmnopqrstuvwxyz" || c in "ABCDEFGHIJKLMNOPQRSTUVWXYZ"
  {
    DigitChars();
    LetterChars();
  }

  lemma LowerChars()
    ensures forall c :: 'a' <= c <= 'z' <==> c in "abcdefghijklmnopqrstuvwxyz"
  {
  }

  lemma UpperChars()
    ensures forall c :: 'A' <= c <= 'Z' <==> c in "ABCDEFGHIJKLMNOPQRSTUVWXYZ"
  {
  }

  /** A non-empty run of alphanumerics that starts with a letter. */
  predicate IsIdentifierText(w: string) {
    && |w| > 0
    && IsAlpha(w[0])
    && forall i :: 0 <= i < |w| ==> IsAlphaNumeric(w[i])
  }

  /** Every entry of the reserved-word table maps a word to a reserved-word
      type whose fixed spelling is that word. */
  lemma KeywordSpellings()
    ensures forall w :: w in Keywords ==> IsKeyword(Keywords[w]) && FixedSpelling(Keywords[w]) == w
  {
  }

  /** Every reserved word is spelled like an identifier, so the identifier
      rule can reach it. */
  lemma KeywordsAreIdentifierText()
    ensures forall w :: w in Keywords ==> IsIdentifierText(w)
  {
  }

  /** Every reserved-word type is in the table under its fixed spelling. */
  lemma KeywordTableComplete()
    ensures forall k :: IsKeyword(k) ==> FixedSpelling(k) in Keywords && Keywords[FixedSpelling(k)] == k
  {
    forall k | IsKeyword(k)
      ensures FixedSpelling(k) in Keywords && Keywords[FixedSpelling(k)] == k
    {
      match k
      case And | Class | Else | False | Fun | For | If | Nil =>
      case _ =>
    }
  }

  /** The character classes the scanner dispatches on: digits and letters
      are disjoint, and neither the underscore nor the NUL character that
      lookahead yields past the end belongs to either. */
  lemma CharacterClasses()
    ensures forall c :: IsDigit(c) ==> !IsAlpha(c)
    ensures !IsAlphaNumeric('_') && !IsAlphaNumeric('\0')
    ensures forall c :: IsAlphaNumeric(c) ==> c != '\n' && c != '"' && c != '.'
  {
  }
}
