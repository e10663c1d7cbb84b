/**
 * Token kinds and tokens of the IDL lexer (idl/lex.go).
 *
 * Go's byte strings are modelled as Dafny strings holding one char per byte;
 * the lexer and the parser only ever compare them with ASCII characters.
 */
module Tokens {

  /** The kinds of token, in the order of their Go iota values. */
  datatype TokenId =
    | Identifier
    | Hash
    | StringLiteral
    | Colon
    | Semicolon
    | OpenBrace
    | CloseBrace
    | OpenSquareBracket
    | CloseSquareBracket
    | OpenBracket
    | CloseBracket
    | Equals
    | EndLine
    | Comma
    | LessThan
    | GreaterThan
    | Namespace
    | Invalid

  /** A classified piece of the input with its literal text. */
  datatype Token = Token(id: TokenId, value: string)

  /** The numeric value Go gives each kind (its iota). */
  function Ordinal(id: TokenId): nat
  {
    match id
    case Identifier => 0
    case Hash => 1
    case StringLiteral => 2
    case Colon => 3
    case Semicolon => 4
    case OpenBrace => 5
    case CloseBrace => 6
    case OpenSquareBracket => 7
    case CloseSquareBracket => 8
    case OpenBracket => 9
    case CloseBracket => 10
    case Equals => 11
    case EndLine => 12
    case Comma => 13
    case LessThan => 14
    case GreaterThan => 15
    case Namespace => 16
    case Invalid => 17
  }

  /** The decimal digits of a natural number, most significant first, as `%d` prints them. */
  function NatText(n: nat): (r: string)
    ensures |r| > 0 && forall i | 0 <= i < |r| :: '0' <= r[i] <= '9'
    decreases n
  {
    if n < 10 then [('0' as int + n) as char]
    else NatText(n / 10) + [('0' as int + n % 10) as char]
  }

  /** The value of a string of decimal digits. */
  function DigitsValue(s: string): int
  {
    if |s| == 0 then 0 else DigitsValue(s[..|s| - 1]) * 10 + (s[|s| - 1] as int - '0' as int)
  }

  /** Reading back the digits gives the number. */
  lemma {:induction false} NatTextRoundTrip(n: nat)
    ensures DigitsValue(NatText(n)) == n
    decreases n
  {
    if n >= 10 {
      NatTextRoundTrip(n / 10);
      var r := NatText(n);
      assert r[..|r| - 1] == NatText(n / 10);
    }
  }

  /**
   * The text Go's `%s` prints for a token kind: its display name followed by
   * its numeric value in parentheses, as in "identifier(0)". It is only used
   * in the typedef parser's "expected semicolon, got: ..." message.
   */
  function TokenIdText(id: TokenId): string
  {
    var name :=
      match id
      case Identifier => "identifier"
      case Hash => "#"
      case StringLiteral => "quoted string"
      case Colon => ":"
      case Semicolon => ";"
      case OpenBrace => "{"
      case CloseBrace => "}"
      case OpenSquareBracket => "["
      case CloseSquareBracket => "]"
      case OpenBracket => "("
      case CloseBracket => ")"
      case Equals => "="
      case EndLine => "\\n"
      case Comma => ","
      case LessThan => "<"
      case GreaterThan => ">"
      case Namespace => "::"
      case Invalid => "(invalid)";
    name + "(" + NatText(Ordinal(id)) + ")"
  }

  /** The text ends in the kind's numeric value, in parentheses, and that number reads back as the value. */
  lemma TokenIdTextNumber(id: TokenId)
    ensures var r := TokenIdText(id);
            var n := |NatText(Ordinal(id))|;
            |r| >= n + 2 && r[|r| - n - 2] == '(' && r[|r| - 1] == ')' &&
            DigitsValue(r[|r| - n - 1..|r| - 1]) == Ordinal(id)
  {
    var r := TokenIdText(id);
    var d := NatText(Ordinal(id));
    NatTextRoundTrip(Ordinal(id));
    assert r[|r| - |d| - 1..|r| - 1] == d;
  }

  /** The `n` consecutive characters from code `lo` on. */
  function Span(lo: int, n: nat): (r: string)
    requires 0 <= lo && lo + n <= 0xD800
    ensures |r| == n && forall i | 0 <= i < n :: r[i] as int == lo + i
  {
    seq(n, i requires 0 <= i < n => (lo + i) as char)
  }

  /** A character is in a span exactly when its code lies in the range. */
  lemma SpanIff(lo: int, n: nat, c: char)
    requires 0 <= lo && lo + n <= 0xD800
    ensures c in Span(lo, n) <==> lo <= c as int < lo + n
  {
    var r := Span(lo, n);
    if lo <= c as int < lo + n {
      assert r[c as int - lo] == c;
    }
  }

  /** The letters `a` to `z`. */
  const LowerLetters: string := Span('a' as int, 26)

  /** The letters `A` to `Z`. */
  const UpperLetters: string := Span('A' as int, 26)

  /** The digits `1` to `9`. */
  const NonZeroDigits: string := Span('1' as int, 9)

  /**
   * The bytes that may appear in an identifier, in the order the lexer lists
   * them: "abc...zABC...Z1234567890_".
   */
  const ValidInIdentifiers: string := LowerLetters + UpperLetters + NonZeroDigits + "0_"

  /** The identifier bytes as character ranges. */
  predicate IsIdentifierByte(c: char)
  {
    'a' <= c <= 'z' || 'A' <= c <= 'Z' || '0' <= c <= '9' || c == '_'
  }

  /** Membership in the identifier byte list is exactly the character ranges. */
  lemma IdentifierByteIff(c: char)
    ensures c in ValidInIdentifiers <==> IsIdentifierByte(c)
  {
    SpanIff('a' as int, 26, c);
    SpanIff('A' as int, 26, c);
    SpanIff('1' as int, 9, c);
    assert c in ValidInIdentifiers <==> c in LowerLetters || c in UpperLetters || c in NonZeroDigits || c in "0_";
  }

  /** Kinds whose tokens always carry an empty value. */
  predicate IsPunctuation(id: TokenId)
  {
    id != Identifier && id != StringLiteral && id != Invalid
  }
}
