/**
 * The token vocabulary of the front end: delimiters, punctuation, literals,
 * comments, operators and keywords, and the token record itself
 * (src/tokenizer/token.rs).
 *
 * Field accessors of the source (`Token::position`, `Token::ty`,
 * `TokenPosition::line`, `Delimeter::side`, ...) are the datatype
 * destructors below, so they return the stored fields by construction.
 */
module Tokens {
  import opened Wrappers

  /** One byte of source text, read as the character of the same value (what `u8 as char` gives). */
  type Byte = c: char | c as int < 256

  /** A decimal digit value. */
  type Digit = d: nat | d < 10

  /** Unsigned 64-bit integers, the type of an integer literal's value. */
  newtype u64 = x: int | 0 <= x < 0x1_0000_0000_0000_0000

  datatype DelimeterType = Parentheses | Square | Curly

  datatype DelimeterSide = Left | Right

  datatype Delimeter = Delimeter(ty: DelimeterType, side: DelimeterSide)

  /**
   * `DoubleColon` (the `::` path separator) is matched by the parser but is
   * missing from the enum in token.rs; it is added here, and the tokenizer
   * never produces it.
   */
  datatype Punctuation =
    | Semicolon
    | Comma
    | Colon
    | DoubleColon
    | FatArrow
    | Dot
    | DoubleDot
    | TripleDot
    | HashSymbol
    | AtSign
    | QuestionMark
    | Dollar
    | DoubleDollar

  /**
   * A number literal. The fractional part of a float is kept as its digit
   * sequence rather than as an f64 value.
   */
  datatype NumberLiteral =
    | Integer(value: u64)
    | Float(whole: u64, fraction: seq<Digit>)

  datatype Literal =
    | Number(number: NumberLiteral)
    | String(text: string)
    | Char(character: char)

  datatype Comment = SingleLine | MultiLine

  datatype Operator =
      // unary
    | Plus
    | Minus
    | DoublePlus
    | DoubleMinus
    | Tilda
    | Bang
      // binary
    | Star
    | Slash
    | BangEquals
    | RightShift
    | LesserThan
    | DoubleStar
    | DoubleAnd
    | DoubleOr
    | DoubleEquals
    | GreaterThan
    | Caret
    | Percent
    | SingleAnd
    | SingleOr
    | LeftShift
      // assignment
    | Equals
    | PlusEquals
    | MinusEquals
    | StarEquals
    | SlashEquals
    | TildaEquals
    | DoubleStarEquals
    | DoubleAndEquals
    | DoubleOrEquals
    | LesserThanEquals
    | GreaterThanEquals
    | CaretEquals
    | PercentEquals
    | SingleAndEquals
    | SingleOrEquals
    | LeftShiftEquals
    | RightShiftEquals

  datatype Keyword = Underscore

  /** The closed set of eight token kinds. */
  datatype TokenType =
    | Identifier
    | Whitespace
    | Punctuation(punctuation: Punctuation)
    | Delimeter(delimeter: Delimeter)
    | Literal(literal: Literal)
    | Comment(comment: Comment)
    | Operator(operator: Operator)
    | Keyword(keyword: Keyword)

  /** Where a token sits: byte offset, line, column, and the bytes it covers. */
  datatype TokenPosition = TokenPosition(absolutePosition: nat, line: nat, column: nat, text: seq<Byte>)

  datatype Token = Token(position: TokenPosition, ty: TokenType) {
    /** The token's text, as the parser reads it. */
    function Text(): seq<Byte> {
      position.text
    }
  }

  /** The token kind of a delimiter. */
  function Delim(ty: DelimeterType, side: DelimeterSide): TokenType {
    TokenType.Delimeter(Delimeter.Delimeter(ty, side))
  }

  const LeftParen: TokenType := Delim(Parentheses, Left)
  const RightParen: TokenType := Delim(Parentheses, Right)
  const LeftSquare: TokenType := Delim(Square, Left)
  const RightSquare: TokenType := Delim(Square, Right)

  /** The keyword table: `_` is the only keyword. */
  function GetKeyword(s: seq<Byte>): (k: Option<Keyword>)
    ensures k.Some? <==> s == "_"
    ensures k.Some? ==> k.value == Underscore
  {
    if s == "_" then Some(Underscore) else None
  }
}
