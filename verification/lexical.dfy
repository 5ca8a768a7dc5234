/**
 * What one scan step of the tokenizer produces, as pure functions over the
 * immutable byte sequence (src/tokenizer/mod.rs). `Lex(bin, pos)` describes
 * the token that starts at `pos`: its kind or error, the offset one past its
 * last byte, and whether an unclosed-comment diagnostic is reported. The
 * imperative cursor machine in the Scanner module is proved to compute
 * exactly this.
 */
module Lexical {
  import opened Wrappers
  import opened Tokens
  import opened Sources

  datatype TokenizerError =
    | UnfinishedString
    | UnfinishedChar
    | AlreadyDone
    | Unexpected(byte: Byte)

  /** The byte at `i`, if any (`bin.get(i)`). */
  function At(bin: seq<Byte>, i: nat): Option<Byte> {
    if i < |bin| then Some(bin[i]) else None
  }

  // ----- character classes -----

  predicate IsWhitespace(c: Byte) {
    c == ' ' || c == '\t' || c == '\n'
  }

  predicate IsIdentStart(c: Byte) {
    ('a' <= c <= 'z') || ('A' <= c <= 'Z') || c == '_'
  }

  predicate IsDigit(c: Byte) {
    '0' <= c <= '9'
  }

  predicate IsIdentByte(c: Byte) {
    IsIdentStart(c) || IsDigit(c)
  }

  predicate IsDigitOrUnderscore(c: Byte) {
    IsDigit(c) || c == '_'
  }

  predicate IsNotNewline(c: Byte) {
    c != '\n'
  }

  /** The end of the maximal run of bytes satisfying `p` that starts at `i`. */
  function RunEnd(bin: seq<Byte>, i: nat, p: Byte -> bool): (e: nat)
    requires i <= |bin|
    ensures i <= e <= |bin|
    ensures forall k | i <= k < e :: p(bin[k])
    ensures e < |bin| ==> !p(bin[e])
    decreases |bin| - i
  {
    if i < |bin| && p(bin[i]) then RunEnd(bin, i + 1, p) else i
  }

  /** A run that satisfies `p` throughout and is not followed by a `p` byte is the maximal one. */
  lemma {:induction false} RunEndUnique(bin: seq<Byte>, i: nat, e: nat, p: Byte -> bool)
    requires i <= e <= |bin|
    requires forall k | i <= k < e :: p(bin[k])
    requires e < |bin| ==> !p(bin[e])
    ensures RunEnd(bin, i, p) == e
    decreases e - i
  {
    if i < e {
      RunEndUnique(bin, i + 1, e, p);
    }
  }

  // ----- number literals -----

  function DigitValue(c: Byte): Digit
    requires IsDigit(c)
  {
    c as int - '0' as int
  }

  /** The digit values of `s`, in order, with every non-digit (the `_` separators) dropped. */
  function Digits(s: seq<Byte>): (ds: seq<Digit>)
    ensures |ds| <= |s|
    decreases |s|
  {
    if s == [] then []
    else Digits(s[..|s| - 1]) + (if IsDigit(s[|s| - 1]) then [DigitValue(s[|s| - 1])] else [])
  }

  /** Reading one more byte of a run adds its digit, if it is one. */
  lemma DigitsSnoc(bin: seq<Byte>, from: nat, j: nat)
    requires from <= j < |bin|
    ensures Digits(bin[from..j + 1]) == Digits(bin[from..j]) + (if IsDigit(bin[j]) then [DigitValue(bin[j])] else [])
  {
    assert bin[from..j + 1][..j - from] == bin[from..j];
  }

  function Pow10(n: nat): (p: nat)
    ensures p >= 1
  {
    if n == 0 then 1 else 10 * Pow10(n - 1)
  }

  lemma {:induction false} Pow10Monotone(m: nat, n: nat)
    requires m <= n
    ensures Pow10(m) <= Pow10(n)
    decreases n - m
  {
    if m < n {
      Pow10Monotone(m, n - 1);
    }
  }

  /** A digit sequence read in base 10, most significant digit first. */
  function Decimal(ds: seq<Digit>): (v: nat)
    ensures v < Pow10(|ds|)
  {
    if ds == [] then 0 else Decimal(ds[..|ds| - 1]) * 10 + ds[|ds| - 1]
  }

  /** Reading a leading digit adds its weight at the top. */
  lemma {:induction false} DecimalPrepend(d: Digit, ds: seq<Digit>)
    ensures Decimal([d] + ds) == d * Pow10(|ds|) + Decimal(ds)
    decreases |ds|
  {
    if ds == [] {
      assert Decimal([d]) == Decimal([]) * 10 + d;
    } else {
      var init, last := ds[..|ds| - 1], ds[|ds| - 1];
      var t := [d] + ds;
      assert t[..|t| - 1] == [d] + init;
      DecimalPrepend(d, init);
      var p := Pow10(|init|);
      assert d * Pow10(|ds|) == 10 * (d * p) by {
        assert Pow10(|ds|) == 10 * p;
        MulTen(d, p);
      }
    }
  }

  lemma MulTen(a: int, b: int)
    ensures a * (10 * b) == 10 * (a * b)
  {
  }

  /** The longest integer part whose evaluation stays inside u64 (a 20th digit overflows `pow`). */
  const MaxIntegerDigits: nat := 19

  lemma MaxIntegerFits()
    ensures Pow10(MaxIntegerDigits) == 10_000_000_000_000_000_000 < 0x1_0000_0000_0000_0000
  {
    assert Pow10(1) == 10;
    assert Pow10(2) == 100;
    assert Pow10(3) == 1000;
    assert Pow10(4) == 10000;
    assert Pow10(5) == 100000;
    assert Pow10(6) == 1000000;
    assert Pow10(7) == 10000000;
    assert Pow10(8) == 100000000;
    assert Pow10(9) == 1000000000;
    assert Pow10(10) == 10000000000;
    assert Pow10(11) == 100000000000;
    assert Pow10(12) == 1000000000000;
    assert Pow10(13) == 10000000000000;
    assert Pow10(14) == 100000000000000;
    assert Pow10(15) == 1000000000000000;
    assert Pow10(16) == 10000000000000000;
    assert Pow10(17) == 100000000000000000;
    assert Pow10(18) == 1000000000000000000;
    assert Pow10(19) == 10000000000000000000;
  }

  /** One step of reading digits right to left: the weight of `v[i]` and the room left in u64. */
  lemma DecimalSuffix(v: seq<Digit>, i: nat)
    requires i < |v| <= MaxIntegerDigits
    ensures Decimal(v[i..]) == v[i] * Pow10(|v| - i - 1) + Decimal(v[i + 1..])
    ensures Pow10(|v| - i) < 0x1_0000_0000_0000_0000
  {
    assert v[i..] == [v[i]] + v[i + 1..];
    DecimalPrepend(v[i], v[i + 1..]);
    Pow10Monotone(|v| - i, MaxIntegerDigits);
    MaxIntegerFits();
  }

  /**
   * One step of reading digits right to left, in terms of the running value
   * `acc` of the lower places and the running weight `w`: the sum and the
   * next weight are the next place's, and both fit in u64.
   */
  lemma DigitWeight(v: seq<Digit>, i: nat, acc: int, w: int)
    requires i < |v| <= MaxIntegerDigits
    requires acc == Decimal(v[i + 1..]) && w == Pow10(|v| - i - 1)
    ensures acc + v[i] * w == Decimal(v[i..]) < 0x1_0000_0000_0000_0000
    ensures w * 10 == Pow10(|v| - i) < 0x1_0000_0000_0000_0000
  {
    DecimalSuffix(v, i);
  }

  /** End of the integer part of a number that starts at `pos`: digits and `_`. */
  function IntegerEnd(bin: seq<Byte>, pos: nat): nat
    requires pos < |bin|
  {
    RunEnd(bin, pos + 1, IsDigitOrUnderscore)
  }

  /** The number starting at `pos` has an integer part short enough not to overflow. */
  predicate NumberFits(bin: seq<Byte>, pos: nat)
    requires pos < |bin|
  {
    |Digits(bin[pos..IntegerEnd(bin, pos)])| <= MaxIntegerDigits
  }

  /** The value of the integer part of the number at `pos`: its digits in base 10. */
  function IntegerValue(bin: seq<Byte>, pos: nat): u64
    requires pos < |bin| && NumberFits(bin, pos)
  {
    var ds := Digits(bin[pos..IntegerEnd(bin, pos)]);
    Pow10Monotone(|ds|, MaxIntegerDigits);
    MaxIntegerFits();
    Decimal(ds) as u64
  }

  /** The number literal at `pos` and its end: an integer part, then optionally `.` and a fraction. */
  function NumberAt(bin: seq<Byte>, pos: nat): (r: (NumberLiteral, nat))
    requires pos < |bin| && IsDigit(bin[pos]) && NumberFits(bin, pos)
    ensures pos < r.1 <= |bin|
  {
    var intEnd := IntegerEnd(bin, pos);
    if At(bin, intEnd) == Some('.') then
      var f := FractionAt(bin, intEnd + 1);
      (Float(IntegerValue(bin, pos), f.0), f.1)
    else
      (Integer(IntegerValue(bin, pos)), intEnd)
  }

  /** The digits of the fraction that starts at `i`, and its end: a run of digits and `_`. */
  function FractionAt(bin: seq<Byte>, i: nat): (f: (seq<Digit>, nat))
    requires i <= |bin|
    ensures i <= f.1 <= |bin|
  {
    var e := RunEnd(bin, i, IsDigitOrUnderscore);
    (Digits(bin[i..e]), e)
  }

  // ----- character and string literals -----

  /**
   * The char literal whose opening quote is at `pos`: one byte, or a
   * backslash and one byte taken as is, then a mandatory closing quote.
   */
  function CharAt(bin: seq<Byte>, pos: nat): (r: (Result<char, TokenizerError>, nat))
    requires pos < |bin|
    ensures pos < r.1 <= |bin|
    ensures r.0.Err? ==> r.0.error == UnfinishedChar
  {
    if pos + 1 == |bin| then (Err(UnfinishedChar), pos + 1)
    else if bin[pos + 1] == '\\' then
      if pos + 2 == |bin| then (Err(UnfinishedChar), pos + 2)
      else if At(bin, pos + 3) == Some('\'') then (Ok(bin[pos + 2]), pos + 4)
      else (Err(UnfinishedChar), pos + 3)
    else if At(bin, pos + 2) == Some('\'') then (Ok(bin[pos + 1]), pos + 3)
    else (Err(UnfinishedChar), pos + 2)
  }

  /** The letter that stands for a byte after a backslash: newline, tab and NUL are written `n`, `t` and `0`. */
  function EscapeLetter(b: char): Option<Byte> {
    if b == '\n' then Some('n')
    else if b == '\t' then Some('t')
    else if b == '\0' then Some('0')
    else None
  }

  /** The escape table of string literals: each translation is the one byte its letter stands for. */
  function Escape(c: Byte): (s: Option<string>)
    ensures s.Some? <==> c in "nt0"
    ensures s.Some? ==> |s.value| == 1 && EscapeLetter(s.value[0]) == Some(c)
  {
    match c
    case 'n' => Some("\n")
    case 't' => Some("\t")
    case '0' => Some("\0")
    case _ => None
  }

  /** What an escaped byte contributes to a string: its translation, or the byte itself. */
  function Unescaped(c: Byte): string {
    match Escape(c)
    case Some(s) => s
    case None => [c]
  }

  /** `s` in front of the text of a successful scan; errors pass through. */
  function Prepend(s: string, r: Result<(string, nat), TokenizerError>): Result<(string, nat), TokenizerError> {
    match r
    case Ok(v) => Ok((s + v.0, v.1))
    case Err(e) => Err(e)
  }

  lemma PrependEmpty(r: Result<(string, nat), TokenizerError>)
    ensures Prepend([], r) == r
  {
    if r.Ok? {
      assert [] + r.value.0 == r.value.0;
    }
  }

  lemma PrependPrepend(s: string, u: string, r: Result<(string, nat), TokenizerError>)
    ensures Prepend(s, Prepend(u, r)) == Prepend(s + u, r)
  {
    if r.Ok? {
      assert s + (u + r.value.0) == (s + u) + r.value.0;
    }
  }

  /**
   * The rest of a string literal from byte `i` on, `escaped` telling whether
   * a backslash is pending: its text and the offset after the closing quote.
   */
  function StringBody(bin: seq<Byte>, i: nat, escaped: bool): (r: Result<(string, nat), TokenizerError>)
    requires i <= |bin|
    ensures r.Ok? ==> i < r.value.1 <= |bin|
    ensures r.Err? ==> r.error == UnfinishedString
    decreases |bin| - i
  {
    if i == |bin| then Err(UnfinishedString)
    else
      var c := bin[i];
      if c == '"' && !escaped then Ok(([], i + 1))
      else if c == '\\' && !escaped then StringBody(bin, i + 1, true)
      else if escaped then Prepend(Unescaped(c), StringBody(bin, i + 1, false))
      else Prepend([c], StringBody(bin, i + 1, false))
  }

  // ----- comments -----

  /**
   * Scanning a block comment from byte `i` on, with `pc` the byte before it
   * and `nest` open levels: the offset after the closing `*` `/` that brings
   * the level to zero and `true`, or the end of input and `false`.
   */
  function CommentEnd(bin: seq<Byte>, i: nat, pc: Byte, nest: nat): (r: (nat, bool))
    requires i <= |bin| && nest >= 1
    ensures i <= r.0 <= |bin|
    ensures r.1 ==> i < r.0
    ensures !r.1 ==> r.0 == |bin|
    decreases |bin| - i
  {
    if i == |bin| then (|bin|, false)
    else
      var c := bin[i];
      if pc == '*' && c == '/' then
        if nest == 1 then (i + 1, true) else CommentEnd(bin, i + 1, c, nest - 1)
      else if pc == '/' && c == '*' then CommentEnd(bin, i + 1, c, nest + 1)
      else CommentEnd(bin, i + 1, c, nest)
  }

  // ----- one scan step -----

  /** A scan step: the token kind or error, one past the last byte taken, and whether a diagnostic is due. */
  datatype Lexeme = Lexeme(result: Result<TokenType, TokenizerError>, end: nat, unclosed: bool)

  function Produce(ty: TokenType, end: nat): Lexeme {
    Lexeme(Ok(ty), end, false)
  }

  /** The block comment whose `/` is at `pos`; nothing after the opener is the one case that reports nothing. */
  function BlockCommentAt(bin: seq<Byte>, pos: nat): (x: Lexeme)
    requires pos + 1 < |bin|
    ensures x.result == Ok(TokenType.Comment(MultiLine))
    ensures pos + 2 <= x.end <= |bin|
    ensures x.unclosed ==> x.end == |bin|
  {
    if pos + 2 == |bin| then Produce(TokenType.Comment(MultiLine), pos + 2)
    else
      var r := CommentEnd(bin, pos + 3, bin[pos + 2], 1);
      Lexeme(Ok(TokenType.Comment(MultiLine)), r.0, !r.1)
  }

  /**
   * The token at `pos` is one the source can scan: an integer part that
   * fits in u64, and a newline somewhere after a `//` (without one the
   * source loops forever).
   */
  predicate Defined(bin: seq<Byte>, pos: nat)
    requires pos < |bin|
  {
    && (IsDigit(bin[pos]) ==> NumberFits(bin, pos))
    && (bin[pos] == '/' && At(bin, pos + 1) == Some('/') ==> '\n' in bin[pos + 1..])
  }

  /** The bytes that start a delimiter or a punctuation token. */
  predicate IsPunctuationStart(c: Byte) {
    c == '(' || c == ')' || c == '[' || c == ']' || c == '{' || c == '}' || c == '@' || c == ',' || c == ';' || c == ':' || c == '#' || c == '?' || c == '$' || c == '=' || c == '.'
  }

  /** The bytes that start an arithmetic operator, or a comment. */
  predicate IsArithmeticStart(c: Byte) {
    c == '+' || c == '-' || c == '*' || c == '!' || c == '~' || c == '^' || c == '%' || c == '/'
  }

  /** The bytes that start a logical, bitwise or comparison operator. */
  predicate IsLogicStart(c: Byte) {
    c == '&' || c == '|' || c == '<' || c == '>'
  }

  /** The token that starts at `pos`, by greedy longest match on its first bytes. */
  function Lex(bin: seq<Byte>, pos: nat): (x: Lexeme)
    requires pos < |bin| && Defined(bin, pos)
    ensures pos < x.end <= |bin| + 1
    ensures x.result.Ok? ==> x.end <= |bin|
    ensures x.unclosed ==> x.result == Ok(TokenType.Comment(MultiLine)) && x.end == |bin|
  {
    var c := bin[pos];
    if IsWhitespace(c) then
      Produce(Whitespace, RunEnd(bin, pos + 1, IsWhitespace))
    else if IsIdentStart(c) then
      var e := RunEnd(bin, pos + 1, IsIdentByte);
      Produce(match GetKeyword(bin[pos..e]) case Some(k) => Keyword(k) case None => Identifier, e)
    else if IsDigit(c) then
      var n := NumberAt(bin, pos);
      Produce(Literal(Number(n.0)), n.1)
    else if c == '\'' then
      var ch := CharAt(bin, pos);
      Lexeme(match ch.0 case Ok(v) => Ok(Literal(Char(v))) case Err(e) => Err(e), ch.1, false)
    else if c == '"' then
      match StringBody(bin, pos + 1, false)
      case Ok(v) => Produce(Literal(String(v.0)), v.1)
      case Err(e) => Lexeme(Err(e), if pos + 1 == |bin| then |bin| + 1 else |bin|, false)
    else if IsPunctuationStart(c) then
      PunctuationAt(bin, pos)
    else if IsArithmeticStart(c) then
      ArithmeticAt(bin, pos)
    else if IsLogicStart(c) then
      LogicAt(bin, pos)
    else
      Lexeme(Err(Unexpected(c)), pos + 1, false)
  }

  /** Delimiters and punctuation; `,` is scanned as a colon. */
  function PunctuationAt(bin: seq<Byte>, pos: nat): (x: Lexeme)
    requires pos < |bin| && IsPunctuationStart(bin[pos])
    ensures x.result.Ok? && !x.unclosed
    ensures pos < x.end <= |bin|
  {
    var next := At(bin, pos + 1);
    match bin[pos]
    case '(' => Produce(LeftParen, pos + 1)
    case ')' => Produce(RightParen, pos + 1)
    case '[' => Produce(LeftSquare, pos + 1)
    case ']' => Produce(RightSquare, pos + 1)
    case '{' => Produce(Delim(Curly, Left), pos + 1)
    case '}' => Produce(Delim(Curly, Right), pos + 1)
    case '@' => Produce(Punctuation(AtSign), pos + 1)
    case ',' => Produce(Punctuation(Colon), pos + 1)
    case ';' => Produce(Punctuation(Semicolon), pos + 1)
    case ':' => Produce(Punctuation(Colon), pos + 1)
    case '#' => Produce(Punctuation(HashSymbol), pos + 1)
    case '?' => Produce(Punctuation(QuestionMark), pos + 1)
    case '$' =>
      if next == Some('$') then Produce(Punctuation(DoubleDollar), pos + 2)
      else Produce(Punctuation(Dollar), pos + 1)
    case '=' =>
      if next == Some('>') then Produce(Punctuation(FatArrow), pos + 2)
      else if next == Some('=') then Produce(Operator(DoubleEquals), pos + 2)
      else Produce(Operator(Equals), pos + 1)
    case '.' =>
      if next == Some('.') then
        if At(bin, pos + 2) == Some('.') then Produce(Punctuation(TripleDot), pos + 3)
        else Produce(Punctuation(DoubleDot), pos + 2)
      else Produce(Punctuation(Dot), pos + 1)
  }

  /**
   * `+ - * ! ~ ^ % /` and the comments. After `+`, `-`, `*` and `/` a
   * following `=` (or a doubled `+`, `-`) picks the kind without being taken.
   */
  function ArithmeticAt(bin: seq<Byte>, pos: nat): (x: Lexeme)
    requires pos < |bin| && IsArithmeticStart(bin[pos]) && Defined(bin, pos)
    ensures x.result.Ok?
    ensures pos < x.end <= |bin|
    ensures x.unclosed ==> x.result == Ok(TokenType.Comment(MultiLine)) && x.end == |bin|
  {
    var next := At(bin, pos + 1);
    match bin[pos]
    case '+' =>
      if next == Some('=') then Produce(Operator(PlusEquals), pos + 1)
      else if next == Some('+') then Produce(Operator(DoublePlus), pos + 1)
      else Produce(Operator(Plus), pos + 1)
    case '-' =>
      if next == Some('=') then Produce(Operator(MinusEquals), pos + 1)
      else if next == Some('-') then Produce(Operator(DoubleMinus), pos + 1)
      else Produce(Operator(Minus), pos + 1)
    case '*' =>
      if next == Some('=') then Produce(Operator(StarEquals), pos + 1)
      else if next == Some('*') then
        if At(bin, pos + 2) == Some('=') then Produce(Operator(DoubleStarEquals), pos + 3)
        else Produce(Operator(DoubleStar), pos + 2)
      else Produce(Operator(Star), pos + 1)
    case '!' =>
      if next == Some('=') then Produce(Operator(BangEquals), pos + 2) else Produce(Operator(Bang), pos + 1)
    case '~' =>
      if next == Some('=') then Produce(Operator(TildaEquals), pos + 2) else Produce(Operator(Tilda), pos + 1)
    case '^' =>
      if next == Some('=') then Produce(Operator(CaretEquals), pos + 2) else Produce(Operator(Caret), pos + 1)
    case '%' =>
      if next == Some('=') then Produce(Operator(PercentEquals), pos + 2) else Produce(Operator(Percent), pos + 1)
    case '/' =>
      if next == Some('*') then BlockCommentAt(bin, pos)
      else if next == Some('/') then Produce(TokenType.Comment(SingleLine), RunEnd(bin, pos + 1, IsNotNewline))
      else if next == Some('=') then Produce(Operator(SlashEquals), pos + 1)
      else Produce(Operator(Slash), pos + 1)
  }

  /** `& | < >`; after a single `&` or `|` a following `=` picks the kind without being taken. */
  function LogicAt(bin: seq<Byte>, pos: nat): (x: Lexeme)
    requires pos < |bin| && IsLogicStart(bin[pos])
    ensures x.result.Ok? && !x.unclosed
    ensures pos < x.end <= |bin|
  {
    var next := At(bin, pos + 1);
    var third := At(bin, pos + 2);
    match bin[pos]
    case '&' =>
      if next == Some('&') then
        if third == Some('=') then Produce(Operator(DoubleAndEquals), pos + 3)
        else Produce(Operator(DoubleAnd), pos + 2)
      else if next == Some('=') then Produce(Operator(SingleAndEquals), pos + 1)
      else Produce(Operator(SingleAnd), pos + 1)
    case '|' =>
      if next == Some('|') then
        if third == Some('=') then Produce(Operator(DoubleOrEquals), pos + 3)
        else Produce(Operator(DoubleOr), pos + 2)
      else if next == Some('=') then Produce(Operator(SingleOrEquals), pos + 1)
      else Produce(Operator(SingleOr), pos + 1)
    case '<' =>
      if next == Some('=') then Produce(Operator(LesserThanEquals), pos + 2)
      else if next == Some('<') then
        if third == Some('=') then Produce(Operator(LeftShiftEquals), pos + 3)
        else Produce(Operator(LeftShift), pos + 2)
      else Produce(Operator(LesserThan), pos + 1)
    case '>' =>
      if next == Some('=') then Produce(Operator(GreaterThanEquals), pos + 2)
      else if next == Some('>') then
        if third == Some('=') then Produce(Operator(RightShiftEquals), pos + 3)
        else Produce(Operator(RightShift), pos + 2)
      else Produce(Operator(GreaterThan), pos + 1)
  }

  /** The item a scan step yields: the token over `bin[pos..end]` at line 1, column 1, or the error. */
  function TokenAt(bin: seq<Byte>, pos: nat, x: Lexeme): Result<Token, TokenizerError>
    requires x.result.Ok? ==> pos <= x.end <= |bin|
  {
    match x.result
    case Ok(ty) => Ok(Token(TokenPosition(pos, 1, 1, bin[pos..x.end]), ty))
    case Err(e) => Err(e)
  }

  /** The diagnostics a scan step appends: one for a comment left open at end of input. */
  function Reported(bin: seq<Byte>, pos: nat, x: Lexeme): seq<Diagnostic>
    requires x.unclosed ==> pos <= x.end <= |bin|
  {
    if x.unclosed then [Diagnostic(UnclosedMultilineComment, TokenPosition(pos, 1, 1, bin[pos..x.end]))] else []
  }

  // ----- the whole stream -----

  /** Every token the iterator reaches from `pos` on can be scanned. */
  predicate StreamDefined(bin: seq<Byte>, pos: nat)
    decreases |bin| - pos
  {
    pos >= |bin| || (Defined(bin, pos) && StreamDefined(bin, Lex(bin, pos).end))
  }

  /** The items the iterator yields from a token boundary at `pos` until it is done. */
  function Items(bin: seq<Byte>, pos: nat): seq<Result<Token, TokenizerError>>
    requires StreamDefined(bin, pos)
    decreases |bin| - pos
  {
    if pos >= |bin| then []
    else
      var x := Lex(bin, pos);
      [TokenAt(bin, pos, x)] + Items(bin, x.end)
  }
}
