/**
 * What the scanner promises about the tokens it produces, stated over the
 * step function `Lex` and the stream `Items` that the Scanner module is
 * proved to compute: number values, maximal identifier runs, the greedy
 * multi-byte spellings, string and char literals, nested block comments
 * and the tiling of the input by the tokens.
 */
module LexicalProperties {
  import opened Wrappers
  import opened Tokens
  import opened Sources
  import opened Lexical

  // ----- integers -----

  function DigitByte(d: Digit): Byte {
    ('0' as int + d) as char
  }

  /** The decimal numeral of `n`, most significant digit first, without separators or leading zeros. */
  function DecimalText(n: nat): (s: seq<Byte>)
    ensures |s| >= 1
    ensures forall k | 0 <= k < |s| :: IsDigit(s[k])
    decreases n
  {
    if n < 10 then [DigitByte(n)] else DecimalText(n / 10) + [DigitByte(n % 10)]
  }

  /** Reading the numeral of `n` back gives `n`, and every byte of it is a digit. */
  lemma {:induction false} DecimalTextValue(n: nat)
    ensures |Digits(DecimalText(n))| == |DecimalText(n)|
    ensures Decimal(Digits(DecimalText(n))) == n
    decreases n
  {
    var s := DecimalText(n);
    if n < 10 {
      assert s[..|s| - 1] == [];
      assert Digits(s) == [n];
      assert [n][..0] == [];
    } else {
      var t := DecimalText(n / 10);
      assert s[..|s| - 1] == t;
      DecimalTextValue(n / 10);
      var ds := Digits(t);
      assert Digits(s) == ds + [n % 10];
      assert (ds + [n % 10])[..|ds|] == ds;
    }
  }

  /** A number below 10^k has at most k digits. */
  lemma {:induction false} DecimalTextLength(n: nat, k: nat)
    requires k >= 1 && n < Pow10(k)
    ensures |DecimalText(n)| <= k
    decreases n
  {
    if n >= 10 {
      assert Pow10(1) == 10;
      assert k >= 2;
      DecimalTextLength(n / 10, k - 1);
    }
  }

  /**
   * A run of decimal digits that ends the number (nothing after it, or a
   * byte that is neither a digit, `_` nor `.`) scans as the integer it
   * denotes, and the token covers exactly the numeral.
   */
  lemma IntegerLiteral(n: nat, rest: seq<Byte>)
    requires n < 10_000_000_000_000_000_000
    requires rest == [] || !(IsDigitOrUnderscore(rest[0]) || rest[0] == '.')
    ensures Defined(DecimalText(n) + rest, 0)
    ensures Lex(DecimalText(n) + rest, 0) == Produce(Literal(Number(Integer(n as u64))), |DecimalText(n)|)
  {
    var t := DecimalText(n);
    var bin := t + rest;
    NumeralScan(n, rest);
    LexDigit(bin, 0);
  }

  /** The number literal at the start of a numeral followed by `rest`. */
  lemma NumeralScan(n: nat, rest: seq<Byte>)
    requires n < 10_000_000_000_000_000_000
    requires rest == [] || !(IsDigitOrUnderscore(rest[0]) || rest[0] == '.')
    ensures NumberFits(DecimalText(n) + rest, 0)
    ensures NumberAt(DecimalText(n) + rest, 0) == (Integer(n as u64), |DecimalText(n)|)
  {
    var t := DecimalText(n);
    var bin := t + rest;
    MaxIntegerFits();
    DecimalTextLength(n, MaxIntegerDigits);
    DecimalTextValue(n);
    NumeralEnd(n, rest);
    assert IntegerValue(bin, 0) as int == n;
  }

  /** The integer part of a numeral followed by `rest` is the whole numeral, and no fraction follows. */
  lemma NumeralEnd(n: nat, rest: seq<Byte>)
    requires rest == [] || !(IsDigitOrUnderscore(rest[0]) || rest[0] == '.')
    ensures IntegerEnd(DecimalText(n) + rest, 0) == |DecimalText(n)|
    ensures (DecimalText(n) + rest)[0..|DecimalText(n)|] == DecimalText(n)
    ensures At(DecimalText(n) + rest, |DecimalText(n)|) != Some('.')
  {
    var t := DecimalText(n);
    var bin := t + rest;
    assert forall k | 1 <= k < |t| :: bin[k] == t[k] && IsDigitOrUnderscore(bin[k]);
    if rest != [] {
      assert bin[|t|] == rest[0];
    }
    RunEndUnique(bin, 1, |t|, IsDigitOrUnderscore);
    assert bin[0..|t|] == t;
  }

  /** A token that starts with a digit is the number literal there. */
  lemma LexDigit(bin: seq<Byte>, pos: nat)
    requires pos < |bin| && IsDigit(bin[pos]) && NumberFits(bin, pos)
    ensures Defined(bin, pos)
    ensures Lex(bin, pos) == Produce(Literal(Number(NumberAt(bin, pos).0)), NumberAt(bin, pos).1)
  {
    assert !IsWhitespace(bin[pos]) && !IsIdentStart(bin[pos]);
  }

  // ----- identifiers and keywords -----

  /**
   * An identifier is the maximal run of letters, digits and `_` from its
   * first byte; it is the keyword `_` exactly when that run is `_`.
   */
  lemma IdentifierOrKeyword(bin: seq<Byte>, pos: nat)
    requires pos < |bin| && IsIdentStart(bin[pos])
    ensures Defined(bin, pos)
    ensures pos < Lex(bin, pos).end <= |bin|
    ensures forall k | pos <= k < Lex(bin, pos).end :: IsIdentByte(bin[k])
    ensures Lex(bin, pos).end < |bin| ==> !IsIdentByte(bin[Lex(bin, pos).end])
    ensures Lex(bin, pos).result == Ok(Keyword(Underscore)) <==> bin[pos..Lex(bin, pos).end] == "_"
    ensures Lex(bin, pos).result == Ok(Identifier) <==> bin[pos..Lex(bin, pos).end] != "_"
    ensures !Lex(bin, pos).unclosed
  {
  }

  // ----- multi-byte spellings -----

  /** Punctuation whose every byte is taken, by its spelling. */
  function SpelledPunctuation(s: seq<Byte>): Option<TokenType> {
    if s == "." then Some(Punctuation(Dot))
    else if s == ".." then Some(Punctuation(DoubleDot))
    else if s == "..." then Some(Punctuation(TripleDot))
    else if s == "$" then Some(Punctuation(Dollar))
    else if s == "$$" then Some(Punctuation(DoubleDollar))
    else if s == "=" then Some(Operator(Equals))
    else if s == "==" then Some(Operator(DoubleEquals))
    else if s == "=>" then Some(Punctuation(FatArrow))
    else None
  }

  /** Arithmetic operators whose every byte is taken, by their spelling. */
  function SpelledArithmetic(s: seq<Byte>): Option<TokenType> {
    if s == "**" then Some(Operator(DoubleStar))
    else if s == "**=" then Some(Operator(DoubleStarEquals))
    else if s == "!=" then Some(Operator(BangEquals))
    else if s == "~=" then Some(Operator(TildaEquals))
    else if s == "^=" then Some(Operator(CaretEquals))
    else if s == "%=" then Some(Operator(PercentEquals))
    else None
  }

  /** Logical, bitwise and comparison operators whose every byte is taken, by their spelling. */
  function SpelledLogic(s: seq<Byte>): Option<TokenType> {
    if s == "&&" then Some(Operator(DoubleAnd))
    else if s == "&&=" then Some(Operator(DoubleAndEquals))
    else if s == "||" then Some(Operator(DoubleOr))
    else if s == "||=" then Some(Operator(DoubleOrEquals))
    else if s == "<" then Some(Operator(LesserThan))
    else if s == "<=" then Some(Operator(LesserThanEquals))
    else if s == "<<" then Some(Operator(LeftShift))
    else if s == "<<=" then Some(Operator(LeftShiftEquals))
    else if s == ">" then Some(Operator(GreaterThan))
    else if s == ">=" then Some(Operator(GreaterThanEquals))
    else if s == ">>" then Some(Operator(RightShift))
    else if s == ">>=" then Some(Operator(RightShiftEquals))
    else None
  }

  /** What may follow a spelling without extending it: nothing, whitespace, or an identifier byte. */
  predicate Separates(rest: seq<Byte>) {
    rest == [] || IsWhitespace(rest[0]) || IsIdentByte(rest[0])
  }

  /** Each punctuation spelling scans as its kind over exactly its bytes; the one-byte `=` gives back its lookahead. */
  lemma SpelledPunctuationToken(s: seq<Byte>, rest: seq<Byte>)
    requires SpelledPunctuation(s).Some? && Separates(rest)
    ensures Defined(s + rest, 0)
    ensures Lex(s + rest, 0) == Produce(SpelledPunctuation(s).value, |s|)
  {
    var bin := s + rest;
    assert forall k | 0 <= k < |s| :: bin[k] == s[k];
    assert At(bin, |s|) == if rest == [] then None else Some(rest[0]);
    LexPunctuation(bin, 0);
  }

  /** Each arithmetic spelling scans as its kind over exactly its bytes. */
  lemma SpelledArithmeticToken(s: seq<Byte>, rest: seq<Byte>)
    requires SpelledArithmetic(s).Some? && Separates(rest)
    ensures Defined(s + rest, 0)
    ensures Lex(s + rest, 0) == Produce(SpelledArithmetic(s).value, |s|)
  {
    var bin := s + rest;
    assert forall k | 0 <= k < |s| :: bin[k] == s[k];
    assert At(bin, |s|) == if rest == [] then None else Some(rest[0]);
    LexArithmetic(bin, 0);
  }

  /** Each logic spelling scans as its kind over exactly its bytes; the one-byte `<` and `>` give back their lookahead. */
  lemma SpelledLogicToken(s: seq<Byte>, rest: seq<Byte>)
    requires SpelledLogic(s).Some? && Separates(rest)
    ensures Defined(s + rest, 0)
    ensures Lex(s + rest, 0) == Produce(SpelledLogic(s).value, |s|)
  {
    var bin := s + rest;
    assert forall k | 0 <= k < |s| :: bin[k] == s[k];
    assert At(bin, |s|) == if rest == [] then None else Some(rest[0]);
    LexLogic(bin, 0);
  }

  lemma LexPunctuation(bin: seq<Byte>, pos: nat)
    requires pos < |bin| && IsPunctuationStart(bin[pos])
    ensures Defined(bin, pos) && Lex(bin, pos) == PunctuationAt(bin, pos)
  {
  }

  lemma LexArithmetic(bin: seq<Byte>, pos: nat)
    requires pos < |bin| && IsArithmeticStart(bin[pos]) && Defined(bin, pos)
    ensures Lex(bin, pos) == ArithmeticAt(bin, pos)
  {
  }

  lemma LexLogic(bin: seq<Byte>, pos: nat)
    requires pos < |bin| && IsLogicStart(bin[pos])
    ensures Defined(bin, pos) && Lex(bin, pos) == LogicAt(bin, pos)
  {
  }

  /**
   * After `+ - * / & |` a following `=` (or a doubled `+`, `-`) chooses the
   * compound kind, but only the first byte is taken.
   */
  lemma PeekedCompound(op: Operator, c: Byte, rest: seq<Byte>)
    requires (op, c) in {(PlusEquals, '+'), (DoublePlus, '+'), (MinusEquals, '-'), (DoubleMinus, '-'),
                         (StarEquals, '*'), (SlashEquals, '/'), (SingleAndEquals, '&'), (SingleOrEquals, '|')}
    ensures op == DoublePlus || op == DoubleMinus || Defined([c, '='] + rest, 0)
    ensures op == DoublePlus ==> Lex([c, '+'] + rest, 0) == Produce(Operator(op), 1)
    ensures op == DoubleMinus ==> Lex([c, '-'] + rest, 0) == Produce(Operator(op), 1)
    ensures op != DoublePlus && op != DoubleMinus ==> Lex([c, '='] + rest, 0) == Produce(Operator(op), 1)
  {
    var second := if op == DoublePlus || op == DoubleMinus then c else '=';
    var bin := [c, second] + rest;
    assert bin[0] == c && At(bin, 1) == Some(second);
    if c == '&' || c == '|' {
      LexLogic(bin, 0);
    } else {
      LexArithmetic(bin, 0);
    }
  }

  /** So `+=` is read as two tokens: `PlusEquals` over `+`, then `Equals` over `=`. */
  lemma PlusEqualsStream()
    ensures StreamDefined("+=", 0)
    ensures Items("+=", 0)
         == [Ok(Token(TokenPosition(0, 1, 1, "+"), Operator(PlusEquals))),
             Ok(Token(TokenPosition(1, 1, 1, "="), Operator(Equals)))]
  {
    var bin: seq<Byte> := "+=";
    LexArithmetic(bin, 0);
    assert Lex(bin, 0) == Produce(Operator(PlusEquals), 1);
    LexPunctuation(bin, 1);
    assert Lex(bin, 1) == Produce(Operator(Equals), 2);
    assert StreamDefined(bin, 2);
    assert StreamDefined(bin, 1);
    assert Items(bin, 2) == [];
    assert bin[1..2] == "=" && bin[0..1] == "+";
    assert Items(bin, 1) == [TokenAt(bin, 1, Lex(bin, 1))];
    assert Items(bin, 0) == [TokenAt(bin, 0, Lex(bin, 0))] + Items(bin, 1);
  }

  // ----- texts found in the input -----

  /** The bytes of `w` occur in `bin` from offset `i` on, one by one. */
  predicate Holds(bin: seq<Byte>, i: nat, w: seq<Byte>)
    decreases |w|
  {
    if w == [] then i <= |bin| else i < |bin| && bin[i] == w[0] && Holds(bin, i + 1, w[1..])
  }

  lemma {:induction false} HoldsLength(bin: seq<Byte>, i: nat, w: seq<Byte>)
    requires Holds(bin, i, w)
    ensures i + |w| <= |bin|
    decreases |w|
  {
    if w != [] {
      HoldsLength(bin, i + 1, w[1..]);
    }
  }

  /** A text occurs where its two parts occur one after the other. */
  lemma {:induction false} HoldsSplit(bin: seq<Byte>, i: nat, a: seq<Byte>, b: seq<Byte>)
    ensures Holds(bin, i, a + b) <==> Holds(bin, i, a) && Holds(bin, i + |a|, b)
    decreases |a|
  {
    if a == [] {
      assert a + b == b;
    } else {
      assert (a + b)[0] == a[0] && (a + b)[1..] == a[1..] + b;
      HoldsSplit(bin, i + 1, a[1..], b);
    }
  }

  /** A slice of the input is a text that occurs there. */
  lemma {:induction false} HoldsSlice(bin: seq<Byte>, i: nat, w: seq<Byte>)
    requires i + |w| <= |bin| && bin[i..i + |w|] == w
    ensures Holds(bin, i, w)
    decreases |w|
  {
    if w != [] {
      assert bin[i] == bin[i..i + |w|][0];
      assert bin[i + 1..i + 1 + |w[1..]|] == bin[i..i + |w|][1..];
      HoldsSlice(bin, i + 1, w[1..]);
    }
  }

  /** A text that occurs at `i` is the slice there. */
  lemma {:induction false} SliceHolds(bin: seq<Byte>, i: nat, w: seq<Byte>)
    requires Holds(bin, i, w)
    ensures i + |w| <= |bin| && bin[i..i + |w|] == w
    decreases |w|
  {
    HoldsLength(bin, i, w);
    if w != [] {
      SliceHolds(bin, i + 1, w[1..]);
      assert bin[i..i + |w|] == [bin[i]] + bin[i + 1..i + 1 + |w[1..]|];
    }
  }

  // ----- string and char literals -----

  /**
   * How a byte is written inside a string literal so that it reads back as
   * itself: newline, tab and NUL by their escape letter, `"` and `\` behind
   * a backslash, every other byte as is.
   */
  function Quoted(c: Byte): seq<Byte> {
    match EscapeLetter(c)
    case Some(l) => ['\\', l]
    case None => if c == '"' || c == '\\' then ['\\', c] else [c]
  }

  /** The body of a string literal for `s`: every byte written as `Quoted` says. */
  function Quote(s: seq<Byte>): seq<Byte>
    decreases |s|
  {
    if s == [] then [] else Quoted(s[0]) + Quote(s[1..])
  }

  /** One quoted byte at `i` adds that byte in front of what the scan reads after it. */
  lemma QuotedStep(bin: seq<Byte>, i: nat, c: Byte, after: Result<(string, nat), TokenizerError>)
    requires Holds(bin, i, Quoted(c))
    requires i + |Quoted(c)| <= |bin| && StringBody(bin, i + |Quoted(c)|, false) == after
    ensures StringBody(bin, i, false) == Prepend([c], after)
  {
    match EscapeLetter(c)
    case Some(l) =>
      assert Quoted(c)[1..] == [l] && [l][1..] == [];
      assert Unescaped(l) == [c];
    case None =>
      if c == '"' || c == '\\' {
        assert Quoted(c)[1..] == [c] && [c][1..] == [];
        assert Unescaped(c) == [c];
      } else {
        assert Quoted(c)[1..] == [];
      }
  }

  lemma {:induction false} StringBodyQuote(bin: seq<Byte>, i: nat, s: seq<Byte>)
    requires Holds(bin, i, Quote(s)) && i + |Quote(s)| < |bin| && bin[i + |Quote(s)|] == '"'
    ensures StringBody(bin, i, false) == Ok((s, i + |Quote(s)| + 1))
    decreases |s|
  {
    if s != [] {
      var c := s[0];
      var q, t := Quoted(c), Quote(s[1..]);
      assert Quote(s) == q + t;
      HoldsSplit(bin, i, q, t);
      StringBodyQuote(bin, i + |q|, s[1..]);
      QuotedStep(bin, i, c, StringBody(bin, i + |q|, false));
      assert [c] + s[1..] == s;
    }
  }

  /** A string literal written with `Quote` scans back to exactly the bytes it quotes. */
  lemma StringLiteral(s: seq<Byte>, rest: seq<Byte>)
    ensures Defined(['"'] + Quote(s) + ['"'] + rest, 0)
    ensures Lex(['"'] + Quote(s) + ['"'] + rest, 0) == Produce(Literal(String(s)), |Quote(s)| + 2)
  {
    var bin := ['"'] + Quote(s) + ['"'] + rest;
    assert bin[1..1 + |Quote(s)|] == Quote(s);
    assert bin[1 + |Quote(s)|] == '"';
    HoldsSlice(bin, 1, Quote(s));
    StringBodyQuote(bin, 1, s);
  }

  lemma QuoteControls()
    ensures Quote("\n\t\0") == "\\n\\t\\0"
  {
    var s: seq<Byte> := "\n\t\0";
    assert s[1..][1..][1..] == [];
    assert Quote(s) == Quoted(s[0]) + Quote(s[1..]);
    assert Quote(s[1..]) == Quoted(s[1]) + Quote(s[1..][1..]);
    assert Quote(s[1..][1..]) == Quoted(s[2]) + Quote(s[1..][1..][1..]);
  }

  /** The three translated escapes: `\n`, `\t` and `\0` are a newline, a tab and a NUL. */
  lemma TranslatedEscapes(rest: seq<Byte>)
    ensures Lex(['"'] + "\\n\\t\\0" + ['"'] + rest, 0) == Produce(Literal(String("\n\t\0")), 8)
  {
    QuoteControls();
    StringLiteral("\n\t\0", rest);
  }

  /** A backslash before any byte other than `n`, `t` and `0` keeps that byte as it is. */
  lemma UntranslatedEscape(c: Byte, rest: seq<Byte>)
    requires c !in "nt0"
    ensures Defined(['"', '\\', c, '"'] + rest, 0)
    ensures Lex(['"', '\\', c, '"'] + rest, 0) == Produce(Literal(String([c])), 4)
  {
    var bin := ['"', '\\', c, '"'] + rest;
    assert bin[1] == '\\' && bin[2] == c && bin[3] == '"';
    assert Unescaped(c) == [c];
    assert StringBody(bin, 3, false) == Ok(([], 4));
    assert StringBody(bin, 1, false) == StringBody(bin, 2, true);
    assert StringBody(bin, 2, true) == Prepend([c], Ok(([], 4)));
    assert [c] + [] == [c];
  }

  lemma {:induction false} StringBodyUnterminated(bin: seq<Byte>, i: nat, escaped: bool)
    requires i <= |bin|
    requires forall k | i <= k < |bin| :: bin[k] != '"'
    ensures StringBody(bin, i, escaped) == Err(UnfinishedString)
    decreases |bin| - i
  {
    if i < |bin| {
      StringBodyUnterminated(bin, i + 1, bin[i] == '\\' && !escaped);
    }
  }

  /** The quoted body of a string, possibly followed by a lone backslash, at the end of input is unfinished. */
  lemma {:induction false} StringBodyOpen(bin: seq<Byte>, i: nat, s: seq<Byte>)
    requires Holds(bin, i, Quote(s))
    requires || i + |Quote(s)| == |bin|
             || (i + |Quote(s)| + 1 == |bin| && bin[i + |Quote(s)|] == '\\')
    ensures StringBody(bin, i, false) == Err(UnfinishedString)
    decreases |s|
  {
    HoldsLength(bin, i, Quote(s));
    if s != [] {
      var c := s[0];
      var q, t := Quoted(c), Quote(s[1..]);
      assert Quote(s) == q + t;
      HoldsSplit(bin, i, q, t);
      HoldsLength(bin, i, q);
      StringBodyOpen(bin, i + |q|, s[1..]);
      QuotedStep(bin, i, c, StringBody(bin, i + |q|, false));
    }
  }

  /**
   * A string literal whose input ends before the closing quote, even right
   * after an escaping backslash, is `UnfinishedString`.
   */
  lemma UnterminatedString(s: seq<Byte>, tail: seq<Byte>)
    requires tail == [] || tail == ['\\']
    ensures Defined(['"'] + Quote(s) + tail, 0)
    ensures Lex(['"'] + Quote(s) + tail, 0)
         == Lexeme(Err(UnfinishedString), if |Quote(s) + tail| == 0 then 2 else |Quote(s) + tail| + 1, false)
  {
    var bin := ['"'] + Quote(s) + tail;
    assert bin[1..1 + |Quote(s)|] == Quote(s);
    HoldsSlice(bin, 1, Quote(s));
    if tail != [] {
      assert bin[1 + |Quote(s)|] == '\\';
    }
    StringBodyOpen(bin, 1, s);
  }

  /** A string literal with no quote at all after its opener is `UnfinishedString`. */
  lemma NoClosingQuote(bin: seq<Byte>, pos: nat)
    requires pos < |bin| && bin[pos] == '"'
    requires forall k | pos < k < |bin| :: bin[k] != '"'
    ensures Defined(bin, pos)
    ensures Lex(bin, pos) == Lexeme(Err(UnfinishedString), if pos + 1 == |bin| then |bin| + 1 else |bin|, false)
  {
    StringBodyUnterminated(bin, pos + 1, false);
  }

  /**
   * A char literal is one byte, or a backslash and one byte taken as is,
   * then a closing quote; any other shape is `UnfinishedChar`.
   */
  lemma CharLiteral(bin: seq<Byte>, pos: nat)
    requires pos < |bin| && bin[pos] == '\''
    ensures Defined(bin, pos)
    ensures Lex(bin, pos).result.Ok? <==>
              || (pos + 2 < |bin| && bin[pos + 1] != '\\' && bin[pos + 2] == '\'')
              || (pos + 3 < |bin| && bin[pos + 1] == '\\' && bin[pos + 3] == '\'')
    ensures Lex(bin, pos).result.Ok? ==>
              Lex(bin, pos).result.value == Literal(Char(if bin[pos + 1] == '\\' then bin[pos + 2] else bin[pos + 1]))
    ensures Lex(bin, pos).result.Err? ==> Lex(bin, pos).result.error == UnfinishedChar
  {
  }

  // ----- comments -----

  /** The shape of a block comment's body: plain bytes and nested comments. */
  datatype Piece = Plain(b: Byte) | Nested(body: seq<Piece>)

  function PieceText(p: Piece): seq<Byte>
    decreases p, 1
  {
    match p
    case Plain(b) => [b]
    case Nested(body) => ['/', '*'] + (BodyText(body) + ['*', '/'])
  }

  function BodyText(ps: seq<Piece>): seq<Byte>
    decreases ps, 0
  {
    if ps == [] then [] else PieceText(ps[0]) + BodyText(ps[1..])
  }

  /**
   * Pieces that the scanner reads as written: plain bytes other than `*`
   * and `/`, and nested comments whose body, when not empty, starts and ends
   * with a plain byte (otherwise the slash of an opener or closer would
   * pair up with a neighbouring star).
   */
  predicate WellFormedPiece(p: Piece)
    decreases p, 1
  {
    match p
    case Plain(b) => b != '*' && b != '/'
    case Nested(body) =>
      && WellFormedBody(body)
      && (body == [] || (body[0].Plain? && body[|body| - 1].Plain?))
  }

  predicate WellFormedBody(ps: seq<Piece>)
    decreases ps, 0
  {
    forall k | 0 <= k < |ps| :: WellFormedPiece(ps[k])
  }

  /** The byte before the scan after reading `ps` with `pc` before them. */
  function LastByte(pc: Byte, ps: seq<Piece>): Byte {
    if ps == [] then pc
    else match ps[|ps| - 1]
      case Plain(b) => b
      case Nested(_) => '/'
  }

  lemma {:induction false} PieceScan(bin: seq<Byte>, i: nat, pc: Byte, nest: nat, p: Piece)
    requires nest >= 1 && WellFormedPiece(p)
    requires Holds(bin, i, PieceText(p))
    requires p.Nested? ==> pc != '*'
    ensures i + |PieceText(p)| <= |bin|
    ensures CommentEnd(bin, i, pc, nest) == CommentEnd(bin, i + |PieceText(p)|, LastByte(pc, [p]), nest)
    decreases p, 1
  {
    HoldsLength(bin, i, PieceText(p));
    if p.Plain? {
      assert bin[i] == p.b;
    } else {
      var q := p.body;
      var inner := BodyText(q);
      var n := |inner|;
      HoldsSplit(bin, i, ['/', '*'], inner + ['*', '/']);
      HoldsSplit(bin, i + 2, inner, ['*', '/']);
      assert bin[i] == '/' && bin[i + 1] == '*' by {
        assert ['/', '*'][1..] == ['*'];
      }
      assert bin[i + 2 + n] == '*' && bin[i + 3 + n] == '/' by {
        assert ['*', '/'][1..] == ['/'];
      }
      BodyScan(bin, i + 2, '*', nest + 1, q);
      var last := LastByte('*', q);
      if q != [] {
        assert WellFormedPiece(q[|q| - 1]);
      }
      assert last != '/';
      assert CommentEnd(bin, i + 2 + n, last, nest + 1) == CommentEnd(bin, i + 3 + n, '*', nest + 1);
    }
  }

  lemma {:induction false} BodyScan(bin: seq<Byte>, i: nat, pc: Byte, nest: nat, ps: seq<Piece>)
    requires nest >= 1 && WellFormedBody(ps)
    requires Holds(bin, i, BodyText(ps))
    requires ps != [] && ps[0].Nested? ==> pc != '*'
    ensures i + |BodyText(ps)| <= |bin|
    ensures CommentEnd(bin, i, pc, nest) == CommentEnd(bin, i + |BodyText(ps)|, LastByte(pc, ps), nest)
    decreases ps, 0
  {
    HoldsLength(bin, i, BodyText(ps));
    if ps != [] {
      var p, rest := ps[0], ps[1..];
      var pt, rt := PieceText(p), BodyText(rest);
      assert BodyText(ps) == pt + rt;
      HoldsSplit(bin, i, pt, rt);
      assert WellFormedPiece(ps[0]);
      PieceScan(bin, i, pc, nest, p);
      assert forall k | 0 <= k < |rest| :: rest[k] == ps[k + 1];
      var mid := LastByte(pc, [p]);
      assert mid != '*';
      BodyScan(bin, i + |pt|, mid, nest, rest);
      if rest != [] {
        assert ps[|ps| - 1] == rest[|rest| - 1];
      }
    }
  }

  /** A `/` followed by `*` starts a block comment. */
  lemma LexBlockComment(bin: seq<Byte>, pos: nat)
    requires pos + 1 < |bin| && bin[pos] == '/' && bin[pos + 1] == '*'
    ensures Defined(bin, pos)
    ensures Lex(bin, pos) == BlockCommentAt(bin, pos)
  {
    assert !IsWhitespace(bin[pos]) && !IsIdentStart(bin[pos]) && !IsDigit(bin[pos]);
    assert !IsPunctuationStart(bin[pos]) && IsArithmeticStart(bin[pos]);
    assert ArithmeticAt(bin, pos) == BlockCommentAt(bin, pos);
  }

  /**
   * A block comment whose nested comments are balanced closes at its own
   * `*` `/`: one `Comment` token over the whole construct, no diagnostic.
   * The scan pairs each byte with the one before it, so this holds where no
   * opener or closer touches another: the outer body, when not empty, ends
   * with a plain byte (see `ReusedSlashOpens` and `ReusedStarCloses`).
   */
  lemma NestedComment(body: seq<Piece>, rest: seq<Byte>)
    requires WellFormedBody(body) && (body == [] || body[|body| - 1].Plain?)
    ensures Defined("/*" + BodyText(body) + "*/" + rest, 0)
    ensures Lex("/*" + BodyText(body) + "*/" + rest, 0) == Produce(TokenType.Comment(MultiLine), |BodyText(body)| + 4)
    ensures Reported("/*" + BodyText(body) + "*/" + rest, 0, Lex("/*" + BodyText(body) + "*/" + rest, 0)) == []
  {
    var t := BodyText(body);
    var bin := "/*" + t + "*/" + rest;
    var n := |t|;
    assert bin[2..2 + n] == t;
    HoldsSlice(bin, 2, t);
    assert bin[2 + n] == '*' && bin[3 + n] == '/';
    LexBlockComment(bin, 0);
    assert CommentEnd(bin, 2, ' ', 1) == CommentEnd(bin, 3, bin[2], 1);
    BodyScan(bin, 2, ' ', 1, body);
    var last := LastByte(' ', body);
    assert CommentEnd(bin, 2 + n, last, 1) == CommentEnd(bin, 3 + n, '*', 1);
  }

  /**
   * A block comment left open at the end of input is still a `Comment`
   * token reaching the end, with exactly one `UnclosedMultilineComment`
   * diagnostic at its start, except when nothing follows the opener.
   */
  lemma UnclosedComment(body: seq<Piece>)
    requires WellFormedBody(body)
    ensures Defined("/*" + BodyText(body), 0)
    ensures Lex("/*" + BodyText(body), 0)
         == Lexeme(Ok(TokenType.Comment(MultiLine)), |BodyText(body)| + 2, body != [])
    ensures Reported("/*" + BodyText(body), 0, Lex("/*" + BodyText(body), 0))
         == if body == [] then []
            else [Diagnostic(UnclosedMultilineComment, TokenPosition(0, 1, 1, "/*" + BodyText(body)))]
  {
    var bin := "/*" + BodyText(body);
    LexBlockComment(bin, 0);
    UnclosedBlock(body);
    assert bin[0..|bin|] == bin;
  }

  /** The scan of an open block comment runs to the end of input. */
  lemma UnclosedBlock(body: seq<Piece>)
    requires WellFormedBody(body)
    ensures BlockCommentAt("/*" + BodyText(body), 0)
         == Lexeme(Ok(TokenType.Comment(MultiLine)), |BodyText(body)| + 2, body != [])
  {
    var t := BodyText(body);
    var bin := "/*" + t;
    var n := |t|;
    if body != [] {
      assert bin[2..2 + n] == t;
      HoldsSlice(bin, 2, t);
      assert |PieceText(body[0])| >= 1;
      assert CommentEnd(bin, 2, ' ', 1) == CommentEnd(bin, 3, bin[2], 1);
      BodyScan(bin, 2, ' ', 1, body);
    }
  }

  // ----- the comment scanner's overlapping pairs -----

  /**
   * The scanner pairs each byte with the byte before it, even when that byte
   * already completed a pair: in `/*/**/*/` the `/` that closes the nested
   * comment opens a level again with the next `*`, so a balanced comment is
   * read as open and reported.
   */
  lemma ReusedSlashOpens()
    ensures Lex("/*/**/*/", 0) == Lexeme(Ok(TokenType.Comment(MultiLine)), 8, true)
  {
    LexBlockComment("/*/**/*/", 0);
    ReusedSlashScan();
  }

  lemma ReusedSlashScan()
    ensures CommentEnd("/*/**/*/", 3, '/', 1) == (8, false)
  {
    var bin: seq<Byte> := "/*/**/*/";
    assert CommentEnd(bin, 3, '/', 1) == CommentEnd(bin, 4, '*', 2);
    assert CommentEnd(bin, 5, '*', 2) == CommentEnd(bin, 6, '/', 1);
    assert CommentEnd(bin, 6, '/', 1) == CommentEnd(bin, 7, '*', 2);
    assert CommentEnd(bin, 7, '*', 2) == CommentEnd(bin, 8, '/', 1) == (8, false);
  }

  /**
   * In the same way the `*` that opens a nested comment closes a level with
   * the next `/`: `/* /*/* a */ */ */` closes three bytes before its own end.
   */
  lemma ReusedStarCloses()
    ensures Lex("/* /*/* a */ */ */", 0) == Lexeme(Ok(TokenType.Comment(MultiLine)), 15, false)
  {
    LexBlockComment("/* /*/* a */ */ */", 0);
    ReusedStarScan();
  }

  lemma ReusedStarScan()
    ensures CommentEnd("/* /*/* a */ */ */", 3, ' ', 1) == (15, true)
  {
    ReusedStarOpen();
    ReusedStarRest();
  }

  lemma ReusedStarOpen()
    ensures CommentEnd("/* /*/* a */ */ */", 3, ' ', 1) == CommentEnd("/* /*/* a */ */ */", 8, ' ', 2)
  {
    var bin: seq<Byte> := "/* /*/* a */ */ */";
    assert CommentEnd(bin, 3, ' ', 1) == CommentEnd(bin, 4, '/', 1);
    assert CommentEnd(bin, 4, '/', 1) == CommentEnd(bin, 5, '*', 2);
    assert CommentEnd(bin, 5, '*', 2) == CommentEnd(bin, 6, '/', 1);
    assert CommentEnd(bin, 6, '/', 1) == CommentEnd(bin, 7, '*', 2);
    assert CommentEnd(bin, 7, '*', 2) == CommentEnd(bin, 8, ' ', 2);
  }

  lemma ReusedStarRest()
    ensures CommentEnd("/* /*/* a */ */ */", 8, ' ', 2) == (15, true)
  {
    var bin: seq<Byte> := "/* /*/* a */ */ */";
    assert CommentEnd(bin, 8, ' ', 2) == CommentEnd(bin, 9, 'a', 2);
    assert CommentEnd(bin, 9, 'a', 2) == CommentEnd(bin, 10, ' ', 2);
    assert CommentEnd(bin, 10, ' ', 2) == CommentEnd(bin, 11, '*', 2);
    assert CommentEnd(bin, 11, '*', 2) == CommentEnd(bin, 12, '/', 1);
    assert CommentEnd(bin, 12, '/', 1) == CommentEnd(bin, 13, ' ', 1);
    assert CommentEnd(bin, 13, ' ', 1) == CommentEnd(bin, 14, '*', 1);
    assert CommentEnd(bin, 14, '*', 1) == (15, true);
  }

  /**
   * The comment scan the nesting design calls for: a byte that completes an
   * opener or a closer is consumed with it and pairs with nothing after it
   * (`pc` is `None` then).
   */
  function PairedCommentEnd(bin: seq<Byte>, i: nat, pc: Option<Byte>, nest: nat): (r: (nat, bool))
    requires i <= |bin| && nest >= 1
    ensures i <= r.0 <= |bin|
    ensures r.1 ==> i < r.0
    ensures !r.1 ==> r.0 == |bin|
    decreases |bin| - i
  {
    if i == |bin| then (|bin|, false)
    else
      var c := bin[i];
      if pc == Some('*') && c == '/' then
        if nest == 1 then (i + 1, true) else PairedCommentEnd(bin, i + 1, None, nest - 1)
      else if pc == Some('/') && c == '*' then PairedCommentEnd(bin, i + 1, None, nest + 1)
      else PairedCommentEnd(bin, i + 1, Some(c), nest)
  }

  /** Comment bodies of bytes other than `*` and `/` and nested comments, to any depth and in any order. */
  predicate BalancedPiece(p: Piece)
    decreases p, 1
  {
    match p
    case Plain(b) => b != '*' && b != '/'
    case Nested(body) => BalancedBody(body)
  }

  predicate BalancedBody(ps: seq<Piece>)
    decreases ps, 0
  {
    forall k | 0 <= k < |ps| :: BalancedPiece(ps[k])
  }

  /** A previous byte that cannot start a pair. */
  predicate Neutral(pc: Option<Byte>) {
    pc != Some('*') && pc != Some('/')
  }

  /** The previous byte of the corrected scan after reading `ps` with `pc` before them. */
  function PairedLast(pc: Option<Byte>, ps: seq<Piece>): Option<Byte> {
    if ps == [] then pc
    else match ps[|ps| - 1]
      case Plain(b) => Some(b)
      case Nested(_) => None
  }

  lemma {:induction false} PairedPieceScan(bin: seq<Byte>, i: nat, pc: Option<Byte>, nest: nat, p: Piece)
    requires nest >= 1 && BalancedPiece(p) && Neutral(pc)
    requires Holds(bin, i, PieceText(p))
    ensures i + |PieceText(p)| <= |bin|
    ensures PairedCommentEnd(bin, i, pc, nest) == PairedCommentEnd(bin, i + |PieceText(p)|, PairedLast(pc, [p]), nest)
    decreases p, 1
  {
    HoldsLength(bin, i, PieceText(p));
    if p.Plain? {
      assert bin[i] == p.b;
    } else {
      var q := p.body;
      var inner := BodyText(q);
      var n := |inner|;
      HoldsSplit(bin, i, ['/', '*'], inner + ['*', '/']);
      HoldsSplit(bin, i + 2, inner, ['*', '/']);
      assert bin[i] == '/' && bin[i + 1] == '*' by {
        assert ['/', '*'][1..] == ['*'];
      }
      assert bin[i + 2 + n] == '*' && bin[i + 3 + n] == '/' by {
        assert ['*', '/'][1..] == ['/'];
      }
      assert PairedCommentEnd(bin, i, pc, nest) == PairedCommentEnd(bin, i + 2, None, nest + 1);
      PairedBodyScan(bin, i + 2, None, nest + 1, q);
      var last := PairedLast(None, q);
      assert PairedCommentEnd(bin, i + 2 + n, last, nest + 1) == PairedCommentEnd(bin, i + 4 + n, None, nest);
    }
  }

  lemma {:induction false} PairedBodyScan(bin: seq<Byte>, i: nat, pc: Option<Byte>, nest: nat, ps: seq<Piece>)
    requires nest >= 1 && BalancedBody(ps) && Neutral(pc)
    requires Holds(bin, i, BodyText(ps))
    ensures i + |BodyText(ps)| <= |bin|
    ensures Neutral(PairedLast(pc, ps))
    ensures PairedCommentEnd(bin, i, pc, nest) == PairedCommentEnd(bin, i + |BodyText(ps)|, PairedLast(pc, ps), nest)
    decreases ps, 0
  {
    HoldsLength(bin, i, BodyText(ps));
    if ps != [] {
      var p, rest := ps[0], ps[1..];
      var pt, rt := PieceText(p), BodyText(rest);
      assert BodyText(ps) == pt + rt;
      HoldsSplit(bin, i, pt, rt);
      assert BalancedPiece(ps[0]);
      PairedPieceScan(bin, i, pc, nest, p);
      assert forall k | 0 <= k < |rest| :: rest[k] == ps[k + 1];
      var mid := PairedLast(pc, [p]);
      PairedBodyScan(bin, i + |pt|, mid, nest, rest);
      if rest != [] {
        assert ps[|ps| - 1] == rest[|rest| - 1];
      }
    }
  }

  /**
   * With the corrected scan, every block comment whose body is balanced
   * closes at its own `*` `/`, whatever bytes follow it.
   */
  lemma PairedNestedComment(body: seq<Piece>, rest: seq<Byte>)
    requires BalancedBody(body)
    ensures PairedCommentEnd("/*" + BodyText(body) + "*/" + rest, 2, None, 1) == (|BodyText(body)| + 4, true)
  {
    var t := BodyText(body);
    var bin := "/*" + t + "*/" + rest;
    var n := |t|;
    assert bin[2..2 + n] == t;
    HoldsSlice(bin, 2, t);
    assert bin[2 + n] == '*' && bin[3 + n] == '/';
    PairedBodyScan(bin, 2, None, 1, body);
  }

  /** With the corrected scan, a balanced body that the input ends in leaves the comment open. */
  lemma PairedUnclosedComment(body: seq<Piece>)
    requires BalancedBody(body)
    ensures PairedCommentEnd("/*" + BodyText(body), 2, None, 1) == (|BodyText(body)| + 2, false)
  {
    var t := BodyText(body);
    var bin := "/*" + t;
    assert bin[2..2 + |t|] == t;
    HoldsSlice(bin, 2, t);
    PairedBodyScan(bin, 2, None, 1, body);
  }

  /** A line comment runs up to, and not including, the next newline. */
  lemma LineComment(bin: seq<Byte>, pos: nat)
    requires pos + 1 < |bin| && bin[pos] == '/' && bin[pos + 1] == '/'
    requires '\n' in bin[pos + 1..]
    ensures Defined(bin, pos)
    ensures Lex(bin, pos).result == Ok(TokenType.Comment(SingleLine)) && !Lex(bin, pos).unclosed
    ensures Lex(bin, pos).end < |bin| && bin[Lex(bin, pos).end] == '\n'
    ensures forall k | pos + 1 <= k < Lex(bin, pos).end :: bin[k] != '\n'
  {
  }

  // ----- the whole stream -----

  /** The texts of the tokens among `items`, in order. */
  function Texts(items: seq<Result<Token, TokenizerError>>): seq<Byte> {
    if items == [] then [] else (match items[0] case Ok(t) => t.Text() case Err(_) => []) + Texts(items[1..])
  }

  /** No scan among `items` failed. */
  predicate AllOk(items: seq<Result<Token, TokenizerError>>) {
    forall k | 0 <= k < |items| :: items[k].Ok?
  }

  /** When no scan fails, the tokens from `pos` on cover the rest of the input exactly, in order. */
  lemma {:induction false} ItemsTile(bin: seq<Byte>, pos: nat)
    requires pos <= |bin| && StreamDefined(bin, pos) && AllOk(Items(bin, pos))
    ensures Texts(Items(bin, pos)) == bin[pos..]
    decreases |bin| - pos
  {
    if pos < |bin| {
      var x := Lex(bin, pos);
      var head, rest := TokenAt(bin, pos, x), Items(bin, x.end);
      assert Items(bin, pos) == [head] + rest;
      TileStep(bin, pos, x.end, head, rest);
      ItemsTile(bin, x.end);
    }
  }

  /** One token's text, then the texts of the rest, is the input from the token on. */
  lemma TileStep(bin: seq<Byte>, pos: nat, end: nat, head: Result<Token, TokenizerError>, rest: seq<Result<Token, TokenizerError>>)
    requires pos <= end && AllOk([head] + rest)
    requires head.Ok? ==> end <= |bin| && head.value.Text() == bin[pos..end]
    ensures AllOk(rest) && head.Ok? && end <= |bin|
    ensures Texts(rest) == bin[end..] ==> Texts([head] + rest) == bin[pos..]
  {
    var items := [head] + rest;
    assert items[0] == head;
    assert items[1..] == rest;
    forall k | 0 <= k < |rest|
      ensures rest[k].Ok?
    {
      assert rest[k] == items[k + 1];
    }
    assert bin[pos..] == bin[pos..end] + bin[end..];
  }
}
