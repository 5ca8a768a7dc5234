/**
 * The tokenizer as the cursor machine of src/tokenizer/mod.rs: `pos` is the
 * start of the token being scanned, `lookahead` one past the last byte
 * taken, and `done` says that the input is used up. Every scanning method is
 * proved to move the cursor exactly as the pure scan step `Lex` says, so the
 * iterator yields exactly `Items(bin, 0)`.
 */
module Scanner {
  import opened Wrappers
  import opened Tokens
  import opened Sources
  import opened Lexical

  /**
   * The integer part of `number`: the digits read right to left, each
   * weighted by a power of ten that grows by one place per digit, in u64
   * arithmetic that cannot overflow for at most 19 digits.
   */
  method IntegerPart(v: seq<Digit>) returns (intPart: u64)
    requires |v| <= MaxIntegerDigits
    ensures intPart as int == Decimal(v)
  {
    intPart := 0;
    var pow: u64 := 1;
    for i := |v| downto 0
      invariant intPart as int == Decimal(v[i..])
      invariant pow as int == Pow10(|v| - i)
    {
      DigitWeight(v, i, intPart as int, pow as int);
      intPart, pow := Place(v[i], intPart, pow);
    }
    assert v[0..] == v;
  }

  /** One step of `IntegerPart`: digit `d` at weight `pow` added to `acc`, and the next weight. */
  method Place(d: Digit, acc: u64, pow: u64) returns (acc': u64, pow': u64)
    requires acc as int + d * pow as int < 0x1_0000_0000_0000_0000
    requires pow as int * 10 < 0x1_0000_0000_0000_0000
    ensures acc' as int == acc as int + d * pow as int && pow' as int == pow as int * 10
  {
    acc' := acc + d as u64 * pow;
    pow' := pow * 10;
  }

  class Tokenizer {
    const source: Source
    const diagnostics: Sink
    var done: bool
    var pos: nat
    var lookahead: nat
    const line: nat
    const column: nat

    /** Between two tokens: the cursor sits one byte past `pos`, and `done` says whether any byte is left. */
    predicate Valid()
      reads this
    {
      && source.text == source.bin
      && line == 1 && column == 1
      && lookahead == pos + 1
      && done == (pos >= |source.bin|)
    }

    /**
     * Inside a token: at least one byte is taken, and `done` is set exactly
     * when a step has carried the cursor to the end of input (the first
     * step from the last byte overshoots it by one).
     */
    predicate Cursor()
      reads this
    {
      && source.text == source.bin
      && line == 1 && column == 1
      && pos < |source.bin|
      && pos < lookahead <= |source.bin| + 1
      && (done <==> lookahead >= |source.bin| && lookahead > pos + 1)
    }

    /** A text and its bytes are one sequence, as in every `Source` that `NewSource` builds. */
    constructor (source: Source, diagnostics: Sink)
      requires source.text == source.bin
      ensures this.source == source && this.diagnostics == diagnostics
      ensures pos == 0 && lookahead == 1
      ensures done == (|source.bin| == 0)
      ensures Valid()
    {
      this.done := |source.bin| == 0;
      this.source := source;
      this.pos := 0;
      this.lookahead := 1;
      this.line := 1;
      this.column := 1;
      this.diagnostics := diagnostics;
    }

    /** The position of the bytes taken so far. */
    function Pos(): (p: TokenPosition)
      reads this
      requires pos <= lookahead <= |source.text|
      ensures p.absolutePosition == pos && p.line == line && p.column == column
      ensures p.text == source.text[pos..lookahead]
    {
      TokenPosition(pos, line, column, source.text[pos..lookahead])
    }

    function Curr(): Byte
      reads this
      requires pos < |source.bin|
    {
      source.bin[pos]
    }

    function Peek(): Option<Byte>
      reads this
    {
      At(source.bin, lookahead)
    }

    method Step()
      modifies this`lookahead, this`done
      ensures lookahead == if old(done) then old(lookahead) else old(lookahead) + 1
      ensures done == (old(done) || lookahead >= |source.bin|)
      ensures old(Cursor()) ==> Cursor()
    {
      if !done {
        lookahead := lookahead + 1;
        if lookahead >= |source.bin| {
          done := true;
        }
      }
    }

    method StepBack()
      modifies this`lookahead
      ensures lookahead == if old(lookahead) > pos then old(lookahead) - 1 else old(lookahead)
    {
      if lookahead > pos {
        lookahead := lookahead - 1;
      }
    }

    method PeekNext() returns (v: Option<Byte>)
      modifies this`lookahead, this`done
      ensures v == old(Peek())
      ensures lookahead == if old(done) then old(lookahead) else old(lookahead) + 1
      ensures done == (old(done) || lookahead >= |source.bin|)
      ensures old(Cursor()) ==> Cursor()
    {
      v := Peek();
      Step();
    }

    /** Takes the next byte when it is `v`. */
    method Eat(v: Byte) returns (eaten: bool)
      modifies this`lookahead, this`done
      ensures eaten == (old(Peek()) == Some(v))
      ensures eaten ==> lookahead == (if old(done) then old(lookahead) else old(lookahead) + 1)
      ensures !eaten ==> lookahead == old(lookahead)
      ensures done == (old(done) || (eaten && lookahead >= |source.bin|))
      ensures old(Cursor()) ==> Cursor()
    {
      if Peek() == Some(v) {
        Step();
        eaten := true;
      } else {
        eaten := false;
      }
    }

    /** Starts the next token where the last one ended. */
    method Consume()
      modifies this`pos, this`done, this`lookahead
      ensures pos == old(lookahead)
      ensures done == (pos >= |source.bin|)
      ensures lookahead == old(lookahead) + 1
    {
      pos := lookahead;
      done := pos >= |source.bin|;
      lookahead := lookahead + 1;
    }

    /**
     * The digit-and-underscore loop of `number`: takes bytes while they are
     * digits or `_`, appending the digits to `v`, the digits of `bin[from..lookahead]`.
     */
    method TakeDigits(ghost from: nat, v: seq<Digit>) returns (w: seq<Digit>)
      requires Cursor() && from <= lookahead <= |source.bin|
      requires v == Digits(source.bin[from..lookahead])
      modifies this`lookahead, this`done
      ensures Cursor()
      ensures lookahead == RunEnd(source.bin, old(lookahead), IsDigitOrUnderscore)
      ensures w == Digits(source.bin[from..lookahead])
    {
      ghost var bin := source.bin;
      ghost var start := lookahead;
      w := v;
      while true
        invariant Cursor() && from <= start <= lookahead <= |bin|
        invariant forall k | start <= k < lookahead :: IsDigitOrUnderscore(bin[k])
        invariant w == Digits(bin[from..lookahead])
        decreases |bin| - lookahead
      {
        match Peek() {
          case Some(c) =>
            if IsDigit(c) {
              w := w + [DigitValue(c)];
            } else if c != '_' {
              break;
            }
          case None =>
            break;
        }
        DigitsSnoc(bin, from, lookahead);
        Step();
      }
      RunEndUnique(bin, start, lookahead, IsDigitOrUnderscore);
    }

    /** The integer part of the number literal whose first digit is at `pos`, evaluated right to left in u64 arithmetic. */
    method IntegerRun(firstChar: Byte) returns (intPart: u64)
      requires Cursor() && lookahead == pos + 1
      requires firstChar == Curr() && IsDigit(firstChar) && NumberFits(source.bin, pos)
      modifies this`lookahead, this`done
      ensures Cursor()
      ensures lookahead == IntegerEnd(source.bin, pos)
      ensures intPart == IntegerValue(source.bin, pos)
    {
      assert source.bin[pos..pos + 1] == [firstChar];
      var v := TakeDigits(pos, [DigitValue(firstChar)]);
      assert lookahead == IntegerEnd(source.bin, pos);
      intPart := IntegerPart(v);
    }

    /** The digits of a fraction, which starts at `lookahead`. */
    method Fraction() returns (v: seq<Digit>)
      requires Cursor() && lookahead <= |source.bin|
      modifies this`lookahead, this`done
      ensures Cursor()
      ensures (v, lookahead) == FractionAt(source.bin, old(lookahead))
    {
      assert source.bin[lookahead..lookahead] == [];
      v := TakeDigits(lookahead, []);
    }

    /**
     * The number literal whose first digit is at `pos`: the integer part,
     * then, after a `.`, the fraction kept as digits.
     */
    method Number(firstChar: Byte) returns (n: NumberLiteral)
      requires Cursor() && lookahead == pos + 1
      requires firstChar == Curr() && IsDigit(firstChar) && NumberFits(source.bin, pos)
      modifies this`lookahead, this`done
      ensures Cursor()
      ensures (n, lookahead) == NumberAt(source.bin, pos)
    {
      ghost var bin := source.bin;
      var intPart := IntegerRun(firstChar);
      ghost var intEnd := lookahead;
      var dot := Eat('.');
      if !dot {
        assert At(bin, intEnd) != Some('.');
        assert NumberAt(bin, pos) == (Integer(intPart), intEnd);
        return Integer(intPart);
      }
      assert At(bin, intEnd) == Some('.') && lookahead == intEnd + 1;
      var v := Fraction();
      assert NumberAt(bin, pos) == (Float(intPart, v), lookahead);
      n := Float(intPart, v);
    }

    /** The char literal after the opening quote at `pos`. */
    method CharLit() returns (r: Result<char, TokenizerError>)
      requires Cursor() && lookahead == pos + 1 && Curr() == '\''
      modifies this`lookahead, this`done
      ensures Cursor()
      ensures (r, lookahead) == CharAt(source.bin, pos)
    {
      var first := Peek();
      if first.None? {
        return Err(UnfinishedChar);
      }
      var c: char;
      if first.value == '\\' {
        Step();
        var escaped := PeekNext();
        if escaped.None? {
          return Err(UnfinishedChar);
        }
        c := escaped.value;
      } else {
        Step();
        c := first.value;
      }
      var closed := Eat('\'');
      if closed {
        r := Ok(c);
      } else {
        r := Err(UnfinishedChar);
      }
    }

    /** The string literal after the opening quote at `pos`. */
    method StringLit() returns (r: Result<string, TokenizerError>)
      requires Cursor() && lookahead == pos + 1 && Curr() == '"'
      modifies this`lookahead, this`done
      ensures Cursor()
      ensures match StringBody(source.bin, pos + 1, false)
        case Ok(v) => r == Ok(v.0) && lookahead == v.1
        case Err(e) => r == Err(e) && lookahead == if pos + 1 == |source.bin| then |source.bin| + 1 else |source.bin|
    {
      ghost var bin := source.bin;
      var s: string := [];
      var escaped := false;
      PrependEmpty(StringBody(bin, lookahead, escaped));
      while true
        invariant Cursor() && pos + 1 <= lookahead <= |bin|
        invariant StringBody(bin, pos + 1, false) == Prepend(s, StringBody(bin, lookahead, escaped))
        decreases |bin| - lookahead
      {
        ghost var at := lookahead;
        var next := PeekNext();
        if next.None? {
          assert StringBody(bin, at, escaped) == Err(UnfinishedString);
          return Err(UnfinishedString);
        }
        var c := next.value;
        assert c == bin[at] && lookahead == at + 1;
        if c == '"' && !escaped {
          assert StringBody(bin, at, false) == Ok(([], at + 1));
          assert s + [] == s;
          break;
        } else if c == '\\' && !escaped {
          assert StringBody(bin, at, false) == StringBody(bin, at + 1, true);
          escaped := true;
        } else if escaped {
          assert StringBody(bin, at, true) == Prepend(Unescaped(c), StringBody(bin, at + 1, false));
          PrependPrepend(s, Unescaped(c), StringBody(bin, lookahead, false));
          match Escape(c) {
            case Some(e) => s := s + e;
            case None => s := s + [c];
          }
          escaped := false;
        } else {
          assert StringBody(bin, at, false) == Prepend([c], StringBody(bin, at + 1, false));
          PrependPrepend(s, [c], StringBody(bin, lookahead, false));
          s := s + [c];
        }
      }
      r := Ok(s);
    }

    /** The block comment whose `/` `*` opener starts at `pos`; reports it when input ends first. */
    method MultilineComment() returns (comment: Comment)
      requires Cursor() && lookahead == pos + 1 && At(source.bin, pos + 1) == Some('*')
      modifies this`lookahead, this`done, diagnostics`items
      ensures Cursor()
      ensures comment == MultiLine
      ensures var x := BlockCommentAt(source.bin, pos);
        && lookahead == x.end
        && diagnostics.items == old(diagnostics.items) + Reported(source.bin, pos, x)
    {
      ghost var bin := source.bin;
      Step();
      var first := PeekNext();
      if first.None? {
        return MultiLine;
      }
      var pc := first.value;
      var nest: nat := 1;
      var closed := false;
      while true
        invariant Cursor() && pos + 3 <= lookahead <= |bin|
        invariant nest >= 1
        invariant CommentEnd(bin, pos + 3, bin[pos + 2], 1) == CommentEnd(bin, lookahead, pc, nest)
        invariant diagnostics.items == old(diagnostics.items)
        decreases |bin| - lookahead
      {
        var next := PeekNext();
        if next.None? {
          break;
        }
        var c := next.value;
        if pc == '*' && c == '/' {
          nest := nest - 1;
          if nest == 0 {
            closed := true;
            break;
          }
        } else if pc == '/' && c == '*' {
          nest := nest + 1;
        }
        pc := c;
      }
      if !closed {
        diagnostics.Extend([Diagnostic(UnclosedMultilineComment, Pos())]);
      }
      return MultiLine;
    }

    /** The line comment whose `/` `/` opener starts at `pos`, up to but not including the newline. */
    method SinglelineComment() returns (comment: Comment)
      requires Cursor() && lookahead == pos + 1 && At(source.bin, pos + 1) == Some('/')
      requires '\n' in source.bin[pos + 1..]
      modifies this`lookahead, this`done
      ensures Cursor()
      ensures comment == SingleLine
      ensures lookahead == RunEnd(source.bin, pos + 1, IsNotNewline)
    {
      ghost var bin := source.bin;
      ghost var e := RunEnd(bin, pos + 1, IsNotNewline);
      assert e < |bin| by {
        var j :| 0 <= j < |bin[pos + 1..]| && bin[pos + 1..][j] == '\n';
        assert bin[pos + 1 + j] == '\n';
      }
      while Peek() != Some('\n')
        invariant Cursor() && pos + 1 <= lookahead <= e
        decreases e - lookahead
      {
        Step();
      }
      return SingleLine;
    }

    /**
     * Scans the token at `pos`, dispatching on its first byte. The longer
     * arms of the source's single match are the methods below (whitespace,
     * identifier, punctuation, arithmetic and logic operators), each proved
     * against the matching part of `Lex`.
     */
    method GetTokenInner() returns (r: Result<Token, TokenizerError>)
      requires Valid() && (!done ==> Defined(source.bin, pos))
      modifies this`lookahead, this`done, diagnostics`items
      ensures old(done) ==> r == Err(AlreadyDone) && lookahead == old(lookahead) && diagnostics.items == old(diagnostics.items)
      ensures !old(done) ==> var x := Lex(source.bin, pos);
        && lookahead == x.end
        && r == TokenAt(source.bin, pos, x)
        && diagnostics.items == old(diagnostics.items) + Reported(source.bin, pos, x)
    {
      assert old(diagnostics.items) + [] == old(diagnostics.items);
      if done {
        return Err(AlreadyDone);
      }
      var ty: TokenType;
      var c := Curr();
      if IsWhitespace(c) {
        ScanWhitespace();
        ty := Whitespace;
      } else if IsIdentStart(c) {
        ty := ScanIdentifier();
      } else if IsDigit(c) {
        var n := Number(c);
        ty := Literal(Literal.Number(n));
      } else if c == '\'' {
        var ch :- CharLit();
        ty := Literal(Char(ch));
      } else if c == '"' {
        var s :- StringLit();
        ty := Literal(String(s));
      } else if IsPunctuationStart(c) {
        ty := ScanPunctuation();
      } else if IsArithmeticStart(c) {
        ty := ScanArithmetic();
      } else if IsLogicStart(c) {
        ty := ScanLogic();
      } else {
        return Err(Unexpected(c));
      }
      r := Ok(Token(Pos(), ty));
    }

    /** The whitespace arm: takes the maximal run of blanks, tabs and newlines. */
    method ScanWhitespace()
      requires Cursor() && lookahead == pos + 1
      modifies this`lookahead, this`done
      ensures Cursor()
      ensures lookahead == RunEnd(source.bin, pos + 1, IsWhitespace)
    {
      while Peek().Some? && IsWhitespace(Peek().value)
        invariant Cursor() && pos + 1 <= lookahead <= |source.bin|
        invariant forall k | pos + 1 <= k < lookahead :: IsWhitespace(source.bin[k])
        decreases |source.bin| - lookahead
      {
        Step();
      }
      RunEndUnique(source.bin, pos + 1, lookahead, IsWhitespace);
    }

    /** The identifier arm: takes the maximal run of letters, digits and `_`, then looks the text up as a keyword. */
    method ScanIdentifier() returns (ty: TokenType)
      requires Cursor() && lookahead == pos + 1
      modifies this`lookahead, this`done
      ensures Cursor()
      ensures lookahead == RunEnd(source.bin, pos + 1, IsIdentByte)
      ensures ty == match GetKeyword(source.bin[pos..lookahead]) case Some(k) => Keyword(k) case None => Identifier
    {
      while Peek().Some? && IsIdentByte(Peek().value)
        invariant Cursor() && pos + 1 <= lookahead <= |source.bin|
        invariant forall k | pos + 1 <= k < lookahead :: IsIdentByte(source.bin[k])
        decreases |source.bin| - lookahead
      {
        Step();
      }
      RunEndUnique(source.bin, pos + 1, lookahead, IsIdentByte);
      match GetKeyword(Pos().text) {
        case Some(k) => ty := Keyword(k);
        case None => ty := Identifier;
      }
    }

    /** The delimiter and punctuation arms of the dispatch. */
    method ScanPunctuation() returns (ty: TokenType)
      requires Cursor() && lookahead == pos + 1 && IsPunctuationStart(Curr())
      modifies this`lookahead, this`done
      ensures PunctuationAt(source.bin, pos) == Produce(ty, lookahead)
    {
      match Curr() {
        case '(' => ty := LeftParen;
        case ')' => ty := RightParen;
        case '[' => ty := LeftSquare;
        case ']' => ty := RightSquare;
        case '{' => ty := Delim(Curly, Left);
        case '}' => ty := Delim(Curly, Right);
        case '@' => ty := Punctuation(AtSign);
        case ',' => ty := Punctuation(Colon);
        case ';' => ty := Punctuation(Semicolon);
        case ':' => ty := Punctuation(Colon);
        case '#' => ty := Punctuation(HashSymbol);
        case '?' => ty := Punctuation(QuestionMark);
        case '$' =>
          var twice := Eat('$');
          ty := if twice then Punctuation(DoubleDollar) else Punctuation(Dollar);
        case '=' =>
          var next := PeekNext();
          if next == Some('>') {
            ty := Punctuation(FatArrow);
          } else if next == Some('=') {
            ty := Operator(DoubleEquals);
          } else {
            StepBack();
            ty := Operator(Equals);
          }
        case '.' =>
          var second := Eat('.');
          if second {
            var third := Eat('.');
            ty := if third then Punctuation(TripleDot) else Punctuation(DoubleDot);
          } else {
            ty := Punctuation(Dot);
          }
      }
    }

    /** The arithmetic operator and comment arms of the dispatch. */
    method ScanArithmetic() returns (ty: TokenType)
      requires Cursor() && lookahead == pos + 1 && IsArithmeticStart(Curr()) && Defined(source.bin, pos)
      modifies this`lookahead, this`done, diagnostics`items
      ensures var x := ArithmeticAt(source.bin, pos);
        && x.result == Ok(ty)
        && lookahead == x.end
        && diagnostics.items == old(diagnostics.items) + Reported(source.bin, pos, x)
    {
      assert old(diagnostics.items) + [] == old(diagnostics.items);
      match Curr() {
        case '+' =>
          match Peek() {
            case Some('=') => ty := Operator(PlusEquals);
            case Some('+') => ty := Operator(DoublePlus);
            case _ => ty := Operator(Plus);
          }
        case '-' =>
          match Peek() {
            case Some('=') => ty := Operator(MinusEquals);
            case Some('-') => ty := Operator(DoubleMinus);
            case _ => ty := Operator(Minus);
          }
        case '*' =>
          match Peek() {
            case Some('=') => ty := Operator(StarEquals);
            case Some('*') =>
              Step();
              var assign := Eat('=');
              ty := if assign then Operator(DoubleStarEquals) else Operator(DoubleStar);
            case _ => ty := Operator(Star);
          }
        case '!' =>
          var assign := Eat('=');
          ty := if assign then Operator(BangEquals) else Operator(Bang);
        case '~' =>
          var assign := Eat('=');
          ty := if assign then Operator(TildaEquals) else Operator(Tilda);
        case '^' =>
          var assign := Eat('=');
          ty := if assign then Operator(CaretEquals) else Operator(Caret);
        case '%' =>
          var assign := Eat('=');
          ty := if assign then Operator(PercentEquals) else Operator(Percent);
        case '/' =>
          match Peek() {
            case Some('*') =>
              var comment := MultilineComment();
              ty := TokenType.Comment(comment);
            case Some('/') =>
              var comment := SinglelineComment();
              ty := TokenType.Comment(comment);
            case Some('=') => ty := Operator(SlashEquals);
            case _ => ty := Operator(Slash);
          }
      }
    }

    /** The logical, bitwise and comparison operator arms of the dispatch. */
    method ScanLogic() returns (ty: TokenType)
      requires Cursor() && lookahead == pos + 1 && IsLogicStart(Curr())
      modifies this`lookahead, this`done
      ensures LogicAt(source.bin, pos) == Produce(ty, lookahead)
    {
      match Curr() {
        case '&' =>
          match Peek() {
            case Some('&') =>
              Step();
              var assign := Eat('=');
              ty := if assign then Operator(DoubleAndEquals) else Operator(DoubleAnd);
            case Some('=') => ty := Operator(SingleAndEquals);
            case _ => ty := Operator(SingleAnd);
          }
        case '|' =>
          match Peek() {
            case Some('|') =>
              Step();
              var assign := Eat('=');
              ty := if assign then Operator(DoubleOrEquals) else Operator(DoubleOr);
            case Some('=') => ty := Operator(SingleOrEquals);
            case _ => ty := Operator(SingleOr);
          }
        case '<' =>
          var next := PeekNext();
          if next == Some('=') {
            ty := Operator(LesserThanEquals);
          } else if next == Some('<') {
            if Peek() == Some('=') {
              Step();
              ty := Operator(LeftShiftEquals);
            } else {
              ty := Operator(LeftShift);
            }
          } else {
            StepBack();
            ty := Operator(LesserThan);
          }
        case '>' =>
          var next := PeekNext();
          if next == Some('=') {
            ty := Operator(GreaterThanEquals);
          } else if next == Some('>') {
            if Peek() == Some('=') {
              Step();
              ty := Operator(RightShiftEquals);
            } else {
              ty := Operator(RightShift);
            }
          } else {
            StepBack();
            ty := Operator(GreaterThan);
          }
      }
    }

    /** Scans one token, then starts the next one where it ended, whatever the outcome. */
    method GetToken() returns (r: Result<Token, TokenizerError>)
      requires Valid() && (!done ==> Defined(source.bin, pos))
      modifies this`pos, this`lookahead, this`done, diagnostics`items
      ensures Valid()
      ensures old(done) ==> r == Err(AlreadyDone) && pos == old(pos) + 1 && diagnostics.items == old(diagnostics.items)
      ensures !old(done) ==> var x := Lex(source.bin, old(pos));
        && pos == x.end
        && r == TokenAt(source.bin, old(pos), x)
        && diagnostics.items == old(diagnostics.items) + Reported(source.bin, old(pos), x)
    {
      r := GetTokenInner();
      Consume();
    }

    /** The iterator: `None` once done, otherwise the next item, error or not. */
    method Next() returns (item: Option<Result<Token, TokenizerError>>)
      requires Valid() && StreamDefined(source.bin, pos)
      modifies this`pos, this`lookahead, this`done, diagnostics`items
      ensures Valid() && StreamDefined(source.bin, pos)
      ensures item.None? <==> old(done)
      ensures old(done) ==> pos == old(pos) && diagnostics.items == old(diagnostics.items)
      ensures !old(done) ==> old(pos) < pos
      ensures Items(source.bin, old(pos)) == (if item.Some? then [item.value] else []) + Items(source.bin, pos)
      ensures item.Some? ==> diagnostics.items == old(diagnostics.items) + Reported(source.bin, old(pos), Lex(source.bin, old(pos)))
    {
      if done {
        return None;
      }
      var t := GetToken();
      item := Some(t);
    }
  }
}
