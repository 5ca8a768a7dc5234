/**
 * What the Pratt parser of src/parser/mod.rs computes, as pure functions
 * over the token stream it reads: a sequence of tokenizer items and the
 * index of the next unread one. Each function returns the tree built and
 * the index after it, the parse error, or `Unimplemented` where the source
 * stops at a `todo!()`.
 */
module Pratt {
  import opened Wrappers
  import opened Tokens
  import opened Lexical
  import opened Expressions

  /** What the tokenizer yields and the parser reads. */
  type Item = Result<Token, TokenizerError>

  datatype ParserError =
    | Tokenizer(inner: TokenizerError)
    | Unexpected(found: Option<TokenType>, expected: string)
    | UnexpectedEnd

  const ExpectedPrimary: string := "a literal or an identifier"
  const ExpectedRightParen: string := "a matching right parenthesis"
  const ExpectedRightSquare: string := "a matching right square bracket"
  const ExpectedArgumentEnd: string := "a comma after the argument, or a parenthesis closing the agument list"

  /** The parser's outcome: a value, an error, or a stop at an unimplemented binding power. */
  datatype Outcome<+T> = Parsed(value: T) | Failed(error: ParserError) | Unimplemented {

    predicate IsFailure() {
      !Parsed?
    }

    function PropagateFailure<U>(): Outcome<U>
      requires !Parsed?
    {
      if Failed? then Failed(error) else Unimplemented
    }

    function Extract(): T
      requires Parsed?
    {
      value
    }
  }

  /** A tokenizer error becomes a parser error (the `From` conversion behind `?`). */
  function Lift<T>(r: Result<T, TokenizerError>): (o: Outcome<T>)
    ensures o.Parsed? <==> r.Ok?
    ensures r.Ok? ==> o.value == r.value
    ensures r.Err? ==> o == Failed(Tokenizer(r.error))
  {
    match r
    case Ok(v) => Parsed(v)
    case Err(e) => Failed(Tokenizer(e))
  }

  /** The token at `i`, if any, without taking it (`peek_token`). */
  function ItemAt(toks: seq<Item>, i: nat): (r: Result<Option<Token>, TokenizerError>)
    ensures r.Ok? && r.value.Some? ==> i < |toks| && toks[i] == Ok(r.value.value)
    ensures r.Ok? && r.value.None? <==> i >= |toks|
    ensures r.Err? ==> i < |toks| && toks[i] == Err(r.error)
  {
    if i < |toks| then
      match toks[i]
      case Ok(t) => Ok(Some(t))
      case Err(e) => Err(e)
    else Ok(None)
  }

  /** The kind of the token at `i`, if any (`peek_token_ty`). */
  function TypeAt(toks: seq<Item>, i: nat): (r: Result<Option<TokenType>, TokenizerError>)
    ensures r.Ok? && r.value.Some? ==> i < |toks| && toks[i].Ok? && toks[i].value.ty == r.value.value
    ensures r.Ok? && r.value.None? <==> i >= |toks|
    ensures r.Err? ==> i < |toks| && toks[i] == Err(r.error)
  {
    var t :- ItemAt(toks, i);
    Ok(match t case Some(t) => Some(t.ty) case None => None)
  }

  // ----- binding powers -----

  /** Unary `+ - ++ --` bind their operand at power 5. */
  function PrefixBindingPower(op: Operator): (bp: Option<nat>)
    ensures bp.Some? <==> op == Plus || op == Minus || op == DoublePlus || op == DoubleMinus
    ensures bp.Some? ==> bp.value == 5
  {
    if op == Plus || op == Minus || op == DoublePlus || op == DoubleMinus then Some(5) else None
  }

  /**
   * `+ -` are (1, 2) and `* /` (3, 4); `~` and `!` and every non-operator
   * have none; every other operator is not implemented.
   */
  function InfixBindingPower(ty: TokenType): (bp: Outcome<Option<(nat, nat)>>)
    ensures bp.Failed? == false
    ensures !ty.Operator? ==> bp == Parsed(None)
    ensures bp.Parsed? && bp.value.Some? ==> ty.Operator? && bp.value.value.1 == bp.value.value.0 + 1
  {
    if !ty.Operator? then Parsed(None)
    else if ty.operator == Plus || ty.operator == Minus then Parsed(Some((1, 2)))
    else if ty.operator == Star || ty.operator == Slash then Parsed(Some((3, 4)))
    else if ty.operator == Tilda || ty.operator == Bang then Parsed(None)
    else Unimplemented
  }

  /** Postfix `!` and the index bracket bind at power 7. */
  function PostfixBindingPower(ty: TokenType): (bp: Option<nat>)
    ensures bp.Some? <==> ty == Operator(Bang) || ty == LeftSquare
    ensures bp.Some? ==> bp.value == 7
  {
    if ty == Operator(Bang) || ty == LeftSquare then Some(7) else None
  }

  /** The kinds the climbing loop looks at: operators and square brackets. */
  predicate IsLoopToken(ty: TokenType) {
    ty.Operator? || (ty.Delimeter? && ty.delimeter.ty == Square)
  }

  /** The climbing loop at power `minBp` stops in front of a token of kind `ty`. */
  predicate Halts(ty: TokenType, minBp: nat) {
    || !IsLoopToken(ty)
    || (PostfixBindingPower(ty).Some? && PostfixBindingPower(ty).value < minBp)
    || (PostfixBindingPower(ty).None? && InfixBindingPower(ty) == Parsed(None))
    || (PostfixBindingPower(ty).None? && InfixBindingPower(ty).Parsed? && InfixBindingPower(ty).value.Some?
        && InfixBindingPower(ty).value.value.0 < minBp)
  }

  /** An expression parsed at power `minBp` may end at `j`: the input ends there, or its token halts the loop. */
  predicate Stopped(toks: seq<Item>, j: nat, minBp: nat)
    requires j <= |toks|
  {
    j == |toks| || (toks[j].Ok? && Halts(toks[j].value.ty, minBp))
  }

  /** The item at `j`, if any, is a token and not an error. */
  predicate AtToken(toks: seq<Item>, j: nat)
    requires j <= |toks|
  {
    j == |toks| || toks[j].Ok?
  }

  // ----- the parse -----

  /** `expr_primary`: a literal, a name, path or call, a parenthesised expression, or a prefix operator. */
  function ParsePrimary(toks: seq<Item>, i: nat): (r: Outcome<(Expr, nat)>)
    requires i <= |toks|
    ensures r.Parsed? ==> i < r.value.1 <= |toks|
    ensures i == |toks| ==> r == Failed(UnexpectedEnd)
    ensures i < |toks| && toks[i].Err? ==> r == Failed(Tokenizer(toks[i].error))
    decreases |toks| - i, 0
  {
    if i == |toks| then Failed(UnexpectedEnd)
    else match toks[i]
      case Err(e) => Failed(Tokenizer(e))
      case Ok(t) =>
        if t.ty == LeftParen then ParseEnclosed(toks, i + 1, RightParen, ExpectedRightParen)
        else match t.ty
        case Literal(value) => Parsed((Lit(value), i + 1))
        case Identifier => ParseNamed(toks, i + 1, t.Text())
        case Operator(op) =>
          (match PrefixBindingPower(op)
           case None => Unimplemented
           case Some(rbp) =>
             var right :- ParseBp(toks, i + 1, rbp);
             Parsed((Prefix(op, right.0), right.1)))
        case _ => Failed(ParserError.Unexpected(Some(t.ty), ExpectedPrimary))
  }

  /** After an identifier whose text is `head`: a call, a path with its segments, or a plain name. */
  function ParseNamed(toks: seq<Item>, i: nat, head: seq<Byte>): (r: Outcome<(Expr, nat)>)
    requires i <= |toks|
    ensures r.Parsed? ==> i <= r.value.1 <= |toks|
    decreases |toks| - i, 0
  {
    var after :- Lift(TypeAt(toks, i));
    if after == Some(LeftParen) then ParseArgs(toks, i + 1, Path(head, None), [])
    else if after == Some(Punctuation(DoubleColon)) then
      var tail :- ParseTail(toks, i + 1, []);
      var p := Path(head, Some(tail.0));
      var next :- Lift(TypeAt(toks, tail.1));
      if next == Some(LeftParen) then ParseArgs(toks, tail.1 + 1, p, [])
      else Parsed((Name(p), tail.1))
    else Parsed((Name(Path(head, None)), i))
  }

  /**
   * After an opening bracket: an expression at power 0, then the token
   * `closer`; any other token, or the end, is reported as not `expected`.
   */
  function ParseEnclosed(toks: seq<Item>, i: nat, closer: TokenType, expected: string): (r: Outcome<(Expr, nat)>)
    requires i <= |toks|
    ensures r.Parsed? ==> i < r.value.1 <= |toks|
    ensures r.Parsed? ==> toks[r.value.1 - 1].Ok? && toks[r.value.1 - 1].value.ty == closer
    decreases |toks| - i, 2
  {
    var inner :- ParseBp(toks, i, 0);
    var close :- Lift(TypeAt(toks, inner.1));
    if close == Some(closer) then Parsed((inner.0, inner.1 + 1))
    else Failed(ParserError.Unexpected(close, expected))
  }

  /** The `identifier (:: identifier)*` segments after a head and its `::`, appended to `acc`. */
  function ParseTail(toks: seq<Item>, i: nat, acc: seq<Token>): (r: Outcome<(seq<Token>, nat)>)
    requires i <= |toks|
    ensures r.Parsed? ==> i <= r.value.1 <= |toks|
    ensures r.Parsed? ==> acc <= r.value.0
    ensures r.Parsed? ==> forall k | |acc| <= k < |r.value.0| :: r.value.0[k].ty == Identifier
    decreases |toks| - i
  {
    var p :- Lift(ItemAt(toks, i));
    if p.Some? && p.value.ty == Identifier then
      var sep :- Lift(TypeAt(toks, i + 1));
      if sep == Some(Punctuation(DoubleColon)) then ParseTail(toks, i + 2, acc + [p.value])
      else Parsed((acc + [p.value], i + 1))
    else Parsed((acc, i))
  }

  /** `expr_bp`: a primary expression, then the climbing loop at power `minBp`. */
  function ParseBp(toks: seq<Item>, i: nat, minBp: nat): (r: Outcome<(Expr, nat)>)
    requires i <= |toks|
    ensures r.Parsed? ==> i < r.value.1 <= |toks|
    ensures r.Parsed? ==> AtToken(toks, r.value.1)
    decreases |toks| - i, 1
  {
    var lhs :- ParsePrimary(toks, i);
    ParseLoop(toks, lhs.0, lhs.1, minBp)
  }

  /** The climbing loop of `expr_bp` with `lhs` parsed so far and `j` the next unread index. */
  function ParseLoop(toks: seq<Item>, lhs: Expr, j: nat, minBp: nat): (r: Outcome<(Expr, nat)>)
    requires j <= |toks|
    ensures r.Parsed? ==> j <= r.value.1 <= |toks|
    ensures r.Parsed? ==> AtToken(toks, r.value.1)
    decreases |toks| - j, 1
  {
    var next :- Lift(TypeAt(toks, j));
    if next.Some? && IsLoopToken(next.value) then
      var op := next.value;
      match PostfixBindingPower(op)
      case Some(lbp) =>
        if lbp < minBp then Parsed((lhs, j))
        else if op == LeftSquare then
          var with :- ParseEnclosed(toks, j + 1, RightSquare, ExpectedRightSquare);
          ParseLoop(toks, Index(lhs, with.0), with.1, minBp)
        else ParseLoop(toks, Postfix(lhs, op.operator), j + 1, minBp)
      case None =>
        var infix :- InfixBindingPower(op);
        match infix
        case Some(bps) =>
          if bps.0 < minBp then Parsed((lhs, j))
          else
            var right :- ParseBp(toks, j + 1, bps.1);
            ParseLoop(toks, Infix(lhs, op.operator, right.0), right.1, minBp)
        case None => Parsed((lhs, j))
    else Parsed((lhs, j))
  }

  /** `call_expr` after the opening parenthesis: arguments separated by commas up to `)`, appended to `acc`. */
  function ParseArgs(toks: seq<Item>, i: nat, callee: Path, acc: seq<Expr>): (r: Outcome<(Expr, nat)>)
    requires i <= |toks|
    ensures r.Parsed? ==> i < r.value.1 <= |toks|
    ensures r.Parsed? ==> r.value.0.Call? && r.value.0.callee == callee
    ensures r.Parsed? ==> acc < r.value.0.arguments
    decreases |toks| - i, 2
  {
    var arg :- ParseBp(toks, i, 0);
    var args := acc + [arg.0];
    var sep :- Lift(TypeAt(toks, arg.1));
    if sep == Some(RightParen) then Parsed((Call(callee, args), arg.1 + 1))
    else if sep == Some(Punctuation(Comma)) then ParseArgs(toks, arg.1 + 1, callee, args)
    else Failed(ParserError.Unexpected(sep, ExpectedArgumentEnd))
  }
}
