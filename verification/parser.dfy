/**
 * The `Parser` of src/parser/mod.rs: a peekable stream of tokenizer items,
 * read one token at a time by recursive descent with binding powers. Each
 * parsing method is proved to return what the matching function of
 * `Pratt` computes from the index where it started, and to leave the
 * stream just after what it parsed.
 */
module Parsing {
  import opened Wrappers
  import opened Tokens
  import opened Expressions
  import opened Pratt

  /** The method's result `r` and final index agree with the outcome `spec` of the parse. */
  predicate Agrees(r: Outcome<Expr>, index: nat, spec: Outcome<(Expr, nat)>) {
    match spec
    case Parsed(v) => r == Parsed(v.0) && index == v.1
    case Failed(e) => r == Failed(e)
    case Unimplemented => r == Unimplemented
  }

  class Parser {
    /** The items the tokenizer yields, in order. */
    const tokens: seq<Item>
    /** How many of them have been taken. */
    var index: nat

    predicate Valid()
      reads this
    {
      index <= |tokens|
    }

    constructor (tokens: seq<Item>)
      ensures this.tokens == tokens && index == 0
      ensures Valid()
    {
      this.tokens := tokens;
      index := 0;
    }

    /** `next_token`: takes the next item, if any. */
    method NextToken() returns (r: Result<Option<Token>, Lexical.TokenizerError>)
      requires Valid()
      modifies this`index
      ensures Valid()
      ensures r == ItemAt(tokens, old(index))
      ensures index == if old(index) < |tokens| then old(index) + 1 else old(index)
    {
      if index < |tokens| {
        var item := tokens[index];
        index := index + 1;
        match item {
          case Ok(t) => r := Ok(Some(t));
          case Err(e) => r := Err(e);
        }
      } else {
        r := Ok(None);
      }
    }

    /** `peek_token`: the next item, left in the stream. */
    function PeekToken(): (r: Result<Option<Token>, Lexical.TokenizerError>)
      reads this
      ensures r.Ok? && r.value.None? <==> index >= |tokens|
    {
      ItemAt(tokens, index)
    }

    /** `next_token_ty`: takes the next item and gives its kind. */
    method NextTokenTy() returns (r: Result<Option<TokenType>, Lexical.TokenizerError>)
      requires Valid()
      modifies this`index
      ensures Valid()
      ensures r == TypeAt(tokens, old(index))
      ensures index == if old(index) < |tokens| then old(index) + 1 else old(index)
    {
      var t :- NextToken();
      r := Ok(match t case Some(t) => Some(t.ty) case None => None);
    }

    /** `peek_token_ty`: the kind of the next item, left in the stream. */
    function PeekTokenTy(): (r: Result<Option<TokenType>, Lexical.TokenizerError>)
      reads this
      ensures r.Ok? && r.value.None? <==> index >= |tokens|
    {
      TypeAt(tokens, index)
    }

    /** `expr_primary`. */
    method ExprPrimary() returns (r: Outcome<Expr>)
      requires Valid()
      modifies this`index
      ensures Valid()
      ensures Agrees(r, index, ParsePrimary(tokens, old(index)))
      decreases |tokens| - index, 0
    {
      var nt := NextToken();
      var next :- Lift(nt);
      if next.None? {
        return Failed(UnexpectedEnd);
      }
      var t := next.value;
      if t.ty == LeftParen {
        r := Enclosed(RightParen, ExpectedRightParen);
        return;
      }
      match t.ty {
        case Literal(value) =>
          r := Parsed(Lit(value));
        case Identifier =>
          r := NamedExpr(t.Text());
        case Operator(op) =>
          var bp := PrefixBindingPower(op);
          if bp.None? {
            return Unimplemented;
          }
          var right :- ExprBp(bp.value);
          r := Parsed(Prefix(op, right));
        case _ =>
          r := Failed(ParserError.Unexpected(Some(t.ty), ExpectedPrimary));
      }
    }

    /** The identifier arm of `expr_primary`, after the identifier whose text is `head`. */
    method NamedExpr(head: seq<Byte>) returns (r: Outcome<Expressions.Expr>)
      requires Valid()
      modifies this`index
      ensures Valid()
      ensures Agrees(r, index, ParseNamed(tokens, old(index), head))
      decreases |tokens| - index, 0
    {
      var after :- Lift(PeekTokenTy());
      if after == Some(LeftParen) {
        var paren := NextToken();
        r := CallExpr(Path(head, None));
      } else if after == Some(Punctuation(DoubleColon)) {
        var colons := NextToken();
        var tail := PathTail();
        var segments :- tail;
        var p := Path(head, Some(segments));
        var following :- Lift(PeekTokenTy());
        if following == Some(LeftParen) {
          var paren := NextToken();
          r := CallExpr(p);
        } else {
          r := Parsed(Name(p));
        }
      } else {
        r := Parsed(Name(Path(head, None)));
      }
    }

    /**
     * The bracketed arms of `expr_primary` and `expr_bp`, after the opening
     * bracket: an expression, then `closer`, or the error naming `expected`.
     */
    method Enclosed(closer: TokenType, expected: string) returns (r: Outcome<Expressions.Expr>)
      requires Valid()
      modifies this`index
      ensures Valid()
      ensures Agrees(r, index, ParseEnclosed(tokens, old(index), closer, expected))
      decreases |tokens| - index, 2
    {
      var inner :- ExprBp(0);
      var ct := NextTokenTy();
      if ct.Err? {
        // the expression stopped in front of an item that is not an error
        assert false;
      }
      var close := ct.value;
      if close != Some(closer) {
        return Failed(ParserError.Unexpected(close, expected));
      }
      return Parsed(inner);
    }

    /** The loop of `expr_primary` that collects the segments of a path after its first `::`. */
    method PathTail() returns (r: Outcome<seq<Token>>)
      requires Valid()
      modifies this`index
      ensures Valid()
      ensures match ParseTail(tokens, old(index), [])
        case Parsed(v) => r == Parsed(v.0) && index == v.1
        case Failed(e) => r == Failed(e)
        case Unimplemented => r == Unimplemented
    {
      var tail: seq<Token> := [];
      ghost var start := index;
      while true
        invariant Valid() && start <= index
        invariant ParseTail(tokens, start, []) == ParseTail(tokens, index, tail)
        decreases |tokens| - index
      {
        var p :- Lift(PeekToken());
        if !(p.Some? && p.value.ty == Identifier) {
          break;
        }
        var segment := NextToken();
        tail := tail + [p.value];
        var sep :- Lift(PeekTokenTy());
        if sep == Some(Punctuation(DoubleColon)) {
          var colons := NextToken();
        } else {
          break;
        }
      }
      return Parsed(tail);
    }

    /** `expr_bp`: an expression whose operators all bind at least as tightly as `minBp`. */
    method ExprBp(minBp: nat) returns (r: Outcome<Expr>)
      requires Valid()
      modifies this`index
      ensures Valid()
      ensures Agrees(r, index, ParseBp(tokens, old(index), minBp))
      decreases |tokens| - index, 1
    {
      ghost var start := index;
      var lhs :- ExprPrimary();
      while true
        invariant Valid() && start < index
        invariant ParseBp(tokens, start, minBp) == ParseLoop(tokens, lhs, index, minBp)
        decreases |tokens| - index
      {
        var peeked :- Lift(PeekTokenTy());
        if !(peeked.Some? && IsLoopToken(peeked.value)) {
          break;
        }
        var op := peeked.value;
        var postfix := PostfixBindingPower(op);
        if postfix.Some? {
          if postfix.value < minBp {
            break;
          }
          var taken := NextToken();
          if op == LeftSquare {
            var with :- Enclosed(RightSquare, ExpectedRightSquare);
            lhs := Index(lhs, with);
          } else {
            lhs := Postfix(lhs, op.operator);
          }
        } else {
          var infix :- InfixBindingPower(op);
          if infix.None? || infix.value.0 < minBp {
            break;
          }
          var taken := NextToken();
          var right :- ExprBp(infix.value.1);
          lhs := Infix(lhs, op.operator, right);
        }
      }
      return Parsed(lhs);
    }

    /** `expr`: a whole expression, at binding power 0. */
    method Expr() returns (r: Outcome<Expressions.Expr>)
      requires Valid()
      modifies this`index
      ensures Valid()
      ensures Agrees(r, index, ParseBp(tokens, old(index), 0))
      decreases |tokens| - index, 2
    {
      r := ExprBp(0);
    }

    /** `call_expr`: the arguments of a call to `callee`, after its `(`. */
    method CallExpr(callee: Path) returns (r: Outcome<Expressions.Expr>)
      requires Valid()
      modifies this`index
      ensures Valid()
      ensures Agrees(r, index, ParseArgs(tokens, old(index), callee, []))
      decreases |tokens| - index, 3
    {
      var args: seq<Expressions.Expr> := [];
      ghost var start := index;
      while true
        invariant Valid() && start <= index
        invariant ParseArgs(tokens, start, callee, []) == ParseArgs(tokens, index, callee, args)
        decreases |tokens| - index
      {
        var arg :- Expr();
        args := args + [arg];
        var sep :- Lift(PeekTokenTy());
        if sep == Some(RightParen) {
          var paren := NextToken();
          break;
        } else if sep == Some(Punctuation(Comma)) {
          var comma := NextToken();
        } else {
          return Failed(ParserError.Unexpected(sep, ExpectedArgumentEnd));
        }
      }
      return Parsed(Call(callee, args));
    }
  }
}
