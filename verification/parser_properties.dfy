/**
 * What the Pratt parser promises, stated over the functions of `Pratt`
 * that the Parser class is proved to compute: every well-formed tree comes
 * back from its fully bracketed token form, `* /` bind tighter than `+ -`
 * and both associate to the left, prefix operators bind tighter than infix
 * ones and postfix operators tighter still, and the error cases.
 */
module ParserProperties {
  import opened Wrappers
  import opened Tokens
  import opened Lexical
  import opened Expressions
  import opened Pratt

  // ----- token streams -----

  /** A token of kind `ty`; the parser reads only the text of identifiers. */
  function Tok(ty: TokenType): Item {
    Ok(Token(TokenPosition(0, 1, 1, []), ty))
  }

  /** An identifier token with text `name`. */
  function Ident(name: seq<Byte>): Item {
    Ok(Token(TokenPosition(0, 1, 1, name), Identifier))
  }

  function Lit1(v: Literal): Item {
    Tok(Literal(v))
  }

  function Op(op: Operator): Item {
    Tok(Operator(op))
  }

  /** The operators with an infix binding power. */
  predicate IsArithmetic(op: Operator) {
    op == Plus || op == Minus || op == Star || op == Slash
  }

  /** `toks` holds `s` from index `i` on. */
  predicate Embeds(toks: seq<Item>, i: nat, s: seq<Item>)
    decreases |s|
  {
    if s == [] then i <= |toks|
    else i < |toks| && toks[i] == s[0] && Embeds(toks, i + 1, s[1..])
  }

  lemma {:induction false} EmbedsLength(toks: seq<Item>, i: nat, s: seq<Item>)
    requires Embeds(toks, i, s)
    ensures i + |s| <= |toks|
    decreases |s|
  {
    if s != [] {
      EmbedsLength(toks, i + 1, s[1..]);
    }
  }

  /** Every sequence holds its own suffixes. */
  lemma {:induction false} EmbedsSuffix(toks: seq<Item>, i: nat)
    requires i <= |toks|
    ensures Embeds(toks, i, toks[i..])
    decreases |toks| - i
  {
    if i < |toks| {
      assert toks[i..][1..] == toks[i + 1..];
      EmbedsSuffix(toks, i + 1);
    }
  }

  /** What `a + b` embeds, `a` and then `b` embed. */
  lemma {:induction false} Split(toks: seq<Item>, i: nat, a: seq<Item>, b: seq<Item>)
    requires Embeds(toks, i, a + b)
    ensures Embeds(toks, i, a) && Embeds(toks, i + |a|, b)
    decreases |a|
  {
    if a == [] {
      assert a + b == b;
      EmbedsLength(toks, i, b);
    } else {
      assert (a + b)[0] == a[0];
      assert (a + b)[1..] == a[1..] + b;
      Split(toks, i + 1, a[1..], b);
    }
  }

  /** The item at `k` is `x`. */
  predicate At(toks: seq<Item>, k: nat, x: Item) {
    k < |toks| && toks[k] == x
  }

  lemma One(toks: seq<Item>, i: nat, x: Item)
    requires Embeds(toks, i, [x])
    ensures At(toks, i, x)
  {
  }

  // ----- the bracketed token form of a tree -----

  predicate WellFormedPath(p: Path) {
    p.tail.Some? ==> forall k | 0 <= k < |p.tail.value| :: p.tail.value[k].ty == Identifier
  }

  /**
   * The trees the parser can build from `+ - * /`, prefix `+ - ++ --`,
   * postfix `!`, indexing, literals, names, paths and calls with at least
   * one argument.
   */
  predicate WellFormed(e: Expr)
    decreases e, 1
  {
    match e
    case Lit(_) => true
    case Name(p) => WellFormedPath(p)
    case Call(p, args) => WellFormedPath(p) && |args| >= 1 && WellFormedArgs(args)
    case Prefix(op, x) => PrefixBindingPower(op).Some? && WellFormed(x)
    case Infix(l, op, r) => IsArithmetic(op) && WellFormed(l) && WellFormed(r)
    case Postfix(x, op) => op == Bang && WellFormed(x)
    case Index(x, w) => WellFormed(x) && WellFormed(w)
  }

  predicate WellFormedArgs(args: seq<Expr>)
    decreases args, 0
  {
    forall k | 0 <= k < |args| :: WellFormed(args[k])
  }

  /** The segments of a path tail, separated by `::`. */
  function TailTokens(ts: seq<Token>): seq<Item>
    decreases |ts|
  {
    if ts == [] then []
    else if |ts| == 1 then [Ok(ts[0])]
    else [Ok(ts[0]), Tok(Punctuation(DoubleColon))] + TailTokens(ts[1..])
  }

  function PathTokens(p: Path): seq<Item> {
    match p.tail
    case None => [Ident(p.head)]
    case Some(ts) => [Ident(p.head), Tok(Punctuation(DoubleColon))] + TailTokens(ts)
  }

  /** Every compound node in parentheses, except a call, which brings its own. */
  function Emit(e: Expr): seq<Item>
    decreases e, 1
  {
    match e
    case Lit(v) => [Lit1(v)]
    case Name(p) => PathTokens(p)
    case Call(p, args) => PathTokens(p) + ([Tok(LeftParen)] + (EmitArgs(args) + [Tok(RightParen)]))
    case Prefix(op, x) => [Tok(LeftParen), Op(op)] + (Emit(x) + [Tok(RightParen)])
    case Infix(l, op, r) => [Tok(LeftParen)] + (Emit(l) + ([Op(op)] + (Emit(r) + [Tok(RightParen)])))
    case Postfix(x, op) => [Tok(LeftParen)] + (Emit(x) + [Op(op), Tok(RightParen)])
    case Index(x, w) => [Tok(LeftParen)] + (Emit(x) + ([Tok(LeftSquare)] + (Emit(w) + [Tok(RightSquare), Tok(RightParen)])))
  }

  function EmitArgs(args: seq<Expr>): seq<Item>
    decreases args, 0
  {
    if args == [] then []
    else if |args| == 1 then Emit(args[0])
    else Emit(args[0]) + ([Tok(Punctuation(Comma))] + EmitArgs(args[1..]))
  }

  // ----- what may follow -----

  /** The item at `j` is a token of kind `ty`. */
  predicate Kind(toks: seq<Item>, j: nat, ty: TokenType) {
    j < |toks| && toks[j].Ok? && toks[j].value.ty == ty
  }

  /** After a path's last segment: the end, or a token that neither extends the path nor fails. */
  predicate TailSafe(toks: seq<Item>, j: nat) {
    j >= |toks| || (toks[j].Ok? && toks[j].value.ty != Identifier && toks[j].value.ty != Punctuation(DoubleColon))
  }

  /** After a primary expression: in addition, not a `(` that would make a name a call. */
  predicate NameSafe(toks: seq<Item>, j: nat) {
    TailSafe(toks, j) && (j < |toks| ==> toks[j].value.ty != LeftParen)
  }

  /** After a whole expression: in addition, a token that stops the climbing loop at any power. */
  predicate Closes(toks: seq<Item>, j: nat) {
    NameSafe(toks, j) && (j < |toks| ==> Halts(toks[j].value.ty, 0))
  }

  /** The left binding power of an arithmetic operator; its right one is one more. */
  function LeftPower(op: Operator): nat
    requires IsArithmetic(op)
  {
    if op == Plus || op == Minus then 1 else 3
  }

  /** `LeftPower` is what `infix_binding_power` gives, and `* /` bind tighter than `+ -`. */
  lemma InfixPowers(op: Operator)
    requires IsArithmetic(op)
    ensures InfixBindingPower(Operator(op)) == Parsed(Some((LeftPower(op), LeftPower(op) + 1)))
    ensures LeftPower(op) < PrefixBindingPower(Plus).value
    ensures (LeftPower(op) == 3) == (op == Star || op == Slash)
  {
  }

  /** What may follow a whole expression in a bracketed token form. */
  predicate Follows(toks: seq<Item>, j: nat) {
    j == |toks| || Kind(toks, j, RightParen) || Kind(toks, j, RightSquare) || Kind(toks, j, Punctuation(Comma))
  }

  lemma FollowsCloses(toks: seq<Item>, j: nat)
    requires j <= |toks| && Follows(toks, j)
    ensures Closes(toks, j)
  {
  }

  // ----- where an expression ends -----

  /** The climbing loop returns only at the end of the input or in front of a token that does not bind at `m`. */
  lemma {:induction false} LoopStopped(toks: seq<Item>, lhs: Expr, j: nat, m: nat)
    requires j <= |toks| && ParseLoop(toks, lhs, j, m).Parsed?
    ensures Stopped(toks, ParseLoop(toks, lhs, j, m).value.1, m)
    decreases |toks| - j
  {
    var next := TypeAt(toks, j).value;
    if next.Some? && IsLoopToken(next.value) {
      var op := next.value;
      match PostfixBindingPower(op)
      case Some(lbp) =>
        if lbp >= m && op == LeftSquare {
          var with := ParseEnclosed(toks, j + 1, RightSquare, ExpectedRightSquare).value;
          LoopStopped(toks, Index(lhs, with.0), with.1, m);
        } else if lbp >= m {
          LoopStopped(toks, Postfix(lhs, op.operator), j + 1, m);
        }
      case None =>
        var infix := InfixBindingPower(op).value;
        if infix.Some? && infix.value.0 >= m {
          var right := ParseBp(toks, j + 1, infix.value.1).value;
          LoopStopped(toks, Infix(lhs, op.operator, right.0), right.1, m);
        }
    }
  }

  /** `expr_bp` leaves the stream at its end or in front of a token that does not bind at `m`. */
  lemma BpStopped(toks: seq<Item>, i: nat, m: nat)
    requires i <= |toks| && ParseBp(toks, i, m).Parsed?
    ensures Stopped(toks, ParseBp(toks, i, m).value.1, m)
  {
    var lhs := ParsePrimary(toks, i).value;
    LoopStopped(toks, lhs.0, lhs.1, m);
  }

  // ----- one parse, as one fact -----

  // Each predicate says what one parsing function returns. The steps and
  // proofs below are stated through them, so that each proof unfolds a
  // parsing function only where it takes a step of the parse.

  /** `expr_primary` from `i` returns `e` and leaves the stream at `j`. */
  predicate PrimaryIs(toks: seq<Item>, i: nat, e: Expr, j: nat) {
    i <= |toks| && ParsePrimary(toks, i) == Parsed((e, j))
  }

  /** `expr_bp` at power `m` from `i` returns `e` and leaves the stream at `j`. */
  predicate BpIs(toks: seq<Item>, i: nat, m: nat, e: Expr, j: nat) {
    i <= |toks| && ParseBp(toks, i, m) == Parsed((e, j))
  }

  /** The climbing loop at power `m`, from `lhs` with `j` next, returns `e` and leaves the stream at `k`. */
  predicate LoopIs(toks: seq<Item>, lhs: Expr, j: nat, m: nat, e: Expr, k: nat) {
    j <= |toks| && ParseLoop(toks, lhs, j, m) == Parsed((e, k))
  }

  /** After an opening bracket at `i - 1`: the expression `e`, closed by `closer` just before `j`. */
  predicate EnclosedIs(toks: seq<Item>, i: nat, closer: TokenType, expected: string, e: Expr, j: nat) {
    i <= |toks| && ParseEnclosed(toks, i, closer, expected) == Parsed((e, j))
  }

  /** After the identifier `head`: the name, path or call `e`, ending at `j`. */
  predicate NamedIs(toks: seq<Item>, i: nat, head: seq<Byte>, e: Expr, j: nat) {
    i <= |toks| && ParseNamed(toks, i, head) == Parsed((e, j))
  }

  /** The arguments from `i` on, after those in `acc`, make the call `e`, whose `)` ends before `j`. */
  predicate ArgsIs(toks: seq<Item>, i: nat, callee: Path, acc: seq<Expr>, e: Expr, j: nat) {
    i <= |toks| && ParseArgs(toks, i, callee, acc) == Parsed((e, j))
  }

  /** The path segments from `i` on, after those in `acc`, are `ts`, ending at `j`. */
  predicate TailIs(toks: seq<Item>, i: nat, acc: seq<Token>, ts: seq<Token>, j: nat) {
    i <= |toks| && ParseTail(toks, i, acc) == Parsed((ts, j))
  }

  // ----- one step of the parse each -----

  lemma LitStep(toks: seq<Item>, i: nat, v: Literal)
    requires Kind(toks, i, Literal(v))
    ensures PrimaryIs(toks, i, Lit(v), i + 1)
  {
  }

  lemma ParenStep(toks: seq<Item>, i: nat, e: Expr, j: nat)
    requires Kind(toks, i, LeftParen) && EnclosedIs(toks, i + 1, RightParen, ExpectedRightParen, e, j)
    ensures PrimaryIs(toks, i, e, j)
  {
  }

  lemma PrefixStep(toks: seq<Item>, i: nat, op: Operator, x: Expr, j: nat)
    requires Kind(toks, i, Operator(op)) && PrefixBindingPower(op).Some?
    requires BpIs(toks, i + 1, PrefixBindingPower(op).value, x, j)
    ensures PrimaryIs(toks, i, Prefix(op, x), j)
  {
  }

  lemma IdentStep(toks: seq<Item>, i: nat, head: seq<Byte>, e: Expr, j: nat)
    requires i < |toks| && toks[i] == Ident(head) && NamedIs(toks, i + 1, head, e, j)
    ensures PrimaryIs(toks, i, e, j)
  {
  }

  lemma BareNameStep(toks: seq<Item>, i: nat, head: seq<Byte>)
    requires i <= |toks| && NameSafe(toks, i)
    ensures NamedIs(toks, i, head, Name(Path(head, None)), i)
  {
  }

  lemma CallStep(toks: seq<Item>, i: nat, head: seq<Byte>, e: Expr, j: nat)
    requires Kind(toks, i, LeftParen) && ArgsIs(toks, i + 1, Path(head, None), [], e, j)
    ensures NamedIs(toks, i, head, e, j)
  {
  }

  lemma PathNameStep(toks: seq<Item>, i: nat, head: seq<Byte>, ts: seq<Token>, j: nat)
    requires Kind(toks, i, Punctuation(DoubleColon)) && TailIs(toks, i + 1, [], ts, j) && NameSafe(toks, j)
    ensures NamedIs(toks, i, head, Name(Path(head, Some(ts))), j)
  {
  }

  lemma PathCallStep(toks: seq<Item>, i: nat, head: seq<Byte>, ts: seq<Token>, j: nat, e: Expr, k: nat)
    requires Kind(toks, i, Punctuation(DoubleColon)) && TailIs(toks, i + 1, [], ts, j)
    requires Kind(toks, j, LeftParen) && ArgsIs(toks, j + 1, Path(head, Some(ts)), [], e, k)
    ensures NamedIs(toks, i, head, e, k)
  {
  }

  lemma EnclosedStep(toks: seq<Item>, i: nat, closer: TokenType, expected: string, e: Expr, j: nat)
    requires BpIs(toks, i, 0, e, j) && Kind(toks, j, closer)
    ensures EnclosedIs(toks, i, closer, expected, e, j + 1)
  {
  }

  lemma BpStep(toks: seq<Item>, i: nat, m: nat, e: Expr, j: nat, v: Expr, k: nat)
    requires PrimaryIs(toks, i, e, j) && LoopIs(toks, e, j, m, v, k)
    ensures BpIs(toks, i, m, v, k)
  {
  }

  lemma LastArgStep(toks: seq<Item>, i: nat, callee: Path, acc: seq<Expr>, a: Expr, j: nat)
    requires BpIs(toks, i, 0, a, j) && Kind(toks, j, RightParen)
    ensures ArgsIs(toks, i, callee, acc, Call(callee, acc + [a]), j + 1)
  {
  }

  lemma NextArgStep(toks: seq<Item>, i: nat, callee: Path, acc: seq<Expr>, a: Expr, j: nat, e: Expr, k: nat)
    requires BpIs(toks, i, 0, a, j) && Kind(toks, j, Punctuation(Comma))
    requires ArgsIs(toks, j + 1, callee, acc + [a], e, k)
    ensures ArgsIs(toks, i, callee, acc, e, k)
  {
  }

  /** The climbing loop returns its left operand in front of a closing token. */
  lemma LoopStops(toks: seq<Item>, lhs: Expr, j: nat, m: nat)
    requires j <= |toks| && Closes(toks, j)
    ensures LoopIs(toks, lhs, j, m, lhs, j)
  {
  }

  lemma InfixStep(toks: seq<Item>, lhs: Expr, j: nat, m: nat, op: Operator, r: Expr, k: nat, v: Expr, n: nat)
    requires Kind(toks, j, Operator(op)) && IsArithmetic(op) && m <= LeftPower(op)
    requires BpIs(toks, j + 1, LeftPower(op) + 1, r, k) && LoopIs(toks, Infix(lhs, op, r), k, m, v, n)
    ensures LoopIs(toks, lhs, j, m, v, n)
  {
    InfixPowers(op);
  }

  lemma InfixStop(toks: seq<Item>, lhs: Expr, j: nat, m: nat, op: Operator)
    requires Kind(toks, j, Operator(op)) && IsArithmetic(op) && LeftPower(op) < m
    ensures LoopIs(toks, lhs, j, m, lhs, j)
  {
    InfixPowers(op);
  }

  lemma PostfixStep(toks: seq<Item>, lhs: Expr, j: nat, m: nat, v: Expr, n: nat)
    requires Kind(toks, j, Operator(Bang)) && m <= 7 && LoopIs(toks, Postfix(lhs, Bang), j + 1, m, v, n)
    ensures LoopIs(toks, lhs, j, m, v, n)
  {
  }

  lemma IndexStep(toks: seq<Item>, lhs: Expr, j: nat, m: nat, w: Expr, k: nat, v: Expr, n: nat)
    requires Kind(toks, j, LeftSquare) && m <= 7
    requires EnclosedIs(toks, j + 1, RightSquare, ExpectedRightSquare, w, k) && LoopIs(toks, Index(lhs, w), k, m, v, n)
    ensures LoopIs(toks, lhs, j, m, v, n)
  {
  }

  // ----- bracketed expressions -----

  /** A primary expression in front of a closing token is a whole expression at any power. */
  lemma ClosedStep(toks: seq<Item>, i: nat, m: nat, e: Expr, j: nat)
    requires PrimaryIs(toks, i, e, j) && Follows(toks, j)
    ensures BpIs(toks, i, m, e, j)
  {
    FollowsCloses(toks, j);
    LoopStops(toks, e, j, m);
    BpStep(toks, i, m, e, j, e, j);
  }

  /** A parenthesised expression at power 0 is a primary expression. */
  lemma ParenCase(toks: seq<Item>, i: nat, e: Expr, j: nat)
    requires Kind(toks, i, LeftParen) && BpIs(toks, i + 1, 0, e, j) && Kind(toks, j, RightParen)
    ensures PrimaryIs(toks, i, e, j + 1)
  {
    EnclosedStep(toks, i + 1, RightParen, ExpectedRightParen, e, j);
    ParenStep(toks, i, e, j + 1);
  }

  /** `( op x )` is a primary expression once `x` is known to parse at the prefix power. */
  lemma PrefixCase(toks: seq<Item>, i: nat, op: Operator, x: Expr, j: nat)
    requires Kind(toks, i, LeftParen) && Kind(toks, i + 1, Operator(op)) && PrefixBindingPower(op).Some?
    requires BpIs(toks, i + 2, PrefixBindingPower(op).value, x, j) && Kind(toks, j, RightParen)
    ensures PrimaryIs(toks, i, Prefix(op, x), j + 1)
  {
    PrefixStep(toks, i + 1, op, x, j);
    ClosedStep(toks, i + 1, 0, Prefix(op, x), j);
    ParenCase(toks, i, Prefix(op, x), j);
  }

  lemma InfixLoop(toks: seq<Item>, l: Expr, jl: nat, op: Operator, r: Expr, jr: nat)
    requires Kind(toks, jl, Operator(op)) && IsArithmetic(op)
    requires BpIs(toks, jl + 1, LeftPower(op) + 1, r, jr) && Kind(toks, jr, RightParen)
    ensures LoopIs(toks, l, jl, 0, Infix(l, op, r), jr)
  {
    FollowsCloses(toks, jr);
    LoopStops(toks, Infix(l, op, r), jr, 0);
    InfixStep(toks, l, jl, 0, op, r, jr, Infix(l, op, r), jr);
  }

  /** `( l op r )` is a primary expression once `l` and `r` are known to parse. */
  lemma InfixCase(toks: seq<Item>, i: nat, l: Expr, op: Operator, r: Expr, jl: nat, jr: nat)
    requires IsArithmetic(op) && Kind(toks, i, LeftParen) && PrimaryIs(toks, i + 1, l, jl)
    requires Kind(toks, jl, Operator(op)) && BpIs(toks, jl + 1, LeftPower(op) + 1, r, jr)
    requires Kind(toks, jr, RightParen)
    ensures PrimaryIs(toks, i, Infix(l, op, r), jr + 1)
  {
    InfixLoop(toks, l, jl, op, r, jr);
    BpStep(toks, i + 1, 0, l, jl, Infix(l, op, r), jr);
    ParenCase(toks, i, Infix(l, op, r), jr);
  }

  lemma PostfixLoop(toks: seq<Item>, x: Expr, j: nat)
    requires Kind(toks, j, Operator(Bang)) && Kind(toks, j + 1, RightParen)
    ensures LoopIs(toks, x, j, 0, Postfix(x, Bang), j + 1)
  {
    FollowsCloses(toks, j + 1);
    LoopStops(toks, Postfix(x, Bang), j + 1, 0);
    PostfixStep(toks, x, j, 0, Postfix(x, Bang), j + 1);
  }

  /** `( x ! )` is a primary expression once `x` is known to be one. */
  lemma PostfixCase(toks: seq<Item>, i: nat, x: Expr, j: nat)
    requires Kind(toks, i, LeftParen) && PrimaryIs(toks, i + 1, x, j)
    requires Kind(toks, j, Operator(Bang)) && Kind(toks, j + 1, RightParen)
    ensures PrimaryIs(toks, i, Postfix(x, Bang), j + 2)
  {
    PostfixLoop(toks, x, j);
    BpStep(toks, i + 1, 0, x, j, Postfix(x, Bang), j + 1);
    ParenCase(toks, i, Postfix(x, Bang), j + 1);
  }

  lemma IndexLoop(toks: seq<Item>, x: Expr, jx: nat, w: Expr, jw: nat)
    requires Kind(toks, jx, LeftSquare) && BpIs(toks, jx + 1, 0, w, jw)
    requires Kind(toks, jw, RightSquare) && Kind(toks, jw + 1, RightParen)
    ensures LoopIs(toks, x, jx, 0, Index(x, w), jw + 1)
  {
    EnclosedStep(toks, jx + 1, RightSquare, ExpectedRightSquare, w, jw);
    FollowsCloses(toks, jw + 1);
    LoopStops(toks, Index(x, w), jw + 1, 0);
    IndexStep(toks, x, jx, 0, w, jw + 1, Index(x, w), jw + 1);
  }

  /** `( x [ w ] )` is a primary expression once `x` and `w` are known to parse. */
  lemma IndexCase(toks: seq<Item>, i: nat, x: Expr, w: Expr, jx: nat, jw: nat)
    requires Kind(toks, i, LeftParen) && PrimaryIs(toks, i + 1, x, jx)
    requires Kind(toks, jx, LeftSquare) && BpIs(toks, jx + 1, 0, w, jw)
    requires Kind(toks, jw, RightSquare) && Kind(toks, jw + 1, RightParen)
    ensures PrimaryIs(toks, i, Index(x, w), jw + 2)
  {
    IndexLoop(toks, x, jx, w, jw);
    BpStep(toks, i + 1, 0, x, jx, Index(x, w), jw + 1);
    ParenCase(toks, i, Index(x, w), jw + 1);
  }

  // ----- round trip -----

  /** The two tokens `[x, y]` at `i`. */
  lemma Two(toks: seq<Item>, i: nat, x: Item, y: Item)
    requires Embeds(toks, i, [x, y])
    ensures At(toks, i, x) && At(toks, i + 1, y)
  {
    assert [x, y] == [x] + [y];
    Split(toks, i, [x], [y]);
    One(toks, i, x);
    One(toks, i + 1, y);
  }

  /** Where the parts of `s == [a] + x + [b] + y + [c]` lie. */
  lemma Five(toks: seq<Item>, i: nat, s: seq<Item>, a: Item, x: seq<Item>, b: Item, y: seq<Item>, c: Item)
    requires Embeds(toks, i, s) && s == [a] + (x + ([b] + (y + [c])))
    ensures At(toks, i, a) && Embeds(toks, i + 1, x)
    ensures At(toks, i + 1 + |x|, b) && Embeds(toks, i + 2 + |x|, y)
    ensures At(toks, i + 2 + |x| + |y|, c)
  {
    Split(toks, i, [a], x + ([b] + (y + [c])));
    One(toks, i, a);
    Split(toks, i + 1, x, [b] + (y + [c]));
    Split(toks, i + 1 + |x|, [b], y + [c]);
    One(toks, i + 1 + |x|, b);
    Split(toks, i + 2 + |x|, y, [c]);
    One(toks, i + 2 + |x| + |y|, c);
  }

  /** Where the parts of `s == [a, b] + x + [c]` lie. */
  lemma PairFirst(toks: seq<Item>, i: nat, s: seq<Item>, a: Item, b: Item, x: seq<Item>, c: Item)
    requires Embeds(toks, i, s) && s == [a, b] + (x + [c])
    ensures At(toks, i, a) && At(toks, i + 1, b) && Embeds(toks, i + 2, x) && At(toks, i + 2 + |x|, c)
  {
    Split(toks, i, [a, b], x + [c]);
    Two(toks, i, a, b);
    Split(toks, i + 2, x, [c]);
    One(toks, i + 2 + |x|, c);
  }

  /** Where the parts of `s == [a] + x + [b, c]` lie. */
  lemma PairLast(toks: seq<Item>, i: nat, s: seq<Item>, a: Item, x: seq<Item>, b: Item, c: Item)
    requires Embeds(toks, i, s) && s == [a] + (x + [b, c])
    ensures At(toks, i, a) && Embeds(toks, i + 1, x) && At(toks, i + 1 + |x|, b) && At(toks, i + 2 + |x|, c)
  {
    Split(toks, i, [a], x + [b, c]);
    One(toks, i, a);
    Split(toks, i + 1, x, [b, c]);
    Two(toks, i + 1 + |x|, b, c);
  }

  /** Where the parts of `s == [a] + x + [b] + y + [c, d]` lie. */
  lemma Six(toks: seq<Item>, i: nat, s: seq<Item>, a: Item, x: seq<Item>, b: Item, y: seq<Item>, c: Item, d: Item)
    requires Embeds(toks, i, s) && s == [a] + (x + ([b] + (y + [c, d])))
    ensures At(toks, i, a) && Embeds(toks, i + 1, x)
    ensures At(toks, i + 1 + |x|, b) && Embeds(toks, i + 2 + |x|, y)
    ensures At(toks, i + 2 + |x| + |y|, c) && At(toks, i + 3 + |x| + |y|, d)
  {
    Split(toks, i, [a], x + ([b] + (y + [c, d])));
    One(toks, i, a);
    Split(toks, i + 1, x, [b] + (y + [c, d]));
    Split(toks, i + 1 + |x|, [b], y + [c, d]);
    One(toks, i + 1 + |x|, b);
    Split(toks, i + 2 + |x|, y, [c, d]);
    Two(toks, i + 2 + |x| + |y|, c, d);
  }

  /** Where the parts of `s == p + [a] + x + [b]` lie. */
  lemma Around(toks: seq<Item>, i: nat, s: seq<Item>, p: seq<Item>, a: Item, x: seq<Item>, b: Item)
    requires Embeds(toks, i, s) && s == p + ([a] + (x + [b]))
    ensures Embeds(toks, i, p) && At(toks, i + |p|, a) && Embeds(toks, i + |p| + 1, x) && At(toks, i + |p| + 1 + |x|, b)
  {
    Split(toks, i, p, [a] + (x + [b]));
    Split(toks, i + |p|, [a], x + [b]);
    One(toks, i + |p|, a);
    Split(toks, i + |p| + 1, x, [b]);
    One(toks, i + |p| + 1 + |x|, b);
  }

  /** Where the parts of `s == x + [a] + y` lie. */
  lemma Three(toks: seq<Item>, i: nat, s: seq<Item>, x: seq<Item>, a: Item, y: seq<Item>)
    requires Embeds(toks, i, s) && s == x + ([a] + y)
    ensures Embeds(toks, i, x) && At(toks, i + |x|, a) && Embeds(toks, i + |x| + 1, y)
  {
    Split(toks, i, x, [a] + y);
    Split(toks, i + |x|, [a], y);
    One(toks, i + |x|, a);
  }

  lemma {:induction false} TailScan(toks: seq<Item>, i: nat, ts: seq<Token>, acc: seq<Token>)
    requires forall k | 0 <= k < |ts| :: ts[k].ty == Identifier
    requires Embeds(toks, i, TailTokens(ts)) && TailSafe(toks, i + |TailTokens(ts)|)
    ensures TailIs(toks, i, acc, acc + ts, i + |TailTokens(ts)|)
    decreases |ts|
  {
    if ts == [] {
      assert acc + ts == acc;
    } else if |ts| == 1 {
      One(toks, i, Ok(ts[0]));
      assert acc + ts == acc + [ts[0]];
    } else {
      var rest := ts[1..];
      Split(toks, i, [Ok(ts[0]), Tok(Punctuation(DoubleColon))], TailTokens(rest));
      Two(toks, i, Ok(ts[0]), Tok(Punctuation(DoubleColon)));
      assert forall k | 0 <= k < |rest| :: rest[k] == ts[k + 1];
      TailScan(toks, i + 2, rest, acc + [ts[0]]);
      assert acc + [ts[0]] + rest == acc + ts;
    }
  }

  /** The path tokens of `p`: its head, and after a `::` its segments, which read back as its tail. */
  lemma PathScan(toks: seq<Item>, i: nat, p: Path)
    requires WellFormedPath(p) && Embeds(toks, i, PathTokens(p))
    requires TailSafe(toks, i + |PathTokens(p)|)
    ensures toks[i] == Ident(p.head)
    ensures p.tail.None? ==> |PathTokens(p)| == 1
    ensures p.tail.Some? ==> Kind(toks, i + 1, Punctuation(DoubleColon))
    ensures p.tail.Some? ==> TailIs(toks, i + 2, [], p.tail.value, i + |PathTokens(p)|)
  {
    if p.tail.None? {
      One(toks, i, Ident(p.head));
    } else {
      Split(toks, i, [Ident(p.head), Tok(Punctuation(DoubleColon))], TailTokens(p.tail.value));
      Two(toks, i, Ident(p.head), Tok(Punctuation(DoubleColon)));
      TailScan(toks, i + 2, p.tail.value, []);
      assert [] + p.tail.value == p.tail.value;
    }
  }

  // ----- the token form, part by part -----

  /**
   * Where the bracketed token form of `e` ends if `toks` holds it from `i`
   * on, told part by part: the kind of each bracket and operator token and
   * where each operand ends; -1 if `toks` does not hold it.
   */
  function FormEnd(toks: seq<Item>, i: nat, e: Expr): int
    decreases e, 1
  {
    match e
    case Lit(v) => if Kind(toks, i, Literal(v)) then i + 1 else -1
    case Name(p) => if WellFormedPath(p) && Embeds(toks, i, PathTokens(p)) then i + |PathTokens(p)| else -1
    case Call(p, args) =>
      var j := i + |PathTokens(p)|;
      if WellFormedPath(p) && |args| >= 1 && Embeds(toks, i, PathTokens(p)) && Kind(toks, j, LeftParen) then
        var k := ArgsFormEnd(toks, j + 1, args);
        if k >= 0 && Kind(toks, k, RightParen) then k + 1 else -1
      else -1
    case Prefix(op, x) =>
      if PrefixBindingPower(op).Some? && Kind(toks, i, LeftParen) && Kind(toks, i + 1, Operator(op)) then
        var j := FormEnd(toks, i + 2, x);
        if j >= 0 && Kind(toks, j, RightParen) then j + 1 else -1
      else -1
    case Infix(l, op, r) =>
      if IsArithmetic(op) && Kind(toks, i, LeftParen) then
        var jl := FormEnd(toks, i + 1, l);
        if jl >= 0 && Kind(toks, jl, Operator(op)) then
          var jr := FormEnd(toks, jl + 1, r);
          if jr >= 0 && Kind(toks, jr, RightParen) then jr + 1 else -1
        else -1
      else -1
    case Postfix(x, op) =>
      if op == Bang && Kind(toks, i, LeftParen) then
        var j := FormEnd(toks, i + 1, x);
        if j >= 0 && Kind(toks, j, Operator(Bang)) && Kind(toks, j + 1, RightParen) then j + 2 else -1
      else -1
    case Index(x, w) =>
      if Kind(toks, i, LeftParen) then
        var jx := FormEnd(toks, i + 1, x);
        if jx >= 0 && Kind(toks, jx, LeftSquare) then
          var jw := FormEnd(toks, jx + 1, w);
          if jw >= 0 && Kind(toks, jw, RightSquare) && Kind(toks, jw + 1, RightParen) then jw + 2 else -1
        else -1
      else -1
  }

  /** Where the arguments of a call, separated by commas, end; -1 if `toks` does not hold them from `i` on. */
  function ArgsFormEnd(toks: seq<Item>, i: nat, args: seq<Expr>): int
    decreases args, 0
  {
    if args == [] then i
    else
      var j := FormEnd(toks, i, args[0]);
      if |args| == 1 then j
      else if j >= 0 && Kind(toks, j, Punctuation(Comma)) then ArgsFormEnd(toks, j + 1, args[1..])
      else -1
  }

  // The proofs below state facts about the recursive definitions only
  // through the predicates and functions that follow, so that each proof
  // unfolds each definition once.

  /** The bracketed token form of `e` lies in `toks` from `i` up to `j`. */
  predicate Ends(toks: seq<Item>, i: nat, e: Expr, j: nat) {
    FormEnd(toks, i, e) == j
  }

  predicate ArgsEnd(toks: seq<Item>, i: nat, args: seq<Expr>, j: nat) {
    ArgsFormEnd(toks, i, args) == j
  }

  /** The length of the token form of `e`. */
  function Len(e: Expr): nat {
    |Emit(e)|
  }

  function ArgsLen(args: seq<Expr>): nat {
    |EmitArgs(args)|
  }

  /** `toks` holds the token form of the well-formed tree `e` from `i` on. */
  predicate Spells(toks: seq<Item>, i: nat, e: Expr) {
    WellFormed(e) && Embeds(toks, i, Emit(e))
  }

  predicate SpellsArgs(toks: seq<Item>, i: nat, args: seq<Expr>) {
    WellFormedArgs(args) && Embeds(toks, i, EmitArgs(args))
  }

  /** The token form of `e`, read part by part from `i`, ends where it is `Len(e)` long. */
  predicate Reads(toks: seq<Item>, i: nat, e: Expr) {
    FormEnd(toks, i, e) == i + |Emit(e)|
  }

  predicate ReadsArgs(toks: seq<Item>, i: nat, args: seq<Expr>) {
    ArgsFormEnd(toks, i, args) == i + |EmitArgs(args)|
  }

  // ----- from the token form to its parts and back -----

  // Each `Spells` lemma finds where the parts of one kind of node lie in
  // its token form, and each `Fold` lemma puts their ends back together;
  // the lengths of the parts are passed in.

  lemma SpellsCall(toks: seq<Item>, i: nat, p: Path, args: seq<Expr>, wp: nat, wa: nat)
    requires Spells(toks, i, Call(p, args)) && wp == |PathTokens(p)| && wa == ArgsLen(args)
    ensures WellFormedPath(p) && |args| >= 1 && Embeds(toks, i, PathTokens(p)) && Kind(toks, i + wp, LeftParen)
    ensures SpellsArgs(toks, i + wp + 1, args) && Kind(toks, i + wp + 1 + wa, RightParen)
    ensures Len(Call(p, args)) == wp + wa + 2
  {
    Around(toks, i, Emit(Call(p, args)), PathTokens(p), Tok(LeftParen), EmitArgs(args), Tok(RightParen));
  }

  lemma FoldCall(toks: seq<Item>, i: nat, p: Path, args: seq<Expr>, wp: nat, wa: nat)
    requires wp == |PathTokens(p)| && wa == ArgsLen(args) && Len(Call(p, args)) == wp + wa + 2
    requires WellFormedPath(p) && |args| >= 1 && Embeds(toks, i, PathTokens(p)) && Kind(toks, i + wp, LeftParen)
    requires ReadsArgs(toks, i + wp + 1, args) && Kind(toks, i + wp + 1 + wa, RightParen)
    ensures Reads(toks, i, Call(p, args))
  {
  }

  lemma SpellsPrefix(toks: seq<Item>, i: nat, op: Operator, x: Expr, wx: nat)
    requires Spells(toks, i, Prefix(op, x)) && wx == Len(x)
    ensures PrefixBindingPower(op).Some? && Kind(toks, i, LeftParen) && Kind(toks, i + 1, Operator(op))
    ensures Spells(toks, i + 2, x) && Kind(toks, i + 2 + wx, RightParen)
    ensures Len(Prefix(op, x)) == wx + 3
  {
    PairFirst(toks, i, Emit(Prefix(op, x)), Tok(LeftParen), Op(op), Emit(x), Tok(RightParen));
  }

  lemma FoldPrefix(toks: seq<Item>, i: nat, op: Operator, x: Expr, wx: nat)
    requires wx == Len(x) && Len(Prefix(op, x)) == wx + 3
    requires PrefixBindingPower(op).Some? && Kind(toks, i, LeftParen) && Kind(toks, i + 1, Operator(op))
    requires Reads(toks, i + 2, x) && Kind(toks, i + 2 + wx, RightParen)
    ensures Reads(toks, i, Prefix(op, x))
  {
  }

  lemma SpellsInfix(toks: seq<Item>, i: nat, l: Expr, op: Operator, r: Expr, wl: nat, wr: nat)
    requires Spells(toks, i, Infix(l, op, r)) && wl == Len(l) && wr == Len(r)
    ensures IsArithmetic(op) && Kind(toks, i, LeftParen) && Spells(toks, i + 1, l)
    ensures Kind(toks, i + 1 + wl, Operator(op)) && Spells(toks, i + 2 + wl, r)
    ensures Kind(toks, i + 2 + wl + wr, RightParen)
    ensures Len(Infix(l, op, r)) == wl + wr + 3
  {
    Five(toks, i, Emit(Infix(l, op, r)), Tok(LeftParen), Emit(l), Op(op), Emit(r), Tok(RightParen));
  }

  lemma FoldInfix(toks: seq<Item>, i: nat, l: Expr, op: Operator, r: Expr, wl: nat, wr: nat)
    requires wl == Len(l) && wr == Len(r) && Len(Infix(l, op, r)) == wl + wr + 3
    requires IsArithmetic(op) && Kind(toks, i, LeftParen) && Reads(toks, i + 1, l)
    requires Kind(toks, i + 1 + wl, Operator(op)) && Reads(toks, i + 2 + wl, r)
    requires Kind(toks, i + 2 + wl + wr, RightParen)
    ensures Reads(toks, i, Infix(l, op, r))
  {
  }

  lemma SpellsPostfix(toks: seq<Item>, i: nat, x: Expr, op: Operator, wx: nat)
    requires Spells(toks, i, Postfix(x, op)) && wx == Len(x)
    ensures op == Bang && Kind(toks, i, LeftParen) && Spells(toks, i + 1, x)
    ensures Kind(toks, i + 1 + wx, Operator(Bang)) && Kind(toks, i + 2 + wx, RightParen)
    ensures Len(Postfix(x, op)) == wx + 3
  {
    PairLast(toks, i, Emit(Postfix(x, op)), Tok(LeftParen), Emit(x), Op(op), Tok(RightParen));
  }

  lemma FoldPostfix(toks: seq<Item>, i: nat, x: Expr, wx: nat)
    requires wx == Len(x) && Len(Postfix(x, Bang)) == wx + 3
    requires Kind(toks, i, LeftParen) && Reads(toks, i + 1, x)
    requires Kind(toks, i + 1 + wx, Operator(Bang)) && Kind(toks, i + 2 + wx, RightParen)
    ensures Reads(toks, i, Postfix(x, Bang))
  {
  }

  lemma SpellsIndex(toks: seq<Item>, i: nat, x: Expr, w: Expr, wx: nat, ww: nat)
    requires Spells(toks, i, Index(x, w)) && wx == Len(x) && ww == Len(w)
    ensures Kind(toks, i, LeftParen) && Spells(toks, i + 1, x) && Kind(toks, i + 1 + wx, LeftSquare)
    ensures Spells(toks, i + 2 + wx, w) && Kind(toks, i + 2 + wx + ww, RightSquare)
    ensures Kind(toks, i + 3 + wx + ww, RightParen)
    ensures Len(Index(x, w)) == wx + ww + 4
  {
    Six(toks, i, Emit(Index(x, w)), Tok(LeftParen), Emit(x), Tok(LeftSquare), Emit(w), Tok(RightSquare), Tok(RightParen));
  }

  lemma FoldIndex(toks: seq<Item>, i: nat, x: Expr, w: Expr, wx: nat, ww: nat)
    requires wx == Len(x) && ww == Len(w) && Len(Index(x, w)) == wx + ww + 4
    requires Kind(toks, i, LeftParen) && Reads(toks, i + 1, x) && Kind(toks, i + 1 + wx, LeftSquare)
    requires Reads(toks, i + 2 + wx, w) && Kind(toks, i + 2 + wx + ww, RightSquare)
    requires Kind(toks, i + 3 + wx + ww, RightParen)
    ensures Reads(toks, i, Index(x, w))
  {
  }

  lemma SpellsMore(toks: seq<Item>, k: nat, args: seq<Expr>, wa: nat)
    requires |args| >= 2 && SpellsArgs(toks, k, args) && wa == Len(args[0])
    ensures Spells(toks, k, args[0]) && Kind(toks, k + wa, Punctuation(Comma))
    ensures SpellsArgs(toks, k + wa + 1, args[1..])
    ensures ArgsLen(args) == wa + 1 + ArgsLen(args[1..])
  {
    var rest := args[1..];
    assert forall n | 0 <= n < |rest| :: rest[n] == args[n + 1];
    Three(toks, k, EmitArgs(args), Emit(args[0]), Tok(Punctuation(Comma)), EmitArgs(rest));
  }

  lemma FoldMore(toks: seq<Item>, k: nat, args: seq<Expr>, wa: nat)
    requires |args| >= 2 && wa == Len(args[0]) && ArgsLen(args) == wa + 1 + ArgsLen(args[1..])
    requires Reads(toks, k, args[0]) && Kind(toks, k + wa, Punctuation(Comma))
    requires ReadsArgs(toks, k + wa + 1, args[1..])
    ensures ReadsArgs(toks, k, args)
  {
  }

  /** A well-formed tree's token form, found in `toks`, is read back part by part to its end. */
  lemma {:induction false} Shown(toks: seq<Item>, i: nat, e: Expr)
    requires Spells(toks, i, e)
    ensures Reads(toks, i, e)
    decreases e, 1
  {
    match e
    case Lit(v) =>
      One(toks, i, Lit1(v));
    case Name(p) =>
    case Call(p, args) =>
      ShownCall(toks, i, p, args);
    case Prefix(op, x) =>
      ShownPrefix(toks, i, op, x);
    case Infix(l, op, r) =>
      ShownInfix(toks, i, l, op, r);
    case Postfix(x, op) =>
      ShownPostfix(toks, i, x, op);
    case Index(x, w) =>
      ShownIndex(toks, i, x, w);
  }

  lemma {:induction false} ShownCall(toks: seq<Item>, i: nat, p: Path, args: seq<Expr>)
    requires Spells(toks, i, Call(p, args))
    ensures Reads(toks, i, Call(p, args))
    decreases Call(p, args), 0
  {
    var wp, wa := |PathTokens(p)|, ArgsLen(args);
    SpellsCall(toks, i, p, args, wp, wa);
    ShownArgs(toks, i + wp + 1, args);
    FoldCall(toks, i, p, args, wp, wa);
  }

  lemma {:induction false} ShownPrefix(toks: seq<Item>, i: nat, op: Operator, x: Expr)
    requires Spells(toks, i, Prefix(op, x))
    ensures Reads(toks, i, Prefix(op, x))
    decreases Prefix(op, x), 0
  {
    var wx := Len(x);
    SpellsPrefix(toks, i, op, x, wx);
    Shown(toks, i + 2, x);
    FoldPrefix(toks, i, op, x, wx);
  }

  lemma {:induction false} ShownInfix(toks: seq<Item>, i: nat, l: Expr, op: Operator, r: Expr)
    requires Spells(toks, i, Infix(l, op, r))
    ensures Reads(toks, i, Infix(l, op, r))
    decreases Infix(l, op, r), 0
  {
    var wl, wr := Len(l), Len(r);
    SpellsInfix(toks, i, l, op, r, wl, wr);
    Shown(toks, i + 1, l);
    Shown(toks, i + 2 + wl, r);
    FoldInfix(toks, i, l, op, r, wl, wr);
  }

  lemma {:induction false} ShownPostfix(toks: seq<Item>, i: nat, x: Expr, op: Operator)
    requires Spells(toks, i, Postfix(x, op))
    ensures Reads(toks, i, Postfix(x, op))
    decreases Postfix(x, op), 0
  {
    var wx := Len(x);
    SpellsPostfix(toks, i, x, op, wx);
    Shown(toks, i + 1, x);
    FoldPostfix(toks, i, x, wx);
  }

  lemma {:induction false} ShownIndex(toks: seq<Item>, i: nat, x: Expr, w: Expr)
    requires Spells(toks, i, Index(x, w))
    ensures Reads(toks, i, Index(x, w))
    decreases Index(x, w), 0
  {
    var wx, ww := Len(x), Len(w);
    SpellsIndex(toks, i, x, w, wx, ww);
    Shown(toks, i + 1, x);
    Shown(toks, i + 2 + wx, w);
    FoldIndex(toks, i, x, w, wx, ww);
  }

  lemma {:induction false} ShownArgs(toks: seq<Item>, k: nat, args: seq<Expr>)
    requires SpellsArgs(toks, k, args)
    ensures ReadsArgs(toks, k, args)
    decreases args, 1
  {
    if args == [] {
    } else if |args| == 1 {
      Shown(toks, k, args[0]);
    } else {
      ShownMore(toks, k, args);
    }
  }

  lemma {:induction false} ShownMore(toks: seq<Item>, k: nat, args: seq<Expr>)
    requires |args| >= 2 && SpellsArgs(toks, k, args)
    ensures ReadsArgs(toks, k, args)
    decreases args, 0
  {
    var wa := Len(args[0]);
    SpellsMore(toks, k, args, wa);
    Shown(toks, k, args[0]);
    ShownArgs(toks, k + wa + 1, args[1..]);
    FoldMore(toks, k, args, wa);
  }

  // ----- parsing a tree back from its token form -----

  /** A tree whose token form ends in front of a closing token parses back at any binding power. */
  lemma {:induction false} BpShows(toks: seq<Item>, i: nat, e: Expr, j: nat, m: nat)
    requires Ends(toks, i, e, j) && Follows(toks, j)
    ensures BpIs(toks, i, m, e, j)
    decreases e, 4
  {
    PrimaryShows(toks, i, e, j);
    ClosedStep(toks, i, m, e, j);
  }

  /** A tree's token form is one primary expression. */
  lemma {:induction false} PrimaryShows(toks: seq<Item>, i: nat, e: Expr, j: nat)
    requires Ends(toks, i, e, j) && NameSafe(toks, j)
    ensures PrimaryIs(toks, i, e, j)
    decreases e, 3
  {
    match e
    case Lit(v) =>
      LitStep(toks, i, v);
    case Name(p) =>
      NameScan(toks, i, p);
    case Call(p, args) =>
      CallShows(toks, i, p, args, j);
    case Prefix(op, x) =>
      PrefixShows(toks, i, op, x, j);
    case Infix(l, op, r) =>
      InfixShows(toks, i, l, op, r, j);
    case Postfix(x, op) =>
      PostfixShows(toks, i, x, j);
    case Index(x, w) =>
      IndexShows(toks, i, x, w, j);
  }

  lemma NameScan(toks: seq<Item>, i: nat, p: Path)
    requires WellFormedPath(p) && Embeds(toks, i, PathTokens(p)) && NameSafe(toks, i + |PathTokens(p)|)
    ensures PrimaryIs(toks, i, Name(p), i + |PathTokens(p)|)
  {
    var j := i + |PathTokens(p)|;
    PathScan(toks, i, p);
    if p.tail.None? {
      BareNameStep(toks, i + 1, p.head);
    } else {
      PathNameStep(toks, i + 1, p.head, p.tail.value, j);
    }
    IdentStep(toks, i, p.head, Name(p), j);
  }

  lemma CallParts(toks: seq<Item>, i: nat, p: Path, args: seq<Expr>, j: nat) returns (a: nat, k: nat)
    requires Ends(toks, i, Call(p, args), j)
    ensures WellFormedPath(p) && |args| >= 1 && Embeds(toks, i, PathTokens(p))
    ensures a == i + |PathTokens(p)| && Kind(toks, a, LeftParen)
    ensures ArgsEnd(toks, a + 1, args, k) && Kind(toks, k, RightParen) && j == k + 1
  {
    a := i + |PathTokens(p)|;
    k := ArgsFormEnd(toks, a + 1, args);
  }

  lemma {:induction false} CallShows(toks: seq<Item>, i: nat, p: Path, args: seq<Expr>, j: nat)
    requires Ends(toks, i, Call(p, args), j)
    ensures PrimaryIs(toks, i, Call(p, args), j)
    decreases Call(p, args), 2
  {
    var a, k := CallParts(toks, i, p, args, j);
    FirstArgsShows(toks, a + 1, p, args, k);
    CallHead(toks, i, p, a, Call(p, args), j);
  }

  lemma {:induction false} FirstArgsShows(toks: seq<Item>, k: nat, callee: Path, args: seq<Expr>, n: nat)
    requires |args| >= 1 && ArgsEnd(toks, k, args, n) && Kind(toks, n, RightParen)
    ensures ArgsIs(toks, k, callee, [], Call(callee, args), n + 1)
    decreases args, 3
  {
    ArgsShows(toks, k, callee, [], args, n);
    assert [] + args == args;
  }

  /** A call's path, then `(`, then its arguments up to `)`, is one primary expression. */
  lemma CallHead(toks: seq<Item>, i: nat, p: Path, a: nat, e: Expr, j: nat)
    requires WellFormedPath(p) && Embeds(toks, i, PathTokens(p)) && a == i + |PathTokens(p)|
    requires Kind(toks, a, LeftParen) && ArgsIs(toks, a + 1, p, [], e, j)
    ensures PrimaryIs(toks, i, e, j)
  {
    PathScan(toks, i, p);
    if p.tail.None? {
      CallStep(toks, i + 1, p.head, e, j);
    } else {
      PathCallStep(toks, i + 1, p.head, p.tail.value, a, e, j);
    }
    IdentStep(toks, i, p.head, e, j);
  }

  lemma ArgParts(toks: seq<Item>, k: nat, args: seq<Expr>, n: nat) returns (j: nat)
    requires |args| >= 1 && ArgsEnd(toks, k, args, n) && Kind(toks, n, RightParen)
    ensures Ends(toks, k, args[0], j)
    ensures |args| == 1 ==> j == n
    ensures |args| >= 2 ==> Kind(toks, j, Punctuation(Comma)) && ArgsEnd(toks, j + 1, args[1..], n)
  {
    j := FormEnd(toks, k, args[0]);
  }

  /** Arguments separated by commas up to a `)` parse back in order. */
  lemma {:induction false} ArgsShows(toks: seq<Item>, k: nat, callee: Path, acc: seq<Expr>, args: seq<Expr>, n: nat)
    requires |args| >= 1 && ArgsEnd(toks, k, args, n) && Kind(toks, n, RightParen)
    ensures ArgsIs(toks, k, callee, acc, Call(callee, acc + args), n + 1)
    decreases args, 2
  {
    var a := args[0];
    var j := ArgParts(toks, k, args, n);
    BpShows(toks, k, a, j, 0);
    if |args| == 1 {
      assert args == [a];
      LastArgStep(toks, k, callee, acc, a, j);
    } else {
      var rest := args[1..];
      ArgsShows(toks, j + 1, callee, acc + [a], rest, n);
      assert acc + [a] + rest == acc + args;
      NextArgStep(toks, k, callee, acc, a, j, Call(callee, acc + args), n + 1);
    }
  }

  lemma PrefixParts(toks: seq<Item>, i: nat, op: Operator, x: Expr, j: nat) returns (k: nat)
    requires Ends(toks, i, Prefix(op, x), j)
    ensures Kind(toks, i, LeftParen) && Kind(toks, i + 1, Operator(op)) && PrefixBindingPower(op).Some?
    ensures Ends(toks, i + 2, x, k) && Kind(toks, k, RightParen) && j == k + 1
  {
    k := FormEnd(toks, i + 2, x);
  }

  lemma {:induction false} PrefixShows(toks: seq<Item>, i: nat, op: Operator, x: Expr, j: nat)
    requires Ends(toks, i, Prefix(op, x), j)
    ensures PrimaryIs(toks, i, Prefix(op, x), j)
    decreases Prefix(op, x), 2
  {
    var k := PrefixParts(toks, i, op, x, j);
    BpShows(toks, i + 2, x, k, PrefixBindingPower(op).value);
    PrefixCase(toks, i, op, x, k);
  }

  lemma InfixParts(toks: seq<Item>, i: nat, l: Expr, op: Operator, r: Expr, j: nat) returns (jl: nat, jr: nat)
    requires Ends(toks, i, Infix(l, op, r), j)
    ensures IsArithmetic(op) && Kind(toks, i, LeftParen) && Ends(toks, i + 1, l, jl)
    ensures Kind(toks, jl, Operator(op)) && Ends(toks, jl + 1, r, jr)
    ensures Kind(toks, jr, RightParen) && j == jr + 1
  {
    jl := FormEnd(toks, i + 1, l);
    jr := FormEnd(toks, jl + 1, r);
  }

  lemma {:induction false} InfixShows(toks: seq<Item>, i: nat, l: Expr, op: Operator, r: Expr, j: nat)
    requires Ends(toks, i, Infix(l, op, r), j)
    ensures PrimaryIs(toks, i, Infix(l, op, r), j)
    decreases Infix(l, op, r), 2
  {
    var jl, jr := InfixParts(toks, i, l, op, r, j);
    PrimaryShows(toks, i + 1, l, jl);
    BpShows(toks, jl + 1, r, jr, LeftPower(op) + 1);
    InfixCase(toks, i, l, op, r, jl, jr);
  }

  lemma PostfixParts(toks: seq<Item>, i: nat, x: Expr, j: nat) returns (k: nat)
    requires Ends(toks, i, Postfix(x, Bang), j)
    ensures Kind(toks, i, LeftParen) && Ends(toks, i + 1, x, k)
    ensures Kind(toks, k, Operator(Bang)) && Kind(toks, k + 1, RightParen) && j == k + 2
  {
    k := FormEnd(toks, i + 1, x);
  }

  lemma {:induction false} PostfixShows(toks: seq<Item>, i: nat, x: Expr, j: nat)
    requires Ends(toks, i, Postfix(x, Bang), j)
    ensures PrimaryIs(toks, i, Postfix(x, Bang), j)
    decreases Postfix(x, Bang), 2
  {
    var k := PostfixParts(toks, i, x, j);
    PrimaryShows(toks, i + 1, x, k);
    PostfixCase(toks, i, x, k);
  }

  lemma IndexParts(toks: seq<Item>, i: nat, x: Expr, w: Expr, j: nat) returns (jx: nat, jw: nat)
    requires Ends(toks, i, Index(x, w), j)
    ensures Kind(toks, i, LeftParen) && Ends(toks, i + 1, x, jx) && Kind(toks, jx, LeftSquare)
    ensures Ends(toks, jx + 1, w, jw) && Kind(toks, jw, RightSquare) && Kind(toks, jw + 1, RightParen)
    ensures j == jw + 2
  {
    jx := FormEnd(toks, i + 1, x);
    jw := FormEnd(toks, jx + 1, w);
  }

  lemma {:induction false} IndexShows(toks: seq<Item>, i: nat, x: Expr, w: Expr, j: nat)
    requires Ends(toks, i, Index(x, w), j)
    ensures PrimaryIs(toks, i, Index(x, w), j)
    decreases Index(x, w), 2
  {
    var jx, jw := IndexParts(toks, i, x, w, j);
    PrimaryShows(toks, i + 1, x, jx);
    BpShows(toks, jx + 1, w, jw, 0);
    IndexCase(toks, i, x, w, jx, jw);
  }

  /** Every well-formed tree is what the parser returns for its bracketed token form, which it reads to the end. */
  lemma RoundTrip(e: Expr)
    requires WellFormed(e)
    ensures ParseBp(Emit(e), 0, 0) == Parsed((e, |Emit(e)|))
  {
    var toks := Emit(e);
    EmbedsSuffix(toks, 0);
    assert toks[0..] == toks;
    Shown(toks, 0, e);
    BpShows(toks, 0, e, |toks|, 0);
  }

  // ----- precedence and associativity -----

  /**
   * `x o1 y o2 z` groups to the left unless `o2` binds more tightly than
   * `o1`: `* /` before `+ -`, and operators of one level left-associative.
   */
  lemma Chain(x: Literal, o1: Operator, y: Literal, o2: Operator, z: Literal)
    requires IsArithmetic(o1) && IsArithmetic(o2)
    ensures ParseBp([Lit1(x), Op(o1), Lit1(y), Op(o2), Lit1(z)], 0, 0) ==
      Parsed((if LeftPower(o2) <= LeftPower(o1)
              then Infix(Infix(Lit(x), o1, Lit(y)), o2, Lit(z))
              else Infix(Lit(x), o1, Infix(Lit(y), o2, Lit(z))), 5))
  {
    var toks := [Lit1(x), Op(o1), Lit1(y), Op(o2), Lit1(z)];
    if LeftPower(o2) <= LeftPower(o1) {
      ChainLeft(toks, x, o1, y, o2, z);
    } else {
      ChainRight(toks, x, o1, y, o2, z);
    }
  }

  lemma ChainLeft(toks: seq<Item>, x: Literal, o1: Operator, y: Literal, o2: Operator, z: Literal)
    requires toks == [Lit1(x), Op(o1), Lit1(y), Op(o2), Lit1(z)]
    requires IsArithmetic(o1) && IsArithmetic(o2) && LeftPower(o2) <= LeftPower(o1)
    ensures BpIs(toks, 0, 0, Infix(Infix(Lit(x), o1, Lit(y)), o2, Lit(z)), 5)
  {
    var p1, p2 := LeftPower(o1) + 1, LeftPower(o2) + 1;
    var left := Infix(Lit(x), o1, Lit(y));
    var whole := Infix(left, o2, Lit(z));
    LitStep(toks, 0, x);
    LitStep(toks, 2, y);
    LitStep(toks, 4, z);
    LoopStops(toks, Lit(z), 5, p2);
    BpStep(toks, 4, p2, Lit(z), 5, Lit(z), 5);
    InfixStop(toks, Lit(y), 3, p1, o2);
    BpStep(toks, 2, p1, Lit(y), 3, Lit(y), 3);
    LoopStops(toks, whole, 5, 0);
    InfixStep(toks, left, 3, 0, o2, Lit(z), 5, whole, 5);
    InfixStep(toks, Lit(x), 1, 0, o1, Lit(y), 3, whole, 5);
    BpStep(toks, 0, 0, Lit(x), 1, whole, 5);
  }

  lemma ChainRight(toks: seq<Item>, x: Literal, o1: Operator, y: Literal, o2: Operator, z: Literal)
    requires toks == [Lit1(x), Op(o1), Lit1(y), Op(o2), Lit1(z)]
    requires IsArithmetic(o1) && IsArithmetic(o2) && LeftPower(o1) < LeftPower(o2)
    ensures BpIs(toks, 0, 0, Infix(Lit(x), o1, Infix(Lit(y), o2, Lit(z))), 5)
  {
    var p1, p2 := LeftPower(o1) + 1, LeftPower(o2) + 1;
    var right := Infix(Lit(y), o2, Lit(z));
    var whole := Infix(Lit(x), o1, right);
    LitStep(toks, 0, x);
    LitStep(toks, 2, y);
    LitStep(toks, 4, z);
    LoopStops(toks, Lit(z), 5, p2);
    BpStep(toks, 4, p2, Lit(z), 5, Lit(z), 5);
    LoopStops(toks, right, 5, p1);
    InfixStep(toks, Lit(y), 3, p1, o2, Lit(z), 5, right, 5);
    BpStep(toks, 2, p1, Lit(y), 3, right, 5);
    LoopStops(toks, whole, 5, 0);
    InfixStep(toks, Lit(x), 1, 0, o1, right, 5, whole, 5);
    BpStep(toks, 0, 0, Lit(x), 1, whole, 5);
  }

  /** `x + y * z` multiplies first. */
  lemma ProductFirst(x: Literal, y: Literal, z: Literal)
    ensures ParseBp([Lit1(x), Op(Plus), Lit1(y), Op(Star), Lit1(z)], 0, 0) ==
      Parsed((Infix(Lit(x), Plus, Infix(Lit(y), Star, Lit(z))), 5))
  {
    Chain(x, Plus, y, Star, z);
  }

  /** `x - y - z` is `(x - y) - z`. */
  lemma LeftAssociative(x: Literal, y: Literal, z: Literal)
    ensures ParseBp([Lit1(x), Op(Minus), Lit1(y), Op(Minus), Lit1(z)], 0, 0) ==
      Parsed((Infix(Infix(Lit(x), Minus, Lit(y)), Minus, Lit(z)), 5))
  {
    Chain(x, Minus, y, Minus, z);
  }

  /** A prefix operator takes only the operand next to it: `-x o y` is `(-x) o y`. */
  lemma PrefixBeforeInfix(op: Operator, x: Literal, o: Operator, y: Literal)
    requires PrefixBindingPower(op).Some? && IsArithmetic(o)
    ensures ParseBp([Op(op), Lit1(x), Op(o), Lit1(y)], 0, 0) ==
      Parsed((Infix(Prefix(op, Lit(x)), o, Lit(y)), 4))
  {
    var toks := [Op(op), Lit1(x), Op(o), Lit1(y)];
    var p := LeftPower(o) + 1;
    var px := Prefix(op, Lit(x));
    var whole := Infix(px, o, Lit(y));
    InfixPowers(o);
    LitStep(toks, 1, x);
    LitStep(toks, 3, y);
    InfixStop(toks, Lit(x), 2, 5, o);
    BpStep(toks, 1, 5, Lit(x), 2, Lit(x), 2);
    PrefixStep(toks, 0, op, Lit(x), 2);
    LoopStops(toks, Lit(y), 4, p);
    BpStep(toks, 3, p, Lit(y), 4, Lit(y), 4);
    LoopStops(toks, whole, 4, 0);
    InfixStep(toks, px, 2, 0, o, Lit(y), 4, whole, 4);
    BpStep(toks, 0, 0, px, 2, whole, 4);
  }

  /** A postfix `!` binds more tightly than a prefix operator: `-x!` is `-(x!)`. */
  lemma PostfixBeforePrefix(op: Operator, x: Literal)
    requires PrefixBindingPower(op).Some?
    ensures ParseBp([Op(op), Lit1(x), Op(Bang)], 0, 0) ==
      Parsed((Prefix(op, Postfix(Lit(x), Bang)), 3))
  {
    var toks := [Op(op), Lit1(x), Op(Bang)];
    var bang := Postfix(Lit(x), Bang);
    var whole := Prefix(op, bang);
    LitStep(toks, 1, x);
    LoopStops(toks, bang, 3, 5);
    PostfixStep(toks, Lit(x), 2, 5, bang, 3);
    BpStep(toks, 1, 5, Lit(x), 2, bang, 3);
    PrefixStep(toks, 0, op, bang, 3);
    LoopStops(toks, whole, 3, 0);
    BpStep(toks, 0, 0, whole, 3, whole, 3);
  }

  /** Indexing binds more tightly than a prefix operator: `-x[y]` is `-(x[y])`. */
  lemma IndexBeforePrefix(op: Operator, x: Literal, y: Literal)
    requires PrefixBindingPower(op).Some?
    ensures ParseBp([Op(op), Lit1(x), Tok(LeftSquare), Lit1(y), Tok(RightSquare)], 0, 0) ==
      Parsed((Prefix(op, Index(Lit(x), Lit(y))), 5))
  {
    var toks := [Op(op), Lit1(x), Tok(LeftSquare), Lit1(y), Tok(RightSquare)];
    var e := Index(Lit(x), Lit(y));
    var whole := Prefix(op, e);
    LitStep(toks, 1, x);
    LitStep(toks, 3, y);
    FollowsCloses(toks, 4);
    LoopStops(toks, Lit(y), 4, 0);
    BpStep(toks, 3, 0, Lit(y), 4, Lit(y), 4);
    EnclosedStep(toks, 3, RightSquare, ExpectedRightSquare, Lit(y), 4);
    LoopStops(toks, e, 5, 5);
    IndexStep(toks, Lit(x), 2, 5, Lit(y), 5, e, 5);
    BpStep(toks, 1, 5, Lit(x), 2, e, 5);
    PrefixStep(toks, 0, op, e, 5);
    LoopStops(toks, whole, 5, 0);
    BpStep(toks, 0, 0, whole, 5, whole, 5);
  }

  /** Parentheses override the binding powers: `(x o1 y) o2 z` for any two operators. */
  lemma Grouping(x: Literal, o1: Operator, y: Literal, o2: Operator, z: Literal)
    requires IsArithmetic(o1) && IsArithmetic(o2)
    ensures ParseBp([Tok(LeftParen), Lit1(x), Op(o1), Lit1(y), Tok(RightParen), Op(o2), Lit1(z)], 0, 0) ==
      Parsed((Infix(Infix(Lit(x), o1, Lit(y)), o2, Lit(z)), 7))
  {
    var toks := [Tok(LeftParen), Lit1(x), Op(o1), Lit1(y), Tok(RightParen), Op(o2), Lit1(z)];
    var p2 := LeftPower(o2) + 1;
    var inner := Infix(Lit(x), o1, Lit(y));
    var whole := Infix(inner, o2, Lit(z));
    ParenthesizedInfix(toks, x, o1, y);
    LitStep(toks, 6, z);
    LoopStops(toks, Lit(z), 7, p2);
    BpStep(toks, 6, p2, Lit(z), 7, Lit(z), 7);
    LoopStops(toks, whole, 7, 0);
    InfixStep(toks, inner, 5, 0, o2, Lit(z), 7, whole, 7);
    BpStep(toks, 0, 0, inner, 5, whole, 7);
  }

  /** `(x o y)` at the front of `toks` is one primary expression. */
  lemma ParenthesizedInfix(toks: seq<Item>, x: Literal, o: Operator, y: Literal)
    requires |toks| >= 5 && toks[0] == Tok(LeftParen) && toks[1] == Lit1(x) && toks[2] == Op(o)
    requires toks[3] == Lit1(y) && toks[4] == Tok(RightParen) && IsArithmetic(o)
    ensures PrimaryIs(toks, 0, Infix(Lit(x), o, Lit(y)), 5)
  {
    var p := LeftPower(o) + 1;
    var inner := Infix(Lit(x), o, Lit(y));
    LitStep(toks, 1, x);
    LitStep(toks, 3, y);
    InfixLoop(toks, Lit(x), 2, o, Lit(y), 4) by {
      FollowsCloses(toks, 4);
      LoopStops(toks, Lit(y), 4, p);
      BpStep(toks, 3, p, Lit(y), 4, Lit(y), 4);
    }
    BpStep(toks, 1, 0, Lit(x), 2, inner, 4);
    ParenCase(toks, 0, inner, 4);
  }

  /** The parser stops in front of a token that cannot continue the expression and leaves it unread. */
  lemma StopsBeforeOperand(x: Literal, y: Literal)
    ensures ParseBp([Lit1(x), Lit1(y)], 0, 0) == Parsed((Lit(x), 1))
  {
    var toks := [Lit1(x), Lit1(y)];
    LitStep(toks, 0, x);
    LoopStops(toks, Lit(x), 1, 0);
    BpStep(toks, 0, 0, Lit(x), 1, Lit(x), 1);
  }

  // ----- errors -----

  /** `f()` is rejected: an argument list holds at least one expression. */
  lemma EmptyArguments(f: seq<Byte>, m: nat)
    ensures ParseBp([Ident(f), Tok(LeftParen), Tok(RightParen)], 0, m) ==
      Failed(ParserError.Unexpected(Some(RightParen), ExpectedPrimary))
  {
    var toks := [Ident(f), Tok(LeftParen), Tok(RightParen)];
    var err := Failed(ParserError.Unexpected(Some(RightParen), ExpectedPrimary));
    assert ParsePrimary(toks, 2) == err;
    assert ParseArgs(toks, 2, Path(f, None), []) == err;
    assert ParseNamed(toks, 1, f) == err;
    assert ParsePrimary(toks, 0) == err;
  }

  /** `(x` with nothing after: the closing parenthesis is reported missing at the end. */
  lemma UnclosedParen(x: Literal, m: nat)
    ensures ParseBp([Tok(LeftParen), Lit1(x)], 0, m) ==
      Failed(ParserError.Unexpected(None, ExpectedRightParen))
  {
    var toks := [Tok(LeftParen), Lit1(x)];
    var err := Failed(ParserError.Unexpected(None, ExpectedRightParen));
    LitStep(toks, 1, x);
    LoopStops(toks, Lit(x), 2, 0);
    BpStep(toks, 1, 0, Lit(x), 2, Lit(x), 2);
    assert ParseEnclosed(toks, 1, RightParen, ExpectedRightParen) == err;
    assert ParsePrimary(toks, 0) == err;
  }

  /** `x[y` with nothing after: the closing square bracket is reported missing. */
  lemma UnclosedIndex(x: Literal, y: Literal)
    ensures ParseBp([Lit1(x), Tok(LeftSquare), Lit1(y)], 0, 0) ==
      Failed(ParserError.Unexpected(None, ExpectedRightSquare))
  {
    var toks := [Lit1(x), Tok(LeftSquare), Lit1(y)];
    var err := Failed(ParserError.Unexpected(None, ExpectedRightSquare));
    LitStep(toks, 0, x);
    LitStep(toks, 2, y);
    LoopStops(toks, Lit(y), 3, 0);
    BpStep(toks, 2, 0, Lit(y), 3, Lit(y), 3);
    assert ParseEnclosed(toks, 2, RightSquare, ExpectedRightSquare) == err;
    assert ParseLoop(toks, Lit(x), 1, 0) == err;
  }

  /** `f(x y`: after an argument only `,` or `)` may follow. */
  lemma MissingSeparator(f: seq<Byte>, x: Literal, y: Literal)
    ensures ParseBp([Ident(f), Tok(LeftParen), Lit1(x), Lit1(y)], 0, 0) ==
      Failed(ParserError.Unexpected(Some(Literal(y)), ExpectedArgumentEnd))
  {
    var toks := [Ident(f), Tok(LeftParen), Lit1(x), Lit1(y)];
    var err := Failed(ParserError.Unexpected(Some(Literal(y)), ExpectedArgumentEnd));
    LitStep(toks, 2, x);
    LoopStops(toks, Lit(x), 3, 0);
    BpStep(toks, 2, 0, Lit(x), 3, Lit(x), 3);
    assert ParseArgs(toks, 2, Path(f, None), []) == err;
    assert ParseNamed(toks, 1, f) == err;
    assert ParsePrimary(toks, 0) == err;
  }

  /** `x +` with nothing after: the right operand is missing. */
  lemma TrailingOperator(x: Literal, op: Operator)
    requires IsArithmetic(op)
    ensures ParseBp([Lit1(x), Op(op)], 0, 0) == Failed(UnexpectedEnd)
  {
    var toks := [Lit1(x), Op(op)];
    InfixPowers(op);
    LitStep(toks, 0, x);
    assert ParseBp(toks, 2, LeftPower(op) + 1) == Failed(UnexpectedEnd);
    assert ParseLoop(toks, Lit(x), 1, 0) == Failed(UnexpectedEnd);
  }

  /** A tokenizer error where an operand is due ends the parse with that error. */
  lemma TokenizerErrorPropagates(x: Literal, op: Operator, e: TokenizerError)
    requires IsArithmetic(op)
    ensures ParseBp([Lit1(x), Op(op), Err(e)], 0, 0) == Failed(Tokenizer(e))
  {
    var toks: seq<Item> := [Lit1(x), Op(op), Err(e)];
    InfixPowers(op);
    LitStep(toks, 0, x);
    assert ParseBp(toks, 2, LeftPower(op) + 1) == Failed(Tokenizer(e));
    assert ParseLoop(toks, Lit(x), 1, 0) == Failed(Tokenizer(e));
  }

  /** An infix operator without a binding power, such as `**`, is not implemented. */
  lemma UnimplementedInfix(x: Literal, y: Literal)
    ensures ParseBp([Lit1(x), Op(DoubleStar), Lit1(y)], 0, 0) == Unimplemented
  {
    var toks := [Lit1(x), Op(DoubleStar), Lit1(y)];
    LitStep(toks, 0, x);
    assert ParseLoop(toks, Lit(x), 1, 0) == Unimplemented;
  }

  /** A prefix operator other than `+ - ++ --`, such as `*`, is not implemented. */
  lemma UnimplementedPrefix(x: Literal)
    ensures ParseBp([Op(Star), Lit1(x)], 0, 0) == Unimplemented
  {
  }
}
