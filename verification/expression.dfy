/**
 * The expression tree the parser builds and its bracketed rendering
 * (src/parser/expression.rs). The parser builds names and calls over
 * paths, so `Name(Path)` stands for the `Var` variant and a call names its
 * callee by a path.
 */
module Expressions {
  import opened Wrappers
  import opened Tokens

  /** `head` or `head::t1::...::tn`; a tail is present whenever `::` followed the head. */
  datatype Path = Path(head: seq<Byte>, tail: Option<seq<Token>>)

  datatype Expr =
    | Prefix(op: Operator, right: Expr)
    | Infix(left: Expr, op: Operator, right: Expr)
    | Postfix(left: Expr, op: Operator)
    | Call(callee: Path, arguments: seq<Expr>)
    | Name(path: Path)
    | Lit(value: Literal)
    | Index(expr: Expr, with: Expr)

  /** The text of each tail segment, each preceded by `::`. */
  function TailText(tail: seq<Token>): string {
    if tail == [] then "" else "::" + tail[0].Text() + TailText(tail[1..])
  }

  /** A path as written: the head text, then its segments. */
  function PathText(p: Path): (s: string)
    ensures p.tail.None? ==> s == p.head
    ensures p.tail == Some([]) ==> s == p.head
  {
    match p.tail
    case None => p.head
    case Some(tail) => p.head + TailText(tail)
  }

  /**
   * The `Debug` rendering: every compound node in parentheses. How an
   * operator and a literal print is given by `showOp` and `showLit`.
   */
  function Render(e: Expr, showOp: Operator -> string, showLit: Literal -> string): (s: string)
    ensures !(e.Name? || e.Lit?) ==> |s| >= 2 && s[0] == '(' && s[|s| - 1] == ')'
    decreases e, 1
  {
    match e
    case Name(p) => PathText(p)
    case Lit(v) => showLit(v)
    case Prefix(op, right) => "(" + showOp(op) + Render(right, showOp, showLit) + ")"
    case Infix(left, op, right) =>
      "(" + Render(left, showOp, showLit) + " " + showOp(op) + " " + Render(right, showOp, showLit) + ")"
    case Index(expr, with) => "(" + Render(expr, showOp, showLit) + "[" + Render(with, showOp, showLit) + "])"
    case Postfix(left, op) => "(" + Render(left, showOp, showLit) + showOp(op) + ")"
    case Call(callee, arguments) => "(" + PathText(callee) + "(" + Join(arguments, showOp, showLit) + "))"
  }

  /** The arguments of a call, rendered and separated by `, `, with no leading or trailing separator. */
  function Join(args: seq<Expr>, showOp: Operator -> string, showLit: Literal -> string): string
    decreases args, 0
  {
    if args == [] then ""
    else if |args| == 1 then Render(args[0], showOp, showLit)
    else Render(args[0], showOp, showLit) + ", " + Join(args[1..], showOp, showLit)
  }
}
