/** The shapes of a checked CEL expression tree that the time-condition
    evaluator inspects. The protobuf message has more kinds (lists, structs,
    comprehensions); the evaluator never accepts them as operands. */
module Ast {

  /** The value of a literal node. Only string literals are read by the
      evaluator; every other constant kind reads as the empty string. */
  datatype Constant = StringValue(s: string) | OtherValue

  datatype Expr =
    | Call(fun: string, args: seq<Expr>)
    | Select(operand: Expr, field: string)
    | Ident(name: string)
    | Const(value: Constant)

  /** The string of a literal argument, as the nil-safe getter chain
      `GetConstExpr().GetStringValue()` yields it: a node that is not a
      string literal gives "". */
  function StringValueOf(e: Expr): (s: string)
    ensures s != "" ==> e == Const(StringValue(s))
    ensures e.Const? && e.value.StringValue? ==> s == e.value.s
  {
    match e
    case Const(StringValue(s)) => s
    case _ => ""
  }
}
