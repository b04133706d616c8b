/** The hand-rolled evaluator of a timestamp comparison: the root of the tree
    is one of CEL's comparison operators, and each of its first two arguments
    is either the variable `request.time` (the supplied current instant) or a
    call `timestamp("<literal>")`.

    Go's `(value, error)` results are kept as pairs: the value is returned
    even when the error is set. Inputs on which the Go code panics (a nil
    dereference or an index out of range) are excluded by preconditions. */
module Eval {
  import opened Ast

  datatype Option<T> = None | Some(value: T)

  /** An instant, in nanoseconds since 1970-01-01T00:00:00Z. */
  type Instant = int

  /** Go's zero `time.Time{}`: January 1 of year 1, 00:00:00 UTC. */
  const ZeroTime: Instant := -62135596800 * 1000000000

  datatype Error =
    | UnknownExpr(fun: string)
    | NotTimestamp
    | ParseFailure(message: string)

  /** A Go result pair; `err == None` stands for a nil error. */
  datatype Pair<T> = Pair(value: T, err: Option<Error>)

  /** `time.Parse(layout, value)`; the parser itself is not modelled. */
  type Parser = (string, string) -> Pair<Instant>

  /** The function names of CEL's comparison operators. */
  const Less: string := "_<_"
  const Greater: string := "_>_"
  const LessEquals: string := "_<=_"
  const GreaterEquals: string := "_>=_"

  const TimestampFunction: string := "timestamp"

  /** Millisecond RFC 3339 date-time, in Go's reference-date layout notation. */
  const RFC3339Milli: string := "2006-01-02T15:04:05.999Z07:00"

  /** The tree of the CEL expression `request.time`. */
  const RequestTime: Expr := Select(Ident("request"), "time")

  /** The text of an error, as `Error()` prints it. */
  function Message(e: Error): (m: string)
    ensures e.UnknownExpr? ==> |m| == 13 + |e.fun| && m[..13] == "unknown expr:" && m[13..] == e.fun
  {
    match e
    case UnknownExpr(f) => "unknown expr:" + f
    case NotTimestamp => "expr is not timestamp"
    case ParseFailure(message) => message
  }

  predicate IsComparison(f: string) {
    f == Less || f == Greater || f == LessEquals || f == GreaterEquals
  }

  /** The relation each comparison operator denotes on instants. */
  function Holds(op: string, a: Instant, b: Instant): bool
    requires IsComparison(op)
  {
    if op == Less then a < b
    else if op == Greater then a > b
    else if op == LessEquals then a <= b
    else a >= b
  }

  /** `time.Time.Before`. */
  function Before(t: Instant, u: Instant): bool {
    t < u
  }

  /** Is the node exactly the select `request.time`? */
  function IsRequestTime(e: Expr): (b: bool)
    ensures b <==> e == RequestTime
  {
    match e
    case Select(operand, field) =>
      (match operand
       case Ident(name) => name == "request" && field == "time"
       case _ => false)
    case _ => false
  }

  /** The operand shapes on which `evalAsTime` returns rather than panics:
      `request.time`, or a call, which must have an argument when it is
      `timestamp`. */
  predicate LeafDefined(e: Expr) {
    IsRequestTime(e) || (e.Call? && (e.fun == TimestampFunction ==> |e.args| >= 1))
  }

  /** A timestamp call: a call leaf other than `timestamp` is an error; the
      instant of a `timestamp` call is the parse of its first argument's string
      with the fixed layout. */
  function AsTime(e: Expr, parse: Parser): (r: Pair<Instant>)
    requires e.Call? && (e.fun == TimestampFunction ==> |e.args| >= 1)
    ensures e.fun != TimestampFunction ==> r == Pair(ZeroTime, Some(NotTimestamp))
    ensures e.fun == TimestampFunction ==> r == parse(RFC3339Milli, StringValueOf(e.args[0]))
  {
    if e.fun != TimestampFunction then
      Pair(ZeroTime, Some(NotTimestamp))
    else
      parse(RFC3339Milli, StringValueOf(e.args[0]))
  }

  /** The instant an operand denotes. */
  function EvalAsTime(e: Expr, now: Instant, parse: Parser): (r: Pair<Instant>)
    requires LeafDefined(e)
    ensures e == RequestTime ==> r == Pair(now, None)
    ensures e != RequestTime && e.fun != TimestampFunction ==> r == Pair(ZeroTime, Some(NotTimestamp))
    ensures e != RequestTime && e.fun == TimestampFunction ==>
      var p := parse(RFC3339Milli, StringValueOf(e.args[0]));
      r == if p.err.None? then p else Pair(ZeroTime, p.err)
  {
    if IsRequestTime(e) then
      Pair(now, None)
    else
      var t := AsTime(e, parse);
      if t.err.Some? then Pair(ZeroTime, t.err) else Pair(t.value, None)
  }

  /** The operand is well-shaped and resolves to an instant without error. */
  predicate Resolves(e: Expr, now: Instant, parse: Parser) {
    LeafDefined(e) && EvalAsTime(e, now, parse).err.None?
  }

  /** `checkLessThan(lhs, rhs)` does not panic: the left operand is resolved
      first, and the right one only when the left one resolved. */
  predicate CheckDefined(lhs: Expr, rhs: Expr, now: Instant, parse: Parser) {
    LeafDefined(lhs) && (EvalAsTime(lhs, now, parse).err.None? ==> LeafDefined(rhs))
  }

  /** Strict comparison of two operands; the left one is resolved first and its
      error is returned without consulting the right one. */
  function CheckLessThan(lhs: Expr, rhs: Expr, now: Instant, parse: Parser): (r: Pair<bool>)
    requires CheckDefined(lhs, rhs, now, parse)
    ensures !Resolves(lhs, now, parse) ==> r == Pair(false, EvalAsTime(lhs, now, parse).err)
    ensures Resolves(lhs, now, parse) && !Resolves(rhs, now, parse) ==>
      r == Pair(false, EvalAsTime(rhs, now, parse).err)
    ensures Resolves(lhs, now, parse) && Resolves(rhs, now, parse) ==>
      r == Pair(EvalAsTime(lhs, now, parse).value < EvalAsTime(rhs, now, parse).value, None)
  {
    var l := EvalAsTime(lhs, now, parse);
    if l.err.Some? then
      Pair(false, l.err)
    else
      var u := EvalAsTime(rhs, now, parse);
      if u.err.Some? then Pair(false, u.err) else Pair(Before(l.value, u.value), None)
  }

  /** Non-strict comparison, as the negation of the strict one with the
      operands swapped: the right operand is resolved first, and on an error
      the negated `false` comes back as `true` beside it. */
  function CheckLessThanEqual(lhs: Expr, rhs: Expr, now: Instant, parse: Parser): (r: Pair<bool>)
    requires CheckDefined(rhs, lhs, now, parse)
    ensures !Resolves(rhs, now, parse) ==> r == Pair(true, EvalAsTime(rhs, now, parse).err)
    ensures Resolves(rhs, now, parse) && !Resolves(lhs, now, parse) ==>
      r == Pair(true, EvalAsTime(lhs, now, parse).err)
    ensures Resolves(lhs, now, parse) && Resolves(rhs, now, parse) ==>
      r == Pair(EvalAsTime(lhs, now, parse).value <= EvalAsTime(rhs, now, parse).value, None)
  {
    var strict := CheckLessThan(rhs, lhs, now, parse);
    Pair(!strict.value, strict.err)
  }

  /** `evalCondition` returns rather than panics: the root is a call, and a
      comparison has two arguments whose resolution does not panic in the
      order the operator consults them. */
  predicate EvalDefined(expr: Expr, now: Instant, parse: Parser) {
    && expr.Call?
    && (IsComparison(expr.fun) ==>
          && |expr.args| >= 2
          && if expr.fun == Less || expr.fun == GreaterEquals
             then CheckDefined(expr.args[0], expr.args[1], now, parse)
             else CheckDefined(expr.args[1], expr.args[0], now, parse))
  }

  /** Decides the comparison at the root of the tree. */
  function EvalCondition(expr: Expr, now: Instant, parse: Parser): (r: Pair<bool>)
    requires EvalDefined(expr, now, parse)
    // an operator other than the four comparisons is reported by name
    ensures !IsComparison(expr.fun) ==> r == Pair(false, Some(UnknownExpr(expr.fun)))
    // when both operands resolve, the operator's relation on their instants
    ensures IsComparison(expr.fun)
              && Resolves(expr.args[0], now, parse) && Resolves(expr.args[1], now, parse) ==>
      r == Pair(Holds(expr.fun, EvalAsTime(expr.args[0], now, parse).value,
                      EvalAsTime(expr.args[1], now, parse).value), None)
    // otherwise an error, with false for strict and true for non-strict operators
    ensures IsComparison(expr.fun)
              && !(Resolves(expr.args[0], now, parse) && Resolves(expr.args[1], now, parse)) ==>
      r.err.Some? && r.value == (expr.fun == LessEquals || expr.fun == GreaterEquals)
    // the error is the one of the first operand, in the order consulted, that fails:
    // args[0] then args[1] for `<` and `>=`, args[1] then args[0] for `>` and `<=`
    ensures (expr.fun == Less || expr.fun == GreaterEquals) && !Resolves(expr.args[0], now, parse) ==>
      r.err == EvalAsTime(expr.args[0], now, parse).err
    ensures (expr.fun == Less || expr.fun == GreaterEquals)
              && Resolves(expr.args[0], now, parse) && !Resolves(expr.args[1], now, parse) ==>
      r.err == EvalAsTime(expr.args[1], now, parse).err
    ensures (expr.fun == Greater || expr.fun == LessEquals) && !Resolves(expr.args[1], now, parse) ==>
      r.err == EvalAsTime(expr.args[1], now, parse).err
    ensures (expr.fun == Greater || expr.fun == LessEquals)
              && Resolves(expr.args[1], now, parse) && !Resolves(expr.args[0], now, parse) ==>
      r.err == EvalAsTime(expr.args[0], now, parse).err
  {
    var f, args := expr.fun, expr.args;
    if f == Less then CheckLessThan(args[0], args[1], now, parse)
    else if f == Greater then CheckLessThan(args[1], args[0], now, parse)
    else if f == LessEquals then CheckLessThanEqual(args[0], args[1], now, parse)
    else if f == GreaterEquals then CheckLessThanEqual(args[1], args[0], now, parse)
    else Pair(false, Some(UnknownExpr(f)))
  }
}
