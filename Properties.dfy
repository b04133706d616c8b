/** Properties of the time-condition evaluator that relate several
    evaluations: operand swapping, the negation identity of the non-strict
    operators, error order and propagation, and the demonstration expression
    `request.time < timestamp("2020-07-01T00:00:00.000Z")`. */
module Properties {
  import opened Ast
  import opened Eval

  /** `timestamp("<s>")` as the parser builds it. */
  function TimestampLiteral(s: string): Expr {
    Call(TimestampFunction, [Const(StringValue(s))])
  }

  /** `>` is `<` with its two operands swapped, in the value and the error;
      arguments after the second are ignored. */
  lemma GreaterIsSwappedLess(args: seq<Expr>, now: Instant, parse: Parser)
    requires EvalDefined(Call(Greater, args), now, parse)
    ensures EvalDefined(Call(Less, [args[1], args[0]]), now, parse)
    ensures EvalCondition(Call(Greater, args), now, parse)
         == EvalCondition(Call(Less, [args[1], args[0]]), now, parse)
  {
  }

  /** `>=` is `<=` with its two operands swapped. */
  lemma GreaterEqualsIsSwappedLessEquals(args: seq<Expr>, now: Instant, parse: Parser)
    requires EvalDefined(Call(GreaterEquals, args), now, parse)
    ensures EvalDefined(Call(LessEquals, [args[1], args[0]]), now, parse)
    ensures EvalCondition(Call(GreaterEquals, args), now, parse)
         == EvalCondition(Call(LessEquals, [args[1], args[0]]), now, parse)
  {
  }

  /** `a <= b` is the negation of `b < a`, and `a >= b` the negation of
      `a < b`, with the same error. */
  lemma NonStrictIsNegatedStrict(a: Expr, b: Expr, now: Instant, parse: Parser)
    requires CheckDefined(b, a, now, parse)
    ensures var strict := EvalCondition(Call(Less, [b, a]), now, parse);
      EvalCondition(Call(LessEquals, [a, b]), now, parse) == Pair(!strict.value, strict.err)
    ensures var strict := EvalCondition(Call(Less, [b, a]), now, parse);
      EvalCondition(Call(GreaterEquals, [b, a]), now, parse) == Pair(!strict.value, strict.err)
  {
  }

  /** Two operands that denote the same instant: the non-strict operators
      hold and the strict ones do not. */
  lemma EqualInstants(a: Expr, b: Expr, now: Instant, parse: Parser)
    requires Resolves(a, now, parse) && Resolves(b, now, parse)
    requires EvalAsTime(a, now, parse).value == EvalAsTime(b, now, parse).value
    ensures EvalCondition(Call(Less, [a, b]), now, parse) == Pair(false, None)
    ensures EvalCondition(Call(Greater, [a, b]), now, parse) == Pair(false, None)
    ensures EvalCondition(Call(LessEquals, [a, b]), now, parse) == Pair(true, None)
    ensures EvalCondition(Call(GreaterEquals, [a, b]), now, parse) == Pair(true, None)
  {
  }

  /** Any other root function fails with "unknown expr:" followed by its name. */
  lemma UnknownOperator(f: string, args: seq<Expr>, now: Instant, parse: Parser)
    requires !IsComparison(f)
    ensures var r := EvalCondition(Call(f, args), now, parse);
      !r.value && r.err.Some? && Message(r.err.value) == "unknown expr:" + f
  {
  }

  /** A parse error of a timestamp literal reaches the result unchanged, when
      that literal is the operand consulted first. */
  lemma ParseErrorPropagates(op: string, s: string, other: Expr, now: Instant, parse: Parser)
    requires IsComparison(op)
    requires parse(RFC3339Milli, s).err.Some?
    ensures var args := if op == Less || op == GreaterEquals
                        then [TimestampLiteral(s), other] else [other, TimestampLiteral(s)];
      EvalCondition(Call(op, args), now, parse).err == parse(RFC3339Milli, s).err
  {
  }

  /** A parse error of a timestamp literal also reaches the result unchanged
      when that literal is consulted second, after an operand that resolves;
      `request.time < timestamp("not-a-date")` is such a case. */
  lemma ParseErrorPropagatesFromSecond(op: string, s: string, other: Expr, now: Instant, parse: Parser)
    requires IsComparison(op)
    requires parse(RFC3339Milli, s).err.Some?
    requires Resolves(other, now, parse)
    ensures var args := if op == Less || op == GreaterEquals
                        then [other, TimestampLiteral(s)] else [TimestampLiteral(s), other];
      EvalCondition(Call(op, args), now, parse).err == parse(RFC3339Milli, s).err
  {
  }

  /** The demonstration's shape with a literal the parser rejects: the
      parser's error, beside false. */
  lemma RequestTimeBeforeBadLiteral(s: string, now: Instant, parse: Parser)
    requires parse(RFC3339Milli, s).err.Some?
    ensures EvalCondition(Call(Less, [RequestTime, TimestampLiteral(s)]), now, parse)
         == Pair(false, parse(RFC3339Milli, s).err)
  {
  }

  /** Only the first two arguments are consulted. */
  lemma ExtraArgumentsIgnored(f: string, args: seq<Expr>, now: Instant, parse: Parser)
    requires EvalDefined(Call(f, args), now, parse)
    requires |args| >= 2
    ensures EvalDefined(Call(f, args[..2]), now, parse)
    ensures EvalCondition(Call(f, args), now, parse) == EvalCondition(Call(f, args[..2]), now, parse)
  {
  }

  /** For a literal that parses, the expiry condition
      `request.time < timestamp(s)` is satisfiable and refutable: some current
      instant makes it true, another makes it false. */
  lemma ExpiryIsEffective(s: string, parse: Parser)
    requires parse(RFC3339Milli, s).err.None?
    ensures exists now :: EvalCondition(Call(Less, [RequestTime, TimestampLiteral(s)]), now, parse) == Pair(true, None)
    ensures exists now :: EvalCondition(Call(Less, [RequestTime, TimestampLiteral(s)]), now, parse) == Pair(false, None)
  {
    var t := parse(RFC3339Milli, s).value;
    var e := Call(Less, [RequestTime, TimestampLiteral(s)]);
    assert EvalCondition(e, t - 1, parse) == Pair(true, None);
    assert EvalCondition(e, t, parse) == Pair(false, None);
  }

  /** The four operators are told apart: for any two different ones, comparing
      `request.time` with a literal that parses, some current instant makes
      them disagree. */
  lemma OperatorsAreDistinguishable(op1: string, op2: string, s: string, parse: Parser)
    requires IsComparison(op1) && IsComparison(op2) && op1 != op2
    requires parse(RFC3339Milli, s).err.None?
    ensures exists now :: EvalCondition(Call(op1, [RequestTime, TimestampLiteral(s)]), now, parse)
                       != EvalCondition(Call(op2, [RequestTime, TimestampLiteral(s)]), now, parse)
  {
    var t := parse(RFC3339Milli, s).value;
    var e1 := Call(op1, [RequestTime, TimestampLiteral(s)]);
    var e2 := Call(op2, [RequestTime, TimestampLiteral(s)]);
    if EvalCondition(e1, t - 1, parse) == EvalCondition(e2, t - 1, parse) {
      assert EvalCondition(e1, t, parse) != EvalCondition(e2, t, parse);
    }
  }

  /** The condition the demonstration program evaluates. */
  const Demo: Expr := Call(Less, [RequestTime, TimestampLiteral("2020-07-01T00:00:00.000Z")])

  /** 2020-07-01T00:00:00Z and two instants around it, in nanoseconds. */
  const July2020: Instant := 1593561600 * 1000000000
  const June2020: Instant := 1590969600 * 1000000000
  const January2021: Instant := 1609459200 * 1000000000

  /** With a parser that reads the literal as 2020-07-01T00:00:00Z, the
      demonstration condition holds exactly before that instant. */
  lemma DemoCondition(now: Instant, parse: Parser)
    requires parse(RFC3339Milli, "2020-07-01T00:00:00.000Z") == Pair(July2020, None)
    ensures EvalCondition(Demo, now, parse) == Pair(now < July2020, None)
    ensures now == June2020 ==> EvalCondition(Demo, now, parse).value
    ensures now == January2021 ==> !EvalCondition(Demo, now, parse).value
  {
  }

  /** `timestamp("2020-07-01T00:00:00.000Z") >= request.time` holds at that
      very instant, while the strict `>` does not. */
  lemma DemoAtExpiry(parse: Parser)
    requires parse(RFC3339Milli, "2020-07-01T00:00:00.000Z") == Pair(July2020, None)
    ensures EvalCondition(Call(GreaterEquals, [TimestampLiteral("2020-07-01T00:00:00.000Z"), RequestTime]),
                          July2020, parse) == Pair(true, None)
    ensures EvalCondition(Call(Greater, [TimestampLiteral("2020-07-01T00:00:00.000Z"), RequestTime]),
                          July2020, parse) == Pair(false, None)
  {
  }
}
