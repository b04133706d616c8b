# Time-condition evaluator of cel-sandbox, in Dafny

cel-sandbox is a demonstration program. It parses and type-checks the CEL
expression `request.time < timestamp("2020-07-01T00:00:00.000Z")`. It then
decides that expression twice: with CEL's own engine and with a small
evaluator written by hand. This project models the hand-written evaluator
(`evalCondition` and its helpers in `main.go`) and proves what it computes.

- `Ast.dfy`: the shapes of the checked expression tree that the evaluator
  reads. These are calls, selects, identifiers and constants.
- `Eval.dfy`: the evaluator. It has one function per Go function, with the
  same branches, constants and error values. Go's `(value, error)` results
  are kept as pairs, so the value is still returned when the error is set.
  Instants are integers counting nanoseconds since the Unix epoch, and
  `ZeroTime` stands for Go's `time.Time{}`. `time.Parse` is a parameter of
  type `Parser`. The evaluator always calls it with the layout
  `RFC3339Milli`, a millisecond date-time of section 5.6 of RFC 3339.
- `Properties.dfy`: properties that relate several evaluations.

Where Go would panic, the function has a precondition. This covers a root
that is not a call, a comparison with fewer than two arguments, an operand
that is neither `request.time` nor a call, and a `timestamp` call without
arguments. The preconditions follow the Go evaluation order exactly. The
right operand only has to be well-shaped when it is actually reached.

Three behaviours of the code are easy to miss, and the model keeps each:
- malformed operands panic instead of being reported as errors;
- `<=` and `>=` return `true` beside an operand's error, not `false`;
- any arguments after the second are ignored rather than rejected. A
  `timestamp` argument that is not a string literal reaches the parser as
  the empty string.

## Model

| member | source | states |
|---|---|---|
| `Ast.StringValueOf` | main.go:120 | a non-empty argument string comes only from a string literal; a string literal gives its own text, and any other node gives "" |
| `Eval.Message` | main.go:67 | an unknown operator's error text is "unknown expr:" directly followed by the operator's name, so the name can be read back from the text |
| `Eval.IsRequestTime` | main.go:101-114 | holds exactly when the node is the select `request.time` (operand the identifier `request`, field `time`) |
| `Eval.AsTime` | main.go:116-122 | a call other than `timestamp` fails with NotTimestamp and the zero time; a `timestamp` call yields exactly the parse of its first argument's string with the RFC3339Milli layout, error included |
| `Eval.EvalAsTime` | main.go:90-99 | `request.time` resolves to `now` with no error; another call fails with NotTimestamp; a `timestamp` leaf gives the parsed instant, or the zero time beside the parse error unchanged |
| `Eval.CheckLessThan` | main.go:73-83 | the left operand's error is returned with false before the right operand is consulted; then the right operand's error with false; with no error, whether the left instant is strictly before the right one |
| `Eval.CheckLessThanEqual` | main.go:85-88 | the right operand is resolved first; each operand's error comes back with true; with no error, whether the left instant is at or before the right one |
| `Eval.EvalCondition` | main.go:55-70 | any non-comparison root function gives (false, UnknownExpr naming it); when both operands resolve, `<`, `>`, `<=`, `>=` give the matching order relation of the two instants with no error; otherwise an error, with false for strict and true for non-strict operators, and that error is the error of the first operand, in the order consulted, that fails (`args[0]` then `args[1]` for `<` and `>=`, `args[1]` then `args[0]` for `>` and `<=`) |
| `Properties.GreaterIsSwappedLess` | main.go:58-61 | `>` on `[a, b, ...]` equals `<` on `[b, a]`, in value and error |
| `Properties.GreaterEqualsIsSwappedLessEquals` | main.go:62-65 | `>=` on `[a, b, ...]` equals `<=` on `[b, a]`, in value and error |
| `Properties.NonStrictIsNegatedStrict` | main.go:85-88 | `a <= b` and `b >= a` both equal the negated value of `b < a`, with the same error |
| `Properties.EqualInstants` | main.go:58-65 | for two operands that resolve to the same instant, `<` and `>` give (false, no error) and `<=` and `>=` give (true, no error) |
| `Properties.UnknownOperator` | main.go:66-67 | an unknown root function gives false and an error whose text is "unknown expr:" plus that function's name, whatever the arguments |
| `Properties.ParseErrorPropagates` | main.go:94-97 | a timestamp literal the parser rejects, as the operand consulted first, makes the comparison's error equal to the parser's error |
| `Properties.ParseErrorPropagatesFromSecond` | main.go:78-80 | a timestamp literal the parser rejects, consulted second after an operand that resolves, makes the comparison's error equal to the parser's error |
| `Properties.RequestTimeBeforeBadLiteral` | main.go:94-97 | `request.time < timestamp(s)` with a literal the parser rejects gives false and exactly the parser's error |
| `Properties.ExtraArgumentsIgnored` | main.go:57-65 | the result of a call is the same when only its first two arguments are kept |
| `Properties.ExpiryIsEffective` | main.go:24 | for a literal that parses, `request.time < timestamp(s)` is true at some current instant and false at another |
| `Properties.OperatorsAreDistinguishable` | main.go:57-68 | any two different comparison operators, applied to `request.time` and a parseable literal, disagree at some current instant |
| `Properties.DemoCondition` | main.go:24-32 | with the literal read as 2020-07-01T00:00:00Z, the demonstration condition is (now < that instant, no error): true on 2020-06-01, false on 2021-01-01 |
| `Properties.DemoAtExpiry` | main.go:64-65 | `timestamp("2020-07-01T00:00:00.000Z") >= request.time` is true, and `>` is false, when `now` is that instant |

## Left out

- `main` (main.go:16-53): building the CEL environment, parsing, type
  checking, the CEL engine's own evaluation and all printing. These are calls
  into a library that is not part of this model, plus output.
- `time.Parse` and Go's reference-date layout grammar are not modelled. The
  parser is a `Parser` parameter, so every property holds for any parser. For
  the same reason there is no parse/format round trip for the layout.
- `time.Now()` and `ptypes.TimestampNow()` are clock reads. The current
  instant is the parameter `now`.
- `time.Time` monotonic clock readings and locations are left out: an
  instant is one integer, and `Before` compares those integers.
- Protobuf details: the other expression kinds (lists, structs,
  comprehensions, an unset kind) and a nil select operand are not
  represented. On each of them the Go code either panics or returns false
  from `isRequestTime`, which the modelled shapes already cover. The
  non-string constant kinds are one value, `OtherValue`, because they all
  read as "".
- Go error identity: `errors.New` makes a fresh value on every call, while
  the model compares errors by their contents.
