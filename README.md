# RPN calculator — a Dafny model

This project models the computational core of a small PHP Reverse Polish
Notation calculator. It has three parts.

- **RPNStack** (`stack.dfy`). This is a LIFO stack over one array field. `init`
  empties it, `push` appends, and `pop` removes the top value or raises
  StackEmpty. `isEmpty` and `toArray` only read it. It is modelled as a generic
  class `Stack<T>` whose `seq<T>` field the methods reassign; the calculator
  uses a `Stack<real>`.
- **RPNCalculator** (`calculator.dfy`). It owns one stack. Each token is either
  pushed (a numeric token) or treated as an operator. Operators are looked up in
  an ordered table (+, -, *, /), and the first symbol that occurs anywhere in
  the token wins. The operator pops its operands, most recent first, and pushes
  the result. `processString` splits on single spaces, feeds every token and then
  finalises. `processResult` pops the single remaining value.
  - The pure functions `Step`, `OperatorStep`, `ApplyOperator`, `Run`,
    `Finish` and `Evaluate` state what each operation does to the stack, on
    failure as well as on success. Errors do not roll back: popped values stay lost.
  - The `Calculator` class has methods written the way the source writes them:
    a `for` loop popping into an operand list, and a loop over the tokens. Each
    method is proved to produce exactly the stack and result of its function.
- **Operators** (`operators.dfy`). The operator classes are one closed variant
  `Op`. `Arity` is the constant operand count, 2, the same for every operator.
  `Operate` takes the operands in pop order: `+` gives `a0 + a1`, `-` gives
  `a1 - a0`, `*` gives `a0 * a1` and `/` gives `a1 / a0`.
- `tokens.dfy` models the two PHP primitives the calculator relies on: `explode(" ", …)`
  and `is_numeric` together with the numeric conversion.
- `errors.dfy` holds the error kinds and the result types.
- `properties.dfy` proves the whole-expression facts. An expression is well
  formed when every token is recognised, every prefix has more operands than
  operators, and there is one more operand than operators overall. Every
  expression that finalises is well formed. A well-formed expression finalises
  unless one of its divisions meets a zero divisor (so "1 0 /" is well formed
  but fails). Each malformed shape yields its own error. It also proves the
  values of these integration-test expressions: "5 1 2 + 4 * + 3 -" (14),
  "2 5 4 + *" (18), "19 4 /" (4.75), "7 0.5 *" (3.5), "20 0.5 /" (40), and
  "1 2 3 +" (TooManyOperands). Any two numeric tokens with an operator evaluate
  to the infix result (with a non-zero divisor for /).

The Addition and Subtraction classes are not modelled from code. Their meaning
(`10 5 -` is 5, `5 10 +` is 15) comes from tests/CalculatorIntegrationTest.php.

Two behaviours of the code that a reader might not expect:
- Tokens are split on the single character ' ', not on whitespace in general.
  A doubled space therefore yields an empty token, which fails as an unknown
  operator.
- An operator is chosen by substring containment, so `5-` selects subtraction.

## Model

| member | source | states |
|---|---|---|
| RPNStack.Stack.constructor | dschwartz/RPNCalculator/RPNStack.class.php:21-24 | a new stack holds no value |
| RPNStack.Stack.Init | dschwartz/RPNCalculator/RPNStack.class.php:29-31 | after `init` the contents are the empty sequence, whatever they were |
| RPNStack.Stack.IsEmpty | dschwartz/RPNCalculator/RPNStack.class.php:33-35 | true exactly when the stack holds no value; nothing changes |
| RPNStack.Stack.Push | dschwartz/RPNCalculator/RPNStack.class.php:42-44 | the new contents are the old contents with the value appended on top; nothing below changes |
| RPNStack.Stack.Pop | dschwartz/RPNCalculator/RPNStack.class.php:52-57 | on an empty stack: StackEmpty and the stack stays empty; otherwise returns the last element and the contents lose exactly that element |
| RPNStack.Stack.ToArray | dschwartz/RPNCalculator/RPNStack.class.php:71-73 | returns the contents bottom to top without changing them |
| RPNStack.PushThenPop | dschwartz/RPNCalculator/RPNStack.class.php:42-57 | a push followed by a pop returns the pushed value and restores the original contents |
| RPNStack.PopOrder | tests/StackTest.php:72-100 | values pushed a, b, c pop as c, b, a, and a fourth pop fails with StackEmpty |
| RPNOperators.Arity | dschwartz/RPNCalculator/RPNOperators/MultiplicationOperator.class.php:12-16 | every operator takes exactly two operands, the constant operand count (DivisionOperator.class.php:12-16 likewise) |
| RPNOperators.Operate | dschwartz/RPNCalculator/RPNOperators/DivisionOperator.class.php:18-20 | an operator fails only for division by a zero divisor (DivisionByZero), and every other application yields a value |
| RPNOperators.OperateIsInfix | dschwartz/RPNCalculator/RPNOperators/MultiplicationOperator.class.php:18-20 | with operands in pop order `[right, left]` every operator computes the infix `left op right`, so the earlier-pushed value is the minuend and the dividend |
| RPNOperators.MultiplicationCommutes | dschwartz/RPNCalculator/RPNOperators/MultiplicationOperator.class.php:19 | the product does not depend on operand order |
| RPNOperators.OrderSensitiveExamples | tests/CalculatorIntegrationTest.php:57-171 | 10 5 - is 5, 12 20 - is -8, 21 7 / is 3, 20 0.5 / is 40, 19 4 / is 4.75, 7 0.5 * is 3.5 |
| Tokens.Explode | dschwartz/RPNCalculator/RPNCalculator.class.php:47 | splitting yields at least one token and no token contains a space |
| Tokens.JoinExplode | dschwartz/RPNCalculator/RPNCalculator.class.php:47 | joining the tokens of any string with single spaces gives back that string: nothing but the separators is lost |
| Tokens.ExplodeJoin | dschwartz/RPNCalculator/RPNCalculator.class.php:47 | splitting the single-space join of space-free tokens recovers exactly those tokens |
| Tokens.NumericToken | dschwartz/RPNCalculator/RPNCalculator.class.php:90-92 | a numeric token holds at least one digit, no space, and a sign only in front; so no token of an operator symbol alone is numeric, and splitting on spaces never cuts one |
| Tokens.ParseNumberSign | dschwartz/RPNCalculator/RPNCalculator.class.php:99-101 | an unsigned or '+'-signed numeric token denotes a non-negative number; after a sign the rest is numeric, '+' keeps its value and '-' negates it |
| Tokens.FractionLiteralRoundTrip | dschwartz/RPNCalculator/RPNCalculator.class.php:90-101 | "n.b", with n written in decimal and b any run of digits (leading zeros and empty b included), is numeric and reads back as n plus the value of b divided by 10 to the length of b |
| Tokens.IntegerLiteralRoundTrip | dschwartz/RPNCalculator/RPNCalculator.class.php:90-101 | the decimal digits of any natural number, bare or with a '+' or '-' sign, are numeric and read back as that number or its negation |
| RPNCalculator.FirstMatch | dschwartz/RPNCalculator/RPNCalculator.class.php:133-141 | the index found is the first table entry whose symbol occurs in the token; no earlier entry's symbol occurs; past the end means none occurs |
| RPNCalculator.Classify | dschwartz/RPNCalculator/RPNCalculator.class.php:61-67 | a token is a number, with the value it denotes, exactly when it is numeric; otherwise it is the operator GetOperator finds, or unrecognised when none is found |
| RPNCalculator.GetOperator | dschwartz/RPNCalculator/RPNCalculator.class.php:22-27 | the operator is + if the token contains '+', else - if it contains '-', else * if '*', else / if '/', and none exactly when it contains none of them |
| RPNCalculator.Calculator.constructor | dschwartz/RPNCalculator/RPNCalculator.class.php:33-36 | the calculator owns the given stack and that stack is empty afterwards, whatever it held |
| RPNCalculator.Calculator.GetStack | dschwartz/RPNCalculator/RPNCalculator.class.php:38-40 | returns the owned stack |
| RPNCalculator.Calculator.ProcessString | dschwartz/RPNCalculator/RPNCalculator.class.php:46-53 | the stack and result are those of `Evaluate`: tokens split on single spaces, processed left to right, stopping at the first error, then finalised |
| RPNCalculator.Calculator.ProcessInput | dschwartz/RPNCalculator/RPNCalculator.class.php:61-67 | a numeric token pushes its value; any other token is processed as an operator (`Step`) |
| RPNCalculator.Calculator.ProcessResult | dschwartz/RPNCalculator/RPNCalculator.class.php:75-82 | with one value: returns it and the stack is empty; with none: StackEmpty; with more: TooManyOperands and the top value is gone (`Finish`) |
| RPNCalculator.Calculator.ProcessOperand | dschwartz/RPNCalculator/RPNCalculator.class.php:99-101 | pushes exactly the token's value and changes nothing else |
| RPNCalculator.Calculator.ProcessOperator | dschwartz/RPNCalculator/RPNCalculator.class.php:114-126 | unknown symbol: UnknownOperator with the stack untouched; otherwise pops Arity values into a list, most recent first, and pushes the result; a short stack is emptied and fails with StackEmpty (`OperatorStep`) |
| CalculatorProperties.OperatorEffect | dschwartz/RPNCalculator/RPNCalculator.class.php:114-126 | StackEmpty exactly when fewer than Arity values are present, and then all of them are lost; otherwise the operator receives the top two most recent first, the values below are kept, and the length changes by 1 - Arity |
| CalculatorProperties.UnknownTokenKeepsStack | dschwartz/RPNCalculator/RPNCalculator.class.php:133-141 | a non-numeric token without any of + - * / (the empty token included) fails with UnknownOperator before any pop, leaving the stack as it was |
| CalculatorProperties.UnknownTokenStops | dschwartz/RPNCalculator/RPNCalculator.class.php:46-53 | once evaluation reaches an unrecognised token it stops there with UnknownOperator, and the stack is what the earlier tokens left |
| CalculatorProperties.RunAppend | dschwartz/RPNCalculator/RPNCalculator.class.php:48-50 | processing a + b is processing a and then, unless a failed, b on the stack a left |
| CalculatorProperties.RunFailureCause | dschwartz/RPNCalculator/RPNCalculator.class.php:48-50 | token processing never fails with TooManyOperands; UnknownOperator only at an unrecognised token the run reached with every earlier token processed without error (the converse of UnknownTokenStops); DivisionByZero only at a division token reached with the run still going and a zero divisor on top of the stack |
| CalculatorProperties.UnknownOperatorCause | dschwartz/RPNCalculator/RPNCalculator.class.php:46-53 | a run that fails with UnknownOperator reached an unrecognised token after an error-free prefix |
| CalculatorProperties.ZeroDivisorStops | dschwartz/RPNCalculator/RPNCalculator.class.php:48-50 | a division token reached with the run still going and a zero divisor on top stops processing with DivisionByZero |
| CalculatorProperties.RunCompletes | dschwartz/RPNCalculator/RPNCalculator.class.php:48-50 | if every token is recognised and operands always lead, processing fails at most with DivisionByZero and leaves start + operands - operators values |
| CalculatorProperties.RunOkIsLed | dschwartz/RPNCalculator/RPNCalculator.class.php:48-50 | processing that succeeds saw only recognised tokens, operands always led, and it leaves start + operands - operators values |
| CalculatorProperties.WellFormedFinalises | dschwartz/RPNCalculator/RPNCalculator.class.php:46-53 | a well-formed expression fails, if at all, only with DivisionByZero, and does so exactly when one of its divisions meets a zero divisor; with no such division it evaluates to a value and leaves the stack empty |
| CalculatorProperties.FinalisedIsWellFormed | dschwartz/RPNCalculator/RPNCalculator.class.php:46-53 | every expression that evaluates to a value is well formed |
| CalculatorProperties.SurplusOperandsRejected | dschwartz/RPNCalculator/RPNCalculator.class.php:75-82 | operands always lead but more than one value is left over: TooManyOperands, or DivisionByZero earlier and then only at a division meeting a zero divisor |
| CalculatorProperties.MissingOperandsRejected | dschwartz/RPNCalculator/RPNCalculator.class.php:118-121 | an operator reached before enough operands: StackEmpty, or DivisionByZero earlier and then only at a division meeting a zero divisor |
| CalculatorProperties.NumberStep | dschwartz/RPNCalculator/RPNCalculator.class.php:61-67 | feeding the decimal digits of any natural number pushes that number and nothing else |
| CalculatorProperties.SymbolsMatchTable | dschwartz/RPNCalculator/RPNCalculator.class.php:22-27 | the symbol written for each operator in the worked expressions is the one the operator table looks up for it |
| CalculatorProperties.SymbolStep | dschwartz/RPNCalculator/RPNCalculator.class.php:114-126 | feeding a lone operator symbol with at least two values present (and a non-zero divisor for /) replaces the top two, left below right, by `left op right` |
| CalculatorProperties.BinaryExpression | tests/CalculatorIntegrationTest.php:43-135 | for any numeric tokens x and y (with a non-zero divisor for /), "x y op" evaluates to the infix x op y with an empty stack |
| CalculatorProperties.SignedLiteralIsOperand | dschwartz/RPNCalculator/RPNCalculator.class.php:61-67 | "-5" is the operand -5 although it contains '-', while "5-" selects subtraction |
| CalculatorProperties.LookupExamples | dschwartz/RPNCalculator/RPNCalculator.class.php:133-141 | table order decides: "*-" is subtraction, "/+" addition, "x*" multiplication; "^" and "" match nothing |
| CalculatorProperties.LongExpression | tests/CalculatorIntegrationTest.php:173 | "5 1 2 + 4 * + 3 -" evaluates to 14 with an empty stack |
| CalculatorProperties.NestedExpression | tests/CalculatorIntegrationTest.php:172 | "2 5 4 + *" evaluates to 18 with an empty stack |
| CalculatorProperties.LiteralValues | tests/CalculatorIntegrationTest.php:89-117 | the tokens "0.5", "7" and "20" are numeric and read as 0.5, 7 and 20 |
| CalculatorProperties.FractionProduct | tests/CalculatorIntegrationTest.php:89 | "7 0.5 *" evaluates to 3.5 with an empty stack |
| CalculatorProperties.FractionQuotient | tests/CalculatorIntegrationTest.php:117 | "20 0.5 /" evaluates to 40 with an empty stack |
| CalculatorProperties.QuotientKept | tests/CalculatorIntegrationTest.php:171 | "19 4 /" evaluates to 4.75 |
| CalculatorProperties.TooManyOperandsExample | tests/CalculatorIntegrationTest.php:151-160 | "1 2 3 +" fails with TooManyOperands and leaves 1 on the stack |
| CalculatorProperties.DoubledSpaceExample | dschwartz/RPNCalculator/RPNCalculator.class.php:46-53 | "1  2 +" yields an empty token and fails with UnknownOperator after pushing 1 |

## Left out

- Division by zero. `DivisionOperator::operate` has no guard, and what PHP does
  then depends on its version: a warning and INF/NAN, or a thrown
  DivisionByZeroError. The model makes it an explicit fourth error,
  DivisionByZero, raised after both operands were popped. This is a deliberate
  divergence from the source.
- RPNOperators.Operate: exact real arithmetic instead of PHP's int/float
  arithmetic (64-bit integers that overflow to doubles, and doubles). There is
  no overflow, rounding, infinity or NaN.
- Tokens.IsNumeric, Tokens.ParseNumber: `is_numeric` is modelled only for an
  optional sign followed by decimal digits with at most one '.'. Exponent forms,
  hexadecimal and leading or trailing whitespace are not modelled, because the
  calculator's tests never use them. So where PHP pushes 1000 for "1e3" and
  0.001 for "1e-3", the model fails on "1e3" with UnknownOperator and reads
  "1e-3" as the subtraction operator.
- RPNCalculator.Calculator.ProcessOperand: the source pushes the token string
  and relies on PHP's numeric conversion when an operator uses it. The model
  pushes the number the token denotes.
- The PHP `RPNStack` constructor does nothing and leaves `$stack` null until
  `init` runs. The model's constructor starts from the empty sequence. The
  calculator always calls `init`, so this makes no difference through it.
- `RPNStack::__toString` is left out. It is display-only and depends on PHP's
  number-to-string formatting.
- `OperatorInterface` is replaced by the closed `Op` variant with `Arity` and
  `Operate`. Operators are stateless (each class's only field is the constant
  operand count), so they are modelled as functions.
- Regular expressions in `getOperator` are left out. Each pattern matches one
  literal character, so it is modelled as "the token contains this character".
- The command-line shell (calculator.php) is left out. This covers argument
  parsing, the interactive prompt loop, printing, and mapping errors to exit
  codes. The class autoloader (autoload.php) is also left out. Both are I/O
  around the core.
- The test doubles in the PHPUnit tests (mock stacks and the arity-1 mock
  operator) are not modelled. They are evidence for the properties above, not
  behaviour.
