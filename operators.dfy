/** The operator classes (Addition, Subtraction, Multiplication, Division) as
    one closed variant. Each class holds only the constant operand count 2 and
    an `operate` over the operands in pop order: `args[0]` is the value pushed
    most recently. */
module RPNOperators {
  import opened RPNErrors

  datatype Op = Add | Sub | Mul | Div

  /** getOperandCount: every operator is binary. */
  function Arity(op: Op): (n: nat)
    ensures n == 2
  {
    2
  }

  /** operate(args), args in pop order. Division by a zero divisor is an
      explicit error in this model. */
  function Operate(op: Op, args: seq<real>): (r: Result<real>)
    requires |args| == Arity(op)
    ensures r.Fail? <==> op == Div && args[0] == 0.0
    ensures r.Fail? ==> r.error == DivisionByZero
  {
    match op
    case Add => Ok(args[0] + args[1])
    case Sub => Ok(args[1] - args[0])
    case Mul => Ok(args[0] * args[1])
    case Div => if args[0] == 0.0 then Fail(DivisionByZero) else Ok(args[1] / args[0])
  }

  /** The conventional infix reading `left op right`, independent of the
      pop-order encoding above. */
  function Infix(op: Op, left: real, right: real): real
    requires op == Div ==> right != 0.0
  {
    match op
    case Add => left + right
    case Sub => left - right
    case Mul => left * right
    case Div => left / right
  }

  /** Pop order puts the right operand first: `left right op` means
      `left op right`, so the earlier-pushed value is the minuend and the
      dividend. */
  lemma OperateIsInfix(op: Op, left: real, right: real)
    requires op == Div ==> right != 0.0
    ensures Operate(op, [right, left]).Ok?
    ensures Operate(op, [right, left]).value == Infix(op, left, right)
  {
  }

  /** Multiplication does not depend on operand order. */
  lemma MultiplicationCommutes(a: real, b: real)
    ensures Operate(Mul, [a, b]).value == Operate(Mul, [b, a]).value
  {
  }

  /** Subtraction and division are order-sensitive, and a non-integral
      quotient is kept. */
  lemma OrderSensitiveExamples()
    ensures Operate(Sub, [5.0, 10.0]) == Ok(5.0)
    ensures Operate(Sub, [20.0, 12.0]) == Ok(-8.0)
    ensures Operate(Div, [7.0, 21.0]) == Ok(3.0)
    ensures Operate(Div, [0.5, 20.0]) == Ok(40.0)
    ensures Operate(Div, [4.0, 19.0]) == Ok(4.75)
    ensures Operate(Mul, [0.5, 7.0]) == Ok(3.5)
  {
  }
}
