/** The evaluator (RPNCalculator): the operator table and its lookup, the
    effect of each token on the stack as pure functions, and the calculator
    object whose methods drive an owned Stack and are proved against them. */
module RPNCalculator {
  import opened RPNErrors
  import opened RPNOperators
  import opened Tokens
  import opened RPNStack

  /** The ordered operator table: each pattern matches one character. */
  const OperatorTable: seq<(char, Op)> := [('+', Add), ('-', Sub), ('*', Mul), ('/', Div)]

  /** Index of the first entry whose symbol occurs in the token, or the
      table's length when none does. */
  function FirstMatch(table: seq<(char, Op)>, token: string): (k: nat)
    ensures k <= |table|
    ensures k < |table| ==> table[k].0 in token
    ensures forall j :: 0 <= j < k ==> table[j].0 !in token
  {
    if table == [] then 0
    else if table[0].0 in token then 0
    else 1 + FirstMatch(table[1..], token)
  }

  /** getOperator: the first operator, in the order + - * /, whose symbol
      occurs anywhere in the token. */
  function GetOperator(token: string): (r: Option<Op>)
    ensures r == Some(Add) <==> '+' in token
    ensures r == Some(Sub) <==> '+' !in token && '-' in token
    ensures r == Some(Mul) <==> '+' !in token && '-' !in token && '*' in token
    ensures r == Some(Div) <==> '+' !in token && '-' !in token && '*' !in token && '/' in token
    ensures r == None <==> '+' !in token && '-' !in token && '*' !in token && '/' !in token
  {
    var k := FirstMatch(OperatorTable, token);
    assert OperatorTable[0] == ('+', Add) && OperatorTable[1] == ('-', Sub);
    assert OperatorTable[2] == ('*', Mul) && OperatorTable[3] == ('/', Div);
    assert k > 0 ==> '+' !in token;
    assert k > 1 ==> '-' !in token;
    assert k > 2 ==> '*' !in token;
    assert k > 3 ==> '/' !in token;
    if k < |OperatorTable| then Some(OperatorTable[k].1) else None
  }

  /** How processInput classifies a token. */
  datatype Token = Number(value: real) | Operator(op: Op) | Unrecognised

  function Classify(t: string): (k: Token)
    ensures k.Number? <==> IsNumeric(t)
    ensures k.Number? ==> k.value == ParseNumber(t)
    ensures k.Operator? <==> !IsNumeric(t) && GetOperator(t).Some?
    ensures k.Operator? ==> GetOperator(t) == Some(k.op)
    ensures k.Unrecognised? <==> !IsNumeric(t) && GetOperator(t).None?
  {
    if IsNumeric(t) then Number(ParseNumber(t))
    else match GetOperator(t)
      case Some(op) => Operator(op)
      case None => Unrecognised
  }

  /** The stack after an operation, and what the operation produced. The
      stack is reported on failure too: errors do not roll back. */
  datatype Outcome<+T> = Outcome(stack: seq<real>, result: Result<T>)

  /** The operands an operator receives: the top `n` values, most recent first. */
  function TopArgs(s: seq<real>, n: nat): seq<real>
    requires n <= |s|
  {
    seq(n, k requires 0 <= k < n => s[|s| - 1 - k])
  }

  /** Pop `Arity(op)` values, apply the operator, push the result. Running out
      of values empties the stack and fails; the popped values are lost. */
  function ApplyOperator(s: seq<real>, op: Op): Outcome<()>
  {
    var n := Arity(op);
    if |s| < n then Outcome([], Fail(StackEmpty))
    else match Operate(op, TopArgs(s, n))
      case Ok(v) => Outcome(s[..|s| - n] + [v], Ok(()))
      case Fail(e) => Outcome(s[..|s| - n], Fail(e))
  }

  /** processOperator on an arbitrary token. */
  function OperatorStep(s: seq<real>, t: string): Outcome<()>
  {
    match GetOperator(t)
    case None => Outcome(s, Fail(UnknownOperator))
    case Some(op) => ApplyOperator(s, op)
  }

  /** processInput. */
  function Step(s: seq<real>, t: string): Outcome<()>
  {
    if IsNumeric(t) then Outcome(s + [ParseNumber(t)], Ok(())) else OperatorStep(s, t)
  }

  /** The tokens of processString, left to right, stopping at the first error. */
  function Run(s: seq<real>, ts: seq<string>): Outcome<()>
    decreases |ts|
  {
    if ts == [] then Outcome(s, Ok(()))
    else
      var o := Step(s, ts[0]);
      if o.result.Fail? then o else Run(o.stack, ts[1..])
  }

  /** processResult: pop the one value left; fail if none, or if more remain. */
  function Finish(s: seq<real>): Outcome<real>
  {
    if s == [] then Outcome([], Fail(StackEmpty))
    else if |s| > 1 then Outcome(s[..|s| - 1], Fail(TooManyOperands))
    else Outcome([], Ok(s[0]))
  }

  /** processString on a calculator whose stack holds `s`. */
  function Evaluate(s: seq<real>, exp: string): Outcome<real>
  {
    var o := Run(s, Explode(exp));
    if o.result.Fail? then Outcome(o.stack, Fail(o.result.error)) else Finish(o.stack)
  }

  /** processString on a freshly constructed calculator. */
  function Calculate(exp: string): Outcome<real>
  {
    Evaluate([], exp)
  }

  class Calculator {
    const stack: Stack<real>

    /** Take ownership of the stack and reset it. */
    constructor (s: Stack<real>)
      modifies s
      ensures stack == s && stack.elems == []
    {
      stack := s;
      new;
      s.Init();
    }

    method GetStack() returns (s: Stack<real>)
      ensures s == stack
    {
      s := stack;
    }

    method ProcessString(exp: string) returns (r: Result<real>)
      modifies stack
      ensures Outcome(stack.elems, r) == Evaluate(old(stack.elems), exp)
    {
      var tokens := Explode(exp);
      ghost var s0 := stack.elems;
      for i := 0 to |tokens|
        invariant Run(s0, tokens) == Run(stack.elems, tokens[i..])
      {
        assert tokens[i..][1..] == tokens[i + 1..];
        var step := ProcessInput(tokens[i]);
        if step.Fail? {
          return Fail(step.error);
        }
      }
      r := ProcessResult();
    }

    method ProcessInput(token: string) returns (r: Result<()>)
      modifies stack
      ensures Outcome(stack.elems, r) == Step(old(stack.elems), token)
    {
      if IsNumeric(token) {
        ProcessOperand(token);
        r := Ok(());
      } else {
        r := ProcessOperator(token);
      }
    }

    method ProcessResult() returns (r: Result<real>)
      modifies stack
      ensures Outcome(stack.elems, r) == Finish(old(stack.elems))
    {
      var popped := stack.Pop();
      if popped.Fail? {
        return Fail(popped.error);
      }
      var empty := stack.IsEmpty();
      if !empty {
        return Fail(TooManyOperands);
      }
      r := Ok(popped.value);
    }

    method ProcessOperand(token: string)
      requires IsNumeric(token)
      modifies stack
      ensures stack.elems == old(stack.elems) + [ParseNumber(token)]
    {
      stack.Push(ParseNumber(token));
    }

    method ProcessOperator(token: string) returns (r: Result<()>)
      modifies stack
      ensures Outcome(stack.elems, r) == OperatorStep(old(stack.elems), token)
    {
      var found := GetOperator(token);
      if found.None? {
        return Fail(UnknownOperator);
      }
      var op := found.value;
      ghost var s0 := stack.elems;
      var operands: seq<real> := [];
      var opCount := Arity(op);
      for i := 0 to opCount
        invariant |operands| == i <= |s0|
        invariant stack.elems == s0[..|s0| - i]
        invariant forall k :: 0 <= k < i ==> operands[k] == s0[|s0| - 1 - k]
      {
        var popped := stack.Pop();
        if popped.Fail? {
          return Fail(popped.error);
        }
        operands := operands + [popped.value];
      }
      assert operands == TopArgs(s0, opCount);
      var result := Operate(op, operands);
      if result.Fail? {
        return Fail(result.error);
      }
      stack.Push(result.value);
      r := Ok(());
    }
  }
}
