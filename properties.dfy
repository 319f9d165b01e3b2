/** What the evaluator promises about whole expressions: which token
    sequences finalise, which error each malformed shape produces, and the
    values of the expressions the integration tests exercise. */
module CalculatorProperties {
  import opened RPNErrors
  import opened RPNOperators
  import opened Tokens
  import opened RPNCalculator

  /** Number of tokens read as operands. */
  function Operands(ts: seq<string>): nat
  {
    if ts == [] then 0 else (if Classify(ts[0]).Number? then 1 else 0) + Operands(ts[1..])
  }

  /** Number of tokens read as (binary) operators. */
  function Operators(ts: seq<string>): nat
  {
    if ts == [] then 0 else (if Classify(ts[0]).Operator? then 1 else 0) + Operators(ts[1..])
  }

  /** Every token is an operand or contains an operator symbol. */
  predicate Recognised(ts: seq<string>)
  {
    forall i :: 0 <= i < |ts| ==> !Classify(ts[i]).Unrecognised?
  }

  /** Starting from `h` values, every non-empty prefix leaves more values
      than its operators consumed: no operator ever meets a short stack. */
  predicate OperandsLead(h: nat, ts: seq<string>)
  {
    forall i :: 0 < i <= |ts| ==> Operators(ts[..i]) < h + Operands(ts[..i])
  }

  /** A well-formed RPN expression: all tokens recognised, every prefix has
      more operands than operators, and one more operand than operators in all. */
  predicate WellFormed(ts: seq<string>)
  {
    Recognised(ts) && OperandsLead(0, ts) && Operands(ts) == Operators(ts) + 1
  }

  /** The counts of a prefix of length i + 1 split into its first token and
      the rest. */
  lemma PrefixCounts(ts: seq<string>, i: nat)
    requires i < |ts|
    ensures Operands(ts[..i + 1]) == (if Classify(ts[0]).Number? then 1 else 0) + Operands(ts[1..][..i])
    ensures Operators(ts[..i + 1]) == (if Classify(ts[0]).Operator? then 1 else 0) + Operators(ts[1..][..i])
  {
    var p := ts[..i + 1];
    assert p[0] == ts[0];
    assert p[1..] == ts[1..][..i];
  }

  /** Running a concatenation is running the first part, then, unless it
      failed, the second part on the stack it left. */
  lemma {:induction false} RunAppend(s: seq<real>, a: seq<string>, b: seq<string>)
    ensures Run(s, a + b) ==
              (var o := Run(s, a); if o.result.Fail? then o else Run(o.stack, b))
    decreases |a|
  {
    if a == [] {
      assert a + b == b;
    } else {
      assert (a + b)[0] == a[0];
      assert (a + b)[1..] == a[1..] + b;
      var o := Step(s, a[0]);
      if o.result.Ok? {
        RunAppend(o.stack, a[1..], b);
      }
    }
  }

  /** Token `i` is a division reached with the run still going, on a stack
      whose top value, the divisor, is zero. */
  predicate ZeroDivisorAt(s: seq<real>, ts: seq<string>, i: nat)
  {
    && i < |ts|
    && Classify(ts[i]) == Operator(Div)
    && var o := Run(s, ts[..i]);
    && o.result.Ok?
    && |o.stack| >= 2
    && o.stack[|o.stack| - 1] == 0.0
  }

  /** Token `i` is unrecognised and reached with the run still going. */
  predicate UnknownAt(s: seq<real>, ts: seq<string>, i: nat)
  {
    && i < |ts|
    && Classify(ts[i]).Unrecognised?
    && Run(s, ts[..i]).result.Ok?
  }

  /** A failing run fails with StackEmpty, UnknownOperator or DivisionByZero,
      never TooManyOperands; UnknownOperator only at an unrecognised token,
      DivisionByZero only at a division whose divisor is zero. */
  lemma {:induction false} RunFailureCause(s: seq<real>, ts: seq<string>)
    ensures Run(s, ts).result != Fail(TooManyOperands)
    ensures Run(s, ts).result == Fail(UnknownOperator) ==>
              exists i: nat :: UnknownAt(s, ts, i)
    ensures Run(s, ts).result == Fail(DivisionByZero) ==>
              exists i: nat :: ZeroDivisorAt(s, ts, i)
    decreases |ts|
  {
    if ts != [] {
      var o := Step(s, ts[0]);
      if o.result.Ok? {
        RunFailureCause(o.stack, ts[1..]);
      }
    }
    UnknownOperatorCause(s, ts);
    DivisionByZeroCause(s, ts);
  }

  /** A run that fails with UnknownOperator reached an unrecognised token. */
  lemma {:induction false} UnknownOperatorCause(s: seq<real>, ts: seq<string>)
    ensures Run(s, ts).result == Fail(UnknownOperator) ==>
              exists i: nat :: UnknownAt(s, ts, i)
    decreases |ts|
  {
    if ts != [] && Run(s, ts).result == Fail(UnknownOperator) {
      var o := Step(s, ts[0]);
      if o.result.Ok? {
        UnknownOperatorCause(o.stack, ts[1..]);
        var j: nat :| UnknownAt(o.stack, ts[1..], j);
        PrefixRun(s, ts, j);
        assert UnknownAt(s, ts, j + 1);
      } else {
        assert UnknownAt(s, ts, 0) by {
          assert ts[..0] == [];
        }
      }
    }
  }

  /** A prefix of j + 1 tokens runs as its first token followed by the next j. */
  lemma PrefixRun(s: seq<real>, ts: seq<string>, j: nat)
    requires j < |ts| - 1 && Step(s, ts[0]).result.Ok?
    ensures Run(s, ts[..j + 1]) == Run(Step(s, ts[0]).stack, ts[1..][..j])
    ensures ts[j + 1] == ts[1..][j]
  {
    var p := ts[..j + 1];
    assert p[0] == ts[0];
    assert p[1..] == ts[1..][..j];
  }

  /** A run that fails with DivisionByZero met a zero divisor at some
      division token. */
  lemma {:induction false} DivisionByZeroCause(s: seq<real>, ts: seq<string>)
    ensures Run(s, ts).result == Fail(DivisionByZero) ==>
              exists i: nat :: ZeroDivisorAt(s, ts, i)
    decreases |ts|
  {
    if ts != [] && Run(s, ts).result == Fail(DivisionByZero) {
      var o := Step(s, ts[0]);
      if o.result.Ok? {
        DivisionByZeroCause(o.stack, ts[1..]);
        var j: nat :| ZeroDivisorAt(o.stack, ts[1..], j);
        ZeroDivisorLater(s, ts, j);
      } else {
        ZeroDivisorFirst(s, ts);
      }
    }
  }

  lemma ZeroDivisorFirst(s: seq<real>, ts: seq<string>)
    requires ts != [] && Step(s, ts[0]).result == Fail(DivisionByZero)
    ensures ZeroDivisorAt(s, ts, 0)
  {
    assert ts[..0] == [];
  }

  lemma ZeroDivisorLater(s: seq<real>, ts: seq<string>, j: nat)
    requires ts != [] && Step(s, ts[0]).result.Ok?
    requires ZeroDivisorAt(Step(s, ts[0]).stack, ts[1..], j)
    ensures ZeroDivisorAt(s, ts, j + 1)
  {
    PrefixRun(s, ts, j);
  }

  /** Conversely, a division that meets a zero divisor stops the run with
      DivisionByZero. */
  lemma ZeroDivisorStops(s: seq<real>, ts: seq<string>, i: nat)
    requires ZeroDivisorAt(s, ts, i)
    ensures Run(s, ts).result == Fail(DivisionByZero)
  {
    var st := Run(s, ts[..i]).stack;
    assert Step(st, ts[i]).result == Fail(DivisionByZero) by {
      assert TopArgs(st, 2)[0] == 0.0;
    }
    assert Run(st, ts[i..]).result == Fail(DivisionByZero) by {
      assert ts[i..][0] == ts[i];
    }
    assert ts == ts[..i] + ts[i..];
    RunAppend(s, ts[..i], ts[i..]);
  }

  /** When operands always lead, the run cannot fail for want of operands or
      for an unknown token, and it leaves exactly
      |s| + operands - operators values. */
  lemma {:induction false} RunCompletes(s: seq<real>, ts: seq<string>)
    requires Recognised(ts) && OperandsLead(|s|, ts)
    ensures Run(s, ts).result.Ok? || Run(s, ts).result == Fail(DivisionByZero)
    ensures Run(s, ts).result.Ok? ==> |Run(s, ts).stack| + Operators(ts) == |s| + Operands(ts)
    decreases |ts|
  {
    if ts != [] {
      var t, rest := ts[0], ts[1..];
      PrefixCounts(ts, 0);
      assert ts[1..][..0] == [];
      assert Classify(ts[0]) == Classify(t);
      forall i | 0 <= i < |rest|
        ensures Classify(rest[i]) == Classify(ts[i + 1])
      {
      }
      var o := Step(s, t);
      if o.result.Ok? {
        assert Recognised(rest);
        var h := |o.stack|;
        assert Classify(t).Number? ==> h == |s| + 1;
        assert Classify(t).Operator? ==> h + 1 == |s|;
        forall i | 0 < i <= |rest|
          ensures Operators(rest[..i]) < h + Operands(rest[..i])
        {
          PrefixCounts(ts, i);
          assert 0 < i + 1 <= |ts|;
        }
        RunCompletes(o.stack, rest);
      }
    }
  }

  /** Conversely, a run that succeeds met only recognised tokens, never an
      operator on a short stack, and leaves |s| + operands - operators values. */
  lemma {:induction false} RunOkIsLed(s: seq<real>, ts: seq<string>)
    requires Run(s, ts).result.Ok?
    ensures Recognised(ts) && OperandsLead(|s|, ts)
    ensures |Run(s, ts).stack| + Operators(ts) == |s| + Operands(ts)
    decreases |ts|
  {
    if ts != [] {
      var t, rest := ts[0], ts[1..];
      var o := Step(s, t);
      assert o.result.Ok?;
      RunOkIsLed(o.stack, rest);
      var h := |o.stack|;
      assert !Classify(t).Unrecognised?;
      assert Classify(t).Number? ==> h == |s| + 1;
      assert Classify(t).Operator? ==> h + 1 == |s| && |s| >= 2;
      forall i | 0 <= i < |ts|
        ensures !Classify(ts[i]).Unrecognised?
      {
        if i > 0 {
          assert ts[i] == rest[i - 1];
        }
      }
      forall i | 0 < i <= |ts|
        ensures Operators(ts[..i]) < |s| + Operands(ts[..i])
      {
        PrefixCounts(ts, i - 1);
        if i > 1 {
          assert 0 < i - 1 <= |rest|;
        } else {
          assert rest[..0] == [];
        }
      }
    }
  }

  /** A well-formed expression finalises, with an empty stack, unless one of
      its divisions meets a zero divisor; then, and only then, it fails with
      DivisionByZero. */
  lemma WellFormedFinalises(exp: string)
    requires WellFormed(Explode(exp))
    ensures Calculate(exp).result.Ok? || Calculate(exp).result == Fail(DivisionByZero)
    ensures Calculate(exp).result == Fail(DivisionByZero) <==>
              exists i: nat :: ZeroDivisorAt([], Explode(exp), i)
    ensures (forall i: nat :: !ZeroDivisorAt([], Explode(exp), i)) ==>
              Calculate(exp).result.Ok? && Calculate(exp).stack == []
  {
    var ts := Explode(exp);
    RunCompletes([], ts);
    RunFailureCause([], ts);
    if exists i: nat :: ZeroDivisorAt([], ts, i) {
      var i: nat :| ZeroDivisorAt([], ts, i);
      ZeroDivisorStops([], ts, i);
      assert ZeroDivisorAt([], Explode(exp), i);
    }
  }

  /** Only well-formed expressions finalise. */
  lemma FinalisedIsWellFormed(exp: string)
    ensures Calculate(exp).result.Ok? ==> WellFormed(Explode(exp))
  {
    if Run([], Explode(exp)).result.Ok? {
      RunOkIsLed([], Explode(exp));
    }
  }

  /** Too many operands for the operators: TooManyOperands at finalisation,
      unless a division by zero stopped the run first. */
  lemma SurplusOperandsRejected(exp: string)
    requires Recognised(Explode(exp)) && OperandsLead(0, Explode(exp))
    requires Operands(Explode(exp)) > Operators(Explode(exp)) + 1
    ensures Calculate(exp).result == Fail(TooManyOperands) || Calculate(exp).result == Fail(DivisionByZero)
    ensures Calculate(exp).result == Fail(DivisionByZero) ==>
              exists i: nat :: ZeroDivisorAt([], Explode(exp), i)
  {
    RunCompletes([], Explode(exp));
    RunFailureCause([], Explode(exp));
  }

  /** An operator reached before enough operands were pushed: StackEmpty,
      unless a division by zero stopped the run first. */
  lemma MissingOperandsRejected(exp: string)
    requires Recognised(Explode(exp)) && !OperandsLead(0, Explode(exp))
    ensures Calculate(exp).result == Fail(StackEmpty) || Calculate(exp).result == Fail(DivisionByZero)
    ensures Calculate(exp).result == Fail(DivisionByZero) ==>
              exists i: nat :: ZeroDivisorAt([], Explode(exp), i)
  {
    var ts := Explode(exp);
    if Run([], ts).result.Ok? {
      RunOkIsLed([], ts);
      assert false;
    }
    RunFailureCause([], ts);
    var e := Run([], ts).result.error;
    assert e != UnknownOperator;
    assert Calculate(exp).result == Fail(e);
  }

  /** An unrecognised token reached with the run still going fails with
      UnknownOperator and leaves the stack exactly as the prefix left it. */
  lemma UnknownTokenStops(s: seq<real>, ts: seq<string>, i: nat)
    requires i < |ts| && Classify(ts[i]).Unrecognised?
    requires Run(s, ts[..i]).result.Ok?
    ensures Run(s, ts) == Outcome(Run(s, ts[..i]).stack, Fail(UnknownOperator))
  {
    assert ts == ts[..i] + ts[i..];
    RunAppend(s, ts[..i], ts[i..]);
  }

  /** A token with no operator character and no numeric reading fails before
      any pop; the empty token from a doubled space is one of them. */
  lemma UnknownTokenKeepsStack(s: seq<real>, t: string)
    requires !IsNumeric(t)
    requires '+' !in t && '-' !in t && '*' !in t && '/' !in t
    ensures Step(s, t) == Outcome(s, Fail(UnknownOperator))
    ensures Step(s, "") == Outcome(s, Fail(UnknownOperator))
  {
  }

  /** The effect of one operator on the stack: StackEmpty exactly when fewer
      than Arity(op) values are present (and then they are all lost);
      otherwise the top two values go to the operator most recent first, and
      the result replaces them, so the length changes by 1 - Arity(op). */
  lemma OperatorEffect(s: seq<real>, op: Op)
    ensures ApplyOperator(s, op).result == Fail(StackEmpty) <==> |s| < Arity(op)
    ensures |s| < Arity(op) ==> ApplyOperator(s, op).stack == []
    ensures |s| >= Arity(op) ==>
              var o := ApplyOperator(s, op);
              var args := TopArgs(s, Arity(op));
              && args == [s[|s| - 1], s[|s| - 2]]
              && (o.result.Ok? <==> Operate(op, args).Ok?)
              && (o.result.Ok? ==>
                    && |o.stack| == |s| + 1 - Arity(op)
                    && o.stack[..|s| - Arity(op)] == s[..|s| - Arity(op)]
                    && o.stack[|o.stack| - 1] == Operate(op, args).value)
              && (o.result.Fail? ==> o.stack == s[..|s| - Arity(op)])
  {
  }

  /** The single character that selects each operator, as listed in
      OperatorTable (SymbolsMatchTable). */
  function Symbol(op: Op): char
  {
    match op
    case Add => '+'
    case Sub => '-'
    case Mul => '*'
    case Div => '/'
  }

  /** Symbol agrees with the operator table entry by entry. */
  lemma SymbolsMatchTable()
    ensures forall k :: 0 <= k < |OperatorTable| ==> Symbol(OperatorTable[k].1) == OperatorTable[k].0
  {
    assert OperatorTable[0] == ('+', Add) && OperatorTable[1] == ('-', Sub);
    assert OperatorTable[2] == ('*', Mul) && OperatorTable[3] == ('/', Div);
  }

  /** A token made of an operator's symbol alone is not numeric and selects
      that operator. */
  lemma SymbolIsOperator(op: Op)
    ensures Classify([Symbol(op)]) == Operator(op)
  {
    var u := [Symbol(op)];
    if u[0] == '+' || u[0] == '-' {
      assert u[1..] == [];
    } else {
      assert DotIndex(u) == 1 || DotIndex(u) == 0;
      assert u[..1] == u;
    }
  }

  /** Feeding the decimal digits of n pushes n. */
  lemma NumberStep(s: seq<real>, n: nat)
    ensures Step(s, Decimal(n)) == Outcome(s + [n as real], Ok(()))
  {
    IntegerLiteralRoundTrip(n);
  }

  /** Feeding an operator symbol replaces the top two values, left below
      right, by `left op right`. */
  lemma SymbolStep(s: seq<real>, op: Op)
    requires |s| >= 2
    requires op == Div ==> s[|s| - 1] != 0.0
    ensures Step(s, [Symbol(op)]) ==
              Outcome(s[..|s| - 2] + [Infix(op, s[|s| - 2], s[|s| - 1])], Ok(()))
  {
    SymbolIsOperator(op);
    OperateIsInfix(op, s[|s| - 2], s[|s| - 1]);
    assert TopArgs(s, 2) == [s[|s| - 1], s[|s| - 2]];
  }

  /** "x y op" splits into its three tokens. */
  lemma BinaryTokens(x: string, y: string, op: Op)
    requires IsNumeric(x) && IsNumeric(y)
    ensures Explode(x + " " + y + " " + [Symbol(op)]) == [x, y, [Symbol(op)]]
  {
    var ts := [x, y, [Symbol(op)]];
    NumericToken(x);
    NumericToken(y);
    assert ts[1..][1..] == [[Symbol(op)]];
    assert Join(ts[1..]) == y + " " + [Symbol(op)];
    assert Join(ts) == x + " " + (y + " " + [Symbol(op)]);
    assert x + " " + (y + " " + [Symbol(op)]) == x + " " + y + " " + [Symbol(op)];
    ExplodeJoin(ts);
  }

  /** The three tokens of "x y op" leave exactly `x op y`. */
  lemma BinaryRun(x: string, y: string, op: Op)
    requires IsNumeric(x) && IsNumeric(y)
    requires op == Div ==> ParseNumber(y) != 0.0
    ensures Run([], [x, y, [Symbol(op)]]) ==
              Outcome([Infix(op, ParseNumber(x), ParseNumber(y))], Ok(()))
  {
    var a, b := ParseNumber(x), ParseNumber(y);
    var v := Infix(op, a, b);
    var t2: seq<string> := [[Symbol(op)]];
    var t1 := [y] + t2;
    assert [x, y, [Symbol(op)]] == [x] + t1;
    assert Run([a, b], t2) == Outcome([v], Ok(())) by {
      SymbolStep([a, b], op);
      assert [a, b][..0] + [v] == [v];
      assert t2 == [[Symbol(op)]] + [];
      RunStep([a, b], [Symbol(op)], [], [v]);
    }
    RunStep([a], y, t2, [a, b]);
    RunStep([], x, t1, [a]);
  }

  /** "x y op" evaluates to x op y in the usual infix reading, for any two
      numeric tokens (a zero divisor excepted). */
  lemma BinaryExpression(x: string, y: string, op: Op)
    requires IsNumeric(x) && IsNumeric(y)
    requires op == Div ==> ParseNumber(y) != 0.0
    ensures Calculate(x + " " + y + " " + [Symbol(op)]) ==
              Outcome([], Ok(Infix(op, ParseNumber(x), ParseNumber(y))))
  {
    BinaryTokens(x, y, op);
    BinaryRun(x, y, op);
  }

  /** A signed literal such as "-5" is an operand even though it contains '-'. */
  lemma SignedLiteralIsOperand()
    ensures Classify("-5") == Number(-5.0)
    ensures Classify("5-") == Operator(Sub)
  {
    IntegerLiteralRoundTrip(5);
    assert Decimal(5) == "5";
    assert "-" + Decimal(5) == "-5";
  }

  /** Table order, not position in the token, decides the operator. */
  lemma LookupExamples()
    ensures GetOperator("*-") == Some(Sub)
    ensures GetOperator("/+") == Some(Add)
    ensures GetOperator("x*") == Some(Mul)
    ensures GetOperator("^") == None
    ensures GetOperator("") == None
  {
  }

  lemma RunStep(s: seq<real>, t: string, rest: seq<string>, s': seq<real>)
    requires Step(s, t) == Outcome(s', Ok(()))
    ensures Run(s, [t] + rest) == Run(s', rest)
  {
    assert ([t] + rest)[1..] == rest;
  }

  // Worked expressions. Each one is proved token by token: the steps lemmas
  // fix the stack after every token, a run lemma chains them, and the
  // top-level lemma takes the expression as a parameter `e` required to equal
  // the string. Stating the literal only in that requires, rather than in the
  // ensures, keeps the verifier from unfolding Explode, Classify and
  // ParseNumber on the literal in every proof that mentions it, which it
  // would otherwise do eagerly and at great cost.

  lemma LongExpressionSteps1()
    ensures Step([], "5") == Outcome([5.0], Ok(()))
    ensures Step([5.0], "1") == Outcome([5.0, 1.0], Ok(()))
    ensures Step([5.0, 1.0], "2") == Outcome([5.0, 1.0, 2.0], Ok(()))
  {
    NumberStep([], 5);
    NumberStep([5.0], 1);
    NumberStep([5.0, 1.0], 2);
  }

  lemma LongExpressionSteps2()
    ensures Step([5.0, 1.0, 2.0], "+") == Outcome([5.0, 3.0], Ok(()))
    ensures Step([5.0, 3.0], "4") == Outcome([5.0, 3.0, 4.0], Ok(()))
    ensures Step([5.0, 3.0, 4.0], "*") == Outcome([5.0, 12.0], Ok(()))
  {
    SymbolStep([5.0, 1.0, 2.0], Add);
    assert [Symbol(Add)] == "+";
    NumberStep([5.0, 3.0], 4);
    SymbolStep([5.0, 3.0, 4.0], Mul);
    assert [Symbol(Mul)] == "*";
  }

  lemma LongExpressionSteps3()
    ensures Step([5.0, 12.0], "+") == Outcome([17.0], Ok(()))
    ensures Step([17.0], "3") == Outcome([17.0, 3.0], Ok(()))
    ensures Step([17.0, 3.0], "-") == Outcome([14.0], Ok(()))
  {
    SymbolStep([5.0, 12.0], Add);
    assert [Symbol(Add)] == "+";
    NumberStep([17.0], 3);
    SymbolStep([17.0, 3.0], Sub);
    assert [Symbol(Sub)] == "-";
  }

  lemma LongExpressionTokens(e: string, t0: seq<string>)
    requires e == "5 1 2 + 4 * + 3 -"
    requires t0 == ["5", "1", "2", "+", "4", "*", "+", "3", "-"]
    ensures Explode(e) == t0
  {
    var t8 := ["-"];
    var t7 := ["3"] + t8;
    var t6 := ["+"] + t7;
    var t5 := ["*"] + t6;
    var t4 := ["4"] + t5;
    var t3 := ["+"] + t4;
    var t2 := ["2"] + t3;
    var t1 := ["1"] + t2;
    assert t0 == ["5"] + t1;
    var e8 := "-";
    var e7 := "3" + " " + e8;
    var e6 := "+" + " " + e7;
    var e5 := "*" + " " + e6;
    var e4 := "4" + " " + e5;
    var e3 := "+" + " " + e4;
    var e2 := "2" + " " + e3;
    var e1 := "1" + " " + e2;
    assert e == "5" + " " + e1;
    ExplodeWord(e8);
    ExplodeAfterWord("3", e8);
    ExplodeAfterWord("+", e7);
    ExplodeAfterWord("*", e6);
    ExplodeAfterWord("4", e5);
    ExplodeAfterWord("+", e4);
    ExplodeAfterWord("2", e3);
    ExplodeAfterWord("1", e2);
    ExplodeAfterWord("5", e1);
  }

  lemma LongExpressionRun(t0: seq<string>)
    requires t0 == ["5", "1", "2", "+", "4", "*", "+", "3", "-"]
    ensures Run([], t0) == Outcome([14.0], Ok(()))
  {
    var t9: seq<string> := [];
    var t8 := ["-"] + t9;
    var t7 := ["3"] + t8;
    var t6 := ["+"] + t7;
    var t5 := ["*"] + t6;
    var t4 := ["4"] + t5;
    var t3 := ["+"] + t4;
    var t2 := ["2"] + t3;
    var t1 := ["1"] + t2;
    assert t0 == ["5"] + t1;
    var o := Outcome([14.0], Ok(()));
    assert Run([17.0], t7) == o by {
      LongExpressionSteps3();
      RunStep([17.0, 3.0], "-", t9, [14.0]);
      RunStep([17.0], "3", t8, [17.0, 3.0]);
    }
    assert Run([5.0, 3.0, 4.0], t5) == o by {
      LongExpressionSteps2();
      LongExpressionSteps3();
      RunStep([5.0, 12.0], "+", t7, [17.0]);
      RunStep([5.0, 3.0, 4.0], "*", t6, [5.0, 12.0]);
    }
    assert Run([5.0, 1.0, 2.0], t3) == o by {
      LongExpressionSteps2();
      RunStep([5.0, 3.0], "4", t5, [5.0, 3.0, 4.0]);
      RunStep([5.0, 1.0, 2.0], "+", t4, [5.0, 3.0]);
    }
    assert Run([], t0) == o by {
      LongExpressionSteps1();
      RunStep([5.0, 1.0], "2", t3, [5.0, 1.0, 2.0]);
      RunStep([5.0], "1", t2, [5.0, 1.0]);
      RunStep([], "5", t1, [5.0]);
    }
  }

  /** "5 1 2 + 4 * + 3 -" evaluates to 14. */
  lemma LongExpression(e: string)
    requires e == "5 1 2 + 4 * + 3 -"
    ensures Calculate(e) == Outcome([], Ok(14.0))
  {
    var ts := ["5", "1", "2", "+", "4", "*", "+", "3", "-"];
    LongExpressionTokens(e, ts);
    LongExpressionRun(ts);
  }

  lemma QuotientSteps()
    ensures Step([], "19") == Outcome([19.0], Ok(()))
    ensures Step([19.0], "4") == Outcome([19.0, 4.0], Ok(()))
    ensures Step([19.0, 4.0], "/") == Outcome([4.75], Ok(()))
  {
    NumberStep([], 19);
    assert Decimal(19) == "19";
    NumberStep([19.0], 4);
    SymbolStep([19.0, 4.0], Div);
    assert [Symbol(Div)] == "/";
  }

  lemma QuotientRun(ts: seq<string>)
    requires ts == ["19", "4", "/"]
    ensures Run([], ts) == Outcome([4.75], Ok(()))
  {
    var t3: seq<string> := [];
    var t2 := ["/"] + t3;
    var t1 := ["4"] + t2;
    assert ts == ["19"] + t1;
    QuotientSteps();
    RunStep([19.0, 4.0], "/", t3, [4.75]);
    RunStep([19.0], "4", t2, [19.0, 4.0]);
    RunStep([], "19", t1, [19.0]);
  }

  /** "19 4 /" keeps the non-integral quotient 4.75. */
  lemma QuotientKept(e: string)
    requires e == "19 4 /"
    ensures Calculate(e) == Outcome([], Ok(4.75))
  {
    var ts := ["19", "4", "/"];
    assert Join(ts) == e;
    ExplodeJoin(ts);
    QuotientRun(ts);
  }

  lemma SurplusSteps1()
    ensures Step([], "1") == Outcome([1.0], Ok(()))
    ensures Step([1.0], "2") == Outcome([1.0, 2.0], Ok(()))
  {
    NumberStep([], 1);
    NumberStep([1.0], 2);
  }

  lemma SurplusSteps2()
    ensures Step([1.0, 2.0], "3") == Outcome([1.0, 2.0, 3.0], Ok(()))
    ensures Step([1.0, 2.0, 3.0], "+") == Outcome([1.0, 5.0], Ok(()))
  {
    NumberStep([1.0, 2.0], 3);
    SymbolStep([1.0, 2.0, 3.0], Add);
    assert [Symbol(Add)] == "+";
  }

  lemma SurplusRun(ts: seq<string>)
    requires ts == ["1", "2", "3", "+"]
    ensures Run([], ts) == Outcome([1.0, 5.0], Ok(()))
  {
    var t4: seq<string> := [];
    var t3 := ["+"] + t4;
    var t2 := ["3"] + t3;
    var t1 := ["2"] + t2;
    assert ts == ["1"] + t1;
    SurplusSteps1();
    SurplusSteps2();
    RunStep([1.0, 2.0, 3.0], "+", t4, [1.0, 5.0]);
    RunStep([1.0, 2.0], "3", t3, [1.0, 2.0, 3.0]);
    RunStep([1.0], "2", t2, [1.0, 2.0]);
    RunStep([], "1", t1, [1.0]);
  }

  /** "1 2 3 +" leaves 1 and 5 on the stack: TooManyOperands, and the popped
      5 is gone. */
  lemma TooManyOperandsExample(e: string)
    requires e == "1 2 3 +"
    ensures Calculate(e) == Outcome([1.0], Fail(TooManyOperands))
  {
    var ts := ["1", "2", "3", "+"];
    assert Join(ts) == e;
    ExplodeJoin(ts);
    SurplusRun(ts);
  }

  lemma DoubledSpaceRun(ts: seq<string>)
    requires ts == ["1", "", "2", "+"]
    ensures Run([], ts) == Outcome([1.0], Fail(UnknownOperator))
  {
    assert Step([], "1") == Outcome([1.0], Ok(()));
    assert Step([1.0], "") == Outcome([1.0], Fail(UnknownOperator));
    RunStep([], "1", ["", "2", "+"], [1.0]);
    assert ts == ["1"] + ["", "2", "+"];
  }

  /** A doubled space yields an empty token, which is an unknown operator. */
  lemma DoubledSpaceExample(e: string)
    requires e == "1  2 +"
    ensures Calculate(e) == Outcome([1.0], Fail(UnknownOperator))
  {
    var ts := ["1", "", "2", "+"];
    assert Join(ts) == e;
    ExplodeJoin(ts);
    DoubledSpaceRun(ts);
  }

  lemma NestedSteps1()
    ensures Step([], "2") == Outcome([2.0], Ok(()))
    ensures Step([2.0], "5") == Outcome([2.0, 5.0], Ok(()))
    ensures Step([2.0, 5.0], "4") == Outcome([2.0, 5.0, 4.0], Ok(()))
  {
    NumberStep([], 2);
    NumberStep([2.0], 5);
    NumberStep([2.0, 5.0], 4);
  }

  lemma NestedSteps2()
    ensures Step([2.0, 5.0, 4.0], "+") == Outcome([2.0, 9.0], Ok(()))
    ensures Step([2.0, 9.0], "*") == Outcome([18.0], Ok(()))
  {
    SymbolStep([2.0, 5.0, 4.0], Add);
    assert [Symbol(Add)] == "+";
    SymbolStep([2.0, 9.0], Mul);
    assert [Symbol(Mul)] == "*";
  }

  lemma NestedRun(ts: seq<string>)
    requires ts == ["2", "5", "4", "+", "*"]
    ensures Run([], ts) == Outcome([18.0], Ok(()))
  {
    var t5: seq<string> := [];
    var t4 := ["*"] + t5;
    var t3 := ["+"] + t4;
    var t2 := ["4"] + t3;
    var t1 := ["5"] + t2;
    assert ts == ["2"] + t1;
    NestedSteps1();
    NestedSteps2();
    RunStep([2.0, 9.0], "*", t5, [18.0]);
    RunStep([2.0, 5.0, 4.0], "+", t4, [2.0, 9.0]);
    RunStep([2.0, 5.0], "4", t3, [2.0, 5.0, 4.0]);
    RunStep([2.0], "5", t2, [2.0, 5.0]);
    RunStep([], "2", t1, [2.0]);
  }

  /** "2 5 4 + *" evaluates to 18: the sum is formed before the product. */
  lemma NestedExpression(e: string)
    requires e == "2 5 4 + *"
    ensures Calculate(e) == Outcome([], Ok(18.0))
  {
    var ts := ["2", "5", "4", "+", "*"];
    assert Join(ts) == e;
    ExplodeJoin(ts);
    NestedRun(ts);
  }

  /** "0.5" reads as one half, "7" and "20" as themselves. */
  lemma LiteralValues()
    ensures IsNumeric("0.5") && ParseNumber("0.5") == 0.5
    ensures IsNumeric("7") && ParseNumber("7") == 7.0
    ensures IsNumeric("20") && ParseNumber("20") == 20.0
  {
    FractionLiteralRoundTrip(0, Decimal(5));
    DigitsOfDecimal(5);
    assert Decimal(0) + "." + Decimal(5) == "0.5";
    IntegerLiteralRoundTrip(7);
    assert Decimal(7) == "7";
    IntegerLiteralRoundTrip(20);
    assert Decimal(20) == "20";
  }

  /** "7 0.5 *" evaluates to 3.5: decimal operands are read exactly. */
  lemma FractionProduct(e: string)
    requires e == "7 0.5 *"
    ensures Calculate(e) == Outcome([], Ok(3.5))
  {
    assert "7" + " " + "0.5" + " " + [Symbol(Mul)] == e by {
      assert [Symbol(Mul)] == "*";
    }
    assert Infix(Mul, ParseNumber("7"), ParseNumber("0.5")) == 3.5 by {
      LiteralValues();
    }
    LiteralValues();
    BinaryExpression("7", "0.5", Mul);
  }

  /** "20 0.5 /" evaluates to 40. */
  lemma FractionQuotient(e: string)
    requires e == "20 0.5 /"
    ensures Calculate(e) == Outcome([], Ok(40.0))
  {
    assert "20" + " " + "0.5" + " " + [Symbol(Div)] == e by {
      assert [Symbol(Div)] == "/";
    }
    assert Infix(Div, ParseNumber("20"), ParseNumber("0.5")) == 40.0 by {
      LiteralValues();
    }
    LiteralValues();
    BinaryExpression("20", "0.5", Div);
  }
}
