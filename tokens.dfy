/** The two string primitives the calculator relies on: splitting an
    expression on single spaces (PHP's `explode(" ", ...)`) and recognising
    and reading a numeric token (PHP's `is_numeric` and its numeric
    conversion), restricted to plain decimal literals. */
module Tokens {

  /** Glue the pieces back together with one space between neighbours. */
  function Join(parts: seq<string>): string
    requires |parts| >= 1
  {
    if |parts| == 1 then parts[0] else parts[0] + " " + Join(parts[1..])
  }

  /** Split on every single space. Two adjacent spaces, or a space at either
      end, yield an empty token; the empty string yields one empty token. */
  function Explode(s: string): (parts: seq<string>)
    ensures |parts| >= 1
    ensures forall i :: 0 <= i < |parts| ==> ' ' !in parts[i]
  {
    if s == [] then [""]
    else
      var rest := Explode(s[1..]);
      if s[0] == ' ' then [""] + rest
      else [[s[0]] + rest[0]] + rest[1..]
  }

  /** Joining the tokens with single spaces gives back the input. */
  lemma {:induction false} JoinExplode(s: string)
    ensures Join(Explode(s)) == s
    decreases |s|
  {
    if s != [] {
      JoinExplode(s[1..]);
      var rest := Explode(s[1..]);
      var parts := Explode(s);
      if s[0] == ' ' {
        assert parts[1..] == rest;
        assert s == " " + s[1..];
      } else {
        assert |rest| > 1 ==> Join(rest) == rest[0] + " " + Join(rest[1..]);
        assert parts[1..] == rest[1..];
        assert s == [s[0]] + s[1..];
      }
    }
  }

  /** A piece without spaces followed by a space starts a new token. */
  lemma {:induction false} ExplodeAfterWord(w: string, t: string)
    requires ' ' !in w
    ensures Explode(w + " " + t) == [w] + Explode(t)
    decreases |w|
  {
    if w == [] {
      assert (w + " " + t)[1..] == t;
    } else {
      ExplodeAfterWord(w[1..], t);
      assert (w + " " + t)[1..] == w[1..] + " " + t;
      assert [w[0]] + w[1..] == w;
    }
  }

  /** A piece without spaces is one token. */
  lemma {:induction false} ExplodeWord(w: string)
    requires ' ' !in w
    ensures Explode(w) == [w]
    decreases |w|
  {
    if w != [] {
      ExplodeWord(w[1..]);
      assert [w[0]] + w[1..] == w;
    }
  }

  /** Splitting undoes joining: tokens without spaces are recovered exactly. */
  lemma {:induction false} ExplodeJoin(parts: seq<string>)
    requires |parts| >= 1
    requires forall i :: 0 <= i < |parts| ==> ' ' !in parts[i]
    ensures Explode(Join(parts)) == parts
    decreases |parts|
  {
    if |parts| == 1 {
      ExplodeWord(parts[0]);
    } else {
      ExplodeJoin(parts[1..]);
      ExplodeAfterWord(parts[0], Join(parts[1..]));
      assert [parts[0]] + parts[1..] == parts;
    }
  }

  predicate IsDigit(c: char)
  {
    '0' <= c <= '9'
  }

  predicate AllDigits(d: string)
  {
    forall i :: 0 <= i < |d| ==> IsDigit(d[i])
  }

  /** The value of a run of decimal digits, most significant first. */
  function DigitsValue(d: string): nat
    requires AllDigits(d)
  {
    if d == [] then 0 else 10 * DigitsValue(d[..|d| - 1]) + (d[|d| - 1] as int - '0' as int)
  }

  function Pow10(n: nat): (p: nat)
    ensures p >= 1
  {
    if n == 0 then 1 else 10 * Pow10(n - 1)
  }

  /** Position of the first '.', or the length when there is none. */
  function DotIndex(t: string): (k: nat)
    ensures k <= |t|
    ensures k < |t| ==> t[k] == '.'
    ensures forall j :: 0 <= j < k ==> t[j] != '.'
  {
    if t == [] || t[0] == '.' then 0 else 1 + DotIndex(t[1..])
  }

  /** Digits, optionally with one '.', and at least one digit overall
      ("12", "0.5", "5.", ".5"). */
  predicate IsUnsignedDecimal(t: string)
  {
    var k := DotIndex(t);
    && AllDigits(t[..k])
    && (k < |t| ==> AllDigits(t[k + 1..]))
    && (k > 0 || k + 1 < |t|)
  }

  function UnsignedValue(t: string): real
    requires IsUnsignedDecimal(t)
  {
    var k := DotIndex(t);
    DigitsValue(t[..k]) as real +
      (if k < |t| then DigitsValue(t[k + 1..]) as real / Pow10(|t| - k - 1) as real else 0.0)
  }

  /** A decimal literal with an optional leading '+' or '-'. */
  predicate IsNumeric(t: string)
  {
    && |t| > 0
    && if t[0] == '+' || t[0] == '-' then IsUnsignedDecimal(t[1..]) else IsUnsignedDecimal(t)
  }

  /** The number a numeric token denotes. */
  function ParseNumber(t: string): real
    requires IsNumeric(t)
  {
    if t[0] == '-' then -UnsignedValue(t[1..])
    else if t[0] == '+' then UnsignedValue(t[1..])
    else UnsignedValue(t)
  }

  /** An unsigned decimal is digits around at most one '.', with a digit
      somewhere: no space, no sign. */
  lemma UnsignedShape(u: string)
    requires IsUnsignedDecimal(u)
    ensures forall i :: 0 <= i < |u| ==> IsDigit(u[i]) || u[i] == '.'
    ensures exists i :: 0 <= i < |u| && IsDigit(u[i])
  {
    var k := DotIndex(u);
    forall i | 0 <= i < |u|
      ensures IsDigit(u[i]) || u[i] == '.'
    {
      if i < k {
        assert u[..k][i] == u[i];
      } else if i > k {
        assert u[k + 1..][i - k - 1] == u[i];
      }
    }
    if k > 0 {
      assert u[..k][0] == u[0];
    } else {
      assert u[k + 1..][0] == u[k + 1];
    }
  }

  /** A numeric token holds a digit, never a space, and a sign only in
      front: so it never holds a whole token separator. */
  lemma NumericToken(t: string)
    requires IsNumeric(t)
    ensures ' ' !in t
    ensures exists i :: 0 <= i < |t| && IsDigit(t[i])
    ensures forall i :: 0 < i < |t| ==> t[i] != '+' && t[i] != '-'
  {
    if t[0] == '+' || t[0] == '-' {
      var u := t[1..];
      UnsignedShape(u);
      assert forall i :: 0 < i < |t| ==> t[i] == u[i - 1];
      var j :| 0 <= j < |u| && IsDigit(u[j]);
      assert IsDigit(t[j + 1]);
    } else {
      UnsignedShape(t);
    }
  }

  /** Unsigned and '+'-signed literals denote non-negative numbers, '+'
      leaves the value of the rest unchanged and '-' negates it. */
  lemma ParseNumberSign(t: string)
    requires IsNumeric(t)
    ensures t[0] != '-' ==> ParseNumber(t) >= 0.0
    ensures t[0] == '-' || t[0] == '+' ==> IsNumeric(t[1..])
    ensures t[0] == '-' ==> ParseNumber(t) == -ParseNumber(t[1..])
    ensures t[0] == '+' ==> ParseNumber(t) == ParseNumber(t[1..])
  {
    var u := if t[0] == '-' || t[0] == '+' then t[1..] else t;
    var k := DotIndex(u);
    if k < |u| {
      var f := DigitsValue(u[k + 1..]) as real;
      var p := Pow10(|u| - k - 1) as real;
      assert f / p >= 0.0;
    }
    assert UnsignedValue(u) >= 0.0;
    if t[0] == '-' || t[0] == '+' {
      UnsignedShape(u);
      assert IsDigit(u[0]) || u[0] == '.';
    }
  }

  /** The decimal digits of a natural number. */
  function Decimal(n: nat): (d: string)
    ensures |d| >= 1 && AllDigits(d)
  {
    if n < 10 then [('0' as int + n) as char]
    else Decimal(n / 10) + [('0' as int + n % 10) as char]
  }

  lemma {:induction false} DigitsOfDecimal(n: nat)
    ensures DigitsValue(Decimal(n)) == n
  {
    if n >= 10 {
      DigitsOfDecimal(n / 10);
      var d := Decimal(n);
      assert d[..|d| - 1] == Decimal(n / 10);
    }
  }

  /** Reading back a printed natural number gives that number, with or
      without a sign: so "-5" is an operand although it contains '-'. */
  lemma IntegerLiteralRoundTrip(n: nat)
    ensures IsNumeric(Decimal(n)) && ParseNumber(Decimal(n)) == n as real
    ensures IsNumeric("-" + Decimal(n)) && ParseNumber("-" + Decimal(n)) == -(n as real)
    ensures IsNumeric("+" + Decimal(n)) && ParseNumber("+" + Decimal(n)) == n as real
  {
    var d := Decimal(n);
    DigitsOfDecimal(n);
    assert DotIndex(d) == |d|;
    assert d[..|d|] == d;
    assert ("-" + d)[1..] == d;
    assert ("+" + d)[1..] == d;
  }

  /** In "a.b" with a all digits, the first '.' is the one after a. */
  lemma DotAfterDigits(a: string, b: string)
    requires AllDigits(a)
    ensures DotIndex(a + "." + b) == |a|
    ensures (a + "." + b)[..|a|] == a && (a + "." + b)[|a| + 1..] == b
  {
    var t := a + "." + b;
    assert t[|a|] == '.';
    forall j | 0 <= j < |a|
      ensures t[j] != '.'
    {
      assert t[j] == a[j] && IsDigit(a[j]);
    }
  }

  /** Reading back "n.b", with b any run of digits, gives n plus b's value
      scaled by its number of digits: so "0.5" is one half, "19.25" is 19.25,
      "1.05" keeps its leading zero and "3." is 3. */
  lemma FractionLiteralRoundTrip(n: nat, b: string)
    requires AllDigits(b)
    ensures IsNumeric(Decimal(n) + "." + b)
    ensures ParseNumber(Decimal(n) + "." + b) ==
              n as real + DigitsValue(b) as real / Pow10(|b|) as real
  {
    var a := Decimal(n);
    var t := a + "." + b;
    DotAfterDigits(a, b);
    assert IsUnsignedDecimal(t);
    assert IsNumeric(t) by {
      assert t[0] == a[0] && IsDigit(a[0]);
    }
    DigitsOfDecimal(n);
    assert |t| - |a| - 1 == |b|;
  }
}
