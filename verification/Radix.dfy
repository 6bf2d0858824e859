/** Positional numbers in any base, most significant digit first. */
module Radix {

  predicate Below(b: nat, s: seq<nat>) { forall i :: 0 <= i < |s| ==> s[i] < b }

  function Value(b: nat, s: seq<nat>): nat {
    if s == [] then 0 else Value(b, s[..|s| - 1]) * b + s[|s| - 1]
  }

  /** The digits of a number, without leading zeros. */
  function Digits(b: nat, x: nat): (r: seq<nat>)
    requires b >= 2
    ensures Below(b, r) && (r != [] ==> r[0] != 0) && (r == [] <==> x == 0)
    decreases x
  {
    if x == 0 then [] else Quotient(x, b); Digits(b, x / b) + [x % b]
  }

  lemma Scale(a: nat, c: nat, b: nat)
    requires a <= c
    ensures a * b <= c * b
  {}

  lemma Quotient(x: nat, b: nat)
    requires b >= 2 && x > 0
    ensures x / b < x && x == (x / b) * b + x % b
  {
    var q := x / b;
    assert x == q * b + x % b;
    assert q * b == q + q * (b - 1);
    Scale(1, b - 1, q);
    assert (b - 1) * q == q * (b - 1);
  }

  lemma DivideBack(a: nat, d: nat, b: nat)
    requires d < b
    ensures (a * b + d) / b == a && (a * b + d) % b == d
  {
    var x := a * b + d;
    var q := x / b;
    assert x == q * b + x % b;
    assert (q + 1) * b == q * b + b && (a + 1) * b == a * b + b;
    if q < a { Scale(q + 1, a, b); }
    if q > a { Scale(a + 1, q, b); }
  }

  function Pow(b: nat, n: nat): nat { if n == 0 then 1 else Pow(b, n - 1) * b }

  lemma {:induction false} ValueOfDigits(b: nat, x: nat)
    requires b >= 2
    ensures Value(b, Digits(b, x)) == x
    decreases x
  {
    if x != 0 {
      Quotient(x, b);
      ValueOfDigits(b, x / b);
      assert Digits(b, x)[..|Digits(b, x)| - 1] == Digits(b, x / b);
    }
  }

  /** The digits without leading zeros. */
  function Strip(s: seq<nat>): seq<nat> { if s != [] && s[0] == 0 then Strip(s[1..]) else s }

  function Lead(s: seq<nat>): nat { if s != [] && s[0] == 0 then 1 + Lead(s[1..]) else 0 }

  function Zeros(n: nat): seq<nat> { seq(n, i => 0) }

  lemma {:induction false} StripLead(s: seq<nat>)
    ensures s == Zeros(Lead(s)) + Strip(s) && Lead(s) <= |s| && (Strip(s) != [] ==> Strip(s)[0] != 0)
  {
    if s != [] && s[0] == 0 {
      StripLead(s[1..]);
      assert Zeros(Lead(s)) == [0] + Zeros(Lead(s[1..]));
    }
  }

  lemma StepBound(v: nat, p: nat, d: nat, b: nat)
    requires v < p && d < b
    ensures v * b + d < p * b
  {
    Scale(v + 1, p, b);
    assert (v + 1) * b == v * b + b;
  }

  lemma {:induction false} ValueBound(b: nat, s: seq<nat>)
    requires b >= 1 && Below(b, s)
    ensures Value(b, s) < Pow(b, |s|)
  {
    if s != [] {
      var a, d := s[..|s| - 1], s[|s| - 1];
      ValueBound(b, a);
      StepBound(Value(b, a), Pow(b, |a|), d, b);
    }
  }

  lemma {:induction false} ValueConcat(b: nat, s: seq<nat>, t: seq<nat>)
    ensures Value(b, s + t) == Value(b, s) * Pow(b, |t|) + Value(b, t)
    decreases |t|
  {
    if t == [] {
      assert s + t == s;
    } else {
      var a, d := t[..|t| - 1], t[|t| - 1];
      ValueConcat(b, s, a);
      assert (s + t)[..|s + t| - 1] == s + a;
      assert (Value(b, s) * Pow(b, |a|) + Value(b, a)) * b + d
        == Value(b, s) * (Pow(b, |a|) * b) + (Value(b, a) * b + d);
    }
  }

  lemma {:induction false} ValueZeros(b: nat, n: nat)
    ensures Value(b, Zeros(n)) == 0
  {
    if n > 0 {
      ValueZeros(b, n - 1);
      assert Zeros(n)[..n - 1] == Zeros(n - 1);
    }
  }

  /** Digits without a leading zero are the digits of their value. */
  lemma {:induction false} DigitsOfValue(b: nat, s: seq<nat>)
    requires b >= 2 && Below(b, s) && (s != [] ==> s[0] != 0)
    ensures Digits(b, Value(b, s)) == s
    decreases |s|
  {
    if s != [] {
      var a, d := s[..|s| - 1], s[|s| - 1];
      DigitsOfValue(b, a);
      DivideBack(Value(b, a), d, b);
      ValuePositive(b, s);
      assert s == a + [d];
    }
  }

  lemma {:induction false} ValuePositive(b: nat, s: seq<nat>)
    requires b >= 1 && s != [] && s[0] != 0
    ensures Value(b, s) > 0
  {
    if |s| > 1 {
      var a := s[..|s| - 1];
      ValuePositive(b, a);
      assert Value(b, a) * b >= 1 * b;
    } else {
      assert s[..|s| - 1] == [];
    }
  }

  lemma StripBelow(b: nat, s: seq<nat>)
    requires Below(b, s)
    ensures Below(b, Strip(s))
  {
    StripLead(s);
    forall i | 0 <= i < |Strip(s)| ensures Strip(s)[i] < b { assert Strip(s)[i] == s[Lead(s) + i]; }
  }

  lemma StripValue(b: nat, s: seq<nat>)
    ensures Value(b, Strip(s)) == Value(b, s)
  {
    StripLead(s);
    ValueConcat(b, Zeros(Lead(s)), Strip(s));
    ValueZeros(b, Lead(s));
  }

  /** Any digits are leading zeros and the digits of their value. */
  lemma DigitsAndZeros(b: nat, s: seq<nat>)
    requires b >= 2 && Below(b, s)
    ensures s == Zeros(Lead(s)) + Digits(b, Value(b, s))
  {
    StripLead(s);
    StripBelow(b, s);
    StripValue(b, s);
    DigitsOfValue(b, Strip(s));
  }

  /** A number below b^k has at most k digits. */
  lemma {:induction false} DigitsBound(b: nat, x: nat, k: nat)
    requires b >= 2 && x < Pow(b, k)
    ensures |Digits(b, x)| <= k
    decreases k
  {
    if x > 0 {
      Quotient(x, b);
      if x / b >= Pow(b, k - 1) { Scale(Pow(b, k - 1), x / b, b); }
      DigitsBound(b, x / b, k - 1);
    }
  }
}
