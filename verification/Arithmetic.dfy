/** Nonlinear real arithmetic. Products and quotients carry names so that the
    structural proofs elsewhere can hide them and leave the nonlinear steps to
    these lemmas over plain numbers. */
module Arithmetic {

  /** Number of values of an unsigned 32-bit integer. */
  const WORD := 0x1_0000_0000

  /** Number of values of an unsigned 64-bit integer. */
  const LONG_WORD := 0x1_0000_0000_0000_0000

  function Times(a: real, b: real): real {
    a * b
  }

  function Square(a: real): real {
    a * a
  }

  function Div(a: real, b: real): real
    requires b != 0.0
  {
    a / b
  }

  function Ratio(a: real, n: nat): real
    requires n != 0
  {
    a / n as real
  }

  function Pow(b: real, n: nat): real {
    if n == 0 then 1.0 else Times(b, Pow(b, n - 1))
  }

  function Abs(a: real): real {
    if a < 0.0 then -a else a
  }

  function Min(a: real, b: real): real {
    if b < a then b else a
  }

  function Max(a: real, b: real): real {
    if a < b then b else a
  }

  lemma TimesNonNegative(a: real, b: real)
    requires a >= 0.0 && b >= 0.0
    ensures Times(a, b) >= 0.0
  {
  }

  lemma SquareNonNegative(a: real)
    ensures Square(a) >= 0.0
  {
  }

  /** A share of `a` lies between 0 and `a`. */
  lemma Share(k: real, a: real)
    requires 0.0 <= k <= 1.0
    ensures a >= 0.0 ==> 0.0 <= Times(k, a) <= a
    ensures a <= 0.0 ==> a <= Times(k, a) <= 0.0
  {
    var b := Abs(a);
    TimesNonNegative(k, b);
    TimesNonNegative(1.0 - k, b);
  }

  lemma TimesMonotone(a: real, a': real, b: real, b': real)
    requires 0.0 <= a <= a' && 0.0 <= b <= b'
    ensures 0.0 <= Times(a, b) <= Times(a', b')
  {
    TimesNonNegative(a, b);
    TimesNonNegative(a' - a, b');
    TimesNonNegative(a, b' - b);
  }

  lemma DivTimes(a: real, b: real)
    requires b != 0.0
    ensures Times(Div(a, b), b) == a
  {
  }

  lemma DivIs(a: real, b: real, x: real)
    requires b != 0.0 && Times(x, b) == a
    ensures x == Div(a, b)
  {
  }

  lemma DivAntitone(a: real, b: real, c: real)
    requires a >= 0.0 && 0.0 < b <= c
    ensures 0.0 <= Div(a, c) <= Div(a, b)
  {
    var x, y := Div(a, b), Div(a, c);
    assert x * b == a == y * c;
    assert (x - y) * b == y * (c - b);
  }

  lemma RatioNonNegative(a: real, n: nat)
    requires a >= 0.0 && n != 0
    ensures Ratio(a, n) >= 0.0
  {
  }

  lemma RatioSum(a: real, b: real, n: nat)
    requires n != 0
    ensures Ratio(a + b, n) == Ratio(a, n) + Ratio(b, n)
  {
  }

  /** `n` copies of bounds on `m` are bounds on `n` copies of `m`, and conversely. */
  lemma DivideBounds(m: real, lo: real, hi: real, n: real)
    requires n > 0.0 && Times(n, lo) <= Times(n, m) <= Times(n, hi)
    ensures lo <= m <= hi
  {
  }

  lemma OneMore(n: real, a: real)
    ensures Times(n, a) == Times(n - 1.0, a) + a
  {
  }
}
