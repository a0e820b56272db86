/** Exact evaluation of the regression polynomials over the reals.
    A polynomial is given by its coefficients listed from the highest-degree
    term down to the constant term, the order in which the regressions of the
    efficiency calculator write them. */
module Polynomial {

  /** x raised to the natural power n. */
  function Pow(x: real, n: nat): real
    decreases n
  {
    if n == 0 then 1.0 else x * Pow(x, n - 1)
  }

  /** The polynomial whose coefficients are cs (highest degree first) at x,
      evaluated term by term as a sum of coefficient times power. */
  function Poly(cs: seq<real>, x: real): real
    decreases |cs|
  {
    if cs == [] then 0.0 else cs[0] * Pow(x, |cs| - 1) + Poly(cs[1..], x)
  }

  /** Appending a coefficient shifts every term up one degree. */
  lemma {:induction false} PolyAppend(cs: seq<real>, c: real, x: real)
    ensures Poly(cs + [c], x) == x * Poly(cs, x) + c
    decreases |cs|
  {
    if cs == [] {
      assert Poly([c], x) == c * Pow(x, 0) + Poly([], x);
    } else {
      var tail := cs[1..];
      assert (cs + [c])[1..] == tail + [c];
      PolyAppend(tail, c, x);
      calc {
        Poly(cs + [c], x);
        cs[0] * Pow(x, |cs|) + Poly(tail + [c], x);
        cs[0] * (x * Pow(x, |cs| - 1)) + (x * Poly(tail, x) + c);
        x * (cs[0] * Pow(x, |cs| - 1) + Poly(tail, x)) + c;
        x * Poly(cs, x) + c;
      }
    }
  }

  /** A single coefficient is a constant polynomial. */
  lemma Constant(a: real, x: real)
    ensures Poly([a], x) == a
  {
    assert Poly([a], x) == a * Pow(x, 0) + Poly([], x);
  }

  /** A three-coefficient list is the quadratic a x^2 + b x + c. */
  lemma Quadratic(a: real, b: real, c: real, x: real)
    ensures Poly([a, b, c], x) == a * (x * x) + b * x + c
  {
    Constant(a, x);
    assert [a] + [b] == [a, b];
    PolyAppend([a], b, x);
    assert [a, b] + [c] == [a, b, c];
    PolyAppend([a, b], c, x);
    assert x * (x * a + b) == a * (x * x) + b * x;
  }

  /** A four-coefficient list is the cubic a x^3 + b x^2 + c x + d. */
  lemma Cubic(a: real, b: real, c: real, d: real, x: real)
    ensures Poly([a, b, c, d], x) == a * (x * x * x) + b * (x * x) + c * x + d
  {
    Quadratic(a, b, c, x);
    assert [a, b, c] + [d] == [a, b, c, d];
    PolyAppend([a, b, c], d, x);
    assert x * (a * (x * x) + b * x + c) == a * (x * x * x) + b * (x * x) + c * x;
  }

  /** A five-coefficient list is the quartic a x^4 + b x^3 + c x^2 + d x + e. */
  lemma Quartic(a: real, b: real, c: real, d: real, e: real, x: real)
    ensures Poly([a, b, c, d, e], x) == a * (x * x * x * x) + b * (x * x * x) + c * (x * x) + d * x + e
  {
    Cubic(a, b, c, d, x);
    assert [a, b, c, d] + [e] == [a, b, c, d, e];
    PolyAppend([a, b, c, d], e, x);
    assert x * (a * (x * x * x) + b * (x * x) + c * x + d) == a * (x * x * x * x) + b * (x * x * x) + c * (x * x) + d * x;
  }
}
