/** The few JavaScript `Math` operations and operators the pipeline uses,
    written out over unbounded integers and reals. */
module JsMath {

  function Abs(x: real): (r: real)
    ensures r >= 0.0
    ensures r == x || r == -x
  {
    if x < 0.0 then -x else x
  }

  function MinReal(a: real, b: real): (r: real)
    ensures r <= a && r <= b
    ensures r == a || r == b
  {
    if a <= b then a else b
  }

  function MinInt(a: int, b: int): (r: int)
    ensures r <= a && r <= b
    ensures r == a || r == b
  {
    if a <= b then a else b
  }

  function MaxInt(a: int, b: int): (r: int)
    ensures r >= a && r >= b
    ensures r == a || r == b
  {
    if a >= b then a else b
  }

  /** `Math.floor`: the greatest integer not above `x`. */
  function Floor(x: real): (r: int)
    ensures r as real <= x < r as real + 1.0
  {
    x.Floor
  }

  /** `Math.round`: the nearest integer, halves rounded up (towards +infinity). */
  function Round(x: real): (r: int)
    ensures r as real - 0.5 <= x < r as real + 0.5
  {
    (x + 0.5).Floor
  }

  /** JavaScript's `a % b` for a positive divisor: the remainder of division
      truncated towards zero, so it takes the sign of `a`. It agrees with the
      Euclidean remainder `a % b` of Dafny on non-negative `a` and is that
      remainder shifted down by `b` (or zero) on negative `a`. */
  function Rem(a: int, b: int): (r: int)
    requires b > 0
  {
    if a >= 0 then a % b else -((-a) % b)
  }

  lemma RemSpec(a: int, b: int)
    requires b > 0
    ensures a >= 0 ==> 0 <= Rem(a, b) < b && Rem(a, b) == a % b
    ensures a < 0 ==> -b < Rem(a, b) <= 0 && (Rem(a, b) == a % b || Rem(a, b) == a % b - b)
  {
    if a < 0 { RemOfNegation(a, b); }
  }

  /** The Euclidean remainders of `a` and `-a` add up to 0 or to `b`. */
  lemma RemOfNegation(a: int, b: int)
    requires b > 0
    ensures (-a) % b == -(a % b) || (-a) % b == b - a % b
  {
    var q, q' := a / b, (-a) / b;
    assert b * q + a % b == a;
    assert b * q' + (-a) % b == -a;
    assert b * (q + q') == -(a % b + (-a) % b);
    MultipleBounds(b, q + q');
  }

  lemma MultipleBounds(b: int, k: int)
    requires b > 0
    ensures k >= 1 ==> b * k >= b
    ensures k <= -2 ==> b * k <= -2 * b
  {
    if k >= 1 {
      assert b * k == b + b * (k - 1);
    } else if k <= -2 {
      assert b * k == -2 * b + b * (k + 2);
    }
  }

  /** `Math.floor(a / b)` for a positive divisor. */
  function FloorDiv(a: int, b: int): (q: int)
    requires b > 0
  {
    a / b
  }

  lemma FloorDivSpec(a: int, b: int)
    requires b > 0
    ensures b * FloorDiv(a, b) <= a < b * FloorDiv(a, b) + b
  {
  }
}
