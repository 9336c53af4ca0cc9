/**
 * Positions of vehicles and the distance between them (car_light.py, lines 50-52).
 * The source computes `math.hypot(dx, dy)`; the model keeps the squared distance
 * dx*dx + dy*dy over the reals and relates any square root of it to the
 * threshold through `IsDistance`.
 */
module Geometry {
  /** A 2D position in the simulation's coordinate frame. */
  datatype Pos = Pos(x: real, y: real)

  /**
   * Real multiplication behind a function of two arguments, so that squares are
   * written `Product(a, a)` and reasoned about through the lemmas below.
   */
  function Product(a: real, b: real): real {
    a * b
  }

  /** a * a: never negative, and zero only for zero. */
  function Square(a: real): (s: real)
    ensures s >= 0.0
    ensures a == 0.0 ==> s == 0.0
    ensures a != 0.0 ==> s > 0.0
  {
    if a == 0.0 then
      assert Product(a, a) == 0.0;
      Product(a, a)
    else
      ProductPositive(if a > 0.0 then a else -a, if a > 0.0 then a else -a);
      assert Product(a, a) == Product(-a, -a);
      Product(a, a)
  }

  /** The square of the Euclidean distance between p and q. */
  function SquaredDistance(p: Pos, q: Pos): (d: real)
    ensures d >= 0.0
    ensures p == q ==> d == 0.0
    ensures p != q ==> d > 0.0
  {
    Square(p.x - q.x) + Square(p.y - q.y)
  }

  /** d is the Euclidean distance between p and q, i.e. what `euclidean_distance` returns. */
  predicate IsDistance(p: Pos, q: Pos, d: real)
    ensures IsDistance(p, q, d) ==> forall e :: e >= 0.0 && Square(e) == SquaredDistance(p, q) ==> e == d
  {
    var holds := d >= 0.0 && Square(d) == SquaredDistance(p, q);
    if holds then
      assert forall e :: e >= 0.0 && Square(e) == SquaredDistance(p, q) ==> e == d by {
        forall e | e >= 0.0 && Square(e) == SquaredDistance(p, q) ensures e == d {
          if e < d { SquareStrictlyMonotone(e, d); }
          else if d < e { SquareStrictlyMonotone(d, e); }
        }
      }
      holds
    else
      holds
  }

  /** The squared distance does not depend on the order of its arguments. */
  lemma SquaredDistanceSymmetric(p: Pos, q: Pos)
    ensures SquaredDistance(p, q) == SquaredDistance(q, p)
  {
    SquareOfNegation(p.x - q.x);
    SquareOfNegation(p.y - q.y);
  }

  /** The distance does not depend on the order of its arguments. */
  lemma DistanceSymmetric(p: Pos, q: Pos, d: real)
    requires IsDistance(p, q, d)
    ensures IsDistance(q, p, d)
  {
    SquaredDistanceSymmetric(p, q);
  }

  /** The distance is zero exactly when the two positions coincide. */
  lemma DistanceZero(p: Pos, q: Pos, d: real)
    requires IsDistance(p, q, d)
    ensures d == 0.0 ==> p == q
    ensures p == q ==> d == 0.0
  {
  }

  /**
   * Comparing the distance against a non-negative threshold is the same as
   * comparing the squared distance against the squared threshold.
   */
  lemma BelowIffSquaredBelow(p: Pos, q: Pos, d: real, t: real)
    requires IsDistance(p, q, d) && t >= 0.0
    ensures d < t <==> SquaredDistance(p, q) < Square(t)
  {
    if d < t {
      SquareStrictlyMonotone(d, t);
    } else {
      SquareMonotone(t, d);
    }
  }

  lemma ProductPositive(a: real, b: real)
    requires a > 0.0 && b > 0.0
    ensures Product(a, b) > 0.0
  {
  }

  lemma SquareOfNegation(a: real)
    ensures Square(-a) == Square(a)
  {
    assert Product(-a, -a) == Product(a, a);
  }

  lemma SquareStrictlyMonotone(a: real, b: real)
    requires 0.0 <= a < b
    ensures Square(a) < Square(b)
  {
    // b*b - a*a == (b - a) * (b + a), and both factors are positive
    ProductPositive(b - a, b + a);
    assert Product(b, b) - Product(a, a) == Product(b - a, b + a);
  }

  lemma SquareMonotone(a: real, b: real)
    requires 0.0 <= a <= b
    ensures Square(a) <= Square(b)
  {
    if a < b {
      SquareStrictlyMonotone(a, b);
    }
  }
}
