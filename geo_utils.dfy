/** Planar Euclidean distance. The square root is supplied by the caller. */
module GeoUtils {

  /** `sqrt` is a square root on the non-negative reals. */
  ghost predicate IsSqrt(sqrt: real -> real) {
    forall a :: 0.0 <= a ==> 0.0 <= sqrt(a) && sqrt(a) * sqrt(a) == a
  }

  /** `sqrt` is never negative on the non-negative reals; all a distance bound needs. */
  ghost predicate RaizNaoNegativa(sqrt: real -> real) {
    forall a :: 0.0 <= a ==> 0.0 <= sqrt(a)
  }

  /** The straight-line distance between (x1, y1) and (x2, y2). */
  function DistanciaKm(sqrt: real -> real, x1: real, y1: real, x2: real, y2: real): (r: real)
    ensures IsSqrt(sqrt) ==> 0.0 <= r && r * r == (x2 - x1) * (x2 - x1) + (y2 - y1) * (y2 - y1)
  {
    var dx := x2 - x1;
    var dy := y2 - y1;
    sqrt(dx * dx + dy * dy)
  }

  /** A non-negative number whose square is `a` is the square root of `a`. */
  lemma SqrtUnique(sqrt: real -> real, a: real, r: real)
    requires IsSqrt(sqrt)
    requires 0.0 <= r && r * r == a
    ensures sqrt(a) == r
  {
    SqrtBounds(sqrt, a, r, r);
  }

  /** The square root is monotone: bounds on `a` give bounds on `sqrt(a)`. */
  lemma SqrtBounds(sqrt: real -> real, a: real, lo: real, hi: real)
    requires IsSqrt(sqrt)
    requires 0.0 <= lo && 0.0 <= hi && lo * lo <= a <= hi * hi
    ensures lo <= sqrt(a) <= hi
  {
    var s := sqrt(a);
    if hi < s {
      SquareLess(hi, s);
      assert false;
    }
    if s < lo {
      SquareLess(s, lo);
      assert false;
    }
  }

  /** Squaring is strictly monotone on the non-negative reals. */
  lemma SquareLess(a: real, b: real)
    requires 0.0 <= a < b
    ensures a * a < b * b
  {
    assert b * b - a * a == (b - a) * (b + a);
    MulPositive(b - a, b + a);
  }

  lemma MulPositive(a: real, b: real)
    requires 0.0 < a && 0.0 < b
    ensures 0.0 < a * b
  {
  }

  /** Swapping the two points gives the same distance. */
  lemma DistanciaSimetrica(sqrt: real -> real, x1: real, y1: real, x2: real, y2: real)
    ensures DistanciaKm(sqrt, x1, y1, x2, y2) == DistanciaKm(sqrt, x2, y2, x1, y1)
  {
    assert (x2 - x1) * (x2 - x1) == (x1 - x2) * (x1 - x2);
    assert (y2 - y1) * (y2 - y1) == (y1 - y2) * (y1 - y2);
  }

  /** The distance from a point to itself is zero. */
  lemma DistanciaPropria(sqrt: real -> real, x: real, y: real)
    requires IsSqrt(sqrt)
    ensures DistanciaKm(sqrt, x, y, x, y) == 0.0
  {
    SqrtUnique(sqrt, 0.0, 0.0);
  }

  /** distance((0,0), (3,4)) = 5. */
  lemma DistanciaTresQuatro(sqrt: real -> real)
    requires IsSqrt(sqrt)
    ensures DistanciaKm(sqrt, 0.0, 0.0, 3.0, 4.0) == 5.0
  {
    SqrtUnique(sqrt, 25.0, 5.0);
  }

  /** distance((10,10), (10,20)) = 10. */
  lemma DistanciaVertical(sqrt: real -> real)
    requires IsSqrt(sqrt)
    ensures DistanciaKm(sqrt, 10.0, 10.0, 10.0, 20.0) == 10.0
  {
    SqrtUnique(sqrt, 100.0, 10.0);
  }
}
