/** Points in the scene and the few real-valued helpers the browser code uses on them.
    A square root is never computed: a function `sqrt` is passed in, and the facts that need
    it ask for `IsSqrt(sqrt)`. */
module Geometry {

  datatype Vec3 = Vec3(x: real, y: real, z: real)

  /** A JavaScript or NumPy number that may be NaN: a 0 / 0, or parseFloat of a non-number. */
  datatype Number = Num(value: real) | NaN

  /** The squared Euclidean length of b - a. */
  function SquaredDistance(a: Vec3, b: Vec3): (d: real)
    ensures d >= 0.0
    ensures a == b ==> d == 0.0
  {
    var dx := a.x - b.x;
    var dy := a.y - b.y;
    var dz := a.z - b.z;
    SquareNonNegative(dx);
    SquareNonNegative(dy);
    SquareNonNegative(dz);
    dx * dx + dy * dy + dz * dz
  }

  /** The squared length of the x-y part of b - a (z is ignored). */
  function SquaredDistanceXY(a: Vec3, b: Vec3): (d: real)
    ensures d >= 0.0
    ensures a.x == b.x && a.y == b.y ==> d == 0.0
  {
    SquaredDistance(a.(z := 0.0), b.(z := 0.0))
  }

  lemma MulLess(a: real, b: real, c: real)
    requires a < b && c > 0.0
    ensures a * c < b * c
  {
  }

  lemma MulLeq(a: real, b: real, c: real)
    requires a <= b && c >= 0.0
    ensures a * c <= b * c
  {
  }

  /** Concatenation is associative; stated once so that callers need not re-derive it
      beside quantified facts of their own. */
  lemma ConcatAssoc<T>(a: seq<T>, b: seq<T>, c: seq<T>)
    ensures (a + b) + c == a + (b + c)
  {
  }

  lemma SquareNonNegative(a: real)
    ensures a * a >= 0.0
  {
    if a >= 0.0 {
      MulLeq(0.0, a, a);
    } else {
      calc { a * a; == (-a) * (-a); >= { MulLeq(0.0, -a, -a); } 0.0; }
    }
  }

  /** `sqrt` is the non-negative square root on the non-negative reals, as Math.sqrt is. */
  ghost predicate IsSqrt(sqrt: real -> real)
  {
    forall x :: x >= 0.0 ==> sqrt(x) >= 0.0 && sqrt(x) * sqrt(x) == x
  }

  /** The root of 0 is 0. */
  lemma SqrtZero(sqrt: real -> real)
    requires IsSqrt(sqrt)
    ensures sqrt(0.0) == 0.0
  {
    var r := sqrt(0.0);
    if r != 0.0 {
      calc {
        0.0;
      ==
        r * r;
      >  { MulLess(0.0, r, r); }
        0.0;
      }
    }
  }

  /** For non-negative a and b, a < b exactly when a * a < b * b. */
  lemma SquareLess(a: real, b: real)
    requires a >= 0.0 && b >= 0.0
    ensures a < b <==> a * a < b * b
  {
    if a < b {
      if a == 0.0 {
        calc { a * a; == 0.0 * 0.0; == 0.0; < { MulLess(0.0, b, b); } b * b; }
      } else {
        calc { a * a; < { MulLess(a, b, a); } b * a; < { MulLess(a, b, b); } b * b; }
      }
    } else {
      calc { b * b; <= { MulLeq(b, a, b); } a * b; <= { MulLeq(b, a, a); } a * a; }
    }
  }

  /** Comparing a root with t >= 0 is comparing its square with t * t. */
  lemma SqrtLess(sqrt: real -> real, x: real, t: real)
    requires IsSqrt(sqrt)
    requires x >= 0.0 && t >= 0.0
    ensures sqrt(x) < t <==> x < t * t
  {
    var r := sqrt(x);
    SquareLess(r, t);
    calc { r * r; == x; }
  }

  /** `len / base > t` in JavaScript numbers, for lengths len, base >= 0: a zero base gives
      Infinity when len > 0 (above any t) and NaN when len == 0 (never above). */
  predicate RatioAbove(len: real, base: real, t: real)
    requires len >= 0.0 && base >= 0.0
  {
    if base == 0.0 then len > 0.0 else len / base > t
  }

  /** For a positive threshold the ratio test needs no division: len > t * base. */
  lemma RatioAboveScaled(len: real, base: real, t: real)
    requires len >= 0.0 && base >= 0.0 && t > 0.0
    ensures RatioAbove(len, base, t) <==> len > t * base
  {
    if base != 0.0 {
      var q := len / base;
      calc { q * base; == len; }
      if q > t {
        MulLess(t, q, base);
      } else {
        MulLeq(q, t, base);
      }
    }
  }

  /** With lengths given as roots of squared lengths, the ratio test compares squares only:
      lenSq > t * t * baseSq. */
  lemma RatioAboveSquared(sqrt: real -> real, lenSq: real, baseSq: real, t: real)
    requires IsSqrt(sqrt)
    requires lenSq >= 0.0 && baseSq >= 0.0 && t > 0.0
    ensures RatioAbove(sqrt(lenSq), sqrt(baseSq), t) <==> lenSq > t * t * baseSq
  {
    var len, base := sqrt(lenSq), sqrt(baseSq);
    RatioAboveScaled(len, base, t);
    MulLeq(0.0, t, base);
    SquareLess(t * base, len);
    calc {
      (t * base) * (t * base);
    ==
      (t * t) * (base * base);
    ==
      t * t * baseSq;
    }
    calc { len * len; == lenSq; }
  }

  function Min(a: real, b: real): (m: real)
    ensures m <= a && m <= b && (m == a || m == b)
  {
    if a <= b then a else b
  }

  function Max(a: real, b: real): (m: real)
    ensures m >= a && m >= b && (m == a || m == b)
  {
    if a >= b then a else b
  }

  /** THREE.MathUtils.clamp: x limited to [lo, hi]. */
  function Clamp(x: real, lo: real, hi: real): (r: real)
    requires lo <= hi
    ensures lo <= r <= hi
    ensures lo <= x <= hi ==> r == x
    ensures x < lo ==> r == lo
    ensures x > hi ==> r == hi
  {
    Max(lo, Min(hi, x))
  }

  /** Vector3.lerp: the point a fraction alpha of the way from a to b. */
  function Lerp(a: Vec3, b: Vec3, alpha: real): (r: Vec3)
    ensures alpha == 0.0 ==> r == a
    ensures alpha == 1.0 ==> r == b
  {
    Vec3(a.x + (b.x - a.x) * alpha, a.y + (b.y - a.y) * alpha, a.z + (b.z - a.z) * alpha)
  }
}
