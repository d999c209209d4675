/**
 * Two-dimensional vectors (`Vec2f` in src/ops.rs) over the reals.
 *
 * The source works on `f64`; the model uses exact real arithmetic. The
 * Euclidean length needs a square root, which has no exact closed form over
 * the reals, so every operation that uses `len()` receives the length `l`
 * together with its defining property `IsLen(v, l)`: `l >= 0` and
 * `l * l == x * x + y * y`.
 */
module Ops {

  datatype Vec2 = Vec2(x: real, y: real)

  /** `Vec2f::default()`: the zero vector. */
  const Zero: Vec2 := Vec2(0.0, 0.0)

  /** The derived `+`. */
  function Add(a: Vec2, b: Vec2): Vec2 { Vec2(a.x + b.x, a.y + b.y) }

  /** The derived binary `-`. */
  function Sub(a: Vec2, b: Vec2): Vec2 { Vec2(a.x - b.x, a.y - b.y) }

  /** The derived unary `-`. */
  function Neg(a: Vec2): Vec2 { Vec2(-a.x, -a.y) }

  /** The derived `Vec2f * f64`. */
  function Scale(a: Vec2, k: real): Vec2 { Vec2(a.x * k, a.y * k) }

  function AbsReal(r: real): (a: real)
    ensures a >= 0.0 && (a == r || a == -r)
  {
    if r < 0.0 then -r else r
  }

  /** Component-wise absolute value. */
  function Abs(v: Vec2): (a: Vec2)
    ensures a.x >= 0.0 && a.y >= 0.0
    ensures a.x == v.x || a.x == -v.x
    ensures a.y == v.y || a.y == -v.y
  {
    Vec2(AbsReal(v.x), AbsReal(v.y))
  }

  /** Manhattan length `|x| + |y|`; it is zero exactly for the zero vector. */
  function Man(v: Vec2): (m: real)
    ensures m >= 0.0
    ensures m == 0.0 <==> v == Zero
    ensures m == Abs(v).x + Abs(v).y
  {
    AbsReal(v.x) + AbsReal(v.y)
  }

  /** `l` is the Euclidean length of `v`: what `len()` computes with `sqrt`. */
  predicate IsLen(v: Vec2, l: real)
  {
    l >= 0.0 && l * l == v.x * v.x + v.y * v.y
  }

  /** Subtraction undoes addition, addition commutes, and `a + (-a)` is zero. */
  lemma SubUndoesAdd(a: Vec2, b: Vec2)
    ensures Sub(Add(a, b), b) == a
    ensures Add(a, b) == Add(b, a)
    ensures Add(a, Neg(a)) == Zero
    ensures Sub(a, b) == Add(a, Neg(b))
  {
  }

  /** Scaling distributes over addition, composes by multiplication, and 1 and 0 act as expected. */
  lemma ScaleDistributes(a: Vec2, b: Vec2, k: real, m: real)
    ensures Scale(Add(a, b), k) == Add(Scale(a, k), Scale(b, k))
    ensures Scale(Scale(a, k), m) == Scale(a, k * m)
    ensures Scale(a, 1.0) == a && Scale(a, 0.0) == Zero
  {
  }

  /** The length a vector has is unique, so `IsLen` pins down one value. */
  lemma LenUnique(v: Vec2, l1: real, l2: real)
    requires IsLen(v, l1) && IsLen(v, l2)
    ensures l1 == l2
  {
    assert (l1 - l2) * (l1 + l2) == l1 * l1 - l2 * l2;
    ZeroProduct(l1 - l2, l1 + l2);
  }

  /** The length is zero exactly for the zero vector. */
  lemma LenZeroIff(v: Vec2, l: real)
    requires IsLen(v, l)
    ensures l == 0.0 <==> v == Zero
  {
    if l == 0.0 {
      SumSquaresZero(v.x, v.y);
    } else if v == Zero {
      assert l * l == 0.0;
      ZeroProduct(l, l);
    }
  }

  /** The Euclidean length never exceeds the Manhattan length. */
  lemma LenAtMostMan(v: Vec2, l: real)
    requires IsLen(v, l)
    ensures l <= Man(v)
  {
    var ax, ay := AbsReal(v.x), AbsReal(v.y);
    assert ax * ax == v.x * v.x && ay * ay == v.y * v.y;
    RootOfSumBound(l, ax, ay);
  }

  /** `normalise()`: divides by the length, or returns `v` itself when the length is zero. */
  function Normalise(v: Vec2, l: real): (n: Vec2)
    requires IsLen(v, l)
    ensures l == 0.0 ==> n == v && n == Zero
    ensures l > 0.0 ==> IsLen(n, 1.0) && n == Scale(v, 1.0 / l)
  {
    LenZeroIff(v, l);
    if l > 0.0 then
      UnitAfterDivide(v, l);
      Vec2(v.x / l, v.y / l)
    else
      v
  }

  /**
   * `clampret(max)`: scales `v` to length `max` when it is longer. For a
   * negative `max` every non-zero vector is longer, and the same formula
   * `x / l * max` gives the reversed vector of length `|max|`. The zero
   * vector with a negative `max` is excluded: the `f64` code computes
   * `0 / 0 * max`, which is NaN.
   */
  function ClampRet(v: Vec2, l: real, max: real): (c: Vec2)
    requires IsLen(v, l) && (max >= 0.0 || l > 0.0)
    ensures l <= max ==> c == v
    ensures l > max ==> c == Scale(v, max / l) && IsLen(c, AbsReal(max))
    ensures max >= 0.0 && l > max ==> IsLen(c, max)
  {
    if l > max then
      var c := Vec2(v.x / l * max, v.y / l * max);
      ScaleLen(v, l, max / l);
      assert Scale(v, max / l) == c;
      assert l * AbsReal(max / l) == AbsReal(max) by {
        if max >= 0.0 {
          assert l * (max / l) == max;
        } else {
          assert l * (-(max / l)) == -max;
        }
      }
      c
    else
      v
  }

  /**
   * Whatever the length of the clamped vector is, it is at most `max`
   * (the `clamp_works` property, which also covers `clamp`).
   */
  lemma ClampWithinMax(v: Vec2, l: real, max: real, lc: real)
    requires IsLen(v, l) && max >= 0.0
    requires IsLen(ClampRet(v, l, max), lc)
    ensures lc <= max
  {
    if l <= max {
      LenUnique(v, l, lc);
    } else {
      LenUnique(ClampRet(v, l, max), max, lc);
    }
  }

  /** Scaling by `k` multiplies the length by `|k|`. */
  lemma ScaleLen(v: Vec2, l: real, k: real)
    requires IsLen(v, l)
    ensures IsLen(Scale(v, k), l * AbsReal(k))
  {
    var a := AbsReal(k);
    assert a * a == k * k;
    MulNonNeg(l, a);
    assert (v.x * k) * (v.x * k) + (v.y * k) * (v.y * k) == (v.x * v.x + v.y * v.y) * (k * k);
    assert (l * a) * (l * a) == (l * l) * (a * a);
  }

  /**
   * `clamp(&mut self, max)`: the same bound as `ClampRet`, applied in place by
   * dividing each component by `l / max`. With `max == 0` and a non-zero
   * vector the `f64` quotient `l / 0` is infinite and each component becomes 0;
   * a negative `max` is excluded for the zero vector as in `ClampRet`.
   */
  method Clamp(v: Vec2, l: real, max: real) returns (c: Vec2)
    requires IsLen(v, l) && (max >= 0.0 || l > 0.0)
    ensures c == ClampRet(v, l, max)
    ensures l <= max ==> c == v
    ensures l > max ==> IsLen(c, AbsReal(max))
  {
    c := v;
    if l > max {
      if max == 0.0 {
        c := Zero;
      } else {
        var q := l / max;
        c := c.(x := c.x / q);
        c := c.(y := c.y / q);
        DivByQuotient(v.x, l, max);
        DivByQuotient(v.y, l, max);
      }
    }
  }

  /**
   * `rot_align(other)`: rotates `v` by the angle from (1, 0) to `other`, using
   * cos = other.x / den and sin = other.y / den; a zero-length `other` leaves
   * `v` unchanged instead of dividing by zero.
   */
  function RotAlign(v: Vec2, other: Vec2, den: real): (r: Vec2)
    requires IsLen(other, den)
    ensures den == 0.0 ==> r == v
  {
    if den == 0.0 then
      v
    else
      var cos := other.x / den;
      var sin := other.y / den;
      Vec2(v.x * cos - v.y * sin, v.x * sin + v.y * cos)
  }

  /** The basis vector (1, 0) has length 1 and no other. */
  lemma BasisLenIsOne(den: real)
    requires IsLen(Vec2(1.0, 0.0), den)
    ensures den == 1.0
  {
    LenUnique(Vec2(1.0, 0.0), den, 1.0);
  }

  /** Aligning with the basis vector (1, 0) is the identity rotation. */
  lemma RotAlignBasis(v: Vec2)
    ensures RotAlign(v, Vec2(1.0, 0.0), 1.0) == v
  {
  }

  /** `rot_align` turns the reference direction (1, 0) into the direction of `other`. */
  lemma RotAlignTurnsBasis(other: Vec2, den: real)
    requires IsLen(other, den) && den > 0.0
    ensures RotAlign(Vec2(1.0, 0.0), other, den) == Normalise(other, den)
  {
  }

  /** A rotation keeps the length of the rotated vector. */
  lemma RotAlignKeepsLen(v: Vec2, other: Vec2, den: real, l: real)
    requires IsLen(other, den) && IsLen(v, l)
    ensures IsLen(RotAlign(v, other, den), l)
  {
    if den != 0.0 {
      LenZeroIff(other, den);
      UnitAfterDivide(other, den);
      RotationKeepsSquares(v.x, v.y, other.x / den, other.y / den);
    }
  }

  /** Dividing a vector by its non-zero length gives a vector of length one. */
  lemma UnitAfterDivide(v: Vec2, l: real)
    requires IsLen(v, l) && l > 0.0
    ensures (v.x / l) * (v.x / l) + (v.y / l) * (v.y / l) == 1.0
  {
    UnitCore(v.x / l, v.y / l, v.x, v.y, l);
  }

  // Helpers for non-linear real arithmetic. Each one keeps products in
  // equalities, which the solver handles far more reliably than inequalities.

  lemma UnitCore(cx: real, cy: real, x: real, y: real, l: real)
    requires l > 0.0 && cx * l == x && cy * l == y && l * l == x * x + y * y
    ensures cx * cx + cy * cy == 1.0
  {
    assert (cx * cx + cy * cy - 1.0) * (l * l) == (cx * l) * (cx * l) + (cy * l) * (cy * l) - l * l;
    CancelSquare(cx * cx + cy * cy - 1.0, l);
  }

  lemma RotationKeepsSquares(x: real, y: real, c: real, s: real)
    requires c * c + s * s == 1.0
    ensures (x * c - y * s) * (x * c - y * s) + (x * s + y * c) * (x * s + y * c) == x * x + y * y
  {
  }

  lemma CancelSquare(s: real, l: real)
    requires l != 0.0 && s * (l * l) == 0.0
    ensures s == 0.0
  {
    ZeroProduct(s, l * l);
    if l * l == 0.0 {
      ZeroProduct(l, l);
    }
  }

  lemma SumSquaresZero(x: real, y: real)
    requires x * x + y * y == 0.0
    ensures x == 0.0 && y == 0.0
  {
    SquareNonNeg(x);
    SquareNonNeg(y);
    assert x * x == 0.0;
    ZeroProduct(x, x);
    ZeroProduct(y, y);
  }

  lemma RootOfSumBound(l: real, a: real, b: real)
    requires l >= 0.0 && a >= 0.0 && b >= 0.0 && l * l == a * a + b * b
    ensures l <= a + b
  {
    if l > a + b {
      var m := a + b;
      assert (l - m) * (l + m) == l * l - m * m;
      MulPos(l - m, l + m);
      MulNonNeg(a, b);
      assert false;
    }
  }

  lemma SquareNonNeg(a: real)
    ensures a * a >= 0.0
  {
  }

  /** The real-valued twin of `Arith.MulNonNeg`: `int` and `real` are distinct types in Dafny. */
  lemma MulNonNeg(a: real, b: real)
    requires a >= 0.0 && b >= 0.0
    ensures a * b >= 0.0
  {
  }

  lemma MulPos(a: real, b: real)
    requires a > 0.0 && b > 0.0
    ensures a * b > 0.0
  {
  }

  lemma DivByQuotient(x: real, l: real, max: real)
    requires l != 0.0 && max != 0.0
    ensures x / (l / max) == x / l * max
  {
  }

  lemma ZeroProduct(a: real, b: real)
    requires a * b == 0.0
    ensures a == 0.0 || b == 0.0
  {
  }
}
