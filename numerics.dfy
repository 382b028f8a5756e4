/** The numpy vocabulary the Dubins construction is written in: 2D vectors,
    the 3D cross product, the Euclidean norm, `isclose` against zero, Python's
    floating-point `%`, and the elementary functions (pi, sin, cos, arccos,
    atan2, sqrt). Numbers are exact reals. The elementary functions cannot be
    defined exactly over the reals, so they are passed around as one value of
    type `Elementary` and every proof that needs one of their properties
    assumes, through a `requires`, the law that states it. */
module Numerics {

  /** A 2D vector or point (a numpy array of shape (2,)). */
  datatype Vec = Vec(x: real, y: real)

  /** A 3D vector, used only for numpy's `cross` in the centre computation. */
  datatype Vec3 = Vec3(x: real, y: real, z: real)

  function Add(u: Vec, v: Vec): Vec {
    Vec(u.x + v.x, u.y + v.y)
  }

  function Sub(u: Vec, v: Vec): Vec {
    Vec(u.x - v.x, u.y - v.y)
  }

  /** `v * k`, scalar multiplication. */
  function Scale(k: real, v: Vec): Vec {
    Vec(k * v.x, k * v.y)
  }

  /** `v / k`, element-wise division by a non-zero scalar. */
  function DivideBy(v: Vec, k: real): Vec
    requires k != 0.0
  {
    Vec(v.x / k, v.y / k)
  }

  function Dot(u: Vec, v: Vec): real {
    u.x * v.x + u.y * v.y
  }

  /** The z component of the 3D cross product of two plane vectors; positive
      when `v` points to the left of `u`. */
  function Cross(u: Vec, v: Vec): real {
    u.x * v.y - u.y * v.x
  }

  /** The squared Euclidean norm, the dot product of `v` with itself. */
  function NormSq(v: Vec): real {
    v.x * v.x + v.y * v.y
  }

  /** numpy's `cross` on 3D vectors. */
  function Cross3(u: Vec3, v: Vec3): Vec3 {
    Vec3(u.y * v.z - u.z * v.y, u.z * v.x - u.x * v.z, u.x * v.y - u.y * v.x)
  }

  /** The elementary functions, as numpy provides them. */
  datatype Elementary = Elementary(
    pi: real,
    sin: real -> real,
    cos: real -> real,
    arccos: real -> real,
    atan2: (real, real) -> real,
    sqrt: real -> real)

  predicate PiLaws(m: Elementary) {
    m.pi > 0.0
  }

  /** `m.sqrt(x)`, named so that the square-root law below is used only
      where a proof mentions it (through NormLaws or SqrtOfSquare). */
  function SquareRoot(m: Elementary, x: real): real {
    m.sqrt(x)
  }

  /** The square root of a non-negative number is the non-negative number
      whose square it is. */
  ghost predicate SqrtLaws(m: Elementary) {
    forall x {:trigger SquareRoot(m, x)} ::
      0.0 <= x ==> 0.0 <= SquareRoot(m, x) && SquareRoot(m, x) * SquareRoot(m, x) == x
  }

  /** `a` advanced by half a turn. It is named so that the half-turn law
      below is used only where a proof mentions it. */
  function HalfTurnFrom(m: Elementary, a: real): real {
    a + m.pi
  }

  /** `-a`, named for the same reason as HalfTurnFrom. */
  function Opposite(a: real): real {
    -a
  }

  /** cos^2 + sin^2 at `a`, named so that the Pythagorean identity below is
      used only where a proof mentions it. */
  function PythagoreanSum(m: Elementary, a: real): real {
    m.cos(a) * m.cos(a) + m.sin(a) * m.sin(a)
  }

  /** What rotations need: the Pythagorean identity, the values at a quarter
      turn either way, the half-turn shift and the parity of cos and sin. */
  ghost predicate RotationLaws(m: Elementary) {
    && (forall a {:trigger PythagoreanSum(m, a)} :: PythagoreanSum(m, a) == 1.0)
    && m.cos(0.5 * m.pi) == 0.0 && m.sin(0.5 * m.pi) == 1.0
    && m.cos(-0.5 * m.pi) == 0.0 && m.sin(-0.5 * m.pi) == -1.0
    && (forall a {:trigger HalfTurnFrom(m, a)} ::
          m.cos(HalfTurnFrom(m, a)) == -m.cos(a) && m.sin(HalfTurnFrom(m, a)) == -m.sin(a))
    && (forall a {:trigger Opposite(a)} ::
          m.cos(Opposite(a)) == m.cos(a) && m.sin(Opposite(a)) == -m.sin(a))
  }

  ghost predicate ArccosLaws(m: Elementary) {
    forall x :: -1.0 <= x <= 1.0 ==> m.cos(m.arccos(x)) == x
  }

  /** atan2(y, x) on the positive x axis and on both halves of the y axis. */
  ghost predicate Atan2Laws(m: Elementary) {
    && (forall x :: 0.0 < x ==> m.atan2(0.0, x) == 0.0)
    && (forall y :: 0.0 < y ==> m.atan2(y, 0.0) == 0.5 * m.pi)
    && (forall y :: y < 0.0 ==> m.atan2(y, 0.0) == -0.5 * m.pi)
  }

  /** `np.linalg.norm` of a 2D vector. */
  function Norm(m: Elementary, v: Vec): real {
    m.sqrt(NormSq(v))
  }

  /** Absolute tolerance of `np.isclose` by default. Its relative tolerance is
      multiplied by the magnitude of the second operand, which is 0 at every
      call in the source, so `isclose(a, 0.0)` is `|a| <= Atol`. */
  const Atol: real := 0.00000001

  predicate IsCloseToZero(a: real) {
    -Atol <= a <= Atol
  }

  /** Python's `%` on floats: the result has the sign of the (positive)
      modulus, so it always lies in [0, modulus). */
  function FloorMod(x: real, modulus: real): (r: real)
    requires 0.0 < modulus
    ensures 0.0 <= r < modulus
  {
    var q := x / modulus;
    var f := q.Floor as real;
    var t := q - f;
    assert 0.0 <= t < 1.0;
    ScaledFraction(modulus, t);
    var kt := modulus * t;
    assert 0.0 <= kt < modulus;
    assert kt == x - modulus * f;
    x - modulus * f
  }

  /** FloorMod(x, modulus) is the one number in [0, modulus) that differs
      from x by a whole number of moduli. */
  lemma {:induction false} FloorModOfShift(x: real, modulus: real, n: int)
    requires 0.0 < modulus
    requires 0.0 <= x + n as real * modulus < modulus
    ensures FloorMod(x, modulus) == x + n as real * modulus
  {
    var y := x + n as real * modulus;
    var q := x / modulus;
    QuotientOfShift(x, modulus, n);
    assert q == y / modulus - n as real;
    QuotientBelowOne(y, modulus);
    assert q.Floor == -n;
    assert modulus * (q.Floor as real) == -(n as real * modulus);
  }

  lemma QuotientOfShift(x: real, modulus: real, n: int)
    requires 0.0 < modulus
    ensures x / modulus == (x + n as real * modulus) / modulus - n as real
  {
  }

  lemma QuotientBelowOne(y: real, modulus: real)
    requires 0.0 < modulus && 0.0 <= y < modulus
    ensures 0.0 <= y / modulus < 1.0
  {
    var q := y / modulus;
    assert q * modulus == y;
    if 1.0 <= q {
      AtLeastOnce(q, modulus);
      assert false;
    }
    if q < 0.0 {
      MultiplyMonotonic(q, 0.0, modulus);
      assert false;
    }
  }

  lemma MultiplyMonotonic(a: real, b: real, c: real)
    requires 0.0 < c && a <= b
    ensures a * c <= b * c
  {
  }

  lemma AtLeastOnce(q: real, c: real)
    requires 0.0 < c && 1.0 <= q
    ensures c <= q * c
  {
    MultiplyMonotonic(1.0, q, c);
  }

  lemma ScaledFraction(k: real, t: real)
    requires 0.0 < k && 0.0 <= t < 1.0
    ensures 0.0 <= k * t < k
  {
  }

  /** The norm is non-negative and its square is the squared norm. */
  lemma NormLaws(m: Elementary, v: Vec)
    requires SqrtLaws(m)
    ensures 0.0 <= Norm(m, v) && Norm(m, v) * Norm(m, v) == NormSq(v)
  {
    assert 0.0 <= NormSq(v);
    assert SquareRoot(m, NormSq(v)) == Norm(m, v);
  }

  /** The square root of a square is the non-negative base. */
  lemma SqrtOfSquare(m: Elementary, s: real)
    requires SqrtLaws(m) && 0.0 <= s
    ensures m.sqrt(s * s) == s
  {
    var r := SquareRoot(m, s * s);
    if r < s {
      SquareStrictlyMonotonic(r, s);
    } else if s < r {
      SquareStrictlyMonotonic(s, r);
    }
  }

  lemma SquareStrictlyMonotonic(a: real, b: real)
    requires 0.0 <= a < b
    ensures a * a < b * b
  {
    var aa, ab, bb := a * a, a * b, b * b;
    assert aa <= ab;
    assert ab < bb;
    LessTransitive(aa, ab, bb);
  }

  lemma LessTransitive(a: real, b: real, c: real)
    requires a <= b < c
    ensures a < c
  {
  }
}
