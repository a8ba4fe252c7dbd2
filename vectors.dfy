/**
 * The vector primitive of src/math/Vec3.cpp and the `lerp` of src/math/Algorithms.h.
 * Components are reals; the operators are total except `/`, which follows
 * floating-point division through the platform.
 */
module Vectors {
  import opened Platform

  datatype Vec3 = Vec3(x: real, y: real, z: real)

  /** `Vec3()`: every component 0. */
  const Zero: Vec3 := Vec3(0.0, 0.0, 0.0)

  /** `a + b` */
  function Add(a: Vec3, b: Vec3): Vec3 {
    Vec3(a.x + b.x, a.y + b.y, a.z + b.z)
  }

  /** `a - b` */
  function Sub(a: Vec3, b: Vec3): Vec3 {
    Vec3(a.x - b.x, a.y - b.y, a.z - b.z)
  }

  /** `v * s` */
  function Scale(v: Vec3, s: real): Vec3 {
    Vec3(v.x * s, v.y * s, v.z * s)
  }

  /** `s * v`, the free operator, defined through `v * s` */
  function ScaleLeft(s: real, v: Vec3): Vec3 {
    Scale(v, s)
  }

  /** `v / s`: componentwise floating-point division */
  function Divide(p: Platform, v: Vec3, s: real): (r: Vec3)
    ensures s != 0.0 ==> Scale(r, s) == v
  {
    Vec3(p.Div(v.x, s), p.Div(v.y, s), p.Div(v.z, s))
  }

  function Dot(a: Vec3, b: Vec3): real {
    a.x * b.x + a.y * b.y + a.z * b.z
  }

  /** `a.cross(b)`; used by the Coriolis and spin-drift forces (not declared in the shown Vec3.h) */
  function Cross(a: Vec3, b: Vec3): Vec3 {
    Vec3(a.y * b.z - a.z * b.y, a.z * b.x - a.x * b.z, a.x * b.y - a.y * b.x)
  }

  function LengthSquared(v: Vec3): real {
    v.x * v.x + v.y * v.y + v.z * v.z
  }

  /** `v.length()` */
  function Length(p: Platform, v: Vec3): real {
    p.sqrt(LengthSquared(v))
  }

  /** Over reals, subtracting what was added gives back the original vector. */
  lemma AddThenSub(a: Vec3, b: Vec3)
    ensures Sub(Add(a, b), b) == a
    ensures Add(Sub(a, b), b) == a
  {
  }

  /** `s * v == v * s`, componentwise `s * v_i`. */
  lemma ScaleLeftCommutes(s: real, v: Vec3)
    ensures ScaleLeft(s, v) == Vec3(s * v.x, s * v.y, s * v.z)
    ensures ScaleLeft(s, v) == Scale(v, s)
  {
  }

  /** The cross product is perpendicular to both of its arguments. */
  lemma CrossPerpendicular(a: Vec3, b: Vec3)
    ensures Dot(Cross(a, b), a) == 0.0
    ensures Dot(Cross(a, b), b) == 0.0
  {
  }

  lemma CrossWithZero(a: Vec3)
    ensures Cross(a, Zero) == Zero
  {
  }

  lemma DotScale(v: Vec3, s: real, w: Vec3)
    ensures Dot(Scale(v, s), w) == s * Dot(v, w)
  {
  }

  lemma LengthSquaredScale(v: Vec3, s: real)
    ensures LengthSquared(Scale(v, s)) == s * s * LengthSquared(v)
  {
  }

  lemma SquareNonNegative(a: real)
    ensures a * a >= 0.0
  {
    if a < 0.0 {
      assert a * a == (-a) * (-a);
    }
  }

  lemma LengthSquaredNonNegative(v: Vec3)
    ensures LengthSquared(v) >= 0.0
  {
    SquareNonNegative(v.x);
    SquareNonNegative(v.y);
    SquareNonNegative(v.z);
  }

  /** Under sound square roots the length is non-negative and squares to the squared length. */
  lemma LengthFacts(p: Platform, v: Vec3)
    requires p.Sound()
    ensures Length(p, v) >= 0.0
    ensures Length(p, v) * Length(p, v) == LengthSquared(v)
  {
    LengthSquaredNonNegative(v);
  }

  /**
   * The compound assignments `+=`, `-=` and `*=`, which update one vector in place.
   */
  class MutableVec3 {
    var x: real
    var y: real
    var z: real

    function Value(): Vec3
      reads this
    {
      Vec3(x, y, z)
    }

    constructor (v: Vec3)
      ensures Value() == v
    {
      x, y, z := v.x, v.y, v.z;
    }

    /** `*this += rhs` */
    method AddAssign(rhs: Vec3)
      modifies this
      ensures Value() == Add(old(Value()), rhs)
    {
      x := x + rhs.x;
      y := y + rhs.y;
      z := z + rhs.z;
    }

    /** `*this -= rhs` */
    method SubAssign(rhs: Vec3)
      modifies this
      ensures Value() == Sub(old(Value()), rhs)
    {
      x := x - rhs.x;
      y := y - rhs.y;
      z := z - rhs.z;
    }

    /** `*this *= scalar` */
    method ScaleAssign(scalar: real)
      modifies this
      ensures Value() == Scale(old(Value()), scalar)
    {
      x := x * scalar;
      y := y * scalar;
      z := z * scalar;
    }
  }
}

/** `math::lerp` of src/math/Algorithms.h, and `std::abs` on reals. */
module Algorithms {

  function Abs(x: real): (r: real)
    ensures r >= 0.0 && (r == x || r == -x)
  {
    if x < 0.0 then -x else x
  }

  /** `y1 + t * (y2 - y1)` */
  function Lerp(y1: real, y2: real, t: real): real {
    y1 + t * (y2 - y1)
  }

  lemma LerpEndpoints(y1: real, y2: real)
    ensures Lerp(y1, y2, 0.0) == y1
    ensures Lerp(y1, y2, 1.0) == y2
  {
  }

  lemma LerpConstant(y: real, t: real)
    ensures Lerp(y, y, t) == y
  {
  }

  /** For `t` in [0, 1] the result lies between the two end values, in either order. */
  lemma LerpBetween(y1: real, y2: real, t: real)
    requires 0.0 <= t <= 1.0
    ensures y1 <= y2 ==> y1 <= Lerp(y1, y2, t) <= y2
    ensures y2 <= y1 ==> y2 <= Lerp(y1, y2, t) <= y1
  {
    var d := y2 - y1;
    assert Lerp(y1, y2, t) == y1 + t * d;
    if d >= 0.0 {
      MulBounds(t, d);
      assert 0.0 <= t * d <= d;
    } else {
      MulBounds(t, -d);
      MulNegate(t, d);
      assert d <= t * d <= 0.0;
    }
  }

  lemma MulNegate(t: real, d: real)
    ensures t * -d == -(t * d)
  {
  }

  /** A factor in [0, 1] scales a non-negative value into [0, that value]. */
  lemma MulBounds(t: real, d: real)
    requires 0.0 <= t <= 1.0 && d >= 0.0
    ensures 0.0 <= t * d <= d
  {
    assert d - t * d == (1.0 - t) * d;
  }
}
