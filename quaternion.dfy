/** The quaternion used by the camera controls (src/quaternion.rs): the Hamilton
    product, the conjugate, the rotation `q v q*` of a vector, and the
    quaternion built from an axis and an angle. Only `f32::sin_cos` lies outside
    the model; it is a parameter. */
module Quaternions {
  import opened Vectors

  /** `f32::sin_cos`: the sine and the cosine of an angle. */
  type SinCos = real -> (real, real)

  datatype Quaternion = Quaternion(w: real, x: real, y: real, z: real)
  {
    /** The vector part `(x, y, z)`. */
    function Vector(): Vec3
    {
      [x, y, z]
    }

    /** The squared norm `w^2 + x^2 + y^2 + z^2`. */
    function Norm2(): real
    {
      w * w + Dot(Vector(), Vector())
    }

    /** `multiply`: the Hamilton product (see `MultiplyParts`). */
    function Multiply(other: Quaternion): Quaternion
    {
      Quaternion(w * other.w - x * other.x - y * other.y - z * other.z,
                 w * other.x + x * other.w + y * other.z - z * other.y,
                 w * other.y - x * other.z + y * other.w + z * other.x,
                 w * other.z + x * other.y - y * other.x + z * other.w)
    }

    /** `conjugate`: the vector part negated. */
    function Conjugate(): Quaternion
    {
      Quaternion(w, -x, -y, -z)
    }

    /** `rotate_vector`: the vector part of `q (0, v) q*`. */
    function RotateVector(v: Vec3): Vec3
    {
      var qVec := Quaternion(0.0, v[0], v[1], v[2]);
      var qRotated := Multiply(qVec).Multiply(Conjugate());
      [qRotated.x, qRotated.y, qRotated.z]
    }
  }

  /** The Hamilton product in scalar and vector parts: the product of `(w1, u1)`
      and `(w2, u2)` is `(w1 w2 - u1 . u2, w1 u2 + w2 u1 + u1 x u2)`. */
  lemma MultiplyParts(q: Quaternion, r: Quaternion)
    ensures q.Multiply(r).w == q.w * r.w - Dot(q.Vector(), r.Vector())
    ensures q.Multiply(r).Vector() == Add(Combine(q.w, r.Vector(), r.w, q.Vector()), Cross(q.Vector(), r.Vector()))
  {
    VectorDot(q, r);
    MultiplyComponents(q, r);
    PartsComponents(q, r);
    SameComponents(q.Multiply(r).Vector(), Add(Combine(q.w, r.Vector(), r.w, q.Vector()), Cross(q.Vector(), r.Vector())));
  }

  lemma VectorDot(q: Quaternion, r: Quaternion)
    ensures Dot(q.Vector(), r.Vector()) == q.x * r.x + q.y * r.y + q.z * r.z
  {
  }

  /** The Hamilton product, component by component. */
  lemma MultiplyComponents(q: Quaternion, r: Quaternion)
    ensures q.Multiply(r).w == q.w * r.w - (q.x * r.x + q.y * r.y + q.z * r.z)
    ensures q.Multiply(r).Vector()[0] == q.w * r.x + q.x * r.w + q.y * r.z - q.z * r.y
    ensures q.Multiply(r).Vector()[1] == q.w * r.y - q.x * r.z + q.y * r.w + q.z * r.x
    ensures q.Multiply(r).Vector()[2] == q.w * r.z + q.x * r.y - q.y * r.x + q.z * r.w
  {
  }

  /** `w1 u2 + w2 u1 + u1 x u2`, component by component. */
  lemma PartsComponents(q: Quaternion, r: Quaternion)
    ensures Add(Combine(q.w, r.Vector(), r.w, q.Vector()), Cross(q.Vector(), r.Vector()))[0]
            == q.w * r.x + q.x * r.w + q.y * r.z - q.z * r.y
    ensures Add(Combine(q.w, r.Vector(), r.w, q.Vector()), Cross(q.Vector(), r.Vector()))[1]
            == q.w * r.y - q.x * r.z + q.y * r.w + q.z * r.x
    ensures Add(Combine(q.w, r.Vector(), r.w, q.Vector()), Cross(q.Vector(), r.Vector()))[2]
            == q.w * r.z + q.x * r.y - q.y * r.x + q.z * r.w
  {
  }

  /** The squared norm, component by component. */
  lemma Norm2Components(q: Quaternion)
    ensures q.Norm2() == q.w * q.w + (q.x * q.x + q.y * q.y + q.z * q.z)
  {
  }

  /** Conjugating twice gives the quaternion back, and a quaternion times its
      conjugate is its squared norm: the conjugate is the inverse only of a
      unit quaternion, which `rotate_vector` relies on. */
  lemma ConjugateProduct(q: Quaternion)
    ensures q.Conjugate().Conjugate() == q
    ensures q.Multiply(q.Conjugate()) == Quaternion(q.Norm2(), 0.0, 0.0, 0.0)
  {
    var p := q.Multiply(q.Conjugate());
    assert p.w == q.w * q.w + q.x * q.x + q.y * q.y + q.z * q.z;
    assert p.x == 0.0 && p.y == 0.0 && p.z == 0.0;
  }

  /** The rotation `(w^2 - u . u) v + 2 (u . v) u + 2 w (u x v)` of `v` by a
      quaternion with scalar part `w` and vector part `u`. */
  function RotationClosedForm(q: Quaternion, v: Vec3): Vec3
  {
    var u := q.Vector();
    var k, n := q.w * q.w - Dot(u, u), 2.0 * Dot(u, v);
    var c := Cross(u, v);
    [k * v[0] + n * u[0] + 2.0 * q.w * c[0],
     k * v[1] + n * u[1] + 2.0 * q.w * c[1],
     k * v[2] + n * u[2] + 2.0 * q.w * c[2]]
  }

  /** The dot and cross products of the vector part, in components. */
  lemma VectorPart(q: Quaternion, v: Vec3)
    ensures q.Vector()[0] == q.x && q.Vector()[1] == q.y && q.Vector()[2] == q.z
    ensures Dot(q.Vector(), q.Vector()) == q.x * q.x + q.y * q.y + q.z * q.z
    ensures Dot(q.Vector(), v) == q.x * v[0] + q.y * v[1] + q.z * v[2]
    ensures Cross(q.Vector(), v)[0] == q.y * v[2] - q.z * v[1]
    ensures Cross(q.Vector(), v)[1] == q.z * v[0] - q.x * v[2]
    ensures Cross(q.Vector(), v)[2] == q.x * v[1] - q.y * v[0]
  {
  }

  /** `rotate_vector` in closed form, for every quaternion, unit or not. */
  lemma RotateClosedForm(q: Quaternion, v: Vec3)
    ensures q.RotateVector(v) == RotationClosedForm(q, v)
  {
    RotateComponents(q, v);
    ClosedFormComponents(q, v);
    SameComponents(q.RotateVector(v), RotationClosedForm(q, v));
  }

  lemma RotateComponents(q: Quaternion, v: Vec3)
    ensures q.RotateVector(v)[0] == (q.w * q.w - (q.x * q.x + q.y * q.y + q.z * q.z)) * v[0] + 2.0 * (q.x * v[0] + q.y * v[1] + q.z * v[2]) * q.x + 2.0 * q.w * (q.y * v[2] - q.z * v[1])
    ensures q.RotateVector(v)[1] == (q.w * q.w - (q.x * q.x + q.y * q.y + q.z * q.z)) * v[1] + 2.0 * (q.x * v[0] + q.y * v[1] + q.z * v[2]) * q.y + 2.0 * q.w * (q.z * v[0] - q.x * v[2])
    ensures q.RotateVector(v)[2] == (q.w * q.w - (q.x * q.x + q.y * q.y + q.z * q.z)) * v[2] + 2.0 * (q.x * v[0] + q.y * v[1] + q.z * v[2]) * q.z + 2.0 * q.w * (q.x * v[1] - q.y * v[0])
  {
    var m := q.Multiply(Quaternion(0.0, v[0], v[1], v[2]));
    RotateVectorParts(q, v);
    FirstProduct(q, v);
    SecondProduct(m, q);
    RotateScalar(q.w, q.x, q.y, q.z, v[0], v[1], v[2], m.w, m.x, m.y, m.z);
  }

  /** `rotate_vector` reads the vector part of `q (0, v) q*`. */
  lemma RotateVectorParts(q: Quaternion, v: Vec3)
    ensures q.RotateVector(v)[0] == q.Multiply(Quaternion(0.0, v[0], v[1], v[2])).Multiply(q.Conjugate()).x
    ensures q.RotateVector(v)[1] == q.Multiply(Quaternion(0.0, v[0], v[1], v[2])).Multiply(q.Conjugate()).y
    ensures q.RotateVector(v)[2] == q.Multiply(Quaternion(0.0, v[0], v[1], v[2])).Multiply(q.Conjugate()).z
  {
  }

  /** `q (0, v)`, component by component. */
  lemma FirstProduct(q: Quaternion, v: Vec3)
    ensures q.Multiply(Quaternion(0.0, v[0], v[1], v[2])).w == q.w * 0.0 - q.x * v[0] - q.y * v[1] - q.z * v[2]
    ensures q.Multiply(Quaternion(0.0, v[0], v[1], v[2])).x == q.w * v[0] + q.x * 0.0 + q.y * v[2] - q.z * v[1]
    ensures q.Multiply(Quaternion(0.0, v[0], v[1], v[2])).y == q.w * v[1] - q.x * v[2] + q.y * 0.0 + q.z * v[0]
    ensures q.Multiply(Quaternion(0.0, v[0], v[1], v[2])).z == q.w * v[2] + q.x * v[1] - q.y * v[0] + q.z * 0.0
  {
  }

  /** `m q*`, component by component. */
  lemma SecondProduct(m: Quaternion, q: Quaternion)
    ensures m.Multiply(q.Conjugate()).x == m.w * (-q.x) + m.x * q.w + m.y * (-q.z) - m.z * (-q.y)
    ensures m.Multiply(q.Conjugate()).y == m.w * (-q.y) - m.x * (-q.z) + m.y * q.w + m.z * (-q.x)
    ensures m.Multiply(q.Conjugate()).z == m.w * (-q.z) + m.x * (-q.y) - m.y * (-q.x) + m.z * q.w
  {
  }

  /** `RotationClosedForm`, component by component. */
  lemma ClosedFormComponents(q: Quaternion, v: Vec3)
    ensures RotationClosedForm(q, v)[0] == (q.w * q.w - (q.x * q.x + q.y * q.y + q.z * q.z)) * v[0]
              + 2.0 * (q.x * v[0] + q.y * v[1] + q.z * v[2]) * q.x + 2.0 * q.w * (q.y * v[2] - q.z * v[1])
    ensures RotationClosedForm(q, v)[1] == (q.w * q.w - (q.x * q.x + q.y * q.y + q.z * q.z)) * v[1]
              + 2.0 * (q.x * v[0] + q.y * v[1] + q.z * v[2]) * q.y + 2.0 * q.w * (q.z * v[0] - q.x * v[2])
    ensures RotationClosedForm(q, v)[2] == (q.w * q.w - (q.x * q.x + q.y * q.y + q.z * q.z)) * v[2]
              + 2.0 * (q.x * v[0] + q.y * v[1] + q.z * v[2]) * q.z + 2.0 * q.w * (q.x * v[1] - q.y * v[0])
  {
    var u := q.Vector();
    VectorPart(q, v);
    ClosedFormTerm(q.w, v[0], Dot(u, u), q.x * q.x + q.y * q.y + q.z * q.z, Dot(u, v), q.x * v[0] + q.y * v[1] + q.z * v[2],
                   u[0], q.x, Cross(u, v)[0], q.y * v[2] - q.z * v[1]);
    ClosedFormTerm(q.w, v[1], Dot(u, u), q.x * q.x + q.y * q.y + q.z * q.z, Dot(u, v), q.x * v[0] + q.y * v[1] + q.z * v[2],
                   u[1], q.y, Cross(u, v)[1], q.z * v[0] - q.x * v[2]);
    ClosedFormTerm(q.w, v[2], Dot(u, u), q.x * q.x + q.y * q.y + q.z * q.z, Dot(u, v), q.x * v[0] + q.y * v[1] + q.z * v[2],
                   u[2], q.z, Cross(u, v)[2], q.x * v[1] - q.y * v[0]);
  }

  /** One component of the closed form, with equal terms exchanged. */
  lemma ClosedFormTerm(w: real, vd: real, uu: real, uu': real, uv: real, uv': real, ud: real, ud': real, cd: real, cd': real)
    requires uu == uu' && uv == uv' && ud == ud' && cd == cd'
    ensures (w * w - uu) * vd + 2.0 * uv * ud + 2.0 * w * cd == (w * w - uu') * vd + 2.0 * uv' * ud' + 2.0 * w * cd'
  {
  }

  /** The components of `(mw, mx, my, mz) q*` with `(mw, mx, my, mz) = q (0, v)`,
      expanded. */
  lemma RotateScalar(w: real, a: real, b: real, c: real, v0: real, v1: real, v2: real,
                     mw: real, mx: real, my: real, mz: real)
    requires mw == w * 0.0 - a * v0 - b * v1 - c * v2 && mx == w * v0 + a * 0.0 + b * v2 - c * v1
    requires my == w * v1 - a * v2 + b * 0.0 + c * v0 && mz == w * v2 + a * v1 - b * v0 + c * 0.0
    ensures mw * (-a) + mx * w + my * (-c) - mz * (-b)
            == (w * w - (a * a + b * b + c * c)) * v0 + 2.0 * (a * v0 + b * v1 + c * v2) * a + 2.0 * w * (b * v2 - c * v1)
    ensures mw * (-b) - mx * (-c) + my * w + mz * (-a)
            == (w * w - (a * a + b * b + c * c)) * v1 + 2.0 * (a * v0 + b * v1 + c * v2) * b + 2.0 * w * (c * v0 - a * v2)
    ensures mw * (-c) + mx * (-b) - my * (-a) + mz * w
            == (w * w - (a * a + b * b + c * c)) * v2 + 2.0 * (a * v0 + b * v1 + c * v2) * c + 2.0 * w * (a * v1 - b * v0)
  {
  }

  /** A direction orthogonal to the vector part is rotated to
      `(w^2 - u . u) v + 2 w (u x v)`. */
  lemma RotatePerpendicular(q: Quaternion, v: Vec3)
    requires Dot(q.Vector(), v) == 0.0
    ensures q.RotateVector(v) == Turn(q, v)
  {
    RotateClosedForm(q, v);
    var f, g := RotationClosedForm(q, v), Turn(q, v);
    assert f[0] == g[0] && f[1] == g[1] && f[2] == g[2];
  }

  /** `(w^2 - u . u) v + 2 w (u x v)`: where the rotation by `q` takes a
      direction `v` orthogonal to the vector part `u`. */
  function Turn(q: Quaternion, v: Vec3): Vec3
  {
    Combine(q.w * q.w - Dot(q.Vector(), q.Vector()), v, 2.0 * q.w, Cross(q.Vector(), v))
  }

  /** `Quaternion::from_axis_angle`: the cosine of the half angle as scalar
      part, the axis scaled by its sine as vector part. Its squared norm is
      `cos^2 + sin^2 |axis|^2`, so it is a unit quaternion only when the axis
      has unit length (or the sine is 0). */
  function FromAxisAngle(axis: Vec3, angle: real, sinCos: SinCos): (q: Quaternion)
    ensures q.w == sinCos(angle / 2.0).1
    ensures q.Vector() == Combine(sinCos(angle / 2.0).0, axis, 0.0, axis)
    ensures q.Norm2() == sinCos(angle / 2.0).1 * sinCos(angle / 2.0).1
                         + sinCos(angle / 2.0).0 * sinCos(angle / 2.0).0 * Dot(axis, axis)
  {
    var halfAngle := angle / 2.0;
    var (sinHalfAngle, cosHalfAngle) := sinCos(halfAngle);
    var q := Quaternion(cosHalfAngle, axis[0] * sinHalfAngle, axis[1] * sinHalfAngle, axis[2] * sinHalfAngle);
    ScaledDot(sinCos(halfAngle), axis, axis);
    q
  }

  /** `sin * axis` dotted with any `v`, and with itself. */
  lemma ScaledDot(sc: (real, real), axis: Vec3, v: Vec3)
    ensures Dot(Combine(sc.0, axis, 0.0, axis), v) == sc.0 * Dot(axis, v)
    ensures Dot(Combine(sc.0, axis, 0.0, axis), Combine(sc.0, axis, 0.0, axis)) == sc.0 * sc.0 * Dot(axis, axis)
  {
    var s, u := sc.0, Combine(sc.0, axis, 0.0, axis);
    assert u[0] == s * axis[0] && u[1] == s * axis[1] && u[2] == s * axis[2];
    assert Dot(u, v) == s * axis[0] * v[0] + s * axis[1] * v[1] + s * axis[2] * v[2];
    assert Dot(u, u) == s * s * (axis[0] * axis[0]) + s * s * (axis[1] * axis[1]) + s * s * (axis[2] * axis[2]);
  }

  /** A direction orthogonal to `a` and to `u x a` is orthogonal to `Turn(q, a)`. */
  lemma TurnKeepsOrthogonal(x: Vec3, q: Quaternion, a: Vec3)
    requires Dot(x, a) == 0.0 && Dot(x, Cross(q.Vector(), a)) == 0.0
    ensures Dot(x, Turn(q, a)) == 0.0
  {
    var u := q.Vector();
    DotWithCombination(x, q.w * q.w - Dot(u, u), a, 2.0 * q.w, Cross(u, a));
  }

  /** The dot product with a combination, expanded. */
  lemma DotWithCombination(x: Vec3, k: real, a: Vec3, m: real, c: Vec3)
    ensures Dot(x, Combine(k, a, m, c)) == k * Dot(x, a) + m * Dot(x, c)
  {
  }

  /** Rotating about an axis scales the axis by the quaternion's squared norm:
      only a unit quaternion leaves its axis where it is. */
  lemma RotateAxis(axis: Vec3, angle: real, sinCos: SinCos)
    ensures var q := FromAxisAngle(axis, angle, sinCos);
            q.RotateVector(axis) == Combine(q.Norm2(), axis, 0.0, axis)
  {
    AxisAngleParts(axis, angle, sinCos);
    RotateScaledAxis(axis, sinCos(angle / 2.0));
  }

  /** The quaternion `(cos, sin axis)` for a pair `(sin, cos)`. */
  function ScaledAxis(axis: Vec3, sc: (real, real)): Quaternion
  {
    Quaternion(sc.1, axis[0] * sc.0, axis[1] * sc.0, axis[2] * sc.0)
  }

  /** `from_axis_angle` is `ScaledAxis` of the half angle's sine and cosine. */
  lemma AxisAngleParts(axis: Vec3, angle: real, sinCos: SinCos)
    ensures FromAxisAngle(axis, angle, sinCos) == ScaledAxis(axis, sinCos(angle / 2.0))
  {
  }

  /** `(cos, sin axis)` scales `axis` by its squared norm. */
  lemma RotateScaledAxis(axis: Vec3, sc: (real, real))
    ensures var q := ScaledAxis(axis, sc);
            q.RotateVector(axis) == Combine(q.Norm2(), axis, 0.0, axis)
  {
    var q := ScaledAxis(axis, sc);
    RotateComponents(q, axis);
    AxisScalar(q, axis, sc);
    SameComponents(q.RotateVector(axis), Combine(q.Norm2(), axis, 0.0, axis));
  }

  /** The rotation of `axis` by `(cos, sin axis)`, expanded. */
  lemma AxisScalar(q: Quaternion, axis: Vec3, sc: (real, real))
    requires q == Quaternion(sc.1, axis[0] * sc.0, axis[1] * sc.0, axis[2] * sc.0)
    ensures (q.w * q.w - (q.x * q.x + q.y * q.y + q.z * q.z)) * axis[0]
            + 2.0 * (q.x * axis[0] + q.y * axis[1] + q.z * axis[2]) * q.x + 2.0 * q.w * (q.y * axis[2] - q.z * axis[1])
            == Combine(q.Norm2(), axis, 0.0, axis)[0]
    ensures (q.w * q.w - (q.x * q.x + q.y * q.y + q.z * q.z)) * axis[1]
            + 2.0 * (q.x * axis[0] + q.y * axis[1] + q.z * axis[2]) * q.y + 2.0 * q.w * (q.z * axis[0] - q.x * axis[2])
            == Combine(q.Norm2(), axis, 0.0, axis)[1]
    ensures (q.w * q.w - (q.x * q.x + q.y * q.y + q.z * q.z)) * axis[2]
            + 2.0 * (q.x * axis[0] + q.y * axis[1] + q.z * axis[2]) * q.z + 2.0 * q.w * (q.x * axis[1] - q.y * axis[0])
            == Combine(q.Norm2(), axis, 0.0, axis)[2]
  {
  }

  /** Rotating two directions orthogonal to each other and to the axis keeps
      them orthogonal to each other and to the axis. This holds for every axis
      length, unit or not. */
  lemma RotationKeepsOrthogonal(axis: Vec3, angle: real, sinCos: SinCos, a: Vec3, b: Vec3)
    requires Orthogonal(axis, a, b)
    ensures var q := FromAxisAngle(axis, angle, sinCos);
            Orthogonal(axis, q.RotateVector(a), q.RotateVector(b))
  {
    AxisStaysOrthogonal(axis, angle, sinCos, a);
    AxisStaysOrthogonal(axis, angle, sinCos, b);
    PairStaysOrthogonal(axis, angle, sinCos, a, b);
  }

  /** A direction orthogonal to the axis stays orthogonal to it. */
  lemma AxisStaysOrthogonal(axis: Vec3, angle: real, sinCos: SinCos, a: Vec3)
    requires Dot(axis, a) == 0.0
    ensures Dot(axis, FromAxisAngle(axis, angle, sinCos).RotateVector(a)) == 0.0
  {
    var q := FromAxisAngle(axis, angle, sinCos);
    PerpendicularToAxis(axis, angle, sinCos, a);
    AxisOrthogonalToCross(sinCos(angle / 2.0), axis, a);
    TurnKeepsOrthogonal(axis, q, a);
  }

  /** Two directions orthogonal to the axis and to each other stay orthogonal
      to each other. */
  lemma PairStaysOrthogonal(axis: Vec3, angle: real, sinCos: SinCos, a: Vec3, b: Vec3)
    requires Orthogonal(axis, a, b)
    ensures var q := FromAxisAngle(axis, angle, sinCos);
            Dot(q.RotateVector(a), q.RotateVector(b)) == 0.0
  {
    var q := FromAxisAngle(axis, angle, sinCos);
    PerpendicularToAxis(axis, angle, sinCos, a);
    PerpendicularToAxis(axis, angle, sinCos, b);
    PairAfterRotation(q, a, b);
  }

  /** A direction orthogonal to the axis is orthogonal to the vector part, and
      is rotated to `(w^2 - u . u) v + 2 w (u x v)`. */
  lemma PerpendicularToAxis(axis: Vec3, angle: real, sinCos: SinCos, a: Vec3)
    requires Dot(axis, a) == 0.0
    ensures var q := FromAxisAngle(axis, angle, sinCos);
            Dot(q.Vector(), a) == 0.0 && q.RotateVector(a) == Turn(q, a)
  {
    ScaledDot(sinCos(angle / 2.0), axis, a);
    RotatePerpendicular(FromAxisAngle(axis, angle, sinCos), a);
  }

  /** Rotating a direction orthogonal to the axis multiplies its squared length
      by the square of the quaternion's squared norm. */
  lemma RotationScalesLength(axis: Vec3, angle: real, sinCos: SinCos, a: Vec3)
    requires Dot(axis, a) == 0.0
    ensures var q := FromAxisAngle(axis, angle, sinCos);
            LengthScaled(a, q.RotateVector(a), q.Norm2())
  {
    PerpendicularToAxis(axis, angle, sinCos, a);
    PerpendicularLength(FromAxisAngle(axis, angle, sinCos), a);
  }

  /** `v -> (w^2 - u . u) v + 2 w (u x v)` scales the squared length of a
      direction orthogonal to `u` by the square of the squared norm. */
  lemma PerpendicularLength(q: Quaternion, a: Vec3)
    requires Dot(q.Vector(), a) == 0.0
    ensures LengthScaled(a, Turn(q, a), q.Norm2())
  {
    var u := q.Vector();
    var k, m, uu := q.w * q.w - Dot(u, u), 2.0 * q.w, Dot(u, u);
    LengthAfterRotation(k, m, u, a);
    SumOfSquares(q.w, uu, k, m, q.Norm2());
    MulBoth(k * k + m * m * uu, q.Norm2() * q.Norm2(), Dot(a, a));
  }

  /** The squared length of `turned` is that of `v` times `n2 * n2`. */
  predicate LengthScaled(v: Vec3, turned: Vec3, n2: real)
  {
    Dot(turned, turned) == n2 * n2 * Dot(v, v)
  }

  lemma MulBoth(x: real, y: real, z: real)
    requires x == y
    ensures x * z == y * z
  {
  }

  lemma SumOfSquares(c: real, uu: real, k: real, m: real, n2: real)
    requires k == c * c - uu && m == 2.0 * c && n2 == c * c + uu
    ensures k * k + m * m * uu == n2 * n2
  {
  }

  /** Two directions orthogonal to the vector part `u` and to each other stay
      orthogonal under `v -> (w^2 - u . u) v + 2 w (u x v)`. */
  lemma PairAfterRotation(q: Quaternion, a: Vec3, b: Vec3)
    requires Dot(q.Vector(), a) == 0.0 && Dot(q.Vector(), b) == 0.0 && Dot(a, b) == 0.0
    ensures Dot(Turn(q, a), Turn(q, b)) == 0.0
  {
    var u := q.Vector();
    var ca, cb := Cross(u, a), Cross(u, b);
    DotOfCombinations(q.w * q.w - Dot(u, u), 2.0 * q.w, a, ca, b, cb);
    TripleProductSwap(u, a, b);
    CrossLagrange(u, a, b);
    var dab, dcc, dx := Dot(a, b), Dot(ca, cb), Dot(a, cb) + Dot(ca, b);
    assert dcc == Dot(u, u) * dab - Dot(u, a) * Dot(u, b);
    assert dcc == 0.0 && dx == 0.0 && dab == 0.0;
  }

  /** `v -> k v + m (u x v)` scales the squared length of a direction orthogonal
      to `u` by `k^2 + m^2 (u . u)`. */
  lemma LengthAfterRotation(k: real, m: real, u: Vec3, a: Vec3)
    requires Dot(u, a) == 0.0
    ensures Dot(Combine(k, a, m, Cross(u, a)), Combine(k, a, m, Cross(u, a)))
            == (k * k + m * m * Dot(u, u)) * Dot(a, a)
  {
    var ca := Cross(u, a);
    DotOfCombinations(k, m, a, ca, a, ca);
    CrossLagrange(u, a, a);
    CrossOrthogonal(u, a);
    DotSymmetric(a, ca);
    var aa, uu, dcc := Dot(a, a), Dot(u, u), Dot(ca, ca);
    assert dcc == uu * aa - Dot(u, a) * Dot(u, a);
    assert dcc == uu * aa;
    assert Dot(a, ca) + Dot(ca, a) == 0.0;
    assert k * k * aa + k * m * 0.0 + m * m * (uu * aa) == (k * k + m * m * uu) * aa;
  }

  /** The axis is orthogonal to `(sin * axis) x a`. */
  lemma AxisOrthogonalToCross(sc: (real, real), axis: Vec3, a: Vec3)
    ensures Dot(axis, Cross(Combine(sc.0, axis, 0.0, axis), a)) == 0.0
  {
    var s, u := sc.0, Combine(sc.0, axis, 0.0, axis);
    var cr, ca := Cross(u, a), Cross(axis, a);
    assert cr[0] == s * ca[0] && cr[1] == s * ca[1] && cr[2] == s * ca[2];
    CrossOrthogonal(axis, a);
    assert Dot(axis, cr) == s * Dot(ca, axis);
  }

  /** The quaternion built from the normalised axis: the evidently intended
      unit quaternion. When `normalize` gives a unit vector and `sin_cos`
      satisfies `sin^2 + cos^2 = 1`, it has norm 1. */
  function FromUnitAxisAngle(axis: Vec3, angle: real, sinCos: SinCos, normalize: Vec3 -> Vec3): (q: Quaternion)
    ensures Dot(normalize(axis), normalize(axis)) == 1.0 && PythagoreanAt(sinCos, angle / 2.0)
            ==> q.Norm2() == 1.0
  {
    FromAxisAngle(normalize(axis), angle, sinCos)
  }

  /** `sin^2 + cos^2 = 1` at `t`. */
  predicate PythagoreanAt(sinCos: SinCos, t: real)
  {
    sinCos(t).0 * sinCos(t).0 + sinCos(t).1 * sinCos(t).1 == 1.0
  }

  /** With a unit axis the rotation is rigid: the axis stays where it is, and
      two directions orthogonal to it and to each other keep their lengths and
      stay orthogonal. */
  lemma UnitAxisRotationIsRigid(axis: Vec3, angle: real, sinCos: SinCos, a: Vec3, b: Vec3)
    requires Dot(axis, axis) == 1.0 && PythagoreanAt(sinCos, angle / 2.0)
    requires Orthogonal(axis, a, b)
    ensures var q := FromAxisAngle(axis, angle, sinCos);
            && q.RotateVector(axis) == axis
            && Orthogonal(axis, q.RotateVector(a), q.RotateVector(b))
            && Dot(q.RotateVector(a), q.RotateVector(a)) == Dot(a, a)
            && Dot(q.RotateVector(b), q.RotateVector(b)) == Dot(b, b)
  {
    var q := FromAxisAngle(axis, angle, sinCos);
    assert q.Norm2() == 1.0;
    RotateAxis(axis, angle, sinCos);
    var g := Combine(1.0, axis, 0.0, axis);
    assert g[0] == axis[0] && g[1] == axis[1] && g[2] == axis[2];
    RotationKeepsOrthogonal(axis, angle, sinCos, a, b);
    RotationScalesLength(axis, angle, sinCos, a);
    RotationScalesLength(axis, angle, sinCos, b);
  }
}
