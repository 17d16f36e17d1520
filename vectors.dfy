/** Shared value types of the voxel tracer: fixed-length float vectors (f32 modelled
    as real), the f32 range used as sentinels, and the cross product of
    src/path_tracing/vector_funcs.rs. */
module Vectors {

  /** `[f32; 3]` */
  type Vec3 = s: seq<real> | |s| == 3 witness [0.0, 0.0, 0.0]

  /** `[f32; 4]`: colours (rgba) and padded positions */
  type Vec4 = s: seq<real> | |s| == 4 witness [0.0, 0.0, 0.0, 0.0]

  /** `f32::MAX`, the largest finite single-precision value, as an exact real */
  const F32_MAX: real := 340282346638528859811704183484516925440.0

  /** `f32::MIN`, the most negative finite single-precision value */
  const F32_MIN: real := -F32_MAX

  const ZERO4: Vec4 := [0.0, 0.0, 0.0, 0.0]

  datatype Option<T> = None | Some(value: T)

  function Min(a: real, b: real): (m: real)
    ensures m <= a && m <= b && (m == a || m == b)
  {
    if a <= b then a else b
  }

  function Max(a: real, b: real): (m: real)
    ensures m >= a && m >= b && (m == a || m == b)
  {
    if a >= b then a else b
  }

  function Sub(a: Vec3, b: Vec3): Vec3
  {
    [a[0] - b[0], a[1] - b[1], a[2] - b[2]]
  }

  function Dot(a: Vec3, b: Vec3): real
  {
    a[0] * b[0] + a[1] * b[1] + a[2] * b[2]
  }

  function Add(a: Vec3, b: Vec3): Vec3
  {
    [a[0] + b[0], a[1] + b[1], a[2] + b[2]]
  }

  /** `k * a + m * c`, component by component. */
  function Combine(k: real, a: Vec3, m: real, c: Vec3): Vec3
  {
    [k * a[0] + m * c[0], k * a[1] + m * c[1], k * a[2] + m * c[2]]
  }

  /** Vectors with the same components are equal. */
  lemma SameComponents(a: Vec3, b: Vec3)
    requires a[0] == b[0] && a[1] == b[1] && a[2] == b[2]
    ensures a == b
  {
  }

  /** Three pairwise orthogonal directions. */
  predicate Orthogonal(a: Vec3, b: Vec3, c: Vec3)
  {
    Dot(a, b) == 0.0 && Dot(a, c) == 0.0 && Dot(b, c) == 0.0
  }

  /** `cross_vector(v, u)` */
  function Cross(v: Vec3, u: Vec3): Vec3
  {
    [v[1] * u[2] - v[2] * u[1],
     v[2] * u[0] - v[0] * u[2],
     v[0] * u[1] - v[1] * u[0]]
  }

  /** The cross product is orthogonal to both of its arguments. */
  lemma CrossOrthogonal(v: Vec3, u: Vec3)
    ensures Dot(Cross(v, u), v) == 0.0 && Dot(Cross(v, u), u) == 0.0
  {
    var w := Cross(v, u);
    assert Dot(w, v) == v[1] * u[2] * v[0] - v[2] * u[1] * v[0]
                      + v[2] * u[0] * v[1] - v[0] * u[2] * v[1]
                      + v[0] * u[1] * v[2] - v[1] * u[0] * v[2];
    assert Dot(w, u) == v[1] * u[2] * u[0] - v[2] * u[1] * u[0]
                      + v[2] * u[0] * u[1] - v[0] * u[2] * u[1]
                      + v[0] * u[1] * u[2] - v[1] * u[0] * u[2];
  }

  /** The dot product is symmetric. */
  lemma DotSymmetric(a: Vec3, b: Vec3)
    ensures Dot(a, b) == Dot(b, a)
  {
  }

  /** The dot product of two combinations, expanded bilinearly. */
  lemma DotOfCombinations(k: real, m: real, a: Vec3, c: Vec3, b: Vec3, e: Vec3)
    ensures Dot(Combine(k, a, m, c), Combine(k, b, m, e))
            == k * k * Dot(a, b) + k * m * (Dot(a, e) + Dot(c, b)) + m * m * Dot(c, e)
  {
    ProductOfCombinations(k, m, a[0], c[0], b[0], e[0]);
    ProductOfCombinations(k, m, a[1], c[1], b[1], e[1]);
    ProductOfCombinations(k, m, a[2], c[2], b[2], e[2]);
  }

  lemma ProductOfCombinations(k: real, m: real, a: real, c: real, b: real, e: real)
    ensures (k * a + m * c) * (k * b + m * e) == k * k * (a * b) + k * m * (a * e + c * b) + m * m * (c * e)
  {
  }

  /** Swapping the outer factors of a triple product changes its sign. */
  lemma TripleProductSwap(u: Vec3, a: Vec3, b: Vec3)
    ensures Dot(a, Cross(u, b)) + Dot(Cross(u, a), b) == 0.0
  {
    var u0, u1, u2, a0, a1, a2, b0, b1, b2 := u[0], u[1], u[2], a[0], a[1], a[2], b[0], b[1], b[2];
    assert Dot(a, Cross(u, b)) == a0 * (u1 * b2 - u2 * b1) + a1 * (u2 * b0 - u0 * b2) + a2 * (u0 * b1 - u1 * b0);
    assert Dot(Cross(u, a), b) == (u1 * a2 - u2 * a1) * b0 + (u2 * a0 - u0 * a2) * b1 + (u0 * a1 - u1 * a0) * b2;
  }

  /** Lagrange's identity: `(u x a) . (u x b) = (u . u)(a . b) - (u . a)(u . b)`. */
  lemma CrossLagrange(u: Vec3, a: Vec3, b: Vec3)
    ensures Dot(Cross(u, a), Cross(u, b)) == Dot(u, u) * Dot(a, b) - Dot(u, a) * Dot(u, b)
  {
    CrossDotComponents(u, a, b);
    LagrangeComponents(u, a, b);
    DotsComponents(u, a, b);
  }

  /** The dot product of two cross products, in components. */
  lemma CrossDotComponents(u: Vec3, a: Vec3, b: Vec3)
    ensures Dot(Cross(u, a), Cross(u, b))
         == (u[1] * a[2] - u[2] * a[1]) * (u[1] * b[2] - u[2] * b[1])
          + (u[2] * a[0] - u[0] * a[2]) * (u[2] * b[0] - u[0] * b[2])
          + (u[0] * a[1] - u[1] * a[0]) * (u[0] * b[1] - u[1] * b[0])
  {
  }

  /** Lagrange's identity as a polynomial identity of the components. */
  lemma LagrangeComponents(u: Vec3, a: Vec3, b: Vec3)
    ensures (u[1] * a[2] - u[2] * a[1]) * (u[1] * b[2] - u[2] * b[1])
          + (u[2] * a[0] - u[0] * a[2]) * (u[2] * b[0] - u[0] * b[2])
          + (u[0] * a[1] - u[1] * a[0]) * (u[0] * b[1] - u[1] * b[0])
         == (u[0] * u[0] + u[1] * u[1] + u[2] * u[2]) * (a[0] * b[0] + a[1] * b[1] + a[2] * b[2])
          - (u[0] * a[0] + u[1] * a[1] + u[2] * a[2]) * (u[0] * b[0] + u[1] * b[1] + u[2] * b[2])
  {
  }

  /** The right-hand side of Lagrange's identity, in components. */
  lemma DotsComponents(u: Vec3, a: Vec3, b: Vec3)
    ensures (u[0] * u[0] + u[1] * u[1] + u[2] * u[2]) * (a[0] * b[0] + a[1] * b[1] + a[2] * b[2])
          - (u[0] * a[0] + u[1] * a[1] + u[2] * a[2]) * (u[0] * b[0] + u[1] * b[1] + u[2] * b[2])
         == Dot(u, u) * Dot(a, b) - Dot(u, a) * Dot(u, b)
  {
    DotTimesDot(u, u, a, b);
    DotTimesDot(u, a, u, b);
  }

  /** A product of two dot products, in components. */
  lemma DotTimesDot(u: Vec3, a: Vec3, v: Vec3, b: Vec3)
    ensures Dot(u, a) * Dot(v, b)
            == (u[0] * a[0] + u[1] * a[1] + u[2] * a[2]) * (v[0] * b[0] + v[1] * b[1] + v[2] * b[2])
  {
  }
}
