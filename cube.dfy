/** The axis-aligned unit cube of the CPU path tracer and its slab test
    (src/path_tracing/cube.rs). */
module Cubes {
  import opened Vectors

  /** A ray: `distance` is the distance of the hit recorded so far (F32_MAX while
      nothing has been hit) and `color` the colour recorded with it. */
  datatype Ray = Ray(origin: Vec3, velocity: Vec3, distance: real, color: Vec4)

  /** A box `[min, max]`; only the first three components of `min` and `max` are
      coordinates, the fourth is GPU padding. */
  datatype Cube = Cube(min: Vec4, max: Vec4, color: Vec4)

  /** `Cube::new_cube_at`: the unit cube whose minimum corner is `loc`. */
  function NewCubeAt(loc: Vec3, color: Vec4): (c: Cube)
    ensures forall d :: 0 <= d < 3 ==> c.min[d] == loc[d] && c.max[d] == loc[d] + 1.0
    ensures c.min[3] == 0.0 && c.max[3] == 0.0
    ensures c.color == color
  {
    Cube([loc[0], loc[1], loc[2], 0.0], [loc[0] + 1.0, loc[1] + 1.0, loc[2] + 1.0, 0.0], color)
  }

  /** A box that is not inside out on any axis. */
  predicate WellFormed(c: Cube)
  {
    forall d :: 0 <= d < 3 ==> c.min[d] <= c.max[d]
  }

  lemma NewCubeAtWellFormed(loc: Vec3, color: Vec4)
    ensures WellFormed(NewCubeAt(loc, color))
  {
  }

  // ---------------------------------------------------------------------------
  // The slab test as a specification: the window [tnear, tfar] of ray
  // parameters, narrowed one axis at a time in the order 0, 1, 2.
  // ---------------------------------------------------------------------------

  /** `Blocked`: an axis the ray runs parallel to has its origin outside the slab,
      and the test returned early. */
  datatype Slab = Blocked | Window(tnear: real, tfar: real)

  predicate Parallel(ray: Ray, d: nat)
    requires d < 3
  {
    ray.velocity[d] == 0.0
  }

  /** The origin lies in the closed slab `[min[d], max[d]]`. */
  predicate OriginInSlab(c: Cube, ray: Ray, d: nat)
    requires d < 3
  {
    ray.origin[d] >= c.min[d] && ray.origin[d] <= c.max[d]
  }

  /** `t1` and `t2`: the ray parameters at which it crosses the planes `min[d]`
      and `max[d]`. */
  function T1(c: Cube, ray: Ray, d: nat): real
    requires d < 3 && !Parallel(ray, d)
  {
    (c.min[d] - ray.origin[d]) / ray.velocity[d]
  }

  function T2(c: Cube, ray: Ray, d: nat): real
    requires d < 3 && !Parallel(ray, d)
  {
    (c.max[d] - ray.origin[d]) / ray.velocity[d]
  }

  /** One iteration of the axis loop. */
  function AxisStep(c: Cube, ray: Ray, d: nat, s: Slab): Slab
    requires d < 3
  {
    match s
    case Blocked => Blocked
    case Window(tnear, tfar) =>
      if Parallel(ray, d) then
        (if OriginInSlab(c, ray, d) then s else Blocked)
      else
        Window(Max(tnear, Min(T1(c, ray, d), T2(c, ray, d))),
               Min(tfar, Max(T1(c, ray, d), T2(c, ray, d))))
  }

  /** The window after the axes `0 .. n-1`, starting from `[f32::MIN, f32::MAX]`. */
  function SlabAfter(c: Cube, ray: Ray, n: nat): Slab
    requires n <= 3
  {
    if n == 0 then Window(F32_MIN, F32_MAX)
    else AxisStep(c, ray, n - 1, SlabAfter(c, ray, n - 1))
  }

  function SlabOf(c: Cube, ray: Ray): Slab
  {
    SlabAfter(c, ray, 3)
  }

  /** The final test: no early return, and neither `tnear > tfar` nor `tfar < 0`. */
  predicate Hits(c: Cube, ray: Ray)
  {
    SlabOf(c, ray).Window? && !(SlabOf(c, ray).tnear > SlabOf(c, ray).tfar || SlabOf(c, ray).tfar < 0.0)
  }

  /** The ray after `intersect_ray`: on a hit, distance and colour are overwritten
      whatever distance the ray carried before. */
  function Intersect(c: Cube, ray: Ray): Ray
  {
    if Hits(c, ray) then ray.(distance := SlabOf(c, ray).tnear, color := c.color) else ray
  }

  /** `Cube::intersect_ray`; `&mut Ray` is an in-out parameter. */
  method IntersectRay(c: Cube, ray: Ray) returns (r: Ray)
    ensures r == Intersect(c, ray)
  {
    var tnear, tfar := F32_MIN, F32_MAX;
    for d := 0 to 3
      invariant SlabAfter(c, ray, d) == Window(tnear, tfar)
    {
      if ray.velocity[d] == 0.0 {
        if ray.origin[d] >= c.min[d] && ray.origin[d] <= c.max[d] {
          continue;
        } else {
          BlockedStaysBlocked(c, ray, d + 1);
          return ray;
        }
      }
      var t1 := (c.min[d] - ray.origin[d]) / ray.velocity[d];
      var t2 := (c.max[d] - ray.origin[d]) / ray.velocity[d];
      var tmin := Min(t1, t2);
      var tmax := Max(t1, t2);
      tnear := Max(tnear, tmin);
      tfar := Min(tfar, tmax);
    }
    if tnear > tfar || tfar < 0.0 {
      return ray;
    } else {
      r := ray.(distance := tnear, color := c.color);
    }
  }

  // ---------------------------------------------------------------------------
  // Properties of the slab test
  // ---------------------------------------------------------------------------

  /** Once an axis has returned early, the outcome stays "no hit". */
  lemma {:induction false} BlockedStaysBlocked(c: Cube, ray: Ray, n: nat)
    requires 1 <= n <= 3
    requires SlabAfter(c, ray, n - 1).Window?
    requires Parallel(ray, n - 1) && !OriginInSlab(c, ray, n - 1)
    ensures SlabOf(c, ray) == Blocked
  {
    var k := n;
    while k < 3
      invariant n <= k <= 3
      invariant SlabAfter(c, ray, k) == Blocked
    {
      k := k + 1;
    }
  }

  /** The test returns early exactly when some axis is parallel to the ray with the
      origin outside its closed slab. */
  lemma {:induction false} BlockedIff(c: Cube, ray: Ray, n: nat)
    requires n <= 3
    ensures SlabAfter(c, ray, n).Blocked? <==>
            exists d :: 0 <= d < n && Parallel(ray, d) && !OriginInSlab(c, ray, d)
  {
    if n > 0 {
      BlockedIff(c, ray, n - 1);
    }
  }

  /** A parallel axis whose origin lies outside the slab leaves the ray unchanged
      (and no division by its zero velocity is ever made). */
  lemma ParallelOutsideMisses(c: Cube, ray: Ray, d: nat)
    requires d < 3 && Parallel(ray, d) && !OriginInSlab(c, ray, d)
    ensures SlabOf(c, ray) == Blocked
    ensures Intersect(c, ray) == ray
  {
    BlockedIff(c, ray, 3);
  }

  /** A parallel axis whose origin lies inside the closed slab imposes no
      constraint: the window is the same before and after it. */
  lemma ParallelInsideUnconstrained(c: Cube, ray: Ray, d: nat)
    requires d < 3 && Parallel(ray, d) && OriginInSlab(c, ray, d)
    ensures SlabAfter(c, ray, d + 1) == SlabAfter(c, ray, d)
  {
  }

  /** The closed form of the window: it starts at the sentinels, every
      non-parallel axis can only narrow it to `[min(t1,t2), max(t1,t2)]`, and each
      bound is either its sentinel or the bound of one of those axes. */
  lemma {:induction false} WindowClosedForm(c: Cube, ray: Ray, n: nat)
    requires n <= 3 && SlabAfter(c, ray, n).Window?
    ensures var w := SlabAfter(c, ray, n);
      && F32_MIN <= w.tnear && w.tfar <= F32_MAX
      && (forall d :: 0 <= d < n && !Parallel(ray, d) ==>
            Min(T1(c, ray, d), T2(c, ray, d)) <= w.tnear && w.tfar <= Max(T1(c, ray, d), T2(c, ray, d)))
      && (w.tnear == F32_MIN || exists d :: 0 <= d < n && !Parallel(ray, d) && w.tnear == Min(T1(c, ray, d), T2(c, ray, d)))
      && (w.tfar == F32_MAX || exists d :: 0 <= d < n && !Parallel(ray, d) && w.tfar == Max(T1(c, ray, d), T2(c, ray, d)))
  {
    if n > 0 {
      WindowClosedForm(c, ray, n - 1);
    }
  }

  /** With velocity zero on every axis, the test hits at distance f32::MIN when the
      origin lies in the closed box and leaves the ray unchanged otherwise. */
  lemma ZeroVelocity(c: Cube, ray: Ray)
    requires ray.velocity == [0.0, 0.0, 0.0]
    ensures (forall d :: 0 <= d < 3 ==> OriginInSlab(c, ray, d)) ==>
              Intersect(c, ray) == ray.(distance := F32_MIN, color := c.color)
    ensures !(forall d :: 0 <= d < 3 ==> OriginInSlab(c, ray, d)) ==> Intersect(c, ray) == ray
  {
    assert Parallel(ray, 0) && Parallel(ray, 1) && Parallel(ray, 2);
    if forall d :: 0 <= d < 3 ==> OriginInSlab(c, ray, d) {
      assert OriginInSlab(c, ray, 0) && OriginInSlab(c, ray, 1) && OriginInSlab(c, ray, 2);
      assert SlabAfter(c, ray, 1) == Window(F32_MIN, F32_MAX);
      assert SlabAfter(c, ray, 2) == Window(F32_MIN, F32_MAX);
    } else {
      var d :| 0 <= d < 3 && !OriginInSlab(c, ray, d);
      ParallelOutsideMisses(c, ray, d);
    }
  }

  /** Hit status depends only on origin and velocity, so a hit overwrites the ray
      whatever distance it carried. */
  lemma HitsIgnoresRecord(c: Cube, ray: Ray, distance: real, color: Vec4)
    ensures SlabOf(c, ray.(distance := distance, color := color)) == SlabOf(c, ray)
    ensures Hits(c, ray.(distance := distance, color := color)) == Hits(c, ray)
  {
    var other := ray.(distance := distance, color := color);
    assert SlabAfter(c, other, 1) == SlabAfter(c, ray, 1);
    assert SlabAfter(c, other, 2) == SlabAfter(c, ray, 2);
  }

  /** `intersect_ray` never changes origin or velocity; it either leaves the ray
      alone or records `tnear` and the cube's colour. */
  lemma IntersectShape(c: Cube, ray: Ray)
    ensures Intersect(c, ray).origin == ray.origin && Intersect(c, ray).velocity == ray.velocity
    ensures Intersect(c, ray) == ray || (Hits(c, ray) && Intersect(c, ray).color == c.color)
  {
  }

  // ---------------------------------------------------------------------------
  // Geometric meaning: the window is the set of ray parameters whose point lies
  // in the closed box.
  // ---------------------------------------------------------------------------

  /** The point `origin + t * velocity` lies in slab `d`. */
  predicate AxisContains(c: Cube, ray: Ray, d: nat, t: real)
    requires d < 3
  {
    c.min[d] <= ray.origin[d] + t * ray.velocity[d] <= c.max[d]
  }

  predicate PointInBox(c: Cube, ray: Ray, t: real)
  {
    forall d :: 0 <= d < 3 ==> AxisContains(c, ray, d, t)
  }

  lemma DivBoundsPositive(a: real, v: real, t: real)
    requires v > 0.0
    ensures a / v <= t <==> a <= t * v
    ensures t <= a / v <==> t * v <= a
  {
    var q := a / v;
    assert q * v == a;
    assert (t - q) * v == t * v - a;
    if t - q >= 0.0 {
      assert (t - q) * v >= 0.0;
    } else {
      assert (q - t) * v > 0.0;
    }
  }

  lemma DivBoundsNegative(a: real, v: real, t: real)
    requires v < 0.0
    ensures a / v <= t <==> t * v <= a
    ensures t <= a / v <==> a <= t * v
  {
    var q := a / v;
    assert q * v == a;
    assert (t - q) * v == t * v - a;
    if t - q >= 0.0 {
      assert (t - q) * (-v) >= 0.0;
    } else {
      assert (q - t) * (-v) > 0.0;
    }
  }

  /** On a non-parallel axis of a well-formed box, `[min(t1,t2), max(t1,t2)]` is
      exactly the set of parameters whose point lies in the slab. */
  lemma AxisInterval(c: Cube, ray: Ray, d: nat, t: real)
    requires d < 3 && !Parallel(ray, d) && c.min[d] <= c.max[d]
    ensures Min(T1(c, ray, d), T2(c, ray, d)) <= t <= Max(T1(c, ray, d), T2(c, ray, d))
            <==> AxisContains(c, ray, d, t)
  {
    var o, v := ray.origin[d], ray.velocity[d];
    var lo, hi := c.min[d] - o, c.max[d] - o;
    assert T1(c, ray, d) == lo / v && T2(c, ray, d) == hi / v;
    assert AxisContains(c, ray, d, t) <==> lo <= t * v <= hi;
    assert (hi / v) * v == hi;
    if v > 0.0 {
      DivBoundsPositive(lo, v, hi / v);
      assert lo / v <= hi / v;
      assert Min(lo / v, hi / v) == lo / v && Max(lo / v, hi / v) == hi / v;
      DivBoundsPositive(lo, v, t);
      DivBoundsPositive(hi, v, t);
    } else {
      DivBoundsNegative(lo, v, hi / v);
      assert hi / v <= lo / v;
      assert Min(lo / v, hi / v) == hi / v && Max(lo / v, hi / v) == lo / v;
      DivBoundsNegative(lo, v, t);
      DivBoundsNegative(hi, v, t);
    }
  }

  /** After the axes `0 .. n-1`, the window (when there is one) holds exactly the
      parameters within the f32 range whose point lies in each of those slabs,
      and a blocked test has no such parameter. */
  lemma {:induction false} WindowMeaning(c: Cube, ray: Ray, n: nat, t: real)
    requires n <= 3 && WellFormed(c) && F32_MIN <= t <= F32_MAX
    ensures (SlabAfter(c, ray, n).Window? && SlabAfter(c, ray, n).tnear <= t <= SlabAfter(c, ray, n).tfar)
            <==> (forall d :: 0 <= d < n ==> AxisContains(c, ray, d, t))
  {
    if n > 0 {
      var d := n - 1;
      WindowMeaning(c, ray, d, t);
      if Parallel(ray, d) {
        assert ray.origin[d] + t * ray.velocity[d] == ray.origin[d];
        assert AxisContains(c, ray, d, t) <==> OriginInSlab(c, ray, d);
      } else {
        AxisInterval(c, ray, d, t);
      }
    }
  }

  /** The slab test hits a well-formed box exactly when the forward ray meets it
      within the f32 range. */
  lemma HitMeaning(c: Cube, ray: Ray)
    requires WellFormed(c)
    ensures Hits(c, ray) <==> exists t :: 0.0 <= t <= F32_MAX && PointInBox(c, ray, t)
  {
    if Hits(c, ray) {
      var w := SlabOf(c, ray);
      WindowClosedForm(c, ray, 3);
      var t := Max(w.tnear, 0.0);
      WindowMeaning(c, ray, 3, t);
      assert PointInBox(c, ray, t);
    }
    if t :| 0.0 <= t <= F32_MAX && PointInBox(c, ray, t) {
      WindowMeaning(c, ray, 3, t);
    }
  }

  /** The recorded distance `tnear` is the entry parameter: the first parameter in
      the f32 range whose point lies in the box. It is negative when the origin is
      inside the box, and the test still reports a hit. */
  lemma HitDistanceIsEntry(c: Cube, ray: Ray)
    requires WellFormed(c) && Hits(c, ray)
    ensures PointInBox(c, ray, SlabOf(c, ray).tnear)
    ensures forall t :: F32_MIN <= t < SlabOf(c, ray).tnear ==> !PointInBox(c, ray, t)
  {
    var w := SlabOf(c, ray);
    WindowClosedForm(c, ray, 3);
    WindowMeaning(c, ray, 3, w.tnear);
    forall t | F32_MIN <= t < w.tnear
      ensures !PointInBox(c, ray, t)
    {
      WindowMeaning(c, ray, 3, t);
    }
  }

  /** On a non-parallel axis whose slab strictly contains the origin, the ray
      entered the slab at a negative parameter. */
  lemma AxisEntryNegative(c: Cube, ray: Ray, d: nat)
    requires d < 3 && !Parallel(ray, d) && c.min[d] < ray.origin[d] < c.max[d]
    ensures Min(T1(c, ray, d), T2(c, ray, d)) < 0.0
  {
    var v := ray.velocity[d];
    if v > 0.0 {
      DivBoundsPositive(c.min[d] - ray.origin[d], v, 0.0);
      assert T1(c, ray, d) * v == c.min[d] - ray.origin[d] < 0.0;
    } else {
      DivBoundsNegative(c.max[d] - ray.origin[d], v, 0.0);
      assert T2(c, ray, d) * v == c.max[d] - ray.origin[d] > 0.0;
    }
  }

  /** A ray whose origin lies in the box, strictly inside every slab it is not
      parallel to, hits the box with a negative distance (when it moves at all). */
  lemma InsideOriginHitsBehind(c: Cube, ray: Ray)
    requires WellFormed(c) && PointInBox(c, ray, 0.0)
    requires forall d :: 0 <= d < 3 && !Parallel(ray, d) ==> c.min[d] < ray.origin[d] < c.max[d]
    ensures Hits(c, ray) && SlabOf(c, ray).tnear < 0.0
  {
    HitMeaning(c, ray);
    WindowClosedForm(c, ray, 3);
    var w := SlabOf(c, ray);
    if w.tnear != F32_MIN {
      var d :| 0 <= d < 3 && !Parallel(ray, d) && w.tnear == Min(T1(c, ray, d), T2(c, ray, d));
      AxisEntryNegative(c, ray, d);
    }
  }
}
