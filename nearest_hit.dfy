/** The colour query keeps the LAST cube hit in list order, not the nearest one
    (src/path_tracing/cube.rs:47-51 overwrites the recorded hit without comparing
    distances). This module exhibits a ray on which the two differ and gives the
    nearest-hit query with its property proved. */
module NearestHit {
  import opened Vectors
  import opened Cubes
  import opened Scenes

  const RED: Vec4 := [1.0, 0.0, 0.0, 1.0]
  const BLUE: Vec4 := [0.0, 0.0, 1.0, 1.0]

  /** Two unit cubes on the x axis, the near one (entered at distance 3) listed
      first, the far one (entered at distance 7) second. */
  function TwoCubeScene(): Scene
  {
    Scene([NewCubeAt([3.0, 0.0, 0.0], RED), NewCubeAt([7.0, 0.0, 0.0], BLUE)],
          BACKGROUND, [], GRID_SIZE)
  }

  /** A fresh ray along +x through the middle of both cubes. */
  function AlongX(): Ray
  {
    Ray([0.0, 0.5, 0.5], [1.0, 0.0, 0.0], F32_MAX, ZERO4)
  }

  /** As written: the near cube is hit at 3 and the far one at 7, and the query
      returns the far cube's colour. */
  lemma LastHitNotNearest()
    ensures Hits(TwoCubeScene().cubes[0], AlongX()) && SlabOf(TwoCubeScene().cubes[0], AlongX()).tnear == 3.0
    ensures Hits(TwoCubeScene().cubes[1], AlongX()) && SlabOf(TwoCubeScene().cubes[1], AlongX()).tnear == 7.0
    ensures ColorOf(TwoCubeScene(), AlongX()) == BLUE
  {
    var s, ray := TwoCubeScene(), AlongX();
    var near, far := s.cubes[0], s.cubes[1];
    assert SlabAfter(near, ray, 1) == Window(3.0, 4.0);
    assert SlabAfter(near, ray, 2) == Window(3.0, 4.0);
    assert SlabAfter(far, ray, 1) == Window(7.0, 8.0);
    assert SlabAfter(far, ray, 2) == Window(7.0, 8.0);
    ColorOfLastHit(s, ray, 1);
  }

  /** The corrected test: record the hit only when it is nearer than the one
      already recorded. */
  function IntersectNearest(c: Cube, ray: Ray): Ray
  {
    if Hits(c, ray) && SlabOf(c, ray).tnear < ray.distance
    then ray.(distance := SlabOf(c, ray).tnear, color := c.color)
    else ray
  }

  function TraceNearest(cubes: seq<Cube>, ray: Ray): Ray
  {
    if cubes == [] then ray
    else IntersectNearest(cubes[|cubes| - 1], TraceNearest(cubes[..|cubes| - 1], ray))
  }

  function NearestColor(scene: Scene, ray: Ray): Vec4
  {
    var r := TraceNearest(scene.cubes, ray);
    if r.distance < F32_MAX then r.color else scene.background
  }

  /** The corrected trace keeps the smallest distance: it is at most the ray's
      own and every hit's, and it is either the ray unchanged or the distance and
      colour of a cube that was hit. */
  lemma {:induction false} TraceNearestIsNearest(cubes: seq<Cube>, ray: Ray)
    ensures var r := TraceNearest(cubes, ray);
      && r.origin == ray.origin && r.velocity == ray.velocity
      && r.distance <= ray.distance
      && (forall j :: 0 <= j < |cubes| && Hits(cubes[j], ray) ==> r.distance <= SlabOf(cubes[j], ray).tnear)
      && (r == ray || exists k :: 0 <= k < |cubes| && Hits(cubes[k], ray) &&
                                  r.distance == SlabOf(cubes[k], ray).tnear && r.color == cubes[k].color)
  {
    if cubes != [] {
      var init, c := cubes[..|cubes| - 1], cubes[|cubes| - 1];
      TraceNearestIsNearest(init, ray);
      var prev := TraceNearest(init, ray);
      assert prev == ray.(distance := prev.distance, color := prev.color);
      HitsIgnoresRecord(c, ray, prev.distance, prev.color);
      var r := TraceNearest(cubes, ray);
      forall j | 0 <= j < |cubes| && Hits(cubes[j], ray)
        ensures r.distance <= SlabOf(cubes[j], ray).tnear
      {
        if j < |cubes| - 1 {
          assert cubes[j] == init[j];
        }
      }
      if r != ray {
        if r == prev {
          var k :| 0 <= k < |init| && Hits(init[k], ray) &&
                   prev.distance == SlabOf(init[k], ray).tnear && prev.color == init[k].color;
          assert cubes[k] == init[k];
        } else {
          assert Hits(cubes[|cubes| - 1], ray);
        }
      }
    }
  }

  /** With the corrected test, the two-cube scene shows the near cube. */
  lemma NearestShowsNearCube()
    ensures NearestColor(TwoCubeScene(), AlongX()) == RED
  {
    var s, ray := TwoCubeScene(), AlongX();
    var near, far := s.cubes[0], s.cubes[1];
    assert SlabAfter(near, ray, 1) == Window(3.0, 4.0);
    assert SlabAfter(near, ray, 2) == Window(3.0, 4.0);
    assert SlabAfter(far, ray, 1) == Window(7.0, 8.0);
    assert SlabAfter(far, ray, 2) == Window(7.0, 8.0);
    assert s.cubes[..1] == [near] && [near][..0] == [];
    assert TraceNearest([near], ray) == ray.(distance := 3.0, color := RED);
    HitsIgnoresRecord(far, ray, 3.0, RED);
    assert TraceNearest(s.cubes, ray) == IntersectNearest(far, TraceNearest([near], ray));
  }
}
