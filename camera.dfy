/** The dead-band rule that keeps the camera between 5 and 10 units from Ralph in the ground plane. */
module Camera {
  import opened Geometry

  /** The unit vector in the ground plane pointing from the camera to Ralph, d being their planar distance. */
  function Toward(cam: Vec3, ralph: Vec3, d: real): Vec3
    requires d > 0.0
  {
    Scale(Vec3(ralph.x - cam.x, ralph.y - cam.y, 0.0), 1.0 / d)
  }

  /** The distance the camera is corrected to. */
  function Band(d: real): real {
    if d > 10.0 then 10.0 else if d < 5.0 then 5.0 else d
  }

  /**
   * The dead-band correction. d is the planar distance from the camera to
   * Ralph; a camera too far is pulled in by the excess, one too close is
   * pushed out by the deficit, one inside the band stays where it is. The
   * correction is horizontal.
   */
  function ClampDistance(ralph: Vec3, cam: Vec3, d: real): (r: Vec3)
    requires d > 0.0
    ensures r.z == cam.z
    ensures 5.0 <= d <= 10.0 ==> r == cam
  {
    var u := Toward(cam, ralph, d);
    if d > 10.0 then Add(cam, Scale(u, d - 10.0))
    else if d < 5.0 then Sub(cam, Scale(u, 5.0 - d))
    else cam
  }

  /** Moving the camera by (d - target) along Toward leaves it at planar distance target. */
  lemma ShiftToDistance(ralph: Vec3, cam: Vec3, d: real, target: real)
    requires d > 0.0 && Square(d) == PlanarSq(ralph, cam) && target >= 0.0
    ensures PlanarSq(ralph, Add(cam, Scale(Toward(cam, ralph, d), d - target))) == target * target
  {
    var dx, dy := ralph.x - cam.x, ralph.y - cam.y;
    var t := target / d;
    var c := Add(cam, Scale(Toward(cam, ralph, d), d - target));
    assert ralph.x - c.x == dx * t;
    assert ralph.y - c.y == dy * t;
    calc {
      PlanarSq(ralph, c);
      (dx * t) * (dx * t) + (dy * t) * (dy * t);
      (dx * dx + dy * dy) * (t * t);
      (d * d) * (t * t);
      (d * t) * (d * t);
      { assert d * t == target; }
      target * target;
    }
  }

  /** After the correction the planar distance to Ralph is the distance clamped into [5, 10]. */
  lemma ClampDistanceBand(ralph: Vec3, cam: Vec3, d: real)
    requires d > 0.0 && Square(d) == PlanarSq(ralph, cam)
    ensures PlanarSq(ralph, ClampDistance(ralph, cam, d)) == Band(d) * Band(d)
    ensures 25.0 <= PlanarSq(ralph, ClampDistance(ralph, cam, d)) <= 100.0
  {
    var u := Toward(cam, ralph, d);
    if d > 10.0 {
      ShiftToDistance(ralph, cam, d, 10.0);
    } else if d < 5.0 {
      assert Sub(cam, Scale(u, 5.0 - d)) == Add(cam, Scale(u, d - 5.0));
      ShiftToDistance(ralph, cam, d, 5.0);
    } else {
      assert 25.0 <= 5.0 * d <= d * d <= 10.0 * d <= 100.0;
    }
  }
}
