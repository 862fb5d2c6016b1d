/**
 * The perspective projection of view-space points onto the output image (project), with
 * near clipping: a point closer than ZNear has no image, the model of the NaN the source writes.
 */
module Projection {
  import opened Optional
  import opened Geometry

  /** The near clipping distance. */
  const ZNear: real := 0.03

  /**
   * The closed-form image of a point with non-zero depth: x and y divided by z, scaled by
   * (w * (h / w), h), the source's width times aspect ratio and its height, then moved to the
   * image centre.
   */
  function Pinhole(v: Vec3, scr: Screen): Vec2
    requires 0 < scr.width && v.z != 0.0
  {
    var w, h := scr.width as real, scr.height as real;
    Vec2(v.x / v.z * (w * (h / w)) + w / 2.0, v.y / v.z * h + h / 2.0)
  }

  /** project for one point: its pinhole image, or None (NaN) for a point nearer than ZNear. */
  function Project(v: Vec3, scr: Screen): (p: Option<Vec2>)
    requires 0 < scr.width
    ensures p.None? <==> v.z < ZNear
    ensures p.Some? ==> p.value == Pinhole(v, scr)
  {
    if v.z < ZNear then None else Some(Pinhole(v, scr))
  }

  /** The inverse of project at a known depth: the point at depth z that lands on pixel p. */
  function Unproject(p: Vec2, z: real, scr: Screen): (v: Vec3)
    requires scr.Valid()
    ensures v.z == z
  {
    var w, h := scr.width as real, scr.height as real;
    Vec3((p.x - w / 2.0) * z / h, (p.y - h / 2.0) * z / h, z)
  }

  lemma AspectCancels(w: real, h: real)
    requires 0.0 < w
    ensures w * (h / w) == h
  {
  }

  lemma ScaleByDepth(a: real, z: real, h: real)
    requires 0.0 < z
    ensures a / z * h * z == a * h
  {
    assert a / z * z == a;
    assert a / z * h * z == (a / z * z) * h;
  }

  /** Every visible point satisfies the pinhole relation: (pixel - centre) * z == coordinate * h. */
  lemma ProjectIsPerspective(v: Vec3, scr: Screen)
    requires 0 < scr.width && ZNear <= v.z
    ensures var w, h := scr.width as real, scr.height as real;
      && Project(v, scr).Some?
      && (Project(v, scr).value.x - w / 2.0) * v.z == v.x * h
      && (Project(v, scr).value.y - h / 2.0) * v.z == v.y * h
  {
    var w, h := scr.width as real, scr.height as real;
    var q := Pinhole(v, scr);
    assert q.x == v.x / v.z * (w * (h / w)) + w / 2.0 && q.y == v.y / v.z * h + h / 2.0;
    AspectCancels(w, h);
    ScaleByDepth(v.x, v.z, h);
    ScaleByDepth(v.y, v.z, h);
  }

  /** Points on the optical axis land on the image centre. */
  lemma AxisProjectsToCentre(z: real, scr: Screen)
    requires 0 < scr.width && ZNear <= z
    ensures Project(Vec3(0.0, 0.0, z), scr) == Some(Vec2(scr.width as real / 2.0, scr.height as real / 2.0))
  {
    var q := Pinhole(Vec3(0.0, 0.0, z), scr);
    assert q == Vec2(scr.width as real / 2.0, scr.height as real / 2.0);
  }

  lemma DivideOut(d: real, z: real, a: real, h: real)
    requires 0.0 < h && d * z == a * h
    ensures d * z / h == a
  {
  }

  /** Recovering a visible point from its pixel and its depth gives the point back. */
  lemma UnprojectProject(v: Vec3, scr: Screen)
    requires scr.Valid() && ZNear <= v.z
    ensures Project(v, scr).Some? && Unproject(Project(v, scr).value, v.z, scr) == v
  {
    var w, h := scr.width as real, scr.height as real;
    ProjectIsPerspective(v, scr);
    var p := Project(v, scr).value;
    DivideOut(p.x - w / 2.0, v.z, v.x, h);
    DivideOut(p.y - h / 2.0, v.z, v.y, h);
  }

  lemma Recover(d: real, z: real, w: real, h: real)
    requires 0.0 < w && 0.0 < h && 0.0 < z
    ensures d * z / h / z * (w * (h / w)) == d
    ensures d * z / h / z * h == d
  {
    assert d * z / h / z == d / h;
    AspectCancels(w, h);
  }

  lemma Reproject(px: real, py: real, vx: real, vy: real, z: real, w: real, h: real)
    requires 0.0 < w && 0.0 < h && 0.0 < z
    requires vx == (px - w / 2.0) * z / h && vy == (py - h / 2.0) * z / h
    ensures vx / z * (w * (h / w)) + w / 2.0 == px && vy / z * h + h / 2.0 == py
  {
    Recover(px - w / 2.0, z, w, h);
    Recover(py - h / 2.0, z, w, h);
  }

  /** Every pixel is the image of the point unprojected from it, at any depth past ZNear. */
  lemma ProjectUnproject(p: Vec2, z: real, scr: Screen)
    requires scr.Valid() && ZNear <= z
    ensures Project(Unproject(p, z, scr), scr) == Some(p)
  {
    var w, h := scr.width as real, scr.height as real;
    var v := Unproject(p, z, scr);
    Reproject(p.x, p.y, v.x, v.y, z, w, h);
    var q := Pinhole(v, scr);
    assert q.x == p.x && q.y == p.y;
    assert q == p;
  }

  lemma Cancel(a: real, z: real, k: real)
    requires 0.0 < k && 0.0 < z
    ensures (k * a) / (k * z) == a / z
  {
  }

  /** All visible points on one ray through the eye share a pixel. */
  lemma RayProjectsToOnePixel(v: Vec3, k: real, scr: Screen)
    requires 0 < scr.width && 0.0 < k && ZNear <= v.z && ZNear <= k * v.z
    ensures Project(Times(k, v), scr) == Project(v, scr)
  {
    var u := Times(k, v);
    Cancel(v.x, v.z, k);
    Cancel(v.y, v.z, k);
    assert u.x / u.z == v.x / v.z && u.y / u.z == v.y / v.z;
    assert Pinhole(u, scr) == Pinhole(v, scr);
  }
}
