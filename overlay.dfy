/**
 * The 3D line drawing: line3d projects both ends of a segment and hands the pair to the drawing
 * library unless an end is behind the near plane; grid draws the n+1 lines of each direction of
 * a square grid on the xz plane, through the camera's view. The grid goes onto the cleared image
 * before the point cloud is scattered over it.
 */
module Overlay {
  import opened Optional
  import opened Geometry
  import opened Projection

  /** A pixel position as the drawing library takes it. */
  datatype Point = Point(x: int, y: int)

  /** One request to clip and draw an anti-aliased line. */
  datatype Stroke = Stroke(from: Point, to: Point, color: Bgr, thickness: int)

  /** p.astype(int) for one projected point: both coordinates truncated toward zero. */
  function PointOf(p: Vec2): (r: Point)
    ensures r.x as real - 1.0 < p.x < r.x as real + 1.0 && r.y as real - 1.0 < p.y < r.y as real + 1.0
  {
    Point(Trunc(p.x), Trunc(p.y))
  }

  /**
   * line3d: the stroke between the images of a and b, or nothing when either end has no
   * image (is nearer than ZNear).
   */
  function SegmentStroke(a: Vec3, b: Vec3, scr: Screen, color: Bgr, thickness: int): (r: Option<Stroke>)
    requires 0 < scr.width
    ensures r.None? <==> a.z < ZNear || b.z < ZNear
    ensures r.Some? ==> && r.value.from == PointOf(Pinhole(a, scr)) && r.value.to == PointOf(Pinhole(b, scr))
                        && r.value.color == color && r.value.thickness == thickness
  {
    match (Project(a, scr), Project(b, scr))
    case (Some(p0), Some(p1)) => Some(Stroke(PointOf(p0), PointOf(p1), color, thickness))
    case _ => None
  }

  /** The strokes an optional request adds to the log. */
  function StrokesOf(o: Option<Stroke>): (r: seq<Stroke>)
    ensures o.None? ==> r == []
    ensures o.Some? ==> r == [o.value]
  {
    if o.Some? then [o.value] else []
  }

  /** A segment between two world-space points. */
  datatype Segment = Segment(a: Vec3, b: Vec3)

  /** Both ends of a segment are in front of the near plane once viewed. */
  predicate Visible(view: Vec3 -> Vec3, seg: Segment) {
    ZNear <= view(seg.a).z && ZNear <= view(seg.b).z
  }

  /**
   * line3d(view(a), view(b)) for each segment in turn: the strokes it requests. `view` is the
   * camera's view transform, v => c.View(lib, v) for a camera c.
   */
  function DrawSegments(view: Vec3 -> Vec3, scr: Screen, segs: seq<Segment>, color: Bgr, thickness: int): (r: seq<Stroke>)
    requires 0 < scr.width
    ensures |r| <= |segs|
    decreases |segs|
  {
    if segs == [] then []
    else
      var last := segs[|segs| - 1];
      DrawSegments(view, scr, segs[..|segs| - 1], color, thickness)
        + StrokesOf(SegmentStroke(view(last.a), view(last.b), scr, color, thickness))
  }

  /** How many lines of each direction `range(0, n + 1)` yields. */
  function LineCount(n: int): (k: nat)
    ensures 0 <= n ==> k == n + 1
    ensures n < 0 ==> k == 0
  {
    if n < 0 then 0 else n + 1
  }

  /** The i-th line's offset: -size/2 + i * (size/n). */
  function Offset(size: real, n: int, i: int): real
    requires n != 0
  {
    -(0.5 * size) + i as real * (size / n as real)
  }

  /** The grid-plane point (u, 0, w) placed in the world: pos + u * rot.r0 + w * rot.r2. */
  function Place(pos: Vec3, u: real, w: real, rot: Mat3): Vec3 {
    Add(pos, Add(Times(u, rot.r0), Times(w, rot.r2)))
  }

  /** A line of the first family: from (x, 0, -size/2) to (x, 0, size/2). */
  function AlongZ(pos: Vec3, rot: Mat3, size: real, x: real): Segment {
    Segment(Place(pos, x, -(0.5 * size), rot), Place(pos, x, 0.5 * size, rot))
  }

  /** A line of the second family: from (-size/2, 0, z) to (size/2, 0, z). */
  function AlongX(pos: Vec3, rot: Mat3, size: real, z: real): Segment {
    Segment(Place(pos, -(0.5 * size), z, rot), Place(pos, 0.5 * size, z, rot))
  }

  /** The first k lines of the first family: line i at x = Offset(size, n, i). */
  function ZLines(pos: Vec3, rot: Mat3, size: real, n: int, k: nat): (segs: seq<Segment>)
    requires n != 0
    ensures |segs| == k
  {
    if k == 0 then [] else ZLines(pos, rot, size, n, k - 1) + [AlongZ(pos, rot, size, Offset(size, n, k - 1))]
  }

  /** The first k lines of the second family: line i at z = Offset(size, n, i). */
  function XLines(pos: Vec3, rot: Mat3, size: real, n: int, k: nat): (segs: seq<Segment>)
    requires n != 0
    ensures |segs| == k
  {
    if k == 0 then [] else XLines(pos, rot, size, n, k - 1) + [AlongX(pos, rot, size, Offset(size, n, k - 1))]
  }

  /** grid's segments in drawing order: all n+1 lines of the first family, then of the second. */
  function GridSegments(pos: Vec3, rot: Mat3, size: real, n: int): seq<Segment>
    requires n != 0
  {
    ZLines(pos, rot, size, n, LineCount(n)) + XLines(pos, rot, size, n, LineCount(n))
  }

  /** The i-th segment of grid is the i-th line of the first family, then of the second; 2(n+1) in all. */
  lemma GridSegmentsAt(pos: Vec3, rot: Mat3, size: real, n: int)
    requires n != 0
    ensures |GridSegments(pos, rot, size, n)| == 2 * LineCount(n)
    ensures forall i :: 0 <= i < LineCount(n) ==> GridSegments(pos, rot, size, n)[i] == AlongZ(pos, rot, size, Offset(size, n, i))
    ensures forall i :: 0 <= i < LineCount(n) ==>
      GridSegments(pos, rot, size, n)[LineCount(n) + i] == AlongX(pos, rot, size, Offset(size, n, i))
  {
    FamiliesAt(pos, rot, size, n, LineCount(n));
  }

  /** The first k lines of each family, one family after the other. */
  lemma FamiliesAt(pos: Vec3, rot: Mat3, size: real, n: int, k: nat)
    requires n != 0
    ensures forall i :: 0 <= i < k ==>
      (ZLines(pos, rot, size, n, k) + XLines(pos, rot, size, n, k))[i] == AlongZ(pos, rot, size, Offset(size, n, i))
    ensures forall i :: 0 <= i < k ==>
      (ZLines(pos, rot, size, n, k) + XLines(pos, rot, size, n, k))[k + i] == AlongX(pos, rot, size, Offset(size, n, i))
  {
    var z, x := ZLines(pos, rot, size, n, k), XLines(pos, rot, size, n, k);
    ZLinesAt(pos, rot, size, n, k);
    XLinesAt(pos, rot, size, n, k);
    forall i | 0 <= i < k
      ensures (z + x)[i] == AlongZ(pos, rot, size, Offset(size, n, i))
    {
      assert (z + x)[i] == z[i];
    }
    forall i | 0 <= i < k
      ensures (z + x)[k + i] == AlongX(pos, rot, size, Offset(size, n, i))
    {
      assert (z + x)[k + i] == x[i];
    }
  }

  lemma {:induction false} ZLinesAt(pos: Vec3, rot: Mat3, size: real, n: int, k: nat)
    requires n != 0
    ensures forall i :: 0 <= i < k ==> ZLines(pos, rot, size, n, k)[i] == AlongZ(pos, rot, size, Offset(size, n, i))
  {
    if k > 0 {
      ZLinesAt(pos, rot, size, n, k - 1);
    }
  }

  lemma {:induction false} XLinesAt(pos: Vec3, rot: Mat3, size: real, n: int, k: nat)
    requires n != 0
    ensures forall i :: 0 <= i < k ==> XLines(pos, rot, size, n, k)[i] == AlongX(pos, rot, size, Offset(size, n, i))
  {
    if k > 0 {
      XLinesAt(pos, rot, size, n, k - 1);
    }
  }

  /** The offsets run from one edge of the grid to the other in equal steps. */
  lemma OffsetsSpanGrid(size: real, n: int)
    requires 0 < n
    ensures Offset(size, n, 0) == -(size / 2.0)
    ensures Offset(size, n, n) == size / 2.0
    ensures forall i :: Offset(size, n, i + 1) - Offset(size, n, i) == size / n as real
  {
    assert n as real * (size / n as real) == size;
    forall i
      ensures Offset(size, n, i + 1) - Offset(size, n, i) == size / n as real
    {
      assert (i + 1) as real * (size / n as real) == i as real * (size / n as real) + size / n as real;
    }
  }

  /** Place is pos + dot((u, 0, w), rotation), the product grid writes out. */
  lemma PlaneRows(pos: Vec3, rot: Mat3, u: real, w: real)
    ensures Place(pos, u, w, rot) == Add(pos, VecMat(Vec3(u, 0.0, w), rot))
  {
  }

  /** The ends of a first-family line. */
  lemma AlongZEnds(pos: Vec3, rot: Mat3, size: real, x: real)
    ensures AlongZ(pos, rot, size, x).a == Place(pos, x, -(0.5 * size), rot)
    ensures AlongZ(pos, rot, size, x).b == Place(pos, x, 0.5 * size, rot)
  {
  }

  /** The ends of a second-family line. */
  lemma AlongXEnds(pos: Vec3, rot: Mat3, size: real, z: real)
    ensures AlongX(pos, rot, size, z).a == Place(pos, -(0.5 * size), z, rot)
    ensures AlongX(pos, rot, size, z).b == Place(pos, 0.5 * size, z, rot)
  {
  }

  /** Every first-family line runs the full size of the grid along the rotated z axis, rot.r2. */
  lemma AlongZSpansGrid(pos: Vec3, rot: Mat3, size: real, x: real)
    ensures Sub(AlongZ(pos, rot, size, x).b, AlongZ(pos, rot, size, x).a) == Times(size, rot.r2)
  {
  }

  /** Every second-family line runs the full size of the grid along the rotated x axis, rot.r0. */
  lemma AlongXSpansGrid(pos: Vec3, rot: Mat3, size: real, z: real)
    ensures Sub(AlongX(pos, rot, size, z).b, AlongX(pos, rot, size, z).a) == Times(size, rot.r0)
  {
  }

  /** With an orthonormal rotation every first-family line is exactly `size` long. */
  lemma AlongZHasGridSize(pos: Vec3, rot: Mat3, size: real, x: real)
    requires Orthonormal(rot)
    ensures NormSq(Sub(AlongZ(pos, rot, size, x).b, AlongZ(pos, rot, size, x).a)) == size * size
  {
    AlongZSpansGrid(pos, rot, size, x);
    ScaledUnit(size, rot.r2);
  }

  /** With an orthonormal rotation every second-family line is exactly `size` long. */
  lemma AlongXHasGridSize(pos: Vec3, rot: Mat3, size: real, z: real)
    requires Orthonormal(rot)
    ensures NormSq(Sub(AlongX(pos, rot, size, z).b, AlongX(pos, rot, size, z).a)) == size * size
  {
    AlongXSpansGrid(pos, rot, size, z);
    ScaledUnit(size, rot.r0);
  }

  /** Drawing one more segment appends its stroke, if any. */
  lemma DrawOneMore(view: Vec3 -> Vec3, scr: Screen, segs: seq<Segment>, seg: Segment, color: Bgr, thickness: int)
    requires 0 < scr.width
    ensures DrawSegments(view, scr, segs + [seg], color, thickness)
         == DrawSegments(view, scr, segs, color, thickness)
            + StrokesOf(SegmentStroke(view(seg.a), view(seg.b), scr, color, thickness))
  {
    assert (segs + [seg])[..|segs|] == segs;
  }

  /** Drawing a concatenation draws the first part, then the second. */
  lemma {:induction false} DrawAppend(view: Vec3 -> Vec3, scr: Screen, s: seq<Segment>, t: seq<Segment>, color: Bgr, thickness: int)
    requires 0 < scr.width
    ensures DrawSegments(view, scr, s + t, color, thickness)
         == DrawSegments(view, scr, s, color, thickness) + DrawSegments(view, scr, t, color, thickness)
    decreases |t|
  {
    if t == [] {
      assert s + t == s;
    } else {
      var t' := t[..|t| - 1];
      assert (s + t)[..|s + t| - 1] == s + t';
      assert (s + t)[|s + t| - 1] == t[|t| - 1];
      DrawAppend(view, scr, s, t', color, thickness);
    }
  }

  /** How many of the segments have both ends in front of the near plane once viewed. */
  function CountVisible(view: Vec3 -> Vec3, segs: seq<Segment>): (k: nat)
    ensures k <= |segs|
    decreases |segs|
  {
    if segs == [] then 0
    else CountVisible(view, segs[..|segs| - 1]) + (if Visible(view, segs[|segs| - 1]) then 1 else 0)
  }

  /** Exactly the visible segments are drawn, each as one stroke in the requested style. */
  lemma {:induction false} DrawnStrokes(view: Vec3 -> Vec3, scr: Screen, segs: seq<Segment>, color: Bgr, thickness: int)
    requires 0 < scr.width
    ensures |DrawSegments(view, scr, segs, color, thickness)| == CountVisible(view, segs)
    ensures forall k :: 0 <= k < |DrawSegments(view, scr, segs, color, thickness)| ==>
      DrawSegments(view, scr, segs, color, thickness)[k].color == color
      && DrawSegments(view, scr, segs, color, thickness)[k].thickness == thickness
    decreases |segs|
  {
    if segs != [] {
      DrawnStrokes(view, scr, segs[..|segs| - 1], color, thickness);
    }
  }

  /** With every segment visible all are drawn; with none visible nothing is. */
  lemma {:induction false} CountVisibleBounds(view: Vec3 -> Vec3, segs: seq<Segment>)
    ensures (forall k :: 0 <= k < |segs| ==> Visible(view, segs[k])) ==> CountVisible(view, segs) == |segs|
    ensures (forall k :: 0 <= k < |segs| ==> !Visible(view, segs[k])) ==> CountVisible(view, segs) == 0
    decreases |segs|
  {
    if segs != [] {
      var init := segs[..|segs| - 1];
      CountVisibleBounds(view, init);
      assert forall k :: 0 <= k < |init| ==> init[k] == segs[k];
    }
  }

  /** The image the overlay is drawn on, as the log of line requests made so far. */
  class Canvas {
    var strokes: seq<Stroke>

    constructor ()
      ensures strokes == []
    {
      strokes := [];
    }

    /** line3d: requests the stroke between the images of a and b, if both have one. */
    method Line3d(a: Vec3, b: Vec3, scr: Screen, color: Bgr, thickness: int)
      requires 0 < scr.width
      modifies this
      ensures strokes == old(strokes) + StrokesOf(SegmentStroke(a, b, scr, color, thickness))
    {
      var p0, p1 := Project(a, scr), Project(b, scr);
      if p0.None? || p1.None? {
        return;
      }
      strokes := strokes + [Stroke(PointOf(p0.value), PointOf(p1.value), color, thickness)];
    }

    /** grid: the lines of both families, each through the view transform, in order. */
    method Grid(view: Vec3 -> Vec3, scr: Screen, pos: Vec3, rot: Mat3, size: real, n: int, color: Bgr)
      requires 0 < scr.width && n != 0
      modifies this
      ensures strokes == old(strokes) + DrawSegments(view, scr, ZLines(pos, rot, size, n, LineCount(n)), color, 1)
                                      + DrawSegments(view, scr, XLines(pos, rot, size, n, LineCount(n)), color, 1)
    {
      var s := size / n as real;
      var s2 := 0.5 * size;
      ZFamily(view, scr, pos, rot, size, n, s, s2, color);
      XFamily(view, scr, pos, rot, size, n, s, s2, color);
    }

    /** grid's first loop: for i in range(0, n + 1), the line from (x, 0, -s2) to (x, 0, s2). */
    method ZFamily(view: Vec3 -> Vec3, scr: Screen, pos: Vec3, rot: Mat3, size: real, n: int, s: real, s2: real, color: Bgr)
      requires 0 < scr.width && n != 0 && s == size / n as real && s2 == 0.5 * size
      modifies this
      ensures strokes == old(strokes) + DrawSegments(view, scr, ZLines(pos, rot, size, n, LineCount(n)), color, 1)
    {
      for i := 0 to LineCount(n)
        invariant strokes == old(strokes) + DrawSegments(view, scr, ZLines(pos, rot, size, n, i), color, 1)
      {
        var x := -s2 + i as real * s;
        var a, b := Place(pos, x, -s2, rot), Place(pos, x, s2, rot);
        ZStep(view, scr, pos, rot, size, n, i, s, s2, x, color);
        Line3d(view(a), view(b), scr, color, 1);
      }
    }

    /** grid's second loop: for i in range(0, n + 1), the line from (-s2, 0, z) to (s2, 0, z). */
    method XFamily(view: Vec3 -> Vec3, scr: Screen, pos: Vec3, rot: Mat3, size: real, n: int, s: real, s2: real, color: Bgr)
      requires 0 < scr.width && n != 0 && s == size / n as real && s2 == 0.5 * size
      modifies this
      ensures strokes == old(strokes) + DrawSegments(view, scr, XLines(pos, rot, size, n, LineCount(n)), color, 1)
    {
      for i := 0 to LineCount(n)
        invariant strokes == old(strokes) + DrawSegments(view, scr, XLines(pos, rot, size, n, i), color, 1)
      {
        var z := -s2 + i as real * s;
        var a, b := Place(pos, -s2, z, rot), Place(pos, s2, z, rot);
        XStep(view, scr, pos, rot, size, n, i, s, s2, z, color);
        Line3d(view(a), view(b), scr, color, 1);
      }
    }
  }

  /** The strokes of grid are those of its first family, then those of its second. */
  lemma GridStrokes(view: Vec3 -> Vec3, scr: Screen, pos: Vec3, rot: Mat3, size: real, n: int, color: Bgr)
    requires 0 < scr.width && n != 0
    ensures DrawSegments(view, scr, GridSegments(pos, rot, size, n), color, 1)
         == DrawSegments(view, scr, ZLines(pos, rot, size, n, LineCount(n)), color, 1)
            + DrawSegments(view, scr, XLines(pos, rot, size, n, LineCount(n)), color, 1)
  {
    DrawAppend(view, scr, ZLines(pos, rot, size, n, LineCount(n)), XLines(pos, rot, size, n, LineCount(n)), color, 1);
  }

  /** The i-th first-family line, with its ends computed as grid computes them. */
  lemma ZLineAt(pos: Vec3, rot: Mat3, size: real, n: int, i: nat, s: real, s2: real, x: real)
    requires n != 0 && s == size / n as real && s2 == 0.5 * size && x == -s2 + i as real * s
    ensures ZLines(pos, rot, size, n, i + 1)
         == ZLines(pos, rot, size, n, i) + [Segment(Place(pos, x, -s2, rot), Place(pos, x, s2, rot))]
  {
    assert x == Offset(size, n, i);
    AlongZEnds(pos, rot, size, x);
  }

  /** The i-th second-family line, with its ends computed as grid computes them. */
  lemma XLineAt(pos: Vec3, rot: Mat3, size: real, n: int, i: nat, s: real, s2: real, z: real)
    requires n != 0 && s == size / n as real && s2 == 0.5 * size && z == -s2 + i as real * s
    ensures XLines(pos, rot, size, n, i + 1)
         == XLines(pos, rot, size, n, i) + [Segment(Place(pos, -s2, z, rot), Place(pos, s2, z, rot))]
  {
    assert z == Offset(size, n, i);
    AlongXEnds(pos, rot, size, z);
  }

  /** One iteration of grid's first loop draws the next line of the family. */
  lemma ZStep(view: Vec3 -> Vec3, scr: Screen, pos: Vec3, rot: Mat3, size: real, n: int, i: nat, s: real, s2: real, x: real, color: Bgr)
    requires 0 < scr.width && n != 0 && s == size / n as real && s2 == 0.5 * size && x == -s2 + i as real * s
    ensures DrawSegments(view, scr, ZLines(pos, rot, size, n, i + 1), color, 1)
         == DrawSegments(view, scr, ZLines(pos, rot, size, n, i), color, 1)
            + StrokesOf(SegmentStroke(view(Place(pos, x, -s2, rot)), view(Place(pos, x, s2, rot)), scr, color, 1))
  {
    ZLineAt(pos, rot, size, n, i, s, s2, x);
    DrawOneMore(view, scr, ZLines(pos, rot, size, n, i), Segment(Place(pos, x, -s2, rot), Place(pos, x, s2, rot)), color, 1);
  }

  /** One iteration of grid's second loop draws the next line of the family. */
  lemma XStep(view: Vec3 -> Vec3, scr: Screen, pos: Vec3, rot: Mat3, size: real, n: int, i: nat, s: real, s2: real, z: real, color: Bgr)
    requires 0 < scr.width && n != 0 && s == size / n as real && s2 == 0.5 * size && z == -s2 + i as real * s
    ensures DrawSegments(view, scr, XLines(pos, rot, size, n, i + 1), color, 1)
         == DrawSegments(view, scr, XLines(pos, rot, size, n, i), color, 1)
            + StrokesOf(SegmentStroke(view(Place(pos, -s2, z, rot)), view(Place(pos, s2, z, rot)), scr, color, 1))
  {
    XLineAt(pos, rot, size, n, i, s, s2, z);
    DrawOneMore(view, scr, XLines(pos, rot, size, n, i), Segment(Place(pos, -s2, z, rot), Place(pos, s2, z, rot)), color, 1);
  }
}
