/**
 * The point-cloud rasterizer (pointcloud): every vertex is moved into view space, optionally
 * put in painter's order (farthest first), projected, scaled by the decimation, truncated to a
 * pixel and masked to the output image; its texture coordinate becomes a clamped texel of the
 * colour image; then the texel colours are written to the masked pixels in order, so at a
 * pixel hit more than once the last point wins.
 */
module Raster {
  import opened Optional
  import opened Geometry
  import opened ViewerState
  import opened Projection
  import opened Painter

  /** A row and a column of an image. */
  datatype Cell = Cell(row: int, col: int)

  /**
   * One point as the scatter sees it: the output cell it writes (None when it is behind the
   * near plane or outside the output image) and the texel it takes its colour from.
   */
  datatype Fragment = Fragment(pixel: Option<Cell>, texel: Cell)

  /** A colour image with `rows` rows of `cols` pixels. */
  predicate Rectangular(img: seq<seq<Bgr>>, rows: nat, cols: nat) {
    |img| == rows && forall r :: 0 <= r < rows ==> |img[r]| == cols
  }

  /** The scale applied to projected points: 0.5 ** decimate when scaling is on, else 1. */
  function ScaleFactor(c: Camera): (f: real)
    ensures 0.0 < f
    ensures !c.scale || c.decimate == 0 ==> f == 1.0
  {
    if c.scale then Pow(0.5, c.decimate) else 1.0
  }

  /**
   * The cell a projected point writes: its scaled coordinates truncated to integers (x gives
   * the column, y the row), kept only inside an h-by-w image.
   */
  function PixelOf(p: Option<Vec2>, f: real, h: int, w: int): (r: Option<Cell>)
    ensures p.None? ==> r.None?
    ensures r.Some? ==> 0 <= r.value.row < h && 0 <= r.value.col < w
    ensures r.Some? ==> (&& r.value.row as real - 1.0 < p.value.y * f < r.value.row as real + 1.0
                         && r.value.col as real - 1.0 < p.value.x * f < r.value.col as real + 1.0)
    ensures p.Some? && 0.0 <= p.value.y * f < h as real && 0.0 <= p.value.x * f < w as real ==> r.Some?
  {
    match p
    case None => None
    case Some(q) => CellAt(q.x * f, q.y * f, h, w)
  }

  /** The pixel at scaled position (x, y): both truncated, kept only inside an h-by-w image. */
  function CellAt(x: real, y: real, h: int, w: int): (r: Option<Cell>)
    ensures r.Some? ==> 0 <= r.value.row < h && 0 <= r.value.col < w
    ensures r.Some? ==> (&& r.value.row as real - 1.0 < y < r.value.row as real + 1.0
                         && r.value.col as real - 1.0 < x < r.value.col as real + 1.0)
    ensures r.Some? ==> (if 0.0 <= y then r.value.row as real <= y else r.value.row == 0)
    ensures r.Some? ==> (if 0.0 <= x then r.value.col as real <= x else r.value.col == 0)
    ensures 0.0 <= y < h as real && 0.0 <= x < w as real ==> r.Some?
  {
    var j, i := Trunc(x), Trunc(y);
    if 0 <= i < h && 0 <= j < w then Some(Cell(i, j)) else None
  }

  /**
   * The texel of a texture coordinate in a ch-by-cw image: coordinate times size, plus a half
   * to reach the pixel centre, truncated, then clamped into the image.
   */
  function TexelOf(t: Vec2, ch: int, cw: int): (r: Cell)
    requires 0 < ch && 0 < cw
    ensures 0 <= r.row < ch && 0 <= r.col < cw
    ensures 0.0 <= t.y * ch as real + 0.5 < ch as real ==> r.row as real <= t.y * ch as real + 0.5 < r.row as real + 1.0
    ensures 0.0 <= t.x * cw as real + 0.5 < cw as real ==> r.col as real <= t.x * cw as real + 0.5 < r.col as real + 1.0
    ensures ch as real <= t.y * ch as real + 0.5 ==> r.row == ch - 1
    ensures cw as real <= t.x * cw as real + 0.5 ==> r.col == cw - 1
  {
    Cell(Clamp(Trunc(t.y * ch as real + 0.5), 0, ch - 1), Clamp(Trunc(t.x * cw as real + 0.5), 0, cw - 1))
  }

  /** The texture's corners: (0, 0) is the first texel and (1, 1) the last. */
  lemma TexelCorners(ch: int, cw: int)
    requires 0 < ch && 0 < cw
    ensures TexelOf(Vec2(0.0, 0.0), ch, cw) == Cell(0, 0)
    ensures TexelOf(Vec2(1.0, 1.0), ch, cw) == Cell(ch - 1, cw - 1)
  {
    assert Trunc(0.0 * ch as real + 0.5) == 0;
    assert Trunc(0.0 * cw as real + 0.5) == 0;
    assert 1.0 * ch as real + 0.5 >= ch as real;
    assert 1.0 * cw as real + 0.5 >= cw as real;
  }

  /** view(verts): every vertex in view space. */
  function ViewAll(c: Camera, lib: MathLib, verts: seq<Vec3>): (vs: seq<Vec3>)
    ensures |vs| == |verts| && forall k :: 0 <= k < |verts| ==> vs[k] == c.View(lib, verts[k])
  {
    seq(|verts|, k requires 0 <= k < |verts| => c.View(lib, verts[k]))
  }

  /** The view-space depths, v[:, 2]. */
  function Depths(vs: seq<Vec3>): (zs: seq<real>)
    ensures |zs| == |vs| && forall k :: 0 <= k < |vs| ==> zs[k] == vs[k].z
  {
    seq(|vs|, k requires 0 <= k < |vs| => vs[k].z)
  }

  /**
   * The orders in which pointcloud may visit the points: a permutation of the indices that, with
   * the painter, never goes from a nearer point to a farther one, and is the input order
   * without it. numpy's argsort leaves the order of equal depths open, so any such order may occur.
   */
  predicate VisitOrder(vs: seq<Vec3>, painter: bool, s: seq<nat>) {
    && |s| == |vs| && Indexes(s, |vs|) && multiset(s) == multiset(Iota(|vs|))
    && (painter ==> DescendingBy(Depths(vs), s))
    && (!painter ==> s == Iota(|vs|))
  }

  /** One visiting order that meets VisitOrder: the insertion sort's, or the input order. */
  function Order(vs: seq<Vec3>, painter: bool): (s: seq<nat>)
    ensures VisitOrder(vs, painter, s)
  {
    if painter then ArgsortDescending(Depths(vs)) else Iota(|vs|)
  }

  /** One view-space point with its texture coordinate, as a fragment. */
  function FragmentOf(v: Vec3, t: Vec2, scr: Screen, f: real, h: int, w: int, ch: int, cw: int): Fragment
    requires 0 < scr.width && 0 < ch && 0 < cw
  {
    Fragment(PixelOf(Project(v, scr), f, h, w), TexelOf(t, ch, cw))
  }

  /**
   * The fragments in visiting order: the k-th is built from the vertex and the texture
   * coordinate at the same position s[k], so the pairing of points and texture survives the sort.
   */
  function Fragments(vs: seq<Vec3>, texcoords: seq<Vec2>, s: seq<nat>, scr: Screen, f: real,
                     h: int, w: int, ch: int, cw: int): (fs: seq<Fragment>)
    requires |vs| == |texcoords| && Indexes(s, |vs|) && 0 < scr.width && 0 < ch && 0 < cw
    ensures |fs| == |s|
    ensures forall k :: 0 <= k < |fs| ==> fs[k] == FragmentOf(vs[s[k]], texcoords[s[k]], scr, f, h, w, ch, cw)
  {
    var pts, tcs := Permute(vs, s), Permute(texcoords, s);
    seq(|s|, k requires 0 <= k < |s| => FragmentOf(pts[k], tcs[k], scr, f, h, w, ch, cw))
  }

  /** Every fragment's pixel lies in an h-by-w image. */
  predicate PixelsIn(fs: seq<Fragment>, h: int, w: int) {
    forall k :: 0 <= k < |fs| && fs[k].pixel.Some? ==>
      0 <= fs[k].pixel.value.row < h && 0 <= fs[k].pixel.value.col < w
  }

  /** Every fragment's texel lies in the colour image. */
  predicate TexelsIn(fs: seq<Fragment>, color: seq<seq<Bgr>>) {
    forall k :: 0 <= k < |fs| ==>
      0 <= fs[k].texel.row < |color| && 0 <= fs[k].texel.col < |color[fs[k].texel.row]|
  }

  /** The mask and the clamp: every pixel written is inside the output, every texel read inside the colour image. */
  lemma FragmentsInBounds(vs: seq<Vec3>, texcoords: seq<Vec2>, s: seq<nat>, scr: Screen, f: real,
                          h: int, w: int, color: seq<seq<Bgr>>, ch: nat, cw: nat)
    requires |vs| == |texcoords| && Indexes(s, |vs|) && 0 < scr.width && 0 < ch && 0 < cw
    requires Rectangular(color, ch, cw)
    ensures var fs := Fragments(vs, texcoords, s, scr, f, h, w, ch, cw);
      PixelsIn(fs, h, w) && TexelsIn(fs, color)
  {
    var fs := Fragments(vs, texcoords, s, scr, f, h, w, ch, cw);
    forall k | 0 <= k < |fs|
      ensures 0 <= fs[k].texel.row < ch && 0 <= fs[k].texel.col < cw
      ensures fs[k].pixel.Some? ==> 0 <= fs[k].pixel.value.row < h && 0 <= fs[k].pixel.value.col < w
    {
    }
  }

  /** The position of the last fragment that writes the cell, if any. */
  function LastHit(fs: seq<Fragment>, cell: Cell): (r: Option<nat>)
    ensures r.Some? ==> r.value < |fs| && fs[r.value].pixel == Some(cell)
    ensures r.Some? ==> forall k :: r.value < k < |fs| ==> fs[k].pixel != Some(cell)
    ensures r.None? ==> forall k :: 0 <= k < |fs| ==> fs[k].pixel != Some(cell)
    decreases |fs|
  {
    if fs == [] then None
    else if fs[|fs| - 1].pixel == Some(cell) then Some(|fs| - 1)
    else LastHit(fs[..|fs| - 1], cell)
  }

  /** One more fragment: it becomes the last writer of its own cell and of no other. */
  lemma LastHitStep(fs: seq<Fragment>, n: nat, cell: Cell)
    requires n < |fs|
    ensures LastHit(fs[..n + 1], cell) == if fs[n].pixel == Some(cell) then Some(n) else LastHit(fs[..n], cell)
  {
    assert fs[..n + 1][..n] == fs[..n];
  }

  /** The colour a cell ends with: its last writer's texel colour, or what it held before. */
  function Painted(fs: seq<Fragment>, color: seq<seq<Bgr>>, cell: Cell, before: Bgr): Bgr
    requires TexelsIn(fs, color)
  {
    match LastHit(fs, cell)
    case None => before
    case Some(k) => color[fs[k].texel.row][fs[k].texel.col]
  }

  /**
   * out[i[m], j[m]] = color[u[m], v[m]]: the texel colours are gathered first, then written to
   * the fragments' pixels in order.
   */
  method Scatter(out: array2<Bgr>, fs: seq<Fragment>, color: seq<seq<Bgr>>)
    requires PixelsIn(fs, out.Length0, out.Length1) && TexelsIn(fs, color)
    modifies out
    ensures forall r, q :: 0 <= r < out.Length0 && 0 <= q < out.Length1 ==>
      out[r, q] == Painted(fs, color, Cell(r, q), old(out[r, q]))
  {
    var colors := seq(|fs|, k requires 0 <= k < |fs| => color[fs[k].texel.row][fs[k].texel.col]);
    var n := 0;
    while n < |fs|
      invariant 0 <= n <= |fs|
      invariant TexelsIn(fs[..n], color)
      invariant forall r, q :: 0 <= r < out.Length0 && 0 <= q < out.Length1 ==>
        out[r, q] == Painted(fs[..n], color, Cell(r, q), old(out[r, q]))
    {
      forall r, q | 0 <= r < out.Length0 && 0 <= q < out.Length1 {
        LastHitStep(fs, n, Cell(r, q));
      }
      match fs[n].pixel {
        case Some(cell) =>
          out[cell.row, cell.col] := colors[n];
        case None =>
      }
      n := n + 1;
    }
    assert fs[..n] == fs;
  }

  /**
   * pointcloud: the fragments of all vertices in visiting order, scattered into `out`. Every
   * pixel ends with the colour of the last fragment that hit it; every other pixel keeps its
   * old colour. `order` is what the depth argsort returns (any order VisitOrder allows; Order
   * gives one), or the input order without the painter.
   */
  method PointCloud(out: array2<Bgr>, verts: seq<Vec3>, texcoords: seq<Vec2>, order: seq<nat>,
                    color: seq<seq<Bgr>>, ch: nat, cw: nat,
                    c: Camera, lib: MathLib, scr: Screen, painter: bool)
    requires |verts| == |texcoords| && 0 < scr.width && VisitOrder(ViewAll(c, lib, verts), painter, order)
    requires 0 < ch && 0 < cw && Rectangular(color, ch, cw)
    modifies out
    ensures var fs := Fragments(ViewAll(c, lib, verts), texcoords, order, scr, ScaleFactor(c),
                                out.Length0, out.Length1, ch, cw);
      && TexelsIn(fs, color)
      && forall r, q :: 0 <= r < out.Length0 && 0 <= q < out.Length1 ==>
        out[r, q] == Painted(fs, color, Cell(r, q), old(out[r, q]))
  {
    var vs := ViewAll(c, lib, verts);
    var fs := Fragments(vs, texcoords, order, scr, ScaleFactor(c), out.Length0, out.Length1, ch, cw);
    FragmentsInBounds(vs, texcoords, order, scr, ScaleFactor(c), out.Length0, out.Length1, color, ch, cw);
    Scatter(out, fs, color);
  }

  /**
   * With the painter, the point that survives at a pixel is the nearest (smallest view-space
   * depth) of all the points that land there, whichever way the sort orders equal depths.
   */
  lemma NearestPointWins(vs: seq<Vec3>, texcoords: seq<Vec2>, s: seq<nat>, scr: Screen, f: real,
                         h: int, w: int, ch: int, cw: int, cell: Cell, j: nat)
    requires |vs| == |texcoords| && VisitOrder(vs, true, s) && 0 < scr.width && 0 < ch && 0 < cw
    requires var fs := Fragments(vs, texcoords, s, scr, f, h, w, ch, cw);
      j < |fs| && fs[j].pixel == Some(cell)
    ensures var fs := Fragments(vs, texcoords, s, scr, f, h, w, ch, cw);
      && LastHit(fs, cell).Some?
      && vs[s[LastHit(fs, cell).value]].z <= vs[s[j]].z
  {
    var fs := Fragments(vs, texcoords, s, scr, f, h, w, ch, cw);
    var k := LastHit(fs, cell).value;
    assert j <= k;
    if j < k {
      assert Depths(vs)[s[j]] >= Depths(vs)[s[k]];
    }
  }

  /** Without the painter, the point that survives at a pixel is the last one in input order. */
  lemma InputOrderWins(vs: seq<Vec3>, texcoords: seq<Vec2>, scr: Screen, f: real,
                       h: int, w: int, ch: int, cw: int, cell: Cell)
    requires |vs| == |texcoords| && 0 < scr.width && 0 < ch && 0 < cw
    ensures var fs := Fragments(vs, texcoords, Iota(|vs|), scr, f, h, w, ch, cw);
      LastHit(fs, cell).Some? ==>
        && PixelOf(Project(vs[LastHit(fs, cell).value], scr), f, h, w) == Some(cell)
        && forall k :: LastHit(fs, cell).value < k < |vs| ==> PixelOf(Project(vs[k], scr), f, h, w) != Some(cell)
  {
    var fs := Fragments(vs, texcoords, Iota(|vs|), scr, f, h, w, ch, cw);
    assert forall k :: 0 <= k < |fs| ==> fs[k].pixel == PixelOf(Project(vs[k], scr), f, h, w);
  }
}
