// The heightmap half of stl2png: the bounding box of a mesh, the barycentric
// inside test, the max-z raster with its inverted 16-bit quantisation, and the
// big-endian Netpbm P5 writer.
module Heightmap {
  import opened Common
  import opened Stl2Png

  // ---------------------------------------------------------------------
  // Bounds

  datatype Box = Box(minx: real, miny: real, minz: real, maxx: real, maxy: real, maxz: real)

  /** The box `reset()` leaves: minima at 1e30, maxima at -1e30. */
  const Reset: Box := Box(1e30, 1e30, 1e30, -1e30, -1e30, -1e30)

  /** The box grown by `include(v)`. */
  function Included(b: Box, v: Vec3): (r: Box) {
    Box(MinR(b.minx, v.x), MinR(b.miny, v.y), MinR(b.minz, v.z), MaxR(b.maxx, v.x), MaxR(b.maxy, v.y), MaxR(b.maxz, v.z))
  }

  /** The vertices of a mesh in the order compute_bounds visits them. */
  function Vertices(tris: seq<Tri>): (vs: seq<Vec3>)
    ensures |vs| == 3 * |tris|
    decreases |tris|
  {
    if |tris| == 0 then [] else Vertices(tris[..|tris| - 1]) + [tris[|tris| - 1].v0, tris[|tris| - 1].v1, tris[|tris| - 1].v2]
  }

  /** The box after including every vertex, in order, into a reset box. */
  function BoxOf(vs: seq<Vec3>): (r: Box)
    decreases |vs|
  {
    if |vs| == 0 then Reset else Included(BoxOf(vs[..|vs| - 1]), vs[|vs| - 1])
  }

  /** `Bounds`, whose fields compute_bounds and make_heightmap update in place. */
  class Bounds {
    var minx: real
    var miny: real
    var minz: real
    var maxx: real
    var maxy: real
    var maxz: real

    function Value(): (r: Box)
      reads this
    {
      Box(minx, miny, minz, maxx, maxy, maxz)
    }

    constructor ()
      ensures Value() == Reset
    {
      minx, miny, minz := 1e30, 1e30, 1e30;
      maxx, maxy, maxz := -1e30, -1e30, -1e30;
    }

    method ResetBox()
      modifies this
      ensures Value() == Reset
    {
      minx, miny, minz := 1e30, 1e30, 1e30;
      maxx, maxy, maxz := -1e30, -1e30, -1e30;
    }

    method Include(v: Vec3)
      modifies this
      ensures Value() == Included(old(Value()), v)
    {
      minx := MinR(minx, v.x);
      miny := MinR(miny, v.y);
      minz := MinR(minz, v.z);
      maxx := MaxR(maxx, v.x);
      maxy := MaxR(maxy, v.y);
      maxz := MaxR(maxz, v.z);
    }
  }

  /** The box of one more triangle's vertices includes its three corners in turn. */
  lemma BoxOfNext(tris: seq<Tri>, i: nat)
    requires i < |tris|
    ensures BoxOf(Vertices(tris[..i + 1]))
      == Included(Included(Included(BoxOf(Vertices(tris[..i])), tris[i].v0), tris[i].v1), tris[i].v2)
  {
    var t := tris[i];
    assert tris[..i + 1][..i] == tris[..i];
    var before := Vertices(tris[..i]);
    assert Vertices(tris[..i + 1]) == before + [t.v0, t.v1, t.v2];
    assert (before + [t.v0, t.v1, t.v2])[..|before| + 2] == before + [t.v0, t.v1];
    assert (before + [t.v0, t.v1])[..|before| + 1] == before + [t.v0];
    assert (before + [t.v0])[..|before|] == before;
    assert BoxOf(before + [t.v0]) == Included(BoxOf(before), t.v0);
    assert BoxOf(before + [t.v0, t.v1]) == Included(BoxOf(before + [t.v0]), t.v1);
    assert BoxOf(before + [t.v0, t.v1, t.v2]) == Included(BoxOf(before + [t.v0, t.v1]), t.v2);
  }

  /** compute_bounds: resets the box, fails on an empty mesh, otherwise includes every vertex. */
  method ComputeBounds(tris: seq<Tri>, b: Bounds) returns (ok: bool)
    modifies b
    ensures ok <==> |tris| > 0
    ensures b.Value() == BoxOf(Vertices(tris))
  {
    b.ResetBox();
    if |tris| == 0 {
      return false;
    }
    var i := 0;
    while i < |tris|
      invariant 0 <= i <= |tris|
      invariant b.Value() == BoxOf(Vertices(tris[..i]))
    {
      var t := tris[i];
      BoxOfNext(tris, i);
      b.Include(t.v0);
      b.Include(t.v1);
      b.Include(t.v2);
      i := i + 1;
    }
    assert tris[..i] == tris;
    return true;
  }

  /** Every vertex lies in the box. */
  lemma {:induction false} BoxContains(vs: seq<Vec3>, j: nat)
    requires j < |vs|
    ensures BoxOf(vs).minx <= vs[j].x <= BoxOf(vs).maxx
    ensures BoxOf(vs).miny <= vs[j].y <= BoxOf(vs).maxy
    ensures BoxOf(vs).minz <= vs[j].z <= BoxOf(vs).maxz
    decreases |vs|
  {
    if j < |vs| - 1 {
      BoxContains(vs[..|vs| - 1], j);
    }
  }

  /** Coordinates that stay within the reset values. */
  predicate Moderate(vs: seq<Vec3>) {
    forall j :: 0 <= j < |vs| ==> -1e30 <= vs[j].x <= 1e30 && -1e30 <= vs[j].y <= 1e30 && -1e30 <= vs[j].z <= 1e30
  }

  /** Every face of the box of a non-empty set of moderate vertices touches a vertex. */
  lemma {:induction false} BoxTight(vs: seq<Vec3>)
    requires |vs| > 0 && Moderate(vs)
    ensures exists j :: 0 <= j < |vs| && vs[j].x == BoxOf(vs).minx
    ensures exists j :: 0 <= j < |vs| && vs[j].x == BoxOf(vs).maxx
    ensures exists j :: 0 <= j < |vs| && vs[j].y == BoxOf(vs).miny
    ensures exists j :: 0 <= j < |vs| && vs[j].y == BoxOf(vs).maxy
    ensures exists j :: 0 <= j < |vs| && vs[j].z == BoxOf(vs).minz
    ensures exists j :: 0 <= j < |vs| && vs[j].z == BoxOf(vs).maxz
    decreases |vs|
  {
    var n := |vs| - 1;
    var init := vs[..n];
    var b := BoxOf(vs);
    if n == 0 {
      assert init == [];
      assert BoxOf(init) == Reset;
      assert b == Included(BoxOf(init), vs[0]);
    } else {
      BoxTight(init);
      var bi := BoxOf(init);
      assert forall j :: 0 <= j < n ==> init[j] == vs[j];
      if b.minx != vs[n].x {
        var j :| 0 <= j < n && init[j].x == bi.minx;
        assert vs[j].x == b.minx;
      }
      if b.maxx != vs[n].x {
        var j :| 0 <= j < n && init[j].x == bi.maxx;
        assert vs[j].x == b.maxx;
      }
      if b.miny != vs[n].y {
        var j :| 0 <= j < n && init[j].y == bi.miny;
        assert vs[j].y == b.miny;
      }
      if b.maxy != vs[n].y {
        var j :| 0 <= j < n && init[j].y == bi.maxy;
        assert vs[j].y == b.maxy;
      }
      if b.minz != vs[n].z {
        var j :| 0 <= j < n && init[j].z == bi.minz;
        assert vs[j].z == b.minz;
      }
      if b.maxz != vs[n].z {
        var j :| 0 <= j < n && init[j].z == bi.maxz;
        assert vs[j].z == b.maxz;
      }
    }
  }

  /** make_heightmap's margin: x and y widened on both sides by pad times their extent; z untouched. */
  function Padded(b: Box, pad: real): (r: Box)
    ensures r.minz == b.minz && r.maxz == b.maxz
    ensures r.maxx - r.minx == (b.maxx - b.minx) * (1.0 + 2.0 * pad)
    ensures r.maxy - r.miny == (b.maxy - b.miny) * (1.0 + 2.0 * pad)
  {
    var px := (b.maxx - b.minx) * pad;
    var py := (b.maxy - b.miny) * pad;
    Box(b.minx - px, b.miny - py, b.minz, b.maxx + px, b.maxy + py, b.maxz)
  }

  // ---------------------------------------------------------------------
  // Barycentric inside test

  /** Twice the signed area of the triangle projected to XY. */
  function Denom(t: Tri): (r: real) {
    (t.v1.y - t.v2.y) * (t.v0.x - t.v2.x) + (t.v2.x - t.v1.x) * (t.v0.y - t.v2.y)
  }

  /** The projection is treated as degenerate below |denom| 1e-12. */
  predicate Flat(t: Tri) {
    -1e-12 < Denom(t) < 1e-12
  }

  function WeightA(t: Tri, px: real, py: real): (r: real)
    requires Denom(t) != 0.0
  {
    ((t.v1.y - t.v2.y) * (px - t.v2.x) + (t.v2.x - t.v1.x) * (py - t.v2.y)) / Denom(t)
  }

  function WeightB(t: Tri, px: real, py: real): (r: real)
    requires Denom(t) != 0.0
  {
    ((t.v2.y - t.v0.y) * (px - t.v2.x) + (t.v0.x - t.v2.x) * (py - t.v2.y)) / Denom(t)
  }

  /** The test's tolerance: `w + eps < 0` with eps = -1e-9 rejects every weight below 1e-9,
      so the tolerance makes the test stricter than 0 <= w. */
  const MinWeight: real := 1e-9

  /** point_in_triangle_barycentric: the interpolated z when (px, py) is accepted. */
  function PointInTriangle(px: real, py: real, t: Tri): (r: Option<real>) {
    if Flat(t) then None
    else
      var a := WeightA(t, px, py);
      var b := WeightB(t, px, py);
      var c := 1.0 - a - b;
      if a + -MinWeight < 0.0 || b + -MinWeight < 0.0 || c + -MinWeight < 0.0 then None
      else Some(Blend(t, a, b, c).z)
  }

  /** The point with barycentric weights a, b, c (a + b + c = 1). */
  function Blend(t: Tri, a: real, b: real, c: real): (r: Vec3) {
    Vec3(a * t.v0.x + b * t.v1.x + c * t.v2.x, a * t.v0.y + b * t.v1.y + c * t.v2.y, a * t.v0.z + b * t.v1.z + c * t.v2.z)
  }

  /** The weights the test computes are the point's barycentric coordinates. */
  lemma {:induction false} WeightsOfBlend(t: Tri, a: real, b: real, c: real)
    requires Denom(t) != 0.0 && a + b + c == 1.0
    ensures WeightA(t, Blend(t, a, b, c).x, Blend(t, a, b, c).y) == a
    ensures WeightB(t, Blend(t, a, b, c).x, Blend(t, a, b, c).y) == b
  {
    var p := Blend(t, a, b, c);
    var dx0, dy0 := t.v0.x - t.v2.x, t.v0.y - t.v2.y;
    var dx1, dy1 := t.v1.x - t.v2.x, t.v1.y - t.v2.y;
    assert p.x - t.v2.x == a * dx0 + b * dx1;
    assert p.y - t.v2.y == a * dy0 + b * dy1;
    assert Denom(t) == dy1 * dx0 - dx1 * dy0;
    assert dy1 * (a * dx0 + b * dx1) - dx1 * (a * dy0 + b * dy1) == a * (dy1 * dx0 - dx1 * dy0);
    assert -dy0 * (a * dx0 + b * dx1) + dx0 * (a * dy0 + b * dy1) == b * (dy1 * dx0 - dx1 * dy0);
  }

  /** What the test answers, given the weights it computes. */
  lemma {:induction false} TestByWeights(t: Tri, px: real, py: real, a: real, b: real)
    requires !Flat(t) && WeightA(t, px, py) == a && WeightB(t, px, py) == b
    ensures PointInTriangle(px, py, t)
         == if a >= MinWeight && b >= MinWeight && 1.0 - a - b >= MinWeight
            then Some(Blend(t, a, b, 1.0 - a - b).z) else None
  {
  }

  /** The test accepts the point of weights a, b, c exactly when every weight is at
      least 1e-9, and then answers the interpolated z: vertices and edge points
      (a zero weight) are rejected. */
  lemma {:induction false} InsideExactly(t: Tri, a: real, b: real, c: real)
    requires !Flat(t) && a + b + c == 1.0
    ensures PointInTriangle(Blend(t, a, b, c).x, Blend(t, a, b, c).y, t)
         == if a >= MinWeight && b >= MinWeight && c >= MinWeight then Some(Blend(t, a, b, c).z) else None
  {
    WeightsOfBlend(t, a, b, c);
    var p := Blend(t, a, b, c);
    TestByWeights(t, p.x, p.y, a, b);
    assert 1.0 - a - b == c;
  }

  /** The weights the test computes put the point back together. */
  lemma {:induction false} BlendOfWeights(t: Tri, px: real, py: real)
    requires Denom(t) != 0.0
    ensures var a, b := WeightA(t, px, py), WeightB(t, px, py);
      Blend(t, a, b, 1.0 - a - b).x == px && Blend(t, a, b, 1.0 - a - b).y == py
  {
    var a, b := WeightA(t, px, py), WeightB(t, px, py);
    var d := Denom(t);
    var dx0, dy0 := t.v0.x - t.v2.x, t.v0.y - t.v2.y;
    var dx1, dy1 := t.v1.x - t.v2.x, t.v1.y - t.v2.y;
    var ex, ey := px - t.v2.x, py - t.v2.y;
    assert d == dy1 * dx0 - dx1 * dy0;
    assert a * d == dy1 * ex - dx1 * ey;
    assert b * d == -dy0 * ex + dx0 * ey;
    assert (a * dx0 + b * dx1) * d == ex * d;
    assert (a * dy0 + b * dy1) * d == ey * d;
  }

  /** Every accepted point is the blend of its weights, all at least 1e-9, and its z is the blend's z. */
  lemma {:induction false} AcceptedIsInside(t: Tri, px: real, py: real)
    requires PointInTriangle(px, py, t).Some?
    ensures !Flat(t)
    ensures var a, b := WeightA(t, px, py), WeightB(t, px, py);
      a >= MinWeight && b >= MinWeight && 1.0 - a - b >= MinWeight
      && Blend(t, a, b, 1.0 - a - b).x == px && Blend(t, a, b, 1.0 - a - b).y == py
      && PointInTriangle(px, py, t) == Some(Blend(t, a, b, 1.0 - a - b).z)
  {
    var a, b := WeightA(t, px, py), WeightB(t, px, py);
    TestByWeights(t, px, py, a, b);
    BlendOfWeights(t, px, py);
  }

  // ---------------------------------------------------------------------
  // The max-z raster

  /** The padded box and the image size make_heightmap rasterises into. */
  datatype Raster = Raster(box: Box, width: int, height: int)

  /** A raster make_heightmap goes on with: a positive size and a padded extent that is not empty. */
  predicate Usable(r: Raster) {
    r.width >= 1 && r.height >= 1 && r.box.maxx - r.box.minx > 0.0 && r.box.maxy - r.box.miny > 0.0
  }

  function ClampI(v: int, lo: int, hi: int): (r: int)
    requires lo <= hi
    ensures lo <= r <= hi && (lo <= v <= hi ==> r == v)
  {
    if v < lo then lo else if v > hi then hi else v
  }

  /** The first and last pixel column (row) a coordinate range maps to, clamped to the image. */
  function PixelLo(v: real, lo: real, span: real, n: int): (p: int)
    requires span > 0.0 && n >= 1
    ensures 0 <= p < n
  {
    ClampI(Floor((v - lo) / span * (n - 1) as real), 0, n - 1)
  }

  function PixelHi(v: real, lo: real, span: real, n: int): (p: int)
    requires span > 0.0 && n >= 1
    ensures 0 <= p < n
  {
    ClampI(Ceil((v - lo) / span * (n - 1) as real), 0, n - 1)
  }

  /** The world coordinate of pixel i of n across [lo, lo + span]. For n == 1 the
      source divides 0 by 0; the NaN coordinate makes the triangle test answer a
      NaN height that never beats the buffer, so no pixel is written: None. */
  function Center(lo: real, span: real, n: int, i: int): (r: Option<real>)
    requires n >= 1
  {
    if n == 1 then None else Some(lo + (i as real) / ((n - 1) as real) * span)
  }

  function Min3(a: real, b: real, c: real): (r: real) { MinR(MinR(a, b), c) }
  function Max3(a: real, b: real, c: real): (r: real) { MaxR(MaxR(a, b), c) }

  /** Pixel (x, y) lies in the clamped pixel box of the triangle's XY bounding box. */
  predicate InPixelBox(t: Tri, r: Raster, x: int, y: int)
    requires Usable(r)
  {
    var w, h := r.box.maxx - r.box.minx, r.box.maxy - r.box.miny;
    PixelLo(Min3(t.v0.x, t.v1.x, t.v2.x), r.box.minx, w, r.width) <= x <= PixelHi(Max3(t.v0.x, t.v1.x, t.v2.x), r.box.minx, w, r.width)
    && PixelLo(Min3(t.v0.y, t.v1.y, t.v2.y), r.box.miny, h, r.height) <= y <= PixelHi(Max3(t.v0.y, t.v1.y, t.v2.y), r.box.miny, h, r.height)
  }

  /** The height a triangle offers pixel (x, y): only pixels of its box are considered,
      at the pixel's world coordinates. */
  function Cover(t: Tri, r: Raster, x: int, y: int): (c: Option<real>)
    requires Usable(r)
  {
    if !InPixelBox(t, r, x, y) then None
    else
      var cx := Center(r.box.minx, r.box.maxx - r.box.minx, r.width, x);
      var cy := Center(r.box.miny, r.box.maxy - r.box.miny, r.height, y);
      if cx.None? || cy.None? then None else PointInTriangle(cx.value, cy.value, t)
  }

  /** The buffer update `if (zval > zbuf[idx]) zbuf[idx] = zval`, with None for the
      initial lowest double. */
  function Deeper(cur: Option<real>, z: Option<real>): (r: Option<real>)
    ensures z.None? ==> r == cur
    ensures r.None? <==> cur.None? && z.None?
  {
    match z
    case None => cur
    case Some(v) => if cur.None? || v > cur.value then z else cur
  }

  /** The buffer cell of pixel (x, y) after the triangles, in order. */
  function Cell(tris: seq<Tri>, r: Raster, x: int, y: int): (c: Option<real>)
    requires Usable(r)
    decreases |tris|
  {
    if |tris| == 0 then None else Deeper(Cell(tris[..|tris| - 1], r, x, y), Cover(tris[|tris| - 1], r, x, y))
  }

  /** A cell holds the largest height any triangle offers it, and nothing when none does. */
  lemma {:induction false} CellIsMax(tris: seq<Tri>, r: Raster, x: int, y: int)
    requires Usable(r)
    ensures Cell(tris, r, x, y).None? <==> forall i :: 0 <= i < |tris| ==> Cover(tris[i], r, x, y).None?
    ensures Cell(tris, r, x, y).Some? ==>
      (exists i :: 0 <= i < |tris| && Cover(tris[i], r, x, y) == Cell(tris, r, x, y))
      && forall i :: 0 <= i < |tris| && Cover(tris[i], r, x, y).Some? ==> Cover(tris[i], r, x, y).value <= Cell(tris, r, x, y).value
    decreases |tris|
  {
    if |tris| > 0 {
      var n := |tris| - 1;
      var init := tris[..n];
      CellIsMax(init, r, x, y);
      assert forall i :: 0 <= i < n ==> init[i] == tris[i];
      var c := Cell(tris, r, x, y);
      var ci := Cell(init, r, x, y);
      var z := Cover(tris[n], r, x, y);
      if c.Some? && c != z {
        var i :| 0 <= i < n && Cover(init[i], r, x, y) == ci;
        assert Cover(tris[i], r, x, y) == c;
      }
      if c.Some? {
        forall i | 0 <= i < |tris| && Cover(tris[i], r, x, y).Some?
          ensures Cover(tris[i], r, x, y).value <= c.value
        {
          if i < n {
            assert Cover(init[i], r, x, y) == Cover(tris[i], r, x, y);
          }
        }
      }
    }
  }

  /** Paints one triangle into the buffer: every pixel of its clamped pixel box that
      the inside test accepts keeps the larger of its value and the triangle's height. */
  method Rasterize(zbuf: array2<Option<real>>, t: Tri, r: Raster)
    requires Usable(r) && zbuf.Length0 == r.height && zbuf.Length1 == r.width
    modifies zbuf
    ensures forall y, x :: 0 <= y < r.height && 0 <= x < r.width ==> zbuf[y, x] == Deeper(old(zbuf[y, x]), Cover(t, r, x, y))
  {
    var gridW, gridH := r.box.maxx - r.box.minx, r.box.maxy - r.box.miny;
    var x0 := PixelLo(Min3(t.v0.x, t.v1.x, t.v2.x), r.box.minx, gridW, r.width);
    var x1 := PixelHi(Max3(t.v0.x, t.v1.x, t.v2.x), r.box.minx, gridW, r.width);
    var y0 := PixelLo(Min3(t.v0.y, t.v1.y, t.v2.y), r.box.miny, gridH, r.height);
    var y1 := PixelHi(Max3(t.v0.y, t.v1.y, t.v2.y), r.box.miny, gridH, r.height);
    var py := y0;
    while py <= y1
      invariant y0 <= py && (py <= y1 + 1 || py == y0)
      invariant forall y, x :: 0 <= y < r.height && 0 <= x < r.width ==>
        zbuf[y, x] == if y < py then Deeper(old(zbuf[y, x]), Cover(t, r, x, y)) else old(zbuf[y, x])
    {
      var yw := Center(r.box.miny, gridH, r.height, py);
      var px := x0;
      while px <= x1
        invariant x0 <= px && (px <= x1 + 1 || px == x0)
        invariant forall y, x :: 0 <= y < r.height && 0 <= x < r.width ==>
          zbuf[y, x] == if y < py || (y == py && x < px) then Deeper(old(zbuf[y, x]), Cover(t, r, x, y)) else old(zbuf[y, x])
      {
        var xw := Center(r.box.minx, gridW, r.width, px);
        if xw.Some? && yw.Some? {
          var zval := PointInTriangle(xw.value, yw.value, t);
          if zval.Some? && (zbuf[py, px].None? || zval.value > zbuf[py, px].value) {
            zbuf[py, px] := zval;
          }
        }
        px := px + 1;
      }
      py := py + 1;
    }
  }

  /** The buffer as rows of cells, row y holding pixels x = 0 .. width-1. */
  function Grid(tris: seq<Tri>, r: Raster): (g: seq<seq<Option<real>>>)
    requires Usable(r)
    ensures |g| == r.height && forall y :: 0 <= y < |g| ==> |g[y]| == r.width
  {
    seq(r.height, y requires 0 <= y < r.height => seq(r.width, x requires 0 <= x < r.width => Cell(tris, r, x, y)))
  }

  // ---------------------------------------------------------------------
  // Height range and quantisation

  /** The running minimum of the covered cells, from 1e30. */
  function ZLow(cells: seq<Option<real>>): (r: real)
    decreases |cells|
  {
    if |cells| == 0 then 1e30
    else
      var c := cells[|cells| - 1];
      if c.None? then ZLow(cells[..|cells| - 1]) else MinR(ZLow(cells[..|cells| - 1]), c.value)
  }

  /** The running maximum of the covered cells, from -1e30. */
  function ZHigh(cells: seq<Option<real>>): (r: real)
    decreases |cells|
  {
    if |cells| == 0 then -1e30
    else
      var c := cells[|cells| - 1];
      if c.None? then ZHigh(cells[..|cells| - 1]) else MaxR(ZHigh(cells[..|cells| - 1]), c.value)
  }

  /** Every covered height lies in [ZLow, ZHigh]. */
  lemma {:induction false} ZRangeContains(cells: seq<Option<real>>, j: nat)
    requires j < |cells| && cells[j].Some?
    ensures ZLow(cells) <= cells[j].value <= ZHigh(cells)
    decreases |cells|
  {
    if j < |cells| - 1 {
      ZRangeContains(cells[..|cells| - 1], j);
    }
  }

  lemma {:induction false} NoHitRange(cells: seq<Option<real>>)
    requires forall j :: 0 <= j < |cells| ==> cells[j].None?
    ensures ZLow(cells) == 1e30 && ZHigh(cells) == -1e30
    decreases |cells|
  {
    if |cells| > 0 {
      NoHitRange(cells[..|cells| - 1]);
    }
  }

  /** `zmax < zmin` after the scan exactly when no cell was covered, which is when make_heightmap gives up. */
  lemma {:induction false} EmptyRangeIffNoHit(cells: seq<Option<real>>)
    ensures ZHigh(cells) < ZLow(cells) <==> forall j :: 0 <= j < |cells| ==> cells[j].None?
  {
    if exists j :: 0 <= j < |cells| && cells[j].Some? {
      var j :| 0 <= j < |cells| && cells[j].Some?;
      ZRangeContains(cells, j);
    } else {
      NoHitRange(cells);
    }
  }

  type U16 = v: int | 0 <= v < 0x1_0000

  /** The inverted normalisation of a covered height: t = (vz - zmin)/(zmax - zmin)
      clamped to [0, 1], then round((1 - t) * 65535), which never exceeds 65535, so the
      source's cap does not apply. A flat range (zmax == zmin) is taken as t = 0; see
      QuantizeAsWritten. */
  function Quantize(vz: real, zmin: real, zmax: real): (q: U16)
  {
    var t := if zmax == zmin then 0.0 else Clamp((vz - zmin) / (zmax - zmin), 0.0, 1.0);
    RoundHalfAway((1.0 - t) * 65535.0)
  }

  /** The same arithmetic as the source writes it: on a flat range the division is
      0/0, and the cast of the resulting NaN to an integer is undefined (None). */
  function QuantizeAsWritten(vz: real, zmin: real, zmax: real): (q: Option<U16>)
  {
    if zmax == zmin then None
    else
      var t := Clamp((vz - zmin) / (zmax - zmin), 0.0, 1.0);
      Some(RoundHalfAway((1.0 - t) * 65535.0))
  }

  /** On a range that is not flat the two agree; on a flat one, which a mesh whose covered
      pixels all lie at one height produces, the source's value is undefined. */
  lemma {:induction false} QuantizeFlatRange(vz: real, zmin: real, zmax: real)
    ensures zmax != zmin ==> QuantizeAsWritten(vz, zmin, zmax) == Some(Quantize(vz, zmin, zmax))
    ensures QuantizeAsWritten(vz, vz, vz).None? && Quantize(vz, vz, vz) == 65535
  {
  }

  /** The lowest height goes to 65535 (white), the highest to 0, and higher means darker. */
  lemma {:induction false} QuantizeInverted(zmin: real, zmax: real, z1: real, z2: real)
    requires zmin < zmax && z1 <= z2
    ensures Quantize(zmin, zmin, zmax) == 65535 && Quantize(zmax, zmin, zmax) == 0
    ensures Quantize(z2, zmin, zmax) <= Quantize(z1, zmin, zmax)
  {
    var d := zmax - zmin;
    assert (zmin - zmin) / d == 0.0;
    assert (zmax - zmin) / d == 1.0;
    var t1 := Clamp((z1 - zmin) / d, 0.0, 1.0);
    var t2 := Clamp((z2 - zmin) / d, 0.0, 1.0);
    assert (z1 - zmin) / d <= (z2 - zmin) / d by {
      assert (z2 - zmin) / d - (z1 - zmin) / d == (z2 - z1) / d;
    }
    assert t1 <= t2;
    var a, b := (1.0 - t2) * 65535.0, (1.0 - t1) * 65535.0;
    assert a <= b;
    var ra, rb := RoundHalfAway(a), RoundHalfAway(b);
    assert ra == (a + 0.5).Floor && rb == (b + 0.5).Floor;
    assert ra <= rb;
  }

  /** An output sample: background 65535 for an uncovered cell, the quantised height otherwise. */
  function Sample(c: Option<real>, zmin: real, zmax: real): (r: U16) {
    if c.None? then 65535 else Quantize(c.value, zmin, zmax)
  }

  function SampleRow(row: seq<Option<real>>, zmin: real, zmax: real): (s: seq<U16>)
    ensures |s| == |row| && forall x :: 0 <= x < |row| ==> s[x] == Sample(row[x], zmin, zmax)
  {
    seq(|row|, x requires 0 <= x < |row| => Sample(row[x], zmin, zmax))
  }

  /** The rows of samples of a grid of cells. */
  function SampleRows(g: seq<seq<Option<real>>>, zmin: real, zmax: real): (rows: seq<seq<U16>>)
    ensures |rows| == |g| && forall y :: 0 <= y < |g| ==> rows[y] == SampleRow(g[y], zmin, zmax)
  {
    seq(|g|, y requires 0 <= y < |g| => SampleRow(g[y], zmin, zmax))
  }

  /** The samples make_heightmap outputs, in row-major order. */
  function Samples(tris: seq<Tri>, r: Raster): (s: seq<U16>)
    requires Usable(r)
  {
    var g := Grid(tris, r);
    var cells := Flatten(g);
    Flatten(SampleRows(g, ZLow(cells), ZHigh(cells)))
  }

  /** The raster make_heightmap uses: the mesh's box padded by padRatio. */
  function FrameOf(tris: seq<Tri>, width: int, height: int, padRatio: real): (r: Raster) {
    Raster(Padded(BoxOf(Vertices(tris)), padRatio), width, height)
  }

  /** The cases in which make_heightmap produces an image. */
  predicate Succeeds(tris: seq<Tri>, width: int, height: int, padRatio: real) {
    |tris| > 0 && width > 0 && height > 0 && Usable(FrameOf(tris, width, height, padRatio))
    && var cells := Flatten(Grid(tris, FrameOf(tris, width, height, padRatio)));
       !(ZHigh(cells) < ZLow(cells))
  }

  /** make_heightmap: on failure `out` and `usedBounds` are left alone; on success the
      image is the row-major samples of the max-z raster and usedBounds the padded box. */
  method MakeHeightmap(tris: seq<Tri>, width: int, height: int, padRatio: real, out0: seq<U16>, used0: Box)
    returns (ok: bool, out: seq<U16>, used: Box)
    ensures ok <==> Succeeds(tris, width, height, padRatio)
    ensures ok ==> out == Samples(tris, FrameOf(tris, width, height, padRatio)) && used == FrameOf(tris, width, height, padRatio).box
    ensures !ok ==> out == out0 && used == used0
  {
    if |tris| == 0 || width <= 0 || height <= 0 {
      return false, out0, used0;
    }
    var b := new Bounds();
    PaddedBounds(tris, b, padRatio);
    var gridW := b.maxx - b.minx;
    var gridH := b.maxy - b.miny;
    var r := Raster(b.Value(), width, height);
    if gridW <= 0.0 || gridH <= 0.0 {
      return false, out0, used0;
    }
    var rendered;
    rendered, out := Render(tris, r);
    if !rendered {
      return false, out0, used0;
    }
    used := b.Value();
    ok := true;
  }

  /** The bounds of the mesh, widened on each side by padRatio of their width and depth. */
  method PaddedBounds(tris: seq<Tri>, b: Bounds, padRatio: real)
    modifies b
    ensures b.Value() == Padded(BoxOf(Vertices(tris)), padRatio)
  {
    var _ := ComputeBounds(tris, b);
    ghost var box := b.Value();
    var padx := (b.maxx - b.minx) * padRatio;
    var pady := (b.maxy - b.miny) * padRatio;
    b.minx, b.maxx, b.miny, b.maxy := b.minx - padx, b.maxx + padx, b.miny - pady, b.maxy + pady;
    PaddedFields(box, padRatio, padx, pady);
  }

  /** The padded box, field by field, for paddings computed beforehand. */
  lemma PaddedFields(b: Box, pad: real, px: real, py: real)
    requires px == (b.maxx - b.minx) * pad && py == (b.maxy - b.miny) * pad
    ensures Padded(b, pad) == Box(b.minx - px, b.miny - py, b.minz, b.maxx + px, b.maxy + py, b.maxz)
  {
  }

  /** Paint, scan for the height range, quantise: no image when no cell is covered. */
  method Render(tris: seq<Tri>, r: Raster) returns (ok: bool, out: seq<U16>)
    requires Usable(r)
    ensures ok <==> !(ZHigh(Flatten(Grid(tris, r))) < ZLow(Flatten(Grid(tris, r))))
    ensures ok ==> out == Samples(tris, r)
  {
    var zbuf := Accumulate(tris, r);
    ghost var g := Grid(tris, r);
    var zmin, zmax := ScanRange(zbuf, g);
    if zmax < zmin {
      return false, [];
    }
    out := Quantized(zbuf, g, zmin, zmax);
    ok := true;
  }

  /** The buffer after every triangle has been painted into it, in order. */
  method Accumulate(tris: seq<Tri>, r: Raster) returns (zbuf: array2<Option<real>>)
    requires Usable(r)
    ensures fresh(zbuf) && zbuf.Length0 == r.height && zbuf.Length1 == r.width
    ensures forall y, x :: 0 <= y < r.height && 0 <= x < r.width ==> zbuf[y, x] == Cell(tris, r, x, y)
  {
    zbuf := new Option<real>[r.height, r.width]((_, _) => None);
    var i := 0;
    while i < |tris|
      invariant 0 <= i <= |tris|
      invariant forall y, x :: 0 <= y < r.height && 0 <= x < r.width ==> zbuf[y, x] == Cell(tris[..i], r, x, y)
    {
      Rasterize(zbuf, tris[i], r);
      assert tris[..i + 1][..i] == tris[..i];
      i := i + 1;
    }
    assert tris[..i] == tris;
  }

  /** The scan for the lowest and highest covered cell, in row-major order. */
  method ScanRange(zbuf: array2<Option<real>>, ghost g: seq<seq<Option<real>>>) returns (zmin: real, zmax: real)
    requires |g| == zbuf.Length0 && forall y :: 0 <= y < |g| ==> |g[y]| == zbuf.Length1
    requires forall y, x :: 0 <= y < zbuf.Length0 && 0 <= x < zbuf.Length1 ==> zbuf[y, x] == g[y][x]
    ensures zmin == ZLow(Flatten(g)) && zmax == ZHigh(Flatten(g))
  {
    zmin, zmax := 1e30, -1e30;
    var y := 0;
    while y < zbuf.Length0
      invariant 0 <= y <= zbuf.Length0
      invariant zmin == ZLow(Flatten(g[..y])) && zmax == ZHigh(Flatten(g[..y]))
    {
      ghost var done := Flatten(g[..y]);
      zmin, zmax := ScanRow(zbuf, y, g[y], done, zmin, zmax);
      TakeSnoc(g, y);
      FlattenAppend(g[..y], g[y]);
      y := y + 1;
    }
    assert g[..y] == g;
  }

  /** The scan along row y, continuing the range of the cells before it. */
  method ScanRow(zbuf: array2<Option<real>>, y: nat, ghost row: seq<Option<real>>, ghost done: seq<Option<real>>, zmin0: real, zmax0: real)
    returns (zmin: real, zmax: real)
    requires y < zbuf.Length0 && |row| == zbuf.Length1
    requires forall x :: 0 <= x < zbuf.Length1 ==> zbuf[y, x] == row[x]
    requires zmin0 == ZLow(done) && zmax0 == ZHigh(done)
    ensures zmin == ZLow(done + row) && zmax == ZHigh(done + row)
  {
    zmin, zmax := zmin0, zmax0;
    var x := 0;
    assert done + row[..0] == done;
    while x < zbuf.Length1
      invariant 0 <= x <= zbuf.Length1
      invariant zmin == ZLow(done + row[..x]) && zmax == ZHigh(done + row[..x])
    {
      var vz := zbuf[y, x];
      TakeSnoc(row, x);
      AppendAssoc(done, row[..x], [vz]);
      RangeSnoc(done + row[..x], vz);
      if vz.Some? {
        zmin := MinR(zmin, vz.value);
        zmax := MaxR(zmax, vz.value);
      }
      x := x + 1;
    }
    assert row[..x] == row;
  }

  /** One more cell: a covered one widens the range, an empty one leaves it. */
  lemma RangeSnoc(seen: seq<Option<real>>, c: Option<real>)
    ensures ZLow(seen + [c]) == if c.None? then ZLow(seen) else MinR(ZLow(seen), c.value)
    ensures ZHigh(seen + [c]) == if c.None? then ZHigh(seen) else MaxR(ZHigh(seen), c.value)
  {
    assert (seen + [c])[..|seen|] == seen;
  }

  /** The quantisation pass, writing the samples in row-major order. */
  method Quantized(zbuf: array2<Option<real>>, ghost g: seq<seq<Option<real>>>, zmin: real, zmax: real) returns (out: seq<U16>)
    requires |g| == zbuf.Length0 && forall y :: 0 <= y < |g| ==> |g[y]| == zbuf.Length1
    requires forall y, x :: 0 <= y < zbuf.Length0 && 0 <= x < zbuf.Length1 ==> zbuf[y, x] == g[y][x]
    ensures out == Flatten(SampleRows(g, zmin, zmax))
  {
    ghost var rows := SampleRows(g, zmin, zmax);
    out := [];
    var y := 0;
    while y < zbuf.Length0
      invariant 0 <= y <= zbuf.Length0
      invariant out == Flatten(rows[..y])
    {
      var x := 0;
      ghost var done := out;
      while x < zbuf.Length1
        invariant 0 <= x <= zbuf.Length1
        invariant out == done + rows[y][..x]
      {
        var vz := zbuf[y, x];
        var val: U16 := 65535;
        if vz.Some? {
          val := Quantize(vz.value, zmin, zmax);
        }
        assert rows[y][..x + 1] == rows[y][..x] + [val];
        out := out + [val];
        x := x + 1;
      }
      assert rows[y][..x] == rows[y];
      assert rows[..y + 1] == rows[..y] + [rows[y]];
      FlattenAppend(rows[..y], rows[y]);
      y := y + 1;
    }
    assert rows[..y] == rows;
  }

  /** The image has width * height samples; the sample of pixel (x, y) sits at
      y * width + x and is 65535 where no triangle covers the pixel, and otherwise
      the quantised height, the lowest covered height giving 65535 and the highest 0. */
  lemma {:induction false} SampleOfPixel(tris: seq<Tri>, r: Raster, x: nat, y: nat)
    requires Usable(r) && x < r.width && y < r.height
    ensures |Samples(tris, r)| == r.width * r.height
    ensures y * r.width + x < |Samples(tris, r)|
    ensures var cells := Flatten(Grid(tris, r));
      var c := Cell(tris, r, x, y);
      Samples(tris, r)[y * r.width + x] == Sample(c, ZLow(cells), ZHigh(cells))
      && (c.None? ==> Samples(tris, r)[y * r.width + x] == 65535)
      && (c.Some? ==> ZLow(cells) <= c.value <= ZHigh(cells))
  {
    var g := Grid(tris, r);
    var cells := Flatten(g);
    SampleGridAt(g, r.width, ZLow(cells), ZHigh(cells), y, x);
    FlattenUniform(g, r.width, y, x);
    assert r.height * r.width == r.width * r.height;
    if Cell(tris, r, x, y).Some? {
      ZRangeContains(cells, y * r.width + x);
    }
  }

  /** In the row-major samples of a grid with rows of width w, cell (x, y) is sampled at y * w + x. */
  lemma SampleGridAt(g: seq<seq<Option<real>>>, w: nat, zmin: real, zmax: real, y: nat, x: nat)
    requires forall i :: 0 <= i < |g| ==> |g[i]| == w
    requires y < |g| && x < w
    ensures |Flatten(SampleRows(g, zmin, zmax))| == |g| * w
    ensures 0 <= y * w && y * w + x < |Flatten(SampleRows(g, zmin, zmax))|
    ensures Flatten(SampleRows(g, zmin, zmax))[y * w + x] == Sample(g[y][x], zmin, zmax)
  {
    FlattenUniform(SampleRows(g, zmin, zmax), w, y, x);
  }

  // ---------------------------------------------------------------------
  // write_pgm_16be

  /** The text written, one byte per character (the header is ASCII). */
  function Latin1(s: string): (b: seq<Byte>)
    ensures |b| == |s|
  {
    seq(|s|, i requires 0 <= i < |s| => (s[i] as int) % 256)
  }

  /** "P5\n<width> <height>\n65535\n". */
  function PgmHeader(width: int, height: int): (r: seq<Byte>) {
    Latin1("P5\n" + IntToString(width) + " " + IntToString(height) + "\n" + "65535" + "\n")
  }

  /** Each sample as its high byte followed by its low byte. */
  function BigEndian(data: seq<U16>): (b: seq<Byte>)
    ensures |b| == 2 * |data|
    decreases |data|
  {
    if |data| == 0 then [] else BigEndian(data[..|data| - 1]) + [data[|data| - 1] / 256, data[|data| - 1] % 256]
  }

  /** A reader of the sample bytes: byte pairs as hi * 256 + lo. */
  function ReadBigEndian(b: seq<Byte>): (data: seq<U16>)
    requires |b| % 2 == 0
    ensures |data| == |b| / 2
    decreases |b|
  {
    if |b| == 0 then [] else ReadBigEndian(b[..|b| - 2]) + [(b[|b| - 2] as int) * 256 + (b[|b| - 1] as int)]
  }

  /** Reading the written samples back gives the samples. */
  lemma {:induction false} BigEndianRoundTrip(data: seq<U16>)
    ensures ReadBigEndian(BigEndian(data)) == data
    decreases |data|
  {
    if |data| > 0 {
      var init := data[..|data| - 1];
      var v := data[|data| - 1];
      BigEndianRoundTrip(init);
      var b := BigEndian(data);
      assert b[..|b| - 2] == BigEndian(init);
      assert data == init + [v];
    }
  }

  /** write_pgm_16be: None when the file cannot be opened, otherwise the bytes written. */
  method WritePgm16Be(canOpen: bool, width: int, height: int, data: seq<U16>) returns (written: Option<seq<Byte>>)
    ensures !canOpen ==> written.None?
    ensures canOpen ==> written == Some(PgmHeader(width, height) + BigEndian(data))
  {
    if !canOpen {
      return None;
    }
    var bytes := AppendSamples(PgmHeader(width, height), data);
    return Some(bytes);
  }

  /** (v >> 8) & 0xff: for a 16-bit sample, the plain high byte. */
  function HighByte(v: U16): (b: Byte)
    ensures b == v / 256
  {
    (v / 256) % 256
  }

  /** The sample loop: each sample's high and low byte after the bytes so far. */
  method AppendSamples(g: seq<Byte>, data: seq<U16>) returns (bytes: seq<Byte>)
    ensures bytes == g + BigEndian(data)
  {
    bytes := g;
    var i := 0;
    while i < |data|
      invariant 0 <= i <= |data|
      invariant bytes == g + BigEndian(data[..i])
    {
      var v := data[i];
      var hi := HighByte(v);
      var lo: Byte := v % 256;
      TakeSnoc(data, i);
      assert data[..i + 1][..i] == data[..i];
      AppendAssoc(g, BigEndian(data[..i]), [hi, lo]);
      bytes := bytes + [hi, lo];
      i := i + 1;
    }
    assert data[..i] == data;
  }
}
