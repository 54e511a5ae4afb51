// svg2gcode-qt's engine: the shapes nanosvg reads from the file are sampled (every
// third stored point of each path), the largest y seen is kept for flipping, and
// each non-empty polyline is cut between two traverse moves.
module Svg2GcodeQt {
  import opened Common
  import opened GText

  /** The engine's parameters that generateGCode reads. */
  datatype Engine = Engine(shiftX: real, shiftY: real, flipY: bool, useZaxis: bool, feedRate: real,
                           scale: real, zTraverse: real, zEngage: real)

  const Defaults: Engine := Engine(0.0, 0.0, false, false, 3500.0, 1.0, 1.0, -1.0)

  /** One nanosvg path's stored points, in order (npts of them). */
  type SvgPath = seq<Point2>

  // ---------------------------------------------------------------------
  // transformPoint

  /** Shift, then flip about maxY when asked, then scale. */
  function TransformPoint(e: Engine, pt: Point2, maxY: real): (r: Point2) {
    var x := (pt.x + e.shiftX) * e.scale;
    var y := pt.y + e.shiftY;
    var flipped := if e.flipY then -y + maxY * 2.0 else y;
    Point2(x, flipped * e.scale)
  }

  /** The machine point taken back to the drawing: undo the scale, the flip and the shift. */
  function Untransform(e: Engine, q: Point2, maxY: real): (r: Point2)
    requires e.scale != 0.0
  {
    var y := q.y / e.scale;
    Point2(q.x / e.scale - e.shiftX, (if e.flipY then 2.0 * maxY - y else y) - e.shiftY)
  }

  /** With a non-zero scale the transform loses nothing: undoing it gives the point back. */
  lemma TransformInverse(e: Engine, pt: Point2, maxY: real)
    requires e.scale != 0.0
    ensures Untransform(e, TransformPoint(e, pt, maxY), maxY) == pt
  {
    var q := TransformPoint(e, pt, maxY);
    var y := pt.y + e.shiftY;
    var flipped := if e.flipY then -y + maxY * 2.0 else y;
    assert q.y / e.scale == flipped;
    assert q.x / e.scale == pt.x + e.shiftX;
  }

  /** Flipping mirrors the shifted y about maxY and leaves x alone: the flipped and the
      unflipped images of a point lie symmetric about maxY times the scale. */
  lemma FlipMirror(e: Engine, pt: Point2, maxY: real)
    ensures var a := TransformPoint(e.(flipY := true), pt, maxY);
      var b := TransformPoint(e.(flipY := false), pt, maxY);
      a.x == b.x && a.y + b.y == 2.0 * maxY * e.scale
  {
    var y := pt.y + e.shiftY;
    assert (-y + maxY * 2.0) * e.scale + y * e.scale == 2.0 * maxY * e.scale;
  }

  // ---------------------------------------------------------------------
  // Sampling the paths and maxY

  /** The points kept from a path: those at indices 0, 3, 6, ... below npts - 1. */
  function Kept(pts: SvgPath): (r: seq<Point2>)
    ensures |r| == (|pts| + 1) / 3
  {
    seq((|pts| + 1) / 3, k requires 0 <= k < (|pts| + 1) / 3 => pts[3 * k])
  }

  /** A point is kept exactly when its index is a multiple of 3 below npts - 1. */
  lemma KeptIndices(pts: SvgPath, i: nat)
    requires i < |pts|
    ensures (i % 3 == 0 && i < |pts| - 1) <==> (i / 3 < |Kept(pts)| && i == 3 * (i / 3))
    ensures i % 3 == 0 && i < |pts| - 1 ==> Kept(pts)[i / 3] == pts[i]
  {
  }

  /** maxY after the points of ps, starting from m. */
  function TopY(ps: seq<Point2>, m: real): (r: real)
    ensures r >= m
    decreases |ps|
  {
    if |ps| == 0 then m else MaxR(TopY(ps[..|ps| - 1], m), ps[|ps| - 1].y)
  }

  /** maxY after the polylines, in order, starting from m. */
  function TopPolys(polys: seq<seq<Point2>>, m: real): (r: real)
    ensures r >= m
    decreases |polys|
  {
    if |polys| == 0 then m else TopY(polys[|polys| - 1], TopPolys(polys[..|polys| - 1], m))
  }

  /** The running maximum is at least the start and every y seen, and it is the start or
      one of those y values. */
  lemma {:induction false} TopYBound(ps: seq<Point2>, m: real)
    ensures forall i :: 0 <= i < |ps| ==> TopY(ps, m) >= ps[i].y
    ensures TopY(ps, m) == m || exists i :: 0 <= i < |ps| && TopY(ps, m) == ps[i].y
    decreases |ps|
  {
    if |ps| > 0 {
      var init := ps[..|ps| - 1];
      TopYBound(init, m);
      assert forall i :: 0 <= i < |init| ==> init[i] == ps[i];
    }
  }

  lemma {:induction false} TopPolysAppend(a: seq<seq<Point2>>, b: seq<seq<Point2>>, m: real)
    ensures TopPolys(a + b, m) == TopPolys(b, TopPolys(a, m))
    decreases |b|
  {
    if |b| == 0 {
      assert a + b == a;
    } else {
      var init := b[..|b| - 1];
      TopPolysAppend(a, init, m);
      assert (a + b)[..|a + b| - 1] == a + init;
    }
  }

  /** maxY is at least 0 and every y kept from every path. */
  lemma {:induction false} TopPolysBound(polys: seq<seq<Point2>>, m: real)
    ensures forall j, i :: 0 <= j < |polys| && 0 <= i < |polys[j]| ==> TopPolys(polys, m) >= polys[j][i].y
    decreases |polys|
  {
    if |polys| > 0 {
      var init := polys[..|polys| - 1];
      TopPolysBound(init, m);
      TopYBound(polys[|polys| - 1], TopPolys(init, m));
      assert forall j :: 0 <= j < |init| ==> init[j] == polys[j];
    }
  }

  /** The inner loop over one path's points: the kept points, maxY raised by each. */
  method SamplePath(pts: SvgPath, maxY0: real) returns (polyline: seq<Point2>, maxY: real)
    ensures polyline == Kept(pts) && maxY == TopY(polyline, maxY0)
  {
    polyline := [];
    maxY := maxY0;
    var i := 0;
    while i < |pts| - 1
      invariant i == 3 * |polyline| && |polyline| <= (|pts| + 1) / 3
      invariant polyline == Kept(pts)[..|polyline|]
      invariant maxY == TopY(polyline, maxY0)
      decreases |pts| - i
    {
      var p := pts[i];
      maxY := MaxR(maxY, p.y);
      assert (polyline + [p])[..|polyline|] == polyline;
      polyline := polyline + [p];
      i := i + 3;
    }
  }

  /** Every path of a shape, sampled. */
  function KeptAll(paths: seq<SvgPath>): (r: seq<seq<Point2>>)
    ensures |r| == |paths|
  {
    seq(|paths|, i requires 0 <= i < |paths| => Kept(paths[i]))
  }

  /** The polylines of all shapes, shape by shape and path by path. */
  function Collected(shapes: seq<seq<SvgPath>>): (r: seq<seq<Point2>>)
    decreases |shapes|
  {
    if |shapes| == 0 then [] else Collected(shapes[..|shapes| - 1]) + KeptAll(shapes[|shapes| - 1])
  }

  /** The loop over one shape's paths. */
  method CollectShape(shape: seq<SvgPath>, paths0: seq<seq<Point2>>, maxY0: real)
    returns (paths: seq<seq<Point2>>, maxY: real)
    ensures paths == paths0 + KeptAll(shape) && maxY == TopPolys(KeptAll(shape), maxY0)
  {
    paths := paths0;
    maxY := maxY0;
    var j := 0;
    while j < |shape|
      invariant 0 <= j <= |shape|
      invariant paths == paths0 + KeptAll(shape[..j]) && maxY == TopPolys(KeptAll(shape[..j]), maxY0)
    {
      var polyline;
      polyline, maxY := SamplePath(shape[j], maxY);
      assert KeptAll(shape[..j + 1]) == KeptAll(shape[..j]) + [polyline];
      assert KeptAll(shape[..j + 1])[..j] == KeptAll(shape[..j]);
      paths := paths + [polyline];
      j := j + 1;
    }
    assert shape[..j] == shape;
  }

  // ---------------------------------------------------------------------
  // The G-code

  /** "<cmd> X<x> Y<y>" with four decimals. */
  function MoveTo(cmd: string, p: Point2): (r: Line) { Line([Lit(cmd + " X"), F(p.x, 4), Lit(" Y"), F(p.y, 4)]) }

  function Traverse(e: Engine): (r: Line) { Line([Lit("G0 Z"), G(e.zTraverse)]) }

  /** "G1 Z<zEngage>" with the Z axis in use, "G1 Z0" without. */
  function Engage(e: Engine): (r: Line) { Line([Lit("G1 Z"), G(if e.useZaxis then e.zEngage else 0.0)]) }

  /** One G1 per point of the polyline, transformed. */
  function Feeds(e: Engine, poly: seq<Point2>, maxY: real): (ls: seq<Line>)
    ensures |ls| == |poly|
    decreases |poly|
  {
    if |poly| == 0 then [] else Feeds(e, poly[..|poly| - 1], maxY) + [MoveTo("G1", TransformPoint(e, poly[|poly| - 1], maxY))]
  }

  /** One polyline's lines; an empty polyline has none. */
  function Block(e: Engine, poly: seq<Point2>, maxY: real): (r: seq<Line>) {
    if |poly| == 0 then []
    else [Traverse(e), MoveTo("G0", TransformPoint(e, poly[0], maxY)), Engage(e)] + Feeds(e, poly, maxY) + [Traverse(e)]
  }

  function Blocks(e: Engine, polys: seq<seq<Point2>>, maxY: real): (r: seq<Line>)
    decreases |polys|
  {
    if |polys| == 0 then [] else Blocks(e, polys[..|polys| - 1], maxY) + Block(e, polys[|polys| - 1], maxY)
  }

  function Header(e: Engine): (r: seq<Line>) {
    [T("G21 ; Set units to mm"), T("G90 ; Absolute positioning"), Line([Lit("F"), G(e.feedRate)])]
  }

  function Program(e: Engine, polys: seq<seq<Point2>>, maxY: real): (r: seq<Line>) {
    Header(e) + Blocks(e, polys, maxY) + [T("M30 ; Program end")]
  }

  /** generateGCode: the error text when nanosvg could not read the file, otherwise the
      program over every sampled polyline, flipped about the largest y kept (and 0). */
  function Output(e: Engine, image: Option<seq<seq<SvgPath>>>): (r: Result<seq<Line>>) {
    if image.None? then Err("Error: Unable to load SVG.")
    else
      var polys := Collected(image.value);
      Ok(Program(e, polys, TopPolys(polys, 0.0)))
  }

  /** The emission of one polyline. */
  method EmitPolyline(g: seq<Line>, e: Engine, poly: seq<Point2>, maxY: real) returns (out: seq<Line>)
    requires |poly| > 0
    ensures out == g + Block(e, poly, maxY)
  {
    var start := TransformPoint(e, poly[0], maxY);
    var block := [Traverse(e), MoveTo("G0", start), Engage(e)];
    var i := 0;
    while i < |poly|
      invariant 0 <= i <= |poly|
      invariant block == [Traverse(e), MoveTo("G0", start), Engage(e)] + Feeds(e, poly[..i], maxY)
    {
      var p := TransformPoint(e, poly[i], maxY);
      assert poly[..i + 1][..i] == poly[..i];
      block := block + [MoveTo("G1", p)];
      i := i + 1;
    }
    assert poly[..i] == poly;
    out := g + (block + [Traverse(e)]);
  }

  method GenerateGCode(e: Engine, image: Option<seq<seq<SvgPath>>>) returns (r: Result<seq<Line>>)
    ensures r == Output(e, image)
  {
    if image.None? {
      return Err("Error: Unable to load SVG.");
    }
    var paths, maxY := CollectShapes(image.value);
    var gcode := EmitBlocks(Header(e), e, paths, maxY);
    r := Ok(gcode + [T("M30 ; Program end")]);
  }

  /** The shapes' sampled polylines, and the largest y kept. */
  method CollectShapes(shapes: seq<seq<SvgPath>>) returns (paths: seq<seq<Point2>>, maxY: real)
    ensures paths == Collected(shapes) && maxY == TopPolys(paths, 0.0)
  {
    paths := [];
    maxY := 0.0;
    var s := 0;
    while s < |shapes|
      invariant 0 <= s <= |shapes|
      invariant paths == Collected(shapes[..s]) && maxY == TopPolys(paths, 0.0)
    {
      ghost var before := paths;
      paths, maxY := CollectShape(shapes[s], paths, maxY);
      TopPolysAppend(before, KeptAll(shapes[s]), 0.0);
      assert shapes[..s + 1][..s] == shapes[..s];
      s := s + 1;
    }
    assert shapes[..s] == shapes;
  }

  /** Every non-empty polyline's block, appended in order. */
  method EmitBlocks(g: seq<Line>, e: Engine, paths: seq<seq<Point2>>, maxY: real) returns (gcode: seq<Line>)
    ensures gcode == g + Blocks(e, paths, maxY)
  {
    gcode := g;
    var k := 0;
    while k < |paths|
      invariant 0 <= k <= |paths|
      invariant gcode == g + Blocks(e, paths[..k], maxY)
    {
      assert paths[..k + 1][..k] == paths[..k];
      AppendAssoc(g, Blocks(e, paths[..k], maxY), Block(e, paths[k], maxY));
      if |paths[k]| > 0 {
        gcode := EmitPolyline(gcode, e, paths[k], maxY);
      }
      k := k + 1;
    }
    assert paths[..k] == paths;
  }

  // ---------------------------------------------------------------------
  // Properties of the program

  lemma {:induction false} FeedsAt(e: Engine, poly: seq<Point2>, maxY: real)
    ensures forall i :: 0 <= i < |poly| ==> Feeds(e, poly, maxY)[i] == MoveTo("G1", TransformPoint(e, poly[i], maxY))
    decreases |poly|
  {
    if |poly| > 0 {
      FeedsAt(e, poly[..|poly| - 1], maxY);
    }
  }

  /** A non-empty polyline: traverse height, rapid to its first point, engage, one G1 per
      point (the first one included), traverse height again. */
  lemma BlockShape(e: Engine, poly: seq<Point2>, maxY: real)
    requires |poly| > 0
    ensures var b := Block(e, poly, maxY);
      |b| == |poly| + 4 && b[0] == Traverse(e) && b[1] == MoveTo("G0", TransformPoint(e, poly[0], maxY))
      && b[2] == Engage(e) && b[|b| - 1] == Traverse(e)
      && forall i :: 0 <= i < |poly| ==> b[3 + i] == MoveTo("G1", TransformPoint(e, poly[i], maxY))
  {
    FeedsAt(e, poly, maxY);
  }

  /** The polylines without the empty ones. */
  function NonEmpty(polys: seq<seq<Point2>>): (r: seq<seq<Point2>>)
    ensures forall j :: 0 <= j < |r| ==> |r[j]| > 0
    decreases |polys|
  {
    if |polys| == 0 then []
    else NonEmpty(polys[..|polys| - 1]) + (if |polys[|polys| - 1]| > 0 then [polys[|polys| - 1]] else [])
  }

  /** Empty polylines are skipped: the program is the same with them removed. */
  lemma {:induction false} EmptySkipped(e: Engine, polys: seq<seq<Point2>>, maxY: real)
    ensures Blocks(e, polys, maxY) == Blocks(e, NonEmpty(polys), maxY)
    decreases |polys|
  {
    if |polys| > 0 {
      var init := polys[..|polys| - 1];
      var last := polys[|polys| - 1];
      EmptySkipped(e, init, maxY);
      var ne := NonEmpty(init);
      assert Blocks(e, polys, maxY) == Blocks(e, init, maxY) + Block(e, last, maxY);
      if |last| > 0 {
        assert NonEmpty(polys) == ne + [last];
        assert (ne + [last])[..|ne|] == ne;
        assert Blocks(e, ne + [last], maxY) == Blocks(e, ne, maxY) + Block(e, last, maxY);
      } else {
        assert NonEmpty(polys) == ne;
        assert Block(e, last, maxY) == [];
        assert Blocks(e, polys, maxY) == Blocks(e, init, maxY);
      }
    }
  }

  /** The program opens with the three header lines (the feed rate last) and ends with
      "M30". */
  lemma ProgramFrame(e: Engine, polys: seq<seq<Point2>>, maxY: real)
    ensures var g := Program(e, polys, maxY);
      |g| >= 4 && g[..3] == Header(e) && g[2] == Line([Lit("F"), G(e.feedRate)])
      && g[|g| - 1] == T("M30 ; Program end")
  {
    var g := Program(e, polys, maxY);
    assert g[..3] == Header(e);
  }
}
