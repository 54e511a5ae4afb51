// STL2GCODE (Engraver/STL2GCODE/main.cpp): a line-oriented ASCII STL reader, a
// plane slicer that turns each triangle cut in two edges into a segment, and a
// writer that emits one G0/G1 pair per segment, for the fixed heights 0, h, 2h, ...
// up to 50.
module Stl2Gcode {
  import opened Common
  import opened GText
  import opened Stl2Png
  import opened PlaneSlice

  datatype Triangle = Triangle(normal: Vec3, v1: Vec3, v2: Vec3, v3: Vec3)

  /** A value-initialised Triangle: every field at the origin. */
  const Blank: Triangle := Triangle(Origin, Origin, Origin, Origin)

  /** The reader's test for a vertex slot that is still free. */
  predicate IsZero(v: Vec3) { v.x == 0.0 && v.y == 0.0 && v.z == 0.0 }

  // ---------------------------------------------------------------------
  // readSTL

  /** The number in word k, 0 when the line is too short. */
  function NumAt(ws: seq<string>, k: nat, toReal: string -> real): (r: real) {
    if k < |ws| then toReal(ws[k]) else 0.0
  }

  /** The reader's state: the triangle being filled and the triangles pushed so far. */
  datatype Reader = Reader(tri: Triangle, triangles: seq<Triangle>)

  const Start: Reader := Reader(Blank, [])

  /** One line of readSTL: a `facet` line sets the normal from words 2 to 4; a
      `vertex` line fills the first free slot among v1, v2, and otherwise completes
      the triangle with v3, pushes it and starts over; every other line is skipped. */
  function Step(r: Reader, ws: seq<string>, toReal: string -> real): (r': Reader)
    ensures |r.triangles| <= |r'.triangles| <= |r.triangles| + 1
    ensures r'.triangles[..|r.triangles|] == r.triangles
  {
    if |ws| == 0 then r
    else if ws[0] == "facet" then
      Reader(r.tri.(normal := Vec3(NumAt(ws, 2, toReal), NumAt(ws, 3, toReal), NumAt(ws, 4, toReal))), r.triangles)
    else if ws[0] == "vertex" then
      var v := Vec3(NumAt(ws, 1, toReal), NumAt(ws, 2, toReal), NumAt(ws, 3, toReal));
      if IsZero(r.tri.v1) then Reader(r.tri.(v1 := v), r.triangles)
      else if IsZero(r.tri.v2) then Reader(r.tri.(v2 := v), r.triangles)
      else Reader(Blank, r.triangles + [r.tri.(v3 := v)])
    else r
  }

  /** The reader after the given lines (as word lists), from a blank triangle. */
  function ReadWords(lines: seq<seq<string>>, toReal: string -> real): (r: Reader)
    decreases |lines|
  {
    if |lines| == 0 then Start else Step(ReadWords(lines[..|lines| - 1], toReal), lines[|lines| - 1], toReal)
  }

  function LineWords(lines: seq<string>): (r: seq<seq<string>>) {
    seq(|lines|, k requires 0 <= k < |lines| => Words(lines[k]))
  }

  /** The triangles readSTL returns for a file: none when it cannot be opened. */
  function ReadFile(file: Option<seq<string>>, toReal: string -> real): (r: seq<Triangle>) {
    if file.None? then [] else ReadWords(LineWords(file.value), toReal).triangles
  }

  /** readSTL: an unopenable file gives no triangles; otherwise the lines are read one
      at a time into a triangle that is pushed at its third vertex. */
  method ReadSTL(file: Option<seq<string>>, toReal: string -> real) returns (triangles: seq<Triangle>)
    ensures triangles == ReadFile(file, toReal)
  {
    triangles := [];
    if file.None? {
      return;
    }
    var lines := file.value;
    ghost var ws := LineWords(lines);
    var tri := Blank;
    var i := 0;
    while i < |lines|
      invariant 0 <= i <= |lines|
      invariant Reader(tri, triangles) == ReadWords(ws[..i], toReal)
    {
      var words := Words(lines[i]);
      if |words| > 0 && words[0] == "facet" {
        tri := tri.(normal := Vec3(NumAt(words, 2, toReal), NumAt(words, 3, toReal), NumAt(words, 4, toReal)));
      } else if |words| > 0 && words[0] == "vertex" {
        var v := Vec3(NumAt(words, 1, toReal), NumAt(words, 2, toReal), NumAt(words, 3, toReal));
        if IsZero(tri.v1) {
          tri := tri.(v1 := v);
        } else if IsZero(tri.v2) {
          tri := tri.(v2 := v);
        } else {
          triangles := triangles + [tri.(v3 := v)];
          tri := Blank;
        }
      }
      assert ws[..i + 1][..i] == ws[..i];
      i := i + 1;
    }
    assert ws[..i] == ws;
  }

  // ---------------------------------------------------------------------
  // ASCII STL as written: the reader's partner

  /** The seven lines of one facet of an ASCII STL file, with numbers written by num. */
  function FacetLines(t: Triangle, num: real -> string): (r: seq<seq<string>>) {
    [["facet", "normal", num(t.normal.x), num(t.normal.y), num(t.normal.z)],
     ["outer", "loop"],
     ["vertex", num(t.v1.x), num(t.v1.y), num(t.v1.z)],
     ["vertex", num(t.v2.x), num(t.v2.y), num(t.v2.z)],
     ["vertex", num(t.v3.x), num(t.v3.y), num(t.v3.z)],
     ["endloop"],
     ["endfacet"]]
  }

  function FacetsLines(tris: seq<Triangle>, num: real -> string): (r: seq<seq<string>>)
    decreases |tris|
  {
    if |tris| == 0 then [] else FacetsLines(tris[..|tris| - 1], num) + FacetLines(tris[|tris| - 1], num)
  }

  /** A facet as readSTL sees it once a writer has printed its numbers with `num`. */
  function ReadBackTriangle(t: Triangle, num: real -> string, toReal: string -> real): (r: Triangle) {
    Triangle(ReadBack(t.normal, num, toReal), ReadBack(t.v1, num, toReal), ReadBack(t.v2, num, toReal), ReadBack(t.v3, num, toReal))
  }

  function ReadBackTriangles(tris: seq<Triangle>, num: real -> string, toReal: string -> real): (r: seq<Triangle>)
    ensures |r| == |tris|
  {
    seq(|tris|, i requires 0 <= i < |tris| => ReadBackTriangle(tris[i], num, toReal))
  }

  /** Every number of every facet survives printing and reading back unchanged. */
  predicate FacetsPrintExactly(tris: seq<Triangle>, num: real -> string, toReal: string -> real) {
    forall i :: 0 <= i < |tris| ==> ReadBackTriangle(tris[i], num, toReal) == tris[i]
  }

  /** No facet's first or second vertex reads back as the origin. */
  predicate FirstCornersOffOrigin(tris: seq<Triangle>, num: real -> string, toReal: string -> real) {
    forall i :: 0 <= i < |tris| ==> !IsZero(ReadBack(tris[i].v1, num, toReal)) && !IsZero(ReadBack(tris[i].v2, num, toReal))
  }

  /** A whole ASCII STL file: `solid name`, the facets, `endsolid name`. */
  function SolidLines(name: string, tris: seq<Triangle>, num: real -> string): (r: seq<seq<string>>) {
    [["solid", name]] + FacetsLines(tris, num) + [["endsolid", name]]
  }

  /** Reading a line that starts with neither `facet` nor `vertex` changes nothing. */
  lemma ReadAppendOther(lines: seq<seq<string>>, l: seq<string>, toReal: string -> real)
    requires |l| > 0 && l[0] != "facet" && l[0] != "vertex"
    ensures ReadWords(lines + [l], toReal) == ReadWords(lines, toReal)
  {
    assert (lines + [l])[..|lines|] == lines;
  }

  lemma ReadAppendOne(lines: seq<seq<string>>, l: seq<string>, toReal: string -> real)
    ensures ReadWords(lines + [l], toReal) == Step(ReadWords(lines, toReal), l, toReal)
  {
    assert (lines + [l])[..|lines|] == lines;
  }

  /** Reading one more line of f is one more step. */
  lemma ReadAppendPrefix(lines: seq<seq<string>>, f: seq<seq<string>>, k: nat, toReal: string -> real)
    requires k < |f|
    ensures ReadWords(lines + f[..k + 1], toReal) == Step(ReadWords(lines + f[..k], toReal), f[k], toReal)
  {
    assert lines + f[..k + 1] == (lines + f[..k]) + [f[k]];
    ReadAppendOne(lines + f[..k], f[k], toReal);
  }

  /** From a blank triangle, the seven lines of a facet whose first two vertices do not
      read back as the origin push exactly that facet, as printed, and leave the
      triangle blank again. */
  lemma {:induction false} ReadFacet(lines: seq<seq<string>>, t: Triangle, num: real -> string, toReal: string -> real)
    requires ReadWords(lines, toReal).tri == Blank
    requires !IsZero(ReadBack(t.v1, num, toReal)) && !IsZero(ReadBack(t.v2, num, toReal))
    ensures ReadWords(lines + FacetLines(t, num), toReal)
            == Reader(Blank, ReadWords(lines, toReal).triangles + [ReadBackTriangle(t, num, toReal)])
  {
    var f := FacetLines(t, num);
    var u := ReadBackTriangle(t, num, toReal);
    var ts := ReadWords(lines, toReal).triangles;
    assert lines + f[..0] == lines;
    var r1 := Step(Reader(Blank, ts), f[0], toReal);
    assert r1 == Reader(Blank.(normal := u.normal), ts);
    var r2 := Step(r1, f[1], toReal);
    assert r2 == r1;
    var r3 := Step(r2, f[2], toReal);
    assert r3 == Reader(Blank.(normal := u.normal, v1 := u.v1), ts);
    var r4 := Step(r3, f[3], toReal);
    assert r4 == Reader(Blank.(normal := u.normal, v1 := u.v1, v2 := u.v2), ts);
    var r5 := Step(r4, f[4], toReal);
    assert r5 == Reader(Blank, ts + [u]);
    var r6 := Step(r5, f[5], toReal);
    assert r6 == r5;
    var r7 := Step(r6, f[6], toReal);
    assert r7 == r5;
    ReadAppendPrefix(lines, f, 0, toReal);
    ReadAppendPrefix(lines, f, 1, toReal);
    ReadAppendPrefix(lines, f, 2, toReal);
    ReadAppendPrefix(lines, f, 3, toReal);
    ReadAppendPrefix(lines, f, 4, toReal);
    ReadAppendPrefix(lines, f, 5, toReal);
    ReadAppendPrefix(lines, f, 6, toReal);
    assert f[..7] == f;
  }

  /** Facets read one after another, each from a blank triangle. */
  lemma {:induction false} ReadFacets(head: seq<seq<string>>, tris: seq<Triangle>, num: real -> string, toReal: string -> real)
    requires ReadWords(head, toReal) == Start
    requires FirstCornersOffOrigin(tris, num, toReal)
    ensures ReadWords(head + FacetsLines(tris, num), toReal) == Reader(Blank, ReadBackTriangles(tris, num, toReal))
    decreases |tris|
  {
    if |tris| == 0 {
      assert head + FacetsLines(tris, num) == head;
    } else {
      var init := tris[..|tris| - 1];
      var t := tris[|tris| - 1];
      var mid := head + FacetsLines(init, num);
      ReadBackSnoc(tris, num, toReal);
      ReadFacets(head, init, num, toReal);
      assert head + FacetsLines(tris, num) == mid + FacetLines(t, num) by {
        AppendAssoc(head, FacetsLines(init, num), FacetLines(t, num));
      }
      ReadFacet(mid, t, num, toReal);
    }
  }

  /** The facets without the last one keep their first corners off the origin, and
      reading back the facets is reading back those and then the last one. */
  lemma ReadBackSnoc(tris: seq<Triangle>, num: real -> string, toReal: string -> real)
    requires |tris| > 0 && FirstCornersOffOrigin(tris, num, toReal)
    ensures FirstCornersOffOrigin(tris[..|tris| - 1], num, toReal)
    ensures var t := tris[|tris| - 1];
      !IsZero(ReadBack(t.v1, num, toReal)) && !IsZero(ReadBack(t.v2, num, toReal))
    ensures ReadBackTriangles(tris, num, toReal)
            == ReadBackTriangles(tris[..|tris| - 1], num, toReal) + [ReadBackTriangle(tris[|tris| - 1], num, toReal)]
  {
  }

  /** The round trip: reading an ASCII STL file gives back its facets, in order, each
      number as it was printed, provided no facet's first or second vertex reads back
      as the origin; facets whose numbers print exactly come back unchanged. */
  lemma {:induction false} AsciiRoundTrip(name: string, tris: seq<Triangle>, num: real -> string, toReal: string -> real)
    requires FirstCornersOffOrigin(tris, num, toReal)
    ensures ReadWords(SolidLines(name, tris, num), toReal).triangles == ReadBackTriangles(tris, num, toReal)
    ensures FacetsPrintExactly(tris, num, toReal) ==> ReadWords(SolidLines(name, tris, num), toReal).triangles == tris
  {
    var head: seq<seq<string>> := [["solid", name]];
    ReadAppendOther([], ["solid", name], toReal);
    assert [] + [["solid", name]] == head;
    ReadFacets(head, tris, num, toReal);
    ReadAppendOther(head + FacetsLines(tris, num), ["endsolid", name], toReal);
  }

  /** A vertex at the origin leaves its slot looking free: a file whose only facet starts
      at a point that reads back as the origin yields no triangle at all, its remaining
      vertices waiting in v1 and v2. */
  lemma {:induction false} OriginVertexLost(name: string, t: Triangle, num: real -> string, toReal: string -> real)
    requires IsZero(ReadBack(t.v1, num, toReal)) && !IsZero(ReadBack(t.v2, num, toReal)) && !IsZero(ReadBack(t.v3, num, toReal))
    ensures ReadWords(SolidLines(name, [t], num), toReal)
            == Reader(Triangle(ReadBack(t.normal, num, toReal), ReadBack(t.v2, num, toReal), ReadBack(t.v3, num, toReal), Origin), [])
  {
    var u := ReadBackTriangle(t, num, toReal);
    var f := FacetLines(t, num);
    var all := SolidLines(name, [t], num);
    assert FacetsLines([t], num) == [] + f;
    assert all == [["solid", name]] + f + [["endsolid", name]];
    var i := 0;
    while i < 9
      invariant 0 <= i <= 9
      invariant ReadWords(all[..i], toReal) == (
        if i < 2 then Start
        else if i < 3 then Reader(Blank.(normal := u.normal), [])
        else if i < 5 then Reader(Blank.(normal := u.normal), [])
        else if i < 6 then Reader(Blank.(normal := u.normal, v1 := u.v2), [])
        else Reader(Triangle(u.normal, u.v2, u.v3, Origin), []))
    {
      assert all[..i + 1][..i] == all[..i];
      i := i + 1;
    }
    assert all[..9] == all;
  }

  // ---------------------------------------------------------------------
  // interpolate and sliceAtZ

  /** interpolate: the point of edge (a, b) at height z, with t = (z - a.z) / (b.z - a.z)
      and z itself as the third coordinate. */
  function Interpolate(a: Vec3, b: Vec3, z: real): (p: Vec3)
    requires a.z != b.z
    ensures p.z == z
  {
    var t := (z - a.z) / (b.z - a.z);
    Vec3(a.x + t * (b.x - a.x), a.y + t * (b.y - a.y), z)
  }

  /** On a crossing edge it is the crossing point a + t (b - a) of the shared slicing rule. */
  lemma {:induction false} InterpolateIsCrossing(a: Vec3, b: Vec3, z: real)
    requires Crosses(a, b, z)
    ensures Interpolate(a, b, z) == Interp(a, b, z)
  {
    var t := CrossParam(a, b, z);
    assert t == (z - a.z) / (b.z - a.z);
    InterpOnPlane(a, b, z);
    assert Interp(a, b, z) == Vec3(a.x + (b.x - a.x) * t, a.y + (b.y - a.y) * t, z);
  }

  /** The crossing points over edges (verts[i], verts[(i + 1) % 3]) for i below n. */
  function CrossPrefix(verts: seq<Vec3>, n: nat, z: real): (r: seq<Vec3>)
    requires |verts| == 3 && n <= 3
  {
    if n == 0 then []
    else
      var a := verts[n - 1];
      var b := verts[n % 3];
      CrossPrefix(verts, n - 1, z) + (if Crosses(a, b, z) then [Interpolate(a, b, z)] else [])
  }

  /** The points sliceAtZ collects for one triangle are those of the shared rule. */
  lemma {:induction false} CrossPointsAgree(t: Triangle, z: real)
    ensures CrossPrefix([t.v1, t.v2, t.v3], 3, z) == EdgePoints(t.v1, t.v2, t.v3, z)
  {
    var verts := [t.v1, t.v2, t.v3];
    var p1 := if Crosses(t.v1, t.v2, z) then [Interpolate(t.v1, t.v2, z)] else [];
    var p2 := if Crosses(t.v2, t.v3, z) then [Interpolate(t.v2, t.v3, z)] else [];
    var p3 := if Crosses(t.v3, t.v1, z) then [Interpolate(t.v3, t.v1, z)] else [];
    assert CrossPrefix(verts, 1, z) == p1;
    assert CrossPrefix(verts, 2, z) == p1 + p2;
    assert CrossPrefix(verts, 3, z) == p1 + p2 + p3;
    if Crosses(t.v1, t.v2, z) { InterpolateIsCrossing(t.v1, t.v2, z); }
    if Crosses(t.v2, t.v3, z) { InterpolateIsCrossing(t.v2, t.v3, z); }
    if Crosses(t.v3, t.v1, z) { InterpolateIsCrossing(t.v3, t.v1, z); }
  }

  datatype Segment = Segment(first: Vec3, second: Vec3)

  /** The segment a triangle contributes: its two crossing points when exactly two edges cross. */
  function TriSegment(t: Triangle, z: real): (r: seq<Segment>) {
    var pts := EdgePoints(t.v1, t.v2, t.v3, z);
    if |pts| == 2 then [Segment(pts[0], pts[1])] else []
  }

  function SegmentsAt(tris: seq<Triangle>, z: real): (r: seq<Segment>)
    decreases |tris|
  {
    if |tris| == 0 then [] else SegmentsAt(tris[..|tris| - 1], z) + TriSegment(tris[|tris| - 1], z)
  }

  /** sliceAtZ: for each triangle the crossing points of its three edges, in order, and
      a segment when there are exactly two. */
  method SliceAtZ(tris: seq<Triangle>, z: real) returns (segments: seq<Segment>)
    ensures segments == SegmentsAt(tris, z)
  {
    segments := [];
    var k := 0;
    while k < |tris|
      invariant 0 <= k <= |tris|
      invariant segments == SegmentsAt(tris[..k], z)
    {
      var tri := tris[k];
      var verts := [tri.v1, tri.v2, tri.v3];
      var points: seq<Vec3> := [];
      var i := 0;
      while i < 3
        invariant 0 <= i <= 3
        invariant points == CrossPrefix(verts, i, z)
      {
        var a := verts[i];
        var b := verts[(i + 1) % 3];
        if (a.z < z && b.z > z) || (a.z > z && b.z < z) {
          points := points + [Interpolate(a, b, z)];
        }
        i := i + 1;
      }
      CrossPointsAgree(tri, z);
      if |points| == 2 {
        segments := segments + [Segment(points[0], points[1])];
      }
      assert tris[..k + 1][..k] == tris[..k];
      k := k + 1;
    }
    assert tris[..k] == tris;
  }

  /** The number of triangles that cross the plane in exactly two edges. */
  function CutCount(tris: seq<Triangle>, z: real): (r: nat)
    decreases |tris|
  {
    if |tris| == 0 then 0
    else CutCount(tris[..|tris| - 1], z) + |TriSegment(tris[|tris| - 1], z)|
  }

  /** One segment per cut triangle, and both ends of every segment on the plane; a
      triangle whose vertices all lie off the plane is either cut or missed entirely. */
  lemma {:induction false} SegmentsOnPlane(tris: seq<Triangle>, z: real)
    ensures |SegmentsAt(tris, z)| == CutCount(tris, z) <= |tris|
    ensures forall i :: 0 <= i < |SegmentsAt(tris, z)| ==> SegmentsAt(tris, z)[i].first.z == z && SegmentsAt(tris, z)[i].second.z == z
    decreases |tris|
  {
    if |tris| > 0 {
      var t := tris[|tris| - 1];
      SegmentsOnPlane(tris[..|tris| - 1], z);
      EdgePointsOnPlane(t.v1, t.v2, t.v3, z);
    }
  }

  // ---------------------------------------------------------------------
  // writeGCode

  const GHeader: seq<Line> := [T("G21 ; set units to millimeters"), T("G90 ; absolute positioning"), T("G28 ; home"), T("G1 F1200")]
  const Footer: Line := T("M84 ; disable motors")

  function LayerMarker(i: nat): (r: Line) { Line([Lit("; Layer "), Int(i)]) }

  /** The two lines of a segment: a rapid move to its first end, with its height, and a
      cutting move to its second end. */
  function SegmentLines(s: Segment): (r: seq<Line>) {
    [Line([Lit("G0 X"), G(s.first.x), Lit(" Y"), G(s.first.y), Lit(" Z"), G(s.first.z)]),
     Line([Lit("G1 X"), G(s.second.x), Lit(" Y"), G(s.second.y)])]
  }

  function SegmentsLines(segs: seq<Segment>): (r: seq<Line>)
    decreases |segs|
  {
    if |segs| == 0 then [] else SegmentsLines(segs[..|segs| - 1]) + SegmentLines(segs[|segs| - 1])
  }

  function LayersLines(layers: seq<seq<Segment>>): (r: seq<Line>)
    decreases |layers|
  {
    if |layers| == 0 then []
    else LayersLines(layers[..|layers| - 1]) + [LayerMarker(|layers| - 1)] + SegmentsLines(layers[|layers| - 1])
  }

  /** The whole file writeGCode writes. */
  function Program(layers: seq<seq<Segment>>): (r: seq<Line>) {
    GHeader + LayersLines(layers) + [Footer]
  }

  /** writeGCode: the header, then per layer a comment and two lines per segment, then M84. */
  method WriteGCode(layers: seq<seq<Segment>>) returns (out: seq<Line>)
    ensures out == Program(layers)
  {
    out := GHeader;
    var i := 0;
    while i < |layers|
      invariant 0 <= i <= |layers|
      invariant out == GHeader + LayersLines(layers[..i])
    {
      ghost var before := out;
      out := out + [LayerMarker(i)];
      var segs := layers[i];
      var j := 0;
      while j < |segs|
        invariant 0 <= j <= |segs|
        invariant out == before + [LayerMarker(i)] + SegmentsLines(segs[..j])
      {
        assert segs[..j + 1][..j] == segs[..j];
        AppendAssoc(before + [LayerMarker(i)], SegmentsLines(segs[..j]), SegmentLines(segs[j]));
        out := out + SegmentLines(segs[j]);
        j := j + 1;
      }
      assert segs[..j] == segs;
      assert layers[..i + 1][..i] == layers[..i];
      AppendAssoc(GHeader, LayersLines(layers[..i]), [LayerMarker(i)]);
      AppendAssoc(GHeader, LayersLines(layers[..i]) + [LayerMarker(i)], SegmentsLines(segs));
      i := i + 1;
    }
    assert layers[..i] == layers;
    out := out + [Footer];
  }

  function TotalSegments(layers: seq<seq<Segment>>): (r: nat)
    decreases |layers|
  {
    if |layers| == 0 then 0 else TotalSegments(layers[..|layers| - 1]) + |layers[|layers| - 1]|
  }

  lemma {:induction false} SegmentsLinesShape(segs: seq<Segment>)
    ensures |SegmentsLines(segs)| == 2 * |segs|
    ensures forall k :: 0 <= k < |segs| ==> SegmentsLines(segs)[2 * k] == SegmentLines(segs[k])[0] && SegmentsLines(segs)[2 * k + 1] == SegmentLines(segs[k])[1]
    decreases |segs|
  {
    if |segs| > 0 {
      var init := segs[..|segs| - 1];
      SegmentsLinesShape(init);
      forall k | 0 <= k < |segs| - 1 ensures segs[k] == init[k] { }
    }
  }

  lemma {:induction false} LayersLinesLength(layers: seq<seq<Segment>>)
    ensures |LayersLines(layers)| == |layers| + 2 * TotalSegments(layers)
    decreases |layers|
  {
    if |layers| > 0 {
      LayersLinesLength(layers[..|layers| - 1]);
      SegmentsLinesShape(layers[|layers| - 1]);
    }
  }

  /** The file has 4 header lines, one marker per layer, two lines per segment and the
      closing M84. */
  lemma ProgramShape(layers: seq<seq<Segment>>)
    ensures |Program(layers)| == 5 + |layers| + 2 * TotalSegments(layers)
    ensures Program(layers)[..4] == GHeader
    ensures Program(layers)[|Program(layers)| - 1] == Footer
  {
    LayersLinesLength(layers);
  }

  // ---------------------------------------------------------------------
  // main

  /** The fixed top of the layer loop. */
  const MaxZ: real := 50.0

  /** Layer k holds the segments at height k h. */
  predicate SlicedAt(tris: seq<Triangle>, layers: seq<seq<Segment>>, h: real) {
    forall k :: 0 <= k < |layers| ==> layers[k] == SegmentsAt(tris, LayerZ(k, h))
  }

  lemma SlicedAtAppend(tris: seq<Triangle>, layers: seq<seq<Segment>>, h: real, segs: seq<Segment>)
    requires SlicedAt(tris, layers, h)
    requires segs == SegmentsAt(tris, LayerZ(|layers|, h))
    ensures SlicedAt(tris, layers + [segs], h)
  {
    var ext := layers + [segs];
    forall k | 0 <= k < |ext| ensures ext[k] == SegmentsAt(tris, LayerZ(k, h)) {
      if k < |layers| {
        assert ext[k] == layers[k];
      }
    }
  }

  /** The layers main slices: one per height 0, h, 2h, ... not above top. */
  function Layers(tris: seq<Triangle>, top: real, h: real): (layers: seq<seq<Segment>>)
    requires h > 0.0 && top >= 0.0
  {
    seq(LayerCount(top, h), k requires 0 <= k < LayerCount(top, h) => SegmentsAt(tris, LayerZ(k, h)))
  }

  /** The layer loop of main, `for (z = minZ; z <= maxZ; z += layer_height)` from 0. */
  method SliceAll(tris: seq<Triangle>, top: real, h: real) returns (layers: seq<seq<Segment>>)
    requires h > 0.0 && top >= 0.0
    ensures layers == Layers(tris, top, h)
  {
    layers := [];
    var z := 0.0;
    while z <= top
      invariant z == LayerZ(|layers|, h)
      invariant |layers| <= LayerCount(top, h)
      invariant SlicedAt(tris, layers, h)
      decreases LayerCount(top, h) - |layers|
    {
      CutIff(top, h, |layers|);
      var segs := SliceAtZ(tris, z);
      LayerZNext(|layers|, h);
      SlicedAtAppend(tris, layers, h, segs);
      layers := layers + [segs];
      z := z + h;
    }
    CutIff(top, h, |layers|);
    SlicedAllLayers(tris, layers, top, h);
  }

  lemma SlicedAllLayers(tris: seq<Triangle>, layers: seq<seq<Segment>>, top: real, h: real)
    requires h > 0.0 && top >= 0.0
    requires SlicedAt(tris, layers, h) && |layers| == LayerCount(top, h)
    ensures layers == Layers(tris, top, h)
  {
  }

  /** Every G0 and G1 line of layer k lies at the height k h: both ends of each
      segment of a layer lie on its plane, and there are as many layers as heights
      k h not above the top. */
  lemma {:induction false} LayersAtTheirHeight(tris: seq<Triangle>, top: real, h: real, k: nat, j: nat)
    requires h > 0.0 && top >= 0.0
    requires k < |Layers(tris, top, h)| && j < |Layers(tris, top, h)[k]|
    ensures LayerZ(k, h) <= top
    ensures Layers(tris, top, h)[k][j].first.z == LayerZ(k, h) && Layers(tris, top, h)[k][j].second.z == LayerZ(k, h)
  {
    CutIff(top, h, k);
    SegmentsOnPlane(tris, LayerZ(k, h));
  }

  /** With a layer height of zero or less the height after any number of passes is
      still not above the top, so the layer loop as written never ends. */
  lemma LayerLoopNeverEnds(h: real, k: nat)
    requires h <= 0.0
    ensures LayerZ(k, h) <= MaxZ
  {
    assert k as real * h <= 0.0 by {
      NonPositiveProduct(k as real, h);
    }
  }

  lemma NonPositiveProduct(a: real, b: real)
    requires a >= 0.0 && b <= 0.0
    ensures a * b <= 0.0
  {
  }

  /** main with its argument vector (argv[0] is the program name): fewer than three
      arguments is a usage error with status 1 and no file written; otherwise the file
      argv[1] is read, the layer height argv[3] parsed by toReal, the heights 0 to 50
      sliced, and the G-code meant for the output file argv[2] returned. A layer
      height of zero or less, on which the loop as written never ends, is refused
      like a usage error. */
  method Run(argv: seq<string>, file: Option<seq<string>>, toReal: string -> real) returns (status: int, gcode: Option<seq<Line>>)
    ensures |argv| < 4 ==> status == 1 && gcode.None?
    ensures |argv| >= 4 && toReal(argv[3]) <= 0.0 ==> status == 1 && gcode.None?
    ensures |argv| >= 4 && toReal(argv[3]) > 0.0 ==>
      status == 0 && gcode == Some(Program(Layers(ReadFile(file, toReal), MaxZ, toReal(argv[3]))))
  {
    if |argv| < 4 {
      return 1, None;
    }
    var layerHeight := toReal(argv[3]);
    if layerHeight <= 0.0 {
      return 1, None;
    }
    var triangles := ReadSTL(file, toReal);
    var maxZ := MaxZ;
    var layers := SliceAll(triangles, maxZ, layerHeight);
    var out := WriteGCode(layers);
    return 0, Some(out);
  }
}
