// DXF2STL (Engraver/DXF2STL/main.cpp): a DXF POLYLINE reader and writer and an
// ASCII STL reader and writer. Files are sequences of lines; numbers are written by
// `num` (ostream float formatting) and read by `toReal` (std::stof), both abstract.
module Dxf2Stl {
  import opened Common
  import opened AsciiStl
  import opened Stl2Png

  datatype Triangle = Triangle(v0: Vec3, v1: Vec3, v2: Vec3)

  // ---------------------------------------------------------------------
  // loadDXF

  /** Where the VERTEX scan stopped and the point it built. */
  datatype Scan = Scan(next: nat, v: Vec3)

  /** The value line after a group code, or "" when the file ends there. */
  function ValueAt(lines: seq<string>, i: nat): (r: string) {
    if i < |lines| then lines[i] else ""
  }

  /** The inner loop after a VERTEX line: group codes 10, 20 and 30 overwrite x, y and
      z with the next line's value, every other line is skipped, and the scan ends just
      after the first SEQEND (or at the end of the file). */
  function ScanVertex(lines: seq<string>, i: nat, x: real, y: real, z: real, toReal: string -> real): (s: Scan)
    requires i <= |lines|
    ensures i <= s.next <= |lines|
    ensures s.next == |lines| || (i < s.next && lines[s.next - 1] == "SEQEND")
    decreases |lines| - i
  {
    if i == |lines| then Scan(i, Vec3(x, y, z))
    else if lines[i] == "10" then
      ScanVertex(lines, MinN(i + 2, |lines|), toReal(ValueAt(lines, i + 1)), y, z, toReal)
    else if lines[i] == "20" then
      ScanVertex(lines, MinN(i + 2, |lines|), x, toReal(ValueAt(lines, i + 1)), z, toReal)
    else if lines[i] == "30" then
      ScanVertex(lines, MinN(i + 2, |lines|), x, y, toReal(ValueAt(lines, i + 1)), toReal)
    else if lines[i] == "SEQEND" then Scan(i + 1, Vec3(x, y, z))
    else ScanVertex(lines, i + 1, x, y, z, toReal)
  }

  function MinN(a: nat, b: nat): (r: nat) { if a <= b then a else b }

  /** The outer loop's state: the finished polylines and the one being collected. */
  datatype Polylines = Polylines(done: seq<seq<Vec3>>, current: seq<Vec3>)

  /** The outer loop from line i: POLYLINE clears the current list, VERTEX adds the
      point its scan builds, SEQEND pushes the current list when it is not empty,
      every other line is skipped. */
  function LoadFrom(lines: seq<string>, i: nat, st: Polylines, toReal: string -> real): (r: seq<seq<Vec3>>)
    requires i <= |lines|
    decreases |lines| - i
  {
    if i == |lines| then st.done
    else if lines[i] == "POLYLINE" then LoadFrom(lines, i + 1, st.(current := []), toReal)
    else if lines[i] == "VERTEX" then
      var s := ScanVertex(lines, i + 1, 0.0, 0.0, 0.0, toReal);
      LoadFrom(lines, s.next, st.(current := st.current + [s.v]), toReal)
    else if lines[i] == "SEQEND" then
      LoadFrom(lines, i + 1, if |st.current| > 0 then st.(done := st.done + [st.current]) else st, toReal)
    else LoadFrom(lines, i + 1, st, toReal)
  }

  function LoadDxf(lines: seq<string>, toReal: string -> real): (r: seq<seq<Vec3>>) {
    LoadFrom(lines, 0, Polylines([], []), toReal)
  }

  /** Every polyline loadDXF pushes holds at least one point. */
  lemma {:induction false} LoadedPolylinesNonEmpty(lines: seq<string>, i: nat, st: Polylines, toReal: string -> real)
    requires i <= |lines|
    requires forall k :: 0 <= k < |st.done| ==> |st.done[k]| > 0
    ensures forall k :: 0 <= k < |LoadFrom(lines, i, st, toReal)| ==> |LoadFrom(lines, i, st, toReal)[k]| > 0
    decreases |lines| - i
  {
    if i < |lines| {
      if lines[i] == "POLYLINE" {
        LoadedPolylinesNonEmpty(lines, i + 1, st.(current := []), toReal);
      } else if lines[i] == "VERTEX" {
        var s := ScanVertex(lines, i + 1, 0.0, 0.0, 0.0, toReal);
        LoadedPolylinesNonEmpty(lines, s.next, st.(current := st.current + [s.v]), toReal);
      } else if lines[i] == "SEQEND" {
        LoadedPolylinesNonEmpty(lines, i + 1, if |st.current| > 0 then st.(done := st.done + [st.current]) else st, toReal);
      } else {
        LoadedPolylinesNonEmpty(lines, i + 1, st, toReal);
      }
    }
  }

  /** loadDXF: an unreadable file gives no polylines. */
  method LoadDXF(file: Option<seq<string>>, toReal: string -> real) returns (polylines: seq<seq<Vec3>>)
    ensures file.None? ==> polylines == []
    ensures file.Some? ==> polylines == LoadDxf(file.value, toReal)
  {
    polylines := [];
    if file.None? {
      return;
    }
    var lines := file.value;
    var current: seq<Vec3> := [];
    var i := 0;
    while i < |lines|
      invariant 0 <= i <= |lines|
      invariant LoadFrom(lines, i, Polylines(polylines, current), toReal) == LoadDxf(lines, toReal)
      decreases |lines| - i
    {
      var line := lines[i];
      i := i + 1;
      if line == "POLYLINE" {
        current := [];
      } else if line == "VERTEX" {
        var x, y, z := 0.0, 0.0, 0.0;
        ghost var start := i;
        while i < |lines|
          invariant start <= i <= |lines|
          invariant ScanVertex(lines, i, x, y, z, toReal) == ScanVertex(lines, start, 0.0, 0.0, 0.0, toReal)
          decreases |lines| - i
        {
          line := lines[i];
          i := i + 1;
          if line == "10" {
            x := toReal(ValueAt(lines, i));
            i := MinN(i + 1, |lines|);
          } else if line == "20" {
            y := toReal(ValueAt(lines, i));
            i := MinN(i + 1, |lines|);
          } else if line == "30" {
            z := toReal(ValueAt(lines, i));
            i := MinN(i + 1, |lines|);
          } else if line == "SEQEND" {
            break;
          }
        }
        current := current + [Vec3(x, y, z)];
      } else if line == "SEQEND" {
        if |current| > 0 {
          polylines := polylines + [current];
        }
      }
    }
  }

  // ---------------------------------------------------------------------
  // saveDXF

  /** One VERTEX entity: group codes 0, 10, 20, 30 with the point's coordinates. */
  function VertexGroup(v: Vec3, num: real -> string): (r: seq<string>) {
    ["0", "VERTEX", "10", num(v.x), "20", num(v.y), "30", num(v.z)]
  }

  const PolylineHead: seq<string> := ["0", "POLYLINE", "8", "STL_EXPORT"]
  const PolylineTail: seq<string> := ["0", "SEQEND"]

  /** One triangle as a POLYLINE on layer STL_EXPORT, closed by repeating v0. */
  function PolylineText(t: Triangle, num: real -> string): (b: seq<string>)
    ensures |b| == 38
  {
    PolylineHead + VertexGroup(t.v0, num) + VertexGroup(t.v1, num) + VertexGroup(t.v2, num) + VertexGroup(t.v0, num)
    + PolylineTail
  }

  function PolylinesText(tris: seq<Triangle>, num: real -> string): (r: seq<string>)
    ensures |r| == 38 * |tris|
    decreases |tris|
  {
    if |tris| == 0 then [] else PolylinesText(tris[..|tris| - 1], num) + PolylineText(tris[|tris| - 1], num)
  }

  const DxfHead: seq<string> := ["0", "SECTION", "2", "ENTITIES"]
  const DxfTail: seq<string> := ["0", "ENDSEC", "0", "EOF"]

  /** The file saveDXF writes. */
  function DxfText(tris: seq<Triangle>, num: real -> string): (r: seq<string>)
    ensures |r| == 8 + 38 * |tris|
  {
    DxfHead + PolylinesText(tris, num) + DxfTail
  }

  /** saveDXF: the ENTITIES section, one closed POLYLINE per triangle, then ENDSEC and EOF. */
  method SaveDXF(tris: seq<Triangle>, num: real -> string) returns (out: seq<string>)
    ensures out == DxfText(tris, num)
  {
    out := DxfHead;
    var k := 0;
    while k < |tris|
      invariant 0 <= k <= |tris|
      invariant out == DxfHead + PolylinesText(tris[..k], num)
    {
      var tri := tris[k];
      var block := PolylineHead;
      block := block + VertexGroup(tri.v0, num);
      block := block + VertexGroup(tri.v1, num);
      block := block + VertexGroup(tri.v2, num);
      block := block + VertexGroup(tri.v0, num);
      block := block + PolylineTail;
      assert tris[..k + 1][..k] == tris[..k];
      AppendAssoc(DxfHead, PolylinesText(tris[..k], num), block);
      out := out + block;
      k := k + 1;
    }
    assert tris[..k] == tris;
    out := out + DxfTail;
  }

  /** The lines of a written POLYLINE block starting at line i. */
  lemma BlockParts(lines: seq<string>, i: nat, t: Triangle, num: real -> string)
    requires i + 38 <= |lines| && lines[i..i + 38] == PolylineText(t, num)
    ensures lines[i] == "0" && lines[i + 1] == "POLYLINE" && lines[i + 2] == "8" && lines[i + 3] == "STL_EXPORT"
    ensures lines[i + 4..i + 12] == VertexGroup(t.v0, num) && lines[i + 12..i + 20] == VertexGroup(t.v1, num)
    ensures lines[i + 20..i + 28] == VertexGroup(t.v2, num) && lines[i + 28..i + 36] == VertexGroup(t.v0, num)
    ensures lines[i + 36] == "0" && lines[i + 37] == "SEQEND"
  {
    var g0, g1, g2 := VertexGroup(t.v0, num), VertexGroup(t.v1, num), VertexGroup(t.v2, num);
    SliceSplit(lines, i, PolylineHead + g0 + g1 + g2 + g0, PolylineTail);
    SliceSplit(lines, i, PolylineHead + g0 + g1 + g2, g0);
    SliceSplit(lines, i, PolylineHead + g0 + g1, g2);
    SliceSplit(lines, i, PolylineHead + g0, g1);
    SliceSplit(lines, i, PolylineHead, g0);
    assert lines[i..i + 4][0] == "0" && lines[i..i + 4][1] == "POLYLINE";
    assert lines[i..i + 4][2] == "8" && lines[i..i + 4][3] == "STL_EXPORT";
    assert lines[i + 36..i + 38][0] == "0" && lines[i + 36..i + 38][1] == "SEQEND";
  }

  /** The lines of a written VERTEX entity starting at line i. */
  lemma GroupFacts(lines: seq<string>, i: nat, v: Vec3, num: real -> string)
    requires i + 8 <= |lines| && lines[i..i + 8] == VertexGroup(v, num)
    ensures lines[i] == "0" && lines[i + 1] == "VERTEX"
    ensures lines[i + 2] == "10" && lines[i + 3] == num(v.x)
    ensures lines[i + 4] == "20" && lines[i + 5] == num(v.y)
    ensures lines[i + 6] == "30" && lines[i + 7] == num(v.z)
  {
    var g := lines[i..i + 8];
    assert g[0] == lines[i] && g[1] == lines[i + 1] && g[2] == lines[i + 2] && g[3] == lines[i + 3];
    assert g[4] == lines[i + 4] && g[5] == lines[i + 5] && g[6] == lines[i + 6] && g[7] == lines[i + 7];
  }

  /** Block k of the written file sits at line 4 + 38 k. */
  lemma {:induction false} BlockAt(tris: seq<Triangle>, k: nat, num: real -> string)
    requires k < |tris|
    ensures DxfText(tris, num)[4 + 38 * k..4 + 38 * k + 38] == PolylineText(tris[k], num)
  {
    var body := PolylinesText(tris, num);
    PolylineTextAt(tris, k, num);
    SliceAppendLeft(DxfHead + body, DxfTail, 4 + 38 * k, 4 + 38 * k + 38);
    SliceAppendRight(DxfHead, body, 38 * k, 38 * k + 38);
  }

  lemma {:induction false} PolylineTextAt(tris: seq<Triangle>, k: nat, num: real -> string)
    requires k < |tris|
    ensures PolylinesText(tris, num)[38 * k..38 * k + 38] == PolylineText(tris[k], num)
    decreases |tris|
  {
    var init := tris[..|tris| - 1];
    var last := PolylineText(tris[|tris| - 1], num);
    if k < |tris| - 1 {
      PolylineTextAt(init, k, num);
      SliceAppendLeft(PolylinesText(init, num), last, 38 * k, 38 * k + 38);
    } else {
      SliceAppendRight(PolylinesText(init, num), last, 0, 38);
      assert last[0..38] == last;
    }
  }

  /** The trailer of the written file. */
  lemma TailAt(tris: seq<Triangle>, num: real -> string)
    ensures forall j :: 4 + 38 * |tris| <= j < 8 + 38 * |tris| ==> DxfText(tris, num)[j] != "POLYLINE" && DxfText(tris, num)[j] != "VERTEX" && DxfText(tris, num)[j] != "SEQEND"
    ensures forall j :: 0 <= j < 4 ==> DxfText(tris, num)[j] != "POLYLINE" && DxfText(tris, num)[j] != "VERTEX" && DxfText(tris, num)[j] != "SEQEND"
  {
    var n := |tris|;
    var lines := DxfText(tris, num);
    SliceAppendRight(DxfHead + PolylinesText(tris, num), DxfTail, 0, 4);
    assert lines[4 + 38 * n..8 + 38 * n] == DxfTail;
    forall j | 4 + 38 * n <= j < 8 + 38 * n ensures lines[j] in DxfTail {
      assert lines[j] == lines[4 + 38 * n..8 + 38 * n][j - 4 - 38 * n];
    }
  }

  // The written file read back by loadDXF. The VERTEX scan runs on to the next SEQEND,
  // so the first VERTEX of every block swallows the block's other vertices and its
  // SEQEND: each block leaves one point (the closing copy of v0) in the current list,
  // and the outer loop never sees a SEQEND.

  /** The scan over the coordinate groups of a VERTEX entity at line i. */
  lemma ScanCoordinates(lines: seq<string>, i: nat, x: real, y: real, z: real, v: Vec3, num: real -> string, toReal: string -> real)
    requires i + 8 <= |lines| && lines[i..i + 8] == VertexGroup(v, num)
    ensures ScanVertex(lines, i + 2, x, y, z, toReal) == ScanVertex(lines, i + 8, toReal(num(v.x)), toReal(num(v.y)), toReal(num(v.z)), toReal)
  {
    GroupFacts(lines, i, v, num);
    var a := ReadBack(v, num, toReal);
    assert ScanVertex(lines, i + 2, x, y, z, toReal) == ScanVertex(lines, i + 4, a.x, y, z, toReal);
    assert ScanVertex(lines, i + 4, a.x, y, z, toReal) == ScanVertex(lines, i + 6, a.x, a.y, z, toReal);
    assert ScanVertex(lines, i + 6, a.x, a.y, z, toReal) == ScanVertex(lines, i + 8, a.x, a.y, a.z, toReal);
  }

  /** The scan passing over a whole VERTEX entity at line i. */
  lemma ScanGroup(lines: seq<string>, i: nat, x: real, y: real, z: real, v: Vec3, num: real -> string, toReal: string -> real)
    requires i + 8 <= |lines| && lines[i..i + 8] == VertexGroup(v, num)
    ensures ScanVertex(lines, i, x, y, z, toReal) == ScanVertex(lines, i + 8, toReal(num(v.x)), toReal(num(v.y)), toReal(num(v.z)), toReal)
  {
    GroupFacts(lines, i, v, num);
    assert ScanVertex(lines, i, x, y, z, toReal) == ScanVertex(lines, i + 2, x, y, z, toReal);
    ScanCoordinates(lines, i, x, y, z, v, num, toReal);
  }

  /** The VERTEX scan of a written block, started after its first VERTEX line, runs
      through all four entities and the SEQEND and ends with the closing vertex's values. */
  lemma {:induction false} ScanBlockAsWritten(lines: seq<string>, i: nat, t: Triangle, num: real -> string, toReal: string -> real)
    requires i + 38 <= |lines| && lines[i..i + 38] == PolylineText(t, num)
    ensures ScanVertex(lines, i + 6, 0.0, 0.0, 0.0, toReal) == Scan(i + 38, ReadBack(t.v0, num, toReal))
  {
    BlockParts(lines, i, t, num);
    var a := ReadBack(t.v0, num, toReal);
    var p := ReadBack(t.v1, num, toReal);
    var q := ReadBack(t.v2, num, toReal);
    ScanCoordinates(lines, i + 4, 0.0, 0.0, 0.0, t.v0, num, toReal);
    ScanGroup(lines, i + 12, a.x, a.y, a.z, t.v1, num, toReal);
    ScanGroup(lines, i + 20, p.x, p.y, p.z, t.v2, num, toReal);
    ScanGroup(lines, i + 28, q.x, q.y, q.z, t.v0, num, toReal);
    assert ScanVertex(lines, i + 36, a.x, a.y, a.z, toReal) == ScanVertex(lines, i + 37, a.x, a.y, a.z, toReal);
  }

  /** One written POLYLINE block as loadDXF reads it: the current list becomes the
      single point of the closing vertex, and nothing is pushed. */
  lemma {:induction false} BlockAsWritten(lines: seq<string>, i: nat, t: Triangle, st: Polylines,
                                           num: real -> string, toReal: string -> real)
    requires i + 38 <= |lines| && lines[i..i + 38] == PolylineText(t, num)
    ensures LoadFrom(lines, i, st, toReal) == LoadFrom(lines, i + 38, st.(current := [ReadBack(t.v0, num, toReal)]), toReal)
  {
    HeadAsWritten(lines, i, t, st, num, toReal);
    FirstVertexAsWritten(lines, i, t, st.(current := []), num, toReal);
  }

  /** The POLYLINE head of a written block clears the current list. */
  lemma {:induction false} HeadAsWritten(lines: seq<string>, i: nat, t: Triangle, st: Polylines,
                                          num: real -> string, toReal: string -> real)
    requires i + 38 <= |lines| && lines[i..i + 38] == PolylineText(t, num)
    ensures LoadFrom(lines, i, st, toReal) == LoadFrom(lines, i + 5, st.(current := []), toReal)
  {
    BlockParts(lines, i, t, num);
    GroupFacts(lines, i + 4, t.v0, num);
    SkipOuter(lines, i, 1, st, toReal);
    assert LoadFrom(lines, i + 1, st, toReal) == LoadFrom(lines, i + 2, st.(current := []), toReal);
    SkipOuter(lines, i + 2, 3, st.(current := []), toReal);
  }

  /** The block's first VERTEX line starts the scan that consumes the rest of the block. */
  lemma {:induction false} FirstVertexAsWritten(lines: seq<string>, i: nat, t: Triangle, st: Polylines,
                                                 num: real -> string, toReal: string -> real)
    requires i + 38 <= |lines| && lines[i..i + 38] == PolylineText(t, num)
    requires st.current == []
    ensures LoadFrom(lines, i + 5, st, toReal) == LoadFrom(lines, i + 38, st.(current := [ReadBack(t.v0, num, toReal)]), toReal)
  {
    BlockParts(lines, i, t, num);
    GroupFacts(lines, i + 4, t.v0, num);
    ScanBlockAsWritten(lines, i, t, num, toReal);
    assert st.current + [ReadBack(t.v0, num, toReal)] == [ReadBack(t.v0, num, toReal)];
  }

  /** Lines that are neither POLYLINE, VERTEX nor SEQEND are skipped by the outer loop. */
  lemma {:induction false} SkipOuter(lines: seq<string>, i: nat, n: nat, st: Polylines, toReal: string -> real)
    requires i + n <= |lines|
    requires forall k :: i <= k < i + n ==> lines[k] != "POLYLINE" && lines[k] != "VERTEX" && lines[k] != "SEQEND"
    ensures LoadFrom(lines, i, st, toReal) == LoadFrom(lines, i + n, st, toReal)
    decreases n
  {
    if n > 0 {
      SkipOuter(lines, i + 1, n - 1, st, toReal);
    }
  }

  /** The current list after k written blocks: the closing vertex of the last one. */
  function CurrentAfter(tris: seq<Triangle>, k: nat, num: real -> string, toReal: string -> real): (r: seq<Vec3>)
    requires k <= |tris|
  {
    if k == 0 then [] else [ReadBack(tris[k - 1].v0, num, toReal)]
  }

  /** Block j of the triangles is written at line 4 + 38 j. */
  predicate BlockIn(lines: seq<string>, tris: seq<Triangle>, j: nat, num: real -> string) {
    j < |tris| && 4 + 38 * j + 38 <= |lines| && lines[4 + 38 * j..4 + 38 * j + 38] == PolylineText(tris[j], num)
  }

  /** Every block of the triangles in its place, between a 4-line head and a 4-line tail. */
  predicate BlocksInPlace(lines: seq<string>, tris: seq<Triangle>, num: real -> string) {
    |lines| == 8 + 38 * |tris| && forall j: nat :: j < |tris| ==> BlockIn(lines, tris, j, num)
  }

  /** What loadDXF returns when its outer loop resumes after the first k written blocks. */
  function ResumeAsWritten(lines: seq<string>, tris: seq<Triangle>, k: nat, num: real -> string, toReal: string -> real): (r: seq<seq<Vec3>>)
    requires k <= |tris| && |lines| == 8 + 38 * |tris|
  {
    LoadFrom(lines, 4 + 38 * k, Polylines([], CurrentAfter(tris, k, num, toReal)), toReal)
  }

  lemma BlockAsWrittenStep(lines: seq<string>, tris: seq<Triangle>, k: nat, num: real -> string, toReal: string -> real)
    requires 0 < k <= |tris| && BlocksInPlace(lines, tris, num)
    ensures ResumeAsWritten(lines, tris, k - 1, num, toReal) == ResumeAsWritten(lines, tris, k, num, toReal)
  {
    var j := k - 1;
    assert BlockIn(lines, tris, j, num);
    BlockAsWrittenAt(lines, tris, j, num, toReal);
  }

  /** Block j read as written, from the state after the blocks before it. */
  lemma BlockAsWrittenAt(lines: seq<string>, tris: seq<Triangle>, j: nat, num: real -> string, toReal: string -> real)
    requires j < |tris| && |lines| == 8 + 38 * |tris|
    requires lines[4 + 38 * j..4 + 38 * j + 38] == PolylineText(tris[j], num)
    ensures ResumeAsWritten(lines, tris, j, num, toReal) == ResumeAsWritten(lines, tris, j + 1, num, toReal)
  {
    BlockAsWritten(lines, 4 + 38 * j, tris[j], Polylines([], CurrentAfter(tris, j, num, toReal)), num, toReal);
    assert 4 + 38 * j + 38 == 4 + 38 * (j + 1);
  }

  /** After the blocks of the first k triangles nothing has been pushed. */
  lemma {:induction false} BlocksAsWritten(lines: seq<string>, tris: seq<Triangle>, k: nat, num: real -> string, toReal: string -> real)
    requires k <= |tris| && BlocksInPlace(lines, tris, num)
    ensures ResumeAsWritten(lines, tris, 0, num, toReal) == ResumeAsWritten(lines, tris, k, num, toReal)
    decreases k
  {
    if k > 0 {
      BlocksAsWritten(lines, tris, k - 1, num, toReal);
      BlockAsWrittenStep(lines, tris, k, num, toReal);
    }
  }

  /** As written, loading a file saveDXF wrote gives no polylines at all. */
  lemma {:induction false} SavedDxfLoadsNothing(tris: seq<Triangle>, num: real -> string, toReal: string -> real)
    ensures LoadDxf(DxfText(tris, num), toReal) == []
  {
    var lines := DxfText(tris, num);
    var n := |tris|;
    forall j: nat | j < n ensures BlockIn(lines, tris, j, num) {
      BlockAt(tris, j, num);
    }
    TailAt(tris, num);
    SkipOuter(lines, 0, 4, Polylines([], []), toReal);
    BlocksAsWritten(lines, tris, n, num, toReal);
    SkipOuter(lines, 4 + 38 * n, 4, Polylines([], CurrentAfter(tris, n, num, toReal)), toReal);
  }

  // The corrected reader: the VERTEX scan stops at the next entity (group code 0) or
  // at SEQEND, leaving that line to the outer loop.

  function ScanVertexFixed(lines: seq<string>, i: nat, x: real, y: real, z: real, toReal: string -> real): (s: Scan)
    requires i <= |lines|
    ensures i <= s.next <= |lines|
    ensures s.next == |lines| || lines[s.next] == "0" || lines[s.next] == "SEQEND"
    decreases |lines| - i
  {
    if i == |lines| || lines[i] == "0" || lines[i] == "SEQEND" then Scan(i, Vec3(x, y, z))
    else if lines[i] == "10" then
      ScanVertexFixed(lines, MinN(i + 2, |lines|), toReal(ValueAt(lines, i + 1)), y, z, toReal)
    else if lines[i] == "20" then
      ScanVertexFixed(lines, MinN(i + 2, |lines|), x, toReal(ValueAt(lines, i + 1)), z, toReal)
    else if lines[i] == "30" then
      ScanVertexFixed(lines, MinN(i + 2, |lines|), x, y, toReal(ValueAt(lines, i + 1)), toReal)
    else ScanVertexFixed(lines, i + 1, x, y, z, toReal)
  }

  function LoadFixedFrom(lines: seq<string>, i: nat, st: Polylines, toReal: string -> real): (r: seq<seq<Vec3>>)
    requires i <= |lines|
    decreases |lines| - i
  {
    if i == |lines| then st.done
    else if lines[i] == "POLYLINE" then LoadFixedFrom(lines, i + 1, st.(current := []), toReal)
    else if lines[i] == "VERTEX" then
      var s := ScanVertexFixed(lines, i + 1, 0.0, 0.0, 0.0, toReal);
      LoadFixedFrom(lines, s.next, st.(current := st.current + [s.v]), toReal)
    else if lines[i] == "SEQEND" then
      LoadFixedFrom(lines, i + 1, if |st.current| > 0 then st.(done := st.done + [st.current]) else st, toReal)
    else LoadFixedFrom(lines, i + 1, st, toReal)
  }

  /** loadDXF with the VERTEX scan ending at the entity's end. */
  function LoadDxfFixed(lines: seq<string>, toReal: string -> real): (r: seq<seq<Vec3>>) {
    LoadFixedFrom(lines, 0, Polylines([], []), toReal)
  }

  lemma {:induction false} SkipOuterFixed(lines: seq<string>, i: nat, n: nat, st: Polylines, toReal: string -> real)
    requires i + n <= |lines|
    requires forall k :: i <= k < i + n ==> lines[k] != "POLYLINE" && lines[k] != "VERTEX" && lines[k] != "SEQEND"
    ensures LoadFixedFrom(lines, i, st, toReal) == LoadFixedFrom(lines, i + n, st, toReal)
    decreases n
  {
    if n > 0 {
      SkipOuterFixed(lines, i + 1, n - 1, st, toReal);
    }
  }

  /** A VERTEX entity followed by another entity adds exactly its own point. */
  lemma VertexFixed(lines: seq<string>, i: nat, v: Vec3, st: Polylines, num: real -> string, toReal: string -> real)
    requires i + 9 <= |lines| && lines[i..i + 8] == VertexGroup(v, num) && lines[i + 8] == "0"
    ensures LoadFixedFrom(lines, i, st, toReal)
         == LoadFixedFrom(lines, i + 8, st.(current := st.current + [ReadBack(v, num, toReal)]), toReal)
  {
    GroupFacts(lines, i, v, num);
    var a := ReadBack(v, num, toReal);
    assert ScanVertexFixed(lines, i + 2, 0.0, 0.0, 0.0, toReal) == ScanVertexFixed(lines, i + 4, a.x, 0.0, 0.0, toReal);
    assert ScanVertexFixed(lines, i + 4, a.x, 0.0, 0.0, toReal) == ScanVertexFixed(lines, i + 6, a.x, a.y, 0.0, toReal);
    assert ScanVertexFixed(lines, i + 6, a.x, a.y, 0.0, toReal) == ScanVertexFixed(lines, i + 8, a.x, a.y, a.z, toReal);
    assert ScanVertexFixed(lines, i + 8, a.x, a.y, a.z, toReal) == Scan(i + 8, a);
  }

  /** The polyline the corrected reader gives for a written triangle. */
  function Closed(t: Triangle, num: real -> string, toReal: string -> real): (r: seq<Vec3>) {
    [ReadBack(t.v0, num, toReal), ReadBack(t.v1, num, toReal), ReadBack(t.v2, num, toReal), ReadBack(t.v0, num, toReal)]
  }

  lemma BlockFixed(lines: seq<string>, i: nat, t: Triangle, before: Polylines, num: real -> string, toReal: string -> real)
    requires i + 38 <= |lines| && lines[i..i + 38] == PolylineText(t, num)
    ensures LoadFixedFrom(lines, i, before, toReal)
         == LoadFixedFrom(lines, i + 38, Polylines(before.done + [Closed(t, num, toReal)], Closed(t, num, toReal)), toReal)
  {
    BlockParts(lines, i, t, num);
    var c := Closed(t, num, toReal);
    var done := before.done;
    var st := Polylines(done, []);
    assert LoadFixedFrom(lines, i, before, toReal) == LoadFixedFrom(lines, i + 2, st, toReal);
    SkipOuterFixed(lines, i + 2, 2, st, toReal);
    VerticesFixed(lines, i + 4, t, done, num, toReal);
    SkipOuterFixed(lines, i + 36, 1, st.(current := c), toReal);
    assert LoadFixedFrom(lines, i + 37, st.(current := c), toReal) == LoadFixedFrom(lines, i + 38, Polylines(done + [c], c), toReal);
  }

  /** The four VERTEX entities of a written block give its closed polyline. */
  lemma VerticesFixed(lines: seq<string>, j: nat, t: Triangle, done: seq<seq<Vec3>>, num: real -> string, toReal: string -> real)
    requires j + 33 <= |lines| && lines[j + 32] == "0"
    requires lines[j..j + 8] == VertexGroup(t.v0, num) && lines[j + 8..j + 16] == VertexGroup(t.v1, num)
    requires lines[j + 16..j + 24] == VertexGroup(t.v2, num) && lines[j + 24..j + 32] == VertexGroup(t.v0, num)
    ensures LoadFixedFrom(lines, j, Polylines(done, []), toReal)
         == LoadFixedFrom(lines, j + 32, Polylines(done, Closed(t, num, toReal)), toReal)
  {
    var c := Closed(t, num, toReal);
    GroupFacts(lines, j + 8, t.v1, num);
    GroupFacts(lines, j + 16, t.v2, num);
    GroupFacts(lines, j + 24, t.v0, num);
    VertexFixed(lines, j, t.v0, Polylines(done, []), num, toReal);
    assert [] + [c[0]] == c[..1];
    VertexFixed(lines, j + 8, t.v1, Polylines(done, c[..1]), num, toReal);
    assert c[..1] + [c[1]] == c[..2];
    VertexFixed(lines, j + 16, t.v2, Polylines(done, c[..2]), num, toReal);
    assert c[..2] + [c[2]] == c[..3];
    VertexFixed(lines, j + 24, t.v0, Polylines(done, c[..3]), num, toReal);
    assert c[..3] + [c[3]] == c;
  }

  function ClosedAll(tris: seq<Triangle>, num: real -> string, toReal: string -> real): (r: seq<seq<Vec3>>)
    ensures |r| == |tris|
    ensures forall k :: 0 <= k < |tris| ==> r[k] == Closed(tris[k], num, toReal)
  {
    seq(|tris|, k requires 0 <= k < |tris| => Closed(tris[k], num, toReal))
  }

  lemma ClosedAllSnoc(tris: seq<Triangle>, k: nat, num: real -> string, toReal: string -> real)
    requires 0 < k <= |tris|
    ensures ClosedAll(tris[..k - 1], num, toReal) + [Closed(tris[k - 1], num, toReal)] == ClosedAll(tris[..k], num, toReal)
  {
    var a := ClosedAll(tris[..k - 1], num, toReal) + [Closed(tris[k - 1], num, toReal)];
    var b := ClosedAll(tris[..k], num, toReal);
    assert |a| == |b|;
    forall j | 0 <= j < |a| ensures a[j] == b[j] {
      if j < k - 1 {
        assert tris[..k - 1][j] == tris[j];
      }
    }
  }

  /** The corrected reader's state after the first k written blocks: each
      block pushed its closed polyline and left it current. */
  function FixedState(tris: seq<Triangle>, k: nat, num: real -> string, toReal: string -> real): (r: Polylines)
    requires k <= |tris|
    decreases k
  {
    if k == 0 then Polylines([], [])
    else
      var c := Closed(tris[k - 1], num, toReal);
      Polylines(FixedState(tris, k - 1, num, toReal).done + [c], c)
  }

  /** The polylines pushed after k blocks are those of the first k triangles. */
  lemma {:induction false} FixedStateDone(tris: seq<Triangle>, k: nat, num: real -> string, toReal: string -> real)
    requires k <= |tris|
    ensures FixedState(tris, k, num, toReal).done == ClosedAll(tris[..k], num, toReal)
    decreases k
  {
    if k > 0 {
      FixedStateDone(tris, k - 1, num, toReal);
      ClosedAllSnoc(tris, k, num, toReal);
    }
  }

  /** What the corrected reader returns when its outer loop resumes after the
      first k written blocks. */
  function ResumeFixed(lines: seq<string>, tris: seq<Triangle>, k: nat, num: real -> string, toReal: string -> real): (r: seq<seq<Vec3>>)
    requires k <= |tris| && |lines| == 8 + 38 * |tris|
  {
    LoadFixedFrom(lines, 4 + 38 * k, FixedState(tris, k, num, toReal), toReal)
  }

  lemma BlockFixedStep(lines: seq<string>, tris: seq<Triangle>, k: nat, num: real -> string, toReal: string -> real)
    requires 0 < k <= |tris| && BlocksInPlace(lines, tris, num)
    ensures ResumeFixed(lines, tris, k - 1, num, toReal) == ResumeFixed(lines, tris, k, num, toReal)
  {
    var j := k - 1;
    assert BlockIn(lines, tris, j, num);
    BlockFixedAt(lines, tris, j, num, toReal);
  }

  /** Block j read by the corrected reader, from the state after the blocks before it. */
  lemma BlockFixedAt(lines: seq<string>, tris: seq<Triangle>, j: nat, num: real -> string, toReal: string -> real)
    requires j < |tris| && |lines| == 8 + 38 * |tris|
    requires lines[4 + 38 * j..4 + 38 * j + 38] == PolylineText(tris[j], num)
    ensures ResumeFixed(lines, tris, j, num, toReal) == ResumeFixed(lines, tris, j + 1, num, toReal)
  {
    BlockFixed(lines, 4 + 38 * j, tris[j], FixedState(tris, j, num, toReal), num, toReal);
    ResumeFixedNext(lines, tris, j, num, toReal);
  }

  /** The corrected reader's resumption point after block j. */
  lemma ResumeFixedNext(lines: seq<string>, tris: seq<Triangle>, j: nat, num: real -> string, toReal: string -> real)
    requires j < |tris| && |lines| == 8 + 38 * |tris|
    ensures ResumeFixed(lines, tris, j + 1, num, toReal)
         == LoadFixedFrom(lines, 4 + 38 * j + 38, FixedState(tris, j + 1, num, toReal), toReal)
  {
    assert 4 + 38 * (j + 1) == 4 + 38 * j + 38;
  }

  /** The file head is skipped. */
  lemma FixedStart(tris: seq<Triangle>, num: real -> string, toReal: string -> real)
    ensures LoadDxfFixed(DxfText(tris, num), toReal) == LoadFixedFrom(DxfText(tris, num), 4, FixedState(tris, 0, num, toReal), toReal)
  {
    TailAt(tris, num);
    SkipOuterFixed(DxfText(tris, num), 0, 4, Polylines([], []), toReal);
  }

  /** Every written block in its place. */
  lemma {:induction false} BlocksFixed(lines: seq<string>, tris: seq<Triangle>, k: nat, num: real -> string, toReal: string -> real)
    requires k <= |tris| && BlocksInPlace(lines, tris, num)
    ensures ResumeFixed(lines, tris, 0, num, toReal) == ResumeFixed(lines, tris, k, num, toReal)
    decreases k
  {
    if k > 0 {
      BlocksFixed(lines, tris, k - 1, num, toReal);
      BlockFixedStep(lines, tris, k, num, toReal);
    }
  }

  /** With the corrected scan, reading a saved file gives one closed 4-point polyline per
      triangle, in order, each coordinate read back from its written text. */
  lemma DxfRoundTripFixed(tris: seq<Triangle>, num: real -> string, toReal: string -> real)
    ensures LoadDxfFixed(DxfText(tris, num), toReal) == ClosedAll(tris, num, toReal)
  {
    var lines := DxfText(tris, num);
    AllBlocksIn(tris, num);
    FixedStart(tris, num, toReal);
    BlocksFixed(lines, tris, |tris|, num, toReal);
    TailAt(tris, num);
    FixedEnd(lines, tris, num, toReal);
  }

  /** saveDXF writes every block in its place. */
  lemma AllBlocksIn(tris: seq<Triangle>, num: real -> string)
    ensures BlocksInPlace(DxfText(tris, num), tris, num)
  {
    forall j: nat | j < |tris| ensures BlockIn(DxfText(tris, num), tris, j, num) {
      BlockAt(tris, j, num);
    }
  }

  /** After the last block the tail is skipped and the pushed polylines are returned. */
  lemma FixedEnd(lines: seq<string>, tris: seq<Triangle>, num: real -> string, toReal: string -> real)
    requires |lines| == 8 + 38 * |tris|
    requires forall j :: 4 + 38 * |tris| <= j < |lines| ==> lines[j] != "POLYLINE" && lines[j] != "VERTEX" && lines[j] != "SEQEND"
    ensures ResumeFixed(lines, tris, |tris|, num, toReal) == ClosedAll(tris, num, toReal)
  {
    var n := |tris|;
    TailSkippedFixed(lines, n, FixedState(tris, n, num, toReal), toReal);
    FixedStateDone(tris, n, num, toReal);
    assert tris[..n] == tris;
  }

  /** Four lines of no entity the reader handles end the file. */
  lemma TailSkippedFixed(lines: seq<string>, n: nat, st: Polylines, toReal: string -> real)
    requires |lines| == 8 + 38 * n
    requires forall j :: 4 + 38 * n <= j < |lines| ==> lines[j] != "POLYLINE" && lines[j] != "VERTEX" && lines[j] != "SEQEND"
    ensures LoadFixedFrom(lines, 4 + 38 * n, st, toReal) == st.done
  {
    SkipOuterFixed(lines, 4 + 38 * n, 4, st, toReal);
  }

  // ---------------------------------------------------------------------
  // saveSTL

  /** The fan triangulation of one polyline: (p0, pi, pi+1) for 1 <= i < n - 1. */
  function Fan(poly: seq<Vec3>): (tris: seq<Triangle>)
    ensures |tris| == if |poly| >= 2 then |poly| - 2 else 0
  {
    if |poly| < 3 then [] else seq(|poly| - 2, i requires 0 <= i < |poly| - 2 => Triangle(poly[0], poly[i + 1], poly[i + 2]))
  }

  function Fans(polys: seq<seq<Vec3>>): (r: seq<Triangle>)
    decreases |polys|
  {
    if |polys| == 0 then [] else Fans(polys[..|polys| - 1]) + Fan(polys[|polys| - 1])
  }

  function VertexLine(v: Vec3, num: real -> string): (r: string) {
    Join(["vertex", num(v.x), num(v.y), num(v.z)], ' ')
  }

  /** One facet with the fixed normal 0 0 1. */
  function FacetText(t: Triangle, num: real -> string): (r: seq<string>) {
    [FacetLine, OuterLoopLine, VertexLine(t.v0, num), VertexLine(t.v1, num), VertexLine(t.v2, num), EndLoopLine, EndFacetLine]
  }

  function FacetsText(tris: seq<Triangle>, num: real -> string): (r: seq<string>)
    decreases |tris|
  {
    if |tris| == 0 then [] else FacetsText(tris[..|tris| - 1], num) + FacetText(tris[|tris| - 1], num)
  }

  /** The file saveSTL writes. */
  function StlText(polys: seq<seq<Vec3>>, num: real -> string): (r: seq<string>) {
    [SolidLine] + FacetsText(Fans(polys), num) + [EndSolidLine]
  }

  lemma FacetsTextAppend(a: seq<Triangle>, b: seq<Triangle>, num: real -> string)
    ensures FacetsText(a + b, num) == FacetsText(a, num) + FacetsText(b, num)
    decreases |b|
  {
    if |b| > 0 {
      assert (a + b)[..|a + b| - 1] == a + b[..|b| - 1];
      FacetsTextAppend(a, b[..|b| - 1], num);
    } else {
      assert a + b == a;
    }
  }

  /** The fan's next triangle extends the text written so far by its facet. */
  lemma FanPrefix(poly: seq<Vec3>, i: nat, num: real -> string)
    requires 1 <= i && i + 1 < |poly|
    ensures FacetsText(Fan(poly)[..i], num) == FacetsText(Fan(poly)[..i - 1], num) + FacetText(Triangle(poly[0], poly[i], poly[i + 1]), num)
  {
    var fan := Fan(poly);
    assert fan[..i][..i - 1] == fan[..i - 1];
    assert fan[..i][i - 1] == Triangle(poly[0], poly[i], poly[i + 1]);
  }

  /** The fans of one more polyline extend the text by that polyline's fan. */
  lemma FansStep(polys: seq<seq<Vec3>>, k: nat, num: real -> string)
    requires k < |polys|
    ensures FacetsText(Fans(polys[..k + 1]), num) == FacetsText(Fans(polys[..k]), num) + FacetsText(Fan(polys[k]), num)
  {
    assert polys[..k + 1][..k] == polys[..k];
    FacetsTextAppend(Fans(polys[..k]), Fan(polys[k]), num);
  }

  /** Writing the fan's next facet keeps the output equal to the facets written so far. */
  lemma FanStep(before: seq<string>, out: seq<string>, poly: seq<Vec3>, i: nat, num: real -> string)
    requires 1 <= i && i + 1 < |poly|
    requires out == before + FacetsText(Fan(poly)[..i - 1], num)
    ensures out + FacetText(Triangle(poly[0], poly[i], poly[i + 1]), num) == before + FacetsText(Fan(poly)[..i], num)
  {
    FanPrefix(poly, i, num);
    AppendAssoc(before, FacetsText(Fan(poly)[..i - 1], num), FacetText(Triangle(poly[0], poly[i], poly[i + 1]), num));
  }

  /** saveSTL: every polyline of n points gives its fan of n - 2 facets. */
  method SaveSTL(polys: seq<seq<Vec3>>, num: real -> string) returns (out: seq<string>)
    ensures out == StlText(polys, num)
  {
    out := [SolidLine];
    var k := 0;
    while k < |polys|
      invariant 0 <= k <= |polys|
      invariant out == [SolidLine] + FacetsText(Fans(polys[..k]), num)
    {
      var poly := polys[k];
      ghost var before := out;
      var i := 1;
      while i + 1 < |poly|
        invariant 1 <= i && i - 1 <= |Fan(poly)|
        invariant out == before + FacetsText(Fan(poly)[..i - 1], num)
      {
        var facet := [FacetLine, OuterLoopLine, VertexLine(poly[0], num), VertexLine(poly[i], num),
                      VertexLine(poly[i + 1], num), EndLoopLine, EndFacetLine];
        FanStep(before, out, poly, i, num);
        out := out + facet;
        i := i + 1;
      }
      assert Fan(poly)[..i - 1] == Fan(poly);
      FansStep(polys, k, num);
      AppendAssoc([SolidLine], FacetsText(Fans(polys[..k]), num), FacetsText(Fan(poly), num));
      k := k + 1;
    }
    assert polys[..k] == polys;
    out := out + [EndSolidLine];
  }

  // ---------------------------------------------------------------------
  // loadSTL

  /** The point on a line: the three numbers after its first word. */
  function PointOf(line: string, toReal: string -> real): (r: Vec3) {
    var ws := Words(line);
    Vec3(if 1 < |ws| then toReal(ws[1]) else 0.0, if 2 < |ws| then toReal(ws[2]) else 0.0, if 3 < |ws| then toReal(ws[3]) else 0.0)
  }

  /** The reader's state: the vertices of the triangle in progress and the triangles so far. */
  datatype StlState = StlState(pending: seq<Vec3>, tris: seq<Triangle>)

  /** One point into the three-slot buffer; the third point completes a triangle. */
  function Push(st: StlState, p: Vec3): (r: StlState) {
    var q := st.pending + [p];
    if |q| == 3 then StlState([], st.tris + [Triangle(q[0], q[1], q[2])]) else StlState(q, st.tris)
  }

  /** One line of loadSTL: a line containing "vertex" anywhere gives a point. */
  function StlStep(st: StlState, line: string, toReal: string -> real): (r: StlState) {
    if !Contains(line, "vertex") then st else Push(st, PointOf(line, toReal))
  }

  function LoadStl(lines: seq<string>, toReal: string -> real): (r: StlState)
    decreases |lines|
  {
    if |lines| == 0 then StlState([], []) else StlStep(LoadStl(lines[..|lines| - 1], toReal), lines[|lines| - 1], toReal)
  }

  /** loadSTL: an unreadable file gives nothing; the three-slot array v is filled at
      index vi, and a triangle is pushed each time vi reaches 3. */
  method LoadSTL(file: Option<seq<string>>, toReal: string -> real) returns (tris: seq<Triangle>)
    ensures file.None? ==> tris == []
    ensures file.Some? ==> tris == LoadStl(file.value, toReal).tris
  {
    tris := [];
    if file.None? {
      return;
    }
    var lines := file.value;
    var v := new Vec3[3](_ => Origin);
    var vi := 0;
    var i := 0;
    while i < |lines|
      invariant 0 <= i <= |lines| && 0 <= vi < 3
      invariant LoadStl(lines[..i], toReal) == StlState(v[..vi], tris)
    {
      var line := lines[i];
      if IndexOf(line, "vertex") != -1 {
        v[vi] := PointOf(line, toReal);
        vi := vi + 1;
        if vi == 3 {
          tris := tris + [Triangle(v[0], v[1], v[2])];
          vi := 0;
        }
      }
      assert lines[..i + 1][..i] == lines[..i];
      i := i + 1;
    }
    assert lines[..i] == lines;
  }

  /** The point a line gives loadSTL: its coordinates when it contains "vertex", none otherwise. */
  function LinePoints(line: string, toReal: string -> real): (r: seq<Vec3>) {
    if Contains(line, "vertex") then [PointOf(line, toReal)] else []
  }

  function LineReader(toReal: string -> real): (r: string -> seq<Vec3>) {
    line => LinePoints(line, toReal)
  }

  /** The points of all lines containing "vertex", in order. */
  function VertexPoints(lines: seq<string>, toReal: string -> real): (r: seq<Vec3>) {
    FlatMap(lines, LineReader(toReal))
  }

  lemma VertexPointsSnoc(lines: seq<string>, line: string, toReal: string -> real)
    ensures VertexPoints(lines + [line], toReal) == VertexPoints(lines, toReal) + LinePoints(line, toReal)
  {
    FlatMapSnoc(lines, line, LineReader(toReal));
  }

  /** The points taken three at a time; a trailing one or two are left over. */
  function Triples(ps: seq<Vec3>): (tris: seq<Triangle>)
    ensures |tris| == |ps| / 3
  {
    seq(|ps| / 3, k requires 0 <= k < |ps| / 3 => Triangle(ps[3 * k], ps[3 * k + 1], ps[3 * k + 2]))
  }

  /** The state after reading the points ps: their triples, and the one or two points
      of an unfinished triangle. */
  predicate Grouped(st: StlState, ps: seq<Vec3>) {
    st.tris == Triples(ps) && st.pending == ps[3 * (|ps| / 3)..]
  }

  lemma PushGrouped(st: StlState, ps: seq<Vec3>, p: Vec3)
    requires Grouped(st, ps)
    ensures Grouped(Push(st, p), ps + [p])
  {
    var ps' := ps + [p];
    var n := |ps| / 3;
    if |ps| % 3 == 2 {
      assert |ps'| / 3 == n + 1;
      assert ps'[3 * n..] == ps[3 * n..] + [p];
      assert Triples(ps') == Triples(ps) + [Triangle(ps'[3 * n], ps'[3 * n + 1], ps'[3 * n + 2])];
    } else {
      assert |ps'| / 3 == n;
      assert ps'[3 * n..] == ps[3 * n..] + [p];
      assert Triples(ps') == Triples(ps);
    }
  }

  /** loadSTL groups the vertex points in threes, in order, and the one or two points of
      an unfinished triangle are dropped. */
  lemma {:induction false} LoadStlGroups(lines: seq<string>, toReal: string -> real)
    ensures Grouped(LoadStl(lines, toReal), VertexPoints(lines, toReal))
    decreases |lines|
  {
    if |lines| > 0 {
      var init := lines[..|lines| - 1];
      var last := lines[|lines| - 1];
      LoadStlGroups(init, toReal);
      VertexPointsSnoc(init, last, toReal);
      InitLast(lines);
      if Contains(last, "vertex") {
        PushGrouped(LoadStl(init, toReal), VertexPoints(init, toReal), PointOf(last, toReal));
      } else {
        assert VertexPoints(init, toReal) + [] == VertexPoints(init, toReal);
      }
    }
  }

  // ---------------------------------------------------------------------
  // saveSTL then loadSTL

  /** Numbers are printed as single non-empty words without white space. */
  ghost predicate PrintsWords(num: real -> string) {
    forall x :: IsWord(num(x))
  }

  /** A triangle as loadSTL sees it once saveSTL has printed its corners with `num`. */
  function ReadBackTriangle(t: Triangle, num: real -> string, toReal: string -> real): (r: Triangle) {
    Triangle(ReadBack(t.v0, num, toReal), ReadBack(t.v1, num, toReal), ReadBack(t.v2, num, toReal))
  }

  function ReadBackTriangles(tris: seq<Triangle>, num: real -> string, toReal: string -> real): (r: seq<Triangle>)
    ensures |r| == |tris|
  {
    seq(|tris|, i requires 0 <= i < |tris| => ReadBackTriangle(tris[i], num, toReal))
  }

  /** Every corner coordinate survives printing and reading back unchanged. */
  predicate CornersPrintExactly(tris: seq<Triangle>, num: real -> string, toReal: string -> real) {
    forall i :: 0 <= i < |tris| ==> ReadBackTriangle(tris[i], num, toReal) == tris[i]
  }

  /** A written "vertex x y z" line contains "vertex" and reads back as the printed point. */
  lemma VertexLineRead(v: Vec3, num: real -> string, toReal: string -> real)
    requires PrintsWords(num)
    ensures Contains(VertexLine(v, num), "vertex")
    ensures PointOf(VertexLine(v, num), toReal) == ReadBack(v, num, toReal)
  {
    var ws := ["vertex", num(v.x), num(v.y), num(v.z)];
    assert IsWord(ws[1]) && IsWord(ws[2]) && IsWord(ws[3]);
    WordsOfJoin(ws);
    var s := VertexLine(v, num);
    assert s[..6] == "vertex";
    ContainsAt(s, "vertex", 0);
  }

  /** A written facet contributes exactly its three vertices. */
  lemma {:induction false} FacetPoints(lines: seq<string>, t: Triangle, num: real -> string, toReal: string -> real)
    requires PrintsWords(num)
    ensures VertexPoints(lines + FacetText(t, num), toReal)
            == VertexPoints(lines, toReal) + [ReadBack(t.v0, num, toReal), ReadBack(t.v1, num, toReal), ReadBack(t.v2, num, toReal)]
  {
    var f := LineReader(toReal);
    FacetLineHasNoVertex();
    OuterLoopLineHasNoVertex();
    EndLoopLineHasNoVertex();
    EndFacetLineHasNoVertex();
    assert f(FacetLine) == [] && f(OuterLoopLine) == [] && f(EndLoopLine) == [] && f(EndFacetLine) == [];
    VertexLineRead(t.v0, num, toReal);
    VertexLineRead(t.v1, num, toReal);
    VertexLineRead(t.v2, num, toReal);
    var a, b, c := ReadBack(t.v0, num, toReal), ReadBack(t.v1, num, toReal), ReadBack(t.v2, num, toReal);
    assert f(VertexLine(t.v0, num)) == [a] && f(VertexLine(t.v1, num)) == [b] && f(VertexLine(t.v2, num)) == [c];
    FrameAndThree(lines, FacetLine, OuterLoopLine, VertexLine(t.v0, num), VertexLine(t.v1, num), VertexLine(t.v2, num),
                  EndLoopLine, EndFacetLine, f, a, b, c);
  }

  /** Seven items of which only the middle three map to one result each add those three results. */
  lemma FrameAndThree<T, U>(s: seq<T>, x0: T, x1: T, x2: T, x3: T, x4: T, x5: T, x6: T, f: T -> seq<U>, a: U, b: U, c: U)
    requires f(x0) == [] && f(x1) == [] && f(x5) == [] && f(x6) == []
    requires f(x2) == [a] && f(x3) == [b] && f(x4) == [c]
    ensures FlatMap(s + [x0, x1, x2, x3, x4, x5, x6], f) == FlatMap(s, f) + [a, b, c]
  {
    var s2 := s + [x0, x1];
    var s5 := s2 + [x2, x3, x4];
    TwoEmpty(s, x0, x1, f);
    ThreeSingles(s2, x2, x3, x4, f, a, b, c);
    TwoEmpty(s5, x5, x6, f);
    assert s5 + [x5, x6] == s + [x0, x1, x2, x3, x4, x5, x6];
  }

  /** Two items that map to nothing add nothing. */
  lemma TwoEmpty<T, U>(s: seq<T>, x: T, y: T, f: T -> seq<U>)
    requires f(x) == [] && f(y) == []
    ensures FlatMap(s + [x, y], f) == FlatMap(s, f)
  {
    FlatMapSnoc(s, x, f);
    FlatMapSnoc(s + [x], y, f);
    assert s + [x] + [y] == s + [x, y];
  }

  /** Three items that map to one result each add those three results. */
  lemma ThreeSingles<T, U>(s: seq<T>, x: T, y: T, z: T, f: T -> seq<U>, a: U, b: U, c: U)
    requires f(x) == [a] && f(y) == [b] && f(z) == [c]
    ensures FlatMap(s + [x, y, z], f) == FlatMap(s, f) + [a, b, c]
  {
    FlatMapSnoc(s, x, f);
    FlatMapSnoc(s + [x], y, f);
    FlatMapSnoc(s + [x] + [y], z, f);
    SnocThree(FlatMap(s, f), a, b, c);
    SnocThree(s, x, y, z);
  }

  function Corners(tris: seq<Triangle>): (r: seq<Vec3>)
    decreases |tris|
  {
    if |tris| == 0 then [] else Corners(tris[..|tris| - 1]) + [tris[|tris| - 1].v0, tris[|tris| - 1].v1, tris[|tris| - 1].v2]
  }

  lemma {:induction false} FacetsPoints(tris: seq<Triangle>, num: real -> string, toReal: string -> real)
    requires PrintsWords(num)
    ensures VertexPoints([SolidLine] + FacetsText(tris, num), toReal) == Corners(ReadBackTriangles(tris, num, toReal))
    decreases |tris|
  {
    var head := [SolidLine];
    if |tris| == 0 {
      SolidLineHasNoVertex();
      VertexPointsSnoc([], SolidLine, toReal);
      assert head + FacetsText(tris, num) == [] + [SolidLine];
    } else {
      var init := tris[..|tris| - 1];
      FacetsPoints(init, num, toReal);
      AppendAssoc(head, FacetsText(init, num), FacetText(tris[|tris| - 1], num));
      FacetPoints(head + FacetsText(init, num), tris[|tris| - 1], num, toReal);
      ReadBackCorners(tris, num, toReal);
    }
  }

  /** The corners read back from a mesh grow by the last triangle's corners read back. */
  lemma ReadBackCorners(tris: seq<Triangle>, num: real -> string, toReal: string -> real)
    requires |tris| > 0
    ensures var t := tris[|tris| - 1];
      Corners(ReadBackTriangles(tris, num, toReal))
      == Corners(ReadBackTriangles(tris[..|tris| - 1], num, toReal)) + [ReadBack(t.v0, num, toReal), ReadBack(t.v1, num, toReal), ReadBack(t.v2, num, toReal)]
  {
    var rb := ReadBackTriangles(tris, num, toReal);
    assert rb[..|rb| - 1] == ReadBackTriangles(tris[..|tris| - 1], num, toReal);
  }

  lemma {:induction false} TriplesOfCorners(tris: seq<Triangle>)
    ensures |Corners(tris)| == 3 * |tris|
    ensures Triples(Corners(tris)) == tris
    decreases |tris|
  {
    if |tris| > 0 {
      var init := tris[..|tris| - 1];
      TriplesOfCorners(init);
      var c := Corners(tris);
      forall k | 0 <= k < |init| ensures c[3 * k] == Corners(init)[3 * k] && c[3 * k + 1] == Corners(init)[3 * k + 1] && c[3 * k + 2] == Corners(init)[3 * k + 2] { }
      assert Triples(c) == Triples(Corners(init)) + [tris[|tris| - 1]];
      InitLast(tris);
    }
  }

  /** Round trip: loadSTL applied to what saveSTL writes gives back the fan triangles,
      in order, each corner as it was printed, and no vertex is left over; when every
      corner prints exactly, the fan triangles themselves come back. */
  lemma {:induction false} StlRoundTrip(polys: seq<seq<Vec3>>, num: real -> string, toReal: string -> real)
    requires PrintsWords(num)
    ensures LoadStl(StlText(polys, num), toReal) == StlState([], ReadBackTriangles(Fans(polys), num, toReal))
    ensures CornersPrintExactly(Fans(polys), num, toReal) ==> LoadStl(StlText(polys, num), toReal).tris == Fans(polys)
  {
    var lines := StlText(polys, num);
    var tris := Fans(polys);
    LoadStlGroups(lines, toReal);
    FacetsPoints(tris, num, toReal);
    EndSolidLineHasNoVertex();
    VertexPointsSnoc([SolidLine] + FacetsText(tris, num), EndSolidLine, toReal);
    TriplesOfCorners(ReadBackTriangles(tris, num, toReal));
  }
}
