// svg2gcode, the first version: every <path> element's "d" attribute is read with a
// std::stringstream. M and L are absolute moves and lines (an optional comma between
// x and y), C is an absolute cubic Bézier flattened into 20 points, and every other
// command character is skipped. A command whose numbers cannot all be read still adds
// its points, with the values the failed reads leave, and ends the loop. All points
// are then cut as one polyline. `junk` stands for what an uninitialised double holds.
module SvgOld {
  import opened Common
  import opened GText
  import SvgPath

  /** `stream >> x` for a double, kept abstract: the value read at position i and the
      position after it, or None when the text there is not a number. */
  type NumReader = (string, nat) -> Option<(real, nat)>

  /** One number read: a successful read never moves back and never passes the end. */
  function ReadNum(d: string, i: nat, read: NumReader): (r: Option<(real, nat)>)
    requires i <= |d|
    ensures r.Some? ==> i <= r.value.1 <= |d|
    ensures r.None? <==> read(d, i).None?
  {
    match read(d, i)
    case None => None
    case Some((v, j)) => Some((v, if j < i then i else if j > |d| then |d| else j))
  }

  /** `if (ss.peek() == ',') ss.ignore();`: one comma right after x is skipped. */
  function SkipComma(d: string, j: nat): (k: nat)
    requires j <= |d|
    ensures j <= k <= |d| && (k == j + 1 <==> j < |d| && d[j] == ',')
  {
    if j < |d| && d[j] == ',' then j + 1 else j
  }

  /** What `stream >> v` leaves: the variable's value, the position and whether the
      stream is still good. */
  datatype Extracted = Extracted(value: real, pos: nat, good: bool)

  /** `stream >> v` into a double that holds prev. A failed stream changes nothing; a
      stream with only white space left fails and leaves v as it was; a stream with
      text that is not a number fails and stores 0. */
  function Extract(d: string, i: nat, good: bool, prev: real, read: NumReader): (r: Extracted)
    requires i <= |d|
    ensures i <= r.pos <= |d|
    ensures !good ==> r == Extracted(prev, i, false)
    ensures good && SvgPath.SkipSpace(d, i) == |d| ==> r.value == prev && !r.good
    ensures good && SvgPath.SkipSpace(d, i) < |d| ==>
      (r.good <==> read(d, i).Some?) &&
      (read(d, i).None? ==> r.value == 0.0) &&
      (read(d, i).Some? ==> r.value == read(d, i).value.0)
  {
    if !good then Extracted(prev, i, false)
    else if SvgPath.SkipSpace(d, i) == |d| then Extracted(prev, |d|, false)
    else match ReadNum(d, i, read)
      case None => Extracted(0.0, i, false)
      case Some((v, j)) => Extracted(v, j, true)
  }

  /** What `ss >> a.x; if (ss.peek() == ',') ss.ignore(); ss >> a.y;` leaves. */
  datatype Pair = Pair(p: Point2, pos: nat, good: bool)

  /** `ss >> a.x; if (ss.peek() == ',') ss.ignore(); ss >> a.y;` with a holding prev:
      peek on a failed stream sees no comma. */
  function ReadPair(d: string, i: nat, good: bool, prev: Point2, read: NumReader): (r: Pair)
    requires i <= |d|
    ensures i <= r.pos <= |d|
    ensures !good ==> r == Pair(prev, i, false)
    ensures r.good ==> good
  {
    var x := Extract(d, i, good, prev.x, read);
    var k := if x.good then SkipComma(d, x.pos) else x.pos;
    var y := Extract(d, k, x.good, prev.y, read);
    Pair(Point2(x.value, y.value), y.pos, y.good)
  }

  /** The loop's state: the points so far, the current point, the variables x and y
      (declared once, outside the loop), the stream position and whether the stream
      is still good. */
  datatype Scan = Scan(points: seq<Point2>, current: Point2, xy: Point2, pos: nat, good: bool)

  const BezierSteps: nat := 20

  /** The 20 points a C command adds: the flattened curve without its first sample. */
  function CurvePoints(p0: Point2, p1: Point2, p2: Point2, p3: Point2): (r: seq<Point2>) {
    SvgPath.Samples(SvgPath.CubicCurve(p0, p1, p2, p3), BezierSteps, BezierSteps + 1)[1..]
  }

  /** One iteration of parsePathData's loop. The point is pushed whether or not its
      reads succeeded; cp1, cp2 and end are declared afresh in each iteration and
      hold junk until read. */
  function Step(d: string, st: Scan, read: NumReader, junk: Point2): (r: Scan)
    requires st.pos < |d|
    ensures st.pos < r.pos <= |d|
  {
    var (cmd, i) := SvgPath.ReadCmd(d, st.pos);
    if cmd.None? then st.(pos := i)
    else if cmd.value == 'M' || cmd.value == 'L' then
      var a := ReadPair(d, i, true, st.xy, read);
      Scan(st.points + [a.p], a.p, a.p, a.pos, a.good)
    else if cmd.value == 'C' then
      var a := ReadPair(d, i, true, junk, read);
      var b := ReadPair(d, a.pos, a.good, junk, read);
      var e := ReadPair(d, b.pos, b.good, junk, read);
      Scan(st.points + CurvePoints(st.current, a.p, b.p, e.p), e.p, st.xy, e.pos, e.good)
    else st.(pos := i)
  }

  /** The loop from a given state until the stream ends or fails. */
  function ScanFrom(d: string, st: Scan, read: NumReader, junk: Point2): (r: Scan)
    requires st.pos <= |d|
    decreases |d| - st.pos
  {
    if !st.good || st.pos == |d| then st else ScanFrom(d, Step(d, st, read, junk), read, junk)
  }

  /** The state before the loop: x and y are not initialised and hold junk. */
  function Start(junk: Point2): (r: Scan) {
    Scan([], Point2(0.0, 0.0), junk, 0, true)
  }

  /** The points of one path's data. */
  function Parse(d: string, read: NumReader, junk: Point2): (r: seq<Point2>) {
    ScanFrom(d, Start(junk), read, junk).points
  }

  method ParsePathData(d: string, read: NumReader, junk: Point2) returns (points: seq<Point2>)
    ensures points == Parse(d, read, junk)
  {
    points := [];
    var currentPoint := Point2(0.0, 0.0);
    var x, y := junk.x, junk.y;
    var pos := 0;
    var good := true;
    while good && pos < |d|
      invariant pos <= |d|
      invariant ScanFrom(d, Scan(points, currentPoint, Point2(x, y), pos, good), read, junk) == ScanFrom(d, Start(junk), read, junk)
      decreases |d| - pos
    {
      ghost var before := Scan(points, currentPoint, Point2(x, y), pos, good);
      var (cmd, i) := SvgPath.ReadCmd(d, pos);
      pos := i;
      if cmd.Some? && (cmd.value == 'M' || cmd.value == 'L') {
        var ex := Extract(d, pos, good, x, read);
        x, pos, good := ex.value, ex.pos, ex.good;
        if good {
          pos := SkipComma(d, pos);
        }
        var ey := Extract(d, pos, good, y, read);
        y, pos, good := ey.value, ey.pos, ey.good;
        currentPoint := Point2(x, y);
        points := points + [currentPoint];
      } else if cmd.Some? && cmd.value == 'C' {
        var cp1 := ReadPair(d, pos, good, junk, read);
        var cp2 := ReadPair(d, cp1.pos, cp1.good, junk, read);
        var end := ReadPair(d, cp2.pos, cp2.good, junk, read);
        var bezier := SvgPath.FlattenCubicBezier(currentPoint, cp1.p, cp2.p, end.p, 20);
        bezier := bezier[1..];
        points := points + bezier;
        currentPoint := end.p;
        pos, good := end.pos, end.good;
      }
      assert Scan(points, currentPoint, Point2(x, y), pos, good) == Step(d, before, read, junk);
    }
  }

  // ---------------------------------------------------------------------
  // What one command does

  /** M and L both push one point, read as x, an optional comma, y, and make it the
      current point: a read that fails on text that is not a number gives 0, one
      that fails at the end of the data keeps the last value read (or junk). */
  lemma MoveOrLine(d: string, st: Scan, read: NumReader, junk: Point2)
    requires st.pos < |d|
    requires var (cmd, i) := SvgPath.ReadCmd(d, st.pos); cmd == Some('M') || cmd == Some('L')
    ensures var i := SvgPath.ReadCmd(d, st.pos).1;
      var a := ReadPair(d, i, true, st.xy, read);
      var r := Step(d, st, read, junk);
      r.points == st.points + [a.p] && r.current == a.p && r.xy == a.p && r.good == a.good
  {
  }

  /** An M or L with nothing after it pushes the previous x and y again and ends the
      loop. */
  lemma MoveAtEndRepeats(d: string, st: Scan, read: NumReader, junk: Point2)
    requires st.pos < |d|
    requires var (cmd, i) := SvgPath.ReadCmd(d, st.pos);
      (cmd == Some('M') || cmd == Some('L')) && SvgPath.SkipSpace(d, i) == |d|
    ensures var r := Step(d, st, read, junk); r.points == st.points + [st.xy] && !r.good
  {
  }

  /** C appends exactly 20 points, the samples of the curve from the current point at
      t = 1/20 ... 1, whether or not its reads succeed; the last is the end point,
      which becomes the current point. */
  lemma CurveTo(d: string, st: Scan, read: NumReader, junk: Point2)
    requires st.pos < |d| && SvgPath.ReadCmd(d, st.pos).0 == Some('C')
    ensures var r := Step(d, st, read, junk);
      |r.points| == |st.points| + 20 && r.points[..|st.points|] == st.points
      && r.points[|r.points| - 1] == r.current
  {
    var r := Step(d, st, read, junk);
    var i := SvgPath.ReadCmd(d, st.pos).1;
    var a := ReadPair(d, i, true, junk, read);
    var b := ReadPair(d, a.pos, a.good, junk, read);
    var e := ReadPair(d, b.pos, b.good, junk, read);
    var curve := SvgPath.CubicCurve(st.current, a.p, b.p, e.p);
    SvgPath.SamplesAt(curve, BezierSteps, BezierSteps + 1);
    SvgPath.CurveEnds(st.current, a.p, b.p, e.p);
    assert r.points == st.points + CurvePoints(st.current, a.p, b.p, e.p);
  }

  /** Every other command character (lowercase, Q, Z, ...) adds nothing and keeps the
      current point. */
  lemma OtherCommand(d: string, st: Scan, read: NumReader, junk: Point2)
    requires st.pos < |d|
    requires var cmd := SvgPath.ReadCmd(d, st.pos).0; cmd.Some? && cmd.value !in "MLC"
    ensures var r := Step(d, st, read, junk);
      r.points == st.points && r.current == st.current && r.xy == st.xy && r.good == st.good
  {
  }

  /** The last point collected is always the current point. */
  predicate Tracks(st: Scan) { |st.points| > 0 ==> st.points[|st.points| - 1] == st.current }

  lemma StepTracks(d: string, st: Scan, read: NumReader, junk: Point2)
    requires st.pos < |d| && Tracks(st)
    ensures var r := Step(d, st, read, junk);
      Tracks(r) && |st.points| <= |r.points| && r.points[..|st.points|] == st.points
  {
    var cmd := SvgPath.ReadCmd(d, st.pos).0;
    if cmd == Some('C') {
      CurveTo(d, st, read, junk);
    }
  }

  /** Parsing only appends: from any state that tracks its current point, the points
      already collected stay a prefix and the last point is the final current point. */
  lemma {:induction false} ScanTracks(d: string, st: Scan, read: NumReader, junk: Point2)
    requires st.pos <= |d| && Tracks(st)
    ensures var r := ScanFrom(d, st, read, junk);
      Tracks(r) && |st.points| <= |r.points| && r.points[..|st.points|] == st.points
    decreases |d| - st.pos
  {
    if st.good && st.pos < |d| {
      var s := Step(d, st, read, junk);
      StepTracks(d, st, read, junk);
      ScanTracks(d, s, read, junk);
      var r := ScanFrom(d, s, read, junk);
      assert r.points[..|st.points|] == r.points[..|s.points|][..|st.points|];
    }
  }

  // ---------------------------------------------------------------------
  // writeGCode and main

  const Header: seq<Line> := [T("G21 ; Set units to millimeters"), T("G90 ; Absolute positioning"),
                              T("G1 F1000 ; Set feed rate")]

  /** One G1 per point, in order. */
  function Cuts(points: seq<Point2>): (ls: seq<Line>)
    ensures |ls| == |points|
    decreases |points|
  {
    if |points| == 0 then [] else Cuts(points[..|points| - 1]) + [SvgPath.Move("G1", points[|points| - 1])]
  }

  /** The rapid to the first point and the laser switched on. */
  function LaserOn(points: seq<Point2>): (r: seq<Line>) {
    if |points| == 0 then [] else [SvgPath.Move("G0", points[0]), T("M3 ; Laser ON")]
  }

  function Program(points: seq<Point2>): (r: seq<Line>) {
    Header + LaserOn(points) + Cuts(points) + [T("M5 ; Laser OFF")]
  }

  method WriteGCode(points: seq<Point2>) returns (out: seq<Line>)
    ensures out == Program(points)
  {
    out := Header;
    var first := true;
    var i := 0;
    while i < |points|
      invariant 0 <= i <= |points| && first == (i == 0)
      invariant out == Header + (if first then [] else LaserOn(points)) + Cuts(points[..i])
    {
      var p := points[i];
      if first {
        out := out + [SvgPath.Move("G0", p), T("M3 ; Laser ON")];
        first := false;
      }
      assert points[..i + 1][..i] == points[..i];
      out := out + [SvgPath.Move("G1", p)];
      i := i + 1;
    }
    assert points[..i] == points;
    out := out + [T("M5 ; Laser OFF")];
  }

  lemma {:induction false} CutsAt(points: seq<Point2>)
    ensures forall i :: 0 <= i < |points| ==> Cuts(points)[i] == SvgPath.Move("G1", points[i])
    decreases |points|
  {
    if |points| > 0 {
      CutsAt(points[..|points| - 1]);
    }
  }

  /** The program: three header lines, the rapid to the first point and "M3" (when there
      is one), one G1 per point in order, and "M5". */
  lemma ProgramShape(points: seq<Point2>)
    ensures var g := Program(points);
      var k := if |points| == 0 then 3 else 5;
      |g| == k + |points| + 1 && g[..3] == Header && g[|g| - 1] == T("M5 ; Laser OFF")
      && (|points| > 0 ==> g[3] == SvgPath.Move("G0", points[0]) && g[4] == T("M3 ; Laser ON"))
      && forall i :: 0 <= i < |points| ==> g[k + i] == SvgPath.Move("G1", points[i])
  {
    CutsAt(points);
    var g := Program(points);
    var k := if |points| == 0 then 3 else 5;
    assert |Header + LaserOn(points)| == k;
    assert g[..3] == Header;
    forall i | 0 <= i < |points| ensures g[k + i] == SvgPath.Move("G1", points[i]) {
      assert g[k + i] == Cuts(points)[i];
    }
  }

  /** Every <path> element's points in document order; an element without a "d"
      attribute contributes nothing. */
  function AllPoints(paths: seq<Option<string>>, read: NumReader, junk: Point2): (r: seq<Point2>)
    decreases |paths|
  {
    if |paths| == 0 then []
    else
      var last := paths[|paths| - 1];
      AllPoints(paths[..|paths| - 1], read, junk) + (if last.Some? then Parse(last.value, read, junk) else [])
  }

  /** The outcome of main once the document is loaded: no points is an error, otherwise
      the program. */
  function Convert(paths: seq<Option<string>>, read: NumReader, junk: Point2): (r: Result<seq<Line>>)
    ensures r.Ok? <==> exists k :: 0 <= k < |paths| && paths[k].Some? && Parse(paths[k].value, read, junk) != []
  {
    AllEmpty(paths, read, junk);
    var pts := AllPoints(paths, read, junk);
    if |pts| == 0 then Err("No path data found.") else Ok(Program(pts))
  }

  /** No points at all exactly when no path's data yields any. */
  lemma {:induction false} AllEmpty(paths: seq<Option<string>>, read: NumReader, junk: Point2)
    ensures AllPoints(paths, read, junk) == [] <==>
      forall k :: 0 <= k < |paths| && paths[k].Some? ==> Parse(paths[k].value, read, junk) == []
    decreases |paths|
  {
    if |paths| > 0 {
      var init := paths[..|paths| - 1];
      AllEmpty(init, read, junk);
      assert forall k :: 0 <= k < |init| ==> init[k] == paths[k];
    }
  }

  method Run(paths: seq<Option<string>>, read: NumReader, junk: Point2) returns (r: Result<seq<Line>>)
    ensures r == Convert(paths, read, junk)
  {
    var allPoints := [];
    var n := 0;
    while n < |paths|
      invariant 0 <= n <= |paths|
      invariant allPoints == AllPoints(paths[..n], read, junk)
    {
      assert paths[..n + 1][..n] == paths[..n];
      if paths[n].Some? {
        var points := ParsePathData(paths[n].value, read, junk);
        allPoints := allPoints + points;
      }
      n := n + 1;
    }
    assert paths[..n] == paths;
    if |allPoints| == 0 {
      return Err("No path data found.");
    }
    var gcode := WriteGCode(allPoints);
    r := Ok(gcode);
  }
}
