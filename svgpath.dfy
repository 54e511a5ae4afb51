// svg2gcode: the SVG path-data flattener (moveto, lineto, cubic and quadratic
// Bézier curveto and closepath, sections 8.3.2 to 8.3.7 of SVG 1.1) and the
// G-code and GCMC writers that follow the flattened points.
module SvgPath {
  import opened Common
  import opened GText

  // ---------------------------------------------------------------------
  // Bézier curves

  /** The cubic Bézier curve in Bernstein form. */
  function Cubic(p0: Point2, p1: Point2, p2: Point2, p3: Point2, t: real): (r: Point2) {
    var u := 1.0 - t;
    Point2(u * u * u * p0.x + 3.0 * (u * u) * t * p1.x + 3.0 * u * (t * t) * p2.x + t * t * t * p3.x,
           u * u * u * p0.y + 3.0 * (u * u) * t * p1.y + 3.0 * u * (t * t) * p2.y + t * t * t * p3.y)
  }

  /** The quadratic Bézier curve in Bernstein form. */
  function Quadratic(p0: Point2, p1: Point2, p2: Point2, t: real): (r: Point2) {
    var u := 1.0 - t;
    Point2(u * u * p0.x + 2.0 * u * t * p1.x + t * t * p2.x,
           u * u * p0.y + 2.0 * u * t * p1.y + t * t * p2.y)
  }

  /** Both curves start at their first control point and end at their last one. */
  lemma CurveEnds(p0: Point2, p1: Point2, p2: Point2, p3: Point2)
    ensures Cubic(p0, p1, p2, p3, 0.0) == p0 && Cubic(p0, p1, p2, p3, 1.0) == p3
    ensures Quadratic(p0, p1, p2, 0.0) == p0 && Quadratic(p0, p1, p2, 1.0) == p2
  {
  }

  function CubicCurve(p0: Point2, p1: Point2, p2: Point2, p3: Point2): (r: real -> Point2) {
    t => Cubic(p0, p1, p2, p3, t)
  }

  function QuadraticCurve(p0: Point2, p1: Point2, p2: Point2): (r: real -> Point2) {
    t => Quadratic(p0, p1, p2, t)
  }

  /** The first n samples of a curve taken at t = i / steps. */
  function Samples(curve: real -> Point2, steps: nat, n: nat): (s: seq<Point2>)
    requires steps > 0
    ensures |s| == n
    decreases n
  {
    if n == 0 then [] else Samples(curve, steps, n - 1) + [curve((n - 1) as real / steps as real)]
  }

  /** Sample i is the curve at i / steps; of the steps + 1 samples the first is the
      curve at 0 and the last the curve at 1. */
  lemma {:induction false} SamplesAt(curve: real -> Point2, steps: nat, n: nat)
    requires steps > 0
    ensures forall i :: 0 <= i < n ==> Samples(curve, steps, n)[i] == curve(i as real / steps as real)
    ensures n == steps + 1 ==> Samples(curve, steps, n)[0] == curve(0.0) && Samples(curve, steps, n)[steps] == curve(1.0)
    decreases n
  {
    if n > 0 {
      SamplesAt(curve, steps, n - 1);
    }
    EndFractions(steps);
  }

  /** The first sample is at t = 0 and sample `steps` at t = 1. */
  lemma EndFractions(steps: nat)
    requires steps > 0
    ensures 0 as real / steps as real == 0.0 && steps as real / steps as real == 1.0
  {
  }

  method FlattenCubicBezier(p0: Point2, p1: Point2, p2: Point2, p3: Point2, steps: int) returns (result: seq<Point2>)
    requires steps > 0
    ensures result == Samples(CubicCurve(p0, p1, p2, p3), steps, steps + 1)
  {
    result := [];
    var i := 0;
    while i <= steps
      invariant 0 <= i <= steps + 1
      invariant result == Samples(CubicCurve(p0, p1, p2, p3), steps, i)
    {
      result := result + [Cubic(p0, p1, p2, p3, i as real / steps as real)];
      i := i + 1;
    }
  }

  method FlattenQuadraticBezier(p0: Point2, p1: Point2, p2: Point2, steps: int) returns (result: seq<Point2>)
    requires steps > 0
    ensures result == Samples(QuadraticCurve(p0, p1, p2), steps, steps + 1)
  {
    result := [];
    var i := 0;
    while i <= steps
      invariant 0 <= i <= steps + 1
      invariant result == Samples(QuadraticCurve(p0, p1, p2), steps, i)
    {
      result := result + [Quadratic(p0, p1, p2, i as real / steps as real)];
      i := i + 1;
    }
  }

  // ---------------------------------------------------------------------
  // Reading the path data

  /** QTextStream's `>> double`, kept abstract: the value read at position i of the path
      data and the position after it. */
  type RealReader = (string, nat) -> (real, nat)

  /** The first non-space position at or after i (|d| when there is none). */
  function SkipSpace(d: string, i: nat): (j: nat)
    requires i <= |d|
    ensures i <= j <= |d| && (j < |d| ==> !IsSpace(d[j]))
    decreases |d| - i
  {
    if i == |d| || !IsSpace(d[i]) then i else SkipSpace(d, i + 1)
  }

  /** `stream >> cmd`: skips white space and takes one character; at the end it yields none. */
  function ReadCmd(d: string, i: nat): (r: (Option<char>, nat))
    requires i <= |d|
    ensures i <= r.1 <= |d| && (i < |d| ==> i < r.1)
  {
    var j := SkipSpace(d, i);
    if j == |d| then (None, j) else (Some(d[j]), j + 1)
  }

  /** One number read: the stream never moves back and never passes its end. */
  function ReadReal(d: string, i: nat, read: RealReader): (r: (real, nat))
    requires i <= |d|
    ensures i <= r.1 <= |d|
  {
    var (v, j) := read(d, i);
    (v, if j < i then i else if j > |d| then |d| else j)
  }

  /** `stream >> x >> y`. */
  function ReadPoint(d: string, i: nat, read: RealReader): (r: (Point2, nat))
    requires i <= |d|
    ensures i <= r.1 <= |d|
  {
    var (x, j) := ReadReal(d, i, read);
    var (y, k) := ReadReal(d, j, read);
    (Point2(x, y), k)
  }

  /** The parser's state: the points so far, the current point, the subpath start and the
      stream position. */
  datatype Parser = Parser(points: seq<Point2>, current: Point2, start: Point2, pos: nat)

  const BezierSteps: nat := 20

  /** `p`, or `p` offset by the current point for a lowercase (relative) command. */
  function Resolve(p: Point2, relative: bool, current: Point2): (r: Point2) {
    if relative then AddP(p, current) else p
  }

  /** One iteration of parsePathData's loop. */
  function Step(d: string, st: Parser, read: RealReader): (r: Parser)
    requires st.pos < |d|
    ensures st.pos < r.pos <= |d|
  {
    var (cmd, i) := ReadCmd(d, st.pos);
    if cmd.None? then st.(pos := i)
    else
      var c := cmd.value;
      if c == 'M' || c == 'm' then
        var (p, j) := ReadPoint(d, i, read);
        var q := Resolve(p, c == 'm', st.current);
        Parser(st.points + [q], q, q, j)
      else if c == 'L' || c == 'l' then
        var (p, j) := ReadPoint(d, i, read);
        var q := Resolve(p, c == 'l', st.current);
        Parser(st.points + [q], q, st.start, j)
      else if c == 'C' || c == 'c' then
        var (a, j1) := ReadPoint(d, i, read);
        var (b, j2) := ReadPoint(d, j1, read);
        var (e, j3) := ReadPoint(d, j2, read);
        var rel := c == 'c';
        var end := Resolve(e, rel, st.current);
        var bezier := Samples(CubicCurve(st.current, Resolve(a, rel, st.current), Resolve(b, rel, st.current), end),
                              BezierSteps, BezierSteps + 1);
        Parser(st.points + bezier[1..], end, st.start, j3)
      else if c == 'Q' || c == 'q' then
        var (a, j1) := ReadPoint(d, i, read);
        var (e, j2) := ReadPoint(d, j1, read);
        var rel := c == 'q';
        var end := Resolve(e, rel, st.current);
        var bezier := Samples(QuadraticCurve(st.current, Resolve(a, rel, st.current), end), BezierSteps, BezierSteps + 1);
        Parser(st.points + bezier[1..], end, st.start, j2)
      else if c == 'Z' || c == 'z' then
        Parser(st.points + [st.start], st.start, st.start, i)
      else
        st.(pos := i)
  }

  /** The loop from a given state to the end of the data. */
  function ParseFrom(d: string, st: Parser, read: RealReader): (r: Parser)
    requires st.pos <= |d|
    decreases |d| - st.pos
  {
    if st.pos == |d| then st else ParseFrom(d, Step(d, st, read), read)
  }

  const Start: Parser := Parser([], Point2(0.0, 0.0), Point2(0.0, 0.0), 0)

  function Parse(d: string, read: RealReader): (r: seq<Point2>) {
    ParseFrom(d, Start, read).points
  }

  method ParsePathData(d: string, read: RealReader) returns (points: seq<Point2>)
    ensures points == Parse(d, read)
  {
    points := [];
    var current := Point2(0.0, 0.0);
    var start := Point2(0.0, 0.0);
    var pos := 0;
    while pos < |d|
      invariant pos <= |d|
      invariant ParseFrom(d, Parser(points, current, start, pos), read) == ParseFrom(d, Start, read)
      decreases |d| - pos
    {
      ghost var before := Parser(points, current, start, pos);
      var (cmd, i) := ReadCmd(d, pos);
      pos := i;
      if cmd.Some? && (cmd.value == 'M' || cmd.value == 'm') {
        var (p, j) := ReadPoint(d, pos, read);
        current := if cmd.value == 'm' then AddP(p, current) else p;
        start := current;
        points := points + [current];
        pos := j;
      } else if cmd.Some? && (cmd.value == 'L' || cmd.value == 'l') {
        var (p, j) := ReadPoint(d, pos, read);
        current := if cmd.value == 'l' then AddP(p, current) else p;
        points := points + [current];
        pos := j;
      } else if cmd.Some? && (cmd.value == 'C' || cmd.value == 'c') {
        var (cp1, j1) := ReadPoint(d, pos, read);
        var (cp2, j2) := ReadPoint(d, j1, read);
        var (end, j3) := ReadPoint(d, j2, read);
        if cmd.value == 'c' {
          cp1 := AddP(cp1, current);
          cp2 := AddP(cp2, current);
          end := AddP(end, current);
        }
        var bezier := FlattenCubicBezier(current, cp1, cp2, end, 20);
        bezier := bezier[1..];
        points := points + bezier;
        current := end;
        pos := j3;
      } else if cmd.Some? && (cmd.value == 'Q' || cmd.value == 'q') {
        var (cp, j1) := ReadPoint(d, pos, read);
        var (end, j2) := ReadPoint(d, j1, read);
        if cmd.value == 'q' {
          cp := AddP(cp, current);
          end := AddP(end, current);
        }
        var bezier := FlattenQuadraticBezier(current, cp, end, 20);
        bezier := bezier[1..];
        points := points + bezier;
        current := end;
        pos := j2;
      } else if cmd.Some? && (cmd.value == 'Z' || cmd.value == 'z') {
        points := points + [start];
        current := start;
      }
      assert Parser(points, current, start, pos) == Step(d, before, read);
    }
  }

  // ---------------------------------------------------------------------
  // What one command does

  /** M and m set both the current point and the subpath start to the point read (offset
      by the current point for m) and append it; L and l do the same but keep the start. */
  lemma MoveAndLine(d: string, st: Parser, read: RealReader, c: char)
    requires st.pos < |d| && ReadCmd(d, st.pos).0 == Some(c) && c in "MmLl"
    ensures var q := Resolve(ReadPoint(d, ReadCmd(d, st.pos).1, read).0, c in "ml", st.current);
      var r := Step(d, st, read);
      r.points == st.points + [q] && r.current == q && r.start == (if c in "Mm" then q else st.start)
  {
  }

  /** C and c append exactly 20 points, the samples of the curve at t = 1/20 ... 1, the
      last one being the end point, which becomes the current point; c offsets every
      control point by the current point. */
  lemma CubicTo(d: string, st: Parser, read: RealReader, c: char)
    requires st.pos < |d| && ReadCmd(d, st.pos).0 == Some(c) && c in "Cc"
    ensures var r := Step(d, st, read);
      |r.points| == |st.points| + 20 && r.points[..|st.points|] == st.points
      && r.points[|r.points| - 1] == r.current && r.start == st.start
  {
    var i := ReadCmd(d, st.pos).1;
    var rel := c == 'c';
    var (a, j1) := ReadPoint(d, i, read);
    var (b, j2) := ReadPoint(d, j1, read);
    var (e, j3) := ReadPoint(d, j2, read);
    var end := Resolve(e, rel, st.current);
    var curve := CubicCurve(st.current, Resolve(a, rel, st.current), Resolve(b, rel, st.current), end);
    SamplesAt(curve, BezierSteps, BezierSteps + 1);
    CurveEnds(st.current, Resolve(a, rel, st.current), Resolve(b, rel, st.current), end);
  }

  /** Q and q do the same with the quadratic curve through one control point. */
  lemma QuadraticTo(d: string, st: Parser, read: RealReader, c: char)
    requires st.pos < |d| && ReadCmd(d, st.pos).0 == Some(c) && c in "Qq"
    ensures var r := Step(d, st, read);
      |r.points| == |st.points| + 20 && r.points[..|st.points|] == st.points
      && r.points[|r.points| - 1] == r.current && r.start == st.start
  {
    var i := ReadCmd(d, st.pos).1;
    var rel := c == 'q';
    var (a, j1) := ReadPoint(d, i, read);
    var (e, j2) := ReadPoint(d, j1, read);
    var end := Resolve(e, rel, st.current);
    var curve := QuadraticCurve(st.current, Resolve(a, rel, st.current), end);
    SamplesAt(curve, BezierSteps, BezierSteps + 1);
    CurveEnds(st.current, Resolve(a, rel, st.current), end, end);
  }

  /** Z and z append the subpath start and return the current point to it; any other
      character, and the end of the data, add nothing and move nothing. */
  lemma CloseAndOther(d: string, st: Parser, read: RealReader)
    requires st.pos < |d|
    ensures var (cmd, i) := ReadCmd(d, st.pos);
      var r := Step(d, st, read);
      (cmd.Some? && cmd.value in "Zz" ==> r.points == st.points + [st.start] && r.current == st.start && r.start == st.start)
      && (cmd.None? || cmd.value !in "MmLlCcQqZz" ==> r == st.(pos := i))
  {
  }

  /** The last point appended is always the current point. */
  predicate Tracks(st: Parser) {
    |st.points| > 0 ==> st.points[|st.points| - 1] == st.current
  }

  lemma StepTracks(d: string, st: Parser, read: RealReader)
    requires st.pos < |d| && Tracks(st)
    ensures Tracks(Step(d, st, read))
    ensures |Step(d, st, read).points| >= |st.points|
    ensures Step(d, st, read).points[..|st.points|] == st.points
  {
    var (cmd, i) := ReadCmd(d, st.pos);
    if cmd.Some? && cmd.value in "Cc" {
      CubicTo(d, st, read, cmd.value);
    } else if cmd.Some? && cmd.value in "Qq" {
      QuadraticTo(d, st, read, cmd.value);
    } else if cmd.Some? && cmd.value in "MmLl" {
      MoveAndLine(d, st, read, cmd.value);
    } else {
      CloseAndOther(d, st, read);
    }
  }

  /** Parsing only appends, and the pen ends on the current point: whatever the path data,
      the last point produced is the point the next relative command would start from. */
  lemma {:induction false} ParseTracks(d: string, st: Parser, read: RealReader)
    requires st.pos <= |d| && Tracks(st)
    ensures Tracks(ParseFrom(d, st, read))
    ensures |ParseFrom(d, st, read).points| >= |st.points|
    ensures ParseFrom(d, st, read).points[..|st.points|] == st.points
    decreases |d| - st.pos
  {
    if st.pos < |d| {
      var next := Step(d, st, read);
      StepTracks(d, st, read);
      ParseTracks(d, next, read);
      var r := ParseFrom(d, next, read);
      assert r.points[..|next.points|][..|st.points|] == r.points[..|st.points|];
    }
  }

  // ---------------------------------------------------------------------
  // generateGCode and generateGCMC

  /** A point scaled and shifted to machine coordinates. */
  function Mapped(p: Point2, scale: real, offsetX: real, offsetY: real): (r: Point2) {
    Point2(p.x * scale + offsetX, p.y * scale + offsetY)
  }

  /** With a non-zero scale the machine coordinates give the SVG point back. */
  lemma MappedInverse(p: Point2, scale: real, offsetX: real, offsetY: real)
    requires scale != 0.0
    ensures var m := Mapped(p, scale, offsetX, offsetY);
      (m.x - offsetX) / scale == p.x && (m.y - offsetY) / scale == p.y
  {
  }

  function Move(cmd: string, p: Point2): (r: Line) { Line([Lit(cmd + " X"), G(p.x), Lit(" Y"), G(p.y)]) }

  function Cuts(points: seq<Point2>, scale: real, offsetX: real, offsetY: real): (ls: seq<Line>)
    ensures |ls| == |points|
    decreases |points|
  {
    if |points| == 0 then []
    else Cuts(points[..|points| - 1], scale, offsetX, offsetY) + [Move("G1", Mapped(points[|points| - 1], scale, offsetX, offsetY))]
  }

  const GCodeHeader: seq<Line> := [T("G21 ; Set units to mm"), T("G90 ; Absolute positioning"), T("G1 F1000")]

  /** The rapid to the first point and the laser switched on, before the first cut. */
  function LaserOn(points: seq<Point2>, scale: real, offsetX: real, offsetY: real): (r: seq<Line>) {
    if |points| == 0 then [] else [Move("G0", Mapped(points[0], scale, offsetX, offsetY)), T("M3")]
  }

  function GCodeProgram(points: seq<Point2>, scale: real, offsetX: real, offsetY: real): (r: seq<Line>) {
    GCodeHeader + LaserOn(points, scale, offsetX, offsetY) + Cuts(points, scale, offsetX, offsetY) + [T("M5")]
  }

  method GenerateGCode(points: seq<Point2>, scale: real, offsetX: real, offsetY: real) returns (gcode: seq<Line>)
    ensures gcode == GCodeProgram(points, scale, offsetX, offsetY)
  {
    gcode := GCodeHeader;
    var first := true;
    var i := 0;
    while i < |points|
      invariant 0 <= i <= |points| && first == (i == 0)
      invariant gcode == GCodeHeader + (if first then [] else LaserOn(points, scale, offsetX, offsetY))
                         + Cuts(points[..i], scale, offsetX, offsetY)
    {
      var p := points[i];
      var px := p.x * scale + offsetX;
      var py := p.y * scale + offsetY;
      assert Point2(px, py) == Mapped(points[i], scale, offsetX, offsetY);
      if first {
        gcode := gcode + [Move("G0", Point2(px, py)), T("M3")];
        first := false;
      }
      assert points[..i + 1][..i] == points[..i];
      assert Cuts(points[..i + 1], scale, offsetX, offsetY)
          == Cuts(points[..i], scale, offsetX, offsetY) + [Move("G1", Point2(px, py))];
      gcode := gcode + [Move("G1", Point2(px, py))];
      i := i + 1;
    }
    assert points[..i] == points;
    gcode := gcode + [T("M5")];
  }

  /** Cut i is the G1 to point i in machine coordinates. */
  lemma {:induction false} CutsAt(points: seq<Point2>, scale: real, offsetX: real, offsetY: real)
    ensures forall i :: 0 <= i < |points| ==>
      Cuts(points, scale, offsetX, offsetY)[i] == Move("G1", Mapped(points[i], scale, offsetX, offsetY))
    decreases |points|
  {
    if |points| > 0 {
      CutsAt(points[..|points| - 1], scale, offsetX, offsetY);
    }
  }

  /** The program: three header lines, then (when there are points) the rapid to the first
      point and "M3", exactly one G1 per point in order, and "M5". */
  lemma GCodeShape(points: seq<Point2>, scale: real, offsetX: real, offsetY: real)
    ensures var g := GCodeProgram(points, scale, offsetX, offsetY);
      var k := if |points| == 0 then 3 else 5;
      |g| == k + |points| + 1 && g[..3] == GCodeHeader && g[|g| - 1] == T("M5")
      && (|points| > 0 ==> g[3] == Move("G0", Mapped(points[0], scale, offsetX, offsetY)) && g[4] == T("M3"))
      && forall i :: 0 <= i < |points| ==> g[k + i] == Move("G1", Mapped(points[i], scale, offsetX, offsetY))
  {
    CutsAt(points, scale, offsetX, offsetY);
    var g := GCodeProgram(points, scale, offsetX, offsetY);
    var k := if |points| == 0 then 3 else 5;
    var pre := GCodeHeader + LaserOn(points, scale, offsetX, offsetY);
    assert |pre| == k;
    assert g[..3] == GCodeHeader;
    forall i | 0 <= i < |points| ensures g[k + i] == Move("G1", Mapped(points[i], scale, offsetX, offsetY)) {
      assert g[k + i] == Cuts(points, scale, offsetX, offsetY)[i];
    }
  }

  /** "goto([x, y]);" for the first point, "linear([x, y]);" for every other one. */
  function GcmcMove(first: bool, p: Point2): (r: Line) {
    Line([Lit(if first then "goto([" else "linear(["), G(p.x), Lit(", "), G(p.y), Lit("]);")])
  }

  function GcmcMoves(points: seq<Point2>, scale: real, offsetX: real, offsetY: real): (ls: seq<Line>)
    ensures |ls| == |points|
    decreases |points|
  {
    if |points| == 0 then []
    else GcmcMoves(points[..|points| - 1], scale, offsetX, offsetY)
         + [GcmcMove(|points| == 1, Mapped(points[|points| - 1], scale, offsetX, offsetY))]
  }

  function GcmcProgram(points: seq<Point2>, scale: real, offsetX: real, offsetY: real): (r: seq<Line>) {
    [T("unit(mm);"), T("spindle(true);")] + GcmcMoves(points, scale, offsetX, offsetY) + [T("spindle(false);")]
  }

  method GenerateGcmc(points: seq<Point2>, scale: real, offsetX: real, offsetY: real) returns (gcmc: seq<Line>)
    ensures gcmc == GcmcProgram(points, scale, offsetX, offsetY)
  {
    gcmc := [T("unit(mm);"), T("spindle(true);")];
    var first := true;
    var i := 0;
    while i < |points|
      invariant 0 <= i <= |points| && first == (i == 0)
      invariant gcmc == [T("unit(mm);"), T("spindle(true);")] + GcmcMoves(points[..i], scale, offsetX, offsetY)
    {
      var p := points[i];
      var px := p.x * scale + offsetX;
      var py := p.y * scale + offsetY;
      assert points[..i + 1][..i] == points[..i] && points[..i + 1][i] == points[i];
      assert Point2(px, py) == Mapped(points[i], scale, offsetX, offsetY);
      assert GcmcMoves(points[..i + 1], scale, offsetX, offsetY)
          == GcmcMoves(points[..i], scale, offsetX, offsetY) + [GcmcMove(i == 0, Point2(px, py))];
      if first {
        gcmc := gcmc + [GcmcMove(true, Point2(px, py))];
        first := false;
      } else {
        gcmc := gcmc + [GcmcMove(false, Point2(px, py))];
      }
      i := i + 1;
    }
    assert points[..i] == points;
    gcmc := gcmc + [T("spindle(false);")];
  }

  /** The GCMC program: unit and spindle on, a goto to the first point, one linear move
      to each later point, in order, and spindle off. */
  lemma {:induction false} GcmcMovesAt(points: seq<Point2>, scale: real, offsetX: real, offsetY: real)
    ensures forall i :: 0 <= i < |points| ==>
      GcmcMoves(points, scale, offsetX, offsetY)[i] == GcmcMove(i == 0, Mapped(points[i], scale, offsetX, offsetY))
    decreases |points|
  {
    if |points| > 0 {
      GcmcMovesAt(points[..|points| - 1], scale, offsetX, offsetY);
    }
  }
}
