// LidMaker: thread milling for a wooden lid. After a fixed header the tool
// goes to (radius, 0); each pass plunges a little deeper and follows a helix of
// clockwise arcs, eight per revolution, dropping pitch/8 per arc, then lifts
// and returns to the start point.
module LidMaker {
  import opened Common
  import opened GText

  const SegmentsPerRev: nat := 8

  /** M_PI, std::cos and std::sin, kept abstract. */
  datatype Trig = Trig(pi: real, cos: real -> real, sin: real -> real)

  /** The form's five fields. */
  datatype Params = Params(innerDiameter: real, pitch: real, totalDepth: real, toolDiameter: real, passes: int)

  /** std::ceil(totalDepth / pitch * 8) is cast to int: with a zero pitch the quotient is
      not a number, so a pitch of zero is only harmless when no pass runs. */
  predicate Defined(prm: Params) { prm.passes < 1 || prm.pitch != 0.0 }

  function Radius(prm: Params): (r: real) { (prm.innerDiameter - prm.toolDiameter) / 2.0 }

  /** totalDepth / passes; with no passes it is never used. */
  function PassDepth(prm: Params): (r: real) {
    if prm.passes == 0 then 0.0 else prm.totalDepth / prm.passes as real
  }

  function AngleStep(trig: Trig): (r: real) { (2.0 * trig.pi) / SegmentsPerRev as real }

  /** The plunge depth of pass p. */
  function PassZ(prm: Params, p: int): (r: real) { -PassDepth(prm) * p as real }

  /** The number of arcs of every pass: ceil(revolutions * segmentsPerRev). */
  function SegmentCount(prm: Params): (r: int)
    requires prm.pitch != 0.0
  {
    Ceil(prm.totalDepth / prm.pitch * SegmentsPerRev as real)
  }

  /** One G2 arc: its end point, its centre relative to its start, and its end height. */
  datatype Arc = Arc(x: real, y: real, i: real, j: real, z: real)

  /** The angle after s arcs. */
  function Angle(s: nat, trig: Trig): (r: real) { s as real * AngleStep(trig) }

  /** The height after s arcs of a pass that starts at z0. */
  function ArcZ(z0: real, pitch: real, s: nat): (r: real) { z0 - s as real * (pitch / SegmentsPerRev as real) }

  /** Arc s of a pass that starts at height z0. */
  function Segment(r: real, pitch: real, z0: real, s: nat, trig: Trig): (a: Arc) {
    Arc(r * trig.cos(Angle(s + 1, trig)), r * trig.sin(Angle(s + 1, trig)),
        -r * trig.cos(Angle(s, trig)), -r * trig.sin(Angle(s, trig)), ArcZ(z0, pitch, s + 1))
  }

  lemma StepOnce(z0: real, pitch: real, s: nat, trig: Trig)
    ensures Angle(s + 1, trig) == Angle(s, trig) + AngleStep(trig)
    ensures ArcZ(z0, pitch, s + 1) == ArcZ(z0, pitch, s) - pitch / SegmentsPerRev as real
  {
    var c := pitch / SegmentsPerRev as real;
    assert (s + 1) as real * c == s as real * c + c;
    assert (s + 1) as real * AngleStep(trig) == s as real * AngleStep(trig) + AngleStep(trig);
  }

  function ArcLine(a: Arc): (r: Line) {
    Line([Lit("G2 X"), F(a.x, 3), Lit(" Y"), F(a.y, 3), Lit(" I"), F(a.i, 3), Lit(" J"), F(a.j, 3),
          Lit(" Z"), F(a.z, 3), Lit(" F300")])
  }

  /** The first n arcs of a pass. */
  function Segments(r: real, pitch: real, z0: real, n: nat, trig: Trig): (ls: seq<Line>)
    decreases n
  {
    if n == 0 then [] else Segments(r, pitch, z0, n - 1, trig) + [ArcLine(Segment(r, pitch, z0, n - 1, trig))]
  }

  /** "G0 X<radius> Y0". */
  function ToStart(r: real): (l: Line) { Line([Lit("G0 X"), F(r, 3), Lit(" Y0")]) }

  function PassCode(prm: Params, p: int, trig: Trig): (r: seq<Line>)
    requires prm.pitch != 0.0
  {
    var n := SegmentCount(prm);
    [Line([Lit("(Pass "), Int(p), Lit(")")]), Line([Lit("G1 Z"), F(PassZ(prm, p), 3), Lit(" F150")])]
    + Segments(Radius(prm), prm.pitch, PassZ(prm, p), if n > 0 then n else 0, trig)
    + [T("G0 Z5"), ToStart(Radius(prm))]
  }

  /** Passes 1 to k. */
  function Passes(prm: Params, k: nat, trig: Trig): (r: seq<Line>)
    requires k == 0 || prm.pitch != 0.0
    decreases k
  {
    if k == 0 then [] else Passes(prm, k - 1, trig) + PassCode(prm, k, trig)
  }

  function ProgramHeader(prm: Params): (r: seq<Line>) {
    [T("(GRBL Wooden Lid Thread Milling)"), T("G21"), T("G90"), T("G17"), T("G94"), T("G0 Z5"),
     ToStart(Radius(prm))]
  }

  function Program(prm: Params, trig: Trig): (r: seq<Line>)
    requires Defined(prm)
  {
    ProgramHeader(prm) + Passes(prm, if prm.passes > 0 then prm.passes else 0, trig) + [T("M30")]
  }

  /** The arcs of one pass (the loop over s). */
  method EmitSegments(g: seq<Line>, r: real, pitch: real, currentZ: real, totalSegments: int, trig: Trig)
    returns (out: seq<Line>)
    ensures out == g + Segments(r, pitch, currentZ, if totalSegments > 0 then totalSegments else 0, trig)
  {
    var angleStep := (2.0 * trig.pi) / SegmentsPerRev as real;
    var angle := 0.0;
    var z := currentZ;
    out := g;
    var s := 0;
    while s < totalSegments
      invariant 0 <= s && (totalSegments > 0 ==> s <= totalSegments) && (totalSegments <= 0 ==> s == 0)
      invariant angleStep == AngleStep(trig)
      invariant angle == Angle(s, trig)
      invariant z == ArcZ(currentZ, pitch, s)
      invariant out == g + Segments(r, pitch, currentZ, s, trig)
    {
      var nextAngle := angle + angleStep;
      var x := r * trig.cos(nextAngle);
      var y := r * trig.sin(nextAngle);
      z := z - pitch / SegmentsPerRev as real;
      var i := -r * trig.cos(angle);
      var j := -r * trig.sin(angle);
      StepOnce(currentZ, pitch, s, trig);
      assert Arc(x, y, i, j, z) == Segment(r, pitch, currentZ, s, trig);
      out := out + [ArcLine(Arc(x, y, i, j, z))];
      angle := nextAngle;
      s := s + 1;
    }
  }

  /** The body of the pass loop: comment, plunge, arcs, lift and return. */
  method EmitPass(g: seq<Line>, radius: real, passDepth: real, pitch: real, totalDepth: real, p: int, trig: Trig,
                  ghost prm: Params)
    returns (out: seq<Line>)
    requires pitch != 0.0 && prm.pitch == pitch && prm.totalDepth == totalDepth
    requires radius == Radius(prm) && passDepth == PassDepth(prm)
    ensures out == g + PassCode(prm, p, trig)
  {
    var currentZ := -passDepth * p as real;
    var pass := [Line([Lit("(Pass "), Int(p), Lit(")")]), Line([Lit("G1 Z"), F(currentZ, 3), Lit(" F150")])];
    var revolutions := totalDepth / pitch;
    var totalSegments := Ceil(revolutions * SegmentsPerRev as real);
    pass := EmitSegments(pass, radius, pitch, currentZ, totalSegments, trig);
    pass := pass + [T("G0 Z5"), ToStart(radius)];
    assert totalSegments == SegmentCount(prm) && currentZ == PassZ(prm, p);
    out := g + pass;
  }

  method GenerateGCode(innerDiameter: real, pitch: real, totalDepth: real, toolDiameter: real, passes: int, trig: Trig)
    returns (g: seq<Line>)
    requires passes < 1 || pitch != 0.0
    ensures g == Program(Params(innerDiameter, pitch, totalDepth, toolDiameter, passes), trig)
  {
    ghost var prm := Params(innerDiameter, pitch, totalDepth, toolDiameter, passes);
    var radius := (innerDiameter - toolDiameter) / 2.0;
    var passDepth := if passes == 0 then 0.0 else totalDepth / passes as real;
    g := [T("(GRBL Wooden Lid Thread Milling)"), T("G21"), T("G90"), T("G17"), T("G94"), T("G0 Z5"),
          ToStart(radius)];
    var p := 1;
    while p <= passes
      invariant 1 <= p && (passes >= 1 ==> p <= passes + 1) && (passes < 1 ==> p == 1)
      invariant p == 1 || pitch != 0.0
      invariant g == ProgramHeader(prm) + Passes(prm, p - 1, trig)
    {
      g := EmitPass(g, radius, passDepth, pitch, totalDepth, p, trig, prm);
      AppendAssoc(ProgramHeader(prm), Passes(prm, p - 1, trig), PassCode(prm, p, trig));
      p := p + 1;
    }
    g := g + [T("M30")];
  }

  // ---------------------------------------------------------------------
  // Properties

  /** Pass p plunges to p times the pass depth, and the last pass to the full depth. */
  lemma PlungeDepths(prm: Params, p: int)
    requires 1 <= p <= prm.passes
    ensures PassZ(prm, p) == -(prm.totalDepth / prm.passes as real) * p as real
    ensures PassZ(prm, prm.passes) == -prm.totalDepth
  {
  }

  /** Arcs [..n] of a pass are its first n arcs, in order. */
  lemma {:induction false} SegmentsAt(r: real, pitch: real, z0: real, n: nat, trig: Trig)
    ensures |Segments(r, pitch, z0, n, trig)| == n
    ensures forall s :: 0 <= s < n ==> Segments(r, pitch, z0, n, trig)[s] == ArcLine(Segment(r, pitch, z0, s, trig))
    decreases n
  {
    if n > 0 {
      SegmentsAt(r, pitch, z0, n - 1, trig);
    }
  }

  /** A pass: its comment, the plunge to its depth, ceil(totalDepth / pitch * 8) arcs (none
      when that is not positive), the lift to Z5 and the return to (radius, 0). */
  lemma PassShape(prm: Params, p: int, trig: Trig)
    requires prm.pitch != 0.0
    ensures var n := if SegmentCount(prm) > 0 then SegmentCount(prm) else 0;
      var code := PassCode(prm, p, trig);
      |code| == n + 4
      && code[1] == Line([Lit("G1 Z"), F(PassZ(prm, p), 3), Lit(" F150")])
      && (forall s :: 0 <= s < n ==> code[s + 2] == ArcLine(Segment(Radius(prm), prm.pitch, PassZ(prm, p), s, trig)))
      && code[n + 2] == T("G0 Z5") && code[n + 3] == ToStart(Radius(prm))
  {
    var n := if SegmentCount(prm) > 0 then SegmentCount(prm) else 0;
    SegmentsAt(Radius(prm), prm.pitch, PassZ(prm, p), n, trig);
  }

  /** Within a pass every arc ends pitch/8 below the previous one (the first one pitch/8
      below the plunge), and every arc starts where the previous one ended: its centre
      offset is the negated end point of the arc before, so all arcs share the origin
      as centre. */
  lemma ArcsChain(r: real, pitch: real, z0: real, s: nat, trig: Trig)
    ensures Segment(r, pitch, z0, 0, trig).z == z0 - pitch / 8.0
    ensures Segment(r, pitch, z0, s + 1, trig).z == Segment(r, pitch, z0, s, trig).z - pitch / 8.0
    ensures Segment(r, pitch, z0, s + 1, trig).i == -Segment(r, pitch, z0, s, trig).x
    ensures Segment(r, pitch, z0, s + 1, trig).j == -Segment(r, pitch, z0, s, trig).y
  {
    StepOnce(z0, pitch, s + 1, trig);
    StepOnce(z0, pitch, 0, trig);
  }

  /** With a positive pitch and depth each pass descends at least the full thread depth
      below its plunge, and less than one arc's drop more. */
  lemma PassDescent(prm: Params, p: int, trig: Trig)
    requires prm.pitch > 0.0 && prm.totalDepth > 0.0
    ensures SegmentCount(prm) > 0
    ensures var last := Segment(Radius(prm), prm.pitch, PassZ(prm, p), SegmentCount(prm) - 1, trig);
      PassZ(prm, p) - prm.totalDepth - prm.pitch / 8.0 < last.z <= PassZ(prm, p) - prm.totalDepth
  {
    var n := SegmentCount(prm);
    var q := prm.totalDepth / prm.pitch * 8.0;
    var c := prm.pitch / 8.0;
    assert q * c == prm.totalDepth;
    var a := n as real;
    var b := a - 1.0;
    assert b < q <= a;
    assert b * c < q * c <= a * c;
    assert b * c == a * c - c;
    var last := Segment(Radius(prm), prm.pitch, PassZ(prm, p), n - 1, trig);
    assert last.z == ArcZ(PassZ(prm, p), prm.pitch, n);
  }

  /** The program opens with its header and the rapid to (radius, 0) and ends with "M30". */
  lemma ProgramFrame(prm: Params, trig: Trig)
    requires Defined(prm)
    ensures var g := Program(prm, trig);
      |g| >= 8 && g[..7] == ProgramHeader(prm) && g[6] == ToStart(Radius(prm)) && g[|g| - 1] == T("M30")
  {
    var g := Program(prm, trig);
    assert g[..7] == ProgramHeader(prm);
  }
}
