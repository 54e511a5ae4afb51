// gLid: the older thread-milling generator for a wooden lid. Each pass plunges
// to its own depth and then cuts whole turns as full-circle G2 arcs about the
// origin, each ending one pitch lower; the tool is only lifted once, after the
// last pass.
module GLid {
  import opened Common
  import opened GText

  /** The form's five fields. */
  datatype Params = Params(innerDiameter: real, pitch: real, depth: real, toolDiameter: real, passes: int)

  /** std::ceil(depth / pitch) is cast to int: with a zero pitch the quotient is not a
      number, so a pitch of zero is only harmless when no pass runs. */
  predicate Defined(prm: Params) { prm.passes < 1 || prm.pitch != 0.0 }

  function Radius(prm: Params): (r: real) { (prm.innerDiameter - prm.toolDiameter) / 2.0 }

  /** depth / passes; with no passes it is never used. */
  function StepDown(prm: Params): (r: real) {
    if prm.passes == 0 then 0.0 else prm.depth / prm.passes as real
  }

  /** The height pass i plunges to. */
  function PassZ(prm: Params, i: int): (r: real) { -StepDown(prm) * i as real }

  /** The number of turns of every pass, std::ceil(revolutions); none when it is not positive. */
  function FullTurns(prm: Params): (r: nat)
    requires prm.pitch != 0.0
  {
    var n := Ceil(prm.depth / prm.pitch);
    if n > 0 then n else 0
  }

  /** The height after t turns of a pass that starts at z0. */
  function TurnZ(z0: real, pitch: real, t: nat): (r: real) { z0 - t as real * pitch }

  /** One full turn ending at z: back to (radius, 0) about the origin. */
  function TurnLine(r: real, z: real): (l: Line) {
    Line([Lit("G2 X"), F(r, 3), Lit(" Y0"), Lit(" I"), F(-r, 3), Lit(" J0"), Lit(" Z"), F(z, 3), Lit(" F300")])
  }

  /** The first n turns of a pass that starts at z0. */
  function Turns(r: real, pitch: real, z0: real, n: nat): (ls: seq<Line>)
    decreases n
  {
    if n == 0 then [] else Turns(r, pitch, z0, n - 1) + [TurnLine(r, TurnZ(z0, pitch, n))]
  }

  function PassCode(prm: Params, i: int): (r: seq<Line>)
    requires prm.pitch != 0.0
  {
    [Line([Lit("(Pass "), Int(i), Lit(")")]), Line([Lit("G1 Z"), F(PassZ(prm, i), 3), Lit(" F200")])]
    + Turns(Radius(prm), prm.pitch, PassZ(prm, i), FullTurns(prm))
  }

  /** Passes 1 to k. */
  function Passes(prm: Params, k: nat): (r: seq<Line>)
    requires k == 0 || prm.pitch != 0.0
    decreases k
  {
    if k == 0 then [] else Passes(prm, k - 1) + PassCode(prm, k)
  }

  /** "G0 X<radius> Y0". */
  function ToStart(r: real): (l: Line) { Line([Lit("G0 X"), F(r, 3), Lit(" Y0")]) }

  function ProgramHeader(prm: Params): (r: seq<Line>) {
    [T("(Wooden Lid Thread Milling)"), T("G21  (mm units)"), T("G90  (absolute positioning)"),
     T("G17  (XY plane)"), T("G0 Z5"), ToStart(Radius(prm))]
  }

  function Program(prm: Params): (r: seq<Line>)
    requires Defined(prm)
  {
    ProgramHeader(prm) + Passes(prm, if prm.passes > 0 then prm.passes else 0) + [T("G0 Z5"), T("M30")]
  }

  /** The turn loop of one pass: currentZ drops by the pitch after each arc. */
  method EmitTurns(g: seq<Line>, radius: real, pitch: real, currentZ: real, fullTurns: int)
    returns (out: seq<Line>, z: real)
    ensures var n := if fullTurns > 0 then fullTurns else 0;
      out == g + Turns(radius, pitch, currentZ, n) && z == TurnZ(currentZ, pitch, n)
  {
    out := g;
    z := currentZ;
    var t := 0;
    while t < fullTurns
      invariant 0 <= t && (fullTurns > 0 ==> t <= fullTurns) && (fullTurns <= 0 ==> t == 0)
      invariant z == TurnZ(currentZ, pitch, t)
      invariant out == g + Turns(radius, pitch, currentZ, t)
    {
      var zMove := pitch;
      assert TurnZ(currentZ, pitch, t + 1) == z - zMove;
      out := out + [TurnLine(radius, z - zMove)];
      z := z - zMove;
      t := t + 1;
    }
  }

  /** The body of the pass loop. */
  method EmitPass(g: seq<Line>, radius: real, stepDown: real, pitch: real, depth: real, i: int, ghost prm: Params)
    returns (out: seq<Line>)
    requires pitch != 0.0 && prm.pitch == pitch && prm.depth == depth
    requires radius == Radius(prm) && stepDown == StepDown(prm)
    ensures out == g + PassCode(prm, i)
  {
    var currentZ := -stepDown * i as real;
    var pass := [Line([Lit("(Pass "), Int(i), Lit(")")]), Line([Lit("G1 Z"), F(currentZ, 3), Lit(" F200")])];
    var revolutions := depth / pitch;
    var fullTurns := Ceil(revolutions);
    assert currentZ == PassZ(prm, i) && (if fullTurns > 0 then fullTurns else 0) == FullTurns(prm);
    pass, currentZ := EmitTurns(pass, radius, pitch, currentZ, fullTurns);
    out := g + pass;
  }

  method GenerateGCode(innerDiameter: real, pitch: real, depth: real, toolDiameter: real, passes: int)
    returns (gcode: seq<Line>)
    requires passes < 1 || pitch != 0.0
    ensures gcode == Program(Params(innerDiameter, pitch, depth, toolDiameter, passes))
  {
    ghost var prm := Params(innerDiameter, pitch, depth, toolDiameter, passes);
    var radius := (innerDiameter - toolDiameter) / 2.0;
    var stepDown := if passes == 0 then 0.0 else depth / passes as real;
    gcode := [T("(Wooden Lid Thread Milling)"), T("G21  (mm units)"), T("G90  (absolute positioning)"),
              T("G17  (XY plane)"), T("G0 Z5"), ToStart(radius)];
    var i := 1;
    while i <= passes
      invariant 1 <= i && (passes >= 1 ==> i <= passes + 1) && (passes < 1 ==> i == 1)
      invariant i == 1 || pitch != 0.0
      invariant gcode == ProgramHeader(prm) + Passes(prm, i - 1)
    {
      gcode := EmitPass(gcode, radius, stepDown, pitch, depth, i, prm);
      AppendAssoc(ProgramHeader(prm), Passes(prm, i - 1), PassCode(prm, i));
      i := i + 1;
    }
    gcode := gcode + [T("G0 Z5"), T("M30")];
  }

  // ---------------------------------------------------------------------
  // Properties

  /** Turn t of a pass (counting from 0) is a full circle back to (radius, 0) about the
      origin, ending (t + 1) pitches below the plunge: each one pitch below the one before. */
  lemma {:induction false} TurnsAt(r: real, pitch: real, z0: real, n: nat)
    ensures |Turns(r, pitch, z0, n)| == n
    ensures forall t :: 0 <= t < n ==> Turns(r, pitch, z0, n)[t] == TurnLine(r, TurnZ(z0, pitch, t + 1))
    decreases n
  {
    if n > 0 {
      TurnsAt(r, pitch, z0, n - 1);
    }
  }

  /** Each turn ends exactly one pitch below the previous one. */
  lemma TurnDrop(z0: real, pitch: real, t: nat)
    ensures TurnZ(z0, pitch, t + 1) == TurnZ(z0, pitch, t) - pitch
  {
    assert (t + 1) as real * pitch == t as real * pitch + pitch;
  }

  /** Pass i restarts at i step-downs below the surface, the last one at the full depth. */
  lemma PlungeDepths(prm: Params, i: int)
    requires 1 <= i <= prm.passes
    ensures PassZ(prm, i) == -(prm.depth / prm.passes as real) * i as real
    ensures PassZ(prm, prm.passes) == -prm.depth
  {
  }

  /** The restart discards the turns of the pass before: with a positive pitch and depth
      and two or more passes, pass i + 1 plunges to a height above where pass i ended. */
  lemma PassRestartsAbove(prm: Params, i: int)
    requires prm.pitch > 0.0 && prm.depth > 0.0 && 1 <= i < prm.passes
    ensures PassZ(prm, i + 1) > TurnZ(PassZ(prm, i), prm.pitch, FullTurns(prm))
  {
    var n := FullTurns(prm);
    var q := prm.depth / prm.pitch;
    assert q <= n as real;
    assert q * prm.pitch == prm.depth;
    assert q * prm.pitch <= n as real * prm.pitch;
    var s := StepDown(prm);
    var k := prm.passes as real;
    assert s * k == prm.depth;
    assert s > 0.0;
    assert s * k > s * 1.0;
    assert -s * (i + 1) as real == -s * i as real - s;
    assert PassZ(prm, i + 1) == PassZ(prm, i) - s;
    assert s < prm.depth <= n as real * prm.pitch;
    assert TurnZ(PassZ(prm, i), prm.pitch, n) == PassZ(prm, i) - n as real * prm.pitch;
  }

  /** A program line built from three or more pieces is never the bare "G0 Z5". */
  predicate Composite(l: Line) { |l.pieces| >= 3 }

  lemma {:induction false} PassesComposite(prm: Params, k: nat)
    requires k == 0 || prm.pitch != 0.0
    ensures forall m :: 0 <= m < |Passes(prm, k)| ==> Composite(Passes(prm, k)[m])
    decreases k
  {
    if k > 0 {
      PassesComposite(prm, k - 1);
      var n := FullTurns(prm);
      TurnsAt(Radius(prm), prm.pitch, PassZ(prm, k), n);
      var pc := PassCode(prm, k);
      assert forall m :: 0 <= m < |pc| ==> Composite(pc[m]) by {
        forall m | 0 <= m < |pc| ensures Composite(pc[m]) {
          if m >= 2 {
            assert pc[m] == Turns(Radius(prm), prm.pitch, PassZ(prm, k), n)[m - 2];
          }
        }
      }
    }
  }

  /** The tool is lifted once: after the header's "G0 Z5" the program holds no "G0 Z5"
      until the one just before "M30". */
  lemma SingleRetract(prm: Params)
    requires Defined(prm)
    ensures var g := Program(prm);
      |g| >= 8 && g[..6] == ProgramHeader(prm) && g[|g| - 2] == T("G0 Z5") && g[|g| - 1] == T("M30")
      && forall m :: 6 <= m < |g| - 2 ==> g[m] != T("G0 Z5")
  {
    var k := if prm.passes > 0 then prm.passes else 0;
    PassesComposite(prm, k);
    var g := Program(prm);
    var body := Passes(prm, k);
    assert g == ProgramHeader(prm) + body + [T("G0 Z5"), T("M30")];
    assert g[..6] == ProgramHeader(prm);
    forall m | 6 <= m < |g| - 2 ensures g[m] != T("G0 Z5") {
      assert g[m] == body[m - 6];
    }
  }
}
