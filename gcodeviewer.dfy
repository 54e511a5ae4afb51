// The G-code visualizer: a G-code file is read into a list of moves, and a timer
// then animates the tool along them, each move in eleven ticks, recording the tool
// path and, for cutting moves, the volume cut.
module GCodeViewer {
  import opened Common

  datatype Kind = Rapid | Linear | ArcCW | ArcCCW

  /** One move: its kind, its end point and, for an arc, the centre's offset from the start. */
  datatype Command = Command(kind: Kind, target: Vec3, i: real, j: real)

  /** QString::toFloat, kept abstract. */
  type FloatReader = string -> real

  // ---------------------------------------------------------------------
  // parseGCode and extractFloat

  /** QString::toUpper on the ASCII letters. */
  function Upper(c: char): (r: char) {
    if 'a' <= c <= 'z' then (c as int - 32) as char else c
  }

  function ToUpper(s: string): (r: string)
    ensures |r| == |s| && forall k :: 0 <= k < |s| ==> r[k] == Upper(s[k])
  {
    seq(|s|, k requires 0 <= k < |s| => Upper(s[k]))
  }

  /** The line as the parser sees it: trimmed, then upper-cased. */
  function Normalized(raw: string): (r: string) { ToUpper(Trimmed(raw)) }

  /** The prefixes tried in order G0, G1, G2, G3; any other line is not a move. */
  function KindOf(line: string): (r: Option<Kind>) {
    if "G0" <= line then Some(Rapid)
    else if "G1" <= line then Some(Linear)
    else if "G2" <= line then Some(ArcCW)
    else if "G3" <= line then Some(ArcCCW)
    else None
  }

  /** The separators of split(QRegExp("[ A-Z]")). */
  predicate IsBreak(c: char) { c == ' ' || 'A' <= c <= 'Z' }

  /** The first piece of the split: the text up to the first space or capital letter. */
  function FieldText(s: string): (r: string)
    ensures r <= s && (forall k :: 0 <= k < |r| ==> !IsBreak(r[k])) && (|r| < |s| ==> IsBreak(s[|r|]))
    decreases |s|
  {
    if |s| == 0 || IsBreak(s[0]) then [] else [s[0]] + FieldText(s[1..])
  }

  /** extractFloat: the number written after the key's first occurrence, 0 without one. */
  function ExtractFloat(line: string, key: char, toFloat: FloatReader): (r: real)
    ensures !Contains(line, [key]) ==> r == 0.0
  {
    var idx := IndexOf(line, [key]);
    if idx < 0 then 0.0 else toFloat(FieldText(line[idx + 1..]))
  }

  /** A word's value when the line holds the key, the fallback otherwise. */
  function Word(line: string, key: char, fallback: real, toFloat: FloatReader): (r: real) {
    if Contains(line, [key]) then ExtractFloat(line, key, toFloat) else fallback
  }

  /** The move a line describes, given the viewer's position; None for a line skipped. */
  function ParseLine(raw: string, pos: Vec3, toFloat: FloatReader): (r: Option<Command>) {
    var line := Normalized(raw);
    if |line| == 0 || line[0] == '(' then None
    else
      match KindOf(line)
      case None => None
      case Some(k) =>
        Some(Command(k, Vec3(Word(line, 'X', pos.x, toFloat), Word(line, 'Y', pos.y, toFloat), Word(line, 'Z', pos.z, toFloat)),
                     Word(line, 'I', 0.0, toFloat), Word(line, 'J', 0.0, toFloat)))
  }

  /** The move a line yields, if any. */
  function MoveOf(c: Option<Command>): (r: seq<Command>) {
    if c.Some? then [c.value] else []
  }

  /** The moves a line parser finds in the lines, in order. */
  function Moves(lines: seq<string>, parse: string -> Option<Command>): (r: seq<Command>)
    ensures |r| <= |lines|
    decreases |lines|
  {
    if |lines| == 0 then [] else Moves(lines[..|lines| - 1], parse) + MoveOf(parse(lines[|lines| - 1]))
  }

  /** The moves of the file's lines, in order. */
  function Parsed(lines: seq<string>, pos: Vec3, toFloat: FloatReader): (r: seq<Command>)
    ensures |r| <= |lines|
  {
    Moves(lines, raw => ParseLine(raw, pos, toFloat))
  }

  // ---------------------------------------------------------------------
  // step

  /** The number of interpolation steps; each move takes one tick more. */
  const MaxSubsteps: nat := 10

  /** The arc interpolation (centre, atan2 angles, radius, cos and sin), kept abstract: the
      point at fraction t of an arc command started at the given position. */
  type ArcPoint = (Vec3, Command, real) -> Vec3

  predicate IsArc(k: Kind) { k == ArcCW || k == ArcCCW }

  /** start * (1 - t) + target * t. */
  function Lerp(a: Vec3, b: Vec3, t: real): (r: Vec3) {
    Vec3(a.x * (1.0 - t) + b.x * t, a.y * (1.0 - t) + b.y * t, a.z * (1.0 - t) + b.z * t)
  }

  /** The viewer's animation state. */
  datatype Machine = Machine(cmds: seq<Command>, toolpath: seq<Vec3>, cutVolume: seq<Vec3>, position: Vec3,
                             index: int, playing: bool, substep: int, currentStart: Vec3,
                             currentCmd: Command, isArc: bool)

  /** The point of substep k of a move started at `start`. */
  function PointAt(start: Vec3, c: Command, arc: ArcPoint, k: int): (r: Vec3) {
    var t := k as real / MaxSubsteps as real;
    if IsArc(c.kind) then arc(start, c, t) else Lerp(start, c.target, t)
  }

  /** At substep 0 a tick first takes up the next move, starting from the position. */
  function Fetch(s: Machine): (r: Machine)
    requires 0 <= s.index < |s.cmds|
  {
    if s.substep == 0 then
      var c := s.cmds[s.index];
      s.(currentCmd := c, currentStart := s.position, isArc := IsArc(c.kind))
    else s
  }

  /** The point the current substep traces. */
  function Traced(s: Machine, arc: ArcPoint): (r: Vec3) {
    var t := s.substep as real / MaxSubsteps as real;
    if s.isArc then arc(s.currentStart, s.currentCmd, t) else Lerp(s.currentStart, s.currentCmd.target, t)
  }

  /** Then it traces the current move's point for the substep, and after the last substep
      the tool is at the target and the next move is up. */
  function Advance(s: Machine, p: Vec3): (r: Machine) {
    var cut := if s.currentCmd.kind != Rapid then s.cutVolume + [p] else s.cutVolume;
    if s.substep + 1 > MaxSubsteps then
      s.(toolpath := s.toolpath + [p], cutVolume := cut, position := s.currentCmd.target, index := s.index + 1, substep := 0)
    else s.(toolpath := s.toolpath + [p], cutVolume := cut, substep := s.substep + 1)
  }

  /** One timer tick: nothing while paused or past the last move. */
  function Tick(s: Machine, arc: ArcPoint): (r: Machine)
    ensures r.cmds == s.cmds && r.playing == s.playing
    ensures !s.playing || !(0 <= s.index < |s.cmds|) ==> r == s
    ensures s.playing && 0 <= s.index < |s.cmds| ==> |r.toolpath| == |s.toolpath| + 1 && r.toolpath[..|s.toolpath|] == s.toolpath
  {
    if !s.playing || s.index >= |s.cmds| || s.index < 0 then s else Advance(Fetch(s), Traced(Fetch(s), arc))
  }

  /** n ticks in a row. */
  function Ticks(s: Machine, arc: ArcPoint, n: nat): (r: Machine)
    decreases n
  {
    if n == 0 then s else Tick(Ticks(s, arc, n - 1), arc)
  }

  /** The points a move leaves on the tool path, substeps 0 to MaxSubsteps. */
  function Sweep(start: Vec3, c: Command, arc: ArcPoint, n: nat): (r: seq<Vec3>)
    ensures |r| == n
  {
    seq(n, k requires 0 <= k < n => PointAt(start, c, arc, k))
  }

  /** The machine k ticks into the move at s.index, taken up from substep 0: the move
      is the current one, nothing has moved and k points were traced. */
  function InMove(s: Machine, arc: ArcPoint, k: nat): (r: Machine)
    requires 0 <= s.index < |s.cmds|
  {
    var c := s.cmds[s.index];
    var w := Sweep(s.position, c, arc, k);
    s.(currentCmd := c, currentStart := s.position, isArc := IsArc(c.kind),
       toolpath := s.toolpath + w, cutVolume := if c.kind == Rapid then s.cutVolume else s.cutVolume + w,
       substep := k)
  }

  /** The ticks inside a move: after k ticks (k <= MaxSubsteps) of a move that starts at
      substep 0, the machine is InMove(s, arc, k). */
  lemma {:induction false} PartialRun(s: Machine, arc: ArcPoint, k: nat)
    requires s.playing && 0 <= s.index < |s.cmds| && s.substep == 0 && 1 <= k <= MaxSubsteps
    ensures Ticks(s, arc, k) == InMove(s, arc, k)
    decreases k
  {
    var c := s.cmds[s.index];
    if k == 1 {
      assert Ticks(s, arc, 1) == Tick(s, arc);
      FirstTick(s, arc);
      assert Sweep(s.position, c, arc, 1) == [PointAt(s.position, c, arc, 0)];
    } else {
      PartialRun(s, arc, k - 1);
      assert Ticks(s, arc, k) == Tick(Ticks(s, arc, k - 1), arc);
      InMoveNext(s, arc, k - 1);
    }
  }

  /** One tick inside a move goes from InMove(s, arc, j) to InMove(s, arc, j + 1). */
  lemma InMoveNext(s: Machine, arc: ArcPoint, j: nat)
    requires s.playing && 0 <= s.index < |s.cmds| && 1 <= j < MaxSubsteps
    ensures Tick(InMove(s, arc, j), arc) == InMove(s, arc, j + 1)
  {
    var c := s.cmds[s.index];
    var q := InMove(s, arc, j);
    var p := PointAt(s.position, c, arc, j);
    MidTick(q, arc);
    SweepSnoc(s.position, c, arc, j);
    var w := Sweep(s.position, c, arc, j);
    AppendAssoc(s.toolpath, w, [p]);
    AppendAssoc(s.cutVolume, w, [p]);
  }

  /** The first tick of a move takes it up and traces its starting point. */
  lemma FirstTick(s: Machine, arc: ArcPoint)
    requires s.playing && 0 <= s.index < |s.cmds| && s.substep == 0
    ensures var c := s.cmds[s.index]; var p := PointAt(s.position, c, arc, 0);
      Tick(s, arc) == s.(currentCmd := c, currentStart := s.position, isArc := IsArc(c.kind),
                         toolpath := s.toolpath + [p],
                         cutVolume := if c.kind == Rapid then s.cutVolume else s.cutVolume + [p],
                         substep := 1)
  {
    var c := s.cmds[s.index];
    var f := Fetch(s);
    assert Traced(f, arc) == PointAt(s.position, c, arc, 0);
  }

  /** A tick inside a move traces the move's point for the substep and counts it. */
  lemma MidTick(q: Machine, arc: ArcPoint)
    requires q.playing && 0 <= q.index < |q.cmds| && 1 <= q.substep < MaxSubsteps
    requires q.isArc == IsArc(q.currentCmd.kind)
    ensures var c := q.currentCmd; var p := PointAt(q.currentStart, c, arc, q.substep);
      Tick(q, arc) == q.(toolpath := q.toolpath + [p],
                         cutVolume := if c.kind == Rapid then q.cutVolume else q.cutVolume + [p],
                         substep := q.substep + 1)
  {
    assert Fetch(q) == q;
  }

  /** A whole move: MaxSubsteps + 1 ticks trace its sweep, then the tool is at the target,
      the next move is up and the substep is back to 0; only cutting moves add to the cut
      volume. */
  lemma CommandRun(s: Machine, arc: ArcPoint, n: nat)
    requires s.playing && 0 <= s.index < |s.cmds| && s.substep == 0 && n == MaxSubsteps + 1
    ensures var r := Ticks(s, arc, n); var c := s.cmds[s.index];
      r.cmds == s.cmds && r.playing && r.index == s.index + 1 && r.substep == 0 && r.position == c.target
      && r.toolpath == s.toolpath + Sweep(s.position, c, arc, n)
      && r.cutVolume == s.cutVolume + (if c.kind == Rapid then [] else Sweep(s.position, c, arc, n))
  {
    var c := s.cmds[s.index];
    PartialRun(s, arc, n - 1);
    var q := Ticks(s, arc, n - 1);
    assert Ticks(s, arc, n) == Tick(q, arc);
    LastTick(q, arc);
    SweepSnoc(s.position, c, arc, n - 1);
    var p := PointAt(s.position, c, arc, n - 1);
    var w := Sweep(s.position, c, arc, n - 1);
    AppendAssoc(s.toolpath, w, [p]);
    AppendAssoc(s.cutVolume, w, [p]);
  }

  lemma SweepSnoc(start: Vec3, c: Command, arc: ArcPoint, n: nat)
    ensures Sweep(start, c, arc, n + 1) == Sweep(start, c, arc, n) + [PointAt(start, c, arc, n)]
  {
    assert Sweep(start, c, arc, n + 1)[..n] == Sweep(start, c, arc, n);
  }

  /** The last tick of a move traces its final point and moves on to the next one. */
  lemma LastTick(q: Machine, arc: ArcPoint)
    requires q.playing && 0 <= q.index < |q.cmds| && q.substep == MaxSubsteps
    requires q.isArc == IsArc(q.currentCmd.kind)
    ensures var r := Tick(q, arc); var c := q.currentCmd; var p := PointAt(q.currentStart, c, arc, MaxSubsteps);
      r.cmds == q.cmds && r.playing && r.index == q.index + 1 && r.substep == 0 && r.position == c.target
      && r.toolpath == q.toolpath + [p] && r.cutVolume == q.cutVolume + (if c.kind == Rapid then [] else [p])
  {
  }

  /** A straight move's sweep starts at the start point and ends on the target. */
  lemma LinearEnds(start: Vec3, c: Command, arc: ArcPoint)
    requires !IsArc(c.kind)
    ensures var w := Sweep(start, c, arc, MaxSubsteps + 1); w[0] == start && w[MaxSubsteps] == c.target
  {
    var w := Sweep(start, c, arc, MaxSubsteps + 1);
    assert w[0] == Lerp(start, c.target, 0.0);
    assert w[MaxSubsteps] == Lerp(start, c.target, 1.0);
  }

  /** The viewer widget's parsing and animation state. */
  class Viewer {
    var cmds: seq<Command>
    var toolpath: seq<Vec3>
    var cutVolume: seq<Vec3>
    var position: Vec3
    var index: int
    var playing: bool
    var substep: int
    var currentStart: Vec3
    var currentCmd: Command
    var isArc: bool

    function State(): (r: Machine)
      reads this
    {
      Machine(cmds, toolpath, cutVolume, position, index, playing, substep, currentStart, currentCmd, isArc)
    }

    /** The viewer reads its file on construction; a missing file leaves no moves. */
    constructor(file: Option<seq<string>>, toFloat: FloatReader)
      ensures State() == Machine(if file.Some? then Parsed(file.value, Origin, toFloat) else [], [], [], Origin,
                                 0, true, 0, Origin, Command(Rapid, Origin, 0.0, 0.0), false)
    {
      cmds := [];
      toolpath := [];
      cutVolume := [];
      position := Origin;
      index := 0;
      playing := true;
      substep := 0;
      currentStart := Origin;
      currentCmd := Command(Rapid, Origin, 0.0, 0.0);
      isArc := false;
      new;
      ParseGCode(file, toFloat);
    }

    /** parseGCode: every move line is appended to the list, missing coordinates taken from
        the current position. */
    method ParseGCode(file: Option<seq<string>>, toFloat: FloatReader)
      modifies this
      ensures State() == old(State()).(cmds := old(cmds) + (if file.Some? then Parsed(file.value, position, toFloat) else []))
    {
      if file.None? {
        return;
      }
      var lines := file.value;
      var n := 0;
      while n < |lines|
        invariant 0 <= n <= |lines|
        invariant cmds == old(cmds) + Parsed(lines[..n], position, toFloat)
        invariant toolpath == old(toolpath) && cutVolume == old(cutVolume) && position == old(position)
        invariant index == old(index) && playing == old(playing) && substep == old(substep)
        invariant currentStart == old(currentStart) && currentCmd == old(currentCmd) && isArc == old(isArc)
      {
        ParsedNext(lines, n, position, toFloat);
        AppendAssoc(old(cmds), Parsed(lines[..n], position, toFloat), MoveOf(ParseLine(lines[n], position, toFloat)));
        ParseOne(lines[n], toFloat);
        n := n + 1;
      }
      assert lines[..n] == lines;
    }

    /** One line of the file: its move, if it is one, appended to the list. */
    method ParseOne(raw: string, toFloat: FloatReader)
      modifies this
      ensures State() == old(State()).(cmds := old(cmds) + MoveOf(ParseLine(raw, position, toFloat)))
    {
      var cmd := ParseLine(raw, position, toFloat);
      if cmd.Some? {
        cmds := cmds + [cmd.value];
      }
    }

    /** step: one tick of the animation. */
    method Step(arc: ArcPoint)
      modifies this
      ensures State() == Tick(old(State()), arc)
    {
      if !playing || index >= |cmds| || index < 0 {
        return;
      }
      if substep == 0 {
        TakeUpMove();
      }
      TraceSubstep(arc);
    }

    /** The set-up at substep 0: the next move becomes the current one. */
    method TakeUpMove()
      requires 0 <= index < |cmds| && substep == 0
      modifies this
      ensures State() == Fetch(old(State()))
    {
      currentCmd := cmds[index];
      currentStart := position;
      isArc := currentCmd.kind == ArcCW || currentCmd.kind == ArcCCW;
    }

    /** The interpolation of the current substep. */
    method TraceSubstep(arc: ArcPoint)
      modifies this
      ensures State() == Advance(old(State()), Traced(old(State()), arc))
    {
      var t := substep as real / MaxSubsteps as real;
      var interpPos := if isArc then arc(currentStart, currentCmd, t) else Lerp(currentStart, currentCmd.target, t);
      Record(interpPos);
    }

    /** The tool path and cut volume appends and the substep count. */
    method Record(interpPos: Vec3)
      modifies this
      ensures State() == Advance(old(State()), interpPos)
    {
      toolpath := toolpath + [interpPos];
      if currentCmd.kind == Linear || currentCmd.kind == ArcCW || currentCmd.kind == ArcCCW {
        cutVolume := cutVolume + [interpPos];
      }
      substep := substep + 1;
      if substep > MaxSubsteps {
        position := currentCmd.target;
        index := index + 1;
        substep := 0;
      }
    }
  }

  // ---------------------------------------------------------------------
  // Properties of the parser

  /** One more line read adds that line's move, if it is one. */
  lemma ParsedNext(lines: seq<string>, n: nat, pos: Vec3, toFloat: FloatReader)
    requires n < |lines|
    ensures Parsed(lines[..n + 1], pos, toFloat) == Parsed(lines[..n], pos, toFloat) + MoveOf(ParseLine(lines[n], pos, toFloat))
  {
    assert lines[..n + 1][..n] == lines[..n];
  }

  /** Empty lines and comments are skipped; other lines are moves exactly when they start
      with G0, G1, G2 or G3, in that order of testing. */
  lemma ParseLineKinds(raw: string, pos: Vec3, toFloat: FloatReader)
    ensures var line := Normalized(raw);
      ParseLine(raw, pos, toFloat).Some? <==> |line| > 0 && line[0] != '(' && KindOf(line).Some?
    ensures var line := Normalized(raw);
      ParseLine(raw, pos, toFloat).Some? ==> ParseLine(raw, pos, toFloat).value.kind == KindOf(line).value
  {
  }

  /** A prefix test, not a word match: "G01" is a rapid and "G21" a clockwise arc. */
  lemma PrefixQuirks(rest: string)
    ensures KindOf("G01" + rest) == Some(Rapid)
    ensures KindOf("G21" + rest) == Some(ArcCW)
    ensures KindOf("G90" + rest) == None
  {
    assert "G0" <= "G01" + rest;
    assert ("G21" + rest)[1] == '2';
    assert "G2" <= "G21" + rest;
    assert ("G90" + rest)[1] == '9';
  }

  /** Missing X, Y and Z come from the position given; I and J default to 0. */
  lemma MissingWords(raw: string, pos: Vec3, toFloat: FloatReader)
    requires ParseLine(raw, pos, toFloat).Some?
    ensures var line := Normalized(raw); var c := ParseLine(raw, pos, toFloat).value;
      (!Contains(line, "X") ==> c.target.x == pos.x) && (!Contains(line, "Y") ==> c.target.y == pos.y)
      && (!Contains(line, "Z") ==> c.target.z == pos.z)
      && (!Contains(line, "I") ==> c.i == 0.0) && (!Contains(line, "J") ==> c.j == 0.0)
  {
  }

  /** The value read for a key is the text after its first occurrence, up to the next
      space or capital letter. */
  lemma ExtractFloatReads(line: string, key: char, toFloat: FloatReader)
    requires Contains(line, [key])
    ensures var idx := IndexOf(line, [key]);
      0 <= idx < |line| && line[idx] == key && (forall k :: 0 <= k < idx ==> line[k] != key)
      && ExtractFloat(line, key, toFloat) == toFloat(FieldText(line[idx + 1..]))
  {
    var idx := IndexOf(line, [key]);
    assert line[idx..idx + 1] == [key];
    forall k | 0 <= k < idx ensures line[k] != key {
      assert !([key] <= line[k..]);
    }
  }

  /** Every move comes from one line, in order: the moves of a file are those of its first
      lines followed by those of the rest. */
  lemma ParsedAppend(a: seq<string>, b: seq<string>, pos: Vec3, toFloat: FloatReader)
    ensures Parsed(a + b, pos, toFloat) == Parsed(a, pos, toFloat) + Parsed(b, pos, toFloat)
  {
    MovesAppend(a, b, raw => ParseLine(raw, pos, toFloat));
  }

  lemma {:induction false} MovesAppend(a: seq<string>, b: seq<string>, parse: string -> Option<Command>)
    ensures Moves(a + b, parse) == Moves(a, parse) + Moves(b, parse)
    decreases |b|
  {
    if |b| == 0 {
      assert a + b == a;
    } else {
      var init := b[..|b| - 1];
      MovesAppend(a, init, parse);
      assert (a + b)[..|a + b| - 1] == a + init;
      assert (a + b)[|a + b| - 1] == b[|b| - 1];
    }
  }
}
