// gTalker: microphone pitch turned into G-code tunes. Audio samples are kept in a
// bounded ring buffer, the analysis window is its most recent samples, and a detected
// pitch becomes either a beeper note, a stepper tone (an X stroke at the feed rate whose
// step frequency is the pitch) or a square "shape tune" of eight scale notes.
module GTalker {
  import opened Common
  import opened GText

  // ---------------------------------------------------------------------
  // The ring buffer

  /** A 16-bit PCM sample. */
  type Sample = x: int | -0x8000 <= x < 0x8000

  /** The default capacity: one second at 48 kHz. */
  const DefaultCapacity: nat := 48000

  /** The most recent `cap` samples of s (all of s when it is not longer). */
  function Recent(s: seq<Sample>, cap: nat): (r: seq<Sample>)
    ensures |r| == if |s| <= cap then |s| else cap
    ensures r == s[|s| - |r|..]
  {
    if |s| <= cap then s else s[|s| - cap..]
  }

  /** One push step, as the loop does it: append, then drop the oldest if over capacity. */
  lemma RecentStep(s: seq<Sample>, x: Sample, cap: nat)
    ensures var t := Recent(s, cap) + [x];
      Recent(s + [x], cap) == if |t| > cap then t[1..] else t
  {
    var t := Recent(s, cap) + [x];
    if |s| + 1 > cap {
      assert Recent(s + [x], cap) == (s + [x])[|s| + 1 - cap..];
      if |s| <= cap {
        assert t[1..] == (s + [x])[|s| + 1 - cap..];
      } else {
        assert t[1..] == (s + [x])[|s| + 1 - cap..];
      }
    }
  }

  /** Pushing a and then b keeps what pushing a + b at once keeps. */
  lemma RecentCompose(s: seq<Sample>, a: seq<Sample>, b: seq<Sample>, cap: nat)
    ensures Recent(Recent(s + a, cap) + b, cap) == Recent(s + a + b, cap)
  {
    var u := s + a;
    var r := Recent(u, cap);
    assert (r + b) == (u + b)[|u| - |r|..];
    assert u + b == s + a + b;
  }

  /** The last m samples of what the buffer keeps are the last m samples ever pushed. */
  lemma WindowOfRecent(s: seq<Sample>, cap: nat, m: nat)
    requires m <= |Recent(s, cap)|
    ensures var r := Recent(s, cap); r[|r| - m..] == s[|s| - m..]
  {
  }

  /** RingBuffer: a deque of at most `cap` samples. */
  class RingBuffer {
    var buf: seq<Sample>
    const cap: nat

    ghost predicate Valid()
      reads this
    {
      |buf| <= cap
    }

    constructor(cap: nat)
      ensures Valid() && buf == [] && this.cap == cap
    {
      this.cap := cap;
      buf := [];
    }

    /** push: each sample is appended and, when the deque is over capacity, the oldest
        one dropped; the buffer then holds the most recent samples in arrival order. */
    method Push(data: seq<Sample>)
      requires Valid()
      modifies this
      ensures Valid() && buf == Recent(old(buf) + data, cap)
    {
      ghost var start := buf;
      var i := 0;
      while i < |data|
        invariant 0 <= i <= |data|
        invariant buf == Recent(start + data[..i], cap)
      {
        TakeSnoc(data, i);
        AppendAssoc(start, data[..i], [data[i]]);
        PushOne(start + data[..i], data[i]);
        i := i + 1;
      }
      assert data[..i] == data;
    }

    /** One sample of push: appended, then the oldest dropped if over capacity. */
    method PushOne(ghost pushed: seq<Sample>, x: Sample)
      requires buf == Recent(pushed, cap)
      modifies this
      ensures buf == Recent(pushed + [x], cap)
    {
      RecentStep(pushed, x, cap);
      buf := buf + [x];
      if |buf| > cap {
        buf := buf[1..];
      }
    }

    /** lastWindow: the min(n, size) most recent samples, oldest first, each scaled by
        invScale; the buffer is left alone. */
    method LastWindow(n: int, invScale: real) returns (out: seq<real>)
      requires 0 <= n
      ensures |out| == if n < |buf| then n else |buf|
      ensures forall i :: 0 <= i < |out| ==> out[i] == buf[|buf| - |out| + i] as real * invScale
    {
      var m := if n < |buf| then n else |buf|;
      var a := new real[m];
      var it := |buf|;
      var i := m - 1;
      while i >= 0
        invariant -1 <= i < m && it == |buf| - (m - 1 - i)
        invariant forall j :: i < j < m ==> a[j] == buf[|buf| - m + j] as real * invScale
      {
        it := it - 1;
        a[i] := buf[it] as real * invScale;
        i := i - 1;
      }
      out := a[..];
    }
  }

  // ---------------------------------------------------------------------
  // Pitch to feed rate

  /** The step frequency (Hz) a feed rate (mm/min) gives on an axis with the given
      steps per millimetre. */
  function StepRate(feed: real, stepsPerMm: real): (r: real) {
    feed / 60.0 * stepsPerMm
  }

  /** freqToFeed: the feed rate whose step frequency is freqHz; 0 when either input is
      not positive. */
  function FreqToFeed(freqHz: real, stepsPerMm: real): (r: real)
    ensures freqHz <= 0.0 || stepsPerMm <= 0.0 ==> r == 0.0
    ensures freqHz > 0.0 && stepsPerMm > 0.0 ==> r > 0.0
  {
    if freqHz <= 0.0 || stepsPerMm <= 0.0 then 0.0 else freqHz / stepsPerMm * 60.0
  }

  /** The feed rate chosen for a pitch reproduces that pitch as a step frequency. */
  lemma FeedGivesPitch(freqHz: real, stepsPerMm: real)
    requires freqHz > 0.0 && stepsPerMm > 0.0
    ensures StepRate(FreqToFeed(freqHz, stepsPerMm), stepsPerMm) == freqHz
  {
    calc {
      StepRate(FreqToFeed(freqHz, stepsPerMm), stepsPerMm);
      (freqHz / stepsPerMm * 60.0) / 60.0 * stepsPerMm;
      freqHz / stepsPerMm * stepsPerMm;
    }
  }

  // ---------------------------------------------------------------------
  // The tunes

  /** The widget settings the tunes read. */
  datatype Knobs = Knobs(stepsPerMm: real, strokeMm: real, durationMs: int)

  /** The spin box ranges. */
  predicate KnobsInRange(k: Knobs) {
    10.0 <= k.stepsPerMm <= 2000.0 && 0.1 <= k.strokeMm <= 20.0 && 50 <= k.durationMs <= 20000
  }

  /** rootHz * 2^(semitones / 12) in single precision, kept abstract. */
  type Transpose = (real, int) -> real

  /** The major-scale degrees of the shape tunes, in semitones above the root. */
  const Degrees: seq<int> := [0, 2, 4, 5, 7, 9, 11, 12]

  /** The stepper-tone feed: the pitch's feed scaled by 1 + 2 * amplitude (clamped to
      [0.5, 3]) and then clamped to [30, 12000] mm/min. */
  function StepperFeed(f: real, amp: real, stepsPerMm: real): (r: real)
    ensures 30.0 <= r <= 12000.0
    ensures 30.0 <= FreqToFeed(f, stepsPerMm) * Clamp(1.0 + 2.0 * amp, 0.5, 3.0) <= 12000.0 ==>
      r == FreqToFeed(f, stepsPerMm) * Clamp(1.0 + 2.0 * amp, 0.5, 3.0)
  {
    Clamp(FreqToFeed(f, stepsPerMm) * Clamp(1.0 + 2.0 * amp, 0.5, 3.0), 30.0, 12000.0)
  }

  /** X coordinate of a stroke move: the far end dx or the home end 0. */
  function StrokeX(far: bool, dx: real): (r: real) {
    if far then dx else 0.0
  }

  /** One stepper note: the feed, out (or home when `back`), the dwell, and the return. */
  function StepperLines(feed: real, dx: real, back: bool, dur: int): (r: seq<Line>) {
    [Line([Lit("G1 F"), F(feed, 1)]),
     Line([Lit("G1 X"), F(StrokeX(!back, dx), 3)]),
     Line([Lit("G4 P"), Int(dur)]),
     Line([Lit("G1 X"), F(StrokeX(back, dx), 3)])]
  }

  /** A stepper note ends where the next one (with `back` flipped) starts. */
  lemma NoteEndsWhereNextBegins(feed1: real, feed2: real, dx: real, back: bool, dur: int)
    ensures StepperLines(feed1, dx, back, dur)[3] == StepperLines(feed2, dx, !back, dur)[1]
  {
  }

  /** The beeper note "M300 S<round(f)> P<dur>". */
  function BeeperLine(f: real, dur: int): (r: Line) {
    Line([Lit("M300 S"), Int(RoundHalfAway(f)), Lit(" P"), Int(dur)])
  }

  /** The pen's start, (0, 0). */
  const Home: Point2 := Point2(0.0, 0.0)

  /** The four sides of the square, as displacements, for a side s. */
  function Sides(s: real): (r: seq<Point2>)
    ensures |r| == 4
  {
    [Point2(s, 0.0), Point2(0.0, s), Point2(-s, 0.0), Point2(0.0, -s)]
  }

  /** Where move k (0-based) of the square tune ends, for a side s: the corners of the
      square in order, the fourth of each lap being the origin. */
  function Corner(k: nat, s: real): (r: Point2)
    ensures k % 4 == 3 ==> r == Home
  {
    var j := k % 4;
    if j == 0 then Point2(s, 0.0) else if j == 1 then Point2(s, s)
    else if j == 2 then Point2(0.0, s) else Home
  }

  /** Each corner is the previous position plus that move's side: walking the sides from
      the origin visits exactly the corners. */
  lemma SquareWalk(k: nat, s: real)
    ensures Corner(k, s) == AddP(if k % 4 == 0 then Home else Corner(k - 1, s), Sides(s)[k % 4])
  {
  }

  /** The square's side: twice the stroke, at least 1 mm. */
  function Side(strokeMm: real): (r: real)
    ensures r >= 1.0 && r >= 2.0 * strokeMm
  {
    2.0 * MaxR(0.5, strokeMm)
  }

  /** The feed of move k: its scale degree's pitch, clamped to [30, 6000] mm/min. */
  function SquareFeed(k: nat, rootHz: real, pitch: Transpose, stepsPerMm: real): (r: real)
    ensures 30.0 <= r <= 6000.0
  {
    Clamp(FreqToFeed(pitch(rootHz, Degrees[k % 8]), stepsPerMm), 30.0, 6000.0)
  }

  /** The three lines of one move: feed, move to the corner, dwell. */
  function MoveLines(feed: real, p: Point2, dur: int): (r: seq<Line>) {
    [Line([Lit("G1 F"), F(feed, 1)]),
     Line([Lit("G1 X"), F(p.x, 3), Lit(" Y"), F(p.y, 3)]),
     Line([Lit("G4 P"), Int(dur)])]
  }

  /** The lines of the first n moves. */
  function SquareMoves(n: nat, rootHz: real, pitch: Transpose, k: Knobs): (r: seq<Line>) {
    if n == 0 then [] else
      SquareMoves(n - 1, rootHz, pitch, k)
      + MoveLines(SquareFeed(n - 1, rootHz, pitch, k.stepsPerMm), Corner(n - 1, Side(k.strokeMm)), k.durationMs)
  }

  const ShapeStart: string := "; --- Shape tune ---"
  const ShapeEnd: string := "; --- end shape ---"

  /** The square tune: the markers, a rapid to the origin and the eight moves. */
  function SquareTune(rootHz: real, pitch: Transpose, k: Knobs): (r: seq<Line>) {
    [T(ShapeStart), T("G0 X0 Y0")] + SquareMoves(8, rootHz, pitch, k) + [T(ShapeEnd)]
  }

  /** Move j's three lines sit at 3j in the moves, with its degree's feed and corner. */
  lemma {:induction false} SquareMovesAt(n: nat, rootHz: real, pitch: Transpose, k: Knobs, j: nat)
    requires j < n
    ensures |SquareMoves(n, rootHz, pitch, k)| == 3 * n
    ensures SquareMoves(n, rootHz, pitch, k)[3 * j..3 * j + 3]
      == MoveLines(SquareFeed(j, rootHz, pitch, k.stepsPerMm), Corner(j, Side(k.strokeMm)), k.durationMs)
  {
    SquareMovesLength(n, rootHz, pitch, k);
    if j < n - 1 {
      SquareMovesAt(n - 1, rootHz, pitch, k, j);
      EarlierMove(n, rootHz, pitch, k, j);
    } else {
      LastMove(n, rootHz, pitch, k);
    }
  }

  /** Appending a move leaves the earlier moves' lines in place. */
  lemma EarlierMove(n: nat, rootHz: real, pitch: Transpose, k: Knobs, j: nat)
    requires j + 1 < n
    ensures 3 * j + 3 <= |SquareMoves(n - 1, rootHz, pitch, k)|
    ensures SquareMoves(n, rootHz, pitch, k)[3 * j..3 * j + 3] == SquareMoves(n - 1, rootHz, pitch, k)[3 * j..3 * j + 3]
  {
    var prev := SquareMoves(n - 1, rootHz, pitch, k);
    SquareMovesLength(n - 1, rootHz, pitch, k);
    SliceAppendLeft(prev, MoveLines(SquareFeed(n - 1, rootHz, pitch, k.stepsPerMm), Corner(n - 1, Side(k.strokeMm)), k.durationMs), 3 * j, 3 * j + 3);
  }

  /** The last move's lines close the sequence. */
  lemma LastMove(n: nat, rootHz: real, pitch: Transpose, k: Knobs)
    requires 0 < n
    ensures 3 * n <= |SquareMoves(n, rootHz, pitch, k)|
    ensures SquareMoves(n, rootHz, pitch, k)[3 * (n - 1)..3 * n]
      == MoveLines(SquareFeed(n - 1, rootHz, pitch, k.stepsPerMm), Corner(n - 1, Side(k.strokeMm)), k.durationMs)
  {
    var prev := SquareMoves(n - 1, rootHz, pitch, k);
    var last := MoveLines(SquareFeed(n - 1, rootHz, pitch, k.stepsPerMm), Corner(n - 1, Side(k.strokeMm)), k.durationMs);
    SquareMovesLength(n - 1, rootHz, pitch, k);
    SliceAppendRight(prev, last, 0, 3);
    assert last[0..3] == last;
  }

  /** Three lines per move. */
  lemma {:induction false} SquareMovesLength(n: nat, rootHz: real, pitch: Transpose, k: Knobs)
    ensures |SquareMoves(n, rootHz, pitch, k)| == 3 * n
  {
    if n > 0 {
      SquareMovesLength(n - 1, rootHz, pitch, k);
    }
  }

  /** The square tune has 27 lines: the two markers, the rapid home, then the moves. */
  lemma SquareTuneFrame(rootHz: real, pitch: Transpose, k: Knobs)
    ensures var t := SquareTune(rootHz, pitch, k);
      |t| == 27 && t[0] == T(ShapeStart) && t[1] == T("G0 X0 Y0") && t[26] == T(ShapeEnd)
  {
    SquareMovesAt(8, rootHz, pitch, k, 0);
  }

  /** Move j of the tune goes to corner j at the feed of scale degree Degrees[j]; moves
      4 and 8 end at home, so each lap closes. */
  lemma SquareTuneMove(rootHz: real, pitch: Transpose, k: Knobs, j: nat)
    requires j < 8
    ensures var t := SquareTune(rootHz, pitch, k); var c := Corner(j, Side(k.strokeMm));
      |t| == 27
      && t[2 + 3 * j] == Line([Lit("G1 F"), F(Clamp(FreqToFeed(pitch(rootHz, Degrees[j]), k.stepsPerMm), 30.0, 6000.0), 1)])
      && t[3 + 3 * j] == Line([Lit("G1 X"), F(c.x, 3), Lit(" Y"), F(c.y, 3)])
      && (j == 3 || j == 7 ==> c == Home)
  {
    var moves := SquareMoves(8, rootHz, pitch, k);
    var c := Corner(j, Side(k.strokeMm));
    MoveLinesIn(rootHz, pitch, k, j);
    assert j % 8 == j;
    var head := [T(ShapeStart), T("G0 X0 Y0")];
    FramedIndex(head, moves, [T(ShapeEnd)], 3 * j);
    FramedIndex(head, moves, [T(ShapeEnd)], 3 * j + 1);
  }

  /** The feed and move lines of move j, within the eight moves. */
  lemma MoveLinesIn(rootHz: real, pitch: Transpose, k: Knobs, j: nat)
    requires j < 8
    ensures var moves := SquareMoves(8, rootHz, pitch, k); var c := Corner(j, Side(k.strokeMm));
      |moves| == 24
      && moves[3 * j] == Line([Lit("G1 F"), F(SquareFeed(j, rootHz, pitch, k.stepsPerMm), 1)])
      && moves[3 * j + 1] == Line([Lit("G1 X"), F(c.x, 3), Lit(" Y"), F(c.y, 3)])
  {
    var moves := SquareMoves(8, rootHz, pitch, k);
    SquareMovesAt(8, rootHz, pitch, k, j);
    SliceIndex(moves, 3 * j, 3 * j + 3, 0);
    SliceIndex(moves, 3 * j, 3 * j + 3, 1);
  }

  const Title: string := "; G\U{2011}code Voice Player"
  const Absolute: string := "G90 ; absolute"
  const Millimetres: string := "G21 ; mm"

  /** The text the window appends to its G-code view when it opens. */
  const HeaderText: string := Title + "\n" + Absolute + "\n" + Millimetres + "\n"

  /** The view's blocks after that append: the three header lines and the empty
      block the trailing newline leaves. */
  const ViewHeader: seq<Line> := [T(Title), T(Absolute), T(Millimetres), T("")]

  /** The header blocks are exactly the appended text cut at its line breaks,
      so the view sets absolute coordinates and millimetres before any tune. */
  lemma ViewHeaderIsText(f: Fmt)
    ensures |ViewHeader| == |Split(HeaderText, '\n')|
    ensures forall i :: 0 <= i < |ViewHeader| ==> LineText(ViewHeader[i], f) == Split(HeaderText, '\n')[i]
    ensures LineText(ViewHeader[1], f) == "G90 ; absolute" && LineText(ViewHeader[2], f) == "G21 ; mm"
  {
    HeaderLines();
    LitText(Title, f);
    LitText(Absolute, f);
    LitText(Millimetres, f);
    LitText("", f);
  }

  /** The appended text holds three lines and ends with a line break. */
  lemma HeaderLines()
    ensures Split(HeaderText, '\n') == [Title, Absolute, Millimetres, ""]
  {
    var rest := Absolute + "\n" + (Millimetres + "\n" + "");
    assert HeaderText == Title + "\n" + rest;
    NoBreaks();
    SplitAfterLine(Millimetres, "");
    SplitAfterLine(Absolute, Millimetres + "\n" + "");
    SplitAfterLine(Title, rest);
  }

  /** The three header lines hold no line break. */
  lemma NoBreaks()
    ensures '\n' !in Title && '\n' !in Absolute && '\n' !in Millimetres
  {
  }

  /** A literal line renders as its text. */
  lemma LitText(s: string, f: Fmt)
    ensures LineText(T(s), f) == s
  {
    var ps := [Lit(s)];
    assert ps[1..] == [];
    assert PiecesText(ps, f) == s + PiecesText([], f);
  }

  /** The part of the main window the tunes touch: the G-code view and the stroke direction. */
  class Talker {
    var gcode: seq<Line>
    var back: bool

    /** The view opens holding the header; strokes start forward. */
    constructor()
      ensures gcode == ViewHeader && !back
    {
      gcode := ViewHeader;
      back := false;
    }

    /** Beeper mode: "M300 S<f> P<dur>" for a detected pitch, nothing otherwise. */
    method BeeperTone(f: real, k: Knobs)
      modifies this
      ensures back == old(back)
      ensures gcode == if f > 0.0 then old(gcode) + [BeeperLine(f, k.durationMs)] else old(gcode)
    {
      if f > 0.0 {
        gcode := gcode + [BeeperLine(f, k.durationMs)];
      }
    }

    /** Stepper mode: for a detected pitch, one stroke note at the clamped feed and
        `back` flipped; nothing at all otherwise. */
    method StepperTone(f: real, amp: real, k: Knobs)
      requires KnobsInRange(k)
      modifies this
      ensures f > 0.0 ==>
        gcode == old(gcode) + StepperLines(StepperFeed(f, amp, k.stepsPerMm), k.strokeMm, old(back), k.durationMs)
        && back == !old(back)
      ensures f <= 0.0 ==> gcode == old(gcode) && back == old(back)
    {
      var steps := k.stepsPerMm;
      var feed := FreqToFeed(f, steps);
      var gain := Clamp(1.0 + 2.0 * amp, 0.5, 3.0);
      feed := Clamp(feed * gain, 30.0, 12000.0);
      var dx := k.strokeMm;
      if f > 0.0 {
        gcode := gcode + [Line([Lit("G1 F"), F(feed, 1)]),
          Line([Lit("G1 X"), F(if back then 0.0 else dx, 3)]),
          Line([Lit("G4 P"), Int(k.durationMs)]),
          Line([Lit("G1 X"), F(if back then dx else 0.0, 3)])];
        assert feed == StepperFeed(f, amp, k.stepsPerMm);
        assert StrokeX(!back, dx) == (if back then 0.0 else dx);
        back := !back;
      }
    }

    /** analyzeHop after the analysis: the mode picks the beeper, the stepper tone or the
        square tune, the last rooted at the detected pitch or at 440 Hz without one. The
        circle tune (mode 2) is not part of this model. */
    method AnalyzeHop(mode: int, f: real, amp: real, k: Knobs, pitch: Transpose)
      requires KnobsInRange(k) && 0 <= mode <= 3 && mode != 2
      modifies this
      ensures mode == 0 ==>
        back == old(back) && gcode == if f > 0.0 then old(gcode) + [BeeperLine(f, k.durationMs)] else old(gcode)
      ensures mode == 1 && f > 0.0 ==>
        gcode == old(gcode) + StepperLines(StepperFeed(f, amp, k.stepsPerMm), k.strokeMm, old(back), k.durationMs)
        && back == !old(back)
      ensures mode == 1 && f <= 0.0 ==> gcode == old(gcode) && back == old(back)
      ensures mode == 3 ==>
        back == old(back) && gcode == old(gcode) + SquareTune(if f > 0.0 then f else 440.0, pitch, k)
    {
      if mode == 0 {
        BeeperTone(f, k);
      } else if mode == 1 {
        StepperTone(f, amp, k);
      } else {
        SquareShape(if f > 0.0 then f else 440.0, pitch, k);
      }
    }

    /** The square branch of synthesizeShapeBar: two laps of four sides, each side one
        scale note. */
    method SquareShape(rootHz: real, pitch: Transpose, k: Knobs)
      requires KnobsInRange(k)
      modifies this
      ensures back == old(back)
      ensures gcode == old(gcode) + SquareTune(rootHz, pitch, k)
    {
      var r := MaxR(0.5, k.strokeMm);
      gcode := gcode + [T(ShapeStart)];
      var x, y := 0.0, 0.0;
      var s := 2.0 * r;
      gcode := gcode + [T("G0 X0 Y0")];
      ghost var head := gcode;
      assert s == Side(k.strokeMm);
      var n := 0;
      var rep := 0;
      while rep < 2
        invariant 0 <= rep <= 2 && n == 4 * rep
        invariant Point2(x, y) == Home
        invariant gcode == head + SquareMoves(n, rootHz, pitch, k)
        invariant back == old(back)
      {
        x, y, n := PlayLap(rep, x, y, n, s, rootHz, pitch, k, head);
        rep := rep + 1;
      }
      gcode := gcode + [T(ShapeEnd)];
    }

    /** One lap of the square from home: the four sides in order, back home. */
    method PlayLap(rep: nat, x0: real, y0: real, n0: nat, s: real, rootHz: real, pitch: Transpose, k: Knobs,
                   ghost head: seq<Line>)
      returns (x: real, y: real, n: nat)
      requires KnobsInRange(k) && s == Side(k.strokeMm) && n0 == 4 * rep && Point2(x0, y0) == Home
      requires gcode == head + SquareMoves(n0, rootHz, pitch, k)
      modifies this
      ensures back == old(back) && n == n0 + 4 && Point2(x, y) == Home
      ensures gcode == head + SquareMoves(n, rootHz, pitch, k)
    {
      x, y, n := x0, y0, n0;
      var segs := Sides(s);
      var j := 0;
      while j < 4
        invariant 0 <= j <= 4 && n == 4 * rep + j
        invariant Point2(x, y) == if j == 0 then Home else Corner(n - 1, s)
        invariant gcode == head + SquareMoves(n, rootHz, pitch, k)
        invariant back == old(back)
      {
        ModUnique(n, 4, rep, j);
        x, y := PlaySide(n, x, y, segs[j], s, rootHz, pitch, k, head);
        n := n + 1;
        j := j + 1;
      }
      ModUnique(n - 1, 4, rep, 3);
    }

    /** Move n of the square: from the corner before it along its side, with its lines. */
    method PlaySide(n: nat, x0: real, y0: real, seg: Point2, s: real, rootHz: real, pitch: Transpose, k: Knobs,
                    ghost head: seq<Line>)
      returns (x: real, y: real)
      requires KnobsInRange(k) && s == Side(k.strokeMm) && seg == Sides(s)[n % 4]
      requires Point2(x0, y0) == if n % 4 == 0 then Home else Corner(n - 1, s)
      requires gcode == head + SquareMoves(n, rootHz, pitch, k)
      modifies this
      ensures back == old(back) && Point2(x, y) == Corner(n, s)
      ensures gcode == head + SquareMoves(n + 1, rootHz, pitch, k)
    {
      SquareWalk(n, s);
      x, y := x0 + seg.x, y0 + seg.y;
      var lines := MoveLines(SquareFeed(n, rootHz, pitch, k.stepsPerMm), Corner(n, s), k.durationMs);
      PlayMove(n, rootHz, pitch, k, Point2(x, y));
      assert SquareMoves(n + 1, rootHz, pitch, k) == SquareMoves(n, rootHz, pitch, k) + lines;
      AppendAssoc(head, SquareMoves(n, rootHz, pitch, k), lines);
    }

    /** One side of the square: the feed of note n's scale degree, the move, the dwell. */
    method PlayMove(n: nat, rootHz: real, pitch: Transpose, k: Knobs, p: Point2)
      requires KnobsInRange(k)
      modifies this
      ensures back == old(back)
      ensures gcode == old(gcode) + MoveLines(SquareFeed(n, rootHz, pitch, k.stepsPerMm), p, k.durationMs)
    {
      var noteHz := pitch(rootHz, Degrees[n % 8]);
      var feed := Clamp(FreqToFeed(noteHz, k.stepsPerMm), 30.0, 6000.0);
      gcode := gcode + [Line([Lit("G1 F"), F(feed, 1)]),
        Line([Lit("G1 X"), F(p.x, 3), Lit(" Y"), F(p.y, 3)]),
        Line([Lit("G4 P"), Int(k.durationMs)])];
    }
  }
}
