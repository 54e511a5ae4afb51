// The RTTTL2GCODE Cura plugin: a melody as M300/G4 lines, and the pass
// over the G-code file that puts the melodies in.

module Rtttl2Gcode {
  import opened Common
  import opened GText
  import opened Rtttl
  import opened Rewrite

  /** A pitch table that gives every note a positive frequency, as
      round(2^(n/12) * 440, 2) does. */
  ghost predicate PositiveHz(hz: PitchHz) {
    forall n :: hz(n) > 0.0
  }

  /** One note: a dwell "G4 P<ms>" for silence, else a beep
      "M300 S<Hz, no decimals> P<ms>". */
  function NoteLine(n: Note, hz: PitchHz): (l: Line)
    requires NoteInRange(n)
    ensures |l.pieces| >= 2 && l.pieces[|l.pieces| - 1] == Int(Milliseconds(n))
    ensures PositiveHz(hz) ==> (l.pieces[0] == Lit("G4 P") <==> n.pitch.None?)
    ensures PositiveHz(hz) && n.pitch.Some? ==>
      l.pieces[1] == F(hz(OffsetAsWritten(n.pitch.value, n.octave.value)), 0)
  {
    var ms := Milliseconds(n);
    var f := Frequency(n, hz);
    if f == 0.0 then Line([Lit("G4 P"), Int(ms)])
    else Line([Lit("M300 S"), F(f, 0), Lit(" P"), Int(ms)])
  }

  /** The note lines of a melody, in order. */
  function NoteLines(notes: seq<Note>, hz: PitchHz): (r: seq<Line>)
    requires forall k :: 0 <= k < |notes| ==> NoteInRange(notes[k])
    ensures |r| == |notes|
    ensures forall k :: 0 <= k < |notes| ==> r[k] == NoteLine(notes[k], hz)
  {
    if notes == [] then []
    else NoteLines(notes[..|notes| - 1], hz) + [NoteLine(notes[|notes| - 1], hz)]
  }

  /** The lines naming the melody: a comment when the name is not empty. */
  function NameLines(m: Melody): (r: seq<Line>)
    ensures |r| <= 1
  {
    if m.name != "" then [T(";" + m.name)] else []
  }

  /** gcode(melody): the name comment, then one line per note. */
  function MelodyGcode(m: Melody, hz: PitchHz): (r: seq<Line>)
    requires forall k :: 0 <= k < |m.notes| ==> NoteInRange(m.notes[k])
    ensures |r| == |NameLines(m)| + |m.notes|
    ensures m.name != "" ==> r[0] == T(";" + m.name)
    ensures forall k :: 0 <= k < |m.notes| ==> r[|NameLines(m)| + k] == NoteLine(m.notes[k], hz)
  {
    NameLines(m) + NoteLines(m.notes, hz)
  }

  /** gcode(Rtttl(s)) inside the plugin's try: the lines, or nothing when
      the text does not parse. */
  function MelodyGcodeOf(s: string, hz: PitchHz): (r: Option<seq<Line>>)
    ensures r.Some? <==> Parse(s).Valid?
    ensures r.Some? ==>
      |r.value| == |NameLines(Parse(s).value)| + |NoteTexts(Split(s, ':'))|
  {
    match Parse(s)
    case Invalid(_) => None
    case Valid(m) =>
      ParsedMelody(s);
      Some(MelodyGcode(m, hz))
  }

  // ---------------------------------------------------------------------
  // The pass over the G-code file

  const HeatWait := "M109"
  const ProfileLine := ";CURA_PROFILE_STRING:"

  /** The three melodies the plugin places. */
  datatype Tag = Started | HeatUp | Finished

  function TagName(t: Tag): (r: string) {
    match t
    case Started => "print started"
    case HeatUp => "heat up finished"
    case Finished => "print finished"
  }

  /** ";Begin <name> melody". */
  function BeginLine(t: Tag): (r: Line) { Line([Lit(";Begin "), Lit(TagName(t)), Lit(" melody")]) }

  /** ";End <name> melody". */
  function EndLine(t: Tag): (r: Line) { Line([Lit(";End "), Lit(TagName(t)), Lit(" melody")]) }

  /** The marker lines are all different. */
  lemma MarkersDiffer(t: Tag, u: Tag)
    ensures BeginLine(t) == BeginLine(u) <==> t == u
    ensures BeginLine(t) != EndLine(u)
  {
    assert |BeginLine(t).pieces[0].s| != |EndLine(u).pieces[0].s|;
    if t != u {
      assert |TagName(t)| != |TagName(u)|;
    }
  }

  /** A melody between its begin and end comments, when there is one. */
  function Block(t: Tag, g: Option<seq<Line>>): (r: seq<Write>)
    ensures g.None? ==> r == []
    ensures g.Some? ==> |r| == |g.value| + 2 && r[0] == Emit(BeginLine(t))
                        && r[|r| - 1] == Emit(EndLine(t))
  {
    if g.None? then [] else [Emit(BeginLine(t))] + Emits(g.value) + [Emit(EndLine(t))]
  }

  lemma BlockCopiesNothing(t: Tag, g: Option<seq<Line>>)
    ensures Copies(Block(t, g)) == []
  {
    if g.Some? {
      var b := [Emit(BeginLine(t))];
      var e := [Emit(EndLine(t))];
      CopiesAppend(b + Emits(g.value), e);
      CopiesAppend(b, Emits(g.value));
      EmitsCopyNothing(g.value);
      assert b[..0] == [] && e[..0] == [];
    }
  }

  /** Whether one of the first n lines starts with the prefix. */
  function AnyStarts(lines: seq<string>, n: nat, prefix: string): (r: bool)
    requires n <= |lines|
  {
    n > 0 && (AnyStarts(lines, n - 1, prefix) || prefix <= lines[n - 1])
  }

  lemma {:induction false} AnyStartsIff(lines: seq<string>, n: nat, prefix: string)
    requires n <= |lines|
    ensures AnyStarts(lines, n, prefix) <==> exists i :: 0 <= i < n && prefix <= lines[i]
  {
    if n > 0 {
      AnyStartsIff(lines, n - 1, prefix);
    }
  }

  /** The writes for one input line, given whether a wait-for-temperature
      line and a profile line came before it. */
  function Step(line: string, heatSeen: bool, profileSeen: bool,
                heat: Option<seq<Line>>, finished: Option<seq<Line>>): (w: seq<Write>)
  {
    if HeatWait <= line && !heatSeen then [Copy(line)] + Block(HeatUp, heat)
    else if ProfileLine <= line && !profileSeen then Block(Finished, finished) + [Copy(line)]
    else [Copy(line)]
  }

  /** The writes for line i, given the lines before it. */
  function PerLine(lines: seq<string>, heat: Option<seq<Line>>, finished: Option<seq<Line>>, setsFlag: bool): (r: nat -> seq<Write>) {
    (i: nat) =>
      if i < |lines| then
        Step(lines[i], AnyStarts(lines, i, HeatWait), setsFlag && AnyStarts(lines, i, ProfileLine), heat, finished)
      else []
  }

  /** The writes for the first n input lines. As written, the plugin never
      sets its print-finished flag (setsFlag false), so every profile line
      gets the finished melody; with setsFlag only the first one does. */
  function Body(lines: seq<string>, n: nat, heat: Option<seq<Line>>,
                finished: Option<seq<Line>>, setsFlag: bool): (w: seq<Write>)
    requires n <= |lines|
  {
    Joined(n, PerLine(lines, heat, finished, setsFlag))
  }

  /** The rewritten file: the started melody, the lines with the heat-up
      melody after the first M109, and the finished melody at the end
      unless a profile line took it. */
  function Output(lines: seq<string>, started: Option<seq<Line>>, heat: Option<seq<Line>>,
                  finished: Option<seq<Line>>, setsFlag: bool): (w: seq<Write>)
  {
    Block(Started, started) + Body(lines, |lines|, heat, finished, setsFlag)
    + Closing(lines, finished, setsFlag)
  }

  /** The finished melody at the end of the file, unless a profile line
      took it. */
  function Closing(lines: seq<string>, finished: Option<seq<Line>>, setsFlag: bool): (r: seq<Write>) {
    if setsFlag && AnyStarts(lines, |lines|, ProfileLine) then [] else Block(Finished, finished)
  }

  /** The plugin's main loop, as written. */
  method InsertMelodies(lines: seq<string>, started: Option<seq<Line>>, heat: Option<seq<Line>>,
                        finished: Option<seq<Line>>) returns (out: seq<Write>)
    ensures out == Output(lines, started, heat, finished, false)
  {
    out := Block(Started, started);
    var heatHandled := false;
    var finishedHandled := false;
    var i := 0;
    while i < |lines|
      invariant 0 <= i <= |lines|
      invariant out == Block(Started, started) + Body(lines, i, heat, finished, false)
      invariant heatHandled == AnyStarts(lines, i, HeatWait)
      invariant !finishedHandled
    {
      var w;
      w, heatHandled := InsertStep(lines[i], heatHandled, finishedHandled, heat, finished);
      BodyNext(lines, i + 1, heat, finished, false);
      AppendAssoc(Block(Started, started), Body(lines, i, heat, finished, false), w);
      out := out + w;
      i := i + 1;
    }
    if !finishedHandled {
      out := out + Block(Finished, finished);
    }
  }

  /** One pass of the plugin's loop: the writes for one line and the new
      heat-up flag. */
  method InsertStep(line: string, heatHandled: bool, finishedHandled: bool, heat: Option<seq<Line>>,
                    finished: Option<seq<Line>>) returns (w: seq<Write>, handled: bool)
    ensures w == Step(line, heatHandled, finishedHandled, heat, finished)
    ensures handled == (heatHandled || HeatWait <= line)
  {
    handled := heatHandled;
    if HeatWait <= line && !heatHandled {
      handled := true;
      w := [Copy(line)] + Block(HeatUp, heat);
    } else if ProfileLine <= line && !finishedHandled {
      w := Block(Finished, finished) + [Copy(line)];
    } else {
      w := [Copy(line)];
    }
  }

  /** The plugin as shipped: the finished melody is looked up under a
      misspelt name, the NameError is swallowed, and no finished melody is
      ever produced. */
  function Plugin(lines: seq<string>, started: Option<seq<Line>>, heat: Option<seq<Line>>): (r: seq<Write>) {
    Output(lines, started, heat, None, false)
  }

  /** The plugin with the finished melody in place and its flag set when
      the profile line takes it. */
  function PluginFixed(lines: seq<string>, started: Option<seq<Line>>, heat: Option<seq<Line>>,
                       finished: Option<seq<Line>>): (w: seq<Write>) {
    Output(lines, started, heat, finished, true)
  }

  // ---------------------------------------------------------------------
  // Properties of the pass

  lemma StepCopiesLine(line: string, heatSeen: bool, profileSeen: bool,
                       heat: Option<seq<Line>>, finished: Option<seq<Line>>)
    ensures Copies(Step(line, heatSeen, profileSeen, heat, finished)) == [line]
  {
    CopyOne(line);
    if HeatWait <= line && !heatSeen {
      CopiesAppend([Copy(line)], Block(HeatUp, heat));
      BlockCopiesNothing(HeatUp, heat);
    } else if ProfileLine <= line && !profileSeen {
      CopiesAppend(Block(Finished, finished), [Copy(line)]);
      BlockCopiesNothing(Finished, finished);
    }
  }

  lemma BodyCopiesLines(lines: seq<string>, n: nat, heat: Option<seq<Line>>,
                         finished: Option<seq<Line>>, setsFlag: bool)
    requires n <= |lines|
    ensures Copies(Body(lines, n, heat, finished, setsFlag)) == lines[..n]
  {
    var per := PerLine(lines, heat, finished, setsFlag);
    forall i | 0 <= i < n ensures Copies(per(i)) == [lines[i]] {
      StepCopiesLine(lines[i], AnyStarts(lines, i, HeatWait), setsFlag && AnyStarts(lines, i, ProfileLine), heat, finished);
    }
    JoinedCopies(lines, n, per);
  }

  /** The writes for one more line. */
  lemma BodyNext(lines: seq<string>, n: nat, heat: Option<seq<Line>>, finished: Option<seq<Line>>, setsFlag: bool)
    requires 0 < n <= |lines|
    ensures Body(lines, n, heat, finished, setsFlag) == Body(lines, n - 1, heat, finished, setsFlag)
      + Step(lines[n - 1], AnyStarts(lines, n - 1, HeatWait), setsFlag && AnyStarts(lines, n - 1, ProfileLine), heat, finished)
  {
  }

  /** Every input line is written exactly once, in order: the rewritten
      file is the input with generated lines between its lines. */
  lemma OutputCopiesInput(lines: seq<string>, started: Option<seq<Line>>, heat: Option<seq<Line>>,
                          finished: Option<seq<Line>>, setsFlag: bool)
    ensures Copies(Output(lines, started, heat, finished, setsFlag)) == lines
  {
    var head := Block(Started, started);
    var body := Body(lines, |lines|, heat, finished, setsFlag);
    var tail := Closing(lines, finished, setsFlag);
    assert Output(lines, started, heat, finished, setsFlag) == (head + body) + tail;
    BlockCopiesNothing(Started, started);
    ClosingCopiesNothing(lines, finished, setsFlag);
    CopiesBetween(head, body, tail);
    BodyCopiesLines(lines, |lines|, heat, finished, setsFlag);
    assert lines[..|lines|] == lines;
  }

  lemma ClosingCopiesNothing(lines: seq<string>, finished: Option<seq<Line>>, setsFlag: bool)
    ensures Copies(Closing(lines, finished, setsFlag)) == []
  {
    BlockCopiesNothing(Finished, finished);
  }

  /** A line that waits for the extruder is not a profile line. */
  lemma WaitIsNotProfile(line: string)
    requires HeatWait <= line
    ensures !(ProfileLine <= line)
  {
    assert line[0] == HeatWait[0];
  }

  /** A marker line outside every melody. */
  predicate Unmarked(g: Option<seq<Line>>, marker: Line) {
    g.Some? ==> marker !in g.value
  }

  lemma BlockCount(t: Tag, g: Option<seq<Line>>, u: Tag)
    requires Unmarked(g, BeginLine(u))
    ensures multiset(Block(t, g))[Emit(BeginLine(u))] == if g.Some? && t == u then 1 else 0
  {
    if g.Some? {
      var e := Emits(g.value);
      var m := Emit(BeginLine(u));
      assert m !in e;
      MarkersDiffer(u, t);
      MarkersDiffer(t, u);
      assert Block(t, g) == [Emit(BeginLine(t))] + e + [Emit(EndLine(t))];
    }
  }

  /** How often one line's writes hold a begin marker. */
  lemma StepCount(line: string, heatSeen: bool, profileSeen: bool,
                  heat: Option<seq<Line>>, finished: Option<seq<Line>>, u: Tag)
    requires Unmarked(heat, BeginLine(u)) && Unmarked(finished, BeginLine(u))
    ensures multiset(Step(line, heatSeen, profileSeen, heat, finished))[Emit(BeginLine(u))] ==
      if HeatWait <= line && !heatSeen then (if heat.Some? && u == HeatUp then 1 else 0)
      else if ProfileLine <= line && !profileSeen then (if finished.Some? && u == Finished then 1 else 0)
      else 0
  {
    BlockCount(HeatUp, heat, u);
    BlockCount(Finished, finished, u);
  }

  /** The heat-up melody is written once when the file has an M109 line,
      and never otherwise. */
  lemma HeatBlockOnce(lines: seq<string>, n: nat, heat: Option<seq<Line>>,
                       finished: Option<seq<Line>>, setsFlag: bool)
    requires n <= |lines| && heat.Some?
    requires Unmarked(heat, BeginLine(HeatUp)) && Unmarked(finished, BeginLine(HeatUp))
    ensures multiset(Body(lines, n, heat, finished, setsFlag))[Emit(BeginLine(HeatUp))] ==
      if AnyStarts(lines, n, HeatWait) then 1 else 0
  {
    var per := PerLine(lines, heat, finished, setsFlag);
    var w := Emit(BeginLine(HeatUp));
    forall i | 0 <= i < n
      ensures multiset(per(i))[w] == if !AnyStarts(lines, i, HeatWait) && HeatWait <= lines[i] then 1 else 0
    {
      HeatStep(lines, i, heat, finished, setsFlag);
    }
    AtFirstStart(lines, n, per, w, HeatWait);
  }

  /** A write that the writes for line i hold once when line i is the first
      to start with p, and never otherwise, occurs once in the first n lines'
      writes when one of them starts with p, and not at all otherwise. */
  lemma {:induction false} AtFirstStart(lines: seq<string>, n: nat, per: nat -> seq<Write>, w: Write, p: string)
    requires n <= |lines|
    requires forall i :: 0 <= i < n ==> multiset(per(i))[w] == if !AnyStarts(lines, i, p) && p <= lines[i] then 1 else 0
    ensures multiset(Joined(n, per))[w] == if AnyStarts(lines, n, p) then 1 else 0
  {
    if n > 0 {
      AtFirstStart(lines, n - 1, per, w, p);
      CountAppend(Joined(n - 1, per), per(n - 1), w);
    }
  }

  /** Line i brings the heat-up melody exactly when it is the first M109 line. */
  lemma HeatStep(lines: seq<string>, i: nat, heat: Option<seq<Line>>, finished: Option<seq<Line>>, setsFlag: bool)
    requires i < |lines| && heat.Some?
    requires Unmarked(heat, BeginLine(HeatUp)) && Unmarked(finished, BeginLine(HeatUp))
    ensures multiset(PerLine(lines, heat, finished, setsFlag)(i))[Emit(BeginLine(HeatUp))]
      == if !AnyStarts(lines, i, HeatWait) && HeatWait <= lines[i] then 1 else 0
  {
    StepCount(lines[i], AnyStarts(lines, i, HeatWait), setsFlag && AnyStarts(lines, i, ProfileLine), heat, finished, HeatUp);
  }

  /** With the flag set, the finished melody is written exactly once: before
      the first profile line, or at the end when there is none. */
  lemma FinishedOnceFixed(lines: seq<string>, started: Option<seq<Line>>, heat: Option<seq<Line>>,
                          finished: Option<seq<Line>>)
    requires finished.Some?
    requires Unmarked(started, BeginLine(Finished)) && Unmarked(heat, BeginLine(Finished))
    requires Unmarked(finished, BeginLine(Finished))
    ensures multiset(PluginFixed(lines, started, heat, finished))[Emit(BeginLine(Finished))] == 1
  {
    var head := Block(Started, started);
    var body := Body(lines, |lines|, heat, finished, true);
    var tail := Closing(lines, finished, true);
    assert PluginFixed(lines, started, heat, finished) == head + body + tail;
    FixedBodyFinished(lines, |lines|, heat, finished);
    BlockCount(Started, started, Finished);
    BlockCount(Finished, finished, Finished);
  }

  lemma FixedBodyFinished(lines: seq<string>, n: nat, heat: Option<seq<Line>>,
                           finished: Option<seq<Line>>)
    requires n <= |lines| && finished.Some?
    requires Unmarked(heat, BeginLine(Finished)) && Unmarked(finished, BeginLine(Finished))
    ensures multiset(Body(lines, n, heat, finished, true))[Emit(BeginLine(Finished))] ==
      if AnyStarts(lines, n, ProfileLine) then 1 else 0
  {
    var per := PerLine(lines, heat, finished, true);
    var w := Emit(BeginLine(Finished));
    forall i | 0 <= i < n
      ensures multiset(per(i))[w] == if !AnyStarts(lines, i, ProfileLine) && ProfileLine <= lines[i] then 1 else 0
    {
      ProfileStep(lines, i, heat, finished);
    }
    AtFirstStart(lines, n, per, w, ProfileLine);
  }

  /** With the flag set, line i brings the finished melody exactly when it is
      the first profile line. */
  lemma ProfileStep(lines: seq<string>, i: nat, heat: Option<seq<Line>>, finished: Option<seq<Line>>)
    requires i < |lines| && finished.Some?
    requires Unmarked(heat, BeginLine(Finished)) && Unmarked(finished, BeginLine(Finished))
    ensures multiset(PerLine(lines, heat, finished, true)(i))[Emit(BeginLine(Finished))]
      == if !AnyStarts(lines, i, ProfileLine) && ProfileLine <= lines[i] then 1 else 0
  {
    StepCount(lines[i], AnyStarts(lines, i, HeatWait), AnyStarts(lines, i, ProfileLine), heat, finished, Finished);
    if HeatWait <= lines[i] {
      WaitIsNotProfile(lines[i]);
    }
  }

  /** As shipped, no finished melody is ever written, whatever the file. */
  lemma NoFinishedMelody(lines: seq<string>, started: Option<seq<Line>>, heat: Option<seq<Line>>)
    requires Unmarked(started, BeginLine(Finished)) && Unmarked(heat, BeginLine(Finished))
    ensures multiset(Plugin(lines, started, heat))[Emit(BeginLine(Finished))] == 0
  {
    var head := Block(Started, started);
    var body := Body(lines, |lines|, heat, None, false);
    assert Plugin(lines, started, heat) == head + body + [];
    NoFinishedInBody(lines, |lines|, heat);
    BlockCount(Started, started, Finished);
  }

  lemma NoFinishedInBody(lines: seq<string>, n: nat, heat: Option<seq<Line>>)
    requires n <= |lines|
    requires Unmarked(heat, BeginLine(Finished))
    ensures multiset(Body(lines, n, heat, None, false))[Emit(BeginLine(Finished))] == 0
  {
    var per := PerLine(lines, heat, None, false);
    var w := Emit(BeginLine(Finished));
    forall i | 0 <= i < n ensures multiset(per(i))[w] == 0 {
      StepCount(lines[i], AnyStarts(lines, i, HeatWait), false, heat, None, Finished);
    }
    JoinedCountOnce(n, per, w, (i: nat) => false);
  }
}
