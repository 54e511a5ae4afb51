// musicalPrint: a melody played through the print, one beep every few
// G-code lines, with the same RTTTL validator as RTTTL2GCODE.

module MusicalPrint {
  import opened Common
  import opened GText
  import opened Rtttl
  import opened Rewrite
  import opened Rtttl2Gcode

  // ---------------------------------------------------------------------
  // gcode(melody): every note a beep, pauses included

  /** The longest beep the plugin plays, in ms. */
  const MaxBeep := 350

  /** What gcode reads of a note: its frequency and its length in ms. */
  datatype Tone = Tone(frequency: real, duration: int)

  function ToneOf(n: Note, hz: PitchHz): (r: Tone)
    requires NoteInRange(n)
  {
    Tone(Frequency(n, hz), Milliseconds(n))
  }

  function Tones(notes: seq<Note>, hz: PitchHz): (r: seq<Tone>)
    requires forall k :: 0 <= k < |notes| ==> NoteInRange(notes[k])
    ensures |r| == |notes| && forall k :: 0 <= k < |notes| ==> r[k] == ToneOf(notes[k], hz)
  {
    if notes == [] then [] else Tones(notes[..|notes| - 1], hz) + [ToneOf(notes[|notes| - 1], hz)]
  }

  /** A tone the plugin treats as a pause: frequency 0. */
  predicate Silent(t: Tone) {
    t.frequency == 0.0
  }

  /** The P value in force after the first n tones, or None while it is
      still unbound: a note sets it to its length capped at 350 ms; a pause
      sets it to 350 when it lasts at least that long and otherwise keeps
      the last one. */
  function Carry(tones: seq<Tone>, n: nat): (r: Option<int>)
    requires n <= |tones|
    ensures r.Some? ==> r.value <= MaxBeep
    ensures n > 0 && !Silent(tones[n - 1]) ==>
      r == Some(if tones[n - 1].duration >= MaxBeep then MaxBeep else tones[n - 1].duration)
    ensures n > 0 && Silent(tones[n - 1]) && tones[n - 1].duration >= MaxBeep ==> r == Some(MaxBeep)
    ensures n > 0 && Silent(tones[n - 1]) && tones[n - 1].duration < MaxBeep ==> r == Carry(tones, n - 1)
  {
    if n == 0 then None
    else
      var ms := tones[n - 1].duration;
      if Silent(tones[n - 1]) then
        if ms >= MaxBeep then Some(MaxBeep) else Carry(tones, n - 1)
      else Some(if ms >= MaxBeep then MaxBeep else ms)
  }

  /** "M300 S<Hz + 320> P<p>" for a pause, "M300 S<Hz * 6.9> P<p>" for a
      note, with no decimals in S. */
  function BeepLine(t: Tone, p: int): (l: Line)
    ensures |l.pieces| == 4 && l.pieces[0] == Lit("M300 S") && l.pieces[3] == Int(p)
    ensures Silent(t) ==> l.pieces[1] == F(320.0, 0)
    ensures !Silent(t) ==> l.pieces[1] == F(t.frequency * 6.9, 0)
  {
    if t.frequency == 0.0 then Line([Lit("M300 S"), F(t.frequency + 320.0, 0), Lit(" P"), Int(p)])
    else Line([Lit("M300 S"), F(t.frequency * 6.9, 0), Lit(" P"), Int(p)])
  }

  /** The beeps for the first n tones, or None once a pause finds the P
      value unbound (the UnboundLocalError). */
  function Beeps(tones: seq<Tone>, n: nat): (r: Option<seq<Line>>)
    requires n <= |tones|
    ensures r.Some? ==> |r.value| == n
  {
    if n == 0 then Some([])
    else match Beeps(tones, n - 1)
      case None => None
      case Some(ls) =>
        match Carry(tones, n)
        case None => None
        case Some(p) => Some(ls + [BeepLine(tones[n - 1], p)])
  }

  /** The whole gcode(melody): the name comment, then the beeps. */
  function BeepGcode(m: Melody, hz: PitchHz): (r: Option<seq<Line>>)
    requires forall k :: 0 <= k < |m.notes| ==> NoteInRange(m.notes[k])
  {
    match Beeps(Tones(m.notes, hz), |m.notes|)
    case None => None
    case Some(ls) => Some(NameLines(m) + ls)
  }

  /** gcode as it runs: the loop with its P variable. */
  method WriteBeeps(m: Melody, hz: PitchHz) returns (r: Option<seq<Line>>)
    requires forall k :: 0 <= k < |m.notes| ==> NoteInRange(m.notes[k])
    ensures r == BeepGcode(m, hz)
  {
    var out := NameLines(m);
    ghost var beeps := [];
    ghost var tones := Tones(m.notes, hz);
    var temp: Option<int> := None;
    var i := 0;
    while i < |m.notes|
      invariant 0 <= i <= |m.notes|
      invariant temp == Carry(tones, i)
      invariant Beeps(tones, i) == Some(beeps)
      invariant out == NameLines(m) + beeps
    {
      var line;
      temp, line := BeepStep(tones, i, temp, m.notes[i], hz);
      if temp.None? {
        BeepsStopAt(tones, i + 1, |tones|);
        return None;
      }
      BeepsNext(tones, i, beeps, temp.value);
      AppendAssoc(NameLines(m), beeps, [line]);
      out := out + [line];
      beeps := beeps + [line];
      i := i + 1;
    }
    return Some(out);
  }

  /** One pass of gcode's loop: the tone of the note, the new P value and,
      when it is bound, the beep line. */
  method BeepStep(ghost tones: seq<Tone>, ghost i: nat, temp: Option<int>, note: Note, hz: PitchHz)
    returns (next: Option<int>, line: Line)
    requires NoteInRange(note) && i < |tones| && tones[i] == ToneOf(note, hz) && temp == Carry(tones, i)
    ensures next == Carry(tones, i + 1)
    ensures next.Some? ==> line == BeepLine(tones[i], next.value)
  {
    var t := Tone(Frequency(note, hz), Milliseconds(note));
    next := NextCarry(tones, i, temp, t);
    line := BeepLine(t, if next.Some? then next.value else 0);
  }

  /** The P update for one tone. */
  method NextCarry(ghost tones: seq<Tone>, ghost i: nat, temp: Option<int>, t: Tone) returns (next: Option<int>)
    requires i < |tones| && t == tones[i] && temp == Carry(tones, i)
    ensures next == Carry(tones, i + 1)
  {
    next := temp;
    if t.frequency == 0.0 {
      if t.duration >= MaxBeep {
        next := Some(MaxBeep);
      }
    } else {
      next := Some(if t.duration >= MaxBeep then MaxBeep else t.duration);
    }
  }

  lemma BeepsNext(tones: seq<Tone>, i: nat, beeps: seq<Line>, p: int)
    requires i < |tones| && Beeps(tones, i) == Some(beeps) && Carry(tones, i + 1) == Some(p)
    ensures Beeps(tones, i + 1) == Some(beeps + [BeepLine(tones[i], p)])
  {
  }

  lemma {:induction false} BeepsStopAt(tones: seq<Tone>, i: nat, n: nat)
    requires i <= n <= |tones| && Beeps(tones, i).None?
    ensures Beeps(tones, n).None?
    decreases n
  {
    if n > i {
      BeepsStopAt(tones, i, n - 1);
    }
  }

  /** The P value is unbound exactly while every tone so far is a pause
      shorter than 350 ms. */
  lemma {:induction false} CarryUnbound(tones: seq<Tone>, n: nat)
    requires n <= |tones|
    ensures Carry(tones, n).None? <==>
      forall k :: 0 <= k < n ==> Silent(tones[k]) && tones[k].duration < MaxBeep
  {
    if n > 0 {
      CarryUnbound(tones, n - 1);
    }
  }

  /** Once bound, the P value stays bound. */
  lemma {:induction false} CarryBound(tones: seq<Tone>, i: nat, n: nat)
    requires i <= n <= |tones| && Carry(tones, i).Some?
    ensures Carry(tones, n).Some?
    decreases n
  {
    if n > i {
      CarryBound(tones, i, n - 1);
    }
  }

  /** gcode fails exactly when the melody opens with a pause shorter than
      350 ms. */
  lemma {:induction false} BeepsFailOnlyAtStart(tones: seq<Tone>, n: nat)
    requires n <= |tones|
    ensures Beeps(tones, n).None? <==>
      n > 0 && Silent(tones[0]) && tones[0].duration < MaxBeep
  {
    if n > 0 {
      BeepsFailOnlyAtStart(tones, n - 1);
      CarryUnbound(tones, 1);
      if Carry(tones, 1).Some? {
        CarryBound(tones, 1, n);
      }
    }
  }

  /** Beep k is tone k's line with the P value in force after it. */
  lemma {:induction false} BeepAt(tones: seq<Tone>, n: nat, k: nat)
    requires k < n <= |tones| && Beeps(tones, n).Some?
    ensures Carry(tones, k + 1).Some? && Beeps(tones, n).value[k] == BeepLine(tones[k], Carry(tones, k + 1).value)
    decreases n
  {
    assert Beeps(tones, n - 1).Some? && Carry(tones, n).Some?;
    var ls := Beeps(tones, n - 1).value;
    assert Beeps(tones, n).value == ls + [BeepLine(tones[n - 1], Carry(tones, n).value)];
    if k < n - 1 {
      BeepAt(tones, n - 1, k);
    }
  }

  /** Beep k of the first n is tone k's line with the P value in force
      after it. */
  predicate BeepIs(tones: seq<Tone>, n: nat, k: nat)
    requires k < n <= |tones| && Beeps(tones, n).Some?
  {
    Carry(tones, k + 1).Some? && Beeps(tones, n).value[k] == BeepLine(tones[k], Carry(tones, k + 1).value)
  }

  /** Each beep is its tone's line with the P value in force after it. */
  lemma BeepsEach(tones: seq<Tone>, n: nat)
    requires n <= |tones| && Beeps(tones, n).Some?
    ensures forall k: nat :: k < n ==> BeepIs(tones, n, k)
  {
    forall k: nat | k < n
      ensures BeepIs(tones, n, k)
    {
      BeepAt(tones, n, k);
    }
  }

  // ---------------------------------------------------------------------
  // testSong: re.sub(r"\.\d+", ".", song)

  /** Every '.' followed by digits loses the digits. */
  function DropDotDigits(s: string): (r: string)
    ensures |r| <= |s|
    decreases |s|
  {
    if s == [] then []
    else if s[0] == '.' then "." + DropDotDigits(s[DigitEnd(s, 1)..])
    else [s[0]] + DropDotDigits(s[1..])
  }

  /** No dot in the result is followed by a digit. */
  lemma {:induction false} NoDotDigit(s: string)
    ensures NoDigitAfterDot(DropDotDigits(s))
    decreases |s|
  {
    if s != [] {
      var r := DropDotDigits(s);
      if s[0] == '.' {
        var j := DigitEnd(s, 1);
        var rest := DropDotDigits(s[j..]);
        NoDotDigit(s[j..]);
        FirstOfDrop(s[j..]);
        assert r == "." + rest;
        forall i | 0 <= i < |r| - 1 && r[i] == '.' ensures !IsDigit(r[i + 1]) {
          if i > 0 {
            assert r[i] == rest[i - 1] && r[i + 1] == rest[i];
          } else {
            assert r[1] == rest[0];
          }
        }
      } else {
        var rest := DropDotDigits(s[1..]);
        NoDotDigit(s[1..]);
        assert r == [s[0]] + rest;
        assert r[0] == s[0];
        forall i | 0 <= i < |r| - 1 && r[i] == '.' ensures !IsDigit(r[i + 1]) {
          if i > 0 {
            assert r[i] == rest[i - 1] && r[i + 1] == rest[i];
          }
        }
      }
    }
  }

  /** No dot in the text is followed by a digit. */
  predicate NoDigitAfterDot(s: string) {
    forall i :: 0 <= i < |s| - 1 && s[i] == '.' ==> !IsDigit(s[i + 1])
  }

  /** A text that does not start with a digit gives a result that does not
      start with one. */
  lemma FirstOfDrop(s: string)
    requires s == [] || !IsDigit(s[0])
    ensures var r := DropDotDigits(s); r == [] || !IsDigit(r[0])
  {
  }

  /** Rewriting twice changes nothing more. */
  lemma {:induction false} DropDotDigitsIdempotent(s: string)
    ensures DropDotDigits(DropDotDigits(s)) == DropDotDigits(s)
    decreases |s|
  {
    NoDotDigit(s);
    DropFixes(DropDotDigits(s));
  }

  /** A text with no dot followed by a digit is left as it is. */
  lemma {:induction false} DropFixes(s: string)
    requires NoDigitAfterDot(s)
    ensures DropDotDigits(s) == s
    decreases |s|
  {
    if s != [] {
      if s[0] == '.' {
        assert DigitEnd(s, 1) == 1;
        DropFixes(s[1..]);
        assert s == "." + s[1..];
      } else {
        DropFixes(s[1..]);
        assert s == [s[0]] + s[1..];
      }
    }
  }

  // ---------------------------------------------------------------------
  // The main loop: the whole melody first, then one melody line at every
  // fifth input line

  /** A checkpoint falls on every skiplines-th input line. */
  const SkipLines := 5

  /** What checkpoint c writes: the checkpoints walk the melody lines and
      the one past the last writes nothing, so the cycle is one longer than
      the melody. */
  function Checkpoint(pieces: seq<string>, c: nat): (r: seq<Write>)
    ensures |r| <= 1
  {
    var j := c % (|pieces| + 1);
    if j < |pieces| then [Emit(T(pieces[j]))] else []
  }

  /** What is written before input line i: the next checkpoint on every
      fifth line, nothing on the others. */
  function CheckpointAt(pieces: seq<string>, i: nat): (r: seq<Write>)
    ensures |r| <= 1
  {
    if i % SkipLines == 0 then Checkpoint(pieces, i / SkipLines) else []
  }

  /** What is written before input line i besides its checkpoint: the
      whole melody, each piece of the split G-code text on its own line,
      before the first. */
  function MelodyAt(pieces: seq<string>, i: nat): (r: seq<Write>) {
    if i == 0 then Emits(Lines(pieces)) else []
  }

  /** Everything written before input line i. */
  function Before(pieces: seq<string>): (r: nat -> seq<Write>) {
    (i: nat) => MelodyAt(pieces, i) + CheckpointAt(pieces, i)
  }

  /** The melody pieces as lines. */
  function Lines(pieces: seq<string>): (r: seq<Line>)
    ensures |r| == |pieces| && forall k :: 0 <= k < |pieces| ==> r[k] == T(pieces[k])
  {
    if pieces == [] then [] else Lines(pieces[..|pieces| - 1]) + [T(pieces[|pieces| - 1])]
  }

  /** The checkpoints before input line i: 0, 5, 10, ... below i. */
  function CheckpointsBefore(i: nat): (r: nat) {
    (i + SkipLines - 1) / SkipLines
  }

  /** The main loop as written, with its counters. */
  method Interleave(lines: seq<string>, pieces: seq<string>) returns (out: seq<Write>)
    ensures out == Around(lines, |lines|, Before(pieces))
  {
    var lammount := |pieces|;
    out := [];
    var i2, tlines, ilast := 0, 0, 0;
    var gcodeline, gcount := 0, 0;
    while tlines < |lines|
      invariant 0 <= tlines <= |lines| && i2 == tlines
      invariant out == Around(lines, tlines, Before(pieces))
      invariant ilast == SkipLines * CheckpointsBefore(tlines)
      invariant gcodeline == CheckpointsBefore(tlines) % (lammount + 1) && gcount == 0
    {
      var written;
      written, ilast, gcodeline, gcount := WriteBefore(pieces, tlines, i2, ilast, gcodeline);
      out := out + written + [Copy(lines[tlines])];
      i2 := i2 + 1;
      tlines := tlines + 1;
    }
  }

  /** The loop body up to the copy of input line tlines: the whole melody
      before the first line, and the next melody line when tlines reaches
      ilast. */
  method WriteBefore(pieces: seq<string>, tlines: nat, i2: nat, ilast: nat, gcodeline: nat)
    returns (written: seq<Write>, ilastAfter: nat, gcodelineAfter: nat, gcount: nat)
    requires i2 == tlines && ilast == SkipLines * CheckpointsBefore(tlines)
    requires gcodeline == CheckpointsBefore(tlines) % (|pieces| + 1)
    ensures written == Before(pieces)(tlines)
    ensures ilastAfter == SkipLines * CheckpointsBefore(tlines + 1)
    ensures gcodelineAfter == CheckpointsBefore(tlines + 1) % (|pieces| + 1) && gcount == 0
  {
    written := [];
    if i2 == 0 {
      written := Emits(Lines(pieces));
    }
    CheckpointStep(tlines, gcodeline, |pieces|);
    ilastAfter, gcodelineAfter, gcount := ilast, gcodeline, 0;
    if tlines >= ilast {
      ilastAfter := tlines + SkipLines;
      var line;
      line, gcodelineAfter, gcount := NextMelodyLine(pieces, gcodeline);
      written := written + line;
    }
  }

  /** The scan over the melody lines at a checkpoint: it writes the line at
      index gcodeline and moves on, or, one past the last line, writes
      nothing and starts over. */
  method NextMelodyLine(pieces: seq<string>, g0: nat) returns (written: seq<Write>, gcodeline: nat, gcount: nat)
    requires g0 <= |pieces|
    ensures written == (if g0 < |pieces| then [Emit(T(pieces[g0]))] else [])
    ensures gcodeline == (if g0 < |pieces| then g0 + 1 else 0) && gcount == 0
  {
    var lammount := |pieces|;
    written := [];
    gcodeline, gcount := g0, 0;
    var k := 0;
    while k < |pieces|
      invariant 0 <= k <= |pieces|
      invariant g0 < lammount ==> gcodeline == g0 && gcount == k && k <= g0
      invariant g0 == lammount && k == 0 ==> gcodeline == g0 && gcount == 0
      invariant g0 == lammount && k > 0 ==> gcodeline == 0 && gcount == (if k == lammount then 0 else k)
      invariant written == []
    {
      if gcodeline == gcount {
        gcodeline := gcodeline + 1;
        written := [Emit(T(pieces[k]))];
        gcount := 0;
        return;
      } else {
        gcount := gcount + 1;
      }
      if lammount <= gcount {
        gcount := 0;
      }
      if lammount <= gcodeline {
        gcodeline := 0;
      }
      k := k + 1;
    }
  }

  /** How the counters move at an input line: a checkpoint line is the
      next checkpoint, and the melody line index wraps one past the end. */
  lemma CheckpointStep(i: nat, g: int, lammount: nat)
    requires g == CheckpointsBefore(i) % (lammount + 1)
    ensures i >= SkipLines * CheckpointsBefore(i) <==> i % SkipLines == 0
    ensures i % SkipLines == 0 ==> i / SkipLines == CheckpointsBefore(i)
    ensures i % SkipLines == 0 ==> i + SkipLines == SkipLines * CheckpointsBefore(i + 1)
    ensures i % SkipLines == 0 ==> CheckpointsBefore(i + 1) % (lammount + 1) == (if g < lammount then g + 1 else 0)
    ensures i % SkipLines != 0 ==> CheckpointsBefore(i + 1) == CheckpointsBefore(i)
  {
    var q, r := i / SkipLines, i % SkipLines;
    assert i == SkipLines * q + r;
    if r == 0 {
      ModUnique(i + SkipLines - 1, SkipLines, q, SkipLines - 1);
      ModUnique(i + SkipLines, SkipLines, q + 1, 0);
      WrapNext(q, lammount);
    } else {
      ModUnique(i + SkipLines - 1, SkipLines, q + 1, r - 1);
      ModUnique(i + SkipLines, SkipLines, q + 1, r);
    }
  }

  /** The next index modulo lammount + 1. */
  lemma WrapNext(c: nat, lammount: nat)
    ensures (c + 1) % (lammount + 1) ==
      if c % (lammount + 1) < lammount then c % (lammount + 1) + 1 else 0
  {
    var m := lammount + 1;
    var q, r := c / m, c % m;
    assert c == q * m + r;
    if r < lammount {
      ModUnique(c + 1, m, q, r + 1);
    } else {
      assert (q + 1) * m == q * m + m;
      ModUnique(c + 1, m, q + 1, 0);
    }
  }

  /** Every round of |pieces| + 1 checkpoints writes the melody lines once
      each, in order, and then one checkpoint that writes nothing. */
  lemma CheckpointRound(pieces: seq<string>, q: nat, k: nat)
    requires k <= |pieces|
    ensures Checkpoint(pieces, q * (|pieces| + 1) + k) ==
      if k < |pieces| then [Emit(T(pieces[k]))] else []
  {
    ModUnique(q * (|pieces| + 1) + k, |pieces| + 1, q, k);
  }

  /** Nothing written before a line is an input line. */
  lemma BeforeCopiesNothing(pieces: seq<string>, i: nat)
    ensures Copies(Before(pieces)(i)) == []
  {
    EmitsCopyNothing(Lines(pieces));
    var cp := CheckpointAt(pieces, i);
    if cp != [] {
      assert cp[..0] == [];
    }
    CopiesAppend(MelodyAt(pieces, i), cp);
  }

  /** The rewritten file holds every input line once, in order; the rest
      is melody. */
  lemma MusicalCopies(lines: seq<string>, pieces: seq<string>)
    ensures Copies(Around(lines, |lines|, Before(pieces))) == lines
  {
    forall i | 0 <= i < |lines| ensures Copies(Before(pieces)(i)) == [] {
      BeforeCopiesNothing(pieces, i);
    }
    AroundCopies(lines, |lines|, Before(pieces));
    assert lines[..|lines|] == lines;
  }

  /** Whatever comes before the first line opens the file. */
  lemma {:induction false} FirstBeforeOpens(lines: seq<string>, n: nat, before: nat -> seq<Write>)
    requires 0 < n <= |lines|
    ensures before(0) <= Around(lines, n, before)
  {
    if n == 1 {
      assert Around(lines, n, before) == [] + before(0) + [Copy(lines[0])];
      assert Around(lines, n, before) == before(0) + [Copy(lines[0])];
    } else {
      FirstBeforeOpens(lines, n - 1, before);
      var rest := before(n - 1) + [Copy(lines[n - 1])];
      AppendAssoc(Around(lines, n - 1, before), before(n - 1), [Copy(lines[n - 1])]);
    }
  }

  /** Once there is an input line, the file opens with the whole melody. */
  lemma MelodyFirst(lines: seq<string>, pieces: seq<string>)
    requires |lines| > 0
    ensures Emits(Lines(pieces)) <= Around(lines, |lines|, Before(pieces))
  {
    FirstBeforeOpens(lines, |lines|, Before(pieces));
    assert Emits(Lines(pieces)) <= Before(pieces)(0);
  }

  // ---------------------------------------------------------------------
  // The script: testSong is the chosen song with its dotted lengths cut,
  // its beeps are rendered once and split at line breaks, and the G-code
  // file is rewritten with them

  /** The rewritten G-code file, or None when gcode(Rtttl(testSong))
      raises (the file is then left as it was, since the song is rendered
      before the file is opened for writing). */
  function MusicalPrintFile(lines: seq<string>, song: string, hz: PitchHz, f: Fmt): (r: Option<seq<Write>>)
    ensures r.Some? ==> Copies(r.value) == lines
  {
    var t := DropDotDigits(song);
    match Parse(t)
    case Invalid(_) => None
    case Valid(m) =>
      ParsedMelody(t);
      match BeepGcode(m, hz)
      case None => None
      case Some(g) =>
        var pieces := Split(Text(g, f), '\n');
        MusicalCopies(lines, pieces);
        Some(Around(lines, |lines|, Before(pieces)))
  }

  /** The script fails exactly when the song is not valid RTTTL once its
      dotted lengths are cut, or when it opens with a pause shorter than
      350 ms. */
  lemma MusicalPrintFails(lines: seq<string>, song: string, hz: PitchHz, f: Fmt)
    ensures var t := DropDotDigits(song);
      MusicalPrintFile(lines, song, hz, f).None? <==>
        Parse(t).Invalid? || OpensWithShortPause(Parse(t).value, hz)
  {
    var t := DropDotDigits(song);
    if Parse(t).Valid? {
      var m := Parse(t).value;
      ParsedMelody(t);
      var tones := Tones(m.notes, hz);
      BeepsFailOnlyAtStart(tones, |tones|);
    }
  }

  /** The melody's first note is a pause shorter than 350 ms. */
  predicate OpensWithShortPause(m: Melody, hz: PitchHz) {
    |m.notes| > 0 && NoteInRange(m.notes[0])
    && Frequency(m.notes[0], hz) == 0.0 && Milliseconds(m.notes[0]) < MaxBeep
  }

  /** The script as it runs. */
  method MusicalPrintMain(lines: seq<string>, song: string, hz: PitchHz, f: Fmt) returns (r: Option<seq<Write>>)
    ensures r == MusicalPrintFile(lines, song, hz, f)
  {
    var t := DropDotDigits(song);
    var v := Validate(t);
    if v.Invalid? {
      return None;
    }
    ParsedMelody(t);
    var g := WriteBeeps(v.value, hz);
    if g.None? {
      return None;
    }
    var out := Interleave(lines, Split(Text(g.value, f), '\n'));
    return Some(out);
  }
}
