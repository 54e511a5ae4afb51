// tonePlayer: an RTTTL reader that walks the tune one character at a time
// with a cursor, reading the defaults once and then yielding each note's
// frequency and length.

module TonePlayer {
  import opened Common

  /** Hz of each note index at octave 4: letters a to g at 0 to 6 (h shares
      b's entry), the pause at 7, and each sharp 8 above its letter; the
      zero entries are the pause and the sharps that do not exist. */
  const NoteHz: seq<real> := [440.0, 493.9, 261.6, 293.7, 329.6, 349.2, 392.0, 0.0,
                              466.2, 0.0, 277.2, 311.1, 0.0, 370.0, 415.3, 0.0]

  /** The exceptions that end the reading of a tune. */
  datatype ToneError =
    | WrongColons        // ValueError: the tune does not have exactly two ':'
    | NoTempo            // AttributeError: the defaults never set b
    | ZeroTempo          // ZeroDivisionError: b=0
    | NoDefaultDuration  // AttributeError: a note without a length and no d
    | NoDefaultOctave    // AttributeError: a note without an octave and no o
    | NegativeShift      // ValueError: an octave below 4 is a negative shift
    | ZeroDuration       // ZeroDivisionError: a note of length 0

  predicate IsAlpha(c: char) { IsLower(c) || IsUpper(c) }

  // ---------------------------------------------------------------------
  // parse_defaults: a letter selects the key and restarts its value, and
  // each digit extends the value and stores it under the key

  /** The scan state: the key being read, its value so far, and the three
      settings (None while never assigned). */
  datatype Scan = Scan(key: char, val: nat, octave: Option<nat>, duration: Option<nat>, bpm: Option<nat>)

  /** The settings before any character is read. */
  const Unset := Scan(' ', 0, None, None, None)

  /** The value v becomes the current value and is stored under the key. */
  function Store(st: Scan, v: nat): (r: Scan) {
    if st.key == 'o' then st.(val := v, octave := Some(v))
    else if st.key == 'd' then st.(val := v, duration := Some(v))
    else if st.key == 'b' then st.(val := v, bpm := Some(v))
    else st.(val := v)
  }

  function ScanChar(st: Scan, ch: char): (r: Scan) {
    var c := ToLowerChar(ch);
    if IsDigit(c) then Store(st, st.val * 10 + DigitValue(c))
    else if IsAlpha(c) then st.(key := c, val := 0)
    else st
  }

  /** The state after reading the characters of s in order. */
  function ScanText(st: Scan, s: string): (r: Scan)
    decreases |s|
  {
    if s == [] then st else ScanChar(ScanText(st, s[..|s| - 1]), s[|s| - 1])
  }

  lemma {:induction false} ScanAppend(st: Scan, a: string, b: string)
    ensures ScanText(st, a + b) == ScanText(ScanText(st, a), b)
    decreases |b|
  {
    if b == [] {
      assert a + b == a;
    } else {
      assert (a + b)[..|a + b| - 1] == a + b[..|b| - 1];
      ScanAppend(st, a, b[..|b| - 1]);
    }
  }

  /** A run of digits read from a fresh value stores the number it spells
      under the current key. */
  lemma {:induction false} ScanDigits(st: Scan, ds: string)
    requires st.val == 0 && |ds| > 0
    requires forall i :: 0 <= i < |ds| ==> IsDigit(ds[i])
    ensures ScanText(st, ds) == Store(st, DecimalValue(ds))
    decreases |ds|
  {
    var init := ds[..|ds| - 1];
    if |init| > 0 {
      ScanDigits(st, init);
    }
  }

  /** One setting as written: "<key>=<value>". */
  function Setting(key: char, n: nat): (r: string) {
    [key, '='] + NatToString(n)
  }

  /** The defaults section as written: "d=<d>,o=<o>,b=<b>". */
  function DefaultsText(d: nat, o: nat, b: nat): (r: string) {
    Setting('d', d) + [','] + Setting('o', o) + [','] + Setting('b', b)
  }

  /** A key letter, '=' and a digit run store the number under that key. */
  lemma ScanSetting(st: Scan, key: char, n: nat)
    requires IsLower(key)
    ensures ScanText(st, Setting(key, n)) == Store(st.(key := key, val := 0), n)
  {
    var ds := NatToString(n);
    ScanAppend(st, [key, '='], ds);
    assert [key, '='][..1] == [key];
    assert [key][..0] == [];
    assert ScanText(st, [key]) == st.(key := key, val := 0);
    assert ScanText(st, [key, '=']) == st.(key := key, val := 0);
    ScanDigits(st.(key := key, val := 0), ds);
    NatToStringRoundTrip(n);
  }

  /** A separator changes nothing. */
  lemma ScanComma(st: Scan, a: string)
    ensures ScanText(st, a + [',']) == ScanText(st, a)
  {
    assert (a + [','])[..|a|] == a;
  }

  /** The defaults written as "d=<d>,o=<o>,b=<b>" give those three values. */
  lemma DefaultsAsWritten(d: nat, o: nat, b: nat)
    ensures var st := ScanText(Unset, DefaultsText(d, o, b));
      st.duration == Some(d) && st.octave == Some(o) && st.bpm == Some(b)
  {
    var s1, s2, s3 := Setting('d', d), Setting('o', o), Setting('b', b);
    ScanSetting(Unset, 'd', d);
    var a1 := ScanText(Unset, s1);
    ScanComma(Unset, s1);
    ScanAppend(Unset, s1 + [','], s2);
    ScanSetting(a1, 'o', o);
    var a2 := ScanText(a1, s2);
    ScanComma(Unset, s1 + [','] + s2);
    ScanAppend(Unset, s1 + [','] + s2 + [','], s3);
    ScanSetting(a2, 'b', b);
  }

  /** The tempo is assigned only under key b: defaults in which no letter
      lowers to 'b' leave it unset. */
  lemma {:induction false} TempoNeedsKey(st: Scan, s: string)
    requires st.key != 'b'
    requires forall i :: 0 <= i < |s| ==> ToLowerChar(s[i]) != 'b'
    ensures ScanText(st, s).bpm == st.bpm && ScanText(st, s).key != 'b'
    decreases |s|
  {
    if s != [] {
      TempoNeedsKey(st, s[..|s| - 1]);
    }
  }

  // ---------------------------------------------------------------------
  // RTTTL(tune): the three ':' sections, the defaults and the tempo

  /** The default octave and length a note falls back on (None when the
      defaults never set them). */
  datatype Defaults = Defaults(octave: Option<nat>, duration: Option<nat>)

  /** A tune opened for reading: the note section, the defaults and the
      tempo. */
  datatype Opening = Opened(notes: string, defaults: Defaults, bpm: nat) | Refused(error: ToneError)

  function Open(tune: string): (r: Opening) {
    var pieces := Split(tune, ':');
    if |pieces| != 3 then Refused(WrongColons)
    else
      var st := ScanText(Unset, pieces[1]);
      if st.bpm.None? then Refused(NoTempo)
      else if st.bpm.value == 0 then Refused(ZeroTempo)
      else Opened(pieces[2], Defaults(st.octave, st.duration), st.bpm.value)
  }

  /** A tune is refused for its colons exactly when it does not have two;
      an opened tune has a positive tempo. */
  lemma OpenColons(tune: string)
    ensures Open(tune) == Refused(WrongColons) <==> CountChar(tune, ':') != 2
    ensures Open(tune).Opened? ==> Open(tune).bpm > 0
  {
    SplitJoin(tune, ':');
  }

  /** The ms of a whole note at the tempo: 60 s/min, 4 beats per whole
      note, 1000 ms/s. */
  function WholeNoteMs(bpm: nat): (r: real)
    requires bpm > 0
  {
    240000.0 / bpm as real
  }

  // ---------------------------------------------------------------------
  // next_char and the note generator

  /** next_char at cursor i: the character there, with ',' read as ' ',
      and the cursor one further; '|' without moving past the end. */
  function NextCharAt(tune: string, i: nat): (r: (char, nat))
    requires i <= |tune|
    ensures r.1 <= |tune|
    ensures r.0 != '|' ==> r.1 == i + 1
    ensures r.1 == i ==> r.0 == '|'
  {
    if i < |tune| then (if tune[i] == ',' then ' ' else tune[i], i + 1) else ('|', i)
  }

  /** The blank-skipping loop, from character c with the cursor at i. */
  function SkipBlanks(tune: string, c: char, i: nat): (r: (char, nat))
    requires i <= |tune|
    ensures i <= r.1 <= |tune| && r.0 != ' '
    ensures r.1 == i ==> r.0 == c || r.0 == '|'
    decreases |tune| - i, if c == ' ' then 1 else 0
  {
    if c == ' ' then
      var n := NextCharAt(tune, i);
      SkipBlanks(tune, n.0, n.1)
    else (c, i)
  }

  /** The duration loop: digits from character c extend acc. */
  function Digits(tune: string, c: char, i: nat, acc: nat): (r: (nat, char, nat))
    requires i <= |tune|
    ensures i <= r.2 <= |tune| && !IsDigit(r.1)
    ensures r.2 == i ==> r.1 == '|' || (r.1 == c && r.0 == acc)
    decreases |tune| - i, if IsDigit(c) then 1 else 0
  {
    if IsDigit(c) then
      var n := NextCharAt(tune, i);
      Digits(tune, n.0, n.1, acc * 10 + DigitValue(c))
    else (acc, c, i)
  }

  /** The note index of a lower-case note letter: a to g in order, h as b,
      anything else the pause. */
  function NoteIndex(c: char): (k: nat)
    ensures k < 8
  {
    if 'a' <= c <= 'g' then (c as int) - ('a' as int)
    else if c == 'h' then 1
    else 7
  }

  /** What a note reads as: its table index, octave, length (1 a whole
      note, 8 an eighth) and whether it is dotted. */
  datatype Tone = Tone(index: TableIndex, octave: Octave, duration: Length, dotted: bool)

  /** An index into the frequency table. */
  type TableIndex = k: nat | k < 16

  /** An octave the shift accepts: 1 << (octave - 4) needs octave >= 4. */
  type Octave = o: nat | 4 <= o witness 4

  /** A note length the division accepts. */
  type Length = n: nat | 0 < n witness 1

  function Pow2(k: nat): (r: nat)
    ensures r >= 1
  {
    if k == 0 then 1 else 2 * Pow2(k - 1)
  }

  /** The frequency yielded: the table entry shifted up by octave - 4. */
  function Frequency(t: Tone): (r: real)
  {
    NoteHz[t.index] * Pow2(t.octave - 4) as real
  }

  /** The ms yielded: the whole note divided by the length, times 1.5 when
      dotted. */
  function Msec(t: Tone, whole: real): (r: real)
  {
    whole / t.duration as real * (if t.dotted then 1.5 else 1.0)
  }

  /** One pass of the generator from cursor i: the end of the tune, the
      next note and the cursor after it, or the exception raised. */
  datatype Step = Stop | Yield(tone: Tone, next: nat) | Fail(error: ToneError)

  /** The start of a pass: the blanks skipped, the length read, and the
      character after it with the cursor past it. */
  function Head(tune: string, i: nat): (r: (nat, char, nat))
    requires i <= |tune|
    ensures i <= r.2 <= |tune| && (r.1 != '|' ==> i < r.2)
  {
    var c0 := NextCharAt(tune, i);
    var c1 := SkipBlanks(tune, c0.0, c0.1);
    Digits(tune, c1.0, c1.1, 0)
  }

  function NextNote(tune: string, i: nat, s: Defaults): (r: Step)
    requires i <= |tune|
    ensures r.Yield? ==> i < r.next <= |tune|
  {
    var d := Head(tune, i);
    if d.0 == 0 && s.duration.None? then Fail(NoDefaultDuration)
    else if d.1 == '|' then Stop
    else AfterLetter(tune, NoteIndex(ToLowerChar(d.1)), d.2, if d.0 == 0 then s.duration.value else d.0, s)
  }

  /** The rest of a note once its letter is read, with the cursor at j: an
      optional '#', a dot, an octave 4 to 7 and a dot, and the character
      after them. */
  function AfterLetter(tune: string, letter: nat, j: nat, duration: nat, s: Defaults): (r: Step)
    requires j <= |tune| && letter < 8
    ensures r.Yield? ==> j <= r.next <= |tune| && r.tone.duration == duration
  {
    var c3 := NextCharAt(tune, j);
    var index := if c3.0 == '#' then letter + 8 else letter;
    var c4 := if c3.0 == '#' then NextCharAt(tune, c3.1) else c3;
    var dot1 := c4.0 == '.';
    var c5 := if dot1 then NextCharAt(tune, c4.1) else c4;
    if !('4' <= c5.0 <= '7') && s.octave.None? then Fail(NoDefaultOctave)
    else
      var octave := if '4' <= c5.0 <= '7' then (c5.0 as int) - ('0' as int) else s.octave.value;
      var c6 := if '4' <= c5.0 <= '7' then NextCharAt(tune, c5.1) else c5;
      var dot2 := c6.0 == '.';
      var next := if dot2 then NextCharAt(tune, c6.1).1 else c6.1;
      if octave < 4 then Fail(NegativeShift)
      else if duration == 0 then Fail(ZeroDuration)
      else Yield(Tone(index, octave, duration, dot1 || dot2), next)
  }

  /** The notes the generator yields from cursor i, and the exception that
      ends it, if any. */
  function NotesFrom(tune: string, i: nat, s: Defaults): (r: (seq<Tone>, Option<ToneError>))
    requires i <= |tune|
    decreases |tune| - i
  {
    match NextNote(tune, i, s)
    case Stop => ([], None)
    case Fail(e) => ([], Some(e))
    case Yield(t, j) =>
      var rest := NotesFrom(tune, j, s);
      ([t] + rest.0, rest.1)
  }

  // ---------------------------------------------------------------------
  // What the table and the arithmetic give

  /** A note sounds as silence exactly when its letter is not a to h, or
      it is a sharp b, e or h. */
  lemma SilentNotes(letter: char, sharp: bool)
    ensures NoteHz[NoteIndex(letter) + (if sharp then 8 else 0)] == 0.0 <==>
      !('a' <= letter <= 'h') || (sharp && (letter == 'b' || letter == 'e' || letter == 'h'))
  {
  }

  /** One octave up doubles the frequency. */
  lemma OctaveDoubles(t: Tone)
    ensures Frequency(t.(octave := t.octave + 1)) == 2.0 * Frequency(t)
  {
    assert Pow2(t.octave + 1 - 4) == 2 * Pow2(t.octave - 4);
  }

  /** A dot makes a note half as long again. */
  lemma DotLengthens(t: Tone, whole: real)
    ensures Msec(t.(dotted := true), whole) == 1.5 * Msec(t.(dotted := false), whole)
  {
  }

  // ---------------------------------------------------------------------
  // Notes as written are read back

  /** A note written in full: its length, a lower-case letter, an optional
      sharp, an octave 4 to 7 and an optional dot after it, then ','. */
  datatype Written = Written(duration: Length, letter: char, sharp: bool, octave: Octave, dotted: bool)

  predicate WellWritten(w: Written) {
    IsLower(w.letter) && w.octave <= 7
  }

  function WrittenText(w: Written): (r: string)
    requires WellWritten(w)
  {
    NatToString(w.duration) + [w.letter] + (if w.sharp then "#" else "")
    + [(('0' as int) + w.octave) as char] + (if w.dotted then "." else "") + ","
  }

  /** The tone a written note stands for. */
  function WrittenTone(w: Written): (r: Tone) {
    Tone(NoteIndex(w.letter) + (if w.sharp then 8 else 0), w.octave, w.duration, w.dotted)
  }

  /** The duration loop over a run of digits t[i..k] reaches position j
      with the value of the digits before it. */
  lemma {:induction false} DigitsPrefix(t: string, i: nat, j: nat, k: nat)
    requires i <= j <= k < |t|
    requires forall m :: i <= m < k ==> IsDigit(t[m])
    requires t[k] != ','
    ensures Digits(t, t[i], i + 1, 0) == Digits(t, t[j], j + 1, DecimalValue(t[i..j]))
    decreases j - i
  {
    if j > i {
      DigitsPrefix(t, i, j - 1, k);
      assert t[i..j][..j - i - 1] == t[i..j - 1];
      assert NextCharAt(t, j) == (t[j], j + 1);
    }
  }

  /** Where the characters of a written note sit. */
  lemma WrittenChars(w: Written)
    requires WellWritten(w)
    ensures var text, n := WrittenText(w), |NatToString(w.duration)|;
      var q := n + 1 + (if w.sharp then 1 else 0);
      |text| == q + 2 + (if w.dotted then 1 else 0)
      && text[..n] == NatToString(w.duration) && text[n] == w.letter
      && (w.sharp ==> text[n + 1] == '#')
      && text[q] == (('0' as int) + w.octave) as char
      && (w.dotted ==> text[q + 1] == '.' && text[q + 2] == ',')
      && (!w.dotted ==> text[q + 1] == ',')
  {
  }

  /** After its letter, a written note reads its sharp, octave and dot. */
  lemma ReadAfterLetter(t: string, j: nat, w: Written, s: Defaults)
    requires WellWritten(w)
    requires var q := j + (if w.sharp then 1 else 0);
      q + 2 + (if w.dotted then 1 else 0) <= |t|
      && (w.sharp ==> t[j] == '#')
      && t[q] == (('0' as int) + w.octave) as char
      && (w.dotted ==> t[q + 1] == '.' && t[q + 2] == ',')
      && (!w.dotted ==> t[q + 1] == ',')
    ensures AfterLetter(t, NoteIndex(w.letter), j, w.duration, s)
      == Yield(WrittenTone(w), j + (if w.sharp then 1 else 0) + 2 + (if w.dotted then 1 else 0))
  {
  }

  /** The length of a written note is read up to its letter. */
  lemma ReadHead(t: string, i: nat, w: Written)
    requires WellWritten(w)
    requires i + |WrittenText(w)| <= |t| && t[i..i + |WrittenText(w)|] == WrittenText(w)
    ensures Head(t, i) == (w.duration, w.letter, i + |NatToString(w.duration)| + 1)
  {
    var text := WrittenText(w);
    var ds := NatToString(w.duration);
    var p := i + |ds|;
    WrittenChars(w);
    assert forall m :: 0 <= m < |text| ==> t[i + m] == text[m];
    assert t[i..p] == text[..|ds|];
    assert t[p] == w.letter && t[p] != ',';
    DigitsPrefix(t, i, p, p);
    NatToStringRoundTrip(w.duration);
    assert IsDigit(t[i]) && NextCharAt(t, i) == (t[i], i + 1);
    assert SkipBlanks(t, t[i], i + 1) == (t[i], i + 1);
  }

  /** A written note at cursor i reads back as its tone, with the cursor
      just after its ','. */
  lemma ReadWritten(t: string, i: nat, w: Written, s: Defaults)
    requires WellWritten(w)
    requires i + |WrittenText(w)| <= |t| && t[i..i + |WrittenText(w)|] == WrittenText(w)
    ensures NextNote(t, i, s) == Yield(WrittenTone(w), i + |WrittenText(w)|)
  {
    var text := WrittenText(w);
    var ds := NatToString(w.duration);
    var p := i + |ds|;
    WrittenChars(w);
    assert forall m :: 0 <= m < |text| ==> t[i + m] == text[m];
    ReadHead(t, i, w);
    ReadAfterLetter(t, p + 1, w, s);
    assert ToLowerChar(w.letter) == w.letter;
  }

  /** A yielded note heads the notes from its cursor. */
  lemma NotesAfterYield(t: string, i: nat, s: Defaults)
    requires i <= |t| && NextNote(t, i, s).Yield?
    ensures var n := NextNote(t, i, s); var rest := NotesFrom(t, n.next, s);
      NotesFrom(t, i, s) == ([n.tone] + rest.0, rest.1)
  {
  }

  /** The generator yields nothing more once a pass stops or fails. */
  lemma NotesAtEnd(t: string, i: nat, s: Defaults)
    requires i <= |t| && !NextNote(t, i, s).Yield?
    ensures NotesFrom(t, i, s) == ([], if NextNote(t, i, s).Fail? then Some(NextNote(t, i, s).error) else None)
  {
  }

  /** A tune of written notes. */
  function WrittenTune(ws: seq<Written>): (r: string)
    requires forall k :: 0 <= k < |ws| ==> WellWritten(ws[k])
  {
    if ws == [] then [] else WrittenText(ws[0]) + WrittenTune(ws[1..])
  }

  function WrittenTones(ws: seq<Written>): (r: seq<Tone>)
    ensures |r| == |ws| && forall k :: 0 <= k < |ws| ==> r[k] == WrittenTone(ws[k])
  {
    if ws == [] then [] else [WrittenTone(ws[0])] + WrittenTones(ws[1..])
  }

  /** The generator reads a tune of written notes back note for note; after
      the last one it looks for a length once more, which fails when the
      defaults gave no d. */
  lemma {:induction false} ReadWrittenTune(t: string, i: nat, ws: seq<Written>, s: Defaults)
    requires forall k :: 0 <= k < |ws| ==> WellWritten(ws[k])
    requires i <= |t| && t[i..] == WrittenTune(ws)
    ensures NotesFrom(t, i, s) == (WrittenTones(ws), if s.duration.None? then Some(NoDefaultDuration) else None)
    decreases |ws|
  {
    if ws == [] {
      assert i == |t|;
      assert NextNote(t, i, s) == if s.duration.None? then Fail(NoDefaultDuration) else Stop;
    } else {
      var text := WrittenText(ws[0]);
      assert t[i..][..|text|] == text;
      assert t[i..i + |text|] == text;
      ReadWritten(t, i, ws[0], s);
      assert t[i + |text|..] == t[i..][|text|..];
      ReadWrittenTune(t, i + |text|, ws[1..], s);
      NotesAfterYield(t, i, s);
    }
  }

  // ---------------------------------------------------------------------
  // The RTTTL object: the cursor moves as characters are read

  /** The frequency and ms yielded for each tone. */
  function Sounds(ts: seq<Tone>, whole: real): (r: seq<(real, real)>)
    ensures |r| == |ts|
    ensures forall k :: 0 <= k < |ts| ==> r[k] == (Frequency(ts[k]), Msec(ts[k], whole))
  {
    if ts == [] then []
    else Sounds(ts[..|ts| - 1], whole) + [(Frequency(ts[|ts| - 1]), Msec(ts[|ts| - 1], whole))]
  }

  lemma SoundsSnoc(ts: seq<Tone>, t: Tone, whole: real)
    ensures Sounds(ts + [t], whole) == Sounds(ts, whole) + [(Frequency(t), Msec(t, whole))]
  {
    assert (ts + [t])[..|ts|] == ts;
  }

  class Player {
    var tune: string
    var tuneIdx: nat
    var defaultOctave: Option<nat>
    var defaultDuration: Option<nat>
    var bpm: Option<nat>
    var msecPerWholeNote: real

    /** The cursor stays within the tune. */
    predicate Valid()
      reads this
    {
      tuneIdx <= |tune|
    }

    function CurrentDefaults(): (r: Defaults)
      reads this
    {
      Defaults(defaultOctave, defaultDuration)
    }

    /** The object before parse_defaults: the note section, the cursor at
        its start and no setting assigned. */
    constructor (notes: string)
      ensures tune == notes && tuneIdx == 0 && Valid()
      ensures defaultOctave.None? && defaultDuration.None? && bpm.None?
    {
      tune := notes;
      tuneIdx := 0;
      defaultOctave, defaultDuration, bpm := None, None, None;
      msecPerWholeNote := 0.0;
    }

    /** parse_defaults: the settings become those the scan of the defaults
        leaves, and the whole-note length follows from the tempo. */
    method ParseDefaults(defaults: string) returns (err: Option<ToneError>)
      modifies this
      ensures tune == old(tune) && tuneIdx == old(tuneIdx)
      ensures var st := ScanText(Scan(' ', 0, old(defaultOctave), old(defaultDuration), old(bpm)), defaults);
        defaultOctave == st.octave && defaultDuration == st.duration && bpm == st.bpm
      ensures err == if bpm.None? then Some(NoTempo) else if bpm.value == 0 then Some(ZeroTempo) else None
      ensures err.None? ==> msecPerWholeNote == WholeNoteMs(bpm.value)
    {
      ghost var init := Scan(' ', 0, defaultOctave, defaultDuration, bpm);
      var val: nat := 0;
      var id := ' ';
      var i := 0;
      while i < |defaults|
        invariant 0 <= i <= |defaults|
        invariant tune == old(tune) && tuneIdx == old(tuneIdx)
        invariant Scan(id, val, defaultOctave, defaultDuration, bpm) == ScanText(init, defaults[..i])
      {
        assert defaults[..i + 1][..i] == defaults[..i];
        var c := ToLowerChar(defaults[i]);
        if IsDigit(c) {
          val := val * 10 + DigitValue(c);
          if id == 'o' {
            defaultOctave := Some(val);
          } else if id == 'd' {
            defaultDuration := Some(val);
          } else if id == 'b' {
            bpm := Some(val);
          }
        } else if IsAlpha(c) {
          id := c;
          val := 0;
        }
        i := i + 1;
      }
      assert defaults[..i] == defaults;
      if bpm.None? {
        return Some(NoTempo);
      }
      if bpm.value == 0 {
        return Some(ZeroTempo);
      }
      msecPerWholeNote := WholeNoteMs(bpm.value);
      return None;
    }

    /** next_char: the character under the cursor, ',' read as ' ', or '|'
        at the end. */
    method NextChar() returns (c: char)
      requires Valid()
      modifies this`tuneIdx
      ensures Valid() && (c, tuneIdx) == NextCharAt(tune, old(tuneIdx))
    {
      if tuneIdx < |tune| {
        c := tune[tuneIdx];
        tuneIdx := tuneIdx + 1;
        if c == ',' {
          c := ' ';
        }
        return c;
      }
      return '|';
    }

    /** One pass of the generator: blanks, the length, the letter, and the
        rest of the note. */
    method ReadNote() returns (step: Step)
      requires Valid()
      modifies this`tuneIdx
      ensures Valid() && step == NextNote(tune, old(tuneIdx), CurrentDefaults())
      ensures step.Yield? ==> tuneIdx == step.next
    {
      var ch := NextChar();
      ghost var c0 := (ch, tuneIdx);
      while ch == ' '
        invariant Valid() && SkipBlanks(tune, ch, tuneIdx) == SkipBlanks(tune, c0.0, c0.1)
        decreases |tune| - tuneIdx, if ch == ' ' then 1 else 0
      {
        ch := NextChar();
      }
      ghost var c1 := (ch, tuneIdx);
      var duration: nat := 0;
      while IsDigit(ch)
        invariant Valid() && Digits(tune, ch, tuneIdx, duration) == Digits(tune, c1.0, c1.1, 0)
        decreases |tune| - tuneIdx, if IsDigit(ch) then 1 else 0
      {
        duration := duration * 10 + DigitValue(ch);
        ch := NextChar();
      }
      if duration == 0 {
        if defaultDuration.None? {
          return Fail(NoDefaultDuration);
        }
        duration := defaultDuration.value;
      }
      if ch == '|' {
        return Stop;
      }
      step := FinishNote(NoteIndex(ToLowerChar(ch)), duration);
    }

    /** The rest of a note after its letter: sharp, dot, octave, dot. */
    method FinishNote(letter: nat, duration: nat) returns (step: Step)
      requires Valid() && letter < 8
      modifies this`tuneIdx
      ensures Valid() && step == AfterLetter(tune, letter, old(tuneIdx), duration, CurrentDefaults())
      ensures step.Yield? ==> tuneIdx == step.next
    {
      var noteIdx := letter;
      var ch := NextChar();
      if ch == '#' {
        noteIdx := noteIdx + 8;
        ch := NextChar();
      }
      var dotted := false;
      if ch == '.' {
        dotted := true;
        ch := NextChar();
      }
      var octave: nat;
      if '4' <= ch <= '7' {
        octave := (ch as int) - ('0' as int);
        ch := NextChar();
      } else {
        if defaultOctave.None? {
          return Fail(NoDefaultOctave);
        }
        octave := defaultOctave.value;
      }
      if ch == '.' {
        dotted := true;
        ch := NextChar();
      }
      if octave < 4 {
        return Fail(NegativeShift);
      }
      if duration == 0 {
        return Fail(ZeroDuration);
      }
      return Yield(Tone(noteIdx, octave, duration, dotted), tuneIdx);
    }

    /** notes(): every note's frequency and ms in order, up to the end of
        the tune or the exception that stops the generator. */
    method Notes() returns (sounds: seq<(real, real)>, err: Option<ToneError>)
      requires Valid()
      modifies this`tuneIdx
      ensures var r := NotesFrom(tune, old(tuneIdx), CurrentDefaults());
        sounds == Sounds(r.0, msecPerWholeNote) && err == r.1
    {
      ghost var d := CurrentDefaults();
      ghost var start := tuneIdx;
      ghost var done: seq<Tone> := [];
      sounds := [];
      assert done + NotesFrom(tune, tuneIdx, d).0 == NotesFrom(tune, tuneIdx, d).0;
      while true
        invariant Valid()
        invariant NotesFrom(tune, start, d) ==
          (done + NotesFrom(tune, tuneIdx, d).0, NotesFrom(tune, tuneIdx, d).1)
        invariant sounds == Sounds(done, msecPerWholeNote)
        decreases |tune| - tuneIdx
      {
        ghost var before := tuneIdx;
        var step := ReadNote();
        match step
        case Stop =>
          NotesAtEnd(tune, before, d);
          assert done + [] == done;
          return sounds, None;
        case Fail(e) =>
          NotesAtEnd(tune, before, d);
          assert done + [] == done;
          return sounds, Some(e);
        case Yield(t, _) =>
          NotesAfterYield(tune, before, d);
          ghost var rest := NotesFrom(tune, tuneIdx, d);
          AppendAssoc(done, [t], rest.0);
          SoundsSnoc(done, t, msecPerWholeNote);
          sounds := sounds + [(Frequency(t), Msec(t, msecPerWholeNote))];
          done := done + [t];
      }
    }
  }

  /** RTTTL(tune): the note section after the second ':', read with the
      defaults between the two; an exception leaves no object. */
  method NewPlayer(text: string) returns (p: Player?, err: Option<ToneError>)
    ensures err.Some? <==> Open(text).Refused?
    ensures err.Some? ==> p == null && err.value == Open(text).error
    ensures err.None? ==> p != null && fresh(p) && p.Valid() && p.tuneIdx == 0 && p.bpm.Some?
    ensures err.None? ==> Open(text) == Opened(p.tune, p.CurrentDefaults(), p.bpm.value)
    ensures err.None? ==> p.msecPerWholeNote == WholeNoteMs(p.bpm.value)
  {
    var pieces := Split(text, ':');
    if |pieces| != 3 {
      return null, Some(WrongColons);
    }
    p := new Player(pieces[2]);
    err := p.ParseDefaults(pieces[1]);
    if err.Some? {
      p := null;
    }
  }
}
