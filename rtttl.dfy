/** The RTTTL (ring tone text transfer language) validator that the
    status-melody plugins share: the Rtttl constructor, which splits the
    text into name, settings and notes and checks each against the RTTTL
    limits, and the _RtttlNote frequency and duration. */
module Rtttl {
  import opened Common

  // ---------------------------------------------------------------------
  // Limits of the format

  datatype Settings = Settings(duration: nat, octave: nat, bpm: nat)

  const DefaultSettings := Settings(4, 6, 63)
  const Durations: seq<nat> := [1, 2, 4, 8, 16, 32]
  const MinOctave: nat := 4
  const MaxOctave: nat := 7
  const MinBpm: nat := 25
  const MaxBpm: nat := 900
  const Pitches: seq<string> := ["c", "c#", "d", "d#", "e", "f", "f#", "g", "g#", "a", "a#", "b", "h", "p"]
  const Pause: string := "p"

  /** Half steps from A of the same octave; "h" is the German name of B. */
  const NoteOffsets: map<string, int> :=
    map["c" := -9, "c#" := -8, "d" := -7, "d#" := -6, "e" := -5, "f" := -4, "f#" := -3,
        "g" := -2, "g#" := -1, "a" := 0, "a#" := 1, "b" := 2, "h" := 2]

  /** Membership in the pitch list, letter by letter: a to h, a sharp after
      c, d, f, g or a, and p for the pause. */
  predicate IsPitch(p: string) {
    (|p| == 1 && ('a' <= p[0] <= 'h' || p[0] == 'p'))
    || (|p| == 2 && p[1] == '#' && (p[0] == 'c' || p[0] == 'd' || p[0] == 'f' || p[0] == 'g' || p[0] == 'a'))
  }

  predicate IsPause(p: string) { |p| == 1 && p[0] == 'p' }

  /** The offset table, letter by letter. */
  function NoteOffset(p: string): (r: int)
    requires IsPitch(p) && !IsPause(p)
  {
    var natural :=
      match p[0]
      case 'c' => -9
      case 'd' => -7
      case 'e' => -5
      case 'f' => -4
      case 'g' => -2
      case 'a' => 0
      case _ => 2;
    if |p| == 2 then natural + 1 else natural
  }

  /** The letter-by-letter reading agrees with the pitch list and the
      offset table. */
  lemma PitchTables(p: string)
    ensures IsPitch(p) <==> p in Pitches
    ensures IsPause(p) <==> p == Pause
    ensures IsPitch(p) && !IsPause(p) <==> p in NoteOffsets
    ensures p in NoteOffsets ==> NoteOffsets[p] == NoteOffset(p)
  {
    if |p| == 1 {
      assert p == [p[0]];
    } else if |p| == 2 {
      assert p == [p[0], p[1]];
    }
  }

  predicate SettingsInRange(s: Settings) {
    s.duration in Durations && MinOctave <= s.octave <= MaxOctave && MinBpm <= s.bpm <= MaxBpm
  }

  /** The ValueError the constructor raises, by the check that raised it. */
  datatype Error =
    | EmptyString | TooManySections | EmptyNoteSection | BadSettingsSection
    | UnsupportedDuration | UnsupportedOctave | UnsupportedBpm | DoubleEntry
    | PitchMissing | UnsupportedPitch | PauseWithOctave

  datatype Outcome<T> = Valid(value: T) | Invalid(error: Error)

  /** A note as the constructor hands it to _RtttlNote: a pause has neither
      pitch nor octave, and the tempo is the melody's settings, from which
      the whole-note length follows. */
  datatype Note = Note(duration: nat, pitch: Option<string>, octave: Option<nat>, dotted: bool, tempo: Settings)

  predicate NoteInRange(n: Note) {
    n.duration in Durations && SettingsInRange(n.tempo)
    && (n.pitch.None? ==> n.octave.None?)
    && (n.pitch.Some? ==> IsPitch(n.pitch.value) && !IsPause(n.pitch.value) && n.octave.Some?
                          && MinOctave <= n.octave.value <= MaxOctave)
  }

  datatype Melody = Melody(name: string, settings: Settings, notes: seq<Note>)

  // ---------------------------------------------------------------------
  // The settings section: ^(d|o|b)\=\d+(,(d|o|b)\=\d+){0,2}$

  predicate IsKey(c: char) { c == 'd' || c == 'o' || c == 'b' }

  predicate SettingItem(s: string) {
    |s| >= 3 && IsKey(s[0]) && s[1] == '=' && forall i :: 2 <= i < |s| ==> IsDigit(s[i])
  }

  /** The settings pattern matches exactly the texts whose comma-separated
      pieces are one to three `key=digits` items (the pattern has no other
      comma, and it is only ever applied to stripped text). */
  predicate SettingsPattern(t: string) {
    var items := Split(t, ',');
    |items| <= 3 && forall i :: 0 <= i < |items| ==> SettingItem(items[i])
  }

  datatype Handled = Handled(duration: bool, octave: bool, bpm: bool)

  predicate IsHandled(h: Handled, key: char) {
    (key == 'd' && h.duration) || (key == 'o' && h.octave) || (key == 'b' && h.bpm)
  }

  datatype SettingsState = SettingsState(settings: Settings, handled: Handled)

  const Unhandled := SettingsState(DefaultSettings, Handled(false, false, false))

  /** One pass of the settings loop: the first item with a key sets it
      (within the limits), a second item with the same key is a double entry. */
  function ApplySetting(st: SettingsState, item: string): (r: Outcome<SettingsState>)
    requires SettingItem(item)
    ensures r == Invalid(DoubleEntry) <==> IsHandled(st.handled, item[0])
    ensures r.Invalid? ==> r.error in {DoubleEntry, UnsupportedDuration, UnsupportedOctave, UnsupportedBpm}
    ensures r.Valid? ==> forall k :: IsHandled(r.value.handled, k) <==> IsHandled(st.handled, k) || k == item[0]
    ensures r.Valid? && SettingsInRange(st.settings) ==> SettingsInRange(r.value.settings)
  {
    var v := DecimalValue(item[2..]);
    var s := st.settings;
    var h := st.handled;
    if item[0] == 'd' && !h.duration then
      if v in Durations then Valid(SettingsState(s.(duration := v), h.(duration := true)))
      else Invalid(UnsupportedDuration)
    else if item[0] == 'o' && !h.octave then
      if MinOctave <= v <= MaxOctave then Valid(SettingsState(s.(octave := v), h.(octave := true)))
      else Invalid(UnsupportedOctave)
    else if item[0] == 'b' && !h.bpm then
      if MinBpm <= v <= MaxBpm then Valid(SettingsState(s.(bpm := v), h.(bpm := true)))
      else Invalid(UnsupportedBpm)
    else Invalid(DoubleEntry)
  }

  predicate AllItems(items: seq<string>) {
    forall i :: 0 <= i < |items| ==> SettingItem(items[i])
  }

  /** The settings loop after its first n items. */
  function SettingsAfter(items: seq<string>, n: nat): (r: Outcome<SettingsState>)
    requires n <= |items| && AllItems(items)
    ensures r.Invalid? ==> r.error in {DoubleEntry, UnsupportedDuration, UnsupportedOctave, UnsupportedBpm}
  {
    if n == 0 then Valid(Unhandled)
    else match SettingsAfter(items, n - 1)
      case Invalid(e) => Invalid(e)
      case Valid(st) => ApplySetting(st, items[n - 1])
  }

  /** The first error stops the settings loop. */
  lemma {:induction false} SettingsStopAt(items: seq<string>, i: nat, n: nat)
    requires i <= n <= |items| && AllItems(items) && SettingsAfter(items, i).Invalid?
    ensures SettingsAfter(items, n) == SettingsAfter(items, i)
    decreases n
  {
    if n > i {
      SettingsStopAt(items, i, n - 1);
    }
  }

  /** The settings that the loop accepts are in range, no key is given
      twice, and each key holds the value of its item or else its default. */
  lemma {:induction false} SettingsAccepted(items: seq<string>, n: nat)
    requires n <= |items| && AllItems(items)
    requires SettingsAfter(items, n).Valid?
    ensures forall i, j :: 0 <= i < j < n ==> items[i][0] != items[j][0]
    ensures forall i :: 0 <= i < n ==> IsHandled(SettingsAfter(items, n).value.handled, items[i][0])
    ensures var s := SettingsAfter(items, n).value.settings;
      forall i :: 0 <= i < n ==>
        (items[i][0] == 'd' ==> s.duration == DecimalValue(items[i][2..])) &&
        (items[i][0] == 'o' ==> s.octave == DecimalValue(items[i][2..])) &&
        (items[i][0] == 'b' ==> s.bpm == DecimalValue(items[i][2..]))
    ensures var s := SettingsAfter(items, n).value.settings;
      (forall i :: 0 <= i < n ==> items[i][0] != 'd') ==> s.duration == DefaultSettings.duration
    ensures var s := SettingsAfter(items, n).value.settings;
      (forall i :: 0 <= i < n ==> items[i][0] != 'o') ==> s.octave == DefaultSettings.octave
    ensures var s := SettingsAfter(items, n).value.settings;
      (forall i :: 0 <= i < n ==> items[i][0] != 'b') ==> s.bpm == DefaultSettings.bpm
  {
    if n > 0 {
      SettingsAccepted(items, n - 1);
      var prev := SettingsAfter(items, n - 1).value;
      var k := items[n - 1][0];
      assert !IsHandled(prev.handled, k);
    }
  }

  /** The settings that the loop accepts are in range. */
  lemma {:induction false} SettingsAcceptedInRange(items: seq<string>, n: nat)
    requires n <= |items| && AllItems(items)
    requires SettingsAfter(items, n).Valid?
    ensures SettingsInRange(SettingsAfter(items, n).value.settings)
  {
    if n > 0 {
      SettingsAcceptedInRange(items, n - 1);
    }
  }

  /** Whole-note length in ms, from the beat length 60 s / bpm. */
  function WholeNoteMs(s: Settings): (r: real)
    requires s.bpm > 0
  {
    60.0 / s.bpm as real * 1000.0 * s.duration as real
  }

  /** One beat is the time of a note of the settings duration, and a whole
      note lasts that many beats. */
  lemma BeatLength(s: Settings)
    requires s.bpm > 0 && s.duration > 0
    ensures WholeNoteMs(s) / s.duration as real == 60000.0 / s.bpm as real
    ensures WholeNoteMs(s) > 0.0
  {
    var beat := 60.0 / s.bpm as real;
    assert beat > 0.0;
    assert WholeNoteMs(s) == beat * 1000.0 * s.duration as real;
  }

  // ---------------------------------------------------------------------
  // One note: ^(?P<duration>\d+)?(?P<pitch>[^0-9.]+?)(?P<octave>\d+)?(?P<dotted>\.)?$

  predicate PitchChar(c: char) { !IsDigit(c) && c != '.' }

  /** The end of the run of digits that starts at i. */
  function DigitEnd(s: string, i: nat): (j: nat)
    requires i <= |s|
    ensures i <= j <= |s|
    ensures forall k :: i <= k < j ==> IsDigit(s[k])
    ensures j == |s| || !IsDigit(s[j])
    decreases |s| - i
  {
    if i < |s| && IsDigit(s[i]) then DigitEnd(s, i + 1) else i
  }

  /** Where `$` matches: at the end, or before a final newline. */
  predicate AtEnd(s: string, k: nat) {
    k == |s| || (k + 1 == |s| && s[k] == '\n')
  }

  /** What the groups after the pitch match when the pitch ends at p. */
  datatype Tail = Tail(octaveEnd: nat, dotted: bool)

  /** `(\d+)?(\.)?$` at p: the digits are taken greedily, the dot if it
      is followed by the end; giving back digits cannot help, since a digit
      is neither a dot nor the end. */
  function TailAt(s: string, p: nat): (r: Option<Tail>)
    requires p <= |s|
    ensures r.Some? ==> p <= r.value.octaveEnd <= |s|
    ensures r.Some? ==> forall k :: p <= k < r.value.octaveEnd ==> IsDigit(s[k])
    ensures r.Some? && r.value.dotted ==> r.value.octaveEnd < |s| && s[r.value.octaveEnd] == '.'
                                          && AtEnd(s, r.value.octaveEnd + 1)
    ensures r.Some? && !r.value.dotted ==> AtEnd(s, r.value.octaveEnd)
  {
    var j := DigitEnd(s, p);
    if j < |s| && s[j] == '.' && AtEnd(s, j + 1) then Some(Tail(j, true))
    else if AtEnd(s, j) then Some(Tail(j, false))
    else None
  }

  /** The lazy pitch group: the shortest pitch from i that the tail accepts. */
  function LazyPitch(s: string, i: nat, p: nat): (r: Option<(nat, Tail)>)
    requires i < p <= |s|
    requires forall k :: i <= k < p ==> PitchChar(s[k])
    ensures r.Some? ==> p <= r.value.0 <= |s| && TailAt(s, r.value.0) == Some(r.value.1)
    ensures r.Some? ==> forall k :: i <= k < r.value.0 ==> PitchChar(s[k])
    decreases |s| - p
  {
    match TailAt(s, p)
    case Some(t) => Some((p, t))
    case None => if p < |s| && PitchChar(s[p]) then LazyPitch(s, i, p + 1) else None
  }

  /** The named groups of a matching note. */
  datatype NoteGroups = NoteGroups(duration: Option<string>, pitch: string, octave: Option<string>, dotted: bool)

  predicate AllDigits(s: string) { forall k :: 0 <= k < |s| ==> IsDigit(s[k]) }

  function Matched(s: string, i: nat, p: nat, t: Tail): (r: NoteGroups)
    requires i <= p <= t.octaveEnd <= |s|
  {
    NoteGroups(if i == 0 then None else Some(s[..i]), s[i..p],
               if t.octaveEnd == p then None else Some(s[p..t.octaveEnd]), t.dotted)
  }

  /** re.match of the note pattern. */
  function MatchNote(s: string): (r: Option<NoteGroups>)
    ensures r.Some? && r.value.duration.Some? ==> |r.value.duration.value| > 0 && AllDigits(r.value.duration.value)
    ensures r.Some? && r.value.octave.Some? ==> |r.value.octave.value| > 0 && AllDigits(r.value.octave.value)
  {
    var i := DigitEnd(s, 0);
    if i < |s| && PitchChar(s[i]) then
      match LazyPitch(s, i, i + 1)
      case Some((p, t)) => Some(Matched(s, i, p, t))
      case None => None
    else None
  }

  function GroupsText(g: NoteGroups): (r: string) {
    (if g.duration.Some? then g.duration.value else "") + g.pitch
    + (if g.octave.Some? then g.octave.value else "") + (if g.dotted then "." else "")
  }

  /** The groups of a match tile the note: laid end to end they give the
      note text, less at most a final newline. */
  lemma MatchTiles(s: string)
    requires MatchNote(s).Some?
    ensures var g := GroupsText(MatchNote(s).value);
      g == s || g + "\n" == s
  {
    var i := DigitEnd(s, 0);
    var pt := LazyPitch(s, i, i + 1).value;
    var p, t := pt.0, pt.1;
    var e := if t.dotted then t.octaveEnd + 1 else t.octaveEnd;
    GroupsCover(s, i, p, t);
    assert TailAt(s, p) == Some(t);
    assert AtEnd(s, e);
    UpToEnd(s, e);
  }

  /** The groups of the match laid end to end are the text up to the end
      of the match. */
  lemma GroupsCover(s: string, i: nat, p: nat, t: Tail)
    requires i == DigitEnd(s, 0) && i < |s| && PitchChar(s[i]) && LazyPitch(s, i, i + 1) == Some((p, t))
    ensures MatchNote(s).Some?
    ensures var e := if t.dotted then t.octaveEnd + 1 else t.octaveEnd;
      e <= |s| && GroupsText(MatchNote(s).value) == s[..e]
  {
    var e := if t.dotted then t.octaveEnd + 1 else t.octaveEnd;
    var g := MatchNote(s).value;
    GroupParts(s, i, p, t);
    FourSlices(s, i, p, t.octaveEnd, e);
    assert GroupsText(g) == s[..i] + s[i..p] + s[p..t.octaveEnd] + s[t.octaveEnd..e];
  }

  /** Each group of the match is the slice of text it covers. */
  lemma GroupParts(s: string, i: nat, p: nat, t: Tail)
    requires i == DigitEnd(s, 0) && i < |s| && PitchChar(s[i]) && LazyPitch(s, i, i + 1) == Some((p, t))
    ensures MatchNote(s).Some?
    ensures var g := MatchNote(s).value;
      var e := if t.dotted then t.octaveEnd + 1 else t.octaveEnd;
      i < p <= t.octaveEnd <= e <= |s|
      && (if g.duration.Some? then g.duration.value else "") == s[..i]
      && g.pitch == s[i..p]
      && (if g.octave.Some? then g.octave.value else "") == s[p..t.octaveEnd]
      && (if g.dotted then "." else "") == s[t.octaveEnd..e]
  {
    assert TailAt(s, p) == Some(t);
    assert MatchNote(s) == Some(Matched(s, i, p, t));
    MatchedParts(s, i, p, t);
  }

  lemma MatchedParts(s: string, i: nat, p: nat, t: Tail)
    requires i <= p <= t.octaveEnd <= |s|
    requires t.dotted ==> t.octaveEnd < |s| && s[t.octaveEnd] == '.'
    ensures var g := Matched(s, i, p, t);
      var e := if t.dotted then t.octaveEnd + 1 else t.octaveEnd;
      e <= |s|
      && (if g.duration.Some? then g.duration.value else "") == s[..i]
      && g.pitch == s[i..p]
      && (if g.octave.Some? then g.octave.value else "") == s[p..t.octaveEnd]
      && (if g.dotted then "." else "") == s[t.octaveEnd..e]
  {
    var e := if t.dotted then t.octaveEnd + 1 else t.octaveEnd;
    if t.dotted {
      DotSlice(s, t.octaveEnd);
    } else {
      assert s[t.octaveEnd..e] == "";
    }
  }

  lemma DotSlice(s: string, k: nat)
    requires k < |s| && s[k] == '.'
    ensures s[k..k + 1] == "."
  {
    assert s[k..k + 1] == [s[k]];
  }

  /** Text up to where `$` matched is the whole text less at most a final
      newline. */
  lemma UpToEnd(s: string, e: nat)
    requires e <= |s| && AtEnd(s, e)
    ensures s[..e] == s || s[..e] + "\n" == s
  {
    if e < |s| {
      TakeSnoc(s, e);
      assert s[..e + 1] == s;
    }
  }

  /** The checks on one note after the pattern matched. */
  function ParseNote(text: string, s: Settings): (r: Outcome<Note>)
    ensures r == Invalid(PitchMissing) <==> MatchNote(text).None?
    ensures r.Invalid? ==> NoteError(r.error)
  {
    match MatchNote(text)
    case None => Invalid(PitchMissing)
    case Some(g) =>
      var duration := if g.duration.Some? then DecimalValue(g.duration.value) else s.duration;
      if g.duration.Some? && duration !in Durations then Invalid(UnsupportedDuration)
      else if !IsPitch(g.pitch) then Invalid(UnsupportedPitch)
      else if IsPause(g.pitch) && g.octave.Some? then Invalid(PauseWithOctave)
      else
        var octave := if g.octave.Some? then DecimalValue(g.octave.value) else s.octave;
        if g.octave.Some? && !(MinOctave <= octave <= MaxOctave) then Invalid(UnsupportedOctave)
        else if IsPause(g.pitch) then Valid(Note(duration, None, None, g.dotted, s))
        else Valid(Note(duration, Some(g.pitch), Some(octave), g.dotted, s))
  }

  /** A note that passes the checks is within the limits; what its text
      leaves out comes from the settings; its pitch is absent exactly for
      the pause. */
  lemma ParsedNote(text: string, s: Settings)
    requires ParseNote(text, s).Valid?
    ensures var n := ParseNote(text, s).value; var g := MatchNote(text).value;
      n.tempo == s && n.dotted == g.dotted
      && (n.pitch.None? <==> IsPause(g.pitch))
      && (n.pitch.Some? ==> n.pitch.value == g.pitch)
      && (g.duration.None? ==> n.duration == s.duration)
      && (g.duration.Some? ==> n.duration == DecimalValue(g.duration.value))
      && (n.pitch.Some? && g.octave.None? ==> n.octave == Some(s.octave))
      && (n.pitch.Some? && g.octave.Some? ==> n.octave == Some(DecimalValue(g.octave.value)))
      && (SettingsInRange(s) ==> NoteInRange(n))
  {
  }

  /** The note check for a melody's settings. */
  function NoteParser(s: Settings): (r: string -> Outcome<Note>) {
    t => ParseNote(t, s)
  }

  /** A loop that checks each text in turn and stops at the first error,
      after its first n texts. */
  function ParseEach<T>(texts: seq<string>, n: nat, parse: string -> Outcome<T>): (r: Outcome<seq<T>>)
    requires n <= |texts|
    ensures r.Valid? ==> |r.value| == n
  {
    if n == 0 then Valid([])
    else match ParseEach(texts, n - 1, parse)
      case Invalid(e) => Invalid(e)
      case Valid(items) =>
        match parse(texts[n - 1])
        case Invalid(e) => Invalid(e)
        case Valid(item) => Valid(items + [item])
  }

  /** The first error stops the loop. */
  lemma {:induction false} ParseEachStopAt<T>(texts: seq<string>, i: nat, n: nat, parse: string -> Outcome<T>)
    requires i <= n <= |texts| && ParseEach(texts, i, parse).Invalid?
    ensures ParseEach(texts, n, parse) == ParseEach(texts, i, parse)
    decreases n
  {
    if n > i {
      ParseEachStopAt(texts, i, n - 1, parse);
    }
  }

  /** Each result is the check of its own text. */
  lemma {:induction false} ParseEachResults<T>(texts: seq<string>, n: nat, parse: string -> Outcome<T>)
    requires n <= |texts| && ParseEach(texts, n, parse).Valid?
    ensures forall k :: 0 <= k < n ==> parse(texts[k]) == Valid(ParseEach(texts, n, parse).value[k])
  {
    if n > 0 {
      ParseEachResults(texts, n - 1, parse);
      var prev := ParseEach(texts, n - 1, parse).value;
      var item := parse(texts[n - 1]).value;
      assert ParseEach(texts, n, parse).value == prev + [item];
    }
  }

  /** The error is the error of a text the loop reached. */
  lemma {:induction false} ParseEachError<T>(texts: seq<string>, n: nat, parse: string -> Outcome<T>)
    requires n <= |texts| && ParseEach(texts, n, parse).Invalid?
    ensures exists k :: 0 <= k < n && parse(texts[k]) == Invalid(ParseEach(texts, n, parse).error)
  {
    if ParseEach(texts, n - 1, parse).Invalid? {
      ParseEachError(texts, n - 1, parse);
    } else {
      assert parse(texts[n - 1]) == Invalid(ParseEach(texts, n, parse).error);
    }
  }

  // ---------------------------------------------------------------------
  // The whole constructor

  function NoteTexts(sections: seq<string>): (r: seq<string>)
    requires |sections| > 0
    ensures |r| >= 1
  {
    Split(Lower(Strip(sections[|sections| - 1])), ',')
  }

  /** The name and the setting items, from the sections before the notes:
      three sections are name, settings (possibly empty) and notes; of two,
      the first is the settings when it matches the pattern, else the name. */
  function Header(sections: seq<string>): (r: Outcome<(string, Option<seq<string>>)>)
    requires 1 <= |sections| <= 3
    ensures r.Valid? && r.value.1.Some? ==> AllItems(r.value.1.value)
    ensures r.Invalid? ==> r.error == BadSettingsSection
  {
    if |sections| == 3 then
      if sections[1] == "" then Valid((sections[0], None))
      else
        var t := Lower(Strip(sections[1]));
        if SettingsPattern(t) then Valid((sections[0], Some(Split(t, ','))))
        else Invalid(BadSettingsSection)
    else if |sections| == 2 then
      var t := Lower(Strip(sections[0]));
      if SettingsPattern(t) then Valid(("", Some(Split(t, ','))))
      else Valid((sections[0], None))
    else Valid(("", None))
  }

  function SettingsOf(items: Option<seq<string>>): (r: Outcome<SettingsState>)
    requires items.Some? ==> AllItems(items.value)
    ensures r.Invalid? ==> r.error in {DoubleEntry, UnsupportedDuration, UnsupportedOctave, UnsupportedBpm}
  {
    if items.None? then Valid(Unhandled) else SettingsAfter(items.value, |items.value|)
  }

  /** The errors the notes loop raises. */
  predicate NoteError(e: Error) {
    e == PitchMissing || e == UnsupportedDuration || e == UnsupportedPitch
    || e == PauseWithOctave || e == UnsupportedOctave
  }

  /** The constructor once the text is split into at most three sections. */
  function ParseSections(sections: seq<string>): (r: Outcome<Melody>)
    requires 1 <= |sections| <= 3
  {
    var texts := NoteTexts(sections);
    if texts[0] == "" then Invalid(EmptyNoteSection)
    else match Header(sections)
      case Invalid(e) => Invalid(e)
      case Valid((name, items)) =>
        match SettingsOf(items)
        case Invalid(e) => Invalid(e)
        case Valid(st) =>
          match ParseEach(texts, |texts|, NoteParser(st.settings))
          case Invalid(e) => Invalid(e)
          case Valid(notes) => Valid(Melody(name, st.settings, notes))
  }

  /** Rtttl(s): the melody, or the ValueError it raises. */
  function Parse(s: string): (r: Outcome<Melody>) {
    if s == "" then Invalid(EmptyString)
    else if |Split(s, ':')| > 3 then Invalid(TooManySections)
    else ParseSections(Split(s, ':'))
  }

  /** Only an empty text raises the empty-string error, and only a text
      of more than three sections the too-many-sections error: no later
      stage raises either. */
  lemma ParseFailures(s: string)
    ensures Parse(s) == Invalid(EmptyString) <==> s == ""
    ensures Parse(s) == Invalid(TooManySections) <==> s != "" && |Split(s, ':')| > 3
  {
    if s != "" && |Split(s, ':')| <= 3 {
      var sections := Split(s, ':');
      assert Parse(s) == ParseSections(sections);
      var texts := NoteTexts(sections);
      if texts[0] != "" && Header(sections).Valid? && SettingsOf(Header(sections).value.1).Valid? {
        var st := SettingsOf(Header(sections).value.1).value;
        var parse := NoteParser(st.settings);
        var each := ParseEach(texts, |texts|, parse);
        if each.Invalid? {
          ParseEachError(texts, |texts|, parse);
          var k :| 0 <= k < |texts| && parse(texts[k]) == Invalid(each.error);
          assert ParseNote(texts[k], st.settings) == Invalid(each.error);
        }
      }
    }
  }

  /** A melody that parses has settings within the limits, one note per
      comma-separated note text, each within the limits and each the parse
      of its own text against the melody's settings. */
  lemma ParsedMelody(s: string)
    requires Parse(s).Valid?
    ensures var m := Parse(s).value; var texts := NoteTexts(Split(s, ':'));
      SettingsInRange(m.settings) && |m.notes| == |texts|
      && (forall k :: 0 <= k < |m.notes| ==> NoteInRange(m.notes[k]))
      && (forall k :: 0 <= k < |m.notes| ==>
            ParseNote(texts[k], m.settings) == Valid(m.notes[k]))
  {
    var sections := Split(s, ':');
    assert Parse(s) == ParseSections(sections);
    var texts := NoteTexts(sections);
    var h := Header(sections).value;
    if h.1.Some? {
      SettingsAccepted(h.1.value, |h.1.value|);
      SettingsAcceptedInRange(h.1.value, |h.1.value|);
    }
    var st := SettingsOf(h.1).value;
    assert SettingsInRange(st.settings);
    var notes := ParseEach(texts, |texts|, NoteParser(st.settings));
    assert Parse(s).value.notes == notes.value;
    NotesAccepted(texts, st.settings);
  }

  /** Every note the notes loop accepts is the check of its own text and,
      under settings in range, in range itself. */
  lemma NotesAccepted(texts: seq<string>, s: Settings)
    requires ParseEach(texts, |texts|, NoteParser(s)).Valid?
    ensures var notes := ParseEach(texts, |texts|, NoteParser(s)).value;
      (forall k :: 0 <= k < |notes| ==> ParseNote(texts[k], s) == Valid(notes[k]))
      && (SettingsInRange(s) ==> forall k :: 0 <= k < |notes| ==> NoteInRange(notes[k]))
  {
    var parse := NoteParser(s);
    var notes := ParseEach(texts, |texts|, parse).value;
    ParseEachResults(texts, |texts|, parse);
    forall k | 0 <= k < |notes| ensures ParseNote(texts[k], s) == Valid(notes[k]) {
      assert parse(texts[k]) == ParseNote(texts[k], s);
    }
    if SettingsInRange(s) {
      forall k | 0 <= k < |notes| ensures NoteInRange(notes[k]) {
        ParsedNote(texts[k], s);
      }
    }
  }

  /** The roles of the sections: a three-part text is named by its first
      part; a two-part text whose first part is not a settings list is named
      by it and keeps the default settings; a lone note section has no
      name and the default settings. */
  lemma SectionRoles(s: string)
    requires Parse(s).Valid?
    ensures var sections := Split(s, ':'); var m := Parse(s).value;
      (|sections| == 3 ==> m.name == sections[0])
      && (|sections| == 3 && sections[1] == "" ==> m.settings == DefaultSettings)
      && (|sections| == 2 && SettingsPattern(Lower(Strip(sections[0]))) ==> m.name == "")
      && (|sections| == 2 && !SettingsPattern(Lower(Strip(sections[0]))) ==>
            m.name == sections[0] && m.settings == DefaultSettings)
      && (|sections| == 1 ==> m.name == "" && m.settings == DefaultSettings)
  {
    var sections := Split(s, ':');
    assert Parse(s) == ParseSections(sections);
    var h := Header(sections).value;
    var st := SettingsOf(h.1).value;
    assert Parse(s).value.name == h.0 && Parse(s).value.settings == st.settings;
  }

  // ---------------------------------------------------------------------
  // _RtttlNote: frequency and duration

  /** The half-step offset from A4 as _RtttlNote computes it: the octave
      term is 12 * (4 - octave). */
  function OffsetAsWritten(pitch: string, octave: int): (r: int)
    requires IsPitch(pitch) && !IsPause(pitch)
  {
    NoteOffset(pitch) + 12 * (4 - octave)
  }

  /** The half-step offset from A4 that the frequency formula f = 2^(n/12)
      * 440 is meant to receive: higher octaves are higher notes. */
  function Offset(pitch: string, octave: int): (n: int)
    requires IsPitch(pitch) && !IsPause(pitch)
    ensures pitch == "a" ==> n == 12 * (octave - 4)
  {
    NoteOffset(pitch) + 12 * (octave - 4)
  }

  /** The corrected offset rises by an octave of half steps per octave
      and puts A4 at the standard pitch. */
  lemma OffsetRisesWithOctave(pitch: string, octave: int)
    requires IsPitch(pitch) && !IsPause(pitch)
    ensures Offset(pitch, octave + 1) == Offset(pitch, octave) + 12
    ensures Offset("a", 4) == 0
  {
  }

  /** As written, the offset mirrors the octave around 4: a note written
      in octave o sounds in octave 8 - o, so A5 plays one octave below A4
      instead of one above. */
  lemma OffsetAsWrittenMirrors(pitch: string, octave: int)
    requires IsPitch(pitch) && !IsPause(pitch)
    ensures OffsetAsWritten(pitch, octave) == Offset(pitch, 8 - octave)
    ensures OffsetAsWritten(pitch, octave + 1) == OffsetAsWritten(pitch, octave) - 12
    ensures OffsetAsWritten("a", 5) == -12 && Offset("a", 5) == 12
  {
  }

  /** round(2^(n/12) * 440, 2): the frequency of the note n half steps
      above A4 (floating point is not modelled). */
  type PitchHz = int -> real

  /** The note's frequency as _RtttlNote computes it, with the offset as
      written: a note sounds at the pitch the corrected offset gives the
      mirrored octave 8 - o. A pause has frequency 0. */
  function Frequency(n: Note, hz: PitchHz): (f: real)
    requires NoteInRange(n)
    ensures n.pitch.None? ==> f == 0.0
    ensures n.pitch.Some? ==> f == hz(OffsetAsWritten(n.pitch.value, n.octave.value))
    ensures n.pitch.Some? ==> f == hz(Offset(n.pitch.value, 8 - n.octave.value))
  {
    if n.pitch.None? then 0.0 else hz(OffsetAsWritten(n.pitch.value, n.octave.value))
  }

  /** The frequency the note is meant to have: the corrected offset. */
  function FrequencyFixed(n: Note, hz: PitchHz): (f: real)
    requires NoteInRange(n)
    ensures n.pitch.None? ==> f == 0.0
    ensures n.pitch.Some? ==> f == hz(Offset(n.pitch.value, n.octave.value))
  {
    if n.pitch.None? then 0.0 else hz(Offset(n.pitch.value, n.octave.value))
  }

  /** With the corrected offset, the same pitch one octave up has the
      frequency of the note twelve half steps above. */
  lemma FrequencyFixedOctave(n: Note, hz: PitchHz)
    requires NoteInRange(n) && n.pitch.Some?
    requires NoteInRange(n.(octave := Some(n.octave.value + 1)))
    ensures FrequencyFixed(n.(octave := Some(n.octave.value + 1)), hz) ==
      hz(Offset(n.pitch.value, n.octave.value) + 12)
  {
  }

  /** The note's length in ms, int(round(whole / duration [* 1.5], 0));
      the plugins run under Python 2, whose round takes halves away from 0. */
  function Milliseconds(n: Note): (ms: int)
    requires NoteInRange(n)
    ensures var exact := WholeNoteMs(n.tempo) / n.duration as real * (if n.dotted then 1.5 else 1.0);
      exact - 0.5 <= ms as real <= exact + 0.5
  {
    RoundHalfAway(WholeNoteMs(n.tempo) / n.duration as real * (if n.dotted then 1.5 else 1.0))
  }

  // ---------------------------------------------------------------------
  // The constructor as it runs

  /** Rtttl.__init__: the section checks, the settings loop with its
      handled flags, and the notes loop. */
  method Validate(s: string) returns (r: Outcome<Melody>)
    ensures r == Parse(s)
  {
    if s == "" {
      return Invalid(EmptyString);
    }
    var sections := Split(s, ':');
    if |sections| > 3 {
      return Invalid(TooManySections);
    }
    assert Parse(s) == ParseSections(sections);
    var texts := Split(Lower(Strip(sections[|sections| - 1])), ',');
    if texts[0] == "" {
      return Invalid(EmptyNoteSection);
    }
    var header := ReadHeader(sections);
    if header.Invalid? {
      return Invalid(header.error);
    }
    var name, items := header.value.0, header.value.1;
    var st := Unhandled;
    if items.Some? {
      var read := ReadSettings(items.value);
      if read.Invalid? {
        return Invalid(read.error);
      }
      st := read.value;
    }
    var notes := ReadEach(texts, NoteParser(st.settings));
    if notes.Invalid? {
      return Invalid(notes.error);
    }
    return Valid(Melody(name, st.settings, notes.value));
  }

  /** Which sections hold the name and the settings. */
  method ReadHeader(sections: seq<string>) returns (r: Outcome<(string, Option<seq<string>>)>)
    requires 1 <= |sections| <= 3
    ensures r == Header(sections)
  {
    var name := "";
    var items: Option<seq<string>> := None;
    if |sections| == 3 {
      name := sections[0];
      if sections[1] != "" {
        var t := Lower(Strip(sections[1]));
        if !SettingsPattern(t) {
          return Invalid(BadSettingsSection);
        }
        items := Some(Split(t, ','));
      }
    } else if |sections| == 2 {
      var t := Lower(Strip(sections[0]));
      if SettingsPattern(t) {
        items := Some(Split(t, ','));
      } else {
        name := sections[0];
      }
    }
    return Valid((name, items));
  }

  /** The settings loop: each key is taken once and checked against its limits. */
  method ReadSettings(items: seq<string>) returns (r: Outcome<SettingsState>)
    requires AllItems(items)
    ensures r == SettingsAfter(items, |items|)
  {
    var settings := DefaultSettings;
    var handled := Handled(false, false, false);
    var i := 0;
    while i < |items|
      invariant 0 <= i <= |items|
      invariant SettingsAfter(items, i) == Valid(SettingsState(settings, handled))
    {
      var item := items[i];
      var v := DecimalValue(item[2..]);
      var error: Option<Error> := None;
      if item[0] == 'd' && !handled.duration {
        handled := handled.(duration := true);
        if v !in Durations {
          error := Some(UnsupportedDuration);
        } else {
          settings := settings.(duration := v);
        }
      } else if item[0] == 'o' && !handled.octave {
        handled := handled.(octave := true);
        if v < MinOctave || v > MaxOctave {
          error := Some(UnsupportedOctave);
        } else {
          settings := settings.(octave := v);
        }
      } else if item[0] == 'b' && !handled.bpm {
        handled := handled.(bpm := true);
        if v < MinBpm || v > MaxBpm {
          error := Some(UnsupportedBpm);
        } else {
          settings := settings.(bpm := v);
        }
      } else {
        error := Some(DoubleEntry);
      }
      if error.Some? {
        assert SettingsAfter(items, i + 1) == Invalid(error.value);
        SettingsStopAt(items, i + 1, |items|);
        return Invalid(error.value);
      }
      i := i + 1;
    }
    return Valid(SettingsState(settings, handled));
  }

  /** The notes loop: each text is checked and its result appended, until
      the first error. */
  method ReadEach<T>(texts: seq<string>, parse: string -> Outcome<T>) returns (r: Outcome<seq<T>>)
    ensures r == ParseEach(texts, |texts|, parse)
  {
    var items: seq<T> := [];
    var j := 0;
    while j < |texts|
      invariant 0 <= j <= |texts|
      invariant ParseEach(texts, j, parse) == Valid(items)
    {
      var item := parse(texts[j]);
      if item.Invalid? {
        ParseEachStopAt(texts, j + 1, |texts|, parse);
        return Invalid(item.error);
      }
      items := items + [item.value];
      j := j + 1;
    }
    return Valid(items);
  }
}
