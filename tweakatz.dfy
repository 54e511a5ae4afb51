// The Repetier "tweak at Z" post-processor: it counts the lines of a G-code
// file, then copies them, cooling the bed and extruder at the first layers
// near Z 2.24, turning the bed off at 80 % of the file, and writing the
// initial temperatures ahead of homing lines.

module TweakAtZ {
  import opened Common
  import opened GText
  import opened Rewrite
  import opened LineMatch

  /** Initial temperatures, written at a homing line. */
  const FirstBed := 60
  const FirstExtruder := 230
  /** The height pattern is "Z" + str(2.24) followed by '*'. */
  const Pattern := "Z2.24"
  /** Temperatures from the matched height on. */
  const BedAtZ := 50
  const ExtruderAtZ := 225
  /** Bed temperature near the end of the print. */
  const FinishBed := 0

  /** The rule that handles a line: the first that matches, in this order. */
  datatype Rule = Cooling | Finishing | Warming | Plain

  /** int(total * 0.80): the index of the line at 80 % of the file. */
  function FinishIndex(total: nat): (r: nat)
    ensures 5 * r <= 4 * total < 5 * r + 5
    ensures total > 0 ==> r < total
  {
    total * 4 / 5
  }

  /** A temperature command. */
  function Temp(command: string, t: int): (r: Line) {
    Line([Lit(command), Int(t)])
  }

  /** Which rule handles line i of a file of total lines. */
  function RuleFor(line: string, i: nat, total: nat): (r: Rule) {
    if StarSearch(Pattern, line) then Cooling
    else if i == FinishIndex(total) then Finishing
    else if StarSearch("G28", line) then Warming
    else Plain
  }

  /** The lines a rule writes ahead of its line. */
  function Block(rule: Rule): (r: seq<Line>) {
    match rule
    case Cooling => [T(";Cooling Print"), Temp("M140 S", BedAtZ), Temp("M104 S", ExtruderAtZ)]
    case Finishing => [T(";Finishing Print"), Temp("M140 S", FinishBed)]
    case Warming => [Temp("M140 S", FirstBed), Temp("M104 S", FirstExtruder)]
    case Plain => []
  }

  /** What is written ahead of line i. */
  function Inserts(lines: seq<string>, total: nat): (r: nat -> seq<Write>) {
    (i: nat) => if i < |lines| then Emits(Block(RuleFor(lines[i], i, total))) else []
  }

  /** The rewritten file. */
  function Tweaked(lines: seq<string>): (r: seq<Write>) {
    Around(lines, |lines|, Inserts(lines, |lines|))
  }

  /** The script's two passes: count the lines, then write each one after
      the block of the first rule that matches it. */
  method TweakFile(lines: seq<string>) returns (out: seq<Write>)
    ensures out == Tweaked(lines)
  {
    var i := 0;
    for k := 0 to |lines|
      invariant i == k
    {
      i := i + 1;
    }
    out := SecondPass(lines, i);
  }

  /** The second pass, once the lines are counted: each line after the block of the
      first rule that matches it. */
  method SecondPass(lines: seq<string>, i: nat) returns (out: seq<Write>)
    ensures out == Around(lines, |lines|, Inserts(lines, i))
  {
    var i2 := 0;
    out := [];
    while i2 < |lines|
      invariant i2 <= |lines|
      invariant out == Around(lines, i2, Inserts(lines, i))
    {
      out := WriteLine(out, lines, i2, i);
      i2 := i2 + 1;
    }
  }

  /** One turn of the second pass: line i2 after the block of its rule. */
  method WriteLine(out: seq<Write>, lines: seq<string>, i2: nat, i: nat) returns (next: seq<Write>)
    requires i2 < |lines| && out == Around(lines, i2, Inserts(lines, i))
    ensures next == Around(lines, i2 + 1, Inserts(lines, i))
  {
    var r := lines[i2];
    var rule := RuleFor(r, i2, i);
    next := out + Emits(Block(rule)) + [Copy(r)];
  }

  /** Only generated lines go ahead of an input line. */
  lemma InsertsCopyNothing(lines: seq<string>, total: nat, i: nat)
    ensures Copies(Inserts(lines, total)(i)) == []
  {
    if i < |lines| {
      EmitsCopyNothing(Block(RuleFor(lines[i], i, total)));
    } else {
      assert Inserts(lines, total)(i) == [];
    }
  }

  /** Every input line is written exactly once, in order. */
  lemma TweakedCopies(lines: seq<string>)
    ensures Copies(Tweaked(lines)) == lines
  {
    forall i | 0 <= i < |lines| ensures Copies(Inserts(lines, |lines|)(i)) == [] {
      InsertsCopyNothing(lines, |lines|, i);
    }
    AroundCopies(lines, |lines|, Inserts(lines, |lines|));
    assert lines[..|lines|] == lines;
  }

  /** A line at the height pattern is cooled, whatever else it matches. */
  lemma CoolingWins(lines: seq<string>, i: nat)
    requires i < |lines| && StarSearch(Pattern, lines[i])
    ensures Inserts(lines, |lines|)(i)
      == [Emit(T(";Cooling Print")), Emit(Temp("M140 S", 50)), Emit(Temp("M104 S", 225))]
  {
  }

  /** Of the blocks, only the bed-off block holds its comment line. */
  lemma FinishingComment(rule: Rule)
    ensures multiset(Emits(Block(rule)))[Emit(T(";Finishing Print"))] == if rule == Finishing then 1 else 0
  {
    var w := Emit(T(";Finishing Print"));
    assert |";Cooling Print"| != |";Finishing Print"|;
    assert Emit(T(";Cooling Print")) != w;
    EmitsCount(Block(rule), T(";Finishing Print"));
  }

  /** The bed-off line appears once, ahead of the line at 80 % of the file,
      unless the height pattern takes that line; so it appears at most once. */
  lemma FinishingOnce(lines: seq<string>)
    ensures multiset(Tweaked(lines))[Emit(T(";Finishing Print"))]
      == if |lines| > 0 && !StarSearch(Pattern, lines[FinishIndex(|lines|)]) then 1 else 0
  {
    var n := |lines|;
    var f := FinishIndex(n);
    var j := if n > 0 && !StarSearch(Pattern, lines[f]) then f else -1;
    var w := Emit(T(";Finishing Print"));
    forall i | 0 <= i < n
      ensures multiset(Inserts(lines, n)(i))[w] == if i == j then 1 else 0
    {
      FinishingComment(RuleFor(lines[i], i, n));
    }
    AroundCountOnce(lines, n, Inserts(lines, n), w, j);
  }

  /** A line without a 'Z' is never at the height pattern. */
  lemma NoZNoHeight(s: string)
    requires 'Z' !in s
    ensures !StarSearch(Pattern, s)
  {
    HeightPattern(s);
  }

  /** "G28*" also finds arcs: after the cooling layer, a G2 arc that is not
      the 80 % line writes the initial temperatures again. */
  lemma ArcRewarms()
    ensures RuleFor("G1 Z2.24\n", 0, 3) == Cooling
    ensures RuleFor("G2 X5 I1\n", 1, 3) == Warming
    ensures Block(Warming) == [Temp("M140 S", 60), Temp("M104 S", 230)]
  {
    HeightPattern("G1 Z2.24\n");
    assert ZTwoAnyTwo("G1 Z2.24\n", 3);
    NoZNoHeight("G2 X5 I1\n");
    HomingPattern("G2 X5 I1\n");
    ContainsAt("G2 X5 I1\n", "G2", 0);
  }
}
