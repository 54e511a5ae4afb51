// The argument-driven "tweak at Z" post-processor: temperatures, the Z
// height and the bed-off percentage come from the command line, and a
// ";tweakatz" marker in the start G-code is replaced by a warm-up and
// homing block.

module TweakAtZ3 {
  import opened Common
  import opened GText
  import opened Rewrite
  import opened LineMatch

  /** What the command line sets; temperatures and the height stay text, as
      the script writes them back unchanged. */
  datatype Settings = Settings(
    bed: string,          // initial bed temperature
    extruder: string,     // initial extruder temperature
    height: string,       // the Z height searched for
    bedAtZ: string,       // bed temperature from that height on
    extruderAtZ: string,  // extruder temperature from that height on
    percent: real)        // the fraction of the file after which the bed is off

  /** Why the script stops before writing anything. */
  datatype Failure = MissingArgument(index: nat) | NotANumber(text: string)

  datatype Setup = Configured(settings: Settings) | Refused(failure: Failure)

  /** An empty argument falls back to its default. */
  function OrDefault(arg: string, default: string): (r: string)
    ensures r != "" <== default != ""
    ensures arg != "" ==> r == arg
  {
    if arg == "" then default else arg
  }

  /** The settings as the script reads them from argv (argv[0] is the script
      itself); number is float() on a string. The percentage is read
      whenever argv has a seventh argument or more, so seven arguments fail
      on argv[7] and the 0.80 default is never taken. */
  function Configure(argv: seq<string>, number: string -> Option<real>): (r: Setup)
    requires |argv| >= 1
  {
    if |argv| < 7 then Refused(MissingArgument(|argv|))
    else if |argv| == 7 then Refused(MissingArgument(7))
    else match number(argv[7])
      case None => Refused(NotANumber(argv[7]))
      case Some(v) => Configured(Settings(OrDefault(argv[2], "60"), OrDefault(argv[3], "223"),
                                          OrDefault(argv[4], "2.24"), OrDefault(argv[5], "50"),
                                          OrDefault(argv[6], "225"), v * 0.01))
  }

  /** The evident intent: the percentage is optional, 80 % when absent. */
  function ConfigureFixed(argv: seq<string>, number: string -> Option<real>): (r: Setup)
    requires |argv| >= 1
  {
    if |argv| < 7 then Refused(MissingArgument(|argv|))
    else
      var percent := if |argv| == 7 then Some(0.80) else (match number(argv[7]) case None => None case Some(v) => Some(v * 0.01));
      match percent
      case None => Refused(NotANumber(argv[7]))
      case Some(p) => Configured(Settings(OrDefault(argv[2], "60"), OrDefault(argv[3], "223"),
                                          OrDefault(argv[4], "2.24"), OrDefault(argv[5], "50"),
                                          OrDefault(argv[6], "225"), p))
  }

  /** As written, a run needs all seven arguments and a number in argv[7],
      which is the percentage: the 0.80 default is unreachable. */
  lemma PercentAlwaysRead(argv: seq<string>, number: string -> Option<real>)
    requires |argv| >= 1
    ensures Configure(argv, number).Configured? <==> |argv| >= 8 && number(argv[7]).Some?
    ensures Configure(argv, number).Configured? ==>
      Configure(argv, number).settings.percent == number(argv[7]).value * 0.01
  {
  }

  /** Seven arguments, the percentage left off, stop the script. */
  lemma SevenArgumentsFail(number: string -> Option<real>)
    ensures Configure(["tweakatz-repetier3.py", "part.gcode", "", "", "", "", ""], number)
      == Refused(MissingArgument(7))
  {
  }

  /** The corrected reading accepts what the script accepts, with the same
      settings, and also seven arguments, with the bed off at 80 %. */
  lemma FixedPercentOptional(argv: seq<string>, number: string -> Option<real>)
    requires |argv| >= 1
    ensures Configure(argv, number).Configured? ==> ConfigureFixed(argv, number) == Configure(argv, number)
    ensures |argv| == 7 ==>
      ConfigureFixed(argv, number).Configured? && ConfigureFixed(argv, number).settings.percent == 4.0 / 5.0
  {
  }

  /** Every setting has a value: an empty argument takes the default bed 60,
      extruder 223, height 2.24, bed 50 and extruder 225. */
  lemma NoEmptySetting(argv: seq<string>, number: string -> Option<real>)
    requires |argv| >= 1 && Configure(argv, number).Configured?
    ensures var s := Configure(argv, number).settings;
      s.bed != "" && s.extruder != "" && s.height != "" && s.bedAtZ != "" && s.extruderAtZ != ""
    ensures argv[2] == "" ==> Configure(argv, number).settings.bed == "60"
    ensures argv[3] == "" ==> Configure(argv, number).settings.extruder == "223"
  {
  }

  /** The rule that handles a line: the first that matches, in this order. */
  datatype Rule = Cooling | Finishing | Warming | Plain

  /** int(total * percent), truncated toward zero. */
  function FinishIndex(total: nat, percent: real): (r: int)
    ensures 0.0 <= percent ==> 0 <= r && r as real <= total as real * percent < r as real + 1.0
  {
    Trunc(total as real * percent)
  }

  /** Which rule handles line i of a file of total lines. */
  function RuleFor(s: Settings, line: string, i: nat, total: nat): (r: Rule) {
    if StarSearch("Z" + s.height, line) then Cooling
    else if i == FinishIndex(total, s.percent) then Finishing
    else if Contains(line, ";tweakatz") then Warming
    else Plain
  }

  /** The warm-up written ahead of the ";tweakatz" marker: raise the nozzle,
      pre-warm to 41 degrees, home, heat to the initial temperatures, wait
      for them, and clear the corners. */
  function WarmUp(s: Settings): (r: seq<Line>) {
    Raise() + PreWarm() + Home() + Heat(s) + Wait(s) + Clear()
  }

  function Raise(): (r: seq<Line>) {
    [T(";start tweakatz write"),
     T(";set Z to 4 very slow to give time to pull out larger parts, should be homed already"),
     T("G1 Z4 F10")]
  }

  function PreWarm(): (r: seq<Line>) {
    [T(";initial warm temps 41deg"), T("M140 S41"), T("M104 S41")]
  }

  function Home(): (r: seq<Line>) {
    [T(";homing command G28"), T("G28"), T("G90"), T("M82")]
  }

  function Heat(s: Settings): (r: seq<Line>) {
    [T(";initial temps"), T("M140 S" + s.bed), T("M104 S" + s.extruder)]
  }

  function Wait(s: Settings): (r: seq<Line>) {
    [T(";waiting temps"), T("M190 S" + s.bed), T("G92 E0"), T("M109 S" + s.extruder)]
  }

  function Clear(): (r: seq<Line>) {
    [T(";clear the corners using y40 x20"), T("G1 Y40 x20 F4800")]
  }

  /** The lines a rule writes ahead of its line. */
  function Block(s: Settings, rule: Rule): (r: seq<Line>) {
    match rule
    case Cooling => [T(";Cooling Print"), T("M140 S" + s.bedAtZ), T("M104 S" + s.extruderAtZ)]
    case Finishing => [T(";Finishing Print"), T("M140 S0")]
    case Warming => WarmUp(s)
    case Plain => []
  }

  /** What is written ahead of line i. */
  function Inserts(s: Settings, lines: seq<string>, total: nat): (r: nat -> seq<Write>) {
    (i: nat) => if i < |lines| then Emits(Block(s, RuleFor(s, lines[i], i, total))) else []
  }

  /** The rewritten file. */
  function Tweaked(s: Settings, lines: seq<string>): (r: seq<Write>) {
    Around(lines, |lines|, Inserts(s, lines, |lines|))
  }

  /** The script's two passes over the file: count its lines, then write
      each one after the block of the first rule that matches it. */
  method TweakFile(s: Settings, lines: seq<string>) returns (out: seq<Write>)
    ensures out == Tweaked(s, lines)
  {
    var i := 0;
    for k := 0 to |lines|
      invariant i == k
    {
      i := i + 1;
    }
    out := SecondPass(s, lines, i);
  }

  /** The second pass, once the lines are counted: each line after the block of the
      first rule that matches it. */
  method SecondPass(s: Settings, lines: seq<string>, i: nat) returns (out: seq<Write>)
    ensures out == Around(lines, |lines|, Inserts(s, lines, i))
  {
    var i2 := 0;
    out := [];
    while i2 < |lines|
      invariant i2 <= |lines|
      invariant out == Around(lines, i2, Inserts(s, lines, i))
    {
      out := WriteLine(s, out, lines, i2, i);
      i2 := i2 + 1;
    }
  }

  /** One turn of the second pass: line i2 after the block of its rule. */
  method WriteLine(s: Settings, out: seq<Write>, lines: seq<string>, i2: nat, i: nat) returns (next: seq<Write>)
    requires i2 < |lines| && out == Around(lines, i2, Inserts(s, lines, i))
    ensures next == Around(lines, i2 + 1, Inserts(s, lines, i))
  {
    var r := lines[i2];
    var rule := RuleFor(s, r, i2, i);
    next := out + Emits(Block(s, rule)) + [Copy(r)];
  }

  /** Every input line is written exactly once, in order. */
  lemma TweakedCopies(s: Settings, lines: seq<string>)
    ensures Copies(Tweaked(s, lines)) == lines
  {
    var f := Inserts(s, lines, |lines|);
    forall i | 0 <= i < |lines| ensures Copies(f(i)) == [] {
      EmitsCopyNothing(Block(s, RuleFor(s, lines[i], i, |lines|)));
    }
    AroundCopies(lines, |lines|, f);
    assert lines[..|lines|] == lines;
  }

  /** A marker line that neither the height nor the percentage takes is
      preceded by the whole warm-up block. */
  lemma MarkerWarmsUp(s: Settings, lines: seq<string>, i: nat)
    requires i < |lines| && Contains(lines[i], ";tweakatz")
    requires !StarSearch("Z" + s.height, lines[i]) && i != FinishIndex(|lines|, s.percent)
    ensures Around(lines, i, Inserts(s, lines, |lines|)) + Emits(Block(s, Warming)) + [Copy(lines[i])] <= Tweaked(s, lines)
  {
    var ins := Inserts(s, lines, |lines|);
    MarkerRule(s, lines, i);
    AroundAt(lines, i, |lines|, ins);
  }

  /** The marker line's rule is the warm-up's. */
  lemma MarkerRule(s: Settings, lines: seq<string>, i: nat)
    requires i < |lines| && Contains(lines[i], ";tweakatz")
    requires !StarSearch("Z" + s.height, lines[i]) && i != FinishIndex(|lines|, s.percent)
    ensures Inserts(s, lines, |lines|)(i) == Emits(Block(s, Warming))
  {
  }

  /** The warm-up depends on the initial temperatures alone, and waits for
      both of them. */
  lemma WarmUpWaits(s: Settings, t: Settings)
    requires s.bed == t.bed && s.extruder == t.extruder
    ensures WarmUp(s) == WarmUp(t)
    ensures T("M190 S" + s.bed) in WarmUp(s) && T("M109 S" + s.extruder) in WarmUp(s)
  {
    var before := Raise() + PreWarm() + Home() + Heat(s);
    assert WarmUp(s) == before + Wait(s) + Clear();
    assert Wait(s)[1] == T("M190 S" + s.bed) && Wait(s)[3] == T("M109 S" + s.extruder);
    assert WarmUp(s)[|before| + 1] == Wait(s)[1];
    assert WarmUp(s)[|before| + 3] == Wait(s)[3];
  }

  /** No warm-up line is the bed-off comment: each is a command or a
      comment of another length. */
  lemma WarmUpNotFinishing(s: Settings)
    ensures multiset(Block(s, Warming))[T(";Finishing Print")] == 0
  {
    var f := T(";Finishing Print");
    assert f !in Raise() && f !in PreWarm() && f !in Home() && f !in Clear();
    assert ("M140 S" + s.bed)[0] == 'M' && ("M104 S" + s.extruder)[0] == 'M';
    assert f !in Heat(s);
    assert ("M190 S" + s.bed)[0] == 'M' && ("M109 S" + s.extruder)[0] == 'M';
    assert f !in Wait(s);
    assert f !in WarmUp(s);
  }

  /** Nor is any line of the cooling block. */
  lemma CoolingNotFinishing(s: Settings)
    ensures multiset(Block(s, Cooling))[T(";Finishing Print")] == 0
  {
    assert |";Cooling Print"| != |";Finishing Print"|;
    assert ("M140 S" + s.bedAtZ)[0] == 'M' && ("M104 S" + s.extruderAtZ)[0] == 'M';
    assert T(";Finishing Print") !in Block(s, Cooling);
  }

  /** The bed-off block holds its comment line once. */
  lemma FinishingHasComment(s: Settings)
    ensures multiset(Block(s, Finishing))[T(";Finishing Print")] == 1
  {
    assert T(";Finishing Print") != T("M140 S0");
  }

  /** Of the blocks, only the bed-off block holds its comment line, once. */
  lemma FinishingComment(s: Settings, rule: Rule)
    ensures multiset(Block(s, rule))[T(";Finishing Print")] == if rule == Finishing then 1 else 0
  {
    if rule == Cooling {
      CoolingNotFinishing(s);
    } else if rule == Finishing {
      FinishingHasComment(s);
    } else if rule == Warming {
      WarmUpNotFinishing(s);
    }
  }

  /** The writes ahead of line i hold the bed-off comment once when the
      percentage rule takes that line, and not otherwise. */
  lemma FinishingAt(s: Settings, lines: seq<string>, i: nat)
    requires i < |lines|
    ensures multiset(Inserts(s, lines, |lines|)(i))[Emit(T(";Finishing Print"))]
      == if RuleFor(s, lines[i], i, |lines|) == Finishing then 1 else 0
  {
    var b := Block(s, RuleFor(s, lines[i], i, |lines|));
    FinishingComment(s, RuleFor(s, lines[i], i, |lines|));
    EmitsCount(b, T(";Finishing Print"));
  }

  /** The bed-off line appears at most once: ahead of line
      int(total * percent) when that line exists and the height does not
      take it, and nowhere else. */
  lemma FinishingOnce(s: Settings, lines: seq<string>)
    ensures var f := FinishIndex(|lines|, s.percent);
      multiset(Tweaked(s, lines))[Emit(T(";Finishing Print"))]
        == if 0 <= f < |lines| && !StarSearch("Z" + s.height, lines[f]) then 1 else 0
  {
    var n := |lines|;
    var f := FinishIndex(n, s.percent);
    var j := if 0 <= f < n && !StarSearch("Z" + s.height, lines[f]) then f else -1;
    var w := Emit(T(";Finishing Print"));
    forall i | 0 <= i < n
      ensures multiset(Inserts(s, lines, n)(i))[w] == if i == j then 1 else 0
    {
      FinishingAt(s, lines, i);
    }
    AroundCountOnce(lines, n, Inserts(s, lines, n), w, j);
  }
}
