// The "resume at Z" post-processor: it drops every line of a G-code file
// before the first line at the given height, and puts a reheating and
// rehoming header in their place, so that a failed print can be resumed.

module ResumePrintZ {
  import opened Common
  import opened GText
  import opened Rewrite
  import opened LineMatch

  /** Temperatures the header reheats to. */
  const BedTemp := 50
  const ExtruderTemp := 225

  /** A value as Python 2 compares it with ==: a string never equals an int. */
  datatype PyValue = PyString(s: string) | PyInt(i: int)

  predicate PyEquals(a: PyValue, b: PyValue) {
    match (a, b)
    case (PyString(x), PyString(y)) => x == y
    case (PyInt(x), PyInt(y)) => x == y
    case _ => false
  }

  /** The height is argv[2], a string; the fallback to 2.7 when it "equals" 0
      never applies, since a string is never equal to the int 0. */
  function ResumeHeight(arg: string): (h: string)
    ensures h == arg
  {
    if PyEquals(PyString(arg), PyInt(0)) then "2.7" else arg
  }

  /** The header written at the first line at the height. Three of the
      script's writes have no line end, so the homing move shares a line with
      the bed temperature, and the corner-clearing move, the lift to the
      height plus 4 and the resume comment share one line. */
  function Header(height: real): (r: seq<Line>) {
    [T(";Resume Printing Heating")] + Reheat(height)
  }

  /** The commands of the header: home, set and wait for both temperatures,
      clear the corners and lift to the height plus 4. */
  function Reheat(height: real): (r: seq<Line>) {
    [Line([Lit("G28 X0 Y0M140 S"), Int(BedTemp)]),
     Line([Lit("M104 S"), Int(ExtruderTemp)]),
     Line([Lit("M190 S"), Int(BedTemp)]),
     Line([Lit("M109 S"), Int(ExtruderTemp)]),
     Line([Lit("G1 Y40 x20 F1000G0 F3000 Z"), Num(height + 4.0, PyStr), Lit(";Resume Print - Code")])]
  }

  /** The index of the first line at the height, if any. */
  function FirstMatch(height: string, lines: seq<string>): (r: Option<nat>)
    ensures r.Some? ==> r.value < |lines| && StarSearch("Z" + height, lines[r.value])
    ensures r.Some? ==> forall j :: 0 <= j < r.value ==> !StarSearch("Z" + height, lines[j])
    ensures r.None? ==> forall j :: 0 <= j < |lines| ==> !StarSearch("Z" + height, lines[j])
  {
    if lines == [] then None
    else match FirstMatch(height, lines[..|lines| - 1])
      case Some(m) => Some(m)
      case None => if StarSearch("Z" + height, lines[|lines| - 1]) then Some(|lines| - 1) else None
  }

  /** The resumed file as the script writes it: nothing when no line is at
      the height; otherwise the header, then the first line at the height
      twice, then every later line. None when the height is not a number
      (float() fails at the first match, and the original file is kept). */
  function Resumed(height: string, number: string -> Option<real>, lines: seq<string>): (r: Option<seq<Write>>) {
    match FirstMatch(height, lines)
    case None => Some([])
    case Some(m) =>
      match number(height)
      case None => None
      case Some(v) => Some(Resumption(v, lines[m], lines[m..]))
  }

  /** What the script writes once it reaches the height: the header, the
      line that reached it, then that line and the rest again. */
  function Resumption(height: real, first: string, rest: seq<string>): (r: seq<Write>) {
    Emits(Header(height)) + [Copy(first)] + CopyAll(rest)
  }

  /** The evident intent: the first line at the height written once. */
  function ResumedFixed(height: string, number: string -> Option<real>, lines: seq<string>): (r: Option<seq<Write>>) {
    match FirstMatch(height, lines)
    case None => Some([])
    case Some(m) =>
      match number(height)
      case None => None
      case Some(v) => Some(Emits(Header(v)) + CopyAll(lines[m..]))
  }

  /** One line of the script's loop, driven by the found flag: 0 before the
      height, 2 at the line that reaches it, 1 after. */
  method ResumeLine(found: nat, r: string, height: string, number: string -> Option<real>)
    returns (next: nat, written: Option<seq<Write>>)
    requires found == 0 || found == 1
    ensures next == (if found == 0 && !StarSearch("Z" + height, r) then 0 else 1)
    ensures found == 1 ==> written == Some([Copy(r)])
    ensures found == 0 && next == 0 ==> written == Some([])
    ensures found == 0 && next == 1 ==>
      written == (match number(height) case None => None case Some(v) => Some(Emits(Header(v)) + [Copy(r)] + [Copy(r)]))
  {
    next := found;
    written := Some([]);
    if next == 0 {
      if StarSearch("Z" + height, r) {
        next := 2;
      }
    }
    if next == 2 {
      next := 1;
      match number(height)
      case None =>
        return next, None;
      case Some(v) =>
        written := Some(Emits(Header(v)) + [Copy(r)]);
    }
    if next == 1 {
      assert [] + [Copy(r)] == [Copy(r)];
      written := Some(written.value + [Copy(r)]);
    }
  }

  /** The resumed file grows line by line: once the height is reached each
      line is copied, and the line that reaches it brings the header and is
      copied twice. */
  lemma ResumedSnoc(height: string, number: string -> Option<real>, ls: seq<string>, r: string)
    ensures Resumed(height, number, ls + [r]) ==
      if FirstMatch(height, ls).Some? then
        (match Resumed(height, number, ls) case None => None case Some(w) => Some(w + [Copy(r)]))
      else if !StarSearch("Z" + height, r) then Some([])
      else (match number(height) case None => None case Some(v) => Some(Emits(Header(v)) + [Copy(r)] + [Copy(r)]))
  {
    var l := ls + [r];
    assert l[..|l| - 1] == ls;
    match FirstMatch(height, ls)
    case Some(m) =>
      assert FirstMatch(height, l) == Some(m);
      assert l[m] == ls[m] && l[m..] == ls[m..] + [r];
      CopyAllSnoc(ls[m..], r);
      if number(height).Some? {
        var e := Emits(Header(number(height).value)) + [Copy(ls[m])];
        assert e + (CopyAll(ls[m..]) + [Copy(r)]) == e + CopyAll(ls[m..]) + [Copy(r)];
      }
    case None =>
      assert l[|ls|..] == [r] && l[|ls|] == r;
      assert CopyAll([r]) == [Copy(r)];
  }

  /** A height that is not a number stops the script for good: once the
      resumed prefix fails, so does the whole file. */
  lemma FailureStays(height: string, number: string -> Option<real>, lines: seq<string>, k: nat)
    requires k <= |lines| && Resumed(height, number, lines[..k]) == None
    ensures Resumed(height, number, lines) == None
  {
    var m := FirstMatch(height, lines[..k]).value;
    assert lines[..k][m] == lines[m];
  }

  /** One turn of the script's loop, seen from the lines read so far. */
  method ResumeStep(found: nat, written: seq<Write>, ghost ls: seq<string>, r: string, height: string, number: string -> Option<real>)
    returns (next: nat, out: Option<seq<Write>>)
    requires found == 0 || found == 1
    requires found == 0 <==> FirstMatch(height, ls).None?
    requires Resumed(height, number, ls) == Some(written)
    ensures next == 0 || next == 1
    ensures next == 0 <==> FirstMatch(height, ls + [r]).None?
    ensures out == Resumed(height, number, ls + [r])
  {
    ResumedSnoc(height, number, ls, r);
    var l := ls + [r];
    assert l[..|l| - 1] == ls;
    var w;
    next, w := ResumeLine(found, r, height, number);
    if w.None? {
      return next, None;
    }
    if found == 0 {
      assert written == [];
      assert written + w.value == w.value;
    }
    out := Some(written + w.value);
  }

  /** The script: height from argv[2], then one pass over the file. */
  method ResumeFile(arg: string, number: string -> Option<real>, lines: seq<string>) returns (out: Option<seq<Write>>)
    ensures out == Resumed(arg, number, lines)
  {
    var height := ResumeHeight(arg);
    var found: nat := 0;
    var written: seq<Write> := [];
    var k := 0;
    while k < |lines|
      invariant 0 <= k <= |lines|
      invariant found == 0 || found == 1
      invariant found == 0 <==> FirstMatch(height, lines[..k]).None?
      invariant Resumed(height, number, lines[..k]) == Some(written)
    {
      var w;
      found, w := ResumeStep(found, written, lines[..k], lines[k], height, number);
      TakeSnoc(lines, k);
      if w.None? {
        FailureStays(height, number, lines, k + 1);
        return None;
      }
      written := w.value;
      k := k + 1;
    }
    assert lines[..|lines|] == lines;
    out := Some(written);
  }

  /** An empty argv[2] is kept as the height, so the pattern is "Z*", which the
      first line already matches; float("") then fails there and nothing is
      written. */
  lemma EmptyHeightFails(number: string -> Option<real>, lines: seq<string>)
    requires |lines| > 0 && number("") == None
    ensures ResumeHeight("") == ""
    ensures FirstMatch("", lines) == Some(0)
    ensures Resumed(ResumeHeight(""), number, lines) == None
  {
    EmptyHeightMatchesAll(lines[0]);
    assert "Z" + "" == "Z";
    match FirstMatch("", lines)
    case None =>
    case Some(m) =>
  }

  /** The lines the script copies: none when no line is at the height;
      otherwise the first line at the height twice, then every later line
      once, in order; the lines before it are dropped. */
  lemma ResumedCopies(height: string, number: string -> Option<real>, lines: seq<string>)
    requires Resumed(height, number, lines).Some?
    ensures Copies(Resumed(height, number, lines).value)
      == match FirstMatch(height, lines) case None => [] case Some(m) => [lines[m]] + lines[m..]
  {
    match FirstMatch(height, lines)
    case None =>
    case Some(m) =>
      ResumptionCopies(number(height).value, lines[m], lines[m..]);
  }

  /** The resumption copies the line that reached the height, then the rest. */
  lemma ResumptionCopies(v: real, first: string, rest: seq<string>)
    ensures Copies(Resumption(v, first, rest)) == [first] + rest
  {
    assert CopyAll([first] + rest) == [Copy(first)] + CopyAll(rest);
    assert Resumption(v, first, rest) == Emits(Header(v)) + CopyAll([first] + rest);
    EmitsThenCopies(Header(v), [first] + rest);
  }

  /** The corrected rewrite copies the lines from the first one at the height
      on, each once, in order. */
  lemma ResumedFixedCopies(height: string, number: string -> Option<real>, lines: seq<string>)
    requires ResumedFixed(height, number, lines).Some?
    ensures Copies(ResumedFixed(height, number, lines).value)
      == match FirstMatch(height, lines) case None => [] case Some(m) => lines[m..]
  {
    match FirstMatch(height, lines)
    case None =>
    case Some(m) =>
      EmitsThenCopies(Header(number(height).value), lines[m..]);
  }

  /** The header's first line, its comment, is written once within it. */
  lemma HeaderCommentOnce(v: real)
    ensures multiset(Emits(Header(v)))[Emit(T(";Resume Printing Heating"))] == 1
  {
    var c := T(";Resume Printing Heating");
    EmitsCount(Header(v), c);
    assert c !in Reheat(v);
    assert multiset(Header(v)) == multiset{c} + multiset(Reheat(v));
  }

  /** Copied lines hold no generated line. */
  lemma CopyAllEmitsNothing(ls: seq<string>, l: Line)
    ensures multiset(CopyAll(ls))[Emit(l)] == 0
  {
    assert Emit(l) !in CopyAll(ls);
  }

  /** The header is written once, at the front of the resumption. */
  lemma ResumptionHeader(v: real, first: string, rest: seq<string>)
    ensures Emits(Header(v)) <= Resumption(v, first, rest)
    ensures multiset(Resumption(v, first, rest))[Emit(T(";Resume Printing Heating"))] == 1
  {
    assert CopyAll([first] + rest) == [Copy(first)] + CopyAll(rest);
    assert Resumption(v, first, rest) == Emits(Header(v)) + CopyAll([first] + rest);
    HeaderCommentOnce(v);
    AheadOfCopies(Emits(Header(v)), [first] + rest, T(";Resume Printing Heating"));
  }

  /** Writes ahead of copied lines stay a prefix, and copies add no
      generated line to the count. */
  lemma AheadOfCopies(e: seq<Write>, ls: seq<string>, l: Line)
    ensures e <= e + CopyAll(ls)
    ensures multiset(e + CopyAll(ls))[Emit(l)] == multiset(e)[Emit(l)]
  {
    CopyAllEmitsNothing(ls, l);
    assert multiset(e + CopyAll(ls)) == multiset(e) + multiset(CopyAll(ls));
  }

  /** The header is written once, at the front, when a line is at the height. */
  lemma HeaderOnce(height: string, number: string -> Option<real>, lines: seq<string>)
    requires Resumed(height, number, lines).Some? && FirstMatch(height, lines).Some?
    ensures Emits(Header(number(height).value)) <= Resumed(height, number, lines).value
    ensures multiset(Resumed(height, number, lines).value)[Emit(T(";Resume Printing Heating"))] == 1
  {
    var m := FirstMatch(height, lines).value;
    ResumptionHeader(number(height).value, lines[m], lines[m..]);
  }

  /** The first line at the height comes out twice: resuming at Z2.7 in a
      file whose second line reaches it copies that line twice. */
  lemma FirstLineTwice(number: string -> Option<real>)
    requires number("2.7").Some?
    ensures Resumed("2.7", number, ["G28\n", "G1 Z2.7\n", "G1 X5\n"]).Some?
    ensures Copies(Resumed("2.7", number, ["G28\n", "G1 Z2.7\n", "G1 X5\n"]).value)
      == ["G1 Z2.7\n", "G1 Z2.7\n", "G1 X5\n"]
  {
    var lines := ["G28\n", "G1 Z2.7\n", "G1 X5\n"];
    MissingFirstChar("Z" + "2.7", lines[0]);
    assert MatchesAt(("Z" + "2.7")[..3], lines[1], 3);
    assert StarSearch("Z" + "2.7", lines[1]);
    ResumedCopies("2.7", number, lines);
    assert lines[1..] == ["G1 Z2.7\n", "G1 X5\n"];
  }
}
