// The text programs the tools emit (G-code, GCMC, STL, DXF) are built line by
// line from literal text and numbers. A line is kept as a list of pieces so
// that the numbers stay numbers; turning them into digits is the job of a
// formatter that is passed in (QString::arg, ostream <<, Python format),
// since the digits themselves are not what the tools' logic decides.
module GText {
  import opened Common

  /** How a number is printed: the shortest general form (QString::arg(double),
      ostream <<, "%g"), fixed-point with a number of decimals, or Python str(float). */
  datatype Style = General | Fixed(digits: nat) | PyStr

  datatype Piece = Lit(s: string) | Num(x: real, style: Style) | Int(i: int)

  /** One line of a program, without its line break. */
  datatype Line = Line(pieces: seq<Piece>)

  /** The number formatter the rendering uses. */
  datatype Fmt = Fmt(general: real -> string, fixed: (real, nat) -> string, pyStr: real -> string)

  /** A formatter that never prints a line break inside a number. */
  ghost predicate OneLineNumbers(f: Fmt) {
    (forall x :: '\n' !in f.general(x)) && (forall x, d :: '\n' !in f.fixed(x, d))
    && (forall x :: '\n' !in f.pyStr(x))
  }

  function T(s: string): (r: Line) { Line([Lit(s)]) }
  function G(x: real): (r: Piece) { Num(x, General) }
  function F(x: real, d: nat): (r: Piece) { Num(x, Fixed(d)) }

  /** The program header the T-slot tools start with (slice2, sliceTests, qt-dxf2gcode):
      millimetres, absolute coordinates, lift to Z5, tool change to T1. */
  const Header: seq<Line> := [T("G21"), T("G90"), T("G0 Z5"), T("T1 M6")]

  /** "G0 X<x> Y<y>". */
  function RapidTo(p: Point2): (r: Line) { Line([Lit("G0 X"), G(p.x), Lit(" Y"), G(p.y)]) }

  /** "G1 Z<depth> F200". */
  function Plunge(depth: real): (r: Line) { Line([Lit("G1 Z"), G(depth), Lit(" F200")]) }

  function PieceText(p: Piece, f: Fmt): (r: string) {
    match p
    case Lit(s) => s
    case Num(x, General) => f.general(x)
    case Num(x, Fixed(d)) => f.fixed(x, d)
    case Num(x, PyStr) => f.pyStr(x)
    case Int(i) => IntToString(i)
  }

  function PiecesText(ps: seq<Piece>, f: Fmt): (r: string)
    decreases |ps|
  {
    if |ps| == 0 then "" else PieceText(ps[0], f) + PiecesText(ps[1..], f)
  }

  function LineText(l: Line, f: Fmt): (r: string) {
    PiecesText(l.pieces, f)
  }

  /** A whole program: every line followed by a newline. */
  function Text(lines: seq<Line>, f: Fmt): (r: string)
    decreases |lines|
  {
    if |lines| == 0 then "" else LineText(lines[0], f) + "\n" + Text(lines[1..], f)
  }

  lemma {:induction false} LineTextOneLine(l: seq<Piece>, f: Fmt)
    requires OneLineNumbers(f)
    requires forall k :: 0 <= k < |l| && l[k].Lit? ==> '\n' !in l[k].s
    ensures '\n' !in PiecesText(l, f)
    decreases |l|
  {
    if |l| > 0 {
      LineTextOneLine(l[1..], f);
      var p := l[0];
      match p
      case Lit(s) =>
      case Num(x, st) =>
      case Int(i) =>
        assert forall k :: 0 <= k < |IntToString(i)| ==> IntToString(i)[k] == '-' || IsDigit(IntToString(i)[k]);
    }
  }

  /** Rendering keeps the program's line structure: splitting the text at line
      breaks gives back each rendered line, plus the empty text after the last break. */
  lemma {:induction false} TextSplitsIntoLines(lines: seq<Line>, f: Fmt)
    requires OneLineNumbers(f)
    requires forall i, k :: 0 <= i < |lines| && 0 <= k < |lines[i].pieces| && lines[i].pieces[k].Lit? ==> '\n' !in lines[i].pieces[k].s
    ensures Split(Text(lines, f), '\n') == seq(|lines|, i requires 0 <= i < |lines| => LineText(lines[i], f)) + [""]
    decreases |lines|
  {
    if |lines| > 0 {
      TextSplitsIntoLines(lines[1..], f);
      LineTextOneLine(lines[0].pieces, f);
      SplitAfterLine(LineText(lines[0], f), Text(lines[1..], f));
    }
  }

  lemma {:induction false} SplitAfterLine(a: string, rest: string)
    requires '\n' !in a
    ensures Split(a + "\n" + rest, '\n') == [a] + Split(rest, '\n')
    decreases |a|
  {
    if |a| > 0 {
      var s := a + "\n" + rest;
      assert s[1..] == a[1..] + "\n" + rest;
      SplitAfterLine(a[1..], rest);
      assert s[0] == a[0] && a[0] in a;
      assert [a[0]] + a[1..] == a;
    } else {
      assert (a + "\n" + rest)[1..] == rest;
    }
  }
}
