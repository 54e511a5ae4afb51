// The cutting pattern several generators share (slice2, greypocket): an offset
// path is cut by a rapid to its first point, a feed-rate line, a G1 through each
// later point and a retract to Z5; an empty path emits nothing. The offset itself
// is Clipper2's InflatePaths, kept abstract.
module Toolpath {
  import opened Common
  import opened GText

  /** A Clipper2 PathD, reduced to its points. */
  type Path = seq<Point2>

  /** Clipper2's InflatePaths, with the join and end types each caller fixes, kept
      abstract: it receives the paths and the signed offset delta. */
  type Inflate = (seq<Path>, real) -> seq<Path>

  /** "G1 X<x> Y<y>". */
  function FeedTo(p: Point2): (r: Line) { Line([Lit("G1 X"), G(p.x), Lit(" Y"), G(p.y)]) }

  /** The G1 moves to the given points, in order. */
  function Feeds(ps: seq<Point2>): (lines: seq<Line>)
    decreases |ps|
  {
    if |ps| == 0 then [] else Feeds(ps[..|ps| - 1]) + [FeedTo(ps[|ps| - 1])]
  }

  /** One offset path: nothing when empty, otherwise a rapid to its first point,
      "G1 F500", a feed through every other point and a retract. */
  function PathBlock(p: seq<Point2>): (r: seq<Line>) {
    if |p| == 0 then [] else [RapidTo(p[0]), T("G1 F500")] + Feeds(p[1..]) + [T("G0 Z5")]
  }

  function PathBlocks(paths: seq<seq<Point2>>): (r: seq<Line>)
    decreases |paths|
  {
    if |paths| == 0 then [] else PathBlocks(paths[..|paths| - 1]) + PathBlock(paths[|paths| - 1])
  }

  /** The lines for one offset path (the loop over `path[i]`, i >= 1). */
  method EmitPath(path: seq<Point2>) returns (code: seq<Line>)
    ensures code == PathBlock(path)
  {
    code := [];
    if |path| == 0 {
      return;
    }
    code := [RapidTo(path[0]), T("G1 F500")];
    var i := 1;
    while i < |path|
      invariant 1 <= i <= |path|
      invariant code == [RapidTo(path[0]), T("G1 F500")] + Feeds(path[1..i])
    {
      assert path[1..i + 1][..i - 1] == path[1..i] && path[1..i + 1][i - 1] == path[i];
      code := code + [FeedTo(path[i])];
      i := i + 1;
    }
    assert path[1..i] == path[1..];
    code := code + [T("G0 Z5")];
  }

  /** The loop over one layer's offset paths. */
  method EmitPaths(offsetPaths: seq<seq<Point2>>) returns (code: seq<Line>)
    ensures code == PathBlocks(offsetPaths)
  {
    code := [];
    var j := 0;
    while j < |offsetPaths|
      invariant 0 <= j <= |offsetPaths|
      invariant code == PathBlocks(offsetPaths[..j])
    {
      var block := EmitPath(offsetPaths[j]);
      assert offsetPaths[..j + 1][..j] == offsetPaths[..j];
      code := code + block;
      j := j + 1;
    }
    assert offsetPaths[..j] == offsetPaths;
  }

  /** Feeds holds one G1 per point, in order. */
  lemma {:induction false} FeedsAt(ps: seq<Point2>)
    ensures |Feeds(ps)| == |ps|
    ensures forall i :: 0 <= i < |ps| ==> Feeds(ps)[i] == FeedTo(ps[i])
    decreases |ps|
  {
    if |ps| > 0 {
      FeedsAt(ps[..|ps| - 1]);
    }
  }

  /** A non-empty path of n points is cut by n + 2 lines: a rapid to its first point,
      "G1 F500", a G1 to each later point, and "G0 Z5". */
  lemma {:induction false} PathBlockShape(p: seq<Point2>)
    requires |p| > 0
    ensures |PathBlock(p)| == |p| + 2
    ensures PathBlock(p)[0] == RapidTo(p[0]) && PathBlock(p)[1] == T("G1 F500")
    ensures forall i :: 1 <= i < |p| ==> PathBlock(p)[i + 1] == FeedTo(p[i])
    ensures PathBlock(p)[|p| + 1] == T("G0 Z5")
  {
    FeedsAt(p[1..]);
    var b := PathBlock(p);
    assert b == [RapidTo(p[0]), T("G1 F500")] + Feeds(p[1..]) + [T("G0 Z5")];
    assert |b| == 2 + (|p| - 1) + 1;
    forall i | 1 <= i < |p| ensures b[i + 1] == FeedTo(p[i]) {
      assert b[i + 1] == Feeds(p[1..])[i - 1];
    }
  }

}
