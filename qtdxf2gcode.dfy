// qt-dxf2gcode: a DXF viewer that collects the LINE and LWPOLYLINE entities of a
// drawing as paths grouped by layer name, and writes a multipass G-code program:
// every layer's paths are offset by the tool radius (inward for a layer whose name
// contains "pocket") and cut at depths -dpp, -2 dpp, ... down to the total depth.
module QtDxf2Gcode {
  import opened Common
  import opened GText
  import opened PlaneSlice
  import opened Toolpath

  datatype ToolType = FlatEnd | TSlot | VBit

  datatype Tool = Tool(kind: ToolType, diameter: real, depthPerPass: real, totalDepth: real, vAngleDeg: real)

  /** The tool the viewer starts with and never changes: a T-slot cutter of diameter 6,
      1.5 per pass, 4.5 in total, V angle 60. */
  const DefaultTool: Tool := Tool(TSlot, 6.0, 1.5, 4.5, 60.0)

  /** One entry of the std::map from layer name to the layer's paths. */
  datatype Layer = Layer(name: string, paths: seq<Path>)

  // ---------------------------------------------------------------------
  // The std::map: entries kept in std::string's lexicographic key order

  /** std::string operator<: the first differing character decides; a proper prefix
      comes first. */
  predicate Less(a: string, b: string)
    decreases |a|
  {
    |b| > 0 && (|a| == 0 || a[0] < b[0] || (a[0] == b[0] && Less(a[1..], b[1..])))
  }

  lemma {:induction false} LessIrreflexive(a: string)
    ensures !Less(a, a)
    decreases |a|
  {
    if |a| > 0 {
      LessIrreflexive(a[1..]);
    }
  }

  lemma {:induction false} LessTransitive(a: string, b: string, c: string)
    requires Less(a, b) && Less(b, c)
    ensures Less(a, c)
    decreases |a|
  {
    if |a| > 0 && a[0] == b[0] && b[0] == c[0] {
      LessTransitive(a[1..], b[1..], c[1..]);
    }
  }

  /** Any two different names are ordered one way or the other. */
  lemma {:induction false} LessTotal(a: string, b: string)
    ensures a == b || Less(a, b) || Less(b, a)
    decreases |a|
  {
    if |a| > 0 && |b| > 0 && a[0] == b[0] {
      LessTotal(a[1..], b[1..]);
      assert a == [a[0]] + a[1..] && b == [b[0]] + b[1..];
    }
  }

  /** Every name of ls lies above x. */
  predicate Above(x: string, ls: seq<Layer>) {
    forall i :: 0 <= i < |ls| ==> Less(x, ls[i].name)
  }

  /** The entries are in strictly increasing key order, so no key repeats. */
  predicate Sorted(ls: seq<Layer>) {
    forall i, j :: 0 <= i < j < |ls| ==> Less(ls[i].name, ls[j].name)
  }

  function Names(ls: seq<Layer>): (r: set<string>)
    decreases |ls|
  {
    if |ls| == 0 then {} else {ls[0].name} + Names(ls[1..])
  }

  /** The paths stored under a name; a missing key reads as no paths. */
  function PathsOf(ls: seq<Layer>, name: string): (r: seq<Path>)
    decreases |ls|
  {
    if |ls| == 0 then [] else if ls[0].name == name then ls[0].paths else PathsOf(ls[1..], name)
  }

  /** `layerPaths[name].push_back(path)`: operator[] finds the entry or inserts an empty
      one in key order, and the path is appended to it. */
  function Upsert(ls: seq<Layer>, name: string, path: Path): (r: seq<Layer>)
    decreases |ls|
  {
    if |ls| == 0 then [Layer(name, [path])]
    else if ls[0].name == name then [Layer(name, ls[0].paths + [path])] + ls[1..]
    else if Less(name, ls[0].name) then [Layer(name, [path])] + ls
    else [ls[0]] + Upsert(ls[1..], name, path)
  }

  lemma {:induction false} AboveAbsent(x: string, ls: seq<Layer>)
    requires Above(x, ls)
    ensures x !in Names(ls)
    decreases |ls|
  {
    if |ls| > 0 {
      LessIrreflexive(x);
      assert Above(x, ls[1..]) by {
        forall i | 0 <= i < |ls| - 1 ensures Less(x, ls[1..][i].name) {
          assert ls[1..][i] == ls[i + 1];
        }
      }
      AboveAbsent(x, ls[1..]);
    }
  }

  lemma {:induction false} AbsentHasNoPaths(ls: seq<Layer>, name: string)
    requires name !in Names(ls)
    ensures PathsOf(ls, name) == []
    decreases |ls|
  {
    if |ls| > 0 {
      AbsentHasNoPaths(ls[1..], name);
    }
  }

  lemma {:induction false} UpsertAbove(x: string, ls: seq<Layer>, name: string, path: Path)
    requires Above(x, ls) && Less(x, name)
    ensures Above(x, Upsert(ls, name, path))
    decreases |ls|
  {
    if |ls| > 0 && ls[0].name != name && !Less(name, ls[0].name) {
      assert Above(x, ls[1..]) by {
        forall i | 0 <= i < |ls| - 1 ensures Less(x, ls[1..][i].name) {
          assert ls[1..][i] == ls[i + 1];
        }
      }
      UpsertAbove(x, ls[1..], name, path);
      var r := Upsert(ls, name, path);
      forall i | 0 <= i < |r| ensures Less(x, r[i].name) {
        if i > 0 {
          assert r[i] == Upsert(ls[1..], name, path)[i - 1];
        }
      }
    }
  }

  lemma SortedTail(ls: seq<Layer>)
    requires Sorted(ls) && |ls| > 0
    ensures Sorted(ls[1..]) && Above(ls[0].name, ls[1..])
  {
    forall i, j | 0 <= i < j < |ls| - 1 ensures Less(ls[1..][i].name, ls[1..][j].name) {
      assert ls[1..][i] == ls[i + 1] && ls[1..][j] == ls[j + 1];
    }
    forall i | 0 <= i < |ls| - 1 ensures Less(ls[0].name, ls[1..][i].name) {
      assert ls[1..][i] == ls[i + 1];
    }
  }

  lemma SortedCons(x: Layer, ls: seq<Layer>)
    requires Sorted(ls) && Above(x.name, ls)
    ensures Sorted([x] + ls)
  {
    var r := [x] + ls;
    forall i, j | 0 <= i < j < |r| ensures Less(r[i].name, r[j].name) {
      if i > 0 {
        assert r[i] == ls[i - 1] && r[j] == ls[j - 1];
      } else {
        assert r[j] == ls[j - 1];
      }
    }
  }

  /** Appending a path through operator[]: the map stays in key order, the key is
      present afterwards, its list gains the path at the end, and every other key's
      list is unchanged. */
  lemma {:induction false} UpsertSpec(ls: seq<Layer>, name: string, path: Path)
    requires Sorted(ls)
    ensures Sorted(Upsert(ls, name, path))
    ensures Names(Upsert(ls, name, path)) == Names(ls) + {name}
    ensures PathsOf(Upsert(ls, name, path), name) == PathsOf(ls, name) + [path]
    ensures forall n :: n != name ==> PathsOf(Upsert(ls, name, path), n) == PathsOf(ls, n)
    decreases |ls|
  {
    var r := Upsert(ls, name, path);
    if |ls| == 0 {
    } else if ls[0].name == name {
      SortedTail(ls);
      SortedCons(Layer(name, ls[0].paths + [path]), ls[1..]);
    } else if Less(name, ls[0].name) {
      SortedTail(ls);
      assert Above(name, ls) by {
        forall i | 0 <= i < |ls| ensures Less(name, ls[i].name) {
          if i > 0 {
            LessTransitive(name, ls[0].name, ls[i].name);
          }
        }
      }
      AboveAbsent(name, ls);
      AbsentHasNoPaths(ls, name);
      SortedCons(Layer(name, [path]), ls);
    } else {
      LessTotal(name, ls[0].name);
      SortedTail(ls);
      UpsertSpec(ls[1..], name, path);
      UpsertAbove(ls[0].name, ls[1..], name, path);
      SortedCons(ls[0], Upsert(ls[1..], name, path));
    }
  }

  // ---------------------------------------------------------------------
  // The entities libdxfrw hands to the viewer

  /** A LINE (start and end point), an LWPOLYLINE (its vertices and flags), or any other
      entity, whose callback does nothing. */
  datatype Entity = LineEntity(base: Point2, sec: Point2) | LwPolylineEntity(verts: seq<Point2>, flags: int) | OtherEntity

  /** The path of an LWPOLYLINE: its vertices, with the first repeated at the end when
      flag bit 0 (closed) is set and there is a vertex. The bit of a C++ int is its
      value modulo 2 in two's complement, which is Dafny's Euclidean `% 2`. */
  function LwPath(verts: seq<Point2>, flags: int): (path: Path)
    ensures flags % 2 == 1 && |verts| > 0 ==> path == verts + [verts[0]]
    ensures !(flags % 2 == 1 && |verts| > 0) ==> path == verts
  {
    if flags % 2 == 1 && |verts| > 0 then verts + [verts[0]] else verts
  }

  /** The paths an entity adds: one for a LINE or an LWPOLYLINE, none for anything else. */
  function EntityPaths(e: Entity): (r: seq<Path>) {
    match e
    case LineEntity(a, b) => [[a, b]]
    case LwPolylineEntity(vs, fl) => [LwPath(vs, fl)]
    case OtherEntity => []
  }

  /** The points an entity adds to the preview polyline. */
  function EntityPoints(e: Entity): (r: seq<Point2>) {
    match e
    case LineEntity(a, b) => [a, b]
    case LwPolylineEntity(vs, fl) => vs
    case OtherEntity => []
  }

  /** The map after the entities es were read into the layer `name`, from ls. */
  function Collect(ls: seq<Layer>, es: seq<Entity>, name: string): (r: seq<Layer>)
    decreases |es|
  {
    if |es| == 0 then ls
    else
      var before := Collect(ls, es[..|es| - 1], name);
      var e := es[|es| - 1];
      if e.OtherEntity? then before else Upsert(before, name, EntityPaths(e)[0])
  }

  /** Reading a drawing into one layer appends each entity's path to that layer, in
      file order, and leaves the other layers alone. */
  lemma {:induction false} CollectSpec(ls: seq<Layer>, es: seq<Entity>, name: string)
    requires Sorted(ls)
    ensures Sorted(Collect(ls, es, name))
    ensures PathsOf(Collect(ls, es, name), name) == PathsOf(ls, name) + FlatMap(es, EntityPaths)
    ensures forall n :: n != name ==> PathsOf(Collect(ls, es, name), n) == PathsOf(ls, n)
    ensures Names(Collect(ls, es, name)) <= Names(ls) + {name}
    decreases |es|
  {
    if |es| > 0 {
      var init := es[..|es| - 1];
      var e := es[|es| - 1];
      CollectSpec(ls, init, name);
      FlatMapSnoc(init, e, EntityPaths);
      assert init + [e] == es;
      if !e.OtherEntity? {
        UpsertSpec(Collect(ls, init, name), name, EntityPaths(e)[0]);
      }
    }
  }

  // ---------------------------------------------------------------------
  // The G-code program

  /** The signed offset given to InflatePaths, `isPocket ? -toolRadius : toolRadius`:
      minus the tool radius for a layer whose name contains "pocket" (find != npos),
      plus the radius for any other. The "cut" test beside it is computed and unused. */
  function Offset(name: string, tool: Tool): (r: real) {
    if Contains(name, "pocket") then -(tool.diameter / 2.0) else tool.diameter / 2.0
  }

  /** A pocket layer is cut inside its outline and any other layer outside it. */
  lemma OffsetSide(name: string, tool: Tool)
    requires tool.diameter > 0.0
    ensures Offset(name, tool) < 0.0 <==> Contains(name, "pocket")
    ensures Offset(name, tool) > 0.0 <==> !Contains(name, "pocket")
  {
  }

  /** The depth of pass k: -dpp, -2 dpp, ...; the loop's repeated `depth -= dpp` over reals. */
  function Depth(k: nat, dpp: real): (r: real) {
    -LayerZ(k + 1, dpp)
  }

  /** The number of passes: the k >= 0 with -(k + 1) dpp >= -total. */
  function PassCount(dpp: real, total: real): (r: nat)
    requires dpp > 0.0
  {
    if total < 0.0 then 0 else LayerCount(total, dpp) - 1
  }

  /** Pass k is cut exactly when k is below the pass count, so the passes are
      floor(total / dpp) many, and none when dpp exceeds the total depth. */
  lemma {:induction false} PassIff(dpp: real, total: real, k: nat)
    requires dpp > 0.0
    ensures Depth(k, dpp) >= -total <==> k < PassCount(dpp, total)
  {
    if total >= 0.0 {
      CutIff(total, dpp, k + 1);
    } else {
      assert LayerZ(k + 1, dpp) >= 0.0 by {
        ProductSign((k + 1) as real, dpp);
      }
    }
  }

  lemma {:induction false} PassCountFloor(dpp: real, total: real)
    requires dpp > 0.0 && total >= 0.0
    ensures PassCount(dpp, total) == Floor(total / dpp)
    ensures dpp > total ==> PassCount(dpp, total) == 0
  {
    FloorScaled(total, dpp);
    var n := PassCount(dpp, total);
    var f := Floor(total / dpp);
    assert LayerZ(n, dpp) <= total < LayerZ(n + 1, dpp) by {
      CutIff(total, dpp, n);
      CutIff(total, dpp, n + 1);
    }
    if dpp > total && n > 0 {
      ScaleMonotone(1, n, dpp);
    }
  }

  lemma ScaleMonotone(a: nat, b: nat, h: real)
    requires a <= b && h > 0.0
    ensures LayerZ(a, h) <= LayerZ(b, h)
  {
    ProductSign((b - a) as real, h);
    assert (b - a) as real * h == b as real * h - a as real * h;
  }

  /** The default tool cuts three passes, at -1.5, -3 and -4.5. */
  lemma DefaultPasses()
    ensures PassCount(DefaultTool.depthPerPass, DefaultTool.totalDepth) == 3
    ensures Depth(0, 1.5) == -1.5 && Depth(1, 1.5) == -3.0 && Depth(2, 1.5) == -4.5
  {
    PassCountFloor(1.5, 4.5);
    assert 4.5 / 1.5 == 3.0;
  }

  /** One offset path in one pass: nothing for an empty path; otherwise a rapid to its
      first point, the plunge, "G1 F300", a feed through each later point, the retract. */
  function CutLines(path: Path, depth: real): (r: seq<Line>) {
    if |path| == 0 then []
    else [RapidTo(path[0]), Plunge(depth), T("G1 F300")] + Feeds(path[1..]) + [T("G0 Z5")]
  }

  function PassLines(paths: seq<Path>, depth: real): (r: seq<Line>)
    decreases |paths|
  {
    if |paths| == 0 then [] else PassLines(paths[..|paths| - 1], depth) + CutLines(paths[|paths| - 1], depth)
  }

  /** The first k passes over the offset paths. */
  function Passes(paths: seq<Path>, dpp: real, k: nat): (r: seq<Line>) {
    if k == 0 then [] else Passes(paths, dpp, k - 1) + PassLines(paths, Depth(k - 1, dpp))
  }

  /** One layer: its paths offset by InflatePaths (round joins, closed polygons) and cut
      in every pass. */
  function LayerLines(l: Layer, tool: Tool, inflate: Inflate): (r: seq<Line>)
    requires tool.depthPerPass > 0.0
  {
    Passes(inflate(l.paths, Offset(l.name, tool)), tool.depthPerPass, PassCount(tool.depthPerPass, tool.totalDepth))
  }

  function Body(ls: seq<Layer>, tool: Tool, inflate: Inflate): (r: seq<Line>)
    requires tool.depthPerPass > 0.0
    decreases |ls|
  {
    if |ls| == 0 then [] else Body(ls[..|ls| - 1], tool, inflate) + LayerLines(ls[|ls| - 1], tool, inflate)
  }

  /** The program exportGCode writes to lid_output.gcode. */
  function Program(ls: seq<Layer>, tool: Tool, inflate: Inflate): (r: seq<Line>)
    requires tool.depthPerPass > 0.0
  {
    Header + Body(ls, tool, inflate) + [T("M30")]
  }

  /** A non-empty path gives |path| + 3 lines: the rapid to its first point, the plunge
      to the pass depth, "G1 F300", one feed per later point in order, and "G0 Z5". */
  lemma CutLinesShape(path: Path, depth: real)
    requires |path| > 0
    ensures |CutLines(path, depth)| == |path| + 3
    ensures CutLines(path, depth)[0] == RapidTo(path[0])
    ensures CutLines(path, depth)[1] == Plunge(depth)
    ensures CutLines(path, depth)[2] == T("G1 F300")
    ensures forall i :: 1 <= i < |path| ==> CutLines(path, depth)[i + 2] == FeedTo(path[i])
    ensures CutLines(path, depth)[|path| + 2] == T("G0 Z5")
  {
    FeedsAt(path[1..]);
    var b := CutLines(path, depth);
    forall i | 1 <= i < |path| ensures b[i + 2] == FeedTo(path[i]) {
      assert b[i + 2] == Feeds(path[1..])[i - 1];
    }
  }

  lemma BodySnoc(ls: seq<Layer>, i: nat, tool: Tool, inflate: Inflate)
    requires i < |ls| && tool.depthPerPass > 0.0
    ensures Body(ls[..i + 1], tool, inflate) == Body(ls[..i], tool, inflate) + LayerLines(ls[i], tool, inflate)
  {
    assert ls[..i + 1][..i] == ls[..i];
  }

  /** The program opens with the T-slot header and closes with "M30". */
  lemma ProgramFrame(ls: seq<Layer>, tool: Tool, inflate: Inflate)
    requires tool.depthPerPass > 0.0
    ensures Program(ls, tool, inflate)[..4] == Header
    ensures Program(ls, tool, inflate)[|Program(ls, tool, inflate)| - 1] == T("M30")
  {
    var body := Body(ls, tool, inflate);
    assert (Header + body + [T("M30")])[..4] == Header;
  }

  // ---------------------------------------------------------------------
  // The exporter's loops

  /** The lines of one offset path in one pass. */
  method EmitCut(code: seq<Line>, path: Path, depth: real) returns (out: seq<Line>)
    ensures out == code + CutLines(path, depth)
  {
    out := code;
    if |path| == 0 {
      return;
    }
    out := out + [RapidTo(path[0])];
    out := out + [Plunge(depth)];
    out := out + [T("G1 F300")];
    var i := 1;
    while i < |path|
      invariant 1 <= i <= |path|
      invariant out == code + [RapidTo(path[0]), Plunge(depth), T("G1 F300")] + Feeds(path[1..i])
    {
      assert path[1..i + 1][..i - 1] == path[1..i] && path[1..i + 1][i - 1] == path[i];
      out := out + [FeedTo(path[i])];
      i := i + 1;
    }
    assert path[1..i] == path[1..];
    out := out + [T("G0 Z5")];
  }

  /** One pass of the depth loop: every offset path at this depth, empty ones skipped. */
  method EmitPass(code: seq<Line>, paths: seq<Path>, depth: real) returns (out: seq<Line>)
    ensures out == code + PassLines(paths, depth)
  {
    out := code;
    var j := 0;
    while j < |paths|
      invariant 0 <= j <= |paths|
      invariant out == code + PassLines(paths[..j], depth)
    {
      assert paths[..j + 1][..j] == paths[..j];
      AppendAssoc(code, PassLines(paths[..j], depth), CutLines(paths[j], depth));
      out := EmitCut(out, paths[j], depth);
      j := j + 1;
    }
    assert paths[..j] == paths;
  }

  /** The depth loop `for (depth = -dpp; depth >= -total; depth -= dpp)` over one
      layer's offset paths. */
  method EmitPasses(code: seq<Line>, paths: seq<Path>, tool: Tool) returns (out: seq<Line>)
    requires tool.depthPerPass > 0.0
    ensures out == code + Passes(paths, tool.depthPerPass, PassCount(tool.depthPerPass, tool.totalDepth))
  {
    var dpp := tool.depthPerPass;
    out := code;
    var depth := -dpp;
    ghost var k: nat := 0;
    while depth >= -tool.totalDepth
      invariant depth == Depth(k, dpp)
      invariant k <= PassCount(dpp, tool.totalDepth)
      invariant out == code + Passes(paths, dpp, k)
      decreases PassCount(dpp, tool.totalDepth) - k
    {
      PassIff(dpp, tool.totalDepth, k);
      AppendAssoc(code, Passes(paths, dpp, k), PassLines(paths, depth));
      out := EmitPass(out, paths, depth);
      LayerZNext(k + 1, dpp);
      depth := depth - dpp;
      k := k + 1;
    }
    PassIff(dpp, tool.totalDepth, k);
  }

  class DxfViewer {
    /** Every point read, for the preview. */
    var polyline: seq<Point2>
    /** The std::map from layer name to paths, in key order. */
    var layerPaths: seq<Layer>
    var currentTool: Tool
    var currentLayer: string

    ghost predicate Valid()
      reads this
    {
      Sorted(layerPaths)
    }

    constructor()
      ensures Valid()
      ensures polyline == [] && layerPaths == [] && currentLayer == ""
      ensures currentTool == DefaultTool
    {
      polyline := [];
      layerPaths := [];
      currentTool := DefaultTool;
      currentLayer := "";
    }

    method SetLayer(name: string)
      modifies this
      ensures currentLayer == name
      ensures polyline == old(polyline) && layerPaths == old(layerPaths) && currentTool == old(currentTool)
    {
      currentLayer := name;
    }

    /** addLine: both points go to the preview and one 2-point path is appended to the
        current layer's list; nothing else changes. */
    method AddLine(base: Point2, sec: Point2)
      requires Valid()
      modifies this
      ensures Valid()
      ensures polyline == old(polyline) + [base, sec]
      ensures layerPaths == Upsert(old(layerPaths), currentLayer, [base, sec])
      ensures PathsOf(layerPaths, currentLayer) == PathsOf(old(layerPaths), currentLayer) + [[base, sec]]
      ensures forall n :: n != currentLayer ==> PathsOf(layerPaths, n) == PathsOf(old(layerPaths), n)
      ensures currentTool == old(currentTool) && currentLayer == old(currentLayer)
    {
      polyline := polyline + [base];
      polyline := polyline + [sec];
      var path := [base, sec];
      UpsertSpec(layerPaths, currentLayer, path);
      layerPaths := Upsert(layerPaths, currentLayer, path);
    }

    /** addLWPolyline: every vertex goes to the preview and to the path, which is closed
        when flag bit 0 is set and is appended to the current layer's list. */
    method AddLwPolyline(verts: seq<Point2>, flags: int)
      requires Valid()
      modifies this
      ensures Valid()
      ensures polyline == old(polyline) + verts
      ensures layerPaths == Upsert(old(layerPaths), currentLayer, LwPath(verts, flags))
      ensures PathsOf(layerPaths, currentLayer) == PathsOf(old(layerPaths), currentLayer) + [LwPath(verts, flags)]
      ensures forall n :: n != currentLayer ==> PathsOf(layerPaths, n) == PathsOf(old(layerPaths), n)
      ensures currentTool == old(currentTool) && currentLayer == old(currentLayer)
    {
      var path: Path := [];
      var i := 0;
      while i < |verts|
        invariant 0 <= i <= |verts|
        invariant path == verts[..i]
        invariant polyline == old(polyline) + verts[..i]
        invariant layerPaths == old(layerPaths) && currentLayer == old(currentLayer) && currentTool == old(currentTool)
      {
        polyline := polyline + [verts[i]];
        path := path + [verts[i]];
        assert verts[..i + 1] == verts[..i] + [verts[i]];
        i := i + 1;
      }
      assert verts[..i] == verts;
      if flags % 2 == 1 && |path| != 0 {
        path := path + [path[0]];
      }
      UpsertSpec(layerPaths, currentLayer, path);
      layerPaths := Upsert(layerPaths, currentLayer, path);
    }

    /** loadDXF: a cancelled file dialog (None) changes nothing; otherwise the preview
        and the map are cleared and libdxfrw delivers the entities in file order. */
    method LoadDxf(file: Option<seq<Entity>>)
      requires Valid()
      modifies this
      ensures Valid()
      ensures file.None? ==> polyline == old(polyline) && layerPaths == old(layerPaths)
      ensures file.Some? ==> polyline == FlatMap(file.value, EntityPoints)
      ensures file.Some? ==> layerPaths == Collect([], file.value, currentLayer)
      ensures currentTool == old(currentTool) && currentLayer == old(currentLayer)
    {
      if file.None? {
        return;
      }
      var es := file.value;
      polyline := [];
      layerPaths := [];
      var i := 0;
      while i < |es|
        invariant 0 <= i <= |es|
        invariant Valid()
        invariant polyline == FlatMap(es[..i], EntityPoints)
        invariant layerPaths == Collect([], es[..i], currentLayer)
        invariant currentTool == old(currentTool) && currentLayer == old(currentLayer)
      {
        var e := es[i];
        assert es[..i + 1] == es[..i] + [e];
        assert es[..i + 1][..i] == es[..i];
        FlatMapSnoc(es[..i], e, EntityPoints);
        match e {
          case LineEntity(a, b) =>
            AddLine(a, b);
          case LwPolylineEntity(vs, fl) =>
            AddLwPolyline(vs, fl);
          case OtherEntity =>
        }
        i := i + 1;
      }
      assert es[..i] == es;
    }

    /** exportGCode: the header; for every layer in key order its offset paths cut in
        every pass from -dpp down while the depth is not below -total; then "M30". The
        depth loop ends only when dpp > 0. */
    method ExportGCode(inflate: Inflate) returns (code: seq<Line>)
      requires currentTool.depthPerPass > 0.0
      ensures code == Program(layerPaths, currentTool, inflate)
    {
      var tool := currentTool;
      var ls := layerPaths;
      code := Header;
      var li := 0;
      while li < |ls|
        invariant 0 <= li <= |ls|
        invariant code == Header + Body(ls[..li], tool, inflate)
      {
        var layer := ls[li];
        var offsetPaths := inflate(layer.paths, Offset(layer.name, tool));
        BodySnoc(ls, li, tool, inflate);
        AppendAssoc(Header, Body(ls[..li], tool, inflate), LayerLines(layer, tool, inflate));
        code := EmitPasses(code, offsetPaths, tool);
        li := li + 1;
      }
      assert ls[..li] == ls;
      code := code + [T("M30")];
    }
  }
}
