// sliceTests: the T-slot slicer that writes the slice segments straight out,
// one rapid and one feed per segment, with a plunge and a retract around every
// layer, empty or not.
module SliceTests {
  import opened Common
  import opened GText
  import opened Stl2Png
  import opened PlaneSlice
  import opened TSlotSlicer

  function FeedF500(p: Point2): (r: Line) { Line([Lit("G1 X"), G(p.x), Lit(" Y"), G(p.y), Lit(" F500")]) }

  /** The two lines of segment k: a rapid to point 2k and a feed to point 2k + 1. */
  function SegmentLines(layer: seq<Vec3>, k: nat): (r: seq<Line>)
    requires 2 * k + 1 < |layer|
  {
    [RapidTo(XY(layer[2 * k])), FeedF500(XY(layer[2 * k + 1]))]
  }

  /** The lines of the first n segments of a layer. */
  function SegmentsUpTo(layer: seq<Vec3>, n: nat): (r: seq<Line>)
    requires 2 * n <= |layer|
  {
    if n == 0 then [] else SegmentsUpTo(layer, n - 1) + SegmentLines(layer, n - 1)
  }

  /** One layer: the plunge, every segment of the layer, the retract. */
  function LayerLines(layer: seq<Vec3>, tool: Tool): (r: seq<Line>) {
    [Plunge(tool.cutDepth)] + SegmentsUpTo(layer, |layer| / 2) + [T("G0 Z5")]
  }

  function Body(layers: seq<seq<Vec3>>, tool: Tool): (r: seq<Line>)
    decreases |layers|
  {
    if |layers| == 0 then [] else Body(layers[..|layers| - 1], tool) + LayerLines(layers[|layers| - 1], tool)
  }

  function Program(layers: seq<seq<Vec3>>, tool: Tool): (r: seq<Line>) {
    Header + Body(layers, tool) + [T("M30")]
  }

  /** generateGCode: the header, then for every layer the plunge, two lines per
      point pair (`for (i = 0; i + 1 < size; i += 2)`) and the retract, then "M30". */
  method GenerateGCode(allLayers: seq<seq<Vec3>>, tool: Tool) returns (code: seq<Line>)
    ensures code == Program(allLayers, tool)
  {
    code := Header;
    var k := 0;
    while k < |allLayers|
      invariant 0 <= k <= |allLayers|
      invariant code == Header + Body(allLayers[..k], tool)
    {
      var layer := allLayers[k];
      ghost var before := code;
      code := code + [Plunge(tool.cutDepth)];
      var i := 0;
      while i + 1 < |layer|
        invariant 0 <= i && i % 2 == 0 && i <= |layer|
        invariant code == before + [Plunge(tool.cutDepth)] + SegmentsUpTo(layer, i / 2)
        decreases |layer| - i
      {
        AppendAssoc(before + [Plunge(tool.cutDepth)], SegmentsUpTo(layer, i / 2), SegmentLines(layer, i / 2));
        code := code + [RapidTo(XY(layer[i]))];
        code := code + [FeedF500(XY(layer[i + 1]))];
        i := i + 2;
      }
      assert i / 2 == |layer| / 2;
      code := code + [T("G0 Z5")];
      assert allLayers[..k + 1][..k] == allLayers[..k];
      AppendAssoc(Header, Body(allLayers[..k], tool), LayerLines(layer, tool));
      AppendAssoc(before, [Plunge(tool.cutDepth)] + SegmentsUpTo(layer, i / 2), [T("G0 Z5")]);
      AppendAssoc(before, [Plunge(tool.cutDepth)], SegmentsUpTo(layer, i / 2));
      k := k + 1;
    }
    assert allLayers[..k] == allLayers;
    code := code + [T("M30")];
  }

  // ---------------------------------------------------------------------
  // Properties of the program

  /** The number of point pairs over all layers. */
  function SegmentCount(layers: seq<seq<Vec3>>): (r: nat)
    decreases |layers|
  {
    if |layers| == 0 then 0 else SegmentCount(layers[..|layers| - 1]) + |layers[|layers| - 1]| / 2
  }

  lemma {:induction false} SegmentsUpToShape(layer: seq<Vec3>, n: nat)
    requires 2 * n <= |layer|
    ensures |SegmentsUpTo(layer, n)| == 2 * n
    ensures forall k :: 0 <= k < n ==>
      (SegmentsUpTo(layer, n)[2 * k] == RapidTo(XY(layer[2 * k]))
       && SegmentsUpTo(layer, n)[2 * k + 1] == FeedF500(XY(layer[2 * k + 1])))
  {
    if n > 0 {
      SegmentsUpToShape(layer, n - 1);
    }
  }

  /** Every layer, empty or not, is the plunge, then for pair k a rapid to point 2k
      and a feed at F500 to point 2k + 1, then the retract: 2 + 2 * pairs lines. */
  lemma {:induction false} LayerLinesShape(layer: seq<Vec3>, tool: Tool)
    ensures |LayerLines(layer, tool)| == 2 + 2 * (|layer| / 2)
    ensures LayerLines(layer, tool)[0] == Plunge(tool.cutDepth)
    ensures LayerLines(layer, tool)[|LayerLines(layer, tool)| - 1] == T("G0 Z5")
    ensures forall k :: 0 <= k < |layer| / 2 ==>
      (LayerLines(layer, tool)[1 + 2 * k] == RapidTo(XY(layer[2 * k]))
       && LayerLines(layer, tool)[2 + 2 * k] == FeedF500(XY(layer[2 * k + 1])))
  {
    SegmentsUpToShape(layer, |layer| / 2);
  }

  /** The program has 5 + 2 * layers + 2 * segments lines: four header lines, a plunge
      and a retract per layer, two lines per segment, and "M30". */
  lemma {:induction false} ProgramLength(layers: seq<seq<Vec3>>, tool: Tool)
    ensures |Program(layers, tool)| == 5 + 2 * |layers| + 2 * SegmentCount(layers)
    ensures Program(layers, tool)[..4] == Header
    ensures Program(layers, tool)[|Program(layers, tool)| - 1] == T("M30")
  {
    BodyLength(layers, tool);
    var body := Body(layers, tool);
    assert (Header + body + [T("M30")])[..4] == Header;
  }

  lemma {:induction false} BodyLength(layers: seq<seq<Vec3>>, tool: Tool)
    ensures |Body(layers, tool)| == 2 * |layers| + 2 * SegmentCount(layers)
    decreases |layers|
  {
    if |layers| > 0 {
      BodyLength(layers[..|layers| - 1], tool);
      LayerLinesShape(layers[|layers| - 1], tool);
    }
  }

  /** For a sliced model, the segments are the triangles cut by exactly two edges,
      summed over the layers. */
  lemma {:induction false} SegmentsOfSlicedModel(model: seq<Tri>, layers: seq<seq<Vec3>>, h: real)
    requires Sliced(model, layers, h)
    ensures SegmentCount(layers) == CutTotal(model, |layers|, h)
    decreases |layers|
  {
    if |layers| > 0 {
      var n := |layers| - 1;
      var init := layers[..n];
      assert forall k :: 0 <= k < n ==> init[k] == layers[k];
      assert Sliced(model, init, h);
      SegmentsOfSlicedModel(model, init, h);
      var z := LayerZ(n, h);
      assert layers[n] == LayerPoints(model, z);
      LayerPointsOnPlane(model, z);
      assert SegmentCount(layers) == SegmentCount(init) + |layers[n]| / 2;
    }
  }

  /** The cut triangles of the first n layers at heights 0, h, 2h, .... */
  function CutTotal(model: seq<Tri>, n: nat, h: real): (r: nat) {
    if n == 0 then 0 else CutTotal(model, n - 1, h) + Cut(model, LayerZ(n - 1, h))
  }

  // ---------------------------------------------------------------------
  // The widget

  class SlicerWidget {
    var model: seq<Tri>
    var layers: seq<seq<Vec3>>
    var tool: Tool
    var layerHeight: real
    var maxZ: real

    /** The tool comes from Tool's default arguments: a T-slot cutter, shaft 6,
        head 10, angle 60, depth -5. */
    constructor()
      ensures model == [] && layers == []
      ensures tool == Tool(TSlot, 6.0, 10.0, 60.0, -5.0)
      ensures layerHeight == 1.0 && maxZ == 0.0
    {
      model := [];
      layers := [];
      tool := DefaultTool;
      layerHeight := 1.0;
      maxZ := 0.0;
    }

    /** loadModel: reads the model, finds its top, slices it from z = 0 up to the top
        and returns the program it writes to output.gcode. */
    method LoadModel(file: Option<seq<Byte>>, f32: nat -> real) returns (gcode: seq<Line>)
      requires layerHeight > 0.0
      requires file.Some? ==> WellFormed(file.value)
      modifies this
      ensures tool == old(tool) && layerHeight == old(layerHeight)
      ensures model == LoadedModel(file, f32)
      ensures maxZ == TopZ(model) && maxZ >= 0.0
      ensures |layers| == LayerCount(maxZ, layerHeight) && |layers| >= 1
      ensures Sliced(model, layers, layerHeight)
      ensures gcode == Program(layers, tool)
    {
      var m := LoadSTL(file, f32);
      var top := ComputeTopZ(m);
      TopZIsMax(m);
      var ls := SliceLayers(m, top, layerHeight);
      gcode := GenerateGCode(ls, tool);
      model, maxZ, layers := m, top, ls;
    }
  }
}
