// slice2: the T-slot slicer whose G-code goes through a Clipper2 offset. Every
// pair of slice points becomes a 2-point path, the layer's paths are inflated by
// minus half the shaft diameter, and each resulting path is cut at the tool depth.
module Slice2 {
  import opened Common
  import opened GText
  import opened Stl2Png
  import opened TSlotSlicer
  import opened Toolpath

  // ---------------------------------------------------------------------
  // Segments as Clipper paths

  /** The path joining points 2k and 2k + 1 of the layer, in the xy plane. */
  function PairAt(layer: seq<Vec3>, k: int): (r: seq<Point2>) {
    if 0 <= k && 2 * k + 1 < |layer| then [XY(layer[2 * k]), XY(layer[2 * k + 1])] else []
  }

  /** The layer's points taken two by two; an odd last point is dropped. */
  function Segments(layer: seq<Vec3>): (paths: seq<seq<Point2>>)
  {
    seq(|layer| / 2, k => PairAt(layer, k))
  }

  /** The loop `for (i = 0; i + 1 < layer.size(); i += 2)` building the paths. */
  method SegmentPaths(layer: seq<Vec3>) returns (paths: seq<seq<Point2>>)
    ensures paths == Segments(layer)
  {
    paths := [];
    var i := 0;
    while i + 1 < |layer|
      invariant 0 <= i && i % 2 == 0 && i <= |layer| && |paths| == i / 2
      invariant forall k :: 0 <= k < |paths| ==> paths[k] == [XY(layer[2 * k]), XY(layer[2 * k + 1])]
      decreases |layer| - i
    {
      var path := [XY(layer[i]), XY(layer[i + 1])];
      paths := paths + [path];
      i := i + 2;
    }
  }

  // ---------------------------------------------------------------------
  // The program

  /** The paths a layer is cut along: its segments offset by minus half the shaft. */
  function Offset(layer: seq<Vec3>, tool: Tool, inflate: Inflate): (r: seq<seq<Point2>>) {
    inflate(Segments(layer), -tool.shaftDiameter / 2.0)
  }

  /** One layer: skipped when empty, otherwise the plunge to the cut depth and the offset paths. */
  function LayerBlock(layer: seq<Vec3>, tool: Tool, inflate: Inflate): (r: seq<Line>) {
    if |layer| == 0 then [] else [Plunge(tool.cutDepth)] + PathBlocks(Offset(layer, tool, inflate))
  }

  function Body(layers: seq<seq<Vec3>>, tool: Tool, inflate: Inflate): (r: seq<Line>)
    decreases |layers|
  {
    if |layers| == 0 then [] else Body(layers[..|layers| - 1], tool, inflate) + LayerBlock(layers[|layers| - 1], tool, inflate)
  }

  function ClipperProgram(layers: seq<seq<Vec3>>, tool: Tool, inflate: Inflate): (r: seq<Line>) {
    Header + Body(layers, tool, inflate) + [T("M30")]
  }

  /** One pass of the layer loop: an empty layer is skipped, otherwise its point
      pairs become paths, the paths are offset and each is cut. */
  method EmitLayer(layer: seq<Vec3>, tool: Tool, inflate: Inflate) returns (code: seq<Line>)
    ensures code == LayerBlock(layer, tool, inflate)
  {
    if |layer| == 0 {
      return [];
    }
    var paths := SegmentPaths(layer);
    var offsetPaths := inflate(paths, -tool.shaftDiameter / 2.0);
    var block := EmitPaths(offsetPaths);
    code := [Plunge(tool.cutDepth)] + block;
  }

  /** generateGCodeWithClipper: the header, every non-empty layer's block in order, "M30". */
  method GenerateGCodeWithClipper(allLayers: seq<seq<Vec3>>, tool: Tool, inflate: Inflate) returns (code: seq<Line>)
    ensures code == ClipperProgram(allLayers, tool, inflate)
  {
    code := Header;
    var k := 0;
    while k < |allLayers|
      invariant 0 <= k <= |allLayers|
      invariant code == Header + Body(allLayers[..k], tool, inflate)
    {
      var block := EmitLayer(allLayers[k], tool, inflate);
      assert allLayers[..k + 1][..k] == allLayers[..k];
      AppendAssoc(Header, Body(allLayers[..k], tool, inflate), block);
      code := code + block;
      k := k + 1;
    }
    assert allLayers[..k] == allLayers;
    code := code + [T("M30")];
  }

  // ---------------------------------------------------------------------
  // Properties of the program

  /** The program opens with the four header lines and closes with "M30". */
  lemma {:induction false} ProgramFrame(layers: seq<seq<Vec3>>, tool: Tool, inflate: Inflate)
    ensures ClipperProgram(layers, tool, inflate)[..4] == Header
    ensures ClipperProgram(layers, tool, inflate)[|ClipperProgram(layers, tool, inflate)| - 1] == T("M30")
  {
    var body := Body(layers, tool, inflate);
    assert (Header + body + [T("M30")])[..4] == Header;
  }

  /** The layers that are not empty, in order. */
  function NonEmpty(layers: seq<seq<Vec3>>): (r: seq<seq<Vec3>>)
    ensures forall i :: 0 <= i < |r| ==> |r[i]| > 0
    decreases |layers|
  {
    if |layers| == 0 then []
    else NonEmpty(layers[..|layers| - 1]) + (if |layers[|layers| - 1]| == 0 then [] else [layers[|layers| - 1]])
  }

  /** Empty layers contribute no lines: the program is the one for the non-empty layers alone. */
  lemma {:induction false} EmptyLayersSkipped(layers: seq<seq<Vec3>>, tool: Tool, inflate: Inflate)
    ensures ClipperProgram(layers, tool, inflate) == ClipperProgram(NonEmpty(layers), tool, inflate)
  {
    BodyOfNonEmpty(layers, tool, inflate);
  }

  lemma {:induction false} BodyOfNonEmpty(layers: seq<seq<Vec3>>, tool: Tool, inflate: Inflate)
    ensures Body(layers, tool, inflate) == Body(NonEmpty(layers), tool, inflate)
    decreases |layers|
  {
    if |layers| > 0 {
      var n := |layers| - 1;
      var l := layers[n];
      BodyOfNonEmpty(layers[..n], tool, inflate);
      var ne := NonEmpty(layers[..n]);
      assert Body(layers, tool, inflate) == Body(ne, tool, inflate) + LayerBlock(l, tool, inflate);
      if |l| > 0 {
        assert NonEmpty(layers) == ne + [l];
        assert (ne + [l])[..|ne|] == ne;
        assert Body(ne + [l], tool, inflate) == Body(ne, tool, inflate) + LayerBlock(l, tool, inflate);
      } else {
        assert NonEmpty(layers) == ne;
        assert LayerBlock(l, tool, inflate) == [];
      }
    }
  }

  /** When the offset leaves the paths as they are, every segment of a non-empty
      layer is cut by exactly four lines after the layer's single plunge. */
  lemma {:induction false} UnchangedOffsetLayer(layer: seq<Vec3>, tool: Tool, inflate: Inflate)
    requires |layer| > 0
    requires inflate(Segments(layer), -tool.shaftDiameter / 2.0) == Segments(layer)
    ensures |LayerBlock(layer, tool, inflate)| == 1 + 4 * (|layer| / 2)
  {
    var segs := Segments(layer);
    SegmentsArePairs(layer);
    PairBlocksLength(segs);
    assert Offset(layer, tool, inflate) == segs;
    assert |LayerBlock(layer, tool, inflate)| == 1 + |PathBlocks(Offset(layer, tool, inflate))|;
  }

  /** Every segment path has two points. */
  lemma SegmentsArePairs(layer: seq<Vec3>)
    ensures |Segments(layer)| == |layer| / 2
    ensures forall k :: 0 <= k < |Segments(layer)| ==> |Segments(layer)[k]| == 2
  {
    forall k | 0 <= k < |layer| / 2 ensures |PairAt(layer, k)| == 2 {
      assert 2 * k + 1 < |layer|;
    }
  }

  lemma {:induction false} PairBlocksLength(paths: seq<seq<Point2>>)
    requires forall k :: 0 <= k < |paths| ==> |paths[k]| == 2
    ensures |PathBlocks(paths)| == 4 * |paths|
    decreases |paths|
  {
    if |paths| > 0 {
      PairBlocksLength(paths[..|paths| - 1]);
      PathBlockShape(paths[|paths| - 1]);
    }
  }

  // ---------------------------------------------------------------------
  // The widget

  class SlicerWidget {
    var model: seq<Tri>
    var layers: seq<seq<Vec3>>
    var tool: Tool
    var layerHeight: real
    var maxZ: real

    /** The fields' initial values; main then sets the default T-slot tool. */
    constructor()
      ensures model == [] && layers == [] && tool == DefaultTool
      ensures layerHeight == 1.0 && maxZ == 0.0
    {
      model := [];
      layers := [];
      tool := DefaultTool;
      layerHeight := 1.0;
      maxZ := 0.0;
    }

    /** loadModel: reads the model, finds its top, slices it from z = 0 up to the top
        and returns the program it writes to output.gcode. */
    method LoadModel(file: Option<seq<Byte>>, f32: nat -> real, inflate: Inflate) returns (gcode: seq<Line>)
      requires layerHeight > 0.0
      requires file.Some? ==> WellFormed(file.value)
      modifies this
      ensures tool == old(tool) && layerHeight == old(layerHeight)
      ensures model == LoadedModel(file, f32)
      ensures maxZ == TopZ(model) && maxZ >= 0.0
      ensures |layers| == PlaneSlice.LayerCount(maxZ, layerHeight) && |layers| >= 1
      ensures Sliced(model, layers, layerHeight)
      ensures gcode == ClipperProgram(layers, tool, inflate)
    {
      var m := LoadSTL(file, f32);
      var top := ComputeTopZ(m);
      TopZIsMax(m);
      var ls := SliceLayers(m, top, layerHeight);
      gcode := GenerateGCodeWithClipper(ls, tool, inflate);
      model, maxZ, layers := m, top, ls;
    }
  }
}
