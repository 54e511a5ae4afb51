// What the two T-slot slicers (slice2 and sliceTests) share word for word: the
// unchecked binary STL reader, the per-layer slicer, the tool record and the
// geometry half of SlicerWidget::loadModel (highest z and the layer loop).
module TSlotSlicer {
  import opened Common
  import opened GText
  import opened Stl2Png
  import opened PlaneSlice

  datatype ToolType = TSlot | VBit

  datatype Tool = Tool(kind: ToolType, shaftDiameter: real, headDiameter: real, vAngleDeg: real, cutDepth: real)

  /** The default tool: a T-slot cutter, shaft 6, head 10, V angle 60, cut depth -5. */
  const DefaultTool: Tool := Tool(TSlot, 6.0, 10.0, 60.0, -5.0)

  function XY(v: Vec3): (r: Point2) { Point2(v.x, v.y) }


  // ---------------------------------------------------------------------
  // loadSTL

  /** A binary STL whose declared record count is all there: the reader never checks. */
  predicate WellFormed(buf: seq<Byte>) {
    |buf| >= 84 && |buf| >= 84 + 50 * ReadU32Le(buf, 80)
  }

  /** The triangles of a well-formed file: record i read at 84 + 50 i. */
  function Records(buf: seq<Byte>, f32: nat -> real): (tris: seq<Tri>)
    requires WellFormed(buf)
  {
    seq(ReadU32Le(buf, 80), i requires 0 <= i < ReadU32Le(buf, 80) => RecordTri(buf, 84 + 50 * i, f32))
  }

  /** What loadSTL gives for a file: nothing when it cannot be opened. */
  function LoadedModel(file: Option<seq<Byte>>, f32: nat -> real): (r: seq<Tri>)
    requires file.Some? ==> WellFormed(file.value)
  {
    if file.None? then [] else Records(file.value, f32)
  }

  /** loadSTL: an unopenable file (None) gives no triangles; otherwise the 80-byte
      header is skipped, the count read, and each record gives the 9 floats after its
      3 normal floats. */
  method LoadSTL(file: Option<seq<Byte>>, f32: nat -> real) returns (tris: seq<Tri>)
    requires file.Some? ==> WellFormed(file.value)
    ensures file.None? ==> tris == []
    ensures file.Some? ==> |tris| == ReadU32Le(file.value, 80)
    ensures file.Some? ==> forall i :: 0 <= i < |tris| ==> tris[i] == RecordTri(file.value, 84 + 50 * i, f32)
    ensures tris == LoadedModel(file, f32)
  {
    tris := [];
    if file.None? {
      return;
    }
    var buf := file.value;
    var count := ReadU32Le(buf, 80);
    var i := 0;
    while i < count
      invariant 0 <= i <= count && |tris| == i
      invariant forall j :: 0 <= j < i ==> tris[j] == RecordTri(buf, 84 + 50 * j, f32)
    {
      tris := tris + [RecordTri(buf, 84 + 50 * i, f32)];
      i := i + 1;
    }
  }

  /** On a file that holds all its records, the unchecked reader and stl2png's
      checked parse_binary_stl read the same triangles. */
  lemma {:induction false} AgreesWithCheckedReader(buf: seq<Byte>, f32: nat -> real)
    requires WellFormed(buf)
    ensures RecordsRead(buf) == ReadU32Le(buf, 80)
    ensures BinaryTris(buf, f32) == Records(buf, f32)
  {
    var count := ReadU32Le(buf, 80);
    assert count <= (|buf| - 84) / 50;
  }

  // ---------------------------------------------------------------------
  // sliceLayer

  /** The points one triangle adds to a layer: its two crossing points when exactly
      two edges cross, nothing otherwise. */
  function TriPair(t: Tri, z: real): (pts: seq<Vec3>)
    ensures |pts| == 0 || |pts| == 2
  {
    var pts := EdgePoints(t.v0, t.v1, t.v2, z);
    if |pts| == 2 then pts else []
  }

  /** The layer's point list: the pairs of the triangles, in input order. */
  function LayerPoints(tris: seq<Tri>, z: real): (pts: seq<Vec3>)
    ensures |pts| % 2 == 0
    decreases |tris|
  {
    if |tris| == 0 then [] else LayerPoints(tris[..|tris| - 1], z) + TriPair(tris[|tris| - 1], z)
  }

  /** sliceLayer: collects each triangle's crossing points with the `test` rule and
      keeps them only when there are exactly two. */
  method SliceLayer(tris: seq<Tri>, z: real) returns (lines: seq<Vec3>)
    ensures lines == LayerPoints(tris, z)
  {
    lines := [];
    var i := 0;
    while i < |tris|
      invariant 0 <= i <= |tris|
      invariant lines == LayerPoints(tris[..i], z)
    {
      var tri := tris[i];
      var pts: seq<Vec3> := [];
      if Crosses(tri.v0, tri.v1, z) {
        pts := pts + [Interp(tri.v0, tri.v1, z)];
      }
      if Crosses(tri.v1, tri.v2, z) {
        pts := pts + [Interp(tri.v1, tri.v2, z)];
      }
      if Crosses(tri.v2, tri.v0, z) {
        pts := pts + [Interp(tri.v2, tri.v0, z)];
      }
      if |pts| == 2 {
        lines := lines + [pts[0], pts[1]];
      }
      assert tris[..i + 1][..i] == tris[..i];
      i := i + 1;
    }
    assert tris[..i] == tris;
  }

  /** The number of triangles with exactly two crossing edges. */
  function Cut(tris: seq<Tri>, z: real): (r: nat)
    decreases |tris|
  {
    if |tris| == 0 then 0
    else Cut(tris[..|tris| - 1], z) + (if |EdgePoints(tris[|tris| - 1].v0, tris[|tris| - 1].v1, tris[|tris| - 1].v2, z)| == 2 then 1 else 0)
  }

  /** A layer holds one pair per cut triangle, and every point of it lies on the plane. */
  lemma {:induction false} LayerPointsOnPlane(tris: seq<Tri>, z: real)
    ensures |LayerPoints(tris, z)| == 2 * Cut(tris, z)
    ensures forall i :: 0 <= i < |LayerPoints(tris, z)| ==> LayerPoints(tris, z)[i].z == z
    decreases |tris|
  {
    if |tris| > 0 {
      var t := tris[|tris| - 1];
      LayerPointsOnPlane(tris[..|tris| - 1], z);
      EdgePointsOnPlane(t.v0, t.v1, t.v2, z);
    }
  }

  // ---------------------------------------------------------------------
  // loadModel: the highest z and the layer loop

  /** maxZ after `maxZ = max({maxZ, v0.z, v1.z, v2.z})` over the model, from 0. */
  function TopZ(tris: seq<Tri>): (r: real)
    decreases |tris|
  {
    if |tris| == 0 then 0.0
    else
      var t := tris[|tris| - 1];
      MaxR(MaxR(MaxR(TopZ(tris[..|tris| - 1]), t.v0.z), t.v1.z), t.v2.z)
  }

  /** The top is never below 0 or below any vertex, and it is 0 or the height of some vertex. */
  lemma {:induction false} TopZIsMax(tris: seq<Tri>)
    ensures TopZ(tris) >= 0.0
    ensures forall i :: 0 <= i < |tris| ==> tris[i].v0.z <= TopZ(tris) && tris[i].v1.z <= TopZ(tris) && tris[i].v2.z <= TopZ(tris)
    ensures TopZ(tris) == 0.0 || exists i :: 0 <= i < |tris| && TopZ(tris) in {tris[i].v0.z, tris[i].v1.z, tris[i].v2.z}
    decreases |tris|
  {
    if |tris| > 0 {
      var n := |tris| - 1;
      var init := tris[..n];
      TopZIsMax(init);
      assert forall i :: 0 <= i < n ==> init[i] == tris[i];
      var top := TopZ(tris);
      if top != 0.0 && top !in {tris[n].v0.z, tris[n].v1.z, tris[n].v2.z} {
        assert top == TopZ(init);
        var i :| 0 <= i < n && TopZ(init) in {init[i].v0.z, init[i].v1.z, init[i].v2.z};
        assert top in {tris[i].v0.z, tris[i].v1.z, tris[i].v2.z};
      }
    }
  }

  /** The maxZ loop of loadModel. */
  method ComputeTopZ(model: seq<Tri>) returns (maxZ: real)
    ensures maxZ == TopZ(model)
  {
    maxZ := 0.0;
    var i := 0;
    while i < |model|
      invariant 0 <= i <= |model|
      invariant maxZ == TopZ(model[..i])
    {
      var tri := model[i];
      maxZ := MaxR(MaxR(MaxR(maxZ, tri.v0.z), tri.v1.z), tri.v2.z);
      assert model[..i + 1][..i] == model[..i];
      i := i + 1;
    }
    assert model[..i] == model;
  }

  /** Layer k is the slice of the model at height k h. */
  predicate Sliced(model: seq<Tri>, layers: seq<seq<Vec3>>, h: real) {
    forall k :: 0 <= k < |layers| ==> layers[k] == LayerPoints(model, LayerZ(k, h))
  }

  lemma SlicedAppend(model: seq<Tri>, layers: seq<seq<Vec3>>, h: real, pts: seq<Vec3>)
    requires Sliced(model, layers, h)
    requires pts == LayerPoints(model, LayerZ(|layers|, h))
    ensures Sliced(model, layers + [pts], h)
  {
    var ext := layers + [pts];
    forall k | 0 <= k < |ext| ensures ext[k] == LayerPoints(model, LayerZ(k, h)) {
      if k < |layers| {
        assert ext[k] == layers[k];
      }
    }
  }

  /** The layer loop `for (z = 0; z <= maxZ; z += layerHeight)`: layer k is the
      slice at k * layerHeight, for every such height up to maxZ. */
  method SliceLayers(model: seq<Tri>, maxZ: real, layerHeight: real) returns (layers: seq<seq<Vec3>>)
    requires layerHeight > 0.0 && maxZ >= 0.0
    ensures |layers| == LayerCount(maxZ, layerHeight)
    ensures Sliced(model, layers, layerHeight)
  {
    layers := [];
    var z := 0.0;
    while z <= maxZ
      invariant z == LayerZ(|layers|, layerHeight)
      invariant |layers| <= LayerCount(maxZ, layerHeight)
      invariant Sliced(model, layers, layerHeight)
      decreases LayerCount(maxZ, layerHeight) - |layers|
    {
      CutIff(maxZ, layerHeight, |layers|);
      var pts := SliceLayer(model, z);
      LayerZNext(|layers|, layerHeight);
      SlicedAppend(model, layers, layerHeight, pts);
      layers := layers + [pts];
      z := z + layerHeight;
    }
    CutIff(maxZ, layerHeight, |layers|);
  }
}
