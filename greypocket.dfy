// greypocket: a grayscale heightmap cut as nested pockets. At each depth from 0
// to 5 mm in 1 mm steps the image is thresholded (darker than the level's
// threshold becomes black), the black region is traced into a path, scaled from
// pixels to millimetres, offset inwards by the tool radius and cut at that depth.
module Greypocket {
  import opened Common
  import opened GText
  import opened PlaneSlice
  import opened Toolpath

  const PixelSize: real := 0.2
  const LayerHeight: real := 1.0
  const MaxDepth: real := 5.0
  const ToolRadius: real := 1.0

  /** QPainterPath::addRegion(QRegion(QBitmap::fromImage(binary))) read back element
      by element, kept abstract: the element positions, in pixels, of the path that
      outlines the binarised image (given row by row). */
  type Trace = seq<seq<Byte>> -> seq<Point2>

  // ---------------------------------------------------------------------
  // pathFromQPainterPath

  /** The painter path's elements scaled from pixels to millimetres. */
  function Scaled(elements: seq<Point2>): (r: Path)
    decreases |elements|
  {
    if |elements| == 0 then []
    else Scaled(elements[..|elements| - 1]) + [ScaleP(elements[|elements| - 1], PixelSize)]
  }

  /** Every element becomes one point, 0.2 times its position; scaling by 5 gives the
      element back, so no two elements share a point. */
  lemma {:induction false} ScaledAt(elements: seq<Point2>)
    ensures |Scaled(elements)| == |elements|
    ensures forall i :: 0 <= i < |elements| ==> Scaled(elements)[i] == ScaleP(elements[i], PixelSize)
    ensures forall i :: 0 <= i < |elements| ==> ScaleP(Scaled(elements)[i], 5.0) == elements[i]
    decreases |elements|
  {
    if |elements| > 0 {
      ScaledAt(elements[..|elements| - 1]);
    }
  }

  method PathFromElements(elements: seq<Point2>) returns (path: Path)
    ensures path == Scaled(elements)
  {
    path := [];
    var i := 0;
    while i < |elements|
      invariant 0 <= i <= |elements|
      invariant path == Scaled(elements[..i])
    {
      assert elements[..i + 1][..i] == elements[..i];
      path := path + [ScaleP(elements[i], PixelSize)];
      i := i + 1;
    }
    assert elements[..i] == elements;
  }

  // ---------------------------------------------------------------------
  // Thresholds and binarisation

  /** static_cast<int>(255.0 * (depth / max_depth_mm)). */
  function Threshold(depth: real): (r: int) { Trunc(255.0 * (depth / MaxDepth)) }

  /** The k-th pass is at depth k mm and thresholds at 51 k. */
  lemma ThresholdAt(k: nat)
    requires k <= 5
    ensures LayerZ(k, LayerHeight) == k as real
    ensures Threshold(LayerZ(k, LayerHeight)) == 51 * k
  {
    var t := Threshold(LayerZ(k, LayerHeight));
    assert 255.0 * (k as real / MaxDepth) == (51 * k) as real;
    assert t as real <= (51 * k) as real < t as real + 1.0;
  }

  /** Between the surface and the maximum depth the threshold stays a gray level, and
      it never decreases as the cut goes deeper. */
  lemma ThresholdRange(d1: real, d2: real)
    requires 0.0 <= d1 <= d2 <= MaxDepth
    ensures 0 <= Threshold(d1) <= Threshold(d2) <= 255
  {
    var a, b := 255.0 * (d1 / MaxDepth), 255.0 * (d2 / MaxDepth);
    assert 0.0 <= a <= b <= 255.0;
  }

  /** One pixel of the binarised image. */
  function Level(v: Byte, threshold: int): (r: Byte) { if v < threshold then 0 else 255 }

  /** The binarised image: each pixel darker than the threshold black, every other white. */
  function Binarized(grid: seq<seq<Byte>>, threshold: int): (r: seq<seq<Byte>>) {
    seq(|grid|, y requires 0 <= y < |grid| =>
      seq(|grid[y]|, x requires 0 <= x < |grid[y]| => Level(grid[y][x], threshold)))
  }

  /** A binarised image holds only black and white, keeps the image's shape, and a
      pixel is black exactly when it is darker than the threshold. */
  lemma BinarizedPixels(grid: seq<seq<Byte>>, threshold: int, y: nat, x: nat)
    requires y < |grid| && x < |grid[y]|
    ensures |Binarized(grid, threshold)| == |grid| && |Binarized(grid, threshold)[y]| == |grid[y]|
    ensures Binarized(grid, threshold)[y][x] in {0, 255}
    ensures Binarized(grid, threshold)[y][x] == 0 <==> grid[y][x] < threshold
  {
  }

  /** The pockets nest: a pixel black at one depth stays black at every deeper one. */
  lemma LevelsNest(grid: seq<seq<Byte>>, j: nat, k: nat, y: nat, x: nat)
    requires j <= k <= 5 && y < |grid| && x < |grid[y]|
    requires Binarized(grid, Threshold(LayerZ(j, LayerHeight)))[y][x] == 0
    ensures Binarized(grid, Threshold(LayerZ(k, LayerHeight)))[y][x] == 0
  {
    ThresholdAt(j);
    ThresholdAt(k);
  }

  /** At the surface nothing is black; at the maximum depth only pure white is left. */
  lemma FirstAndLastLevel(grid: seq<seq<Byte>>, y: nat, x: nat)
    requires y < |grid| && x < |grid[y]|
    ensures Binarized(grid, Threshold(LayerZ(0, LayerHeight)))[y][x] == 255
    ensures Binarized(grid, Threshold(LayerZ(5, LayerHeight)))[y][x] == 255 <==> grid[y][x] == 255
  {
    ThresholdAt(0);
    ThresholdAt(5);
  }

  /** The image's pixels, row by row. */
  function Rows(a: array2<Byte>): (r: seq<seq<Byte>>)
    reads a
  {
    seq(a.Length0, y requires 0 <= y < a.Length0 reads a =>
      seq(a.Length1, x requires 0 <= x < a.Length1 reads a => a[y, x]))
  }

  /** `QImage binary = img;` then every scan line rewritten in place. */
  method Binarize(img: array2<Byte>, threshold: int) returns (binary: array2<Byte>)
    ensures fresh(binary)
    ensures Rows(binary) == Binarized(Rows(img), threshold)
  {
    var h, w := img.Length0, img.Length1;
    binary := new Byte[h, w]((y, x) requires 0 <= y < h && 0 <= x < w reads img => img[y, x]);
    var y := 0;
    while y < h
      invariant 0 <= y <= h
      invariant forall r, c :: 0 <= r < h && 0 <= c < w ==>
        binary[r, c] == (if r < y then Level(img[r, c], threshold) else img[r, c])
    {
      var x := 0;
      while x < w
        invariant 0 <= x <= w
        invariant forall r, c :: 0 <= r < h && 0 <= c < w ==>
          binary[r, c] == (if r < y || (r == y && c < x) then Level(img[r, c], threshold) else img[r, c])
      {
        binary[y, x] := if binary[y, x] < threshold then 0 else 255;
        x := x + 1;
      }
      y := y + 1;
    }
    assert forall r :: 0 <= r < h ==> Rows(binary)[r] == Binarized(Rows(img), threshold)[r];
  }

  // ---------------------------------------------------------------------
  // generateGCode and the depth loop

  /** "G1 Z<-depth> F300". */
  function PlungeTo(depth: real): (r: Line) { Line([Lit("G1 Z"), G(-depth), Lit(" F300")]) }

  /** generateGCode: the plunge, then each non-empty offset path cut as usual. */
  function LevelCode(layers: seq<Path>, depth: real): (r: seq<Line>) {
    [PlungeTo(depth)] + PathBlocks(layers)
  }

  method GenerateGCode(layers: seq<Path>, depth: real) returns (code: seq<Line>)
    ensures code == LevelCode(layers, depth)
  {
    code := [PlungeTo(depth)];
    var blocks := EmitPaths(layers);
    code := code + blocks;
  }

  /** The paths pocketed at a depth: the traced black region, in millimetres, offset
      inwards by the tool radius. */
  function Offsets(grid: seq<seq<Byte>>, depth: real, trace: Trace, inflate: Inflate): (r: seq<Path>) {
    inflate([Scaled(trace(Binarized(grid, Threshold(depth))))], -ToolRadius)
  }

  /** The code of the first n depths. */
  function Passes(grid: seq<seq<Byte>>, n: nat, trace: Trace, inflate: Inflate): (r: seq<Line>)
    decreases n
  {
    if n == 0 then []
    else
      var depth := LayerZ(n - 1, LayerHeight);
      Passes(grid, n - 1, trace, inflate) + LevelCode(Offsets(grid, depth, trace, inflate), depth)
  }

  /** One more depth appends that depth's code. */
  lemma PassesNext(grid: seq<seq<Byte>>, k: nat, trace: Trace, inflate: Inflate)
    ensures Passes(grid, k + 1, trace, inflate)
      == Passes(grid, k, trace, inflate) + LevelCode(Offsets(grid, LayerZ(k, LayerHeight), trace, inflate), LayerZ(k, LayerHeight))
  {
  }

  const ProgramHeader: seq<Line> := [T("G21"), T("G90"), T("G0 Z5")]

  /** The whole program: header, every depth from 0 to max_depth_mm, "M30". */
  function Program(grid: seq<seq<Byte>>, trace: Trace, inflate: Inflate): (r: seq<Line>) {
    ProgramHeader + Passes(grid, LayerCount(MaxDepth, LayerHeight), trace, inflate) + [T("M30")]
  }

  /** The program once the depth loop has run its course. */
  lemma ProgramAt(grid: seq<seq<Byte>>, k: nat, trace: Trace, inflate: Inflate)
    requires k == LayerCount(MaxDepth, LayerHeight)
    ensures Program(grid, trace, inflate) == ProgramHeader + Passes(grid, k, trace, inflate) + [T("M30")]
  {
  }

  /** The depth loop runs six times, at 0, 1, 2, 3, 4 and 5 mm. */
  lemma SixDepths()
    ensures LayerCount(MaxDepth, LayerHeight) == 6
    ensures forall k: nat :: k <= 5 ==> LayerZ(k, LayerHeight) <= MaxDepth
  {
    var n := LayerCount(MaxDepth, LayerHeight);
    assert (n - 1) as real <= 5.0 < n as real;
  }

  /** The program opens with its three header lines and closes with "M30". */
  lemma ProgramFrame(grid: seq<seq<Byte>>, trace: Trace, inflate: Inflate)
    ensures var p := Program(grid, trace, inflate);
      |p| >= 4 && p[..3] == ProgramHeader && p[|p| - 1] == T("M30")
  {
    var body := Passes(grid, LayerCount(MaxDepth, LayerHeight), trace, inflate);
    var p := ProgramHeader + body + [T("M30")];
    assert p[..3] == ProgramHeader;
  }

  /** One pass of the depth loop: threshold, trace, scale, offset, cut. */
  method CutLevel(img: array2<Byte>, ghost grid: seq<seq<Byte>>, depth: real, trace: Trace, inflate: Inflate)
    returns (code: seq<Line>)
    requires Rows(img) == grid
    ensures code == LevelCode(Offsets(grid, depth, trace, inflate), depth)
  {
    var threshold := Threshold(depth);
    var binary := Binarize(img, threshold);
    var elements := trace(Rows(binary));
    var base := PathFromElements(elements);
    var offset := inflate([base], -ToolRadius);
    code := GenerateGCode(offset, depth);
  }

  /** One more turn of the depth loop: the depth is still cut, and the next one is a
      layer height further. */
  lemma DepthStep(k: nat, depth: real)
    requires depth == LayerZ(k, LayerHeight) && depth <= MaxDepth
    ensures k < LayerCount(MaxDepth, LayerHeight)
    ensures depth + LayerHeight == LayerZ(k + 1, LayerHeight)
  {
    CutIff(MaxDepth, LayerHeight, k);
    LayerZNext(k, LayerHeight);
  }

  /** The depth loop stops after the last layer. */
  lemma DepthDone(k: nat, depth: real)
    requires depth == LayerZ(k, LayerHeight) && depth > MaxDepth
    requires k <= LayerCount(MaxDepth, LayerHeight)
    ensures k == LayerCount(MaxDepth, LayerHeight)
  {
    CutIff(MaxDepth, LayerHeight, k);
  }

  /** main(): the depth loop over the image. */
  method Pocket(img: array2<Byte>, trace: Trace, inflate: Inflate) returns (gcode: seq<Line>)
    ensures gcode == Program(Rows(img), trace, inflate)
  {
    ghost var grid := Rows(img);
    gcode := ProgramHeader;
    var depth := 0.0;
    ghost var k: nat := 0;
    while depth <= MaxDepth
      invariant depth == LayerZ(k, LayerHeight) && k <= LayerCount(MaxDepth, LayerHeight)
      invariant gcode == ProgramHeader + Passes(grid, k, trace, inflate)
      decreases LayerCount(MaxDepth, LayerHeight) - k
    {
      DepthStep(k, depth);
      var code := CutLevel(img, grid, depth, trace, inflate);
      PassesNext(grid, k, trace, inflate);
      AppendAssoc(ProgramHeader, Passes(grid, k, trace, inflate), code);
      gcode := gcode + code;
      depth := depth + LayerHeight;
      k := k + 1;
    }
    DepthDone(k, depth);
    ProgramAt(grid, k, trace, inflate);
    gcode := gcode + [T("M30")];
  }
}
