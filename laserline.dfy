// laserLine: horizontal laser lines laid over an image. Every `spacing` rows a band
// three rows thick is scanned, and in it every pixel at least as bright as the
// threshold is painted black. The result is always computed from the loaded
// original, never from a previous result.
module LaserLine {
  import opened Common

  /** A 32-bit ARGB pixel (QRgb). */
  type Rgb = x: int | 0 <= x < 0x1_0000_0000

  /** Qt::black as a QRgb: opaque, every channel 0. */
  const Black: Rgb := 0xFF00_0000

  /** The band thickness in rows. */
  const Thickness: int := 3

  /** qGray, kept abstract: a pixel's brightness. */
  type Gray = Rgb -> int

  // ---------------------------------------------------------------------
  // The specification

  /** A row lies in a band: its offset from the last band start is below the thickness. */
  predicate Touched(r: int, spacing: int)
    requires spacing > 0
  {
    r % spacing < Thickness
  }

  /** One pixel of the result. */
  function Painted(v: Rgb, touched: bool, threshold: int, gray: Gray): (r: Rgb) {
    if touched && gray(v) >= threshold then Black else v
  }

  /** The image with the lines applied, row by row. */
  function Banded(grid: seq<seq<Rgb>>, spacing: int, threshold: int, gray: Gray): (r: seq<seq<Rgb>>)
    requires spacing > 0
    ensures |r| == |grid| && forall y :: 0 <= y < |grid| ==> |r[y]| == |grid[y]|
  {
    seq(|grid|, y requires 0 <= y < |grid| =>
      seq(|grid[y]|, x requires 0 <= x < |grid[y]| => Painted(grid[y][x], Touched(y, spacing), threshold, gray)))
  }

  /** The rows touched are exactly those with k * spacing <= y < k * spacing + 3 for some k. */
  lemma TouchedRows(r: nat, spacing: int)
    requires spacing > 0
    ensures Touched(r, spacing) <==> exists k: nat :: k * spacing <= r < k * spacing + Thickness
  {
    var k: nat := r / spacing;
    assert k * spacing <= r < k * spacing + spacing;
    if Touched(r, spacing) {
      assert k * spacing <= r < k * spacing + Thickness;
    }
    forall j: nat | j * spacing <= r < j * spacing + Thickness ensures Touched(r, spacing) {
      SmallRemainder(r, spacing, j, r - j * spacing);
    }
  }

  /** x = j * m + d with 0 <= d: the remainder is at most d. */
  lemma SmallRemainder(x: int, m: int, j: int, d: int)
    requires m > 0 && 0 <= d && x == j * m + d
    ensures x % m <= d
  {
    ModOfMultiplePlus(j, m, d);
    if d < m {
      ModUnique(d, m, 0, d);
    }
  }

  /** A pixel changes only in a touched row and only when it is at least as bright as the
      threshold, and then it becomes black. */
  lemma BandedPixels(grid: seq<seq<Rgb>>, spacing: int, threshold: int, gray: Gray, y: nat, x: nat)
    requires spacing > 0 && y < |grid| && x < |grid[y]|
    ensures var v := Banded(grid, spacing, threshold, gray)[y][x];
      (v != grid[y][x] ==> Touched(y, spacing) && gray(grid[y][x]) >= threshold && v == Black)
      && (Touched(y, spacing) && gray(grid[y][x]) >= threshold ==> v == Black)
  {
  }

  /** Applying the lines to a result again changes nothing. */
  lemma BandedIdempotent(grid: seq<seq<Rgb>>, spacing: int, threshold: int, gray: Gray)
    requires spacing > 0
    ensures var once := Banded(grid, spacing, threshold, gray);
      Banded(once, spacing, threshold, gray) == once
  {
    var once := Banded(grid, spacing, threshold, gray);
    var twice := Banded(once, spacing, threshold, gray);
    forall y | 0 <= y < |grid| ensures twice[y] == once[y] {
      assert forall x :: 0 <= x < |grid[y]| ==> twice[y][x] == once[y][x];
    }
  }

  // ---------------------------------------------------------------------
  // The scan's progress

  /** `start` is one of the band starts 0, spacing, 2 * spacing, ... */
  predicate BandStart(start: int, spacing: int)
    requires spacing > 0
  {
    0 <= start && start % spacing == 0
  }

  /** Row `start + d`, column c, has been scanned as row d of the band at `start`, when the
      scan is at band y, row dy, column x. */
  predicate ScannedBy(start: int, d: int, c: int, y: int, dy: int, x: int, spacing: int)
    requires spacing > 0
  {
    BandStart(start, spacing) && (start < y || (start == y && (d < dy || (d == dy && c < x))))
  }

  /** Pixel (r, c) has been scanned by some band (each row lies in at most three). */
  predicate Scanned(r: int, c: int, y: int, dy: int, x: int, spacing: int)
    requires spacing > 0
  {
    ScannedBy(r, 0, c, y, dy, x, spacing) || ScannedBy(r - 1, 1, c, y, dy, x, spacing)
    || ScannedBy(r - 2, 2, c, y, dy, x, spacing)
  }

  /** A row lies in a band exactly when one of the three rows up to it is a band start. */
  lemma NearStart(r: nat, spacing: int)
    requires spacing > 0
    ensures Touched(r, spacing) <==>
      (BandStart(r, spacing) || BandStart(r - 1, spacing) || BandStart(r - 2, spacing))
  {
    var m := r % spacing;
    var k := r / spacing;
    if m < Thickness {
      assert r - m == k * spacing;
      ModOfMultiplePlus(k, spacing, 0);
      assert BandStart(r - m, spacing);
    }
    if BandStart(r, spacing) { StartRemainder(r, 0, spacing); }
    if BandStart(r - 1, spacing) { StartRemainder(r, 1, spacing); }
    if BandStart(r - 2, spacing) { StartRemainder(r, 2, spacing); }
  }

  /** A row d rows below a band start has remainder at most d. */
  lemma StartRemainder(r: int, d: int, spacing: int)
    requires spacing > 0 && 0 <= d && BandStart(r - d, spacing)
    ensures r % spacing <= d
  {
    var j := (r - d) / spacing;
    assert r - d == j * spacing;
    SmallRemainder(r, spacing, j, d);
  }

  /** Two band starts less than one spacing apart upwards: the next one is not below. */
  lemma NextStart(start: int, y: int, spacing: int)
    requires spacing > 0 && BandStart(start, spacing) && BandStart(y, spacing)
    ensures start < y + spacing <==> start <= y
  {
    var a, b := start / spacing, y / spacing;
    assert start == a * spacing && y == b * spacing;
    if y < start < y + spacing {
      assert 0 < (a - b) * spacing < spacing;
      SmallMultiple(spacing, a - b);
    }
  }

  /** After the band at y the scan moves on to the next band start: every pixel already
      scanned in full, and nothing more. */
  lemma NextBand(y: int, spacing: int)
    requires spacing > 0 && BandStart(y, spacing)
    ensures BandStart(y + spacing, spacing)
    ensures forall r, c :: 0 <= c ==>
      (Scanned(r, c, y, Thickness, 0, spacing) <==> Scanned(r, c, y + spacing, 0, 0, spacing))
  {
    ModOfMultiplePlus(1, spacing, y);
    forall r, c | 0 <= c
      ensures Scanned(r, c, y, Thickness, 0, spacing) <==> Scanned(r, c, y + spacing, 0, 0, spacing)
    {
      if BandStart(r, spacing) { NextStart(r, y, spacing); }
      if BandStart(r - 1, spacing) { NextStart(r - 1, y, spacing); }
      if BandStart(r - 2, spacing) { NextStart(r - 2, y, spacing); }
    }
  }

  /** The image's pixels, row by row. */
  function Rows(a: array2<Rgb>): (r: seq<seq<Rgb>>)
    reads a
  {
    seq(a.Length0, y requires 0 <= y < a.Length0 reads a =>
      seq(a.Length1, x requires 0 <= x < a.Length1 reads a => a[y, x]))
  }

  /** The widget's image state and settings. */
  class LaserLineWidget {
    /** The loaded image (null before one is loaded) and the last result. */
    var originalImage: array2?<Rgb>
    var processedImage: array2?<Rgb>
    var spacing: int
    var threshold: int

    /** The spin box and slider ranges. */
    ghost predicate Valid()
      reads this
    {
      1 <= spacing <= 50 && 0 <= threshold <= 255
    }

    /** A widget holding a loaded image, with the default settings (spacing 5, threshold 220). */
    constructor(image: array2?<Rgb>)
      ensures Valid() && originalImage == image && processedImage == image
      ensures spacing == 5 && threshold == 220
    {
      originalImage := image;
      processedImage := image;
      spacing := 5;
      threshold := 220;
    }

    /** applyLines: without an image only a warning; otherwise the result is a fresh image,
        the original with the lines applied. */
    method ApplyLines(gray: Gray)
      requires Valid()
      modifies this
      ensures Valid() && originalImage == old(originalImage)
      ensures spacing == old(spacing) && threshold == old(threshold)
      ensures old(originalImage) == null ==> processedImage == old(processedImage)
      ensures old(originalImage) != null ==>
        processedImage != null && fresh(processedImage)
        && Rows(processedImage) == Banded(Rows(originalImage), spacing, threshold, gray)
    {
      if originalImage == null {
        return;
      }
      var orig := originalImage;
      var h, w := orig.Length0, orig.Length1;
      var img := new Rgb[h, w]((r, c) requires 0 <= r < h && 0 <= c < w reads orig => orig[r, c]);
      var y := 0;
      while y < h
        modifies img
        invariant BandStart(y, spacing)
        invariant forall r, c :: 0 <= r < h && 0 <= c < w ==>
          img[r, c] == Painted(orig[r, c], Scanned(r, c, y, 0, 0, spacing), threshold, gray)
        decreases h - y
      {
        ScanBand(img, orig, y, spacing, threshold, gray);
        NextBand(y, spacing);
        y := y + spacing;
      }
      forall r, c | 0 <= r < h && 0 <= c < w
        ensures img[r, c] == Painted(orig[r, c], Touched(r, spacing), threshold, gray)
      {
        NearStart(r, spacing);
      }
      assert forall r :: 0 <= r < h ==> Rows(img)[r] == Banded(Rows(orig), spacing, threshold, gray)[r];
      processedImage := img;
    }
  }

  /** One band: rows y to y + 2 (those inside the image), every column. */
  method ScanBand(img: array2<Rgb>, orig: array2<Rgb>, y: int, spacing: int, threshold: int, gray: Gray)
    requires img != orig && img.Length0 == orig.Length0 && img.Length1 == orig.Length1
    requires spacing > 0 && BandStart(y, spacing) && y < img.Length0
    requires forall r, c :: 0 <= r < img.Length0 && 0 <= c < img.Length1 ==>
      img[r, c] == Painted(orig[r, c], Scanned(r, c, y, 0, 0, spacing), threshold, gray)
    modifies img
    ensures forall r, c :: 0 <= r < img.Length0 && 0 <= c < img.Length1 ==>
      img[r, c] == Painted(orig[r, c], Scanned(r, c, y, Thickness, 0, spacing), threshold, gray)
  {
    var h, w := img.Length0, img.Length1;
    var dy := 0;
    while dy < Thickness && y + dy < h
      invariant 0 <= dy <= Thickness
      invariant forall r, c :: 0 <= r < h && 0 <= c < w ==>
        img[r, c] == Painted(orig[r, c], Scanned(r, c, y, dy, 0, spacing), threshold, gray)
    {
      ScanRow(img, orig, y, dy, spacing, threshold, gray);
      dy := dy + 1;
    }
    forall r, c | 0 <= r < h && 0 <= c < w
      ensures Scanned(r, c, y, dy, 0, spacing) <==> Scanned(r, c, y, Thickness, 0, spacing)
    {
    }
  }

  /** One row of a band: every pixel at least as bright as the threshold turned black. */
  method ScanRow(img: array2<Rgb>, orig: array2<Rgb>, y: int, dy: int, spacing: int, threshold: int, gray: Gray)
    requires img != orig && img.Length0 == orig.Length0 && img.Length1 == orig.Length1
    requires spacing > 0 && BandStart(y, spacing) && 0 <= dy < Thickness && y + dy < img.Length0
    requires forall r, c :: 0 <= r < img.Length0 && 0 <= c < img.Length1 ==>
      img[r, c] == Painted(orig[r, c], Scanned(r, c, y, dy, 0, spacing), threshold, gray)
    modifies img
    ensures forall r, c :: 0 <= r < img.Length0 && 0 <= c < img.Length1 ==>
      img[r, c] == Painted(orig[r, c], Scanned(r, c, y, dy + 1, 0, spacing), threshold, gray)
  {
    var h, w := img.Length0, img.Length1;
    var x := 0;
    while x < w
      invariant 0 <= x <= w
      invariant forall r, c :: 0 <= r < h && 0 <= c < w ==>
        img[r, c] == Painted(orig[r, c], Scanned(r, c, y, dy, x, spacing), threshold, gray)
    {
      var color := img[y + dy, x];
      if gray(color) >= threshold {
        img[y + dy, x] := Black;
      }
      x := x + 1;
    }
  }
}
