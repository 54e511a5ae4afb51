// The horizontal-plane slicing rule the three slicers share (slice2, sliceTests,
// STL2GCODE): an edge crosses the plane z only when its endpoints lie strictly on
// opposite sides, a triangle yields a segment only when exactly two of its edges
// cross, and layers are cut at z = 0, h, 2h, ... up to a top height.
module PlaneSlice {
  import opened Common

  /** The edge (a, b) crosses the plane: one endpoint strictly below, the other strictly above.
      An endpoint lying on the plane never counts. */
  predicate Crosses(a: Vec3, b: Vec3, z: real) {
    (a.z < z && b.z > z) || (a.z > z && b.z < z)
  }

  /** The edge parameter of the crossing, t = (z - a.z) / (b.z - a.z). */
  function CrossParam(a: Vec3, b: Vec3, z: real): (t: real)
    requires Crosses(a, b, z)
    ensures 0.0 < t < 1.0
  {
    var d := b.z - a.z;
    var n := z - a.z;
    FractionInside(n, d);
    n / d
  }

  lemma {:induction false} FractionInside(n: real, d: real)
    requires (0.0 < n < d) || (d < n < 0.0)
    ensures 0.0 < n / d < 1.0
  {
    var t := n / d;
    assert t * d == n;
    if d > 0.0 {
      if t <= 0.0 { ProductSign(-t, d); assert false; }
      if t >= 1.0 { ProductSign(t - 1.0, d); assert false; }
    } else {
      if t <= 0.0 { ProductSign(-t, -d); assert false; }
      if t >= 1.0 { ProductSign(t - 1.0, -d); assert false; }
    }
  }

  lemma ProductSign(a: real, b: real)
    requires a >= 0.0 && b > 0.0
    ensures a * b >= 0.0 && (a > 0.0 ==> a * b > 0.0)
  {
  }

  /** The crossing point a + t (b - a). */
  function Interp(a: Vec3, b: Vec3, z: real): (p: Vec3)
    requires Crosses(a, b, z)
  {
    Add3(a, Scale3(Sub3(b, a), CrossParam(a, b, z)))
  }

  /** The crossing point lies on the plane, strictly inside the edge. */
  lemma {:induction false} InterpOnPlane(a: Vec3, b: Vec3, z: real)
    requires Crosses(a, b, z)
    ensures Interp(a, b, z).z == z
    ensures var t := CrossParam(a, b, z); 0.0 < t < 1.0 && Interp(a, b, z) == Add3(Scale3(a, 1.0 - t), Scale3(b, t))
  {
    var t := CrossParam(a, b, z);
    assert t * (b.z - a.z) == z - a.z;
  }

  /** The points the `test` lambda collects for the edges (v0, v1), (v1, v2), (v2, v0), in that order. */
  function EdgePoints(v0: Vec3, v1: Vec3, v2: Vec3, z: real): (pts: seq<Vec3>)
    ensures |pts| <= 3
  {
    (if Crosses(v0, v1, z) then [Interp(v0, v1, z)] else [])
    + (if Crosses(v1, v2, z) then [Interp(v1, v2, z)] else [])
    + (if Crosses(v2, v0, z) then [Interp(v2, v0, z)] else [])
  }

  /** A triangle never has three crossing edges: it is cut by the plane in none, one
      (a vertex on the plane) or two edges. */
  lemma {:induction false} NeverThreeCrossings(v0: Vec3, v1: Vec3, v2: Vec3, z: real)
    ensures |EdgePoints(v0, v1, v2, z)| != 3
    ensures v0.z != z && v1.z != z && v2.z != z ==> |EdgePoints(v0, v1, v2, z)| != 1
  {
  }

  /** Every collected point lies on the plane. */
  lemma {:induction false} EdgePointsOnPlane(v0: Vec3, v1: Vec3, v2: Vec3, z: real)
    ensures forall i :: 0 <= i < |EdgePoints(v0, v1, v2, z)| ==> EdgePoints(v0, v1, v2, z)[i].z == z
  {
    if Crosses(v0, v1, z) { InterpOnPlane(v0, v1, z); }
    if Crosses(v1, v2, z) { InterpOnPlane(v1, v2, z); }
    if Crosses(v2, v0, z) { InterpOnPlane(v2, v0, z); }
  }

  // ---------------------------------------------------------------------
  // Layer heights

  /** The number of passes of `for (z = 0; z <= top; z += h)` over reals: the heights
      0, h, 2h, ... that do not exceed top. */
  function LayerCount(top: real, h: real): (n: nat)
    requires h > 0.0 && top >= 0.0
    ensures n >= 1
    ensures (n - 1) as real * h <= top < n as real * h
  {
    FloorScaled(top, h);
    var f := Floor(top / h);
    assert (f + 1) as real * h == f as real * h + h;
    f + 1
  }

  lemma {:induction false} FloorScaled(top: real, h: real)
    requires h > 0.0 && top >= 0.0
    ensures Floor(top / h) >= 0
    ensures Floor(top / h) as real * h <= top < Floor(top / h) as real * h + h
  {
    QuotientNonNegative(top, h);
    BelowScaled(top, h, Floor(top / h));
    AboveScaled(top, h, Floor(top / h));
  }

  lemma QuotientNonNegative(top: real, h: real)
    requires h > 0.0 && top >= 0.0
    ensures top / h >= 0.0
  {
    var q := top / h;
    assert q * h == top;
    if q < 0.0 {
      ProductSign(-q, h);
      assert false;
    }
  }

  lemma BelowScaled(top: real, h: real, f: int)
    requires h > 0.0 && f as real <= top / h
    ensures f as real * h <= top
  {
    var q := top / h;
    assert q * h == top;
    ProductSign(q - f as real, h);
    assert (q - f as real) * h == q * h - f as real * h;
  }

  lemma AboveScaled(top: real, h: real, f: int)
    requires h > 0.0 && top / h < f as real + 1.0
    ensures top < f as real * h + h
  {
    var q := top / h;
    assert q * h == top;
    ProductSign(f as real + 1.0 - q, h);
    assert (f as real + 1.0 - q) * h == f as real * h + h - q * h;
  }

  /** The height of layer k. */
  function LayerZ(k: nat, h: real): (r: real) { k as real * h }

  lemma LayerZNext(k: nat, h: real)
    ensures LayerZ(k + 1, h) == LayerZ(k, h) + h
  {
  }

  /** A height k h is cut exactly when k is below the layer count. */
  lemma {:induction false} CutIff(top: real, h: real, k: nat)
    requires h > 0.0 && top >= 0.0
    ensures k as real * h <= top <==> k < LayerCount(top, h)
  {
    var n := LayerCount(top, h);
    if k < n {
      assert k as real * h <= (n - 1) as real * h;
    } else {
      assert k as real * h >= n as real * h;
    }
  }
}
