# GCODE-Tools core, modelled in Dafny

GCODE-Tools is a collection of small converters and generators for a CNC, laser-engraving and 3D-printing workflow. This project models the sequential logic of its tools and proves properties of that logic. The GUIs, process launchers and foreign libraries around them are left out. The tools fall into seven families:

1. **STL readers and the plane slicer.** `stl2png` reads ASCII and binary STL from a byte buffer (`Stl2Png`). `slice2` and `sliceTests` share an unchecked binary reader, a per-layer slicer and a layer loop (`TSlotSlicer`, `Slice2`, `SliceTests`). `STL2GCODE` has a slot-filling ASCII reader and its own slicer and writer (`Stl2Gcode`). `DXF2STL` converts between DXF POLYLINEs and ASCII STL (`Dxf2Stl`, with the fixed frame lines of its STL writer in `AsciiStl`). All slicers use one crossing rule (`PlaneSlice`): an edge crosses the plane only when its endpoints lie strictly on opposite sides, and a triangle gives a segment only when exactly two of its edges cross.
2. **The heightmap rasteriser** of `stl2png` (`Heightmap`). It covers the bounding box, the barycentric inside test, the max-z buffer, the inverted 16-bit quantisation and the big-endian Netpbm P5 writer.
3. **Toolpath and G-code emitters.** These are `qt-dxf2gcode` (`QtDxf2Gcode`), `greypocket` (`Greypocket`), `LidMaker` (`LidMaker`), `gLid` (`GLid`) and the shared offset-path pattern (`Toolpath`). Each writes a fixed preamble, a per-path pattern of rapid, plunge, feed moves and retract, and a terminator, several with multi-pass depth loops. The commands are those of RS-274/NGC (section 3.5 of the NIST RS274NGC interpreter, version 3).
4. **SVG path-data flatteners.** `svg2gcode` (`SvgPath`) handles moveto, closepath, lineto, cubic and quadratic curveto (sections 8.3.2 to 8.3.7 of SVG 1.1), flattening every Bézier curve into 20 points. Its first version (`SvgOld`) has a stringstream reader. `svg2gcode-qt` (`Svg2GcodeQt`) adds the point transform and the per-polyline emission.
5. **The G-code visualizer** (`GCodeViewer`). A line classifier, the axis-word extractor and the substep/index animation state machine.
6. **Buffers updated in place.** These are `gTalker`'s bounded ring buffer and tune synthesis (`GTalker`), `laserLine`'s row-band blackening (`LaserLine`) and `greypocket`'s scan-line binarisation.
7. **RTTTL parsers and G-code post-processors.** The validating RTTTL parser shared by two plugins (`Rtttl`) and its melody-to-G-code plugins, `RTTTL2GCODE1.py` (`Rtttl2Gcode`) and `musicalPrint.py` (`MusicalPrint`). The cursor-driven RTTTL reader (`TonePlayer`). And the line-stream rewriters `tweakatz-repetier.py`, `tweakatz-repetier3.py` and `resume-printZ.py` (`TweakAtZ`, `TweakAtZ3`, `ResumePrintZ`), with their regular expressions as explicit predicates (`LineMatch`) and their output as copied and generated lines (`Rewrite`).

Shared vocabulary sits in `Common` (options, results, points, numeric conversions, string operations) and `GText`. In `GText` a G-code, GCMC, STL or DXF line is a list of literal pieces and numbers. Number-to-text formatting, number parsing, trigonometry, Clipper2's `InflatePaths`, nanosvg, `qGray` and the outline tracer of Qt are function-valued parameters. Geometry is over exact reals. Imperative code is modelled as it is written: classes with `modifies` clauses, arrays updated in place, and `while` loops with their invariants. Each method is proved against a function that specifies it, and the properties are proved about that function.

## Model

| member | source | states |
|---|---|---|
| Stl2Png.IsLikelyAsciiStl | Engraver/stl2png/main.cpp:28-41 | true exactly when the buffer has at least six bytes, its first five spell "solid" and "facet" occurs in it; every other path, the binary-byte scan included, answers false |
| Stl2Png.Word | Engraver/stl2png/main.cpp:47 | one `>>` of a string reads the longest whitespace-free prefix, stopping at a whitespace character |
| Stl2Png.Tokenize | Engraver/stl2png/main.cpp:44-47 | the token stream is every non-empty whitespace-free run, each tagged with a line at or after the starting line |
| Stl2Png.TokenizeJoin | Engraver/stl2png/main.cpp:44-47 | words joined by single spaces come back out of the stream one by one, in order |
| Stl2Png.Next | Engraver/stl2png/main.cpp:55-69 | one `ss >> x` moves the cursor one token on while tokens remain and stays put at the end |
| Stl2Png.SkipLine | Engraver/stl2png/main.cpp:50-53 | the getline after a non-"normal" token skips exactly the remaining tokens on that line |
| Stl2Png.ParseTokens | Engraver/stl2png/main.cpp:47-78 | the token loop appends to `out` exactly the triangles of the facet reading (AsciiFacets), kept invariant token by token |
| Stl2Png.ParseAsciiStl | Engraver/stl2png/main.cpp:43-80 | appends the facets read from the text to `out` and succeeds iff `out` ends up non-empty |
| Stl2Png.WellFormedVertex | Engraver/stl2png/main.cpp:62-71 | a "vertex x y z" group reads as the printed vertex, each coordinate converted back from its text, and consumes four tokens |
| Stl2Png.ThreeVertices | Engraver/stl2png/main.cpp:55-73 | after "facet normal", the normal and "outer loop" are skipped and the three vertex groups become the printed triangle's corners, consuming 17 tokens |
| Stl2Png.FacetAt | Engraver/stl2png/main.cpp:48-74 | a well-formed facet adds exactly its printed triangle, and reading resumes 21 tokens later |
| Stl2Png.AsciiRoundTrip | Engraver/stl2png/main.cpp:43-80 | a solid written as well-formed facets reads back as its triangles, in order, each coordinate as printed and converted back; a mesh whose numbers print exactly comes back unchanged |
| Stl2Png.NoFacetNoTriangles | Engraver/stl2png/main.cpp:48-77 | tokens other than "facet" are skipped: a stream without "facet" yields no triangle |
| Stl2Png.ReadU32Le | Engraver/stl2png/main.cpp:82-92 | the little-endian word p[0] + p[1]·2^8 + p[2]·2^16 + p[3]·2^24 is below 2^32 |
| Stl2Png.ReadWord | Engraver/stl2png/main.cpp:82-83 | four bytes written little-endian for w read back as w |
| Stl2Png.WordBytes | Engraver/stl2png/main.cpp:82-83 | reading a word and writing it back gives the same four bytes |
| Stl2Png.RecordsRead | Engraver/stl2png/main.cpp:93-98 | the number of records read is the declared count cut down to the whole 50-byte records present after byte 84 |
| Stl2Png.BinaryTris | Engraver/stl2png/main.cpp:97-118 | record i is read from offset 84 + 50·i, one triangle per record |
| Stl2Png.ParseBinaryStl | Engraver/stl2png/main.cpp:89-120 | under 84 bytes: fails with `out` unchanged; otherwise appends exactly the records present (truncation accepted) and succeeds iff `out` is non-empty |
| Stl2Png.RecordRoundTrip | Engraver/stl2png/main.cpp:99-115 | a record written for a triangle reads back as that triangle's stored words decoded: vertices from offsets 12..44, normal and attribute bytes ignored |
| Stl2Png.BinaryRoundTrip | Engraver/stl2png/main.cpp:89-120 | header + count + records written for a mesh read back as its triangles, in order, each coordinate decoded from its stored word; a mesh of float32 values comes back unchanged |
| Stl2Png.LoadStl | Engraver/stl2png/main.cpp:122-133 | an unreadable file fails with `out` unchanged; otherwise the ASCII try (only when likely), the binary try and the final ASCII try are made in that order, stopping at the first success |
| Stl2Png.LoadKeepsOut | Engraver/stl2png/main.cpp:122-133 | loading only appends to `out`, and succeeds iff the result is non-empty |
| Stl2Png.ShortNonAsciiRefused | Engraver/stl2png/main.cpp:90-132 | a buffer under 84 bytes without a facet is refused and nothing is added |
| Heightmap.Bounds.constructor | Engraver/stl2png/main.cpp:162-165 | a new box is the reset box: minima 1e30, maxima -1e30 |
| Heightmap.Bounds.ResetBox | Engraver/stl2png/main.cpp:165 | `reset()` puts every minimum at 1e30 and every maximum at -1e30 |
| Heightmap.Bounds.Include | Engraver/stl2png/main.cpp:166 | `include(v)` lowers each minimum and raises each maximum to v's coordinate where needed |
| Heightmap.ComputeBounds | Engraver/stl2png/main.cpp:169-178 | succeeds iff the mesh is non-empty; the box is always reset and then grown by every vertex in order |
| Heightmap.BoxContains | Engraver/stl2png/main.cpp:169-178 | every vertex lies inside the computed box |
| Heightmap.BoxTight | Engraver/stl2png/main.cpp:169-178 | each face of the box of a non-empty mesh touches a vertex (the box is the smallest one) |
| Heightmap.Padded | Engraver/stl2png/main.cpp:186-189 | the padded box is widened on both sides by pad times its extent in x and y, z untouched |
| Heightmap.PaddedBounds | Engraver/stl2png/main.cpp:183-189 | the bounds object ends up as the mesh's box padded by padRatio |
| Heightmap.InsideExactly | Engraver/stl2png/main.cpp:142-159 | for a non-degenerate projection, the point with weights a, b, c is accepted exactly when every weight is at least 1e-9 (edges and vertices are rejected), and then the answer is the interpolated z |
| Heightmap.AcceptedIsInside | Engraver/stl2png/main.cpp:148-158 | an accepted point has a non-degenerate triangle, is the blend of its computed weights, which all are at least 1e-9 and sum to 1, and out_z is the blend's z |
| Heightmap.WeightsOfBlend | Engraver/stl2png/main.cpp:148-152 | the weights the test computes are the point's barycentric coordinates |
| Heightmap.PixelLo | Engraver/stl2png/main.cpp:206-212 | the floored first pixel of a range, clamped into [0, n-1] |
| Heightmap.PixelHi | Engraver/stl2png/main.cpp:207-213 | the ceiled last pixel of a range, clamped into [0, n-1] |
| Heightmap.Deeper | Engraver/stl2png/main.cpp:223-226 | the z-buffer update keeps the larger height, an untouched cell stays untouched unless a height arrives |
| Heightmap.CellIsMax | Engraver/stl2png/main.cpp:196-229 | after all triangles a cell is empty iff no triangle covers it, and otherwise holds the maximum height the covering triangles offer |
| Heightmap.Rasterize | Engraver/stl2png/main.cpp:199-228 | painting one triangle updates every cell with Deeper(old cell, the triangle's height there) and no other way |
| Heightmap.Accumulate | Engraver/stl2png/main.cpp:196-229 | the buffer after painting every triangle in order holds Cell(tris, x, y) at each pixel |
| Heightmap.ScanRange | Engraver/stl2png/main.cpp:232-237 | the scan yields the running min and max of the covered cells, starting from 1e30 and -1e30 |
| Heightmap.ZRangeContains | Engraver/stl2png/main.cpp:232-237 | every covered height lies between the scanned zmin and zmax |
| Heightmap.EmptyRangeIffNoHit | Engraver/stl2png/main.cpp:238-239 | `zmax < zmin` holds exactly when no pixel was covered, the case in which make_heightmap fails |
| Heightmap.QuantizeFlatRange | Engraver/stl2png/main.cpp:254-260 | as written and corrected quantisation agree on a non-flat range; on a flat range the source's value is undefined and the corrected one is 65535 |
| Heightmap.QuantizeInverted | Engraver/stl2png/main.cpp:253-260 | zmin maps to 65535 and zmax to 0, and a higher height never gets a larger sample |
| Heightmap.Quantized | Engraver/stl2png/main.cpp:243-264 | the output pass writes Sample(cell) for every cell in row-major order |
| Heightmap.SampleOfPixel | Engraver/stl2png/main.cpp:243-264 | the image has width·height samples; pixel (x, y) is at y·width + x, 65535 when uncovered, otherwise the quantised height within the scanned range |
| Heightmap.Render | Engraver/stl2png/main.cpp:196-264 | paints, scans and quantises; no image exactly when no cell is covered |
| Heightmap.MakeHeightmap | Engraver/stl2png/main.cpp:181-267 | fails (leaving `out` and usedBounds alone) on an empty mesh, non-positive size, empty padded extent or no covered pixel; otherwise outputs the row-major samples and the padded box |
| Heightmap.BigEndian | Engraver/stl2png/main.cpp:275-281 | two bytes per sample |
| Heightmap.BigEndianRoundTrip | Engraver/stl2png/main.cpp:275-281 | reading the written byte pairs as hi·256 + lo gives back the samples |
| Heightmap.HighByte | Engraver/stl2png/main.cpp:277 | `(v >> 8) & 0xFF` of a 16-bit sample is v / 256 |
| Heightmap.AppendSamples | Engraver/stl2png/main.cpp:275-281 | the loop appends each sample's high byte then low byte, in order |
| Heightmap.WritePgm16Be | Engraver/stl2png/main.cpp:269-283 | nothing when the file cannot be opened; otherwise the header "P5\n<w> <h>\n65535\n" followed by the big-endian samples |
| Dxf2Stl.ScanVertex | Engraver/DXF2STL/main.cpp:20-26 | the VERTEX scan stops just after the first SEQEND line or at the end of the file, never before where it started |
| Dxf2Stl.LoadDXF | Engraver/DXF2STL/main.cpp:11-33 | an unreadable file gives no polylines; otherwise the result is the line-by-line reading LoadDxf (POLYLINE clears, VERTEX scans and pushes, SEQEND pushes a non-empty current list) |
| Dxf2Stl.LoadedPolylinesNonEmpty | Engraver/DXF2STL/main.cpp:28-29 | every polyline loadDXF returns holds at least one point |
| Dxf2Stl.SaveDXF | Engraver/DXF2STL/main.cpp:70-85 | the file is the ENTITIES head, one POLYLINE block per triangle and the ENDSEC/EOF trailer (DxfText) |
| Dxf2Stl.DxfText | Engraver/DXF2STL/main.cpp:70-85 | the written file has 8 + 38 lines per triangle |
| Dxf2Stl.BlockParts | Engraver/DXF2STL/main.cpp:74-82 | each block is "0 POLYLINE 8 STL_EXPORT", four VERTEX groups for v0, v1, v2, v0 and "0 SEQEND" |
| Dxf2Stl.GroupFacts | Engraver/DXF2STL/main.cpp:75-77 | a VERTEX group is "0 VERTEX 10 x 20 y 30 z" |
| Dxf2Stl.BlockAt | Engraver/DXF2STL/main.cpp:72-83 | block k of the written file starts at line 4 + 38·k |
| Dxf2Stl.BlockAsWritten | Engraver/DXF2STL/main.cpp:17-27 | as written, a saved block is consumed by the first VERTEX scan, which eats the rest of the block including its SEQEND, leaving one point in `current` and nothing pushed |
| Dxf2Stl.SavedDxfLoadsNothing | Engraver/DXF2STL/main.cpp:11-33 | as written, loading any file saveDXF wrote gives no polylines at all (also lines 70-85) |
| Dxf2Stl.ScanVertexFixed | Engraver/DXF2STL/main.cpp:20-26 | corrected scan: it stops at the next entity's "0" code or at SEQEND without consuming it |
| Dxf2Stl.VertexFixed | Engraver/DXF2STL/main.cpp:19-27 | corrected reader: a VERTEX entity followed by another entity adds exactly its own point |
| Dxf2Stl.DxfRoundTripFixed | Engraver/DXF2STL/main.cpp:11-33 | corrected reader: a file saveDXF wrote loads back as one closed four-point polyline per triangle, in order (also lines 70-85) |
| Dxf2Stl.Fan | Engraver/DXF2STL/main.cpp:39-45 | a polyline of n points gives n - 2 fan triangles (none under 3 points) |
| Dxf2Stl.FanStep | Engraver/DXF2STL/main.cpp:39-45 | each loop turn appends the facet of (p0, pi, pi+1) to the text written so far |
| Dxf2Stl.SaveSTL | Engraver/DXF2STL/main.cpp:35-48 | the file is "solid dxf_export", the facets of every polyline's fan in order, and "endsolid" (StlText) |
| Dxf2Stl.LoadSTL | Engraver/DXF2STL/main.cpp:50-68 | an unreadable file gives no triangles; otherwise the vi/v[] reading of every line containing "vertex" (LoadStl) |
| Dxf2Stl.Triples | Engraver/DXF2STL/main.cpp:61-64 | points are taken three at a time; one or two left over are dropped |
| Dxf2Stl.LoadStlGroups | Engraver/DXF2STL/main.cpp:56-66 | the triangles read are the vertex points grouped by three, and `vi` counts the points left over |
| Dxf2Stl.VertexLineRead | Engraver/DXF2STL/main.cpp:41-60 | a written "vertex x y z" line contains "vertex" and reads back as its point, each coordinate as printed and converted back |
| Dxf2Stl.FacetPoints | Engraver/DXF2STL/main.cpp:40-57 | a written facet contributes exactly its three vertices as printed; its other lines contain no "vertex" |
| Dxf2Stl.TriplesOfCorners | Engraver/DXF2STL/main.cpp:61-64 | grouping the corners of a mesh by three gives back the mesh |
| Dxf2Stl.StlRoundTrip | Engraver/DXF2STL/main.cpp:35-68 | reading back an STL saveSTL wrote gives the fan triangles of the polylines, in order, each corner as printed and converted back, with no point left over; corners that print exactly give the fan triangles themselves |
| Stl2Gcode.Step | Engraver/STL2GCODE/main.cpp:31-50 | one line never removes a pushed triangle and pushes at most one: a facet line sets the normal, a vertex line fills the first free slot of v1, v2 or completes v3 and pushes |
| Stl2Gcode.ReadSTL | Engraver/STL2GCODE/main.cpp:20-53 | an unopenable file gives no triangles; otherwise the triangles of the line-by-line slot-filling reading |
| Stl2Gcode.ReadAppendOther | Engraver/STL2GCODE/main.cpp:34-50 | a line whose first word is neither "facet" nor "vertex" changes nothing |
| Stl2Gcode.ReadFacet | Engraver/STL2GCODE/main.cpp:31-49 | a facet whose first two vertices do not read back as the origin, read from a blank builder, pushes exactly that facet as printed and resets the builder |
| Stl2Gcode.AsciiRoundTrip | Engraver/STL2GCODE/main.cpp:20-53 | a solid in which no facet's first or second vertex reads back as the origin reads back as its facets, in order, each number as printed and converted back; facets that print exactly come back unchanged |
| Stl2Gcode.OriginVertexLost | Engraver/STL2GCODE/main.cpp:41-44 | a vertex that reads back as the origin leaves its slot looking free: a solid whose one facet starts there yields no triangle, its other two vertices left waiting in v1 and v2 |
| Stl2Gcode.Interpolate | Engraver/STL2GCODE/main.cpp:56-63 | the interpolated point lies at height z |
| Stl2Gcode.InterpolateIsCrossing | Engraver/STL2GCODE/main.cpp:56-63 | on a crossing edge it is the crossing point a + t(b - a) with 0 < t < 1 of the shared rule |
| Stl2Gcode.CrossPointsAgree | Engraver/STL2GCODE/main.cpp:72-81 | the points collected over edges (v1,v2), (v2,v3), (v3,v1) are those of the shared crossing rule |
| Stl2Gcode.SliceAtZ | Engraver/STL2GCODE/main.cpp:66-88 | the segments are those of the triangles with exactly two crossing edges, in input order |
| Stl2Gcode.SegmentsOnPlane | Engraver/STL2GCODE/main.cpp:66-88 | one segment per cut triangle, never more than the triangles, both ends at height z |
| Stl2Gcode.WriteGCode | Engraver/STL2GCODE/main.cpp:90-107 | the program is the four header lines, per layer a "; Layer i" comment and a G0/G1 pair per segment, then M84 |
| Stl2Gcode.ProgramShape | Engraver/STL2GCODE/main.cpp:90-107 | the program has 5 + layers + 2·segments lines, starts with the header and ends with M84 |
| Stl2Gcode.SegmentsLinesShape | Engraver/STL2GCODE/main.cpp:100-103 | segment k gives lines 2k (G0 to its first end) and 2k + 1 (G1 to its second) |
| Stl2Gcode.SliceAll | Engraver/STL2GCODE/main.cpp:122-129 | the layer loop slices the heights 0, h, 2h, ... not above the top, one layer per height, in order |
| Stl2Gcode.LayersAtTheirHeight | Engraver/STL2GCODE/main.cpp:125-129 | layer k is cut at k·h, never above the top, and every one of its segments lies at that height |
| Stl2Gcode.LayerLoopNeverEnds | Engraver/STL2GCODE/main.cpp:117-125 | with a layer height of zero or less, the height after any number of passes is still not above 50, so the loop as written never ends |
| Stl2Gcode.Run | Engraver/STL2GCODE/main.cpp:109-136 | fewer than three arguments: status 1 and nothing written; a layer height of zero or less: refused with status 1 (corrected); otherwise status 0 and the program for the file sliced from 0 to 50 |
| PlaneSlice.CrossParam | Engraver/slice2/main.cpp:65-66 | on a crossing edge the edge parameter t lies strictly between 0 and 1 |
| PlaneSlice.InterpOnPlane | Engraver/slice2/main.cpp:65-67 | the crossing point lies on the plane and is the blend (1 - t)a + tb strictly inside the edge |
| PlaneSlice.EdgePoints | Engraver/slice2/main.cpp:64-72 | the `test` lambda over the three edges collects at most three points |
| PlaneSlice.NeverThreeCrossings | Engraver/slice2/main.cpp:64-76 | a triangle never has three crossing edges, and with no vertex on the plane never exactly one |
| PlaneSlice.EdgePointsOnPlane | Engraver/slice2/main.cpp:64-72 | every collected point lies on the plane |
| PlaneSlice.LayerCount | Engraver/slice2/main.cpp:132 | the number of heights 0, h, 2h, ... not above the top is at least 1, and is the n with (n-1)h <= top < nh |
| PlaneSlice.CutIff | Engraver/slice2/main.cpp:132 | height k·h is cut exactly when k is below the layer count |
| TSlotSlicer.LoadSTL | Engraver/slice2/main.cpp:35-58 | an unopenable file gives no triangles; otherwise exactly the declared count of triangles, triangle i from the nine floats after the normal in the record at 84 + 50·i |
| TSlotSlicer.AgreesWithCheckedReader | Engraver/slice2/main.cpp:35-58 | on a file holding all its declared records, the unchecked reader and stl2png's checked reader agree |
| TSlotSlicer.TriPair | Engraver/slice2/main.cpp:73-76 | a triangle contributes no point or a pair |
| TSlotSlicer.SliceLayer | Engraver/slice2/main.cpp:60-80 | the layer is the pairs of the cut triangles, in input order |
| TSlotSlicer.LayerPointsOnPlane | Engraver/slice2/main.cpp:60-80 | the layer holds one pair per cut triangle and every point lies on the plane |
| TSlotSlicer.ComputeTopZ | Engraver/slice2/main.cpp:126-129 | the maxZ loop yields TopZ of the model |
| TSlotSlicer.TopZIsMax | Engraver/slice2/main.cpp:126-129 | the top is at least 0 and every vertex height, and it is 0 or some vertex's height |
| TSlotSlicer.SliceLayers | Engraver/slice2/main.cpp:131-134 | one layer per height 0, h, ... not above maxZ, layer k being the slice at k·h |
| Slice2.SegmentPaths | Engraver/slice2/main.cpp:89-95 | the paths are the consecutive point pairs of the layer (an odd last point dropped) |
| Slice2.SegmentsArePairs | Engraver/slice2/main.cpp:90-95 | there are half as many paths as layer points, each of two points |
| Slice2.EmitLayer | Engraver/slice2/main.cpp:86-109 | a layer's block is the plunge line and the block of every offset path |
| Slice2.GenerateGCodeWithClipper | Engraver/slice2/main.cpp:82-113 | the program is the header, the block of every non-empty layer in order, and M30 |
| Slice2.ProgramFrame | Engraver/slice2/main.cpp:83-111 | the program opens with the four header lines and ends with M30 |
| Slice2.EmptyLayersSkipped | Engraver/slice2/main.cpp:86 | empty layers contribute nothing: the program equals the one for the non-empty layers alone |
| Slice2.UnchangedOffsetLayer | Engraver/slice2/main.cpp:98-109 | when the offset leaves the segment paths as they are, a layer gives 1 + 4 lines per segment |
| Slice2.SlicerWidget.constructor | Engraver/slice2/main.cpp:27-33 | an empty model and layer list, the default T-slot tool, layer height 1 and maxZ 0 (also lines 115-121, 170) |
| Slice2.SlicerWidget.LoadModel | Engraver/slice2/main.cpp:123-143 | the model is what loadSTL read, maxZ its top, one layer per height up to the top, each the slice at its height, and the program written is generateGCodeWithClipper's; tool and layer height are unchanged |
| SliceTests.GenerateGCode | Engraver/sliceTests/main.cpp:88-101 | the program is the header, per layer the plunge, a G0/G1 F500 pair per point pair and "G0 Z5", then M30 |
| SliceTests.SegmentsUpToShape | Engraver/sliceTests/main.cpp:93-96 | pair k gives a G0 to point 2k and a G1 F500 to point 2k + 1 |
| SliceTests.LayerLinesShape | Engraver/sliceTests/main.cpp:92-97 | a layer gives 2 + 2 lines per pair, starting with the plunge and ending with "G0 Z5", even when empty |
| SliceTests.ProgramLength | Engraver/sliceTests/main.cpp:88-101 | the program has 5 + 2·layers + 2·pairs lines, opens with the header and ends with M30 |
| SliceTests.SegmentsOfSlicedModel | Engraver/sliceTests/main.cpp:65-122 | the pairs written for a sliced model are the cut triangles summed over the layer heights |
| SliceTests.SlicerWidget.constructor | Engraver/sliceTests/main.cpp:31-36 | empty model and layers, the default Tool(TSlot, 6, 10, 60, -5), layer height 1 and maxZ 0 (also lines 103-109) |
| SliceTests.SlicerWidget.LoadModel | Engraver/sliceTests/main.cpp:111-131 | the model is what loadSTL read, maxZ its top, one layer per height up to the top, and the program written is generateGCode's; tool and layer height are unchanged |
| Toolpath.EmitPath | Engraver/slice2/main.cpp:102-108 | one offset path gives a G0 to its first point, "G1 F500", a G1 per further point and "G0 Z5" |
| Toolpath.PathBlockShape | Engraver/slice2/main.cpp:102-108 | the block of a path of n points has n + 2 lines, in that order |
| Toolpath.EmitPaths | Engraver/slice2/main.cpp:101-109 | the loop over the offset paths appends each path's block, skipping empty paths |
| QtDxf2Gcode.LessTotal | Engraver/qt-dxf2gcode/main.cpp:34 | std::string's `<`, the map's key order, is total on different names (with LessIrreflexive and LessTransitive, a strict total order) |
| QtDxf2Gcode.UpsertSpec | Engraver/qt-dxf2gcode/main.cpp:175-187 | `layerPaths[name].push_back(path)` keeps the map sorted by name, adds the name if absent, appends the path to that name's list and leaves every other name's list alone |
| QtDxf2Gcode.DxfViewer.constructor | Engraver/qt-dxf2gcode/main.cpp:33-35 | an empty preview, an empty map, no current layer and the default T-slot tool (diameter 6, 1.5 per pass, 4.5 in total) (also lines 88-97, 163) |
| QtDxf2Gcode.DxfViewer.SetLayer | Engraver/qt-dxf2gcode/main.cpp:165-167 | sets the current layer and changes nothing else |
| QtDxf2Gcode.DxfViewer.AddLine | Engraver/qt-dxf2gcode/main.cpp:169-176 | appends both end points to the preview and the two-point path to the current layer's list |
| QtDxf2Gcode.LwPath | Engraver/qt-dxf2gcode/main.cpp:179-186 | the path is the vertices, with the first repeated at the end exactly when the lowest flag bit (value 1) is set and there is a vertex |
| QtDxf2Gcode.DxfViewer.AddLwPolyline | Engraver/qt-dxf2gcode/main.cpp:178-188 | appends every vertex to the preview and the (possibly closed) path to the current layer's list |
| QtDxf2Gcode.CollectSpec | Engraver/qt-dxf2gcode/main.cpp:169-188 | delivering entities keeps the map sorted, appends their paths in order to the current layer's list and adds no other name |
| QtDxf2Gcode.DxfViewer.LoadDxf | Engraver/qt-dxf2gcode/main.cpp:99-115 | a cancelled dialog changes nothing; otherwise preview and map are cleared and rebuilt from the delivered entities in file order |
| QtDxf2Gcode.OffsetSide | Engraver/qt-dxf2gcode/main.cpp:121-125 | the offset is negative (inward) exactly for a layer whose name contains "pocket" and positive otherwise |
| QtDxf2Gcode.PassIff | Engraver/qt-dxf2gcode/main.cpp:127 | pass k at depth -(k+1)·dpp is cut exactly when k is below the pass count; no clamped last pass |
| QtDxf2Gcode.PassCountFloor | Engraver/qt-dxf2gcode/main.cpp:127 | there are floor(total/dpp) passes, and none when dpp exceeds the total depth |
| QtDxf2Gcode.DefaultPasses | Engraver/qt-dxf2gcode/main.cpp:35 | the default tool cuts three passes, at -1.5, -3 and -4.5 (also lines 127) |
| QtDxf2Gcode.CutLinesShape | Engraver/qt-dxf2gcode/main.cpp:130-136 | one path in one pass is a rapid to its first point, the plunge to the depth, "G1 F300", a G1 per further point and "G0 Z5" |
| QtDxf2Gcode.EmitCut | Engraver/qt-dxf2gcode/main.cpp:129-136 | appends exactly the cut lines of the path at that depth |
| QtDxf2Gcode.EmitPass | Engraver/qt-dxf2gcode/main.cpp:128-137 | one pass appends every non-empty offset path's cut lines in order |
| QtDxf2Gcode.EmitPasses | Engraver/qt-dxf2gcode/main.cpp:127-138 | the depth loop appends the passes at -dpp, -2·dpp, ... for exactly PassCount passes |
| QtDxf2Gcode.ProgramFrame | Engraver/qt-dxf2gcode/main.cpp:118-141 | the program opens with the four header lines and ends with M30 |
| QtDxf2Gcode.DxfViewer.ExportGCode | Engraver/qt-dxf2gcode/main.cpp:117-147 | the program is the header, for each layer in map order its offset paths cut pass by pass, then M30 |
| Greypocket.PathFromElements | Engraver/greypocket/main.cpp:21-28 | the path has one point per painter-path element, in order, each 0.2 times the element's position |
| Greypocket.ScaledAt | Engraver/greypocket/main.cpp:21-28 | point i is element i scaled by 0.2, and scaling back by 5 gives the element: no element is lost or merged |
| Greypocket.ThresholdAt | Engraver/greypocket/main.cpp:60-61 | the k-th pass is at depth k mm and thresholds at 51·k |
| Greypocket.ThresholdRange | Engraver/greypocket/main.cpp:61 | for depths in [0, 5] the threshold lies in [0, 255] and never decreases with depth |
| Greypocket.Binarize | Engraver/greypocket/main.cpp:63-69 | the copy of the image has every pixel rewritten to 0 when below the threshold and 255 otherwise; the source image is untouched |
| Greypocket.BinarizedPixels | Engraver/greypocket/main.cpp:64-69 | the binary image has the source's size, every pixel is 0 or 255, and it is 0 exactly when the source pixel is below the threshold |
| Greypocket.LevelsNest | Engraver/greypocket/main.cpp:60-69 | a pixel black at one depth stays black at every deeper one: the pockets nest |
| Greypocket.FirstAndLastLevel | Engraver/greypocket/main.cpp:60-69 | at depth 0 nothing is black; at 5 mm only pure white pixels stay white |
| Greypocket.GenerateGCode | Engraver/greypocket/main.cpp:30-43 | the code is the plunge to -depth at F300 and the block of every non-empty offset path |
| Greypocket.CutLevel | Engraver/greypocket/main.cpp:63-76 | one pass thresholds, traces, scales, offsets inward by the tool radius and cuts at that depth |
| Greypocket.SixDepths | Engraver/greypocket/main.cpp:16-60 | the depth loop runs six times, at 0, 1, 2, 3, 4 and 5 mm |
| Greypocket.Pocket | Engraver/greypocket/main.cpp:54-79 | the program is the three header lines, the passes at every depth in order and M30 |
| Greypocket.ProgramFrame | Engraver/greypocket/main.cpp:58-79 | the program opens with "G21", "G90", "G0 Z5" and ends with M30 |
| LidMaker.StepOnce | Engraver/LidMaker/main.cpp:44-63 | each turn of the arc loop advances the angle by 2π/8 and lowers z by pitch/8 |
| LidMaker.EmitSegments | Engraver/LidMaker/main.cpp:41-63 | the arc loop appends ceil(totalDepth/pitch·8) arcs (none when that is not positive), arc s being Segment(s) |
| LidMaker.EmitPass | Engraver/LidMaker/main.cpp:33-67 | a pass appends its comment, the plunge, its arcs, the lift to Z5 and the return to (radius, 0) |
| LidMaker.GenerateGCode | Engraver/LidMaker/main.cpp:11-71 | the program is the seven header lines, passes 1 to `passes` and M30 |
| LidMaker.PlungeDepths | Engraver/LidMaker/main.cpp:21-34 | pass p plunges to -(totalDepth/passes)·p, the last pass to -totalDepth |
| LidMaker.SegmentsAt | Engraver/LidMaker/main.cpp:44-63 | the first n arcs of a pass, in order |
| LidMaker.PassShape | Engraver/LidMaker/main.cpp:35-66 | a pass has n + 4 lines: the comment, the plunge at F150, n arcs, "G0 Z5" and the return |
| LidMaker.ArcsChain | Engraver/LidMaker/main.cpp:44-63 | each arc ends pitch/8 below the one before, and its centre offset is the negated end point of the arc before, so all arcs share the origin as centre |
| LidMaker.PassDescent | Engraver/LidMaker/main.cpp:38-50 | with a positive pitch and depth a pass descends at least the full depth below its plunge, and less than one arc's drop more |
| LidMaker.ProgramFrame | Engraver/LidMaker/main.cpp:25-69 | the program opens with its header and the rapid to (radius, 0) and ends with M30 |
| GLid.EmitTurns | Engraver/LidMaker/gLid/main.cpp:37-49 | the turn loop appends ceil(depth/pitch) full-circle arcs (none when not positive) and lowers currentZ by the pitch after each |
| GLid.EmitPass | Engraver/LidMaker/gLid/main.cpp:31-49 | a pass appends its comment, the plunge at F200 and its turns |
| GLid.GenerateGCode | Engraver/LidMaker/gLid/main.cpp:11-56 | the program is the six header lines, passes 1 to `passes`, "G0 Z5" and M30 |
| GLid.TurnsAt | Engraver/LidMaker/gLid/main.cpp:40-49 | turn t ends at the pass's plunge height minus (t + 1) pitches |
| GLid.TurnDrop | Engraver/LidMaker/gLid/main.cpp:46-48 | each turn ends exactly one pitch below the previous one |
| GLid.PlungeDepths | Engraver/LidMaker/gLid/main.cpp:20-32 | pass i restarts at -(depth/passes)·i, the last one at -depth |
| GLid.PassRestartsAbove | Engraver/LidMaker/gLid/main.cpp:31-49 | with positive pitch and depth and several passes, pass i + 1 plunges above where pass i ended: `currentZ = -stepDown * i` discards the turns before |
| GLid.SingleRetract | Engraver/LidMaker/gLid/main.cpp:26-53 | the tool is lifted once: no "G0 Z5" between the header and the one just before M30 |
| SvgPath.CurveEnds | Engraver/svg2gcode/main.cpp:26-40 | the cubic curve starts at p0 and ends at p3, the quadratic at p0 and p2 |
| SvgPath.SamplesAt | Engraver/svg2gcode/main.cpp:42-54 | sample i is the curve at t = i/steps; with steps + 1 samples the first is the curve at 0 and the last at 1 |
| SvgPath.FlattenCubicBezier | Engraver/svg2gcode/main.cpp:42-47 | the result is the steps + 1 samples of the cubic curve at t = i/steps, in order |
| SvgPath.FlattenQuadraticBezier | Engraver/svg2gcode/main.cpp:49-54 | the result is the steps + 1 samples of the quadratic curve at t = i/steps, in order |
| SvgPath.ReadCmd | Engraver/svg2gcode/main.cpp:64 | `stream >> cmd` skips white space and takes one character, always moving forward while data is left |
| SvgPath.Step | Engraver/svg2gcode/main.cpp:63-106 | one loop iteration always moves the stream forward and never past its end |
| SvgPath.ParsePathData | Engraver/svg2gcode/main.cpp:56-108 | the points are those of the command-by-command reading Parse |
| SvgPath.MoveAndLine | Engraver/svg2gcode/main.cpp:65-75 | M/m and L/l append the point read (offset by the current point for lowercase) and make it current; M/m also make it the subpath start |
| SvgPath.CubicTo | Engraver/svg2gcode/main.cpp:76-89 | C/c append exactly 20 points, the curve's samples after the first, the last being the end point, which becomes current; the start is kept |
| SvgPath.QuadraticTo | Engraver/svg2gcode/main.cpp:90-101 | Q/q append exactly 20 points in the same way for the quadratic curve |
| SvgPath.CloseAndOther | Engraver/svg2gcode/main.cpp:102-105 | Z/z append the subpath start and return to it; any other character adds nothing and moves nothing |
| SvgPath.ParseTracks | Engraver/svg2gcode/main.cpp:63-107 | parsing only appends, and the last point appended is always the current point |
| SvgPath.MappedInverse | Engraver/svg2gcode/main.cpp:118-119 | with a non-zero scale, the machine coordinates give the SVG point back |
| SvgPath.GenerateGCode | Engraver/svg2gcode/main.cpp:110-128 | the program of the `first`-flag loop: header, then for a non-empty list a rapid to the first point and M3, one G1 per point, and M5 |
| SvgPath.GCodeShape | Engraver/svg2gcode/main.cpp:110-128 | the program has 3 (or 5 with points) + n + 1 lines; line k + i is the G1 to point i in machine coordinates |
| SvgPath.GenerateGcmc | Engraver/svg2gcode/main.cpp:130-149 | the GCMC program: unit and spindle on, the moves, spindle off |
| SvgPath.GcmcMovesAt | Engraver/svg2gcode/main.cpp:136-145 | move i is a goto for the first point and a linear move for every other, to point i in machine coordinates |
| SvgOld.ReadNum | Engraver/svg2gcode/old.cpp:71-73 | a number read fails exactly when the reader finds no number, and a successful read stays within the data |
| SvgOld.SkipComma | Engraver/svg2gcode/old.cpp:72 | one comma right after x is skipped, and only that |
| SvgOld.Extract | Engraver/svg2gcode/old.cpp:71-73 | `>>` on a failed stream changes nothing; with only white space left it fails and keeps the variable; on text that is not a number it fails and stores 0 |
| SvgOld.ReadPair | Engraver/svg2gcode/old.cpp:71-88 | reading "x[,]y" stays within the data, a failed stream stays failed, and the pair reads good only if the stream was good |
| SvgOld.ParsePathData | Engraver/svg2gcode/old.cpp:63-99 | the points are those of the command-by-command reading Parse, stopping when the stream ends or fails |
| SvgOld.MoveOrLine | Engraver/svg2gcode/old.cpp:70-75 | M and L push the pair read, whether or not its reads succeeded, make it current, and leave the stream failed when a read failed |
| SvgOld.MoveAtEndRepeats | Engraver/svg2gcode/old.cpp:70-75 | an M or L with nothing after it pushes the previous x and y again and ends the loop |
| SvgOld.CurveTo | Engraver/svg2gcode/old.cpp:76-95 | C appends exactly 20 points from the current point whether or not its reads succeed, the last being the end point, which becomes current |
| SvgOld.OtherCommand | Engraver/svg2gcode/old.cpp:69-97 | every other character (lowercase, Q, Z, ...) adds nothing and changes neither the current point nor x and y |
| SvgOld.ScanTracks | Engraver/svg2gcode/old.cpp:69-97 | parsing only appends, and the last point collected is the final current point |
| SvgOld.WriteGCode | Engraver/svg2gcode/old.cpp:38-61 | the file is the header, for a non-empty list a rapid to the first point and "M3", one G1 per point, and "M5" |
| SvgOld.ProgramShape | Engraver/svg2gcode/old.cpp:45-59 | the program has 3 (or 5 with points) + n + 1 lines, line k + i being the G1 to point i |
| SvgOld.Convert | Engraver/svg2gcode/old.cpp:122-137 | main produces a program exactly when some path's "d" attribute yields a point, and otherwise reports "No path data found." |
| SvgOld.AllEmpty | Engraver/svg2gcode/old.cpp:124-135 | there are no points at all exactly when no path's data yields any |
| SvgOld.Run | Engraver/svg2gcode/old.cpp:122-137 | the loop over the path elements gives Convert's outcome |
| Svg2GcodeQt.TransformInverse | Engraver/svg2gcode-qt/main.cpp:98-107 | with a non-zero scale, transformPoint loses nothing: undoing the scale, flip and shift gives the point back |
| Svg2GcodeQt.FlipMirror | Engraver/svg2gcode-qt/main.cpp:102-105 | flipping keeps x and mirrors the shifted, scaled y about maxY times the scale |
| Svg2GcodeQt.Kept | Engraver/svg2gcode-qt/main.cpp:51-57 | a path of npts points gives (npts + 1) / 3 polyline points |
| Svg2GcodeQt.KeptIndices | Engraver/svg2gcode-qt/main.cpp:51-57 | point i is kept exactly when i is a multiple of 3 below npts - 1, and it lands at position i / 3 |
| Svg2GcodeQt.TopYBound | Engraver/svg2gcode-qt/main.cpp:55 | maxY is at least every kept y and the starting value, and equals one of them |
| Svg2GcodeQt.TopPolysAppend | Engraver/svg2gcode-qt/main.cpp:48-60 | the running maximum over two runs of paths is the maximum over the second run started from the first |
| Svg2GcodeQt.TopPolysBound | Engraver/svg2gcode-qt/main.cpp:46-55 | maxY is at least 0 and at least every y kept from every path |
| Svg2GcodeQt.SamplePath | Engraver/svg2gcode-qt/main.cpp:50-57 | the inner loop builds exactly the kept points and raises maxY by each of them |
| Svg2GcodeQt.CollectShape | Engraver/svg2gcode-qt/main.cpp:49-59 | the loop over one shape's paths appends one sampled polyline per path, empty ones included |
| Svg2GcodeQt.CollectShapes | Engraver/svg2gcode-qt/main.cpp:45-60 | the shape loop yields every path's kept points in order, and maxY is their running maximum from 0 |
| Svg2GcodeQt.EmitPolyline | Engraver/svg2gcode-qt/main.cpp:67-89 | one polyline's lines are appended to the program, and nothing else changes |
| Svg2GcodeQt.EmitBlocks | Engraver/svg2gcode-qt/main.cpp:67-89 | the loop appends every polyline's block, in order |
| Svg2GcodeQt.GenerateGCode | Engraver/svg2gcode-qt/main.cpp:40-95 | a file nanosvg cannot read gives "Error: Unable to load SVG."; otherwise the header, the blocks and "M30" |
| Svg2GcodeQt.FeedsAt | Engraver/svg2gcode-qt/main.cpp:79-86 | feed line i is the G1 to the transformed point i |
| Svg2GcodeQt.BlockShape | Engraver/svg2gcode-qt/main.cpp:70-88 | a non-empty polyline gives its length + 4 lines: traverse height, G0 to the first point, engage depth, one G1 per point (the first included), traverse height |
| Svg2GcodeQt.EmptySkipped | Engraver/svg2gcode-qt/main.cpp:68-69 | empty polylines add nothing: the program equals that of the non-empty ones alone |
| Svg2GcodeQt.ProgramFrame | Engraver/svg2gcode-qt/main.cpp:62-91 | the program opens with the G21, G90 and feed-rate lines and ends with "M30 ; Program end" |
| GCodeViewer.ToUpper | Engraver/GCODEVisualizer/main.cpp:192 | the line is upper-cased letter by letter, keeping its length |
| GCodeViewer.FieldText | Engraver/GCODEVisualizer/main.cpp:229 | the first piece of the split is the longest prefix without a space or capital letter, and it stops at one |
| GCodeViewer.ExtractFloat | Engraver/GCODEVisualizer/main.cpp:226-231 | a line without the key reads 0 |
| GCodeViewer.ExtractFloatReads | Engraver/GCODEVisualizer/main.cpp:226-231 | with the key present, the value is toFloat of the text after its first occurrence up to the next space or capital |
| GCodeViewer.Parsed | Engraver/GCODEVisualizer/main.cpp:191-221 | a file gives at most one move per line |
| GCodeViewer.ParsedNext | Engraver/GCODEVisualizer/main.cpp:191-221 | reading one more line appends that line's move, if it is one |
| GCodeViewer.ParsedAppend | Engraver/GCODEVisualizer/main.cpp:191-221 | the moves of a file are those of its first lines followed by those of the rest |
| GCodeViewer.MovesAppend | Engraver/GCODEVisualizer/main.cpp:191-221 | the per-line collection distributes over concatenation of the lines |
| GCodeViewer.ParseLineKinds | Engraver/GCODEVisualizer/main.cpp:192-200 | a trimmed, upper-cased line is a move exactly when it is non-empty, does not start with '(' and starts with G0, G1, G2 or G3, tried in that order, and the move has that kind |
| GCodeViewer.PrefixQuirks | Engraver/GCODEVisualizer/main.cpp:196-199 | the test is a prefix test: "G01..." is a rapid, "G21..." a clockwise arc, "G90..." no move |
| GCodeViewer.MissingWords | Engraver/GCODEVisualizer/main.cpp:202-218 | a missing X, Y or Z keeps the current position's coordinate; a missing I or J is 0 |
| GCodeViewer.Viewer.constructor | Engraver/GCODEVisualizer/main.cpp:34-38 | the widget reads its file on construction, a missing file leaving no moves; it starts playing at move 0, substep 0, at the origin (also lines 183-188) |
| GCodeViewer.Viewer.ParseGCode | Engraver/GCODEVisualizer/main.cpp:183-224 | the moves of the file's lines are appended to the list and nothing else changes; an unopenable file appends nothing |
| GCodeViewer.Viewer.ParseOne | Engraver/GCODEVisualizer/main.cpp:192-220 | one line's move, if it is one, is appended to the list |
| GCodeViewer.Tick | Engraver/GCODEVisualizer/main.cpp:123-179 | a tick while paused or past the last move changes nothing; otherwise it appends exactly one point to the tool path and keeps the list of moves |
| GCodeViewer.Viewer.Step | Engraver/GCODEVisualizer/main.cpp:123-179 | step changes the widget's state as one tick does |
| GCodeViewer.Viewer.TakeUpMove | Engraver/GCODEVisualizer/main.cpp:126-146 | at substep 0 the next move becomes the current one, started from the current position |
| GCodeViewer.Viewer.TraceSubstep | Engraver/GCODEVisualizer/main.cpp:149-162 | the point for the substep is traced and recorded |
| GCodeViewer.Viewer.Record | Engraver/GCODEVisualizer/main.cpp:164-176 | the point goes on the tool path, and on the cut volume for cutting moves; after substep 10 the tool is at the target and the next move is up |
| GCodeViewer.Sweep | Engraver/GCODEVisualizer/main.cpp:149-162 | a move traced for n substeps leaves n points |
| GCodeViewer.SweepSnoc | Engraver/GCODEVisualizer/main.cpp:149-171 | one more substep appends the point for that substep |
| GCodeViewer.FirstTick | Engraver/GCODEVisualizer/main.cpp:126-171 | the first tick of a move takes it up and traces its starting point, and cutting moves also add it to the cut volume |
| GCodeViewer.MidTick | Engraver/GCODEVisualizer/main.cpp:149-171 | a tick inside a move traces the move's point for the substep and counts it |
| GCodeViewer.LastTick | Engraver/GCODEVisualizer/main.cpp:149-176 | the last tick traces the final point, puts the tool at the target and moves on to the next move at substep 0 |
| GCodeViewer.InMoveNext | Engraver/GCODEVisualizer/main.cpp:123-179 | each tick inside a move extends the traced sweep by one point |
| GCodeViewer.PartialRun | Engraver/GCODEVisualizer/main.cpp:123-179 | after k ticks of a move (k at most 10) the first k points of its sweep have been traced |
| GCodeViewer.CommandRun | Engraver/GCODEVisualizer/main.cpp:116 | a whole move takes 11 ticks: its 11-point sweep is on the tool path, and on the cut volume unless it is a rapid; the tool is at the target and the next move is up (also lines 123-179) |
| GCodeViewer.LinearEnds | Engraver/GCODEVisualizer/main.cpp:160-162 | a straight move's sweep starts at the start point and ends on the target |
| LaserLine.Banded | Engraver/laserLine/main.cpp:88-102 | the result has the image's dimensions, row by row |
| LaserLine.TouchedRows | Engraver/laserLine/main.cpp:90-93 | a row is painted over exactly when it lies within 3 rows below some multiple of the spacing |
| LaserLine.BandedPixels | Engraver/laserLine/main.cpp:93-100 | a pixel changes only in a band row and only when its brightness is at least the threshold, and then it becomes black; every such pixel becomes black |
| LaserLine.BandedIdempotent | Engraver/laserLine/main.cpp:92-102 | laying the lines over a result again changes nothing |
| LaserLine.NearStart | Engraver/laserLine/main.cpp:92-93 | a row lies in a band exactly when it or one of the two rows above it is a band start |
| LaserLine.NextStart | Engraver/laserLine/main.cpp:92 | the loop steps from one band start to the next without skipping one |
| LaserLine.NextBand | Engraver/laserLine/main.cpp:92-102 | after the band at y the scan has covered every pixel of the bands up to y and nothing more, and y + spacing is the next band start |
| LaserLine.LaserLineWidget.constructor | Engraver/laserLine/main.cpp:40-75 | a widget with a loaded image starts with spacing 5, threshold 220 and the result equal to the image |
| LaserLine.LaserLineWidget.ApplyLines | Engraver/laserLine/main.cpp:79-108 | with no image loaded nothing changes; otherwise the result is a new image equal to the original with the lines applied, and the original and the settings are unchanged |
| LaserLine.ScanBand | Engraver/laserLine/main.cpp:93-101 | one band paints rows y to y + 2 that lie inside the image, and leaves every other pixel as it was |
| LaserLine.ScanRow | Engraver/laserLine/main.cpp:94-100 | one row of a band turns black every pixel at least as bright as the threshold, and changes nothing else |
| GTalker.Recent | gTalker/main.cpp:86-91 | the buffer's contents are the last min(cap, n) samples pushed, in arrival order |
| GTalker.RecentStep | gTalker/main.cpp:90 | one push step (append, then drop the oldest if over capacity) keeps exactly the most recent samples |
| GTalker.RecentCompose | gTalker/main.cpp:89-91 | pushing a and then b keeps what pushing a + b at once keeps |
| GTalker.WindowOfRecent | gTalker/main.cpp:89-97 | the last m samples the buffer keeps are the last m samples ever pushed |
| GTalker.RingBuffer.constructor | gTalker/main.cpp:88 | a new buffer is empty with the given capacity (48000 by default) |
| GTalker.RingBuffer.Push | gTalker/main.cpp:89-91 | push keeps the size at most the capacity and the buffer equal to the most recent samples, in order |
| GTalker.RingBuffer.PushOne | gTalker/main.cpp:90 | one sample is appended and the oldest dropped when over capacity |
| GTalker.RingBuffer.LastWindow | gTalker/main.cpp:92-98 | the window holds the min(n, size) most recent samples, oldest first, each times invScale |
| GTalker.FreqToFeed | gTalker/main.cpp:75-80 | the feed is 0 when the pitch or the steps per mm are not positive, and positive otherwise |
| GTalker.FeedGivesPitch | gTalker/main.cpp:73-80 | the feed chosen for a pitch makes the stepper step at that pitch |
| GTalker.StepperFeed | gTalker/main.cpp:249-252 | the stepper feed lies in [30, 12000] and is the pitch's feed times the clamped amplitude gain whenever that is in range |
| GTalker.NoteEndsWhereNextBegins | gTalker/main.cpp:254-259 | a stepper note ends where the next one, with the direction flipped, goes |
| GTalker.Sides | gTalker/main.cpp:302-303 | the square has four sides: +x, +y, -x, -y by s |
| GTalker.Corner | gTalker/main.cpp:304-311 | every fourth move ends at the origin |
| GTalker.SquareWalk | gTalker/main.cpp:304-311 | each corner is the previous corner (the origin at the start of a lap) plus that move's side |
| GTalker.Side | gTalker/main.cpp:284-300 | the side is twice max(0.5, stroke): at least 1 mm and at least twice the stroke |
| GTalker.SquareFeed | gTalker/main.cpp:306-307 | the feed of every square move lies in [30, 6000] |
| GTalker.SquareMovesAt | gTalker/main.cpp:304-313 | the moves are three lines each; move j sits at 3j with its scale degree's feed and its corner |
| GTalker.SquareTuneFrame | gTalker/main.cpp:285-317 | the square tune is 27 lines: the start marker, the rapid home, 8 moves of 3 lines, the end marker |
| GTalker.SquareTuneMove | gTalker/main.cpp:280-311 | move j goes to corner j at the clamped feed of degree j of the major scale; moves 4 and 8 end at the origin |
| GTalker.Talker.constructor | gTalker/main.cpp:188 | the window opens with its G-code view holding the header it appends (the title comment, "G90 ; absolute", "G21 ; mm" and the empty block after the trailing newline), and with `back` false as initialised at line 329 |
| GTalker.ViewHeaderIsText | gTalker/main.cpp:188 | the header blocks are exactly the appended text cut at its line breaks, so the second and third set absolute coordinates and millimetres |
| GTalker.Talker.BeeperTone | gTalker/main.cpp:243-246 | beeper mode appends "M300 S<round f> P<dur>" for a detected pitch and nothing otherwise |
| GTalker.Talker.StepperTone | gTalker/main.cpp:246-261 | stepper mode appends the feed, the stroke out, the dwell and the return and flips `back` for a detected pitch; nothing changes otherwise |
| GTalker.Talker.AnalyzeHop | gTalker/main.cpp:240-264 | the mode picks the beeper, the stepper tone or the square tune, the last rooted at the detected pitch or at 440 Hz without one |
| GTalker.Talker.SquareShape | gTalker/main.cpp:278-318 | the square branch appends exactly the square tune and leaves `back` alone |
| GTalker.Talker.PlayLap | gTalker/main.cpp:305-312 | one lap walks the four sides from the origin back to it, appending four moves |
| GTalker.Talker.PlaySide | gTalker/main.cpp:305-311 | side n moves the pen from the corner before it to corner n and appends that move's three lines, so the tune so far grows by exactly one move |
| GTalker.Talker.PlayMove | gTalker/main.cpp:306-311 | one side appends its feed, its move to the corner and its dwell |
| Rtttl.PitchTables | 3DPrinter/GCODE-Pro/RTTTL2GCODE1.py:91-141 | the letter-by-letter pitch test accepts exactly the 14 listed pitches, the pause is "p", and the offset table covers exactly the other 13 |
| Rtttl.ApplySetting | 3DPrinter/GCODE-Pro/RTTTL2GCODE1.py:189-239 | a key already handled is a double entry, and only then; a new key is range-checked (durations 1..32 in the list, octave 4-7, bpm 25-900), marked handled and set |
| Rtttl.SettingsAfter | 3DPrinter/GCODE-Pro/RTTTL2GCODE1.py:188-239 | the settings loop fails only with a double entry or an unsupported duration, octave or bpm |
| Rtttl.SettingsStopAt | 3DPrinter/GCODE-Pro/RTTTL2GCODE1.py:194-239 | the first error ends the settings loop: later items change nothing |
| Rtttl.SettingsAccepted | 3DPrinter/GCODE-Pro/RTTTL2GCODE1.py:185-239 | accepted settings name no key twice, each key holds the value of its item, and a key not given keeps its default (d=4, o=6, b=63) |
| Rtttl.SettingsAcceptedInRange | 3DPrinter/GCODE-Pro/RTTTL2GCODE1.py:194-232 | accepted settings are within the limits |
| Rtttl.BeatLength | 3DPrinter/GCODE-Pro/RTTTL2GCODE1.py:241-251 | a note of the settings duration lasts one beat, 60000 / bpm ms, and a whole note lasts a positive time |
| Rtttl.DigitEnd | 3DPrinter/GCODE-Pro/RTTTL2GCODE1.py:256 | `\d+` taken greedily ends at the first non-digit |
| Rtttl.TailAt | 3DPrinter/GCODE-Pro/RTTTL2GCODE1.py:256-257 | `(\d+)?(\.)?$` accepts only digits, then an optional dot, then the end or a final newline |
| Rtttl.LazyPitch | 3DPrinter/GCODE-Pro/RTTTL2GCODE1.py:256 | the lazy pitch group is made of characters that are neither digits nor dots, and the rest of the pattern matches after it |
| Rtttl.MatchNote | 3DPrinter/GCODE-Pro/RTTTL2GCODE1.py:255-259 | the duration and octave groups, when present, are non-empty runs of digits |
| Rtttl.MatchTiles | 3DPrinter/GCODE-Pro/RTTTL2GCODE1.py:255-259 | the groups of a match laid end to end give the note text, less at most a final newline |
| Rtttl.GroupParts | 3DPrinter/GCODE-Pro/RTTTL2GCODE1.py:255-259 | each group of the match is the slice of the text it covers |
| Rtttl.ParseNote | 3DPrinter/GCODE-Pro/RTTTL2GCODE1.py:259-305 | "Pitch is missing" is raised exactly when the pattern does not match; every failure is one of the note errors |
| Rtttl.ParsedNote | 3DPrinter/GCODE-Pro/RTTTL2GCODE1.py:264-308 | an accepted note takes the duration and octave written or else the settings', its pitch is absent exactly for the pause, and it is within the limits when the settings are |
| Rtttl.ParseEach | 3DPrinter/GCODE-Pro/RTTTL2GCODE1.py:254-309 | a notes loop that succeeds gives one note per text |
| Rtttl.ParseEachStopAt | 3DPrinter/GCODE-Pro/RTTTL2GCODE1.py:254-309 | the first error ends the notes loop |
| Rtttl.ParseEachResults | 3DPrinter/GCODE-Pro/RTTTL2GCODE1.py:254-309 | each note is the check of its own text |
| Rtttl.ParseEachError | 3DPrinter/GCODE-Pro/RTTTL2GCODE1.py:254-309 | the loop's error is the error of one text it reached |
| Rtttl.NoteTexts | 3DPrinter/GCODE-Pro/RTTTL2GCODE1.py:160 | the last section, stripped, lowered and split on commas, gives at least one note text |
| Rtttl.Header | 3DPrinter/GCODE-Pro/RTTTL2GCODE1.py:163-182 | the name and setting items of the sections; settings that are given are items of the pattern, and the only error is a bad settings section |
| Rtttl.SettingsOf | 3DPrinter/GCODE-Pro/RTTTL2GCODE1.py:184-239 | no settings section leaves the defaults; otherwise the settings loop's outcome |
| Rtttl.ParseFailures | 3DPrinter/GCODE-Pro/RTTTL2GCODE1.py:153-159 | the empty-string error is raised exactly for "", and the too-many-sections error exactly for more than 3 sections |
| Rtttl.ParsedMelody | 3DPrinter/GCODE-Pro/RTTTL2GCODE1.py:144-309 | an accepted melody has settings in range and one note per note text, each in range and each the parse of its own text |
| Rtttl.NotesAccepted | 3DPrinter/GCODE-Pro/RTTTL2GCODE1.py:254-309 | every accepted note is the check of its own text and, under settings in range, in range |
| Rtttl.SectionRoles | 3DPrinter/GCODE-Pro/RTTTL2GCODE1.py:165-182 | three sections: the first is the name; an empty settings section keeps the defaults; two sections: the first is the settings when it matches the pattern, else the name; one section: no name, default settings |
| Rtttl.Offset | 3DPrinter/GCODE-Pro/RTTTL2GCODE1.py:45-48 | the offset the formula is meant to receive: A in octave o is 12(o - 4) half steps from A4 |
| Rtttl.OffsetRisesWithOctave | 3DPrinter/GCODE-Pro/RTTTL2GCODE1.py:45-48 | the corrected offset rises by 12 per octave and puts A4 at 0 |
| Rtttl.OffsetAsWrittenMirrors | 3DPrinter/GCODE-Pro/RTTTL2GCODE1.py:109-113 | the offset as written mirrors the octave about 4: it falls by 12 per octave, and A5 is -12 where it should be +12 |
| Rtttl.Frequency | 3DPrinter/GCODE-Pro/RTTTL2GCODE1.py:105-115 | a pause has frequency 0; a note sounds at the pitch of its offset as written, that is of the mirrored octave 8 - o |
| Rtttl.FrequencyFixed | 3DPrinter/GCODE-Pro/RTTTL2GCODE1.py:45-48 | with the corrected offset a pause is 0 and a note sounds in its own octave (also lines 105-115) |
| Rtttl.FrequencyFixedOctave | 3DPrinter/GCODE-Pro/RTTTL2GCODE1.py:45-48 | with the corrected offset, one octave up is twelve half steps up |
| Rtttl.Milliseconds | 3DPrinter/GCODE-Pro/RTTTL2GCODE1.py:117-121 | the length is the whole-note time over the duration, times 1.5 when dotted, rounded to within half a millisecond |
| Rtttl.Validate | 3DPrinter/GCODE-Pro/RTTTL2GCODE1.py:144-309 | the constructor as it runs, with its flags and loops, gives exactly the melody or error of Parse |
| Rtttl.ReadHeader | 3DPrinter/GCODE-Pro/RTTTL2GCODE1.py:163-182 | the section branches give exactly Header's name and items |
| Rtttl.ReadSettings | 3DPrinter/GCODE-Pro/RTTTL2GCODE1.py:185-239 | the loop with its three handled flags gives exactly the settings loop's outcome |
| Rtttl.ReadEach | 3DPrinter/GCODE-Pro/RTTTL2GCODE1.py:254-309 | the notes loop gives exactly ParseEach's outcome |
| Rtttl2Gcode.NoteLine | 3DPrinter/GCODE-Pro/RTTTL2GCODE1.py:321-328 | every note line ends with its length in ms; with positive pitches a line is a dwell "G4 P" exactly for a pause, and a beep carries the note's frequency as written |
| Rtttl2Gcode.NoteLines | 3DPrinter/GCODE-Pro/RTTTL2GCODE1.py:321-328 | one line per note, in order |
| Rtttl2Gcode.NameLines | 3DPrinter/GCODE-Pro/RTTTL2GCODE1.py:319-320 | at most one name comment |
| Rtttl2Gcode.MelodyGcode | 3DPrinter/GCODE-Pro/RTTTL2GCODE1.py:316-329 | the name comment ";<name>" first when there is a name, then note k's line at position k after it |
| Rtttl2Gcode.MelodyGcodeOf | 3DPrinter/GCODE-Pro/RTTTL2GCODE1.py:340-354 | inside the try, a melody's G-code exists exactly when the text is valid, with one line per note text after the name |
| Rtttl2Gcode.MarkersDiffer | 3DPrinter/GCODE-Pro/RTTTL2GCODE1.py:367-403 | the six begin and end marker comments are all different |
| Rtttl2Gcode.Block | 3DPrinter/GCODE-Pro/RTTTL2GCODE1.py:365-371 | a missing melody writes nothing; a melody is written between its begin and end comments |
| Rtttl2Gcode.BlockCopiesNothing | 3DPrinter/GCODE-Pro/RTTTL2GCODE1.py:365-371 | a melody block copies no input line |
| Rtttl2Gcode.AnyStartsIff | 3DPrinter/GCODE-Pro/RTTTL2GCODE1.py:372-378 | the handled flag after n lines is set exactly when one of them starts with the prefix |
| Rtttl2Gcode.InsertMelodies | 3DPrinter/GCODE-Pro/RTTTL2GCODE1.py:364-403 | the main loop writes exactly the plugin's output as written, with the print-finished flag never set |
| Rtttl2Gcode.InsertStep | 3DPrinter/GCODE-Pro/RTTTL2GCODE1.py:374-396 | one iteration writes that line's writes, and the heat-up flag becomes set exactly at an M109 line |
| Rtttl2Gcode.StepCopiesLine | 3DPrinter/GCODE-Pro/RTTTL2GCODE1.py:374-396 | every iteration copies its line exactly once |
| Rtttl2Gcode.BodyCopiesLines | 3DPrinter/GCODE-Pro/RTTTL2GCODE1.py:374-396 | the loop copies the first n lines in order |
| Rtttl2Gcode.BodyNext | 3DPrinter/GCODE-Pro/RTTTL2GCODE1.py:374-396 | one more line appends that line's writes |
| Rtttl2Gcode.OutputCopiesInput | 3DPrinter/GCODE-Pro/RTTTL2GCODE1.py:359-403 | the rewritten file holds every input line, in order, once |
| Rtttl2Gcode.ClosingCopiesNothing | 3DPrinter/GCODE-Pro/RTTTL2GCODE1.py:397-403 | the closing block copies no input line |
| Rtttl2Gcode.WaitIsNotProfile | 3DPrinter/GCODE-Pro/RTTTL2GCODE1.py:375-386 | an M109 line is never a profile line |
| Rtttl2Gcode.BlockCount | 3DPrinter/GCODE-Pro/RTTTL2GCODE1.py:365-403 | a block holds its own begin marker once and no other begin marker |
| Rtttl2Gcode.StepCount | 3DPrinter/GCODE-Pro/RTTTL2GCODE1.py:374-396 | one line's writes hold the heat-up marker only at the first M109 line, and the finished marker only at an unhandled profile line |
| Rtttl2Gcode.HeatBlockOnce | 3DPrinter/GCODE-Pro/RTTTL2GCODE1.py:375-385 | the heat-up melody is written once when the file has an M109 line and never otherwise |
| Rtttl2Gcode.HeatStep | 3DPrinter/GCODE-Pro/RTTTL2GCODE1.py:375-385 | line i brings the heat-up melody exactly when it is the first M109 line |
| Rtttl2Gcode.AtFirstStart | 3DPrinter/GCODE-Pro/RTTTL2GCODE1.py:372-396 | a write that only the first line with a prefix makes occurs once when such a line exists, and never otherwise |
| Rtttl2Gcode.NoFinishedMelody | 3DPrinter/GCODE-Pro/RTTTL2GCODE1.py:36 | as shipped, no finished melody is written, whatever the file (also lines 350-354) |
| Rtttl2Gcode.NoFinishedInBody | 3DPrinter/GCODE-Pro/RTTTL2GCODE1.py:386-395 | without a finished melody the loop writes no finished marker |
| Rtttl2Gcode.FinishedOnceFixed | 3DPrinter/GCODE-Pro/RTTTL2GCODE1.py:386-403 | with the melody in place and the flag set, the finished melody is written exactly once: before the first profile line, or at the end |
| Rtttl2Gcode.FixedBodyFinished | 3DPrinter/GCODE-Pro/RTTTL2GCODE1.py:386-395 | with the flag set, the loop writes the finished melody once when there is a profile line and never otherwise |
| Rtttl2Gcode.ProfileStep | 3DPrinter/GCODE-Pro/RTTTL2GCODE1.py:386-395 | with the flag set, line i brings the finished melody exactly when it is the first profile line |
| MusicalPrint.Tones | GCODE-Pro/musicalPrint.py:352 | one tone per note, in order, each with the note's frequency and length |
| MusicalPrint.Carry | GCODE-Pro/musicalPrint.py:353-368 | the P value after a note is its length capped at 350; after a pause of at least 350 ms it is 350; after a shorter pause it is the previous value, unbound at the start |
| MusicalPrint.BeepLine | GCODE-Pro/musicalPrint.py:360-370 | every tone is an "M300 S... P<p>" line: S is 320 for a pause and the frequency times 6.9 for a note, with no decimals |
| MusicalPrint.Beeps | GCODE-Pro/musicalPrint.py:352-370 | when no error is raised there is one beep per tone |
| MusicalPrint.WriteBeeps | GCODE-Pro/musicalPrint.py:347-371 | gcode as it runs, with its `temp` variable, gives exactly the name comment and the beeps, or the error |
| MusicalPrint.BeepStep | GCODE-Pro/musicalPrint.py:353-370 | one iteration updates P as Carry says and writes the tone's beep with it |
| MusicalPrint.NextCarry | GCODE-Pro/musicalPrint.py:353-368 | the P update for one tone |
| MusicalPrint.BeepsNext | GCODE-Pro/musicalPrint.py:352-370 | one more tone appends its beep |
| MusicalPrint.BeepsStopAt | GCODE-Pro/musicalPrint.py:353-361 | once an error is raised, no later tone undoes it |
| MusicalPrint.CarryUnbound | GCODE-Pro/musicalPrint.py:353-361 | P is unbound exactly while every tone so far is a pause shorter than 350 ms |
| MusicalPrint.CarryBound | GCODE-Pro/musicalPrint.py:353-368 | once bound, P stays bound |
| MusicalPrint.BeepsFailOnlyAtStart | GCODE-Pro/musicalPrint.py:353-361 | gcode raises (UnboundLocalError) exactly when the melody opens with a pause shorter than 350 ms |
| MusicalPrint.BeepAt | GCODE-Pro/musicalPrint.py:352-370 | beep k is tone k's line with the P value in force after it |
| MusicalPrint.BeepsEach | GCODE-Pro/musicalPrint.py:352-370 | every beep is its tone's line with the P value in force after it |
| MusicalPrint.DropDotDigits | GCODE-Pro/musicalPrint.py:54 | `re.sub(r"\.\d+", ".", song)` never lengthens the song |
| MusicalPrint.NoDotDigit | GCODE-Pro/musicalPrint.py:54 | in the result no dot is followed by a digit |
| MusicalPrint.FirstOfDrop | GCODE-Pro/musicalPrint.py:54 | a rewritten tail never starts with a digit that a preceding dot would own |
| MusicalPrint.DropDotDigitsIdempotent | GCODE-Pro/musicalPrint.py:54 | rewriting twice changes nothing more |
| MusicalPrint.DropFixes | GCODE-Pro/musicalPrint.py:54 | a song with no dot followed by a digit is left as it is |
| MusicalPrint.Checkpoint | GCODE-Pro/musicalPrint.py:434-449 | a checkpoint writes at most one melody line |
| MusicalPrint.CheckpointAt | GCODE-Pro/musicalPrint.py:431-449 | at most one melody line is written before an input line |
| MusicalPrint.Lines | GCODE-Pro/musicalPrint.py:428-429 | each piece of the split melody text becomes one line |
| MusicalPrint.Interleave | GCODE-Pro/musicalPrint.py:424-453 | the main loop with its counters writes exactly: the whole melody before the first line, and before every fifth line the next checkpoint, each input line copied after them |
| MusicalPrint.WriteBefore | GCODE-Pro/musicalPrint.py:426-450 | the writes before one line are Before's, and the counters move to the next checkpoint |
| MusicalPrint.NextMelodyLine | GCODE-Pro/musicalPrint.py:434-449 | the inner search writes melody line gcodeline and advances it, or writes nothing and wraps it to 0 one past the end |
| MusicalPrint.CheckpointStep | GCODE-Pro/musicalPrint.py:431-432 | a checkpoint falls exactly on every fifth line, and the melody index then advances, wrapping one past the last piece |
| MusicalPrint.WrapNext | GCODE-Pro/musicalPrint.py:445-449 | the melody index advances modulo lammount + 1 |
| MusicalPrint.CheckpointRound | GCODE-Pro/musicalPrint.py:431-449 | each round of lammount + 1 checkpoints writes the melody lines once each, in order, and then one checkpoint that writes nothing |
| MusicalPrint.BeforeCopiesNothing | GCODE-Pro/musicalPrint.py:426-450 | nothing written before a line is an input line |
| MusicalPrint.MusicalCopies | GCODE-Pro/musicalPrint.py:424-453 | the rewritten file holds every input line once, in order |
| MusicalPrint.FirstBeforeOpens | GCODE-Pro/musicalPrint.py:426-429 | what is written before the first line opens the file |
| MusicalPrint.MelodyFirst | GCODE-Pro/musicalPrint.py:426-429 | once there is an input line, the file opens with the whole melody |
| MusicalPrint.MusicalPrintFile | GCODE-Pro/musicalPrint.py:400-453 | when the script gets through, the file holds the input lines in order and the rest is melody |
| MusicalPrint.MusicalPrintFails | GCODE-Pro/musicalPrint.py:54 | the script fails exactly when the song with its dotted lengths cut is not valid RTTTL or opens with a pause shorter than 350 ms (also lines 408) |
| MusicalPrint.MusicalPrintMain | GCODE-Pro/musicalPrint.py:400-453 | the script as it runs gives exactly MusicalPrintFile's outcome |
| TonePlayer.ScanAppend | 3DPrinter/GCODE-Pro/tonePlayer.py:46-59 | the defaults loop over a + b is the loop over b started where the loop over a ended |
| TonePlayer.ScanDigits | 3DPrinter/GCODE-Pro/tonePlayer.py:48-56 | a run of digits read from a fresh value stores the number it spells under the current key |
| TonePlayer.ScanSetting | 3DPrinter/GCODE-Pro/tonePlayer.py:46-59 | a key letter, '=' and a number store that number under the key |
| TonePlayer.ScanComma | 3DPrinter/GCODE-Pro/tonePlayer.py:46-59 | a comma changes nothing |
| TonePlayer.DefaultsAsWritten | 3DPrinter/GCODE-Pro/tonePlayer.py:42-59 | defaults written "d=<d>,o=<o>,b=<b>" set exactly those three values |
| TonePlayer.TempoNeedsKey | 3DPrinter/GCODE-Pro/tonePlayer.py:55-56 | the tempo is assigned only under the key b: defaults without a b leave it unset |
| TonePlayer.OpenColons | 3DPrinter/GCODE-Pro/tonePlayer.py:34-61 | a tune is refused for its colons exactly when it does not have two, and an opened tune has a positive tempo |
| TonePlayer.NewPlayer | 3DPrinter/GCODE-Pro/tonePlayer.py:34-61 | RTTTL(tune) fails exactly when the tune has not two colons, has no tempo or a zero tempo; otherwise the object holds the note section with the cursor at 0, the defaults read and the whole-note length 240000 / bpm |
| TonePlayer.Player.constructor | 3DPrinter/GCODE-Pro/tonePlayer.py:38-39 | the object holds the note section, the cursor at its start and no setting assigned |
| TonePlayer.Player.ParseDefaults | 3DPrinter/GCODE-Pro/tonePlayer.py:42-61 | the settings become those the character scan leaves; a missing tempo or b=0 raises, else the whole-note length is 240000 / bpm; the cursor is untouched |
| TonePlayer.NextCharAt | 3DPrinter/GCODE-Pro/tonePlayer.py:63-70 | next_char gives the character at the cursor, ',' read as ' ', moving one on; at the end a bar character without moving |
| TonePlayer.Player.NextChar | 3DPrinter/GCODE-Pro/tonePlayer.py:63-70 | the method moves the cursor as NextCharAt says, staying within the tune |
| TonePlayer.SkipBlanks | 3DPrinter/GCODE-Pro/tonePlayer.py:79-81 | the loop ends on a character that is not a blank, never moving backwards |
| TonePlayer.Digits | 3DPrinter/GCODE-Pro/tonePlayer.py:85-89 | the duration loop ends on a non-digit |
| TonePlayer.NoteIndex | 3DPrinter/GCODE-Pro/tonePlayer.py:96-102 | a to g index 0 to 6, h is b's index, anything else the pause at 7 |
| TonePlayer.Pow2 | 3DPrinter/GCODE-Pro/tonePlayer.py:130 | the shift 1 << k is at least 1 |
| TonePlayer.Head | 3DPrinter/GCODE-Pro/tonePlayer.py:79-89 | skipping blanks and reading the length moves the cursor forward whenever a character other than the end marker is read |
| TonePlayer.NextNote | 3DPrinter/GCODE-Pro/tonePlayer.py:77-135 | each yielded note moves the cursor strictly forward, within the tune |
| TonePlayer.AfterLetter | 3DPrinter/GCODE-Pro/tonePlayer.py:103-135 | after the letter the sharp, dot, octave and dot are read and the note keeps the length read |
| TonePlayer.Player.ReadNote | 3DPrinter/GCODE-Pro/tonePlayer.py:77-135 | one pass of the generator as it runs gives NextNote's outcome and leaves the cursor after the note |
| TonePlayer.Player.FinishNote | 3DPrinter/GCODE-Pro/tonePlayer.py:103-135 | the rest of a note as it runs gives AfterLetter's outcome |
| TonePlayer.Player.Notes | 3DPrinter/GCODE-Pro/tonePlayer.py:72-135 | the generator yields every note's frequency and ms in order, up to the end of the tune or the exception that stops it |
| TonePlayer.SilentNotes | 3DPrinter/GCODE-Pro/tonePlayer.py:12-30 | a note is silent exactly when its letter is not a to h, or it is a sharp b, e or h (also lines 96-107) |
| TonePlayer.OctaveDoubles | 3DPrinter/GCODE-Pro/tonePlayer.py:130 | one octave up doubles the frequency |
| TonePlayer.DotLengthens | 3DPrinter/GCODE-Pro/tonePlayer.py:113-131 | a dot makes a note half as long again |
| TonePlayer.DigitsPrefix | 3DPrinter/GCODE-Pro/tonePlayer.py:85-89 | the duration loop over a run of digits reaches each position with the value of the digits before it |
| TonePlayer.WrittenChars | 3DPrinter/GCODE-Pro/tonePlayer.py:77-135 | where the length, letter, sharp, octave, dot and comma of a note written in full sit |
| TonePlayer.ReadAfterLetter | 3DPrinter/GCODE-Pro/tonePlayer.py:103-135 | after its letter, a written note reads back its sharp, octave and dot |
| TonePlayer.ReadHead | 3DPrinter/GCODE-Pro/tonePlayer.py:79-89 | the length of a written note is read back up to its letter |
| TonePlayer.ReadWritten | 3DPrinter/GCODE-Pro/tonePlayer.py:77-135 | a note written in full reads back as its tone, the cursor just after its comma |
| TonePlayer.NotesAfterYield | 3DPrinter/GCODE-Pro/tonePlayer.py:77-135 | a yielded note heads the notes read from the cursor after it |
| TonePlayer.NotesAtEnd | 3DPrinter/GCODE-Pro/tonePlayer.py:93-94 | the generator yields nothing more once a pass stops or raises |
| TonePlayer.WrittenTones | 3DPrinter/GCODE-Pro/tonePlayer.py:77-135 | one tone per written note |
| TonePlayer.ReadWrittenTune | 3DPrinter/GCODE-Pro/tonePlayer.py:72-135 | a tune of notes written in full reads back note for note; after the last one the length lookup raises when the defaults gave no d |
| TonePlayer.Sounds | 3DPrinter/GCODE-Pro/tonePlayer.py:130-135 | each tone yields its table frequency shifted by the octave and its ms |
| TonePlayer.SoundsSnoc | 3DPrinter/GCODE-Pro/tonePlayer.py:130-135 | one more tone appends its frequency and ms |
| LineMatch.LiteralMatch | 3DPrinter/GCODE-Pro/tweakatz-repetier.py:55 | a pattern without '.' matches at k exactly when its own text sits at k in the line |
| LineMatch.StarSearchContains | 3DPrinter/GCODE-Pro/tweakatz-repetier.py:24 | re.search(p + "*") on a pattern without '.' succeeds exactly when the line contains p without its last character, in both directions |
| LineMatch.HomingPattern | 3DPrinter/GCODE-Pro/tweakatz-repetier.py:67 | "G28*" is found exactly in the lines holding "G2", so arcs (G2), G20, G21 and G29 count as homing too |
| LineMatch.FindsItsOwnText | GCODE-Pro/tweakatz-repetier3.py:42 | a line holding the pattern's own text is always found, dots and line ends included |
| LineMatch.HeightMatchesAt | 3DPrinter/GCODE-Pro/tweakatz-repetier.py:23-24 | "Z2.2" matches at k exactly when the line has 'Z', '2', any character but a line end, '2' there |
| LineMatch.HeightPattern | 3DPrinter/GCODE-Pro/tweakatz-repetier.py:23-24 | the height pattern "Z2.24*" is found exactly when some position holds 'Z', '2', any character, '2': the final '4' is optional |
| LineMatch.HeightPatternNeighbours | 3DPrinter/GCODE-Pro/tweakatz-repetier.py:23-24 | the height pattern also fires on Z2.2, Z2.28 and Z212 |
| LineMatch.EmptyHeightMatchesAll | GCODE-Pro/resume-printZ.py:28-35 | an empty argv[2] builds the pattern "Z*", which matches every line |
| LineMatch.MissingFirstChar | 3DPrinter/GCODE-Pro/tweakatz-repetier.py:55 | a line without the pattern's first character (when that is not '.' and not the starred last one) has no match |
| TweakAtZ.FinishIndex | 3DPrinter/GCODE-Pro/tweakatz-repetier.py:33-61 | int(total * 0.80) is the largest r with 5r <= 4·total, and is a valid line index of a non-empty file |
| TweakAtZ.TweakFile | 3DPrinter/GCODE-Pro/tweakatz-repetier.py:45-74 | the two passes (count, then rewrite) write every line after the block of the rule that handles it, and nothing else |
| TweakAtZ.SecondPass | 3DPrinter/GCODE-Pro/tweakatz-repetier.py:53-74 | the rewriting pass over n counted lines writes each line after the block of its rule |
| TweakAtZ.WriteLine | 3DPrinter/GCODE-Pro/tweakatz-repetier.py:55-74 | one turn extends the output by exactly the next line's block and that line; the block is that of the first rule that matches, in the order height pattern, 80 % line, "G28*", plain copy |
| TweakAtZ.InsertsCopyNothing | 3DPrinter/GCODE-Pro/tweakatz-repetier.py:57-70 | the blocks written ahead of a line hold only generated lines, never input lines |
| TweakAtZ.TweakedCopies | 3DPrinter/GCODE-Pro/tweakatz-repetier.py:60-73 | every input line is written exactly once and in order: the output minus the inserted blocks is the input |
| TweakAtZ.CoolingWins | 3DPrinter/GCODE-Pro/tweakatz-repetier.py:55-59 | a line at the height pattern always gets the cooling block (comment, M140 S50, M104 S225), even at the 80 % line or on a homing line |
| TweakAtZ.FinishingComment | 3DPrinter/GCODE-Pro/tweakatz-repetier.py:63 | the ";Finishing Print" comment is in the bed-off block once and in no other block |
| TweakAtZ.FinishingOnce | 3DPrinter/GCODE-Pro/tweakatz-repetier.py:61-65 | the bed-off block is written exactly once when the file is non-empty and the 80 % line is not at the height pattern, and otherwise never |
| TweakAtZ.NoZNoHeight | 3DPrinter/GCODE-Pro/tweakatz-repetier.py:24-55 | a line without 'Z' never triggers the cooling block |
| TweakAtZ.ArcRewarms | 3DPrinter/GCODE-Pro/tweakatz-repetier.py:67-71 | a G2 arc line is taken for homing, so the initial temperatures 60/230 are written again in mid-print |
| TweakAtZ3.OrDefault | GCODE-Pro/tweakatz-repetier3.py:29-37 | an empty argument takes the default and a non-empty one is kept as it is |
| TweakAtZ3.PercentAlwaysRead | GCODE-Pro/tweakatz-repetier3.py:21-67 | the script gets past its argument reading exactly when argv has eight entries or more and argv[7] is a number, and the fraction is then that number times 0.01 |
| TweakAtZ3.SevenArgumentsFail | GCODE-Pro/tweakatz-repetier3.py:64-65 | with the percentage left off (seven entries), argv[6:] is non-empty and argv[7] stops the script |
| TweakAtZ3.FixedPercentOptional | GCODE-Pro/tweakatz-repetier3.py:64-67 | the corrected reading agrees with the script wherever the script runs, and with seven entries it runs with the 0.80 default |
| TweakAtZ3.NoEmptySetting | GCODE-Pro/tweakatz-repetier3.py:29-57 | every setting has a value; an empty bed gives 60 and an empty extruder 223 |
| TweakAtZ3.FinishIndex | GCODE-Pro/tweakatz-repetier3.py:98 | for a non-negative fraction, int(total * fraction) is the whole part of the product |
| TweakAtZ3.TweakFile | GCODE-Pro/tweakatz-repetier3.py:82-136 | the two passes write every line after the block of the rule that handles it, and nothing else |
| TweakAtZ3.SecondPass | GCODE-Pro/tweakatz-repetier3.py:90-136 | the rewriting pass over n counted lines writes each line after the block of its rule |
| TweakAtZ3.WriteLine | GCODE-Pro/tweakatz-repetier3.py:92-136 | one turn extends the output by exactly the next line's block and that line; the block is that of the first rule that matches, in the order height pattern, percentage line, ";tweakatz" marker, plain copy |
| TweakAtZ3.TweakedCopies | GCODE-Pro/tweakatz-repetier3.py:97-135 | every input line is written exactly once and in order |
| TweakAtZ3.MarkerWarmsUp | GCODE-Pro/tweakatz-repetier3.py:111-133 | a marker line that the height and the percentage do not take is written right after the whole warm-up block, with everything before it unchanged |
| TweakAtZ3.MarkerRule | GCODE-Pro/tweakatz-repetier3.py:111 | such a marker line gets the warm-up block |
| TweakAtZ3.WarmUpWaits | GCODE-Pro/tweakatz-repetier3.py:113-131 | the warm-up depends only on the two initial temperatures and waits for both (M190 and M109) |
| TweakAtZ3.WarmUpNotFinishing | GCODE-Pro/tweakatz-repetier3.py:113-131 | the warm-up block never holds the ";Finishing Print" comment |
| TweakAtZ3.CoolingNotFinishing | GCODE-Pro/tweakatz-repetier3.py:94-96 | nor does the cooling block |
| TweakAtZ3.FinishingHasComment | GCODE-Pro/tweakatz-repetier3.py:100-101 | the bed-off block holds the comment once |
| TweakAtZ3.FinishingComment | GCODE-Pro/tweakatz-repetier3.py:92-135 | of the four blocks only the bed-off block holds the comment, once |
| TweakAtZ3.FinishingAt | GCODE-Pro/tweakatz-repetier3.py:98-102 | the writes ahead of a line hold the comment once exactly when the percentage rule takes that line |
| TweakAtZ3.FinishingOnce | GCODE-Pro/tweakatz-repetier3.py:92-102 | the bed-off block is written once when line int(total * fraction) exists and the height does not take it, and never otherwise |
| ResumePrintZ.ResumeHeight | GCODE-Pro/resume-printZ.py:28-30 | the height is argv[2] unchanged: the fallback to 2.7 never applies, as a string never equals the int 0 |
| ResumePrintZ.FirstMatch | GCODE-Pro/resume-printZ.py:66-68 | the found index is the first line at the height pattern, and None means no line is at it |
| ResumePrintZ.ResumeLine | GCODE-Pro/resume-printZ.py:66-85 | one pass of the found flag: nothing before the height; at the first line there, the header and that line twice (or a stop when float(height) fails); after it, the line once |
| ResumePrintZ.ResumedSnoc | GCODE-Pro/resume-printZ.py:64-85 | the resumed output of a file one line longer is the old output plus that line once the height is reached, and the header plus the line twice at the first line there |
| ResumePrintZ.FailureStays | GCODE-Pro/resume-printZ.py:80 | once float(height) fails on a prefix, the whole run fails |
| ResumePrintZ.ResumeStep | GCODE-Pro/resume-printZ.py:65-85 | one turn of the loop keeps the flag and the output equal to the resumed output of the lines read so far |
| ResumePrintZ.ResumeFile | GCODE-Pro/resume-printZ.py:28-85 | the script's pass writes exactly the resumed file, or stops when the height is not a number |
| ResumePrintZ.ResumedCopies | GCODE-Pro/resume-printZ.py:66-85 | the copied lines are none when no line is at the height; otherwise the first line there twice, then every later line once, in order, and nothing before it |
| ResumePrintZ.ResumptionCopies | GCODE-Pro/resume-printZ.py:83-85 | from the first line at the height on, that line is copied, then it and the rest again |
| ResumePrintZ.ResumedFixedCopies | GCODE-Pro/resume-printZ.py:66-85 | the corrected rewrite copies every line from the first at the height on exactly once, in order |
| ResumePrintZ.HeaderCommentOnce | GCODE-Pro/resume-printZ.py:73-82 | the header holds its ";Resume Printing Heating" comment once |
| ResumePrintZ.CopyAllEmitsNothing | GCODE-Pro/resume-printZ.py:83-85 | copied lines add no generated line |
| ResumePrintZ.ResumptionHeader | GCODE-Pro/resume-printZ.py:70-85 | the header is at the front of the resumption and its comment is written once |
| ResumePrintZ.AheadOfCopies | GCODE-Pro/resume-printZ.py:83-85 | copying lines after generated ones keeps those as a prefix and adds nothing to their count |
| ResumePrintZ.HeaderOnce | GCODE-Pro/resume-printZ.py:66-82 | when a line is at the height the header is written once, at the front of the output |
| ResumePrintZ.EmptyHeightFails | GCODE-Pro/resume-printZ.py:28-35 | an empty argv[2] is kept as the height, so the first line of a non-empty file is the match, and `float("")` at line 80 then fails there, so nothing is written |
| ResumePrintZ.FirstLineTwice | GCODE-Pro/resume-printZ.py:70-85 | resuming at Z2.7 in a file whose second line reaches it copies that line twice |
| Rewrite.AroundCopies | 3DPrinter/GCODE-Pro/tweakatz-repetier.py:53-74 | a line-by-line rewrite that writes only generated lines ahead of each input line copies the input lines once each, in order |
| Rewrite.AroundCountOnce | 3DPrinter/GCODE-Pro/tweakatz-repetier.py:53-74 | a generated line that only the block ahead of one input line holds, once, occurs once in the whole output |
| Rewrite.AroundAt | 3DPrinter/GCODE-Pro/tweakatz-repetier.py:53-74 | input line i is written right after the block ahead of it, everything before unchanged |
| Rewrite.JoinedCopies | 3DPrinter/GCODE-Pro/RTTTL2GCODE1.py:340-403 | when the writes for each input line copy exactly that line, the whole output copies the input in order |
| Rewrite.CopyAllCopies | GCODE-Pro/resume-printZ.py:84-85 | copying lines as read copies exactly those lines |

## Left out

- GUIs and rendering: Qt widgets, dialogs, OpenGL painting, timers, previews and the GTK window are interface code. The visualizer's timer tick is modelled as a call to `GCodeViewer.Viewer.Step`.
- Process-launching front-ends (potraceGUI, autotrace-GUI, gcmc-Frontend, the old svg2gcode-qt front-end, cura-pproc.py) and modelConverter's assimp wrapper: they have no logic of their own.
- File and console I/O: files are sequences of lines or bytes, an unreadable file is `None`, and `shutil.move`, stdout prints and message boxes are not modelled. `Heightmap.WritePgm16Be` and `Dxf2Stl.SaveDXF` return the bytes or lines they would write.
- Number-to-text formatting (`QString::arg`, `ostream <<`, Python `str`/`format`) is an abstract formatter, because the digits are not part of the tools' logic. Number parsing is an abstract reader in the same way (`std::stof`, `std::stod`, `QString::toDouble`, `QString::toFloat`, stream `>>`, Python `float`). The STL round trips therefore give back each coordinate as printed and read back (`Common.ReadBack`), which holds for any formatter, one that keeps six significant digits included; only a mesh whose numbers print exactly comes back unchanged. `Dxf2Stl.StlRoundTrip` also assumes each number prints as one word without white space, as `ostream <<` does. In the binary format each coordinate is stored as an abstract 32-bit word `bits(x)` and decoded by `f32`, so float32 rounding is carried in the same way.
- Floating point: geometry, depths and heights are exact reals. IEEE rounding, float32 truncation and NaN/inf propagation are not modelled, except where a finding below names them.
- Trigonometry and `pow` are function-valued parameters. This covers cos/sin in LidMaker, the arc interpolation in the visualizer, the `math.pow` note frequencies and gTalker's semitone transposition.
- Clipper2's `InflatePaths`, nanosvg, libdxfrw and Qt's QRegion/QBitmap/QPainterPath tracing are parameters: only the paths and the signed offset passed to them are modelled.
- Audio: gTalker's capture, `detectPitchAutocorr`, `rms`, `freqToNearestSemitone` and `saveGcode`, and tonePlayer's `playTone` synthesis and print loop, are audio I/O or floating-point signal processing.
- GTalker.Talker.AnalyzeHop: the circle tune (mode 2) of `synthesizeShapeBar` is left out because it is made of cos/sin points. Modes 0, 1 and 3 are modelled.
- laserLine's `loadImage`, `saveImage` and `updatePreview` are image I/O and GUI.
- greypocket's file dialog, its cancel path and the null-image check are I/O. The pocket is modelled from a loaded image on.
- Greypocket.Pocket: the model takes the pixels after Qt's `convertToFormat(QImage::Format_Grayscale8)` (Engraver/greypocket/main.cpp:54). That conversion from the loaded file's format to 8-bit grey is not modelled.
- Stl2Png.NumAt: a failed or partial numeric read (the stream's failbit, a token like "1.5abc") is not modelled. The token is handed to the abstract number reader whole. When the tokens run out, the source's fresh `double vx,vy,vz` (Engraver/stl2png/main.cpp:68-69) stay uninitialised and their indeterminate values are copied into the triangle; the model reads 0 there instead.
- Stl2Png.VertexAt: the same applies to each of its three coordinates.
- Dxf2Stl.LoadDXF: the `std::stof` exception on a malformed number is not modelled, because the reader `toReal` is total.
- Dxf2Stl.LoadSTL: the source reads each coordinate with stream `>>`, which never throws. A malformed coordinate stores 0 and fails the stream, so every coordinate after it on that line, like one missing from a short `vertex` line, keeps `v[vi]`'s value from an earlier triangle (indeterminate before the first three vertices). The model hands every word to the total reader `toReal` and reads a missing word as 0 (`Dxf2Stl.PointOf`).
- Stl2Gcode.Run: the `std::stod` exception on a malformed layer height is not modelled, because `toReal` is total.
- Stl2Gcode.Run: a layer height of zero or less is refused with status 1. The source loops forever instead (see Findings), so the model states the corrected behaviour there.
- Stl2Gcode.ReadSTL: the first `Triangle tri` is uninitialised in the source. It is taken to start zeroed, as `Blank`. It also inherits the short-line reading of `Stl2Gcode.Step`.
- Stl2Gcode.Step: on a `vertex` line with fewer than three numbers, the source's fresh `double x, y, z` (Engraver/STL2GCODE/main.cpp:39-40) stay uninitialised for the missing ones, and after a malformed number (stored as 0, failing the stream) for every later one; the zero test then reads those indeterminate values. The model reads a missing number as 0 (`Stl2Gcode.NumAt`) and hands a present one to the total reader `toReal`.
- TSlotSlicer.LoadSTL: short binary reads are unchecked in slice2 and sliceTests, so the reader requires a buffer that holds every record it announces.
- LidMaker.GenerateGCode: the `Defined` precondition excludes a pitch of zero when passes run. The source then casts the infinite or NaN `ceil(totalDepth / pitch * 8)` to int, which is undefined behaviour in C++.
- GLid.GenerateGCode: the same applies to `ceil(depth / pitch)`.
- QtDxf2Gcode.ExportGCode: requires a positive depth per pass. With a depth per pass of zero or less, the source's `depth -= dpp` loop never ends whenever the total depth is at least `-dpp`.
- QtDxf2Gcode.Depth: depths are exact multiples of the depth per pass, where the source subtracts in doubles. So `QtDxf2Gcode.PassCount` can differ from the source at a boundary: depth per pass 0.1 and total 0.3 give 2 passes in doubles and 3 in the model.
- QtDxf2Gcode: the "cut" flag the export computes for a path is never used in the source, so it is not modelled.
- TweakAtZ3.FinishIndex: the bed-off line is int(total * percent) over exact reals. Python multiplies in doubles, so argv[7] = "29" on 100 lines gives line 28 in Python (0.29 * 100 = 28.999…) and 29 in the model.
- LineMatch.StarSearch: only '.' is treated as a regular-expression metacharacter. Other metacharacters in a height argument (such as '+', '[' or '\\') are matched literally, and Python's `re` would read them as operators.
- TonePlayer.Player.ParseDefaults: `isdigit`, `isalpha` and `lower` are the ASCII versions (`Common.IsDigit`, `Common.IsLower`/`IsUpper`, `Common.ToLowerChar`). Python's Unicode classes are wider.
- TonePlayer.Player.ReadNote: the same applies to its `isdigit` and `lower`.
- TonePlayer.Player.FinishNote: the same applies to its `isdigit` and `lower`.
- GCodeViewer.ToUpper: `QString::toUpper` is reduced to ASCII letter by letter (`GCodeViewer.Upper`). Qt upper-cases every Unicode letter.
- GCodeViewer.ParseLineKinds: `QString::trimmed` is modelled by `Common.Trimmed`, which strips only ASCII blanks. Qt strips every Unicode whitespace character.
- LaserLine.LaserLineWidget.ApplyLines: the `convertToFormat(QImage::Format_RGB32)` before the scan (Engraver/laserLine/main.cpp:88) is not modelled. The image is taken to be 32-bit RGB already, so the conversion of palette, grey or other formats and the alpha byte RGB32 forces to 0xff are left out. The brightness function `qGray` reads only red, green and blue.
- SvgOld.ParsePathData: the indeterminate values an uninitialised or failed `double` read leaves are the single parameter `junk`. A failed `num_get` read gives 0.
- Heightmap.MakeHeightmap: on a flat height range (every covered pixel at one height) it follows the corrected `Heightmap.Quantize`, which gives 65535. The source's value there is undefined (see Findings).
- Rtttl.Milliseconds: Python 2 semantics are assumed. Its `round` takes halves away from zero, where Python 3 rounds them to even: "x:d=4,o=5,b=120:32a" lasts 62.5 ms, which is 63 under Python 2 and 62 under Python 3.
- Float accumulation of layer heights (`z += h`) is modelled as k·h (`PlaneSlice.LayerZ`), without rounding drift.
- DXF2STL's `main` mode dispatch on the command line is not modelled. The four conversions are modelled on their own.

## Findings

| source | as written | input that shows it | evidently intended | confidence | as-written member | corrected member |
|---|---|---|---|---|---|---|
| Engraver/DXF2STL/main.cpp:20-26 | the inner VERTEX loop reads on until it has consumed the SEQEND line, so the outer loop never sees SEQEND and never pushes the polyline | any file saveDXF writes, e.g. one triangle | a saved file loads back as one closed polyline per triangle | not executed | Dxf2Stl.SavedDxfLoadsNothing | Dxf2Stl.DxfRoundTripFixed |
| 3DPrinter/GCODE-Pro/RTTTL2GCODE1.py:109-113 | the note offset is NOTE_OFFSET + 12·(4 − octave), so a higher octave sounds lower | note "a" in octave 5: offset −12, 220 Hz | offset +12, 880 Hz, as the comment at lines 45-48 gives n = 3 for C5 | not executed | Rtttl.OffsetAsWrittenMirrors | Rtttl.OffsetRisesWithOctave |
| Engraver/stl2png/main.cpp:254-258 | on a flat range zmax == zmin the normalisation is 0/0 = NaN, which the clamps miss and the cast to uint32_t makes undefined | a mesh whose covered pixels all lie at one height, such as a single horizontal triangle | every covered pixel at 65535, like an uncovered one | not executed | Heightmap.QuantizeAsWritten | Heightmap.QuantizeFlatRange |
| Engraver/STL2GCODE/main.cpp:117-125 | a layer height of zero or less never moves z past 50, so the layer loop never ends | layer height "0" | refuse a non-positive layer height | not executed | Stl2Gcode.LayerLoopNeverEnds | Stl2Gcode.Run |
| 3DPrinter/GCODE-Pro/RTTTL2GCODE1.py:36 | the melody is defined as `rint_finished_string`, so reading `print_finished_string` at lines 350-354 raises NameError, the bare except swallows it, and the finished melody is never inserted | any G-code file | the finished melody written once, before the end of the print; the corrected body also sets the print-finished flag after writing it, which the shipped script never sets (`Rtttl2Gcode.InsertMelodies`) | not executed | Rtttl2Gcode.NoFinishedMelody | Rtttl2Gcode.FinishedOnceFixed |
| GCODE-Pro/resume-printZ.py:70-85 | the branch for found == 2 writes the line and sets found to 1, and the branch for found == 1 then writes it again | height 2.7 and the lines "G28", "G1 Z2.7", "G1 X5": "G1 Z2.7" comes out twice | the first line at the height written once after the header | not executed | ResumePrintZ.FirstLineTwice | ResumePrintZ.ResumedFixedCopies |
| GCODE-Pro/tweakatz-repetier3.py:64-65 | `sys.argv[6:]` is non-empty as soon as argv[6] exists, so argv[7] is read even when it is absent | seven entries in argv (the percentage left off): IndexError | an optional percentage, 0.80 when absent | not executed | TweakAtZ3.SevenArgumentsFail | TweakAtZ3.FixedPercentOptional |
