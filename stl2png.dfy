// stl2png: reading an STL mesh (ASCII or binary) from a byte buffer, and
// writing a 16-bit big-endian Netpbm P5 image.
module Stl2Png {
  import opened Common

  datatype Tri = Tri(v0: Vec3, v1: Vec3, v2: Vec3)

  /** The buffer read as text, one character per byte. */
  function AsText(buf: seq<Byte>): (s: string)
    ensures |s| == |buf|
  {
    seq(|buf|, i requires 0 <= i < |buf| => buf[i] as char)
  }

  /** The ASCII test: at least six bytes, the first five spell "solid", and
      "facet" occurs somewhere. The byte scan that follows in the source only
      ever answers false, so every other buffer is reported as not ASCII. */
  predicate LooksAscii(buf: seq<Byte>) {
    |buf| >= 6 && AsText(buf[..5]) == "solid" && Contains(AsText(buf), "facet")
  }

  method IsLikelyAsciiStl(buf: seq<Byte>) returns (r: bool)
    ensures r <==> |buf| >= 6 && AsText(buf[..5]) == "solid" && Contains(AsText(buf), "facet")
  {
    if |buf| < 6 {
      return false;
    }
    if AsText(buf[..5]) == "solid" && IndexOf(AsText(buf), "facet") != -1 {
      return true;
    }
    var n := if |buf| < 200 then |buf| else 200;
    var i := 0;
    while i < n
      invariant 0 <= i <= n
    {
      var c := buf[i];
      if (c < 9 || (c > 13 && c < 32)) && c != 0 {
        return false;
      }
      i := i + 1;
    }
    return false;
  }

  // ---------------------------------------------------------------------
  // ASCII STL: the istringstream token stream

  /** A whitespace-separated token and the line it starts on; getline uses the line. */
  datatype Token = Token(text: string, line: nat)

  /** The longest prefix without whitespace. */
  function Word(s: string): (w: string)
    ensures |w| <= |s| && w == s[..|w|]
    ensures forall i :: 0 <= i < |w| ==> !IsSpace(w[i])
    ensures |w| < |s| ==> IsSpace(s[|w|])
    decreases |s|
  {
    if |s| == 0 || IsSpace(s[0]) then "" else [s[0]] + Word(s[1..])
  }

  /** What repeated `ss >> token` yields: every maximal run of non-space characters, with its line. */
  function Tokenize(s: string, line: nat): (r: seq<Token>)
    ensures forall k :: 0 <= k < |r| ==> r[k].line >= line
    ensures forall k :: 0 <= k < |r| ==> |r[k].text| > 0 && forall i :: 0 <= i < |r[k].text| ==> !IsSpace(r[k].text[i])
    decreases |s|
  {
    if |s| == 0 then []
    else if IsSpace(s[0]) then Tokenize(s[1..], if s[0] == '\n' then line + 1 else line)
    else
      var w := Word(s);
      [Token(w, line)] + Tokenize(s[|w|..], line)
  }

  /** The whitespace-separated words of one line, as `iss >> word` reads them. */
  function Words(line: string): (ws: seq<string>)
    ensures forall k :: 0 <= k < |ws| ==> |ws[k]| > 0
  {
    var toks := Tokenize(line, 0);
    seq(|toks|, k requires 0 <= k < |toks| => toks[k].text)
  }

  /** A word: non-empty and free of whitespace. */
  predicate IsWord(w: string) {
    |w| > 0 && forall i :: 0 <= i < |w| ==> !IsSpace(w[i])
  }

  lemma {:induction false} WordThen(w: string, rest: string)
    requires forall i :: 0 <= i < |w| ==> !IsSpace(w[i])
    requires |rest| == 0 || IsSpace(rest[0])
    ensures Word(w + rest) == w
    decreases |w|
  {
    if |w| > 0 {
      WordThen(w[1..], rest);
      assert (w + rest)[1..] == w[1..] + rest;
      assert [w[0]] + w[1..] == w;
    }
  }

  /** Words joined by single spaces are read back one by one. */
  lemma {:induction false} TokenizeJoin(ws: seq<string>, line: nat)
    requires |ws| >= 1
    requires forall k :: 0 <= k < |ws| ==> IsWord(ws[k])
    ensures |Tokenize(Join(ws, ' '), line)| == |ws|
    ensures forall k :: 0 <= k < |ws| ==> Tokenize(Join(ws, ' '), line)[k].text == ws[k]
    decreases |ws|
  {
    var w := ws[0];
    var s := Join(ws, ' ');
    if |ws| == 1 {
      WordThen(w, "");
      assert w + "" == w;
      assert s[|w|..] == "";
    } else {
      var rest := Join(ws[1..], ' ');
      assert s == w + (" " + rest);
      WordThen(w, " " + rest);
      assert s[|w|..] == " " + rest;
      assert (" " + rest)[1..] == rest;
      TokenizeJoin(ws[1..], line);
      forall k | 1 <= k < |ws| ensures ws[1..][k - 1] == ws[k] { }
    }
  }

  /** The words of a line of single-space-separated words are those words. */
  lemma WordsOfJoin(ws: seq<string>)
    requires |ws| >= 1
    requires forall k :: 0 <= k < |ws| ==> IsWord(ws[k])
    ensures Words(Join(ws, ' ')) == ws
  {
    TokenizeJoin(ws, 0);
  }

  /** The cursor after one `ss >> x`: one token further while tokens remain. */
  function Next(toks: seq<Token>, k: nat): (r: nat)
    requires k <= |toks|
    ensures r <= |toks| && (k < |toks| ==> r == k + 1) && (k == |toks| ==> r == k)
  {
    if k < |toks| then k + 1 else k
  }

  /** `ss >> x` for a number at cursor k: the token converted, or 0 once the tokens run out. */
  function NumAt(toks: seq<Token>, k: nat, toReal: string -> real): (r: real) {
    if k < |toks| then toReal(toks[k].text) else 0.0
  }

  /** getline after a token of line `line`: the tokens left on that line are skipped. */
  function SkipLine(toks: seq<Token>, k: nat, line: nat): (r: nat)
    requires k <= |toks|
    ensures k <= r <= |toks|
    ensures forall j :: k <= j < r ==> toks[j].line == line
    decreases |toks| - k
  {
    if k < |toks| && toks[k].line == line then SkipLine(toks, k + 1, line) else k
  }

  /** Where a vertex's three numbers start: after the "vertex" token, or one
      token later when the token read is not "vertex". */
  function VertexNums(toks: seq<Token>, k: nat): (r: nat)
    requires k <= |toks|
    ensures k <= r <= |toks| && (k < |toks| ==> k < r)
  {
    if k == |toks| then k
    else if toks[k].text != "vertex" then Next(toks, k + 1)
    else k + 1
  }

  /** The vertex read at cursor k, and the cursor after it. */
  function VertexAt(toks: seq<Token>, k: nat, toReal: string -> real): (r: Vec3)
    requires k <= |toks|
  {
    var p := VertexNums(toks, k);
    Vec3(NumAt(toks, p, toReal), NumAt(toks, Next(toks, p), toReal), NumAt(toks, Next(toks, Next(toks, p)), toReal))
  }

  function VertexEnd(toks: seq<Token>, k: nat): (r: nat)
    requires k <= |toks|
    ensures k <= r <= |toks| && (k < |toks| ==> k < r)
  {
    Next(toks, Next(toks, Next(toks, VertexNums(toks, k))))
  }

  /** After "facet normal": the cursor past the three normal numbers, "outer" and "loop". */
  function FacetVertices(toks: seq<Token>, k: nat): (r: nat)
    requires k <= |toks|
    ensures k <= r <= |toks|
  {
    if k + 5 <= |toks| then k + 5 else |toks|
  }

  /** The triangle of a facet whose "normal" token ends at k, and the cursor after it. */
  function FacetTri(toks: seq<Token>, k: nat, toReal: string -> real): (r: Tri)
    requires k <= |toks|
  {
    var p0 := FacetVertices(toks, k);
    var p1 := VertexEnd(toks, p0);
    var p2 := VertexEnd(toks, p1);
    Tri(VertexAt(toks, p0, toReal), VertexAt(toks, p1, toReal), VertexAt(toks, p2, toReal))
  }

  function FacetEnd(toks: seq<Token>, k: nat): (r: nat)
    requires k <= |toks|
    ensures k <= r <= |toks|
  {
    VertexEnd(toks, VertexEnd(toks, VertexEnd(toks, FacetVertices(toks, k))))
  }

  /** The triangles read from token k on: every "facet" followed by "normal"
      gives one triangle; a "facet" followed by anything else skips the rest of
      that token's line; every other token is passed over. */
  function AsciiFacets(toks: seq<Token>, k: nat, toReal: string -> real): (r: seq<Tri>)
    requires k <= |toks|
    decreases |toks| - k
  {
    if k == |toks| then []
    else if toks[k].text != "facet" then AsciiFacets(toks, k + 1, toReal)
    else if k + 1 == |toks| then []
    else if toks[k + 1].text != "normal" then AsciiFacets(toks, SkipLine(toks, k + 2, toks[k + 1].line), toReal)
    else [FacetTri(toks, k + 2, toReal)] + AsciiFacets(toks, FacetEnd(toks, k + 2), toReal)
  }

  /** parse_ascii_stl: appends the triangles of the token stream to `out`;
      succeeds exactly when the resulting list is non-empty. */
  method ParseAsciiStl(s: string, toReal: string -> real, out: seq<Tri>) returns (ok: bool, res: seq<Tri>)
    ensures res == out + AsciiFacets(Tokenize(s, 0), 0, toReal)
    ensures ok <==> |res| > 0
  {
    var toks := Tokenize(s, 0);
    res := ParseTokens(toks, toReal, out);
    ok := |res| > 0;
  }

  /** The `while (ss >> token)` loop of parse_ascii_stl over the token stream. */
  method ParseTokens(toks: seq<Token>, toReal: string -> real, out: seq<Tri>) returns (res: seq<Tri>)
    ensures res == out + AsciiFacets(toks, 0, toReal)
  {
    var k := 0;
    res := out;
    while k < |toks|
      invariant 0 <= k <= |toks|
      invariant res + AsciiFacets(toks, k, toReal) == out + AsciiFacets(toks, 0, toReal)
      decreases |toks| - k
    {
      var start := k;
      var token := toks[k].text;
      k := k + 1;
      if token != "facet" {
        continue;
      }
      if k == |toks| {
        // the read fails and the token stays "facet": the line is skipped and the stream is over
        continue;
      }
      token := toks[k].text;
      k := k + 1;
      if token != "normal" {
        k := SkipLine(toks, k, toks[k - 1].line);
        continue;
      }
      var normalAt := k;
      k := FacetVertices(toks, k);
      var v := new Vec3[3];
      var i := 0;
      while i < 3
        invariant 0 <= i <= 3 && k <= |toks|
        invariant i == 0 ==> k == FacetVertices(toks, normalAt)
        invariant i == 1 ==> (k == VertexEnd(toks, FacetVertices(toks, normalAt))
                              && v[0] == VertexAt(toks, FacetVertices(toks, normalAt), toReal))
        invariant i == 2 ==> (k == VertexEnd(toks, VertexEnd(toks, FacetVertices(toks, normalAt)))
                              && v[0] == FacetTri(toks, normalAt, toReal).v0 && v[1] == FacetTri(toks, normalAt, toReal).v1)
        invariant i == 3 ==> k == FacetEnd(toks, normalAt) && Tri(v[0], v[1], v[2]) == FacetTri(toks, normalAt, toReal)
      {
        v[i] := VertexAt(toks, k, toReal);
        k := VertexEnd(toks, k);
        i := i + 1;
      }
      res := res + [Tri(v[0], v[1], v[2])];
    }
  }

  /** The tokens of one facet as an ASCII STL writer prints them (the normal's
      three numbers are whatever the writer chose). */
  function FacetTokens(t: Tri, num: real -> string, n: Vec3): (r: seq<string>)
    ensures |r| == 21
  {
    ["facet", "normal", num(n.x), num(n.y), num(n.z), "outer", "loop",
     "vertex", num(t.v0.x), num(t.v0.y), num(t.v0.z),
     "vertex", num(t.v1.x), num(t.v1.y), num(t.v1.z),
     "vertex", num(t.v2.x), num(t.v2.y), num(t.v2.z),
     "endloop", "endfacet"]
  }

  /** A triangle as the reader sees it once a writer has printed its coordinates with `num`. */
  function ReadBackTri(t: Tri, num: real -> string, toReal: string -> real): (r: Tri) {
    Tri(ReadBack(t.v0, num, toReal), ReadBack(t.v1, num, toReal), ReadBack(t.v2, num, toReal))
  }

  function ReadBackTris(tris: seq<Tri>, num: real -> string, toReal: string -> real): (r: seq<Tri>)
    ensures |r| == |tris|
  {
    seq(|tris|, i requires 0 <= i < |tris| => ReadBackTri(tris[i], num, toReal))
  }

  /** Every coordinate of the mesh survives printing and reading back unchanged. */
  predicate PrintedExactly(tris: seq<Tri>, num: real -> string, toReal: string -> real) {
    forall i :: 0 <= i < |tris| ==> ReadBackTri(tris[i], num, toReal) == tris[i]
  }

  /** A well-formed vertex: "vertex" and its three numbers, which read back as the
      printed point. */
  lemma {:induction false} WellFormedVertex(toks: seq<Token>, k: nat, v: Vec3, num: real -> string, toReal: string -> real)
    requires k + 4 <= |toks| && toks[k].text == "vertex"
    requires toks[k + 1].text == num(v.x) && toks[k + 2].text == num(v.y) && toks[k + 3].text == num(v.z)
    ensures VertexAt(toks, k, toReal) == ReadBack(v, num, toReal) && VertexEnd(toks, k) == k + 4
  {
  }

  /** One well-formed facet in the stream reads as its triangle, and reading
      goes on right after its "endfacet". */
  lemma {:induction false} FacetAt(toks: seq<Token>, b: nat, t: Tri, num: real -> string, n: Vec3, toReal: string -> real)
    requires b + 21 <= |toks| && forall j :: 0 <= j < 21 ==> toks[b + j].text == FacetTokens(t, num, n)[j]
    ensures AsciiFacets(toks, b, toReal) == [ReadBackTri(t, num, toReal)] + AsciiFacets(toks, b + 21, toReal)
  {
    var f := FacetTokens(t, num, n);
    assert toks[b].text == f[0] == "facet";
    assert toks[b + 1].text == f[1] == "normal";
    ThreeVertices(toks, b, t, num, n, toReal);
    assert toks[b + 19].text == f[19] == "endloop";
    assert toks[b + 20].text == f[20] == "endfacet";
    assert AsciiFacets(toks, b + 19, toReal) == AsciiFacets(toks, b + 20, toReal);
  }

  /** The three vertices of a well-formed facet read as its triangle's corners. */
  lemma {:induction false} ThreeVertices(toks: seq<Token>, b: nat, t: Tri, num: real -> string, n: Vec3, toReal: string -> real)
    requires b + 21 <= |toks| && forall j :: 0 <= j < 21 ==> toks[b + j].text == FacetTokens(t, num, n)[j]
    ensures FacetVertices(toks, b + 2) == b + 7
    ensures FacetTri(toks, b + 2, toReal) == ReadBackTri(t, num, toReal)
    ensures FacetEnd(toks, b + 2) == b + 19
  {
    CornerAt(toks, b, t, num, n, toReal, 0);
    CornerAt(toks, b, t, num, n, toReal, 1);
    CornerAt(toks, b, t, num, n, toReal, 2);
    assert FacetVertices(toks, b + 2) == b + 7;
  }

  /** Corner i of a triangle. */
  function Corner(t: Tri, i: nat): (r: Vec3) {
    if i == 0 then t.v0 else if i == 1 then t.v1 else t.v2
  }

  /** Corner i of a well-formed facet reads back from its "vertex" line. */
  lemma {:induction false} CornerAt(toks: seq<Token>, b: nat, t: Tri, num: real -> string, n: Vec3, toReal: string -> real, i: nat)
    requires i < 3
    requires b + 21 <= |toks| && forall j :: 0 <= j < 21 ==> toks[b + j].text == FacetTokens(t, num, n)[j]
    ensures VertexAt(toks, b + 7 + 4 * i, toReal) == ReadBack(Corner(t, i), num, toReal) && VertexEnd(toks, b + 7 + 4 * i) == b + 11 + 4 * i
  {
    var f := FacetTokens(t, num, n);
    var k := b + 7 + 4 * i;
    assert toks[k].text == f[7 + 4 * i] && toks[k + 1].text == f[8 + 4 * i];
    assert toks[k + 2].text == f[9 + 4 * i] && toks[k + 3].text == f[10 + 4 * i];
    WellFormedVertex(toks, k, Corner(t, i), num, toReal);
  }

  /** The facets of a mesh one after another. */
  function FacetsTokens(tris: seq<Tri>, num: real -> string): (r: seq<string>)
    ensures |r| == 21 * |tris|
    decreases |tris|
  {
    if |tris| == 0 then [] else FacetTokens(tris[0], num, Origin) + FacetsTokens(tris[1..], num)
  }

  /** The token texts of a whole solid: "solid", a name, the facets, "endsolid". */
  function SolidTokens(name: string, tris: seq<Tri>, num: real -> string): (r: seq<string>) {
    ["solid", name] + FacetsTokens(tris, num) + ["endsolid"]
  }

  /** Reading a well-formed ASCII solid gives back its triangles, in order, each
      coordinate as the writer printed it; a mesh whose numbers print exactly comes
      back unchanged. */
  lemma {:induction false} AsciiRoundTrip(toks: seq<Token>, name: string, tris: seq<Tri>, num: real -> string, toReal: string -> real)
    requires name != "facet"
    requires |toks| == 3 + 21 * |tris|
    requires forall j :: 0 <= j < |toks| ==> toks[j].text == SolidTokens(name, tris, num)[j]
    ensures AsciiFacets(toks, 0, toReal) == ReadBackTris(tris, num, toReal)
    ensures PrintedExactly(tris, num, toReal) ==> AsciiFacets(toks, 0, toReal) == tris
  {
    var st := SolidTokens(name, tris, num);
    assert AsciiFacets(toks, 0, toReal) == AsciiFacets(toks, 2, toReal) by {
      assert toks[0].text == st[0] == "solid";
      assert toks[1].text == st[1] == name;
    }
    assert AsciiFacets(toks, 2, toReal) == ReadBackTris(tris, num, toReal) by {
      forall j | 0 <= j < 21 * |tris| ensures toks[2 + j].text == FacetsTokens(tris, num)[j] {
        assert st[2 + j] == FacetsTokens(tris, num)[j];
      }
      assert toks[2 + 21 * |tris|].text == st[2 + 21 * |tris|] == "endsolid";
      FacetsFrom(toks, 2, tris, num, toReal);
    }
  }

  lemma {:induction false} FacetsFrom(toks: seq<Token>, b: nat, tris: seq<Tri>, num: real -> string, toReal: string -> real)
    requires b + 21 * |tris| + 1 == |toks|
    requires forall j :: 0 <= j < 21 * |tris| ==> toks[b + j].text == FacetsTokens(tris, num)[j]
    requires toks[b + 21 * |tris|].text == "endsolid"
    ensures AsciiFacets(toks, b, toReal) == ReadBackTris(tris, num, toReal)
    decreases |tris|
  {
    if |tris| == 0 {
      assert AsciiFacets(toks, b, toReal) == AsciiFacets(toks, b + 1, toReal);
      NoFacetNoTriangles(toks, b + 1, toReal);
    } else {
      FirstFacet(toks, b, tris, num, toReal);
      RestTokens(toks, b, tris, num);
      FacetsFrom(toks, b + 21, tris[1..], num, toReal);
      assert ReadBackTris(tris, num, toReal) == [ReadBackTri(tris[0], num, toReal)] + ReadBackTris(tris[1..], num, toReal);
    }
  }

  /** The first facet of the stream reads as the first triangle. */
  lemma {:induction false} FirstFacet(toks: seq<Token>, b: nat, tris: seq<Tri>, num: real -> string, toReal: string -> real)
    requires |tris| > 0 && b + 21 * |tris| + 1 == |toks|
    requires forall j :: 0 <= j < 21 * |tris| ==> toks[b + j].text == FacetsTokens(tris, num)[j]
    ensures AsciiFacets(toks, b, toReal) == [ReadBackTri(tris[0], num, toReal)] + AsciiFacets(toks, b + 21, toReal)
  {
    var ft := FacetsTokens(tris, num);
    var f := FacetTokens(tris[0], num, Origin);
    assert ft == f + FacetsTokens(tris[1..], num);
    forall j | 0 <= j < 21 ensures toks[b + j].text == f[j] {
      assert ft[j] == f[j];
    }
    FacetAt(toks, b, tris[0], num, Origin, toReal);
  }

  /** After the first facet come the tokens of the other triangles. */
  lemma {:induction false} RestTokens(toks: seq<Token>, b: nat, tris: seq<Tri>, num: real -> string)
    requires |tris| > 0 && b + 21 * |tris| + 1 == |toks|
    requires forall j :: 0 <= j < 21 * |tris| ==> toks[b + j].text == FacetsTokens(tris, num)[j]
    ensures forall j :: 0 <= j < 21 * |tris[1..]| ==> toks[b + 21 + j].text == FacetsTokens(tris[1..], num)[j]
  {
    var ft := FacetsTokens(tris, num);
    assert ft == FacetTokens(tris[0], num, Origin) + FacetsTokens(tris[1..], num);
    forall j | 0 <= j < 21 * |tris[1..]| ensures toks[b + 21 + j].text == FacetsTokens(tris[1..], num)[j] {
      assert ft[21 + j] == FacetsTokens(tris[1..], num)[j];
    }
  }

  /** No "facet" token, no triangle. */
  lemma {:induction false} NoFacetNoTriangles(toks: seq<Token>, k: nat, toReal: string -> real)
    requires k <= |toks|
    requires forall j :: k <= j < |toks| ==> toks[j].text != "facet"
    ensures AsciiFacets(toks, k, toReal) == []
    decreases |toks| - k
  {
    if k < |toks| {
      NoFacetNoTriangles(toks, k + 1, toReal);
    }
  }

  // ---------------------------------------------------------------------
  // Binary STL

  /** The little-endian 32-bit word at p: p[0] | p[1]<<8 | p[2]<<16 | p[3]<<24
      (the shifted bytes do not overlap, so the OR is a sum). */
  function ReadU32Le(buf: seq<Byte>, p: nat): (w: nat)
    requires p + 4 <= |buf|
    ensures w < 0x1_0000_0000
  {
    (buf[p] as int) + (buf[p + 1] as int) * 0x100 + (buf[p + 2] as int) * 0x1_0000 + (buf[p + 3] as int) * 0x100_0000
  }

  /** The four bytes a little-endian writer stores for w. */
  function U32LeBytes(w: nat): (b: seq<Byte>)
    requires w < 0x1_0000_0000
    ensures |b| == 4
  {
    [w % 0x100, (w / 0x100) % 0x100, (w / 0x1_0000) % 0x100, w / 0x100_0000]
  }

  /** Writing a word and reading it back gives the word. */
  lemma {:induction false} ReadWord(buf: seq<Byte>, p: nat, w: nat)
    requires w < 0x1_0000_0000 && p + 4 <= |buf| && buf[p..p + 4] == U32LeBytes(w)
    ensures ReadU32Le(buf, p) == w
  {
    var q1, q2, q3 := w / 0x100, w / 0x1_0000, w / 0x100_0000;
    DivMod256(w, q1, w % 0x100);
    DivMod256(q1, q1 / 0x100, q1 % 0x100);
    DivMod256(q1 / 0x100, (q1 / 0x100) / 0x100, (q1 / 0x100) % 0x100);
    DivStep(w, q1, 0x100);
    DivStep(w, q2, 0x1_0000);
    assert buf[p] == U32LeBytes(w)[0] && buf[p + 1] == U32LeBytes(w)[1];
    assert buf[p + 2] == U32LeBytes(w)[2] && buf[p + 3] == U32LeBytes(w)[3];
  }

  /** Dividing by k and then by 256 is dividing by 256 k. */
  lemma DivStep(w: nat, q: nat, k: nat)
    requires k == 0x100 || k == 0x1_0000
    requires q == w / k
    ensures q / 0x100 == w / (k * 0x100)
  {
  }

  lemma {:induction false} DivMod256(w: int, q: int, r: int)
    requires w == q * 256 + r && 0 <= r < 256
    ensures w / 256 == q && w % 256 == r
  {
  }

  /** Reading four bytes as a word and writing the word gives the same four bytes. */
  lemma {:induction false} WordBytes(buf: seq<Byte>, p: nat)
    requires p + 4 <= |buf|
    ensures U32LeBytes(ReadU32Le(buf, p)) == buf[p..p + 4]
  {
    var b0, b1, b2, b3 := buf[p] as int, buf[p + 1] as int, buf[p + 2] as int, buf[p + 3] as int;
    var w := ReadU32Le(buf, p);
    DivMod256(w, b1 + 256 * (b2 + 256 * b3), b0);
    DivMod256(b1 + 256 * (b2 + 256 * b3), b2 + 256 * b3, b1);
    DivMod256(b2 + 256 * b3, b3, b2);
    assert w / 0x1_0000 == (w / 256) / 256;
    assert w / 0x100_0000 == ((w / 256) / 256) / 256;
  }

  /** read_float_le: the word reinterpreted as an IEEE single, by the given decoder. */
  function ReadFloatLe(buf: seq<Byte>, p: nat, f32: nat -> real): (r: real)
    requires p + 4 <= |buf|
  {
    f32(ReadU32Le(buf, p))
  }

  /** The triangle of the 50-byte record at `offset`: the vertices from the
      record's bytes 12..47; the normal (bytes 0..11) and attribute (48..49) are ignored. */
  function RecordTri(buf: seq<Byte>, offset: nat, f32: nat -> real): (r: Tri)
    requires offset + 50 <= |buf|
  {
    Tri(Vec3(ReadFloatLe(buf, offset + 12, f32), ReadFloatLe(buf, offset + 16, f32), ReadFloatLe(buf, offset + 20, f32)),
        Vec3(ReadFloatLe(buf, offset + 24, f32), ReadFloatLe(buf, offset + 28, f32), ReadFloatLe(buf, offset + 32, f32)),
        Vec3(ReadFloatLe(buf, offset + 36, f32), ReadFloatLe(buf, offset + 40, f32), ReadFloatLe(buf, offset + 44, f32)))
  }

  /** How many records are read: the declared count, cut down to the whole records present. */
  function RecordsRead(buf: seq<Byte>): (n: nat)
    requires |buf| >= 84
    ensures n <= ReadU32Le(buf, 80) && 84 + 50 * n <= |buf|
    ensures n == ReadU32Le(buf, 80) || |buf| < 84 + 50 * (n + 1)
  {
    var count := ReadU32Le(buf, 80);
    var whole := (|buf| - 84) / 50;
    if count < whole then count else whole
  }

  function BinaryTris(buf: seq<Byte>, f32: nat -> real): (r: seq<Tri>)
    requires |buf| >= 84
    ensures |r| == RecordsRead(buf)
    ensures forall i :: 0 <= i < |r| ==> r[i] == RecordTri(buf, 84 + 50 * i, f32)
  {
    seq(RecordsRead(buf), i requires 0 <= i < RecordsRead(buf) => RecordTri(buf, 84 + 50 * i, f32))
  }

  /** One more record read extends the triangles by that record's. */
  lemma BinaryTrisNext(buf: seq<Byte>, f32: nat -> real, i: nat)
    requires |buf| >= 84 && i < RecordsRead(buf)
    ensures BinaryTris(buf, f32)[..i + 1] == BinaryTris(buf, f32)[..i] + [RecordTri(buf, 84 + 50 * i, f32)]
  {
    var r := BinaryTris(buf, f32);
    assert r[..i + 1] == r[..i] + [r[i]];
  }

  /** parse_binary_stl: under 84 bytes it fails without touching `out`;
      otherwise it appends the records present and succeeds iff the list is non-empty. */
  method ParseBinaryStl(buf: seq<Byte>, f32: nat -> real, out: seq<Tri>) returns (ok: bool, res: seq<Tri>)
    ensures |buf| < 84 ==> !ok && res == out
    ensures |buf| >= 84 ==> res == out + BinaryTris(buf, f32) && (ok <==> |res| > 0)
  {
    if |buf| < 84 {
      return false, out;
    }
    var triCount := ReadU32Le(buf, 80);
    var offset := 84;
    var i := 0;
    res := out;
    while i < triCount && offset + 50 <= |buf|
      invariant 0 <= i <= RecordsRead(buf)
      invariant offset == 84 + 50 * i
      invariant res == out + BinaryTris(buf, f32)[..i]
      decreases triCount - i
    {
      BinaryTrisNext(buf, f32, i);
      res := res + [RecordTri(buf, offset, f32)];
      offset := offset + 50;
      i := i + 1;
    }
    assert i == RecordsRead(buf);
    assert BinaryTris(buf, f32)[..i] == BinaryTris(buf, f32);
    ok := |res| > 0;
  }

  /** Little-endian words laid end to end. */
  function WordsLe(ws: seq<nat>): (b: seq<Byte>)
    requires forall j :: 0 <= j < |ws| ==> ws[j] < 0x1_0000_0000
    ensures |b| == 4 * |ws|
    decreases |ws|
  {
    if |ws| == 0 then [] else U32LeBytes(ws[0]) + WordsLe(ws[1..])
  }

  lemma {:induction false} WordsLeAt(ws: seq<nat>, j: nat)
    requires forall i :: 0 <= i < |ws| ==> ws[i] < 0x1_0000_0000
    requires j < |ws|
    ensures WordsLe(ws)[4 * j..4 * j + 4] == U32LeBytes(ws[j])
    decreases j
  {
    if j > 0 {
      WordsLeAt(ws[1..], j - 1);
      assert WordsLe(ws)[4 * j..4 * j + 4] == WordsLe(ws[1..])[4 * (j - 1)..4 * (j - 1) + 4];
    }
  }

  /** The nine coordinate words of a triangle's vertices, in record order. */
  function TriWords(t: Tri, bits: real -> nat): (r: seq<nat>) {
    [bits(t.v0.x), bits(t.v0.y), bits(t.v0.z), bits(t.v1.x), bits(t.v1.y), bits(t.v1.z),
     bits(t.v2.x), bits(t.v2.y), bits(t.v2.z)]
  }

  /** One 50-byte record as a binary STL writer produces it: the normal's 12 bytes, the
      nine coordinate words, the 2 attribute bytes. */
  function RecordBytes(t: Tri, bits: real -> nat, normal: seq<Byte>, attr: seq<Byte>): (b: seq<Byte>)
    requires |normal| == 12 && |attr| == 2
    requires forall x :: bits(x) < 0x1_0000_0000
    ensures |b| == 50
  {
    normal + WordsLe(TriWords(t, bits)) + attr
  }

  lemma {:induction false} WordIn(buf: seq<Byte>, a: nat, ws: seq<nat>, j: nat)
    requires forall i :: 0 <= i < |ws| ==> ws[i] < 0x1_0000_0000
    requires j < |ws| && a + 4 * |ws| <= |buf| && buf[a..a + 4 * |ws|] == WordsLe(ws)
    ensures ReadU32Le(buf, a + 4 * j) == ws[j]
  {
    WordsLeAt(ws, j);
    SliceOfSlice(buf, a, a + 4 * |ws|, 4 * j, 4 * j + 4);
    ReadWord(buf, a + 4 * j, ws[j]);
  }

  /** A triangle as the binary reader sees it once a writer has stored each coordinate
      as the 32-bit word `bits(x)`: every coordinate becomes f32(bits(x)). */
  function DecodedTri(t: Tri, bits: real -> nat, f32: nat -> real): (r: Tri) {
    Tri(Vec3(f32(bits(t.v0.x)), f32(bits(t.v0.y)), f32(bits(t.v0.z))),
        Vec3(f32(bits(t.v1.x)), f32(bits(t.v1.y)), f32(bits(t.v1.z))),
        Vec3(f32(bits(t.v2.x)), f32(bits(t.v2.y)), f32(bits(t.v2.z))))
  }

  function DecodedTris(tris: seq<Tri>, bits: real -> nat, f32: nat -> real): (r: seq<Tri>)
    ensures |r| == |tris|
  {
    seq(|tris|, i requires 0 <= i < |tris| => DecodedTri(tris[i], bits, f32))
  }

  /** Every coordinate of the mesh is a float32 value: storing it and decoding it changes nothing. */
  predicate StoredExactly(tris: seq<Tri>, bits: real -> nat, f32: nat -> real) {
    forall i :: 0 <= i < |tris| ==> DecodedTri(tris[i], bits, f32) == tris[i]
  }

  /** A record written for a triangle reads back as that triangle's decoded words,
      wherever it sits in the buffer; its normal and attribute bytes play no part. */
  lemma {:induction false} RecordRoundTrip(buf: seq<Byte>, o: nat, t: Tri, bits: real -> nat, f32: nat -> real, normal: seq<Byte>, attr: seq<Byte>)
    requires |normal| == 12 && |attr| == 2
    requires forall x :: bits(x) < 0x1_0000_0000
    requires o + 50 <= |buf| && buf[o..o + 50] == RecordBytes(t, bits, normal, attr)
    ensures RecordTri(buf, o, f32) == DecodedTri(t, bits, f32)
  {
    var ws := TriWords(t, bits);
    var r := RecordBytes(t, bits, normal, attr);
    assert r[12..48] == WordsLe(ws);
    SliceOfSlice(buf, o, o + 50, 12, 48);
    WordIn(buf, o + 12, ws, 0);
    WordIn(buf, o + 12, ws, 1);
    WordIn(buf, o + 12, ws, 2);
    WordIn(buf, o + 12, ws, 3);
    WordIn(buf, o + 12, ws, 4);
    WordIn(buf, o + 12, ws, 5);
    WordIn(buf, o + 12, ws, 6);
    WordIn(buf, o + 12, ws, 7);
    WordIn(buf, o + 12, ws, 8);
  }

  const ZeroNormal: seq<Byte> := [0, 0, 0, 0, 0, 0, 0, 0, 0, 0, 0, 0]

  /** The records of a whole mesh, with zero normals and attributes. */
  function RecordsBytes(tris: seq<Tri>, bits: real -> nat): (b: seq<Byte>)
    requires forall x :: bits(x) < 0x1_0000_0000
    ensures |b| == 50 * |tris|
    decreases |tris|
  {
    if |tris| == 0 then []
    else RecordBytes(tris[0], bits, ZeroNormal, [0, 0]) + RecordsBytes(tris[1..], bits)
  }

  lemma {:induction false} RecordsBytesAt(tris: seq<Tri>, bits: real -> nat, i: nat)
    requires forall x :: bits(x) < 0x1_0000_0000
    requires i < |tris|
    ensures RecordsBytes(tris, bits)[50 * i..50 * i + 50] == RecordBytes(tris[i], bits, ZeroNormal, [0, 0])
    decreases i
  {
    if i > 0 {
      var first, rest := RecordBytes(tris[0], bits, ZeroNormal, [0, 0]), RecordsBytes(tris[1..], bits);
      assert RecordsBytes(tris, bits) == first + rest;
      RecordsBytesAt(tris[1..], bits, i - 1);
      assert tris[1..][i - 1] == tris[i];
      SliceAppendRight(first, rest, 50 * (i - 1), 50 * (i - 1) + 50);
    }
  }

  /** Reading a binary STL written for a mesh gives back its triangles, in order, each
      coordinate decoded from the word stored for it; a mesh of float32 values comes
      back unchanged. */
  lemma {:induction false} BinaryRoundTrip(header: seq<Byte>, tris: seq<Tri>, bits: real -> nat, f32: nat -> real)
    requires |header| == 80 && |tris| < 0x1_0000_0000
    requires forall x :: bits(x) < 0x1_0000_0000
    ensures BinaryTris(header + U32LeBytes(|tris|) + RecordsBytes(tris, bits), f32) == DecodedTris(tris, bits, f32)
    ensures StoredExactly(tris, bits, f32) ==> BinaryTris(header + U32LeBytes(|tris|) + RecordsBytes(tris, bits), f32) == tris
  {
    var buf := header + U32LeBytes(|tris|) + RecordsBytes(tris, bits);
    assert buf[80..84] == U32LeBytes(|tris|);
    ReadWord(buf, 80, |tris|);
    assert |buf| == 84 + 50 * |tris|;
    assert RecordsRead(buf) == |tris|;
    var r := BinaryTris(buf, f32);
    forall i | 0 <= i < |tris| ensures r[i] == DecodedTri(tris[i], bits, f32) {
      RecordAtOffset(header, tris, bits, f32, i);
    }
  }

  lemma {:induction false} RecordAtOffset(header: seq<Byte>, tris: seq<Tri>, bits: real -> nat, f32: nat -> real, i: nat)
    requires |header| == 80 && |tris| < 0x1_0000_0000 && i < |tris|
    requires forall x :: bits(x) < 0x1_0000_0000
    ensures RecordTri(header + U32LeBytes(|tris|) + RecordsBytes(tris, bits), 84 + 50 * i, f32) == DecodedTri(tris[i], bits, f32)
  {
    var buf := header + U32LeBytes(|tris|) + RecordsBytes(tris, bits);
    RecordIn(header, tris, bits, i);
    RecordRoundTrip(buf, 84 + 50 * i, tris[i], bits, f32, ZeroNormal, [0, 0]);
  }

  /** Record i of a written file sits at offset 84 + 50·i. */
  lemma {:induction false} RecordIn(header: seq<Byte>, tris: seq<Tri>, bits: real -> nat, i: nat)
    requires |header| == 80 && |tris| < 0x1_0000_0000 && i < |tris|
    requires forall x :: bits(x) < 0x1_0000_0000
    ensures var buf := header + U32LeBytes(|tris|) + RecordsBytes(tris, bits);
      84 + 50 * i + 50 <= |buf| && buf[84 + 50 * i..84 + 50 * i + 50] == RecordBytes(tris[i], bits, ZeroNormal, [0, 0])
  {
    var recs := RecordsBytes(tris, bits);
    var buf := header + U32LeBytes(|tris|) + recs;
    RecordsBytesAt(tris, bits, i);
    assert buf[84..|buf|] == recs;
    SliceOfSlice(buf, 84, |buf|, 50 * i, 50 * i + 50);
  }

  // ---------------------------------------------------------------------
  // load_stl

  /** What the three attempts of load_stl give for a readable file: ASCII first
      when the buffer looks like ASCII, then binary, then ASCII once more; the
      first attempt that leaves a non-empty list wins. */
  function LoadAttempts(buf: seq<Byte>, toReal: string -> real, f32: nat -> real, out: seq<Tri>): (r: (bool, seq<Tri>))
  {
    var ascii := out + AsciiFacets(Tokenize(AsText(buf), 0), 0, toReal);
    if LooksAscii(buf) && |ascii| > 0 then (true, ascii)
    else
      var afterAscii := if LooksAscii(buf) then ascii else out;
      var binary := if |buf| < 84 then afterAscii else afterAscii + BinaryTris(buf, f32);
      if |buf| >= 84 && |binary| > 0 then (true, binary)
      else
        var last := binary + AsciiFacets(Tokenize(AsText(buf), 0), 0, toReal);
        (|last| > 0, last)
  }

  /** load_stl: an unreadable file (None) fails and leaves `out` alone. */
  method LoadStl(file: Option<seq<Byte>>, toReal: string -> real, f32: nat -> real, out: seq<Tri>) returns (ok: bool, res: seq<Tri>)
    ensures file.None? ==> !ok && res == out
    ensures file.Some? ==> (ok, res) == LoadAttempts(file.value, toReal, f32, out)
  {
    if file.None? {
      return false, out;
    }
    var buf := file.value;
    res := out;
    var likely := IsLikelyAsciiStl(buf);
    if likely {
      ok, res := ParseAsciiStl(AsText(buf), toReal, res);
      if ok {
        return;
      }
    }
    ok, res := ParseBinaryStl(buf, f32, res);
    if ok {
      return;
    }
    ok, res := ParseAsciiStl(AsText(buf), toReal, res);
  }

  /** The three attempts only ever append: whatever was in `out` stays at the front,
      and a successful load from an empty list has read at least one triangle. */
  lemma {:induction false} LoadKeepsOut(buf: seq<Byte>, toReal: string -> real, f32: nat -> real, out: seq<Tri>)
    ensures out <= LoadAttempts(buf, toReal, f32, out).1
    ensures LoadAttempts(buf, toReal, f32, out).0 <==> |LoadAttempts(buf, toReal, f32, out).1| > 0
  {
  }

  /** A binary file too short for a header that does not parse as ASCII either is refused. */
  lemma {:induction false} ShortNonAsciiRefused(buf: seq<Byte>, toReal: string -> real, f32: nat -> real)
    requires |buf| < 84 && AsciiFacets(Tokenize(AsText(buf), 0), 0, toReal) == []
    ensures LoadAttempts(buf, toReal, f32, []) == (false, [])
  {
  }
}
