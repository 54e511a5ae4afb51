// The fixed lines of the ASCII STL text DXF2STL's saveSTL writes around each facet's
// vertex lines, and the fact its loadSTL relies on when reading them back: none of
// them contains the word "vertex".
module AsciiStl {
  import opened Common

  const SolidLine: string := "solid dxf_export"
  const EndSolidLine: string := "endsolid"
  const FacetLine: string := "facet normal 0 0 1"
  const OuterLoopLine: string := "outer loop"
  const EndLoopLine: string := "endloop"
  const EndFacetLine: string := "endfacet"

  /** A character missing from s rules out any substring holding it. */
  lemma {:induction false} NotContainsMissing(s: string, sub: string, c: char)
    requires c in sub && c !in s
    ensures !Contains(s, sub)
    decreases |s|
  {
    if |s| > 0 {
      assert !(sub <= s);
      NotContainsMissing(s[1..], sub, c);
    } else {
      assert !(sub <= s);
    }
  }

  // No frame line holds "vertex": none of them has a v. One lemma per line keeps
  // each proof to a single string.

  lemma SolidLineHasNoVertex()
    ensures !Contains(SolidLine, "vertex")
  {
    NotContainsMissing(SolidLine, "vertex", 'v');
  }

  lemma EndSolidLineHasNoVertex()
    ensures !Contains(EndSolidLine, "vertex")
  {
    NotContainsMissing(EndSolidLine, "vertex", 'v');
  }

  lemma FacetLineHasNoVertex()
    ensures !Contains(FacetLine, "vertex")
  {
    NotContainsMissing(FacetLine, "vertex", 'v');
  }

  lemma OuterLoopLineHasNoVertex()
    ensures !Contains(OuterLoopLine, "vertex")
  {
    NotContainsMissing(OuterLoopLine, "vertex", 'v');
  }

  lemma EndLoopLineHasNoVertex()
    ensures !Contains(EndLoopLine, "vertex")
  {
    NotContainsMissing(EndLoopLine, "vertex", 'v');
  }

  lemma EndFacetLineHasNoVertex()
    ensures !Contains(EndFacetLine, "vertex")
  {
    NotContainsMissing(EndFacetLine, "vertex", 'v');
  }
}
