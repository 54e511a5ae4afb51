// Python's re.search for the patterns the G-code post-processors build: a
// height or a command followed by '*', as in "Z" + str(height) + "*" and
// "G28*".

module LineMatch {
  import opened Common

  /** One pattern character against one text character: '.' is any
      character but a line end, every other character stands for itself. */
  predicate CharMatches(p: char, c: char) {
    if p == '.' then c != '\n' else c == p
  }

  /** p matches s at position k, character by character. */
  predicate MatchesAt(p: string, s: string, k: nat) {
    k + |p| <= |s| && forall j :: 0 <= j < |p| ==> CharMatches(p[j], s[k + j])
  }

  /** re.search(p + "*", s) is not None: the star lets the last character of
      p occur zero times, so a match of the rest anywhere in s is enough. */
  predicate StarSearch(p: string, s: string)
    requires |p| > 0
  {
    Occurs(p[..|p| - 1], s)
  }

  /** p matches somewhere in s. */
  predicate Occurs(p: string, s: string) {
    exists k :: 0 <= k <= |s| && MatchesAt(p, s, k)
  }

  /** Without dots a pattern matches exactly where its own text occurs. */
  lemma LiteralMatch(p: string, s: string, k: nat)
    requires '.' !in p
    ensures MatchesAt(p, s, k) <==> k + |p| <= |s| && s[k..k + |p|] == p
  {
    if k + |p| <= |s| && s[k..k + |p|] == p {
      forall j | 0 <= j < |p| ensures CharMatches(p[j], s[k + j]) {
        assert s[k..k + |p|][j] == s[k + j];
      }
    }
    if MatchesAt(p, s, k) {
      assert forall j :: 0 <= j < |p| ==> p[j] != '.';
    }
  }

  /** Without dots, a starred pattern is found exactly when the text before
      its last character occurs in the line. */
  lemma StarSearchContains(p: string, s: string)
    requires |p| > 0 && '.' !in p
    ensures StarSearch(p, s) <==> Contains(s, p[..|p| - 1])
  {
    var q := p[..|p| - 1];
    assert '.' !in q by {
      assert forall j :: 0 <= j < |q| ==> q[j] == p[j];
    }
    if StarSearch(p, s) {
      var k :| 0 <= k <= |s| && MatchesAt(q, s, k);
      LiteralMatch(q, s, k);
      ContainsAt(s, q, k);
    }
    if Contains(s, q) {
      var k := IndexOf(s, q);
      LiteralMatch(q, s, k);
    }
  }

  /** "G28*" finds every line holding "G2": arcs (G2), G20, G21, G28, G29. */
  lemma HomingPattern(s: string)
    ensures StarSearch("G28", s) <==> Contains(s, "G2")
  {
    StarSearchContains("G28", s);
    assert "G28"[..2] == "G2";
  }

  /** The pattern always finds its own text, dots included. */
  lemma FindsItsOwnText(p: string, s: string)
    requires |p| > 0 && Contains(s, p)
    ensures StarSearch(p, s)
  {
    var k := IndexOf(s, p);
    var q := p[..|p| - 1];
    forall j | 0 <= j < |q| ensures CharMatches(q[j], s[k + j]) {
      assert s[k..k + |p|][j] == s[k + j];
    }
    assert MatchesAt(q, s, k);
  }

  /** 'Z', '2', a character other than a line end, then '2', at k. */
  predicate ZTwoAnyTwo(s: string, k: nat) {
    k + 3 < |s| && s[k] == 'Z' && s[k + 1] == '2' && s[k + 2] != '\n' && s[k + 3] == '2'
  }

  /** The four pattern characters of "Z2.2" one by one. */
  lemma HeightMatchesAt(s: string, k: nat)
    ensures MatchesAt("Z2.2", s, k) <==> ZTwoAnyTwo(s, k)
  {
    var q := "Z2.2";
    if MatchesAt(q, s, k) {
      assert CharMatches(q[0], s[k]) && CharMatches(q[1], s[k + 1]);
      assert CharMatches(q[2], s[k + 2]) && CharMatches(q[3], s[k + 3]);
    }
    if ZTwoAnyTwo(s, k) {
      forall j | 0 <= j < 4 ensures CharMatches(q[j], s[k + j]) {
        if j == 0 {} else if j == 1 {} else if j == 2 {} else {}
      }
    }
  }

  /** "Z2.24*" is 'Z', '2', any character but a line end, then '2': the
      trailing '4' is optional. */
  lemma HeightPattern(s: string)
    ensures StarSearch("Z2.24", s) <==> exists k :: 0 <= k && ZTwoAnyTwo(s, k)
  {
    assert "Z2.24"[..4] == "Z2.2";
    if Occurs("Z2.2", s) {
      var k :| 0 <= k <= |s| && MatchesAt("Z2.2", s, k);
      HeightMatchesAt(s, k);
    }
    if exists k :: 0 <= k && ZTwoAnyTwo(s, k) {
      var k :| 0 <= k && ZTwoAnyTwo(s, k);
      HeightMatchesAt(s, k);
    }
  }

  /** The height pattern also finds neighbouring layers, not only Z2.24. */
  lemma HeightPatternNeighbours()
    ensures StarSearch("Z2.24", "G1 Z2.2\n")
    ensures StarSearch("Z2.24", "G1 Z2.28\n")
    ensures StarSearch("Z2.24", "G1 Z212\n")
  {
    HeightPattern("G1 Z2.2\n");
    assert ZTwoAnyTwo("G1 Z2.2\n", 3);
    HeightPattern("G1 Z2.28\n");
    assert ZTwoAnyTwo("G1 Z2.28\n", 3);
    HeightPattern("G1 Z212\n");
    assert ZTwoAnyTwo("G1 Z212\n", 3);
  }

  /** An empty height leaves "Z*", which matches every line. */
  lemma EmptyHeightMatchesAll(s: string)
    ensures StarSearch("Z" + "", s)
  {
    assert ("Z" + "")[..0] == "";
    assert MatchesAt("", s, 0);
  }

  /** A line without the pattern's first character has no match, when that
      character is not the last one and not a dot. */
  lemma MissingFirstChar(p: string, s: string)
    requires |p| >= 2 && p[0] != '.' && p[0] !in s
    ensures !StarSearch(p, s)
  {
    var q := p[..|p| - 1];
    forall k | 0 <= k < |s| ensures !CharMatches(q[0], s[k]) {
      assert s[k] in s;
    }
  }
}
