// What the G-code post-processors write: each input line copied as it was
// read, with generated lines placed around it.

module Rewrite {
  import opened Common
  import opened GText

  /** One write to the output file: an input line copied as read (with its
      own line end), or a generated line. */
  datatype Write = Copy(text: string) | Emit(line: Line)

  /** The input lines among the writes, in order. */
  function Copies(ws: seq<Write>): (r: seq<string>)
    ensures |r| <= |ws|
  {
    if ws == [] then []
    else Copies(ws[..|ws| - 1]) + (if ws[|ws| - 1].Copy? then [ws[|ws| - 1].text] else [])
  }

  /** Copies distributes over concatenation. */
  lemma {:induction false} CopiesAppend(a: seq<Write>, b: seq<Write>)
    ensures Copies(a + b) == Copies(a) + Copies(b)
    decreases |b|
  {
    if b == [] {
      assert a + b == a;
    } else {
      var c := a + b;
      assert c[..|c| - 1] == a + b[..|b| - 1];
      CopiesAppend(a, b[..|b| - 1]);
      AppendAssoc(Copies(a), Copies(b[..|b| - 1]),
                  if b[|b| - 1].Copy? then [b[|b| - 1].text] else []);
    }
  }

  /** Writes around the copied lines copy nothing more. */
  lemma CopiesBetween(a: seq<Write>, b: seq<Write>, c: seq<Write>)
    requires Copies(a) == [] && Copies(c) == []
    ensures Copies(a + b + c) == Copies(b)
  {
    CopiesAppend(a + b, c);
    CopiesAppend(a, b);
  }

  /** Generated lines, as writes. */
  function Emits(g: seq<Line>): (r: seq<Write>)
    ensures |r| == |g|
    ensures forall i :: 0 <= i < |g| ==> r[i] == Emit(g[i])
  {
    if g == [] then [] else Emits(g[..|g| - 1]) + [Emit(g[|g| - 1])]
  }

  /** Generated lines copy no input line. */
  lemma {:induction false} EmitsCopyNothing(g: seq<Line>)
    ensures Copies(Emits(g)) == []
    decreases |g|
  {
    if g != [] {
      var e := Emits(g);
      assert e[..|e| - 1] == Emits(g[..|g| - 1]);
      EmitsCopyNothing(g[..|g| - 1]);
    }
  }

  /** A copied line on its own. */
  lemma CopyOne(line: string)
    ensures Copies([Copy(line)]) == [line]
  {
    assert [Copy(line)][..0] == [];
  }

  /** Generated writes and then a copied line add that line to the copies. */
  lemma CopiesThenLine(a: seq<Write>, c: seq<Write>, line: string)
    requires Copies(c) == []
    ensures Copies(a + c + [Copy(line)]) == Copies(a) + [line]
  {
    var w := a + c + [Copy(line)];
    assert w[..|w| - 1] == a + c;
    CopiesAppend(a, c);
  }

  /** The writes for the first n input lines, with before(i) written ahead
      of line i: the shape of every rewriter that only inserts lines. */
  function Around(lines: seq<string>, n: nat, before: nat -> seq<Write>): (r: seq<Write>)
    requires n <= |lines|
  {
    if n == 0 then []
    else Around(lines, n - 1, before) + before(n - 1) + [Copy(lines[n - 1])]
  }

  /** Such a rewrite copies the first n input lines once each, in order,
      when nothing written between them is an input line. */
  lemma {:induction false} AroundCopies(lines: seq<string>, n: nat, before: nat -> seq<Write>)
    requires n <= |lines|
    requires forall i :: 0 <= i < n ==> Copies(before(i)) == []
    ensures Copies(Around(lines, n, before)) == lines[..n]
  {
    if n > 0 {
      AroundCopies(lines, n - 1, before);
      CopiesThenLine(Around(lines, n - 1, before), before(n - 1), lines[n - 1]);
      TakeSnoc(lines, n - 1);
    }
  }

  /** A generated line that only the writes ahead of line j hold, once,
      occurs once in the rewrite when line j is among the first n lines,
      and not at all otherwise. */
  lemma {:induction false} AroundCountOnce(lines: seq<string>, n: nat, before: nat -> seq<Write>, w: Write, j: int)
    requires n <= |lines| && w.Emit?
    requires forall i :: 0 <= i < n ==> multiset(before(i))[w] == if i == j then 1 else 0
    ensures multiset(Around(lines, n, before))[w] == if 0 <= j < n then 1 else 0
  {
    if n > 0 {
      AroundCountOnce(lines, n - 1, before, w, j);
      var a := Around(lines, n - 1, before);
      assert multiset(a + before(n - 1) + [Copy(lines[n - 1])])
        == multiset(a) + multiset(before(n - 1)) + multiset([Copy(lines[n - 1])]);
    }
  }

  /** The writes for the first n input lines, line i giving per(i): the shape
      of a rewriter that decides around each line what to add. */
  function Joined(n: nat, per: nat -> seq<Write>): (r: seq<Write>) {
    if n == 0 then [] else Joined(n - 1, per) + per(n - 1)
  }

  /** When the writes for line i copy exactly that line, the first n lines
      are copied once each, in order. */
  lemma {:induction false} JoinedCopies(lines: seq<string>, n: nat, per: nat -> seq<Write>)
    requires n <= |lines|
    requires forall i :: 0 <= i < n ==> Copies(per(i)) == [lines[i]]
    ensures Copies(Joined(n, per)) == lines[..n]
  {
    if n > 0 {
      JoinedCopies(lines, n - 1, per);
      CopiesAppend(Joined(n - 1, per), per(n - 1));
      TakeSnoc(lines, n - 1);
    }
  }

  /** A write that the writes for line i hold once exactly when a condition
      first becomes true at line i, and never otherwise, occurs once in the
      first n lines' writes when the condition holds after them, and not at
      all otherwise. */
  lemma {:induction false} JoinedCountOnce(n: nat, per: nat -> seq<Write>, w: Write, seen: nat -> bool)
    requires !seen(0)
    requires forall i :: 0 <= i < n ==> (seen(i) ==> seen(i + 1))
    requires forall i :: 0 <= i < n ==> multiset(per(i))[w] == if !seen(i) && seen(i + 1) then 1 else 0
    ensures multiset(Joined(n, per))[w] == if seen(n) then 1 else 0
  {
    if n > 0 {
      JoinedCountOnce(n - 1, per, w, seen);
      CountAppend(Joined(n - 1, per), per(n - 1), w);
    }
  }

  /** Line i is written right after the lines written ahead of it. */
  lemma {:induction false} AroundAt(lines: seq<string>, i: nat, n: nat, before: nat -> seq<Write>)
    requires i < n <= |lines|
    ensures Around(lines, i, before) + before(i) + [Copy(lines[i])] <= Around(lines, n, before)
    decreases n
  {
    if i + 1 < n {
      AroundAt(lines, i, n - 1, before);
      PrefixExtend(Around(lines, i, before) + before(i) + [Copy(lines[i])], Around(lines, n - 1, before),
        before(n - 1) + [Copy(lines[n - 1])]);
      AppendAssoc(Around(lines, n - 1, before), before(n - 1), [Copy(lines[n - 1])]);
    }
  }

  /** A generated line occurs among the writes as often as among the lines. */
  lemma {:induction false} EmitsCount(g: seq<Line>, l: Line)
    ensures multiset(Emits(g))[Emit(l)] == multiset(g)[l]
    decreases |g|
  {
    if g != [] {
      var front := g[..|g| - 1];
      EmitsCount(front, l);
      assert g == front + [g[|g| - 1]];
      assert multiset(Emits(g)) == multiset(Emits(front)) + multiset([Emit(g[|g| - 1])]);
    }
  }

  /** Input lines copied as they are. */
  function CopyAll(ls: seq<string>): (r: seq<Write>)
    ensures |r| == |ls|
    ensures forall i :: 0 <= i < |ls| ==> r[i] == Copy(ls[i])
  {
    if ls == [] then [] else CopyAll(ls[..|ls| - 1]) + [Copy(ls[|ls| - 1])]
  }

  /** Copying lines copies exactly those lines. */
  lemma {:induction false} CopyAllCopies(ls: seq<string>)
    ensures Copies(CopyAll(ls)) == ls
    decreases |ls|
  {
    if ls != [] {
      var c := CopyAll(ls);
      assert c[..|c| - 1] == CopyAll(ls[..|ls| - 1]);
      CopyAllCopies(ls[..|ls| - 1]);
    }
  }

  /** Generated lines ahead of copied ones leave exactly the copied lines. */
  lemma EmitsThenCopies(g: seq<Line>, ls: seq<string>)
    ensures Copies(Emits(g) + CopyAll(ls)) == ls
  {
    EmitsCopyNothing(g);
    CopyAllCopies(ls);
    CopiesAppend(Emits(g), CopyAll(ls));
  }

  /** Copying one more line. */
  lemma CopyAllSnoc(ls: seq<string>, line: string)
    ensures CopyAll(ls + [line]) == CopyAll(ls) + [Copy(line)]
  {
    assert (ls + [line])[..|ls|] == ls;
  }
}
