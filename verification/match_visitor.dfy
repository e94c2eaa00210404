/**
  The visitor the matcher tests run over a parsed file: it is offered the
  method declarations, constructor declarations, invocations, `new`
  expressions and method references in source order, asks the matcher about
  each (on the tree or on its symbol), and appends the line of every match
  to its list.
*/
module MatchVisitor {
  import opened TypeHierarchy
  import opened Matchers

  /** A visited tree with the line it starts on. */
  datatype Located = Located(node: Node, line: int)

  predicate Hit(h: Hierarchy, mm: MethodMatchers, useSymbol: bool, n: Node)
  {
    if useSymbol then MatchesSymbol(h, mm, n) else MatchesTree(h, mm, n)
  }

  /** The lines the visitor collects: those of the matching trees, in visiting order. */
  function MatchedLines(h: Hierarchy, mm: MethodMatchers, useSymbol: bool, ts: seq<Located>): (r: seq<int>)
    ensures |r| <= |ts|
  {
    if ts == [] then []
    else LineIfHit(h, mm, useSymbol, ts[0]) + MatchedLines(h, mm, useSymbol, ts[1..])
  }

  /** The line of one visited tree, if it matches. */
  function LineIfHit(h: Hierarchy, mm: MethodMatchers, useSymbol: bool, t: Located): seq<int>
  {
    if Hit(h, mm, useSymbol, t.node) then [t.line] else []
  }

  /** Collecting over two lists one after the other is collecting over each in turn. */
  lemma {:induction false} MatchedLinesConcat(h: Hierarchy, mm: MethodMatchers, useSymbol: bool, a: seq<Located>, b: seq<Located>)
    ensures MatchedLines(h, mm, useSymbol, a + b) == MatchedLines(h, mm, useSymbol, a) + MatchedLines(h, mm, useSymbol, b)
  {
    if a == [] {
      assert a + b == b;
    } else {
      var first := LineIfHit(h, mm, useSymbol, a[0]);
      assert (a + b)[0] == a[0] && (a + b)[1..] == a[1..] + b;
      MatchedLinesConcat(h, mm, useSymbol, a[1..], b);
      calc {
        MatchedLines(h, mm, useSymbol, a + b);
        first + MatchedLines(h, mm, useSymbol, a[1..] + b);
        first + (MatchedLines(h, mm, useSymbol, a[1..]) + MatchedLines(h, mm, useSymbol, b));
        (first + MatchedLines(h, mm, useSymbol, a[1..])) + MatchedLines(h, mm, useSymbol, b);
      }
    }
  }

  /** Visiting one more tree appends its line exactly when it matches. */
  lemma MatchedLinesAppend(h: Hierarchy, mm: MethodMatchers, useSymbol: bool, ts: seq<Located>, t: Located)
    ensures MatchedLines(h, mm, useSymbol, ts + [t])
         == MatchedLines(h, mm, useSymbol, ts) + (if Hit(h, mm, useSymbol, t.node) then [t.line] else [])
  {
    MatchedLinesConcat(h, mm, useSymbol, ts, [t]);
    assert [t][1..] == [];
  }

  /** A line is collected exactly when some tree on it matches. */
  lemma {:induction false} MatchedLinesMembership(h: Hierarchy, mm: MethodMatchers, useSymbol: bool, ts: seq<Located>, l: int)
    ensures l in MatchedLines(h, mm, useSymbol, ts) <==>
              exists i :: 0 <= i < |ts| && ts[i].line == l && Hit(h, mm, useSymbol, ts[i].node)
  {
    if ts != [] {
      MatchedLinesMembership(h, mm, useSymbol, ts[1..], l);
      assert forall i :: 1 <= i < |ts| ==> ts[i] == ts[1..][i - 1];
      if l in MatchedLines(h, mm, useSymbol, ts[1..]) {
        var i :| 0 <= i < |ts[1..]| && ts[1..][i].line == l && Hit(h, mm, useSymbol, ts[1..][i].node);
        assert ts[i + 1] == ts[1..][i];
      }
    }
  }

  /** The lines at positions `[i, j)` whose pick is set, in order. */
  function PickedRange(lines: seq<int>, picks: seq<bool>, i: nat, j: nat): seq<int>
    requires |picks| == |lines| && i <= j <= |lines|
    decreases j - i
  {
    if i == j then [] else (if picks[i] then [lines[i]] else []) + PickedRange(lines, picks, i + 1, j)
  }

  /** Picking over `[i, k)` is picking over `[i, j)` and then over `[j, k)`. */
  lemma {:induction false} PickedRangeSplit(lines: seq<int>, picks: seq<bool>, i: nat, j: nat, k: nat)
    requires |picks| == |lines| && i <= j <= k <= |lines|
    ensures PickedRange(lines, picks, i, k) == PickedRange(lines, picks, i, j) + PickedRange(lines, picks, j, k)
    decreases j - i
  {
    if i < j {
      PickedRangeSplit(lines, picks, i + 1, j, k);
    }
  }

  /** One step from the end of a range: a picked position puts its line in front of the rest. */
  lemma PickedIn(lines: seq<int>, picks: seq<bool>, i: nat, j: nat, line: int, rest: seq<int>)
    requires |picks| == |lines| && i < j <= |lines| && picks[i] && lines[i] == line
    requires PickedRange(lines, picks, i + 1, j) == rest
    ensures PickedRange(lines, picks, i, j) == [line] + rest
  {
  }

  /** One step from the end of a range: a position not picked adds nothing. */
  lemma PickedOut(lines: seq<int>, picks: seq<bool>, i: nat, j: nat, rest: seq<int>)
    requires |picks| == |lines| && i < j <= |lines| && !picks[i]
    requires PickedRange(lines, picks, i + 1, j) == rest
    ensures PickedRange(lines, picks, i, j) == rest
  {
  }

  lemma {:induction false} MatchedLinesPickedFrom(h: Hierarchy, mm: MethodMatchers, useSymbol: bool, ts: seq<Located>, lines: seq<int>, picks: seq<bool>, i: nat)
    requires |lines| == |ts| && |picks| == |ts| && i <= |ts|
    requires forall k :: i <= k < |ts| ==> ts[k].line == lines[k]
    requires forall k :: i <= k < |ts| ==> Hit(h, mm, useSymbol, ts[k].node) == picks[k]
    ensures MatchedLines(h, mm, useSymbol, ts[i..]) == PickedRange(lines, picks, i, |ts|)
    decreases |ts| - i
  {
    if i < |ts| {
      assert ts[i..][1..] == ts[i + 1..];
      MatchedLinesPickedFrom(h, mm, useSymbol, ts, lines, picks, i + 1);
    }
  }

  /**
    Once it is known which trees match, the collection is the lines of
    exactly those trees, in order.
  */
  lemma MatchedLinesPicked(h: Hierarchy, mm: MethodMatchers, useSymbol: bool, ts: seq<Located>, lines: seq<int>, picks: seq<bool>)
    requires |lines| == |ts| && |picks| == |ts|
    requires forall k :: 0 <= k < |ts| ==> ts[k].line == lines[k]
    requires forall k :: 0 <= k < |ts| ==> Hit(h, mm, useSymbol, ts[k].node) == picks[k]
    ensures MatchedLines(h, mm, useSymbol, ts) == PickedRange(lines, picks, 0, |ts|)
  {
    MatchedLinesPickedFrom(h, mm, useSymbol, ts, lines, picks, 0);
    assert ts[0..] == ts;
  }

  /** `MethodMatchers.empty()` collects no line at all. */
  lemma {:induction false} EmptyCollectsNothing(h: Hierarchy, useSymbol: bool, ts: seq<Located>)
    ensures MatchedLines(h, Empty(), useSymbol, ts) == []
  {
    if ts != [] {
      EmptyCollectsNothing(h, useSymbol, ts[1..]);
    }
  }

  class Visitor {
    const h: Hierarchy
    const matcher: MethodMatchers
    const useSymbol: bool
    var matches: seq<int>

    constructor(h: Hierarchy, matcher: MethodMatchers, useSymbol: bool)
      ensures this.h == h && this.matcher == matcher && this.useSymbol == useSymbol
      ensures matches == []
    {
      this.h, this.matcher, this.useSymbol := h, matcher, useSymbol;
      matches := [];
    }

    method VisitNode(t: Located)
      modifies this
      ensures matches == old(matches) + (if Hit(h, matcher, useSymbol, t.node) then [t.line] else [])
    {
      var isMatch := if useSymbol then MatchesSymbol(h, matcher, t.node) else MatchesTree(h, matcher, t.node);
      if isMatch {
        matches := matches + [t.line];
      }
    }
  }

  /** Runs the visitor over the trees of a file, in order, and returns what it collected. */
  method FindMatches(h: Hierarchy, mm: MethodMatchers, useSymbol: bool, ts: seq<Located>) returns (lines: seq<int>)
    ensures lines == MatchedLines(h, mm, useSymbol, ts)
  {
    var v := new Visitor(h, mm, useSymbol);
    var i := 0;
    while i < |ts|
      invariant 0 <= i <= |ts|
      invariant v.h == h && v.matcher == mm && v.useSymbol == useSymbol
      invariant v.matches == MatchedLines(h, mm, useSymbol, ts[..i])
    {
      MatchedLinesAppend(h, mm, useSymbol, ts[..i], ts[i]);
      assert ts[..i + 1] == ts[..i] + [ts[i]];
      v.VisitNode(ts[i]);
      i := i + 1;
    }
    assert ts[..|ts|] == ts;
    lines := v.matches;
  }
}
