/**
  The matcher tests, replayed on the model: each lemma states what one
  assertion of the tests expects, on the trees of the test's source text.
*/
module MatcherScenarios {
  import opened Wrappers
  import opened TypeHierarchy
  import opened Criteria
  import opened Matchers
  import opened MatcherBuilder
  import opened MatchVisitor

  const INT: JType := Known("int")

  // ---------------------------------------------------------------------------
  // test_tree_and_symbol_and_or

  const PKG_A: JType := Known("pkg.A")

  const TREE_AND_SYMBOL_HIERARCHY: Hierarchy := map["pkg.A" := ["java.lang.Object"]]

  const TREE_AND_SYMBOL_TREES: seq<Located> := [
    Located(Declaration(Subject(PKG_A, CONSTRUCTOR_NAME, [INT], true)), 4),
    Located(Declaration(Subject(PKG_A, "f", [INT], true)), 5),
    Located(Declaration(Subject(PKG_A, "main", [], true)), 6),
    Located(NewClass(Subject(PKG_A, CONSTRUCTOR_NAME, [INT], true)), 7),
    Located(Invocation(Qualified(PKG_A), Subject(PKG_A, "f", [INT], true)), 8),
    Located(Reference(PKG_A, Subject(PKG_A, "f", [INT], true)), 9),
    Located(Reference(PKG_A, Subject(Unknown, CONSTRUCTOR_NAME, [], false)), 10)
  ]

  const F_INT: MethodMatcher := MethodMatcher([ExactType("pkg.A")], [Names({"f"})], [ExactParameters([ExactType("int")])])

  const CTOR_INT: MethodMatcher := MethodMatcher([ExactType("pkg.A")], [Constructor], [ExactParameters([ExactType("int")])])

  /** The line of every tree, in visiting order. */
  lemma TreeAndSymbolTreeLines()
    ensures |TREE_AND_SYMBOL_TREES| == 7
    ensures forall k :: 0 <= k < 7 ==> TREE_AND_SYMBOL_TREES[k].line == [4, 5, 6, 7, 8, 9, 10][k]
  {
  }

  /** `ofType("pkg.A").name("f").withParameters("int")` on the trees: the declaration, the call and the reference. */
  lemma TreeAndSymbolMethodOnTree()
    ensures MatchedLines(TREE_AND_SYMBOL_HIERARCHY, Single(F_INT), false, TREE_AND_SYMBOL_TREES) == [5, 8, 9]
  {
    TreeAndSymbolMethodOnTreeJudged();
    TreeAndSymbolMethodOnTreePicked();
  }

  lemma TreeAndSymbolMethodOnTreePicked()
    ensures PickedRange([4, 5, 6, 7, 8, 9, 10], [false, true, false, false, true, true, false], 0, 7) == [5, 8, 9]
  {
    TreeAndSymbolMethodOnTreeLines([4, 5, 6, 7, 8, 9, 10], [false, true, false, false, true, true, false]);
  }

  lemma TreeAndSymbolMethodOnTreeJudged()
    ensures MatchedLines(TREE_AND_SYMBOL_HIERARCHY, Single(F_INT), false, TREE_AND_SYMBOL_TREES) == PickedRange([4, 5, 6, 7, 8, 9, 10], [false, true, false, false, true, true, false], 0, 7)
  {
    var hits := [false, true, false, false, true, true, false];
    TreeAndSymbolMethodOnTreeHitsFrom0(hits);
    TreeAndSymbolMethodOnTreeHitsFrom4(hits);
    TreeAndSymbolTreeLines();
    MatchedLinesPicked(TREE_AND_SYMBOL_HIERARCHY, Single(F_INT), false, TREE_AND_SYMBOL_TREES, [4, 5, 6, 7, 8, 9, 10], hits);
  }

  lemma TreeAndSymbolMethodOnTreeHitsFrom0(hits: seq<bool>)
    requires hits == [false, true, false, false, true, true, false]
    ensures forall k :: 0 <= k < 4 ==> Hit(TREE_AND_SYMBOL_HIERARCHY, Single(F_INT), false, TREE_AND_SYMBOL_TREES[k].node) == hits[k]
  {
    forall k | 0 <= k < 4
      ensures Hit(TREE_AND_SYMBOL_HIERARCHY, Single(F_INT), false, TREE_AND_SYMBOL_TREES[k].node) == hits[k]
    {
      SingleCriteriaOnTree(TREE_AND_SYMBOL_HIERARCHY, F_INT.types[0], F_INT.names[0], F_INT.parameters[0], TREE_AND_SYMBOL_TREES[k].node);
    }
  }

  lemma TreeAndSymbolMethodOnTreeHitsFrom4(hits: seq<bool>)
    requires hits == [false, true, false, false, true, true, false]
    ensures forall k :: 4 <= k < 7 ==> Hit(TREE_AND_SYMBOL_HIERARCHY, Single(F_INT), false, TREE_AND_SYMBOL_TREES[k].node) == hits[k]
  {
    forall k | 4 <= k < 7
      ensures Hit(TREE_AND_SYMBOL_HIERARCHY, Single(F_INT), false, TREE_AND_SYMBOL_TREES[k].node) == hits[k]
    {
      SingleCriteriaOnTree(TREE_AND_SYMBOL_HIERARCHY, F_INT.types[0], F_INT.names[0], F_INT.parameters[0], TREE_AND_SYMBOL_TREES[k].node);
    }
  }

  lemma TreeAndSymbolMethodOnTreeLines(lines: seq<int>, picks: seq<bool>)
    requires |lines| == 7 && |picks| == 7
    requires !picks[0] && lines[0] == 4
    requires picks[1] && lines[1] == 5
    requires !picks[2] && lines[2] == 6
    requires !picks[3] && lines[3] == 7
    requires picks[4] && lines[4] == 8
    requires picks[5] && lines[5] == 9
    requires !picks[6] && lines[6] == 10
    ensures PickedRange(lines, picks, 0, 7) == [5, 8, 9]
  {
    TreeAndSymbolMethodOnTreeLinesFrom0(lines, picks);
    TreeAndSymbolMethodOnTreeLinesFrom4(lines, picks);
    PickedRangeSplit(lines, picks, 0, 4, 7);
    assert [5] + [8, 9] == [5, 8, 9];
  }

  lemma TreeAndSymbolMethodOnTreeLinesFrom0(lines: seq<int>, picks: seq<bool>)
    requires |lines| == 7 && |picks| == 7
    requires !picks[0] && lines[0] == 4
    requires picks[1] && lines[1] == 5
    requires !picks[2] && lines[2] == 6
    requires !picks[3] && lines[3] == 7
    ensures PickedRange(lines, picks, 0, 4) == [5]
  {
    PickedOut(lines, picks, 3, 4, []);
    PickedOut(lines, picks, 2, 4, []);
    PickedIn(lines, picks, 1, 4, 5, []);
    PickedOut(lines, picks, 0, 4, [5]);
  }

  lemma TreeAndSymbolMethodOnTreeLinesFrom4(lines: seq<int>, picks: seq<bool>)
    requires |lines| == 7 && |picks| == 7
    requires picks[4] && lines[4] == 8
    requires picks[5] && lines[5] == 9
    requires !picks[6] && lines[6] == 10
    ensures PickedRange(lines, picks, 4, 7) == [8, 9]
  {
    PickedOut(lines, picks, 6, 7, []);
    PickedIn(lines, picks, 5, 7, 9, []);
    PickedIn(lines, picks, 4, 7, 8, [9]);
  }

  /** The same matcher on the symbols: the method reference is lost. */
  lemma TreeAndSymbolMethodOnSymbol()
    ensures MatchedLines(TREE_AND_SYMBOL_HIERARCHY, Single(F_INT), true, TREE_AND_SYMBOL_TREES) == [5, 8]
  {
    TreeAndSymbolMethodOnSymbolJudged();
    TreeAndSymbolMethodOnSymbolPicked();
  }

  lemma TreeAndSymbolMethodOnSymbolPicked()
    ensures PickedRange([4, 5, 6, 7, 8, 9, 10], [false, true, false, false, true, false, false], 0, 7) == [5, 8]
  {
    TreeAndSymbolMethodOnSymbolLines([4, 5, 6, 7, 8, 9, 10], [false, true, false, false, true, false, false]);
  }

  lemma TreeAndSymbolMethodOnSymbolJudged()
    ensures MatchedLines(TREE_AND_SYMBOL_HIERARCHY, Single(F_INT), true, TREE_AND_SYMBOL_TREES) == PickedRange([4, 5, 6, 7, 8, 9, 10], [false, true, false, false, true, false, false], 0, 7)
  {
    var hits := [false, true, false, false, true, false, false];
    TreeAndSymbolMethodOnSymbolHitsFrom0(hits);
    TreeAndSymbolMethodOnSymbolHitsFrom4(hits);
    TreeAndSymbolTreeLines();
    MatchedLinesPicked(TREE_AND_SYMBOL_HIERARCHY, Single(F_INT), true, TREE_AND_SYMBOL_TREES, [4, 5, 6, 7, 8, 9, 10], hits);
  }

  lemma TreeAndSymbolMethodOnSymbolHitsFrom0(hits: seq<bool>)
    requires hits == [false, true, false, false, true, false, false]
    ensures forall k :: 0 <= k < 4 ==> Hit(TREE_AND_SYMBOL_HIERARCHY, Single(F_INT), true, TREE_AND_SYMBOL_TREES[k].node) == hits[k]
  {
    forall k | 0 <= k < 4
      ensures Hit(TREE_AND_SYMBOL_HIERARCHY, Single(F_INT), true, TREE_AND_SYMBOL_TREES[k].node) == hits[k]
    {
      SingleCriteriaOnSymbol(TREE_AND_SYMBOL_HIERARCHY, F_INT.types[0], F_INT.names[0], F_INT.parameters[0], TREE_AND_SYMBOL_TREES[k].node);
    }
  }

  lemma TreeAndSymbolMethodOnSymbolHitsFrom4(hits: seq<bool>)
    requires hits == [false, true, false, false, true, false, false]
    ensures forall k :: 4 <= k < 7 ==> Hit(TREE_AND_SYMBOL_HIERARCHY, Single(F_INT), true, TREE_AND_SYMBOL_TREES[k].node) == hits[k]
  {
    forall k | 4 <= k < 7
      ensures Hit(TREE_AND_SYMBOL_HIERARCHY, Single(F_INT), true, TREE_AND_SYMBOL_TREES[k].node) == hits[k]
    {
      SingleCriteriaOnSymbol(TREE_AND_SYMBOL_HIERARCHY, F_INT.types[0], F_INT.names[0], F_INT.parameters[0], TREE_AND_SYMBOL_TREES[k].node);
    }
  }

  lemma TreeAndSymbolMethodOnSymbolLines(lines: seq<int>, picks: seq<bool>)
    requires |lines| == 7 && |picks| == 7
    requires !picks[0] && lines[0] == 4
    requires picks[1] && lines[1] == 5
    requires !picks[2] && lines[2] == 6
    requires !picks[3] && lines[3] == 7
    requires picks[4] && lines[4] == 8
    requires !picks[5] && lines[5] == 9
    requires !picks[6] && lines[6] == 10
    ensures PickedRange(lines, picks, 0, 7) == [5, 8]
  {
    TreeAndSymbolMethodOnSymbolLinesFrom0(lines, picks);
    TreeAndSymbolMethodOnSymbolLinesFrom4(lines, picks);
    PickedRangeSplit(lines, picks, 0, 4, 7);
    assert [5] + [8] == [5, 8];
  }

  lemma TreeAndSymbolMethodOnSymbolLinesFrom0(lines: seq<int>, picks: seq<bool>)
    requires |lines| == 7 && |picks| == 7
    requires !picks[0] && lines[0] == 4
    requires picks[1] && lines[1] == 5
    requires !picks[2] && lines[2] == 6
    requires !picks[3] && lines[3] == 7
    ensures PickedRange(lines, picks, 0, 4) == [5]
  {
    PickedOut(lines, picks, 3, 4, []);
    PickedOut(lines, picks, 2, 4, []);
    PickedIn(lines, picks, 1, 4, 5, []);
    PickedOut(lines, picks, 0, 4, [5]);
  }

  lemma TreeAndSymbolMethodOnSymbolLinesFrom4(lines: seq<int>, picks: seq<bool>)
    requires |lines| == 7 && |picks| == 7
    requires picks[4] && lines[4] == 8
    requires !picks[5] && lines[5] == 9
    requires !picks[6] && lines[6] == 10
    ensures PickedRange(lines, picks, 4, 7) == [8]
  {
    PickedOut(lines, picks, 6, 7, []);
    PickedOut(lines, picks, 5, 7, []);
    PickedIn(lines, picks, 4, 7, 8, []);
  }

  /** `ofType("pkg.A").constructor().withParameters("int")`: the constructor and `new A(12)`, not `A::new`. */
  lemma TreeAndSymbolConstructor(useSymbol: bool)
    ensures MatchedLines(TREE_AND_SYMBOL_HIERARCHY, Single(CTOR_INT), useSymbol, TREE_AND_SYMBOL_TREES) == [4, 7]
  {
    TreeAndSymbolConstructorJudged(useSymbol);
    TreeAndSymbolConstructorPicked();
  }

  lemma TreeAndSymbolConstructorPicked()
    ensures PickedRange([4, 5, 6, 7, 8, 9, 10], [true, false, false, true, false, false, false], 0, 7) == [4, 7]
  {
    TreeAndSymbolConstructorLines([4, 5, 6, 7, 8, 9, 10], [true, false, false, true, false, false, false]);
  }

  lemma TreeAndSymbolConstructorJudged(useSymbol: bool)
    ensures MatchedLines(TREE_AND_SYMBOL_HIERARCHY, Single(CTOR_INT), useSymbol, TREE_AND_SYMBOL_TREES) == PickedRange([4, 5, 6, 7, 8, 9, 10], [true, false, false, true, false, false, false], 0, 7)
  {
    var hits := [true, false, false, true, false, false, false];
    TreeAndSymbolConstructorHitsFrom0(useSymbol, hits);
    TreeAndSymbolConstructorHitsFrom4(useSymbol, hits);
    TreeAndSymbolTreeLines();
    MatchedLinesPicked(TREE_AND_SYMBOL_HIERARCHY, Single(CTOR_INT), useSymbol, TREE_AND_SYMBOL_TREES, [4, 5, 6, 7, 8, 9, 10], hits);
  }

  lemma TreeAndSymbolConstructorHitsFrom0(useSymbol: bool, hits: seq<bool>)
    requires hits == [true, false, false, true, false, false, false]
    ensures forall k :: 0 <= k < 4 ==> Hit(TREE_AND_SYMBOL_HIERARCHY, Single(CTOR_INT), useSymbol, TREE_AND_SYMBOL_TREES[k].node) == hits[k]
  {
    forall k | 0 <= k < 4
      ensures Hit(TREE_AND_SYMBOL_HIERARCHY, Single(CTOR_INT), useSymbol, TREE_AND_SYMBOL_TREES[k].node) == hits[k]
    {
      SingleCriteriaOnTree(TREE_AND_SYMBOL_HIERARCHY, CTOR_INT.types[0], CTOR_INT.names[0], CTOR_INT.parameters[0], TREE_AND_SYMBOL_TREES[k].node);
      SingleCriteriaOnSymbol(TREE_AND_SYMBOL_HIERARCHY, CTOR_INT.types[0], CTOR_INT.names[0], CTOR_INT.parameters[0], TREE_AND_SYMBOL_TREES[k].node);
    }
  }

  lemma TreeAndSymbolConstructorHitsFrom4(useSymbol: bool, hits: seq<bool>)
    requires hits == [true, false, false, true, false, false, false]
    ensures forall k :: 4 <= k < 7 ==> Hit(TREE_AND_SYMBOL_HIERARCHY, Single(CTOR_INT), useSymbol, TREE_AND_SYMBOL_TREES[k].node) == hits[k]
  {
    forall k | 4 <= k < 7
      ensures Hit(TREE_AND_SYMBOL_HIERARCHY, Single(CTOR_INT), useSymbol, TREE_AND_SYMBOL_TREES[k].node) == hits[k]
    {
      SingleCriteriaOnTree(TREE_AND_SYMBOL_HIERARCHY, CTOR_INT.types[0], CTOR_INT.names[0], CTOR_INT.parameters[0], TREE_AND_SYMBOL_TREES[k].node);
      SingleCriteriaOnSymbol(TREE_AND_SYMBOL_HIERARCHY, CTOR_INT.types[0], CTOR_INT.names[0], CTOR_INT.parameters[0], TREE_AND_SYMBOL_TREES[k].node);
    }
  }

  lemma TreeAndSymbolConstructorLines(lines: seq<int>, picks: seq<bool>)
    requires |lines| == 7 && |picks| == 7
    requires picks[0] && lines[0] == 4
    requires !picks[1] && lines[1] == 5
    requires !picks[2] && lines[2] == 6
    requires picks[3] && lines[3] == 7
    requires !picks[4] && lines[4] == 8
    requires !picks[5] && lines[5] == 9
    requires !picks[6] && lines[6] == 10
    ensures PickedRange(lines, picks, 0, 7) == [4, 7]
  {
    TreeAndSymbolConstructorLinesFrom0(lines, picks);
    TreeAndSymbolConstructorLinesFrom4(lines, picks);
    PickedRangeSplit(lines, picks, 0, 4, 7);
    assert [4, 7] + [] == [4, 7];
  }

  lemma TreeAndSymbolConstructorLinesFrom0(lines: seq<int>, picks: seq<bool>)
    requires |lines| == 7 && |picks| == 7
    requires picks[0] && lines[0] == 4
    requires !picks[1] && lines[1] == 5
    requires !picks[2] && lines[2] == 6
    requires picks[3] && lines[3] == 7
    ensures PickedRange(lines, picks, 0, 4) == [4, 7]
  {
    PickedIn(lines, picks, 3, 4, 7, []);
    PickedOut(lines, picks, 2, 4, [7]);
    PickedOut(lines, picks, 1, 4, [7]);
    PickedIn(lines, picks, 0, 4, 4, [7]);
  }

  lemma TreeAndSymbolConstructorLinesFrom4(lines: seq<int>, picks: seq<bool>)
    requires |lines| == 7 && |picks| == 7
    requires !picks[4] && lines[4] == 8
    requires !picks[5] && lines[5] == 9
    requires !picks[6] && lines[6] == 10
    ensures PickedRange(lines, picks, 4, 7) == []
  {
    PickedOut(lines, picks, 6, 7, []);
    PickedOut(lines, picks, 5, 7, []);
    PickedOut(lines, picks, 4, 7, []);
  }

  /** `or(constructor matcher, f(int) matcher)` on the trees: the union of both, in visiting order. */
  lemma TreeAndSymbolOrOnTree()
    ensures MatchedLines(TREE_AND_SYMBOL_HIERARCHY, Or([Single(CTOR_INT), Single(F_INT)]), false, TREE_AND_SYMBOL_TREES) == [4, 5, 7, 8, 9]
  {
    TreeAndSymbolOrOnTreeJudged();
    TreeAndSymbolOrOnTreePicked();
  }

  lemma TreeAndSymbolOrOnTreePicked()
    ensures PickedRange([4, 5, 6, 7, 8, 9, 10], [true, true, false, true, true, true, false], 0, 7) == [4, 5, 7, 8, 9]
  {
    TreeAndSymbolOrOnTreeLines([4, 5, 6, 7, 8, 9, 10], [true, true, false, true, true, true, false]);
  }

  lemma TreeAndSymbolOrOnTreeJudged()
    ensures MatchedLines(TREE_AND_SYMBOL_HIERARCHY, Or([Single(CTOR_INT), Single(F_INT)]), false, TREE_AND_SYMBOL_TREES) == PickedRange([4, 5, 6, 7, 8, 9, 10], [true, true, false, true, true, true, false], 0, 7)
  {
    var hits := [true, true, false, true, true, true, false];
    TreeAndSymbolOrOnTreeHitsFrom0(hits);
    TreeAndSymbolOrOnTreeHitsFrom4(hits);
    TreeAndSymbolTreeLines();
    MatchedLinesPicked(TREE_AND_SYMBOL_HIERARCHY, Or([Single(CTOR_INT), Single(F_INT)]), false, TREE_AND_SYMBOL_TREES, [4, 5, 6, 7, 8, 9, 10], hits);
  }

  lemma TreeAndSymbolOrOnTreeHitsFrom0(hits: seq<bool>)
    requires hits == [true, true, false, true, true, true, false]
    ensures forall k :: 0 <= k < 4 ==> Hit(TREE_AND_SYMBOL_HIERARCHY, Or([Single(CTOR_INT), Single(F_INT)]), false, TREE_AND_SYMBOL_TREES[k].node) == hits[k]
  {
    forall k | 0 <= k < 4
      ensures Hit(TREE_AND_SYMBOL_HIERARCHY, Or([Single(CTOR_INT), Single(F_INT)]), false, TREE_AND_SYMBOL_TREES[k].node) == hits[k]
    {
      OrOfTwo(TREE_AND_SYMBOL_HIERARCHY, Single(CTOR_INT), Single(F_INT), TreeSubject(TREE_AND_SYMBOL_TREES[k].node));
      SingleCriteriaOnTree(TREE_AND_SYMBOL_HIERARCHY, CTOR_INT.types[0], CTOR_INT.names[0], CTOR_INT.parameters[0], TREE_AND_SYMBOL_TREES[k].node);
      SingleCriteriaOnTree(TREE_AND_SYMBOL_HIERARCHY, F_INT.types[0], F_INT.names[0], F_INT.parameters[0], TREE_AND_SYMBOL_TREES[k].node);
    }
  }

  lemma TreeAndSymbolOrOnTreeHitsFrom4(hits: seq<bool>)
    requires hits == [true, true, false, true, true, true, false]
    ensures forall k :: 4 <= k < 7 ==> Hit(TREE_AND_SYMBOL_HIERARCHY, Or([Single(CTOR_INT), Single(F_INT)]), false, TREE_AND_SYMBOL_TREES[k].node) == hits[k]
  {
    forall k | 4 <= k < 7
      ensures Hit(TREE_AND_SYMBOL_HIERARCHY, Or([Single(CTOR_INT), Single(F_INT)]), false, TREE_AND_SYMBOL_TREES[k].node) == hits[k]
    {
      OrOfTwo(TREE_AND_SYMBOL_HIERARCHY, Single(CTOR_INT), Single(F_INT), TreeSubject(TREE_AND_SYMBOL_TREES[k].node));
      SingleCriteriaOnTree(TREE_AND_SYMBOL_HIERARCHY, CTOR_INT.types[0], CTOR_INT.names[0], CTOR_INT.parameters[0], TREE_AND_SYMBOL_TREES[k].node);
      SingleCriteriaOnTree(TREE_AND_SYMBOL_HIERARCHY, F_INT.types[0], F_INT.names[0], F_INT.parameters[0], TREE_AND_SYMBOL_TREES[k].node);
    }
  }

  lemma TreeAndSymbolOrOnTreeLines(lines: seq<int>, picks: seq<bool>)
    requires |lines| == 7 && |picks| == 7
    requires picks[0] && lines[0] == 4
    requires picks[1] && lines[1] == 5
    requires !picks[2] && lines[2] == 6
    requires picks[3] && lines[3] == 7
    requires picks[4] && lines[4] == 8
    requires picks[5] && lines[5] == 9
    requires !picks[6] && lines[6] == 10
    ensures PickedRange(lines, picks, 0, 7) == [4, 5, 7, 8, 9]
  {
    TreeAndSymbolOrOnTreeLinesFrom0(lines, picks);
    TreeAndSymbolOrOnTreeLinesFrom4(lines, picks);
    PickedRangeSplit(lines, picks, 0, 4, 7);
    assert [4, 5, 7] + [8, 9] == [4, 5, 7, 8, 9];
  }

  lemma TreeAndSymbolOrOnTreeLinesFrom0(lines: seq<int>, picks: seq<bool>)
    requires |lines| == 7 && |picks| == 7
    requires picks[0] && lines[0] == 4
    requires picks[1] && lines[1] == 5
    requires !picks[2] && lines[2] == 6
    requires picks[3] && lines[3] == 7
    ensures PickedRange(lines, picks, 0, 4) == [4, 5, 7]
  {
    PickedIn(lines, picks, 3, 4, 7, []);
    PickedOut(lines, picks, 2, 4, [7]);
    PickedIn(lines, picks, 1, 4, 5, [7]);
    PickedIn(lines, picks, 0, 4, 4, [5, 7]);
  }

  lemma TreeAndSymbolOrOnTreeLinesFrom4(lines: seq<int>, picks: seq<bool>)
    requires |lines| == 7 && |picks| == 7
    requires picks[4] && lines[4] == 8
    requires picks[5] && lines[5] == 9
    requires !picks[6] && lines[6] == 10
    ensures PickedRange(lines, picks, 4, 7) == [8, 9]
  {
    PickedOut(lines, picks, 6, 7, []);
    PickedIn(lines, picks, 5, 7, 9, []);
    PickedIn(lines, picks, 4, 7, 8, [9]);
  }

  /** The same union on the symbols. */
  lemma TreeAndSymbolOrOnSymbol()
    ensures MatchedLines(TREE_AND_SYMBOL_HIERARCHY, Or([Single(CTOR_INT), Single(F_INT)]), true, TREE_AND_SYMBOL_TREES) == [4, 5, 7, 8]
  {
    TreeAndSymbolOrOnSymbolJudged();
    TreeAndSymbolOrOnSymbolPicked();
  }

  lemma TreeAndSymbolOrOnSymbolPicked()
    ensures PickedRange([4, 5, 6, 7, 8, 9, 10], [true, true, false, true, true, false, false], 0, 7) == [4, 5, 7, 8]
  {
    TreeAndSymbolOrOnSymbolLines([4, 5, 6, 7, 8, 9, 10], [true, true, false, true, true, false, false]);
  }

  lemma TreeAndSymbolOrOnSymbolJudged()
    ensures MatchedLines(TREE_AND_SYMBOL_HIERARCHY, Or([Single(CTOR_INT), Single(F_INT)]), true, TREE_AND_SYMBOL_TREES) == PickedRange([4, 5, 6, 7, 8, 9, 10], [true, true, false, true, true, false, false], 0, 7)
  {
    var hits := [true, true, false, true, true, false, false];
    TreeAndSymbolOrOnSymbolHitsFrom0(hits);
    TreeAndSymbolOrOnSymbolHitsFrom4(hits);
    TreeAndSymbolTreeLines();
    MatchedLinesPicked(TREE_AND_SYMBOL_HIERARCHY, Or([Single(CTOR_INT), Single(F_INT)]), true, TREE_AND_SYMBOL_TREES, [4, 5, 6, 7, 8, 9, 10], hits);
  }

  lemma TreeAndSymbolOrOnSymbolHitsFrom0(hits: seq<bool>)
    requires hits == [true, true, false, true, true, false, false]
    ensures forall k :: 0 <= k < 4 ==> Hit(TREE_AND_SYMBOL_HIERARCHY, Or([Single(CTOR_INT), Single(F_INT)]), true, TREE_AND_SYMBOL_TREES[k].node) == hits[k]
  {
    forall k | 0 <= k < 4
      ensures Hit(TREE_AND_SYMBOL_HIERARCHY, Or([Single(CTOR_INT), Single(F_INT)]), true, TREE_AND_SYMBOL_TREES[k].node) == hits[k]
    {
      OrOfTwo(TREE_AND_SYMBOL_HIERARCHY, Single(CTOR_INT), Single(F_INT), SymbolSubject(TREE_AND_SYMBOL_TREES[k].node));
      SingleCriteriaOnSymbol(TREE_AND_SYMBOL_HIERARCHY, CTOR_INT.types[0], CTOR_INT.names[0], CTOR_INT.parameters[0], TREE_AND_SYMBOL_TREES[k].node);
      SingleCriteriaOnSymbol(TREE_AND_SYMBOL_HIERARCHY, F_INT.types[0], F_INT.names[0], F_INT.parameters[0], TREE_AND_SYMBOL_TREES[k].node);
    }
  }

  lemma TreeAndSymbolOrOnSymbolHitsFrom4(hits: seq<bool>)
    requires hits == [true, true, false, true, true, false, false]
    ensures forall k :: 4 <= k < 7 ==> Hit(TREE_AND_SYMBOL_HIERARCHY, Or([Single(CTOR_INT), Single(F_INT)]), true, TREE_AND_SYMBOL_TREES[k].node) == hits[k]
  {
    forall k | 4 <= k < 7
      ensures Hit(TREE_AND_SYMBOL_HIERARCHY, Or([Single(CTOR_INT), Single(F_INT)]), true, TREE_AND_SYMBOL_TREES[k].node) == hits[k]
    {
      OrOfTwo(TREE_AND_SYMBOL_HIERARCHY, Single(CTOR_INT), Single(F_INT), SymbolSubject(TREE_AND_SYMBOL_TREES[k].node));
      SingleCriteriaOnSymbol(TREE_AND_SYMBOL_HIERARCHY, CTOR_INT.types[0], CTOR_INT.names[0], CTOR_INT.parameters[0], TREE_AND_SYMBOL_TREES[k].node);
      SingleCriteriaOnSymbol(TREE_AND_SYMBOL_HIERARCHY, F_INT.types[0], F_INT.names[0], F_INT.parameters[0], TREE_AND_SYMBOL_TREES[k].node);
    }
  }

  lemma TreeAndSymbolOrOnSymbolLines(lines: seq<int>, picks: seq<bool>)
    requires |lines| == 7 && |picks| == 7
    requires picks[0] && lines[0] == 4
    requires picks[1] && lines[1] == 5
    requires !picks[2] && lines[2] == 6
    requires picks[3] && lines[3] == 7
    requires picks[4] && lines[4] == 8
    requires !picks[5] && lines[5] == 9
    requires !picks[6] && lines[6] == 10
    ensures PickedRange(lines, picks, 0, 7) == [4, 5, 7, 8]
  {
    TreeAndSymbolOrOnSymbolLinesFrom0(lines, picks);
    TreeAndSymbolOrOnSymbolLinesFrom4(lines, picks);
    PickedRangeSplit(lines, picks, 0, 4, 7);
    assert [4, 5, 7] + [8] == [4, 5, 7, 8];
  }

  lemma TreeAndSymbolOrOnSymbolLinesFrom0(lines: seq<int>, picks: seq<bool>)
    requires |lines| == 7 && |picks| == 7
    requires picks[0] && lines[0] == 4
    requires picks[1] && lines[1] == 5
    requires !picks[2] && lines[2] == 6
    requires picks[3] && lines[3] == 7
    ensures PickedRange(lines, picks, 0, 4) == [4, 5, 7]
  {
    PickedIn(lines, picks, 3, 4, 7, []);
    PickedOut(lines, picks, 2, 4, [7]);
    PickedIn(lines, picks, 1, 4, 5, [7]);
    PickedIn(lines, picks, 0, 4, 4, [5, 7]);
  }

  lemma TreeAndSymbolOrOnSymbolLinesFrom4(lines: seq<int>, picks: seq<bool>)
    requires |lines| == 7 && |picks| == 7
    requires picks[4] && lines[4] == 8
    requires !picks[5] && lines[5] == 9
    requires !picks[6] && lines[6] == 10
    ensures PickedRange(lines, picks, 4, 7) == [8]
  {
    PickedOut(lines, picks, 6, 7, []);
    PickedOut(lines, picks, 5, 7, []);
    PickedIn(lines, picks, 4, 7, 8, []);
  }
  /** `MethodMatchers.empty()` finds nothing, on the trees or on the symbols. */
  lemma TreeAndSymbolEmpty(useSymbol: bool)
    ensures MatchedLines(TREE_AND_SYMBOL_HIERARCHY, Empty(), useSymbol, TREE_AND_SYMBOL_TREES) == []
  {
    EmptyCollectsNothing(TREE_AND_SYMBOL_HIERARCHY, useSymbol, TREE_AND_SYMBOL_TREES);
  }

  // ---------------------------------------------------------------------------
  // test_method_selector_and_method_identifier

  /** Only `A` itself is declared, and nothing is asked about its supertypes. */
  const SELECTOR_HIERARCHY: Hierarchy := map[]

  const SELECTOR_TREES: seq<Located> := [
    Located(Declaration(Subject(Known("A"), "f", [Known("A")], true)), 2),
    Located(Invocation(Unqualified, Subject(Known("A"), "f", [Known("A")], true)), 3),
    Located(Invocation(Qualified(Known("A")), Subject(Known("A"), "f", [Known("A")], true)), 4)
  ]

  const SELECTOR_F: MethodMatcher := MethodMatcher([ExactType("A")], [Names({"f"})], [ExactParameters([ExactType("A")])])

  /** The line of every tree, in visiting order. */
  lemma SelectorTreeLines()
    ensures |SELECTOR_TREES| == 3
    ensures forall k :: 0 <= k < 3 ==> SELECTOR_TREES[k].line == [2, 3, 4][k]
  {
  }

  /** `f(this)` without a receiver and `a.f(a)` with one are both matched by `ofType("A")`. */
  lemma MethodSelectorAndIdentifier()
    ensures MatchedLines(SELECTOR_HIERARCHY, Single(SELECTOR_F), false, SELECTOR_TREES) == [2, 3, 4]
  {
    MethodSelectorAndIdentifierJudged();
    MethodSelectorAndIdentifierPicked();
  }

  lemma MethodSelectorAndIdentifierPicked()
    ensures PickedRange([2, 3, 4], [true, true, true], 0, 3) == [2, 3, 4]
  {
    MethodSelectorAndIdentifierLines([2, 3, 4], [true, true, true]);
  }

  lemma MethodSelectorAndIdentifierJudged()
    ensures MatchedLines(SELECTOR_HIERARCHY, Single(SELECTOR_F), false, SELECTOR_TREES) == PickedRange([2, 3, 4], [true, true, true], 0, 3)
  {
    var hits := [true, true, true];
    MethodSelectorAndIdentifierHitsFrom0(hits);
    SelectorTreeLines();
    MatchedLinesPicked(SELECTOR_HIERARCHY, Single(SELECTOR_F), false, SELECTOR_TREES, [2, 3, 4], hits);
  }

  lemma MethodSelectorAndIdentifierHitsFrom0(hits: seq<bool>)
    requires hits == [true, true, true]
    ensures forall k :: 0 <= k < 3 ==> Hit(SELECTOR_HIERARCHY, Single(SELECTOR_F), false, SELECTOR_TREES[k].node) == hits[k]
  {
    forall k | 0 <= k < 3
      ensures Hit(SELECTOR_HIERARCHY, Single(SELECTOR_F), false, SELECTOR_TREES[k].node) == hits[k]
    {
      SingleCriteriaOnTree(SELECTOR_HIERARCHY, SELECTOR_F.types[0], SELECTOR_F.names[0], SELECTOR_F.parameters[0], SELECTOR_TREES[k].node);
    }
  }

  lemma MethodSelectorAndIdentifierLines(lines: seq<int>, picks: seq<bool>)
    requires |lines| == 3 && |picks| == 3
    requires picks[0] && lines[0] == 2
    requires picks[1] && lines[1] == 3
    requires picks[2] && lines[2] == 4
    ensures PickedRange(lines, picks, 0, 3) == [2, 3, 4]
  {
    MethodSelectorAndIdentifierLinesFrom0(lines, picks);
  }

  lemma MethodSelectorAndIdentifierLinesFrom0(lines: seq<int>, picks: seq<bool>)
    requires |lines| == 3 && |picks| == 3
    requires picks[0] && lines[0] == 2
    requires picks[1] && lines[1] == 3
    requires picks[2] && lines[2] == 4
    ensures PickedRange(lines, picks, 0, 3) == [2, 3, 4]
  {
    PickedIn(lines, picks, 2, 3, 4, []);
    PickedIn(lines, picks, 1, 3, 3, [4]);
    PickedIn(lines, picks, 0, 3, 2, [3, 4]);
  }

  // ---------------------------------------------------------------------------
  // Configuration errors: the builder refuses, or the first query does

  /** `ofType("A").ofAnyType()`: "any" after a specific owner type is refused at once. */
  method InvalidAnyType() returns (err: Option<ConfigError>)
    ensures err == Some(AnyMixedWithOthers(TypeKind))
  {
    var b := new MethodMatchersBuilder.Create();
    var ok := b.OfType("A");
    err := b.OfAnyType();
  }

  /** `ofAnyType().name("A").anyName()`: "any" after a specific name is refused. */
  method InvalidAnyName() returns (err: Option<ConfigError>)
    ensures err == Some(AnyMixedWithOthers(NameKind))
  {
    var b := new MethodMatchersBuilder.Create();
    var ok := b.OfAnyType();
    ok := b.Name("A");
    err := b.AnyName();
  }

  /** `ofAnyType().anyName().withParameters("int").withAnyParameters()`: refused on the parameters. */
  method InvalidAnyParameters() returns (err: Option<ConfigError>)
    ensures err == Some(AnyMixedWithOthers(ParameterKind))
  {
    var b := new MethodMatchersBuilder.Create();
    var ok := b.OfAnyType();
    ok := b.AnyName();
    ok := b.WithParameters(["int"]);
    err := b.WithAnyParameters();
  }

  /** The declaration `void f();` of `interface A`, the subject of the queries below. */
  const INTERFACE_A_F: Node := Declaration(Subject(Known("A"), "f", [], true))

  /** `name("f").withoutParameters()` builds, but its first query fails: no owner type was given. */
  method InvalidMatcherWithoutType() returns (r: Result<bool, ConfigError>)
    ensures r == Failure(CriteriaNotSet(TypeKind))
  {
    var b := new MethodMatchersBuilder.Create();
    var ok := b.Name("f");
    ok := b.WithoutParameters();
    r := b.Matches(map[], INTERFACE_A_F);
  }

  /** `ofAnyType().withoutParameters()`: the query fails, no name was given. */
  method InvalidMatcherWithoutName() returns (r: Result<bool, ConfigError>)
    ensures r == Failure(CriteriaNotSet(NameKind))
  {
    var b := new MethodMatchersBuilder.Create();
    var ok := b.OfAnyType();
    ok := b.WithoutParameters();
    r := b.Matches(map[], INTERFACE_A_F);
  }

  /** `ofAnyType().anyName()`: the query fails, no parameters were given. */
  method InvalidMatcherWithoutParameters() returns (r: Result<bool, ConfigError>)
    ensures r == Failure(CriteriaNotSet(ParameterKind))
  {
    var b := new MethodMatchersBuilder.Create();
    var ok := b.OfAnyType();
    ok := b.AnyName();
    r := b.Matches(map[], INTERFACE_A_F);
  }

  /** A complete configuration answers: `ofType("A").name("f").withoutParameters()` matches `void f();` of `A`. */
  method CompleteMatcherAnswers() returns (r: Result<bool, ConfigError>)
    ensures r == Success(true)
  {
    var b := new MethodMatchersBuilder.Create();
    var ok := b.OfType("A");
    ok := b.Name("f");
    ok := b.WithoutParameters();
    r := b.Matches(map[], INTERFACE_A_F);
    SingleCriteriaOnTree(map[], Criteria.ExactType("A"), Criteria.Names({"f"}), Criteria.NoParameters, INTERFACE_A_F);
  }
}
