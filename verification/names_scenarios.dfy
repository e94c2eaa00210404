/**
  The method-name tests of the matcher test suite, replayed on the model.
*/
module NamesScenarios {
  import opened TypeHierarchy
  import opened Criteria
  import opened Matchers
  import opened MatchVisitor

  const OBJECT := "java.lang.Object"
  const INT: JType := Known("int")

  const NAMES_HIERARCHY: Hierarchy := map["A" := [OBJECT], "Main" := [OBJECT]]

  /** `a`, `aa` and `b` declared in interface `A`, `main(A a)`, the three calls and `new Main()`. */
  const NAMES_TREES: seq<Located> := [
    Located(Declaration(Subject(Known("A"), "a", [INT], true)), 2),
    Located(Declaration(Subject(Known("A"), "aa", [INT], true)), 3),
    Located(Declaration(Subject(Known("A"), "b", [INT], true)), 4),
    Located(Declaration(Subject(Known("Main"), "main", [Known("A")], true)), 7),
    Located(Invocation(Qualified(Known("A")), Subject(Known("A"), "a", [INT], true)), 8),
    Located(Invocation(Qualified(Known("A")), Subject(Known("A"), "aa", [INT], true)), 9),
    Located(Invocation(Qualified(Known("A")), Subject(Known("A"), "b", [INT], true)), 10),
    Located(NewClass(Subject(Known("Main"), CONSTRUCTOR_NAME, [], true)), 11)
  ]

  const NAME_A: MethodMatcher := MethodMatcher([ExactType("A")], [Names({"a"})], [AnyParameters])
  const NAME_AA: MethodMatcher := MethodMatcher([ExactType("A")], [Names({"aa"})], [AnyParameters])
  const NAME_B: MethodMatcher := MethodMatcher([ExactType("A")], [Names({"b"})], [AnyParameters])
  const NAMES_A_B: MethodMatcher := MethodMatcher([ExactType("A")], [Names({"a", "b"})], [AnyParameters])
  const NAME_A_NAME_B: MethodMatcher := MethodMatcher([ExactType("A")], [Names({"a"}), Names({"b"})], [AnyParameters])
  const START_A: MethodMatcher := MethodMatcher([ExactType("A")], [Prefix("a")], [AnyParameters])
  const ANY_NAME_OF_A: MethodMatcher := MethodMatcher([ExactType("A")], [AnyName], [AnyParameters])
  /** `"B"::equalsIgnoreCase` accepts the one-character names `B` and `b`. */
  const EQUALS_IGNORE_CASE_B: string -> bool := name => name == "B" || name == "b"
  const IGNORE_CASE_B: MethodMatcher := MethodMatcher([ExactType("A")], [NamePredicate(EQUALS_IGNORE_CASE_B)], [AnyParameters])
  const CTOR_MAIN: MethodMatcher := MethodMatcher([ExactType("Main")], [Constructor], [AnyParameters])

  /** The line of every tree, in visiting order. */
  lemma NamesTreeLines()
    ensures |NAMES_TREES| == 8
    ensures forall k :: 0 <= k < 8 ==> NAMES_TREES[k].line == [2, 3, 4, 7, 8, 9, 10, 11][k]
  {
  }

  /** `name("a")`: the declaration of `a` and the call `a.a(12)`, not `aa`. */
  lemma OneNameA()
    ensures MatchedLines(NAMES_HIERARCHY, Single(NAME_A), false, NAMES_TREES) == [2, 8]
  {
    OneNameAJudged();
    OneNameAPicked();
  }

  lemma OneNameAPicked()
    ensures PickedRange([2, 3, 4, 7, 8, 9, 10, 11], [true, false, false, false, true, false, false, false], 0, 8) == [2, 8]
  {
    OneNameALines([2, 3, 4, 7, 8, 9, 10, 11], [true, false, false, false, true, false, false, false]);
  }

  lemma OneNameAJudged()
    ensures MatchedLines(NAMES_HIERARCHY, Single(NAME_A), false, NAMES_TREES) == PickedRange([2, 3, 4, 7, 8, 9, 10, 11], [true, false, false, false, true, false, false, false], 0, 8)
  {
    var hits := [true, false, false, false, true, false, false, false];
    OneNameAHitsFrom0(hits);
    OneNameAHitsFrom4(hits);
    NamesTreeLines();
    MatchedLinesPicked(NAMES_HIERARCHY, Single(NAME_A), false, NAMES_TREES, [2, 3, 4, 7, 8, 9, 10, 11], hits);
  }

  lemma OneNameAHitsFrom0(hits: seq<bool>)
    requires hits == [true, false, false, false, true, false, false, false]
    ensures forall k :: 0 <= k < 4 ==> Hit(NAMES_HIERARCHY, Single(NAME_A), false, NAMES_TREES[k].node) == hits[k]
  {
    forall k | 0 <= k < 4
      ensures Hit(NAMES_HIERARCHY, Single(NAME_A), false, NAMES_TREES[k].node) == hits[k]
    {
      SingleCriteriaOnTree(NAMES_HIERARCHY, NAME_A.types[0], NAME_A.names[0], NAME_A.parameters[0], NAMES_TREES[k].node);
    }
  }

  lemma OneNameAHitsFrom4(hits: seq<bool>)
    requires hits == [true, false, false, false, true, false, false, false]
    ensures forall k :: 4 <= k < 8 ==> Hit(NAMES_HIERARCHY, Single(NAME_A), false, NAMES_TREES[k].node) == hits[k]
  {
    forall k | 4 <= k < 8
      ensures Hit(NAMES_HIERARCHY, Single(NAME_A), false, NAMES_TREES[k].node) == hits[k]
    {
      SingleCriteriaOnTree(NAMES_HIERARCHY, NAME_A.types[0], NAME_A.names[0], NAME_A.parameters[0], NAMES_TREES[k].node);
    }
  }

  lemma OneNameALines(lines: seq<int>, picks: seq<bool>)
    requires |lines| == 8 && |picks| == 8
    requires picks[0] && lines[0] == 2
    requires !picks[1] && lines[1] == 3
    requires !picks[2] && lines[2] == 4
    requires !picks[3] && lines[3] == 7
    requires picks[4] && lines[4] == 8
    requires !picks[5] && lines[5] == 9
    requires !picks[6] && lines[6] == 10
    requires !picks[7] && lines[7] == 11
    ensures PickedRange(lines, picks, 0, 8) == [2, 8]
  {
    OneNameALinesFrom0(lines, picks);
    OneNameALinesFrom4(lines, picks);
    PickedRangeSplit(lines, picks, 0, 4, 8);
    assert [2] + [8] == [2, 8];
  }

  lemma OneNameALinesFrom0(lines: seq<int>, picks: seq<bool>)
    requires |lines| == 8 && |picks| == 8
    requires picks[0] && lines[0] == 2
    requires !picks[1] && lines[1] == 3
    requires !picks[2] && lines[2] == 4
    requires !picks[3] && lines[3] == 7
    ensures PickedRange(lines, picks, 0, 4) == [2]
  {
    PickedOut(lines, picks, 3, 4, []);
    PickedOut(lines, picks, 2, 4, []);
    PickedOut(lines, picks, 1, 4, []);
    PickedIn(lines, picks, 0, 4, 2, []);
  }

  lemma OneNameALinesFrom4(lines: seq<int>, picks: seq<bool>)
    requires |lines| == 8 && |picks| == 8
    requires picks[4] && lines[4] == 8
    requires !picks[5] && lines[5] == 9
    requires !picks[6] && lines[6] == 10
    requires !picks[7] && lines[7] == 11
    ensures PickedRange(lines, picks, 4, 8) == [8]
  {
    PickedOut(lines, picks, 7, 8, []);
    PickedOut(lines, picks, 6, 8, []);
    PickedOut(lines, picks, 5, 8, []);
    PickedIn(lines, picks, 4, 8, 8, []);
  }

  /** `name("aa")`: only `aa`. */
  lemma OneNameAA()
    ensures MatchedLines(NAMES_HIERARCHY, Single(NAME_AA), false, NAMES_TREES) == [3, 9]
  {
    OneNameAAJudged();
    OneNameAAPicked();
  }

  lemma OneNameAAPicked()
    ensures PickedRange([2, 3, 4, 7, 8, 9, 10, 11], [false, true, false, false, false, true, false, false], 0, 8) == [3, 9]
  {
    OneNameAALines([2, 3, 4, 7, 8, 9, 10, 11], [false, true, false, false, false, true, false, false]);
  }

  lemma OneNameAAJudged()
    ensures MatchedLines(NAMES_HIERARCHY, Single(NAME_AA), false, NAMES_TREES) == PickedRange([2, 3, 4, 7, 8, 9, 10, 11], [false, true, false, false, false, true, false, false], 0, 8)
  {
    var hits := [false, true, false, false, false, true, false, false];
    OneNameAAHitsFrom0(hits);
    OneNameAAHitsFrom4(hits);
    NamesTreeLines();
    MatchedLinesPicked(NAMES_HIERARCHY, Single(NAME_AA), false, NAMES_TREES, [2, 3, 4, 7, 8, 9, 10, 11], hits);
  }

  lemma OneNameAAHitsFrom0(hits: seq<bool>)
    requires hits == [false, true, false, false, false, true, false, false]
    ensures forall k :: 0 <= k < 4 ==> Hit(NAMES_HIERARCHY, Single(NAME_AA), false, NAMES_TREES[k].node) == hits[k]
  {
    forall k | 0 <= k < 4
      ensures Hit(NAMES_HIERARCHY, Single(NAME_AA), false, NAMES_TREES[k].node) == hits[k]
    {
      SingleCriteriaOnTree(NAMES_HIERARCHY, NAME_AA.types[0], NAME_AA.names[0], NAME_AA.parameters[0], NAMES_TREES[k].node);
    }
  }

  lemma OneNameAAHitsFrom4(hits: seq<bool>)
    requires hits == [false, true, false, false, false, true, false, false]
    ensures forall k :: 4 <= k < 8 ==> Hit(NAMES_HIERARCHY, Single(NAME_AA), false, NAMES_TREES[k].node) == hits[k]
  {
    forall k | 4 <= k < 8
      ensures Hit(NAMES_HIERARCHY, Single(NAME_AA), false, NAMES_TREES[k].node) == hits[k]
    {
      SingleCriteriaOnTree(NAMES_HIERARCHY, NAME_AA.types[0], NAME_AA.names[0], NAME_AA.parameters[0], NAMES_TREES[k].node);
    }
  }

  lemma OneNameAALines(lines: seq<int>, picks: seq<bool>)
    requires |lines| == 8 && |picks| == 8
    requires !picks[0] && lines[0] == 2
    requires picks[1] && lines[1] == 3
    requires !picks[2] && lines[2] == 4
    requires !picks[3] && lines[3] == 7
    requires !picks[4] && lines[4] == 8
    requires picks[5] && lines[5] == 9
    requires !picks[6] && lines[6] == 10
    requires !picks[7] && lines[7] == 11
    ensures PickedRange(lines, picks, 0, 8) == [3, 9]
  {
    OneNameAALinesFrom0(lines, picks);
    OneNameAALinesFrom4(lines, picks);
    PickedRangeSplit(lines, picks, 0, 4, 8);
    assert [3] + [9] == [3, 9];
  }

  lemma OneNameAALinesFrom0(lines: seq<int>, picks: seq<bool>)
    requires |lines| == 8 && |picks| == 8
    requires !picks[0] && lines[0] == 2
    requires picks[1] && lines[1] == 3
    requires !picks[2] && lines[2] == 4
    requires !picks[3] && lines[3] == 7
    ensures PickedRange(lines, picks, 0, 4) == [3]
  {
    PickedOut(lines, picks, 3, 4, []);
    PickedOut(lines, picks, 2, 4, []);
    PickedIn(lines, picks, 1, 4, 3, []);
    PickedOut(lines, picks, 0, 4, [3]);
  }

  lemma OneNameAALinesFrom4(lines: seq<int>, picks: seq<bool>)
    requires |lines| == 8 && |picks| == 8
    requires !picks[4] && lines[4] == 8
    requires picks[5] && lines[5] == 9
    requires !picks[6] && lines[6] == 10
    requires !picks[7] && lines[7] == 11
    ensures PickedRange(lines, picks, 4, 8) == [9]
  {
    PickedOut(lines, picks, 7, 8, []);
    PickedOut(lines, picks, 6, 8, []);
    PickedIn(lines, picks, 5, 8, 9, []);
    PickedOut(lines, picks, 4, 8, [9]);
  }

  /** `name("b")`: only `b`. */
  lemma OneNameB()
    ensures MatchedLines(NAMES_HIERARCHY, Single(NAME_B), false, NAMES_TREES) == [4, 10]
  {
    OneNameBJudged();
    OneNameBPicked();
  }

  lemma OneNameBPicked()
    ensures PickedRange([2, 3, 4, 7, 8, 9, 10, 11], [false, false, true, false, false, false, true, false], 0, 8) == [4, 10]
  {
    OneNameBLines([2, 3, 4, 7, 8, 9, 10, 11], [false, false, true, false, false, false, true, false]);
  }

  lemma OneNameBJudged()
    ensures MatchedLines(NAMES_HIERARCHY, Single(NAME_B), false, NAMES_TREES) == PickedRange([2, 3, 4, 7, 8, 9, 10, 11], [false, false, true, false, false, false, true, false], 0, 8)
  {
    var hits := [false, false, true, false, false, false, true, false];
    OneNameBHitsFrom0(hits);
    OneNameBHitsFrom4(hits);
    NamesTreeLines();
    MatchedLinesPicked(NAMES_HIERARCHY, Single(NAME_B), false, NAMES_TREES, [2, 3, 4, 7, 8, 9, 10, 11], hits);
  }

  lemma OneNameBHitsFrom0(hits: seq<bool>)
    requires hits == [false, false, true, false, false, false, true, false]
    ensures forall k :: 0 <= k < 4 ==> Hit(NAMES_HIERARCHY, Single(NAME_B), false, NAMES_TREES[k].node) == hits[k]
  {
    forall k | 0 <= k < 4
      ensures Hit(NAMES_HIERARCHY, Single(NAME_B), false, NAMES_TREES[k].node) == hits[k]
    {
      SingleCriteriaOnTree(NAMES_HIERARCHY, NAME_B.types[0], NAME_B.names[0], NAME_B.parameters[0], NAMES_TREES[k].node);
    }
  }

  lemma OneNameBHitsFrom4(hits: seq<bool>)
    requires hits == [false, false, true, false, false, false, true, false]
    ensures forall k :: 4 <= k < 8 ==> Hit(NAMES_HIERARCHY, Single(NAME_B), false, NAMES_TREES[k].node) == hits[k]
  {
    forall k | 4 <= k < 8
      ensures Hit(NAMES_HIERARCHY, Single(NAME_B), false, NAMES_TREES[k].node) == hits[k]
    {
      SingleCriteriaOnTree(NAMES_HIERARCHY, NAME_B.types[0], NAME_B.names[0], NAME_B.parameters[0], NAMES_TREES[k].node);
    }
  }

  lemma OneNameBLines(lines: seq<int>, picks: seq<bool>)
    requires |lines| == 8 && |picks| == 8
    requires !picks[0] && lines[0] == 2
    requires !picks[1] && lines[1] == 3
    requires picks[2] && lines[2] == 4
    requires !picks[3] && lines[3] == 7
    requires !picks[4] && lines[4] == 8
    requires !picks[5] && lines[5] == 9
    requires picks[6] && lines[6] == 10
    requires !picks[7] && lines[7] == 11
    ensures PickedRange(lines, picks, 0, 8) == [4, 10]
  {
    OneNameBLinesFrom0(lines, picks);
    OneNameBLinesFrom4(lines, picks);
    PickedRangeSplit(lines, picks, 0, 4, 8);
    assert [4] + [10] == [4, 10];
  }

  lemma OneNameBLinesFrom0(lines: seq<int>, picks: seq<bool>)
    requires |lines| == 8 && |picks| == 8
    requires !picks[0] && lines[0] == 2
    requires !picks[1] && lines[1] == 3
    requires picks[2] && lines[2] == 4
    requires !picks[3] && lines[3] == 7
    ensures PickedRange(lines, picks, 0, 4) == [4]
  {
    PickedOut(lines, picks, 3, 4, []);
    PickedIn(lines, picks, 2, 4, 4, []);
    PickedOut(lines, picks, 1, 4, [4]);
    PickedOut(lines, picks, 0, 4, [4]);
  }

  lemma OneNameBLinesFrom4(lines: seq<int>, picks: seq<bool>)
    requires |lines| == 8 && |picks| == 8
    requires !picks[4] && lines[4] == 8
    requires !picks[5] && lines[5] == 9
    requires picks[6] && lines[6] == 10
    requires !picks[7] && lines[7] == 11
    ensures PickedRange(lines, picks, 4, 8) == [10]
  {
    PickedOut(lines, picks, 7, 8, []);
    PickedIn(lines, picks, 6, 8, 10, []);
    PickedOut(lines, picks, 5, 8, [10]);
    PickedOut(lines, picks, 4, 8, [10]);
  }

  /** `names("a", "b")`: either name. */
  lemma SeveralNames()
    ensures MatchedLines(NAMES_HIERARCHY, Single(NAMES_A_B), false, NAMES_TREES) == [2, 4, 8, 10]
  {
    SeveralNamesJudged();
    SeveralNamesPicked();
  }

  lemma SeveralNamesPicked()
    ensures PickedRange([2, 3, 4, 7, 8, 9, 10, 11], [true, false, true, false, true, false, true, false], 0, 8) == [2, 4, 8, 10]
  {
    SeveralNamesLines([2, 3, 4, 7, 8, 9, 10, 11], [true, false, true, false, true, false, true, false]);
  }

  lemma SeveralNamesJudged()
    ensures MatchedLines(NAMES_HIERARCHY, Single(NAMES_A_B), false, NAMES_TREES) == PickedRange([2, 3, 4, 7, 8, 9, 10, 11], [true, false, true, false, true, false, true, false], 0, 8)
  {
    var hits := [true, false, true, false, true, false, true, false];
    SeveralNamesHitsFrom0(hits);
    SeveralNamesHitsFrom4(hits);
    NamesTreeLines();
    MatchedLinesPicked(NAMES_HIERARCHY, Single(NAMES_A_B), false, NAMES_TREES, [2, 3, 4, 7, 8, 9, 10, 11], hits);
  }

  lemma SeveralNamesHitsFrom0(hits: seq<bool>)
    requires hits == [true, false, true, false, true, false, true, false]
    ensures forall k :: 0 <= k < 4 ==> Hit(NAMES_HIERARCHY, Single(NAMES_A_B), false, NAMES_TREES[k].node) == hits[k]
  {
    forall k | 0 <= k < 4
      ensures Hit(NAMES_HIERARCHY, Single(NAMES_A_B), false, NAMES_TREES[k].node) == hits[k]
    {
      SingleCriteriaOnTree(NAMES_HIERARCHY, NAMES_A_B.types[0], NAMES_A_B.names[0], NAMES_A_B.parameters[0], NAMES_TREES[k].node);
    }
  }

  lemma SeveralNamesHitsFrom4(hits: seq<bool>)
    requires hits == [true, false, true, false, true, false, true, false]
    ensures forall k :: 4 <= k < 8 ==> Hit(NAMES_HIERARCHY, Single(NAMES_A_B), false, NAMES_TREES[k].node) == hits[k]
  {
    forall k | 4 <= k < 8
      ensures Hit(NAMES_HIERARCHY, Single(NAMES_A_B), false, NAMES_TREES[k].node) == hits[k]
    {
      SingleCriteriaOnTree(NAMES_HIERARCHY, NAMES_A_B.types[0], NAMES_A_B.names[0], NAMES_A_B.parameters[0], NAMES_TREES[k].node);
    }
  }

  lemma SeveralNamesLines(lines: seq<int>, picks: seq<bool>)
    requires |lines| == 8 && |picks| == 8
    requires picks[0] && lines[0] == 2
    requires !picks[1] && lines[1] == 3
    requires picks[2] && lines[2] == 4
    requires !picks[3] && lines[3] == 7
    requires picks[4] && lines[4] == 8
    requires !picks[5] && lines[5] == 9
    requires picks[6] && lines[6] == 10
    requires !picks[7] && lines[7] == 11
    ensures PickedRange(lines, picks, 0, 8) == [2, 4, 8, 10]
  {
    SeveralNamesLinesFrom0(lines, picks);
    SeveralNamesLinesFrom4(lines, picks);
    PickedRangeSplit(lines, picks, 0, 4, 8);
    assert [2, 4] + [8, 10] == [2, 4, 8, 10];
  }

  lemma SeveralNamesLinesFrom0(lines: seq<int>, picks: seq<bool>)
    requires |lines| == 8 && |picks| == 8
    requires picks[0] && lines[0] == 2
    requires !picks[1] && lines[1] == 3
    requires picks[2] && lines[2] == 4
    requires !picks[3] && lines[3] == 7
    ensures PickedRange(lines, picks, 0, 4) == [2, 4]
  {
    PickedOut(lines, picks, 3, 4, []);
    PickedIn(lines, picks, 2, 4, 4, []);
    PickedOut(lines, picks, 1, 4, [4]);
    PickedIn(lines, picks, 0, 4, 2, [4]);
  }

  lemma SeveralNamesLinesFrom4(lines: seq<int>, picks: seq<bool>)
    requires |lines| == 8 && |picks| == 8
    requires picks[4] && lines[4] == 8
    requires !picks[5] && lines[5] == 9
    requires picks[6] && lines[6] == 10
    requires !picks[7] && lines[7] == 11
    ensures PickedRange(lines, picks, 4, 8) == [8, 10]
  {
    PickedOut(lines, picks, 7, 8, []);
    PickedIn(lines, picks, 6, 8, 10, []);
    PickedOut(lines, picks, 5, 8, [10]);
    PickedIn(lines, picks, 4, 8, 8, [10]);
  }

  /** `name("a").name("b")`: a second `name` adds an alternative, as `names("a", "b")` does. */
  lemma RepeatedName()
    ensures MatchedLines(NAMES_HIERARCHY, Single(NAME_A_NAME_B), false, NAMES_TREES) == [2, 4, 8, 10]
  {
    RepeatedNameJudged();
    RepeatedNamePicked();
  }

  lemma RepeatedNamePicked()
    ensures PickedRange([2, 3, 4, 7, 8, 9, 10, 11], [true, false, true, false, true, false, true, false], 0, 8) == [2, 4, 8, 10]
  {
    RepeatedNameLines([2, 3, 4, 7, 8, 9, 10, 11], [true, false, true, false, true, false, true, false]);
  }

  lemma RepeatedNameJudged()
    ensures MatchedLines(NAMES_HIERARCHY, Single(NAME_A_NAME_B), false, NAMES_TREES) == PickedRange([2, 3, 4, 7, 8, 9, 10, 11], [true, false, true, false, true, false, true, false], 0, 8)
  {
    var hits := [true, false, true, false, true, false, true, false];
    RepeatedNameHitsFrom0(hits);
    RepeatedNameHitsFrom4(hits);
    NamesTreeLines();
    MatchedLinesPicked(NAMES_HIERARCHY, Single(NAME_A_NAME_B), false, NAMES_TREES, [2, 3, 4, 7, 8, 9, 10, 11], hits);
  }

  lemma RepeatedNameHitsFrom0(hits: seq<bool>)
    requires hits == [true, false, true, false, true, false, true, false]
    ensures forall k :: 0 <= k < 4 ==> Hit(NAMES_HIERARCHY, Single(NAME_A_NAME_B), false, NAMES_TREES[k].node) == hits[k]
  {
    forall k | 0 <= k < 4
      ensures Hit(NAMES_HIERARCHY, Single(NAME_A_NAME_B), false, NAMES_TREES[k].node) == hits[k]
    {
      SingleMatcherOnTree(NAMES_HIERARCHY, NAME_A_NAME_B, NAMES_TREES[k].node);
      assert SomeTypeCriterion(NAMES_HIERARCHY, NAME_A_NAME_B.types, TreeSubject(NAMES_TREES[k].node).owner) <==> TypeSatisfies(NAMES_HIERARCHY, NAME_A_NAME_B.types[0], TreeSubject(NAMES_TREES[k].node).owner);
      assert SomeParameterCriterion(NAMES_HIERARCHY, NAME_A_NAME_B.parameters, TreeSubject(NAMES_TREES[k].node).parameters) <==> ParametersSatisfy(NAMES_HIERARCHY, NAME_A_NAME_B.parameters[0], TreeSubject(NAMES_TREES[k].node).parameters);
      NameCriteriaOfTwo(NAME_A_NAME_B.names[0], NAME_A_NAME_B.names[1], TreeSubject(NAMES_TREES[k].node).name);
    }
  }

  lemma RepeatedNameHitsFrom4(hits: seq<bool>)
    requires hits == [true, false, true, false, true, false, true, false]
    ensures forall k :: 4 <= k < 8 ==> Hit(NAMES_HIERARCHY, Single(NAME_A_NAME_B), false, NAMES_TREES[k].node) == hits[k]
  {
    forall k | 4 <= k < 8
      ensures Hit(NAMES_HIERARCHY, Single(NAME_A_NAME_B), false, NAMES_TREES[k].node) == hits[k]
    {
      SingleMatcherOnTree(NAMES_HIERARCHY, NAME_A_NAME_B, NAMES_TREES[k].node);
      assert SomeTypeCriterion(NAMES_HIERARCHY, NAME_A_NAME_B.types, TreeSubject(NAMES_TREES[k].node).owner) <==> TypeSatisfies(NAMES_HIERARCHY, NAME_A_NAME_B.types[0], TreeSubject(NAMES_TREES[k].node).owner);
      assert SomeParameterCriterion(NAMES_HIERARCHY, NAME_A_NAME_B.parameters, TreeSubject(NAMES_TREES[k].node).parameters) <==> ParametersSatisfy(NAMES_HIERARCHY, NAME_A_NAME_B.parameters[0], TreeSubject(NAMES_TREES[k].node).parameters);
      NameCriteriaOfTwo(NAME_A_NAME_B.names[0], NAME_A_NAME_B.names[1], TreeSubject(NAMES_TREES[k].node).name);
    }
  }

  lemma RepeatedNameLines(lines: seq<int>, picks: seq<bool>)
    requires |lines| == 8 && |picks| == 8
    requires picks[0] && lines[0] == 2
    requires !picks[1] && lines[1] == 3
    requires picks[2] && lines[2] == 4
    requires !picks[3] && lines[3] == 7
    requires picks[4] && lines[4] == 8
    requires !picks[5] && lines[5] == 9
    requires picks[6] && lines[6] == 10
    requires !picks[7] && lines[7] == 11
    ensures PickedRange(lines, picks, 0, 8) == [2, 4, 8, 10]
  {
    RepeatedNameLinesFrom0(lines, picks);
    RepeatedNameLinesFrom4(lines, picks);
    PickedRangeSplit(lines, picks, 0, 4, 8);
    assert [2, 4] + [8, 10] == [2, 4, 8, 10];
  }

  lemma RepeatedNameLinesFrom0(lines: seq<int>, picks: seq<bool>)
    requires |lines| == 8 && |picks| == 8
    requires picks[0] && lines[0] == 2
    requires !picks[1] && lines[1] == 3
    requires picks[2] && lines[2] == 4
    requires !picks[3] && lines[3] == 7
    ensures PickedRange(lines, picks, 0, 4) == [2, 4]
  {
    PickedOut(lines, picks, 3, 4, []);
    PickedIn(lines, picks, 2, 4, 4, []);
    PickedOut(lines, picks, 1, 4, [4]);
    PickedIn(lines, picks, 0, 4, 2, [4]);
  }

  lemma RepeatedNameLinesFrom4(lines: seq<int>, picks: seq<bool>)
    requires |lines| == 8 && |picks| == 8
    requires picks[4] && lines[4] == 8
    requires !picks[5] && lines[5] == 9
    requires picks[6] && lines[6] == 10
    requires !picks[7] && lines[7] == 11
    ensures PickedRange(lines, picks, 4, 8) == [8, 10]
  {
    PickedOut(lines, picks, 7, 8, []);
    PickedIn(lines, picks, 6, 8, 10, []);
    PickedOut(lines, picks, 5, 8, [10]);
    PickedIn(lines, picks, 4, 8, 8, [10]);
  }

  /** `startWithName("a")`: `a` and `aa`, not `b`. */
  lemma StartWithName()
    ensures MatchedLines(NAMES_HIERARCHY, Single(START_A), false, NAMES_TREES) == [2, 3, 8, 9]
  {
    StartWithNameJudged();
    StartWithNamePicked();
  }

  lemma StartWithNamePicked()
    ensures PickedRange([2, 3, 4, 7, 8, 9, 10, 11], [true, true, false, false, true, true, false, false], 0, 8) == [2, 3, 8, 9]
  {
    StartWithNameLines([2, 3, 4, 7, 8, 9, 10, 11], [true, true, false, false, true, true, false, false]);
  }

  lemma StartWithNameJudged()
    ensures MatchedLines(NAMES_HIERARCHY, Single(START_A), false, NAMES_TREES) == PickedRange([2, 3, 4, 7, 8, 9, 10, 11], [true, true, false, false, true, true, false, false], 0, 8)
  {
    var hits := [true, true, false, false, true, true, false, false];
    StartWithNameHitsFrom0(hits);
    StartWithNameHitsFrom4(hits);
    NamesTreeLines();
    MatchedLinesPicked(NAMES_HIERARCHY, Single(START_A), false, NAMES_TREES, [2, 3, 4, 7, 8, 9, 10, 11], hits);
  }

  lemma StartWithNameHitsFrom0(hits: seq<bool>)
    requires hits == [true, true, false, false, true, true, false, false]
    ensures forall k :: 0 <= k < 4 ==> Hit(NAMES_HIERARCHY, Single(START_A), false, NAMES_TREES[k].node) == hits[k]
  {
    forall k | 0 <= k < 4
      ensures Hit(NAMES_HIERARCHY, Single(START_A), false, NAMES_TREES[k].node) == hits[k]
    {
      SingleCriteriaOnTree(NAMES_HIERARCHY, START_A.types[0], START_A.names[0], START_A.parameters[0], NAMES_TREES[k].node);
      PrefixOfOneCharacter('a', TreeSubject(NAMES_TREES[k].node).name);
    }
  }

  lemma StartWithNameHitsFrom4(hits: seq<bool>)
    requires hits == [true, true, false, false, true, true, false, false]
    ensures forall k :: 4 <= k < 8 ==> Hit(NAMES_HIERARCHY, Single(START_A), false, NAMES_TREES[k].node) == hits[k]
  {
    forall k | 4 <= k < 8
      ensures Hit(NAMES_HIERARCHY, Single(START_A), false, NAMES_TREES[k].node) == hits[k]
    {
      SingleCriteriaOnTree(NAMES_HIERARCHY, START_A.types[0], START_A.names[0], START_A.parameters[0], NAMES_TREES[k].node);
      PrefixOfOneCharacter('a', TreeSubject(NAMES_TREES[k].node).name);
    }
  }

  lemma StartWithNameLines(lines: seq<int>, picks: seq<bool>)
    requires |lines| == 8 && |picks| == 8
    requires picks[0] && lines[0] == 2
    requires picks[1] && lines[1] == 3
    requires !picks[2] && lines[2] == 4
    requires !picks[3] && lines[3] == 7
    requires picks[4] && lines[4] == 8
    requires picks[5] && lines[5] == 9
    requires !picks[6] && lines[6] == 10
    requires !picks[7] && lines[7] == 11
    ensures PickedRange(lines, picks, 0, 8) == [2, 3, 8, 9]
  {
    StartWithNameLinesFrom0(lines, picks);
    StartWithNameLinesFrom4(lines, picks);
    PickedRangeSplit(lines, picks, 0, 4, 8);
    assert [2, 3] + [8, 9] == [2, 3, 8, 9];
  }

  lemma StartWithNameLinesFrom0(lines: seq<int>, picks: seq<bool>)
    requires |lines| == 8 && |picks| == 8
    requires picks[0] && lines[0] == 2
    requires picks[1] && lines[1] == 3
    requires !picks[2] && lines[2] == 4
    requires !picks[3] && lines[3] == 7
    ensures PickedRange(lines, picks, 0, 4) == [2, 3]
  {
    PickedOut(lines, picks, 3, 4, []);
    PickedOut(lines, picks, 2, 4, []);
    PickedIn(lines, picks, 1, 4, 3, []);
    PickedIn(lines, picks, 0, 4, 2, [3]);
  }

  lemma StartWithNameLinesFrom4(lines: seq<int>, picks: seq<bool>)
    requires |lines| == 8 && |picks| == 8
    requires picks[4] && lines[4] == 8
    requires picks[5] && lines[5] == 9
    requires !picks[6] && lines[6] == 10
    requires !picks[7] && lines[7] == 11
    ensures PickedRange(lines, picks, 4, 8) == [8, 9]
  {
    PickedOut(lines, picks, 7, 8, []);
    PickedOut(lines, picks, 6, 8, []);
    PickedIn(lines, picks, 5, 8, 9, []);
    PickedIn(lines, picks, 4, 8, 8, [9]);
  }

  /** `anyName()`: every method of `A`, but neither `main` nor the constructor of `Main`. */
  lemma AnyNameOfA()
    ensures MatchedLines(NAMES_HIERARCHY, Single(ANY_NAME_OF_A), false, NAMES_TREES) == [2, 3, 4, 8, 9, 10]
  {
    AnyNameOfAJudged();
    AnyNameOfAPicked();
  }

  lemma AnyNameOfAPicked()
    ensures PickedRange([2, 3, 4, 7, 8, 9, 10, 11], [true, true, true, false, true, true, true, false], 0, 8) == [2, 3, 4, 8, 9, 10]
  {
    AnyNameOfALines([2, 3, 4, 7, 8, 9, 10, 11], [true, true, true, false, true, true, true, false]);
  }

  lemma AnyNameOfAJudged()
    ensures MatchedLines(NAMES_HIERARCHY, Single(ANY_NAME_OF_A), false, NAMES_TREES) == PickedRange([2, 3, 4, 7, 8, 9, 10, 11], [true, true, true, false, true, true, true, false], 0, 8)
  {
    var hits := [true, true, true, false, true, true, true, false];
    AnyNameOfAHitsFrom0(hits);
    AnyNameOfAHitsFrom4(hits);
    NamesTreeLines();
    MatchedLinesPicked(NAMES_HIERARCHY, Single(ANY_NAME_OF_A), false, NAMES_TREES, [2, 3, 4, 7, 8, 9, 10, 11], hits);
  }

  lemma AnyNameOfAHitsFrom0(hits: seq<bool>)
    requires hits == [true, true, true, false, true, true, true, false]
    ensures forall k :: 0 <= k < 4 ==> Hit(NAMES_HIERARCHY, Single(ANY_NAME_OF_A), false, NAMES_TREES[k].node) == hits[k]
  {
    forall k | 0 <= k < 4
      ensures Hit(NAMES_HIERARCHY, Single(ANY_NAME_OF_A), false, NAMES_TREES[k].node) == hits[k]
    {
      SingleCriteriaOnTree(NAMES_HIERARCHY, ANY_NAME_OF_A.types[0], ANY_NAME_OF_A.names[0], ANY_NAME_OF_A.parameters[0], NAMES_TREES[k].node);
    }
  }

  lemma AnyNameOfAHitsFrom4(hits: seq<bool>)
    requires hits == [true, true, true, false, true, true, true, false]
    ensures forall k :: 4 <= k < 8 ==> Hit(NAMES_HIERARCHY, Single(ANY_NAME_OF_A), false, NAMES_TREES[k].node) == hits[k]
  {
    forall k | 4 <= k < 8
      ensures Hit(NAMES_HIERARCHY, Single(ANY_NAME_OF_A), false, NAMES_TREES[k].node) == hits[k]
    {
      SingleCriteriaOnTree(NAMES_HIERARCHY, ANY_NAME_OF_A.types[0], ANY_NAME_OF_A.names[0], ANY_NAME_OF_A.parameters[0], NAMES_TREES[k].node);
    }
  }

  lemma AnyNameOfALines(lines: seq<int>, picks: seq<bool>)
    requires |lines| == 8 && |picks| == 8
    requires picks[0] && lines[0] == 2
    requires picks[1] && lines[1] == 3
    requires picks[2] && lines[2] == 4
    requires !picks[3] && lines[3] == 7
    requires picks[4] && lines[4] == 8
    requires picks[5] && lines[5] == 9
    requires picks[6] && lines[6] == 10
    requires !picks[7] && lines[7] == 11
    ensures PickedRange(lines, picks, 0, 8) == [2, 3, 4, 8, 9, 10]
  {
    AnyNameOfALinesFrom0(lines, picks);
    AnyNameOfALinesFrom4(lines, picks);
    PickedRangeSplit(lines, picks, 0, 4, 8);
    assert [2, 3, 4] + [8, 9, 10] == [2, 3, 4, 8, 9, 10];
  }

  lemma AnyNameOfALinesFrom0(lines: seq<int>, picks: seq<bool>)
    requires |lines| == 8 && |picks| == 8
    requires picks[0] && lines[0] == 2
    requires picks[1] && lines[1] == 3
    requires picks[2] && lines[2] == 4
    requires !picks[3] && lines[3] == 7
    ensures PickedRange(lines, picks, 0, 4) == [2, 3, 4]
  {
    PickedOut(lines, picks, 3, 4, []);
    PickedIn(lines, picks, 2, 4, 4, []);
    PickedIn(lines, picks, 1, 4, 3, [4]);
    PickedIn(lines, picks, 0, 4, 2, [3, 4]);
  }

  lemma AnyNameOfALinesFrom4(lines: seq<int>, picks: seq<bool>)
    requires |lines| == 8 && |picks| == 8
    requires picks[4] && lines[4] == 8
    requires picks[5] && lines[5] == 9
    requires picks[6] && lines[6] == 10
    requires !picks[7] && lines[7] == 11
    ensures PickedRange(lines, picks, 4, 8) == [8, 9, 10]
  {
    PickedOut(lines, picks, 7, 8, []);
    PickedIn(lines, picks, 6, 8, 10, []);
    PickedIn(lines, picks, 5, 8, 9, [10]);
    PickedIn(lines, picks, 4, 8, 8, [9, 10]);
  }

  /** `name("B"::equalsIgnoreCase)`: the method `b`. */
  lemma NamePredicateIgnoringCase()
    ensures MatchedLines(NAMES_HIERARCHY, Single(IGNORE_CASE_B), false, NAMES_TREES) == [4, 10]
  {
    NamePredicateIgnoringCaseJudged();
    NamePredicateIgnoringCasePicked();
  }

  lemma NamePredicateIgnoringCasePicked()
    ensures PickedRange([2, 3, 4, 7, 8, 9, 10, 11], [false, false, true, false, false, false, true, false], 0, 8) == [4, 10]
  {
    NamePredicateIgnoringCaseLines([2, 3, 4, 7, 8, 9, 10, 11], [false, false, true, false, false, false, true, false]);
  }

  lemma NamePredicateIgnoringCaseJudged()
    ensures MatchedLines(NAMES_HIERARCHY, Single(IGNORE_CASE_B), false, NAMES_TREES) == PickedRange([2, 3, 4, 7, 8, 9, 10, 11], [false, false, true, false, false, false, true, false], 0, 8)
  {
    var hits := [false, false, true, false, false, false, true, false];
    NamePredicateIgnoringCaseHitsFrom0(hits);
    NamePredicateIgnoringCaseHitsFrom4(hits);
    NamesTreeLines();
    MatchedLinesPicked(NAMES_HIERARCHY, Single(IGNORE_CASE_B), false, NAMES_TREES, [2, 3, 4, 7, 8, 9, 10, 11], hits);
  }

  lemma NamePredicateIgnoringCaseHitsFrom0(hits: seq<bool>)
    requires hits == [false, false, true, false, false, false, true, false]
    ensures forall k :: 0 <= k < 4 ==> Hit(NAMES_HIERARCHY, Single(IGNORE_CASE_B), false, NAMES_TREES[k].node) == hits[k]
  {
    forall k | 0 <= k < 4
      ensures Hit(NAMES_HIERARCHY, Single(IGNORE_CASE_B), false, NAMES_TREES[k].node) == hits[k]
    {
      SingleCriteriaOnTree(NAMES_HIERARCHY, IGNORE_CASE_B.types[0], IGNORE_CASE_B.names[0], IGNORE_CASE_B.parameters[0], NAMES_TREES[k].node);
    }
  }

  lemma NamePredicateIgnoringCaseHitsFrom4(hits: seq<bool>)
    requires hits == [false, false, true, false, false, false, true, false]
    ensures forall k :: 4 <= k < 8 ==> Hit(NAMES_HIERARCHY, Single(IGNORE_CASE_B), false, NAMES_TREES[k].node) == hits[k]
  {
    forall k | 4 <= k < 8
      ensures Hit(NAMES_HIERARCHY, Single(IGNORE_CASE_B), false, NAMES_TREES[k].node) == hits[k]
    {
      SingleCriteriaOnTree(NAMES_HIERARCHY, IGNORE_CASE_B.types[0], IGNORE_CASE_B.names[0], IGNORE_CASE_B.parameters[0], NAMES_TREES[k].node);
    }
  }

  lemma NamePredicateIgnoringCaseLines(lines: seq<int>, picks: seq<bool>)
    requires |lines| == 8 && |picks| == 8
    requires !picks[0] && lines[0] == 2
    requires !picks[1] && lines[1] == 3
    requires picks[2] && lines[2] == 4
    requires !picks[3] && lines[3] == 7
    requires !picks[4] && lines[4] == 8
    requires !picks[5] && lines[5] == 9
    requires picks[6] && lines[6] == 10
    requires !picks[7] && lines[7] == 11
    ensures PickedRange(lines, picks, 0, 8) == [4, 10]
  {
    NamePredicateIgnoringCaseLinesFrom0(lines, picks);
    NamePredicateIgnoringCaseLinesFrom4(lines, picks);
    PickedRangeSplit(lines, picks, 0, 4, 8);
    assert [4] + [10] == [4, 10];
  }

  lemma NamePredicateIgnoringCaseLinesFrom0(lines: seq<int>, picks: seq<bool>)
    requires |lines| == 8 && |picks| == 8
    requires !picks[0] && lines[0] == 2
    requires !picks[1] && lines[1] == 3
    requires picks[2] && lines[2] == 4
    requires !picks[3] && lines[3] == 7
    ensures PickedRange(lines, picks, 0, 4) == [4]
  {
    PickedOut(lines, picks, 3, 4, []);
    PickedIn(lines, picks, 2, 4, 4, []);
    PickedOut(lines, picks, 1, 4, [4]);
    PickedOut(lines, picks, 0, 4, [4]);
  }

  lemma NamePredicateIgnoringCaseLinesFrom4(lines: seq<int>, picks: seq<bool>)
    requires |lines| == 8 && |picks| == 8
    requires !picks[4] && lines[4] == 8
    requires !picks[5] && lines[5] == 9
    requires picks[6] && lines[6] == 10
    requires !picks[7] && lines[7] == 11
    ensures PickedRange(lines, picks, 4, 8) == [10]
  {
    PickedOut(lines, picks, 7, 8, []);
    PickedIn(lines, picks, 6, 8, 10, []);
    PickedOut(lines, picks, 5, 8, [10]);
    PickedOut(lines, picks, 4, 8, [10]);
  }

  /** `ofType("Main").constructor()`: the `new Main()` expression, and no method. */
  lemma ConstructorOfMain()
    ensures MatchedLines(NAMES_HIERARCHY, Single(CTOR_MAIN), false, NAMES_TREES) == [11]
  {
    ConstructorOfMainJudged();
    ConstructorOfMainPicked();
  }

  lemma ConstructorOfMainPicked()
    ensures PickedRange([2, 3, 4, 7, 8, 9, 10, 11], [false, false, false, false, false, false, false, true], 0, 8) == [11]
  {
    ConstructorOfMainLines([2, 3, 4, 7, 8, 9, 10, 11], [false, false, false, false, false, false, false, true]);
  }

  lemma ConstructorOfMainJudged()
    ensures MatchedLines(NAMES_HIERARCHY, Single(CTOR_MAIN), false, NAMES_TREES) == PickedRange([2, 3, 4, 7, 8, 9, 10, 11], [false, false, false, false, false, false, false, true], 0, 8)
  {
    var hits := [false, false, false, false, false, false, false, true];
    ConstructorOfMainHitsFrom0(hits);
    ConstructorOfMainHitsFrom4(hits);
    NamesTreeLines();
    MatchedLinesPicked(NAMES_HIERARCHY, Single(CTOR_MAIN), false, NAMES_TREES, [2, 3, 4, 7, 8, 9, 10, 11], hits);
  }

  lemma ConstructorOfMainHitsFrom0(hits: seq<bool>)
    requires hits == [false, false, false, false, false, false, false, true]
    ensures forall k :: 0 <= k < 4 ==> Hit(NAMES_HIERARCHY, Single(CTOR_MAIN), false, NAMES_TREES[k].node) == hits[k]
  {
    forall k | 0 <= k < 4
      ensures Hit(NAMES_HIERARCHY, Single(CTOR_MAIN), false, NAMES_TREES[k].node) == hits[k]
    {
      SingleCriteriaOnTree(NAMES_HIERARCHY, CTOR_MAIN.types[0], CTOR_MAIN.names[0], CTOR_MAIN.parameters[0], NAMES_TREES[k].node);
    }
  }

  lemma ConstructorOfMainHitsFrom4(hits: seq<bool>)
    requires hits == [false, false, false, false, false, false, false, true]
    ensures forall k :: 4 <= k < 8 ==> Hit(NAMES_HIERARCHY, Single(CTOR_MAIN), false, NAMES_TREES[k].node) == hits[k]
  {
    forall k | 4 <= k < 8
      ensures Hit(NAMES_HIERARCHY, Single(CTOR_MAIN), false, NAMES_TREES[k].node) == hits[k]
    {
      SingleCriteriaOnTree(NAMES_HIERARCHY, CTOR_MAIN.types[0], CTOR_MAIN.names[0], CTOR_MAIN.parameters[0], NAMES_TREES[k].node);
    }
  }

  lemma ConstructorOfMainLines(lines: seq<int>, picks: seq<bool>)
    requires |lines| == 8 && |picks| == 8
    requires !picks[0] && lines[0] == 2
    requires !picks[1] && lines[1] == 3
    requires !picks[2] && lines[2] == 4
    requires !picks[3] && lines[3] == 7
    requires !picks[4] && lines[4] == 8
    requires !picks[5] && lines[5] == 9
    requires !picks[6] && lines[6] == 10
    requires picks[7] && lines[7] == 11
    ensures PickedRange(lines, picks, 0, 8) == [11]
  {
    ConstructorOfMainLinesFrom0(lines, picks);
    ConstructorOfMainLinesFrom4(lines, picks);
    PickedRangeSplit(lines, picks, 0, 4, 8);
    assert [] + [11] == [11];
  }

  lemma ConstructorOfMainLinesFrom0(lines: seq<int>, picks: seq<bool>)
    requires |lines| == 8 && |picks| == 8
    requires !picks[0] && lines[0] == 2
    requires !picks[1] && lines[1] == 3
    requires !picks[2] && lines[2] == 4
    requires !picks[3] && lines[3] == 7
    ensures PickedRange(lines, picks, 0, 4) == []
  {
    PickedOut(lines, picks, 3, 4, []);
    PickedOut(lines, picks, 2, 4, []);
    PickedOut(lines, picks, 1, 4, []);
    PickedOut(lines, picks, 0, 4, []);
  }

  lemma ConstructorOfMainLinesFrom4(lines: seq<int>, picks: seq<bool>)
    requires |lines| == 8 && |picks| == 8
    requires !picks[4] && lines[4] == 8
    requires !picks[5] && lines[5] == 9
    requires !picks[6] && lines[6] == 10
    requires picks[7] && lines[7] == 11
    ensures PickedRange(lines, picks, 4, 8) == [11]
  {
    PickedIn(lines, picks, 7, 8, 11, []);
    PickedOut(lines, picks, 6, 8, [11]);
    PickedOut(lines, picks, 5, 8, [11]);
    PickedOut(lines, picks, 4, 8, [11]);
  }
}
