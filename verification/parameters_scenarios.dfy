/**
  The parameter-list tests of the matcher test suite, replayed on the model.
*/
module ParametersScenarios {
  import opened TypeHierarchy
  import opened Criteria
  import opened Matchers
  import opened MatchVisitor

  const OBJECT := "java.lang.Object"
  const INT: JType := Known("int")
  const LONG: JType := Known("long")
  const STRING: JType := Known("java.lang.String")

  const PARAMETERS_HIERARCHY: Hierarchy := map["A" := [OBJECT]]

  /**
    The four overloads of `f` in interface `A`, `main(A a)`, the calls
    `a.f()`, `a.f(12)`, `a.f(12, 15L)` and the reference `a::f`, which
    resolves to `f(int)`.
  */
  const PARAMETERS_TREES: seq<Located> := [
    Located(Declaration(Subject(Known("A"), "f", [], true)), 2),
    Located(Declaration(Subject(Known("A"), "f", [INT], true)), 3),
    Located(Declaration(Subject(Known("A"), "f", [INT, LONG], true)), 4),
    Located(Declaration(Subject(Known("A"), "f", [STRING], true)), 5),
    Located(Declaration(Subject(Known("A"), "main", [Known("A")], true)), 6),
    Located(Invocation(Qualified(Known("A")), Subject(Known("A"), "f", [], true)), 7),
    Located(Invocation(Qualified(Known("A")), Subject(Known("A"), "f", [INT], true)), 8),
    Located(Invocation(Qualified(Known("A")), Subject(Known("A"), "f", [INT, LONG], true)), 9),
    Located(Reference(Known("A"), Subject(Known("A"), "f", [INT], true)), 10)
  ]

  const WITHOUT: MethodMatcher := MethodMatcher([ExactType("A")], [Names({"f"})], [NoParameters])
  const WITH_INT: MethodMatcher := MethodMatcher([ExactType("A")], [Names({"f"})], [ExactParameters([ExactType("int")])])
  const WITH_INT_LONG: MethodMatcher := MethodMatcher([ExactType("A")], [Names({"f"})], [ExactParameters([ExactType("int"), ExactType("long")])])
  const INT_OR_INT_LONG: MethodMatcher := MethodMatcher([ExactType("A")], [Names({"f"})],
    [ExactParameters([ExactType("int")]), ExactParameters([ExactType("int"), ExactType("long")])])
  const NONE_INT_INT_LONG: MethodMatcher := MethodMatcher([ExactType("A")], [Names({"f"})],
    [NoParameters, ExactParameters([ExactType("int")]), ExactParameters([ExactType("int"), ExactType("long")])])
  const START_INT: MethodMatcher := MethodMatcher([ExactType("A")], [Names({"f"})], [PrefixParameters([ExactType("int")])])
  const ANY_PARAMETERS: MethodMatcher := MethodMatcher([ExactType("A")], [Names({"f"})], [AnyParameters])
  /** `type -> true`, `type -> type.is("int")` and `type -> !type.is("int")`. */
  const ALWAYS: seq<JType> -> bool := _ => true
  const IS_INT: JType -> bool := t => Is(t, "int")
  const IS_NOT_INT: JType -> bool := t => !Is(t, "int")
  const EVERY_LIST: MethodMatcher := MethodMatcher([ExactType("A")], [Names({"f"})], [ListPredicate(ALWAYS)])
  const INT_THEN_NOT_INT: MethodMatcher := MethodMatcher([ExactType("A")], [Names({"f"})],
    [ExactParameters([TypePredicate(IS_INT), TypePredicate(IS_NOT_INT)])])
  const START_INT_PREDICATE: MethodMatcher := MethodMatcher([ExactType("A")], [Names({"f"})], [PrefixParameters([TypePredicate(IS_INT)])])

  /** The line of every tree, in visiting order. */
  lemma ParametersTreeLines()
    ensures |PARAMETERS_TREES| == 9
    ensures forall k :: 0 <= k < 9 ==> PARAMETERS_TREES[k].line == [2, 3, 4, 5, 6, 7, 8, 9, 10][k]
  {
  }

  /** `withoutParameters()`: `f()` and its call. */
  lemma WithoutParameters()
    ensures MatchedLines(PARAMETERS_HIERARCHY, Single(WITHOUT), false, PARAMETERS_TREES) == [2, 7]
  {
    WithoutParametersJudged();
    WithoutParametersPicked();
  }

  lemma WithoutParametersPicked()
    ensures PickedRange([2, 3, 4, 5, 6, 7, 8, 9, 10], [true, false, false, false, false, true, false, false, false], 0, 9) == [2, 7]
  {
    WithoutParametersLines([2, 3, 4, 5, 6, 7, 8, 9, 10], [true, false, false, false, false, true, false, false, false]);
  }

  lemma WithoutParametersJudged()
    ensures MatchedLines(PARAMETERS_HIERARCHY, Single(WITHOUT), false, PARAMETERS_TREES) == PickedRange([2, 3, 4, 5, 6, 7, 8, 9, 10], [true, false, false, false, false, true, false, false, false], 0, 9)
  {
    var hits := [true, false, false, false, false, true, false, false, false];
    WithoutParametersHitsFrom0(hits);
    WithoutParametersHitsFrom4(hits);
    WithoutParametersHitsFrom8(hits);
    ParametersTreeLines();
    MatchedLinesPicked(PARAMETERS_HIERARCHY, Single(WITHOUT), false, PARAMETERS_TREES, [2, 3, 4, 5, 6, 7, 8, 9, 10], hits);
  }

  lemma WithoutParametersHitsFrom0(hits: seq<bool>)
    requires hits == [true, false, false, false, false, true, false, false, false]
    ensures forall k :: 0 <= k < 4 ==> Hit(PARAMETERS_HIERARCHY, Single(WITHOUT), false, PARAMETERS_TREES[k].node) == hits[k]
  {
    forall k | 0 <= k < 4
      ensures Hit(PARAMETERS_HIERARCHY, Single(WITHOUT), false, PARAMETERS_TREES[k].node) == hits[k]
    {
      SingleCriteriaOnTree(PARAMETERS_HIERARCHY, WITHOUT.types[0], WITHOUT.names[0], WITHOUT.parameters[0], PARAMETERS_TREES[k].node);
    }
  }

  lemma WithoutParametersHitsFrom4(hits: seq<bool>)
    requires hits == [true, false, false, false, false, true, false, false, false]
    ensures forall k :: 4 <= k < 8 ==> Hit(PARAMETERS_HIERARCHY, Single(WITHOUT), false, PARAMETERS_TREES[k].node) == hits[k]
  {
    forall k | 4 <= k < 8
      ensures Hit(PARAMETERS_HIERARCHY, Single(WITHOUT), false, PARAMETERS_TREES[k].node) == hits[k]
    {
      SingleCriteriaOnTree(PARAMETERS_HIERARCHY, WITHOUT.types[0], WITHOUT.names[0], WITHOUT.parameters[0], PARAMETERS_TREES[k].node);
    }
  }

  lemma WithoutParametersHitsFrom8(hits: seq<bool>)
    requires hits == [true, false, false, false, false, true, false, false, false]
    ensures forall k :: 8 <= k < 9 ==> Hit(PARAMETERS_HIERARCHY, Single(WITHOUT), false, PARAMETERS_TREES[k].node) == hits[k]
  {
    forall k | 8 <= k < 9
      ensures Hit(PARAMETERS_HIERARCHY, Single(WITHOUT), false, PARAMETERS_TREES[k].node) == hits[k]
    {
      SingleCriteriaOnTree(PARAMETERS_HIERARCHY, WITHOUT.types[0], WITHOUT.names[0], WITHOUT.parameters[0], PARAMETERS_TREES[k].node);
    }
  }

  lemma WithoutParametersLines(lines: seq<int>, picks: seq<bool>)
    requires |lines| == 9 && |picks| == 9
    requires picks[0] && lines[0] == 2
    requires !picks[1] && lines[1] == 3
    requires !picks[2] && lines[2] == 4
    requires !picks[3] && lines[3] == 5
    requires !picks[4] && lines[4] == 6
    requires picks[5] && lines[5] == 7
    requires !picks[6] && lines[6] == 8
    requires !picks[7] && lines[7] == 9
    requires !picks[8] && lines[8] == 10
    ensures PickedRange(lines, picks, 0, 9) == [2, 7]
  {
    WithoutParametersLinesFrom0(lines, picks);
    WithoutParametersLinesFrom4(lines, picks);
    WithoutParametersLinesFrom8(lines, picks);
    PickedRangeSplit(lines, picks, 0, 8, 9);
    PickedRangeSplit(lines, picks, 0, 4, 8);
    assert [2] + [7] + [] == [2, 7];
  }

  lemma WithoutParametersLinesFrom0(lines: seq<int>, picks: seq<bool>)
    requires |lines| == 9 && |picks| == 9
    requires picks[0] && lines[0] == 2
    requires !picks[1] && lines[1] == 3
    requires !picks[2] && lines[2] == 4
    requires !picks[3] && lines[3] == 5
    ensures PickedRange(lines, picks, 0, 4) == [2]
  {
    PickedOut(lines, picks, 3, 4, []);
    PickedOut(lines, picks, 2, 4, []);
    PickedOut(lines, picks, 1, 4, []);
    PickedIn(lines, picks, 0, 4, 2, []);
  }

  lemma WithoutParametersLinesFrom4(lines: seq<int>, picks: seq<bool>)
    requires |lines| == 9 && |picks| == 9
    requires !picks[4] && lines[4] == 6
    requires picks[5] && lines[5] == 7
    requires !picks[6] && lines[6] == 8
    requires !picks[7] && lines[7] == 9
    ensures PickedRange(lines, picks, 4, 8) == [7]
  {
    PickedOut(lines, picks, 7, 8, []);
    PickedOut(lines, picks, 6, 8, []);
    PickedIn(lines, picks, 5, 8, 7, []);
    PickedOut(lines, picks, 4, 8, [7]);
  }

  lemma WithoutParametersLinesFrom8(lines: seq<int>, picks: seq<bool>)
    requires |lines| == 9 && |picks| == 9
    requires !picks[8] && lines[8] == 10
    ensures PickedRange(lines, picks, 8, 9) == []
  {
    PickedOut(lines, picks, 8, 9, []);
  }

  /** `withParameters("int")`: `f(int)`, its call and the reference `a::f`. */
  lemma WithParametersInt()
    ensures MatchedLines(PARAMETERS_HIERARCHY, Single(WITH_INT), false, PARAMETERS_TREES) == [3, 8, 10]
  {
    WithParametersIntJudged();
    WithParametersIntPicked();
  }

  lemma WithParametersIntPicked()
    ensures PickedRange([2, 3, 4, 5, 6, 7, 8, 9, 10], [false, true, false, false, false, false, true, false, true], 0, 9) == [3, 8, 10]
  {
    WithParametersIntLines([2, 3, 4, 5, 6, 7, 8, 9, 10], [false, true, false, false, false, false, true, false, true]);
  }

  lemma WithParametersIntJudged()
    ensures MatchedLines(PARAMETERS_HIERARCHY, Single(WITH_INT), false, PARAMETERS_TREES) == PickedRange([2, 3, 4, 5, 6, 7, 8, 9, 10], [false, true, false, false, false, false, true, false, true], 0, 9)
  {
    var hits := [false, true, false, false, false, false, true, false, true];
    WithParametersIntHitsFrom0(hits);
    WithParametersIntHitsFrom4(hits);
    WithParametersIntHitsFrom8(hits);
    ParametersTreeLines();
    MatchedLinesPicked(PARAMETERS_HIERARCHY, Single(WITH_INT), false, PARAMETERS_TREES, [2, 3, 4, 5, 6, 7, 8, 9, 10], hits);
  }

  lemma WithParametersIntHitsFrom0(hits: seq<bool>)
    requires hits == [false, true, false, false, false, false, true, false, true]
    ensures forall k :: 0 <= k < 4 ==> Hit(PARAMETERS_HIERARCHY, Single(WITH_INT), false, PARAMETERS_TREES[k].node) == hits[k]
  {
    forall k | 0 <= k < 4
      ensures Hit(PARAMETERS_HIERARCHY, Single(WITH_INT), false, PARAMETERS_TREES[k].node) == hits[k]
    {
      SingleCriteriaOnTree(PARAMETERS_HIERARCHY, WITH_INT.types[0], WITH_INT.names[0], WITH_INT.parameters[0], PARAMETERS_TREES[k].node);
      ExactParametersOfOne(PARAMETERS_HIERARCHY, ExactType("int"), TreeSubject(PARAMETERS_TREES[k].node).parameters);
    }
  }

  lemma WithParametersIntHitsFrom4(hits: seq<bool>)
    requires hits == [false, true, false, false, false, false, true, false, true]
    ensures forall k :: 4 <= k < 8 ==> Hit(PARAMETERS_HIERARCHY, Single(WITH_INT), false, PARAMETERS_TREES[k].node) == hits[k]
  {
    forall k | 4 <= k < 8
      ensures Hit(PARAMETERS_HIERARCHY, Single(WITH_INT), false, PARAMETERS_TREES[k].node) == hits[k]
    {
      SingleCriteriaOnTree(PARAMETERS_HIERARCHY, WITH_INT.types[0], WITH_INT.names[0], WITH_INT.parameters[0], PARAMETERS_TREES[k].node);
      ExactParametersOfOne(PARAMETERS_HIERARCHY, ExactType("int"), TreeSubject(PARAMETERS_TREES[k].node).parameters);
    }
  }

  lemma WithParametersIntHitsFrom8(hits: seq<bool>)
    requires hits == [false, true, false, false, false, false, true, false, true]
    ensures forall k :: 8 <= k < 9 ==> Hit(PARAMETERS_HIERARCHY, Single(WITH_INT), false, PARAMETERS_TREES[k].node) == hits[k]
  {
    forall k | 8 <= k < 9
      ensures Hit(PARAMETERS_HIERARCHY, Single(WITH_INT), false, PARAMETERS_TREES[k].node) == hits[k]
    {
      SingleCriteriaOnTree(PARAMETERS_HIERARCHY, WITH_INT.types[0], WITH_INT.names[0], WITH_INT.parameters[0], PARAMETERS_TREES[k].node);
      ExactParametersOfOne(PARAMETERS_HIERARCHY, ExactType("int"), TreeSubject(PARAMETERS_TREES[k].node).parameters);
    }
  }

  lemma WithParametersIntLines(lines: seq<int>, picks: seq<bool>)
    requires |lines| == 9 && |picks| == 9
    requires !picks[0] && lines[0] == 2
    requires picks[1] && lines[1] == 3
    requires !picks[2] && lines[2] == 4
    requires !picks[3] && lines[3] == 5
    requires !picks[4] && lines[4] == 6
    requires !picks[5] && lines[5] == 7
    requires picks[6] && lines[6] == 8
    requires !picks[7] && lines[7] == 9
    requires picks[8] && lines[8] == 10
    ensures PickedRange(lines, picks, 0, 9) == [3, 8, 10]
  {
    WithParametersIntLinesFrom0(lines, picks);
    WithParametersIntLinesFrom4(lines, picks);
    WithParametersIntLinesFrom8(lines, picks);
    PickedRangeSplit(lines, picks, 0, 8, 9);
    PickedRangeSplit(lines, picks, 0, 4, 8);
    assert [3] + [8] + [10] == [3, 8, 10];
  }

  lemma WithParametersIntLinesFrom0(lines: seq<int>, picks: seq<bool>)
    requires |lines| == 9 && |picks| == 9
    requires !picks[0] && lines[0] == 2
    requires picks[1] && lines[1] == 3
    requires !picks[2] && lines[2] == 4
    requires !picks[3] && lines[3] == 5
    ensures PickedRange(lines, picks, 0, 4) == [3]
  {
    PickedOut(lines, picks, 3, 4, []);
    PickedOut(lines, picks, 2, 4, []);
    PickedIn(lines, picks, 1, 4, 3, []);
    PickedOut(lines, picks, 0, 4, [3]);
  }

  lemma WithParametersIntLinesFrom4(lines: seq<int>, picks: seq<bool>)
    requires |lines| == 9 && |picks| == 9
    requires !picks[4] && lines[4] == 6
    requires !picks[5] && lines[5] == 7
    requires picks[6] && lines[6] == 8
    requires !picks[7] && lines[7] == 9
    ensures PickedRange(lines, picks, 4, 8) == [8]
  {
    PickedOut(lines, picks, 7, 8, []);
    PickedIn(lines, picks, 6, 8, 8, []);
    PickedOut(lines, picks, 5, 8, [8]);
    PickedOut(lines, picks, 4, 8, [8]);
  }

  lemma WithParametersIntLinesFrom8(lines: seq<int>, picks: seq<bool>)
    requires |lines| == 9 && |picks| == 9
    requires picks[8] && lines[8] == 10
    ensures PickedRange(lines, picks, 8, 9) == [10]
  {
    PickedIn(lines, picks, 8, 9, 10, []);
  }

  /** `withParameters("int", "long")`: `f(int, long)` and its call. */
  lemma WithParametersIntLong()
    ensures MatchedLines(PARAMETERS_HIERARCHY, Single(WITH_INT_LONG), false, PARAMETERS_TREES) == [4, 9]
  {
    WithParametersIntLongJudged();
    WithParametersIntLongPicked();
  }

  lemma WithParametersIntLongPicked()
    ensures PickedRange([2, 3, 4, 5, 6, 7, 8, 9, 10], [false, false, true, false, false, false, false, true, false], 0, 9) == [4, 9]
  {
    WithParametersIntLongLines([2, 3, 4, 5, 6, 7, 8, 9, 10], [false, false, true, false, false, false, false, true, false]);
  }

  lemma WithParametersIntLongJudged()
    ensures MatchedLines(PARAMETERS_HIERARCHY, Single(WITH_INT_LONG), false, PARAMETERS_TREES) == PickedRange([2, 3, 4, 5, 6, 7, 8, 9, 10], [false, false, true, false, false, false, false, true, false], 0, 9)
  {
    var hits := [false, false, true, false, false, false, false, true, false];
    WithParametersIntLongHitsFrom0(hits);
    WithParametersIntLongHitsFrom4(hits);
    WithParametersIntLongHitsFrom8(hits);
    ParametersTreeLines();
    MatchedLinesPicked(PARAMETERS_HIERARCHY, Single(WITH_INT_LONG), false, PARAMETERS_TREES, [2, 3, 4, 5, 6, 7, 8, 9, 10], hits);
  }

  lemma WithParametersIntLongHitsFrom0(hits: seq<bool>)
    requires hits == [false, false, true, false, false, false, false, true, false]
    ensures forall k :: 0 <= k < 4 ==> Hit(PARAMETERS_HIERARCHY, Single(WITH_INT_LONG), false, PARAMETERS_TREES[k].node) == hits[k]
  {
    forall k | 0 <= k < 4
      ensures Hit(PARAMETERS_HIERARCHY, Single(WITH_INT_LONG), false, PARAMETERS_TREES[k].node) == hits[k]
    {
      SingleCriteriaOnTree(PARAMETERS_HIERARCHY, WITH_INT_LONG.types[0], WITH_INT_LONG.names[0], WITH_INT_LONG.parameters[0], PARAMETERS_TREES[k].node);
      ExactParametersOfTwo(PARAMETERS_HIERARCHY, ExactType("int"), ExactType("long"), TreeSubject(PARAMETERS_TREES[k].node).parameters);
    }
  }

  lemma WithParametersIntLongHitsFrom4(hits: seq<bool>)
    requires hits == [false, false, true, false, false, false, false, true, false]
    ensures forall k :: 4 <= k < 8 ==> Hit(PARAMETERS_HIERARCHY, Single(WITH_INT_LONG), false, PARAMETERS_TREES[k].node) == hits[k]
  {
    forall k | 4 <= k < 8
      ensures Hit(PARAMETERS_HIERARCHY, Single(WITH_INT_LONG), false, PARAMETERS_TREES[k].node) == hits[k]
    {
      SingleCriteriaOnTree(PARAMETERS_HIERARCHY, WITH_INT_LONG.types[0], WITH_INT_LONG.names[0], WITH_INT_LONG.parameters[0], PARAMETERS_TREES[k].node);
      ExactParametersOfTwo(PARAMETERS_HIERARCHY, ExactType("int"), ExactType("long"), TreeSubject(PARAMETERS_TREES[k].node).parameters);
    }
  }

  lemma WithParametersIntLongHitsFrom8(hits: seq<bool>)
    requires hits == [false, false, true, false, false, false, false, true, false]
    ensures forall k :: 8 <= k < 9 ==> Hit(PARAMETERS_HIERARCHY, Single(WITH_INT_LONG), false, PARAMETERS_TREES[k].node) == hits[k]
  {
    forall k | 8 <= k < 9
      ensures Hit(PARAMETERS_HIERARCHY, Single(WITH_INT_LONG), false, PARAMETERS_TREES[k].node) == hits[k]
    {
      SingleCriteriaOnTree(PARAMETERS_HIERARCHY, WITH_INT_LONG.types[0], WITH_INT_LONG.names[0], WITH_INT_LONG.parameters[0], PARAMETERS_TREES[k].node);
      ExactParametersOfTwo(PARAMETERS_HIERARCHY, ExactType("int"), ExactType("long"), TreeSubject(PARAMETERS_TREES[k].node).parameters);
    }
  }

  lemma WithParametersIntLongLines(lines: seq<int>, picks: seq<bool>)
    requires |lines| == 9 && |picks| == 9
    requires !picks[0] && lines[0] == 2
    requires !picks[1] && lines[1] == 3
    requires picks[2] && lines[2] == 4
    requires !picks[3] && lines[3] == 5
    requires !picks[4] && lines[4] == 6
    requires !picks[5] && lines[5] == 7
    requires !picks[6] && lines[6] == 8
    requires picks[7] && lines[7] == 9
    requires !picks[8] && lines[8] == 10
    ensures PickedRange(lines, picks, 0, 9) == [4, 9]
  {
    WithParametersIntLongLinesFrom0(lines, picks);
    WithParametersIntLongLinesFrom4(lines, picks);
    WithParametersIntLongLinesFrom8(lines, picks);
    PickedRangeSplit(lines, picks, 0, 8, 9);
    PickedRangeSplit(lines, picks, 0, 4, 8);
    assert [4] + [9] + [] == [4, 9];
  }

  lemma WithParametersIntLongLinesFrom0(lines: seq<int>, picks: seq<bool>)
    requires |lines| == 9 && |picks| == 9
    requires !picks[0] && lines[0] == 2
    requires !picks[1] && lines[1] == 3
    requires picks[2] && lines[2] == 4
    requires !picks[3] && lines[3] == 5
    ensures PickedRange(lines, picks, 0, 4) == [4]
  {
    PickedOut(lines, picks, 3, 4, []);
    PickedIn(lines, picks, 2, 4, 4, []);
    PickedOut(lines, picks, 1, 4, [4]);
    PickedOut(lines, picks, 0, 4, [4]);
  }

  lemma WithParametersIntLongLinesFrom4(lines: seq<int>, picks: seq<bool>)
    requires |lines| == 9 && |picks| == 9
    requires !picks[4] && lines[4] == 6
    requires !picks[5] && lines[5] == 7
    requires !picks[6] && lines[6] == 8
    requires picks[7] && lines[7] == 9
    ensures PickedRange(lines, picks, 4, 8) == [9]
  {
    PickedIn(lines, picks, 7, 8, 9, []);
    PickedOut(lines, picks, 6, 8, [9]);
    PickedOut(lines, picks, 5, 8, [9]);
    PickedOut(lines, picks, 4, 8, [9]);
  }

  lemma WithParametersIntLongLinesFrom8(lines: seq<int>, picks: seq<bool>)
    requires |lines| == 9 && |picks| == 9
    requires !picks[8] && lines[8] == 10
    ensures PickedRange(lines, picks, 8, 9) == []
  {
    PickedOut(lines, picks, 8, 9, []);
  }

  /** `withParameters("int").withParameters("int", "long")`: either signature. */
  lemma TwoSignatures()
    ensures MatchedLines(PARAMETERS_HIERARCHY, Single(INT_OR_INT_LONG), false, PARAMETERS_TREES) == [3, 4, 8, 9, 10]
  {
    TwoSignaturesJudged();
    TwoSignaturesPicked();
  }

  lemma TwoSignaturesPicked()
    ensures PickedRange([2, 3, 4, 5, 6, 7, 8, 9, 10], [false, true, true, false, false, false, true, true, true], 0, 9) == [3, 4, 8, 9, 10]
  {
    TwoSignaturesLines([2, 3, 4, 5, 6, 7, 8, 9, 10], [false, true, true, false, false, false, true, true, true]);
  }

  lemma TwoSignaturesJudged()
    ensures MatchedLines(PARAMETERS_HIERARCHY, Single(INT_OR_INT_LONG), false, PARAMETERS_TREES) == PickedRange([2, 3, 4, 5, 6, 7, 8, 9, 10], [false, true, true, false, false, false, true, true, true], 0, 9)
  {
    var hits := [false, true, true, false, false, false, true, true, true];
    TwoSignaturesHitsFrom0(hits);
    TwoSignaturesHitsFrom4(hits);
    TwoSignaturesHitsFrom8(hits);
    ParametersTreeLines();
    MatchedLinesPicked(PARAMETERS_HIERARCHY, Single(INT_OR_INT_LONG), false, PARAMETERS_TREES, [2, 3, 4, 5, 6, 7, 8, 9, 10], hits);
  }

  lemma TwoSignaturesHitsFrom0(hits: seq<bool>)
    requires hits == [false, true, true, false, false, false, true, true, true]
    ensures forall k :: 0 <= k < 4 ==> Hit(PARAMETERS_HIERARCHY, Single(INT_OR_INT_LONG), false, PARAMETERS_TREES[k].node) == hits[k]
  {
    forall k | 0 <= k < 4
      ensures Hit(PARAMETERS_HIERARCHY, Single(INT_OR_INT_LONG), false, PARAMETERS_TREES[k].node) == hits[k]
    {
      SingleMatcherOnTree(PARAMETERS_HIERARCHY, INT_OR_INT_LONG, PARAMETERS_TREES[k].node);
      assert SomeTypeCriterion(PARAMETERS_HIERARCHY, INT_OR_INT_LONG.types, TreeSubject(PARAMETERS_TREES[k].node).owner) <==> TypeSatisfies(PARAMETERS_HIERARCHY, INT_OR_INT_LONG.types[0], TreeSubject(PARAMETERS_TREES[k].node).owner);
      assert SomeNameCriterion(INT_OR_INT_LONG.names, TreeSubject(PARAMETERS_TREES[k].node).name) <==> NameSatisfies(INT_OR_INT_LONG.names[0], TreeSubject(PARAMETERS_TREES[k].node).name);
      ParameterCriteriaOfTwo(PARAMETERS_HIERARCHY, INT_OR_INT_LONG.parameters[0], INT_OR_INT_LONG.parameters[1], TreeSubject(PARAMETERS_TREES[k].node).parameters);
      ExactParametersOfOne(PARAMETERS_HIERARCHY, ExactType("int"), TreeSubject(PARAMETERS_TREES[k].node).parameters);
      ExactParametersOfTwo(PARAMETERS_HIERARCHY, ExactType("int"), ExactType("long"), TreeSubject(PARAMETERS_TREES[k].node).parameters);
    }
  }

  lemma TwoSignaturesHitsFrom4(hits: seq<bool>)
    requires hits == [false, true, true, false, false, false, true, true, true]
    ensures forall k :: 4 <= k < 8 ==> Hit(PARAMETERS_HIERARCHY, Single(INT_OR_INT_LONG), false, PARAMETERS_TREES[k].node) == hits[k]
  {
    forall k | 4 <= k < 8
      ensures Hit(PARAMETERS_HIERARCHY, Single(INT_OR_INT_LONG), false, PARAMETERS_TREES[k].node) == hits[k]
    {
      SingleMatcherOnTree(PARAMETERS_HIERARCHY, INT_OR_INT_LONG, PARAMETERS_TREES[k].node);
      assert SomeTypeCriterion(PARAMETERS_HIERARCHY, INT_OR_INT_LONG.types, TreeSubject(PARAMETERS_TREES[k].node).owner) <==> TypeSatisfies(PARAMETERS_HIERARCHY, INT_OR_INT_LONG.types[0], TreeSubject(PARAMETERS_TREES[k].node).owner);
      assert SomeNameCriterion(INT_OR_INT_LONG.names, TreeSubject(PARAMETERS_TREES[k].node).name) <==> NameSatisfies(INT_OR_INT_LONG.names[0], TreeSubject(PARAMETERS_TREES[k].node).name);
      ParameterCriteriaOfTwo(PARAMETERS_HIERARCHY, INT_OR_INT_LONG.parameters[0], INT_OR_INT_LONG.parameters[1], TreeSubject(PARAMETERS_TREES[k].node).parameters);
      ExactParametersOfOne(PARAMETERS_HIERARCHY, ExactType("int"), TreeSubject(PARAMETERS_TREES[k].node).parameters);
      ExactParametersOfTwo(PARAMETERS_HIERARCHY, ExactType("int"), ExactType("long"), TreeSubject(PARAMETERS_TREES[k].node).parameters);
    }
  }

  lemma TwoSignaturesHitsFrom8(hits: seq<bool>)
    requires hits == [false, true, true, false, false, false, true, true, true]
    ensures forall k :: 8 <= k < 9 ==> Hit(PARAMETERS_HIERARCHY, Single(INT_OR_INT_LONG), false, PARAMETERS_TREES[k].node) == hits[k]
  {
    forall k | 8 <= k < 9
      ensures Hit(PARAMETERS_HIERARCHY, Single(INT_OR_INT_LONG), false, PARAMETERS_TREES[k].node) == hits[k]
    {
      SingleMatcherOnTree(PARAMETERS_HIERARCHY, INT_OR_INT_LONG, PARAMETERS_TREES[k].node);
      assert SomeTypeCriterion(PARAMETERS_HIERARCHY, INT_OR_INT_LONG.types, TreeSubject(PARAMETERS_TREES[k].node).owner) <==> TypeSatisfies(PARAMETERS_HIERARCHY, INT_OR_INT_LONG.types[0], TreeSubject(PARAMETERS_TREES[k].node).owner);
      assert SomeNameCriterion(INT_OR_INT_LONG.names, TreeSubject(PARAMETERS_TREES[k].node).name) <==> NameSatisfies(INT_OR_INT_LONG.names[0], TreeSubject(PARAMETERS_TREES[k].node).name);
      ParameterCriteriaOfTwo(PARAMETERS_HIERARCHY, INT_OR_INT_LONG.parameters[0], INT_OR_INT_LONG.parameters[1], TreeSubject(PARAMETERS_TREES[k].node).parameters);
      ExactParametersOfOne(PARAMETERS_HIERARCHY, ExactType("int"), TreeSubject(PARAMETERS_TREES[k].node).parameters);
      ExactParametersOfTwo(PARAMETERS_HIERARCHY, ExactType("int"), ExactType("long"), TreeSubject(PARAMETERS_TREES[k].node).parameters);
    }
  }

  lemma TwoSignaturesLines(lines: seq<int>, picks: seq<bool>)
    requires |lines| == 9 && |picks| == 9
    requires !picks[0] && lines[0] == 2
    requires picks[1] && lines[1] == 3
    requires picks[2] && lines[2] == 4
    requires !picks[3] && lines[3] == 5
    requires !picks[4] && lines[4] == 6
    requires !picks[5] && lines[5] == 7
    requires picks[6] && lines[6] == 8
    requires picks[7] && lines[7] == 9
    requires picks[8] && lines[8] == 10
    ensures PickedRange(lines, picks, 0, 9) == [3, 4, 8, 9, 10]
  {
    TwoSignaturesLinesFrom0(lines, picks);
    TwoSignaturesLinesFrom4(lines, picks);
    TwoSignaturesLinesFrom8(lines, picks);
    PickedRangeSplit(lines, picks, 0, 8, 9);
    PickedRangeSplit(lines, picks, 0, 4, 8);
    assert [3, 4] + [8, 9] + [10] == [3, 4, 8, 9, 10];
  }

  lemma TwoSignaturesLinesFrom0(lines: seq<int>, picks: seq<bool>)
    requires |lines| == 9 && |picks| == 9
    requires !picks[0] && lines[0] == 2
    requires picks[1] && lines[1] == 3
    requires picks[2] && lines[2] == 4
    requires !picks[3] && lines[3] == 5
    ensures PickedRange(lines, picks, 0, 4) == [3, 4]
  {
    PickedOut(lines, picks, 3, 4, []);
    PickedIn(lines, picks, 2, 4, 4, []);
    PickedIn(lines, picks, 1, 4, 3, [4]);
    PickedOut(lines, picks, 0, 4, [3, 4]);
  }

  lemma TwoSignaturesLinesFrom4(lines: seq<int>, picks: seq<bool>)
    requires |lines| == 9 && |picks| == 9
    requires !picks[4] && lines[4] == 6
    requires !picks[5] && lines[5] == 7
    requires picks[6] && lines[6] == 8
    requires picks[7] && lines[7] == 9
    ensures PickedRange(lines, picks, 4, 8) == [8, 9]
  {
    PickedIn(lines, picks, 7, 8, 9, []);
    PickedIn(lines, picks, 6, 8, 8, [9]);
    PickedOut(lines, picks, 5, 8, [8, 9]);
    PickedOut(lines, picks, 4, 8, [8, 9]);
  }

  lemma TwoSignaturesLinesFrom8(lines: seq<int>, picks: seq<bool>)
    requires |lines| == 9 && |picks| == 9
    requires picks[8] && lines[8] == 10
    ensures PickedRange(lines, picks, 8, 9) == [10]
  {
    PickedIn(lines, picks, 8, 9, 10, []);
  }

  /** `withoutParameters().withParameters("int").withParameters("int", "long")`: any of the three, not `f(String)`. */
  lemma ThreeSignatures()
    ensures MatchedLines(PARAMETERS_HIERARCHY, Single(NONE_INT_INT_LONG), false, PARAMETERS_TREES) == [2, 3, 4, 7, 8, 9, 10]
  {
    ThreeSignaturesJudged();
    ThreeSignaturesPicked();
  }

  lemma ThreeSignaturesPicked()
    ensures PickedRange([2, 3, 4, 5, 6, 7, 8, 9, 10], [true, true, true, false, false, true, true, true, true], 0, 9) == [2, 3, 4, 7, 8, 9, 10]
  {
    ThreeSignaturesLines([2, 3, 4, 5, 6, 7, 8, 9, 10], [true, true, true, false, false, true, true, true, true]);
  }

  lemma ThreeSignaturesJudged()
    ensures MatchedLines(PARAMETERS_HIERARCHY, Single(NONE_INT_INT_LONG), false, PARAMETERS_TREES) == PickedRange([2, 3, 4, 5, 6, 7, 8, 9, 10], [true, true, true, false, false, true, true, true, true], 0, 9)
  {
    var hits := [true, true, true, false, false, true, true, true, true];
    ThreeSignaturesHitsFrom0(hits);
    ThreeSignaturesHitsFrom4(hits);
    ThreeSignaturesHitsFrom8(hits);
    ParametersTreeLines();
    MatchedLinesPicked(PARAMETERS_HIERARCHY, Single(NONE_INT_INT_LONG), false, PARAMETERS_TREES, [2, 3, 4, 5, 6, 7, 8, 9, 10], hits);
  }

  lemma ThreeSignaturesHitsFrom0(hits: seq<bool>)
    requires hits == [true, true, true, false, false, true, true, true, true]
    ensures forall k :: 0 <= k < 4 ==> Hit(PARAMETERS_HIERARCHY, Single(NONE_INT_INT_LONG), false, PARAMETERS_TREES[k].node) == hits[k]
  {
    forall k | 0 <= k < 4
      ensures Hit(PARAMETERS_HIERARCHY, Single(NONE_INT_INT_LONG), false, PARAMETERS_TREES[k].node) == hits[k]
    {
      SingleMatcherOnTree(PARAMETERS_HIERARCHY, NONE_INT_INT_LONG, PARAMETERS_TREES[k].node);
      assert SomeTypeCriterion(PARAMETERS_HIERARCHY, NONE_INT_INT_LONG.types, TreeSubject(PARAMETERS_TREES[k].node).owner) <==> TypeSatisfies(PARAMETERS_HIERARCHY, NONE_INT_INT_LONG.types[0], TreeSubject(PARAMETERS_TREES[k].node).owner);
      assert SomeNameCriterion(NONE_INT_INT_LONG.names, TreeSubject(PARAMETERS_TREES[k].node).name) <==> NameSatisfies(NONE_INT_INT_LONG.names[0], TreeSubject(PARAMETERS_TREES[k].node).name);
      ParameterCriteriaOfThree(PARAMETERS_HIERARCHY, NONE_INT_INT_LONG.parameters[0], NONE_INT_INT_LONG.parameters[1], NONE_INT_INT_LONG.parameters[2], TreeSubject(PARAMETERS_TREES[k].node).parameters);
      ExactParametersOfOne(PARAMETERS_HIERARCHY, ExactType("int"), TreeSubject(PARAMETERS_TREES[k].node).parameters);
      ExactParametersOfTwo(PARAMETERS_HIERARCHY, ExactType("int"), ExactType("long"), TreeSubject(PARAMETERS_TREES[k].node).parameters);
    }
  }

  lemma ThreeSignaturesHitsFrom4(hits: seq<bool>)
    requires hits == [true, true, true, false, false, true, true, true, true]
    ensures forall k :: 4 <= k < 8 ==> Hit(PARAMETERS_HIERARCHY, Single(NONE_INT_INT_LONG), false, PARAMETERS_TREES[k].node) == hits[k]
  {
    forall k | 4 <= k < 8
      ensures Hit(PARAMETERS_HIERARCHY, Single(NONE_INT_INT_LONG), false, PARAMETERS_TREES[k].node) == hits[k]
    {
      SingleMatcherOnTree(PARAMETERS_HIERARCHY, NONE_INT_INT_LONG, PARAMETERS_TREES[k].node);
      assert SomeTypeCriterion(PARAMETERS_HIERARCHY, NONE_INT_INT_LONG.types, TreeSubject(PARAMETERS_TREES[k].node).owner) <==> TypeSatisfies(PARAMETERS_HIERARCHY, NONE_INT_INT_LONG.types[0], TreeSubject(PARAMETERS_TREES[k].node).owner);
      assert SomeNameCriterion(NONE_INT_INT_LONG.names, TreeSubject(PARAMETERS_TREES[k].node).name) <==> NameSatisfies(NONE_INT_INT_LONG.names[0], TreeSubject(PARAMETERS_TREES[k].node).name);
      ParameterCriteriaOfThree(PARAMETERS_HIERARCHY, NONE_INT_INT_LONG.parameters[0], NONE_INT_INT_LONG.parameters[1], NONE_INT_INT_LONG.parameters[2], TreeSubject(PARAMETERS_TREES[k].node).parameters);
      ExactParametersOfOne(PARAMETERS_HIERARCHY, ExactType("int"), TreeSubject(PARAMETERS_TREES[k].node).parameters);
      ExactParametersOfTwo(PARAMETERS_HIERARCHY, ExactType("int"), ExactType("long"), TreeSubject(PARAMETERS_TREES[k].node).parameters);
    }
  }

  lemma ThreeSignaturesHitsFrom8(hits: seq<bool>)
    requires hits == [true, true, true, false, false, true, true, true, true]
    ensures forall k :: 8 <= k < 9 ==> Hit(PARAMETERS_HIERARCHY, Single(NONE_INT_INT_LONG), false, PARAMETERS_TREES[k].node) == hits[k]
  {
    forall k | 8 <= k < 9
      ensures Hit(PARAMETERS_HIERARCHY, Single(NONE_INT_INT_LONG), false, PARAMETERS_TREES[k].node) == hits[k]
    {
      SingleMatcherOnTree(PARAMETERS_HIERARCHY, NONE_INT_INT_LONG, PARAMETERS_TREES[k].node);
      assert SomeTypeCriterion(PARAMETERS_HIERARCHY, NONE_INT_INT_LONG.types, TreeSubject(PARAMETERS_TREES[k].node).owner) <==> TypeSatisfies(PARAMETERS_HIERARCHY, NONE_INT_INT_LONG.types[0], TreeSubject(PARAMETERS_TREES[k].node).owner);
      assert SomeNameCriterion(NONE_INT_INT_LONG.names, TreeSubject(PARAMETERS_TREES[k].node).name) <==> NameSatisfies(NONE_INT_INT_LONG.names[0], TreeSubject(PARAMETERS_TREES[k].node).name);
      ParameterCriteriaOfThree(PARAMETERS_HIERARCHY, NONE_INT_INT_LONG.parameters[0], NONE_INT_INT_LONG.parameters[1], NONE_INT_INT_LONG.parameters[2], TreeSubject(PARAMETERS_TREES[k].node).parameters);
      ExactParametersOfOne(PARAMETERS_HIERARCHY, ExactType("int"), TreeSubject(PARAMETERS_TREES[k].node).parameters);
      ExactParametersOfTwo(PARAMETERS_HIERARCHY, ExactType("int"), ExactType("long"), TreeSubject(PARAMETERS_TREES[k].node).parameters);
    }
  }

  lemma ThreeSignaturesLines(lines: seq<int>, picks: seq<bool>)
    requires |lines| == 9 && |picks| == 9
    requires picks[0] && lines[0] == 2
    requires picks[1] && lines[1] == 3
    requires picks[2] && lines[2] == 4
    requires !picks[3] && lines[3] == 5
    requires !picks[4] && lines[4] == 6
    requires picks[5] && lines[5] == 7
    requires picks[6] && lines[6] == 8
    requires picks[7] && lines[7] == 9
    requires picks[8] && lines[8] == 10
    ensures PickedRange(lines, picks, 0, 9) == [2, 3, 4, 7, 8, 9, 10]
  {
    ThreeSignaturesLinesFrom0(lines, picks);
    ThreeSignaturesLinesFrom4(lines, picks);
    ThreeSignaturesLinesFrom8(lines, picks);
    PickedRangeSplit(lines, picks, 0, 8, 9);
    PickedRangeSplit(lines, picks, 0, 4, 8);
    assert [2, 3, 4] + [7, 8, 9] + [10] == [2, 3, 4, 7, 8, 9, 10];
  }

  lemma ThreeSignaturesLinesFrom0(lines: seq<int>, picks: seq<bool>)
    requires |lines| == 9 && |picks| == 9
    requires picks[0] && lines[0] == 2
    requires picks[1] && lines[1] == 3
    requires picks[2] && lines[2] == 4
    requires !picks[3] && lines[3] == 5
    ensures PickedRange(lines, picks, 0, 4) == [2, 3, 4]
  {
    PickedOut(lines, picks, 3, 4, []);
    PickedIn(lines, picks, 2, 4, 4, []);
    PickedIn(lines, picks, 1, 4, 3, [4]);
    PickedIn(lines, picks, 0, 4, 2, [3, 4]);
  }

  lemma ThreeSignaturesLinesFrom4(lines: seq<int>, picks: seq<bool>)
    requires |lines| == 9 && |picks| == 9
    requires !picks[4] && lines[4] == 6
    requires picks[5] && lines[5] == 7
    requires picks[6] && lines[6] == 8
    requires picks[7] && lines[7] == 9
    ensures PickedRange(lines, picks, 4, 8) == [7, 8, 9]
  {
    PickedIn(lines, picks, 7, 8, 9, []);
    PickedIn(lines, picks, 6, 8, 8, [9]);
    PickedIn(lines, picks, 5, 8, 7, [8, 9]);
    PickedOut(lines, picks, 4, 8, [7, 8, 9]);
  }

  lemma ThreeSignaturesLinesFrom8(lines: seq<int>, picks: seq<bool>)
    requires |lines| == 9 && |picks| == 9
    requires picks[8] && lines[8] == 10
    ensures PickedRange(lines, picks, 8, 9) == [10]
  {
    PickedIn(lines, picks, 8, 9, 10, []);
  }

  /** `startWithParameters("int")`: `f(int)` and `f(int, long)`. */
  lemma StartWithParametersInt()
    ensures MatchedLines(PARAMETERS_HIERARCHY, Single(START_INT), false, PARAMETERS_TREES) == [3, 4, 8, 9, 10]
  {
    StartWithParametersIntJudged();
    StartWithParametersIntPicked();
  }

  lemma StartWithParametersIntPicked()
    ensures PickedRange([2, 3, 4, 5, 6, 7, 8, 9, 10], [false, true, true, false, false, false, true, true, true], 0, 9) == [3, 4, 8, 9, 10]
  {
    StartWithParametersIntLines([2, 3, 4, 5, 6, 7, 8, 9, 10], [false, true, true, false, false, false, true, true, true]);
  }

  lemma StartWithParametersIntJudged()
    ensures MatchedLines(PARAMETERS_HIERARCHY, Single(START_INT), false, PARAMETERS_TREES) == PickedRange([2, 3, 4, 5, 6, 7, 8, 9, 10], [false, true, true, false, false, false, true, true, true], 0, 9)
  {
    var hits := [false, true, true, false, false, false, true, true, true];
    StartWithParametersIntHitsFrom0(hits);
    StartWithParametersIntHitsFrom4(hits);
    StartWithParametersIntHitsFrom8(hits);
    ParametersTreeLines();
    MatchedLinesPicked(PARAMETERS_HIERARCHY, Single(START_INT), false, PARAMETERS_TREES, [2, 3, 4, 5, 6, 7, 8, 9, 10], hits);
  }

  lemma StartWithParametersIntHitsFrom0(hits: seq<bool>)
    requires hits == [false, true, true, false, false, false, true, true, true]
    ensures forall k :: 0 <= k < 4 ==> Hit(PARAMETERS_HIERARCHY, Single(START_INT), false, PARAMETERS_TREES[k].node) == hits[k]
  {
    forall k | 0 <= k < 4
      ensures Hit(PARAMETERS_HIERARCHY, Single(START_INT), false, PARAMETERS_TREES[k].node) == hits[k]
    {
      SingleCriteriaOnTree(PARAMETERS_HIERARCHY, START_INT.types[0], START_INT.names[0], START_INT.parameters[0], PARAMETERS_TREES[k].node);
      PrefixParametersOfOne(PARAMETERS_HIERARCHY, ExactType("int"), TreeSubject(PARAMETERS_TREES[k].node).parameters);
    }
  }

  lemma StartWithParametersIntHitsFrom4(hits: seq<bool>)
    requires hits == [false, true, true, false, false, false, true, true, true]
    ensures forall k :: 4 <= k < 8 ==> Hit(PARAMETERS_HIERARCHY, Single(START_INT), false, PARAMETERS_TREES[k].node) == hits[k]
  {
    forall k | 4 <= k < 8
      ensures Hit(PARAMETERS_HIERARCHY, Single(START_INT), false, PARAMETERS_TREES[k].node) == hits[k]
    {
      SingleCriteriaOnTree(PARAMETERS_HIERARCHY, START_INT.types[0], START_INT.names[0], START_INT.parameters[0], PARAMETERS_TREES[k].node);
      PrefixParametersOfOne(PARAMETERS_HIERARCHY, ExactType("int"), TreeSubject(PARAMETERS_TREES[k].node).parameters);
    }
  }

  lemma StartWithParametersIntHitsFrom8(hits: seq<bool>)
    requires hits == [false, true, true, false, false, false, true, true, true]
    ensures forall k :: 8 <= k < 9 ==> Hit(PARAMETERS_HIERARCHY, Single(START_INT), false, PARAMETERS_TREES[k].node) == hits[k]
  {
    forall k | 8 <= k < 9
      ensures Hit(PARAMETERS_HIERARCHY, Single(START_INT), false, PARAMETERS_TREES[k].node) == hits[k]
    {
      SingleCriteriaOnTree(PARAMETERS_HIERARCHY, START_INT.types[0], START_INT.names[0], START_INT.parameters[0], PARAMETERS_TREES[k].node);
      PrefixParametersOfOne(PARAMETERS_HIERARCHY, ExactType("int"), TreeSubject(PARAMETERS_TREES[k].node).parameters);
    }
  }

  lemma StartWithParametersIntLines(lines: seq<int>, picks: seq<bool>)
    requires |lines| == 9 && |picks| == 9
    requires !picks[0] && lines[0] == 2
    requires picks[1] && lines[1] == 3
    requires picks[2] && lines[2] == 4
    requires !picks[3] && lines[3] == 5
    requires !picks[4] && lines[4] == 6
    requires !picks[5] && lines[5] == 7
    requires picks[6] && lines[6] == 8
    requires picks[7] && lines[7] == 9
    requires picks[8] && lines[8] == 10
    ensures PickedRange(lines, picks, 0, 9) == [3, 4, 8, 9, 10]
  {
    StartWithParametersIntLinesFrom0(lines, picks);
    StartWithParametersIntLinesFrom4(lines, picks);
    StartWithParametersIntLinesFrom8(lines, picks);
    PickedRangeSplit(lines, picks, 0, 8, 9);
    PickedRangeSplit(lines, picks, 0, 4, 8);
    assert [3, 4] + [8, 9] + [10] == [3, 4, 8, 9, 10];
  }

  lemma StartWithParametersIntLinesFrom0(lines: seq<int>, picks: seq<bool>)
    requires |lines| == 9 && |picks| == 9
    requires !picks[0] && lines[0] == 2
    requires picks[1] && lines[1] == 3
    requires picks[2] && lines[2] == 4
    requires !picks[3] && lines[3] == 5
    ensures PickedRange(lines, picks, 0, 4) == [3, 4]
  {
    PickedOut(lines, picks, 3, 4, []);
    PickedIn(lines, picks, 2, 4, 4, []);
    PickedIn(lines, picks, 1, 4, 3, [4]);
    PickedOut(lines, picks, 0, 4, [3, 4]);
  }

  lemma StartWithParametersIntLinesFrom4(lines: seq<int>, picks: seq<bool>)
    requires |lines| == 9 && |picks| == 9
    requires !picks[4] && lines[4] == 6
    requires !picks[5] && lines[5] == 7
    requires picks[6] && lines[6] == 8
    requires picks[7] && lines[7] == 9
    ensures PickedRange(lines, picks, 4, 8) == [8, 9]
  {
    PickedIn(lines, picks, 7, 8, 9, []);
    PickedIn(lines, picks, 6, 8, 8, [9]);
    PickedOut(lines, picks, 5, 8, [8, 9]);
    PickedOut(lines, picks, 4, 8, [8, 9]);
  }

  lemma StartWithParametersIntLinesFrom8(lines: seq<int>, picks: seq<bool>)
    requires |lines| == 9 && |picks| == 9
    requires picks[8] && lines[8] == 10
    ensures PickedRange(lines, picks, 8, 9) == [10]
  {
    PickedIn(lines, picks, 8, 9, 10, []);
  }

  /** `withAnyParameters()`: every `f`. */
  lemma AnyParametersOfF()
    ensures MatchedLines(PARAMETERS_HIERARCHY, Single(ANY_PARAMETERS), false, PARAMETERS_TREES) == [2, 3, 4, 5, 7, 8, 9, 10]
  {
    AnyParametersOfFJudged();
    AnyParametersOfFPicked();
  }

  lemma AnyParametersOfFPicked()
    ensures PickedRange([2, 3, 4, 5, 6, 7, 8, 9, 10], [true, true, true, true, false, true, true, true, true], 0, 9) == [2, 3, 4, 5, 7, 8, 9, 10]
  {
    AnyParametersOfFLines([2, 3, 4, 5, 6, 7, 8, 9, 10], [true, true, true, true, false, true, true, true, true]);
  }

  lemma AnyParametersOfFJudged()
    ensures MatchedLines(PARAMETERS_HIERARCHY, Single(ANY_PARAMETERS), false, PARAMETERS_TREES) == PickedRange([2, 3, 4, 5, 6, 7, 8, 9, 10], [true, true, true, true, false, true, true, true, true], 0, 9)
  {
    var hits := [true, true, true, true, false, true, true, true, true];
    AnyParametersOfFHitsFrom0(hits);
    AnyParametersOfFHitsFrom4(hits);
    AnyParametersOfFHitsFrom8(hits);
    ParametersTreeLines();
    MatchedLinesPicked(PARAMETERS_HIERARCHY, Single(ANY_PARAMETERS), false, PARAMETERS_TREES, [2, 3, 4, 5, 6, 7, 8, 9, 10], hits);
  }

  lemma AnyParametersOfFHitsFrom0(hits: seq<bool>)
    requires hits == [true, true, true, true, false, true, true, true, true]
    ensures forall k :: 0 <= k < 4 ==> Hit(PARAMETERS_HIERARCHY, Single(ANY_PARAMETERS), false, PARAMETERS_TREES[k].node) == hits[k]
  {
    forall k | 0 <= k < 4
      ensures Hit(PARAMETERS_HIERARCHY, Single(ANY_PARAMETERS), false, PARAMETERS_TREES[k].node) == hits[k]
    {
      SingleCriteriaOnTree(PARAMETERS_HIERARCHY, ANY_PARAMETERS.types[0], ANY_PARAMETERS.names[0], ANY_PARAMETERS.parameters[0], PARAMETERS_TREES[k].node);
    }
  }

  lemma AnyParametersOfFHitsFrom4(hits: seq<bool>)
    requires hits == [true, true, true, true, false, true, true, true, true]
    ensures forall k :: 4 <= k < 8 ==> Hit(PARAMETERS_HIERARCHY, Single(ANY_PARAMETERS), false, PARAMETERS_TREES[k].node) == hits[k]
  {
    forall k | 4 <= k < 8
      ensures Hit(PARAMETERS_HIERARCHY, Single(ANY_PARAMETERS), false, PARAMETERS_TREES[k].node) == hits[k]
    {
      SingleCriteriaOnTree(PARAMETERS_HIERARCHY, ANY_PARAMETERS.types[0], ANY_PARAMETERS.names[0], ANY_PARAMETERS.parameters[0], PARAMETERS_TREES[k].node);
    }
  }

  lemma AnyParametersOfFHitsFrom8(hits: seq<bool>)
    requires hits == [true, true, true, true, false, true, true, true, true]
    ensures forall k :: 8 <= k < 9 ==> Hit(PARAMETERS_HIERARCHY, Single(ANY_PARAMETERS), false, PARAMETERS_TREES[k].node) == hits[k]
  {
    forall k | 8 <= k < 9
      ensures Hit(PARAMETERS_HIERARCHY, Single(ANY_PARAMETERS), false, PARAMETERS_TREES[k].node) == hits[k]
    {
      SingleCriteriaOnTree(PARAMETERS_HIERARCHY, ANY_PARAMETERS.types[0], ANY_PARAMETERS.names[0], ANY_PARAMETERS.parameters[0], PARAMETERS_TREES[k].node);
    }
  }

  lemma AnyParametersOfFLines(lines: seq<int>, picks: seq<bool>)
    requires |lines| == 9 && |picks| == 9
    requires picks[0] && lines[0] == 2
    requires picks[1] && lines[1] == 3
    requires picks[2] && lines[2] == 4
    requires picks[3] && lines[3] == 5
    requires !picks[4] && lines[4] == 6
    requires picks[5] && lines[5] == 7
    requires picks[6] && lines[6] == 8
    requires picks[7] && lines[7] == 9
    requires picks[8] && lines[8] == 10
    ensures PickedRange(lines, picks, 0, 9) == [2, 3, 4, 5, 7, 8, 9, 10]
  {
    AnyParametersOfFLinesFrom0(lines, picks);
    AnyParametersOfFLinesFrom4(lines, picks);
    AnyParametersOfFLinesFrom8(lines, picks);
    PickedRangeSplit(lines, picks, 0, 8, 9);
    PickedRangeSplit(lines, picks, 0, 4, 8);
    assert [2, 3, 4, 5] + [7, 8, 9] + [10] == [2, 3, 4, 5, 7, 8, 9, 10];
  }

  lemma AnyParametersOfFLinesFrom0(lines: seq<int>, picks: seq<bool>)
    requires |lines| == 9 && |picks| == 9
    requires picks[0] && lines[0] == 2
    requires picks[1] && lines[1] == 3
    requires picks[2] && lines[2] == 4
    requires picks[3] && lines[3] == 5
    ensures PickedRange(lines, picks, 0, 4) == [2, 3, 4, 5]
  {
    PickedIn(lines, picks, 3, 4, 5, []);
    PickedIn(lines, picks, 2, 4, 4, [5]);
    PickedIn(lines, picks, 1, 4, 3, [4, 5]);
    PickedIn(lines, picks, 0, 4, 2, [3, 4, 5]);
  }

  lemma AnyParametersOfFLinesFrom4(lines: seq<int>, picks: seq<bool>)
    requires |lines| == 9 && |picks| == 9
    requires !picks[4] && lines[4] == 6
    requires picks[5] && lines[5] == 7
    requires picks[6] && lines[6] == 8
    requires picks[7] && lines[7] == 9
    ensures PickedRange(lines, picks, 4, 8) == [7, 8, 9]
  {
    PickedIn(lines, picks, 7, 8, 9, []);
    PickedIn(lines, picks, 6, 8, 8, [9]);
    PickedIn(lines, picks, 5, 8, 7, [8, 9]);
    PickedOut(lines, picks, 4, 8, [7, 8, 9]);
  }

  lemma AnyParametersOfFLinesFrom8(lines: seq<int>, picks: seq<bool>)
    requires |lines| == 9 && |picks| == 9
    requires picks[8] && lines[8] == 10
    ensures PickedRange(lines, picks, 8, 9) == [10]
  {
    PickedIn(lines, picks, 8, 9, 10, []);
  }

  /** `withParameters(type -> true)`, a predicate on the whole list: every `f`, as `withAnyParameters()`. */
  lemma EveryParameterList()
    ensures MatchedLines(PARAMETERS_HIERARCHY, Single(EVERY_LIST), false, PARAMETERS_TREES) == [2, 3, 4, 5, 7, 8, 9, 10]
  {
    EveryParameterListJudged();
    EveryParameterListPicked();
  }

  lemma EveryParameterListPicked()
    ensures PickedRange([2, 3, 4, 5, 6, 7, 8, 9, 10], [true, true, true, true, false, true, true, true, true], 0, 9) == [2, 3, 4, 5, 7, 8, 9, 10]
  {
    EveryParameterListLines([2, 3, 4, 5, 6, 7, 8, 9, 10], [true, true, true, true, false, true, true, true, true]);
  }

  lemma EveryParameterListJudged()
    ensures MatchedLines(PARAMETERS_HIERARCHY, Single(EVERY_LIST), false, PARAMETERS_TREES) == PickedRange([2, 3, 4, 5, 6, 7, 8, 9, 10], [true, true, true, true, false, true, true, true, true], 0, 9)
  {
    var hits := [true, true, true, true, false, true, true, true, true];
    EveryParameterListHitsFrom0(hits);
    EveryParameterListHitsFrom4(hits);
    EveryParameterListHitsFrom8(hits);
    ParametersTreeLines();
    MatchedLinesPicked(PARAMETERS_HIERARCHY, Single(EVERY_LIST), false, PARAMETERS_TREES, [2, 3, 4, 5, 6, 7, 8, 9, 10], hits);
  }

  lemma EveryParameterListHitsFrom0(hits: seq<bool>)
    requires hits == [true, true, true, true, false, true, true, true, true]
    ensures forall k :: 0 <= k < 4 ==> Hit(PARAMETERS_HIERARCHY, Single(EVERY_LIST), false, PARAMETERS_TREES[k].node) == hits[k]
  {
    forall k | 0 <= k < 4
      ensures Hit(PARAMETERS_HIERARCHY, Single(EVERY_LIST), false, PARAMETERS_TREES[k].node) == hits[k]
    {
      SingleCriteriaOnTree(PARAMETERS_HIERARCHY, EVERY_LIST.types[0], EVERY_LIST.names[0], EVERY_LIST.parameters[0], PARAMETERS_TREES[k].node);
    }
  }

  lemma EveryParameterListHitsFrom4(hits: seq<bool>)
    requires hits == [true, true, true, true, false, true, true, true, true]
    ensures forall k :: 4 <= k < 8 ==> Hit(PARAMETERS_HIERARCHY, Single(EVERY_LIST), false, PARAMETERS_TREES[k].node) == hits[k]
  {
    forall k | 4 <= k < 8
      ensures Hit(PARAMETERS_HIERARCHY, Single(EVERY_LIST), false, PARAMETERS_TREES[k].node) == hits[k]
    {
      SingleCriteriaOnTree(PARAMETERS_HIERARCHY, EVERY_LIST.types[0], EVERY_LIST.names[0], EVERY_LIST.parameters[0], PARAMETERS_TREES[k].node);
    }
  }

  lemma EveryParameterListHitsFrom8(hits: seq<bool>)
    requires hits == [true, true, true, true, false, true, true, true, true]
    ensures forall k :: 8 <= k < 9 ==> Hit(PARAMETERS_HIERARCHY, Single(EVERY_LIST), false, PARAMETERS_TREES[k].node) == hits[k]
  {
    forall k | 8 <= k < 9
      ensures Hit(PARAMETERS_HIERARCHY, Single(EVERY_LIST), false, PARAMETERS_TREES[k].node) == hits[k]
    {
      SingleCriteriaOnTree(PARAMETERS_HIERARCHY, EVERY_LIST.types[0], EVERY_LIST.names[0], EVERY_LIST.parameters[0], PARAMETERS_TREES[k].node);
    }
  }

  lemma EveryParameterListLines(lines: seq<int>, picks: seq<bool>)
    requires |lines| == 9 && |picks| == 9
    requires picks[0] && lines[0] == 2
    requires picks[1] && lines[1] == 3
    requires picks[2] && lines[2] == 4
    requires picks[3] && lines[3] == 5
    requires !picks[4] && lines[4] == 6
    requires picks[5] && lines[5] == 7
    requires picks[6] && lines[6] == 8
    requires picks[7] && lines[7] == 9
    requires picks[8] && lines[8] == 10
    ensures PickedRange(lines, picks, 0, 9) == [2, 3, 4, 5, 7, 8, 9, 10]
  {
    EveryParameterListLinesFrom0(lines, picks);
    EveryParameterListLinesFrom4(lines, picks);
    EveryParameterListLinesFrom8(lines, picks);
    PickedRangeSplit(lines, picks, 0, 8, 9);
    PickedRangeSplit(lines, picks, 0, 4, 8);
    assert [2, 3, 4, 5] + [7, 8, 9] + [10] == [2, 3, 4, 5, 7, 8, 9, 10];
  }

  lemma EveryParameterListLinesFrom0(lines: seq<int>, picks: seq<bool>)
    requires |lines| == 9 && |picks| == 9
    requires picks[0] && lines[0] == 2
    requires picks[1] && lines[1] == 3
    requires picks[2] && lines[2] == 4
    requires picks[3] && lines[3] == 5
    ensures PickedRange(lines, picks, 0, 4) == [2, 3, 4, 5]
  {
    PickedIn(lines, picks, 3, 4, 5, []);
    PickedIn(lines, picks, 2, 4, 4, [5]);
    PickedIn(lines, picks, 1, 4, 3, [4, 5]);
    PickedIn(lines, picks, 0, 4, 2, [3, 4, 5]);
  }

  lemma EveryParameterListLinesFrom4(lines: seq<int>, picks: seq<bool>)
    requires |lines| == 9 && |picks| == 9
    requires !picks[4] && lines[4] == 6
    requires picks[5] && lines[5] == 7
    requires picks[6] && lines[6] == 8
    requires picks[7] && lines[7] == 9
    ensures PickedRange(lines, picks, 4, 8) == [7, 8, 9]
  {
    PickedIn(lines, picks, 7, 8, 9, []);
    PickedIn(lines, picks, 6, 8, 8, [9]);
    PickedIn(lines, picks, 5, 8, 7, [8, 9]);
    PickedOut(lines, picks, 4, 8, [7, 8, 9]);
  }

  lemma EveryParameterListLinesFrom8(lines: seq<int>, picks: seq<bool>)
    requires |lines| == 9 && |picks| == 9
    requires picks[8] && lines[8] == 10
    ensures PickedRange(lines, picks, 8, 9) == [10]
  {
    PickedIn(lines, picks, 8, 9, 10, []);
  }

  /** `withParameters(type -> type.is("int"), type -> !type.is("int"))`: two parameters, an `int` then anything else. */
  lemma PositionPredicates()
    ensures MatchedLines(PARAMETERS_HIERARCHY, Single(INT_THEN_NOT_INT), false, PARAMETERS_TREES) == [4, 9]
  {
    PositionPredicatesJudged();
    PositionPredicatesPicked();
  }

  lemma PositionPredicatesPicked()
    ensures PickedRange([2, 3, 4, 5, 6, 7, 8, 9, 10], [false, false, true, false, false, false, false, true, false], 0, 9) == [4, 9]
  {
    PositionPredicatesLines([2, 3, 4, 5, 6, 7, 8, 9, 10], [false, false, true, false, false, false, false, true, false]);
  }

  lemma PositionPredicatesJudged()
    ensures MatchedLines(PARAMETERS_HIERARCHY, Single(INT_THEN_NOT_INT), false, PARAMETERS_TREES) == PickedRange([2, 3, 4, 5, 6, 7, 8, 9, 10], [false, false, true, false, false, false, false, true, false], 0, 9)
  {
    var hits := [false, false, true, false, false, false, false, true, false];
    PositionPredicatesHitsFrom0(hits);
    PositionPredicatesHitsFrom4(hits);
    PositionPredicatesHitsFrom8(hits);
    ParametersTreeLines();
    MatchedLinesPicked(PARAMETERS_HIERARCHY, Single(INT_THEN_NOT_INT), false, PARAMETERS_TREES, [2, 3, 4, 5, 6, 7, 8, 9, 10], hits);
  }

  lemma PositionPredicatesHitsFrom0(hits: seq<bool>)
    requires hits == [false, false, true, false, false, false, false, true, false]
    ensures forall k :: 0 <= k < 4 ==> Hit(PARAMETERS_HIERARCHY, Single(INT_THEN_NOT_INT), false, PARAMETERS_TREES[k].node) == hits[k]
  {
    forall k | 0 <= k < 4
      ensures Hit(PARAMETERS_HIERARCHY, Single(INT_THEN_NOT_INT), false, PARAMETERS_TREES[k].node) == hits[k]
    {
      SingleCriteriaOnTree(PARAMETERS_HIERARCHY, INT_THEN_NOT_INT.types[0], INT_THEN_NOT_INT.names[0], INT_THEN_NOT_INT.parameters[0], PARAMETERS_TREES[k].node);
    }
  }

  lemma PositionPredicatesHitsFrom4(hits: seq<bool>)
    requires hits == [false, false, true, false, false, false, false, true, false]
    ensures forall k :: 4 <= k < 8 ==> Hit(PARAMETERS_HIERARCHY, Single(INT_THEN_NOT_INT), false, PARAMETERS_TREES[k].node) == hits[k]
  {
    forall k | 4 <= k < 8
      ensures Hit(PARAMETERS_HIERARCHY, Single(INT_THEN_NOT_INT), false, PARAMETERS_TREES[k].node) == hits[k]
    {
      SingleCriteriaOnTree(PARAMETERS_HIERARCHY, INT_THEN_NOT_INT.types[0], INT_THEN_NOT_INT.names[0], INT_THEN_NOT_INT.parameters[0], PARAMETERS_TREES[k].node);
    }
  }

  lemma PositionPredicatesHitsFrom8(hits: seq<bool>)
    requires hits == [false, false, true, false, false, false, false, true, false]
    ensures forall k :: 8 <= k < 9 ==> Hit(PARAMETERS_HIERARCHY, Single(INT_THEN_NOT_INT), false, PARAMETERS_TREES[k].node) == hits[k]
  {
    forall k | 8 <= k < 9
      ensures Hit(PARAMETERS_HIERARCHY, Single(INT_THEN_NOT_INT), false, PARAMETERS_TREES[k].node) == hits[k]
    {
      SingleCriteriaOnTree(PARAMETERS_HIERARCHY, INT_THEN_NOT_INT.types[0], INT_THEN_NOT_INT.names[0], INT_THEN_NOT_INT.parameters[0], PARAMETERS_TREES[k].node);
    }
  }

  lemma PositionPredicatesLines(lines: seq<int>, picks: seq<bool>)
    requires |lines| == 9 && |picks| == 9
    requires !picks[0] && lines[0] == 2
    requires !picks[1] && lines[1] == 3
    requires picks[2] && lines[2] == 4
    requires !picks[3] && lines[3] == 5
    requires !picks[4] && lines[4] == 6
    requires !picks[5] && lines[5] == 7
    requires !picks[6] && lines[6] == 8
    requires picks[7] && lines[7] == 9
    requires !picks[8] && lines[8] == 10
    ensures PickedRange(lines, picks, 0, 9) == [4, 9]
  {
    PositionPredicatesLinesFrom0(lines, picks);
    PositionPredicatesLinesFrom4(lines, picks);
    PositionPredicatesLinesFrom8(lines, picks);
    PickedRangeSplit(lines, picks, 0, 8, 9);
    PickedRangeSplit(lines, picks, 0, 4, 8);
    assert [4] + [9] + [] == [4, 9];
  }

  lemma PositionPredicatesLinesFrom0(lines: seq<int>, picks: seq<bool>)
    requires |lines| == 9 && |picks| == 9
    requires !picks[0] && lines[0] == 2
    requires !picks[1] && lines[1] == 3
    requires picks[2] && lines[2] == 4
    requires !picks[3] && lines[3] == 5
    ensures PickedRange(lines, picks, 0, 4) == [4]
  {
    PickedOut(lines, picks, 3, 4, []);
    PickedIn(lines, picks, 2, 4, 4, []);
    PickedOut(lines, picks, 1, 4, [4]);
    PickedOut(lines, picks, 0, 4, [4]);
  }

  lemma PositionPredicatesLinesFrom4(lines: seq<int>, picks: seq<bool>)
    requires |lines| == 9 && |picks| == 9
    requires !picks[4] && lines[4] == 6
    requires !picks[5] && lines[5] == 7
    requires !picks[6] && lines[6] == 8
    requires picks[7] && lines[7] == 9
    ensures PickedRange(lines, picks, 4, 8) == [9]
  {
    PickedIn(lines, picks, 7, 8, 9, []);
    PickedOut(lines, picks, 6, 8, [9]);
    PickedOut(lines, picks, 5, 8, [9]);
    PickedOut(lines, picks, 4, 8, [9]);
  }

  lemma PositionPredicatesLinesFrom8(lines: seq<int>, picks: seq<bool>)
    requires |lines| == 9 && |picks| == 9
    requires !picks[8] && lines[8] == 10
    ensures PickedRange(lines, picks, 8, 9) == []
  {
    PickedOut(lines, picks, 8, 9, []);
  }

  /** `startWithParameters(type -> type.is("int"))`: at least one parameter, the first an `int`. */
  lemma StartWithPredicate()
    ensures MatchedLines(PARAMETERS_HIERARCHY, Single(START_INT_PREDICATE), false, PARAMETERS_TREES) == [3, 4, 8, 9, 10]
  {
    StartWithPredicateJudged();
    StartWithPredicatePicked();
  }

  lemma StartWithPredicatePicked()
    ensures PickedRange([2, 3, 4, 5, 6, 7, 8, 9, 10], [false, true, true, false, false, false, true, true, true], 0, 9) == [3, 4, 8, 9, 10]
  {
    StartWithPredicateLines([2, 3, 4, 5, 6, 7, 8, 9, 10], [false, true, true, false, false, false, true, true, true]);
  }

  lemma StartWithPredicateJudged()
    ensures MatchedLines(PARAMETERS_HIERARCHY, Single(START_INT_PREDICATE), false, PARAMETERS_TREES) == PickedRange([2, 3, 4, 5, 6, 7, 8, 9, 10], [false, true, true, false, false, false, true, true, true], 0, 9)
  {
    var hits := [false, true, true, false, false, false, true, true, true];
    StartWithPredicateHitsFrom0(hits);
    StartWithPredicateHitsFrom4(hits);
    StartWithPredicateHitsFrom8(hits);
    ParametersTreeLines();
    MatchedLinesPicked(PARAMETERS_HIERARCHY, Single(START_INT_PREDICATE), false, PARAMETERS_TREES, [2, 3, 4, 5, 6, 7, 8, 9, 10], hits);
  }

  lemma StartWithPredicateHitsFrom0(hits: seq<bool>)
    requires hits == [false, true, true, false, false, false, true, true, true]
    ensures forall k :: 0 <= k < 4 ==> Hit(PARAMETERS_HIERARCHY, Single(START_INT_PREDICATE), false, PARAMETERS_TREES[k].node) == hits[k]
  {
    forall k | 0 <= k < 4
      ensures Hit(PARAMETERS_HIERARCHY, Single(START_INT_PREDICATE), false, PARAMETERS_TREES[k].node) == hits[k]
    {
      SingleCriteriaOnTree(PARAMETERS_HIERARCHY, START_INT_PREDICATE.types[0], START_INT_PREDICATE.names[0], START_INT_PREDICATE.parameters[0], PARAMETERS_TREES[k].node);
      PrefixParametersOfOne(PARAMETERS_HIERARCHY, START_INT_PREDICATE.parameters[0].types[0], TreeSubject(PARAMETERS_TREES[k].node).parameters);
    }
  }

  lemma StartWithPredicateHitsFrom4(hits: seq<bool>)
    requires hits == [false, true, true, false, false, false, true, true, true]
    ensures forall k :: 4 <= k < 8 ==> Hit(PARAMETERS_HIERARCHY, Single(START_INT_PREDICATE), false, PARAMETERS_TREES[k].node) == hits[k]
  {
    forall k | 4 <= k < 8
      ensures Hit(PARAMETERS_HIERARCHY, Single(START_INT_PREDICATE), false, PARAMETERS_TREES[k].node) == hits[k]
    {
      SingleCriteriaOnTree(PARAMETERS_HIERARCHY, START_INT_PREDICATE.types[0], START_INT_PREDICATE.names[0], START_INT_PREDICATE.parameters[0], PARAMETERS_TREES[k].node);
      PrefixParametersOfOne(PARAMETERS_HIERARCHY, START_INT_PREDICATE.parameters[0].types[0], TreeSubject(PARAMETERS_TREES[k].node).parameters);
    }
  }

  lemma StartWithPredicateHitsFrom8(hits: seq<bool>)
    requires hits == [false, true, true, false, false, false, true, true, true]
    ensures forall k :: 8 <= k < 9 ==> Hit(PARAMETERS_HIERARCHY, Single(START_INT_PREDICATE), false, PARAMETERS_TREES[k].node) == hits[k]
  {
    forall k | 8 <= k < 9
      ensures Hit(PARAMETERS_HIERARCHY, Single(START_INT_PREDICATE), false, PARAMETERS_TREES[k].node) == hits[k]
    {
      SingleCriteriaOnTree(PARAMETERS_HIERARCHY, START_INT_PREDICATE.types[0], START_INT_PREDICATE.names[0], START_INT_PREDICATE.parameters[0], PARAMETERS_TREES[k].node);
      PrefixParametersOfOne(PARAMETERS_HIERARCHY, START_INT_PREDICATE.parameters[0].types[0], TreeSubject(PARAMETERS_TREES[k].node).parameters);
    }
  }

  lemma StartWithPredicateLines(lines: seq<int>, picks: seq<bool>)
    requires |lines| == 9 && |picks| == 9
    requires !picks[0] && lines[0] == 2
    requires picks[1] && lines[1] == 3
    requires picks[2] && lines[2] == 4
    requires !picks[3] && lines[3] == 5
    requires !picks[4] && lines[4] == 6
    requires !picks[5] && lines[5] == 7
    requires picks[6] && lines[6] == 8
    requires picks[7] && lines[7] == 9
    requires picks[8] && lines[8] == 10
    ensures PickedRange(lines, picks, 0, 9) == [3, 4, 8, 9, 10]
  {
    StartWithPredicateLinesFrom0(lines, picks);
    StartWithPredicateLinesFrom4(lines, picks);
    StartWithPredicateLinesFrom8(lines, picks);
    PickedRangeSplit(lines, picks, 0, 8, 9);
    PickedRangeSplit(lines, picks, 0, 4, 8);
    assert [3, 4] + [8, 9] + [10] == [3, 4, 8, 9, 10];
  }

  lemma StartWithPredicateLinesFrom0(lines: seq<int>, picks: seq<bool>)
    requires |lines| == 9 && |picks| == 9
    requires !picks[0] && lines[0] == 2
    requires picks[1] && lines[1] == 3
    requires picks[2] && lines[2] == 4
    requires !picks[3] && lines[3] == 5
    ensures PickedRange(lines, picks, 0, 4) == [3, 4]
  {
    PickedOut(lines, picks, 3, 4, []);
    PickedIn(lines, picks, 2, 4, 4, []);
    PickedIn(lines, picks, 1, 4, 3, [4]);
    PickedOut(lines, picks, 0, 4, [3, 4]);
  }

  lemma StartWithPredicateLinesFrom4(lines: seq<int>, picks: seq<bool>)
    requires |lines| == 9 && |picks| == 9
    requires !picks[4] && lines[4] == 6
    requires !picks[5] && lines[5] == 7
    requires picks[6] && lines[6] == 8
    requires picks[7] && lines[7] == 9
    ensures PickedRange(lines, picks, 4, 8) == [8, 9]
  {
    PickedIn(lines, picks, 7, 8, 9, []);
    PickedIn(lines, picks, 6, 8, 8, [9]);
    PickedOut(lines, picks, 5, 8, [8, 9]);
    PickedOut(lines, picks, 4, 8, [8, 9]);
  }

  lemma StartWithPredicateLinesFrom8(lines: seq<int>, picks: seq<bool>)
    requires |lines| == 9 && |picks| == 9
    requires picks[8] && lines[8] == 10
    ensures PickedRange(lines, picks, 8, 9) == [10]
  {
    PickedIn(lines, picks, 8, 9, 10, []);
  }
}
