/**
  The owner-type tests of the matcher test suite, replayed on the model: each
  lemma states the lines one assertion expects, on the trees of its source.
*/
module TypesScenarios {
  import opened TypeHierarchy
  import opened Criteria
  import opened Matchers
  import opened MatchVisitor

  const OBJECT := "java.lang.Object"
  const INT: JType := Known("int")

  /** Interface `A`, interface `B extends A`, classes `X` and `Main`; a type with no declared supertype extends `Object`. */
  const TYPES_HIERARCHY: Hierarchy := map["A" := [OBJECT], "B" := ["A"], "X" := [OBJECT], "Main" := [OBJECT]]

  /** The three declarations of `f(int)`, `main(A a, B b, X x)`, and the calls `a.f(12)`, `b.f(12)`, `x.f(12)`. */
  const TYPES_TREES: seq<Located> := [
    Located(Declaration(Subject(Known("A"), "f", [INT], true)), 2),
    Located(Declaration(Subject(Known("B"), "f", [INT], true)), 5),
    Located(Declaration(Subject(Known("X"), "f", [INT], true)), 8),
    Located(Declaration(Subject(Known("Main"), "main", [Known("A"), Known("B"), Known("X")], true)), 11),
    Located(Invocation(Qualified(Known("A")), Subject(Known("A"), "f", [INT], true)), 12),
    Located(Invocation(Qualified(Known("B")), Subject(Known("B"), "f", [INT], true)), 13),
    Located(Invocation(Qualified(Known("X")), Subject(Known("X"), "f", [INT], true)), 14)
  ]

  /** Of the types in the file, `A` and `B` inherit from `A`. */
  lemma SubtypesOfA(t: TypeName)
    requires t in {OBJECT, "A", "B", "X", "Main"}
    ensures IsSubtype(TYPES_HIERARCHY, t, "A") <==> t in {"A", "B"}
  {
    SubtypeReflexive(TYPES_HIERARCHY, "A");
    SubtypeOfDirectSuper(TYPES_HIERARCHY, "B", "A");
    ClosedSetBlocksAll(TYPES_HIERARCHY, {OBJECT, "X", "Main"}, "A");
  }

  /** Only `B` inherits from `B`. */
  lemma SubtypesOfB(t: TypeName)
    requires t in {OBJECT, "A", "B", "X", "Main"}
    ensures IsSubtype(TYPES_HIERARCHY, t, "B") <==> t == "B"
  {
    SubtypeReflexive(TYPES_HIERARCHY, "B");
    ClosedSetBlocksAll(TYPES_HIERARCHY, {OBJECT, "A", "X", "Main"}, "B");
  }

  /** Only `X` inherits from `X`. */
  lemma SubtypesOfX(t: TypeName)
    requires t in {OBJECT, "A", "B", "X", "Main"}
    ensures IsSubtype(TYPES_HIERARCHY, t, "X") <==> t == "X"
  {
    SubtypeReflexive(TYPES_HIERARCHY, "X");
    ClosedSetBlocksAll(TYPES_HIERARCHY, {OBJECT, "A", "B", "Main"}, "X");
  }

  const EXACT_A: MethodMatcher := MethodMatcher([ExactType("A")], [Names({"f"})], [AnyParameters])
  const EXACT_B: MethodMatcher := MethodMatcher([ExactType("B")], [Names({"f"})], [AnyParameters])
  const EXACT_X: MethodMatcher := MethodMatcher([ExactType("X")], [Names({"f"})], [AnyParameters])
  const SUB_A: MethodMatcher := MethodMatcher([SubtypeOf("A")], [Names({"f"})], [AnyParameters])
  const SUB_B: MethodMatcher := MethodMatcher([SubtypeOf("B")], [Names({"f"})], [AnyParameters])
  const ANY_TYPE: MethodMatcher := MethodMatcher([AnyType], [Names({"f"})], [AnyParameters])
  const EXACT_B_X: MethodMatcher := MethodMatcher([ExactType("B"), ExactType("X")], [Names({"f"})], [AnyParameters])
  const SUB_A_X: MethodMatcher := MethodMatcher([SubtypeOf("A"), SubtypeOf("X")], [Names({"f"})], [AnyParameters])
  const SUB_B_SUB_X: MethodMatcher := MethodMatcher([SubtypeOf("B"), SubtypeOf("X")], [Names({"f"})], [AnyParameters])

  /** The line of every tree, in visiting order. */
  lemma TypesTreeLines()
    ensures |TYPES_TREES| == 7
    ensures forall k :: 0 <= k < 7 ==> TYPES_TREES[k].line == [2, 5, 8, 11, 12, 13, 14][k]
  {
  }

  /** `ofType("A")`: the declaration in `A` and the call through an `A`, not those of its subtype `B`. */
  lemma ExactTypeA()
    ensures MatchedLines(TYPES_HIERARCHY, Single(EXACT_A), false, TYPES_TREES) == [2, 12]
  {
    ExactTypeAJudged();
    ExactTypeAPicked();
  }

  lemma ExactTypeAPicked()
    ensures PickedRange([2, 5, 8, 11, 12, 13, 14], [true, false, false, false, true, false, false], 0, 7) == [2, 12]
  {
    ExactTypeALines([2, 5, 8, 11, 12, 13, 14], [true, false, false, false, true, false, false]);
  }

  lemma ExactTypeAJudged()
    ensures MatchedLines(TYPES_HIERARCHY, Single(EXACT_A), false, TYPES_TREES) == PickedRange([2, 5, 8, 11, 12, 13, 14], [true, false, false, false, true, false, false], 0, 7)
  {
    var hits := [true, false, false, false, true, false, false];
    ExactTypeAHitsFrom0(hits);
    ExactTypeAHitsFrom4(hits);
    TypesTreeLines();
    MatchedLinesPicked(TYPES_HIERARCHY, Single(EXACT_A), false, TYPES_TREES, [2, 5, 8, 11, 12, 13, 14], hits);
  }

  lemma ExactTypeAHitsFrom0(hits: seq<bool>)
    requires hits == [true, false, false, false, true, false, false]
    ensures forall k :: 0 <= k < 4 ==> Hit(TYPES_HIERARCHY, Single(EXACT_A), false, TYPES_TREES[k].node) == hits[k]
  {
    forall k | 0 <= k < 4
      ensures Hit(TYPES_HIERARCHY, Single(EXACT_A), false, TYPES_TREES[k].node) == hits[k]
    {
      SingleCriteriaOnTree(TYPES_HIERARCHY, EXACT_A.types[0], EXACT_A.names[0], EXACT_A.parameters[0], TYPES_TREES[k].node);
    }
  }

  lemma ExactTypeAHitsFrom4(hits: seq<bool>)
    requires hits == [true, false, false, false, true, false, false]
    ensures forall k :: 4 <= k < 7 ==> Hit(TYPES_HIERARCHY, Single(EXACT_A), false, TYPES_TREES[k].node) == hits[k]
  {
    forall k | 4 <= k < 7
      ensures Hit(TYPES_HIERARCHY, Single(EXACT_A), false, TYPES_TREES[k].node) == hits[k]
    {
      SingleCriteriaOnTree(TYPES_HIERARCHY, EXACT_A.types[0], EXACT_A.names[0], EXACT_A.parameters[0], TYPES_TREES[k].node);
    }
  }

  lemma ExactTypeALines(lines: seq<int>, picks: seq<bool>)
    requires |lines| == 7 && |picks| == 7
    requires picks[0] && lines[0] == 2
    requires !picks[1] && lines[1] == 5
    requires !picks[2] && lines[2] == 8
    requires !picks[3] && lines[3] == 11
    requires picks[4] && lines[4] == 12
    requires !picks[5] && lines[5] == 13
    requires !picks[6] && lines[6] == 14
    ensures PickedRange(lines, picks, 0, 7) == [2, 12]
  {
    ExactTypeALinesFrom0(lines, picks);
    ExactTypeALinesFrom4(lines, picks);
    PickedRangeSplit(lines, picks, 0, 4, 7);
    assert [2] + [12] == [2, 12];
  }

  lemma ExactTypeALinesFrom0(lines: seq<int>, picks: seq<bool>)
    requires |lines| == 7 && |picks| == 7
    requires picks[0] && lines[0] == 2
    requires !picks[1] && lines[1] == 5
    requires !picks[2] && lines[2] == 8
    requires !picks[3] && lines[3] == 11
    ensures PickedRange(lines, picks, 0, 4) == [2]
  {
    PickedOut(lines, picks, 3, 4, []);
    PickedOut(lines, picks, 2, 4, []);
    PickedOut(lines, picks, 1, 4, []);
    PickedIn(lines, picks, 0, 4, 2, []);
  }

  lemma ExactTypeALinesFrom4(lines: seq<int>, picks: seq<bool>)
    requires |lines| == 7 && |picks| == 7
    requires picks[4] && lines[4] == 12
    requires !picks[5] && lines[5] == 13
    requires !picks[6] && lines[6] == 14
    ensures PickedRange(lines, picks, 4, 7) == [12]
  {
    PickedOut(lines, picks, 6, 7, []);
    PickedOut(lines, picks, 5, 7, []);
    PickedIn(lines, picks, 4, 7, 12, []);
  }

  /** `ofType("B")`: only what `B` declares and the call through a `B`. */
  lemma ExactTypeB()
    ensures MatchedLines(TYPES_HIERARCHY, Single(EXACT_B), false, TYPES_TREES) == [5, 13]
  {
    ExactTypeBJudged();
    ExactTypeBPicked();
  }

  lemma ExactTypeBPicked()
    ensures PickedRange([2, 5, 8, 11, 12, 13, 14], [false, true, false, false, false, true, false], 0, 7) == [5, 13]
  {
    ExactTypeBLines([2, 5, 8, 11, 12, 13, 14], [false, true, false, false, false, true, false]);
  }

  lemma ExactTypeBJudged()
    ensures MatchedLines(TYPES_HIERARCHY, Single(EXACT_B), false, TYPES_TREES) == PickedRange([2, 5, 8, 11, 12, 13, 14], [false, true, false, false, false, true, false], 0, 7)
  {
    var hits := [false, true, false, false, false, true, false];
    ExactTypeBHitsFrom0(hits);
    ExactTypeBHitsFrom4(hits);
    TypesTreeLines();
    MatchedLinesPicked(TYPES_HIERARCHY, Single(EXACT_B), false, TYPES_TREES, [2, 5, 8, 11, 12, 13, 14], hits);
  }

  lemma ExactTypeBHitsFrom0(hits: seq<bool>)
    requires hits == [false, true, false, false, false, true, false]
    ensures forall k :: 0 <= k < 4 ==> Hit(TYPES_HIERARCHY, Single(EXACT_B), false, TYPES_TREES[k].node) == hits[k]
  {
    forall k | 0 <= k < 4
      ensures Hit(TYPES_HIERARCHY, Single(EXACT_B), false, TYPES_TREES[k].node) == hits[k]
    {
      SingleCriteriaOnTree(TYPES_HIERARCHY, EXACT_B.types[0], EXACT_B.names[0], EXACT_B.parameters[0], TYPES_TREES[k].node);
    }
  }

  lemma ExactTypeBHitsFrom4(hits: seq<bool>)
    requires hits == [false, true, false, false, false, true, false]
    ensures forall k :: 4 <= k < 7 ==> Hit(TYPES_HIERARCHY, Single(EXACT_B), false, TYPES_TREES[k].node) == hits[k]
  {
    forall k | 4 <= k < 7
      ensures Hit(TYPES_HIERARCHY, Single(EXACT_B), false, TYPES_TREES[k].node) == hits[k]
    {
      SingleCriteriaOnTree(TYPES_HIERARCHY, EXACT_B.types[0], EXACT_B.names[0], EXACT_B.parameters[0], TYPES_TREES[k].node);
    }
  }

  lemma ExactTypeBLines(lines: seq<int>, picks: seq<bool>)
    requires |lines| == 7 && |picks| == 7
    requires !picks[0] && lines[0] == 2
    requires picks[1] && lines[1] == 5
    requires !picks[2] && lines[2] == 8
    requires !picks[3] && lines[3] == 11
    requires !picks[4] && lines[4] == 12
    requires picks[5] && lines[5] == 13
    requires !picks[6] && lines[6] == 14
    ensures PickedRange(lines, picks, 0, 7) == [5, 13]
  {
    ExactTypeBLinesFrom0(lines, picks);
    ExactTypeBLinesFrom4(lines, picks);
    PickedRangeSplit(lines, picks, 0, 4, 7);
    assert [5] + [13] == [5, 13];
  }

  lemma ExactTypeBLinesFrom0(lines: seq<int>, picks: seq<bool>)
    requires |lines| == 7 && |picks| == 7
    requires !picks[0] && lines[0] == 2
    requires picks[1] && lines[1] == 5
    requires !picks[2] && lines[2] == 8
    requires !picks[3] && lines[3] == 11
    ensures PickedRange(lines, picks, 0, 4) == [5]
  {
    PickedOut(lines, picks, 3, 4, []);
    PickedOut(lines, picks, 2, 4, []);
    PickedIn(lines, picks, 1, 4, 5, []);
    PickedOut(lines, picks, 0, 4, [5]);
  }

  lemma ExactTypeBLinesFrom4(lines: seq<int>, picks: seq<bool>)
    requires |lines| == 7 && |picks| == 7
    requires !picks[4] && lines[4] == 12
    requires picks[5] && lines[5] == 13
    requires !picks[6] && lines[6] == 14
    ensures PickedRange(lines, picks, 4, 7) == [13]
  {
    PickedOut(lines, picks, 6, 7, []);
    PickedIn(lines, picks, 5, 7, 13, []);
    PickedOut(lines, picks, 4, 7, [13]);
  }

  /** `ofType("X")`: only what `X` declares and the call through an `X`. */
  lemma ExactTypeX()
    ensures MatchedLines(TYPES_HIERARCHY, Single(EXACT_X), false, TYPES_TREES) == [8, 14]
  {
    ExactTypeXJudged();
    ExactTypeXPicked();
  }

  lemma ExactTypeXPicked()
    ensures PickedRange([2, 5, 8, 11, 12, 13, 14], [false, false, true, false, false, false, true], 0, 7) == [8, 14]
  {
    ExactTypeXLines([2, 5, 8, 11, 12, 13, 14], [false, false, true, false, false, false, true]);
  }

  lemma ExactTypeXJudged()
    ensures MatchedLines(TYPES_HIERARCHY, Single(EXACT_X), false, TYPES_TREES) == PickedRange([2, 5, 8, 11, 12, 13, 14], [false, false, true, false, false, false, true], 0, 7)
  {
    var hits := [false, false, true, false, false, false, true];
    ExactTypeXHitsFrom0(hits);
    ExactTypeXHitsFrom4(hits);
    TypesTreeLines();
    MatchedLinesPicked(TYPES_HIERARCHY, Single(EXACT_X), false, TYPES_TREES, [2, 5, 8, 11, 12, 13, 14], hits);
  }

  lemma ExactTypeXHitsFrom0(hits: seq<bool>)
    requires hits == [false, false, true, false, false, false, true]
    ensures forall k :: 0 <= k < 4 ==> Hit(TYPES_HIERARCHY, Single(EXACT_X), false, TYPES_TREES[k].node) == hits[k]
  {
    forall k | 0 <= k < 4
      ensures Hit(TYPES_HIERARCHY, Single(EXACT_X), false, TYPES_TREES[k].node) == hits[k]
    {
      SingleCriteriaOnTree(TYPES_HIERARCHY, EXACT_X.types[0], EXACT_X.names[0], EXACT_X.parameters[0], TYPES_TREES[k].node);
    }
  }

  lemma ExactTypeXHitsFrom4(hits: seq<bool>)
    requires hits == [false, false, true, false, false, false, true]
    ensures forall k :: 4 <= k < 7 ==> Hit(TYPES_HIERARCHY, Single(EXACT_X), false, TYPES_TREES[k].node) == hits[k]
  {
    forall k | 4 <= k < 7
      ensures Hit(TYPES_HIERARCHY, Single(EXACT_X), false, TYPES_TREES[k].node) == hits[k]
    {
      SingleCriteriaOnTree(TYPES_HIERARCHY, EXACT_X.types[0], EXACT_X.names[0], EXACT_X.parameters[0], TYPES_TREES[k].node);
    }
  }

  lemma ExactTypeXLines(lines: seq<int>, picks: seq<bool>)
    requires |lines| == 7 && |picks| == 7
    requires !picks[0] && lines[0] == 2
    requires !picks[1] && lines[1] == 5
    requires picks[2] && lines[2] == 8
    requires !picks[3] && lines[3] == 11
    requires !picks[4] && lines[4] == 12
    requires !picks[5] && lines[5] == 13
    requires picks[6] && lines[6] == 14
    ensures PickedRange(lines, picks, 0, 7) == [8, 14]
  {
    ExactTypeXLinesFrom0(lines, picks);
    ExactTypeXLinesFrom4(lines, picks);
    PickedRangeSplit(lines, picks, 0, 4, 7);
    assert [8] + [14] == [8, 14];
  }

  lemma ExactTypeXLinesFrom0(lines: seq<int>, picks: seq<bool>)
    requires |lines| == 7 && |picks| == 7
    requires !picks[0] && lines[0] == 2
    requires !picks[1] && lines[1] == 5
    requires picks[2] && lines[2] == 8
    requires !picks[3] && lines[3] == 11
    ensures PickedRange(lines, picks, 0, 4) == [8]
  {
    PickedOut(lines, picks, 3, 4, []);
    PickedIn(lines, picks, 2, 4, 8, []);
    PickedOut(lines, picks, 1, 4, [8]);
    PickedOut(lines, picks, 0, 4, [8]);
  }

  lemma ExactTypeXLinesFrom4(lines: seq<int>, picks: seq<bool>)
    requires |lines| == 7 && |picks| == 7
    requires !picks[4] && lines[4] == 12
    requires !picks[5] && lines[5] == 13
    requires picks[6] && lines[6] == 14
    ensures PickedRange(lines, picks, 4, 7) == [14]
  {
    PickedIn(lines, picks, 6, 7, 14, []);
    PickedOut(lines, picks, 5, 7, [14]);
    PickedOut(lines, picks, 4, 7, [14]);
  }

  /** `ofSubType("A")`: `A` and its subtype `B`, declarations and calls. */
  lemma SubtypeOfA()
    ensures MatchedLines(TYPES_HIERARCHY, Single(SUB_A), false, TYPES_TREES) == [2, 5, 12, 13]
  {
    SubtypeOfAJudged();
    SubtypeOfAPicked();
  }

  lemma SubtypeOfAPicked()
    ensures PickedRange([2, 5, 8, 11, 12, 13, 14], [true, true, false, false, true, true, false], 0, 7) == [2, 5, 12, 13]
  {
    SubtypeOfALines([2, 5, 8, 11, 12, 13, 14], [true, true, false, false, true, true, false]);
  }

  lemma SubtypeOfAJudged()
    ensures MatchedLines(TYPES_HIERARCHY, Single(SUB_A), false, TYPES_TREES) == PickedRange([2, 5, 8, 11, 12, 13, 14], [true, true, false, false, true, true, false], 0, 7)
  {
    var hits := [true, true, false, false, true, true, false];
    SubtypeOfAHitsFrom0(hits);
    SubtypeOfAHitsFrom4(hits);
    TypesTreeLines();
    MatchedLinesPicked(TYPES_HIERARCHY, Single(SUB_A), false, TYPES_TREES, [2, 5, 8, 11, 12, 13, 14], hits);
  }

  lemma SubtypeOfAHitsFrom0(hits: seq<bool>)
    requires hits == [true, true, false, false, true, true, false]
    ensures forall k :: 0 <= k < 4 ==> Hit(TYPES_HIERARCHY, Single(SUB_A), false, TYPES_TREES[k].node) == hits[k]
  {
    forall t | t in {OBJECT, "A", "B", "X", "Main"}
      ensures IsSubtype(TYPES_HIERARCHY, t, "A") <==> t in {"A", "B"}
    {
      SubtypesOfA(t);
    }
    forall k | 0 <= k < 4
      ensures Hit(TYPES_HIERARCHY, Single(SUB_A), false, TYPES_TREES[k].node) == hits[k]
    {
      SingleCriteriaOnTree(TYPES_HIERARCHY, SUB_A.types[0], SUB_A.names[0], SUB_A.parameters[0], TYPES_TREES[k].node);
    }
  }

  lemma SubtypeOfAHitsFrom4(hits: seq<bool>)
    requires hits == [true, true, false, false, true, true, false]
    ensures forall k :: 4 <= k < 7 ==> Hit(TYPES_HIERARCHY, Single(SUB_A), false, TYPES_TREES[k].node) == hits[k]
  {
    forall t | t in {OBJECT, "A", "B", "X", "Main"}
      ensures IsSubtype(TYPES_HIERARCHY, t, "A") <==> t in {"A", "B"}
    {
      SubtypesOfA(t);
    }
    forall k | 4 <= k < 7
      ensures Hit(TYPES_HIERARCHY, Single(SUB_A), false, TYPES_TREES[k].node) == hits[k]
    {
      SingleCriteriaOnTree(TYPES_HIERARCHY, SUB_A.types[0], SUB_A.names[0], SUB_A.parameters[0], TYPES_TREES[k].node);
    }
  }

  lemma SubtypeOfALines(lines: seq<int>, picks: seq<bool>)
    requires |lines| == 7 && |picks| == 7
    requires picks[0] && lines[0] == 2
    requires picks[1] && lines[1] == 5
    requires !picks[2] && lines[2] == 8
    requires !picks[3] && lines[3] == 11
    requires picks[4] && lines[4] == 12
    requires picks[5] && lines[5] == 13
    requires !picks[6] && lines[6] == 14
    ensures PickedRange(lines, picks, 0, 7) == [2, 5, 12, 13]
  {
    SubtypeOfALinesFrom0(lines, picks);
    SubtypeOfALinesFrom4(lines, picks);
    PickedRangeSplit(lines, picks, 0, 4, 7);
    assert [2, 5] + [12, 13] == [2, 5, 12, 13];
  }

  lemma SubtypeOfALinesFrom0(lines: seq<int>, picks: seq<bool>)
    requires |lines| == 7 && |picks| == 7
    requires picks[0] && lines[0] == 2
    requires picks[1] && lines[1] == 5
    requires !picks[2] && lines[2] == 8
    requires !picks[3] && lines[3] == 11
    ensures PickedRange(lines, picks, 0, 4) == [2, 5]
  {
    PickedOut(lines, picks, 3, 4, []);
    PickedOut(lines, picks, 2, 4, []);
    PickedIn(lines, picks, 1, 4, 5, []);
    PickedIn(lines, picks, 0, 4, 2, [5]);
  }

  lemma SubtypeOfALinesFrom4(lines: seq<int>, picks: seq<bool>)
    requires |lines| == 7 && |picks| == 7
    requires picks[4] && lines[4] == 12
    requires picks[5] && lines[5] == 13
    requires !picks[6] && lines[6] == 14
    ensures PickedRange(lines, picks, 4, 7) == [12, 13]
  {
    PickedOut(lines, picks, 6, 7, []);
    PickedIn(lines, picks, 5, 7, 13, []);
    PickedIn(lines, picks, 4, 7, 12, [13]);
  }

  /** `ofSubType("B")`: `B` only, since `A` is its supertype and not a subtype. */
  lemma SubtypeOfB()
    ensures MatchedLines(TYPES_HIERARCHY, Single(SUB_B), false, TYPES_TREES) == [5, 13]
  {
    SubtypeOfBJudged();
    SubtypeOfBPicked();
  }

  lemma SubtypeOfBPicked()
    ensures PickedRange([2, 5, 8, 11, 12, 13, 14], [false, true, false, false, false, true, false], 0, 7) == [5, 13]
  {
    SubtypeOfBLines([2, 5, 8, 11, 12, 13, 14], [false, true, false, false, false, true, false]);
  }

  lemma SubtypeOfBJudged()
    ensures MatchedLines(TYPES_HIERARCHY, Single(SUB_B), false, TYPES_TREES) == PickedRange([2, 5, 8, 11, 12, 13, 14], [false, true, false, false, false, true, false], 0, 7)
  {
    var hits := [false, true, false, false, false, true, false];
    SubtypeOfBHitsFrom0(hits);
    SubtypeOfBHitsFrom4(hits);
    TypesTreeLines();
    MatchedLinesPicked(TYPES_HIERARCHY, Single(SUB_B), false, TYPES_TREES, [2, 5, 8, 11, 12, 13, 14], hits);
  }

  lemma SubtypeOfBHitsFrom0(hits: seq<bool>)
    requires hits == [false, true, false, false, false, true, false]
    ensures forall k :: 0 <= k < 4 ==> Hit(TYPES_HIERARCHY, Single(SUB_B), false, TYPES_TREES[k].node) == hits[k]
  {
    forall t | t in {OBJECT, "A", "B", "X", "Main"}
      ensures IsSubtype(TYPES_HIERARCHY, t, "B") <==> t in {"B"}
    {
      SubtypesOfB(t);
    }
    forall k | 0 <= k < 4
      ensures Hit(TYPES_HIERARCHY, Single(SUB_B), false, TYPES_TREES[k].node) == hits[k]
    {
      SingleCriteriaOnTree(TYPES_HIERARCHY, SUB_B.types[0], SUB_B.names[0], SUB_B.parameters[0], TYPES_TREES[k].node);
    }
  }

  lemma SubtypeOfBHitsFrom4(hits: seq<bool>)
    requires hits == [false, true, false, false, false, true, false]
    ensures forall k :: 4 <= k < 7 ==> Hit(TYPES_HIERARCHY, Single(SUB_B), false, TYPES_TREES[k].node) == hits[k]
  {
    forall t | t in {OBJECT, "A", "B", "X", "Main"}
      ensures IsSubtype(TYPES_HIERARCHY, t, "B") <==> t in {"B"}
    {
      SubtypesOfB(t);
    }
    forall k | 4 <= k < 7
      ensures Hit(TYPES_HIERARCHY, Single(SUB_B), false, TYPES_TREES[k].node) == hits[k]
    {
      SingleCriteriaOnTree(TYPES_HIERARCHY, SUB_B.types[0], SUB_B.names[0], SUB_B.parameters[0], TYPES_TREES[k].node);
    }
  }

  lemma SubtypeOfBLines(lines: seq<int>, picks: seq<bool>)
    requires |lines| == 7 && |picks| == 7
    requires !picks[0] && lines[0] == 2
    requires picks[1] && lines[1] == 5
    requires !picks[2] && lines[2] == 8
    requires !picks[3] && lines[3] == 11
    requires !picks[4] && lines[4] == 12
    requires picks[5] && lines[5] == 13
    requires !picks[6] && lines[6] == 14
    ensures PickedRange(lines, picks, 0, 7) == [5, 13]
  {
    SubtypeOfBLinesFrom0(lines, picks);
    SubtypeOfBLinesFrom4(lines, picks);
    PickedRangeSplit(lines, picks, 0, 4, 7);
    assert [5] + [13] == [5, 13];
  }

  lemma SubtypeOfBLinesFrom0(lines: seq<int>, picks: seq<bool>)
    requires |lines| == 7 && |picks| == 7
    requires !picks[0] && lines[0] == 2
    requires picks[1] && lines[1] == 5
    requires !picks[2] && lines[2] == 8
    requires !picks[3] && lines[3] == 11
    ensures PickedRange(lines, picks, 0, 4) == [5]
  {
    PickedOut(lines, picks, 3, 4, []);
    PickedOut(lines, picks, 2, 4, []);
    PickedIn(lines, picks, 1, 4, 5, []);
    PickedOut(lines, picks, 0, 4, [5]);
  }

  lemma SubtypeOfBLinesFrom4(lines: seq<int>, picks: seq<bool>)
    requires |lines| == 7 && |picks| == 7
    requires !picks[4] && lines[4] == 12
    requires picks[5] && lines[5] == 13
    requires !picks[6] && lines[6] == 14
    ensures PickedRange(lines, picks, 4, 7) == [13]
  {
    PickedOut(lines, picks, 6, 7, []);
    PickedIn(lines, picks, 5, 7, 13, []);
    PickedOut(lines, picks, 4, 7, [13]);
  }

  /** `ofAnyType()`: every `f`, whatever its owner. */
  lemma AnyOwnerType()
    ensures MatchedLines(TYPES_HIERARCHY, Single(ANY_TYPE), false, TYPES_TREES) == [2, 5, 8, 12, 13, 14]
  {
    AnyOwnerTypeJudged();
    AnyOwnerTypePicked();
  }

  lemma AnyOwnerTypePicked()
    ensures PickedRange([2, 5, 8, 11, 12, 13, 14], [true, true, true, false, true, true, true], 0, 7) == [2, 5, 8, 12, 13, 14]
  {
    AnyOwnerTypeLines([2, 5, 8, 11, 12, 13, 14], [true, true, true, false, true, true, true]);
  }

  lemma AnyOwnerTypeJudged()
    ensures MatchedLines(TYPES_HIERARCHY, Single(ANY_TYPE), false, TYPES_TREES) == PickedRange([2, 5, 8, 11, 12, 13, 14], [true, true, true, false, true, true, true], 0, 7)
  {
    var hits := [true, true, true, false, true, true, true];
    AnyOwnerTypeHitsFrom0(hits);
    AnyOwnerTypeHitsFrom4(hits);
    TypesTreeLines();
    MatchedLinesPicked(TYPES_HIERARCHY, Single(ANY_TYPE), false, TYPES_TREES, [2, 5, 8, 11, 12, 13, 14], hits);
  }

  lemma AnyOwnerTypeHitsFrom0(hits: seq<bool>)
    requires hits == [true, true, true, false, true, true, true]
    ensures forall k :: 0 <= k < 4 ==> Hit(TYPES_HIERARCHY, Single(ANY_TYPE), false, TYPES_TREES[k].node) == hits[k]
  {
    forall k | 0 <= k < 4
      ensures Hit(TYPES_HIERARCHY, Single(ANY_TYPE), false, TYPES_TREES[k].node) == hits[k]
    {
      SingleCriteriaOnTree(TYPES_HIERARCHY, ANY_TYPE.types[0], ANY_TYPE.names[0], ANY_TYPE.parameters[0], TYPES_TREES[k].node);
    }
  }

  lemma AnyOwnerTypeHitsFrom4(hits: seq<bool>)
    requires hits == [true, true, true, false, true, true, true]
    ensures forall k :: 4 <= k < 7 ==> Hit(TYPES_HIERARCHY, Single(ANY_TYPE), false, TYPES_TREES[k].node) == hits[k]
  {
    forall k | 4 <= k < 7
      ensures Hit(TYPES_HIERARCHY, Single(ANY_TYPE), false, TYPES_TREES[k].node) == hits[k]
    {
      SingleCriteriaOnTree(TYPES_HIERARCHY, ANY_TYPE.types[0], ANY_TYPE.names[0], ANY_TYPE.parameters[0], TYPES_TREES[k].node);
    }
  }

  lemma AnyOwnerTypeLines(lines: seq<int>, picks: seq<bool>)
    requires |lines| == 7 && |picks| == 7
    requires picks[0] && lines[0] == 2
    requires picks[1] && lines[1] == 5
    requires picks[2] && lines[2] == 8
    requires !picks[3] && lines[3] == 11
    requires picks[4] && lines[4] == 12
    requires picks[5] && lines[5] == 13
    requires picks[6] && lines[6] == 14
    ensures PickedRange(lines, picks, 0, 7) == [2, 5, 8, 12, 13, 14]
  {
    AnyOwnerTypeLinesFrom0(lines, picks);
    AnyOwnerTypeLinesFrom4(lines, picks);
    PickedRangeSplit(lines, picks, 0, 4, 7);
    assert [2, 5, 8] + [12, 13, 14] == [2, 5, 8, 12, 13, 14];
  }

  lemma AnyOwnerTypeLinesFrom0(lines: seq<int>, picks: seq<bool>)
    requires |lines| == 7 && |picks| == 7
    requires picks[0] && lines[0] == 2
    requires picks[1] && lines[1] == 5
    requires picks[2] && lines[2] == 8
    requires !picks[3] && lines[3] == 11
    ensures PickedRange(lines, picks, 0, 4) == [2, 5, 8]
  {
    PickedOut(lines, picks, 3, 4, []);
    PickedIn(lines, picks, 2, 4, 8, []);
    PickedIn(lines, picks, 1, 4, 5, [8]);
    PickedIn(lines, picks, 0, 4, 2, [5, 8]);
  }

  lemma AnyOwnerTypeLinesFrom4(lines: seq<int>, picks: seq<bool>)
    requires |lines| == 7 && |picks| == 7
    requires picks[4] && lines[4] == 12
    requires picks[5] && lines[5] == 13
    requires picks[6] && lines[6] == 14
    ensures PickedRange(lines, picks, 4, 7) == [12, 13, 14]
  {
    PickedIn(lines, picks, 6, 7, 14, []);
    PickedIn(lines, picks, 5, 7, 13, [14]);
    PickedIn(lines, picks, 4, 7, 12, [13, 14]);
  }

  /** `ofTypes("B", "X")`: the two exact owners are alternatives. */
  lemma ExactTypesBX()
    ensures MatchedLines(TYPES_HIERARCHY, Single(EXACT_B_X), false, TYPES_TREES) == [5, 8, 13, 14]
  {
    ExactTypesBXJudged();
    ExactTypesBXPicked();
  }

  lemma ExactTypesBXPicked()
    ensures PickedRange([2, 5, 8, 11, 12, 13, 14], [false, true, true, false, false, true, true], 0, 7) == [5, 8, 13, 14]
  {
    ExactTypesBXLines([2, 5, 8, 11, 12, 13, 14], [false, true, true, false, false, true, true]);
  }

  lemma ExactTypesBXJudged()
    ensures MatchedLines(TYPES_HIERARCHY, Single(EXACT_B_X), false, TYPES_TREES) == PickedRange([2, 5, 8, 11, 12, 13, 14], [false, true, true, false, false, true, true], 0, 7)
  {
    var hits := [false, true, true, false, false, true, true];
    ExactTypesBXHitsFrom0(hits);
    ExactTypesBXHitsFrom4(hits);
    TypesTreeLines();
    MatchedLinesPicked(TYPES_HIERARCHY, Single(EXACT_B_X), false, TYPES_TREES, [2, 5, 8, 11, 12, 13, 14], hits);
  }

  lemma ExactTypesBXHitsFrom0(hits: seq<bool>)
    requires hits == [false, true, true, false, false, true, true]
    ensures forall k :: 0 <= k < 4 ==> Hit(TYPES_HIERARCHY, Single(EXACT_B_X), false, TYPES_TREES[k].node) == hits[k]
  {
    forall k | 0 <= k < 4
      ensures Hit(TYPES_HIERARCHY, Single(EXACT_B_X), false, TYPES_TREES[k].node) == hits[k]
    {
      SingleMatcherOnTree(TYPES_HIERARCHY, EXACT_B_X, TYPES_TREES[k].node);
      assert SomeNameCriterion(EXACT_B_X.names, TreeSubject(TYPES_TREES[k].node).name) <==> NameSatisfies(EXACT_B_X.names[0], TreeSubject(TYPES_TREES[k].node).name);
      assert SomeParameterCriterion(TYPES_HIERARCHY, EXACT_B_X.parameters, TreeSubject(TYPES_TREES[k].node).parameters) <==> ParametersSatisfy(TYPES_HIERARCHY, EXACT_B_X.parameters[0], TreeSubject(TYPES_TREES[k].node).parameters);
      TypeCriteriaOfTwo(TYPES_HIERARCHY, EXACT_B_X.types[0], EXACT_B_X.types[1], TreeSubject(TYPES_TREES[k].node).owner);
    }
  }

  lemma ExactTypesBXHitsFrom4(hits: seq<bool>)
    requires hits == [false, true, true, false, false, true, true]
    ensures forall k :: 4 <= k < 7 ==> Hit(TYPES_HIERARCHY, Single(EXACT_B_X), false, TYPES_TREES[k].node) == hits[k]
  {
    forall k | 4 <= k < 7
      ensures Hit(TYPES_HIERARCHY, Single(EXACT_B_X), false, TYPES_TREES[k].node) == hits[k]
    {
      SingleMatcherOnTree(TYPES_HIERARCHY, EXACT_B_X, TYPES_TREES[k].node);
      assert SomeNameCriterion(EXACT_B_X.names, TreeSubject(TYPES_TREES[k].node).name) <==> NameSatisfies(EXACT_B_X.names[0], TreeSubject(TYPES_TREES[k].node).name);
      assert SomeParameterCriterion(TYPES_HIERARCHY, EXACT_B_X.parameters, TreeSubject(TYPES_TREES[k].node).parameters) <==> ParametersSatisfy(TYPES_HIERARCHY, EXACT_B_X.parameters[0], TreeSubject(TYPES_TREES[k].node).parameters);
      TypeCriteriaOfTwo(TYPES_HIERARCHY, EXACT_B_X.types[0], EXACT_B_X.types[1], TreeSubject(TYPES_TREES[k].node).owner);
    }
  }

  lemma ExactTypesBXLines(lines: seq<int>, picks: seq<bool>)
    requires |lines| == 7 && |picks| == 7
    requires !picks[0] && lines[0] == 2
    requires picks[1] && lines[1] == 5
    requires picks[2] && lines[2] == 8
    requires !picks[3] && lines[3] == 11
    requires !picks[4] && lines[4] == 12
    requires picks[5] && lines[5] == 13
    requires picks[6] && lines[6] == 14
    ensures PickedRange(lines, picks, 0, 7) == [5, 8, 13, 14]
  {
    ExactTypesBXLinesFrom0(lines, picks);
    ExactTypesBXLinesFrom4(lines, picks);
    PickedRangeSplit(lines, picks, 0, 4, 7);
    assert [5, 8] + [13, 14] == [5, 8, 13, 14];
  }

  lemma ExactTypesBXLinesFrom0(lines: seq<int>, picks: seq<bool>)
    requires |lines| == 7 && |picks| == 7
    requires !picks[0] && lines[0] == 2
    requires picks[1] && lines[1] == 5
    requires picks[2] && lines[2] == 8
    requires !picks[3] && lines[3] == 11
    ensures PickedRange(lines, picks, 0, 4) == [5, 8]
  {
    PickedOut(lines, picks, 3, 4, []);
    PickedIn(lines, picks, 2, 4, 8, []);
    PickedIn(lines, picks, 1, 4, 5, [8]);
    PickedOut(lines, picks, 0, 4, [5, 8]);
  }

  lemma ExactTypesBXLinesFrom4(lines: seq<int>, picks: seq<bool>)
    requires |lines| == 7 && |picks| == 7
    requires !picks[4] && lines[4] == 12
    requires picks[5] && lines[5] == 13
    requires picks[6] && lines[6] == 14
    ensures PickedRange(lines, picks, 4, 7) == [13, 14]
  {
    PickedIn(lines, picks, 6, 7, 14, []);
    PickedIn(lines, picks, 5, 7, 13, [14]);
    PickedOut(lines, picks, 4, 7, [13, 14]);
  }

  /** `ofSubTypes("A", "X")`: the subtypes of either, so every `f` here. */
  lemma SubtypesOfAX()
    ensures MatchedLines(TYPES_HIERARCHY, Single(SUB_A_X), false, TYPES_TREES) == [2, 5, 8, 12, 13, 14]
  {
    SubtypesOfAXJudged();
    SubtypesOfAXPicked();
  }

  lemma SubtypesOfAXPicked()
    ensures PickedRange([2, 5, 8, 11, 12, 13, 14], [true, true, true, false, true, true, true], 0, 7) == [2, 5, 8, 12, 13, 14]
  {
    SubtypesOfAXLines([2, 5, 8, 11, 12, 13, 14], [true, true, true, false, true, true, true]);
  }

  lemma SubtypesOfAXJudged()
    ensures MatchedLines(TYPES_HIERARCHY, Single(SUB_A_X), false, TYPES_TREES) == PickedRange([2, 5, 8, 11, 12, 13, 14], [true, true, true, false, true, true, true], 0, 7)
  {
    var hits := [true, true, true, false, true, true, true];
    SubtypesOfAXHitsFrom0(hits);
    SubtypesOfAXHitsFrom4(hits);
    TypesTreeLines();
    MatchedLinesPicked(TYPES_HIERARCHY, Single(SUB_A_X), false, TYPES_TREES, [2, 5, 8, 11, 12, 13, 14], hits);
  }

  lemma SubtypesOfAXHitsFrom0(hits: seq<bool>)
    requires hits == [true, true, true, false, true, true, true]
    ensures forall k :: 0 <= k < 4 ==> Hit(TYPES_HIERARCHY, Single(SUB_A_X), false, TYPES_TREES[k].node) == hits[k]
  {
    forall t | t in {OBJECT, "A", "B", "X", "Main"}
      ensures IsSubtype(TYPES_HIERARCHY, t, "A") <==> t in {"A", "B"}
    {
      SubtypesOfA(t);
    }
    forall t | t in {OBJECT, "A", "B", "X", "Main"}
      ensures IsSubtype(TYPES_HIERARCHY, t, "X") <==> t in {"X"}
    {
      SubtypesOfX(t);
    }
    forall k | 0 <= k < 4
      ensures Hit(TYPES_HIERARCHY, Single(SUB_A_X), false, TYPES_TREES[k].node) == hits[k]
    {
      SingleMatcherOnTree(TYPES_HIERARCHY, SUB_A_X, TYPES_TREES[k].node);
      assert SomeNameCriterion(SUB_A_X.names, TreeSubject(TYPES_TREES[k].node).name) <==> NameSatisfies(SUB_A_X.names[0], TreeSubject(TYPES_TREES[k].node).name);
      assert SomeParameterCriterion(TYPES_HIERARCHY, SUB_A_X.parameters, TreeSubject(TYPES_TREES[k].node).parameters) <==> ParametersSatisfy(TYPES_HIERARCHY, SUB_A_X.parameters[0], TreeSubject(TYPES_TREES[k].node).parameters);
      TypeCriteriaOfTwo(TYPES_HIERARCHY, SUB_A_X.types[0], SUB_A_X.types[1], TreeSubject(TYPES_TREES[k].node).owner);
    }
  }

  lemma SubtypesOfAXHitsFrom4(hits: seq<bool>)
    requires hits == [true, true, true, false, true, true, true]
    ensures forall k :: 4 <= k < 7 ==> Hit(TYPES_HIERARCHY, Single(SUB_A_X), false, TYPES_TREES[k].node) == hits[k]
  {
    forall t | t in {OBJECT, "A", "B", "X", "Main"}
      ensures IsSubtype(TYPES_HIERARCHY, t, "A") <==> t in {"A", "B"}
    {
      SubtypesOfA(t);
    }
    forall t | t in {OBJECT, "A", "B", "X", "Main"}
      ensures IsSubtype(TYPES_HIERARCHY, t, "X") <==> t in {"X"}
    {
      SubtypesOfX(t);
    }
    forall k | 4 <= k < 7
      ensures Hit(TYPES_HIERARCHY, Single(SUB_A_X), false, TYPES_TREES[k].node) == hits[k]
    {
      SingleMatcherOnTree(TYPES_HIERARCHY, SUB_A_X, TYPES_TREES[k].node);
      assert SomeNameCriterion(SUB_A_X.names, TreeSubject(TYPES_TREES[k].node).name) <==> NameSatisfies(SUB_A_X.names[0], TreeSubject(TYPES_TREES[k].node).name);
      assert SomeParameterCriterion(TYPES_HIERARCHY, SUB_A_X.parameters, TreeSubject(TYPES_TREES[k].node).parameters) <==> ParametersSatisfy(TYPES_HIERARCHY, SUB_A_X.parameters[0], TreeSubject(TYPES_TREES[k].node).parameters);
      TypeCriteriaOfTwo(TYPES_HIERARCHY, SUB_A_X.types[0], SUB_A_X.types[1], TreeSubject(TYPES_TREES[k].node).owner);
    }
  }

  lemma SubtypesOfAXLines(lines: seq<int>, picks: seq<bool>)
    requires |lines| == 7 && |picks| == 7
    requires picks[0] && lines[0] == 2
    requires picks[1] && lines[1] == 5
    requires picks[2] && lines[2] == 8
    requires !picks[3] && lines[3] == 11
    requires picks[4] && lines[4] == 12
    requires picks[5] && lines[5] == 13
    requires picks[6] && lines[6] == 14
    ensures PickedRange(lines, picks, 0, 7) == [2, 5, 8, 12, 13, 14]
  {
    SubtypesOfAXLinesFrom0(lines, picks);
    SubtypesOfAXLinesFrom4(lines, picks);
    PickedRangeSplit(lines, picks, 0, 4, 7);
    assert [2, 5, 8] + [12, 13, 14] == [2, 5, 8, 12, 13, 14];
  }

  lemma SubtypesOfAXLinesFrom0(lines: seq<int>, picks: seq<bool>)
    requires |lines| == 7 && |picks| == 7
    requires picks[0] && lines[0] == 2
    requires picks[1] && lines[1] == 5
    requires picks[2] && lines[2] == 8
    requires !picks[3] && lines[3] == 11
    ensures PickedRange(lines, picks, 0, 4) == [2, 5, 8]
  {
    PickedOut(lines, picks, 3, 4, []);
    PickedIn(lines, picks, 2, 4, 8, []);
    PickedIn(lines, picks, 1, 4, 5, [8]);
    PickedIn(lines, picks, 0, 4, 2, [5, 8]);
  }

  lemma SubtypesOfAXLinesFrom4(lines: seq<int>, picks: seq<bool>)
    requires |lines| == 7 && |picks| == 7
    requires picks[4] && lines[4] == 12
    requires picks[5] && lines[5] == 13
    requires picks[6] && lines[6] == 14
    ensures PickedRange(lines, picks, 4, 7) == [12, 13, 14]
  {
    PickedIn(lines, picks, 6, 7, 14, []);
    PickedIn(lines, picks, 5, 7, 13, [14]);
    PickedIn(lines, picks, 4, 7, 12, [13, 14]);
  }

  /** `ofSubType("B").ofSubType("X")`: a second `ofSubType` adds an alternative, it does not replace the first. */
  lemma SubtypeOfBThenX()
    ensures MatchedLines(TYPES_HIERARCHY, Single(SUB_B_SUB_X), false, TYPES_TREES) == [5, 8, 13, 14]
  {
    SubtypeOfBThenXJudged();
    SubtypeOfBThenXPicked();
  }

  lemma SubtypeOfBThenXPicked()
    ensures PickedRange([2, 5, 8, 11, 12, 13, 14], [false, true, true, false, false, true, true], 0, 7) == [5, 8, 13, 14]
  {
    SubtypeOfBThenXLines([2, 5, 8, 11, 12, 13, 14], [false, true, true, false, false, true, true]);
  }

  lemma SubtypeOfBThenXJudged()
    ensures MatchedLines(TYPES_HIERARCHY, Single(SUB_B_SUB_X), false, TYPES_TREES) == PickedRange([2, 5, 8, 11, 12, 13, 14], [false, true, true, false, false, true, true], 0, 7)
  {
    var hits := [false, true, true, false, false, true, true];
    SubtypeOfBThenXHitsFrom0(hits);
    SubtypeOfBThenXHitsFrom4(hits);
    TypesTreeLines();
    MatchedLinesPicked(TYPES_HIERARCHY, Single(SUB_B_SUB_X), false, TYPES_TREES, [2, 5, 8, 11, 12, 13, 14], hits);
  }

  lemma SubtypeOfBThenXHitsFrom0(hits: seq<bool>)
    requires hits == [false, true, true, false, false, true, true]
    ensures forall k :: 0 <= k < 4 ==> Hit(TYPES_HIERARCHY, Single(SUB_B_SUB_X), false, TYPES_TREES[k].node) == hits[k]
  {
    forall t | t in {OBJECT, "A", "B", "X", "Main"}
      ensures IsSubtype(TYPES_HIERARCHY, t, "B") <==> t in {"B"}
    {
      SubtypesOfB(t);
    }
    forall t | t in {OBJECT, "A", "B", "X", "Main"}
      ensures IsSubtype(TYPES_HIERARCHY, t, "X") <==> t in {"X"}
    {
      SubtypesOfX(t);
    }
    forall k | 0 <= k < 4
      ensures Hit(TYPES_HIERARCHY, Single(SUB_B_SUB_X), false, TYPES_TREES[k].node) == hits[k]
    {
      SingleMatcherOnTree(TYPES_HIERARCHY, SUB_B_SUB_X, TYPES_TREES[k].node);
      assert SomeNameCriterion(SUB_B_SUB_X.names, TreeSubject(TYPES_TREES[k].node).name) <==> NameSatisfies(SUB_B_SUB_X.names[0], TreeSubject(TYPES_TREES[k].node).name);
      assert SomeParameterCriterion(TYPES_HIERARCHY, SUB_B_SUB_X.parameters, TreeSubject(TYPES_TREES[k].node).parameters) <==> ParametersSatisfy(TYPES_HIERARCHY, SUB_B_SUB_X.parameters[0], TreeSubject(TYPES_TREES[k].node).parameters);
      TypeCriteriaOfTwo(TYPES_HIERARCHY, SUB_B_SUB_X.types[0], SUB_B_SUB_X.types[1], TreeSubject(TYPES_TREES[k].node).owner);
    }
  }

  lemma SubtypeOfBThenXHitsFrom4(hits: seq<bool>)
    requires hits == [false, true, true, false, false, true, true]
    ensures forall k :: 4 <= k < 7 ==> Hit(TYPES_HIERARCHY, Single(SUB_B_SUB_X), false, TYPES_TREES[k].node) == hits[k]
  {
    forall t | t in {OBJECT, "A", "B", "X", "Main"}
      ensures IsSubtype(TYPES_HIERARCHY, t, "B") <==> t in {"B"}
    {
      SubtypesOfB(t);
    }
    forall t | t in {OBJECT, "A", "B", "X", "Main"}
      ensures IsSubtype(TYPES_HIERARCHY, t, "X") <==> t in {"X"}
    {
      SubtypesOfX(t);
    }
    forall k | 4 <= k < 7
      ensures Hit(TYPES_HIERARCHY, Single(SUB_B_SUB_X), false, TYPES_TREES[k].node) == hits[k]
    {
      SingleMatcherOnTree(TYPES_HIERARCHY, SUB_B_SUB_X, TYPES_TREES[k].node);
      assert SomeNameCriterion(SUB_B_SUB_X.names, TreeSubject(TYPES_TREES[k].node).name) <==> NameSatisfies(SUB_B_SUB_X.names[0], TreeSubject(TYPES_TREES[k].node).name);
      assert SomeParameterCriterion(TYPES_HIERARCHY, SUB_B_SUB_X.parameters, TreeSubject(TYPES_TREES[k].node).parameters) <==> ParametersSatisfy(TYPES_HIERARCHY, SUB_B_SUB_X.parameters[0], TreeSubject(TYPES_TREES[k].node).parameters);
      TypeCriteriaOfTwo(TYPES_HIERARCHY, SUB_B_SUB_X.types[0], SUB_B_SUB_X.types[1], TreeSubject(TYPES_TREES[k].node).owner);
    }
  }

  lemma SubtypeOfBThenXLines(lines: seq<int>, picks: seq<bool>)
    requires |lines| == 7 && |picks| == 7
    requires !picks[0] && lines[0] == 2
    requires picks[1] && lines[1] == 5
    requires picks[2] && lines[2] == 8
    requires !picks[3] && lines[3] == 11
    requires !picks[4] && lines[4] == 12
    requires picks[5] && lines[5] == 13
    requires picks[6] && lines[6] == 14
    ensures PickedRange(lines, picks, 0, 7) == [5, 8, 13, 14]
  {
    SubtypeOfBThenXLinesFrom0(lines, picks);
    SubtypeOfBThenXLinesFrom4(lines, picks);
    PickedRangeSplit(lines, picks, 0, 4, 7);
    assert [5, 8] + [13, 14] == [5, 8, 13, 14];
  }

  lemma SubtypeOfBThenXLinesFrom0(lines: seq<int>, picks: seq<bool>)
    requires |lines| == 7 && |picks| == 7
    requires !picks[0] && lines[0] == 2
    requires picks[1] && lines[1] == 5
    requires picks[2] && lines[2] == 8
    requires !picks[3] && lines[3] == 11
    ensures PickedRange(lines, picks, 0, 4) == [5, 8]
  {
    PickedOut(lines, picks, 3, 4, []);
    PickedIn(lines, picks, 2, 4, 8, []);
    PickedIn(lines, picks, 1, 4, 5, [8]);
    PickedOut(lines, picks, 0, 4, [5, 8]);
  }

  lemma SubtypeOfBThenXLinesFrom4(lines: seq<int>, picks: seq<bool>)
    requires |lines| == 7 && |picks| == 7
    requires !picks[4] && lines[4] == 12
    requires picks[5] && lines[5] == 13
    requires picks[6] && lines[6] == 14
    ensures PickedRange(lines, picks, 4, 7) == [13, 14]
  {
    PickedIn(lines, picks, 6, 7, 14, []);
    PickedIn(lines, picks, 5, 7, 13, [14]);
    PickedOut(lines, picks, 4, 7, [13, 14]);
  }
}
