/**
  The inheritance test of the matcher test suite, replayed on the model:
  exact owner types against subtype owner types, through a class chain
  `B` to `F` that also implements two interfaces.
*/
module InheritanceScenarios {
  import opened TypeHierarchy
  import opened Criteria
  import opened Matchers
  import opened MatchVisitor

  const OBJECT := "java.lang.Object"
  const INT: JType := Known("int")

  /** `B extends A implements I, J`, then the chain `C`, `D`, `E`, `F`; interfaces and plain classes extend `Object`. */
  const INHERITANCE_HIERARCHY: Hierarchy := map[
    "pkg.A" := [OBJECT], "pkg.I" := [OBJECT], "pkg.J" := [OBJECT],
    "pkg.B" := ["pkg.A", "pkg.I", "pkg.J"], "pkg.C" := ["pkg.B"], "pkg.D" := ["pkg.C"],
    "pkg.E" := ["pkg.D"], "pkg.F" := ["pkg.E"], "pkg.Main" := [OBJECT]]

  function T(name: TypeName): JType { Known(name) }

  /**
    The declarations of `f` in `I`, `J`, `B`, `C`, `D`, the declaration of
    `main`, then the calls and references of its body: each call keeps the
    static type of its receiver and the symbol it resolves to.
  */
  const INHERITANCE_TREES: seq<Located> := [
    Located(Declaration(Subject(T("pkg.I"), "f", [], true)), 4),
    Located(Declaration(Subject(T("pkg.I"), "f", [INT], true)), 5),
    Located(Declaration(Subject(T("pkg.J"), "f", [INT], true)), 9),
    Located(Declaration(Subject(T("pkg.B"), "f", [], true)), 12),
    Located(Declaration(Subject(T("pkg.C"), "f", [INT], true)), 16),
    Located(Declaration(Subject(T("pkg.D"), "f", [INT], true)), 20),
    Located(Declaration(Subject(T("pkg.Main"), "main",
      [T(OBJECT), T("pkg.A"), T("pkg.B"), T("pkg.C"), T("pkg.D"), T("pkg.E"), T("pkg.F")], true)), 25),
    Located(Invocation(Qualified(T(OBJECT)), Subject(T(OBJECT), "toString", [], true)), 26),
    Located(Invocation(Qualified(T("pkg.A")), Subject(T(OBJECT), "toString", [], true)), 27),
    Located(Invocation(Qualified(T("pkg.B")), Subject(T("pkg.B"), "f", [], true)), 28),
    Located(Invocation(Qualified(T("pkg.B")), Subject(T("pkg.I"), "f", [INT], true)), 29),
    Located(Invocation(Qualified(T("pkg.C")), Subject(T("pkg.C"), "f", [INT], true)), 30),
    Located(Invocation(Qualified(T("pkg.D")), Subject(T("pkg.D"), "f", [INT], true)), 31),
    Located(Invocation(Qualified(T("pkg.E")), Subject(T("pkg.D"), "f", [INT], true)), 32),
    Located(Invocation(Qualified(T("pkg.F")), Subject(T("pkg.D"), "f", [INT], true)), 33),
    Located(Invocation(Qualified(T("pkg.F")), Subject(T("pkg.B"), "f", [], true)), 34),
    Located(Reference(T("pkg.D"), Subject(T("pkg.D"), "f", [INT], true)), 35),
    Located(Reference(T("pkg.E"), Subject(T("pkg.D"), "f", [INT], true)), 36),
    Located(Invocation(Qualified(T("pkg.J")), Subject(T("pkg.J"), "f", [INT], true)), 37)
  ]

  /** The direct supertypes of every type of the file. */
  lemma InheritanceSupers()
    ensures Supers(INHERITANCE_HIERARCHY, OBJECT) == []
    ensures Supers(INHERITANCE_HIERARCHY, "pkg.A") == [OBJECT] && Supers(INHERITANCE_HIERARCHY, "pkg.I") == [OBJECT]
    ensures Supers(INHERITANCE_HIERARCHY, "pkg.J") == [OBJECT] && Supers(INHERITANCE_HIERARCHY, "pkg.Main") == [OBJECT]
    ensures Supers(INHERITANCE_HIERARCHY, "pkg.B") == ["pkg.A", "pkg.I", "pkg.J"]
    ensures Supers(INHERITANCE_HIERARCHY, "pkg.C") == ["pkg.B"] && Supers(INHERITANCE_HIERARCHY, "pkg.D") == ["pkg.C"]
    ensures Supers(INHERITANCE_HIERARCHY, "pkg.E") == ["pkg.D"] && Supers(INHERITANCE_HIERARCHY, "pkg.F") == ["pkg.E"]
  {
  }

  /** Every type of the file inherits from `Object`. */
  lemma SubtypesOfObject(t: TypeName)
    requires t in {OBJECT, "pkg.A", "pkg.I", "pkg.J", "pkg.B", "pkg.C", "pkg.D", "pkg.E", "pkg.F", "pkg.Main"}
    ensures IsSubtype(INHERITANCE_HIERARCHY, t, OBJECT)
  {
    ObjectDescendants();
  }

  lemma ObjectDescendants()
    ensures IsSubtype(INHERITANCE_HIERARCHY, OBJECT, OBJECT)
    ensures IsSubtype(INHERITANCE_HIERARCHY, "pkg.A", OBJECT) && IsSubtype(INHERITANCE_HIERARCHY, "pkg.I", OBJECT)
    ensures IsSubtype(INHERITANCE_HIERARCHY, "pkg.J", OBJECT) && IsSubtype(INHERITANCE_HIERARCHY, "pkg.Main", OBJECT)
    ensures IsSubtype(INHERITANCE_HIERARCHY, "pkg.B", OBJECT) && IsSubtype(INHERITANCE_HIERARCHY, "pkg.C", OBJECT)
    ensures IsSubtype(INHERITANCE_HIERARCHY, "pkg.D", OBJECT) && IsSubtype(INHERITANCE_HIERARCHY, "pkg.E", OBJECT)
    ensures IsSubtype(INHERITANCE_HIERARCHY, "pkg.F", OBJECT)
  {
    var H := INHERITANCE_HIERARCHY;
    InheritanceSupers();
    SubtypeReflexive(H, OBJECT);
    SubtypeOfDirectSuper(H, "pkg.A", OBJECT);
    SubtypeOfDirectSuper(H, "pkg.I", OBJECT);
    SubtypeOfDirectSuper(H, "pkg.J", OBJECT);
    SubtypeOfDirectSuper(H, "pkg.Main", OBJECT);
    SubtypeOfDirectSuper(H, "pkg.B", "pkg.A");
    SubtypeOfDirectSuper(H, "pkg.C", "pkg.B");
    SubtypeOfDirectSuper(H, "pkg.D", "pkg.C");
    SubtypeOfDirectSuper(H, "pkg.E", "pkg.D");
    SubtypeOfDirectSuper(H, "pkg.F", "pkg.E");
    SubtypeTransitive(H, "pkg.B", "pkg.A", OBJECT);
    SubtypeTransitive(H, "pkg.C", "pkg.B", OBJECT);
    SubtypeTransitive(H, "pkg.D", "pkg.C", OBJECT);
    SubtypeTransitive(H, "pkg.E", "pkg.D", OBJECT);
    SubtypeTransitive(H, "pkg.F", "pkg.E", OBJECT);
  }

  /** The types inheriting from `A`: `A` itself and `B` down to `F`. */
  lemma SubtypesOfA(t: TypeName)
    requires t in {OBJECT, "pkg.A", "pkg.I", "pkg.J", "pkg.B", "pkg.C", "pkg.D", "pkg.E", "pkg.F", "pkg.Main"}
    ensures IsSubtype(INHERITANCE_HIERARCHY, t, "pkg.A") <==> t in {"pkg.A", "pkg.B", "pkg.C", "pkg.D", "pkg.E", "pkg.F"}
  {
    ADescendants();
    ANonDescendants();
  }

  lemma ADescendants()
    ensures IsSubtype(INHERITANCE_HIERARCHY, "pkg.A", "pkg.A")
    ensures IsSubtype(INHERITANCE_HIERARCHY, "pkg.B", "pkg.A")
    ensures IsSubtype(INHERITANCE_HIERARCHY, "pkg.C", "pkg.A")
    ensures IsSubtype(INHERITANCE_HIERARCHY, "pkg.D", "pkg.A")
    ensures IsSubtype(INHERITANCE_HIERARCHY, "pkg.E", "pkg.A")
    ensures IsSubtype(INHERITANCE_HIERARCHY, "pkg.F", "pkg.A")
  {
    var H := INHERITANCE_HIERARCHY;
    InheritanceSupers();
    SubtypeReflexive(H, "pkg.A");
    SubtypeOfDirectSuper(H, "pkg.B", "pkg.A");
    SubtypeOfDirectSuper(H, "pkg.C", "pkg.B");
    SubtypeTransitive(H, "pkg.C", "pkg.B", "pkg.A");
    SubtypeOfDirectSuper(H, "pkg.D", "pkg.C");
    SubtypeTransitive(H, "pkg.D", "pkg.C", "pkg.A");
    SubtypeOfDirectSuper(H, "pkg.E", "pkg.D");
    SubtypeTransitive(H, "pkg.E", "pkg.D", "pkg.A");
    SubtypeOfDirectSuper(H, "pkg.F", "pkg.E");
    SubtypeTransitive(H, "pkg.F", "pkg.E", "pkg.A");
  }

  lemma ANonDescendants()
    ensures forall t :: t in {OBJECT, "pkg.I", "pkg.J", "pkg.Main"} ==> !IsSubtype(INHERITANCE_HIERARCHY, t, "pkg.A")
  {
    InheritanceSupers();
    ClosedSetBlocksAll(INHERITANCE_HIERARCHY, {OBJECT, "pkg.I", "pkg.J", "pkg.Main"}, "pkg.A");
  }

  /** The types inheriting from `B`: `B` down to `F`. */
  lemma SubtypesOfB(t: TypeName)
    requires t in {OBJECT, "pkg.A", "pkg.I", "pkg.J", "pkg.B", "pkg.C", "pkg.D", "pkg.E", "pkg.F", "pkg.Main"}
    ensures IsSubtype(INHERITANCE_HIERARCHY, t, "pkg.B") <==> t in {"pkg.B", "pkg.C", "pkg.D", "pkg.E", "pkg.F"}
  {
    BDescendants();
    BNonDescendants();
  }

  lemma BDescendants()
    ensures IsSubtype(INHERITANCE_HIERARCHY, "pkg.B", "pkg.B")
    ensures IsSubtype(INHERITANCE_HIERARCHY, "pkg.C", "pkg.B")
    ensures IsSubtype(INHERITANCE_HIERARCHY, "pkg.D", "pkg.B")
    ensures IsSubtype(INHERITANCE_HIERARCHY, "pkg.E", "pkg.B")
    ensures IsSubtype(INHERITANCE_HIERARCHY, "pkg.F", "pkg.B")
  {
    var H := INHERITANCE_HIERARCHY;
    InheritanceSupers();
    SubtypeReflexive(H, "pkg.B");
    SubtypeOfDirectSuper(H, "pkg.C", "pkg.B");
    SubtypeOfDirectSuper(H, "pkg.D", "pkg.C");
    SubtypeTransitive(H, "pkg.D", "pkg.C", "pkg.B");
    SubtypeOfDirectSuper(H, "pkg.E", "pkg.D");
    SubtypeTransitive(H, "pkg.E", "pkg.D", "pkg.B");
    SubtypeOfDirectSuper(H, "pkg.F", "pkg.E");
    SubtypeTransitive(H, "pkg.F", "pkg.E", "pkg.B");
  }

  lemma BNonDescendants()
    ensures forall t :: t in {OBJECT, "pkg.A", "pkg.I", "pkg.J", "pkg.Main"} ==> !IsSubtype(INHERITANCE_HIERARCHY, t, "pkg.B")
  {
    InheritanceSupers();
    ClosedSetBlocksAll(INHERITANCE_HIERARCHY, {OBJECT, "pkg.A", "pkg.I", "pkg.J", "pkg.Main"}, "pkg.B");
  }

  /** The types inheriting from `D`: `D`, `E` and `F`. */
  lemma SubtypesOfD(t: TypeName)
    requires t in {OBJECT, "pkg.A", "pkg.I", "pkg.J", "pkg.B", "pkg.C", "pkg.D", "pkg.E", "pkg.F", "pkg.Main"}
    ensures IsSubtype(INHERITANCE_HIERARCHY, t, "pkg.D") <==> t in {"pkg.D", "pkg.E", "pkg.F"}
  {
    DDescendants();
    DNonDescendants();
  }

  lemma DDescendants()
    ensures IsSubtype(INHERITANCE_HIERARCHY, "pkg.D", "pkg.D")
    ensures IsSubtype(INHERITANCE_HIERARCHY, "pkg.E", "pkg.D")
    ensures IsSubtype(INHERITANCE_HIERARCHY, "pkg.F", "pkg.D")
  {
    var H := INHERITANCE_HIERARCHY;
    InheritanceSupers();
    SubtypeReflexive(H, "pkg.D");
    SubtypeOfDirectSuper(H, "pkg.E", "pkg.D");
    SubtypeOfDirectSuper(H, "pkg.F", "pkg.E");
    SubtypeTransitive(H, "pkg.F", "pkg.E", "pkg.D");
  }

  lemma DNonDescendants()
    ensures forall t :: t in {OBJECT, "pkg.A", "pkg.I", "pkg.J", "pkg.B", "pkg.C", "pkg.Main"} ==> !IsSubtype(INHERITANCE_HIERARCHY, t, "pkg.D")
  {
    InheritanceSupers();
    ClosedSetBlocksAll(INHERITANCE_HIERARCHY, {OBJECT, "pkg.A", "pkg.I", "pkg.J", "pkg.B", "pkg.C", "pkg.Main"}, "pkg.D");
  }

  /** Only `F` inherits from `F`. */
  lemma SubtypesOfF(t: TypeName)
    requires t in {OBJECT, "pkg.A", "pkg.I", "pkg.J", "pkg.B", "pkg.C", "pkg.D", "pkg.E", "pkg.F", "pkg.Main"}
    ensures IsSubtype(INHERITANCE_HIERARCHY, t, "pkg.F") <==> t in {"pkg.F"}
  {
    FDescendants();
    FNonDescendants();
  }

  lemma FDescendants()
    ensures IsSubtype(INHERITANCE_HIERARCHY, "pkg.F", "pkg.F")
  {
    var H := INHERITANCE_HIERARCHY;
    InheritanceSupers();
    SubtypeReflexive(H, "pkg.F");
  }

  lemma FNonDescendants()
    ensures forall t :: t in {OBJECT, "pkg.A", "pkg.I", "pkg.J", "pkg.B", "pkg.C", "pkg.D", "pkg.E", "pkg.Main"} ==> !IsSubtype(INHERITANCE_HIERARCHY, t, "pkg.F")
  {
    InheritanceSupers();
    ClosedSetBlocksAll(INHERITANCE_HIERARCHY, {OBJECT, "pkg.A", "pkg.I", "pkg.J", "pkg.B", "pkg.C", "pkg.D", "pkg.E", "pkg.Main"}, "pkg.F");
  }

  /** The types inheriting from `I`: `I` itself and `B` down to `F`. */
  lemma SubtypesOfI(t: TypeName)
    requires t in {OBJECT, "pkg.A", "pkg.I", "pkg.J", "pkg.B", "pkg.C", "pkg.D", "pkg.E", "pkg.F", "pkg.Main"}
    ensures IsSubtype(INHERITANCE_HIERARCHY, t, "pkg.I") <==> t in {"pkg.I", "pkg.B", "pkg.C", "pkg.D", "pkg.E", "pkg.F"}
  {
    IDescendants();
    INonDescendants();
  }

  lemma IDescendants()
    ensures IsSubtype(INHERITANCE_HIERARCHY, "pkg.I", "pkg.I")
    ensures IsSubtype(INHERITANCE_HIERARCHY, "pkg.B", "pkg.I")
    ensures IsSubtype(INHERITANCE_HIERARCHY, "pkg.C", "pkg.I")
    ensures IsSubtype(INHERITANCE_HIERARCHY, "pkg.D", "pkg.I")
    ensures IsSubtype(INHERITANCE_HIERARCHY, "pkg.E", "pkg.I")
    ensures IsSubtype(INHERITANCE_HIERARCHY, "pkg.F", "pkg.I")
  {
    var H := INHERITANCE_HIERARCHY;
    InheritanceSupers();
    SubtypeReflexive(H, "pkg.I");
    SubtypeOfDirectSuper(H, "pkg.B", "pkg.I");
    SubtypeOfDirectSuper(H, "pkg.C", "pkg.B");
    SubtypeTransitive(H, "pkg.C", "pkg.B", "pkg.I");
    SubtypeOfDirectSuper(H, "pkg.D", "pkg.C");
    SubtypeTransitive(H, "pkg.D", "pkg.C", "pkg.I");
    SubtypeOfDirectSuper(H, "pkg.E", "pkg.D");
    SubtypeTransitive(H, "pkg.E", "pkg.D", "pkg.I");
    SubtypeOfDirectSuper(H, "pkg.F", "pkg.E");
    SubtypeTransitive(H, "pkg.F", "pkg.E", "pkg.I");
  }

  lemma INonDescendants()
    ensures forall t :: t in {OBJECT, "pkg.A", "pkg.J", "pkg.Main"} ==> !IsSubtype(INHERITANCE_HIERARCHY, t, "pkg.I")
  {
    InheritanceSupers();
    ClosedSetBlocksAll(INHERITANCE_HIERARCHY, {OBJECT, "pkg.A", "pkg.J", "pkg.Main"}, "pkg.I");
  }

  /** The types inheriting from `J`: `J` itself and `B` down to `F`. */
  lemma SubtypesOfJ(t: TypeName)
    requires t in {OBJECT, "pkg.A", "pkg.I", "pkg.J", "pkg.B", "pkg.C", "pkg.D", "pkg.E", "pkg.F", "pkg.Main"}
    ensures IsSubtype(INHERITANCE_HIERARCHY, t, "pkg.J") <==> t in {"pkg.J", "pkg.B", "pkg.C", "pkg.D", "pkg.E", "pkg.F"}
  {
    JDescendants();
    JNonDescendants();
  }

  lemma JDescendants()
    ensures IsSubtype(INHERITANCE_HIERARCHY, "pkg.J", "pkg.J")
    ensures IsSubtype(INHERITANCE_HIERARCHY, "pkg.B", "pkg.J")
    ensures IsSubtype(INHERITANCE_HIERARCHY, "pkg.C", "pkg.J")
    ensures IsSubtype(INHERITANCE_HIERARCHY, "pkg.D", "pkg.J")
    ensures IsSubtype(INHERITANCE_HIERARCHY, "pkg.E", "pkg.J")
    ensures IsSubtype(INHERITANCE_HIERARCHY, "pkg.F", "pkg.J")
  {
    var H := INHERITANCE_HIERARCHY;
    InheritanceSupers();
    SubtypeReflexive(H, "pkg.J");
    SubtypeOfDirectSuper(H, "pkg.B", "pkg.J");
    SubtypeOfDirectSuper(H, "pkg.C", "pkg.B");
    SubtypeTransitive(H, "pkg.C", "pkg.B", "pkg.J");
    SubtypeOfDirectSuper(H, "pkg.D", "pkg.C");
    SubtypeTransitive(H, "pkg.D", "pkg.C", "pkg.J");
    SubtypeOfDirectSuper(H, "pkg.E", "pkg.D");
    SubtypeTransitive(H, "pkg.E", "pkg.D", "pkg.J");
    SubtypeOfDirectSuper(H, "pkg.F", "pkg.E");
    SubtypeTransitive(H, "pkg.F", "pkg.E", "pkg.J");
  }

  lemma JNonDescendants()
    ensures forall t :: t in {OBJECT, "pkg.A", "pkg.I", "pkg.Main"} ==> !IsSubtype(INHERITANCE_HIERARCHY, t, "pkg.J")
  {
    InheritanceSupers();
    ClosedSetBlocksAll(INHERITANCE_HIERARCHY, {OBJECT, "pkg.A", "pkg.I", "pkg.Main"}, "pkg.J");
  }

  const OBJECT_TO_STRING: MethodMatcher := MethodMatcher([ExactType(OBJECT)], [Names({"toString"})], [NoParameters])
  const SUB_OBJECT_TO_STRING: MethodMatcher := MethodMatcher([SubtypeOf(OBJECT)], [Names({"toString"})], [NoParameters])
  /** `TypeCriteria.is("pkg.B")`, an owner predicate rather than a type name. */
  const IS_PKG_B: JType -> bool := t => Is(t, "pkg.B")
  const B_F: MethodMatcher := MethodMatcher([TypePredicate(IS_PKG_B)], [Names({"f"})], [NoParameters])
  const SUB_B_F: MethodMatcher := MethodMatcher([SubtypeOf("pkg.B")], [Names({"f"})], [NoParameters])
  const SUB_F_F: MethodMatcher := MethodMatcher([SubtypeOf("pkg.F")], [Names({"f"})], [NoParameters])

  /** `name("f").withParameters("int")` on the owner criterion `c`. */
  function FInt(c: TypeCriterion): MethodMatcher
  {
    MethodMatcher([c], [Names({"f"})], [ExactParameters([ExactType("int")])])
  }

  const A_F_INT: MethodMatcher := FInt(ExactType("pkg.A"))
  const B_F_INT: MethodMatcher := FInt(ExactType("pkg.B"))
  const C_F_INT: MethodMatcher := FInt(ExactType("pkg.C"))
  const D_F_INT: MethodMatcher := FInt(ExactType("pkg.D"))
  const E_F_INT: MethodMatcher := FInt(ExactType("pkg.E"))
  const F_F_INT: MethodMatcher := FInt(ExactType("pkg.F"))
  const SUB_A_F_INT: MethodMatcher := FInt(SubtypeOf("pkg.A"))
  const SUB_B_F_INT: MethodMatcher := FInt(SubtypeOf("pkg.B"))
  const SUB_D_F_INT: MethodMatcher := FInt(SubtypeOf("pkg.D"))
  const SUB_I_F_INT: MethodMatcher := FInt(SubtypeOf("pkg.I"))
  const SUB_J_F_INT: MethodMatcher := FInt(SubtypeOf("pkg.J"))

  /** The line of every tree, in visiting order. */
  lemma InheritanceTreeLines()
    ensures |INHERITANCE_TREES| == 19
    ensures forall k :: 0 <= k < 19 ==> INHERITANCE_TREES[k].line == [4, 5, 9, 12, 16, 20, 25, 26, 27, 28, 29, 30, 31, 32, 33, 34, 35, 36, 37][k]
  {
  }

  /** `ofType("java.lang.Object").name("toString")`: only the call through a receiver of static type `Object`. */
  lemma ExactObjectToString()
    ensures MatchedLines(INHERITANCE_HIERARCHY, Single(OBJECT_TO_STRING), false, INHERITANCE_TREES) == [26]
  {
    ExactObjectToStringJudged();
    ExactObjectToStringPicked();
  }

  lemma ExactObjectToStringPicked()
    ensures PickedRange([4, 5, 9, 12, 16, 20, 25, 26, 27, 28, 29, 30, 31, 32, 33, 34, 35, 36, 37], [false, false, false, false, false, false, false, true, false, false, false, false, false, false, false, false, false, false, false], 0, 19) == [26]
  {
    ExactObjectToStringLines([4, 5, 9, 12, 16, 20, 25, 26, 27, 28, 29, 30, 31, 32, 33, 34, 35, 36, 37], [false, false, false, false, false, false, false, true, false, false, false, false, false, false, false, false, false, false, false]);
  }

  lemma ExactObjectToStringJudged()
    ensures MatchedLines(INHERITANCE_HIERARCHY, Single(OBJECT_TO_STRING), false, INHERITANCE_TREES) == PickedRange([4, 5, 9, 12, 16, 20, 25, 26, 27, 28, 29, 30, 31, 32, 33, 34, 35, 36, 37], [false, false, false, false, false, false, false, true, false, false, false, false, false, false, false, false, false, false, false], 0, 19)
  {
    var hits := [false, false, false, false, false, false, false, true, false, false, false, false, false, false, false, false, false, false, false];
    ExactObjectToStringHitsFrom0(hits);
    ExactObjectToStringHitsFrom4(hits);
    ExactObjectToStringHitsFrom8(hits);
    ExactObjectToStringHitsFrom12(hits);
    ExactObjectToStringHitsFrom16(hits);
    InheritanceTreeLines();
    MatchedLinesPicked(INHERITANCE_HIERARCHY, Single(OBJECT_TO_STRING), false, INHERITANCE_TREES, [4, 5, 9, 12, 16, 20, 25, 26, 27, 28, 29, 30, 31, 32, 33, 34, 35, 36, 37], hits);
  }

  lemma ExactObjectToStringHitsFrom0(hits: seq<bool>)
    requires hits == [false, false, false, false, false, false, false, true, false, false, false, false, false, false, false, false, false, false, false]
    ensures forall k :: 0 <= k < 4 ==> Hit(INHERITANCE_HIERARCHY, Single(OBJECT_TO_STRING), false, INHERITANCE_TREES[k].node) == hits[k]
  {
    forall k | 0 <= k < 4
      ensures Hit(INHERITANCE_HIERARCHY, Single(OBJECT_TO_STRING), false, INHERITANCE_TREES[k].node) == hits[k]
    {
      SingleCriteriaOnTree(INHERITANCE_HIERARCHY, OBJECT_TO_STRING.types[0], OBJECT_TO_STRING.names[0], OBJECT_TO_STRING.parameters[0], INHERITANCE_TREES[k].node);
    }
  }

  lemma ExactObjectToStringHitsFrom4(hits: seq<bool>)
    requires hits == [false, false, false, false, false, false, false, true, false, false, false, false, false, false, false, false, false, false, false]
    ensures forall k :: 4 <= k < 8 ==> Hit(INHERITANCE_HIERARCHY, Single(OBJECT_TO_STRING), false, INHERITANCE_TREES[k].node) == hits[k]
  {
    forall k | 4 <= k < 8
      ensures Hit(INHERITANCE_HIERARCHY, Single(OBJECT_TO_STRING), false, INHERITANCE_TREES[k].node) == hits[k]
    {
      SingleCriteriaOnTree(INHERITANCE_HIERARCHY, OBJECT_TO_STRING.types[0], OBJECT_TO_STRING.names[0], OBJECT_TO_STRING.parameters[0], INHERITANCE_TREES[k].node);
    }
  }

  lemma ExactObjectToStringHitsFrom8(hits: seq<bool>)
    requires hits == [false, false, false, false, false, false, false, true, false, false, false, false, false, false, false, false, false, false, false]
    ensures forall k :: 8 <= k < 12 ==> Hit(INHERITANCE_HIERARCHY, Single(OBJECT_TO_STRING), false, INHERITANCE_TREES[k].node) == hits[k]
  {
    forall k | 8 <= k < 12
      ensures Hit(INHERITANCE_HIERARCHY, Single(OBJECT_TO_STRING), false, INHERITANCE_TREES[k].node) == hits[k]
    {
      SingleCriteriaOnTree(INHERITANCE_HIERARCHY, OBJECT_TO_STRING.types[0], OBJECT_TO_STRING.names[0], OBJECT_TO_STRING.parameters[0], INHERITANCE_TREES[k].node);
    }
  }

  lemma ExactObjectToStringHitsFrom12(hits: seq<bool>)
    requires hits == [false, false, false, false, false, false, false, true, false, false, false, false, false, false, false, false, false, false, false]
    ensures forall k :: 12 <= k < 16 ==> Hit(INHERITANCE_HIERARCHY, Single(OBJECT_TO_STRING), false, INHERITANCE_TREES[k].node) == hits[k]
  {
    forall k | 12 <= k < 16
      ensures Hit(INHERITANCE_HIERARCHY, Single(OBJECT_TO_STRING), false, INHERITANCE_TREES[k].node) == hits[k]
    {
      SingleCriteriaOnTree(INHERITANCE_HIERARCHY, OBJECT_TO_STRING.types[0], OBJECT_TO_STRING.names[0], OBJECT_TO_STRING.parameters[0], INHERITANCE_TREES[k].node);
    }
  }

  lemma ExactObjectToStringHitsFrom16(hits: seq<bool>)
    requires hits == [false, false, false, false, false, false, false, true, false, false, false, false, false, false, false, false, false, false, false]
    ensures forall k :: 16 <= k < 19 ==> Hit(INHERITANCE_HIERARCHY, Single(OBJECT_TO_STRING), false, INHERITANCE_TREES[k].node) == hits[k]
  {
    forall k | 16 <= k < 19
      ensures Hit(INHERITANCE_HIERARCHY, Single(OBJECT_TO_STRING), false, INHERITANCE_TREES[k].node) == hits[k]
    {
      SingleCriteriaOnTree(INHERITANCE_HIERARCHY, OBJECT_TO_STRING.types[0], OBJECT_TO_STRING.names[0], OBJECT_TO_STRING.parameters[0], INHERITANCE_TREES[k].node);
    }
  }

  lemma ExactObjectToStringLines(lines: seq<int>, picks: seq<bool>)
    requires |lines| == 19 && |picks| == 19
    requires !picks[0] && lines[0] == 4
    requires !picks[1] && lines[1] == 5
    requires !picks[2] && lines[2] == 9
    requires !picks[3] && lines[3] == 12
    requires !picks[4] && lines[4] == 16
    requires !picks[5] && lines[5] == 20
    requires !picks[6] && lines[6] == 25
    requires picks[7] && lines[7] == 26
    requires !picks[8] && lines[8] == 27
    requires !picks[9] && lines[9] == 28
    requires !picks[10] && lines[10] == 29
    requires !picks[11] && lines[11] == 30
    requires !picks[12] && lines[12] == 31
    requires !picks[13] && lines[13] == 32
    requires !picks[14] && lines[14] == 33
    requires !picks[15] && lines[15] == 34
    requires !picks[16] && lines[16] == 35
    requires !picks[17] && lines[17] == 36
    requires !picks[18] && lines[18] == 37
    ensures PickedRange(lines, picks, 0, 19) == [26]
  {
    ExactObjectToStringLinesFrom0(lines, picks);
    ExactObjectToStringLinesFrom4(lines, picks);
    ExactObjectToStringLinesFrom8(lines, picks);
    ExactObjectToStringLinesFrom12(lines, picks);
    ExactObjectToStringLinesFrom16(lines, picks);
    PickedRangeSplit(lines, picks, 0, 16, 19);
    PickedRangeSplit(lines, picks, 0, 12, 16);
    PickedRangeSplit(lines, picks, 0, 8, 12);
    PickedRangeSplit(lines, picks, 0, 4, 8);
    assert [] + [26] + [] + [] + [] == [26];
  }

  lemma ExactObjectToStringLinesFrom0(lines: seq<int>, picks: seq<bool>)
    requires |lines| == 19 && |picks| == 19
    requires !picks[0] && lines[0] == 4
    requires !picks[1] && lines[1] == 5
    requires !picks[2] && lines[2] == 9
    requires !picks[3] && lines[3] == 12
    ensures PickedRange(lines, picks, 0, 4) == []
  {
    PickedOut(lines, picks, 3, 4, []);
    PickedOut(lines, picks, 2, 4, []);
    PickedOut(lines, picks, 1, 4, []);
    PickedOut(lines, picks, 0, 4, []);
  }

  lemma ExactObjectToStringLinesFrom4(lines: seq<int>, picks: seq<bool>)
    requires |lines| == 19 && |picks| == 19
    requires !picks[4] && lines[4] == 16
    requires !picks[5] && lines[5] == 20
    requires !picks[6] && lines[6] == 25
    requires picks[7] && lines[7] == 26
    ensures PickedRange(lines, picks, 4, 8) == [26]
  {
    PickedIn(lines, picks, 7, 8, 26, []);
    PickedOut(lines, picks, 6, 8, [26]);
    PickedOut(lines, picks, 5, 8, [26]);
    PickedOut(lines, picks, 4, 8, [26]);
  }

  lemma ExactObjectToStringLinesFrom8(lines: seq<int>, picks: seq<bool>)
    requires |lines| == 19 && |picks| == 19
    requires !picks[8] && lines[8] == 27
    requires !picks[9] && lines[9] == 28
    requires !picks[10] && lines[10] == 29
    requires !picks[11] && lines[11] == 30
    ensures PickedRange(lines, picks, 8, 12) == []
  {
    PickedOut(lines, picks, 11, 12, []);
    PickedOut(lines, picks, 10, 12, []);
    PickedOut(lines, picks, 9, 12, []);
    PickedOut(lines, picks, 8, 12, []);
  }

  lemma ExactObjectToStringLinesFrom12(lines: seq<int>, picks: seq<bool>)
    requires |lines| == 19 && |picks| == 19
    requires !picks[12] && lines[12] == 31
    requires !picks[13] && lines[13] == 32
    requires !picks[14] && lines[14] == 33
    requires !picks[15] && lines[15] == 34
    ensures PickedRange(lines, picks, 12, 16) == []
  {
    PickedOut(lines, picks, 15, 16, []);
    PickedOut(lines, picks, 14, 16, []);
    PickedOut(lines, picks, 13, 16, []);
    PickedOut(lines, picks, 12, 16, []);
  }

  lemma ExactObjectToStringLinesFrom16(lines: seq<int>, picks: seq<bool>)
    requires |lines| == 19 && |picks| == 19
    requires !picks[16] && lines[16] == 35
    requires !picks[17] && lines[17] == 36
    requires !picks[18] && lines[18] == 37
    ensures PickedRange(lines, picks, 16, 19) == []
  {
    PickedOut(lines, picks, 18, 19, []);
    PickedOut(lines, picks, 17, 19, []);
    PickedOut(lines, picks, 16, 19, []);
  }

  /** `ofSubType("java.lang.Object").name("toString")`: both calls, through an `Object` and through an `A`. */
  lemma SubtypeOfObjectToString()
    ensures MatchedLines(INHERITANCE_HIERARCHY, Single(SUB_OBJECT_TO_STRING), false, INHERITANCE_TREES) == [26, 27]
  {
    SubtypeOfObjectToStringJudged();
    SubtypeOfObjectToStringPicked();
  }

  lemma SubtypeOfObjectToStringPicked()
    ensures PickedRange([4, 5, 9, 12, 16, 20, 25, 26, 27, 28, 29, 30, 31, 32, 33, 34, 35, 36, 37], [false, false, false, false, false, false, false, true, true, false, false, false, false, false, false, false, false, false, false], 0, 19) == [26, 27]
  {
    SubtypeOfObjectToStringLines([4, 5, 9, 12, 16, 20, 25, 26, 27, 28, 29, 30, 31, 32, 33, 34, 35, 36, 37], [false, false, false, false, false, false, false, true, true, false, false, false, false, false, false, false, false, false, false]);
  }

  lemma SubtypeOfObjectToStringJudged()
    ensures MatchedLines(INHERITANCE_HIERARCHY, Single(SUB_OBJECT_TO_STRING), false, INHERITANCE_TREES) == PickedRange([4, 5, 9, 12, 16, 20, 25, 26, 27, 28, 29, 30, 31, 32, 33, 34, 35, 36, 37], [false, false, false, false, false, false, false, true, true, false, false, false, false, false, false, false, false, false, false], 0, 19)
  {
    var hits := [false, false, false, false, false, false, false, true, true, false, false, false, false, false, false, false, false, false, false];
    SubtypeOfObjectToStringHitsFrom0(hits);
    SubtypeOfObjectToStringHitsFrom4(hits);
    SubtypeOfObjectToStringHitsFrom8(hits);
    SubtypeOfObjectToStringHitsFrom12(hits);
    SubtypeOfObjectToStringHitsFrom16(hits);
    InheritanceTreeLines();
    MatchedLinesPicked(INHERITANCE_HIERARCHY, Single(SUB_OBJECT_TO_STRING), false, INHERITANCE_TREES, [4, 5, 9, 12, 16, 20, 25, 26, 27, 28, 29, 30, 31, 32, 33, 34, 35, 36, 37], hits);
  }

  lemma SubtypeOfObjectToStringHitsFrom0(hits: seq<bool>)
    requires hits == [false, false, false, false, false, false, false, true, true, false, false, false, false, false, false, false, false, false, false]
    ensures forall k :: 0 <= k < 4 ==> Hit(INHERITANCE_HIERARCHY, Single(SUB_OBJECT_TO_STRING), false, INHERITANCE_TREES[k].node) == hits[k]
  {
    forall t | t in {OBJECT, "pkg.A", "pkg.I", "pkg.J", "pkg.B", "pkg.C", "pkg.D", "pkg.E", "pkg.F", "pkg.Main"}
      ensures IsSubtype(INHERITANCE_HIERARCHY, t, OBJECT)
    {
      SubtypesOfObject(t);
    }
    forall k | 0 <= k < 4
      ensures Hit(INHERITANCE_HIERARCHY, Single(SUB_OBJECT_TO_STRING), false, INHERITANCE_TREES[k].node) == hits[k]
    {
      SingleCriteriaOnTree(INHERITANCE_HIERARCHY, SUB_OBJECT_TO_STRING.types[0], SUB_OBJECT_TO_STRING.names[0], SUB_OBJECT_TO_STRING.parameters[0], INHERITANCE_TREES[k].node);
    }
  }

  lemma SubtypeOfObjectToStringHitsFrom4(hits: seq<bool>)
    requires hits == [false, false, false, false, false, false, false, true, true, false, false, false, false, false, false, false, false, false, false]
    ensures forall k :: 4 <= k < 8 ==> Hit(INHERITANCE_HIERARCHY, Single(SUB_OBJECT_TO_STRING), false, INHERITANCE_TREES[k].node) == hits[k]
  {
    forall t | t in {OBJECT, "pkg.A", "pkg.I", "pkg.J", "pkg.B", "pkg.C", "pkg.D", "pkg.E", "pkg.F", "pkg.Main"}
      ensures IsSubtype(INHERITANCE_HIERARCHY, t, OBJECT)
    {
      SubtypesOfObject(t);
    }
    forall k | 4 <= k < 8
      ensures Hit(INHERITANCE_HIERARCHY, Single(SUB_OBJECT_TO_STRING), false, INHERITANCE_TREES[k].node) == hits[k]
    {
      SingleCriteriaOnTree(INHERITANCE_HIERARCHY, SUB_OBJECT_TO_STRING.types[0], SUB_OBJECT_TO_STRING.names[0], SUB_OBJECT_TO_STRING.parameters[0], INHERITANCE_TREES[k].node);
    }
  }

  lemma SubtypeOfObjectToStringHitsFrom8(hits: seq<bool>)
    requires hits == [false, false, false, false, false, false, false, true, true, false, false, false, false, false, false, false, false, false, false]
    ensures forall k :: 8 <= k < 12 ==> Hit(INHERITANCE_HIERARCHY, Single(SUB_OBJECT_TO_STRING), false, INHERITANCE_TREES[k].node) == hits[k]
  {
    forall t | t in {OBJECT, "pkg.A", "pkg.I", "pkg.J", "pkg.B", "pkg.C", "pkg.D", "pkg.E", "pkg.F", "pkg.Main"}
      ensures IsSubtype(INHERITANCE_HIERARCHY, t, OBJECT)
    {
      SubtypesOfObject(t);
    }
    forall k | 8 <= k < 12
      ensures Hit(INHERITANCE_HIERARCHY, Single(SUB_OBJECT_TO_STRING), false, INHERITANCE_TREES[k].node) == hits[k]
    {
      SingleCriteriaOnTree(INHERITANCE_HIERARCHY, SUB_OBJECT_TO_STRING.types[0], SUB_OBJECT_TO_STRING.names[0], SUB_OBJECT_TO_STRING.parameters[0], INHERITANCE_TREES[k].node);
    }
  }

  lemma SubtypeOfObjectToStringHitsFrom12(hits: seq<bool>)
    requires hits == [false, false, false, false, false, false, false, true, true, false, false, false, false, false, false, false, false, false, false]
    ensures forall k :: 12 <= k < 16 ==> Hit(INHERITANCE_HIERARCHY, Single(SUB_OBJECT_TO_STRING), false, INHERITANCE_TREES[k].node) == hits[k]
  {
    forall t | t in {OBJECT, "pkg.A", "pkg.I", "pkg.J", "pkg.B", "pkg.C", "pkg.D", "pkg.E", "pkg.F", "pkg.Main"}
      ensures IsSubtype(INHERITANCE_HIERARCHY, t, OBJECT)
    {
      SubtypesOfObject(t);
    }
    forall k | 12 <= k < 16
      ensures Hit(INHERITANCE_HIERARCHY, Single(SUB_OBJECT_TO_STRING), false, INHERITANCE_TREES[k].node) == hits[k]
    {
      SingleCriteriaOnTree(INHERITANCE_HIERARCHY, SUB_OBJECT_TO_STRING.types[0], SUB_OBJECT_TO_STRING.names[0], SUB_OBJECT_TO_STRING.parameters[0], INHERITANCE_TREES[k].node);
    }
  }

  lemma SubtypeOfObjectToStringHitsFrom16(hits: seq<bool>)
    requires hits == [false, false, false, false, false, false, false, true, true, false, false, false, false, false, false, false, false, false, false]
    ensures forall k :: 16 <= k < 19 ==> Hit(INHERITANCE_HIERARCHY, Single(SUB_OBJECT_TO_STRING), false, INHERITANCE_TREES[k].node) == hits[k]
  {
    forall t | t in {OBJECT, "pkg.A", "pkg.I", "pkg.J", "pkg.B", "pkg.C", "pkg.D", "pkg.E", "pkg.F", "pkg.Main"}
      ensures IsSubtype(INHERITANCE_HIERARCHY, t, OBJECT)
    {
      SubtypesOfObject(t);
    }
    forall k | 16 <= k < 19
      ensures Hit(INHERITANCE_HIERARCHY, Single(SUB_OBJECT_TO_STRING), false, INHERITANCE_TREES[k].node) == hits[k]
    {
      SingleCriteriaOnTree(INHERITANCE_HIERARCHY, SUB_OBJECT_TO_STRING.types[0], SUB_OBJECT_TO_STRING.names[0], SUB_OBJECT_TO_STRING.parameters[0], INHERITANCE_TREES[k].node);
    }
  }

  lemma SubtypeOfObjectToStringLines(lines: seq<int>, picks: seq<bool>)
    requires |lines| == 19 && |picks| == 19
    requires !picks[0] && lines[0] == 4
    requires !picks[1] && lines[1] == 5
    requires !picks[2] && lines[2] == 9
    requires !picks[3] && lines[3] == 12
    requires !picks[4] && lines[4] == 16
    requires !picks[5] && lines[5] == 20
    requires !picks[6] && lines[6] == 25
    requires picks[7] && lines[7] == 26
    requires picks[8] && lines[8] == 27
    requires !picks[9] && lines[9] == 28
    requires !picks[10] && lines[10] == 29
    requires !picks[11] && lines[11] == 30
    requires !picks[12] && lines[12] == 31
    requires !picks[13] && lines[13] == 32
    requires !picks[14] && lines[14] == 33
    requires !picks[15] && lines[15] == 34
    requires !picks[16] && lines[16] == 35
    requires !picks[17] && lines[17] == 36
    requires !picks[18] && lines[18] == 37
    ensures PickedRange(lines, picks, 0, 19) == [26, 27]
  {
    SubtypeOfObjectToStringLinesFrom0(lines, picks);
    SubtypeOfObjectToStringLinesFrom4(lines, picks);
    SubtypeOfObjectToStringLinesFrom8(lines, picks);
    SubtypeOfObjectToStringLinesFrom12(lines, picks);
    SubtypeOfObjectToStringLinesFrom16(lines, picks);
    PickedRangeSplit(lines, picks, 0, 16, 19);
    PickedRangeSplit(lines, picks, 0, 12, 16);
    PickedRangeSplit(lines, picks, 0, 8, 12);
    PickedRangeSplit(lines, picks, 0, 4, 8);
    assert [] + [26] + [27] + [] + [] == [26, 27];
  }

  lemma SubtypeOfObjectToStringLinesFrom0(lines: seq<int>, picks: seq<bool>)
    requires |lines| == 19 && |picks| == 19
    requires !picks[0] && lines[0] == 4
    requires !picks[1] && lines[1] == 5
    requires !picks[2] && lines[2] == 9
    requires !picks[3] && lines[3] == 12
    ensures PickedRange(lines, picks, 0, 4) == []
  {
    PickedOut(lines, picks, 3, 4, []);
    PickedOut(lines, picks, 2, 4, []);
    PickedOut(lines, picks, 1, 4, []);
    PickedOut(lines, picks, 0, 4, []);
  }

  lemma SubtypeOfObjectToStringLinesFrom4(lines: seq<int>, picks: seq<bool>)
    requires |lines| == 19 && |picks| == 19
    requires !picks[4] && lines[4] == 16
    requires !picks[5] && lines[5] == 20
    requires !picks[6] && lines[6] == 25
    requires picks[7] && lines[7] == 26
    ensures PickedRange(lines, picks, 4, 8) == [26]
  {
    PickedIn(lines, picks, 7, 8, 26, []);
    PickedOut(lines, picks, 6, 8, [26]);
    PickedOut(lines, picks, 5, 8, [26]);
    PickedOut(lines, picks, 4, 8, [26]);
  }

  lemma SubtypeOfObjectToStringLinesFrom8(lines: seq<int>, picks: seq<bool>)
    requires |lines| == 19 && |picks| == 19
    requires picks[8] && lines[8] == 27
    requires !picks[9] && lines[9] == 28
    requires !picks[10] && lines[10] == 29
    requires !picks[11] && lines[11] == 30
    ensures PickedRange(lines, picks, 8, 12) == [27]
  {
    PickedOut(lines, picks, 11, 12, []);
    PickedOut(lines, picks, 10, 12, []);
    PickedOut(lines, picks, 9, 12, []);
    PickedIn(lines, picks, 8, 12, 27, []);
  }

  lemma SubtypeOfObjectToStringLinesFrom12(lines: seq<int>, picks: seq<bool>)
    requires |lines| == 19 && |picks| == 19
    requires !picks[12] && lines[12] == 31
    requires !picks[13] && lines[13] == 32
    requires !picks[14] && lines[14] == 33
    requires !picks[15] && lines[15] == 34
    ensures PickedRange(lines, picks, 12, 16) == []
  {
    PickedOut(lines, picks, 15, 16, []);
    PickedOut(lines, picks, 14, 16, []);
    PickedOut(lines, picks, 13, 16, []);
    PickedOut(lines, picks, 12, 16, []);
  }

  lemma SubtypeOfObjectToStringLinesFrom16(lines: seq<int>, picks: seq<bool>)
    requires |lines| == 19 && |picks| == 19
    requires !picks[16] && lines[16] == 35
    requires !picks[17] && lines[17] == 36
    requires !picks[18] && lines[18] == 37
    ensures PickedRange(lines, picks, 16, 19) == []
  {
    PickedOut(lines, picks, 18, 19, []);
    PickedOut(lines, picks, 17, 19, []);
    PickedOut(lines, picks, 16, 19, []);
  }

  /** `ofType(TypeCriteria.is("pkg.B")).name("f").withoutParameters()`: the declaration in `B` and `b.f()`, not `f.f()`. */
  lemma ExactBNoParameters()
    ensures MatchedLines(INHERITANCE_HIERARCHY, Single(B_F), false, INHERITANCE_TREES) == [12, 28]
  {
    ExactBNoParametersJudged();
    ExactBNoParametersPicked();
  }

  lemma ExactBNoParametersPicked()
    ensures PickedRange([4, 5, 9, 12, 16, 20, 25, 26, 27, 28, 29, 30, 31, 32, 33, 34, 35, 36, 37], [false, false, false, true, false, false, false, false, false, true, false, false, false, false, false, false, false, false, false], 0, 19) == [12, 28]
  {
    ExactBNoParametersLines([4, 5, 9, 12, 16, 20, 25, 26, 27, 28, 29, 30, 31, 32, 33, 34, 35, 36, 37], [false, false, false, true, false, false, false, false, false, true, false, false, false, false, false, false, false, false, false]);
  }

  lemma ExactBNoParametersJudged()
    ensures MatchedLines(INHERITANCE_HIERARCHY, Single(B_F), false, INHERITANCE_TREES) == PickedRange([4, 5, 9, 12, 16, 20, 25, 26, 27, 28, 29, 30, 31, 32, 33, 34, 35, 36, 37], [false, false, false, true, false, false, false, false, false, true, false, false, false, false, false, false, false, false, false], 0, 19)
  {
    var hits := [false, false, false, true, false, false, false, false, false, true, false, false, false, false, false, false, false, false, false];
    ExactBNoParametersHitsFrom0(hits);
    ExactBNoParametersHitsFrom4(hits);
    ExactBNoParametersHitsFrom8(hits);
    ExactBNoParametersHitsFrom12(hits);
    ExactBNoParametersHitsFrom16(hits);
    InheritanceTreeLines();
    MatchedLinesPicked(INHERITANCE_HIERARCHY, Single(B_F), false, INHERITANCE_TREES, [4, 5, 9, 12, 16, 20, 25, 26, 27, 28, 29, 30, 31, 32, 33, 34, 35, 36, 37], hits);
  }

  lemma ExactBNoParametersHitsFrom0(hits: seq<bool>)
    requires hits == [false, false, false, true, false, false, false, false, false, true, false, false, false, false, false, false, false, false, false]
    ensures forall k :: 0 <= k < 4 ==> Hit(INHERITANCE_HIERARCHY, Single(B_F), false, INHERITANCE_TREES[k].node) == hits[k]
  {
    forall k | 0 <= k < 4
      ensures Hit(INHERITANCE_HIERARCHY, Single(B_F), false, INHERITANCE_TREES[k].node) == hits[k]
    {
      SingleCriteriaOnTree(INHERITANCE_HIERARCHY, B_F.types[0], B_F.names[0], B_F.parameters[0], INHERITANCE_TREES[k].node);
    }
  }

  lemma ExactBNoParametersHitsFrom4(hits: seq<bool>)
    requires hits == [false, false, false, true, false, false, false, false, false, true, false, false, false, false, false, false, false, false, false]
    ensures forall k :: 4 <= k < 8 ==> Hit(INHERITANCE_HIERARCHY, Single(B_F), false, INHERITANCE_TREES[k].node) == hits[k]
  {
    forall k | 4 <= k < 8
      ensures Hit(INHERITANCE_HIERARCHY, Single(B_F), false, INHERITANCE_TREES[k].node) == hits[k]
    {
      SingleCriteriaOnTree(INHERITANCE_HIERARCHY, B_F.types[0], B_F.names[0], B_F.parameters[0], INHERITANCE_TREES[k].node);
    }
  }

  lemma ExactBNoParametersHitsFrom8(hits: seq<bool>)
    requires hits == [false, false, false, true, false, false, false, false, false, true, false, false, false, false, false, false, false, false, false]
    ensures forall k :: 8 <= k < 12 ==> Hit(INHERITANCE_HIERARCHY, Single(B_F), false, INHERITANCE_TREES[k].node) == hits[k]
  {
    forall k | 8 <= k < 12
      ensures Hit(INHERITANCE_HIERARCHY, Single(B_F), false, INHERITANCE_TREES[k].node) == hits[k]
    {
      SingleCriteriaOnTree(INHERITANCE_HIERARCHY, B_F.types[0], B_F.names[0], B_F.parameters[0], INHERITANCE_TREES[k].node);
    }
  }

  lemma ExactBNoParametersHitsFrom12(hits: seq<bool>)
    requires hits == [false, false, false, true, false, false, false, false, false, true, false, false, false, false, false, false, false, false, false]
    ensures forall k :: 12 <= k < 16 ==> Hit(INHERITANCE_HIERARCHY, Single(B_F), false, INHERITANCE_TREES[k].node) == hits[k]
  {
    forall k | 12 <= k < 16
      ensures Hit(INHERITANCE_HIERARCHY, Single(B_F), false, INHERITANCE_TREES[k].node) == hits[k]
    {
      SingleCriteriaOnTree(INHERITANCE_HIERARCHY, B_F.types[0], B_F.names[0], B_F.parameters[0], INHERITANCE_TREES[k].node);
    }
  }

  lemma ExactBNoParametersHitsFrom16(hits: seq<bool>)
    requires hits == [false, false, false, true, false, false, false, false, false, true, false, false, false, false, false, false, false, false, false]
    ensures forall k :: 16 <= k < 19 ==> Hit(INHERITANCE_HIERARCHY, Single(B_F), false, INHERITANCE_TREES[k].node) == hits[k]
  {
    forall k | 16 <= k < 19
      ensures Hit(INHERITANCE_HIERARCHY, Single(B_F), false, INHERITANCE_TREES[k].node) == hits[k]
    {
      SingleCriteriaOnTree(INHERITANCE_HIERARCHY, B_F.types[0], B_F.names[0], B_F.parameters[0], INHERITANCE_TREES[k].node);
    }
  }

  lemma ExactBNoParametersLines(lines: seq<int>, picks: seq<bool>)
    requires |lines| == 19 && |picks| == 19
    requires !picks[0] && lines[0] == 4
    requires !picks[1] && lines[1] == 5
    requires !picks[2] && lines[2] == 9
    requires picks[3] && lines[3] == 12
    requires !picks[4] && lines[4] == 16
    requires !picks[5] && lines[5] == 20
    requires !picks[6] && lines[6] == 25
    requires !picks[7] && lines[7] == 26
    requires !picks[8] && lines[8] == 27
    requires picks[9] && lines[9] == 28
    requires !picks[10] && lines[10] == 29
    requires !picks[11] && lines[11] == 30
    requires !picks[12] && lines[12] == 31
    requires !picks[13] && lines[13] == 32
    requires !picks[14] && lines[14] == 33
    requires !picks[15] && lines[15] == 34
    requires !picks[16] && lines[16] == 35
    requires !picks[17] && lines[17] == 36
    requires !picks[18] && lines[18] == 37
    ensures PickedRange(lines, picks, 0, 19) == [12, 28]
  {
    ExactBNoParametersLinesFrom0(lines, picks);
    ExactBNoParametersLinesFrom4(lines, picks);
    ExactBNoParametersLinesFrom8(lines, picks);
    ExactBNoParametersLinesFrom12(lines, picks);
    ExactBNoParametersLinesFrom16(lines, picks);
    PickedRangeSplit(lines, picks, 0, 16, 19);
    PickedRangeSplit(lines, picks, 0, 12, 16);
    PickedRangeSplit(lines, picks, 0, 8, 12);
    PickedRangeSplit(lines, picks, 0, 4, 8);
    assert [12] + [] + [28] + [] + [] == [12, 28];
  }

  lemma ExactBNoParametersLinesFrom0(lines: seq<int>, picks: seq<bool>)
    requires |lines| == 19 && |picks| == 19
    requires !picks[0] && lines[0] == 4
    requires !picks[1] && lines[1] == 5
    requires !picks[2] && lines[2] == 9
    requires picks[3] && lines[3] == 12
    ensures PickedRange(lines, picks, 0, 4) == [12]
  {
    PickedIn(lines, picks, 3, 4, 12, []);
    PickedOut(lines, picks, 2, 4, [12]);
    PickedOut(lines, picks, 1, 4, [12]);
    PickedOut(lines, picks, 0, 4, [12]);
  }

  lemma ExactBNoParametersLinesFrom4(lines: seq<int>, picks: seq<bool>)
    requires |lines| == 19 && |picks| == 19
    requires !picks[4] && lines[4] == 16
    requires !picks[5] && lines[5] == 20
    requires !picks[6] && lines[6] == 25
    requires !picks[7] && lines[7] == 26
    ensures PickedRange(lines, picks, 4, 8) == []
  {
    PickedOut(lines, picks, 7, 8, []);
    PickedOut(lines, picks, 6, 8, []);
    PickedOut(lines, picks, 5, 8, []);
    PickedOut(lines, picks, 4, 8, []);
  }

  lemma ExactBNoParametersLinesFrom8(lines: seq<int>, picks: seq<bool>)
    requires |lines| == 19 && |picks| == 19
    requires !picks[8] && lines[8] == 27
    requires picks[9] && lines[9] == 28
    requires !picks[10] && lines[10] == 29
    requires !picks[11] && lines[11] == 30
    ensures PickedRange(lines, picks, 8, 12) == [28]
  {
    PickedOut(lines, picks, 11, 12, []);
    PickedOut(lines, picks, 10, 12, []);
    PickedIn(lines, picks, 9, 12, 28, []);
    PickedOut(lines, picks, 8, 12, [28]);
  }

  lemma ExactBNoParametersLinesFrom12(lines: seq<int>, picks: seq<bool>)
    requires |lines| == 19 && |picks| == 19
    requires !picks[12] && lines[12] == 31
    requires !picks[13] && lines[13] == 32
    requires !picks[14] && lines[14] == 33
    requires !picks[15] && lines[15] == 34
    ensures PickedRange(lines, picks, 12, 16) == []
  {
    PickedOut(lines, picks, 15, 16, []);
    PickedOut(lines, picks, 14, 16, []);
    PickedOut(lines, picks, 13, 16, []);
    PickedOut(lines, picks, 12, 16, []);
  }

  lemma ExactBNoParametersLinesFrom16(lines: seq<int>, picks: seq<bool>)
    requires |lines| == 19 && |picks| == 19
    requires !picks[16] && lines[16] == 35
    requires !picks[17] && lines[17] == 36
    requires !picks[18] && lines[18] == 37
    ensures PickedRange(lines, picks, 16, 19) == []
  {
    PickedOut(lines, picks, 18, 19, []);
    PickedOut(lines, picks, 17, 19, []);
    PickedOut(lines, picks, 16, 19, []);
  }

  /** `ofSubType("pkg.B").name("f").withoutParameters()`: also `f.f()`, through a subtype; not the declaration in `I`. */
  lemma SubtypeOfBNoParameters()
    ensures MatchedLines(INHERITANCE_HIERARCHY, Single(SUB_B_F), false, INHERITANCE_TREES) == [12, 28, 34]
  {
    SubtypeOfBNoParametersJudged();
    SubtypeOfBNoParametersPicked();
  }

  lemma SubtypeOfBNoParametersPicked()
    ensures PickedRange([4, 5, 9, 12, 16, 20, 25, 26, 27, 28, 29, 30, 31, 32, 33, 34, 35, 36, 37], [false, false, false, true, false, false, false, false, false, true, false, false, false, false, false, true, false, false, false], 0, 19) == [12, 28, 34]
  {
    SubtypeOfBNoParametersLines([4, 5, 9, 12, 16, 20, 25, 26, 27, 28, 29, 30, 31, 32, 33, 34, 35, 36, 37], [false, false, false, true, false, false, false, false, false, true, false, false, false, false, false, true, false, false, false]);
  }

  lemma SubtypeOfBNoParametersJudged()
    ensures MatchedLines(INHERITANCE_HIERARCHY, Single(SUB_B_F), false, INHERITANCE_TREES) == PickedRange([4, 5, 9, 12, 16, 20, 25, 26, 27, 28, 29, 30, 31, 32, 33, 34, 35, 36, 37], [false, false, false, true, false, false, false, false, false, true, false, false, false, false, false, true, false, false, false], 0, 19)
  {
    var hits := [false, false, false, true, false, false, false, false, false, true, false, false, false, false, false, true, false, false, false];
    SubtypeOfBNoParametersHitsFrom0(hits);
    SubtypeOfBNoParametersHitsFrom4(hits);
    SubtypeOfBNoParametersHitsFrom8(hits);
    SubtypeOfBNoParametersHitsFrom12(hits);
    SubtypeOfBNoParametersHitsFrom16(hits);
    InheritanceTreeLines();
    MatchedLinesPicked(INHERITANCE_HIERARCHY, Single(SUB_B_F), false, INHERITANCE_TREES, [4, 5, 9, 12, 16, 20, 25, 26, 27, 28, 29, 30, 31, 32, 33, 34, 35, 36, 37], hits);
  }

  lemma SubtypeOfBNoParametersHitsFrom0(hits: seq<bool>)
    requires hits == [false, false, false, true, false, false, false, false, false, true, false, false, false, false, false, true, false, false, false]
    ensures forall k :: 0 <= k < 4 ==> Hit(INHERITANCE_HIERARCHY, Single(SUB_B_F), false, INHERITANCE_TREES[k].node) == hits[k]
  {
    forall t | t in {OBJECT, "pkg.A", "pkg.I", "pkg.J", "pkg.B", "pkg.C", "pkg.D", "pkg.E", "pkg.F", "pkg.Main"}
      ensures IsSubtype(INHERITANCE_HIERARCHY, t, "pkg.B") <==> t in {"pkg.B", "pkg.C", "pkg.D", "pkg.E", "pkg.F"}
    {
      SubtypesOfB(t);
    }
    forall k | 0 <= k < 4
      ensures Hit(INHERITANCE_HIERARCHY, Single(SUB_B_F), false, INHERITANCE_TREES[k].node) == hits[k]
    {
      SingleCriteriaOnTree(INHERITANCE_HIERARCHY, SUB_B_F.types[0], SUB_B_F.names[0], SUB_B_F.parameters[0], INHERITANCE_TREES[k].node);
    }
  }

  lemma SubtypeOfBNoParametersHitsFrom4(hits: seq<bool>)
    requires hits == [false, false, false, true, false, false, false, false, false, true, false, false, false, false, false, true, false, false, false]
    ensures forall k :: 4 <= k < 8 ==> Hit(INHERITANCE_HIERARCHY, Single(SUB_B_F), false, INHERITANCE_TREES[k].node) == hits[k]
  {
    forall t | t in {OBJECT, "pkg.A", "pkg.I", "pkg.J", "pkg.B", "pkg.C", "pkg.D", "pkg.E", "pkg.F", "pkg.Main"}
      ensures IsSubtype(INHERITANCE_HIERARCHY, t, "pkg.B") <==> t in {"pkg.B", "pkg.C", "pkg.D", "pkg.E", "pkg.F"}
    {
      SubtypesOfB(t);
    }
    forall k | 4 <= k < 8
      ensures Hit(INHERITANCE_HIERARCHY, Single(SUB_B_F), false, INHERITANCE_TREES[k].node) == hits[k]
    {
      SingleCriteriaOnTree(INHERITANCE_HIERARCHY, SUB_B_F.types[0], SUB_B_F.names[0], SUB_B_F.parameters[0], INHERITANCE_TREES[k].node);
    }
  }

  lemma SubtypeOfBNoParametersHitsFrom8(hits: seq<bool>)
    requires hits == [false, false, false, true, false, false, false, false, false, true, false, false, false, false, false, true, false, false, false]
    ensures forall k :: 8 <= k < 12 ==> Hit(INHERITANCE_HIERARCHY, Single(SUB_B_F), false, INHERITANCE_TREES[k].node) == hits[k]
  {
    forall t | t in {OBJECT, "pkg.A", "pkg.I", "pkg.J", "pkg.B", "pkg.C", "pkg.D", "pkg.E", "pkg.F", "pkg.Main"}
      ensures IsSubtype(INHERITANCE_HIERARCHY, t, "pkg.B") <==> t in {"pkg.B", "pkg.C", "pkg.D", "pkg.E", "pkg.F"}
    {
      SubtypesOfB(t);
    }
    forall k | 8 <= k < 12
      ensures Hit(INHERITANCE_HIERARCHY, Single(SUB_B_F), false, INHERITANCE_TREES[k].node) == hits[k]
    {
      SingleCriteriaOnTree(INHERITANCE_HIERARCHY, SUB_B_F.types[0], SUB_B_F.names[0], SUB_B_F.parameters[0], INHERITANCE_TREES[k].node);
    }
  }

  lemma SubtypeOfBNoParametersHitsFrom12(hits: seq<bool>)
    requires hits == [false, false, false, true, false, false, false, false, false, true, false, false, false, false, false, true, false, false, false]
    ensures forall k :: 12 <= k < 16 ==> Hit(INHERITANCE_HIERARCHY, Single(SUB_B_F), false, INHERITANCE_TREES[k].node) == hits[k]
  {
    forall t | t in {OBJECT, "pkg.A", "pkg.I", "pkg.J", "pkg.B", "pkg.C", "pkg.D", "pkg.E", "pkg.F", "pkg.Main"}
      ensures IsSubtype(INHERITANCE_HIERARCHY, t, "pkg.B") <==> t in {"pkg.B", "pkg.C", "pkg.D", "pkg.E", "pkg.F"}
    {
      SubtypesOfB(t);
    }
    forall k | 12 <= k < 16
      ensures Hit(INHERITANCE_HIERARCHY, Single(SUB_B_F), false, INHERITANCE_TREES[k].node) == hits[k]
    {
      SingleCriteriaOnTree(INHERITANCE_HIERARCHY, SUB_B_F.types[0], SUB_B_F.names[0], SUB_B_F.parameters[0], INHERITANCE_TREES[k].node);
    }
  }

  lemma SubtypeOfBNoParametersHitsFrom16(hits: seq<bool>)
    requires hits == [false, false, false, true, false, false, false, false, false, true, false, false, false, false, false, true, false, false, false]
    ensures forall k :: 16 <= k < 19 ==> Hit(INHERITANCE_HIERARCHY, Single(SUB_B_F), false, INHERITANCE_TREES[k].node) == hits[k]
  {
    forall t | t in {OBJECT, "pkg.A", "pkg.I", "pkg.J", "pkg.B", "pkg.C", "pkg.D", "pkg.E", "pkg.F", "pkg.Main"}
      ensures IsSubtype(INHERITANCE_HIERARCHY, t, "pkg.B") <==> t in {"pkg.B", "pkg.C", "pkg.D", "pkg.E", "pkg.F"}
    {
      SubtypesOfB(t);
    }
    forall k | 16 <= k < 19
      ensures Hit(INHERITANCE_HIERARCHY, Single(SUB_B_F), false, INHERITANCE_TREES[k].node) == hits[k]
    {
      SingleCriteriaOnTree(INHERITANCE_HIERARCHY, SUB_B_F.types[0], SUB_B_F.names[0], SUB_B_F.parameters[0], INHERITANCE_TREES[k].node);
    }
  }

  lemma SubtypeOfBNoParametersLines(lines: seq<int>, picks: seq<bool>)
    requires |lines| == 19 && |picks| == 19
    requires !picks[0] && lines[0] == 4
    requires !picks[1] && lines[1] == 5
    requires !picks[2] && lines[2] == 9
    requires picks[3] && lines[3] == 12
    requires !picks[4] && lines[4] == 16
    requires !picks[5] && lines[5] == 20
    requires !picks[6] && lines[6] == 25
    requires !picks[7] && lines[7] == 26
    requires !picks[8] && lines[8] == 27
    requires picks[9] && lines[9] == 28
    requires !picks[10] && lines[10] == 29
    requires !picks[11] && lines[11] == 30
    requires !picks[12] && lines[12] == 31
    requires !picks[13] && lines[13] == 32
    requires !picks[14] && lines[14] == 33
    requires picks[15] && lines[15] == 34
    requires !picks[16] && lines[16] == 35
    requires !picks[17] && lines[17] == 36
    requires !picks[18] && lines[18] == 37
    ensures PickedRange(lines, picks, 0, 19) == [12, 28, 34]
  {
    SubtypeOfBNoParametersLinesFrom0(lines, picks);
    SubtypeOfBNoParametersLinesFrom4(lines, picks);
    SubtypeOfBNoParametersLinesFrom8(lines, picks);
    SubtypeOfBNoParametersLinesFrom12(lines, picks);
    SubtypeOfBNoParametersLinesFrom16(lines, picks);
    PickedRangeSplit(lines, picks, 0, 16, 19);
    PickedRangeSplit(lines, picks, 0, 12, 16);
    PickedRangeSplit(lines, picks, 0, 8, 12);
    PickedRangeSplit(lines, picks, 0, 4, 8);
    assert [12] + [] + [28] + [34] + [] == [12, 28, 34];
  }

  lemma SubtypeOfBNoParametersLinesFrom0(lines: seq<int>, picks: seq<bool>)
    requires |lines| == 19 && |picks| == 19
    requires !picks[0] && lines[0] == 4
    requires !picks[1] && lines[1] == 5
    requires !picks[2] && lines[2] == 9
    requires picks[3] && lines[3] == 12
    ensures PickedRange(lines, picks, 0, 4) == [12]
  {
    PickedIn(lines, picks, 3, 4, 12, []);
    PickedOut(lines, picks, 2, 4, [12]);
    PickedOut(lines, picks, 1, 4, [12]);
    PickedOut(lines, picks, 0, 4, [12]);
  }

  lemma SubtypeOfBNoParametersLinesFrom4(lines: seq<int>, picks: seq<bool>)
    requires |lines| == 19 && |picks| == 19
    requires !picks[4] && lines[4] == 16
    requires !picks[5] && lines[5] == 20
    requires !picks[6] && lines[6] == 25
    requires !picks[7] && lines[7] == 26
    ensures PickedRange(lines, picks, 4, 8) == []
  {
    PickedOut(lines, picks, 7, 8, []);
    PickedOut(lines, picks, 6, 8, []);
    PickedOut(lines, picks, 5, 8, []);
    PickedOut(lines, picks, 4, 8, []);
  }

  lemma SubtypeOfBNoParametersLinesFrom8(lines: seq<int>, picks: seq<bool>)
    requires |lines| == 19 && |picks| == 19
    requires !picks[8] && lines[8] == 27
    requires picks[9] && lines[9] == 28
    requires !picks[10] && lines[10] == 29
    requires !picks[11] && lines[11] == 30
    ensures PickedRange(lines, picks, 8, 12) == [28]
  {
    PickedOut(lines, picks, 11, 12, []);
    PickedOut(lines, picks, 10, 12, []);
    PickedIn(lines, picks, 9, 12, 28, []);
    PickedOut(lines, picks, 8, 12, [28]);
  }

  lemma SubtypeOfBNoParametersLinesFrom12(lines: seq<int>, picks: seq<bool>)
    requires |lines| == 19 && |picks| == 19
    requires !picks[12] && lines[12] == 31
    requires !picks[13] && lines[13] == 32
    requires !picks[14] && lines[14] == 33
    requires picks[15] && lines[15] == 34
    ensures PickedRange(lines, picks, 12, 16) == [34]
  {
    PickedIn(lines, picks, 15, 16, 34, []);
    PickedOut(lines, picks, 14, 16, [34]);
    PickedOut(lines, picks, 13, 16, [34]);
    PickedOut(lines, picks, 12, 16, [34]);
  }

  lemma SubtypeOfBNoParametersLinesFrom16(lines: seq<int>, picks: seq<bool>)
    requires |lines| == 19 && |picks| == 19
    requires !picks[16] && lines[16] == 35
    requires !picks[17] && lines[17] == 36
    requires !picks[18] && lines[18] == 37
    ensures PickedRange(lines, picks, 16, 19) == []
  {
    PickedOut(lines, picks, 18, 19, []);
    PickedOut(lines, picks, 17, 19, []);
    PickedOut(lines, picks, 16, 19, []);
  }

  /** `ofSubType("pkg.B").name("f").withParameters("int")`: the overrides in `C` and `D` and every call or reference through `B` to `F`. */
  lemma SubtypeOfBInt()
    ensures MatchedLines(INHERITANCE_HIERARCHY, Single(SUB_B_F_INT), false, INHERITANCE_TREES) == [16, 20, 29, 30, 31, 32, 33, 35, 36]
  {
    SubtypeOfBIntJudged();
    SubtypeOfBIntPicked();
  }

  lemma SubtypeOfBIntPicked()
    ensures PickedRange([4, 5, 9, 12, 16, 20, 25, 26, 27, 28, 29, 30, 31, 32, 33, 34, 35, 36, 37], [false, false, false, false, true, true, false, false, false, false, true, true, true, true, true, false, true, true, false], 0, 19) == [16, 20, 29, 30, 31, 32, 33, 35, 36]
  {
    SubtypeOfBIntLines([4, 5, 9, 12, 16, 20, 25, 26, 27, 28, 29, 30, 31, 32, 33, 34, 35, 36, 37], [false, false, false, false, true, true, false, false, false, false, true, true, true, true, true, false, true, true, false]);
  }

  lemma SubtypeOfBIntJudged()
    ensures MatchedLines(INHERITANCE_HIERARCHY, Single(SUB_B_F_INT), false, INHERITANCE_TREES) == PickedRange([4, 5, 9, 12, 16, 20, 25, 26, 27, 28, 29, 30, 31, 32, 33, 34, 35, 36, 37], [false, false, false, false, true, true, false, false, false, false, true, true, true, true, true, false, true, true, false], 0, 19)
  {
    var hits := [false, false, false, false, true, true, false, false, false, false, true, true, true, true, true, false, true, true, false];
    SubtypeOfBIntHitsFrom0(hits);
    SubtypeOfBIntHitsFrom4(hits);
    SubtypeOfBIntHitsFrom8(hits);
    SubtypeOfBIntHitsFrom12(hits);
    SubtypeOfBIntHitsFrom16(hits);
    InheritanceTreeLines();
    MatchedLinesPicked(INHERITANCE_HIERARCHY, Single(SUB_B_F_INT), false, INHERITANCE_TREES, [4, 5, 9, 12, 16, 20, 25, 26, 27, 28, 29, 30, 31, 32, 33, 34, 35, 36, 37], hits);
  }

  lemma SubtypeOfBIntHitsFrom0(hits: seq<bool>)
    requires hits == [false, false, false, false, true, true, false, false, false, false, true, true, true, true, true, false, true, true, false]
    ensures forall k :: 0 <= k < 4 ==> Hit(INHERITANCE_HIERARCHY, Single(SUB_B_F_INT), false, INHERITANCE_TREES[k].node) == hits[k]
  {
    forall t | t in {OBJECT, "pkg.A", "pkg.I", "pkg.J", "pkg.B", "pkg.C", "pkg.D", "pkg.E", "pkg.F", "pkg.Main"}
      ensures IsSubtype(INHERITANCE_HIERARCHY, t, "pkg.B") <==> t in {"pkg.B", "pkg.C", "pkg.D", "pkg.E", "pkg.F"}
    {
      SubtypesOfB(t);
    }
    forall k | 0 <= k < 4
      ensures Hit(INHERITANCE_HIERARCHY, Single(SUB_B_F_INT), false, INHERITANCE_TREES[k].node) == hits[k]
    {
      SingleCriteriaOnTree(INHERITANCE_HIERARCHY, SUB_B_F_INT.types[0], SUB_B_F_INT.names[0], SUB_B_F_INT.parameters[0], INHERITANCE_TREES[k].node);
      ExactParametersOfOne(INHERITANCE_HIERARCHY, ExactType("int"), TreeSubject(INHERITANCE_TREES[k].node).parameters);
    }
  }

  lemma SubtypeOfBIntHitsFrom4(hits: seq<bool>)
    requires hits == [false, false, false, false, true, true, false, false, false, false, true, true, true, true, true, false, true, true, false]
    ensures forall k :: 4 <= k < 8 ==> Hit(INHERITANCE_HIERARCHY, Single(SUB_B_F_INT), false, INHERITANCE_TREES[k].node) == hits[k]
  {
    forall t | t in {OBJECT, "pkg.A", "pkg.I", "pkg.J", "pkg.B", "pkg.C", "pkg.D", "pkg.E", "pkg.F", "pkg.Main"}
      ensures IsSubtype(INHERITANCE_HIERARCHY, t, "pkg.B") <==> t in {"pkg.B", "pkg.C", "pkg.D", "pkg.E", "pkg.F"}
    {
      SubtypesOfB(t);
    }
    forall k | 4 <= k < 8
      ensures Hit(INHERITANCE_HIERARCHY, Single(SUB_B_F_INT), false, INHERITANCE_TREES[k].node) == hits[k]
    {
      SingleCriteriaOnTree(INHERITANCE_HIERARCHY, SUB_B_F_INT.types[0], SUB_B_F_INT.names[0], SUB_B_F_INT.parameters[0], INHERITANCE_TREES[k].node);
      ExactParametersOfOne(INHERITANCE_HIERARCHY, ExactType("int"), TreeSubject(INHERITANCE_TREES[k].node).parameters);
    }
  }

  lemma SubtypeOfBIntHitsFrom8(hits: seq<bool>)
    requires hits == [false, false, false, false, true, true, false, false, false, false, true, true, true, true, true, false, true, true, false]
    ensures forall k :: 8 <= k < 12 ==> Hit(INHERITANCE_HIERARCHY, Single(SUB_B_F_INT), false, INHERITANCE_TREES[k].node) == hits[k]
  {
    forall t | t in {OBJECT, "pkg.A", "pkg.I", "pkg.J", "pkg.B", "pkg.C", "pkg.D", "pkg.E", "pkg.F", "pkg.Main"}
      ensures IsSubtype(INHERITANCE_HIERARCHY, t, "pkg.B") <==> t in {"pkg.B", "pkg.C", "pkg.D", "pkg.E", "pkg.F"}
    {
      SubtypesOfB(t);
    }
    forall k | 8 <= k < 12
      ensures Hit(INHERITANCE_HIERARCHY, Single(SUB_B_F_INT), false, INHERITANCE_TREES[k].node) == hits[k]
    {
      SingleCriteriaOnTree(INHERITANCE_HIERARCHY, SUB_B_F_INT.types[0], SUB_B_F_INT.names[0], SUB_B_F_INT.parameters[0], INHERITANCE_TREES[k].node);
      ExactParametersOfOne(INHERITANCE_HIERARCHY, ExactType("int"), TreeSubject(INHERITANCE_TREES[k].node).parameters);
    }
  }

  lemma SubtypeOfBIntHitsFrom12(hits: seq<bool>)
    requires hits == [false, false, false, false, true, true, false, false, false, false, true, true, true, true, true, false, true, true, false]
    ensures forall k :: 12 <= k < 16 ==> Hit(INHERITANCE_HIERARCHY, Single(SUB_B_F_INT), false, INHERITANCE_TREES[k].node) == hits[k]
  {
    forall t | t in {OBJECT, "pkg.A", "pkg.I", "pkg.J", "pkg.B", "pkg.C", "pkg.D", "pkg.E", "pkg.F", "pkg.Main"}
      ensures IsSubtype(INHERITANCE_HIERARCHY, t, "pkg.B") <==> t in {"pkg.B", "pkg.C", "pkg.D", "pkg.E", "pkg.F"}
    {
      SubtypesOfB(t);
    }
    forall k | 12 <= k < 16
      ensures Hit(INHERITANCE_HIERARCHY, Single(SUB_B_F_INT), false, INHERITANCE_TREES[k].node) == hits[k]
    {
      SingleCriteriaOnTree(INHERITANCE_HIERARCHY, SUB_B_F_INT.types[0], SUB_B_F_INT.names[0], SUB_B_F_INT.parameters[0], INHERITANCE_TREES[k].node);
      ExactParametersOfOne(INHERITANCE_HIERARCHY, ExactType("int"), TreeSubject(INHERITANCE_TREES[k].node).parameters);
    }
  }

  lemma SubtypeOfBIntHitsFrom16(hits: seq<bool>)
    requires hits == [false, false, false, false, true, true, false, false, false, false, true, true, true, true, true, false, true, true, false]
    ensures forall k :: 16 <= k < 19 ==> Hit(INHERITANCE_HIERARCHY, Single(SUB_B_F_INT), false, INHERITANCE_TREES[k].node) == hits[k]
  {
    forall t | t in {OBJECT, "pkg.A", "pkg.I", "pkg.J", "pkg.B", "pkg.C", "pkg.D", "pkg.E", "pkg.F", "pkg.Main"}
      ensures IsSubtype(INHERITANCE_HIERARCHY, t, "pkg.B") <==> t in {"pkg.B", "pkg.C", "pkg.D", "pkg.E", "pkg.F"}
    {
      SubtypesOfB(t);
    }
    forall k | 16 <= k < 19
      ensures Hit(INHERITANCE_HIERARCHY, Single(SUB_B_F_INT), false, INHERITANCE_TREES[k].node) == hits[k]
    {
      SingleCriteriaOnTree(INHERITANCE_HIERARCHY, SUB_B_F_INT.types[0], SUB_B_F_INT.names[0], SUB_B_F_INT.parameters[0], INHERITANCE_TREES[k].node);
      ExactParametersOfOne(INHERITANCE_HIERARCHY, ExactType("int"), TreeSubject(INHERITANCE_TREES[k].node).parameters);
    }
  }

  lemma SubtypeOfBIntLines(lines: seq<int>, picks: seq<bool>)
    requires |lines| == 19 && |picks| == 19
    requires !picks[0] && lines[0] == 4
    requires !picks[1] && lines[1] == 5
    requires !picks[2] && lines[2] == 9
    requires !picks[3] && lines[3] == 12
    requires picks[4] && lines[4] == 16
    requires picks[5] && lines[5] == 20
    requires !picks[6] && lines[6] == 25
    requires !picks[7] && lines[7] == 26
    requires !picks[8] && lines[8] == 27
    requires !picks[9] && lines[9] == 28
    requires picks[10] && lines[10] == 29
    requires picks[11] && lines[11] == 30
    requires picks[12] && lines[12] == 31
    requires picks[13] && lines[13] == 32
    requires picks[14] && lines[14] == 33
    requires !picks[15] && lines[15] == 34
    requires picks[16] && lines[16] == 35
    requires picks[17] && lines[17] == 36
    requires !picks[18] && lines[18] == 37
    ensures PickedRange(lines, picks, 0, 19) == [16, 20, 29, 30, 31, 32, 33, 35, 36]
  {
    SubtypeOfBIntLinesFrom0(lines, picks);
    SubtypeOfBIntLinesFrom4(lines, picks);
    SubtypeOfBIntLinesFrom8(lines, picks);
    SubtypeOfBIntLinesFrom12(lines, picks);
    SubtypeOfBIntLinesFrom16(lines, picks);
    PickedRangeSplit(lines, picks, 0, 16, 19);
    PickedRangeSplit(lines, picks, 0, 12, 16);
    PickedRangeSplit(lines, picks, 0, 8, 12);
    PickedRangeSplit(lines, picks, 0, 4, 8);
    assert [] + [16, 20] + [29, 30] + [31, 32, 33] + [35, 36] == [16, 20, 29, 30, 31, 32, 33, 35, 36];
  }

  lemma SubtypeOfBIntLinesFrom0(lines: seq<int>, picks: seq<bool>)
    requires |lines| == 19 && |picks| == 19
    requires !picks[0] && lines[0] == 4
    requires !picks[1] && lines[1] == 5
    requires !picks[2] && lines[2] == 9
    requires !picks[3] && lines[3] == 12
    ensures PickedRange(lines, picks, 0, 4) == []
  {
    PickedOut(lines, picks, 3, 4, []);
    PickedOut(lines, picks, 2, 4, []);
    PickedOut(lines, picks, 1, 4, []);
    PickedOut(lines, picks, 0, 4, []);
  }

  lemma SubtypeOfBIntLinesFrom4(lines: seq<int>, picks: seq<bool>)
    requires |lines| == 19 && |picks| == 19
    requires picks[4] && lines[4] == 16
    requires picks[5] && lines[5] == 20
    requires !picks[6] && lines[6] == 25
    requires !picks[7] && lines[7] == 26
    ensures PickedRange(lines, picks, 4, 8) == [16, 20]
  {
    PickedOut(lines, picks, 7, 8, []);
    PickedOut(lines, picks, 6, 8, []);
    PickedIn(lines, picks, 5, 8, 20, []);
    PickedIn(lines, picks, 4, 8, 16, [20]);
  }

  lemma SubtypeOfBIntLinesFrom8(lines: seq<int>, picks: seq<bool>)
    requires |lines| == 19 && |picks| == 19
    requires !picks[8] && lines[8] == 27
    requires !picks[9] && lines[9] == 28
    requires picks[10] && lines[10] == 29
    requires picks[11] && lines[11] == 30
    ensures PickedRange(lines, picks, 8, 12) == [29, 30]
  {
    PickedIn(lines, picks, 11, 12, 30, []);
    PickedIn(lines, picks, 10, 12, 29, [30]);
    PickedOut(lines, picks, 9, 12, [29, 30]);
    PickedOut(lines, picks, 8, 12, [29, 30]);
  }

  lemma SubtypeOfBIntLinesFrom12(lines: seq<int>, picks: seq<bool>)
    requires |lines| == 19 && |picks| == 19
    requires picks[12] && lines[12] == 31
    requires picks[13] && lines[13] == 32
    requires picks[14] && lines[14] == 33
    requires !picks[15] && lines[15] == 34
    ensures PickedRange(lines, picks, 12, 16) == [31, 32, 33]
  {
    PickedOut(lines, picks, 15, 16, []);
    PickedIn(lines, picks, 14, 16, 33, []);
    PickedIn(lines, picks, 13, 16, 32, [33]);
    PickedIn(lines, picks, 12, 16, 31, [32, 33]);
  }

  lemma SubtypeOfBIntLinesFrom16(lines: seq<int>, picks: seq<bool>)
    requires |lines| == 19 && |picks| == 19
    requires picks[16] && lines[16] == 35
    requires picks[17] && lines[17] == 36
    requires !picks[18] && lines[18] == 37
    ensures PickedRange(lines, picks, 16, 19) == [35, 36]
  {
    PickedOut(lines, picks, 18, 19, []);
    PickedIn(lines, picks, 17, 19, 36, []);
    PickedIn(lines, picks, 16, 19, 35, [36]);
  }

  /** `ofSubType("pkg.F").name("f").withoutParameters()`: only `f.f()`. */
  lemma SubtypeOfFNoParameters()
    ensures MatchedLines(INHERITANCE_HIERARCHY, Single(SUB_F_F), false, INHERITANCE_TREES) == [34]
  {
    SubtypeOfFNoParametersJudged();
    SubtypeOfFNoParametersPicked();
  }

  lemma SubtypeOfFNoParametersPicked()
    ensures PickedRange([4, 5, 9, 12, 16, 20, 25, 26, 27, 28, 29, 30, 31, 32, 33, 34, 35, 36, 37], [false, false, false, false, false, false, false, false, false, false, false, false, false, false, false, true, false, false, false], 0, 19) == [34]
  {
    SubtypeOfFNoParametersLines([4, 5, 9, 12, 16, 20, 25, 26, 27, 28, 29, 30, 31, 32, 33, 34, 35, 36, 37], [false, false, false, false, false, false, false, false, false, false, false, false, false, false, false, true, false, false, false]);
  }

  lemma SubtypeOfFNoParametersJudged()
    ensures MatchedLines(INHERITANCE_HIERARCHY, Single(SUB_F_F), false, INHERITANCE_TREES) == PickedRange([4, 5, 9, 12, 16, 20, 25, 26, 27, 28, 29, 30, 31, 32, 33, 34, 35, 36, 37], [false, false, false, false, false, false, false, false, false, false, false, false, false, false, false, true, false, false, false], 0, 19)
  {
    var hits := [false, false, false, false, false, false, false, false, false, false, false, false, false, false, false, true, false, false, false];
    SubtypeOfFNoParametersHitsFrom0(hits);
    SubtypeOfFNoParametersHitsFrom4(hits);
    SubtypeOfFNoParametersHitsFrom8(hits);
    SubtypeOfFNoParametersHitsFrom12(hits);
    SubtypeOfFNoParametersHitsFrom16(hits);
    InheritanceTreeLines();
    MatchedLinesPicked(INHERITANCE_HIERARCHY, Single(SUB_F_F), false, INHERITANCE_TREES, [4, 5, 9, 12, 16, 20, 25, 26, 27, 28, 29, 30, 31, 32, 33, 34, 35, 36, 37], hits);
  }

  lemma SubtypeOfFNoParametersHitsFrom0(hits: seq<bool>)
    requires hits == [false, false, false, false, false, false, false, false, false, false, false, false, false, false, false, true, false, false, false]
    ensures forall k :: 0 <= k < 4 ==> Hit(INHERITANCE_HIERARCHY, Single(SUB_F_F), false, INHERITANCE_TREES[k].node) == hits[k]
  {
    forall t | t in {OBJECT, "pkg.A", "pkg.I", "pkg.J", "pkg.B", "pkg.C", "pkg.D", "pkg.E", "pkg.F", "pkg.Main"}
      ensures IsSubtype(INHERITANCE_HIERARCHY, t, "pkg.F") <==> t in {"pkg.F"}
    {
      SubtypesOfF(t);
    }
    forall k | 0 <= k < 4
      ensures Hit(INHERITANCE_HIERARCHY, Single(SUB_F_F), false, INHERITANCE_TREES[k].node) == hits[k]
    {
      SingleCriteriaOnTree(INHERITANCE_HIERARCHY, SUB_F_F.types[0], SUB_F_F.names[0], SUB_F_F.parameters[0], INHERITANCE_TREES[k].node);
    }
  }

  lemma SubtypeOfFNoParametersHitsFrom4(hits: seq<bool>)
    requires hits == [false, false, false, false, false, false, false, false, false, false, false, false, false, false, false, true, false, false, false]
    ensures forall k :: 4 <= k < 8 ==> Hit(INHERITANCE_HIERARCHY, Single(SUB_F_F), false, INHERITANCE_TREES[k].node) == hits[k]
  {
    forall t | t in {OBJECT, "pkg.A", "pkg.I", "pkg.J", "pkg.B", "pkg.C", "pkg.D", "pkg.E", "pkg.F", "pkg.Main"}
      ensures IsSubtype(INHERITANCE_HIERARCHY, t, "pkg.F") <==> t in {"pkg.F"}
    {
      SubtypesOfF(t);
    }
    forall k | 4 <= k < 8
      ensures Hit(INHERITANCE_HIERARCHY, Single(SUB_F_F), false, INHERITANCE_TREES[k].node) == hits[k]
    {
      SingleCriteriaOnTree(INHERITANCE_HIERARCHY, SUB_F_F.types[0], SUB_F_F.names[0], SUB_F_F.parameters[0], INHERITANCE_TREES[k].node);
    }
  }

  lemma SubtypeOfFNoParametersHitsFrom8(hits: seq<bool>)
    requires hits == [false, false, false, false, false, false, false, false, false, false, false, false, false, false, false, true, false, false, false]
    ensures forall k :: 8 <= k < 12 ==> Hit(INHERITANCE_HIERARCHY, Single(SUB_F_F), false, INHERITANCE_TREES[k].node) == hits[k]
  {
    forall t | t in {OBJECT, "pkg.A", "pkg.I", "pkg.J", "pkg.B", "pkg.C", "pkg.D", "pkg.E", "pkg.F", "pkg.Main"}
      ensures IsSubtype(INHERITANCE_HIERARCHY, t, "pkg.F") <==> t in {"pkg.F"}
    {
      SubtypesOfF(t);
    }
    forall k | 8 <= k < 12
      ensures Hit(INHERITANCE_HIERARCHY, Single(SUB_F_F), false, INHERITANCE_TREES[k].node) == hits[k]
    {
      SingleCriteriaOnTree(INHERITANCE_HIERARCHY, SUB_F_F.types[0], SUB_F_F.names[0], SUB_F_F.parameters[0], INHERITANCE_TREES[k].node);
    }
  }

  lemma SubtypeOfFNoParametersHitsFrom12(hits: seq<bool>)
    requires hits == [false, false, false, false, false, false, false, false, false, false, false, false, false, false, false, true, false, false, false]
    ensures forall k :: 12 <= k < 16 ==> Hit(INHERITANCE_HIERARCHY, Single(SUB_F_F), false, INHERITANCE_TREES[k].node) == hits[k]
  {
    forall t | t in {OBJECT, "pkg.A", "pkg.I", "pkg.J", "pkg.B", "pkg.C", "pkg.D", "pkg.E", "pkg.F", "pkg.Main"}
      ensures IsSubtype(INHERITANCE_HIERARCHY, t, "pkg.F") <==> t in {"pkg.F"}
    {
      SubtypesOfF(t);
    }
    forall k | 12 <= k < 16
      ensures Hit(INHERITANCE_HIERARCHY, Single(SUB_F_F), false, INHERITANCE_TREES[k].node) == hits[k]
    {
      SingleCriteriaOnTree(INHERITANCE_HIERARCHY, SUB_F_F.types[0], SUB_F_F.names[0], SUB_F_F.parameters[0], INHERITANCE_TREES[k].node);
    }
  }

  lemma SubtypeOfFNoParametersHitsFrom16(hits: seq<bool>)
    requires hits == [false, false, false, false, false, false, false, false, false, false, false, false, false, false, false, true, false, false, false]
    ensures forall k :: 16 <= k < 19 ==> Hit(INHERITANCE_HIERARCHY, Single(SUB_F_F), false, INHERITANCE_TREES[k].node) == hits[k]
  {
    forall t | t in {OBJECT, "pkg.A", "pkg.I", "pkg.J", "pkg.B", "pkg.C", "pkg.D", "pkg.E", "pkg.F", "pkg.Main"}
      ensures IsSubtype(INHERITANCE_HIERARCHY, t, "pkg.F") <==> t in {"pkg.F"}
    {
      SubtypesOfF(t);
    }
    forall k | 16 <= k < 19
      ensures Hit(INHERITANCE_HIERARCHY, Single(SUB_F_F), false, INHERITANCE_TREES[k].node) == hits[k]
    {
      SingleCriteriaOnTree(INHERITANCE_HIERARCHY, SUB_F_F.types[0], SUB_F_F.names[0], SUB_F_F.parameters[0], INHERITANCE_TREES[k].node);
    }
  }

  lemma SubtypeOfFNoParametersLines(lines: seq<int>, picks: seq<bool>)
    requires |lines| == 19 && |picks| == 19
    requires !picks[0] && lines[0] == 4
    requires !picks[1] && lines[1] == 5
    requires !picks[2] && lines[2] == 9
    requires !picks[3] && lines[3] == 12
    requires !picks[4] && lines[4] == 16
    requires !picks[5] && lines[5] == 20
    requires !picks[6] && lines[6] == 25
    requires !picks[7] && lines[7] == 26
    requires !picks[8] && lines[8] == 27
    requires !picks[9] && lines[9] == 28
    requires !picks[10] && lines[10] == 29
    requires !picks[11] && lines[11] == 30
    requires !picks[12] && lines[12] == 31
    requires !picks[13] && lines[13] == 32
    requires !picks[14] && lines[14] == 33
    requires picks[15] && lines[15] == 34
    requires !picks[16] && lines[16] == 35
    requires !picks[17] && lines[17] == 36
    requires !picks[18] && lines[18] == 37
    ensures PickedRange(lines, picks, 0, 19) == [34]
  {
    SubtypeOfFNoParametersLinesFrom0(lines, picks);
    SubtypeOfFNoParametersLinesFrom4(lines, picks);
    SubtypeOfFNoParametersLinesFrom8(lines, picks);
    SubtypeOfFNoParametersLinesFrom12(lines, picks);
    SubtypeOfFNoParametersLinesFrom16(lines, picks);
    PickedRangeSplit(lines, picks, 0, 16, 19);
    PickedRangeSplit(lines, picks, 0, 12, 16);
    PickedRangeSplit(lines, picks, 0, 8, 12);
    PickedRangeSplit(lines, picks, 0, 4, 8);
    assert [] + [] + [] + [34] + [] == [34];
  }

  lemma SubtypeOfFNoParametersLinesFrom0(lines: seq<int>, picks: seq<bool>)
    requires |lines| == 19 && |picks| == 19
    requires !picks[0] && lines[0] == 4
    requires !picks[1] && lines[1] == 5
    requires !picks[2] && lines[2] == 9
    requires !picks[3] && lines[3] == 12
    ensures PickedRange(lines, picks, 0, 4) == []
  {
    PickedOut(lines, picks, 3, 4, []);
    PickedOut(lines, picks, 2, 4, []);
    PickedOut(lines, picks, 1, 4, []);
    PickedOut(lines, picks, 0, 4, []);
  }

  lemma SubtypeOfFNoParametersLinesFrom4(lines: seq<int>, picks: seq<bool>)
    requires |lines| == 19 && |picks| == 19
    requires !picks[4] && lines[4] == 16
    requires !picks[5] && lines[5] == 20
    requires !picks[6] && lines[6] == 25
    requires !picks[7] && lines[7] == 26
    ensures PickedRange(lines, picks, 4, 8) == []
  {
    PickedOut(lines, picks, 7, 8, []);
    PickedOut(lines, picks, 6, 8, []);
    PickedOut(lines, picks, 5, 8, []);
    PickedOut(lines, picks, 4, 8, []);
  }

  lemma SubtypeOfFNoParametersLinesFrom8(lines: seq<int>, picks: seq<bool>)
    requires |lines| == 19 && |picks| == 19
    requires !picks[8] && lines[8] == 27
    requires !picks[9] && lines[9] == 28
    requires !picks[10] && lines[10] == 29
    requires !picks[11] && lines[11] == 30
    ensures PickedRange(lines, picks, 8, 12) == []
  {
    PickedOut(lines, picks, 11, 12, []);
    PickedOut(lines, picks, 10, 12, []);
    PickedOut(lines, picks, 9, 12, []);
    PickedOut(lines, picks, 8, 12, []);
  }

  lemma SubtypeOfFNoParametersLinesFrom12(lines: seq<int>, picks: seq<bool>)
    requires |lines| == 19 && |picks| == 19
    requires !picks[12] && lines[12] == 31
    requires !picks[13] && lines[13] == 32
    requires !picks[14] && lines[14] == 33
    requires picks[15] && lines[15] == 34
    ensures PickedRange(lines, picks, 12, 16) == [34]
  {
    PickedIn(lines, picks, 15, 16, 34, []);
    PickedOut(lines, picks, 14, 16, [34]);
    PickedOut(lines, picks, 13, 16, [34]);
    PickedOut(lines, picks, 12, 16, [34]);
  }

  lemma SubtypeOfFNoParametersLinesFrom16(lines: seq<int>, picks: seq<bool>)
    requires |lines| == 19 && |picks| == 19
    requires !picks[16] && lines[16] == 35
    requires !picks[17] && lines[17] == 36
    requires !picks[18] && lines[18] == 37
    ensures PickedRange(lines, picks, 16, 19) == []
  {
    PickedOut(lines, picks, 18, 19, []);
    PickedOut(lines, picks, 17, 19, []);
    PickedOut(lines, picks, 16, 19, []);
  }

  /** `ofType("pkg.A").name("f").withParameters("int")`: nothing, since `A` declares no `f` and no receiver has static type `A`. */
  lemma ExactAInt()
    ensures MatchedLines(INHERITANCE_HIERARCHY, Single(A_F_INT), false, INHERITANCE_TREES) == []
  {
    ExactAIntJudged();
    ExactAIntPicked();
  }

  lemma ExactAIntPicked()
    ensures PickedRange([4, 5, 9, 12, 16, 20, 25, 26, 27, 28, 29, 30, 31, 32, 33, 34, 35, 36, 37], [false, false, false, false, false, false, false, false, false, false, false, false, false, false, false, false, false, false, false], 0, 19) == []
  {
    ExactAIntLines([4, 5, 9, 12, 16, 20, 25, 26, 27, 28, 29, 30, 31, 32, 33, 34, 35, 36, 37], [false, false, false, false, false, false, false, false, false, false, false, false, false, false, false, false, false, false, false]);
  }

  lemma ExactAIntJudged()
    ensures MatchedLines(INHERITANCE_HIERARCHY, Single(A_F_INT), false, INHERITANCE_TREES) == PickedRange([4, 5, 9, 12, 16, 20, 25, 26, 27, 28, 29, 30, 31, 32, 33, 34, 35, 36, 37], [false, false, false, false, false, false, false, false, false, false, false, false, false, false, false, false, false, false, false], 0, 19)
  {
    var hits := [false, false, false, false, false, false, false, false, false, false, false, false, false, false, false, false, false, false, false];
    ExactAIntHitsFrom0(hits);
    ExactAIntHitsFrom4(hits);
    ExactAIntHitsFrom8(hits);
    ExactAIntHitsFrom12(hits);
    ExactAIntHitsFrom16(hits);
    InheritanceTreeLines();
    MatchedLinesPicked(INHERITANCE_HIERARCHY, Single(A_F_INT), false, INHERITANCE_TREES, [4, 5, 9, 12, 16, 20, 25, 26, 27, 28, 29, 30, 31, 32, 33, 34, 35, 36, 37], hits);
  }

  lemma ExactAIntHitsFrom0(hits: seq<bool>)
    requires hits == [false, false, false, false, false, false, false, false, false, false, false, false, false, false, false, false, false, false, false]
    ensures forall k :: 0 <= k < 4 ==> Hit(INHERITANCE_HIERARCHY, Single(A_F_INT), false, INHERITANCE_TREES[k].node) == hits[k]
  {
    forall k | 0 <= k < 4
      ensures Hit(INHERITANCE_HIERARCHY, Single(A_F_INT), false, INHERITANCE_TREES[k].node) == hits[k]
    {
      SingleCriteriaOnTree(INHERITANCE_HIERARCHY, A_F_INT.types[0], A_F_INT.names[0], A_F_INT.parameters[0], INHERITANCE_TREES[k].node);
      ExactParametersOfOne(INHERITANCE_HIERARCHY, ExactType("int"), TreeSubject(INHERITANCE_TREES[k].node).parameters);
    }
  }

  lemma ExactAIntHitsFrom4(hits: seq<bool>)
    requires hits == [false, false, false, false, false, false, false, false, false, false, false, false, false, false, false, false, false, false, false]
    ensures forall k :: 4 <= k < 8 ==> Hit(INHERITANCE_HIERARCHY, Single(A_F_INT), false, INHERITANCE_TREES[k].node) == hits[k]
  {
    forall k | 4 <= k < 8
      ensures Hit(INHERITANCE_HIERARCHY, Single(A_F_INT), false, INHERITANCE_TREES[k].node) == hits[k]
    {
      SingleCriteriaOnTree(INHERITANCE_HIERARCHY, A_F_INT.types[0], A_F_INT.names[0], A_F_INT.parameters[0], INHERITANCE_TREES[k].node);
      ExactParametersOfOne(INHERITANCE_HIERARCHY, ExactType("int"), TreeSubject(INHERITANCE_TREES[k].node).parameters);
    }
  }

  lemma ExactAIntHitsFrom8(hits: seq<bool>)
    requires hits == [false, false, false, false, false, false, false, false, false, false, false, false, false, false, false, false, false, false, false]
    ensures forall k :: 8 <= k < 12 ==> Hit(INHERITANCE_HIERARCHY, Single(A_F_INT), false, INHERITANCE_TREES[k].node) == hits[k]
  {
    forall k | 8 <= k < 12
      ensures Hit(INHERITANCE_HIERARCHY, Single(A_F_INT), false, INHERITANCE_TREES[k].node) == hits[k]
    {
      SingleCriteriaOnTree(INHERITANCE_HIERARCHY, A_F_INT.types[0], A_F_INT.names[0], A_F_INT.parameters[0], INHERITANCE_TREES[k].node);
      ExactParametersOfOne(INHERITANCE_HIERARCHY, ExactType("int"), TreeSubject(INHERITANCE_TREES[k].node).parameters);
    }
  }

  lemma ExactAIntHitsFrom12(hits: seq<bool>)
    requires hits == [false, false, false, false, false, false, false, false, false, false, false, false, false, false, false, false, false, false, false]
    ensures forall k :: 12 <= k < 16 ==> Hit(INHERITANCE_HIERARCHY, Single(A_F_INT), false, INHERITANCE_TREES[k].node) == hits[k]
  {
    forall k | 12 <= k < 16
      ensures Hit(INHERITANCE_HIERARCHY, Single(A_F_INT), false, INHERITANCE_TREES[k].node) == hits[k]
    {
      SingleCriteriaOnTree(INHERITANCE_HIERARCHY, A_F_INT.types[0], A_F_INT.names[0], A_F_INT.parameters[0], INHERITANCE_TREES[k].node);
      ExactParametersOfOne(INHERITANCE_HIERARCHY, ExactType("int"), TreeSubject(INHERITANCE_TREES[k].node).parameters);
    }
  }

  lemma ExactAIntHitsFrom16(hits: seq<bool>)
    requires hits == [false, false, false, false, false, false, false, false, false, false, false, false, false, false, false, false, false, false, false]
    ensures forall k :: 16 <= k < 19 ==> Hit(INHERITANCE_HIERARCHY, Single(A_F_INT), false, INHERITANCE_TREES[k].node) == hits[k]
  {
    forall k | 16 <= k < 19
      ensures Hit(INHERITANCE_HIERARCHY, Single(A_F_INT), false, INHERITANCE_TREES[k].node) == hits[k]
    {
      SingleCriteriaOnTree(INHERITANCE_HIERARCHY, A_F_INT.types[0], A_F_INT.names[0], A_F_INT.parameters[0], INHERITANCE_TREES[k].node);
      ExactParametersOfOne(INHERITANCE_HIERARCHY, ExactType("int"), TreeSubject(INHERITANCE_TREES[k].node).parameters);
    }
  }

  lemma ExactAIntLines(lines: seq<int>, picks: seq<bool>)
    requires |lines| == 19 && |picks| == 19
    requires !picks[0] && lines[0] == 4
    requires !picks[1] && lines[1] == 5
    requires !picks[2] && lines[2] == 9
    requires !picks[3] && lines[3] == 12
    requires !picks[4] && lines[4] == 16
    requires !picks[5] && lines[5] == 20
    requires !picks[6] && lines[6] == 25
    requires !picks[7] && lines[7] == 26
    requires !picks[8] && lines[8] == 27
    requires !picks[9] && lines[9] == 28
    requires !picks[10] && lines[10] == 29
    requires !picks[11] && lines[11] == 30
    requires !picks[12] && lines[12] == 31
    requires !picks[13] && lines[13] == 32
    requires !picks[14] && lines[14] == 33
    requires !picks[15] && lines[15] == 34
    requires !picks[16] && lines[16] == 35
    requires !picks[17] && lines[17] == 36
    requires !picks[18] && lines[18] == 37
    ensures PickedRange(lines, picks, 0, 19) == []
  {
    ExactAIntLinesFrom0(lines, picks);
    ExactAIntLinesFrom4(lines, picks);
    ExactAIntLinesFrom8(lines, picks);
    ExactAIntLinesFrom12(lines, picks);
    ExactAIntLinesFrom16(lines, picks);
    PickedRangeSplit(lines, picks, 0, 16, 19);
    PickedRangeSplit(lines, picks, 0, 12, 16);
    PickedRangeSplit(lines, picks, 0, 8, 12);
    PickedRangeSplit(lines, picks, 0, 4, 8);
  }

  lemma ExactAIntLinesFrom0(lines: seq<int>, picks: seq<bool>)
    requires |lines| == 19 && |picks| == 19
    requires !picks[0] && lines[0] == 4
    requires !picks[1] && lines[1] == 5
    requires !picks[2] && lines[2] == 9
    requires !picks[3] && lines[3] == 12
    ensures PickedRange(lines, picks, 0, 4) == []
  {
    PickedOut(lines, picks, 3, 4, []);
    PickedOut(lines, picks, 2, 4, []);
    PickedOut(lines, picks, 1, 4, []);
    PickedOut(lines, picks, 0, 4, []);
  }

  lemma ExactAIntLinesFrom4(lines: seq<int>, picks: seq<bool>)
    requires |lines| == 19 && |picks| == 19
    requires !picks[4] && lines[4] == 16
    requires !picks[5] && lines[5] == 20
    requires !picks[6] && lines[6] == 25
    requires !picks[7] && lines[7] == 26
    ensures PickedRange(lines, picks, 4, 8) == []
  {
    PickedOut(lines, picks, 7, 8, []);
    PickedOut(lines, picks, 6, 8, []);
    PickedOut(lines, picks, 5, 8, []);
    PickedOut(lines, picks, 4, 8, []);
  }

  lemma ExactAIntLinesFrom8(lines: seq<int>, picks: seq<bool>)
    requires |lines| == 19 && |picks| == 19
    requires !picks[8] && lines[8] == 27
    requires !picks[9] && lines[9] == 28
    requires !picks[10] && lines[10] == 29
    requires !picks[11] && lines[11] == 30
    ensures PickedRange(lines, picks, 8, 12) == []
  {
    PickedOut(lines, picks, 11, 12, []);
    PickedOut(lines, picks, 10, 12, []);
    PickedOut(lines, picks, 9, 12, []);
    PickedOut(lines, picks, 8, 12, []);
  }

  lemma ExactAIntLinesFrom12(lines: seq<int>, picks: seq<bool>)
    requires |lines| == 19 && |picks| == 19
    requires !picks[12] && lines[12] == 31
    requires !picks[13] && lines[13] == 32
    requires !picks[14] && lines[14] == 33
    requires !picks[15] && lines[15] == 34
    ensures PickedRange(lines, picks, 12, 16) == []
  {
    PickedOut(lines, picks, 15, 16, []);
    PickedOut(lines, picks, 14, 16, []);
    PickedOut(lines, picks, 13, 16, []);
    PickedOut(lines, picks, 12, 16, []);
  }

  lemma ExactAIntLinesFrom16(lines: seq<int>, picks: seq<bool>)
    requires |lines| == 19 && |picks| == 19
    requires !picks[16] && lines[16] == 35
    requires !picks[17] && lines[17] == 36
    requires !picks[18] && lines[18] == 37
    ensures PickedRange(lines, picks, 16, 19) == []
  {
    PickedOut(lines, picks, 18, 19, []);
    PickedOut(lines, picks, 17, 19, []);
    PickedOut(lines, picks, 16, 19, []);
  }

  /** `ofType("pkg.B").name("f").withParameters("int")`: `b.f(42)`, although `f(int)` is declared in `I`. */
  lemma ExactBInt()
    ensures MatchedLines(INHERITANCE_HIERARCHY, Single(B_F_INT), false, INHERITANCE_TREES) == [29]
  {
    ExactBIntJudged();
    ExactBIntPicked();
  }

  lemma ExactBIntPicked()
    ensures PickedRange([4, 5, 9, 12, 16, 20, 25, 26, 27, 28, 29, 30, 31, 32, 33, 34, 35, 36, 37], [false, false, false, false, false, false, false, false, false, false, true, false, false, false, false, false, false, false, false], 0, 19) == [29]
  {
    ExactBIntLines([4, 5, 9, 12, 16, 20, 25, 26, 27, 28, 29, 30, 31, 32, 33, 34, 35, 36, 37], [false, false, false, false, false, false, false, false, false, false, true, false, false, false, false, false, false, false, false]);
  }

  lemma ExactBIntJudged()
    ensures MatchedLines(INHERITANCE_HIERARCHY, Single(B_F_INT), false, INHERITANCE_TREES) == PickedRange([4, 5, 9, 12, 16, 20, 25, 26, 27, 28, 29, 30, 31, 32, 33, 34, 35, 36, 37], [false, false, false, false, false, false, false, false, false, false, true, false, false, false, false, false, false, false, false], 0, 19)
  {
    var hits := [false, false, false, false, false, false, false, false, false, false, true, false, false, false, false, false, false, false, false];
    ExactBIntHitsFrom0(hits);
    ExactBIntHitsFrom4(hits);
    ExactBIntHitsFrom8(hits);
    ExactBIntHitsFrom12(hits);
    ExactBIntHitsFrom16(hits);
    InheritanceTreeLines();
    MatchedLinesPicked(INHERITANCE_HIERARCHY, Single(B_F_INT), false, INHERITANCE_TREES, [4, 5, 9, 12, 16, 20, 25, 26, 27, 28, 29, 30, 31, 32, 33, 34, 35, 36, 37], hits);
  }

  lemma ExactBIntHitsFrom0(hits: seq<bool>)
    requires hits == [false, false, false, false, false, false, false, false, false, false, true, false, false, false, false, false, false, false, false]
    ensures forall k :: 0 <= k < 4 ==> Hit(INHERITANCE_HIERARCHY, Single(B_F_INT), false, INHERITANCE_TREES[k].node) == hits[k]
  {
    forall k | 0 <= k < 4
      ensures Hit(INHERITANCE_HIERARCHY, Single(B_F_INT), false, INHERITANCE_TREES[k].node) == hits[k]
    {
      SingleCriteriaOnTree(INHERITANCE_HIERARCHY, B_F_INT.types[0], B_F_INT.names[0], B_F_INT.parameters[0], INHERITANCE_TREES[k].node);
      ExactParametersOfOne(INHERITANCE_HIERARCHY, ExactType("int"), TreeSubject(INHERITANCE_TREES[k].node).parameters);
    }
  }

  lemma ExactBIntHitsFrom4(hits: seq<bool>)
    requires hits == [false, false, false, false, false, false, false, false, false, false, true, false, false, false, false, false, false, false, false]
    ensures forall k :: 4 <= k < 8 ==> Hit(INHERITANCE_HIERARCHY, Single(B_F_INT), false, INHERITANCE_TREES[k].node) == hits[k]
  {
    forall k | 4 <= k < 8
      ensures Hit(INHERITANCE_HIERARCHY, Single(B_F_INT), false, INHERITANCE_TREES[k].node) == hits[k]
    {
      SingleCriteriaOnTree(INHERITANCE_HIERARCHY, B_F_INT.types[0], B_F_INT.names[0], B_F_INT.parameters[0], INHERITANCE_TREES[k].node);
      ExactParametersOfOne(INHERITANCE_HIERARCHY, ExactType("int"), TreeSubject(INHERITANCE_TREES[k].node).parameters);
    }
  }

  lemma ExactBIntHitsFrom8(hits: seq<bool>)
    requires hits == [false, false, false, false, false, false, false, false, false, false, true, false, false, false, false, false, false, false, false]
    ensures forall k :: 8 <= k < 12 ==> Hit(INHERITANCE_HIERARCHY, Single(B_F_INT), false, INHERITANCE_TREES[k].node) == hits[k]
  {
    forall k | 8 <= k < 12
      ensures Hit(INHERITANCE_HIERARCHY, Single(B_F_INT), false, INHERITANCE_TREES[k].node) == hits[k]
    {
      SingleCriteriaOnTree(INHERITANCE_HIERARCHY, B_F_INT.types[0], B_F_INT.names[0], B_F_INT.parameters[0], INHERITANCE_TREES[k].node);
      ExactParametersOfOne(INHERITANCE_HIERARCHY, ExactType("int"), TreeSubject(INHERITANCE_TREES[k].node).parameters);
    }
  }

  lemma ExactBIntHitsFrom12(hits: seq<bool>)
    requires hits == [false, false, false, false, false, false, false, false, false, false, true, false, false, false, false, false, false, false, false]
    ensures forall k :: 12 <= k < 16 ==> Hit(INHERITANCE_HIERARCHY, Single(B_F_INT), false, INHERITANCE_TREES[k].node) == hits[k]
  {
    forall k | 12 <= k < 16
      ensures Hit(INHERITANCE_HIERARCHY, Single(B_F_INT), false, INHERITANCE_TREES[k].node) == hits[k]
    {
      SingleCriteriaOnTree(INHERITANCE_HIERARCHY, B_F_INT.types[0], B_F_INT.names[0], B_F_INT.parameters[0], INHERITANCE_TREES[k].node);
      ExactParametersOfOne(INHERITANCE_HIERARCHY, ExactType("int"), TreeSubject(INHERITANCE_TREES[k].node).parameters);
    }
  }

  lemma ExactBIntHitsFrom16(hits: seq<bool>)
    requires hits == [false, false, false, false, false, false, false, false, false, false, true, false, false, false, false, false, false, false, false]
    ensures forall k :: 16 <= k < 19 ==> Hit(INHERITANCE_HIERARCHY, Single(B_F_INT), false, INHERITANCE_TREES[k].node) == hits[k]
  {
    forall k | 16 <= k < 19
      ensures Hit(INHERITANCE_HIERARCHY, Single(B_F_INT), false, INHERITANCE_TREES[k].node) == hits[k]
    {
      SingleCriteriaOnTree(INHERITANCE_HIERARCHY, B_F_INT.types[0], B_F_INT.names[0], B_F_INT.parameters[0], INHERITANCE_TREES[k].node);
      ExactParametersOfOne(INHERITANCE_HIERARCHY, ExactType("int"), TreeSubject(INHERITANCE_TREES[k].node).parameters);
    }
  }

  lemma ExactBIntLines(lines: seq<int>, picks: seq<bool>)
    requires |lines| == 19 && |picks| == 19
    requires !picks[0] && lines[0] == 4
    requires !picks[1] && lines[1] == 5
    requires !picks[2] && lines[2] == 9
    requires !picks[3] && lines[3] == 12
    requires !picks[4] && lines[4] == 16
    requires !picks[5] && lines[5] == 20
    requires !picks[6] && lines[6] == 25
    requires !picks[7] && lines[7] == 26
    requires !picks[8] && lines[8] == 27
    requires !picks[9] && lines[9] == 28
    requires picks[10] && lines[10] == 29
    requires !picks[11] && lines[11] == 30
    requires !picks[12] && lines[12] == 31
    requires !picks[13] && lines[13] == 32
    requires !picks[14] && lines[14] == 33
    requires !picks[15] && lines[15] == 34
    requires !picks[16] && lines[16] == 35
    requires !picks[17] && lines[17] == 36
    requires !picks[18] && lines[18] == 37
    ensures PickedRange(lines, picks, 0, 19) == [29]
  {
    ExactBIntLinesFrom0(lines, picks);
    ExactBIntLinesFrom4(lines, picks);
    ExactBIntLinesFrom8(lines, picks);
    ExactBIntLinesFrom12(lines, picks);
    ExactBIntLinesFrom16(lines, picks);
    PickedRangeSplit(lines, picks, 0, 16, 19);
    PickedRangeSplit(lines, picks, 0, 12, 16);
    PickedRangeSplit(lines, picks, 0, 8, 12);
    PickedRangeSplit(lines, picks, 0, 4, 8);
    assert [] + [] + [29] + [] + [] == [29];
  }

  lemma ExactBIntLinesFrom0(lines: seq<int>, picks: seq<bool>)
    requires |lines| == 19 && |picks| == 19
    requires !picks[0] && lines[0] == 4
    requires !picks[1] && lines[1] == 5
    requires !picks[2] && lines[2] == 9
    requires !picks[3] && lines[3] == 12
    ensures PickedRange(lines, picks, 0, 4) == []
  {
    PickedOut(lines, picks, 3, 4, []);
    PickedOut(lines, picks, 2, 4, []);
    PickedOut(lines, picks, 1, 4, []);
    PickedOut(lines, picks, 0, 4, []);
  }

  lemma ExactBIntLinesFrom4(lines: seq<int>, picks: seq<bool>)
    requires |lines| == 19 && |picks| == 19
    requires !picks[4] && lines[4] == 16
    requires !picks[5] && lines[5] == 20
    requires !picks[6] && lines[6] == 25
    requires !picks[7] && lines[7] == 26
    ensures PickedRange(lines, picks, 4, 8) == []
  {
    PickedOut(lines, picks, 7, 8, []);
    PickedOut(lines, picks, 6, 8, []);
    PickedOut(lines, picks, 5, 8, []);
    PickedOut(lines, picks, 4, 8, []);
  }

  lemma ExactBIntLinesFrom8(lines: seq<int>, picks: seq<bool>)
    requires |lines| == 19 && |picks| == 19
    requires !picks[8] && lines[8] == 27
    requires !picks[9] && lines[9] == 28
    requires picks[10] && lines[10] == 29
    requires !picks[11] && lines[11] == 30
    ensures PickedRange(lines, picks, 8, 12) == [29]
  {
    PickedOut(lines, picks, 11, 12, []);
    PickedIn(lines, picks, 10, 12, 29, []);
    PickedOut(lines, picks, 9, 12, [29]);
    PickedOut(lines, picks, 8, 12, [29]);
  }

  lemma ExactBIntLinesFrom12(lines: seq<int>, picks: seq<bool>)
    requires |lines| == 19 && |picks| == 19
    requires !picks[12] && lines[12] == 31
    requires !picks[13] && lines[13] == 32
    requires !picks[14] && lines[14] == 33
    requires !picks[15] && lines[15] == 34
    ensures PickedRange(lines, picks, 12, 16) == []
  {
    PickedOut(lines, picks, 15, 16, []);
    PickedOut(lines, picks, 14, 16, []);
    PickedOut(lines, picks, 13, 16, []);
    PickedOut(lines, picks, 12, 16, []);
  }

  lemma ExactBIntLinesFrom16(lines: seq<int>, picks: seq<bool>)
    requires |lines| == 19 && |picks| == 19
    requires !picks[16] && lines[16] == 35
    requires !picks[17] && lines[17] == 36
    requires !picks[18] && lines[18] == 37
    ensures PickedRange(lines, picks, 16, 19) == []
  {
    PickedOut(lines, picks, 18, 19, []);
    PickedOut(lines, picks, 17, 19, []);
    PickedOut(lines, picks, 16, 19, []);
  }

  /** `ofType("pkg.C").name("f").withParameters("int")`: the override in `C` and `c.f(42)`. */
  lemma ExactCInt()
    ensures MatchedLines(INHERITANCE_HIERARCHY, Single(C_F_INT), false, INHERITANCE_TREES) == [16, 30]
  {
    ExactCIntJudged();
    ExactCIntPicked();
  }

  lemma ExactCIntPicked()
    ensures PickedRange([4, 5, 9, 12, 16, 20, 25, 26, 27, 28, 29, 30, 31, 32, 33, 34, 35, 36, 37], [false, false, false, false, true, false, false, false, false, false, false, true, false, false, false, false, false, false, false], 0, 19) == [16, 30]
  {
    ExactCIntLines([4, 5, 9, 12, 16, 20, 25, 26, 27, 28, 29, 30, 31, 32, 33, 34, 35, 36, 37], [false, false, false, false, true, false, false, false, false, false, false, true, false, false, false, false, false, false, false]);
  }

  lemma ExactCIntJudged()
    ensures MatchedLines(INHERITANCE_HIERARCHY, Single(C_F_INT), false, INHERITANCE_TREES) == PickedRange([4, 5, 9, 12, 16, 20, 25, 26, 27, 28, 29, 30, 31, 32, 33, 34, 35, 36, 37], [false, false, false, false, true, false, false, false, false, false, false, true, false, false, false, false, false, false, false], 0, 19)
  {
    var hits := [false, false, false, false, true, false, false, false, false, false, false, true, false, false, false, false, false, false, false];
    ExactCIntHitsFrom0(hits);
    ExactCIntHitsFrom4(hits);
    ExactCIntHitsFrom8(hits);
    ExactCIntHitsFrom12(hits);
    ExactCIntHitsFrom16(hits);
    InheritanceTreeLines();
    MatchedLinesPicked(INHERITANCE_HIERARCHY, Single(C_F_INT), false, INHERITANCE_TREES, [4, 5, 9, 12, 16, 20, 25, 26, 27, 28, 29, 30, 31, 32, 33, 34, 35, 36, 37], hits);
  }

  lemma ExactCIntHitsFrom0(hits: seq<bool>)
    requires hits == [false, false, false, false, true, false, false, false, false, false, false, true, false, false, false, false, false, false, false]
    ensures forall k :: 0 <= k < 4 ==> Hit(INHERITANCE_HIERARCHY, Single(C_F_INT), false, INHERITANCE_TREES[k].node) == hits[k]
  {
    forall k | 0 <= k < 4
      ensures Hit(INHERITANCE_HIERARCHY, Single(C_F_INT), false, INHERITANCE_TREES[k].node) == hits[k]
    {
      SingleCriteriaOnTree(INHERITANCE_HIERARCHY, C_F_INT.types[0], C_F_INT.names[0], C_F_INT.parameters[0], INHERITANCE_TREES[k].node);
      ExactParametersOfOne(INHERITANCE_HIERARCHY, ExactType("int"), TreeSubject(INHERITANCE_TREES[k].node).parameters);
    }
  }

  lemma ExactCIntHitsFrom4(hits: seq<bool>)
    requires hits == [false, false, false, false, true, false, false, false, false, false, false, true, false, false, false, false, false, false, false]
    ensures forall k :: 4 <= k < 8 ==> Hit(INHERITANCE_HIERARCHY, Single(C_F_INT), false, INHERITANCE_TREES[k].node) == hits[k]
  {
    forall k | 4 <= k < 8
      ensures Hit(INHERITANCE_HIERARCHY, Single(C_F_INT), false, INHERITANCE_TREES[k].node) == hits[k]
    {
      SingleCriteriaOnTree(INHERITANCE_HIERARCHY, C_F_INT.types[0], C_F_INT.names[0], C_F_INT.parameters[0], INHERITANCE_TREES[k].node);
      ExactParametersOfOne(INHERITANCE_HIERARCHY, ExactType("int"), TreeSubject(INHERITANCE_TREES[k].node).parameters);
    }
  }

  lemma ExactCIntHitsFrom8(hits: seq<bool>)
    requires hits == [false, false, false, false, true, false, false, false, false, false, false, true, false, false, false, false, false, false, false]
    ensures forall k :: 8 <= k < 12 ==> Hit(INHERITANCE_HIERARCHY, Single(C_F_INT), false, INHERITANCE_TREES[k].node) == hits[k]
  {
    forall k | 8 <= k < 12
      ensures Hit(INHERITANCE_HIERARCHY, Single(C_F_INT), false, INHERITANCE_TREES[k].node) == hits[k]
    {
      SingleCriteriaOnTree(INHERITANCE_HIERARCHY, C_F_INT.types[0], C_F_INT.names[0], C_F_INT.parameters[0], INHERITANCE_TREES[k].node);
      ExactParametersOfOne(INHERITANCE_HIERARCHY, ExactType("int"), TreeSubject(INHERITANCE_TREES[k].node).parameters);
    }
  }

  lemma ExactCIntHitsFrom12(hits: seq<bool>)
    requires hits == [false, false, false, false, true, false, false, false, false, false, false, true, false, false, false, false, false, false, false]
    ensures forall k :: 12 <= k < 16 ==> Hit(INHERITANCE_HIERARCHY, Single(C_F_INT), false, INHERITANCE_TREES[k].node) == hits[k]
  {
    forall k | 12 <= k < 16
      ensures Hit(INHERITANCE_HIERARCHY, Single(C_F_INT), false, INHERITANCE_TREES[k].node) == hits[k]
    {
      SingleCriteriaOnTree(INHERITANCE_HIERARCHY, C_F_INT.types[0], C_F_INT.names[0], C_F_INT.parameters[0], INHERITANCE_TREES[k].node);
      ExactParametersOfOne(INHERITANCE_HIERARCHY, ExactType("int"), TreeSubject(INHERITANCE_TREES[k].node).parameters);
    }
  }

  lemma ExactCIntHitsFrom16(hits: seq<bool>)
    requires hits == [false, false, false, false, true, false, false, false, false, false, false, true, false, false, false, false, false, false, false]
    ensures forall k :: 16 <= k < 19 ==> Hit(INHERITANCE_HIERARCHY, Single(C_F_INT), false, INHERITANCE_TREES[k].node) == hits[k]
  {
    forall k | 16 <= k < 19
      ensures Hit(INHERITANCE_HIERARCHY, Single(C_F_INT), false, INHERITANCE_TREES[k].node) == hits[k]
    {
      SingleCriteriaOnTree(INHERITANCE_HIERARCHY, C_F_INT.types[0], C_F_INT.names[0], C_F_INT.parameters[0], INHERITANCE_TREES[k].node);
      ExactParametersOfOne(INHERITANCE_HIERARCHY, ExactType("int"), TreeSubject(INHERITANCE_TREES[k].node).parameters);
    }
  }

  lemma ExactCIntLines(lines: seq<int>, picks: seq<bool>)
    requires |lines| == 19 && |picks| == 19
    requires !picks[0] && lines[0] == 4
    requires !picks[1] && lines[1] == 5
    requires !picks[2] && lines[2] == 9
    requires !picks[3] && lines[3] == 12
    requires picks[4] && lines[4] == 16
    requires !picks[5] && lines[5] == 20
    requires !picks[6] && lines[6] == 25
    requires !picks[7] && lines[7] == 26
    requires !picks[8] && lines[8] == 27
    requires !picks[9] && lines[9] == 28
    requires !picks[10] && lines[10] == 29
    requires picks[11] && lines[11] == 30
    requires !picks[12] && lines[12] == 31
    requires !picks[13] && lines[13] == 32
    requires !picks[14] && lines[14] == 33
    requires !picks[15] && lines[15] == 34
    requires !picks[16] && lines[16] == 35
    requires !picks[17] && lines[17] == 36
    requires !picks[18] && lines[18] == 37
    ensures PickedRange(lines, picks, 0, 19) == [16, 30]
  {
    ExactCIntLinesFrom0(lines, picks);
    ExactCIntLinesFrom4(lines, picks);
    ExactCIntLinesFrom8(lines, picks);
    ExactCIntLinesFrom12(lines, picks);
    ExactCIntLinesFrom16(lines, picks);
    PickedRangeSplit(lines, picks, 0, 16, 19);
    PickedRangeSplit(lines, picks, 0, 12, 16);
    PickedRangeSplit(lines, picks, 0, 8, 12);
    PickedRangeSplit(lines, picks, 0, 4, 8);
    assert [] + [16] + [30] + [] + [] == [16, 30];
  }

  lemma ExactCIntLinesFrom0(lines: seq<int>, picks: seq<bool>)
    requires |lines| == 19 && |picks| == 19
    requires !picks[0] && lines[0] == 4
    requires !picks[1] && lines[1] == 5
    requires !picks[2] && lines[2] == 9
    requires !picks[3] && lines[3] == 12
    ensures PickedRange(lines, picks, 0, 4) == []
  {
    PickedOut(lines, picks, 3, 4, []);
    PickedOut(lines, picks, 2, 4, []);
    PickedOut(lines, picks, 1, 4, []);
    PickedOut(lines, picks, 0, 4, []);
  }

  lemma ExactCIntLinesFrom4(lines: seq<int>, picks: seq<bool>)
    requires |lines| == 19 && |picks| == 19
    requires picks[4] && lines[4] == 16
    requires !picks[5] && lines[5] == 20
    requires !picks[6] && lines[6] == 25
    requires !picks[7] && lines[7] == 26
    ensures PickedRange(lines, picks, 4, 8) == [16]
  {
    PickedOut(lines, picks, 7, 8, []);
    PickedOut(lines, picks, 6, 8, []);
    PickedOut(lines, picks, 5, 8, []);
    PickedIn(lines, picks, 4, 8, 16, []);
  }

  lemma ExactCIntLinesFrom8(lines: seq<int>, picks: seq<bool>)
    requires |lines| == 19 && |picks| == 19
    requires !picks[8] && lines[8] == 27
    requires !picks[9] && lines[9] == 28
    requires !picks[10] && lines[10] == 29
    requires picks[11] && lines[11] == 30
    ensures PickedRange(lines, picks, 8, 12) == [30]
  {
    PickedIn(lines, picks, 11, 12, 30, []);
    PickedOut(lines, picks, 10, 12, [30]);
    PickedOut(lines, picks, 9, 12, [30]);
    PickedOut(lines, picks, 8, 12, [30]);
  }

  lemma ExactCIntLinesFrom12(lines: seq<int>, picks: seq<bool>)
    requires |lines| == 19 && |picks| == 19
    requires !picks[12] && lines[12] == 31
    requires !picks[13] && lines[13] == 32
    requires !picks[14] && lines[14] == 33
    requires !picks[15] && lines[15] == 34
    ensures PickedRange(lines, picks, 12, 16) == []
  {
    PickedOut(lines, picks, 15, 16, []);
    PickedOut(lines, picks, 14, 16, []);
    PickedOut(lines, picks, 13, 16, []);
    PickedOut(lines, picks, 12, 16, []);
  }

  lemma ExactCIntLinesFrom16(lines: seq<int>, picks: seq<bool>)
    requires |lines| == 19 && |picks| == 19
    requires !picks[16] && lines[16] == 35
    requires !picks[17] && lines[17] == 36
    requires !picks[18] && lines[18] == 37
    ensures PickedRange(lines, picks, 16, 19) == []
  {
    PickedOut(lines, picks, 18, 19, []);
    PickedOut(lines, picks, 17, 19, []);
    PickedOut(lines, picks, 16, 19, []);
  }

  /** `ofSubType("pkg.D").name("f").withParameters("int")`: through receivers of type `D`, `E` and `F` only. */
  lemma SubtypeOfDInt()
    ensures MatchedLines(INHERITANCE_HIERARCHY, Single(SUB_D_F_INT), false, INHERITANCE_TREES) == [20, 31, 32, 33, 35, 36]
  {
    SubtypeOfDIntJudged();
    SubtypeOfDIntPicked();
  }

  lemma SubtypeOfDIntPicked()
    ensures PickedRange([4, 5, 9, 12, 16, 20, 25, 26, 27, 28, 29, 30, 31, 32, 33, 34, 35, 36, 37], [false, false, false, false, false, true, false, false, false, false, false, false, true, true, true, false, true, true, false], 0, 19) == [20, 31, 32, 33, 35, 36]
  {
    SubtypeOfDIntLines([4, 5, 9, 12, 16, 20, 25, 26, 27, 28, 29, 30, 31, 32, 33, 34, 35, 36, 37], [false, false, false, false, false, true, false, false, false, false, false, false, true, true, true, false, true, true, false]);
  }

  lemma SubtypeOfDIntJudged()
    ensures MatchedLines(INHERITANCE_HIERARCHY, Single(SUB_D_F_INT), false, INHERITANCE_TREES) == PickedRange([4, 5, 9, 12, 16, 20, 25, 26, 27, 28, 29, 30, 31, 32, 33, 34, 35, 36, 37], [false, false, false, false, false, true, false, false, false, false, false, false, true, true, true, false, true, true, false], 0, 19)
  {
    var hits := [false, false, false, false, false, true, false, false, false, false, false, false, true, true, true, false, true, true, false];
    SubtypeOfDIntHitsFrom0(hits);
    SubtypeOfDIntHitsFrom4(hits);
    SubtypeOfDIntHitsFrom8(hits);
    SubtypeOfDIntHitsFrom12(hits);
    SubtypeOfDIntHitsFrom16(hits);
    InheritanceTreeLines();
    MatchedLinesPicked(INHERITANCE_HIERARCHY, Single(SUB_D_F_INT), false, INHERITANCE_TREES, [4, 5, 9, 12, 16, 20, 25, 26, 27, 28, 29, 30, 31, 32, 33, 34, 35, 36, 37], hits);
  }

  lemma SubtypeOfDIntHitsFrom0(hits: seq<bool>)
    requires hits == [false, false, false, false, false, true, false, false, false, false, false, false, true, true, true, false, true, true, false]
    ensures forall k :: 0 <= k < 4 ==> Hit(INHERITANCE_HIERARCHY, Single(SUB_D_F_INT), false, INHERITANCE_TREES[k].node) == hits[k]
  {
    forall t | t in {OBJECT, "pkg.A", "pkg.I", "pkg.J", "pkg.B", "pkg.C", "pkg.D", "pkg.E", "pkg.F", "pkg.Main"}
      ensures IsSubtype(INHERITANCE_HIERARCHY, t, "pkg.D") <==> t in {"pkg.D", "pkg.E", "pkg.F"}
    {
      SubtypesOfD(t);
    }
    forall k | 0 <= k < 4
      ensures Hit(INHERITANCE_HIERARCHY, Single(SUB_D_F_INT), false, INHERITANCE_TREES[k].node) == hits[k]
    {
      SingleCriteriaOnTree(INHERITANCE_HIERARCHY, SUB_D_F_INT.types[0], SUB_D_F_INT.names[0], SUB_D_F_INT.parameters[0], INHERITANCE_TREES[k].node);
      ExactParametersOfOne(INHERITANCE_HIERARCHY, ExactType("int"), TreeSubject(INHERITANCE_TREES[k].node).parameters);
    }
  }

  lemma SubtypeOfDIntHitsFrom4(hits: seq<bool>)
    requires hits == [false, false, false, false, false, true, false, false, false, false, false, false, true, true, true, false, true, true, false]
    ensures forall k :: 4 <= k < 8 ==> Hit(INHERITANCE_HIERARCHY, Single(SUB_D_F_INT), false, INHERITANCE_TREES[k].node) == hits[k]
  {
    forall t | t in {OBJECT, "pkg.A", "pkg.I", "pkg.J", "pkg.B", "pkg.C", "pkg.D", "pkg.E", "pkg.F", "pkg.Main"}
      ensures IsSubtype(INHERITANCE_HIERARCHY, t, "pkg.D") <==> t in {"pkg.D", "pkg.E", "pkg.F"}
    {
      SubtypesOfD(t);
    }
    forall k | 4 <= k < 8
      ensures Hit(INHERITANCE_HIERARCHY, Single(SUB_D_F_INT), false, INHERITANCE_TREES[k].node) == hits[k]
    {
      SingleCriteriaOnTree(INHERITANCE_HIERARCHY, SUB_D_F_INT.types[0], SUB_D_F_INT.names[0], SUB_D_F_INT.parameters[0], INHERITANCE_TREES[k].node);
      ExactParametersOfOne(INHERITANCE_HIERARCHY, ExactType("int"), TreeSubject(INHERITANCE_TREES[k].node).parameters);
    }
  }

  lemma SubtypeOfDIntHitsFrom8(hits: seq<bool>)
    requires hits == [false, false, false, false, false, true, false, false, false, false, false, false, true, true, true, false, true, true, false]
    ensures forall k :: 8 <= k < 12 ==> Hit(INHERITANCE_HIERARCHY, Single(SUB_D_F_INT), false, INHERITANCE_TREES[k].node) == hits[k]
  {
    forall t | t in {OBJECT, "pkg.A", "pkg.I", "pkg.J", "pkg.B", "pkg.C", "pkg.D", "pkg.E", "pkg.F", "pkg.Main"}
      ensures IsSubtype(INHERITANCE_HIERARCHY, t, "pkg.D") <==> t in {"pkg.D", "pkg.E", "pkg.F"}
    {
      SubtypesOfD(t);
    }
    forall k | 8 <= k < 12
      ensures Hit(INHERITANCE_HIERARCHY, Single(SUB_D_F_INT), false, INHERITANCE_TREES[k].node) == hits[k]
    {
      SingleCriteriaOnTree(INHERITANCE_HIERARCHY, SUB_D_F_INT.types[0], SUB_D_F_INT.names[0], SUB_D_F_INT.parameters[0], INHERITANCE_TREES[k].node);
      ExactParametersOfOne(INHERITANCE_HIERARCHY, ExactType("int"), TreeSubject(INHERITANCE_TREES[k].node).parameters);
    }
  }

  lemma SubtypeOfDIntHitsFrom12(hits: seq<bool>)
    requires hits == [false, false, false, false, false, true, false, false, false, false, false, false, true, true, true, false, true, true, false]
    ensures forall k :: 12 <= k < 16 ==> Hit(INHERITANCE_HIERARCHY, Single(SUB_D_F_INT), false, INHERITANCE_TREES[k].node) == hits[k]
  {
    forall t | t in {OBJECT, "pkg.A", "pkg.I", "pkg.J", "pkg.B", "pkg.C", "pkg.D", "pkg.E", "pkg.F", "pkg.Main"}
      ensures IsSubtype(INHERITANCE_HIERARCHY, t, "pkg.D") <==> t in {"pkg.D", "pkg.E", "pkg.F"}
    {
      SubtypesOfD(t);
    }
    forall k | 12 <= k < 16
      ensures Hit(INHERITANCE_HIERARCHY, Single(SUB_D_F_INT), false, INHERITANCE_TREES[k].node) == hits[k]
    {
      SingleCriteriaOnTree(INHERITANCE_HIERARCHY, SUB_D_F_INT.types[0], SUB_D_F_INT.names[0], SUB_D_F_INT.parameters[0], INHERITANCE_TREES[k].node);
      ExactParametersOfOne(INHERITANCE_HIERARCHY, ExactType("int"), TreeSubject(INHERITANCE_TREES[k].node).parameters);
    }
  }

  lemma SubtypeOfDIntHitsFrom16(hits: seq<bool>)
    requires hits == [false, false, false, false, false, true, false, false, false, false, false, false, true, true, true, false, true, true, false]
    ensures forall k :: 16 <= k < 19 ==> Hit(INHERITANCE_HIERARCHY, Single(SUB_D_F_INT), false, INHERITANCE_TREES[k].node) == hits[k]
  {
    forall t | t in {OBJECT, "pkg.A", "pkg.I", "pkg.J", "pkg.B", "pkg.C", "pkg.D", "pkg.E", "pkg.F", "pkg.Main"}
      ensures IsSubtype(INHERITANCE_HIERARCHY, t, "pkg.D") <==> t in {"pkg.D", "pkg.E", "pkg.F"}
    {
      SubtypesOfD(t);
    }
    forall k | 16 <= k < 19
      ensures Hit(INHERITANCE_HIERARCHY, Single(SUB_D_F_INT), false, INHERITANCE_TREES[k].node) == hits[k]
    {
      SingleCriteriaOnTree(INHERITANCE_HIERARCHY, SUB_D_F_INT.types[0], SUB_D_F_INT.names[0], SUB_D_F_INT.parameters[0], INHERITANCE_TREES[k].node);
      ExactParametersOfOne(INHERITANCE_HIERARCHY, ExactType("int"), TreeSubject(INHERITANCE_TREES[k].node).parameters);
    }
  }

  lemma SubtypeOfDIntLines(lines: seq<int>, picks: seq<bool>)
    requires |lines| == 19 && |picks| == 19
    requires !picks[0] && lines[0] == 4
    requires !picks[1] && lines[1] == 5
    requires !picks[2] && lines[2] == 9
    requires !picks[3] && lines[3] == 12
    requires !picks[4] && lines[4] == 16
    requires picks[5] && lines[5] == 20
    requires !picks[6] && lines[6] == 25
    requires !picks[7] && lines[7] == 26
    requires !picks[8] && lines[8] == 27
    requires !picks[9] && lines[9] == 28
    requires !picks[10] && lines[10] == 29
    requires !picks[11] && lines[11] == 30
    requires picks[12] && lines[12] == 31
    requires picks[13] && lines[13] == 32
    requires picks[14] && lines[14] == 33
    requires !picks[15] && lines[15] == 34
    requires picks[16] && lines[16] == 35
    requires picks[17] && lines[17] == 36
    requires !picks[18] && lines[18] == 37
    ensures PickedRange(lines, picks, 0, 19) == [20, 31, 32, 33, 35, 36]
  {
    SubtypeOfDIntLinesFrom0(lines, picks);
    SubtypeOfDIntLinesFrom4(lines, picks);
    SubtypeOfDIntLinesFrom8(lines, picks);
    SubtypeOfDIntLinesFrom12(lines, picks);
    SubtypeOfDIntLinesFrom16(lines, picks);
    PickedRangeSplit(lines, picks, 0, 16, 19);
    PickedRangeSplit(lines, picks, 0, 12, 16);
    PickedRangeSplit(lines, picks, 0, 8, 12);
    PickedRangeSplit(lines, picks, 0, 4, 8);
    assert [] + [20] + [] + [31, 32, 33] + [35, 36] == [20, 31, 32, 33, 35, 36];
  }

  lemma SubtypeOfDIntLinesFrom0(lines: seq<int>, picks: seq<bool>)
    requires |lines| == 19 && |picks| == 19
    requires !picks[0] && lines[0] == 4
    requires !picks[1] && lines[1] == 5
    requires !picks[2] && lines[2] == 9
    requires !picks[3] && lines[3] == 12
    ensures PickedRange(lines, picks, 0, 4) == []
  {
    PickedOut(lines, picks, 3, 4, []);
    PickedOut(lines, picks, 2, 4, []);
    PickedOut(lines, picks, 1, 4, []);
    PickedOut(lines, picks, 0, 4, []);
  }

  lemma SubtypeOfDIntLinesFrom4(lines: seq<int>, picks: seq<bool>)
    requires |lines| == 19 && |picks| == 19
    requires !picks[4] && lines[4] == 16
    requires picks[5] && lines[5] == 20
    requires !picks[6] && lines[6] == 25
    requires !picks[7] && lines[7] == 26
    ensures PickedRange(lines, picks, 4, 8) == [20]
  {
    PickedOut(lines, picks, 7, 8, []);
    PickedOut(lines, picks, 6, 8, []);
    PickedIn(lines, picks, 5, 8, 20, []);
    PickedOut(lines, picks, 4, 8, [20]);
  }

  lemma SubtypeOfDIntLinesFrom8(lines: seq<int>, picks: seq<bool>)
    requires |lines| == 19 && |picks| == 19
    requires !picks[8] && lines[8] == 27
    requires !picks[9] && lines[9] == 28
    requires !picks[10] && lines[10] == 29
    requires !picks[11] && lines[11] == 30
    ensures PickedRange(lines, picks, 8, 12) == []
  {
    PickedOut(lines, picks, 11, 12, []);
    PickedOut(lines, picks, 10, 12, []);
    PickedOut(lines, picks, 9, 12, []);
    PickedOut(lines, picks, 8, 12, []);
  }

  lemma SubtypeOfDIntLinesFrom12(lines: seq<int>, picks: seq<bool>)
    requires |lines| == 19 && |picks| == 19
    requires picks[12] && lines[12] == 31
    requires picks[13] && lines[13] == 32
    requires picks[14] && lines[14] == 33
    requires !picks[15] && lines[15] == 34
    ensures PickedRange(lines, picks, 12, 16) == [31, 32, 33]
  {
    PickedOut(lines, picks, 15, 16, []);
    PickedIn(lines, picks, 14, 16, 33, []);
    PickedIn(lines, picks, 13, 16, 32, [33]);
    PickedIn(lines, picks, 12, 16, 31, [32, 33]);
  }

  lemma SubtypeOfDIntLinesFrom16(lines: seq<int>, picks: seq<bool>)
    requires |lines| == 19 && |picks| == 19
    requires picks[16] && lines[16] == 35
    requires picks[17] && lines[17] == 36
    requires !picks[18] && lines[18] == 37
    ensures PickedRange(lines, picks, 16, 19) == [35, 36]
  {
    PickedOut(lines, picks, 18, 19, []);
    PickedIn(lines, picks, 17, 19, 36, []);
    PickedIn(lines, picks, 16, 19, 35, [36]);
  }

  /** `ofType("pkg.D").name("f").withParameters("int")`: the owner tested is the receiver's static type, so `e.f(42)` and `e::f` are not matched although they invoke `D.f`. */
  lemma ExactDInt()
    ensures MatchedLines(INHERITANCE_HIERARCHY, Single(D_F_INT), false, INHERITANCE_TREES) == [20, 31, 35]
  {
    ExactDIntJudged();
    ExactDIntPicked();
  }

  lemma ExactDIntPicked()
    ensures PickedRange([4, 5, 9, 12, 16, 20, 25, 26, 27, 28, 29, 30, 31, 32, 33, 34, 35, 36, 37], [false, false, false, false, false, true, false, false, false, false, false, false, true, false, false, false, true, false, false], 0, 19) == [20, 31, 35]
  {
    ExactDIntLines([4, 5, 9, 12, 16, 20, 25, 26, 27, 28, 29, 30, 31, 32, 33, 34, 35, 36, 37], [false, false, false, false, false, true, false, false, false, false, false, false, true, false, false, false, true, false, false]);
  }

  lemma ExactDIntJudged()
    ensures MatchedLines(INHERITANCE_HIERARCHY, Single(D_F_INT), false, INHERITANCE_TREES) == PickedRange([4, 5, 9, 12, 16, 20, 25, 26, 27, 28, 29, 30, 31, 32, 33, 34, 35, 36, 37], [false, false, false, false, false, true, false, false, false, false, false, false, true, false, false, false, true, false, false], 0, 19)
  {
    var hits := [false, false, false, false, false, true, false, false, false, false, false, false, true, false, false, false, true, false, false];
    ExactDIntHitsFrom0(hits);
    ExactDIntHitsFrom4(hits);
    ExactDIntHitsFrom8(hits);
    ExactDIntHitsFrom12(hits);
    ExactDIntHitsFrom16(hits);
    InheritanceTreeLines();
    MatchedLinesPicked(INHERITANCE_HIERARCHY, Single(D_F_INT), false, INHERITANCE_TREES, [4, 5, 9, 12, 16, 20, 25, 26, 27, 28, 29, 30, 31, 32, 33, 34, 35, 36, 37], hits);
  }

  lemma ExactDIntHitsFrom0(hits: seq<bool>)
    requires hits == [false, false, false, false, false, true, false, false, false, false, false, false, true, false, false, false, true, false, false]
    ensures forall k :: 0 <= k < 4 ==> Hit(INHERITANCE_HIERARCHY, Single(D_F_INT), false, INHERITANCE_TREES[k].node) == hits[k]
  {
    forall k | 0 <= k < 4
      ensures Hit(INHERITANCE_HIERARCHY, Single(D_F_INT), false, INHERITANCE_TREES[k].node) == hits[k]
    {
      SingleCriteriaOnTree(INHERITANCE_HIERARCHY, D_F_INT.types[0], D_F_INT.names[0], D_F_INT.parameters[0], INHERITANCE_TREES[k].node);
      ExactParametersOfOne(INHERITANCE_HIERARCHY, ExactType("int"), TreeSubject(INHERITANCE_TREES[k].node).parameters);
    }
  }

  lemma ExactDIntHitsFrom4(hits: seq<bool>)
    requires hits == [false, false, false, false, false, true, false, false, false, false, false, false, true, false, false, false, true, false, false]
    ensures forall k :: 4 <= k < 8 ==> Hit(INHERITANCE_HIERARCHY, Single(D_F_INT), false, INHERITANCE_TREES[k].node) == hits[k]
  {
    forall k | 4 <= k < 8
      ensures Hit(INHERITANCE_HIERARCHY, Single(D_F_INT), false, INHERITANCE_TREES[k].node) == hits[k]
    {
      SingleCriteriaOnTree(INHERITANCE_HIERARCHY, D_F_INT.types[0], D_F_INT.names[0], D_F_INT.parameters[0], INHERITANCE_TREES[k].node);
      ExactParametersOfOne(INHERITANCE_HIERARCHY, ExactType("int"), TreeSubject(INHERITANCE_TREES[k].node).parameters);
    }
  }

  lemma ExactDIntHitsFrom8(hits: seq<bool>)
    requires hits == [false, false, false, false, false, true, false, false, false, false, false, false, true, false, false, false, true, false, false]
    ensures forall k :: 8 <= k < 12 ==> Hit(INHERITANCE_HIERARCHY, Single(D_F_INT), false, INHERITANCE_TREES[k].node) == hits[k]
  {
    forall k | 8 <= k < 12
      ensures Hit(INHERITANCE_HIERARCHY, Single(D_F_INT), false, INHERITANCE_TREES[k].node) == hits[k]
    {
      SingleCriteriaOnTree(INHERITANCE_HIERARCHY, D_F_INT.types[0], D_F_INT.names[0], D_F_INT.parameters[0], INHERITANCE_TREES[k].node);
      ExactParametersOfOne(INHERITANCE_HIERARCHY, ExactType("int"), TreeSubject(INHERITANCE_TREES[k].node).parameters);
    }
  }

  lemma ExactDIntHitsFrom12(hits: seq<bool>)
    requires hits == [false, false, false, false, false, true, false, false, false, false, false, false, true, false, false, false, true, false, false]
    ensures forall k :: 12 <= k < 16 ==> Hit(INHERITANCE_HIERARCHY, Single(D_F_INT), false, INHERITANCE_TREES[k].node) == hits[k]
  {
    forall k | 12 <= k < 16
      ensures Hit(INHERITANCE_HIERARCHY, Single(D_F_INT), false, INHERITANCE_TREES[k].node) == hits[k]
    {
      SingleCriteriaOnTree(INHERITANCE_HIERARCHY, D_F_INT.types[0], D_F_INT.names[0], D_F_INT.parameters[0], INHERITANCE_TREES[k].node);
      ExactParametersOfOne(INHERITANCE_HIERARCHY, ExactType("int"), TreeSubject(INHERITANCE_TREES[k].node).parameters);
    }
  }

  lemma ExactDIntHitsFrom16(hits: seq<bool>)
    requires hits == [false, false, false, false, false, true, false, false, false, false, false, false, true, false, false, false, true, false, false]
    ensures forall k :: 16 <= k < 19 ==> Hit(INHERITANCE_HIERARCHY, Single(D_F_INT), false, INHERITANCE_TREES[k].node) == hits[k]
  {
    forall k | 16 <= k < 19
      ensures Hit(INHERITANCE_HIERARCHY, Single(D_F_INT), false, INHERITANCE_TREES[k].node) == hits[k]
    {
      SingleCriteriaOnTree(INHERITANCE_HIERARCHY, D_F_INT.types[0], D_F_INT.names[0], D_F_INT.parameters[0], INHERITANCE_TREES[k].node);
      ExactParametersOfOne(INHERITANCE_HIERARCHY, ExactType("int"), TreeSubject(INHERITANCE_TREES[k].node).parameters);
    }
  }

  lemma ExactDIntLines(lines: seq<int>, picks: seq<bool>)
    requires |lines| == 19 && |picks| == 19
    requires !picks[0] && lines[0] == 4
    requires !picks[1] && lines[1] == 5
    requires !picks[2] && lines[2] == 9
    requires !picks[3] && lines[3] == 12
    requires !picks[4] && lines[4] == 16
    requires picks[5] && lines[5] == 20
    requires !picks[6] && lines[6] == 25
    requires !picks[7] && lines[7] == 26
    requires !picks[8] && lines[8] == 27
    requires !picks[9] && lines[9] == 28
    requires !picks[10] && lines[10] == 29
    requires !picks[11] && lines[11] == 30
    requires picks[12] && lines[12] == 31
    requires !picks[13] && lines[13] == 32
    requires !picks[14] && lines[14] == 33
    requires !picks[15] && lines[15] == 34
    requires picks[16] && lines[16] == 35
    requires !picks[17] && lines[17] == 36
    requires !picks[18] && lines[18] == 37
    ensures PickedRange(lines, picks, 0, 19) == [20, 31, 35]
  {
    ExactDIntLinesFrom0(lines, picks);
    ExactDIntLinesFrom4(lines, picks);
    ExactDIntLinesFrom8(lines, picks);
    ExactDIntLinesFrom12(lines, picks);
    ExactDIntLinesFrom16(lines, picks);
    PickedRangeSplit(lines, picks, 0, 16, 19);
    PickedRangeSplit(lines, picks, 0, 12, 16);
    PickedRangeSplit(lines, picks, 0, 8, 12);
    PickedRangeSplit(lines, picks, 0, 4, 8);
    assert [] + [20] + [] + [31] + [35] == [20, 31, 35];
  }

  lemma ExactDIntLinesFrom0(lines: seq<int>, picks: seq<bool>)
    requires |lines| == 19 && |picks| == 19
    requires !picks[0] && lines[0] == 4
    requires !picks[1] && lines[1] == 5
    requires !picks[2] && lines[2] == 9
    requires !picks[3] && lines[3] == 12
    ensures PickedRange(lines, picks, 0, 4) == []
  {
    PickedOut(lines, picks, 3, 4, []);
    PickedOut(lines, picks, 2, 4, []);
    PickedOut(lines, picks, 1, 4, []);
    PickedOut(lines, picks, 0, 4, []);
  }

  lemma ExactDIntLinesFrom4(lines: seq<int>, picks: seq<bool>)
    requires |lines| == 19 && |picks| == 19
    requires !picks[4] && lines[4] == 16
    requires picks[5] && lines[5] == 20
    requires !picks[6] && lines[6] == 25
    requires !picks[7] && lines[7] == 26
    ensures PickedRange(lines, picks, 4, 8) == [20]
  {
    PickedOut(lines, picks, 7, 8, []);
    PickedOut(lines, picks, 6, 8, []);
    PickedIn(lines, picks, 5, 8, 20, []);
    PickedOut(lines, picks, 4, 8, [20]);
  }

  lemma ExactDIntLinesFrom8(lines: seq<int>, picks: seq<bool>)
    requires |lines| == 19 && |picks| == 19
    requires !picks[8] && lines[8] == 27
    requires !picks[9] && lines[9] == 28
    requires !picks[10] && lines[10] == 29
    requires !picks[11] && lines[11] == 30
    ensures PickedRange(lines, picks, 8, 12) == []
  {
    PickedOut(lines, picks, 11, 12, []);
    PickedOut(lines, picks, 10, 12, []);
    PickedOut(lines, picks, 9, 12, []);
    PickedOut(lines, picks, 8, 12, []);
  }

  lemma ExactDIntLinesFrom12(lines: seq<int>, picks: seq<bool>)
    requires |lines| == 19 && |picks| == 19
    requires picks[12] && lines[12] == 31
    requires !picks[13] && lines[13] == 32
    requires !picks[14] && lines[14] == 33
    requires !picks[15] && lines[15] == 34
    ensures PickedRange(lines, picks, 12, 16) == [31]
  {
    PickedOut(lines, picks, 15, 16, []);
    PickedOut(lines, picks, 14, 16, []);
    PickedOut(lines, picks, 13, 16, []);
    PickedIn(lines, picks, 12, 16, 31, []);
  }

  lemma ExactDIntLinesFrom16(lines: seq<int>, picks: seq<bool>)
    requires |lines| == 19 && |picks| == 19
    requires picks[16] && lines[16] == 35
    requires !picks[17] && lines[17] == 36
    requires !picks[18] && lines[18] == 37
    ensures PickedRange(lines, picks, 16, 19) == [35]
  {
    PickedOut(lines, picks, 18, 19, []);
    PickedOut(lines, picks, 17, 19, []);
    PickedIn(lines, picks, 16, 19, 35, []);
  }

  /** `ofType("pkg.E").name("f").withParameters("int")`: `e.f(42)` and `e::f`, though `E` declares no `f`. */
  lemma ExactEInt()
    ensures MatchedLines(INHERITANCE_HIERARCHY, Single(E_F_INT), false, INHERITANCE_TREES) == [32, 36]
  {
    ExactEIntJudged();
    ExactEIntPicked();
  }

  lemma ExactEIntPicked()
    ensures PickedRange([4, 5, 9, 12, 16, 20, 25, 26, 27, 28, 29, 30, 31, 32, 33, 34, 35, 36, 37], [false, false, false, false, false, false, false, false, false, false, false, false, false, true, false, false, false, true, false], 0, 19) == [32, 36]
  {
    ExactEIntLines([4, 5, 9, 12, 16, 20, 25, 26, 27, 28, 29, 30, 31, 32, 33, 34, 35, 36, 37], [false, false, false, false, false, false, false, false, false, false, false, false, false, true, false, false, false, true, false]);
  }

  lemma ExactEIntJudged()
    ensures MatchedLines(INHERITANCE_HIERARCHY, Single(E_F_INT), false, INHERITANCE_TREES) == PickedRange([4, 5, 9, 12, 16, 20, 25, 26, 27, 28, 29, 30, 31, 32, 33, 34, 35, 36, 37], [false, false, false, false, false, false, false, false, false, false, false, false, false, true, false, false, false, true, false], 0, 19)
  {
    var hits := [false, false, false, false, false, false, false, false, false, false, false, false, false, true, false, false, false, true, false];
    ExactEIntHitsFrom0(hits);
    ExactEIntHitsFrom4(hits);
    ExactEIntHitsFrom8(hits);
    ExactEIntHitsFrom12(hits);
    ExactEIntHitsFrom16(hits);
    InheritanceTreeLines();
    MatchedLinesPicked(INHERITANCE_HIERARCHY, Single(E_F_INT), false, INHERITANCE_TREES, [4, 5, 9, 12, 16, 20, 25, 26, 27, 28, 29, 30, 31, 32, 33, 34, 35, 36, 37], hits);
  }

  lemma ExactEIntHitsFrom0(hits: seq<bool>)
    requires hits == [false, false, false, false, false, false, false, false, false, false, false, false, false, true, false, false, false, true, false]
    ensures forall k :: 0 <= k < 4 ==> Hit(INHERITANCE_HIERARCHY, Single(E_F_INT), false, INHERITANCE_TREES[k].node) == hits[k]
  {
    forall k | 0 <= k < 4
      ensures Hit(INHERITANCE_HIERARCHY, Single(E_F_INT), false, INHERITANCE_TREES[k].node) == hits[k]
    {
      SingleCriteriaOnTree(INHERITANCE_HIERARCHY, E_F_INT.types[0], E_F_INT.names[0], E_F_INT.parameters[0], INHERITANCE_TREES[k].node);
      ExactParametersOfOne(INHERITANCE_HIERARCHY, ExactType("int"), TreeSubject(INHERITANCE_TREES[k].node).parameters);
    }
  }

  lemma ExactEIntHitsFrom4(hits: seq<bool>)
    requires hits == [false, false, false, false, false, false, false, false, false, false, false, false, false, true, false, false, false, true, false]
    ensures forall k :: 4 <= k < 8 ==> Hit(INHERITANCE_HIERARCHY, Single(E_F_INT), false, INHERITANCE_TREES[k].node) == hits[k]
  {
    forall k | 4 <= k < 8
      ensures Hit(INHERITANCE_HIERARCHY, Single(E_F_INT), false, INHERITANCE_TREES[k].node) == hits[k]
    {
      SingleCriteriaOnTree(INHERITANCE_HIERARCHY, E_F_INT.types[0], E_F_INT.names[0], E_F_INT.parameters[0], INHERITANCE_TREES[k].node);
      ExactParametersOfOne(INHERITANCE_HIERARCHY, ExactType("int"), TreeSubject(INHERITANCE_TREES[k].node).parameters);
    }
  }

  lemma ExactEIntHitsFrom8(hits: seq<bool>)
    requires hits == [false, false, false, false, false, false, false, false, false, false, false, false, false, true, false, false, false, true, false]
    ensures forall k :: 8 <= k < 12 ==> Hit(INHERITANCE_HIERARCHY, Single(E_F_INT), false, INHERITANCE_TREES[k].node) == hits[k]
  {
    forall k | 8 <= k < 12
      ensures Hit(INHERITANCE_HIERARCHY, Single(E_F_INT), false, INHERITANCE_TREES[k].node) == hits[k]
    {
      SingleCriteriaOnTree(INHERITANCE_HIERARCHY, E_F_INT.types[0], E_F_INT.names[0], E_F_INT.parameters[0], INHERITANCE_TREES[k].node);
      ExactParametersOfOne(INHERITANCE_HIERARCHY, ExactType("int"), TreeSubject(INHERITANCE_TREES[k].node).parameters);
    }
  }

  lemma ExactEIntHitsFrom12(hits: seq<bool>)
    requires hits == [false, false, false, false, false, false, false, false, false, false, false, false, false, true, false, false, false, true, false]
    ensures forall k :: 12 <= k < 16 ==> Hit(INHERITANCE_HIERARCHY, Single(E_F_INT), false, INHERITANCE_TREES[k].node) == hits[k]
  {
    forall k | 12 <= k < 16
      ensures Hit(INHERITANCE_HIERARCHY, Single(E_F_INT), false, INHERITANCE_TREES[k].node) == hits[k]
    {
      SingleCriteriaOnTree(INHERITANCE_HIERARCHY, E_F_INT.types[0], E_F_INT.names[0], E_F_INT.parameters[0], INHERITANCE_TREES[k].node);
      ExactParametersOfOne(INHERITANCE_HIERARCHY, ExactType("int"), TreeSubject(INHERITANCE_TREES[k].node).parameters);
    }
  }

  lemma ExactEIntHitsFrom16(hits: seq<bool>)
    requires hits == [false, false, false, false, false, false, false, false, false, false, false, false, false, true, false, false, false, true, false]
    ensures forall k :: 16 <= k < 19 ==> Hit(INHERITANCE_HIERARCHY, Single(E_F_INT), false, INHERITANCE_TREES[k].node) == hits[k]
  {
    forall k | 16 <= k < 19
      ensures Hit(INHERITANCE_HIERARCHY, Single(E_F_INT), false, INHERITANCE_TREES[k].node) == hits[k]
    {
      SingleCriteriaOnTree(INHERITANCE_HIERARCHY, E_F_INT.types[0], E_F_INT.names[0], E_F_INT.parameters[0], INHERITANCE_TREES[k].node);
      ExactParametersOfOne(INHERITANCE_HIERARCHY, ExactType("int"), TreeSubject(INHERITANCE_TREES[k].node).parameters);
    }
  }

  lemma ExactEIntLines(lines: seq<int>, picks: seq<bool>)
    requires |lines| == 19 && |picks| == 19
    requires !picks[0] && lines[0] == 4
    requires !picks[1] && lines[1] == 5
    requires !picks[2] && lines[2] == 9
    requires !picks[3] && lines[3] == 12
    requires !picks[4] && lines[4] == 16
    requires !picks[5] && lines[5] == 20
    requires !picks[6] && lines[6] == 25
    requires !picks[7] && lines[7] == 26
    requires !picks[8] && lines[8] == 27
    requires !picks[9] && lines[9] == 28
    requires !picks[10] && lines[10] == 29
    requires !picks[11] && lines[11] == 30
    requires !picks[12] && lines[12] == 31
    requires picks[13] && lines[13] == 32
    requires !picks[14] && lines[14] == 33
    requires !picks[15] && lines[15] == 34
    requires !picks[16] && lines[16] == 35
    requires picks[17] && lines[17] == 36
    requires !picks[18] && lines[18] == 37
    ensures PickedRange(lines, picks, 0, 19) == [32, 36]
  {
    ExactEIntLinesFrom0(lines, picks);
    ExactEIntLinesFrom4(lines, picks);
    ExactEIntLinesFrom8(lines, picks);
    ExactEIntLinesFrom12(lines, picks);
    ExactEIntLinesFrom16(lines, picks);
    PickedRangeSplit(lines, picks, 0, 16, 19);
    PickedRangeSplit(lines, picks, 0, 12, 16);
    PickedRangeSplit(lines, picks, 0, 8, 12);
    PickedRangeSplit(lines, picks, 0, 4, 8);
    assert [] + [] + [] + [32] + [36] == [32, 36];
  }

  lemma ExactEIntLinesFrom0(lines: seq<int>, picks: seq<bool>)
    requires |lines| == 19 && |picks| == 19
    requires !picks[0] && lines[0] == 4
    requires !picks[1] && lines[1] == 5
    requires !picks[2] && lines[2] == 9
    requires !picks[3] && lines[3] == 12
    ensures PickedRange(lines, picks, 0, 4) == []
  {
    PickedOut(lines, picks, 3, 4, []);
    PickedOut(lines, picks, 2, 4, []);
    PickedOut(lines, picks, 1, 4, []);
    PickedOut(lines, picks, 0, 4, []);
  }

  lemma ExactEIntLinesFrom4(lines: seq<int>, picks: seq<bool>)
    requires |lines| == 19 && |picks| == 19
    requires !picks[4] && lines[4] == 16
    requires !picks[5] && lines[5] == 20
    requires !picks[6] && lines[6] == 25
    requires !picks[7] && lines[7] == 26
    ensures PickedRange(lines, picks, 4, 8) == []
  {
    PickedOut(lines, picks, 7, 8, []);
    PickedOut(lines, picks, 6, 8, []);
    PickedOut(lines, picks, 5, 8, []);
    PickedOut(lines, picks, 4, 8, []);
  }

  lemma ExactEIntLinesFrom8(lines: seq<int>, picks: seq<bool>)
    requires |lines| == 19 && |picks| == 19
    requires !picks[8] && lines[8] == 27
    requires !picks[9] && lines[9] == 28
    requires !picks[10] && lines[10] == 29
    requires !picks[11] && lines[11] == 30
    ensures PickedRange(lines, picks, 8, 12) == []
  {
    PickedOut(lines, picks, 11, 12, []);
    PickedOut(lines, picks, 10, 12, []);
    PickedOut(lines, picks, 9, 12, []);
    PickedOut(lines, picks, 8, 12, []);
  }

  lemma ExactEIntLinesFrom12(lines: seq<int>, picks: seq<bool>)
    requires |lines| == 19 && |picks| == 19
    requires !picks[12] && lines[12] == 31
    requires picks[13] && lines[13] == 32
    requires !picks[14] && lines[14] == 33
    requires !picks[15] && lines[15] == 34
    ensures PickedRange(lines, picks, 12, 16) == [32]
  {
    PickedOut(lines, picks, 15, 16, []);
    PickedOut(lines, picks, 14, 16, []);
    PickedIn(lines, picks, 13, 16, 32, []);
    PickedOut(lines, picks, 12, 16, [32]);
  }

  lemma ExactEIntLinesFrom16(lines: seq<int>, picks: seq<bool>)
    requires |lines| == 19 && |picks| == 19
    requires !picks[16] && lines[16] == 35
    requires picks[17] && lines[17] == 36
    requires !picks[18] && lines[18] == 37
    ensures PickedRange(lines, picks, 16, 19) == [36]
  {
    PickedOut(lines, picks, 18, 19, []);
    PickedIn(lines, picks, 17, 19, 36, []);
    PickedOut(lines, picks, 16, 19, [36]);
  }

  /** `ofType("pkg.F").name("f").withParameters("int")`: `f.f(42)` only. */
  lemma ExactFInt()
    ensures MatchedLines(INHERITANCE_HIERARCHY, Single(F_F_INT), false, INHERITANCE_TREES) == [33]
  {
    ExactFIntJudged();
    ExactFIntPicked();
  }

  lemma ExactFIntPicked()
    ensures PickedRange([4, 5, 9, 12, 16, 20, 25, 26, 27, 28, 29, 30, 31, 32, 33, 34, 35, 36, 37], [false, false, false, false, false, false, false, false, false, false, false, false, false, false, true, false, false, false, false], 0, 19) == [33]
  {
    ExactFIntLines([4, 5, 9, 12, 16, 20, 25, 26, 27, 28, 29, 30, 31, 32, 33, 34, 35, 36, 37], [false, false, false, false, false, false, false, false, false, false, false, false, false, false, true, false, false, false, false]);
  }

  lemma ExactFIntJudged()
    ensures MatchedLines(INHERITANCE_HIERARCHY, Single(F_F_INT), false, INHERITANCE_TREES) == PickedRange([4, 5, 9, 12, 16, 20, 25, 26, 27, 28, 29, 30, 31, 32, 33, 34, 35, 36, 37], [false, false, false, false, false, false, false, false, false, false, false, false, false, false, true, false, false, false, false], 0, 19)
  {
    var hits := [false, false, false, false, false, false, false, false, false, false, false, false, false, false, true, false, false, false, false];
    ExactFIntHitsFrom0(hits);
    ExactFIntHitsFrom4(hits);
    ExactFIntHitsFrom8(hits);
    ExactFIntHitsFrom12(hits);
    ExactFIntHitsFrom16(hits);
    InheritanceTreeLines();
    MatchedLinesPicked(INHERITANCE_HIERARCHY, Single(F_F_INT), false, INHERITANCE_TREES, [4, 5, 9, 12, 16, 20, 25, 26, 27, 28, 29, 30, 31, 32, 33, 34, 35, 36, 37], hits);
  }

  lemma ExactFIntHitsFrom0(hits: seq<bool>)
    requires hits == [false, false, false, false, false, false, false, false, false, false, false, false, false, false, true, false, false, false, false]
    ensures forall k :: 0 <= k < 4 ==> Hit(INHERITANCE_HIERARCHY, Single(F_F_INT), false, INHERITANCE_TREES[k].node) == hits[k]
  {
    forall k | 0 <= k < 4
      ensures Hit(INHERITANCE_HIERARCHY, Single(F_F_INT), false, INHERITANCE_TREES[k].node) == hits[k]
    {
      SingleCriteriaOnTree(INHERITANCE_HIERARCHY, F_F_INT.types[0], F_F_INT.names[0], F_F_INT.parameters[0], INHERITANCE_TREES[k].node);
      ExactParametersOfOne(INHERITANCE_HIERARCHY, ExactType("int"), TreeSubject(INHERITANCE_TREES[k].node).parameters);
    }
  }

  lemma ExactFIntHitsFrom4(hits: seq<bool>)
    requires hits == [false, false, false, false, false, false, false, false, false, false, false, false, false, false, true, false, false, false, false]
    ensures forall k :: 4 <= k < 8 ==> Hit(INHERITANCE_HIERARCHY, Single(F_F_INT), false, INHERITANCE_TREES[k].node) == hits[k]
  {
    forall k | 4 <= k < 8
      ensures Hit(INHERITANCE_HIERARCHY, Single(F_F_INT), false, INHERITANCE_TREES[k].node) == hits[k]
    {
      SingleCriteriaOnTree(INHERITANCE_HIERARCHY, F_F_INT.types[0], F_F_INT.names[0], F_F_INT.parameters[0], INHERITANCE_TREES[k].node);
      ExactParametersOfOne(INHERITANCE_HIERARCHY, ExactType("int"), TreeSubject(INHERITANCE_TREES[k].node).parameters);
    }
  }

  lemma ExactFIntHitsFrom8(hits: seq<bool>)
    requires hits == [false, false, false, false, false, false, false, false, false, false, false, false, false, false, true, false, false, false, false]
    ensures forall k :: 8 <= k < 12 ==> Hit(INHERITANCE_HIERARCHY, Single(F_F_INT), false, INHERITANCE_TREES[k].node) == hits[k]
  {
    forall k | 8 <= k < 12
      ensures Hit(INHERITANCE_HIERARCHY, Single(F_F_INT), false, INHERITANCE_TREES[k].node) == hits[k]
    {
      SingleCriteriaOnTree(INHERITANCE_HIERARCHY, F_F_INT.types[0], F_F_INT.names[0], F_F_INT.parameters[0], INHERITANCE_TREES[k].node);
      ExactParametersOfOne(INHERITANCE_HIERARCHY, ExactType("int"), TreeSubject(INHERITANCE_TREES[k].node).parameters);
    }
  }

  lemma ExactFIntHitsFrom12(hits: seq<bool>)
    requires hits == [false, false, false, false, false, false, false, false, false, false, false, false, false, false, true, false, false, false, false]
    ensures forall k :: 12 <= k < 16 ==> Hit(INHERITANCE_HIERARCHY, Single(F_F_INT), false, INHERITANCE_TREES[k].node) == hits[k]
  {
    forall k | 12 <= k < 16
      ensures Hit(INHERITANCE_HIERARCHY, Single(F_F_INT), false, INHERITANCE_TREES[k].node) == hits[k]
    {
      SingleCriteriaOnTree(INHERITANCE_HIERARCHY, F_F_INT.types[0], F_F_INT.names[0], F_F_INT.parameters[0], INHERITANCE_TREES[k].node);
      ExactParametersOfOne(INHERITANCE_HIERARCHY, ExactType("int"), TreeSubject(INHERITANCE_TREES[k].node).parameters);
    }
  }

  lemma ExactFIntHitsFrom16(hits: seq<bool>)
    requires hits == [false, false, false, false, false, false, false, false, false, false, false, false, false, false, true, false, false, false, false]
    ensures forall k :: 16 <= k < 19 ==> Hit(INHERITANCE_HIERARCHY, Single(F_F_INT), false, INHERITANCE_TREES[k].node) == hits[k]
  {
    forall k | 16 <= k < 19
      ensures Hit(INHERITANCE_HIERARCHY, Single(F_F_INT), false, INHERITANCE_TREES[k].node) == hits[k]
    {
      SingleCriteriaOnTree(INHERITANCE_HIERARCHY, F_F_INT.types[0], F_F_INT.names[0], F_F_INT.parameters[0], INHERITANCE_TREES[k].node);
      ExactParametersOfOne(INHERITANCE_HIERARCHY, ExactType("int"), TreeSubject(INHERITANCE_TREES[k].node).parameters);
    }
  }

  lemma ExactFIntLines(lines: seq<int>, picks: seq<bool>)
    requires |lines| == 19 && |picks| == 19
    requires !picks[0] && lines[0] == 4
    requires !picks[1] && lines[1] == 5
    requires !picks[2] && lines[2] == 9
    requires !picks[3] && lines[3] == 12
    requires !picks[4] && lines[4] == 16
    requires !picks[5] && lines[5] == 20
    requires !picks[6] && lines[6] == 25
    requires !picks[7] && lines[7] == 26
    requires !picks[8] && lines[8] == 27
    requires !picks[9] && lines[9] == 28
    requires !picks[10] && lines[10] == 29
    requires !picks[11] && lines[11] == 30
    requires !picks[12] && lines[12] == 31
    requires !picks[13] && lines[13] == 32
    requires picks[14] && lines[14] == 33
    requires !picks[15] && lines[15] == 34
    requires !picks[16] && lines[16] == 35
    requires !picks[17] && lines[17] == 36
    requires !picks[18] && lines[18] == 37
    ensures PickedRange(lines, picks, 0, 19) == [33]
  {
    ExactFIntLinesFrom0(lines, picks);
    ExactFIntLinesFrom4(lines, picks);
    ExactFIntLinesFrom8(lines, picks);
    ExactFIntLinesFrom12(lines, picks);
    ExactFIntLinesFrom16(lines, picks);
    PickedRangeSplit(lines, picks, 0, 16, 19);
    PickedRangeSplit(lines, picks, 0, 12, 16);
    PickedRangeSplit(lines, picks, 0, 8, 12);
    PickedRangeSplit(lines, picks, 0, 4, 8);
    assert [] + [] + [] + [33] + [] == [33];
  }

  lemma ExactFIntLinesFrom0(lines: seq<int>, picks: seq<bool>)
    requires |lines| == 19 && |picks| == 19
    requires !picks[0] && lines[0] == 4
    requires !picks[1] && lines[1] == 5
    requires !picks[2] && lines[2] == 9
    requires !picks[3] && lines[3] == 12
    ensures PickedRange(lines, picks, 0, 4) == []
  {
    PickedOut(lines, picks, 3, 4, []);
    PickedOut(lines, picks, 2, 4, []);
    PickedOut(lines, picks, 1, 4, []);
    PickedOut(lines, picks, 0, 4, []);
  }

  lemma ExactFIntLinesFrom4(lines: seq<int>, picks: seq<bool>)
    requires |lines| == 19 && |picks| == 19
    requires !picks[4] && lines[4] == 16
    requires !picks[5] && lines[5] == 20
    requires !picks[6] && lines[6] == 25
    requires !picks[7] && lines[7] == 26
    ensures PickedRange(lines, picks, 4, 8) == []
  {
    PickedOut(lines, picks, 7, 8, []);
    PickedOut(lines, picks, 6, 8, []);
    PickedOut(lines, picks, 5, 8, []);
    PickedOut(lines, picks, 4, 8, []);
  }

  lemma ExactFIntLinesFrom8(lines: seq<int>, picks: seq<bool>)
    requires |lines| == 19 && |picks| == 19
    requires !picks[8] && lines[8] == 27
    requires !picks[9] && lines[9] == 28
    requires !picks[10] && lines[10] == 29
    requires !picks[11] && lines[11] == 30
    ensures PickedRange(lines, picks, 8, 12) == []
  {
    PickedOut(lines, picks, 11, 12, []);
    PickedOut(lines, picks, 10, 12, []);
    PickedOut(lines, picks, 9, 12, []);
    PickedOut(lines, picks, 8, 12, []);
  }

  lemma ExactFIntLinesFrom12(lines: seq<int>, picks: seq<bool>)
    requires |lines| == 19 && |picks| == 19
    requires !picks[12] && lines[12] == 31
    requires !picks[13] && lines[13] == 32
    requires picks[14] && lines[14] == 33
    requires !picks[15] && lines[15] == 34
    ensures PickedRange(lines, picks, 12, 16) == [33]
  {
    PickedOut(lines, picks, 15, 16, []);
    PickedIn(lines, picks, 14, 16, 33, []);
    PickedOut(lines, picks, 13, 16, [33]);
    PickedOut(lines, picks, 12, 16, [33]);
  }

  lemma ExactFIntLinesFrom16(lines: seq<int>, picks: seq<bool>)
    requires |lines| == 19 && |picks| == 19
    requires !picks[16] && lines[16] == 35
    requires !picks[17] && lines[17] == 36
    requires !picks[18] && lines[18] == 37
    ensures PickedRange(lines, picks, 16, 19) == []
  {
    PickedOut(lines, picks, 18, 19, []);
    PickedOut(lines, picks, 17, 19, []);
    PickedOut(lines, picks, 16, 19, []);
  }

  /** `ofSubType("pkg.A").name("f").withParameters("int")`: as for `B`, since `A` itself has no `f`. */
  lemma SubtypeOfAInt()
    ensures MatchedLines(INHERITANCE_HIERARCHY, Single(SUB_A_F_INT), false, INHERITANCE_TREES) == [16, 20, 29, 30, 31, 32, 33, 35, 36]
  {
    SubtypeOfAIntJudged();
    SubtypeOfAIntPicked();
  }

  lemma SubtypeOfAIntPicked()
    ensures PickedRange([4, 5, 9, 12, 16, 20, 25, 26, 27, 28, 29, 30, 31, 32, 33, 34, 35, 36, 37], [false, false, false, false, true, true, false, false, false, false, true, true, true, true, true, false, true, true, false], 0, 19) == [16, 20, 29, 30, 31, 32, 33, 35, 36]
  {
    SubtypeOfAIntLines([4, 5, 9, 12, 16, 20, 25, 26, 27, 28, 29, 30, 31, 32, 33, 34, 35, 36, 37], [false, false, false, false, true, true, false, false, false, false, true, true, true, true, true, false, true, true, false]);
  }

  lemma SubtypeOfAIntJudged()
    ensures MatchedLines(INHERITANCE_HIERARCHY, Single(SUB_A_F_INT), false, INHERITANCE_TREES) == PickedRange([4, 5, 9, 12, 16, 20, 25, 26, 27, 28, 29, 30, 31, 32, 33, 34, 35, 36, 37], [false, false, false, false, true, true, false, false, false, false, true, true, true, true, true, false, true, true, false], 0, 19)
  {
    var hits := [false, false, false, false, true, true, false, false, false, false, true, true, true, true, true, false, true, true, false];
    SubtypeOfAIntHitsFrom0(hits);
    SubtypeOfAIntHitsFrom4(hits);
    SubtypeOfAIntHitsFrom8(hits);
    SubtypeOfAIntHitsFrom12(hits);
    SubtypeOfAIntHitsFrom16(hits);
    InheritanceTreeLines();
    MatchedLinesPicked(INHERITANCE_HIERARCHY, Single(SUB_A_F_INT), false, INHERITANCE_TREES, [4, 5, 9, 12, 16, 20, 25, 26, 27, 28, 29, 30, 31, 32, 33, 34, 35, 36, 37], hits);
  }

  lemma SubtypeOfAIntHitsFrom0(hits: seq<bool>)
    requires hits == [false, false, false, false, true, true, false, false, false, false, true, true, true, true, true, false, true, true, false]
    ensures forall k :: 0 <= k < 4 ==> Hit(INHERITANCE_HIERARCHY, Single(SUB_A_F_INT), false, INHERITANCE_TREES[k].node) == hits[k]
  {
    forall t | t in {OBJECT, "pkg.A", "pkg.I", "pkg.J", "pkg.B", "pkg.C", "pkg.D", "pkg.E", "pkg.F", "pkg.Main"}
      ensures IsSubtype(INHERITANCE_HIERARCHY, t, "pkg.A") <==> t in {"pkg.A", "pkg.B", "pkg.C", "pkg.D", "pkg.E", "pkg.F"}
    {
      SubtypesOfA(t);
    }
    forall k | 0 <= k < 4
      ensures Hit(INHERITANCE_HIERARCHY, Single(SUB_A_F_INT), false, INHERITANCE_TREES[k].node) == hits[k]
    {
      SingleCriteriaOnTree(INHERITANCE_HIERARCHY, SUB_A_F_INT.types[0], SUB_A_F_INT.names[0], SUB_A_F_INT.parameters[0], INHERITANCE_TREES[k].node);
      ExactParametersOfOne(INHERITANCE_HIERARCHY, ExactType("int"), TreeSubject(INHERITANCE_TREES[k].node).parameters);
    }
  }

  lemma SubtypeOfAIntHitsFrom4(hits: seq<bool>)
    requires hits == [false, false, false, false, true, true, false, false, false, false, true, true, true, true, true, false, true, true, false]
    ensures forall k :: 4 <= k < 8 ==> Hit(INHERITANCE_HIERARCHY, Single(SUB_A_F_INT), false, INHERITANCE_TREES[k].node) == hits[k]
  {
    forall t | t in {OBJECT, "pkg.A", "pkg.I", "pkg.J", "pkg.B", "pkg.C", "pkg.D", "pkg.E", "pkg.F", "pkg.Main"}
      ensures IsSubtype(INHERITANCE_HIERARCHY, t, "pkg.A") <==> t in {"pkg.A", "pkg.B", "pkg.C", "pkg.D", "pkg.E", "pkg.F"}
    {
      SubtypesOfA(t);
    }
    forall k | 4 <= k < 8
      ensures Hit(INHERITANCE_HIERARCHY, Single(SUB_A_F_INT), false, INHERITANCE_TREES[k].node) == hits[k]
    {
      SingleCriteriaOnTree(INHERITANCE_HIERARCHY, SUB_A_F_INT.types[0], SUB_A_F_INT.names[0], SUB_A_F_INT.parameters[0], INHERITANCE_TREES[k].node);
      ExactParametersOfOne(INHERITANCE_HIERARCHY, ExactType("int"), TreeSubject(INHERITANCE_TREES[k].node).parameters);
    }
  }

  lemma SubtypeOfAIntHitsFrom8(hits: seq<bool>)
    requires hits == [false, false, false, false, true, true, false, false, false, false, true, true, true, true, true, false, true, true, false]
    ensures forall k :: 8 <= k < 12 ==> Hit(INHERITANCE_HIERARCHY, Single(SUB_A_F_INT), false, INHERITANCE_TREES[k].node) == hits[k]
  {
    forall t | t in {OBJECT, "pkg.A", "pkg.I", "pkg.J", "pkg.B", "pkg.C", "pkg.D", "pkg.E", "pkg.F", "pkg.Main"}
      ensures IsSubtype(INHERITANCE_HIERARCHY, t, "pkg.A") <==> t in {"pkg.A", "pkg.B", "pkg.C", "pkg.D", "pkg.E", "pkg.F"}
    {
      SubtypesOfA(t);
    }
    forall k | 8 <= k < 12
      ensures Hit(INHERITANCE_HIERARCHY, Single(SUB_A_F_INT), false, INHERITANCE_TREES[k].node) == hits[k]
    {
      SingleCriteriaOnTree(INHERITANCE_HIERARCHY, SUB_A_F_INT.types[0], SUB_A_F_INT.names[0], SUB_A_F_INT.parameters[0], INHERITANCE_TREES[k].node);
      ExactParametersOfOne(INHERITANCE_HIERARCHY, ExactType("int"), TreeSubject(INHERITANCE_TREES[k].node).parameters);
    }
  }

  lemma SubtypeOfAIntHitsFrom12(hits: seq<bool>)
    requires hits == [false, false, false, false, true, true, false, false, false, false, true, true, true, true, true, false, true, true, false]
    ensures forall k :: 12 <= k < 16 ==> Hit(INHERITANCE_HIERARCHY, Single(SUB_A_F_INT), false, INHERITANCE_TREES[k].node) == hits[k]
  {
    forall t | t in {OBJECT, "pkg.A", "pkg.I", "pkg.J", "pkg.B", "pkg.C", "pkg.D", "pkg.E", "pkg.F", "pkg.Main"}
      ensures IsSubtype(INHERITANCE_HIERARCHY, t, "pkg.A") <==> t in {"pkg.A", "pkg.B", "pkg.C", "pkg.D", "pkg.E", "pkg.F"}
    {
      SubtypesOfA(t);
    }
    forall k | 12 <= k < 16
      ensures Hit(INHERITANCE_HIERARCHY, Single(SUB_A_F_INT), false, INHERITANCE_TREES[k].node) == hits[k]
    {
      SingleCriteriaOnTree(INHERITANCE_HIERARCHY, SUB_A_F_INT.types[0], SUB_A_F_INT.names[0], SUB_A_F_INT.parameters[0], INHERITANCE_TREES[k].node);
      ExactParametersOfOne(INHERITANCE_HIERARCHY, ExactType("int"), TreeSubject(INHERITANCE_TREES[k].node).parameters);
    }
  }

  lemma SubtypeOfAIntHitsFrom16(hits: seq<bool>)
    requires hits == [false, false, false, false, true, true, false, false, false, false, true, true, true, true, true, false, true, true, false]
    ensures forall k :: 16 <= k < 19 ==> Hit(INHERITANCE_HIERARCHY, Single(SUB_A_F_INT), false, INHERITANCE_TREES[k].node) == hits[k]
  {
    forall t | t in {OBJECT, "pkg.A", "pkg.I", "pkg.J", "pkg.B", "pkg.C", "pkg.D", "pkg.E", "pkg.F", "pkg.Main"}
      ensures IsSubtype(INHERITANCE_HIERARCHY, t, "pkg.A") <==> t in {"pkg.A", "pkg.B", "pkg.C", "pkg.D", "pkg.E", "pkg.F"}
    {
      SubtypesOfA(t);
    }
    forall k | 16 <= k < 19
      ensures Hit(INHERITANCE_HIERARCHY, Single(SUB_A_F_INT), false, INHERITANCE_TREES[k].node) == hits[k]
    {
      SingleCriteriaOnTree(INHERITANCE_HIERARCHY, SUB_A_F_INT.types[0], SUB_A_F_INT.names[0], SUB_A_F_INT.parameters[0], INHERITANCE_TREES[k].node);
      ExactParametersOfOne(INHERITANCE_HIERARCHY, ExactType("int"), TreeSubject(INHERITANCE_TREES[k].node).parameters);
    }
  }

  lemma SubtypeOfAIntLines(lines: seq<int>, picks: seq<bool>)
    requires |lines| == 19 && |picks| == 19
    requires !picks[0] && lines[0] == 4
    requires !picks[1] && lines[1] == 5
    requires !picks[2] && lines[2] == 9
    requires !picks[3] && lines[3] == 12
    requires picks[4] && lines[4] == 16
    requires picks[5] && lines[5] == 20
    requires !picks[6] && lines[6] == 25
    requires !picks[7] && lines[7] == 26
    requires !picks[8] && lines[8] == 27
    requires !picks[9] && lines[9] == 28
    requires picks[10] && lines[10] == 29
    requires picks[11] && lines[11] == 30
    requires picks[12] && lines[12] == 31
    requires picks[13] && lines[13] == 32
    requires picks[14] && lines[14] == 33
    requires !picks[15] && lines[15] == 34
    requires picks[16] && lines[16] == 35
    requires picks[17] && lines[17] == 36
    requires !picks[18] && lines[18] == 37
    ensures PickedRange(lines, picks, 0, 19) == [16, 20, 29, 30, 31, 32, 33, 35, 36]
  {
    SubtypeOfAIntLinesFrom0(lines, picks);
    SubtypeOfAIntLinesFrom4(lines, picks);
    SubtypeOfAIntLinesFrom8(lines, picks);
    SubtypeOfAIntLinesFrom12(lines, picks);
    SubtypeOfAIntLinesFrom16(lines, picks);
    PickedRangeSplit(lines, picks, 0, 16, 19);
    PickedRangeSplit(lines, picks, 0, 12, 16);
    PickedRangeSplit(lines, picks, 0, 8, 12);
    PickedRangeSplit(lines, picks, 0, 4, 8);
    assert [] + [16, 20] + [29, 30] + [31, 32, 33] + [35, 36] == [16, 20, 29, 30, 31, 32, 33, 35, 36];
  }

  lemma SubtypeOfAIntLinesFrom0(lines: seq<int>, picks: seq<bool>)
    requires |lines| == 19 && |picks| == 19
    requires !picks[0] && lines[0] == 4
    requires !picks[1] && lines[1] == 5
    requires !picks[2] && lines[2] == 9
    requires !picks[3] && lines[3] == 12
    ensures PickedRange(lines, picks, 0, 4) == []
  {
    PickedOut(lines, picks, 3, 4, []);
    PickedOut(lines, picks, 2, 4, []);
    PickedOut(lines, picks, 1, 4, []);
    PickedOut(lines, picks, 0, 4, []);
  }

  lemma SubtypeOfAIntLinesFrom4(lines: seq<int>, picks: seq<bool>)
    requires |lines| == 19 && |picks| == 19
    requires picks[4] && lines[4] == 16
    requires picks[5] && lines[5] == 20
    requires !picks[6] && lines[6] == 25
    requires !picks[7] && lines[7] == 26
    ensures PickedRange(lines, picks, 4, 8) == [16, 20]
  {
    PickedOut(lines, picks, 7, 8, []);
    PickedOut(lines, picks, 6, 8, []);
    PickedIn(lines, picks, 5, 8, 20, []);
    PickedIn(lines, picks, 4, 8, 16, [20]);
  }

  lemma SubtypeOfAIntLinesFrom8(lines: seq<int>, picks: seq<bool>)
    requires |lines| == 19 && |picks| == 19
    requires !picks[8] && lines[8] == 27
    requires !picks[9] && lines[9] == 28
    requires picks[10] && lines[10] == 29
    requires picks[11] && lines[11] == 30
    ensures PickedRange(lines, picks, 8, 12) == [29, 30]
  {
    PickedIn(lines, picks, 11, 12, 30, []);
    PickedIn(lines, picks, 10, 12, 29, [30]);
    PickedOut(lines, picks, 9, 12, [29, 30]);
    PickedOut(lines, picks, 8, 12, [29, 30]);
  }

  lemma SubtypeOfAIntLinesFrom12(lines: seq<int>, picks: seq<bool>)
    requires |lines| == 19 && |picks| == 19
    requires picks[12] && lines[12] == 31
    requires picks[13] && lines[13] == 32
    requires picks[14] && lines[14] == 33
    requires !picks[15] && lines[15] == 34
    ensures PickedRange(lines, picks, 12, 16) == [31, 32, 33]
  {
    PickedOut(lines, picks, 15, 16, []);
    PickedIn(lines, picks, 14, 16, 33, []);
    PickedIn(lines, picks, 13, 16, 32, [33]);
    PickedIn(lines, picks, 12, 16, 31, [32, 33]);
  }

  lemma SubtypeOfAIntLinesFrom16(lines: seq<int>, picks: seq<bool>)
    requires |lines| == 19 && |picks| == 19
    requires picks[16] && lines[16] == 35
    requires picks[17] && lines[17] == 36
    requires !picks[18] && lines[18] == 37
    ensures PickedRange(lines, picks, 16, 19) == [35, 36]
  {
    PickedOut(lines, picks, 18, 19, []);
    PickedIn(lines, picks, 17, 19, 36, []);
    PickedIn(lines, picks, 16, 19, 35, [36]);
  }

  /** `ofSubType("pkg.I").name("f").withParameters("int")`: also the declaration in `I`. */
  lemma SubtypeOfIInt()
    ensures MatchedLines(INHERITANCE_HIERARCHY, Single(SUB_I_F_INT), false, INHERITANCE_TREES) == [5, 16, 20, 29, 30, 31, 32, 33, 35, 36]
  {
    SubtypeOfIIntJudged();
    SubtypeOfIIntPicked();
  }

  lemma SubtypeOfIIntPicked()
    ensures PickedRange([4, 5, 9, 12, 16, 20, 25, 26, 27, 28, 29, 30, 31, 32, 33, 34, 35, 36, 37], [false, true, false, false, true, true, false, false, false, false, true, true, true, true, true, false, true, true, false], 0, 19) == [5, 16, 20, 29, 30, 31, 32, 33, 35, 36]
  {
    SubtypeOfIIntLines([4, 5, 9, 12, 16, 20, 25, 26, 27, 28, 29, 30, 31, 32, 33, 34, 35, 36, 37], [false, true, false, false, true, true, false, false, false, false, true, true, true, true, true, false, true, true, false]);
  }

  lemma SubtypeOfIIntJudged()
    ensures MatchedLines(INHERITANCE_HIERARCHY, Single(SUB_I_F_INT), false, INHERITANCE_TREES) == PickedRange([4, 5, 9, 12, 16, 20, 25, 26, 27, 28, 29, 30, 31, 32, 33, 34, 35, 36, 37], [false, true, false, false, true, true, false, false, false, false, true, true, true, true, true, false, true, true, false], 0, 19)
  {
    var hits := [false, true, false, false, true, true, false, false, false, false, true, true, true, true, true, false, true, true, false];
    SubtypeOfIIntHitsFrom0(hits);
    SubtypeOfIIntHitsFrom4(hits);
    SubtypeOfIIntHitsFrom8(hits);
    SubtypeOfIIntHitsFrom12(hits);
    SubtypeOfIIntHitsFrom16(hits);
    InheritanceTreeLines();
    MatchedLinesPicked(INHERITANCE_HIERARCHY, Single(SUB_I_F_INT), false, INHERITANCE_TREES, [4, 5, 9, 12, 16, 20, 25, 26, 27, 28, 29, 30, 31, 32, 33, 34, 35, 36, 37], hits);
  }

  lemma SubtypeOfIIntHitsFrom0(hits: seq<bool>)
    requires hits == [false, true, false, false, true, true, false, false, false, false, true, true, true, true, true, false, true, true, false]
    ensures forall k :: 0 <= k < 4 ==> Hit(INHERITANCE_HIERARCHY, Single(SUB_I_F_INT), false, INHERITANCE_TREES[k].node) == hits[k]
  {
    forall t | t in {OBJECT, "pkg.A", "pkg.I", "pkg.J", "pkg.B", "pkg.C", "pkg.D", "pkg.E", "pkg.F", "pkg.Main"}
      ensures IsSubtype(INHERITANCE_HIERARCHY, t, "pkg.I") <==> t in {"pkg.I", "pkg.B", "pkg.C", "pkg.D", "pkg.E", "pkg.F"}
    {
      SubtypesOfI(t);
    }
    forall k | 0 <= k < 4
      ensures Hit(INHERITANCE_HIERARCHY, Single(SUB_I_F_INT), false, INHERITANCE_TREES[k].node) == hits[k]
    {
      SingleCriteriaOnTree(INHERITANCE_HIERARCHY, SUB_I_F_INT.types[0], SUB_I_F_INT.names[0], SUB_I_F_INT.parameters[0], INHERITANCE_TREES[k].node);
      ExactParametersOfOne(INHERITANCE_HIERARCHY, ExactType("int"), TreeSubject(INHERITANCE_TREES[k].node).parameters);
    }
  }

  lemma SubtypeOfIIntHitsFrom4(hits: seq<bool>)
    requires hits == [false, true, false, false, true, true, false, false, false, false, true, true, true, true, true, false, true, true, false]
    ensures forall k :: 4 <= k < 8 ==> Hit(INHERITANCE_HIERARCHY, Single(SUB_I_F_INT), false, INHERITANCE_TREES[k].node) == hits[k]
  {
    forall t | t in {OBJECT, "pkg.A", "pkg.I", "pkg.J", "pkg.B", "pkg.C", "pkg.D", "pkg.E", "pkg.F", "pkg.Main"}
      ensures IsSubtype(INHERITANCE_HIERARCHY, t, "pkg.I") <==> t in {"pkg.I", "pkg.B", "pkg.C", "pkg.D", "pkg.E", "pkg.F"}
    {
      SubtypesOfI(t);
    }
    forall k | 4 <= k < 8
      ensures Hit(INHERITANCE_HIERARCHY, Single(SUB_I_F_INT), false, INHERITANCE_TREES[k].node) == hits[k]
    {
      SingleCriteriaOnTree(INHERITANCE_HIERARCHY, SUB_I_F_INT.types[0], SUB_I_F_INT.names[0], SUB_I_F_INT.parameters[0], INHERITANCE_TREES[k].node);
      ExactParametersOfOne(INHERITANCE_HIERARCHY, ExactType("int"), TreeSubject(INHERITANCE_TREES[k].node).parameters);
    }
  }

  lemma SubtypeOfIIntHitsFrom8(hits: seq<bool>)
    requires hits == [false, true, false, false, true, true, false, false, false, false, true, true, true, true, true, false, true, true, false]
    ensures forall k :: 8 <= k < 12 ==> Hit(INHERITANCE_HIERARCHY, Single(SUB_I_F_INT), false, INHERITANCE_TREES[k].node) == hits[k]
  {
    forall t | t in {OBJECT, "pkg.A", "pkg.I", "pkg.J", "pkg.B", "pkg.C", "pkg.D", "pkg.E", "pkg.F", "pkg.Main"}
      ensures IsSubtype(INHERITANCE_HIERARCHY, t, "pkg.I") <==> t in {"pkg.I", "pkg.B", "pkg.C", "pkg.D", "pkg.E", "pkg.F"}
    {
      SubtypesOfI(t);
    }
    forall k | 8 <= k < 12
      ensures Hit(INHERITANCE_HIERARCHY, Single(SUB_I_F_INT), false, INHERITANCE_TREES[k].node) == hits[k]
    {
      SingleCriteriaOnTree(INHERITANCE_HIERARCHY, SUB_I_F_INT.types[0], SUB_I_F_INT.names[0], SUB_I_F_INT.parameters[0], INHERITANCE_TREES[k].node);
      ExactParametersOfOne(INHERITANCE_HIERARCHY, ExactType("int"), TreeSubject(INHERITANCE_TREES[k].node).parameters);
    }
  }

  lemma SubtypeOfIIntHitsFrom12(hits: seq<bool>)
    requires hits == [false, true, false, false, true, true, false, false, false, false, true, true, true, true, true, false, true, true, false]
    ensures forall k :: 12 <= k < 16 ==> Hit(INHERITANCE_HIERARCHY, Single(SUB_I_F_INT), false, INHERITANCE_TREES[k].node) == hits[k]
  {
    forall t | t in {OBJECT, "pkg.A", "pkg.I", "pkg.J", "pkg.B", "pkg.C", "pkg.D", "pkg.E", "pkg.F", "pkg.Main"}
      ensures IsSubtype(INHERITANCE_HIERARCHY, t, "pkg.I") <==> t in {"pkg.I", "pkg.B", "pkg.C", "pkg.D", "pkg.E", "pkg.F"}
    {
      SubtypesOfI(t);
    }
    forall k | 12 <= k < 16
      ensures Hit(INHERITANCE_HIERARCHY, Single(SUB_I_F_INT), false, INHERITANCE_TREES[k].node) == hits[k]
    {
      SingleCriteriaOnTree(INHERITANCE_HIERARCHY, SUB_I_F_INT.types[0], SUB_I_F_INT.names[0], SUB_I_F_INT.parameters[0], INHERITANCE_TREES[k].node);
      ExactParametersOfOne(INHERITANCE_HIERARCHY, ExactType("int"), TreeSubject(INHERITANCE_TREES[k].node).parameters);
    }
  }

  lemma SubtypeOfIIntHitsFrom16(hits: seq<bool>)
    requires hits == [false, true, false, false, true, true, false, false, false, false, true, true, true, true, true, false, true, true, false]
    ensures forall k :: 16 <= k < 19 ==> Hit(INHERITANCE_HIERARCHY, Single(SUB_I_F_INT), false, INHERITANCE_TREES[k].node) == hits[k]
  {
    forall t | t in {OBJECT, "pkg.A", "pkg.I", "pkg.J", "pkg.B", "pkg.C", "pkg.D", "pkg.E", "pkg.F", "pkg.Main"}
      ensures IsSubtype(INHERITANCE_HIERARCHY, t, "pkg.I") <==> t in {"pkg.I", "pkg.B", "pkg.C", "pkg.D", "pkg.E", "pkg.F"}
    {
      SubtypesOfI(t);
    }
    forall k | 16 <= k < 19
      ensures Hit(INHERITANCE_HIERARCHY, Single(SUB_I_F_INT), false, INHERITANCE_TREES[k].node) == hits[k]
    {
      SingleCriteriaOnTree(INHERITANCE_HIERARCHY, SUB_I_F_INT.types[0], SUB_I_F_INT.names[0], SUB_I_F_INT.parameters[0], INHERITANCE_TREES[k].node);
      ExactParametersOfOne(INHERITANCE_HIERARCHY, ExactType("int"), TreeSubject(INHERITANCE_TREES[k].node).parameters);
    }
  }

  lemma SubtypeOfIIntLines(lines: seq<int>, picks: seq<bool>)
    requires |lines| == 19 && |picks| == 19
    requires !picks[0] && lines[0] == 4
    requires picks[1] && lines[1] == 5
    requires !picks[2] && lines[2] == 9
    requires !picks[3] && lines[3] == 12
    requires picks[4] && lines[4] == 16
    requires picks[5] && lines[5] == 20
    requires !picks[6] && lines[6] == 25
    requires !picks[7] && lines[7] == 26
    requires !picks[8] && lines[8] == 27
    requires !picks[9] && lines[9] == 28
    requires picks[10] && lines[10] == 29
    requires picks[11] && lines[11] == 30
    requires picks[12] && lines[12] == 31
    requires picks[13] && lines[13] == 32
    requires picks[14] && lines[14] == 33
    requires !picks[15] && lines[15] == 34
    requires picks[16] && lines[16] == 35
    requires picks[17] && lines[17] == 36
    requires !picks[18] && lines[18] == 37
    ensures PickedRange(lines, picks, 0, 19) == [5, 16, 20, 29, 30, 31, 32, 33, 35, 36]
  {
    SubtypeOfIIntLinesFrom0(lines, picks);
    SubtypeOfIIntLinesFrom4(lines, picks);
    SubtypeOfIIntLinesFrom8(lines, picks);
    SubtypeOfIIntLinesFrom12(lines, picks);
    SubtypeOfIIntLinesFrom16(lines, picks);
    PickedRangeSplit(lines, picks, 0, 16, 19);
    PickedRangeSplit(lines, picks, 0, 12, 16);
    PickedRangeSplit(lines, picks, 0, 8, 12);
    PickedRangeSplit(lines, picks, 0, 4, 8);
    assert [5] + [16, 20] + [29, 30] + [31, 32, 33] + [35, 36] == [5, 16, 20, 29, 30, 31, 32, 33, 35, 36];
  }

  lemma SubtypeOfIIntLinesFrom0(lines: seq<int>, picks: seq<bool>)
    requires |lines| == 19 && |picks| == 19
    requires !picks[0] && lines[0] == 4
    requires picks[1] && lines[1] == 5
    requires !picks[2] && lines[2] == 9
    requires !picks[3] && lines[3] == 12
    ensures PickedRange(lines, picks, 0, 4) == [5]
  {
    PickedOut(lines, picks, 3, 4, []);
    PickedOut(lines, picks, 2, 4, []);
    PickedIn(lines, picks, 1, 4, 5, []);
    PickedOut(lines, picks, 0, 4, [5]);
  }

  lemma SubtypeOfIIntLinesFrom4(lines: seq<int>, picks: seq<bool>)
    requires |lines| == 19 && |picks| == 19
    requires picks[4] && lines[4] == 16
    requires picks[5] && lines[5] == 20
    requires !picks[6] && lines[6] == 25
    requires !picks[7] && lines[7] == 26
    ensures PickedRange(lines, picks, 4, 8) == [16, 20]
  {
    PickedOut(lines, picks, 7, 8, []);
    PickedOut(lines, picks, 6, 8, []);
    PickedIn(lines, picks, 5, 8, 20, []);
    PickedIn(lines, picks, 4, 8, 16, [20]);
  }

  lemma SubtypeOfIIntLinesFrom8(lines: seq<int>, picks: seq<bool>)
    requires |lines| == 19 && |picks| == 19
    requires !picks[8] && lines[8] == 27
    requires !picks[9] && lines[9] == 28
    requires picks[10] && lines[10] == 29
    requires picks[11] && lines[11] == 30
    ensures PickedRange(lines, picks, 8, 12) == [29, 30]
  {
    PickedIn(lines, picks, 11, 12, 30, []);
    PickedIn(lines, picks, 10, 12, 29, [30]);
    PickedOut(lines, picks, 9, 12, [29, 30]);
    PickedOut(lines, picks, 8, 12, [29, 30]);
  }

  lemma SubtypeOfIIntLinesFrom12(lines: seq<int>, picks: seq<bool>)
    requires |lines| == 19 && |picks| == 19
    requires picks[12] && lines[12] == 31
    requires picks[13] && lines[13] == 32
    requires picks[14] && lines[14] == 33
    requires !picks[15] && lines[15] == 34
    ensures PickedRange(lines, picks, 12, 16) == [31, 32, 33]
  {
    PickedOut(lines, picks, 15, 16, []);
    PickedIn(lines, picks, 14, 16, 33, []);
    PickedIn(lines, picks, 13, 16, 32, [33]);
    PickedIn(lines, picks, 12, 16, 31, [32, 33]);
  }

  lemma SubtypeOfIIntLinesFrom16(lines: seq<int>, picks: seq<bool>)
    requires |lines| == 19 && |picks| == 19
    requires picks[16] && lines[16] == 35
    requires picks[17] && lines[17] == 36
    requires !picks[18] && lines[18] == 37
    ensures PickedRange(lines, picks, 16, 19) == [35, 36]
  {
    PickedOut(lines, picks, 18, 19, []);
    PickedIn(lines, picks, 17, 19, 36, []);
    PickedIn(lines, picks, 16, 19, 35, [36]);
  }

  /** `ofSubType("pkg.J").name("f").withParameters("int")`: the declaration in `J`, the overrides, and every call or reference through a receiver inheriting from `J`, `j.f(42)` included. */
  lemma SubtypeOfJInt()
    ensures MatchedLines(INHERITANCE_HIERARCHY, Single(SUB_J_F_INT), false, INHERITANCE_TREES) == [9, 16, 20, 29, 30, 31, 32, 33, 35, 36, 37]
  {
    SubtypeOfJIntJudged();
    SubtypeOfJIntPicked();
  }

  lemma SubtypeOfJIntPicked()
    ensures PickedRange([4, 5, 9, 12, 16, 20, 25, 26, 27, 28, 29, 30, 31, 32, 33, 34, 35, 36, 37], [false, false, true, false, true, true, false, false, false, false, true, true, true, true, true, false, true, true, true], 0, 19) == [9, 16, 20, 29, 30, 31, 32, 33, 35, 36, 37]
  {
    SubtypeOfJIntLines([4, 5, 9, 12, 16, 20, 25, 26, 27, 28, 29, 30, 31, 32, 33, 34, 35, 36, 37], [false, false, true, false, true, true, false, false, false, false, true, true, true, true, true, false, true, true, true]);
  }

  lemma SubtypeOfJIntJudged()
    ensures MatchedLines(INHERITANCE_HIERARCHY, Single(SUB_J_F_INT), false, INHERITANCE_TREES) == PickedRange([4, 5, 9, 12, 16, 20, 25, 26, 27, 28, 29, 30, 31, 32, 33, 34, 35, 36, 37], [false, false, true, false, true, true, false, false, false, false, true, true, true, true, true, false, true, true, true], 0, 19)
  {
    var hits := [false, false, true, false, true, true, false, false, false, false, true, true, true, true, true, false, true, true, true];
    SubtypeOfJIntHitsFrom0(hits);
    SubtypeOfJIntHitsFrom4(hits);
    SubtypeOfJIntHitsFrom8(hits);
    SubtypeOfJIntHitsFrom12(hits);
    SubtypeOfJIntHitsFrom16(hits);
    InheritanceTreeLines();
    MatchedLinesPicked(INHERITANCE_HIERARCHY, Single(SUB_J_F_INT), false, INHERITANCE_TREES, [4, 5, 9, 12, 16, 20, 25, 26, 27, 28, 29, 30, 31, 32, 33, 34, 35, 36, 37], hits);
  }

  lemma SubtypeOfJIntHitsFrom0(hits: seq<bool>)
    requires hits == [false, false, true, false, true, true, false, false, false, false, true, true, true, true, true, false, true, true, true]
    ensures forall k :: 0 <= k < 4 ==> Hit(INHERITANCE_HIERARCHY, Single(SUB_J_F_INT), false, INHERITANCE_TREES[k].node) == hits[k]
  {
    forall t | t in {OBJECT, "pkg.A", "pkg.I", "pkg.J", "pkg.B", "pkg.C", "pkg.D", "pkg.E", "pkg.F", "pkg.Main"}
      ensures IsSubtype(INHERITANCE_HIERARCHY, t, "pkg.J") <==> t in {"pkg.J", "pkg.B", "pkg.C", "pkg.D", "pkg.E", "pkg.F"}
    {
      SubtypesOfJ(t);
    }
    forall k | 0 <= k < 4
      ensures Hit(INHERITANCE_HIERARCHY, Single(SUB_J_F_INT), false, INHERITANCE_TREES[k].node) == hits[k]
    {
      SingleCriteriaOnTree(INHERITANCE_HIERARCHY, SUB_J_F_INT.types[0], SUB_J_F_INT.names[0], SUB_J_F_INT.parameters[0], INHERITANCE_TREES[k].node);
      ExactParametersOfOne(INHERITANCE_HIERARCHY, ExactType("int"), TreeSubject(INHERITANCE_TREES[k].node).parameters);
    }
  }

  lemma SubtypeOfJIntHitsFrom4(hits: seq<bool>)
    requires hits == [false, false, true, false, true, true, false, false, false, false, true, true, true, true, true, false, true, true, true]
    ensures forall k :: 4 <= k < 8 ==> Hit(INHERITANCE_HIERARCHY, Single(SUB_J_F_INT), false, INHERITANCE_TREES[k].node) == hits[k]
  {
    forall t | t in {OBJECT, "pkg.A", "pkg.I", "pkg.J", "pkg.B", "pkg.C", "pkg.D", "pkg.E", "pkg.F", "pkg.Main"}
      ensures IsSubtype(INHERITANCE_HIERARCHY, t, "pkg.J") <==> t in {"pkg.J", "pkg.B", "pkg.C", "pkg.D", "pkg.E", "pkg.F"}
    {
      SubtypesOfJ(t);
    }
    forall k | 4 <= k < 8
      ensures Hit(INHERITANCE_HIERARCHY, Single(SUB_J_F_INT), false, INHERITANCE_TREES[k].node) == hits[k]
    {
      SingleCriteriaOnTree(INHERITANCE_HIERARCHY, SUB_J_F_INT.types[0], SUB_J_F_INT.names[0], SUB_J_F_INT.parameters[0], INHERITANCE_TREES[k].node);
      ExactParametersOfOne(INHERITANCE_HIERARCHY, ExactType("int"), TreeSubject(INHERITANCE_TREES[k].node).parameters);
    }
  }

  lemma SubtypeOfJIntHitsFrom8(hits: seq<bool>)
    requires hits == [false, false, true, false, true, true, false, false, false, false, true, true, true, true, true, false, true, true, true]
    ensures forall k :: 8 <= k < 12 ==> Hit(INHERITANCE_HIERARCHY, Single(SUB_J_F_INT), false, INHERITANCE_TREES[k].node) == hits[k]
  {
    forall t | t in {OBJECT, "pkg.A", "pkg.I", "pkg.J", "pkg.B", "pkg.C", "pkg.D", "pkg.E", "pkg.F", "pkg.Main"}
      ensures IsSubtype(INHERITANCE_HIERARCHY, t, "pkg.J") <==> t in {"pkg.J", "pkg.B", "pkg.C", "pkg.D", "pkg.E", "pkg.F"}
    {
      SubtypesOfJ(t);
    }
    forall k | 8 <= k < 12
      ensures Hit(INHERITANCE_HIERARCHY, Single(SUB_J_F_INT), false, INHERITANCE_TREES[k].node) == hits[k]
    {
      SingleCriteriaOnTree(INHERITANCE_HIERARCHY, SUB_J_F_INT.types[0], SUB_J_F_INT.names[0], SUB_J_F_INT.parameters[0], INHERITANCE_TREES[k].node);
      ExactParametersOfOne(INHERITANCE_HIERARCHY, ExactType("int"), TreeSubject(INHERITANCE_TREES[k].node).parameters);
    }
  }

  lemma SubtypeOfJIntHitsFrom12(hits: seq<bool>)
    requires hits == [false, false, true, false, true, true, false, false, false, false, true, true, true, true, true, false, true, true, true]
    ensures forall k :: 12 <= k < 16 ==> Hit(INHERITANCE_HIERARCHY, Single(SUB_J_F_INT), false, INHERITANCE_TREES[k].node) == hits[k]
  {
    forall t | t in {OBJECT, "pkg.A", "pkg.I", "pkg.J", "pkg.B", "pkg.C", "pkg.D", "pkg.E", "pkg.F", "pkg.Main"}
      ensures IsSubtype(INHERITANCE_HIERARCHY, t, "pkg.J") <==> t in {"pkg.J", "pkg.B", "pkg.C", "pkg.D", "pkg.E", "pkg.F"}
    {
      SubtypesOfJ(t);
    }
    forall k | 12 <= k < 16
      ensures Hit(INHERITANCE_HIERARCHY, Single(SUB_J_F_INT), false, INHERITANCE_TREES[k].node) == hits[k]
    {
      SingleCriteriaOnTree(INHERITANCE_HIERARCHY, SUB_J_F_INT.types[0], SUB_J_F_INT.names[0], SUB_J_F_INT.parameters[0], INHERITANCE_TREES[k].node);
      ExactParametersOfOne(INHERITANCE_HIERARCHY, ExactType("int"), TreeSubject(INHERITANCE_TREES[k].node).parameters);
    }
  }

  lemma SubtypeOfJIntHitsFrom16(hits: seq<bool>)
    requires hits == [false, false, true, false, true, true, false, false, false, false, true, true, true, true, true, false, true, true, true]
    ensures forall k :: 16 <= k < 19 ==> Hit(INHERITANCE_HIERARCHY, Single(SUB_J_F_INT), false, INHERITANCE_TREES[k].node) == hits[k]
  {
    forall t | t in {OBJECT, "pkg.A", "pkg.I", "pkg.J", "pkg.B", "pkg.C", "pkg.D", "pkg.E", "pkg.F", "pkg.Main"}
      ensures IsSubtype(INHERITANCE_HIERARCHY, t, "pkg.J") <==> t in {"pkg.J", "pkg.B", "pkg.C", "pkg.D", "pkg.E", "pkg.F"}
    {
      SubtypesOfJ(t);
    }
    forall k | 16 <= k < 19
      ensures Hit(INHERITANCE_HIERARCHY, Single(SUB_J_F_INT), false, INHERITANCE_TREES[k].node) == hits[k]
    {
      SingleCriteriaOnTree(INHERITANCE_HIERARCHY, SUB_J_F_INT.types[0], SUB_J_F_INT.names[0], SUB_J_F_INT.parameters[0], INHERITANCE_TREES[k].node);
      ExactParametersOfOne(INHERITANCE_HIERARCHY, ExactType("int"), TreeSubject(INHERITANCE_TREES[k].node).parameters);
    }
  }

  lemma SubtypeOfJIntLines(lines: seq<int>, picks: seq<bool>)
    requires |lines| == 19 && |picks| == 19
    requires !picks[0] && lines[0] == 4
    requires !picks[1] && lines[1] == 5
    requires picks[2] && lines[2] == 9
    requires !picks[3] && lines[3] == 12
    requires picks[4] && lines[4] == 16
    requires picks[5] && lines[5] == 20
    requires !picks[6] && lines[6] == 25
    requires !picks[7] && lines[7] == 26
    requires !picks[8] && lines[8] == 27
    requires !picks[9] && lines[9] == 28
    requires picks[10] && lines[10] == 29
    requires picks[11] && lines[11] == 30
    requires picks[12] && lines[12] == 31
    requires picks[13] && lines[13] == 32
    requires picks[14] && lines[14] == 33
    requires !picks[15] && lines[15] == 34
    requires picks[16] && lines[16] == 35
    requires picks[17] && lines[17] == 36
    requires picks[18] && lines[18] == 37
    ensures PickedRange(lines, picks, 0, 19) == [9, 16, 20, 29, 30, 31, 32, 33, 35, 36, 37]
  {
    SubtypeOfJIntLinesFrom0(lines, picks);
    SubtypeOfJIntLinesFrom4(lines, picks);
    SubtypeOfJIntLinesFrom8(lines, picks);
    SubtypeOfJIntLinesFrom12(lines, picks);
    SubtypeOfJIntLinesFrom16(lines, picks);
    PickedRangeSplit(lines, picks, 0, 16, 19);
    PickedRangeSplit(lines, picks, 0, 12, 16);
    PickedRangeSplit(lines, picks, 0, 8, 12);
    PickedRangeSplit(lines, picks, 0, 4, 8);
    assert [9] + [16, 20] + [29, 30] + [31, 32, 33] + [35, 36, 37] == [9, 16, 20, 29, 30, 31, 32, 33, 35, 36, 37];
  }

  lemma SubtypeOfJIntLinesFrom0(lines: seq<int>, picks: seq<bool>)
    requires |lines| == 19 && |picks| == 19
    requires !picks[0] && lines[0] == 4
    requires !picks[1] && lines[1] == 5
    requires picks[2] && lines[2] == 9
    requires !picks[3] && lines[3] == 12
    ensures PickedRange(lines, picks, 0, 4) == [9]
  {
    PickedOut(lines, picks, 3, 4, []);
    PickedIn(lines, picks, 2, 4, 9, []);
    PickedOut(lines, picks, 1, 4, [9]);
    PickedOut(lines, picks, 0, 4, [9]);
  }

  lemma SubtypeOfJIntLinesFrom4(lines: seq<int>, picks: seq<bool>)
    requires |lines| == 19 && |picks| == 19
    requires picks[4] && lines[4] == 16
    requires picks[5] && lines[5] == 20
    requires !picks[6] && lines[6] == 25
    requires !picks[7] && lines[7] == 26
    ensures PickedRange(lines, picks, 4, 8) == [16, 20]
  {
    PickedOut(lines, picks, 7, 8, []);
    PickedOut(lines, picks, 6, 8, []);
    PickedIn(lines, picks, 5, 8, 20, []);
    PickedIn(lines, picks, 4, 8, 16, [20]);
  }

  lemma SubtypeOfJIntLinesFrom8(lines: seq<int>, picks: seq<bool>)
    requires |lines| == 19 && |picks| == 19
    requires !picks[8] && lines[8] == 27
    requires !picks[9] && lines[9] == 28
    requires picks[10] && lines[10] == 29
    requires picks[11] && lines[11] == 30
    ensures PickedRange(lines, picks, 8, 12) == [29, 30]
  {
    PickedIn(lines, picks, 11, 12, 30, []);
    PickedIn(lines, picks, 10, 12, 29, [30]);
    PickedOut(lines, picks, 9, 12, [29, 30]);
    PickedOut(lines, picks, 8, 12, [29, 30]);
  }

  lemma SubtypeOfJIntLinesFrom12(lines: seq<int>, picks: seq<bool>)
    requires |lines| == 19 && |picks| == 19
    requires picks[12] && lines[12] == 31
    requires picks[13] && lines[13] == 32
    requires picks[14] && lines[14] == 33
    requires !picks[15] && lines[15] == 34
    ensures PickedRange(lines, picks, 12, 16) == [31, 32, 33]
  {
    PickedOut(lines, picks, 15, 16, []);
    PickedIn(lines, picks, 14, 16, 33, []);
    PickedIn(lines, picks, 13, 16, 32, [33]);
    PickedIn(lines, picks, 12, 16, 31, [32, 33]);
  }

  lemma SubtypeOfJIntLinesFrom16(lines: seq<int>, picks: seq<bool>)
    requires |lines| == 19 && |picks| == 19
    requires picks[16] && lines[16] == 35
    requires picks[17] && lines[17] == 36
    requires picks[18] && lines[18] == 37
    ensures PickedRange(lines, picks, 16, 19) == [35, 36, 37]
  {
    PickedIn(lines, picks, 18, 19, 37, []);
    PickedIn(lines, picks, 17, 19, 36, [37]);
    PickedIn(lines, picks, 16, 19, 35, [36, 37]);
  }
}
