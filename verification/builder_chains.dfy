/**
  The builder chains of the matcher tests, run on a fresh builder: each
  method states that the chain builds exactly the matcher its scenario
  judges, and the lines the test expects for it.
*/
module BuilderChains {
  import opened Wrappers
  import opened Criteria
  import opened Matchers
  import opened MatcherBuilder
  import opened MatchVisitor
  import Types = TypesScenarios
  import Names = NamesScenarios
  import Parameters = ParametersScenarios
  import Inheritance = InheritanceScenarios
  import TreeAndSymbol = MatcherScenarios

  // ---------------------------------------------------------------------------
  // MatcherScenarios

  /** `create().ofType("pkg.A").name("f").withParameters("int")`, on trees and on symbols */
  method FIntChain() returns (r: Result<MethodMatcher, ConfigError>)
    ensures r == Success(TreeAndSymbol.F_INT)
    ensures MatchedLines(TreeAndSymbol.TREE_AND_SYMBOL_HIERARCHY, Single(r.value), false, TreeAndSymbol.TREE_AND_SYMBOL_TREES) == [5, 8, 9]
    ensures MatchedLines(TreeAndSymbol.TREE_AND_SYMBOL_HIERARCHY, Single(r.value), true, TreeAndSymbol.TREE_AND_SYMBOL_TREES) == [5, 8]
  {
    var b := new MethodMatchersBuilder.Create();
    var e := b.OfType("pkg.A");
    e := b.Name("f");
    e := b.WithParameters(["int"]);
    assert Signature(["int"]) == [ExactType("int")];
    r := b.Built();
    TreeAndSymbol.TreeAndSymbolMethodOnTree();
    TreeAndSymbol.TreeAndSymbolMethodOnSymbol();
  }

  /** `create().ofType("pkg.A").constructor().withParameters("int")`, on trees and on symbols */
  method ConstructorIntChain() returns (r: Result<MethodMatcher, ConfigError>)
    ensures r == Success(TreeAndSymbol.CTOR_INT)
    ensures MatchedLines(TreeAndSymbol.TREE_AND_SYMBOL_HIERARCHY, Single(r.value), false, TreeAndSymbol.TREE_AND_SYMBOL_TREES) == [4, 7]
    ensures MatchedLines(TreeAndSymbol.TREE_AND_SYMBOL_HIERARCHY, Single(r.value), true, TreeAndSymbol.TREE_AND_SYMBOL_TREES) == [4, 7]
  {
    var b := new MethodMatchersBuilder.Create();
    var e := b.OfType("pkg.A");
    e := b.Constructor();
    e := b.WithParameters(["int"]);
    assert Signature(["int"]) == [ExactType("int")];
    r := b.Built();
    TreeAndSymbol.TreeAndSymbolConstructor(false);
    TreeAndSymbol.TreeAndSymbolConstructor(true);
  }

  /** `MethodMatchers.or(<the constructor chain>, <the f(int) chain>)`, on trees and on symbols */
  method OrChain() returns (r: MethodMatchers)
    ensures r == Or([Single(TreeAndSymbol.CTOR_INT), Single(TreeAndSymbol.F_INT)])
    ensures MatchedLines(TreeAndSymbol.TREE_AND_SYMBOL_HIERARCHY, r, false, TreeAndSymbol.TREE_AND_SYMBOL_TREES) == [4, 5, 7, 8, 9]
    ensures MatchedLines(TreeAndSymbol.TREE_AND_SYMBOL_HIERARCHY, r, true, TreeAndSymbol.TREE_AND_SYMBOL_TREES) == [4, 5, 7, 8]
  {
    var c := ConstructorIntChain();
    var f := FIntChain();
    r := Or([Single(c.value), Single(f.value)]);
    TreeAndSymbol.TreeAndSymbolOrOnTree();
    TreeAndSymbol.TreeAndSymbolOrOnSymbol();
  }

  /** `create().ofType("A").name("f").withParameters("A")`, on a method selector and a bare identifier */
  method SelectorChain() returns (r: Result<MethodMatcher, ConfigError>)
    ensures r == Success(TreeAndSymbol.SELECTOR_F)
    ensures MatchedLines(TreeAndSymbol.SELECTOR_HIERARCHY, Single(r.value), false, TreeAndSymbol.SELECTOR_TREES) == [2, 3, 4]
  {
    var b := new MethodMatchersBuilder.Create();
    var e := b.OfType("A");
    e := b.Name("f");
    e := b.WithParameters(["A"]);
    assert Signature(["A"]) == [ExactType("A")];
    r := b.Built();
    assert r.value == TreeAndSymbol.SELECTOR_F;
    TreeAndSymbol.MethodSelectorAndIdentifier();
  }

  // ---------------------------------------------------------------------------
  // TypesScenarios

  /** `create().ofType("A").name("f").withAnyParameters()` */
  method ExactTypeAChain() returns (r: Result<MethodMatcher, ConfigError>)
    ensures r == Success(Types.EXACT_A)
    ensures MatchedLines(Types.TYPES_HIERARCHY, Single(r.value), false, Types.TYPES_TREES) == [2, 12]
  {
    var b := new MethodMatchersBuilder.Create();
    var e := b.OfType("A");
    e := b.Name("f");
    e := b.WithAnyParameters();
    r := b.Built();
    Types.ExactTypeA();
  }

  /** `create().ofType("B").name("f").withAnyParameters()` */
  method ExactTypeBChain() returns (r: Result<MethodMatcher, ConfigError>)
    ensures r == Success(Types.EXACT_B)
    ensures MatchedLines(Types.TYPES_HIERARCHY, Single(r.value), false, Types.TYPES_TREES) == [5, 13]
  {
    var b := new MethodMatchersBuilder.Create();
    var e := b.OfType("B");
    e := b.Name("f");
    e := b.WithAnyParameters();
    r := b.Built();
    Types.ExactTypeB();
  }

  /** `create().ofType("X").name("f").withAnyParameters()` */
  method ExactTypeXChain() returns (r: Result<MethodMatcher, ConfigError>)
    ensures r == Success(Types.EXACT_X)
    ensures MatchedLines(Types.TYPES_HIERARCHY, Single(r.value), false, Types.TYPES_TREES) == [8, 14]
  {
    var b := new MethodMatchersBuilder.Create();
    var e := b.OfType("X");
    e := b.Name("f");
    e := b.WithAnyParameters();
    r := b.Built();
    Types.ExactTypeX();
  }

  /** `create().ofSubType("A").name("f").withAnyParameters()` */
  method SubtypeOfAChain() returns (r: Result<MethodMatcher, ConfigError>)
    ensures r == Success(Types.SUB_A)
    ensures MatchedLines(Types.TYPES_HIERARCHY, Single(r.value), false, Types.TYPES_TREES) == [2, 5, 12, 13]
  {
    var b := new MethodMatchersBuilder.Create();
    var e := b.OfSubType("A");
    e := b.Name("f");
    e := b.WithAnyParameters();
    r := b.Built();
    Types.SubtypeOfA();
  }

  /** `create().ofSubType("B").name("f").withAnyParameters()` */
  method SubtypeOfBChain() returns (r: Result<MethodMatcher, ConfigError>)
    ensures r == Success(Types.SUB_B)
    ensures MatchedLines(Types.TYPES_HIERARCHY, Single(r.value), false, Types.TYPES_TREES) == [5, 13]
  {
    var b := new MethodMatchersBuilder.Create();
    var e := b.OfSubType("B");
    e := b.Name("f");
    e := b.WithAnyParameters();
    r := b.Built();
    Types.SubtypeOfB();
  }

  /** `create().ofAnyType().name("f").withAnyParameters()` */
  method AnyOwnerTypeChain() returns (r: Result<MethodMatcher, ConfigError>)
    ensures r == Success(Types.ANY_TYPE)
    ensures MatchedLines(Types.TYPES_HIERARCHY, Single(r.value), false, Types.TYPES_TREES) == [2, 5, 8, 12, 13, 14]
  {
    var b := new MethodMatchersBuilder.Create();
    var e := b.OfAnyType();
    e := b.Name("f");
    e := b.WithAnyParameters();
    r := b.Built();
    Types.AnyOwnerType();
  }

  /** `create().ofTypes("B", "X").name("f").withAnyParameters()` */
  method ExactTypesBXChain() returns (r: Result<MethodMatcher, ConfigError>)
    ensures r == Success(Types.EXACT_B_X)
    ensures MatchedLines(Types.TYPES_HIERARCHY, Single(r.value), false, Types.TYPES_TREES) == [5, 8, 13, 14]
  {
    var b := new MethodMatchersBuilder.Create();
    var e := b.OfTypes(["B", "X"]);
    assert Signature(["B", "X"]) == [ExactType("B"), ExactType("X")];
    e := b.Name("f");
    e := b.WithAnyParameters();
    r := b.Built();
    Types.ExactTypesBX();
  }

  /** `create().ofSubTypes("A", "X").name("f").withAnyParameters()` */
  method SubtypesOfAXChain() returns (r: Result<MethodMatcher, ConfigError>)
    ensures r == Success(Types.SUB_A_X)
    ensures MatchedLines(Types.TYPES_HIERARCHY, Single(r.value), false, Types.TYPES_TREES) == [2, 5, 8, 12, 13, 14]
  {
    var b := new MethodMatchersBuilder.Create();
    var e := b.OfSubTypes(["A", "X"]);
    assert Subtypes(["A", "X"]) == [SubtypeOf("A"), SubtypeOf("X")];
    e := b.Name("f");
    e := b.WithAnyParameters();
    r := b.Built();
    Types.SubtypesOfAX();
  }

  /** `create().ofSubType("B").ofSubType("X").name("f").withAnyParameters()` */
  method SubtypeOfBThenXChain() returns (r: Result<MethodMatcher, ConfigError>)
    ensures r == Success(Types.SUB_B_SUB_X)
    ensures MatchedLines(Types.TYPES_HIERARCHY, Single(r.value), false, Types.TYPES_TREES) == [5, 8, 13, 14]
  {
    var b := new MethodMatchersBuilder.Create();
    var e := b.OfSubType("B");
    e := b.OfSubType("X");
    assert b.types == Specific([SubtypeOf("B"), SubtypeOf("X")]);
    e := b.Name("f");
    e := b.WithAnyParameters();
    r := b.Built();
    Types.SubtypeOfBThenX();
  }

  // ---------------------------------------------------------------------------
  // NamesScenarios

  /** `create().ofType("A").name("a").withAnyParameters()` */
  method OneNameAChain() returns (r: Result<MethodMatcher, ConfigError>)
    ensures r == Success(Names.NAME_A)
    ensures MatchedLines(Names.NAMES_HIERARCHY, Single(r.value), false, Names.NAMES_TREES) == [2, 8]
  {
    var b := new MethodMatchersBuilder.Create();
    var e := b.OfType("A");
    e := b.Name("a");
    e := b.WithAnyParameters();
    r := b.Built();
    Names.OneNameA();
  }

  /** `create().ofType("A").name("aa").withAnyParameters()` */
  method OneNameAAChain() returns (r: Result<MethodMatcher, ConfigError>)
    ensures r == Success(Names.NAME_AA)
    ensures MatchedLines(Names.NAMES_HIERARCHY, Single(r.value), false, Names.NAMES_TREES) == [3, 9]
  {
    var b := new MethodMatchersBuilder.Create();
    var e := b.OfType("A");
    e := b.Name("aa");
    e := b.WithAnyParameters();
    r := b.Built();
    Names.OneNameAA();
  }

  /** `create().ofType("A").name("b").withAnyParameters()` */
  method OneNameBChain() returns (r: Result<MethodMatcher, ConfigError>)
    ensures r == Success(Names.NAME_B)
    ensures MatchedLines(Names.NAMES_HIERARCHY, Single(r.value), false, Names.NAMES_TREES) == [4, 10]
  {
    var b := new MethodMatchersBuilder.Create();
    var e := b.OfType("A");
    e := b.Name("b");
    e := b.WithAnyParameters();
    r := b.Built();
    Names.OneNameB();
  }

  /** `create().ofType("A").names("a", "b").withAnyParameters()` */
  method SeveralNamesChain() returns (r: Result<MethodMatcher, ConfigError>)
    ensures r == Success(Names.NAMES_A_B)
    ensures MatchedLines(Names.NAMES_HIERARCHY, Single(r.value), false, Names.NAMES_TREES) == [2, 4, 8, 10]
  {
    var b := new MethodMatchersBuilder.Create();
    var e := b.OfType("A");
    e := b.Names({"a", "b"});
    e := b.WithAnyParameters();
    r := b.Built();
    Names.SeveralNames();
  }

  /** `create().ofType("A").name("a").name("b").withAnyParameters()` */
  method RepeatedNameChain() returns (r: Result<MethodMatcher, ConfigError>)
    ensures r == Success(Names.NAME_A_NAME_B)
    ensures MatchedLines(Names.NAMES_HIERARCHY, Single(r.value), false, Names.NAMES_TREES) == [2, 4, 8, 10]
  {
    var b := new MethodMatchersBuilder.Create();
    var e := b.OfType("A");
    e := b.Name("a");
    e := b.Name("b");
    assert b.names == Specific([Names({"a"}), Names({"b"})]);
    e := b.WithAnyParameters();
    r := b.Built();
    Names.RepeatedName();
  }

  /** `create().ofType("A").startWithName("a").withAnyParameters()` */
  method StartWithNameChain() returns (r: Result<MethodMatcher, ConfigError>)
    ensures r == Success(Names.START_A)
    ensures MatchedLines(Names.NAMES_HIERARCHY, Single(r.value), false, Names.NAMES_TREES) == [2, 3, 8, 9]
  {
    var b := new MethodMatchersBuilder.Create();
    var e := b.OfType("A");
    e := b.StartWithName("a");
    e := b.WithAnyParameters();
    r := b.Built();
    Names.StartWithName();
  }

  /** `create().ofType("A").anyName().withAnyParameters()` */
  method AnyNameOfAChain() returns (r: Result<MethodMatcher, ConfigError>)
    ensures r == Success(Names.ANY_NAME_OF_A)
    ensures MatchedLines(Names.NAMES_HIERARCHY, Single(r.value), false, Names.NAMES_TREES) == [2, 3, 4, 8, 9, 10]
  {
    var b := new MethodMatchersBuilder.Create();
    var e := b.OfType("A");
    e := b.AnyName();
    e := b.WithAnyParameters();
    r := b.Built();
    Names.AnyNameOfA();
  }

  /** `create().ofType("A").name("B"::equalsIgnoreCase).withAnyParameters()` */
  method NamePredicateIgnoringCaseChain() returns (r: Result<MethodMatcher, ConfigError>)
    ensures r == Success(Names.IGNORE_CASE_B)
    ensures MatchedLines(Names.NAMES_HIERARCHY, Single(r.value), false, Names.NAMES_TREES) == [4, 10]
  {
    var b := new MethodMatchersBuilder.Create();
    var e := b.OfType("A");
    e := b.NameMatching(Names.EQUALS_IGNORE_CASE_B);
    e := b.WithAnyParameters();
    r := b.Built();
    Names.NamePredicateIgnoringCase();
  }

  /** `create().ofType("Main").constructor().withAnyParameters()` */
  method ConstructorOfMainChain() returns (r: Result<MethodMatcher, ConfigError>)
    ensures r == Success(Names.CTOR_MAIN)
    ensures MatchedLines(Names.NAMES_HIERARCHY, Single(r.value), false, Names.NAMES_TREES) == [11]
  {
    var b := new MethodMatchersBuilder.Create();
    var e := b.OfType("Main");
    e := b.Constructor();
    e := b.WithAnyParameters();
    r := b.Built();
    Names.ConstructorOfMain();
  }

  // ---------------------------------------------------------------------------
  // ParametersScenarios

  /** `create().ofType("A").name("f").withoutParameters()` */
  method WithoutParametersChain() returns (r: Result<MethodMatcher, ConfigError>)
    ensures r == Success(Parameters.WITHOUT)
    ensures MatchedLines(Parameters.PARAMETERS_HIERARCHY, Single(r.value), false, Parameters.PARAMETERS_TREES) == [2, 7]
  {
    var b := new MethodMatchersBuilder.Create();
    var e := b.OfType("A");
    e := b.Name("f");
    e := b.WithoutParameters();
    r := b.Built();
    Parameters.WithoutParameters();
  }

  /** `create().ofType("A").name("f").withParameters("int")` */
  method WithParametersIntChain() returns (r: Result<MethodMatcher, ConfigError>)
    ensures r == Success(Parameters.WITH_INT)
    ensures MatchedLines(Parameters.PARAMETERS_HIERARCHY, Single(r.value), false, Parameters.PARAMETERS_TREES) == [3, 8, 10]
  {
    var b := new MethodMatchersBuilder.Create();
    var e := b.OfType("A");
    e := b.Name("f");
    e := b.WithParameters(["int"]);
    assert Signature(["int"]) == [ExactType("int")];
    r := b.Built();
    Parameters.WithParametersInt();
  }

  /** `create().ofType("A").name("f").withParameters("int", "long")` */
  method WithParametersIntLongChain() returns (r: Result<MethodMatcher, ConfigError>)
    ensures r == Success(Parameters.WITH_INT_LONG)
    ensures MatchedLines(Parameters.PARAMETERS_HIERARCHY, Single(r.value), false, Parameters.PARAMETERS_TREES) == [4, 9]
  {
    var b := new MethodMatchersBuilder.Create();
    var e := b.OfType("A");
    e := b.Name("f");
    e := b.WithParameters(["int", "long"]);
    assert Signature(["int", "long"]) == [ExactType("int"), ExactType("long")];
    r := b.Built();
    Parameters.WithParametersIntLong();
  }

  /** `create().ofType("A").name("f").withParameters("int").withParameters("int", "long")` */
  method TwoSignaturesChain() returns (r: Result<MethodMatcher, ConfigError>)
    ensures r == Success(Parameters.INT_OR_INT_LONG)
    ensures MatchedLines(Parameters.PARAMETERS_HIERARCHY, Single(r.value), false, Parameters.PARAMETERS_TREES) == [3, 4, 8, 9, 10]
  {
    var b := new MethodMatchersBuilder.Create();
    var e := b.OfType("A");
    e := b.Name("f");
    e := b.WithParameters(["int"]);
    assert Signature(["int"]) == [ExactType("int")];
    e := b.WithParameters(["int", "long"]);
    assert Signature(["int", "long"]) == [ExactType("int"), ExactType("long")];
    assert b.parameters == Specific([ExactParameters([ExactType("int")]), ExactParameters([ExactType("int"), ExactType("long")])]);
    r := b.Built();
    Parameters.TwoSignatures();
  }

  /** `create().ofType("A").name("f").withoutParameters().withParameters("int").withParameters("int", "long")` */
  method ThreeSignaturesChain() returns (r: Result<MethodMatcher, ConfigError>)
    ensures r == Success(Parameters.NONE_INT_INT_LONG)
    ensures MatchedLines(Parameters.PARAMETERS_HIERARCHY, Single(r.value), false, Parameters.PARAMETERS_TREES) == [2, 3, 4, 7, 8, 9, 10]
  {
    var b := new MethodMatchersBuilder.Create();
    var e := b.OfType("A");
    e := b.Name("f");
    e := b.WithoutParameters();
    e := b.WithParameters(["int"]);
    assert Signature(["int"]) == [ExactType("int")];
    assert b.parameters == Specific([NoParameters, ExactParameters([ExactType("int")])]);
    e := b.WithParameters(["int", "long"]);
    assert Signature(["int", "long"]) == [ExactType("int"), ExactType("long")];
    assert b.parameters == Specific([NoParameters, ExactParameters([ExactType("int")]), ExactParameters([ExactType("int"), ExactType("long")])]);
    r := b.Built();
    Parameters.ThreeSignatures();
  }

  /** `create().ofType("A").name("f").startWithParameters("int")` */
  method StartWithParametersIntChain() returns (r: Result<MethodMatcher, ConfigError>)
    ensures r == Success(Parameters.START_INT)
    ensures MatchedLines(Parameters.PARAMETERS_HIERARCHY, Single(r.value), false, Parameters.PARAMETERS_TREES) == [3, 4, 8, 9, 10]
  {
    var b := new MethodMatchersBuilder.Create();
    var e := b.OfType("A");
    e := b.Name("f");
    e := b.StartWithParameters(["int"]);
    assert Signature(["int"]) == [ExactType("int")];
    r := b.Built();
    Parameters.StartWithParametersInt();
  }

  /** `create().ofType("A").name("f").withAnyParameters()` */
  method AnyParametersOfFChain() returns (r: Result<MethodMatcher, ConfigError>)
    ensures r == Success(Parameters.ANY_PARAMETERS)
    ensures MatchedLines(Parameters.PARAMETERS_HIERARCHY, Single(r.value), false, Parameters.PARAMETERS_TREES) == [2, 3, 4, 5, 7, 8, 9, 10]
  {
    var b := new MethodMatchersBuilder.Create();
    var e := b.OfType("A");
    e := b.Name("f");
    e := b.WithAnyParameters();
    r := b.Built();
    Parameters.AnyParametersOfF();
  }

  /** `create().ofType("A").name("f").withParameters(type -> true)` */
  method EveryParameterListChain() returns (r: Result<MethodMatcher, ConfigError>)
    ensures r == Success(Parameters.EVERY_LIST)
    ensures MatchedLines(Parameters.PARAMETERS_HIERARCHY, Single(r.value), false, Parameters.PARAMETERS_TREES) == [2, 3, 4, 5, 7, 8, 9, 10]
  {
    var b := new MethodMatchersBuilder.Create();
    var e := b.OfType("A");
    e := b.Name("f");
    e := b.WithParametersMatching(Parameters.ALWAYS);
    r := b.Built();
    Parameters.EveryParameterList();
  }

  /** `create().ofType("A").name("f").withParameters(type -> type.is("int"), type -> !type.is("int"))` */
  method PositionPredicatesChain() returns (r: Result<MethodMatcher, ConfigError>)
    ensures r == Success(Parameters.INT_THEN_NOT_INT)
    ensures MatchedLines(Parameters.PARAMETERS_HIERARCHY, Single(r.value), false, Parameters.PARAMETERS_TREES) == [4, 9]
  {
    var b := new MethodMatchersBuilder.Create();
    var e := b.OfType("A");
    e := b.Name("f");
    e := b.WithParameterCriteria([TypePredicate(Parameters.IS_INT), TypePredicate(Parameters.IS_NOT_INT)]);
    r := b.Built();
    Parameters.PositionPredicates();
  }

  /** `create().ofType("A").name("f").startWithParameters(type -> type.is("int"))` */
  method StartWithPredicateChain() returns (r: Result<MethodMatcher, ConfigError>)
    ensures r == Success(Parameters.START_INT_PREDICATE)
    ensures MatchedLines(Parameters.PARAMETERS_HIERARCHY, Single(r.value), false, Parameters.PARAMETERS_TREES) == [3, 4, 8, 9, 10]
  {
    var b := new MethodMatchersBuilder.Create();
    var e := b.OfType("A");
    e := b.Name("f");
    e := b.StartWithParameterCriteria([TypePredicate(Parameters.IS_INT)]);
    r := b.Built();
    Parameters.StartWithPredicate();
  }

  // ---------------------------------------------------------------------------
  // InheritanceScenarios

  /** `create().ofType("java.lang.Object").name("toString").withoutParameters()` */
  method ExactObjectToStringChain() returns (r: Result<MethodMatcher, ConfigError>)
    ensures r == Success(Inheritance.OBJECT_TO_STRING)
    ensures MatchedLines(Inheritance.INHERITANCE_HIERARCHY, Single(r.value), false, Inheritance.INHERITANCE_TREES) == [26]
  {
    var b := new MethodMatchersBuilder.Create();
    var e := b.OfType("java.lang.Object");
    e := b.Name("toString");
    e := b.WithoutParameters();
    r := b.Built();
    Inheritance.ExactObjectToString();
  }

  /** `create().ofSubType("java.lang.Object").name("toString").withoutParameters()` */
  method SubtypeOfObjectToStringChain() returns (r: Result<MethodMatcher, ConfigError>)
    ensures r == Success(Inheritance.SUB_OBJECT_TO_STRING)
    ensures MatchedLines(Inheritance.INHERITANCE_HIERARCHY, Single(r.value), false, Inheritance.INHERITANCE_TREES) == [26, 27]
  {
    var b := new MethodMatchersBuilder.Create();
    var e := b.OfSubType("java.lang.Object");
    e := b.Name("toString");
    e := b.WithoutParameters();
    r := b.Built();
    Inheritance.SubtypeOfObjectToString();
  }

  /** `create().ofType(TypeCriteria.is("pkg.B")).name("f").withoutParameters()` */
  method ExactBNoParametersChain() returns (r: Result<MethodMatcher, ConfigError>)
    ensures r == Success(Inheritance.B_F)
    ensures MatchedLines(Inheritance.INHERITANCE_HIERARCHY, Single(r.value), false, Inheritance.INHERITANCE_TREES) == [12, 28]
  {
    var b := new MethodMatchersBuilder.Create();
    var e := b.OfTypeMatching(Inheritance.IS_PKG_B);
    e := b.Name("f");
    e := b.WithoutParameters();
    r := b.Built();
    Inheritance.ExactBNoParameters();
  }

  /** `create().ofSubType("pkg.B").name("f").withoutParameters()` */
  method SubtypeOfBNoParametersChain() returns (r: Result<MethodMatcher, ConfigError>)
    ensures r == Success(Inheritance.SUB_B_F)
    ensures MatchedLines(Inheritance.INHERITANCE_HIERARCHY, Single(r.value), false, Inheritance.INHERITANCE_TREES) == [12, 28, 34]
  {
    var b := new MethodMatchersBuilder.Create();
    var e := b.OfSubType("pkg.B");
    e := b.Name("f");
    e := b.WithoutParameters();
    r := b.Built();
    Inheritance.SubtypeOfBNoParameters();
  }

  /** `create().ofSubType("pkg.B").name("f").withParameters("int")` */
  method SubtypeOfBIntChain() returns (r: Result<MethodMatcher, ConfigError>)
    ensures r == Success(Inheritance.SUB_B_F_INT)
    ensures MatchedLines(Inheritance.INHERITANCE_HIERARCHY, Single(r.value), false, Inheritance.INHERITANCE_TREES) == [16, 20, 29, 30, 31, 32, 33, 35, 36]
  {
    var b := new MethodMatchersBuilder.Create();
    var e := b.OfSubType("pkg.B");
    e := b.Name("f");
    e := b.WithParameters(["int"]);
    assert Signature(["int"]) == [ExactType("int")];
    r := b.Built();
    Inheritance.SubtypeOfBInt();
  }

  /** `create().ofSubType("pkg.F").name("f").withoutParameters()` */
  method SubtypeOfFNoParametersChain() returns (r: Result<MethodMatcher, ConfigError>)
    ensures r == Success(Inheritance.SUB_F_F)
    ensures MatchedLines(Inheritance.INHERITANCE_HIERARCHY, Single(r.value), false, Inheritance.INHERITANCE_TREES) == [34]
  {
    var b := new MethodMatchersBuilder.Create();
    var e := b.OfSubType("pkg.F");
    e := b.Name("f");
    e := b.WithoutParameters();
    r := b.Built();
    Inheritance.SubtypeOfFNoParameters();
  }

  /** `create().ofType("pkg.A").name("f").withParameters("int")` */
  method ExactAIntChain() returns (r: Result<MethodMatcher, ConfigError>)
    ensures r == Success(Inheritance.A_F_INT)
    ensures MatchedLines(Inheritance.INHERITANCE_HIERARCHY, Single(r.value), false, Inheritance.INHERITANCE_TREES) == []
  {
    var b := new MethodMatchersBuilder.Create();
    var e := b.OfType("pkg.A");
    e := b.Name("f");
    e := b.WithParameters(["int"]);
    assert Signature(["int"]) == [ExactType("int")];
    r := b.Built();
    Inheritance.ExactAInt();
  }

  /** `create().ofType("pkg.B").name("f").withParameters("int")` */
  method ExactBIntChain() returns (r: Result<MethodMatcher, ConfigError>)
    ensures r == Success(Inheritance.B_F_INT)
    ensures MatchedLines(Inheritance.INHERITANCE_HIERARCHY, Single(r.value), false, Inheritance.INHERITANCE_TREES) == [29]
  {
    var b := new MethodMatchersBuilder.Create();
    var e := b.OfType("pkg.B");
    e := b.Name("f");
    e := b.WithParameters(["int"]);
    assert Signature(["int"]) == [ExactType("int")];
    r := b.Built();
    Inheritance.ExactBInt();
  }

  /** `create().ofType("pkg.C").name("f").withParameters("int")` */
  method ExactCIntChain() returns (r: Result<MethodMatcher, ConfigError>)
    ensures r == Success(Inheritance.C_F_INT)
    ensures MatchedLines(Inheritance.INHERITANCE_HIERARCHY, Single(r.value), false, Inheritance.INHERITANCE_TREES) == [16, 30]
  {
    var b := new MethodMatchersBuilder.Create();
    var e := b.OfType("pkg.C");
    e := b.Name("f");
    e := b.WithParameters(["int"]);
    assert Signature(["int"]) == [ExactType("int")];
    r := b.Built();
    Inheritance.ExactCInt();
  }

  /** `create().ofSubType("pkg.D").name("f").withParameters("int")` */
  method SubtypeOfDIntChain() returns (r: Result<MethodMatcher, ConfigError>)
    ensures r == Success(Inheritance.SUB_D_F_INT)
    ensures MatchedLines(Inheritance.INHERITANCE_HIERARCHY, Single(r.value), false, Inheritance.INHERITANCE_TREES) == [20, 31, 32, 33, 35, 36]
  {
    var b := new MethodMatchersBuilder.Create();
    var e := b.OfSubType("pkg.D");
    e := b.Name("f");
    e := b.WithParameters(["int"]);
    assert Signature(["int"]) == [ExactType("int")];
    r := b.Built();
    Inheritance.SubtypeOfDInt();
  }

  /** `create().ofType("pkg.D").name("f").withParameters("int")` */
  method ExactDIntChain() returns (r: Result<MethodMatcher, ConfigError>)
    ensures r == Success(Inheritance.D_F_INT)
    ensures MatchedLines(Inheritance.INHERITANCE_HIERARCHY, Single(r.value), false, Inheritance.INHERITANCE_TREES) == [20, 31, 35]
  {
    var b := new MethodMatchersBuilder.Create();
    var e := b.OfType("pkg.D");
    e := b.Name("f");
    e := b.WithParameters(["int"]);
    assert Signature(["int"]) == [ExactType("int")];
    r := b.Built();
    Inheritance.ExactDInt();
  }

  /** `create().ofType("pkg.E").name("f").withParameters("int")` */
  method ExactEIntChain() returns (r: Result<MethodMatcher, ConfigError>)
    ensures r == Success(Inheritance.E_F_INT)
    ensures MatchedLines(Inheritance.INHERITANCE_HIERARCHY, Single(r.value), false, Inheritance.INHERITANCE_TREES) == [32, 36]
  {
    var b := new MethodMatchersBuilder.Create();
    var e := b.OfType("pkg.E");
    e := b.Name("f");
    e := b.WithParameters(["int"]);
    assert Signature(["int"]) == [ExactType("int")];
    r := b.Built();
    Inheritance.ExactEInt();
  }

  /** `create().ofType("pkg.F").name("f").withParameters("int")` */
  method ExactFIntChain() returns (r: Result<MethodMatcher, ConfigError>)
    ensures r == Success(Inheritance.F_F_INT)
    ensures MatchedLines(Inheritance.INHERITANCE_HIERARCHY, Single(r.value), false, Inheritance.INHERITANCE_TREES) == [33]
  {
    var b := new MethodMatchersBuilder.Create();
    var e := b.OfType("pkg.F");
    e := b.Name("f");
    e := b.WithParameters(["int"]);
    assert Signature(["int"]) == [ExactType("int")];
    r := b.Built();
    Inheritance.ExactFInt();
  }

  /** `create().ofSubType("pkg.A").name("f").withParameters("int")` */
  method SubtypeOfAIntChain() returns (r: Result<MethodMatcher, ConfigError>)
    ensures r == Success(Inheritance.SUB_A_F_INT)
    ensures MatchedLines(Inheritance.INHERITANCE_HIERARCHY, Single(r.value), false, Inheritance.INHERITANCE_TREES) == [16, 20, 29, 30, 31, 32, 33, 35, 36]
  {
    var b := new MethodMatchersBuilder.Create();
    var e := b.OfSubType("pkg.A");
    e := b.Name("f");
    e := b.WithParameters(["int"]);
    assert Signature(["int"]) == [ExactType("int")];
    r := b.Built();
    Inheritance.SubtypeOfAInt();
  }

  /** `create().ofSubType("pkg.I").name("f").withParameters("int")` */
  method SubtypeOfIIntChain() returns (r: Result<MethodMatcher, ConfigError>)
    ensures r == Success(Inheritance.SUB_I_F_INT)
    ensures MatchedLines(Inheritance.INHERITANCE_HIERARCHY, Single(r.value), false, Inheritance.INHERITANCE_TREES) == [5, 16, 20, 29, 30, 31, 32, 33, 35, 36]
  {
    var b := new MethodMatchersBuilder.Create();
    var e := b.OfSubType("pkg.I");
    e := b.Name("f");
    e := b.WithParameters(["int"]);
    assert Signature(["int"]) == [ExactType("int")];
    r := b.Built();
    Inheritance.SubtypeOfIInt();
  }

  /** `create().ofSubType("pkg.J").name("f").withParameters("int")` */
  method SubtypeOfJIntChain() returns (r: Result<MethodMatcher, ConfigError>)
    ensures r == Success(Inheritance.SUB_J_F_INT)
    ensures MatchedLines(Inheritance.INHERITANCE_HIERARCHY, Single(r.value), false, Inheritance.INHERITANCE_TREES) == [9, 16, 20, 29, 30, 31, 32, 33, 35, 36, 37]
  {
    var b := new MethodMatchersBuilder.Create();
    var e := b.OfSubType("pkg.J");
    e := b.Name("f");
    e := b.WithParameters(["int"]);
    assert Signature(["int"]) == [ExactType("int")];
    r := b.Built();
    Inheritance.SubtypeOfJInt();
  }
}
