# Method matchers of the Java analyzer, and five rules built on them

This project models, in Dafny, the method-matcher engine of the SonarSource
Java analyzer (`MethodMatchers`, its builder and its type, name and
parameter criteria) as its test suite pins it down, and the decision logic of
five rules written on top of it.

The engine:

- **Type hierarchy** (`hierarchy.dfy`). A finite map from a qualified type name to its direct supertypes. `ofSubType` is a worklist search over it, proved equal to reachability; closed sets of types prove non-inheritance.
- **Criteria** (`criteria.dfy`). The three kinds of criteria: owner type, method name (`"<init>"` for constructors) and parameter list.
- **Matching** (`matchers.dfy`). A subject (owner, name, parameter types, resolved flag) is matched against a disjunction of matchers. Each matcher is the conjunction of three lists of alternatives, one per kind; a kind whose list is empty never matches. When a call tree is matched, the owner compared is the static type of the receiver. Unresolved subjects never match.
- **Builder** (`builder.dfy`). The fluent builder is a class with one state per criterion kind: unset, specific, or "any". Mixing "any" with specific criteria is refused, and so is a query on a matcher with a kind never set.
- **Test visitor** (`match_visitor.dfy`). It collects the lines of the matching trees.
- **Test assertions replayed** (`types_scenarios.dfy`, `names_scenarios.dfy`, `parameters_scenarios.dfy`, `scenarios.dfy`, `inheritance_scenarios.dfy`). Each assertion of the test suite is a lemma about the lines collected from the trees of its source text.
- **Builder chains** (`builder_chains.dfy`). Each chain of builder calls a test writes is run on a fresh builder, and shown to build exactly the matcher its assertion is proved about.

The rules:

- **SQL injection** (`sql_injection.dfy`). The first `String` argument of a query sink is reported when it is built by run-time concatenation.
- **Primitive-wrapper constructors** (`string_primitive_constructor.dfy`). `new String(...)`, boxing constructors and `new BigInteger("...")` are reported, the last only when the literal fits in a `long`.
- **Environment access hotspot** (`env_variables_hotspot.dfy`). `System.getenv`, `ProcessBuilder.environment()` and `Runtime.exec` with an environment of its own.
- **Random float cast to int** (`random_float_to_int.dfy`). Random `double`/`float` calls under a cast to `int`.
- **Inappropriate regular expressions** (`inappropriate_regexp.dfy`). `replaceAll`/`replaceFirst` whose pattern is `"."`, `"|"` or `File.separator`.

The legacy builder calls the rules use (`ofTypes`, `TypeCriteria.subtypeOf`, `names("<init>")`, `addWithoutParametersMatcher`, `addParameter`) are expressed with the same criteria. The rules' tables are lists of groups (`tables.dfy`).

## Model

| member | source | states |
|---|---|---|
| TypeHierarchy.Search | java-frontend/src/test/java/org/sonar/plugins/java/api/semantic/MethodMatchersTest.java:77-80 | the worklist search over direct supertypes finds `target` exactly when some type on the stack or already visited inherits from it |
| TypeHierarchy.IsSubtypeOf | java-frontend/src/test/java/org/sonar/plugins/java/api/semantic/MethodMatchersTest.java:77-80 | `ofSubType(n)` on a type `t` holds exactly when `t` is `n` or reaches `n` through superclasses and interfaces |
| TypeHierarchy.ReachesInMono | java-frontend/src/test/java/org/sonar/plugins/java/api/semantic/MethodMatchersTest.java:325-332 | a chain of at most k steps is also one of at most k' >= k steps |
| TypeHierarchy.ReachesInTrans | java-frontend/src/test/java/org/sonar/plugins/java/api/semantic/MethodMatchersTest.java:325-332 | chains through the hierarchy compose, and their lengths add |
| TypeHierarchy.SubtypeTransitive | java-frontend/src/test/java/org/sonar/plugins/java/api/semantic/MethodMatchersTest.java:325-332 | inheritance is transitive: a subtype of a subtype of `c` is a subtype of `c` |
| TypeHierarchy.SubtypeReflexive | java-frontend/src/test/java/org/sonar/plugins/java/api/semantic/MethodMatchersTest.java:77-78 | every type is a subtype of itself |
| TypeHierarchy.SubtypeOfDirectSuper | java-frontend/src/test/java/org/sonar/plugins/java/api/semantic/MethodMatchersTest.java:328-332 | the superclass and every implemented interface are supertypes |
| TypeHierarchy.StepForwardAll | java-frontend/src/test/java/org/sonar/plugins/java/api/semantic/MethodMatchersTest.java:325-332 | inheriting from a direct supertype that inherits from `n` means inheriting from `n` |
| TypeHierarchy.StepBack | java-frontend/src/test/java/org/sonar/plugins/java/api/semantic/MethodMatchersTest.java:325-332 | a proper subtype of `n` has a direct supertype that is a subtype of `n` |
| TypeHierarchy.ClosedSetBlocksIn | java-frontend/src/test/java/org/sonar/plugins/java/api/semantic/MethodMatchersTest.java:79-80 | no chain of any length leaves a set closed under supertypes |
| TypeHierarchy.ClosedSetBlocks | java-frontend/src/test/java/org/sonar/plugins/java/api/semantic/MethodMatchersTest.java:79-80 | a type inside a set closed under supertypes does not inherit from a type outside it |
| TypeHierarchy.ClosedSetBlocksAll | java-frontend/src/test/java/org/sonar/plugins/java/api/semantic/MethodMatchersTest.java:304-305 | no member of a set closed under supertypes inherits from a type outside it |
| TypeHierarchy.NoSupersOnlySelf | java-frontend/src/test/java/org/sonar/plugins/java/api/semantic/MethodMatchersTest.java:289-290 | a type without supertypes, such as `java.lang.Object`, is a subtype of itself only |
| Criteria.SignatureAccepts | java-frontend/src/test/java/org/sonar/plugins/java/api/semantic/MethodMatchersTest.java:164-167 | `withParameters("int", "long")` accepts exactly the parameter list made of those known types, in that order |
| Criteria.TypeSatisfies | java-frontend/src/test/java/org/sonar/plugins/java/api/semantic/MethodMatchersTest.java:69-80 | `ofType(n)` accepts exactly the type named `n`; `ofSubType(n)` exactly the known types that are or inherit from `n`; an unknown type passes only "any" or a predicate |
| Criteria.NameSatisfies | java-frontend/src/test/java/org/sonar/plugins/java/api/semantic/MethodMatchersTest.java:127-140 | `name`/`names` accept exactly their members, `startWithName(p)` exactly the names beginning with `p`, `constructor()` exactly `<init>` (so only a name starting with `<`), `anyName()` every name and a name predicate exactly what it accepts |
| Criteria.ParametersSatisfy | java-frontend/src/test/java/org/sonar/plugins/java/api/semantic/MethodMatchersTest.java:160-197 | `withoutParameters()` accepts only the empty list; an exact signature fixes the arity and tests each position; a prefix needs at least its length; "any" and the empty prefix accept every list |
| Criteria.SubtypeOfReflexiveTransitive | java-frontend/src/test/java/org/sonar/plugins/java/api/semantic/MethodMatchersTest.java:325-332 | `ofSubType` accepts the type itself and follows inheritance through any number of steps |
| Criteria.ExactImpliesSubtype | java-frontend/src/test/java/org/sonar/plugins/java/api/semantic/MethodMatchersTest.java:292-296 | whatever `ofType(n)` accepts, `ofSubType(n)` accepts too |
| Criteria.UnknownTypeSatisfiesOnlyAny | java-frontend/src/test/java/org/sonar/plugins/java/api/semantic/MethodMatchersTest.java:223-224 | an unknown type satisfies only the any-type criterion or a predicate that accepts it |
| Criteria.PrefixOfOneCharacter | java-frontend/src/test/java/org/sonar/plugins/java/api/semantic/MethodMatchersTest.java:127-128 | a one-character prefix accepts exactly the names whose first character is that character |
| Criteria.InitNameIsConstructor | java-checks/src/main/java/org/sonar/java/checks/SQLInjectionCheck.java:76 | the legacy `names("<init>")` accepts the same names as `constructor()` |
| Criteria.ConstructorRejectsIdentifiers | java-frontend/src/test/java/org/sonar/plugins/java/api/semantic/MethodMatchersTest.java:139-140 | `constructor()` never accepts an ordinary method name |
| Criteria.NoParametersIsEmptySignature | java-frontend/src/test/java/org/sonar/plugins/java/api/semantic/MethodMatchersTest.java:160-161 | `withoutParameters()` accepts exactly what an empty exact signature accepts |
| Criteria.ExactParametersOfOne | java-frontend/src/test/java/org/sonar/plugins/java/api/semantic/MethodMatchersTest.java:164-165 | `withParameters("int")`: exactly one parameter, satisfying the criterion |
| Criteria.ExactParametersOfTwo | java-frontend/src/test/java/org/sonar/plugins/java/api/semantic/MethodMatchersTest.java:166-167 | a two-type signature: exactly two parameters, each satisfying its criterion |
| Criteria.PrefixParametersOfOne | java-frontend/src/test/java/org/sonar/plugins/java/api/semantic/MethodMatchersTest.java:181-183 | `startWithParameters("int")`: at least one parameter, the first satisfying the criterion |
| Criteria.PrefixParametersIgnoreTail | java-frontend/src/test/java/org/sonar/plugins/java/api/semantic/MethodMatchersTest.java:181-183 | extra trailing parameters never spoil a prefix match |
| Criteria.PrefixIsExactOnPrefix | java-frontend/src/test/java/org/sonar/plugins/java/api/semantic/MethodMatchersTest.java:181-183 | a prefix match is an exact match of as many leading parameters as there are criteria |
| Matchers.Or | java-frontend/src/test/java/org/sonar/plugins/java/api/semantic/MethodMatchersTest.java:229-236 | `or(...)` keeps every alternative of every argument and adds none: a matcher is an alternative of the result exactly when it is one of some argument |
| Matchers.MatcherMatches | java-frontend/src/test/java/org/sonar/plugins/java/api/semantic/MethodMatchersTest.java:69-92 | a matcher matches only a resolved subject, and a matcher with an empty list of alternatives for any kind never matches |
| Matchers.Matches | java-frontend/src/test/java/org/sonar/plugins/java/api/semantic/MethodMatchersTest.java:239-240 | matching needs a resolved subject and at least one matcher |
| Matchers.TreeSubject | java-frontend/src/test/java/org/sonar/plugins/java/api/semantic/MethodMatchersTest.java:217-226 | on a tree the owner compared is the receiver's static type for a qualified call or a method reference; name, parameters and resolution come from the symbol |
| Matchers.SymbolSubject | java-frontend/src/test/java/org/sonar/plugins/java/api/semantic/MethodMatchersTest.java:219-220 | on a symbol the owner, name and parameters are the symbol's, and a method reference's symbol never counts as resolved |
| Matchers.EmptyMatchesNothing | java-frontend/src/test/java/org/sonar/plugins/java/api/semantic/MethodMatchersTest.java:239-240 | `MethodMatchers.empty()` matches no subject |
| Matchers.UnresolvedNeverMatches | java-frontend/src/test/java/org/sonar/plugins/java/api/semantic/MethodMatchersTest.java:219-224 | an unresolved subject matches no matcher at all |
| Matchers.AnyMatcherMatchesResolved | java-frontend/src/test/java/org/sonar/plugins/java/api/semantic/MethodMatchersTest.java:83-84 | any type, any name and any parameters together match exactly the resolved subjects |
| Matchers.SingleCriteria | java-frontend/src/test/java/org/sonar/plugins/java/api/semantic/MethodMatchersTest.java:113-118 | a matcher with one criterion per kind matches exactly when the subject is resolved and meets all three |
| Matchers.SingleCriteriaOnTree | java-frontend/src/test/java/org/sonar/plugins/java/api/semantic/MethodMatchersTest.java:217-218 | tree mode tests the criteria on the subject the tree offers, whose owner is the receiver type |
| Matchers.SingleCriteriaOnSymbol | java-frontend/src/test/java/org/sonar/plugins/java/api/semantic/MethodMatchersTest.java:219-220 | symbol mode tests the criteria on the resolved symbol |
| Matchers.MatchesAppend | java-frontend/src/test/java/org/sonar/plugins/java/api/semantic/MethodMatchersTest.java:229-232 | joining two lists of alternatives matches the union of what each matches |
| Matchers.OrIsUnion | java-frontend/src/test/java/org/sonar/plugins/java/api/semantic/MethodMatchersTest.java:229-236 | `or(m1, ..., mn)` matches exactly what at least one `mi` matches |
| Matchers.OrOfTwo | java-frontend/src/test/java/org/sonar/plugins/java/api/semantic/MethodMatchersTest.java:229-232 | the two-argument `or` is the union of its two arguments |
| Matchers.TypeCriteriaAreAlternatives | java-frontend/src/test/java/org/sonar/plugins/java/api/semantic/MethodMatchersTest.java:87-92 | within one matcher the owner criteria are alternatives (`ofTypes("B", "X")`, repeated `ofSubType`) |
| Matchers.NameCriteriaAreAlternatives | java-frontend/src/test/java/org/sonar/plugins/java/api/semantic/MethodMatchersTest.java:121-124 | within one matcher the name criteria are alternatives (`names("a", "b")`, repeated `name`) |
| Matchers.ParameterCriteriaAreAlternatives | java-frontend/src/test/java/org/sonar/plugins/java/api/semantic/MethodMatchersTest.java:170-178 | repeated `withParameters`/`withoutParameters` are alternative signatures |
| Matchers.KindsAreConjoined | java-frontend/src/test/java/org/sonar/plugins/java/api/semantic/MethodMatchersTest.java:113-118 | a match meets some owner criterion, some name criterion and some parameter criterion |
| Matchers.ReceiverTypeDecides | java-frontend/src/test/java/org/sonar/plugins/java/api/semantic/MethodMatchersTest.java:316-323 | for a qualified call or a method reference, the owner compared is the receiver type, whatever class declares the method |
| Matchers.SymbolOfReferenceNeverMatches | java-frontend/src/test/java/org/sonar/plugins/java/api/semantic/MethodMatchersTest.java:219-220 | in symbol mode a method reference never matches |
| Matchers.TreeAndSymbolAgreeOnOwnClass | java-frontend/src/test/java/org/sonar/plugins/java/api/semantic/MethodMatchersTest.java:223-226 | declarations, `new` expressions and unqualified calls match alike in tree and symbol mode |
| Matchers.SingleMatcherOnTree | java-frontend/src/test/java/org/sonar/plugins/java/api/semantic/MethodMatchersTest.java:371-383 | one matcher on a tree: its criteria, kind by kind, on the subject the tree offers, so an unqualified `f(this)` is owned by the enclosing class |
| Matchers.TypeCriteriaOfTwo | java-frontend/src/test/java/org/sonar/plugins/java/api/semantic/MethodMatchersTest.java:87-92 | two owner alternatives accept what either accepts |
| Matchers.NameCriteriaOfTwo | java-frontend/src/test/java/org/sonar/plugins/java/api/semantic/MethodMatchersTest.java:123-124 | two name alternatives accept what either accepts |
| Matchers.ParameterCriteriaOfTwo | java-frontend/src/test/java/org/sonar/plugins/java/api/semantic/MethodMatchersTest.java:170-173 | two alternative signatures accept what either accepts |
| Matchers.ParameterCriteriaOfThree | java-frontend/src/test/java/org/sonar/plugins/java/api/semantic/MethodMatchersTest.java:174-178 | three alternative signatures accept what any of them accepts |
| MatcherBuilder.Build | java-frontend/src/test/java/org/sonar/plugins/java/api/semantic/MethodMatchersTest.java:350-369 | a matcher is built exactly when every kind was set; otherwise it fails, naming the first kind never set |
| MatcherBuilder.AddSpecific | java-frontend/src/test/java/org/sonar/plugins/java/api/semantic/MethodMatchersTest.java:87-92 | adding specific criteria appends them after the earlier ones, and is refused exactly when "any" was set |
| MatcherBuilder.AddAny | java-frontend/src/test/java/org/sonar/plugins/java/api/semantic/MethodMatchersTest.java:335-348 | "any" is accepted exactly on a kind nothing was added to, and then it is the kind's only criterion |
| MatcherBuilder.MethodMatchersBuilder.Create | java-frontend/src/test/java/org/sonar/plugins/java/api/semantic/MethodMatchersTest.java:350-369 | a new builder has no kind set |
| MatcherBuilder.MethodMatchersBuilder.OfType | java-frontend/src/test/java/org/sonar/plugins/java/api/semantic/MethodMatchersTest.java:69-74 | adds an exact owner type, or refuses it after `ofAnyType()`; the other kinds are unchanged |
| MatcherBuilder.MethodMatchersBuilder.OfTypes | java-frontend/src/test/java/org/sonar/plugins/java/api/semantic/MethodMatchersTest.java:87-88 | adds one exact owner type per name, as alternatives |
| MatcherBuilder.MethodMatchersBuilder.OfSubType | java-frontend/src/test/java/org/sonar/plugins/java/api/semantic/MethodMatchersTest.java:77-80 | adds a subtype owner criterion, or refuses it after `ofAnyType()` |
| MatcherBuilder.MethodMatchersBuilder.OfSubTypes | java-frontend/src/test/java/org/sonar/plugins/java/api/semantic/MethodMatchersTest.java:89-90 | `ofSubTypes("A", "X")` appends one subtype criterion per name, in order; refused after `ofAnyType()`; the other kinds are unchanged |
| MatcherBuilder.MethodMatchersBuilder.OfTypeMatching | java-frontend/src/test/java/org/sonar/plugins/java/api/semantic/MethodMatchersTest.java:292-293 | adds an owner predicate such as `TypeCriteria.is("pkg.B")` |
| MatcherBuilder.MethodMatchersBuilder.OfAnyType | java-frontend/src/test/java/org/sonar/plugins/java/api/semantic/MethodMatchersTest.java:335-338 | `ofAnyType()` succeeds only when no owner criterion was set; otherwise it fails and leaves the builder unchanged |
| MatcherBuilder.MethodMatchersBuilder.Name | java-frontend/src/test/java/org/sonar/plugins/java/api/semantic/MethodMatchersTest.java:113-118 | adds one name alternative |
| MatcherBuilder.MethodMatchersBuilder.Names | java-frontend/src/test/java/org/sonar/plugins/java/api/semantic/MethodMatchersTest.java:121-122 | adds a set of names as one alternative |
| MatcherBuilder.MethodMatchersBuilder.StartWithName | java-frontend/src/test/java/org/sonar/plugins/java/api/semantic/MethodMatchersTest.java:127-128 | adds a name-prefix alternative |
| MatcherBuilder.MethodMatchersBuilder.NameMatching | java-frontend/src/test/java/org/sonar/plugins/java/api/semantic/MethodMatchersTest.java:135-136 | adds a name predicate |
| MatcherBuilder.MethodMatchersBuilder.Constructor | java-frontend/src/test/java/org/sonar/plugins/java/api/semantic/MethodMatchersTest.java:139-140 | adds the constructor name criterion |
| MatcherBuilder.MethodMatchersBuilder.AnyName | java-frontend/src/test/java/org/sonar/plugins/java/api/semantic/MethodMatchersTest.java:340-343 | `anyName()` succeeds only when no name was set; otherwise it fails and leaves the builder unchanged |
| MatcherBuilder.MethodMatchersBuilder.WithoutParameters | java-frontend/src/test/java/org/sonar/plugins/java/api/semantic/MethodMatchersTest.java:160-161 | adds the empty signature as an alternative |
| MatcherBuilder.MethodMatchersBuilder.WithParameters | java-frontend/src/test/java/org/sonar/plugins/java/api/semantic/MethodMatchersTest.java:164-167 | adds an exact signature of type names |
| MatcherBuilder.MethodMatchersBuilder.WithParameterCriteria | java-frontend/src/test/java/org/sonar/plugins/java/api/semantic/MethodMatchersTest.java:192-194 | adds an exact signature of per-position criteria |
| MatcherBuilder.MethodMatchersBuilder.StartWithParameters | java-frontend/src/test/java/org/sonar/plugins/java/api/semantic/MethodMatchersTest.java:181-183 | adds a signature prefix of type names |
| MatcherBuilder.MethodMatchersBuilder.StartWithParameterCriteria | java-frontend/src/test/java/org/sonar/plugins/java/api/semantic/MethodMatchersTest.java:195-197 | adds a signature prefix of per-position criteria |
| MatcherBuilder.MethodMatchersBuilder.WithParametersMatching | java-frontend/src/test/java/org/sonar/plugins/java/api/semantic/MethodMatchersTest.java:188-189 | adds a whole-list predicate |
| MatcherBuilder.MethodMatchersBuilder.WithAnyParameters | java-frontend/src/test/java/org/sonar/plugins/java/api/semantic/MethodMatchersTest.java:345-348 | `withAnyParameters()` succeeds only when no signature was set; otherwise it fails and leaves the builder unchanged |
| MatcherBuilder.MethodMatchersBuilder.Matches | java-frontend/src/test/java/org/sonar/plugins/java/api/semantic/MethodMatchersTest.java:350-369 | a query on a tree fails exactly when some kind was never set, and otherwise answers what the built matcher answers |
| MatcherBuilder.MethodMatchersBuilder.MatchesSymbol | java-frontend/src/test/java/org/sonar/plugins/java/api/semantic/MethodMatchersTest.java:219-220 | the same for a query on a symbol |
| MatcherBuilder.AnyIsExclusive | java-frontend/src/test/java/org/sonar/plugins/java/api/semantic/MethodMatchersTest.java:335-348 | "any" is accepted only on an unset kind, and nothing specific can follow it |
| MatcherBuilder.SpecificAccumulates | java-frontend/src/test/java/org/sonar/plugins/java/api/semantic/MethodMatchersTest.java:121-124 | successive specific criteria of one kind accumulate, in order |
| MatcherBuilder.AllAnyMatchesEveryResolved | java-frontend/src/test/java/org/sonar/plugins/java/api/semantic/MethodMatchersTest.java:83-84 | a matcher with "any" on every kind builds and matches exactly the resolved subjects |
| MatchVisitor.MatchedLinesConcat | java-frontend/src/test/java/org/sonar/plugins/java/api/semantic/MethodMatchersTest.java:431-463 | visiting two lists of trees one after the other collects the lines of the first, then those of the second |
| MatchVisitor.MatchedLines | java-frontend/src/test/java/org/sonar/plugins/java/api/semantic/MethodMatchersTest.java:431-463 | the visitor collects at most one line per visited tree |
| MatchVisitor.MatchedLinesAppend | java-frontend/src/test/java/org/sonar/plugins/java/api/semantic/MethodMatchersTest.java:459-461 | visiting one more tree appends its line exactly when it matches |
| MatchVisitor.MatchedLinesMembership | java-frontend/src/test/java/org/sonar/plugins/java/api/semantic/MethodMatchersTest.java:431-463 | a line is collected exactly when some visited tree on that line matches |
| MatchVisitor.MatchedLinesPicked | java-frontend/src/test/java/org/sonar/plugins/java/api/semantic/MethodMatchersTest.java:431-463 | the collected lines are the lines of the trees judged to match, in visiting order |
| MatchVisitor.EmptyCollectsNothing | java-frontend/src/test/java/org/sonar/plugins/java/api/semantic/MethodMatchersTest.java:239-240 | with `empty()` nothing is collected |
| MatchVisitor.Visitor.constructor | java-frontend/src/test/java/org/sonar/plugins/java/api/semantic/MethodMatchersTest.java:421-424 | the visitor keeps its matcher and mode and starts with no matches |
| MatchVisitor.Visitor.VisitNode | java-frontend/src/test/java/org/sonar/plugins/java/api/semantic/MethodMatchersTest.java:431-463 | appends the tree's line exactly when the tree matches in the visitor's mode; nothing else changes |
| MatchVisitor.FindMatches | java-frontend/src/test/java/org/sonar/plugins/java/api/semantic/MethodMatchersTest.java:399-404 | visiting the trees in order collects exactly the lines of the matching trees |
| TypesScenarios.SubtypesOfA | java-frontend/src/test/java/org/sonar/plugins/java/api/semantic/MethodMatchersTest.java:51-56 | in the test's hierarchy the types inheriting from `A` are `A` and `B` |
| TypesScenarios.SubtypesOfB | java-frontend/src/test/java/org/sonar/plugins/java/api/semantic/MethodMatchersTest.java:54-56 | only `B` inherits from `B` |
| TypesScenarios.SubtypesOfX | java-frontend/src/test/java/org/sonar/plugins/java/api/semantic/MethodMatchersTest.java:57-59 | only `X` inherits from `X` |
| TypesScenarios.ExactTypeA | java-frontend/src/test/java/org/sonar/plugins/java/api/semantic/MethodMatchersTest.java:69-70 | `ofType("A")` collects lines 2 and 12 |
| TypesScenarios.ExactTypeB | java-frontend/src/test/java/org/sonar/plugins/java/api/semantic/MethodMatchersTest.java:71-72 | `ofType("B")` collects lines 5 and 13 |
| TypesScenarios.ExactTypeX | java-frontend/src/test/java/org/sonar/plugins/java/api/semantic/MethodMatchersTest.java:73-74 | `ofType("X")` collects lines 8 and 14 |
| TypesScenarios.SubtypeOfA | java-frontend/src/test/java/org/sonar/plugins/java/api/semantic/MethodMatchersTest.java:77-78 | `ofSubType("A")` collects lines 2, 5, 12 and 13 |
| TypesScenarios.SubtypeOfB | java-frontend/src/test/java/org/sonar/plugins/java/api/semantic/MethodMatchersTest.java:79-80 | `ofSubType("B")` collects lines 5 and 13 |
| TypesScenarios.AnyOwnerType | java-frontend/src/test/java/org/sonar/plugins/java/api/semantic/MethodMatchersTest.java:83-84 | `ofAnyType()` collects every `f`: lines 2, 5, 8, 12, 13 and 14 |
| TypesScenarios.ExactTypesBX | java-frontend/src/test/java/org/sonar/plugins/java/api/semantic/MethodMatchersTest.java:87-88 | `ofTypes("B", "X")` collects lines 5, 8, 13 and 14 |
| TypesScenarios.SubtypesOfAX | java-frontend/src/test/java/org/sonar/plugins/java/api/semantic/MethodMatchersTest.java:89-90 | `ofSubTypes("A", "X")` collects lines 2, 5, 8, 12, 13 and 14 |
| TypesScenarios.SubtypeOfBThenX | java-frontend/src/test/java/org/sonar/plugins/java/api/semantic/MethodMatchersTest.java:91-92 | `ofSubType("B").ofSubType("X")` collects lines 5, 8, 13 and 14 |
| NamesScenarios.OneNameA | java-frontend/src/test/java/org/sonar/plugins/java/api/semantic/MethodMatchersTest.java:113-114 | `name("a")` collects lines 2 and 8 |
| NamesScenarios.OneNameAA | java-frontend/src/test/java/org/sonar/plugins/java/api/semantic/MethodMatchersTest.java:115-116 | `name("aa")` collects lines 3 and 9 |
| NamesScenarios.OneNameB | java-frontend/src/test/java/org/sonar/plugins/java/api/semantic/MethodMatchersTest.java:117-118 | `name("b")` collects lines 4 and 10 |
| NamesScenarios.SeveralNames | java-frontend/src/test/java/org/sonar/plugins/java/api/semantic/MethodMatchersTest.java:121-122 | `names("a", "b")` collects lines 2, 4, 8 and 10 |
| NamesScenarios.RepeatedName | java-frontend/src/test/java/org/sonar/plugins/java/api/semantic/MethodMatchersTest.java:123-124 | `name("a").name("b")` collects lines 2, 4, 8 and 10 |
| NamesScenarios.StartWithName | java-frontend/src/test/java/org/sonar/plugins/java/api/semantic/MethodMatchersTest.java:127-128 | `startWithName("a")` collects lines 2, 3, 8 and 9 |
| NamesScenarios.AnyNameOfA | java-frontend/src/test/java/org/sonar/plugins/java/api/semantic/MethodMatchersTest.java:131-132 | `anyName()` collects every method of `A`, not the constructor of `Main` |
| NamesScenarios.NamePredicateIgnoringCase | java-frontend/src/test/java/org/sonar/plugins/java/api/semantic/MethodMatchersTest.java:135-136 | the predicate `"B"::equalsIgnoreCase` collects lines 4 and 10 |
| NamesScenarios.ConstructorOfMain | java-frontend/src/test/java/org/sonar/plugins/java/api/semantic/MethodMatchersTest.java:139-140 | `ofType("Main").constructor()` collects only `new Main()` on line 11 |
| ParametersScenarios.WithoutParameters | java-frontend/src/test/java/org/sonar/plugins/java/api/semantic/MethodMatchersTest.java:160-161 | `withoutParameters()` collects lines 2 and 7 |
| ParametersScenarios.WithParametersInt | java-frontend/src/test/java/org/sonar/plugins/java/api/semantic/MethodMatchersTest.java:164-165 | `withParameters("int")` collects lines 3, 8 and the reference on 10 |
| ParametersScenarios.WithParametersIntLong | java-frontend/src/test/java/org/sonar/plugins/java/api/semantic/MethodMatchersTest.java:166-167 | `withParameters("int", "long")` collects lines 4 and 9 |
| ParametersScenarios.TwoSignatures | java-frontend/src/test/java/org/sonar/plugins/java/api/semantic/MethodMatchersTest.java:170-173 | two signatures collect lines 3, 4, 8, 9 and 10 |
| ParametersScenarios.ThreeSignatures | java-frontend/src/test/java/org/sonar/plugins/java/api/semantic/MethodMatchersTest.java:174-178 | three signatures collect lines 2, 3, 4, 7, 8, 9 and 10 |
| ParametersScenarios.StartWithParametersInt | java-frontend/src/test/java/org/sonar/plugins/java/api/semantic/MethodMatchersTest.java:181-183 | `startWithParameters("int")` collects lines 3, 4, 8, 9 and 10 |
| ParametersScenarios.AnyParametersOfF | java-frontend/src/test/java/org/sonar/plugins/java/api/semantic/MethodMatchersTest.java:186-187 | `withAnyParameters()` collects every `f` |
| ParametersScenarios.EveryParameterList | java-frontend/src/test/java/org/sonar/plugins/java/api/semantic/MethodMatchersTest.java:188-189 | the list predicate `type -> true` collects every `f` |
| ParametersScenarios.PositionPredicates | java-frontend/src/test/java/org/sonar/plugins/java/api/semantic/MethodMatchersTest.java:192-194 | per-position predicates `int`, then not `int`, collect lines 4 and 9 |
| ParametersScenarios.StartWithPredicate | java-frontend/src/test/java/org/sonar/plugins/java/api/semantic/MethodMatchersTest.java:195-197 | a prefix predicate on `int` collects lines 3, 4, 8, 9 and 10 |
| MatcherScenarios.TreeAndSymbolMethodOnTree | java-frontend/src/test/java/org/sonar/plugins/java/api/semantic/MethodMatchersTest.java:217-218 | on trees, `f(int)` collects the declaration, the call and the method reference |
| MatcherScenarios.TreeAndSymbolMethodOnSymbol | java-frontend/src/test/java/org/sonar/plugins/java/api/semantic/MethodMatchersTest.java:219-220 | on symbols, the method reference is missing |
| MatcherScenarios.TreeAndSymbolConstructor | java-frontend/src/test/java/org/sonar/plugins/java/api/semantic/MethodMatchersTest.java:223-226 | in both modes the constructor collects lines 4 and 7, not the unresolved `A::new` |
| MatcherScenarios.TreeAndSymbolOrOnTree | java-frontend/src/test/java/org/sonar/plugins/java/api/semantic/MethodMatchersTest.java:229-232 | the `or` of both matchers collects the union on trees |
| MatcherScenarios.TreeAndSymbolOrOnSymbol | java-frontend/src/test/java/org/sonar/plugins/java/api/semantic/MethodMatchersTest.java:233-236 | the union on symbols, without the reference |
| MatcherScenarios.TreeAndSymbolEmpty | java-frontend/src/test/java/org/sonar/plugins/java/api/semantic/MethodMatchersTest.java:239-240 | `empty()` collects nothing in either mode |
| MatcherScenarios.MethodSelectorAndIdentifier | java-frontend/src/test/java/org/sonar/plugins/java/api/semantic/MethodMatchersTest.java:381-382 | the declaration, the unqualified `f(this)` and the call `a.f(a)` are all collected |
| MatcherScenarios.InvalidAnyType | java-frontend/src/test/java/org/sonar/plugins/java/api/semantic/MethodMatchersTest.java:335-338 | `ofType("A").ofAnyType()` is refused on the owner kind |
| MatcherScenarios.InvalidAnyName | java-frontend/src/test/java/org/sonar/plugins/java/api/semantic/MethodMatchersTest.java:340-343 | `name("A").anyName()` is refused on the name kind |
| MatcherScenarios.InvalidAnyParameters | java-frontend/src/test/java/org/sonar/plugins/java/api/semantic/MethodMatchersTest.java:345-348 | `withParameters("int").withAnyParameters()` is refused on the parameter kind |
| MatcherScenarios.InvalidMatcherWithoutType | java-frontend/src/test/java/org/sonar/plugins/java/api/semantic/MethodMatchersTest.java:350-355 | a query without an owner criterion fails on the owner kind |
| MatcherScenarios.InvalidMatcherWithoutName | java-frontend/src/test/java/org/sonar/plugins/java/api/semantic/MethodMatchersTest.java:357-362 | a query without a name fails on the name kind |
| MatcherScenarios.InvalidMatcherWithoutParameters | java-frontend/src/test/java/org/sonar/plugins/java/api/semantic/MethodMatchersTest.java:364-369 | a query without parameters fails on the parameter kind |
| MatcherScenarios.CompleteMatcherAnswers | java-frontend/src/test/java/org/sonar/plugins/java/api/semantic/MethodMatchersTest.java:350-355 | the same subject, with every kind set, gets an answer: it matches |
| InheritanceScenarios.SubtypesOfObject | java-frontend/src/test/java/org/sonar/plugins/java/api/semantic/MethodMatchersTest.java:247-269 | every type of the file inherits from `Object` |
| InheritanceScenarios.SubtypesOfA | java-frontend/src/test/java/org/sonar/plugins/java/api/semantic/MethodMatchersTest.java:247-268 | the types inheriting from `A` are `A` and `B` to `F` |
| InheritanceScenarios.SubtypesOfB | java-frontend/src/test/java/org/sonar/plugins/java/api/semantic/MethodMatchersTest.java:256-268 | the types inheriting from `B` are `B` to `F` |
| InheritanceScenarios.SubtypesOfD | java-frontend/src/test/java/org/sonar/plugins/java/api/semantic/MethodMatchersTest.java:263-268 | the types inheriting from `D` are `D`, `E` and `F` |
| InheritanceScenarios.SubtypesOfF | java-frontend/src/test/java/org/sonar/plugins/java/api/semantic/MethodMatchersTest.java:268 | only `F` inherits from `F` |
| InheritanceScenarios.SubtypesOfI | java-frontend/src/test/java/org/sonar/plugins/java/api/semantic/MethodMatchersTest.java:248-268 | the types inheriting from `I` are `I` and `B` to `F` |
| InheritanceScenarios.SubtypesOfJ | java-frontend/src/test/java/org/sonar/plugins/java/api/semantic/MethodMatchersTest.java:253-268 | the types inheriting from `J` are `J` and `B` to `F` |
| InheritanceScenarios.ExactObjectToString | java-frontend/src/test/java/org/sonar/plugins/java/api/semantic/MethodMatchersTest.java:286-287 | `ofType("java.lang.Object").name("toString")` collects line 26 only |
| InheritanceScenarios.SubtypeOfObjectToString | java-frontend/src/test/java/org/sonar/plugins/java/api/semantic/MethodMatchersTest.java:289-290 | with `ofSubType`, lines 26 and 27 |
| InheritanceScenarios.ExactBNoParameters | java-frontend/src/test/java/org/sonar/plugins/java/api/semantic/MethodMatchersTest.java:292-293 | `TypeCriteria.is("pkg.B")` with `f()` collects lines 12 and 28 |
| InheritanceScenarios.SubtypeOfBNoParameters | java-frontend/src/test/java/org/sonar/plugins/java/api/semantic/MethodMatchersTest.java:295-296 | `ofSubType("pkg.B")` with `f()` collects lines 12, 28 and 34 |
| InheritanceScenarios.SubtypeOfBInt | java-frontend/src/test/java/org/sonar/plugins/java/api/semantic/MethodMatchersTest.java:298-299 | `ofSubType("pkg.B")` with `f(int)` collects lines 16, 20, 29 to 33, 35 and 36 |
| InheritanceScenarios.SubtypeOfFNoParameters | java-frontend/src/test/java/org/sonar/plugins/java/api/semantic/MethodMatchersTest.java:301-302 | `ofSubType("pkg.F")` with `f()` collects line 34 |
| InheritanceScenarios.ExactAInt | java-frontend/src/test/java/org/sonar/plugins/java/api/semantic/MethodMatchersTest.java:304-305 | `ofType("pkg.A")` with `f(int)` collects nothing |
| InheritanceScenarios.ExactBInt | java-frontend/src/test/java/org/sonar/plugins/java/api/semantic/MethodMatchersTest.java:307-308 | `ofType("pkg.B")` with `f(int)` collects line 29 |
| InheritanceScenarios.ExactCInt | java-frontend/src/test/java/org/sonar/plugins/java/api/semantic/MethodMatchersTest.java:310-311 | `ofType("pkg.C")` with `f(int)` collects lines 16 and 30 |
| InheritanceScenarios.SubtypeOfDInt | java-frontend/src/test/java/org/sonar/plugins/java/api/semantic/MethodMatchersTest.java:313-314 | `ofSubType("pkg.D")` with `f(int)` collects lines 20, 31, 32, 33, 35 and 36 |
| InheritanceScenarios.ExactDInt | java-frontend/src/test/java/org/sonar/plugins/java/api/semantic/MethodMatchersTest.java:316-317 | `ofType("pkg.D")` with `f(int)` collects lines 20, 31 and 35 |
| InheritanceScenarios.ExactEInt | java-frontend/src/test/java/org/sonar/plugins/java/api/semantic/MethodMatchersTest.java:319-320 | `ofType("pkg.E")` with `f(int)` collects lines 32 and 36 |
| InheritanceScenarios.ExactFInt | java-frontend/src/test/java/org/sonar/plugins/java/api/semantic/MethodMatchersTest.java:322-323 | `ofType("pkg.F")` with `f(int)` collects line 33 |
| InheritanceScenarios.SubtypeOfAInt | java-frontend/src/test/java/org/sonar/plugins/java/api/semantic/MethodMatchersTest.java:325-326 | `ofSubType("pkg.A")` with `f(int)` collects what `ofSubType("pkg.B")` collects |
| InheritanceScenarios.SubtypeOfIInt | java-frontend/src/test/java/org/sonar/plugins/java/api/semantic/MethodMatchersTest.java:328-329 | `ofSubType("pkg.I")` also collects the declaration on line 5 |
| InheritanceScenarios.SubtypeOfJInt | java-frontend/src/test/java/org/sonar/plugins/java/api/semantic/MethodMatchersTest.java:331-332 | `ofSubType("pkg.J")` also collects lines 9 and 37 |
| BuilderChains.FIntChain | java-frontend/src/test/java/org/sonar/plugins/java/api/semantic/MethodMatchersTest.java:217-220 | `ofType("pkg.A").name("f").withParameters("int")` builds exactly the matcher that collects lines 5, 8, 9 on trees and 5, 8 on symbols |
| BuilderChains.ConstructorIntChain | java-frontend/src/test/java/org/sonar/plugins/java/api/semantic/MethodMatchersTest.java:223-226 | `ofType("pkg.A").constructor().withParameters("int")` builds exactly the matcher that collects lines 4, 7 in both modes |
| BuilderChains.OrChain | java-frontend/src/test/java/org/sonar/plugins/java/api/semantic/MethodMatchersTest.java:229-236 | the `or` of the two chains above collects lines 4, 5, 7, 8, 9 on trees and 4, 5, 7, 8 on symbols |
| BuilderChains.SelectorChain | java-frontend/src/test/java/org/sonar/plugins/java/api/semantic/MethodMatchersTest.java:381-382 | `ofType("A").name("f").withParameters("A")` builds exactly the matcher that collects lines 2, 3, 4 |
| BuilderChains.ExactTypeAChain | java-frontend/src/test/java/org/sonar/plugins/java/api/semantic/MethodMatchersTest.java:69-70 | `create().ofType("A").name("f").withAnyParameters()` builds exactly the matcher whose lines are [2, 12] |
| BuilderChains.ExactTypeBChain | java-frontend/src/test/java/org/sonar/plugins/java/api/semantic/MethodMatchersTest.java:71-72 | `create().ofType("B").name("f").withAnyParameters()` builds exactly the matcher whose lines are [5, 13] |
| BuilderChains.ExactTypeXChain | java-frontend/src/test/java/org/sonar/plugins/java/api/semantic/MethodMatchersTest.java:73-74 | `create().ofType("X").name("f").withAnyParameters()` builds exactly the matcher whose lines are [8, 14] |
| BuilderChains.SubtypeOfAChain | java-frontend/src/test/java/org/sonar/plugins/java/api/semantic/MethodMatchersTest.java:77-78 | `create().ofSubType("A").name("f").withAnyParameters()` builds exactly the matcher whose lines are [2, 5, 12, 13] |
| BuilderChains.SubtypeOfBChain | java-frontend/src/test/java/org/sonar/plugins/java/api/semantic/MethodMatchersTest.java:79-80 | `create().ofSubType("B").name("f").withAnyParameters()` builds exactly the matcher whose lines are [5, 13] |
| BuilderChains.AnyOwnerTypeChain | java-frontend/src/test/java/org/sonar/plugins/java/api/semantic/MethodMatchersTest.java:83-84 | `create().ofAnyType().name("f").withAnyParameters()` builds exactly the matcher whose lines are [2, 5, 8, 12, 13, 14] |
| BuilderChains.ExactTypesBXChain | java-frontend/src/test/java/org/sonar/plugins/java/api/semantic/MethodMatchersTest.java:87-88 | `create().ofTypes("B", "X").name("f").withAnyParameters()` builds exactly the matcher whose lines are [5, 8, 13, 14] |
| BuilderChains.SubtypesOfAXChain | java-frontend/src/test/java/org/sonar/plugins/java/api/semantic/MethodMatchersTest.java:89-90 | `create().ofSubTypes("A", "X").name("f").withAnyParameters()` builds exactly the matcher whose lines are [2, 5, 8, 12, 13, 14] |
| BuilderChains.SubtypeOfBThenXChain | java-frontend/src/test/java/org/sonar/plugins/java/api/semantic/MethodMatchersTest.java:91-92 | `create().ofSubType("B").ofSubType("X").name("f").withAnyParameters()` builds exactly the matcher whose lines are [5, 8, 13, 14] |
| BuilderChains.OneNameAChain | java-frontend/src/test/java/org/sonar/plugins/java/api/semantic/MethodMatchersTest.java:113-114 | `create().ofType("A").name("a").withAnyParameters()` builds exactly the matcher whose lines are [2, 8] |
| BuilderChains.OneNameAAChain | java-frontend/src/test/java/org/sonar/plugins/java/api/semantic/MethodMatchersTest.java:115-116 | `create().ofType("A").name("aa").withAnyParameters()` builds exactly the matcher whose lines are [3, 9] |
| BuilderChains.OneNameBChain | java-frontend/src/test/java/org/sonar/plugins/java/api/semantic/MethodMatchersTest.java:117-118 | `create().ofType("A").name("b").withAnyParameters()` builds exactly the matcher whose lines are [4, 10] |
| BuilderChains.SeveralNamesChain | java-frontend/src/test/java/org/sonar/plugins/java/api/semantic/MethodMatchersTest.java:121-122 | `create().ofType("A").names("a", "b").withAnyParameters()` builds exactly the matcher whose lines are [2, 4, 8, 10] |
| BuilderChains.RepeatedNameChain | java-frontend/src/test/java/org/sonar/plugins/java/api/semantic/MethodMatchersTest.java:123-124 | `create().ofType("A").name("a").name("b").withAnyParameters()` builds exactly the matcher whose lines are [2, 4, 8, 10] |
| BuilderChains.StartWithNameChain | java-frontend/src/test/java/org/sonar/plugins/java/api/semantic/MethodMatchersTest.java:127-128 | `create().ofType("A").startWithName("a").withAnyParameters()` builds exactly the matcher whose lines are [2, 3, 8, 9] |
| BuilderChains.AnyNameOfAChain | java-frontend/src/test/java/org/sonar/plugins/java/api/semantic/MethodMatchersTest.java:131-132 | `create().ofType("A").anyName().withAnyParameters()` builds exactly the matcher whose lines are [2, 3, 4, 8, 9, 10] |
| BuilderChains.NamePredicateIgnoringCaseChain | java-frontend/src/test/java/org/sonar/plugins/java/api/semantic/MethodMatchersTest.java:135-136 | `create().ofType("A").name("B"::equalsIgnoreCase).withAnyParameters()` builds exactly the matcher whose lines are [4, 10] |
| BuilderChains.ConstructorOfMainChain | java-frontend/src/test/java/org/sonar/plugins/java/api/semantic/MethodMatchersTest.java:139-140 | `create().ofType("Main").constructor().withAnyParameters()` builds exactly the matcher whose lines are [11] |
| BuilderChains.WithoutParametersChain | java-frontend/src/test/java/org/sonar/plugins/java/api/semantic/MethodMatchersTest.java:160-161 | `create().ofType("A").name("f").withoutParameters()` builds exactly the matcher whose lines are [2, 7] |
| BuilderChains.WithParametersIntChain | java-frontend/src/test/java/org/sonar/plugins/java/api/semantic/MethodMatchersTest.java:164-165 | `create().ofType("A").name("f").withParameters("int")` builds exactly the matcher whose lines are [3, 8, 10] |
| BuilderChains.WithParametersIntLongChain | java-frontend/src/test/java/org/sonar/plugins/java/api/semantic/MethodMatchersTest.java:166-167 | `create().ofType("A").name("f").withParameters("int", "long")` builds exactly the matcher whose lines are [4, 9] |
| BuilderChains.TwoSignaturesChain | java-frontend/src/test/java/org/sonar/plugins/java/api/semantic/MethodMatchersTest.java:170-173 | `create().ofType("A").name("f").withParameters("int").withParameters("int", "long")` builds exactly the matcher whose lines are [3, 4, 8, 9, 10] |
| BuilderChains.ThreeSignaturesChain | java-frontend/src/test/java/org/sonar/plugins/java/api/semantic/MethodMatchersTest.java:174-178 | `create().ofType("A").name("f").withoutParameters().withParameters("int").withParameters("int", "long")` builds exactly the matcher whose lines are [2, 3, 4, 7, 8, 9, 10] |
| BuilderChains.StartWithParametersIntChain | java-frontend/src/test/java/org/sonar/plugins/java/api/semantic/MethodMatchersTest.java:181-183 | `create().ofType("A").name("f").startWithParameters("int")` builds exactly the matcher whose lines are [3, 4, 8, 9, 10] |
| BuilderChains.AnyParametersOfFChain | java-frontend/src/test/java/org/sonar/plugins/java/api/semantic/MethodMatchersTest.java:186-187 | `create().ofType("A").name("f").withAnyParameters()` builds exactly the matcher whose lines are [2, 3, 4, 5, 7, 8, 9, 10] |
| BuilderChains.EveryParameterListChain | java-frontend/src/test/java/org/sonar/plugins/java/api/semantic/MethodMatchersTest.java:188-189 | `create().ofType("A").name("f").withParameters(type -> true)` builds exactly the matcher whose lines are [2, 3, 4, 5, 7, 8, 9, 10] |
| BuilderChains.PositionPredicatesChain | java-frontend/src/test/java/org/sonar/plugins/java/api/semantic/MethodMatchersTest.java:192-194 | `create().ofType("A").name("f").withParameters(type -> type.is("int"), type -> !type.is("int"))` builds exactly the matcher whose lines are [4, 9] |
| BuilderChains.StartWithPredicateChain | java-frontend/src/test/java/org/sonar/plugins/java/api/semantic/MethodMatchersTest.java:195-197 | `create().ofType("A").name("f").startWithParameters(type -> type.is("int"))` builds exactly the matcher whose lines are [3, 4, 8, 9, 10] |
| BuilderChains.ExactObjectToStringChain | java-frontend/src/test/java/org/sonar/plugins/java/api/semantic/MethodMatchersTest.java:286-287 | `create().ofType("java.lang.Object").name("toString").withoutParameters()` builds exactly the matcher whose lines are [26] |
| BuilderChains.SubtypeOfObjectToStringChain | java-frontend/src/test/java/org/sonar/plugins/java/api/semantic/MethodMatchersTest.java:289-290 | `create().ofSubType("java.lang.Object").name("toString").withoutParameters()` builds exactly the matcher whose lines are [26, 27] |
| BuilderChains.ExactBNoParametersChain | java-frontend/src/test/java/org/sonar/plugins/java/api/semantic/MethodMatchersTest.java:292-293 | `create().ofType(TypeCriteria.is("pkg.B")).name("f").withoutParameters()` builds exactly the matcher whose lines are [12, 28] |
| BuilderChains.SubtypeOfBNoParametersChain | java-frontend/src/test/java/org/sonar/plugins/java/api/semantic/MethodMatchersTest.java:295-296 | `create().ofSubType("pkg.B").name("f").withoutParameters()` builds exactly the matcher whose lines are [12, 28, 34] |
| BuilderChains.SubtypeOfBIntChain | java-frontend/src/test/java/org/sonar/plugins/java/api/semantic/MethodMatchersTest.java:298-299 | `create().ofSubType("pkg.B").name("f").withParameters("int")` builds exactly the matcher whose lines are [16, 20, 29, 30, 31, 32, 33, 35, 36] |
| BuilderChains.SubtypeOfFNoParametersChain | java-frontend/src/test/java/org/sonar/plugins/java/api/semantic/MethodMatchersTest.java:301-302 | `create().ofSubType("pkg.F").name("f").withoutParameters()` builds exactly the matcher whose lines are [34] |
| BuilderChains.ExactAIntChain | java-frontend/src/test/java/org/sonar/plugins/java/api/semantic/MethodMatchersTest.java:304-305 | `create().ofType("pkg.A").name("f").withParameters("int")` builds exactly the matcher whose lines are none |
| BuilderChains.ExactBIntChain | java-frontend/src/test/java/org/sonar/plugins/java/api/semantic/MethodMatchersTest.java:307-308 | `create().ofType("pkg.B").name("f").withParameters("int")` builds exactly the matcher whose lines are [29] |
| BuilderChains.ExactCIntChain | java-frontend/src/test/java/org/sonar/plugins/java/api/semantic/MethodMatchersTest.java:310-311 | `create().ofType("pkg.C").name("f").withParameters("int")` builds exactly the matcher whose lines are [16, 30] |
| BuilderChains.SubtypeOfDIntChain | java-frontend/src/test/java/org/sonar/plugins/java/api/semantic/MethodMatchersTest.java:313-314 | `create().ofSubType("pkg.D").name("f").withParameters("int")` builds exactly the matcher whose lines are [20, 31, 32, 33, 35, 36] |
| BuilderChains.ExactDIntChain | java-frontend/src/test/java/org/sonar/plugins/java/api/semantic/MethodMatchersTest.java:316-317 | `create().ofType("pkg.D").name("f").withParameters("int")` builds exactly the matcher whose lines are [20, 31, 35] |
| BuilderChains.ExactEIntChain | java-frontend/src/test/java/org/sonar/plugins/java/api/semantic/MethodMatchersTest.java:319-320 | `create().ofType("pkg.E").name("f").withParameters("int")` builds exactly the matcher whose lines are [32, 36] |
| BuilderChains.ExactFIntChain | java-frontend/src/test/java/org/sonar/plugins/java/api/semantic/MethodMatchersTest.java:322-323 | `create().ofType("pkg.F").name("f").withParameters("int")` builds exactly the matcher whose lines are [33] |
| BuilderChains.SubtypeOfAIntChain | java-frontend/src/test/java/org/sonar/plugins/java/api/semantic/MethodMatchersTest.java:325-326 | `create().ofSubType("pkg.A").name("f").withParameters("int")` builds exactly the matcher whose lines are [16, 20, 29, 30, 31, 32, 33, 35, 36] |
| BuilderChains.SubtypeOfIIntChain | java-frontend/src/test/java/org/sonar/plugins/java/api/semantic/MethodMatchersTest.java:328-329 | `create().ofSubType("pkg.I").name("f").withParameters("int")` builds exactly the matcher whose lines are [5, 16, 20, 29, 30, 31, 32, 33, 35, 36] |
| BuilderChains.SubtypeOfJIntChain | java-frontend/src/test/java/org/sonar/plugins/java/api/semantic/MethodMatchersTest.java:331-332 | `create().ofSubType("pkg.J").name("f").withParameters("int")` builds exactly the matcher whose lines are [9, 16, 20, 29, 30, 31, 32, 33, 35, 36, 37] |
| MatcherTables.GroupMatches | java-checks/src/main/java/org/sonar/java/checks/SQLInjectionCheck.java:53-57 | a group matches exactly a resolved subject with one of its names, its owner and its parameters |
| MatcherTables.Table | java-checks/src/main/java/org/sonar/java/checks/SQLInjectionCheck.java:49-82 | every matcher of a table comes from one of its groups: the group's owner and parameter criteria and one of its names |
| MatcherTables.TableMatches | java-checks/src/main/java/org/sonar/java/checks/SQLInjectionCheck.java:49-82 | a table matches exactly what one of its groups accepts |
| SqlInjection.SuspectsAreQuerySinks | java-checks/src/main/java/org/sonar/java/checks/SQLInjectionCheck.java:49-86 | the suspect table accepts exactly the listed query methods: subtype owners for Hibernate, JDBC, Spring, JDO; exact owners for `EntityManager` and `PreparedStatementCreatorFactory`, including its constructor |
| SqlInjection.AnyMatch | java-checks/src/main/java/org/sonar/java/checks/SQLInjectionCheck.java:114-125 | a tree is a suspect exactly when it is a method invocation or an instance creation, has an argument, and its subject is one of the query sinks |
| SqlInjection.IsDynamicString | java-checks/src/main/java/org/sonar/java/checks/SQLInjectionCheck.java:131-142 | a non-constant `+` or `+=` is dynamic; besides those only a variable can be, through its initializer or a reassignment judged dynamic |
| SqlInjection.IdentifierDynamicIff | java-checks/src/main/java/org/sonar/java/checks/SQLInjectionCheck.java:136-138 | a variable is dynamic exactly when its initializer is, or some reassignment is a `+=` with a non-constant right-hand side; a plain `=` never makes it dynamic |
| SqlInjection.ReassignedQueries | java-checks/src/main/java/org/sonar/java/checks/SQLInjectionCheck.java:131-138 | after `q = "b" + x` a constant-initialized `q` is not dynamic; after `q += p` it is |
| SqlInjection.FirstStringArgument | java-checks/src/main/java/org/sonar/java/checks/SQLInjectionCheck.java:96-98 | the position found is a `String` argument and every earlier argument is not; none is found only when no argument is a `String` |
| SqlInjection.FirstStringIsDynamicIff | java-checks/src/main/java/org/sonar/java/checks/SQLInjectionCheck.java:95-99 | `findFirst` then `filter(isDynamicString)`: the first `String` argument is dynamic exactly when some `String` argument with none before it is dynamic |
| SqlInjection.VisitNode | java-checks/src/main/java/org/sonar/java/checks/SQLInjectionCheck.java:93-102 | at most one issue, on an existing argument |
| SqlInjection.DynamicIffRuntimeConcatenation | java-checks/src/main/java/org/sonar/java/checks/SQLInjectionCheck.java:131-142 | a string is dynamic exactly when some expression it may come from (itself, an initializer, a reassignment) is a non-constant `+` or a `+=` with a non-constant right side |
| SqlInjection.ReportedIff | java-checks/src/main/java/org/sonar/java/checks/SQLInjectionCheck.java:93-129 | an issue is raised exactly when a suspect invocation or `new` expression with arguments has a `String` argument and the first one is dynamic |
| SqlInjection.NoArgumentsNoIssue | java-checks/src/main/java/org/sonar/java/checks/SQLInjectionCheck.java:114-117 | a call with no argument is never reported |
| SqlInjection.LaterArgumentsIgnored | java-checks/src/main/java/org/sonar/java/checks/SQLInjectionCheck.java:96-98 | arguments after the first `String` one do not change the verdict |
| SqlInjection.FirstStringPrefix | java-checks/src/main/java/org/sonar/java/checks/SQLInjectionCheck.java:96-98 | a `String` argument in a prefix is found there, whatever follows |
| StringPrimitiveConstructor.ConstructorWithAccepts | java-checks/src/main/java/org/sonar/java/checks/StringPrimitiveConstructorCheck.java:44-54 | a legacy `ofTypes(t).names("<init>").addParameter(p)` entry accepts exactly the constructor of `t` taking one `p` |
| StringPrimitiveConstructor.GroupIsSignature | java-checks/src/main/java/org/sonar/java/checks/StringPrimitiveConstructorCheck.java:43-55 | entry `i` of the table accepts exactly the `i`-th target signature |
| StringPrimitiveConstructor.ConstructorsAreTargets | java-checks/src/main/java/org/sonar/java/checks/StringPrimitiveConstructorCheck.java:41-56 | the table matches exactly `String()`, `String(String)`, the eight boxes with their primitive, and `BigInteger(String)` |
| StringPrimitiveConstructor.IsBigIntegerPotentiallyBiggerThanLong | java-checks/src/main/java/org/sonar/java/checks/StringPrimitiveConstructorCheck.java:66-81 | fails exactly on a `BigInteger` creation without arguments; is false exactly for other types and for a decimal literal in the `long` range |
| StringPrimitiveConstructor.OnConstructorFound | java-checks/src/main/java/org/sonar/java/checks/StringPrimitiveConstructorCheck.java:58-64 | fails exactly where the test above fails; otherwise reports the constructor's type once, and stays silent only on a `BigInteger` |
| StringPrimitiveConstructor.ParseBigInteger | java-checks/src/main/java/org/sonar/java/checks/StringPrimitiveConstructorCheck.java:74-78 | parsing succeeds exactly on an optional sign followed by one or more decimal digits |
| StringPrimitiveConstructor.NatDigits | java-checks/src/main/java/org/sonar/java/checks/StringPrimitiveConstructorCheck.java:75 | the decimal text of a natural number is a non-empty digit string |
| StringPrimitiveConstructor.NatDigitsValue | java-checks/src/main/java/org/sonar/java/checks/StringPrimitiveConstructorCheck.java:75 | the digits of `n` read back as `n` |
| StringPrimitiveConstructor.ParseDecimal | java-checks/src/main/java/org/sonar/java/checks/StringPrimitiveConstructorCheck.java:75 | parsing gives back every integer from its canonical decimal text |
| StringPrimitiveConstructor.Check | java-checks/src/main/java/org/sonar/java/checks/StringPrimitiveConstructorCheck.java:58-64 | at most one issue, and it names the constructed type |
| StringPrimitiveConstructor.OnlyTargetsReported | java-checks/src/main/java/org/sonar/java/checks/StringPrimitiveConstructorCheck.java:41-56 | a constructor outside the table is never reported |
| StringPrimitiveConstructor.NonBigIntegerReported | java-checks/src/main/java/org/sonar/java/checks/StringPrimitiveConstructorCheck.java:59-69 | every matched constructor of a type other than `BigInteger` is reported |
| StringPrimitiveConstructor.NonLiteralBigIntegerNotReported | java-checks/src/main/java/org/sonar/java/checks/StringPrimitiveConstructorCheck.java:70-73 | a `BigInteger` built from something other than a string literal is not reported |
| StringPrimitiveConstructor.UnparsableBigIntegerNotReported | java-checks/src/main/java/org/sonar/java/checks/StringPrimitiveConstructorCheck.java:74-79 | a `BigInteger` literal that does not parse is not reported |
| StringPrimitiveConstructor.BigIntegerReportedIffLongRange | java-checks/src/main/java/org/sonar/java/checks/StringPrimitiveConstructorCheck.java:38-39 | a parsed `BigInteger` literal `v` is reported exactly when `Long.MIN_VALUE <= v <= Long.MAX_VALUE` |
| StringPrimitiveConstructor.BigIntegerDecimalReportedIffLongRange | java-checks/src/main/java/org/sonar/java/checks/StringPrimitiveConstructorCheck.java:66-80 | `new BigInteger("<v>")` is reported exactly for the values of a `long` |
| StringPrimitiveConstructor.WellFormedNeverFails | java-checks/src/main/java/org/sonar/java/checks/StringPrimitiveConstructorCheck.java:70 | when the arguments agree with the matched signature, reading the first argument never fails |
| EnvVariablesHotspot.Check | java-checks/src/main/java/org/sonar/java/checks/security/EnvVariablesHotspotCheck.java:45-50 | at most one issue per invocation |
| EnvVariablesHotspot.IsRuntimeExecWithoutSettingEnv | java-checks/src/main/java/org/sonar/java/checks/security/EnvVariablesHotspotCheck.java:52-55 | holds exactly for a resolved `java.lang.Runtime.exec` call with fewer than two arguments or a `null` second argument |
| EnvVariablesHotspot.OnMethodInvocationFound | java-checks/src/main/java/org/sonar/java/checks/security/EnvVariablesHotspotCheck.java:45-50 | at most one issue, and none only for an `exec` call that sets no environment |
| EnvVariablesHotspot.MatchersAreEnvironmentAccess | java-checks/src/main/java/org/sonar/java/checks/security/EnvVariablesHotspotCheck.java:33-43 | the matchers accept exactly `System.getenv` (any parameters), `ProcessBuilder.environment()` and `Runtime.exec` (any parameters), by exact owner |
| EnvVariablesHotspot.EnvironmentReadsReported | java-checks/src/main/java/org/sonar/java/checks/security/EnvVariablesHotspotCheck.java:45-50 | a matched `getenv` or `environment()` is always reported |
| EnvVariablesHotspot.ExecReportedIffEnvironmentGiven | java-checks/src/main/java/org/sonar/java/checks/security/EnvVariablesHotspotCheck.java:52-55 | `Runtime.exec` is reported exactly when it has a second argument that is not the `null` literal |
| EnvVariablesHotspot.ReportedIff | java-checks/src/main/java/org/sonar/java/checks/security/EnvVariablesHotspotCheck.java:36-55 | the whole decision: an environment read, or an `exec` given an environment of its own |
| EnvVariablesHotspot.UnmatchedNotReported | java-checks/src/main/java/org/sonar/java/checks/security/EnvVariablesHotspotCheck.java:36-43 | nothing the matchers reject is reported |
| RandomFloatToInt.GeneratorsAreFloatingGenerators | java-checks/src/main/java/org/sonar/java/checks/RandomFloatToIntCheck.java:42-52 | the generator table accepts exactly `nextDouble()`/`nextFloat()` without arguments on `Random`, `JVMRandom` and both `RandomUtils`, and `ThreadLocalRandom.nextDouble` with any arguments |
| RandomFloatToInt.MathRandomMatcher | java-checks/src/main/java/org/sonar/java/checks/RandomFloatToIntCheck.java:40 | the first matcher accepts exactly `Math.random()` without arguments |
| RandomFloatToInt.InvocationIssues | java-checks/src/main/java/org/sonar/java/checks/RandomFloatToIntCheck.java:69-78 | at most one issue per invocation, on a resolved invocation itself, and "Use nextInt()" only for a floating-point generator |
| RandomFloatToInt.Scan | java-checks/src/main/java/org/sonar/java/checks/RandomFloatToIntCheck.java:67-87 | every issue of the walk is on a resolved method invocation |
| RandomFloatToInt.VisitNode | java-checks/src/main/java/org/sonar/java/checks/RandomFloatToIntCheck.java:59-65 | issues are raised only under a cast to `int`, each on a resolved method invocation |
| RandomFloatToInt.InvocationVerdict | java-checks/src/main/java/org/sonar/java/checks/RandomFloatToIntCheck.java:70-75 | `Math.random()` gets its own message first; otherwise a generator gets the other message; nothing else is reported |
| RandomFloatToInt.ScanJudgesReachable | java-checks/src/main/java/org/sonar/java/checks/RandomFloatToIntCheck.java:67-87 | the walk judges every reachable invocation once, in visiting order, and nothing else |
| RandomFloatToInt.IssuesOfAppend | java-checks/src/main/java/org/sonar/java/checks/RandomFloatToIntCheck.java:76-84 | judging two lists of invocations one after the other yields the issues of the first, then those of the second |
| RandomFloatToInt.ScanAllJudgesReachable | java-checks/src/main/java/org/sonar/java/checks/RandomFloatToIntCheck.java:76-84 | the same for a list of sub-trees, in order |
| RandomFloatToInt.AtMostOnePerInvocation | java-checks/src/main/java/org/sonar/java/checks/RandomFloatToIntCheck.java:70-75 | at most one issue per reachable invocation |
| RandomFloatToInt.ClassBodyIgnored | java-checks/src/main/java/org/sonar/java/checks/RandomFloatToIntCheck.java:79-86 | the body of an anonymous class is never scanned |
| RandomFloatToInt.NestedInvocationsReached | java-checks/src/main/java/org/sonar/java/checks/RandomFloatToIntCheck.java:76 | invocations nested in a call's receiver or arguments are reached, whether or not the call matched |
| RandomFloatToInt.OnlyIntCasts | java-checks/src/main/java/org/sonar/java/checks/RandomFloatToIntCheck.java:59-65 | a cast to any type other than `int` raises nothing |
| RandomFloatToInt.IntCastIssues | java-checks/src/main/java/org/sonar/java/checks/RandomFloatToIntCheck.java:59-65 | on a cast to `int`, the issues are those of the reachable invocations, at most one each |
| InappropriateRegexp.InappropriateRegexpsAccepts | java-checks/src/main/java/org/sonar/java/checks/InappropriateRegexpCheck.java:36 | the rule's pattern, an escaped dot or an escaped vertical bar, accepts exactly the one-character strings "." and the vertical bar |
| InappropriateRegexp.IsInappropriateRegexpStringLiteral | java-checks/src/main/java/org/sonar/java/checks/InappropriateRegexpCheck.java:54-60 | holds exactly for the string literals `"."` and `"|"` |
| InappropriateRegexp.IsFileSeparator | java-checks/src/main/java/org/sonar/java/checks/InappropriateRegexpCheck.java:62-68 | holds exactly for `separator` selected on an expression of static type `java.io.File`, which is never also a bad literal |
| InappropriateRegexp.OnMethodInvocationFound | java-checks/src/main/java/org/sonar/java/checks/InappropriateRegexpCheck.java:46-52 | fails exactly when there is no first argument; otherwise at most one issue |
| InappropriateRegexp.Check | java-checks/src/main/java/org/sonar/java/checks/InappropriateRegexpCheck.java:38-52 | at most one issue per invocation |
| InappropriateRegexp.MatchersAreStringReplace | java-checks/src/main/java/org/sonar/java/checks/InappropriateRegexpCheck.java:38-44 | the matchers accept exactly `String.replaceAll` and `String.replaceFirst`, with any parameters |
| InappropriateRegexp.FailsIffMatchedWithoutArguments | java-checks/src/main/java/org/sonar/java/checks/InappropriateRegexpCheck.java:46-48 | the rule fails exactly on a matched call without arguments |
| InappropriateRegexp.ReportedIff | java-checks/src/main/java/org/sonar/java/checks/InappropriateRegexpCheck.java:46-68 | a matched call is reported exactly when its first argument is the literal "." or the literal vertical bar, or `File.separator`; the issue is on that argument |
| InappropriateRegexp.OnlyFirstArgumentRead | java-checks/src/main/java/org/sonar/java/checks/InappropriateRegexpCheck.java:48 | arguments after the first do not change the verdict |

## Left out

- The engine's own implementation (`MethodMatchersBuilder`, `TypeCriteria`, `NameCriteria`, `ParametersCriteria`) is not part of this model. Its behaviour is taken from the assertions of `MethodMatchersTest.java`, and the model follows them where a naive reading would differ: the receiver type decides the owner, unresolved subjects never match.
- Parsing, symbol resolution and the computation of receiver static types are inputs. A tree is given with the subject it offers and the line it starts on, and the trees of a test file are listed in the order the scanner visits them.
- The scanner, `VisitorsBridge`, `SubscriptionVisitor` dispatch and `AbstractMethodDetection` are replaced by one `Check` function per rule, applied to one tree. The rules' handling of method references through `AbstractMethodDetection` is not modelled.
- Issue messages are not modelled as text. An issue is a value naming what is reported and where: the argument, the constructed type, or the invocation whose method select `RandomFloatToIntCheck` reports on.
- `asConstant`, `getInitializerOrExpression` and `ReassignmentFinder` are inputs and not part of this model. A concatenation carries whether it is a constant. An identifier carries its initializer and the assignment expressions that reassign it, each as a whole: `q += e` as a `PlusAssignment`, and `q = e` or another compound assignment as an `OtherExpr`.
- `LiteralUtils.trimQuotes` is an input: a string literal carries its text without quotes and with escapes kept.
- StringPrimitiveConstructor.ParseBigInteger: accepts an optional `+` or `-` followed by ASCII decimal digits only. `new BigInteger(String)` also accepts other Unicode decimal digits; the model treats those texts as parse failures, so such literals are not reported.
- The Java regular-expression engine is not modelled. Only the rule's one pattern is, as a two-case expression tree with whole-string matching.
- Thread-safety of shared matcher instances is not modelled: it is about concurrency, not matching.
- `StreamPeekCheck` is not modelled: it is only a four-entry exact-type table, which the engine covers.
- `SerializableObjectInSessionCheck` is not modelled: its decision rests on `ExpressionsHelper.isNotSerializable` and `JUtils.isParametrized`, which are not part of this model.
- `BadTestMethodNameCheckTest` is not modelled: it only runs the analyzer over fixture files, and the check itself is not part of this model.
- In the hierarchies of the replayed tests, interfaces have `java.lang.Object` as their supertype, as the frontend's semantic model presents them. This matters only to `ofSubType("java.lang.Object")`.
- NamesScenarios.NamePredicateIgnoringCase: the predicate `"B"::equalsIgnoreCase` is written as membership in `{"B", "b"}`, the strings it accepts.
