/**
  The matcher engine: a `MethodMatcher` is the conjunction of three lists of
  alternatives (owner types, names, parameter lists), each list a
  disjunction; `MethodMatchers` is a disjunction of matchers. A matcher is
  asked about a subject: a resolved method symbol plus the type tested as its
  owner, which for call trees is the static type of the receiver.
*/
module Matchers {
  import opened TypeHierarchy
  import opened Criteria

  /** The method or constructor a matcher is asked about; an unresolved subject never matches. */
  datatype Subject = Subject(owner: JType, name: string, parameters: seq<JType>, resolved: bool)

  datatype MethodMatcher = MethodMatcher(
    types: seq<TypeCriterion>,
    names: seq<NameCriterion>,
    parameters: seq<ParameterCriterion>)

  /** A disjunction of matchers; no alternative at all is `MethodMatchers.empty()`. */
  datatype MethodMatchers = MethodMatchers(alternatives: seq<MethodMatcher>)

  predicate SomeTypeCriterion(h: Hierarchy, cs: seq<TypeCriterion>, t: JType)
  {
    exists i :: 0 <= i < |cs| && TypeSatisfies(h, cs[i], t)
  }

  predicate SomeNameCriterion(cs: seq<NameCriterion>, name: string)
  {
    exists i :: 0 <= i < |cs| && NameSatisfies(cs[i], name)
  }

  predicate SomeParameterCriterion(h: Hierarchy, cs: seq<ParameterCriterion>, ps: seq<JType>)
  {
    exists i :: 0 <= i < |cs| && ParametersSatisfy(h, cs[i], ps)
  }

  /** One matcher: a resolved subject meeting some criterion of every kind; a kind with no criterion rejects all. */
  function MatcherMatches(h: Hierarchy, m: MethodMatcher, s: Subject): (r: bool)
    ensures r ==> s.resolved && |m.types| > 0 && |m.names| > 0 && |m.parameters| > 0
  {
    && s.resolved
    && SomeTypeCriterion(h, m.types, s.owner)
    && SomeNameCriterion(m.names, s.name)
    && SomeParameterCriterion(h, m.parameters, s.parameters)
  }

  /** A disjunction of matchers: only resolved subjects, and nothing at all without alternatives. */
  function Matches(h: Hierarchy, mm: MethodMatchers, s: Subject): (r: bool)
    ensures r ==> s.resolved && |mm.alternatives| > 0
  {
    exists i :: 0 <= i < |mm.alternatives| && MatcherMatches(h, mm.alternatives[i], s)
  }

  function Empty(): MethodMatchers
  {
    MethodMatchers([])
  }

  function Single(m: MethodMatcher): MethodMatchers
  {
    MethodMatchers([m])
  }

  /** `MethodMatchers.or(...)`: the alternatives of every argument, in order. */
  function Or(ms: seq<MethodMatchers>): (r: MethodMatchers)
    ensures forall j :: 0 <= j < |ms| ==> |ms[j].alternatives| <= |r.alternatives|
    ensures forall m :: m in r.alternatives <==> exists j :: 0 <= j < |ms| && m in ms[j].alternatives
  {
    if ms == [] then Empty()
    else MethodMatchers(ms[0].alternatives + Or(ms[1..]).alternatives)
  }

  // ---------------------------------------------------------------------------
  // Trees and symbols

  /** How the invoked method is selected: `recv.f(...)`, or a bare `f(...)`. */
  datatype Select = Qualified(receiverType: JType) | Unqualified

  /** The four tree kinds a matcher accepts, each with the symbol it resolves to. */
  datatype Node =
    | Invocation(select: Select, symbol: Subject)
    | NewClass(symbol: Subject)
    | Declaration(symbol: Subject)
    | Reference(receiverType: JType, symbol: Subject)

  /**
    Matching a tree: for `recv.f(...)` and `recv::f` the owner tested is the
    static type of the receiver, not the class declaring `f`; a bare `f(...)`,
    a `new` expression and a declaration test the class of the symbol itself.
  */
  function TreeSubject(n: Node): (r: Subject)
    ensures r.name == n.symbol.name && r.parameters == n.symbol.parameters && r.resolved == n.symbol.resolved
    ensures n.Invocation? && n.select.Qualified? ==> r.owner == n.select.receiverType
    ensures n.Reference? ==> r.owner == n.receiverType
    ensures n.NewClass? || n.Declaration? || (n.Invocation? && n.select.Unqualified?) ==> r == n.symbol
  {
    match n
    case Invocation(Qualified(rt), sym) => sym.(owner := rt)
    case Invocation(Unqualified, sym) => sym
    case NewClass(sym) => sym
    case Declaration(sym) => sym
    case Reference(rt, sym) => sym.(owner := rt)
  }

  /**
    Matching the symbol of a tree: the owner is the declaring class; what a
    method reference offers as its symbol is the symbol of its functional
    interface type, which is not a method symbol, so it never matches.
  */
  function SymbolSubject(n: Node): (r: Subject)
    ensures r.owner == n.symbol.owner && r.name == n.symbol.name && r.parameters == n.symbol.parameters
    ensures r.resolved <==> n.symbol.resolved && !n.Reference?
  {
    match n
    case Reference(_, sym) => sym.(resolved := false)
    case _ => n.symbol
  }

  predicate MatchesTree(h: Hierarchy, mm: MethodMatchers, n: Node)
  {
    Matches(h, mm, TreeSubject(n))
  }

  predicate MatchesSymbol(h: Hierarchy, mm: MethodMatchers, n: Node)
  {
    Matches(h, mm, SymbolSubject(n))
  }

  // ---------------------------------------------------------------------------
  // Properties of the engine

  /** `MethodMatchers.empty()` matches nothing. */
  lemma EmptyMatchesNothing(h: Hierarchy, s: Subject)
    ensures !Matches(h, Empty(), s)
  {
  }

  /** An unresolved subject matches no matcher at all, not even `ofAnyType().anyName().withAnyParameters()`. */
  lemma UnresolvedNeverMatches(h: Hierarchy, mm: MethodMatchers, s: Subject)
    requires !s.resolved
    ensures !Matches(h, mm, s)
  {
  }

  /** `ofAnyType().anyName().withAnyParameters()` matches every resolved subject. */
  lemma AnyMatcherMatchesResolved(h: Hierarchy, s: Subject)
    ensures Matches(h, Single(MethodMatcher([AnyType], [AnyName], [AnyParameters])), s) <==> s.resolved
  {
    var m := MethodMatcher([AnyType], [AnyName], [AnyParameters]);
    if s.resolved {
      assert TypeSatisfies(h, m.types[0], s.owner);
      assert NameSatisfies(m.names[0], s.name);
      assert ParametersSatisfy(h, m.parameters[0], s.parameters);
      assert MatcherMatches(h, Single(m).alternatives[0], s);
    }
  }

  /** A matcher with one criterion of each kind: the three tests, conjoined, on a resolved subject. */
  lemma SingleCriteria(h: Hierarchy, tc: TypeCriterion, nc: NameCriterion, pc: ParameterCriterion, s: Subject)
    ensures Matches(h, Single(MethodMatcher([tc], [nc], [pc])), s) <==>
              s.resolved && TypeSatisfies(h, tc, s.owner) && NameSatisfies(nc, s.name) && ParametersSatisfy(h, pc, s.parameters)
  {
    var m := MethodMatcher([tc], [nc], [pc]);
    assert Single(m).alternatives[0] == m;
    if s.resolved && TypeSatisfies(h, tc, s.owner) && NameSatisfies(nc, s.name) && ParametersSatisfy(h, pc, s.parameters) {
      assert TypeSatisfies(h, m.types[0], s.owner);
      assert NameSatisfies(m.names[0], s.name);
      assert ParametersSatisfy(h, m.parameters[0], s.parameters);
    }
  }

  /** Tree-mode matching against a one-criterion-per-kind matcher. */
  lemma SingleCriteriaOnTree(h: Hierarchy, tc: TypeCriterion, nc: NameCriterion, pc: ParameterCriterion, n: Node)
    ensures MatchesTree(h, Single(MethodMatcher([tc], [nc], [pc])), n) <==>
              var s := TreeSubject(n);
              s.resolved && TypeSatisfies(h, tc, s.owner) && NameSatisfies(nc, s.name) && ParametersSatisfy(h, pc, s.parameters)
  {
    SingleCriteria(h, tc, nc, pc, TreeSubject(n));
  }

  /** Symbol-mode matching against a one-criterion-per-kind matcher. */
  lemma SingleCriteriaOnSymbol(h: Hierarchy, tc: TypeCriterion, nc: NameCriterion, pc: ParameterCriterion, n: Node)
    ensures MatchesSymbol(h, Single(MethodMatcher([tc], [nc], [pc])), n) <==>
              var s := SymbolSubject(n);
              s.resolved && TypeSatisfies(h, tc, s.owner) && NameSatisfies(nc, s.name) && ParametersSatisfy(h, pc, s.parameters)
  {
    SingleCriteria(h, tc, nc, pc, SymbolSubject(n));
  }

  lemma MatchesAppend(h: Hierarchy, a: seq<MethodMatcher>, b: seq<MethodMatcher>, s: Subject)
    ensures Matches(h, MethodMatchers(a + b), s) <==> Matches(h, MethodMatchers(a), s) || Matches(h, MethodMatchers(b), s)
  {
    if Matches(h, MethodMatchers(a + b), s) {
      var i :| 0 <= i < |a + b| && MatcherMatches(h, (a + b)[i], s);
      if i >= |a| {
        assert b[i - |a|] == (a + b)[i];
      } else {
        assert a[i] == (a + b)[i];
      }
    }
    if Matches(h, MethodMatchers(a), s) {
      var i :| 0 <= i < |a| && MatcherMatches(h, a[i], s);
      assert (a + b)[i] == a[i];
    }
    if Matches(h, MethodMatchers(b), s) {
      var i :| 0 <= i < |b| && MatcherMatches(h, b[i], s);
      assert (a + b)[|a| + i] == b[i];
    }
  }

  /** `MethodMatchers.or(m1, ..., mn)` matches exactly what at least one of the mi matches. */
  lemma {:induction false} OrIsUnion(h: Hierarchy, ms: seq<MethodMatchers>, s: Subject)
    ensures Matches(h, Or(ms), s) <==> exists j :: 0 <= j < |ms| && Matches(h, ms[j], s)
  {
    if ms != [] {
      OrIsUnion(h, ms[1..], s);
      MatchesAppend(h, ms[0].alternatives, Or(ms[1..]).alternatives, s);
      assert forall j :: 1 <= j < |ms| ==> ms[j] == ms[1..][j - 1];
    }
  }

  /** The two-argument form used in the tests. */
  lemma OrOfTwo(h: Hierarchy, m1: MethodMatchers, m2: MethodMatchers, s: Subject)
    ensures Matches(h, Or([m1, m2]), s) <==> Matches(h, m1, s) || Matches(h, m2, s)
  {
    OrIsUnion(h, [m1, m2], s);
  }

  lemma SomeTypeAppend(h: Hierarchy, a: seq<TypeCriterion>, b: seq<TypeCriterion>, t: JType)
    ensures SomeTypeCriterion(h, a + b, t) <==> SomeTypeCriterion(h, a, t) || SomeTypeCriterion(h, b, t)
  {
    if SomeTypeCriterion(h, a + b, t) {
      var i :| 0 <= i < |a + b| && TypeSatisfies(h, (a + b)[i], t);
      if i >= |a| {
        assert TypeSatisfies(h, b[i - |a|], t);
      } else {
        assert TypeSatisfies(h, a[i], t);
      }
    }
    if SomeTypeCriterion(h, a, t) {
      var i :| 0 <= i < |a| && TypeSatisfies(h, a[i], t);
      assert TypeSatisfies(h, (a + b)[i], t);
    }
    if SomeTypeCriterion(h, b, t) {
      var i :| 0 <= i < |b| && TypeSatisfies(h, b[i], t);
      assert TypeSatisfies(h, (a + b)[|a| + i], t);
    }
  }

  lemma SomeNameAppend(a: seq<NameCriterion>, b: seq<NameCriterion>, name: string)
    ensures SomeNameCriterion(a + b, name) <==> SomeNameCriterion(a, name) || SomeNameCriterion(b, name)
  {
    if SomeNameCriterion(a + b, name) {
      var i :| 0 <= i < |a + b| && NameSatisfies((a + b)[i], name);
      if i >= |a| {
        assert NameSatisfies(b[i - |a|], name);
      } else {
        assert NameSatisfies(a[i], name);
      }
    }
    if SomeNameCriterion(a, name) {
      var i :| 0 <= i < |a| && NameSatisfies(a[i], name);
      assert NameSatisfies((a + b)[i], name);
    }
    if SomeNameCriterion(b, name) {
      var i :| 0 <= i < |b| && NameSatisfies(b[i], name);
      assert NameSatisfies((a + b)[|a| + i], name);
    }
  }

  lemma SomeParameterAppend(h: Hierarchy, a: seq<ParameterCriterion>, b: seq<ParameterCriterion>, ps: seq<JType>)
    ensures SomeParameterCriterion(h, a + b, ps) <==> SomeParameterCriterion(h, a, ps) || SomeParameterCriterion(h, b, ps)
  {
    if SomeParameterCriterion(h, a + b, ps) {
      var i :| 0 <= i < |a + b| && ParametersSatisfy(h, (a + b)[i], ps);
      if i >= |a| {
        assert ParametersSatisfy(h, b[i - |a|], ps);
      } else {
        assert ParametersSatisfy(h, a[i], ps);
      }
    }
    if SomeParameterCriterion(h, a, ps) {
      var i :| 0 <= i < |a| && ParametersSatisfy(h, a[i], ps);
      assert ParametersSatisfy(h, (a + b)[i], ps);
    }
    if SomeParameterCriterion(h, b, ps) {
      var i :| 0 <= i < |b| && ParametersSatisfy(h, b[i], ps);
      assert ParametersSatisfy(h, (a + b)[|a| + i], ps);
    }
  }

  /** Within one matcher the type criteria are alternatives: `ofTypes("B", "X")`, repeated `ofSubType`. */
  lemma TypeCriteriaAreAlternatives(h: Hierarchy, m: MethodMatcher, a: seq<TypeCriterion>, b: seq<TypeCriterion>, s: Subject)
    ensures MatcherMatches(h, m.(types := a + b), s) <==>
              MatcherMatches(h, m.(types := a), s) || MatcherMatches(h, m.(types := b), s)
  {
    SomeTypeAppend(h, a, b, s.owner);
  }

  /** Within one matcher the name criteria are alternatives: `names("a", "b")`, repeated `name`. */
  lemma NameCriteriaAreAlternatives(h: Hierarchy, m: MethodMatcher, a: seq<NameCriterion>, b: seq<NameCriterion>, s: Subject)
    ensures MatcherMatches(h, m.(names := a + b), s) <==>
              MatcherMatches(h, m.(names := a), s) || MatcherMatches(h, m.(names := b), s)
  {
    SomeNameAppend(a, b, s.name);
  }

  /** Repeated `withParameters`/`withoutParameters` are alternative signatures, e.g. for overloads. */
  lemma ParameterCriteriaAreAlternatives(h: Hierarchy, m: MethodMatcher, a: seq<ParameterCriterion>, b: seq<ParameterCriterion>, s: Subject)
    ensures MatcherMatches(h, m.(parameters := a + b), s) <==>
              MatcherMatches(h, m.(parameters := a), s) || MatcherMatches(h, m.(parameters := b), s)
  {
    SomeParameterAppend(h, a, b, s.parameters);
  }

  /** The three kinds are conjoined: failing any one kind fails the matcher. */
  lemma KindsAreConjoined(h: Hierarchy, m: MethodMatcher, s: Subject)
    ensures MatcherMatches(h, m, s) ==> SomeTypeCriterion(h, m.types, s.owner)
    ensures MatcherMatches(h, m, s) ==> SomeNameCriterion(m.names, s.name)
    ensures MatcherMatches(h, m, s) ==> SomeParameterCriterion(h, m.parameters, s.parameters)
  {
  }

  /**
    For `recv.f(...)` only the receiver's static type counts as owner: two
    calls with the same receiver type, name and parameters match alike,
    whichever class declares the invoked method.
  */
  lemma ReceiverTypeDecides(h: Hierarchy, mm: MethodMatchers, rt: JType, s1: Subject, s2: Subject)
    requires s1.name == s2.name && s1.parameters == s2.parameters && s1.resolved == s2.resolved
    ensures MatchesTree(h, mm, Invocation(Qualified(rt), s1)) <==> MatchesTree(h, mm, Invocation(Qualified(rt), s2))
    ensures MatchesTree(h, mm, Reference(rt, s1)) <==> MatchesTree(h, mm, Reference(rt, s2))
  {
    assert TreeSubject(Invocation(Qualified(rt), s1)) == TreeSubject(Invocation(Qualified(rt), s2));
    assert TreeSubject(Reference(rt, s1)) == TreeSubject(Reference(rt, s2));
  }

  /** Matching the symbol of a method reference never succeeds, whatever the matcher. */
  lemma SymbolOfReferenceNeverMatches(h: Hierarchy, mm: MethodMatchers, rt: JType, sym: Subject)
    ensures !MatchesSymbol(h, mm, Reference(rt, sym))
  {
  }

  /** Invocations, `new` expressions and declarations of a method of its own class match alike in both modes. */
  lemma TreeAndSymbolAgreeOnOwnClass(h: Hierarchy, mm: MethodMatchers, n: Node)
    requires n.Declaration? || n.NewClass? || (n.Invocation? && n.select.Unqualified?)
             || (n.Invocation? && n.select.Qualified? && n.select.receiverType == n.symbol.owner)
    ensures MatchesTree(h, mm, n) <==> MatchesSymbol(h, mm, n)
  {
    assert TreeSubject(n) == SymbolSubject(n);
  }

  /** One matcher tried on a tree: its criteria, kind by kind, on the subject the tree offers. */
  lemma SingleMatcherOnTree(h: Hierarchy, m: MethodMatcher, n: Node)
    ensures MatchesTree(h, Single(m), n) <==> MatcherMatches(h, m, TreeSubject(n))
  {
    assert Single(m).alternatives[0] == m;
  }

  /** Two owner-type alternatives, as `ofTypes("B", "X")` or `ofSubType("B").ofSubType("X")` give. */
  lemma TypeCriteriaOfTwo(h: Hierarchy, a: TypeCriterion, b: TypeCriterion, t: JType)
    ensures SomeTypeCriterion(h, [a, b], t) <==> TypeSatisfies(h, a, t) || TypeSatisfies(h, b, t)
  {
    var cs := [a, b];
    assert cs[0] == a && cs[1] == b;
    if SomeTypeCriterion(h, cs, t) {
      var i :| 0 <= i < |cs| && TypeSatisfies(h, cs[i], t);
      assert i == 0 || i == 1;
    }
  }

  /** Two name alternatives, as `name("a").name("b")` gives. */
  lemma NameCriteriaOfTwo(a: NameCriterion, b: NameCriterion, name: string)
    ensures SomeNameCriterion([a, b], name) <==> NameSatisfies(a, name) || NameSatisfies(b, name)
  {
    var cs := [a, b];
    assert cs[0] == a && cs[1] == b;
    if SomeNameCriterion(cs, name) {
      var i :| 0 <= i < |cs| && NameSatisfies(cs[i], name);
      assert i == 0 || i == 1;
    }
  }

  /** Two alternative signatures, as two `withParameters` calls give. */
  lemma ParameterCriteriaOfTwo(h: Hierarchy, a: ParameterCriterion, b: ParameterCriterion, ps: seq<JType>)
    ensures SomeParameterCriterion(h, [a, b], ps) <==> ParametersSatisfy(h, a, ps) || ParametersSatisfy(h, b, ps)
  {
    var cs := [a, b];
    assert cs[0] == a && cs[1] == b;
    if SomeParameterCriterion(h, cs, ps) {
      var i :| 0 <= i < |cs| && ParametersSatisfy(h, cs[i], ps);
      assert i == 0 || i == 1;
    }
  }

  /** Three alternative signatures. */
  lemma ParameterCriteriaOfThree(h: Hierarchy, a: ParameterCriterion, b: ParameterCriterion, c: ParameterCriterion, ps: seq<JType>)
    ensures SomeParameterCriterion(h, [a, b, c], ps) <==>
              ParametersSatisfy(h, a, ps) || ParametersSatisfy(h, b, ps) || ParametersSatisfy(h, c, ps)
  {
    var cs := [a, b, c];
    assert cs[0] == a && cs[1] == b && cs[2] == c;
    if SomeParameterCriterion(h, cs, ps) {
      var i :| 0 <= i < |cs| && ParametersSatisfy(h, cs[i], ps);
      assert i == 0 || i == 1 || i == 2;
    }
  }
}
