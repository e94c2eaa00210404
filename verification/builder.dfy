/**
  The builder behind `MethodMatchers.create()`. Each criterion kind (owner
  type, name, parameters) moves through a small state machine: unset, then
  either a growing list of specific alternatives or the single "any"
  criterion. Mixing "any" with anything else of the same kind is refused
  while building; asking a matcher whose kind was never set is refused when
  it is first used. Both refusals are `IllegalStateException` in Java.
*/
module MatcherBuilder {
  import opened Wrappers
  import opened TypeHierarchy
  import Criteria
  import opened Matchers

  datatype Kind = TypeKind | NameKind | ParameterKind

  datatype ConfigError =
    | AnyMixedWithOthers(kind: Kind)
    | CriteriaNotSet(kind: Kind)

  datatype KindState<C> = Unset | Specific(alternatives: seq<C>) | AnyCriterion

  /** Adding specific criteria appends them as further alternatives; refused once "any" is set. */
  function AddSpecific<C>(st: KindState<C>, cs: seq<C>): (r: Option<KindState<C>>)
    ensures r.None? <==> st.AnyCriterion?
    ensures r.Some? ==> r.value.Specific? && r.value.alternatives == (if st.Specific? then st.alternatives else []) + cs
  {
    match st
    case Unset => Some(Specific(cs))
    case Specific(a) => Some(Specific(a + cs))
    case AnyCriterion => None
  }

  /** The "any" criterion is accepted only on a kind nothing was added to yet. */
  function AddAny<C>(st: KindState<C>): (r: Option<KindState<C>>)
    ensures r.Some? <==> st.Unset?
    ensures r.Some? ==> r.value.AnyCriterion?
  {
    if st.Unset? then Some(AnyCriterion) else None
  }

  /** How a builder call leaves one kind: the new state, or the old one and an error. */
  ghost predicate Stepped<C>(before: KindState<C>, after: KindState<C>, next: Option<KindState<C>>, err: Option<ConfigError>, kind: Kind)
  {
    match next
    case Some(st) => after == st && err == None
    case None => after == before && err == Some(AnyMixedWithOthers(kind))
  }

  function Alternatives<C>(st: KindState<C>, any: C): seq<C>
    requires !st.Unset?
  {
    if st.AnyCriterion? then [any] else st.alternatives
  }

  /** The matcher the three states describe, or the first kind that was never set. */
  function Build(
    types: KindState<Criteria.TypeCriterion>,
    names: KindState<Criteria.NameCriterion>,
    parameters: KindState<Criteria.ParameterCriterion>): (r: Result<MethodMatcher, ConfigError>)
    ensures r.Failure? <==> types.Unset? || names.Unset? || parameters.Unset?
    ensures r.Failure? ==> r.error == CriteriaNotSet(if types.Unset? then TypeKind else if names.Unset? then NameKind else ParameterKind)
  {
    if types.Unset? then Failure(CriteriaNotSet(TypeKind))
    else if names.Unset? then Failure(CriteriaNotSet(NameKind))
    else if parameters.Unset? then Failure(CriteriaNotSet(ParameterKind))
    else Success(MethodMatcher(
      Alternatives(types, Criteria.AnyType),
      Alternatives(names, Criteria.AnyName),
      Alternatives(parameters, Criteria.AnyParameters)))
  }

  class MethodMatchersBuilder {
    var types: KindState<Criteria.TypeCriterion>
    var names: KindState<Criteria.NameCriterion>
    var parameters: KindState<Criteria.ParameterCriterion>

    /** `MethodMatchers.create()`: nothing set yet. */
    constructor Create()
      ensures types.Unset? && names.Unset? && parameters.Unset?
    {
      types, names, parameters := Unset, Unset, Unset;
    }

    function Built(): Result<MethodMatcher, ConfigError>
      reads this
    {
      Build(types, names, parameters)
    }

    // -------------------------------------------------------------------------
    // Owner type

    method AddTypes(cs: seq<Criteria.TypeCriterion>) returns (err: Option<ConfigError>)
      modifies this
      ensures Stepped(old(types), types, AddSpecific(old(types), cs), err, TypeKind)
      ensures names == old(names) && parameters == old(parameters)
    {
      var next := AddSpecific(types, cs);
      if next.Some? {
        types, err := next.value, None;
      } else {
        err := Some(AnyMixedWithOthers(TypeKind));
      }
    }

    method OfType(n: TypeName) returns (err: Option<ConfigError>)
      modifies this
      ensures Stepped(old(types), types, AddSpecific(old(types), [Criteria.ExactType(n)]), err, TypeKind)
      ensures names == old(names) && parameters == old(parameters)
    {
      err := AddTypes([Criteria.ExactType(n)]);
    }

    method OfTypes(ns: seq<TypeName>) returns (err: Option<ConfigError>)
      modifies this
      ensures Stepped(old(types), types, AddSpecific(old(types), Criteria.Signature(ns)), err, TypeKind)
      ensures names == old(names) && parameters == old(parameters)
    {
      err := AddTypes(Criteria.Signature(ns));
    }

    method OfSubType(n: TypeName) returns (err: Option<ConfigError>)
      modifies this
      ensures Stepped(old(types), types, AddSpecific(old(types), [Criteria.SubtypeOf(n)]), err, TypeKind)
      ensures names == old(names) && parameters == old(parameters)
    {
      err := AddTypes([Criteria.SubtypeOf(n)]);
    }

    /** `ofSubTypes("A", "X")`: one subtype criterion per name, in order. */
    method OfSubTypes(ns: seq<TypeName>) returns (err: Option<ConfigError>)
      modifies this
      ensures Stepped(old(types), types, AddSpecific(old(types), Criteria.Subtypes(ns)), err, TypeKind)
      ensures names == old(names) && parameters == old(parameters)
    {
      err := AddTypes(Criteria.Subtypes(ns));
    }

    method OfTypeMatching(p: Criteria.JType -> bool) returns (err: Option<ConfigError>)
      modifies this
      ensures Stepped(old(types), types, AddSpecific(old(types), [Criteria.TypePredicate(p)]), err, TypeKind)
      ensures names == old(names) && parameters == old(parameters)
    {
      err := AddTypes([Criteria.TypePredicate(p)]);
    }

    method OfAnyType() returns (err: Option<ConfigError>)
      modifies this
      ensures Stepped(old(types), types, AddAny(old(types)), err, TypeKind)
      ensures names == old(names) && parameters == old(parameters)
    {
      var next := AddAny(types);
      if next.Some? {
        types, err := next.value, None;
      } else {
        err := Some(AnyMixedWithOthers(TypeKind));
      }
    }

    // -------------------------------------------------------------------------
    // Name

    method AddNames(cs: seq<Criteria.NameCriterion>) returns (err: Option<ConfigError>)
      modifies this
      ensures Stepped(old(names), names, AddSpecific(old(names), cs), err, NameKind)
      ensures types == old(types) && parameters == old(parameters)
    {
      var next := AddSpecific(names, cs);
      if next.Some? {
        names, err := next.value, None;
      } else {
        err := Some(AnyMixedWithOthers(NameKind));
      }
    }

    method Name(n: string) returns (err: Option<ConfigError>)
      modifies this
      ensures Stepped(old(names), names, AddSpecific(old(names), [Criteria.Names({n})]), err, NameKind)
      ensures types == old(types) && parameters == old(parameters)
    {
      err := AddNames([Criteria.Names({n})]);
    }

    method Names(ns: set<string>) returns (err: Option<ConfigError>)
      modifies this
      ensures Stepped(old(names), names, AddSpecific(old(names), [Criteria.Names(ns)]), err, NameKind)
      ensures types == old(types) && parameters == old(parameters)
    {
      err := AddNames([Criteria.Names(ns)]);
    }

    method StartWithName(p: string) returns (err: Option<ConfigError>)
      modifies this
      ensures Stepped(old(names), names, AddSpecific(old(names), [Criteria.Prefix(p)]), err, NameKind)
      ensures types == old(types) && parameters == old(parameters)
    {
      err := AddNames([Criteria.Prefix(p)]);
    }

    method NameMatching(p: string -> bool) returns (err: Option<ConfigError>)
      modifies this
      ensures Stepped(old(names), names, AddSpecific(old(names), [Criteria.NamePredicate(p)]), err, NameKind)
      ensures types == old(types) && parameters == old(parameters)
    {
      err := AddNames([Criteria.NamePredicate(p)]);
    }

    method Constructor() returns (err: Option<ConfigError>)
      modifies this
      ensures Stepped(old(names), names, AddSpecific(old(names), [Criteria.Constructor]), err, NameKind)
      ensures types == old(types) && parameters == old(parameters)
    {
      err := AddNames([Criteria.Constructor]);
    }

    method AnyName() returns (err: Option<ConfigError>)
      modifies this
      ensures Stepped(old(names), names, AddAny(old(names)), err, NameKind)
      ensures types == old(types) && parameters == old(parameters)
    {
      var next := AddAny(names);
      if next.Some? {
        names, err := next.value, None;
      } else {
        err := Some(AnyMixedWithOthers(NameKind));
      }
    }

    // -------------------------------------------------------------------------
    // Parameters

    method AddParameters(cs: seq<Criteria.ParameterCriterion>) returns (err: Option<ConfigError>)
      modifies this
      ensures Stepped(old(parameters), parameters, AddSpecific(old(parameters), cs), err, ParameterKind)
      ensures types == old(types) && names == old(names)
    {
      var next := AddSpecific(parameters, cs);
      if next.Some? {
        parameters, err := next.value, None;
      } else {
        err := Some(AnyMixedWithOthers(ParameterKind));
      }
    }

    method WithoutParameters() returns (err: Option<ConfigError>)
      modifies this
      ensures Stepped(old(parameters), parameters, AddSpecific(old(parameters), [Criteria.NoParameters]), err, ParameterKind)
      ensures types == old(types) && names == old(names)
    {
      err := AddParameters([Criteria.NoParameters]);
    }

    /** `withParameters("int", "long")`: one more alternative signature, by exact type names. */
    method WithParameters(ts: seq<TypeName>) returns (err: Option<ConfigError>)
      modifies this
      ensures Stepped(old(parameters), parameters,
                      AddSpecific(old(parameters), [Criteria.ExactParameters(Criteria.Signature(ts))]), err, ParameterKind)
      ensures types == old(types) && names == old(names)
    {
      err := AddParameters([Criteria.ExactParameters(Criteria.Signature(ts))]);
    }

    /** `withParameters(type -> ..., type -> ...)`: one predicate per position, so the arity is fixed. */
    method WithParameterCriteria(cs: seq<Criteria.TypeCriterion>) returns (err: Option<ConfigError>)
      modifies this
      ensures Stepped(old(parameters), parameters, AddSpecific(old(parameters), [Criteria.ExactParameters(cs)]), err, ParameterKind)
      ensures types == old(types) && names == old(names)
    {
      err := AddParameters([Criteria.ExactParameters(cs)]);
    }

    method StartWithParameters(ts: seq<TypeName>) returns (err: Option<ConfigError>)
      modifies this
      ensures Stepped(old(parameters), parameters,
                      AddSpecific(old(parameters), [Criteria.PrefixParameters(Criteria.Signature(ts))]), err, ParameterKind)
      ensures types == old(types) && names == old(names)
    {
      err := AddParameters([Criteria.PrefixParameters(Criteria.Signature(ts))]);
    }

    method StartWithParameterCriteria(cs: seq<Criteria.TypeCriterion>) returns (err: Option<ConfigError>)
      modifies this
      ensures Stepped(old(parameters), parameters, AddSpecific(old(parameters), [Criteria.PrefixParameters(cs)]), err, ParameterKind)
      ensures types == old(types) && names == old(names)
    {
      err := AddParameters([Criteria.PrefixParameters(cs)]);
    }

    /** `withParameters(list -> ...)`: a single predicate on the whole parameter list. */
    method WithParametersMatching(p: seq<Criteria.JType> -> bool) returns (err: Option<ConfigError>)
      modifies this
      ensures Stepped(old(parameters), parameters, AddSpecific(old(parameters), [Criteria.ListPredicate(p)]), err, ParameterKind)
      ensures types == old(types) && names == old(names)
    {
      err := AddParameters([Criteria.ListPredicate(p)]);
    }

    method WithAnyParameters() returns (err: Option<ConfigError>)
      modifies this
      ensures Stepped(old(parameters), parameters, AddAny(old(parameters)), err, ParameterKind)
      ensures types == old(types) && names == old(names)
    {
      var next := AddAny(parameters);
      if next.Some? {
        parameters, err := next.value, None;
      } else {
        err := Some(AnyMixedWithOthers(ParameterKind));
      }
    }

    // -------------------------------------------------------------------------
    // Queries

    /** `matches(tree)`: a configuration error if a kind was never set, else the engine's answer. */
    method Matches(h: Hierarchy, n: Node) returns (r: Result<bool, ConfigError>)
      ensures r.Failure? <==> types.Unset? || names.Unset? || parameters.Unset?
      ensures r.Failure? ==> r.error == Built().error
      ensures r.Success? ==> Built().Success? && r.value == MatchesTree(h, Single(Built().value), n)
    {
      var b := Build(types, names, parameters);
      if b.Failure? {
        r := Failure(b.error);
      } else {
        r := Success(MatcherMatches(h, b.value, TreeSubject(n)));
        assert MatcherMatches(h, b.value, TreeSubject(n)) ==> MatcherMatches(h, Single(b.value).alternatives[0], TreeSubject(n));
      }
    }

    /** `matches(symbol)`: as above, on a symbol taken on its own. */
    method MatchesSymbol(h: Hierarchy, s: Subject) returns (r: Result<bool, ConfigError>)
      ensures r.Failure? <==> types.Unset? || names.Unset? || parameters.Unset?
      ensures r.Failure? ==> r.error == Built().error
      ensures r.Success? ==> Built().Success? && r.value == Matchers.Matches(h, Single(Built().value), s)
    {
      var b := Build(types, names, parameters);
      if b.Failure? {
        r := Failure(b.error);
      } else {
        r := Success(MatcherMatches(h, b.value, s));
        assert MatcherMatches(h, b.value, s) ==> MatcherMatches(h, Single(b.value).alternatives[0], s);
      }
    }
  }

  // ---------------------------------------------------------------------------
  // Properties of the state machine

  /** "Any" is exclusive: after specific criteria, after "any", and before specific criteria, it is refused. */
  lemma AnyIsExclusive<C>(st: KindState<C>, cs: seq<C>)
    ensures AddAny(st).Some? <==> st.Unset?
    ensures AddSpecific(st, cs).None? <==> st.AnyCriterion?
    ensures AddAny(st).Some? ==> AddSpecific(AddAny(st).value, cs).None?
  {
  }

  /** Successive specific additions accumulate alternatives in the order they were added. */
  lemma SpecificAccumulates<C>(st: KindState<C>, a: seq<C>, b: seq<C>)
    requires !st.AnyCriterion?
    ensures AddSpecific(AddSpecific(st, a).value, b) == AddSpecific(st, a + b)
  {
    if st.Specific? {
      assert st.alternatives + a + b == st.alternatives + (a + b);
    }
  }

  /** A matcher whose every kind is "any" matches every resolved subject. */
  lemma AllAnyMatchesEveryResolved(h: Hierarchy, s: Subject)
    ensures Build(AnyCriterion, AnyCriterion, AnyCriterion).Success?
    ensures Matchers.Matches(h, Single(Build(AnyCriterion, AnyCriterion, AnyCriterion).value), s) <==> s.resolved
  {
    AnyMatcherMatchesResolved(h, s);
  }
}
