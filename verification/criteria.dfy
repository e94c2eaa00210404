/**
  The three kinds of criteria a method matcher is built from: criteria on the
  owner type, on the method name and on the parameter list. Each criterion is
  a test on one part of a resolved method symbol.
*/
module Criteria {
  import opened TypeHierarchy

  /** A type as the semantic model presents it: known by its qualified name, or unknown (unresolved). */
  datatype JType = Known(qualifiedName: TypeName) | Unknown

  /** The reserved internal name every constructor symbol carries. */
  const CONSTRUCTOR_NAME: string := "<init>"

  datatype TypeCriterion =
    | AnyType
    | ExactType(name: TypeName)
    | SubtypeOf(name: TypeName)
    | TypePredicate(test: JType -> bool)

  datatype NameCriterion =
    | Names(names: set<string>)
    | Prefix(prefix: string)
    | AnyName
    | NamePredicate(test: string -> bool)
    | Constructor

  datatype ParameterCriterion =
    | NoParameters
    | ExactParameters(types: seq<TypeCriterion>)
    | PrefixParameters(types: seq<TypeCriterion>)
    | AnyParameters
    | ListPredicate(test: seq<JType> -> bool)

  /** The `Type.is(name)` test: an unknown type is never any named type. */
  predicate Is(t: JType, name: TypeName)
  {
    t == Known(name)
  }

  /**
    Whether type `t` passes owner criterion `c`. `ofType(n)` accepts the type
    named `n` alone, which is one of its own subtypes; `ofSubType(n)` accepts
    exactly the known types that inherit from `n`; an unknown type passes
    only "any type" or a predicate.
  */
  function TypeSatisfies(h: Hierarchy, c: TypeCriterion, t: JType): (r: bool)
    ensures c.ExactType? ==> (r <==> t == Known(c.name))
    ensures c.ExactType? && r ==> t.Known? && IsSubtype(h, t.qualifiedName, c.name)
    ensures c.SubtypeOf? ==> (r <==> t.Known? && IsSubtype(h, t.qualifiedName, c.name))
    ensures t.Unknown? && r ==> c.AnyType? || c.TypePredicate?
  {
    match c
    case AnyType => true
    case ExactType(n) => SubtypeReflexive(h, n); Is(t, n)
    case SubtypeOf(n) => t.Known? && IsSubtypeOf(h, t.qualifiedName, n)
    case TypePredicate(p) => p(t)
  }

  /**
    Whether a method name passes name criterion `c`. A prefix is compared
    case-sensitively on the leading characters; the constructor criterion
    accepts only a name starting with `<`, which no Java identifier does.
  */
  function NameSatisfies(c: NameCriterion, name: string): (r: bool)
    ensures c.Names? ==> (r <==> name in c.names)
    ensures c.Prefix? ==> (r <==> |c.prefix| <= |name| && name[..|c.prefix|] == c.prefix)
    ensures c.Constructor? ==> (r <==> name == CONSTRUCTOR_NAME)
    ensures c.Constructor? && r ==> |name| > 0 && name[0] == '<'
    ensures c.AnyName? ==> r
    ensures c.NamePredicate? ==> (r <==> c.test(name))
  {
    match c
    case Names(ns) => name in ns
    case Prefix(p) => p <= name
    case AnyName => true
    case NamePredicate(p) => p(name)
    case Constructor => name == CONSTRUCTOR_NAME
  }

  /** Position by position: the i-th parameter satisfies the i-th type criterion. */
  predicate PositionsSatisfy(h: Hierarchy, cs: seq<TypeCriterion>, ps: seq<JType>)
    requires |cs| <= |ps|
  {
    forall i :: 0 <= i < |cs| ==> TypeSatisfies(h, cs[i], ps[i])
  }

  /**
    Whether a parameter list passes parameter criterion `c`. An exact
    signature fixes the arity and tests each position; a prefix tests only
    the leading positions; "any" and the empty prefix accept every list.
  */
  function ParametersSatisfy(h: Hierarchy, c: ParameterCriterion, ps: seq<JType>): (r: bool)
    ensures c.NoParameters? ==> (r <==> |ps| == 0)
    ensures c.ExactParameters? ==> (r <==> |ps| == |c.types| && forall i :: 0 <= i < |ps| ==> TypeSatisfies(h, c.types[i], ps[i]))
    ensures c.PrefixParameters? && r ==> |c.types| <= |ps|
    ensures c.AnyParameters? || c == PrefixParameters([]) ==> r
  {
    match c
    case NoParameters => ps == []
    case ExactParameters(cs) => |cs| == |ps| && PositionsSatisfy(h, cs, ps)
    case PrefixParameters(cs) => |cs| <= |ps| && PositionsSatisfy(h, cs, ps)
    case AnyParameters => true
    case ListPredicate(p) => p(ps)
  }

  /** The exact signature named by a list of type names (`withParameters("int", "long")`). */
  function Signature(names: seq<TypeName>): (r: seq<TypeCriterion>)
    ensures |r| == |names|
    ensures forall i :: 0 <= i < |names| ==> r[i] == ExactType(names[i])
  {
    seq(|names|, i requires 0 <= i < |names| => ExactType(names[i]))
  }

  /** The owner criteria of `ofSubTypes("A", "X")`: one subtype criterion per name. */
  function Subtypes(names: seq<TypeName>): (r: seq<TypeCriterion>)
    ensures |r| == |names|
    ensures forall i :: 0 <= i < |names| ==> r[i] == SubtypeOf(names[i])
  {
    seq(|names|, i requires 0 <= i < |names| => SubtypeOf(names[i]))
  }

  /** `withParameters("int", "long")` accepts exactly the parameter list of those known types, in that order. */
  lemma SignatureAccepts(h: Hierarchy, names: seq<TypeName>, ps: seq<JType>)
    ensures ParametersSatisfy(h, ExactParameters(Signature(names)), ps) <==>
              ps == seq(|names|, i requires 0 <= i < |names| => Known(names[i]))
  {
    var want := seq(|names|, i requires 0 <= i < |names| => Known(names[i]));
    if ParametersSatisfy(h, ExactParameters(Signature(names)), ps) {
      assert forall i :: 0 <= i < |ps| ==> ps[i] == want[i] by {
        forall i | 0 <= i < |ps|
          ensures ps[i] == want[i]
        {
          assert TypeSatisfies(h, Signature(names)[i], ps[i]);
        }
      }
    }
  }

  // ---------------------------------------------------------------------------
  // Type criteria

  /** `ofSubType` is reflexive and reaches every ancestor of a type. */
  lemma SubtypeOfReflexiveTransitive(h: Hierarchy, a: TypeName, b: TypeName, c: TypeName)
    ensures TypeSatisfies(h, SubtypeOf(a), Known(a))
    ensures TypeSatisfies(h, SubtypeOf(b), Known(a)) && TypeSatisfies(h, SubtypeOf(c), Known(b))
            ==> TypeSatisfies(h, SubtypeOf(c), Known(a))
  {
    SubtypeReflexive(h, a);
    if IsSubtype(h, a, b) && IsSubtype(h, b, c) {
      SubtypeTransitive(h, a, b, c);
    }
  }

  /** Whatever accepts an exact type, `ofSubType` of the same name accepts too. */
  lemma ExactImpliesSubtype(h: Hierarchy, n: TypeName, t: JType)
    ensures TypeSatisfies(h, ExactType(n), t) ==> TypeSatisfies(h, SubtypeOf(n), t)
  {
  }

  /** An unknown type satisfies only `AnyType` and predicates that accept it. */
  lemma UnknownTypeSatisfiesOnlyAny(h: Hierarchy, c: TypeCriterion)
    ensures TypeSatisfies(h, c, Unknown) <==> c.AnyType? || (c.TypePredicate? && c.test(Unknown))
  {
  }

  // ---------------------------------------------------------------------------
  // Name criteria

  /** A one-character prefix is a test on the first character. */
  lemma PrefixOfOneCharacter(c: char, name: string)
    ensures NameSatisfies(Prefix([c]), name) <==> |name| >= 1 && name[0] == c
  {
    if |name| >= 1 && name[0] == c {
      assert name[..1] == [c];
    }
  }

  /** The legacy spelling `names("<init>")` and `constructor()` accept the same names. */
  lemma InitNameIsConstructor(name: string)
    ensures NameSatisfies(Names({CONSTRUCTOR_NAME}), name) <==> NameSatisfies(Constructor, name)
  {
  }

  /** `constructor()` never accepts an ordinary method name: `<` cannot start a Java identifier. */
  lemma ConstructorRejectsIdentifiers(name: string)
    requires |name| > 0 && name[0] != '<'
    ensures !NameSatisfies(Constructor, name)
  {
  }

  // ---------------------------------------------------------------------------
  // Parameter criteria

  /** `withoutParameters()` accepts what an empty exact signature accepts. */
  lemma NoParametersIsEmptySignature(h: Hierarchy, ps: seq<JType>)
    ensures ParametersSatisfy(h, NoParameters, ps) <==> ParametersSatisfy(h, ExactParameters([]), ps)
  {
  }

  /** A one-parameter signature, position by position. */
  lemma ExactParametersOfOne(h: Hierarchy, c: TypeCriterion, ps: seq<JType>)
    ensures ParametersSatisfy(h, ExactParameters([c]), ps) <==> |ps| == 1 && TypeSatisfies(h, c, ps[0])
  {
    if |ps| == 1 && !TypeSatisfies(h, c, ps[0]) {
      assert [c][0] == c;
    }
  }

  /** A two-parameter signature, position by position. */
  lemma ExactParametersOfTwo(h: Hierarchy, a: TypeCriterion, b: TypeCriterion, ps: seq<JType>)
    ensures ParametersSatisfy(h, ExactParameters([a, b]), ps) <==>
              |ps| == 2 && TypeSatisfies(h, a, ps[0]) && TypeSatisfies(h, b, ps[1])
  {
    var cs := [a, b];
    assert cs[0] == a && cs[1] == b;
  }

  /** A one-parameter prefix: at least one parameter, the first satisfying the criterion. */
  lemma PrefixParametersOfOne(h: Hierarchy, c: TypeCriterion, ps: seq<JType>)
    ensures ParametersSatisfy(h, PrefixParameters([c]), ps) <==> |ps| >= 1 && TypeSatisfies(h, c, ps[0])
  {
    if |ps| >= 1 && !TypeSatisfies(h, c, ps[0]) {
      assert [c][0] == c;
    }
  }

  /** `startWithParameters(cs)` constrains the first |cs| positions and nothing after them. */
  lemma PrefixParametersIgnoreTail(h: Hierarchy, cs: seq<TypeCriterion>, ps: seq<JType>, tail: seq<JType>)
    requires ParametersSatisfy(h, PrefixParameters(cs), ps)
    ensures ParametersSatisfy(h, PrefixParameters(cs), ps + tail)
  {
    assert forall i :: 0 <= i < |ps| ==> (ps + tail)[i] == ps[i];
  }

  /** A prefix match is an exact match of the first |cs| parameters. */
  lemma PrefixIsExactOnPrefix(h: Hierarchy, cs: seq<TypeCriterion>, ps: seq<JType>)
    ensures ParametersSatisfy(h, PrefixParameters(cs), ps) <==>
              |cs| <= |ps| && ParametersSatisfy(h, ExactParameters(cs), ps[..|cs|])
  {
  }

}
