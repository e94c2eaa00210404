/**
  Rule S2129: constructing a `String` or a boxed primitive with `new` is
  reported; so is `new BigInteger("...")` when the literal fits in a `long`
  (`BigInteger.valueOf` would do). A `BigInteger` built from anything else,
  from an out-of-range literal or from a literal that does not parse is left
  alone.
*/
module StringPrimitiveConstructor {
  import opened Wrappers
  import opened TypeHierarchy
  import opened Criteria
  import opened Matchers
  import opened MatcherTables
  import opened JavaExpressions

  const BIG_INTEGER := "java.math.BigInteger"

  /** `Long.MIN_VALUE` and `Long.MAX_VALUE`. */
  const LONG_MIN: int := -0x8000_0000_0000_0000
  const LONG_MAX: int := 0x7FFF_FFFF_FFFF_FFFF

  function ConstructorWith(owner: TypeName, parameter: TypeName): Group
  {
    Group(ExactType(owner), [CONSTRUCTOR_NAME], ExactParameters([ExactType(parameter)]))
  }

  /** The constructor table, in source order: exact owner type, name `<init>`, exact signature. */
  const CONSTRUCTOR_GROUPS: seq<Group> := [
    Group(ExactType(STRING_TYPE), [CONSTRUCTOR_NAME], NoParameters),
    ConstructorWith(STRING_TYPE, STRING_TYPE),
    ConstructorWith("java.lang.Byte", "byte"),
    ConstructorWith("java.lang.Character", "char"),
    ConstructorWith("java.lang.Short", "short"),
    ConstructorWith("java.lang.Integer", "int"),
    ConstructorWith("java.lang.Long", "long"),
    ConstructorWith("java.lang.Float", "float"),
    ConstructorWith("java.lang.Double", "double"),
    ConstructorWith("java.lang.Boolean", "boolean"),
    ConstructorWith(BIG_INTEGER, STRING_TYPE)
  ]

  const CONSTRUCTORS: MethodMatchers := Table(CONSTRUCTOR_GROUPS)

  /**
    The constructors the rule is about, as plain signatures (declaring type,
    parameter types): `String()`, `String(String)`, each box type with its
    primitive, `BigInteger(String)`.
  */
  const TARGET_SIGNATURES: seq<(JType, seq<JType>)> := [
    (Known(STRING_TYPE), []),
    (Known(STRING_TYPE), [Known(STRING_TYPE)]),
    (Known("java.lang.Byte"), [Known("byte")]),
    (Known("java.lang.Character"), [Known("char")]),
    (Known("java.lang.Short"), [Known("short")]),
    (Known("java.lang.Integer"), [Known("int")]),
    (Known("java.lang.Long"), [Known("long")]),
    (Known("java.lang.Float"), [Known("float")]),
    (Known("java.lang.Double"), [Known("double")]),
    (Known("java.lang.Boolean"), [Known("boolean")]),
    (Known(BIG_INTEGER), [Known(STRING_TYPE)])
  ]

  predicate IsTargetConstructor(s: Subject)
  {
    s.resolved && s.name == CONSTRUCTOR_NAME && (s.owner, s.parameters) in TARGET_SIGNATURES
  }

  lemma ConstructorWithAccepts(h: Hierarchy, owner: TypeName, parameter: TypeName, s: Subject)
    ensures InGroup(h, ConstructorWith(owner, parameter), s) <==>
              s.resolved && s.name == CONSTRUCTOR_NAME && s.owner == Known(owner) && s.parameters == [Known(parameter)]
  {
    if InGroup(h, ConstructorWith(owner, parameter), s) {
      assert TypeSatisfies(h, ExactType(parameter), s.parameters[0]);
    }
  }

  /** Entry `i` of the table accepts exactly signature `i`. */
  lemma GroupIsSignature(h: Hierarchy, i: nat, s: Subject)
    requires i < |CONSTRUCTOR_GROUPS|
    ensures |TARGET_SIGNATURES| == |CONSTRUCTOR_GROUPS|
    ensures InGroup(h, CONSTRUCTOR_GROUPS[i], s) <==>
              s.resolved && s.name == CONSTRUCTOR_NAME && (s.owner, s.parameters) == TARGET_SIGNATURES[i]
  {
    if i > 0 {
      var (owner, parameters) := TARGET_SIGNATURES[i];
      assert CONSTRUCTOR_GROUPS[i] == ConstructorWith(owner.qualifiedName, parameters[0].qualifiedName);
      ConstructorWithAccepts(h, owner.qualifiedName, parameters[0].qualifiedName, s);
    }
  }

  /** The table matches exactly the target constructors. */
  lemma ConstructorsAreTargets(h: Hierarchy, s: Subject)
    ensures Matches(h, CONSTRUCTORS, s) <==> IsTargetConstructor(s)
  {
    TableMatches(h, CONSTRUCTOR_GROUPS, s);
    forall i | 0 <= i < |CONSTRUCTOR_GROUPS|
      ensures InGroup(h, CONSTRUCTOR_GROUPS[i], s) <==>
                s.resolved && s.name == CONSTRUCTOR_NAME && (s.owner, s.parameters) == TARGET_SIGNATURES[i]
    {
      GroupIsSignature(h, i, s);
    }
    if IsTargetConstructor(s) {
      var i :| 0 <= i < |TARGET_SIGNATURES| && (s.owner, s.parameters) == TARGET_SIGNATURES[i];
      assert InGroup(h, CONSTRUCTOR_GROUPS[i], s);
    }
  }

  // ---------------------------------------------------------------------------
  // The `BigInteger(String)` grammar: an optional sign, then decimal digits

  predicate IsDigit(c: char)
  {
    '0' <= c <= '9'
  }

  predicate AllDigits(s: string)
  {
    forall i :: 0 <= i < |s| ==> IsDigit(s[i])
  }

  /** The value of a string of decimal digits, most significant first. */
  function DigitsValue(ds: string): nat
    requires AllDigits(ds)
  {
    if ds == [] then 0
    else DigitsValue(ds[..|ds| - 1]) * 10 + (ds[|ds| - 1] as int - '0' as int)
  }

  /**
    `new BigInteger(text)`: an optional `-` or `+` followed by one or more
    digits; anything else throws `NumberFormatException`, here `None`.
  */
  function ParseBigInteger(text: string): (r: Option<int>)
    ensures r.Some? <==>
              (AllDigits(text) && text != [])
              || (|text| >= 2 && (text[0] == '-' || text[0] == '+') && AllDigits(text[1..]))
  {
    if |text| > 0 && (text[0] == '-' || text[0] == '+') then
      var ds := text[1..];
      if ds == [] || !AllDigits(ds) then None
      else if text[0] == '-' then Some(-(DigitsValue(ds) as int))
      else Some(DigitsValue(ds))
    else if text == [] || !AllDigits(text) then None
    else Some(DigitsValue(text))
  }

  /** The decimal digits of `n`, without leading zeros. */
  function NatDigits(n: nat): (ds: string)
    ensures AllDigits(ds) && ds != []
  {
    var last := ('0' as int + n % 10) as char;
    if n < 10 then [last] else NatDigits(n / 10) + [last]
  }

  /** The canonical decimal text of an integer, as `BigInteger.toString()` writes it. */
  function Decimal(v: int): string
  {
    if v < 0 then "-" + NatDigits(-v) else NatDigits(v)
  }

  lemma {:induction false} NatDigitsValue(n: nat)
    ensures DigitsValue(NatDigits(n)) == n
  {
    if n >= 10 {
      var ds := NatDigits(n);
      assert ds[..|ds| - 1] == NatDigits(n / 10);
      NatDigitsValue(n / 10);
    }
  }

  /** Parsing gives back every integer from its decimal text. */
  lemma ParseDecimal(v: int)
    ensures ParseBigInteger(Decimal(v)) == Some(v)
  {
    if v < 0 {
      NatDigitsValue(-v);
      assert Decimal(v)[1..] == NatDigits(-v);
    } else {
      NatDigitsValue(v);
      assert Decimal(v)[0] != '-' && Decimal(v)[0] != '+';
    }
  }

  // ---------------------------------------------------------------------------
  // The decision

  /** A `new` expression: its constructor symbol, the type it creates and its arguments. */
  datatype NewClassTree = NewClassTree(symbol: Subject, symbolType: JType, arguments: seq<Expr>)

  /** `arguments().get(0)` on an empty argument list. */
  datatype RuntimeError = IndexOutOfBounds

  /** `Remove this "<type>" constructor`, naming the constructed type. */
  datatype Issue = RemoveConstructor(constructedType: JType)

  /** Whether a `BigInteger` creation is left alone; anything that is not a `BigInteger` is not. */
  function IsBigIntegerPotentiallyBiggerThanLong(t: NewClassTree): (r: Result<bool, RuntimeError>)
    ensures r.Failure? <==> Is(t.symbolType, BIG_INTEGER) && t.arguments == []
    ensures r == Success(false) <==>
              || !Is(t.symbolType, BIG_INTEGER)
              || (&& t.arguments != [] && t.arguments[0].StringLiteral?
                  && var v := ParseBigInteger(t.arguments[0].text);
                     v.Some? && LONG_MIN <= v.value <= LONG_MAX)
  {
    if !Is(t.symbolType, BIG_INTEGER) then Success(false)
    else if t.arguments == [] then Failure(IndexOutOfBounds)
    else match t.arguments[0]
      case StringLiteral(text) =>
        (match ParseBigInteger(text)
         case None => Success(true)
         case Some(v) => Success(v < LONG_MIN || v > LONG_MAX))
      case _ => Success(true)
  }

  /** What the rule does with a `new` expression the table matched. */
  function OnConstructorFound(t: NewClassTree): (r: Result<seq<Issue>, RuntimeError>)
    ensures r.Failure? <==> Is(t.symbolType, BIG_INTEGER) && t.arguments == []
    ensures r.Success? ==> r.value == [] || r.value == [RemoveConstructor(t.symbolType)]
    ensures r.Success? && r.value == [] ==> Is(t.symbolType, BIG_INTEGER)
  {
    match IsBigIntegerPotentiallyBiggerThanLong(t)
    case Failure(e) => Failure(e)
    case Success(leaveAlone) => Success(if leaveAlone then [] else [RemoveConstructor(t.symbolType)])
  }

  /** The rule on one `new` expression: only a matched constructor is handed on. */
  function Check(h: Hierarchy, t: NewClassTree): (r: Result<seq<Issue>, RuntimeError>)
    ensures r.Success? ==> |r.value| <= 1
    ensures r.Success? && r.value != [] ==> r.value == [RemoveConstructor(t.symbolType)]
  {
    if MatchesTree(h, CONSTRUCTORS, NewClass(t.symbol)) then OnConstructorFound(t) else Success([])
  }

  // ---------------------------------------------------------------------------
  // Properties of the decision

  /** Only a target constructor can be reported. */
  lemma OnlyTargetsReported(h: Hierarchy, t: NewClassTree)
    requires !IsTargetConstructor(t.symbol)
    ensures Check(h, t) == Success([])
  {
    ConstructorsAreTargets(h, t.symbol);
  }

  /** Every matched constructor of a type other than `BigInteger` is reported. */
  lemma NonBigIntegerReported(h: Hierarchy, t: NewClassTree)
    requires IsTargetConstructor(t.symbol) && !Is(t.symbolType, BIG_INTEGER)
    ensures Check(h, t) == Success([RemoveConstructor(t.symbolType)])
  {
    ConstructorsAreTargets(h, t.symbol);
  }

  /** A `BigInteger` built from something other than a string literal is left alone. */
  lemma NonLiteralBigIntegerNotReported(h: Hierarchy, t: NewClassTree)
    requires Is(t.symbolType, BIG_INTEGER) && t.arguments != [] && !t.arguments[0].StringLiteral?
    ensures Check(h, t) == Success([])
  {
  }

  /** A `BigInteger` literal that does not parse is left alone. */
  lemma UnparsableBigIntegerNotReported(h: Hierarchy, t: NewClassTree)
    requires Is(t.symbolType, BIG_INTEGER) && t.arguments != [] && t.arguments[0].StringLiteral?
    requires ParseBigInteger(t.arguments[0].text).None?
    ensures Check(h, t) == Success([])
  {
  }

  /** A matched `BigInteger` literal with value `v` is reported exactly when `v` fits in a `long`, bounds included. */
  lemma BigIntegerReportedIffLongRange(h: Hierarchy, t: NewClassTree, v: int)
    requires IsTargetConstructor(t.symbol) && Is(t.symbolType, BIG_INTEGER)
    requires t.arguments != [] && t.arguments[0].StringLiteral? && ParseBigInteger(t.arguments[0].text) == Some(v)
    ensures Check(h, t).Success?
    ensures Check(h, t).value != [] <==> LONG_MIN <= v <= LONG_MAX
  {
    ConstructorsAreTargets(h, t.symbol);
  }

  /** `new BigInteger("<v>")`, written the canonical way, is reported exactly for the values of a `long`. */
  lemma BigIntegerDecimalReportedIffLongRange(h: Hierarchy, sym: Subject, v: int)
    requires IsTargetConstructor(sym)
    ensures var t := NewClassTree(sym, Known(BIG_INTEGER), [StringLiteral(Decimal(v))]);
            Check(h, t).Success? && (Check(h, t).value != [] <==> LONG_MIN <= v <= LONG_MAX)
  {
    ParseDecimal(v);
    BigIntegerReportedIffLongRange(h, NewClassTree(sym, Known(BIG_INTEGER), [StringLiteral(Decimal(v))]), v);
  }

  /** When the arguments agree in number with the matched constructor, the rule never fails. */
  lemma WellFormedNeverFails(h: Hierarchy, t: NewClassTree)
    requires |t.arguments| == |t.symbol.parameters|
    requires t.symbol.owner == t.symbolType
    ensures Check(h, t).Success?
  {
    ConstructorsAreTargets(h, t.symbol);
  }
}
