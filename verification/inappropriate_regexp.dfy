/**
  Rule S2639: `String.replaceAll` and `String.replaceFirst` take a regular
  expression, so a first argument of `"."` (any character), `"|"` (the empty
  alternation) or `File.separator` (a backslash on Windows) almost never
  means what its author wanted.
*/
module InappropriateRegexp {
  import opened Wrappers
  import opened TypeHierarchy
  import opened Criteria
  import opened Matchers
  import opened JavaExpressions

  const REPLACE_ALL: MethodMatcher := MethodMatcher([ExactType(STRING_TYPE)], [Names({"replaceAll"})], [AnyParameters])
  const REPLACE_FIRST: MethodMatcher := MethodMatcher([ExactType(STRING_TYPE)], [Names({"replaceFirst"})], [AnyParameters])

  const REPLACE_MATCHERS: MethodMatchers := Or([Single(REPLACE_ALL), Single(REPLACE_FIRST)])

  // ---------------------------------------------------------------------------
  // The pattern the literal is compared with

  /** The regular-expression forms the rule's pattern is made of. */
  datatype Regex =
    /** An escaped metacharacter, matching that one character. */
    | Escaped(c: char)
    | Alternation(left: Regex, right: Regex)

  /** Whole-string matching, as `String.matches` does. */
  predicate FullMatch(r: Regex, s: string)
  {
    match r
    case Escaped(c) => s == [c]
    case Alternation(left, right) => FullMatch(left, s) || FullMatch(right, s)
  }

  /** The pattern `\.|\|`. */
  const INAPPROPRIATE_REGEXPS: Regex := Alternation(Escaped('.'), Escaped('|'))

  /** The pattern accepts exactly the one-character strings `.` and `|`. */
  lemma InappropriateRegexpsAccepts(s: string)
    ensures FullMatch(INAPPROPRIATE_REGEXPS, s) <==> s == "." || s == "|"
  {
  }

  // ---------------------------------------------------------------------------
  // The rule

  datatype InvocationTree = InvocationTree(select: Select, symbol: Subject, arguments: seq<Expr>)

  function Node(mit: InvocationTree): Node
  {
    Invocation(mit.select, mit.symbol)
  }

  /** Reading the first argument of a call that has none. */
  datatype RuntimeError = IndexOutOfBounds

  /** An issue on the offending first argument. */
  datatype Issue = CorrectRegularExpression(argument: Expr)

  /** A string literal whose text, quotes removed and escapes kept, matches the pattern. */
  function IsInappropriateRegexpStringLiteral(e: Expr): (r: bool)
    ensures r <==> e.StringLiteral? && (e.text == "." || e.text == "|")
  {
    match e
    case StringLiteral(text) => InappropriateRegexpsAccepts(text); FullMatch(INAPPROPRIATE_REGEXPS, text)
    case _ => false
  }

  /** `q.separator` where `q` has static type `java.io.File`. */
  function IsFileSeparator(e: Expr): (r: bool)
    ensures r ==> !IsInappropriateRegexpStringLiteral(e)
    ensures r <==> e.MemberSelect? && e.identifier == "separator" && e.qualifierType == Known("java.io.File")
  {
    e.MemberSelect? && e.identifier == "separator" && Is(e.qualifierType, "java.io.File")
  }

  /** What the rule does with a matched invocation: it reads the first argument, which must exist. */
  function OnMethodInvocationFound(mit: InvocationTree): (r: Result<seq<Issue>, RuntimeError>)
    ensures r.Failure? <==> mit.arguments == []
    ensures r.Success? ==> |r.value| <= 1
  {
    if mit.arguments == [] then Failure(IndexOutOfBounds)
    else
      var firstArg := mit.arguments[0];
      if IsInappropriateRegexpStringLiteral(firstArg) || IsFileSeparator(firstArg)
      then Success([CorrectRegularExpression(firstArg)])
      else Success([])
  }

  /** The rule on one invocation: only a matched invocation is handed on. */
  function Check(h: Hierarchy, mit: InvocationTree): (r: Result<seq<Issue>, RuntimeError>)
    ensures r.Success? ==> |r.value| <= 1
  {
    if MatchesTree(h, REPLACE_MATCHERS, Node(mit)) then OnMethodInvocationFound(mit) else Success([])
  }

  // ---------------------------------------------------------------------------
  // Properties

  /** The matchers, stated directly: `replaceAll` or `replaceFirst` declared by `String`, any parameters. */
  lemma MatchersAreStringReplace(h: Hierarchy, s: Subject)
    ensures Matches(h, REPLACE_MATCHERS, s) <==>
              s.resolved && s.owner == Known(STRING_TYPE) && s.name in {"replaceAll", "replaceFirst"}
  {
    var ms := [Single(REPLACE_ALL), Single(REPLACE_FIRST)];
    OrOfTwo(h, ms[0], ms[1], s);
    SingleCriteria(h, ExactType(STRING_TYPE), Names({"replaceAll"}), AnyParameters, s);
    SingleCriteria(h, ExactType(STRING_TYPE), Names({"replaceFirst"}), AnyParameters, s);
  }

  /** A matched call without arguments fails; no other call does. */
  lemma FailsIffMatchedWithoutArguments(h: Hierarchy, mit: InvocationTree)
    ensures Check(h, mit).Failure? <==> Matches(h, REPLACE_MATCHERS, TreeSubject(Node(mit))) && mit.arguments == []
  {
  }

  /** The whole decision: a matched call is reported exactly when its first argument is `"."`, `"|"` or `File.separator`. */
  lemma ReportedIff(h: Hierarchy, mit: InvocationTree)
    requires mit.arguments != []
    ensures Check(h, mit).Success?
    ensures Check(h, mit).value != [] <==>
              var s := TreeSubject(Node(mit));
              var a := mit.arguments[0];
              && s.resolved && s.owner == Known(STRING_TYPE) && s.name in {"replaceAll", "replaceFirst"}
              && (|| (a.StringLiteral? && (a.text == "." || a.text == "|"))
                  || (a.MemberSelect? && a.identifier == "separator" && a.qualifierType == Known("java.io.File")))
    ensures Check(h, mit).value != [] ==> Check(h, mit).value == [CorrectRegularExpression(mit.arguments[0])]
  {
    MatchersAreStringReplace(h, TreeSubject(Node(mit)));
    if mit.arguments[0].StringLiteral? {
      InappropriateRegexpsAccepts(mit.arguments[0].text);
    }
  }

  /** Only the first argument is read: the replacement and anything after it do not matter. */
  lemma OnlyFirstArgumentRead(h: Hierarchy, mit: InvocationTree, rest: seq<Expr>)
    requires mit.arguments != []
    ensures Check(h, mit) == Check(h, mit.(arguments := [mit.arguments[0]] + rest))
  {
  }
}
