/**
  Security hotspot S5304: reading the environment (`System.getenv`,
  `ProcessBuilder.environment()`) is reported, and so is `Runtime.exec` when
  it is given an environment of its own, that is, a second argument that is
  not the literal `null`.
*/
module EnvVariablesHotspot {
  import opened TypeHierarchy
  import opened Criteria
  import opened Matchers
  import opened JavaExpressions

  const RUNTIME_EXEC: MethodMatcher := MethodMatcher([ExactType("java.lang.Runtime")], [Names({"exec"})], [AnyParameters])
  const SYSTEM_GETENV: MethodMatcher := MethodMatcher([ExactType("java.lang.System")], [Names({"getenv"})], [AnyParameters])
  const PROCESS_ENVIRONMENT: MethodMatcher := MethodMatcher([ExactType("java.lang.ProcessBuilder")], [Names({"environment"})], [NoParameters])

  const ENV_MATCHERS: MethodMatchers := Or([Single(SYSTEM_GETENV), Single(PROCESS_ENVIRONMENT), Single(RUNTIME_EXEC)])

  /** An invocation tree with its argument expressions. */
  datatype InvocationTree = InvocationTree(select: Select, symbol: Subject, arguments: seq<Expr>)

  function Node(mit: InvocationTree): Node
  {
    Invocation(mit.select, mit.symbol)
  }

  datatype Issue = UseEnvironmentSafely

  /** `Runtime.exec` that keeps the current environment: fewer than two arguments, or `null` as the second. */
  function IsRuntimeExecWithoutSettingEnv(h: Hierarchy, mit: InvocationTree): (r: bool)
    ensures r <==> var s := TreeSubject(Node(mit));
                   && s.resolved && s.owner == Known("java.lang.Runtime") && s.name == "exec"
                   && (|mit.arguments| < 2 || mit.arguments[1].NullLiteral?)
  {
    SingleCriteriaOnTree(h, ExactType("java.lang.Runtime"), Names({"exec"}), AnyParameters, Node(mit));
    MatchesTree(h, Single(RUNTIME_EXEC), Node(mit))
    && (|mit.arguments| < 2 || mit.arguments[1].NullLiteral?)
  }

  /** What the rule does with an invocation the matchers accepted. */
  function OnMethodInvocationFound(h: Hierarchy, mit: InvocationTree): (issues: seq<Issue>)
    ensures |issues| <= 1
    ensures issues == [] ==> mit.symbol.name == "exec" && (|mit.arguments| < 2 || mit.arguments[1].NullLiteral?)
  {
    if !IsRuntimeExecWithoutSettingEnv(h, mit) then [UseEnvironmentSafely] else []
  }

  /** The rule on one invocation: only a matched invocation is handed on. */
  function Check(h: Hierarchy, mit: InvocationTree): (issues: seq<Issue>)
    ensures |issues| <= 1
  {
    if MatchesTree(h, ENV_MATCHERS, Node(mit)) then OnMethodInvocationFound(h, mit) else []
  }

  // ---------------------------------------------------------------------------
  // Properties

  /** The three matchers, stated directly: exact owner, name, and `environment` only without arguments. */
  lemma MatchersAreEnvironmentAccess(h: Hierarchy, s: Subject)
    ensures Matches(h, ENV_MATCHERS, s) <==>
              && s.resolved
              && (|| (s.owner == Known("java.lang.System") && s.name == "getenv")
                  || (s.owner == Known("java.lang.ProcessBuilder") && s.name == "environment" && s.parameters == [])
                  || (s.owner == Known("java.lang.Runtime") && s.name == "exec"))
  {
    OrIsUnion(h, [Single(SYSTEM_GETENV), Single(PROCESS_ENVIRONMENT), Single(RUNTIME_EXEC)], s);
    var ms := [Single(SYSTEM_GETENV), Single(PROCESS_ENVIRONMENT), Single(RUNTIME_EXEC)];
    assert ms[0] == Single(SYSTEM_GETENV) && ms[1] == Single(PROCESS_ENVIRONMENT) && ms[2] == Single(RUNTIME_EXEC);
    SingleCriteria(h, ExactType("java.lang.System"), Names({"getenv"}), AnyParameters, s);
    SingleCriteria(h, ExactType("java.lang.ProcessBuilder"), Names({"environment"}), NoParameters, s);
    SingleCriteria(h, ExactType("java.lang.Runtime"), Names({"exec"}), AnyParameters, s);
  }

  /** A matched `getenv` or `environment()` is always reported. */
  lemma EnvironmentReadsReported(h: Hierarchy, mit: InvocationTree)
    requires TreeSubject(Node(mit)).resolved
    requires || (TreeSubject(Node(mit)).owner == Known("java.lang.System") && mit.symbol.name == "getenv")
             || (TreeSubject(Node(mit)).owner == Known("java.lang.ProcessBuilder") && mit.symbol.name == "environment"
                 && mit.symbol.parameters == [])
    ensures Check(h, mit) == [UseEnvironmentSafely]
  {
    MatchersAreEnvironmentAccess(h, TreeSubject(Node(mit)));
    SingleCriteriaOnTree(h, ExactType("java.lang.Runtime"), Names({"exec"}), AnyParameters, Node(mit));
  }

  /** `Runtime.exec` is reported exactly when it passes a second argument other than `null`. */
  lemma ExecReportedIffEnvironmentGiven(h: Hierarchy, mit: InvocationTree)
    requires TreeSubject(Node(mit)).resolved
    requires TreeSubject(Node(mit)).owner == Known("java.lang.Runtime") && mit.symbol.name == "exec"
    ensures Check(h, mit) != [] <==> |mit.arguments| >= 2 && !mit.arguments[1].NullLiteral?
  {
    MatchersAreEnvironmentAccess(h, TreeSubject(Node(mit)));
    SingleCriteriaOnTree(h, ExactType("java.lang.Runtime"), Names({"exec"}), AnyParameters, Node(mit));
  }

  /** The whole decision: an environment read, or an `exec` that passes an environment of its own. */
  lemma ReportedIff(h: Hierarchy, mit: InvocationTree)
    ensures Check(h, mit) != [] <==>
              var s := TreeSubject(Node(mit));
              && s.resolved
              && (|| (s.owner == Known("java.lang.System") && s.name == "getenv")
                  || (s.owner == Known("java.lang.ProcessBuilder") && s.name == "environment" && s.parameters == [])
                  || (s.owner == Known("java.lang.Runtime") && s.name == "exec"
                      && |mit.arguments| >= 2 && !mit.arguments[1].NullLiteral?))
  {
    MatchersAreEnvironmentAccess(h, TreeSubject(Node(mit)));
    SingleCriteriaOnTree(h, ExactType("java.lang.Runtime"), Names({"exec"}), AnyParameters, Node(mit));
  }

  /** Nothing the matchers reject is reported. */
  lemma UnmatchedNotReported(h: Hierarchy, mit: InvocationTree)
    requires !Matches(h, ENV_MATCHERS, TreeSubject(Node(mit)))
    ensures Check(h, mit) == []
  {
  }
}
