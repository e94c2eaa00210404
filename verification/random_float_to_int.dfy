/**
  Rule S2140: a random `double` or `float` cast to `int` is almost always 0;
  `nextInt()` says what is meant. Every cast to `int` has its operand scanned
  for calls to `Math.random()` and to the `nextDouble`/`nextFloat` methods of
  the usual random generators, each reported once; the body of an anonymous
  class inside the operand is not scanned.
*/
module RandomFloatToInt {
  import opened TypeHierarchy
  import opened Criteria
  import opened Matchers
  import opened MatcherTables

  const NEXT_FLOAT := "nextFloat"
  const NEXT_DOUBLE := "nextDouble"
  const JAVA_UTIL_RANDOM := "java.util.Random"
  const THREAD_LOCAL_RANDOM := "java.util.concurrent.ThreadLocalRandom"
  const JVM_RANDOM := "org.apache.commons.lang.math.JVMRandom"
  const LANG_RANDOM_UTILS := "org.apache.commons.lang.math.RandomUtils"
  const LANG3_RANDOM_UTILS := "org.apache.commons.lang3.RandomUtils"

  const MATH_RANDOM: MethodMatcher := MethodMatcher([ExactType("java.lang.Math")], [Names({"random"})], [NoParameters])

  /** The generator table, entry by entry in source order. */
  const GENERATOR_GROUPS: seq<Group> := [
    Group(ExactType(JAVA_UTIL_RANDOM), [NEXT_DOUBLE], NoParameters),
    Group(ExactType(JAVA_UTIL_RANDOM), [NEXT_FLOAT], NoParameters),
    Group(ExactType(THREAD_LOCAL_RANDOM), [NEXT_DOUBLE], AnyParameters),
    Group(ExactType(JVM_RANDOM), [NEXT_DOUBLE], NoParameters),
    Group(ExactType(JVM_RANDOM), [NEXT_FLOAT], NoParameters),
    Group(ExactType(LANG_RANDOM_UTILS), [NEXT_DOUBLE], NoParameters),
    Group(ExactType(LANG_RANDOM_UTILS), [NEXT_FLOAT], NoParameters),
    Group(ExactType(LANG3_RANDOM_UTILS), [NEXT_DOUBLE], NoParameters),
    Group(ExactType(LANG3_RANDOM_UTILS), [NEXT_FLOAT], NoParameters)
  ]

  const GENERATORS: MethodMatchers := Table(GENERATOR_GROUPS)

  /**
    The generator calls, stated directly: `nextDouble()` or `nextFloat()`
    without arguments on `Random`, `JVMRandom` and both `RandomUtils`, and
    `ThreadLocalRandom.nextDouble` with any arguments.
  */
  predicate IsFloatingGenerator(s: Subject)
  {
    && s.resolved
    && (|| (s.owner in [Known(JAVA_UTIL_RANDOM), Known(JVM_RANDOM), Known(LANG_RANDOM_UTILS), Known(LANG3_RANDOM_UTILS)]
            && s.name in [NEXT_DOUBLE, NEXT_FLOAT] && s.parameters == [])
        || (s.owner == Known(THREAD_LOCAL_RANDOM) && s.name == NEXT_DOUBLE))
  }

  lemma GeneratorsAreFloatingGenerators(h: Hierarchy, s: Subject)
    ensures Matches(h, GENERATORS, s) <==> IsFloatingGenerator(s)
  {
    TableMatches(h, GENERATOR_GROUPS, s);
    if IsFloatingGenerator(s) {
      FloatingGeneratorInTable(h, s);
    }
    if i :| 0 <= i < |GENERATOR_GROUPS| && InGroup(h, GENERATOR_GROUPS[i], s) {
      GroupIsFloatingGenerator(h, i, s);
    }
  }

  lemma FloatingGeneratorInTable(h: Hierarchy, s: Subject)
    requires IsFloatingGenerator(s)
    ensures exists i :: 0 <= i < |GENERATOR_GROUPS| && InGroup(h, GENERATOR_GROUPS[i], s)
  {
    var gs := GENERATOR_GROUPS;
    if s.owner == Known(THREAD_LOCAL_RANDOM) && s.name == NEXT_DOUBLE {
      assert InGroup(h, gs[2], s);
    } else {
      var k := if s.owner == Known(JAVA_UTIL_RANDOM) then 0
               else if s.owner == Known(JVM_RANDOM) then 3
               else if s.owner == Known(LANG_RANDOM_UTILS) then 5
               else 7;
      var i := if s.name == NEXT_DOUBLE then k else k + 1;
      assert InGroup(h, gs[i], s);
    }
  }

  lemma GroupIsFloatingGenerator(h: Hierarchy, i: int, s: Subject)
    requires 0 <= i < |GENERATOR_GROUPS| && InGroup(h, GENERATOR_GROUPS[i], s)
    ensures IsFloatingGenerator(s)
  {
  }

  // ---------------------------------------------------------------------------
  // The expressions under a cast

  /**
    The parts of an expression the scan can reach. An invocation lists every
    sub-tree the default visit descends into (method select, type arguments,
    arguments); a `new` expression keeps its enclosing expression,
    identifier, type arguments and arguments apart from its class body.
  */
  datatype Expression =
    | MethodInvocation(select: Select, symbol: Subject, children: seq<Expression>)
    | NewClassExpression(scanned: seq<Expression>, classBody: seq<Expression>)
    | OtherExpression(children: seq<Expression>)

  datatype Message = UseRandomNextInt | UseNextInt

  /** An issue on the method select of an invocation. */
  datatype Issue = Issue(at: Node, message: Message)

  /** What one invocation raises: `Math.random()` first, the generators otherwise, never both. */
  function InvocationIssues(h: Hierarchy, select: Select, symbol: Subject): (r: seq<Issue>)
    ensures |r| <= 1
    ensures r != [] ==> symbol.resolved && r[0].at == Invocation(select, symbol)
    ensures r != [] && r[0].message == UseNextInt ==> IsFloatingGenerator(TreeSubject(Invocation(select, symbol)))
  {
    var n := Invocation(select, symbol);
    GeneratorsAreFloatingGenerators(h, TreeSubject(n));
    if MatchesTree(h, Single(MATH_RANDOM), n) then [Issue(n, UseRandomNextInt)]
    else if MatchesTree(h, GENERATORS, n) then [Issue(n, UseNextInt)]
    else []
  }

  /** The visitor's walk: an invocation is judged before its sub-trees are visited. */
  function Scan(h: Hierarchy, e: Expression): (r: seq<Issue>)
    ensures forall i :: 0 <= i < |r| ==> r[i].at.Invocation? && r[i].at.symbol.resolved
    decreases e
  {
    match e
    case MethodInvocation(select, symbol, children) => InvocationIssues(h, select, symbol) + ScanAll(h, children)
    case NewClassExpression(scanned, _) => ScanAll(h, scanned)
    case OtherExpression(children) => ScanAll(h, children)
  }

  function ScanAll(h: Hierarchy, es: seq<Expression>): (r: seq<Issue>)
    ensures forall i :: 0 <= i < |r| ==> r[i].at.Invocation? && r[i].at.symbol.resolved
    decreases es
  {
    if es == [] then [] else Scan(h, es[0]) + ScanAll(h, es[1..])
  }

  datatype TypeCast = TypeCast(target: JType, expression: Expression)

  /** The rule on one cast: only a cast to `int` has its operand scanned. */
  function VisitNode(h: Hierarchy, c: TypeCast): (r: seq<Issue>)
    ensures r != [] ==> c.target == Known("int")
    ensures forall i :: 0 <= i < |r| ==> r[i].at.Invocation? && r[i].at.symbol.resolved
  {
    if Is(c.target, "int") then Scan(h, c.expression) else []
  }

  // ---------------------------------------------------------------------------
  // Reference definition: the invocations the walk reaches, in visiting order

  datatype Reached = Reached(select: Select, symbol: Subject)

  ghost function Reachable(e: Expression): seq<Reached>
    decreases e
  {
    match e
    case MethodInvocation(select, symbol, children) => [Reached(select, symbol)] + ReachableAll(children)
    case NewClassExpression(scanned, _) => ReachableAll(scanned)
    case OtherExpression(children) => ReachableAll(children)
  }

  ghost function ReachableAll(es: seq<Expression>): seq<Reached>
    decreases es
  {
    if es == [] then [] else Reachable(es[0]) + ReachableAll(es[1..])
  }

  /** The lists `f` gives for each element, joined in order. */
  ghost function ConcatMap<T, U>(f: T -> seq<U>, xs: seq<T>): seq<U>
  {
    if xs == [] then [] else f(xs[0]) + ConcatMap(f, xs[1..])
  }

  lemma {:induction false} ConcatMapAppend<T, U>(f: T -> seq<U>, a: seq<T>, b: seq<T>)
    ensures ConcatMap(f, a + b) == ConcatMap(f, a) + ConcatMap(f, b)
  {
    if a == [] {
      assert a + b == b;
    } else {
      assert (a + b)[0] == a[0] && (a + b)[1..] == a[1..] + b;
      ConcatMapAppend(f, a[1..], b);
    }
  }

  /** The issues of a list of reached invocations, each judged on its own. */
  ghost function IssuesOf(h: Hierarchy, rs: seq<Reached>): seq<Issue>
  {
    ConcatMap((r: Reached) => InvocationIssues(h, r.select, r.symbol), rs)
  }

  lemma IssuesOfAppend(h: Hierarchy, a: seq<Reached>, b: seq<Reached>)
    ensures IssuesOf(h, a + b) == IssuesOf(h, a) + IssuesOf(h, b)
  {
    ConcatMapAppend((r: Reached) => InvocationIssues(h, r.select, r.symbol), a, b);
  }

  /** The walk judges every reachable invocation once, in visiting order, and nothing else. */
  lemma {:induction false} ScanJudgesReachable(h: Hierarchy, e: Expression)
    ensures Scan(h, e) == IssuesOf(h, Reachable(e))
    decreases e
  {
    match e
    case MethodInvocation(select, symbol, children) =>
      ScanAllJudgesReachable(h, children);
      IssuesOfAppend(h, [Reached(select, symbol)], ReachableAll(children));
    case NewClassExpression(scanned, _) =>
      ScanAllJudgesReachable(h, scanned);
    case OtherExpression(children) =>
      ScanAllJudgesReachable(h, children);
  }

  lemma {:induction false} ScanAllJudgesReachable(h: Hierarchy, es: seq<Expression>)
    ensures ScanAll(h, es) == IssuesOf(h, ReachableAll(es))
    decreases es
  {
    if es != [] {
      ScanJudgesReachable(h, es[0]);
      ScanAllJudgesReachable(h, es[1..]);
      IssuesOfAppend(h, Reachable(es[0]), ReachableAll(es[1..]));
    }
  }

  // ---------------------------------------------------------------------------
  // Properties

  /** `Math.random()` takes priority; a generator call gets the other message; nothing else is reported. */
  lemma InvocationVerdict(h: Hierarchy, select: Select, symbol: Subject)
    ensures var n := Invocation(select, symbol);
            && (Matches(h, Single(MATH_RANDOM), TreeSubject(n)) ==> InvocationIssues(h, select, symbol) == [Issue(n, UseRandomNextInt)])
            && (!Matches(h, Single(MATH_RANDOM), TreeSubject(n)) && IsFloatingGenerator(TreeSubject(n))
                ==> InvocationIssues(h, select, symbol) == [Issue(n, UseNextInt)])
            && (!Matches(h, Single(MATH_RANDOM), TreeSubject(n)) && !IsFloatingGenerator(TreeSubject(n))
                ==> InvocationIssues(h, select, symbol) == [])
  {
    GeneratorsAreFloatingGenerators(h, TreeSubject(Invocation(select, symbol)));
  }

  /** `Math.random()` with no arguments is what the first matcher accepts. */
  lemma MathRandomMatcher(h: Hierarchy, s: Subject)
    ensures Matches(h, Single(MATH_RANDOM), s) <==>
              s.resolved && s.owner == Known("java.lang.Math") && s.name == "random" && s.parameters == []
  {
    SingleCriteria(h, MATH_RANDOM.types[0], MATH_RANDOM.names[0], MATH_RANDOM.parameters[0], s);
  }

  /** At most one issue per reachable invocation. */
  lemma {:induction false} AtMostOnePerInvocation(h: Hierarchy, rs: seq<Reached>)
    ensures |IssuesOf(h, rs)| <= |rs|
  {
    if rs != [] {
      AtMostOnePerInvocation(h, rs[1..]);
    }
  }

  /** The class body of a `new` expression is never looked at. */
  lemma ClassBodyIgnored(h: Hierarchy, scanned: seq<Expression>, body1: seq<Expression>, body2: seq<Expression>)
    ensures Scan(h, NewClassExpression(scanned, body1)) == Scan(h, NewClassExpression(scanned, body2))
    ensures Reachable(NewClassExpression(scanned, body1)) == ReachableAll(scanned)
  {
  }

  /** Invocations nested in the arguments or receiver of a call, matched or not, are reached too. */
  lemma {:induction false} NestedInvocationsReached(e: Expression, r: Reached)
    requires e.MethodInvocation? || e.OtherExpression?
    requires exists i :: 0 <= i < |e.children| && r in Reachable(e.children[i])
    ensures r in Reachable(e)
  {
    var i :| 0 <= i < |e.children| && r in Reachable(e.children[i]);
    InReachableAll(e.children, i, r);
  }

  lemma {:induction false} InReachableAll(es: seq<Expression>, i: nat, r: Reached)
    requires i < |es| && r in Reachable(es[i])
    ensures r in ReachableAll(es)
  {
    if i > 0 {
      InReachableAll(es[1..], i - 1, r);
    }
  }

  /** A cast to any type other than `int` raises nothing. */
  lemma OnlyIntCasts(h: Hierarchy, c: TypeCast)
    requires c.target != Known("int")
    ensures VisitNode(h, c) == []
  {
  }

  /** On a cast to `int`, the issues are those of the reachable invocations, at most one each. */
  lemma IntCastIssues(h: Hierarchy, c: TypeCast)
    requires c.target == Known("int")
    ensures VisitNode(h, c) == IssuesOf(h, Reachable(c.expression))
    ensures |VisitNode(h, c)| <= |Reachable(c.expression)|
  {
    ScanJudgesReachable(h, c.expression);
    AtMostOnePerInvocation(h, Reachable(c.expression));
  }
}
