/**
  Rule S2077: a call that sends a query string to a SQL, JPA, JDO or Spring
  JDBC API is reported when that string is built dynamically. The first
  argument of type `java.lang.String` is the query; it is dynamic when it is
  a non-constant concatenation, or a variable one of whose assignments is.
*/
module SqlInjection {
  import opened Wrappers
  import opened TypeHierarchy
  import opened Criteria
  import opened Matchers
  import opened MatcherTables
  import opened JavaExpressions

  const HIBERNATE_SESSION := "org.hibernate.Session"
  const JAVA_SQL_STATEMENT := "java.sql.Statement"
  const JAVA_SQL_CONNECTION := "java.sql.Connection"
  const ENTITY_MANAGER := "javax.persistence.EntityManager"
  const SPRING_JDBC_OPERATIONS := "org.springframework.jdbc.core.JdbcOperations"
  const STATEMENT_CREATOR_FACTORY := "org.springframework.jdbc.core.PreparedStatementCreatorFactory"
  const PERSISTENCE_MANAGER := "javax.jdo.PersistenceManager"
  const JDO_QUERY := "javax.jdo.Query"

  const SESSION_METHODS := ["createQuery", "createSQLQuery"]
  const STATEMENT_METHODS := ["executeQuery", "execute", "executeUpdate", "executeLargeUpdate", "addBatch"]
  const CONNECTION_METHODS := ["prepareStatement", "prepareCall", "nativeSQL"]
  const ENTITY_MANAGER_METHODS := ["createNativeQuery", "createQuery"]
  const JDBC_OPERATIONS_METHODS := ["batchUpdate", "execute", "query", "queryForList", "queryForMap", "queryForObject",
                                    "queryForRowSet", "queryForInt", "queryForLong", "update"]
  const STATEMENT_CREATOR_FACTORY_METHODS := [CONSTRUCTOR_NAME, "newPreparedStatementCreator"]
  const PERSISTENCE_MANAGER_METHODS := ["newQuery"]
  const JDO_QUERY_METHODS := ["setFilter", "setGrouping"]

  /** The suspect table, group by group in source order; every entry accepts any parameters. */
  const SUSPECT_GROUPS: seq<Group> := [
    Group(SubtypeOf(HIBERNATE_SESSION), SESSION_METHODS, AnyParameters),
    Group(SubtypeOf(JAVA_SQL_STATEMENT), STATEMENT_METHODS, AnyParameters),
    Group(SubtypeOf(JAVA_SQL_CONNECTION), CONNECTION_METHODS, AnyParameters),
    Group(ExactType(ENTITY_MANAGER), ENTITY_MANAGER_METHODS, AnyParameters),
    Group(SubtypeOf(SPRING_JDBC_OPERATIONS), JDBC_OPERATIONS_METHODS, AnyParameters),
    Group(ExactType(STATEMENT_CREATOR_FACTORY), STATEMENT_CREATOR_FACTORY_METHODS, AnyParameters),
    Group(SubtypeOf(PERSISTENCE_MANAGER), PERSISTENCE_MANAGER_METHODS, AnyParameters),
    Group(SubtypeOf(JDO_QUERY), JDO_QUERY_METHODS, AnyParameters)
  ]

  const SQL_INJECTION_SUSPECTS: MethodMatchers := Table(SUSPECT_GROUPS)

  /**
    The methods that take a query, stated directly: subtypes of the Hibernate
    session, JDBC statement and connection, Spring's `JdbcOperations` and the
    JDO persistence manager and query; exactly `EntityManager` and
    `PreparedStatementCreatorFactory`, whose constructor counts.
  */
  predicate IsQuerySink(h: Hierarchy, s: Subject)
  {
    && s.resolved
    && s.owner.Known?
    && var t, n := s.owner.qualifiedName, s.name;
       || (IsSubtypeOf(h, t, HIBERNATE_SESSION) && n in SESSION_METHODS)
       || (IsSubtypeOf(h, t, JAVA_SQL_STATEMENT) && n in STATEMENT_METHODS)
       || (IsSubtypeOf(h, t, JAVA_SQL_CONNECTION) && n in CONNECTION_METHODS)
       || (t == ENTITY_MANAGER && n in ENTITY_MANAGER_METHODS)
       || (IsSubtypeOf(h, t, SPRING_JDBC_OPERATIONS) && n in JDBC_OPERATIONS_METHODS)
       || (t == STATEMENT_CREATOR_FACTORY && n in STATEMENT_CREATOR_FACTORY_METHODS)
       || (IsSubtypeOf(h, t, PERSISTENCE_MANAGER) && n in PERSISTENCE_MANAGER_METHODS)
       || (IsSubtypeOf(h, t, JDO_QUERY) && n in JDO_QUERY_METHODS)
  }

  /** The table accepts exactly the query sinks. */
  lemma SuspectsAreQuerySinks(h: Hierarchy, s: Subject)
    ensures Matches(h, SQL_INJECTION_SUSPECTS, s) <==> IsQuerySink(h, s)
  {
    TableMatches(h, SUSPECT_GROUPS, s);
    if IsQuerySink(h, s) {
      QuerySinkInTable(h, s);
    }
    if Matches(h, SQL_INJECTION_SUSPECTS, s) {
      TableHoldsQuerySinks(h, s);
    }
  }

  lemma QuerySinkInTable(h: Hierarchy, s: Subject)
    requires IsQuerySink(h, s)
    ensures exists i :: 0 <= i < |SUSPECT_GROUPS| && InGroup(h, SUSPECT_GROUPS[i], s)
  {
    var t, n := s.owner.qualifiedName, s.name;
    if IsSubtypeOf(h, t, HIBERNATE_SESSION) && n in SESSION_METHODS {
      InSessionGroup(h, s);
    } else if IsSubtypeOf(h, t, JAVA_SQL_STATEMENT) && n in STATEMENT_METHODS {
      InStatementGroup(h, s);
    } else if IsSubtypeOf(h, t, JAVA_SQL_CONNECTION) && n in CONNECTION_METHODS {
      InConnectionGroup(h, s);
    } else if t == ENTITY_MANAGER && n in ENTITY_MANAGER_METHODS {
      InEntityManagerGroup(h, s);
    } else if IsSubtypeOf(h, t, SPRING_JDBC_OPERATIONS) && n in JDBC_OPERATIONS_METHODS {
      InJdbcOperationsGroup(h, s);
    } else if t == STATEMENT_CREATOR_FACTORY && n in STATEMENT_CREATOR_FACTORY_METHODS {
      InStatementCreatorFactoryGroup(h, s);
    } else if IsSubtypeOf(h, t, PERSISTENCE_MANAGER) && n in PERSISTENCE_MANAGER_METHODS {
      InPersistenceManagerGroup(h, s);
    } else {
      InJdoQueryGroup(h, s);
    }
  }

  lemma InSessionGroup(h: Hierarchy, s: Subject)
    requires s.resolved && s.owner.Known? && IsSubtypeOf(h, s.owner.qualifiedName, HIBERNATE_SESSION) && s.name in SESSION_METHODS
    ensures InGroup(h, SUSPECT_GROUPS[0], s)
  {
  }

  lemma InStatementGroup(h: Hierarchy, s: Subject)
    requires s.resolved && s.owner.Known? && IsSubtypeOf(h, s.owner.qualifiedName, JAVA_SQL_STATEMENT) && s.name in STATEMENT_METHODS
    ensures InGroup(h, SUSPECT_GROUPS[1], s)
  {
  }

  lemma InConnectionGroup(h: Hierarchy, s: Subject)
    requires s.resolved && s.owner.Known? && IsSubtypeOf(h, s.owner.qualifiedName, JAVA_SQL_CONNECTION) && s.name in CONNECTION_METHODS
    ensures InGroup(h, SUSPECT_GROUPS[2], s)
  {
  }

  lemma InEntityManagerGroup(h: Hierarchy, s: Subject)
    requires s.resolved && s.owner.Known? && s.owner.qualifiedName == ENTITY_MANAGER && s.name in ENTITY_MANAGER_METHODS
    ensures InGroup(h, SUSPECT_GROUPS[3], s)
  {
  }

  lemma InJdbcOperationsGroup(h: Hierarchy, s: Subject)
    requires s.resolved && s.owner.Known? && IsSubtypeOf(h, s.owner.qualifiedName, SPRING_JDBC_OPERATIONS) && s.name in JDBC_OPERATIONS_METHODS
    ensures InGroup(h, SUSPECT_GROUPS[4], s)
  {
  }

  lemma InStatementCreatorFactoryGroup(h: Hierarchy, s: Subject)
    requires s.resolved && s.owner.Known? && s.owner.qualifiedName == STATEMENT_CREATOR_FACTORY && s.name in STATEMENT_CREATOR_FACTORY_METHODS
    ensures InGroup(h, SUSPECT_GROUPS[5], s)
  {
  }

  lemma InPersistenceManagerGroup(h: Hierarchy, s: Subject)
    requires s.resolved && s.owner.Known? && IsSubtypeOf(h, s.owner.qualifiedName, PERSISTENCE_MANAGER) && s.name in PERSISTENCE_MANAGER_METHODS
    ensures InGroup(h, SUSPECT_GROUPS[6], s)
  {
  }

  lemma InJdoQueryGroup(h: Hierarchy, s: Subject)
    requires s.resolved && s.owner.Known? && IsSubtypeOf(h, s.owner.qualifiedName, JDO_QUERY) && s.name in JDO_QUERY_METHODS
    ensures InGroup(h, SUSPECT_GROUPS[7], s)
  {
  }

  lemma TableHoldsQuerySinks(h: Hierarchy, s: Subject)
    requires exists i :: 0 <= i < |SUSPECT_GROUPS| && InGroup(h, SUSPECT_GROUPS[i], s)
    ensures IsQuerySink(h, s)
  {
    var gs := SUSPECT_GROUPS;
    var i :| 0 <= i < |gs| && InGroup(h, gs[i], s);
    if i == 0 {
    } else if i == 1 {
    } else if i == 2 {
    } else if i == 3 {
    } else if i == 4 {
    } else if i == 5 {
    } else if i == 6 {
    } else {
    }
  }

  // ---------------------------------------------------------------------------
  // The decision

  /** Only invocations and `new` expressions with at least one argument are asked about. */
  function AnyMatch(h: Hierarchy, c: Call): (r: bool)
    ensures r <==> (c.node.Invocation? || c.node.NewClass?) && c.args != [] && IsQuerySink(h, TreeSubject(c.node))
  {
    SuspectsAreQuerySinks(h, TreeSubject(c.node));
    if Arguments(c) == [] then false
    else if c.node.NewClass? then MatchesTree(h, SQL_INJECTION_SUSPECTS, c.node)
    else if c.node.Invocation? then MatchesTree(h, SQL_INJECTION_SUSPECTS, c.node)
    else false
  }

  predicate IsString(a: Arg)
  {
    Is(a.ty, STRING_TYPE)
  }

  /** The position of the first argument whose static type is `java.lang.String`, if any. */
  function FirstStringArgument(args: seq<Arg>): (r: Option<nat>)
    ensures r.Some? ==> r.value < |args| && IsString(args[r.value])
                        && forall j :: 0 <= j < r.value ==> !IsString(args[j])
    ensures r.None? ==> forall j :: 0 <= j < |args| ==> !IsString(args[j])
  {
    if args == [] then None
    else if IsString(args[0]) then Some(0)
    else match FirstStringArgument(args[1..])
      case None => None
      case Some(i) => Some(i + 1)
  }

  /**
    Whether a query string is built at run time: a `+=` whose right-hand side
    is not constant, a `+` that is not constant, or a variable whose
    initializer is dynamic or that some reassignment judges dynamic. As a
    reassignment is the assignment expression itself, only a `+=` with a
    non-constant right-hand side can do so. Nothing else is dynamic.
  */
  function IsDynamicString(e: Expr): (r: bool)
    ensures IsRuntimeConcatenation(e) ==> r
    ensures r ==> e.Identifier? || IsRuntimeConcatenation(e)
  {
    match e
    case PlusAssignment(rhsConstant) => !rhsConstant
    case Identifier(_, init, reassignments) =>
      (init.Some? && IsDynamicString(init.value))
      || exists i :: 0 <= i < |reassignments| && IsDynamicString(reassignments[i])
    case Plus(constant) => !constant
    case _ => false
  }

  datatype Issue = EnsureConcatenationIsSafe(argument: nat)

  /** The issues raised on one visited tree: at most one, on the first String argument. */
  function VisitNode(h: Hierarchy, c: Call): (issues: seq<Issue>)
    ensures |issues| <= 1
    ensures issues != [] ==> issues[0].argument < |Arguments(c)|
  {
    if AnyMatch(h, c) then
      match FirstStringArgument(Arguments(c))
      case Some(i) => if IsDynamicString(Arguments(c)[i].expr) then [EnsureConcatenationIsSafe(i)] else []
      case None => []
    else []
  }

  // ---------------------------------------------------------------------------
  // Reference definition of a dynamic string: the definitions it reaches

  /**
    The expressions a string may have come from: `e` itself, and through an
    identifier, what its initializer and its reassignments may have come from.
  */
  ghost predicate MayComeFrom(e: Expr, d: Expr)
  {
    e == d
    || (e.Identifier? &&
        ((e.initializer.Some? && MayComeFrom(e.initializer.value, d))
         || exists i :: 0 <= i < |e.reassignments| && MayComeFrom(e.reassignments[i], d)))
  }

  /** A concatenation whose value is only known at run time. */
  predicate IsRuntimeConcatenation(d: Expr)
  {
    (d.Plus? && !d.constant) || (d.PlusAssignment? && !d.rhsConstant)
  }

  /** A string is dynamic exactly when some expression it may have come from is a run-time concatenation. */
  lemma {:induction false} DynamicIffRuntimeConcatenation(e: Expr)
    ensures IsDynamicString(e) <==> exists d :: MayComeFrom(e, d) && IsRuntimeConcatenation(d)
  {
    match e
    case Identifier(_, init, rs) =>
      if IsDynamicString(e) {
        if init.Some? && IsDynamicString(init.value) {
          DynamicIffRuntimeConcatenation(init.value);
          var d :| MayComeFrom(init.value, d) && IsRuntimeConcatenation(d);
          assert MayComeFrom(e, d);
        } else {
          var i :| 0 <= i < |rs| && IsDynamicString(rs[i]);
          DynamicIffRuntimeConcatenation(rs[i]);
          var d :| MayComeFrom(rs[i], d) && IsRuntimeConcatenation(d);
          assert MayComeFrom(e, d);
        }
      }
      if exists d :: MayComeFrom(e, d) && IsRuntimeConcatenation(d) {
        var d :| MayComeFrom(e, d) && IsRuntimeConcatenation(d);
        assert e != d;
        if init.Some? && MayComeFrom(init.value, d) {
          DynamicIffRuntimeConcatenation(init.value);
        } else {
          var i :| 0 <= i < |rs| && MayComeFrom(rs[i], d);
          DynamicIffRuntimeConcatenation(rs[i]);
        }
      }
    case Plus(_) =>
      if IsDynamicString(e) {
        assert MayComeFrom(e, e);
      }
    case PlusAssignment(_) =>
      if IsDynamicString(e) {
        assert MayComeFrom(e, e);
      }
    case _ =>
  }

  /**
    Through its reassignments a variable becomes dynamic only by a `+=` with a
    non-constant right-hand side: a plain `q = e` never makes it dynamic,
    whatever `e` is.
  */
  lemma IdentifierDynamicIff(name: string, init: Option<Expr>, rs: seq<Expr>)
    requires forall i :: 0 <= i < |rs| ==> rs[i].PlusAssignment? || rs[i].OtherExpr?
    ensures IsDynamicString(Identifier(name, init, rs)) <==>
              (init.Some? && IsDynamicString(init.value))
              || exists i :: 0 <= i < |rs| && rs[i] == PlusAssignment(false)
  {
    if exists i :: 0 <= i < |rs| && rs[i] == PlusAssignment(false) {
      var i :| 0 <= i < |rs| && rs[i] == PlusAssignment(false);
      assert IsDynamicString(rs[i]);
    }
  }

  /**
    `String q = "a"; q = "b" + x;` leaves `q` constant-initialized and
    reassigned by a plain assignment, so it is not dynamic; after
    `String q = "a"; q += p;` it is.
  */
  lemma ReassignedQueries()
    ensures !IsDynamicString(Identifier("q", Some(StringLiteral("a")), [OtherExpr]))
    ensures IsDynamicString(Identifier("q", Some(StringLiteral("a")), [PlusAssignment(false)]))
  {
    IdentifierDynamicIff("q", Some(StringLiteral("a")), [OtherExpr]);
    var plusAssigned := [PlusAssignment(false)];
    assert plusAssigned[0] == PlusAssignment(false);
    IdentifierDynamicIff("q", Some(StringLiteral("a")), plusAssigned);
  }

  // ---------------------------------------------------------------------------
  // Properties of the decision

  /** An issue is raised exactly when a suspect with arguments has a String argument and the first one is dynamic. */
  lemma ReportedIff(h: Hierarchy, c: Call)
    ensures VisitNode(h, c) != [] <==>
              && (c.node.Invocation? || c.node.NewClass?)
              && c.args != []
              && IsQuerySink(h, TreeSubject(c.node))
              && exists i :: 0 <= i < |c.args| && IsString(c.args[i])
                             && (forall j :: 0 <= j < i ==> !IsString(c.args[j]))
                             && IsDynamicString(c.args[i].expr)
  {
    if AnyMatch(h, c) {
      assert Arguments(c) == c.args;
      FirstStringIsDynamicIff(c.args);
    }
  }

  /** The first String argument is dynamic exactly when some String argument with none before it is. */
  lemma FirstStringIsDynamicIff(args: seq<Arg>)
    ensures (match FirstStringArgument(args)
             case Some(k) => IsDynamicString(args[k].expr)
             case None => false) <==>
            exists i :: 0 <= i < |args| && IsString(args[i])
                        && (forall j :: 0 <= j < i ==> !IsString(args[j]))
                        && IsDynamicString(args[i].expr)
  {
    match FirstStringArgument(args)
    case Some(k) =>
      forall i | 0 <= i < |args| && IsString(args[i]) && (forall j :: 0 <= j < i ==> !IsString(args[j]))
        ensures i == k
      {
        assert !(i < k) && !(k < i);
      }
    case None =>
  }

  /** A suspect called with no argument at all is never reported. */
  lemma NoArgumentsNoIssue(h: Hierarchy, c: Call)
    requires c.args == []
    ensures VisitNode(h, c) == []
  {
  }

  /** Only the first String argument counts: whatever follows it can change without changing the verdict. */
  lemma LaterArgumentsIgnored(h: Hierarchy, node: Node, args: seq<Arg>, i: nat, rest1: seq<Arg>, rest2: seq<Arg>)
    requires i < |args| && IsString(args[i])
    ensures VisitNode(h, Call(node, args[..i + 1] + rest1)) == VisitNode(h, Call(node, args[..i + 1] + rest2))
  {
    var a1, a2 := args[..i + 1] + rest1, args[..i + 1] + rest2;
    FirstStringPrefix(args[..i + 1], rest1);
    FirstStringPrefix(args[..i + 1], rest2);
    assert a1[..i + 1] == a2[..i + 1];
    assert FirstStringArgument(args[..i + 1]).Some?;
    var k := FirstStringArgument(args[..i + 1]).value;
    assert a1[k] == a2[k] == args[..i + 1][k];
  }

  /** When a prefix already holds a String argument, the first one is found in that prefix. */
  lemma {:induction false} FirstStringPrefix(pre: seq<Arg>, rest: seq<Arg>)
    requires FirstStringArgument(pre).Some?
    ensures FirstStringArgument(pre + rest) == FirstStringArgument(pre)
  {
    if !IsString(pre[0]) {
      assert (pre + rest)[1..] == pre[1..] + rest;
      FirstStringPrefix(pre[1..], rest);
    }
  }
}
