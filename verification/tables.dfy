/**
  Matcher tables as the rules write them with the legacy builder: runs of
  `MethodMatcher.create().ofType(...).names(n).<parameters>` that share an
  owner criterion and a parameter criterion, one matcher per name, joined with
  `MethodMatchers.or`.
*/
module MatcherTables {
  import opened TypeHierarchy
  import opened Criteria
  import opened Matchers

  /** Consecutive table entries that differ only in the method name. */
  datatype Group = Group(owner: TypeCriterion, names: seq<string>, parameters: ParameterCriterion)

  /** One single-criterion matcher per name of the group, in order. */
  function GroupMatchers(g: Group): (r: seq<MethodMatcher>)
    ensures |r| == |g.names|
    ensures forall i :: 0 <= i < |r| ==> r[i] == MethodMatcher([g.owner], [Names({g.names[i]})], [g.parameters])
  {
    seq(|g.names|, i requires 0 <= i < |g.names| => MethodMatcher([g.owner], [Names({g.names[i]})], [g.parameters]))
  }

  /** The `or` of every group's matchers, in table order. */
  function Table(gs: seq<Group>): (r: MethodMatchers)
    ensures forall m :: m in r.alternatives ==>
              exists i :: 0 <= i < |gs| && m.types == [gs[i].owner] && m.parameters == [gs[i].parameters]
                          && exists n :: n in gs[i].names && m.names == [Names({n})]
  {
    if gs == [] then Empty() else MethodMatchers(GroupMatchers(gs[0]) + Table(gs[1..]).alternatives)
  }

  /** What one group accepts: a resolved subject with one of its names, its owner and parameter criteria met. */
  predicate InGroup(h: Hierarchy, g: Group, s: Subject)
  {
    s.resolved && TypeSatisfies(h, g.owner, s.owner) && s.name in g.names && ParametersSatisfy(h, g.parameters, s.parameters)
  }

  lemma GroupMatches(h: Hierarchy, g: Group, s: Subject)
    ensures Matches(h, MethodMatchers(GroupMatchers(g)), s) <==> InGroup(h, g, s)
  {
    var ms := GroupMatchers(g);
    if InGroup(h, g, s) {
      var i :| 0 <= i < |g.names| && g.names[i] == s.name;
      SingleCriteria(h, g.owner, Names({g.names[i]}), g.parameters, s);
      assert MatcherMatches(h, ms[i], s) by {
        assert Single(ms[i]).alternatives[0] == ms[i];
      }
    }
    if Matches(h, MethodMatchers(ms), s) {
      var i :| 0 <= i < |ms| && MatcherMatches(h, ms[i], s);
      SingleCriteria(h, g.owner, Names({g.names[i]}), g.parameters, s);
      assert Single(ms[i]).alternatives[0] == ms[i];
    }
  }

  /** A table matches exactly the subjects some group of it accepts. */
  lemma {:induction false} TableMatches(h: Hierarchy, gs: seq<Group>, s: Subject)
    ensures Matches(h, Table(gs), s) <==> exists i :: 0 <= i < |gs| && InGroup(h, gs[i], s)
  {
    if gs != [] {
      TableMatches(h, gs[1..], s);
      GroupMatches(h, gs[0], s);
      MatchesAppend(h, GroupMatchers(gs[0]), Table(gs[1..]).alternatives, s);
      if exists i :: 0 <= i < |gs| && InGroup(h, gs[i], s) {
        var i :| 0 <= i < |gs| && InGroup(h, gs[i], s);
        if i > 0 {
          assert gs[1..][i - 1] == gs[i];
        }
      }
      if exists i :: 0 <= i < |gs[1..]| && InGroup(h, gs[1..][i], s) {
        var i :| 0 <= i < |gs[1..]| && InGroup(h, gs[1..][i], s);
        assert gs[i + 1] == gs[1..][i];
      }
    }
  }
}
