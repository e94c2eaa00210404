/**
  The type hierarchy the semantic model hands to the matcher engine: every
  known type, by qualified name, with its direct supertypes (the superclass
  followed by the implemented or extended interfaces). A type the map does not
  know has no supertypes. The hierarchy is a graph, not a tree: diamonds
  through interfaces are allowed, and nothing here requires it to be acyclic.
*/
module TypeHierarchy {

  type TypeName = string

  type Hierarchy = map<TypeName, seq<TypeName>>

  /** The direct supertypes of `t`; none when `t` is unknown to the hierarchy. */
  function Supers(h: Hierarchy, t: TypeName): seq<TypeName>
  {
    if t in h then h[t] else []
  }

  /** Every name that occurs as a direct supertype somewhere in `h`. */
  function Universe(h: Hierarchy): set<TypeName>
  {
    set t, s | t in h && s in h[t] :: s
  }

  /** Every direct supertype of `t` is in the universe, which bounds the search. */
  lemma SupersInUniverse(h: Hierarchy, t: TypeName)
    ensures forall s :: s in Supers(h, t) ==> s in Universe(h)
  {
  }

  // ---------------------------------------------------------------------------
  // Reference definition: reachability by supertype steps

  /** `t` reaches `n` in at most `k` steps from a type to one of its direct supertypes. */
  ghost predicate ReachesIn(h: Hierarchy, t: TypeName, n: TypeName, k: nat)
    decreases k
  {
    t == n || (k > 0 && exists s :: s in Supers(h, t) && ReachesIn(h, s, n, k - 1))
  }

  /** `t` is `n` itself or inherits from `n` through any chain of superclasses and interfaces. */
  ghost predicate IsSubtype(h: Hierarchy, t: TypeName, n: TypeName)
  {
    exists k: nat :: ReachesIn(h, t, n, k)
  }

  /** A set of types that contains the supertypes of each of its members. */
  ghost predicate Closed(h: Hierarchy, s: set<TypeName>)
  {
    forall v, u :: v in s && u in Supers(h, v) ==> u in s
  }

  // ---------------------------------------------------------------------------
  // The search the engine performs

  /** Every supertype of a visited type is visited or still waiting on the stack. */
  ghost predicate ClosedModulo(h: Hierarchy, visited: set<TypeName>, stack: seq<TypeName>)
  {
    forall v, u :: v in visited && u in Supers(h, v) ==> u in visited || u in stack
  }

  /**
    Depth-first walk up the hierarchy looking for `target`. Each type is
    expanded at most once: a type already in `visited` is dropped from the
    stack, so diamonds and cycles cost nothing extra and the walk terminates.
  */
  function Search(h: Hierarchy, target: TypeName, stack: seq<TypeName>, visited: set<TypeName>): (found: bool)
    requires forall x :: x in stack ==> x in Universe(h)
    requires target !in visited
    requires ClosedModulo(h, visited, stack)
    ensures found <==> exists y :: (y in stack || y in visited) && IsSubtype(h, y, target)
    decreases |Universe(h) - visited|, |stack|
  {
    if stack == [] then
      ClosedSetBlocksAll(h, visited, target);
      false
    else
      var x := stack[0];
      if x == target then
        assert ReachesIn(h, x, target, 0);
        true
      else if x in visited then
        Search(h, target, stack[1..], visited)
      else
        SupersInUniverse(h, x);
        StepBack(h, x, target);
        StepForwardAll(h, x, target);
        assert Universe(h) - visited == (Universe(h) - (visited + {x})) + {x};
        Search(h, target, Supers(h, x) + stack[1..], visited + {x})
  }

  /** `ofSubType(n)` on a type named `t`: reflexive, and through every supertype. */
  function IsSubtypeOf(h: Hierarchy, t: TypeName, n: TypeName): (r: bool)
    ensures r <==> IsSubtype(h, t, n)
  {
    if t == n then
      assert ReachesIn(h, t, n, 0);
      true
    else
      SupersInUniverse(h, t);
      StepBack(h, t, n);
      StepForwardAll(h, t, n);
      Search(h, n, Supers(h, t), {t})
  }

  // ---------------------------------------------------------------------------
  // Lemmas about reachability

  lemma {:induction false} ReachesInMono(h: Hierarchy, t: TypeName, n: TypeName, k: nat, k': nat)
    requires ReachesIn(h, t, n, k) && k <= k'
    ensures ReachesIn(h, t, n, k')
    decreases k
  {
    if t != n {
      var s :| s in Supers(h, t) && ReachesIn(h, s, n, k - 1);
      ReachesInMono(h, s, n, k - 1, k' - 1);
    }
  }

  lemma {:induction false} ReachesInTrans(h: Hierarchy, a: TypeName, b: TypeName, c: TypeName, k1: nat, k2: nat)
    requires ReachesIn(h, a, b, k1) && ReachesIn(h, b, c, k2)
    ensures ReachesIn(h, a, c, k1 + k2)
    decreases k1
  {
    if a == b {
      ReachesInMono(h, b, c, k2, k1 + k2);
    } else {
      var s :| s in Supers(h, a) && ReachesIn(h, s, b, k1 - 1);
      ReachesInTrans(h, s, b, c, k1 - 1, k2);
    }
  }

  /** A supertype of a supertype of `a` is a supertype of `a`. */
  lemma SubtypeTransitive(h: Hierarchy, a: TypeName, b: TypeName, c: TypeName)
    requires IsSubtype(h, a, b) && IsSubtype(h, b, c)
    ensures IsSubtype(h, a, c)
  {
    var k1: nat :| ReachesIn(h, a, b, k1);
    var k2: nat :| ReachesIn(h, b, c, k2);
    ReachesInTrans(h, a, b, c, k1, k2);
  }

  /** Every type is a subtype of itself. */
  lemma SubtypeReflexive(h: Hierarchy, t: TypeName)
    ensures IsSubtype(h, t, t)
  {
    assert ReachesIn(h, t, t, 0);
  }

  /** Each direct supertype (superclass or interface) is a supertype. */
  lemma SubtypeOfDirectSuper(h: Hierarchy, t: TypeName, s: TypeName)
    requires s in Supers(h, t)
    ensures IsSubtype(h, t, s)
  {
    assert ReachesIn(h, s, s, 0);
    assert ReachesIn(h, t, s, 1);
  }

  lemma StepForwardAll(h: Hierarchy, x: TypeName, n: TypeName)
    ensures forall s :: s in Supers(h, x) && IsSubtype(h, s, n) ==> IsSubtype(h, x, n)
  {
    forall s | s in Supers(h, x) && IsSubtype(h, s, n)
      ensures IsSubtype(h, x, n)
    {
      SubtypeOfDirectSuper(h, x, s);
      SubtypeTransitive(h, x, s, n);
    }
  }

  lemma StepBack(h: Hierarchy, x: TypeName, n: TypeName)
    ensures IsSubtype(h, x, n) && x != n ==> exists s :: s in Supers(h, x) && IsSubtype(h, s, n)
  {
    if IsSubtype(h, x, n) && x != n {
      var k: nat :| ReachesIn(h, x, n, k);
      var s :| s in Supers(h, x) && ReachesIn(h, s, n, k - 1);
      assert IsSubtype(h, s, n);
    }
  }

  lemma {:induction false} ClosedSetBlocksIn(h: Hierarchy, s: set<TypeName>, t: TypeName, n: TypeName, k: nat)
    requires Closed(h, s) && t in s && n !in s
    ensures !ReachesIn(h, t, n, k)
    decreases k
  {
    if k > 0 {
      forall u | u in Supers(h, t)
        ensures !ReachesIn(h, u, n, k - 1)
      {
        ClosedSetBlocksIn(h, s, u, n, k - 1);
      }
    }
  }

  /**
    The way to show that a type is NOT a subtype: exhibit a closed set of
    types that holds it and does not hold the target.
  */
  lemma ClosedSetBlocks(h: Hierarchy, s: set<TypeName>, t: TypeName, n: TypeName)
    requires Closed(h, s) && t in s && n !in s
    ensures !IsSubtype(h, t, n)
  {
    forall k: nat
      ensures !ReachesIn(h, t, n, k)
    {
      ClosedSetBlocksIn(h, s, t, n, k);
    }
  }

  lemma ClosedSetBlocksAll(h: Hierarchy, s: set<TypeName>, n: TypeName)
    requires Closed(h, s) && n !in s
    ensures forall t :: t in s ==> !IsSubtype(h, t, n)
  {
    forall t | t in s
      ensures !IsSubtype(h, t, n)
    {
      ClosedSetBlocks(h, s, t, n);
    }
  }

  /** A type without supertypes (`java.lang.Object`, or one the model does not know) is a subtype of itself only. */
  lemma NoSupersOnlySelf(h: Hierarchy, t: TypeName, n: TypeName)
    requires Supers(h, t) == []
    ensures IsSubtypeOf(h, t, n) <==> t == n
  {
    if t != n {
      ClosedSetBlocks(h, {t}, t, n);
    }
  }
}
