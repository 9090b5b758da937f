/**
 The actor reference graph of one event loop.

 An actor owns a chain of outgoing references in creation order; every reference object has its own
 identity, so two references between the same pair of actors are different references.  fromCount is the
 reference counter kept in the referenced actor.  It may exceed the number of chained references into the
 actor, because a reference object whose owner was destroyed stays counted after it was unchained.
 */
module RefGraph {

  type Actor = nat

  datatype Reference = Reference(id: nat, dest: Actor)

  datatype Graph = Graph(chain: map<Actor, seq<Reference>>, fromCount: map<Actor, nat>)

  ghost predicate Closed(g: Graph) {
    forall a, i {:trigger g.chain[a][i]} :: a in g.chain && 0 <= i < |g.chain[a]| ==> g.chain[a][i].dest in g.chain
  }

  ghost predicate UniqueIds(g: Graph) {
    forall a, i, b, j {:trigger g.chain[a][i], g.chain[b][j]} ::
      (&& a in g.chain && b in g.chain && 0 <= i < |g.chain[a]| && 0 <= j < |g.chain[b]|
       && g.chain[a][i].id == g.chain[b][j].id) ==> a == b && i == j
  }

  /** The references chained in actors of g that refer to v. */
  ghost function InRefs(g: Graph, v: Actor): set<Reference> {
    set a, i | a in g.chain && 0 <= i < |g.chain[a]| && g.chain[a][i].dest == v :: g.chain[a][i]
  }

  ghost predicate Counted(g: Graph) {
    g.fromCount.Keys == g.chain.Keys && forall v {:trigger InRefs(g, v)} :: v in g.chain ==>
        |InRefs(g, v)| <= g.fromCount[v]
  }

  ghost predicate Valid(g: Graph) {
    Closed(g) && UniqueIds(g) && Counted(g)
  }

  /** r is chained in actor a. */
  ghost predicate Owns(g: Graph, a: Actor, r: Reference) {
    a in g.chain && r in g.chain[a]
  }

  ghost predicate Edge(g: Graph, a: Actor, b: Actor) {
    a in g.chain && exists i :: 0 <= i < |g.chain[a]| && g.chain[a][i].dest == b
  }

  ghost predicate IsPath(g: Graph, p: seq<Actor>) {
    |p| > 0 && (forall k :: 0 <= k < |p| ==> p[k] in g.chain)
    && forall k, l :: 0 <= k && l == k + 1 && l < |p| ==> Edge(g, p[k], p[l])
  }

  ghost predicate PathFromTo(g: Graph, p: seq<Actor>, a: Actor, b: Actor) {
    IsPath(g, p) && p[0] == a && p[|p| - 1] == b
  }

  /** b can be reached from a by following zero or more references. */
  ghost predicate Reaches(g: Graph, a: Actor, b: Actor) {
    exists p :: PathFromTo(g, p, a, b)
  }

  ghost predicate Acyclic(g: Graph) {
    forall a, b :: Edge(g, a, b) ==> !Reaches(g, b, a)
  }

  ghost function Descendants(g: Graph, a: Actor): set<Actor> {
    set b | b in g.chain && Reaches(g, a, b)
  }

  // ---------- reachability ----------

  lemma ReachesRefl(g: Graph, a: Actor)
    requires a in g.chain
    ensures Reaches(g, a, a)
  {
    assert PathFromTo(g, [a], a, a);
  }

  lemma ReachesTrans(g: Graph, a: Actor, b: Actor, c: Actor)
    requires Reaches(g, a, b) && Reaches(g, b, c)
    ensures Reaches(g, a, c)
  {
    var p :| PathFromTo(g, p, a, b);
    var q :| PathFromTo(g, q, b, c);
    var r := p + q[1..];
    forall k, l | 0 <= k && l == k + 1 && l < |r| ensures Edge(g, r[k], r[l]) {
      if k >= |p| - 1 {
        assert r[k] == q[k - (|p| - 1)] && r[l] == q[l - (|p| - 1)];
      }
    }
    assert PathFromTo(g, r, a, c);
  }

  lemma EdgeReaches(g: Graph, a: Actor, b: Actor)
    requires Closed(g) && Edge(g, a, b)
    ensures b in g.chain && Reaches(g, a, b)
  {
    assert PathFromTo(g, [a, b], a, b);
  }

  /** A non-trivial path starts with a reference of its first actor. */
  lemma FirstStep(g: Graph, a: Actor, b: Actor) returns (i: nat)
    requires Reaches(g, a, b) && a != b
    ensures a in g.chain && i < |g.chain[a]| && Reaches(g, g.chain[a][i].dest, b)
  {
    var p :| PathFromTo(g, p, a, b);
    assert Edge(g, p[0], p[1]);
    i :| 0 <= i < |g.chain[a]| && g.chain[a][i].dest == p[1];
    assert PathFromTo(g, p[1..], p[1], b) by {
      forall k, l | 0 <= k && l == k + 1 && l < |p[1..]| ensures Edge(g, p[1..][k], p[1..][l]) {
        assert Edge(g, p[k + 1], p[l + 1]);
      }
    }
  }

  /** A non-trivial path ends with a reference of an actor that is itself reached. */
  lemma LastStep(g: Graph, a: Actor, b: Actor) returns (s: Actor, i: nat)
    requires Reaches(g, a, b) && a != b
    ensures s in g.chain && i < |g.chain[s]| && g.chain[s][i].dest == b && Reaches(g, a, s)
  {
    var p :| PathFromTo(g, p, a, b);
    var n := |p| - 1;
    s := p[n - 1];
    assert Edge(g, p[n - 1], p[n]);
    i :| 0 <= i < |g.chain[s]| && g.chain[s][i].dest == b;
    assert PathFromTo(g, p[..n], a, s) by {
      forall k, l | 0 <= k && l == k + 1 && l < n ensures Edge(g, p[..n][k], p[..n][l]) {
        assert Edge(g, p[k], p[l]);
      }
    }
  }

  /** In an acyclic graph every reference leads to strictly fewer reachable actors: the recursions end. */
  lemma EdgeShrinks(g: Graph, a: Actor, b: Actor)
    requires Closed(g) && Acyclic(g) && Edge(g, a, b)
    ensures |Descendants(g, b)| < |Descendants(g, a)|
    ensures b in g.chain && Reaches(g, a, b)
  {
    EdgeReaches(g, a, b);
    forall x | x in Descendants(g, b) ensures x in Descendants(g, a) {
      ReachesTrans(g, a, b, x);
    }
    ReachesRefl(g, a);
    assert a in Descendants(g, a) && a !in Descendants(g, b);
    SubsetSmaller(Descendants(g, b), Descendants(g, a));
  }

  lemma SubsetSmaller<T>(s: set<T>, t: set<T>)
    requires s < t
    ensures |s| < |t|
  {
    assert t == s + (t - s);
    assert t - s != {};
  }

  lemma SubsetAtMost<T>(s: set<T>, t: set<T>)
    requires s <= t
    ensures |s| <= |t|
  {
    assert t == s + (t - s);
  }

  lemma SameSize<T>(s: set<T>, t: set<T>)
    requires s <= t && |s| == |t|
    ensures s == t
  {
    if s != t {
      SubsetSmaller(s, t);
    }
  }

  // ---------- cycle detection ----------

  /** Is dest reached from org?  The recursion over the reference chain, with its early exit. */
  method RecursiveFind(g: Graph, dest: Actor, org: Actor) returns (found: bool)
    requires Closed(g) && Acyclic(g) && org in g.chain
    ensures found <==> Reaches(g, org, dest)
    decreases |Descendants(g, org)|
  {
    if dest == org {
      ReachesRefl(g, org);
      return true;
    }
    for i := 0 to |g.chain[org]|
      invariant forall k :: 0 <= k < i ==> !Reaches(g, g.chain[org][k].dest, dest)
    {
      var next := g.chain[org][i].dest;
      EdgeShrinks(g, org, next);
      found := RecursiveFind(g, dest, next);
      if found {
        ReachesTrans(g, org, next, dest);
        return;
      }
    }
    if Reaches(g, org, dest) {
      var k := FirstStep(g, org, dest);
    }
    return false;
  }
}
