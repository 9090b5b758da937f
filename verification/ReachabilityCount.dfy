/**
 The shutdown test of a core: count the actors kept alive by the core actor and the services, and compare
 with the number of live actors.  The count follows references recursively without remembering what it
 visited; an actor with several references is entered only through the reference a depth-first search from
 the roots meets first.
 */
module ReachabilityCount {
  import opened Wrappers
  import opened RefGraph

  /** The core actor and the service actors of one event loop, over its reference graph. */
  datatype Core = Core(g: Graph, coreActor: Actor, services: seq<Actor>)

  ghost predicate ValidCore(c: Core) {
    && Valid(c.g) && Acyclic(c.g)
    && c.coreActor in c.g.chain && c.coreActor !in c.services
    && (forall k :: 0 <= k < |c.services| ==> c.services[k] in c.g.chain)
    && (forall k, l :: 0 <= k < l < |c.services| ==> c.services[k] != c.services[l])
  }

  /** A root is the core actor or a service that nothing refers to. */
  ghost predicate IsRoot(c: Core, a: Actor) {
    (a == c.coreActor || a in c.services) && a in c.g.fromCount && c.g.fromCount[a] == 0
  }

  ghost predicate RootReaches(c: Core, v: Actor) {
    exists r :: IsRoot(c, r) && Reaches(c.g, r, v)
  }

  // ---------- the depth-first search for one reference ----------

  /** The first reference into `to` met by a depth-first search that starts at `from`. */
  function FindFirst(g: Graph, from: Actor, to: Actor): Option<Reference>
    requires Closed(g) && Acyclic(g) && from in g.chain
    decreases |Descendants(g, from)|, 1, 0
  {
    if from == to then None else FindFirstFrom(g, from, to, 0)
  }

  function FindFirstFrom(g: Graph, from: Actor, to: Actor, i: nat): Option<Reference>
    requires Closed(g) && Acyclic(g) && from in g.chain && i <= |g.chain[from]|
    decreases |Descendants(g, from)|, 0, |g.chain[from]| - i
  {
    if i == |g.chain[from]| then None
    else
      var r := g.chain[from][i];
      if r.dest == to then Some(r)
      else
        EdgeShrinks(g, from, r.dest);
        match FindFirst(g, r.dest, to)
        case Some(x) => Some(x)
        case None => FindFirstFrom(g, from, to, i + 1)
  }

  /** What is found is a reference into `to`, chained in an actor reachable from `from`. */
  lemma {:induction false} FindFirstSound(g: Graph, from: Actor, to: Actor, i: nat) returns (s: Actor)
    requires Closed(g) && Acyclic(g) && from in g.chain && i <= |g.chain[from]|
    requires FindFirstFrom(g, from, to, i).Some?
    ensures var r := FindFirstFrom(g, from, to, i).value; r.dest == to && Owns(g, s, r) && Reaches(g, from, s)
    decreases |Descendants(g, from)|, |g.chain[from]| - i
  {
    var r := g.chain[from][i];
    if r.dest == to {
      s := from;
      ReachesRefl(g, from);
    } else {
      EdgeShrinks(g, from, r.dest);
      if FindFirst(g, r.dest, to).Some? {
        s := FindFirstSound(g, r.dest, to, 0);
        ReachesTrans(g, from, r.dest, s);
      } else {
        s := FindFirstSound(g, from, to, i + 1);
      }
    }
  }

  /** The search misses nothing: it fails only when no chained reference from i on leads to `to`. */
  lemma {:induction false} FindFirstComplete(g: Graph, from: Actor, to: Actor, i: nat, k: nat)
    requires Closed(g) && Acyclic(g) && from in g.chain && i <= k < |g.chain[from]|
    requires Reaches(g, g.chain[from][k].dest, to)
    ensures FindFirstFrom(g, from, to, i).Some?
    decreases |Descendants(g, from)|, |g.chain[from]| - i
  {
    var r := g.chain[from][i];
    if r.dest != to {
      EdgeShrinks(g, from, r.dest);
      if i == k {
        var j := FirstStep(g, r.dest, to);
        FindFirstComplete(g, r.dest, to, 0, j);
      } else {
        FindFirstComplete(g, from, to, i + 1, k);
      }
    }
  }

  /** The search over the unreferenced core actor, then the unreferenced services in registration order. */
  function FindFirstWithin(c: Core, to: Actor): Option<Reference>
    requires ValidCore(c)
  {
    var r := if c.g.fromCount[c.coreActor] == 0 then FindFirst(c.g, c.coreActor, to) else None;
    if r.Some? then r else FindFirstWithinServices(c, to, 0)
  }

  function FindFirstWithinServices(c: Core, to: Actor, k: nat): Option<Reference>
    requires ValidCore(c) && k <= |c.services|
    decreases |c.services| - k
  {
    if k == |c.services| then None
    else
      var r := if c.g.fromCount[c.services[k]] == 0 then FindFirst(c.g, c.services[k], to) else None;
      if r.Some? then r else FindFirstWithinServices(c, to, k + 1)
  }

  /**
   For an actor reachable from a root that is not itself a root, the search succeeds (the assertion at the end
   of the search), and its result is a reference into the actor held by an actor reachable from a root.
   */
  lemma FindFirstWithinFinds(c: Core, to: Actor) returns (s: Actor)
    requires ValidCore(c) && RootReaches(c, to) && !IsRoot(c, to)
    ensures FindFirstWithin(c, to).Some?
    ensures var r := FindFirstWithin(c, to).value; r.dest == to && Owns(c.g, s, r) && RootReaches(c, s)
  {
    var root :| IsRoot(c, root) && Reaches(c.g, root, to);
    var i := FirstStep(c.g, root, to);
    FindFirstComplete(c.g, root, to, 0, i);
    var first := c.coreActor;
    if c.g.fromCount[c.coreActor] != 0 || FindFirst(c.g, c.coreActor, to).None? {
      var k :| 0 <= k < |c.services| && c.services[k] == root;
      first := FindWithinServicesFinds(c, to, 0, k);
    }
    assert IsRoot(c, first);
    s := FindFirstSound(c.g, first, to, 0);
  }

  /** The search over the services returns what it finds from the first service that leads to the actor. */
  lemma {:induction false} FindWithinServicesFinds(c: Core, to: Actor, i: nat, k: nat) returns (first: Actor)
    requires ValidCore(c) && i <= k < |c.services|
    requires c.g.fromCount[c.services[k]] == 0 && FindFirst(c.g, c.services[k], to).Some?
    ensures first in c.services && first in c.g.chain && c.g.fromCount[first] == 0
    ensures FindFirst(c.g, first, to).Some?
    ensures FindFirstWithinServices(c, to, i) == FindFirst(c.g, first, to)
    decreases k - i
  {
    first := c.services[i];
    var r := if c.g.fromCount[first] == 0 then FindFirst(c.g, first, to) else None;
    assert FindFirstWithinServices(c, to, i) == if r.Some? then r else FindFirstWithinServices(c, to, i + 1);
    if r.None? {
      first := FindWithinServicesFinds(c, to, i + 1, k);
    }
  }

  /** What the search over the services returns was found from one that nothing refers to. */
  lemma {:induction false} FoundFromService(c: Core, to: Actor, i: nat) returns (first: Actor)
    requires ValidCore(c) && i <= |c.services| && FindFirstWithinServices(c, to, i).Some?
    ensures first in c.services && IsRoot(c, first)
    ensures FindFirst(c.g, first, to) == FindFirstWithinServices(c, to, i)
    decreases |c.services| - i
  {
    first := c.services[i];
    if c.g.fromCount[first] != 0 || FindFirst(c.g, first, to).None? {
      first := FoundFromService(c, to, i + 1);
    }
  }

  /** The search finds a reference into the actor iff a root other than the actor reaches it. */
  lemma FoundIffReached(c: Core, to: Actor)
    requires ValidCore(c)
    ensures FindFirstWithin(c, to).Some? <==> RootReaches(c, to) && !IsRoot(c, to)
  {
    if FindFirstWithin(c, to).Some? {
      var first := c.coreActor;
      if c.g.fromCount[first] != 0 || FindFirst(c.g, first, to).None? {
        first := FoundFromService(c, to, 0);
      }
      FoundIsReached(c, first, to);
    } else if RootReaches(c, to) && !IsRoot(c, to) {
      var s := FindFirstWithinFinds(c, to);
    }
  }

  lemma FoundIsReached(c: Core, root: Actor, to: Actor)
    requires ValidCore(c) && root in c.g.chain && IsRoot(c, root) && FindFirst(c.g, root, to).Some?
    ensures RootReaches(c, to) && !IsRoot(c, to)
  {
    var r := FindFirst(c.g, root, to).value;
    var s := FindFirstSound(c.g, root, to, 0);
    var k :| 0 <= k < |c.g.chain[s]| && c.g.chain[s][k] == r;
    EdgeReaches(c.g, s, to);
    ReachesTrans(c.g, root, s, to);
    if IsRoot(c, to) {
      Unreferenced(c, s, k, to);
    }
  }

  // ---------- the count ----------

  /** The count enters the target of r through r, and through no other reference. */
  predicate Taken(c: Core, r: Reference)
    requires ValidCore(c) && r.dest in c.g.fromCount
  {
    c.g.fromCount[r.dest] == 1 || FindFirstWithin(c, r.dest) == Some(r)
  }

  function Count(c: Core, a: Actor): nat
    requires ValidCore(c) && a in c.g.chain
    decreases |Descendants(c.g, a)|, 1, 0
  {
    CountFrom(c, a, 0)
  }

  function CountFrom(c: Core, a: Actor, i: nat): nat
    requires ValidCore(c) && a in c.g.chain && i <= |c.g.chain[a]|
    decreases |Descendants(c.g, a)|, 0, |c.g.chain[a]| - i
  {
    if i == |c.g.chain[a]| then 0
    else
      var r := c.g.chain[a][i];
      EdgeShrinks(c.g, a, r.dest);
      (if Taken(c, r) then 1 + Count(c, r.dest) else 0) + CountFrom(c, a, i + 1)
  }

  /** The actors the count enters below a, through references i, i+1, ... of a. */
  ghost function Below(c: Core, a: Actor, i: nat): set<Actor>
    requires ValidCore(c) && a in c.g.chain && i <= |c.g.chain[a]|
    decreases |Descendants(c.g, a)|, |c.g.chain[a]| - i
  {
    if i == |c.g.chain[a]| then {}
    else
      var r := c.g.chain[a][i];
      EdgeShrinks(c.g, a, r.dest);
      (if Taken(c, r) then {r.dest} + Below(c, r.dest, 0) else {}) + Below(c, a, i + 1)
  }

  ghost function Tree(c: Core, a: Actor): set<Actor>
    requires ValidCore(c) && a in c.g.chain
  {
    {a} + Below(c, a, 0)
  }

  lemma {:induction false} BelowIsReachable(c: Core, a: Actor, i: nat, x: Actor)
    requires ValidCore(c) && a in c.g.chain && i <= |c.g.chain[a]| && x in Below(c, a, i)
    ensures x in c.g.chain && x != a && Reaches(c.g, a, x)
    decreases |Descendants(c.g, a)|, |c.g.chain[a]| - i
  {
    var r := c.g.chain[a][i];
    EdgeShrinks(c.g, a, r.dest);
    if x in Below(c, a, i + 1) {
      BelowIsReachable(c, a, i + 1, x);
    } else if x != r.dest {
      BelowIsReachable(c, r.dest, 0, x);
      ReachesTrans(c.g, a, r.dest, x);
    } else {
      ReachesRefl(c.g, a);
    }
  }

  /** Every actor below a was entered through a taken reference of a, or of another actor below a. */
  lemma {:induction false} BelowLastStep(c: Core, a: Actor, i: nat, x: Actor) returns (s: Actor, k: nat)
    requires ValidCore(c) && a in c.g.chain && i <= |c.g.chain[a]| && x in Below(c, a, i)
    ensures s in c.g.chain && k < |c.g.chain[s]| && c.g.chain[s][k].dest == x && Taken(c, c.g.chain[s][k])
    ensures (s == a && i <= k) || s in Below(c, a, i)
    decreases |Descendants(c.g, a)|, |c.g.chain[a]| - i
  {
    var r := c.g.chain[a][i];
    EdgeShrinks(c.g, a, r.dest);
    if x in Below(c, a, i + 1) {
      s, k := BelowLastStep(c, a, i + 1, x);
    } else if x == r.dest {
      s, k := a, i;
    } else {
      s, k := BelowLastStep(c, r.dest, 0, x);
    }
  }

  /** The actors below a are closed under taken references. */
  lemma {:induction false} BelowClosed(c: Core, a: Actor, i: nat, s: Actor, k: nat)
    requires ValidCore(c) && a in c.g.chain && i <= |c.g.chain[a]|
    requires s in c.g.chain && k < |c.g.chain[s]| && Taken(c, c.g.chain[s][k])
    requires (s == a && i <= k) || s in Below(c, a, i)
    ensures c.g.chain[s][k].dest in Below(c, a, i)
    decreases |Descendants(c.g, a)|, |c.g.chain[a]| - i
  {
    if i < |c.g.chain[a]| {
      var r := c.g.chain[a][i];
      EdgeShrinks(c.g, a, r.dest);
      if (s == a && i < k) || s in Below(c, a, i + 1) {
        BelowClosed(c, a, i + 1, s, k);
      } else if s in Below(c, a, i) {
        BelowClosed(c, r.dest, 0, s, k);
      }
    }
  }

  /** At most one reference into an actor is taken. */
  lemma TakenUnique(c: Core, s: Actor, i: nat, t: Actor, j: nat)
    requires ValidCore(c) && s in c.g.chain && t in c.g.chain && i < |c.g.chain[s]| && j < |c.g.chain[t]|
    requires c.g.chain[s][i].dest == c.g.chain[t][j].dest
    requires Taken(c, c.g.chain[s][i]) && Taken(c, c.g.chain[t][j])
    ensures s == t && i == j
  {
    var r, q := c.g.chain[s][i], c.g.chain[t][j];
    var v := r.dest;
    assert r in InRefs(c.g, v) && q in InRefs(c.g, v);
    SubsetAtMost({r, q}, InRefs(c.g, v));
  }

  lemma Unreferenced(c: Core, s: Actor, k: nat, root: Actor)
    requires ValidCore(c) && s in c.g.chain && k < |c.g.chain[s]| && IsRoot(c, root)
    ensures c.g.chain[s][k].dest != root
  {
    assert InRefs(c.g, root) == {};
    assert c.g.chain[s][k] !in InRefs(c.g, root);
  }

  lemma HeightDrops(c: Core, s: Actor, k: nat)
    requires ValidCore(c) && s in c.g.chain && k < |c.g.chain[s]|
    ensures var x := c.g.chain[s][k].dest;
            && x in c.g.chain && |Descendants(c.g, x)| < |Descendants(c.g, s)| <= |c.g.chain.Keys|
  {
    EdgeShrinks(c.g, s, c.g.chain[s][k].dest);
    SubsetAtMost(Descendants(c.g, s), c.g.chain.Keys);
  }

  /** What is entered through one reference of a is disjoint from what is entered through the later ones. */
  lemma {:induction false} SiblingsDisjoint(c: Core, a: Actor, i: nat, x: Actor)
    requires ValidCore(c) && a in c.g.chain && i < |c.g.chain[a]| && Taken(c, c.g.chain[a][i])
    requires x in Below(c, a, i + 1)
    ensures c.g.chain[a][i].dest in c.g.chain && x !in Tree(c, c.g.chain[a][i].dest)
    decreases |c.g.chain.Keys| - |Descendants(c.g, x)|
  {
    var d := c.g.chain[a][i].dest;
    EdgeShrinks(c.g, a, d);
    if x == d {
      var t, j := BelowLastStep(c, a, i + 1, x);
      TakenUnique(c, a, i, t, j);
      NotBelowItself(c, a, i + 1);
    } else if x in Below(c, d, 0) {
      var s := CommonParent(c, a, i + 1, d, x);
      if s == a {
        NotInChildTree(c, a, d);
      } else {
        SiblingsDisjoint(c, a, i, s);
      }
    }
  }

  /** An actor entered both below a and below d was entered through the same actor s. */
  lemma CommonParent(c: Core, a: Actor, i: nat, d: Actor, x: Actor) returns (s: Actor)
    requires ValidCore(c) && a in c.g.chain && d in c.g.chain && i <= |c.g.chain[a]|
    requires x in Below(c, a, i) && x in Below(c, d, 0)
    ensures s in Tree(c, d) && (s == a || s in Below(c, a, i))
    ensures x in c.g.chain && |Descendants(c.g, x)| < |Descendants(c.g, s)| <= |c.g.chain.Keys|
  {
    var t, j := BelowLastStep(c, a, i, x);
    var k;
    s, k := BelowLastStep(c, d, 0, x);
    TakenUnique(c, s, k, t, j);
    HeightDrops(c, s, k);
  }

  lemma NotBelowItself(c: Core, a: Actor, i: nat)
    requires ValidCore(c) && a in c.g.chain && i <= |c.g.chain[a]|
    ensures a !in Below(c, a, i)
  {
    if a in Below(c, a, i) {
      BelowIsReachable(c, a, i, a);
    }
  }

  lemma NotInChildTree(c: Core, a: Actor, d: Actor)
    requires ValidCore(c) && Edge(c.g, a, d) && d in c.g.chain
    ensures a !in Tree(c, d)
  {
    ReachesRefl(c.g, d);
    if a in Below(c, d, 0) {
      BelowIsReachable(c, d, 0, a);
    }
  }

  /** The count below a is the number of actors entered below a: nothing is counted twice. */
  lemma {:induction false} CountIsBelow(c: Core, a: Actor, i: nat)
    requires ValidCore(c) && a in c.g.chain && i <= |c.g.chain[a]|
    ensures CountFrom(c, a, i) == |Below(c, a, i)|
    decreases |Descendants(c.g, a)|, |c.g.chain[a]| - i
  {
    if i < |c.g.chain[a]| {
      var r := c.g.chain[a][i];
      EdgeShrinks(c.g, a, r.dest);
      CountIsBelow(c, a, i + 1);
      if Taken(c, r) {
        CountIsBelow(c, r.dest, 0);
        forall x | x in Below(c, a, i + 1) ensures x !in Tree(c, r.dest) {
          SiblingsDisjoint(c, a, i, x);
        }
        NotBelowItself(c, r.dest, 0);
        assert |Tree(c, r.dest)| == 1 + |Below(c, r.dest, 0)|;
        assert Below(c, a, i) == Tree(c, r.dest) + Below(c, a, i + 1);
      }
    }
  }

  /** The trees of two different roots share no actor. */
  lemma {:induction false} RootsDisjoint(c: Core, a: Actor, b: Actor, x: Actor)
    requires ValidCore(c) && IsRoot(c, a) && IsRoot(c, b) && a != b && x in Tree(c, a)
    ensures x !in Tree(c, b)
    decreases |c.g.chain.Keys| - |Descendants(c.g, x)|
  {
    if x != b && x in Below(c, b, 0) {
      var t, j := BelowLastStep(c, b, 0, x);
      Unreferenced(c, t, j, a);
      var s := CommonParent(c, b, 0, a, x);
      RootsDisjoint(c, a, b, s);
    } else if x == b {
      var s, k := BelowLastStep(c, a, 0, x);
      Unreferenced(c, s, k, b);
    }
  }

  /** An actor reachable from a root is a root, or has a taken reference from an actor reachable from a root. */
  lemma TakenExists(c: Core, v: Actor) returns (s: Actor, k: nat)
    requires ValidCore(c) && RootReaches(c, v) && !IsRoot(c, v)
    ensures s in c.g.chain && k < |c.g.chain[s]| && c.g.chain[s][k].dest == v
    ensures Taken(c, c.g.chain[s][k]) && RootReaches(c, s)
  {
    var root :| IsRoot(c, root) && Reaches(c.g, root, v);
    s, k := LastStep(c.g, root, v);
    if c.g.fromCount[v] != 1 {
      s := FindFirstWithinFinds(c, v);
      k :| 0 <= k < |c.g.chain[s]| && c.g.chain[s][k] == FindFirstWithin(c, v).value;
    }
  }

  /** Every actor reachable from the roots is in the tree of one of them. */
  lemma {:induction false} ReachableIsInATree(c: Core, v: Actor) returns (root: Actor)
    requires ValidCore(c) && RootReaches(c, v)
    ensures IsRoot(c, root) && root in c.g.chain && v in Tree(c, root)
    decreases |c.g.chain.Keys| - |Descendants(c.g, v)|
  {
    if IsRoot(c, v) {
      root := v;
    } else {
      var s, k := TakenExists(c, v);
      HeightDrops(c, s, k);
      root := ReachableIsInATree(c, s);
      BelowClosed(c, root, 0, s, k);
    }
  }

  // ---------- the shutdown test ----------

  /** The contribution of the services from k on, as the loop adds them up. */
  function ServicesCount(c: Core, k: nat): nat
    requires ValidCore(c) && k <= |c.services|
    decreases |c.services| - k
  {
    if k == |c.services| then 0 else RootCount(c, c.services[k]) + ServicesCount(c, k + 1)
  }

  function RootCount(c: Core, a: Actor): nat
    requires ValidCore(c) && a in c.g.chain
  {
    if c.g.fromCount[a] == 0 then 1 + Count(c, a) else 0
  }

  /** The number that is compared with the number of live actors. */
  function TotalCount(c: Core): nat
    requires ValidCore(c)
  {
    RootCount(c, c.coreActor) + ServicesCount(c, 0)
  }

  ghost function RootTree(c: Core, a: Actor): set<Actor>
    requires ValidCore(c) && a in c.g.chain
  {
    if c.g.fromCount[a] == 0 then Tree(c, a) else {}
  }

  ghost function ServiceTrees(c: Core, k: nat): set<Actor>
    requires ValidCore(c) && k <= |c.services|
    decreases |c.services| - k
  {
    if k == |c.services| then {} else RootTree(c, c.services[k]) + ServiceTrees(c, k + 1)
  }

  lemma RootCountIsTree(c: Core, a: Actor)
    requires ValidCore(c) && a in c.g.chain
    ensures RootCount(c, a) == |RootTree(c, a)|
  {
    CountIsBelow(c, a, 0);
    NotBelowItself(c, a, 0);
  }

  lemma {:induction false} ServiceTreeOf(c: Core, k: nat, x: Actor) returns (l: nat)
    requires ValidCore(c) && k <= |c.services| && x in ServiceTrees(c, k)
    ensures k <= l < |c.services| && x in RootTree(c, c.services[l])
    decreases |c.services| - k
  {
    if x in RootTree(c, c.services[k]) {
      l := k;
    } else {
      l := ServiceTreeOf(c, k + 1, x);
    }
  }

  lemma {:induction false} ServiceTreesHave(c: Core, k: nat, l: nat, x: Actor)
    requires ValidCore(c) && k <= l < |c.services| && x in RootTree(c, c.services[l])
    ensures x in ServiceTrees(c, k)
    decreases |c.services| - k
  {
    assert ServiceTrees(c, k) == RootTree(c, c.services[k]) + ServiceTrees(c, k + 1);
    if k < l {
      ServiceTreesHave(c, k + 1, l, x);
    }
  }

  lemma {:induction false} ServicesCountIsTrees(c: Core, k: nat)
    requires ValidCore(c) && k <= |c.services|
    ensures ServicesCount(c, k) == |ServiceTrees(c, k)|
    decreases |c.services| - k
  {
    if k < |c.services| {
      RootCountIsTree(c, c.services[k]);
      ServicesCountIsTrees(c, k + 1);
      RootTreeDisjoint(c, c.services[k], k + 1);
    }
  }

  /** A root outside the services from k on shares no actor with their trees. */
  lemma RootTreeDisjoint(c: Core, a: Actor, k: nat)
    requires ValidCore(c) && (a == c.coreActor || a in c.services) && k <= |c.services| && a !in c.services[k..]
    requires a in c.g.chain
    ensures RootTree(c, a) !! ServiceTrees(c, k)
  {
    forall x | x in ServiceTrees(c, k) ensures x !in RootTree(c, a) {
      var l := ServiceTreeOf(c, k, x);
      assert c.services[l] == c.services[k..][l - k];
      if x in RootTree(c, a) {
        RootsDisjoint(c, a, c.services[l], x);
      }
    }
  }

  ghost function ReachableFromRoots(c: Core): set<Actor> {
    set v | v in c.g.chain && RootReaches(c, v)
  }

  /**
   The recursive count equals the number of actors reachable from the unreferenced core actor and services,
   whatever the sharing: parallel references, shared actors and diamonds included.
   */
  lemma CountIsReachable(c: Core)
    requires ValidCore(c)
    ensures TotalCount(c) == |ReachableFromRoots(c)|
  {
    RootCountIsTree(c, c.coreActor);
    ServicesCountIsTrees(c, 0);
    var coreTree, trees := RootTree(c, c.coreActor), ServiceTrees(c, 0);
    RootTreeDisjoint(c, c.coreActor, 0);
    forall x ensures x in coreTree + trees <==> x in ReachableFromRoots(c) {
      if x in coreTree {
        RootTreeIsReachable(c, c.coreActor, x);
      } else if x in trees {
        var l := ServiceTreeOf(c, 0, x);
        RootTreeIsReachable(c, c.services[l], x);
      } else if x in ReachableFromRoots(c) {
        var root := ReachableIsInATree(c, x);
        if root != c.coreActor {
          var l :| 0 <= l < |c.services| && c.services[l] == root;
          ServiceTreesHave(c, 0, l, x);
        }
      }
    }
    assert coreTree + trees == ReachableFromRoots(c);
    assert |coreTree + trees| == |coreTree| + |trees|;
  }

  lemma RootTreeIsReachable(c: Core, a: Actor, x: Actor)
    requires ValidCore(c) && (a == c.coreActor || a in c.services) && a in c.g.chain && x in RootTree(c, a)
    ensures x in ReachableFromRoots(c)
  {
    assert IsRoot(c, a);
    if x == a {
      ReachesRefl(c.g, a);
    } else {
      BelowIsReachable(c, a, 0, x);
    }
  }

  /** The shutdown test holds exactly when every live actor is reachable from a root. */
  lemma OnlyReferencedLeft(c: Core)
    requires ValidCore(c)
    ensures TotalCount(c) == |c.g.chain.Keys| <==> forall v :: v in c.g.chain ==> RootReaches(c, v)
  {
    CountIsReachable(c);
    AllReachable(c);
    if |ReachableFromRoots(c)| == |c.g.chain.Keys| {
      SameSize(ReachableFromRoots(c), c.g.chain.Keys);
    }
  }

  /** countReferencedActors, as the loop over the reference chain that calls itself. */
  method CountReferencedActors(c: Core, a: Actor) returns (ret: nat)
    requires ValidCore(c) && a in c.g.chain
    ensures ret == Count(c, a) == |Below(c, a, 0)|
    decreases |Descendants(c.g, a)|
  {
    ret := 0;
    for i := 0 to |c.g.chain[a]|
      invariant ret + CountFrom(c, a, i) == CountFrom(c, a, 0)
    {
      var r := c.g.chain[a][i];
      EdgeShrinks(c.g, a, r.dest);
      if Taken(c, r) {
        var n := CountReferencedActors(c, r.dest);
        ret := ret + 1 + n;
      }
    }
    CountIsBelow(c, a, 0);
  }

  /** onlyCoreAndServiceReferencedActorsLeft: actorCount is the node's count of live actors. */
  method OnlyCoreAndServiceReferencedActorsLeft(c: Core, actorCount: nat) returns (left: bool)
    requires ValidCore(c) && actorCount == |c.g.chain.Keys|
    ensures left <==> forall v :: v in c.g.chain ==> RootReaches(c, v)
  {
    var count := 0;
    if c.g.fromCount[c.coreActor] == 0 {
      count := CountReferencedActors(c, c.coreActor);
      count := 1 + count;
    }
    for k := 0 to |c.services|
      invariant count + ServicesCount(c, k) == TotalCount(c)
    {
      if c.g.fromCount[c.services[k]] == 0 {
        var n := CountReferencedActors(c, c.services[k]);
        count := count + 1 + n;
      }
    }
    OnlyReferencedLeft(c);
    left := count == actorCount;
  }

  lemma AllReachable(c: Core)
    ensures ReachableFromRoots(c) == c.g.chain.Keys <==> forall v :: v in c.g.chain ==> RootReaches(c, v)
  {
    if ReachableFromRoots(c) == c.g.chain.Keys {
      forall v | v in c.g.chain ensures RootReaches(c, v) {
        assert v in ReachableFromRoots(c);
      }
    }
  }
}
