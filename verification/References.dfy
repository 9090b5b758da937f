/**
 The reference objects of one event loop: creating, copying, assigning and dropping them updates the reference
 chains of the owners and the counters of the referenced actors.  Cycle checking is on.
 */
module References {
  import opened Wrappers
  import opened RefGraph

  /** A reference object: owner is the actor whose chain it is in, target the actor it refers to and counts in. */
  datatype RefObject = RefObject(destroyTarget: bool, owner: Option<Actor>, target: Option<Actor>)

  datatype Table = Table(g: Graph, objects: map<nat, RefObject>)

  ghost function Holders(t: Table, v: Actor): set<nat> {
    set id | id in t.objects && t.objects[id].target == Some(v)
  }

  /** The chains hold exactly the objects that have an owner. */
  ghost predicate ChainsMatch(t: Table) {
    && (forall a, i {:trigger t.g.chain[a][i]} :: a in t.g.chain && 0 <= i < |t.g.chain[a]| ==>
          var r := t.g.chain[a][i];
          r.id in t.objects && t.objects[r.id].owner == Some(a) && t.objects[r.id].target == Some(r.dest))
    && (forall id :: id in t.objects && t.objects[id].owner.Some? ==>
          var o := t.objects[id];
          o.target.Some? && o.owner.value in t.g.chain && Reference(id, o.target.value) in t.g.chain[o.owner.value])
  }

  /** Every object with a target counts in it, chained or not. */
  ghost predicate CountsMatch(t: Table) {
    && t.g.fromCount.Keys == t.g.chain.Keys
    && (forall id :: id in t.objects && t.objects[id].target.Some? ==> t.objects[id].target.value in t.g.chain)
    && (forall v {:trigger Holders(t, v)} :: v in t.g.chain ==> t.g.fromCount[v] == |Holders(t, v)|)
  }

  ghost predicate TableInv(t: Table) {
    Closed(t.g) && UniqueIds(t.g) && Acyclic(t.g) && ChainsMatch(t) && CountsMatch(t)
  }

  /** The graph of a consistent table is one the shutdown test can count on. */
  lemma InvGivesValid(t: Table)
    requires TableInv(t)
    ensures Valid(t.g)
  {
    forall v | v in t.g.chain ensures |InRefs(t.g, v)| <= t.g.fromCount[v] {
      var ids := set r | r in InRefs(t.g, v) :: r.id;
      assert ids <= Holders(t, v);
      SubsetAtMost(ids, Holders(t, v));
      SameIds(t, v, InRefs(t.g, v));
    }
  }

  lemma {:induction false} SameIds(t: Table, v: Actor, s: set<Reference>)
    requires TableInv(t) && s <= InRefs(t.g, v)
    ensures |set r | r in s :: r.id| == |s|
    decreases |s|
  {
    if s != {} {
      var r :| r in s;
      var rest := s - {r};
      SameIds(t, v, rest);
      assert s == rest + {r};
      assert (set q | q in s :: q.id) == (set q | q in rest :: q.id) + {r.id};
      assert forall q :: q in rest ==> q.id != r.id;
    }
  }

  // ---------- the operations ----------

  function WithoutRef(s: seq<Reference>, id: nat): seq<Reference> {
    if s == [] then [] else if s[0].id == id then s[1..] else [s[0]] + WithoutRef(s[1..], id)
  }

  /** push_back on the owner's chain, if there is an owner, and one more count in the target, if there is one. */
  function Attach(t: Table, id: nat, o: RefObject): Table
    requires t.g.fromCount.Keys == t.g.chain.Keys
    requires o.owner.Some? ==> o.owner.value in t.g.chain && o.target.Some?
    requires o.target.Some? ==> o.target.value in t.g.chain
  {
    var chain := if o.owner.Some?
                 then t.g.chain[o.owner.value := t.g.chain[o.owner.value] + [Reference(id, o.target.value)]]
                 else t.g.chain;
    var count :=
      if o.target.Some? then t.g.fromCount[o.target.value := t.g.fromCount[o.target.value] + 1] else t.g.fromCount;
    Table(Graph(chain, count), t.objects[id := o])
  }

  /** unreference: leave the chain and the count; the object stays, empty. */
  function Detach(t: Table, id: nat): Table
    requires id in t.objects
  {
    var o := t.objects[id];
    var chain := if o.owner.Some? && o.owner.value in t.g.chain
                 then t.g.chain[o.owner.value := WithoutRef(t.g.chain[o.owner.value], id)] else t.g.chain;
    var count := if o.target.Some? && o.target.value in t.g.fromCount && t.g.fromCount[o.target.value] > 0
                 then t.g.fromCount[o.target.value := t.g.fromCount[o.target.value] - 1] else t.g.fromCount;
    Table(Graph(chain, count), t.objects[id := o.(owner := None, target := None)])
  }

  /** The destructor of an object: unreference, and the object is gone. */
  function Dropped(t: Table, id: nat): Table
    requires id in t.objects
  {
    var d := Detach(t, id);
    d.(objects := map i | i in d.objects && i != id :: d.objects[i])
  }

  /** The destructor of an actor takes the references left in its chain out of it: they keep their targets. */
  function Removed(t: Table, a: Actor): Table {
    Table(Graph(map b | b in t.g.chain && b != a :: t.g.chain[b],
                map b | b in t.g.fromCount && b != a :: t.g.fromCount[b]),
          map id | id in t.objects ::
            if t.objects[id].owner == Some(a) then t.objects[id].(owner := None) else t.objects[id])
  }

  function Added(t: Table, a: Actor): Table {
    t.(g := Graph(t.g.chain[a := []], t.g.fromCount[a := 0]))
  }

  // ---------- acyclicity ----------

  /** Fewer references: nothing new is reached. */
  lemma {:induction false} SubgraphReaches(g: Graph, h: Graph, p: seq<Actor>)
    requires h.chain.Keys <= g.chain.Keys && forall a, b :: Edge(h, a, b) ==> Edge(g, a, b)
    requires IsPath(h, p)
    ensures IsPath(g, p)
  {
  }

  lemma SubgraphIsAcyclic(g: Graph, h: Graph)
    requires h.chain.Keys <= g.chain.Keys && forall a, b :: Edge(h, a, b) ==> Edge(g, a, b)
    requires Acyclic(g)
    ensures Acyclic(h)
  {
    forall a, b | Edge(h, a, b) ensures !Reaches(h, b, a) {
      if Reaches(h, b, a) {
        var p :| PathFromTo(h, p, b, a);
        SubgraphReaches(g, h, p);
        assert PathFromTo(g, p, b, a);
      }
    }
  }

  /** One more reference, from org to dest: a path that is new goes through it. */
  ghost predicate OneMoreEdge(g: Graph, h: Graph, org: Actor, dest: Actor) {
    && Closed(g) && org in g.chain && dest in g.chain && h.chain.Keys == g.chain.Keys
    && forall a, b :: Edge(h, a, b) <==> Edge(g, a, b) || (a == org && b == dest)
  }

  lemma {:induction false} NewPaths(g: Graph, h: Graph, org: Actor, dest: Actor, p: seq<Actor>)
    requires OneMoreEdge(g, h, org, dest) && IsPath(h, p)
    ensures Reaches(g, p[0], p[|p| - 1]) || (Reaches(g, p[0], org) && Reaches(g, dest, p[|p| - 1]))
    decreases |p|
  {
    if |p| == 1 {
      ReachesRefl(g, p[0]);
    } else {
      var q := p[1..];
      assert IsPath(h, q) by {
        forall k, l | 0 <= k && l == k + 1 && l < |q| ensures Edge(h, q[k], q[l]) {
          assert Edge(h, p[k + 1], p[l + 1]);
        }
      }
      NewPaths(g, h, org, dest, q);
      var last := p[|p| - 1];
      assert Edge(h, p[0], q[0]) && q[|q| - 1] == last;
      if Edge(g, p[0], q[0]) {
        EdgeReaches(g, p[0], q[0]);
        if Reaches(g, q[0], last) {
          ReachesTrans(g, p[0], q[0], last);
        } else {
          ReachesTrans(g, p[0], q[0], org);
        }
      } else {
        ReachesRefl(g, org);
      }
    }
  }

  /** A reference may be created exactly when it closes no cycle. */
  lemma AcyclicIffNotBack(g: Graph, h: Graph, org: Actor, dest: Actor)
    requires OneMoreEdge(g, h, org, dest) && Acyclic(g)
    ensures Acyclic(h) <==> !Reaches(g, dest, org)
  {
    if Reaches(g, dest, org) {
      var p :| PathFromTo(g, p, dest, org);
      SubgraphReaches(h, g, p);
      assert PathFromTo(h, p, dest, org) && Edge(h, org, dest);
    } else {
      forall a, b | Edge(h, a, b) ensures !Reaches(h, b, a) {
        if Reaches(h, b, a) {
          var p :| PathFromTo(h, p, b, a);
          NewPaths(g, h, org, dest, p);
          if Edge(g, a, b) {
            EdgeReaches(g, a, b);
            ReachesTrans(g, dest, a, b);
            ReachesTrans(g, dest, b, org);
          }
        }
      }
    }
  }

  // ---------- every operation keeps the table consistent ----------

  /** Removing the one reference with this identity: the rest keeps its order. */
  lemma {:induction false} WithoutRefSplits(s: seq<Reference>, id: nat) returns (k: nat)
    ensures k <= |s| && forall j :: 0 <= j < k ==> s[j].id != id
    ensures k < |s| ==> s[k].id == id && WithoutRef(s, id) == s[..k] + s[k + 1..]
    ensures k == |s| ==> WithoutRef(s, id) == s
  {
    if s == [] || s[0].id == id {
      k := 0;
    } else {
      var m := WithoutRefSplits(s[1..], id);
      k := m + 1;
      assert s == [s[0]] + s[1..];
      if m < |s[1..]| {
        assert s[..k] + s[k + 1..] == [s[0]] + (s[1..][..m] + s[1..][m + 1..]);
      }
    }
  }

  /** What object o needs before it can be chained and counted: live ends, and no cycle through a new reference. */
  ghost predicate CanAttach(t: Table, id: nat, o: RefObject) {
    && (id in t.objects ==> t.objects[id].owner.None? && t.objects[id].target.None?)
    && (o.target.Some? ==> o.target.value in t.g.chain)
    && (o.owner.Some? ==> && o.owner.value in t.g.chain && o.target.Some?
                          && (Edge(t.g, o.owner.value, o.target.value) || !Reaches(t.g, o.target.value, o.owner.value)))
  }

  lemma AttachMatches(t: Table, id: nat, o: RefObject)
    requires ChainsMatch(t) && t.g.fromCount.Keys == t.g.chain.Keys && CanAttach(t, id, o)
    ensures ChainsMatch(Attach(t, id, o))
  {
    hide Edge, Reaches;
    var u := Attach(t, id, o);
    forall b, i {:trigger u.g.chain[b][i]} | b in u.g.chain && 0 <= i < |u.g.chain[b]|
      ensures var r := u.g.chain[b][i];
              r.id in u.objects && u.objects[r.id].owner == Some(b) && u.objects[r.id].target == Some(r.dest) {
      if i < |t.g.chain[b]| {
        assert u.g.chain[b][i] == t.g.chain[b][i];
      }
    }
    forall k | k in u.objects && u.objects[k].owner.Some?
      ensures var q := u.objects[k];
              q.target.Some? && q.owner.value in u.g.chain && Reference(k, q.target.value) in u.g.chain[q.owner.value] {
      if k != id {
        assert Reference(k, t.objects[k].target.value) in t.g.chain[t.objects[k].owner.value];
      } else {
        assert u.g.chain[o.owner.value][|t.g.chain[o.owner.value]|] == Reference(id, o.target.value);
      }
    }
  }

  /** The new reference carries an identity no chain holds. */
  lemma AttachIds(t: Table, id: nat, o: RefObject)
    requires ChainsMatch(t) && UniqueIds(t.g) && Closed(t.g) && t.g.fromCount.Keys == t.g.chain.Keys &&
             CanAttach(t, id, o)
    ensures UniqueIds(Attach(t, id, o).g) && Closed(Attach(t, id, o).g)
  {
    hide Edge, Reaches;
    var g, h := t.g, Attach(t, id, o).g;
    forall a, i | a in g.chain && 0 <= i < |g.chain[a]| ensures g.chain[a][i].id != id {
      assert t.objects[g.chain[a][i].id].owner == Some(a);
    }
    hide ChainsMatch;
    forall a, i {:trigger h.chain[a][i]} | a in h.chain && 0 <= i < |h.chain[a]|
      ensures h.chain[a][i].dest in h.chain
      ensures i < |g.chain[a]| ==> h.chain[a][i] == g.chain[a][i] && h.chain[a][i].id != id
      ensures i >= |g.chain[a]| ==> i == |g.chain[a]| && o.owner == Some(a) && h.chain[a][i].id == id {
    }
  }

  lemma AttachCounts(t: Table, id: nat, o: RefObject)
    requires CountsMatch(t) && CanAttach(t, id, o)
    ensures CountsMatch(Attach(t, id, o))
  {
    hide Edge, Reaches;
    var u := Attach(t, id, o);
    assert u.g.fromCount.Keys == u.g.chain.Keys == t.g.chain.Keys;
    forall v | v in u.g.chain ensures u.g.fromCount[v] == |Holders(u, v)| {
      AttachHolders(t, id, o, v);
      assert t.g.fromCount[v] == |Holders(t, v)|;
    }
  }

  lemma AttachHolders(t: Table, id: nat, o: RefObject, v: Actor)
    requires t.g.fromCount.Keys == t.g.chain.Keys && CanAttach(t, id, o)
    ensures id !in Holders(t, v)
    ensures Holders(Attach(t, id, o), v) == if o.target == Some(v) then Holders(t, v) + {id} else Holders(t, v)
  {
    hide Edge, Reaches;
    assert Attach(t, id, o).objects == t.objects[id := o];
  }

  lemma AttachEdges(t: Table, id: nat, o: RefObject)
    requires t.g.fromCount.Keys == t.g.chain.Keys && CanAttach(t, id, o) && Closed(t.g) && o.owner.Some?
    ensures OneMoreEdge(t.g, Attach(t, id, o).g, o.owner.value, o.target.value)
  {
    hide Reaches;
    var a, d := o.owner.value, o.target.value;
    var g, h := t.g, Attach(t, id, o).g;
    var n := |g.chain[a]|;
    assert h.chain[a][..n] == g.chain[a] && h.chain[a][n].dest == d;
    forall x, y ensures Edge(h, x, y) <==> Edge(g, x, y) || (x == a && y == d) {
      if x == a && Edge(g, x, y) {
        var i :| 0 <= i < n && g.chain[x][i].dest == y;
        assert h.chain[x][i].dest == y;
      }
    }
  }

  /** A new or copied reference keeps the table consistent and its graph acyclic. */
  lemma AttachKeeps(t: Table, id: nat, o: RefObject)
    requires TableInv(t) && CanAttach(t, id, o)
    ensures TableInv(Attach(t, id, o))
  {
    AttachMatches(t, id, o);
    AttachIds(t, id, o);
    AttachCounts(t, id, o);
    hide ChainsMatch, CountsMatch, UniqueIds, Closed;
    var g, h := t.g, Attach(t, id, o).g;
    if o.owner.Some? {
      AttachEdges(t, id, o);
      if Edge(g, o.owner.value, o.target.value) {
        SubgraphIsAcyclic(g, h);
      } else {
        AcyclicIffNotBack(g, h, o.owner.value, o.target.value);
      }
    } else {
      SubgraphIsAcyclic(g, h);
    }
  }

  /** Chain a of h is that of t, without its k-th reference if a owned the object. */
  ghost predicate WithoutAt(t: Table, h: Graph, id: nat, k: nat, a: Actor)
    requires id in t.objects && a in t.g.chain && a in h.chain
  {
    var s := t.g.chain[a];
    if t.objects[id].owner == Some(a) then k < |s| && s[k].id == id && h.chain[a] == s[..k] + s[k + 1..]
    else h.chain[a] == s
  }

  /** Detaching takes one reference out of its owner's chain; every chain keeps the order of the rest. */
  lemma DetachedChains(t: Table, id: nat) returns (k: nat)
    requires ChainsMatch(t) && UniqueIds(t.g) && id in t.objects
    ensures Detach(t, id).g.chain.Keys == t.g.chain.Keys
    ensures forall a :: a in t.g.chain ==> WithoutAt(t, Detach(t, id).g, id, k, a)
  {
    var o := t.objects[id];
    k := 0;
    if o.owner.Some? {
      var s := t.g.chain[o.owner.value];
      k := WithoutRefSplits(s, id);
      assert Reference(id, o.target.value) in s;
    }
  }

  /** Where the reference at position i of chain a came from. */
  lemma DetachedAt(t: Table, id: nat, k: nat, a: Actor, i: nat) returns (j: nat)
    requires ChainsMatch(t) && UniqueIds(t.g) && id in t.objects && a in t.g.chain
    requires var h := Detach(t, id).g; a in h.chain && i < |h.chain[a]| && WithoutAt(t, h, id, k, a)
    ensures j < |t.g.chain[a]| && Detach(t, id).g.chain[a][i] == t.g.chain[a][j]
    ensures t.g.chain[a][j].id != id && j == if t.objects[id].owner == Some(a) && i >= k then i + 1 else i
  {
    j := if t.objects[id].owner == Some(a) && i >= k then i + 1 else i;
    assert t.objects[t.g.chain[a][j].id].owner == Some(a);
  }

  lemma DetachMatches(t: Table, id: nat)
    requires ChainsMatch(t) && UniqueIds(t.g) && Closed(t.g) && id in t.objects
    ensures ChainsMatch(Detach(t, id)) && UniqueIds(Detach(t, id).g) && Closed(Detach(t, id).g)
    ensures forall a, b :: Edge(Detach(t, id).g, a, b) ==> Edge(t.g, a, b)
    ensures Detach(t, id).g.chain.Keys == t.g.chain.Keys
  {
    var k := DetachedChains(t, id);
    var h, owner := Detach(t, id).g, t.objects[id].owner;
    assert CameFrom(t.g, h, owner, k, id) by {
      forall a, i {:trigger h.chain[a][i]} | a in h.chain && 0 <= i < |h.chain[a]|
        ensures var j := Origin(owner, k, a, i);
                j < |t.g.chain[a]| && h.chain[a][i] == t.g.chain[a][j] && h.chain[a][i].id != id {
        var j := DetachedAt(t, id, k, a, i);
      }
    }
    DetachedChained(t, id, k);
    hide WithoutAt;
    CameUnique(t.g, h, owner, k, id);
    CameEdges(t.g, h, owner, k, id);
    CameMatches(t, id, k);
    hide ChainsMatch, UniqueIds, Closed, Edge, CameFrom;
  }

  /** The position of a reference before the k-th one of the owner's chain was taken out. */
  function Origin(owner: Option<Actor>, k: nat, a: Actor, i: nat): nat {
    if owner == Some(a) && i >= k then i + 1 else i
  }

  /** Every reference of h is one of g, but not the one of this id. */
  ghost predicate CameFrom(g: Graph, h: Graph, owner: Option<Actor>, k: nat, id: nat) {
    && h.chain.Keys == g.chain.Keys
    && forall a, i {:trigger h.chain[a][i]} :: a in h.chain && 0 <= i < |h.chain[a]| ==>
         var j := Origin(owner, k, a, i);
         j < |g.chain[a]| && h.chain[a][i] == g.chain[a][j] && h.chain[a][i].id != id
  }

  lemma CameUnique(g: Graph, h: Graph, owner: Option<Actor>, k: nat, id: nat)
    requires CameFrom(g, h, owner, k, id) && UniqueIds(g)
    ensures UniqueIds(h)
  {
  }

  lemma CameEdges(g: Graph, h: Graph, owner: Option<Actor>, k: nat, id: nat)
    requires CameFrom(g, h, owner, k, id) && Closed(g)
    ensures Closed(h) && forall a, b :: Edge(h, a, b) ==> Edge(g, a, b)
  {
    forall a, b | Edge(h, a, b) ensures Edge(g, a, b) {
      var i :| 0 <= i < |h.chain[a]| && h.chain[a][i].dest == b;
      assert g.chain[a][Origin(owner, k, a, i)].dest == b;
    }
  }

  lemma CameMatches(t: Table, id: nat, k: nat)
    requires ChainsMatch(t) && id in t.objects && CameFrom(t.g, Detach(t, id).g, t.objects[id].owner, k, id)
    requires var h := Detach(t, id).g;
             forall q :: q in t.objects && q != id && t.objects[q].owner.Some? ==>
               var w := t.objects[q];
               w.target.Some? && w.owner.value in h.chain && Reference(q, w.target.value) in h.chain[w.owner.value]
    ensures ChainsMatch(Detach(t, id))
  {
    var n, h := Detach(t, id), Detach(t, id).g;
    assert n.objects == t.objects[id := t.objects[id].(owner := None, target := None)];
    hide Detach;
    forall a, i {:trigger h.chain[a][i]} | a in h.chain && 0 <= i < |h.chain[a]|
      ensures var r := h.chain[a][i];
              r.id in n.objects && n.objects[r.id].owner == Some(a) && n.objects[r.id].target == Some(r.dest) {
      var j := Origin(t.objects[id].owner, k, a, i);
      assert h.chain[a][i].id != id && a in t.g.chain && j < |t.g.chain[a]|;
      assert h.chain[a][i] == t.g.chain[a][j];
    }
  }

  /** Every object that still has an owner is still in its chain. */
  lemma DetachedChained(t: Table, id: nat, k: nat)
    requires ChainsMatch(t) && UniqueIds(t.g) && id in t.objects
    requires var h := Detach(t, id).g;
             h.chain.Keys == t.g.chain.Keys && forall a :: a in t.g.chain ==> WithoutAt(t, h, id, k, a)
    ensures var h := Detach(t, id).g;
            forall q :: q in t.objects && q != id && t.objects[q].owner.Some? ==>
              var w := t.objects[q];
              w.target.Some? && w.owner.value in h.chain && Reference(q, w.target.value) in h.chain[w.owner.value]
  {
    var g, h := t.g, Detach(t, id).g;
    var o := t.objects[id];
    hide Detach, UniqueIds;
    forall q | q in t.objects && q != id && t.objects[q].owner.Some?
      ensures var w := t.objects[q];
              w.target.Some? && w.owner.value in h.chain && Reference(q, w.target.value) in h.chain[w.owner.value] {
      var w := t.objects[q];
      var s := g.chain[w.owner.value];
      var i :| 0 <= i < |s| && s[i] == Reference(q, w.target.value);
      assert o.owner == w.owner ==> i != k;
      assert h.chain[w.owner.value][if o.owner == w.owner && i >= k then i - 1 else i] == s[i];
    }
  }

  lemma DetachCounts(t: Table, id: nat)
    requires CountsMatch(t) && id in t.objects
    ensures CountsMatch(Detach(t, id))
    ensures t.objects[id].target.Some? ==> t.g.fromCount[t.objects[id].target.value] > 0
  {
    var o, u := t.objects[id], Detach(t, id);
    if o.target.Some? {
      assert id in Holders(t, o.target.value);
      assert t.g.fromCount[o.target.value] == |Holders(t, o.target.value)|;
    }
    forall v | v in u.g.chain ensures u.g.fromCount[v] == |Holders(u, v)| {
      assert t.g.fromCount[v] == |Holders(t, v)|;
      assert Holders(u, v) == Holders(t, v) - {id};
    }
  }

  /** Unreferencing keeps the table consistent, and the counter it decrements is never zero. */
  lemma DetachKeeps(t: Table, id: nat)
    requires TableInv(t) && id in t.objects
    ensures TableInv(Detach(t, id))
    ensures t.objects[id].target.Some? ==> t.g.fromCount[t.objects[id].target.value] > 0
  {
    DetachMatches(t, id);
    DetachCounts(t, id);
    SubgraphIsAcyclic(t.g, Detach(t, id).g);
  }

  lemma DroppedKeeps(t: Table, id: nat)
    requires TableInv(t) && id in t.objects
    ensures TableInv(Dropped(t, id))
  {
    DetachKeeps(t, id);
    var d, u := Detach(t, id), Dropped(t, id);
    assert ChainsMatch(u);
    forall v | v in u.g.chain ensures u.g.fromCount[v] == |Holders(u, v)| {
      assert d.g.fromCount[v] == |Holders(d, v)|;
      assert Holders(u, v) == Holders(d, v);
    }
  }

  /** An unreferenced actor can go: what stays is consistent, and its leftover references keep their targets counted. */
  lemma RemovedKeeps(t: Table, a: Actor)
    requires TableInv(t) && a in t.g.chain && t.g.fromCount[a] == 0
    ensures TableInv(Removed(t, a))
  {
    var u := Removed(t, a);
    assert Holders(t, a) == {};
    forall id | id in t.objects ensures t.objects[id].target != Some(a) {
      assert id !in Holders(t, a);
    }
    assert ChainsMatch(u) && UniqueIds(u.g);
    forall b, i | b in u.g.chain && 0 <= i < |u.g.chain[b]| ensures u.g.chain[b][i].dest in u.g.chain {
      var r := t.g.chain[b][i];
      assert t.objects[r.id].target == Some(r.dest);
    }
    SubgraphIsAcyclic(t.g, u.g);
    forall v | v in u.g.chain ensures u.g.fromCount[v] == |Holders(u, v)| {
      assert t.g.fromCount[v] == |Holders(t, v)|;
      assert Holders(u, v) == Holders(t, v);
    }
  }

  lemma AddedKeeps(t: Table, a: Actor)
    requires TableInv(t) && a !in t.g.chain
    ensures TableInv(Added(t, a))
  {
    var u := Added(t, a);
    assert Holders(u, a) == {};
    assert ChainsMatch(u) && UniqueIds(u.g) && Closed(u.g);
    forall v | v in t.g.chain ensures u.g.fromCount[v] == |Holders(u, v)| {
      assert t.g.fromCount[v] == |Holders(t, v)|;
      assert Holders(u, v) == Holders(t, v);
    }
    forall x, y | Edge(u.g, x, y) ensures !Reaches(u.g, y, x) {
      assert Edge(t.g, x, y);
      if Reaches(u.g, y, x) {
        var p :| PathFromTo(u.g, p, y, x);
        assert IsPath(t.g, p) by {
          forall k, l | 0 <= k && l == k + 1 && l < |p| ensures Edge(t.g, p[k], p[l]) {
            assert Edge(u.g, p[k], p[l]);
          }
          forall k | 0 <= k < |p| ensures p[k] in t.g.chain {
            if k > 0 {
              assert Edge(t.g, p[k - 1], p[k]);
            }
          }
        }
        assert PathFromTo(t.g, p, y, x);
      }
    }
  }
}
