/**
 The life of the actors of one event loop: the running, destroyed and snapshot chains, the label (chainOf) every actor
 keeps of the chain it thinks it is in, and one round of the destruction loop.  Callbacks of actors
 (onDestroyRequest, destructors) are arbitrary scripts of the operations an actor may perform.
 */
module ActorLife {
  import opened Wrappers
  import opened RefGraph
  import opened References
  import opened Sequences

  /** Which chain an actor's own chain pointer names. */
  datatype Label = Running | Destroyed | Snapshot

  datatype Phase = Idle | Asking(who: Actor) | Deleting(who: Actor)

  datatype Life = Life(
    refs: Table,
    running: seq<Actor>, destroyed: seq<Actor>, snapshot: seq<Actor>,
    chainOf: map<Actor, Label>,
    onUnreferenced: set<Actor>,  // onUnreferencedDestroyFlag
    accepted: set<Actor>,        // m_DestroyRequestedFlag
    phase: Phase,
    ended: set<Actor>)           // the actors deleted so far; an actor identity is never used again

  datatype Op =
    | Request(a: Actor)
    | Accept(a: Actor)
    | New(a: Actor)
    | Create(id: nat, owner: Actor, target: Actor, destroyTarget: bool)
    | Copy(id: nat, other: nat)
    | Assign(id: nat, other: nat)
    | Drop(id: nat)

  /** What the actors do when they are asked to go, and while they are deleted. */
  datatype Behaviour = Behaviour(onRequest: Actor -> seq<Op>, destructor: Actor -> seq<Op>)

  // ---------- the operations ----------

  /** requestDestroy: the flag, and for an unreferenced actor the move from the chain its label names. */
  function Requested(l: Life, a: Actor): Life
    requires a in l.chainOf && a in l.refs.g.fromCount
  {
    var m := l.(onUnreferenced := l.onUnreferenced + {a});
    if l.refs.g.fromCount[a] == 0 && l.chainOf[a] != Destroyed then
      m.(running := if l.chainOf[a] == Running then Without(l.running, a) else l.running,
         snapshot := if l.chainOf[a] == Snapshot then Without(l.snapshot, a) else l.snapshot,
         destroyed := l.destroyed + [a],
         chainOf := l.chainOf[a := Destroyed])
    else m
  }

  /** unreference: the last reference to go may request the destruction of its target. */
  ghost function Unreferenced(l: Life, id: nat): (m: Life)
    requires id in l.refs.objects && l.chainOf.Keys == l.refs.g.chain.Keys && CountsMatch(l.refs)
    ensures m.refs == Detach(l.refs, id) && m.chainOf.Keys == l.chainOf.Keys
  {
    var o := l.refs.objects[id];
    var m := l.(refs := Detach(l.refs, id));
    if && o.target.Some? && m.refs.g.fromCount[o.target.value] == 0
       && (o.destroyTarget || o.target.value in l.onUnreferenced)
    then Requested(m, o.target.value) else m
  }

  /** The constructor of an actor: unreferenced, not to be destroyed, running. */
  function Born(l: Life, a: Actor): Life {
    l.(refs := Added(l.refs, a), running := l.running + [a], chainOf := l.chainOf[a := Running],
       onUnreferenced := l.onUnreferenced - {a}, accepted := l.accepted - {a})
  }

  /** The object is live, the new identity is fresh, and no reference to the actor being deleted is made. */
  predicate Enabled(l: Life, op: Op) {
    match op
    case Request(a) => a in l.chainOf
    case Accept(a) => a in l.chainOf
    case New(a) => a !in l.chainOf && a !in l.ended
    case Create(id, owner, target, _) => id !in l.refs.objects && owner in l.chainOf && target in l.chainOf &&
        l.phase != Deleting(target)
    case Copy(id, other) => id !in l.refs.objects && other in l.refs.objects
    case Assign(id, other) => id in l.refs.objects && other in l.refs.objects
    case Drop(id) => id in l.refs.objects
  }

  /** operator=: unreference first, then take what the other object holds by then. */
  ghost function Assigned(l: Life, id: nat, other: nat): Life
    requires id in l.refs.objects && other in l.refs.objects && l.chainOf.Keys == l.refs.g.chain.Keys &&
             TableInv(l.refs)
  {
    var m := Unreferenced(l, id);
    DetachKeeps(l.refs, id);
    CopyAttaches(m.refs, id, other);
    m.(refs := Attach(m.refs, id, m.refs.objects[other]))
  }

  ghost function Do(l: Life, op: Op): Life
    requires TableInv(l.refs) && l.chainOf.Keys == l.refs.g.chain.Keys && Enabled(l, op)
  {
    match op
    case Request(a) => Requested(l, a)
    case Accept(a) => l.(accepted := l.accepted + {a})
    case New(a) => Born(l, a)
    case Create(id, owner, target, destroyTarget) =>
      if Reaches(l.refs.g, target, owner) then l  // CircularReferenceException
      else l.(refs := Attach(l.refs, id, RefObject(destroyTarget, Some(owner), Some(target))))
    case Copy(id, other) =>
      CopyAttaches(l.refs, id, other);
      l.(refs := Attach(l.refs, id, l.refs.objects[other]))
    case Assign(id, other) => Assigned(l, id, other)
    case Drop(id) =>
      var m := Unreferenced(l, id);
      m.(refs := Dropped(l.refs, id))
  }

  /** A copy of a consistent object can always be chained and counted. */
  lemma CopyAttaches(t: Table, id: nat, other: nat)
    requires TableInv(t) && other in t.objects
    requires id in t.objects ==> t.objects[id].owner.None? && t.objects[id].target.None?
    ensures CanAttach(t, id, t.objects[other])
  {
    var o := t.objects[other];
    if o.owner.Some? {
      var s := t.g.chain[o.owner.value];
      var i :| 0 <= i < |s| && s[i] == Reference(other, o.target.value);
      assert Edge(t.g, o.owner.value, o.target.value);
    }
  }

  // ---------- the invariant ----------

  /** The actor whose callback runs is out of the snapshot's unread part; while it is asked its label is exact. */
  ghost predicate PhaseOk(l: Life) {
    match l.phase
    case Idle => forall a :: a in l.chainOf ==> l.chainOf[a] != Snapshot
    case Asking(a) =>
      && a in l.chainOf && (l.chainOf[a] == Snapshot ==> l.snapshot != [] && l.snapshot[0] == a)
      && (l.chainOf[a] == Destroyed ==> a in l.destroyed)
      && l.chainOf[a] != Running
      && forall b :: b in l.chainOf && l.chainOf[b] == Snapshot ==> b == a
    case Deleting(a) =>
      && a in l.chainOf && l.chainOf[a] == Destroyed && a !in l.destroyed && a !in l.snapshot
      && l.refs.g.chain.Keys == l.refs.g.fromCount.Keys && a in l.refs.g.chain && l.refs.g.fromCount[a] == 0
      && forall b :: b in l.chainOf ==> l.chainOf[b] != Snapshot
  }

  /** Every live actor but the one being deleted is in exactly one chain, although labels lag behind the swap. */
  ghost predicate Placed(l: Life) {
    && Distinct(l.running) && Distinct(l.destroyed) && Distinct(l.snapshot)
    && (forall a :: a in l.running <==> a in l.chainOf && l.chainOf[a] == Running)
    && (forall a :: a in l.destroyed ==> a in l.chainOf && l.chainOf[a] == Destroyed && a !in l.snapshot)
    && (forall a :: a in l.snapshot ==> a in l.chainOf && l.chainOf[a] != Running)
    && (forall a :: a in l.chainOf && l.chainOf[a] != Running && l.phase != Deleting(a) ==>
        a in l.destroyed || a in l.snapshot)
  }

  /** An unreferenced actor that is to go when unreferenced is queued. */
  ghost predicate Queued(l: Life) {
    && l.refs.g.fromCount.Keys == l.chainOf.Keys
    && forall a :: a in l.chainOf && a in l.onUnreferenced && l.refs.g.fromCount[a] == 0 ==> l.chainOf[a] == Destroyed
  }

  ghost predicate LifeInv(l: Life) {
    TableInv(l.refs) && l.chainOf.Keys == l.refs.g.chain.Keys && PhaseOk(l) && Placed(l) && Queued(l) &&
        l.chainOf.Keys !! l.ended
  }

  // ---------- every operation keeps it ----------

  /** Who is in which chain after a request that moves its actor. */
  lemma RequestedShape(l: Life, a: Actor)
    requires Placed(l) && a in l.chainOf && a in l.refs.g.fromCount && l.refs.g.fromCount[a] == 0 &&
             l.chainOf[a] != Destroyed
    ensures var m := Requested(l, a);
            && Distinct(m.running) && Distinct(m.destroyed) && Distinct(m.snapshot)
            && (forall b :: b in m.running <==> b in l.running && b != a)
            && (forall b :: b in m.destroyed <==> b in l.destroyed || b == a)
            && (forall b :: b in m.snapshot ==> b in l.snapshot)
            && (forall b :: b in l.snapshot ==> b in m.snapshot || b == a)
            && (l.chainOf[a] == Snapshot ==> a !in m.snapshot)
  {
    WithoutIs(l.running, a);
    WithoutIs(l.snapshot, a);
    assert a !in l.destroyed;
  }

  lemma RequestedPlaces(l: Life, a: Actor)
    requires Placed(l) && a in l.chainOf && a in l.refs.g.fromCount
    ensures Placed(Requested(l, a))
  {
    if l.refs.g.fromCount[a] == 0 && l.chainOf[a] != Destroyed {
      RequestedShape(l, a);
      hide Without, Distinct;
    }
  }

  /** The snapshot is left alone, but for its front, which may leave it while it is asked. */
  ghost predicate SnapshotFollows(l: Life, m: Life) {
    || m.snapshot == l.snapshot
    || (l.phase.Asking? && l.snapshot != [] && l.snapshot[0] == l.phase.who && m.snapshot == l.snapshot[1..])
  }

  lemma RequestedPhase(l: Life, a: Actor)
    requires Placed(l) && PhaseOk(l) && a in l.chainOf && a in l.refs.g.fromCount
    ensures PhaseOk(Requested(l, a))
    ensures SnapshotFollows(l, Requested(l, a))
  {
    if l.refs.g.fromCount[a] == 0 && l.chainOf[a] != Destroyed {
      RequestedShape(l, a);
      WithoutIs(l.snapshot, a);
      hide Without, Distinct;
    }
  }

  /** Every queued actor but a, which is about to be. */
  ghost predicate QueuedBut(l: Life, a: Actor) {
    && l.refs.g.fromCount.Keys == l.chainOf.Keys
    && forall b :: b in l.chainOf && b != a && b in l.onUnreferenced && l.refs.g.fromCount[b] == 0 ==>
        l.chainOf[b] == Destroyed
  }

  lemma RequestedQueues(l: Life, a: Actor)
    requires a in l.chainOf && QueuedBut(l, a)
    ensures var m := Requested(l, a);
            && Queued(m) && m.refs == l.refs && m.chainOf.Keys == l.chainOf.Keys && m.ended == l.ended &&
                a in m.onUnreferenced
  {
    hide Without;
  }

  lemma RequestedKeeps(l: Life, a: Actor)
    requires Placed(l) && PhaseOk(l) && TableInv(l.refs) && l.chainOf.Keys == l.refs.g.chain.Keys
    requires a in l.chainOf && l.chainOf.Keys !! l.ended
    requires QueuedBut(l, a)
    ensures LifeInv(Requested(l, a))
  {
    RequestedPlaces(l, a);
    RequestedPhase(l, a);
    RequestedQueues(l, a);
    hide Placed, PhaseOk, TableInv, Requested, Queued;
  }

  /** A change of the references that leaves the chains alone, raises no count to zero and keeps the actors. */
  ghost predicate OnlyRefs(l: Life, m: Life) {
    && m == l.(refs := m.refs) && m.refs.g.chain.Keys == l.refs.g.chain.Keys
    && TableInv(m.refs)
    && forall a :: l.phase == Deleting(a) && a in m.refs.g.fromCount ==> m.refs.g.fromCount[a] == 0
  }

  lemma OnlyRefsKeeps(l: Life, m: Life)
    requires Placed(l) && PhaseOk(l) && l.chainOf.Keys == l.refs.g.chain.Keys && OnlyRefs(l, m)
    ensures Placed(m) && PhaseOk(m) && m.chainOf.Keys == m.refs.g.chain.Keys == m.refs.g.fromCount.Keys
  {
    hide Distinct;
  }

  /** No count goes up from zero but that of the target: references are only made to it. */
  lemma AttachCount(t: Table, id: nat, o: RefObject, v: Actor)
    requires t.g.fromCount.Keys == t.g.chain.Keys && CanAttach(t, id, o) && v in t.g.fromCount
    ensures Attach(t, id, o).g.fromCount[v] == t.g.fromCount[v] + if o.target == Some(v) then 1 else 0
    ensures Attach(t, id, o).g.fromCount.Keys == t.g.fromCount.Keys && Attach(t, id, o).g.chain.Keys == t.g.chain.Keys
  {
  }

  /** An object that has a target is counted in it. */
  lemma TargetsAreCounted(t: Table, id: nat)
    requires CountsMatch(t) && id in t.objects && t.objects[id].target.Some?
    ensures t.objects[id].target.value in t.g.chain && t.g.fromCount[t.objects[id].target.value] > 0
  {
    var v := t.objects[id].target.value;
    assert id in Holders(t, v);
    assert t.g.fromCount[v] == |Holders(t, v)|;
  }

  lemma AttachingKeeps(l: Life, id: nat, o: RefObject)
    requires LifeInv(l) && CanAttach(l.refs, id, o) && (o.target.Some? ==> l.phase != Deleting(o.target.value))
    ensures LifeInv(l.(refs := Attach(l.refs, id, o)))
  {
    var m := l.(refs := Attach(l.refs, id, o));
    AttachKeeps(l.refs, id, o);
    forall v | v in l.chainOf
      ensures m.refs.g.fromCount.Keys == l.chainOf.Keys
      ensures m.refs.g.fromCount[v] == l.refs.g.fromCount[v] + if o.target == Some(v) then 1 else 0 {
      AttachCount(l.refs, id, o, v);
    }
    hide TableInv, Attach, CanAttach, Placed;
    assert OnlyRefs(l, m);
    OnlyRefsKeeps(l, m);
  }

  /** The counter of every actor after one object has been unreferenced. */
  lemma DetachCount(t: Table, id: nat, v: Actor)
    requires CountsMatch(t) && id in t.objects && v in t.g.fromCount
    ensures Detach(t, id).g.fromCount.Keys == t.g.fromCount.Keys
    ensures Detach(t, id).g.fromCount[v] + (if t.objects[id].target == Some(v) then 1 else 0) == t.g.fromCount[v]
  {
    if t.objects[id].target.Some? {
      TargetsAreCounted(t, id);
    }
  }

  lemma UnreferencedKeeps(l: Life, id: nat)
    requires LifeInv(l) && id in l.refs.objects
    ensures LifeInv(Unreferenced(l, id))
  {
    var o := l.refs.objects[id];
    var m := l.(refs := Detach(l.refs, id));
    DetachKeeps(l.refs, id);
    DetachMatches(l.refs, id);
    forall v | v in l.chainOf
      ensures m.refs.g.fromCount.Keys == l.chainOf.Keys
      ensures m.refs.g.fromCount[v] + (if o.target == Some(v) then 1 else 0) == l.refs.g.fromCount[v] {
      DetachCount(l.refs, id, v);
    }
    if o.target.Some? {
      TargetsAreCounted(l.refs, id);
    }
    hide TableInv, Placed, Detach;
    assert OnlyRefs(l, m);
    OnlyRefsKeeps(l, m);
    if o.target.Some? && m.refs.g.fromCount[o.target.value] == 0 &&
        (o.destroyTarget || o.target.value in l.onUnreferenced) {
      assert QueuedBut(m, o.target.value);
      RequestedKeeps(m, o.target.value);
    } else {
      assert Queued(m);
    }
  }

  lemma AssignedKeeps(l: Life, id: nat, other: nat)
    requires LifeInv(l) && id in l.refs.objects && other in l.refs.objects
    ensures LifeInv(Assigned(l, id, other))
  {
    UnreferencedKeeps(l, id);
    var m := Unreferenced(l, id);
    DetachKeeps(l.refs, id);
    CopyAttaches(m.refs, id, other);
    NoneTargetsTheDying(m, other);
    hide Unreferenced, LifeInv;
    AttachingKeeps(m, id, m.refs.objects[other]);
  }

  lemma NoneTargetsTheDying(l: Life, id: nat)
    requires LifeInv(l) && id in l.refs.objects
    ensures var o := l.refs.objects[id]; o.target.Some? ==> l.phase != Deleting(o.target.value)
  {
    if l.refs.objects[id].target.Some? {
      TargetsAreCounted(l.refs, id);
    }
  }

  /** Of the references only the graph matters to the chains and the queue. */
  lemma GraphDecides(m: Life, n: Life)
    requires LifeInv(m) && TableInv(n.refs) && n == m.(refs := n.refs) && n.refs.g == m.refs.g
    ensures LifeInv(n)
  {
    hide TableInv, Distinct;
  }

  lemma DroppingKeeps(l: Life, id: nat)
    requires LifeInv(l) && id in l.refs.objects
    ensures LifeInv(Unreferenced(l, id).(refs := Dropped(l.refs, id)))
  {
    UnreferencedKeeps(l, id);
    DroppedKeeps(l.refs, id);
    var m := Unreferenced(l, id);
    var n := m.(refs := Dropped(l.refs, id));
    assert n.refs.g == m.refs.g && LifeInv(m);
    hide Unreferenced, TableInv;
    assert n == m.(refs := n.refs);
    GraphDecides(m, n);
  }

  lemma AddingKeeps(l: Life, a: Actor)
    requires LifeInv(l) && a !in l.chainOf && a !in l.ended
    ensures LifeInv(Born(l, a))
  {
    AddedKeeps(l.refs, a);
    hide TableInv, Placed, PhaseOk, Queued;
    BornPlaced(l, a);
    BornQueued(l, a);
    assert Added(l.refs, a).g.chain.Keys == l.refs.g.chain.Keys + {a};
  }

  lemma BornPlaced(l: Life, a: Actor)
    requires Placed(l) && PhaseOk(l) && a !in l.chainOf
    ensures Placed(Born(l, a)) && PhaseOk(Born(l, a))
  {
    assert a !in l.running;
    assert forall b :: b in Born(l, a).running <==> b in l.running || b == a;
    assert Distinct(Born(l, a).running);
    hide Distinct;
  }

  lemma BornQueued(l: Life, a: Actor)
    requires Queued(l) && a !in l.chainOf
    ensures Queued(Born(l, a))
  {
  }

  /** Whatever an actor does, every live actor stays in exactly one chain and no unreferenced one is forgotten. */
  lemma DoKeeps(l: Life, op: Op)
    requires LifeInv(l) && Enabled(l, op)
    ensures LifeInv(Do(l, op))
  {
    match op
    case Request(a) => RequestedKeeps(l, a);
    case Accept(a) =>
      hide TableInv, Distinct;
      assert LifeInv(l.(accepted := l.accepted + {a}));
    case New(a) =>
      hide LifeInv;
      AddingKeeps(l, a);
    case Create(id, owner, target, destroyTarget) =>
      if !Reaches(l.refs.g, target, owner) {
        assert CanAttach(l.refs, id, RefObject(destroyTarget, Some(owner), Some(target)));
        hide LifeInv;
        AttachingKeeps(l, id, RefObject(destroyTarget, Some(owner), Some(target)));
      }
    case Copy(id, other) =>
      CopyAttaches(l.refs, id, other);
      NoneTargetsTheDying(l, other);
      hide LifeInv;
      AttachingKeeps(l, id, l.refs.objects[other]);
    case Assign(id, other) =>
      hide LifeInv;
      AssignedKeeps(l, id, other);
    case Drop(id) =>
      hide LifeInv;
      DroppingKeeps(l, id);
  }

  // ---------- what letting go of a reference does ----------

  /** It is the last one, its target is not queued, and the reference or an earlier request wants it gone. */
  predicate Frees(l: Life, id: nat, v: Actor) {
    && LastWanted(l, id, v) && v in l.chainOf && l.chainOf[v] != Destroyed
  }

  predicate LastWanted(l: Life, id: nat, v: Actor) {
    && id in l.refs.objects && l.refs.objects[id].target == Some(v)
    && v in l.refs.g.fromCount && l.refs.g.fromCount[v] == 1
    && (l.refs.objects[id].destroyTarget || v in l.onUnreferenced)
  }

  predicate SameChains(l: Life, m: Life) {
    m.running == l.running && m.destroyed == l.destroyed && m.snapshot == l.snapshot && m.chainOf == l.chainOf
  }

  /** v leaves the chain it is in for the end of the destroyed one; all others stay where they are. */
  ghost predicate MovesToDestroyed(l: Life, m: Life, v: Actor) {
    && m.destroyed == l.destroyed + [v] && m.chainOf == l.chainOf[v := Destroyed] && v in m.onUnreferenced
    && (forall b :: b in m.running <==> b in l.running && b != v)
    && (forall b :: b in m.snapshot <==> b in l.snapshot && b != v)
  }

  /** The effect on the target: it moves iff it is freed; if it is queued already only its flag is raised. */
  ghost predicate LetsGo(l: Life, m: Life, id: nat)
    requires id in l.refs.objects
  {
    match l.refs.objects[id].target
    case None => SameChains(l, m) && m.onUnreferenced == l.onUnreferenced
    case Some(v) =>
      && (Frees(l, id, v) ==> MovesToDestroyed(l, m, v))
      && (!Frees(l, id, v) ==> SameChains(l, m))
      && m.onUnreferenced == (if LastWanted(l, id, v) then l.onUnreferenced + {v} else l.onUnreferenced)
  }

  lemma RequestMoves(l: Life, a: Actor)
    requires Placed(l) && a in l.chainOf && a in l.refs.g.fromCount && l.refs.g.fromCount[a] == 0
    requires l.chainOf[a] != Destroyed
    ensures MovesToDestroyed(l, Requested(l, a), a)
  {
    RequestedShape(l, a);
    hide Without, Distinct;
  }

  lemma UnreferencedLetsGo(l: Life, id: nat)
    requires LifeInv(l) && id in l.refs.objects
    ensures LetsGo(l, Unreferenced(l, id), id)
  {
    if l.refs.objects[id].target.Some? {
      TargetLetsGo(l, id, l.refs.objects[id].target.value);
      hide LifeInv, LetsGo;
    }
  }

  lemma TargetLetsGo(l: Life, id: nat, v: Actor)
    requires LifeInv(l) && id in l.refs.objects && l.refs.objects[id].target == Some(v)
    ensures LetsGo(l, Unreferenced(l, id), id)
  {
    CountDrops(l, id, v);
    PlacedHere(l);
    hide LifeInv, Without, Detach;
    var m := l.(refs := Detach(l.refs, id));
    assert Placed(m) by { hide Distinct; }
    if LastWanted(l, id, v) {
      if l.chainOf[v] != Destroyed {
        RequestMoves(m, v);
        MovesAlike(l, m, Requested(m, v), v);
        hide MovesToDestroyed;
      }
    }
    hide Placed;
  }

  lemma MovesAlike(l: Life, m: Life, n: Life, v: Actor)
    requires SameChains(l, m) && MovesToDestroyed(m, n, v)
    ensures MovesToDestroyed(l, n, v)
  {
  }

  lemma PlacedHere(l: Life)
    requires LifeInv(l)
    ensures Placed(l) && l.chainOf.Keys == l.refs.g.chain.Keys && CountsMatch(l.refs)
  {
    hide Placed, PhaseOk, Queued;
  }

  /** The counter of the target. */
  lemma CountDrops(l: Life, id: nat, v: Actor)
    requires LifeInv(l) && id in l.refs.objects && l.refs.objects[id].target == Some(v)
    ensures v in l.chainOf && v in l.refs.g.fromCount && l.refs.g.fromCount[v] > 0
    ensures v in Detach(l.refs, id).g.fromCount && Detach(l.refs, id).g.fromCount[v] + 1 == l.refs.g.fromCount[v]
  {
    hide Placed, PhaseOk, Queued, WithoutRef;
    TargetsAreCounted(l.refs, id);
  }

  // ---------- scripts ----------

  /** Runs a script; an operation that its caller could not perform is skipped. */
  ghost function RunScript(l: Life, ops: seq<Op>): Life
    requires LifeInv(l)
    decreases |ops|
  {
    if ops == [] then l
    else if Enabled(l, ops[0]) then
      DoKeeps(l, ops[0]);
      RunScript(Do(l, ops[0]), ops[1..])
    else RunScript(l, ops[1..])
  }

  /** What no script can do: touch the unread snapshot, end an actor, change the phase. */
  ghost predicate Follows(l: Life, m: Life) {
    LifeInv(m) && Goes(l, m)
  }

  ghost predicate Goes(l: Life, m: Life) {
    m.phase == l.phase && l.chainOf.Keys <= m.chainOf.Keys && m.ended == l.ended && SnapshotFollows(l, m)
  }

  lemma DoFollows(l: Life, op: Op)
    requires LifeInv(l) && Enabled(l, op)
    ensures Follows(l, Do(l, op))
  {
    DoKeeps(l, op);
    DoGoes(l, op);
    hide LifeInv, Do;
  }

  lemma DoGoes(l: Life, op: Op)
    requires LifeInv(l) && Enabled(l, op)
    ensures Goes(l, Do(l, op))
  {
    match op
    case Request(a) =>
      KeysAgree(l);
      RequestFollows(l, a);
      hide TableInv, Placed, PhaseOk;
    case Assign(id, other) =>
      UnreferenceFollows(l, id);
      hide Unreferenced, TableInv, Placed, PhaseOk;
    case Drop(id) =>
      UnreferenceFollows(l, id);
      hide Unreferenced, TableInv, Placed, PhaseOk;
    case Create(_, _, _, _) => hide TableInv, Placed, PhaseOk;
    case Copy(_, _) => hide TableInv, Placed, PhaseOk;
    case New(_) => hide TableInv, Placed, PhaseOk;
    case Accept(_) => hide TableInv, Placed, PhaseOk;
  }

  lemma RequestFollows(l: Life, a: Actor)
    requires Placed(l) && PhaseOk(l) && a in l.chainOf && a in l.refs.g.fromCount
    ensures Goes(l, Requested(l, a))
  {
    RequestedPhase(l, a);
    hide Without, Placed, PhaseOk;
  }

  lemma UnreferenceFollows(l: Life, id: nat)
    requires LifeInv(l) && id in l.refs.objects
    ensures Goes(l, Unreferenced(l, id))
  {
    var o := l.refs.objects[id];
    var m := l.(refs := Detach(l.refs, id));
    if o.target.Some? {
      TargetsAreCounted(l.refs, id);
      DetachKeeps(l.refs, id);
      DetachMatches(l.refs, id);
      OnlyRefsKeeps(l, m);
      RequestFollows(m, o.target.value);
    }
  }

  lemma {:induction false} ScriptFollows(l: Life, ops: seq<Op>)
    requires LifeInv(l)
    ensures Follows(l, RunScript(l, ops))
    decreases |ops|
  {
    if ops != [] {
      if Enabled(l, ops[0]) {
        DoKeeps(l, ops[0]);
        DoFollows(l, ops[0]);
        ScriptFollows(Do(l, ops[0]), ops[1..]);
        ScriptShift(l, Do(l, ops[0]), RunScript(l, ops));
      } else {
        ScriptFollows(l, ops[1..]);
      }
    }
  }

  /** The front leaves the snapshot at most once, however many steps follow each other. */
  lemma ScriptShift(l: Life, m: Life, n: Life)
    requires LifeInv(l) && Follows(l, m) && Follows(m, n)
    ensures Follows(l, n)
  {
    if |l.snapshot| > 1 {
      assert l.snapshot[0] != l.snapshot[1];
    }
  }

  // ---------- the destruction loop ----------

  /**
   The front of the snapshot is asked: its label follows it, and an unreferenced actor starts with both flags down.
   */
  function Picked(l: Life): Life
    requires l.snapshot != [] && l.snapshot[0] in l.refs.g.fromCount
  {
    var a := l.snapshot[0];
    var m := l.(chainOf := l.chainOf[a := Snapshot], phase := Asking(a));
    if l.refs.g.fromCount[a] == 0 then m.(onUnreferenced := l.onUnreferenced - {a}, accepted := l.accepted - {a}) else m
  }

  /** After the callback: accepted, and not referenced back in the meantime. */
  predicate Doomed(l: Life, a: Actor)
    requires a in l.refs.g.fromCount
  {
    a in l.accepted && l.refs.g.fromCount[a] == 0
  }

  /** Out of the chain its label names, and labelled so that no request made by its destructor moves it. */
  function Unchained(l: Life, a: Actor): Life
    requires a in l.chainOf
  {
    l.(snapshot := if l.chainOf[a] == Snapshot then Without(l.snapshot, a) else l.snapshot,
       destroyed := if l.chainOf[a] == Destroyed then Without(l.destroyed, a) else l.destroyed,
       chainOf := l.chainOf[a := Destroyed], phase := Deleting(a))
  }

  /** The end of the destructor: the references still chained lose their owner. */
  function Gone(l: Life, a: Actor): Life {
    l.(refs := Removed(l.refs, a), chainOf := map b | b in l.chainOf && b != a :: l.chainOf[b],
       onUnreferenced := l.onUnreferenced - {a}, accepted := l.accepted - {a}, phase := Idle, ended := l.ended + {a})
  }

  /** The actor stays: back to running, unless its callback queued it again. */
  function Spared(l: Life, a: Actor): Life
    requires a in l.chainOf
  {
    if l.chainOf[a] == Snapshot && l.snapshot != [] then
      l.(snapshot := l.snapshot[1..], running := l.running + [a], chainOf := l.chainOf[a := Running], phase := Idle)
    else l.(phase := Idle)
  }

  lemma KeysAgree(l: Life)
    requires LifeInv(l)
    ensures l.chainOf.Keys == l.refs.g.fromCount.Keys
  {
    hide TableInv, Placed, PhaseOk;
  }

  lemma FrontIsLive(l: Life)
    requires LifeInv(l) && l.snapshot != []
    ensures l.snapshot[0] in l.chainOf && l.snapshot[0] in l.refs.g.fromCount
  {
    assert l.snapshot[0] in l.snapshot;
  }

  lemma PickedKeeps(l: Life)
    requires LifeInv(l) && l.phase.Idle? && l.snapshot != []
    ensures LifeInv(Picked(l))
  {
    hide TableInv, Placed, PhaseOk, Queued;
    FrontIsLive(l);
    PickedPlaced(l);
    PickedQueued(l);
  }

  lemma PickedPlaced(l: Life)
    requires Placed(l) && PhaseOk(l) && l.phase.Idle? && l.snapshot != [] && l.snapshot[0] in l.refs.g.fromCount
    ensures Placed(Picked(l)) && PhaseOk(Picked(l))
  {
    hide Distinct;
    var a := l.snapshot[0];
    assert a in l.snapshot && a !in l.destroyed;
  }

  lemma PickedQueued(l: Life)
    requires Queued(l) && l.snapshot != [] && l.snapshot[0] in l.chainOf
    ensures Queued(Picked(l))
  {
  }

  lemma UnchainedShape(l: Life, a: Actor)
    requires Placed(l) && PhaseOk(l) && l.phase == Asking(a)
    ensures var m := Unchained(l, a);
            && Distinct(m.snapshot) && Distinct(m.destroyed)
            && m.snapshot == (if l.chainOf[a] == Snapshot then l.snapshot[1..] else l.snapshot)
            && (forall b :: b in m.destroyed <==> b in l.destroyed && b != a)
            && (forall b :: b in m.snapshot <==> b in l.snapshot && b != a)
  {
    WithoutIs(l.snapshot, a);
    WithoutIs(l.destroyed, a);
  }

  lemma UnchainedKeeps(l: Life, a: Actor)
    requires LifeInv(l) && l.phase == Asking(a) && Doomed(l, a)
    ensures LifeInv(Unchained(l, a))
    ensures Unchained(l, a).snapshot == if l.chainOf[a] == Snapshot then l.snapshot[1..] else l.snapshot
  {
    hide TableInv, Without, PhaseOk, Placed, Queued, Distinct;
    AskedIsLive(l, a);
    UnchainedShape(l, a);
    UnchainedPlaced(l, a);
    UnchainedPhase(l, a);
    UnchainedQueued(l, a);
  }

  lemma UnchainedQueued(l: Life, a: Actor)
    requires Queued(l) && a in l.chainOf
    ensures Queued(Unchained(l, a))
  {
    hide Without;
  }

  lemma UnchainedPlaced(l: Life, a: Actor)
    requires Placed(l) && PhaseOk(l) && l.phase == Asking(a)
    ensures Placed(Unchained(l, a))
  {
    UnchainedShape(l, a);
    hide Distinct, Without, PhaseOk;
    OutOfTwoChains(l, Unchained(l, a), a);
    hide Placed;
  }

  lemma OutOfTwoChains(l: Life, m: Life, a: Actor)
    requires Placed(l) && a in l.chainOf && l.chainOf[a] != Running && l.phase == Asking(a) && m.phase == Deleting(a)
    requires m.chainOf == l.chainOf[a := Destroyed] && m.running == l.running
    requires Distinct(m.destroyed) && forall b :: b in m.destroyed <==> b in l.destroyed && b != a
    requires Distinct(m.snapshot) && forall b :: b in m.snapshot <==> b in l.snapshot && b != a
    ensures Placed(m)
  {
    hide Distinct;
    forall b | b in m.chainOf && m.chainOf[b] != Running && m.phase != Deleting(b)
      ensures b in m.destroyed || b in m.snapshot {
      assert b in l.chainOf && l.chainOf[b] != Running;
    }
  }

  lemma UnchainedPhase(l: Life, a: Actor)
    requires PhaseOk(l) && Placed(l) && Queued(l) && l.phase == Asking(a) && Doomed(l, a) &&
             l.chainOf.Keys == l.refs.g.chain.Keys
    ensures PhaseOk(Unchained(l, a))
  {
    UnchainedShape(l, a);
    hide Distinct, Without, Placed;
  }

  lemma GoneKeeps(l: Life, a: Actor)
    requires LifeInv(l) && l.phase == Deleting(a)
    ensures LifeInv(Gone(l, a))
  {
    hide TableInv, Placed, PhaseOk, Queued;
    DyingIsFree(l, a);
    RemovedKeeps(l.refs, a);
    GonePlaced(l, a);
    GoneQueued(l, a);
    assert Gone(l, a).refs.g.chain.Keys == l.refs.g.chain.Keys - {a};
  }

  lemma DyingIsFree(l: Life, a: Actor)
    requires LifeInv(l) && l.phase == Deleting(a)
    ensures a in l.chainOf && a in l.refs.g.chain && a in l.refs.g.fromCount && l.refs.g.fromCount[a] == 0
  {
    hide TableInv, Placed, Queued;
  }

  lemma GonePlaced(l: Life, a: Actor)
    requires Placed(l) && PhaseOk(l) && l.phase == Deleting(a)
    ensures Placed(Gone(l, a)) && PhaseOk(Gone(l, a))
  {
    hide Distinct, Removed;
    assert a !in l.running;
  }

  lemma GoneQueued(l: Life, a: Actor)
    requires Queued(l)
    ensures Queued(Gone(l, a))
  {
    assert Removed(l.refs, a).g.fromCount.Keys == l.refs.g.fromCount.Keys - {a};
  }

  lemma SparedShape(l: Life, a: Actor)
    requires Placed(l) && PhaseOk(l) && l.phase == Asking(a) && l.chainOf[a] == Snapshot
    ensures var m := Spared(l, a);
            && Distinct(m.snapshot) && Distinct(m.running) && m.destroyed == l.destroyed &&
                m.snapshot == l.snapshot[1..]
            && (forall b :: b in m.running <==> b in l.running || b == a)
            && (forall b :: b in m.snapshot <==> b in l.snapshot && b != a)
  {
    WithoutIs(l.snapshot, a);
    assert a !in l.running;
    assert forall b :: b in l.running + [a] <==> b in l.running || b == a;
  }

  lemma SparedKeeps(l: Life, a: Actor)
    requires LifeInv(l) && l.phase == Asking(a)
    ensures LifeInv(Spared(l, a))
    ensures Spared(l, a).snapshot == if l.chainOf[a] == Snapshot then l.snapshot[1..] else l.snapshot
  {
    hide TableInv, Placed, PhaseOk, Queued;
    AskedIsLive(l, a);
    SparedPlaced(l, a);
    SparedPhase(l, a);
    SparedQueued(l, a);
  }

  lemma AskedIsLive(l: Life, a: Actor)
    requires LifeInv(l) && l.phase == Asking(a)
    ensures a in l.chainOf && l.chainOf[a] != Running &&
            (l.chainOf[a] == Snapshot ==> l.snapshot != [] && l.snapshot[0] == a)
  {
    hide TableInv, Placed, Queued;
  }

  lemma SparedEnds(l: Life, a: Actor)
    requires a in l.chainOf
    ensures var m := Spared(l, a); m.phase.Idle? && m.chainOf.Keys == l.chainOf.Keys && m.ended == l.ended
  {
  }

  lemma SparedQueued(l: Life, a: Actor)
    requires Queued(l) && a in l.chainOf && l.chainOf[a] != Running
    ensures Queued(Spared(l, a))
  {
  }

  lemma SparedPhase(l: Life, a: Actor)
    requires PhaseOk(l) && l.phase == Asking(a)
    ensures PhaseOk(Spared(l, a))
  {
  }

  lemma SparedPlaced(l: Life, a: Actor)
    requires Placed(l) && PhaseOk(l) && l.phase == Asking(a)
    ensures Placed(Spared(l, a))
  {
    if l.chainOf[a] == Snapshot {
      SparedShape(l, a);
      hide Distinct;
      var m := Spared(l, a);
      assert m.chainOf == l.chainOf[a := Running] && m.phase == Idle;
      hide Spared;
    } else {
      hide Distinct;
    }
  }

  /** One turn of the loop. */
  ghost function Turn(l: Life, b: Behaviour): (m: Life)
    requires LifeInv(l) && l.phase.Idle? && l.snapshot != []
  {
    var a := l.snapshot[0];
    PickedKeeps(l);
    var asked := if l.refs.g.fromCount[a] == 0 then RunScript(Picked(l), b.onRequest(a)) else Picked(l);
    ScriptFollows(Picked(l), b.onRequest(a));
    if l.refs.g.fromCount[a] == 0 && Doomed(asked, a) then
      UnchainedKeeps(asked, a);
      Gone(RunScript(Unchained(asked, a), b.destructor(a)), a)
    else Spared(asked, a)
  }

  /** What a turn does to the rest: it takes one actor off the snapshot, and ends none but that one. */
  lemma TurnKeeps(l: Life, b: Behaviour)
    requires LifeInv(l) && l.phase.Idle? && l.snapshot != []
    ensures var m := Turn(l, b);
            && LifeInv(m) && m.phase.Idle? && m.snapshot == l.snapshot[1..]
            && l.chainOf.Keys + l.ended <= m.chainOf.Keys + m.ended && l.ended <= m.ended <= l.ended + {l.snapshot[0]}
  {
    hide LifeInv, Unchained, Spared, Gone;
    var a := l.snapshot[0];
    FrontIsLive(l);
    PickedKeeps(l);
    var asked := if l.refs.g.fromCount[a] == 0 then RunScript(Picked(l), b.onRequest(a)) else Picked(l);
    ScriptFollows(Picked(l), b.onRequest(a));
    AskedFront(l, asked);
    AskedIsLive(asked, a);
    KeysAgree(asked);
    SparedEnds(asked, a);
    if l.refs.g.fromCount[a] == 0 && Doomed(asked, a) {
      DeletionKeeps(asked, a, b.destructor(a));
    } else {
      SparedKeeps(asked, a);
    }
    hide RunScript;
  }

  /** Out of its chain, its destructor, and gone. */
  lemma DeletionKeeps(l: Life, a: Actor, destructor: seq<Op>)
    requires LifeInv(l) && l.phase == Asking(a) && a in l.refs.g.fromCount && Doomed(l, a)
    ensures a in l.chainOf && LifeInv(Unchained(l, a))
    ensures var m := Gone(RunScript(Unchained(l, a), destructor), a);
            && LifeInv(m) && m.phase.Idle?
            && m.snapshot == (if l.chainOf[a] == Snapshot then l.snapshot[1..] else l.snapshot)
            && l.chainOf.Keys + l.ended <= m.chainOf.Keys + m.ended && m.ended == l.ended + {a}
  {
    AskedIsLive(l, a);
    UnchainedKeeps(l, a);
    hide LifeInv, RunScript, Without;
    ScriptFollows(Unchained(l, a), destructor);
    GoneKeeps(RunScript(Unchained(l, a), destructor), a);
  }

  /** While the front is asked it is still in the snapshot exactly when its label says so. */
  lemma AskedFront(l: Life, asked: Life)
    requires LifeInv(l) && l.phase.Idle? && l.snapshot != [] && Follows(Picked(l), asked)
    ensures var a := l.snapshot[0];
            a in asked.chainOf && asked.snapshot == if asked.chainOf[a] == Snapshot then l.snapshot else l.snapshot[1..]
  {
    hide TableInv;
    var a := l.snapshot[0];
    WithoutIs(l.snapshot, a);
    assert a in l.snapshot;
  }

  /** The loop: it ends because nothing a callback does adds to the snapshot. */
  ghost function Drained(l: Life, b: Behaviour): Life
    requires LifeInv(l) && l.phase.Idle?
    decreases |l.snapshot|
  {
    if l.snapshot == [] then l
    else
      TurnKeeps(l, b);
      Drained(Turn(l, b), b)
  }

  /** One round: the destroyed chain becomes the snapshot, labels unchanged. */
  function Swapped(l: Life): Life {
    l.(snapshot := l.destroyed, destroyed := l.snapshot)
  }

  ghost function Round(l: Life, b: Behaviour): Life
    requires LifeInv(l) && l.phase.Idle? && l.snapshot == []
  {
    SwappedKeeps(l);
    Drained(Swapped(l), b)
  }

  lemma SwappedKeeps(l: Life)
    requires LifeInv(l) && l.phase.Idle? && l.snapshot == []
    ensures LifeInv(Swapped(l))
  {
    hide TableInv, Distinct;
  }

  /** After the loop the invariant holds again, the snapshot is empty and every actor has ended or is still live. */
  lemma {:induction false} DrainedKeeps(l: Life, b: Behaviour)
    requires LifeInv(l) && l.phase.Idle?
    ensures var m := Drained(l, b);
            && LifeInv(m) && m.phase.Idle? && m.snapshot == []
            && l.chainOf.Keys + l.ended <= m.chainOf.Keys + m.ended && l.ended <= m.ended
    decreases |l.snapshot|
  {
    if l.snapshot != [] {
      TurnKeeps(l, b);
      DrainedKeeps(Turn(l, b), b);
      hide LifeInv, Turn;
    }
  }

  lemma RoundKeeps(l: Life, b: Behaviour)
    requires LifeInv(l) && l.phase.Idle? && l.snapshot == []
    ensures var m := Round(l, b);
            && LifeInv(m) && m.phase.Idle? && m.snapshot == []
            && l.chainOf.Keys + l.ended <= m.chainOf.Keys + m.ended && l.ended <= m.ended
  {
    SwappedKeeps(l);
    DrainedKeeps(Swapped(l), b);
    hide LifeInv;
  }

  // ---------- who is deleted ----------

  /** Only acceptDestroy raises the flag the destruction loop asks for. */
  lemma DoAccepts(l: Life, op: Op, a: Actor)
    requires LifeInv(l) && Enabled(l, op) && a !in l.accepted && op != Accept(a)
    ensures a !in Do(l, op).accepted
  {
    match op
    case Assign(id, other) => UnreferenceAccepts(l, id);
    case Drop(id) => UnreferenceAccepts(l, id);
    case _ => hide LifeInv, Without;
  }

  lemma UnreferenceAccepts(l: Life, id: nat)
    requires LifeInv(l) && id in l.refs.objects
    ensures Unreferenced(l, id).accepted == l.accepted
  {
    hide Without;
    if l.refs.objects[id].target.Some? {
      TargetsAreCounted(l.refs, id);
    }
    hide LifeInv;
  }

  lemma {:induction false} NotAccepted(l: Life, ops: seq<Op>, a: Actor)
    requires LifeInv(l) && a !in l.accepted && Accept(a) !in ops
    ensures a !in RunScript(l, ops).accepted
    decreases |ops|
  {
    if ops != [] {
      assert forall op :: op in ops[1..] ==> op in ops;
      if Enabled(l, ops[0]) {
        DoKeeps(l, ops[0]);
        DoAccepts(l, ops[0], a);
        NotAccepted(Do(l, ops[0]), ops[1..], a);
      } else {
        NotAccepted(l, ops[1..], a);
      }
    }
    hide LifeInv, Do;
  }

  lemma TurnEndsAccepted(l: Life, b: Behaviour)
    requires LifeInv(l) && l.phase.Idle? && l.snapshot != []
    ensures var a := l.snapshot[0];
            Turn(l, b).ended != l.ended ==> Accept(a) in b.onRequest(a) && l.refs.g.fromCount[a] == 0
  {
    hide LifeInv, Without;
    var a := l.snapshot[0];
    FrontIsLive(l);
    PickedKeeps(l);
    ScriptFollows(Picked(l), b.onRequest(a));
    if l.refs.g.fromCount[a] == 0 && Accept(a) !in b.onRequest(a) {
      NotAccepted(Picked(l), b.onRequest(a), a);
    }
    hide RunScript;
  }

  lemma {:induction false} DrainedEndsAccepted(l: Life, b: Behaviour, a: Actor)
    requires LifeInv(l) && l.phase.Idle? && a in Drained(l, b).ended && a !in l.ended
    ensures a in l.snapshot && Accept(a) in b.onRequest(a)
    decreases |l.snapshot|
  {
    var m := Turn(l, b);
    TurnKeeps(l, b);
    TurnEndsAccepted(l, b);
    if a !in m.ended {
      DrainedEndsAccepted(m, b, a);
      assert a in l.snapshot[1..];
    }
    hide LifeInv, Turn;
  }

  /** A round deletes only actors that were queued when it began and that accepted when they were asked. */
  lemma OnlyAcceptedEnd(l: Life, b: Behaviour, a: Actor)
    requires LifeInv(l) && l.phase.Idle? && l.snapshot == [] && a in Round(l, b).ended && a !in l.ended
    ensures a in l.destroyed && Accept(a) in b.onRequest(a)
  {
    SwappedKeeps(l);
    DrainedEndsAccepted(Swapped(l), b, a);
  }

  /** A reference never dangles: its target is live, and knows it is referenced. */
  lemma NoDanglingReference(l: Life, id: nat)
    requires LifeInv(l) && id in l.refs.objects && l.refs.objects[id].target.Some?
    ensures var v := l.refs.objects[id].target.value; v in l.chainOf && v !in l.ended && l.refs.g.fromCount[v] > 0
  {
    TargetsAreCounted(l.refs, id);
  }

  // ---------- callbacks that make no references ----------

  predicate MakesNoReference(ops: seq<Op>) {
    forall op :: op in ops ==> !op.Create? && !op.Copy? && !op.Assign?
  }

  /** Live and unreferenced, and it stays so. */
  ghost predicate Free(l: Life, a: Actor) {
    a in l.chainOf && a in l.refs.g.fromCount && l.refs.g.fromCount[a] == 0
  }

  lemma DoStaysFree(l: Life, op: Op, a: Actor)
    requires LifeInv(l) && Enabled(l, op) && Free(l, a) && !op.Create? && !op.Copy? && !op.Assign?
    ensures Free(Do(l, op), a) && (a in l.accepted || op == Accept(a) ==> a in Do(l, op).accepted)
  {
    match op
    case Request(v) => hide LifeInv, Without;
    case Accept(v) => hide LifeInv;
    case New(v) => hide LifeInv;
    case Drop(id) =>
      DetachCount(l.refs, id, a);
      UnreferenceFollows(l, id);
      if l.refs.objects[id].target.Some? {
        TargetsAreCounted(l.refs, id);
      }
      hide LifeInv, Without;
  }

  lemma {:induction false} ScriptStaysFree(l: Life, ops: seq<Op>, a: Actor)
    requires LifeInv(l) && Free(l, a) && MakesNoReference(ops)
    ensures Free(RunScript(l, ops), a)
    ensures a in l.accepted || Accept(a) in ops ==> a in RunScript(l, ops).accepted
    decreases |ops|
  {
    if ops != [] {
      assert ops[0] in ops && forall op :: op in ops[1..] ==> op in ops;
      if Enabled(l, ops[0]) {
        DoKeeps(l, ops[0]);
        DoStaysFree(l, ops[0], a);
        ScriptStaysFree(Do(l, ops[0]), ops[1..], a);
      } else {
        ScriptStaysFree(l, ops[1..], a);
      }
      hide LifeInv, Free, Do;
    }
  }

  ghost predicate Quiet(b: Behaviour) {
    forall a :: MakesNoReference(b.onRequest(a)) && MakesNoReference(b.destructor(a))
  }

  /** The turn of another actor leaves a free actor free; its own turn deletes it if it accepts. */
  lemma TurnOfFree(l: Life, b: Behaviour, a: Actor)
    requires LifeInv(l) && l.phase.Idle? && l.snapshot != [] && Quiet(b) && Free(l, a)
    ensures a != l.snapshot[0] ==> Free(Turn(l, b), a)
    ensures a == l.snapshot[0] && Accept(a) in b.onRequest(a) ==> a in Turn(l, b).ended
  {
    hide LifeInv, Without;
    var f := l.snapshot[0];
    FrontIsLive(l);
    PickedKeeps(l);
    ScriptFollows(Picked(l), b.onRequest(f));
    ScriptStaysFree(Picked(l), b.onRequest(f), a);
    var asked := if l.refs.g.fromCount[f] == 0 then RunScript(Picked(l), b.onRequest(f)) else Picked(l);
    KeysAgree(asked);
    assert Free(asked, a);
    if l.refs.g.fromCount[f] == 0 && Doomed(asked, f) {
      UnchainedKeeps(asked, f);
      var dying := Unchained(asked, f);
      ScriptStaysFree(dying, b.destructor(f), a);
    }
    hide RunScript;
  }

  /** The state in which the turn of a queued actor comes. */
  ghost function AtTurn(l: Life, b: Behaviour, a: Actor): (m: Life)
    requires LifeInv(l) && l.phase.Idle? && a in l.snapshot
    ensures LifeInv(m) && m.phase.Idle? && m.snapshot != [] && m.snapshot[0] == a
    decreases |l.snapshot|
  {
    if l.snapshot[0] == a then l
    else
      TurnKeeps(l, b);
      AtTurn(Turn(l, b), b, a)
  }

  /** The front is asked, accepts, and is not referenced again by then. */
  ghost predicate EndsNow(l: Life, b: Behaviour)
    requires LifeInv(l) && l.phase.Idle? && l.snapshot != []
  {
    var a := l.snapshot[0];
    FrontIsLive(l);
    PickedKeeps(l);
    ScriptFollows(Picked(l), b.onRequest(a));
    KeysAgree(RunScript(Picked(l), b.onRequest(a)));
    l.refs.g.fromCount[a] == 0 && Doomed(RunScript(Picked(l), b.onRequest(a)), a)
  }

  lemma TurnEndsIff(l: Life, b: Behaviour)
    requires LifeInv(l) && l.phase.Idle? && l.snapshot != []
    ensures var a := l.snapshot[0]; a in l.chainOf && a !in l.ended && (a in Turn(l, b).ended <==> EndsNow(l, b))
  {
    hide LifeInv, Unchained, Spared, Gone;
    var a := l.snapshot[0];
    FrontIsLive(l);
    LiveNotEnded(l, a);
    PickedKeeps(l);
    ScriptFollows(Picked(l), b.onRequest(a));
    var asked := if l.refs.g.fromCount[a] == 0 then RunScript(Picked(l), b.onRequest(a)) else Picked(l);
    AskedIsLive(asked, a);
    SparedEnds(asked, a);
    if EndsNow(l, b) {
      UnchainedKeeps(asked, a);
      GoneEnds(RunScript(Unchained(asked, a), b.destructor(a)), a);
    }
    hide RunScript;
  }

  lemma GoneEnds(l: Life, a: Actor)
    ensures a in Gone(l, a).ended
  {
  }

  lemma LiveNotEnded(l: Life, a: Actor)
    requires LifeInv(l) && a in l.chainOf
    ensures a !in l.ended
  {
    hide TableInv, Placed, PhaseOk, Queued;
  }

  lemma FrontOnlyOnce(l: Life)
    requires LifeInv(l) && l.snapshot != []
    ensures l.snapshot[0] !in l.snapshot[1..]
  {
    hide TableInv, PhaseOk, Queued;
  }

  lemma {:induction false} DrainedEndsIff(l: Life, b: Behaviour, a: Actor)
    requires LifeInv(l) && l.phase.Idle? && a in l.snapshot && a !in l.ended
    ensures a in Drained(l, b).ended <==> EndsNow(AtTurn(l, b, a), b)
    decreases |l.snapshot|
  {
    var m := Turn(l, b);
    TurnKeeps(l, b);
    TurnEndsIff(l, b);
    FrontOnlyOnce(l);
    DrainedKeeps(m, b);
    hide LifeInv, Turn, EndsNow;
    if a != l.snapshot[0] {
      assert a in l.snapshot[1..];
      DrainedEndsIff(m, b, a);
    } else if a in Drained(m, b).ended && a !in m.ended {
      DrainedEndsAccepted(m, b, a);
    }
  }

  /** Whatever the callbacks do, a round deletes exactly the queued actors that end when their turn comes. */
  lemma EndsIff(l: Life, b: Behaviour, a: Actor)
    requires LifeInv(l) && l.phase.Idle? && l.snapshot == [] && a in l.chainOf
    ensures LifeInv(Swapped(l))
    ensures a in Round(l, b).ended <==> a in l.destroyed && EndsNow(AtTurn(Swapped(l), b, a), b)
  {
    SwappedKeeps(l);
    assert a !in l.ended;
    hide LifeInv, EndsNow;
    if a in l.destroyed {
      DrainedEndsIff(Swapped(l), b, a);
    } else if a in Round(l, b).ended {
      OnlyAcceptedEnd(l, b, a);
    }
  }

  lemma QuietEndsNow(l: Life, b: Behaviour)
    requires LifeInv(l) && l.phase.Idle? && l.snapshot != [] && Quiet(b)
    ensures EndsNow(l, b) <==> Free(l, l.snapshot[0]) && Accept(l.snapshot[0]) in b.onRequest(l.snapshot[0])
  {
    var a := l.snapshot[0];
    FrontIsLive(l);
    PickedKeeps(l);
    hide LifeInv;
    if l.refs.g.fromCount[a] == 0 {
      if Accept(a) in b.onRequest(a) {
        ScriptStaysFree(Picked(l), b.onRequest(a), a);
      } else {
        NotAccepted(Picked(l), b.onRequest(a), a);
      }
    }
    hide RunScript;
  }

  lemma {:induction false} FreeAtTurn(l: Life, b: Behaviour, a: Actor)
    requires LifeInv(l) && l.phase.Idle? && Quiet(b) && Free(l, a) && a in l.snapshot
    ensures Free(AtTurn(l, b, a), a)
    decreases |l.snapshot|
  {
    if a != l.snapshot[0] {
      TurnKeeps(l, b);
      TurnOfFree(l, b, a);
      assert a in l.snapshot[1..];
      FreeAtTurn(Turn(l, b), b, a);
    }
    hide LifeInv, Turn, Quiet;
  }

  /**
   When no callback makes references, a round deletes exactly the queued actors that accept and are unreferenced when
   their turn comes, whether they were so when the round began or were freed by the turns before.
   */
  lemma QueuedAndAcceptingEnd(l: Life, b: Behaviour, a: Actor)
    requires LifeInv(l) && l.phase.Idle? && l.snapshot == [] && Quiet(b) && a in l.chainOf
    ensures LifeInv(Swapped(l))
    ensures a in Round(l, b).ended <==>
              a in l.destroyed && Accept(a) in b.onRequest(a) && Free(AtTurn(Swapped(l), b, a), a)
    ensures a in l.destroyed && Free(l, a) ==> Free(AtTurn(Swapped(l), b, a), a)
  {
    EndsIff(l, b, a);
    hide LifeInv, Quiet;
    if a in l.destroyed {
      QuietEndsNow(AtTurn(Swapped(l), b, a), b);
      if Free(l, a) {
        FreeAtTurn(Swapped(l), b, a);
      }
    }
    hide Free, EndsNow;
  }

  // ---------- whole lives ----------

  /** Between two rounds the actors of the loop run any script. */
  datatype Episode = Working(ops: seq<Op>) | Cleaning(b: Behaviour)

  function Start(): Life {
    Life(Table(Graph(map[], map[]), map[]), [], [], [], map[], {}, {}, Idle, {})
  }

  ghost predicate AtRest(l: Life) {
    LifeInv(l) && l.phase.Idle? && l.snapshot == []
  }

  ghost function Lived(l: Life, e: Episode): Life
    requires AtRest(l)
  {
    match e
    case Working(ops) => RunScript(l, ops)
    case Cleaning(b) => Round(l, b)
  }

  ghost predicate LifeTo(story: seq<Episode>, l: Life)
    decreases |story|
  {
    if story == [] then l == Start()
    else exists m :: LifeTo(story[..|story| - 1], m) && AtRest(m) && l == Lived(m, story[|story| - 1])
  }

  lemma {:induction false} EveryLifeIsSound(story: seq<Episode>, l: Life)
    requires LifeTo(story, l)
    ensures AtRest(l)
    ensures forall a ::
              a in l.chainOf && a in l.onUnreferenced && a in l.refs.g.fromCount && l.refs.g.fromCount[a] == 0 ==>
              a in l.destroyed
    ensures forall a :: a in l.chainOf ==> (a in l.running) != (a in l.destroyed)
    decreases |story|
  {
    if story == [] {
      StartIsSound();
    } else {
      var e := story[|story| - 1];
      var m :| LifeTo(story[..|story| - 1], m) && AtRest(m) && l == Lived(m, e);
      match e
      case Working(ops) => ScriptFollows(m, ops);
      case Cleaning(b) => RoundKeeps(m, b);
    }
    RestMeans(l);
    hide LifeInv, LifeTo;
  }

  /** Outside the loop every live actor is running or queued, never both, and no unreferenced one is forgotten. */
  lemma RestMeans(l: Life)
    requires AtRest(l)
    ensures forall a ::
              a in l.chainOf && a in l.onUnreferenced && a in l.refs.g.fromCount && l.refs.g.fromCount[a] == 0 ==>
              a in l.destroyed
    ensures forall a :: a in l.chainOf ==> (a in l.running) != (a in l.destroyed)
  {
    hide TableInv, Distinct;
  }

  lemma StartIsSound()
    ensures AtRest(Start())
  {
    assert forall v, w :: !Edge(Start().refs.g, v, w);
  }
}
