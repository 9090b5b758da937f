/**
 The event loop's side of actor destruction, as it runs: the reference objects and actor chains are changed step
 by step, and every method is tied to the operation on Life it performs.
 */
module EventLoop {
  import opened Sequences
  import opened Wrappers
  import opened RefGraph
  import opened References
  import opened ActorLife

  class Loop {
    var chain: map<Actor, seq<Reference>>
    var fromCount: map<Actor, nat>
    var objects: map<nat, RefObject>
    var running: seq<Actor>
    var destroyed: seq<Actor>
    var snapshot: seq<Actor>
    var chainOf: map<Actor, Label>
    var onUnreferenced: set<Actor>
    var accepted: set<Actor>
    var phase: Phase       // whose callback runs
    var ended: set<Actor>  // history

    function View(): Life
      reads this
    {
      Life(Table(Graph(chain, fromCount), objects), running, destroyed, snapshot, chainOf, onUnreferenced, accepted,
          phase, ended)
    }

    constructor ()
      ensures View() == Start()
    {
      chain, fromCount, objects := map[], map[], map[];
      running, destroyed, snapshot, chainOf := [], [], [], map[];
      onUnreferenced, accepted, phase, ended := {}, {}, Idle, {};
    }

    method RequestDestroy(a: Actor)
      requires a in chainOf && a in fromCount
      modifies `onUnreferenced, `running, `destroyed, `snapshot, `chainOf
      ensures View() == Requested(old(View()), a)
      ensures old(LifeInv(View())) ==> LifeInv(View())
      ensures onUnreferenced == old(onUnreferenced) + {a}
      ensures fromCount[a] == 0 && old(chainOf)[a] != Destroyed && old(LifeInv(View())) ==>
                MovesToDestroyed(old(View()), View(), a)
      ensures fromCount[a] != 0 || old(chainOf)[a] == Destroyed ==> SameChains(old(View()), View())
    {
      RequestKeepsInv(View(), a);
      RequestMovesHere(View(), a);
      hide LifeInv, MovesToDestroyed;
      onUnreferenced := onUnreferenced + {a};
      if fromCount[a] == 0 && chainOf[a] != Destroyed {
        LeaveChain(a);
        destroyed := destroyed + [a];
        chainOf := chainOf[a := Destroyed];
      }
    }

    /** chain->remove(this): the chain is the one the label names. */
    method LeaveChain(a: Actor)
      requires a in chainOf
      modifies `running, `destroyed, `snapshot
      ensures running == if chainOf[a] == Label.Running then Without(old(running), a) else old(running)
      ensures destroyed == if chainOf[a] == Destroyed then Without(old(destroyed), a) else old(destroyed)
      ensures snapshot == if chainOf[a] == Snapshot then Without(old(snapshot), a) else old(snapshot)
    {
      match chainOf[a]
      case Running => running := Without(running, a);
      case Destroyed => destroyed := Without(destroyed, a);
      case Snapshot => snapshot := Without(snapshot, a);
    }

    /** push_back on the owner's chain and one more count in the target. */
    method Link(id: nat, o: RefObject)
      requires fromCount.Keys == chain.Keys
      requires o.owner.Some? ==> o.owner.value in chain && o.target.Some?
      requires o.target.Some? ==> o.target.value in chain
      modifies `chain, `fromCount, `objects
      ensures View() == old(View()).(refs := Attach(old(View()).refs, id, o))
    {
      if o.owner.Some? {
        chain := chain[o.owner.value := chain[o.owner.value] + [Reference(id, o.target.value)]];
      }
      if o.target.Some? {
        fromCount := fromCount[o.target.value := fromCount[o.target.value] + 1];
      }
      objects := objects[id := o];
    }

    /** Creating a reference: refused, with nothing changed, exactly when the owner is reached from the target. */
    method CreateReference(id: nat, owner: Actor, target: Actor, destroyTarget: bool) returns (refused: bool)
      requires LifeInv(View()) && Enabled(View(), Create(id, owner, target, destroyTarget))
      modifies this
      ensures refused <==> Reaches(old(View()).refs.g, target, owner)
      ensures View() == Do(old(View()), Create(id, owner, target, destroyTarget))
      ensures LifeInv(View())
      ensures !refused ==> id in objects && objects[id] == RefObject(destroyTarget, Some(owner), Some(target))
      ensures !refused ==> target in fromCount && fromCount[target] == old(fromCount)[target] + 1
    {
      DoKeeps(View(), Create(id, owner, target, destroyTarget));
      refused := RecursiveFind(Graph(chain, fromCount), owner, target);
      if !refused {
        Link(id, RefObject(destroyTarget, Some(owner), Some(target)));
      }
    }

    method CopyReference(id: nat, other: nat)
      requires LifeInv(View()) && Enabled(View(), Copy(id, other))
      modifies this
      ensures View() == Do(old(View()), Copy(id, other)) && LifeInv(View())
      ensures id in objects && objects[id] == old(objects)[other]
    {
      DoKeeps(View(), Copy(id, other));
      CopyAttaches(View().refs, id, other);
      Link(id, objects[other]);
    }

    /** Out of the owner's chain and of the target's count. */
    method Unlink(id: nat)
      requires id in objects && (objects[id].owner.Some? ==> objects[id].owner.value in chain)
      requires objects[id].target.Some? ==>
               objects[id].target.value in fromCount && fromCount[objects[id].target.value] > 0
      modifies `chain, `fromCount, `objects
      ensures View() == old(View()).(refs := Detach(old(View()).refs, id))
    {
      var o := objects[id];
      hide WithoutRef;
      if o.owner.Some? {
        chain := chain[o.owner.value := WithoutRef(chain[o.owner.value], id)];
      }
      if o.target.Some? {
        assert fromCount[o.target.value] > 0;
        fromCount := fromCount[o.target.value := fromCount[o.target.value] - 1];
      }
      objects := objects[id := o.(owner := None, target := None)];
    }

    method Unreference(id: nat)
      requires LifeInv(View()) && id in objects
      modifies this
      ensures View() == Unreferenced(old(View()), id) && LifeInv(View())
      ensures LetsGo(old(View()), View(), id)
      ensures id in objects && objects[id] == RefObject(old(objects)[id].destroyTarget, None, None)
      ensures forall v :: old(objects)[id].target == Some(v) ==>
                v in old(fromCount) && v in fromCount && fromCount[v] + 1 == old(fromCount)[v]
    {
      UnreferencedLetsGo(View(), id);
      if objects[id].target.Some? {
        CountDrops(View(), id, objects[id].target.value);
      }
      UnreferencedKeeps(View(), id);
      KeysAgree(View());
      var o := objects[id];
      if o.target.Some? {
        TargetsAreCounted(View().refs, id);
      }
      if o.owner.Some? {
        OwnerIsLive(View(), id);
      }
      hide LifeInv, Detach, Requested;
      Unlink(id);
      if && o.target.Some? && fromCount[o.target.value] == 0
         && (o.destroyTarget || o.target.value in onUnreferenced) {
        RequestDestroy(o.target.value);
      }
    }

    /** Assignment: what the other object holds is read after this one has let go, so a self-assignment ends empty. */
    method AssignReference(id: nat, other: nat)
      requires LifeInv(View()) && id in objects && other in objects
      modifies this
      ensures View() == Assigned(old(View()), id, other) && LifeInv(View())
      ensures LetsGo(old(View()), View(), id)
      ensures id in objects
      ensures objects[id] == if id == other then RefObject(old(objects)[id].destroyTarget, None, None)
                             else old(objects)[other]
    {
      AssignedKeeps(View(), id, other);
      DetachKeeps(View().refs, id);
      Unreference(id);
      CopyAttaches(View().refs, id, other);
      Link(id, objects[other]);
    }

    method DropReference(id: nat)
      requires LifeInv(View()) && id in objects
      modifies this
      ensures View() == Do(old(View()), Drop(id)) && LifeInv(View())
      ensures LetsGo(old(View()), View(), id) && id !in objects
    {
      DropIs(View(), id);
      hide LifeInv, LetsGo, Unreferenced, Do;
      Unreference(id);
      objects := map i | i in objects && i != id :: objects[i];
    }

    method NewActor(a: Actor)
      requires LifeInv(View()) && Enabled(View(), New(a))
      modifies this
      ensures View() == Born(old(View()), a) && LifeInv(View())
    {
      hide LifeInv;
      AddingKeeps(View(), a);
      chain, fromCount := chain[a := []], fromCount[a := 0];
      onUnreferenced, accepted := onUnreferenced - {a}, accepted - {a};
      running, chainOf := running + [a], chainOf[a := Label.Running];
    }

    method Perform(op: Op)
      requires LifeInv(View()) && Enabled(View(), op)
      modifies this
      ensures View() == Do(old(View()), op) && LifeInv(View())
    {
      DoKeeps(View(), op);
      match op
      case Request(a) => RequestDestroy(a);
      case Accept(a) => accepted := accepted + {a};
      case New(a) => NewActor(a);
      case Create(id, owner, target, destroyTarget) => var _ := CreateReference(id, owner, target, destroyTarget);
      case Copy(id, other) => CopyReference(id, other);
      case Assign(id, other) => AssignReference(id, other);
      case Drop(id) => DropReference(id);
    }

    method PerformAll(ops: seq<Op>)
      requires LifeInv(View())
      modifies this
      ensures View() == RunScript(old(View()), ops) && LifeInv(View())
    {
      hide LifeInv, Do;
      for i := 0 to |ops|
        invariant LifeInv(View()) && RunScript(View(), ops[i..]) == RunScript(old(View()), ops)
      {
        assert ops[i..][1..] == ops[i + 1..];
        if Enabled(View(), ops[i]) {
          Perform(ops[i]);
        }
      }
    }

    // ---------- the destruction loop ----------

    /** The rest of the destructor: no reference is left in, and those still chained here lose their owner. */
    method EndActor(a: Actor)
      requires LifeInv(View()) && phase == Deleting(a)
      modifies this
      ensures View() == Gone(old(View()), a) && LifeInv(View())
    {
      hide LifeInv, ChainsMatch, UniqueIds, Less, Released;
      GoneKeeps(View(), a);
      DyingIsFree(View(), a);
      ChainsAreSound(View());
      GoneIs(View(), a);
      hide Gone;
      assert fromCount[a] == 0;
      UnchainAll(a);
      LessUpdated(old(chain), a, []);
      chain, fromCount, chainOf := Less(chain, a), Less(fromCount, a), Less(chainOf, a);
      onUnreferenced, accepted, phase, ended := onUnreferenced - {a}, accepted - {a}, Idle, ended + {a};
    }

    method UnchainAll(a: Actor)
      requires ChainsMatch(View().refs) && UniqueIds(View().refs.g) && a in chain
      modifies `chain, `objects
      ensures chain == old(chain)[a := []] && objects == Released(old(objects), a, [])
    {
      ghost var was, s := View().refs, chain[a];
      ghost var n := 0;
      ReleasedNone(was, a);
      hide ChainsMatch, UniqueIds, Released;
      while chain[a] != []
        invariant n <= |s| && a in chain && chain[a] == s[n..]
        invariant chain == was.g.chain[a := s[n..]] && objects == Released(was.objects, a, s[n..])
        decreases |chain[a]|
      {
        var front := chain[a][0];
        ReleasedNext(was, a, n);
        assert objects[front.id].owner == Some(a);
        chain := chain[a := chain[a][1..]];
        objects := objects[front.id := objects[front.id].(owner := None)];
        n := n + 1;
      }
    }

    /** The front of the snapshot is asked, if nothing refers to it. */
    method Ask(b: Behaviour) returns (unreferenced: bool)
      requires LifeInv(View()) && phase.Idle? && snapshot != []
      modifies this
      ensures old(snapshot[0]) in old(fromCount) && unreferenced == (old(fromCount)[old(snapshot[0])] == 0)
      ensures LifeInv(Picked(old(View()))) && LifeInv(View()) && phase == Asking(old(snapshot[0]))
      ensures View() == if unreferenced then RunScript(Picked(old(View())), b.onRequest(old(snapshot[0])))
                        else Picked(old(View()))
    {
      hide LifeInv, RunScript;
      var a := snapshot[0];
      FrontIsLive(View());
      PickedKeeps(View());
      ScriptFollows(Picked(View()), b.onRequest(a));
      unreferenced := fromCount[a] == 0;
      chainOf := chainOf[a := Snapshot];
      phase := Asking(a);
      if unreferenced {
        onUnreferenced, accepted := onUnreferenced - {a}, accepted - {a};
        assert View() == Picked(old(View()));
        PerformAll(b.onRequest(a));
      }
    }

    /** The actor accepted: out of its chain, and its destructor runs. */
    method Delete(a: Actor, destructor: seq<Op>)
      requires LifeInv(View()) && phase == Asking(a) && a in fromCount && Doomed(View(), a)
      modifies this
      ensures a in old(chainOf) && LifeInv(Unchained(old(View()), a))
      ensures View() == Gone(RunScript(Unchained(old(View()), a), destructor), a)
    {
      hide LifeInv, RunScript, Without, Removed, Gone, Doomed;
      AskedIsLive(View(), a);
      UnchainedKeeps(View(), a);
      LeaveChain(a);
      chainOf := chainOf[a := Destroyed];
      phase := Deleting(a);
      assert View() == Unchained(old(View()), a);
      ScriptFollows(View(), destructor);
      PerformAll(destructor);
      EndActor(a);
    }

    /**
     One actor of the snapshot: asked, and then deleted, returned to running, or left where it queued itself again.
     */
    method TakeTurn(b: Behaviour)
      requires LifeInv(View()) && phase.Idle? && snapshot != []
      modifies this
      ensures View() == Turn(old(View()), b)
    {
      hide LifeInv, RunScript, Without, Removed, Gone;
      var a := snapshot[0];
      FrontIsLive(View());
      var unreferenced := Ask(b);
      KeysAgree(View());
      AskedIsLive(View(), a);
      if unreferenced && a in accepted && fromCount[a] == 0 {
        Delete(a, b.destructor(a));
      } else if chainOf[a] == Snapshot {
        assert a == snapshot[0];
        snapshot, running := snapshot[1..], running + [a];
        chainOf := chainOf[a := Label.Running];
        phase := Idle;
      } else {
        assert chainOf[a] == Destroyed;
        phase := Idle;
      }
    }

    method SynchronizeDestroyActors(b: Behaviour)
      requires AtRest(View())
      modifies this
      ensures View() == Round(old(View()), b) && AtRest(View())
    {
      SwappedKeeps(View());
      hide LifeInv, Turn;
      if destroyed != [] {
        snapshot, destroyed := destroyed, snapshot;
        assert View() == Swapped(old(View()));
        while snapshot != []
          invariant LifeInv(View()) && phase.Idle? && Drained(View(), b) == Round(old(View()), b)
          decreases |snapshot|
        {
          FrontWaits(View());
          assert chainOf[snapshot[0]] == Destroyed;
          TurnKeeps(View(), b);
          TakeTurn(b);
        }
      }
    }
  }

  /** What becomes of the table does not matter. */
  lemma LetsGoAlike(l: Life, m: Life, n: Life, id: nat)
    requires id in l.refs.objects && LetsGo(l, m, id) && n == m.(refs := n.refs)
    ensures LetsGo(l, n, id)
  {
  }

  /** The destructor of a reference unreferences, and the object is no more. */
  lemma DropIs(l: Life, id: nat)
    requires LifeInv(l) && id in l.refs.objects
    ensures var m, n := Unreferenced(l, id), Do(l, Drop(id));
            && n == m.(refs := m.refs.(objects := map i | i in m.refs.objects && i != id :: m.refs.objects[i]))
            && LifeInv(n) && LetsGo(l, n, id)
  {
    DoKeeps(l, Drop(id));
    UnreferencedLetsGo(l, id);
    hide LifeInv, LetsGo;
    LetsGoAlike(l, Unreferenced(l, id), Do(l, Drop(id)), id);
    hide Unreferenced;
  }

  lemma RequestKeepsInv(l: Life, a: Actor)
    requires a in l.chainOf && a in l.refs.g.fromCount
    ensures LifeInv(l) ==> LifeInv(Requested(l, a))
  {
    hide TableInv, Placed, PhaseOk, Queued;
    if LifeInv(l) {
      DoKeeps(l, Request(a));
    }
  }

  lemma RequestMovesHere(l: Life, a: Actor)
    requires a in l.chainOf && a in l.refs.g.fromCount
    ensures LifeInv(l) && l.refs.g.fromCount[a] == 0 && l.chainOf[a] != Destroyed ==>
              MovesToDestroyed(l, Requested(l, a), a)
  {
    if LifeInv(l) && l.refs.g.fromCount[a] == 0 && l.chainOf[a] != Destroyed {
      RequestMoves(l, a);
    }
    hide MovesToDestroyed, Requested;
  }

  /** Between two turns every actor of the snapshot is labelled as destroyed. */
  lemma FrontWaits(l: Life)
    requires LifeInv(l) && l.phase.Idle? && l.snapshot != []
    ensures l.snapshot[0] in l.chainOf && l.chainOf[l.snapshot[0]] == Destroyed
  {
    hide TableInv, Distinct;
    assert l.snapshot[0] in l.snapshot;
  }

  lemma OwnerIsLive(l: Life, id: nat)
    requires LifeInv(l) && id in l.refs.objects && l.refs.objects[id].owner.Some?
    ensures l.refs.objects[id].owner.value in l.refs.g.chain
  {
  }

  lemma ChainsAreSound(l: Life)
    requires LifeInv(l)
    ensures ChainsMatch(l.refs) && UniqueIds(l.refs.g)
  {
    hide ChainsMatch, UniqueIds, CountsMatch, Placed, PhaseOk;
  }

  /** The objects when all of a's references but those in rest have been unchained. */
  ghost function Released(objects: map<nat, RefObject>, a: Actor, rest: seq<Reference>): map<nat, RefObject> {
    map id | id in objects ::
      var o := objects[id];
      if o.owner == Some(a) && (o.target.None? || Reference(id, o.target.value) !in rest) then o.(owner := None) else o
  }

  lemma ReleasedNone(t: Table, a: Actor)
    requires ChainsMatch(t) && a in t.g.chain
    ensures Released(t.objects, a, t.g.chain[a]) == t.objects
  {
  }

  lemma OwnReferences(t: Table, a: Actor)
    requires ChainsMatch(t) && UniqueIds(t.g) && a in t.g.chain
    ensures var s := t.g.chain[a];
            && (forall i :: 0 <= i < |s| ==>
                  var id := s[i].id;
                  id in t.objects && t.objects[id].owner == Some(a) && t.objects[id].target == Some(s[i].dest))
            && (forall i, j :: 0 <= i < j < |s| ==> s[i].id != s[j].id)
  {
  }

  lemma ReleasedNext(t: Table, a: Actor, n: nat)
    requires ChainsMatch(t) && UniqueIds(t.g) && a in t.g.chain && n < |t.g.chain[a]|
    ensures var s := t.g.chain[a];
            var objects := Released(t.objects, a, s[n..]);
            && s[n].id in objects && objects[s[n].id].owner == Some(a) && s[n..][1..] == s[n + 1..]
            && Released(t.objects, a, s[n + 1..]) == objects[s[n].id := objects[s[n].id].(owner := None)]
  {
    OwnReferences(t, a);
    hide ChainsMatch, UniqueIds;
    var s := t.g.chain[a];
    assert s[n..] == [s[n]] + s[n + 1..];
    assert forall r :: r in s[n..] <==> r == s[n] || r in s[n + 1..];
    assert forall r :: r in s[n + 1..] ==> r.id != s[n].id;
  }

  function Less<V>(m: map<Actor, V>, a: Actor): map<Actor, V> {
    map b | b in m && b != a :: m[b]
  }

  lemma LessUpdated<V>(m: map<Actor, V>, a: Actor, v: V)
    ensures Less(m[a := v], a) == Less(m, a)
  {
  }

  lemma GoneIs(l: Life, a: Actor)
    ensures var g := Graph(Less(l.refs.g.chain, a), Less(l.refs.g.fromCount, a));
            var t := Table(g, Released(l.refs.objects, a, []));
            Gone(l, a) == l.(refs := t, chainOf := Less(l.chainOf, a), onUnreferenced := l.onUnreferenced - {a},
                             accepted := l.accepted - {a}, phase := Idle, ended := l.ended + {a})
  {
    assert Removed(l.refs, a).objects == Released(l.refs.objects, a, []);
  }
}
