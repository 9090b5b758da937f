/** The shutdown test, on the reference graph an event loop really has. */
module Shutdown {
  import opened RefGraph
  import opened References
  import opened ReachabilityCount
  import opened ActorLife
  import opened LifeMoments
  import opened PrivateReferences
  import S = Services

  /** The core actor and the services of the loop, over the references it has at the moment. */
  ghost predicate CoreOf(l: Life, c: Core) {
    && c.g == l.refs.g && c.coreActor in l.chainOf && c.coreActor !in c.services
    && (forall k :: 0 <= k < |c.services| ==> c.services[k] in l.chainOf)
    && (forall i, k :: 0 <= i < k < |c.services| ==> c.services[i] != c.services[k])
  }

  /**
   Whatever the actors of an event loop did, what is chained and counted between them meets what the count relies on.
   The test is evaluated while the core actor is asked to go and when an actor has just gone, inside a round of
   destruction: at every moment of every life, inside rounds and callbacks too, it succeeds exactly when every live
   actor is reached from an unreferenced core or service actor.
   */
  lemma TestIsExactInEveryLife(story: seq<Episode>, e: Episode, l: Life, c: Core)
    requires Passes(story, e, l) && CoreOf(l, c)
    ensures ValidCore(c)
    ensures TotalCount(c) == |l.chainOf.Keys| <==> forall v :: v in l.chainOf ==> RootReaches(c, v)
  {
    hide Passes, LifeInv, Valid, Acyclic, RootReaches;
    EveryMomentIsSound(story, e, l);
    SoundGraph(l);
    OnlyReferencedLeft(c);
  }

  lemma SoundGraph(l: Life)
    requires LifeInv(l)
    ensures Valid(l.refs.g) && Acyclic(l.refs.g) && l.chainOf.Keys == l.refs.g.chain.Keys
  {
    hide Valid, Acyclic;
    InvGivesValid(l.refs);
  }

  /**
   Those are the two places where it is evaluated: any number of turns into a round the core actor is asked, or the
   front of the snapshot has gone.
   */
  lemma TestIsExactWhereEvaluated(story: seq<Episode>, l: Life, b: Behaviour, m: Life, t: Life, c: Core)
    requires LifeTo(story, l) && AtRest(l) && LifeInv(Swapped(l)) && InLoop(Swapped(l), b, m)
    requires LifeInv(m) && m.phase.Idle? && m.snapshot != [] && m.snapshot[0] in m.refs.g.fromCount && CoreOf(t, c)
    requires (FrontIsAsked(m, b, t) && c.coreActor == m.snapshot[0]) || t == Turn(m, b)
    ensures ValidCore(c)
    ensures TotalCount(c) == |t.chainOf.Keys| <==> forall v :: v in t.chainOf ==> RootReaches(c, v)
  {
    MomentsOfALoop(story, l, b, m, t);
    TestIsExactInEveryLife(story, Cleaning(b), t, c);
  }

  // ---------- what the teardown of services takes from the test ----------

  /** When the test succeeds, an actor that nothing refers to is the core actor or a service. */
  lemma UnreferencedIsRoot(c: Core, a: Actor)
    requires ValidCore(c) && TotalCount(c) == |c.g.chain.Keys| && a in c.g.chain && InRefs(c.g, a) == {}
    ensures a == c.coreActor || a in c.services
  {
    hide ValidCore, TotalCount, InRefs, Reaches;
    OnlyReferencedLeft(c);
    assert RootReaches(c, a);
    var root :| IsRoot(c, root) && Reaches(c.g, root, a);
    ReferencedIfReached(c.g, root, a);
  }

  lemma ReferencedIfReached(g: Graph, root: Actor, a: Actor)
    requires Reaches(g, root, a)
    ensures root == a || InRefs(g, a) != {}
  {
    if root != a {
      var s, i := LastStep(g, root, a);
      assert g.chain[s][i] in InRefs(g, a);
    }
  }

  predicate Stray(s: S.Service, k: nat) {
    s.core == k && s.holder && !s.live
  }

  /** Whatever was done so far, only the wrapper of service i made references to its destroy actor. */
  ghost predicate OnlyWrappersRefer(story: seq<Episode>, e: Episode, wiring: seq<Private>) {
    forall i :: 0 <= i < |wiring| ==>
      EpisodeRespects(e, wiring[i]) && forall f :: f in story ==> EpisodeRespects(f, wiring[i])
  }

  /** Of the services of core k: wiring names wrapper and destroy actor, live while the service and the holder are. */
  ghost predicate Wired(m: S.Machine, k: nat, l: Life, c: Core, wiring: seq<Private>) {
    && |wiring| == |m.services|
    && forall i {:trigger m.services[i]} :: 0 <= i < |m.services| && m.services[i].core == k ==>
      && (m.services[i].live <==> wiring[i].owner in l.chainOf)
      && (m.services[i].holder <==> wiring[i].target in l.chainOf)
      && wiring[i].target != c.coreActor && wiring[i].target !in c.services
  }

  /**
   A destroy actor is referenced by the wrapper of its service alone, so by nobody when the service has gone.  Where
   the test of a core succeeds no such actor is left there, which is what the step of the core requires.
   */
  lemma TestAllowsStep(story: seq<Episode>, e: Episode, l: Life, c: Core, m: S.Machine, k: nat, wiring: seq<Private>)
    requires Passes(story, e, l) && CoreOf(l, c) && ValidCore(c) && TotalCount(c) == |c.g.chain.Keys|
    requires k < |m.cores| && !m.cores[k].stopped && Wired(m, k, l, c, wiring) && OnlyWrappersRefer(story, e, wiring)
    ensures S.Enabled(m, S.CoreAsked(k, true))
  {
    hide Passes, ValidCore, InRefs, TotalCount, EpisodeRespects;
    forall i {:trigger m.services[i]} | 0 <= i < |m.services| && m.services[i].core == k
      ensures m.services[i].live || !m.services[i].holder {
      NoStray(story, e, l, c, m, k, wiring, i);
    }
  }

  lemma NoStray(
    story: seq<Episode>, e: Episode, l: Life, c: Core, m: S.Machine, k: nat, wiring: seq<Private>, i: nat)
    requires Passes(story, e, l) && CoreOf(l, c) && ValidCore(c) && TotalCount(c) == |c.g.chain.Keys|
    requires Wired(m, k, l, c, wiring) && OnlyWrappersRefer(story, e, wiring) && i < |m.services|
    ensures !Stray(m.services[i], k)
  {
    hide Passes, ValidCore, InRefs, TotalCount, EpisodeRespects;
    if Stray(m.services[i], k) {
      UnreferencedWithoutOwner(story, e, l, wiring[i]);
      KeysInChain(story, e, l);
      UnreferencedIsRoot(c, wiring[i].target);
    }
  }

  lemma KeysInChain(story: seq<Episode>, e: Episode, l: Life)
    requires Passes(story, e, l)
    ensures l.chainOf.Keys == l.refs.g.chain.Keys
  {
    hide Passes, TableInv, Placed, PhaseOk, Queued;
    EveryMomentIsSound(story, e, l);
  }
}
