/** An actor only one other actor refers to: references to it are created by that one, and copied or assigned by all. */
module PrivateReferences {
  import opened Sequences
  import opened Wrappers
  import opened RefGraph
  import opened References
  import opened ActorLife
  import opened LifeMoments

  /** Only owner creates references to target. */
  datatype Private = Private(owner: Actor, target: Actor)

  /** A copied or assigned reference belongs to the actor it was created for: no other operation makes one. */
  predicate Respects(op: Op, p: Private) {
    op.Create? && op.target == p.target ==> op.owner == p.owner
  }

  predicate ScriptRespects(ops: seq<Op>, p: Private) {
    forall op :: op in ops ==> Respects(op, p)
  }

  ghost predicate EpisodeRespects(e: Episode, p: Private) {
    match e
    case Working(ops) => ScriptRespects(ops, p)
    case Cleaning(b) => forall a :: ScriptRespects(b.onRequest(a), p) && ScriptRespects(b.destructor(a), p)
  }

  /** Only the owner chains references to the target. */
  ghost predicate Kept(t: Table, p: Private) {
    forall id :: id in t.objects && t.objects[id].target.Some? && t.objects[id].target.value == p.target ==>
      t.objects[id].owner.None? || t.objects[id].owner.value == p.owner
  }

  lemma UnreferencedKept(l: Life, id: nat, p: Private)
    requires LifeInv(l) && id in l.refs.objects && Kept(l.refs, p)
    ensures Kept(Unreferenced(l, id).refs, p)
  {
    hide LifeInv;
  }

  lemma AssignedKept(l: Life, id: nat, other: nat, p: Private)
    requires LifeInv(l) && id in l.refs.objects && other in l.refs.objects
    requires Kept(l.refs, p) && Kept(Unreferenced(l, id).refs, p)
    ensures Kept(Assigned(l, id, other).refs, p)
  {
    hide Placed, PhaseOk, Queued, Without;
    DetachKeeps(l.refs, id);
    CopyAttaches(Unreferenced(l, id).refs, id, other);
    hide LifeInv, TableInv;
  }

  lemma DoKept(l: Life, op: Op, p: Private)
    requires LifeInv(l) && Enabled(l, op) && Kept(l.refs, p) && Respects(op, p)
    ensures Kept(Do(l, op).refs, p)
  {
    hide Closed, UniqueIds, Acyclic, ChainsMatch, Placed, PhaseOk, Queued;
    match op
    case Assign(id, other) =>
      UnreferencedKept(l, id, p);
      AssignedKept(l, id, other, p);
    case Drop(id) =>
      UnreferencedKept(l, id, p);
      hide Unreferenced;
    case _ => hide Without;
  }

  lemma {:induction false} ScriptKept(l: Life, ops: seq<Op>, p: Private)
    requires LifeInv(l) && Kept(l.refs, p) && ScriptRespects(ops, p)
    ensures Kept(RunScript(l, ops).refs, p)
    decreases |ops|
  {
    if ops != [] {
      assert ops[0] in ops && forall op :: op in ops[1..] ==> op in ops;
      if Enabled(l, ops[0]) {
        DoKeeps(l, ops[0]);
        DoKept(l, ops[0], p);
        ScriptKept(Do(l, ops[0]), ops[1..], p);
      } else {
        ScriptKept(l, ops[1..], p);
      }
      hide LifeInv, Kept, Do, Respects;
    }
  }

  lemma DuringScriptKept(l: Life, ops: seq<Op>, m: Life, p: Private)
    requires LifeInv(l) && Kept(l.refs, p) && ScriptRespects(ops, p) && DuringScript(l, ops, m)
    ensures Kept(m.refs, p)
  {
    hide LifeInv, RunScript, Kept, Respects;
    var k :| 0 <= k <= |ops| && m == RunScript(l, ops[..k]);
    ScriptKept(l, ops[..k], p);
  }

  lemma GoneKept(l: Life, a: Actor, p: Private)
    requires Kept(l.refs, p)
    ensures Kept(Gone(l, a).refs, p)
  {
  }

  lemma AskedKept(l: Life, b: Behaviour, p: Private)
    requires LifeInv(l) && l.phase.Idle? && l.snapshot != [] && Kept(l.refs, p) && EpisodeRespects(Cleaning(b), p)
    ensures l.snapshot[0] in l.refs.g.fromCount && Kept(Picked(l).refs, p) && Kept(Asked(l, b).refs, p)
  {
    FrontIsLive(l);
    PickedKeeps(l);
    hide LifeInv, RunScript, Kept, ScriptRespects;
    ScriptKept(Picked(l), b.onRequest(l.snapshot[0]), p);
  }

  lemma TurnKept(l: Life, b: Behaviour, p: Private)
    requires LifeInv(l) && l.phase.Idle? && l.snapshot != [] && Kept(l.refs, p) && EpisodeRespects(Cleaning(b), p)
    ensures Kept(Turn(l, b).refs, p)
  {
    var a, asked := l.snapshot[0], Asked(l, b);
    AskedKept(l, b, p);
    AskedKeeps(l, b);
    hide LifeInv, RunScript, Kept, ScriptRespects;
    if l.refs.g.fromCount[a] == 0 && Doomed(asked, a) {
      UnchainedKeeps(asked, a);
      ScriptKept(Unchained(asked, a), b.destructor(a), p);
      GoneKept(RunScript(Unchained(asked, a), b.destructor(a)), a, p);
    }
  }

  lemma DuringTurnKept(l: Life, b: Behaviour, m: Life, p: Private)
    requires LifeInv(l) && l.phase.Idle? && l.snapshot != [] && DuringTurn(l, b, m)
    requires Kept(l.refs, p) && EpisodeRespects(Cleaning(b), p)
    ensures Kept(m.refs, p)
  {
    var a, asked := l.snapshot[0], Asked(l, b);
    AskedKept(l, b, p);
    PickedKeeps(l);
    AskedKeeps(l, b);
    hide LifeInv, DuringScript, Asked, Kept, ScriptRespects;
    if l.refs.g.fromCount[a] == 0 && DuringScript(Picked(l), b.onRequest(a), m) {
      DuringScriptKept(Picked(l), b.onRequest(a), m, p);
    } else if m != Picked(l) {
      UnchainedKeeps(asked, a);
      DuringScriptKept(Unchained(asked, a), b.destructor(a), m, p);
    }
  }

  lemma {:induction false} LoopKept(l: Life, b: Behaviour, m: Life, p: Private)
    requires LifeInv(l) && l.phase.Idle? && DuringLoop(l, b, m)
    requires Kept(l.refs, p) && EpisodeRespects(Cleaning(b), p)
    ensures Kept(m.refs, p)
    decreases |l.snapshot|
  {
    hide LifeInv, DuringTurn, Turn, Kept, EpisodeRespects;
    if l.snapshot != [] {
      TurnKeeps(l, b);
      TurnKept(l, b, p);
      if DuringTurn(l, b, m) {
        DuringTurnKept(l, b, m, p);
      } else if m != l {
        LoopKept(Turn(l, b), b, m, p);
      }
    }
  }

  lemma {:induction false} RoundKept(l: Life, b: Behaviour, p: Private)
    requires LifeInv(l) && l.phase.Idle? && Kept(l.refs, p) && EpisodeRespects(Cleaning(b), p)
    ensures Kept(Drained(l, b).refs, p)
    decreases |l.snapshot|
  {
    hide LifeInv, Turn, Kept, EpisodeRespects;
    if l.snapshot != [] {
      TurnKeeps(l, b);
      TurnKept(l, b, p);
      RoundKept(Turn(l, b), b, p);
    }
  }

  lemma {:induction false} LifeKept(story: seq<Episode>, l: Life, p: Private)
    requires LifeTo(story, l) && forall e :: e in story ==> EpisodeRespects(e, p)
    ensures Kept(l.refs, p)
    decreases |story|
  {
    if story != [] {
      var e := story[|story| - 1];
      var m :| LifeTo(story[..|story| - 1], m) && AtRest(m) && l == Lived(m, e);
      assert e in story && forall f :: f in story[..|story| - 1] ==> f in story;
      LifeKept(story[..|story| - 1], m, p);
      hide LifeInv, LifeTo, Kept, RunScript, Drained, ScriptRespects;
      match e
      case Working(ops) => ScriptKept(m, ops, p);
      case Cleaning(b) =>
        SwappedKeeps(m);
        RoundKept(Swapped(m), b, p);
    }
  }

  lemma MomentKept(story: seq<Episode>, e: Episode, m: Life, p: Private)
    requires Passes(story, e, m) && EpisodeRespects(e, p) && forall f :: f in story ==> EpisodeRespects(f, p)
    ensures Kept(m.refs, p)
  {
    hide LifeInv, LifeTo, Kept, DuringScript, DuringLoop, ScriptRespects;
    var l :| LifeTo(story, l) && AtRest(l) && DuringEpisode(l, e, m);
    LifeKept(story, l, p);
    match e
    case Working(ops) => DuringScriptKept(l, ops, m, p);
    case Cleaning(b) =>
      SwappedKeeps(l);
      if m != l {
        LoopKept(Swapped(l), b, m, p);
      }
  }

  lemma OnlyOwnerRefers(t: Table, p: Private)
    requires ChainsMatch(t) && Kept(t, p)
    ensures forall a, i {:trigger t.g.chain[a][i]} ::
              a in t.g.chain && 0 <= i < |t.g.chain[a]| && t.g.chain[a][i].dest == p.target ==> a == p.owner
  {
    forall a, i {:trigger t.g.chain[a][i]} |
      a in t.g.chain && 0 <= i < |t.g.chain[a]| && t.g.chain[a][i].dest == p.target ensures a == p.owner {
      assert t.objects[t.g.chain[a][i].id].owner == Some(a);
    }
  }

  /** When the owner is gone, nothing refers to the target any more. */
  lemma UnreferencedWithoutOwner(story: seq<Episode>, e: Episode, l: Life, p: Private)
    requires Passes(story, e, l) && EpisodeRespects(e, p) && forall f :: f in story ==> EpisodeRespects(f, p)
    requires p.owner !in l.chainOf
    ensures InRefs(l.refs.g, p.target) == {}
  {
    MomentKept(story, e, l, p);
    EveryMomentIsSound(story, e, l);
    hide Passes, EpisodeRespects, Placed, PhaseOk, Queued, ChainsMatch, Closed, UniqueIds, Acyclic, CountsMatch, Kept;
    OnlyOwnerRefers(l.refs, p);
  }
}
