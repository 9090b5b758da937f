/**
 The states an event loop passes through while its actors work and while a round of destruction is under way: this is
 where callbacks look at what is live and referenced, not only between rounds.
 */
module LifeMoments {
  import opened Sequences
  import opened RefGraph
  import opened ActorLife

  /** Some way into a script. */
  ghost predicate DuringScript(l: Life, ops: seq<Op>, m: Life)
    requires LifeInv(l)
  {
    exists k :: 0 <= k <= |ops| && m == RunScript(l, ops[..k])
  }

  /** The front of the snapshot after its callback, if it is asked at all. */
  ghost function Asked(l: Life, b: Behaviour): Life
    requires LifeInv(l) && l.phase.Idle? && l.snapshot != []
  {
    var a := l.snapshot[0];
    FrontIsLive(l);
    PickedKeeps(l);
    if l.refs.g.fromCount[a] == 0 then RunScript(Picked(l), b.onRequest(a)) else Picked(l)
  }

  lemma AskedKeeps(l: Life, b: Behaviour)
    requires LifeInv(l) && l.phase.Idle? && l.snapshot != []
    ensures var m, a := Asked(l, b), l.snapshot[0];
            && LifeInv(m) && m.phase == Asking(a) && a in m.chainOf && a in m.refs.g.fromCount
            && Follows(Picked(l), m)
  {
    var a := l.snapshot[0];
    FrontIsLive(l);
    PickedKeeps(l);
    ScriptFollows(Picked(l), b.onRequest(a));
    AskedIsLive(Asked(l, b), a);
    KeysAgree(Asked(l, b));
    hide LifeInv, RunScript;
  }

  /** While the front is asked, and while its destructor runs if it accepted. */
  ghost predicate DuringTurn(l: Life, b: Behaviour, m: Life)
    requires LifeInv(l) && l.phase.Idle? && l.snapshot != []
  {
    var a := l.snapshot[0];
    FrontIsLive(l);
    PickedKeeps(l);
    AskedKeeps(l, b);
    || m == Picked(l)
    || (l.refs.g.fromCount[a] == 0 && DuringScript(Picked(l), b.onRequest(a), m))
    || (l.refs.g.fromCount[a] == 0 && Doomed(Asked(l, b), a)
        && (UnchainedKeeps(Asked(l, b), a); DuringScript(Unchained(Asked(l, b), a), b.destructor(a), m)))
  }

  /** After any number of turns, one of the next turn under way or not. */
  ghost predicate DuringLoop(l: Life, b: Behaviour, m: Life)
    requires LifeInv(l) && l.phase.Idle?
    decreases |l.snapshot|
  {
    || m == l
    || (l.snapshot != [] && DuringTurn(l, b, m))
    || (l.snapshot != [] && (TurnKeeps(l, b); DuringLoop(Turn(l, b), b, m)))
  }

  ghost predicate DuringEpisode(l: Life, e: Episode, m: Life)
    requires AtRest(l)
  {
    match e
    case Working(ops) => DuringScript(l, ops, m)
    case Cleaning(b) => SwappedKeeps(l); m == l || DuringLoop(Swapped(l), b, m)
  }

  /** The story was lived, and m is passed in the episode after it. */
  ghost predicate Passes(story: seq<Episode>, e: Episode, m: Life) {
    exists l :: LifeTo(story, l) && AtRest(l) && DuringEpisode(l, e, m)
  }

  /** After any number of turns. */
  ghost predicate InLoop(l: Life, b: Behaviour, m: Life)
    requires LifeInv(l) && l.phase.Idle?
    decreases |l.snapshot|
  {
    m == l || (l.snapshot != [] && (TurnKeeps(l, b); InLoop(Turn(l, b), b, m)))
  }

  /** The front of the snapshot is asked, its callback some way on. */
  ghost predicate FrontIsAsked(l: Life, b: Behaviour, m: Life)
    requires l.snapshot != [] && l.snapshot[0] in l.refs.g.fromCount
  {
    && LifeInv(Picked(l)) && l.refs.g.fromCount[l.snapshot[0]] == 0
    && DuringScript(Picked(l), b.onRequest(l.snapshot[0]), m)
  }

  lemma {:induction false} LoopPasses(l: Life, b: Behaviour, m: Life, t: Life)
    requires LifeInv(l) && l.phase.Idle? && InLoop(l, b, m)
    ensures LifeInv(m) && m.phase.Idle?
    ensures m.snapshot != [] ==> m.snapshot[0] in m.refs.g.fromCount
    ensures m.snapshot != [] && (FrontIsAsked(m, b, t) || t == Turn(m, b)) ==> DuringLoop(l, b, t)
    decreases |l.snapshot|
  {
    hide LifeInv, Turn, DuringScript;
    if m == l {
      if l.snapshot != [] {
        FrontIsLive(l);
        TurnKeeps(l, b);
      }
    } else {
      TurnKeeps(l, b);
      LoopPasses(Turn(l, b), b, m, t);
    }
  }

  /** Both are passed: the front being asked, and the front gone or spared. */
  lemma MomentsOfALoop(story: seq<Episode>, l: Life, b: Behaviour, m: Life, t: Life)
    requires LifeTo(story, l) && AtRest(l)
    requires LifeInv(Swapped(l)) && InLoop(Swapped(l), b, m)
    ensures LifeInv(m) && m.phase.Idle?
    ensures m.snapshot != [] ==> m.snapshot[0] in m.refs.g.fromCount
    ensures m.snapshot != [] && (FrontIsAsked(m, b, t) || t == Turn(m, b)) ==> Passes(story, Cleaning(b), t)
  {
    SwappedKeeps(l);
    LoopPasses(Swapped(l), b, m, t);
    hide LifeTo, DuringLoop, LifeInv, Turn, InLoop, FrontIsAsked;
    if m.snapshot != [] && (FrontIsAsked(m, b, t) || t == Turn(m, b)) {
      assert DuringEpisode(l, Cleaning(b), t);
    }
  }

  // ---------- the invariant holds everywhere ----------

  lemma ScriptMoment(l: Life, ops: seq<Op>, m: Life)
    requires LifeInv(l) && DuringScript(l, ops, m)
    ensures LifeInv(m)
  {
    hide LifeInv, RunScript;
    var k :| 0 <= k <= |ops| && m == RunScript(l, ops[..k]);
    ScriptFollows(l, ops[..k]);
  }

  lemma TurnMoment(l: Life, b: Behaviour, m: Life)
    requires LifeInv(l) && l.phase.Idle? && l.snapshot != [] && DuringTurn(l, b, m)
    ensures LifeInv(m)
  {
    hide LifeInv, DuringScript, Asked;
    var a := l.snapshot[0];
    FrontIsLive(l);
    PickedKeeps(l);
    AskedKeeps(l, b);
    if l.refs.g.fromCount[a] == 0 && DuringScript(Picked(l), b.onRequest(a), m) {
      ScriptMoment(Picked(l), b.onRequest(a), m);
    } else if m != Picked(l) {
      UnchainedKeeps(Asked(l, b), a);
      ScriptMoment(Unchained(Asked(l, b), a), b.destructor(a), m);
    }
  }

  lemma {:induction false} LoopMoment(l: Life, b: Behaviour, m: Life)
    requires LifeInv(l) && l.phase.Idle? && DuringLoop(l, b, m)
    ensures LifeInv(m)
    decreases |l.snapshot|
  {
    hide LifeInv, DuringTurn, Turn;
    if l.snapshot != [] {
      TurnKeeps(l, b);
      if DuringTurn(l, b, m) {
        TurnMoment(l, b, m);
      } else if m != l {
        LoopMoment(Turn(l, b), b, m);
      }
    }
  }

  /** Whatever happened before and wherever a script or round stands, the invariant holds. */
  lemma EveryMomentIsSound(story: seq<Episode>, e: Episode, m: Life)
    requires Passes(story, e, m)
    ensures LifeInv(m)
  {
    hide LifeTo, DuringScript, DuringLoop;
    var l :| LifeTo(story, l) && AtRest(l) && DuringEpisode(l, e, m);
    match e
    case Working(ops) => ScriptMoment(l, ops, m);
    case Cleaning(b) =>
      SwappedKeeps(l);
      if m != l {
        LoopMoment(Swapped(l), b, m);
      }
  }

  // ---------- callbacks and destructors take effect ----------

  lemma DoRaises(l: Life, op: Op, x: Actor)
    requires LifeInv(l) && Enabled(l, op) && x in l.chainOf
    ensures x in l.onUnreferenced || op == Request(x) ==> x in Do(l, op).onUnreferenced
  {
    hide LifeInv, Without, Unreferenced;
    match op
    case Assign(id, other) => UnreferencedRaises(l, id);
    case Drop(id) => UnreferencedRaises(l, id);
    case _ =>
  }

  lemma UnreferencedRaises(l: Life, id: nat)
    requires LifeInv(l) && id in l.refs.objects
    ensures l.onUnreferenced <= Unreferenced(l, id).onUnreferenced
  {
    UnreferencedLetsGo(l, id);
    hide LifeInv, Unreferenced, SameChains, MovesToDestroyed, Frees, LastWanted;
  }

  lemma DoMakes(l: Life, x: Actor)
    requires LifeInv(l) && Enabled(l, New(x))
    ensures x in Do(l, New(x)).chainOf
  {
    hide LifeInv;
  }

  /** What a script makes is live, and whom it asks to go has the flag, however it goes on. */
  lemma {:induction false} ScriptTakesEffect(l: Life, ops: seq<Op>, x: Actor)
    requires LifeInv(l)
    ensures New(x) in ops && x !in l.ended ==> x in RunScript(l, ops).chainOf
    ensures x in l.chainOf && (Request(x) in ops || x in l.onUnreferenced) ==> x in RunScript(l, ops).onUnreferenced
    decreases |ops|
  {
    ScriptFollows(l, ops);
    if ops != [] {
      assert ops == [ops[0]] + ops[1..];
      if Enabled(l, ops[0]) {
        DoKeeps(l, ops[0]);
        DoFollows(l, ops[0]);
        ScriptFollows(Do(l, ops[0]), ops[1..]);
        ScriptTakesEffect(Do(l, ops[0]), ops[1..], x);
        if x in l.chainOf {
          DoRaises(l, ops[0], x);
        } else if ops[0] == New(x) {
          DoMakes(l, x);
        }
      } else {
        ScriptTakesEffect(l, ops[1..], x);
      }
    }
    hide LifeInv, Do;
  }

  /**
   A turn lets the callback of an unreferenced front, and the destructor of one that ends, do their work: what they
   make is live afterwards, and whom they ask to go has its flag.
   */
  lemma TurnTakesEffect(l: Life, b: Behaviour, x: Actor)
    requires LifeInv(l) && l.phase.Idle? && l.snapshot != [] && x != l.snapshot[0] && x !in l.ended
    ensures var a, m := l.snapshot[0], Turn(l, b);
            var done := if a !in l.refs.g.fromCount || l.refs.g.fromCount[a] > 0 then []
                        else b.onRequest(a) + if a in m.ended then b.destructor(a) else [];
            && (New(x) in done ==> x in m.chainOf)
            && (x in l.chainOf && (Request(x) in done || x in l.onUnreferenced) ==> x in m.onUnreferenced)
  {
    hide LifeInv, Without, Spared, Unchained;
    var a := l.snapshot[0];
    FrontIsLive(l);
    PickedKeeps(l);
    AskedKeeps(l, b);
    TurnEndsIff(l, b);
    var asked := Asked(l, b);
    AskedTakesEffect(l, b, x);
    SparedSpares(asked, a);
    if l.refs.g.fromCount[a] == 0 && Doomed(asked, a) {
      UnchainedKeeps(asked, a);
      UnchainedSpares(asked, a);
      ScriptTakesEffect(Unchained(asked, a), b.destructor(a), x);
      ScriptFollows(Unchained(asked, a), b.destructor(a));
    }
    hide RunScript;
  }

  lemma AskedTakesEffect(l: Life, b: Behaviour, x: Actor)
    requires LifeInv(l) && l.phase.Idle? && l.snapshot != [] && x != l.snapshot[0] && x !in l.ended
    ensures var a, m := l.snapshot[0], Asked(l, b);
            && a in l.refs.g.fromCount && x !in m.ended && l.chainOf.Keys <= m.chainOf.Keys
            && (l.refs.g.fromCount[a] == 0 && New(x) in b.onRequest(a) ==> x in m.chainOf)
            && (x in l.chainOf && x in l.onUnreferenced ==> x in m.onUnreferenced)
            && (x in l.chainOf && l.refs.g.fromCount[a] == 0 && Request(x) in b.onRequest(a) ==> x in m.onUnreferenced)
  {
    hide LifeInv;
    FrontIsLive(l);
    PickedKeeps(l);
    ScriptTakesEffect(Picked(l), b.onRequest(l.snapshot[0]), x);
    ScriptFollows(Picked(l), b.onRequest(l.snapshot[0]));
    hide RunScript;
  }

  lemma SparedSpares(l: Life, a: Actor)
    requires a in l.chainOf
    ensures var m := Spared(l, a); m.chainOf.Keys == l.chainOf.Keys && m.onUnreferenced == l.onUnreferenced
  {
  }

  lemma UnchainedSpares(l: Life, a: Actor)
    requires a in l.chainOf
    ensures var m := Unchained(l, a);
            m.chainOf.Keys == l.chainOf.Keys && m.onUnreferenced == l.onUnreferenced && m.ended == l.ended
  {
  }

  /**
   When an actor has gone the core may be asked to go: it makes no difference whether that is the last thing the
   destructor does or the first thing afterwards.
   */
  lemma RequestAfterwards(l: Life, a: Actor, core: Actor)
    requires a != core && core in l.chainOf && core in l.refs.g.fromCount
    ensures core in Gone(l, a).chainOf && core in Gone(l, a).refs.g.fromCount
    ensures Gone(Requested(l, core), a) == Requested(Gone(l, a), core)
  {
    hide Without;
    assert Gone(l, a).refs.g.fromCount[core] == l.refs.g.fromCount[core];
    assert (l.onUnreferenced + {core}) - {a} == (l.onUnreferenced - {a}) + {core};
    var m := Requested(l, core);
    assert (map b | b in m.chainOf && b != a :: m.chainOf[b]) == Requested(Gone(l, a), core).chainOf;
  }
}
