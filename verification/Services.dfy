/**
 Service teardown.  Services are spread over cores; each has a destroy actor that, once its service is gone, sends
 the "you are last" event to the destroy actor of the service declared before it.  Every core waits for the count
 of cores with regular actors to reach zero before it lets its services go.
 */
module Services {

  /** live: the service actor exists; holder: its DestroyEventActor exists, pending: and is to be destroyed. */
  datatype Service = Service(
    core: nat, live: bool, last: bool, queued: bool, refused: bool, holder: bool, pending: bool)

  datatype Core = Core(shutdown: bool, flagged: bool, callback: bool, destroyTime: bool, stopped: bool)

  datatype Machine = Machine(
    services: seq<Service>, cores: seq<Core>,
    inFlight: seq<nat>,  // ServiceDestroyEvents on their way, by destination
    finished: bool,      // Engine::finish has given up the engine's own share of the count
    count: int,          // regularActorsCoreCount
    deleted: seq<nat>)   // history: the services deleted, in order

  datatype Action =
    | ShutdownCore(c: nat)
    | FinishEngine
    | CoreAsked(c: nat, only: bool)       // only: what onlyCoreAndServiceReferencedActorsLeft found
    | Callback(c: nat)
    | Poke(i: nat)                        // anyone may request the destruction of a service
    | ServiceAsked(i: nat, agrees: bool)  // agrees: what the service's own onDestroyRequest decides
    | HolderAsked(i: nat, memory: bool)   // memory: whether the event could be allocated
    | Deliver(i: nat)

  /** The list of services a core keeps: those created on it that have not been deleted. */
  predicate NoServiceLeft(m: Machine, c: nat) {
    forall i {:trigger m.services[i]} :: 0 <= i < |m.services| && m.services[i].core == c ==> !m.services[i].live
  }

  predicate NoStrayHolder(m: Machine, c: nat) {
    forall i {:trigger m.services[i]} :: 0 <= i < |m.services| && m.services[i].core == c ==>
        m.services[i].live || !m.services[i].holder
  }

  /** A destroy actor without its service is referenced by nothing: the test of the core cannot succeed over it. */
  predicate Enabled(m: Machine, a: Action) {
    match a
    case ShutdownCore(c) => c < |m.cores|
    case FinishEngine => !m.finished && forall c {:trigger m.cores[c]} :: 0 <= c < |m.cores| ==> m.cores[c].shutdown
    case CoreAsked(c, only) => c < |m.cores| && !m.cores[c].stopped && (only ==> NoStrayHolder(m, c))
    case Callback(c) => c < |m.cores| && m.cores[c].callback
    case Poke(i) => i < |m.services| && m.services[i].live
    case ServiceAsked(i, _) => i < |m.services| && m.services[i].live && m.services[i].queued &&
        m.services[i].core < |m.cores|
    case HolderAsked(i, _) => i < |m.services| && m.services[i].holder && m.services[i].pending
    case Deliver(i) => m.inFlight != [] && m.inFlight[0] == i && i < |m.services|
  }

  function Requested(s: Service, c: nat): Service {
    if s.core == c && s.live then s.(queued := true) else s
  }

  /** destroyServiceActors: every service in the core's list is asked to go. */
  function AllRequested(services: seq<Service>, c: nat): seq<Service> {
    seq(|services|, i requires 0 <= i < |services| => Requested(services[i], c))
  }

  function Next(m: Machine, a: Action): Machine
    requires Enabled(m, a)
  {
    match a
    case ShutdownCore(c) => m.(cores := m.cores[c := m.cores[c].(shutdown := true)])
    case FinishEngine => m.(finished := true, count := m.count - 1)
    case CoreAsked(c, only) =>
      var k := m.cores[c];
      if !only then m
      else if NoServiceLeft(m, c) then
        m.(cores := m.cores[c := k.(flagged := true, stopped := true)],
           count := if k.flagged then m.count else m.count - 1)
      else if k.shutdown && !k.flagged then
        m.(cores := m.cores[c := k.(flagged := true, callback := true)], count := m.count - 1)
      else m
    case Callback(c) =>
      if m.count == 0 then
        m.(cores := m.cores[c := m.cores[c].(callback := false, destroyTime := true)],
           services := AllRequested(m.services, c))
      else m
    case Poke(i) => m.(services := m.services[i := m.services[i].(queued := true)])
    case ServiceAsked(i, agrees) =>
      var s := m.services[i].(queued := false);
      if m.cores[s.core].destroyTime && s.last then
        if agrees then m.(services := m.services[i := s.(live := false, pending := true)], deleted := m.deleted + [i])
        else m.(services := m.services[i := s.(refused := true)])
      else m.(services := m.services[i := s])
    case HolderAsked(i, memory) =>
      var gone := m.services[i].(holder := false, pending := false);
      if i == 0 then m.(services := m.services[i := gone])
      else if memory then m.(services := m.services[i := gone], inFlight := m.inFlight + [i - 1])
      else m
    case Deliver(i) =>
      m.(inFlight := m.inFlight[1..], services := m.services[i := m.services[i].(last := true, queued := true)])
  }

  /**
   The state after Engine::start: the service declared last holds the token, one share of the count per core and one
   for the engine.
   */
  function Started(coreOf: seq<nat>, cores: nat): Machine {
    Machine(seq(|coreOf|, i requires 0 <= i < |coreOf| =>
        Service(coreOf[i], true, i == |coreOf| - 1, false, false, true, false)),
            seq(cores, c => Core(false, false, false, false, false)), [], false, cores + 1, [])
  }

  // ---------- the token ----------

  /** Where the one token is: in a service, in a pending destroy actor, in an event, or used up. */
  datatype Stage = InService(k: nat) | Pending(k: nat) | InFlight(k: nat) | Used

  function LiveBelow(st: Stage): nat {
    match st
    case InService(k) => k + 1
    case Pending(k) => k
    case InFlight(k) => k + 1
    case Used => 0
  }

  function HoldersBelow(st: Stage): nat {
    match st
    case InService(k) => k + 1
    case Pending(k) => k + 1
    case InFlight(k) => k + 1
    case Used => 0
  }

  /** n-1, n-2, ..., k */
  function Downwards(n: nat, k: nat): seq<nat>
    requires k <= n
  {
    seq(n - k, i requires 0 <= i < n - k => n - 1 - i)
  }

  /** The token is at st: what lives and what is gone is settled by it alone. */
  ghost predicate At(m: Machine, st: Stage) {
    && (st.Used? || st.k < |m.services|)
    && (forall i {:trigger m.services[i]} :: 0 <= i < |m.services| ==>
          var s := m.services[i];
          && (s.live <==> i < LiveBelow(st)) && (s.holder <==> i < HoldersBelow(st))
          && (s.live ==> (s.last <==> st == InService(i))) && (s.pending <==> st == Pending(i)))
    && m.inFlight == (if st.InFlight? then [st.k] else [])
    && m.deleted == Downwards(|m.services|, LiveBelow(st))
  }

  function Moved(m: Machine, st: Stage, a: Action): Stage
    requires Enabled(m, a)
  {
    match a
    case ServiceAsked(i, agrees) =>
      if m.cores[m.services[i].core].destroyTime && m.services[i].last && agrees then Pending(i) else st
    case HolderAsked(i, memory) => if i == 0 then Used else if memory then InFlight(i - 1) else st
    case Deliver(i) => InService(i)
    case _ => st
  }

  /** Every step moves the token at most one place on, and never makes a second one. */
  lemma StepMovesToken(m: Machine, st: Stage, a: Action)
    requires At(m, st) && Enabled(m, a)
    ensures At(Next(m, a), Moved(m, st, a))
  {
    hide NoServiceLeft, NoStrayHolder, Downwards;
    match a
    case ServiceAsked(i, agrees) => ServiceAskedMoves(m, st, i, agrees);
    case HolderAsked(i, memory) =>
      assert m.services[i].pending;
    case _ =>
  }

  lemma ServiceAskedMoves(m: Machine, st: Stage, i: nat, agrees: bool)
    requires At(m, st) && Enabled(m, ServiceAsked(i, agrees))
    ensures At(Next(m, ServiceAsked(i, agrees)), Moved(m, st, ServiceAsked(i, agrees)))
  {
    assert m.services[i].live;
    if m.cores[m.services[i].core].destroyTime && m.services[i].last && agrees {
      assert Downwards(|m.services|, i) == Downwards(|m.services|, i + 1) + [i];
    }
  }

  // ---------- the gate ----------

  function Unflagged(cores: seq<Core>): nat {
    if cores == [] then 0 else (if cores[0].flagged then 0 else 1) + Unflagged(cores[1..])
  }

  lemma {:induction false} UnflaggedUpdate(cores: seq<Core>, c: nat, k: Core)
    requires c < |cores|
    ensures Unflagged(cores[c := k]) + (if cores[c].flagged then 0 else 1)
         == Unflagged(cores) + if k.flagged then 0 else 1
  {
    if c == 0 {
      assert cores[c := k][1..] == cores[1..];
    } else {
      assert cores[c := k][1..] == cores[1..][c - 1 := k];
      UnflaggedUpdate(cores[1..], c - 1, k);
    }
  }

  lemma {:induction false} UnflaggedZero(cores: seq<Core>)
    ensures Unflagged(cores) == 0 <==> forall c {:trigger cores[c]} :: 0 <= c < |cores| ==> cores[c].flagged
  {
    if cores != [] {
      assert cores == [cores[0]] + cores[1..];
      UnflaggedZero(cores[1..]);
    }
  }

  /**
   The shared count is the engine's share plus one for each core that has not yet found itself without regular actors.
   */
  ghost predicate Counted(m: Machine) {
    m.count == (if m.finished then 0 else 1) + Unflagged(m.cores)
  }

  ghost predicate CoreOk(m: Machine, c: nat)
    requires c < |m.cores|
  {
    var k := m.cores[c];
    && (k.destroyTime ==> m.count == 0)
    && (k.callback ==> k.flagged && !k.destroyTime && !NoServiceLeft(m, c))
    && (k.flagged && !k.destroyTime && !k.stopped ==> k.callback)
    && (k.stopped ==> k.flagged && NoServiceLeft(m, c) && NoStrayHolder(m, c))
    && (k.flagged ==> k.shutdown || k.stopped)
    && (m.finished ==> k.shutdown)
  }

  /** No service goes before its core's time; one that holds the token and may go has been asked to. */
  ghost predicate ServiceOk(m: Machine, s: Service) {
    && s.core < |m.cores|
    && (!s.live ==> m.cores[s.core].destroyTime)
    && (s.live && s.last && m.cores[s.core].destroyTime ==> s.queued || s.refused)
  }

  ghost predicate Gate(m: Machine) {
    && Counted(m)
    && (forall c {:trigger m.cores[c]} :: 0 <= c < |m.cores| ==> CoreOk(m, c))
    && (forall i {:trigger m.services[i]} :: 0 <= i < |m.services| ==> ServiceOk(m, m.services[i]))
  }

  lemma CoresStep(m: Machine, n: Machine, c: nat)
    requires c < |m.cores| && Counted(m) && |n.cores| == |m.cores| && n.cores == m.cores[c := n.cores[c]]
    requires n.finished == m.finished &&
             n.count + (if m.cores[c].flagged then 0 else 1) == m.count + if n.cores[c].flagged then 0 else 1
    ensures Counted(n)
  {
    UnflaggedUpdate(m.cores, c, n.cores[c]);
  }

  /** What the other cores and services see when one service changes. */
  lemma ServiceStep(m: Machine, n: Machine, i: nat)
    requires Gate(m) && i < |m.services| &&
             n == m.(services := n.services, inFlight := n.inFlight, deleted := n.deleted)
    requires |n.services| == |m.services| && n.services == m.services[i := n.services[i]]
    requires n.services[i].core == m.services[i].core && ServiceOk(n, n.services[i])
    requires n.services[i].live ==> m.services[i].live
    requires m.services[i].live && !n.services[i].live ==> m.cores[m.services[i].core].destroyTime
    requires n.services[i].holder ==> m.services[i].holder
    requires n.services[i].live || !n.services[i].holder || !m.cores[m.services[i].core].stopped
    ensures Gate(n)
  {
    forall c | 0 <= c < |n.cores| ensures CoreOk(n, c) {
      assert CoreOk(m, c);
      if m.cores[c].callback {
        var j :| 0 <= j < |m.services| && m.services[j].core == c && m.services[j].live;
        assert n.services[j].core == c && n.services[j].live;
      }
    }
    forall j | 0 <= j < |n.services| ensures ServiceOk(n, n.services[j]) {
      assert ServiceOk(m, m.services[j]);
    }
  }

  lemma CoreStep(m: Machine, n: Machine, c: nat)
    requires Gate(m) && c < |m.cores| && |n.cores| == |m.cores| &&
             n == m.(cores := m.cores[c := n.cores[c]], count := n.count)
    requires n.count + (if m.cores[c].flagged then 0 else 1) == m.count + if n.cores[c].flagged then 0 else 1
    requires CoreOk(n, c) && n.cores[c].destroyTime == m.cores[c].destroyTime && n.count <= m.count
    requires m.cores[c].flagged ==> n.count == m.count
    ensures Gate(n)
  {
    CoresStep(m, n, c);
    UnflaggedZero(m.cores);
    forall d | 0 <= d < |n.cores| ensures CoreOk(n, d) {
      if d != c {
        assert CoreOk(m, d);
        if m.cores[d].destroyTime {
          assert m.count == 0;
        }
      }
    }
    forall j | 0 <= j < |n.services| ensures ServiceOk(n, n.services[j]) {
      assert ServiceOk(m, m.services[j]);
    }
  }

  lemma CallbackStep(m: Machine, c: nat)
    requires Gate(m) && Enabled(m, Callback(c))
    ensures Gate(Next(m, Callback(c)))
  {
    if m.count == 0 {
      var n := Next(m, Callback(c));
      assert CoreOk(m, c);
      CoresStep(m, n, c);
      forall d | 0 <= d < |n.cores| ensures CoreOk(n, d) {
        assert CoreOk(m, d);
        if d != c && m.cores[d].callback {
          var j :| 0 <= j < |m.services| && m.services[j].core == d && m.services[j].live;
          assert n.services[j].core == d && n.services[j].live;
        }
      }
      forall j | 0 <= j < |n.services| ensures ServiceOk(n, n.services[j]) {
        assert ServiceOk(m, m.services[j]);
      }
    }
  }

  lemma StepKeepsGate(m: Machine, st: Stage, a: Action)
    requires Gate(m) && At(m, st) && Enabled(m, a)
    ensures Gate(Next(m, a))
  {
    var n := Next(m, a);
    match a
    case ShutdownCore(c) =>
      assert CoreOk(m, c);
      CoreStep(m, n, c);
    case FinishEngine => FinishStep(m);
    case CoreAsked(c, only) =>
      if n != m {
        assert CoreOk(m, c);
        AskedCoreOk(m, c);
        CoreStep(m, n, c);
      }
    case Callback(c) => CallbackStep(m, c);
    case Poke(i) =>
      assert ServiceOk(m, m.services[i]);
      ServiceStep(m, n, i);
    case ServiceAsked(i, agrees) =>
      assert ServiceOk(m, m.services[i]) && CoreOk(m, m.services[i].core);
      ServiceStep(m, n, i);
    case HolderAsked(i, memory) =>
      assert ServiceOk(m, m.services[i]) && CoreOk(m, m.services[i].core);
      ServiceStep(m, n, i);
    case Deliver(i) =>
      assert ServiceOk(m, m.services[i]) && CoreOk(m, m.services[i].core);
      ServiceStep(m, n, i);
  }

  lemma FinishStep(m: Machine)
    requires Gate(m) && Enabled(m, FinishEngine)
    ensures Gate(Next(m, FinishEngine))
  {
    var n := Next(m, FinishEngine);
    forall d | 0 <= d < |n.cores| ensures CoreOk(n, d) {
      assert CoreOk(m, d);
    }
    forall j | 0 <= j < |n.services| ensures ServiceOk(n, n.services[j]) {
      assert ServiceOk(m, m.services[j]);
    }
  }

  lemma AskedCoreOk(m: Machine, c: nat)
    requires Gate(m) && Enabled(m, CoreAsked(c, true))
    ensures CoreOk(Next(m, CoreAsked(c, true)), c)
  {
    assert CoreOk(m, c);
    UnflaggedZero(m.cores);
    if m.cores[c].destroyTime {
      assert m.cores[c].flagged;
    }
  }

  // ---------- whole teardowns ----------

  ghost predicate Reaches(coreOf: seq<nat>, cores: nat, actions: seq<Action>, m: Machine)
    decreases |actions|
  {
    if actions == [] then m == Started(coreOf, cores)
    else
      var last := |actions| - 1;
      exists p :: Reaches(coreOf, cores, actions[..last], p) && Enabled(p, actions[last]) && m == Next(p, actions[last])
  }

  ghost predicate Sound(m: Machine, st: Stage) {
    At(m, st) && Gate(m)
  }

  /** A step of any core, handler or event keeps the token and the count as they should be. */
  lemma StepKeepsSound(m: Machine, a: Action)
    requires Enabled(m, a)
    ensures forall st :: Sound(m, st) ==> Sound(Next(m, a), Moved(m, st, a))
  {
    hide At, Gate, Next, Moved;
    forall st | Sound(m, st) ensures Sound(Next(m, a), Moved(m, st, a)) {
      StepMovesToken(m, st, a);
      StepKeepsGate(m, st, a);
    }
  }

  lemma StartedIsSound(coreOf: seq<nat>, cores: nat)
    requires forall i {:trigger coreOf[i]} :: 0 <= i < |coreOf| ==> coreOf[i] < cores
    ensures var n := |coreOf|; Sound(Started(coreOf, cores), if n == 0 then Used else InService(n - 1))
  {
    var m := Started(coreOf, cores);
    AllUnflagged(m.cores);
    var n := |coreOf|;
    assert Downwards(n, n) == [];
    forall i | 0 <= i < n ensures ServiceOk(m, m.services[i]) {
      assert m.services[i].core == coreOf[i];
    }
    forall c | 0 <= c < cores ensures CoreOk(m, c) {
      assert m.cores[c] == Core(false, false, false, false, false);
    }
    assert At(m, if n == 0 then Used else InService(n - 1));
  }

  lemma {:induction false} AllUnflagged(cores: seq<Core>)
    requires forall c {:trigger cores[c]} :: 0 <= c < |cores| ==> !cores[c].flagged
    ensures Unflagged(cores) == |cores|
  {
    if cores != [] {
      AllUnflagged(cores[1..]);
    }
  }

  lemma SameServices(m: Machine, a: Action)
    requires Enabled(m, a)
    ensures |Next(m, a).services| == |m.services|
  {
  }

  /** In every interleaving of the cores there is one token, and the shared count means what it says. */
  lemma {:induction false} EveryTeardownIsSound(coreOf: seq<nat>, cores: nat, actions: seq<Action>, m: Machine)
    returns (st: Stage)
    requires forall i {:trigger coreOf[i]} :: 0 <= i < |coreOf| ==> coreOf[i] < cores
    requires Reaches(coreOf, cores, actions, m)
    ensures Sound(m, st) && |m.services| == |coreOf|
    decreases |actions|
  {
    hide At, Gate, Next, Moved;
    if actions == [] {
      StartedIsSound(coreOf, cores);
      st := if |coreOf| == 0 then Used else InService(|coreOf| - 1);
    } else {
      var last := |actions| - 1;
      var p :| Reaches(coreOf, cores, actions[..last], p) && Enabled(p, actions[last]) && m == Next(p, actions[last]);
      var before := EveryTeardownIsSound(coreOf, cores, actions[..last], p);
      StepMovesToken(p, before, actions[last]);
      StepKeepsGate(p, before, actions[last]);
      SameServices(p, actions[last]);
      st := Moved(p, before, actions[last]);
    }
  }

  /** Services go in strict reverse declaration order, and none before every core and the engine gave up their share. */
  lemma ReverseOrder(coreOf: seq<nat>, cores: nat, actions: seq<Action>, m: Machine)
    requires forall i {:trigger coreOf[i]} :: 0 <= i < |coreOf| ==> coreOf[i] < cores
    requires Reaches(coreOf, cores, actions, m)
    ensures exists k :: 0 <= k <= |coreOf| && m.deleted == Downwards(|coreOf|, k)
                        && forall i {:trigger m.services[i]} :: 0 <= i < |coreOf| == |m.services| ==>
                            (m.services[i].live <==> i < k)
    ensures m.deleted != [] ==>
              m.finished && forall c {:trigger m.cores[c]} :: 0 <= c < |m.cores| ==> m.cores[c].flagged
    ensures m.count >= 0
  {
    var st := EveryTeardownIsSound(coreOf, cores, actions, m);
    var k := LiveBelow(st);
    assert m.deleted == Downwards(|coreOf|, k);
    if m.deleted != [] {
      var s := m.services[|coreOf| - 1];
      assert !s.live && ServiceOk(m, s);
      assert CoreOk(m, s.core);
      UnflaggedZero(m.cores);
    }
  }

  /** The places that can hold the token. */
  ghost function Tokens(m: Machine): set<Stage> {
    (set i | 0 <= i < |m.services| && m.services[i].live && m.services[i].last :: InService(i))
    + (set i | 0 <= i < |m.services| && m.services[i].pending :: Pending(i))
    + (set i | 0 <= i < |m.inFlight| :: InFlight(m.inFlight[i]))
  }

  /** Exactly one place holds the token until the first service has gone and its destroy actor after it; then none. */
  lemma OneToken(m: Machine, st: Stage)
    requires At(m, st)
    ensures Tokens(m) == if st.Used? then {} else {st}
    ensures |m.inFlight| <= 1
    ensures st.Used? <==> forall i {:trigger m.services[i]} :: 0 <= i < |m.services| ==> !m.services[i].holder
  {
    if st.InService? || st.Pending? {
      assert m.services[st.k].holder;
    }
    if st.InFlight? {
      assert m.services[st.k].holder && m.inFlight[0] == st.k;
    }
    forall t ensures t in Tokens(m) <==> !st.Used? && t == st {
      if t in Tokens(m) && t.InService? {
        assert m.services[t.k].live;
      }
    }
  }

  /** An event finds its service alive, without the token, on a core that still runs. */
  lemma DeliveryIsSafe(m: Machine, st: Stage, i: nat)
    requires Sound(m, st) && Enabled(m, Deliver(i))
    ensures var s := m.services[i];
            s.live && s.holder && !s.pending && !s.last && s.core < |m.cores| && !m.cores[s.core].stopped
  {
    var s := m.services[i];
    assert ServiceOk(m, s);
    assert s.live && CoreOk(m, s.core);
  }

  /**
   Once engine and cores gave up their shares the token is never stranded: the event can be delivered, the pending
   destroy actor can be asked, and the service holding it has been asked to go, or its core's time is about to come.
   The event may well have arrived before that time.
   */
  lemma TokenCanMove(m: Machine, st: Stage)
    requires Sound(m, st) && m.count == 0 && !st.Used?
    ensures match st
            case InService(k) =>
              var s := m.services[k];
              && s.live && s.core < |m.cores|
              && if m.cores[s.core].destroyTime then s.queued || s.refused
                 else m.cores[s.core].callback && Next(m, Callback(s.core)).services[k].queued
            case Pending(k) => Enabled(m, HolderAsked(k, true))
            case InFlight(k) => Enabled(m, Deliver(k))
            case Used => true
  {
    UnflaggedZero(m.cores);
    if st.InService? {
      var s := m.services[st.k];
      assert s.live && ServiceOk(m, s) && CoreOk(m, s.core);
    }
  }

  /** When the last core has stopped nothing of the services is left. */
  lemma AllStoppedIsAllGone(m: Machine, st: Stage)
    requires Sound(m, st) && forall c {:trigger m.cores[c]} :: 0 <= c < |m.cores| ==> m.cores[c].stopped
    ensures st.Used? && m.inFlight == [] && Unflagged(m.cores) == 0
  {
    UnflaggedZero(m.cores);
    if !st.Used? {
      var s := m.services[st.k];
      assert ServiceOk(m, s) && CoreOk(m, s.core) && s.holder;
    }
    forall c {:trigger m.cores[c]} | 0 <= c < |m.cores| ensures m.cores[c].flagged {
      assert CoreOk(m, c);
    }
  }

  // ---------- the handlers ----------

  class Teardown {
    var services: seq<Service>
    var cores: seq<Core>
    var inFlight: seq<nat>
    var finished: bool
    var count: int
    var deleted: seq<nat>

    function View(): Machine
      reads this
    {
      Machine(services, cores, inFlight, finished, count, deleted)
    }

    /** Engine::finish: every node is told, then the engine's share of the count goes. */
    method Finish()
      requires !finished
      modifies this
      ensures |cores| == |old(cores)|
      ensures forall c {:trigger cores[c]} :: 0 <= c < |cores| ==> cores[c] == old(cores)[c].(shutdown := true)
      ensures finished && count == old(count) - 1
      ensures services == old(services) && inFlight == old(inFlight) && deleted == old(deleted)
      ensures forall st :: Sound(old(View()), st) ==> Sound(View(), st)
    {
      hide Sound;
      for c := 0 to |cores|
        invariant forall st :: Sound(old(View()), st) ==> Sound(View(), st)
        invariant |cores| == |old(cores)| && !finished && count == old(count)
        invariant services == old(services) && inFlight == old(inFlight) && deleted == old(deleted)
        invariant forall d :: 0 <= d < |cores| ==>
                    cores[d] == if d < c then old(cores)[d].(shutdown := true) else old(cores)[d]
      {
        StepKeepsSound(View(), ShutdownCore(c));
        cores := cores[c := cores[c].(shutdown := true)];
      }
      StepKeepsSound(View(), FinishEngine);
      finished := true;
      count := count - 1;
    }

    method GiveUpShare(c: nat)
      requires c < |cores| && !cores[c].flagged
      modifies `cores, `count
      ensures cores == old(cores)[c := old(cores)[c].(flagged := true)] && count == old(count) - 1
    {
      cores := cores[c := cores[c].(flagged := true)];
      count := count - 1;
    }

    /** CoreActor::onDestroyRequest */
    method CoreOnDestroyRequest(c: nat, only: bool)
      requires Enabled(View(), CoreAsked(c, only))
      modifies this
      ensures View() == Next(old(View()), CoreAsked(c, only))
      ensures forall st :: Sound(old(View()), st) ==> Sound(View(), Moved(old(View()), st, CoreAsked(c, only)))
      ensures only && NoServiceLeft(old(View()), c) ==> cores[c].stopped && cores[c].flagged
      ensures only && !NoServiceLeft(old(View()), c) && cores[c].shutdown && !old(cores)[c].flagged ==>
                cores[c].flagged && cores[c].callback && !cores[c].stopped
      ensures count == if only && !old(cores)[c].flagged && (NoServiceLeft(old(View()), c) || cores[c].shutdown)
                       then old(count) - 1 else old(count)
    {
      StepKeepsSound(View(), CoreAsked(c, only));
      hide Sound, Moved;
      if only {
        if NoServiceLeft(View(), c) {
          if !cores[c].flagged {
            GiveUpShare(c);
          }
          cores := cores[c := cores[c].(flagged := true, stopped := true)];
        } else if cores[c].shutdown && !cores[c].flagged {
          GiveUpShare(c);
          cores := cores[c := cores[c].(callback := true)];
        }
      }
    }

    /** The callback that waits for the count to reach zero. */
    method OnCallback(c: nat)
      requires Enabled(View(), Callback(c))
      modifies this
      ensures View() == Next(old(View()), Callback(c))
      ensures forall st :: Sound(old(View()), st) ==> Sound(View(), Moved(old(View()), st, Callback(c)))
    {
      StepKeepsSound(View(), Callback(c));
      hide Sound, Moved;
      if count == 0 {
        cores := cores[c := cores[c].(callback := false)];
        DestroyServiceActors(c);
      }
    }

    method DestroyServiceActors(c: nat)
      requires c < |cores|
      modifies `cores, `services
      ensures cores == old(cores)[c := old(cores)[c].(destroyTime := true)]
      ensures services == AllRequested(old(services), c)
    {
      cores := cores[c := cores[c].(destroyTime := true)];
      for i := 0 to |services|
        invariant |services| == |old(services)| && cores == old(cores)[c := old(cores)[c].(destroyTime := true)]
        invariant forall j :: 0 <= j < |services| ==>
                    services[j] == if j < i then Requested(old(services)[j], c) else old(services)[j]
      {
        if services[i].core == c && services[i].live {
          services := services[i := services[i].(queued := true)];
        }
      }
      assert services == AllRequested(old(services), c);
    }

    /** ServiceActorWrapper::onDestroyRequest, and the wrapper's destructor when the service accepts. */
    method ServiceOnDestroyRequest(i: nat, agrees: bool)
      requires Enabled(View(), ServiceAsked(i, agrees))
      modifies this
      ensures View() == Next(old(View()), ServiceAsked(i, agrees))
      ensures forall st :: Sound(old(View()), st) ==> Sound(View(), Moved(old(View()), st, ServiceAsked(i, agrees)))
    {
      StepKeepsSound(View(), ServiceAsked(i, agrees));
      hide Sound, Moved;
      services := services[i := services[i].(queued := false)];
      var s := services[i];
      if cores[s.core].destroyTime && s.last {
        if agrees {
          services := services[i := s.(live := false, pending := true)];
          deleted := deleted + [i];
        } else {
          services := services[i := s.(refused := true)];
        }
      }
    }

    /** DestroyEventActor::onDestroyRequest: without memory for the event it asks to be asked again. */
    method HolderOnDestroyRequest(i: nat, memory: bool)
      requires Enabled(View(), HolderAsked(i, memory))
      modifies this
      ensures View() == Next(old(View()), HolderAsked(i, memory))
      ensures forall st :: Sound(old(View()), st) ==> Sound(View(), Moved(old(View()), st, HolderAsked(i, memory)))
    {
      StepKeepsSound(View(), HolderAsked(i, memory));
      hide Sound, Moved;
      var accepted := true;
      if i != 0 {
        if memory {
          inFlight := inFlight + [i - 1];
        } else {
          accepted := false;
        }
      }
      if accepted {
        services := services[i := services[i].(holder := false, pending := false)];
      }
    }

    /** DestroyEventActor::onEvent: the service is still there and does not hold the token yet. */
    method HolderOnEvent(i: nat, ghost st: Stage)
      requires Sound(View(), st) && Enabled(View(), Deliver(i))
      modifies this
      ensures View() == Next(old(View()), Deliver(i)) && Sound(View(), InService(i))
    {
      DeliveryIsSafe(View(), st, i);
      StepMovesToken(View(), st, Deliver(i));
      StepKeepsGate(View(), st, Deliver(i));
      hide Gate, At;
      assert services[i].live;
      assert !services[i].last;
      inFlight := inFlight[1..];
      services := services[i := services[i].(last := true, queued := true)];
    }
  }
}
