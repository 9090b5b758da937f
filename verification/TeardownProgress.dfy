/**
 The teardown of services comes to its end: from wherever it stands, steps lead to all cores stopped and every service
 deleted, as long as services agree to go, events find memory, and a core that may find only services left does so.
 */
module TeardownProgress {
  import opened Services

  /** Nobody stands in the way. */
  predicate Agreeable(a: Action) {
    match a
    case CoreAsked(_, only) => only
    case ServiceAsked(_, agrees) => agrees
    case HolderAsked(_, memory) => memory
    case _ => true
  }

  // ---------- how much is left to do ----------

  function Open(cores: seq<Core>): nat {
    if cores == [] then 0 else (if cores[0].shutdown then 0 else 1) + Open(cores[1..])
  }

  function Waiting(cores: seq<Core>): nat {
    if cores == [] then 0 else (if cores[0].callback then 1 else 0) + Waiting(cores[1..])
  }

  function Running(cores: seq<Core>): nat {
    if cores == [] then 0 else (if cores[0].stopped then 0 else 1) + Running(cores[1..])
  }

  /** How far the token has to go; a service that holds it may have to be asked again. */
  function TokenLeft(m: Machine, st: Stage): nat {
    match st
    case InService(k) => 4 * k + 3 + if k < |m.services| && !m.services[k].queued then 1 else 0
    case Pending(k) => 4 * k + 2
    case InFlight(k) => 4 * k + 5
    case Used => 0
  }

  lemma {:induction false} CountsUpdate(cores: seq<Core>, c: nat, k: Core)
    requires c < |cores|
    ensures Open(cores[c := k]) + (if cores[c].shutdown then 0 else 1) == Open(cores) + if k.shutdown then 0 else 1
    ensures Waiting(cores[c := k]) + (if cores[c].callback then 1 else 0) == Waiting(cores) + if k.callback then 1
            else 0
    ensures Running(cores[c := k]) + (if cores[c].stopped then 0 else 1) == Running(cores) + if k.stopped then 0 else 1
  {
    if c == 0 {
      assert cores[c := k][1..] == cores[1..];
    } else {
      assert cores[c := k][1..] == cores[1..][c - 1 := k];
      CountsUpdate(cores[1..], c - 1, k);
    }
  }

  lemma {:induction false} CountsZero(cores: seq<Core>)
    ensures Open(cores) == 0 <==> forall c {:trigger cores[c]} :: 0 <= c < |cores| ==> cores[c].shutdown
    ensures Waiting(cores) == 0 <==> forall c {:trigger cores[c]} :: 0 <= c < |cores| ==> !cores[c].callback
    ensures Running(cores) == 0 <==> forall c {:trigger cores[c]} :: 0 <= c < |cores| ==> cores[c].stopped
  {
    if cores != [] {
      assert cores == [cores[0]] + cores[1..];
      CountsZero(cores[1..]);
    }
  }

  /** Each number is less after the step, or is the same and one behind it is. */
  predicate Less(m: Machine, st: Stage, n: Machine, u: Stage) {
    var a, b := Numbers(m, st), Numbers(n, u);
    || b.0 < a.0
    || (b.0 == a.0 && (b.1 < a.1 || (b.1 == a.1 &&
        (b.2 < a.2 || (b.2 == a.2 && (b.3 < a.3 || (b.3 == a.3 && b.4 < a.4)))))))
  }

  function Numbers(m: Machine, st: Stage): (nat, nat, nat, nat, nat) {
    (Open(m.cores) + (if m.finished then 0 else 1), Unflagged(m.cores), Waiting(m.cores), TokenLeft(m, st),
        Running(m.cores))
  }

  ghost predicate AllStopped(m: Machine) {
    forall c {:trigger m.cores[c]} :: 0 <= c < |m.cores| ==> m.cores[c].stopped
  }

  /** A step anybody would take next. */
  ghost predicate Onward(m: Machine, st: Stage, a: Action) {
    Enabled(m, a) && Agreeable(a) && Less(m, st, Next(m, a), Moved(m, st, a))
  }

  lemma ShutsDown(m: Machine, st: Stage) returns (a: Action)
    requires Sound(m, st) && !m.finished
    ensures Onward(m, st, a)
  {
    CountsZero(m.cores);
    if c :| 0 <= c < |m.cores| && !m.cores[c].shutdown {
      a := ShutdownCore(c);
      CountsUpdate(m.cores, c, m.cores[c].(shutdown := true));
    } else {
      a := FinishEngine;
    }
  }

  /** While the count is not zero no service has gone, and so no destroy actor is alone. */
  lemma NoneGone(m: Machine, st: Stage, c: nat)
    requires Sound(m, st) && m.count != 0
    ensures NoStrayHolder(m, c)
  {
    forall i {:trigger m.services[i]} | 0 <= i < |m.services| && m.services[i].core == c
      ensures m.services[i].live || !m.services[i].holder {
      assert ServiceOk(m, m.services[i]);
      assert m.services[i].core < |m.cores| && CoreOk(m, m.services[i].core);
    }
  }

  lemma GivesUpShare(m: Machine, st: Stage) returns (a: Action)
    requires Sound(m, st) && m.finished && Unflagged(m.cores) > 0
    ensures Onward(m, st, a)
  {
    UnflaggedZero(m.cores);
    var c :| 0 <= c < |m.cores| && !m.cores[c].flagged;
    assert CoreOk(m, c);
    NoneGone(m, st, c);
    a := CoreAsked(c, true);
    var k := Next(m, a).cores[c];
    CountsUpdate(m.cores, c, k);
    UnflaggedUpdate(m.cores, c, k);
    assert Next(m, a).cores == m.cores[c := k];
  }

  lemma CallsBack(m: Machine, st: Stage) returns (a: Action)
    requires Sound(m, st) && m.finished && Unflagged(m.cores) == 0 && Waiting(m.cores) > 0
    ensures Onward(m, st, a)
  {
    CountsZero(m.cores);
    var c :| 0 <= c < |m.cores| && m.cores[c].callback;
    a := Callback(c);
    var k := m.cores[c].(callback := false, destroyTime := true);
    CountsUpdate(m.cores, c, k);
    UnflaggedUpdate(m.cores, c, k);
  }

  lemma MovesToken(m: Machine, st: Stage) returns (a: Action)
    requires Sound(m, st) && m.finished && Unflagged(m.cores) == 0 && Waiting(m.cores) == 0 && !st.Used?
    ensures Onward(m, st, a)
  {
    UnflaggedZero(m.cores);
    CountsZero(m.cores);
    match st
    case InService(k) =>
      var s := m.services[k];
      assert s.live && ServiceOk(m, s) && CoreOk(m, s.core);
      a := if s.queued then ServiceAsked(k, true) else Poke(k);
    case Pending(k) =>
      assert m.services[k].pending;
      a := HolderAsked(k, true);
    case InFlight(k) =>
      assert m.services[k].live;
      a := Deliver(k);
    case Used =>
  }

  lemma StopsCore(m: Machine, st: Stage) returns (a: Action)
    requires Sound(m, st) && m.finished && Unflagged(m.cores) == 0 && Waiting(m.cores) == 0 && st.Used?
    requires !AllStopped(m)
    ensures Onward(m, st, a)
  {
    var c :| 0 <= c < |m.cores| && !m.cores[c].stopped;
    UnflaggedZero(m.cores);
    a := CoreAsked(c, true);
    var k := Next(m, a).cores[c];
    CountsUpdate(m.cores, c, k);
    UnflaggedUpdate(m.cores, c, k);
    assert Next(m, a).cores == m.cores[c := k];
  }

  lemma NextStep(m: Machine, st: Stage) returns (a: Action)
    requires Sound(m, st) && !(m.finished && AllStopped(m))
    ensures Onward(m, st, a)
  {
    if !m.finished {
      a := ShutsDown(m, st);
    } else if Unflagged(m.cores) > 0 {
      a := GivesUpShare(m, st);
    } else if Waiting(m.cores) > 0 {
      a := CallsBack(m, st);
    } else if !st.Used? {
      a := MovesToken(m, st);
    } else {
      a := StopsCore(m, st);
    }
    hide Sound, Onward;
  }

  lemma GoesOn(m: Machine, st: Stage, a: Action)
    requires Sound(m, st) && Enabled(m, a)
    ensures Sound(Next(m, a), Moved(m, st, a)) && |Next(m, a).services| == |m.services|
  {
    hide Sound, Moved;
    StepKeepsSound(m, a);
    SameServices(m, a);
  }

  lemma {:induction false} Completes(coreOf: seq<nat>, cores: nat, done: seq<Action>, m: Machine, st: Stage)
    returns (more: seq<Action>, end: Machine, last: Stage)
    requires Reaches(coreOf, cores, done, m) && Sound(m, st) && |m.services| == |coreOf|
    ensures Reaches(coreOf, cores, done + more, end) && Sound(end, last) && |end.services| == |coreOf|
    ensures end.finished && AllStopped(end) && forall a :: a in more ==> Agreeable(a)
    decreases Numbers(m, st).0, Numbers(m, st).1, Numbers(m, st).2, Numbers(m, st).3, Numbers(m, st).4
  {
    hide Sound, Numbers, Next, Moved;
    if m.finished && AllStopped(m) {
      more, end, last := [], m, st;
      assert done + [] == done;
    } else {
      var a := NextStep(m, st);
      GoesOn(m, st, a);
      OneMore(coreOf, cores, done, m, a);
      var rest;
      rest, end, last := Completes(coreOf, cores, done + [a], Next(m, a), Moved(m, st, a));
      more := [a] + rest;
      assert done + [a] + rest == done + more;
    }
  }

  lemma OneMore(coreOf: seq<nat>, cores: nat, done: seq<Action>, m: Machine, a: Action)
    requires Reaches(coreOf, cores, done, m) && Enabled(m, a)
    ensures Reaches(coreOf, cores, done + [a], Next(m, a))
  {
    assert (done + [a])[..|done|] == done;
  }

  /**
   Whatever has happened so far, the teardown can be completed by agreeable steps alone: the engine is finished, every
   core has stopped, and all services have been deleted in reverse declaration order.
   */
  lemma TeardownCompletes(coreOf: seq<nat>, cores: nat, done: seq<Action>, m: Machine)
    returns (more: seq<Action>, end: Machine)
    requires forall i {:trigger coreOf[i]} :: 0 <= i < |coreOf| ==> coreOf[i] < cores
    requires Reaches(coreOf, cores, done, m)
    ensures Reaches(coreOf, cores, done + more, end) && forall a :: a in more ==> Agreeable(a)
    ensures end.finished && AllStopped(end) && end.count == 0 && end.inFlight == []
    ensures end.deleted == Downwards(|coreOf|, 0)
  {
    var st := EveryTeardownIsSound(coreOf, cores, done, m);
    var last;
    more, end, last := Completes(coreOf, cores, done, m, st);
    hide Reaches;
    AllStoppedIsAllGone(end, last);
  }
}
