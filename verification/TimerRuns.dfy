/** The timer multiplexer over whole runs, and what a clock that reads zero does to it. */
module TimerRuns {
  import opened Sequences
  import opened Timers

  /** A proxy is set or unset by its actor, or the timer service sends its event. */
  datatype Step = Act(op: Op) | Tick(t: nat, onTimeout: nat -> seq<Op>)

  const Fresh: Mux := Mux(map[], [], [], false, [], [])

  function After(m: Mux, step: Step): Mux {
    match step
    case Act(op) => Do(m, op)
    case Tick(t, onTimeout) => TimeOut(m, t, onTimeout)
  }

  function Run(steps: seq<Step>): Mux {
    if steps == [] then Fresh else After(Run(steps[..|steps| - 1]), steps[|steps| - 1])
  }

  /** The clock of the latest event, 0 if there was none. */
  function Clock(steps: seq<Step>): nat {
    if steps == [] then 0
    else if steps[|steps| - 1].Tick? then steps[|steps| - 1].t
    else Clock(steps[..|steps| - 1])
  }

  /** No proxy is forgotten: an event is asked for that is not too late for any of them, or one right now. */
  ghost predicate Attended(m: Mux, t: nat) {
    || m.chain == []
    || (m.inProgress && m.requests != [] && m.requests[|m.requests| - 1] == 0)
    || Covered(m, t)
  }

  lemma UnsetAttends(m: Mux, id: nat, t: nat)
    requires Inv(m) && Attended(m, t)
    ensures Attended(Cleared(m, id), t)
  {
    ClearedKeeps(m, id);
    hide Inv, Without;
  }

  lemma SetAttends(m: Mux, op: Op, t: nat)
    requires Inv(m) && op.Set?
    ensures Attended(Do(m, op), t)
  {
    DoInv(m, op);
  }

  lemma DoSparesDue(m: Mux, op: Op)
    requires m.due == []
    ensures Do(m, op).due == []
  {
  }

  /** Whatever actors set and unset, in callbacks and between events, every proxy that is set is attended to. */
  lemma {:induction false} EveryRunAttends(steps: seq<Step>)
    requires forall k :: 0 <= k < |steps| && steps[k].Tick? ==> steps[k].t > 0
    ensures Inv(Run(steps)) && Run(steps).due == [] && Attended(Run(steps), Clock(steps))
  {
    if steps != [] {
      var last := |steps| - 1;
      EveryRunAttends(steps[..last]);
      StepAttends(Run(steps[..last]), steps[last], Clock(steps[..last]));
      hide Inv, Attended, After;
    }
  }

  lemma StepAttends(m: Mux, step: Step, clock: nat)
    requires Inv(m) && m.due == [] && Attended(m, clock) && (step.Tick? ==> step.t > 0)
    ensures var n := After(m, step);
            Inv(n) && n.due == [] && Attended(n, if step.Tick? then step.t else clock)
  {
    match step
    case Act(op) =>
      DoInv(m, op);
      DoSparesDue(m, op);
      if op.Set? {
        SetAttends(m, op, clock);
      } else {
        UnsetAttends(m, op.id, clock);
      }
      hide Inv, Attended;
    case Tick(t, onTimeout) =>
      TimeOutCovers(m, t, onTimeout);
      hide Inv, Covered;
  }

  // ---------- a clock that reads zero ----------

  /** The proxy is set and not started, and its time is not up. */
  predicate Idle(m: Mux, id: nat) {
    id in m.chain && id !in m.due && Unstarted(m, id) && m.proxies[id].duration > 0
  }

  lemma {:induction false} WithoutOther(s: seq<nat>, x: nat, y: nat)
    requires x != y
    ensures y in Without(s, x) <==> y in s
  {
    if s != [] && s[0] != x {
      WithoutOther(s[1..], x, y);
    }
  }

  lemma {:induction false} DoAllLeavesIdle(m: Mux, ops: seq<Op>, id: nat)
    requires Idle(m, id) && forall op :: op in ops ==> op.id != id
    ensures Idle(DoAll(m, ops), id)
    decreases |ops|
  {
    if ops != [] {
      assert ops[0] in ops && forall op :: op in ops[1..] ==> op in ops;
      WithoutOther(m.chain, ops[0].id, id);
      WithoutOther(m.due, ops[0].id, id);
      hide Without;
      DoAllLeavesIdle(Do(m, ops[0]), ops[1..], id);
    }
  }

  lemma {:induction false} SweepLeavesIdle(s: Sweep, chain: seq<nat>, id: nat)
    requires id in s.proxies && s.proxies[id].start == 0 && s.proxies[id].duration > 0
    requires (id in s.kept || id in chain) && id !in s.due
    ensures var e := Swept(s, chain, 0);
            id in e.kept && id !in e.due && id in e.proxies && e.proxies[id] == s.proxies[id]
    decreases |chain|
  {
    if chain != [] {
      assert id in chain ==> id == chain[0] || id in chain[1..];
      if chain[0] !in s.proxies {
        SweepLeavesIdle(s, chain[1..], id);
      } else {
        SweepLeavesIdle(SweptOne(s, chain[0], 0), chain[1..], id);
      }
    }
  }

  lemma {:induction false} FiringLeavesIdle(m: Mux, min: Nanos, onTimeout: nat -> seq<Op>, id: nat)
    requires Idle(m, id) && forall x, op :: op in onTimeout(x) ==> op.id != id
    ensures Idle(FiredAll(m, 0, min, onTimeout).mux, id)
    decreases |m.due|
  {
    if m.due != [] && m.due[0] in m.proxies {
      var n, ops := Popped(m, 0), onTimeout(m.due[0]);
      DoAllShrinks(n, ops);
      DoAllLeavesIdle(n, ops, id);
      FiringLeavesIdle(DoAll(n, ops), PoppedMin(m, min), onTimeout, id);
    }
  }

  lemma {:induction false} PrefixLeavesUnstarted(s: Sweep, chain: seq<nat>, id: nat)
    requires id in s.proxies && s.proxies[id].start == 0
    ensures var e := PrefixStarted(s, chain, 0); id in e.proxies && e.proxies[id].start == 0
    decreases |chain|
  {
    if chain != [] && chain[0] in s.proxies && s.proxies[chain[0]].start == 0 {
      var p := s.proxies[chain[0]];
      PrefixLeavesUnstarted(
        s.(proxies := s.proxies[chain[0] := p.(start := 0)], min := Min(s.min, p.duration)), chain[1..], id);
    }
  }

  /**
   At a clock that reads zero a set proxy does not start, however many others are set and whatever the callbacks do
   to those: its start time still says it has not.
   */
  lemma ClockZeroStartsNothing(m: Mux, id: nat, onTimeout: nat -> seq<Op>)
    requires m.due == [] && Idle(m, id) && forall x, op :: op in onTimeout(x) ==> op.id != id
    ensures var n := TimeOut(m, 0, onTimeout); id in n.chain && Unstarted(n, id) && !Covered(n, 0)
  {
    var s := Swept(Sweep(m.proxies, [], [], MAX_TIME), m.chain, 0);
    SweepLeavesIdle(Sweep(m.proxies, [], [], MAX_TIME), m.chain, id);
    var b := m.(inProgress := false, proxies := s.proxies, chain := s.kept, due := s.due);
    FiringLeavesIdle(b, s.min, onTimeout, id);
    var f := FiredAll(b, 0, s.min, onTimeout);
    PrefixLeavesUnstarted(Sweep(f.mux.proxies, [], [], f.min), f.mux.chain, id);
    hide Swept, FiredAll, PrefixStarted;
  }

  /** A time-out leaves such a proxy started and covered iff its clock does not read zero. */
  lemma CoveredIffClockRuns(m: Mux, id: nat, t: nat, onTimeout: nat -> seq<Op>)
    requires Inv(m) && m.due == [] && Idle(m, id) && forall x, op :: op in onTimeout(x) ==> op.id != id
    ensures Covered(TimeOut(m, t, onTimeout), t) <==> t != 0
  {
    if t == 0 {
      ClockZeroStartsNothing(m, id, onTimeout);
    } else {
      TimeOutCovers(m, t, onTimeout);
    }
  }

  /** It is enough to set one proxy and have the event come at zero. */
  lemma ClockZeroReached(id: nat, duration: Nanos, repeated: bool)
    requires duration > 0
    ensures var m := Run([Act(Op.Set(id, duration, repeated))]);
            && m.due == [] && Idle(m, id)
            && !Covered(After(m, Tick(0, _ => [])), 0) && Unstarted(After(m, Tick(0, _ => [])), id)
  {
    var step := Act(Op.Set(id, duration, repeated));
    assert [step][..0] == [] && Run([]) == Fresh;
    assert Run([step]) == After(Fresh, step) == Do(Fresh, Op.Set(id, duration, repeated));
    assert Cleared(Fresh, id) == Fresh;
    var m := Run([step]);
    assert [id] + [] == [id] && m.chain == [id];
    ClockZeroStartsNothing(m, id, _ => []);
  }
}
