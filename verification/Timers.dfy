/**
 The timer multiplexer of one core: any number of timer proxies share one chain and one outstanding request to the
 timer service.  Times are in nanoseconds; a start time of 0 means "not started yet".
 */
module Timers {
  import opened Sequences

  const MAX_TIME: int := 0x7fff_ffff_ffff_ffff
  const MIN_TIME: int := -0x8000_0000_0000_0000

  type Nanos = x: int | MIN_TIME <= x <= MAX_TIME

  datatype Proxy = Proxy(start: nat, duration: Nanos, repeated: bool)

  datatype Firing = Firing(id: nat, start: nat, duration: Nanos, time: nat)

  /**
   chain: the set proxies; due: those timed out by the event being handled and not yet called; requests: the
   delays asked of the timer service, the last of which it follows; fired: history.
   */
  datatype Mux = Mux(proxies: map<nat, Proxy>, chain: seq<nat>, due: seq<nat>, inProgress: bool,
                     requests: seq<Nanos>, fired: seq<Firing>)

  /** What a timeout callback may do with any proxy; destroying a proxy is unsetting it. */
  datatype Op = Set(id: nat, duration: Nanos, repeated: bool) | Unset(id: nat)

  // ---------- the operations ----------

  /** A request for "now" is not repeated while one is under way; any other replaces it. */
  function Asked(m: Mux, delay: Nanos): Mux {
    if delay == 0 && m.inProgress then m
    else m.(inProgress := delay == 0, requests := m.requests + [delay])
  }

  function Cleared(m: Mux, id: nat): Mux {
    m.(chain := Without(m.chain, id), due := Without(m.due, id))
  }

  function Do(m: Mux, op: Op): Mux {
    match op
    case Unset(id) => Cleared(m, id)
    case Set(id, duration, repeated) =>
      var c := Cleared(m, id);
      Asked(c.(proxies := c.proxies[id := Proxy(0, duration, repeated)], chain := [id] + c.chain), 0)
  }

  function DoAll(m: Mux, ops: seq<Op>): Mux
    decreases |ops|
  {
    if ops == [] then m else DoAll(Do(m, ops[0]), ops[1..])
  }

  // ---------- a time-out event ----------

  function Elapsed(p: Proxy, t: nat): nat {
    var start := if p.start == 0 then t else p.start;
    if t > start then t - start else start - t
  }

  function Min(a: Nanos, b: Nanos): Nanos {
    if b < a then b else a
  }

  /** The remaining time of a proxy whose time has not come. */
  function Remaining(p: Proxy, t: nat): Nanos
    requires Elapsed(p, t) < p.duration
  {
    p.duration - Elapsed(p, t)
  }

  datatype Sweep = Sweep(proxies: map<nat, Proxy>, kept: seq<nat>, due: seq<nat>, min: Nanos)

  function Started(p: Proxy, t: nat): Proxy {
    if p.start == 0 then p.(start := t) else p
  }

  /** The first loop: unstarted proxies start, and the chain is split by what has timed out. */
  function Swept(s: Sweep, chain: seq<nat>, t: nat): Sweep
    decreases |chain|
  {
    if chain == [] then s
    else
      var id, rest := chain[0], chain[1..];
      if id !in s.proxies then Swept(s, rest, t)
      else
        var p := Started(s.proxies[id], t);
        var u := s.(proxies := s.proxies[id := p]);
        if Elapsed(p, t) < p.duration then
          Swept(u.(kept := s.kept + [id], min := Min(s.min, Remaining(p, t))), rest, t)
        else Swept(u.(due := s.due + [id]), rest, t)
  }

  /** Leaving the due chain: a repeated proxy starts again at the end of the chain. */
  function Popped(m: Mux, t: nat): Mux
    requires m.due != [] && m.due[0] in m.proxies
  {
    var id := m.due[0];
    var p := m.proxies[id];
    var n := m.(due := m.due[1..], fired := m.fired + [Firing(id, p.start, p.duration, t)]);
    if p.repeated then n.(proxies := m.proxies[id := p.(start := t)], chain := m.chain + [id]) else n
  }

  function PoppedMin(m: Mux, min: Nanos): Nanos
    requires m.due != [] && m.due[0] in m.proxies
  {
    var p := m.proxies[m.due[0]];
    if p.repeated then Min(min, p.duration) else min
  }

  datatype Fired = Fired(mux: Mux, min: Nanos)

  /** The second loop: each due proxy is called, unless an earlier callback set or unset it. */
  function FiredAll(m: Mux, t: nat, min: Nanos, onTimeout: nat -> seq<Op>): Fired
    decreases |m.due|
  {
    if m.due == [] || m.due[0] !in m.proxies then Fired(m, min)
    else
      DoAllShrinks(Popped(m, t), onTimeout(m.due[0]));
      FiredAll(DoAll(Popped(m, t), onTimeout(m.due[0])), t, PoppedMin(m, min), onTimeout)
  }

  /** The third loop: it stops at the first proxy already started. */
  function PrefixStarted(s: Sweep, chain: seq<nat>, t: nat): Sweep
    decreases |chain|
  {
    if chain == [] || chain[0] !in s.proxies || s.proxies[chain[0]].start != 0 then s
    else
      var p := s.proxies[chain[0]];
      PrefixStarted(s.(proxies := s.proxies[chain[0] := p.(start := t)], min := Min(s.min, p.duration)), chain[1..], t)
  }

  function TimeOut(m: Mux, t: nat, onTimeout: nat -> seq<Op>): Mux {
    var s := Swept(Sweep(m.proxies, [], [], MAX_TIME), m.chain, t);
    var f := FiredAll(m.(inProgress := false, proxies := s.proxies, chain := s.kept, due := s.due), t, s.min,
        onTimeout);
    var e := PrefixStarted(Sweep(f.mux.proxies, [], [], f.min), f.mux.chain, t);
    var n := f.mux.(proxies := e.proxies);
    if n.chain == [] then n else Asked(n, e.min)
  }

  /** Nothing a callback does adds to the due chain: the loop over it ends. */
  lemma {:induction false} DoAllShrinks(m: Mux, ops: seq<Op>)
    ensures |DoAll(m, ops).due| <= |m.due|
    decreases |ops|
  {
    if ops != [] {
      WithoutFewer(m.due, ops[0].id);
      DoAllShrinks(Do(m, ops[0]), ops[1..]);
    }
  }

  // ---------- the invariant ----------

  predicate Unstarted(m: Mux, id: nat) {
    id in m.proxies && m.proxies[id].start == 0
  }

  /** The proxies not started yet are a prefix of the chain; a proxy is in one chain at most. */
  ghost predicate Inv(m: Mux) {
    && Distinct(m.chain) && Distinct(m.due)
    && (forall id :: id in m.chain ==> id in m.proxies && id !in m.due)
    && (forall id :: id in m.due ==> id in m.proxies)
    && (forall i, j :: 0 <= i < j < |m.chain| && Unstarted(m, m.chain[j]) ==> Unstarted(m, m.chain[i]))
    && (m.inProgress ==> m.requests != [] && m.requests[|m.requests| - 1] == 0)
  }

  lemma {:induction false} WithoutShape(s: seq<nat>, x: nat) returns (k: nat)
    ensures k <= |s| && Without(s, x) == if k == |s| then s else s[..k] + s[k + 1..]
    ensures k < |s| ==> s[k] == x
    ensures k == |s| ==> x !in s
  {
    if s == [] || s[0] == x {
      k := 0;
    } else {
      var j := WithoutShape(s[1..], x);
      k := j + 1;
      assert s == [s[0]] + s[1..];
      if k < |s| {
        assert s[..k] + s[k + 1..] == [s[0]] + (s[1..][..j] + s[1..][j + 1..]);
      }
    }
  }

  ghost predicate Before(s: seq<nat>, x: nat, y: nat) {
    exists k, l :: 0 <= k < l < |s| && s[k] == x && s[l] == y
  }

  ghost predicate SubOrder(w: seq<nat>, s: seq<nat>) {
    forall i, j :: 0 <= i < j < |w| ==> Before(s, w[i], w[j])
  }

  lemma WithoutOrder(s: seq<nat>, x: nat)
    ensures SubOrder(Without(s, x), s)
  {
    var n := WithoutShape(s, x);
    var w := Without(s, x);
    hide Without;
    forall i, j | 0 <= i < j < |w| ensures Before(s, w[i], w[j]) {
      var k, l := if i < n then i else i + 1, if j < n then j else j + 1;
      assert s[k] == w[i] && s[l] == w[j];
    }
  }

  /** Taking one element out of a chain without repetitions: the rest stays, in its order. */
  lemma WithoutMeaning(s: seq<nat>, x: nat)
    requires Distinct(s)
    ensures Distinct(Without(s, x)) && forall y :: y in Without(s, x) <==> y in s && y != x
    ensures SubOrder(Without(s, x), s)
  {
    WithoutIs(s, x);
    WithoutOrder(s, x);
  }

  lemma ClearedKeeps(m: Mux, id: nat)
    requires Inv(m)
    ensures Inv(Cleared(m, id)) && id !in Cleared(m, id).chain && id !in Cleared(m, id).due
    ensures forall x :: x in Cleared(m, id).chain ==> x in m.chain
    ensures forall x :: x in Cleared(m, id).due ==> x in m.due
  {
    WithoutMeaning(m.chain, id);
    WithoutMeaning(m.due, id);
    var c := Cleared(m, id);
    hide Without;
    forall i, j | 0 <= i < j < |c.chain| && Unstarted(c, c.chain[j]) ensures Unstarted(c, c.chain[i]) {
      assert Before(m.chain, c.chain[i], c.chain[j]);
      var k, l :| 0 <= k < l < |m.chain| && m.chain[k] == c.chain[i] && m.chain[l] == c.chain[j];
      assert Unstarted(m, m.chain[l]);
    }
  }

  lemma AskedKeeps(m: Mux, delay: Nanos)
    requires Inv(m)
    ensures Inv(Asked(m, delay)) && Asked(m, delay).requests != []
    ensures var r := Asked(m, delay).requests; r[|r| - 1] == delay
  {
  }

  /** The set proxy goes to the front, where the unstarted ones are. */
  lemma SetKeeps(c: Mux, id: nat, p: Proxy)
    requires Inv(c) && id !in c.chain && id !in c.due && p.start == 0
    ensures Inv(c.(proxies := c.proxies[id := p], chain := [id] + c.chain))
  {
    var n := c.(proxies := c.proxies[id := p], chain := [id] + c.chain);
    forall i, j | 0 <= i < j < |n.chain| && Unstarted(n, n.chain[j]) ensures Unstarted(n, n.chain[i]) {
      if i > 0 {
        assert n.chain[i] == c.chain[i - 1] && n.chain[j] == c.chain[j - 1] && Unstarted(c, c.chain[j - 1]);
      }
    }
  }

  lemma DoInv(m: Mux, op: Op)
    requires Inv(m)
    ensures Inv(Do(m, op))
  {
    ClearedKeeps(m, op.id);
    match op
    case Unset(id) =>
    case Set(id, duration, repeated) =>
      var c := Cleared(m, id);
      SetKeeps(c, id, Proxy(0, duration, repeated));
      hide Inv, Without;
      AskedKeeps(c.(proxies := c.proxies[id := Proxy(0, duration, repeated)], chain := [id] + c.chain), 0);
  }

  // ---------- what a callback cannot spoil ----------

  /** Everything due has timed out. */
  ghost predicate DueOk(m: Mux, t: nat) {
    forall id :: id in m.due ==> id in m.proxies && Elapsed(m.proxies[id], t) >= m.proxies[id].duration
  }

  /** min is no later than the time any started proxy of the chain still has. */
  ghost predicate MinOk(m: Mux, t: nat, min: int) {
    forall id :: id in m.chain && id in m.proxies && m.proxies[id].start != 0 ==>
      min <= m.proxies[id].duration - Elapsed(m.proxies[id], t)
  }

  lemma DoKeeps(m: Mux, op: Op, t: nat, min: int)
    requires Inv(m) && DueOk(m, t) && MinOk(m, t, min)
    ensures Inv(Do(m, op)) && DueOk(Do(m, op), t) && MinOk(Do(m, op), t, min) && Do(m, op).fired == m.fired
  {
    DoInv(m, op);
    ClearedKeeps(m, op.id);
    hide Inv, Without;
  }

  lemma {:induction false} DoAllKeeps(m: Mux, ops: seq<Op>, t: nat, min: int)
    requires Inv(m) && DueOk(m, t) && MinOk(m, t, min)
    ensures var n := DoAll(m, ops); Inv(n) && DueOk(n, t) && MinOk(n, t, min) && n.fired == m.fired
    decreases |ops|
  {
    hide Inv, DueOk, MinOk, Do;
    if ops != [] {
      DoKeeps(m, ops[0], t, min);
      DoAllKeeps(Do(m, ops[0]), ops[1..], t, min);
    }
  }

  // ---------- the three loops ----------

  ghost predicate SweepOk(s: Sweep, rest: seq<nat>, t: nat) {
    && Distinct(s.kept) && Distinct(s.due) && Distinct(rest)
    && (forall id :: id in rest ==> id in s.proxies && id !in s.kept && id !in s.due)
    && (forall id :: id in s.kept ==> id in s.proxies && id !in s.due && s.proxies[id].start != 0
                                      && s.min <= s.proxies[id].duration - Elapsed(s.proxies[id], t))
    && (forall id :: id in s.due ==> id in s.proxies && Elapsed(s.proxies[id], t) >= s.proxies[id].duration)
  }

  /** One turn of the first loop. */
  function SweptOne(s: Sweep, id: nat, t: nat): Sweep
    requires id in s.proxies
  {
    var p := Started(s.proxies[id], t);
    var u := s.(proxies := s.proxies[id := p]);
    if Elapsed(p, t) < p.duration then u.(kept := s.kept + [id], min := Min(s.min, Remaining(p, t)))
    else u.(due := s.due + [id])
  }

  lemma SweptOneOk(s: Sweep, rest: seq<nat>, t: nat)
    requires SweepOk(s, rest, t) && rest != [] && t > 0
    ensures SweepOk(SweptOne(s, rest[0], t), rest[1..], t)
  {
    var id, n := rest[0], SweptOne(s, rest[0], t);
    assert forall x :: x in rest[1..] ==> x in rest && x != id;
    assert forall x :: x in n.kept ==> x in s.kept || x == id;
    assert forall x :: x in n.due ==> x in s.due || x == id;
    assert id in rest;
  }

  lemma {:induction false} SweptOk(s: Sweep, chain: seq<nat>, t: nat)
    requires SweepOk(s, chain, t) && t > 0
    ensures SweepOk(Swept(s, chain, t), [], t)
    decreases |chain|
  {
    if chain != [] {
      assert chain[0] in chain;
      SweptOneOk(s, chain, t);
      hide SweepOk;
      SweptOk(SweptOne(s, chain[0], t), chain[1..], t);
    }
  }

  lemma PoppedKeeps(m: Mux, t: nat, min: Nanos)
    requires Inv(m) && DueOk(m, t) && MinOk(m, t, min) && m.due != [] && t > 0
    ensures m.due[0] in m.proxies
    ensures Inv(Popped(m, t)) && DueOk(Popped(m, t), t) && MinOk(Popped(m, t), t, PoppedMin(m, min))
    ensures var f := Popped(m, t).fired[|m.fired|]; Popped(m, t).fired == m.fired + [f] && FiredInTime(f) && f.time == t
  {
    var id := m.due[0];
    assert id in m.due && id !in m.chain && id !in m.due[1..];
    assert forall x :: x in m.due[1..] ==> x in m.due;
    PoppedInv(m, t);
    hide Inv;
  }

  lemma PoppedInv(m: Mux, t: nat)
    requires Inv(m) && m.due != [] && m.due[0] in m.proxies && t > 0
    ensures Inv(Popped(m, t))
  {
    var id, n := m.due[0], Popped(m, t);
    assert id in m.due && id !in m.chain && id !in m.due[1..];
    assert forall x :: x in m.due[1..] ==> x in m.due;
    assert forall x :: x in n.chain ==> x in m.chain || x == id;
    PoppedOrder(m, t);
    hide Unstarted;
  }

  /** What starts again goes to the end, where it is behind all that have not started. */
  lemma PoppedOrder(m: Mux, t: nat)
    requires Inv(m) && m.due != [] && m.due[0] in m.proxies && t > 0
    ensures var n := Popped(m, t);
            forall i, j :: 0 <= i < j < |n.chain| && Unstarted(n, n.chain[j]) ==> Unstarted(n, n.chain[i])
  {
    var id, n := m.due[0], Popped(m, t);
    assert id in m.due && id !in m.chain;
    forall i, j | 0 <= i < j < |n.chain| && Unstarted(n, n.chain[j]) ensures Unstarted(n, n.chain[i]) {
      assert j < |m.chain| && n.chain[i] == m.chain[i] && n.chain[j] == m.chain[j];
      assert Unstarted(m, m.chain[j]);
    }
  }

  /** The absolute time since the start has reached the duration; a proxy that starts now only fires without delay. */
  predicate FiredInTime(f: Firing) {
    f.duration <= Elapsed(Proxy(f.start, f.duration, false), f.time)
  }

  ghost predicate LogOk(m: Mux, t: nat, from: nat) {
    from <= |m.fired| && forall k :: from <= k < |m.fired| ==> FiredInTime(m.fired[k]) && m.fired[k].time == t
  }

  lemma {:induction false} FiredAllKeeps(m: Mux, t: nat, min: Nanos, onTimeout: nat -> seq<Op>, from: nat)
    requires Inv(m) && DueOk(m, t) && MinOk(m, t, min) && t > 0 && LogOk(m, t, from)
    ensures var f := FiredAll(m, t, min, onTimeout);
            Inv(f.mux) && f.mux.due == [] && MinOk(f.mux, t, f.min) && LogOk(f.mux, t, from)
    decreases |m.due|
  {
    if m.due != [] {
      hide Inv, DueOk, MinOk, DoAll;
      PoppedKeeps(m, t, min);
      var n := Popped(m, t);
      DoAllShrinks(n, onTimeout(m.due[0]));
      DoAllKeeps(n, onTimeout(m.due[0]), t, PoppedMin(m, min));
      FiredAllKeeps(DoAll(n, onTimeout(m.due[0])), t, PoppedMin(m, min), onTimeout, from);
    }
  }

  /** Unstarted proxies first, and min good for the others. */
  ghost predicate PrefixOk(s: Sweep, chain: seq<nat>, t: nat) {
    && Distinct(chain) && (forall id :: id in chain ==> id in s.proxies)
    && (forall i, j :: 0 <= i < j < |chain| && s.proxies[chain[j]].start == 0 ==> s.proxies[chain[i]].start == 0)
    && (forall id :: id in chain && s.proxies[id].start != 0 ==>
        s.min <= s.proxies[id].duration - Elapsed(s.proxies[id], t))
  }

  /** The third loop may stop at the first started proxy: behind it all are. */
  lemma {:induction false} PrefixStartedOk(s: Sweep, chain: seq<nat>, t: nat)
    requires PrefixOk(s, chain, t) && t > 0
    ensures var e := PrefixStarted(s, chain, t);
            && e.min <= s.min && s.proxies.Keys == e.proxies.Keys
            && (forall id :: id in s.proxies && id !in chain ==> e.proxies[id] == s.proxies[id])
            && forall id :: id in chain ==>
                e.proxies[id].start != 0 && e.min <= e.proxies[id].duration - Elapsed(e.proxies[id], t)
    decreases |chain|
  {
    if chain != [] {
      var id, rest := chain[0], chain[1..];
      assert id in chain && forall x :: x in chain ==> x == id || x in rest;
      if s.proxies[id].start == 0 {
        var p := s.proxies[id];
        var n := s.(proxies := s.proxies[id := p.(start := t)], min := Min(s.min, p.duration));
        assert id !in rest;
        PrefixRest(s, n, chain, t);
        PrefixStartedOk(n, rest, t);
      } else {
        forall x | x in chain ensures s.proxies[x].start != 0 {
          var j :| 0 <= j < |chain| && chain[j] == x;
        }
      }
    }
  }

  lemma PrefixRest(s: Sweep, n: Sweep, chain: seq<nat>, t: nat)
    requires PrefixOk(s, chain, t) && chain != [] && n.min <= s.min
    requires n.proxies.Keys == s.proxies.Keys && forall id :: id in s.proxies && id != chain[0] ==>
             n.proxies[id] == s.proxies[id]
    ensures PrefixOk(n, chain[1..], t)
  {
    var rest := chain[1..];
    assert forall x :: x in rest ==> x in chain && x != chain[0];
    forall i, j | 0 <= i < j < |rest| && n.proxies[rest[j]].start == 0 ensures n.proxies[rest[i]].start == 0 {
      assert rest[i] == chain[i + 1] && rest[j] == chain[j + 1];
    }
  }

  /** Every set proxy is started, and the timer service was last asked for a time no later than any of them needs. */
  ghost predicate Covered(m: Mux, t: nat) {
    && (forall id :: id in m.chain ==> id in m.proxies && m.proxies[id].start != 0)
    && (m.chain != [] ==> m.requests != [])
    && (forall id :: id in m.chain ==>
        m.requests[|m.requests| - 1] <= m.proxies[id].duration - Elapsed(m.proxies[id], t))
  }

  lemma SweepBegins(m: Mux, t: nat)
    requires Inv(m) && m.due == [] && t > 0
    ensures var s := Swept(Sweep(m.proxies, [], [], MAX_TIME), m.chain, t);
            var n := m.(inProgress := false, proxies := s.proxies, chain := s.kept, due := s.due);
            Inv(n) && DueOk(n, t) && MinOk(n, t, s.min)
  {
    SweptOk(Sweep(m.proxies, [], [], MAX_TIME), m.chain, t);
  }

  /**
   After a time-out event at a clock that does not read zero, whatever the callbacks set and unset: the callbacks
   made were due, every set proxy has started, and the service will wake the multiplexer in time for all of them.
   */
  lemma TimeOutCovers(m: Mux, t: nat, onTimeout: nat -> seq<Op>)
    requires Inv(m) && m.due == [] && t > 0
    ensures var n := TimeOut(m, t, onTimeout);
            Inv(n) && n.due == [] && Covered(n, t) && LogOk(n, t, |m.fired|)
  {
    var s := Swept(Sweep(m.proxies, [], [], MAX_TIME), m.chain, t);
    var b := m.(inProgress := false, proxies := s.proxies, chain := s.kept, due := s.due);
    SweepBegins(m, t);
    FiredAllKeeps(b, t, s.min, onTimeout, |m.fired|);
    var f := FiredAll(b, t, s.min, onTimeout);
    hide Swept, FiredAll, DueOk, LogOk;
    var w := Sweep(f.mux.proxies, [], [], f.min);
    PrefixBegins(f.mux, w, t);
    PrefixStartedOk(w, f.mux.chain, t);
    var e := PrefixStarted(w, f.mux.chain, t);
    var n := f.mux.(proxies := e.proxies);
    StartedInv(f.mux, e.proxies);
    hide Inv, PrefixStarted, PrefixOk, MinOk;
    if n.chain != [] {
      AskedKeeps(n, e.min);
    }
  }

  lemma StartedInv(m: Mux, proxies: map<nat, Proxy>)
    requires Inv(m) && proxies.Keys == m.proxies.Keys && forall id :: id in m.chain ==>
             id in proxies && proxies[id].start != 0
    ensures Inv(m.(proxies := proxies))
  {
  }

  lemma PrefixBegins(m: Mux, s: Sweep, t: nat)
    requires Inv(m) && s.proxies == m.proxies && MinOk(m, t, s.min)
    ensures PrefixOk(s, m.chain, t)
  {
    forall i, j | 0 <= i < j < |m.chain| && m.proxies[m.chain[j]].start == 0 ensures m.proxies[m.chain[i]].start == 0 {
      assert Unstarted(m, m.chain[j]);
    }
  }

  // ---------- who is called ----------

  predicate IsDue(proxies: map<nat, Proxy>, id: nat, t: nat) {
    id in proxies && Elapsed(proxies[id], t) >= proxies[id].duration
  }

  /** The proxies of the chain whose time has come, and the others, in its order. */
  function DueOf(proxies: map<nat, Proxy>, chain: seq<nat>, t: nat): seq<nat> {
    if chain == [] then []
    else (if IsDue(proxies, chain[0], t) then [chain[0]] else []) + DueOf(proxies, chain[1..], t)
  }

  function NotDueOf(proxies: map<nat, Proxy>, chain: seq<nat>, t: nat): seq<nat> {
    if chain == [] then []
    else (if IsDue(proxies, chain[0], t) then [] else [chain[0]]) + NotDueOf(proxies, chain[1..], t)
  }

  /** The callback sets or unsets the proxy. */
  predicate Touches(ops: seq<Op>, id: nat) {
    exists op :: op in ops && op.id == id
  }

  function Spared(s: seq<nat>, ops: seq<Op>): seq<nat> {
    if s == [] then [] else (if Touches(ops, s[0]) then [] else [s[0]]) + Spared(s[1..], ops)
  }

  /** Who is called: each due proxy in turn, unless the callback of an earlier one has set or unset it. */
  function Called(due: seq<nat>, onTimeout: nat -> seq<Op>): seq<nat>
    decreases |due|
  {
    if due == [] then []
    else
      SparedFewer(due[1..], onTimeout(due[0]));
      [due[0]] + Called(Spared(due[1..], onTimeout(due[0])), onTimeout)
  }

  lemma {:induction false} SparedFewer(s: seq<nat>, ops: seq<Op>)
    ensures |Spared(s, ops)| <= |s| && forall x :: x in Spared(s, ops) <==> x in s && !Touches(ops, x)
  {
    if s != [] {
      SparedFewer(s[1..], ops);
    }
  }

  function IdsOf(fired: seq<Firing>): seq<nat> {
    seq(|fired|, i requires 0 <= i < |fired| => fired[i].id)
  }

  lemma {:induction false} DueSame(p: map<nat, Proxy>, q: map<nat, Proxy>, chain: seq<nat>, t: nat)
    requires forall id :: id in chain ==> (id in p <==> id in q) && (id in p ==> p[id] == q[id])
    ensures DueOf(p, chain, t) == DueOf(q, chain, t) && NotDueOf(p, chain, t) == NotDueOf(q, chain, t)
  {
    if chain != [] {
      assert chain[0] in chain && forall id :: id in chain[1..] ==> id in chain;
      DueSame(p, q, chain[1..], t);
    }
  }

  /** The first loop splits the chain: nobody is lost, and who is due is on the due chain. */
  lemma {:induction false} SweptSplits(s: Sweep, chain: seq<nat>, t: nat)
    requires Distinct(chain) && forall id :: id in chain ==> id in s.proxies
    ensures var e := Swept(s, chain, t);
            e.kept == s.kept + NotDueOf(s.proxies, chain, t) && e.due == s.due + DueOf(s.proxies, chain, t)
    decreases |chain|
  {
    if chain != [] {
      var id, rest := chain[0], chain[1..];
      assert id in chain && id !in rest && forall x :: x in rest ==> x in chain;
      SweptFirst(s, chain, t);
      var u := SweptOne(s, id, t);
      SplitFirst(s.proxies, chain, t);
      hide Swept, SweptOne, IsDue, Started, DueOf, NotDueOf;
      SweptSplits(u, rest, t);
      DueSame(s.proxies, u.proxies, rest, t);
      Joined(s.kept, if IsDue(s.proxies, id, t) then [] else [id], NotDueOf(s.proxies, rest, t));
      Joined(s.due, if IsDue(s.proxies, id, t) then [id] else [], DueOf(s.proxies, rest, t));
    }
  }

  lemma Joined(a: seq<nat>, b: seq<nat>, c: seq<nat>)
    ensures a + b + c == a + (b + c)
  {
  }

  lemma SplitFirst(p: map<nat, Proxy>, chain: seq<nat>, t: nat)
    requires chain != []
    ensures DueOf(p, chain, t) == (if IsDue(p, chain[0], t) then [chain[0]] else []) + DueOf(p, chain[1..], t)
    ensures NotDueOf(p, chain, t) == (if IsDue(p, chain[0], t) then [] else [chain[0]]) + NotDueOf(p, chain[1..], t)
  {
  }

  /** And it starts all of them. */
  lemma {:induction false} SweptStarts(s: Sweep, chain: seq<nat>, t: nat)
    requires Distinct(chain) && forall id :: id in chain ==> id in s.proxies
    ensures var e := Swept(s, chain, t);
            && e.proxies.Keys == s.proxies.Keys
            && forall id :: id in s.proxies ==>
                 e.proxies[id] == if id in chain then Started(s.proxies[id], t) else s.proxies[id]
    decreases |chain|
  {
    if chain != [] {
      var id, rest := chain[0], chain[1..];
      assert id in chain && id !in rest && forall x :: x in rest ==> x in chain;
      assert forall x :: x in chain <==> x == id || x in rest;
      SweptFirst(s, chain, t);
      hide Swept, SweptOne, IsDue, Started;
      SweptStarts(SweptOne(s, id, t), rest, t);
    }
  }

  lemma SweptFirst(s: Sweep, chain: seq<nat>, t: nat)
    requires chain != [] && chain[0] in s.proxies
    ensures Swept(s, chain, t) == Swept(SweptOne(s, chain[0], t), chain[1..], t)
    ensures var u := SweptOne(s, chain[0], t);
            && u.proxies == s.proxies[chain[0] := Started(s.proxies[chain[0]], t)]
            && u.kept == s.kept + (if IsDue(s.proxies, chain[0], t) then [] else [chain[0]])
            && u.due == s.due + if IsDue(s.proxies, chain[0], t) then [chain[0]] else []
  {
  }

  // ---------- the callbacks ----------

  lemma {:induction false} SparedWithout(s: seq<nat>, x: nat, ops: seq<Op>)
    requires Distinct(s) && ops != [] && x == ops[0].id
    ensures Spared(Without(s, x), ops[1..]) == Spared(s, ops)
  {
    if s != [] {
      var y, rest := s[0], s[1..];
      assert s == [y] + rest && y !in rest;
      TouchesFirst(ops, y);
      if y == x {
        SparedSame(rest, ops, x);
      } else {
        SparedWithout(rest, x, ops);
        assert Without(s, x)[0] == y && Without(s, x)[1..] == Without(rest, x);
      }
    }
  }

  lemma TouchesFirst(ops: seq<Op>, y: nat)
    requires ops != []
    ensures Touches(ops, y) <==> ops[0].id == y || Touches(ops[1..], y)
  {
    assert forall op :: op in ops <==> op == ops[0] || op in ops[1..];
  }

  /** An operation on a proxy that is not there makes no difference. */
  lemma {:induction false} SparedSame(s: seq<nat>, ops: seq<Op>, x: nat)
    requires ops != [] && x == ops[0].id && x !in s
    ensures Spared(s, ops[1..]) == Spared(s, ops)
  {
    if s != [] {
      TouchesFirst(ops, s[0]);
      assert s[0] in s && forall y :: y in s[1..] ==> y in s;
      SparedSame(s[1..], ops, x);
    }
  }

  lemma {:induction false} SparedNone(s: seq<nat>)
    ensures Spared(s, []) == s
  {
    if s != [] {
      SparedNone(s[1..]);
    }
  }

  /** What the operations of a callback leave on the due chain, and of the proxies they do not touch. */
  lemma {:induction false} DoAllSpares(m: Mux, ops: seq<Op>)
    requires Distinct(m.due) && Distinct(m.chain)
    ensures var n := DoAll(m, ops);
            && n.due == Spared(m.due, ops) && n.fired == m.fired && Distinct(n.due)
            && forall id :: !Touches(ops, id) ==>
                 && (id in n.chain <==> id in m.chain) && (id in n.proxies <==> id in m.proxies)
                 && (id in m.proxies ==> n.proxies[id] == m.proxies[id])
    decreases |ops|
  {
    if ops == [] {
      SparedNone(m.due);
    } else {
      var op := ops[0];
      var k := Do(m, op);
      DoSpares(m, op);
      hide Do, Spared, Without;
      DoAllSpares(k, ops[1..]);
      SparedWithout(m.due, op.id, ops);
      forall id | !Touches(ops, id)
        ensures id != op.id && !Touches(ops[1..], id) {
        TouchesFirst(ops, id);
      }
      hide Touches;
    }
  }

  lemma DoSpares(m: Mux, op: Op)
    requires Distinct(m.due) && Distinct(m.chain)
    ensures var n := Do(m, op);
            && n.due == Without(m.due, op.id) && n.fired == m.fired && Distinct(n.due) && Distinct(n.chain)
            && forall id :: id != op.id ==>
                 && (id in n.chain <==> id in m.chain) && (id in n.proxies <==> id in m.proxies)
                 && (id in m.proxies ==> n.proxies[id] == m.proxies[id])
  {
    WithoutIs(m.due, op.id);
    WithoutIs(m.chain, op.id);
    hide Without;
  }

  /** What the second loop adds to the history, given who is due and what they were when it began. */
  ghost predicate CallsMade(m: Mux, n: Mux, t: nat, onTimeout: nat -> seq<Op>) {
    var ids := Called(m.due, onTimeout);
    && |n.fired| == |m.fired| + |ids| && n.fired[..|m.fired|] == m.fired
    && forall k :: 0 <= k < |ids| ==>
         ids[k] in m.proxies
         && n.fired[|m.fired| + k] == Firing(ids[k], m.proxies[ids[k]].start, m.proxies[ids[k]].duration, t)
  }

  lemma PoppedIs(m: Mux, t: nat)
    requires Inv(m) && m.due != [] && m.due[0] in m.proxies
    ensures var n, id := Popped(m, t), m.due[0];
            && n.due == m.due[1..] && Distinct(n.due) && id !in n.due && Distinct(n.chain)
            && n.fired == m.fired + [Firing(id, m.proxies[id].start, m.proxies[id].duration, t)]
            && n.proxies.Keys == m.proxies.Keys &&
                (forall x :: x in m.proxies && x != id ==> n.proxies[x] == m.proxies[x])
            && (forall x :: x != id ==> (x in n.chain <==> x in m.chain))
            && (id in n.chain <==> m.proxies[id].repeated)
            && n.proxies[id] == if m.proxies[id].repeated then m.proxies[id].(start := t) else m.proxies[id]
  {
    var id := m.due[0];
    assert id in m.due && id !in m.chain;
    assert forall x :: x in m.due[1..] ==> x in m.due;
  }

  lemma {:induction false} FiredAllCalls(m: Mux, t: nat, min: Nanos, onTimeout: nat -> seq<Op>)
    requires Inv(m) && DueOk(m, t) && MinOk(m, t, min) && t > 0
    ensures CallsMade(m, FiredAll(m, t, min, onTimeout).mux, t, onTimeout)
    decreases |m.due|
  {
    if m.due != [] {
      var ops := onTimeout(m.due[0]);
      PoppedKeeps(m, t, min);
      PoppedIs(m, t);
      var n := Popped(m, t);
      DoAllShrinks(n, ops);
      DoAllKeeps(n, ops, t, PoppedMin(m, min));
      DoAllSpares(n, ops);
      SparedFewer(m.due[1..], ops);
      var k := DoAll(n, ops);
      hide Inv, DueOk, MinOk, DoAll, Popped, PoppedMin, Spared;
      FiredAllCalls(k, t, PoppedMin(m, min), onTimeout);
      CalledAreDue(k.due, onTimeout);
      CallsJoin(m, n, k, FiredAll(k, t, PoppedMin(m, min), onTimeout).mux, t, onTimeout);
    }
  }

  lemma {:induction false} CalledAreDue(due: seq<nat>, onTimeout: nat -> seq<Op>)
    ensures forall x :: x in Called(due, onTimeout) ==> x in due
    decreases |due|
  {
    if due != [] {
      SparedFewer(due[1..], onTimeout(due[0]));
      CalledAreDue(Spared(due[1..], onTimeout(due[0])), onTimeout);
    }
  }

  lemma CallsJoin(m: Mux, n: Mux, k: Mux, e: Mux, t: nat, onTimeout: nat -> seq<Op>)
    requires m.due != [] && m.due[0] in m.proxies && CallsMade(k, e, t, onTimeout)
    requires k.due == Spared(m.due[1..], onTimeout(m.due[0])) && k.fired == n.fired
    requires n.fired == m.fired + [Firing(m.due[0], m.proxies[m.due[0]].start, m.proxies[m.due[0]].duration, t)]
    requires forall x :: x in Called(k.due, onTimeout) ==>
             x in m.proxies && x in k.proxies && k.proxies[x] == m.proxies[x]
    ensures CallsMade(m, e, t, onTimeout)
  {
    var ids, rest := Called(m.due, onTimeout), Called(k.due, onTimeout);
    assert ids == [m.due[0]] + rest;
    hide Called;
    assert e.fired[..|m.fired|] == e.fired[..|n.fired|][..|m.fired|] == m.fired;
    assert e.fired[|m.fired|] == e.fired[..|n.fired|][|m.fired|];
    forall j | 0 <= j < |ids|
      ensures ids[j] in m.proxies
        && e.fired[|m.fired| + j] == Firing(ids[j], m.proxies[ids[j]].start, m.proxies[ids[j]].duration, t) {
      if j > 0 {
        assert ids[j] == rest[j - 1] && rest[j - 1] in rest;
        assert |m.fired| + j == |k.fired| + (j - 1);
      }
    }
  }

  /** What the rest of the loop does not touch stays as it is. */
  lemma {:induction false} FiredAllLeaves(m: Mux, t: nat, min: Nanos, onTimeout: nat -> seq<Op>, id: nat)
    requires Inv(m) && DueOk(m, t) && MinOk(m, t, min) && t > 0 && id in m.proxies && id !in m.due
    requires forall x :: x in Called(m.due, onTimeout) ==> !Touches(onTimeout(x), id)
    ensures var e := FiredAll(m, t, min, onTimeout).mux;
            id in e.proxies && e.proxies[id] == m.proxies[id] && (id in e.chain <==> id in m.chain)
    decreases |m.due|
  {
    if m.due != [] {
      var ops := onTimeout(m.due[0]);
      PoppedKeeps(m, t, min);
      PoppedIs(m, t);
      var n := Popped(m, t);
      DoAllShrinks(n, ops);
      DoAllKeeps(n, ops, t, PoppedMin(m, min));
      DoAllSpares(n, ops);
      SparedFewer(m.due[1..], ops);
      var k := DoAll(n, ops);
      assert m.due[0] in Called(m.due, onTimeout);
      assert forall x :: x in Called(k.due, onTimeout) ==> x in Called(m.due, onTimeout);
      hide Inv, DueOk, MinOk, DoAll, Popped, PoppedMin, Spared, Called, Touches;
      FiredAllLeaves(k, t, PoppedMin(m, min), onTimeout, id);
    }
  }

  /** A due proxy that no callback touches, its own included, is set again iff it repeats. */
  lemma {:induction false} FiredAllSettles(m: Mux, t: nat, min: Nanos, onTimeout: nat -> seq<Op>, id: nat)
    requires Inv(m) && DueOk(m, t) && MinOk(m, t, min) && t > 0 && id in m.due && id in m.proxies
    requires forall x :: x in Called(m.due, onTimeout) ==> !Touches(onTimeout(x), id)
    ensures id in Called(m.due, onTimeout)
    ensures var e := FiredAll(m, t, min, onTimeout).mux;
            && id in e.proxies && (id in e.chain <==> m.proxies[id].repeated)
            && e.proxies[id] == if m.proxies[id].repeated then m.proxies[id].(start := t) else m.proxies[id]
    decreases |m.due|
  {
    var ops := onTimeout(m.due[0]);
    PoppedKeeps(m, t, min);
    PoppedIs(m, t);
    var n := Popped(m, t);
    DoAllShrinks(n, ops);
    DoAllKeeps(n, ops, t, PoppedMin(m, min));
    DoAllSpares(n, ops);
    SparedFewer(m.due[1..], ops);
    var k := DoAll(n, ops);
    assert m.due[0] in Called(m.due, onTimeout);
    assert forall x :: x in Called(k.due, onTimeout) ==> x in Called(m.due, onTimeout);
    hide Inv, DueOk, MinOk, DoAll, Popped, PoppedMin, Spared, Called, Touches;
    if id == m.due[0] {
      FiredAllLeaves(k, t, PoppedMin(m, min), onTimeout, id);
    } else {
      assert id in m.due[1..];
      FiredAllSettles(k, t, PoppedMin(m, min), onTimeout, id);
    }
  }

  /** The callbacks an event makes: to whom, in which order, and as what. */
  ghost predicate Answers(m: Mux, n: Mux, t: nat, onTimeout: nat -> seq<Op>) {
    var ids := Called(DueOf(m.proxies, m.chain, t), onTimeout);
    && |n.fired| == |m.fired| + |ids| && n.fired[..|m.fired|] == m.fired
    && forall k :: 0 <= k < |ids| ==>
         ids[k] in m.proxies
         && n.fired[|m.fired| + k]
            == Firing(ids[k], Started(m.proxies[ids[k]], t).start, m.proxies[ids[k]].duration, t)
  }

  /** What becomes of a proxy that no callback of the event touches: called if it is due, set again if it repeats. */
  ghost predicate Settles(m: Mux, n: Mux, t: nat, id: nat)
    requires id in m.proxies
  {
    var p := m.proxies[id];
    id in n.proxies &&
    if IsDue(m.proxies, id, t) then
      (id in n.chain <==> p.repeated) && (p.repeated ==> n.proxies[id] == p.(start := t))
    else id in n.chain && n.proxies[id] == Started(p, t)
  }

  /** The state the second loop begins with. */
  function Begun(m: Mux, t: nat): Mux {
    var s := Swept(Sweep(m.proxies, [], [], MAX_TIME), m.chain, t);
    m.(inProgress := false, proxies := s.proxies, chain := s.kept, due := s.due)
  }

  lemma BegunIs(m: Mux, t: nat)
    requires Inv(m) && m.due == [] && t > 0
    ensures var b := Begun(m, t);
            && b.due == DueOf(m.proxies, m.chain, t) && b.chain == NotDueOf(m.proxies, m.chain, t)
            && b.fired == m.fired && b.proxies.Keys == m.proxies.Keys
            && forall id :: id in m.chain ==> id in b.proxies && b.proxies[id] == Started(m.proxies[id], t)
  {
    SweptSplits(Sweep(m.proxies, [], [], MAX_TIME), m.chain, t);
    SweptStarts(Sweep(m.proxies, [], [], MAX_TIME), m.chain, t);
    hide Swept, DueOf, NotDueOf;
  }

  lemma {:induction false} DueOrNot(p: map<nat, Proxy>, chain: seq<nat>, t: nat)
    ensures forall id :: id in DueOf(p, chain, t) <==> id in chain && IsDue(p, id, t)
    ensures forall id :: id in NotDueOf(p, chain, t) <==> id in chain && !IsDue(p, id, t)
  {
    if chain != [] {
      DueOrNot(p, chain[1..], t);
      assert forall id :: id in chain <==> id == chain[0] || id in chain[1..];
    }
  }

  /**
   Every proxy of the chain whose time has come is called, in chain order, unless an earlier callback of the same event
   has set or unset it; nobody else is.
   */
  lemma TimeOutAnswers(m: Mux, t: nat, onTimeout: nat -> seq<Op>)
    requires Inv(m) && m.due == [] && t > 0
    ensures Answers(m, TimeOut(m, t, onTimeout), t, onTimeout)
  {
    var b := Begun(m, t);
    SweepBegins(m, t);
    BegunIs(m, t);
    DueOrNot(m.proxies, m.chain, t);
    var min := Swept(Sweep(m.proxies, [], [], MAX_TIME), m.chain, t).min;
    hide Inv, Swept, FiredAll, PrefixStarted, DueOf, NotDueOf, Called, CallsMade, Answers, TimeOut;
    FiredAllCalls(b, t, min, onTimeout);
    FiredOf(m, t, onTimeout);
    CalledAreDue(b.due, onTimeout);
    AnsweredBy(m, b, FiredAll(b, t, min, onTimeout).mux, TimeOut(m, t, onTimeout), t, onTimeout);
  }

  lemma AnsweredBy(m: Mux, b: Mux, f: Mux, n: Mux, t: nat, onTimeout: nat -> seq<Op>)
    requires CallsMade(b, f, t, onTimeout) && n.fired == f.fired && b.fired == m.fired
    requires b.due == DueOf(m.proxies, m.chain, t) && b.proxies.Keys == m.proxies.Keys
    requires forall x :: x in Called(b.due, onTimeout) ==>
               x in m.proxies && x in b.proxies && b.proxies[x] == Started(m.proxies[x], t)
    ensures Answers(m, n, t, onTimeout)
  {
    var ids := Called(b.due, onTimeout);
    hide Called, DueOf;
    forall k | 0 <= k < |ids|
      ensures ids[k] in m.proxies
        && n.fired[|m.fired| + k]
           == Firing(ids[k], Started(m.proxies[ids[k]], t).start, m.proxies[ids[k]].duration, t) {
      assert ids[k] in ids;
    }
  }

  /** The third loop and the request leave the history and the chain alone. */
  lemma FiredOf(m: Mux, t: nat, onTimeout: nat -> seq<Op>)
    ensures var s := Swept(Sweep(m.proxies, [], [], MAX_TIME), m.chain, t);
            var f := FiredAll(Begun(m, t), t, s.min, onTimeout).mux;
            TimeOut(m, t, onTimeout).fired == f.fired && TimeOut(m, t, onTimeout).chain == f.chain
  {
    hide Swept, FiredAll, PrefixStarted;
  }

  /** The third loop starts what has not started, and nothing else. */
  lemma {:induction false} PrefixLeavesStarted(s: Sweep, chain: seq<nat>, t: nat, id: nat)
    requires id in s.proxies && s.proxies[id].start != 0
    ensures var e := PrefixStarted(s, chain, t); id in e.proxies && e.proxies[id] == s.proxies[id]
    decreases |chain|
  {
    if chain != [] && chain[0] in s.proxies && s.proxies[chain[0]].start == 0 {
      var p := s.proxies[chain[0]];
      PrefixLeavesStarted(
        s.(proxies := s.proxies[chain[0] := p.(start := t)], min := Min(s.min, p.duration)), chain[1..], t, id);
    }
  }

  lemma TimeOutSettles(m: Mux, t: nat, onTimeout: nat -> seq<Op>, id: nat)
    requires Inv(m) && m.due == [] && t > 0 && id in m.chain && id in m.proxies
    requires forall x :: x in Called(DueOf(m.proxies, m.chain, t), onTimeout) ==> !Touches(onTimeout(x), id)
    ensures id in Called(DueOf(m.proxies, m.chain, t), onTimeout) <==> IsDue(m.proxies, id, t)
    ensures Settles(m, TimeOut(m, t, onTimeout), t, id)
  {
    var b := Begun(m, t);
    SweepBegins(m, t);
    BegunIs(m, t);
    DueOrNot(m.proxies, m.chain, t);
    var min := Swept(Sweep(m.proxies, [], [], MAX_TIME), m.chain, t).min;
    CalledAreDue(b.due, onTimeout);
    hide Swept, FiredAll, PrefixStarted, DueOf, NotDueOf, Called, Touches, Inv;
    if IsDue(m.proxies, id, t) {
      FiredAllSettles(b, t, min, onTimeout, id);
    } else {
      NotDueApart(b, id);
      FiredAllLeaves(b, t, min, onTimeout, id);
    }
    FiredOf(m, t, onTimeout);
    ThirdLoop(m, t, onTimeout, id);
  }

  lemma NotDueApart(b: Mux, id: nat)
    requires Inv(b) && id in b.chain
    ensures id !in b.due
  {
  }

  lemma ThirdLoop(m: Mux, t: nat, onTimeout: nat -> seq<Op>, id: nat)
    requires t > 0
    ensures var s := Swept(Sweep(m.proxies, [], [], MAX_TIME), m.chain, t);
            var f := FiredAll(Begun(m, t), t, s.min, onTimeout).mux;
            id in f.proxies && f.proxies[id].start != 0 ==>
              var n := TimeOut(m, t, onTimeout); id in n.proxies && n.proxies[id] == f.proxies[id]
    ensures var s := Swept(Sweep(m.proxies, [], [], MAX_TIME), m.chain, t);
            var f := FiredAll(Begun(m, t), t, s.min, onTimeout).mux;
            id in f.proxies ==> id in TimeOut(m, t, onTimeout).proxies
  {
    var s := Swept(Sweep(m.proxies, [], [], MAX_TIME), m.chain, t);
    var f := FiredAll(Begun(m, t), t, s.min, onTimeout);
    hide Swept, FiredAll;
    if id in f.mux.proxies && f.mux.proxies[id].start != 0 {
      PrefixLeavesStarted(Sweep(f.mux.proxies, [], [], f.min), f.mux.chain, t, id);
    }
    PrefixKeys(Sweep(f.mux.proxies, [], [], f.min), f.mux.chain, t);
    hide PrefixStarted;
  }

  lemma {:induction false} PrefixKeys(s: Sweep, chain: seq<nat>, t: nat)
    ensures PrefixStarted(s, chain, t).proxies.Keys == s.proxies.Keys
    decreases |chain|
  {
    if chain != [] && chain[0] in s.proxies && s.proxies[chain[0]].start == 0 {
      var p := s.proxies[chain[0]];
      PrefixKeys(s.(proxies := s.proxies[chain[0] := p.(start := t)], min := Min(s.min, p.duration)), chain[1..], t);
    }
  }

  /** Each due proxy is called once at most, and is when no earlier callback touches it. */
  lemma {:induction false} CalledOnce(due: seq<nat>, onTimeout: nat -> seq<Op>, k: nat)
    requires Distinct(due) && k < |due|
    requires forall j :: 0 <= j < k ==> !Touches(onTimeout(due[j]), due[k])
    ensures multiset(Called(due, onTimeout))[due[k]] == 1
    decreases |due|
  {
    var ops, rest := onTimeout(due[0]), due[1..];
    SparedFewer(rest, ops);
    SparedOrder(rest, ops);
    var spared := Spared(rest, ops);
    var later := Called(spared, onTimeout);
    CalledAreDue(spared, onTimeout);
    assert Called(due, onTimeout) == [due[0]] + later;
    if k == 0 {
      assert due[0] !in rest;
      assert due[0] !in later;
    } else {
      assert due[k] in rest;
      var l :| 0 <= l < |spared| && spared[l] == due[k];
      forall j | 0 <= j < l ensures !Touches(onTimeout(spared[j]), spared[l]) {
        assert Before(rest, spared[j], spared[l]);
        var x, y :| 0 <= x < y < |rest| && rest[x] == spared[j] && rest[y] == spared[l];
        assert due[x + 1] == spared[j] && due[y + 1] == due[k];
      }
      CalledOnce(spared, onTimeout, l);
      assert due[0] != due[k];
    }
  }

  lemma BeforeLater(s: seq<nat>, x: nat, y: nat)
    requires s != [] && Before(s[1..], x, y)
    ensures Before(s, x, y)
  {
    var k, l :| 0 <= k < l < |s[1..]| && s[1..][k] == x && s[1..][l] == y;
    assert s[k + 1] == x && s[l + 1] == y;
  }

  lemma BeforeFirst(s: seq<nat>, y: nat)
    requires s != [] && y in s[1..]
    ensures Before(s, s[0], y)
  {
    var l :| 0 <= l < |s[1..]| && s[1..][l] == y;
    assert s[l + 1] == y;
  }

  lemma OrderLater(s: seq<nat>, w: seq<nat>)
    requires s != [] && SubOrder(w, s[1..])
    ensures SubOrder(w, s)
  {
    hide Before;
    forall i, j | 0 <= i < j < |w| ensures Before(s, w[i], w[j]) {
      BeforeLater(s, w[i], w[j]);
    }
  }

  lemma OrderFirst(s: seq<nat>, w: seq<nat>)
    requires s != [] && SubOrder(w, s) && forall y :: y in w ==> y in s[1..]
    ensures SubOrder([s[0]] + w, s)
  {
    var u := [s[0]] + w;
    hide Before;
    forall i, j | 0 <= i < j < |u| ensures Before(s, u[i], u[j]) {
      assert u[j] == w[j - 1] && w[j - 1] in w;
      if i == 0 {
        BeforeFirst(s, u[j]);
      } else {
        assert u[i] == w[i - 1];
      }
    }
  }

  lemma {:induction false} SparedOrder(s: seq<nat>, ops: seq<Op>)
    requires Distinct(s)
    ensures Distinct(Spared(s, ops)) && SubOrder(Spared(s, ops), s)
  {
    if s != [] {
      var rest := Spared(s[1..], ops);
      SparedOrder(s[1..], ops);
      SparedFewer(s[1..], ops);
      OrderLater(s, rest);
      assert s[0] !in s[1..];
      assert Spared(s, ops) == if Touches(ops, s[0]) then rest else [s[0]] + rest;
      hide SubOrder, Spared;
      if !Touches(ops, s[0]) {
        OrderFirst(s, rest);
      }
    }
  }

  lemma AllSettle(m: Mux, t: nat, onTimeout: nat -> seq<Op>)
    requires Inv(m) && m.due == [] && t > 0
    ensures forall id ::
              && id in m.chain && id in m.proxies
              && (forall x :: x in Called(DueOf(m.proxies, m.chain, t), onTimeout) ==> !Touches(onTimeout(x), id))
              ==> Settles(m, TimeOut(m, t, onTimeout), t, id)
  {
    hide Inv, Called, DueOf, Touches, Settles, TimeOut;
    forall id |
      && id in m.chain && id in m.proxies
      && (forall x :: x in Called(DueOf(m.proxies, m.chain, t), onTimeout) ==> !Touches(onTimeout(x), id))
      ensures Settles(m, TimeOut(m, t, onTimeout), t, id) {
      TimeOutSettles(m, t, onTimeout, id);
    }
  }

  lemma Leaves(m: Mux, id: nat)
    requires Inv(m)
    ensures forall x :: x in Cleared(m, id).chain <==> x in m.chain && x != id
    ensures forall x :: x in Cleared(m, id).due <==> x in m.due && x != id
  {
    WithoutIs(m.chain, id);
    WithoutIs(m.due, id);
    hide Without;
  }

  // ---------- the multiplexer ----------

  class Multiplexer {
    var proxies: map<nat, Proxy>
    var chain: seq<nat>
    var due: seq<nat>
    var inProgress: bool
    var requests: seq<Nanos>
    var fired: seq<Firing>

    ghost function View(): Mux
      reads this
    {
      Mux(proxies, chain, due, inProgress, requests, fired)
    }

    constructor ()
      ensures Inv(View()) && View() == Mux(map[], [], [], false, [], [])
    {
      proxies, chain, due, inProgress, requests, fired := map[], [], [], false, [], [];
    }

    method GetTime(delay: Nanos)
      modifies this`inProgress, this`requests
      ensures View() == Asked(old(View()), delay)
      ensures old(Inv(View())) ==> Inv(View())
    {
      if Inv(View()) { AskedKeeps(View(), delay); }
      hide Inv;
      var now := delay == 0;
      if now && inProgress {
        return;
      }
      inProgress := now;
      requests := requests + [delay];
    }

    method Unset(id: nat)
      modifies this`chain, this`due
      ensures View() == Cleared(old(View()), id)
      ensures old(Inv(View())) ==> Inv(View())
      ensures old(Inv(View())) ==>
                && (forall x :: x in chain <==> x in old(chain) && x != id)
                && (forall x :: x in due <==> x in old(due) && x != id)
    {
      if Inv(View()) { Leaves(View(), id); }
      if Inv(View()) { ClearedKeeps(View(), id); }
      hide Inv;
      chain := Without(chain, id);
      due := Without(due, id);
    }

    method Set(id: nat, duration: Nanos, repeated: bool)
      modifies this
      ensures View() == Do(old(View()), Op.Set(id, duration, repeated))
      ensures old(Inv(View())) ==> Inv(View())
      ensures proxies == old(proxies)[id := Proxy(0, duration, repeated)] && chain != [] && chain[0] == id
      ensures old(Inv(View())) ==>
                && (forall x :: x in chain <==> x in old(chain) || x == id)
                && (forall x :: x in due <==> x in old(due) && x != id)
      ensures inProgress && fired == old(fired)
    {
      if Inv(View()) { DoInv(View(), Op.Set(id, duration, repeated)); }
      hide Inv;
      Unset(id);
      proxies := proxies[id := Proxy(0, duration, repeated)];
      chain := [id] + chain;
      GetTime(0);
    }

    /** The callback of a proxy. */
    method CallBack(ops: seq<Op>)
      modifies this
      ensures View() == DoAll(old(View()), ops)
    {
      for i := 0 to |ops|
        invariant DoAll(View(), ops[i..]) == DoAll(old(View()), ops)
      {
        assert ops[i..][1..] == ops[i + 1..];
        match ops[i] {
          case Set(id, duration, repeated) => Set(id, duration, repeated);
          case Unset(id) => Unset(id);
        }
      }
    }

    /** The first loop: starts what has not started, moves what has timed out to the due chain. */
    method SweepChain(t: nat) returns (min: Nanos)
      requires Inv(View()) && due == []
      modifies this`proxies, this`chain, this`due
      ensures var s := Swept(Sweep(old(proxies), [], [], MAX_TIME), old(chain), t);
              proxies == s.proxies && chain == s.kept && due == s.due && min == s.min
      ensures due == DueOf(old(proxies), old(chain), t) && chain == NotDueOf(old(proxies), old(chain), t)
    {
      SweptSplits(Sweep(proxies, [], [], MAX_TIME), chain, t);
      hide DueOf, NotDueOf;
      min := MAX_TIME;
      var kept: seq<nat> := [];
      var i := 0;
      while i < |chain|
        invariant i <= |chain| && chain == old(chain) && forall id :: id in chain ==> id in proxies
        invariant Swept(Sweep(proxies, kept, due, min), chain[i..], t)
                  == Swept(Sweep(old(proxies), [], [], MAX_TIME), chain, t)
      {
        var id := chain[i];
        assert chain[i..][0] == id && chain[i..][1..] == chain[i + 1..];
        var p := Started(proxies[id], t);
        proxies := proxies[id := p];
        if Elapsed(p, t) < p.duration {
          min := Min(min, Remaining(p, t));
          kept := kept + [id];
        } else {
          due := due + [id];
        }
        i := i + 1;
      }
      chain := kept;
    }

    /** The second loop: the callbacks. */
    method FireDue(t: nat, least: Nanos, onTimeout: nat -> seq<Op>) returns (min: Nanos)
      requires Inv(View()) && DueOk(View(), t) && MinOk(View(), t, least) && t > 0
      modifies this
      ensures Fired(View(), min) == FiredAll(old(View()), t, least, onTimeout)
    {
      hide Inv, DueOk, MinOk;
      min := least;
      while due != []
        invariant Inv(View()) && DueOk(View(), t) && MinOk(View(), t, min)
        invariant FiredAll(View(), t, min, onTimeout) == FiredAll(old(View()), t, least, onTimeout)
        decreases |due|
      {
        PoppedKeeps(View(), t, min);
        ghost var n, m := Popped(View(), t), PoppedMin(View(), min);
        DoAllShrinks(n, onTimeout(due[0]));
        DoAllKeeps(n, onTimeout(due[0]), t, m);
        var id, p := due[0], proxies[due[0]];
        due := due[1..];
        fired := fired + [Firing(id, p.start, p.duration, t)];
        if p.repeated {
          proxies := proxies[id := p.(start := t)];
          chain := chain + [id];
          min := Min(min, p.duration);
        }
        CallBack(onTimeout(id));
      }
    }

    /** The third loop: starts what the callbacks have set. */
    method StartPrefix(t: nat, least: Nanos) returns (min: Nanos)
      requires forall id :: id in chain ==> id in proxies
      modifies this`proxies
      ensures var e := PrefixStarted(Sweep(old(proxies), [], [], least), chain, t); proxies == e.proxies && min == e.min
    {
      min := least;
      var i := 0;
      while i < |chain| && proxies[chain[i]].start == 0
        invariant i <= |chain| && forall id :: id in chain ==> id in proxies
        invariant PrefixStarted(Sweep(proxies, [], [], min), chain[i..], t)
                  == PrefixStarted(Sweep(old(proxies), [], [], least), chain, t)
      {
        assert chain[i..][0] == chain[i] && chain[i..][1..] == chain[i + 1..];
        min := Min(min, proxies[chain[i]].duration);
        proxies := proxies[chain[i] := proxies[chain[i]].(start := t)];
        i := i + 1;
      }
    }

    /** SingletonActorEventHandler::onEvent */
    method OnTimeOutEvent(t: nat, onTimeout: nat -> seq<Op>)
      requires Inv(View()) && due == [] && t > 0
      modifies this
      ensures View() == TimeOut(old(View()), t, onTimeout)
      ensures Inv(View()) && due == [] && Covered(View(), t)
      ensures Answers(old(View()), View(), t, onTimeout)
      ensures forall id ::
                && id in old(chain) && id in old(proxies)
                && (forall x :: x in Called(DueOf(old(proxies), old(chain), t), onTimeout) ==>
                    !Touches(onTimeout(x), id))
                ==> Settles(old(View()), View(), t, id)
    {
      TimeOutAnswers(View(), t, onTimeout);
      AllSettle(View(), t, onTimeout);
      hide Inv, Answers, Settles, Called, DueOf, Touches, Covered;
      ThreeLoops(t, onTimeout);
    }

    method ThreeLoops(t: nat, onTimeout: nat -> seq<Op>)
      requires Inv(View()) && due == [] && t > 0
      modifies this
      ensures View() == TimeOut(old(View()), t, onTimeout)
      ensures Inv(View()) && due == [] && Covered(View(), t)
    {
      hide DueOf, NotDueOf;
      TimeOutCovers(View(), t, onTimeout);
      SweepBegins(View(), t);
      hide Swept, FiredAll, PrefixStarted, DueOk, MinOk, Covered;
      inProgress := false;
      var min := SweepChain(t);
      FiredAllKeeps(View(), t, min, onTimeout, |fired|);
      min := FireDue(t, min, onTimeout);
      min := StartPrefix(t, min);
      if chain != [] {
        GetTime(min);
      }
    }
  }
}
