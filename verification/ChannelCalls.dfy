/**
 What the passes of reader and writer mean to the actors: which of them are called for an event, and which never are.
 */
module ChannelCalls {
  import opened ChannelPayload
  import L = LocalChannel
  import G = ChannelPages

  /**
   The calls a failed write makes are what the books then have as given back: with those made before, each event
   pushed that no handler consumed, once.  The events that had been handed over come first.
   */
  ghost predicate ReturnsTheRest(c: Channel, calls: seq<Event>) {
    && WriteFailed(c).hist.givenBack == c.hist.givenBack + calls
    && multiset(c.hist.pushed)
       == multiset(WithFate(c.hist.log, Consumed)) + multiset(c.hist.givenBack) + multiset(calls)
    && calls == LivePending(c) + LiveUnread(c) + c.cache.toBeDelivered
  }

  lemma FailedCalls(c: Channel)
    requires Conserved(c) && !c.hist.stale
    ensures ReturnsTheRest(c, FailedReturns(c.area, c.cache))
  {
    var calls := FailedReturns(c.area, c.cache);
    CallsInOrder(c);
    EachEventOnce(c);
    hide Conserved, FailedReturns, LivePending, LiveUnread, WithFate;
    Joined(c.hist.givenBack, LivePending(c), LiveUnread(c), c.cache.toBeDelivered);
    InAll(LivePending(c), LiveUnread(c), c.cache.toBeDelivered);
  }

  lemma CallsInOrder(c: Channel)
    requires Conserved(c) && !c.hist.stale
    ensures FailedReturns(c.area, c.cache) == LivePending(c) + LiveUnread(c) + c.cache.toBeDelivered
  {
    hide Balanced;
  }

  lemma Joined<T>(a: seq<T>, b: seq<T>, c: seq<T>, d: seq<T>)
    ensures a + b + c + d == a + (b + c + d)
  {
  }

  lemma InAll<T>(a: seq<T>, b: seq<T>, c: seq<T>)
    ensures multiset(a + b + c) == multiset(a) + multiset(b) + multiset(c)
  {
  }

  /** The calls a write makes are for the events the reader refused, and for no others. */
  ghost predicate ReturnsTheRefused(c: Channel, calls: seq<Event>) {
    && Write(c).hist.givenBack == c.hist.givenBack + calls
    && WithFate(c.hist.log, Pending) == calls
  }

  lemma WrittenCalls(c: Channel)
    requires Conserved(c) && !c.hist.stale
    ensures ReturnsTheRefused(c, c.area.undelivered)
  {
  }

  // ---------- the verdict of the handler ----------

  lemma {:induction false} Sorted(s: seq<Event>, v: seq<bool>, i: nat)
    requires |s| == |v| && i < |s|
    ensures v[i] ==> s[i] in Kept(s, v) && s[i] in WithFate(Judged(s, v), Consumed)
    ensures !v[i] ==> s[i] in Refused(s, v)
  {
    if i > 0 {
      Sorted(s[1..], v[1..], i - 1);
    }
  }

  /** An event is consumed when its handler took it, and on its way back to its source when it was refused. */
  lemma VerdictDecides(c: Channel, v: seq<bool>, i: nat)
    requires Conserved(c) && !c.hist.stale && !c.area.delivered && |v| == |c.area.toBeDelivered| && i < |v|
    ensures var e, d := c.area.toBeDelivered[i], Read(c, v);
            (e in WithFate(d.hist.log, Consumed) <==> v[i]) && (e in LivePending(d) <==> !v[i])
  {
    var e, d := c.area.toBeDelivered[i], Read(c, v);
    ReadConserves(c, v);
    Sorted(c.area.toBeDelivered, v, i);
    WithFateConcat(c.hist.log, Judged(c.area.toBeDelivered, v), Consumed);
    EachEventOnce(d);
    hide Conserved;
    var consumed, pending := WithFate(d.hist.log, Consumed), LivePending(d);
    assert multiset(d.hist.pushed)[e] >= multiset(consumed)[e] + multiset(pending)[e];
    assert (e in consumed <==> multiset(consumed)[e] > 0) && (e in pending <==> multiset(pending)[e] > 0);
  }

  /** The same on a node's channel to itself, where a refused event goes back at once. */
  lemma LocalVerdictDecides(c: Channel, handled: bool)
    requires L.LocalInv(c) && c.area.toBeDelivered != []
    ensures var e, d := c.area.toBeDelivered[0], L.Dispatched(c, handled);
            (e in WithFate(d.hist.log, Consumed) <==> handled) && (e in d.hist.givenBack <==> !handled)
  {
    var e, d := c.area.toBeDelivered[0], L.Dispatched(c, handled);
    L.DispatchKeeps(c, handled);
    L.OneSettled(Settled(e, true, if handled then Consumed else Returned));
    WithFateConcat(c.hist.log, [Settled(e, true, if handled then Consumed else Returned)], Consumed);
    EachEventOnce(d);
    hide Conserved;
    var consumed, back := WithFate(d.hist.log, Consumed), d.hist.givenBack;
    assert multiset(d.hist.pushed)[e] >= multiset(consumed)[e] + multiset(back)[e];
    assert (e in consumed <==> multiset(consumed)[e] > 0) && (e in back <==> multiset(back)[e] > 0);
  }

  // ---------- a turn of a node's channel to itself ----------

  function PushAll(c: Channel, pushes: seq<(nat, bool)>): Channel
    decreases |pushes|
  {
    if pushes == [] then c else PushAll(Push(c, pushes[0].0, pushes[0].1), pushes[1..])
  }

  /** Every event of the area is dispatched; the handler of the i-th makes pushes[i] on the channel meanwhile. */
  function DispatchAll(c: Channel, v: seq<bool>, pushes: seq<seq<(nat, bool)>>): Channel
    requires |v| == |c.area.toBeDelivered| == |pushes|
    decreases |v|
  {
    if v == [] then c
    else
      var m := L.Dispatched(c, v[0]);
      PushAllKeeps(m, pushes[0]);
      DispatchAll(PushAll(m, pushes[0]), v[1..], pushes[1..])
  }

  /** What d has been pushed beyond c is what its cache holds beyond c's. */
  predicate CachesMore(c: Channel, d: Channel) {
    c.hist.pushed <= d.hist.pushed && d.cache.toBeDelivered == c.cache.toBeDelivered + d.hist.pushed[|c.hist.pushed|..]
  }

  lemma CachesMoreJoins(c: Channel, m: Channel, d: Channel)
    requires CachesMore(c, m) && CachesMore(m, d)
    ensures CachesMore(c, d)
  {
    assert d.hist.pushed[|c.hist.pushed|..] == m.hist.pushed[|c.hist.pushed|..] + d.hist.pushed[|m.hist.pushed|..];
  }

  lemma {:induction false} PushAllKeeps(c: Channel, pushes: seq<(nat, bool)>)
    ensures var d := PushAll(c, pushes);
            && d.area == c.area && d.hist.log == c.hist.log && d.hist.givenBack == c.hist.givenBack
            && CachesMore(c, d) && (L.LocalInv(c) ==> L.LocalInv(d))
    decreases |pushes|
  {
    if pushes != [] {
      var m := Push(c, pushes[0].0, pushes[0].1);
      PushShape(c, pushes[0].0, pushes[0].1);
      if L.LocalInv(c) {
        L.NextKeeps(c, L.Pushing(pushes[0].0, pushes[0].1));
      }
      PushAllKeeps(m, pushes[1..]);
      hide Push, L.LocalInv;
      assert CachesMore(c, m);
      CachesMoreJoins(c, m, PushAll(m, pushes[1..]));
    }
  }

  lemma OneDispatched(c: Channel, handled: bool, pushes: seq<(nat, bool)>)
    requires L.LocalInv(c) && c.area.toBeDelivered != []
    ensures var n, e := PushAll(L.Dispatched(c, handled), pushes), c.area.toBeDelivered[0];
            && L.LocalInv(n) && n.area.toBeDelivered == c.area.toBeDelivered[1..] && CachesMore(c, n)
            && WithFate(n.hist.log, Consumed) == WithFate(c.hist.log, Consumed) + (if handled then [e] else [])
            && n.hist.givenBack == c.hist.givenBack + if handled then [] else [e]
  {
    var m, e := L.Dispatched(c, handled), c.area.toBeDelivered[0];
    L.DispatchKeeps(c, handled);
    L.OneSettled(Settled(e, true, if handled then Consumed else Returned));
    WithFateConcat(c.hist.log, [Settled(e, true, if handled then Consumed else Returned)], Consumed);
    PushAllKeeps(m, pushes);
    hide L.LocalInv, WithFate, PushAll;
  }

  lemma {:induction false} AllDispatched(c: Channel, v: seq<bool>, pushes: seq<seq<(nat, bool)>>)
    requires L.LocalInv(c) && |v| == |c.area.toBeDelivered| == |pushes|
    ensures var d := DispatchAll(c, v, pushes);
            && L.LocalInv(d) && d.area.toBeDelivered == [] && CachesMore(c, d)
            && WithFate(d.hist.log, Consumed) == WithFate(c.hist.log, Consumed) + Kept(c.area.toBeDelivered, v)
            && d.hist.givenBack == c.hist.givenBack + Refused(c.area.toBeDelivered, v)
    decreases |v|
  {
    hide L.LocalInv, WithFate, PushAll, L.Dispatched;
    if v != [] {
      var n, e, s := PushAll(L.Dispatched(c, v[0]), pushes[0]), c.area.toBeDelivered[0], c.area.toBeDelivered;
      OneDispatched(c, v[0], pushes[0]);
      AllDispatched(n, v[1..], pushes[1..]);
      CachesMoreJoins(c, n, DispatchAll(n, v[1..], pushes[1..]));
      hide CachesMore;
      SeqAssoc(WithFate(c.hist.log, Consumed), if v[0] then [e] else [], Kept(s[1..], v[1..]));
      SeqAssoc(c.hist.givenBack, if v[0] then [] else [e], Refused(s[1..], v[1..]));
    }
  }

  lemma NothingUnderWay(d: Channel)
    requires L.LocalInv(d) && d.area.toBeDelivered == []
    ensures multiset(d.hist.pushed)
         == multiset(WithFate(d.hist.log, Consumed)) + multiset(d.hist.givenBack) + multiset(d.cache.toBeDelivered)
  {
    EachEventOnce(d);
    hide WithFate, Balanced;
    assert LivePending(d) == [] && LiveUnread(d) == [];
  }

  /**
   One turn takes every event that waited when it began to its handler or back to its source, in push order, and
   with that each event the node had pushed to itself is consumed or given back; what the handlers push waits.
   */
  lemma LocalTurnSettlesAll(c: Channel, v: seq<bool>, pushes: seq<seq<(nat, bool)>>)
    requires L.LocalInv(c) && L.Enabled(c, L.Swap) && |v| == |c.cache.toBeDelivered| == |pushes|
    ensures L.LocalInv(L.Swapped(c)) && L.Swapped(c).area.toBeDelivered == c.cache.toBeDelivered
    ensures var d := DispatchAll(L.Swapped(c), v, pushes);
            && L.LocalInv(d) && d.area.toBeDelivered == [] && d.hist.pushed == c.hist.pushed + d.cache.toBeDelivered
            && WithFate(d.hist.log, Consumed) == WithFate(c.hist.log, Consumed) + Kept(c.cache.toBeDelivered, v)
            && d.hist.givenBack == c.hist.givenBack + Refused(c.cache.toBeDelivered, v)
            && multiset(c.hist.pushed) == multiset(WithFate(d.hist.log, Consumed)) + multiset(d.hist.givenBack)
  {
    hide DispatchAll, WithFate, L.LocalInv, Kept, Refused, L.Swapped;
    SwapTakesAll(c);
    var m, d := L.Swapped(c), DispatchAll(L.Swapped(c), v, pushes);
    AllDispatched(m, v, pushes);
    NothingUnderWay(d);
    assert d.hist.pushed == c.hist.pushed + d.cache.toBeDelivered;
    hide CachesMore;
    Cancelled(c.hist.pushed, d.cache.toBeDelivered,
        multiset(WithFate(d.hist.log, Consumed)) + multiset(d.hist.givenBack));
  }

  lemma SwapTakesAll(c: Channel)
    requires L.LocalInv(c) && L.Enabled(c, L.Swap)
    ensures var m := L.Swapped(c);
            && L.LocalInv(m) && m.area.toBeDelivered == c.cache.toBeDelivered && m.cache.toBeDelivered == []
            && m.hist == c.hist
  {
    L.SwapKeeps(c);
    hide L.LocalInv;
  }

  lemma Cancelled<T>(s: seq<T>, t: seq<T>, m: multiset<T>)
    requires multiset(s + t) == m + multiset(t)
    ensures multiset(s) == m
  {
    assert multiset(s + t) == multiset(s) + multiset(t);
    assert multiset(s + t) - multiset(t) == m;
  }

  // ---------- when a push is refused ----------

  /** Nothing but a full channel refuses an event: its pages are too small for it, or there is none left. */
  lemma PushRefusedIff(c: Channel, sz: nat)
    ensures var d := Push(c, sz, true);
            var fits, page := c.cache.used != [] && c.cache.offset + sz <= c.pageSize,
                              c.cache.free != [] || c.cache.nextPage < MAX_PAGE_INDEX;
            if fits || (sz <= c.pageSize && page) then
              && |d.hist.pushed| == |c.hist.pushed| + 1 && d.cache.toBeDelivered != []
              && d.cache.toBeDelivered[|d.cache.toBeDelivered| - 1] == d.hist.pushed[|c.hist.pushed|]
              && d.hist.pushed[|c.hist.pushed|].size == sz
            else d == c
  {
  }

  /** A page is made only when a push needs one and none is free; a push never lets go of one. */
  lemma PageMadeIff(c: Channel, sz: nat, constructed: bool)
    ensures var d := Push(c, sz, constructed);
            var needed := sz <= c.pageSize && (c.cache.used == [] || c.cache.offset + sz > c.pageSize);
            && (d.cache.nextPage != c.cache.nextPage <==>
                  needed && c.cache.free == [] && c.cache.nextPage < MAX_PAGE_INDEX)
            && |d.cache.used| + |d.cache.free| - |c.cache.used| - |c.cache.free|
               == d.cache.nextPage - c.cache.nextPage <= 1
            && d.area.used == c.area.used
  {
  }

  /**
   What was handed over last time is the writer's again after a write, what carries the cached events is handed over,
   and so is the request for a notice.
   */
  lemma WriteRecycles(c: Channel)
    ensures var d := Write(c);
            && multiset(d.cache.used) + multiset(d.cache.free)
               == multiset(c.cache.free) + multiset(c.area.used)
                  + (if c.cache.toBeDelivered == [] then multiset(c.cache.used) else multiset{})
            && multiset(d.area.used)
               == (if c.cache.toBeDelivered == [] then multiset{} else multiset(c.cache.used))
            && d.area.check == c.cache.check && !d.cache.check && !d.area.delivered
  {
    var free := c.cache.free + c.area.used;
    assert multiset(free) == multiset(c.cache.free) + multiset(c.area.used);
    if free != [] {
      G.HeadSplit(free);
    }
  }
}
