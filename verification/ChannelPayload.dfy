/**
 What travels on the channel from a writer node to a reader node.

 The area is the part of the shared structure handed back and forth (ReadWriteLocked); the cache is the part
 only the writer touches (WriteCache).  Routed events need an engine-to-engine connector, so their chains are
 empty here.  Event pages are known by their index; an event carries the place it was allocated at.

 The history is specification only.  It starts afresh with each lifetime of the writer node: what was pushed,
 the events that left both the cache and the unread area (in that order) with what became of them, and
 the events given back to their source actors.
 */
module ChannelPayload {
  import opened Wrappers

  /** The largest value of the 32-bit page index counter. */
  const MAX_PAGE_INDEX: nat := 0xFFFF_FFFF
  /** The largest value of the 64-bit batch id. */
  const MAX_BATCH_ID: nat := 0xFFFF_FFFF_FFFF_FFFF

  datatype Event = Event(id: nat, page: nat, offset: nat, size: nat)

  /** Pending: on the undelivered chain, to be returned by the writer. */
  datatype Fate = Consumed | Pending | Returned

  /** presented: the reader node looked up the destination actor and called its handler, if there is one. */
  datatype Settled = Settled(event: Event, presented: bool, fate: Fate)

  datatype Area = Area(
    delivered: bool, check: bool, toBeDelivered: seq<Event>, undelivered: seq<Event>, used: seq<nat>)

  datatype Cache = Cache(
    check: bool, batchIncrement: nat, batchId: nat, toBeDelivered: seq<Event>,
    offset: nat, used: seq<nat>, free: seq<nat>, nextPage: nat)

  /** stale: the content of the area was handed over in an earlier lifetime of the writer. */
  datatype History = History(pushed: seq<Event>, log: seq<Settled>, givenBack: seq<Event>, stale: bool)

  datatype Channel = Channel(pageSize: nat, area: Area, cache: Cache, hist: History)

  // ---------- allocation and push ----------

  /** A page is put in front of the used ones, if the front page has no room for sz bytes. */
  function WithRoom(c: Cache, pageSize: nat, sz: nat): Option<Cache> {
    if c.used != [] && c.offset + sz <= pageSize then Some(c)
    else if sz > pageSize then None
    else if c.free != [] then Some(c.(used := [c.free[0]] + c.used, free := c.free[1..], offset := 0))
    else if c.nextPage >= MAX_PAGE_INDEX then None
    else Some(c.(used := [c.nextPage] + c.used, nextPage := c.nextPage + 1, offset := 0))
  }

  function AllocateEvent(c: Cache, pageSize: nat, sz: nat): (r: Option<Cache>) {
    match WithRoom(c, pageSize, sz)
    case None => None
    case Some(d) => Some(d.(offset := d.offset + sz))
  }

  /** Allocation of sz bytes and, when the event's constructor returned, the event's entry in the cache. */
  function Push(c: Channel, sz: nat, constructed: bool): Channel {
    match AllocateEvent(c.cache, c.pageSize, sz)
    case None => c
    case Some(d) =>
      if !constructed || d.used == [] || d.offset < sz then c.(cache := d)
      else
        var e := Event(|c.hist.pushed|, d.used[0], d.offset - sz, sz);
        c.(cache := d.(toBeDelivered := d.toBeDelivered + [e]), hist := c.hist.(pushed := c.hist.pushed + [e]))
  }

  // ---------- the reader's pass ----------

  /** The events whose verdict is true (dispatched), and the others (returned), in chain order. */
  function Kept(s: seq<Event>, v: seq<bool>): seq<Event>
    requires |s| == |v|
  {
    if s == [] then [] else (if v[0] then [s[0]] else []) + Kept(s[1..], v[1..])
  }

  function Refused(s: seq<Event>, v: seq<bool>): seq<Event>
    requires |s| == |v|
  {
    if s == [] then [] else (if v[0] then [] else [s[0]]) + Refused(s[1..], v[1..])
  }

  function Judged(s: seq<Event>, v: seq<bool>): seq<Settled>
    requires |s| == |v|
  {
    if s == [] then []
    else [Settled(s[0], true, if v[0] then Consumed else Pending)] + Judged(s[1..], v[1..])
  }

  /** v holds the outcome of the dispatch of each event of the area. */
  function Read(c: Channel, v: seq<bool>): Channel
    requires |v| == |c.area.toBeDelivered|
  {
    c.(area := ReadArea(c.area, v),
       hist := if c.hist.stale then c.hist else c.hist.(log := c.hist.log + Judged(c.area.toBeDelivered, v)))
  }

  function ReadArea(a: Area, v: seq<bool>): Area
    requires |v| == |a.toBeDelivered|
  {
    var s := a.toBeDelivered;
    a.(delivered := true, toBeDelivered := Kept(s, v), undelivered := a.undelivered + Refused(s, v))
  }

  // ---------- the writer's passes ----------

  function Marked(log: seq<Settled>): seq<Settled> {
    if log == [] then []
    else [if log[0].fate.Pending? then log[0].(fate := Returned) else log[0]] + Marked(log[1..])
  }

  function Bounced(s: seq<Event>): seq<Settled> {
    if s == [] then [] else [Settled(s[0], false, Returned)] + Bounced(s[1..])
  }

  /** The hand-over: undelivered events go back to their sources, the cache becomes the content of the area. */
  function Write(c: Channel): Channel {
    var givenBack := c.hist.givenBack + if c.hist.stale then [] else c.area.undelivered;
    Channel(c.pageSize, WrittenArea(c.cache), WrittenCache(c.area, c.cache),
            c.hist.(log := Marked(c.hist.log), givenBack := givenBack, stale := false))
  }

  function WrittenArea(c: Cache): Area {
    Area(false, c.check, c.toBeDelivered, [], if c.toBeDelivered == [] then [] else c.used)
  }

  function WrittenCache(a: Area, c: Cache): Cache {
    var free := c.free + a.used;
    if c.toBeDelivered == [] then c.(check := false, free := free)
    else
      HandedOver(c).(check := false, toBeDelivered := [], offset := 0,
                     used := if free == [] then [] else [free[0]], free := if free == [] then [] else free[1..])
  }

  /** The batch id moves at a hand-over if somebody asked for it since the last move. */
  function HandedOver(c: Cache): Cache {
    if c.batchId == MAX_BATCH_ID then c else c.(batchId := c.batchId + c.batchIncrement, batchIncrement := 0)
  }

  predicate WriteWorthy(c: Channel) {
    c.cache.check || c.cache.toBeDelivered != []
  }

  /** The events a failed write returns, in the order of the calls. */
  function FailedReturns(a: Area, c: Cache): seq<Event> {
    (if a.delivered then a.undelivered else a.toBeDelivered) + c.toBeDelivered
  }

  /** The reader is gone: everything not consumed goes back to its source, every page becomes free. */
  function WriteFailed(c: Channel): Channel {
    Channel(c.pageSize, Area(false, false, [], [], []), FailedCache(c.area, c.cache),
            c.hist.(log := Marked(c.hist.log) + Bounced(LiveUnread(c)) + Bounced(c.cache.toBeDelivered),
                    givenBack := c.hist.givenBack + LivePending(c) + LiveUnread(c) + c.cache.toBeDelivered,
                    stale := false))
  }

  function FailedCache(a: Area, c: Cache): Cache {
    var free := c.free + a.used + c.used;
    c.(check := false, toBeDelivered := [], offset := 0,
       used := if free == [] then [] else [free[0]], free := if free == [] then [] else free[1..])
  }

  /** The failed write takes a page from the free chain: there must be one. */
  predicate CanFail(a: Area, c: Cache) {
    c.free + a.used + c.used != []
  }

  /** A new lifetime of the writer node begins. */
  function Restarted(c: Channel): Channel {
    c.(hist := History([], [], [], true))
  }

  function LiveUnread(c: Channel): seq<Event> {
    if c.hist.stale || c.area.delivered then [] else c.area.toBeDelivered
  }

  function LivePending(c: Channel): seq<Event> {
    if c.hist.stale then [] else c.area.undelivered
  }

  // ---------- conservation ----------

  function Events(log: seq<Settled>): seq<Event> {
    if log == [] then [] else [log[0].event] + Events(log[1..])
  }

  function WithFate(log: seq<Settled>, f: Fate): seq<Event> {
    if log == [] then [] else (if log[0].fate == f then [log[0].event] else []) + WithFate(log[1..], f)
  }

  function Presented(log: seq<Settled>): seq<Event> {
    if log == [] then [] else (if log[0].presented then [log[0].event] else []) + Presented(log[1..])
  }

  /**
   Pushed events leave in push order, each with one fate: settled ones first, then the unread area, then the
   cache.  The undelivered chain is what is pending, and what was returned is what was given back.
   */
  ghost predicate Conserved(c: Channel) {
    && Balanced(c.hist, LivePending(c), LiveUnread(c) + c.cache.toBeDelivered)
    && (c.area.undelivered != [] ==> c.area.delivered)
  }

  ghost predicate Balanced(h: History, pending: seq<Event>, waiting: seq<Event>) {
    && h.pushed == Events(h.log) + waiting
    && WithFate(h.log, Pending) == pending
    && multiset(WithFate(h.log, Returned)) == multiset(h.givenBack)
    && (forall i :: 0 <= i < |h.pushed| ==> h.pushed[i].id == i)
  }

  lemma {:induction false} EventsConcat(a: seq<Settled>, b: seq<Settled>)
    ensures Events(a + b) == Events(a) + Events(b)
  {
    if a == [] {
      assert a + b == b;
    } else {
      assert (a + b)[1..] == a[1..] + b;
      EventsConcat(a[1..], b);
    }
  }

  lemma {:induction false} WithFateConcat(a: seq<Settled>, b: seq<Settled>, f: Fate)
    ensures WithFate(a + b, f) == WithFate(a, f) + WithFate(b, f)
  {
    if a == [] {
      assert a + b == b;
    } else {
      var first := if a[0].fate == f then [a[0].event] else [];
      assert (a + b)[0] == a[0] && (a + b)[1..] == a[1..] + b;
      WithFateConcat(a[1..], b, f);
      SeqAssoc(first, WithFate(a[1..], f), WithFate(b, f));
    }
  }

  lemma {:induction false} JudgedMeaning(s: seq<Event>, v: seq<bool>)
    requires |s| == |v|
    ensures Events(Judged(s, v)) == s
    ensures WithFate(Judged(s, v), Pending) == Refused(s, v)
    ensures WithFate(Judged(s, v), Returned) == []
  {
    if s != [] {
      JudgedMeaning(s[1..], v[1..]);
    }
  }

  lemma {:induction false} BouncedMeaning(s: seq<Event>)
    ensures Events(Bounced(s)) == s
    ensures WithFate(Bounced(s), Pending) == []
    ensures WithFate(Bounced(s), Returned) == s
  {
    if s != [] {
      BouncedMeaning(s[1..]);
    }
  }

  lemma {:induction false} MarkedMeaning(log: seq<Settled>)
    ensures Events(Marked(log)) == Events(log)
    ensures WithFate(Marked(log), Pending) == []
    ensures multiset(WithFate(Marked(log), Returned))
         == multiset(WithFate(log, Returned)) + multiset(WithFate(log, Pending))
  {
    if log != [] {
      MarkedMeaning(log[1..]);
    }
  }

  lemma BalancedPush(h: History, pending: seq<Event>, waiting: seq<Event>, e: Event)
    requires Balanced(h, pending, waiting) && e.id == |h.pushed|
    ensures Balanced(h.(pushed := h.pushed + [e]), pending, waiting + [e])
  {
    assert Events(h.log) + waiting + [e] == Events(h.log) + (waiting + [e]);
  }

  /** Events that stop waiting are appended to the log, with the fates given in more. */
  lemma BalancedSettle(h: History, more: seq<Settled>, waiting: seq<Event>)
    requires Balanced(h, [], Events(more) + waiting)
    ensures Balanced(h.(log := h.log + more, givenBack := h.givenBack + WithFate(more, Returned)),
                     WithFate(more, Pending), waiting)
  {
    EventsConcat(h.log, more);
    WithFateConcat(h.log, more, Pending);
    WithFateConcat(h.log, more, Returned);
    SeqAssoc(Events(h.log), Events(more), waiting);
    assert [] + WithFate(more, Pending) == WithFate(more, Pending);
  }

  lemma SeqAssoc<T>(a: seq<T>, b: seq<T>, c: seq<T>)
    ensures a + (b + c) == (a + b) + c
  {
  }

  lemma BalancedReturn(h: History, pending: seq<Event>, waiting: seq<Event>)
    requires Balanced(h, pending, waiting)
    ensures Balanced(h.(log := Marked(h.log), givenBack := h.givenBack + pending, stale := false), [], waiting)
  {
    MarkedMeaning(h.log);
  }

  /** A push either leaves everything that counts alone, or adds one event at the end of the cache. */
  lemma PushShape(c: Channel, sz: nat, constructed: bool)
    ensures var d := Push(c, sz, constructed);
            && d.area == c.area && d.hist.stale == c.hist.stale
            && (d.hist == c.hist ==> d.cache.toBeDelivered == c.cache.toBeDelivered)
            && (d.hist != c.hist ==>
                  var n := |c.hist.pushed|;
                  && |d.hist.pushed| == n + 1 && d.hist.pushed[n].id == n
                  && d.hist == c.hist.(pushed := c.hist.pushed + [d.hist.pushed[n]])
                  && d.cache.toBeDelivered == c.cache.toBeDelivered + [d.hist.pushed[n]])
  {
  }

  lemma {:induction false} PushConserves(c: Channel, sz: nat, constructed: bool)
    requires Conserved(c)
    ensures Conserved(Push(c, sz, constructed))
  {
    var d := Push(c, sz, constructed);
    PushShape(c, sz, constructed);
    hide Push, Balanced;
    if d.hist != c.hist {
      var e := d.hist.pushed[|c.hist.pushed|];
      BalancedPush(c.hist, LivePending(c), LiveUnread(c) + c.cache.toBeDelivered, e);
      SeqAssoc(LiveUnread(c), c.cache.toBeDelivered, [e]);
    }
  }

  lemma ReadConserves(c: Channel, v: seq<bool>)
    requires Conserved(c) && |v| == |c.area.toBeDelivered| && !c.area.delivered
    ensures Conserved(Read(c, v))
  {
    var d := Read(c, v);
    if !c.hist.stale {
      var more := Judged(c.area.toBeDelivered, v);
      JudgedMeaning(c.area.toBeDelivered, v);
      BalancedSettle(c.hist, more, c.cache.toBeDelivered);
      hide Balanced;
      assert c.hist.givenBack + WithFate(more, Returned) == d.hist.givenBack;
      assert LiveUnread(d) + d.cache.toBeDelivered == c.cache.toBeDelivered;
      assert LivePending(d) == WithFate(more, Pending);
    }
  }

  lemma {:induction false} WriteConserves(c: Channel)
    requires Conserved(c) && LiveUnread(c) == []
    ensures Conserved(Write(c))
  {
    hide Balanced;
    var d, cached := Write(c), c.cache.toBeDelivered;
    assert LiveUnread(c) + cached == cached;
    BalancedReturn(c.hist, LivePending(c), cached);
    assert LiveUnread(d) + d.cache.toBeDelivered == cached && LivePending(d) == [];
    assert d.hist.givenBack == c.hist.givenBack + LivePending(c);
    hide Write;
  }

  lemma WriteFailedConserves(c: Channel)
    requires Conserved(c)
    ensures Conserved(WriteFailed(c))
  {
    var d, unread, cached := WriteFailed(c), LiveUnread(c), c.cache.toBeDelivered;
    BalancedReturn(c.hist, LivePending(c), unread + cached);
    var h := c.hist.(log := Marked(c.hist.log), givenBack := c.hist.givenBack + LivePending(c), stale := false);
    BouncedMeaning(unread);
    BalancedSettle(h, Bounced(unread), cached);
    BouncedMeaning(cached);
    assert cached + [] == cached;
    BalancedSettle(h.(log := h.log + Bounced(unread), givenBack := h.givenBack + unread), Bounced(cached), []);
    assert LiveUnread(d) + d.cache.toBeDelivered == [];
  }

  // ---------- reading the conservation law ----------

  lemma {:induction false} FatesPartition(log: seq<Settled>)
    ensures multiset(Events(log))
         == multiset(WithFate(log, Consumed)) + multiset(WithFate(log, Pending)) + multiset(WithFate(log, Returned))
  {
    if log != [] {
      FatesPartition(log[1..]);
      assert Events(log) == [log[0].event] + Events(log[1..]);
    }
  }

  /** Every pushed event is in exactly one place; nothing is lost and nothing is given two fates. */
  lemma EachEventOnce(c: Channel)
    requires Conserved(c)
    ensures multiset(c.hist.pushed)
         == multiset(WithFate(c.hist.log, Consumed)) + multiset(c.hist.givenBack) + multiset(LivePending(c))
            + multiset(LiveUnread(c)) + multiset(c.cache.toBeDelivered)
    ensures forall e :: multiset(c.hist.pushed)[e] <= 1
  {
    FatesPartition(c.hist.log);
    DistinctIds(c.hist.pushed);
  }

  lemma {:induction false} DistinctIds(s: seq<Event>)
    requires forall i :: 0 <= i < |s| ==> s[i].id == i
    ensures forall e :: multiset(s)[e] <= 1
  {
    if s != [] {
      var n := |s| - 1;
      DistinctIds(s[..n]);
      assert s == s[..n] + [s[n]];
      assert forall e :: e in s[..n] ==> e.id < n;
    }
  }

  /** The reader is offered the events of a channel in push order. */
  lemma FirstCallsInPushOrder(c: Channel, i: nat, j: nat)
    requires Conserved(c) && i < j < |Presented(c.hist.log)|
    ensures Presented(c.hist.log)[i].id < Presented(c.hist.log)[j].id
    ensures Presented(c.hist.log)[i] in c.hist.pushed && Presented(c.hist.log)[j] in c.hist.pushed
  {
    var log := c.hist.log;
    assert Events(log) <= c.hist.pushed;
    PresentedIncreasing(log);
    assert Presented(log)[i] in Events(log) && Presented(log)[j] in Events(log);
  }

  lemma {:induction false} PresentedIncreasing(log: seq<Settled>)
    requires forall k, l :: 0 <= k < l < |Events(log)| ==> Events(log)[k].id < Events(log)[l].id
    ensures forall x :: x in Presented(log) ==> x in Events(log)
    ensures forall k, l :: 0 <= k < l < |Presented(log)| ==> Presented(log)[k].id < Presented(log)[l].id
  {
    if log != [] {
      var rest := log[1..];
      assert Events(rest) == Events(log)[1..];
      PresentedIncreasing(rest);
      forall x | x in Presented(rest) ensures log[0].event.id < x.id {
        var k :| 0 <= k < |Events(rest)| && Events(rest)[k] == x;
        assert Events(log)[k + 1] == x && Events(log)[0] == log[0].event;
      }
    }
  }
}
