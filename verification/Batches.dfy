/**
 Batch objects watch a channel: isPushCommitted tells an actor whether the event it pushed may still be amended,
 or has left the write cache.  The channel's batch id only moves when somebody asked since it last moved.
 */
module Batches {
  import opened ChannelPayload
  import G = ChannelPages
  import L = LocalChannel

  type BatchName = nat

  /**
   local: the channel is the node's channel to itself.  ids: the id kept in each batch object; handOvers: how often
   the cache was handed over with events in it; and, as they were when the object last asked or was created, seen:
   handOvers, and mark: how many events had been pushed.  forced: objects told to answer true next time.  lost:
   objects since whose last question a failed write has taken an event pushed since then out of the cache.
   */
  datatype Watch = Watch(
    channel: Channel, local: bool, ids: map<BatchName, nat>, handOvers: nat,
    seen: map<BatchName, nat>, mark: map<BatchName, nat>, forced: set<BatchName>, lost: set<BatchName>)

  datatype Action =
    | PushEvent(size: nat, constructed: bool)
    | HandOver
    | Fail
    | ReadByPeer(verdicts: seq<bool>)
    | LocalHandOver
    | LocalDispatch(handled: bool)
    | Create(o: BatchName)
    | CreateForced(o: BatchName)
    | Query(o: BatchName)

  /** The current id; asking for it makes the next hand-over move it. */
  function Asked(c: Channel): Channel {
    c.(cache := c.cache.(batchIncrement := 1))
  }

  function Noted(w: Watch, o: BatchName, id: nat): Watch {
    w.(channel := Asked(w.channel), ids := w.ids[o := id], seen := w.seen[o := w.handOvers],
       mark := w.mark[o := |w.channel.hist.pushed|], forced := w.forced - {o}, lost := w.lost - {o})
  }

  /** isPushCommitted's answer. */
  predicate Committed(w: Watch, o: BatchName)
    requires o in w.ids
  {
    w.channel.cache.batchId != w.ids[o] || w.channel.cache.batchId == MAX_BATCH_ID
  }

  /** A channel to another node is written, one to the node itself is synchronized locally. */
  predicate Enabled(w: Watch, a: Action) {
    match a
    case HandOver => !w.local
    case Fail => !w.local
    case ReadByPeer(v) => !w.local && |v| == |w.channel.area.toBeDelivered|
    case LocalHandOver => w.local && L.Enabled(w.channel, L.Swap)
    case LocalDispatch(handled) => w.local && L.Enabled(w.channel, L.Dispatch(handled))
    case Query(o) => o in w.ids
    case _ => true
  }

  /** One more hand-over, if there is an event in the cache. */
  function Counted(w: Watch, c: Channel): Watch {
    w.(channel := c, handOvers := if w.channel.cache.toBeDelivered == [] then w.handOvers else w.handOvers + 1)
  }

  /** The objects that pushed since they last asked, when the cache holds anything to lose. */
  function Losers(w: Watch): set<BatchName> {
    if w.channel.cache.toBeDelivered == [] then {}
    else set o | o in w.mark && w.mark[o] < |w.channel.hist.pushed|
  }

  function Next(w: Watch, a: Action): Watch
    requires Enabled(w, a)
  {
    match a
    case PushEvent(size, constructed) => w.(channel := Push(w.channel, size, constructed))
    case HandOver => Counted(w, Write(w.channel))
    case Fail => w.(channel := WriteFailed(w.channel), lost := w.lost + Losers(w))
    case ReadByPeer(v) => w.(channel := Read(w.channel, v))
    case LocalHandOver => Counted(w, L.Swapped(w.channel))
    case LocalDispatch(handled) => w.(channel := L.Dispatched(w.channel, handled))
    case Create(o) => Noted(w, o, w.channel.cache.batchId)
    case CreateForced(o) =>
      var n := Noted(w, o, (w.channel.cache.batchId - 1) % (MAX_BATCH_ID + 1));
      n.(forced := n.forced + {o})
    case Query(o) => Noted(w, o, w.channel.cache.batchId)
  }

  // ---------- the invariant ----------

  /** How many of the pushed events have left the cache. */
  function Left(c: Channel): int {
    |c.hist.pushed| - |c.cache.toBeDelivered|
  }

  /** The cache holds the latest pushed events; no two pushed events are the same. */
  ghost predicate CacheHoldsLatest(c: Channel) {
    && Left(c) >= 0 && c.cache.toBeDelivered == c.hist.pushed[Left(c)..]
    && forall i :: 0 <= i < |c.hist.pushed| ==> c.hist.pushed[i].id == i
  }

  ghost predicate ObjectOk(w: Watch, o: BatchName)
    requires o in w.ids && o in w.seen && o in w.mark
  {
    var id, c := w.channel.cache.batchId, w.channel.cache;
    && w.seen[o] <= w.handOvers && w.mark[o] <= |w.channel.hist.pushed|
    && (w.seen[o] == w.handOvers ==> (o in w.lost <==> w.mark[o] < Left(w.channel)))
    && if o in w.forced then w.ids[o] < id || (w.ids[o] == MAX_BATCH_ID && id <= MAX_BATCH_ID)
       else if w.seen[o] == w.handOvers then w.ids[o] == id && (c.batchIncrement == 1 || id == MAX_BATCH_ID)
       else w.ids[o] < id || id == MAX_BATCH_ID
  }

  ghost predicate Inv(w: Watch) {
    && w.channel.cache.batchIncrement <= 1 && w.channel.cache.batchId <= MAX_BATCH_ID
    && CacheHoldsLatest(w.channel)
    && w.seen.Keys == w.ids.Keys == w.mark.Keys
    && forall o {:trigger o in w.ids} :: o in w.ids ==> ObjectOk(w, o)
  }

  /** What a step that asks for no id and hands nothing over does to the cache. */
  ghost predicate CacheStays(c: Channel, d: Channel) {
    && CacheHoldsLatest(d) && Left(d) == Left(c) && |d.hist.pushed| >= |c.hist.pushed|
    && d.cache.batchId == c.cache.batchId && d.cache.batchIncrement == c.cache.batchIncrement
  }

  lemma StayKeeps(w: Watch, d: Channel)
    requires Inv(w) && CacheStays(w.channel, d)
    ensures Inv(w.(channel := d))
  {
    var n := w.(channel := d);
    forall o | o in n.ids ensures ObjectOk(n, o) {
      assert ObjectOk(w, o);
    }
  }

  lemma PushStays(c: Channel, size: nat, constructed: bool)
    requires CacheHoldsLatest(c)
    ensures CacheStays(c, Push(c, size, constructed))
  {
    PushShape(c, size, constructed);
    PushKeepsId(c, size, constructed);
    var d := Push(c, size, constructed);
    hide Push;
    if d.hist != c.hist {
      var e := d.hist.pushed[|c.hist.pushed|];
      assert d.hist.pushed == c.hist.pushed + [e] && d.cache.toBeDelivered == c.cache.toBeDelivered + [e];
      assert (c.hist.pushed + [e])[Left(c)..] == c.hist.pushed[Left(c)..] + [e];
    }
  }

  lemma PushKeepsId(c: Channel, size: nat, constructed: bool)
    ensures var d := Push(c, size, constructed);
            d.cache.batchId == c.cache.batchId && d.cache.batchIncrement == c.cache.batchIncrement
  {
  }

  /** The cache is emptied, and the id moves with it if there was anything in it. */
  ghost predicate CacheLeaves(c: Channel, d: Channel) {
    && d.hist.pushed == c.hist.pushed && d.cache.toBeDelivered == []
    && var k := HandedOver(c.cache); d.cache.batchId == k.batchId && d.cache.batchIncrement == k.batchIncrement
  }

  lemma LeaveKeeps(w: Watch, d: Channel)
    requires Inv(w) && w.channel.cache.toBeDelivered != [] && CacheLeaves(w.channel, d)
    ensures Inv(Counted(w, d))
  {
    var n := Counted(w, d);
    forall o | o in n.ids ensures ObjectOk(n, o) {
      assert ObjectOk(w, o);
    }
  }

  lemma FailKeeps(w: Watch)
    requires Inv(w)
    ensures Inv(w.(channel := WriteFailed(w.channel), lost := w.lost + Losers(w)))
  {
    var n := w.(channel := WriteFailed(w.channel), lost := w.lost + Losers(w));
    FailLeaves(w.channel);
    hide WriteFailed;
    forall o | o in n.ids ensures ObjectOk(n, o) {
      assert ObjectOk(w, o);
    }
  }

  lemma FailLeaves(c: Channel)
    ensures var d := WriteFailed(c);
            && d.hist.pushed == c.hist.pushed && d.cache.toBeDelivered == []
            && d.cache.batchId == c.cache.batchId && d.cache.batchIncrement == c.cache.batchIncrement
  {
  }

  lemma NotedKeeps(w: Watch, o: BatchName)
    requires Inv(w)
    ensures Inv(Noted(w, o, w.channel.cache.batchId))
  {
    var n := Noted(w, o, w.channel.cache.batchId);
    forall x | x in n.ids ensures ObjectOk(n, x) {
      assert x != o ==> ObjectOk(w, x);
    }
  }

  lemma ForcedKeeps(w: Watch, o: BatchName)
    requires Inv(w)
    ensures Inv(Next(w, CreateForced(o)))
  {
    var n := Next(w, CreateForced(o));
    PreviousId(w.channel.cache.batchId);
    forall x | x in n.ids ensures ObjectOk(n, x) {
      assert x != o ==> ObjectOk(w, x);
    }
  }

  lemma PreviousId(id: nat)
    requires id <= MAX_BATCH_ID
    ensures (id - 1) % (MAX_BATCH_ID + 1) == if id == 0 then MAX_BATCH_ID else id - 1
  {
  }

  lemma StepKeeps(w: Watch, a: Action)
    requires Inv(w) && Enabled(w, a)
    ensures Inv(Next(w, a))
  {
    match a
    case PushEvent(size, constructed) =>
      PushStays(w.channel, size, constructed);
      hide Push;
      StayKeeps(w, Push(w.channel, size, constructed));
    case HandOver =>
      if w.channel.cache.toBeDelivered == [] {
        StayKeeps(w, Write(w.channel));
      } else {
        LeaveKeeps(w, Write(w.channel));
      }
    case Fail => FailKeeps(w);
    case ReadByPeer(v) => StayKeeps(w, Read(w.channel, v));
    case LocalHandOver =>
      if w.channel.cache.toBeDelivered == [] {
        StayKeeps(w, L.Swapped(w.channel));
      } else {
        LeaveKeeps(w, L.Swapped(w.channel));
      }
    case LocalDispatch(handled) => StayKeeps(w, L.Dispatched(w.channel, handled));
    case Create(o) => NotedKeeps(w, o);
    case CreateForced(o) => ForcedKeeps(w, o);
    case Query(o) => NotedKeeps(w, o);
  }

  // ---------- runs ----------

  ghost predicate Reached(start: Watch, actions: seq<Action>, w: Watch)
    decreases |actions|
  {
    if actions == [] then w == start
    else
      var last := |actions| - 1;
      exists p :: Reached(start, actions[..last], p) && Enabled(p, actions[last]) && w == Next(p, actions[last])
  }

  /** The channel as it is made, to another node or to the node itself; nobody watches it yet. */
  function Beginning(pageSize: nat, local: bool): Watch {
    Watch(if local then L.NewChannel(pageSize) else G.Initial(pageSize), local, map[], 0, map[], map[], {}, {})
  }

  lemma {:induction false} RunKeeps(pageSize: nat, local: bool, actions: seq<Action>, w: Watch)
    requires Reached(Beginning(pageSize, local), actions, w)
    ensures Inv(w)
    decreases |actions|
  {
    if actions != [] {
      var last := |actions| - 1;
      var p :| Reached(Beginning(pageSize, local), actions[..last], p) && Enabled(p, actions[last])
               && w == Next(p, actions[last]);
      RunKeeps(pageSize, local, actions[..last], p);
      hide Inv, Next;
      StepKeeps(p, actions[last]);
    }
  }

  /** The events pushed since the object last asked are still in the cache. */
  ghost predicate Amendable(w: Watch, o: BatchName)
    requires o in w.mark
  {
    forall k :: w.mark[o] <= k < |w.channel.hist.pushed| ==> w.channel.hist.pushed[k] in w.channel.cache.toBeDelivered
  }

  /** What the actor concludes from the answer false is so. */
  ghost predicate Truthful(w: Watch, o: BatchName)
    requires o in w.ids && o in w.mark
  {
    !Committed(w, o) ==> Amendable(w, o)
  }

  /** The cache was handed over since the object last asked, or it was told to say so, or the id has run out. */
  predicate Moved(w: Watch, o: BatchName)
    requires o in w.seen
  {
    w.handOvers > w.seen[o] || o in w.forced || w.channel.cache.batchId == MAX_BATCH_ID
  }

  /** In every run, on a channel to another node or to the node itself, the answer is true exactly when that is so. */
  lemma CommittedIffHandedOver(pageSize: nat, local: bool, actions: seq<Action>, w: Watch, o: BatchName)
    requires Reached(Beginning(pageSize, local), actions, w) && o in w.ids
    ensures o in w.seen && (Committed(w, o) <==> Moved(w, o))
  {
    RunKeeps(pageSize, local, actions, w);
    assert ObjectOk(w, o);
  }

  /**
   A failed write empties the cache without moving the id.  In every run, failed writes included, the answer misleads
   exactly when one of them took away an event pushed since the object last asked, and nothing else made it true.
   */
  lemma FailedWriteGoesUnseen(pageSize: nat, local: bool, actions: seq<Action>, w: Watch, o: BatchName)
    requires Reached(Beginning(pageSize, local), actions, w) && o in w.ids
    ensures o in w.seen && o in w.mark && (Truthful(w, o) <==> Moved(w, o) || o !in w.lost)
  {
    RunKeeps(pageSize, local, actions, w);
    AmendableIff(w, o);
  }

  lemma AmendableIff(w: Watch, o: BatchName)
    requires Inv(w) && o in w.ids
    ensures o in w.seen && o in w.mark && (Committed(w, o) <==> Moved(w, o))
    ensures !Moved(w, o) ==> (Amendable(w, o) <==> o !in w.lost)
  {
    assert ObjectOk(w, o);
    var c := w.channel;
    if !Moved(w, o) && o !in w.lost {
      forall k | w.mark[o] <= k < |c.hist.pushed| ensures c.hist.pushed[k] in c.cache.toBeDelivered {
        assert c.cache.toBeDelivered[k - Left(c)] == c.hist.pushed[k];
      }
    } else if !Moved(w, o) {
      var e := c.hist.pushed[w.mark[o]];
      forall j | 0 <= j < |c.cache.toBeDelivered| ensures c.cache.toBeDelivered[j] != e {
        assert c.cache.toBeDelivered[j] == c.hist.pushed[Left(c) + j];
      }
    }
  }

  lemma {:induction false} LostNothing(start: Watch, actions: seq<Action>, w: Watch)
    requires Reached(start, actions, w) && Fail !in actions && start.lost == {}
    ensures w.lost == {}
    decreases |actions|
  {
    if actions != [] {
      var last := |actions| - 1;
      var p :| Reached(start, actions[..last], p) && Enabled(p, actions[last]) && w == Next(p, actions[last]);
      assert actions[last] in actions && forall a :: a in actions[..last] ==> a in actions;
      LostNothing(start, actions[..last], p);
    }
  }

  /** Without a failed write the answer is right in every run, and false means the events can still be amended. */
  lemma NothingLostWithoutFailure(pageSize: nat, local: bool, actions: seq<Action>, w: Watch, o: BatchName)
    requires Reached(Beginning(pageSize, local), actions, w) && Fail !in actions && o in w.ids
    ensures o in w.seen && o in w.mark && Truthful(w, o) && (Committed(w, o) || Amendable(w, o))
  {
    LostNothing(Beginning(pageSize, local), actions, w);
    FailedWriteGoesUnseen(pageSize, local, actions, w, o);
    hide Reached;
  }

  // ---------- it does happen ----------

  lemma OneMore(start: Watch, actions: seq<Action>, w: Watch, a: Action)
    requires Reached(start, actions, w) && Enabled(w, a)
    ensures Reached(start, actions + [a], Next(w, a))
  {
    var more := actions + [a];
    assert more[..|more| - 1] == actions && more[|more| - 1] == a && more != [];
  }

  /** Watch, push, fail, on a channel as it is made: the event is gone, and the answer is false. */
  lemma MisledAfter(pageSize: nat, o: BatchName)
    requires pageSize >= 1
    ensures var w := Next(Next(Next(Beginning(pageSize, false), Create(o)), PushEvent(1, true)), Fail);
            o in w.ids && o in w.mark && !Truthful(w, o)
  {
    var w1 := Next(Beginning(pageSize, false), Create(o));
    var w2 := Next(w1, PushEvent(1, true));
    var e := Event(0, 1, 0, 1);
    assert w2.channel.hist.pushed == [e] && w2.channel.cache.toBeDelivered == [e];
    var w3 := Next(w2, Fail);
    FailLeaves(w2.channel);
    hide WriteFailed;
    assert w3.mark[o] == 0 && w3.channel.hist.pushed[0] == e && w3.channel.cache.toBeDelivered == [];
  }

  lemma FailedWriteMisleads(pageSize: nat, o: BatchName)
    requires pageSize >= 1
    ensures exists actions, w ::
              Reached(Beginning(pageSize, false), actions, w) && o in w.ids && o in w.mark && !Truthful(w, o)
  {
    MisledAfter(pageSize, o);
    EnabledHere(pageSize, o);
    ThreeSteps(Beginning(pageSize, false), Create(o), PushEvent(1, true), Fail);
    hide *;
  }

  lemma ThreeSteps(start: Watch, a: Action, b: Action, c: Action)
    requires Enabled(start, a) && Enabled(Next(start, a), b) && Enabled(Next(Next(start, a), b), c)
    ensures Reached(start, [] + [a] + [b] + [c], Next(Next(Next(start, a), b), c))
  {
    assert Reached(start, [], start);
    hide *;
    OneMore(start, [], start, a);
    OneMore(start, [] + [a], Next(start, a), b);
    OneMore(start, [] + [a] + [b], Next(Next(start, a), b), c);
  }

  lemma EnabledHere(pageSize: nat, o: BatchName)
    ensures var w := Next(Beginning(pageSize, false), Create(o));
            && Enabled(Beginning(pageSize, false), Create(o)) && Enabled(w, PushEvent(1, true))
            && Enabled(Next(w, PushEvent(1, true)), Fail)
  {
  }
}
