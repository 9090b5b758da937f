/**
 A node's channel to itself.  There is no reader to hand over to: once per loop the cached events are swapped out
 and dispatched in place, on pages that stay aside until the next such turn.  Handlers may push on the channel
 meanwhile.  The area holds what is being dispatched, and its used pages are the node's local ones.
 */
module LocalChannel {
  import opened ChannelPayload
  import opened ChannelPages

  datatype Action = Pushing(size: nat, constructed: bool) | Swap | Dispatch(handled: bool)

  function NewChannel(pageSize: nat): Channel {
    Initial(pageSize).(hist := History([], [], [], false))
  }

  /** The loop over the swapped-out events ends before the next turn begins. */
  predicate Enabled(c: Channel, a: Action) {
    match a
    case Pushing(_, _) => true
    case Swap => c.area.toBeDelivered == []
    case Dispatch(_) => c.area.toBeDelivered != []
  }

  /** The used pages change places with the local ones, which have just become free. */
  function Swapped(c: Channel): Channel {
    if c.cache.toBeDelivered == [] then c
    else
      c.(area := c.area.(toBeDelivered := c.cache.toBeDelivered, used := c.cache.used),
         cache := HandedOver(c.cache).(toBeDelivered := [], offset := 0, used := [],
             free := c.cache.free + c.area.used))
  }

  /** The handler is called, or the event goes back to its source at once. */
  function Dispatched(c: Channel, handled: bool): Channel
    requires c.area.toBeDelivered != []
  {
    var e := c.area.toBeDelivered[0];
    c.(area := c.area.(toBeDelivered := c.area.toBeDelivered[1..]),
       hist := c.hist.(log := c.hist.log + [Settled(e, true, if handled then Consumed else Returned)],
                       givenBack := c.hist.givenBack + if handled then [] else [e]))
  }

  function Next(c: Channel, a: Action): Channel
    requires Enabled(c, a)
  {
    match a
    case Pushing(size, constructed) => Push(c, size, constructed)
    case Swap => Swapped(c)
    case Dispatch(handled) => Dispatched(c, handled)
  }

  /** A local channel never uses the undelivered chain. */
  ghost predicate LocalInv(c: Channel) {
    Sound(c) && !c.hist.stale && !c.area.delivered && c.area.undelivered == []
  }

  lemma NewIsSound(pageSize: nat)
    ensures LocalInv(NewChannel(pageSize))
  {
  }

  lemma SwapKeeps(c: Channel)
    requires LocalInv(c) && Enabled(c, Swap)
    ensures LocalInv(Swapped(c))
  {
    var d := Swapped(c);
    if c.cache.toBeDelivered != [] {
      assert LiveUnread(c) + c.cache.toBeDelivered == LiveUnread(d) + d.cache.toBeDelivered;
      assert Conserved(d) by { hide Balanced; }
      SwapPages(c);
      assert CacheEvents(d) == {} && AreaEvents(d) == CacheEvents(c);
      hide Conserved, Partition;
    }
  }

  lemma SwapPages(c: Channel)
    requires Partition(c)
    ensures Partition(Swapped(c))
  {
    var d := Swapped(c);
    if c.cache.toBeDelivered != [] {
      assert multiset(c.cache.free + c.area.used) == multiset(c.cache.free) + multiset(c.area.used);
      assert Pages(d) == Pages(c);
    }
  }

  lemma OneSettled(s: Settled)
    ensures Events([s]) == [s.event] && forall f :: WithFate([s], f) == if s.fate == f then [s.event] else []
  {
    assert [s][1..] == [];
  }

  lemma DispatchKeeps(c: Channel, handled: bool)
    requires LocalInv(c) && Enabled(c, Dispatch(handled))
    ensures LocalInv(Dispatched(c, handled))
  {
    var d, e := Dispatched(c, handled), c.area.toBeDelivered[0];
    var more := [Settled(e, true, if handled then Consumed else Returned)];
    var waiting := c.area.toBeDelivered[1..] + c.cache.toBeDelivered;
    OneSettled(more[0]);
    assert [e] + c.area.toBeDelivered[1..] == c.area.toBeDelivered;
    SeqAssoc([e], c.area.toBeDelivered[1..], c.cache.toBeDelivered);
    BalancedSettle(c.hist, more, waiting);
    assert Conserved(d) by { hide Balanced; }
    hide Conserved;
    assert Pages(d) == Pages(c) && CacheEvents(d) == CacheEvents(c) && AreaEvents(d) <= AreaEvents(c);
  }

  ghost predicate Reached(pageSize: nat, actions: seq<Action>, c: Channel)
    decreases |actions|
  {
    if actions == [] then c == NewChannel(pageSize)
    else
      var last := |actions| - 1;
      exists p :: Reached(pageSize, actions[..last], p) && Enabled(p, actions[last]) && c == Next(p, actions[last])
  }

  /**
   Over a node's life every event pushed to itself is waiting, being dispatched, consumed or returned, in push order,
   and neither a waiting event nor one being dispatched lies on a free page.
   */
  lemma {:induction false} LocalEventsAreSafe(pageSize: nat, actions: seq<Action>, c: Channel)
    requires Reached(pageSize, actions, c)
    ensures LocalInv(c) && c.hist.pushed == Events(c.hist.log) + c.area.toBeDelivered + c.cache.toBeDelivered
    ensures forall e :: e in c.area.toBeDelivered || e in c.cache.toBeDelivered ==> e.page !in c.cache.free
    decreases |actions|
  {
    if actions == [] {
      NewIsSound(pageSize);
    } else {
      var last := |actions| - 1;
      var p :| Reached(pageSize, actions[..last], p) && Enabled(p, actions[last]) && c == Next(p, actions[last]);
      LocalEventsAreSafe(pageSize, actions[..last], p);
      hide LocalInv;
      NextKeeps(p, actions[last]);
    }
    WhatSoundMeans(c);
  }

  lemma NextKeeps(c: Channel, a: Action)
    requires LocalInv(c) && Enabled(c, a)
    ensures LocalInv(Next(c, a))
  {
    match a
    case Pushing(size, constructed) =>
      PushIsSound(c, size, constructed);
      PushShape(c, size, constructed);
      hide Push, Sound;
    case Swap => SwapKeeps(c);
    case Dispatch(handled) => DispatchKeeps(c, handled);
  }

  lemma WhatSoundMeans(c: Channel)
    requires LocalInv(c)
    ensures c.hist.pushed == Events(c.hist.log) + c.area.toBeDelivered + c.cache.toBeDelivered
    ensures forall e :: e in c.area.toBeDelivered || e in c.cache.toBeDelivered ==> e.page !in c.cache.free
  {
    assert c.hist.pushed == Events(c.hist.log) + (c.area.toBeDelivered + c.cache.toBeDelivered);
    assert PageSafe(c) && LiveUnread(c) == c.area.toBeDelivered;
    hide PageSafe, Conserved;
    forall e | e in c.area.toBeDelivered || e in c.cache.toBeDelivered ensures e.page !in c.cache.free {
      NoEventOnAFreePage(c, e);
    }
  }
}
