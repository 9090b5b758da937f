/** Event pages: who owns a page, and where the queued events lie. */
module ChannelPages {
  import opened ChannelPayload

  /** The constructor of the write cache allocates page 0 as a free page and page 1 as the used one. */
  function Initial(pageSize: nat): Channel {
    Channel(pageSize, Area(false, false, [], [], []), Cache(false, 0, 0, [], 0, [1], [0], 2), History([], [], [], true))
  }

  ghost function Pages(c: Channel): multiset<nat> {
    multiset(c.cache.used) + multiset(c.area.used) + multiset(c.cache.free)
  }

  /** Every page ever created is on exactly one of the used, handed-over and free chains. */
  ghost predicate Partition(c: Channel) {
    && (forall p: nat :: Pages(c)[p] == if p < c.cache.nextPage then 1 else 0)
    && 2 <= c.cache.nextPage
  }

  datatype Block = Block(page: nat, offset: nat, size: nat)

  /** Where an event lies. */
  function At(e: Event): Block {
    Block(e.page, e.offset, e.size)
  }

  predicate Disjoint(a: Block, b: Block) {
    a.page != b.page || a.offset + a.size <= b.offset || b.offset + b.size <= a.offset
  }

  ghost predicate Apart(e: Event, f: Event) {
    Disjoint(At(e), At(f))
  }

  /** The events occupy disjoint ranges, each inside one of the pages. */
  ghost predicate Placed(events: set<Event>, pages: seq<nat>, pageSize: nat) {
    && (forall e :: e in events ==> e.page in pages && e.offset + e.size <= pageSize)
    && (forall e, f :: e in events && f in events && e != f ==> Apart(e, f))
  }

  ghost function CacheEvents(c: Channel): set<Event> {
    set e | e in c.cache.toBeDelivered
  }

  ghost function AreaEvents(c: Channel): set<Event> {
    (set e | e in c.area.toBeDelivered) + (set e | e in c.area.undelivered)
  }

  /** Events already in the cache end below the allocation offset of the front page. */
  ghost predicate BelowOffset(c: Cache) {
    && c.used != []
    && forall e :: e in c.toBeDelivered && e.page == c.used[0] ==> e.offset + e.size <= c.offset
  }

  ghost predicate PageSafe(c: Channel) {
    && Partition(c)
    && Placed(CacheEvents(c), c.cache.used, c.pageSize)
    && Placed(AreaEvents(c), c.area.used, c.pageSize)
    && (c.cache.toBeDelivered != [] ==> BelowOffset(c.cache))
  }

  /** The failed-write path finds a free page to go on with: the assertion before it takes one. */
  lemma PagesRemain(c: Channel)
    requires Partition(c)
    ensures CanFail(c.area, c.cache)
  {
    assert Pages(c)[0] == 1;
  }

  lemma HeadSplit(s: seq<nat>)
    requires s != []
    ensures multiset([s[0]]) + multiset(s[1..]) == multiset(s)
  {
    assert s == [s[0]] + s[1..];
  }

  lemma RoomPages(c: Channel, sz: nat)
    requires Partition(c) && WithRoom(c.cache, c.pageSize, sz).Some?
    ensures var d := WithRoom(c.cache, c.pageSize, sz).value;
            && Partition(c.(cache := d))
            && (d.used == c.cache.used || (d.used[1..] == c.cache.used && d.used[0] !in d.used[1..]))
  {
    var d := WithRoom(c.cache, c.pageSize, sz).value;
    if d.used != c.cache.used {
      var p, r := d.used[0], c.(cache := d);
      assert d.used[1..] == c.cache.used;
      HeadSplit(d.used);
      assert Pages(c)[p] == if p < c.cache.nextPage then 1 else 0;
      if c.cache.free != [] {
        HeadSplit(c.cache.free);
        assert Pages(r) == Pages(c);
      } else {
        assert Pages(r) == Pages(c) + multiset([p]);
      }
    }
  }

  lemma RoomIsSafe(c: Channel, sz: nat)
    requires PageSafe(c) && WithRoom(c.cache, c.pageSize, sz).Some?
    ensures var d := WithRoom(c.cache, c.pageSize, sz).value;
            && PageSafe(c.(cache := d)) && BelowOffset(d) && d.offset + sz <= c.pageSize
            && d.toBeDelivered == c.cache.toBeDelivered
  {
    var d := WithRoom(c.cache, c.pageSize, sz).value;
    RoomPages(c, sz);
    assert CacheEvents(c.(cache := d)) == CacheEvents(c) && AreaEvents(c.(cache := d)) == AreaEvents(c);
    assert forall p :: p in c.cache.used ==> p in d.used;
  }

  /** A new allocation lies on the front page, apart from everything allocated there for queued events. */
  lemma {:induction false} PushIsSafe(c: Channel, sz: nat, constructed: bool)
    requires PageSafe(c)
    ensures PageSafe(Push(c, sz, constructed))
  {
    if WithRoom(c.cache, c.pageSize, sz).Some? {
      var d, r := WithRoom(c.cache, c.pageSize, sz).value, Push(c, sz, constructed);
      RoomIsSafe(c, sz);
      PushIsRoomAnd(c, sz, constructed);
      hide Push, WithRoom;
      var m := c.(cache := d);
      SamePages(m, r);
      if constructed {
        hide PageSafe, Placed, BelowOffset;
        AddEventIsSafe(m, r.cache.toBeDelivered[|d.toBeDelivered|], r);
        StaysPlaced(m, r);
      } else {
        assert CacheEvents(r) == CacheEvents(m) && AreaEvents(r) == AreaEvents(m);
      }
    }
  }

  lemma SamePages(c: Channel, d: Channel)
    requires Partition(c) && d.area.used == c.area.used && d.cache.used == c.cache.used
    requires d.cache.free == c.cache.free && d.cache.nextPage == c.cache.nextPage
    ensures Partition(d)
  {
    assert Pages(d) == Pages(c);
  }

  /** Both parts of the books together. */
  lemma StaysPlaced(c: Channel, d: Channel)
    requires PageSafe(c) && Partition(d) && d.area == c.area && d.pageSize == c.pageSize
    requires Placed(CacheEvents(d), d.cache.used, d.pageSize) && BelowOffset(d.cache)
    ensures PageSafe(d)
  {
    assert AreaEvents(d) == AreaEvents(c);
    hide Placed, Partition, BelowOffset;
  }

  /** A push makes room, and puts what it constructs at the offset of the front page. */
  lemma PushIsRoomAnd(c: Channel, sz: nat, constructed: bool)
    requires WithRoom(c.cache, c.pageSize, sz).Some? && WithRoom(c.cache, c.pageSize, sz).value.used != []
    ensures var d, r := WithRoom(c.cache, c.pageSize, sz).value, Push(c, sz, constructed);
            var e := Event(|c.hist.pushed|, d.used[0], d.offset, sz);
            && r.area == c.area && r.pageSize == c.pageSize
            && r.cache == d.(offset := d.offset + sz,
                             toBeDelivered := d.toBeDelivered + if constructed then [e] else [])
  {
  }

  lemma AddEventIsSafe(c: Channel, e: Event, r: Channel)
    requires PageSafe(c) && BelowOffset(c.cache) && e.page == c.cache.used[0] && e.offset == c.cache.offset
    requires e.offset + e.size <= c.pageSize == r.pageSize
    requires r.cache == c.cache.(offset := e.offset + e.size, toBeDelivered := c.cache.toBeDelivered + [e])
    ensures Placed(CacheEvents(r), r.cache.used, r.pageSize) && BelowOffset(r.cache)
  {
    assert CacheEvents(r) == CacheEvents(c) + {e};
  }

  lemma {:induction false} ReadKeepsEvents(s: seq<Event>, v: seq<bool>, e: Event)
    requires |s| == |v|
    ensures e in s <==> e in Kept(s, v) || e in Refused(s, v)
  {
    if s != [] {
      ReadKeepsEvents(s[1..], v[1..], e);
    }
  }

  lemma ReadIsSafe(c: Channel, v: seq<bool>)
    requires PageSafe(c) && |v| == |c.area.toBeDelivered|
    ensures PageSafe(Read(c, v))
  {
    var r := Read(c, v);
    forall e ensures e in AreaEvents(r) <==> e in AreaEvents(c) {
      ReadKeepsEvents(c.area.toBeDelivered, v, e);
    }
    assert AreaEvents(r) == AreaEvents(c);
    assert Pages(r) == Pages(c) && CacheEvents(r) == CacheEvents(c);
  }

  lemma WriteIsSafe(c: Channel)
    requires PageSafe(c)
    ensures PageSafe(Write(c))
  {
    var r := Write(c);
    WritePages(c);
    if c.cache.toBeDelivered == [] {
      assert CacheEvents(r) == CacheEvents(c) && AreaEvents(r) == {};
    } else {
      assert AreaEvents(r) == CacheEvents(c) && CacheEvents(r) == {};
    }
  }

  lemma WritePages(c: Channel)
    ensures Pages(Write(c)) == Pages(c)
  {
    var r, free := Write(c), c.cache.free + c.area.used;
    assert multiset(free) == multiset(c.cache.free) + multiset(c.area.used);
    if c.cache.toBeDelivered == [] {
      assert r.cache.free == free && r.cache.used == c.cache.used && r.area.used == [];
    } else if free == [] {
      assert r.cache.free == [] && r.cache.used == [] && r.area.used == c.cache.used;
    } else {
      HeadSplit(free);
      assert r.cache.used == [free[0]] && r.cache.free == free[1..] && r.area.used == c.cache.used;
    }
    assert Pages(r) == multiset(free) + multiset(c.cache.used);
  }

  lemma WriteFailedIsSafe(c: Channel)
    requires PageSafe(c)
    ensures CanFail(c.area, c.cache) && PageSafe(WriteFailed(c))
  {
    PagesRemain(c);
    var r, free := WriteFailed(c), c.cache.free + c.area.used + c.cache.used;
    assert free == (c.cache.free + c.area.used) + c.cache.used;
    assert multiset(free) == multiset(c.cache.free) + multiset(c.area.used) + multiset(c.cache.used) == Pages(c);
    HeadSplit(free);
    assert r.cache.used == [free[0]] && r.cache.free == free[1..] && r.area.used == [];
    assert Pages(r) == multiset([free[0]]) + multiset(free[1..]);
    assert Pages(r) == Pages(c);
  }

  /** No live event lies on a free page, and no page holds events of both sides. */
  lemma NoEventOnAFreePage(c: Channel, e: Event)
    requires PageSafe(c) && (e in CacheEvents(c) || e in AreaEvents(c))
    ensures e.page !in c.cache.free
    ensures e in CacheEvents(c) ==> e.page !in c.area.used
    ensures e in AreaEvents(c) ==> e.page !in c.cache.used
  {
    assert Pages(c)[e.page] <= 1;
  }

  /** What holds of a channel at every step: events are conserved and pages are safe. */
  ghost predicate Sound(c: Channel) {
    Conserved(c) && PageSafe(c)
  }

  lemma InitialIsSound(pageSize: nat)
    ensures Sound(Initial(pageSize))
  {
  }

  /** A writer node starts again with an empty cache: what its predecessor left in the area is not its own. */
  lemma RestartIsSound(c: Channel)
    requires Sound(c) && c.cache.toBeDelivered == []
    ensures Sound(Restarted(c))
  {
    var d := Restarted(c);
    assert Pages(d) == Pages(c) && AreaEvents(d) == AreaEvents(c) && CacheEvents(d) == CacheEvents(c);
  }

  lemma PushIsSound(c: Channel, sz: nat, constructed: bool)
    requires Sound(c)
    ensures Sound(Push(c, sz, constructed))
  {
    PushConserves(c, sz, constructed);
    PushIsSafe(c, sz, constructed);
  }

  lemma NotifyIsSound(c: Channel, check: bool)
    requires Sound(c)
    ensures Sound(c.(cache := c.cache.(check := check)))
  {
    var d := c.(cache := c.cache.(check := check));
    assert Pages(d) == Pages(c) && AreaEvents(d) == AreaEvents(c) && CacheEvents(d) == CacheEvents(c);
  }

  lemma ReadIsSound(c: Channel, v: seq<bool>)
    requires Sound(c) && |v| == |c.area.toBeDelivered| && !c.area.delivered
    ensures Sound(Read(c, v))
  {
    ReadConserves(c, v);
    ReadIsSafe(c, v);
  }

  lemma WriteIsSound(c: Channel)
    requires Sound(c) && LiveUnread(c) == []
    ensures Sound(Write(c))
  {
    WriteConserves(c);
    WriteIsSafe(c);
  }

  lemma WriteFailedIsSound(c: Channel)
    requires Sound(c)
    ensures Sound(WriteFailed(c))
  {
    WriteFailedConserves(c);
    WriteFailedIsSafe(c);
  }
}
