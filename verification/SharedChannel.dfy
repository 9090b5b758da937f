/** The shared structure of a channel as the object its reader and writer handles update in place. */
module SharedChannel {
  import opened Wrappers
  import opened ChannelPayload
  import opened ChannelPages
  import opened ChannelCalls

  lemma {:induction false} KeptAppend(s: seq<Event>, v: seq<bool>, e: Event, kept: bool)
    requires |s| == |v|
    ensures Kept(s + [e], v + [kept]) == Kept(s, v) + if kept then [e] else []
    ensures Refused(s + [e], v + [kept]) == Refused(s, v) + if kept then [] else [e]
  {
    var t, w := s + [e], v + [kept];
    if s == [] {
      assert t[1..] == [] && w[1..] == [];
    } else {
      assert t[0] == s[0] && w[0] == v[0] && t[1..] == s[1..] + [e] && w[1..] == v[1..] + [kept];
      KeptAppend(s[1..], v[1..], e, kept);
      SeqAssoc(if v[0] then [s[0]] else [], Kept(s[1..], v[1..]), if kept then [e] else []);
      SeqAssoc(if v[0] then [] else [s[0]], Refused(s[1..], v[1..]), if kept then [] else [e]);
    }
  }

  lemma KeptSnoc(s: seq<Event>, v: seq<bool>, k: nat)
    requires |s| == |v| && k < |s|
    ensures Kept(s[..k + 1], v[..k + 1]) == Kept(s[..k], v[..k]) + if v[k] then [s[k]] else []
    ensures Refused(s[..k + 1], v[..k + 1]) == Refused(s[..k], v[..k]) + if v[k] then [] else [s[k]]
  {
    assert s[..k + 1] == s[..k] + [s[k]] && v[..k + 1] == v[..k] + [v[k]];
    KeptAppend(s[..k], v[..k], s[k], v[k]);
    hide Kept, Refused;
  }

  /** One turn of the reader's loop: what the chain becomes when the event at i stays, and when it is erased. */
  lemma EraseAt(kept: seq<Event>, s: seq<Event>, k: nat, chain: seq<Event>)
    requires k < |s| && chain == kept + s[k..]
    ensures chain[|kept|] == s[k] && chain == (kept + [s[k]]) + s[k + 1..]
    ensures chain[..|kept|] + chain[|kept| + 1..] == kept + s[k + 1..]
  {
  }

  /** Whatever history led to this area and this cache. */
  lemma CallsOfWrite(pageSize: nat, a: Area, k: Cache)
    ensures forall h :: var before := Channel(pageSize, a, k, h);
              Conserved(before) && !h.stale ==> ReturnsTheRefused(before, a.undelivered)
  {
    hide Conserved, ReturnsTheRefused;
    forall h | Conserved(Channel(pageSize, a, k, h)) && !h.stale
      ensures ReturnsTheRefused(Channel(pageSize, a, k, h), a.undelivered) {
      WrittenCalls(Channel(pageSize, a, k, h));
    }
  }

  lemma CallsOfFailedWrite(pageSize: nat, a: Area, k: Cache)
    ensures forall h :: var before := Channel(pageSize, a, k, h);
              Conserved(before) && !h.stale ==> ReturnsTheRest(before, FailedReturns(a, k))
  {
    hide Conserved, ReturnsTheRest;
    forall h | Conserved(Channel(pageSize, a, k, h)) && !h.stale
      ensures ReturnsTheRest(Channel(pageSize, a, k, h), FailedReturns(a, k)) {
      FailedCalls(Channel(pageSize, a, k, h));
    }
  }

  class Shared {
    const pageSize: nat

    // readWriteLocked
    var delivered: bool
    var check: bool
    var toBeDelivered: seq<Event>
    var undelivered: seq<Event>
    var handedOver: seq<nat>

    // writeCache
    var cacheCheck: bool
    var batchIncrement: nat
    var batchId: nat
    var cache: seq<Event>
    var offset: nat
    var used: seq<nat>
    var free: seq<nat>
    var nextPage: nat

    ghost function AreaOf(): Area
      reads this
    {
      Area(delivered, check, toBeDelivered, undelivered, handedOver)
    }

    ghost function CacheOf(): Cache
      reads this
    {
      Cache(cacheCheck, batchIncrement, batchId, cache, offset, used, free, nextPage)
    }

    constructor (pageSize: nat)
      ensures this.pageSize == pageSize && AreaOf() == Initial(pageSize).area && CacheOf() == Initial(pageSize).cache
    {
      this.pageSize := pageSize;
      delivered, check, toBeDelivered, undelivered, handedOver := false, false, [], [], [];
      cacheCheck, batchIncrement, batchId, cache, offset := false, 0, 0, [], 0;
      free, used, nextPage := [0], [1], 2;
    }

    /** newEventPage: a recycled page, else a new one; false when the page indices are used up. */
    method NewEventPage() returns (ok: bool)
      modifies this`used, this`free, this`nextPage, this`offset
      ensures ok <==> old(free) != [] || old(nextPage) < MAX_PAGE_INDEX
      ensures !ok ==> CacheOf() == old(CacheOf())
      ensures ok && old(free) != [] ==>
                used == [old(free)[0]] + old(used) && free == old(free)[1..] && nextPage == old(nextPage) && offset == 0
      ensures ok && old(free) == [] ==>
                used == [old(nextPage)] + old(used) && free == [] && nextPage == old(nextPage) + 1 && offset == 0
    {
      if free == [] {
        if nextPage >= MAX_PAGE_INDEX {
          return false;
        }
        used := [nextPage] + used;
        nextPage := nextPage + 1;
      } else {
        used := [free[0]] + used;
        free := free[1..];
      }
      offset := 0;
      ok := true;
    }

    /** Place sz bytes in the front page, or in a new front page; None stands for std::bad_alloc. */
    method AllocateEvent(sz: nat) returns (place: Option<(nat, nat)>)
      modifies this`used, this`free, this`nextPage, this`offset
      ensures match ChannelPayload.AllocateEvent(old(CacheOf()), pageSize, sz)
              case None => place.None? && CacheOf() == old(CacheOf())
              case Some(d) => CacheOf() == d && used != [] && sz <= offset && place == Some((used[0], offset - sz))
    {
      if used == [] || offset + sz > pageSize {
        if sz > pageSize {
          return None;
        }
        var ok := NewEventPage();
        if !ok {
          return None;
        }
      }
      place := Some((used[0], offset));
      offset := offset + sz;
    }

    /** Pipe::push: allocate, and enter the event once its constructor returned.  id names the new event. */
    method PushEvent(ghost before: Channel, id: nat, sz: nat, constructed: bool)
      requires before == Channel(pageSize, AreaOf(), CacheOf(), before.hist) && id == |before.hist.pushed|
      modifies this`used, this`free, this`nextPage, this`offset, this`cache
      ensures AreaOf() == Push(before, sz, constructed).area && CacheOf() == Push(before, sz, constructed).cache
    {
      var place := AllocateEvent(sz);
      if place.Some? && constructed {
        cache := cache + [Event(id, place.value.0, place.value.1, sz)];
      }
    }

    /**
     The reader's pass over the chain: a dispatched event stays, any other one is moved to the undelivered
     chain.  verdicts holds the outcomes of the dispatches.  notify: the reader must write to the writer, because
     the writer asked for its undelivered events, or because there are some now.
     */
    method ReadEvents(verdicts: seq<bool>) returns (notify: bool, refused: bool)
      requires |verdicts| == |toBeDelivered| && !delivered
      modifies this`delivered, this`toBeDelivered, this`undelivered
      ensures AreaOf() == ReadArea(old(AreaOf()), verdicts)
      ensures refused <==> Refused(old(toBeDelivered), verdicts) != []
      ensures notify <==> check || refused
    {
      delivered := true;
      refused := DispatchChain(verdicts);
      notify := check || refused;
    }

    method DispatchChain(verdicts: seq<bool>) returns (refused: bool)
      requires |verdicts| == |toBeDelivered|
      modifies this`toBeDelivered, this`undelivered
      ensures toBeDelivered == Kept(old(toBeDelivered), verdicts)
      ensures undelivered == old(undelivered) + Refused(old(toBeDelivered), verdicts)
      ensures refused <==> Refused(old(toBeDelivered), verdicts) != []
    {
      refused := false;
      ghost var s, before := toBeDelivered, undelivered;
      ghost var kept: seq<Event>, moved: seq<Event> := [], [];
      var i, n := 0, |toBeDelivered|;
      for k := 0 to n
        invariant |s| == n && kept == Kept(s[..k], verdicts[..k]) && moved == Refused(s[..k], verdicts[..k])
        invariant toBeDelivered == kept + s[k..] && i == |kept|
        invariant undelivered == before + moved && (refused <==> moved != [])
      {
        KeptSnoc(s, verdicts, k);
        EraseAt(kept, s, k, toBeDelivered);
        if verdicts[k] {
          i := i + 1;
          kept := kept + [s[k]];
        } else {
          undelivered := undelivered + [toBeDelivered[i]];
          toBeDelivered := toBeDelivered[..i] + toBeDelivered[i + 1..];
          refused := true;
          moved := moved + [s[k]];
        }
      }
      assert s[..n] == s && verdicts[..n] == verdicts;
    }

    /** The calls made to the source actors for a chain, in chain order. */
    static method Dispatch(chain: seq<Event>) returns (calls: seq<Event>)
      ensures calls == chain
    {
      calls := [];
      for k := 0 to |chain|
        invariant calls == chain[..k]
      {
        calls := calls + [chain[k]];
      }
    }

    /** The hand-over.  calls: the events returned to their source actors. */
    method WriteEvents() returns (worthy: bool, calls: seq<Event>)
      modifies this
      ensures AreaOf() == WrittenArea(old(CacheOf())) && CacheOf() == WrittenCache(old(AreaOf()), old(CacheOf()))
      ensures worthy == (old(cacheCheck) || old(cache) != [])
      ensures calls == old(undelivered)
      ensures forall h :: var before := Channel(pageSize, old(AreaOf()), old(CacheOf()), h);
                Conserved(before) && !h.stale ==> ReturnsTheRefused(before, calls)
    {
      CallsOfWrite(pageSize, AreaOf(), CacheOf());
      hide ReturnsTheRefused, Conserved;
      calls := ClearArea();
      worthy := check;
      if cache != [] {
        worthy := true;
        SwapChains();
      }
    }

    /** The area as the writer takes it back: the notice, and nothing else; its pages are free. */
    method ClearArea() returns (calls: seq<Event>)
      modifies this`delivered, this`check, this`cacheCheck, this`undelivered, this`toBeDelivered, this`free,
               this`handedOver
      ensures AreaOf() == Area(false, old(cacheCheck), [], [], [])
      ensures cacheCheck == false && free == old(free) + old(handedOver) && calls == old(undelivered)
    {
      delivered := false;
      check := cacheCheck;
      cacheCheck := false;
      calls := Dispatch(undelivered);
      undelivered := [];
      toBeDelivered := [];
      free := free + handedOver;
      handedOver := [];
    }

    /** The cache becomes the content of the area; the cache goes on with a recycled page, if there is one. */
    method SwapChains()
      requires toBeDelivered == [] && handedOver == []
      modifies this`toBeDelivered, this`cache, this`handedOver, this`used, this`free, this`offset,
               this`batchId, this`batchIncrement
      ensures toBeDelivered == old(cache) && handedOver == old(used) && cache == [] && offset == 0
      ensures used == (if old(free) == [] then [] else [old(free)[0]])
      ensures free == (if old(free) == [] then [] else old(free)[1..])
      ensures CacheOf().batchId == HandedOver(old(CacheOf())).batchId
      ensures CacheOf().batchIncrement == HandedOver(old(CacheOf())).batchIncrement
    {
      if batchId != MAX_BATCH_ID {
        batchId := batchId + batchIncrement;
        batchIncrement := 0;
      }
      toBeDelivered, cache := cache, toBeDelivered;
      handedOver, used := used, handedOver;
      if free != [] {
        used := [free[0]] + used;
        free := free[1..];
      }
      offset := 0;
    }

    /** The reader is gone.  calls: the events returned to their source actors, the handed-over ones first. */
    method WriteFailedEvents() returns (calls: seq<Event>)
      requires CanFail(AreaOf(), CacheOf()) && (undelivered != [] ==> delivered)
      modifies this
      ensures AreaOf() == Area(false, false, [], [], []) && CacheOf() == FailedCache(old(AreaOf()), old(CacheOf()))
      ensures calls == FailedReturns(old(AreaOf()), old(CacheOf()))
      ensures forall h :: var before := Channel(pageSize, old(AreaOf()), old(CacheOf()), h);
                Conserved(before) && !h.stale ==> ReturnsTheRest(before, calls)
    {
      CallsOfFailedWrite(pageSize, AreaOf(), CacheOf());
      hide ReturnsTheRest, Conserved;
      calls := ReturnAll();
      RecyclePages();
    }

    method ReturnAll() returns (calls: seq<Event>)
      requires undelivered != [] ==> delivered
      modifies this`check, this`cacheCheck, this`delivered, this`toBeDelivered, this`undelivered, this`cache
      ensures !check && !cacheCheck && !delivered && toBeDelivered == [] && undelivered == [] && cache == []
      ensures calls == FailedReturns(old(AreaOf()), old(CacheOf()))
    {
      check, cacheCheck := false, false;
      calls := ReturnArea();
      var more := Dispatch(cache);
      calls := calls + more;
      cache := [];
    }

    method RecyclePages()
      requires CanFail(AreaOf(), CacheOf())
      modifies this`handedOver, this`used, this`free, this`offset
      ensures handedOver == [] && offset == 0
      ensures |used| == 1 && used + free == old(free) + old(handedOver) + old(used)
    {
      free := free + handedOver;
      handedOver := [];
      free := free + used;
      used := [free[0]];
      free := free[1..];
      offset := 0;
    }

    /** The undelivered events of an area that was read, or all events of one that was not. */
    method ReturnArea() returns (calls: seq<Event>)
      requires undelivered != [] ==> delivered
      modifies this`delivered, this`toBeDelivered, this`undelivered
      ensures !delivered && toBeDelivered == [] && undelivered == []
      ensures calls == if old(delivered) then old(undelivered) else old(toBeDelivered)
    {
      if delivered {
        delivered := false;
        calls := Dispatch(undelivered);
        undelivered := [];
        toBeDelivered := [];
      } else {
        calls := Dispatch(toBeDelivered);
        toBeDelivered := [];
      }
    }
  }
}
