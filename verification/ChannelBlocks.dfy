/**
 All the memory a writer takes between two hand-overs, also for events whose constructor threw and for what an
 event allocates for itself: none of these is an event of the cache, so the books of events do not cover them.
 */
module ChannelBlocks {
  import opened ChannelPayload
  import opened ChannelPages

  /** constructed: an event came of it. */
  datatype Allocation = Allocation(size: nat, constructed: bool)

  function After(c: Channel, allocations: seq<Allocation>): Channel {
    if allocations == [] then c
    else
      var last := |allocations| - 1;
      Push(After(c, allocations[..last]), allocations[last].size, allocations[last].constructed)
  }

  /** Where one allocation lies, if it does not fail. */
  function Placing(c: Channel, size: nat): seq<Block> {
    match AllocateEvent(c.cache, c.pageSize, size)
    case None => []
    case Some(d) => if d.used == [] || d.offset < size then [] else [Block(d.used[0], d.offset - size, size)]
  }

  /** What a sequence of allocations got, oldest first. */
  function Blocks(c: Channel, allocations: seq<Allocation>): seq<Block> {
    if allocations == [] then []
    else
      var last := |allocations| - 1;
      Blocks(c, allocations[..last]) + Placing(After(c, allocations[..last]), allocations[last].size)
  }

  /** Blocks lie inside used pages, below the allocation offset on the front page, and share no byte. */
  ghost predicate Stacked(blocks: seq<Block>, c: Channel) {
    && (forall i :: 0 <= i < |blocks| ==>
          && c.cache.used != [] && blocks[i].page in c.cache.used && blocks[i].offset + blocks[i].size <= c.pageSize
          && (blocks[i].page == c.cache.used[0] ==> blocks[i].offset + blocks[i].size <= c.cache.offset))
    && (forall i, j :: 0 <= i < j < |blocks| ==> Disjoint(blocks[i], blocks[j]))
  }

  lemma AllocationStacks(blocks: seq<Block>, c: Channel, size: nat)
    requires Stacked(blocks, c) && AllocateEvent(c.cache, c.pageSize, size).Some?
    requires Partition(c)
    ensures |Placing(c, size)| == 1
    ensures Stacked(blocks + Placing(c, size), c.(cache := AllocateEvent(c.cache, c.pageSize, size).value))
  {
    RoomPages(c, size);
    hide Partition;
  }

  lemma PushStacks(blocks: seq<Block>, c: Channel, a: Allocation)
    requires Stacked(blocks, c) && Partition(c)
    ensures Stacked(blocks + Placing(c, a.size), Push(c, a.size, a.constructed))
    ensures Placing(c, a.size) == [] <==> AllocateEvent(c.cache, c.pageSize, a.size).None?
  {
    if AllocateEvent(c.cache, c.pageSize, a.size).None? {
      assert blocks + Placing(c, a.size) == blocks;
    } else {
      AllocationStacks(blocks, c, a.size);
      hide Partition;
    }
  }

  /** The events of the cache lie in what was allocated: those of before, or one block each. */
  ghost predicate Accounted(c: Channel, blocks: seq<Block>, d: Channel) {
    forall e :: e in d.cache.toBeDelivered ==> e in c.cache.toBeDelivered || At(e) in blocks
  }

  lemma PushAccounts(c: Channel, d: Channel, blocks: seq<Block>, a: Allocation)
    requires Accounted(c, blocks, d)
    ensures Accounted(c, blocks + Placing(d, a.size), Push(d, a.size, a.constructed))
  {
    var r := Push(d, a.size, a.constructed);
    if r.cache.toBeDelivered != d.cache.toBeDelivered {
      var e := r.cache.toBeDelivered[|d.cache.toBeDelivered|];
      assert Placing(d, a.size) == [At(e)];
    }
  }

  /**
   However many allocations a batch makes and whatever becomes of them, no two share a byte, all lie on the pages
   that leave with the next hand-over, and every event of the cache is one of them or was there before.
   */
  lemma {:induction false} AllocationsApart(c: Channel, allocations: seq<Allocation>)
    requires PageSafe(c)
    ensures PageSafe(After(c, allocations))
    ensures Stacked(Blocks(c, allocations), After(c, allocations))
    ensures Accounted(c, Blocks(c, allocations), After(c, allocations))
    decreases |allocations|
  {
    if allocations != [] {
      var last := |allocations| - 1;
      var p, blocks, a := After(c, allocations[..last]), Blocks(c, allocations[..last]), allocations[last];
      AllocationsApart(c, allocations[..last]);
      PushIsSafe(p, a.size, a.constructed);
      PushAccounts(c, p, blocks, a);
      PushStacks(blocks, p, a);
      hide Push, Placing, Stacked, Accounted;
    }
  }

  /** Nor does any of them share a byte with an event that was in the cache before. */
  lemma {:induction false} AllocationsSpareEvents(c: Channel, allocations: seq<Allocation>, e: Event)
    requires PageSafe(c) && e in c.cache.toBeDelivered
    ensures Stacked([At(e)] + Blocks(c, allocations), After(c, allocations))
    decreases |allocations|
  {
    if allocations == [] {
      assert Blocks(c, allocations) == [];
      assert [At(e)] + [] == [At(e)];
    } else {
      var last := |allocations| - 1;
      var p, blocks, a := After(c, allocations[..last]), Blocks(c, allocations[..last]), allocations[last];
      AllocationsSpareEvents(c, allocations[..last], e);
      AllocationsApart(c, allocations[..last]);
      PushStacks([At(e)] + blocks, p, a);
      assert [At(e)] + blocks + Placing(p, a.size) == [At(e)] + (blocks + Placing(p, a.size));
      hide Push, Placing, Stacked, Accounted;
    }
  }
}
