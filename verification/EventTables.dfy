/**
 The event tables of one node.  A table is handed to one actor after the other; an address names a table and the
 actor id the table had when the address was made.
 */
module EventTables {
  import opened Wrappers
  import H = Handlers

  const WORD: nat := 0x1_0000_0000_0000_0000

  type ActorName = nat

  datatype Slot = Slot(nodeActorId: nat, actor: Option<ActorName>, handlers: H.State)

  datatype Address = Address(id: nat, slot: nat)

  /** free: the released tables, last released first; issued: history, who each id was given to. */
  datatype Node = Node(slots: seq<Slot>, free: seq<nat>, nextId: nat, stopping: bool, fastSlots: nat,
                       issued: map<nat, (ActorName, nat)>)

  datatype Op =
    | Stop
    | Retain(actor: ActorName, memory: bool)
    | Release(slot: nat)
    | Handle(slot: nat, op: H.Op)  // the actor of the table registers or unregisters a handler

  datatype Outcome = Done | Shutdown | OutOfMemory

  predicate Enabled(n: Node, op: Op) {
    match op
    case Release(k) => k < |n.slots| && n.slots[k].actor.Some?
    case Handle(k, o) => k < |n.slots| && n.slots[k].actor.Some? && H.InRange(o)
    case _ => true
  }

  function Result(n: Node, op: Op): Outcome {
    if op.Retain? then
      if n.stopping then Shutdown
      else if n.nextId == 0 || (n.free == [] && !op.memory) then OutOfMemory
      else Done
    else Done
  }

  /** A new occupant: the fast slots, still those of the previous one, are marked free. */
  function Occupied(s: Slot, id: nat, actor: ActorName): Slot {
    Slot(id, Some(actor), s.handlers.(table := s.handlers.table.(fast := H.FreeSlots(s.handlers.table.fast))))
  }

  /** The arrays are given back; the fast slots stay as they are. */
  function Vacated(s: Slot): Slot {
    Slot(0, None, H.State(H.Table(s.handlers.table.fast, [], [], 0), false, false))
  }

  function NewSlot(fastSlots: nat): Slot {
    Slot(0, None, H.State(H.Table(seq(fastSlots, i => H.Entry(H.NO_EVENT, None)), [], [], 0), false, false))
  }

  /** The table the next occupant gets. */
  function NextSlot(n: Node): nat {
    if n.free == [] then |n.slots| else n.free[0]
  }

  function Next(n: Node, op: Op): Node
    requires Enabled(n, op)
  {
    if !Result(n, op).Done? then n
    else
      match op
      case Stop => n.(stopping := true)
      case Retain(actor, _) =>
        var slots := if n.free == [] then n.slots + [NewSlot(n.fastSlots)] else n.slots;
        var k := NextSlot(n);
        if k < |slots| then
          n.(slots := slots[k := Occupied(slots[k], n.nextId, actor)], free := if n.free == [] then [] else n.free[1..],
             nextId := (n.nextId + 1) % WORD, issued := n.issued[n.nextId := (actor, k)])
        else n
      case Release(k) => n.(slots := n.slots[k := Vacated(n.slots[k])], free := [k] + n.free)
      case Handle(k, o) => n.(slots := n.slots[k := n.slots[k].(handlers := H.Next(n.slots[k].handlers, o))])
  }

  /** Who an event or a local reference to this address reaches. */
  function Reached(n: Node, a: Address): Option<ActorName> {
    if a.id == 0 || a.slot >= |n.slots| || a.id != n.slots[a.slot].nodeActorId then None else n.slots[a.slot].actor
  }

  // ---------- the invariant ----------

  ghost predicate SlotOk(n: Node, k: nat)
    requires k < |n.slots|
  {
    var s := n.slots[k];
    && (s.nodeActorId == 0 <==> s.actor.None?)
    && (s.actor.Some? ==> s.nodeActorId in n.issued && n.issued[s.nodeActorId] == (s.actor.value, k))
    && (s.actor.None? ==>
          && s.handlers.table.slow == [] && s.handlers.table.undelivered == [] && s.handlers.table.count == 0
          && !s.handlers.hasSlow && !s.handlers.hasUndelivered)
    && (s.actor.None? <==> k in n.free)
  }

  ghost predicate Inv(n: Node) {
    && n.nextId < WORD && !(0 in n.issued)
    && (forall id {:trigger id in n.issued} :: id in n.issued ==> n.nextId == 0 || id < n.nextId)
    && (forall i, j :: 0 <= i < j < |n.free| ==> n.free[i] != n.free[j])
    && (forall i :: 0 <= i < |n.free| ==> n.free[i] < |n.slots|)
    && (forall k {:trigger n.slots[k]} :: 0 <= k < |n.slots| ==> SlotOk(n, k))
  }

  /** A node begins without tables; the first actor id is 1. */
  lemma NewNodeIsSound(fastSlots: nat)
    ensures Inv(Node([], [], 1, false, fastSlots, map[]))
  {
  }

  lemma RetainKeeps(n: Node, actor: ActorName, memory: bool)
    requires Inv(n)
    ensures Inv(Next(n, Retain(actor, memory)))
  {
    var op := Retain(actor, memory);
    if Result(n, op).Done? {
      var m, k := Next(n, op), NextSlot(n);
      if n.free != [] {
        assert n.free[0] in n.free;
      }
      NextIdFits(n.nextId);
      forall j | 0 <= j < |m.slots| ensures SlotOk(m, j) {
        if j != k {
          assert m.slots[j] == n.slots[j] && SlotOk(n, j);
          assert n.free != [] ==> n.free == [k] + m.free;
        } else {
          assert n.free != [] ==> SlotOk(n, k) && forall i :: 0 <= i < |m.free| ==> m.free[i] != k;
        }
      }
    }
  }

  lemma NextIdFits(id: nat)
    requires id < WORD
    ensures (id + 1) % WORD == if id + 1 == WORD then 0 else id + 1
  {
  }

  lemma ReleaseKeeps(n: Node, k: nat)
    requires Inv(n) && Enabled(n, Release(k))
    ensures Inv(Next(n, Release(k)))
  {
    var m := Next(n, Release(k));
    assert SlotOk(n, k);
    forall j | 0 <= j < |m.slots| ensures SlotOk(m, j) {
      if j != k {
        assert SlotOk(n, j);
      }
    }
  }

  lemma HandleKeeps(n: Node, k: nat, o: H.Op)
    requires Inv(n) && Enabled(n, Handle(k, o))
    ensures Inv(Next(n, Handle(k, o)))
  {
    var m := Next(n, Handle(k, o));
    forall j | 0 <= j < |m.slots| ensures SlotOk(m, j) {
      assert SlotOk(n, j);
    }
  }

  lemma StepKeeps(n: Node, op: Op)
    requires Inv(n) && Enabled(n, op)
    ensures Inv(Next(n, op)) && forall id :: id in n.issued ==>
            id in Next(n, op).issued && Next(n, op).issued[id] == n.issued[id]
  {
    match op
    case Retain(actor, memory) => RetainKeeps(n, actor, memory);
    case Release(k) => ReleaseKeeps(n, k);
    case Handle(k, o) => HandleKeeps(n, k, o);
    case Stop =>
      var m := Next(n, op);
      forall j | 0 <= j < |m.slots| ensures SlotOk(m, j) {
        assert SlotOk(n, j);
      }
  }

  predicate Vacant(n: Node, k: nat) {
    k < |n.slots| && n.slots[k].actor.None?
  }

  /**
   When an actor gets a table: iff the node is not stopping, has an id left, and some table is vacant or memory is to
   be had.  It then gets a vacant one, of those the one released last, or a new one iff none is vacant; every other
   table stays as it is.
   */
  lemma RetainSucceedsIff(n: Node, actor: ActorName, memory: bool)
    requires Inv(n)
    ensures var op := Retain(actor, memory);
            var r, m := Result(n, op), Next(n, op);
            && (r.Done? <==> !n.stopping && n.nextId != 0 && (memory || exists k :: Vacant(n, k)))
            && (r.Shutdown? <==> n.stopping)
            && (!r.Done? ==> m == n)
            && (r.Done? ==> exists k {:trigger GetsTable(n, m, k, actor)} :: GetsTable(n, m, k, actor))
  {
    var op := Retain(actor, memory);
    var m, k := Next(n, op), NextSlot(n);
    if n.free != [] {
      assert n.free[0] in n.free && SlotOk(n, k);
      assert Vacant(n, k);
    }
    forall j | Vacant(n, j) ensures n.free != [] {
      assert SlotOk(n, j);
    }
    if Result(n, op).Done? {
      assert GetsTable(n, m, k, actor);
    }
  }

  /** Table k, vacant or new in n, is the actor's in m, and nobody else's table has changed. */
  ghost predicate GetsTable(n: Node, m: Node, k: nat, actor: ActorName) {
    && k < |m.slots| && m.slots[k].actor == Some(actor) && m.slots[k].nodeActorId == n.nextId
    && (k < |n.slots| ==> Vacant(n, k) && n.free == [k] + m.free && |m.slots| == |n.slots|)
    && (k >= |n.slots| ==> k == |n.slots| && |m.slots| == k + 1 && (forall j :: !Vacant(n, j)) && m.free == n.free)
    && (forall j :: 0 <= j < |n.slots| && j != k ==> m.slots[j] == n.slots[j])
  }

  function Retains(ops: seq<Op>): nat {
    if ops == [] then 0 else (if ops[0].Retain? then 1 else 0) + Retains(ops[1..])
  }

  /** A node that is not stopping serves every actor there is memory for until its ids run out. */
  lemma {:induction false} ServedUntilIdsRunOut(n: Node, ops: seq<Op>, actor: ActorName)
    requires Inv(n) && AllEnabled(n, ops) && !n.stopping && !(Stop in ops)
    requires 0 < n.nextId && n.nextId + Retains(ops) < WORD
    ensures Result(Run(n, ops), Retain(actor, true)).Done?
    decreases |ops|
  {
    if ops != [] {
      var m := Next(n, ops[0]);
      StepKeeps(n, ops[0]);
      assert ops[0] in ops && forall o :: o in ops[1..] ==> o in ops;
      assert m.nextId == n.nextId || m.nextId == n.nextId + 1 by {
        NextIdFits(n.nextId);
      }
      assert ops[0].Retain? || m.nextId == n.nextId;
      assert !m.stopping;
      hide Inv, Next;
      ServedUntilIdsRunOut(m, ops[1..], actor);
    }
  }

  predicate AllEnabled(n: Node, ops: seq<Op>)
    decreases |ops|
  {
    ops != [] ==> Enabled(n, ops[0]) && AllEnabled(Next(n, ops[0]), ops[1..])
  }

  function Run(n: Node, ops: seq<Op>): Node
    requires AllEnabled(n, ops)
    decreases |ops|
  {
    if ops == [] then n else Run(Next(n, ops[0]), ops[1..])
  }

  lemma {:induction false} RunKeeps(n: Node, ops: seq<Op>)
    requires Inv(n) && AllEnabled(n, ops)
    ensures var m := Run(n, ops);
            Inv(m) && forall id :: id in n.issued ==> id in m.issued && m.issued[id] == n.issued[id]
    decreases |ops|
  {
    if ops != [] {
      StepKeeps(n, ops[0]);
      hide Inv, Next;
      RunKeeps(Next(n, ops[0]), ops[1..]);
    }
  }

  /**
   An address made for an actor reaches that actor, or nobody, for the rest of the node's life, however often its
   table is recycled; and it reaches the actor exactly as long as the table still carries its id.
   */
  lemma AddressesNeverChangeHands(n: Node, k: nat, ops: seq<Op>)
    requires Inv(n) && k < |n.slots| && n.slots[k].actor.Some? && AllEnabled(n, ops)
    ensures var a, m := Address(n.slots[k].nodeActorId, k), Run(n, ops);
            && Reached(n, a) == n.slots[k].actor
            && (Reached(m, a) == Reached(n, a) || Reached(m, a) == None)
            && (Reached(m, a).Some? <==> k < |m.slots| && m.slots[k].nodeActorId == a.id)
  {
    var a, m := Address(n.slots[k].nodeActorId, k), Run(n, ops);
    assert SlotOk(n, k);
    RunKeeps(n, ops);
    if k < |m.slots| && m.slots[k].nodeActorId == a.id {
      assert SlotOk(m, k);
    }
  }

  /** The new occupant of a table, recycled or not, starts without any handler of the previous one. */
  lemma RecycledTableIsFresh(n: Node, actor: ActorName, memory: bool, e: nat)
    requires Inv(n) && Result(n, Retain(actor, memory)).Done? && e < H.NO_EVENT
    ensures var m, k := Next(n, Retain(actor, memory)), NextSlot(n);
            && k < |m.slots| && m.slots[k].actor == Some(actor) && H.Fresh(m.slots[k].handlers)
            && H.Find(m.slots[k].handlers.table, e) == None &&
                H.Lookup(m.slots[k].handlers.table.undelivered, e) == None
  {
    var m, k := Next(n, Retain(actor, memory)), NextSlot(n);
    if n.free != [] {
      assert n.free[0] in n.free && SlotOk(n, k);
    }
    var fast := m.slots[k].handlers.table.fast;
    assert forall i :: 0 <= i < |fast| ==> fast[i].event == H.NO_EVENT;
  }

  /** An id is given out once: no two tables carry the same one, and a fresh one was never carried before. */
  lemma IdsAreUnique(n: Node, j: nat, k: nat)
    requires Inv(n) && j < |n.slots| && k < |n.slots| && n.slots[j].nodeActorId == n.slots[k].nodeActorId != 0
    ensures j == k && (n.nextId != 0 ==> n.nextId !in n.issued)
  {
    assert SlotOk(n, j) && SlotOk(n, k);
  }

  class TableStore {
    var slots: seq<Slot>
    var free: seq<nat>
    var nextId: nat
    var stopping: bool
    const fastSlots: nat
    ghost var issued: map<nat, (ActorName, nat)>

    ghost function View(): Node
      reads this
    {
      Node(slots, free, nextId, stopping, fastSlots, issued)
    }

    /** retainEventTable; table: the one the actor gets. */
    method RetainEventTable(actor: ActorName, memory: bool) returns (r: Outcome, table: nat)
      requires Inv(View())
      modifies this
      ensures r == Result(old(View()), Retain(actor, memory)) &&
              View() == Next(old(View()), Retain(actor, memory)) && Inv(View())
      ensures r == if old(stopping) then Shutdown
                   else if old(nextId) == 0 || (old(free) == [] && !memory) then OutOfMemory else Done
      ensures !r.Done? ==> View() == old(View())
      ensures r.Done? ==>
              && table == (if old(free) == [] then |old(slots)| else old(free)[0]) && table < |slots|
              && slots[table].actor == Some(actor) && slots[table].nodeActorId == old(nextId)
              && free == (if old(free) == [] then [] else old(free)[1..])
              && forall j :: 0 <= j < |old(slots)| && j != table ==> slots[j] == old(slots)[j]
    {
      RetainKeeps(View(), actor, memory);
      table := 0;
      if stopping {
        return Shutdown, table;
      }
      if nextId == 0 {
        return OutOfMemory, table;
      }
      if free == [] {
        if !memory {
          return OutOfMemory, table;
        }
        table := |slots|;
        slots := slots + [NewSlot(fastSlots)];
      } else {
        table := free[0];
        free := free[1..];
      }
      var h := slots[table].handlers;
      var fast := FreedSlots(h.table.fast);
      slots := slots[table := Slot(nextId, Some(actor), h.(table := h.table.(fast := fast)))];
      issued := issued[nextId := (actor, table)];
      nextId := (nextId + 1) % WORD;
      r := Done;
    }

    method FreedSlots(was: seq<H.Entry>) returns (fast: seq<H.Entry>)
      ensures fast == H.FreeSlots(was)
    {
      fast := was;
      for i := 0 to |was|
        invariant |fast| == |was| && forall j :: 0 <= j < |was| ==>
                  fast[j] == if j < i then was[j].(event := H.NO_EVENT) else was[j]
      {
        fast := fast[i := fast[i].(event := H.NO_EVENT)];
      }
    }

    method ReleaseEventTable(k: nat)
      requires Inv(View()) && Enabled(View(), Release(k))
      modifies this
      ensures View() == Next(old(View()), Release(k)) && Inv(View())
      ensures free == [k] + old(free) && k < |slots| && slots[k].actor == None && slots[k].nodeActorId == 0
      ensures forall j :: 0 <= j < |old(slots)| && j != k ==> slots[j] == old(slots)[j]
    {
      ReleaseKeeps(View(), k);
      slots := slots[k := Slot(0, None, slots[k].handlers)];
      var fast := slots[k].handlers.table.fast;
      slots := slots[k := slots[k].(handlers := H.State(H.Table(fast, [], [], 0), false, false))];
      free := [k] + free;
    }
  }
}
