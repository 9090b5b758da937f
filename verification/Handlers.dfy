/**
 The event handlers of one actor, as a release build keeps them: a fixed number of fast slots, then an array that
 ends at a sentinel, grows by steps of STEP, and keeps a tombstone for every handler that was unregistered.  A
 second such array holds the handlers of undelivered events, with a counter beside it.
 */
module Handlers {
  import opened Wrappers

  /** MAX_EVENT_ID_COUNT: marks free slots and the end of an array. */
  const NO_EVENT: nat := 4096

  /** LOW_FREQUENCY_ARRAY_ALIGNEMENT */
  const STEP: nat := 5

  type Handler = nat

  /** A registered event; a tombstone has no handler any more. */
  datatype Entry = Entry(event: nat, handler: Option<Handler>)

  // ---------- a growing array, as the sequence in front of its sentinel ----------

  function IndexOf(s: seq<Entry>, e: nat): (i: nat)
    ensures i <= |s| && (i < |s| ==> s[i].event == e)
    ensures forall j :: 0 <= j < i ==> s[j].event != e
  {
    if s == [] then 0 else if s[0].event == e then 0 else 1 + IndexOf(s[1..], e)
  }

  function Lookup(s: seq<Entry>, e: nat): Option<Handler> {
    var i := IndexOf(s, e);
    if i < |s| then s[i].handler else None
  }

  function Put(s: seq<Entry>, e: nat, h: Handler): seq<Entry> {
    var i := IndexOf(s, e);
    if i < |s| then s[i := Entry(e, Some(h))] else s + [Entry(e, Some(h))]
  }

  function Bury(s: seq<Entry>, e: nat): seq<Entry> {
    var i := IndexOf(s, e);
    if i < |s| then s[i := Entry(e, None)] else s
  }

  function BuryAll(s: seq<Entry>): seq<Entry> {
    seq(|s|, i requires 0 <= i < |s| => Entry(s[i].event, None))
  }

  function Live(s: seq<Entry>): nat {
    if s == [] then 0 else (if s[0].handler.Some? then 1 else 0) + Live(s[1..])
  }

  /** The size computed from the content: whole steps, with room for the sentinel. */
  function Capacity(n: nat): nat {
    STEP * ((n + STEP) / STEP)
  }

  ghost predicate Good(s: seq<Entry>) {
    && (forall i :: 0 <= i < |s| ==> s[i].event < NO_EVENT)
    && (forall i, j :: 0 <= i < j < |s| ==> s[i].event != s[j].event)
  }

  /** The array grows exactly when the size computed from its content does: what is released is what was allocated. */
  lemma CapacityGrows(n: nat)
    ensures Capacity(n) >= n + 1
    ensures Capacity(n + 1) == if n + 1 == Capacity(n) then Capacity(n) + STEP else Capacity(n)
  {
  }

  lemma {:induction false} LiveUpdate(s: seq<Entry>, i: nat, x: Entry)
    requires i < |s|
    ensures Live(s[i := x]) + (if s[i].handler.Some? then 1 else 0) == Live(s) + if x.handler.Some? then 1 else 0
  {
    if i == 0 {
      assert s[i := x][1..] == s[1..];
    } else {
      assert s[i := x][1..] == s[1..][i - 1 := x];
      LiveUpdate(s[1..], i - 1, x);
    }
  }

  lemma {:induction false} LiveAppend(s: seq<Entry>, x: Entry)
    ensures Live(s + [x]) == Live(s) + if x.handler.Some? then 1 else 0
  {
    if s == [] {
      assert s + [x] == [x];
    } else {
      assert (s + [x])[1..] == s[1..] + [x];
      LiveAppend(s[1..], x);
    }
  }

  lemma {:induction false} LiveBuried(s: seq<Entry>)
    ensures Live(BuryAll(s)) == 0
  {
    if s != [] {
      assert BuryAll(s)[1..] == BuryAll(s[1..]);
      LiveBuried(s[1..]);
    }
  }

  lemma IndexUnique(s: seq<Entry>, e: nat, i: nat)
    requires Good(s) && i < |s| && s[i].event == e
    ensures IndexOf(s, e) == i
  {
  }

  lemma PutMeaning(s: seq<Entry>, e: nat, h: Handler)
    requires Good(s) && e < NO_EVENT
    ensures Good(Put(s, e, h)) && Lookup(Put(s, e, h), e) == Some(h)
    ensures forall f: nat :: f != e ==> Lookup(Put(s, e, h), f) == Lookup(s, f)
    ensures Live(Put(s, e, h)) == Live(s) + if Lookup(s, e).None? then 1 else 0
  {
    var i, t := IndexOf(s, e), Put(s, e, h);
    if i < |s| {
      LiveUpdate(s, i, Entry(e, Some(h)));
    } else {
      LiveAppend(s, Entry(e, Some(h)));
    }
    assert Good(t) && t[i].event == e;
    IndexUnique(t, e, i);
    SameElsewhere(s, t, e);
  }

  lemma SameElsewhere(s: seq<Entry>, t: seq<Entry>, e: nat)
    requires Good(s) && Good(t) && |s| <= |t|
    requires forall i :: 0 <= i < |s| ==> t[i] == s[i] || (t[i].event == e == s[i].event)
    requires forall i :: |s| <= i < |t| ==> t[i].event == e
    ensures forall f: nat :: f != e ==> Lookup(t, f) == Lookup(s, f)
  {
    forall f: nat | f != e ensures Lookup(t, f) == Lookup(s, f) {
      var i := IndexOf(s, f);
      if i < |s| {
        assert t[i] == s[i];
        IndexUnique(t, f, i);
      } else {
        assert forall j :: 0 <= j < |t| ==> t[j].event != f;
      }
    }
  }

  lemma BuryMeaning(s: seq<Entry>, e: nat)
    requires Good(s)
    ensures Good(Bury(s, e)) && Lookup(Bury(s, e), e) == None && |Bury(s, e)| == |s|
    ensures forall f: nat :: f != e ==> Lookup(Bury(s, e), f) == Lookup(s, f)
    ensures Live(Bury(s, e)) + (if Lookup(s, e).Some? then 1 else 0) == Live(s)
  {
    var i, t := IndexOf(s, e), Bury(s, e);
    if i < |s| {
      LiveUpdate(s, i, Entry(e, None));
      assert Good(t);
      IndexUnique(t, e, i);
    }
    SameElsewhere(s, t, e);
  }

  lemma BuryAllMeaning(s: seq<Entry>)
    requires Good(s)
    ensures Good(BuryAll(s)) && Live(BuryAll(s)) == 0
    ensures forall f: nat :: Lookup(BuryAll(s), f) == None
  {
    LiveBuried(s);
  }

  // ---------- the table of an actor ----------

  /**
   fast: the fixed slots, free ones marked NO_EVENT; count: undeliveredEventCount, below zero where the unsigned
   counter of the source has wrapped.
   */
  datatype Table = Table(fast: seq<Entry>, slow: seq<Entry>, undelivered: seq<Entry>, count: int)

  /** onEvent: the fast slots first. */
  function Find(t: Table, e: nat): Option<Handler> {
    var i := IndexOf(t.fast, e);
    if i < |t.fast| then t.fast[i].handler else Lookup(t.slow, e)
  }

  function InFast(t: Table, e: nat): bool {
    IndexOf(t.fast, e) < |t.fast|
  }

  /** The handler goes to a free fast slot, or, when there is none, to the slow array. */
  function WithHandler(t: Table, e: nat, h: Handler): Table {
    var i := IndexOf(t.fast, NO_EVENT);
    if i < |t.fast| then t.(fast := t.fast[i := Entry(e, Some(h))]) else t.(slow := Put(t.slow, e, h))
  }

  function WithoutHandler(t: Table, e: nat): Table {
    var i := IndexOf(t.fast, e);
    t.(fast := if i < |t.fast| then t.fast[i := t.fast[i].(event := NO_EVENT)] else t.fast, slow := Bury(t.slow, e))
  }

  function WithUndelivered(t: Table, e: nat, h: Handler): Table {
    t.(undelivered := Put(t.undelivered, e, h), count := t.count + if Lookup(t.undelivered, e).None? then 1 else 0)
  }

  /** One less for every entry found, tombstone or not: the release build does not look. */
  function WithoutUndelivered(t: Table, e: nat): Table {
    t.(undelivered := Bury(t.undelivered, e),
       count := t.count - if IndexOf(t.undelivered, e) < |t.undelivered| then 1 else 0)
  }

  function FreeSlots(s: seq<Entry>): seq<Entry> {
    seq(|s|, i requires 0 <= i < |s| => s[i].(event := NO_EVENT))
  }

  function WithoutAny(t: Table): Table {
    Table(FreeSlots(t.fast), BuryAll(t.slow), BuryAll(t.undelivered), 0)
  }

  ghost predicate FastOk(s: seq<Entry>) {
    && (forall i :: 0 <= i < |s| && s[i].event != NO_EVENT ==> s[i].event < NO_EVENT && s[i].handler.Some?)
    && (forall i, j :: 0 <= i < j < |s| && s[i].event != NO_EVENT ==> s[i].event != s[j].event)
  }

  /** No event has a handler both in a fast slot and in the slow array; the counter is left out on purpose. */
  ghost predicate Sound(t: Table) {
    && FastOk(t.fast) && Good(t.slow) && Good(t.undelivered)
    && forall e: nat :: e < NO_EVENT && InFast(t, e) ==> Lookup(t.slow, e) == None
  }

  lemma FastUnique(s: seq<Entry>, e: nat, i: nat)
    requires FastOk(s) && e < NO_EVENT && i < |s| && s[i].event == e
    ensures IndexOf(s, e) == i
  {
  }

  lemma FastElsewhere(s: seq<Entry>, i: nat, x: Entry, f: nat)
    requires i < |s| && FastOk(s) && FastOk(s[i := x]) && f < NO_EVENT && f != x.event && f != s[i].event
    ensures IndexOf(s[i := x], f) == IndexOf(s, f)
  {
    var t := s[i := x];
    var j := IndexOf(s, f);
    if j < |s| {
      assert t[j] == s[j];
      FastUnique(t, f, j);
    } else {
      assert forall k :: 0 <= k < |t| ==> t[k].event != f;
    }
  }

  /** A registration finds the event without handler; after it the event has this one and no other event changes. */
  lemma RegisteredMeaning(t: Table, e: nat, h: Handler)
    requires Sound(t) && e < NO_EVENT && Find(t, e).None?
    ensures Sound(WithHandler(t, e, h)) && Find(WithHandler(t, e, h), e) == Some(h)
    ensures forall f: nat :: f < NO_EVENT && f != e ==> Find(WithHandler(t, e, h), f) == Find(t, f)
  {
    assert !InFast(t, e);
    if IndexOf(t.fast, NO_EVENT) < |t.fast| {
      InFreeSlot(t.fast, e, h);
      hide Good, FastOk, IndexOf;
    } else {
      PutMeaning(t.slow, e, h);
      hide Good, FastOk, IndexOf;
    }
  }

  lemma InFreeSlot(s: seq<Entry>, e: nat, h: Handler)
    requires FastOk(s) && e < NO_EVENT && IndexOf(s, e) == |s| && IndexOf(s, NO_EVENT) < |s|
    ensures var i := IndexOf(s, NO_EVENT); var t := s[i := Entry(e, Some(h))];
            FastOk(t) && IndexOf(t, e) == i && forall f: nat :: f < NO_EVENT && f != e ==>
                IndexOf(t, f) == IndexOf(s, f)
  {
    var i := IndexOf(s, NO_EVENT);
    var t := s[i := Entry(e, Some(h))];
    assert FastOk(t);
    FastUnique(t, e, i);
    forall f: nat | f < NO_EVENT && f != e ensures IndexOf(t, f) == IndexOf(s, f) {
      FastElsewhere(s, i, Entry(e, Some(h)), f);
    }
  }

  lemma UnregisteredMeaning(t: Table, e: nat)
    requires Sound(t) && e < NO_EVENT
    ensures Sound(WithoutHandler(t, e)) && Find(WithoutHandler(t, e), e) == None
    ensures forall f: nat :: f < NO_EVENT && f != e ==> Find(WithoutHandler(t, e), f) == Find(t, f)
  {
    var i, u := IndexOf(t.fast, e), WithoutHandler(t, e);
    BuryMeaning(t.slow, e);
    if i < |t.fast| {
      assert FastOk(u.fast);
      forall f: nat | f < NO_EVENT && f != e ensures IndexOf(u.fast, f) == IndexOf(t.fast, f) {
        FastElsewhere(t.fast, i, t.fast[i].(event := NO_EVENT), f);
      }
      forall k | 0 <= k < |u.fast| ensures u.fast[k].event != e {
        assert k != i ==> t.fast[k].event != e;
      }
    }
  }

  lemma NoneMeaning(t: Table)
    requires Sound(t)
    ensures Sound(WithoutAny(t)) && Live(WithoutAny(t).undelivered) == 0
    ensures forall e: nat :: e < NO_EVENT ==>
            Find(WithoutAny(t), e) == None && Lookup(WithoutAny(t).undelivered, e) == None
  {
    BuryAllMeaning(t.slow);
    BuryAllMeaning(t.undelivered);
  }

  lemma UndeliveredMeaning(t: Table, e: nat, h: Handler)
    requires Sound(t) && e < NO_EVENT
    ensures Sound(WithUndelivered(t, e, h)) && Sound(WithoutUndelivered(t, e))
    ensures forall f: nat :: Find(WithUndelivered(t, e, h), f) == Find(t, f) == Find(WithoutUndelivered(t, e), f)
    ensures Lookup(WithUndelivered(t, e, h).undelivered, e) == Some(h)
    ensures Lookup(WithoutUndelivered(t, e).undelivered, e) == None
    ensures forall f: nat :: f != e ==> Lookup(WithUndelivered(t, e, h).undelivered, f) == Lookup(t.undelivered, f)
    ensures forall f: nat :: f != e ==> Lookup(WithoutUndelivered(t, e).undelivered, f) == Lookup(t.undelivered, f)
  {
    PutMeaning(t.undelivered, e, h);
    BuryMeaning(t.undelivered, e);
  }

  // ---------- whole lives, against a finite map ----------

  /** memory: whether an allocation, if the operation needs one, succeeds. */
  datatype Op =
    | Register(e: nat, h: Handler, memory: bool)
    | Unregister(e: nat)
    | RegisterUndelivered(e: nat, h: Handler, memory: bool)
    | UnregisterUndelivered(e: nat)
    | UnregisterAll

  datatype Outcome = Done | AlreadyRegistered | OutOfMemory

  /** Registering in an array needs memory for its first entries, and when the sentinel stands in its last place. */
  predicate Allocates(s: seq<Entry>, has: bool, e: nat) {
    !has || (IndexOf(s, e) == |s| && |s| + 1 == Capacity(|s|))
  }

  /** The two array pointers tell whether an array was ever allocated. */
  datatype State = State(table: Table, hasSlow: bool, hasUndelivered: bool)

  function Result(s: State, op: Op): Outcome {
    match op
    case Register(e, h, memory) =>
      if Find(s.table, e).Some? then AlreadyRegistered
      else if !memory && IndexOf(s.table.fast, NO_EVENT) == |s.table.fast| &&
          Allocates(s.table.slow, s.hasSlow, e) then OutOfMemory
      else Done
    case RegisterUndelivered(e, h, memory) =>
      if Lookup(s.table.undelivered, e).Some? then AlreadyRegistered
      else if !memory && Allocates(s.table.undelivered, s.hasUndelivered, e) then OutOfMemory
      else Done
    case _ => Done
  }

  function Next(s: State, op: Op): State {
    if !Result(s, op).Done? then s
    else
      match op
      case Register(e, h, _) =>
        State(WithHandler(s.table, e, h), s.hasSlow || IndexOf(s.table.fast, NO_EVENT) == |s.table.fast|,
            s.hasUndelivered)
      case Unregister(e) => s.(table := WithoutHandler(s.table, e))
      case RegisterUndelivered(e, h, _) => s.(table := WithUndelivered(s.table, e, h), hasUndelivered := true)
      case UnregisterUndelivered(e) => s.(table := WithoutUndelivered(s.table, e))
      case UnregisterAll => s.(table := WithoutAny(s.table))
  }

  /** The reference: two finite maps. */
  datatype Maps = Maps(handlers: map<nat, Handler>, undelivered: map<nat, Handler>)

  function MapsNext(m: Maps, op: Op, r: Outcome): Maps {
    if !r.Done? then m
    else
      match op
      case Register(e, h, _) => m.(handlers := m.handlers[e := h])
      case Unregister(e) => m.(handlers := m.handlers - {e})
      case RegisterUndelivered(e, h, _) => m.(undelivered := m.undelivered[e := h])
      case UnregisterUndelivered(e) => m.(undelivered := m.undelivered - {e})
      case UnregisterAll => Maps(map[], map[])
  }

  function Get(m: map<nat, Handler>, e: nat): Option<Handler> {
    if e in m then Some(m[e]) else None
  }

  ghost predicate Matches(s: State, m: Maps) {
    && Sound(s.table)
    && forall e: nat :: e < NO_EVENT ==>
        Find(s.table, e) == Get(m.handlers, e) && Lookup(s.table.undelivered, e) == Get(m.undelivered, e)
  }

  predicate InRange(op: Op) {
    match op
    case Register(e, _, _) => e < NO_EVENT
    case Unregister(e) => e < NO_EVENT
    case RegisterUndelivered(e, _, _) => e < NO_EVENT
    case UnregisterUndelivered(e) => e < NO_EVENT
    case UnregisterAll => true
  }

  /** Every operation does to the table what it does to the maps. */
  lemma StepMatches(s: State, m: Maps, op: Op)
    requires Matches(s, m) && InRange(op)
    ensures Matches(Next(s, op), MapsNext(m, op, Result(s, op)))
  {
    hide Sound, Find, Lookup;
    match op
    case Register(e, h, _) =>
      if Result(s, op).Done? {
        RegisteredMeaning(s.table, e, h);
      }
    case Unregister(e) => UnregisteredMeaning(s.table, e);
    case RegisterUndelivered(e, h, _) => UndeliveredMeaning(s.table, e, h);
    case UnregisterUndelivered(e) => UndeliveredMeaning(s.table, e, 0);
    case UnregisterAll => NoneMeaning(s.table);
  }

  /** Memory can be missed only for an array's first entries, or for the first entry of an event that fills it. */
  ghost predicate NeedsMemory(s: seq<Entry>, has: bool, e: nat) {
    has ==> (forall i :: 0 <= i < |s| ==> s[i].event != e) && (|s| + 1) % STEP == 0
  }

  /**
   How an operation comes out, told from the maps: a registration is refused iff the event has a handler, fails iff
   the memory it needs is not to be had, and succeeds otherwise; nothing else ever fails.
   */
  lemma OutcomesAreExact(s: State, m: Maps, op: Op)
    requires Matches(s, m) && InRange(op)
    ensures Result(s, op).AlreadyRegistered? <==>
            (op.Register? && op.e in m.handlers) || (op.RegisterUndelivered? && op.e in m.undelivered)
    ensures Result(s, op).OutOfMemory? <==>
            || (op.Register? && op.e !in m.handlers && !op.memory && NeedsMemory(s.table.slow, s.hasSlow, op.e)
                && forall i :: 0 <= i < |s.table.fast| ==> s.table.fast[i].event != NO_EVENT)
            || (op.RegisterUndelivered? && op.e !in m.undelivered && !op.memory
                && NeedsMemory(s.table.undelivered, s.hasUndelivered, op.e))
  {
    hide Sound, Find, Lookup;
    match op
    case Register(e, _, _) => AllocatesIff(s.table.slow, s.hasSlow, e);
    case RegisterUndelivered(e, _, _) => AllocatesIff(s.table.undelivered, s.hasUndelivered, e);
    case _ =>
  }

  lemma AllocatesIff(s: seq<Entry>, has: bool, e: nat)
    ensures Allocates(s, has, e) <==> NeedsMemory(s, has, e)
  {
    var i := IndexOf(s, e);
    if i == |s| {
      assert forall j :: 0 <= j < |s| ==> s[j].event != e;
    }
    assert Capacity(|s|) == |s| + 1 <==> (|s| + 1) % STEP == 0;
  }

  /** A table just taken into use. */
  ghost predicate Fresh(s: State) {
    && (forall i :: 0 <= i < |s.table.fast| ==> s.table.fast[i].event == NO_EVENT)
    && s.table.slow == [] && s.table.undelivered == [] && s.table.count == 0 && !s.hasSlow && !s.hasUndelivered
  }

  function Run(s: State, ops: seq<Op>): State
    decreases |ops|
  {
    if ops == [] then s else Run(Next(s, ops[0]), ops[1..])
  }

  function MapsRun(s: State, m: Maps, ops: seq<Op>): Maps
    decreases |ops|
  {
    if ops == [] then m else MapsRun(Next(s, ops[0]), MapsNext(m, ops[0], Result(s, ops[0])), ops[1..])
  }

  lemma {:induction false} RunMatches(s: State, m: Maps, ops: seq<Op>)
    requires Matches(s, m) && forall op :: op in ops ==> InRange(op)
    ensures Matches(Run(s, ops), MapsRun(s, m, ops))
    decreases |ops|
  {
    if ops != [] {
      assert ops[0] in ops && forall op :: op in ops[1..] ==> op in ops;
      StepMatches(s, m, ops[0]);
      hide Matches, Next, MapsNext, Result, InRange;
      RunMatches(Next(s, ops[0]), MapsNext(m, ops[0], Result(s, ops[0])), ops[1..]);
    }
  }

  /** Whatever is registered and unregistered, events are dispatched as by a finite map from event to handler. */
  lemma DispatchesLikeAMap(s: State, ops: seq<Op>, e: nat)
    requires Fresh(s) && (forall op :: op in ops ==> InRange(op)) && e < NO_EVENT
    ensures var t, m := Run(s, ops).table, MapsRun(s, Maps(map[], map[]), ops);
            Find(t, e) == Get(m.handlers, e) && Lookup(t.undelivered, e) == Get(m.undelivered, e)
  {
    RunMatches(s, Maps(map[], map[]), ops);
  }

  // ---------- the counter of undelivered handlers ----------

  predicate CountOk(t: Table) {
    t.count == Live(t.undelivered)
  }

  predicate Tombstone(s: seq<Entry>, e: nat) {
    IndexOf(s, e) < |s| && s[IndexOf(s, e)].handler.None?
  }

  /** The counter stays right through every operation but one: unregistering a handler that already was. */
  lemma CountRightIff(s: State, op: Op)
    requires Sound(s.table) && InRange(op) && CountOk(s.table)
    ensures CountOk(Next(s, op).table) <==> !(op.UnregisterUndelivered? && Tombstone(s.table.undelivered, op.e))
  {
    match op
    case RegisterUndelivered(e, h, _) => PutMeaning(s.table.undelivered, e, h);
    case UnregisterUndelivered(e) => BuryMeaning(s.table.undelivered, e);
    case UnregisterAll => BuryAllMeaning(s.table.undelivered);
    case _ =>
  }

  /** By how much the counter falls short of the handlers that are live. */
  function Shortfall(t: Table): int {
    Live(t.undelivered) - t.count
  }

  predicate BuriesAgain(s: State, op: Op) {
    op.UnregisterUndelivered? && Tombstone(s.table.undelivered, op.e)
  }

  /** How often a handler already unregistered is unregistered again since everything was unregistered at once. */
  function Repeats(s: State, ops: seq<Op>, n: nat): nat
    decreases |ops|
  {
    if ops == [] then n
    else
      Repeats(Next(s, ops[0]), ops[1..],
              if ops[0].UnregisterAll? then 0 else if BuriesAgain(s, ops[0]) then n + 1 else n)
  }

  lemma StepFallsShort(s: State, op: Op)
    requires Sound(s.table) && InRange(op)
    ensures Shortfall(Next(s, op).table) == if op.UnregisterAll? then 0
                                            else Shortfall(s.table) + if BuriesAgain(s, op) then 1 else 0
  {
    match op
    case RegisterUndelivered(e, h, _) => PutMeaning(s.table.undelivered, e, h);
    case UnregisterUndelivered(e) => BuryMeaning(s.table.undelivered, e);
    case UnregisterAll => BuryAllMeaning(s.table.undelivered);
    case _ =>
  }

  lemma {:induction false} RunFallsShort(s: State, m: Maps, ops: seq<Op>)
    requires Matches(s, m) && Shortfall(s.table) >= 0 && forall op :: op in ops ==> InRange(op)
    ensures Shortfall(Run(s, ops).table) == Repeats(s, ops, Shortfall(s.table))
    decreases |ops|
  {
    if ops != [] {
      assert ops[0] in ops && forall op :: op in ops[1..] ==> op in ops;
      StepMatches(s, m, ops[0]);
      StepFallsShort(s, ops[0]);
      hide Matches, Next, MapsNext, Result, InRange, Shortfall, BuriesAgain;
      RunFallsShort(Next(s, ops[0]), MapsNext(m, ops[0], Result(s, ops[0])), ops[1..]);
    }
  }

  /** Over a whole life the counter falls short by exactly that number, and is right exactly when it is zero. */
  lemma CounterFallsShortBy(s: State, ops: seq<Op>)
    requires Fresh(s) && forall op :: op in ops ==> InRange(op)
    ensures Shortfall(Run(s, ops).table) == Repeats(s, ops, 0)
    ensures CountOk(Run(s, ops).table) <==> Repeats(s, ops, 0) == 0
  {
    RunFallsShort(s, Maps(map[], map[]), ops);
  }

  /**
   Whatever table is taken into use: two handlers, one of them unregistered twice, and the counter says none is left,
   while the other still is.
   */
  lemma CountMayFallShort(s: State, e: nat, f: nat, h: Handler, k: Handler)
    requires Fresh(s) && e < NO_EVENT && f < NO_EVENT && e != f
    ensures var ops := [RegisterUndelivered(e, h, true), RegisterUndelivered(f, k, true),
                        UnregisterUndelivered(e), UnregisterUndelivered(e)];
            Run(s, ops).table.count == 0 && Lookup(Run(s, ops).table.undelivered, f) == Some(k)
  {
    var a, b, c := RegisterUndelivered(e, h, true), RegisterUndelivered(f, k, true), UnregisterUndelivered(e);
    var ops := [a, b, c, c];
    var s1 := Next(s, a);
    var s2 := Next(s1, b);
    var s3 := Next(s2, c);
    FirstOfTwo(s, e, h);
    SecondOfTwo(s1, e, f, h, k);
    BuriedTwice(s2, e, f, k);
    BuriedTwice(s3, e, f, k);
    hide Next, Fresh, Lookup, Find;
    assert ops[1..] == [b, c, c] && [b, c, c][1..] == [c, c] && [c, c][1..] == [c] && [c][1..] == [];
    assert Run(s, ops) == Run(s1, [b, c, c]) == Run(s2, [c, c]) == Run(s3, [c]) == Run(Next(s3, c), []);
  }

  lemma FirstOfTwo(s: State, e: nat, h: Handler)
    requires Fresh(s)
    ensures var t := Next(s, RegisterUndelivered(e, h, true)).table;
            t.undelivered == [Entry(e, Some(h))] && t.count == 1
  {
  }

  lemma SecondOfTwo(s: State, e: nat, f: nat, h: Handler, k: Handler)
    requires s.table.undelivered == [Entry(e, Some(h))] && s.table.count == 1 && e != f
    ensures var t := Next(s, RegisterUndelivered(f, k, true)).table;
            t.undelivered == [Entry(e, Some(h)), Entry(f, Some(k))] && t.count == 2
  {
    assert IndexOf(s.table.undelivered, f) == 1;
  }

  lemma BuriedTwice(s: State, e: nat, f: nat, k: Handler)
    requires |s.table.undelivered| == 2 && s.table.undelivered[0].event == e != f && s.table.count > 0
    requires s.table.undelivered[1] == Entry(f, Some(k))
    ensures var t := Next(s, UnregisterUndelivered(e)).table;
            && t.undelivered == [Entry(e, None), Entry(f, Some(k))] && t.count == s.table.count - 1
            && Lookup(t.undelivered, f) == Some(k)
  {
    assert IndexOf(s.table.undelivered, e) == 0;
  }

  // ---------- the array ----------

  class GrowingArray {
    var cells: array?<Entry>

    /** The allocated size is the one computed from the content. */
    ghost predicate Valid()
      reads this, cells
    {
      cells != null ==>
        var n := IndexOf(cells[..], NO_EVENT);
        n < cells.Length && cells.Length == Capacity(n) && Good(cells[..n])
    }

    ghost function Entries(): seq<Entry>
      reads this, cells
    {
      if cells == null then [] else cells[..IndexOf(cells[..], NO_EVENT)]
    }

    constructor ()
      ensures Valid() && cells == null && Entries() == []
    {
      cells := null;
    }

    /** Where the event or the sentinel is. */
    method Seek(e: nat) returns (i: nat)
      requires Valid() && cells != null && e < NO_EVENT
      ensures i == IndexOf(Entries(), e) && i < cells.Length
      ensures cells[i].event == if i == |Entries()| then NO_EVENT else e
    {
      i := 0;
      while cells[i].event != NO_EVENT && cells[i].event != e
        invariant i <= |Entries()| && forall j :: 0 <= j < i ==> cells[j].event != e && cells[j].event != NO_EVENT
        decreases cells.Length - i
      {
        i := i + 1;
      }
      SeekFound(cells[..], e, i);
    }

    /** lfRegisteredEventArraySize */
    method Size() returns (n: nat)
      requires Valid() && cells != null
      ensures n == Capacity(|Entries()|) == cells.Length
    {
      var i := 0;
      while cells[i].event != NO_EVENT
        invariant i <= |Entries()| && forall j :: 0 <= j < i ==> cells[j].event != NO_EVENT
        decreases cells.Length - i
      {
        i := i + 1;
      }
      n := STEP * ((i + STEP) / STEP);
    }

    /** added: how many live entries there are more; None when the memory for the array cannot be had. */
    method Register(e: nat, h: Handler, memory: bool) returns (added: Option<nat>)
      requires Valid() && e < NO_EVENT
      modifies this, cells
      ensures Valid() && (cells == old(cells) || fresh(cells))
      ensures added.None? <==> !memory && Allocates(old(Entries()), old(cells) != null, e)
      ensures added.None? <==> !memory && NeedsMemory(old(Entries()), old(cells) != null, e)
      ensures added.None? ==> cells == old(cells) && Entries() == old(Entries())
      ensures added.Some? ==> cells != null && Entries() == Put(old(Entries()), e, h)
      ensures added.Some? ==> added.value == if Lookup(old(Entries()), e).None? then 1 else 0
    {
      AllocatesIff(Entries(), cells != null, e);
      hide Good, Put, Lookup, IndexOf, NeedsMemory;
      if cells == null {
        if !memory {
          return None;
        }
        AllocateFirst();
      }
      var i := Seek(e);
      if cells[i].event == e {
        var n := Overwrite(i, e, h);
        added := Some(n);
      } else {
        NotThere(Entries(), e);
        var ok := Append(i, e, h, memory);
        added := if ok then Some(1) else None;
      }
    }

    method AllocateFirst()
      requires cells == null
      modifies this
      ensures Valid() && cells != null && fresh(cells) && Entries() == []
      ensures forall e: nat :: !Allocates(Entries(), true, e)
    {
      var first := new Entry[STEP](_ => Entry(NO_EVENT, None));
      cells := first;
    }

    method Overwrite(i: nat, e: nat, h: Handler) returns (n: nat)
      requires Valid() && cells != null && e < NO_EVENT && i == IndexOf(Entries(), e) < |Entries()|
      modifies cells
      ensures Valid() && Entries() == Put(old(Entries()), e, h) && n == if Lookup(old(Entries()), e).None? then 1 else 0
    {
      ghost var was := Entries();
      n := if cells[i].handler.None? then 1 else 0;
      cells[i] := Entry(e, Some(h));
      PlacedOver(was, cells[..], e, h);
    }

    method Append(i: nat, e: nat, h: Handler, memory: bool) returns (ok: bool)
      requires Valid() && cells != null && e < NO_EVENT && i == IndexOf(Entries(), e) == |Entries()|
      modifies this, cells
      ensures Valid() && cells != null && (cells == old(cells) || fresh(cells))
      ensures ok == (memory || !Allocates(old(Entries()), true, e))
      ensures !ok ==> cells == old(cells)
      ensures Entries() == if ok then Put(old(Entries()), e, h) else old(Entries())
    {
      ghost var was := Entries();
      var size := Size();
      if i + 1 == size {
        if !memory {
          return false;
        }
        Grow(size);
      }
      CapacityGrows(i);
      assert cells[..i] == was;
      hide Good, IndexOf, Put, Capacity;
      PlaceLast(i, e, h, was);
      ok := true;
    }

    /** The entry behind those that were there, and the sentinel behind it. */
    method PlaceLast(i: nat, e: nat, h: Handler, ghost was: seq<Entry>)
      requires i == |was| && cells != null && cells.Length == Capacity(|was| + 1) && |was| + 1 < cells.Length &&
               cells[..|was|] == was
      requires Good(was) && e < NO_EVENT && IndexOf(was, e) == |was|
      modifies cells
      ensures Valid() && Entries() == Put(was, e, h)
    {
      hide Capacity;
      cells[i] := Entry(e, Some(h));
      cells[i + 1] := Entry(NO_EVENT, None);
      PlacedBehind(was, cells[..], e, h);
    }

    /** A larger array with the same beginning. */
    method Grow(size: nat)
      requires cells != null && cells.Length == size
      modifies this
      ensures cells != null && fresh(cells) && cells.Length == size + STEP && cells[..size] == old(cells[..])
    {
      var larger := new Entry[size + STEP](_ => Entry(0, None));
      for j := 0 to size
        invariant cells == old(cells) && cells[..] == old(cells[..]) && larger[..j] == cells[..j]
      {
        larger[j] := cells[j];
      }
      cells := larger;
    }

    method Unregister(e: nat) returns (n: nat)
      requires Valid() && e < NO_EVENT
      modifies cells
      ensures Valid() && Entries() == Bury(old(Entries()), e)
      ensures n == if IndexOf(old(Entries()), e) < |old(Entries())| then 1 else 0
    {
      n := 0;
      if cells != null {
        ghost var was := Entries();
        var i := Seek(e);
        if cells[i].event != NO_EVENT {
          cells[i] := Entry(e, None);
          BuriedOver(was, cells[..], e);
          return 1;
        }
      }
    }

    method UnregisterAll()
      requires Valid()
      modifies cells
      ensures Valid() && Entries() == BuryAll(old(Entries()))
    {
      if cells != null {
        ghost var was, n := cells[..], |Entries()|;
        var i := 0;
        while cells[i].event != NO_EVENT
          invariant i <= n && |cells[..]| == |was|
          invariant forall j :: 0 <= j < |was| ==> cells[j] == if j < i then Entry(was[j].event, None) else was[j]
          decreases cells.Length - i
        {
          cells[i] := Entry(cells[i].event, None);
          i := i + 1;
        }
        SeekEnd(cells[..], n);
        assert cells[..n] == BuryAll(was[..n]);
      }
    }

    method Find(e: nat) returns (h: Option<Handler>)
      requires Valid() && e < NO_EVENT
      ensures h == Lookup(Entries(), e)
    {
      if cells == null {
        return None;
      }
      var i := Seek(e);
      h := if cells[i].event == NO_EVENT then None else cells[i].handler;
    }
  }

  lemma NotThere(s: seq<Entry>, e: nat)
    ensures IndexOf(s, e) == |s| ==> Lookup(s, e) == None
  {
  }

  // ---------- the table ----------

  class EventTable {
    const fast: array<Entry>
    const slow: GrowingArray
    const undelivered: GrowingArray
    var count: int

    ghost predicate Apart()
      reads this, slow, undelivered
    {
      && slow != undelivered
      && (slow.cells != null ==> slow.cells != fast && slow.cells != undelivered.cells)
      && (undelivered.cells != null ==> undelivered.cells != fast)
    }

    ghost predicate Valid()
      reads this, fast, slow, slow.cells, undelivered, undelivered.cells
    {
      Apart() && slow.Valid() && undelivered.Valid() && Sound(View().table)
    }

    ghost function View(): State
      reads this, fast, slow, slow.cells, undelivered, undelivered.cells
    {
      State(Table(fast[..], slow.Entries(), undelivered.Entries(), count), slow.cells != null,
          undelivered.cells != null)
    }

    constructor (fastSlots: nat)
      ensures Valid() && Fresh(View()) && fast.Length == fastSlots
    {
      fast := new Entry[fastSlots](_ => Entry(NO_EVENT, None));
      slow := new GrowingArray();
      undelivered := new GrowingArray();
      count := 0;
    }

    /** The first fast slot marked with e; e may be NO_EVENT, for a free one. */
    method SeekFast(e: nat) returns (i: nat)
      ensures i == IndexOf(fast[..], e)
    {
      i := 0;
      while i < fast.Length && fast[i].event != e
        invariant i <= fast.Length && forall j :: 0 <= j < i ==> fast[j].event != e
      {
        i := i + 1;
      }
    }

    /** onEvent */
    method OnEvent(e: nat) returns (h: Option<Handler>)
      requires Valid() && e < NO_EVENT
      ensures h == Find(View().table, e)
    {
      var i := SeekFast(e);
      if i == fast.Length {
        h := slow.Find(e);
      } else {
        h := fast[i].handler;
      }
    }

    method RegisterEventHandler(e: nat, h: Handler, memory: bool) returns (r: Outcome)
      requires Valid() && e < NO_EVENT
      modifies fast, slow, slow.cells
      ensures Valid() && r == Result(old(View()), Register(e, h, memory)) &&
              View() == Next(old(View()), Register(e, h, memory))
    {
      hide Sound, IndexOf, Put, Good, Lookup, Find, Capacity;
      var already := OnEvent(e);
      if already.Some? {
        return AlreadyRegistered;
      }
      RegisteredMeaning(View().table, e, h);
      var i := SeekFast(NO_EVENT);
      if i == fast.Length {
        var added := slow.Register(e, h, memory);
        r := if added.None? then OutOfMemory else Done;
      } else {
        fast[i] := Entry(e, Some(h));
        r := Done;
      }
    }

    method UnregisterEventHandler(e: nat)
      requires Valid() && e < NO_EVENT
      modifies fast, slow.cells
      ensures Valid() && View() == Next(old(View()), Unregister(e))
    {
      hide Sound, IndexOf, Bury, Good, Lookup, Find;
      UnregisteredMeaning(View().table, e);
      var i := SeekFast(e);
      if i < fast.Length {
        fast[i] := fast[i].(event := NO_EVENT);
      }
      var _ := slow.Unregister(e);
    }

    method RegisterUndeliveredEventHandler(e: nat, h: Handler, memory: bool) returns (r: Outcome)
      requires Valid() && e < NO_EVENT
      modifies this`count, undelivered, undelivered.cells
      ensures Valid() && r == Result(old(View()), RegisterUndelivered(e, h, memory))
      ensures View() == Next(old(View()), RegisterUndelivered(e, h, memory))
    {
      hide Sound, IndexOf, Put, Good, Lookup, Find, Capacity;
      UndeliveredMeaning(View().table, e, h);
      var already := undelivered.Find(e);
      if already.Some? {
        return AlreadyRegistered;
      }
      var added := undelivered.Register(e, h, memory);
      if added.None? {
        return OutOfMemory;
      }
      count := count + added.value;
      r := Done;
    }

    method UnregisterUndeliveredEventHandler(e: nat)
      requires Valid() && e < NO_EVENT
      modifies this`count, undelivered.cells
      ensures Valid() && View() == Next(old(View()), UnregisterUndelivered(e))
    {
      hide Sound, IndexOf, Bury, Good, Lookup, Find;
      UndeliveredMeaning(View().table, e, 0);
      var n := undelivered.Unregister(e);
      count := count - n;
    }

    method UnregisterAllEventHandlers()
      requires Valid()
      modifies this`count, fast, slow.cells, undelivered.cells
      ensures Valid() && View() == Next(old(View()), UnregisterAll)
    {
      hide Sound, IndexOf, BuryAll, Good, Lookup, Find, FreeSlots;
      NoneMeaning(View().table);
      FreeAll();
      slow.UnregisterAll();
      undelivered.UnregisterAll();
      count := 0;
    }

    method FreeAll()
      modifies fast
      ensures fast[..] == FreeSlots(old(fast[..]))
    {
      for i := 0 to fast.Length
        invariant forall j :: 0 <= j < fast.Length ==>
                    fast[j] == if j < i then old(fast[j]).(event := NO_EVENT) else old(fast[j])
      {
        fast[i] := fast[i].(event := NO_EVENT);
      }
      assert fast[..] == FreeSlots(old(fast[..]));
    }
  }

  lemma SeekEnd(c: seq<Entry>, n: nat)
    requires n < |c| && c[n].event == NO_EVENT && forall j :: 0 <= j < n ==> c[j].event != NO_EVENT
    ensures IndexOf(c, NO_EVENT) == n
  {
  }

  lemma SeekFound(c: seq<Entry>, e: nat, i: nat)
    requires i < |c| && e < NO_EVENT && (c[i].event == NO_EVENT || c[i].event == e)
    requires forall j :: 0 <= j < i ==> c[j].event != e && c[j].event != NO_EVENT
    ensures var n := IndexOf(c, NO_EVENT); i <= n && i == IndexOf(c[..n], e) && (i == n <==> c[i].event == NO_EVENT)
  {
  }

  lemma PlacedOver(was: seq<Entry>, c: seq<Entry>, e: nat, h: Handler)
    requires Good(was) && e < NO_EVENT && IndexOf(was, e) < |was| < |c| && c[..|was|] == Put(was, e, h) &&
             c[|was|].event == NO_EVENT
    ensures IndexOf(c, NO_EVENT) == |was| && Good(c[..|was|])
  {
    PutMeaning(was, e, h);
    assert forall j :: 0 <= j < |was| ==> c[..|was|][j] == c[j];
    SeekEnd(c, |was|);
  }

  lemma PlacedBehind(was: seq<Entry>, c: seq<Entry>, e: nat, h: Handler)
    requires Good(was) && e < NO_EVENT && IndexOf(was, e) == |was| && |was| + 1 < |c|
    requires c[..|was| + 1] == Put(was, e, h) && c[|was| + 1].event == NO_EVENT
    ensures IndexOf(c, NO_EVENT) == |was| + 1 && Good(c[..|was| + 1])
  {
    PutMeaning(was, e, h);
    assert forall j :: 0 <= j <= |was| ==> c[..|was| + 1][j] == c[j];
    SeekEnd(c, |was| + 1);
  }

  lemma BuriedOver(was: seq<Entry>, c: seq<Entry>, e: nat)
    requires Good(was) && e < NO_EVENT && IndexOf(was, e) < |was| < |c| && c[..|was|] == Bury(was, e) &&
             c[|was|].event == NO_EVENT
    ensures IndexOf(c, NO_EVENT) == |was| && Good(c[..|was|])
  {
    BuryMeaning(was, e);
    assert forall j :: 0 <= j < |was| ==> c[..|was|][j] == c[j];
    SeekEnd(c, |was|);
  }
}
