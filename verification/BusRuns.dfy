/**
 Publisher and subscriber of a bus channel on two threads: the calls of the one overlap those of the other, down to
 the loads, copies and stores of the ring between them.
 */
module BusRuns {
  import opened Ring

  datatype Call = NoCall | PublishOne(x: Data, storeOnFail: bool) | PublishAll

  /**
   waiting: the publisher's buffer.  History: offered, all that was prepared or published; refused, what a full ring
   did not take and the publisher was not to store.
   */
  datatype Line = Line(s: State, waiting: seq<Data>, call: Call, offered: seq<Data>, refused: seq<Data>)

  datatype Action =
    | Prepare(x: Data)
    | Publish(call: Call)
    | Read(count: nat)     // one value, or as many as the ring can hold
    | Ringing(step: Step)  // the next step of the call either side is in

  predicate Possible(l: Line, a: Action) {
    match a
    case Prepare(_) => l.call.NoCall?
    case Publish(call) => l.call.NoCall? && !call.NoCall?
    case Read(count) => Enabled(l.s, Ask(count))
    case Ringing(step) => !step.Start? && !step.Ask? && Enabled(l.s, step)
  }

  /** publishAll does not touch the ring when nothing waits. */
  function Published(l: Line, call: Call): Line
    requires Enabled(l.s, Start(All(l.waiting)))
  {
    match call
    case NoCall => l
    case PublishOne(x, _) => l.(s := Next(l.s, Start(One(x))), call := call, offered := l.offered + [x])
    case PublishAll => if l.waiting == [] then l else l.(s := Next(l.s, Start(All(l.waiting))), call := call)
  }

  /** The call returns without success. */
  function GivenUp(l: Line): Line {
    match l.call
    case PublishOne(x, true) => l.(call := NoCall, waiting := l.waiting + [x])
    case PublishOne(x, false) => l.(call := NoCall, refused := l.refused + [x])
    case _ => l.(call := NoCall)
  }

  function Rung(l: Line, step: Step): Line
    requires Enabled(l.s, step)
  {
    var t := Next(l.s, step);
    match step
    case LoadRead => if t.producer.Waiting? then GivenUp(l.(s := t)) else l.(s := t)
    case StoreWrite => l.(s := t, call := NoCall, waiting := if l.call.PublishAll? then [] else l.waiting)
    case _ => l.(s := t)
  }

  predicate InStep(l: Line) {
    l.call.NoCall? <==> l.s.producer.Waiting?
  }

  function After(l: Line, a: Action): Line
    requires Possible(l, a) && InStep(l)
  {
    match a
    case Prepare(x) => l.(waiting := l.waiting + [x], offered := l.offered + [x])
    case Publish(call) => Published(l, call)
    case Read(count) => l.(s := Next(l.s, Ask(count)))
    case Ringing(step) => Rung(l, step)
  }

  // ---------- the books ----------

  /** On its way into the ring and not counted as waiting. */
  function Underway(l: Line): seq<Data> {
    if l.call.PublishOne? then [l.call.x] else []
  }

  /** What the producer's part of the ring has to do with the publisher's call. */
  ghost predicate CallOk(l: Line) {
    match l.call
    case NoCall => l.s.producer.Waiting?
    case PublishOne(x, _) => l.s.producer == Loading(One(x)) || (l.s.producer.Copying? && l.s.producer.xs == [x])
    case PublishAll =>
      l.s.producer == Loading(All(l.waiting)) || (l.s.producer.Copying? && l.s.producer.xs == l.waiting)
  }

  /** Everything offered went into the ring, waits, is on its way or was refused; nothing is there twice. */
  ghost predicate Balanced(l: Line) {
    multiset(l.offered)
      == multiset(l.s.input) + multiset(l.waiting) + multiset(Underway(l)) + multiset(l.refused)
  }

  ghost predicate LineInv(l: Line) {
    Inv(l.s) && CallOk(l) && Balanced(l)
  }

  lemma LoadReadBalances(l: Line)
    requires LineInv(l) && Enabled(l.s, LoadRead)
    ensures LineInv(Rung(l, LoadRead))
  {
    StepKeeps(l.s, LoadRead);
    AcceptsOrRefuses(l.s);
    hide Inv, Next;
    var m := l.(s := Next(l.s, LoadRead));
    if m.s.producer.Waiting? {
      GivenUpBalances(m);
    }
  }

  lemma AcceptsOrRefuses(s: State)
    requires Inv(s) && Enabled(s, LoadRead)
    ensures var t, job := Next(s, LoadRead), s.producer.job;
            && t.input == s.input && !t.producer.Loading?
            && (t.producer.Copying? && job.One? ==> t.producer.xs == [job.x])
            && (t.producer.Copying? && job.All? ==> t.producer.xs == job.xs)
  {
    RefusedIffNoRoom(s);
    hide Inv, Accepted;
  }

  lemma GivenUpBalances(l: Line)
    requires Balanced(l)
    ensures Balanced(GivenUp(l))
  {
  }

  lemma StoreWriteBalances(l: Line)
    requires LineInv(l) && Enabled(l.s, StoreWrite)
    ensures LineInv(Rung(l, StoreWrite))
  {
    StepKeeps(l.s, StoreWrite);
    hide Inv, Advanced;
  }

  lemma RingingBalances(l: Line, step: Step)
    requires LineInv(l) && Possible(l, Ringing(step))
    ensures LineInv(Rung(l, step))
  {
    match step
    case LoadRead => LoadReadBalances(l);
    case StoreWrite => StoreWriteBalances(l);
    case CopyIn =>
      StepKeeps(l.s, step);
      CopyInKeeps(l.s);
      hide Inv;
    case _ =>
      StepKeeps(l.s, step);
      hide Inv;
  }

  lemma ActionBalances(l: Line, a: Action)
    requires LineInv(l) && Possible(l, a)
    ensures InStep(l) && LineInv(After(l, a))
  {
    match a
    case Prepare(x) => hide Inv;
    case Publish(call) =>
      StepKeeps(l.s, Start(All(l.waiting)));
      if call.PublishOne? {
        StepKeeps(l.s, Start(One(call.x)));
      }
      hide Inv;
    case Read(count) =>
      StepKeeps(l.s, Ask(count));
      hide Inv;
    case Ringing(step) =>
      RingingBalances(l, step);
      hide Inv;
  }

  // ---------- runs ----------

  ghost predicate Reaches(max: nat, actions: seq<Action>, l: Line)
    decreases |actions|
  {
    if actions == [] then Empty(l.s) && l.s.max == max && l.call.NoCall? && l.waiting == l.offered == l.refused == []
    else
      var last := |actions| - 1;
      exists k :: Reaches(max, actions[..last], k) && Possible(k, actions[last]) && InStep(k)
                  && l == After(k, actions[last])
  }

  lemma {:induction false} RunBalances(max: nat, actions: seq<Action>, l: Line)
    requires Reaches(max, actions, l)
    ensures LineInv(l)
    decreases |actions|
  {
    if actions != [] {
      var last := |actions| - 1;
      var k :| Reaches(max, actions[..last], k) && Possible(k, actions[last]) && InStep(k)
               && l == After(k, actions[last]);
      RunBalances(max, actions[..last], k);
      hide LineInv, After;
      ActionBalances(k, actions[last]);
    }
  }

  /**
   However the two threads interleave, everything offered is received, held by the ring, waiting, on its way or
   refused, once each; and what was received came out in the order in which it went in.
   */
  lemma NothingLostBetweenThreads(max: nat, actions: seq<Action>, l: Line)
    requires Reaches(max, actions, l)
    ensures |l.s.output| <= |l.s.input| && l.s.output == l.s.input[..|l.s.output|]
    ensures multiset(l.offered)
         == multiset(l.s.output) + multiset(l.s.input[|l.s.output|..]) + multiset(l.waiting)
            + multiset(Underway(l)) + multiset(l.refused)
  {
    RunBalances(max, actions, l);
    assert l.s.input == l.s.input[..|l.s.output|] + l.s.input[|l.s.output|..];
    hide IndicesOk, SlotsOk, ProducerOk;
  }
}
