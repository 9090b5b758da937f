/**
 The ring against an atomic bounded queue.  Every call performs one operation on that queue, at one of its own steps:
 an accepted job puts its values when the write index is stored, a refused one is refused when the read index is
 loaded; a dequeue takes its values when the read index is stored, and finds nothing when the write index is loaded.
 */
module RingHistory {
  import opened Wrappers
  import opened Ring

  datatype Effect =
    | Put(job: Job, xs: seq<Data>)
    | Refuse(job: Job)
    | Take(count: nat, xs: seq<Data>)  // count: how many were asked for
    | Nothing(count: nat)

  function Least(a: nat, b: nat): nat {
    if a <= b then a else b
  }

  /**
   What the queue allows.  Strictly, a Most job puts as much as there is room for and a dequeue takes as much as is
   held; otherwise both may be content with less, but not with nothing.
   */
  predicate Legal(strict: bool, cap: nat, q: seq<Data>, e: Effect) {
    match e
    case Put(job, xs) =>
      && |q| + |xs| <= cap && |q| + Need(job) <= cap
      && (match job
          case One(x) => xs == [x]
          case All(ys) => xs == ys
          case Most(ys) =>
            && xs <= ys && (ys != [] ==> xs != [])
            && (strict ==> |xs| == Least(|ys|, cap - |q|)))
    case Refuse(job) => cap < |q| + Need(job)
    case Take(count, xs) =>
      && q != [] && xs <= q && |xs| <= count && (count > 0 ==> xs != [])
      && (strict ==> |xs| == Least(count, |q|))
    case Nothing(_) => q == []
  }

  function Performed(q: seq<Data>, e: Effect): seq<Data> {
    match e
    case Put(_, xs) => q + xs
    case Take(_, xs) => if |xs| <= |q| then q[|xs|..] else []
    case _ => q
  }

  /** The effects one after the other, starting with start in the queue; None: one of them is not allowed. */
  function Replay(strict: bool, cap: nat, start: seq<Data>, effects: seq<Effect>): Option<seq<Data>> {
    if effects == [] then Some(start)
    else
      var last := |effects| - 1;
      match Replay(strict, cap, start, effects[..last])
      case None => None
      case Some(q) => if Legal(strict, cap, q, effects[last]) then Some(Performed(q, effects[last])) else None
  }

  /**
   A run of the ring with its history.  job and asked: of the current calls; sawOutput and sawInput: how much had
   gone out when the producer loaded the read index, and in when the consumer loaded the write index; jobs and counts:
   the calls begun; missed: some call got less than there was at its store.
   */
  datatype Watch = Watch(
    s: State, job: Job, asked: nat, sawOutput: nat, sawInput: nat,
    effects: seq<Effect>, jobs: seq<Job>, counts: seq<nat>, missed: bool)

  /** The consumer stored in between, and a Most job had more to put than it found room for. */
  predicate PutMisses(w: Watch) {
    && w.job.Most? && |w.s.output| > w.sawOutput
    && |w.s.input| + |w.job.xs| > w.sawOutput + (w.s.max - 1)
  }

  /** The producer stored in between, and more was asked for than was held. */
  predicate TakeMisses(w: Watch) {
    |w.s.input| > w.sawInput && |w.s.output| + w.asked > w.sawInput
  }

  predicate Misses(w: Watch, step: Step) {
    match step
    case StoreWrite => PutMisses(w)
    case StoreRead => TakeMisses(w)
    case _ => false
  }

  function After(w: Watch, step: Step): Watch
    requires Enabled(w.s, step)
  {
    var t := Next(w.s, step);
    match step
    case Start(job) => w.(s := t, job := job, jobs := w.jobs + [job])
    case LoadRead =>
      w.(s := t, sawOutput := |w.s.output|,
         effects := if t.producer.Waiting? then w.effects + [Refuse(w.job)] else w.effects)
    case StoreWrite =>
      w.(s := t, effects := w.effects + [Put(w.job, w.s.producer.xs)], missed := w.missed || Misses(w, step))
    case Ask(count) => w.(s := t, asked := count, counts := w.counts + [count])
    case LoadWrite =>
      w.(s := t, sawInput := |w.s.input|,
         effects := if t.consumer.Resting? then w.effects + [Nothing(w.asked)] else w.effects)
    case StoreRead =>
      w.(s := t, effects := w.effects + [Take(w.asked, w.s.consumer.taken)],
         missed := w.missed || Misses(w, step))
    case _ => w.(s := t)
  }

  // ---------- what a step relies on ----------

  /** The producer's current call. */
  ghost predicate PutOk(w: Watch) {
    && (w.s.producer.Loading? ==> w.s.producer.job == w.job)
    && (w.s.producer.Copying? ==>
          var room := w.s.max - 1 - (|w.s.input| - w.sawOutput);
          && w.sawOutput <= |w.s.output| && Need(w.job) <= room
          && match w.job
             case One(x) => w.s.producer.xs == [x]
             case All(xs) => w.s.producer.xs == xs
             case Most(xs) => w.s.producer.xs <= xs && |w.s.producer.xs| == Least(|xs|, room))
  }

  /** The consumer's. */
  ghost predicate TakeOk(w: Watch) {
    && (w.s.consumer.Asking? ==> w.s.consumer.count == w.asked)
    && (w.s.consumer.Taking? ==>
          && |w.s.output| < w.sawInput <= |w.s.input|
          && w.s.consumer.count == Least(w.asked, w.sawInput - |w.s.output|))
  }

  ghost predicate WatchInv(w: Watch) {
    Inv(w.s) && PutOk(w) && TakeOk(w)
  }

  /** The counters never exceed what has gone in and out. */
  lemma Bounds(s: State)
    requires Inv(s)
    ensures |s.output| <= |s.input| <= |s.output| + s.max - 1
  {
  }

  lemma LoadReadWatched(w: Watch)
    requires WatchInv(w) && Enabled(w.s, LoadRead)
    ensures PutOk(After(w, LoadRead)) && TakeOk(After(w, LoadRead))
    ensures var t := Next(w.s, LoadRead);
            && t.input == w.s.input && t.output == w.s.output && t.max == w.s.max && t.consumer == w.s.consumer
            && (t.producer.Waiting? <==> w.s.max - 1 < |w.s.input| - |w.s.output| + Need(w.job))
  {
    RefusedIffNoRoom(w.s);
    Bounds(w.s);
    LoadReadChooses(w.s);
    hide Inv, Accepted;
  }

  /** What an accepted Most job copies. */
  lemma LoadReadChooses(s: State)
    requires Inv(s) && Enabled(s, LoadRead)
    ensures var t, room := Next(s, LoadRead), s.max - 1 - (|s.input| - |s.output|);
            s.producer.job.Most? && t.producer.Copying? ==>
              var xs := s.producer.job.xs; t.producer.xs <= xs && |t.producer.xs| == Least(|xs|, room)
  {
    Counts(s);
    hide IndicesOk, SlotsOk, ProducerOk, ConsumerOk, WriteAvailable;
  }

  lemma LoadWriteWatched(w: Watch)
    requires WatchInv(w) && Enabled(w.s, LoadWrite)
    ensures PutOk(After(w, LoadWrite)) && TakeOk(After(w, LoadWrite))
    ensures var t := Next(w.s, LoadWrite);
            && t.input == w.s.input && t.output == w.s.output && t.max == w.s.max && t.producer == w.s.producer
            && (t.consumer.Resting? <==> |w.s.input| == |w.s.output|)
  {
    NothingIffEmpty(w.s);
    Bounds(w.s);
    hide Inv, ReadAvailable;
  }

  lemma StepWatched(w: Watch, step: Step)
    requires WatchInv(w) && Enabled(w.s, step)
    ensures WatchInv(After(w, step))
  {
    StepKeeps(w.s, step);
    hide Inv, Accepted, ReadAvailable, Advanced, Misses;
    match step
    case LoadRead => LoadReadWatched(w);
    case LoadWrite => LoadWriteWatched(w);
    case StoreWrite => StoreWatched(w, step);
    case StoreRead => StoreWatched(w, step);
    case _ =>
  }

  lemma StoreWatched(w: Watch, step: Step)
    requires WatchInv(w) && Enabled(w.s, step) && (step.StoreWrite? || step.StoreRead?)
    ensures PutOk(After(w, step)) && TakeOk(After(w, step))
  {
    Bounds(w.s);
    hide Inv, Advanced, Misses;
  }

  // ---------- one step of the ring is at most one of the queue ----------

  function Held(s: State): seq<Data> {
    if |s.output| <= |s.input| then s.input[|s.output|..] else []
  }

  /** Adding one effect. */
  lemma ReplayMore(strict: bool, cap: nat, start: seq<Data>, effects: seq<Effect>, e: Effect)
    ensures Replay(strict, cap, start, effects + [e]) ==
              match Replay(strict, cap, start, effects)
              case None => None
              case Some(q) => if Legal(strict, cap, q, e) then Some(Performed(q, e)) else None
  {
    assert (effects + [e])[..|effects|] == effects;
  }

  /** What the step does to the values held, and whether a strict queue would do the same. */
  ghost predicate Simulates(w: Watch, step: Step)
    requires Enabled(w.s, step)
  {
    var v, cap := After(w, step), w.s.max - 1;
    && v.s.max == w.s.max && cap >= 0
    && if v.effects == w.effects then Held(v.s) == Held(w.s) && v.missed == w.missed
       else
         var e := v.effects[|v.effects| - 1];
         && v.effects == w.effects + [e] && v.missed == (w.missed || Misses(w, step))
         && Legal(false, cap, Held(w.s), e) && Held(v.s) == Performed(Held(w.s), e)
         && (Legal(true, cap, Held(w.s), e) <==> !Misses(w, step))
  }

  lemma LoadReadSimulates(w: Watch)
    requires WatchInv(w) && Enabled(w.s, LoadRead)
    ensures Simulates(w, LoadRead)
  {
    LoadReadWatched(w);
    Bounds(w.s);
    hide Inv, Accepted;
  }

  lemma LoadWriteSimulates(w: Watch)
    requires WatchInv(w) && Enabled(w.s, LoadWrite)
    ensures Simulates(w, LoadWrite)
  {
    LoadWriteWatched(w);
    Bounds(w.s);
    hide Inv, ReadAvailable;
  }

  lemma StoreWriteSimulates(w: Watch)
    requires WatchInv(w) && Enabled(w.s, StoreWrite)
    ensures Simulates(w, StoreWrite)
  {
    Bounds(w.s);
    assert |w.s.input| + |w.s.producer.xs| <= |w.s.output| + w.s.max - 1;
    hide Inv, Advanced;
    assert (w.s.input + w.s.producer.xs)[|w.s.output|..] == w.s.input[|w.s.output|..] + w.s.producer.xs;
  }

  lemma StoreReadSimulates(w: Watch)
    requires WatchInv(w) && Enabled(w.s, StoreRead)
    ensures Simulates(w, StoreRead)
  {
    Bounds(w.s);
    DequeuedAreOldest(w.s);
    hide Inv, Advanced;
    var o, n := |w.s.output|, w.s.consumer.count;
    assert w.s.input[o..o + n] == w.s.input[o..][..n];
  }

  lemma StepSimulates(w: Watch, step: Step)
    requires WatchInv(w) && Enabled(w.s, step)
    ensures Simulates(w, step)
  {
    Bounds(w.s);
    match step
    case LoadRead => LoadReadSimulates(w);
    case LoadWrite => LoadWriteSimulates(w);
    case StoreWrite => StoreWriteSimulates(w);
    case StoreRead => StoreReadSimulates(w);
    case _ => hide Inv;
  }

  // ---------- runs ----------

  ghost predicate Reached(start: Watch, steps: seq<Step>, w: Watch)
    decreases |steps|
  {
    if steps == [] then w == start
    else
      var last := |steps| - 1;
      exists v :: Reached(start, steps[..last], v) && Enabled(v.s, steps[last]) && w == After(v, steps[last])
  }

  /** An empty ring nobody has called yet. */
  ghost predicate Unused(w: Watch) {
    Empty(w.s) && w.effects == [] && w.jobs == [] && w.counts == [] && !w.missed
  }

  /** The call of the producer, and of the consumer, that performs the operation. */
  function JobOf(e: Effect): seq<Job> {
    match e case Put(job, _) => [job] case Refuse(job) => [job] case _ => []
  }

  function CountOf(e: Effect): seq<nat> {
    match e case Take(count, _) => [count] case Nothing(count) => [count] case _ => []
  }

  /** The calls that have performed their operation, in its order. */
  function JobsOf(effects: seq<Effect>): seq<Job> {
    if effects == [] then [] else JobsOf(effects[..|effects| - 1]) + JobOf(effects[|effects| - 1])
  }

  function CountsOf(effects: seq<Effect>): seq<nat> {
    if effects == [] then [] else CountsOf(effects[..|effects| - 1]) + CountOf(effects[|effects| - 1])
  }

  /** Each side has performed one operation for each call it began, but for the call it is in. */
  ghost predicate CallsOnce(w: Watch) {
    && w.jobs == JobsOf(w.effects) + (if w.s.producer.Waiting? then [] else [w.job])
    && w.counts == CountsOf(w.effects) + (if w.s.consumer.Resting? then [] else [w.asked])
  }

  lemma OfMore(effects: seq<Effect>, e: Effect)
    ensures JobsOf(effects + [e]) == JobsOf(effects) + JobOf(e)
    ensures CountsOf(effects + [e]) == CountsOf(effects) + CountOf(e)
  {
    assert (effects + [e])[..|effects|] == effects;
  }

  lemma CallsStep(w: Watch, step: Step)
    requires WatchInv(w) && CallsOnce(w) && Enabled(w.s, step)
    ensures CallsOnce(After(w, step))
  {
    hide Inv, JobsOf, CountsOf, ReadAvailable, Advanced, Misses, PutOk, TakeOk;
    match step
    case LoadRead => OfMore(w.effects, Refuse(w.job));
    case StoreWrite => OfMore(w.effects, Put(w.job, w.s.producer.xs));
    case LoadWrite => OfMore(w.effects, Nothing(w.asked));
    case StoreRead => OfMore(w.effects, Take(w.asked, w.s.consumer.taken));
    case _ =>
  }

  /** What the calls made so far are replayed to, on either reading. */
  ghost predicate Replayed(w: Watch) {
    var cap := w.s.max - 1;
    && cap >= 0 && Replay(false, cap, [], w.effects) == Some(Held(w.s))
    && Replay(true, cap, [], w.effects) == if w.missed then None else Some(Held(w.s))
  }

  lemma ReplayedStep(w: Watch, step: Step)
    requires WatchInv(w) && Replayed(w) && Enabled(w.s, step)
    ensures Replayed(After(w, step))
  {
    StepSimulates(w, step);
    var v, cap := After(w, step), w.s.max - 1;
    hide WatchInv, After, Misses, Held, Legal, Performed;
    if v.effects != w.effects {
      var e := v.effects[|v.effects| - 1];
      ReplayMore(false, cap, [], w.effects, e);
      ReplayMore(true, cap, [], w.effects, e);
    }
    hide Replay;
  }

  /**
   Every run of one producer with one consumer is a run of a bounded queue that does one operation at a time: at every
   moment the operations performed so far, in that order, are allowed one after the other and leave in the queue what
   is in the ring; and each call performs one of them, between its beginning and its end.  With the strict reading, as
   much as there is, this holds exactly until a call has missed something.
   */
  lemma {:induction false} RunsAreAtomic(start: Watch, steps: seq<Step>, w: Watch)
    requires Unused(start) && Reached(start, steps, w)
    ensures WatchInv(w) && w.s.max == start.s.max && Replayed(w) && CallsOnce(w)
    decreases |steps|
  {
    if steps != [] {
      var last := |steps| - 1;
      var v :| Reached(start, steps[..last], v) && Enabled(v.s, steps[last]) && w == After(v, steps[last]);
      RunsAreAtomic(start, steps[..last], v);
      StepWatched(v, steps[last]);
      StepSimulates(v, steps[last]);
      ReplayedStep(v, steps[last]);
      CallsStep(v, steps[last]);
      hide WatchInv, Replayed, CallsOnce, After;
    } else {
      hide Reached;
    }
  }

  // ---------- the calls that never miss ----------

  ghost predicate Modest(w: Watch) {
    && (forall k :: 0 <= k < |w.jobs| ==> !w.jobs[k].Most?)
    && (forall k :: 0 <= k < |w.counts| ==> w.counts[k] <= 1)
  }

  /** A dequeue of one value, and a job that goes in whole or not at all, is strictly atomic, whatever others do. */
  lemma WholeCallsNeverMiss(w: Watch, step: Step)
    requires WatchInv(w) && Enabled(w.s, step)
    requires (step.StoreWrite? ==> !w.job.Most?) && (step.StoreRead? ==> w.asked <= 1)
    ensures !Misses(w, step)
    ensures var v := After(w, step);
            v.effects != w.effects ==> w.s.max >= 1 && Legal(true, w.s.max - 1, Held(w.s), v.effects[|v.effects| - 1])
  {
    StepSimulates(w, step);
    hide Inv, Next, Legal, Performed, Held;
  }

  lemma ModestNeverMisses(w: Watch, step: Step)
    requires WatchInv(w) && CallsOnce(w) && Modest(w) && Enabled(w.s, step)
    ensures !Misses(w, step)
  {
    hide Inv, JobsOf, CountsOf;
    if step.StoreWrite? {
      assert w.jobs[|w.jobs| - 1] == w.job;
    } else if step.StoreRead? {
      assert w.counts[|w.counts| - 1] == w.asked;
    }
    WholeCallsNeverMiss(w, step);
  }

  /** What has been called stays called. */
  lemma ModestBefore(w: Watch, step: Step)
    requires Enabled(w.s, step) && Modest(After(w, step))
    ensures Modest(w)
  {
    var v := After(w, step);
    hide Next, Misses;
    assert forall k :: 0 <= k < |w.jobs| ==> w.jobs[k] == v.jobs[k];
    assert forall k :: 0 <= k < |w.counts| ==> w.counts[k] == v.counts[k];
  }

  lemma MissedStep(w: Watch, step: Step)
    requires Enabled(w.s, step) && !w.missed && !Misses(w, step)
    ensures !After(w, step).missed
  {
    hide Next;
  }

  lemma {:induction false} NothingMissed(start: Watch, steps: seq<Step>, w: Watch)
    requires Unused(start) && Reached(start, steps, w) && Modest(w)
    ensures !w.missed
    decreases |steps|
  {
    if steps != [] {
      hide WatchInv, CallsOnce, Replayed, Misses, After, Modest;
      var last := |steps| - 1;
      var v :| Reached(start, steps[..last], v) && Enabled(v.s, steps[last]) && w == After(v, steps[last]);
      RunsAreAtomic(start, steps[..last], v);
      ModestBefore(v, steps[last]);
      NothingMissed(start, steps[..last], v);
      ModestNeverMisses(v, steps[last]);
      MissedStep(v, steps[last]);
    }
  }

  /** While only one value is asked for at a time and no job is content with less, the ring is the strict queue. */
  lemma ModestRunsAreStrict(start: Watch, steps: seq<Step>, w: Watch)
    requires Unused(start) && Reached(start, steps, w) && Modest(w)
    ensures w.s.max >= 1 && Replay(true, w.s.max - 1, [], w.effects) == Some(Held(w.s))
  {
    hide WatchInv, CallsOnce, Modest, Reached, Unused, Replay;
    RunsAreAtomic(start, steps, w);
    NothingMissed(start, steps, w);
  }

  // ---------- where the strict reading fails ----------

  lemma OneMore(start: Watch, steps: seq<Step>, w: Watch, step: Step)
    requires Reached(start, steps, w) && Enabled(w.s, step)
    ensures Reached(start, steps + [step], After(w, step))
  {
    assert (steps + [step])[..|steps|] == steps;
  }

  /** The calls of the example: a is put, b as well, c is refused, and a dequeue of two takes a. */
  function Example(a: Data, b: Data, c: Data): seq<Effect> {
    [Put(One(a), [a]), Put(One(b), [b]), Refuse(One(c)), Take(2, [a])]
  }

  /** What only the producer does leaves the consumer's side alone. */
  predicate SameConsumer(w: Watch, v: Watch) {
    v.s.max == w.s.max && v.s.output == w.s.output && v.s.consumer == w.s.consumer && v.asked == w.asked
  }

  lemma PutsOne(start: Watch, steps: seq<Step>, w: Watch, x: Data) returns (t: seq<Step>, v: Watch)
    requires Reached(start, steps, w) && WatchInv(w) && w.s.producer.Waiting?
    requires |w.s.input| - |w.s.output| < w.s.max - 1
    ensures Reached(start, t, v) && WatchInv(v) && v.s.producer.Waiting? && SameConsumer(w, v)
    ensures v.effects == w.effects + [Put(One(x), [x])] && v.s.input == w.s.input + [x]
  {
    hide Reached, WatchInv, Accepted, Advanced, Misses;
    var w1 := After(w, Start(One(x)));
    StepWatched(w, Start(One(x)));
    OneMore(start, steps, w, Start(One(x)));
    var w2 := After(w1, LoadRead);
    StepWatched(w1, LoadRead);
    OneMore(start, steps + [Start(One(x))], w1, LoadRead);
    Loads(w1);
    var w3 := After(w2, CopyIn);
    Copies(w2);
    StepWatched(w2, CopyIn);
    OneMore(start, steps + [Start(One(x))] + [LoadRead], w2, CopyIn);
    v := After(w3, StoreWrite);
    StepWatched(w3, StoreWrite);
    OneMore(start, steps + [Start(One(x))] + [LoadRead] + [CopyIn], w3, StoreWrite);
    t := steps + [Start(One(x))] + [LoadRead] + [CopyIn] + [StoreWrite];
  }

  lemma Loads(w: Watch)
    requires WatchInv(w) && w.s.producer.Loading? && w.s.producer.job.One?
    ensures var v := After(w, LoadRead);
            && SameConsumer(w, v) && v.s.input == w.s.input && v.job == w.job == w.s.producer.job
            && (v.s.producer.Waiting? <==> |w.s.input| - |w.s.output| == w.s.max - 1)
            && (v.s.producer.Copying? ==> v.s.producer == Copying([w.job.x], 0) && v.effects == w.effects)
            && (v.s.producer.Waiting? ==> v.effects == w.effects + [Refuse(w.job)])
            && !v.s.producer.Loading?
  {
    LoadReadWatched(w);
    Bounds(w.s);
    hide Inv;
  }

  lemma Copies(w: Watch)
    requires WatchInv(w) && Enabled(w.s, CopyIn)
    ensures var v := After(w, CopyIn);
            && SameConsumer(w, v) && v.s.input == w.s.input && v.job == w.job && v.effects == w.effects
            && v.s.producer == Copying(w.s.producer.xs, w.s.producer.copied + 1)
  {
    CopyInKeeps(w.s);
    hide Inv;
  }

  lemma RefusesOne(start: Watch, steps: seq<Step>, w: Watch, x: Data) returns (t: seq<Step>, v: Watch)
    requires Reached(start, steps, w) && WatchInv(w) && w.s.producer.Waiting?
    requires |w.s.input| - |w.s.output| == w.s.max - 1
    ensures Reached(start, t, v) && WatchInv(v) && v.s.producer.Waiting? && SameConsumer(w, v)
    ensures v.effects == w.effects + [Refuse(One(x))] && v.s.input == w.s.input
  {
    hide Reached, WatchInv, Accepted;
    var w1 := After(w, Start(One(x)));
    StepWatched(w, Start(One(x)));
    OneMore(start, steps, w, Start(One(x)));
    v := After(w1, LoadRead);
    StepWatched(w1, LoadRead);
    OneMore(start, steps + [Start(One(x))], w1, LoadRead);
    Loads(w1);
    t := steps + [Start(One(x))] + [LoadRead];
  }

  /** A dequeue of n values loads the write index and finds one. */
  lemma AsksFor(start: Watch, steps: seq<Step>, w: Watch, n: nat) returns (t: seq<Step>, v: Watch)
    requires Reached(start, steps, w) && WatchInv(w) && w.s.consumer.Resting? && n >= 1
    requires |w.s.input| == |w.s.output| + 1
    ensures Reached(start, t, v) && WatchInv(v) && v.s.consumer == Taking(1, []) && v.asked == n
    ensures v.s.max == w.s.max && v.s.input == w.s.input && v.s.output == w.s.output
    ensures v.s.producer == w.s.producer && v.effects == w.effects
  {
    hide Reached, ReadAvailable;
    var w1 := After(w, Ask(n));
    StepWatched(w, Ask(n));
    OneMore(start, steps, w, Ask(n));
    v := After(w1, LoadWrite);
    StepWatched(w1, LoadWrite);
    LoadWriteWatched(w1);
    OneMore(start, steps + [Ask(n)], w1, LoadWrite);
    t := steps + [Ask(n)] + [LoadWrite];
    hide Inv;
  }

  lemma TakesOne(start: Watch, steps: seq<Step>, w: Watch) returns (t: seq<Step>, v: Watch)
    requires Reached(start, steps, w) && WatchInv(w) && w.s.consumer == Taking(1, []) && w.s.output == []
    requires w.s.input != []
    ensures Reached(start, t, v) && v.effects == w.effects + [Take(w.asked, w.s.input[..1])]
  {
    hide Reached, Advanced, Misses;
    var w1 := After(w, CopyOut);
    CopyOutKeeps(w.s);
    StepWatched(w, CopyOut);
    OneMore(start, steps, w, CopyOut);
    DequeuedAreOldest(w1.s);
    v := After(w1, StoreRead);
    OneMore(start, steps + [CopyOut], w1, StoreRead);
    t := steps + [CopyOut] + [StoreRead];
    hide Inv;
  }

  /**
   A ring of three slots, the value a in it.  A dequeue of two values loads the write index; then b goes in and c is
   refused; then the dequeue returns a alone.
   */
  lemma DequeueOvertaken(start: Watch, a: Data, b: Data, c: Data)
    requires Unused(start) && start.s.max == 3
    ensures exists steps, w :: Reached(start, steps, w) && w.effects == Example(a, b, c)
  {
    RunsAreAtomic(start, [], start);
    assert Reached(start, [], start) && start.effects == [] && start.s.input == [] && start.s.output == [];
    assert start.s.producer.Waiting? && start.s.consumer.Resting?;
    hide Reached, WatchInv, CallsOnce, Replayed, Unused, Example;
    var t1, w1 := PutsOne(start, [], start, a);
    var t2, w2 := AsksFor(start, t1, w1, 2);
    var t3, w3 := PutsOne(start, t2, w2, b);
    var t4, w4 := RefusesOne(start, t3, w3, c);
    var t5, w5 := TakesOne(start, t4, w4);
    assert w4.s.input[..1] == [a];
    JoinedEffects(a, b, c);
    assert w5.effects == Example(a, b, c);
  }

  lemma JoinedEffects(a: Data, b: Data, c: Data)
    ensures [] + [Put(One(a), [a])] + [Put(One(b), [b])] + [Refuse(One(c))] + [Take(2, [a])] == Example(a, b, c)
  {
  }

  /** No order of the last three calls explains that with a dequeue of as much as is asked for and held. */
  lemma NoOrderExplains(a: Data, b: Data, c: Data, order: seq<Effect>)
    requires multiset(order) == multiset{Put(One(b), [b]), Refuse(One(c)), Take(2, [a])}
    ensures Replay(true, 2, [a], order) == None
  {
    var put, refuse, take := Put(One(b), [b]), Refuse(One(c)), Take(2, [a]);
    ThreeOf(order, put, refuse, take);
    var x, y, z := order[0], order[1], order[2];
    assert order == [] + [x] + [y] + [z];
    hide Replay;
    NotOneAfterTheOther(a, b, c, x, y, z);
  }

  lemma NotOneAfterTheOther(a: Data, b: Data, c: Data, x: Effect, y: Effect, z: Effect)
    requires var put, refuse, take := Put(One(b), [b]), Refuse(One(c)), Take(2, [a]);
             (x == put || x == refuse || x == take) && (y == put || y == refuse || y == take)
             && (z == put || z == refuse || z == take) && x != y && y != z && x != z
    ensures Replay(true, 2, [a], [] + [x] + [y] + [z]) == None
  {
    assert Replay(true, 2, [a], []) == Some([a]);
    QueueFacts(a, b, c);
    hide Replay, Legal, Performed;
    ReplayMore(true, 2, [a], [], x);
    ReplayMore(true, 2, [a], [] + [x], y);
    ReplayMore(true, 2, [a], [] + [x] + [y], z);
  }

  lemma QueueFacts(a: Data, b: Data, c: Data)
    ensures var put, refuse, take := Put(One(b), [b]), Refuse(One(c)), Take(2, [a]);
            && !Legal(true, 2, [a], refuse) && !Legal(true, 2, [], refuse) && !Legal(true, 2, [b], refuse)
            && Performed([a], put) == [a, b] && !Legal(true, 2, [a, b], take)
            && Performed([a, b], refuse) == [a, b] && Performed([a], take) == [] && Performed([], put) == [b]
  {
  }

  lemma ThreeOf(order: seq<Effect>, x: Effect, y: Effect, z: Effect)
    requires multiset(order) == multiset{x, y, z} && x != y && y != z && x != z
    ensures |order| == 3 && order[0] in {x, y, z} && order[1] in {x, y, z} && order[2] in {x, y, z}
    ensures order[0] != order[1] && order[1] != order[2] && order[0] != order[2]
  {
    assert |order| == |multiset(order)| == 3;
    assert order[0] in multiset(order) && order[1] in multiset(order) && order[2] in multiset(order);
    assert order == [order[0], order[1], order[2]];
    assert multiset(order) == multiset{order[0], order[1], order[2]};
    assert multiset(order)[order[0]] == 1 && multiset(order)[order[1]] == 1;
  }
}
