/**
 The single-producer single-consumer ring: its unsigned index arithmetic, and every interleaving of one producer
 with one consumer at the granularity of index loads, slot copies and index stores.
 */
module Ring {
  const WORD: nat := 0x1_0000_0000_0000_0000

  /** A published data pointer. */
  type Data = nat

  // ---------- indices ----------

  /** Wrapping into the ring; the loop subtracts at most once for an index of the ring. */
  method NextIndex(arg: nat, max: nat) returns (ret: nat)
    requires arg < max
    ensures ret == Wrapped(arg + 1, max) && ret < max
  {
    ret := arg + 1;
    while ret >= max
      invariant ret == arg + 1 || (ret == 0 && arg + 1 == max)
    {
      ret := ret - max;
    }
  }

  function Wrapped(i: nat, max: nat): nat {
    if i >= max then i - max else i
  }

  function ReadAvailable(w: nat, r: nat, max: nat): nat {
    if w >= r then w - r else (w + max - r) % WORD
  }

  /** ret = r - w - 1 in unsigned arithmetic, then + max where the ring has wrapped. */
  function WriteAvailable(w: nat, r: nat, max: nat): nat {
    var ret := (r - w - 1) % WORD;
    if w >= r then (ret + max) % WORD else ret
  }

  /** One slot always stays empty; whatever the indices, the two counts complement each other. */
  lemma AvailableComplement(w: nat, r: nat, max: nat)
    requires w < max && r < max && max <= WORD
    ensures ReadAvailable(w, r, max) + WriteAvailable(w, r, max) == max - 1
    ensures (WriteAvailable(w, r, max) == 0 <==> Wrapped(w + 1, max) == r) &&
            (ReadAvailable(w, r, max) == 0 <==> w == r)
    ensures w == Wrapped(r + ReadAvailable(w, r, max), max)
  {
    if w >= r {
      UnsignedNegative(w + 1 - r);
      assert (WORD - (w + 1 - r) + max) % WORD == max - 1 - (w - r) by { UnsignedOver(max - 1 - (w - r)); }
    }
  }

  lemma UnsignedNegative(n: int)
    requires 0 < n <= WORD
    ensures (-n) % WORD == WORD - n
  {
  }

  lemma UnsignedOver(n: nat)
    requires n < WORD
    ensures (WORD + n) % WORD == n
  {
  }

  // ---------- positions in the stream ----------

  /** The slot of the k-th value ever written. */
  function Slot(k: nat, max: nat): nat
    requires max > 0
  {
    k % max
  }

  lemma SlotStep(k: nat, n: nat, max: nat)
    requires max > 0 && n <= max
    ensures Slot(k, max) < max
    ensures Slot(k + n, max) == Wrapped(Slot(k, max) + n, max) || (n == max && Slot(k + n, max) == Slot(k, max))
  {
    var q, s := k / max, k % max;
    assert k == q * max + s;
    if s + n < max {
      ModIs(k + n, q, s + n, max);
    } else {
      ModIs(k + n, q + 1, s + n - max, max);
    }
  }

  lemma ModIs(x: nat, q: nat, s: nat, max: nat)
    requires s < max && x == q * max + s
    ensures x % max == s
  {
    var d: int := x / max - q;
    assert x == (x / max) * max + x % max;
    assert d * max == s - x % max;
    assert d > 0 ==> d * max >= max;
    assert d < 0 ==> d * max + max <= 0;
  }

  /** Two positions less than a ring apart never share a slot. */
  lemma SlotsDiffer(j: nat, k: nat, max: nat)
    requires j < k < j + max
    ensures Slot(j, max) != Slot(k, max)
  {
    SlotStep(j, k - j, max);
  }

  // ---------- one producer, one consumer ----------

  datatype Job = One(x: Data) | All(xs: seq<Data>) | Most(xs: seq<Data>)

  datatype Producer =
    | Waiting
    | Loading(job: Job)                      // has its own write index, is about to load the read index
    | Copying(xs: seq<Data>, copied: nat)    // the values that fit, and how many are in their slots

  datatype Consumer =
    | Resting
    | Asking(count: nat)                     // is about to load the write index
    | Taking(count: nat, taken: seq<Data>)   // the number decided on, and the values copied out so far

  /**
   input and output: every value made available by a store of the write index, every one given up by a store of the
   read index.
   */
  datatype State = State(
    max: nat, slots: seq<Data>, w: nat, r: nat,
    producer: Producer, consumer: Consumer,
    input: seq<Data>, output: seq<Data>)

  datatype Step =
    | Start(job: Job) | LoadRead | CopyIn | StoreWrite
    | Ask(count: nat) | LoadWrite | CopyOut | StoreRead

  predicate Enabled(s: State, step: Step) {
    match step
    case Start(_) => s.producer.Waiting?
    case LoadRead => s.producer.Loading?
    case CopyIn => s.producer.Copying? && s.producer.copied < |s.producer.xs|
    case StoreWrite => s.producer.Copying? && s.producer.copied == |s.producer.xs|
    case Ask(_) => s.consumer.Resting?
    case LoadWrite => s.consumer.Asking?
    case CopyOut => s.consumer.Taking? && |s.consumer.taken| < s.consumer.count
    case StoreRead => s.consumer.Taking? && |s.consumer.taken| == s.consumer.count
  }

  /** What the producer will copy, given the free room computed from the read index it loaded; None: it gives up. */
  function Accepted(w: nat, r: nat, max: nat, job: Job): Producer {
    match job
    case One(x) => if Wrapped(w + 1, max) == r then Waiting else Copying([x], 0)
    case All(xs) => if WriteAvailable(w, r, max) < |xs| then Waiting else Copying(xs, 0)
    case Most(xs) =>
      var avail := WriteAvailable(w, r, max);
      if avail == 0 then Waiting else Copying(if |xs| <= avail then xs else xs[..avail], 0)
  }

  /** The index to store after n more slots, as computed with the two sections of the copy. */
  function Advanced(i: nat, n: nat, max: nat): nat {
    if i + n > max then i + n - max else if i + n == max then 0 else i + n
  }

  function Next(s: State, step: Step): State
    requires Enabled(s, step)
  {
    match step
    case Start(job) => s.(producer := Loading(job))
    case LoadRead => s.(producer := Accepted(s.w, s.r, s.max, s.producer.job))
    case CopyIn =>
      var i := Wrapped(s.w + s.producer.copied, s.max);
      if i < |s.slots| then
        s.(slots := s.slots[i := s.producer.xs[s.producer.copied]],
            producer := Copying(s.producer.xs, s.producer.copied + 1))
      else s
    case StoreWrite =>
      s.(w := Advanced(s.w, |s.producer.xs|, s.max), input := s.input + s.producer.xs, producer := Waiting)
    case Ask(count) => s.(consumer := Asking(count))
    case LoadWrite =>
      var avail, count := ReadAvailable(s.w, s.r, s.max), s.consumer.count;
      s.(consumer := if avail == 0 then Resting else Taking(if count <= avail then count else avail, []))
    case CopyOut =>
      var i := Wrapped(s.r + |s.consumer.taken|, s.max);
      if i < |s.slots| then s.(consumer := Taking(s.consumer.count, s.consumer.taken + [s.slots[i]])) else s
    case StoreRead =>
      s.(r := Advanced(s.r, s.consumer.count, s.max), output := s.output + s.consumer.taken, consumer := Resting)
  }

  ghost predicate Empty(s: State) {
    && 2 <= s.max <= WORD && |s.slots| == s.max && s.w == 0 && s.r == 0
    && s.producer.Waiting? && s.consumer.Resting? && s.input == [] && s.output == []
  }

  // ---------- the invariant ----------

  /** The indices are the two stream lengths modulo the ring, and at most max - 1 values are in it. */
  ghost predicate IndicesOk(s: State) {
    && 2 <= s.max <= WORD && |s.slots| == s.max
    && s.w == Slot(|s.input|, s.max) && s.r == Slot(|s.output|, s.max)
    && |s.output| <= |s.input| <= |s.output| + s.max - 1
  }

  /** Slot of stream position k holds x. */
  ghost predicate Holds(s: State, k: nat, x: Data)
    requires s.max > 0
  {
    Slot(k, s.max) < |s.slots| && s.slots[Slot(k, s.max)] == x
  }

  ghost predicate SlotsOk(s: State)
    requires s.max > 0
  {
    forall k {:trigger s.input[k]} :: |s.output| <= k < |s.input| ==> Holds(s, k, s.input[k])
  }

  ghost predicate ProducerOk(s: State)
    requires s.max > 0
  {
    s.producer.Copying? ==>
      var xs, n := s.producer.xs, s.producer.copied;
      && n <= |xs| && |s.input| + |xs| <= |s.output| + s.max - 1
      && forall j {:trigger xs[j]} :: 0 <= j < n ==> Holds(s, |s.input| + j, xs[j])
  }

  ghost predicate ConsumerOk(s: State) {
    && s.output <= s.input
    && (s.consumer.Taking? ==>
          var n := |s.consumer.taken|;
          && n <= s.consumer.count && |s.output| + s.consumer.count <= |s.input|
          && s.consumer.taken == s.input[|s.output|..|s.output| + n])
  }

  ghost predicate Inv(s: State) {
    IndicesOk(s) && SlotsOk(s) && ProducerOk(s) && ConsumerOk(s)
  }

  /** From the indices alone: how much there is to read and room to write. */
  lemma Counts(s: State)
    requires IndicesOk(s)
    ensures s.w < s.max && s.r < s.max
    ensures ReadAvailable(s.w, s.r, s.max) == |s.input| - |s.output|
    ensures WriteAvailable(s.w, s.r, s.max) == s.max - 1 - (|s.input| - |s.output|)
    ensures Wrapped(s.w + 1, s.max) == s.r <==> |s.input| - |s.output| == s.max - 1
  {
    var d := |s.input| - |s.output|;
    SlotStep(|s.output|, d, s.max);
    SlotStep(|s.input|, 0, s.max);
    hide Slot;
    AvailableComplement(s.w, s.r, s.max);
    hide WriteAvailable;
    if s.w < s.r {
      UnsignedSmall(s.w + s.max - s.r);
    }
  }

  lemma UnsignedSmall(n: nat)
    requires n < WORD
    ensures n % WORD == n
  {
  }

  lemma AdvancedSlot(k: nat, n: nat, max: nat)
    requires max > 0 && n < max
    ensures Advanced(Slot(k, max), n, max) == Slot(k + n, max)
  {
    SlotStep(k, n, max);
  }

  lemma LoadReadKeeps(s: State)
    requires Inv(s) && Enabled(s, LoadRead)
    ensures Inv(Next(s, LoadRead))
  {
    Counts(s);
    hide Slot, WriteAvailable, Holds;
  }

  lemma CopyInKeeps(s: State)
    requires Inv(s) && Enabled(s, CopyIn)
    ensures Inv(Next(s, CopyIn)) && Next(s, CopyIn).producer == Copying(s.producer.xs, s.producer.copied + 1)
  {
    var at := |s.input| + s.producer.copied;
    SlotStep(|s.input|, s.producer.copied, s.max);
    var t := Next(s, CopyIn);
    assert t.slots == s.slots[Slot(at, s.max) := s.producer.xs[s.producer.copied]];
    forall k, x | |s.output| <= k < at && Holds(s, k, x) ensures Holds(t, k, x) {
      SlotsDiffer(k, at, s.max);
    }
    hide Slot;
  }

  lemma StoreWriteKeeps(s: State)
    requires Inv(s) && Enabled(s, StoreWrite)
    ensures Inv(Next(s, StoreWrite))
  {
    AdvancedSlot(|s.input|, |s.producer.xs|, s.max);
    hide Slot, Advanced;
    var t := Next(s, StoreWrite);
    forall k | |t.output| <= k < |t.input| ensures Holds(t, k, t.input[k]) {
      if k < |s.input| {
        assert Holds(s, k, s.input[k]);
      } else {
        var j := k - |s.input|;
        assert Holds(s, |s.input| + j, s.producer.xs[j]);
      }
    }
    if s.consumer.Taking? {
      var n := |s.consumer.taken|;
      assert t.input[|s.output|..|s.output| + n] == s.input[|s.output|..|s.output| + n];
    }
  }

  lemma LoadWriteKeeps(s: State)
    requires Inv(s) && Enabled(s, LoadWrite)
    ensures Inv(Next(s, LoadWrite))
  {
    Counts(s);
    hide Slot, ReadAvailable, Holds;
  }

  lemma CopyOutKeeps(s: State)
    requires Inv(s) && Enabled(s, CopyOut)
    ensures Inv(Next(s, CopyOut)) && |Next(s, CopyOut).consumer.taken| == |s.consumer.taken| + 1
  {
    var n := |s.consumer.taken|;
    SlotStep(|s.output|, n, s.max);
    assert Holds(s, |s.output| + n, s.input[|s.output| + n]);
    assert s.input[|s.output|..|s.output| + n + 1] == s.input[|s.output|..|s.output| + n] + [s.input[|s.output| + n]];
    hide Slot;
  }

  lemma StoreReadKeeps(s: State)
    requires Inv(s) && Enabled(s, StoreRead)
    ensures Inv(Next(s, StoreRead))
  {
    AdvancedSlot(|s.output|, s.consumer.count, s.max);
    hide Slot, Advanced;
  }

  lemma StepKeeps(s: State, step: Step)
    requires Inv(s) && Enabled(s, step)
    ensures Inv(Next(s, step))
  {
    match step
    case LoadRead => LoadReadKeeps(s);
    case CopyIn => CopyInKeeps(s);
    case StoreWrite => StoreWriteKeeps(s);
    case LoadWrite => LoadWriteKeeps(s);
    case CopyOut => CopyOutKeeps(s);
    case StoreRead => StoreReadKeeps(s);
    case _ => hide Slot, Holds;
  }

  // ---------- what the two sides can rely on ----------

  ghost predicate Reached(start: State, steps: seq<Step>, s: State)
    decreases |steps|
  {
    if steps == [] then s == start
    else
      var last := |steps| - 1;
      exists p :: Reached(start, steps[..last], p) && Enabled(p, steps[last]) && s == Next(p, steps[last])
  }

  /**
   In every interleaving, what has come out is a prefix of what has gone in, in order, and the ring never overfills.
   */
  lemma {:induction false} FirstInFirstOut(start: State, steps: seq<Step>, s: State)
    requires Empty(start) && Reached(start, steps, s)
    ensures Inv(s) && s.output == s.input[..|s.output|] && |s.input| - |s.output| <= s.max - 1 && s.max == start.max
    decreases |steps|
  {
    if steps != [] {
      var last := |steps| - 1;
      var p :| Reached(start, steps[..last], p) && Enabled(p, steps[last]) && s == Next(p, steps[last]);
      FirstInFirstOut(start, steps[..last], p);
      hide IndicesOk, SlotsOk, ProducerOk;
      StepKeeps(p, steps[last]);
      RoomLeft(s);
    } else {
      hide Reached;
    }
  }

  lemma RoomLeft(s: State)
    requires Inv(s)
    ensures |s.input| - |s.output| <= s.max - 1
  {
  }

  /** The slots a job needs at least. */
  function Need(job: Job): nat {
    match job
    case One(_) => 1
    case All(xs) => |xs|
    case Most(_) => 1
  }

  /**
   The load of the read index decides, exactly: a job is refused iff the ring, as it is at that moment, lacks the
   room.  An accepted One or All goes in whole, a Most up to the room there is.
   */
  lemma RefusedIffNoRoom(s: State)
    requires Inv(s) && Enabled(s, LoadRead)
    ensures var job, room, t := s.producer.job, s.max - 1 - (|s.input| - |s.output|), Next(s, LoadRead);
            && (t.producer.Waiting? <==> room < Need(job))
            && (t.producer.Copying? ==>
                  match job
                  case One(x) => t.producer.xs == [x]
                  case All(xs) => t.producer.xs == xs
                  case Most(xs) => t.producer.xs <= xs && (|t.producer.xs| == |xs| || |t.producer.xs| == room))
  {
    Counts(s);
    hide Slot, WriteAvailable, Holds;
  }

  /** A dequeue returns nothing iff the ring is empty when it loads the write index; else as much as it can. */
  lemma NothingIffEmpty(s: State)
    requires Inv(s) && Enabled(s, LoadWrite)
    ensures var held, t := |s.input| - |s.output|, Next(s, LoadWrite);
            && (t.consumer.Resting? <==> held == 0)
            && (t.consumer.Taking? ==> t.consumer.count == if s.consumer.count <= held then s.consumer.count else held)
  {
    Counts(s);
    hide Slot, ReadAvailable, Holds;
  }

  /** Two stream positions less than a ring apart, reached by wrapping from the two indices. */
  lemma ApartInRing(a: nat, b: nat, input: nat, output: nat, max: nat)
    requires max > 0 && input <= a < input + max && output <= b < output + max && b < a < b + max
    ensures Wrapped(Slot(input, max) + (a - input), max) != Wrapped(Slot(output, max) + (b - output), max)
  {
    SlotStep(input, a - input, max);
    SlotStep(output, b - output, max);
    SlotsDiffer(b, a, max);
    hide Slot;
  }

  /** While both sides copy, no slot is written that is being read: the stale index only makes a side more careful. */
  lemma CopiesNeverOverlap(s: State, i: nat, j: nat)
    requires Inv(s) && s.producer.Copying? && s.consumer.Taking? && i < |s.producer.xs| && j < s.consumer.count
    ensures Wrapped(s.w + i, s.max) != Wrapped(s.r + j, s.max)
  {
    hide Slot, Holds, Wrapped;
    ApartInRing(|s.input| + i, |s.output| + j, |s.input|, |s.output|, s.max);
  }

  /** A dequeue hands over the oldest values held, in order. */
  lemma DequeuedAreOldest(s: State)
    requires Inv(s) && Enabled(s, StoreRead)
    ensures var t := Next(s, StoreRead);
            && s.consumer.taken == s.input[|s.output|..|s.output| + s.consumer.count]
            && t.input == s.input && t.input[|t.output|..] == s.input[|s.output|..][s.consumer.count..]
  {
    hide Slot, Holds;
  }
}
