/**
 The ring as it is coded, over an array with memcpy in one or two sections, and the publisher and subscriber of a
 bus channel on top of it.
 */
module Bus {
  import opened Ring
  import opened Sequences

  /** The values between the read and the write index, oldest first. */
  function Held(slots: seq<Data>, w: nat, r: nat): seq<Data>
    requires w < |slots| && r < |slots| <= WORD
  {
    seq(ReadAvailable(w, r, |slots|), i requires 0 <= i < ReadAvailable(w, r, |slots|) =>
        slots[InRing(w, r, |slots|, i)])
  }

  /** The slot of the i-th value held. */
  function InRing(w: nat, r: nat, max: nat, i: nat): (k: nat)
    requires w < max && r < max <= WORD && i < ReadAvailable(w, r, max)
    ensures k < max
  {
    Available(w, r, max);
    Wrapped(r + i, max)
  }

  lemma Available(w: nat, r: nat, max: nat)
    requires w < max && r < max <= WORD
    ensures ReadAvailable(w, r, max) == if w >= r then w - r else w + max - r
    ensures WriteAvailable(w, r, max) == max - 1 - ReadAvailable(w, r, max)
  {
    AvailableComplement(w, r, max);
    if w < r {
      UnsignedSmall(w + max - r);
    }
  }

  class RingBuffer {
    const slots: array<Data>
    var writeIndex: nat
    var readIndex: nat

    ghost predicate Valid()
      reads this
    {
      2 <= slots.Length <= WORD && writeIndex < slots.Length && readIndex < slots.Length
    }

    ghost function Contents(): (s: seq<Data>)
      requires Valid()
      reads this, slots
      ensures |s| <= slots.Length - 1
    {
      Available(writeIndex, readIndex, slots.Length);
      Held(slots[..], writeIndex, readIndex)
    }

    constructor (size: nat)
      requires 1 <= size < WORD
      ensures Valid() && Contents() == [] && slots.Length == size + 1 && fresh(slots)
    {
      slots := new Data[size + 1];
      writeIndex, readIndex := 0, 0;
    }

    method Enqueue(x: Data) returns (ok: bool)
      requires Valid()
      modifies this`writeIndex, slots
      ensures Valid() && ok == (|old(Contents())| < slots.Length - 1)
      ensures Contents() == if ok then old(Contents()) + [x] else old(Contents())
    {
      Available(writeIndex, readIndex, slots.Length);
      AvailableComplement(writeIndex, readIndex, slots.Length);
      var next := NextIndex(writeIndex, slots.Length);
      if next == readIndex {
        return false;
      }
      Available(next, readIndex, slots.Length);
      slots[writeIndex] := x;
      writeIndex := next;
      ok := true;
    }

    /** memcpy into the slots from index to. */
    method CopyIn(to: nat, xs: seq<Data>)
      requires to + |xs| <= slots.Length
      modifies slots
      ensures slots[..] == Overwritten(old(slots[..]), to, xs)
    {
      ghost var was := slots[..];
      assert Overwritten(was, to, xs[..0]) == was;
      for i := 0 to |xs|
        invariant slots[..] == Overwritten(was, to, xs[..i])
      {
        ghost var before := slots[..];
        slots[to + i] := xs[i];
        assert slots[..] == before[to + i := xs[i]];
        OverwrittenNext(was, to, xs, i);
        hide Overwritten;
      }
      assert xs[..|xs|] == xs;
    }

    /** enqueue of several values: all of them, or (all false) as many as there is room for. */
    method EnqueueMany(xs: seq<Data>, all: bool) returns (n: nat)
      requires Valid()
      modifies this`writeIndex, slots
      ensures Valid() && n <= |xs| && Contents() == old(Contents()) + xs[..n]
      ensures var room := slots.Length - 1 - |old(Contents())|;
              n == if |xs| <= room then |xs| else if all then 0 else room
    {
      var max := slots.Length;
      Available(writeIndex, readIndex, max);
      var avail := WriteAvailable(writeIndex, readIndex, max);
      ghost var was := Contents();
      assert avail == max - 1 - |was|;
      hide WriteAvailable;
      n := |xs|;
      if all {
        if avail < n {
          return 0;
        }
      } else {
        if avail == 0 {
          return 0;
        }
        n := if n <= avail then n else avail;
      }
      HeldGrows(slots[..], writeIndex, readIndex, xs[..n]);
      hide ReadAvailable, Held, Written;
      var w := CopyInSections(xs[..n]);
      writeIndex := w;
      assert Contents() == was + xs[..n];
    }

    /** The copy in one or two sections, and the index behind it. */
    method CopyInSections(xs: seq<Data>) returns (w: nat)
      requires Valid() && |xs| < slots.Length
      modifies slots
      ensures slots[..] == Written(old(slots[..]), writeIndex, xs) && w == Advanced(writeIndex, |xs|, slots.Length)
    {
      var max := slots.Length;
      ghost var was := slots[..];
      w := writeIndex + |xs|;
      hide Overwritten;
      if writeIndex + |xs| > max {
        var count0 := max - writeIndex;
        CopyIn(writeIndex, xs[..count0]);
        CopyIn(0, xs[count0..]);
        w := w - max;
      } else {
        CopyIn(writeIndex, xs);
        if w == max {
          w := 0;
        }
      }
    }

    method Dequeue(count: nat) returns (out: seq<Data>)
      requires Valid()
      modifies this`readIndex
      ensures Valid() && out + Contents() == old(Contents())
      ensures |out| == if count <= |old(Contents())| then count else |old(Contents())|
    {
      var max := slots.Length;
      Available(writeIndex, readIndex, max);
      var avail := ReadAvailable(writeIndex, readIndex, max);
      ghost var was := Contents();
      assert avail == |was|;
      hide WriteAvailable;
      if avail == 0 {
        return [];
      }
      var n := if count <= avail then count else avail;
      HeldShrinks(slots[..], writeIndex, readIndex, n);
      hide ReadAvailable, Held;
      var r;
      out, r := CopyOutSections(n);
      hide Taken, Advanced;
      readIndex := r;
      assert out + Contents() == was;
    }

    /** The values in one or two sections, and the index behind them. */
    method CopyOutSections(n: nat) returns (out: seq<Data>, r: nat)
      requires Valid() && n < slots.Length
      ensures out == Taken(slots[..], readIndex, n) && r == Advanced(readIndex, n, slots.Length)
    {
      var max := slots.Length;
      r := readIndex + n;
      if readIndex + n > max {
        var count0 := max - readIndex;
        out := slots[readIndex..] + slots[..n - count0];
        r := r - max;
      } else {
        out := slots[readIndex..readIndex + n];
        if r == max {
          r := 0;
        }
      }
    }
  }

  /** The array after a copy in one or two sections. */
  function Written(s: seq<Data>, w: nat, xs: seq<Data>): seq<Data>
    requires w < |s| && |xs| < |s|
  {
    if w + |xs| > |s| then
      var count0 := |s| - w;
      Overwritten(Overwritten(s, w, xs[..count0]), 0, xs[count0..])
    else Overwritten(s, w, xs)
  }

  /** The sections cover exactly the slots from w on, around the end of the array. */
  lemma WrittenAt(s: seq<Data>, w: nat, xs: seq<Data>, k: nat)
    requires w < |s| && |xs| < |s| && k < |s|
    ensures |Written(s, w, xs)| == |s|
    ensures Written(s, w, xs)[k] == if w <= k < w + |xs| then xs[k - w]
                                    else if k + |s| < w + |xs| then xs[k + |s| - w] else s[k]
  {
    hide Overwritten;
    if w + |xs| > |s| {
      var count0 := |s| - w;
      OverwrittenAt(s, w, xs[..count0], k);
      OverwrittenAt(Overwritten(s, w, xs[..count0]), 0, xs[count0..], k);
    } else {
      OverwrittenAt(s, w, xs, k);
    }
  }

  /** After the copy the values held are the old ones and the new ones behind them. */
  lemma HeldGrows(s: seq<Data>, w: nat, r: nat, xs: seq<Data>)
    requires w < |s| && r < |s| <= WORD && |xs| <= WriteAvailable(w, r, |s|)
    ensures |xs| < |s| && |Written(s, w, xs)| == |s| && Advanced(w, |xs|, |s|) < |s|
    ensures Held(Written(s, w, xs), Advanced(w, |xs|, |s|), r) == Held(s, w, r) + xs
  {
    MoreAvailable(w, r, |s|, |xs|);
    WrittenAt(s, w, xs, 0);
    var v, t := Advanced(w, |xs|, |s|), Written(s, w, xs);
    hide ReadAvailable, WriteAvailable, Written, Advanced;
    forall i | 0 <= i < |Held(t, v, r)| ensures Held(t, v, r)[i] == (Held(s, w, r) + xs)[i] {
      HeldGrowsAt(s, w, r, xs, i);
    }
  }

  lemma MoreAvailable(w: nat, r: nat, max: nat, n: nat)
    requires w < max && r < max <= WORD && n <= WriteAvailable(w, r, max)
    ensures n < max && Advanced(w, n, max) < max
    ensures ReadAvailable(Advanced(w, n, max), r, max) == ReadAvailable(w, r, max) + n
  {
    Available(w, r, max);
    hide ReadAvailable, WriteAvailable;
    Available(Advanced(w, n, max), r, max);
  }

  lemma HeldGrowsAt(s: seq<Data>, w: nat, r: nat, xs: seq<Data>, i: nat)
    requires w < |s| && r < |s| <= WORD && |xs| <= WriteAvailable(w, r, |s|)
    requires i < ReadAvailable(w, r, |s|) + |xs|
    ensures |xs| < |s| && |Written(s, w, xs)| == |s| && Advanced(w, |xs|, |s|) < |s|
    ensures i < ReadAvailable(Advanced(w, |xs|, |s|), r, |s|)
    ensures Held(Written(s, w, xs), Advanced(w, |xs|, |s|), r)[i] == (Held(s, w, r) + xs)[i]
  {
    var k, n := Wrapped(r + i, |s|), ReadAvailable(w, r, |s|);
    MoreAvailable(w, r, |s|, |xs|);
    SlotOf(w, r, |s|, |xs|, i);
    WrittenAt(s, w, xs, k);
    hide ReadAvailable, WriteAvailable, Written, Advanced, Wrapped, Held;
    HeldAt(Written(s, w, xs), Advanced(w, |xs|, |s|), r, i);
    if i < n {
      HeldAt(s, w, r, i);
    } else {
      HeldLength(s, w, r);
    }
  }

  lemma HeldLength(s: seq<Data>, w: nat, r: nat)
    requires w < |s| && r < |s| <= WORD
    ensures |Held(s, w, r)| == ReadAvailable(w, r, |s|)
  {
  }

  lemma HeldAt(s: seq<Data>, w: nat, r: nat, i: nat)
    requires w < |s| && r < |s| <= WORD && i < ReadAvailable(w, r, |s|)
    ensures |Held(s, w, r)| == ReadAvailable(w, r, |s|)
    ensures Wrapped(r + i, |s|) < |s| && Held(s, w, r)[i] == s[Wrapped(r + i, |s|)]
  {
    assert InRing(w, r, |s|, i) == Wrapped(r + i, |s|);
    hide ReadAvailable, Wrapped;
  }

  /** The i-th slot from r on is behind those held, if it is one of the m slots from w on. */
  lemma SlotOf(w: nat, r: nat, max: nat, m: nat, i: nat)
    requires w < max && r < max <= WORD && m <= WriteAvailable(w, r, max)
    requires i < ReadAvailable(w, r, max) + m
    ensures var k, n := Wrapped(r + i, max), ReadAvailable(w, r, max);
            && k < max
            && (i < n ==> !(w <= k < w + m) && w + m <= k + max)
            && (n <= i ==> (w <= k < w + m && k - w == i - n) || (k < w && k + max < w + m && k + max - w == i - n))
  {
    Available(w, r, max);
    hide ReadAvailable, WriteAvailable;
  }

  /** The values taken out in one or two sections. */
  function Taken(s: seq<Data>, r: nat, n: nat): seq<Data>
    requires r < |s| && n < |s|
  {
    if r + n > |s| then s[r..] + s[..n - (|s| - r)] else s[r..r + n]
  }

  lemma HeldShrinks(s: seq<Data>, w: nat, r: nat, n: nat)
    requires w < |s| && r < |s| <= WORD && n <= ReadAvailable(w, r, |s|)
    ensures n < |s| && Advanced(r, n, |s|) < |s| && |Taken(s, r, n)| == n
    ensures Taken(s, r, n) + Held(s, w, Advanced(r, n, |s|)) == Held(s, w, r)
  {
    var t := Advanced(r, n, |s|);
    Available(w, r, |s|);
    Available(w, t, |s|);
    hide ReadAvailable, WriteAvailable;
  }

  // ---------- publisher and subscriber ----------

  class Channel {
    const ring: RingBuffer
    var sendBuffer: seq<Data>       // what is prepared or could not be sent
    ghost var received: seq<Data>   // history: what the subscriber took out

    ghost predicate Valid()
      reads this, ring
    {
      ring.Valid()
    }

    ghost function View(): Pipeline
      requires Valid()
      reads this, ring, ring.slots
    {
      Pipeline(ring.slots.Length - 1, sendBuffer, ring.Contents(), received)
    }

    constructor (size: nat)
      requires 1 <= size < WORD
      ensures Valid() && View() == Pipeline(size, [], [], []) && fresh(ring) && fresh(ring.slots)
    {
      ring := new RingBuffer(size);
      sendBuffer, received := [], [];
    }

    method Prepare(data: Data)
      requires Valid()
      modifies this`sendBuffer
      ensures Valid() && View() == Prepared(old(View()), data)
    {
      sendBuffer := sendBuffer + [data];
    }

    method PublishOne(data: Data, storeOnFail: bool) returns (sent: bool)
      requires Valid()
      modifies this`sendBuffer, ring`writeIndex, ring.slots
      ensures Valid() && View() == PublishedOne(old(View()), data, storeOnFail) && sent == !Full(old(View()))
    {
      sent := ring.Enqueue(data);
      if !sent && storeOnFail {
        sendBuffer := sendBuffer + [data];
      }
    }

    /**
     The left-over values would be moved to the front by a memcpy that counts bytes, not values; it only runs when
     nothing was sent, where it copies the buffer onto itself.
     */
    method PublishAll() returns (leftToSend: nat)
      requires Valid()
      modifies this`sendBuffer, ring`writeIndex, ring.slots
      ensures Valid() && View() == PublishedAll(old(View())) && leftToSend == |sendBuffer|
    {
      var dataToSendSize := |sendBuffer|;
      if dataToSendSize == 0 {
        return 0;
      }
      var sent := ring.EnqueueMany(sendBuffer, true);
      leftToSend := dataToSendSize - sent;
      if leftToSend > 0 {
        assert sent == 0;
      }
      sendBuffer := sendBuffer[..leftToSend];
    }

    method ReadOne() returns (found: bool)
      requires Valid()
      modifies this`received, ring`readIndex
      ensures Valid() && View() == ReadUpTo(old(View()), 1) && found == (old(View()).held != [])
    {
      var out := ring.Dequeue(1);
      received := received + out;
      found := |out| == 1;
    }

    method ReadAll() returns (size: nat)
      requires Valid()
      modifies this`received, ring`readIndex
      ensures Valid() && View() == ReadUpTo(old(View()), ring.slots.Length - 1) && View().held == [] &&
              size == |old(View()).held|
    {
      var out := ring.Dequeue(ring.slots.Length - 1);
      received := received + out;
      size := |out|;
    }
  }

  datatype Pipeline = Pipeline(size: nat, waiting: seq<Data>, held: seq<Data>, received: seq<Data>)

  predicate Full(p: Pipeline) {
    |p.held| >= p.size
  }

  function Prepared(p: Pipeline, x: Data): Pipeline {
    p.(waiting := p.waiting + [x])
  }

  function PublishedOne(p: Pipeline, x: Data, storeOnFail: bool): Pipeline {
    if !Full(p) then p.(held := p.held + [x])
    else if storeOnFail then Prepared(p, x)
    else p
  }

  /** All or nothing. */
  function PublishedAll(p: Pipeline): Pipeline {
    if |p.held| + |p.waiting| <= p.size then p.(held := p.held + p.waiting, waiting := []) else p
  }

  function ReadUpTo(p: Pipeline, n: nat): Pipeline {
    var k := if n <= |p.held| then n else |p.held|;
    p.(held := p.held[k..], received := p.received + p.held[..k])
  }

  datatype Call = Prepare(x: Data) | PublishOne(x: Data, storeOnFail: bool) | PublishAll | ReadOne | ReadAll

  function After(p: Pipeline, c: Call): Pipeline {
    match c
    case Prepare(x) => Prepared(p, x)
    case PublishOne(x, storeOnFail) => PublishedOne(p, x, storeOnFail)
    case PublishAll => PublishedAll(p)
    case ReadOne => ReadUpTo(p, 1)
    case ReadAll => ReadUpTo(p, p.size)
  }

  function Run(p: Pipeline, calls: seq<Call>): Pipeline
    decreases |calls|
  {
    if calls == [] then p else Run(After(p, calls[0]), calls[1..])
  }

  function OfferedBy(p: Pipeline, c: Call): seq<Data> {
    match c
    case Prepare(x) => [x]
    case PublishOne(x, storeOnFail) => if Full(p) && !storeOnFail then [] else [x]
    case _ => []
  }

  /** The values the calls hand over to the channel, in the order of the calls. */
  function Offered(p: Pipeline, calls: seq<Call>): seq<Data>
    decreases |calls|
  {
    if calls == [] then [] else OfferedBy(p, calls[0]) + Offered(After(p, calls[0]), calls[1..])
  }

  ghost function Everything(p: Pipeline): multiset<Data> {
    multiset(p.received) + multiset(p.held) + multiset(p.waiting)
  }

  lemma ReadKeepsAll(p: Pipeline, n: nat)
    ensures Everything(ReadUpTo(p, n)) == Everything(p)
  {
    var k := if n <= |p.held| then n else |p.held|;
    assert p.held == p.held[..k] + p.held[k..];
  }

  lemma CallKeepsAll(p: Pipeline, c: Call)
    ensures Everything(After(p, c)) == Everything(p) + multiset(OfferedBy(p, c))
  {
    match c
    case ReadOne => ReadKeepsAll(p, 1);
    case ReadAll => ReadKeepsAll(p, p.size);
    case _ =>
  }

  lemma CallKeepsSize(p: Pipeline, c: Call)
    requires |p.held| <= p.size
    ensures |After(p, c).held| <= p.size == After(p, c).size
  {
  }

  lemma Union(a: seq<Data>, b: seq<Data>)
    ensures multiset(a + b) == multiset(a) + multiset(b)
  {
  }

  /** Over any calls nothing is lost and nothing is doubled, and the ring holds at most what it is made for. */
  lemma {:induction false} NothingLost(p: Pipeline, calls: seq<Call>)
    requires |p.held| <= p.size
    ensures Everything(Run(p, calls)) == Everything(p) + multiset(Offered(p, calls))
    ensures |Run(p, calls).held| <= p.size == Run(p, calls).size
    decreases |calls|
  {
    if calls != [] {
      hide Everything, OfferedBy, Full;
      var q := After(p, calls[0]);
      CallKeepsAll(p, calls[0]);
      CallKeepsSize(p, calls[0]);
      hide After;
      NothingLost(q, calls[1..]);
      Union(OfferedBy(p, calls[0]), Offered(q, calls[1..]));
    }
  }

  function InOrder(p: Pipeline): seq<Data> {
    p.received + p.held + p.waiting
  }

  /** Publishing one value keeps the order in which values were offered, unless it goes in past others that wait. */
  lemma OvertakesIffOthersWait(p: Pipeline, x: Data, storeOnFail: bool)
    requires x !in p.waiting && (Full(p) ==> storeOnFail)
    ensures InOrder(PublishedOne(p, x, storeOnFail)) == InOrder(p) + [x] <==> Full(p) || p.waiting == []
  {
    var q := PublishedOne(p, x, storeOnFail);
    var n := |p.received| + |p.held|;
    if !Full(p) && p.waiting != [] {
      assert InOrder(q)[n] == x && (InOrder(p) + [x])[n] == p.waiting[0];
    }
  }

  /** More values than the ring can hold are never sent, however often publishAll is called or the ring is read. */
  lemma {:induction false} TooManyNeverGo(p: Pipeline, calls: seq<Call>)
    requires |p.waiting| > p.size
    ensures p.waiting <= Run(p, calls).waiting
    decreases |calls|
  {
    if calls != [] {
      TooManyNeverGo(After(p, calls[0]), calls[1..]);
    }
  }

  /** The values that wait can be sent at all iff an empty ring has room for them. */
  lemma EverSentIff(p: Pipeline)
    requires |p.held| <= p.size
    ensures (exists calls :: Run(p, calls).waiting == []) <==> |p.waiting| <= p.size
  {
    if |p.waiting| <= p.size {
      ReadThenPublish(p);
    } else if calls :| Run(p, calls).waiting == [] {
      TooManyNeverGo(p, calls);
    }
  }

  /** Emptying the ring and publishing again sends what fits an empty ring. */
  lemma ReadThenPublish(p: Pipeline)
    requires |p.held| <= p.size && |p.waiting| <= p.size
    ensures Run(p, [ReadAll, PublishAll])
         == p.(waiting := [], held := p.waiting, received := p.received + p.held)
  {
    var q := p.(held := [], received := p.received + p.held);
    assert After(p, ReadAll) == q by {
      assert p.held[|p.held|..] == [] && p.held[..|p.held|] == p.held;
    }
    assert After(q, PublishAll) == q.(waiting := [], held := p.waiting) by {
      assert [] + p.waiting == p.waiting;
    }
    hide After;
    var calls := [ReadAll, PublishAll];
    assert calls[1..] == [PublishAll] && [PublishAll][1..] == [];
    assert Run(p, calls) == Run(q, [PublishAll]) == Run(After(q, PublishAll), []);
  }

  /** What publishAll is documented to do: send all, or the first ones until the ring is full. */
  function SentAsFits(p: Pipeline): Pipeline
    requires |p.held| <= p.size
  {
    var room := p.size - |p.held|;
    var n := if |p.waiting| <= room then |p.waiting| else room;
    p.(held := p.held + p.waiting[..n], waiting := p.waiting[n..])
  }

  /** It does so iff everything fits, or nothing. */
  lemma DocumentedIff(p: Pipeline)
    requires |p.held| <= p.size
    ensures PublishedAll(p) == SentAsFits(p) <==> |p.held| + |p.waiting| <= p.size || Full(p)
  {
    var q, room := SentAsFits(p), p.size - |p.held|;
    if |p.held| + |p.waiting| > p.size {
      assert |q.held| == |p.held| + room;
      assert room == 0 ==> q.held == p.held && q.waiting == p.waiting;
    }
  }

  /** It may well do something else: three values on a new channel for two. */
  lemma DocumentedFails(a: Data, b: Data, c: Data)
    ensures var p := Run(Pipeline(2, [], [], []), [Prepare(a), Prepare(b), Prepare(c)]);
            && p == Pipeline(2, [a, b, c], [], [])
            && PublishedAll(p) == p && SentAsFits(p) == Pipeline(2, [c], [a, b], [])
  {
    var p0 := Pipeline(2, [], [], []);
    var x, y, z := Prepare(a), Prepare(b), Prepare(c);
    assert [x, y, z][1..] == [y, z] && [y, z][1..] == [z] && [z][1..] == [];
    assert After(p0, x) == Pipeline(2, [a], [], []);
    assert After(Pipeline(2, [a], [], []), y) == Pipeline(2, [a, b], [], []);
    assert After(Pipeline(2, [a, b], [], []), z) == Pipeline(2, [a, b, c], [], []);
    assert Run(p0, [x, y, z]) == Run(Pipeline(2, [a], [], []), [y, z]) == Run(Pipeline(2, [a, b], [], []), [z])
        == Run(Pipeline(2, [a, b, c], [], []), []);
    assert [a, b, c][..2] == [a, b] && [a, b, c][2..] == [c] && [] + [a, b] == [a, b];
  }
}
