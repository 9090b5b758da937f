/** What a pass does with the events cached when it begins: they are handed over, or given back if nobody reads. */
module ParallelWrites {
  import opened Parallel
  import opened ParallelSafety
  import opened ParallelRuns
  import opened ParallelPasses
  import P = ChannelPayload
  import G = ChannelPages

  /** The pass has not come to the link yet, or is at it. */
  predicate Before(pc: Pc, peer: nat) {
    pc.AtRead? || pc.AtCheck? || (pc.AtWrite? && pc.i <= peer)
  }

  /** It has, and has not yet locked what it wrote. */
  predicate Behind(pc: Pc, peer: nat) {
    (pc.AtWrite? && pc.i > peer) || pc.Unlock? || pc.Lock?
  }

  /** The locking is done. */
  predicate Over(pc: Pc) {
    pc.Fail? || pc.User?
  }

  /** What a cache holds: events, and a request that the reader look for undelivered ones. */
  datatype Cached = Cached(events: seq<P.Event>, check: bool) {
    predicate Some() { events != [] || check }
  }

  function CachedIn(k: Link): Cached {
    Cached(k.chan.cache.toBeDelivered, k.chan.cache.check)
  }

  predicate InCache(k: Link, cached: Cached) {
    cached.events <= k.chan.cache.toBeDelivered && (cached.check ==> k.chan.cache.check)
  }

  predicate Carries(k: Link, cached: Cached) {
    cached.events <= k.chan.area.toBeDelivered && (cached.check ==> k.chan.area.check)
  }

  /** It is in the cache still. */
  predicate Waits(n: Node, peer: nat, k: Link, cached: Cached) {
    peer < |n.wside| && !n.dying && Before(n.pc, peer) && !k.writeLocked && InCache(k, cached)
  }

  /** They are in the area, which is about to be locked. */
  predicate Handed(n: Node, peer: nat, k: Link, cached: Cached) {
    && peer < |n.wside| && !n.dying && Behind(n.pc, peer) && n.wside[peer].ToLock?
    && !k.writeLocked && !k.chan.area.delivered && Carries(k, cached)
  }

  /** They went back to the actors that pushed them. */
  predicate GivenBack(n: Node, peer: nat, k: Link, cached: Cached) {
    && peer < |n.wside| && !n.dying && (Behind(n.pc, peer) || Over(n.pc)) && !n.wside[peer].ToLock?
    && forall e :: e in cached.events ==> e in k.chan.hist.givenBack
  }

  /** Read from now on only by a reader that finds the lock. */
  predicate LockedWith(k: Link, cached: Cached) {
    k.writeLocked && Carries(k, cached)
  }

  lemma PushGrows(c: P.Channel, size: nat, constructed: bool)
    ensures var d := P.Push(c, size, constructed);
            && c.cache.toBeDelivered <= d.cache.toBeDelivered && d.cache.check == c.cache.check && d.area == c.area &&
                d.hist.givenBack == c.hist.givenBack
  {
  }

  /** What the node's own step may make of it. */
  ghost predicate Follows(l: Local, m: Local, p: nat, cached: Cached)
    requires p < |l.node.wside| && p < |m.node.wside|
  {
    || (Waits(m.node, p, m.out, cached)
        && (m.node.wside[p].Writing? ==> l.node.wside[p].Writing? || l.out.readerActive)
        && (m.node.wside[p].Failing? ==> l.node.wside[p].Failing? || !l.out.readerActive))
    || (l.node.wside[p].Writing? && Handed(m.node, p, m.out, cached))
    || (l.node.wside[p].Failing? && GivenBack(m.node, p, m.out, cached))
  }

  lemma {:induction false} WritingWaits(size: nat, id: nat, p: nat, l: Local, act: Action, cached: Cached)
    requires act.FinishWrite? || act.FinishFailed?
    requires Shaped(size, id, p, l.node) && Act(size, id, p, l, act).Some? && NodeInv(size, id, l.node)
    requires Waits(l.node, p, l.out, cached) && cached.Some() && Signalled(ViewOf(l.node, p), l.out)
    ensures var m := Act(size, id, p, l, act).value; p < |m.node.wside| && Follows(l, m, p, cached)
  {
    hide P.Push, P.Read, P.Restarted, P.HandedOver, P.Marked, P.Bounced, P.LiveUnread, P.LivePending, Increasing,
        UnlockBound, LockBound;
  }

  lemma {:induction false} PushingWaits(size: nat, id: nat, p: nat, l: Local, act: Action, cached: Cached)
    requires act.Push?
    requires Shaped(size, id, p, l.node) && Act(size, id, p, l, act).Some? && NodeInv(size, id, l.node)
    requires Waits(l.node, p, l.out, cached) && cached.Some() && Signalled(ViewOf(l.node, p), l.out)
    ensures var m := Act(size, id, p, l, act).value; p < |m.node.wside| && Follows(l, m, p, cached)
  {
    hide P.Push, P.Read, P.Restarted, P.Write, P.WriteFailed, Increasing, UnlockBound, LockBound;
    PushGrows(l.out.chan, act.sz, act.constructed);
  }

  lemma {:induction false} OtherwiseWaits(size: nat, id: nat, p: nat, l: Local, act: Action, cached: Cached)
    requires !act.FinishWrite? && !act.FinishFailed? && !act.Push?
    requires Shaped(size, id, p, l.node) && Act(size, id, p, l, act).Some? && NodeInv(size, id, l.node)
    requires Waits(l.node, p, l.out, cached) && cached.Some() && Signalled(ViewOf(l.node, p), l.out)
    ensures var m := Act(size, id, p, l, act).value; p < |m.node.wside| && Follows(l, m, p, cached)
  {
    hide P.Push, P.Read, P.Restarted, P.Write, P.WriteFailed, Increasing, UnlockBound, LockBound;
  }

  lemma OwnStepWaits(size: nat, id: nat, p: nat, l: Local, act: Action, cached: Cached)
    requires Shaped(size, id, p, l.node) && Act(size, id, p, l, act).Some? && NodeInv(size, id, l.node)
    requires Waits(l.node, p, l.out, cached) && cached.Some() && Signalled(ViewOf(l.node, p), l.out)
    ensures var m := Act(size, id, p, l, act).value; p < |m.node.wside| && Follows(l, m, p, cached)
  {
    hide Act, NodeInv, Follows, Waits, Signalled;
    if act.FinishWrite? || act.FinishFailed? {
      WritingWaits(size, id, p, l, act, cached);
    } else if act.Push? {
      PushingWaits(size, id, p, l, act, cached);
    } else {
      OtherwiseWaits(size, id, p, l, act, cached);
    }
  }

  /** The same when the step is with another peer. */
  lemma {:induction false} OtherStepWaits(
    size: nat, id: nat, q: nat, l: Local, act: Action, p: nat, k: Link, cached: Cached)
    requires Shaped(size, id, q, l.node) && Act(size, id, q, l, act).Some? && NodeInv(size, id, l.node)
    requires p < size && p != id && p != q
    requires Waits(l.node, p, k, cached) && cached.Some() && Signalled(ViewOf(l.node, p), k)
    ensures var m := Act(size, id, q, l, act).value;
            Waits(m.node, p, k, cached) && m.node.wside[p] == l.node.wside[p]
  {
    hide Act, NodeInv;
    OtherViews(size, id, q, l, act, p);
    PcStaysBefore(size, id, q, l, act, p);
  }

  /** A node at a link with a signal up does not leave it by a step on another one. */
  lemma {:induction false} PcStaysBefore(size: nat, id: nat, q: nat, l: Local, act: Action, p: nat)
    requires Shaped(size, id, q, l.node) && Act(size, id, q, l, act).Some? && NodeInv(size, id, l.node)
    requires p < size && p != id && p != q && !l.node.dying && Before(l.node.pc, p)
    ensures var n := Act(size, id, q, l, act).value.node; !n.dying && Before(n.pc, p)
  {
    hide P.Push, P.Read, P.Write, P.WriteFailed, P.Restarted, Increasing, UnlockBound, LockBound, ReaderAt, WriterAt;
  }

  /** Handed over, the link is locked before the pass is over. */
  lemma {:induction false} OwnStepLocks(size: nat, id: nat, p: nat, l: Local, act: Action, cached: Cached)
    requires Shaped(size, id, p, l.node) && Act(size, id, p, l, act).Some? && NodeInv(size, id, l.node)
    requires Handed(l.node, p, l.out, cached)
    ensures var m := Act(size, id, p, l, act).value;
            !m.node.dying && (Handed(m.node, p, m.out, cached) || (m.node.pc.Lock? && LockedWith(m.out, cached)))
  {
    hide P.Push, P.Read, P.Write, P.WriteFailed, P.Restarted;
    if act.Push? {
      PushGrows(l.out.chan, act.sz, act.constructed);
    }
  }

  lemma {:induction false} OtherStepLocks(
    size: nat, id: nat, q: nat, l: Local, act: Action, p: nat, k: Link, cached: Cached)
    requires Shaped(size, id, q, l.node) && Act(size, id, q, l, act).Some? && NodeInv(size, id, l.node)
    requires p < size && p != id && p != q && Handed(l.node, p, k, cached)
    ensures var n := Act(size, id, q, l, act).value.node; !n.dying && Handed(n, p, k, cached)
  {
    hide Act, NodeInv;
    OtherViews(size, id, q, l, act, p);
    PcStaysBehind(size, id, q, l, act, p);
  }

  /** A pass does not end while a link is to be locked. */
  lemma {:induction false} PcStaysBehind(size: nat, id: nat, q: nat, l: Local, act: Action, p: nat)
    requires Shaped(size, id, q, l.node) && Act(size, id, q, l, act).Some? && NodeInv(size, id, l.node)
    requires p < size && !l.node.dying && Behind(l.node.pc, p) && l.node.wside[p].ToLock?
    ensures var n := Act(size, id, q, l, act).value.node; !n.dying && Behind(n.pc, p)
  {
    hide P.Push, P.Read, P.Write, P.WriteFailed, P.Restarted;
  }

  /** What has been given back stays so. */
  lemma {:induction false} OwnStepGivenBack(size: nat, id: nat, p: nat, l: Local, act: Action, cached: Cached)
    requires Shaped(size, id, p, l.node) && Act(size, id, p, l, act).Some? && NodeInv(size, id, l.node)
    requires InPass(l.node.pc) && GivenBack(l.node, p, l.out, cached)
    ensures var m := Act(size, id, p, l, act).value;
            GivenBack(m.node, p, m.out, cached)
  {
    hide Increasing, UnlockBound, LockBound, ReaderAt;
    hide P.Push, P.Read, P.Restarted, P.HandedOver, P.Marked, P.Bounced, P.LiveUnread, P.LivePending;
    if act.Push? {
      PushGrows(l.out.chan, act.sz, act.constructed);
    }
  }

  lemma {:induction false} OtherStepGivenBack(
    size: nat, id: nat, q: nat, l: Local, act: Action, p: nat, k: Link, cached: Cached)
    requires Shaped(size, id, q, l.node) && Act(size, id, q, l, act).Some? && NodeInv(size, id, l.node)
    requires p < size && p != id && p != q && InPass(l.node.pc) && GivenBack(l.node, p, k, cached)
    ensures GivenBack(Act(size, id, q, l, act).value.node, p, k, cached)
  {
    hide Act, NodeInv;
    OtherViews(size, id, q, l, act, p);
    PcGoesOn(size, id, q, l, act, p);
  }

  /** Behind the link, the pass does not come back to it. */
  lemma {:induction false} PcGoesOn(size: nat, id: nat, q: nat, l: Local, act: Action, p: nat)
    requires Shaped(size, id, q, l.node) && Act(size, id, q, l, act).Some? && NodeInv(size, id, l.node)
    requires !l.node.dying && (Behind(l.node.pc, p) || l.node.pc.Fail?)
    ensures var n := Act(size, id, q, l, act).value.node; !n.dying && (Behind(n.pc, p) || Over(n.pc))
  {
    hide P.Push, P.Read, P.Write, P.WriteFailed, P.Restarted, Increasing, UnlockBound, LockBound, ReaderAt, WriterAt;
  }

  /** The reader does nothing to a link that is not locked. */
  lemma {:induction false} ReaderStepLeaves(size: nat, id: nat, p: nat, l: Local, act: Action, b: View)
    requires Shaped(size, id, p, l.node) && Act(size, id, p, l, act).Some? && NodeInv(size, id, l.node)
    requires Coordinated(ViewOf(l.node, p), b, l.out, l.inn)
    ensures var m := Act(size, id, p, l, act).value;
            && (!l.inn.writeLocked ==> !m.inn.writeLocked && m.inn.chan == l.inn.chan)
            && m.inn.chan.hist.givenBack == l.inn.chan.hist.givenBack
  {
    hide Coordinated, NodeInv;
    if act.FinishRead? {
      ReadsWhatIsLocked(size, id, p, l, act, b);
    }
    hide P.Push, P.Read, P.Write, P.WriteFailed, P.Restarted;
    ReaderStepOnly(size, id, p, l, act);
  }

  lemma ReadsWhatIsLocked(size: nat, id: nat, p: nat, l: Local, act: Action, b: View)
    requires Shaped(size, id, p, l.node) && Act(size, id, p, l, act).Some? && act.FinishRead?
    requires Coordinated(ViewOf(l.node, p), b, l.out, l.inn)
    ensures l.inn.writeLocked && |act.verdicts| == |l.inn.chan.area.toBeDelivered|
    ensures Act(size, id, p, l, act).value.inn == l.inn.(chan := P.Read(l.inn.chan, act.verdicts))
    ensures P.Read(l.inn.chan, act.verdicts).hist.givenBack == l.inn.chan.hist.givenBack
  {
    hide Handover, Signalled, Noticed;
  }

  lemma {:induction false} ReaderStepOnly(size: nat, id: nat, p: nat, l: Local, act: Action)
    requires Shaped(size, id, p, l.node) && Act(size, id, p, l, act).Some?
    ensures var m := Act(size, id, p, l, act).value;
            && (!l.inn.writeLocked ==> !m.inn.writeLocked) && (!act.FinishRead? ==> m.inn.chan == l.inn.chan)
  {
    hide P.Push, P.Read, P.Write, P.WriteFailed, P.Restarted;
  }

  // ---------- one step of the system ----------

  ghost predicate At(s: System, id: nat, peer: nat) {
    SystemInv(s) && id < s.size && peer < s.size && id != peer
  }

  ghost predicate WaitsAt(s: System, id: nat, peer: nat, cached: Cached)
    requires At(s, id, peer)
  {
    Waits(s.nodes[id], peer, s.links[Pair(id, peer)], cached)
  }

  ghost predicate HandedAt(s: System, id: nat, peer: nat, cached: Cached)
    requires At(s, id, peer)
  {
    Handed(s.nodes[id], peer, s.links[Pair(id, peer)], cached)
  }

  ghost predicate GivenBackAt(s: System, id: nat, peer: nat, cached: Cached)
    requires At(s, id, peer)
  {
    GivenBack(s.nodes[id], peer, s.links[Pair(id, peer)], cached)
  }

  function SideAt(s: System, id: nat, peer: nat): WriterSide {
    if id < |s.nodes| && peer < |s.nodes[id].wside| then s.nodes[id].wside[peer] else WOff
  }

  /** The reader's end of the link is up. */
  predicate Read(s: System, id: nat, peer: nat) {
    Pair(id, peer) in s.links && s.links[Pair(id, peer)].readerActive
  }

  lemma WaitsStep(s: System, m: Move, t: System, id: nat, peer: nat, cached: Cached)
    requires At(s, id, peer) && At(t, id, peer) && Steps(s, m, t) && WaitsAt(s, id, peer, cached) && cached.Some()
    ensures || (WaitsAt(t, id, peer, cached)
                && (SideAt(t, id, peer).Writing? ==> SideAt(s, id, peer).Writing? || Read(s, id, peer))
                && (SideAt(t, id, peer).Failing? ==> SideAt(s, id, peer).Failing? || !Read(s, id, peer)))
            || (SideAt(s, id, peer).Writing? && HandedAt(t, id, peer, cached))
            || (SideAt(s, id, peer).Failing? && GivenBackAt(t, id, peer, cached))
  {
    hide Act, NodeInv, PairInv, Waits, Handed, GivenBack, SystemInv;
    InvParts(s, m, t, id, peer);
    if m.id == id {
      OwnStep(s, m, t, peer);
      if m.peer == peer {
        OwnStepWaits(s.size, id, peer, LocalOf(s, id, peer), m.act, cached);
      } else {
        OtherStepWaits(s.size, id, m.peer, LocalOf(s, id, m.peer), m.act, peer, s.links[Pair(id, peer)], cached);
      }
    } else {
      OthersStep(s, m, t, id, peer);
      ReaderLeaves(s, m, t, id, peer);
      WaitsUnlocked(s, t, id, peer, cached);
    }
  }

  /** What the invariant says of the step and of the link. */
  lemma InvParts(s: System, m: Move, t: System, id: nat, peer: nat)
    requires At(s, id, peer) && Steps(s, m, t)
    ensures NodeInv(s.size, m.id, s.nodes[m.id]) && NodeInv(s.size, id, s.nodes[id])
    ensures Shaped(s.size, m.id, m.peer, LocalOf(s, m.id, m.peer).node)
    ensures Act(s.size, m.id, m.peer, LocalOf(s, m.id, m.peer), m.act).Some?
    ensures Signalled(ViewOf(s.nodes[id], peer), s.links[Pair(id, peer)])
    ensures |s.nodes[id].wside| == s.size
  {
    hide Act;
    CanMove(s, m, t);
    assert Linked(s, id, peer);
  }

  lemma ReaderLeaves(s: System, m: Move, t: System, id: nat, peer: nat)
    requires At(s, id, peer) && At(t, id, peer) && Steps(s, m, t) && m.id != id
    ensures var k, d := s.links[Pair(id, peer)], t.links[Pair(id, peer)];
            && (!k.writeLocked ==> !d.writeLocked && d.chan == k.chan) && d.chan.hist.givenBack == k.chan.hist.givenBack
  {
    hide Act, NodeInv;
    OthersStep(s, m, t, id, peer);
    if m.id == peer && m.peer == id {
      CanMove(s, m, t);
      assert Linked(s, peer, id);
      OwnStep(s, m, t, id);
      hide Coordinated;
      ReaderStepLeaves(s.size, peer, id, LocalOf(s, peer, id), m.act, ViewOf(s.nodes[id], peer));
    }
  }

  lemma WaitsUnlocked(s: System, t: System, id: nat, peer: nat, cached: Cached)
    requires At(s, id, peer) && At(t, id, peer) && t.nodes[id] == s.nodes[id] && WaitsAt(s, id, peer, cached)
    requires var k, d := s.links[Pair(id, peer)], t.links[Pair(id, peer)];
             !k.writeLocked ==> !d.writeLocked && d.chan == k.chan
    ensures WaitsAt(t, id, peer, cached)
  {
    hide SystemInv;
  }

  lemma HandedStep(s: System, m: Move, t: System, id: nat, peer: nat, cached: Cached)
    requires At(s, id, peer) && At(t, id, peer) && Steps(s, m, t) && HandedAt(s, id, peer, cached)
    ensures HandedAt(t, id, peer, cached) || (t.nodes[id].pc.Lock? && LockedWith(t.links[Pair(id, peer)], cached))
    ensures !t.nodes[id].dying
  {
    hide Act, NodeInv, PairInv, SystemInv, LockedWith;
    InvParts(s, m, t, id, peer);
    if m.id == id {
      OwnStep(s, m, t, peer);
      hide Handed;
      if m.peer == peer {
        OwnStepLocks(s.size, id, peer, LocalOf(s, id, peer), m.act, cached);
      } else {
        OtherStepLocks(s.size, id, m.peer, LocalOf(s, id, m.peer), m.act, peer, s.links[Pair(id, peer)], cached);
      }
    } else {
      OthersStep(s, m, t, id, peer);
      ReaderLeaves(s, m, t, id, peer);
    }
  }

  lemma GivenBackStep(s: System, m: Move, t: System, id: nat, peer: nat, cached: Cached)
    requires At(s, id, peer) && At(t, id, peer) && Steps(s, m, t) && GivenBackAt(s, id, peer, cached)
    requires InPass(s.nodes[id].pc)
    ensures GivenBackAt(t, id, peer, cached)
  {
    hide Act, NodeInv, PairInv, SystemInv;
    InvParts(s, m, t, id, peer);
    if m.id == id {
      OwnStep(s, m, t, peer);
      hide GivenBack;
      if m.peer == peer {
        OwnStepGivenBack(s.size, id, peer, LocalOf(s, id, peer), m.act, cached);
      } else {
        OtherStepGivenBack(s.size, id, m.peer, LocalOf(s, id, m.peer), m.act, peer, s.links[Pair(id, peer)], cached);
      }
    } else {
      OthersStep(s, m, t, id, peer);
      ReaderLeaves(s, m, t, id, peer);
    }
  }

  // ---------- the whole pass ----------

  ghost predicate Once(states: seq<System>, k: nat, id: nat, peer: nat, up: bool) {
    exists j :: 0 <= j <= k < |states| && Read(states[j], id, peer) == up
  }

  ghost predicate OnceLocked(states: seq<System>, k: nat, id: nat, peer: nat, cached: Cached) {
    exists j :: 0 <= j <= k < |states| && Pair(id, peer) in states[j].links
                && LockedWith(states[j].links[Pair(id, peer)], cached)
  }

  lemma OnceStays(states: seq<System>, k: nat, id: nat, peer: nat, cached: Cached)
    requires k + 1 < |states|
    ensures forall up :: Once(states, k, id, peer, up) ==> Once(states, k + 1, id, peer, up)
    ensures OnceLocked(states, k, id, peer, cached) ==> OnceLocked(states, k + 1, id, peer, cached)
  {
  }

  /** Where the cached events are at state k of a pass. */
  ghost predicate Writing(states: seq<System>, k: nat, id: nat, peer: nat, cached: Cached) {
    && k < |states| && At(states[k], id, peer)
    && var s := states[k];
       || (WaitsAt(s, id, peer, cached)
           && (SideAt(s, id, peer).Writing? ==> Once(states, k, id, peer, true))
           && (SideAt(s, id, peer).Failing? ==> Once(states, k, id, peer, false)))
       || (HandedAt(s, id, peer, cached) && Once(states, k, id, peer, true))
       || (GivenBackAt(s, id, peer, cached) && Once(states, k, id, peer, false))
       || (PastLock(s, id) && OnceLocked(states, k, id, peer, cached) && Once(states, k, id, peer, true))
  }

  predicate PastLock(s: System, id: nat) {
    id < |s.nodes| && !s.nodes[id].dying && (s.nodes[id].pc.Lock? || Over(s.nodes[id].pc))
  }

  lemma OnceNow(states: seq<System>, k: nat, id: nat, peer: nat)
    requires k < |states|
    ensures Once(states, k, id, peer, Read(states[k], id, peer))
  {
  }

  lemma {:induction false} PassWrites(states: seq<System>, k: nat, id: nat, peer: nat, cached: Cached)
    requires Passes(states, id, peer) && k < |states| && Pair(id, peer) in states[0].links && cached.Some()
    requires !states[0].links[Pair(id, peer)].writeLocked
    requires cached == CachedIn(states[0].links[Pair(id, peer)])
    ensures Writing(states, k, id, peer, cached)
  {
    hide SystemInv, Reachable, Steps, Trace, Once, OnceLocked, WaitsAt, HandedAt, GivenBackAt, LockedWith, PastLock;
    TraceInv(states, k);
    if k == 0 {
      PassWaits(states[0], id, peer);
    } else {
      PassWrites(states, k - 1, id, peer, cached);
      var m := TraceStep(states, k - 1);
      OnceStays(states, k - 1, id, peer, cached);
      OnceNow(states, k - 1, id, peer);
      WritingStep(states, k, m, id, peer, cached);
    }
  }

  lemma PassWaits(s: System, id: nat, peer: nat)
    requires At(s, id, peer) && s.nodes[id].pc == AtRead(0) && !s.links[Pair(id, peer)].writeLocked
    ensures WaitsAt(s, id, peer, CachedIn(s.links[Pair(id, peer)]))
    ensures !SideAt(s, id, peer).Writing? && !SideAt(s, id, peer).Failing?
  {
    assert WriterAt(s.nodes[id].pc, peer, s.nodes[id].wside[peer]);
  }

  predicate Goes(s: System, id: nat) {
    id < |s.nodes| && InPass(s.nodes[id].pc)
  }

  lemma WritingStep(states: seq<System>, k: nat, m: Move, id: nat, peer: nat, cached: Cached)
    requires 0 < k < |states| && Writing(states, k - 1, id, peer, cached) && cached.Some()
    requires At(states[k], id, peer) && Goes(states[k - 1], id) && Steps(states[k - 1], m, states[k])
    ensures Writing(states, k, id, peer, cached)
  {
    hide SystemInv, Steps, Once, OnceLocked, WaitsAt, HandedAt, GivenBackAt, LockedWith;
    var s, t := states[k - 1], states[k];
    OnceStays(states, k - 1, id, peer, cached);
    OnceNow(states, k - 1, id, peer);
    SameSize(s, m, t);
    InLinks(t, id, peer);
    if WaitsAt(s, id, peer, cached) {
      OnlyWaits(s, id, peer, cached);
      WaitsStep(s, m, t, id, peer, cached);
      if Read(s, id, peer) {
        assert Once(states, k - 1, id, peer, true);
      } else {
        assert Once(states, k - 1, id, peer, false);
      }
    } else if HandedAt(s, id, peer, cached) {
      NotBackToo(s, id, peer, cached);
      HandedStep(s, m, t, id, peer, cached);
      if !HandedAt(t, id, peer, cached) {
        LocksNow(states, k, id, peer, cached);
      }
    } else if GivenBackAt(s, id, peer, cached) && Once(states, k - 1, id, peer, false) {
      GivenBackStep(s, m, t, id, peer, cached);
    } else {
      PhaseStep(s, m, t, id, peer);
    }
  }

  /** Before its turn comes the events are nowhere else. */
  lemma OnlyWaits(s: System, id: nat, peer: nat, cached: Cached)
    requires At(s, id, peer) && WaitsAt(s, id, peer, cached)
    ensures !HandedAt(s, id, peer, cached) && !GivenBackAt(s, id, peer, cached) && !PastLock(s, id)
  {
    hide SystemInv;
  }

  lemma NotBackToo(s: System, id: nat, peer: nat, cached: Cached)
    requires At(s, id, peer) && HandedAt(s, id, peer, cached)
    ensures !GivenBackAt(s, id, peer, cached)
  {
    hide SystemInv;
  }

  lemma LocksNow(states: seq<System>, k: nat, id: nat, peer: nat, cached: Cached)
    requires k < |states| && At(states[k], id, peer) && states[k].nodes[id].pc.Lock?
    requires LockedWith(states[k].links[Pair(id, peer)], cached)
    ensures OnceLocked(states, k, id, peer, cached)
  {
  }

  /**
   A pass writes what is cached.  The events cached for peer when the pass begins, and a request to look for undelivered
   ones, on a link that is not locked, have left the cache when the pass has done its locking: they are, or were when
   the link was locked, in front of the events of the area, the request beside them; or each event was given back, which
   only happens if the reader's end was down at some time.  If it was down throughout they are given back.
   */
  lemma PassWritesWhatIsCached(states: seq<System>, k: nat, id: nat, peer: nat)
    requires Passes(states, id, peer) && k < |states| && Pair(id, peer) in states[0].links
    requires !states[0].links[Pair(id, peer)].writeLocked
    requires P.WriteWorthy(states[0].links[Pair(id, peer)].chan)
    ensures Pair(id, peer) in states[k].links && id < |states[k].nodes|
    ensures var cached, s := CachedIn(states[0].links[Pair(id, peer)]), states[k];
            && (s.nodes[id].pc.Unlock? ==> InArea(s, id, peer, cached) || Back(s, id, peer, cached))
            && (Over(s.nodes[id].pc) ==>
                  && (OnceLocked(states, k, id, peer, cached) || Back(s, id, peer, cached))
                  && (!Once(states, k, id, peer, false) ==> OnceLocked(states, k, id, peer, cached))
                  && (!Once(states, k, id, peer, true) ==> Back(s, id, peer, cached)))
  {
    var cached := CachedIn(states[0].links[Pair(id, peer)]);
    PassWrites(states, k, id, peer, cached);
    hide Passes, Writing, Once, OnceLocked, InArea, Back;
    WritingMeans(states, k, id, peer, cached);
    InLinks(states[k], id, peer);
    hide SystemInv;
  }

  predicate InArea(s: System, id: nat, peer: nat, cached: Cached) {
    Pair(id, peer) in s.links && Carries(s.links[Pair(id, peer)], cached)
  }

  predicate Back(s: System, id: nat, peer: nat, cached: Cached) {
    Pair(id, peer) in s.links && forall e :: e in cached.events ==> e in s.links[Pair(id, peer)].chan.hist.givenBack
  }

  lemma InLinks(s: System, id: nat, peer: nat)
    requires At(s, id, peer)
    ensures Pair(id, peer) in s.links && id < |s.nodes|
  {
  }

  lemma WritingMeans(states: seq<System>, k: nat, id: nat, peer: nat, cached: Cached)
    requires Writing(states, k, id, peer, cached)
    ensures id < |states[k].nodes|
    ensures var s := states[k];
            && (s.nodes[id].pc.Unlock? ==> InArea(s, id, peer, cached) || Back(s, id, peer, cached))
            && (Over(s.nodes[id].pc) ==>
                  && (OnceLocked(states, k, id, peer, cached) || Back(s, id, peer, cached))
                  && (!Once(states, k, id, peer, false) ==> OnceLocked(states, k, id, peer, cached))
                  && (!Once(states, k, id, peer, true) ==> Back(s, id, peer, cached)))
  {
    InLinks(states[k], id, peer);
    hide SystemInv, Once, OnceLocked;
  }
}
