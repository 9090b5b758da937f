/**
 What one pass of a node's loop does, whatever the other nodes do meanwhile: it reads what is locked, hands over or
 returns what is cached, and takes back what was handed to a node that is gone.
 */
module ParallelPasses {
  import opened Parallel
  import opened ParallelSafety
  import opened ParallelRuns
  import P = ChannelPayload
  import G = ChannelPages

  /** From the beginning of the pass over the readable links to the end of the fail pass. */
  predicate InPass(pc: Pc) {
    pc.AtRead? || pc.AtCheck? || pc.AtWrite? || pc.Unlock? || pc.Lock? || pc.Fail?
  }

  ghost predicate StepTo(s: System, t: System) {
    exists m :: Steps(s, m, t)
  }

  /** A stretch of a run, state by state. */
  ghost predicate Trace(states: seq<System>) {
    && states != [] && Reachable(states[0])
    && forall i, j {:trigger states[i], states[j]} :: 0 <= i && j == i + 1 && j < |states| ==>
         StepTo(states[i], states[j])
  }

  lemma {:induction false} TraceInv(states: seq<System>, k: nat)
    requires Trace(states) && k < |states|
    ensures SystemInv(states[k]) && states[k].size == states[0].size
  {
    hide SystemInv, Reachable, Steps;
    if k == 0 {
      ReachableInv(states[0]);
    } else {
      TraceInv(states, k - 1);
      assert StepTo(states[k - 1], states[k]);
      var m :| Steps(states[k - 1], m, states[k]);
      StepsInv(states[k - 1], m, states[k]);
      SameSize(states[k - 1], m, states[k]);
    }
  }

  lemma SameSize(s: System, m: Move, t: System)
    requires Steps(s, m, t)
    ensures t.size == s.size
  {
  }

  /** The trace begins with a pass of node id and goes on as long as it lasts, at most; peer is another node. */
  ghost predicate Passes(states: seq<System>, id: nat, peer: nat) {
    && Trace(states) && id < states[0].size && peer < states[0].size && id != peer
    && (forall k :: 0 <= k < |states| ==> id < |states[k].nodes| && peer < |states[k].nodes|)
    && states[0].nodes[id].pc == AtRead(0)
    && (forall k :: 0 <= k < |states| ==> InPass(states[k].nodes[id].pc) || states[k].nodes[id].pc.User?)
    && forall k :: 0 <= k < |states| - 1 ==> InPass(states[k].nodes[id].pc)
  }

  /** A step of node id on its links with q, seen from its links with peer. */
  lemma OwnStep(s: System, m: Move, t: System, peer: nat)
    requires SystemInv(s) && Steps(s, m, t) && peer < s.size && peer != m.id
    ensures WellFormed(t) && t.size == s.size
    ensures var n := Act(s.size, m.id, m.peer, LocalOf(s, m.id, m.peer), m.act).value;
            && t.nodes[m.id] == n.node && t.nodes[peer] == s.nodes[peer]
            && t.links[Pair(m.id, peer)] == (if m.peer == peer then n.out else s.links[Pair(m.id, peer)])
            && t.links[Pair(peer, m.id)] == (if m.peer == peer then n.inn else s.links[Pair(peer, m.id)])
  {
    hide Act, NodeInv, PairInv;
    NextIsWellFormed(s, m);
  }

  /** A step of another node leaves id alone, and its links with peer unless it is a step of peer on them. */
  lemma OthersStep(s: System, m: Move, t: System, id: nat, peer: nat)
    requires SystemInv(s) && Steps(s, m, t) && id < s.size && peer < s.size && id != peer && m.id != id
    ensures WellFormed(t) && t.size == s.size && t.nodes[id] == s.nodes[id]
    ensures !(m.id == peer && m.peer == id) ==>
              t.links[Pair(id, peer)] == s.links[Pair(id, peer)] && t.links[Pair(peer, id)] == s.links[Pair(peer, id)]
  {
    hide Act, NodeInv, PairInv;
    NextIsWellFormed(s, m);
  }

  // ---------- the read pass ----------

  /** The link from peer is locked, and the pass has read it or is still to look at it. */
  predicate Due(n: Node, peer: nat, locked: bool)
    requires peer < |n.rside|
  {
    && locked
    && match n.pc
       case AtRead(i) => peer < i ==> n.rside[peer].Recorded?
       case AtCheck(i) => peer <= i ==> n.rside[peer].Recorded?
       case AtWrite(_) => n.rside[peer].Recorded?
       case Unlock => n.rside[peer].Recorded?
       case _ => false
  }

  /** A step of the node in its pass, on its links with q. */
  lemma {:induction false} OwnStepKeepsDue(size: nat, id: nat, q: nat, l: Local, act: Action, peer: nat, locked: bool)
    requires Shaped(size, id, q, l.node) && Act(size, id, q, l, act).Some? && NodeInv(size, id, l.node)
    requires peer < size && peer != id && !l.node.dying && Due(l.node, peer, locked)
    requires q == peer ==> locked == l.inn.writeLocked
    ensures var m := Act(size, id, q, l, act).value;
            var after := if q == peer then m.inn.writeLocked else locked;
            && |m.node.rside| == size && !m.node.dying
            && (Due(m.node, peer, after) || (!after && m.node.pc.Unlock? && l.node.pc.Unlock?))
  {
    hide UnlockBound, LockBound, WriterAt;
    hide P.Push, P.Read, P.Write, P.WriteFailed, P.Restarted, P.Conserved, Increasing;
  }

  /** Only its reader unlocks a link while that holds it. */
  lemma {:induction false} WriterStepKeepsLock(size: nat, id: nat, p: nat, l: Local, act: Action, b: View)
    requires Shaped(size, id, p, l.node) && Act(size, id, p, l, act).Some? && NodeInv(size, id, l.node)
    requires Coordinated(ViewOf(l.node, p), b, l.out, l.inn) && Holds(b.rs) && l.out.writeLocked
    ensures Act(size, id, p, l, act).value.out.writeLocked
  {
    NotWriting(ViewOf(l.node, p), b, l.out, l.inn);
    hide Coordinated, NodeInv, P.Push, P.Read, P.Write, P.WriteFailed, P.Restarted;
  }

  ghost predicate DueAt(s: System, id: nat, peer: nat)
    requires SystemInv(s) && id < s.size && peer < s.size && id != peer
  {
    !s.nodes[id].dying && Due(s.nodes[id], peer, s.links[Pair(peer, id)].writeLocked)
  }

  lemma DueHolds(s: System, id: nat, peer: nat)
    requires SystemInv(s) && id < s.size && peer < s.size && id != peer && DueAt(s, id, peer)
    ensures peer < |s.nodes[id].rside| && Holds(s.nodes[id].rside[peer]) && s.links[Pair(peer, id)].writeLocked
    ensures InPass(s.nodes[id].pc)
  {
    assert ReaderAt(s.nodes[id].pc, s.nodes[id].dying, peer, s.nodes[id].rside[peer]);
  }

  lemma DueStep(s: System, m: Move, t: System, id: nat, peer: nat)
    requires SystemInv(s) && SystemInv(t) && Steps(s, m, t)
    requires id < s.size == t.size && peer < s.size && id != peer && DueAt(s, id, peer)
    ensures DueAt(t, id, peer) ||
            (!t.links[Pair(peer, id)].writeLocked && t.nodes[id].pc.Unlock? && s.nodes[id].pc.Unlock?)
  {
    hide Act, NodeInv, PairInv, Due;
    CanMove(s, m, t);
    if m.id == id {
      OwnStep(s, m, t, peer);
      OwnStepKeepsDue(s.size, id, m.peer, LocalOf(s, id, m.peer), m.act, peer, s.links[Pair(peer, id)].writeLocked);
    } else {
      OthersStep(s, m, t, id, peer);
      if m.id == peer && m.peer == id {
        DueHolds(s, id, peer);
        LockStays(s, m, t);
      }
    }
  }

  lemma CanMove(s: System, m: Move, t: System)
    requires SystemInv(s) && Steps(s, m, t)
    ensures NodeInv(s.size, m.id, s.nodes[m.id])
    ensures Shaped(s.size, m.id, m.peer, LocalOf(s, m.id, m.peer).node)
    ensures Act(s.size, m.id, m.peer, LocalOf(s, m.id, m.peer), m.act).Some?
  {
    hide Act, PairInv;
  }

  /** The writer of a link its reader holds does not unlock it. */
  lemma LockStays(s: System, m: Move, t: System)
    requires SystemInv(s) && SystemInv(t) && Steps(s, m, t)
    requires s.links[Pair(m.id, m.peer)].writeLocked && m.id < |s.nodes[m.peer].rside| &&
             Holds(s.nodes[m.peer].rside[m.id])
    ensures m.id < t.size && m.peer < t.size && t.links[Pair(m.id, m.peer)].writeLocked
  {
    hide Act, NodeInv;
    CanMove(s, m, t);
    assert Linked(s, m.id, m.peer);
    OwnStep(s, m, t, m.peer);
    hide Coordinated;
    WriterStepKeepsLock(s.size, m.id, m.peer, LocalOf(s, m.id, m.peer), m.act, ViewOf(s.nodes[m.peer], m.id));
  }

  /** Past the barrier a pass does not come back; it ends with the turn of the actors. */
  predicate PastBarrier(pc: Pc) {
    pc.Unlock? || pc.Lock? || pc.Fail? || pc.User?
  }

  lemma {:induction false} PhaseStepLocal(size: nat, id: nat, p: nat, l: Local, act: Action)
    requires Shaped(size, id, p, l.node) && Act(size, id, p, l, act).Some? && NodeInv(size, id, l.node)
    requires PastBarrier(l.node.pc) && InPass(l.node.pc) && !l.node.dying
    ensures var m := Act(size, id, p, l, act).value;
            && !m.node.dying && PastBarrier(m.node.pc)
            && (m.node.pc.Unlock? ==> l.node.pc.Unlock?)
  {
    hide P.Push, P.Read, P.Write, P.WriteFailed, P.Restarted;
  }

  lemma PhaseStep(s: System, m: Move, t: System, id: nat, peer: nat)
    requires SystemInv(s) && SystemInv(t) && Steps(s, m, t)
    requires id < s.size == t.size && peer < s.size && id != peer
    requires PastBarrier(s.nodes[id].pc) && !s.nodes[id].dying && InPass(s.nodes[id].pc)
    ensures PastBarrier(t.nodes[id].pc) && !t.nodes[id].dying && (t.nodes[id].pc.Unlock? ==> s.nodes[id].pc.Unlock?)
  {
    hide Act, NodeInv, PairInv;
    CanMove(s, m, t);
    if m.id == id {
      OwnStep(s, m, t, peer);
      PhaseStepLocal(s.size, id, m.peer, LocalOf(s, id, m.peer), m.act);
    } else {
      OthersStep(s, m, t, id, peer);
    }
  }

  // ---------- the events it reads ----------

  lemma {:induction false} PresentedConcat(a: seq<P.Settled>, b: seq<P.Settled>)
    ensures P.Presented(a + b) == P.Presented(a) + P.Presented(b)
  {
    if a == [] {
      assert a + b == b;
    } else {
      assert (a + b)[0] == a[0] && (a + b)[1..] == a[1..] + b;
      PresentedConcat(a[1..], b);
      P.SeqAssoc(if a[0].presented then [a[0].event] else [], P.Presented(a[1..]), P.Presented(b));
    }
  }

  lemma {:induction false} JudgedPresents(s: seq<P.Event>, v: seq<bool>)
    requires |s| == |v|
    ensures P.Presented(P.Judged(s, v)) == s
  {
    if s != [] {
      JudgedPresents(s[1..], v[1..]);
    }
  }

  /** The events unread at the beginning are unread still, or the reader was offered each of them. */
  ghost predicate Offered(read: bool, c: P.Channel, unread: seq<P.Event>) {
    if read then forall e :: e in unread ==> e in P.Presented(c.hist.log) else P.LiveUnread(c) == unread
  }

  lemma ReadOffers(c: P.Channel, v: seq<bool>, unread: seq<P.Event>)
    requires |v| == |c.area.toBeDelivered| && Offered(false, c, unread)
    ensures Offered(true, P.Read(c, v), unread)
  {
    if !c.hist.stale {
      PresentedConcat(c.hist.log, P.Judged(c.area.toBeDelivered, v));
      JudgedPresents(c.area.toBeDelivered, v);
    }
  }

  /** Recorded means read, here. */
  predicate ReadIn(n: Node, peer: nat) {
    peer < |n.rside| && n.rside[peer].Recorded?
  }

  lemma {:induction false} OwnStepOffers(size: nat, id: nat, peer: nat, l: Local, act: Action, unread: seq<P.Event>)
    requires Shaped(size, id, peer, l.node) && Act(size, id, peer, l, act).Some?
    requires InPass(l.node.pc) && Offered(ReadIn(l.node, peer), l.inn.chan, unread)
    ensures var m := Act(size, id, peer, l, act).value;
            m.inn.writeLocked ==> Offered(ReadIn(m.node, peer), m.inn.chan, unread)
  {
    hide Offered, P.Push, P.Read, P.Write, P.WriteFailed, P.Restarted;
    if act.FinishRead? {
      ReadOffers(l.inn.chan, act.verdicts, unread);
    }
  }

  /** Only pushes touch the channel meanwhile, and the notice for the way back. */
  predicate SameBut(c: P.Channel, d: P.Channel) {
    d.area == c.area && d.hist.stale == c.hist.stale && d.hist.log == c.hist.log
  }

  lemma PushIsSameBut(c: P.Channel, size: nat, constructed: bool)
    ensures SameBut(c, P.Push(c, size, constructed))
  {
  }

  lemma WriterStepIsSameBut(size: nat, id: nat, p: nat, l: Local, act: Action, b: View)
    requires Shaped(size, id, p, l.node) && Act(size, id, p, l, act).Some? && NodeInv(size, id, l.node)
    requires Coordinated(ViewOf(l.node, p), b, l.out, l.inn) && Holds(b.rs) && l.out.writeLocked
    ensures SameBut(l.out.chan, Act(size, id, p, l, act).value.out.chan)
  {
    NotWriting(ViewOf(l.node, p), b, l.out, l.inn);
    hide Coordinated, NodeInv;
    NotAtTheArea(size, id, p, l, act);
    hide Act, P.Push;
    if act.FinishRead? {
      ReadStepPayload(size, id, p, l, act.verdicts);
    } else if act.Push? {
      WriterStepPayload(size, id, p, l, act);
      PushIsSameBut(l.out.chan, act.sz, act.constructed);
    } else {
      OtherStepsKeepChannels(size, id, p, l, act);
    }
  }

  lemma NotAtTheArea(size: nat, id: nat, p: nat, l: Local, act: Action)
    requires Shaped(size, id, p, l.node) && Act(size, id, p, l, act).Some?
    requires var w := l.node.wside[p]; !w.WOff? && !w.Writing? && !w.Failing? && !Seizes(w)
    ensures !act.ActivateWriter? && !act.FinishWrite? && !act.FinishFailed? && !act.FinishSeized?
  {
    hide P.Push, P.Read, P.Write, P.WriteFailed, P.Restarted;
  }

  /** While its reader holds a locked link its writer is not at it. */
  lemma NotWriting(a: View, b: View, ab: Link, ba: Link)
    requires Coordinated(a, b, ab, ba) && Holds(b.rs) && ab.writeLocked
    ensures !a.ws.WOff? && !a.ws.Writing? && !a.ws.Failing? && !Seizes(a.ws)
  {
    hide Handover, Signalled, Noticed;
  }

  ghost predicate OfferedAt(s: System, id: nat, peer: nat, unread: seq<P.Event>)
    requires SystemInv(s) && id < s.size && peer < s.size && id != peer
  {
    Offered(ReadIn(s.nodes[id], peer), s.links[Pair(peer, id)].chan, unread)
  }

  lemma OfferedStep(s: System, m: Move, t: System, id: nat, peer: nat, unread: seq<P.Event>)
    requires SystemInv(s) && SystemInv(t) && Steps(s, m, t)
    requires id < s.size == t.size && peer < s.size && id != peer && DueAt(s, id, peer)
    requires OfferedAt(s, id, peer, unread) && t.links[Pair(peer, id)].writeLocked
    ensures OfferedAt(t, id, peer, unread)
  {
    hide Act, NodeInv, PairInv, Due, Offered;
    CanMove(s, m, t);
    DueHolds(s, id, peer);
    if m.id == id {
      OwnStep(s, m, t, peer);
      if m.peer == peer {
        OwnStepOffers(s.size, id, peer, LocalOf(s, id, peer), m.act, unread);
      } else {
        OthersRead(s, m, t, peer);
      }
    } else {
      OthersStep(s, m, t, id, peer);
      if m.id == peer && m.peer == id {
        DueHolds(s, id, peer);
        WriterTouches(s, m, t, unread);
      }
    }
  }

  /** A step with another peer leaves the reader's side of this link alone. */
  lemma OthersRead(s: System, m: Move, t: System, peer: nat)
    requires SystemInv(s) && SystemInv(t) && Steps(s, m, t) && peer < s.size == t.size && peer != m.id && peer != m.peer
    ensures ReadIn(t.nodes[m.id], peer) == ReadIn(s.nodes[m.id], peer)
  {
    hide Act, NodeInv, PairInv;
    CanMove(s, m, t);
    OwnStep(s, m, t, peer);
    OtherViews(s.size, m.id, m.peer, LocalOf(s, m.id, m.peer), m.act, peer);
  }

  lemma WriterTouches(s: System, m: Move, t: System, unread: seq<P.Event>)
    requires SystemInv(s) && SystemInv(t) && Steps(s, m, t)
    requires s.links[Pair(m.id, m.peer)].writeLocked && m.id < |s.nodes[m.peer].rside| &&
             Holds(s.nodes[m.peer].rside[m.id])
    requires Offered(ReadIn(s.nodes[m.peer], m.id), s.links[Pair(m.id, m.peer)].chan, unread)
    ensures m.id < t.size && m.peer < t.size
    ensures Offered(ReadIn(s.nodes[m.peer], m.id), t.links[Pair(m.id, m.peer)].chan, unread)
  {
    hide Act, NodeInv;
    CanMove(s, m, t);
    assert Linked(s, m.id, m.peer);
    OwnStep(s, m, t, m.peer);
    hide Coordinated;
    WriterStepIsSameBut(s.size, m.id, m.peer, LocalOf(s, m.id, m.peer), m.act, ViewOf(s.nodes[m.peer], m.id));
  }

  // ---------- the whole pass ----------

  lemma TraceStep(states: seq<System>, k: nat) returns (m: Move)
    requires Trace(states) && k + 1 < |states|
    ensures SystemInv(states[k]) && SystemInv(states[k + 1]) && states[k].size == states[k + 1].size == states[0].size
    ensures Steps(states[k], m, states[k + 1])
  {
    hide SystemInv, Reachable, Steps;
    TraceInv(states, k);
    TraceInv(states, k + 1);
    assert StepTo(states[k], states[k + 1]);
    m :| Steps(states[k], m, states[k + 1]);
  }

  /** Up to state k the link from peer was unlocked once. */
  ghost predicate Released(states: seq<System>, k: nat, id: nat, peer: nat) {
    exists j :: 0 <= j <= k < |states| && Pair(peer, id) in states[j].links &&
        !states[j].links[Pair(peer, id)].writeLocked
  }

  lemma ReleasedStays(states: seq<System>, k: nat, id: nat, peer: nat)
    requires Released(states, k, id, peer) && k + 1 < |states|
    ensures Released(states, k + 1, id, peer)
  {
  }

  ghost predicate Serving(states: seq<System>, k: nat, id: nat, peer: nat, unread: seq<P.Event>)
    requires k < |states| && SystemInv(states[k]) && id < states[k].size && peer < states[k].size && id != peer
  {
    || (DueAt(states[k], id, peer) && OfferedAt(states[k], id, peer, unread))
    || (PastBarrier(states[k].nodes[id].pc) && !states[k].nodes[id].dying && Released(states, k, id, peer))
  }

  lemma {:induction false} PassServes(states: seq<System>, k: nat, id: nat, peer: nat, unread: seq<P.Event>)
    requires Passes(states, id, peer) && k < |states| && Pair(peer, id) in states[0].links
    requires states[0].links[Pair(peer, id)].writeLocked && unread == P.LiveUnread(states[0].links[Pair(peer, id)].chan)
    ensures SystemInv(states[k]) && states[k].size == states[0].size && Serving(states, k, id, peer, unread)
  {
    hide SystemInv, Reachable, Steps, Trace, Released, DueAt, OfferedAt;
    TraceInv(states, k);
    if k == 0 {
      PassBegins(states[0], id, peer);
    } else {
      PassServes(states, k - 1, id, peer, unread);
      var m := TraceStep(states, k - 1);
      var s, t := states[k - 1], states[k];
      if DueAt(s, id, peer) && OfferedAt(s, id, peer, unread) {
        DueStep(s, m, t, id, peer);
        if DueAt(t, id, peer) {
          OfferedNext(s, m, t, id, peer, unread);
        } else {
          UnlockedNow(states, k, s, id, peer);
        }
      } else {
        PhaseStep(s, m, t, id, peer);
        ReleasedStays(states, k - 1, id, peer);
      }
    }
  }

  lemma PassBegins(s: System, id: nat, peer: nat)
    requires SystemInv(s) && id < s.size && peer < s.size && id != peer
    requires s.nodes[id].pc == AtRead(0) && s.links[Pair(peer, id)].writeLocked
    ensures DueAt(s, id, peer) && OfferedAt(s, id, peer, P.LiveUnread(s.links[Pair(peer, id)].chan))
  {
  }

  lemma OfferedNext(s: System, m: Move, t: System, id: nat, peer: nat, unread: seq<P.Event>)
    requires SystemInv(s) && SystemInv(t) && Steps(s, m, t)
    requires id < s.size == t.size && peer < s.size && id != peer && DueAt(s, id, peer) && DueAt(t, id, peer)
    requires OfferedAt(s, id, peer, unread)
    ensures OfferedAt(t, id, peer, unread)
  {
    hide OfferedAt, SystemInv, Steps;
    DueHolds(t, id, peer);
    OfferedStep(s, m, t, id, peer, unread);
  }

  lemma UnlockedNow(states: seq<System>, k: nat, s: System, id: nat, peer: nat)
    requires k < |states| && SystemInv(states[k]) && id < states[k].size && peer < states[k].size && id != peer
    requires !states[k].links[Pair(peer, id)].writeLocked && states[k].nodes[id].pc.Unlock?
    ensures PastBarrier(states[k].nodes[id].pc) && !states[k].nodes[id].dying && Released(states, k, id, peer)
  {
  }

  /**
   A pass reads what is locked.  A link locked when a pass of its reader begins has been read when the pass turns to
   writing, and is recorded to be unlocked; each event that was unread has been offered to its actor by then.  When
   the pass has done its unlocking the link has been unlocked, even if its writer may have locked it again since.
   */
  lemma PassReadsWhatIsLocked(states: seq<System>, k: nat, id: nat, peer: nat)
    requires Passes(states, id, peer) && k < |states| && Pair(peer, id) in states[0].links
    requires states[0].links[Pair(peer, id)].writeLocked
    ensures Pair(peer, id) in states[k].links
    ensures var n, c := states[k].nodes[id], states[k].links[Pair(peer, id)].chan;
            && (n.pc.AtWrite? ==>
                  && peer in n.toUnlock && c.area.delivered && P.LiveUnread(c) == []
                  && forall e :: e in P.LiveUnread(states[0].links[Pair(peer, id)].chan) ==>
                      e in P.Presented(c.hist.log))
            && (n.pc.Lock? || n.pc.Fail? || n.pc.User? ==> Released(states, k, id, peer))
  {
    var unread := P.LiveUnread(states[0].links[Pair(peer, id)].chan);
    PassServes(states, k, id, peer, unread);
    ServedMeans(states, k, id, peer, unread);
    hide Passes, Serving, SystemInv, Released;
  }

  lemma ServedMeans(states: seq<System>, k: nat, id: nat, peer: nat, unread: seq<P.Event>)
    requires k < |states| && SystemInv(states[k]) && id < states[k].size && peer < states[k].size && id != peer
    requires Serving(states, k, id, peer, unread)
    ensures Pair(peer, id) in states[k].links && id < |states[k].nodes|
    ensures var n, c := states[k].nodes[id], states[k].links[Pair(peer, id)].chan;
            && (n.pc.AtWrite? ==>
                  && peer in n.toUnlock && c.area.delivered && P.LiveUnread(c) == []
                  && forall e :: e in unread ==> e in P.Presented(c.hist.log))
            && (n.pc.Lock? || n.pc.Fail? || n.pc.User? ==> Released(states, k, id, peer))
  {
    hide Released, P.Presented, G.Sound;
    assert Linked(states[k], peer, id);
  }
}
