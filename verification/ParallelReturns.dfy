/** What a pass does about a node that is gone: it takes back what was handed to it. */
module ParallelReturns {
  import opened Parallel
  import opened ParallelSafety
  import opened ParallelRuns
  import opened ParallelPasses
  import P = ChannelPayload
  import G = ChannelPages

  // ---------- a link that is locked is remembered as written to ----------

  predicate Remembers(n: Node, p: nat, locked: bool) {
    p < |n.wside| && p < |n.activity| && ((WriterLive(n.wside[p]) && locked) || n.wside[p].ToLock? ==> n.activity[p])
  }

  lemma {:induction false} WriteStepRemembers(size: nat, id: nat, p: nat, l: Local, act: Action, b: View)
    requires act.LookWrite? || act.ChooseWrite? || act.FinishWrite? || act.FinishFailed? || act.LockOne?
    requires Shaped(size, id, p, l.node) && Act(size, id, p, l, act).Some?
    requires act.LockOne? ==> l.node.wside[p].ToLock?
    requires Flags(b.rs, l.node.wside[p], l.out) && Remembers(l.node, p, l.out.writeLocked)
    ensures var m := Act(size, id, p, l, act).value; Remembers(m.node, p, m.out.writeLocked)
  {
    hide P.Push, P.Read, P.Write, P.WriteFailed, P.Restarted, AdvanceNode;
  }

  /** The steps of the loop over the links of a node that gives up. */
  predicate Fails(act: Action) {
    act.LookReader? || act.LookLock? || act.TrySeize? || act.FinishSeized? || act.ClearLock? || act.ReleaseSeized?
  }

  lemma {:induction false} FailStepRemembers(size: nat, id: nat, p: nat, l: Local, act: Action, b: View)
    requires Fails(act)
    requires Shaped(size, id, p, l.node) && Act(size, id, p, l, act).Some?
    requires Flags(b.rs, l.node.wside[p], l.out) && Remembers(l.node, p, l.out.writeLocked)
    ensures var m := Act(size, id, p, l, act).value; Remembers(m.node, p, m.out.writeLocked)
  {
    hide P.Push, P.Read, P.Write, P.WriteFailed, P.Restarted, AdvanceNode;
  }

  lemma {:induction false} ClosingStepRemembers(size: nat, id: nat, p: nat, l: Local, act: Action, b: View)
    requires act.LowerWriter? || act.LookClosing? || act.TryClosing? || act.ClosingClear? || act.ClosingRelease?
    requires Shaped(size, id, p, l.node) && Act(size, id, p, l, act).Some?
    requires Flags(b.rs, l.node.wside[p], l.out) && Remembers(l.node, p, l.out.writeLocked)
    ensures var m := Act(size, id, p, l, act).value; Remembers(m.node, p, m.out.writeLocked)
  {
    hide P.Push, P.Read, P.Write, P.WriteFailed, P.Restarted, AdvanceNode;
  }

  lemma {:induction false} OtherwiseRemembers(size: nat, id: nat, p: nat, l: Local, act: Action, b: View)
    requires !(act.LookWrite? || act.ChooseWrite? || act.FinishWrite? || act.FinishFailed? || act.LockOne?)
          && !Fails(act)
          && !(act.LowerWriter? || act.LookClosing? || act.TryClosing? || act.ClosingClear? || act.ClosingRelease?)
          && !act.Start? && !act.Advance?
    requires Shaped(size, id, p, l.node) && Act(size, id, p, l, act).Some?
    requires Flags(b.rs, l.node.wside[p], l.out) && Remembers(l.node, p, l.out.writeLocked)
    ensures var m := Act(size, id, p, l, act).value; Remembers(m.node, p, m.out.writeLocked)
  {
    hide P.Push, P.Read, P.Write, P.WriteFailed, P.Restarted, AdvanceNode;
  }

  lemma OwnStepRemembers(size: nat, id: nat, p: nat, l: Local, act: Action, b: View)
    requires Shaped(size, id, p, l.node) && Act(size, id, p, l, act).Some? && NodeInv(size, id, l.node)
    requires Flags(b.rs, l.node.wside[p], l.out) && Remembers(l.node, p, l.out.writeLocked)
    ensures var m := Act(size, id, p, l, act).value; Remembers(m.node, p, m.out.writeLocked)
  {
    hide Flags;
    if act.Start? {
      StartIsNew(size, id, p, l, act);
      hide NodeInv;
    } else if act.Advance? {
      AdvanceIs(size, id, p, l, act);
      AdvanceKeepsSides(size, id, l.node, act.leave, p);
      AdvanceKeepsActivity(size, id, l.node, act.leave);
      hide Act, AdvanceNode, NodeInv;
    } else {
      if act.LockOne? {
        LocksTheListed(size, id, p, l, act);
      }
      hide Act, Remembers, NodeInv;
      if act.LookWrite? || act.ChooseWrite? || act.FinishWrite? || act.FinishFailed? || act.LockOne? {
        WriteStepRemembers(size, id, p, l, act, b);
      } else if act.LookReader? || act.LookLock? || act.TrySeize? || act.FinishSeized?
                || act.ClearLock? || act.ReleaseSeized? {
        FailStepRemembers(size, id, p, l, act, b);
      } else if act.LowerWriter? || act.LookClosing? || act.TryClosing? || act.ClosingClear? || act.ClosingRelease? {
        ClosingStepRemembers(size, id, p, l, act, b);
      } else {
        OtherwiseRemembers(size, id, p, l, act, b);
      }
    }
  }

  lemma LocksTheListed(size: nat, id: nat, p: nat, l: Local, act: Action)
    requires Shaped(size, id, p, l.node) && Act(size, id, p, l, act).Some? && NodeInv(size, id, l.node) && act.LockOne?
    ensures l.node.wside[p].ToLock?
  {
    assert l.node.toLock[|l.node.toLock| - 1] in l.node.toLock;
  }

  lemma AdvanceIs(size: nat, id: nat, p: nat, l: Local, act: Action)
    requires Shaped(size, id, p, l.node) && Act(size, id, p, l, act).Some? && act.Advance?
    ensures AdvanceNode(size, id, l.node, act.leave).Some?
    ensures Act(size, id, p, l, act).value == l.(node := AdvanceNode(size, id, l.node, act.leave).value)
  {
    hide AdvanceNode;
  }

  lemma AdvanceKeepsActivity(size: nat, id: nat, n: Node, leave: bool)
    requires |n.signal| == size && id < size && AdvanceNode(size, id, n, leave).Some?
    ensures AdvanceNode(size, id, n, leave).value.activity == n.activity
  {
  }

  /** Only the entry of the link's own peer changes. */
  lemma {:induction false} OnlyOneActivity(size: nat, id: nat, q: nat, l: Local, act: Action)
    requires Shaped(size, id, q, l.node) && Act(size, id, q, l, act).Some? && !act.Start?
    ensures var was, now := l.node.activity, Act(size, id, q, l, act).value.node.activity;
            now == was || now == was[q := true] || now == was[q := false]
  {
    hide P.Push, P.Read, P.Write, P.WriteFailed, P.Restarted;
    if act.Advance? {
      AdvanceKeepsActivity(size, id, l.node, act.leave);
    }
    hide AdvanceNode;
  }

  lemma OtherStepRemembers(size: nat, id: nat, q: nat, l: Local, act: Action, p: nat, locked: bool)
    requires Shaped(size, id, q, l.node) && Act(size, id, q, l, act).Some? && NodeInv(size, id, l.node)
    requires p < size && p != id && p != q && Remembers(l.node, p, locked)
    ensures Remembers(Act(size, id, q, l, act).value.node, p, locked)
  {
    if act.Start? {
      StartIsNew(size, id, q, l, act);
    } else {
      OtherViews(size, id, q, l, act, p);
      OnlyOneActivity(size, id, q, l, act);
    }
    hide Act, NodeInv;
  }

  lemma StartIsNew(size: nat, id: nat, q: nat, l: Local, act: Action)
    requires Shaped(size, id, q, l.node) && Act(size, id, q, l, act).Some? && act.Start?
    ensures Act(size, id, q, l, act).value.node == NewNode(size)
  {
  }

  ghost predicate RememberedAt(s: System, w: nat, r: nat) {
    w < |s.nodes| && Pair(w, r) in s.links && Remembers(s.nodes[w], r, s.links[Pair(w, r)].writeLocked)
  }

  ghost predicate Remembered(s: System) {
    forall w: nat, r: nat :: w < s.size && r < s.size && w != r ==> RememberedAt(s, w, r)
  }

  lemma RememberedStep(s: System, m: Move, t: System, w: nat, r: nat)
    requires SystemInv(s) && SystemInv(t) && Steps(s, m, t) && t.size == s.size
    requires w < s.size && r < s.size && w != r && RememberedAt(s, w, r)
    ensures RememberedAt(t, w, r)
  {
    hide Act, NodeInv, PairInv, Remembers;
    CanMove(s, m, t);
    if m.id == w {
      OwnStep(s, m, t, r);
      if m.peer == r {
        FlagsAt(s, w, r);
        OwnStepRemembers(s.size, w, r, LocalOf(s, w, r), m.act, ViewOf(s.nodes[r], w));
      } else {
        OtherStepRemembers(s.size, w, m.peer, LocalOf(s, w, m.peer), m.act, r, s.links[Pair(w, r)].writeLocked);
      }
    } else {
      OthersStep(s, m, t, w, r);
      OnlyUnlocks(s, m, t, w, r);
      LessLocked(s.nodes[w], r, s.links[Pair(w, r)].writeLocked, t.links[Pair(w, r)].writeLocked);
    }
  }

  lemma LessLocked(n: Node, p: nat, locked: bool, after: bool)
    requires Remembers(n, p, locked) && (after ==> locked)
    ensures Remembers(n, p, after)
  {
  }

  lemma FlagsAt(s: System, w: nat, r: nat)
    requires SystemInv(s) && w < s.size && r < s.size && w != r
    ensures |s.nodes[w].wside| == |s.nodes[r].rside| == s.size
    ensures Flags(s.nodes[r].rside[w], s.nodes[w].wside[r], s.links[Pair(w, r)])
  {
    assert Linked(s, w, r);
    hide Handover, Signalled, Noticed, G.Sound, Flags;
  }

  /** A link is only locked by its writer. */
  lemma OnlyUnlocks(s: System, m: Move, t: System, w: nat, r: nat)
    requires SystemInv(s) && SystemInv(t) && Steps(s, m, t) && t.size == s.size
    requires w < s.size && r < s.size && w != r && m.id != w
    ensures t.links[Pair(w, r)].writeLocked ==> s.links[Pair(w, r)].writeLocked
  {
    hide Act, NodeInv, PairInv;
    OthersStep(s, m, t, w, r);
    if m.id == r && m.peer == w {
      CanMove(s, m, t);
      OwnStep(s, m, t, w);
      ReaderOnlyUnlocks(s.size, r, w, LocalOf(s, r, w), m.act);
    }
  }

  lemma {:induction false} ReaderOnlyUnlocks(size: nat, id: nat, p: nat, l: Local, act: Action)
    requires Shaped(size, id, p, l.node) && Act(size, id, p, l, act).Some?
    ensures Act(size, id, p, l, act).value.inn.writeLocked ==> l.inn.writeLocked
  {
    hide P.Push, P.Read, P.Write, P.WriteFailed, P.Restarted;
  }

  lemma AllRemembered(s: System, m: Move, t: System)
    requires SystemInv(s) && SystemInv(t) && Steps(s, m, t) && t.size == s.size && Remembered(s)
    ensures Remembered(t)
  {
    hide SystemInv, Steps, RememberedAt;
    forall w: nat, r: nat | w < t.size && r < t.size && w != r ensures RememberedAt(t, w, r) {
      RememberedStep(s, m, t, w, r);
    }
  }

  lemma InitialRemembered(size: nat, pageSize: nat)
    ensures Remembered(Initial(size, pageSize))
  {
    var s := Initial(size, pageSize);
    forall w: nat, r: nat | w < size && r < size && w != r ensures RememberedAt(s, w, r) {
      assert s.links[Pair(w, r)] == Link(false, CasIdle, false, false, G.Initial(pageSize));
    }
  }

  lemma {:induction false} RunRemembers(size: nat, pageSize: nat, n: nat, s: System)
    requires ReachedIn(size, pageSize, n, s)
    ensures SystemInv(s) && Remembered(s)
  {
    hide SystemInv, Steps, Initial, Remembered;
    RunInv(size, pageSize, n, s);
    if n == 0 {
      InitialRemembered(size, pageSize);
    } else {
      var t, m :| ReachedIn(size, pageSize, n - 1, t) && Steps(t, m, s);
      RunRemembers(size, pageSize, n - 1, t);
      SameSize(t, m, s);
      AllRemembered(t, m, s);
    }
  }

  lemma {:induction false} TraceRemembers(states: seq<System>, k: nat)
    requires Trace(states) && k < |states|
    ensures SystemInv(states[k]) && Remembered(states[k]) && states[k].size == states[0].size
  {
    hide SystemInv, Reachable, Steps, Remembered, ReachedIn, Trace;
    TraceInv(states, k);
    if k == 0 {
      ReachableRemembers(states);
    } else {
      TraceRemembers(states, k - 1);
      var m := TraceStep(states, k - 1);
      AllRemembered(states[k - 1], m, states[k]);
    }
  }

  lemma ReachableRemembers(states: seq<System>)
    requires Trace(states)
    ensures Remembered(states[0])
  {
    hide SystemInv, Steps, Remembered, ReachedIn;
    var size, pageSize, n :| ReachedIn(size, pageSize, n, states[0]);
    RunRemembers(size, pageSize, n, states[0]);
  }

  // ---------- the fail pass ----------

  /** What the area still holds for its writer. */
  function Outstanding(stale: bool, a: P.Area): seq<P.Event> {
    if stale then [] else a.undelivered + if a.delivered then [] else a.toBeDelivered
  }

  /** Nobody will read the link any more, and the area is as it was. */
  predicate Stuck(k: Link, stale: bool, a: P.Area) {
    k.writeLocked && k.chan.area == a && k.chan.hist.stale == stale
  }

  /** The area is empty, and what it held went back to its sources. */
  predicate TakenBack(k: Link, stale: bool, a: P.Area) {
    && k.chan.area == P.Area(false, false, [], [], [])
    && forall e :: e in Outstanding(stale, a) ==> e in k.chan.hist.givenBack
  }

  /** How far the pass is with a link whose reader is gone. */
  predicate Clearing(n: Node, p: nat, k: Link, stale: bool, a: P.Area)
  {
    && p < |n.wside| && !n.dying
    && match n.pc
       case AtRead(i) => Stuck(k, stale, a) && (p < i ==> n.check)
       case AtCheck(i) => Stuck(k, stale, a) && (p < i ==> n.check)
       case AtWrite(_) => Stuck(k, stale, a) && n.check
       case Unlock => Stuck(k, stale, a) && n.check
       case Lock => Stuck(k, stale, a) && n.check
       case Fail(i) =>
         if i < p then Stuck(k, stale, a)
         else if i > p then !k.writeLocked && TakenBack(k, stale, a)
         else if n.wside[p].SeizedDone? then TakenBack(k, stale, a)
         else if n.wside[p].SeizedFreed? then !k.writeLocked && TakenBack(k, stale, a)
         else Stuck(k, stale, a)
       case User => !k.writeLocked && TakenBack(k, stale, a)
       case _ => false
  }

  /** The reader is down and so is the writer on the way back. */
  predicate Gone(out: Link, inn: Link, w: WriterSide) {
    && !out.readerActive && !inn.writerActive && !out.cas.CasOn?
    && (out.cas.CasOff? <==> Seizes(w))
    && (w.Cleared? || w.Writing? || w.Failing? || w.ToLock? ==> !out.writeLocked)
  }

  lemma PushIsSameArea(c: P.Channel, size: nat, constructed: bool)
    ensures var d := P.Push(c, size, constructed);
            d.area == c.area && d.hist.stale == c.hist.stale && d.hist.givenBack == c.hist.givenBack
  {
  }

  lemma FailedTakesBack(k: Link, stale: bool, a: P.Area)
    requires Stuck(k, stale, a)
    ensures TakenBack(k.(chan := P.WriteFailed(k.chan)), stale, a)
  {
  }

  /** Before the barrier. */
  lemma {:induction false} EarlyStepClears(
    size: nat, id: nat, p: nat, l: Local, act: Action, stale: bool, a: P.Area)
    requires Shaped(size, id, p, l.node) && Act(size, id, p, l, act).Some?
    requires WriterAt(l.node.pc, p, l.node.wside[p]) && ReaderAt(l.node.pc, l.node.dying, p, l.node.rside[p])
    requires Gone(l.out, l.inn, l.node.wside[p]) && Remembers(l.node, p, l.out.writeLocked)
    requires Clearing(l.node, p, l.out, stale, a) && InPass(l.node.pc) && !l.node.pc.Fail?
    ensures var m := Act(size, id, p, l, act).value; Clearing(m.node, p, m.out, stale, a)
  {
    hide P.Push, P.Read, P.Write, P.WriteFailed, P.Restarted;
    if act.Push? {
      PushIsSameArea(l.out.chan, act.sz, act.constructed);
    }
  }

  lemma {:induction false} FailStepClears(
    size: nat, id: nat, p: nat, l: Local, act: Action, stale: bool, a: P.Area)
    requires Shaped(size, id, p, l.node) && Act(size, id, p, l, act).Some?
    requires WriterAt(l.node.pc, p, l.node.wside[p])
    requires Gone(l.out, l.inn, l.node.wside[p])
    requires Clearing(l.node, p, l.out, stale, a) && l.node.pc.Fail?
    ensures var m := Act(size, id, p, l, act).value; Clearing(m.node, p, m.out, stale, a)
  {
    hide P.Push, P.Read, P.Write, P.WriteFailed, P.Restarted;
    if act.Push? {
      PushIsSameArea(l.out.chan, act.sz, act.constructed);
    } else if act.FinishSeized? {
      FailedTakesBack(l.out, stale, a);
    }
  }

  /** A step with another peer: the check goes on, the link is as it was. */
  lemma OtherStepClears(
    size: nat, id: nat, q: nat, l: Local, act: Action, p: nat, k: Link, stale: bool, a: P.Area)
    requires Shaped(size, id, q, l.node) && Act(size, id, q, l, act).Some? && NodeInv(size, id, l.node)
    requires p < size && p != id && p != q && InPass(l.node.pc) && Clearing(l.node, p, k, stale, a)
    ensures Clearing(Act(size, id, q, l, act).value.node, p, k, stale, a)
  {
    assert WriterAt(l.node.pc, p, l.node.wside[p]);
    hide Act, NodeInv, Stuck, TakenBack;
    OtherViews(size, id, q, l, act, p);
    CheckGoesOn(size, id, q, l, act, p);
    StillClearing(l.node, Act(size, id, q, l, act).value.node, p, k, stale, a);
  }

  lemma StillClearing(n: Node, m: Node, p: nat, k: Link, stale: bool, a: P.Area)
    requires InPass(n.pc) && Clearing(n, p, k, stale, a) && Onward(n, m, p)
    requires n.pc.AtRead? && m.pc.AtWrite? ==> p < n.pc.i
    requires p < |m.wside| && p < |n.wside| && m.wside[p] == n.wside[p] && WriterAt(n.pc, p, n.wside[p])
    ensures Clearing(m, p, k, stale, a)
  {
  }

  /** How the program counter moves while the step is not at p, and that the check is not forgotten. */
  predicate Onward(n: Node, m: Node, p: nat) {
    && !m.dying && (n.check ==> m.check)
    && match n.pc
       case AtRead(i) => m.pc.AtWrite? || ((m.pc.AtRead? || m.pc.AtCheck?) && (p < i <==> p < m.pc.i))
       case AtCheck(i) => (m.pc.AtRead? || m.pc.AtCheck?) && (p < i <==> p < m.pc.i)
       case AtWrite(_) => m.pc.AtWrite? || m.pc.Unlock?
       case Unlock => m.pc.Unlock? || m.pc.Lock?
       case Lock => m.pc.Lock? || (if n.check then m.pc == Fail(0) else m.pc.Fail? || m.pc.User?)
       case Fail(i) =>
         if i == p then m.pc == n.pc
         else (m.pc.Fail? && (p < i <==> p < m.pc.i)) || (m.pc.User? && p < i)
       case _ => false
  }

  lemma {:induction false} CheckGoesOn(size: nat, id: nat, q: nat, l: Local, act: Action, p: nat)
    requires Shaped(size, id, q, l.node) && Act(size, id, q, l, act).Some? && NodeInv(size, id, l.node)
    requires p < size && p != id && p != q && InPass(l.node.pc) && !l.node.dying
    ensures Onward(l.node, Act(size, id, q, l, act).value.node, p)
    ensures var n := Act(size, id, q, l, act).value.node; l.node.pc.AtRead? && n.pc.AtWrite? ==> p < l.node.pc.i
  {
    hide P.Push, P.Read, P.Write, P.WriteFailed, P.Restarted, Increasing, UnlockBound, LockBound, ReaderAt, WriterAt;
  }

  ghost predicate ClearingAt(s: System, id: nat, peer: nat, stale: bool, a: P.Area) {
    id < |s.nodes| && Pair(id, peer) in s.links && Clearing(s.nodes[id], peer, s.links[Pair(id, peer)], stale, a)
  }

  predicate DeadAt(s: System, peer: nat) {
    peer < |s.nodes| && s.nodes[peer].pc.Dead?
  }

  lemma GoneAt(s: System, id: nat, peer: nat)
    requires SystemInv(s) && id < s.size && peer < s.size && id != peer && DeadAt(s, peer)
    ensures |s.nodes[id].wside| == |s.nodes[id].rside| == s.size
    ensures Gone(s.links[Pair(id, peer)], s.links[Pair(peer, id)], s.nodes[id].wside[peer])
    ensures WriterAt(s.nodes[id].pc, peer, s.nodes[id].wside[peer])
    ensures ReaderAt(s.nodes[id].pc, s.nodes[id].dying, peer, s.nodes[id].rside[peer])
  {
    FlagsAt(s, id, peer);
    FlagsAt(s, peer, id);
    assert WriterAt(s.nodes[peer].pc, id, s.nodes[peer].wside[id]);
    assert ReaderAt(s.nodes[peer].pc, s.nodes[peer].dying, id, s.nodes[peer].rside[id]);
    hide PairInv;
  }

  /** A node that is gone does nothing but start again. */
  lemma DeadDoesNothing(size: nat, id: nat, p: nat, l: Local, act: Action)
    requires Shaped(size, id, p, l.node) && Act(size, id, p, l, act).Some? && NodeInv(size, id, l.node) &&
             l.node.pc.Dead?
    ensures !Act(size, id, p, l, act).value.node.pc.Dead?
  {
    hide P.Push, P.Read, P.Write, P.WriteFailed, P.Restarted;
    assert WriterAt(l.node.pc, p, l.node.wside[p]) && ReaderAt(l.node.pc, l.node.dying, p, l.node.rside[p]);
  }

  lemma ClearingStep(s: System, m: Move, t: System, id: nat, peer: nat, stale: bool, a: P.Area)
    requires SystemInv(s) && SystemInv(t) && Steps(s, m, t) && t.size == s.size && Remembered(s)
    requires id < s.size && peer < s.size && id != peer && DeadAt(s, peer) && DeadAt(t, peer)
    requires ClearingAt(s, id, peer, stale, a) && InPass(s.nodes[id].pc)
    ensures ClearingAt(t, id, peer, stale, a)
  {
    hide Act, NodeInv, PairInv, Clearing;
    CanMove(s, m, t);
    if m.id == id {
      OwnStep(s, m, t, peer);
      if m.peer == peer {
        assert RememberedAt(s, id, peer);
        GoneAt(s, id, peer);
        if s.nodes[id].pc.Fail? {
          FailStepClears(s.size, id, peer, LocalOf(s, id, peer), m.act, stale, a);
        } else {
          EarlyStepClears(s.size, id, peer, LocalOf(s, id, peer), m.act, stale, a);
        }
      } else {
        OtherStepClears(s.size, id, m.peer, LocalOf(s, id, m.peer), m.act, peer, s.links[Pair(id, peer)], stale, a);
      }
    } else {
      OthersStep(s, m, t, id, peer);
      if m.id == peer {
        StaysDead(s, m, t);
      }
    }
  }

  lemma StaysDead(s: System, m: Move, t: System)
    requires SystemInv(s) && SystemInv(t) && Steps(s, m, t) && t.size == s.size && DeadAt(s, m.id)
    ensures !DeadAt(t, m.id)
  {
    hide Act, NodeInv, PairInv;
    CanMove(s, m, t);
    OwnStep(s, m, t, m.peer);
    DeadDoesNothing(s.size, m.id, m.peer, LocalOf(s, m.id, m.peer), m.act);
  }

  lemma {:induction false} PassClears(states: seq<System>, k: nat, id: nat, peer: nat, stale: bool, a: P.Area)
    requires Passes(states, id, peer) && k < |states| && Pair(id, peer) in states[0].links
    requires states[0].links[Pair(id, peer)].writeLocked && forall j :: 0 <= j < |states| ==> DeadAt(states[j], peer)
    requires stale == states[0].links[Pair(id, peer)].chan.hist.stale && a == states[0].links[Pair(id, peer)].chan.area
    ensures SystemInv(states[k]) && states[k].size == states[0].size && ClearingAt(states[k], id, peer, stale, a)
  {
    hide SystemInv, Reachable, Steps, Trace, Remembered, DeadAt;
    TraceRemembers(states, k);
    if k == 0 {
      ClearingBegins(states[0], id, peer);
    } else {
      PassClears(states, k - 1, id, peer, stale, a);
      TraceRemembers(states, k - 1);
      var m := TraceStep(states, k - 1);
      hide ClearingAt;
      ClearingStep(states[k - 1], m, states[k], id, peer, stale, a);
    }
  }

  lemma ClearingBegins(s: System, id: nat, peer: nat)
    requires SystemInv(s) && id < s.size && peer < s.size && id != peer
    requires s.nodes[id].pc == AtRead(0) && s.links[Pair(id, peer)].writeLocked
    ensures var c := s.links[Pair(id, peer)].chan; ClearingAt(s, id, peer, c.hist.stale, c.area)
  {
  }

  /**
   A pass takes back what was handed to a node that is gone.  If the reader of a locked link is not there throughout a
   pass of its writer, the pass ends with the link unlocked and its area empty, and every event of it that was neither
   consumed nor given back before has been given back to the actor that pushed it.
   */
  lemma PassTakesBack(states: seq<System>, id: nat, peer: nat)
    requires Passes(states, id, peer) && Pair(id, peer) in states[0].links && states[|states| - 1].nodes[id].pc.User?
    requires states[0].links[Pair(id, peer)].writeLocked && forall j :: 0 <= j < |states| ==> DeadAt(states[j], peer)
    ensures Pair(id, peer) in states[|states| - 1].links
    ensures var c, k := states[0].links[Pair(id, peer)].chan, states[|states| - 1].links[Pair(id, peer)];
            && !k.writeLocked && k.chan.area == P.Area(false, false, [], [], [])
            && forall e :: e in P.LivePending(c) || e in P.LiveUnread(c) ==> e in k.chan.hist.givenBack
  {
    var c := states[0].links[Pair(id, peer)].chan;
    PassClears(states, |states| - 1, id, peer, c.hist.stale, c.area);
    hide Passes, SystemInv, DeadAt;
  }
}
