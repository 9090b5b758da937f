/** A pass never gets stuck: whatever the others have done, a node can finish it by steps of its own. */
module ParallelProgress {
  import opened Wrappers
  import opened Parallel
  import opened ParallelSafety
  import opened ParallelRuns
  import opened ParallelPasses
  import P = ChannelPayload
  import G = ChannelPages

  /** What is left of the handling of one link on the way through the pass, before the barrier and after it. */
  function ReadSteps(r: ReaderSide): nat {
    if r.Reading? then 2 else 3
  }

  function WriteSteps(w: WriterSide): nat {
    match w case Cleared => 2 case Writing => 1 case Failing => 1 case _ => 3
  }

  function FailSteps(w: WriterSide): nat {
    match w
    case FailLook => 5
    case FailTry => 4
    case Seized => 3
    case SeizedDone => 2
    case SeizedFreed => 1
    case _ => 6
  }

  function Left(size: nat, i: nat): nat {
    if i <= size then size - i else 0
  }

  /** A bound on the steps of its own the node has to take. */
  function Rank(size: nat, n: Node): nat {
    var side := size + 1;
    match n.pc
    case AtRead(i) => 40 * side + 4 * Left(size, i) + if i < |n.rside| then ReadSteps(n.rside[i]) else 3
    case AtCheck(i) => 40 * side + 4 * Left(size, i) + 1
    case AtWrite(i) => 30 * side + 4 * Left(size, i) + if i < |n.wside| then WriteSteps(n.wside[i]) else 3
    case Unlock => 20 * side + |n.toUnlock|
    case Lock => 10 * side + |n.toLock|
    case Fail(i) => 8 * Left(size, i) + if i < |n.wside| then FailSteps(n.wside[i]) else 6
    case _ => 0
  }

  /** The next step of the node, and the peer it is with. */
  function Peer(size: nat, id: nat, n: Node): nat {
    var other := if id == 0 then 1 else 0;
    match n.pc
    case AtRead(i) => if i < size && i != id then i else other
    case AtCheck(i) => i
    case AtWrite(i) => if i < size && i != id then i else other
    case Unlock => if n.toUnlock != [] then n.toUnlock[|n.toUnlock| - 1] else other
    case Lock => if n.toLock != [] then n.toLock[|n.toLock| - 1] else other
    case Fail(i) => if i < size && i != id then i else other
    case _ => other
  }

  /** All of n events are dispatched. */
  function Verdicts(n: nat): (v: seq<bool>)
    ensures |v| == n
  {
    seq(n, _ => true)
  }

  function Choice(size: nat, id: nat, l: Local): Action {
    var n := l.node;
    match n.pc
    case AtRead(i) =>
      if i >= size || i == id || i >= |n.rside| then Advance(false)
      else if n.rside[i].Reading? then FinishRead(Verdicts(|l.inn.chan.area.toBeDelivered|)) else LookRead
    case AtCheck(i) => CheckWriter
    case AtWrite(i) =>
      if i >= size || i == id || i >= |n.wside| then Advance(false)
      else (match n.wside[i] case Cleared => ChooseWrite case Writing => FinishWrite case Failing => FinishFailed
            case _ => LookWrite)
    case Unlock => if n.toUnlock == [] then Advance(false) else UnlockOne
    case Lock => if n.toLock == [] then Advance(false) else LockOne
    case Fail(i) =>
      if i >= size || i == id || i >= |n.wside| then Advance(false)
      else (match n.wside[i] case FailLook => LookLock case FailTry => TrySeize case Seized => FinishSeized
            case SeizedDone => ClearLock case SeizedFreed => ReleaseSeized case _ => LookReader)
    case _ => Advance(false)
  }

  lemma PeerIsOther(size: nat, id: nat, n: Node)
    requires NodeInv(size, id, n) && size >= 2 && InPass(n.pc) && !n.dying
    ensures Peer(size, id, n) < size && Peer(size, id, n) != id
    ensures (ListsUnlocks(n.pc, n.dying) ==> |n.toUnlock| <= size) && (ListsLocks(n.pc) ==> |n.toLock| <= size)
  {
    if ListsUnlocks(n.pc, n.dying) {
      IncreasingIsShort(n.toUnlock, UnlockBound(size, n.pc));
      if n.toUnlock != [] {
        assert n.toUnlock[|n.toUnlock| - 1] in n.toUnlock;
      }
    }
    if ListsLocks(n.pc) {
      IncreasingIsShort(n.toLock, LockBound(size, n.pc));
      if n.toLock != [] {
        assert n.toLock[|n.toLock| - 1] in n.toLock;
      }
    }
  }

  ghost predicate Ready(size: nat, id: nat, p: nat, l: Local) {
    && Shaped(size, id, p, l.node) && NodeInv(size, id, l.node) && size >= 2
    && InPass(l.node.pc) && !l.node.dying && p == Peer(size, id, l.node)
    && (ListsUnlocks(l.node.pc, l.node.dying) ==> |l.node.toUnlock| <= size)
    && (ListsLocks(l.node.pc) ==> |l.node.toLock| <= size)
  }

  /** The step is possible, and brings the pass nearer to its end. */
  ghost predicate Works(size: nat, id: nat, p: nat, l: Local) {
    && Shaped(size, id, p, l.node) && Act(size, id, p, l, Choice(size, id, l)).Some?
    && var n := Act(size, id, p, l, Choice(size, id, l)).value.node;
       !n.dying && (n.pc.User? || (InPass(n.pc) && Rank(size, n) < Rank(size, l.node)))
  }

  lemma {:induction false} ReadingWorks(size: nat, id: nat, p: nat, l: Local)
    requires l.node.pc.AtRead? && l.node.pc.i < size && l.node.pc.i != id
    requires Ready(size, id, p, l)
    ensures Works(size, id, p, l)
  {
    hide P.Push, P.Read, P.Write, P.WriteFailed, P.Restarted, Increasing, UnlockBound, LockBound, PcOk;
  }

  lemma {:induction false} CheckingWorks(size: nat, id: nat, p: nat, l: Local)
    requires l.node.pc.AtCheck?
    requires Ready(size, id, p, l)
    ensures Works(size, id, p, l)
  {
    hide P.Push, P.Read, P.Write, P.WriteFailed, P.Restarted, Increasing, UnlockBound, LockBound, PcOk;
  }

  lemma {:induction false} LoopsEnd(size: nat, id: nat, p: nat, l: Local)
    requires (l.node.pc.AtRead? || l.node.pc.AtWrite? || l.node.pc.Fail?) && (l.node.pc.i >= size || l.node.pc.i == id)
    requires Ready(size, id, p, l)
    ensures Works(size, id, p, l)
  {
    hide P.Push, P.Read, P.Write, P.WriteFailed, P.Restarted, Increasing, UnlockBound, LockBound;
  }

  lemma {:induction false} WritingWorks(size: nat, id: nat, p: nat, l: Local)
    requires l.node.pc.AtWrite? && l.node.pc.i < size && l.node.pc.i != id
    requires Ready(size, id, p, l)
    ensures Works(size, id, p, l)
  {
    hide P.Push, P.Read, P.Write, P.WriteFailed, P.Restarted, Increasing, UnlockBound, LockBound, PcOk;
  }

  lemma {:induction false} BarrierWorks(size: nat, id: nat, p: nat, l: Local)
    requires l.node.pc.Unlock? || l.node.pc.Lock?
    requires Ready(size, id, p, l)
    ensures Works(size, id, p, l)
  {
    hide P.Push, P.Read, P.Write, P.WriteFailed, P.Restarted, Increasing, UnlockBound, LockBound, PcOk;
  }

  lemma {:induction false} FailingWorks(size: nat, id: nat, p: nat, l: Local)
    requires l.node.pc.Fail? && l.node.pc.i < size && l.node.pc.i != id
    requires Ready(size, id, p, l)
    ensures Works(size, id, p, l)
  {
    hide P.Push, P.Read, P.Write, P.WriteFailed, P.Restarted, Increasing, UnlockBound, LockBound, PcOk;
  }

  lemma ChoiceWorks(size: nat, id: nat, p: nat, l: Local)
    requires Ready(size, id, p, l)
    ensures Works(size, id, p, l)
  {
    var pc := l.node.pc;
    hide Works, NodeInv, Shaped, Rank, Peer;
    match pc
    case AtCheck(_) => CheckingWorks(size, id, p, l);
    case Unlock => BarrierWorks(size, id, p, l);
    case Lock => BarrierWorks(size, id, p, l);
    case AtRead(i) => if i >= size || i == id { LoopsEnd(size, id, p, l); } else { ReadingWorks(size, id, p, l); }
    case AtWrite(i) => if i >= size || i == id { LoopsEnd(size, id, p, l); } else { WritingWorks(size, id, p, l); }
    case Fail(i) => if i >= size || i == id { LoopsEnd(size, id, p, l); } else { FailingWorks(size, id, p, l); }
  }

  // ---------- the pass goes to its end ----------

  /** From s to the last of the states, all by steps of node id in its pass. */
  ghost predicate Alone(states: seq<System>, id: nat) {
    && states != []
    && (forall i, j {:trigger states[i], states[j]} :: 0 <= i && j == i + 1 && j < |states| ==>
          OwnStepTo(states[i], id, states[j]))
    && (forall k :: 0 <= k < |states| ==> id < |states[k].nodes|)
    && (forall k :: 0 <= k < |states| - 1 ==> InPass(states[k].nodes[id].pc))
    && states[|states| - 1].nodes[id].pc.User?
  }

  ghost predicate OwnStepTo(s: System, id: nat, t: System) {
    exists m: Move :: m.id == id && Steps(s, m, t)
  }

  lemma StepForward(s: System, id: nat) returns (t: System)
    requires SystemInv(s) && s.size >= 2 && id < s.size && InPass(s.nodes[id].pc) && !s.nodes[id].dying
    ensures SystemInv(t) && t.size == s.size && OwnStepTo(s, id, t) && !t.nodes[id].dying
    ensures t.nodes[id].pc.User? || (InPass(t.nodes[id].pc) && Rank(s.size, t.nodes[id]) < Rank(s.size, s.nodes[id]))
  {
    hide Act, PairInv, Rank, InPass;
    var p := Peer(s.size, id, s.nodes[id]);
    PeerIsOther(s.size, id, s.nodes[id]);
    hide Peer;
    IsReady(s, id, p);
    var l := LocalOf(s, id, p);
    ChoiceWorks(s.size, id, p, l);
    var m := Move(id, p, Choice(s.size, id, l));
    t := Next(s, m);
    hide Choice, NodeInv;
    StepsInv(s, m, t);
    OwnStep(s, m, t, p);
  }

  lemma IsReady(s: System, id: nat, p: nat)
    requires SystemInv(s) && s.size >= 2 && id < s.size && InPass(s.nodes[id].pc) && !s.nodes[id].dying
    requires p == Peer(s.size, id, s.nodes[id]) && p < s.size && p != id
    ensures Ready(s.size, id, p, LocalOf(s, id, p))
  {
    hide Act, PairInv, Peer;
    PeerIsOther(s.size, id, s.nodes[id]);
  }

  lemma NodesOf(s: System, id: nat)
    requires SystemInv(s) && id < s.size
    ensures id < |s.nodes|
  {
  }

  lemma AloneLast(s: System, t: System, id: nat)
    requires OwnStepTo(s, id, t) && id < |s.nodes| && id < |t.nodes| && InPass(s.nodes[id].pc) && t.nodes[id].pc.User?
    ensures Alone([s, t], id)
  {
  }

  lemma AloneJoins(s: System, rest: seq<System>, id: nat)
    requires Alone(rest, id) && OwnStepTo(s, id, rest[0]) && id < |s.nodes| && InPass(s.nodes[id].pc)
    ensures Alone([s] + rest, id)
  {
    var states := [s] + rest;
    hide OwnStepTo;
    forall i, j | 0 <= i && j == i + 1 && j < |states| ensures OwnStepTo(states[i], id, states[j]) {
      assert i > 0 ==> states[i] == rest[i - 1] && states[j] == rest[j - 1];
    }
  }

  lemma {:induction false} PassEnds(s: System, id: nat) returns (states: seq<System>)
    requires SystemInv(s) && s.size >= 2 && id < s.size && InPass(s.nodes[id].pc) && !s.nodes[id].dying
    ensures Alone(states, id) && states[0] == s
    decreases Rank(s.size, s.nodes[id])
  {
    var t := StepForward(s, id);
    NodesOf(s, id);
    NodesOf(t, id);
    hide SystemInv, OwnStepTo, Rank, Alone, InPass;
    if t.nodes[id].pc.User? {
      states := [s, t];
      AloneLast(s, t, id);
    } else {
      var rest := PassEnds(t, id);
      states := [s] + rest;
      AloneJoins(s, rest, id);
    }
  }

  /** The actors had their turn: the next pass can begin. */
  lemma PassBegins(s: System, id: nat) returns (t: System)
    requires SystemInv(s) && s.size >= 2 && id < s.size && s.nodes[id].pc.User?
    ensures OwnStepTo(s, id, t) && id < |t.nodes| && t.nodes[id].pc == AtRead(0)
  {
    var p := if id == 0 then 1 else 0;
    hide PairInv;
    var m := Move(id, p, Advance(false));
    t := Next(s, m);
    OwnStep(s, m, t, p);
  }

  /**
   In every reachable state a node in its loop can end the pass it is in by steps of its own, whatever the others are
   in the middle of.
   */
  lemma PassCompletes(s: System, id: nat) returns (states: seq<System>)
    requires Reachable(s) && s.size >= 2 && id < |s.nodes| && InPass(s.nodes[id].pc) && !s.nodes[id].dying
    ensures Alone(states, id) && states[0] == s
  {
    ReachableInv(s);
    hide Reachable;
    states := PassEnds(s, id);
  }

  // ---------- a node can come up ----------

  predicate Coming(pc: Pc) {
    pc.Dead? || pc.CtorWrite? || pc.CtorRead?
  }

  function ComingRank(size: nat, n: Node): nat {
    match n.pc
    case Dead => 4 * size + 20
    case CtorWrite(i) => 3 * size + 10 + Left(size, i)
    case CtorRead(i) => 2 * Left(size, i) + if i < |n.rside| && n.rside[i].Setting? then 1 else 2
    case _ => 0
  }

  function ComingPeer(size: nat, id: nat, n: Node): nat {
    var other := if id == 0 then 1 else 0;
    match n.pc
    case CtorWrite(i) => if i < size && i != id then i else other
    case CtorRead(i) => if i < size && i != id then i else other
    case _ => other
  }

  function ComingChoice(size: nat, id: nat, n: Node): Action {
    match n.pc
    case CtorWrite(i) => if i >= size || i == id then Advance(false) else ActivateWriter
    case CtorRead(i) =>
      if i >= size || i == id || i >= |n.rside| then Advance(false)
      else if n.rside[i].Setting? then AcquireReader else RaiseReader
    case _ => Start
  }

  lemma {:induction false} ComingWorks(size: nat, id: nat, p: nat, l: Local)
    requires Shaped(size, id, p, l.node) && NodeInv(size, id, l.node) && size >= 2
    requires Coming(l.node.pc) && p == ComingPeer(size, id, l.node)
    requires l.node.rside[p].Off? || l.node.rside[p].Setting? ==> l.inn.cas.CasIdle?
    ensures Act(size, id, p, l, ComingChoice(size, id, l.node)).Some?
    ensures var n := Act(size, id, p, l, ComingChoice(size, id, l.node)).value.node;
            n.pc.User? || (Coming(n.pc) && ComingRank(size, n) < ComingRank(size, l.node))
  {
    hide P.Push, P.Read, P.Write, P.WriteFailed, P.Restarted, Increasing, UnlockBound, LockBound;
    assert ReaderAt(l.node.pc, l.node.dying, p, l.node.rside[p]) && WriterAt(l.node.pc, p, l.node.wside[p]);
  }

  /** No writer is taking back what it handed to id before. */
  ghost predicate Untouched(s: System, id: nat) {
    forall p :: 0 <= p < s.size && p != id ==>
      p < |s.nodes| && id < |s.nodes[p].wside| && !Seizes(s.nodes[p].wside[id])
  }

  ghost predicate ComesUp(states: seq<System>, id: nat) {
    && states != []
    && (forall i, j {:trigger states[i], states[j]} :: 0 <= i && j == i + 1 && j < |states| ==>
          OwnStepTo(states[i], id, states[j]))
    && id < |states[|states| - 1].nodes| && states[|states| - 1].nodes[id].pc.User?
  }

  lemma ComingForward(s: System, id: nat) returns (t: System)
    requires SystemInv(s) && s.size >= 2 && id < s.size && Coming(s.nodes[id].pc) && Untouched(s, id)
    ensures SystemInv(t) && t.size == s.size && OwnStepTo(s, id, t) && Untouched(t, id)
    ensures t.nodes[id].pc.User? ||
            (Coming(t.nodes[id].pc) && ComingRank(s.size, t.nodes[id]) < ComingRank(s.size, s.nodes[id]))
  {
    var p := ComingPeer(s.size, id, s.nodes[id]);
    CasIsIdle(s, id, p);
    var l := LocalOf(s, id, p);
    hide Act, PairInv, ComingRank, Coming, NodeInv;
    ComingWorks(s.size, id, p, l);
    var m := Move(id, p, ComingChoice(s.size, id, l.node));
    t := Next(s, m);
    assert Steps(s, m, t);
    StepsInv(s, m, t);
    OwnStep(s, m, t, p);
    UntouchedStays(s, m, t);
    hide SystemInv, Untouched, ComingChoice, Next;
  }

  lemma UntouchedStays(s: System, m: Move, t: System)
    requires SystemInv(s) && SystemInv(t) && Steps(s, m, t) && Untouched(s, m.id)
    ensures t.size == s.size && Untouched(t, m.id)
  {
    hide Act, NodeInv, PairInv, SystemInv;
    SameSize(s, m, t);
    forall p | 0 <= p < t.size && p != m.id
      ensures p < |t.nodes| && m.id < |t.nodes[p].wside| && !Seizes(t.nodes[p].wside[m.id]) {
      OwnStep(s, m, t, p);
      NodesOf(t, p);
    }
  }

  lemma CasIsIdle(s: System, id: nat, p: nat)
    requires SystemInv(s) && s.size >= 2 && id < s.size && Coming(s.nodes[id].pc) && Untouched(s, id)
    requires p == ComingPeer(s.size, id, s.nodes[id])
    ensures p < s.size && p != id && Shaped(s.size, id, p, s.nodes[id]) && NodeInv(s.size, id, s.nodes[id])
    ensures var r := s.nodes[id].rside[p]; r.Off? || r.Setting? ==> s.links[Pair(p, id)].cas.CasIdle?
  {
    hide Act;
    assert Linked(s, p, id);
    hide Handover, Signalled, Noticed, G.Sound;
  }

  lemma UpJoins(s: System, rest: seq<System>, id: nat)
    requires ComesUp(rest, id) && OwnStepTo(s, id, rest[0])
    ensures ComesUp([s] + rest, id)
  {
    var states := [s] + rest;
    hide OwnStepTo;
    forall i, j | 0 <= i && j == i + 1 && j < |states| ensures OwnStepTo(states[i], id, states[j]) {
      assert i > 0 ==> states[i] == rest[i - 1] && states[j] == rest[j - 1];
    }
  }

  /** A node that is down comes up by steps of its own, unless a writer holds one of its links just then. */
  lemma {:induction false} NodeComesUp(s: System, id: nat) returns (states: seq<System>)
    requires SystemInv(s) && s.size >= 2 && id < s.size && Coming(s.nodes[id].pc) && Untouched(s, id)
    ensures ComesUp(states, id) && states[0] == s
    decreases ComingRank(s.size, s.nodes[id])
  {
    var t := ComingForward(s, id);
    NodesOf(s, id);
    NodesOf(t, id);
    hide SystemInv, OwnStepTo, ComingRank, ComesUp, Coming, Untouched;
    if t.nodes[id].pc.User? {
      UpLast(t, id);
      states := [s] + [t];
      UpJoins(s, [t], id);
    } else {
      var rest := NodeComesUp(t, id);
      states := [s] + rest;
      UpJoins(s, rest, id);
    }
  }

  lemma UpLast(t: System, id: nat)
    requires id < |t.nodes| && t.nodes[id].pc.User?
    ensures ComesUp([t], id)
  {
  }
}
