/** The system of N nodes, its runs, and what every run keeps. */
module ParallelRuns {
  import opened Parallel
  import opened ParallelSafety
  import P = ChannelPayload
  import G = ChannelPages

  datatype Pair = Pair(w: nat, r: nat)

  datatype System = System(size: nat, nodes: seq<Node>, links: map<Pair, Link>)

  /** Node id takes step act on its links with peer. */
  datatype Move = Move(id: nat, peer: nat, act: Action)

  function DeadNode(size: nat): Node {
    NewNode(size).(pc := Dead)
  }

  function Initial(size: nat, pageSize: nat): System {
    System(size, Repeat(size, DeadNode(size)),
           map w, r | 0 <= w < size && 0 <= r < size && w != r ::
             Pair(w, r) := Link(false, CasIdle, false, false, G.Initial(pageSize)))
  }

  ghost predicate WellFormed(s: System) {
    && |s.nodes| == s.size
    && (forall i :: 0 <= i < s.size ==> NodeInv(s.size, i, s.nodes[i]))
    && (forall w, r :: 0 <= w < s.size && 0 <= r < s.size && w != r ==> Pair(w, r) in s.links)
  }

  ghost predicate SystemInv(s: System) {
    && WellFormed(s)
    && forall w: nat, r: nat {:trigger Pair(w, r)} :: w < s.size && r < s.size && w != r ==> Linked(s, w, r)
  }

  ghost predicate Linked(s: System, w: nat, r: nat)
    requires WellFormed(s) && w < s.size && r < s.size && w != r
  {
    PairInv(ViewOf(s.nodes[w], r), ViewOf(s.nodes[r], w), s.links[Pair(w, r)], s.links[Pair(r, w)])
  }

  ghost function LocalOf(s: System, id: nat, p: nat): Local
    requires WellFormed(s) && id < s.size && p < s.size && id != p
  {
    Local(s.nodes[id], s.links[Pair(id, p)], s.links[Pair(p, id)])
  }

  ghost function Updated(s: System, id: nat, p: nat, l: Local): System
    requires id < |s.nodes|
  {
    s.(nodes := s.nodes[id := l.node], links := s.links[Pair(id, p) := l.out][Pair(p, id) := l.inn])
  }

  ghost predicate Enabled(s: System, m: Move) {
    && WellFormed(s) && m.id < s.size && m.peer < s.size && m.id != m.peer
    && Act(s.size, m.id, m.peer, LocalOf(s, m.id, m.peer), m.act).Some?
  }

  ghost function Next(s: System, m: Move): System
    requires Enabled(s, m)
  {
    Updated(s, m.id, m.peer, Act(s.size, m.id, m.peer, LocalOf(s, m.id, m.peer), m.act).value)
  }

  ghost predicate Steps(s: System, m: Move, t: System) {
    Enabled(s, m) && t == Next(s, m)
  }

  /** s is the state after some run of n moves of a system of this size. */
  ghost predicate ReachedIn(size: nat, pageSize: nat, n: nat, s: System) {
    if n == 0 then s == Initial(size, pageSize)
    else exists t, m :: ReachedIn(size, pageSize, n - 1, t) && Steps(t, m, s)
  }

  ghost predicate Reachable(s: System) {
    exists size, pageSize, n :: ReachedIn(size, pageSize, n, s)
  }

  // ---------- the invariant ----------

  lemma InitialInv(size: nat, pageSize: nat)
    ensures SystemInv(Initial(size, pageSize))
  {
    var s := Initial(size, pageSize);
    G.InitialIsSound(pageSize);
    forall w: nat, r: nat | w < size && r < size && w != r ensures Linked(s, w, r) {
      assert s.links[Pair(w, r)] == s.links[Pair(r, w)] == Link(false, CasIdle, false, false, G.Initial(pageSize));
    }
  }

  lemma PairIsSymmetric(a: View, b: View, ab: Link, ba: Link)
    requires PairInv(a, b, ab, ba)
    ensures PairInv(b, a, ba, ab)
  {
  }

  lemma NextIsWellFormed(s: System, m: Move)
    requires Enabled(s, m)
    ensures WellFormed(Next(s, m))
  {
    StepKeepsNode(s.size, m.id, m.peer, LocalOf(s, m.id, m.peer), m.act);
  }

  /** The two links of the step. */
  lemma MovedPairKeeps(size: nat, id: nat, p: nat, l: Local, act: Action, b: View)
    requires Shaped(size, id, p, l.node) && Act(size, id, p, l, act).Some? && NodeInv(size, id, l.node)
    requires PairInv(ViewOf(l.node, p), b, l.out, l.inn)
    ensures var n := Act(size, id, p, l, act).value;
            && |n.node.rside| == |n.node.wside| == |n.node.signal| == size
            && PairInv(ViewOf(n.node, p), b, n.out, n.inn) && PairInv(b, ViewOf(n.node, p), n.inn, n.out)
  {
    StepKeepsPair(size, id, p, l, act, b);
    var n := Act(size, id, p, l, act).value;
    PairIsSymmetric(ViewOf(n.node, p), b, n.out, n.inn);
  }

  /** The pair that moves. */
  lemma NextKeepsMovedPair(s: System, m: Move)
    requires Enabled(s, m) && Linked(s, m.id, m.peer)
    ensures WellFormed(Next(s, m)) && Linked(Next(s, m), m.id, m.peer) && Linked(Next(s, m), m.peer, m.id)
  {
    hide PairInv, Act;
    NextIsWellFormed(s, m);
    var t, l := Next(s, m), LocalOf(s, m.id, m.peer);
    MovedPairKeeps(s.size, m.id, m.peer, l, m.act, ViewOf(s.nodes[m.peer], m.id));
    var n := Act(s.size, m.id, m.peer, l, m.act).value;
    assert t.nodes[m.id] == n.node && t.nodes[m.peer] == s.nodes[m.peer];
    assert t.links[Pair(m.id, m.peer)] == n.out && t.links[Pair(m.peer, m.id)] == n.inn;
  }

  /** What stays when node id moves on other links than those with q. */
  lemma OtherPeerKeeps(size: nat, id: nat, p: nat, l: Local, act: Action, q: nat, b: View, out: Link, inn: Link)
    requires Shaped(size, id, p, l.node) && Act(size, id, p, l, act).Some? && NodeInv(size, id, l.node)
    requires q < size && q != id && q != p && PairInv(ViewOf(l.node, q), b, out, inn)
    ensures var n := Act(size, id, p, l, act).value.node;
            && |n.rside| == |n.wside| == |n.signal| == size
            && PairInv(ViewOf(n, q), b, out, inn) && PairInv(b, ViewOf(n, q), inn, out)
  {
    OtherViews(size, id, p, l, act, q);
    var v := ViewOf(Act(size, id, p, l, act).value.node, q);
    StartedIsHarmless(ViewOf(l.node, q), v, b, out, inn);
    PairIsSymmetric(v, b, out, inn);
  }

  /** A pair that shares the moving node but not the links of the step. */
  lemma NextKeepsOtherPeer(s: System, m: Move, q: nat)
    requires Enabled(s, m) && q < s.size && q != m.id && q != m.peer && Linked(s, m.id, q)
    ensures WellFormed(Next(s, m)) && Linked(Next(s, m), m.id, q) && Linked(Next(s, m), q, m.id)
  {
    NextIsWellFormed(s, m);
    OtherPeerKeeps(s.size, m.id, m.peer, LocalOf(s, m.id, m.peer), m.act, q,
                   ViewOf(s.nodes[q], m.id), s.links[Pair(m.id, q)], s.links[Pair(q, m.id)]);
    var t := Next(s, m);
    assert t.links[Pair(m.id, q)] == s.links[Pair(m.id, q)] && t.links[Pair(q, m.id)] == s.links[Pair(q, m.id)];
    assert t.nodes[q] == s.nodes[q];
  }

  /** A pair without the moving node. */
  lemma NextKeepsStrangers(s: System, m: Move, w: nat, r: nat)
    requires Enabled(s, m) && w < s.size && r < s.size && w != r && w != m.id && r != m.id && Linked(s, w, r)
    ensures WellFormed(Next(s, m)) && Linked(Next(s, m), w, r)
  {
    NextIsWellFormed(s, m);
    var t := Next(s, m);
    assert t.links[Pair(w, r)] == s.links[Pair(w, r)] && t.links[Pair(r, w)] == s.links[Pair(r, w)];
    assert t.nodes[w] == s.nodes[w] && t.nodes[r] == s.nodes[r];
  }

  lemma NextKeepsLinked(s: System, m: Move, w: nat, r: nat)
    requires SystemInv(s) && Enabled(s, m) && w < s.size && r < s.size && w != r
    ensures WellFormed(Next(s, m)) && Linked(Next(s, m), w, r)
  {
    assert Linked(s, w, r) && Linked(s, r, w);
    if (w == m.id && r == m.peer) || (w == m.peer && r == m.id) {
      NextKeepsMovedPair(s, m);
    } else if w == m.id {
      NextKeepsOtherPeer(s, m, r);
    } else if r == m.id {
      NextKeepsOtherPeer(s, m, w);
    } else {
      NextKeepsStrangers(s, m, w, r);
    }
  }

  lemma NextInv(s: System, m: Move)
    requires SystemInv(s) && Enabled(s, m)
    ensures SystemInv(Next(s, m))
  {
    NextIsWellFormed(s, m);
    forall w: nat, r: nat | w < s.size && r < s.size && w != r ensures Linked(Next(s, m), w, r) {
      NextKeepsLinked(s, m, w, r);
    }
  }

  lemma StepsInv(s: System, m: Move, t: System)
    requires SystemInv(s) && Steps(s, m, t)
    ensures SystemInv(t)
  {
    NextInv(s, m);
  }

  lemma {:induction false} RunInv(size: nat, pageSize: nat, n: nat, s: System)
    requires ReachedIn(size, pageSize, n, s)
    ensures SystemInv(s)
  {
    hide SystemInv, Steps, Initial;
    if n == 0 {
      InitialInv(size, pageSize);
    } else {
      var t, m :| ReachedIn(size, pageSize, n - 1, t) && Steps(t, m, s);
      RunInv(size, pageSize, n - 1, t);
      StepsInv(t, m, s);
    }
  }

  lemma ReachableInv(s: System)
    requires Reachable(s)
    ensures SystemInv(s)
  {
    var size, pageSize, n :| ReachedIn(size, pageSize, n, s);
    RunInv(size, pageSize, n, s);
  }

  // ---------- what every run keeps ----------

  predicate ReaderInside(n: Node, w: nat)
    requires w < |n.rside|
  {
    n.rside[w].Reading?
  }

  predicate WriterInside(n: Node, r: nat)
    requires r < |n.wside|
  {
    n.wside[r].Writing? || n.wside[r].Failing? || n.wside[r].Seized?
  }

  /** Reader and writer of a link are never in its shared area together, whatever nodes stop and restart. */
  lemma {:induction false} MutualExclusion(s: System, w: nat, r: nat)
    requires Reachable(s) && w < s.size && r < s.size && w != r
    ensures WellFormed(s) && !(ReaderInside(s.nodes[r], w) && WriterInside(s.nodes[w], r))
  {
    ReachableInv(s);
    assert Linked(s, w, r);
  }

  /** The assertions of the source hold at every step of every run. */
  lemma {:induction false} AssertionsHold(s: System, m: Move)
    requires Reachable(s) && Enabled(s, m)
    ensures Asserted(s.size, m.id, m.peer, LocalOf(s, m.id, m.peer), m.act)
  {
    ReachableInv(s);
    assert Linked(s, m.id, m.peer);
    AssertionsHoldLocally(s.size, m.id, m.peer, LocalOf(s, m.id, m.peer), m.act, ViewOf(s.nodes[m.peer], m.id));
  }

  /** Within the lifetime of the writer no event is lost, duplicated or reordered, and no page is misused. */
  lemma {:induction false} ChannelsAreSound(s: System, w: nat, r: nat)
    requires Reachable(s) && w < s.size && r < s.size && w != r
    ensures WellFormed(s) && P.Conserved(s.links[Pair(w, r)].chan) && G.PageSafe(s.links[Pair(w, r)].chan)
  {
    ReachableInv(s);
    assert Linked(s, w, r);
  }

  /** Outside the hand-over and the teardown of its writer, a link that is not write-locked was read or is empty. */
  lemma {:induction false} UnlockedMeansRead(s: System, w: nat, r: nat)
    requires Reachable(s) && w < s.size && r < s.size && w != r
    ensures WellFormed(s)
    ensures var k, side := s.links[Pair(w, r)], s.nodes[w].wside[r];
            !k.writeLocked && WriterLive(side) && !side.ToLock? ==> P.LiveUnread(k.chan) == []
  {
    ReachableInv(s);
    assert Linked(s, w, r);
  }

  /** The node serves its links: it was constructed and its destruction has not released its reader ends. */
  predicate Looping(n: Node) {
    Started(n.pc) && !n.pc.DtorRead? && !n.dying
  }

  /**
   No return notice is lost.  While w loops, if the area it writes to r holds undelivered events then r is about
   to notify w, or the notice is handed over to w and not read yet, or w is about to write to r, which gives the
   events back.
   */
  lemma {:induction false} NoLostNotice(s: System, w: nat, r: nat)
    requires Reachable(s) && w < s.size && r < s.size && w != r
    requires WellFormed(s) && Looping(s.nodes[w]) && P.LivePending(s.links[Pair(w, r)].chan) != []
    ensures var wn, rn, back := s.nodes[w], s.nodes[r], s.links[Pair(r, w)];
            || (back.chan.cache.check && (rn.signal[w] || rn.wside[w].Cleared? || rn.wside[w].Writing?))
            || (back.chan.area.check && (back.writeLocked || rn.wside[w].ToLock?) && !wn.rside[r].Recorded?)
            || wn.signal[r] || wn.wside[r].Cleared? || wn.wside[r].Writing? || wn.wside[r].Failing?
  {
    ReachableInv(s);
    assert Linked(s, w, r);
    assert ReaderAt(s.nodes[w].pc, s.nodes[w].dying, r, s.nodes[w].rside[r]);
  }

  /** A write cache that was pushed to keeps its write signal up until the write that empties it. */
  lemma {:induction false} FilledCacheIsSignalled(s: System, w: nat, r: nat)
    requires Reachable(s) && w < s.size && r < s.size && w != r
    requires WellFormed(s) && s.links[Pair(w, r)].chan.cache.toBeDelivered != []
    ensures var n := s.nodes[w];
            n.signal[r] || n.wside[r].Cleared? || n.wside[r].Writing? || n.wside[r].Failing?
  {
    ReachableInv(s);
    assert Linked(s, w, r);
  }

  /** A node goes away only when nothing it pushed is left in its write caches. */
  lemma {:induction false} DeadNodesHaveEmptyCaches(s: System, w: nat, r: nat)
    requires Reachable(s) && w < s.size && r < s.size && w != r
    requires WellFormed(s) && s.nodes[w].pc.Dead?
    ensures s.links[Pair(w, r)].chan.cache.toBeDelivered == [] && !s.links[Pair(w, r)].writeLocked
  {
    ReachableInv(s);
    assert Linked(s, w, r);
    assert WriterAt(s.nodes[w].pc, r, s.nodes[w].wside[r]);
  }
}
