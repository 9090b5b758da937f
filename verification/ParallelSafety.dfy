/** The invariant of the handover protocol, one pair of nodes at a time. */
module ParallelSafety {
  import opened Parallel
  import P = ChannelPayload
  import G = ChannelPages

  /** Node a as its peer sees it. started: the node's construction is over. */
  datatype View = View(rs: ReaderSide, ws: WriterSide, signal: bool, started: bool)

  predicate Started(pc: Pc) {
    !pc.Dead? && !pc.CtorWrite? && !pc.CtorRead?
  }

  /** A link the node does not have is off. */
  function ViewOf(n: Node, q: nat): View {
    View(if q < |n.rside| then n.rside[q] else Off, if q < |n.wside| then n.wside[q] else WOff,
         q < |n.signal| && n.signal[q], Started(n.pc))
  }

  // ---------- where a node can be on each link, given its program counter ----------

  predicate ReaderAt(pc: Pc, dying: bool, q: nat, r: ReaderSide) {
    match pc
    case Dead => r.Off?
    case CtorWrite(_) => r.Off?
    case CtorRead(i) => if q < i then r.On? else if q == i then r.Off? || r.Setting? else r.Off?
    case User => r.On?
    case AtRead(i) => if q < i then r.On? || r.Recorded? else if q == i then r.On? || r.Reading? else r.On?
    case AtCheck(i) => if q <= i then r.On? || r.Recorded? else r.On?
    case AtWrite(_) => if dying then r.Off? else r.On? || r.Recorded?
    case Unlock => r.On? || r.Recorded?
    case Lock => if dying then r.Off? else r.On?
    case Fail(_) => if dying then r.Off? else r.On?
    case DtorRead(i) => if q < i then r.Off? else if q == i then r.On? || r.Releasing? else r.On?
    case DtorCheck => r.Off?
    case DtorUnlock(_) => r.Off?
  }

  predicate WriterAt(pc: Pc, q: nat, w: WriterSide) {
    match pc
    case Dead => w.WOff?
    case CtorWrite(i) => if q < i then w.Idle? else w.WOff?
    case AtWrite(i) =>
      if q < i then w.Idle? || w.ToLock?
      else if q == i then w.Idle? || w.Cleared? || w.Writing? || w.Failing? else w.Idle?
    case Unlock => w.Idle? || w.ToLock?
    case Lock => w.Idle? || w.ToLock?
    case Fail(i) =>
      if q == i then w.Idle? || w.FailLook? || w.FailTry? || w.Seized? || w.SeizedDone? || w.SeizedFreed? else w.Idle?
    case DtorUnlock(i) =>
      if q < i then w.WOff?
      else if q == i then w.Idle? || w.Closing? || w.ClosingTry? || w.ClosingSeized? || w.ClosingFreed? else w.Idle?
    case _ => w.Idle?
  }

  predicate PcOk(size: nat, id: nat, pc: Pc, dying: bool) {
    match pc
    case Dead => !dying
    case CtorWrite(i) => !dying && i <= size
    case CtorRead(i) => !dying && i <= size
    case User => !dying
    case AtRead(i) => !dying && i <= size
    case AtCheck(i) => !dying && i < size && i != id
    case AtWrite(i) => i <= size
    case Unlock => !dying
    case Lock => true
    case Fail(i) => i <= size
    case DtorRead(i) => dying && i <= size
    case DtorCheck => dying
    case DtorUnlock(i) => dying && i <= size
  }

  ghost predicate Increasing(s: seq<nat>, bound: nat) {
    && (forall k :: 0 <= k < |s| ==> s[k] < bound)
    && (forall k, l :: 0 <= k < l < |s| ==> s[k] < s[l])
  }

  /** How far the list of links to unlock can have grown. */
  function UnlockBound(size: nat, pc: Pc): nat {
    match pc
    case AtRead(i) => i
    case AtCheck(i) => i + 1
    case _ => size
  }

  function LockBound(size: nat, pc: Pc): nat {
    match pc
    case AtWrite(i) => i
    case _ => size
  }

  predicate ListsUnlocks(pc: Pc, dying: bool) {
    pc.AtRead? || pc.AtCheck? || (pc.AtWrite? && !dying) || pc.Unlock?
  }

  predicate ListsLocks(pc: Pc) {
    pc.AtWrite? || pc.Unlock? || pc.Lock?
  }

  ghost predicate NodeInv(size: nat, id: nat, n: Node) {
    && id < size && |n.rside| == |n.wside| == |n.signal| == |n.activity| == size
    && PcOk(size, id, n.pc, n.dying)
    && n.rside[id].Off? && n.wside[id].WOff?
    && (forall q :: 0 <= q < size && q != id ==>
        ReaderAt(n.pc, n.dying, q, n.rside[q]) && WriterAt(n.pc, q, n.wside[q]))
    && (!Started(n.pc) || n.pc.DtorUnlock? ==> forall q :: 0 <= q < size ==> !n.signal[q])
    && (ListsUnlocks(n.pc, n.dying) ==>
          && Increasing(n.toUnlock, UnlockBound(size, n.pc))
          && forall q :: 0 <= q < size ==> (n.rside[q].Recorded? <==> q in n.toUnlock))
    && (ListsLocks(n.pc) ==>
          && Increasing(n.toLock, LockBound(size, n.pc))
          && forall q :: 0 <= q < size ==> (n.wside[q].ToLock? <==> q in n.toLock))
  }

  // ---------- one link ----------

  predicate Holds(r: ReaderSide) {
    r.On? || r.Reading? || r.Recorded?
  }

  predicate Seizes(w: WriterSide) {
    w.Seized? || w.SeizedDone? || w.SeizedFreed? || w.ClosingSeized? || w.ClosingFreed?
  }

  predicate WriterLive(w: WriterSide) {
    !w.WOff? && !w.Closing? && !w.ClosingTry? && !w.ClosingSeized? && !w.ClosingFreed?
  }

  /** The four flags, given where reader and writer are. */
  predicate Flags(r: ReaderSide, w: WriterSide, k: Link) {
    && (k.readerActive <==> !r.Off?)
    && (k.cas.CasOn? <==> Holds(r))
    && (k.cas.CasOff? <==> Seizes(w))
    && (r.Reading? || r.Recorded? ==> k.writeLocked)
    && (w.Cleared? || w.Writing? || w.Failing? || w.ToLock? || w.WOff? ==> !k.writeLocked)
    && (k.writerActive <==> WriterLive(w))
  }

  /** The payload: a link that is not write-locked has been read or is empty. */
  ghost predicate Handover(r: ReaderSide, w: WriterSide, k: Link) {
    && (r.Recorded? ==> k.chan.area.delivered)
    && (k.writeLocked && !r.Recorded? ==> !k.chan.area.delivered)
    && (w.ToLock? ==> !k.chan.area.delivered)
    && (!k.writeLocked && WriterLive(w) && !w.ToLock? ==> P.LiveUnread(k.chan) == [])
    && (w.SeizedDone? || w.SeizedFreed? ==> P.LiveUnread(k.chan) == [])
    && (!WriterLive(w) ==> k.chan.cache.toBeDelivered == [] && !k.chan.cache.check)
  }

  /** A filled write cache and a pending notice keep the write signal up until the write. */
  ghost predicate Signalled(v: View, k: Link) {
    && (k.chan.cache.toBeDelivered != [] || k.chan.cache.check ==>
        v.signal || v.ws.Cleared? || v.ws.Writing? || v.ws.Failing?)
    && (!v.started && v.ws.Idle? ==> k.chan.hist.pushed == [])
  }

  /**
   Events of w that r could not deliver are on their way back: r is about to notify w, the notice is in the
   area from r to w, or w is about to write to r.
   */
  ghost predicate Noticed(w: View, r: View, out: Link, back: Link) {
    && (P.LivePending(out.chan) != [] && Holds(w.rs) ==>
          || (back.chan.cache.check && (r.signal || r.ws.Cleared? || r.ws.Writing?))
          || (back.chan.area.check && (back.writeLocked || r.ws.ToLock?) && !w.rs.Recorded?)
          || w.signal || w.ws.Cleared? || w.ws.Writing? || w.ws.Failing?)
    && (Holds(w.rs) && r.ws.Failing? ==> P.LivePending(out.chan) == [])
  }

  /** The protocol state of two nodes and their two links, the content of the channels aside. */
  ghost predicate Coordinated(a: View, b: View, ab: Link, ba: Link) {
    && Flags(b.rs, a.ws, ab) && Flags(a.rs, b.ws, ba)
    && Handover(b.rs, a.ws, ab) && Handover(a.rs, b.ws, ba)
    && Signalled(a, ab) && Signalled(b, ba)
    && Noticed(a, b, ab, ba) && Noticed(b, a, ba, ab)
  }

  ghost predicate PairInv(a: View, b: View, ab: Link, ba: Link) {
    Coordinated(a, b, ab, ba) && G.Sound(ab.chan) && G.Sound(ba.chan)
  }

  /** What the coordination needs to know of a sound channel. */
  ghost predicate Tidy(c: P.Channel) {
    && (c.area.undelivered != [] ==> c.area.delivered)
    && (c.hist.pushed == [] ==> P.LivePending(c) == [])
  }

  lemma SoundIsTidy(c: P.Channel)
    requires G.Sound(c)
    ensures Tidy(c)
  {
    if c.hist.pushed == [] {
      assert P.Events(c.hist.log) == [];
      assert c.hist.log == [];
    }
  }

  // ---------- a step keeps the invariant of the node that moves ----------

  lemma {:induction false} ConstructionKeepsNode(size: nat, id: nat, p: nat, l: Local, act: Action)
    requires act.Start? || act.ActivateWriter? || act.RaiseReader? || act.AcquireReader?
    requires Shaped(size, id, p, l.node) && Act(size, id, p, l, act).Some? && NodeInv(size, id, l.node)
    ensures NodeInv(size, id, Act(size, id, p, l, act).value.node)
  {
    hide P.Push, P.Read, P.Write, P.WriteFailed, P.Restarted;
  }

  lemma {:induction false} LookReadKeepsNode(size: nat, id: nat, p: nat, l: Local, act: Action)
    requires act.LookRead? || act.CheckWriter?
    requires Shaped(size, id, p, l.node) && Act(size, id, p, l, act).Some? && NodeInv(size, id, l.node)
    ensures NodeInv(size, id, Act(size, id, p, l, act).value.node)
  {
    hide P.Push, P.Read, P.Write, P.WriteFailed, P.Restarted;
  }

  lemma {:induction false} FinishReadKeepsNode(size: nat, id: nat, p: nat, l: Local, act: Action)
    requires act.FinishRead?
    requires Shaped(size, id, p, l.node) && Act(size, id, p, l, act).Some? && NodeInv(size, id, l.node)
    ensures NodeInv(size, id, Act(size, id, p, l, act).value.node)
  {
    hide P.Push, P.Read, P.Write, P.WriteFailed, P.Restarted;
  }

  lemma {:induction false} WriteBeginsKeepsNode(size: nat, id: nat, p: nat, l: Local, act: Action)
    requires act.LookWrite?
    requires Shaped(size, id, p, l.node) && Act(size, id, p, l, act).Some? && NodeInv(size, id, l.node)
    requires l.node.signal[p] && !l.out.writeLocked
    ensures NodeInv(size, id, Act(size, id, p, l, act).value.node)
  {
    hide P.Push, P.Read, P.Write, P.WriteFailed, P.Restarted;
  }

  lemma {:induction false} WriteSkippedKeepsNode(size: nat, id: nat, p: nat, l: Local, act: Action)
    requires act.LookWrite?
    requires Shaped(size, id, p, l.node) && Act(size, id, p, l, act).Some? && NodeInv(size, id, l.node)
    requires !(l.node.signal[p] && !l.out.writeLocked)
    ensures NodeInv(size, id, Act(size, id, p, l, act).value.node)
  {
    hide P.Push, P.Read, P.Write, P.WriteFailed, P.Restarted;
  }

  lemma LookWriteKeepsNode(size: nat, id: nat, p: nat, l: Local, act: Action)
    requires act.LookWrite?
    requires Shaped(size, id, p, l.node) && Act(size, id, p, l, act).Some? && NodeInv(size, id, l.node)
    ensures NodeInv(size, id, Act(size, id, p, l, act).value.node)
  {
    hide NodeInv, Act;
    if l.node.signal[p] && !l.out.writeLocked {
      WriteBeginsKeepsNode(size, id, p, l, act);
    } else {
      WriteSkippedKeepsNode(size, id, p, l, act);
    }
  }

  lemma {:induction false} ChooseWriteKeepsNode(size: nat, id: nat, p: nat, l: Local, act: Action)
    requires act.ChooseWrite?
    requires Shaped(size, id, p, l.node) && Act(size, id, p, l, act).Some? && NodeInv(size, id, l.node)
    ensures NodeInv(size, id, Act(size, id, p, l, act).value.node)
  {
    hide P.Push, P.Read, P.Write, P.WriteFailed, P.Restarted;
  }

  lemma {:induction false} BarrierKeepsNode(size: nat, id: nat, p: nat, l: Local, act: Action)
    requires act.UnlockOne? || act.LockOne?
    requires Shaped(size, id, p, l.node) && Act(size, id, p, l, act).Some? && NodeInv(size, id, l.node)
    ensures NodeInv(size, id, Act(size, id, p, l, act).value.node)
  {
    hide P.Push, P.Read, P.Write, P.WriteFailed, P.Restarted;
  }

  lemma {:induction false} LookReaderKeepsNode(size: nat, id: nat, p: nat, l: Local, act: Action)
    requires act.LookReader?
    requires Shaped(size, id, p, l.node) && Act(size, id, p, l, act).Some? && NodeInv(size, id, l.node)
    ensures NodeInv(size, id, Act(size, id, p, l, act).value.node)
  {
    hide P.Push, P.Read, P.Write, P.WriteFailed, P.Restarted;
  }

  lemma {:induction false} LookLockKeepsNode(size: nat, id: nat, p: nat, l: Local, act: Action)
    requires act.LookLock?
    requires Shaped(size, id, p, l.node) && Act(size, id, p, l, act).Some? && NodeInv(size, id, l.node)
    ensures NodeInv(size, id, Act(size, id, p, l, act).value.node)
  {
    hide P.Push, P.Read, P.Write, P.WriteFailed, P.Restarted;
  }

  lemma {:induction false} TrySeizeKeepsNode(size: nat, id: nat, p: nat, l: Local, act: Action)
    requires act.TrySeize?
    requires Shaped(size, id, p, l.node) && Act(size, id, p, l, act).Some? && NodeInv(size, id, l.node)
    ensures NodeInv(size, id, Act(size, id, p, l, act).value.node)
  {
    hide P.Push, P.Read, P.Write, P.WriteFailed, P.Restarted;
  }

  lemma {:induction false} FailDoneKeepsNode(size: nat, id: nat, p: nat, l: Local, act: Action)
    requires act.FinishSeized? || act.ClearLock? || act.ReleaseSeized?
    requires Shaped(size, id, p, l.node) && Act(size, id, p, l, act).Some? && NodeInv(size, id, l.node)
    ensures NodeInv(size, id, Act(size, id, p, l, act).value.node)
  {
    hide P.Push, P.Read, P.Write, P.WriteFailed, P.Restarted;
  }

  lemma {:induction false} ReleaseReaderKeepsNode(size: nat, id: nat, p: nat, l: Local, act: Action)
    requires act.ReleaseReader? || act.LowerReader?
    requires Shaped(size, id, p, l.node) && Act(size, id, p, l, act).Some? && NodeInv(size, id, l.node)
    ensures NodeInv(size, id, Act(size, id, p, l, act).value.node)
  {
    hide P.Push, P.Read, P.Write, P.WriteFailed, P.Restarted;
  }

  lemma {:induction false} ClosingKeepsNode(size: nat, id: nat, p: nat, l: Local, act: Action)
    requires act.LowerWriter? || act.LookClosing?
    requires Shaped(size, id, p, l.node) && Act(size, id, p, l, act).Some? && NodeInv(size, id, l.node)
    ensures NodeInv(size, id, Act(size, id, p, l, act).value.node)
  {
    hide P.Push, P.Read, P.Write, P.WriteFailed, P.Restarted;
  }

  lemma {:induction false} ClosingDoneKeepsNode(size: nat, id: nat, p: nat, l: Local, act: Action)
    requires act.TryClosing? || act.ClosingClear? || act.ClosingRelease?
    requires Shaped(size, id, p, l.node) && Act(size, id, p, l, act).Some? && NodeInv(size, id, l.node)
    ensures NodeInv(size, id, Act(size, id, p, l, act).value.node)
  {
    hide P.Push, P.Read, P.Write, P.WriteFailed, P.Restarted;
  }

  lemma {:induction false} ActorCodeKeepsNode(size: nat, id: nat, p: nat, l: Local, act: Action)
    requires act.Push? || act.PushLocal?
    requires Shaped(size, id, p, l.node) && Act(size, id, p, l, act).Some? && NodeInv(size, id, l.node)
    ensures NodeInv(size, id, Act(size, id, p, l, act).value.node)
  {
    hide P.Push, P.Read, P.Write, P.WriteFailed, P.Restarted;
  }

  lemma {:induction false} WrittenKeepsNode(size: nat, id: nat, p: nat, n: Node, worthy: bool)
    requires NodeInv(size, id, n) && p < size && p != id
    requires n.pc == AtWrite(p) && (n.wside[p].Writing? || (n.wside[p].Failing? && !worthy))
    ensures NodeInv(size, id, WrittenNode(p, n, worthy))
  {
  }

  lemma {:induction false} AdvanceConstructionKeepsNode(size: nat, id: nat, n: Node, leave: bool)
    requires n.pc.CtorWrite? || n.pc.CtorRead?
    requires NodeInv(size, id, n) && AdvanceNode(size, id, n, leave).Some?
    ensures NodeInv(size, id, AdvanceNode(size, id, n, leave).value)
  {
  }

  lemma {:induction false} AdvanceUserKeepsNode(size: nat, id: nat, n: Node, leave: bool)
    requires n.pc.User?
    requires NodeInv(size, id, n) && AdvanceNode(size, id, n, leave).Some?
    ensures NodeInv(size, id, AdvanceNode(size, id, n, leave).value)
  {
  }

  lemma {:induction false} AdvanceReadLoopKeepsNode(size: nat, id: nat, n: Node, leave: bool)
    requires n.pc.AtRead?
    requires NodeInv(size, id, n) && AdvanceNode(size, id, n, leave).Some?
    ensures NodeInv(size, id, AdvanceNode(size, id, n, leave).value)
  {
  }

  lemma {:induction false} AdvanceWriteLoopKeepsNode(size: nat, id: nat, n: Node, leave: bool)
    requires n.pc.AtWrite?
    requires NodeInv(size, id, n) && AdvanceNode(size, id, n, leave).Some?
    ensures NodeInv(size, id, AdvanceNode(size, id, n, leave).value)
  {
  }

  lemma {:induction false} AdvanceBarrierKeepsNode(size: nat, id: nat, n: Node, leave: bool)
    requires n.pc.Unlock? || n.pc.Lock?
    requires NodeInv(size, id, n) && AdvanceNode(size, id, n, leave).Some?
    ensures NodeInv(size, id, AdvanceNode(size, id, n, leave).value)
  {
  }

  lemma {:induction false} AdvanceFailKeepsNode(size: nat, id: nat, n: Node, leave: bool)
    requires n.pc.Fail?
    requires NodeInv(size, id, n) && AdvanceNode(size, id, n, leave).Some?
    ensures NodeInv(size, id, AdvanceNode(size, id, n, leave).value)
  {
  }

  lemma {:induction false} AdvanceReleaseKeepsNode(size: nat, id: nat, n: Node, leave: bool)
    requires n.pc.DtorRead?
    requires NodeInv(size, id, n) && AdvanceNode(size, id, n, leave).Some?
    ensures NodeInv(size, id, AdvanceNode(size, id, n, leave).value)
  {
  }

  lemma {:induction false} AdvanceLoops3KeepsNode(size: nat, id: nat, n: Node, leave: bool)
    requires n.pc.DtorCheck? || n.pc.DtorUnlock?
    requires NodeInv(size, id, n) && AdvanceNode(size, id, n, leave).Some?
    ensures NodeInv(size, id, AdvanceNode(size, id, n, leave).value)
  {
  }

  lemma AdvanceKeepsNode(size: nat, id: nat, n: Node, leave: bool)
    requires NodeInv(size, id, n) && AdvanceNode(size, id, n, leave).Some?
    ensures NodeInv(size, id, AdvanceNode(size, id, n, leave).value)
  {
    match n.pc {
      case CtorWrite(_) => AdvanceConstructionKeepsNode(size, id, n, leave);
      case CtorRead(_) => AdvanceConstructionKeepsNode(size, id, n, leave);
      case User => AdvanceUserKeepsNode(size, id, n, leave);
      case AtRead(_) => AdvanceReadLoopKeepsNode(size, id, n, leave);
      case AtWrite(_) => AdvanceWriteLoopKeepsNode(size, id, n, leave);
      case Unlock => AdvanceBarrierKeepsNode(size, id, n, leave);
      case Lock => AdvanceBarrierKeepsNode(size, id, n, leave);
      case Fail(_) => AdvanceFailKeepsNode(size, id, n, leave);
      case DtorRead(_) => AdvanceReleaseKeepsNode(size, id, n, leave);
      case DtorCheck => AdvanceLoops3KeepsNode(size, id, n, leave);
      case DtorUnlock(_) => AdvanceLoops3KeepsNode(size, id, n, leave);
      case _ =>
    }
  }

  /** Whatever step a node takes, it stays where its program counter says, and its lists stay in order. */
  lemma StepKeepsNode(size: nat, id: nat, p: nat, l: Local, act: Action)
    requires Shaped(size, id, p, l.node) && Act(size, id, p, l, act).Some? && NodeInv(size, id, l.node)
    ensures NodeInv(size, id, Act(size, id, p, l, act).value.node)
  {
    match act {
      case Advance(leave) => AdvanceKeepsNode(size, id, l.node, leave);
      case Start => ConstructionKeepsNode(size, id, p, l, act);
      case ActivateWriter => ConstructionKeepsNode(size, id, p, l, act);
      case RaiseReader => ConstructionKeepsNode(size, id, p, l, act);
      case AcquireReader => ConstructionKeepsNode(size, id, p, l, act);
      case LookRead => LookReadKeepsNode(size, id, p, l, act);
      case CheckWriter => LookReadKeepsNode(size, id, p, l, act);
      case FinishRead(_) => FinishReadKeepsNode(size, id, p, l, act);
      case LookWrite => LookWriteKeepsNode(size, id, p, l, act);
      case ChooseWrite => ChooseWriteKeepsNode(size, id, p, l, act);
      case UnlockOne => BarrierKeepsNode(size, id, p, l, act);
      case LockOne => BarrierKeepsNode(size, id, p, l, act);
      case LookReader => LookReaderKeepsNode(size, id, p, l, act);
      case LookLock => LookLockKeepsNode(size, id, p, l, act);
      case TrySeize => TrySeizeKeepsNode(size, id, p, l, act);
      case FinishSeized => FailDoneKeepsNode(size, id, p, l, act);
      case ClearLock => FailDoneKeepsNode(size, id, p, l, act);
      case ReleaseSeized => FailDoneKeepsNode(size, id, p, l, act);
      case ReleaseReader => ReleaseReaderKeepsNode(size, id, p, l, act);
      case LowerReader => ReleaseReaderKeepsNode(size, id, p, l, act);
      case LowerWriter => ClosingKeepsNode(size, id, p, l, act);
      case LookClosing => ClosingKeepsNode(size, id, p, l, act);
      case TryClosing => ClosingDoneKeepsNode(size, id, p, l, act);
      case ClosingClear => ClosingDoneKeepsNode(size, id, p, l, act);
      case ClosingRelease => ClosingDoneKeepsNode(size, id, p, l, act);
      case Push(_, _) => ActorCodeKeepsNode(size, id, p, l, act);
      case PushLocal => ActorCodeKeepsNode(size, id, p, l, act);
      case FinishWrite => WrittenKeepsNode(size, id, p, l.node, P.WriteWorthy(l.out.chan));
      case FinishFailed => WrittenKeepsNode(size, id, p, l.node, false);
    }
  }

  // ---------- a step keeps the invariant of the pair that moves ----------

  /** Node id can take the step, and what it relies on holds of it and of its links with p. */
  ghost predicate PairReady(size: nat, id: nat, p: nat, l: Local, act: Action, b: View) {
    && Shaped(size, id, p, l.node) && Act(size, id, p, l, act).Some? && NodeInv(size, id, l.node)
    && Coordinated(ViewOf(l.node, p), b, l.out, l.inn) && Tidy(l.out.chan) && Tidy(l.inn.chan)
  }

  /** The step leaves the pair coordinated. */
  ghost predicate PairKept(size: nat, id: nat, p: nat, l: Local, act: Action, b: View) {
    && Shaped(size, id, p, l.node) && Act(size, id, p, l, act).Some?
    && var m := Act(size, id, p, l, act).value;
       Coordinated(ViewOf(m.node, p), b, m.out, m.inn)
  }

  lemma {:induction false} ActivateKeepsPair(size: nat, id: nat, p: nat, l: Local, act: Action, b: View)
    requires act.ActivateWriter? || act.RaiseReader? || act.AcquireReader?
    requires PairReady(size, id, p, l, act, b)
    ensures PairKept(size, id, p, l, act, b)
  {
    hide P.Push, P.Read, P.Write, P.WriteFailed;
  }

  lemma {:induction false} LookReadKeepsPair(size: nat, id: nat, p: nat, l: Local, act: Action, b: View)
    requires act.LookRead? || act.CheckWriter?
    requires PairReady(size, id, p, l, act, b)
    ensures PairKept(size, id, p, l, act, b)
  {
    hide P.Push, P.Read, P.Write, P.WriteFailed, P.Restarted;
  }

  lemma {:induction false} FinishReadKeepsPair(size: nat, id: nat, p: nat, l: Local, act: Action, b: View)
    requires act.FinishRead?
    requires PairReady(size, id, p, l, act, b)
    ensures PairKept(size, id, p, l, act, b)
  {
    hide P.Push, P.Write, P.WriteFailed, P.Restarted;
  }

  lemma {:induction false} LookWriteKeepsPair(size: nat, id: nat, p: nat, l: Local, act: Action, b: View)
    requires act.LookWrite? || act.ChooseWrite?
    requires PairReady(size, id, p, l, act, b)
    ensures PairKept(size, id, p, l, act, b)
  {
    hide P.Push, P.Read, P.Write, P.WriteFailed, P.Restarted;
  }

  lemma {:induction false} WorthyWriteKeepsPair(size: nat, id: nat, p: nat, l: Local, act: Action, b: View)
    requires act.FinishWrite? && P.WriteWorthy(l.out.chan)
    requires PairReady(size, id, p, l, act, b)
    ensures PairKept(size, id, p, l, act, b)
  {
    hide P.Push, P.Read, P.WriteFailed, P.Restarted;
  }

  lemma {:induction false} IdleWriteKeepsPair(size: nat, id: nat, p: nat, l: Local, act: Action, b: View)
    requires act.FinishWrite? && !P.WriteWorthy(l.out.chan)
    requires PairReady(size, id, p, l, act, b)
    ensures PairKept(size, id, p, l, act, b)
  {
    hide P.Push, P.Read, P.WriteFailed, P.Restarted;
  }

  lemma FinishWriteKeepsPair(size: nat, id: nat, p: nat, l: Local, act: Action, b: View)
    requires act.FinishWrite?
    requires PairReady(size, id, p, l, act, b)
    ensures PairKept(size, id, p, l, act, b)
  {
    hide PairReady, PairKept;
    if P.WriteWorthy(l.out.chan) {
      WorthyWriteKeepsPair(size, id, p, l, act, b);
    } else {
      IdleWriteKeepsPair(size, id, p, l, act, b);
    }
  }

  lemma {:induction false} FinishFailedKeepsPair(size: nat, id: nat, p: nat, l: Local, act: Action, b: View)
    requires act.FinishFailed?
    requires PairReady(size, id, p, l, act, b)
    ensures PairKept(size, id, p, l, act, b)
  {
    hide P.Push, P.Read, P.Write, P.Restarted;
  }

  lemma {:induction false} BarrierKeepsPair(size: nat, id: nat, p: nat, l: Local, act: Action, b: View)
    requires act.UnlockOne? || act.LockOne?
    requires PairReady(size, id, p, l, act, b)
    ensures PairKept(size, id, p, l, act, b)
  {
    hide P.Push, P.Read, P.Write, P.WriteFailed, P.Restarted;
  }

  lemma {:induction false} LookReaderKeepsPair(size: nat, id: nat, p: nat, l: Local, act: Action, b: View)
    requires act.LookReader?
    requires PairReady(size, id, p, l, act, b)
    ensures PairKept(size, id, p, l, act, b)
  {
    hide P.Push, P.Read, P.Write, P.WriteFailed, P.Restarted;
  }

  lemma {:induction false} LookLockKeepsPair(size: nat, id: nat, p: nat, l: Local, act: Action, b: View)
    requires act.LookLock?
    requires PairReady(size, id, p, l, act, b)
    ensures PairKept(size, id, p, l, act, b)
  {
    hide P.Push, P.Read, P.Write, P.WriteFailed, P.Restarted;
  }

  lemma {:induction false} SeizesKeepsPair(size: nat, id: nat, p: nat, l: Local, act: Action, b: View)
    requires act.TrySeize? && l.out.cas.CasIdle?
    requires PairReady(size, id, p, l, act, b)
    ensures PairKept(size, id, p, l, act, b)
  {
    hide P.Push, P.Read, P.Write, P.WriteFailed, P.Restarted;
  }

  lemma {:induction false} SeizesNotKeepsPair(size: nat, id: nat, p: nat, l: Local, act: Action, b: View)
    requires act.TrySeize? && !l.out.cas.CasIdle?
    requires PairReady(size, id, p, l, act, b)
    ensures PairKept(size, id, p, l, act, b)
  {
    hide P.Push, P.Read, P.Write, P.WriteFailed, P.Restarted;
  }

  lemma TrySeizeKeepsPair(size: nat, id: nat, p: nat, l: Local, act: Action, b: View)
    requires act.TrySeize?
    requires PairReady(size, id, p, l, act, b)
    ensures PairKept(size, id, p, l, act, b)
  {
    hide PairReady, PairKept;
    if l.out.cas.CasIdle? {
      SeizesKeepsPair(size, id, p, l, act, b);
    } else {
      SeizesNotKeepsPair(size, id, p, l, act, b);
    }
  }

  lemma {:induction false} FinishSeizedKeepsPair(size: nat, id: nat, p: nat, l: Local, act: Action, b: View)
    requires act.FinishSeized?
    requires PairReady(size, id, p, l, act, b)
    ensures PairKept(size, id, p, l, act, b)
  {
    hide P.Push, P.Read, P.Write, P.Restarted;
  }

  lemma {:induction false} FailDoneKeepsPair(size: nat, id: nat, p: nat, l: Local, act: Action, b: View)
    requires act.ClearLock? || act.ReleaseSeized?
    requires PairReady(size, id, p, l, act, b)
    ensures PairKept(size, id, p, l, act, b)
  {
    hide P.Push, P.Read, P.Write, P.WriteFailed, P.Restarted;
  }

  lemma {:induction false} ReleaseReaderKeepsPair(size: nat, id: nat, p: nat, l: Local, act: Action, b: View)
    requires act.ReleaseReader? || act.LowerReader?
    requires PairReady(size, id, p, l, act, b)
    ensures PairKept(size, id, p, l, act, b)
  {
    hide P.Push, P.Read, P.Write, P.WriteFailed, P.Restarted;
  }

  lemma {:induction false} LowerWriterKeepsPair(size: nat, id: nat, p: nat, l: Local, act: Action, b: View)
    requires act.LowerWriter? || act.LookClosing?
    requires PairReady(size, id, p, l, act, b)
    ensures PairKept(size, id, p, l, act, b)
  {
    hide P.Push, P.Read, P.Write, P.WriteFailed, P.Restarted;
  }

  lemma {:induction false} TryClosingKeepsPair(size: nat, id: nat, p: nat, l: Local, act: Action, b: View)
    requires act.TryClosing?
    requires PairReady(size, id, p, l, act, b)
    ensures PairKept(size, id, p, l, act, b)
  {
    hide P.Push, P.Read, P.Write, P.WriteFailed, P.Restarted;
  }

  lemma {:induction false} ClosingDoneKeepsPair(size: nat, id: nat, p: nat, l: Local, act: Action, b: View)
    requires act.ClosingClear? || act.ClosingRelease?
    requires PairReady(size, id, p, l, act, b)
    ensures PairKept(size, id, p, l, act, b)
  {
    hide P.Push, P.Read, P.Write, P.WriteFailed, P.Restarted;
  }

  /** A push fills the cache and raises the signal; the area stays as it is. */
  lemma PushKeepsPair(size: nat, id: nat, p: nat, l: Local, act: Action, b: View)
    requires act.Push?
    requires PairReady(size, id, p, l, act, b)
    ensures PairKept(size, id, p, l, act, b)
  {
    PushingActs(size, id, p, l, act);
    hide NodeInv, Tidy, Act, P.Push;
    PushedPair(ViewOf(l.node, p), b, l.out, l.inn, P.Push(l.out.chan, act.sz, act.constructed));
    hide Coordinated;
  }

  lemma PushingActs(size: nat, id: nat, p: nat, l: Local, act: Action)
    requires act.Push?
    requires Shaped(size, id, p, l.node) && Act(size, id, p, l, act).Some? && NodeInv(size, id, l.node)
    ensures var v, m := ViewOf(l.node, p), Act(size, id, p, l, act).value;
            && v.started && WriterLive(v.ws) && Fills(l.out.chan, m.out.chan) && ViewOf(m.node, p) == v.(signal := true)
            && m.out == l.out.(chan := P.Push(l.out.chan, act.sz, act.constructed)) && m.inn == l.inn
  {
    assert WriterAt(l.node.pc, p, l.node.wside[p]);
    PushFills(l.out.chan, act.sz, act.constructed);
    hide NodeInv, P.Push;
  }

  /** At most the events of the cache and their history differ. */
  predicate Fills(c: P.Channel, d: P.Channel) {
    d.area == c.area && d.hist.stale == c.hist.stale && d.cache.check == c.cache.check
  }

  lemma PushFills(c: P.Channel, size: nat, constructed: bool)
    ensures Fills(c, P.Push(c, size, constructed))
  {
  }

  lemma PushedPair(a: View, b: View, ab: Link, ba: Link, d: P.Channel)
    requires Coordinated(a, b, ab, ba) && a.started && WriterLive(a.ws) && Fills(ab.chan, d)
    ensures Coordinated(a.(signal := true), b, ab.(chan := d), ba)
  {
  }

  lemma {:induction false} PushLocalKeepsPair(size: nat, id: nat, p: nat, l: Local, act: Action, b: View)
    requires act.PushLocal?
    requires PairReady(size, id, p, l, act, b)
    ensures PairKept(size, id, p, l, act, b)
  {
    hide P.Push, P.Read, P.Write, P.WriteFailed, P.Restarted;
  }

  // ---------- what the other nodes see ----------

  lemma {:induction false} PassesTouchOnePeer(size: nat, id: nat, p: nat, l: Local, act: Action, q: nat)
    requires act.ActivateWriter? || act.RaiseReader? || act.AcquireReader? || act.LookRead?
          || act.FinishRead? || act.CheckWriter? || act.LookWrite? || act.ChooseWrite?
          || act.FinishWrite? || act.FinishFailed? || act.UnlockOne? || act.LockOne?
    requires Shaped(size, id, p, l.node) && Act(size, id, p, l, act).Some?
    requires q < size && q != id && q != p
    ensures var n := Act(size, id, p, l, act).value.node;
            && |n.rside| == |n.wside| == |n.signal| == |l.node.rside| && ViewOf(n, q) == ViewOf(l.node, q)
  {
    hide P.Push, P.Read, P.Write, P.WriteFailed, P.Restarted;
  }

  lemma {:induction false} LaterTouchOnePeer(size: nat, id: nat, p: nat, l: Local, act: Action, q: nat)
    requires act.LookReader? || act.LookLock? || act.TrySeize? || act.FinishSeized? || act.ClearLock?
          || act.ReleaseSeized? || act.ReleaseReader? || act.LowerReader? || act.LowerWriter?
          || act.LookClosing? || act.TryClosing? || act.ClosingClear? || act.ClosingRelease?
          || act.Push? || act.PushLocal?
    requires Shaped(size, id, p, l.node) && Act(size, id, p, l, act).Some?
    requires q < size && q != id && q != p
    ensures var n := Act(size, id, p, l, act).value.node;
            && |n.rside| == |n.wside| == |n.signal| == |l.node.rside| && ViewOf(n, q) == ViewOf(l.node, q)
  {
    hide P.Push, P.Read, P.Write, P.WriteFailed, P.Restarted;
  }

  lemma {:induction false} AdvanceKeepsSides(size: nat, id: nat, n: Node, leave: bool, q: nat)
    requires |n.rside| == |n.wside| == |n.signal| == size && id < size && q < size && q != id
    requires AdvanceNode(size, id, n, leave).Some?
    ensures var m := AdvanceNode(size, id, n, leave).value;
            && m.rside == n.rside && m.wside == n.wside && |m.signal| == size && m.signal[q] == n.signal[q]
            && (Started(n.pc) ==> Started(m.pc) || n.pc == DtorUnlock(size))
  {
    hide P.Push, P.Read, P.Write, P.WriteFailed, P.Restarted;
  }

  lemma AdvanceChangesNoView(size: nat, id: nat, n: Node, leave: bool, q: nat)
    requires NodeInv(size, id, n) && AdvanceNode(size, id, n, leave).Some? && q < size && q != id
    ensures var m := AdvanceNode(size, id, n, leave).value;
            |m.rside| == |m.wside| == |m.signal| == size && SameButStarted(ViewOf(n, q), ViewOf(m, q))
  {
    AdvanceKeepsSides(size, id, n, leave, q);
    assert WriterAt(n.pc, q, n.wside[q]);
  }

  lemma StartChangesNoView(size: nat, id: nat, n: Node, q: nat)
    requires NodeInv(size, id, n) && n.pc.Dead? && q < size && q != id
    ensures SameButStarted(ViewOf(n, q), ViewOf(NewNode(size), q))
  {
  }

  /** A step changes what one peer sees of the node; for the others at most `started` changes. */
  lemma OtherViews(size: nat, id: nat, p: nat, l: Local, act: Action, q: nat)
    requires Shaped(size, id, p, l.node) && Act(size, id, p, l, act).Some? && NodeInv(size, id, l.node)
    requires q < size && q != id && q != p
    ensures var n := Act(size, id, p, l, act).value.node;
            |n.rside| == |n.wside| == |n.signal| == size && SameButStarted(ViewOf(l.node, q), ViewOf(n, q))
  {
    if act.Start? {
      StartChangesNoView(size, id, l.node, q);
    } else if act.Advance? {
      AdvanceChangesNoView(size, id, l.node, act.leave, q);
    } else if act.ActivateWriter? || act.RaiseReader? || act.AcquireReader? || act.LookRead?
           || act.FinishRead? || act.CheckWriter? || act.LookWrite? || act.ChooseWrite?
           || act.FinishWrite? || act.FinishFailed? || act.UnlockOne? || act.LockOne? {
      PassesTouchOnePeer(size, id, p, l, act, q);
    } else {
      LaterTouchOnePeer(size, id, p, l, act, q);
    }
  }

  predicate SameButStarted(v: View, v': View) {
    v' == v.(started := v'.started) && (v.started ==> v'.started || v'.ws.WOff?)
  }

  lemma StartedIsHarmless(a: View, a': View, b: View, ab: Link, ba: Link)
    requires Coordinated(a, b, ab, ba) && SameButStarted(a, a')
    ensures Coordinated(a', b, ab, ba)
  {
  }

  lemma BookkeepingKeepsPair(size: nat, id: nat, p: nat, l: Local, act: Action, b: View)
    requires act.Start? || act.Advance?
    requires PairReady(size, id, p, l, act, b)
    ensures PairKept(size, id, p, l, act, b)
  {
    if act.Start? {
      StartChangesNoView(size, id, l.node, p);
    } else {
      AdvanceChangesNoView(size, id, l.node, act.leave, p);
    }
    StartedIsHarmless(ViewOf(l.node, p), ViewOf(Act(size, id, p, l, act).value.node, p), b, l.out, l.inn);
  }

  lemma EarlyStepsKeepCoordination(size: nat, id: nat, p: nat, l: Local, act: Action, b: View)
    requires act.ActivateWriter? || act.RaiseReader? || act.AcquireReader? || act.LookRead?
          || act.CheckWriter? || act.FinishRead? || act.LookWrite? || act.ChooseWrite?
          || act.FinishWrite? || act.FinishFailed? || act.UnlockOne? || act.LockOne?
          || act.LookReader?
    requires PairReady(size, id, p, l, act, b)
    ensures PairKept(size, id, p, l, act, b)
  {
    hide PairReady, PairKept;
    match act {
      case ActivateWriter => ActivateKeepsPair(size, id, p, l, act, b);
      case RaiseReader => ActivateKeepsPair(size, id, p, l, act, b);
      case AcquireReader => ActivateKeepsPair(size, id, p, l, act, b);
      case LookRead => LookReadKeepsPair(size, id, p, l, act, b);
      case CheckWriter => LookReadKeepsPair(size, id, p, l, act, b);
      case FinishRead(_) => FinishReadKeepsPair(size, id, p, l, act, b);
      case LookWrite => LookWriteKeepsPair(size, id, p, l, act, b);
      case ChooseWrite => LookWriteKeepsPair(size, id, p, l, act, b);
      case FinishWrite => FinishWriteKeepsPair(size, id, p, l, act, b);
      case FinishFailed => FinishFailedKeepsPair(size, id, p, l, act, b);
      case UnlockOne => BarrierKeepsPair(size, id, p, l, act, b);
      case LockOne => BarrierKeepsPair(size, id, p, l, act, b);
      case LookReader => LookReaderKeepsPair(size, id, p, l, act, b);
    }
  }

  lemma LaterStepsKeepCoordination(size: nat, id: nat, p: nat, l: Local, act: Action, b: View)
    requires act.Start? || act.Advance? || act.LookLock? || act.TrySeize? || act.FinishSeized?
          || act.ClearLock? || act.ReleaseSeized? || act.ReleaseReader? || act.LowerReader?
          || act.LowerWriter? || act.LookClosing? || act.TryClosing? || act.ClosingClear?
          || act.ClosingRelease? || act.Push? || act.PushLocal?
    requires PairReady(size, id, p, l, act, b)
    ensures PairKept(size, id, p, l, act, b)
  {
    hide PairReady, PairKept;
    match act {
      case Start => BookkeepingKeepsPair(size, id, p, l, act, b);
      case Advance(_) => BookkeepingKeepsPair(size, id, p, l, act, b);
      case LookLock => LookLockKeepsPair(size, id, p, l, act, b);
      case TrySeize => TrySeizeKeepsPair(size, id, p, l, act, b);
      case FinishSeized => FinishSeizedKeepsPair(size, id, p, l, act, b);
      case ClearLock => FailDoneKeepsPair(size, id, p, l, act, b);
      case ReleaseSeized => FailDoneKeepsPair(size, id, p, l, act, b);
      case ReleaseReader => ReleaseReaderKeepsPair(size, id, p, l, act, b);
      case LowerReader => ReleaseReaderKeepsPair(size, id, p, l, act, b);
      case LowerWriter => LowerWriterKeepsPair(size, id, p, l, act, b);
      case LookClosing => LowerWriterKeepsPair(size, id, p, l, act, b);
      case TryClosing => TryClosingKeepsPair(size, id, p, l, act, b);
      case ClosingClear => ClosingDoneKeepsPair(size, id, p, l, act, b);
      case ClosingRelease => ClosingDoneKeepsPair(size, id, p, l, act, b);
      case Push(_, _) => PushKeepsPair(size, id, p, l, act, b);
      case PushLocal => PushLocalKeepsPair(size, id, p, l, act, b);
    }
  }

  lemma EveryStepKeepsPair(size: nat, id: nat, p: nat, l: Local, act: Action, b: View)
    requires PairReady(size, id, p, l, act, b)
    ensures PairKept(size, id, p, l, act, b)
  {
    hide PairReady, PairKept;
    if act.ActivateWriter? || act.RaiseReader? || act.AcquireReader? || act.LookRead?
       || act.CheckWriter? || act.FinishRead? || act.LookWrite? || act.ChooseWrite?
       || act.FinishWrite? || act.FinishFailed? || act.UnlockOne? || act.LockOne?
       || act.LookReader? {
      EarlyStepsKeepCoordination(size, id, p, l, act, b);
    } else {
      LaterStepsKeepCoordination(size, id, p, l, act, b);
    }
  }

  lemma StepKeepsCoordination(size: nat, id: nat, p: nat, l: Local, act: Action, b: View)
    requires Shaped(size, id, p, l.node) && Act(size, id, p, l, act).Some? && NodeInv(size, id, l.node)
    requires Coordinated(ViewOf(l.node, p), b, l.out, l.inn) && Tidy(l.out.chan) && Tidy(l.inn.chan)
    ensures var m := Act(size, id, p, l, act).value; Coordinated(ViewOf(m.node, p), b, m.out, m.inn)
  {
    assert PairReady(size, id, p, l, act, b);
    hide Coordinated, NodeInv, Tidy;
    EveryStepKeepsPair(size, id, p, l, act, b);
    hide Act;
  }

  predicate TouchesPayload(act: Action) {
    act.ActivateWriter? || act.FinishRead? || act.FinishWrite? || act.FinishFailed? || act.FinishSeized? || act.Push?
  }

  lemma OtherStepsKeepChannels(size: nat, id: nat, p: nat, l: Local, act: Action)
    requires Shaped(size, id, p, l.node) && Act(size, id, p, l, act).Some? && !TouchesPayload(act)
    ensures var m := Act(size, id, p, l, act).value; m.out.chan == l.out.chan && m.inn.chan == l.inn.chan
  {
    hide P.Push, P.Read, P.Write, P.WriteFailed, P.Restarted;
  }

  /** The payload steps happen only where the coordination allows them. */
  lemma PayloadStepsAllowed(size: nat, id: nat, p: nat, l: Local, act: Action, b: View)
    requires Shaped(size, id, p, l.node) && Act(size, id, p, l, act).Some?
    requires Coordinated(ViewOf(l.node, p), b, l.out, l.inn)
    ensures act.ActivateWriter? ==> l.out.chan.cache.toBeDelivered == []
    ensures act.FinishRead? ==> |act.verdicts| == |l.inn.chan.area.toBeDelivered| && !l.inn.chan.area.delivered
    ensures act.FinishWrite? ==> P.LiveUnread(l.out.chan) == []
  {
  }

  lemma {:induction false} ReadStepPayload(size: nat, id: nat, p: nat, l: Local, v: seq<bool>)
    requires Shaped(size, id, p, l.node) && Act(size, id, p, l, FinishRead(v)).Some?
    ensures |v| == |l.inn.chan.area.toBeDelivered|
    ensures var m := Act(size, id, p, l, FinishRead(v)).value;
            && m.inn.chan == P.Read(l.inn.chan, v)
            && m.out.chan == l.out.chan.(cache := l.out.chan.cache.(check := m.out.chan.cache.check))
  {
    hide P.Read, P.Refused;
  }

  lemma {:induction false} ReadKeepsSound(size: nat, id: nat, p: nat, l: Local, v: seq<bool>)
    requires Shaped(size, id, p, l.node) && Act(size, id, p, l, FinishRead(v)).Some?
    requires G.Sound(l.out.chan) && G.Sound(l.inn.chan) && !l.inn.chan.area.delivered
    ensures var m := Act(size, id, p, l, FinishRead(v)).value; G.Sound(m.out.chan) && G.Sound(m.inn.chan)
  {
    ReadStepPayload(size, id, p, l, v);
    hide G.Sound, P.Read;
    G.ReadIsSound(l.inn.chan, v);
    G.NotifyIsSound(l.out.chan, Act(size, id, p, l, FinishRead(v)).value.out.chan.cache.check);
    hide Act;
  }

  /** What the writer's steps make of the channel. */
  function WriterPayload(c: P.Channel, act: Action): P.Channel {
    match act
    case ActivateWriter => P.Restarted(c)
    case FinishWrite => P.Write(c)
    case FinishFailed => P.WriteFailed(c)
    case FinishSeized => P.WriteFailed(c)
    case Push(sz, constructed) => P.Push(c, sz, constructed)
    case _ => c
  }

  lemma WriterStepPayload(size: nat, id: nat, p: nat, l: Local, act: Action)
    requires Shaped(size, id, p, l.node) && Act(size, id, p, l, act).Some? && TouchesPayload(act) && !act.FinishRead?
    ensures var m := Act(size, id, p, l, act).value;
            m.out.chan == WriterPayload(l.out.chan, act) && m.inn.chan == l.inn.chan
  {
  }

  lemma {:induction false} WriterPayloadIsSound(c: P.Channel, act: Action)
    requires G.Sound(c)
    requires act.ActivateWriter? ==> c.cache.toBeDelivered == []
    requires act.FinishWrite? ==> P.LiveUnread(c) == []
    ensures G.Sound(WriterPayload(c, act))
  {
    hide G.Sound, P.Restarted, P.Write, P.WriteFailed, P.Push;
    match act {
      case ActivateWriter => G.RestartIsSound(c);
      case FinishWrite => G.WriteIsSound(c);
      case FinishFailed => G.WriteFailedIsSound(c);
      case FinishSeized => G.WriteFailedIsSound(c);
      case Push(sz, constructed) => G.PushIsSound(c, sz, constructed);
      case _ =>
    }
  }

  lemma StepKeepsSound(size: nat, id: nat, p: nat, l: Local, act: Action, b: View)
    requires Shaped(size, id, p, l.node) && Act(size, id, p, l, act).Some?
    requires PairInv(ViewOf(l.node, p), b, l.out, l.inn)
    ensures var m := Act(size, id, p, l, act).value; G.Sound(m.out.chan) && G.Sound(m.inn.chan)
  {
    PayloadStepsAllowed(size, id, p, l, act, b);
    if act.FinishRead? {
      ReadKeepsSound(size, id, p, l, act.verdicts);
    } else if TouchesPayload(act) {
      WriterStepPayload(size, id, p, l, act);
      WriterPayloadIsSound(l.out.chan, act);
    } else {
      OtherStepsKeepChannels(size, id, p, l, act);
    }
  }

  lemma StepKeepsPair(size: nat, id: nat, p: nat, l: Local, act: Action, b: View)
    requires Shaped(size, id, p, l.node) && Act(size, id, p, l, act).Some? && NodeInv(size, id, l.node)
    requires PairInv(ViewOf(l.node, p), b, l.out, l.inn)
    ensures var m := Act(size, id, p, l, act).value;
            NodeInv(size, id, m.node) && PairInv(ViewOf(m.node, p), b, m.out, m.inn)
  {
    StepKeepsNode(size, id, p, l, act);
    SoundIsTidy(l.out.chan);
    SoundIsTidy(l.inn.chan);
    StepKeepsCoordination(size, id, p, l, act, b);
    StepKeepsSound(size, id, p, l, act, b);
  }

  /** The assertions of the source hold where they stand. */
  lemma AssertionsHoldLocally(size: nat, id: nat, p: nat, l: Local, act: Action, b: View)
    requires Shaped(size, id, p, l.node) && Act(size, id, p, l, act).Some? && NodeInv(size, id, l.node)
    requires PairInv(ViewOf(l.node, p), b, l.out, l.inn)
    ensures Asserted(size, id, p, l, act)
  {
    SoundIsTidy(l.out.chan);
    SoundCanFail(l.out.chan);
    hide G.Sound, Act;
    if act.FinishRead? || act.FinishWrite? || act.FinishFailed? || act.FinishSeized? {
      AssertionsOfPasses(size, id, p, l, act, b);
    } else {
      AssertionsOfFlags(size, id, p, l, act, b);
    }
  }

  lemma AssertionsOfPasses(size: nat, id: nat, p: nat, l: Local, act: Action, b: View)
    requires act.FinishRead? || act.FinishWrite? || act.FinishFailed? || act.FinishSeized?
    requires Shaped(size, id, p, l.node) && Act(size, id, p, l, act).Some? && NodeInv(size, id, l.node)
    requires Coordinated(ViewOf(l.node, p), b, l.out, l.inn)
    requires Tidy(l.out.chan) && P.CanFail(l.out.chan.area, l.out.chan.cache)
    ensures Asserted(size, id, p, l, act)
  {
    hide Noticed, Signalled, P.Push, P.Read, P.Write, P.WriteFailed, P.Restarted;
    match act {
      case FinishRead(_) => IncreasingIsShort(l.node.toUnlock, p);
      case FinishWrite => IncreasingIsShort(l.node.toLock, p);
      case _ =>
    }
  }

  lemma AssertionsOfFlags(size: nat, id: nat, p: nat, l: Local, act: Action, b: View)
    requires !(act.FinishRead? || act.FinishWrite? || act.FinishFailed? || act.FinishSeized?)
    requires Shaped(size, id, p, l.node) && Act(size, id, p, l, act).Some? && NodeInv(size, id, l.node)
    requires Coordinated(ViewOf(l.node, p), b, l.out, l.inn)
    ensures Asserted(size, id, p, l, act)
  {
    hide Noticed, Signalled, Handover, P.Push, P.Read, P.Write, P.WriteFailed, P.Restarted;
  }

  lemma SoundCanFail(c: P.Channel)
    requires G.Sound(c)
    ensures P.CanFail(c.area, c.cache)
  {
    G.PagesRemain(c);
  }

  lemma {:induction false} IncreasingIsShort(s: seq<nat>, bound: nat)
    requires Increasing(s, bound)
    ensures |s| <= bound
  {
    if s != [] {
      var n := |s| - 1;
      IncreasingIsShort(s[..n], s[n]);
    }
  }
}
