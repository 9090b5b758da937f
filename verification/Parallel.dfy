/**
 The handover protocol between the nodes of an engine: N nodes start, loop, stop and restart, each at its own
 pace.  An ordered pair of nodes shares one link.  Every access to a shared flag is a step of its own.

 A node's position in its program is its program counter together with, for each peer, how far it is on the
 link it reads from that peer and on the link it writes to it.
 */
module Parallel {
  import opened Wrappers
  import P = ChannelPayload

  /** readerCAS */
  datatype Cas = CasIdle | CasOn | CasOff

  /** What the two ends of a link share: the four flags, and the payload. */
  datatype Link = Link(readerActive: bool, cas: Cas, writerActive: bool, writeLocked: bool, chan: P.Channel)

  /** A reader on one link: Reading is inside the area, Recorded is between the read and the unlock. */
  datatype ReaderSide = Off | Setting | On | Reading | Recorded | Releasing

  /**
   A writer on one link.  Writing, Failing and Seized are inside the area; ToLock is between the write and the
   lock.  Seized, SeizedDone, SeizedFreed, ClosingSeized and ClosingFreed hold the compare-and-swap word.
   */
  datatype WriterSide =
    | WOff | Idle | Cleared | Writing | Failing | ToLock
    | FailLook | FailTry | Seized | SeizedDone | SeizedFreed
    | Closing | ClosingTry | ClosingSeized | ClosingFreed

  /** AtRead, AtCheck, AtWrite: before the barrier.  Unlock, Lock, Fail: after it. */
  datatype Pc =
    | Dead | CtorWrite(i: nat) | CtorRead(i: nat)
    | User | AtRead(i: nat) | AtCheck(i: nat) | AtWrite(i: nat) | Unlock | Lock | Fail(i: nat)
    | DtorRead(i: nat) | DtorCheck | DtorUnlock(i: nat)

  datatype Node = Node(
    pc: Pc, dying: bool, check: bool, rside: seq<ReaderSide>, wside: seq<WriterSide>,
    signal: seq<bool>, activity: seq<bool>, toUnlock: seq<nat>, toLock: seq<nat>)

  /** What one step touches: the node that moves, its link to the peer, and the peer's link to it. */
  datatype Local = Local(node: Node, out: Link, inn: Link)

  datatype Action =
    | Start | Advance(leave: bool)
    | ActivateWriter | RaiseReader | AcquireReader
    | LookRead | FinishRead(verdicts: seq<bool>) | CheckWriter
    | LookWrite | ChooseWrite | FinishWrite | FinishFailed
    | UnlockOne | LockOne
    | LookReader | LookLock | TrySeize | FinishSeized | ClearLock | ReleaseSeized
    | ReleaseReader | LowerReader
    | LowerWriter | LookClosing | TryClosing | ClosingClear | ClosingRelease
    | Push(sz: nat, constructed: bool) | PushLocal

  // ---------- the steps ----------

  /** Actor code (handlers, callbacks, local events, destructors) may run here. */
  predicate UserMayRun(pc: Pc) {
    pc.User? || pc.AtRead? || pc.AtCheck? || pc.AtWrite? || pc.Unlock? || pc.Lock? || pc.Fail?
  }

  function Repeat<T>(n: nat, t: T): (s: seq<T>)
    ensures |s| == n && forall k :: 0 <= k < n ==> s[k] == t
  {
    seq(n, _ => t)
  }

  function NewNode(size: nat): Node {
    Node(CtorWrite(0), false, false, Repeat(size, Off), Repeat(size, WOff),
         Repeat(size, false), Repeat(size, false), [], [])
  }

  /** Loop bookkeeping: skip the node itself, leave a loop at its end, go to the next phase. */
  function AdvanceNode(size: nat, id: nat, n: Node, leave: bool): Option<Node>
    requires |n.signal| == size && id < size
  {
    match n.pc
    case CtorWrite(i) =>
      if i == size then Some(n.(pc := CtorRead(0))) else if i == id then Some(n.(pc := CtorWrite(i + 1))) else None
    case CtorRead(i) =>
      if i == size then Some(n.(pc := User)) else if i == id then Some(n.(pc := CtorRead(i + 1))) else None
    case User =>
      if leave then Some(n.(pc := DtorRead(0), dying := true))
      else Some(n.(pc := AtRead(0), toUnlock := [], check := false))
    case AtRead(i) =>
      if i == size then Some(n.(pc := AtWrite(0), toLock := []))
      else if i == id then Some(n.(pc := AtRead(i + 1)))
      else None
    case AtWrite(i) =>
      if i == size then Some(n.(pc := if n.dying then Lock else Unlock))
      else if i == id then Some(n.(pc := AtWrite(i + 1), signal := n.signal[id := false])) else None
    case Unlock => if n.toUnlock == [] then Some(n.(pc := Lock)) else None
    case Lock =>
      if n.toLock != [] then None
      else Some(n.(pc := if n.dying || n.check then Fail(0) else User))
    case Fail(i) =>
      if i == size then Some(n.(pc := if n.dying then DtorCheck else User))
      else if i == id then Some(n.(pc := Fail(i + 1))) else None
    case DtorRead(i) =>
      if i == size then Some(n.(pc := DtorCheck)) else if i == id then Some(n.(pc := DtorRead(i + 1))) else None
    case DtorCheck =>
      if true in n.signal then Some(n.(pc := AtWrite(0), toLock := [])) else Some(n.(pc := DtorUnlock(0)))
    case DtorUnlock(i) =>
      if i == size then Some(n.(pc := Dead, dying := false))
      else if i == id then Some(n.(pc := DtorUnlock(i + 1))) else None
    case _ => None
  }

  ghost predicate Shaped(size: nat, id: nat, p: nat, n: Node) {
    && id < size && p < size && id != p
    && |n.rside| == |n.wside| == |n.signal| == |n.activity| == size
  }

  /** The read of the area: the undelivered events it leaves oblige the reader to notify the writer. */
  function ReadArea(p: nat, l: Local, v: seq<bool>): Local
    requires p < |l.node.rside| && p < |l.node.signal| && |v| == |l.inn.chan.area.toBeDelivered|
  {
    var refuses := P.Refused(l.inn.chan.area.toBeDelivered, v) != [];
    var n := l.node;
    Local(n.(rside := n.rside[p := Recorded], toUnlock := n.toUnlock + [p], pc := AtCheck(p),
             signal := n.signal[p := n.signal[p] || l.inn.chan.area.check || refuses]),
          l.out.(chan := l.out.chan.(cache := l.out.chan.cache.(check := l.out.chan.cache.check || refuses))),
          l.inn.(chan := P.Read(l.inn.chan, v)))
  }

  /** The writer leaves the area; a write worth reading is remembered, to be locked after the barrier. */
  function WrittenNode(p: nat, n: Node, worthy: bool): Node
    requires p < |n.wside| && p < |n.activity|
  {
    if worthy then
      n.(wside := n.wside[p := ToLock], toLock := n.toLock + [p], activity := n.activity[p := true],
          pc := AtWrite(p + 1))
    else
      n.(wside := n.wside[p := Idle], pc := AtWrite(p + 1))
  }

  /** One step of node id on its links with peer p; None when the step is not possible. */
  function Act(size: nat, id: nat, p: nat, l: Local, act: Action): Option<Local>
    requires Shaped(size, id, p, l.node)
  {
    var n, out, inn := l.node, l.out, l.inn;
    var r, w := n.rside[p], n.wside[p];
    match act
    case Start => if n.pc.Dead? then Some(l.(node := NewNode(size))) else None
    case Advance(leave) =>
      (match AdvanceNode(size, id, n, leave) case None => None case Some(m) => Some(l.(node := m)))

    // construction: writer ends first, then reader ends
    case ActivateWriter =>
      if n.pc == CtorWrite(p) && w.WOff? then
        Some(Local(n.(wside := n.wside[p := Idle], pc := CtorWrite(p + 1)),
                   out.(writerActive := true, chan := P.Restarted(out.chan)), inn))
      else None
    case RaiseReader =>
      if n.pc == CtorRead(p) && r.Off? then
        Some(Local(n.(rside := n.rside[p := Setting]), out, inn.(readerActive := true)))
      else None
    case AcquireReader =>
      if n.pc == CtorRead(p) && r.Setting? && inn.cas.CasIdle? then
        Some(Local(n.(rside := n.rside[p := On], pc := CtorRead(p + 1)), out, inn.(cas := CasOn)))
      else None

    // the pass over the readable links
    case LookRead =>
      if n.pc == AtRead(p) && r.On? then
        Some(l.(node := if inn.writeLocked then n.(rside := n.rside[p := Reading]) else n.(pc := AtCheck(p))))
      else None
    case FinishRead(v) =>
      if n.pc == AtRead(p) && r.Reading? && |v| == |inn.chan.area.toBeDelivered| then Some(ReadArea(p, l, v)) else None
    case CheckWriter =>
      if n.pc == AtCheck(p) then
        Some(l.(node := n.(pc := AtRead(p + 1), check := n.check || (n.activity[p] && !inn.writerActive))))
      else None

    // the pass over the writable links
    case LookWrite =>
      if n.pc == AtWrite(p) && w.Idle? then
        var m := n.(signal := n.signal[id := false]);
        Some(l.(node := if n.signal[p] && !out.writeLocked
                        then m.(signal := m.signal[p := false], wside := n.wside[p := Cleared])
                        else m.(pc := AtWrite(p + 1))))
      else None
    case ChooseWrite =>
      if n.pc == AtWrite(p) && w.Cleared? then
        Some(l.(node := n.(wside := n.wside[p := if out.readerActive then Writing else Failing])))
      else None
    case FinishWrite =>
      if n.pc == AtWrite(p) && w.Writing? then
        Some(Local(WrittenNode(p, n, P.WriteWorthy(out.chan)), out.(chan := P.Write(out.chan)), inn))
      else None
    case FinishFailed =>
      if n.pc == AtWrite(p) && w.Failing? then
        Some(Local(WrittenNode(p, n, false), out.(chan := P.WriteFailed(out.chan)), inn))
      else None

    // after the barrier
    case UnlockOne =>
      if n.pc.Unlock? && n.toUnlock != [] && n.toUnlock[|n.toUnlock| - 1] == p then
        Some(Local(n.(rside := n.rside[p := On], toUnlock := n.toUnlock[..|n.toUnlock| - 1]), out,
            inn.(writeLocked := false)))
      else None
    case LockOne =>
      if n.pc.Lock? && n.toLock != [] && n.toLock[|n.toLock| - 1] == p then
        Some(Local(n.(wside := n.wside[p := Idle], toLock := n.toLock[..|n.toLock| - 1]),
                   out.(writeLocked := true), inn))
      else None
    case LookReader =>
      if n.pc == Fail(p) && w.Idle? then
        Some(l.(node := if out.readerActive then n.(pc := Fail(p + 1)) else n.(wside := n.wside[p := FailLook])))
      else None
    case LookLock =>
      if n.pc == Fail(p) && w.FailLook? then
        Some(l.(node := if out.writeLocked then n.(wside := n.wside[p := FailTry])
                        else n.(wside := n.wside[p := Idle], activity := n.activity[p := false], pc := Fail(p + 1))))
      else None
    case TrySeize =>
      if n.pc == Fail(p) && w.FailTry? then
        if out.cas.CasIdle? then Some(Local(n.(wside := n.wside[p := Seized]), out.(cas := CasOff), inn))
        else Some(l.(node := n.(wside := n.wside[p := Idle], pc := Fail(p + 1))))
      else None
    case FinishSeized =>
      if n.pc == Fail(p) && w.Seized? then
        Some(Local(n.(wside := n.wside[p := SeizedDone]), out.(chan := P.WriteFailed(out.chan)), inn))
      else None
    case ClearLock =>
      if n.pc == Fail(p) && w.SeizedDone? then
        Some(Local(n.(wside := n.wside[p := SeizedFreed], activity := n.activity[p := false]),
                   out.(writeLocked := false), inn))
      else None
    case ReleaseSeized =>
      if n.pc == Fail(p) && w.SeizedFreed? then
        Some(Local(n.(wside := n.wside[p := Idle], pc := Fail(p + 1)), out.(cas := CasIdle), inn))
      else None

    // destruction: reader ends first, then the pending writes, then the writer ends
    case ReleaseReader =>
      if n.pc == DtorRead(p) && r.On? then
        Some(Local(n.(rside := n.rside[p := Releasing]), out, inn.(cas := if inn.cas.CasOn? then CasIdle else inn.cas)))
      else None
    case LowerReader =>
      if n.pc == DtorRead(p) && r.Releasing? then
        Some(Local(n.(rside := n.rside[p := Off], pc := DtorRead(p + 1)), out, inn.(readerActive := false)))
      else None
    case LowerWriter =>
      if n.pc == DtorUnlock(p) && w.Idle? then
        Some(Local(n.(wside := n.wside[p := Closing]), out.(writerActive := false), inn))
      else None
    case LookClosing =>
      if n.pc == DtorUnlock(p) && w.Closing? then
        Some(l.(node := if out.writeLocked then n.(wside := n.wside[p := ClosingTry])
                        else n.(wside := n.wside[p := WOff], pc := DtorUnlock(p + 1))))
      else None
    case TryClosing =>
      if n.pc == DtorUnlock(p) && w.ClosingTry? then
        if out.cas.CasIdle? then Some(Local(n.(wside := n.wside[p := ClosingSeized]), out.(cas := CasOff), inn))
        else Some(l.(node := n.(wside := n.wside[p := Closing])))
      else None
    case ClosingClear =>
      if n.pc == DtorUnlock(p) && w.ClosingSeized? then
        Some(Local(n.(wside := n.wside[p := ClosingFreed]), out.(writeLocked := false), inn))
      else None
    case ClosingRelease =>
      if n.pc == DtorUnlock(p) && w.ClosingFreed? then
        Some(Local(n.(wside := n.wside[p := Closing]), out.(cas := CasIdle), inn))
      else None

    // actor code
    case Push(sz, constructed) =>
      if UserMayRun(n.pc) && !w.Failing? && !w.Seized? then
        Some(Local(n.(signal := n.signal[p := true]), out.(chan := P.Push(out.chan, sz, constructed)), inn))
      else None
    case PushLocal =>
      if UserMayRun(n.pc) then Some(l.(node := n.(signal := n.signal[id := true]))) else None
  }

  /** The assertions of the source at the places the steps stand for. */
  predicate Asserted(size: nat, id: nat, p: nat, l: Local, act: Action)
    requires Shaped(size, id, p, l.node)
  {
    match act
    case ActivateWriter => !l.out.writeLocked
    case RaiseReader => !l.inn.readerActive
    case LookRead => l.inn.readerActive && l.inn.cas.CasOn?
    case FinishRead(_) => l.inn.readerActive && !l.inn.chan.area.delivered && |l.node.toUnlock| < size
    case FinishWrite => |l.node.toLock| < size
    case FinishFailed => P.CanFail(l.out.chan.area, l.out.chan.cache) &&
        (l.out.chan.area.delivered || l.out.chan.area.undelivered == [])
    case FinishSeized => P.CanFail(l.out.chan.area, l.out.chan.cache) &&
        (l.out.chan.area.delivered || l.out.chan.area.undelivered == [])
    case UnlockOne => l.inn.writeLocked
    case LockOne => !l.out.writeLocked
    case ReleaseReader => l.inn.readerActive && l.inn.cas.CasOn?
    case _ => true
  }
}
