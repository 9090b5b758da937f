/** The chains of a channel between two nodes, tied to what the channel does. */
module ChannelEnds {
  import opened ChainEnds
  import P = ChannelPayload
  import G = ChannelPages
  import L = LocalChannel

  /**
   The ends belong to the chains of the channel: they count the same items.  On a node's channel to itself (local) the
   area holds what has been swapped out, and its used pages are the node's; the chains of the shared area stay empty.
   */
  ghost predicate Matches(local: bool, e: Chains, c: P.Channel) {
    && e.cached.count == |c.cache.toBeDelivered| && e.used.count == |c.cache.used| && e.free.count == |c.cache.free|
    && if local then
         e.delivered == e.undelivered == e.areaUsed == NIL && e.localUsed.count == |c.area.used|
       else
         && e.delivered.count == |c.area.toBeDelivered| && e.undelivered.count == |c.area.undelivered|
         && e.areaUsed.count == |c.area.used| && e.localUsed == NIL
  }

  datatype Move =
    | Push(size: nat, constructed: bool)
    | Read(verdicts: seq<bool>)
    | Write
    | WriteFailed
    | LocalSwap
    | LocalDispatch(handled: bool)

  predicate Possible(local: bool, c: P.Channel, m: Move) {
    match m
    case Push(_, _) => true
    case Read(v) => !local && |v| == |c.area.toBeDelivered|
    case Write => !local
    case WriteFailed =>
      !local && P.CanFail(c.area, c.cache) && (c.area.undelivered != [] ==> c.area.delivered)
    case LocalSwap => local && L.Enabled(c, L.Swap)
    case LocalDispatch(handled) => local && L.Enabled(c, L.Dispatch(handled))
  }

  function After(local: bool, c: P.Channel, m: Move): P.Channel
    requires Possible(local, c, m)
  {
    match m
    case Push(size, constructed) => P.Push(c, size, constructed)
    case Read(v) => P.Read(c, v)
    case Write => P.Write(c)
    case WriteFailed => P.WriteFailed(c)
    case LocalSwap => L.Swapped(c)
    case LocalDispatch(handled) => L.Dispatched(c, handled)
  }

  function Refusals(n: nat): seq<Step> {
    if n == 0 then [] else [Refuse] + Refusals(n - 1)
  }

  /** What a move of the channel does to its chains, step by step. */
  function Steps(local: bool, c: P.Channel, m: Move): seq<Step>
    requires Possible(local, c, m)
  {
    match m
    case Push(size, constructed) =>
      (if |P.Push(c, size, constructed).cache.used| == |c.cache.used| then [] else [NewPage])
      + (if |P.Push(c, size, constructed).cache.toBeDelivered| == |c.cache.toBeDelivered| then [] else [PushEvent])
    case Read(v) => [BeginRead] + Refusals(|P.Refused(c.area.toBeDelivered, v)|)
    case Write => [Step.Write]
    case WriteFailed => [Step.WriteFailed(c.area.delivered)]
    case LocalSwap => [LocalSync]
    case LocalDispatch(_) => []
  }

  lemma {:induction false} RunJoin(e: Chains, s: seq<Step>, t: seq<Step>)
    requires AllEnabled(e, s) && AllEnabled(Run(e, s), t)
    ensures AllEnabled(e, s + t) && Run(e, s + t) == Run(Run(e, s), t)
    decreases |s|
  {
    if s == [] {
      assert s + t == t;
    } else {
      assert (s + t)[0] == s[0] && (s + t)[1..] == s[1..] + t;
      hide Enabled, Next;
      RunJoin(Next(e, s[0]), s[1..], t);
    }
  }

  lemma OneStep(e: Chains, s: Step)
    requires Enabled(e, s)
    ensures AllEnabled(e, [s]) && Run(e, [s]) == Next(e, s)
  {
    assert [s][1..] == [];
    assert Run(e, [s]) == Run(Next(e, s), []);
  }

  lemma {:induction false} RefusalsRun(e: Chains, n: nat)
    requires n <= e.delivered.count
    ensures var f := Run(e, Refusals(n));
            && AllEnabled(e, Refusals(n))
            && f.delivered.count == e.delivered.count - n && f.undelivered.count == e.undelivered.count + n
            && f == e.(delivered := f.delivered, undelivered := f.undelivered)
    decreases n
  {
    if n > 0 {
      assert Refusals(n)[1..] == Refusals(n - 1);
      RefusalsRun(Next(e, Refuse), n - 1);
    }
  }

  lemma {:induction false} VerdictsSplit(s: seq<P.Event>, v: seq<bool>)
    requires |s| == |v|
    ensures |P.Kept(s, v)| + |P.Refused(s, v)| == |s|
  {
    if s != [] {
      VerdictsSplit(s[1..], v[1..]);
    }
  }

  lemma ReadFollows(e: Chains, c: P.Channel, v: seq<bool>)
    requires Matches(false, e, c) && Possible(false, c, Read(v))
    ensures var s := Steps(false, c, Read(v)); AllEnabled(e, s) && Matches(false, Run(e, s), P.Read(c, v))
  {
    var n := |P.Refused(c.area.toBeDelivered, v)|;
    VerdictsSplit(c.area.toBeDelivered, v);
    OneStep(e, BeginRead);
    RefusalsRun(e, n);
    RunJoin(e, [BeginRead], Refusals(n));
    hide Run, AllEnabled, Refusals;
  }

  lemma PushFollows(local: bool, e: Chains, c: P.Channel, size: nat, constructed: bool)
    requires Matches(local, e, c)
    ensures var s := Steps(local, c, Push(size, constructed));
            AllEnabled(e, s) && Matches(local, Run(e, s), P.Push(c, size, constructed))
  {
    var d := P.Push(c, size, constructed);
    var s := if |d.cache.used| == |c.cache.used| then [] else [NewPage];
    var t := if |d.cache.toBeDelivered| == |c.cache.toBeDelivered| then [] else [PushEvent];
    OneStep(e, NewPage);
    var f := Run(e, s);
    OneStep(f, PushEvent);
    RunJoin(e, s, t);
  }

  /** Whatever a channel does, its chains do the steps their ends are followed through. */
  lemma EndsFollow(local: bool, e: Chains, c: P.Channel, m: Move)
    requires Matches(local, e, c) && Possible(local, c, m)
    ensures var s := Steps(local, c, m); AllEnabled(e, s) && Matches(local, Run(e, s), After(local, c, m))
  {
    match m
    case Push(size, constructed) => PushFollows(local, e, c, size, constructed);
    case Read(v) => ReadFollows(e, c, v);
    case Write => OneStep(e, Step.Write);
    case WriteFailed => OneStep(e, Step.WriteFailed(c.area.delivered));
    case LocalSwap => OneStep(e, LocalSync);
    case LocalDispatch(_) =>
  }

  // ---------- whole lives of a channel ----------

  predicate AllPossible(local: bool, c: P.Channel, moves: seq<Move>)
    decreases |moves|
  {
    moves != [] ==> Possible(local, c, moves[0]) && AllPossible(local, After(local, c, moves[0]), moves[1..])
  }

  function Moved(local: bool, c: P.Channel, moves: seq<Move>): P.Channel
    requires AllPossible(local, c, moves)
    decreases |moves|
  {
    if moves == [] then c else Moved(local, After(local, c, moves[0]), moves[1..])
  }

  function AllSteps(local: bool, c: P.Channel, moves: seq<Move>): seq<Step>
    requires AllPossible(local, c, moves)
    decreases |moves|
  {
    if moves == [] then []
    else Steps(local, c, moves[0]) + AllSteps(local, After(local, c, moves[0]), moves[1..])
  }

  lemma {:induction false} MovesFollow(local: bool, e: Chains, c: P.Channel, moves: seq<Move>)
    requires Matches(local, e, c) && AllPossible(local, c, moves)
    ensures var s := AllSteps(local, c, moves);
            AllEnabled(e, s) && Matches(local, Run(e, s), Moved(local, c, moves))
    decreases |moves|
  {
    if moves != [] {
      hide Steps, After, Possible, Matches;
      var first, d := Steps(local, c, moves[0]), After(local, c, moves[0]);
      EndsFollow(local, e, c, moves[0]);
      MovesFollow(local, Run(e, first), d, moves[1..]);
      RunJoin(e, first, AllSteps(local, d, moves[1..]));
    }
  }

  function Beginning(pageSize: nat, local: bool): P.Channel {
    if local then L.NewChannel(pageSize) else G.Initial(pageSize)
  }

  /**
   Every life of a channel, from its construction: doing to the chains as they are built what the moves of the
   channel do to them, step by step, they always count its items, and every one that is begun has both ends or neither.
   */
  lemma EveryChannelHasEnds(pageSize: nat, local: bool, moves: seq<Move>)
    requires AllPossible(local, Beginning(pageSize, local), moves)
    ensures var steps := AllSteps(local, Beginning(pageSize, local), moves);
            var e := Run(Untouched(), steps);
            && AllEnabled(Untouched(), steps)
            && Matches(local, e, Moved(local, Beginning(pageSize, local), moves))
            && forall s, x :: x in Begun(e, s) ==> Clean(x)
  {
    var steps := AllSteps(local, Beginning(pageSize, local), moves);
    MovesFollow(local, Untouched(), Beginning(pageSize, local), moves);
    hide Matches;
    forall s, x | x in Begun(Run(Untouched(), steps), s) ensures Clean(x) {
      BegunChainsAreClean(steps, s, x);
    }
  }
}
