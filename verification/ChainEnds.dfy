/**
 Which of a channel's forward chains may be begun.  Only the two ends of a chain matter: the number of its items
 (no items: no head) and whether it has a tail.  A chain spliced out of keeps a stale one.
 */
module ChainEnds {

  datatype Ends = Ends(count: nat, tail: bool)

  /** What begin() and end() assert. */
  predicate Clean(e: Ends) {
    e.count == 0 <==> !e.tail
  }

  predicate Usable(e: Ends) {
    e.count > 0 ==> e.tail
  }

  function Pushed(e: Ends): Ends {
    Ends(e.count + 1, true)
  }

  /** pop_front and erase: the last item takes head and tail with it. */
  function Less(e: Ends): Ends {
    if e.count <= 1 then Ends(0, false) else e.(count := e.count - 1)
  }

  /** a.push_back(b), as both ends of both chains see it. */
  function Spliced(a: Ends, b: Ends): (Ends, Ends) {
    if a.count == 0 || b.count == 0 then (if b.count > 0 then (b, a) else (a, b))
    else (Ends(a.count + b.count, true), Ends(0, true))
  }

  /**
   delivered, undelivered, areaUsed: of the shared area; cached, used, free: of the write cache; localUsed: of the
   node.
   */
  datatype Chains = Chains(delivered: Ends, undelivered: Ends, areaUsed: Ends, cached: Ends, used: Ends, free: Ends,
      localUsed: Ends)

  datatype Step =
    | NewPage               // a page is put in front of the used ones
    | PushEvent
    | BeginRead             // the reader begins the events of the area
    | Refuse                // one of them is erased, and pushed on the undelivered chain
    | LocalSync             // the node's channel to itself: the cached events are swapped out and begun
    | Write
    | WriteFailed(delivered: bool)

  predicate Enabled(c: Chains, s: Step) {
    match s
    case Refuse => c.delivered.count > 0
    case WriteFailed(_) => c.free.count + c.areaUsed.count + c.used.count > 0
    case _ => true
  }

  /** The chains a step begins. */
  function Begun(c: Chains, s: Step): set<Ends> {
    match s
    case BeginRead => {c.delivered}
    case LocalSync => if c.cached.count == 0 then {} else {c.cached}
    case Write => if c.undelivered.count == 0 then {} else {c.undelivered}
    case WriteFailed(delivered) => {if delivered then c.undelivered else c.delivered, c.cached}
    case _ => {}
  }

  const NIL := Ends(0, false)

  /** A page from the free chain, or a new one. */
  function WithPage(c: Chains): Chains {
    if c.free.count == 0 then c.(used := Pushed(c.used)) else c.(used := Pushed(c.used), free := Less(c.free))
  }

  function Next(c: Chains, s: Step): Chains {
    match s
    case NewPage => WithPage(c)
    case PushEvent => c.(cached := Pushed(c.cached))
    case BeginRead => c
    case Refuse => c.(delivered := Less(c.delivered), undelivered := Pushed(c.undelivered))
    case LocalSync =>
      if c.cached.count == 0 then c
      else
        var (free, local) := Spliced(c.free, c.localUsed);
        c.(cached := NIL, free := free, used := local, localUsed := c.used)
    case Write =>
      var (free, areaUsed) := Spliced(c.free, c.areaUsed);
      var d := c.(undelivered := if c.undelivered.count == 0 then c.undelivered else NIL, delivered := NIL,
                  free := free, areaUsed := areaUsed);
      if c.cached.count == 0 then d
      else
        var e := d.(delivered := c.cached, cached := NIL, areaUsed := c.used, used := areaUsed);
        if e.free.count == 0 then e else WithPage(e)
    case WriteFailed(delivered) =>
      var (free, areaUsed) := Spliced(c.free, c.areaUsed);
      var (all, used) := Spliced(free, c.used);
      Chains(NIL, if delivered then NIL else c.undelivered, areaUsed, NIL, Pushed(used), Less(all), c.localUsed)
  }

  /** Every chain with items has a tail; event chains and free pages are clean besides, used pages need not be. */
  predicate Inv(c: Chains) {
    && Clean(c.delivered) && Clean(c.undelivered) && Clean(c.cached) && Clean(c.free)
    && Usable(c.areaUsed) && Usable(c.used) && Usable(c.localUsed)
  }

  predicate AllEnabled(c: Chains, steps: seq<Step>)
    decreases |steps|
  {
    steps != [] ==> Enabled(c, steps[0]) && AllEnabled(Next(c, steps[0]), steps[1..])
  }

  function Run(c: Chains, steps: seq<Step>): Chains
    decreases |steps|
  {
    if steps == [] then c else Run(Next(c, steps[0]), steps[1..])
  }

  lemma {:induction false} RunKeeps(c: Chains, steps: seq<Step>)
    requires Inv(c) && AllEnabled(c, steps)
    ensures Inv(Run(c, steps))
    decreases |steps|
  {
    if steps != [] {
      assert Inv(Next(c, steps[0]));
      RunKeeps(Next(c, steps[0]), steps[1..]);
    }
  }

  /** As the write cache is built: a used page and a free one. */
  function Untouched(): Chains {
    Chains(NIL, NIL, NIL, NIL, Ends(1, true), Ends(1, true), NIL)
  }

  /** Whatever a channel does, every chain it begins has both ends or neither. */
  lemma BegunChainsAreClean(steps: seq<Step>, s: Step, e: Ends)
    requires AllEnabled(Untouched(), steps)
    requires e in Begun(Run(Untouched(), steps), s)
    ensures Clean(e)
  {
    RunKeeps(Untouched(), steps);
  }

  /** Without items, but with a tail. */
  predicate Stale(e: Ends) {
    e.count == 0 && e.tail
  }

  /**
   In every state a channel can be in, which chains of used pages are stale after a step.  A chain goes stale when its
   pages are spliced behind free ones; it stops being so when it takes a page, and chains pass it on when they are
   swapped.
   */
  lemma PagesGoStaleIff(steps: seq<Step>, s: Step)
    requires AllEnabled(Untouched(), steps) && Enabled(Run(Untouched(), steps), s)
    ensures var c, n := Run(Untouched(), steps), Next(Run(Untouched(), steps), s);
            && !Stale(n.free) && !Stale(c.free)
            && (Stale(n.areaUsed) <==>
                  match s
                  case Write =>
                    if c.cached.count > 0 then Stale(c.used)
                    else Stale(c.areaUsed) || (c.areaUsed.count > 0 && c.free.count > 0)
                  case WriteFailed(_) => Stale(c.areaUsed) || (c.areaUsed.count > 0 && c.free.count > 0)
                  case _ => Stale(c.areaUsed))
            && (Stale(n.used) <==>
                  match s
                  case NewPage => false
                  case WriteFailed(_) => false
                  case Write =>
                    if c.cached.count == 0 then Stale(c.used)
                    else Stale(c.areaUsed) && c.free.count == 0
                  case LocalSync =>
                    if c.cached.count == 0 then Stale(c.used)
                    else Stale(c.localUsed) || (c.localUsed.count > 0 && c.free.count > 0)
                  case _ => Stale(c.used))
            && (Stale(n.localUsed) <==>
                  if s.LocalSync? && c.cached.count > 0 then Stale(c.used) else Stale(c.localUsed))
  {
    RunKeeps(Untouched(), steps);
  }
}
