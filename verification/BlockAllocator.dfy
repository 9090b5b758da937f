/**
 The size-class allocator of an event loop.  Blocks of 2^k bytes wait in one free chain per class k; an empty
 class is refilled by carving a new page greedily.  Addresses are byte offsets; the one-pointer link that chains
 pages and free blocks takes LINK bytes.
 */
module BlockAllocator {
  import opened Wrappers

  const LINK: nat := 8
  const CLASSES: nat := 64
  const WORD: nat := 0x1_0000_0000

  function Pow2(k: nat): (r: nat)
    ensures r >= 1
  {
    if k == 0 then 1 else 2 * Pow2(k - 1)
  }

  lemma {:induction false} Pow2Grows(j: nat, k: nat)
    requires j < k
    ensures 2 * Pow2(j) <= Pow2(k)
    decreases k
  {
    if j < k - 1 {
      Pow2Grows(j, k - 1);
    }
  }

  lemma {:induction false} Pow2Eights(k: nat)
    requires k >= 3
    ensures Pow2(k) % 8 == 0 && Pow2(k) >= LINK
  {
    if k > 3 {
      Pow2Eights(k - 1);
      TwiceMultiple(Pow2(k - 1));
    } else {
      EightIsPow2();
    }
  }

  lemma TwiceMultiple(n: nat)
    requires n % 8 == 0
    ensures 2 * n % 8 == 0
  {
  }

  lemma EightIsPow2()
    ensures Pow2(3) == LINK
  {
  }

  // ---------- highest and lowest bit ----------

  function Log2(n: nat): nat {
    if n < 2 then 0 else 1 + Log2(n / 2)
  }

  function TrailingZeros(n: nat): nat {
    if n == 0 || n % 2 == 1 then 0 else 1 + TrailingZeros(n / 2)
  }

  lemma {:induction false} Log2Bounds(n: nat)
    requires n > 0
    ensures Pow2(Log2(n)) <= n < Pow2(Log2(n) + 1)
    ensures TrailingZeros(n) <= Log2(n) && (TrailingZeros(n) == Log2(n) <==> n == Pow2(Log2(n)))
  {
    if n >= 2 {
      Log2Bounds(n / 2);
      assert n == 2 * (n / 2) + n % 2;
    }
  }

  lemma Log2Below(n: nat, k: nat)
    requires 0 < n
    ensures n < Pow2(k) <==> Log2(n) < k
  {
    Log2Bounds(n);
    if Log2(n) + 1 < k {
      Pow2Grows(Log2(n) + 1, k);
    }
    if k < Log2(n) {
      Pow2Grows(k, Log2(n));
    }
  }

  /** The position of the highest bit; for 0 the unsigned counter wraps. */
  method HighestBit(pv: nat) returns (ret: nat)
    requires pv < Pow2(CLASSES)
    ensures ret == if pv == 0 then WORD - 1 else Log2(pv)
    ensures pv > 0 ==> Pow2(ret) <= pv < Pow2(ret + 1) && ret < CLASSES
  {
    hide Pow2;
    ret := 0;
    var v := pv;
    while v != 0
      invariant v != 0 ==> ret + Log2(v) == Log2(pv)
      invariant v == 0 ==> ret == if pv == 0 then 0 else Log2(pv) + 1
    {
      ret, v := ret + 1, v / 2;
    }
    if pv > 0 {
      Log2Bounds(pv);
      Log2Below(pv, CLASSES);
    }
    ret := (ret + WORD - 1) % WORD;
  }

  method LowestBit(pv: nat) returns (ret: nat)
    ensures ret == TrailingZeros(pv)
  {
    ret := 0;
    var v := pv;
    while v != 0 && v % 2 == 0
      invariant ret + TrailingZeros(v) == TrailingZeros(pv)
    {
      ret, v := ret + 1, v / 2;
    }
  }

  function Wanted(sz: nat): nat {
    if sz < 8 then 8 else sz
  }

  /** The class of a size: the smallest k with 2^k at least max(size, 8). */
  ghost predicate IsClass(k: nat, sz: nat) {
    Wanted(sz) <= Pow2(k) && forall j :: 0 <= j < k ==> Pow2(j) < Wanted(sz)
  }

  function ClassFor(sz: nat): nat {
    var w := Wanted(sz);
    if w == Pow2(Log2(w)) then Log2(w) else Log2(w) + 1
  }

  /** index: branch-free, the ceiling of the logarithm. */
  method Index(psz: nat) returns (ret: nat)
    requires psz <= Pow2(CLASSES - 1)
    ensures IsClass(ret, psz) && 3 <= ret < CLASSES && ret == ClassFor(psz)
  {
    var sz := if psz < 8 then 8 else psz;
    Pow2Grows(3, CLASSES - 1);
    Pow2Grows(CLASSES - 1, CLASSES);
    var hbit := HighestBit(sz);
    var low := LowestBit(sz);
    Log2Bounds(sz);
    var dbit := hbit - low;
    ret := hbit + dbit / (if dbit > 1 then dbit else 1);
    assert ret == if sz == Pow2(hbit) then hbit else hbit + 1;
    ClassOf(sz, hbit, ret);
    Log2Below(sz, 3);
    Log2Below(sz, CLASSES - 1);
  }

  lemma ClassOf(sz: nat, hbit: nat, ret: nat)
    requires sz >= 8 && Pow2(hbit) <= sz < Pow2(hbit + 1) && ret == if sz == Pow2(hbit) then hbit else hbit + 1
    ensures IsClass(ret, sz)
  {
    forall j | 0 <= j < ret ensures Pow2(j) < sz {
      if j < hbit {
        Pow2Grows(j, hbit);
      }
    }
  }

  /** There is one class for each size. */
  lemma ClassUnique(j: nat, k: nat, sz: nat)
    requires IsClass(j, sz) && IsClass(k, sz)
    ensures j == k
  {
    assert j < k ==> Pow2(j) < Wanted(sz);
    assert k < j ==> Pow2(k) < Wanted(sz);
  }

  // ---------- carving a page ----------

  datatype Block = Block(addr: nat, k: nat)

  /**
   The blocks cut from the bytes [lo, lo + size), in order: the current size while it fits, then ever smaller ones.
   */
  function Carved(lo: nat, size: nat, k: nat): seq<Block>
    decreases size
  {
    if size < LINK then []
    else
      var j := if size < Pow2(k) then Log2(size) else k;
      if size < Pow2(j) then [] else [Block(lo, j)] + Carved(lo + Pow2(j), size - Pow2(j), j)
  }

  predicate Covers(b: Block, x: nat) {
    b.addr <= x < b.addr + Pow2(b.k)
  }

  ghost predicate Covered(bs: seq<Block>, x: nat) {
    exists i :: 0 <= i < |bs| && Covers(bs[i], x)
  }

  /** One after the other, without gap or overlap, from lo to hi. */
  ghost predicate Tiles(bs: seq<Block>, lo: nat, hi: nat)
    decreases |bs|
  {
    if bs == [] then lo == hi else bs[0].addr == lo && Tiles(bs[1..], lo + Pow2(bs[0].k), hi)
  }

  ghost predicate Sized(b: Block) {
    3 <= b.k < CLASSES && b.addr % 8 == 0
  }

  lemma NextMultiple(lo: nat, size: nat, p: nat)
    requires lo % 8 == 0 && size % 8 == 0 && p % 8 == 0 && p <= size
    ensures (lo + p) % 8 == 0 && (size - p) % 8 == 0
  {
  }

  ghost predicate CanCarve(lo: nat, size: nat, k: nat) {
    lo % 8 == 0 && size % 8 == 0 && 3 <= k < CLASSES && size < Pow2(CLASSES)
  }

  /** The block size the loop uses next: the current one, or the largest that still fits. */
  lemma CarvedStep(lo: nat, size: nat, k: nat) returns (j: nat)
    requires CanCarve(lo, size, k) && size >= LINK
    ensures j == if size < Pow2(k) then Log2(size) else k
    ensures Sized(Block(lo, j)) && Pow2(j) <= size
    ensures CanCarve(lo + Pow2(j), size - Pow2(j), j)
    ensures Carved(lo, size, k) == [Block(lo, j)] + Carved(lo + Pow2(j), size - Pow2(j), j)
  {
    hide Pow2, Log2;
    j := if size < Pow2(k) then Log2(size) else k;
    Log2Bounds(size);
    EightIsPow2();
    Log2Below(size, 3);
    Log2Below(size, CLASSES);
    Pow2Eights(j);
    NextMultiple(lo, size, Pow2(j));
  }

  /** Carving wastes nothing: whatever the first block size, the blocks tile the bytes exactly. */
  lemma {:induction false} CarvedTiles(lo: nat, size: nat, k: nat)
    requires CanCarve(lo, size, k)
    ensures Tiles(Carved(lo, size, k), lo, lo + size)
    ensures forall i :: 0 <= i < |Carved(lo, size, k)| ==> Sized(Carved(lo, size, k)[i])
    ensures size >= Pow2(k) ==> Carved(lo, size, k) != [] && Carved(lo, size, k)[0] == Block(lo, k)
    decreases size
  {
    if size >= LINK {
      var j := CarvedStep(lo, size, k);
      CarvedTiles(lo + Pow2(j), size - Pow2(j), j);
      var rest := Carved(lo + Pow2(j), size - Pow2(j), j);
      TilesJoin(lo, j, rest, lo + size);
      hide Pow2, Log2, Carved, Sized, CanCarve, Tiles;
    } else {
      Pow2Eights(k);
    }
  }

  lemma TilesJoin(lo: nat, k: nat, rest: seq<Block>, hi: nat)
    requires Tiles(rest, lo + Pow2(k), hi)
    ensures Tiles([Block(lo, k)] + rest, lo, hi)
  {
    assert ([Block(lo, k)] + rest)[1..] == rest;
    hide Pow2;
  }

  lemma {:induction false} TilesCover(bs: seq<Block>, lo: nat, hi: nat)
    requires Tiles(bs, lo, hi)
    ensures lo <= hi
    ensures forall i :: 0 <= i < |bs| ==> lo <= bs[i].addr && bs[i].addr + Pow2(bs[i].k) <= hi
    ensures forall i, j :: 0 <= i < j < |bs| ==> bs[i].addr + Pow2(bs[i].k) <= bs[j].addr
    ensures forall x :: lo <= x < hi ==> Covered(bs, x)
    decreases |bs|
  {
    if bs != [] {
      var next := lo + Pow2(bs[0].k);
      TilesCover(bs[1..], next, hi);
      forall x | lo <= x < hi ensures Covered(bs, x) {
        if x < next {
          assert Covers(bs[0], x);
        } else {
          assert Covered(bs[1..], x);
          var i :| 0 <= i < |bs[1..]| && Covers(bs[1..][i], x);
          assert Covers(bs[i + 1], x);
        }
      }
    }
  }

  // ---------- who owns what ----------

  datatype Page = Page(addr: nat, size: nat)

  ghost predicate Distinct(s: seq<nat>) {
    forall i, j :: 0 <= i < j < |s| ==> s[i] != s[j]
  }

  /** Every block carved so far is either live or in the chain of its class, once. */
  ghost predicate Owned(free: seq<seq<nat>>, parts: set<Block>, live: set<Block>) {
    && |free| == CLASSES && live <= parts
    && (forall k :: 0 <= k < CLASSES ==> Distinct(free[k]))
    && (forall k, a {:trigger a in free[k]} {:trigger Block(a, k) in parts} ::
          0 <= k < CLASSES ==> (a in free[k] <==> Block(a, k) in parts && Block(a, k) !in live))
  }

  ghost predicate Apart(b: Block, c: Block) {
    b.addr + Pow2(b.k) <= c.addr || c.addr + Pow2(c.k) <= b.addr
  }

  ghost predicate InPage(b: Block, p: Page) {
    p.addr + LINK <= b.addr && b.addr + Pow2(b.k) <= p.addr + p.size
  }

  ghost predicate CoveredIn(parts: set<Block>, x: nat) {
    exists b :: b in parts && Covers(b, x)
  }

  ghost predicate PagesApart(p: Page, q: Page) {
    p.addr + p.size <= q.addr || q.addr + q.size <= p.addr
  }

  /** The blocks carved so far tile every page behind its link. */
  ghost predicate Laid(pages: seq<Page>, parts: set<Block>) {
    && (forall i, j :: 0 <= i < j < |pages| ==> PagesApart(pages[i], pages[j]))
    && (forall b :: b in parts ==> Sized(b) && exists i :: 0 <= i < |pages| && InPage(b, pages[i]))
    && (forall b, c :: b in parts && c in parts && b != c ==> Apart(b, c))
    && (forall i, x {:trigger pages[i], CoveredIn(parts, x)} ::
          0 <= i < |pages| && pages[i].addr + LINK <= x < pages[i].addr + pages[i].size ==> CoveredIn(parts, x))
  }

  function SetOf(bs: seq<Block>): set<Block> {
    set i | 0 <= i < |bs| :: bs[i]
  }

  lemma {:induction false} NewBlocksApart(pages: seq<Page>, parts: set<Block>, p: Page, bs: seq<Block>,
                                          b: Block, c: Block)
    requires Laid(pages, parts) && Tiles(bs, p.addr + LINK, p.addr + p.size) && b in parts && c in bs
    requires p.size >= LINK && forall i :: 0 <= i < |pages| ==> PagesApart(pages[i], p)
    ensures Apart(b, c) && b != c && InPage(c, p)
  {
    TilesCover(bs, p.addr + LINK, p.addr + p.size);
    hide Tiles, Pow2;
    var i :| 0 <= i < |pages| && InPage(b, pages[i]);
    assert PagesApart(pages[i], p);
  }

  lemma {:induction false} LaidCovers(pages: seq<Page>, parts: set<Block>, p: Page, bs: seq<Block>, i: nat, x: nat)
    requires Laid(pages, parts) && p.size >= LINK && Tiles(bs, p.addr + LINK, p.addr + p.size)
    requires i <= |pages| && var q := (pages + [p])[i]; q.addr + LINK <= x < q.addr + q.size
    ensures CoveredIn(parts + SetOf(bs), x)
  {
    if i < |pages| {
      assert CoveredIn(parts, x);
      var b :| b in parts && Covers(b, x);
      assert b in parts + SetOf(bs);
    } else {
      TilesCover(bs, p.addr + LINK, p.addr + p.size);
      hide Tiles, Pow2;
      assert Covered(bs, x);
      var j :| 0 <= j < |bs| && Covers(bs[j], x);
      assert bs[j] in parts + SetOf(bs);
    }
  }

  /** A new page, carved into blocks, next to the others. */
  lemma {:induction false} LaidGrows(pages: seq<Page>, parts: set<Block>, p: Page, bs: seq<Block>)
    requires Laid(pages, parts) && p.size >= LINK && Tiles(bs, p.addr + LINK, p.addr + p.size)
    requires forall i :: 0 <= i < |bs| ==> Sized(bs[i])
    requires forall i :: 0 <= i < |pages| ==> PagesApart(pages[i], p)
    ensures Laid(pages + [p], parts + SetOf(bs))
    ensures forall b :: b in SetOf(bs) ==> b !in parts
    ensures forall i, j :: 0 <= i < j < |bs| ==> bs[i] != bs[j]
  {
    GrownInPages(pages, parts, p, bs);
    GrownApart(pages, parts, p, bs);
    TilesCover(bs, p.addr + LINK, p.addr + p.size);
    hide Covered, CoveredIn, Sized, InPage, Apart;
    var qs, all := pages + [p], parts + SetOf(bs);
    forall i, x | 0 <= i < |qs| && qs[i].addr + LINK <= x < qs[i].addr + qs[i].size ensures CoveredIn(all, x) {
      LaidCovers(pages, parts, p, bs, i, x);
    }
    hide Tiles;
  }

  lemma GrownInPages(pages: seq<Page>, parts: set<Block>, p: Page, bs: seq<Block>)
    requires Laid(pages, parts) && p.size >= LINK && Tiles(bs, p.addr + LINK, p.addr + p.size)
    requires forall i :: 0 <= i < |bs| ==> Sized(bs[i])
    ensures var qs := pages + [p];
            forall b :: b in parts + SetOf(bs) ==> Sized(b) && exists i :: 0 <= i < |qs| && InPage(b, qs[i])
  {
    TilesCover(bs, p.addr + LINK, p.addr + p.size);
    hide Tiles, Covered, CoveredIn, Sized, Apart, PagesApart;
    var qs := pages + [p];
    forall b | b in parts + SetOf(bs) ensures Sized(b) && exists i :: 0 <= i < |qs| && InPage(b, qs[i]) {
      if b in parts {
        var i :| 0 <= i < |pages| && InPage(b, pages[i]);
        assert InPage(b, qs[i]);
      } else {
        assert InPage(b, qs[|pages|]);
      }
    }
  }

  /** No two blocks, old or new, share a byte, and none is both. */
  lemma GrownApart(pages: seq<Page>, parts: set<Block>, p: Page, bs: seq<Block>)
    requires Laid(pages, parts) && p.size >= LINK && Tiles(bs, p.addr + LINK, p.addr + p.size)
    requires forall i :: 0 <= i < |pages| ==> PagesApart(pages[i], p)
    ensures forall b :: b in SetOf(bs) ==> b !in parts
    ensures forall b, c :: b in parts + SetOf(bs) && c in parts + SetOf(bs) && b != c ==> Apart(b, c)
  {
    TilesCover(bs, p.addr + LINK, p.addr + p.size);
    forall b, c | b in parts && c in SetOf(bs) ensures Apart(b, c) && Apart(c, b) && b != c {
      NewBlocksApart(pages, parts, p, bs, b, c);
    }
    hide Tiles, Covered, CoveredIn, Sized, InPage, PagesApart;
  }

  /** push_front of every block on the chain of its class, in order. */
  function Pushed(free: seq<seq<nat>>, bs: seq<Block>): seq<seq<nat>>
    decreases |bs|
  {
    if bs == [] || bs[0].k >= |free| then free else Pushed(free[bs[0].k := [bs[0].addr] + free[bs[0].k]], bs[1..])
  }

  lemma {:induction false} PushedOwned(free: seq<seq<nat>>, parts: set<Block>, live: set<Block>, bs: seq<Block>)
    requires Owned(free, parts, live) && forall i :: 0 <= i < |bs| ==> bs[i].k < CLASSES && bs[i] !in parts
    requires forall i, j :: 0 <= i < j < |bs| ==> bs[i] != bs[j]
    ensures Owned(Pushed(free, bs), parts + SetOf(bs), live)
    decreases |bs|
  {
    if bs == [] {
      assert parts + SetOf(bs) == parts;
    } else {
      var b := bs[0];
      PushedOne(free, parts, live, b);
      PushedOwned(free[b.k := [b.addr] + free[b.k]], parts + {b}, live, bs[1..]);
      assert parts + SetOf(bs) == parts + {b} + SetOf(bs[1..]) by {
        assert forall c :: c in SetOf(bs[1..]) ==> c in SetOf(bs);
        forall c | c in SetOf(bs) ensures c == b || c in SetOf(bs[1..]) {
          var i :| 0 <= i < |bs| && bs[i] == c;
          assert i > 0 ==> bs[1..][i - 1] == c;
        }
      }
    }
  }

  lemma PushedOne(free: seq<seq<nat>>, parts: set<Block>, live: set<Block>, b: Block)
    requires Owned(free, parts, live) && b.k < CLASSES && b !in parts
    ensures Owned(free[b.k := [b.addr] + free[b.k]], parts + {b}, live)
  {
    var g := free[b.k := [b.addr] + free[b.k]];
    assert b == Block(b.addr, b.k);
    assert b.addr !in free[b.k];
    assert forall a :: a in g[b.k] <==> a == b.addr || a in free[b.k];
  }

  /** One turn of the carving loop. */
  lemma PushedNext(free: seq<seq<nat>>, p: nat, size: nat, k: nat, j: nat)
    requires CanCarve(p, size, k) && size >= LINK && |free| == CLASSES && j == if size < Pow2(k) then Log2(size) else k
    ensures j < CLASSES && Pow2(j) <= size && CanCarve(p + Pow2(j), size - Pow2(j), j)
    ensures Pushed(free, Carved(p, size, k)) == Pushed(free[j := [p] + free[j]], Carved(p + Pow2(j), size - Pow2(j), j))
  {
    hide Pow2, Log2, Carved;
    var i := CarvedStep(p, size, k);
    var bs := Carved(p, size, k);
    assert bs != [] && bs[0] == Block(p, j) && bs[1..] == Carved(p + Pow2(j), size - Pow2(j), j);
    assert Pushed(free, bs) == Pushed(free[bs[0].k := [bs[0].addr] + free[bs[0].k]], bs[1..]);
  }

  lemma PushedNothing(free: seq<seq<nat>>, p: nat, size: nat, k: nat)
    requires size < LINK
    ensures Pushed(free, Carved(p, size, k)) == free
  {
  }

  lemma PoppedOwned(free: seq<seq<nat>>, parts: set<Block>, live: set<Block>, k: nat)
    requires Owned(free, parts, live) && k < CLASSES && free[k] != []
    ensures var b := Block(free[k][0], k);
            b in parts && b !in live && Owned(free[k := free[k][1..]], parts, live + {b})
  {
    var a := free[k][0];
    assert a in free[k];
    assert forall c :: c in free[k] <==> c == a || c in free[k][1..];
    assert a !in free[k][1..];
  }

  lemma ReturnedOwned(free: seq<seq<nat>>, parts: set<Block>, live: set<Block>, b: Block)
    requires Owned(free, parts, live) && b in live && b.k < CLASSES
    ensures Owned(free[b.k := [b.addr] + free[b.k]], parts, live - {b})
  {
    var g := free[b.k := [b.addr] + free[b.k]];
    assert b == Block(b.addr, b.k);
    assert b.addr !in free[b.k];
    assert forall a :: a in g[b.k] <==> a == b.addr || a in free[b.k];
  }

  /** A page large enough for one wanted block and its link, and apart from the others, refills the wanted class. */
  lemma NewPage(free: seq<seq<nat>>, pages: seq<Page>, parts: set<Block>, live: set<Block>, page: Page, isz: nat)
    requires Owned(free, parts, live) && Laid(pages, parts) && page.addr % 8 == 0 && 3 <= isz < CLASSES
    requires page.size >= Pow2(isz) + LINK && page.size % 8 == 0 && page.size < Pow2(CLASSES)
    requires forall i :: 0 <= i < |pages| ==> PagesApart(pages[i], page)
    ensures CanCarve(page.addr + LINK, page.size - LINK, isz)
    ensures var bs := PageBlocks(page, isz);
            && Owned(Pushed(free, bs), parts + SetOf(bs), live) && Laid(pages + [page], parts + SetOf(bs))
            && |Pushed(free, bs)| == CLASSES && Pushed(free, bs)[isz] != []
  {
    hide Pow2, Log2, Carved, Pushed, Laid;
    var lo, size := page.addr + LINK, page.size - LINK;
    var bs := PageBlocks(page, isz);
    CarvedTiles(lo, size, isz);
    LaidGrows(pages, parts, page, bs);
    hide Tiles;
    PushedOwned(free, parts, live, bs);
    assert bs[0] == Block(lo, isz) && bs[0] in SetOf(bs) && bs[0] !in live;
    assert lo in Pushed(free, bs)[isz];
  }

  /** Two live blocks share no byte. */
  lemma LiveBlocksApart(free: seq<seq<nat>>, pages: seq<Page>, parts: set<Block>, live: set<Block>,
                        b: Block, c: Block, x: nat)
    requires Owned(free, parts, live) && Laid(pages, parts) && b in live && c in live && Covers(b, x) && Covers(c, x)
    ensures b == c
  {
    assert Apart(b, c) || b == c;
  }

  /** Every byte of every page is its link's, or in exactly one block, which is live or waits in exactly one chain. */
  lemma {:induction false} EveryByteIsAccounted(free: seq<seq<nat>>, pages: seq<Page>, parts: set<Block>,
                                                live: set<Block>, i: nat, x: nat)
    returns (b: Block)
    requires Owned(free, parts, live) && Laid(pages, parts)
    requires i < |pages| && pages[i].addr + LINK <= x < pages[i].addr + pages[i].size
    ensures b in parts && Covers(b, x) && InPage(b, pages[i]) && b.k < CLASSES
    ensures (b in live) != (b.addr in free[b.k])
    ensures forall c :: c in parts && Covers(c, x) ==> c == b
  {
    assert CoveredIn(parts, x);
    b :| b in parts && Covers(b, x);
    assert Sized(b) && b == Block(b.addr, b.k);
    var j :| 0 <= j < |pages| && InPage(b, pages[j]);
    assert i != j ==> PagesApart(pages[i], pages[j]) by {
      if i < j {
        assert PagesApart(pages[i], pages[j]);
      } else if j < i {
        assert PagesApart(pages[j], pages[i]);
      }
    }
    forall c | c in parts && Covers(c, x) ensures c == b {
      assert Apart(b, c) || b == c;
    }
  }

  // ---------- the allocator ----------

  /** Whole system pages, enough for one block and the page's link. */
  function PageBytes(k: nat, systemPage: nat): nat
    requires systemPage > 0
  {
    systemPage * ((Pow2(k) + LINK + systemPage - 1) / systemPage)
  }

  lemma PageBytesFit(k: nat, systemPage: nat)
    requires k < CLASSES && systemPage > 0 && systemPage % 64 == 0 && systemPage <= Pow2(32)
    ensures var n := PageBytes(k, systemPage); n >= Pow2(k) + LINK && n % 8 == 0 && n < Pow2(CLASSES)
  {
    hide Pow2;
    var need := Pow2(k) + LINK;
    RoundedUp(need, systemPage);
    Pow2Grows(32, 62);
    Pow2Grows(62, 63);
    Pow2Grows(63, CLASSES);
    if k < 63 {
      Pow2Grows(k, 63);
    }
    Pow2Grows(3, 32);
    EightIsPow2();
    Multiple(systemPage, (need + systemPage - 1) / systemPage);
  }

  lemma RoundedUp(need: nat, unit: nat)
    requires unit > 0
    ensures need <= unit * ((need + unit - 1) / unit) <= need + unit - 1
  {
    var q, r := (need + unit - 1) / unit, (need + unit - 1) % unit;
    assert need + unit - 1 == unit * q + r;
  }

  lemma Multiple(unit: nat, q: nat)
    requires unit % 64 == 0
    ensures (unit * q) % 8 == 0
  {
    var u := unit / 64;
    assert unit * q == 8 * (8 * u * q);
  }

  class Allocator {
    const systemPage: nat
    const chains: array<seq<nat>>  // blockChainArray
    var pages: seq<Page>
    ghost var parts: set<Block>    // every block ever carved
    ghost var live: set<Block>     // those a caller holds

    ghost predicate Valid()
      reads this, chains
    {
      && systemPage > 0 && systemPage % 64 == 0 && systemPage <= Pow2(32)
      && chains.Length == CLASSES
      && Owned(chains[..], parts, live) && Laid(pages, parts)
    }

    constructor (systemPage: nat)
      requires systemPage > 0 && systemPage % 64 == 0 && systemPage <= Pow2(32)
      ensures Valid() && fresh(chains) && this.systemPage == systemPage
      ensures pages == [] && parts == {} && live == {}
    {
      this.systemPage := systemPage;
      chains := new seq<nat>[CLASSES](_ => []);
      pages, parts, live := [], {}, {};
    }

    /** Cuts the page behind its link, the wanted size first, into the chains. */
    method Carve(page: Page, isz: nat)
      requires chains.Length == CLASSES && page.size >= LINK && CanCarve(page.addr + LINK, page.size - LINK, isz)
      modifies chains
      ensures chains[..] == Pushed(old(chains[..]), PageBlocks(page, isz))
    {
      hide Pow2, Log2, Carved, Pushed;
      var p: nat, pageSz: nat, k := page.addr + LINK, page.size - LINK, isz;
      while pageSz >= LINK
        invariant CanCarve(p, pageSz, k) &&
                  Pushed(chains[..], Carved(p, pageSz, k)) == Pushed(old(chains[..]), PageBlocks(page, isz))
        decreases pageSz
      {
        ghost var before, kk := chains[..], k;
        ghost var j := CarvedStep(p, pageSz, k);
        if pageSz < Pow2(k) {
          k := HighestBit(pageSz);
        }
        assert k == j;
        chains[k] := [p] + chains[k];
        assert chains[..] == before[k := [p] + before[k]];
        PushedNext(before, p, pageSz, kk, k);
        p, pageSz := p + Pow2(k), pageSz - Pow2(k);
      }
      PushedNothing(chains[..], p, pageSz, k);
    }

    /** grant: the page the operating system gives when one is needed, if it has the memory. */
    method Allocate(sz: nat, grant: Option<nat>) returns (r: Option<nat>)
      requires Valid() && sz <= Pow2(CLASSES - 1)
      requires grant.Some? ==> grant.value % 64 == 0
      requires forall i :: grant.Some? && 0 <= i < |pages| ==>
                 PagesApart(pages[i], Page(grant.value, PageBytes(ClassFor(sz), systemPage)))
      modifies this`pages, this`parts, this`live, chains
      ensures Valid() && IsClass(ClassFor(sz), sz) && ClassFor(sz) < CLASSES
      ensures r.None? <==> old(chains[..])[ClassFor(sz)] == [] && grant.None?
      ensures r.None? ==>
                chains[..] == old(chains[..]) && pages == old(pages) && parts == old(parts) && live == old(live)
      ensures r.Some? ==> var b := Block(r.value, ClassFor(sz));
                          b in parts && b !in old(live) && live == old(live) + {b}
      ensures old(parts) <= parts
      ensures old(chains[..])[ClassFor(sz)] != [] ==>
                var free, k := old(chains[..]), ClassFor(sz);
                r == Some(free[k][0]) && chains[..] == free[k := free[k][1..]] && pages == old(pages) &&
                    parts == old(parts)
      ensures old(chains[..])[ClassFor(sz)] == [] && grant.Some? ==>
                var page := Page(grant.value, PageBytes(ClassFor(sz), systemPage));
                pages == old(pages) + [page] && parts == old(parts) + SetOf(PageBlocks(page, ClassFor(sz)))
    {
      hide Pow2, Log2, Carved, Pushed, PageBytes, ClassFor, IsClass, Owned, Laid;
      var isz := Index(sz);
      if chains[isz] == [] {
        if grant.None? {
          return None;
        }
        PageBytesFit(isz, systemPage);
        var page := Page(grant.value, PageBytes(isz, systemPage));
        NewPage(chains[..], pages, parts, live, page, isz);
        pages := pages + [page];
        Carve(page, isz);
        parts := parts + SetOf(PageBlocks(page, isz));
      }
      ghost var free := chains[..];
      PoppedOwned(free, parts, live, isz);
      live := live + {Block(chains[isz][0], isz)};
      r := Some(chains[isz][0]);
      chains[isz] := chains[isz][1..];
      assert chains[..] == free[isz := free[isz][1..]];
    }

    method Deallocate(sz: nat, p: nat)
      requires Valid() && sz <= Pow2(CLASSES - 1) && Block(p, ClassFor(sz)) in live
      modifies this`live, chains
      ensures Valid() && live == old(live) - {Block(p, ClassFor(sz))} && ClassFor(sz) < CLASSES
      ensures chains[..] == old(chains[..])[ClassFor(sz) := [p] + old(chains[..])[ClassFor(sz)]]
    {
      hide Pow2, Log2, ClassFor, IsClass, Owned, Laid;
      var isz := Index(sz);
      ghost var free := chains[..];
      ReturnedOwned(free, parts, live, Block(p, isz));
      chains[isz] := [p] + chains[isz];
      live := live - {Block(p, isz)};
      assert chains[..] == free[isz := [p] + free[isz]];
    }
  }

  /** The blocks of a carved page. */
  function PageBlocks(page: Page, isz: nat): seq<Block> {
    Carved(page.addr + LINK, if page.size < LINK then 0 else page.size - LINK, isz)
  }
}
