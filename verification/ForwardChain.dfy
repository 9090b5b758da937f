/**
 The intrusive forward chain events and pages travel on: items link themselves, the chain keeps its two ends.  The
 link of the last item is not maintained; begin() terminates it before an iteration.
 */
module ForwardChain {
  import E = ChainEnds

  class Link {
    var next: Link?

    constructor ()
    {
    }
  }

  ghost predicate Distinct(s: seq<Link>) {
    forall i, j :: 0 <= i < j < |s| ==> s[i] != s[j]
  }

  /** Every item but the last links to the one behind it. */
  ghost predicate Linked(s: seq<Link>)
    reads s
  {
    forall i, j :: 0 <= i && j == i + 1 && j < |s| ==> s[i].next == s[j]
  }

  class Chain {
    var head: Link?
    var tail: Link?
    ghost var items: seq<Link>

    /** An empty chain may keep a stale tail. */
    ghost predicate Valid()
      reads this, items
    {
      && Distinct(items) && Linked(items)
      && (head == null <==> items == [])
      && (items != [] ==> head == items[0] && tail == items[|items| - 1])
    }

    /** What begin() and end() assert: no head, no tail. */
    ghost predicate Clean()
      reads this
    {
      head == null ==> tail == null
    }

    /** What ChainEnds knows of the chain. */
    ghost function EndsOf(): E.Ends
      reads this
    {
      E.Ends(|items|, tail != null)
    }

    ghost predicate Terminated()
      reads this, items
    {
      items != [] ==> items[|items| - 1].next == null
    }

    constructor ()
      ensures Valid() && Clean() && items == []
    {
      head, tail, items := null, null, [];
    }

    method PushBack(l: Link)
      requires Valid() && l !in items
      modifies this, items
      ensures Valid() && Clean() && items == old(items) + [l] && EndsOf() == E.Pushed(old(EndsOf()))
    {
      if head == null {
        head, tail := l, l;
      } else {
        tail.next := l;
        tail := l;
      }
      items := items + [l];
    }

    method PushFront(l: Link)
      requires Valid() && l !in items
      modifies this, l
      ensures Valid() && Clean() && items == [l] + old(items) && EndsOf() == E.Pushed(old(EndsOf()))
    {
      if head == null {
        head, tail := l, l;
      } else {
        l.next := head;
        head := l;
      }
      items := [l] + items;
    }

    method PopFront() returns (l: Link)
      requires Valid() && items != []
      modifies this
      ensures Valid() && Clean() && l == old(items)[0] && items == old(items)[1..]
      ensures EndsOf() == E.Less(old(EndsOf()))
    {
      l := head;
      if head == tail {
        head, tail := null, null;
      } else {
        assert items[0].next == items[1];
        head := head.next;
      }
      items := items[1..];
    }

    method Swap(other: Chain)
      requires Valid() && other.Valid() && other != this
      modifies this, other
      ensures Valid() && other.Valid() && items == old(other.items) && other.items == old(items)
      ensures (Clean() <==> old(other.Clean())) && (other.Clean() <==> old(Clean()))
      ensures EndsOf() == old(other.EndsOf()) && other.EndsOf() == old(EndsOf())
    {
      head, other.head := other.head, head;
      tail, other.tail := other.tail, tail;
      items, other.items := other.items, items;
    }

    /** The other chain's items move to the end; it stays behind empty, its tail stale if both had items. */
    method PushBackChain(other: Chain)
      requires Valid() && other.Valid() && other != this && forall l :: l in items ==> l !in other.items
      modifies this, other, items
      ensures Valid() && other.Valid() && items == old(items) + old(other.items) && other.items == []
      ensures old(items) != [] && old(other.items) != [] ==> Clean() && !other.Clean() && other.tail == tail
      ensures old(items) == [] && old(other.items) != [] ==> Clean() && (other.Clean() <==> old(Clean()))
      ensures old(other.items) == [] ==> (Clean() <==> old(Clean())) && (other.Clean() <==> old(other.Clean()))
      ensures (EndsOf(), other.EndsOf()) == E.Spliced(old(EndsOf()), old(other.EndsOf()))
    {
      if head == null || other.head == null {
        if other.head != null {
          Swap(other);
        }
      } else {
        ghost var mine, theirs := items, other.items;
        assert forall i, j :: 0 <= i && j == i + 1 && j < |theirs| ==> theirs[i].next == theirs[j];
        tail.next := other.head;
        tail := other.tail;
        other.head := null;
        items, other.items := items + other.items, [];
        assert Distinct(items) by {
          assert forall k :: 0 <= k < |mine| ==> mine[k] in mine;
        }
        assert tail == items[|items| - 1] by {
          assert items[|items| - 1] == theirs[|theirs| - 1];
        }
        assert Linked(items) by {
          forall i, j | 0 <= i && j == i + 1 && j < |items| ensures items[i].next == items[j] {
            var n := |mine|;
            if i >= n {
              assert theirs[i - n] in theirs && theirs[i - n].next == theirs[j - n];
            }
          }
        }
      }
    }

    /** The other chain's items move to the front. */
    method PushFrontChain(other: Chain)
      requires Valid() && other.Valid() && other != this && forall l :: l in items ==> l !in other.items
      modifies this, other, other.items
      ensures Valid() && other.Valid() && items == old(other.items) + old(items) && other.items == []
      ensures old(items) != [] && old(other.items) != [] ==> Clean() && !other.Clean()
    {
      if head == null || other.head == null {
        if other.head != null {
          Swap(other);
        }
      } else {
        ghost var mine, theirs := items, other.items;
        assert forall i, j :: 0 <= i && j == i + 1 && j < |mine| ==> mine[i].next == mine[j];
        other.tail.next := head;
        head := other.head;
        other.head := null;
        items, other.items := other.items + items, [];
        assert Distinct(items) by {
          assert forall k :: 0 <= k < |theirs| ==> theirs[k] in theirs;
          assert forall k :: 0 <= k < |mine| ==> mine[k] in mine;
        }
        assert tail == items[|items| - 1] by {
          assert items[|items| - 1] == mine[|mine| - 1];
        }
        assert Linked(items) by {
          forall i, j | 0 <= i && j == i + 1 && j < |items| ensures items[i].next == items[j] {
            var n := |theirs|;
            if i >= n {
              assert mine[i - n] in mine && mine[i - n].next == mine[j - n];
            }
          }
        }
      }
    }

    /** Only a chain without head and tail, or with both, may be begun. */
    method Begin() returns (first: Link?)
      requires Valid() && Clean()
      modifies items
      ensures Valid() && Clean() && Terminated() && first == head
    {
      if tail != null {
        tail.next := null;
      }
      first := head;
    }

    /** From begin() to end(): every item once, in order. */
    method Iterate() returns (seen: seq<Link>)
      requires Valid() && Clean()
      modifies items
      ensures Valid() && Clean() && seen == items
    {
      seen := [];
      var i := Begin();
      while i != null
        invariant Valid() && Clean() && Terminated() && |seen| <= |items| && seen == items[..|seen|]
        invariant i == if |seen| < |items| then items[|seen|] else null
        decreases |items| - |seen|
      {
        assert |seen| + 1 < |items| ==> items[|seen|].next == items[|seen| + 1];
        seen := seen + [i];
        i := i.next;
      }
    }

    /** An iterator stands at position k of the chain and knows the link before it. */
    ghost predicate At(previous: Link?, current: Link?, k: nat)
      reads this
    {
      && k <= |items| && previous == (if k == 0 then null else items[k - 1])
      && current == (if k == |items| then null else items[k])
    }

    /** In front of the iterator. */
    method Insert(previous: Link?, current: Link?, l: Link, ghost k: nat)
      requires Valid() && Terminated() && At(previous, current, k) && l !in items
      modifies this, l, items
      ensures Valid() && Clean() && Terminated() && items == old(items)[..k] + [l] + old(items)[k..]
      ensures At(previous, l, k)
    {
      if previous == null {
        head := l;
      } else {
        previous.next := l;
      }
      if current == null {
        tail := l;
      }
      l.next := current;
      items := items[..k] + [l] + items[k..];
      assert Linked(items) by {
        forall i, j | 0 <= i && j == i + 1 && j < |items| ensures items[i].next == items[j] {
          if j < k {
            assert old(items)[i].next == old(items)[j];
          } else if i > k {
            assert items[i] == old(items)[i - 1] && items[j] == old(items)[j - 1];
          }
        }
      }
    }

    /** The iterator moves on to the item behind the erased one. */
    method Erase(previous: Link?, current: Link?, ghost k: nat) returns (next: Link?)
      requires Valid() && Terminated() && At(previous, current, k) && k < |items|
      modifies this, items
      ensures Valid() && Clean() && Terminated() && items == old(items)[..k] + old(items)[k + 1..]
      ensures At(previous, next, k) && EndsOf() == E.Less(old(EndsOf()))
    {
      assert k + 1 < |items| ==> items[k].next == items[k + 1];
      next := current.next;
      if previous == null {
        head := next;
      } else {
        previous.next := next;
      }
      if current == tail {
        tail := previous;
      }
      items := items[..k] + items[k + 1..];
      assert Linked(items) by {
        forall i, j | 0 <= i && j == i + 1 && j < |items| ensures items[i].next == items[j] {
          if j < k {
            assert old(items)[i].next == old(items)[j];
          } else if i >= k {
            assert items[i] == old(items)[i + 1] && items[j] == old(items)[j + 1];
          }
        }
      }
    }

    /** begin() as a release build has it, without the assertion. */
    method BeginUnchecked()
      requires Valid()
      modifies if tail == null then {} else {tail}
      ensures tail != null ==> tail.next == null
    {
      if tail != null {
        tail.next := null;
      }
    }
  }

  /** A chain may be begun exactly when its ends say so. */
  lemma CleanIffEnds(c: Chain)
    requires c.Valid()
    ensures c.Clean() <==> E.Clean(c.EndsOf())
    ensures E.Usable(c.EndsOf())
  {
  }

  /**
   Why the assertion matters: a chain spliced out of keeps pointing at an item of the chain it went to, and beginning
   it cuts that chain behind the item, as soon as anything was appended.
   */
  method StaleTailCuts(a: Chain, b: Chain, z: Link)
    requires a.Valid() && b.Valid() && a != b && a.items != [] && b.items != []
    requires (forall l :: l in a.items ==> l !in b.items) && z !in a.items && z !in b.items
    modifies a, b, a.items, b.items
    ensures a.items == old(a.items) + old(b.items) + [z] && !a.Valid()
  {
    ghost var n := |a.items| + |b.items| - 1;
    a.PushBackChain(b);
    assert b.tail == a.items[n];
    a.PushBack(z);
    assert a.items[n].next == a.items[n + 1];
    b.BeginUnchecked();
    assert a.items[n].next == null && a.items[n + 1] == z;
  }
}
