/** The intrusive double chain of actors, references, callbacks and timers: both links of every item are maintained. */
module DoubleChain {

  class Link {
    var previous: Link?
    var next: Link?

    constructor ()
    {
    }
  }

  ghost predicate Distinct(s: seq<Link>) {
    forall i, j :: 0 <= i < j < |s| ==> s[i] != s[j]
  }

  /** Neighbours link to each other. */
  ghost predicate Linked(s: seq<Link>)
    reads s
  {
    forall i, j :: 0 <= i && j == i + 1 && j < |s| ==> s[i].next == s[j] && s[j].previous == s[i]
  }

  class Chain {
    var head: Link?
    var tail: Link?
    ghost var items: seq<Link>

    ghost predicate Valid()
      reads this, items
    {
      && Distinct(items) && Linked(items)
      && (head == null <==> items == []) && (tail == null <==> items == [])
      && (items != [] ==>
            && head == items[0] && tail == items[|items| - 1]
            && items[0].previous == null && items[|items| - 1].next == null)
    }

    constructor ()
      ensures Valid() && items == []
    {
      head, tail, items := null, null, [];
    }

    method PushBack(l: Link)
      requires Valid() && l !in items
      modifies this, l, items
      ensures Valid() && items == old(items) + [l]
    {
      if head == null {
        head, tail := l, l;
        l.previous, l.next := null, null;
      } else {
        tail.next := l;
        l.previous, l.next := tail, null;
        tail := l;
      }
      items := items + [l];
    }

    method PushFront(l: Link)
      requires Valid() && l !in items
      modifies this, l, items
      ensures Valid() && items == [l] + old(items)
    {
      if head == null {
        head, tail := l, l;
        l.previous, l.next := null, null;
      } else {
        head.previous := l;
        l.previous, l.next := null, head;
        head := l;
      }
      items := [l] + items;
    }

    /** An iterator stands at position k of the chain, or behind all items. */
    ghost predicate At(current: Link?, k: nat)
      reads this
    {
      k <= |items| && current == if k == |items| then null else items[k]
    }

    /** In front of the iterator. */
    method Insert(current: Link?, l: Link, ghost k: nat)
      requires Valid() && At(current, k) && l !in items
      modifies this, l, items
      ensures Valid() && items == old(items)[..k] + [l] + old(items)[k..]
    {
      if current == null {
        PushBack(l);
        assert old(items)[..k] == old(items) && old(items)[k..] == [];
      } else {
        assert k > 0 ==> items[k].previous == items[k - 1] && items[k - 1] in items;
        var before := current.previous;
        if before == null {
          head := l;
        } else {
          before.next := l;
        }
        current.previous := l;
        l.previous, l.next := before, current;
        items := items[..k] + [l] + items[k..];
        assert Linked(items) by {
          forall i, j | 0 <= i && j == i + 1 && j < |items|
              ensures items[i].next == items[j] && items[j].previous == items[i] {
            if j < k {
              assert items[i] == old(items)[i] && items[j] == old(items)[j];
            } else if i > k {
              assert items[i] == old(items)[i - 1] && items[j] == old(items)[j - 1];
            }
          }
        }
      }
    }

    /** remove and erase: an item is taken out without knowing where in the chain it is. */
    method Remove(l: Link, ghost k: nat) returns (next: Link?)
      requires Valid() && k < |items| && items[k] == l
      modifies this, items
      ensures Valid() && items == old(items)[..k] + old(items)[k + 1..] && At(next, k)
    {
      assert k > 0 ==> items[k].previous == items[k - 1] && items[k - 1] in items;
      assert k + 1 < |items| ==> items[k].next == items[k + 1] && items[k + 1] in items;
      var before := l.previous;
      next := l.next;
      if before == null {
        assert l == head;
        head := next;
      } else {
        before.next := next;
      }
      if next == null {
        assert l == tail;
        tail := before;
      } else {
        next.previous := before;
      }
      items := items[..k] + items[k + 1..];
      assert Linked(items) by {
        forall i, j | 0 <= i && j == i + 1 && j < |items|
            ensures items[i].next == items[j] && items[j].previous == items[i] {
          if j < k {
            assert items[i] == old(items)[i] && items[j] == old(items)[j];
          } else if i >= k {
            assert items[i] == old(items)[i + 1] && items[j] == old(items)[j + 1];
          }
        }
      }
    }

    method PopFront() returns (l: Link)
      requires Valid() && items != []
      modifies this, items
      ensures Valid() && l == old(items)[0] && items == old(items)[1..]
    {
      assert |items| > 1 ==> items[0].next == items[1] && items[1] in items;
      l := head;
      head := head.next;
      if head == null {
        tail := null;
      } else {
        head.previous := null;
      }
      items := items[1..];
    }

    method PopBack() returns (l: Link)
      requires Valid() && items != []
      modifies this, items
      ensures Valid() && l == old(items)[|old(items)| - 1] && items == old(items)[..|old(items)| - 1]
    {
      assert |items| > 1 ==> items[|items| - 1].previous == items[|items| - 2] && items[|items| - 2] in items;
      l := tail;
      tail := tail.previous;
      if tail == null {
        head := null;
      } else {
        tail.next := null;
      }
      items := items[..|items| - 1];
    }

    method Swap(other: Chain)
      requires Valid() && other.Valid() && other != this
      modifies this, other
      ensures Valid() && other.Valid() && items == old(other.items) && other.items == old(items)
    {
      head, other.head := other.head, head;
      tail, other.tail := other.tail, tail;
      items, other.items := other.items, items;
    }

    /** The other chain's items move to the end and leave it properly empty. */
    method PushBackChain(other: Chain)
      requires Valid() && other.Valid() && other != this && forall l :: l in items ==> l !in other.items
      modifies this, other, items, other.items
      ensures Valid() && other.Valid() && items == old(items) + old(other.items) && other.items == []
    {
      if tail != null && other.head != null {
        ghost var mine, theirs := items, other.items;
        assert forall k :: 0 <= k < |theirs| ==> theirs[k] in theirs;
        assert forall k :: 0 <= k < |mine| ==> mine[k] in mine;
        other.head.previous := tail;
        tail.next := other.head;
        tail := other.tail;
        other.head, other.tail := null, null;
        items, other.items := mine + theirs, [];
        assert items[|items| - 1] == theirs[|theirs| - 1];
        assert Linked(items) by {
          forall i, j | 0 <= i && j == i + 1 && j < |items|
              ensures items[i].next == items[j] && items[j].previous == items[i] {
            var n := |mine|;
            if j < n {
              assert old(mine[i].next == mine[j] && mine[j].previous == mine[i]);
            } else if i >= n {
              assert old(theirs[i - n].next == theirs[j - n] && theirs[j - n].previous == theirs[i - n]);
            }
          }
        }
      } else if tail == null {
        Swap(other);
      }
    }
  }
}
