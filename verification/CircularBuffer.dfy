/**
 The byte buffer between a TCP client and its socket: a fixed array used as a ring, and a second array that caches
 its content in one piece.
 */
module CircularBuffer {
  import opened Sequences

  type Byte = x: int | 0 <= x < 256

  /** The content of the ring: size bytes from the reader on, around the end of the array. */
  function Pieces(s: seq<Byte>, r: nat, size: nat): seq<Byte>
    requires r <= |s| && size <= |s|
  {
    if r + size <= |s| then s[r..r + size] else s[r..] + s[..size - (|s| - r)]
  }

  /**
   The indices fit the size: an empty buffer starts over at 0, and the reader, not the writer, may stand at the end
   of the array.  A full buffer has equal indices, or the reader at the end and the writer at 0.
   */
  predicate Fit(capacity: nat, r: nat, w: nat, size: nat) {
    && size <= capacity && r <= capacity && (w < capacity || (w == 0 && capacity == 0))
    && if size == 0 then r == 0 && w == 0
       else if r < w then size == w - r
       else size == capacity - r + w || (size == capacity == r && w == 0)
  }

  /** The writer is where the content ends, going around the array. */
  lemma WriterFollows(capacity: nat, r: nat, w: nat, size: nat)
    requires Fit(capacity, r, w, size) && capacity > 0
    ensures w == (r + size) % capacity
    ensures size == capacity ==> if r < capacity then r == w else w == 0
  {
    AroundOnce(capacity, w);
  }

  lemma AroundOnce(capacity: nat, w: nat)
    requires w < capacity
    ensures w % capacity == (capacity + w) % capacity == (2 * capacity + w) % capacity == w
  {
    Remainder(0, w, capacity);
    Remainder(1, w, capacity);
    Remainder(2, w, capacity);
  }

  lemma Remainder(q: nat, w: nat, capacity: nat)
    requires w < capacity
    ensures (q * capacity + w) % capacity == w
  {
    var n := q * capacity + w;
    var d: int := n / capacity - q;
    assert n == (n / capacity) * capacity + n % capacity;
    assert d * capacity == w - n % capacity;
    assert d > 0 ==> d * capacity >= capacity;
    assert d < 0 ==> d * capacity + capacity <= 0;
  }

  lemma RemainderBelow(n: nat, capacity: nat)
    requires 0 < capacity && n <= capacity
    ensures n % capacity == if n == capacity then 0 else n
  {
  }

  lemma PieceAt(s: seq<Byte>, r: nat, size: nat, k: nat)
    requires r <= |s| && size <= |s| && k < size
    ensures |Pieces(s, r, size)| == size && Pieces(s, r, size)[k] == if r + k < |s| then s[r + k] else s[r + k - |s|]
  {
  }

  /** Bytes put where the content, having gone around the end, stops. */
  lemma PiecesGrow(s: seq<Byte>, r: nat, w: nat, size: nat, data: seq<Byte>)
    requires r <= |s| && size <= |s| && r + size == |s| + w && w + |data| <= r
    ensures Pieces(Overwritten(s, w, data), r, size + |data|) == Pieces(s, r, size) + data
  {
    var t, m := Overwritten(s, w, data), size + |data|;
    var was, now := Pieces(s, r, size), Pieces(t, r, m);
    assert |now| == m && |was| == size;
    hide Pieces, Overwritten;
    forall k | 0 <= k < m ensures now[k] == (was + data)[k] {
      PieceAt(t, r, m, k);
      OverwrittenAt(s, w, data, if r + k < |s| then r + k else r + k - |s|);
      if k < size {
        PieceAt(s, r, size, k);
      }
    }
  }

  /** Writing between the writer and a reader behind it. */
  lemma AppendBetween(s: seq<Byte>, r: nat, w: nat, size: nat, data: seq<Byte>)
    requires Fit(|s|, r, w, size) && r > w && 1 <= |data| <= |s| - size
    ensures w + |data| <= |s| && Fit(|s|, r, (w + |data|) % |s|, size + |data|)
    ensures Pieces(Overwritten(s, w, data), r, size + |data|) == Pieces(s, r, size) + data
  {
    hide Pieces, Overwritten;
    RemainderBelow(w + |data|, |s|);
    PiecesGrow(s, r, w, size, data);
  }

  /** Writing up to the end, when nothing is left for the start. */
  lemma AppendToEnd(s: seq<Byte>, r: nat, w: nat, size: nat, data: seq<Byte>)
    requires Fit(|s|, r, w, size) && r <= w && size < |s| && 1 <= |data| <= |s| - w
    ensures Fit(|s|, r, (w + |data|) % |s|, size + |data|)
    ensures Pieces(Overwritten(s, w, data), r, size + |data|) == Pieces(s, r, size) + data
  {
    RemainderBelow(w + |data|, |s|);
    var t := Overwritten(s, w, data);
    if w + |data| == |s| {
      assert t[r..] == s[r..w] + data;
    } else {
      assert t[r..w + |data|] == s[r..w] + data;
    }
  }

  /** The rest goes to the start: the ring stands as after a write to the end, with the writer at 0. */
  lemma AppendAtStart(s: seq<Byte>, r: nat, size: nat, data: seq<Byte>)
    requires Fit(|s|, r, 0, size) && size > 0 && 1 <= |data| <= |s| - size
    ensures Fit(|s|, r, |data| % |s|, size + |data|)
    ensures Pieces(Overwritten(s, 0, data), r, size + |data|) == Pieces(s, r, size) + data
  {
    AppendBetween(s, r, 0, size, data);
  }

  /** Dropping from the front, as seen by the reader index. */
  lemma DropFront(s: seq<Byte>, t: seq<Byte>, r: nat, w: nat, size: nat, n: nat, q: nat)
    requires |t| == |s| && Fit(|s|, r, w, size) && 0 < n < size
    requires q == if r < w then r + n else if n <= |s| - r then r + n else n - (|s| - r)
    requires forall k :: 0 <= k < |s| ==>
               t[k] == s[k] || if r < w then k < n else if n <= |s| - r then r <= k < r + n else r <= k || k < q
    ensures q <= |s| && Fit(|s|, q, w, size - n)
    ensures Pieces(t, q, size - n) == Pieces(s, r, size)[n..]
  {
    var was, now := Pieces(s, r, size), Pieces(t, q, size - n);
    PieceAt(s, r, size, n);
    PieceAt(t, q, size - n, 0);
    hide Pieces;
    forall k | 0 <= k < size - n ensures now[k] == was[n..][k] {
      PieceAt(t, q, size - n, k);
      PieceAt(s, r, size, n + k);
    }
  }

  class Buffer {
    const buffer: array<Byte>
    const readBuffer: array<Byte>
    var freeSpace: nat
    var contentSize: nat
    var writerIndex: nat
    var readerIndex: nat
    var emptyFlag: bool
    var newDataFlag: bool

    ghost predicate Placed()
      reads this
    {
      && buffer != readBuffer && readBuffer.Length == buffer.Length
      && contentSize + freeSpace == buffer.Length
      && Fit(buffer.Length, readerIndex, writerIndex, contentSize)
    }

    ghost predicate Valid()
      reads this, buffer, readBuffer
    {
      && Placed() && (emptyFlag <==> contentSize == 0)
      && (!newDataFlag ==> readBuffer[..contentSize] == Contents())
    }

    ghost function Contents(): seq<Byte>
      requires Placed()
      reads this, buffer
    {
      Pieces(buffer[..], readerIndex, contentSize)
    }

    constructor (capacity: nat)
      ensures Valid() && Contents() == [] && buffer.Length == capacity && fresh(buffer) && fresh(readBuffer)
    {
      buffer := new Byte[capacity](_ => 0);
      readBuffer := new Byte[capacity](_ => 0);
      freeSpace, contentSize, writerIndex, readerIndex := capacity, 0, 0, 0;
      emptyFlag, newDataFlag := true, false;
    }

    /** Appends all of the data, or refuses and changes nothing. */
    method WriteData(data: seq<Byte>) returns (ok: bool)
      requires Valid()
      modifies this, buffer
      ensures Valid() && ok == (1 <= |data| <= old(freeSpace))
      ensures Contents() == if ok then old(Contents()) + data else old(Contents())
    {
      var size := |data|;
      if freeSpace < size || size < 1 {
        return false;
      }
      if readerIndex > writerIndex {
        WriteBetween(data);
      } else {
        WriteAround(data);
      }
      emptyFlag, newDataFlag := false, true;
      return true;
    }

    /** One section, from the writer towards the reader. */
    method WriteBetween(data: seq<Byte>)
      requires Placed() && readerIndex > writerIndex && 1 <= |data| <= freeSpace
      modifies this`writerIndex, this`contentSize, this`freeSpace, buffer
      ensures Placed() && Contents() == old(Contents()) + data && contentSize == old(contentSize) + |data|
    {
      AppendBetween(buffer[..], readerIndex, writerIndex, contentSize, data);
      CopyTo(buffer, writerIndex, data);
      writerIndex := writerIndex + |data|;
      writerIndex := writerIndex % buffer.Length;
      contentSize := contentSize + |data|;
      freeSpace := freeSpace - |data|;
    }

    /** Up to the end of the array, and what is left from its start. */
    method WriteAround(data: seq<Byte>)
      requires Placed() && readerIndex <= writerIndex && 1 <= |data| <= freeSpace
      modifies this`writerIndex, this`contentSize, this`freeSpace, buffer
      ensures Placed() && Contents() == old(Contents()) + data && contentSize == old(contentSize) + |data|
    {
      hide Pieces, Overwritten;
      var size := |data|;
      var spaceAtEnd := buffer.Length - writerIndex;
      var toWriteAtEnd := if size < spaceAtEnd then size else spaceAtEnd;
      ghost var was := Contents();
      if toWriteAtEnd > 0 {
        AppendToEnd(buffer[..], readerIndex, writerIndex, contentSize, data[..toWriteAtEnd]);
        CopyTo(buffer, writerIndex, data[..toWriteAtEnd]);
        writerIndex := writerIndex + toWriteAtEnd;
        writerIndex := writerIndex % buffer.Length;
        contentSize := contentSize + toWriteAtEnd;
        freeSpace := freeSpace - toWriteAtEnd;
      }
      assert Contents() == was + data[..toWriteAtEnd];
      if toWriteAtEnd < size {
        RemainderBelow(spaceAtEnd + old(writerIndex), buffer.Length);
        var toWriteAtBegin := size - toWriteAtEnd;
        AppendAtStart(buffer[..], readerIndex, contentSize, data[toWriteAtEnd..]);
        CopyTo(buffer, 0, data[toWriteAtEnd..]);
        writerIndex := toWriteAtBegin;
        writerIndex := writerIndex % buffer.Length;
        contentSize := contentSize + toWriteAtBegin;
        freeSpace := freeSpace - toWriteAtBegin;
        assert was + data[..toWriteAtEnd] + data[toWriteAtEnd..] == was + data;
      }
    }

    /** The content in one piece, copied out again only if it changed since. */
    method ReadData() returns (view: seq<Byte>)
      requires Valid()
      modifies this`newDataFlag, readBuffer
      ensures Valid() && Contents() == old(Contents()) && view == Contents() && !newDataFlag
    {
      if newDataFlag {
        CopyData();
        newDataFlag := false;
      }
      view := readBuffer[..contentSize];
    }

    method CopyData()
      requires Placed() && (emptyFlag <==> contentSize == 0)
      modifies readBuffer
      ensures readBuffer[..contentSize] == Contents()
    {
      if emptyFlag {
        return;
      }
      var size := contentSize;
      if readerIndex < writerIndex {
        CopyTo(readBuffer, 0, buffer[readerIndex..readerIndex + size]);
      } else {
        var spaceAtEnd := buffer.Length - readerIndex;
        var toReadAtEnd := if size < spaceAtEnd then size else spaceAtEnd;
        CopyTo(readBuffer, 0, buffer[readerIndex..readerIndex + toReadAtEnd]);
        if toReadAtEnd != size {
          var toReadAtBegin := size - toReadAtEnd;
          CopyTo(readBuffer, toReadAtEnd, buffer[..toReadAtBegin]);
        }
      }
    }

    /** Drops the oldest bytes. */
    method ShiftBuffer(size: nat)
      requires Valid() && size <= contentSize
      modifies this, buffer, readBuffer
      ensures Valid() && Contents() == old(Contents())[size..]
    {
      if size == 0 || emptyFlag {
        return;
      }
      if size == contentSize {
        Clear();
        return;
      }
      Advance(size);
      assert freeSpace < buffer.Length;  // the coinciding indices of a full buffer never clear it
      newDataFlag := true;
      Zero(readBuffer, 0, readBuffer.Length);
    }

    /** The reader moves on, over what it leaves zeroed in one or two sections. */
    method Advance(size: nat)
      requires Placed() && 0 < size < contentSize
      modifies this`readerIndex, this`contentSize, this`freeSpace, buffer
      ensures Placed() && Contents() == old(Contents())[size..] && contentSize == old(contentSize) - size
    {
      hide Pieces;
      ghost var was, r := buffer[..], readerIndex;
      if readerIndex < writerIndex {
        // Zeroes from the start of the array, not from the reader: never more than lies before the new reader.
        Zero(buffer, 0, size);
        readerIndex := readerIndex + size;
      } else {
        var spaceAtEnd := buffer.Length - readerIndex;
        var toReadAtEnd := if size < spaceAtEnd then size else spaceAtEnd;
        Zero(buffer, readerIndex, toReadAtEnd);
        readerIndex := readerIndex + toReadAtEnd;
        if toReadAtEnd != size {
          var toReadAtBegin := size - toReadAtEnd;
          Zero(buffer, 0, toReadAtBegin);
          readerIndex := toReadAtBegin;
        }
      }
      DropFront(was, buffer[..], r, writerIndex, contentSize, size, readerIndex);
      contentSize, freeSpace := contentSize - size, freeSpace + size;
    }

    method Clear()
      requires Placed()
      modifies this, buffer, readBuffer
      ensures Valid() && Contents() == []
    {
      freeSpace, contentSize, readerIndex, writerIndex := buffer.Length, 0, 0, 0;
      emptyFlag, newDataFlag := true, true;
      Zero(readBuffer, 0, readBuffer.Length);
      Zero(buffer, 0, buffer.Length);
    }
  }

  /** memcpy to offset at. */
  method CopyTo(a: array<Byte>, at: nat, data: seq<Byte>)
    requires at + |data| <= a.Length
    modifies a
    ensures a[..] == Overwritten(old(a[..]), at, data)
  {
    ghost var was := a[..];
    assert Overwritten(was, at, data[..0]) == was;
    for i := 0 to |data|
      invariant a[..] == Overwritten(was, at, data[..i])
    {
      ghost var before := a[..];
      a[at + i] := data[i];
      assert a[..] == before[at + i := data[i]];
      OverwrittenNext(was, at, data, i);
      hide Overwritten;
    }
    assert data[..|data|] == data;
  }

  /** memset to zero. */
  method Zero(a: array<Byte>, at: nat, n: nat)
    requires at + n <= a.Length
    modifies a
    ensures forall k :: 0 <= k < a.Length ==> a[k] == if at <= k < at + n then 0 else old(a[k])
  {
    for i := 0 to n
      invariant forall k :: 0 <= k < a.Length ==> a[k] == if at <= k < at + i then 0 else old(a[k])
    {
      a[at + i] := 0;
    }
  }
}
