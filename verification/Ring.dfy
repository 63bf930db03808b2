/** The ring buffer of src/ringbuffer.c: cursors, the two-slice views handed to
    readv/writev, and the three operations that move the cursors.

    The element type is a parameter, because the driver uses the same code for
    bytes (responses of the modem) and for 16-bit samples (the mix buffer). */
module RingBuffers {
  import opened Basics

  /** Position `p` on a ring of `size` elements, for a position at most one turn ahead. */
  function Wrap(p: nat, size: nat): (q: nat)
    ensures p < 2 * size ==> q < size
  {
    if p < size then p else p - size
  }

  /** One entry of a `struct iovec` array: `len` elements from index `base`. */
  datatype Slice = Slice(base: nat, len: nat) {
    ghost predicate Covers(p: nat) {
      base <= p < base + len
    }
  }

  /** The iovec array and the number of its entries in use. */
  datatype Iov = Iov0 | Iov1(a: Slice) | Iov2(a: Slice, b: Slice) {
    ghost predicate InBounds(size: nat) {
      && (!Iov0? ==> a.base + a.len <= size)
      && (Iov2? ==> b.base + b.len <= size)
    }

    ghost predicate Covers(p: nat) {
      (!Iov0? && a.Covers(p)) || (Iov2? && b.Covers(p))
    }

    function Len(): nat {
      match this
      case Iov0 => 0
      case Iov1(a) => a.len
      case Iov2(a, b) => a.len + b.len
    }

    /** What a scatter/gather call sees: the entries one after the other. */
    function Gather<T>(s: seq<T>): (r: seq<T>)
      requires InBounds(|s|)
      ensures |r| == Len()
    {
      match this
      case Iov0 => []
      case Iov1(a) => s[a.base..a.base + a.len]
      case Iov2(a, b) => s[a.base..a.base + a.len] + s[b.base..b.base + b.len]
    }
  }

  /** `len` elements from `start`: one entry, or two around the end of the buffer. */
  function Span(start: nat, len: nat, size: nat): (r: Iov)
    requires len <= size && start <= size
    ensures r.InBounds(size) && r.Len() == len
  {
    if start + len > size then Iov2(Slice(start, size - start), Slice(0, len - (size - start)))
    else Iov1(Slice(start, len))
  }

  /** The whole buffer, listed from position `start` once around. */
  ghost function Rotate<T>(s: seq<T>, start: nat): (r: seq<T>)
    requires start <= |s|
    ensures |r| == |s|
    ensures forall j :: 0 <= j < |s| ==> r[j] == s[Wrap(start + j, |s|)]
  {
    s[start..] + s[..start]
  }

  lemma SpanGathers<T>(s: seq<T>, start: nat, len: nat)
    requires start <= |s| && len <= |s|
    ensures Span(start, len, |s|).Gather(s) == Rotate(s, start)[..len]
  {
    assert Rotate(s, start) == s[start..] + s[..start];
    if start + len > |s| {
      assert s[0..len - (|s| - start)] == s[..start][..len - (|s| - start)];
    }
  }

  /** The occupied span and the free span share no position and miss none. */
  lemma SpansSplit(read: nat, used: nat, write: nat, size: nat, p: nat)
    requires read <= size && write <= size && used <= size && p < size
    requires write == read + used || write + size == read + used
    ensures Span(read, used, size).Covers(p) <==> !Span(write, size - used, size).Covers(p)
  {
  }

  /** Turning a rotated view further is the same as rotating from a later start. */
  lemma RotateTail<T>(s: seq<T>, start: nat, n: nat, later: nat)
    requires start <= |s| && n <= |s| && later <= |s|
    requires later == start + n || later + |s| == start + n
    ensures Rotate(s, start)[n..] == Rotate(s, later)[..|s| - n]
  {
    var a, b := Rotate(s, start)[n..], Rotate(s, later)[..|s| - n];
    forall j | 0 <= j < |a| ensures a[j] == b[j] {
      assert a[j] == Rotate(s, start)[n + j];
    }
  }

  /** Element-wise `method` of rb_write_core: new contents of a span, from the
      old contents and the data written over it. */
  function Blend<T>(f: (T, T) -> T, under: seq<T>, data: seq<T>): (r: seq<T>)
    requires |under| == |data|
    ensures |r| == |data|
    ensures forall i :: 0 <= i < |r| ==> r[i] == f(under[i], data[i])
  {
    seq(|data|, i requires 0 <= i < |data| && |under| == |data| => f(under[i], data[i]))
  }

  /** `span` of `before` replaced by its blend with `data`. */
  ghost function Overlay<T>(f: (T, T) -> T, before: seq<T>, at: nat, data: seq<T>): (r: seq<T>)
    requires at + |data| <= |before|
    ensures |r| == |before|
    ensures forall j :: 0 <= j < |before| ==>
      r[j] == if at <= j < at + |data| then f(before[j], data[j - at]) else before[j]
  {
    before[..at] + Blend(f, before[at..at + |data|], data) + before[at + |data|..]
  }

  /** `data` written into a buffer from position `start` on, around its end. */
  ghost function Written<T>(f: (T, T) -> T, was: seq<T>, start: nat, data: seq<T>): (r: seq<T>)
    requires start <= |was| && |data| <= |was|
    ensures |r| == |was|
    ensures forall p :: 0 <= p < |was| ==>
      r[p] == if start <= p < start + |data| then f(was[p], data[p - start])
              else if start <= p + |was| < start + |data| then f(was[p], data[p + |was| - start])
              else was[p]
  {
    seq(|was|, p requires 0 <= p < |was| =>
      if start <= p < start + |data| then f(was[p], data[p - start])
      else if start <= p + |was| < start + |data| then f(was[p], data[p + |was| - start])
      else was[p])
  }

  /** Writing `data` over the span at the write cursor is writing it over the
      free end of the rotated view. */
  lemma OverlaySpan<T>(f: (T, T) -> T, was: seq<T>, read: nat, used: nat, write: nat, data: seq<T>)
    requires read <= |was| && write <= |was| && used + |data| <= |was|
    requires write == read + used || write + |was| == read + used
    ensures Rotate(Written(f, was, write, data), read) == Overlay(f, Rotate(was, read), used, data)
  {
    hide Written, Rotate, Overlay;
    var n, o := Rotate(Written(f, was, write, data), read), Overlay(f, Rotate(was, read), used, data);
    forall j | 0 <= j < |was| ensures n[j] == o[j] {
      var p := Wrap(read + j, |was|);
      assert n[j] == Written(f, was, write, data)[p] && Rotate(was, read)[j] == was[p];
    }
  }

  lemma CutAt<T>(s: seq<T>, u: nat, n: nat)
    requires u + n <= |s|
    ensures s[..u + n] == s[..u] + s[u..][..n]
  {
  }

  lemma NothingWritten<T>(f: (T, T) -> T, was: seq<T>, start: nat)
    requires start <= |was|
    ensures Written(f, was, start, []) == was
  {
  }

  class Ring<T(0)> {
    const buf: array<T>
    var used: nat
    var read: nat
    var write: nat

    /** The write cursor is read + used, modulo the size; it may rest at 0 or at
        the size when the occupied part ends exactly at the end of the buffer. */
    ghost predicate Valid()
      reads this
    {
      && used <= buf.Length
      && (read < buf.Length || read == 0)
      && write <= buf.Length
      && (write == read + used || write + buf.Length == read + used)
    }

    ghost function Rotated(): (r: seq<T>)
      requires Valid()
      reads this, buf
      ensures |r| == buf.Length
    {
      Rotate(buf[..], read)
    }

    /** The queue this ring implements. */
    ghost function Contents(): (r: seq<T>)
      requires Valid()
      reads this, buf
      ensures |r| == used
    {
      Rotated()[..used]
    }

    ghost function FreeSpace(): (r: seq<T>)
      requires Valid()
      reads this, buf
      ensures |r| == buf.Length - used
    {
      Rotated()[used..]
    }

    constructor (buffer: array<T>)
      ensures Valid() && buf == buffer && used == read == write == 0
    {
      buf := buffer;
      used, read, write := 0, 0, 0;
    }

    /** rb_read_all_iov */
    function ReadAllIov(): (r: Iov)
      requires Valid()
      reads this
      ensures r.InBounds(buf.Length)
    {
      if used > 0 then Span(read, used, buf.Length) else Iov0
    }

    /** rb_read_n_iov: nothing when fewer than `len` elements are there. */
    function ReadNIov(len: nat): (r: Iov)
      requires Valid()
      reads this
      ensures r.InBounds(buf.Length)
    {
      if used < len || len == 0 then Iov0 else Span(read, len, buf.Length)
    }

    /** rb_write_iov */
    function WriteIov(): (r: Iov)
      requires Valid()
      reads this
      ensures r.InBounds(buf.Length)
    {
      var free := buf.Length - used;
      if free > 0 then Span(write, free, buf.Length) else Iov0
    }

    /** Any number of elements from the read offset, gathered. */
    lemma SpanReads(len: nat)
      requires Valid() && len <= used
      ensures Span(read, len, buf.Length).Gather(buf[..]) == Contents()[..len]
    {
      SpanGathers(buf[..], read, len);
      assert Rotated()[..len] == Contents()[..len];
    }

    /** The read entries are a prefix of the queue, at every offset. */
    lemma ReadSlices(len: nat)
      requires Valid()
      ensures ReadNIov(len).Gather(buf[..]) == (if len <= used then Contents()[..len] else [])
      ensures ReadAllIov().Gather(buf[..]) == Contents()
    {
      SpanReads(used);
      if len <= used {
        SpanReads(len);
      }
    }

    /** The entries offered to readv are the free elements, in writing order, and
        they are exactly the positions the read entries leave out. */
    lemma WriteSlices()
      requires Valid()
      ensures WriteIov().Gather(buf[..]) == FreeSpace()
      ensures forall p: nat :: p < buf.Length ==> (WriteIov().Covers(p) <==> !ReadAllIov().Covers(p))
    {
      var free := buf.Length - used;
      if free > 0 {
        SpanGathers(buf[..], write, free);
        RotateTail(buf[..], read, used, write);
      }
      forall p: nat | p < buf.Length
        ensures WriteIov().Covers(p) <==> !ReadAllIov().Covers(p)
      {
        SpansSplit(read, used, write, buf.Length, p);
      }
    }

    /** rb_read_upd: drops at most `len` elements; an emptied ring starts over at 0. */
    method ReadUpd(len: nat) returns (n: nat)
      requires Valid()
      modifies this
      ensures Valid()
      ensures n == Min(len, old(used))
      ensures used == old(used) - n
      ensures Contents() == old(Contents())[n..]
      ensures read == (if n == 0 then old(read) else if used == 0 then 0 else Wrap(old(read) + n, buf.Length))
      ensures used > 0 || n == 0 ==> write == old(write)
      ensures used == 0 && n > 0 ==> write == 0
    {
      n := if used < len then used else len;
      if n > 0 {
        used := used - n;
        if used == 0 {
          read := 0;
          write := 0;
        } else {
          var s := read + n;
          if s >= buf.Length {
            read := s - buf.Length;
          } else {
            read := s;
          }
          RotateTail(buf[..], old(read), n, read);
          assert old(Contents())[n..] == old(Rotated())[n..][..used];
        }
      }
    }

    /** rb_write_upd: publishes elements that readv put into the free slices. The
        cursor rests at the size, not at 0, when it reaches the end exactly. */
    method WriteUpd(len: nat) returns (n: nat)
      requires Valid()
      modifies this
      ensures Valid()
      ensures n == Min(len, buf.Length - old(used))
      ensures used == old(used) + n && read == old(read)
      ensures write == if n > 0 && old(write) + n > buf.Length then old(write) + n - buf.Length else old(write) + n
      ensures Contents() == old(Contents()) + old(FreeSpace())[..n]
    {
      hide Rotate;
      var free := buf.Length - used;
      n := if free < len then free else len;
      if n > 0 {
        var s := write + n;
        if s > buf.Length {
          write := s - buf.Length;
        } else {
          write := s;
        }
        used := used + n;
      }
      assert Rotated() == old(Rotated());
      CutAt(old(Rotated()), old(used), n);
    }

    /** The `method` argument of rb_write_core applied to one contiguous span. */
    method Apply(off: nat, data: seq<T>, f: (T, T) -> T)
      requires off + |data| <= buf.Length
      modifies buf
      ensures forall p :: 0 <= p < buf.Length ==>
        buf[p] == if off <= p < off + |data| then f(old(buf[p]), data[p - off]) else old(buf[p])
    {
      for i := 0 to |data|
        invariant forall p :: 0 <= p < buf.Length ==>
          buf[p] == if off <= p < off + i then f(old(buf[p]), data[p - off]) else old(buf[p])
      {
        buf[off + i] := f(buf[off + i], data[i]);
      }
    }

    /** rb_write_core: takes as much of `data` as is free, combining it with what
        is there from the write cursor on; the cursor never rests at the size. On a
        ring whose cursors belong together the data ends up behind the queue. */
    method WriteCore(data: seq<T>, f: (T, T) -> T) returns (n: nat)
      requires used <= buf.Length && write <= buf.Length
      modifies this, buf
      ensures n == Min(|data|, buf.Length - old(used))
      ensures used == old(used) + n && read == old(read)
      ensures write == if n == 0 then old(write) else Wrap(old(write) + n, buf.Length)
      ensures buf[..] == Written(f, old(buf[..]), old(write), data[..n])
      ensures old(Valid()) ==> Valid() && Rotated() == Overlay(f, old(Rotated()), old(used), data[..n])
    {
      hide Rotate, Overlay, Written;
      var free := buf.Length - used;
      n := if free < |data| then free else |data|;
      if n > 0 {
        var s := write + n;
        ApplySpan(data[..n], f);
        if s > buf.Length {
          write := s - buf.Length;
        } else if s == buf.Length {
          write := 0;
        } else {
          write := s;
        }
        used := used + n;
      } else {
        assert buf[..] == Written(f, buf[..], write, []) by { NothingWritten(f, buf[..], write); }
        assert data[..n] == [];
      }
      if old(Valid()) { OverlaySpan(f, old(buf[..]), read, old(used), old(write), data[..n]); }
    }

    /** The element updates of rb_write_core, in one or two contiguous spans. */
    method ApplySpan(d: seq<T>, f: (T, T) -> T)
      requires write <= buf.Length && |d| <= buf.Length
      modifies buf
      ensures buf[..] == Written(f, old(buf[..]), write, d)
    {
      if write + |d| > buf.Length {
        var k := buf.Length - write;
        Apply(write, d[..k], f);
        Apply(0, d[k..], f);
      } else {
        Apply(write, d, f);
      }
    }

    /** What readv leaves in the free slices before rb_write_upd publishes it. */
    method Fill(d: seq<T>)
      requires Valid() && |d| <= buf.Length - used
      modifies buf
      ensures Contents() == old(Contents()) && FreeSpace()[..|d|] == d
    {
      hide Rotate, Written;
      ApplySpan(d, (o, x) => x);
      OverlaySpan((o, x) => x, old(buf[..]), read, used, write, d);
      ghost var r := Overlay((o, x) => x, old(Rotated()), used, d);
      assert r[..used] == old(Rotated())[..used] && r[used..][..|d|] == d;
    }

    /** rb_write: rb_write_core with memmove, so the queue grows by the accepted data. */
    method Write(data: seq<T>) returns (n: nat)
      requires Valid()
      modifies this, buf
      ensures Valid()
      ensures n == Min(|data|, buf.Length - old(used))
      ensures used == old(used) + n && read == old(read)
      ensures n > 0 || old(write) < buf.Length ==> write == Wrap(old(read) + used, buf.Length)
      ensures Contents() == old(Contents()) + data[..n]
    {
      hide Rotate, Written;
      n := WriteCore(data, (o, d) => d);
      ghost var u := old(used);
      forall j | 0 <= j < u + n
        ensures Contents()[j] == (old(Contents()) + data[..n])[j]
      {
        assert Contents()[j] == Rotated()[j];
      }
    }
  }
}
