/** Comparing and searching the bytes of a ring (src/ringbuffer.c), where the
    contents may lie in two pieces around the end of the buffer.

    A byte is modelled as the value of an unsigned char. `char` is taken to be
    signed, so values from 128 up compare below a space. */
module RingSearch {
  import opened Basics
  import opened RingBuffers

  predicate Printable(b: byte) {
    32 <= b < 128
  }

  /** A ring as its readers see it: its size, its read offset and its queue. */
  datatype View = View(size: nat, read: nat, data: seq<byte>) {
    ghost predicate Valid() {
      |data| <= size && (read < size || read == 0)
    }

    /** The queue up to the end of the buffer. */
    function Head(): seq<byte>
      requires read <= size
    {
      data[..Min(|data|, size - read)]
    }

    /** The rest of the queue, from the start of the buffer. */
    function Tail(): seq<byte>
      requires read <= size
    {
      data[Min(|data|, size - read)..]
    }

    /** The view after rb_read_upd of 0 < n <= |data| bytes. */
    function Drop(n: nat): (v: View)
      requires 0 < n <= |data|
      ensures read <= size && |data| <= size ==> v.read <= size
    {
      View(size, if n == |data| then 0 else Wrap(read + n, size), data[n..])
    }
  }

  ghost function ViewOf(rb: Ring<byte>): (v: View)
    requires rb.Valid()
    reads rb, rb.buf
    ensures v.Valid()
  {
    View(rb.buf.Length, rb.read, rb.Contents())
  }

  /** The bytes from the read pointer to the end of the occupied part or of the
      buffer, and those that continue at the start of the buffer. */
  method Pieces(rb: Ring<byte>) returns (a: seq<byte>, b: seq<byte>)
    requires rb.Valid()
    ensures a == ViewOf(rb).Head() && b == ViewOf(rb).Tail() && a + b == rb.Contents()
    ensures |a| == Min(rb.used, rb.buf.Length - rb.read)
    ensures b == [] <==> rb.read + rb.used <= rb.buf.Length
  {
    ghost var s := rb.buf[..];
    assert rb.Rotated() == s[rb.read..] + s[..rb.read];
    if rb.read + rb.used > rb.buf.Length {
      a, b := rb.buf[rb.read..], rb.buf[..rb.read + rb.used - rb.buf.Length];
    } else {
      a, b := rb.buf[rb.read..rb.read + rb.used], [];
    }
  }

  // ---------------------------------------------------------------- rb_memcmp

  /** -1: nothing to compare or too few bytes, 0: `mem` is a prefix, 1: it is not. */
  function Compare(data: seq<byte>, mem: seq<byte>): int {
    if mem == [] || |data| < |mem| then -1 else if mem <= data then 0 else 1
  }

  /** rb_memcmp: the comparison of the pieces is the comparison of the queue. */
  method MemCmp(rb: Ring<byte>, mem: seq<byte>) returns (r: int)
    requires rb.Valid()
    ensures r == Compare(rb.Contents(), mem)
  {
    if rb.used > 0 && |mem| > 0 && rb.used >= |mem| {
      var a, b := Pieces(rb);
      SplitPrefix(a, b, mem);
      if rb.read + |mem| > rb.buf.Length {
        if a == mem[..|a|] {
          if b[..|mem| - |a|] == mem[|a|..] {
            return 0;
          }
        }
      } else if a[..|mem|] == mem {
        return 0;
      }
      return 1;
    }
    return -1;
  }

  lemma SplitPrefix(a: seq<byte>, b: seq<byte>, mem: seq<byte>)
    requires |mem| <= |a| + |b|
    ensures |mem| <= |a| ==> (mem <= a + b <==> a[..|mem|] == mem)
    ensures |mem| > |a| ==> (mem <= a + b <==> a == mem[..|a|] && b[..|mem| - |a|] == mem[|a|..])
  {
    var c := (a + b)[..|mem|];
    if |mem| <= |a| {
      assert c == a[..|mem|];
    } else {
      assert c == a + b[..|mem| - |a|];
      assert c[..|a|] == a && c[|a|..] == b[..|mem| - |a|];
      assert mem == mem[..|a|] + mem[|a|..];
    }
  }

  // ------------------------------------------------------------ memmem, memchr

  predicate OccursAt(s: seq<byte>, p: seq<byte>, i: nat) {
    i + |p| <= |s| && s[i..i + |p|] == p
  }

  /** The first occurrence of `p` at or after `from`. */
  function Find(s: seq<byte>, p: seq<byte>, from: nat): (r: Option<nat>)
    requires from <= |s|
    ensures r.Some? ==> from <= r.value && OccursAt(s, p, r.value)
    ensures r.Some? ==> forall j: nat :: from <= j < r.value ==> !OccursAt(s, p, j)
    ensures r.None? ==> forall j: nat :: from <= j ==> !OccursAt(s, p, j)
    decreases |s| - from
  {
    if OccursAt(s, p, from) then Some(from)
    else if from < |s| then Find(s, p, from + 1)
    else None
  }

  /** `Find` is the only answer with its properties. */
  lemma FindIs(s: seq<byte>, p: seq<byte>, from: nat, k: nat)
    requires from <= k && OccursAt(s, p, k)
    requires forall j: nat :: from <= j < k ==> !OccursAt(s, p, j)
    ensures from <= |s| && Find(s, p, from) == Some(k)
  {
  }

  /** src/memmem.c */
  method MemMem(s: seq<byte>, p: seq<byte>) returns (r: Option<nat>)
    ensures r == if p == [] then None else Find(s, p, 0)
  {
    if |s| == 0 || |p| == 0 || |s| < |p| {
      return None;
    }
    for cur := 0 to |s| - |p| + 1
      invariant forall j: nat :: j < cur ==> !OccursAt(s, p, j)
    {
      if s[cur..cur + |p|] == p {
        FindIs(s, p, 0, cur);
        return Some(cur);
      }
    }
    return None;
  }

  /** np_memchr: the first `c`, provided only control characters come before it. */
  function FindControl(s: seq<byte>, c: byte, from: nat): (r: Option<nat>)
    requires from <= |s|
    ensures r.Some? ==> from <= r.value < |s| && s[r.value] == c
    decreases |s| - from
  {
    if from == |s| || Printable(s[from]) then None
    else if s[from] == c then Some(from)
    else FindControl(s, c, from + 1)
  }

  method NpMemChr(s: seq<byte>, c: byte) returns (r: Option<nat>)
    ensures r == FindControl(s, c, 0)
  {
    for n := 0 to |s|
      invariant FindControl(s, c, n) == FindControl(s, c, 0)
    {
      if Printable(s[n]) {
        return None;
      }
      if s[n] == c {
        return Some(n);
      }
    }
    return None;
  }

  // ------------------------------------------------- rb_read_until_char_iov

  /** The entries for the bytes before an offset that was found; none otherwise. */
  ghost function IovOf(rb: Ring<byte>, at: Option<nat>): Iov
    requires rb.Valid()
    requires at.Some? ==> at.value <= rb.used
    reads rb
  {
    if at.Some? then Span(rb.read, at.value, rb.buf.Length) else Iov0
  }

  /** Offset of the byte found in the queue `a + b` that lies in pieces `a` and
      `b`. A printable byte stops the search of its own piece only. */
  function UntilChar(a: seq<byte>, b: seq<byte>, c: byte): (r: Option<nat>)
    ensures r.Some? ==> r.value < |a| + |b|
  {
    var p := FindControl(a, c, 0);
    if p.Some? then p
    else
      var q := FindControl(b, c, 0);
      if q.Some? then Some(|a| + q.value) else None
  }

  /** A printable byte comes in `s` before any `c` does. */
  predicate Stopped(s: seq<byte>, c: byte, from: nat)
    requires from <= |s|
    decreases |s| - from
  {
    from < |s| && (Printable(s[from]) || (s[from] != c && Stopped(s, c, from + 1)))
  }

  lemma {:induction false} FindControlAcross(a: seq<byte>, b: seq<byte>, c: byte, from: nat)
    requires from <= |a|
    ensures FindControl(a, c, from).Some? ==> FindControl(a + b, c, from) == FindControl(a, c, from)
    ensures Stopped(a, c, from) ==> FindControl(a + b, c, from).None? && FindControl(a, c, from).None?
    ensures FindControl(a, c, from).None? && !Stopped(a, c, from) ==>
      FindControl(a + b, c, from) == FindControl(a + b, c, |a|)
    decreases |a| - from
  {
    if from < |a| && !Printable(a[from]) && a[from] != c {
      FindControlAcross(a, b, c, from + 1);
    }
  }

  lemma {:induction false} FindControlTail(a: seq<byte>, b: seq<byte>, c: byte, from: nat)
    requires from <= |b|
    ensures FindControl(a + b, c, |a| + from).None? <==> FindControl(b, c, from).None?
    ensures FindControl(b, c, from).Some? ==>
      FindControl(a + b, c, |a| + from) == Some(|a| + FindControl(b, c, from).value)
    decreases |b| - from
  {
    if from < |b| {
      assert (a + b)[|a| + from] == b[from];
      if !Printable(b[from]) && b[from] != c {
        FindControlTail(a, b, c, from + 1);
      }
    }
  }

  /** The search over the pieces is the search of the queue unless a printable
      byte stopped it before the seam and the second piece still has a hit. */
  lemma UntilCharExactIff(a: seq<byte>, b: seq<byte>, c: byte)
    ensures UntilChar(a, b, c) == FindControl(a + b, c, 0) <==>
      !(Stopped(a, c, 0) && FindControl(b, c, 0).Some?)
  {
    FindControlAcross(a, b, c, 0);
    FindControlTail(a, b, c, 0);
  }

  /** The entries of rb_read_until_char_iov; a byte that is first behind the seam
      leaves an empty second entry. */
  ghost function CharIov(rb: Ring<byte>, at: Option<nat>): Iov
    requires rb.Valid()
    reads rb
  {
    var head := rb.buf.Length - rb.read;
    if at.None? then Iov0
    else if at.value < head then Iov1(Slice(rb.read, at.value))
    else Iov2(Slice(rb.read, head), Slice(0, at.value - head))
  }

  method ReadUntilChar(rb: Ring<byte>, c: byte) returns (iov: Iov)
    requires rb.Valid()
    ensures iov == CharIov(rb, UntilChar(ViewOf(rb).Head(), ViewOf(rb).Tail(), c))
  {
    hide FindControl, Ring.Contents;
    if rb.used > 0 {
      var a, b := Pieces(rb);
      var p := NpMemChr(a, c);
      if p.Some? {
        return Iov1(Slice(rb.read, p.value));
      }
      if rb.read + rb.used > rb.buf.Length {
        p := NpMemChr(b, c);
        if p.Some? {
          return Iov2(Slice(rb.read, |a|), Slice(0, p.value));
        }
      }
    }
    return Iov0;
  }

  // -------------------------------------------------- rb_read_until_mem_iov

  datatype Scan = Hit(at: nat) | Stop | Past

  /** The loop over the matches that straddle the seam, with i bytes of the
      pattern behind it. `mem` is the memory at the pattern, of which the first
      `len` bytes are the pattern: the loop compares the i bytes behind the seam
      with mem + i. */
  function SeamScan(a: seq<byte>, b: seq<byte>, mem: seq<byte>, len: nat, i: nat): (r: Scan)
    requires 0 < i <= len <= |a| + i && 2 * len - 1 <= |mem|
    requires i < len ==> i <= |b|
    ensures r.Hit? ==> |a| + i - len <= r.at < |a| && r.at + len <= |a| + |b|
    decreases len - i
  {
    if i == len then Past
    else if a[|a| + i - len..] == mem[..len - i] && b[..i] == mem[i..2 * i] then Hit(|a| + i - len)
    else if |b| == i then Stop
    else SeamScan(a, b, mem, len, i + 1)
  }

  /** Offset at which rb_read_until_mem_iov finds the pattern in pieces `a`, `b`. */
  function UntilMem(a: seq<byte>, b: seq<byte>, mem: seq<byte>, len: nat): (r: Option<nat>)
    requires 2 <= len && 2 * len - 1 <= |mem|
    ensures r.Some? ==> r.value + len <= |a| + |b|
  {
    var p := mem[..len];
    if |a| + |b| < len then None
    else if b == [] then Find(a, p, 0)
    else
      var f := if |a| >= len then Find(a, p, 0) else None;
      if f.Some? then f
      else match SeamScan(a, b, mem, len, if |a| >= len then 1 else len - |a|) {
        case Hit(at) => Some(at)
        case Stop => None
        case Past =>
          var g := if |b| >= len then Find(b, p, 0) else None;
          if g.Some? then Some(|a| + g.value) else None
      }
  }

  /** rb_read_until_mem_iov; a pattern of one byte is searched as a byte. */
  method ReadUntilMem(rb: Ring<byte>, mem: seq<byte>, len: nat) returns (iov: Iov)
    requires rb.Valid() && 2 * len - 1 <= |mem|
    ensures len == 0 ==> iov.Iov0?
    ensures len == 1 ==> iov == CharIov(rb, UntilChar(ViewOf(rb).Head(), ViewOf(rb).Tail(), mem[0]))
    ensures len >= 2 ==> iov == IovOf(rb, UntilMem(ViewOf(rb).Head(), ViewOf(rb).Tail(), mem, len))
  {
    if len == 1 {
      iov := ReadUntilChar(rb, mem[0]);
      return;
    }
    if len == 0 {
      return Iov0;
    }
    var a, b := Pieces(rb);
    var at := SearchPieces(a, b, mem, len);
    match at {
      case None => return Iov0;
      case Some(k) =>
        // the match may begin before, at or behind the end of the buffer
        return if k <= |a| then Iov1(Slice(rb.read, k)) else Iov2(Slice(rb.read, |a|), Slice(0, k - |a|));
    }
  }

  method SearchPieces(a: seq<byte>, b: seq<byte>, mem: seq<byte>, len: nat) returns (r: Option<nat>)
    requires 2 <= len && 2 * len - 1 <= |mem|
    ensures r == UntilMem(a, b, mem, len)
  {
    var p := mem[..len];
    if |a| + |b| < len {
      return None;
    }
    if b == [] {
      r := MemMem(a, p);
      return;
    }
    var i := len - |a|;
    if |a| >= len {
      r := MemMem(a, p);
      if r.Some? {
        return;
      }
      i := 1;
    }
    var scan := StraddleLoop(a, b, mem, len, i);
    match scan {
      case Hit(at) => return Some(at);
      case Stop => return None;
      case Past =>
        if |b| >= len {
          var q := MemMem(b, p);
          if q.Some? {
            return Some(|a| + q.value);
          }
        }
        return None;
    }
  }

  /** The seam loop of rb_read_until_mem_iov. */
  method StraddleLoop(a: seq<byte>, b: seq<byte>, mem: seq<byte>, len: nat, start: nat) returns (r: Scan)
    requires 0 < start <= len <= |a| + start && 2 * len - 1 <= |mem|
    requires start < len ==> start <= |b|
    ensures r == SeamScan(a, b, mem, len, start)
  {
    var i := start;
    while i < len
      invariant 0 < i <= len <= |a| + i
      invariant i < len ==> i <= |b|
      invariant SeamScan(a, b, mem, len, start) == SeamScan(a, b, mem, len, i)
    {
      if a[|a| + i - len..] == mem[..len - i] && b[..i] == mem[i..2 * i] {
        return Hit(|a| + i - len);
      }
      if |b| == i {
        return Stop;
      }
      i := i + 1;
    }
    return Past;
  }

  // ------------------------------------------------ when the search is exact

  /** Where the search sees the pattern: in one piece where it is, and across the
      seam where what is behind the seam equals the memory it is compared with. */
  predicate Seen(a: seq<byte>, b: seq<byte>, mem: seq<byte>, len: nat, j: nat)
    requires 0 < len && 2 * len - 1 <= |mem|
  {
    if |a| < j + len && j < |a| then
      var i := j + len - |a|;
      i <= |b| && a[j..] == mem[..len - i] && b[..i] == mem[i..2 * i]
    else
      OccursAt(a + b, mem[..len], j)
  }

  lemma {:induction false} ScanFirst(a: seq<byte>, b: seq<byte>, mem: seq<byte>, len: nat, i: nat)
    requires 0 < i <= len <= |a| + i && 2 * len - 1 <= |mem|
    requires i < len ==> i <= |b|
    ensures var r := SeamScan(a, b, mem, len, i);
      && (r.Hit? ==> Seen(a, b, mem, len, r.at))
      && (forall j: nat :: |a| + i - len <= j < (if r.Hit? then r.at else |a|) ==> !Seen(a, b, mem, len, j))
      && (r.Stop? ==> |b| < len)
    decreases len - i
  {
    hide OccursAt;
    if i < len {
      if a[|a| + i - len..] == mem[..len - i] && b[..i] == mem[i..2 * i] {
        assert Seen(a, b, mem, len, |a| + i - len);
      } else {
        assert !Seen(a, b, mem, len, |a| + i - len);
        if |b| == i {
          forall j: nat | |a| + i - len < j < |a| ensures !Seen(a, b, mem, len, j) {
            assert j + len - |a| > |b|;
          }
        } else {
          ScanFirst(a, b, mem, len, i + 1);
        }
      }
    }
  }

  lemma SeenInPieces(a: seq<byte>, b: seq<byte>, mem: seq<byte>, len: nat, j: nat)
    requires 0 < len && 2 * len - 1 <= |mem|
    ensures j + len <= |a| ==> (Seen(a, b, mem, len, j) <==> OccursAt(a, mem[..len], j))
    ensures |a| <= j ==> (Seen(a, b, mem, len, j) <==> OccursAt(b, mem[..len], j - |a|))
    ensures |a| + |b| < j + len ==> !Seen(a, b, mem, len, j)
  {
    if j + len <= |a| { OccursInHead(a, b, mem[..len], j); }
    if |a| <= j { OccursInTail(a, b, mem[..len], j); }
  }

  /** The search finds the first place where it sees the pattern. */
  lemma UntilMemFirst(a: seq<byte>, b: seq<byte>, mem: seq<byte>, len: nat)
    requires 2 <= len && 2 * len - 1 <= |mem|
    ensures var r := UntilMem(a, b, mem, len);
      && (r.Some? ==> Seen(a, b, mem, len, r.value))
      && forall j: nat :: r.None? || j < r.value ==> !Seen(a, b, mem, len, j)
  {
    hide Find, Seen, SeamScan;
    var p, r := mem[..len], UntilMem(a, b, mem, len);
    if |a| + |b| >= len && b != [] {
      ScanFirst(a, b, mem, len, if |a| >= len then 1 else len - |a|);
    }
    if r.Some? { SeenInPieces(a, b, mem, len, r.value); }
    forall j: nat | r.None? || j < r.value ensures !Seen(a, b, mem, len, j) {
      SeenInPieces(a, b, mem, len, j);
    }
  }

  /** What mem + i holds is what the pattern ends with, for every straddle. */
  ghost predicate SeamSafe(mem: seq<byte>, len: nat)
    requires 2 * len - 1 <= |mem|
  {
    forall i :: 1 <= i < len ==> mem[i..2 * i] == mem[len - i..len]
  }

  /** A straddle is seen where the pattern is, if mem + i holds what it ends with. */
  lemma SeenIs(a: seq<byte>, b: seq<byte>, mem: seq<byte>, len: nat, j: nat)
    requires 0 < len && 2 * len - 1 <= |mem|
    requires |a| < j + len && j < |a| ==> var i := j + len - |a|; mem[i..2 * i] == mem[len - i..len]
    ensures Seen(a, b, mem, len, j) <==> OccursAt(a + b, mem[..len], j)
  {
    if |a| < j + len && j < |a| {
      var i, p := j + len - |a|, mem[..len];
      OccursAcross(a, b, p, i);
      assert p[len - i..] == mem[len - i..len] && p[..len - i] == mem[..len - i];
    }
  }

  lemma OccursInHead(a: seq<byte>, b: seq<byte>, p: seq<byte>, i: nat)
    requires i + |p| <= |a|
    ensures OccursAt(a + b, p, i) <==> OccursAt(a, p, i)
  {
    assert (a + b)[i..i + |p|] == a[i..i + |p|];
  }

  lemma OccursInTail(a: seq<byte>, b: seq<byte>, p: seq<byte>, i: nat)
    requires |a| <= i
    ensures OccursAt(a + b, p, i) <==> OccursAt(b, p, i - |a|)
  {
    if i + |p| <= |a| + |b| {
      assert (a + b)[i..i + |p|] == b[i - |a|..i - |a| + |p|];
    }
  }

  /** An occurrence with i > 0 bytes behind the seam. */
  lemma OccursAcross(a: seq<byte>, b: seq<byte>, p: seq<byte>, i: nat)
    requires 0 < i < |p| <= |a| + i
    ensures OccursAt(a + b, p, |a| + i - |p|) <==>
      i <= |b| && a[|a| + i - |p|..] == p[..|p| - i] && b[..i] == p[|p| - i..]
  {
    if i <= |b| {
      var x := (a + b)[|a| + i - |p|..|a| + i];
      assert x == a[|a| + i - |p|..] + b[..i];
      assert p == p[..|p| - i] + p[|p| - i..];
      assert x[..|p| - i] == a[|a| + i - |p|..] && x[|p| - i..] == b[..i];
    }
  }

  /** For a seam-safe pattern the search over the pieces is the search for the
      first occurrence in the queue, straddling matches included. */
  lemma UntilMemExact(a: seq<byte>, b: seq<byte>, mem: seq<byte>, len: nat)
    requires 2 <= len && 2 * len - 1 <= |mem| && SeamSafe(mem, len)
    ensures UntilMem(a, b, mem, len) == Find(a + b, mem[..len], 0)
  {
    hide OccursAt, UntilMem, Seen;
    var p, s := mem[..len], a + b;
    UntilMemFirst(a, b, mem, len);
    forall j: nat ensures Seen(a, b, mem, len, j) <==> OccursAt(s, p, j) {
      SeenIs(a, b, mem, len, j);
    }
    var r := UntilMem(a, b, mem, len);
    if r.Some? { FindIs(s, p, 0, r.value); }
  }

  /** CR LF, and every two-byte pattern, is seam-safe. */
  lemma TwoBytesAreSeamSafe(mem: seq<byte>)
    requires |mem| >= 3
    ensures SeamSafe(mem, 2)
  {
  }

  /** A pattern is found exactly, wherever the seam falls, if and only if it is
      seam-safe: otherwise it is missed when it is alone in the ring and split at
      the offending point. */
  lemma UntilMemExactIff(mem: seq<byte>, len: nat)
    requires 2 <= len && 2 * len - 1 <= |mem|
    ensures SeamSafe(mem, len) <==>
      forall a, b :: UntilMem(a, b, mem, len) == Find(a + b, mem[..len], 0)
  {
    if SeamSafe(mem, len) {
      forall a, b ensures UntilMem(a, b, mem, len) == Find(a + b, mem[..len], 0) {
        UntilMemExact(a, b, mem, len);
      }
    } else {
      var i :| 1 <= i < len && mem[i..2 * i] != mem[len - i..len];
      var a, b := mem[..len - i], mem[len - i..len];
      assert a + b == mem[..len];
      assert OccursAt(a + b, mem[..len], 0);
      assert a[|a| + i - len..] == a && b[..i] == b;
      assert UntilMem(a, b, mem, len).None?;
    }
  }
}
