/** The reading half of the monitor thread: one device read into the ring, then
    every complete response out of it (src/at_read.c, src/monitor_thread.c). */
module MonitorThread {
  import opened Basics
  import opened RingBuffers
  import opened RingSearch
  import opened Framing

  /** What readv has to offer. */
  datatype Device = Ready(bytes: seq<byte>) | Again | Failed

  /** The ring after a read that did not fail: as many bytes as fit have come in. */
  ghost function AfterRead(v: View, dev: Device): (r: View)
    requires v.Valid()
    ensures r.Valid()
    ensures dev.Ready? && |v.data| + |dev.bytes| <= v.size ==> r == Receive(v, dev.bytes)
  {
    if dev.Ready? then Receive(v, dev.bytes[..Min(|dev.bytes|, v.size - |v.data|)]) else v
  }

  class Monitor {
    const rb: Ring<byte>
    const image: Image
    /** read_result */
    var inside: bool

    ghost predicate Valid()
      reads this, rb
    {
      rb.Valid() && image.Valid()
    }

    ghost function State(): View
      requires Valid()
      reads this, rb, rb.buf
    {
      ViewOf(rb)
    }

    constructor (buffer: array<byte>, image: Image)
      requires image.Valid()
      ensures Valid() && State() == View(buffer.Length, 0, []) && !inside
      ensures fresh(rb) && rb.buf == buffer
    {
      rb := new Ring<byte>(buffer);
      this.image := image;
      inside := false;
    }

    /** at_read: -1 on a full ring or a device error. */
    method AtRead(dev: Device) returns (n: int)
      requires Valid()
      modifies rb, rb.buf
      ensures Valid()
      ensures n < 0 <==> dev.Failed? || old(rb.used) == rb.buf.Length
      ensures n >= 0 ==> n == rb.used - old(rb.used)
      ensures State() == if n >= 0 then AfterRead(old(State()), dev) else old(State())
    {
      hide Ring.Contents, Ring.FreeSpace;
      var iov := rb.WriteIov();
      if iov.Iov0? {
        return -1;
      }
      match dev {
        case Failed => return -1;
        case Again => return 0;
        case Ready(bytes) =>
          n := if |bytes| < iov.Len() then |bytes| else iov.Len();
          if n > 0 {
            rb.Fill(bytes[..n]);
            var m := rb.WriteUpd(n);
          }
      }
    }

    /** get_2ndeol_pos */
    method SecondEolPos() returns (s: nat)
      requires Valid()
      ensures s == SecondEol(rb.Contents())
    {
      hide Find;
      var iov := rb.ReadAllIov();
      rb.ReadSlices(0);
      var b := iov.Gather(rb.buf[..]);
      if iov.Iov0? {
        NoEolInNothing();
        return 0;
      }
      var pos := MemMem(b, EOL);
      if pos.None? {
        return 0;
      }
      var shift := pos.value + 2;
      EolFits(b, pos.value);
      var again := MemMem(b[shift..], EOL);
      FindShifted(b, shift, 0);
      return if again.None? then 0 else shift + again.value;
    }

    static lemma NoEolInNothing()
      ensures Find([], EOL, 0).None?
    {
    }

    static lemma EolFits(b: seq<byte>, k: nat)
      requires Find(b, EOL, 0) == Some(k)
      ensures k + 2 <= |b|
    {
    }

    /** Searching the rest is searching from its start. */
    static lemma {:induction false} FindShifted(b: seq<byte>, shift: nat, from: nat)
      requires shift + from <= |b|
      ensures Find(b, EOL, shift + from) ==
        match Find(b[shift..], EOL, from) { case None => None case Some(k) => Some(shift + k) }
      decreases |b| - from
    {
      hide OccursAt;
      assert b == b[..shift] + b[shift..];
      OccursInTail(b[..shift], b[shift..], EOL, shift + from);
      if !OccursAt(b, EOL, shift + from) && shift + from < |b| {
        FindShifted(b, shift, from + 1);
      }
    }

    /** The entries returned for an outcome. */
    ghost predicate Answers(p: Parsed, iov: Iov, skipped: int)
      requires Valid()
      reads this, rb, rb.buf
    {
      && State() == p.v && inside == p.inside
      && iov.InBounds(rb.buf.Length)
      && match p.out {
           case Wait => iov.Iov0? && skipped == 0
           case Result(len, skip) =>
             !iov.Iov0? && len <= rb.used && iov.Gather(rb.buf[..]) == p.v.data[..len] && skipped == skip
         }
    }

    /** rb_read_upd of bytes that are there. */
    method Discard(n: nat)
      requires Valid() && 0 < n <= rb.used
      modifies rb
      ensures Valid() && State() == old(State()).Drop(n)
    {
      var m := rb.ReadUpd(n);
    }

    method SkipNoise()
      requires Valid() && rb.used > 0
      modifies rb
      ensures Valid() && State() == old(State()).Drop(Noise(old(State())))
    {
      hide UntilChar, CharIov, Compare, Ring.Contents, Ring.Valid, View.Head, View.Tail;
      ghost var v := State();
      assert v.Valid() && |v.data| == rb.used;
      var res := MemCmp(rb, [LF]);
      OneByte(v.data, LF);
      if res == 0 {
        Discard(1);
      } else {
        var until := ReadUntilChar(rb, CR);
        CharEntries(UntilChar(v.Head(), v.Tail(), CR));
        NoiseFits(v);
        Discard(if until.Iov0? then rb.used else until.Len() + 1);
      }
    }

    static lemma OneByte(data: seq<byte>, c: byte)
      requires data != []
      ensures Compare(data, [c]) == 0 <==> data[0] == c
    {
    }

    static lemma NoiseFits(v: View)
      requires v.Valid()
      ensures UntilChar(v.Head(), v.Tail(), CR).Some? ==> UntilChar(v.Head(), v.Tail(), CR).value < |v.data|
    {
    }

    lemma CharEntries(at: Option<nat>)
      requires rb.Valid()
      ensures CharIov(rb, at).Iov0? <==> at.None?
      ensures at.Some? ==> CharIov(rb, at).Len() == at.value
    {
    }

    /** rb_read_is_printable */
    method IsPrintable() returns (b: bool)
      requires Valid()
      ensures b == (rb.used > 0 && Printable(rb.Contents()[0]))
    {
      return rb.used > 0 && Printable(rb.buf[rb.read]);
    }

    /** at_read_result_iov */
    method AtReadResultIov(skip0: nat) returns (iov: Iov, skip: nat)
      requires Valid()
      modifies this, rb
      ensures Valid() && Answers(ReadResult(old(State()), old(inside), image), iov, skip - skip0)
      decreases rb.used, if inside then 0 else 1
    {
      hide Inside, Noise;
      if rb.used == 0 {
        return Iov0, skip0;
      }
      if inside {
        iov, skip := InsideIov(skip0);
        return;
      }
      var res := MemCmp(rb, EOL);
      if res < 0 {
        return Iov0, skip0;
      }
      if res == 0 {
        Discard(2);
        inside := true;
      } else {
        var printable := IsPrintable();
        if printable {
          inside := true;
        } else {
          SkipNoise();
        }
      }
      iov, skip := AtReadResultIov(skip0);
    }

    method IsListing() returns (b: bool)
      requires Valid()
      ensures b == StartsListing(rb.Contents())
    {
      var c := MemCmp(rb, CMGR);
      if c == 0 { return true; }
      c := MemCmp(rb, CNUM);
      if c == 0 { return true; }
      c := MemCmp(rb, ERROR_CNUM);
      return c == 0;
    }

    method IsTwoLines() returns (b: bool)
      requires Valid()
      ensures b == StartsTwoLines(rb.Contents())
    {
      var c := MemCmp(rb, CMT);
      if c == 0 { return true; }
      c := MemCmp(rb, CBM);
      if c == 0 { return true; }
      c := MemCmp(rb, CDS);
      if c == 0 { return true; }
      c := MemCmp(rb, CLASS0);
      return c == 0;
    }

    /** rb_read_until_mem_iov with the bytes its entries stand for. */
    method Search(mem: seq<byte>, len: nat) returns (iov: Iov)
      requires Valid() && 2 <= len && 2 * len - 1 <= |mem|
      ensures iov.InBounds(rb.buf.Length)
      ensures var k := UntilMem(State().Head(), State().Tail(), mem, len);
        && (iov.Iov0? <==> k.None?)
        && (k.Some? ==> k.value <= rb.used && iov.Gather(rb.buf[..]) == rb.Contents()[..k.value])
    {
      hide UntilMem;
      iov := ReadUntilMem(rb, mem, len);
      ghost var k := UntilMem(State().Head(), State().Tail(), mem, len);
      if k.Some? {
        rb.SpanReads(k.value);
      }
    }

    method InsideIov(skip0: nat) returns (iov: Iov, skip: nat)
      requires Valid() && inside && rb.used > 0
      modifies this
      ensures Valid() && Answers(Inside(old(State()), image), iov, skip - skip0)
    {
      skip := skip0;
      var c := MemCmp(rb, PROMPT);
      if c == 0 {
        inside := false;
        iov := rb.ReadNIov(2);
        rb.ReadSlices(2);
        return;
      }
      var listing := IsListing();
      if listing {
        iov := Search(image.ok, 8);
        skip := if iov.Iov0? then skip0 else skip0 + 4;
        return;
      }
      c := MemCmp(rb, CMGL);
      if c == 0 {
        iov := Search(image.cmgl, 8);
        if !iov.Iov0? {
          skip := skip0 + 2;
        } else {
          iov := Search(image.ok, 8);
          skip := if iov.Iov0? then skip0 else skip0 + 4;
        }
        return;
      }
      var two := IsTwoLines();
      if two {
        var s := SecondEolPos();
        iov := Iov0;
        if s != 0 {
          inside := false;
          skip := skip0 + 1;
          iov := rb.ReadNIov(s);
          rb.ReadSlices(s);
        }
      } else {
        iov := Search(image.eol, 2);
        if !iov.Iov0? {
          inside := false;
          skip := skip0 + 1;
        }
      }
    }

    /** The outcome `p` and the results handed on so far lead to `all`. */
    static ghost predicate LeadsTo(p: Parsed, results: seq<seq<byte>>, all: Drained, m: Image)
      requires m.Valid()
    {
      match p.out
      case Wait => all == Drained(p.v, p.inside, results)
      case Result(len, skip) =>
        && p.v.Valid() && 0 < len + skip <= |p.v.data|
        && var d := Drain(p.v.Drop(len + skip), p.inside, m);
           all.v == d.v && all.inside == d.inside && all.results == results + Handed(p) + d.results
    }

    static lemma Begins(v: View, inside: bool, m: Image)
      requires v.Valid() && m.Valid()
      ensures LeadsTo(ReadResult(v, inside, m), [], Drain(v, inside, m), m)
    {
      hide ReadResult, Handed;
      var p := ReadResult(v, inside, m);
      assert [] + Handed(p) == Handed(p);
    }

    static lemma Continues(p: Parsed, results: seq<seq<byte>>, all: Drained, m: Image)
      requires m.Valid() && p.out.Result? && LeadsTo(p, results, all, m)
      ensures p.v.Valid() && 0 < p.out.len + p.out.skip <= |p.v.data|
      ensures LeadsTo(ReadResult(p.v.Drop(p.out.len + p.out.skip), p.inside, m), results + Handed(p), all, m)
    {
      hide ReadResult, Handed;
    }

    static lemma Ends(p: Parsed, results: seq<seq<byte>>, all: Drained, m: Image)
      requires m.Valid() && p.out.Wait? && LeadsTo(p, results, all, m)
      ensures all == Drained(p.v, p.inside, results)
    {
      hide Drain;
    }

    /** Copies a result out of the ring and drops it. */
    method Take(iov: Iov, skip: nat, ghost p: Parsed) returns (result: seq<byte>)
      requires Valid() && Answers(p, iov, skip)
      requires p.out.Result? && p.v.Valid() && 0 < p.out.len + p.out.skip <= |p.v.data|
      modifies rb
      ensures Valid() && State() == p.v.Drop(p.out.len + p.out.skip)
      ensures rb.used < old(rb.used)
      ensures Handed(p) == if result == [] then [] else [result]
    {
      result := iov.Gather(rb.buf[..]);
      Discard(|result| + skip);
    }

    /** The drain loop: hands on every complete response and drops its bytes. */
    method DrainLoop() returns (results: seq<seq<byte>>)
      requires Valid()
      modifies this, rb
      ensures Valid()
      ensures Drained(State(), inside, results) == Drain(old(State()), old(inside), image)
    {
      hide Drain, ReadResult, LeadsTo, Handed;
      results := [];
      var skip := 0;
      var iov;
      ghost var all := Drain(State(), inside, image);
      ghost var p := ReadResult(State(), inside, image);
      Begins(State(), inside, image);
      iov, skip := AtReadResultIov(skip);
      while !iov.Iov0?
        invariant Valid()
        invariant Answers(p, iov, skip)
        invariant LeadsTo(p, results, all, image)
        decreases rb.used
      {
        Continues(p, results, all, image);
        var result := Take(iov, skip, p);
        skip := 0;
        if |result| != 0 {
          results := results + [result];
        } else {
          assert results + [] == results;
        }
        p := ReadResult(State(), inside, image);
        iov, skip := AtReadResultIov(skip);
      }
      Ends(p, results, all, image);
    }

    /** One turn of the main loop after the device became readable. */
    method Turn(dev: Device) returns (n: int, results: seq<seq<byte>>)
      requires Valid()
      modifies this, rb, rb.buf
      ensures Valid()
      ensures n < 0 <==> dev.Failed? || old(rb.used) == rb.buf.Length
      ensures n < 0 ==> results == [] && State() == old(State()) && inside == old(inside)
      ensures n >= 0 ==>
        Drained(State(), inside, results) == Drain(AfterRead(old(State()), dev), old(inside), image)
    {
      n := AtRead(dev);
      if n < 0 {
        return n, [];
      }
      results := DrainLoop();
    }
  }
}
