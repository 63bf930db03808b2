/** Cutting the byte stream of the modem into responses: at_read, the recursive
    at_read_result_iov of src/at_read.c and the drain loop of src/monitor_thread.c. */
module Framing {
  import opened Basics
  import opened RingSearch

  const CR: byte := 13
  const LF: byte := 10
  const EOL: seq<byte> := [CR, LF]
  const PROMPT: seq<byte> := [62, 32]                                       // "> "
  const CMGR: seq<byte> := [43, 67, 77, 71, 82, 58]                         // "+CMGR:"
  const CNUM: seq<byte> := [43, 67, 78, 85, 77, 58]                         // "+CNUM:"
  const ERROR_CNUM: seq<byte> := [69, 82, 82, 79, 82, 43, 67, 78, 85, 77, 58] // "ERROR+CNUM:"
  const CMGL: seq<byte> := [43, 67, 77, 71, 76, 58]                         // "+CMGL:"
  const CMT: seq<byte> := [43, 67, 77, 84, 58]                              // "+CMT:"
  const CBM: seq<byte> := [43, 67, 66, 77, 58]                              // "+CBM:"
  const CDS: seq<byte> := [43, 67, 68, 83, 58]                              // "+CDS:"
  const CLASS0: seq<byte> := [43, 67, 76, 65, 83, 83, 48, 58]               // "+CLASS0:"
  const T_OK: seq<byte> := [13, 10, 13, 10, 79, 75, 13, 10]                 // CR LF CR LF OK CR LF
  const T_CMGL: seq<byte> := [13, 10, 43, 67, 77, 71, 76, 58]               // CR LF +CMGL:

  /** The memory at the three searched patterns: the pattern, its terminating zero,
      then whatever follows in the program image. */
  datatype Image = Image(eol: seq<byte>, ok: seq<byte>, cmgl: seq<byte>) {
    ghost predicate Valid() {
      && |eol| >= 3 && EOL + [0] <= eol
      && |ok| >= 15 && T_OK + [0] <= ok
      && |cmgl| >= 15 && T_CMGL + [0] <= cmgl
    }
  }

  /** What one call reports: nothing yet, or the first `len` bytes as a result
      with `skip` bytes to discard behind it. */
  datatype Outcome = Wait | Result(len: nat, skip: nat)

  datatype Parsed = Parsed(v: View, inside: bool, out: Outcome)

  /** get_2ndeol_pos; 0 when there is no second line end. */
  function SecondEol(data: seq<byte>): (s: nat)
    ensures s <= |data|
  {
    var p := Find(data, EOL, 0);
    if p.None? then 0
    else
      var q := Find(data, EOL, p.value + 2);
      if q.None? then 0 else q.value
  }

  predicate IsPrefix(p: seq<byte>, data: seq<byte>) {
    Compare(data, p) == 0
  }

  predicate StartsListing(data: seq<byte>) {
    IsPrefix(CMGR, data) || IsPrefix(CNUM, data) || IsPrefix(ERROR_CNUM, data)
  }

  predicate StartsTwoLines(data: seq<byte>) {
    IsPrefix(CMT, data) || IsPrefix(CBM, data) || IsPrefix(CDS, data) || IsPrefix(CLASS0, data)
  }

  /** The branch of at_read_result_iov with *read_result == 1. */
  function Inside(v: View, m: Image): (p: Parsed)
    requires v.Valid() && v.data != [] && m.Valid()
    ensures p.v == v
    ensures p.out.Result? ==> 0 < p.out.len + p.out.skip <= |v.data|
  {
    var a, b := v.Head(), v.Tail();
    assert a + b == v.data;
    if IsPrefix(PROMPT, v.data) then Parsed(v, false, Result(2, 0))
    else if StartsListing(v.data) then
      var k := UntilMem(a, b, m.ok, 8);
      if k.Some? then
        Parsed(v, true, Result(k.value, 4))
      else Parsed(v, true, Wait)
    else if IsPrefix(CMGL, v.data) then
      var k := UntilMem(a, b, m.cmgl, 8);
      if k.Some? then
        Parsed(v, true, Result(k.value, 2))
      else
        var l := UntilMem(a, b, m.ok, 8);
        if l.Some? then
          Parsed(v, true, Result(l.value, 4))
        else Parsed(v, true, Wait)
    else if StartsTwoLines(v.data) then
      var s := SecondEol(v.data);
      if s != 0 then Parsed(v, false, Result(s, 1)) else Parsed(v, true, Wait)
    else
      var k := UntilMem(a, b, m.eol, 2);
      if k.Some? then
        Parsed(v, false, Result(k.value, 1))
      else Parsed(v, true, Wait)
  }

  /** How much to drop in front of something unprintable: a lone LF, or all up
      to and including a CR, or everything. */
  function Noise(v: View): (n: nat)
    requires v.Valid() && v.data != []
    ensures 0 < n <= |v.data|
  {
    if v.data[0] == LF then 1
    else
      var k := UntilChar(v.Head(), v.Tail(), CR);
      if k.Some? then k.value + 1 else |v.data|
  }

  /** at_read_result_iov. The recursion ends because every call either drops
      bytes or, with as many bytes, enters the inner state. */
  function ReadResult(v: View, inside: bool, m: Image): (p: Parsed)
    requires v.Valid() && m.Valid()
    ensures p.v.Valid() && p.v.size == v.size && |p.v.data| <= |v.data|
    ensures p.out.Result? ==> 0 < p.out.len + p.out.skip <= |p.v.data|
    decreases |v.data|, if inside then 0 else 1
  {
    if v.data == [] then Parsed(v, inside, Wait)
    else if inside then Inside(v, m)
    else
      var cmp := Compare(v.data, EOL);
      if cmp == 0 then ReadResult(v.Drop(2), true, m)
      else if cmp > 0 then
        if Printable(v.data[0]) then ReadResult(v, true, m)
        else ReadResult(v.Drop(Noise(v)), false, m)
      else Parsed(v, false, Wait)
  }

  /** What the drain loop hands on: the non-empty results, in order. */
  datatype Drained = Drained(v: View, inside: bool, results: seq<seq<byte>>)

  /** The response of an outcome; an empty one is not handed on. */
  function Handed(p: Parsed): seq<seq<byte>>
    requires p.out.Result? ==> p.out.len <= |p.v.data|
  {
    if p.out.Wait? || p.out.len == 0 then [] else [p.v.data[..p.out.len]]
  }

  function Drain(v: View, inside: bool, m: Image): (d: Drained)
    requires v.Valid() && m.Valid()
    ensures d.v.Valid() && d.v.size == v.size && |d.v.data| <= |v.data|
    decreases |v.data|
  {
    var p := ReadResult(v, inside, m);
    if p.out.Wait? then Drained(p.v, p.inside, [])
    else
      var rest := Drain(p.v.Drop(p.out.len + p.out.skip), p.inside, m);
      rest.(results := Handed(p) + rest.results)
  }

  /** The view once readv has delivered `chunk`. */
  function Receive(v: View, chunk: seq<byte>): (r: View)
    ensures v.Valid() && |v.data| + |chunk| <= v.size ==> r.Valid()
  {
    View(v.size, v.read, v.data + chunk)
  }

  /** The main loop of the monitor thread over the reads `chunks`; each read
      delivers no more than rb_write_iov offers. */
  ghost predicate Fits(v: View, inside: bool, chunks: seq<seq<byte>>, m: Image)
    requires v.Valid() && m.Valid()
    decreases |chunks|
  {
    chunks == [] ||
    (&& |v.data| + |chunks[0]| <= v.size
     && var d := Drain(Receive(v, chunks[0]), inside, m);
        Fits(d.v, d.inside, chunks[1..], m))
  }

  function Run(v: View, inside: bool, chunks: seq<seq<byte>>, m: Image): (d: Drained)
    requires v.Valid() && m.Valid() && Fits(v, inside, chunks, m)
    decreases |chunks|
  {
    if chunks == [] then Drained(v, inside, [])
    else
      var d := Drain(Receive(v, chunks[0]), inside, m);
      var rest := Run(d.v, d.inside, chunks[1..], m);
      rest.(results := d.results + rest.results)
  }
}
