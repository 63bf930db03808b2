/** What the mix buffer means: which samples were written to which position of
    the outgoing audio, in which order, and what their mix is. */
module Mixing {
  import opened Basics
  import opened RingBuffers

  type Sample = x: int | -32768 <= x < 32768

  /** What is left of `used` when `len` are taken away. */
  function Left(used: nat, len: nat): nat {
    if used > len then used - len else 0
  }

  /** ast_slinear_saturated_add */
  function SaturatedAdd(a: Sample, b: Sample): Sample {
    if a + b > 32767 then 32767 else if a + b < -32768 then -32768 else a + b
  }

  function Distance(x: int, y: int): nat {
    if x < y then y - x else x - y
  }

  /** Of all samples it is the one nearest to the sum, and the only one. */
  lemma NearestSample(a: Sample, b: Sample, z: Sample)
    ensures Distance(SaturatedAdd(a, b), a + b) <= Distance(z, a + b)
    ensures Distance(SaturatedAdd(a, b), a + b) == Distance(z, a + b) ==> z == SaturatedAdd(a, b)
  {
  }

  /** The mix of the samples of one position, in the order they were written. */
  function Mix(c: seq<Sample>): Sample {
    if c == [] then 0
    else if |c| == 1 then c[0]
    else SaturatedAdd(Mix(c[..|c| - 1]), c[|c| - 1])
  }

  lemma MixOneMore(c: seq<Sample>, d: Sample)
    ensures Mix(c + [d]) == if c == [] then d else SaturatedAdd(Mix(c), d)
  {
    assert (c + [d])[..|c|] == c;
  }

  function Sum(c: seq<Sample>): int {
    if c == [] then 0 else Sum(c[..|c| - 1]) + c[|c| - 1]
  }

  /** The first n samples are mixed as they are added up. */
  predicate Exact(c: seq<Sample>, n: nat)
    requires n <= |c|
  {
    forall k :: 0 <= k <= n ==> Mix(c[..k]) == Sum(c[..k])
  }

  /** No sum of the first n samples leaves the 16-bit range on the way. */
  predicate InRange(c: seq<Sample>, n: nat)
    requires n <= |c|
  {
    forall k :: 0 <= k <= n ==> -32768 <= Sum(c[..k]) < 32768
  }

  lemma OneLonger(c: seq<Sample>, n: nat)
    requires n < |c|
    ensures Mix(c[..n + 1]) == if n == 0 then c[0] else SaturatedAdd(Mix(c[..n]), c[n])
    ensures Sum(c[..n + 1]) == Sum(c[..n]) + c[n]
  {
    assert c[..n + 1][..n] == c[..n];
  }

  /** Every mix on the way is the exact sum if and only if no sum on the way
      leaves the 16-bit range. */
  lemma {:induction false} MixIsExactIff(c: seq<Sample>, n: nat)
    requires n <= |c|
    ensures Exact(c, n) <==> InRange(c, n)
  {
    hide Mix, Sum;
    if n == 0 {
      NothingIsExact(c);
    } else {
      MixIsExactIff(c, n - 1);
      OneLonger(c, n - 1);
      NothingIsExact(c);
    }
  }

  lemma NothingIsExact(c: seq<Sample>)
    ensures Mix(c[..0]) == Sum(c[..0]) == 0
  {
    assert c[..0] == [];
  }

  /** One sample written by a stream. Positions count the samples of the outgoing
      audio from the creation of the buffer. */
  datatype Entry = Entry(pos: nat, stream: nat, sample: Sample)

  /** The samples written to a position, in write order. */
  function At(log: seq<Entry>, p: nat): seq<Sample> {
    if log == [] then []
    else
      var last := log[|log| - 1];
      At(log[..|log| - 1], p) + if last.pos == p then [last.sample] else []
  }

  /** A stream has at most one sample at a position. */
  ghost predicate SingleIn(log: seq<Entry>) {
    forall j, k :: 0 <= j < k < |log| && log[j].pos == log[k].pos ==> log[j].stream != log[k].stream
  }

  function Entries(s: nat, start: nat, data: seq<Sample>): (r: seq<Entry>)
    ensures |r| == |data|
  {
    seq(|data|, i requires 0 <= i < |data| => Entry(start + i, s, data[i]))
  }

  lemma {:induction false} AtConcat(a: seq<Entry>, b: seq<Entry>, p: nat)
    ensures At(a + b, p) == At(a, p) + At(b, p)
  {
    if b == [] {
      assert a + b == a;
    } else {
      assert (a + b)[..|a + b| - 1] == a + b[..|b| - 1];
      AtConcat(a, b[..|b| - 1], p);
    }
  }

  lemma {:induction false} AtEntries(s: nat, start: nat, data: seq<Sample>, p: nat)
    ensures At(Entries(s, start, data), p) == if start <= p < start + |data| then [data[p - start]] else []
  {
    if data != [] {
      var d := data[..|data| - 1];
      assert Entries(s, start, data)[..|data| - 1] == Entries(s, start, d);
      AtEntries(s, start, d, p);
    }
  }

  lemma {:induction false} AtNothing(log: seq<Entry>, p: nat)
    requires forall j :: 0 <= j < |log| ==> log[j].pos != p
    ensures At(log, p) == []
  {
    if log != [] {
      AtNothing(log[..|log| - 1], p);
    }
  }

  /** How many steps lead from position `from` to position `to` on a ring. */
  function Steps(from: nat, to: nat, size: nat): (r: nat)
    requires from <= size && to <= size
    ensures r <= size && (from < size ==> r < size || to == size)
  {
    if to >= from then to - from else to + size - from
  }

  predicate Fits(c: Cursor, size: nat) {
    c.used <= size && (c.write < size || c.write == 0)
  }

  /** With the room it has left, the cursor does not reach the i-th live sample. */
  predicate Far(read: nat, size: nat, c: Cursor, i: nat)
    requires Fits(c, size) && i < size && read < size
  {
    Steps(c.write, Wrap(read + i, size), size) >= size - c.used
  }

  /** struct mixstream */
  datatype Cursor = Cursor(used: nat, write: nat)

  /** The mix buffer: `gone` samples have left it, `live` are in it, `read` is the
      ring position of the first of them. `cursor` has the cursors of every known
      stream: those of the attached ones move along when samples leave, those of
      the others stay where they are. */
  datatype Mixer = Mixer(
    size: nat, read: nat, gone: nat, live: nat, log: seq<Entry>,
    cursor: map<nat, Cursor>, attached: set<nat>, next: nat)
  {
    ghost predicate Inv() {
      && live <= size && (read < size || read == 0)
      && attached <= cursor.Keys
      && (forall s :: s in cursor ==> s < next && Fits(cursor[s], size))
      && (forall s :: s in attached ==> OnRing(cursor[s]))
      && (forall j :: 0 <= j < |log| ==> log[j].stream < next && log[j].pos < gone + live)
      && (forall p: nat :: p < gone + live ==> At(log, p) != [])
    }

    /** The cursor names a live position or the first free one. */
    predicate OnRing(c: Cursor) {
      c.used <= live && c.write == Wrap(read + c.used, size)
    }

    /** The next sample of the stream goes behind what it wrote before. */
    predicate Aligned(c: Cursor) {
      c.used == live || OnRing(c)
    }

    ghost predicate Single() {
      SingleIn(log)
    }

    /** Nothing of the stream is buffered. */
    ghost predicate NoneLive(s: nat) {
      forall j :: 0 <= j < |log| && log[j].stream == s ==> log[j].pos < gone
    }

    /** Nothing of the stream is buffered from its used count on. */
    ghost predicate Behind(s: nat)
      requires s in cursor
    {
      forall j :: 0 <= j < |log| && log[j].stream == s ==> log[j].pos < gone + cursor[s].used
    }

    /** Moreover, the write cursor of a stream cannot reach a live sample of its own
        with the room it has left. */
    ghost predicate Once()
      requires Inv()
    {
      && Single()
      && forall j :: 0 <= j < |log| && log[j].stream in cursor && gone <= log[j].pos ==>
           Far(read, size, cursor[log[j].stream], log[j].pos - gone)
    }

    /** The samples the buffer must hold. */
    function Sound(): (r: seq<Sample>)
      ensures |r| == live
    {
      seq<Sample>(live, i requires 0 <= i < live => Mix(At(log, gone + i)))
    }

    /** A call brings a stream of its own, zeroed. */
    function Create(): Mixer {
      this.(cursor := cursor[next := Cursor(0, 0)], next := next + 1)
    }

    /** mixb_attach: the stream starts over at the read position. */
    function Attach(s: nat): Mixer {
      this.(cursor := cursor[s := Cursor(0, read)], attached := attached + {s})
    }

    function Detach(s: nat): Mixer {
      this.(attached := attached - {s})
    }

    /** How much of `len` samples a stream may write. */
    function Room(s: nat, len: nat): nat
      requires s in cursor && Fits(cursor[s], size)
    {
      Min(len, size - cursor[s].used)
    }

    /** One sample mixed in at the write cursor; on a free position nobody hears it. */
    function MixOne(s: nat, x: Sample): Mixer
      requires s in cursor && Fits(cursor[s], size) && cursor[s].used < size && read <= size
    {
      var c := cursor[s];
      var o := Steps(read, c.write, size);
      this.(log := if o < live then log + [Entry(gone + o, s, x)] else log,
            cursor := cursor[s := Cursor(c.used + 1, Wrap(c.write + 1, size))])
    }

    function MixIn(s: nat, data: seq<Sample>): (m: Mixer)
      requires s in cursor && Fits(cursor[s], size) && cursor[s].used + |data| <= size && read <= size
      ensures m == this.(log := m.log, cursor := m.cursor)
      ensures m.cursor == cursor[s := Cursor(cursor[s].used + |data|, Wrap(cursor[s].write + |data|, size))]
      ensures Fits(m.cursor[s], m.size)
      decreases |data|
    {
      if data == [] then this else MixIn(s, data[..|data| - 1]).MixOne(s, data[|data| - 1])
    }

    /** Samples behind the last live one; the stream's cursors end up there. */
    function Append(s: nat, data: seq<Sample>): Mixer {
      this.(live := live + |data|, log := log + Entries(s, gone + live, data),
            cursor := cursor[s := Cursor(live + |data|, Wrap(read + live + |data|, size))])
    }

    /** How many of n samples are mixed in. Behind the last live sample the
        difference of the used counts wraps around to a number above every size. */
    function Mixed(used: nat, n: nat): nat {
      if used <= live then Min(n, live - used) else n
    }

    function Write(s: nat, data: seq<Sample>): Mixer
      requires s in cursor && Fits(cursor[s], size) && read <= size
    {
      var n := Room(s, |data|);
      var k := Mixed(cursor[s].used, n);
      var m := MixIn(s, data[..k]);
      if k < n then m.Append(s, data[k..n]) else m
    }

    function Advance(len: nat): Mixer {
      var n := Min(len, live);
      var r := if n == 0 then read else if n == live then 0 else Wrap(read + n, size);
      this.(gone := gone + n, live := live - n, read := r,
            cursor := map s | s in cursor :: if s in attached then Moved(cursor[s], n, r) else cursor[s])
    }

    function Moved(c: Cursor, n: nat, r: nat): Cursor {
      Cursor(Left(c.used, n), Wrap(r + Left(c.used, n), size))
    }
  }

  /** The ring position of the i-th live sample. */
  lemma StepsBack(read: nat, i: nat, size: nat)
    requires (read < size || read == 0) && i < size
    ensures Steps(read, Wrap(read + i, size), size) == i
  {
  }

  // ------------------------------------------------------------------ one write

  lemma AtOneMore(log: seq<Entry>, e: Entry, p: nat)
    ensures At(log + [e], p) == At(log, p) + if e.pos == p then [e.sample] else []
  {
    assert (log + [e])[..|log|] == log;
  }

  /** An attached stream is mixed into live samples only. */
  lemma MixOneKeepsInv(m: Mixer, s: nat, x: Sample)
    requires m.Inv() && s in m.cursor && m.cursor[s].used < if s in m.attached then m.live else m.size
    ensures m.MixOne(s, x).Inv()
  {
    hide At, Mix;
    var w := m.MixOne(s, x);
    var o := Steps(m.read, m.cursor[s].write, m.size);
    forall p: nat | p < m.gone + m.live ensures At(w.log, p) != [] {
      AtOneMore(m.log, Entry(m.gone + o, s, x), p);
    }
  }

  /** One step of a write cursor brings everything in front of it one step nearer. */
  lemma OneStep(write: nat, p: nat, size: nat)
    requires write < size && p < size
    ensures write != p ==> Steps(Wrap(write + 1, size), p, size) == Steps(write, p, size) - 1
    ensures Steps(Wrap(write + 1, size), write, size) == size - 1
    ensures Steps(write, p, size) == 0 <==> write == p
  {
  }

  /** The live sample a write cursor points at is as many steps ahead of the read
      position as the cursor is. */
  lemma PointsAt(read: nat, write: nat, i: nat, size: nat)
    requires read < size && write < size && i < size
    ensures Wrap(read + i, size) == write <==> Steps(read, write, size) == i
  {
  }

  /** Writing at the cursor misses what is far, which stays far. */
  lemma FarOneStep(read: nat, size: nat, c: Cursor, i: nat)
    requires Fits(c, size) && i < size && read < size && c.used < size && Far(read, size, c, i)
    ensures Steps(read, c.write, size) != i
    ensures Far(read, size, Cursor(c.used + 1, Wrap(c.write + 1, size)), i)
  {
    WrapBelow(read, i, size);
    OneStep(c.write, Wrap(read + i, size), size);
    PointsAt(read, c.write, i, size);
  }

  /** The sample just written is nearly a whole turn ahead. */
  lemma FarFromNew(read: nat, size: nat, c: Cursor)
    requires Fits(c, size) && read < size && c.used < size
    ensures var i := Steps(read, c.write, size);
      i < size && Far(read, size, Cursor(c.used + 1, Wrap(c.write + 1, size)), i)
  {
    PointsAt(read, c.write, Steps(read, c.write, size), size);
    OneStep(c.write, c.write, size);
  }

  lemma MixOneKeepsOnce(m: Mixer, s: nat, x: Sample)
    requires m.Inv() && m.Once() && s in m.cursor
    requires m.cursor[s].used < if s in m.attached then m.live else m.size
    ensures m.MixOne(s, x).Inv() && m.MixOne(s, x).Once()
  {
    hide At, Mix, Steps, Wrap, Far, Mixer.Inv;
    MixOneKeepsInv(m, s, x);
    InvGives(m);
    var w, c := m.MixOne(s, x), m.cursor[s];
    forall j | 0 <= j < |m.log| && m.log[j].stream == s && m.gone <= m.log[j].pos
      ensures Far(m.read, m.size, w.cursor[s], m.log[j].pos - m.gone)
      ensures m.log[j].pos - m.gone != Steps(m.read, c.write, m.size)
    {
      FarOneStep(m.read, m.size, c, m.log[j].pos - m.gone);
    }
    FarFromNew(m.read, m.size, c);
  }

  lemma WrapBelow(read: nat, i: nat, size: nat)
    requires (read < size || read == 0) && i < size
    ensures Wrap(read + i, size) < size
  {
  }

  lemma InvGives(m: Mixer)
    requires m.Inv()
    ensures m.live <= m.size && (m.read < m.size || m.read == 0)
    ensures forall s :: s in m.cursor ==> s < m.next && Fits(m.cursor[s], m.size)
    ensures forall s :: s in m.attached ==> s in m.cursor && m.OnRing(m.cursor[s])
    ensures forall j :: 0 <= j < |m.log| ==> m.log[j].stream < m.next && m.log[j].pos < m.gone + m.live
  {
  }

  lemma {:induction false} MixInKeeps(m: Mixer, s: nat, data: seq<Sample>)
    requires m.Inv() && s in m.cursor
    requires m.cursor[s].used + |data| <= if s in m.attached then m.live else m.size
    ensures m.MixIn(s, data).Inv() && (m.Once() ==> m.MixIn(s, data).Once())
    decreases |data|
  {
    hide At, Mix, Mixer.Inv, Mixer.Once, Mixer.MixOne;
    InvGives(m);
    if data != [] {
      var w := m.MixIn(s, data[..|data| - 1]);
      MixInKeeps(m, s, data[..|data| - 1]);
      MixOneKeepsInv(w, s, data[|data| - 1]);
      if m.Once() { MixOneKeepsOnce(w, s, data[|data| - 1]); }
    }
  }

  lemma AppendKeepsInv(m: Mixer, s: nat, data: seq<Sample>)
    requires m.Inv() && s in m.cursor && m.live + |data| <= m.size
    ensures m.Append(s, data).Inv()
  {
    hide At, Mix;
    var w := m.Append(s, data);
    var e := Entries(s, m.gone + m.live, data);
    forall p: nat | p < w.gone + w.live ensures At(w.log, p) != [] {
      AtConcat(m.log, e, p);
      AtEntries(s, m.gone + m.live, data, p);
    }
    assert forall j :: |m.log| <= j < |w.log| ==> w.log[j] == e[j - |m.log|];
  }

  /** From behind the last live sample a cursor has a whole turn to go to any of
      them, less the free positions. */
  lemma FarBehind(read: nat, live: nat, i: nat, size: nat)
    requires read < size && i < live <= size
    ensures Far(read, size, Cursor(live, Wrap(read + live, size)), i)
  {
  }

  lemma AppendKeepsOnce(m: Mixer, s: nat, data: seq<Sample>)
    requires m.Inv() && m.Once() && s in m.cursor && m.live + |data| <= m.size
    ensures m.Append(s, data).Inv() && m.Append(s, data).Once()
  {
    hide At, Mix, Steps, Wrap, Far, Mixer.Inv;
    AppendKeepsInv(m, s, data);
    InvGives(m);
    var w := m.Append(s, data);
    InvGives(w);
    var e := Entries(s, m.gone + m.live, data);
    assert forall j :: |m.log| <= j < |w.log| ==> w.log[j] == e[j - |m.log|];
    forall j | 0 <= j < |w.log| && w.log[j].stream in w.cursor && w.gone <= w.log[j].pos
      ensures Far(w.read, w.size, w.cursor[w.log[j].stream], w.log[j].pos - w.gone)
    {
      if w.log[j].stream == s {
        FarBehind(m.read, w.live, w.log[j].pos - w.gone, m.size);
        assert m.read + w.live == m.read + m.live + |data|;
      } else {
        assert j < |m.log|;
      }
    }
  }

  lemma WriteKeeps(m: Mixer, s: nat, data: seq<Sample>)
    requires m.Inv() && s in m.cursor
    ensures m.Write(s, data).Inv() && (m.Once() ==> m.Write(s, data).Once())
  {
    hide At, Mix, Mixer.Inv, Mixer.Once, Mixer.MixIn, Mixer.Append;
    InvGives(m);
    var n := m.Room(s, |data|);
    var k := m.Mixed(m.cursor[s].used, n);
    MixInKeeps(m, s, data[..k]);
    var w := m.MixIn(s, data[..k]);
    if k < n {
      AppendKeepsInv(w, s, data[k..n]);
      if m.Once() { AppendKeepsOnce(w, s, data[k..n]); }
    }
  }

  // ------------------------------------------------------------ the other steps

  lemma AdvanceKeepsInv(m: Mixer, len: nat)
    requires m.Inv()
    ensures m.Advance(len).Inv()
  {
    hide At, Mix;
  }

  /** Unless the ring starts over, samples and cursors keep their places on it. */
  lemma SamePlace(read: nat, n: nat, i: nat, size: nat)
    requires read < size && n <= i < size
    ensures Wrap(Wrap(read + n, size) + (i - n), size) == Wrap(read + i, size)
  {
  }

  lemma AdvanceKeepsOnce(m: Mixer, len: nat)
    requires m.Inv() && m.Once()
    ensures m.Advance(len).Inv() && m.Advance(len).Once()
  {
    hide At, Mix, Steps, Wrap, Far, Left, Mixer.Inv;
    AdvanceKeepsInv(m, len);
    InvGives(m);
    var w := m.Advance(len);
    InvGives(w);
    forall s, i: nat | s in m.cursor && Min(len, m.live) <= i < m.live && Far(m.read, m.size, m.cursor[s], i)
      ensures Far(w.read, m.size, w.cursor[s], i - Min(len, m.live))
    {
      AdvanceFar(m, len, s, i);
    }
  }

  lemma AdvanceFar(m: Mixer, len: nat, s: nat, i: nat)
    requires m.Inv() && s in m.cursor && Min(len, m.live) <= i < m.live && Far(m.read, m.size, m.cursor[s], i)
    ensures var w := m.Advance(len);
      w.read < m.size && Fits(w.cursor[s], m.size) && Far(w.read, m.size, w.cursor[s], i - Min(len, m.live))
  {
    hide At, Mix, Steps, Wrap, Far, Mixer.Inv;
    AdvanceKeepsInv(m, len);
    InvGives(m);
    InvGives(m.Advance(len));
    var n := Min(len, m.live);
    if 0 < n {
      if s in m.attached {
        MovedFar(m.read, m.size, m.live, m.cursor[s].used, n, i);
      } else {
        StaysFar(m.read, m.size, m.cursor[s], n, i);
      }
    } else if s in m.attached {
      NotMoved(m, s);
    }
  }

  lemma NotMoved(m: Mixer, s: nat)
    requires m.Inv() && s in m.attached
    ensures m.Moved(m.cursor[s], 0, m.read) == m.cursor[s]
  {
  }

  lemma StaysFar(read: nat, size: nat, c: Cursor, n: nat, i: nat)
    requires read < size && n <= i < size && Fits(c, size) && Far(read, size, c, i)
    ensures Far(Wrap(read + n, size), size, c, i - n)
  {
    SamePlace(read, n, i, size);
  }

  /** Also for an attached stream that is overtaken and moves to the new start. */
  lemma MovedFar(read: nat, size: nat, live: nat, used: nat, n: nat, i: nat)
    requires read < size && n <= i < live <= size && used <= live
    requires var c := Cursor(used, Wrap(read + used, size)); Fits(c, size) && Far(read, size, c, i)
    ensures var r, u := Wrap(read + n, size), Left(used, n);
      r < size && Fits(Cursor(u, Wrap(r + u, size)), size) && Far(r, size, Cursor(u, Wrap(r + u, size)), i - n)
  {
    SamePlace(read, n, i, size);
    if used >= n && used < size { SamePlace(read, n, used, size); }
  }

  lemma CreateKeeps(m: Mixer)
    requires m.Inv()
    ensures m.Create().Inv() && (m.Once() ==> m.Create().Once())
  {
    hide At, Mix, Far;
  }

  lemma AttachKeepsInv(m: Mixer, s: nat)
    requires m.Inv() && s in m.cursor && s !in m.attached
    ensures m.Attach(s).Inv()
  {
    hide At, Mix;
  }

  /** A stream that is attached again starts over in front of what it has in the
      buffer. */
  lemma AttachOnceIff(m: Mixer, s: nat)
    requires m.Inv() && m.Once() && s in m.cursor && s !in m.attached
    ensures m.Attach(s).Inv() && (m.Attach(s).Once() <==> m.NoneLive(s))
  {
    hide At, Mix, Steps, Wrap, Mixer.Inv;
    AttachKeepsInv(m, s);
    InvGives(m);
    var w := m.Attach(s);
    forall j | 0 <= j < |m.log| && m.log[j].stream == s && m.gone <= m.log[j].pos
      ensures !Far(w.read, w.size, w.cursor[s], m.log[j].pos - m.gone)
    {
      StepsBack(m.read, m.log[j].pos - m.gone, m.size);
    }
  }

  lemma DetachKeeps(m: Mixer, s: nat)
    requires m.Inv()
    ensures m.Detach(s).Inv() && (m.Once() ==> m.Detach(s).Once())
  {
    hide At, Mix, Far;
  }

  // --------------------------------------------------------------------- runs

  datatype Op = Create | Attach(s: nat) | Detach(s: nat) | Write(s: nat, data: seq<Sample>) | Advance(len: nat)

  /** Every known stream may be written to, attached or not. */
  ghost predicate Enabled(m: Mixer, op: Op) {
    match op
    case Attach(s) => s in m.cursor && s !in m.attached
    case Detach(s) => s in m.attached
    case Write(s, _) => s in m.cursor && Fits(m.cursor[s], m.size) && m.read <= m.size
    case _ => true
  }

  function Do(m: Mixer, op: Op): Mixer
    requires Enabled(m, op)
  {
    match op
    case Create => m.Create()
    case Attach(s) => m.Attach(s)
    case Detach(s) => m.Detach(s)
    case Write(s, data) => m.Write(s, data)
    case Advance(len) => m.Advance(len)
  }

  lemma StepKeepsInv(m: Mixer, op: Op)
    requires m.Inv() && Enabled(m, op)
    ensures Do(m, op).Inv()
  {
    hide At, Mix, Mixer.Inv, Mixer.Once, Mixer.Write, Mixer.Advance, Mixer.Attach, Mixer.Create, Mixer.Detach;
    match op
    case Create => CreateKeeps(m);
    case Attach(s) => AttachKeepsInv(m, s);
    case Detach(s) => DetachKeeps(m, s);
    case Write(s, data) => WriteKeeps(m, s, data);
    case Advance(len) => AdvanceKeepsInv(m, len);
  }

  /** A stream comes back while some of its samples are still in the buffer. */
  ghost predicate Early(m: Mixer, op: Op) {
    op.Attach? && !m.NoneLive(op.s)
  }

  /** Only that lets a stream reach its own samples. */
  lemma StepOnceIff(m: Mixer, op: Op)
    requires m.Inv() && m.Once() && Enabled(m, op)
    ensures Do(m, op).Inv() && (Do(m, op).Once() <==> !Early(m, op))
  {
    hide At, Mix, Mixer.Inv, Mixer.Once, Mixer.Write, Mixer.Advance, Mixer.Attach, Mixer.Create, Mixer.Detach;
    match op
    case Create => CreateKeeps(m);
    case Attach(s) => AttachOnceIff(m, s);
    case Detach(s) => DetachKeeps(m, s);
    case Write(s, data) => WriteKeeps(m, s, data);
    case Advance(len) => AdvanceKeepsOnce(m, len);
  }

  ghost predicate EnabledAll(m: Mixer, ops: seq<Op>)
    decreases |ops|
  {
    ops == [] || (Enabled(m, ops[0]) && EnabledAll(Do(m, ops[0]), ops[1..]))
  }

  function DoAll(m: Mixer, ops: seq<Op>): Mixer
    requires EnabledAll(m, ops)
    decreases |ops|
  {
    if ops == [] then m else DoAll(Do(m, ops[0]), ops[1..])
  }

  /** Over every run of attachments, detachments, reads, and writes of attached or
      detached streams: the cursors of attached streams lie on the ring, and every
      live position has some sample. */
  lemma {:induction false} RunKeepsInv(m: Mixer, ops: seq<Op>)
    requires m.Inv() && EnabledAll(m, ops)
    ensures DoAll(m, ops).Inv()
    decreases |ops|
  {
    hide Do, Enabled, Mixer.Inv;
    if ops != [] {
      StepKeepsInv(m, ops[0]);
      RunKeepsInv(Do(m, ops[0]), ops[1..]);
    }
  }

  function Empty(size: nat): (m: Mixer)
    ensures m.Inv() && m.Once()
  {
    Mixer(size, 0, 0, 0, [], map[], {}, 0)
  }
}
