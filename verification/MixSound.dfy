/** What a listener hears of the writes to the mix buffer, by attached streams and
    by streams whose cursors have been left behind. */
module MixSounds {
  import opened Basics
  import opened RingBuffers
  import opened Mixing

  /** Which sample of a write that starts at `write` the i-th live position gets. */
  function Hit(read: nat, size: nat, write: nat, i: nat): nat
    requires (read < size || read == 0) && i < size && (write < size || write == 0)
  {
    WrapBelow(read, i, size);
    Steps(write, Wrap(read + i, size), size)
  }

  lemma HitIs(read: nat, size: nat, write: nat, k: nat, i: nat)
    requires read < size && i < size && write < size && k < size
    ensures Wrap(write + k, size) < size
    ensures Steps(read, Wrap(write + k, size), size) == i <==> Hit(read, size, write, i) == k
  {
  }

  lemma {:induction false} MixInAt(m: Mixer, s: nat, data: seq<Sample>, i: nat)
    requires m.Inv() && s in m.cursor && m.cursor[s].used + |data| <= m.size && i < m.live
    ensures var j := Hit(m.read, m.size, m.cursor[s].write, i);
      At(m.MixIn(s, data).log, m.gone + i) == At(m.log, m.gone + i) + if j < |data| then [data[j]] else []
    decreases |data|
  {
    hide At, Mix, Mixer.Inv, Steps, Wrap, Hit;
    InvGives(m);
    if data != [] {
      var k, c := |data| - 1, m.cursor[s];
      var w := m.MixIn(s, data[..k]);
      MixInAt(m, s, data[..k], i);
      HitIs(m.read, m.size, c.write, k, i);
      var o := Steps(m.read, Wrap(c.write + k, m.size), m.size);
      AtOneMore(w.log, Entry(m.gone + o, s, data[k]), m.gone + i);
    }
  }

  /** Samples mixed into the buffer from ring position `write` on; those that fall
      on free positions are lost. */
  function Over(before: seq<Sample>, read: nat, size: nat, write: nat, data: seq<Sample>): (r: seq<Sample>)
    requires (read < size || read == 0) && |before| <= size && (write < size || write == 0)
    ensures |r| == |before|
  {
    seq(|before|, i requires 0 <= i < |before| <= size =>
      if Hit(read, size, write, i) < |data| then SaturatedAdd(before[i], data[Hit(read, size, write, i)])
      else before[i])
  }

  lemma OverNothing(before: seq<Sample>, read: nat, size: nat, write: nat)
    requires (read < size || read == 0) && |before| <= size && (write < size || write == 0)
    ensures Over(before, read, size, write, []) == before
  {
  }

  /** How far a write moves the cursors. */
  lemma WriteMoves(m: Mixer, s: nat, data: seq<Sample>)
    requires m.Inv() && s in m.cursor
    ensures var c, w := m.cursor[s], m.Write(s, data);
      var n := m.Room(s, |data|);
      var k := if c.used <= m.live then Min(n, m.live - c.used) else n;
      && w.live == m.live + n - k && k <= n
      && w.attached == m.attached && w.size == m.size && w.read == m.read
      && w.cursor == m.cursor[s := if k < n then Cursor(w.live, Wrap(m.read + w.live, m.size))
                                   else Cursor(c.used + n, Wrap(c.write + n, m.size))]
  {
    hide At, Mix, Mixer.Inv, Wrap;
    InvGives(m);
  }

  /** What any write of a stream, attached or not, does to what is heard: `k`
      samples are mixed in where its write cursor stands, the others go behind the
      last live sample and take the cursors with them. */
  lemma WriteSound(m: Mixer, s: nat, data: seq<Sample>)
    requires m.Inv() && s in m.cursor
    ensures var n := m.Room(s, |data|);
      var u := m.cursor[s].used;
      var k := if u <= m.live then Min(n, m.live - u) else n;
      && (m.read < m.size || m.read == 0) && m.live <= m.size && Fits(m.cursor[s], m.size) && k <= n <= |data|
      && m.Write(s, data).Sound() == Over(m.Sound(), m.read, m.size, m.cursor[s].write, data[..k]) + data[k..n]
  {
    hide At, Mix, Mixer.Inv, Mixer.MixIn, Mixer.Append, Mixer.Sound, Over;
    InvGives(m);
    var n := m.Room(s, |data|);
    var k := m.Mixed(m.cursor[s].used, n);
    var mixed := m.MixIn(s, data[..k]);
    MixInSound(m, s, data[..k]);
    MixInKeeps(m, s, data[..k]);
    if k < n {
      AppendSound(mixed, s, data[k..n]);
    } else {
      assert mixed.Sound() + data[k..n] == mixed.Sound();
    }
  }

  lemma MixInSound(m: Mixer, s: nat, data: seq<Sample>)
    requires m.Inv() && s in m.cursor && m.cursor[s].used + |data| <= m.size
    ensures Fits(m.cursor[s], m.size) && m.live <= m.size && (m.read < m.size || m.read == 0)
    ensures m.MixIn(s, data).Sound() == Over(m.Sound(), m.read, m.size, m.cursor[s].write, data)
  {
    hide At, Mix, Mixer.Inv, Mixer.MixIn, Mixer.Sound, Over;
    InvGives(m);
    forall i | 0 <= i < m.live
      ensures m.MixIn(s, data).Sound()[i] == Over(m.Sound(), m.read, m.size, m.cursor[s].write, data)[i]
    {
      MixInSoundAt(m, s, data, i);
    }
  }

  lemma MixInSoundAt(m: Mixer, s: nat, data: seq<Sample>, i: nat)
    requires m.Inv() && s in m.cursor && m.cursor[s].used + |data| <= m.size && i < m.live
    ensures Fits(m.cursor[s], m.size) && m.live <= m.size && (m.read < m.size || m.read == 0)
    ensures m.MixIn(s, data).Sound()[i] == Over(m.Sound(), m.read, m.size, m.cursor[s].write, data)[i]
  {
    hide At, Mix, Mixer.Inv, Mixer.MixIn, Mixer.Sound, Over, Steps, Wrap, Hit, SaturatedAdd;
    InvGives(m);
    MixInAt(m, s, data, i);
    SomeAt(m, m.gone + i);
    SoundAt(m, i);
    SoundAt(m.MixIn(s, data), i);
    OverAt(m.Sound(), m.read, m.size, m.cursor[s].write, data, i);
    MixMore(At(m.log, m.gone + i), data, Hit(m.read, m.size, m.cursor[s].write, i));
  }

  lemma MixMore(c: seq<Sample>, data: seq<Sample>, j: nat)
    requires c != []
    ensures Mix(c + if j < |data| then [data[j]] else []) ==
      if j < |data| then SaturatedAdd(Mix(c), data[j]) else Mix(c)
  {
    hide Mix;
    if j < |data| { MixOneMore(c, data[j]); } else { assert c + [] == c; }
  }

  lemma SoundAt(m: Mixer, i: nat)
    requires i < m.live
    ensures m.Sound()[i] == Mix(At(m.log, m.gone + i))
  {
  }

  lemma OverAt(before: seq<Sample>, read: nat, size: nat, write: nat, data: seq<Sample>, i: nat)
    requires (read < size || read == 0) && |before| <= size && (write < size || write == 0) && i < |before|
    ensures var j := Hit(read, size, write, i);
      Over(before, read, size, write, data)[i] == if j < |data| then SaturatedAdd(before[i], data[j]) else before[i]
  {
  }

  lemma AppendSound(m: Mixer, s: nat, data: seq<Sample>)
    requires m.Inv() && m.live + |data| <= m.size
    ensures m.Append(s, data).Sound() == m.Sound() + data
  {
    hide At, Mix, Mixer.Inv;
    InvGives(m);
    var w := m.Append(s, data);
    forall i | 0 <= i < w.live ensures w.Sound()[i] == (m.Sound() + data)[i] {
      var p := m.gone + i;
      AtConcat(m.log, Entries(s, m.gone + m.live, data), p);
      AtEntries(s, m.gone + m.live, data, p);
      if i < m.live {
        assert At(m.log, p) + [] == At(m.log, p);
      } else {
        AtNothing(m.log, p);
        OneAt(data[i - m.live]);
      }
    }
  }

  lemma OneAt(x: Sample)
    ensures Mix([] + [x]) == x
  {
    assert [] + [x] == [x];
  }

  lemma SomeAt(m: Mixer, p: nat)
    requires m.Inv() && p < m.gone + m.live
    ensures At(m.log, p) != []
  {
  }

  /** Attaching, detaching and creating streams is silent. */
  lemma ListSound(m: Mixer, s: nat)
    requires m.Inv()
    ensures m.next !in m.cursor
    ensures m.Create().Sound() == m.Sound() && m.Attach(s).Sound() == m.Sound() && m.Detach(s).Sound() == m.Sound()
  {
    hide At, Mix;
  }

  /** Reading removes the oldest samples; the cursors of attached streams follow,
      those of the others stay. */
  lemma AdvanceSound(m: Mixer, len: nat)
    requires m.Inv()
    ensures var w := m.Advance(len);
      && w.Sound() == m.Sound()[Min(len, m.live)..]
      && w.size == m.size && w.live == m.live - Min(len, m.live)
      && w.read == (if len == 0 || m.live == 0 then m.read
                    else if w.live == 0 then 0 else Wrap(m.read + Min(len, m.live), m.size))
      && w.attached == m.attached && w.cursor.Keys == m.cursor.Keys
      && (forall s :: s in m.attached ==> w.cursor[s].used == Left(m.cursor[s].used, len) && w.OnRing(w.cursor[s]))
      && (forall s :: s in m.cursor && s !in m.attached ==> w.cursor[s] == m.cursor[s])
  {
    hide At, Mix;
    AdvanceKeepsInv(m, len);
  }

  // ------------------------------------------------------------ where it is heard

  lemma {:induction false} AlignedLog(m: Mixer, s: nat, data: seq<Sample>)
    requires m.Inv() && s in m.cursor && m.OnRing(m.cursor[s]) && m.cursor[s].used + |data| <= m.live
    ensures m.MixIn(s, data).log == m.log + Entries(s, m.gone + m.cursor[s].used, data)
    decreases |data|
  {
    hide At, Mix;
    if data != [] {
      var d, k := data[..|data| - 1], m.cursor[s].used + |data| - 1;
      AlignedLog(m, s, d);
      SamePoint(m.read, m.cursor[s].used, |d|, m.size);
      StepsBack(m.read, k, m.size);
      assert Entries(s, m.gone + m.cursor[s].used, data) ==
        Entries(s, m.gone + m.cursor[s].used, d) + [Entry(m.gone + k, s, data[|d|])];
    }
  }

  lemma SamePoint(read: nat, u: nat, n: nat, size: nat)
    requires read < size && u + n < size
    ensures Wrap(Wrap(read + u, size) + n, size) == Wrap(read + u + n, size)
  {
  }

  /** The first mixed sample makes its entry first, if at all. */
  lemma {:induction false} FirstEntry(m: Mixer, s: nat, data: seq<Sample>)
    requires m.Inv() && s in m.cursor && m.cursor[s].used + |data| <= m.size && data != []
    ensures var o, log := Steps(m.read, m.cursor[s].write, m.size), m.MixIn(s, data).log;
      && |m.log| <= |log| <= |m.log| + |data|
      && (o < m.live ==> |log| > |m.log| && log[|m.log|] == Entry(m.gone + o, s, data[0]))
      && (o >= m.live ==> |log| < |m.log| + |data|)
    decreases |data|
  {
    hide At, Mix, Steps, Wrap;
    if |data| > 1 {
      FirstEntry(m, s, data[..|data| - 1]);
    } else {
      assert data[..0] == [];
    }
  }

  /** The samples a write accepts are heard one after the other, where the used count
      of the stream says. */
  predicate InRow(m: Mixer, s: nat, data: seq<Sample>)
    requires s in m.cursor && Fits(m.cursor[s], m.size) && m.read <= m.size
  {
    m.Write(s, data).log == m.log + Entries(s, m.gone + m.cursor[s].used, data[..m.Room(s, |data|)])
  }

  /** Moreover, they are heard later than all that the stream wrote before. */
  ghost predicate InPlace(m: Mixer, s: nat, data: seq<Sample>)
    requires s in m.cursor && Fits(m.cursor[s], m.size) && m.read <= m.size
  {
    && InRow(m, s, data)
    && forall j, k :: 0 <= j < |m.log| <= k < |m.Write(s, data).log| && m.log[j].stream == s ==>
         m.log[j].pos < m.Write(s, data).log[k].pos
  }

  /** This holds exactly when the stream stands behind the last live sample, or at
      the live sample its used count says, and has nothing buffered from there on.
      An attached stream stands there; that it has nothing buffered from there on is
      in doubt only when it came back early. */
  lemma InPlaceIff(m: Mixer, s: nat, data: seq<Sample>)
    requires m.Inv() && s in m.cursor
    ensures Fits(m.cursor[s], m.size) && m.read <= m.size
    ensures InPlace(m, s, data) <==> m.Room(s, |data|) == 0 || (m.Aligned(m.cursor[s]) && m.Behind(s))
    ensures s in m.attached ==> m.Aligned(m.cursor[s])
    ensures m.Once() && m.Aligned(m.cursor[s]) ==> m.Behind(s)
    ensures s !in m.attached ==> (m.Attach(s).Behind(s) <==> m.NoneLive(s))
  {
    hide At, Mix, Mixer.Inv, Mixer.Once, Mixer.Write, InRow;
    InvGives(m);
    InRowIff(m, s, data);
    if InRow(m, s, data) { LaterIff(m, s, data); }
    if m.Once() && m.Aligned(m.cursor[s]) { OnceIsBehind(m, s); }
  }

  lemma LaterIff(m: Mixer, s: nat, data: seq<Sample>)
    requires m.Inv() && s in m.cursor && Fits(m.cursor[s], m.size) && m.read <= m.size && InRow(m, s, data)
    ensures InPlace(m, s, data) <==> m.Room(s, |data|) == 0 || m.Behind(s)
  {
    hide At, Mix, Mixer.Inv, Mixer.Write;
    var n, start, w := m.Room(s, |data|), m.gone + m.cursor[s].used, m.Write(s, data).log;
    var e := Entries(s, start, data[..n]);
    assert forall k :: |m.log| <= k < |w| ==> w[k] == e[k - |m.log|];
    if n > 0 { assert w[|m.log|].pos == start; }
  }

  lemma OnceIsBehind(m: Mixer, s: nat)
    requires m.Inv() && m.Once() && s in m.cursor && m.Aligned(m.cursor[s])
    ensures m.Behind(s)
  {
    hide At, Mix, Mixer.Inv;
    InvGives(m);
  }

  lemma InRowIff(m: Mixer, s: nat, data: seq<Sample>)
    requires m.Inv() && s in m.cursor
    ensures Fits(m.cursor[s], m.size) && m.read <= m.size
    ensures InRow(m, s, data) <==> m.Room(s, |data|) == 0 || m.Aligned(m.cursor[s])
    ensures s in m.attached ==> m.Aligned(m.cursor[s])
  {
    hide At, Mix, Mixer.Inv, Mixer.MixIn, Steps, Wrap;
    InvGives(m);
    var c, n := m.cursor[s], m.Room(s, |data|);
    if n > 0 {
      if m.Aligned(c) {
        InPlaceAligned(m, s, data);
      } else if c.used < m.live {
        OutOfPlace(m, s, data);
      } else {
        TooFar(m, s, data);
      }
    } else {
      NothingMixed(m, s);
    }
  }

  lemma NothingMixed(m: Mixer, s: nat)
    requires m.Inv() && s in m.cursor
    ensures m.MixIn(s, []).log == m.log && m.MixIn(s, []).live == m.live
    ensures forall start :: m.log + Entries(s, start, []) == m.log
  {
  }

  lemma InPlaceAligned(m: Mixer, s: nat, data: seq<Sample>)
    requires m.Inv() && s in m.cursor && m.Aligned(m.cursor[s])
    ensures InRow(m, s, data)
  {
    hide At, Mix, Mixer.MixIn, Steps, Wrap;
    var c, n := m.cursor[s], m.Room(s, |data|);
    var k := m.Mixed(c.used, n);
    if k == 0 { NothingMixed(m, s); } else { AlignedLog(m, s, data[..k]); }
    assert data[..n] == data[..k] + data[k..n];
    EntriesSplit(s, m.gone + c.used, data[..k], data[k..n]);
    NothingMixed(m, s);
  }

  lemma EntriesSplit(s: nat, start: nat, a: seq<Sample>, b: seq<Sample>)
    ensures Entries(s, start, a + b) == Entries(s, start, a) + Entries(s, start + |a|, b)
  {
  }

  lemma OutOfPlace(m: Mixer, s: nat, data: seq<Sample>)
    requires m.Inv() && s in m.cursor && m.cursor[s].used < m.live && !m.OnRing(m.cursor[s]) && m.Room(s, |data|) > 0
    ensures !InRow(m, s, data)
  {
    hide At, Mix, Mixer.MixIn, Steps, Wrap;
    var c, n := m.cursor[s], m.Room(s, |data|);
    var k := m.Mixed(c.used, n);
    FirstEntry(m, s, data[..k]);
    PointsAt(m.read, c.write, c.used, m.size);
    var e := Entries(s, m.gone + c.used, data[..n]);
    assert (m.log + e)[|m.log|] == e[0];
  }

  lemma TooFar(m: Mixer, s: nat, data: seq<Sample>)
    requires m.Inv() && s in m.cursor && m.live < m.cursor[s].used && m.Room(s, |data|) > 0
    ensures !InRow(m, s, data)
  {
    hide At, Mix, Mixer.Inv, Mixer.MixIn, Steps, Wrap;
    InvGives(m);
    WriteKeeps(m, s, data);
    var w, n := m.Write(s, data), m.Room(s, |data|);
    InvGives(w);
    var e := Entries(s, m.gone + m.cursor[s].used, data[..n]);
    assert (m.log + e)[|m.log|] == e[0];
  }
}
