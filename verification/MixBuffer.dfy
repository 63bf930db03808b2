/** The mix buffer of src/mixbuffer.c: one ring of samples, into which every
    stream writes with cursors of its own. Lengths count samples. */
module MixBuffers {
  import opened Basics
  import RB = RingBuffers
  import opened Mixing
  import opened MixSounds

  /** Values of size_t are below this. */
  const SIZE_LIMIT := 0x1_0000_0000_0000_0000

  /** struct mixstream */
  class MixStream {
    var used: nat
    var write: nat
    /** The number the mixer knows it by. */
    ghost const id: nat

    constructor (ghost id: nat)
      ensures used == 0 && write == 0 && this.id == id
    {
      used, write := 0, 0;
      this.id := id;
    }
  }

  /** A write at ring position `write`, seen in reading order. */
  lemma WrittenOver(was: seq<Sample>, read: nat, used: nat, write: nat, data: seq<Sample>)
    requires read < |was| && write < |was| && used <= |was| && |data| <= |was|
    ensures RB.Rotate(RB.Written(SaturatedAdd, was, write, data), read)[..used] ==
            Over(RB.Rotate(was, read)[..used], read, |was|, write, data)
  {
    hide RB.Rotate, RB.Written, SaturatedAdd;
    var after := RB.Rotate(RB.Written(SaturatedAdd, was, write, data), read);
    forall i | 0 <= i < used
      ensures after[i] == Over(RB.Rotate(was, read)[..used], read, |was|, write, data)[i]
    {
      assert after[i] == RB.Written(SaturatedAdd, was, write, data)[RB.Wrap(read + i, |was|)];
    }
  }

  /** The unsigned difference of the used counts says how much is to be mixed. */
  lemma UnsignedDifference(used: nat, mine: nat, len: nat, size: nat)
    requires used <= size && mine + len <= size < SIZE_LIMIT
    ensures var d := (used - mine) % SIZE_LIMIT;
      var k := if mine <= used then Min(len, used - mine) else len;
      d >= 0 && (len > d <==> k < len) && (k < len ==> d == k)
  {
  }

  lemma CutAgain(data: seq<Sample>, k: nat, n: nat)
    requires k <= n <= |data|
    ensures data[..n][..k] == data[..k] && data[..n][k..] == data[k..n]
  {
  }

  class MixBuffer {
    const rb: RB.Ring<Sample>
    var streams: seq<MixStream>
    var attached: nat
    /** The streams of all calls, attached or not. */
    ghost var known: set<MixStream>
    /** What has been written so far. */
    ghost var m: Mixer

    /** The mixer w knows the cursors of every stream, and who is attached. */
    ghost predicate Streams(w: Mixer)
      reads this`streams, this`known, known
    {
      && Listed()
      && (forall s :: s in known ==> Knows(w, s))
      && (forall s, t :: s in known && t in known && s.id == t.id ==> s == t)
    }

    ghost predicate Listed()
      reads this`streams, this`known
    {
      Distinct(streams) && forall i :: 0 <= i < |streams| ==> streams[i] in known
    }

    ghost predicate Knows(w: Mixer, s: MixStream)
      reads this`streams, s
    {
      s.id in w.cursor && w.cursor[s.id] == Cursor(s.used, s.write) && (s.id in w.attached <==> s in streams)
    }

    ghost predicate Buffer(w: Mixer)
      reads rb, rb.buf
    {
      && rb.Valid() && rb.write == RB.Wrap(rb.read + rb.used, rb.buf.Length) && rb.buf.Length < SIZE_LIMIT
      && w.Inv() && w.size == rb.buf.Length && w.read == rb.read && w.live == rb.used
      && rb.Contents() == w.Sound()
    }

    ghost predicate Valid()
      reads this, rb, rb.buf, known
    {
      attached == |streams| && Streams(m) && Buffer(m)
    }

    /** All about the streams but one. */
    ghost predicate Others(stream: MixStream, id: nat)
      reads this`streams, this`known, this`m, known - {stream}
    {
      && Listed()
      && (forall s :: s in known - {stream} ==> Knows(m, s) && s.id != id)
      && (forall s, t :: s in known - {stream} && t in known - {stream} && s.id == t.id ==> s == t)
    }

    lemma OthersOf(stream: MixStream)
      requires Streams(m) && stream in known
      ensures Others(stream, stream.id) && Knows(m, stream)
    {
    }

    lemma WithOthers(stream: MixStream, w: Mixer)
      requires Others(stream, stream.id) && stream in known && Knows(w, stream)
      requires w.attached == m.attached && w.cursor == m.cursor[stream.id := Cursor(stream.used, stream.write)]
      ensures Streams(w)
    {
      forall s | s in known ensures Knows(w, s) {
        if s != stream { assert s in known - {stream}; }
      }
    }

    /** mixb_init */
    constructor (buffer: array<Sample>)
      requires buffer.Length < SIZE_LIMIT
      ensures Valid() && m == Empty(buffer.Length) && streams == [] && known == {}
      ensures fresh(rb) && rb.buf == buffer
    {
      rb := new RB.Ring(buffer);
      streams := [];
      attached := 0;
      known := {};
      m := Empty(buffer.Length);
    }

    /** What the mixer knows of a stream. */
    lemma CursorOf(stream: MixStream)
      requires Valid() && stream in known
      ensures stream.id in m.cursor && m.cursor[stream.id] == Cursor(stream.used, stream.write)
      ensures Fits(Cursor(stream.used, stream.write), m.size) && m.read <= m.size
      ensures stream.id in m.attached <==> stream in streams
      ensures stream in streams ==> m.OnRing(Cursor(stream.used, stream.write))
      ensures m.size == rb.buf.Length && m.live == rb.used && m.read == rb.read
      ensures m.live <= m.size && (m.read < m.size || m.read == 0)
      ensures m.Inv()
    {
      hide At, Mix;
    }

    /** mixb_free: what a stream may still write. */
    function Free(s: MixStream): nat
      requires s.used <= rb.buf.Length
      reads rb, s
    {
      rb.buf.Length - s.used
    }

    /** The zeroed stream of a new call. */
    method Create() returns (stream: MixStream)
      requires Valid()
      modifies this`known, this`m
      ensures Valid() && fresh(stream)
      ensures known == old(known) + {stream} && stream !in streams && stream.id == old(m).next
      ensures m == old(m).Create()
    {
      hide Mix, At, Mixer.Inv, Mixer.Sound, RB.Rotate, RB.Ring.Contents;
      InvGives(m);
      CreateKeeps(m);
      ListSound(m, 0);
      stream := new MixStream(m.next);
      known := known + {stream};
      m := m.Create();
    }

    method Attach(stream: MixStream)
      requires Valid() && stream in known && stream !in streams
      modifies this, stream
      ensures Valid() && known == old(known)
      ensures streams == old(streams) + [stream] && attached == old(attached) + 1
      ensures stream.used == 0 && m == old(m).Attach(stream.id)
    {
      hide Mix, At, Mixer.Inv, Mixer.Sound, RB.Rotate, RB.Ring.Contents;
      InvGives(m);
      CursorOf(stream);
      AttachKeepsInv(m, stream.id);
      ListSound(m, stream.id);
      m := m.Attach(stream.id);
      stream.used := 0;
      stream.write := rb.read;
      streams := streams + [stream];
      attached := attached + 1;
    }

    method Detach(stream: MixStream)
      requires Valid() && stream in streams
      modifies this
      ensures Valid() && known == old(known)
      ensures streams == Unlink(old(streams), stream) && stream !in streams
      ensures attached == old(attached) - 1
      ensures m == old(m).Detach(stream.id)
    {
      hide Mix, At, Mixer.Inv, Mixer.Sound, RB.Rotate, RB.Ring.Contents, Unlink;
      Unlinked(streams, stream);
      attached := attached - 1;
      streams := Unlink(streams, stream);
      assert forall i :: 0 <= i < |streams| ==> streams[i] in old(streams);
      DetachKeeps(m, stream.id);
      ListSound(m, stream.id);
      m := m.Detach(stream.id);
    }

    /** mixb_mix_write: rb_write_core runs on the stream's cursors, which are put
        into the ring for the call and taken out again. */
    method MixWrite(stream: MixStream, data: seq<Sample>) returns (n: nat)
      requires rb.Valid() && Fits(Cursor(stream.used, stream.write), rb.buf.Length)
      modifies rb, rb.buf, stream
      ensures rb.Valid() && rb.read == old(rb.read) && rb.used == old(rb.used) && rb.write == old(rb.write)
      ensures n == Min(|data|, rb.buf.Length - old(stream.used))
      ensures stream.used == old(stream.used) + n
      ensures stream.write == if n == 0 then old(stream.write) else RB.Wrap(old(stream.write) + n, rb.buf.Length)
      ensures rb.buf[..] == RB.Written(SaturatedAdd, old(rb.buf[..]), old(stream.write), data[..n])
    {
      hide RB.Rotate, RB.Overlay, RB.Written;
      var saveWrite, saveUsed := rb.write, rb.used;
      rb.write := stream.write;
      rb.used := stream.used;
      n := rb.WriteCore(data, SaturatedAdd);
      stream.write := rb.write;
      stream.used := rb.used;
      rb.used := saveUsed;
      rb.write := saveWrite;
    }

    method MixInto(stream: MixStream, data: seq<Sample>)
      requires rb.Valid() && stream.write < rb.buf.Length && stream.used + |data| <= rb.buf.Length && data != []
      modifies rb, rb.buf, stream
      ensures rb.Valid() && rb.read == old(rb.read) && rb.used == old(rb.used) && rb.write == old(rb.write)
      ensures stream.used == old(stream.used) + |data|
      ensures stream.write == RB.Wrap(old(stream.write) + |data|, rb.buf.Length)
      ensures rb.Contents() == Over(old(rb.Contents()), rb.read, rb.buf.Length, old(stream.write), data)
    {
      hide RB.Rotate, RB.Written, SaturatedAdd, Over;
      var n := MixWrite(stream, data);
      assert data[..n] == data;
      WrittenOver(old(rb.buf[..]), rb.read, rb.used, old(stream.write), data);
    }

    method Append(stream: MixStream, data: seq<Sample>)
      requires rb.Valid() && rb.used + |data| <= rb.buf.Length && data != []
      modifies rb, rb.buf, stream
      ensures rb.Valid() && rb.read == old(rb.read) && rb.used == old(rb.used) + |data|
      ensures rb.write == RB.Wrap(rb.read + rb.used, rb.buf.Length)
      ensures stream.used == rb.used && stream.write == rb.write
      ensures rb.Contents() == old(rb.Contents()) + data
    {
      hide RB.Ring.Contents;
      var n := rb.Write(data);
      assert data[..n] == data;
      stream.write := rb.write;
      stream.used := rb.used;
    }

    /** The branches of mixb_write. The difference of the used counts is one of
        unsigned numbers. */
    method Lay(stream: MixStream, data: seq<Sample>, ghost k: nat)
      requires rb.Valid() && rb.write == RB.Wrap(rb.read + rb.used, rb.buf.Length) && rb.buf.Length < SIZE_LIMIT
      requires Fits(Cursor(stream.used, stream.write), rb.buf.Length) && stream.used + |data| <= rb.buf.Length
      requires k == if stream.used <= rb.used then Min(|data|, rb.used - stream.used) else |data|
      modifies rb, rb.buf, stream
      ensures rb.Valid() && rb.read == old(rb.read) && rb.write == RB.Wrap(rb.read + rb.used, rb.buf.Length)
      ensures rb.used == old(rb.used) + |data| - k
      ensures Cursor(stream.used, stream.write) == if k < |data| then Cursor(rb.used, rb.write)
        else Cursor(old(stream.used) + |data|, RB.Wrap(old(stream.write) + |data|, rb.buf.Length))
      ensures rb.Contents() ==
        Over(old(rb.Contents()), rb.read, rb.buf.Length, old(stream.write), data[..k]) + data[k..]
    {
      hide RB.Ring.Contents, RB.Ring.Rotated, Over;
      OverNothing(rb.Contents(), rb.read, rb.buf.Length, stream.write);
      UnsignedDifference(rb.used, stream.used, |data|, rb.buf.Length);
      if |data| > 0 {
        var maxMix := (rb.used - stream.used) % SIZE_LIMIT;
        if |data| > maxMix {
          assert maxMix == k;
          if maxMix != 0 {
            MixInto(stream, data[..maxMix]);
          }
          Append(stream, data[maxMix..]);
        } else {
          MixInto(stream, data);
          assert data[..k] == data && data[k..] == [];
        }
      }
    }

    /** The ring and the cursors of a write are those of the mixer's write. */
    method WriteRing(stream: MixStream, data: seq<Sample>) returns (n: nat)
      requires Buffer(m) && Knows(m, stream) && Fits(Cursor(stream.used, stream.write), m.size) && m.read <= m.size
      modifies rb, rb.buf, stream
      ensures n == Min(|data|, rb.buf.Length - old(stream.used))
      ensures var w := m.Write(stream.id, data);
        Buffer(w) && w.attached == m.attached && w.cursor == m.cursor[stream.id := Cursor(stream.used, stream.write)]
    {
      hide Mix, At, Mixer.Inv, Mixer.Sound, Mixer.Write, RB.Ring.Valid, RB.Ring.Contents, Over, RB.Wrap;
      n := if Free(stream) < |data| then Free(stream) else |data|;
      ghost var k := m.Mixed(stream.used, n);
      WriteKeeps(m, stream.id, data);
      WriteMoves(m, stream.id, data);
      WriteSound(m, stream.id, data);
      CutAgain(data, k, n);
      Lay(stream, data[..n], k);
    }

    /** mixb_write, also for a stream that is not attached: mixes into what is
        there from the write cursor on, then appends the rest. */
    method Write(stream: MixStream, data: seq<Sample>) returns (n: nat)
      requires Valid() && stream in known
      modifies this`m, rb, rb.buf, stream
      ensures Valid()
      ensures n == Min(|data|, old(Free(stream)))
      ensures stream.id in old(m).cursor && Fits(old(m).cursor[stream.id], old(m).size) && old(m).read <= old(m).size
      ensures m == old(m).Write(stream.id, data)
    {
      hide Mix, At, Mixer.Inv, Mixer.Sound, Mixer.Write, RB.Ring.Valid, RB.Ring.Contents, Streams, Others, Buffer;
      CursorOf(stream);
      OthersOf(stream);
      n := WriteRing(stream, data);
      WithOthers(stream, m.Write(stream.id, data));
      m := m.Write(stream.id, data);
    }

    method MoveCursor(s: MixStream, len: nat)
      modifies s
      ensures Followed(s, old(s.used), len)
    {
      s.used := if s.used > len then s.used - len else 0;
      s.write := rb.read + s.used;
      if s.write >= rb.buf.Length {
        s.write := s.write - rb.buf.Length;
      }
    }

    lemma BufferInv()
      requires Buffer(m)
      ensures m.Inv()
    {
    }

    /** The traversal of mixb_read_upd. */
    method MoveCursors(len: nat)
      requires Listed()
      modifies streams
      ensures forall i :: 0 <= i < |streams| ==> Followed(streams[i], old(streams[i].used), len)
    {
      hide Followed;
      for k := 0 to |streams|
        invariant forall i :: 0 <= i < k ==> Followed(streams[i], old(streams[i].used), len)
        invariant forall i :: k <= i < |streams| ==>
          streams[i].used == old(streams[i].used)
      {
        MoveCursor(streams[k], len);
      }
    }

    /** An attached stream after `len` samples have been read. */
    ghost predicate Followed(s: MixStream, used: nat, len: nat)
      reads rb, s
    {
      && s.used == Left(used, len)
      && (s.used <= rb.used <= rb.buf.Length && rb.Valid() ==> s.write == RB.Wrap(rb.read + s.used, rb.buf.Length))
    }

    /** The ring's part of mixb_read_upd. */
    method ReadRing(len: nat) returns (n: nat)
      requires Buffer(m)
      modifies rb
      ensures Buffer(m.Advance(len)) && n == Min(len, old(rb.used))
    {
      hide Mix, At, Mixer.Inv, Mixer.Sound, Mixer.Advance, RB.Ring.Contents, Left;
      InvGives(m);
      AdvanceKeepsInv(m, len);
      AdvanceSound(m, len);
      n := rb.ReadUpd(len);
    }

    lemma StillKnown(s: MixStream, len: nat, used: nat)
      requires Buffer(m.Advance(len)) && m.Inv() && s.id in m.cursor && (s.id in m.attached <==> s in streams)
      requires used == m.cursor[s.id].used
      requires if s in streams then Followed(s, used, len) else m.cursor[s.id] == Cursor(s.used, s.write)
      ensures Knows(m.Advance(len), s)
    {
      hide Mix, At, Mixer.Inv, Mixer.Sound, Mixer.Advance, RB.Ring.Contents, Left;
      AdvanceSound(m, len);
    }

    /** mixb_read_upd: the oldest samples leave; the cursors of attached streams
        follow, those of the others do not. */
    method ReadUpd(len: nat) returns (n: nat)
      requires Valid()
      modifies this`m, rb, streams
      ensures Valid()
      ensures n == Min(len, old(rb.used))
      ensures m == old(m).Advance(len)
      ensures forall s :: s in known && s !in streams ==> s.used == old(s.used)
    {
      hide Buffer, Mixer.Inv, Mixer.Advance, RB.Wrap, RB.Ring.Valid, Followed;
      assert m.Inv() by { BufferInv(); }
      n := ReadRing(len);
      MoveCursors(len);
      forall s | s in known
        ensures Knows(m.Advance(len), s) && (s !in streams ==> s.used == old(s.used))
      {
        assert old(Knows(m, s));
        StillKnown(s, len, old(s.used));
      }
      m := m.Advance(len);
    }
  }
}
