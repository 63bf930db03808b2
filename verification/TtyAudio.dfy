/** Outgoing audio of a multiparty call over the serial port (src/channel.c):
    frames of the channels go into the mix buffer, timer ticks take frames out.
    Every call with a channel writes, also one that is held or still waiting, whose
    stream is not attached. */
module TtyAudios {
  import opened Basics
  import RB = RingBuffers
  import opened Mixing
  import opened MixSounds
  import opened MixBuffers

  /** A sample that went out, with its position. */
  datatype Out = Out(pos: nat, sample: Sample)

  /** The mixer, what has gone out, how many samples overflows really dropped,
      and what the statistics counter claims. */
  datatype Audio = Audio(m: Mixer, sent: seq<Out>, dropped: nat, counted: nat) {

    ghost predicate Inv() {
      && m.Inv()
      && |sent| + dropped == m.gone
      && counted >= dropped
      && (forall j :: 0 <= j < |sent| ==> sent[j].pos < m.gone && sent[j].sample == Mix(At(m.log, sent[j].pos)))
      && (forall j, k :: 0 <= j < k < |sent| ==> sent[j].pos < sent[k].pos)
    }

    /** How far a frame of `len` samples exceeds the room of stream s. */
    function Excess(s: nat, len: nat): nat
      requires s in m.cursor && Fits(m.cursor[s], m.size)
    {
      len - Min(len, m.size - m.cursor[s].used)
    }

    /** The buffer once the oldest samples have made room for a frame. */
    function Roomy(s: nat, len: nat): (r: Mixer)
      requires m.Inv() && s in m.cursor
      ensures r.Inv() && s in r.cursor && Fits(r.cursor[s], r.size) && r.read <= r.size
    {
      InvGives(m);
      AdvanceKeepsInv(m, Excess(s, len));
      InvGives(m.Advance(Excess(s, len)));
      m.Advance(Excess(s, len))
    }

    /** channel_write_tty: make room by dropping the oldest samples, then mix. */
    function WriteFrame(s: nat, data: seq<Sample>): Audio
      requires m.Inv() && s in m.cursor
    {
      InvGives(m);
      var over := Excess(s, |data|);
      this.(m := Roomy(s, |data|).Write(s, data), dropped := dropped + Min(over, m.live), counted := counted + over)
    }

    /** The frame of one timer tick. */
    function Frame(frameSize: nat): (f: seq<Sample>)
      ensures |f| == frameSize
    {
      var n := Min(frameSize, m.live);
      m.Sound()[..n] + seq<Sample>(frameSize - n, _ => 0)
    }

    /** timing_write_tty */
    function Tick(frameSize: nat): Audio {
      var n := Min(frameSize, m.live);
      this.(m := m.Advance(n),
            sent := sent + seq(n, i requires 0 <= i < n && n <= m.live => Out(m.gone + i, m.Sound()[i])))
    }
  }

  /** A call begins, its stream is attached or detached, or a channel or the timer runs. */
  datatype Event = Call | Activate(s: nat) | Hold(s: nat) | Frame(s: nat, data: seq<Sample>) | Tick(frameSize: nat)

  ghost predicate Enabled(a: Audio, e: Event) {
    match e
    case Activate(s) => s in a.m.cursor && s !in a.m.attached
    case Hold(s) => s in a.m.attached
    case Frame(s, _) => s in a.m.cursor
    case _ => true
  }

  function Do(a: Audio, e: Event): Audio
    requires a.m.Inv() && Enabled(a, e)
  {
    match e
    case Call => a.(m := a.m.Create())
    case Activate(s) => a.(m := a.m.Attach(s))
    case Hold(s) => a.(m := a.m.Detach(s))
    case Frame(s, data) => a.WriteFrame(s, data)
    case Tick(n) => a.Tick(n)
  }

  ghost predicate EnabledAll(a: Audio, es: seq<Event>)
    decreases |es|
  {
    es == [] || (a.m.Inv() && Enabled(a, es[0]) && EnabledAll(Do(a, es[0]), es[1..]))
  }

  function DoAll(a: Audio, es: seq<Event>): Audio
    requires EnabledAll(a, es)
    decreases |es|
  {
    if es == [] then a else DoAll(Do(a, es[0]), es[1..])
  }

  // ------------------------------------------------------------- conservation

  lemma {:induction false} MixInIsLater(m: Mixer, s: nat, data: seq<Sample>, p: nat)
    requires m.read <= m.size && p < m.gone
    requires s in m.cursor && Fits(m.cursor[s], m.size) && m.cursor[s].used + |data| <= m.size
    ensures At(m.MixIn(s, data).log, p) == At(m.log, p)
    decreases |data|
  {
    hide At, Steps, RB.Wrap;
    if data != [] {
      var w := m.MixIn(s, data[..|data| - 1]);
      MixInIsLater(m, s, data[..|data| - 1], p);
      AtOneMore(w.log, Entry(m.gone + Steps(m.read, w.cursor[s].write, m.size), s, data[|data| - 1]), p);
    }
  }

  /** A write cannot reach what has gone out already, wherever its cursor stands. */
  lemma WriteIsLater(m: Mixer, s: nat, data: seq<Sample>, p: nat)
    requires m.read <= m.size && s in m.cursor && Fits(m.cursor[s], m.size) && p < m.gone
    ensures At(m.Write(s, data).log, p) == At(m.log, p)
  {
    hide At, Mixer.MixIn;
    var n := m.Room(s, |data|);
    var k := m.Mixed(m.cursor[s].used, n);
    MixInIsLater(m, s, data[..k], p);
    AtConcat(m.MixIn(s, data[..k]).log, Entries(s, m.gone + m.live, data[k..n]), p);
    AtEntries(s, m.gone + m.live, data[k..n], p);
    assert At(m.log, p) + [] == At(m.log, p);
  }

  lemma WriteFrameKeepsInv(a: Audio, s: nat, data: seq<Sample>)
    requires a.Inv() && s in a.m.cursor
    ensures a.WriteFrame(s, data).Inv() && a.WriteFrame(s, data).m.size == a.m.size
  {
    hide At, Mix, Mixer.Inv, Mixer.Write;
    var m := a.Roomy(s, |data|);
    WriteKeeps(m, s, data);
    WriteMoves(m, s, data);
    WriteKeepsGone(m, s, data);
    forall p: nat | p < m.gone ensures At(m.Write(s, data).log, p) == At(m.log, p) {
      WriteIsLater(m, s, data, p);
    }
  }

  lemma WriteKeepsGone(m: Mixer, s: nat, data: seq<Sample>)
    requires s in m.cursor && Fits(m.cursor[s], m.size) && m.read <= m.size
    ensures m.Write(s, data).gone == m.gone
  {
  }

  lemma TickKeepsInv(a: Audio, n: nat)
    requires a.Inv()
    ensures a.Tick(n).Inv() && a.Tick(n).m.size == a.m.size
  {
    hide At, Mix, Mixer.Inv;
    AdvanceKeepsInv(a.m, Min(n, a.m.live));
    var b := a.Tick(n);
    forall j | |a.sent| <= j < |b.sent|
      ensures b.sent[j].pos == a.m.gone + j - |a.sent| && b.sent[j].sample == Mix(At(b.m.log, b.sent[j].pos))
    {
      assert b.sent[j] == Out(a.m.gone + j - |a.sent|, a.m.Sound()[j - |a.sent|]);
    }
    assert forall j :: 0 <= j < |a.sent| ==> b.sent[j] == a.sent[j];
  }

  lemma ListKeepsInv(a: Audio, e: Event)
    requires a.Inv() && Enabled(a, e) && (e.Call? || e.Activate? || e.Hold?)
    ensures Do(a, e).Inv() && Do(a, e).m.size == a.m.size
  {
    hide At, Mix, Mixer.Inv;
    match e
    case Call => CreateKeeps(a.m);
    case Activate(s) => AttachKeepsInv(a.m, s);
    case Hold(s) => DetachKeeps(a.m, s);
  }

  lemma EventKeepsInv(a: Audio, e: Event)
    requires a.Inv() && Enabled(a, e)
    ensures Do(a, e).Inv() && Do(a, e).m.size == a.m.size
  {
    hide At, Mix, Audio.WriteFrame, Audio.Tick, Mixer.Inv;
    match e
    case Frame(s, data) => WriteFrameKeepsInv(a, s, data);
    case Tick(n) => TickKeepsInv(a, n);
    case _ => ListKeepsInv(a, e);
  }

  /** Conservation, and the meaning of what was sent, over every run of attached and
      detached writers: of the positions ever written, each was sent, dropped or is
      still buffered; and a sample that was sent is the mix of all that was ever
      written to its place. */
  lemma {:induction false} RunKeepsInv(a: Audio, es: seq<Event>)
    requires a.Inv() && EnabledAll(a, es)
    ensures DoAll(a, es).Inv()
    decreases |es|
  {
    hide Do, Enabled, Audio.Inv;
    if es != [] {
      EventKeepsInv(a, es[0]);
      RunKeepsInv(Do(a, es[0]), es[1..]);
    }
  }

  // -------------------------------------------------------------- what the port gets

  /** The frame carries, in order, exactly the samples that are entered as sent, and
      silence behind them; silence only when nothing is left in the buffer. */
  lemma FrameIsSent(a: Audio, n: nat)
    ensures var b, f := a.Tick(n), a.Frame(n);
      var k := |b.sent| - |a.sent|;
      && 0 <= k <= n == |f| && b.sent[..|a.sent|] == a.sent
      && (forall i :: 0 <= i < k ==> f[i] == b.sent[|a.sent| + i].sample)
      && (forall i :: k <= i < n ==> f[i] == 0)
      && (k < n ==> b.m.live == 0)
  {
    hide At, Mix;
  }

  function Sounds(out: seq<Out>): (s: seq<Sample>)
    ensures |s| == |out|
  {
    seq(|out|, i requires 0 <= i < |out| => out[i].sample)
  }

  /** What the frames of a run carry in front of their silence. */
  ghost function Carried(a: Audio, es: seq<Event>): seq<Sample>
    requires EnabledAll(a, es)
    decreases |es|
  {
    if es == [] then []
    else
      (if es[0].Tick? then a.Frame(es[0].frameSize)[..Min(es[0].frameSize, a.m.live)] else []) +
      Carried(Do(a, es[0]), es[1..])
  }

  /** Over every run the frames without their silence are, one behind the other, the
      samples entered as sent. */
  lemma {:induction false} RunCarries(a: Audio, es: seq<Event>)
    requires EnabledAll(a, es)
    ensures Sounds(DoAll(a, es).sent) == Sounds(a.sent) + Carried(a, es)
    decreases |es|
  {
    hide Audio.Frame, Audio.Tick, Audio.WriteFrame, Enabled, Mixer.Inv, Sounds;
    if es == [] {
      assert Sounds(a.sent) + [] == Sounds(a.sent);
    } else {
      var b := Do(a, es[0]);
      EventCarries(a, es[0]);
      RunCarries(b, es[1..]);
    }
  }

  lemma EventCarries(a: Audio, e: Event)
    requires a.m.Inv() && Enabled(a, e)
    ensures Sounds(Do(a, e).sent) ==
      Sounds(a.sent) + if e.Tick? then a.Frame(e.frameSize)[..Min(e.frameSize, a.m.live)] else []
  {
    hide At, Mix, Mixer.Inv, Mixer.Sound, Mixer.Write, Audio.Roomy;
    if e.Tick? {
      FrameIsSent(a, e.frameSize);
    } else {
      assert Do(a, e).sent == a.sent;
    }
  }

  // -------------------------------------------------------------------- frames

  lemma RoomyCursor(a: Audio, s: nat, len: nat)
    requires a.m.Inv() && s in a.m.cursor
    ensures Fits(a.m.cursor[s], a.m.size)
    ensures var r, u, over := a.Roomy(s, len), a.m.cursor[s].used, a.Excess(s, len);
      && r.size == a.m.size && r.attached == a.m.attached
      && (s in a.m.attached ==> u <= a.m.live && r.cursor[s].used == Left(u, over))
      && (s !in a.m.attached ==> r.cursor[s] == a.m.cursor[s])
      && (over == 0 ==> r == a.m)
  {
    hide At, Mix, Mixer.Inv, Mixer.Sound;
    InvGives(a.m);
    AdvanceSound(a.m, a.Excess(s, len));
    if a.Excess(s, len) == 0 { AdvanceNothing(a.m); }
  }

  /** Dropping the oldest samples for an attached stream moves its cursor by as much. */
  lemma RoomyBehind(a: Audio, s: nat, len: nat)
    requires a.m.Inv() && s in a.m.attached && s in a.m.cursor && len <= a.m.size
    ensures a.Roomy(s, len).Behind(s) <==> a.m.Behind(s)
  {
    hide At, Mix, Mixer.Inv, Mixer.Sound;
    InvGives(a.m);
  }

  lemma AdvanceNothing(m: Mixer)
    requires m.Inv()
    ensures m.Advance(0) == m
  {
    hide At, Mix;
  }

  /** The whole frame is taken if and only if it is no longer than the buffer, for
      an attached stream, or than its room, for a stream that does not move along
      when samples are dropped. */
  lemma FrameFits(a: Audio, s: nat, data: seq<Sample>)
    requires a.m.Inv() && s in a.m.cursor
    ensures Fits(a.m.cursor[s], a.m.size)
    ensures a.Roomy(s, |data|).Room(s, |data|) == |data| <==>
      |data| <= if s in a.m.attached then a.m.size else a.m.size - a.m.cursor[s].used
  {
    hide Mixer.Inv, Audio.Roomy;
    RoomyCursor(a, s, |data|);
  }

  /** The whole frame is taken and heard in order, later than all the stream wrote. */
  ghost predicate HeardWhole(a: Audio, s: nat, data: seq<Sample>)
    requires a.m.Inv() && s in a.m.cursor
  {
    var r := a.Roomy(s, |data|);
    r.Room(s, |data|) == |data| && InPlace(r, s, data)
  }

  /** A call is heard whole and in place exactly when its stream has nothing buffered
      from its used count on, and is attached and the frame no longer than the buffer,
      or has room for the frame and stands where its used count says or behind the
      last sample. */
  lemma FrameHeardIff(a: Audio, s: nat, data: seq<Sample>)
    requires a.m.Inv() && s in a.m.cursor
    ensures Fits(a.m.cursor[s], a.m.size)
    ensures var c := a.m.cursor[s];
      HeardWhole(a, s, data) <==>
        data == [] ||
        (a.m.Behind(s) &&
         if s in a.m.attached then |data| <= a.m.size else |data| <= a.m.size - c.used && a.m.Aligned(c))
  {
    hide Mixer.Inv, Mixer.Once, Audio.Roomy, InPlace, Mixer.Aligned, Mixer.Behind;
    FrameFits(a, s, data);
    RoomyCursor(a, s, |data|);
    if s in a.m.attached && |data| <= a.m.size { RoomyBehind(a, s, |data|); }
    InPlaceIff(a.Roomy(s, |data|), s, data);
  }

  // ----------------------------------------------------------------- early returns

  /** A call is activated while some of its samples are still in the buffer. */
  ghost predicate ReturnsEarly(a: Audio, e: Event) {
    e.Activate? && !a.m.NoneLive(e.s)
  }

  ghost predicate NoneReturnsEarly(a: Audio, es: seq<Event>)
    requires EnabledAll(a, es)
    decreases |es|
  {
    es == [] || (!ReturnsEarly(a, es[0]) && NoneReturnsEarly(Do(a, es[0]), es[1..]))
  }

  /** Only that lets a stream reach its own samples. */
  lemma EventOnceIff(a: Audio, e: Event)
    requires a.Inv() && a.m.Once() && Enabled(a, e)
    ensures Do(a, e).Inv() && (Do(a, e).m.Once() <==> !ReturnsEarly(a, e))
  {
    hide At, Mix, Mixer.Inv, Mixer.Once, Mixer.NoneLive, Mixer.Advance, Mixer.Write;
    EventKeepsInv(a, e);
    match e
    case Call => CreateKeeps(a.m);
    case Activate(s) => AttachOnceIff(a.m, s);
    case Hold(s) => DetachKeeps(a.m, s);
    case Tick(n) => AdvanceKeepsOnce(a.m, Min(n, a.m.live));
    case Frame(s, data) =>
      InvGives(a.m);
      AdvanceKeepsOnce(a.m, a.Excess(s, |data|));
      WriteKeeps(a.Roomy(s, |data|), s, data);
  }

  /** Over every run in which calls return only when all they wrote has left the
      buffer, every frame of an attached call that is no longer than the buffer is
      heard whole and in place. */
  lemma {:induction false} RunHearsAttached(a: Audio, es: seq<Event>, s: nat, data: seq<Sample>)
    requires a.Inv() && a.m.Once() && EnabledAll(a, es) && NoneReturnsEarly(a, es)
    ensures DoAll(a, es).Inv() && DoAll(a, es).m.Once()
    ensures s in DoAll(a, es).m.attached && |data| <= DoAll(a, es).m.size ==>
      s in DoAll(a, es).m.cursor && HeardWhole(DoAll(a, es), s, data)
    decreases |es|
  {
    hide Do, Enabled, Audio.Inv, Mixer.Inv, Mixer.Once, ReturnsEarly, HeardWhole, Mixer.Aligned, Mixer.Behind;
    if es == [] {
      AudioGives(a);
      if s in a.m.attached {
        FrameHeardIff(a, s, data);
        InPlaceIff(a.m, s, data);
      }
    } else {
      EventOnceIff(a, es[0]);
      RunHearsAttached(Do(a, es[0]), es[1..], s, data);
    }
  }

  lemma AudioGives(a: Audio)
    requires a.Inv()
    ensures a.m.Inv() && a.m.attached <= a.m.cursor.Keys
  {
  }

  /** A held call whose room is used up: nothing of its frames is taken, nothing
      about it changes, and every frame drops as much of the others' audio. */
  lemma HeldCallStarves(a: Audio, s: nat, data: seq<Sample>)
    requires a.Inv() && s in a.m.cursor && s !in a.m.attached && a.m.cursor[s].used == a.m.size
    ensures var b := a.WriteFrame(s, data);
      && b.m.log == a.m.log && b.sent == a.sent && b.m.cursor[s] == a.m.cursor[s] && s !in b.m.attached
      && b.m.live == a.m.live - Min(|data|, a.m.live)
      && b.dropped == a.dropped + Min(|data|, a.m.live) && b.counted == a.counted + |data|
  {
    hide At, Mix, Mixer.Inv;
    InvGives(a.m);
    RoomyCursor(a, s, |data|);
  }

  // ------------------------------------------------------------- the statistics

  /** The overflow of a frame is in the buffer. */
  predicate Covered(a: Audio, e: Event) {
    e.Frame? && e.s in a.m.cursor ==> |e.data| <= a.m.size - a.m.cursor[e.s].used + a.m.live
  }

  ghost predicate CoveredAll(a: Audio, es: seq<Event>)
    requires EnabledAll(a, es)
    decreases |es|
  {
    es == [] || (Covered(a, es[0]) && CoveredAll(Do(a, es[0]), es[1..]))
  }

  lemma CountedIff(a: Audio, e: Event)
    requires a.Inv() && Enabled(a, e)
    ensures var b := Do(a, e);
      && b.counted - a.counted >= b.dropped - a.dropped
      && (b.counted - a.counted == b.dropped - a.dropped <==> Covered(a, e))
  {
    hide At, Mix, Mixer.Inv;
    InvGives(a.m);
  }

  /** Over every run the overflow counter is what was dropped if and only if the
      overflow of every frame was in the buffer. */
  lemma {:induction false} CounterIsExactIff(a: Audio, es: seq<Event>)
    requires a.Inv() && EnabledAll(a, es)
    ensures DoAll(a, es).counted - DoAll(a, es).dropped >= a.counted - a.dropped
    ensures DoAll(a, es).counted - DoAll(a, es).dropped == a.counted - a.dropped <==> CoveredAll(a, es)
    decreases |es|
  {
    hide Do, Enabled, Audio.Inv, Covered;
    if es != [] {
      EventKeepsInv(a, es[0]);
      CountedIff(a, es[0]);
      CounterIsExactIff(Do(a, es[0]), es[1..]);
    }
  }

  /** The frames of attached streams are covered when they are no longer than the buffer. */
  lemma AttachedIsCovered(a: Audio, s: nat, data: seq<Sample>)
    requires a.Inv() && s in a.m.attached && |data| <= a.m.size
    ensures Covered(a, Event.Frame(s, data))
  {
    hide At, Mix, Mixer.Inv;
    InvGives(a.m);
  }

  lemma OneEvent(a: Audio, e: Event, es: seq<Event>)
    requires a.m.Inv() && Enabled(a, e) && EnabledAll(Do(a, e), es)
    ensures EnabledAll(a, [e] + es) && DoAll(a, [e] + es) == DoAll(Do(a, e), es)
  {
    hide Do, Enabled;
    assert ([e] + es)[1..] == es;
  }

  /** A frame of an attached stream that fits behind its samples. */
  lemma PlainFrame(a: Audio, s: nat, data: seq<Sample>)
    requires a.Inv() && s in a.m.attached && s in a.m.cursor && a.m.cursor[s].used + |data| <= a.m.size
    ensures var b := a.WriteFrame(s, data);
      && b.Inv() && b == a.(m := b.m) && b.m.size == a.m.size && b.m.next == a.m.next && b.m.attached == a.m.attached
      && b.m.cursor.Keys == a.m.cursor.Keys
      && b.m.live == Max(a.m.live, a.m.cursor[s].used + |data|)
      && b.m.cursor[s].used == a.m.cursor[s].used + |data|
      && forall t :: t in a.m.cursor && t != s ==> b.m.cursor[t] == a.m.cursor[t]
  {
    hide At, Mix, Mixer.Inv, Mixer.MixIn;
    InvGives(a.m);
    WriteFrameKeepsInv(a, s, data);
    RoomyCursor(a, s, |data|);
    WriteMoves(a.m, s, data);
  }

  lemma Listed(a: Audio, e: Event) returns (b: Audio)
    requires a.Inv() && Enabled(a, e) && (e.Call? || e.Activate? || e.Hold?)
    ensures b == Do(a, e) && b.Inv()
    ensures b == a.(m := b.m) && b.m == a.m.(cursor := b.m.cursor, attached := b.m.attached, next := b.m.next)
    ensures match e
      case Call => b.m.cursor == a.m.cursor[a.m.next := Cursor(0, 0)]
        && b.m.attached == a.m.attached && b.m.next == a.m.next + 1
      case Activate(s) => b.m.cursor == a.m.cursor[s := Cursor(0, a.m.read)]
        && b.m.attached == a.m.attached + {s} && b.m.next == a.m.next
      case Hold(s) => b.m.cursor == a.m.cursor && b.m.attached == a.m.attached - {s} && b.m.next == a.m.next
      case _ => true
  {
    hide At, Mix, Mixer.Inv;
    b := Do(a, e);
    ListKeepsInv(a, e);
  }

  lemma Framed(a: Audio, s: nat, data: seq<Sample>) returns (b: Audio)
    requires a.Inv() && s in a.m.attached && s in a.m.cursor && a.m.cursor[s].used + |data| <= a.m.size
    ensures Enabled(a, Event.Frame(s, data)) && b == Do(a, Event.Frame(s, data)) && b.Inv()
    ensures b == a.(m := b.m) && b.m.size == a.m.size && b.m.next == a.m.next && b.m.attached == a.m.attached
    ensures b.m.cursor.Keys == a.m.cursor.Keys && b.m.live == Max(a.m.live, a.m.cursor[s].used + |data|)
    ensures b.m.cursor[s].used == a.m.cursor[s].used + |data|
    ensures forall t :: t in a.m.cursor && t != s ==> b.m.cursor[t] == a.m.cursor[t]
  {
    hide At, Mix, Mixer.Inv, Audio.WriteFrame;
    b := Do(a, Event.Frame(s, data));
    PlainFrame(a, s, data);
  }

  lemma Ticked(a: Audio, n: nat) returns (b: Audio)
    requires a.Inv() && a.m.attached == {}
    ensures Enabled(a, Event.Tick(n)) && b == Do(a, Event.Tick(n)) && b.Inv()
    ensures |b.sent| == |a.sent| + Min(n, a.m.live) && b.dropped == a.dropped && b.counted == a.counted
    ensures b.m.live == a.m.live - Min(n, a.m.live) && b.m.size == a.m.size && b.m.next == a.m.next
    ensures b.m.attached == {} && b.m.cursor == a.m.cursor
  {
    hide At, Mix, Mixer.Inv;
    b := Do(a, Event.Tick(n));
    TickKeepsInv(a, n);
  }

  /** A call fills the buffer and goes on hold, and the timer sends all of it. */
  function HoldRun(x: Sample): seq<Event> {
    [Call, Activate(0), Frame(0, [x, x, x, x, x]), Hold(0), Tick(5)]
  }

  /** Another call writes a frame. */
  function OtherRun(x: Sample): seq<Event> {
    [Call, Activate(1), Frame(1, [x])]
  }

  lemma AfterHold(x: Sample)
    ensures var a := Audio(Empty(5), [], 0, 0);
      && EnabledAll(a, HoldRun(x))
      && var b := DoAll(a, HoldRun(x));
      && b.Inv() && b.m.size == 5 && b.m.live == 0 && b.m.next == 1 && b.m.attached == {}
      && 0 in b.m.cursor && b.m.cursor[0].used == 5 && b.dropped == 0 && b.counted == 0 && |b.sent| == 5
  {
    hide At, Mix, Mixer.Inv, Do, Audio.WriteFrame;
    var d := [x, x, x, x, x];
    var a0 := Audio(Empty(5), [], 0, 0);
    var a1 := Listed(a0, Call);
    var a2 := Listed(a1, Activate(0));
    var a3 := Framed(a2, 0, d);
    var a4 := Listed(a3, Hold(0));
    var a5 := Ticked(a4, 5);
    OneEvent(a4, Tick(5), []);
    OneEvent(a3, Hold(0), [Tick(5)]);
    OneEvent(a2, Frame(0, d), [Hold(0), Tick(5)]);
    OneEvent(a1, Activate(0), [Frame(0, d), Hold(0), Tick(5)]);
    OneEvent(a0, Call, [Activate(0), Frame(0, d), Hold(0), Tick(5)]);
    assert HoldRun(x) == [Call] + [Activate(0), Frame(0, d), Hold(0), Tick(5)];
  }

  lemma AfterOther(a: Audio, x: Sample)
    requires a.Inv() && a.m.size == 5 && a.m.live == 0 && a.m.next == 1 && a.m.attached == {}
    requires 0 in a.m.cursor && a.m.cursor[0].used == 5
    ensures EnabledAll(a, OtherRun(x))
    ensures var b := DoAll(a, OtherRun(x));
      && b.Inv() && b.m.size == 5 && b.m.live == 1 && 0 in b.m.cursor && 0 !in b.m.attached && b.m.cursor[0].used == 5
      && b.dropped == a.dropped && b.counted == a.counted && b.sent == a.sent
  {
    hide At, Mix, Mixer.Inv, Do, Audio.WriteFrame;
    var b1 := Listed(a, Call);
    var b2 := Listed(b1, Activate(1));
    var b3 := Framed(b2, 1, [x]);
    OneEvent(b2, Frame(1, [x]), []);
    OneEvent(b1, Activate(1), [Frame(1, [x])]);
    OneEvent(a, Call, [Activate(1), Frame(1, [x])]);
    assert OtherRun(x) == [Call] + [Activate(1), Frame(1, [x])];
  }

  /** If the held call then writes a frame, however short, it is not taken, and
      the frame of the other call is dropped instead of sent. */
  lemma HeldCallExample(x: Sample)
    ensures EnabledAll(Audio(Empty(5), [], 0, 0), HoldRun(x))
    ensures EnabledAll(DoAll(Audio(Empty(5), [], 0, 0), HoldRun(x)), OtherRun(x))
    ensures var b := DoAll(DoAll(Audio(Empty(5), [], 0, 0), HoldRun(x)), OtherRun(x));
      && b.Inv() && 0 in b.m.cursor && b.m.live == 1 && b.dropped == 0
      && !HeardWhole(b, 0, [x])
      && var c := b.WriteFrame(0, [x]);
      && c.m.live == 0 && c.dropped == 1 && c.sent == b.sent && c.m.log == b.m.log && c.m.cursor[0] == b.m.cursor[0]
  {
    hide At, Mix, Mixer.Inv, DoAll, EnabledAll, Audio.WriteFrame, HoldRun, OtherRun, HeardWhole;
    AfterHold(x);
    var a := DoAll(Audio(Empty(5), [], 0, 0), HoldRun(x));
    AfterOther(a, x);
    var b := DoAll(a, OtherRun(x));
    HeldCallStarves(b, 0, [x]);
    FrameHeardIff(b, 0, [x]);
  }

  /** The device fields the two writers use. */
  class TtyAudio {
    const mix: MixBuffer
    /** write_rb_overflow_bytes, in samples, and write_rb_overflow */
    var overflowSamples: nat
    var overflows: nat
    /** write_tframes, write_sframes, write_frames */
    var truncated: nat
    var silent: nat
    var frames: nat
    ghost var a: Audio

    ghost predicate Valid()
      reads this, mix, mix.rb, mix.rb.buf, mix.known
    {
      && mix.Valid() && a.m == mix.m && a.Inv() && a.counted == overflowSamples
    }

    constructor (buffer: array<Sample>)
      requires buffer.Length < SIZE_LIMIT
      ensures Valid() && a == Audio(Empty(buffer.Length), [], 0, 0) && mix.streams == []
      ensures fresh(mix) && fresh(mix.rb) && mix.rb.buf == buffer
    {
      mix := new MixBuffer(buffer);
      overflowSamples, overflows, truncated, silent, frames := 0, 0, 0, 0, 0;
      a := Audio(Empty(buffer.Length), [], 0, 0);
    }

    /** Drops what a frame of `len` samples lacks in the stream's room. */
    method MakeRoom(stream: MixStream, len: nat) returns (over: nat)
      requires mix.Valid() && stream in mix.known
      modifies mix`m, mix.rb, mix.streams
      ensures mix.Valid()
      ensures over == len - Min(len, old(mix.Free(stream)))
      ensures mix.m == old(mix.m).Advance(over)
    {
      hide MixBuffer.Valid, Mixer.Inv, Mixer.Advance;
      mix.CursorOf(stream);
      AdvanceNothing(mix.m);
      over := 0;
      var count := mix.Free(stream);
      if count < len {
        over := len - count;
        var k := mix.ReadUpd(over);
      }
    }

    /** The mixing part of channel_write_tty, for any call with a channel. */
    method WriteTty(stream: MixStream, data: seq<Sample>) returns (n: nat)
      requires Valid() && stream in mix.known
      modifies this`a, this`overflowSamples, this`overflows
      modifies mix`m, mix.rb, mix.rb.buf, mix.streams, stream
      ensures Valid() && old(a).m.Inv() && stream.id in old(a).m.cursor
      ensures a == old(a).WriteFrame(stream.id, data)
      ensures n == old(a).Roomy(stream.id, |data|).Room(stream.id, |data|)
      ensures overflows == old(overflows) + if |data| > old(mix.Free(stream)) then 1 else 0
    {
      hide MixBuffer.Valid, Audio.Inv, Mixer.Inv, Mixer.Advance, Mixer.Write;
      mix.CursorOf(stream);
      WriteFrameKeepsInv(a, stream.id, data);
      var over := MakeRoom(stream, |data|);
      if over > 0 {
        overflowSamples := overflowSamples + over;
        overflows := overflows + 1;
      }
      mix.CursorOf(stream);
      n := mix.Write(stream, data);
      a := a.WriteFrame(stream.id, data);
    }

    /** The buffered samples of a frame, gathered and read; `frameSize` at most. */
    method Collect(frameSize: nat) returns (head: seq<Sample>)
      requires mix.Valid()
      modifies mix`m, mix.rb, mix.streams
      ensures mix.Valid() && mix.m == old(mix.m).Advance(Min(frameSize, old(mix.m.live)))
      ensures head == old(mix.m.Sound())[..Min(frameSize, old(mix.m.live))]
      ensures |head| == Min(frameSize, old(mix.rb.used))
    {
      hide Mix, At, Mixer.Inv, Mixer.Sound, Mixer.Advance, RB.Rotate, RB.Ring.Contents;
      mix.rb.ReadSlices(frameSize);
      if mix.rb.used >= frameSize {
        var iov := mix.rb.ReadNIov(frameSize);
        head := iov.Gather(mix.rb.buf[..]);
        var k := mix.ReadUpd(frameSize);
      } else {
        var iov := mix.rb.ReadAllIov();
        head := iov.Gather(mix.rb.buf[..]);
        var k := mix.ReadUpd(mix.rb.used);
      }
    }

    /** timing_write_tty: one frame of exactly `frameSize` samples for the port. */
    method TimingWrite(frameSize: nat, written: bool) returns (frame: seq<Sample>)
      requires Valid()
      modifies this`a, this`truncated, this`silent, this`frames
      modifies mix`m, mix.rb, mix.streams
      ensures Valid() && a == old(a).Tick(frameSize)
      ensures frame == old(a).Frame(frameSize) && |frame| == frameSize
      ensures var k := |a.sent| - |old(a).sent|;
        && 0 <= k <= frameSize && a.sent[..|old(a).sent|] == old(a).sent
        && (forall i :: 0 <= i < k ==> frame[i] == a.sent[|old(a).sent| + i].sample)
        && (forall i :: k <= i < frameSize ==> frame[i] == 0)
      ensures truncated == old(truncated) + if 0 < old(mix.rb.used) < frameSize then 1 else 0
      ensures silent == old(silent) + if 0 == old(mix.rb.used) < frameSize then 1 else 0
      ensures frames == old(frames) + if written then 1 else 0
    {
      hide Mix, At, Mixer.Inv, Mixer.Sound, Mixer.Advance, Audio.Inv, RB.Rotate, RB.Ring.Contents;
      var used := mix.rb.used;
      TickKeepsInv(a, frameSize);
      FrameIsSent(a, frameSize);
      if used >= frameSize {
        frame := Collect(frameSize);
        assert frame + seq<Sample>(0, _ => 0) == frame;
      } else if used > 0 {
        truncated := truncated + 1;
        frame := Collect(frameSize);
        frame := frame + seq<Sample>(frameSize - used, _ => 0);
      } else {
        silent := silent + 1;
        frame := seq<Sample>(frameSize, _ => 0);
        assert a.m.Sound()[..0] + frame == frame;
        AdvanceNothing(a.m);
      }
      if written {
        frames := frames + 1;
      }
      a := a.Tick(frameSize);
    }
  }
}
