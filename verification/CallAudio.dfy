/** Which calls get the audio of a device, and what becomes of the two streams of its
    sound card (src/cpvt.c, src/pcm.c). */
module CallAudio {
  import opened Basics
  import opened CallSpec
  import opened CallRuns
  import opened CallMaster

  // ------------------------------------------------------------- who gets the audio

  /** The states in which a call is heard. */
  predicate Audible(s: CallState) {
    s == Dialing || s == Alerting || s == Incoming || s == Active
  }

  /** The call is active, and its channel polls the audio descriptor as the master's. */
  predicate HasAudio(d: Device, i: nat)
    requires i < |d.calls|
  {
    var c := d.calls[i];
    c.activated && c.master && c.channel.Some? && c.channel.value.fd0 == d.port.fd
  }

  /** A call with a channel that is reported in an audible state has the audio, if and
      only if capture runs; in TTY mode always. */
  lemma AudioGoesTo(d: Device, i: nat, next: CallState, a: Alsa)
    requires Core(d) && i < |d.calls| && d.port.fd >= 0
    requires Audible(next) && d.calls[i].state != next && d.calls[i].channel.Some? && !d.calls[i].local
    ensures var e, c := ChangeState(d, i, next, a), d.calls[i];
      && |e.calls| == |d.calls| && e.calls[i].id == c.id && e.calls[i].state == next && e.port == d.port
      && (HasAudio(e, i) <==> !d.port.uac || c.master || e.cards.icard == Some(Running))
  {
    hide Ids, Distinct, Owned, Buffered, OneMaster, Bump, UpdateFlags, Activate;
    assert Wired(d.calls[i], d.port);
    ActivateGives(Enter(d, i, next), i, a);
  }

  lemma ActivateGives(d: Device, i: nat, a: Alsa)
    requires i < |d.calls| && d.port.fd >= 0 && d.calls[i].channel.Some? && !d.calls[i].local
    requires d.calls[i].master ==> d.calls[i].activated && d.calls[i].channel.value.fd0 == d.port.fd
    ensures var e, c := Activate(d, i, a).d, d.calls[i];
      && |e.calls| == |d.calls| && e.calls[i].id == c.id && e.calls[i].state == c.state && e.port == d.port
      && (HasAudio(e, i) <==> !d.port.uac || c.master || e.cards.icard == Some(Running))
  {
    hide TryCapture, Demote, Join;
    var cards := if OtherMaster(d.calls, i) then StopUac(d.cards, a) else d.cards;
    CaptureRuns(cards.icard, a);
  }

  /** In TTY mode the call that takes over reads the port and gets the timer; the
      others that are active go on reading their pipes, and nobody else gets the timer. */
  lemma TakeoverInTty(d: Device, i: nat, a: Alsa)
    requires i < |d.calls| && !d.port.uac && d.port.fd >= 0
    requires d.calls[i].channel.Some? && !d.calls[i].local && !d.calls[i].master
    ensures var r := Activate(d, i, a); var calls := r.d.calls;
      && r.res == 0 && r.d.cards == d.cards && |calls| == |d.calls|
      && calls[i].channel == Some(Channel(d.port.fd, if d.bufs.timer.Some? then d.bufs.timer.value else -1))
      && forall k :: 0 <= k < |calls| && k != i ==>
           && calls[k].activated == d.calls[k].activated && !calls[k].master
           && (d.calls[k].channel.None? ==> calls[k].channel.None?)
           && (d.calls[k].channel.Some? ==>
                 calls[k].channel == Some(Channel(
                   if d.calls[k].activated then d.calls[k].pipe else d.calls[k].channel.value.fd0, -1)))
  {
    hide Join;
  }

  /** A held call has lost it; in UAC mode its channel polls nothing any more, in TTY
      mode it goes on reading. */
  lemma AudioLeaves(d: Device, i: nat, a: Alsa)
    requires Core(d) && i < |d.calls| && d.calls[i].state != OnHold
    ensures var e, c := ChangeState(d, i, OnHold, a), d.calls[i];
      && |e.calls| == |d.calls| && e.calls[i].id == c.id && !e.calls[i].activated && !e.calls[i].master
      && e.calls[i].channel == if d.port.uac && c.activated then Some(Channel(-1, -1)) else c.channel
  {
    hide Ids, Distinct, Owned, Buffered, OneMaster, Bump, UpdateFlags, StopUac;
    assert Wired(d.calls[i], d.port);
  }

  /** The other states give and take nothing. */
  lemma AudioStays(d: Device, i: nat, next: CallState, a: Alsa)
    requires i < |d.calls| && !Audible(next) && next != OnHold && next != Released
    ensures var e := ChangeState(d, i, next, a);
      && |e.calls| == |d.calls| && e.cards == d.cards && e.mix == d.mix
      && forall k :: 0 <= k < |d.calls| ==> e.calls[k] == d.calls[k].(state := e.calls[k].state)
  {
    hide Bump, UpdateFlags;
  }

  /** The channel of a new call that is not heard yet reads the serial port, but not
      the sound card, and has the timer. */
  lemma NewCallWaits(d: Device, c: Call, timer: Option<int>, state: CallState, a: Alsa)
    requires Fresh(c) && (state == Init || state == Waiting)
    ensures var e, i := NewCall(d, c, timer, true, state, a), |d.calls|;
      && |e.calls| == i + 1 && e.calls[..i] == d.calls && e.cards == d.cards
      && e.calls[i] == c.(state := state, channel := Some(Channel(if d.port.uac then -1 else d.port.fd,
                                                          if e.bufs.timer.Some? then e.bufs.timer.value else -1)))
  {
    hide Bump, UpdateFlags, FirstBufs;
  }

  /** No held call has audio. */
  predicate HeldAreSilent(calls: seq<Call>) {
    forall k :: 0 <= k < |calls| && calls[k].state == OnHold ==> !calls[k].activated && !calls[k].master
  }

  lemma HeldActivate(d: Device, i: nat, a: Alsa)
    requires HeldAreSilent(d.calls) && i < |d.calls| && d.calls[i].state != OnHold
    ensures HeldAreSilent(Activate(d, i, a).d.calls)
  {
    hide Capture, Promote, Demote, Join;
    var c := d.calls[i];
    if !c.master && !c.local {
      var t := Capture(d.port, d.cards, OtherMaster(d.calls, i), a);
      PromotedState(c, d.port, TimerFd(d.bufs), t.res);
      forall k | 0 <= k < |d.calls|
        ensures var e, c := Demote(d.calls[k], d.port.uac), d.calls[k];
          e.state == c.state && e.activated == c.activated && !e.master
      {
        DemotedState(d.calls[k], d.port.uac);
      }
    }
  }

  lemma PromotedState(c: Call, port: Port, timer: int, res: int)
    ensures Promote(c, port, timer, res).state == c.state
  {
  }

  lemma DemotedState(c: Call, uac: bool)
    ensures var e := Demote(c, uac); e.state == c.state && e.activated == c.activated && !e.master
  {
  }

  lemma HeldDisactivate(d: Device, i: nat, a: Alsa)
    requires i < |d.calls|
    requires forall k :: 0 <= k < |d.calls| && k != i && d.calls[k].state == OnHold ==>
      !d.calls[k].activated && !d.calls[k].master
    requires Wired(d.calls[i], d.port)
    ensures HeldAreSilent(Disactivate(d, i, a).calls)
  {
    hide StopUac, Leave;
  }

  lemma HeldRemoved(calls: seq<Call>, i: nat)
    requires HeldAreSilent(calls) && i < |calls|
    ensures HeldAreSilent(RemoveAt(calls, i))
  {
  }

  lemma HeldChange(d: Device, i: nat, next: CallState, a: Alsa)
    requires Core(d) && HeldAreSilent(d.calls) && i < |d.calls|
    ensures HeldAreSilent(ChangeState(d, i, next, a).calls)
  {
    hide Ids, Distinct, Owned, Buffered, OneMaster, Bump, UpdateFlags, Activate, Disactivate, Relink, RemoveAt, Behind;
    var e := Enter(d, i, next);
    assert Wired(d.calls[i], d.port);
    assert Wired(e.calls[i], e.port);
    HeldDisactivate(e, i, a);
    if next != OnHold { HeldActivate(e, i, a); }
    if next == Released {
      HeldRemoved(e.calls, i);
      HeldRemoved(Disactivate(e, i, a).calls, i);
    }
  }

  lemma HeldHangup(d: Device, i: nat, q: Enqueued, a: Alsa)
    requires Core(d) && HeldAreSilent(d.calls) && i < |d.calls|
    ensures HeldAreSilent(Hangup(d, i, q, a).calls)
  {
    hide Ids, Distinct, Owned, Buffered, OneMaster, Disactivate, Behind;
    if d.calls[i].channel.Some? {
      AskKeeps(d, i, q);
      var e := Ask(d, i, q);
      assert Wired(e.calls[i], e.port);
      HeldDisactivate(e, i, a);
    }
  }

  lemma HeldNew(d: Device, c: Call, timer: Option<int>, channelOk: bool, state: CallState, a: Alsa)
    requires Core(d) && HeldAreSilent(d.calls) && c.id !in Ids(d.calls) && Fresh(c)
    ensures HeldAreSilent(NewCall(d, c, timer, channelOk, state, a).calls)
  {
    hide Core, Ids, Distinct, ChangeState, Bump, FirstBufs, Relink, RemoveAt;
    var e := Alloc(d, c, timer);
    var i := |d.calls|;
    AllocKeeps(d, c, timer);
    if channelOk {
      var own := c.(channel := Some(NewChannel(e.port, e.bufs)));
      var f := e.(calls := d.calls + [own]);
      assert e.calls[i := own] == f.calls;
      assert Core(f) by { ChannelKeeps(e, i, NewChannel(e.port, e.bufs)); }
      if state != Init { HeldChange(f, i, state, a); }
    } else {
      HeldRemoved(e.calls, i);
    }
  }

  lemma StepKeepsHeld(d: Device, s: Step)
    requires Inv(d) && HeldAreSilent(d.calls) && Enabled(d, s.op)
    ensures HeldAreSilent(Do(d, s).calls)
  {
    hide Core, Has, ChangeState, Disactivate, Hangup, NewCall, Disconnect, Dialed, Ids, States, Behind, Free, RemoveAt;
    var a := s.alsa;
    match s.op
    case New(c, timer, ok, state) =>
      HasIn(d.calls, c.id);
      HeldNew(d, c, timer, ok, state, a);
    case Report(id, state) => HeldChange(d, IndexOf(d.calls, id), state, a);
    case HangUp(id, q) => HeldHangup(d, IndexOf(d.calls, id), q, a);
    case PbxFailed(id) => HeldFree(d, IndexOf(d.calls, id));
    case CaptureFailed(id) =>
      var i := IndexOf(d.calls, id);
      WiredAt(d, i);
      HeldDisactivate(d, i, a);
    case DialAccepted => HeldDialed(d, a);
    case Unplug => DisconnectKeeps(d, a);
    case _ =>
  }

  lemma WiredAt(d: Device, i: nat)
    requires Core(d) && i < |d.calls|
    ensures Wired(d.calls[i], d.port)
  {
  }

  lemma HeldFree(d: Device, i: nat)
    requires HeldAreSilent(d.calls) && i < |d.calls|
    ensures HeldAreSilent(Free(d, i).calls)
  {
    hide RemoveAt, Relink, Bump;
    HeldRemoved(d.calls, i);
  }

  lemma HeldDialed(d: Device, a: Alsa)
    requires Inv(d) && HeldAreSilent(d.calls) && Enabled(d, DialAccepted)
    ensures HeldAreSilent(Dialed(d, a).calls)
  {
    hide Core, ChangeState, Has, Ids;
    FlagsKeep(d);
    if d.owners[0].Some? {
      HeldChange(d.(flags := d.flags.(dialing := true)), IndexOf(d.calls, d.owners[0].value), Dialing, a);
    }
  }

  /** Over every run no live call on hold is active or master. */
  lemma {:induction false} RunKeepsHeld(d: Device, steps: seq<Step>)
    requires Inv(d) && HeldAreSilent(d.calls) && EnabledAll(d, steps)
    ensures HeldAreSilent(DoAll(d, steps).calls)
    decreases |steps|
  {
    hide Inv, Do, Enabled, HeldAreSilent;
    if steps != [] {
      StepKeepsInv(d, steps[0]);
      StepKeepsHeld(d, steps[0]);
      RunKeepsHeld(Do(d, steps[0]), steps[1..]);
    }
  }

  // --------------------------------------------------------- the sound card's streams

  /** A stream that is open and whose device is there. */
  predicate Droppable(p: Option<Pcm>) {
    p.Some? && p.value != Open && p.value != Disconnected
  }

  /** A stream when the card is stopped or not. */
  function Cut(p: Option<Pcm>, stopped: bool, works: bool): Option<Pcm> {
    if stopped && works && Droppable(p) then Some(Setup) else p
  }

  /** Both streams are cut together, if at all, and at most once; then capture is
      started, if a call takes it. */
  predicate Streams(c: Cards, e: Cards, starts: bool, a: Alsa) {
    var stopped := e.stops > c.stops;
    && c.stops <= e.stops <= c.stops + 1
    && e.ocard == Cut(c.ocard, stopped, a.dropOut)
    && e.icard == if starts then TryCapture(Cut(c.icard, stopped, a.dropIn), a).pcm else Cut(c.icard, stopped, a.dropIn)
  }

  /** The call takes the capture when it changes to this state. */
  predicate Takes(d: Device, c: Call, next: CallState) {
    d.port.uac && d.port.fd >= 0 && Audible(next) && c.state != next && c.channel.Some? && !c.local && !c.master
  }

  lemma StopStreams(c: Cards, a: Alsa)
    ensures StopUac(c, a) == Cards(Cut(c.icard, true, a.dropIn), Cut(c.ocard, true, a.dropOut), c.stops + 1)
  {
  }

  lemma ActivateStreams(d: Device, i: nat, a: Alsa)
    requires i < |d.calls| && d.port.uac
    ensures var c := d.calls[i];
      Streams(d.cards, Activate(d, i, a).d.cards, !c.master && !c.local && d.port.fd >= 0, a)
  {
    hide StopUac, TryCapture, Promote, Demote;
    StopStreams(d.cards, a);
  }

  lemma DisactivateStreams(d: Device, i: nat, a: Alsa)
    requires i < |d.calls|
    ensures Streams(d.cards, Disactivate(d, i, a).cards, false, a)
  {
    hide StopUac, TryCapture, Retire, Leave;
    StopStreams(d.cards, a);
  }

  lemma ChangeStateStreams(d: Device, i: nat, next: CallState, a: Alsa)
    requires i < |d.calls| && d.port.uac
    ensures Streams(d.cards, ChangeState(d, i, next, a).cards, Takes(d, d.calls[i], next), a)
  {
    hide TryCapture, Activate, Disactivate, Streams, Relink, RemoveAt, Bump, UpdateFlags, Behind;
    var e := Enter(d, i, next);
    NoStreams(d.cards, a);
    ActivateStreams(e, i, a);
    DisactivateStreams(e, i, a);
  }

  lemma NoStreams(c: Cards, a: Alsa)
    ensures Streams(c, c, false, a)
  {
  }

  lemma NewCallStreams(d: Device, c: Call, timer: Option<int>, channelOk: bool, state: CallState, a: Alsa)
    requires d.port.uac && Fresh(c)
    ensures Streams(d.cards, NewCall(d, c, timer, channelOk, state, a).cards,
                    channelOk && d.port.fd >= 0 && Audible(state) && !c.local, a)
  {
    hide ChangeState, Streams, TryCapture, FirstBufs, Bump, Relink, RemoveAt;
    NoStreams(d.cards, a);
    var e := Alloc(d, c, timer);
    var i := |d.calls|;
    if channelOk {
      var f := e.(calls := e.calls[i := c.(channel := Some(NewChannel(e.port, e.bufs)))]);
      if state != Init { ChangeStateStreams(f, i, state, a); }
    }
  }

  lemma HangupStreams(d: Device, i: nat, q: Enqueued, a: Alsa)
    requires i < |d.calls|
    ensures Streams(d.cards, Hangup(d, i, q, a).cards, false, a)
  {
    hide Disactivate, Streams, Behind;
    NoStreams(d.cards, a);
    DisactivateStreams(Ask(d, i, q), i, a);
  }

  /** A call takes the capture in this step. */
  predicate Starts(d: Device, op: Op)
    requires Enabled(d, op)
  {
    match op
    case New(c, _, ok, state) => ok && d.port.uac && d.port.fd >= 0 && Audible(state) && !c.local
    case Report(id, state) => Takes(d, d.calls[IndexOf(d.calls, id)], state)
    case DialAccepted => d.owners[0].Some? && Takes(d, d.calls[IndexOf(d.calls, d.owners[0].value)], Dialing)
    case _ => false
  }

  lemma StepCuts(d: Device, s: Step)
    requires Enabled(d, s.op) && d.port.uac && !s.op.Unplug? && !s.op.CardEvent? && !s.op.Connect?
    ensures Streams(d.cards, Do(d, s).cards, Starts(d, s.op), s.alsa)
  {
    hide ChangeState, Disactivate, Hangup, NewCall, Streams, Takes, Relink, RemoveAt, Bump, Behind;
    var a := s.alsa;
    NoStreams(d.cards, a);
    match s.op
    case New(c, timer, ok, state) => NewCallStreams(d, c, timer, ok, state, a);
    case Report(id, state) => ChangeStateStreams(d, IndexOf(d.calls, id), state, a);
    case HangUp(id, q) => HangupStreams(d, IndexOf(d.calls, id), q, a);
    case CaptureFailed(id) => DisactivateStreams(d, IndexOf(d.calls, id), a);
    case DialAccepted =>
      var e := d.(flags := d.flags.(dialing := true));
      if d.owners[0].Some? {
        var i := IndexOf(d.calls, d.owners[0].value);
        ChangeStateStreams(e, i, Dialing, a);
        SameTakes(e, d, d.calls[i], Dialing);
      }
    case _ =>
  }

  lemma SameTakes(d: Device, e: Device, c: Call, next: CallState)
    requires d.port == e.port
    ensures Takes(d, c, next) == Takes(e, c, next)
  {
  }

  /** In every step in UAC mode: when it deposes a master, an open stream whose drop
      works ends in SETUP, but capture is started from there when another call takes
      it; when it deposes nobody, both streams stay, unless capture is started for a
      call that takes it. A master whose dialplan did not start is freed without. */
  lemma StepStreams(d: Device, s: Step)
    requires Inv(d) && d.port.uac && Enabled(d, s.op)
    ensures var e, a := Do(d, s), s.alsa;
      match s.op
      case Unplug => e.cards.icard.None? && e.cards.ocard.None?
      case CardEvent(i, o) => e.cards.icard == i && e.cards.ocard == o
      case Connect(_, i, o) => e.cards.icard == i && e.cards.ocard == o
      case _ =>
        var lost := Lost(d.calls, e.calls) && !AbandonsMaster(d, s.op);
        var icard := Cut(d.cards.icard, lost, a.dropIn);
        && e.cards.ocard == Cut(d.cards.ocard, lost, a.dropOut)
        && e.cards.icard == if Starts(d, s.op) then TryCapture(icard, a).pcm else icard
  {
    hide Core, Lost, Has, ChangeState, Disactivate, Hangup, NewCall, ReleaseFrom, Dialed, Ids, States, Behind;
    hide Free, Starts, TryCapture, Cut;
    if !s.op.Unplug? && !s.op.CardEvent? && !s.op.Connect? {
      StepCuts(d, s);
      StepStopsIff(d, s);
      if AbandonsMaster(d, s.op) { FreeCards(d, IndexOf(d.calls, s.op.id)); }
    } else if s.op.Unplug? {
      PortStays(d, 0, s.alsa);
    }
  }

  lemma FreeCards(d: Device, i: nat)
    requires i < |d.calls|
    ensures Free(d, i).cards == d.cards
  {
  }

  lemma {:induction false} PortStays(d: Device, k: nat, a: Alsa)
    requires k <= |d.calls|
    ensures ReleaseFrom(d, k, a).port == d.port
    decreases |d.calls| - k
  {
    hide Activate, Disactivate, Free, Bump, UpdateFlags;
    if k < |d.calls| {
      var c := d.calls[k];
      var e := d.(owners := d.owners + [Some(c.id)], calls := d.calls[k := c.(needHangup := false)]);
      ChangePort(e, k, Released, a);
      PortStays(ChangeState(e, k, Released, a), if c.state == Released then k + 1 else k, a);
    }
  }

  lemma ChangePort(d: Device, i: nat, next: CallState, a: Alsa)
    requires i < |d.calls|
    ensures ChangeState(d, i, next, a).port == d.port
  {
    hide Capture, Promote, Demote, Bump, UpdateFlags, Relink, RemoveAt;
  }

  /** The stream can be started, by snd_pcm_prepare first if it has to be. */
  predicate Works(p: Pcm, prepare: int, start: int) {
    || p == Running
    || (p == Prepared && start >= 0)
    || ((p == Setup || p == Xrun || p == Suspended) && prepare >= 0 && start >= 0)
  }

  predicate Interrupted(res: int) {
    res == -EINTR || res == -EAGAIN
  }

  /** Starting capture works exactly when the first attempt does, or when it is
      interrupted, at whichever of its two calls, and the second one works. */
  lemma CaptureIff(p: Pcm, a: Alsa)
    ensures TryCapture(Some(p), a).res >= 0 <==>
      || Works(p, a.prepare1, a.start1)
      || ((p == Setup || p == Xrun || p == Suspended) && Interrupted(a.prepare1) && Works(p, a.prepare2, a.start2))
      || ((p == Prepared || ((p == Setup || p == Xrun || p == Suspended) && a.prepare1 >= 0)) &&
          Interrupted(a.start1) && a.start2 >= 0)
    ensures TryCapture(None, a) == Started(-ENODEV, None)
  {
  }

  /** An interrupted start is repeated once, and works if the second attempt does. */
  lemma CaptureRetried(p: Pcm, a: Alsa)
    requires p == Setup || p == Prepared || p == Xrun || p == Suspended
    requires a.prepare2 >= 0 && a.start2 >= 0
    requires (p != Prepared && (a.prepare1 == -EINTR || a.prepare1 == -EAGAIN)) ||
             (a.prepare1 >= 0 && (a.start1 == -EINTR || a.start1 == -EAGAIN))
    ensures TryCapture(Some(p), a).res >= 0 && TryCapture(Some(p), a).pcm == Some(Running)
  {
  }
}
