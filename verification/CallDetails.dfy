/** What the steps of a device do to its flags, to the timer of its mixer and to the
    hangups that are asked for. */
module CallDetails {
  import opened Basics
  import opened CallSpec
  import opened CallRuns
  import opened CallAudio

  // ------------------------------------------------------------------------ flags

  /** The state report answers or ends the call it is about. */
  predicate Settles(d: Device, op: Op)
    requires Enabled(d, op)
  {
    op.Report? && (op.state == Active || op.state == Released) && d.calls[IndexOf(d.calls, op.id)].state != op.state
  }

  /** The state a settled call was in. */
  function SettledFrom(d: Device, op: Op): CallState
    requires Enabled(d, op) && Settles(d, op)
  {
    d.calls[IndexOf(d.calls, op.id)].state
  }

  lemma ChangeStateFlags(d: Device, i: nat, next: CallState, a: Alsa)
    requires i < |d.calls|
    ensures ChangeState(d, i, next, a).flags ==
      if d.calls[i].state == next then d.flags else UpdateFlags(d.flags, d.calls[i].state, next)
  {
    hide Capture, Promote, Demote, Bump, UpdateFlags, Relink, RemoveAt, Retire, Behind;
  }

  lemma NewCallFlags(d: Device, c: Call, timer: Option<int>, channelOk: bool, state: CallState, a: Alsa)
    requires Fresh(c) && state != Released
    ensures NewCall(d, c, timer, channelOk, state, a).flags ==
      if channelOk && state == Active then d.flags.(dialing := false) else d.flags
  {
    hide ChangeState, FirstBufs, Bump, Relink, RemoveAt;
    if channelOk && state != Init {
      var e, i := Alloc(d, c, timer), |d.calls|;
      ChangeStateFlags(e.(calls := e.calls[i := c.(channel := Some(NewChannel(e.port, e.bufs)))]), i, state, a);
    }
  }

  /** The device stops dialing, ringing or waiting in exactly these steps: when a call
      that was being set up, rang or waited is answered or ends, and when the device
      is unplugged. It is dialing again when a dial is accepted. */
  lemma StepFlags(d: Device, s: Step)
    requires Enabled(d, s.op)
    ensures var f, e := d.flags, Do(d, s).flags;
      && (e.ring <==> f.ring && !s.op.Unplug? && !(Settles(d, s.op) && SettledFrom(d, s.op) == Incoming))
      && (e.cwaiting <==> f.cwaiting && !s.op.Unplug? && !(Settles(d, s.op) && SettledFrom(d, s.op) == Waiting))
      && (e.dialing <==>
            || s.op.DialAccepted?
            || (&& f.dialing && !s.op.Unplug? && !(s.op.New? && s.op.channelOk && s.op.state == Active)
                && !(Settles(d, s.op) && (var p := SettledFrom(d, s.op); p == Init || p == Dialing || p == Alerting))))
  {
    hide ChangeState, Disactivate, Relink, RemoveAt, Bump, Behind, NewCall, ReleaseFrom, IndexOf;
    var a := s.alsa;
    match s.op
    case New(c, timer, ok, state) => NewCallFlags(d, c, timer, ok, state, a);
    case Report(id, state) => ChangeStateFlags(d, IndexOf(d.calls, id), state, a);
    case HangUp(id, q) => DisactivateFlags(Ask(d, IndexOf(d.calls, id), q), IndexOf(d.calls, id), a);
    case CaptureFailed(id) => DisactivateFlags(d, IndexOf(d.calls, id), a);
    case DialAccepted =>
      if d.owners[0].Some? {
        ChangeStateFlags(d.(flags := d.flags.(dialing := true)), IndexOf(d.calls, d.owners[0].value), Dialing, a);
      }
    case _ =>
  }

  lemma DisactivateFlags(d: Device, i: nat, a: Alsa)
    requires i < |d.calls|
    ensures Disactivate(d, i, a).flags == d.flags && Disactivate(d, i, a).owners == d.owners
  {
  }

  // ------------------------------------------------------------------------ timer

  /** As long as a mixing device has calls, it has the timer it got with the first. */
  lemma StepTimer(d: Device, s: Step)
    requires Inv(d) && Mixing(d.port) && Enabled(d, s.op) && Do(d, s).calls != []
    ensures d.calls == [] ==> s.op.New? && Do(d, s).bufs.timer == s.op.timer
    ensures d.calls != [] ==> Do(d, s).bufs == d.bufs
  {
    hide Ids, States, Distinct, Owned, OneMaster, AllWired;
    hide ChangeState, Disactivate, Relink, RemoveAt, Bump, Behind, ReleaseFrom, NewCall;
    var a := s.alsa;
    match s.op
    case New(c, timer, ok, state) => NewCallBufs(d, c, timer, ok, state, a);
    case Report(id, state) => ChangeStateBufs(d, IndexOf(d.calls, id), state, a);
    case HangUp(id, q) => DisactivateBufs(Ask(d, IndexOf(d.calls, id), q), IndexOf(d.calls, id), a);
    case DialAccepted =>
      if d.owners[0].Some? {
        ChangeStateBufs(d.(flags := d.flags.(dialing := true)), IndexOf(d.calls, d.owners[0].value), Dialing, a);
      }
    case Unplug => DisconnectKeeps(d, a);
    case _ =>
  }

  lemma DisactivateBufs(d: Device, i: nat, a: Alsa)
    requires i < |d.calls|
    ensures Disactivate(d, i, a).bufs == d.bufs && |Disactivate(d, i, a).calls| == |d.calls|
  {
  }

  lemma ChangeStateBufs(d: Device, i: nat, next: CallState, a: Alsa)
    requires i < |d.calls| && d.tally.chansno == |d.calls|
    ensures ChangeState(d, i, next, a).calls != [] ==> ChangeState(d, i, next, a).bufs == d.bufs
  {
    hide Capture, Promote, Demote, Bump, UpdateFlags, Relink, Retire, Behind;
  }

  lemma NewCallBufs(d: Device, c: Call, timer: Option<int>, channelOk: bool, state: CallState, a: Alsa)
    requires d.tally.chansno == |d.calls| && Mixing(d.port)
    ensures var e := NewCall(d, c, timer, channelOk, state, a);
      e.calls != [] ==> if d.calls == [] then e.bufs.timer == timer else e.bufs == d.bufs
  {
    hide ChangeState, Bump, Relink;
    var e, i := Alloc(d, c, timer), |d.calls|;
    if channelOk {
      var f := e.(calls := e.calls[i := c.(channel := Some(NewChannel(e.port, e.bufs)))]);
      if state != Init { ChangeStateBufs(f, i, state, a); }
    }
  }

  /** The mode of a device does not change. */
  lemma StepPort(d: Device, s: Step)
    requires Enabled(d, s.op)
    ensures Mixing(Do(d, s).port) == Mixing(d.port)
  {
    hide ChangeState, Disactivate, Relink, RemoveAt, Bump, Behind, ReleaseFrom;
    var a := s.alsa;
    match s.op
    case New(c, timer, ok, state) =>
      if ok && state != Init {
        var e, i := Alloc(d, c, timer), |d.calls|;
        ChangePort(e.(calls := e.calls[i := c.(channel := Some(NewChannel(e.port, e.bufs)))]), i, state, a);
      }
    case Report(id, state) => ChangePort(d, IndexOf(d.calls, id), state, a);
    case HangUp(id, q) => DisactivatePort(Ask(d, IndexOf(d.calls, id), q), IndexOf(d.calls, id), a);
    case CaptureFailed(id) => DisactivatePort(d, IndexOf(d.calls, id), a);
    case DialAccepted =>
      if d.owners[0].Some? {
        ChangePort(d.(flags := d.flags.(dialing := true)), IndexOf(d.calls, d.owners[0].value), Dialing, a);
      }
    case Unplug => PortStays(d, 0, a);
    case _ =>
  }

  lemma DisactivatePort(d: Device, i: nat, a: Alsa)
    requires i < |d.calls|
    ensures Disactivate(d, i, a).port == d.port
  {
  }

  /** There are calls after every step. */
  predicate AlwaysBusy(d: Device, steps: seq<Step>)
    requires EnabledAll(d, steps)
    decreases |steps|
  {
    steps == [] || (Do(d, steps[0]).calls != [] && AlwaysBusy(Do(d, steps[0]), steps[1..]))
  }

  lemma {:induction false} RunKeepsTimer(d: Device, steps: seq<Step>)
    requires Inv(d) && Mixing(d.port) && d.calls != [] && EnabledAll(d, steps) && AlwaysBusy(d, steps)
    ensures DoAll(d, steps).bufs == d.bufs
    decreases |steps|
  {
    hide Inv, Do, Enabled;
    if steps != [] {
      StepKeepsInv(d, steps[0]);
      StepTimer(d, steps[0]);
      StepPort(d, steps[0]);
      RunKeepsTimer(Do(d, steps[0]), steps[1..]);
    }
  }

  // ----------------------------------------------------------------------- hangups

  /** Behind the head task, or alone. */
  predicate QueuedBehind(prev: seq<Option<nat>>, next: seq<Option<nat>>, o: Option<nat>) {
    && |next| == |prev| + 1
    && (if prev == [] then next[0] == o else next[0] == prev[0] && next[1] == o && next[2..] == prev[1..])
  }

  /** A call that wants to be hung up is: its task is queued unless it is refused, and
      the call goes on wanting it unless it was accepted. */
  lemma HangupAsks(d: Device, i: nat, q: Enqueued, a: Alsa)
    requires i < |d.calls| && d.calls[i].channel.Some?
    ensures var e, c := Hangup(d, i, q, a), d.calls[i];
      && |e.calls| == |d.calls| && e.calls[i].id == c.id && e.calls[i].channel.None?
      && (if c.needHangup && !q.Refused? then QueuedBehind(d.owners, e.owners, Some(c.id)) else e.owners == d.owners)
      && (e.calls[i].needHangup <==> c.needHangup && !q.Accepted?)
  {
    hide StopUac, Leave;
  }

  /** A call without a channel is hung up through sys_chan when it is reported in any
      other state than answered or ended. */
  lemma NoChannelAsks(d: Device, i: nat, next: CallState, a: Alsa)
    requires i < |d.calls| && d.calls[i].channel.None? && d.calls[i].state != next && next != Released
    ensures var e := ChangeState(d, i, next, a);
      if next == Active then e.owners == d.owners else QueuedBehind(d.owners, e.owners, None)
  {
  }

  /** So is a dial that is accepted when its call has vanished, once. */
  lemma OrphanAsks(d: Device, a: Alsa)
    requires Enabled(d, DialAccepted) && d.owners[0].None?
    ensures var e := Dialed(d, a);
      if d.tally.sys == Dialing then e.owners == d.owners else QueuedBehind(d.owners, e.owners, None)
  {
  }
}
