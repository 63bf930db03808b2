/** The call counters of a device over every run. */
module CallCounts {
  import opened Basics
  import opened CallSpec
  import opened CallRuns

  /** How far chan_count[s] is off once a dial of a vanished call was accepted:
      sys_chan then went from its initial RELEASED to DIALING, though it is no call. */
  function Shift(sys: CallState, s: CallState): int {
    if sys != Dialing then 0 else if s == Dialing then 1 else if s == Released then -1 else 0
  }

  ghost predicate Exact(counts: map<CallState, int>, states: seq<CallState>, sys: CallState) {
    forall s :: CountOf(counts, s) == multiset(states)[s] + Shift(sys, s)
  }

  ghost predicate Tallied(d: Device) {
    (d.tally.sys == Released || d.tally.sys == Dialing) && Exact(d.tally.counts, States(d.calls), d.tally.sys)
  }

  lemma CountUpdate(states: seq<CallState>, i: nat, x: CallState, s: CallState)
    requires i < |states|
    ensures multiset(states[i := x])[s]
         == multiset(states)[s] - (if states[i] == s then 1 else 0) + if x == s then 1 else 0
  {
  }

  lemma CountRemove(states: seq<CallState>, i: nat, s: CallState)
    requires i < |states|
    ensures multiset(RemoveAt(states, i))[s] == multiset(states)[s] - if states[i] == s then 1 else 0
  {
    MultisetRemove(states, i);
  }

  lemma EnterExact(d: Device, i: nat, next: CallState)
    requires i < |d.calls| && Tallied(d)
    ensures Tallied(Enter(d, i, next)) && States(Enter(d, i, next).calls) == States(d.calls)[i := next]
  {
    var e := Enter(d, i, next);
    IdsUpdate(d.calls, i, d.calls[i].(state := next));
    forall s ensures CountOf(e.tally.counts, s) == multiset(States(e.calls))[s] + Shift(e.tally.sys, s) {
      CountUpdate(States(d.calls), i, next, s);
    }
  }

  lemma FreeExact(d: Device, i: nat)
    requires i < |d.calls| && Tallied(d)
    ensures Tallied(Free(d, i))
  {
    hide Relink;
    var e := Free(d, i);
    IdsRemove(d.calls, i);
    forall s ensures CountOf(e.tally.counts, s) == multiset(States(e.calls))[s] + Shift(e.tally.sys, s) {
      CountRemove(States(d.calls), i, s);
    }
  }

  lemma AllocExact(d: Device, c: Call, timer: Option<int>)
    requires Tallied(d)
    ensures Tallied(Alloc(d, c, timer))
  {
    hide FirstBufs, Mixing;
    IdsAppend(d.calls, c);
  }

  lemma SameExact(d: Device, e: Device)
    requires Tallied(d) && SameCalls(d.calls, e.calls) && e.tally == d.tally
    ensures Tallied(e)
  {
  }

  lemma ChangeStateExact(d: Device, i: nat, next: CallState, a: Alsa)
    requires i < |d.calls| && Core(d) && Tallied(d)
    ensures Tallied(ChangeState(d, i, next, a))
  {
    hide Core, Tallied, Enter, Activate, Disactivate, Free, Behind, SameCalls;
    if d.calls[i].state != next {
      var e := Enter(d, i, next);
      EnterExact(d, i, next);
      EnterKeeps(d, i, next);
      EnterOne(d, i, next);
      DisactivateKeeps(e, i, a);
      SameExact(e, Disactivate(e, i, a));
      if e.calls[i].channel.Some? {
        ActivateKeeps(e, i, a);
        SameExact(e, Activate(e, i, a).d);
      }
      FreeExact(e, i);
      FreeExact(Disactivate(e, i, a), i);
      QueueExact(e, Behind(e.owners, None));
    }
  }

  lemma QueueExact(d: Device, owners: seq<Option<nat>>)
    requires Tallied(d)
    ensures Tallied(d.(owners := owners))
  {
  }

  lemma NewCallExact(d: Device, c: Call, timer: Option<int>, channelOk: bool, state: CallState, a: Alsa)
    requires Core(d) && Tallied(d) && c.id !in Ids(d.calls) && Fresh(c)
    ensures Tallied(NewCall(d, c, timer, channelOk, state, a))
  {
    hide Core, Tallied, Ids, States, Alloc, Free, ChangeState, SameCalls;
    var e := Alloc(d, c, timer);
    var i := |d.calls|;
    AllocExact(d, c, timer);
    AllocKeeps(d, c, timer);
    AllocLast(d, c, timer);
    if channelOk {
      var ch := NewChannel(e.port, e.bufs);
      ChannelKeeps(e, i, ch);
      var f := e.(calls := e.calls[i := c.(channel := Some(ch))]);
      SameExact(e, f);
      if state != Init { ChangeStateExact(f, i, state, a); }
    } else {
      FreeExact(e, i);
    }
  }

  lemma {:induction false} ReleaseFromExact(d: Device, k: nat, a: Alsa)
    requires Core(d) && Tallied(d) && k <= |d.calls|
    ensures Tallied(ReleaseFrom(d, k, a))
    decreases |d.calls| - k
  {
    hide Core, Tallied, ChangeState, SameCalls;
    if k < |d.calls| {
      var c := d.calls[k];
      var e := d.(owners := d.owners + [Some(c.id)], calls := d.calls[k := c.(needHangup := false)]);
      PrepareRelease(d, k);
      SameExact(d, e);
      ChangeStateExact(e, k, Released, a);
      ChangeStateKeeps(e, k, Released, a);
      ReleaseFromExact(ChangeState(e, k, Released, a), if c.state == Released then k + 1 else k, a);
    }
  }

  lemma OrphanExact(d: Device)
    requires Tallied(d)
    ensures Tallied(OrphanDial(d)) && OrphanDial(d).tally.sys == Dialing
  {
    hide States, Behind;
  }

  lemma DialedExact(d: Device, a: Alsa)
    requires Inv(d) && Tallied(d) && Enabled(d, DialAccepted)
    ensures Tallied(Dialed(d, a))
  {
    hide Core, Tallied, ChangeState, OrphanDial, Has, SameCalls;
    var e := d.(flags := d.flags.(dialing := true));
    FlagsKeep(d);
    assert Tallied(e) by { SameItself(d.calls); SameExact(d, e); }
    match d.owners[0]
    case None => OrphanExact(e);
    case Some(id) => ChangeStateExact(e, IndexOf(d.calls, id), Dialing, a);
  }

  lemma SameItself(calls: seq<Call>)
    ensures SameCalls(calls, calls)
  {
  }

  /** Each step keeps the counters exact, up to the shift. */
  lemma StepKeepsCounts(d: Device, s: Step)
    requires Inv(d) && Tallied(d) && Enabled(d, s.op)
    ensures Tallied(Do(d, s))
  {
    hide Core, Tallied, Has, ChangeState, Free, Disactivate, Hangup, NewCall, ReleaseFrom, Dialed;
    hide Ids, States, SameCalls;
    var a := s.alsa;
    SameItself(d.calls);
    match s.op
    case New(c, timer, ok, state) =>
      HasIn(d.calls, c.id);
      NewCallExact(d, c, timer, ok, state, a);
    case Report(id, state) => ChangeStateExact(d, IndexOf(d.calls, id), state, a);
    case HangUp(id, q) =>
      HangupKeeps(d, IndexOf(d.calls, id), q, a);
      SameExact(d, Do(d, s));
    case PbxFailed(id) => FreeExact(d, IndexOf(d.calls, id));
    case CaptureFailed(id) =>
      DisactivateKeeps(d, IndexOf(d.calls, id), a);
      SameExact(d, Do(d, s));
    case WantHangup(id) =>
      WantKeeps(d, IndexOf(d.calls, id));
      SameExact(d, Do(d, s));
    case DialAccepted => DialedExact(d, a);
    case Unplug =>
      ReleaseFromExact(d, 0, a);
      var e := ReleaseFrom(d, 0, a);
      SameItself(e.calls);
      SameExact(e, Do(d, s));
    case _ => SameExact(d, Do(d, s));
  }

  /** Over every run, chansno is the number of live calls and chan_count[s] the
      number of those in state s, up to the shift. */
  lemma {:induction false} RunKeepsCounts(d: Device, steps: seq<Step>)
    requires Inv(d) && Tallied(d) && EnabledAll(d, steps)
    ensures var e := DoAll(d, steps);
      && Tallied(e)
      && e.tally.chansno == |e.calls|
      && forall s :: CountOf(e.tally.counts, s) == multiset(States(e.calls))[s] + Shift(e.tally.sys, s)
    decreases |steps|
  {
    hide Core, Do, CountOf, Shift, States;
    if steps != [] {
      StepKeepsInv(d, steps[0]);
      StepKeepsCounts(d, steps[0]);
      RunKeepsCounts(Do(d, steps[0]), steps[1..]);
    } else {
      CoreChansno(d);
    }
  }

  lemma CoreChansno(d: Device)
    requires Core(d)
    ensures d.tally.chansno == |d.calls|
  {
  }

  lemma StartTallied(port: Port, cards: Cards)
    ensures Tallied(Start(port, cards))
  {
  }

  /** sys_chan keeps its state in every step but the acceptance of an orphaned dial. */
  lemma SysStays(d: Device, s: Step)
    requires Inv(d) && Tallied(d) && Enabled(d, s.op)
    ensures Do(d, s).tally.sys == if s.op.DialAccepted? && d.owners[0].None? then Dialing else d.tally.sys
  {
    hide Has, Tallied, Core, ReleaseFrom, Activate, Disactivate, Behind, Relink, Bump, UpdateFlags, FirstBufs;
    SysOfRelease(d, 0, s.alsa);
    if s.op.New? { SysOfNew(d, s.op.call, s.op.timer, s.op.channelOk, s.op.state, s.alsa); }
    if s.op.Report? { SysOfChange(d, IndexOf(d.calls, s.op.id), s.op.state, s.alsa); }
    if s.op.HangUp? { HangupKeeps(d, IndexOf(d.calls, s.op.id), s.op.queued, s.alsa); }
    if s.op.CaptureFailed? { DisactivateKeeps(d, IndexOf(d.calls, s.op.id), s.alsa); }
    if s.op.DialAccepted? && d.owners[0].Some? {
      SysOfChange(d.(flags := d.flags.(dialing := true)), IndexOf(d.calls, d.owners[0].value), Dialing, s.alsa);
    }
  }

  lemma SysOfChange(d: Device, i: nat, next: CallState, a: Alsa)
    requires i < |d.calls|
    ensures ChangeState(d, i, next, a).tally.sys == d.tally.sys
  {
    hide Promote, Capture, Retire, DemoteOthers, Unlink, Behind, Relink, Bump, UpdateFlags;
  }

  lemma SysOfNew(d: Device, c: Call, timer: Option<int>, channelOk: bool, state: CallState, a: Alsa)
    ensures NewCall(d, c, timer, channelOk, state, a).tally.sys == d.tally.sys
  {
    hide ChangeState, Relink, Bump, FirstBufs;
    var e := Alloc(d, c, timer);
    if channelOk {
      var own := c.(channel := Some(NewChannel(e.port, e.bufs)));
      SysOfChange(e.(calls := e.calls[|d.calls| := own]), |d.calls|, state, a);
    }
  }

  lemma {:induction false} SysOfRelease(d: Device, k: nat, a: Alsa)
    requires k <= |d.calls|
    ensures ReleaseFrom(d, k, a).tally.sys == d.tally.sys
    decreases |d.calls| - k
  {
    hide ChangeState;
    if k < |d.calls| {
      var c := d.calls[k];
      var e := d.(owners := d.owners + [Some(c.id)], calls := d.calls[k := c.(needHangup := false)]);
      SysOfChange(e, k, Released, a);
      SysOfRelease(ChangeState(e, k, Released, a), if c.state == Released then k + 1 else k, a);
    }
  }

  ghost predicate Counting(d: Device) {
    Counted(d.tally.counts, States(d.calls))
  }

  /** A step leaves chan_count equal to the live calls exactly when it is not the
      acceptance of a dial whose call is gone. */
  lemma CountsStayIff(d: Device, s: Step)
    requires Inv(d) && Tallied(d) && Counting(d) && Enabled(d, s.op)
    ensures Counting(Do(d, s)) <==> !(s.op.DialAccepted? && d.owners[0].None?)
  {
    hide Do, Core, Has, States;
    StepKeepsCounts(d, s);
    SysStays(d, s);
    CountingIff(d);
    CountingIff(Do(d, s));
  }

  lemma CountingIff(d: Device)
    requires Tallied(d)
    ensures Counting(d) <==> d.tally.sys == Released
  {
    hide States;
    assert CountOf(d.tally.counts, Dialing) == multiset(States(d.calls))[Dialing] + Shift(d.tally.sys, Dialing);
  }

  /** A dial whose task belongs to sys_chan is accepted. */
  function DriftRun(a: Alsa): seq<Step> {
    [Step(Queue(None, false), a), Step(DialAccepted, a)]
  }

  /** So a device without any call can end up with one counted as dialing. */
  lemma CountsDrift(a: Alsa)
    ensures var d := Start(Port(false, false, -1), Cards(None, None, 0));
      && EnabledAll(d, DriftRun(a))
      && var e := DoAll(d, DriftRun(a)); e.calls == [] && CountOf(e.tally.counts, Dialing) == 1
  {
    var d := Start(Port(false, false, -1), Cards(None, None, 0));
    var q := DriftRun(a);
    assert q == [q[0]] + ([q[1]] + []);
    OneStep(Do(d, q[0]), q[1], []);
    OneStep(d, q[0], [q[1]] + []);
  }
}
