/** What every step of the call machine keeps. */
module CallRuns {
  import opened Basics
  import opened CallSpec

  function Ids(calls: seq<Call>): (r: seq<nat>)
    ensures |r| == |calls|
    ensures forall k :: 0 <= k < |calls| ==> r[k] == calls[k].id
  {
    seq(|calls|, k requires 0 <= k < |calls| => calls[k].id)
  }

  function States(calls: seq<Call>): (r: seq<CallState>)
    ensures |r| == |calls|
    ensures forall k :: 0 <= k < |calls| ==> r[k] == calls[k].state
  {
    seq(|calls|, k requires 0 <= k < |calls| => calls[k].state)
  }

  // --------------------------------------------------------------- invariants

  /** Every queued task belongs to a live call or to sys_chan. */
  predicate Owned(owners: seq<Option<nat>>, ids: seq<nat>) {
    forall k :: 0 <= k < |owners| ==> owners[k].None? || owners[k].value in ids
  }

  /** chan_count[s] is the number of live calls in state s, for each s. */
  ghost predicate Counted(counts: map<CallState, int>, states: seq<CallState>) {
    forall s :: CountOf(counts, s) == multiset(states)[s]
  }

  /** The buffers exist exactly while the device has a call. */
  predicate Buffered(bufs: Bufs, port: Port, live: bool) {
    && bufs.silence == live
    && bufs.write == (live && Mixing(port))
    && (bufs.timer.Some? ==> live && Mixing(port))
  }

  /** Flags and descriptors of one call agree. */
  predicate Wired(c: Call, port: Port) {
    && (c.channel.None? ==> !c.activated && !c.master)
    && (c.master ==> c.activated && !c.local && port.fd >= 0)
    && (c.master ==> c.channel.Some? && c.channel.value.fd0 == port.fd)
    && (port.uac && c.channel.Some? && !c.master ==> c.channel.value.fd0 == -1)
  }

  predicate AllWired(calls: seq<Call>, port: Port) {
    forall k :: 0 <= k < |calls| ==> Wired(calls[k], port)
  }

  predicate OneMaster(calls: seq<Call>) {
    forall j, k :: 0 <= j < k < |calls| ==> !(calls[j].master && calls[k].master)
  }

  predicate Core(d: Device) {
    && Distinct(Ids(d.calls))
    && Owned(d.owners, Ids(d.calls))
    && d.tally.chansno == |d.calls|
    && Buffered(d.bufs, d.port, d.calls != [])
    && AllWired(d.calls, d.port)
    && OneMaster(d.calls)
  }

  /** No live call rests in the released state. */
  predicate Inv(d: Device) {
    Core(d) && Released !in States(d.calls)
  }

  // ---------------------------------------------------- changes of the call list

  /** Same calls, in the same states. */
  predicate SameCalls(prev: seq<Call>, next: seq<Call>) {
    Ids(prev) == Ids(next) && States(prev) == States(next)
  }

  lemma IdsAppend(calls: seq<Call>, c: Call)
    ensures Ids(calls + [c]) == Ids(calls) + [c.id]
    ensures States(calls + [c]) == States(calls) + [c.state]
  {
  }

  lemma IdsUpdate(calls: seq<Call>, i: nat, c: Call)
    requires i < |calls| && c.id == calls[i].id
    ensures Ids(calls[i := c]) == Ids(calls)
    ensures States(calls[i := c]) == States(calls)[i := c.state]
  {
  }

  lemma IdsRemove(calls: seq<Call>, i: nat)
    requires i < |calls|
    ensures Ids(RemoveAt(calls, i)) == RemoveAt(Ids(calls), i)
    ensures States(RemoveAt(calls, i)) == RemoveAt(States(calls), i)
  {
  }

  lemma DistinctRemove(ids: seq<nat>, i: nat)
    requires i < |ids| && Distinct(ids)
    ensures Distinct(RemoveAt(ids, i)) && ids[i] !in RemoveAt(ids, i)
    ensures forall x :: x in ids && x != ids[i] ==> x in RemoveAt(ids, i)
  {
    forall x | x in ids && x != ids[i] ensures x in RemoveAt(ids, i) {
      var k :| 0 <= k < |ids| && ids[k] == x;
      assert RemoveAt(ids, i)[if k < i then k else k - 1] == x;
    }
  }

  lemma MultisetRemove<T>(s: seq<T>, i: nat)
    requires i < |s|
    ensures multiset(s) == multiset(RemoveAt(s, i)) + multiset{s[i]}
  {
    assert s == s[..i] + [s[i]] + s[i + 1..];
  }

  lemma OwnedRelink(owners: seq<Option<nat>>, ids: seq<nat>, i: nat)
    requires i < |ids| && Distinct(ids) && Owned(owners, ids)
    ensures Owned(Relink(owners, ids[i]), RemoveAt(ids, i))
  {
    DistinctRemove(ids, i);
  }

  lemma OwnedBehind(owners: seq<Option<nat>>, ids: seq<nat>, o: Option<nat>)
    requires Owned(owners, ids) && (o.None? || o.value in ids)
    ensures Owned(Behind(owners, o), ids) && Owned(owners + [o], ids)
  {
  }

  // ------------------------------------------------------------ audio ownership

  lemma Demoted(calls: seq<Call>, i: nat, own: Call, port: Port)
    requires i < |calls| && own.id == calls[i].id && own.state == calls[i].state
    requires AllWired(calls, port) && Wired(own, port)
    ensures var r := DemoteOthers(calls, i, port.uac)[i := own];
      SameCalls(calls, r) && AllWired(r, port) && OneMaster(r)
  {
    hide Demote, Wired;
    var r := DemoteOthers(calls, i, port.uac)[i := own];
    forall k | 0 <= k < |calls|
      ensures r[k].id == calls[k].id && r[k].state == calls[k].state && Wired(r[k], port)
      ensures k != i ==> !r[k].master
    {
      DemotedOne(calls[k], port);
    }
    assert Ids(r) == Ids(calls);
    assert States(r) == States(calls);
  }

  lemma DemotedOne(c: Call, port: Port)
    ensures var r := Demote(c, port.uac);
      && r.id == c.id && r.state == c.state && !r.master && r.activated == c.activated
      && (Wired(c, port) ==> Wired(r, port))
  {
  }

  lemma Promoted(c: Call, port: Port, timer: int, res: int)
    requires Wired(c, port) && c.channel.Some? && !c.local && !c.master
    ensures Wired(Promote(c, port, timer, res), port)
  {
  }

  lemma ActivateKeeps(d: Device, i: nat, a: Alsa)
    requires Core(d) && i < |d.calls| && d.calls[i].channel.Some?
    ensures var e := Activate(d, i, a).d;
      Core(e) && SameCalls(d.calls, e.calls) && e.owners == d.owners && e.tally == d.tally && e.port == d.port
  {
    hide Ids, States, Distinct, Owned, Buffered, Wired, OneMaster, DemoteOthers, Promote, Capture;
    var c := d.calls[i];
    if !c.master && !c.local {
      var t := Capture(d.port, d.cards, OtherMaster(d.calls, i), a);
      Promoted(c, d.port, TimerFd(d.bufs), t.res);
      PromoteSame(c, d.port, TimerFd(d.bufs), t.res);
      Demoted(d.calls, i, Promote(c, d.port, TimerFd(d.bufs), t.res), d.port);
    }
  }

  lemma PromoteSame(c: Call, port: Port, timer: int, res: int)
    ensures var r := Promote(c, port, timer, res); r.id == c.id && r.state == c.state
  {
  }

  lemma Retired(calls: seq<Call>, i: nat, port: Port)
    requires i < |calls| && AllWired(calls, port) && OneMaster(calls)
    ensures var r := calls[i := Retire(calls[i], port.uac)];
      SameCalls(calls, r) && AllWired(r, port) && OneMaster(r)
  {
    IdsUpdate(calls, i, Retire(calls[i], port.uac));
  }

  lemma DisactivateKeeps(d: Device, i: nat, a: Alsa)
    requires Core(d) && i < |d.calls|
    ensures var e := Disactivate(d, i, a);
      Core(e) && SameCalls(d.calls, e.calls) && e.owners == d.owners && e.tally == d.tally && e.port == d.port
  {
    hide Ids, States, Distinct, Owned, Buffered, Wired, OneMaster, AllWired, Retire;
    Retired(d.calls, i, d.port);
  }

  // ------------------------------------------------------------- life of a call

  lemma RemovedWired(calls: seq<Call>, i: nat, port: Port)
    requires i < |calls| && AllWired(calls, port) && OneMaster(calls)
    ensures AllWired(RemoveAt(calls, i), port) && OneMaster(RemoveAt(calls, i))
  {
  }

  lemma FreeKeeps(d: Device, i: nat)
    requires Core(d) && i < |d.calls|
    ensures var e := Free(d, i);
      Core(e) && Ids(e.calls) == RemoveAt(Ids(d.calls), i) && States(e.calls) == RemoveAt(States(d.calls), i)
  {
    hide Ids, States, Distinct, Owned, Wired, AllWired, OneMaster, Relink;
    IdsRemove(d.calls, i);
    DistinctRemove(Ids(d.calls), i);
    OwnedRelink(d.owners, Ids(d.calls), i);
    RemovedWired(d.calls, i, d.port);
  }

  lemma EnterKeeps(d: Device, i: nat, next: CallState)
    requires Core(d) && i < |d.calls|
    ensures var e := Enter(d, i, next);
      Core(e) && Ids(e.calls) == Ids(d.calls) && States(e.calls) == States(d.calls)[i := next]
  {
    hide Owned, Distinct, Buffered, UpdateFlags, Bump;
    IdsUpdate(d.calls, i, d.calls[i].(state := next));
  }

  lemma QueueKeeps(d: Device, o: Option<nat>)
    requires Core(d) && (o.None? || o.value in Ids(d.calls))
    ensures Core(d.(owners := Behind(d.owners, o))) && Core(d.(owners := d.owners + [o]))
  {
    hide Ids, States, Distinct, Owned, Buffered, Wired, AllWired, OneMaster;
    OwnedBehind(d.owners, Ids(d.calls), o);
  }

  /** Only a release removes a call, and only that one. */
  lemma ChangeStateKeeps(d: Device, i: nat, next: CallState, a: Alsa)
    requires Core(d) && i < |d.calls|
    ensures var e := ChangeState(d, i, next, a);
      && Core(e) && e.port == d.port
      && var states := States(d.calls)[i := next];
         if next == Released && d.calls[i].state != Released
         then Ids(e.calls) == RemoveAt(Ids(d.calls), i) && States(e.calls) == RemoveAt(states, i)
         else Ids(e.calls) == Ids(d.calls) && States(e.calls) == states
  {
    hide Core, Activate, Disactivate, Free, Enter, RemoveAt, Behind;
    if d.calls[i].state != next {
      var e := Enter(d, i, next);
      EnterKeeps(d, i, next);
      EnterOne(d, i, next);
      DisactivateKeeps(e, i, a);
      if e.calls[i].channel.Some? { ActivateKeeps(e, i, a); }
      if next == Released {
        FreeKeeps(Disactivate(e, i, a), i);
        FreeKeeps(e, i);
        FreePort(Disactivate(e, i, a), i);
        FreePort(e, i);
      } else {
        QueueKeeps(e, None);
      }
    }
  }

  lemma EnterOne(d: Device, i: nat, next: CallState)
    requires i < |d.calls|
    ensures var e := Enter(d, i, next); e.port == d.port && e.calls == d.calls[i := d.calls[i].(state := next)]
  {
  }

  lemma FreePort(d: Device, i: nat)
    requires i < |d.calls|
    ensures Free(d, i).port == d.port
  {
  }

  lemma HangupKeeps(d: Device, i: nat, q: Enqueued, a: Alsa)
    requires Core(d) && i < |d.calls|
    ensures var e := Hangup(d, i, q, a);
      Core(e) && e.port == d.port && SameCalls(d.calls, e.calls) && e.tally == d.tally
  {
    hide Ids, States, Distinct, Owned, Buffered, Behind, Ask, Disactivate, Wired, OneMaster;
    if d.calls[i].channel.Some? {
      AskKeeps(d, i, q);
      var f := Disactivate(Ask(d, i, q), i, a);
      DisactivateKeeps(Ask(d, i, q), i, a);
      DisactivateOff(Ask(d, i, q), i, a);
      Recast(f.calls, i, f.calls[i].(channel := None), d.port);
    }
  }

  lemma OwnedBehindOwn(owners: seq<Option<nat>>, calls: seq<Call>, i: nat)
    requires i < |calls| && Owned(owners, Ids(calls))
    ensures Owned(Behind(owners, Some(calls[i].id)), Ids(calls))
  {
    assert Ids(calls)[i] == calls[i].id;
  }

  lemma AskKeeps(d: Device, i: nat, q: Enqueued)
    requires Core(d) && i < |d.calls|
    ensures var e := Ask(d, i, q);
      && Core(e) && SameCalls(d.calls, e.calls) && e == d.(calls := e.calls, owners := e.owners)
      && e.calls == d.calls[i := e.calls[i]] && e.calls[i] == d.calls[i].(needHangup := e.calls[i].needHangup)
  {
    hide Ids, States, Distinct, Owned, Buffered, Behind, Wired, OneMaster;
    NeedlessWired(d.calls[i], d.port);
    Recast(d.calls, i, d.calls[i].(needHangup := false), d.port);
    OwnedBehindOwn(d.owners, d.calls, i);
  }

  lemma DisactivateOff(d: Device, i: nat, a: Alsa)
    requires AllWired(d.calls, d.port) && i < |d.calls|
    ensures !Disactivate(d, i, a).calls[i].activated && !Disactivate(d, i, a).calls[i].master
  {
  }

  /** Replacing one call by itself with fewer rights. */
  lemma Recast(calls: seq<Call>, i: nat, c: Call, port: Port)
    requires i < |calls| && c.id == calls[i].id && c.state == calls[i].state
    requires AllWired(calls, port) && OneMaster(calls)
    requires Wired(calls[i], port) ==> Wired(c, port)
    requires c.master ==> calls[i].master
    ensures SameCalls(calls, calls[i := c]) && AllWired(calls[i := c], port) && OneMaster(calls[i := c])
  {
    IdsUpdate(calls, i, c);
  }

  lemma AllocKeeps(d: Device, c: Call, timer: Option<int>)
    requires Core(d) && c.id !in Ids(d.calls) && Fresh(c)
    ensures var e := Alloc(d, c, timer);
      && Core(e) && e.port == d.port
      && Ids(e.calls) == Ids(d.calls) + [c.id] && States(e.calls) == States(d.calls) + [Init]
  {
    hide Ids, States;
    IdsAppend(d.calls, c);
  }

  lemma ChannelKeeps(d: Device, i: nat, ch: Channel)
    requires Core(d) && i < |d.calls| && d.calls[i].channel.None? && (d.port.uac ==> ch.fd0 == -1)
    ensures var e := d.(calls := d.calls[i := d.calls[i].(channel := Some(ch))]);
      Core(e) && SameCalls(d.calls, e.calls)
  {
    hide Ids, States, Distinct, Owned, Buffered, OneMaster;
    Recast(d.calls, i, d.calls[i].(channel := Some(ch)), d.port);
  }

  lemma NewCallKeeps(d: Device, c: Call, timer: Option<int>, channelOk: bool, state: CallState, a: Alsa)
    requires Core(d) && c.id !in Ids(d.calls) && Fresh(c) && state != Released
    ensures var e := NewCall(d, c, timer, channelOk, state, a);
      && Core(e)
      && States(e.calls) == if channelOk then States(d.calls) + [state] else States(d.calls)
  {
    hide Core, Ids, States, Alloc, Free, ChangeState, RemoveAt;
    var e := Alloc(d, c, timer);
    var i := |d.calls|;
    AllocKeeps(d, c, timer);
    AllocLast(d, c, timer);
    if channelOk {
      var ch := NewChannel(e.port, e.bufs);
      ChannelKeeps(e, i, ch);
      var f := e.(calls := e.calls[i := c.(channel := Some(ch))]);
      if state != Init { ChangeStateKeeps(f, i, state, a); }
      UpdateLast(States(d.calls), Init, state);
    } else {
      FreeKeeps(e, i);
      RemoveLast(States(d.calls), Init);
    }
  }

  lemma AllocLast(d: Device, c: Call, timer: Option<int>)
    ensures Alloc(d, c, timer).calls == d.calls + [c]
  {
  }

  lemma UpdateLast<T>(s: seq<T>, x: T, y: T)
    ensures (s + [x])[|s| := y] == s + [y]
  {
  }

  lemma RemoveLast<T>(s: seq<T>, x: T)
    ensures RemoveAt(s + [x], |s|) == s
  {
  }

  /** The disconnect loop frees every call from the k-th on. */
  lemma {:induction false} ReleaseFromKeeps(d: Device, k: nat, a: Alsa)
    requires Core(d) && k <= |d.calls| && Released !in States(d.calls)
    ensures var e := ReleaseFrom(d, k, a);
      Core(e) && e.port == d.port && Ids(e.calls) == Ids(d.calls)[..k] && States(e.calls) == States(d.calls)[..k]
    decreases |d.calls| - k
  {
    hide Core, ChangeState, RemoveAt;
    if k < |d.calls| {
      var c := d.calls[k];
      var e := d.(owners := d.owners + [Some(c.id)], calls := d.calls[k := c.(needHangup := false)]);
      PrepareRelease(d, k);
      var f := ChangeState(e, k, Released, a);
      ChangeStateKeeps(e, k, Released, a);
      CutTail(Ids(d.calls), Ids(d.calls), k);
      CutTail(States(d.calls), States(d.calls)[k := Released], k);
      assert c.state == States(d.calls)[k];
      ReleaseFromKeeps(f, k, a);
    } else {
      assert Ids(d.calls)[..k] == Ids(d.calls) && States(d.calls)[..k] == States(d.calls);
    }
  }

  lemma PrepareRelease(d: Device, k: nat)
    requires Core(d) && k < |d.calls|
    ensures var c := d.calls[k];
      var e := d.(owners := d.owners + [Some(c.id)], calls := d.calls[k := c.(needHangup := false)]);
      Core(e) && SameCalls(d.calls, e.calls)
  {
    hide Ids, States, Distinct, Buffered, OneMaster, AllWired, Wired;
    var c := d.calls[k];
    NeedlessWired(c, d.port);
    Recast(d.calls, k, c.(needHangup := false), d.port);
    assert Ids(d.calls)[k] == c.id;
  }

  lemma NeedlessWired(c: Call, port: Port)
    ensures Wired(c, port) ==> Wired(c.(needHangup := false), port)
  {
  }

  lemma CutTail<T>(s: seq<T>, t: seq<T>, k: nat)
    requires k < |s| == |t| && s[..k] == t[..k] && s[k + 1..] == t[k + 1..]
    ensures RemoveAt(t, k)[..k] == s[..k]
    ensures forall x :: x in RemoveAt(t, k) ==> x in s
  {
  }

  /** Disconnecting leaves no call, no task, no buffer and no descriptor. */
  lemma DisconnectKeeps(d: Device, a: Alsa)
    requires Inv(d)
    ensures var e := Disconnect(d, a);
      && Inv(e) && e.calls == [] && e.owners == [] && e.bufs == NOBUFS && e.port == d.port.(fd := -1)
      && e.flags == Flags(false, false, false)
      && (e.port.uac ==> e.cards.icard.None? && e.cards.ocard.None?)
  {
    hide ReleaseFrom;
    ReleaseFromKeeps(d, 0, a);
  }

  lemma HasIn(calls: seq<Call>, id: nat)
    ensures Has(calls, id) == (id in Ids(calls))
  {
    if Has(calls, id) {
      var k :| 0 <= k < |calls| && calls[k].id == id;
      assert Ids(calls)[k] == id;
    }
  }

  // --------------------------------------------------------------------- runs

  lemma StatesUpdate(s: seq<CallState>, i: nat, x: CallState)
    requires i < |s| && Released !in s
    ensures x != Released ==> Released !in s[i := x]
    ensures Released !in RemoveAt(s[i := x], i)
  {
  }

  lemma ReportInv(d: Device, i: nat, next: CallState, a: Alsa)
    requires Inv(d) && i < |d.calls|
    ensures Inv(ChangeState(d, i, next, a))
  {
    hide Core, ChangeState, RemoveAt, Ids, States;
    ChangeStateKeeps(d, i, next, a);
    StatesUpdate(States(d.calls), i, next);
    assert d.calls[i].state == States(d.calls)[i] by { StateAt(d.calls, i); }
  }

  lemma StateAt(calls: seq<Call>, i: nat)
    requires i < |calls|
    ensures States(calls)[i] == calls[i].state
  {
  }

  lemma DialedInv(d: Device, a: Alsa)
    requires Inv(d) && Enabled(d, DialAccepted)
    ensures Inv(Dialed(d, a))
  {
    hide Core, ChangeState, Ids, States, Has;
    var e := d.(flags := d.flags.(dialing := true));
    assert Core(e) by { FlagsKeep(d); }
    match d.owners[0]
    case None => OrphanKeeps(e);
    case Some(id) => ReportInv(e, IndexOf(d.calls, id), Dialing, a);
  }

  lemma FlagsKeep(d: Device)
    ensures Core(d) ==> Core(d.(flags := d.flags.(dialing := true)))
  {
  }

  lemma OrphanKeeps(d: Device)
    requires Core(d)
    ensures Core(OrphanDial(d)) && OrphanDial(d).calls == d.calls
  {
    hide Ids, States, Distinct, Buffered, OneMaster, AllWired;
    OwnedBehind(d.owners, Ids(d.calls), None);
  }

  lemma WantKeeps(d: Device, i: nat)
    requires Core(d) && i < |d.calls|
    ensures var e := d.(calls := d.calls[i := d.calls[i].(needHangup := true)]);
      Core(e) && SameCalls(d.calls, e.calls)
  {
    hide Ids, States, Distinct, Owned, Buffered, OneMaster;
    Recast(d.calls, i, d.calls[i].(needHangup := true), d.port);
  }

  lemma FreeInv(d: Device, i: nat)
    requires Inv(d) && i < |d.calls|
    ensures Inv(Free(d, i))
  {
    hide Core, Free, Ids, States;
    FreeKeeps(d, i);
  }

  lemma RestInv(d: Device, s: Step)
    requires Inv(d) && Enabled(d, s.op)
    requires s.op.Queue? || s.op.TaskDone? || s.op.CardEvent? || s.op.Connect?
    ensures Inv(Do(d, s))
  {
    hide Ids, States, Behind, Has, Distinct, OneMaster;
    match s.op
    case Queue(o, _) =>
      if o.Some? { HasIn(d.calls, o.value); }
      OwnedBehind(d.owners, Ids(d.calls), o);
    case _ =>
  }

  /** Each step, whatever the sound library answers. */
  lemma StepKeepsInv(d: Device, s: Step)
    requires Inv(d) && Enabled(d, s.op)
    ensures Inv(Do(d, s))
  {
    hide Core, Has, ChangeState, Free, Disactivate, Hangup, NewCall, Disconnect, Dialed, Ids, States;
    var a := s.alsa;
    match s.op
    case New(c, timer, ok, state) =>
      HasIn(d.calls, c.id);
      NewCallKeeps(d, c, timer, ok, state, a);
    case Report(id, state) => ReportInv(d, IndexOf(d.calls, id), state, a);
    case HangUp(id, q) => HangupKeeps(d, IndexOf(d.calls, id), q, a);
    case PbxFailed(id) => FreeInv(d, IndexOf(d.calls, id));
    case CaptureFailed(id) => DisactivateKeeps(d, IndexOf(d.calls, id), a);
    case WantHangup(id) => WantKeeps(d, IndexOf(d.calls, id));
    case DialAccepted => DialedInv(d, a);
    case Unplug => DisconnectKeeps(d, a);
    case _ => RestInv(d, s);
  }

  /** Over every run: call numbers are unique, chansno is their number, no live
      call is released, buffers exist iff a call is live, every task has a live
      owner, at most one call is master, a master is activated and polls the audio
      descriptor, and in UAC mode nobody else does. */
  lemma {:induction false} RunKeepsInv(d: Device, steps: seq<Step>)
    requires Inv(d) && EnabledAll(d, steps)
    ensures Inv(DoAll(d, steps))
    decreases |steps|
  {
    hide Inv, Do;
    if steps != [] {
      StepKeepsInv(d, steps[0]);
      RunKeepsInv(Do(d, steps[0]), steps[1..]);
    }
  }

  lemma StartInv(port: Port, cards: Cards)
    ensures Inv(Start(port, cards))
  {
  }

  lemma NoSteps(d: Device)
    ensures EnabledAll(d, []) && DoAll(d, []) == d
  {
  }

  lemma OneStep(d: Device, s: Step, steps: seq<Step>)
    requires Enabled(d, s.op) && EnabledAll(Do(d, s), steps)
    ensures EnabledAll(d, [s] + steps) && DoAll(d, [s] + steps) == DoAll(Do(d, s), steps)
  {
    hide Do, Enabled;
    assert ([s] + steps)[1..] == steps;
  }
}
