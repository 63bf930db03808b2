/** Who owns the audio of a device in UAC mode, and when the sound card is stopped. */
module CallMaster {
  import opened Basics
  import opened CallSpec
  import opened CallRuns

  // ------------------------------------------------------------------ takeover

  /** Starting capture works exactly when the capture stream ends up running,
      whatever state it was in and whichever attempts were interrupted. */
  lemma CaptureRuns(pcm: Option<Pcm>, a: Alsa)
    ensures TryCapture(pcm, a).res >= 0 <==> TryCapture(pcm, a).pcm == Some(Running)
  {
    var first := StartCapture(pcm, a.prepare1, a.start1);
    assert first.res >= 0 <==> first.pcm == Some(Running);
  }

  /** Taking over either ends with exactly that call as master, polling the audio
      descriptor of a running capture, or fails with no master at all. */
  lemma Takeover(d: Device, i: nat, a: Alsa)
    requires Core(d) && i < |d.calls| && d.port.uac && d.port.fd >= 0
    requires d.calls[i].channel.Some? && !d.calls[i].local && !d.calls[i].master
    ensures var r := Activate(d, i, a); var calls := r.d.calls;
      && |calls| == |d.calls|
      && (r.res == 0 || r.res == -1)
      && (r.res == 0 <==> r.d.cards.icard == Some(Running))
      && (r.res == 0 ==> forall k :: 0 <= k < |calls| ==> (calls[k].master <==> k == i))
      && (r.res == 0 ==> calls[i].activated)
      && (r.res == 0 ==>
            calls[i].channel == Some(Channel(d.port.fd, if d.bufs.timer.Some? then d.bufs.timer.value else -1)))
      && (r.res == -1 ==> forall k :: 0 <= k < |calls| ==> !calls[k].master)
      && forall k :: 0 <= k < |calls| && (k != i || r.res == -1) && calls[k].channel.Some? ==>
           calls[k].channel.value == Channel(-1, -1)
  {
    hide Ids, Distinct, Owned, Buffered, AllWired, OneMaster, TryCapture;
    var cards := if OtherMaster(d.calls, i) then StopUac(d.cards, a) else d.cards;
    CaptureRuns(cards.icard, a);
  }

  // -------------------------------------------------------------- mastership lost

  predicate IsMaster(calls: seq<Call>, id: nat) {
    exists k :: 0 <= k < |calls| && calls[k].id == id && calls[k].master
  }

  /** Some master of `prev` is no longer master in `next`. */
  predicate Lost(prev: seq<Call>, next: seq<Call>) {
    exists k :: 0 <= k < |prev| && prev[k].master && !IsMaster(next, prev[k].id)
  }

  /** The sound card is stopped exactly when a master is deposed, and then once. */
  predicate StopsWhenLost(d: Device, e: Device) {
    e.cards.stops == d.cards.stops + if Lost(d.calls, e.calls) then 1 else 0
  }

  lemma MasterAt(calls: seq<Call>, k: nat)
    requires k < |calls| && Distinct(Ids(calls))
    ensures IsMaster(calls, calls[k].id) <==> calls[k].master
  {
    if IsMaster(calls, calls[k].id) {
      var j :| 0 <= j < |calls| && calls[j].id == calls[k].id && calls[j].master;
      assert Ids(calls)[j] == Ids(calls)[k];
    }
  }

  /** With the same calls in the same places, mastership can be read off by place. */
  lemma LostAt(prev: seq<Call>, next: seq<Call>)
    requires Distinct(Ids(prev)) && Ids(next) == Ids(prev)
    ensures |prev| == |next|
    ensures Lost(prev, next) <==> exists k :: 0 <= k < |prev| && prev[k].master && !next[k].master
  {
    hide IsMaster, Distinct;
    assert |Ids(prev)| == |Ids(next)|;
    forall k | 0 <= k < |prev| ensures IsMaster(next, prev[k].id) <==> next[k].master {
      assert Ids(next)[k] == Ids(prev)[k];
      MasterAt(next, k);
    }
  }

  lemma NotLost(prev: seq<Call>, next: seq<Call>)
    requires Distinct(Ids(prev)) && |next| == |prev|
    requires forall k :: 0 <= k < |prev| ==> next[k].id == prev[k].id && (prev[k].master ==> next[k].master)
    ensures !Lost(prev, next)
  {
    assert Ids(prev) == Ids(next);
    LostAt(prev, next);
  }

  lemma ActivateStops(d: Device, i: nat, a: Alsa)
    requires Core(d) && i < |d.calls| && d.port.uac && d.calls[i].channel.Some?
    ensures StopsWhenLost(d, Activate(d, i, a).d)
  {
    hide Owned, Buffered, TryCapture, Lost, StopUac, Core, Ids, Demote;
    var e := Activate(d, i, a).d;
    var c := d.calls[i];
    CoreParts(d, i);
    ActivateKeeps(d, i, a);
    LostAt(d.calls, e.calls);
    if c.master || c.local {
    } else {
      assert forall k :: 0 <= k < |d.calls| && k != i ==> !e.calls[k].master by { OthersDemoted(d, i, a); }
      StopOnce(d.cards, a);
    }
  }

  lemma StopOnce(cards: Cards, a: Alsa)
    ensures StopUac(cards, a).stops == cards.stops + 1
  {
  }

  lemma OthersDemoted(d: Device, i: nat, a: Alsa)
    requires i < |d.calls| && !d.calls[i].master && !d.calls[i].local
    ensures forall k :: 0 <= k < |d.calls| && k != i ==> !Activate(d, i, a).d.calls[k].master
  {
    hide Promote, Capture, Demote;
    forall k | 0 <= k < |d.calls| ensures !Demote(d.calls[k], d.port.uac).master { DemotedOne(d.calls[k], d.port); }
  }

  lemma CoreParts(d: Device, i: nat)
    requires Core(d) && i < |d.calls|
    ensures Distinct(Ids(d.calls)) && d.tally.chansno == |d.calls|
    ensures d.calls[i].master ==> d.calls[i].activated && d.port.fd >= 0 && !d.calls[i].local
    ensures d.calls[i].channel.None? ==> !d.calls[i].master && !d.calls[i].activated
    ensures forall k :: 0 <= k < |d.calls| && d.calls[k].master ==> d.port.fd >= 0
  {
    assert Wired(d.calls[i], d.port);
  }

  lemma DisactivateStops(d: Device, i: nat, a: Alsa)
    requires Core(d) && i < |d.calls| && d.port.uac
    ensures var e := Disactivate(d, i, a); StopsWhenLost(d, e) && !e.calls[i].master
    ensures !d.calls[i].master ==> Disactivate(d, i, a).cards == d.cards
  {
    hide Owned, Buffered, Lost, StopUac, Core, Ids, WithFds;
    var e := Disactivate(d, i, a);
    CoreParts(d, i);
    DisactivateKeeps(d, i, a);
    LostAt(d.calls, e.calls);
    StopOnce(d.cards, a);
    RetiredMaster(d.calls[i], d.port.uac);
  }

  lemma RetiredMaster(c: Call, uac: bool)
    ensures !Retire(c, uac).master
  {
  }

  /** Freeing a call that is not master deposes nobody. */
  lemma LostFree(prev: seq<Call>, calls: seq<Call>, i: nat)
    requires i < |calls| && !calls[i].master && Ids(prev) == Ids(calls) && Distinct(Ids(prev))
    ensures Lost(prev, RemoveAt(calls, i)) <==> Lost(prev, calls)
  {
    hide RemoveAt, Distinct, Ids;
    forall id ensures IsMaster(RemoveAt(calls, i), id) <==> IsMaster(calls, id) {
      MasterRemoved(calls, i, id);
    }
  }

  lemma MasterRemoved(calls: seq<Call>, i: nat, id: nat)
    requires i < |calls| && !calls[i].master
    ensures IsMaster(RemoveAt(calls, i), id) <==> IsMaster(calls, id)
  {
    var r := RemoveAt(calls, i);
    if IsMaster(calls, id) {
      var k :| 0 <= k < |calls| && calls[k].id == id && calls[k].master;
      assert r[if k < i then k else k - 1] == calls[k];
    }
    if IsMaster(r, id) {
      var k :| 0 <= k < |r| && r[k].id == id && r[k].master;
      assert calls[if k < i then k else k + 1] == r[k];
    }
  }

  lemma MasterUpdated(calls: seq<Call>, i: nat, c: Call, id: nat)
    requires i < |calls| && c.id == calls[i].id && c.master == calls[i].master
    ensures IsMaster(calls[i := c], id) <==> IsMaster(calls, id)
  {
    var r := calls[i := c];
    if IsMaster(calls, id) {
      var k :| 0 <= k < |calls| && calls[k].id == id && calls[k].master;
      assert r[k].id == id && r[k].master;
    }
    if IsMaster(r, id) {
      var k :| 0 <= k < |r| && r[k].id == id && r[k].master;
      assert calls[k].id == id && calls[k].master;
    }
  }

  /** A call replaced by one with the same rights, before or after a step. */
  lemma LostUpdated(prev: seq<Call>, next: seq<Call>, i: nat, c: Call)
    requires i < |prev| && c.id == prev[i].id && c.master == prev[i].master
    ensures Lost(prev[i := c], next) <==> Lost(prev, next)
  {
    hide IsMaster;
    var r := prev[i := c];
    if Lost(prev, next) {
      var k :| 0 <= k < |prev| && prev[k].master && !IsMaster(next, prev[k].id);
      assert r[k].master && !IsMaster(next, r[k].id);
    }
    if Lost(r, next) {
      var k :| 0 <= k < |r| && r[k].master && !IsMaster(next, r[k].id);
      assert prev[k].master && !IsMaster(next, prev[k].id);
    }
  }

  lemma ChangeStateStops(d: Device, i: nat, next: CallState, a: Alsa)
    requires Core(d) && i < |d.calls| && d.port.uac
    ensures StopsWhenLost(d, ChangeState(d, i, next, a))
  {
    hide Core, Activate, Disactivate, Lost, Behind, Bump, UpdateFlags, Relink, Ids, Distinct, RemoveAt;
    var c := d.calls[i];
    CoreParts(d, i);
    if c.state == next {
      NotLost(d.calls, d.calls);
    } else {
      var e := Enter(d, i, next);
      EnterKeeps(d, i, next);
      CoreParts(e, i);
      var r := ChangeState(d, i, next, a);
      LostUpdated(d.calls, r.calls, i, c.(state := next));
      var f := Disactivate(e, i, a);
      DisactivateStops(e, i, a);
      DisactivateKeeps(e, i, a);
      LostFree(e.calls, f.calls, i);
      NotLost(e.calls, e.calls);
      if c.channel.Some? { ActivateStops(e, i, a); } else { LostFree(e.calls, e.calls, i); }
    }
  }

  lemma HangupStops(d: Device, i: nat, q: Enqueued, a: Alsa)
    requires Core(d) && i < |d.calls| && d.port.uac
    ensures StopsWhenLost(d, Hangup(d, i, q, a))
  {
    hide Core, Disactivate, Lost, Behind, Ask, Ids, States, Distinct;
    CoreParts(d, i);
    NotLost(d.calls, d.calls);
    if d.calls[i].channel.Some? {
      AskKeeps(d, i, q);
      var e := Ask(d, i, q);
      var f := Disactivate(e, i, a);
      var r := Hangup(d, i, q, a);
      DisactivateStops(e, i, a);
      LostUpdated(d.calls, f.calls, i, e.calls[i]);
      forall id ensures IsMaster(r.calls, id) <==> IsMaster(f.calls, id) {
        MasterUpdated(f.calls, i, f.calls[i].(channel := None), id);
      }
      LostSame(d.calls, f.calls, r.calls);
    }
  }

  lemma LostSame(prev: seq<Call>, x: seq<Call>, y: seq<Call>)
    requires forall id :: IsMaster(y, id) <==> IsMaster(x, id)
    ensures Lost(prev, x) <==> Lost(prev, y)
  {
    hide IsMaster;
  }

  lemma LostAppend(prev: seq<Call>, c: Call, next: seq<Call>)
    requires !c.master
    ensures Lost(prev + [c], next) <==> Lost(prev, next)
  {
    hide IsMaster;
    if Lost(prev, next) {
      var k :| 0 <= k < |prev| && prev[k].master && !IsMaster(next, prev[k].id);
      assert (prev + [c])[k] == prev[k];
    }
  }

  lemma NewCallStops(d: Device, c: Call, timer: Option<int>, channelOk: bool, state: CallState, a: Alsa)
    requires Core(d) && d.port.uac && c.id !in Ids(d.calls) && Fresh(c)
    ensures StopsWhenLost(d, NewCall(d, c, timer, channelOk, state, a))
  {
    hide Core, Lost, Ids, States, Distinct, ChangeState, Relink, Bump, FirstBufs;
    var e := Alloc(d, c, timer);
    var i := |d.calls|;
    AllocKeeps(d, c, timer);
    assert Distinct(Ids(d.calls)) by { DistinctIds(d); }
    NotLost(d.calls, d.calls);
    if channelOk {
      var own := c.(channel := Some(NewChannel(e.port, e.bufs)));
      var f := e.(calls := d.calls + [own]);
      assert e.calls[i := own] == f.calls;
      assert Core(f) by { ChannelKeeps(e, i, NewChannel(e.port, e.bufs)); }
      NotLost(d.calls + [own], d.calls + [own]) by { DistinctIds(f); }
      if state != Init { ChangeStateStops(f, i, state, a); }
      LostAppend(d.calls, own, NewCall(d, c, timer, channelOk, state, a).calls);
    } else {
      RemoveLast(d.calls, c);
    }
  }

  lemma DistinctIds(d: Device)
    requires Core(d)
    ensures Distinct(Ids(d.calls))
  {
  }

  /** Releasing a call removes it, and stops the sound card if it was master. */
  lemma ReleaseOne(d: Device, i: nat, a: Alsa)
    requires Core(d) && i < |d.calls| && d.port.uac && d.calls[i].state != Released
    ensures var e := ChangeState(d, i, Released, a);
      && e.calls == RemoveAt(d.calls, i)
      && e.cards.stops == d.cards.stops + if d.calls[i].master then 1 else 0
  {
    hide Core, Relink, Bump, UpdateFlags, Retire, Unlink, Drop;
    CoreParts(d, i);
  }

  predicate MasterFrom(calls: seq<Call>, k: nat) {
    exists j :: k <= j < |calls| && calls[j].master
  }

  lemma MasterFromNext(calls: seq<Call>, k: nat)
    requires k < |calls| && OneMaster(calls)
    ensures MasterFrom(calls, k) <==> calls[k].master || MasterFrom(RemoveAt(calls, k), k)
    ensures !(calls[k].master && MasterFrom(RemoveAt(calls, k), k))
  {
    var r := RemoveAt(calls, k);
    if MasterFrom(calls, k) && !calls[k].master {
      var j :| k <= j < |calls| && calls[j].master;
      assert r[j - 1] == calls[j];
    }
    if MasterFrom(r, k) {
      var j :| k <= j < |r| && r[j].master;
      assert calls[j + 1] == r[j];
    }
  }

  lemma {:induction false} ReleaseFromStops(d: Device, k: nat, a: Alsa)
    requires Core(d) && d.port.uac && k <= |d.calls| && Released !in States(d.calls)
    ensures var e := ReleaseFrom(d, k, a);
      e.calls == d.calls[..k] && e.cards.stops == d.cards.stops + if MasterFrom(d.calls, k) then 1 else 0
    decreases |d.calls| - k
  {
    hide Core, ChangeState, States, MasterFrom, RemoveAt;
    if k < |d.calls| {
      var c := d.calls[k];
      var e := d.(owners := d.owners + [Some(c.id)], calls := d.calls[k := c.(needHangup := false)]);
      PrepareRelease(d, k);
      StateAt(d.calls, k);
      assert c.state in States(d.calls);
      ReleaseOne(e, k, a);
      ChangeStateKeeps(e, k, Released, a);
      StatesUpdate(States(d.calls), k, Released);
      RemoveUpdated(d.calls, k, c.(needHangup := false));
      ReleaseFromStops(ChangeState(e, k, Released, a), k, a);
      MasterFromNext(d.calls, k) by { Masterly(d); }
    } else {
      assert !MasterFrom(d.calls, k) by { NoneFrom(d.calls); }
    }
  }

  lemma NoneFrom(calls: seq<Call>)
    ensures !MasterFrom(calls, |calls|)
  {
  }

  lemma Masterly(d: Device)
    requires Core(d)
    ensures OneMaster(d.calls)
  {
  }

  lemma RemoveUpdated<T>(s: seq<T>, i: nat, x: T)
    requires i < |s|
    ensures RemoveAt(s[i := x], i) == RemoveAt(s, i) && RemoveAt(s, i)[..i] == s[..i]
  {
  }

  lemma DisconnectStops(d: Device, a: Alsa)
    requires Inv(d) && d.port.uac
    ensures StopsWhenLost(d, Disconnect(d, a))
  {
    hide Core, ReleaseFrom, States;
    ReleaseFromStops(d, 0, a);
  }

  lemma DialedStops(d: Device, a: Alsa)
    requires Inv(d) && d.port.uac && Enabled(d, DialAccepted)
    ensures StopsWhenLost(d, Dialed(d, a))
  {
    hide Core, ChangeState, Has, Lost, Ids;
    var e := d.(flags := d.flags.(dialing := true));
    FlagsKeep(d);
    DistinctIds(d);
    NotLost(d.calls, d.calls);
    if d.owners[0].Some? { ChangeStateStops(e, IndexOf(d.calls, d.owners[0].value), Dialing, a); }
  }

  lemma WantStops(d: Device, i: nat)
    requires Core(d) && i < |d.calls|
    ensures !Lost(d.calls, d.calls[i := d.calls[i].(needHangup := true)])
  {
    DistinctIds(d);
    NotLost(d.calls, d.calls[i := d.calls[i].(needHangup := true)]);
  }

  /** Freeing a call never stops the card, and deposes nobody but that call. */
  lemma FreeStopsIff(d: Device, i: nat)
    requires Core(d) && i < |d.calls|
    ensures StopsWhenLost(d, Free(d, i)) <==> !d.calls[i].master
  {
    hide Core, RemoveAt, Relink, Bump, Ids, Distinct, IsMaster;
    DistinctIds(d);
    if d.calls[i].master {
      GoneMaster(d.calls, i);
    } else {
      NotLost(d.calls, d.calls);
      LostFree(d.calls, d.calls, i);
    }
  }

  lemma GoneMaster(calls: seq<Call>, i: nat)
    requires i < |calls| && calls[i].master && Distinct(Ids(calls))
    ensures Lost(calls, RemoveAt(calls, i))
  {
    var id := calls[i].id;
    DistinctRemove(Ids(calls), i);
    IdsRemove(calls, i);
    assert id !in Ids(RemoveAt(calls, i));
    forall k | 0 <= k < |RemoveAt(calls, i)| ensures RemoveAt(calls, i)[k].id != id {
      assert Ids(RemoveAt(calls, i))[k] != id;
    }
  }

  /** The clean-up after ast_pbx_start failed frees the current master. */
  predicate AbandonsMaster(d: Device, op: Op)
    requires Enabled(d, op)
  {
    op.PbxFailed? && d.calls[IndexOf(d.calls, op.id)].master
  }

  /** In UAC mode a step stops the sound card exactly when it deposes the current
      master, and then once, if and only if it is not the direct clean-up of a master
      whose dialplan could not start; that leaves the card running. */
  lemma StepStopsIff(d: Device, s: Step)
    requires Inv(d) && d.port.uac && Enabled(d, s.op)
    ensures StopsWhenLost(d, Do(d, s)) <==> !AbandonsMaster(d, s.op)
  {
    hide Core, Lost, Has, ChangeState, Disactivate, Hangup, NewCall, Disconnect, Dialed, Ids, States, Behind, Free;
    var a := s.alsa;
    DistinctIds(d);
    NotLost(d.calls, d.calls);
    match s.op
    case New(c, timer, ok, state) =>
      HasIn(d.calls, c.id);
      NewCallStops(d, c, timer, ok, state, a);
    case Report(id, state) => ChangeStateStops(d, IndexOf(d.calls, id), state, a);
    case HangUp(id, q) => HangupStops(d, IndexOf(d.calls, id), q, a);
    case PbxFailed(id) => FreeStopsIff(d, IndexOf(d.calls, id));
    case CaptureFailed(id) => DisactivateStops(d, IndexOf(d.calls, id), a);
    case WantHangup(id) => WantStops(d, IndexOf(d.calls, id));
    case DialAccepted => DialedStops(d, a);
    case Unplug => DisconnectStops(d, a);
    case _ =>
  }

  /** An incoming call takes the sound card, and its dialplan does not start. */
  function AbandonRun(c: Call, fd: int, a: Alsa): seq<Step> {
    [Step(Connect(fd, Some(Prepared), Some(Prepared)), a), Step(New(c, None, true, Incoming), a),
     Step(PbxFailed(c.id), a)]
  }

  lemma OneTakes(d: Device, c: Call, a: Alsa) returns (e: Device)
    requires d.port.uac && d.port.fd >= 0 && d.calls == [] && d.cards.icard == Some(Prepared)
    requires Fresh(c) && !c.local && a.start1 >= 0
    ensures var s := Step(New(c, None, true, Incoming), a); Enabled(d, s.op) && e == Do(d, s)
    ensures |e.calls| == 1 && e.calls[0].id == c.id && e.calls[0].master
    ensures e.cards == d.cards.(icard := Some(Running))
  {
    hide Bump, UpdateFlags, FirstBufs;
    e := Do(d, Step(New(c, None, true, Incoming), a));
  }

  lemma LastFreed(d: Device, id: nat, a: Alsa)
    requires |d.calls| == 1 && d.calls[0].id == id
    ensures Enabled(d, PbxFailed(id))
    ensures Do(d, Step(PbxFailed(id), a)).calls == [] && Do(d, Step(PbxFailed(id), a)).cards == d.cards
  {
    hide Bump, Relink;
  }

  /** Capture then goes on running on a device without calls, for nobody. */
  lemma AbandonExample(c: Call, fd: int, a: Alsa)
    requires Fresh(c) && !c.local && fd >= 0 && a.start1 >= 0
    ensures var d := Start(Port(true, false, -1), Cards(None, None, 0));
      && EnabledAll(d, AbandonRun(c, fd, a))
      && var e := DoAll(d, AbandonRun(c, fd, a));
      && e.calls == [] && e.cards == Cards(Some(Running), Some(Prepared), 0)
  {
    var q := AbandonRun(c, fd, a);
    var d := Start(Port(true, false, -1), Cards(None, None, 0));
    var d1 := Do(d, q[0]);
    hide Do, Enabled, DoAll, EnabledAll;
    var d2 := OneTakes(d1, c, a);
    assert d2.calls[0].id == c.id;
    LastFreed(d2, c.id, a);
    NoSteps(Do(d2, q[2]));
    assert q == [q[0]] + ([q[1]] + ([q[2]] + []));
    OneStep(d2, q[2], []);
    OneStep(d1, q[1], [q[2]] + []);
    OneStep(d, q[0], [q[1]] + ([q[2]] + []));
  }

  // ------------------------------------------------------------ late hold, release

  /** What the audio of a device depends on. */
  predicate Undisturbed(d: Device, e: Device) {
    && e.cards == d.cards
    && forall c :: c in d.calls && c.master ==> c in e.calls
  }

  /** A late hold, release or hangup of a call that is not master leaves the sound
      card and the current master, with its descriptors, exactly as they were. */
  lemma LateHold(d: Device, i: nat, next: CallState, q: Enqueued, a: Alsa)
    requires Core(d) && i < |d.calls| && d.port.uac && !d.calls[i].master
    requires next == OnHold || next == Released
    ensures Undisturbed(d, ChangeState(d, i, next, a))
    ensures Undisturbed(d, Hangup(d, i, q, a))
  {
    hide Core, Behind, Relink, Bump, UpdateFlags, Retire, Hangup;
    LateHangup(d, i, q, a);
    var e := ChangeState(d, i, next, a);
    forall c | c in d.calls && c.master ensures c in e.calls {
      var k :| 0 <= k < |d.calls| && d.calls[k] == c;
      if |e.calls| < |d.calls| { assert e.calls[if k < i then k else k - 1] == c; } else { assert e.calls[k] == c; }
    }
  }

  lemma LateHangup(d: Device, i: nat, q: Enqueued, a: Alsa)
    requires i < |d.calls| && d.port.uac && !d.calls[i].master
    ensures Undisturbed(d, Hangup(d, i, q, a))
  {
    hide Behind, Retire;
    var h := Hangup(d, i, q, a);
    forall c | c in d.calls && c.master ensures c in h.calls {
      var k :| 0 <= k < |d.calls| && d.calls[k] == c;
      assert h.calls[k] == c;
    }
  }

  /** Over every run in UAC mode at most one call is master; a master is activated
      and its channel polls the PCM descriptor, and no other channel does. */
  lemma RunKeepsOwner(d: Device, steps: seq<Step>)
    requires Inv(d) && EnabledAll(d, steps)
    ensures var e := DoAll(d, steps);
      && OneMaster(e.calls)
      && forall c :: c in e.calls ==>
           && (c.master ==> c.activated && c.channel.Some?)
           && (e.port.uac && c.channel.Some? ==> (c.channel.value.fd0 >= 0 <==> c.master))
           && (e.port.uac && c.master ==> c.channel.value.fd0 == e.port.fd)
  {
    hide Do, Enabled, Ids, Distinct, Owned, Buffered, EnabledAll, DoAll;
    RunKeepsInv(d, steps);
    var e := DoAll(d, steps);
    forall c | c in e.calls ensures Wired(c, e.port) {
      var k :| 0 <= k < |e.calls| && e.calls[k] == c;
    }
  }
}
