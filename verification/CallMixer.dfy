/** The mixer's stream list and the activated calls (TTY multiparty mode). */
module CallMixer {
  import opened Basics
  import opened CallSpec
  import opened CallRuns

  predicate IsActive(calls: seq<Call>, id: nat) {
    exists k :: 0 <= k < |calls| && calls[k].id == id && calls[k].activated
  }

  /** The streams are the activated calls, each once, and `attached` counts them. */
  ghost predicate Matched(mix: Mix, calls: seq<Call>) {
    && mix.attached == |mix.streams|
    && Distinct(mix.streams)
    && forall id :: id in mix.streams <==> IsActive(calls, id)
  }

  /** A TTY multiparty device with an open audio descriptor. */
  predicate PortOpen(port: Port) {
    Mixing(port) && port.fd >= 0
  }

  ghost predicate Mixed(d: Device) {
    PortOpen(d.port) && d.calls != [] ==> Matched(d.mix, d.calls)
  }

  // -------------------------------------------------------------- list changes

  lemma ActiveAt(calls: seq<Call>, k: nat)
    requires k < |calls| && Distinct(Ids(calls))
    ensures IsActive(calls, calls[k].id) <==> calls[k].activated
  {
    if IsActive(calls, calls[k].id) {
      var j :| 0 <= j < |calls| && calls[j].id == calls[k].id && calls[j].activated;
      assert Ids(calls)[j] == Ids(calls)[k];
    }
  }

  /** The same calls, with the same calls activated except perhaps the i-th. */
  predicate OnlyAt(prev: seq<Call>, next: seq<Call>, i: nat) {
    && |prev| == |next|
    && (forall k :: 0 <= k < |prev| ==> prev[k].id == next[k].id)
    && (forall k :: 0 <= k < |prev| && k != i ==> prev[k].activated == next[k].activated)
  }

  lemma OnlyAtActive(prev: seq<Call>, next: seq<Call>, i: nat, id: nat)
    requires OnlyAt(prev, next, i) && i < |prev| && (id != prev[i].id || prev[i].activated == next[i].activated)
    ensures IsActive(prev, id) <==> IsActive(next, id)
  {
    if IsActive(prev, id) {
      var k :| 0 <= k < |prev| && prev[k].id == id && prev[k].activated;
      assert next[k].id == id && next[k].activated;
    }
    if IsActive(next, id) {
      var k :| 0 <= k < |next| && next[k].id == id && next[k].activated;
      assert prev[k].id == id && prev[k].activated;
    }
  }

  lemma MatchedSame(mix: Mix, prev: seq<Call>, next: seq<Call>, i: nat)
    requires OnlyAt(prev, next, i) && i < |prev| && prev[i].activated == next[i].activated
    ensures Matched(mix, prev) <==> Matched(mix, next)
  {
    hide IsActive, OnlyAt;
    forall id ensures IsActive(prev, id) <==> IsActive(next, id) {
      OnlyAtActive(prev, next, i, id);
    }
  }

  lemma MatchedJoin(mix: Mix, prev: seq<Call>, next: seq<Call>, i: nat)
    requires Matched(mix, prev) && Distinct(Ids(prev)) && OnlyAt(prev, next, i)
    requires i < |prev| && !prev[i].activated
    ensures Matched(Join(mix, prev[i].id), next) <==> next[i].activated
  {
    hide IsActive;
    var id := prev[i].id;
    ActiveAt(prev, i);
    assert Ids(next) == Ids(prev);
    ActiveAt(next, i);
    assert id in Join(mix, id).streams by { assert Join(mix, id).streams[|mix.streams|] == id; }
    forall x | x != id ensures x in Join(mix, id).streams <==> IsActive(next, x) {
      OnlyAtActive(prev, next, i, x);
    }
  }

  lemma MatchedLeave(mix: Mix, prev: seq<Call>, next: seq<Call>, i: nat)
    requires Matched(mix, prev) && Distinct(Ids(prev)) && OnlyAt(prev, next, i)
    requires i < |prev| && prev[i].activated && !next[i].activated
    ensures Matched(Leave(mix, prev[i].id), next)
  {
    hide IsActive, Unlink;
    var id := prev[i].id;
    Unlinked(mix.streams, id);
    ActiveAt(prev, i);
    assert Ids(next) == Ids(prev);
    ActiveAt(next, i);
    forall x | x != id ensures x in Leave(mix, id).streams <==> IsActive(next, x) {
      OnlyAtActive(prev, next, i, x);
    }
  }

  // ----------------------------------------------------------------- operations

  /** Activation keeps the match, unless the call was attached without being
      activated because the audio descriptor is not open. */
  lemma ActivateMatchedIff(d: Device, i: nat, a: Alsa)
    requires Core(d) && i < |d.calls| && Mixing(d.port) && Matched(d.mix, d.calls)
    ensures var c := d.calls[i]; var e := Activate(d, i, a).d;
      Matched(e.mix, e.calls) <==> (d.port.fd >= 0 || c.activated || c.master || c.local)
  {
    hide Matched, OnlyAt, Ids, Distinct, Owned, Buffered, Promote, Demote, Join, Wired, OneMaster;
    var c := d.calls[i];
    if !c.master && !c.local {
      var e := Activate(d, i, a).d;
      ActivatedAt(d, i, a);
      if c.activated { MatchedSame(d.mix, d.calls, e.calls, i); } else { MatchedJoin(d.mix, d.calls, e.calls, i); }
    }
  }

  lemma ActivatedAt(d: Device, i: nat, a: Alsa)
    requires i < |d.calls| && !d.calls[i].master && !d.calls[i].local && Mixing(d.port)
    ensures var e := Activate(d, i, a).d;
      OnlyAt(d.calls, e.calls, i) && e.calls[i].activated == (d.calls[i].activated || d.port.fd >= 0)
  {
    hide Demote, TryCapture;
    forall k | 0 <= k < |d.calls|
      ensures Demote(d.calls[k], d.port.uac).id == d.calls[k].id
      ensures Demote(d.calls[k], d.port.uac).activated == d.calls[k].activated
    {
      DemotedOne(d.calls[k], d.port);
    }
  }

  lemma DisactivateMatched(d: Device, i: nat, a: Alsa)
    requires Core(d) && i < |d.calls| && Mixing(d.port) && Matched(d.mix, d.calls)
    ensures var e := Disactivate(d, i, a);
      Matched(e.mix, e.calls) && OnlyAt(d.calls, e.calls, i) && !e.calls[i].activated
  {
    hide Matched, Ids, Distinct, Owned, Buffered, Leave, Wired, OneMaster;
    if d.calls[i].activated {
      MatchedLeave(d.mix, d.calls, Disactivate(d, i, a).calls, i);
    }
  }

  /** Freeing a call directly keeps the match exactly when it is not activated. */
  lemma FreeMatchedIff(d: Device, i: nat)
    requires Core(d) && i < |d.calls| && Matched(d.mix, d.calls)
    ensures Matched(d.mix, RemoveAt(d.calls, i)) <==> !d.calls[i].activated
  {
    hide RemoveAt, Owned, Buffered, AllWired, OneMaster, Ids, Distinct;
    var id := d.calls[i].id;
    RemovedInactive(d.calls, i);
    ActiveAt(d.calls, i);
    forall x | x != id ensures IsActive(RemoveAt(d.calls, i), x) <==> IsActive(d.calls, x) {
      RemovedActive(d.calls, i, x);
    }
  }

  lemma RemovedInactive(calls: seq<Call>, i: nat)
    requires i < |calls| && Distinct(Ids(calls))
    ensures !IsActive(RemoveAt(calls, i), calls[i].id)
  {
    var r := RemoveAt(calls, i);
    forall k | 0 <= k < |r| ensures r[k].id != calls[i].id {
      assert Ids(calls)[if k < i then k else k + 1] != Ids(calls)[i];
    }
  }

  lemma RemovedActive(calls: seq<Call>, i: nat, x: nat)
    requires i < |calls| && x != calls[i].id
    ensures IsActive(RemoveAt(calls, i), x) <==> IsActive(calls, x)
  {
    var r := RemoveAt(calls, i);
    if IsActive(calls, x) {
      var k :| 0 <= k < |calls| && calls[k].id == x && calls[k].activated;
      assert r[if k < i then k else k - 1] == calls[k];
    }
    if IsActive(r, x) {
      var k :| 0 <= k < |r| && r[k].id == x && r[k].activated;
      assert calls[if k < i then k else k + 1] == r[k];
    }
  }

  lemma FreeMixed(d: Device, i: nat)
    requires Core(d) && i < |d.calls| && Mixed(d) && !d.calls[i].activated
    ensures Mixed(Free(d, i))
  {
    hide Matched, Core, RemoveAt, Relink, Bump;
    if PortOpen(d.port) { FreeMatchedIff(d, i); }
  }

  lemma DisactivateMixed(d: Device, i: nat, a: Alsa)
    requires Core(d) && i < |d.calls| && Mixed(d)
    ensures var e := Disactivate(d, i, a); Mixed(e) && (Mixing(d.port) ==> !e.calls[i].activated)
  {
    hide Matched, Core, Leave, Retire, OnlyAt;
    if PortOpen(d.port) { DisactivateMatched(d, i, a); }
    NowInactive(d, i, a);
  }

  lemma NowInactive(d: Device, i: nat, a: Alsa)
    requires i < |d.calls|
    ensures !Disactivate(d, i, a).calls[i].activated
  {
  }

  lemma ActivateMixed(d: Device, i: nat, a: Alsa)
    requires Core(d) && i < |d.calls| && Mixed(d)
    ensures Mixed(Activate(d, i, a).d)
  {
    hide Matched, Core, Promote, Capture, DemoteOthers, Join;
    if PortOpen(d.port) { ActivateMatchedIff(d, i, a); }
  }

  /** One call replaced by one that is activated or not as before. */
  lemma RecastMixed(d: Device, e: Device, i: nat, c: Call)
    requires Mixed(d) && i < |d.calls| && c.id == d.calls[i].id && c.activated == d.calls[i].activated
    requires e.calls == d.calls[i := c] && e.mix == d.mix && e.port == d.port
    ensures Mixed(e)
  {
    hide Matched;
    if PortOpen(d.port) { MatchedSame(d.mix, d.calls, e.calls, i); }
  }

  lemma ChangeStateMixed(d: Device, i: nat, next: CallState, a: Alsa)
    requires Core(d) && i < |d.calls| && Mixed(d)
    ensures Mixed(ChangeState(d, i, next, a))
  {
    hide Mixed, Core, Activate, Disactivate, Free, Behind, Bump, UpdateFlags;
    if d.calls[i].state != next {
      var c := d.calls[i];
      var e := Enter(d, i, next);
      EnterKeeps(d, i, next);
      RecastMixed(d, e, i, c.(state := next));
      DisactivateMixed(e, i, a);
      DisactivateKeeps(e, i, a);
      ActivateMixed(e, i, a);
      if next == Released {
        NowInactive(e, i, a);
        FreeMixed(Disactivate(e, i, a), i);
        if c.channel.None? {
          WiredAt(d, i);
          FreeMixed(e, i);
        }
      } else {
        QueueMixed(e, Behind(e.owners, None));
      }
    }
  }

  lemma WiredAt(d: Device, i: nat)
    requires Core(d) && i < |d.calls|
    ensures d.calls[i].channel.None? ==> !d.calls[i].activated
  {
    assert Wired(d.calls[i], d.port);
  }

  lemma QueueMixed(d: Device, owners: seq<Option<nat>>)
    requires Mixed(d)
    ensures Mixed(d.(owners := owners))
  {
  }

  lemma HangupMixed(d: Device, i: nat, q: Enqueued, a: Alsa)
    requires Core(d) && i < |d.calls| && Mixed(d)
    ensures Mixed(Hangup(d, i, q, a))
  {
    hide Mixed, Core, Disactivate, Ask, Ids, States;
    if d.calls[i].channel.Some? {
      AskKeeps(d, i, q);
      var e := Ask(d, i, q);
      RecastMixed(d, e, i, e.calls[i]);
      DisactivateMixed(e, i, a);
      var f := Disactivate(e, i, a);
      RecastMixed(f, Hangup(d, i, q, a), i, f.calls[i].(channel := None));
    }
  }

  lemma AllocMixed(d: Device, c: Call, timer: Option<int>)
    requires Core(d) && Mixed(d) && !c.activated
    ensures Mixed(Alloc(d, c, timer))
  {
    hide Core, FirstBufs, Bump, Distinct;
    var e := Alloc(d, c, timer);
    assert d.tally.chansno == |d.calls| by { ChansOf(d); }
    forall id ensures IsActive(d.calls + [c], id) <==> IsActive(d.calls, id) { AppendActive(d.calls, c, id); }
    assert Distinct<nat>([]) by { NoneDistinct(); }
    if d.calls == [] {
      assert forall id :: !IsActive(d.calls, id);
    }
  }

  lemma NoneDistinct()
    ensures Distinct<nat>([])
  {
  }

  lemma ChansOf(d: Device)
    requires Core(d)
    ensures d.tally.chansno == |d.calls|
  {
  }

  lemma AppendActive(calls: seq<Call>, c: Call, id: nat)
    requires !c.activated
    ensures IsActive(calls + [c], id) <==> IsActive(calls, id)
  {
    if IsActive(calls, id) {
      var k :| 0 <= k < |calls| && calls[k].id == id && calls[k].activated;
      assert (calls + [c])[k] == calls[k];
    }
  }

  lemma NewCallMixed(d: Device, c: Call, timer: Option<int>, channelOk: bool, state: CallState, a: Alsa)
    requires Core(d) && Mixed(d) && c.id !in Ids(d.calls) && Fresh(c)
    ensures Mixed(NewCall(d, c, timer, channelOk, state, a))
  {
    hide Core, Mixed, Ids, States, Alloc, Free, ChangeState;
    var e := Alloc(d, c, timer);
    var i := |d.calls|;
    AllocKeeps(d, c, timer);
    AllocLast(d, c, timer);
    AllocMixed(d, c, timer);
    if channelOk {
      var ch := NewChannel(e.port, e.bufs);
      ChannelKeeps(e, i, ch);
      var f := e.(calls := e.calls[i := c.(channel := Some(ch))]);
      RecastMixed(e, f, i, c.(channel := Some(ch)));
      if state != Init { ChangeStateMixed(f, i, state, a); }
    } else {
      FreeMixed(e, i);
    }
  }

  lemma DialedMixed(d: Device, a: Alsa)
    requires Inv(d) && Mixed(d) && Enabled(d, DialAccepted)
    ensures Mixed(Dialed(d, a))
  {
    hide Core, ChangeState, Has, Matched;
    var e := d.(flags := d.flags.(dialing := true));
    FlagsKeep(d);
    if d.owners[0].Some? { ChangeStateMixed(e, IndexOf(d.calls, d.owners[0].value), Dialing, a); }
  }

  // --------------------------------------------------------------------- runs

  /** The clean-up after ast_pbx_start failed frees an activated call that is still
      attached to a mixer other calls use. */
  predicate Strands(d: Device, op: Op)
    requires Enabled(d, op)
  {
    op.PbxFailed? && PortOpen(d.port) && |d.calls| > 1 && d.calls[IndexOf(d.calls, op.id)].activated
  }

  lemma PbxFailedIff(d: Device, i: nat)
    requires Core(d) && Mixed(d) && i < |d.calls|
    ensures Mixed(Free(d, i)) <==> !(PortOpen(d.port) && |d.calls| > 1 && d.calls[i].activated)
  {
    hide Matched, Core, RemoveAt, Relink, Bump;
    if PortOpen(d.port) { FreeMatchedIff(d, i); }
  }

  /** A step keeps the mixer's streams equal to the activated calls exactly when it
      does not strand a stream. */
  lemma StepMixedIff(d: Device, s: Step)
    requires Inv(d) && Mixed(d) && Enabled(d, s.op)
    ensures Mixed(Do(d, s)) <==> !Strands(d, s.op)
  {
    hide Core, Mixed, Has, ChangeState, Free, Disactivate, Hangup, NewCall, Disconnect, Dialed;
    var a := s.alsa;
    match s.op
    case New(c, timer, ok, state) =>
      HasIn(d.calls, c.id);
      NewCallMixed(d, c, timer, ok, state, a);
    case Report(id, state) => ChangeStateMixed(d, IndexOf(d.calls, id), state, a);
    case HangUp(id, q) => HangupMixed(d, IndexOf(d.calls, id), q, a);
    case PbxFailed(id) => PbxFailedIff(d, IndexOf(d.calls, id));
    case CaptureFailed(id) => DisactivateMixed(d, IndexOf(d.calls, id), a);
    case WantHangup(id) =>
      var i := IndexOf(d.calls, id);
      RecastMixed(d, Do(d, s), i, d.calls[i].(needHangup := true));
    case DialAccepted => DialedMixed(d, a);
    case Unplug =>
      DisconnectKeeps(d, a);
      EmptyMixed(Disconnect(d, a));
    case Connect(_, _, _) => EmptyMixed(Do(d, s));
    case CardEvent(i, o) => CardsMixed(d, Cards(i, o, d.cards.stops));
    case Queue(o, atHead) => QueueMixed(d, if atHead then Behind(d.owners, o) else d.owners + [o]);
    case TaskDone => QueueMixed(d, d.owners[1..]);
  }

  lemma EmptyMixed(d: Device)
    requires d.calls == []
    ensures Mixed(d)
  {
  }

  lemma CardsMixed(d: Device, cards: Cards)
    requires Mixed(d)
    ensures Mixed(d.(cards := cards))
  {
  }

  predicate StrandsNone(d: Device, steps: seq<Step>)
    requires EnabledAll(d, steps)
    decreases |steps|
  {
    steps == [] || (!Strands(d, steps[0].op) && StrandsNone(Do(d, steps[0]), steps[1..]))
  }

  /** Over every such run, the mixer's stream list is exactly the activated calls,
      without duplicates, and `attached` is its length. */
  lemma {:induction false} RunKeepsMixed(d: Device, steps: seq<Step>)
    requires Inv(d) && Mixed(d) && EnabledAll(d, steps) && StrandsNone(d, steps)
    ensures Mixed(DoAll(d, steps))
    decreases |steps|
  {
    hide Inv, Mixed, Do, Strands;
    if steps != [] {
      StepKeepsInv(d, steps[0]);
      StepMixedIff(d, steps[0]);
      RunKeepsMixed(Do(d, steps[0]), steps[1..]);
    }
  }

  lemma StartMixed(port: Port, cards: Cards)
    ensures Mixed(Start(port, cards))
  {
  }

  /** Two incoming calls in a conference; the dialplan of the second does not start. */
  function StrandRun(first: Call, second: Call, fd: int, a: Alsa): seq<Step> {
    [Step(Connect(fd, None, None), a), Step(New(first, None, true, Incoming), a),
     Step(New(second, None, true, Incoming), a), Step(PbxFailed(second.id), a)]
  }

  /** Its stream then stays in the mixer. */
  lemma StrandedStream(first: Call, second: Call, fd: int, a: Alsa)
    requires Fresh(first) && Fresh(second) && first.id != second.id && !first.local && !second.local && fd >= 0
    ensures var d := Start(Port(false, true, -1), Cards(None, None, 0));
      && EnabledAll(d, StrandRun(first, second, fd, a))
      && var e := DoAll(d, StrandRun(first, second, fd, a));
      && Ids(e.calls) == [first.id] && e.mix == Mix([first.id, second.id], 2) && !Mixed(e)
  {
    hide Do, Enabled, DoAll, EnabledAll, Mixed, Ids, Has, IsActive;
    var d := Start(Port(false, true, -1), Cards(None, None, 0));
    var d1 := Connected(d, fd, a);
    HasIn(d1.calls, first.id);
    var d2 := OneJoins(d1, first, a);
    HasIn(d2.calls, second.id);
    var d3 := OneJoins(d2, second, a);
    var d4 := SecondFreed(d3, first.id, second.id, a);
    var s0, s1 := Step(Connect(fd, None, None), a), Step(New(first, None, true, Incoming), a);
    var s2, s3 := Step(New(second, None, true, Incoming), a), Step(PbxFailed(second.id), a);
    NoSteps(d4);
    OneStep(d3, s3, []);
    OneStep(d2, s2, [s3] + []);
    OneStep(d1, s1, [s2] + ([s3] + []));
    OneStep(d, s0, [s1] + ([s2] + ([s3] + [])));
    assert StrandRun(first, second, fd, a) == [s0] + ([s1] + ([s2] + ([s3] + [])));
  }

  lemma Connected(d: Device, fd: int, a: Alsa) returns (e: Device)
    requires d.calls == []
    ensures Enabled(d, Connect(fd, None, None)) && e == Do(d, Step(Connect(fd, None, None), a))
    ensures e == d.(port := d.port.(fd := fd), cards := e.cards)
  {
    e := Do(d, Step(Connect(fd, None, None), a));
  }

  lemma SecondFreed(d: Device, first: nat, second: nat, a: Alsa) returns (e: Device)
    requires Ids(d.calls) == [first, second] && first != second && d.mix == Mix([first, second], 2) && PortOpen(d.port)
    ensures Enabled(d, PbxFailed(second)) && e == Do(d, Step(PbxFailed(second), a))
    ensures Ids(e.calls) == [first] && e.mix == d.mix && !Mixed(e)
  {
    hide Bump, Relink;
    assert d.calls[0].id == Ids(d.calls)[0] == first && d.calls[1].id == Ids(d.calls)[1] == second;
    assert Has(d.calls, second);
    e := Do(d, Step(PbxFailed(second), a));
    assert Ids(e.calls) == [first];
    assert e.mix.streams[1] == second;
    forall k | 0 <= k < |e.calls| ensures e.calls[k].id != second { assert Ids(e.calls)[k] == first; }
    assert second in e.mix.streams && !IsActive(e.calls, second);
  }

  /** An incoming call is added at the end, activated and attached. */
  lemma OneJoins(d: Device, c: Call, a: Alsa) returns (e: Device)
    requires Fresh(c) && !c.local && !Has(d.calls, c.id) && Mixing(d.port) && d.port.fd >= 0
    requires d.tally.chansno == |d.calls| && (d.calls == [] ==> d.mix == Mix([], 0))
    ensures var s := Step(New(c, None, true, Incoming), a); Enabled(d, s.op) && e == Do(d, s)
    ensures e.port == d.port && e.calls != [] && e.tally.chansno == |e.calls| == |d.calls| + 1
    ensures Ids(e.calls) == Ids(d.calls) + [c.id] && e.mix == Join(d.mix, c.id)
  {
    e := Do(d, Step(New(c, None, true, Incoming), a));
    assert forall k :: 0 <= k < |d.calls| ==> e.calls[k].id == d.calls[k].id;
  }
}
