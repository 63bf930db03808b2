/** The call objects of a device, updated in place (src/cpvt.c, src/channel.c,
    src/chan_quectel.c). */
module Devices {
  import opened Basics
  import opened CallSpec

  /** struct cpvt */
  class Cpvt {
    const id: nat
    const incoming: bool
    const local: bool
    const pipe: int
    var state: CallState
    var activated: bool
    var master: bool
    var needHangup: bool
    var channel: Option<Channel>

    constructor (id: nat, incoming: bool, local: bool, pipe: int)
      ensures Rec() == Call(id, incoming, local, Init, false, false, false, None, pipe)
    {
      this.id, this.incoming, this.local, this.pipe := id, incoming, local, pipe;
      state, activated, master, needHangup, channel := Init, false, false, false, None;
    }

    ghost function Rec(): Call
      reads this
    {
      Call(id, incoming, local, state, activated, master, needHangup, channel, pipe)
    }

    /** ast_channel_set_fd on both slots. */
    method SetFds(fd0: int, fd1: int)
      modifies `channel
      ensures Rec() == WithFds(old(Rec()), fd0, fd1)
    {
      if channel.Some? { channel := Some(Channel(fd0, fd1)); }
    }

    /** The call's own part of cpvt_call_activate. */
    method Take(audioFd: int, timer: int, res: int, ghost uac: bool, ghost multiparty: bool)
      modifies this
      ensures Rec() == Promote(old(Rec()), Port(uac, multiparty, audioFd), timer, res)
    {
      if audioFd >= 0 {
        if res < 0 {
          SetFds(-1, -1);
          activated, master := false, false;
        } else {
          SetFds(audioFd, timer);
          activated, master := true, true;
        }
      }
    }

    /** The call's own part of cpvt_call_disactivate. */
    method GiveUp(uac: bool)
      modifies this
      ensures Rec() == Retire(old(Rec()), uac)
    {
      if uac { SetFds(-1, -1); }
      activated, master := false, false;
    }

    /** One turn of the traversal in cpvt_call_activate. */
    method GiveUpMaster(uac: bool)
      modifies this
      ensures Rec() == Demote(old(Rec()), uac)
    {
      master := false;
      if channel.None? { return; }
      channel := Some(channel.value.(fd1 := -1));
      if uac {
        channel := Some(channel.value.(fd0 := -1));
      } else if activated {
        channel := Some(channel.value.(fd0 := pipe));
      }
    }
  }

  ghost function RecsOf(chans: seq<Cpvt>): seq<Call>
    reads chans
  {
    seq(|chans|, k requires 0 <= k < |chans| reads chans => chans[k].Rec())
  }

  lemma {:induction false} UnlinkAt(streams: seq<nat>, k: nat, id: nat)
    requires k <= |streams| && (forall j :: 0 <= j < k ==> streams[j] != id)
    requires k < |streams| ==> streams[k] == id
    ensures Unlink(streams, id) == if k < |streams| then streams[..k] + streams[k + 1..] else streams
  {
    hide Unlink;
    UnlinkStep(streams, id);
    if k == 0 {
      if streams != [] { assert streams[..0] + streams[1..] == streams[1..]; }
    } else {
      UnlinkAt(streams[1..], k - 1, id);
      if k < |streams| { WithoutLater(streams, k); } else { assert streams == [streams[0]] + streams[1..]; }
    }
  }

  lemma UnlinkStep(streams: seq<nat>, id: nat)
    ensures Unlink(streams, id) ==
      if streams == [] then [] else if streams[0] == id then streams[1..] else [streams[0]] + Unlink(streams[1..], id)
  {
  }

  lemma WithoutLater<T>(s: seq<T>, k: nat)
    requires 0 < k < |s|
    ensures s[..k] + s[k + 1..] == [s[0]] + (s[1..][..k - 1] + s[1..][k..])
  {
    assert s[1..][k..] == s[k + 1..];
    assert s[..k] == [s[0]] + s[1..][..k - 1];
  }

  lemma ActivateIdle(d: Device, i: nat, a: Alsa)
    requires i < |d.calls| && (d.calls[i].master || d.calls[i].local)
    ensures Activate(d, i, a) == Result(0, d)
  {
  }

  lemma ActivateIs(d: Device, e: Device, i: nat, a: Alsa)
    requires i < |d.calls| && !d.calls[i].master && !d.calls[i].local
    requires var c := d.calls[i]; var t := Capture(d.port, d.cards, OtherMaster(d.calls, i), a);
      && e.port == d.port && e.tally == d.tally && e.bufs == d.bufs && e.owners == d.owners && e.flags == d.flags
      && e.cards == t.cards
      && e.mix == (if !c.activated && Mixing(d.port) then Join(d.mix, c.id) else d.mix)
      && e.calls == DemoteOthers(d.calls, i, d.port.uac)[i := Promote(c, d.port, TimerFd(d.bufs), t.res)]
    ensures Activate(d, i, a).d == e
    ensures Activate(d, i, a).res == Capture(d.port, d.cards, OtherMaster(d.calls, i), a).res
  {
  }

  lemma AllocIs(d: Device, e: Device, c: Call, timer: Option<int>)
    requires var first := d.tally.chansno == 0;
      && e.port == d.port && e.cards == d.cards && e.owners == d.owners && e.flags == d.flags
      && e.calls == d.calls + [c]
      && e.tally == Tally(d.tally.chansno + 1, Bump(d.tally.counts, c.state, 1), d.tally.sys)
      && e.bufs == (if first then FirstBufs(d.port, d.bufs, timer) else d.bufs)
      && e.mix == (if first && Mixing(d.port) then Mix([], 0) else d.mix)
    ensures Alloc(d, c, timer) == e
  {
  }

  /** The part of struct pvt that calls and their audio use; `owners` holds the call
      of each queued task, and `stops` counts the stops of the sound card. */
  class Pvt {
    const uac: bool
    const multiparty: bool
    var audioFd: int
    var icard: Option<Pcm>
    var ocard: Option<Pcm>
    ghost var stops: nat
    var streams: seq<nat>
    var attached: int
    var chans: seq<Cpvt>
    var chansno: int
    var chanCount: map<CallState, int>
    var sysState: CallState
    var silenceBuf: bool
    var writeBuf: bool
    var timer: Option<int>
    var owners: seq<Option<nat>>
    var dialing: bool
    var ring: bool
    var cwaiting: bool

    constructor (uac: bool, multiparty: bool)
      ensures Valid()
      ensures Model() == Start(Port(uac, multiparty, -1), Cards(None, None, 0))
    {
      this.uac, this.multiparty, audioFd, icard, ocard, stops := uac, multiparty, -1, None, None, 0;
      streams, attached, chans, chansno, chanCount, sysState := [], 0, [], 0, map[], Released;
      silenceBuf, writeBuf, timer, owners := false, false, None, [];
      dialing, ring, cwaiting := false, false, false;
    }

    /** No call is listed twice. */
    ghost predicate Valid()
      reads `chans
    {
      forall j, k :: 0 <= j < k < |chans| ==> chans[j] != chans[k]
    }

    ghost function Model(): Device
      reads this, chans
    {
      Device(Port(uac, multiparty, audioFd), Cards(icard, ocard, stops), Mix(streams, attached), RecsOf(chans),
             Tally(chansno, chanCount, sysState), Bufs(silenceBuf, writeBuf, timer), owners,
             Flags(dialing, ring, cwaiting))
    }

    // ----------------------------------------------------------- audio ownership

    /** cpvt_stop_uac */
    method StopCards(a: Alsa)
      modifies `icard, `ocard, `stops
      ensures Cards(icard, ocard, stops) == StopUac(old(Cards(icard, ocard, stops)), a)
    {
      icard := Drop(icard, a.dropIn);
      ocard := Drop(ocard, a.dropOut);
      stops := stops + 1;
    }

    /** The traversal in cpvt_call_activate. */
    method TakeFromOthers(cpvt: Cpvt, ghost i: nat) returns (replacing: bool)
      requires Valid() && i < |chans| && chans[i] == cpvt
      modifies chans
      ensures RecsOf(chans) == DemoteOthers(old(RecsOf(chans)), i, uac)
      ensures replacing == OtherMaster(old(RecsOf(chans)), i)
    {
      hide Demote;
      ghost var was := RecsOf(chans);
      replacing := false;
      for k := 0 to |chans|
        invariant forall j :: 0 <= j < |chans| ==>
          chans[j].Rec() == if j < k && j != i then Demote(was[j], uac) else was[j]
        invariant replacing <==> exists j :: 0 <= j < k && j != i && was[j].master
      {
        var other := chans[k];
        if other != cpvt {
          assert other.Rec() == was[k];
          if other.master { replacing := true; }
          other.GiveUpMaster(uac);
        }
      }
    }

    /** pcm_start_capture and its repetition. */
    method StartCard(a: Alsa) returns (res: int)
      modifies `icard
      ensures var t := TryCapture(old(icard), a);
        res == t.res && icard == t.pcm
    {
      var t := StartCapture(icard, a.prepare1, a.start1);
      icard := t.pcm;
      if t.res == -EINTR || t.res == -EAGAIN {
        t := StartCapture(icard, a.prepare2, a.start2);
        icard := t.pcm;
      }
      res := t.res;
    }

    /** The sound card's part of cpvt_call_activate. */
    method TakeCard(replacing: bool, a: Alsa) returns (res: int)
      modifies `icard, `ocard, `stops
      ensures var t := Capture(Port(uac, multiparty, audioFd), old(Cards(icard, ocard, stops)), replacing, a);
        res == t.res && Cards(icard, ocard, stops) == t.cards
    {
      hide TryCapture, Drop;
      res := 0;
      if audioFd >= 0 && uac {
        if replacing { StopCards(a); }
        var t := StartCard(a);
        if t < 0 { res := -1; }
      }
    }

    /** mixb_attach, as far as the list goes. */
    method Attach(id: nat)
      modifies `streams, `attached
      ensures Mix(streams, attached) == Join(old(Mix(streams, attached)), id)
    {
      streams := streams + [id];
      attached := attached + 1;
    }

    /** The new owner's flags and descriptors. */
    method TakeAudio(cpvt: Cpvt, ghost i: nat, res: int)
      requires Valid() && i < |chans| && chans[i] == cpvt
      modifies cpvt
      ensures RecsOf(chans) == old(RecsOf(chans))[i := Promote(old(RecsOf(chans))[i], Port(uac, multiparty, audioFd),
          if timer.Some? then timer.value else -1, res)]
    {
      ghost var was := RecsOf(chans);
      cpvt.Take(audioFd, if timer.Some? then timer.value else -1, res, uac, multiparty);
      assert RecsOf(chans) == was[i := cpvt.Rec()];
    }

    lemma RecAt(cpvt: Cpvt, i: nat)
      requires i < |chans| && chans[i] == cpvt
      ensures |RecsOf(chans)| == |chans| && RecsOf(chans)[i] == cpvt.Rec()
    {
    }

    /** cpvt_call_activate */
    method CallActivate(cpvt: Cpvt, ghost i: nat, a: Alsa) returns (res: int)
      requires Valid() && i < |chans| && chans[i] == cpvt
      modifies `icard, `ocard, `stops, `streams, `attached, chans
      ensures Model() == Activate(old(Model()), i, a).d && res == Activate(old(Model()), i, a).res
    {
      hide Demote, Capture, OtherMaster, Promote, DemoteOthers, Join, RecsOf, Activate, Pvt.Valid;
      ghost var d := Model();
      RecAt(cpvt, i);
      if cpvt.master || cpvt.local {
        ActivateIdle(d, i, a);
        return 0;
      }
      var replacing := TakeFromOthers(cpvt, i);
      RecAt(cpvt, i);
      if !cpvt.activated && !uac && multiparty { Attach(cpvt.id); }
      res := TakeCard(replacing, a);
      TakeAudio(cpvt, i, res);
      ActivateIs(d, Model(), i, a);
    }

    /** AST_LIST_REMOVE walks to the stream and unlinks it. */
    method Detach(id: nat)
      modifies `streams, `attached
      ensures Mix(streams, attached) == Leave(Mix(old(streams), old(attached)), id)
    {
      attached := attached - 1;
      var k := 0;
      while k < |streams| && streams[k] != id
        invariant k <= |streams|
        invariant streams == old(streams)
        invariant forall j :: 0 <= j < k ==> streams[j] != id
      {
        k := k + 1;
      }
      UnlinkAt(streams, k, id);
      if k < |streams| { streams := streams[..k] + streams[k + 1..]; }
    }

    /** The old owner's flags and descriptors. */
    method DropAudio(cpvt: Cpvt, ghost i: nat)
      requires Valid() && i < |chans| && chans[i] == cpvt
      modifies cpvt
      ensures RecsOf(chans) == old(RecsOf(chans))[i := Retire(old(RecsOf(chans))[i], uac)]
    {
      ghost var was := RecsOf(chans);
      cpvt.GiveUp(uac);
      assert RecsOf(chans) == was[i := cpvt.Rec()];
    }

    /** cpvt_call_disactivate */
    method CallDisactivate(cpvt: Cpvt, ghost i: nat, a: Alsa)
      requires Valid() && i < |chans| && chans[i] == cpvt
      modifies `icard, `ocard, `stops, `streams, `attached, cpvt
      ensures Model() == Disactivate(old(Model()), i, a)
    {
      hide StopUac, Leave, RecsOf, Retire, Pvt.Valid;
      RecAt(cpvt, i);
      if !cpvt.activated { return; }
      if uac {
        if cpvt.master { StopCards(a); }
      } else if multiparty {
        Detach(cpvt.id);
      }
      DropAudio(cpvt, i);
    }

    // -------------------------------------------------------------- life of a call

    /** relink_to_sys_chan */
    method RelinkTasks(id: nat)
      modifies `owners
      ensures owners == Relink(old(owners), id)
    {
      for k := 0 to |owners|
        invariant |owners| == |old(owners)|
        invariant forall j :: 0 <= j < |owners| ==>
          owners[j] == if j < k && old(owners)[j] == Some(id) then None else old(owners)[j]
      {
        if owners[k] == Some(id) { owners := owners[k := None]; }
      }
    }

    /** decrease_chan_counters */
    method DecreaseCounters(cpvt: Cpvt, ghost i: nat)
      requires Valid() && i < |chans| && chans[i] == cpvt
      modifies `chans, `chanCount, `chansno
      ensures Valid() && chans == RemoveAt(old(chans), i)
      ensures chanCount == Bump(old(chanCount), cpvt.state, -1) && chansno == old(chansno) - 1
    {
      hide Bump;
      var k := 0;
      while chans[k] != cpvt
        invariant k <= i
        invariant chans == old(chans)
        decreases i - k
      {
        k := k + 1;
      }
      chans := RemoveAt(chans, k);
      chanCount := Bump(chanCount, cpvt.state, -1);
      chansno := chansno - 1;
    }

    /** pvt_on_remove_last_channel */
    method RemoveLastChannel()
      modifies `timer, `silenceBuf, `writeBuf
      ensures Bufs(silenceBuf, writeBuf, timer) == NOBUFS
    {
      timer, silenceBuf, writeBuf := None, false, false;
    }

    lemma RecsRemove(cs: seq<Cpvt>, i: nat)
      requires i < |cs|
      ensures RecsOf(RemoveAt(cs, i)) == RemoveAt(RecsOf(cs), i)
    {
    }

    /** cpvt_free */
    method FreeCall(cpvt: Cpvt, ghost i: nat)
      requires Valid() && i < |chans| && chans[i] == cpvt
      modifies `chans, `chanCount, `chansno, `owners, `timer, `silenceBuf, `writeBuf
      ensures Valid() && chans == RemoveAt(old(chans), i)
      ensures Model() == Free(old(Model()), i)
    {
      hide Bump, Relink, RecsOf, RemoveAt, Pvt.Valid;
      RecAt(cpvt, i);
      DecreaseCounters(cpvt, i);
      RecsRemove(old(chans), i);
      RelinkTasks(cpvt.id);
      if chansno == 0 { RemoveLastChannel(); }
    }

    /** pvt_on_create_1st_channel */
    method FirstChannel(clock: Option<int>)
      modifies `timer, `silenceBuf, `writeBuf, `streams, `attached
      ensures Bufs(silenceBuf, writeBuf, timer)
           == FirstBufs(Port(uac, multiparty, audioFd), old(Bufs(silenceBuf, writeBuf, timer)), clock)
      ensures Mix(streams, attached)
           == if Mixing(Port(uac, multiparty, audioFd)) then Mix([], 0) else old(Mix(streams, attached))
    {
      silenceBuf := true;
      if multiparty && !uac {
        writeBuf := true;
        streams, attached := [], 0;
        timer := clock;
      }
    }

    /** The first call brings the buffers, and every call is counted. */
    method CountIn(state: CallState, clock: Option<int>)
      modifies `timer, `silenceBuf, `writeBuf, `streams, `attached, `chansno, `chanCount
      ensures chansno == old(chansno) + 1 && chanCount == Bump(old(chanCount), state, 1)
      ensures Bufs(silenceBuf, writeBuf, timer)
           == (if old(chansno) == 0
               then FirstBufs(Port(uac, multiparty, audioFd), old(Bufs(silenceBuf, writeBuf, timer)), clock)
               else old(Bufs(silenceBuf, writeBuf, timer)))
      ensures Mix(streams, attached)
           == if old(chansno) == 0 && Mixing(Port(uac, multiparty, audioFd)) then Mix([], 0)
              else old(Mix(streams, attached))
    {
      hide Bump, FirstBufs, Mixing;
      if chansno == 0 { FirstChannel(clock); }
      chansno := chansno + 1;
      chanCount := Bump(chanCount, state, 1);
    }

    method InsertTail(cpvt: Cpvt)
      requires Valid() && cpvt !in chans
      modifies `chans
      ensures Valid() && chans == old(chans) + [cpvt]
    {
      chans := chans + [cpvt];
    }

    /** cpvt_alloc */
    method AllocCall(cpvt: Cpvt, clock: Option<int>)
      requires Valid() && cpvt !in chans
      modifies `chans, `chanCount, `chansno, `timer, `silenceBuf, `writeBuf, `streams, `attached
      ensures Valid() && chans == old(chans) + [cpvt]
      ensures Model() == Alloc(old(Model()), cpvt.Rec(), clock)
    {
      hide Bump, FirstBufs, RecsOf, Pvt.Valid, Mixing, Alloc;
      ghost var d := Model();
      InsertTail(cpvt);
      RecsAppend(old(chans), cpvt);
      CountIn(cpvt.state, clock);
      AllocIs(d, Model(), cpvt.Rec(), clock);
    }

    lemma RecsAppend(cs: seq<Cpvt>, c: Cpvt)
      ensures RecsOf(cs + [c]) == RecsOf(cs) + [c.Rec()]
    {
    }

    /** pvt_update_state_flags */
    method UpdateStateFlags(prev: CallState, next: CallState)
      modifies `chanCount, `dialing, `ring, `cwaiting
      ensures chanCount == Bump(Bump(old(chanCount), prev, -1), next, 1)
      ensures Flags(dialing, ring, cwaiting) == UpdateFlags(old(Flags(dialing, ring, cwaiting)), prev, next)
    {
      chanCount := Bump(chanCount, prev, -1);
      chanCount := Bump(chanCount, next, 1);
      if next == Active || next == Released {
        match prev
        case Init => dialing := false;
        case Dialing => dialing := false;
        case Alerting => dialing := false;
        case Incoming => ring := false;
        case Waiting => cwaiting := false;
        case _ =>
      }
    }

    /** at_queue_insert of a task for `o`, behind the head task. */
    method InsertTask(o: Option<nat>)
      modifies `owners
      ensures owners == Behind(old(owners), o)
    {
      owners := if owners == [] then [o] else [owners[0], o] + owners[1..];
    }

    /** The state itself, with the counters and the device flags. */
    method EnterState(cpvt: Cpvt, ghost i: nat, next: CallState)
      requires Valid() && i < |chans| && chans[i] == cpvt
      modifies cpvt, `chanCount, `dialing, `ring, `cwaiting
      ensures Model() == Enter(old(Model()), i, next) && cpvt.state == next && cpvt.channel == old(cpvt.channel)
    {
      hide Bump, UpdateFlags;
      ghost var was := RecsOf(chans);
      var oldState := cpvt.state;
      cpvt.state := next;
      UpdateStateFlags(oldState, next);
      assert RecsOf(chans) == was[i := cpvt.Rec()];
    }

    /** change_state_no_channel */
    method ChangeStateNoChannel(cpvt: Cpvt, ghost i: nat, next: CallState)
      requires Valid() && i < |chans| && chans[i] == cpvt
      modifies this
      ensures Valid() && chans == if next == Released then RemoveAt(old(chans), i) else old(chans)
      ensures Model() == WithoutChannel(old(Model()), i, next)
    {
      hide RecsOf, Free, Behind, Pvt.Valid, RemoveAt;
      match next
      case Released => FreeCall(cpvt, i);
      case Active =>
      case _ => InsertTask(None);
    }

    /** change_state */
    method ChangeStateChannel(cpvt: Cpvt, ghost i: nat, next: CallState, a: Alsa)
      requires Valid() && i < |chans| && chans[i] == cpvt
      modifies this, chans
      ensures Valid() && chans == if next == Released then RemoveAt(old(chans), i) else old(chans)
      ensures Model() == WithChannel(old(Model()), i, next, a)
    {
      hide RecsOf, Free, Activate, Disactivate, Pvt.Valid, RemoveAt;
      match next
      case Dialing => var _ := CallActivate(cpvt, i, a);
      case Alerting => var _ := CallActivate(cpvt, i, a);
      case Incoming => var _ := CallActivate(cpvt, i, a);
      case Active => var _ := CallActivate(cpvt, i, a);
      case OnHold => CallDisactivate(cpvt, i, a);
      case Released =>
        CallDisactivate(cpvt, i, a);
        FreeCall(cpvt, i);
      case _ =>
    }

    /** cpvt_change_state */
    method CallChangeState(cpvt: Cpvt, ghost i: nat, next: CallState, a: Alsa)
      requires Valid() && i < |chans| && chans[i] == cpvt
      modifies this, chans
      ensures Valid()
      ensures chans == if next == Released && old(cpvt.state) != Released then RemoveAt(old(chans), i) else old(chans)
      ensures Model() == ChangeState(old(Model()), i, next, a)
    {
      hide RecsOf, WithChannel, WithoutChannel, Enter, Pvt.Valid, RemoveAt;
      RecAt(cpvt, i);
      if next == cpvt.state { return; }
      EnterState(cpvt, i, next);
      if cpvt.channel.Some? {
        ChangeStateChannel(cpvt, i, next, a);
      } else {
        ChangeStateNoChannel(cpvt, i, next);
      }
    }

    /** One field of one call changed. */
    method SetChannel(cpvt: Cpvt, ghost i: nat, ch: Option<Channel>)
      requires Valid() && i < |chans| && chans[i] == cpvt
      modifies cpvt`channel
      ensures RecsOf(chans) == old(RecsOf(chans))[i := old(cpvt.Rec()).(channel := ch)]
    {
      ghost var was := RecsOf(chans);
      cpvt.channel := ch;
      assert RecsOf(chans) == was[i := cpvt.Rec()];
    }

    method ResetNeedHangup(cpvt: Cpvt, ghost i: nat)
      requires Valid() && i < |chans| && chans[i] == cpvt
      modifies cpvt`needHangup
      ensures RecsOf(chans) == old(RecsOf(chans))[i := old(cpvt.Rec()).(needHangup := false)]
    {
      ghost var was := RecsOf(chans);
      cpvt.needHangup := false;
      assert RecsOf(chans) == was[i := cpvt.Rec()];
    }

    /** channel_hangup; `q` is what at_enqueue_hangup does. */
    method ChannelHangup(cpvt: Cpvt, ghost i: nat, q: Enqueued, a: Alsa)
      requires Valid() && i < |chans| && chans[i] == cpvt
      modifies this, cpvt
      ensures Valid() && chans == old(chans)
      ensures Model() == Hangup(old(Model()), i, q, a)
    {
      hide RecsOf, Disactivate, Behind, Pvt.Valid;
      RecAt(cpvt, i);
      if cpvt.channel.None? { return; }
      if cpvt.needHangup {
        if !q.Refused? {
          InsertTask(Some(cpvt.id));
        }
        if q.Accepted? {
          ResetNeedHangup(cpvt, i);
        }
      }
      CallDisactivate(cpvt, i, a);
      RecAt(cpvt, i);
      SetChannel(cpvt, i, None);
    }

    /** channel_new, for a fresh number `id` */
    method ChannelNew(id: nat, incoming: bool, local: bool, pipe: int, clock: Option<int>,
                      channelOk: bool, state: CallState, a: Alsa) returns (cpvt: Cpvt)
      requires Valid()
      modifies this, chans
      ensures Valid() && fresh(cpvt)
      ensures Model() == NewCall(old(Model()), Call(id, incoming, local, Init, false, false, false, None, pipe),
                                 clock, channelOk, state, a)
    {
      hide RecsOf, Alloc, Free, ChangeState, RemoveAt, Pvt.Valid;
      ghost var n := |chans|;
      RecsLength(chans);
      cpvt := new Cpvt(id, incoming, local, pipe);
      AllocCall(cpvt, clock);
      if !channelOk {
        FreeCall(cpvt, n);
      } else {
        SetChannel(cpvt, n, Some(Channel(if uac then -1 else audioFd, if timer.Some? then timer.value else -1)));
        if state != Init { CallChangeState(cpvt, n, state, a); }
      }
    }

    lemma RecsLength(cs: seq<Cpvt>)
      ensures |RecsOf(cs)| == |cs|
    {
    }

    /** One turn of the loop in pvt_disconnect. */
    method ReleaseCall(cpvt: Cpvt, ghost k: nat, a: Alsa)
      requires Valid() && k < |chans| && chans[k] == cpvt
      modifies this, chans
      ensures Valid()
      ensures chans == if old(cpvt.state) != Released then RemoveAt(old(chans), k) else old(chans)
      ensures var d := old(Model()); var c := old(cpvt.Rec());
        Model() == ChangeState(d.(owners := d.owners + [Some(c.id)], calls := d.calls[k := c.(needHangup := false)]),
                               k, Released, a)
    {
      hide RecsOf, ChangeState, RemoveAt, Pvt.Valid;
      RecAt(cpvt, k);
      owners := owners + [Some(cpvt.id)];            // at_hangup_immediately
      ResetNeedHangup(cpvt, k);
      CallChangeState(cpvt, k, Released, a);
    }

    lemma Removed(cs: seq<Cpvt>, k: nat)
      requires k < |cs|
      ensures |RemoveAt(cs, k)| == |cs| - 1
      ensures forall j :: 0 <= j < |cs| - 1 ==> RemoveAt(cs, k)[j] == cs[if j < k then j else j + 1]
    {
    }

    method ReleaseCalls(a: Alsa)
      requires Valid()
      modifies this, chans
      ensures Valid() && Model() == ReleaseFrom(old(Model()), 0, a)
    {
      hide ChangeState, RemoveAt, Pvt.Valid, RecsOf, ReleaseFrom;
      ghost var d := Model();
      RecsLength(chans);
      var k := 0;
      while k < |chans|
        invariant Valid() && k <= |chans| && |RecsOf(chans)| == |chans|
        invariant forall j :: 0 <= j < |chans| ==> chans[j] in old(chans)
        invariant ReleaseFrom(Model(), k, a) == ReleaseFrom(d, 0, a)
        decreases |chans| - k
      {
        var cpvt := chans[k];
        var resting := cpvt.state == Released;
        RecAt(cpvt, k);
        Removed(chans, k);
        ReleaseStep(Model(), k, a);
        ReleaseCall(cpvt, k, a);
        RecsLength(chans);
        if resting { k := k + 1; }
      }
      ReleaseDone(Model(), a);
    }

    static lemma ReleaseStep(d: Device, k: nat, a: Alsa)
      requires k < |d.calls|
      ensures var c := d.calls[k];
        var e := d.(owners := d.owners + [Some(c.id)], calls := d.calls[k := c.(needHangup := false)]);
        var r, next := ChangeState(e, k, Released, a), if c.state == Released then k + 1 else k;
        next <= |r.calls| && ReleaseFrom(d, k, a) == ReleaseFrom(r, next, a)
    {
      hide ChangeState;
    }

    static lemma ReleaseDone(d: Device, a: Alsa)
      ensures ReleaseFrom(d, |d.calls|, a) == d
    {
    }

    /** at_queue_flush */
    method FlushTasks()
      modifies `owners
      ensures owners == []
    {
      while owners != []
        decreases |owners|
      {
        owners := owners[1..];
      }
    }

    /** pvt_disconnect */
    method DisconnectPvt(a: Alsa)
      requires Valid()
      modifies this, chans
      ensures Valid()
      ensures Model() == Disconnect(old(Model()), a)
    {
      hide RecsOf, ReleaseFrom, Pvt.Valid;
      ReleaseCalls(a);
      FlushTasks();
      CloseAudio();
    }

    /** Closing the cards or the audio tty, with the last channel's clean-up and the
        reset of the device flags. */
    method CloseAudio()
      modifies `icard, `ocard, `audioFd, `timer, `silenceBuf, `writeBuf, `dialing, `ring, `cwaiting
      ensures !dialing && !ring && !cwaiting
      ensures audioFd == -1 && Bufs(silenceBuf, writeBuf, timer) == NOBUFS
      ensures icard == (if uac then None else old(icard)) && ocard == if uac then None else old(ocard)
    {
      if uac { icard, ocard := None, None; }
      audioFd := -1;
      RemoveLastChannel();
      dialing, ring, cwaiting := false, false, false;
    }

    ghost predicate InState(state: CallState)
      reads `chans, chans
    {
      exists c :: c in chans && c.state == state
    }

    /** is_dial_possible2: one more call may be placed exactly when the device is
        not busy setting up a call, every call but the one to be dialled is active,
        held or gone, not both kinds occur, and with any of them the caller asked
        for call waiting. */
    method IsDialPossible(useCallWaiting: bool, ignored: Cpvt?) returns (possible: bool)
      ensures possible <==>
        && !ring && !cwaiting && !dialing
        && (forall c :: c in chans ==>
              c.state == Active || c.state == OnHold || c.state == Released || (c.state == Init && c == ignored))
        && (useCallWaiting || !(InState(Active) || InState(OnHold)))
        && !(InState(Active) && InState(OnHold))
    {
      if ring || cwaiting || dialing { return false; }
      var hold, active := 0, 0;
      for k := 0 to |chans|
        invariant active >= 0 && hold >= 0 && !(active > 0 && hold > 0)
        invariant active > 0 || hold > 0 ==> useCallWaiting
        invariant active > 0 ==> InState(Active)
        invariant hold > 0 ==> InState(OnHold)
        invariant forall j :: 0 <= j < k ==>
          || chans[j].state == Released
          || (chans[j].state == Init && chans[j] == ignored)
          || (chans[j].state == Active && active > 0)
          || (chans[j].state == OnHold && hold > 0)
      {
        var cpvt := chans[k];
        match cpvt.state
        case Init => if cpvt != ignored { return false; }
        case Active =>
          if hold > 0 || !useCallWaiting { return false; }
          active := active + 1;
        case OnHold =>
          if active > 0 || !useCallWaiting { return false; }
          hold := hold + 1;
        case Released =>
        case _ => return false;
      }
      return true;
    }
  }
}
