/** The calls of a device and who owns its audio, as a state machine (src/cpvt.c,
    src/pcm.c, and the parts of src/channel.c, src/chan_quectel.c and
    src/at_response.c that drive them). */
module CallSpec {
  import opened Basics

  const EINTR := 4
  const EAGAIN := 11
  const ENODEV := 19
  const EBADFD := 77

  // ------------------------------------------------------------------- ALSA

  datatype Pcm = Open | Setup | Prepared | Running | Xrun | Draining | Paused | Suspended | Disconnected

  /** What the sound library answers during one step: whether snd_pcm_drop works on
      capture and on playback, and the results of snd_pcm_prepare and
      snd_pcm_start at the first and at the second attempt. */
  datatype Alsa = Alsa(dropIn: bool, dropOut: bool, prepare1: int, start1: int, prepare2: int, start2: int)

  datatype Started = Started(res: int, pcm: Option<Pcm>)

  /** pcm_prepare_stream; snd_pcm_prepare leads to PREPARED when it works. */
  function PrepareStream(pcm: Option<Pcm>, prepare: int): Started {
    match pcm
    case None => Started(-ENODEV, pcm)
    case Some(Running) => Started(0, pcm)
    case Some(Prepared) => Started(0, pcm)
    case Some(Setup) => Started(prepare, if prepare < 0 then pcm else Some(Prepared))
    case Some(Xrun) => Started(prepare, if prepare < 0 then pcm else Some(Prepared))
    case Some(Suspended) => Started(prepare, if prepare < 0 then pcm else Some(Prepared))
    case Some(Disconnected) => Started(-ENODEV, pcm)
    case Some(_) => Started(-EBADFD, pcm)
  }

  /** pcm_start_capture; snd_pcm_start leads to RUNNING when it works. */
  function StartCapture(pcm: Option<Pcm>, prepare: int, start: int): Started {
    var p := PrepareStream(pcm, prepare);
    if p.res < 0 then p
    else if p.pcm == Some(Prepared) then Started(start, if start < 0 then p.pcm else Some(Running))
    else Started(0, p.pcm)
  }

  /** The attempt, and its one repetition after EINTR or EAGAIN. */
  function TryCapture(pcm: Option<Pcm>, a: Alsa): Started {
    var first := StartCapture(pcm, a.prepare1, a.start1);
    if first.res == -EINTR || first.res == -EAGAIN then StartCapture(first.pcm, a.prepare2, a.start2) else first
  }

  /** snd_pcm_drop */
  function Drop(pcm: Option<Pcm>, works: bool): Option<Pcm> {
    if works && pcm.Some? && !pcm.value.Open? && !pcm.value.Disconnected? then Some(Setup) else pcm
  }

  /** The two sound card streams; `stops` counts the calls of cpvt_stop_uac. */
  datatype Cards = Cards(icard: Option<Pcm>, ocard: Option<Pcm>, stops: nat)

  /** cpvt_stop_uac */
  function StopUac(cards: Cards, a: Alsa): Cards {
    Cards(Drop(cards.icard, a.dropIn), Drop(cards.ocard, a.dropOut), cards.stops + 1)
  }

  // ------------------------------------------------------------------ records

  datatype CallState = Active | OnHold | Dialing | Alerting | Incoming | Waiting | Released | Init

  /** An Asterisk channel with its two descriptor slots. */
  datatype Channel = Channel(fd0: int, fd1: int)

  /** struct cpvt; `id` stands for its address. */
  datatype Call = Call(
    id: nat, incoming: bool, local: bool, state: CallState,
    activated: bool, master: bool, needHangup: bool, channel: Option<Channel>, pipe: int)

  /** Where the audio goes: the mode of the device and its audio descriptor. */
  datatype Port = Port(uac: bool, multiparty: bool, fd: int)

  /** The attached streams of the mixer, by call, and mixbuffer.attached. */
  datatype Mix = Mix(streams: seq<nat>, attached: int)

  /** chansno, chan_count[] and the state of sys_chan. */
  datatype Tally = Tally(chansno: int, counts: map<CallState, int>, sys: CallState)

  /** The audio buffers of a device with calls, and its timer descriptor. */
  datatype Bufs = Bufs(silence: bool, write: bool, timer: Option<int>)

  datatype Flags = Flags(dialing: bool, ring: bool, cwaiting: bool)

  /** The device; `owners` are the calls of the queued tasks, None for sys_chan. */
  datatype Device = Device(
    port: Port, cards: Cards, mix: Mix, calls: seq<Call>, tally: Tally, bufs: Bufs,
    owners: seq<Option<nat>>, flags: Flags)

  predicate Mixing(port: Port) {
    port.multiparty && !port.uac
  }

  // ---------------------------------------------------------- audio ownership

  function WithFds(c: Call, fd0: int, fd1: int): Call {
    if c.channel.Some? then c.(channel := Some(Channel(fd0, fd1))) else c
  }

  /** What another call loses when a call becomes master. */
  function Demote(c: Call, uac: bool): Call {
    var e := c.(master := false);
    if c.channel.None? then e
    else if uac then WithFds(e, -1, -1)
    else if c.activated then WithFds(e, c.pipe, -1)
    else WithFds(e, c.channel.value.fd0, -1)
  }

  function DemoteOthers(calls: seq<Call>, i: nat, uac: bool): (r: seq<Call>)
    ensures |r| == |calls|
    ensures forall k :: 0 <= k < |calls| ==> r[k] == if k == i then calls[k] else Demote(calls[k], uac)
  {
    seq(|calls|, k requires 0 <= k < |calls| => if k == i then calls[k] else Demote(calls[k], uac))
  }

  predicate OtherMaster(calls: seq<Call>, i: nat) {
    exists k :: 0 <= k < |calls| && k != i && calls[k].master
  }

  function TimerFd(bufs: Bufs): int {
    if bufs.timer.Some? then bufs.timer.value else -1
  }

  datatype Taken = Taken(res: int, cards: Cards)

  /** The sound card's part of cpvt_call_activate. */
  function Capture(port: Port, cards: Cards, replacing: bool, a: Alsa): Taken {
    if port.fd < 0 || !port.uac then Taken(0, cards)
    else
      var e := if replacing then StopUac(cards, a) else cards;
      var t := TryCapture(e.icard, a);
      Taken(if t.res < 0 then -1 else 0, e.(icard := t.pcm))
  }

  /** The call's own part of cpvt_call_activate. */
  function Promote(c: Call, port: Port, timer: int, res: int): Call {
    if port.fd < 0 then c
    else if res < 0 then WithFds(c.(activated := false, master := false), -1, -1)
    else WithFds(c.(activated := true, master := true), port.fd, timer)
  }

  function Join(mix: Mix, id: nat): Mix {
    Mix(mix.streams + [id], mix.attached + 1)
  }

  datatype Result = Result(res: int, d: Device)

  /** cpvt_call_activate */
  function Activate(d: Device, i: nat, a: Alsa): (r: Result)
    requires i < |d.calls|
    ensures |r.d.calls| == |d.calls|
  {
    var c := d.calls[i];
    if c.master || c.local then Result(0, d)
    else
      var t := Capture(d.port, d.cards, OtherMaster(d.calls, i), a);
      var calls := DemoteOthers(d.calls, i, d.port.uac)[i := Promote(c, d.port, TimerFd(d.bufs), t.res)];
      var mix := if !c.activated && Mixing(d.port) then Join(d.mix, c.id) else d.mix;
      Result(t.res, d.(cards := t.cards, calls := calls, mix := mix))
  }

  function Leave(mix: Mix, id: nat): Mix {
    Mix(Unlink(mix.streams, id), mix.attached - 1)
  }

  /** The call's own part of cpvt_call_disactivate. */
  function Retire(c: Call, uac: bool): Call {
    var e := c.(activated := false, master := false);
    if uac then WithFds(e, -1, -1) else e
  }

  /** cpvt_call_disactivate */
  function Disactivate(d: Device, i: nat, a: Alsa): (r: Device)
    requires i < |d.calls|
    ensures |r.calls| == |d.calls|
  {
    var c := d.calls[i];
    if !c.activated then d
    else
      var cards := if d.port.uac && c.master then StopUac(d.cards, a) else d.cards;
      var mix := if Mixing(d.port) then Leave(d.mix, c.id) else d.mix;
      d.(cards := cards, mix := mix, calls := d.calls[i := Retire(c, d.port.uac)])
  }

  // -------------------------------------------------------------- life of a call

  /** relink_to_sys_chan */
  function Relink(owners: seq<Option<nat>>, id: nat): (r: seq<Option<nat>>)
    ensures |r| == |owners|
    ensures forall k :: 0 <= k < |owners| ==> r[k] == if owners[k] == Some(id) then None else owners[k]
  {
    seq(|owners|, k requires 0 <= k < |owners| => if owners[k] == Some(id) then None else owners[k])
  }

  function CountOf(counts: map<CallState, int>, s: CallState): int {
    if s in counts then counts[s] else 0
  }

  function Bump(counts: map<CallState, int>, s: CallState, n: int): map<CallState, int> {
    counts[s := CountOf(counts, s) + n]
  }

  function RemoveAt<T>(s: seq<T>, i: nat): seq<T>
    requires i < |s|
  {
    s[..i] + s[i + 1..]
  }

  const NOBUFS := Bufs(false, false, None)

  /** cpvt_free; the last call takes the buffers and the timer with it. */
  function Free(d: Device, i: nat): (r: Device)
    requires i < |d.calls|
    ensures |r.calls| == |d.calls| - 1
  {
    var c := d.calls[i];
    var tally := d.tally.(chansno := d.tally.chansno - 1, counts := Bump(d.tally.counts, c.state, -1));
    d.(calls := RemoveAt(d.calls, i), tally := tally, owners := Relink(d.owners, c.id),
       bufs := if tally.chansno == 0 then NOBUFS else d.bufs)
  }

  /** pvt_on_create_1st_channel and mixb_init; `timer` is what ast_timer_open gives. */
  function FirstBufs(port: Port, bufs: Bufs, timer: Option<int>): Bufs {
    if Mixing(port) then Bufs(true, true, timer) else bufs.(silence := true)
  }

  /** cpvt_alloc of a call in the initial state. */
  function Alloc(d: Device, c: Call, timer: Option<int>): Device {
    var first := d.tally.chansno == 0;
    d.(calls := d.calls + [c],
       tally := d.tally.(chansno := d.tally.chansno + 1, counts := Bump(d.tally.counts, c.state, 1)),
       bufs := if first then FirstBufs(d.port, d.bufs, timer) else d.bufs,
       mix := if first && Mixing(d.port) then Mix([], 0) else d.mix)
  }

  /** The device flags of pvt_update_state_flags. */
  function UpdateFlags(f: Flags, prev: CallState, next: CallState): Flags {
    if next != Active && next != Released then f
    else match prev
      case Init => f.(dialing := false)
      case Dialing => f.(dialing := false)
      case Alerting => f.(dialing := false)
      case Incoming => f.(ring := false)
      case Waiting => f.(cwaiting := false)
      case _ => f
  }

  /** at_queue_insert(..., 1) keeps the head task in front. */
  function Behind(owners: seq<Option<nat>>, o: Option<nat>): seq<Option<nat>> {
    if owners == [] then [o] else [owners[0], o] + owners[1..]
  }

  /** change_state */
  function WithChannel(d: Device, i: nat, next: CallState, a: Alsa): (r: Device)
    requires i < |d.calls|
    ensures |r.calls| == |d.calls| - if next == Released then 1 else 0
  {
    match next
    case Dialing => Activate(d, i, a).d
    case Alerting => Activate(d, i, a).d
    case Incoming => Activate(d, i, a).d
    case Active => Activate(d, i, a).d
    case OnHold => Disactivate(d, i, a)
    case Released => Free(Disactivate(d, i, a), i)
    case _ => d
  }

  /** change_state_no_channel; a call nobody listens to is hung up. */
  function WithoutChannel(d: Device, i: nat, next: CallState): (r: Device)
    requires i < |d.calls|
    ensures |r.calls| == |d.calls| - if next == Released then 1 else 0
  {
    match next
    case Released => Free(d, i)
    case Active => d
    case _ => d.(owners := Behind(d.owners, None))
  }

  /** The new state and its bookkeeping, before anything reacts to it. */
  function Enter(d: Device, i: nat, next: CallState): Device
    requires i < |d.calls|
  {
    var c := d.calls[i];
    d.(calls := d.calls[i := c.(state := next)],
       tally := d.tally.(counts := Bump(Bump(d.tally.counts, c.state, -1), next, 1)),
       flags := UpdateFlags(d.flags, c.state, next))
  }

  /** cpvt_change_state */
  function ChangeState(d: Device, i: nat, next: CallState, a: Alsa): (r: Device)
    requires i < |d.calls|
    ensures |r.calls| == |d.calls| - if next == Released && d.calls[i].state != Released then 1 else 0
  {
    if d.calls[i].state == next then d
    else if d.calls[i].channel.Some? then WithChannel(Enter(d, i, next), i, next, a)
    else WithoutChannel(Enter(d, i, next), i, next)
  }

  /** What at_enqueue_hangup does: it queues the task and reports success, or queues
      it and reports that the queue could not be run, or does not queue it. */
  datatype Enqueued = Accepted | NotRun | Refused

  /** The modem is asked to end the call, if that has to be; only after a success the
      call does not ask again. */
  function Ask(d: Device, i: nat, q: Enqueued): (r: Device)
    requires i < |d.calls|
    ensures |r.calls| == |d.calls|
  {
    var c := d.calls[i];
    if !c.needHangup || q.Refused? then d
    else
      var owners := Behind(d.owners, Some(c.id));
      d.(calls := if q.Accepted? then d.calls[i := c.(needHangup := false)] else d.calls, owners := owners)
  }

  /** channel_hangup while the channel still has its call. */
  function Hangup(d: Device, i: nat, q: Enqueued, a: Alsa): Device
    requires i < |d.calls|
  {
    if d.calls[i].channel.None? then d
    else
      var f := Disactivate(Ask(d, i, q), i, a);
      f.(calls := f.calls[i := f.calls[i].(channel := None)])
  }

  /** The channel of a new call (channel_new). */
  function NewChannel(port: Port, bufs: Bufs): Channel {
    Channel(if port.uac then -1 else port.fd, TimerFd(bufs))
  }

  /** channel_new */
  function NewCall(d: Device, c: Call, timer: Option<int>, channelOk: bool, state: CallState, a: Alsa): Device {
    var e := Alloc(d, c, timer);
    var i := |d.calls|;
    if !channelOk then Free(e, i)
    else
      var f := e.(calls := e.calls[i := c.(channel := Some(NewChannel(e.port, e.bufs)))]);
      if state == Init then f else ChangeState(f, i, state, a)
  }

  /** A dial command was accepted while its task belonged to sys_chan. */
  function OrphanDial(d: Device): Device {
    var t := d.tally;
    if t.sys == Dialing then d
    else
      d.(tally := Tally(t.chansno, Bump(Bump(t.counts, t.sys, -1), Dialing, 1), Dialing),
         owners := Behind(d.owners, None))
  }

  /** The loop of pvt_disconnect from the k-th call on. */
  function ReleaseFrom(d: Device, k: nat, a: Alsa): Device
    requires k <= |d.calls|
    decreases |d.calls| - k
  {
    if k == |d.calls| then d
    else
      var c := d.calls[k];
      var e := d.(owners := d.owners + [Some(c.id)], calls := d.calls[k := c.(needHangup := false)]);
      ReleaseFrom(ChangeState(e, k, Released, a), if c.state == Released then k + 1 else k, a)
  }

  /** pvt_disconnect */
  function Disconnect(d: Device, a: Alsa): Device {
    var e := ReleaseFrom(d, 0, a);
    e.(owners := [], port := e.port.(fd := -1), bufs := NOBUFS, flags := Flags(false, false, false),
       cards := if e.port.uac then e.cards.(icard := None, ocard := None) else e.cards)
  }

  // --------------------------------------------------------------------- runs

  /** One atomic step under the device lock. */
  datatype Op =
    | New(call: Call, timer: Option<int>, channelOk: bool, state: CallState)
    | Report(id: nat, state: CallState)        // CLCC, DSCI, QIND or an error of ATD
    | HangUp(id: nat, queued: Enqueued)
    | PbxFailed(id: nat)                       // ast_pbx_start refused the call
    | CaptureFailed(id: nat)                   // channel_start_capture of a read
    | WantHangup(id: nat)
    | Queue(owner: Option<nat>, atHead: bool)
    | DialAccepted                             // OK for the ATD of the head task
    | TaskDone
    | CardEvent(icard: Option<Pcm>, ocard: Option<Pcm>)
    | Unplug
    | Connect(fd: int, icard: Option<Pcm>, ocard: Option<Pcm>)

  datatype Step = Step(op: Op, alsa: Alsa)

  predicate Has(calls: seq<Call>, id: nat) {
    exists k :: 0 <= k < |calls| && calls[k].id == id
  }

  function IndexOf(calls: seq<Call>, id: nat): (i: nat)
    requires Has(calls, id)
    ensures i < |calls| && calls[i].id == id
  {
    if calls[0].id == id then 0 else
      assert Has(calls[1..], id) by {
        var k :| 0 <= k < |calls| && calls[k].id == id;
        assert calls[1..][k - 1].id == id;
      }
      1 + IndexOf(calls[1..], id)
  }

  predicate Fresh(c: Call) {
    c.state == Init && !c.activated && !c.master && !c.needHangup && c.channel.None?
  }

  predicate Enabled(d: Device, op: Op) {
    match op
    case New(c, _, _, state) => Fresh(c) && !Has(d.calls, c.id) && state != Released
    case Report(id, _) => Has(d.calls, id)
    case HangUp(id, _) => Has(d.calls, id)
    case PbxFailed(id) => Has(d.calls, id)
    case CaptureFailed(id) => Has(d.calls, id) && d.port.uac
    case WantHangup(id) => Has(d.calls, id)
    case Queue(o, _) => o.None? || Has(d.calls, o.value)
    case DialAccepted => d.owners != [] && (d.owners[0].None? || Has(d.calls, d.owners[0].value))
    case TaskDone => d.owners != []
    case CardEvent(i, o) => i.None? == d.cards.icard.None? && o.None? == d.cards.ocard.None?
    case Unplug => true
    case Connect(_, _, _) => d.calls == []
  }

  function Dialed(d: Device, a: Alsa): Device
    requires Enabled(d, DialAccepted)
  {
    var e := d.(flags := d.flags.(dialing := true));
    match d.owners[0]
    case None => OrphanDial(e)
    case Some(id) => ChangeState(e, IndexOf(d.calls, id), Dialing, a)
  }

  function Do(d: Device, s: Step): Device
    requires Enabled(d, s.op)
  {
    var a := s.alsa;
    match s.op
    case New(c, timer, ok, state) => NewCall(d, c, timer, ok, state, a)
    case Report(id, state) => ChangeState(d, IndexOf(d.calls, id), state, a)
    case HangUp(id, q) => Hangup(d, IndexOf(d.calls, id), q, a)
    case PbxFailed(id) => Free(d, IndexOf(d.calls, id))
    case CaptureFailed(id) => Disactivate(d, IndexOf(d.calls, id), a)
    case WantHangup(id) =>
      var i := IndexOf(d.calls, id);
      d.(calls := d.calls[i := d.calls[i].(needHangup := true)])
    case Queue(o, atHead) => d.(owners := if atHead then Behind(d.owners, o) else d.owners + [o])
    case DialAccepted => Dialed(d, a)
    case TaskDone => d.(owners := d.owners[1..])
    case CardEvent(i, o) => d.(cards := Cards(i, o, d.cards.stops))
    case Unplug => Disconnect(d, a)
    case Connect(fd, i, o) => d.(port := d.port.(fd := fd), cards := Cards(i, o, d.cards.stops))
  }

  predicate EnabledAll(d: Device, steps: seq<Step>)
    decreases |steps|
  {
    steps == [] || (Enabled(d, steps[0].op) && EnabledAll(Do(d, steps[0]), steps[1..]))
  }

  function DoAll(d: Device, steps: seq<Step>): Device
    requires EnabledAll(d, steps)
    decreases |steps|
  {
    if steps == [] then d else DoAll(Do(d, steps[0]), steps[1..])
  }

  /** A device no call has reached yet. */
  function Start(port: Port, cards: Cards): Device {
    Device(port, cards, Mix([], 0), [], Tally(0, map[], Released), NOBUFS, [], Flags(false, false, false))
  }
}
