/** Sending a message of several parts (section 4.3 of 3GPP TS 27.005) over the
    command queue: AT+CMGS announces a part, its text follows the prompt, and the
    next part follows the OK. */
module AtSms {
  import opened Basics
  import opened AtQueueSpec
  import opened AtQueueRuns
  import Hex

  // ------------------------------------------------------------ the task

  /** A part as pdu.c builds it: its octets and the length in AT+CMGS. */
  datatype Part = Part(octets: seq<byte>, tpduLength: nat)

  /** "%d" */
  function Decimal(n: nat): (d: seq<byte>)
    ensures d != []
  {
    if n < 10 then [48 + n] else Decimal(n / 10) + [48 + n % 10]
  }

  /** The number that a text of digits stands for, read from the left. */
  function ReadNumber(d: seq<byte>): int {
    if d == [] then 0 else 10 * ReadNumber(d[..|d| - 1]) + d[|d| - 1] - 48
  }

  predicate AllDigits(d: seq<byte>) {
    forall i :: 0 <= i < |d| ==> 48 <= d[i] <= 57
  }

  /** A number as it is usually written: no zero in front of other digits. */
  predicate IsDecimal(d: seq<byte>, n: int) {
    d != [] && AllDigits(d) && (d[0] == 48 ==> |d| == 1) && ReadNumber(d) == n
  }

  /** "%d" writes every length in the one usual way. */
  lemma {:induction false} DecimalIff(d: seq<byte>, n: nat)
    ensures IsDecimal(d, n) <==> d == Decimal(n)
    decreases n, |d|
  {
    DecimalIs(n);
    if IsDecimal(d, n) {
      var k := |d| - 1;
      if k == 0 {
        assert d[..0] == [] && ReadNumber(d) == d[0] - 48;
        assert d == [48 + n];
      } else {
        var front := d[..k];
        assert front[0] == d[0];
        NumberIsBig(front);
        assert n == 10 * ReadNumber(front) + d[k] - 48;
        DecimalIff(front, n / 10);
        assert d == front + [d[k]];
      }
    }
  }

  lemma {:induction false} DecimalIs(n: nat)
    ensures IsDecimal(Decimal(n), n)
    decreases n
  {
    var d := Decimal(n);
    if n < 10 {
      assert d[..0] == [];
    } else {
      DecimalIs(n / 10);
      assert d[..|d| - 1] == Decimal(n / 10);
    }
  }

  lemma {:induction false} NumberIsBig(d: seq<byte>)
    requires d != [] && AllDigits(d) && d[0] != 48
    ensures ReadNumber(d) >= 1
  {
    if |d| > 1 {
      assert d[..|d| - 1][0] == d[0];
      NumberIsBig(d[..|d| - 1]);
    } else {
      assert d[..0] == [];
    }
  }

  const CMGS: seq<byte> := [65, 84, 43, 67, 77, 71, 83, 61]                 // "AT+CMGS="

  /** at_enqueue_pdu: the two commands of a part. */
  function PartCmds(p: Part): (c: seq<Cmd>)
    ensures |c| == 2
  {
    [Cmd(Cmgs, SMS_PROMPT, false, CMGS + Decimal(p.tpduLength) + [13]),
     Cmd(SmsText, OK, false, Hex.Text(p.octets) + [0x1A])]
  }

  function MessageCmds(parts: seq<Part>): (c: seq<Cmd>)
    ensures |c| == 2 * |parts|
  {
    if parts == [] then [] else MessageCmds(parts[..|parts| - 1]) + PartCmds(parts[|parts| - 1])
  }

  /** The command announces the part: AT+CMGS=, its length as a decimal number, CR. */
  predicate Announces(data: seq<byte>, p: Part) {
    && |data| > 9 && data[..8] == CMGS && data[|data| - 1] == 13
    && IsDecimal(data[8..|data| - 1], p.tpduLength)
  }

  /** The command carries the part: its octets in hexadecimal, Ctrl-Z. */
  predicate Carries(data: seq<byte>, p: Part) {
    && |data| == 2 * |p.octets| + 1 && data[|data| - 1] == 0x1A
    && Hex.Parse(data[..|data| - 1]) == Hex.Good(p.octets, 2 * |p.octets|)
  }

  /** Two commands for each part, in order. */
  predicate SendsAll(cmds: seq<Cmd>, parts: seq<Part>) {
    && |cmds| == 2 * |parts|
    && forall i :: 0 <= i < |parts| ==>
         Announces(cmds[2 * i].data, parts[i]) && Carries(cmds[2 * i + 1].data, parts[i])
  }

  lemma PartIsSent(p: Part)
    ensures Announces(PartCmds(p)[0].data, p) && Carries(PartCmds(p)[1].data, p)
  {
    hide Decimal, IsDecimal;
    DecimalIs(p.tpduLength);
    var d, t := Decimal(p.tpduLength), Hex.Text(p.octets);
    var a := CMGS + d + [13];
    assert a[8..|a| - 1] == d && a[..8] == CMGS;
    Hex.RoundTrip(p.octets);
    assert (t + [0x1A])[..|t|] == t;
  }

  /** pdus_enqueue fills the command array part by part. */
  method BuildMessage(parts: seq<Part>) returns (cmds: seq<Cmd>)
    ensures cmds == MessageCmds(parts)
    ensures SendsAll(cmds, parts)
  {
    hide PartCmds, Announces, Carries;
    cmds := [];
    for i := 0 to |parts|
      invariant cmds == MessageCmds(parts[..i])
      invariant SendsAll(cmds, parts[..i])
    {
      assert parts[..i + 1][..i] == parts[..i];
      PartIsSent(parts[i]);
      cmds := cmds + PartCmds(parts[i]);
    }
    assert parts[..|parts|] == parts;
  }

  /** The shape of an SMS task, as enqueued. */
  ghost predicate IsSms(m: Task) {
    && !m.atOnce && |m.cmds| % 2 == 0 && |m.cmds| > 0
    && forall j :: 0 <= j < |m.cmds| ==>
         && !m.cmds[j].ignore && !m.cmds[j].Written()
         && m.cmds[j].code == (if j % 2 == 0 then Cmgs else SmsText)
         && m.cmds[j].res == (if j % 2 == 0 then SMS_PROMPT else OK)
  }

  lemma {:induction false} MessageIsSms(parts: seq<Part>, id: nat, owner: nat, uid: int)
    requires parts != []
    ensures IsSms(Task(id, owner, uid, false, MessageCmds(parts), 0))
  {
    if |parts| > 1 {
      MessageIsSms(parts[..|parts| - 1], id, owner, uid);
    } else {
      assert MessageCmds(parts[..0]) == [];
    }
  }

  // ------------------------------------------------------------ its writes

  function WireOf(w: seq<Sent>, id: nat): seq<Sent> {
    if w == [] then []
    else WireOf(w[..|w| - 1], id) + if w[|w| - 1].task == id then [w[|w| - 1]] else []
  }

  lemma WireOfOneMore(w: seq<Sent>, x: Sent, id: nat)
    ensures WireOf(w + [x], id) == WireOf(w, id) + if x.task == id then [x] else []
  {
    assert (w + [x])[..|w|] == w;
  }

  lemma {:induction false} WireOfNobody(w: seq<Sent>, id: nat)
    requires forall a :: 0 <= a < |w| ==> w[a].task != id
    ensures WireOf(w, id) == []
  {
    if w != [] {
      WireOfNobody(w[..|w| - 1], id);
    }
  }

  /** The first writes of the task m, none missing, none twice. */
  ghost predicate Prefix(p: seq<Sent>, m: Task) {
    |p| <= |m.cmds| && forall j :: 0 <= j < |p| ==> p[j] == Sent(m.id, j, m.cmds[j].data)
  }

  /** Every SMS task has written a prefix of its commands; the one at the head has
      written all up to its current command, or up to the one before. */
  ghost predicate Contiguous(s: State)
    requires Inv(s)
  {
    && (forall id :: 0 <= id < |s.made| && IsSms(s.made[id]) ==> Prefix(WireOf(s.wire, id), s.made[id]))
    && (s.queue != [] && IsSms(s.made[s.queue[0].id]) ==>
          |WireOf(s.wire, s.queue[0].id)| == s.queue[0].cindex + if s.queue[0].Current().Written() then 1 else 0)
  }

  /** Between steps, moreover, a begun SMS task at the head is waiting for an answer. */
  ghost predicate SmsInv(s: State)
    requires Inv(s)
  {
    && Contiguous(s)
    && (s.queue != [] && IsSms(s.made[s.queue[0].id]) && s.queue[0].cindex > 0 ==> s.queue[0].Current().Written())
  }

  /** What a queued SMS task expects for its current command. */
  lemma HeadExpects(s: State)
    requires Inv(s) && s.queue != [] && IsSms(s.made[s.queue[0].id])
    ensures var t := s.queue[0]; var c := t.Current();
      && !t.atOnce && t.cindex < |t.cmds| == |s.made[t.id].cmds| && !c.ignore
      && c.res == (if t.cindex % 2 == 0 then SMS_PROMPT else OK)
      && c.code == (if t.cindex % 2 == 0 then Cmgs else SmsText)
  {
    assert Shape(s.queue[0], s.made[s.queue[0].id]);
  }

  /** A task behind the head has written nothing, and neither has a new one. */
  lemma TailSilent(s: State, i: nat)
    requires Inv(s) && 0 < i < |s.queue|
    ensures WireOf(s.wire, s.queue[i].id) == []
    ensures s.queue[i].cindex == 0
    ensures IsSms(s.made[s.queue[i].id]) ==> !s.queue[i].Current().Written()
  {
    WireOfNobody(s.wire, s.queue[i].id);
  }

  lemma NewSilent(s: State, id: nat)
    requires Inv(s) && |s.made| <= id
    ensures WireOf(s.wire, id) == []
  {
    WireOfNobody(s.wire, id);
  }

  /** Removing the head leaves a head that has not begun. */
  lemma PopKeepsSms(s: State, n: int)
    requires Inv(s) && Contiguous(s) && s.queue != []
    ensures Inv(Pop(s).(cmds := n)) && SmsInv(Pop(s).(cmds := n))
  {
    hide Inv, IsSms, WireOf, Prefix;
    HeadId(s);
    InvGives(s);
    PopKeepsInv(s);
    InvIgnoresCmds(Pop(s), n);
    if |s.queue| > 1 {
      TailSilent(s, 1);
    }
  }

  lemma AddKeepsSms(s: State, cmds: seq<Cmd>, prio: bool, atOnce: bool, owner: nat, uid: int)
    requires Inv(s) && SmsInv(s) && forall i :: 0 <= i < |cmds| ==> !cmds[i].Written()
    ensures Inv(Add(s, cmds, prio, atOnce, owner, uid)) && SmsInv(Add(s, cmds, prio, atOnce, owner, uid))
  {
    hide Inv, IsSms, WireOf, Add;
    AddKeepsInv(s, cmds, prio, atOnce, owner, uid);
    var a := Add(s, cmds, prio, atOnce, owner, uid);
    NewSilent(s, |s.made|);
    HeadId(s);
    HeadId(a);
    AddedHead(s, cmds, prio, atOnce, owner, uid);
  }

  lemma HeadId(s: State)
    requires Inv(s)
    ensures AllWellFormed(s)
    ensures s.queue != [] ==> s.queue[0].id < |s.made|
  {
  }

  lemma AddedHead(s: State, cmds: seq<Cmd>, prio: bool, atOnce: bool, owner: nat, uid: int)
    ensures var a := Add(s, cmds, prio, atOnce, owner, uid);
      && a.wire == s.wire
      && (cmds == [] ==> a == s)
      && (cmds != [] ==> a.made == s.made + [Task(|s.made|, owner, uid, atOnce, cmds, 0)])
      && (s.queue != [] ==> a.queue != [] && a.queue[0] == s.queue[0])
      && (s.queue == [] && cmds != [] ==> a.queue == [Task(|s.made|, owner, uid, atOnce, cmds, 0)])
  {
  }

  /** A result for the head. An SMS task that has not announced its first part
      yet does not take a prompt for it. */
  lemma AdvanceKeepsSms(s: State, res: int)
    requires Inv(s) && SmsInv(s)
    requires s.queue != [] && IsSms(s.made[s.queue[0].id]) && !s.queue[0].Current().Written() ==> res != SMS_PROMPT
    ensures Inv(Advance(s, res)) && Contiguous(Advance(s, res))
    ensures res == TIMEOUT ==> SmsInv(Advance(s, res))
  {
    hide Inv, IsSms, WireOf, Prefix;
    HeadId(s);
    AdvanceKeepsInv(s, res);
    if s.queue != [] {
      var t, r := s.queue[0], Advance(s, res);
      if |r.queue| < |s.queue| {
        PopKeepsSms(s, r.cmds);
        assert r == Pop(s).(cmds := r.cmds);
      } else if IsSms(s.made[t.id]) {
        HeadExpects(s);
        NextUnwritten(s);
        assert r.queue[0] == t.(cindex := t.cindex + 1);
      }
    }
  }

  /** The head's commands behind the current one are unwritten. */
  lemma NextUnwritten(s: State)
    requires Inv(s) && s.queue != [] && !s.queue[0].atOnce
    ensures s.queue[0].cindex + 1 < |s.queue[0].cmds| ==> !s.queue[0].cmds[s.queue[0].cindex + 1].Written()
  {
  }

  /** at_queue_run either does nothing, or writes the head's current command, or
      on a failure gives the head a result it does not expect. */
  lemma WriteKeepsSms(s: State, ok: bool)
    requires Inv(s) && Contiguous(s)
    ensures Inv(Write(s, ok)) && SmsInv(Write(s, ok))
  {
    WriteKeepsInv(s, ok);
    if s.queue != [] {
      var t, r := s.queue[0], Write(s, ok);
      if IsSms(s.made[t.id]) {
        HeadExpects(s);
        var c := t.Current();
        if !c.Written() {
          if ok {
            SmsWrites(s);
          } else {
            PopKeepsSms(s, r.cmds);
            assert r == Pop(s).(cmds := r.cmds);
          }
        }
      } else {
        OtherWrites(s, ok);
      }
    }
  }

  lemma SmsWrites(s: State)
    requires Inv(s) && Contiguous(s) && s.queue != [] && IsSms(s.made[s.queue[0].id])
    requires !s.queue[0].atOnce && !s.queue[0].Current().Written()
    ensures Inv(Write(s, true)) && SmsInv(Write(s, true))
  {
    WriteKeepsInv(s, true);
    HeadData(s);
    var t, r := s.queue[0], Write(s, true);
    var x := Sent(t.id, t.cindex, t.Current().data);
    assert r.wire == s.wire + [x] && r.made == s.made && r.queue[0].cindex == t.cindex && r.queue[0].id == t.id;
    assert r.queue[0].Current().Written();
    forall id | 0 <= id < |s.made| ensures WireOf(r.wire, id) == WireOf(s.wire, id) + if t.id == id then [x] else [] {
      WireOfOneMore(s.wire, x, id);
    }
    MadeIds(s);
    hide Inv, IsSms, WireOf, Write;
  }

  lemma MadeIds(s: State)
    requires Inv(s)
    ensures forall k :: 0 <= k < |s.made| ==> s.made[k].id == k
  {
  }

  /** Writes for other tasks leave the SMS tasks alone. */
  lemma OtherWrites(s: State, ok: bool)
    requires Inv(s) && Contiguous(s) && s.queue != [] && !IsSms(s.made[s.queue[0].id])
    ensures Inv(Write(s, ok)) && SmsInv(Write(s, ok))
  {
    WriteKeepsInv(s, ok);
    var t, r := s.queue[0], Write(s, ok);
    HeadId(s);
    WriteShape(s, ok);
    if |r.queue| < |s.queue| {
      PopKeepsSms(s, r.cmds);
      assert r == Pop(s).(cmds := r.cmds);
    } else {
      if r.wire != s.wire {
        var x := r.wire[|s.wire|];
        assert r.wire == s.wire + [x];
        forall id ensures WireOf(r.wire, id) == WireOf(s.wire, id) + if t.id == id then [x] else [] {
          WireOfOneMore(s.wire, x, id);
        }
      }
      hide Inv, IsSms, WireOf, Write;
    }
  }

  lemma WriteShape(s: State, ok: bool)
    requires AllWellFormed(s) && s.queue != []
    ensures var r := Write(s, ok);
      && r.made == s.made
      && (r.wire == s.wire ||
          (|r.wire| == |s.wire| + 1 && r.wire[..|s.wire|] == s.wire && r.wire[|s.wire|].task == s.queue[0].id))
      && (|r.queue| < |s.queue| ==> r == Pop(s).(cmds := r.cmds))
      && (|r.queue| >= |s.queue| ==> r.queue != [] && r.queue[0].id == s.queue[0].id)
  {
  }

  /** A message at the head waits for the answer to its current command. */
  ghost predicate HeadReady(s: State)
    requires Inv(s)
  {
    s.queue != [] && s.queue[0].id < |s.made| && IsSms(s.made[s.queue[0].id]) ==> s.queue[0].Current().Written()
  }

  lemma RespondKeepsSms(s: State, res: int)
    requires Inv(s) && SmsInv(s) && (res == SMS_PROMPT ==> HeadReady(s))
    ensures Inv(Respond(s, res)) && Contiguous(Respond(s, res))
    ensures res == TIMEOUT ==> SmsInv(Respond(s, res))
  {
    hide Inv, Contiguous, Advance, Add, Write, IsSms;
    InvGives(s);
    SmsInvGives(s);
    if s.queue != [] {
      var t := s.queue[0];
      if res == SMS_PROMPT && t.Current().code == Cnma && t.Current().res == OK {
        assert forall i :: 0 <= i < |[ESCAPE]| ==> ![ESCAPE][i].Written();
        AddKeepsSms(s, [ESCAPE], true, false, t.owner, t.uid);
        var a := Add(s, [ESCAPE], true, false, t.owner, t.uid);
        SmsInvGives(a);
        WriteKeepsSms(a, true);
        InvGives(Write(a, true));
        AdvanceKeepsSms(Write(a, true), OK);
      } else if res in {OK, ERROR, CMS_ERROR, TIMEOUT, SMS_PROMPT} {
        AdvanceKeepsSms(s, res);
      }
    }
  }

  lemma SmsInvGives(s: State)
    requires Inv(s) && SmsInv(s)
    ensures Contiguous(s)
    ensures s.queue != [] ==> s.queue[0].id < |s.made|
  {
    HeadId(s);
  }

  lemma FlushKeepsSms(s: State)
    requires Inv(s) && SmsInv(s)
    ensures Inv(Flush(s)) && SmsInv(Flush(s))
  {
    FlushKeepsInv(s);
    var r := Flush(s);
    assert r.wire == s.wire && r.made == s.made && r.queue == [];
  }

  /** A prompt comes in before a message at the head has announced its first part,
      and the text it asks for can be written. */
  ghost predicate Stray(s: State, step: Step)
    requires Inv(s)
  {
    step.Response? && step.res == SMS_PROMPT && step.ok && !HeadReady(s)
  }

  lemma StepKeepsSms(s: State, step: Step)
    requires Inv(s) && SmsInv(s) && Enabled(s, step)
    requires step.Response? && step.res == SMS_PROMPT ==> HeadReady(s)
    ensures Inv(Do(s, step)) && SmsInv(Do(s, step))
  {
    hide Inv, SmsInv, Contiguous, Write, Respond, Add, Flush, HeadReady;
    InvGives(s);
    match step
    case Insert(cmds, prio, atOnce, owner, uid, ok) =>
      AddKeepsSms(s, cmds, prio, atOnce, owner, uid);
      var a := Add(s, cmds, prio, atOnce, owner, uid);
      SmsInvGives(a);
      WriteKeepsSms(a, ok);
    case Response(res, ok) =>
      RespondKeepsSms(s, res);
      WriteKeepsSms(Respond(s, res), ok);
    case Expire => RespondKeepsSms(s, TIMEOUT);
    case Disconnect => FlushKeepsSms(s);
  }

  /** The empty queue to start from. */
  lemma StartInv(s: State)
    requires s == State([], 0, 0, [], [])
    ensures Inv(s) && SmsInv(s)
  {
  }

  // ------------------------------------------------ who causes which write

  /** A response moves the head on by at most one command, and only when it is the
      response that command expects. */
  lemma RespondHead(s: State, res: int)
    requires Inv(s) && SmsInv(s)
    requires s.queue != [] && IsSms(s.made[s.queue[0].id])
    ensures var t, r := s.queue[0], Respond(s, res);
      && r.made == s.made
      && (r == s
          || r.queue == [] || r.queue[0].id != t.id
          || (r.queue[0] == t.(cindex := t.cindex + 1) && res == t.Current().res))
  {
    hide Inv, SmsInv, IsSms;
    InvGives(s);
    HeadExpects(s);
    PoppedHead(s);
  }

  /** After a response the head is the old one or has not begun. */
  lemma RespondShape(s: State, res: int)
    requires AllWellFormed(s) && s.queue != []
    ensures var r := Respond(s, res);
      && s.made <= r.made
      && (r.queue != [] ==>
            r.queue[0].id == s.queue[0].id || (|s.queue| > 1 && r.queue[0] == s.queue[1]) || r.queue[0].cindex == 0)
  {
    hide Advance, Write;
    var t := s.queue[0];
    AdvanceShape(s, res);
    EscapeShape(s, t.owner, t.uid);
    AdvanceShape(Write(Add(s, [ESCAPE], true, false, t.owner, t.uid), true), OK);
  }

  lemma AdvanceShape(s: State, res: int)
    requires AllWellFormed(s) && s.queue != []
    ensures var r := Advance(s, res);
      && r.made == s.made
      && (r.queue != [] ==> r.queue[0].id == s.queue[0].id || (|s.queue| > 1 && r.queue[0] == s.queue[1]))
  {
  }

  lemma EscapeShape(s: State, owner: nat, uid: int)
    requires AllWellFormed(s) && s.queue != []
    ensures var r := Write(Add(s, [ESCAPE], true, false, owner, uid), true);
      s.made <= r.made && |r.queue| > 1 && r.queue[0].id == s.queue[0].id && r.queue[1].cindex == 0
  {
    hide Joined;
  }

  /** An SMS command is due: the head's, behind its first. */
  ghost predicate Due(s: State)
    requires Inv(s)
  {
    s.queue != [] && IsSms(s.made[s.queue[0].id]) && s.queue[0].cindex > 0 && !s.queue[0].Current().Written()
  }

  lemma DueAfterInsert(s: State, cmds: seq<Cmd>, prio: bool, atOnce: bool, owner: nat, uid: int)
    requires Inv(s) && SmsInv(s) && forall i :: 0 <= i < |cmds| ==> !cmds[i].Written()
    ensures Inv(Add(s, cmds, prio, atOnce, owner, uid)) && !Due(Add(s, cmds, prio, atOnce, owner, uid))
  {
    hide Inv, IsSms, Contiguous, Add;
    AddKeepsSms(s, cmds, prio, atOnce, owner, uid);
  }

  /** In front of at_queue_run: a text that is due has just been prompted for, and
      a further announcement follows an OK. */
  lemma DueAfterResponse(s: State, res: int)
    requires Inv(s) && SmsInv(s)
    ensures Inv(Respond(s, res))
    ensures Due(Respond(s, res)) ==> res == if Respond(s, res).queue[0].cindex % 2 == 1 then SMS_PROMPT else OK
  {
    hide Inv, IsSms, Contiguous, Respond;
    RespondKeepsInv(s, res);
    InvGives(s);
    var r := Respond(s, res);
    InvGives(r);
    if Due(r) {
      HeadId(s);
      HeadId(r);
      RespondNothing(s, res);
      RespondShape(s, res);
      if |s.queue| > 1 { TailSilent(s, 1); }
      assert r.queue[0].id == s.queue[0].id;
      assert s.made[s.queue[0].id] == r.made[s.queue[0].id];
      RespondHead(s, res);
      HeadExpects(s);
    }
  }

  lemma RespondNothing(s: State, res: int)
    requires AllWellFormed(s)
    ensures s.queue == [] ==> Respond(s, res).queue == []
  {
  }

  lemma PoppedHead(s: State)
    requires Inv(s) && s.queue != []
    ensures Pop(s).queue != [] ==> Pop(s).queue[0].id != s.queue[0].id
  {
  }

  ghost predicate Caused(made: seq<Task>, x: Sent, step: Step) {
    x.task < |made| && (IsSms(made[x.task]) && x.index > 0 ==>
      step.Response? && step.res == if x.index % 2 == 1 then SMS_PROMPT else OK)
  }

  /** What a step has written of messages has this step as its cause. */
  ghost predicate AllCaused(s: State, r: State, step: Step) {
    |s.wire| <= |r.wire| && forall a :: |s.wire| <= a < |r.wire| ==> Caused(r.made, r.wire[a], step)
  }

  /** The second part of a message is announced only after an OK, and a text is
      written only after the prompt: a step that writes command j > 0 of an SMS
      task is the response that asks for it. */
  lemma SmsWriteCause(s: State, step: Step)
    requires Inv(s) && SmsInv(s) && Enabled(s, step)
    ensures AllCaused(s, Do(s, step), step)
  {
    hide Inv, IsSms, SmsInv, Contiguous, Respond, Add, Flush, Write, Due;
    InvGives(s);
    match step
    case Insert(cmds, prio, atOnce, owner, uid, ok) =>
      AddKeepsInv(s, cmds, prio, atOnce, owner, uid);
      DueAfterInsert(s, cmds, prio, atOnce, owner, uid);
      AddedHead(s, cmds, prio, atOnce, owner, uid);
      WriteCaused(Add(s, cmds, prio, atOnce, owner, uid), ok, step);
    case Response(res, ok) =>
      RespondKeepsInv(s, res);
      DueAfterResponse(s, res);
      RespondCaused(s, res, step);
      InvGives(Respond(s, res));
      WriteMade(Respond(s, res), ok);
      WriteCaused(Respond(s, res), ok, step);
    case Expire => RespondCaused(s, TIMEOUT, step);
    case Disconnect => FlushWire(s);
  }

  lemma FlushWire(s: State)
    ensures Flush(s).wire == s.wire
  {
  }

  lemma WriteCaused(s: State, ok: bool, step: Step)
    requires Inv(s)
    requires Due(s) ==> step.Response? && step.res == if s.queue[0].cindex % 2 == 1 then SMS_PROMPT else OK
    ensures AllCaused(s, Write(s, ok), step) && Write(s, ok).made == s.made
  {
    hide Inv, IsSms, Due, Write;
    InvGives(s);
    WriteMade(s, ok);
    if Write(s, ok).wire != s.wire { WriteIsDue(s, ok); }
  }

  lemma WriteMade(s: State, ok: bool)
    requires AllWellFormed(s)
    ensures var w := Write(s, ok);
      w.made == s.made && (w.wire == s.wire || (|w.wire| == |s.wire| + 1 && w.wire[..|s.wire|] == s.wire))
  {
  }

  /** A response writes nothing but the command of a head that is no message. */
  lemma RespondCaused(s: State, res: int, step: Step)
    requires Inv(s)
    ensures AllCaused(s, Respond(s, res), step) && s.wire <= Respond(s, res).wire
  {
    hide Inv, IsSms, Due, Write, Add, Advance;
    InvGives(s);
    AdvanceWire(s, res);
    if s.queue != [] && res == SMS_PROMPT && s.queue[0].Current().code == Cnma && s.queue[0].Current().res == OK {
      var t := s.queue[0];
      assert forall i :: 0 <= i < |[ESCAPE]| ==> ![ESCAPE][i].Written();
      AddKeepsInv(s, [ESCAPE], true, false, t.owner, t.uid);
      var a := Add(s, [ESCAPE], true, false, t.owner, t.uid);
      AddedHead(s, [ESCAPE], true, false, t.owner, t.uid);
      InvGives(a);
      NotDue(a);
      WriteCaused(a, true, step);
      WriteMade(a, true);
      AdvanceWire(Write(a, true), OK);
    }
  }

  /** A +CNMA at the head is no message. */
  lemma NotDue(s: State)
    requires Inv(s) && s.queue != [] && s.queue[0].Current().code == Cnma
    ensures !Due(s)
  {
    if IsSms(s.made[s.queue[0].id]) { HeadExpects(s); }
  }

  lemma AdvanceWire(s: State, res: int)
    requires AllWellFormed(s)
    ensures Advance(s, res).wire == s.wire && Advance(s, res).made == s.made
  {
  }

  /** What at_queue_run writes. */
  lemma WriteIsDue(s: State, ok: bool)
    requires Inv(s) && Write(s, ok).wire != s.wire
    ensures var w := Write(s, ok);
      var x := w.wire[|w.wire| - 1];
      && |w.wire| > 0 && w.made == s.made && s.queue != [] && x.task == s.queue[0].id < |s.made|
      && (IsSms(s.made[x.task]) && x.index > 0 ==> Due(s) && x.index == s.queue[0].cindex)
  {
    HeadId(s);
    if s.queue != [] && IsSms(s.made[s.queue[0].id]) {
      HeadExpects(s);
    }
    WriteIndex(s, ok);
    hide Inv, IsSms, Write;
  }

  lemma WriteIndex(s: State, ok: bool)
    requires AllWellFormed(s) && Write(s, ok).wire != s.wire
    ensures var w := Write(s, ok);
      && |w.wire| > 0 && w.made == s.made && s.queue != []
      && w.wire[|w.wire| - 1].task == s.queue[0].id
      && (!s.queue[0].atOnce ==> w.wire[|w.wire| - 1].index == s.queue[0].cindex && !s.queue[0].Current().Written())
  {
  }

  // ---------------------------------------------------------- the end of a task

  ghost predicate NotQueued(s: State, id: nat) {
    id < |s.made| && forall i :: 0 <= i < |s.queue| ==> s.queue[i].id != id
  }

  /** `r` follows `s` and has nothing new of the task `id`. */
  ghost predicate Silent(s: State, r: State, id: nat) {
    NotQueued(r, id) && WireOf(r.wire, id) == WireOf(s.wire, id)
  }

  lemma AdvanceSilent(s: State, res: int, id: nat)
    requires AllWellFormed(s) && NotQueued(s, id)
    ensures Silent(s, Advance(s, res), id)
  {
    hide WireOf;
  }

  lemma AddSilent(s: State, cmds: seq<Cmd>, prio: bool, atOnce: bool, owner: nat, uid: int, id: nat)
    requires NotQueued(s, id)
    ensures Silent(s, Add(s, cmds, prio, atOnce, owner, uid), id)
  {
    hide WireOf;
  }

  lemma WriteSilent(s: State, ok: bool, id: nat)
    requires AllWellFormed(s) && NotQueued(s, id)
    ensures Silent(s, Write(s, ok), id)
  {
    hide WireOf, Joined, AllWritten, Advance;
    if s.queue != [] {
      var t := s.queue[0];
      WireOfOneMore(s.wire, Sent(t.id, 0, Joined(t.cmds) + [13]), id);
      if !t.atOnce {
        AdvanceSilent(s, t.Current().res + 1, id);
        WireOfOneMore(s.wire, Sent(t.id, t.cindex, t.Current().data), id);
      }
    }
  }

  lemma RespondSilent(s: State, res: int, id: nat)
    requires AllWellFormed(s) && NotQueued(s, id)
    ensures Silent(s, Respond(s, res), id)
  {
    hide WireOf, Advance, Add, Write;
    AdvanceSilent(s, res, id);
    if s.queue != [] {
      var a := Add(s, [ESCAPE], true, false, s.queue[0].owner, s.queue[0].uid);
      AddSilent(s, [ESCAPE], true, false, s.queue[0].owner, s.queue[0].uid, id);
      WriteSilent(a, true, id);
      AdvanceSilent(Write(a, true), OK, id);
    }
  }

  lemma StepSilent(s: State, step: Step, id: nat)
    requires AllWellFormed(s) && NotQueued(s, id)
    ensures Silent(s, Do(s, step), id)
  {
    hide WireOf, Respond, Add, Write, HeadWritten;
    match step
    case Insert(cmds, prio, atOnce, owner, uid, ok) =>
      AddSilent(s, cmds, prio, atOnce, owner, uid, id);
      WriteSilent(Add(s, cmds, prio, atOnce, owner, uid), ok, id);
    case Response(res, ok) =>
      RespondSilent(s, res, id);
      WriteSilent(Respond(s, res), ok, id);
    case Expire => RespondSilent(s, TIMEOUT, id);
    case Disconnect =>
  }

  /** A task that has left the queue never writes again. */
  lemma {:induction false} GoneForever(s: State, steps: seq<Step>, id: nat)
    requires AllWellFormed(s) && NotQueued(s, id)
    ensures Silent(s, DoAll(s, steps), id)
    decreases |steps|
  {
    hide WireOf, Do;
    if steps != [] {
      StepSilent(s, steps[0], id);
      GoneForever(Do(s, steps[0]), steps[1..], id);
    }
  }

  /** The queue as at_queue_run finds it in a step. */
  ghost function BeforeRun(s: State, step: Step): (b: State)
    requires AllWellFormed(s)
    ensures AllWellFormed(b)
  {
    match step
    case Insert(cmds, prio, atOnce, owner, uid, _) => Add(s, cmds, prio, atOnce, owner, uid)
    case Response(res, _) => Respond(s, res)
    case _ => s
  }

  /** The step tries to write a command of this task, and fails. */
  ghost predicate FailsToWrite(s: State, step: Step, id: nat)
    requires AllWellFormed(s)
  {
    var b := BeforeRun(s, step);
    && (step.Insert? || step.Response?) && !step.ok
    && b.queue != [] && b.queue[0].id == id && !b.queue[0].Current().Written()
  }

  /** An error or a timeout of its current command, a failed write of any of its
      commands, or a disconnect: the message ends there. */
  ghost predicate Ends(s: State, step: Step, id: nat)
    requires AllWellFormed(s)
  {
    || FailsToWrite(s, step, id)
    || (s.queue != [] && s.queue[0].id == id && step.Response? && (step.res == ERROR || step.res == CMS_ERROR))
    || (s.queue != [] && s.queue[0].id == id && step.Expire? && HeadWritten(s))
    || step.Disconnect?
  }

  lemma PopNotQueued(s: State, n: int)
    requires Inv(s) && s.queue != []
    ensures NotQueued(Pop(s).(cmds := n), s.queue[0].id)
    ensures AllWellFormed(Pop(s).(cmds := n))
  {
  }

  lemma MismatchPops(s: State, res: int)
    requires Inv(s) && s.queue != [] && IsSms(s.made[s.queue[0].id])
    requires res == TIMEOUT || res != s.queue[0].Current().res
    ensures Advance(s, res) == Pop(s).(cmds := Advance(s, res).cmds)
  {
    HeadExpects(s);
    hide Inv, IsSms;
  }

  lemma {:induction false} FlushNotQueued(s: State, id: nat)
    requires id < |s.made|
    ensures NotQueued(Flush(s), id)
  {
    assert Flush(s).queue == [];
  }

  /** No error, timeout or failed write lets a later command of a message out. */
  lemma EndsForGood(s: State, step: Step, steps: seq<Step>, id: nat)
    requires Inv(s) && SmsInv(s) && Enabled(s, step)
    requires id < |Do(s, step).made| && IsSms(Do(s, step).made[id]) && Ends(s, step, id)
    ensures WireOf(DoAll(Do(s, step), steps).wire, id) == WireOf(s.wire, id)
  {
    hide WireOf, Inv, SmsInv, IsSms, DoAll, Do, FailsToWrite;
    InvGives(s);
    if FailsToWrite(s, step, id) { FailedIsSilent(s, step, id); } else { EndedIsSilent(s, step, id); }
    GoneForever(Do(s, step), steps, id);
  }

  lemma EndedIsSilent(s: State, step: Step, id: nat)
    requires Inv(s) && SmsInv(s) && id < |Do(s, step).made| && IsSms(Do(s, step).made[id])
    requires Ends(s, step, id) && !FailsToWrite(s, step, id)
    ensures Silent(s, Do(s, step), id)
  {
    hide WireOf, Inv, SmsInv, IsSms, FailsToWrite, Respond, Write;
    InvGives(s);
    StepKeepsMade(s, step);
    match step {
      case Response(res, ok) =>
        ErrorPops(s, res);
        WriteSilent(Respond(s, res), ok, id);
      case Expire => ErrorPops(s, TIMEOUT);
      case Disconnect => FlushNotQueued(s, id);
      case Insert(_, _, _, _, _, _) =>
    }
  }

  lemma StepKeepsMade(s: State, step: Step)
    requires Inv(s) && !step.Insert?
    ensures s.queue != [] ==> s.queue[0].id < |s.made| && s.queue[0].id < |Do(s, step).made|
    ensures s.queue != [] ==> Do(s, step).made[s.queue[0].id] == s.made[s.queue[0].id]
  {
    hide Inv, Advance, Add, Write;
    InvGives(s);
    HeadId(s);
    if step.Response? { MadeOfRespond(s, step.res); WriteMade(Respond(s, step.res), step.ok); }
    if step.Expire? { MadeOfRespond(s, TIMEOUT); }
  }

  lemma MadeOfRespond(s: State, res: int)
    requires AllWellFormed(s)
    ensures s.made <= Respond(s, res).made
  {
    hide Advance, Write, Add;
    AdvanceWire(s, res);
    if s.queue != [] {
      var t := s.queue[0];
      var a := Add(s, [ESCAPE], true, false, t.owner, t.uid);
      AddedHead(s, [ESCAPE], true, false, t.owner, t.uid);
      WriteMade(a, true);
      AdvanceWire(Write(a, true), OK);
    }
  }

  /** A failed write takes the message out of the queue, with nothing written. */
  lemma FailedIsSilent(s: State, step: Step, id: nat)
    requires Inv(s) && SmsInv(s) && Enabled(s, step) && FailsToWrite(s, step, id)
    requires id < |Do(s, step).made| && IsSms(Do(s, step).made[id])
    ensures Silent(s, Do(s, step), id)
  {
    hide WireOf, Inv, SmsInv, IsSms, Advance, Write, Respond, Add;
    InvGives(s);
    var b := BeforeRun(s, step);
    BeforeRunKeeps(s, step, id);
    InvGives(b);
    WriteMade(b, false);
    FailedPops(b);
  }

  lemma FailedPops(b: State)
    requires Inv(b) && b.queue != [] && b.queue[0].id < |b.made| && IsSms(b.made[b.queue[0].id])
    requires !b.queue[0].Current().Written()
    ensures Silent(b, Write(b, false), b.queue[0].id)
  {
    hide WireOf, Inv, IsSms, Advance;
    InvGives(b);
    HeadExpects(b);
    var res := b.queue[0].Current().res + 1;
    MismatchPops(b, res);
    PopNotQueued(b, Advance(b, res).cmds);
  }

  /** Up to the run of the queue, no step writes a command of a message. */
  lemma BeforeRunKeeps(s: State, step: Step, id: nat)
    requires Inv(s) && Enabled(s, step) && (step.Insert? || step.Response?)
    ensures Inv(BeforeRun(s, step))
    ensures id < |BeforeRun(s, step).made| && IsSms(BeforeRun(s, step).made[id]) ==>
      WireOf(BeforeRun(s, step).wire, id) == WireOf(s.wire, id)
  {
    hide WireOf, Inv, IsSms, Respond, Add;
    InvGives(s);
    match step
    case Insert(cmds, prio, atOnce, owner, uid, _) =>
      AddKeepsInv(s, cmds, prio, atOnce, owner, uid);
      AddedHead(s, cmds, prio, atOnce, owner, uid);
    case Response(res, _) =>
      RespondKeepsInv(s, res);
      if id < |Respond(s, res).made| && IsSms(Respond(s, res).made[id]) { RespondNoMessage(s, res, id); }
    case _ =>
  }

  lemma RespondNoMessage(s: State, res: int, id: nat)
    requires Inv(s) && Inv(Respond(s, res)) && id < |Respond(s, res).made| && IsSms(Respond(s, res).made[id])
    ensures WireOf(Respond(s, res).wire, id) == WireOf(s.wire, id)
  {
    hide WireOf, Inv, IsSms, Advance, Write, Add;
    InvGives(s);
    HeadId(s);
    AdvanceWire(s, res);
    if s.queue != [] && res == SMS_PROMPT && s.queue[0].Current().code == Cnma && s.queue[0].Current().res == OK {
      var t := s.queue[0];
      var a := Add(s, [ESCAPE], true, false, t.owner, t.uid);
      AddedHead(s, [ESCAPE], true, false, t.owner, t.uid);
      CnmaIsNoMessage(s);
      MadeOfRespond(s, res);
      WriteShape(a, true);
      if Write(a, true).wire != a.wire {
        var x := Write(a, true).wire[|a.wire|];
        assert Write(a, true).wire == a.wire + [x];
        WireOfOneMore(a.wire, x, id);
      }
      AdvanceWire(Write(a, true), OK);
    }
  }

  lemma CnmaIsNoMessage(s: State)
    requires Inv(s) && s.queue != [] && s.queue[0].Current().code == Cnma
    ensures s.queue[0].id < |s.made| && !IsSms(s.made[s.queue[0].id])
  {
    if IsSms(s.made[s.queue[0].id]) { HeadExpects(s); }
  }

  lemma ErrorPops(s: State, res: int)
    requires Inv(s) && s.queue != [] && IsSms(s.made[s.queue[0].id])
    requires res == ERROR || res == CMS_ERROR || res == TIMEOUT
    ensures s.queue[0].id < |s.made| && Silent(s, Respond(s, res), s.queue[0].id)
  {
    hide WireOf, Inv, IsSms, Advance;
    InvGives(s);
    HeadId(s);
    HeadExpects(s);
    MismatchPops(s, res);
    PopNotQueued(s, Advance(s, res).cmds);
  }

  lemma EvenLength(s: State)
    requires Inv(s) && s.queue != [] && IsSms(s.made[s.queue[0].id])
    ensures |s.queue[0].cmds| % 2 == 0
    ensures s.queue[0].cindex % 2 == 0 ==> s.queue[0].cindex + 1 < |s.queue[0].cmds|
  {
    HeadExpects(s);
  }

  // ---------------------------------------------- exact conditions and completion

  /** A prompt that answers nothing: taken by a message whose first announcement is
      not written yet, it puts its text out of order if and only if the text is
      written. */
  lemma StrayPromptIff(s: State, ok: bool)
    requires Inv(s) && SmsInv(s) && s.queue != [] && IsSms(s.made[s.queue[0].id])
    requires !s.queue[0].Current().Written()
    ensures s.queue[0].id < |s.made|
    ensures Prefix(WireOf(Do(s, Response(SMS_PROMPT, ok)).wire, s.queue[0].id), s.made[s.queue[0].id]) <==> !ok
  {
    hide Inv, IsSms, WireOf, Do;
    HeadId(s);
    var id := s.queue[0].id;
    StrayWrites(s, ok);
    assert WireOf(s.wire, id) == [];
    if ok {
      var x := Sent(id, 1, s.queue[0].cmds[1].data);
      WireOfOneMore(s.wire, x, id);
      assert WireOf(s.wire + [x], id)[0] == x;
    } else {
      assert s.wire + [] == s.wire;
    }
  }

  /** Only the text is written. */
  lemma StrayWrites(s: State, ok: bool)
    requires Inv(s) && SmsInv(s) && s.queue != [] && IsSms(s.made[s.queue[0].id])
    requires !s.queue[0].Current().Written()
    ensures |s.queue[0].cmds| > 1 && s.queue[0].cindex == 0
    ensures var t := s.queue[0];
      Do(s, Response(SMS_PROMPT, ok)).wire == s.wire + if ok then [Sent(t.id, 1, t.cmds[1].data)] else []
  {
    hide Inv, IsSms, WireOf, Prefix;
    InvGives(s);
    HeadId(s);
    HeadExpects(s);
    EvenLength(s);
    NextUnwritten(s);
    var t, r := s.queue[0], Advance(s, SMS_PROMPT);
    assert r == Respond(s, SMS_PROMPT);
    assert r.queue[0] == t.(cindex := 1) && r.wire == s.wire;
  }

  /** When the text cannot be written, the message ends there. */
  lemma StrayFails(s: State)
    requires Inv(s) && SmsInv(s) && s.queue != [] && IsSms(s.made[s.queue[0].id])
    requires !s.queue[0].Current().Written()
    ensures Inv(Do(s, Response(SMS_PROMPT, false))) && SmsInv(Do(s, Response(SMS_PROMPT, false)))
  {
    hide Inv, IsSms, WireOf, Prefix;
    InvGives(s);
    HeadId(s);
    HeadExpects(s);
    EvenLength(s);
    NextUnwritten(s);
    var r := Respond(s, SMS_PROMPT);
    assert r == Advance(s, SMS_PROMPT);
    AdvanceKeepsInv(s, SMS_PROMPT);
    HeadExpects(r);
    MismatchPops(r, r.queue[0].Current().res + 1);
    assert r.queue[1..] == s.queue[1..];
    var w := Write(r, false);
    assert w == Pop(s).(cmds := w.cmds);
    PopKeepsSms(s, w.cmds);
  }

  lemma StrayBreaks(s: State)
    requires Inv(s) && SmsInv(s) && s.queue != [] && IsSms(s.made[s.queue[0].id])
    requires !s.queue[0].Current().Written()
    ensures Inv(Do(s, Response(SMS_PROMPT, true))) && !SmsInv(Do(s, Response(SMS_PROMPT, true)))
  {
    hide Inv, IsSms, WireOf, Prefix, Do;
    InvGives(s);
    StepKeepsInv(s, Response(SMS_PROMPT, true));
    StrayPromptIff(s, true);
    StrayMade(s);
  }

  lemma StrayMade(s: State)
    requires Inv(s) && s.queue != [] && IsSms(s.made[s.queue[0].id])
    ensures Do(s, Response(SMS_PROMPT, true)).made == s.made
  {
    hide Inv, IsSms, Advance, Write;
    InvGives(s);
    HeadExpects(s);
    AdvanceWire(s, SMS_PROMPT);
    WriteMade(Respond(s, SMS_PROMPT), true);
  }

  /** A step keeps every message in order if and only if it is no stray prompt. */
  lemma StepSmsIff(s: State, step: Step)
    requires Inv(s) && SmsInv(s) && Enabled(s, step)
    ensures Inv(Do(s, step)) && (SmsInv(Do(s, step)) <==> !Stray(s, step))
  {
    hide Inv, SmsInv, IsSms, Do;
    InvGives(s);
    if step.Response? && step.res == SMS_PROMPT && !HeadReady(s) {
      if step.ok { StrayBreaks(s); } else { StrayFails(s); }
    } else {
      StepKeepsSms(s, step);
    }
  }

  ghost predicate NoneStray(s: State, steps: seq<Step>)
    requires Inv(s) && EnabledAll(s, steps)
    decreases |steps|
  {
    InvGives(s);
    steps == [] || (!Stray(s, steps[0]) && Inv(Do(s, steps[0])) && NoneStray(Do(s, steps[0]), steps[1..]))
  }

  /** Over every run without a stray prompt, what has been written of each message
      is a prefix of CMGS 1, text 1, CMGS 2, text 2, ... */
  lemma {:induction false} RunKeepsSms(s: State, steps: seq<Step>)
    requires Inv(s) && SmsInv(s) && EnabledAll(s, steps) && NoneStray(s, steps)
    ensures Inv(DoAll(s, steps)) && SmsInv(DoAll(s, steps))
    decreases |steps|
  {
    hide Inv, SmsInv, Do, Enabled, Stray;
    InvGives(s);
    if steps != [] {
      StepSmsIff(s, steps[0]);
      RunKeepsSms(Do(s, steps[0]), steps[1..]);
    }
  }

  /** partno and partcnt of at_response_cmgs. */
  function PartNumber(t: Task): nat {
    1 + t.cindex / 2
  }

  function PartCount(t: Task): nat {
    |t.cmds| / 2
  }

  /** While a text is in flight, the part number has reached the part count if and
      only if the whole message has been written. */
  lemma LastPartIff(s: State)
    requires Inv(s) && SmsInv(s) && s.queue != [] && IsSms(s.made[s.queue[0].id]) && s.queue[0].cindex % 2 == 1
    ensures var t := s.queue[0];
      PartNumber(t) <= PartCount(t)
      && (PartNumber(t) == PartCount(t) <==> |WireOf(s.wire, t.id)| == |t.cmds|)
  {
    HeadExpects(s);
  }

  /** The answers a modem gives to the rest of a message. */
  function Answers(parts: nat): seq<Step> {
    if parts == 0 then [] else [Response(SMS_PROMPT, true), Response(OK, true)] + Answers(parts - 1)
  }

  /** With these answers every command of the message goes out. */
  lemma {:induction false} Completes(s: State, parts: nat)
    requires Inv(s) && SmsInv(s) && s.queue != [] && IsSms(s.made[s.queue[0].id])
    requires s.queue[0].Current().Written() && s.queue[0].cindex + 2 * parts == |s.queue[0].cmds| && parts > 0
    ensures var d, id := DoAll(s, Answers(parts)), s.queue[0].id;
      id < |s.made| && NotQueued(d, id) && |WireOf(d.wire, id)| == |s.queue[0].cmds|
    decreases parts
  {
    hide Inv, SmsInv, IsSms, WireOf, Do, Answers;
    InvGives(s);
    HeadId(s);
    EvenLength(s);
    var id := s.queue[0].id;
    var p, o := Response(SMS_PROMPT, true), Response(OK, true);
    var s1 := Do(s, p);
    PromptStep(s);
    var s2 := Do(s1, o);
    OkStep(s1);
    AnswersUnfold(s, parts);
    if parts > 1 {
      Completes(s2, parts - 1);
    } else {
      AnswersDone(s2);
    }
  }

  lemma AnswersUnfold(s: State, parts: nat)
    requires AllWellFormed(s) && parts > 0
    ensures DoAll(s, Answers(parts)) ==
      DoAll(Do(Do(s, Response(SMS_PROMPT, true)), Response(OK, true)), Answers(parts - 1))
  {
    hide Do;
    var a := Answers(parts);
    assert a[1..][1..] == Answers(parts - 1);
  }

  lemma AnswersDone(s: State)
    requires AllWellFormed(s)
    ensures DoAll(s, Answers(0)) == s
  {
  }

  lemma PromptStep(s: State)
    requires Inv(s) && SmsInv(s) && s.queue != [] && IsSms(s.made[s.queue[0].id])
    requires s.queue[0].Current().Written() && s.queue[0].cindex % 2 == 0
    ensures var t, d := s.queue[0], Do(s, Response(SMS_PROMPT, true));
      && Inv(d) && SmsInv(d) && d.queue != [] && d.queue[0].id == t.id < |d.made| && IsSms(d.made[t.id])
      && d.queue[0].cindex == t.cindex + 1 && d.queue[0].Current().Written()
      && |d.queue[0].cmds| == |t.cmds|
  {
    hide Inv, SmsInv, IsSms;
    InvGives(s);
    HeadId(s);
    HeadExpects(s);
    EvenLength(s);
    NextUnwritten(s);
    StepKeepsSms(s, Response(SMS_PROMPT, true));
  }

  lemma OkStep(s: State)
    requires Inv(s) && SmsInv(s) && s.queue != [] && IsSms(s.made[s.queue[0].id])
    requires s.queue[0].Current().Written() && s.queue[0].cindex % 2 == 1
    ensures var t, d := s.queue[0], Do(s, Response(OK, true));
      && Inv(d) && SmsInv(d) && t.id < |d.made|
      && (t.cindex + 1 < |t.cmds| ==>
            && d.queue != [] && d.queue[0].id == t.id && IsSms(d.made[t.id])
            && d.queue[0].cindex == t.cindex + 1 && d.queue[0].Current().Written() && |d.queue[0].cmds| == |t.cmds|)
      && (t.cindex + 1 == |t.cmds| ==> NotQueued(d, t.id) && |WireOf(d.wire, t.id)| == |t.cmds|)
  {
    hide Inv, SmsInv, IsSms, WireOf;
    InvGives(s);
    HeadId(s);
    HeadExpects(s);
    NextUnwritten(s);
    StepKeepsSms(s, Response(OK, true));
    if s.queue[0].cindex + 1 == |s.queue[0].cmds| {
      WrittenSoFar(s);
      PopNotQueued(s, Advance(s, OK).cmds);
      WriteSilent(Advance(s, OK), true, s.queue[0].id);
    }
  }

  lemma WrittenSoFar(s: State)
    requires Inv(s) && SmsInv(s) && s.queue != [] && IsSms(s.made[s.queue[0].id]) && s.queue[0].Current().Written()
    ensures |WireOf(s.wire, s.queue[0].id)| == s.queue[0].cindex + 1
  {
  }
}
