/** When a command is counted as answered without having been written: the handlers
    compare a response with what the head's current command expects, whether or not
    that command has been written (src/at_response.c, src/at_queue.c). */
module AtQueueGaps {
  import opened Basics
  import opened AtQueueSpec
  import opened AtQueueRuns
  import opened AtQueueCounters

  ghost predicate SentOut(w: seq<Sent>, task: nat, index: nat) {
    exists a :: 0 <= a < |w| && w[a].task == task && w[a].index == index
  }

  /** No written command of a sequential task has an unwritten one before it. */
  ghost predicate Chain(made: seq<Task>, w: seq<Sent>) {
    forall a :: 0 <= a < |w| && w[a].task < |made| && !made[w[a].task].atOnce && w[a].index > 0 ==>
      SentOut(w, w[a].task, w[a].index - 1)
  }

  /** A released command has been written. */
  ghost predicate HeadSent(queue: seq<Task>, w: seq<Sent>)
    requires forall i :: 0 <= i < |queue| ==> queue[i].WellFormed()
  {
    queue != [] && !queue[0].atOnce && queue[0].Current().Written() ==> SentOut(w, queue[0].id, queue[0].cindex)
  }

  /** The command in front of the head's current one has been written. */
  ghost predicate HeadChain(queue: seq<Task>, w: seq<Sent>) {
    queue != [] && !queue[0].atOnce && queue[0].cindex > 0 ==> SentOut(w, queue[0].id, queue[0].cindex - 1)
  }

  /** All commands in front of a written or current one have been written. */
  ghost predicate NoGap(s: State)
    requires AllWellFormed(s)
  {
    Chain(s.made, s.wire) && HeadSent(s.queue, s.wire) && HeadChain(s.queue, s.wire)
  }

  /** The head task goes on to its next command. */
  ghost predicate GoesOn(s: State, res: int)
    requires AllWellFormed(s) && s.queue != []
  {
    var t := s.queue[0];
    !t.atOnce && t.cindex + 1 < |t.cmds| && res != TIMEOUT && (t.Current().res == res || t.Current().ignore)
  }

  /** A response is taken for a command that has not been written, and the task
      goes on; a prompt for +CNMA has it written first. */
  ghost predicate AnswersUnwritten(s: State, res: int)
    requires AllWellFormed(s)
  {
    && s.queue != [] && !s.queue[0].Current().Written() && Takes(s, res) && GoesOn(s, res)
    && (res == SMS_PROMPT ==> s.queue[0].Current().res == SMS_PROMPT)
  }

  /** A command that could not be written is passed over, because its failure is to
      be ignored. */
  ghost predicate PassesOver(s: State, ok: bool)
    requires AllWellFormed(s)
  {
    && !ok && s.queue != [] && !s.queue[0].Current().Written()
    && !s.queue[0].atOnce && s.queue[0].cindex + 1 < |s.queue[0].cmds| && s.queue[0].Current().ignore
    && s.queue[0].Current().res + 1 != TIMEOUT
  }

  // --------------------------------------------------------------- single moves

  lemma SentMore(w: seq<Sent>, x: Sent, task: nat, index: nat)
    ensures SentOut(w + [x], task, index) <==> SentOut(w, task, index) || (x.task == task && x.index == index)
  {
    var v := w + [x];
    if SentOut(w, task, index) {
      var a :| 0 <= a < |w| && w[a].task == task && w[a].index == index;
      assert v[a] == w[a];
    }
    if x.task == task && x.index == index { assert v[|w|] == x; }
  }

  lemma ChainMore(made: seq<Task>, w: seq<Sent>, x: Sent)
    requires Chain(made, w)
    requires x.task < |made|
    ensures Chain(made, w + [x]) <==> made[x.task].atOnce || x.index == 0 || SentOut(w, x.task, x.index - 1)
  {
    hide SentOut;
    var v := w + [x];
    forall task, index
      ensures SentOut(v, task, index) <==> SentOut(w, task, index) || (x.task == task && x.index == index)
    {
      SentMore(w, x, task, index);
    }
    assert v[|w|] == x;
    assert forall a :: 0 <= a < |w| ==> v[a] == w[a];
  }

  /** The head's current command has not been written unless it is released. */
  lemma CurrentUnsent(s: State)
    requires Inv(s) && s.queue != [] && !s.queue[0].atOnce && !s.queue[0].Current().Written()
    ensures s.queue[0].id < |s.made| && !s.made[s.queue[0].id].atOnce
    ensures !SentOut(s.wire, s.queue[0].id, s.queue[0].cindex)
    ensures s.queue[0].cindex + 1 < |s.queue[0].cmds| ==> !s.queue[0].cmds[s.queue[0].cindex + 1].Written()
  {
    assert Shape(s.queue[0], s.made[s.queue[0].id]);
  }

  /** Behind the head nothing has begun. */
  lemma NextHead(s: State)
    requires Inv(s) && |s.queue| > 1
    ensures s.queue[1].cindex == 0 && s.queue[1].id < |s.made|
    ensures !s.queue[1].atOnce ==> !s.queue[1].Current().Written()
  {
    assert s.queue[1].cmds == s.made[s.queue[1].id].cmds;
  }

  /** The queue without its head has no gap at the head. */
  lemma PopGap(s: State, n: int)
    requires Inv(s) && s.queue != [] && Chain(s.made, s.wire)
    ensures AllWellFormed(Pop(s).(cmds := n)) && NoGap(Pop(s).(cmds := n))
  {
    hide SentOut, Chain;
    if |s.queue| > 1 { NextHead(s); }
  }

  /** What at_queue_remove_cmd does to the queue: the head goes on, stays as an
      at-once task, or leaves. */
  lemma AdvanceMoves(s: State, res: int)
    requires AllWellFormed(s) && s.queue != []
    ensures Advance(s, res).wire == s.wire && Advance(s, res).made == s.made
    ensures GoesOn(s, res) ==>
      && Advance(s, res).queue == [s.queue[0].(cindex := s.queue[0].cindex + 1)] + s.queue[1..]
    ensures !GoesOn(s, res) ==>
      || (s.queue[0].atOnce && Advance(s, res).queue != [] && Advance(s, res).queue[0].atOnce)
      || Advance(s, res) == Pop(s).(cmds := Advance(s, res).cmds)
  {
  }

  /** An at-once task leaves with the result it expects, with any if errors are to be
      ignored, and with a timeout; it also leaves when it cannot be written, unless
      errors are to be ignored. Otherwise it stays at the head. */
  lemma AtOnceLeavesIff(s: State, res: int)
    requires Inv(s) && s.queue != [] && s.queue[0].atOnce
    ensures var t, r := s.queue[0], Advance(s, res);
      r.queue == s.queue[1..] <==> t.cmds[0].res == res || t.cmds[0].ignore || res == TIMEOUT
    ensures var t, r := s.queue[0], FailAtOnce(s); r.queue == s.queue[1..] <==> !t.cmds[0].ignore
  {
    hide RecordsOf, OneAtATimeIn, WireInOrderOf;
    assert |SetHead(s, s.queue[0]).queue| == |s.queue|;
  }

  /** The head goes on past its current command: that leaves a gap unless the
      command has been written. */
  lemma OnGap(s: State, r: State)
    requires Inv(s) && Chain(s.made, s.wire) && HeadSent(s.queue, s.wire)
    requires s.queue != [] && !s.queue[0].atOnce && s.queue[0].cindex + 1 < |s.queue[0].cmds|
    requires r.queue == [s.queue[0].(cindex := s.queue[0].cindex + 1)] + s.queue[1..]
    requires r.wire == s.wire && r.made == s.made && AllWellFormed(r)
    ensures NoGap(r) <==> s.queue[0].Current().Written()
    ensures Chain(r.made, r.wire) && !r.queue[0].Current().Written()
  {
    hide SentOut, Chain, RecordsOf, WireInOrderOf;
    assert !s.queue[0].cmds[s.queue[0].cindex + 1].Written();
    if !s.queue[0].Current().Written() { CurrentUnsent(s); }
  }

  lemma AdvanceGapIff(s: State, res: int)
    requires Inv(s) && Chain(s.made, s.wire) && HeadSent(s.queue, s.wire) && s.queue != []
    ensures NoGap(Advance(s, res)) <==> s.queue[0].Current().Written() || !GoesOn(s, res)
    ensures Chain(Advance(s, res).made, Advance(s, res).wire) && HeadSent(Advance(s, res).queue, Advance(s, res).wire)
  {
    hide SentOut, Chain, Inv, Advance;
    InvGives(s);
    var r := Advance(s, res);
    AdvanceMoves(s, res);
    if GoesOn(s, res) {
      OnGap(s, r);
    } else if r == Pop(s).(cmds := r.cmds) {
      PopGap(s, r.cmds);
    }
  }

  lemma AddGap(s: State, cmds: seq<Cmd>, prio: bool, atOnce: bool, owner: nat, uid: int)
    requires Inv(s) && NoGap(s) && forall i :: 0 <= i < |cmds| ==> !cmds[i].Written()
    ensures NoGap(Add(s, cmds, prio, atOnce, owner, uid))
  {
    hide SentOut;
    var a := Add(s, cmds, prio, atOnce, owner, uid);
    if cmds != [] {
      MoreMade(s.made, Task(|s.made|, owner, uid, atOnce, cmds, 0), s.wire);
      if s.queue != [] { AddKeepsInv(s, cmds, prio, atOnce, owner, uid); }
    }
  }

  /** The head's command is written: a gap is left if and only if the command in
      front of it has not been written. */
  lemma SendGapIff(s: State, r: State, data: seq<byte>)
    requires Inv(s) && Chain(s.made, s.wire) && s.queue != [] && r.queue != [] && AllWellFormed(r)
    requires var t, u := s.queue[0], r.queue[0];
      && u.id == t.id && u.atOnce == t.atOnce && u.cindex == t.cindex
      && r.made == s.made && r.wire == s.wire + [Sent(t.id, if t.atOnce then 0 else t.cindex, data)]
    ensures NoGap(r) <==> HeadChain(s.queue, s.wire)
  {
    hide SentOut, Chain, OneAtATimeIn, WireInOrderOf;
    RecordsRead(s);
    var t := s.queue[0];
    var x := r.wire[|s.wire|];
    ChainMore(s.made, s.wire, x);
    SentMore(s.wire, x, t.id, t.cindex);
    if t.cindex > 0 { SentMore(s.wire, x, t.id, t.cindex - 1); }
  }

  /** at_queue_run leaves a gap if and only if it passes over a command, or writes
      one behind a gap. */
  lemma WriteGapIff(s: State, ok: bool)
    requires Inv(s) && Chain(s.made, s.wire) && HeadSent(s.queue, s.wire)
    ensures NoGap(Write(s, ok)) <==> !PassesOver(s, ok) && (HeadChain(s.queue, s.wire) || !ok)
  {
    hide SentOut, Chain, Inv, Advance, Joined;
    InvGives(s);
    if s.queue != [] {
      var t := s.queue[0];
      var r := Write(s, ok);
      if t.atOnce {
        if AllWritten(t.cmds) {
        } else if ok {
          SendGapIff(s, r, Joined(t.cmds) + [13]);
        } else if !t.cmds[0].ignore {
          PopGap(s, r.cmds);
          assert r == Pop(s).(cmds := r.cmds);
        }
      } else if t.Current().Written() {
        ChainBefore(s);
      } else if ok {
        SendGapIff(s, r, t.Current().data);
      } else {
        AdvanceGapIff(s, t.Current().res + 1);
      }
    }
  }

  /** In front of a written command there is no gap. */
  lemma ChainBefore(s: State)
    requires Inv(s) && Chain(s.made, s.wire) && HeadSent(s.queue, s.wire)
    requires s.queue != [] && !s.queue[0].atOnce && s.queue[0].Current().Written()
    ensures HeadChain(s.queue, s.wire)
  {
    hide OneAtATimeIn, WireInOrderOf;
    RecordsRead(s);
    var t := s.queue[0];
    var a :| 0 <= a < |s.wire| && s.wire[a].task == t.id && s.wire[a].index == t.cindex;
  }

  lemma RespondGapIff(s: State, res: int)
    requires Inv(s) && NoGap(s)
    ensures var r := Respond(s, res); Chain(r.made, r.wire) && HeadSent(r.queue, r.wire)
    ensures HeadChain(Respond(s, res).queue, Respond(s, res).wire) <==> !AnswersUnwritten(s, res)
  {
    hide SentOut, Chain, Inv, Advance, Add, Write;
    InvGives(s);
    if s.queue != [] {
      AdvanceGapIff(s, res);
      var t := s.queue[0];
      if res == SMS_PROMPT && t.Current().code == Cnma && t.Current().res == OK {
        PromptGap(s);
      }
    }
  }

  /** A prompt for +CNMA: the escape is queued and the queue run first. */
  lemma PromptGap(s: State)
    requires Inv(s) && NoGap(s) && s.queue != []
    ensures NoGap(Advance(Write(Add(s, [ESCAPE], true, false, s.queue[0].owner, s.queue[0].uid), true), OK))
  {
    hide SentOut, Chain, Inv, Advance, Add, Write;
    var e := [ESCAPE];
    assert forall i :: 0 <= i < |e| ==> !e[i].Written();
    var a := Add(s, e, true, false, s.queue[0].owner, s.queue[0].uid);
    AddGap(s, e, true, false, s.queue[0].owner, s.queue[0].uid);
    AddKeepsInv(s, e, true, false, s.queue[0].owner, s.queue[0].uid);
    WriteGapIff(a, true);
    WriteKeepsInv(a, true);
    AddedQueue(s, e, true, false, s.queue[0].owner, s.queue[0].uid);
    InvGives(a);
    NowWritten(a);
    InvGives(Write(a, true));
    AdvanceGapIff(Write(a, true), OK);
  }

  lemma NowWritten(s: State)
    requires AllWellFormed(s) && s.queue != []
    ensures Write(s, true).queue != [] && AllWellFormed(Write(s, true)) && Write(s, true).queue[0].Current().Written()
  {
    hide Joined;
  }

  /** The command of this index is still ahead of the head task. */
  predicate Waiting(s: State, task: nat, index: nat) {
    s.queue != [] && s.queue[0].id == task && s.queue[0].cindex <= index
  }

  /** A command counts as answered without having been written if and only if it is
      unwritten at the head and expects a result that the response stands for. */
  lemma AnsweredUnsentIff(s: State, res: int)
    requires Inv(s) && NoGap(s) && s.queue != [] && !s.queue[0].atOnce
    ensures var t, r := s.queue[0], Respond(s, res);
      !Waiting(r, t.id, t.cindex) && !SentOut(r.wire, t.id, t.cindex) <==>
      !t.Current().Written() && Takes(s, res) && (res == SMS_PROMPT ==> t.Current().res == SMS_PROMPT)
  {
    hide SentOut, Chain, Inv, Advance, Add, Write;
    InvGives(s);
    var t := s.queue[0];
    if !t.Current().Written() { CurrentUnsent(s); }
    LeavesBehind(s, res);
    if res == SMS_PROMPT && t.Current().code == Cnma && t.Current().res == OK {
      PromptSends(s);
    }
  }

  lemma LeavesBehind(s: State, res: int)
    requires Inv(s) && s.queue != [] && !s.queue[0].atOnce
    ensures AllWellFormed(s) && Advance(s, res).wire == s.wire
    ensures !Waiting(Advance(s, res), s.queue[0].id, s.queue[0].cindex)
  {
    hide OneAtATimeIn, WireInOrderOf;
    AdvanceMoves(s, res);
    RecordsRead(s);
    hide Advance;
  }

  lemma PromptSends(s: State)
    requires Inv(s) && NoGap(s) && s.queue != [] && !s.queue[0].atOnce
    ensures var t := s.queue[0];
      SentOut(Advance(Write(Add(s, [ESCAPE], true, false, t.owner, t.uid), true), OK).wire, t.id, t.cindex)
  {
    hide Inv, Advance;
    InvGives(s);
    var t := s.queue[0];
    var a := Add(s, [ESCAPE], true, false, t.owner, t.uid);
    assert a.queue[0] == t;
    SentMore(s.wire, Sent(t.id, t.cindex, t.Current().data), t.id, t.cindex);
    AdvanceMoves(Write(a, true), OK);
  }

  // --------------------------------------------------------------- steps and runs

  /** The step passes over a command that has not been written, and the task goes
      on behind it: the next command is written after a response that was taken for
      this one, or this one could not be written and its failure is to be ignored. */
  ghost predicate Skips(s: State, step: Step)
    requires AllWellFormed(s)
  {
    match step
    case Insert(cmds, prio, atOnce, owner, uid, ok) => PassesOver(Add(s, cmds, prio, atOnce, owner, uid), ok)
    case Response(res, ok) => PassesOver(Respond(s, res), ok) || (AnswersUnwritten(s, res) && ok)
    case Expire => false
    case Disconnect => false
  }

  lemma StepGapIff(s: State, step: Step)
    requires Inv(s) && NoGap(s) && Enabled(s, step)
    ensures NoGap(Do(s, step)) <==> !Skips(s, step)
  {
    hide SentOut, Chain, Inv, Respond, Add, Write, Flush, PassesOver;
    InvGives(s);
    match step
    case Insert(cmds, prio, atOnce, owner, uid, ok) =>
      AddKeepsInv(s, cmds, prio, atOnce, owner, uid);
      AddGap(s, cmds, prio, atOnce, owner, uid);
      WriteGapIff(Add(s, cmds, prio, atOnce, owner, uid), ok);
    case Response(res, ok) =>
      RespondKeepsInv(s, res);
      RespondGapIff(s, res);
      WriteGapIff(Respond(s, res), ok);
    case Expire => RespondGapIff(s, TIMEOUT);
    case Disconnect =>
  }

  ghost predicate NoneSkipped(s: State, steps: seq<Step>)
    requires AllWellFormed(s)
    decreases |steps|
  {
    steps == [] || (!Skips(s, steps[0]) && NoneSkipped(Do(s, steps[0]), steps[1..]))
  }

  /** Over every run in which no step passes over an unwritten command, what has
      been written of a sequential task is always all its commands up to some one. */
  lemma {:induction false} RunKeepsNoGap(s: State, steps: seq<Step>)
    requires Inv(s) && NoGap(s) && EnabledAll(s, steps) && NoneSkipped(s, steps)
    ensures NoGap(DoAll(s, steps))
    decreases |steps|
  {
    hide Do, Enabled, Inv, NoGap, Skips;
    InvGives(s);
    if steps != [] {
      StepKeepsInv(s, steps[0]);
      StepGapIff(s, steps[0]);
      RunKeepsNoGap(Do(s, steps[0]), steps[1..]);
    }
  }

  /** Two tasks are queued and the command of the first expires, which does not run
      the queue. */
  function Late(task: Cmd, first: Cmd, second: Cmd): seq<Step> {
    [Insert([task], false, false, 0, 0, true), Insert([first, second], false, false, 0, 0, true), Expire]
  }

  lemma DoAllMore(s: State, step: Step, steps: seq<Step>)
    requires AllWellFormed(s)
    ensures DoAll(s, [step] + steps) == DoAll(Do(s, step), steps)
  {
    assert ([step] + steps)[1..] == steps;
  }

  lemma LateState(task: Cmd, first: Cmd, second: Cmd)
    requires !task.Written() && !first.Written() && !second.Written() && task.res == OK
    ensures var s := DoAll(START, Late(task, first, second));
      && s.queue == [Task(1, 0, 0, false, [first, second], 0)] && s.wire == [Sent(0, 0, task.data)]
      && s.made == [Task(0, 0, 0, false, [task], 0), Task(1, 0, 0, false, [first, second], 0)]
  {
    var q := Late(task, first, second);
    var s1 := Do(START, q[0]);
    assert [task][0 := task.Release()] == [task.Release()];
    assert Add(START, [task], false, false, 0, 0).queue == [Task(0, 0, 0, false, [task], 0)];
    assert s1.queue == [Task(0, 0, 0, false, [task.Release()], 0)];
    var s2 := Do(s1, q[1]);
    assert s2.queue == [Task(0, 0, 0, false, [task.Release()], 0), Task(1, 0, 0, false, [first, second], 0)];
    var s3 := Do(s2, Expire);
    assert s3.queue == [Task(1, 0, 0, false, [first, second], 0)];
    hide Do;
    assert q == [q[0]] + ([q[1]] + ([Expire] + []));
    DoAllMore(START, q[0], [q[1]] + ([Expire] + []));
    DoAllMore(s1, q[1], [Expire] + []);
    DoAllMore(s2, Expire, []);
  }

  /** The answer of the expired command comes late: it is taken for the first command
      of the next task, of which only the second command is ever written. */
  lemma LateAnswer(task: Cmd, first: Cmd, second: Cmd)
    requires !task.Written() && !first.Written() && !second.Written() && task.res == OK && first.res == OK
    ensures var s := DoAll(START, Late(task, first, second));
      && Skips(s, Response(OK, true))
      && Do(s, Response(OK, true)).wire == [Sent(0, 0, task.data), Sent(1, 1, second.data)]
  {
    hide DoAll;
    LateState(task, first, second);
    var s := DoAll(START, Late(task, first, second));
    assert Respond(s, OK).queue == [Task(1, 0, 0, false, [first, second], 1)];
  }
}
