/** The counters at_tasks and at_cmds of the command queue over every run. */
module AtQueueCounters {
  import opened AtQueueSpec
  import opened AtQueueRuns

  /** The commands still to be answered. */
  function Remaining(queue: seq<Task>): int {
    if queue == [] then 0 else |queue[0].cmds| - queue[0].cindex + Remaining(queue[1..])
  }

  /** How far the counter at_cmds is below the commands still to be answered. */
  function Drift(s: State): int {
    Remaining(s.queue) - s.cmds
  }

  /** What the head task is charged too much when it is charged now: an at-once
      task is charged all its commands by each result and each failed write, though
      it may stay. */
  function Excess(s: State): nat {
    if s.queue != [] && s.queue[0].atOnce then s.queue[0].cindex else 0
  }

  lemma {:induction false} RemainingConcat(a: seq<Task>, b: seq<Task>)
    ensures Remaining(a + b) == Remaining(a) + Remaining(b)
  {
    if a == [] {
      assert a + b == b;
    } else {
      assert (a + b)[1..] == a[1..] + b;
      RemainingConcat(a[1..], b);
    }
  }

  lemma AddKeepsDrift(s: State, cmds: seq<Cmd>, prio: bool, atOnce: bool, owner: nat, uid: int)
    ensures Drift(Add(s, cmds, prio, atOnce, owner, uid)) == Drift(s)
  {
    if cmds != [] {
      AddedQueue(s, cmds, prio, atOnce, owner, uid);
      var a, t := Add(s, cmds, prio, atOnce, owner, uid), Task(|s.made|, owner, uid, atOnce, cmds, 0);
      var p: nat :| p <= |s.queue| && a.queue == s.queue[..p] + [t] + s.queue[p..];
      RemainingConcat(s.queue[..p], [t]);
      RemainingConcat(s.queue[..p] + [t], s.queue[p..]);
      RemainingConcat(s.queue[..p], s.queue[p..]);
      assert s.queue == s.queue[..p] + s.queue[p..];
    }
  }

  lemma AdvanceDrift(s: State, res: int)
    requires AllWellFormed(s)
    ensures Drift(Advance(s, res)) == Drift(s) + Excess(s)
  {
  }

  /** The failed write of an at-once task. */
  predicate FailsAtOnce(s: State, ok: bool) {
    !ok && s.queue != [] && s.queue[0].atOnce && !AllWritten(s.queue[0].cmds)
  }

  lemma WriteDrift(s: State, ok: bool)
    requires AllWellFormed(s)
    ensures Drift(Write(s, ok)) == Drift(s) + if FailsAtOnce(s, ok) then Excess(s) else 0
  {
    hide Joined;
    if s.queue != [] { AdvanceDrift(s, s.queue[0].Current().res + 1); }
    hide Advance;
  }

  /** The response is one that the head's current command takes. */
  predicate Takes(s: State, res: int)
    requires s.queue != [] && s.queue[0].cmds != [] && s.queue[0].cindex <= |s.queue[0].cmds|
    requires !s.queue[0].atOnce ==> s.queue[0].cindex < |s.queue[0].cmds|
  {
    var t := s.queue[0];
    var c := t.cmds[if t.atOnce then 0 else t.cindex];
    || (res == OK && c.res == OK)
    || ((res == ERROR || res == CMS_ERROR || res == TIMEOUT) && (c.res == OK || c.res == SMS_PROMPT))
    || (res == SMS_PROMPT && (c.res == SMS_PROMPT || (c.code == Cnma && c.res == OK)))
  }

  /** The response charges the head task again. */
  ghost predicate Recharges(s: State, res: int)
    requires AllWellFormed(s)
  {
    s.queue != [] && Takes(s, res) && Excess(s) > 0
  }

  lemma RespondDriftIff(s: State, res: int)
    requires AllWellFormed(s)
    ensures Drift(Respond(s, res)) >= Drift(s)
    ensures Drift(Respond(s, res)) == Drift(s) <==> !Recharges(s, res)
  {
    hide Advance, Add, Write, Drift;
    if s.queue != [] {
      var t := s.queue[0];
      AdvanceDrift(s, res);
      AddKeepsDrift(s, [ESCAPE], true, false, t.owner, t.uid);
      var a := Add(s, [ESCAPE], true, false, t.owner, t.uid);
      WriteDrift(a, true);
      AdvanceDrift(Write(a, true), OK);
      SameExcess(s, t.owner, t.uid);
    }
  }

  lemma SameExcess(s: State, owner: nat, uid: int)
    requires AllWellFormed(s) && s.queue != []
    ensures Excess(Write(Add(s, [ESCAPE], true, false, owner, uid), true)) == Excess(s)
  {
    hide Joined;
  }

  /** The step charges an at-once task that has been charged before: by a response
      it takes, by the end of its time, or by a write that fails once more. */
  ghost predicate ChargesAgain(s: State, step: Step)
    requires AllWellFormed(s)
  {
    match step
    case Insert(cmds, prio, atOnce, owner, uid, ok) =>
      var a := Add(s, cmds, prio, atOnce, owner, uid); FailsAtOnce(a, ok) && Excess(a) > 0
    case Response(res, ok) =>
      Recharges(s, res) || (FailsAtOnce(Respond(s, res), ok) && Excess(Respond(s, res)) > 0)
    case Expire => HeadWritten(s) && Recharges(s, TIMEOUT)
    case Disconnect => false
  }

  /** A step keeps the counter right if and only if it charges nobody again. */
  lemma StepDriftIff(s: State, step: Step)
    requires AllWellFormed(s)
    ensures Drift(Do(s, step)) >= Drift(s)
    ensures Drift(Do(s, step)) == Drift(s) <==> !ChargesAgain(s, step)
  {
    hide Write, Respond, Add, Flush, Drift, Recharges, Excess, FailsAtOnce;
    match step
    case Insert(cmds, prio, atOnce, owner, uid, ok) =>
      AddKeepsDrift(s, cmds, prio, atOnce, owner, uid);
      WriteDrift(Add(s, cmds, prio, atOnce, owner, uid), ok);
    case Response(res, ok) =>
      RespondDriftIff(s, res);
      WriteDrift(Respond(s, res), ok);
    case Expire => RespondDriftIff(s, TIMEOUT);
    case Disconnect => FlushKeepsDrift(s);
  }

  ghost predicate NoneChargedAgain(s: State, steps: seq<Step>)
    requires AllWellFormed(s)
    decreases |steps|
  {
    steps == [] || (!ChargesAgain(s, steps[0]) && NoneChargedAgain(Do(s, steps[0]), steps[1..]))
  }

  /** Over every run, at-once tasks included, at_tasks is the length of the queue,
      and at_cmds is the number of commands still to be answered if and only if no
      at-once task was charged again. */
  lemma {:induction false} RunKeepsCountersIff(s: State, steps: seq<Step>)
    requires Inv(s) && EnabledAll(s, steps)
    ensures AllWellFormed(s) && DoAll(s, steps).tasks == |DoAll(s, steps).queue|
    ensures Drift(DoAll(s, steps)) >= Drift(s)
    ensures Drift(DoAll(s, steps)) == Drift(s) <==> NoneChargedAgain(s, steps)
    decreases |steps|
  {
    hide Do, Enabled, Inv, Drift, ChargesAgain;
    InvGives(s);
    if steps != [] {
      StepKeepsInv(s, steps[0]);
      StepDriftIff(s, steps[0]);
      RunKeepsCountersIff(Do(s, steps[0]), steps[1..]);
    }
  }

  lemma {:induction false} FlushKeepsDrift(s: State)
    ensures Drift(Flush(s)) == Drift(s)
    decreases |s.queue|
  {
    if s.queue != [] {
      FlushKeepsDrift(Pop(s));
    }
  }

  ghost predicate AllSequential(queue: seq<Task>) {
    forall i :: 0 <= i < |queue| ==> !queue[i].atOnce
  }

  /** Only at-once tasks are charged again. */
  lemma SequentialStep(s: State, step: Step)
    requires AllWellFormed(s) && AllSequential(s.queue) && (step.Insert? ==> !step.atOnce)
    ensures !ChargesAgain(s, step) && AllSequential(Do(s, step).queue)
  {
    hide Write, Respond, Add, Flush, AllSequential;
    match step
    case Insert(cmds, prio, atOnce, owner, uid, ok) =>
      SequentialAdd(s, cmds, prio, owner, uid);
      SequentialWrite(Add(s, cmds, prio, atOnce, owner, uid), ok);
    case Response(res, ok) =>
      SequentialHead(s);
      SequentialRespond(s, res);
      SequentialWrite(Respond(s, res), ok);
    case Expire =>
      SequentialHead(s);
      SequentialRespond(s, TIMEOUT);
    case Disconnect => SequentialHead(Flush(s));
  }

  lemma SequentialHead(s: State)
    ensures AllSequential(s.queue) ==> Excess(s) == 0
    ensures s.queue == [] ==> AllSequential(s.queue)
  {
  }

  lemma SequentialAdd(s: State, cmds: seq<Cmd>, prio: bool, owner: nat, uid: int)
    requires AllSequential(s.queue)
    ensures AllSequential(Add(s, cmds, prio, false, owner, uid).queue)
  {
  }

  lemma SequentialAdvance(s: State, res: int)
    requires AllWellFormed(s) && AllSequential(s.queue)
    ensures AllSequential(Advance(s, res).queue)
  {
  }

  lemma SequentialWrite(s: State, ok: bool)
    requires AllWellFormed(s) && AllSequential(s.queue)
    ensures AllSequential(Write(s, ok).queue) && Excess(s) == 0 && !FailsAtOnce(s, ok)
  {
    hide Joined;
    if s.queue != [] { SequentialAdvance(s, s.queue[0].Current().res + 1); }
    hide Advance;
  }

  lemma SequentialRespond(s: State, res: int)
    requires AllWellFormed(s) && AllSequential(s.queue)
    ensures AllSequential(Respond(s, res).queue)
  {
    hide Advance, Add, Write, AllSequential;
    SequentialAdvance(s, res);
    if s.queue != [] {
      var t := s.queue[0];
      var a := Add(s, [ESCAPE], true, false, t.owner, t.uid);
      SequentialAdd(s, [ESCAPE], true, t.owner, t.uid);
      SequentialWrite(a, true);
      SequentialAdvance(Write(a, true), OK);
    }
  }

  /** Over every run of sequential tasks at_tasks is the length of the queue and
      at_cmds the number of commands still to be answered. */
  lemma {:induction false} RunKeepsCounters(s: State, steps: seq<Step>)
    requires Inv(s) && EnabledAll(s, steps) && AllSequential(s.queue) && Drift(s) == 0
    requires forall i :: 0 <= i < |steps| && steps[i].Insert? ==> !steps[i].atOnce
    ensures var r := DoAll(s, steps); r.tasks == |r.queue| && r.cmds == Remaining(r.queue)
    decreases |steps|
  {
    hide Do, Enabled, Inv, AllSequential, ChargesAgain;
    InvGives(s);
    if steps != [] {
      StepKeepsInv(s, steps[0]);
      StepDriftIff(s, steps[0]);
      SequentialStep(s, steps[0]);
      RunKeepsCounters(Do(s, steps[0]), steps[1..]);
    }
  }
}
