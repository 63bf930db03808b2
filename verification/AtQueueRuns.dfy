/** What every run of the command queue keeps. */
module AtQueueRuns {
  import opened AtQueueSpec

  /** A queued task is the one that was enqueued, but for released data. */
  ghost predicate Shape(t: Task, m: Task) {
    && t.atOnce == m.atOnce && |t.cmds| == |m.cmds|
    && forall j :: 0 <= j < |t.cmds| ==> t.cmds[j] == m.cmds[j] || t.cmds[j] == m.cmds[j].Release()
  }

  ghost predicate RecordsOf(queue: seq<Task>, made: seq<Task>) {
    && (forall k :: 0 <= k < |made| ==>
          made[k].id == k && forall j :: 0 <= j < |made[k].cmds| ==> !made[k].cmds[j].Written())
    && (forall i :: 0 <= i < |queue| ==> queue[i].id < |made| && Shape(queue[i], made[queue[i].id]))
    && (forall i, j :: 0 <= i < j < |queue| ==> queue[i].id != queue[j].id)
  }

  ghost predicate Records(s: State) {
    RecordsOf(s.queue, s.made)
  }

  /** Only the head task has begun, and none of its later commands: at most one
      written command is unanswered, the head's current one. */
  ghost predicate OneAtATimeIn(queue: seq<Task>, made: seq<Task>)
    requires RecordsOf(queue, made)
  {
    && (forall i :: 0 < i < |queue| ==> queue[i].cindex == 0 && queue[i].cmds == made[queue[i].id].cmds)
    && (queue != [] && !queue[0].atOnce ==>
          forall j :: queue[0].cindex < j < |queue[0].cmds| ==> !queue[0].cmds[j].Written())
  }

  ghost predicate OneAtATime(s: State)
    requires Records(s)
  {
    OneAtATimeIn(s.queue, s.made)
  }

  /** The writes of a task stand together, and those of a sequential task are its
      commands in order, each at most once, with the data they were enqueued with. */
  ghost predicate WritesInOrder(made: seq<Task>, w: seq<Sent>) {
    && (forall a :: 0 <= a < |w| ==> w[a].task < |made|)
    && (forall a :: 0 <= a < |w| && !made[w[a].task].atOnce ==>
          w[a].index < |made[w[a].task].cmds| && w[a].data == made[w[a].task].cmds[w[a].index].data)
    && (forall a, b :: 0 <= a < b < |w| && w[a].task == w[b].task ==> w[b - 1].task == w[b].task)
    && (forall a, b :: 0 <= a < b < |w| && w[a].task == w[b].task && !made[w[a].task].atOnce ==>
          w[a].index < w[b].index)
  }

  /** Of the queued tasks only the head has been written, and nothing after it;
      of a sequential head, no command beyond the current one. */
  ghost predicate OnlyHeadWritten(queue: seq<Task>, w: seq<Sent>)
    requires forall i :: 0 <= i < |queue| ==> queue[i].WellFormed()
  {
    && (forall a, i :: 0 <= a < |w| && 0 < i < |queue| ==> w[a].task != queue[i].id)
    && (queue != [] ==> forall a :: 0 <= a < |w| && w[a].task == queue[0].id ==>
          && w[|w| - 1].task == queue[0].id
          && (!queue[0].atOnce ==>
                w[a].index < queue[0].cindex || (w[a].index == queue[0].cindex && queue[0].Current().Written())))
  }

  ghost predicate WireInOrderOf(queue: seq<Task>, made: seq<Task>, w: seq<Sent>)
    requires RecordsOf(queue, made) && forall i :: 0 <= i < |queue| ==> queue[i].WellFormed()
  {
    WritesInOrder(made, w) && OnlyHeadWritten(queue, w)
  }

  ghost predicate WireInOrder(s: State)
    requires Records(s) && AllWellFormed(s)
  {
    WireInOrderOf(s.queue, s.made, s.wire)
  }

  ghost predicate Inv(s: State) {
    && AllWellFormed(s)
    && s.tasks == |s.queue|
    && Records(s) && OneAtATime(s) && WireInOrder(s)
  }

  lemma PopKeepsInv(s: State)
    requires AllWellFormed(s) && s.tasks == |s.queue| && s.queue != []
    requires Records(s) && OneAtATime(s) && WireInOrder(s)
    ensures Inv(Pop(s))
  {
    hide Shape;
  }

  /** None of this is about the counter at_cmds. */
  lemma InvIgnoresCmds(s: State, n: int)
    requires Inv(s)
    ensures Inv(s.(cmds := n))
  {
    hide RecordsOf, OneAtATimeIn, WireInOrderOf;
  }

  /** Where a new task goes. */
  lemma AddedQueue(s: State, cmds: seq<Cmd>, prio: bool, atOnce: bool, owner: nat, uid: int)
    requires cmds != []
    ensures var a, t := Add(s, cmds, prio, atOnce, owner, uid), Task(|s.made|, owner, uid, atOnce, cmds, 0);
      && a.made == s.made + [t] && a.wire == s.wire && |a.queue| == |s.queue| + 1
      && exists p :: (if s.queue == [] then p == 0 else 0 < p <= |s.queue|)
           && (prio && s.queue != [] ==> p == 1) && (!prio ==> p == |s.queue|)
           && a.queue == s.queue[..p] + [t] + s.queue[p..]
  {
    var a, t := Add(s, cmds, prio, atOnce, owner, uid), Task(|s.made|, owner, uid, atOnce, cmds, 0);
    var p := if s.queue == [] then 0 else if prio then 1 else |s.queue|;
    assert a.queue == s.queue[..p] + [t] + s.queue[p..];
  }

  /** Priority or not, the head task stays the head task. */
  lemma AddKeepsInv(s: State, cmds: seq<Cmd>, prio: bool, atOnce: bool, owner: nat, uid: int)
    requires Inv(s) && forall i :: 0 <= i < |cmds| ==> !cmds[i].Written()
    ensures Inv(Add(s, cmds, prio, atOnce, owner, uid))
    ensures s.queue != [] ==> Add(s, cmds, prio, atOnce, owner, uid).queue[0] == s.queue[0]
  {
    if cmds != [] {
      var a, t := Add(s, cmds, prio, atOnce, owner, uid), Task(|s.made|, owner, uid, atOnce, cmds, 0);
      AddedQueue(s, cmds, prio, atOnce, owner, uid);
      var p: nat :|
        (if s.queue == [] then p == 0 else 0 < p <= |s.queue|) && a.queue == s.queue[..p] + [t] + s.queue[p..];
      hide Add;
      InsertKeepsRecords(s, a, t, p);
      InsertKeepsWire(s, a, t, p);
    }
  }

  /** `a` is `s` with the new task t at place p. */
  ghost predicate Inserted(s: State, a: State, t: Task, p: nat) {
    && p <= |s.queue| && (s.queue != [] ==> p > 0)
    && a.queue == s.queue[..p] + [t] + s.queue[p..]
    && a.made == s.made + [t] && a.wire == s.wire
    && t.id == |s.made| && t.cindex == 0 && t.cmds != [] && forall j :: 0 <= j < |t.cmds| ==> !t.cmds[j].Written()
  }

  lemma InsertedAt(s: State, a: State, t: Task, p: nat)
    requires Inserted(s, a, t, p)
    ensures |a.queue| == |s.queue| + 1 && |a.made| == |s.made| + 1
    ensures forall i :: 0 <= i < |a.queue| ==>
      a.queue[i] == if i < p then s.queue[i] else if i == p then t else s.queue[i - 1]
    ensures forall k :: 0 <= k < |a.made| ==> a.made[k] == if k < |s.made| then s.made[k] else t
  {
  }

  lemma InsertKeepsRecords(s: State, a: State, t: Task, p: nat)
    requires Inserted(s, a, t, p) && Records(s) && OneAtATime(s)
    ensures Records(a) && OneAtATime(a)
  {
    hide Shape;
    InsertedAt(s, a, t, p);
    SameShape(t);
    InsertKeepsOrder(s, a, t, p);
  }

  lemma SameShape(t: Task)
    ensures Shape(t, t)
  {
  }

  /** What has not begun stays so, and the new task has not. */
  lemma InsertKeepsOrder(s: State, a: State, t: Task, p: nat)
    requires Inserted(s, a, t, p) && Records(s) && OneAtATime(s)
    ensures Records(a) ==> OneAtATime(a)
  {
    hide Shape;
    InsertedAt(s, a, t, p);
    forall i | 0 < i < |a.queue|
      ensures a.queue[i].id < |a.made| && a.queue[i].cindex == 0 && a.queue[i].cmds == a.made[a.queue[i].id].cmds
    {
      if i != p {
        var k := if i < p then i else i - 1;
        assert a.queue[i] == s.queue[k] && s.queue[k].id < |s.made|;
      }
    }
    if s.queue != [] { assert a.queue[0] == s.queue[0]; } else { assert a.queue[0] == t; }
  }

  lemma InsertKeepsWire(s: State, a: State, t: Task, p: nat)
    requires Inserted(s, a, t, p) && AllWellFormed(s) && AllWellFormed(a)
    requires Records(s) && Records(a) && WireInOrder(s)
    ensures WireInOrder(a)
  {
    hide RecordsOf, OneAtATimeIn;
    InsertedAt(s, a, t, p);
    RecordsRead(s);
    RecordsRead(a);
    MoreMade(s.made, t, s.wire);
    hide WritesInOrder;
  }

  lemma MoreMade(made: seq<Task>, t: Task, w: seq<Sent>)
    requires WritesInOrder(made, w)
    ensures WritesInOrder(made + [t], w)
    ensures forall a :: 0 <= a < |w| ==> w[a].task < |made|
  {
  }

  lemma RecordsRead(s: State)
    requires Records(s)
    ensures forall i :: 0 <= i < |s.queue| ==> s.queue[i].id < |s.made|
    ensures forall i :: 0 <= i < |s.queue| ==> s.queue[i].atOnce == s.made[s.queue[i].id].atOnce
    ensures forall i :: 0 <= i < |s.queue| ==> |s.queue[i].cmds| == |s.made[s.queue[i].id].cmds|
    ensures forall i, j :: 0 <= i < j < |s.queue| ==> s.queue[i].id != s.queue[j].id
  {
  }

  /** The head moves on, or its data is released. */
  ghost predicate HeadMoves(t: Task, u: Task) {
    && u.id == t.id && u.atOnce == t.atOnce && t.cindex <= u.cindex && |u.cmds| == |t.cmds|
    && (forall j :: 0 <= j < |t.cmds| ==> u.cmds[j] == t.cmds[j] || u.cmds[j] == t.cmds[j].Release())
    && (!t.atOnce ==> forall j :: u.cindex < j < |t.cmds| ==> u.cmds[j] == t.cmds[j])
    && (u.cindex == t.cindex && !t.atOnce && t.WellFormed() && t.Current().Written() ==>
          u.WellFormed() && u.Current().Written())
  }

  lemma MoveKeepsRecords(s: State, u: Task)
    requires Records(s) && OneAtATime(s) && s.queue != [] && HeadMoves(s.queue[0], u)
    ensures Records(SetHead(s, u)) && OneAtATime(SetHead(s, u))
  {
    var r := SetHead(s, u);
    forall i | 0 < i < |r.queue| ensures r.queue[i] == s.queue[i] {}
    var m := s.made[u.id];
    assert Shape(u, m);
  }

  lemma MoveKeepsWire(s: State, u: Task)
    requires Inv(s) && s.queue != [] && HeadMoves(s.queue[0], u) && u.WellFormed()
    requires Records(SetHead(s, u))
    ensures AllWellFormed(SetHead(s, u)) && WireInOrder(SetHead(s, u))
  {
    hide RecordsOf, OneAtATimeIn, Shape;
    var r := SetHead(s, u);
    forall i | 0 < i < |r.queue| ensures r.queue[i] == s.queue[i] {}
    RecordsRead(s);
  }

  lemma MoveKeepsInv(s: State, u: Task)
    requires Inv(s) && s.queue != [] && HeadMoves(s.queue[0], u) && u.WellFormed()
    ensures Inv(SetHead(s, u))
  {
    hide RecordsOf, OneAtATimeIn, WireInOrderOf, HeadMoves;
    MoveKeepsRecords(s, u);
    MoveKeepsWire(s, u);
  }

  lemma AdvanceKeepsInv(s: State, res: int)
    requires Inv(s)
    ensures Inv(Advance(s, res))
  {
    hide RecordsOf, OneAtATimeIn, WireInOrderOf;
    if s.queue != [] {
      var t, r := s.queue[0], Advance(s, res);
      if |r.queue| == |s.queue| {
        var u := if t.atOnce then t.(cindex := |t.cmds|) else t.(cindex := t.cindex + 1);
        MoveKeepsInv(s, u);
        InvIgnoresCmds(SetHead(s, u), r.cmds);
      } else {
        PopKeepsInv(s);
        InvIgnoresCmds(Pop(s), r.cmds);
        assert r == Pop(s).(cmds := r.cmds);
      }
    }
  }

  /** A write of the head task follows all earlier writes. */
  lemma AppendKeepsWire(s: State, u: Task, x: Sent)
    requires Inv(s) && s.queue != [] && HeadMoves(s.queue[0], u) && u.WellFormed() && u.cindex == s.queue[0].cindex
    requires RecordsOf([u] + s.queue[1..], s.made)
    requires x.task == u.id
    requires !u.atOnce ==>
      && x.index == u.cindex && !s.queue[0].Current().Written() && u.Current().Written()
      && x.data == s.made[u.id].cmds[u.cindex].data
    ensures forall i :: 0 <= i < |[u] + s.queue[1..]| ==> ([u] + s.queue[1..])[i].WellFormed()
    ensures WireInOrderOf([u] + s.queue[1..], s.made, s.wire + [x])
  {
    hide RecordsOf, OneAtATimeIn, Shape, WritesInOrder, HeadMoves;
    RecordsRead(s);
    HeadStays(s.queue[0], u);
    AppendInOrder(s, u.id, x);
    AppendOnlyHead(s, u, x);
  }

  lemma HeadStays(t: Task, u: Task)
    requires HeadMoves(t, u)
    ensures u.id == t.id && u.atOnce == t.atOnce && |u.cmds| == |t.cmds|
  {
  }

  lemma AppendInOrder(s: State, id: nat, x: Sent)
    requires s.queue != [] && AllWellFormed(s) && id == s.queue[0].id == x.task < |s.made|
    requires WritesInOrder(s.made, s.wire) && OnlyHeadWritten(s.queue, s.wire)
    requires s.queue[0].atOnce == s.made[id].atOnce
    requires !s.queue[0].atOnce ==>
      && x.index == s.queue[0].cindex < |s.made[id].cmds| && !s.queue[0].Current().Written()
      && x.data == s.made[id].cmds[x.index].data
    ensures WritesInOrder(s.made, s.wire + [x])
  {
    forall a | 0 <= a < |s.wire| && s.wire[a].task == id
      ensures s.wire[|s.wire| - 1].task == id && (!s.made[id].atOnce ==> s.wire[a].index < x.index)
    {}
    hide OnlyHeadWritten;
    OneMoreWrite(s.made, s.wire, x);
  }

  lemma OneMoreWrite(made: seq<Task>, v: seq<Sent>, x: Sent)
    requires WritesInOrder(made, v) && x.task < |made|
    requires !made[x.task].atOnce ==> x.index < |made[x.task].cmds| && x.data == made[x.task].cmds[x.index].data
    requires forall a :: 0 <= a < |v| && v[a].task == x.task ==>
      v[|v| - 1].task == x.task && (!made[x.task].atOnce ==> v[a].index < x.index)
    ensures WritesInOrder(made, v + [x])
  {
    var w := v + [x];
    assert forall a :: 0 <= a < |w| ==> w[a] == if a < |v| then v[a] else x;
    forall a, b | 0 <= a < b < |w| && w[a].task == w[b].task
      ensures w[b - 1].task == w[b].task && (!made[w[a].task].atOnce ==> w[a].index < w[b].index)
    {
      if b < |v| {
        TwoWrites(made, v, a, b);
      }
    }
  }

  lemma TwoWrites(made: seq<Task>, w: seq<Sent>, a: nat, b: nat)
    requires WritesInOrder(made, w) && a < b < |w| && w[a].task == w[b].task
    ensures w[b - 1].task == w[b].task && w[a].task < |made|
    ensures !made[w[a].task].atOnce ==> w[a].index < w[b].index
  {
  }

  /** Between two writes of a task there is no write of another. */
  lemma {:induction false} WritesTogether(made: seq<Task>, w: seq<Sent>, a: nat, c: nat, b: nat)
    requires WritesInOrder(made, w) && a < c < b < |w| && w[a].task == w[b].task
    ensures w[c].task == w[a].task
    decreases b - c
  {
    if c < b - 1 {
      WritesTogether(made, w, a, c, b - 1);
    }
  }

  lemma AppendOnlyHead(s: State, u: Task, x: Sent)
    requires s.queue != [] && AllWellFormed(s) && OnlyHeadWritten(s.queue, s.wire)
    requires u.id == s.queue[0].id == x.task && u.atOnce == s.queue[0].atOnce && u.WellFormed()
    requires u.cindex == s.queue[0].cindex
    requires forall i :: 0 < i < |s.queue| ==> s.queue[i].id != u.id
    requires !u.atOnce ==> x.index == u.cindex && !s.queue[0].Current().Written() && u.Current().Written()
    ensures forall i :: 0 <= i < |[u] + s.queue[1..]| ==> ([u] + s.queue[1..])[i].WellFormed()
    ensures OnlyHeadWritten([u] + s.queue[1..], s.wire + [x])
  {
    var q, w := [u] + s.queue[1..], s.wire + [x];
    forall i | 0 < i < |q| ensures q[i] == s.queue[i] {}
    forall a | 0 <= a < |s.wire| ensures w[a] == s.wire[a] {}
  }

  lemma WriteKeepsInv(s: State, ok: bool)
    requires Inv(s)
    ensures Inv(Write(s, ok))
  {
    hide RecordsOf, OneAtATimeIn, WireInOrderOf, Advance, FailAtOnce;
    if s.queue != [] {
      var t := s.queue[0];
      if t.atOnce {
        if !AllWritten(t.cmds) {
          if ok {
            var u := t.(cmds := ReleaseAll(t.cmds));
            MoveKeepsRecords(s, u);
            AppendKeepsWire(s, u, Sent(t.id, 0, Joined(t.cmds) + [13]));
          } else {
            FailKeepsInv(s);
          }
        }
      } else if !t.Current().Written() {
        if ok {
          var c := t.Current();
          var u := t.(cmds := t.cmds[t.cindex := c.Release()]);
          HeadData(s);
          MoveKeepsRecords(s, u);
          AppendKeepsWire(s, u, Sent(t.id, t.cindex, c.data));
        } else {
          AdvanceKeepsInv(s, t.Current().res + 1);
        }
      }
    }
  }

  /** An unwritten command still has the data it was enqueued with. */
  lemma HeadData(s: State)
    requires Inv(s) && s.queue != [] && !s.queue[0].atOnce && !s.queue[0].Current().Written()
    ensures s.queue[0].id < |s.made| && s.queue[0].cindex < |s.made[s.queue[0].id].cmds|
    ensures s.queue[0].Current() == s.made[s.queue[0].id].cmds[s.queue[0].cindex]
  {
    assert Shape(s.queue[0], s.made[s.queue[0].id]);
  }

  lemma FailKeepsInv(s: State)
    requires Inv(s) && s.queue != [] && s.queue[0].atOnce
    ensures Inv(FailAtOnce(s))
  {
    hide RecordsOf, OneAtATimeIn, WireInOrderOf;
    var t, r := s.queue[0], FailAtOnce(s);
    if t.cmds[0].ignore {
      var u := t.(cindex := |t.cmds|);
      MoveKeepsInv(s, u);
      InvIgnoresCmds(SetHead(s, u), r.cmds);
    } else {
      PopKeepsInv(s);
      InvIgnoresCmds(Pop(s), r.cmds);
      assert r == Pop(s).(cmds := r.cmds);
    }
  }

  lemma RespondKeepsInv(s: State, res: int)
    requires Inv(s)
    ensures Inv(Respond(s, res))
  {
    hide Inv, Advance, Add, Write;
    if s.queue != [] {
      var t := s.queue[0];
      AdvanceKeepsInv(s, res);
      var e := [ESCAPE];
      assert forall i :: 0 <= i < |e| ==> !e[i].Written();
      AddKeepsInv(s, e, true, false, t.owner, t.uid);
      InvGives(Add(s, e, true, false, t.owner, t.uid));
      WriteKeepsInv(Add(s, e, true, false, t.owner, t.uid), true);
      AdvanceKeepsInv(Write(Add(s, e, true, false, t.owner, t.uid), true), OK);
    }
  }

  lemma {:induction false} FlushKeepsInv(s: State)
    requires Inv(s)
    ensures Inv(Flush(s))
    decreases |s.queue|
  {
    hide Inv, Pop;
    if s.queue != [] {
      InvGives(s);
      PopKeepsInv(s);
      PopShorter(s);
      FlushKeepsInv(Pop(s));
    }
  }

  lemma PopShorter(s: State)
    requires s.queue != []
    ensures |Pop(s).queue| < |s.queue|
  {
  }

  lemma InvGives(s: State)
    requires Inv(s)
    ensures AllWellFormed(s) && s.tasks == |s.queue| && Records(s) && OneAtATime(s) && WireInOrder(s)
  {
  }

  lemma StepKeepsInv(s: State, step: Step)
    requires Inv(s) && Enabled(s, step)
    ensures Inv(Do(s, step))
  {
    hide Inv, Write, Respond, Add, Flush, HeadWritten;
    InvGives(s);
    match step
    case Insert(cmds, prio, atOnce, owner, uid, ok) =>
      AddKeepsInv(s, cmds, prio, atOnce, owner, uid);
      WriteKeepsInv(Add(s, cmds, prio, atOnce, owner, uid), ok);
    case Response(res, ok) =>
      RespondKeepsInv(s, res);
      WriteKeepsInv(Respond(s, res), ok);
    case Expire => RespondKeepsInv(s, TIMEOUT);
    case Disconnect => FlushKeepsInv(s);
  }

  /** Every run: the queue and the wire stay in order. */
  lemma {:induction false} RunKeepsInv(s: State, steps: seq<Step>)
    requires Inv(s) && EnabledAll(s, steps)
    ensures Inv(DoAll(s, steps))
    decreases |steps|
  {
    hide Inv, Do, Enabled;
    InvGives(s);
    if steps != [] {
      StepKeepsInv(s, steps[0]);
      RunKeepsInv(Do(s, steps[0]), steps[1..]);
    }
  }

  /** At most one written command is unanswered. */
  lemma OneUnanswered(s: State, i: nat, j: nat)
    requires Inv(s) && i < |s.queue| && !s.queue[i].atOnce && s.queue[i].cindex <= j < |s.queue[i].cmds|
    ensures s.queue[i].cmds[j].Written() ==> i == 0 && j == s.queue[0].cindex
  {
  }
}
