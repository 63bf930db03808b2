/** When a stream is mixed onto its own samples: it keeps its cursors over a hold,
    but starts over at the read position when it is attached again. */
module MixRepeats {
  import opened Basics
  import opened RingBuffers
  import opened Mixing
  import opened MixSounds

  // ------------------------------------------------------------------ one write

  /** One of the first k samples of a write falls on a live sample of the stream. */
  ghost predicate Clash(m: Mixer, s: nat, k: nat)
    requires m.Inv() && s in m.cursor
  {
    InvGives(m);
    exists j :: 0 <= j < |m.log| && m.log[j].stream == s && m.gone <= m.log[j].pos
      && Hit(m.read, m.size, m.cursor[s].write, m.log[j].pos - m.gone) < k
  }

  /** What the mixing part of a write adds to the log. */
  ghost predicate Added(m: Mixer, s: nat, k: nat, log: seq<Entry>)
    requires m.Inv() && s in m.cursor
  {
    InvGives(m);
    && |m.log| <= |log| && log[..|m.log|] == m.log
    && forall j :: |m.log| <= j < |log| ==>
         && log[j].stream == s && m.gone <= log[j].pos < m.gone + m.live
         && Hit(m.read, m.size, m.cursor[s].write, log[j].pos - m.gone) < k
  }

  lemma SingleOneMore(log: seq<Entry>, e: Entry)
    ensures SingleIn(log + [e]) <==>
      SingleIn(log) && forall j :: 0 <= j < |log| && log[j].stream == e.stream ==> log[j].pos != e.pos
  {
    var w := log + [e];
    assert w[|log|] == e;
    assert forall j :: 0 <= j < |log| ==> w[j] == log[j];
  }

  /** The sample number k of a write falls on live sample number o. */
  ghost predicate FallsOn(m: Mixer, s: nat, k: nat, o: nat)
    requires m.Inv() && s in m.cursor
  {
    InvGives(m);
    forall i: nat | i < m.size :: o == i <==> Hit(m.read, m.size, m.cursor[s].write, i) == k
  }

  lemma NoMoreAdded(m: Mixer, s: nat, k: nat, log: seq<Entry>, o: nat)
    requires m.Inv() && s in m.cursor && FallsOn(m, s, k, o) && o >= m.live && Added(m, s, k, log)
    ensures Added(m, s, k + 1, log)
    ensures Clash(m, s, k + 1) <==> Clash(m, s, k)
  {
    hide At, Mixer.Inv, Hit;
    InvGives(m);
  }

  lemma OneMoreAdded(m: Mixer, s: nat, k: nat, log: seq<Entry>, e: Entry)
    requires m.Inv() && s in m.cursor && Added(m, s, k, log)
    requires e.stream == s && m.gone <= e.pos < m.gone + m.live && FallsOn(m, s, k, e.pos - m.gone)
    ensures Added(m, s, k + 1, log + [e])
  {
    hide At, Mixer.Inv, Hit;
    InvGives(m);
  }

  lemma OneMoreClash(m: Mixer, s: nat, k: nat, log: seq<Entry>, e: Entry)
    requires m.Inv() && s in m.cursor && Added(m, s, k, log)
    requires e.stream == s && m.gone <= e.pos < m.gone + m.live && FallsOn(m, s, k, e.pos - m.gone)
    requires SingleIn(log) <==> SingleIn(m.log) && !Clash(m, s, k)
    ensures SingleIn(log + [e]) <==> SingleIn(m.log) && !Clash(m, s, k + 1)
  {
    hide At, Mixer.Inv, Hit, SingleIn;
    InvGives(m);
    SingleOneMore(log, e);
    assert forall j :: 0 <= j < |m.log| ==> log[j] == m.log[j] by {
      assert forall j :: 0 <= j < |m.log| ==> log[..|m.log|][j] == log[j];
    }
  }

  lemma {:induction false} MixInSingleIff(m: Mixer, s: nat, data: seq<Sample>)
    requires m.Inv() && s in m.cursor && m.cursor[s].used + |data| <= m.size
    ensures Fits(m.cursor[s], m.size) && m.read <= m.size
    ensures var w := m.MixIn(s, data);
      Added(m, s, |data|, w.log) && (SingleIn(w.log) <==> SingleIn(m.log) && !Clash(m, s, |data|))
    decreases |data|
  {
    hide At, Mix, Mixer.Inv, Hit, Steps, Wrap, SingleIn, Clash, Added;
    InvGives(m);
    if data == [] {
      NothingClashes(m, s);
    } else {
      var k, c := |data| - 1, m.cursor[s];
      var w := m.MixIn(s, data[..k]);
      MixInSingleIff(m, s, data[..k]);
      var o := Steps(m.read, Wrap(c.write + k, m.size), m.size);
      forall i: nat | i < m.size ensures o == i <==> Hit(m.read, m.size, c.write, i) == k {
        HitIs(m.read, m.size, c.write, k, i);
      }
      if o < m.live {
        OneMoreAdded(m, s, k, w.log, Entry(m.gone + o, s, data[k]));
        OneMoreClash(m, s, k, w.log, Entry(m.gone + o, s, data[k]));
      } else {
        NoMoreAdded(m, s, k, w.log, o);
      }
    }
  }

  lemma NothingClashes(m: Mixer, s: nat)
    requires m.Inv() && s in m.cursor
    ensures !Clash(m, s, 0) && Added(m, s, 0, m.log)
  {
  }

  lemma {:induction false} SingleBehind(log: seq<Entry>, s: nat, start: nat, data: seq<Sample>)
    requires forall j :: 0 <= j < |log| ==> log[j].pos < start
    ensures SingleIn(log + Entries(s, start, data)) <==> SingleIn(log)
    ensures var w := log + Entries(s, start, data); forall j :: 0 <= j < |w| ==> w[j].pos < start + |data|
    decreases |data|
  {
    hide SingleIn;
    if data == [] {
      assert log + Entries(s, start, data) == log;
    } else {
      var k := |data| - 1;
      SingleBehind(log, s, start, data[..k]);
      SingleOneMore(log + Entries(s, start, data[..k]), Entry(start + k, s, data[k]));
      assert log + Entries(s, start, data) == log + Entries(s, start, data[..k]) + [Entry(start + k, s, data[k])];
    }
  }

  /** The samples of a write that are mixed in. */
  function MixedOf(m: Mixer, s: nat, data: seq<Sample>): nat
    requires s in m.cursor && Fits(m.cursor[s], m.size)
  {
    var u, n := m.cursor[s].used, m.Room(s, |data|);
    if u <= m.live then Min(n, m.live - u) else n
  }

  lemma WriteSingleIff(m: Mixer, s: nat, data: seq<Sample>)
    requires m.Inv() && s in m.cursor
    ensures Fits(m.cursor[s], m.size) && m.read <= m.size
    ensures m.Write(s, data).Single() <==> m.Single() && !Clash(m, s, MixedOf(m, s, data))
  {
    hide At, Mix, Mixer.Inv, Clash, Added, Mixer.MixIn;
    InvGives(m);
    var n, k := m.Room(s, |data|), MixedOf(m, s, data);
    var w := m.MixIn(s, data[..k]);
    MixInSingleIff(m, s, data[..k]);
    MixInKeeps(m, s, data[..k]);
    InvGives(w);
    if k < n { SingleBehind(w.log, s, m.gone + m.live, data[k..n]); }
  }

  // --------------------------------------------------------------- steps and runs

  /** The step mixes a sample of a stream onto another of its own. */
  ghost predicate Clashes(m: Mixer, op: Op)
    requires m.Inv() && Enabled(m, op)
  {
    op.Write? && Clash(m, op.s, MixedOf(m, op.s, op.data))
  }

  lemma StepSingleIff(m: Mixer, op: Op)
    requires m.Inv() && Enabled(m, op)
    ensures Do(m, op).Single() <==> m.Single() && !Clashes(m, op)
    ensures m.Once() ==> m.Single() && !Clashes(m, op)
  {
    hide At, Mix, Mixer.Inv, Clash, Mixer.Write, MixedOf, Far;
    match op
    case Write(s, data) =>
      WriteSingleIff(m, s, data);
      if m.Once() { StepOnceIff(m, op); }
    case _ =>
  }

  ghost predicate NoneClashes(m: Mixer, ops: seq<Op>)
    requires m.Inv() && EnabledAll(m, ops)
    decreases |ops|
  {
    ops == [] ||
    (StepKeepsInv(m, ops[0]);
     !Clashes(m, ops[0]) && NoneClashes(Do(m, ops[0]), ops[1..]))
  }

  /** Over every run a stream has at most one sample at a position if and only if no
      write fell on a sample of its own stream. */
  lemma {:induction false} RunSingleIff(m: Mixer, ops: seq<Op>)
    requires m.Inv() && EnabledAll(m, ops)
    ensures DoAll(m, ops).Single() <==> m.Single() && NoneClashes(m, ops)
    decreases |ops|
  {
    hide Do, Enabled, Mixer.Inv, Mixer.Once, Clashes, Mixer.Single;
    if ops != [] {
      StepKeepsInv(m, ops[0]);
      StepSingleIff(m, ops[0]);
      RunSingleIff(Do(m, ops[0]), ops[1..]);
    }
  }

  ghost predicate NoneEarly(m: Mixer, ops: seq<Op>)
    requires EnabledAll(m, ops)
    decreases |ops|
  {
    ops == [] || (!Early(m, ops[0]) && NoneEarly(Do(m, ops[0]), ops[1..]))
  }

  /** No write does over every run in which streams are attached only when nothing
      of theirs is buffered any more. */
  lemma {:induction false} RunKeepsOnce(m: Mixer, ops: seq<Op>)
    requires m.Inv() && m.Once() && EnabledAll(m, ops) && NoneEarly(m, ops)
    ensures DoAll(m, ops).Inv() && DoAll(m, ops).Once()
    ensures NoneClashes(m, ops)
    decreases |ops|
  {
    hide Do, Enabled, Mixer.Inv, Mixer.Once, Clashes, Early, Mixer.Single;
    if ops != [] {
      StepKeepsInv(m, ops[0]);
      StepOnceIff(m, ops[0]);
      StepSingleIff(m, ops[0]);
      RunKeepsOnce(Do(m, ops[0]), ops[1..]);
    }
  }

  /** Below, a call is put on hold and comes back before the timer has sent what it
      wrote. */
  function ReturnRun(x: Sample, y: Sample): seq<Op> {
    [Create, Attach(0), Write(0, [x]), Detach(0), Attach(0), Write(0, [y])]
  }

  lemma OneOp(m: Mixer, op: Op, ops: seq<Op>)
    requires Enabled(m, op) && EnabledAll(Do(m, op), ops)
    ensures EnabledAll(m, [op] + ops) && DoAll(m, [op] + ops) == DoAll(Do(m, op), ops)
  {
    hide Do, Enabled;
    assert ([op] + ops)[1..] == ops;
  }

  lemma ReturnSteps(x: Sample, y: Sample)
    ensures EnabledAll(Empty(5), ReturnRun(x, y))
    ensures var m := DoAll(Empty(5), ReturnRun(x, y));
      m.live == 1 && m.gone == 0 && m.log == [Entry(0, 0, x), Entry(0, 0, y)]
  {
    hide EnabledAll, DoAll;
    var q := ReturnRun(x, y);
    var a := Do(Do(Empty(5), Create), Attach(0));
    var b := FirstWrite(a, x);
    var c := Do(Do(b, Detach(0)), Attach(0));
    var d := SecondWrite(c, x, y);
    NoOps(d);
    OneOp(c, Write(0, [y]), []);
    OneOp(Do(b, Detach(0)), Attach(0), [Write(0, [y])] + []);
    OneOp(b, Detach(0), [Attach(0)] + ([Write(0, [y])] + []));
    OneOp(a, Write(0, [x]), [Detach(0)] + ([Attach(0)] + ([Write(0, [y])] + [])));
    OneOp(Do(Empty(5), Create), Attach(0), [Write(0, [x])] + ([Detach(0)] + ([Attach(0)] + ([Write(0, [y])] + []))));
    OneOp(Empty(5), Create, [Attach(0)] + ([Write(0, [x])] + ([Detach(0)] + ([Attach(0)] + ([Write(0, [y])] + [])))));
    assert q == [Create] + ([Attach(0)] + ([Write(0, [x])] + ([Detach(0)] + ([Attach(0)] + ([Write(0, [y])] + [])))));
  }

  lemma NoOps(m: Mixer)
    ensures EnabledAll(m, []) && DoAll(m, []) == m
  {
  }

  lemma FirstWrite(m: Mixer, x: Sample) returns (w: Mixer)
    requires m == Mixer(5, 0, 0, 0, [], map[0 := Cursor(0, 0)], {0}, 1)
    ensures w == Do(m, Write(0, [x])) && w == Mixer(5, 0, 0, 1, [Entry(0, 0, x)], map[0 := Cursor(1, 1)], {0}, 1)
  {
    w := Do(m, Write(0, [x]));
    var d := [x];
    assert d[..0] == [] && d[0..1] == [x];
    assert Entries(0, 0, [x]) == [Entry(0, 0, x)];
  }

  lemma SecondWrite(m: Mixer, x: Sample, y: Sample) returns (w: Mixer)
    requires m == Mixer(5, 0, 0, 1, [Entry(0, 0, x)], map[0 := Cursor(0, 0)], {0}, 1)
    ensures w == Do(m, Write(0, [y]))
    ensures w.live == 1 && w.gone == 0 && w.log == [Entry(0, 0, x), Entry(0, 0, y)]
  {
    w := Do(m, Write(0, [y]));
    var d := [y];
    assert d[..1] == [y] && [y][..0] == [];
    assert m.MixIn(0, []) == m;
  }

  /** Both samples then go out at the same time, mixed. */
  lemma ReturnExample(x: Sample, y: Sample)
    ensures EnabledAll(Empty(5), ReturnRun(x, y))
    ensures var m := DoAll(Empty(5), ReturnRun(x, y));
      m.live == 1 && At(m.log, 0) == [x, y] && m.Sound() == [SaturatedAdd(x, y)] && !m.Single()
  {
    ReturnSteps(x, y);
    hide DoAll, EnabledAll;
    var m := DoAll(Empty(5), ReturnRun(x, y));
    AtOneMore([Entry(0, 0, x)], Entry(0, 0, y), 0);
    AtOneMore([], Entry(0, 0, x), 0);
    assert [Entry(0, 0, x)] == [] + [Entry(0, 0, x)];
    assert m.log == [Entry(0, 0, x)] + [Entry(0, 0, y)];
    MixOneMore([x], y);
    assert [x, y] == [x] + [y];
    assert m.log[0].pos == m.log[1].pos;
  }
}
