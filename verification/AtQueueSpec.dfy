/** The queue of AT commands as a state machine (src/at_queue.c and the handlers of
    src/at_response.c that advance it): tasks of several commands, of which only
    the head task's current one is on the wire. */
module AtQueueSpec {
  import opened Basics

  /** The commands the handlers tell apart. */
  datatype Code = Cmgs | SmsText | Cnma | Esc | Other(code: int)

  // Response codes that matter here, with their numbers.
  const TIMEOUT: int := 1
  const CMS_ERROR: int := 7
  const ERROR: int := 25
  const OK: int := 30
  const SMS_PROMPT: int := 34

  /** A command; its data is released when it has been written. */
  datatype Cmd = Cmd(code: Code, res: int, ignore: bool, data: seq<byte>) {
    predicate Written() { data == [] }

    function Release(): Cmd { this.(data := []) }
  }

  datatype Task = Task(id: nat, owner: nat, uid: int, atOnce: bool, cmds: seq<Cmd>, cindex: nat) {
    ghost predicate WellFormed() {
      cmds != [] && cindex <= |cmds| && (!atOnce ==> cindex < |cmds|)
    }

    /** at_queue_task_cmd */
    function Current(): Cmd
      requires WellFormed()
    {
      cmds[if atOnce then 0 else cindex]
    }
  }

  /** A successful write: which command of which task; index 0 for the joined
      text of an at-once task. */
  datatype Sent = Sent(task: nat, index: nat, data: seq<byte>)

  /** The queue, the counters at_tasks and at_cmds, what has been written, and
      the tasks as they were enqueued. */
  datatype State = State(queue: seq<Task>, tasks: int, cmds: int, wire: seq<Sent>, made: seq<Task>)

  ghost predicate AllWellFormed(s: State) {
    forall i :: 0 <= i < |s.queue| ==> s.queue[i].WellFormed()
  }

  function Pop(s: State): (r: State)
    requires s.queue != []
    ensures AllWellFormed(s) ==> AllWellFormed(r)
  {
    var t := s.queue[0];
    s.(queue := s.queue[1..], tasks := s.tasks - 1, cmds := s.cmds - (|t.cmds| - t.cindex))
  }

  function SetHead(s: State, t: Task): (r: State)
    requires s.queue != []
    ensures |r.queue| == |s.queue| && r.queue[0] == t && r.queue[1..] == s.queue[1..]
  {
    s.(queue := [t] + s.queue[1..])
  }

  /** at_queue_add */
  function Add(s: State, cmds: seq<Cmd>, prio: bool, atOnce: bool, owner: nat, uid: int): (r: State)
    ensures AllWellFormed(s) ==> AllWellFormed(r)
  {
    if cmds == [] then s
    else
      var t := Task(|s.made|, owner, uid, atOnce, cmds, 0);
      s.(queue := if prio && s.queue != [] then [s.queue[0], t] + s.queue[1..] else s.queue + [t],
         tasks := s.tasks + 1, cmds := s.cmds + |cmds|, made := s.made + [t])
  }

  /** at_queue_remove_cmd: the head's current command has got the result `res`. */
  function Advance(s: State, res: int): (r: State)
    requires AllWellFormed(s)
    ensures AllWellFormed(r)
  {
    if s.queue == [] then s
    else
      var t := s.queue[0];
      if t.atOnce then
        var u := SetHead(s, t.(cindex := |t.cmds|)).(cmds := s.cmds - |t.cmds|);
        if t.cmds[0].res == res || t.cmds[0].ignore || res == TIMEOUT then Pop(u) else u
      else
        var c := t.cmds[t.cindex];
        var u := SetHead(s, t.(cindex := t.cindex + 1)).(cmds := s.cmds - 1);
        if t.cindex + 1 >= |t.cmds| || (c.res != res && !c.ignore) || res == TIMEOUT then Pop(u) else u
  }

  /** at_queue_remove_task_at_once: the head at-once task could not be written. */
  function FailAtOnce(s: State): (r: State)
    requires s.queue != [] && AllWellFormed(s) && s.queue[0].atOnce
    ensures AllWellFormed(r)
  {
    var t := s.queue[0];
    var u := SetHead(s, t.(cindex := |t.cmds|)).(cmds := s.cmds - |t.cmds|);
    if t.cmds[0].ignore then u else Pop(u)
  }

  /** The commands of an at-once task, separated by semicolons. */
  function Joined(cmds: seq<Cmd>): seq<byte> {
    if cmds == [] then [65, 84]                                              // "AT"
    else
      var n := |cmds| - 1;
      Joined(cmds[..n]) + (if n == 0 then [] else [59]) + cmds[n].data       // ";"
  }

  predicate AllWritten(cmds: seq<Cmd>) {
    forall i :: 0 <= i < |cmds| ==> cmds[i].Written()
  }

  function ReleaseAll(cmds: seq<Cmd>): (r: seq<Cmd>)
    ensures |r| == |cmds|
  {
    seq(|cmds|, i requires 0 <= i < |cmds| => cmds[i].Release())
  }

  /** at_queue_run: writes the head's current command unless it is written; `ok`
      says whether the device takes it. */
  function Write(s: State, ok: bool): (r: State)
    requires AllWellFormed(s)
    ensures AllWellFormed(r)
  {
    if s.queue == [] then s
    else
      var t := s.queue[0];
      if t.atOnce then
        if AllWritten(t.cmds) then s
        else if ok then
          SetHead(s, t.(cmds := ReleaseAll(t.cmds))).(wire := s.wire + [Sent(t.id, 0, Joined(t.cmds) + [13])])
        else FailAtOnce(s)
      else
        var c := t.cmds[t.cindex];
        if c.Written() then s
        else if ok then
          SetHead(s, t.(cmds := t.cmds[t.cindex := c.Release()])).(wire := s.wire + [Sent(t.id, t.cindex, c.data)])
        else Advance(s, c.res + 1)
  }

  /** The escape character that ends a message nobody has (at_enqueue_escape). */
  const ESCAPE: Cmd := Cmd(Esc, OK, false, [27])

  /** What a response does to the queue: at_response_ok, at_response_error and
      at_response_sms_prompt; other responses do not advance it. Inserting the
      escape runs the queue, which is taken to work: on a failure the source goes
      on with a command it has released. */
  function Respond(s: State, res: int): (r: State)
    requires AllWellFormed(s)
    ensures AllWellFormed(r)
  {
    if s.queue == [] then s
    else
      var t := s.queue[0];
      var c := t.Current();
      if res == OK then
        if c.res == OK then Advance(s, OK) else s
      else if res == ERROR || res == CMS_ERROR || res == TIMEOUT then
        if c.res == OK || c.res == SMS_PROMPT then Advance(s, res) else s
      else if res == SMS_PROMPT then
        if c.code == Cnma && c.res == OK then Advance(Write(Add(s, [ESCAPE], true, false, t.owner, t.uid), true), OK)
        else if c.res == SMS_PROMPT then Advance(s, SMS_PROMPT)
        else s
      else s
  }

  function Flush(s: State): (r: State)
    ensures r.queue == [] && r.wire == s.wire && r.made == s.made
    decreases |s.queue|
  {
    if s.queue == [] then s else Flush(Pop(s))
  }

  /** One action under the device lock. A response is followed by at_queue_run, an
      expired command (cmd_timeout) is not. */
  datatype Step =
    | Insert(cmds: seq<Cmd>, prio: bool, atOnce: bool, owner: nat, uid: int, ok: bool)
    | Response(res: int, ok: bool)
    | Expire
    | Disconnect

  ghost predicate HeadWritten(s: State)
    requires AllWellFormed(s)
  {
    s.queue == [] || s.queue[0].Current().Written()
  }

  /** Commands come with data. */
  ghost predicate Enabled(s: State, step: Step)
    requires AllWellFormed(s)
  {
    match step
    case Insert(cmds, _, _, _, _, _) => forall i :: 0 <= i < |cmds| ==> !cmds[i].Written()
    case _ => true
  }

  ghost function Do(s: State, step: Step): (r: State)
    requires AllWellFormed(s)
    ensures AllWellFormed(r)
  {
    match step
    case Insert(cmds, prio, atOnce, owner, uid, ok) => Write(Add(s, cmds, prio, atOnce, owner, uid), ok)
    case Response(res, ok) => Write(Respond(s, res), ok)
    case Expire => if HeadWritten(s) then Respond(s, TIMEOUT) else s
    case Disconnect => Flush(s)
  }

  ghost predicate EnabledAll(s: State, steps: seq<Step>)
    requires AllWellFormed(s)
    decreases |steps|
  {
    steps == [] || (Enabled(s, steps[0]) && EnabledAll(Do(s, steps[0]), steps[1..]))
  }

  ghost function DoAll(s: State, steps: seq<Step>): (r: State)
    requires AllWellFormed(s)
    ensures AllWellFormed(r)
    decreases |steps|
  {
    if steps == [] then s else DoAll(Do(s, steps[0]), steps[1..])
  }

  const START: State := State([], 0, 0, [], [])
}
