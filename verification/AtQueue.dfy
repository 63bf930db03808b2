/** The command queue of a device (src/at_queue.c), and the actions under the device
    lock that use it (src/at_response.c, src/monitor_thread.c). */
module AtQueues {
  import opened Basics
  import opened AtQueueSpec

  class AtQueue {
    var queue: seq<Task>
    var atTasks: int
    var atCmds: int
    /** Number of the next task; it stands for the address of its memory. */
    var nextId: nat
    /** What the device has taken, and the tasks as they were added. */
    ghost var wire: seq<Sent>
    ghost var made: seq<Task>

    ghost function Model(): State
      reads this
    {
      State(queue, atTasks, atCmds, wire, made)
    }

    ghost predicate Valid()
      reads this
    {
      nextId == |made| && AllWellFormed(Model())
    }

    constructor ()
      ensures Valid() && Model() == START
    {
      queue, atTasks, atCmds, nextId, wire, made := [], 0, 0, 0, [], [];
    }

    /** at_queue_remove, also of a task whose last command has been counted. */
    method Remove()
      requires queue != []
      modifies this`queue, this`atTasks, this`atCmds
      ensures Model() == Pop(old(Model()))
    {
      var task := queue[0];
      queue := queue[1..];
      atTasks := atTasks - 1;
      atCmds := atCmds - (|task.cmds| - task.cindex);
    }

    /** at_queue_add */
    method Add(owner: nat, cmds: seq<Cmd>, prio: bool, atOnce: bool, uid: int) returns (added: bool)
      requires Valid()
      modifies this
      ensures Valid() && Model() == AtQueueSpec.Add(old(Model()), cmds, prio, atOnce, owner, uid)
      ensures added == (cmds != [])
    {
      if |cmds| == 0 {
        return false;
      }
      var e := Task(nextId, owner, uid, atOnce, cmds, 0);
      if prio && queue != [] {
        queue := [queue[0], e] + queue[1..];
      } else {
        queue := queue + [e];
      }
      atTasks := atTasks + 1;
      atCmds := atCmds + |cmds|;
      nextId := nextId + 1;
      made := made + [e];
      return true;
    }

    /** at_queue_remove_cmd */
    method RemoveCmd(res: int)
      requires Valid()
      modifies this
      ensures Valid() && Model() == Advance(old(Model()), res)
    {
      if queue == [] {
        return;
      }
      var task := queue[0];
      if task.atOnce {
        queue := [task.(cindex := |task.cmds|)] + queue[1..];
        atCmds := atCmds - |task.cmds|;
        if task.cmds[0].res == res || task.cmds[0].ignore || res == TIMEOUT {
          Remove();
        }
      } else {
        var index := task.cindex;
        queue := [task.(cindex := index + 1)] + queue[1..];
        atCmds := atCmds - 1;
        if index + 1 >= |task.cmds| || (task.cmds[index].res != res && !task.cmds[index].ignore) || res == TIMEOUT {
          Remove();
        }
      }
    }

    /** at_queue_remove_task_at_once */
    method RemoveTaskAtOnce()
      requires Valid() && queue != [] && queue[0].atOnce
      modifies this
      ensures Valid() && Model() == FailAtOnce(old(Model()))
    {
      var task := queue[0];
      queue := [task.(cindex := |task.cmds|)] + queue[1..];
      atCmds := atCmds - |task.cmds|;
      if !task.cmds[0].ignore {
        Remove();
      }
    }

    /** The text of an at-once task. */
    static method JoinText(cmds: seq<Cmd>) returns (buf: seq<byte>)
      requires cmds != []
      ensures buf == Joined(cmds) + [13]
    {
      buf := [65, 84];
      for i := 0 to |cmds|
        invariant buf == Joined(cmds[..i]) + if i == 0 then [] else if i < |cmds| then [59] else [13]
      {
        assert cmds[..i + 1][..i] == cmds[..i];
        buf := buf + cmds[i].data + if i < |cmds| - 1 then [59] else [13];
      }
      assert cmds[..|cmds|] == cmds;
    }

    /** at_queue_run; `ok` is what pvt_direct_write reports. */
    method Run(ok: bool) returns (fail: bool)
      requires Valid()
      modifies this
      ensures Valid() && Model() == Write(old(Model()), ok)
      ensures fail ==> !ok
    {
      hide Advance, FailAtOnce;
      fail := false;
      if queue == [] {
        return;
      }
      var t := queue[0];
      if t.atOnce {
        if AllWritten(t.cmds) {
          return;
        }
        var buf := JoinText(t.cmds);
        fail := !ok;
        if fail {
          RemoveTaskAtOnce();
        } else {
          wire := wire + [Sent(t.id, 0, buf)];
          queue := [t.(cmds := ReleaseAll(t.cmds))] + queue[1..];
        }
      } else {
        var cmd := t.cmds[t.cindex];
        if |cmd.data| == 0 {
          return;
        }
        fail := !ok;
        if fail {
          RemoveCmd(cmd.res + 1);
        } else {
          wire := wire + [Sent(t.id, t.cindex, cmd.data)];
          queue := [t.(cmds := t.cmds[t.cindex := cmd.Release()])] + queue[1..];
        }
      }
    }

    /** at_queue_insert_uid, at_queue_insert_const and the at-once form. */
    method Insert(owner: nat, cmds: seq<Cmd>, prio: bool, atOnce: bool, uid: int, ok: bool) returns (r: int)
      requires Valid()
      modifies this
      ensures Valid() && Model() == Do(old(Model()), Step.Insert(cmds, prio, atOnce, owner, uid, ok))
      ensures r == 0 ==> cmds != []
    {
      var added := Add(owner, cmds, prio, atOnce, uid);
      var fail := Run(ok);
      r := if fail then -1 else if added then 0 else 1;
    }

    /** at_queue_flush */
    method Flush()
      requires Valid()
      modifies this
      ensures Valid() && Model() == AtQueueSpec.Flush(old(Model()))
    {
      while queue != []
        invariant Valid() && AtQueueSpec.Flush(Model()) == AtQueueSpec.Flush(old(Model()))
        decreases |queue|
      {
        Remove();
      }
    }

    /** The queue-advancing part of at_response. */
    method AtResponse(res: int)
      requires Valid()
      modifies this
      ensures Valid() && Model() == Respond(old(Model()), res)
    {
      hide Advance, AtQueueSpec.Write, AtQueueSpec.Add;
      if queue == [] {
        return;
      }
      var task := queue[0];
      var ecmd := task.Current();
      if res == OK {
        if ecmd.res == res {
          RemoveCmd(res);
        }
      } else if res == ERROR || res == CMS_ERROR || res == TIMEOUT {
        if ecmd.res == OK || ecmd.res == SMS_PROMPT {
          RemoveCmd(res);
        }
      } else if res == SMS_PROMPT {
        if ecmd.code == Cnma && ecmd.res == OK {
          var r := Insert(task.owner, [ESCAPE], true, false, task.uid, true);
          RemoveCmd(ecmd.res);
        } else if ecmd.res == SMS_PROMPT {
          RemoveCmd(SMS_PROMPT);
        }
      }
    }

    /** response_taskproc: the response, then the next command. */
    method ResponseTask(res: int, ok: bool) returns (fail: bool)
      requires Valid()
      modifies this
      ensures Valid() && Model() == Do(old(Model()), Response(res, ok))
      ensures fail ==> !ok
    {
      AtResponse(res);
      fail := Run(ok);
    }

    /** cmd_timeout */
    method CmdTimeout()
      requires Valid()
      modifies this
      ensures Valid() && Model() == Do(old(Model()), Expire)
    {
      if queue == [] || |queue[0].Current().data| != 0 {
        assert queue == [] ==> Respond(Model(), TIMEOUT) == Model();
        return;
      }
      AtResponse(TIMEOUT);
    }
  }
}
