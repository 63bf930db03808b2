/** The text of an at-once task: its commands can be told apart again, if they have no
    semicolons of their own (src/at_queue.c). */
module AtQueueJoin {
  import opened Basics
  import opened AtQueueSpec

  const SEMICOLON: byte := 59

  /** The pieces of a text between its semicolons. */
  function Split(s: seq<byte>): (r: seq<seq<byte>>)
    ensures r != []
  {
    if s == [] then [[]]
    else
      var n := |s| - 1;
      var r := Split(s[..n]);
      if s[n] == SEMICOLON then r + [[]] else r[..|r| - 1] + [r[|r| - 1] + [s[n]]]
  }

  lemma {:induction false} SplitCounts(s: seq<byte>)
    ensures |Split(s)| == 1 + multiset(s)[SEMICOLON]
  {
    if s != [] {
      var n := |s| - 1;
      SplitCounts(s[..n]);
      assert s == s[..n] + [s[n]];
    }
  }

  lemma SplitStep(s: seq<byte>, x: byte)
    ensures var r := Split(s);
      Split(s + [x]) == if x == SEMICOLON then r + [[]] else r[..|r| - 1] + [r[|r| - 1] + [x]]
  {
    assert (s + [x])[..|s|] == s;
  }

  lemma {:induction false} SplitPiece(s: seq<byte>, t: seq<byte>)
    requires SEMICOLON !in t
    ensures Split(s + [SEMICOLON] + t) == Split(s) + [t]
  {
    hide Split;
    if t == [] {
      SplitStep(s, SEMICOLON);
      assert s + [SEMICOLON] + t == s + [SEMICOLON];
    } else {
      var front, x := t[..|t| - 1], t[|t| - 1];
      SplitPiece(s, front);
      SplitStep(s + [SEMICOLON] + front, x);
      assert s + [SEMICOLON] + t == s + [SEMICOLON] + front + [x];
      var r := Split(s) + [front];
      assert r[..|r| - 1] == Split(s);
      assert t == front + [x];
    }
  }

  lemma {:induction false} SplitWhole(t: seq<byte>)
    requires SEMICOLON !in t
    ensures Split(t) == [t]
  {
    if t != [] {
      var n := |t| - 1;
      SplitWhole(t[..n]);
      assert [t[..n]][..0] == [] && t == t[..n] + [t[n]];
    }
  }

  function Datas(cmds: seq<Cmd>): (r: seq<seq<byte>>)
    ensures |r| == |cmds|
  {
    seq(|cmds|, i requires 0 <= i < |cmds| => cmds[i].data)
  }

  lemma JoinedStep(cmds: seq<Cmd>)
    requires cmds != []
    ensures var n := |cmds| - 1; var front := Joined(cmds[..n]);
      |front| >= 2 ==>
      && |Joined(cmds)| >= 2 && Joined(cmds)[..2] == front[..2]
      && Joined(cmds)[2..] == front[2..] + (if n == 0 then [] else [SEMICOLON]) + cmds[n].data
  {
    var n := |cmds| - 1;
    assert Joined(cmds) == Joined(cmds[..n]) + (if n == 0 then [] else [SEMICOLON]) + cmds[n].data;
  }

  lemma NothingJoined(cmds: seq<Cmd>)
    requires cmds == []
    ensures Joined(cmds) == [65, 84]
  {
  }

  lemma {:induction false} JoinedCounts(cmds: seq<Cmd>)
    requires cmds != []
    ensures |Joined(cmds)| >= 2 && Joined(cmds)[..2] == [65, 84]
    ensures multiset(Joined(cmds)[2..])[SEMICOLON] >= |cmds| - 1
    ensures (exists i :: 0 <= i < |cmds| && SEMICOLON in cmds[i].data) ==>
      multiset(Joined(cmds)[2..])[SEMICOLON] >= |cmds|
  {
    hide Joined;
    var n := |cmds| - 1;
    var front, data := cmds[..n], cmds[n].data;
    JoinedStep(cmds);
    if n == 0 {
      NothingJoined(front);
      assert Joined(cmds)[2..] == data;
    } else {
      JoinedCounts(front);
      if i :| 0 <= i < |cmds| && SEMICOLON in cmds[i].data {
        if i < n { assert SEMICOLON in front[i].data; }
      }
    }
  }

  lemma {:induction false} JoinedSplits(cmds: seq<Cmd>)
    requires cmds != [] && forall i :: 0 <= i < |cmds| ==> SEMICOLON !in cmds[i].data
    ensures |Joined(cmds)| >= 2 && Split(Joined(cmds)[2..]) == Datas(cmds)
  {
    hide Joined, Split;
    var n := |cmds| - 1;
    var front, data := cmds[..n], cmds[n].data;
    JoinedStep(cmds);
    if n == 0 {
      NothingJoined(front);
      assert Joined(cmds)[2..] == data;
      SplitWhole(data);
      assert Datas(cmds) == [data];
    } else {
      JoinedSplits(front);
      SplitPiece(Joined(front)[2..], data);
      assert Datas(cmds) == Datas(front) + [data];
    }
  }

  /** Behind AT the pieces between the semicolons are the commands if and only if no
      command has a semicolon itself. */
  lemma JoinedIff(cmds: seq<Cmd>)
    requires cmds != []
    ensures |Joined(cmds)| >= 2 && Joined(cmds)[..2] == [65, 84]
    ensures Split(Joined(cmds)[2..]) == Datas(cmds) <==> forall i :: 0 <= i < |cmds| ==> SEMICOLON !in cmds[i].data
  {
    JoinedCounts(cmds);
    SplitCounts(Joined(cmds)[2..]);
    if forall i :: 0 <= i < |cmds| ==> SEMICOLON !in cmds[i].data { JoinedSplits(cmds); }
  }

  /** An at-once task goes out as one line: AT, its commands, CR. */
  lemma AtOnceLine(s: State)
    requires AllWellFormed(s) && s.queue != [] && s.queue[0].atOnce && !AllWritten(s.queue[0].cmds)
    ensures var t, w := s.queue[0], Write(s, true).wire;
      && |w| == |s.wire| + 1 && w[..|s.wire|] == s.wire && w[|s.wire|].task == t.id
      && var line := w[|s.wire|].data;
      && |line| >= 3 && line[..2] == [65, 84] && line[|line| - 1] == 13
      && ((forall i :: 0 <= i < |t.cmds| ==> SEMICOLON !in t.cmds[i].data) ==>
            Split(line[2..|line| - 1]) == Datas(t.cmds))
  {
    hide Joined, Split, Datas;
    var t := s.queue[0];
    JoinedIff(t.cmds);
    var j := Joined(t.cmds);
    assert (j + [13])[2..|j|] == j[2..];
  }
}
