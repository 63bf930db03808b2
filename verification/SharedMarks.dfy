/** Round-robin when other requests come in between that use the same marks: the
    prefixes of two SIM requests may select the same devices (src/chan_quectel.c). */
module SharedMarks {
  import opened Basics
  import opened RoundRobin

  /** A request in between, as the candidates of this one see it: whose marks it takes
      away, and who of them it marks. */
  datatype Other = Other(hit: seq<bool>, chosen: Option<nat>) {
    predicate Valid(c: nat) {
      |hit| == c && (chosen.Some? ==> chosen.value < c && hit[chosen.value])
    }
  }

  /** The marks behind it. */
  function Between(marks: seq<bool>, o: Other): (m: seq<bool>)
    requires o.Valid(|marks|)
    ensures |m| == |marks|
  {
    seq(|marks|, k requires 0 <= k < |marks| => if o.hit[k] then o.chosen == Some(k) else marks[k])
  }

  // ------------------------------------------------------ requests on the devices

  /** What a request for o does to the candidates c of another one. */
  function OtherOf(c: seq<Device>, devices: seq<Device>, s: Selector, o: Selector, at: Option<nat>): (r: Other)
    ensures |r.hit| == |c|
  {
    Other(seq(|c|, k requires 0 <= k < |c| => SameMark(o, s) && c[k] in Candidates(devices, o)), at)
  }

  /** After a request for o, as `Find` leaves the marks of the devices. */
  lemma MarksBetween(
    devices: seq<Device>, s: Selector, o: Selector, was: seq<bool>, found: Option<Device>, at: Option<nat>)
    requires Distinct(devices)
    requires var c := Candidates(devices, s);
      && |was| == |c|
      && (forall k :: 0 <= k < |c| ==>
            c[k].Marked(s) == if SameMark(o, s) && c[k] in Candidates(devices, o) then found == Some(c[k]) else was[k])
      && (if found.Some? && found.value in c && SameMark(o, s)
          then found.value in Candidates(devices, o) && at.Some? && at.value < |c| && c[at.value] == found.value
          else at.None?)
    ensures var c := Candidates(devices, s);
      OtherOf(c, devices, s, o, at).Valid(|was|) && Marks(c, s) == Between(was, OtherOf(c, devices, s, o, at))
  {
    hide Candidates, Device.Marked, SameMark;
    CandidatesDistinct(devices, s);
    var c := Candidates(devices, s);
    var r := OtherOf(c, devices, s, o, at);
    forall k | 0 <= k < |c| ensures Marks(c, s)[k] == Between(was, r)[k] {
      if at.Some? && at.value != k { assert c[k] != c[at.value]; }
    }
  }

  /** Other groups, other providers and the other kinds of selectors do not touch them. */
  lemma OnlyPrefixesOverlap(devices: seq<Device>, s: Selector, o: Selector, at: Option<nat>)
    requires s != o && !(s.Sim? && o.Sim?)
    ensures forall k :: 0 <= k < |Candidates(devices, s)| ==> !OtherOf(Candidates(devices, s), devices, s, o, at).hit[k]
  {
    hide Candidates;
    var c := Candidates(devices, s);
    forall k | 0 <= k < |c| && SameMark(o, s) ensures c[k] !in Candidates(devices, o) {
      assert c[k] in c;
    }
  }

  // ------------------------------------------------------------------ whose turn

  /** Such a request leaves the turn where it was exactly when it does not mark a
      later candidate, and takes the last mark away only to give it back (the first
      candidate's is as good as none). */
  lemma TurnKeptIff(c: nat, last: nat, o: Other)
    requires last < c && o.Valid(c)
    ensures LastUsed(Between(MarksAfter(c, Some(last)), o)) == last <==>
      if o.hit[last] then o.chosen == Some(last) || (o.chosen.None? && last == 0)
      else o.chosen.None? || o.chosen.value < last
  {
    hide LastUsed;
    var m := Between(MarksAfter(c, Some(last)), o);
    if !o.hit[last] {
      LastUsedOfOne(m, if o.chosen.Some? && o.chosen.value > last then o.chosen.value else last);
    } else if o.chosen.Some? {
      LastUsedOfOne(m, o.chosen.value);
    } else {
      LastUsedOfNone(m);
    }
  }

  lemma {:induction false} LastUsedOfNone(m: seq<bool>)
    requires forall k :: 0 <= k < |m| ==> !m[k]
    ensures LastUsed(m) == 0
  {
    if m != [] { LastUsedOfNone(m[..|m| - 1]); }
  }

  /** Several requests in between. */
  function Disturbed(marks: seq<bool>, gap: seq<Other>): (m: seq<bool>)
    requires forall i :: 0 <= i < |gap| ==> gap[i].Valid(|marks|)
    ensures |m| == |marks|
    decreases |gap|
  {
    if gap == [] then marks else Disturbed(Between(marks, gap[0]), gap[1..])
  }

  predicate ValidGaps(c: nat, usables: seq<seq<bool>>, gaps: seq<seq<Other>>) {
    && |gaps| == |usables|
    && (forall t :: 0 <= t < |usables| ==> |usables[t]| == c)
    && (forall t, i :: 0 <= t < |gaps| && 0 <= i < |gaps[t]| ==> gaps[t][i].Valid(c))
  }

  /** The choices of a selector's requests, with others in front of each of them. */
  function PicksAmong(marks: seq<bool>, usables: seq<seq<bool>>, gaps: seq<seq<Other>>): (r: seq<Option<nat>>)
    requires marks != [] && ValidGaps(|marks|, usables, gaps)
    ensures |r| == |usables|
    decreases |usables|
  {
    if usables == [] then []
    else
      var p := Pick(LastUsed(Disturbed(marks, gaps[0])), usables[0], 0);
      [p] + PicksAmong(MarksAfter(|marks|, p), usables[1..], gaps[1..])
  }

  /** No request in between moves the turn. */
  predicate KeepsTurn(marks: seq<bool>, usables: seq<seq<bool>>, gaps: seq<seq<Other>>)
    requires marks != [] && ValidGaps(|marks|, usables, gaps)
    decreases |usables|
  {
    usables == [] ||
    (&& LastUsed(Disturbed(marks, gaps[0])) == LastUsed(marks)
     && KeepsTurn(MarksAfter(|marks|, Pick(LastUsed(marks), usables[0], 0)), usables[1..], gaps[1..]))
  }

  /** Then the requests choose as if they were alone. */
  lemma {:induction false} SamePicks(marks: seq<bool>, usables: seq<seq<bool>>, gaps: seq<seq<Other>>)
    requires marks != [] && ValidGaps(|marks|, usables, gaps) && KeepsTurn(marks, usables, gaps)
    ensures PicksAmong(marks, usables, gaps) == Picks(marks, usables)
    decreases |usables|
  {
    if usables != [] {
      SamePicks(MarksAfter(|marks|, Pick(LastUsed(marks), usables[0], 0)), usables[1..], gaps[1..]);
    }
  }

  lemma FairnessAmong(marks: seq<bool>, usables: seq<seq<bool>>, gaps: seq<seq<Other>>, d: nat)
    requires d < |marks| <= |usables| && ValidGaps(|marks|, usables, gaps) && KeepsTurn(marks, usables, gaps)
    requires forall t :: 0 <= t < |usables| ==> usables[t][d]
    ensures exists t :: 0 <= t < |marks| && PicksAmong(marks, usables, gaps)[t] == Some(d)
  {
    SamePicks(marks, usables, gaps);
    Fairness(marks, usables, d);
  }

  /** With all candidates available, they are chosen in turn if and only if no request
      in between moves the turn. */
  lemma {:induction false} InTurnIff(marks: seq<bool>, usables: seq<seq<bool>>, gaps: seq<seq<Other>>)
    requires marks != [] && ValidGaps(|marks|, usables, gaps)
    requires forall t, k :: 0 <= t < |usables| && 0 <= k < |marks| ==> usables[t][k]
    ensures PicksAmong(marks, usables, gaps) == Picks(marks, usables) <==> KeepsTurn(marks, usables, gaps)
    decreases |usables|
  {
    if usables != [] {
      var c, last, other := |marks|, LastUsed(marks), LastUsed(Disturbed(marks, gaps[0]));
      var p, q := Pick(last, usables[0], 0), Pick(other, usables[0], 0);
      assert p == Some(ProbeAt(last, 0, c)) && q == Some(ProbeAt(other, 0, c));
      var alone, among := Picks(marks, usables), PicksAmong(marks, usables, gaps);
      assert alone[0] == p && among[0] == q;
      if p == q {
        InTurnIff(MarksAfter(c, p), usables[1..], gaps[1..]);
        assert alone[1..] == Picks(MarksAfter(c, p), usables[1..]);
        assert among[1..] == PicksAmong(MarksAfter(c, p), usables[1..], gaps[1..]);
      }
    }
  }

  // -------------------------------------------------------------------- starvation

  /** Of two candidates, the second is alone chosen by the request in between. */
  const SECOND := Other([false, true], Some(1))

  /** This is how a request for s:22 looks to one for s:2, on two devices whose numbers
      begin with 21 and 22. */
  lemma SecondOnly(first: Device, second: Device)
    requires first != second && "21" <= first.imsi && "22" <= second.imsi
    ensures Candidates([first, second], Sim("2")) == [first, second]
    ensures Candidates([first, second], Sim("22")) == [second]
    ensures OtherOf([first, second], [first, second], Sim("2"), Sim("22"), Some(1)) == SECOND
  {
    var d := [first, second];
    assert d[..1] == [first] && [first][..0] == [];
    assert first.imsi[1] == '1';
    assert "2" <= first.imsi && "2" <= second.imsi && !("22" <= first.imsi);
    assert Candidates([], Sim("2")) == [] && Candidates([], Sim("22")) == [];
    assert Candidates([first], Sim("2")) == [first] && Candidates([first], Sim("22")) == [];
    assert Candidates(d, Sim("22")) == [second];
    assert first !in [second];
    var hit := OtherOf(d, d, Sim("2"), Sim("22"), Some(1)).hit;
    assert SameMark(Sim("22"), Sim("2"));
    assert hit[0] == (first in [second]) && hit[1] == (second in [second]);
    assert hit == [false, true];
  }

  /** When the two requests take turns, those for s:2 always choose the first device. */
  lemma {:induction false} Starved(marks: seq<bool>, n: nat)
    requires |marks| == 2
    ensures ValidGaps(2, seq(n, _ => [true, true]), seq(n, _ => [SECOND]))
    ensures PicksAmong(marks, seq(n, _ => [true, true]), seq(n, _ => [SECOND])) == seq(n, _ => Some(0))
    decreases n
  {
    var usables, gaps := seq(n, _ => [true, true]), seq(n, _ => [SECOND]);
    if n > 0 {
      var m := Disturbed(marks, gaps[0]);
      assert Disturbed(Between(marks, SECOND), []) == Between(marks, SECOND);
      assert gaps[0][1..] == [] && m == Between(marks, SECOND);
      LastUsedOfOne(m, 1);
      var p := Pick(1, usables[0], 0);
      assert p == Some(0);
      Starved(MarksAfter(2, p), n - 1);
      assert usables[1..] == seq(n - 1, _ => [true, true]) && gaps[1..] == seq(n - 1, _ => [SECOND]);
    }
  }
}
