/** Round-robin choice of a device (src/chan_quectel.c): by group, by provider or
    by the beginning of the IMSI, each with a last-used mark of its own. */
module RoundRobin {
  import opened Basics

  const MAX_DEVICES: nat := 128

  datatype Selector = Group(group: int) | Provider(name: string) | Sim(imsi: string)

  /** The selectors use the same last-used mark. */
  predicate SameMark(s: Selector, o: Selector) {
    s.Group? == o.Group? && s.Provider? == o.Provider?
  }

  class Device {
    const group: int
    const provider: string
    const imsi: string
    var groupLastUsed: bool
    var provLastUsed: bool
    var simLastUsed: bool

    constructor (group: int, provider: string, imsi: string)
      ensures this.group == group && this.provider == provider && this.imsi == imsi
      ensures !groupLastUsed && !provLastUsed && !simLastUsed
    {
      this.group, this.provider, this.imsi := group, provider, imsi;
      groupLastUsed, provLastUsed, simLastUsed := false, false, false;
    }

    predicate Selected(s: Selector) {
      match s
      case Group(g) => group == g
      case Provider(name) => provider == name
      case Sim(prefix) => prefix <= imsi
    }

    predicate Marked(s: Selector)
      reads this
    {
      match s
      case Group(_) => groupLastUsed
      case Provider(_) => provLastUsed
      case Sim(_) => simLastUsed
    }

    method SetMark(s: Selector, b: bool)
      modifies this
      ensures forall o: Selector :: Marked(o) == if SameMark(s, o) then b else old(Marked(o))
    {
      match s
      case Group(_) => groupLastUsed := b;
      case Provider(_) => provLastUsed := b;
      case Sim(_) => simLastUsed := b;
    }
  }

  // -------------------------------------------------------------- the order

  /** The candidate probed as number i, after the last used one, around the list. */
  function ProbeAt(last: nat, i: nat, c: nat): (j: nat)
    requires last < c && i < c
    ensures j < c
  {
    if last + 1 + i < c then last + 1 + i else last + 1 + i - c
  }

  /** How many candidates come before candidate d. */
  function Distance(last: nat, d: nat, c: nat): (i: nat)
    requires last < c && d < c
    ensures i < c && ProbeAt(last, i, c) == d
    ensures forall k :: 0 <= k < c && k != i ==> ProbeAt(last, k, c) != d
  {
    if d > last then d - last - 1 else d + c - last - 1
  }

  /** The first usable candidate from probe i on. */
  function Pick(last: nat, usable: seq<bool>, i: nat): (r: Option<nat>)
    requires last < |usable| && i <= |usable|
    ensures r.Some? ==> r.value < |usable| && usable[r.value] && i <= Distance(last, r.value, |usable|)
    ensures r.Some? ==>
      forall k :: i <= k < Distance(last, r.value, |usable|) ==> !usable[ProbeAt(last, k, |usable|)]
    ensures r.None? ==> forall k :: i <= k < |usable| ==> !usable[ProbeAt(last, k, |usable|)]
    decreases |usable| - i
  {
    if i == |usable| then None
    else
      var j := ProbeAt(last, i, |usable|);
      if usable[j] then
        assert Distance(last, j, |usable|) == i;
        Some(j)
      else Pick(last, usable, i + 1)
  }

  /** The index that the scan for marks ends with: the last marked one, or 0. */
  function LastUsed(marks: seq<bool>): (n: nat)
    ensures marks != [] ==> n < |marks|
  {
    if marks == [] then 0
    else if marks[|marks| - 1] then |marks| - 1
    else LastUsed(marks[..|marks| - 1])
  }

  /** The marks a request leaves: on the chosen candidate only. */
  function MarksAfter(c: nat, pick: Option<nat>): (m: seq<bool>)
    ensures |m| == c
  {
    seq(c, k => pick == Some(k))
  }

  lemma {:induction false} LastUsedOfOne(m: seq<bool>, k: nat)
    requires k < |m| && m[k] && forall j :: k < j < |m| ==> !m[j]
    ensures LastUsed(m) == k
  {
    if k < |m| - 1 {
      LastUsedOfOne(m[..|m| - 1], k);
    }
  }

  // ---------------------------------------------------------------- fairness

  /** The choices of consecutive requests, with the availabilities they find. */
  function Picks(marks: seq<bool>, usables: seq<seq<bool>>): (r: seq<Option<nat>>)
    requires marks != [] && forall t :: 0 <= t < |usables| ==> |usables[t]| == |marks|
    ensures |r| == |usables|
    decreases |usables|
  {
    if usables == [] then []
    else
      var p := Pick(LastUsed(marks), usables[0], 0);
      [p] + Picks(MarksAfter(|marks|, p), usables[1..])
  }

  /** A device that stays available is chosen within its distance. */
  lemma {:induction false} ChosenWithin(marks: seq<bool>, usables: seq<seq<bool>>, d: nat) returns (t: nat)
    requires d < |marks| && forall t :: 0 <= t < |usables| ==> |usables[t]| == |marks| && usables[t][d]
    requires Distance(LastUsed(marks), d, |marks|) < |usables|
    ensures t <= Distance(LastUsed(marks), d, |marks|) && Picks(marks, usables)[t] == Some(d)
    decreases Distance(LastUsed(marks), d, |marks|)
  {
    var c, last := |marks|, LastUsed(marks);
    var p := Pick(last, usables[0], 0);
    assert usables[0][ProbeAt(last, Distance(last, d, c), c)];
    if p == Some(d) {
      t := 0;
    } else {
      var next := MarksAfter(c, p);
      LastUsedOfOne(next, p.value);
      t := ChosenWithin(next, usables[1..], d);
      t := t + 1;
    }
  }

  /** Fairness: among c candidates, one that stays available is chosen at least
      once in any c consecutive requests, whatever happens to the others. */
  lemma Fairness(marks: seq<bool>, usables: seq<seq<bool>>, d: nat)
    requires d < |marks| <= |usables|
    requires forall t :: 0 <= t < |usables| ==> |usables[t]| == |marks| && usables[t][d]
    ensures exists t :: 0 <= t < |marks| && Picks(marks, usables)[t] == Some(d)
  {
    var t := ChosenWithin(marks, usables, d);
  }

  /** The bound is tight: with all available, the one used last comes last. */
  lemma {:induction false} EveryoneInTurn(marks: seq<bool>, usables: seq<seq<bool>>, t: nat)
    requires marks != [] && forall t :: 0 <= t < |usables| ==> |usables[t]| == |marks|
    requires forall t, k :: 0 <= t < |usables| && 0 <= k < |marks| ==> usables[t][k]
    requires t < |usables| && t < |marks|
    ensures Picks(marks, usables)[t] == Some(ProbeAt(LastUsed(marks), t, |marks|))
    decreases t
  {
    var c, last := |marks|, LastUsed(marks);
    var p := Pick(last, usables[0], 0);
    assert p == Some(ProbeAt(last, 0, c));
    if t > 0 {
      var next := MarksAfter(c, p);
      LastUsedOfOne(next, p.value);
      EveryoneInTurn(next, usables[1..], t - 1);
    }
  }

  // ------------------------------------------------------------- the request

  /** The candidates: the first 128 selected devices. */
  function Candidates(devices: seq<Device>, s: Selector): (c: seq<Device>)
    ensures |c| <= MAX_DEVICES
    ensures forall d :: d in c ==> d in devices && d.Selected(s)
  {
    if devices == [] then []
    else
      var n := |devices| - 1;
      var front := Candidates(devices[..n], s);
      if devices[n].Selected(s) && |front| < MAX_DEVICES then front + [devices[n]] else front
  }

  lemma {:induction false} CandidatesDistinct(devices: seq<Device>, s: Selector)
    requires Distinct(devices)
    ensures Distinct(Candidates(devices, s))
  {
    if devices != [] {
      CandidatesDistinct(devices[..|devices| - 1], s);
    }
  }

  /** The device is one of those that are asked for. */
  predicate Asked(d: Device, s: Selector) {
    && (s.Group? ==> d.group == s.group)
    && (s.Provider? ==> d.provider == s.name)
    && (s.Sim? ==> |s.imsi| <= |d.imsi| && d.imsi[..|s.imsi|] == s.imsi)
  }

  /** Where they are in the list. */
  ghost function Places(devices: seq<Device>, s: Selector): set<nat> {
    set j: nat | j < |devices| && Asked(devices[j], s)
  }

  lemma AskedIff(d: Device, s: Selector)
    ensures d.Selected(s) <==> Asked(d, s)
  {
  }

  lemma {:induction false} CandidateCount(devices: seq<Device>, s: Selector)
    ensures |Candidates(devices, s)| == Min(MAX_DEVICES, |Places(devices, s)|)
  {
    hide Device.Selected, Asked, Places;
    PlacesStep(devices, s);
    if devices != [] {
      var n := |devices| - 1;
      CandidateCount(devices[..n], s);
      AskedIff(devices[n], s);
    }
  }

  lemma PlacesStep(devices: seq<Device>, s: Selector)
    ensures devices == [] ==> Places(devices, s) == {}
    ensures devices != [] ==>
      var n := |devices| - 1;
      |Places(devices, s)| == |Places(devices[..n], s)| + if Asked(devices[n], s) then 1 else 0
  {
    hide Asked;
    if devices != [] {
      var n := |devices| - 1;
      var front := devices[..n];
      assert forall j | 0 <= j < n :: front[j] == devices[j];
      if Asked(devices[n], s) {
        assert Places(devices, s) == Places(front, s) + {n};
      } else {
        assert Places(devices, s) == Places(front, s);
      }
    }
  }

  /** The candidates are the first 128 devices that are asked for. */
  lemma {:induction false} CandidatesAre(devices: seq<Device>, s: Selector, k: nat)
    requires Distinct(devices) && k < |devices|
    ensures devices[k] in Candidates(devices, s) <==>
      Asked(devices[k], s) && |Places(devices[..k], s)| < MAX_DEVICES
    decreases |devices|
  {
    hide Device.Selected, Asked, Places;
    var n := |devices| - 1;
    var front := devices[..n];
    AskedIff(devices[n], s);
    CandidateCount(front, s);
    if k < n {
      CandidatesAre(front, s, k);
      assert front[..k] == devices[..k] && front[k] == devices[k] && devices[k] != devices[n];
    } else {
      assert devices[n] !in front;
    }
  }

  function Marks(c: seq<Device>, s: Selector): (m: seq<bool>)
    reads c
    ensures |m| == |c|
    ensures forall k :: 0 <= k < |c| ==> m[k] == c[k].Marked(s)
  {
    seq(|c|, k requires 0 <= k < |c| reads c => c[k].Marked(s))
  }

  function Usable(c: seq<Device>, usable: set<Device>): (u: seq<bool>)
    ensures |u| == |c|
  {
    seq(|c|, k requires 0 <= k < |c| => c[k] in usable)
  }

  lemma {:induction false} CandidatesFull(devices: seq<Device>, s: Selector, i: nat)
    requires i <= |devices| && |Candidates(devices[..i], s)| == MAX_DEVICES
    ensures Candidates(devices, s) == Candidates(devices[..i], s)
    decreases |devices|
  {
    if i == |devices| {
      assert devices[..i] == devices;
    } else {
      assert devices[..|devices| - 1][..i] == devices[..i];
      CandidatesFull(devices[..|devices| - 1], s, i);
    }
  }

  /** Device `d` joins the candidates; its mark, if any, is taken away. */
  method TakeMark(d: Device, s: Selector, c: nat, last: nat, ghost m: seq<bool>) returns (last1: nat)
    requires |m| == c && last == LastUsed(m)
    modifies d
    ensures !d.Marked(s)
    ensures forall o: Selector :: !SameMark(s, o) ==> d.Marked(o) == old(d.Marked(o))
    ensures last1 == LastUsed(m + [old(d.Marked(s))])
  {
    assert (m + [d.Marked(s)])[..c] == m;
    last1 := last;
    if d.Marked(s) {
      d.SetMark(s, false);
      last1 := c;
    }
  }

  /** The first loop: lists the candidates and takes their marks away. */
  method Collect(devices: seq<Device>, s: Selector) returns (c: seq<Device>, last: nat)
    requires Distinct(devices)
    modifies devices
    ensures c == Candidates(devices, s)
    ensures last == LastUsed(old(Marks(Candidates(devices, s), s)))
    ensures forall d :: d in c ==> !d.Marked(s)
    ensures forall d :: d in devices && d !in c ==> d.Marked(s) == old(d.Marked(s))
    ensures forall d, o: Selector :: d in devices && !SameMark(s, o) ==> d.Marked(o) == old(d.Marked(o))
  {
    hide LastUsed, Candidates, Device.Marked, Device.Selected;
    c, last := [], 0;
    ghost var m: seq<bool> := [];
    NoMarks(s);
    assert devices[..0] == [];
    var i := 0;
    while i < |devices| && |c| < MAX_DEVICES
      invariant 0 <= i <= |devices|
      invariant c == Candidates(devices[..i], s)
      invariant forall d :: d in c ==> d in devices[..i]
      invariant m == old(Marks(c, s)) && last == LastUsed(m)
      invariant forall d :: d in c ==> !d.Marked(s)
      invariant forall d :: d in devices && d !in c ==> d.Marked(s) == old(d.Marked(s))
      invariant forall d, o: Selector :: d in devices && !SameMark(s, o) ==> d.Marked(o) == old(d.Marked(o))
    {
      var d := devices[i];
      OneMoreDevice(devices, s, i);
      if d.Selected(s) {
        assert d !in c;
        last := TakeMark(d, s, |c|, last, m);
        m := m + [old(d.Marked(s))];
        c := c + [d];
        assert m == old(Marks(c, s));
      }
      i := i + 1;
    }
    if i == |devices| {
      assert devices[..i] == devices;
    } else {
      CandidatesFull(devices, s, i);
    }
  }

  lemma OneMoreDevice(devices: seq<Device>, s: Selector, i: nat)
    requires Distinct(devices) && i < |devices| && |Candidates(devices[..i], s)| < MAX_DEVICES
    ensures devices[i] !in devices[..i]
    ensures Candidates(devices[..i + 1], s) ==
      Candidates(devices[..i], s) + if devices[i].Selected(s) then [devices[i]] else []
  {
    assert devices[..i + 1][..i] == devices[..i];
  }

  lemma NoMarks(s: Selector)
    ensures LastUsed([]) == 0 && Candidates([], s) == []
  {
  }

  /** pvt_find_by_resource_fn for the three round-robin kinds of resource. The
      chosen device is the first usable one behind the last used, every candidate
      is probed at most once and in order, and only the chosen one keeps a mark. */
  method Find(devices: seq<Device>, s: Selector, usable: set<Device>)
    returns (found: Option<Device>, known: bool, ghost probed: seq<Device>)
    requires Distinct(devices)
    modifies devices
    ensures var c := Candidates(devices, s);
      && known == (c != [])
      && (c == [] ==> found.None?)
      && (c != [] ==>
            var last := LastUsed(old(Marks(c, s)));
            var p := Pick(last, Usable(c, usable), 0);
            && found == (if p.Some? then Some(c[p.value]) else None)
            && Marks(c, s) == MarksAfter(|c|, p)
            && |probed| == (if p.Some? then Distance(last, p.value, |c|) + 1 else |c|)
            && forall i :: 0 <= i < |probed| ==> probed[i] == c[ProbeAt(last, i, |c|)])
    ensures found.Some? ==> found.value in devices && found.value in usable && Asked(found.value, s)
    ensures found.None? ==> forall k :: 0 <= k < |devices| && Asked(devices[k], s) && devices[k] in usable ==>
      |Places(devices[..k], s)| >= MAX_DEVICES
    ensures forall d, o: Selector :: d in devices ==>
      d.Marked(o) == if SameMark(s, o) && d in Candidates(devices, s) then found == Some(d) else old(d.Marked(o))
  {
    hide LastUsed, Candidates, Pick, Device.Marked, SameMark, Asked, Places, Device.Selected;
    CandidatesDistinct(devices, s);
    forall k | 0 <= k < |devices| ensures devices[k] in Candidates(devices, s) <==>
      Asked(devices[k], s) && |Places(devices[..k], s)| < MAX_DEVICES
    {
      CandidatesAre(devices, s, k);
    }
    SharedMark(devices, s);
    var c, last := Collect(devices, s);
    found := None;
    if c == [] {
      EmptyMarks(c, s, found);
      known, probed := false, [];
    } else {
      var at;
      at, probed := Probe(c, s, last, usable);
      found := if at.Some? then Some(c[at.value]) else None;
      known := true;
      OnlyFound(c, s, at);
      FoundIsUsable(c, last, usable);
      if at.Some? { AskedIff(c[at.value], s); }
    }
    SharedMark(devices, s);
  }

  lemma SharedMark(devices: seq<Device>, s: Selector)
    ensures forall d, o: Selector :: d in devices && SameMark(s, o) ==> d.Marked(o) == d.Marked(s)
  {
  }

  lemma EmptyMarks(c: seq<Device>, s: Selector, found: Option<Device>)
    requires c == []
    ensures forall d :: d in c ==> d.Marked(s) == (found == Some(d))
  {
  }

  /** The choice is a usable candidate, and there is one if any candidate is usable. */
  lemma FoundIsUsable(c: seq<Device>, last: nat, usable: set<Device>)
    requires last < |c|
    ensures var p := Pick(last, Usable(c, usable), 0);
      && (p.Some? ==> p.value < |c| && c[p.value] in usable)
      && (p.None? ==> forall d :: d in c ==> d !in usable)
  {
    hide Pick;
    var u := Usable(c, usable);
    var p := Pick(last, u, 0);
    if p.None? {
      forall k | 0 <= k < |c| ensures c[k] !in usable {
        assert !u[ProbeAt(last, Distance(last, k, |c|), |c|)];
      }
    }
  }

  lemma OnlyFound(c: seq<Device>, s: Selector, at: Option<nat>)
    requires Distinct(c) && Marks(c, s) == MarksAfter(|c|, at) && (at.Some? ==> at.value < |c|)
    ensures forall d :: d in c ==> d.Marked(s) == (at.Some? && c[at.value] == d)
  {
    hide Device.Marked;
    forall k | 0 <= k < |c| ensures c[k].Marked(s) == (at.Some? && c[at.value] == c[k]) {
      assert Marks(c, s)[k] == MarksAfter(|c|, at)[k];
    }
  }

  lemma FirstProbe(last: nat, c: nat)
    requires last < c
    ensures ProbeAt(last, 0, c) == if last + 1 == c then 0 else last + 1
  {
  }

  lemma PickStep(last: nat, u: seq<bool>, i: nat, j: nat)
    requires last < |u| && i < |u| && j == ProbeAt(last, i, |u|)
    ensures j < |u|
    ensures if u[j] then Pick(last, u, i) == Some(j) && Distance(last, j, |u|) == i
            else Pick(last, u, i) == Pick(last, u, i + 1)
    ensures i + 1 < |u| ==> ProbeAt(last, i + 1, |u|) == if j + 1 == |u| then 0 else j + 1
    ensures Pick(last, u, |u|).None?
  {
  }

  /** The second loop: probes the candidates from the one behind `last` on. */
  method Probe(c: seq<Device>, s: Selector, last: nat, usable: set<Device>)
    returns (at: Option<nat>, ghost probed: seq<Device>)
    requires Distinct(c) && last < |c| && forall d :: d in c ==> !d.Marked(s)
    modifies c
    ensures at == Pick(last, Usable(c, usable), 0)
    ensures Marks(c, s) == MarksAfter(|c|, at)
    ensures |probed| == if at.Some? then Distance(last, at.value, |c|) + 1 else |c|
    ensures forall i :: 0 <= i < |probed| ==> probed[i] == c[ProbeAt(last, i, |c|)]
    ensures forall d, o: Selector :: d in c && !SameMark(s, o) ==> d.Marked(o) == old(d.Marked(o))
  {
    hide Pick, ProbeAt, Distance, Usable, Device.Marked;
    at, probed := Search(c, last, usable);
    if at.Some? { Mark(c, s, at.value); } else { NoneMarked(c, s); }
  }

  lemma NoneMarked(c: seq<Device>, s: Selector)
    requires forall d :: d in c ==> !d.Marked(s)
    ensures Marks(c, s) == MarksAfter(|c|, None)
  {
  }

  /** The chosen candidate is marked, and no other. */
  method Mark(c: seq<Device>, s: Selector, i: nat)
    requires Distinct(c) && i < |c| && forall d :: d in c ==> !d.Marked(s)
    modifies c[i]
    ensures Marks(c, s) == MarksAfter(|c|, Some(i))
    ensures forall o: Selector :: !SameMark(s, o) ==> c[i].Marked(o) == old(c[i].Marked(o))
  {
    hide Device.Marked, Marks, MarksAfter;
    c[i].SetMark(s, true);
    forall k | 0 <= k < |c| ensures c[k].Marked(s) == (k == i) {
      if k != i { assert c[k] != c[i] && c[k] in c; }
    }
    OneMarked(c, s, i);
  }

  lemma OneMarked(c: seq<Device>, s: Selector, i: nat)
    requires i < |c| && forall k :: 0 <= k < |c| ==> c[k].Marked(s) == (k == i)
    ensures Marks(c, s) == MarksAfter(|c|, Some(i))
  {
    hide Device.Marked;
  }

  method Search(c: seq<Device>, last: nat, usable: set<Device>)
    returns (at: Option<nat>, ghost probed: seq<Device>)
    requires last < |c|
    ensures at == Pick(last, Usable(c, usable), 0)
    ensures |probed| == if at.Some? then Distance(last, at.value, |c|) + 1 else |c|
    ensures forall i :: 0 <= i < |probed| ==> probed[i] == c[ProbeAt(last, i, |c|)]
  {
    hide Pick, ProbeAt, Distance;
    ghost var u := Usable(c, usable);
    at, probed := None, [];
    FirstProbe(last, |c|);
    var i, j := 0, last + 1;
    while i < |c|
      invariant 0 <= i <= |c|
      invariant i < |c| ==> j <= |c| && (if j == |c| then 0 else j) == ProbeAt(last, i, |c|)
      invariant Pick(last, u, i) == Pick(last, u, 0)
      invariant |probed| == i && forall k :: 0 <= k < i ==> probed[k] == c[ProbeAt(last, k, |c|)]
    {
      if j == |c| {
        j := 0;
      }
      probed := probed + [c[j]];
      PickStep(last, u, i, j);
      if c[j] in usable {
        return Some(j), probed;
      }
      i, j := i + 1, j + 1;
    }
  }

  /** No device is probed twice by one request. */
  lemma ProbesDiffer(devices: seq<Device>, s: Selector, last: nat, i: nat, k: nat)
    requires Distinct(devices) && last < |Candidates(devices, s)| && i < k < |Candidates(devices, s)|
    ensures var c := Candidates(devices, s); c[ProbeAt(last, i, |c|)] != c[ProbeAt(last, k, |c|)]
  {
    CandidatesDistinct(devices, s);
  }
}
