/** What the framing of at_read_result_iov promises over whole runs: responses come
    out one by one, the same for every way the serial line cuts the stream into
    reads and for every position of the ring's seam, as long as the seam does not
    hide the end of a listing. */
module FramingRuns {
  import opened Basics
  import opened RingSearch
  import opened Framing
  import opened Listings
  import opened FramingItems

  // ------------------------------------------------------- where the seam hides an end

  /** No call of the drain loop meets a complete listing whose end the seam hides. */
  ghost predicate DrainClear(v: View, inside: bool, m: Image)
    requires v.Valid() && m.Valid()
    decreases |v.data|
  {
    var p := ReadResult(v, inside, m);
    !Misses(p.v, m) && (p.out.Result? ==> DrainClear(p.v.Drop(p.out.len + p.out.skip), p.inside, m))
  }

  ghost predicate RunClear(v: View, inside: bool, chunks: seq<seq<byte>>, m: Image)
    requires v.Valid() && m.Valid() && Fits(v, inside, chunks, m)
    decreases |chunks|
  {
    chunks == [] ||
    (&& DrainClear(Receive(v, chunks[0]), inside, m)
     && var d := Drain(Receive(v, chunks[0]), inside, m);
        RunClear(d.v, d.inside, chunks[1..], m))
  }

  // ------------------------------------------------------------------ clear runs

  lemma ExpectedNone(items: seq<Item>)
    ensures Expected(items[..0]) == []
  {
  }

  lemma AtStart(items: seq<Item>)
    ensures At(false, Stream(items), items)
    ensures Stream(items) == [] ==> items == []
  {
  }

  function Answer(it: Item): seq<seq<byte>> {
    if Text(it) == [] then [] else [Text(it)]
  }

  lemma ExpectedSplit(items: seq<Item>, k: nat)
    requires 0 < k <= |items|
    ensures Expected(items[..k]) == Answer(items[0]) + Expected(items[1..][..k - 1])
  {
    assert items[..k][1..] == items[1..][..k - 1];
  }

  lemma {:induction false} ExpectedConcat(a: seq<Item>, b: seq<Item>)
    ensures Expected(a + b) == Expected(a) + Expected(b)
  {
    if a == [] {
      assert a + b == b;
    } else {
      assert (a + b)[1..] == a[1..] + b;
      ExpectedConcat(a[1..], b);
    }
  }

  /** What `Steps` says of a result, for the drain loop. */
  lemma Reported(p: Parsed, f: seq<byte>, items: seq<Item>)
    requires Steps(p, f, items) && p.out.Result? && p.v.Valid() && p.out.len + p.out.skip > 0
    ensures items != [] && p.out.len + p.out.skip <= |p.v.data|
    ensures Handed(p) == Answer(items[0])
    ensures At(p.inside, p.v.Drop(p.out.len + p.out.skip).data + f, items[1..])
  {
    hide At, Text;
    if p.out.len == 0 { assert p.v.data[..0] == []; }
  }

  lemma Waiting(p: Parsed, f: seq<byte>, items: seq<Item>)
    requires Steps(p, f, items) && p.out.Wait?
    ensures At(p.inside, p.v.data + f, items) && (f == [] ==> items == [])
  {
  }

  /** One pass of the drain loop reports the next k items and no others. */
  lemma {:induction false} DrainStep(v: View, inside: bool, f: seq<byte>, items: seq<Item>, m: Image) returns (k: nat)
    requires v.Valid() && m.Valid() && ValidItems(items)
    requires At(inside, v.data + f, items) && DrainClear(v, inside, m)
    ensures k <= |items|
    ensures var d := Drain(v, inside, m);
      && d.results == Expected(items[..k])
      && At(d.inside, d.v.data + f, items[k..])
      && (f == [] ==> k == |items|)
    decreases |v.data|
  {
    hide ReadResult, At, Expected, Text, Answer, Steps, Handed, ValidItems, Misses, IsListing, Inside;
    ResultStep(v, inside, f, items, m);
    var p := ReadResult(v, inside, m);
    if p.out.Wait? {
      k := 0;
      Waiting(p, f, items);
      ExpectedNone(items);
      assert items[0..] == items;
    } else {
      Reported(p, f, items);
      ValidTail(items, 1);
      k := DrainStep(p.v.Drop(p.out.len + p.out.skip), p.inside, f, items[1..], m);
      k := k + 1;
      ExpectedSplit(items, k);
      assert items[1..][k - 1..] == items[k..];
    }
  }

  /** At any moment of a run, with `f` not yet delivered, the results so far are
      those of a prefix of the items; nothing is pending once all is delivered. */
  lemma {:induction false} RunStep(
    v: View, inside: bool, chunks: seq<seq<byte>>, f: seq<byte>, items: seq<Item>, m: Image) returns (k: nat)
    requires v.Valid() && m.Valid() && ValidItems(items) && Fits(v, inside, chunks, m)
    requires At(inside, v.data + Flatten(chunks) + f, items) && RunClear(v, inside, chunks, m)
    requires chunks == [] && f == [] ==> items == []
    ensures k <= |items|
    ensures var d := Run(v, inside, chunks, m);
      && d.results == Expected(items[..k])
      && At(d.inside, d.v.data + f, items[k..])
      && (f == [] ==> k == |items|)
    decreases |chunks|
  {
    hide Drain, At, Expected, ValidItems, DrainClear;
    if chunks == [] {
      k := 0;
      ExpectedNone(items);
      assert v.data + Flatten(chunks) + f == v.data + f;
      assert items[0..] == items;
    } else {
      var r := Receive(v, chunks[0]);
      var later := Flatten(chunks[1..]) + f;
      assert v.data + Flatten(chunks) + f == r.data + later;
      var i := DrainStep(r, inside, later, items, m);
      var d := Drain(r, inside, m);
      assert d.v.data + later == d.v.data + Flatten(chunks[1..]) + f;
      if chunks[1..] == [] && f == [] {
        assert later == [];
      }
      ValidTail(items, i);
      var j := RunStep(d.v, d.inside, chunks[1..], f, items[i..], m);
      k := i + j;
      CutTwice(items, i, j);
    }
  }

  lemma CutTwice(items: seq<Item>, i: nat, j: nat)
    requires i + j <= |items|
    ensures items[i..][j..] == items[i + j..]
    ensures Expected(items[..i + j]) == Expected(items[..i]) + Expected(items[i..][..j])
  {
    assert items[..i + j] == items[..i] + items[i..][..j];
    ExpectedConcat(items[..i], items[i..][..j]);
  }

  // -------------------------------------------------------------- hidden listings

  /** A complete listing, or an entry with the next one's header behind it, waits in
      the ring, and the seam hides its end. */
  ghost predicate Hidden(v: View, inside: bool, t: seq<byte>)
    requires v.Valid()
  {
    && inside
    && ((IsListing(t) && t + T_OK <= v.data && BadStraddle(|t| + 8 - |v.Head()|)) ||
        (IsEntry(t) && t + T_CMGL <= v.data && BadHeader(|t| + 8 - |v.Head()|)))
  }

  /** No result, or a first one that is longer than the listing. */
  predicate Longer(results: seq<seq<byte>>, t: seq<byte>) {
    results == [] || |results[0]| > |t|
  }

  /** Nothing that arrives later makes the search find the hidden end. */
  lemma HiddenInside(v: View, t: seq<byte>, m: Image)
    requires v.Valid() && m.Valid() && Hidden(v, true, t)
    ensures var p := Inside(v, m);
      p.v == v && (p.out.Wait? ==> p.inside) && (p.out.Result? ==> p.out.len > |t|)
  {
    hide IsPrefix, StartsListing, StartsTwoLines, UntilMem, Find, IsListing, IsEntry;
    var c := v.data;
    if IsListing(t) && t + T_OK <= c && BadStraddle(|t| + 8 - |v.Head()|) {
      assert t == (t + T_OK)[..|t|] == c[..|t|];
      ListingHeaded(t);
      StillHeaded(t, c);
      NoPrompt(c);
      SameHeader(t, c, c);
      OkSearch(v, t, c, m);
      if IsPrefix(CMGL, c) { LastSearch(v, t, c, m); }
    } else {
      EntryHeaded(t);
      assert t == (t + T_CMGL)[..|t|] == c[..|t|];
      StillHeaded(t, c);
      NoPrompt(c);
      EntryHeader(t, c, c);
      HeaderSearch(v, t, c, m);
    }
  }

  lemma EntryHeaded(t: seq<byte>)
    requires IsEntry(t)
    ensures Headed(t)
  {
    hide Clean, Headlike;
  }

  lemma HiddenDrain(v: View, t: seq<byte>, m: Image)
    requires v.Valid() && m.Valid() && Hidden(v, true, t)
    ensures var d := Drain(v, true, m);
      Longer(d.results, t) && (d.results == [] ==> d.v == v && d.inside)
  {
    hide Hidden, Inside;
    assert v.data != [] by { HiddenData(v, t); }
    HiddenInside(v, t, m);
    assert ReadResult(v, true, m) == Inside(v, m);
  }

  lemma HiddenData(v: View, t: seq<byte>)
    requires v.Valid() && Hidden(v, true, t)
    ensures v.data != []
  {
  }

  lemma {:induction false} HiddenRun(v: View, chunks: seq<seq<byte>>, t: seq<byte>, m: Image)
    requires v.Valid() && m.Valid() && Hidden(v, true, t) && Fits(v, true, chunks, m)
    ensures Longer(Run(v, true, chunks, m).results, t)
    decreases |chunks|
  {
    hide Hidden, Drain;
    if chunks != [] {
      var r := Receive(v, chunks[0]);
      StaysHidden(v, chunks[0], t);
      HiddenDrain(r, t, m);
      var d := Drain(r, true, m);
      if d.results == [] { HiddenRun(d.v, chunks[1..], t, m); }
    }
  }

  lemma StaysHidden(v: View, chunk: seq<byte>, t: seq<byte>)
    requires v.Valid() && Hidden(v, true, t) && Receive(v, chunk).Valid()
    ensures Hidden(Receive(v, chunk), true, t)
  {
    hide IsListing, IsEntry;
    var r := Receive(v, chunk);
    assert t + T_OK <= v.data ==> r.data[..|t + T_OK|] == v.data[..|t + T_OK|];
    assert t + T_CMGL <= v.data ==> r.data[..|t + T_CMGL|] == v.data[..|t + T_CMGL|];
  }

  lemma MissesLong(v: View, m: Image)
    requires v.Valid() && m.Valid() && Misses(v, m)
    ensures |v.data| >= 8 && Headed(v.data)
  {
  }

  /** The item's end is searched. */
  ghost predicate Sought(it: Item) {
    (it.Listing? && IsListing(it.text)) || (it.Entry? && IsEntry(it.text))
  }

  /** The call reports too much for the response t, or waits with its end hidden. */
  ghost predicate Misled(v: View, t: seq<byte>, m: Image)
    requires v.Valid() && m.Valid() && v.data != []
  {
    var p := Inside(v, m);
    (p.out.Wait? ==> p.inside && Hidden(v, true, t)) && (p.out.Result? ==> p.out.len > |t|)
  }

  lemma MissedInside(v: View, f: seq<byte>, items: seq<Item>, m: Image)
    requires v.Valid() && m.Valid() && v.data != [] && ValidItems(items) && At(true, v.data + f, items) && Misses(v, m)
    ensures items != [] && Sought(items[0]) && Misled(v, items[0].text, m)
  {
    hide IsPrefix, StartsListing, StartsTwoLines, Stream, IsListing, IsEntry, OneLine, Misled, Misses;
    var c, w, rest := v.data, v.data + f, items[1..];
    assert ValidItem(items[0]);
    MissesLong(v, m);
    if items[0].Line? || items[0].Bare? {
      assert LineAt(w, 0, items[0].text);
      HeadersAbsent(items[0].text, w, c);
    } else if items[0].Prompt? {
      assert c[0] == w[0] == PROMPT[0];
      ListingHeader(c);
    } else if items[0].TwoLines? {
      assert LineAt(w, 0, items[0].first);
      HeadersAbsent(items[0].first, w, c);
      TwoLinesHeader(items[0].first);
    } else if items[0].Listing? {
      ListingMissed(v, f, items[0].text, rest, m) by { assert OkFollows(items, 0); }
    } else {
      assert items == [items[0]] + rest;
      EntryMissed(v, f, items[0].text, rest, m) by { assert EntryFollows(items, 0); }
    }
  }

  lemma ListingMissed(v: View, f: seq<byte>, t: seq<byte>, rest: seq<Item>, m: Image)
    requires v.Valid() && m.Valid() && v.data != [] && IsListing(t) && Misses(v, m)
    requires rest != [] && rest[0] == Line(OK_LINE) && v.data + f == t + EOL + Stream(rest)
    ensures Misled(v, t, m)
  {
    hide StartsListing, StartsTwoLines, IsPrefix, Find, UntilMem, Stream, IsListing, IsEntry, BadStraddle;
    var c, w, x := v.data, v.data + f, Stream(rest[1..]);
    OkStream(rest);
    assert w == t + (EOL + Stream(rest)) == t + (T_OK + x) == t + T_OK + x;
    MissesLong(v, m);
    ListingHeaded(t);
    SameHeader(t, c, w);
    OneHeader(c);
    NoPrompt(c);
    OkSearch(v, t, w, m);
    if IsPrefix(CMGL, c) { LastSearch(v, t, w, m); }
    assert |c| >= |t| + 8;
    assert c[..|t| + 8] == w[..|t| + 8] == t + T_OK;
    if BadStraddle(|t| + 8 - |v.Head()|) { HiddenInside(v, t, m); }
  }

  lemma EntryMissed(v: View, f: seq<byte>, t: seq<byte>, rest: seq<Item>, m: Image)
    requires v.Valid() && m.Valid() && v.data != [] && IsEntry(t) && Misses(v, m)
    requires EntryFollows([Entry(t)] + rest, 0) && v.data + f == t + Stream(rest)
    ensures Misled(v, t, m)
  {
    hide StartsListing, StartsTwoLines, IsPrefix, Find, UntilMem, Stream, IsListing, IsEntry, BadHeader;
    var c, w := v.data, v.data + f;
    assert ([Entry(t)] + rest)[1] == rest[0];
    NextHeader(rest);
    assert t + T_CMGL <= w by { assert w[..|t + T_CMGL|] == t + Stream(rest)[..8]; }
    MissesLong(v, m);
    EntryHeader(t, c, w);
    NoPrompt(c);
    HeaderSearch(v, t, w, m);
    assert |c| >= |t| + 8;
    assert c[..|t| + 8] == w[..|t| + 8] == t + T_CMGL;
    HiddenInside(v, t, m);
  }

  lemma ListingHeader(c: seq<byte>)
    requires Headed(c)
    ensures c != [] && c[0] != PROMPT[0]
  {
  }

  /** The call that meets a hidden end stands inside that listing. */
  lemma {:induction false} MissedItem(v: View, inside: bool, f: seq<byte>, items: seq<Item>, m: Image)
    requires v.Valid() && m.Valid() && ValidItems(items) && At(inside, v.data + f, items)
    requires Misses(ReadResult(v, inside, m).v, m)
    ensures var p := ReadResult(v, inside, m);
      && p.v.data != [] && items != [] && p == Inside(p.v, m)
      && Sought(items[0]) && Misled(p.v, items[0].text, m)
    decreases |v.data|, if inside then 0 else 1
  {
    hide Inside, UntilChar, IsPrefix, Text, ValidItem, ValidItems, At, Stream, Body, Misses, Misled, Sought, Headed;
    var c := v.data;
    MissesLong(ReadResult(v, inside, m).v, m);
    if inside {
      MissedInside(v, f, items, m);
    } else {
      BetweenItems(c, f, items);
      if c[0] == LF {
        MissedItem(v.Drop(1), false, f, items, m);
      } else if c[..2] == EOL {
        MissedItem(v.Drop(2), true, f, items, m);
      } else {
        MissedItem(v, true, f, items, m);
      }
    }
  }

  /** A run with a hidden end: some items are reported, then nothing, or something
      longer than the listing that comes next. */
  ghost predicate Breaks(results: seq<seq<byte>>, items: seq<Item>, k: nat) {
    && k < |items| && Sought(items[k])
    && |Expected(items[..k])| <= |results| && results[..|Expected(items[..k])|] == Expected(items[..k])
    && Longer(results[|Expected(items[..k])|..], items[k].text)
  }

  lemma BreaksAtOnce(results: seq<seq<byte>>, items: seq<Item>)
    requires items != [] && Sought(items[0]) && Longer(results, items[0].text)
    ensures Breaks(results, items, 0) && Expected(items[..0]) == []
  {
    hide Sought;
    assert results[..0] == [] && results[0..] == results;
  }

  lemma ExpectedOne(items: seq<Item>)
    requires items != []
    ensures Expected(items[..1]) == Answer(items[0])
  {
    ExpectedSplit(items, 1);
    ExpectedNone(items[1..]);
    assert Answer(items[0]) + [] == Answer(items[0]);
  }

  lemma HandedLonger(p: Parsed, t: seq<byte>)
    requires p.out.Result? && |t| < p.out.len <= |p.v.data|
    ensures |Handed(p)| == 1 && |Handed(p)[0]| > |t|
  {
  }

  lemma BreaksLater(head: seq<seq<byte>>, results: seq<seq<byte>>, items: seq<Item>, i: nat, k: nat)
    requires i <= |items| && head == Expected(items[..i]) && Breaks(results, items[i..], k)
    ensures Breaks(head + results, items, i + k)
  {
    hide Sought, Expected;
    CutTwice(items, i, k);
    var n := |Expected(items[i..][..k])|;
    var all := head + results;
    assert all[..|head| + n] == head + results[..n];
    assert all[|head| + n..] == results[n..];
  }

  lemma BreaksOn(results: seq<seq<byte>>, more: seq<seq<byte>>, items: seq<Item>, k: nat)
    requires Breaks(results, items, k) && results[|Expected(items[..k])|..] != []
    ensures Breaks(results + more, items, k)
  {
    hide Sought, Expected;
    var n := |Expected(items[..k])|;
    assert (results + more)[..n] == results[..n];
    assert (results + more)[n..] == results[n..] + more;
  }

  /** A drain that comes to a hidden end reports nothing for it, or too much. */
  lemma DrainMisses(v: View, inside: bool, f: seq<byte>, items: seq<Item>, m: Image)
    requires v.Valid() && m.Valid() && ValidItems(items)
    requires At(inside, v.data + f, items) && Misses(ReadResult(v, inside, m).v, m)
    ensures var d := Drain(v, inside, m);
      && Breaks(d.results, items, 0)
      && (|d.results| == |Expected(items[..0])| ==> Hidden(d.v, d.inside, items[0].text))
  {
    hide ReadResult, At, Expected, Text, Answer, Steps, Handed, ValidItems, Misses, Hidden, Sought, Inside, Breaks;
    var p := ReadResult(v, inside, m);
    MissedItem(v, inside, f, items, m);
    SoughtText(items[0]);
    if p.out.Result? { HandedLonger(p, items[0].text); }
    BreaksAtOnce(Drain(v, inside, m).results, items);
  }

  lemma {:induction false} DrainBreaks(v: View, inside: bool, f: seq<byte>, items: seq<Item>, m: Image) returns (k: nat)
    requires v.Valid() && m.Valid() && ValidItems(items)
    requires At(inside, v.data + f, items) && !DrainClear(v, inside, m)
    ensures var d := Drain(v, inside, m);
      && Breaks(d.results, items, k)
      && (|d.results| == |Expected(items[..k])| ==> Hidden(d.v, d.inside, items[k].text))
    decreases |v.data|
  {
    hide ReadResult, At, Expected, Text, Answer, Steps, Handed, ValidItems, Misses, Hidden, Sought, Inside, Breaks;
    var p := ReadResult(v, inside, m);
    if Misses(p.v, m) {
      k := 0;
      DrainMisses(v, inside, f, items, m);
    } else {
      ResultStep(v, inside, f, items, m);
      Reported(p, f, items);
      ValidTail(items, 1);
      k := DrainBreaks(p.v.Drop(p.out.len + p.out.skip), p.inside, f, items[1..], m);
      ExpectedOne(items);
      var d := Drain(p.v.Drop(p.out.len + p.out.skip), p.inside, m);
      BreaksLater(Handed(p), d.results, items, 1, k);
      BreaksAt(d.results, items[1..], k);
      CutTwice(items, 1, k);
      k := k + 1;
    }
  }

  lemma BreaksAt(results: seq<seq<byte>>, items: seq<Item>, k: nat)
    requires Breaks(results, items, k)
    ensures k < |items| && Sought(items[k])
  {
    hide Sought;
  }

  lemma {:induction false} RunBreaks(
    v: View, inside: bool, chunks: seq<seq<byte>>, f: seq<byte>, items: seq<Item>, m: Image) returns (k: nat)
    requires v.Valid() && m.Valid() && ValidItems(items) && Fits(v, inside, chunks, m)
    requires At(inside, v.data + Flatten(chunks) + f, items) && !RunClear(v, inside, chunks, m)
    ensures Breaks(Run(v, inside, chunks, m).results, items, k)
    decreases |chunks|
  {
    hide Drain, At, Expected, ValidItems, DrainClear, Hidden, Sought, Breaks, Longer;
    var r := Receive(v, chunks[0]);
    var later := Flatten(chunks[1..]) + f;
    assert v.data + Flatten(chunks) + f == r.data + later;
    var d := Drain(r, inside, m);
    if DrainClear(r, inside, m) {
      var i := DrainStep(r, inside, later, items, m);
      assert d.v.data + later == d.v.data + Flatten(chunks[1..]) + f;
      ValidTail(items, i);
      var j := RunBreaks(d.v, d.inside, chunks[1..], f, items[i..], m);
      k := i + j;
      BreaksLater(d.results, Run(d.v, d.inside, chunks[1..], m).results, items, i, j);
    } else {
      k := DrainBreaks(r, inside, later, items, m);
      BreaksRest(d, chunks[1..], items, k, m);
    }
  }

  /** After a drain that met a hidden end, the rest of the run does not mend it. */
  lemma BreaksRest(d: Drained, chunks: seq<seq<byte>>, items: seq<Item>, k: nat, m: Image)
    requires d.v.Valid() && m.Valid() && Fits(d.v, d.inside, chunks, m) && Breaks(d.results, items, k)
    requires |d.results| == |Expected(items[..k])| ==> Hidden(d.v, d.inside, items[k].text)
    ensures Breaks(d.results + Run(d.v, d.inside, chunks, m).results, items, k)
  {
    hide Expected, Hidden, Sought, Run;
    var n, rest := |Expected(items[..k])|, Run(d.v, d.inside, chunks, m).results;
    SoughtText(items[k]);
    if |d.results| == n {
      assert Hidden(d.v, true, items[k].text) by { HiddenIsInside(d.v, d.inside, items[k].text); }
      HiddenIsInside(d.v, d.inside, items[k].text);
      HiddenRun(d.v, chunks, items[k].text, m);
      assert (d.results + rest)[n..] == rest;
      assert (d.results + rest)[..n] == d.results == d.results[..n];
    } else {
      BreaksOn(d.results, rest, items, k);
    }
  }

  lemma HiddenIsInside(v: View, inside: bool, t: seq<byte>)
    requires v.Valid() && Hidden(v, inside, t)
    ensures inside
  {
  }

  lemma BreaksDiffers(results: seq<seq<byte>>, items: seq<Item>, k: nat)
    requires Breaks(results, items, k)
    ensures results != Expected(items)
  {
    hide Sought;
    SoughtText(items[k]);
    var n, t := |Expected(items[..k])|, items[k].text;
    assert items == items[..k] + items[k..];
    ExpectedConcat(items[..k], items[k..]);
    assert Expected(items)[n] == t;
    if |results| > n { assert results[n] == results[n..][0]; }
  }

  lemma SoughtText(it: Item)
    requires Sought(it)
    ensures (it.Listing? || it.Entry?) && it.text != [] && Text(it) == it.text
  {
    hide Clean, Headlike, IsPrefix;
    if it.Listing? { OneHeader(it.text); } else { OneHeader(it.text); }
  }

  // ---------------------------------------------------------------- main results

  /** However the bytes of the items are cut into reads and wherever the ring
      starts, the non-empty results are exactly the items, if and only if no call
      meets a complete listing whose end lies across the seam with 3, 5, 6 or 7
      bytes behind it. */
  lemma EveryCutGivesTheItemsIff(size: nat, read: nat, chunks: seq<seq<byte>>, items: seq<Item>, m: Image)
    requires m.Valid() && ValidItems(items) && Flatten(chunks) == Stream(items)
    requires View(size, read, []).Valid() && Fits(View(size, read, []), false, chunks, m)
    ensures Run(View(size, read, []), false, chunks, m).results == Expected(items) <==>
      RunClear(View(size, read, []), false, chunks, m)
    ensures RunClear(View(size, read, []), false, chunks, m) ==>
      var d := Run(View(size, read, []), false, chunks, m);
      !d.inside && (d.v.data == [] || d.v.data == [LF])
  {
    hide Run, RunClear, At, Expected, Fits, ValidItems, Flatten;
    var v := View(size, read, []);
    assert v.data + Flatten(chunks) + [] == Stream(items);
    AtStart(items);
    if RunClear(v, false, chunks, m) {
      EmptyFlatten(chunks);
      var k := RunStep(v, false, chunks, [], items, m);
      assert items[..k] == items && items[k..] == [];
      var d := Run(v, false, chunks, m);
      assert d.v.data + [] == d.v.data;
      AtEnd(d.inside, d.v.data);
    } else {
      var k := RunBreaks(v, false, chunks, [], items, m);
      BreaksDiffers(Run(v, false, chunks, m).results, items, k);
    }
  }

  lemma EmptyFlatten(chunks: seq<seq<byte>>)
    ensures chunks == [] ==> Flatten(chunks) == []
  {
  }

  lemma AtEnd(inside: bool, w: seq<byte>)
    requires At(inside, w, [])
    ensures !inside && (w == [] || w == [LF])
  {
  }

  /** In the middle of a stream: what has come out is the beginning of the items. */
  lemma EveryPrefixGivesAPrefix(size: nat, read: nat, chunks: seq<seq<byte>>, f: seq<byte>, items: seq<Item>, m: Image)
    requires m.Valid() && ValidItems(items) && Flatten(chunks) + f == Stream(items)
    requires View(size, read, []).Valid() && Fits(View(size, read, []), false, chunks, m)
    requires RunClear(View(size, read, []), false, chunks, m)
    ensures Run(View(size, read, []), false, chunks, m).results <= Expected(items)
  {
    var v := View(size, read, []);
    hide Run, Drain, At, Expected, Fits, ValidItem, RunClear;
    assert v.data + Flatten(chunks) + f == Flatten(chunks) + f;
    AtStart(items);
    var k := RunStep(v, false, chunks, f, items, m);
    assert items == items[..k] + items[k..];
    ExpectedConcat(items[..k], items[k..]);
  }

  predicate NoListing(items: seq<Item>) {
    forall i :: 0 <= i < |items| ==> !items[i].Listing? && !items[i].Entry?
  }

  /** Without listings every run is clear. */
  lemma ClearWithoutListings(size: nat, read: nat, chunks: seq<seq<byte>>, f: seq<byte>, items: seq<Item>, m: Image)
    requires m.Valid() && ValidItems(items) && NoListing(items) && Flatten(chunks) + f == Stream(items)
    requires View(size, read, []).Valid() && Fits(View(size, read, []), false, chunks, m)
    ensures RunClear(View(size, read, []), false, chunks, m)
  {
    hide Run, RunClear, At, Expected, Fits, ValidItems, Flatten;
    var v := View(size, read, []);
    assert v.data + Flatten(chunks) + f == Stream(items);
    AtStart(items);
    if !RunClear(v, false, chunks, m) {
      var k := RunBreaks(v, false, chunks, f, items, m);
    }
  }

  /** A complete answer to +CMGR with the last three bytes behind the seam: its end
      is in the queue, and the parser waits for it. */
  lemma MissedEnd(m: Image)
    requires m.Valid()
    ensures var v := View(18, 6, CMGR + [49] + T_OK);
      && v.Valid() && Misses(v, m) && Find(v.data, T_OK, 0) == Some(7)
      && Inside(v, m) == Parsed(v, true, Wait)
  {
    hide UntilMem, Find, IsPrefix, StartsTwoLines, IsListing;
    var t := CMGR + [49];
    var v := View(18, 6, t + T_OK);
    assert v.data == CMGR + [49] + T_OK;
    assert |v.Head()| == 12;
    SmallListing(t);
    OkSearch(v, t, v.data, m);
    StillHeaded(t, v.data);
    SameHeader(t, v.data, v.data);
    NoPrompt(v.data);
  }

  /** "+CMG" */
  const HEADER: seq<byte> := [43, 67, 77, 71]

  /** It comes in two reads behind a prompt, which is reported while the answer is
      still arriving, so that the ring does not start over. */
  function MissedChunks(): seq<seq<byte>> {
    [EOL + PROMPT + EOL + HEADER, [82, 58, 49] + T_OK]
  }

  const MISSED_ITEMS: seq<Item> := [Prompt, Listing(CMGR + [49]), Line(OK_LINE)]

  /** From an empty ring of 18 bytes: all bytes of the answer have arrived, and only
      the prompt in front of it is ever reported. */
  lemma MissedListing(m: Image)
    requires m.Valid()
    ensures var v := View(18, 0, []);
      && ValidItems(MISSED_ITEMS) && Flatten(MissedChunks()) == Stream(MISSED_ITEMS)
      && v.Valid() && Fits(v, false, MissedChunks(), m)
      && var d := Run(v, false, MissedChunks(), m);
         d.results == [PROMPT] && d.v.data == CMGR + [49] + T_OK && d.inside && Expected(MISSED_ITEMS) != d.results
  {
    hide Drain, Fits, Run, IsListing, ValidItem, Expected;
    var chunks, v := MissedChunks(), View(18, 0, []);
    MissedItems();
    MissedStream();
    FirstDrain(m);
    SecondDrain(m);
    assert Receive(v, chunks[0]).data == chunks[0];
    var w := View(18, 6, HEADER);
    assert Receive(w, chunks[1]) == View(18, 6, CMGR + [49] + T_OK);
    assert |chunks| == 2;
    TwoReads(v, w, chunks, m);
    ThreeExpected();
  }

  lemma TwoReads(v: View, w: View, chunks: seq<seq<byte>>, m: Image)
    requires v.Valid() && w.Valid() && m.Valid() && |chunks| == 2
    requires |v.data| + |chunks[0]| <= v.size && |w.data| + |chunks[1]| <= w.size
    requires Drain(Receive(v, chunks[0]), false, m) == Drained(w, true, [PROMPT])
    requires Drain(Receive(w, chunks[1]), true, m) == Drained(Receive(w, chunks[1]), true, [])
    ensures Fits(v, false, chunks, m)
    ensures Run(v, false, chunks, m) == Drained(Receive(w, chunks[1]), true, [PROMPT])
  {
    hide Drain;
    var u := Receive(w, chunks[1]);
    assert chunks[1..][1..] == [];
    assert Fits(u, true, [], m) && Fits(w, true, chunks[1..], m);
    assert Run(w, true, chunks[1..], m) == Drained(u, true, []);
  }

  lemma MissedItems()
    ensures ValidItems(MISSED_ITEMS)
  {
    hide IsListing, ValidItem;
    SmallListing(CMGR + [49]);
    assert ValidItem(MISSED_ITEMS[2]) by { OkIsLine(); }
    assert ValidItem(MISSED_ITEMS[1]) by { ListingIsItem(CMGR + [49]); }
    assert ValidItem(MISSED_ITEMS[0]) by { PromptIsItem(); }
    assert OkFollows(MISSED_ITEMS, 1);
  }

  lemma MissedStream()
    ensures Flatten(MissedChunks()) == Stream(MISSED_ITEMS)
  {
    hide Stream, Flatten;
    var r := MISSED_ITEMS[1..];
    StreamHead(MISSED_ITEMS);
    StreamHead(r);
    OkStream(r[1..]);
    NoStream(r[1..][1..]);
    TwoChunks(MissedChunks());
    Regroup(EOL, PROMPT, HEADER, [82, 58, 49], CMGR + [49], T_OK, Stream(r[1..]));
  }

  lemma Regroup(e: seq<byte>, p: seq<byte>, h: seq<byte>, r: seq<byte>, t: seq<byte>, k: seq<byte>, z: seq<byte>)
    requires h + r == t && e + z == k + []
    ensures e + p + e + h + (r + k) == e + p + (e + (t + e) + z)
  {
    assert e + p + e + h + (r + k) == e + p + e + (h + r) + k;
    assert e + (t + e) + z == e + t + (e + z);
  }

  lemma TwoChunks(c: seq<seq<byte>>)
    requires |c| == 2
    ensures Flatten(c) == c[0] + c[1]
  {
    assert Flatten(c[1..]) == c[1] + Flatten(c[1..][1..]);
  }

  lemma PromptIsItem()
    ensures ValidItem(Prompt)
  {
  }

  lemma ListingIsItem(t: seq<byte>)
    requires IsListing(t)
    ensures ValidItem(Listing(t))
  {
  }

  lemma OkIsLine()
    ensures ValidItem(Line(OK_LINE))
  {
    assert OK_LINE[0] != PROMPT[0];
    forall i: nat ensures !OccursAt(OK_LINE, EOL, i) {
      if i == 0 { assert OK_LINE[0..2][0] == 79; }
    }
  }

  lemma ThreeExpected()
    ensures Expected(MISSED_ITEMS) != [PROMPT]
  {
    var r := MISSED_ITEMS[1..];
    assert r[0] == Listing(CMGR + [49]);
    assert Expected(MISSED_ITEMS) == [PROMPT] + Expected(r);
    assert Expected(r) == [CMGR + [49]] + Expected(r[1..]);
  }

  lemma FirstDrain(m: Image)
    requires m.Valid()
    ensures Drain(View(18, 0, EOL + PROMPT + EOL + HEADER), false, m) == Drained(View(18, 6, HEADER), true, [PROMPT])
  {
    hide Inside;
    var v0, v1 := View(18, 0, EOL + PROMPT + EOL + HEADER), View(18, 2, PROMPT + EOL + HEADER);
    var v2, v3 := View(18, 4, EOL + HEADER), View(18, 6, HEADER);
    assert v0.Drop(2) == v1 && v1.Drop(2) == v2 && v2.Drop(2) == v3;
    PromptRead(v1, m);
    HeaderRead(v3, m);
    assert ReadResult(v0, false, m) == Inside(v1, m);
    assert ReadResult(v2, false, m) == Inside(v3, m);
    assert Drain(v2, false, m) == Drained(v3, true, []);
    assert v1.data[..2] == PROMPT;
  }

  lemma PromptRead(v: View, m: Image)
    requires m.Valid() && v.Valid() && PROMPT <= v.data
    ensures Inside(v, m) == Parsed(v, false, Result(2, 0))
  {
  }

  lemma HeaderRead(v: View, m: Image)
    requires m.Valid() && v.Valid() && v.data == HEADER
    ensures Inside(v, m) == Parsed(v, true, Wait)
  {
    hide UntilMem, Find, IsPrefix, StartsTwoLines, IsListing;
    var t := CMGR + [49];
    assert !Headed(v.data) by { HeaderShort(v.data); }
    SmallListing(t);
    assert v.data == t[..4];
    ListingArriving(t, v.data, t);
    EolSearch(v, m);
  }

  lemma HeaderShort(c: seq<byte>)
    requires |c| == 4
    ensures !Headed(c)
  {
  }

  lemma SecondDrain(m: Image)
    requires m.Valid()
    ensures var v := View(18, 6, CMGR + [49] + T_OK); v.Valid() && Drain(v, true, m) == Drained(v, true, [])
  {
    hide Inside;
    MissedEnd(m);
  }

  lemma SmallListing(t: seq<byte>)
    requires t == CMGR + [49]
    ensures IsListing(t) && StartsListing(t)
  {
    assert CMGR <= t && t[4] != CMGL[4];
    assert forall i :: 0 <= i < 7 ==> t[i] != CR && t[i] != LF && t[i] != 0;
    forall i: nat | i < |t| ensures !OccursAt(t + T_OK, T_OK, i) {
      assert (t + T_OK)[i..i + 8][0] == t[i];
    }
  }
}
