/** The answer to AT+CMGL: its messages come out one by one, and OK behind them; and
    what becomes of them when the seam hides where the next one begins. */
module FramingLists {
  import opened Basics
  import opened RingSearch
  import opened Framing
  import opened Listings
  import opened FramingItems
  import opened FramingRuns

  /** Messages in order, the last one in front of OK. */
  ghost predicate IsList(es: seq<seq<byte>>) {
    && es != []
    && (forall i :: 0 <= i < |es| - 1 ==> IsEntry(es[i]))
    && IsPrefix(CMGL, es[|es| - 1]) && IsListing(es[|es| - 1])
  }

  function ItemsOf(es: seq<seq<byte>>): (items: seq<Item>)
    ensures items != []
  {
    if es == [] then [Line(OK_LINE)]
    else [if |es| == 1 then Listing(es[0]) else Entry(es[0])] + ItemsOf(es[1..])
  }

  /** The bytes of the answer: CR LF between the messages, an empty line in front of OK. */
  function ListBytes(es: seq<seq<byte>>): seq<byte> {
    if es == [] then EOL + EOL + OK_LINE + EOL else EOL + es[0] + ListBytes(es[1..])
  }

  lemma {:induction false} ListBytesAre(es: seq<seq<byte>>)
    requires es != []
    ensures Stream(ItemsOf(es)) == ListBytes(es)
  {
    var items := ItemsOf(es);
    assert items[1..] == ItemsOf(es[1..]);
    StreamHead(items);
    if |es| > 1 {
      ListBytesAre(es[1..]);
    } else {
      var ok := ItemsOf(es[1..]);
      assert ok == [Line(OK_LINE)] && ok[1..] == [];
      StreamHead(ok);
      assert Stream(ok) == EOL + (OK_LINE + EOL) + [];
      assert EOL + (es[0] + EOL) + (EOL + (OK_LINE + EOL) + []) == EOL + es[0] + (EOL + EOL + OK_LINE + EOL);
    }
  }

  lemma {:induction false} ListIsValid(es: seq<seq<byte>>)
    requires IsList(es)
    ensures ValidItems(ItemsOf(es)) && Expected(ItemsOf(es)) == es + [OK_LINE]
  {
    hide IsListing, IsEntry, ValidItem;
    var items, ok := ItemsOf(es), ItemsOf([]);
    assert items[1..] == ItemsOf(es[1..]);
    assert ValidItem(Line(OK_LINE)) by { OkIsLine(); }
    assert ValidItems(ok);
    if |es| > 1 {
      ListIsValid(es[1..]);
      assert ItemsOf(es[1..])[0].text == es[1];
      assert ValidItem(items[0]) by { EntryIsItem(es[0]); }
      assert IsPrefix(CMGL, es[1]) by { ListHead(es[1..]); }
      assert EntryFollows(items, 0);
      TextOf(es[0], es);
      MoreItems(items);
    } else {
      assert es[1..] == [] && ok[1..] == [];
      assert ValidItem(items[0]) by { ListingIsItem(es[0]); }
      assert OkFollows(items, 0);
      TextOf(es[0], es);
      MoreItems(items);
      assert Expected(ok) == [OK_LINE] + [];
    }
  }

  lemma EntryIsItem(t: seq<byte>)
    requires IsEntry(t)
    ensures ValidItem(Entry(t))
  {
  }

  lemma ListHead(es: seq<seq<byte>>)
    requires IsList(es)
    ensures IsPrefix(CMGL, es[0])
  {
    hide Clean, Headlike;
  }

  lemma TextOf(t: seq<byte>, es: seq<seq<byte>>)
    requires IsList(es) && t == es[0]
    ensures t != []
  {
    hide IsListing, IsEntry;
    ListHead(es);
  }

  lemma MoreItems(items: seq<Item>)
    requires items != [] && ValidItem(items[0]) && ValidItems(items[1..])
    requires (items[0].Listing? ==> OkFollows(items, 0)) && (items[0].Entry? ==> EntryFollows(items, 0))
    ensures ValidItems(items)
  {
    hide ValidItem;
    forall i | 0 < i < |items| ensures ValidItem(items[i]) && items[i] == items[1..][i - 1] {}
    forall i | 0 < i < |items| && items[i].Listing? ensures OkFollows(items, i) {
      assert OkFollows(items[1..], i - 1);
    }
    forall i | 0 < i < |items| && items[i].Entry? ensures EntryFollows(items, i) {
      assert EntryFollows(items[1..], i - 1);
    }
  }

  /** For every list, every cut into reads and every position of the seam: exactly the
      messages are handed on, in order, and then OK, if and only if no call meets a
      message whose end the seam hides. */
  lemma ListHandedOnIff(size: nat, read: nat, chunks: seq<seq<byte>>, es: seq<seq<byte>>, m: Image)
    requires m.Valid() && IsList(es) && Flatten(chunks) == ListBytes(es)
    requires View(size, read, []).Valid() && Fits(View(size, read, []), false, chunks, m)
    ensures Run(View(size, read, []), false, chunks, m).results == es + [OK_LINE] <==>
      RunClear(View(size, read, []), false, chunks, m)
  {
    hide IsListing, IsEntry, Run, RunClear, Fits, ItemsOf, ListBytes, ValidItems;
    ListIsValid(es);
    ListBytesAre(es);
    EveryCutGivesTheItemsIff(size, read, chunks, ItemsOf(es), m);
  }

  /** All messages have arrived: draining hands on exactly these, in order, then OK. */
  lemma DrainsList(v: View, es: seq<seq<byte>>, m: Image)
    requires v.Valid() && m.Valid() && IsList(es) && v.data == ListBytes(es) && DrainClear(v, false, m)
    ensures Drain(v, false, m).results == es + [OK_LINE]
  {
    hide IsListing, IsEntry, DrainClear, Drain, ItemsOf, ListBytes, ValidItems, Expected, At;
    ListIsValid(es);
    ListBytesAre(es);
    AtStart(ItemsOf(es));
    assert v.data + [] == v.data;
    var k := DrainStep(v, false, [], ItemsOf(es), m);
    assert ItemsOf(es)[..k] == ItemsOf(es);
  }

  /** A call inside a message reports this message, and leaves the parser inside the
      next one, or inside the line OK. */
  lemma EntryCall(v: View, es: seq<seq<byte>>, m: Image)
    requires v.Valid() && m.Valid() && IsList(es) && EOL + v.data == ListBytes(es) && !Misses(v, m)
    ensures var p := ReadResult(v, true, m);
      && p.out.Result? && p.v == v && p.inside && v.data[..p.out.len] == es[0]
      && var next := v.data[p.out.len + p.out.skip..];
         if |es| > 1 then CMGL <= next && EOL + next == ListBytes(es[1..]) else next == OK_LINE + EOL
  {
    hide Misses, IsListing, IsEntry, IsPrefix, ListBytes, ItemsOf, ValidItems, Inside, At, Steps;
    var items := ItemsOf(es);
    ListIsValid(es);
    ListAt(v.data, es);
    assert v.data + [] == v.data;
    InsideStep(v, [], items, m);
    ListHead(es);
    StaysInside(v, es[0], m);
    BehindEntry(Inside(v, m), es);
  }

  lemma ListAt(c: seq<byte>, es: seq<seq<byte>>)
    requires IsList(es) && EOL + c == ListBytes(es)
    ensures At(true, c, ItemsOf(es)) && es[0] <= c && c != []
  {
    hide IsListing, IsEntry, ListBytes, ItemsOf, Stream;
    var items := ItemsOf(es);
    ListBytesAre(es);
    StreamHead(items);
    ItemsHead(es);
    var w, x := EOL + c, Stream(items[1..]);
    assert w == EOL + (Body(items[0]) + x);
    assert c == w[2..] == Body(items[0]) + x;
    TextOf(es[0], es);
    assert es[0] <= Body(items[0]) <= c;
  }

  lemma BehindEntry(p: Parsed, es: seq<seq<byte>>)
    requires IsList(es) && Steps(p, [], ItemsOf(es)) && p.inside
    ensures p.out.Result? && p.out.len + p.out.skip <= |p.v.data| && p.v.data[..p.out.len] == es[0]
    ensures var next := p.v.data[p.out.len + p.out.skip..];
      if |es| > 1 then CMGL <= next && EOL + next == ListBytes(es[1..]) else next == OK_LINE + EOL
  {
    hide IsListing, IsEntry, IsPrefix, ListBytes, ItemsOf, Stream, Body, At;
    ItemsHead(es);
    var next := p.v.data[p.out.len + p.out.skip..];
    assert next + [] == next;
    if |es| > 1 { NextBytes(next, es[1..]); } else { OkBytesLeft(next, ItemsOf(es)[1..]); }
  }

  lemma NextBytes(next: seq<byte>, es: seq<seq<byte>>)
    requires IsList(es) && At(true, next, ItemsOf(es))
    ensures CMGL <= next && EOL + next == ListBytes(es)
  {
    hide IsListing, IsEntry, IsPrefix, ListBytes, ItemsOf, Stream, Body;
    var items := ItemsOf(es);
    ItemsHead(es);
    StreamHead(items);
    ListBytesAre(es);
    ListHead(es);
    NextHeader(items);
    BehindEol(next, Body(items[0]), Stream(items[1..]));
  }

  lemma OkBytesLeft(next: seq<byte>, items: seq<Item>)
    requires items == [Line(OK_LINE)] && At(true, next, items)
    ensures next == OK_LINE + EOL
  {
    hide Stream, Body;
    OkBody();
    NoStream(items[1..]);
    assert next == OK_LINE + EOL + [];
  }

  lemma OkBody()
    ensures Body(Line(OK_LINE)) == OK_LINE + EOL
  {
  }

  lemma BehindEol(next: seq<byte>, b: seq<byte>, x: seq<byte>)
    requires next == b + x
    ensures EOL + next == EOL + b + x
    ensures T_CMGL <= EOL + b + x ==> CMGL <= next
  {
    var w := EOL + next;
    assert w == EOL + b + x;
    if T_CMGL <= w {
      assert next[..6] == w[2..8] == T_CMGL[2..8] == CMGL;
    }
  }

  lemma ItemsHead(es: seq<seq<byte>>)
    requires es != []
    ensures var items := ItemsOf(es);
      && items[0] == (if |es| == 1 then Listing(es[0]) else Entry(es[0])) && items[1..] == ItemsOf(es[1..])
    ensures |es| == 1 ==> ItemsOf(es)[1..] == [Line(OK_LINE)]
  {
  }

  lemma StaysInside(v: View, t: seq<byte>, m: Image)
    requires v.Valid() && m.Valid() && IsPrefix(CMGL, t) && t <= v.data
    ensures Inside(v, m).inside && ReadResult(v, true, m) == Inside(v, m)
  {
    hide UntilMem;
    assert Headed(t);
    StillHeaded(t, v.data);
    SameHeader(t, v.data, v.data);
    NoPrompt(v.data);
  }

  // -------------------------------------------------------- lists off the seam

  /** The queue does not reach around the end of the buffer. */
  predicate OnePiece(v: View) {
    v.read + |v.data| <= v.size
  }

  lemma OnePieceMisses(v: View, es: seq<seq<byte>>, m: Image)
    requires v.Valid() && m.Valid() && IsList(es) && EOL + v.data == ListBytes(es) && OnePiece(v)
    ensures !Misses(v, m)
  {
    hide IsListing, IsEntry, IsPrefix, StartsListing, ListBytes, UntilMem, Find;
    var c, t := v.data, es[0];
    assert v.Head() == c;
    ListAt(c, es);
    ListHead(es);
    StillHeaded(t, c) by { assert Headed(t); }
    SameHeader(t, c, c);
    OneHeader(c);
    ListCut(c, es);
    if |es| > 1 {
      HeaderSearch(v, t, c, m);
    } else {
      OkSearch(v, t, c, m);
      LastSearch(v, t, c, m);
    }
  }

  lemma ListCut(c: seq<byte>, es: seq<seq<byte>>)
    requires IsList(es) && EOL + c == ListBytes(es)
    ensures if |es| > 1 then es[0] + T_CMGL <= c else c == es[0] + T_OK
  {
    hide IsListing, IsEntry, IsPrefix, ListBytes, ItemsOf, Stream;
    ListAt(c, es);
    ItemsHead(es);
    if |es| > 1 { NextCut(c, es); } else { LastCut(c, es[0]); }
  }

  lemma NextCut(c: seq<byte>, es: seq<seq<byte>>)
    requires IsList(es) && |es| > 1 && At(true, c, ItemsOf(es))
    ensures es[0] + T_CMGL <= c
  {
    hide IsListing, IsEntry, IsPrefix, ItemsOf, Stream, At;
    var rest := ItemsOf(es)[1..];
    ItemsHead(es);
    EntrySplit(c, ItemsOf(es));
    ListHead(es[1..]);
    ItemsHead(es[1..]);
    NextHeader(rest);
    PrefixBehind(c, es[0], T_CMGL, Stream(rest));
  }

  lemma EntrySplit(c: seq<byte>, items: seq<Item>)
    requires At(true, c, items) && items[0].Entry?
    ensures c == items[0].text + Stream(items[1..])
  {
    hide Stream;
  }

  lemma LastCut(c: seq<byte>, t: seq<byte>)
    requires At(true, c, [Listing(t), Line(OK_LINE)])
    ensures c == t + T_OK
  {
    hide Stream;
    var items := [Listing(t), Line(OK_LINE)];
    var rest := items[1..];
    OkStream(rest);
    NoStream(rest[1..]);
    TwoBehind(c, t, EOL, Stream(rest), T_OK);
  }

  lemma PrefixBehind(c: seq<byte>, t: seq<byte>, h: seq<byte>, rest: seq<byte>)
    requires c == t + rest && h <= rest
    ensures t + h <= c
  {
    assert c == t + h + rest[|h|..];
  }

  lemma TwoBehind(c: seq<byte>, t: seq<byte>, a: seq<byte>, b: seq<byte>, e: seq<byte>)
    requires c == t + a + b && a + b == e + []
    ensures c == t + e
  {
    assert c == t + (a + b);
  }

  lemma {:induction false} OnePieceClear(v: View, es: seq<seq<byte>>, m: Image)
    requires v.Valid() && m.Valid() && IsList(es) && EOL + v.data == ListBytes(es) && OnePiece(v)
    ensures DrainClear(v, true, m)
    decreases |es|
  {
    hide IsListing, IsEntry, IsPrefix, ListBytes, Misses, ReadResult, Inside;
    OnePieceMisses(v, es, m);
    EntryCall(v, es, m);
    var p := ReadResult(v, true, m);
    var w := v.Drop(p.out.len + p.out.skip);
    if |es| > 1 {
      OnePieceClear(w, es[1..], m);
    } else {
      OkClear(w, m);
    }
  }

  lemma OkClear(v: View, m: Image)
    requires v.Valid() && m.Valid() && v.data == OK_LINE + EOL
    ensures DrainClear(v, true, m)
  {
    hide DrainClear, Stream, ValidItem, Misses;
    var items := [Line(OK_LINE)];
    assert ValidItem(items[0]) by { OkIsLine(); }
    assert items[1..] == [];
    NoStream(items[1..]);
    assert v.data + [] == OK_LINE + EOL + [];
    if !DrainClear(v, true, m) {
      var k := DrainBreaks(v, true, [], items, m);
    }
  }

  /** A list in one piece always comes out message by message. */
  lemma OnePieceDrains(v: View, es: seq<seq<byte>>, m: Image)
    requires v.Valid() && m.Valid() && IsList(es) && v.data == ListBytes(es) && OnePiece(v)
    ensures Drain(v, false, m).results == es + [OK_LINE]
  {
    hide IsListing, IsEntry, IsPrefix, Drain, ListBytes, ReadResult, Inside, Misses;
    ListOpens(v, es, m);
    OnePieceClear(v.Drop(2), es, m);
    DrainsList(v, es, m);
  }

  lemma ListOpens(v: View, es: seq<seq<byte>>, m: Image)
    requires v.Valid() && m.Valid() && v.data == ListBytes(es)
    ensures |v.data| > 2 && EOL + v.Drop(2).data == v.data
    ensures ReadResult(v, false, m) == ReadResult(v.Drop(2), true, m)
    ensures OnePiece(v) ==> OnePiece(v.Drop(2))
  {
    hide Inside;
    assert v.data[..2] == EOL;
  }

  // ------------------------------------------------------- lists across the seam

  const FIRST: seq<byte> := CMGL + [49]
  const SECOND: seq<byte> := CMGL + [50]

  /** Three prompts and a list of two messages in two reads. */
  function MergedChunks(): seq<seq<byte>> {
    [EOL + (PROMPT + (EOL + (PROMPT + (EOL + (PROMPT + (EOL + HEADER)))))),
     [76, 58, 49] + EOL + SECOND + T_OK]
  }

  /** From an empty ring of 26 bytes: three bytes of CR LF +CMGL: lie behind the seam,
      and the two messages are handed on as one. */
  lemma MergedEntries(m: Image)
    requires m.Valid()
    ensures var v := View(26, 0, []);
      && IsList([FIRST, SECOND])
      && v.Valid() && Fits(v, false, MergedChunks(), m)
      && [PROMPT, PROMPT, PROMPT, FIRST + EOL + SECOND] <= Run(v, false, MergedChunks(), m).results
  {
    hide Drain, Fits, Run, IsListing, IsEntry;
    var c, v, w := MergedChunks(), View(26, 0, []), View(26, 14, HEADER);
    SmallList();
    ThreePrompts(m);
    assert Receive(v, c[0]) == View(26, 0, c[0]);
    assert Receive(w, c[1]) == View(26, 14, FIRST + (EOL + SECOND + T_OK)) by {
      assert HEADER + [76, 58, 49] == FIRST;
      assert HEADER + ([76, 58, 49] + EOL + SECOND + T_OK) == (HEADER + [76, 58, 49]) + (EOL + SECOND + T_OK);
    }
    MergedDrain(m);
    ReadsTwo(v, w, c, m);
  }

  lemma ReadsTwo(v: View, w: View, c: seq<seq<byte>>, m: Image)
    requires v.Valid() && w.Valid() && m.Valid() && |c| == 2
    requires |v.data| + |c[0]| <= v.size && |w.data| + |c[1]| <= w.size
    requires Drain(Receive(v, c[0]), false, m).v == w && Drain(Receive(v, c[0]), false, m).inside
    ensures Fits(v, false, c, m)
    ensures Run(v, false, c, m).results ==
      Drain(Receive(v, c[0]), false, m).results + Drain(Receive(w, c[1]), true, m).results
  {
    hide Drain;
    assert c[1..][1..] == [];
    var d := Drain(Receive(w, c[1]), true, m);
    assert Fits(d.v, d.inside, [], m) && Fits(w, true, c[1..], m);
    assert Run(w, true, c[1..], m).results == d.results + [];
  }

  lemma SmallList()
    ensures IsList([FIRST, SECOND])
  {
    hide IsListing, IsEntry, IsPrefix;
    SmallEntry(FIRST);
    SmallEntry(SECOND);
  }

  lemma SmallEntry(t: seq<byte>)
    requires t == CMGL + [49] || t == CMGL + [50]
    ensures IsPrefix(CMGL, t) && IsEntry(t) && IsListing(t)
  {
    assert CMGL <= t;
    assert forall i :: 0 <= i < 7 ==> t[i] != CR && t[i] != LF && t[i] != 0;
    forall i: nat, e, p | i < |t| && |p| == 8 && p[0] == CR ensures !OccursAt(t + e, p, i) {
      if i + 8 <= |t + e| { assert (t + e)[i..i + 8][0] == t[i]; }
    }
  }

  lemma OnePrompt(size: nat, read: nat, x: seq<byte>, m: Image)
    requires m.Valid() && x != [] && read + 4 < size && |x| + 4 <= size
    ensures View(size, read, EOL + (PROMPT + x)).Valid() && View(size, read + 4, x).Valid()
    ensures var d := Drain(View(size, read + 4, x), false, m);
      Drain(View(size, read, EOL + (PROMPT + x)), false, m) == d.(results := [PROMPT] + d.results)
  {
    hide Inside;
    var v0, v1, v2 := View(size, read, EOL + (PROMPT + x)), View(size, read + 2, PROMPT + x), View(size, read + 4, x);
    assert v0.Drop(2) == v1 && v1.Drop(2) == v2;
    PromptRead(v1, m);
    assert ReadResult(v0, false, m) == Inside(v1, m);
    assert v1.data[..2] == PROMPT;
  }

  lemma ThreePrompts(m: Image)
    requires m.Valid()
    ensures var v := View(26, 0, MergedChunks()[0]);
      v.Valid() && Drain(v, false, m) == Drained(View(26, 14, HEADER), true, [PROMPT, PROMPT, PROMPT])
  {
    hide Inside, Drain;
    var x := EOL + HEADER;
    OnePrompt(26, 8, x, m);
    OnePrompt(26, 4, EOL + (PROMPT + x), m);
    OnePrompt(26, 0, EOL + (PROMPT + (EOL + (PROMPT + x))), m);
    HeaderDrain(m);
  }

  lemma HeaderDrain(m: Image)
    requires m.Valid()
    ensures Drain(View(26, 12, EOL + HEADER), false, m) == Drained(View(26, 14, HEADER), true, [])
  {
    hide Inside;
    var v, w := View(26, 12, EOL + HEADER), View(26, 14, HEADER);
    assert v.Drop(2) == w;
    HeaderRead(w, m);
    assert ReadResult(v, false, m) == Inside(w, m);
  }

  lemma FirstByte(a: seq<byte>, b: seq<byte>, mem: seq<byte>, j: nat)
    requires 15 <= |mem| && Seen(a, b, mem, 8, j)
    ensures j + 8 <= |a| + |b| && (a + b)[j] == mem[0]
  {
    if |a| < j + 8 && j < |a| {
      assert a[j..][0] == mem[..16 - (j + 8 - |a|) - 8][0];
    } else {
      assert (a + b)[j..j + 8][0] == mem[..8][0];
    }
  }

  /** The bytes of both messages and the end, from ring position 14 on. */
  lemma MergedDrain(m: Image)
    requires m.Valid()
    ensures var v := View(26, 14, FIRST + (EOL + SECOND + T_OK));
      v.Valid() && [FIRST + EOL + SECOND] <= Drain(v, true, m).results
  {
    hide Inside;
    var t := FIRST + EOL + SECOND;
    var v := View(26, 14, t + T_OK);
    assert v.data == FIRST + (EOL + SECOND + T_OK);
    MergedRead(v, m);
    assert v.data[..16] == t;
    assert ReadResult(v, true, m) == Inside(v, m);
  }

  lemma MergedRead(v: View, m: Image)
    requires m.Valid() && v == View(26, 14, FIRST + EOL + SECOND + T_OK)
    ensures v.Valid() && v.data != [] && Inside(v, m) == Parsed(v, true, Result(16, 4))
  {
    hide UntilMem, Seen, StartsListing, IsPrefix;
    var a, b, c := v.Head(), v.Tail(), v.data;
    assert |a| == 12 && a + b == c;
    SmallEntry(FIRST);
    assert c[..15] == FIRST + T_CMGL;
    StillHeaded(FIRST, c) by { assert c[..7] == FIRST; }
    EntryHeader(FIRST, c, c);
    NoPrompt(c);
    assert OccursAt(c, T_CMGL, 7) by { assert c[7..15] == T_CMGL; }
    SeenAtHeader(a, b, m, 7);
    forall j: nat | j != 7 ensures !Seen(a, b, m.cmgl, 8, j) { NoHeaderAt(a, b, c, m, j); }
    UntilMemFirst(a, b, m.cmgl, 8);
    assert OccursAt(c, T_OK, 16) by { assert c[16..24] == T_OK; }
    SeenAtEnd(a, b, m, 16);
    forall j: nat | j != 16 ensures !Seen(a, b, m.ok, 8, j) { NoEndAt(a, b, c, m, j); }
    UntilMemFirst(a, b, m.ok, 8);
  }

  lemma NoHeaderAt(a: seq<byte>, b: seq<byte>, c: seq<byte>, m: Image, j: nat)
    requires m.Valid() && c == FIRST + EOL + SECOND + T_OK && a + b == c && |a| == 12 && j != 7
    ensures !Seen(a, b, m.cmgl, 8, j)
  {
    CmglBytes(m);
    assert !OccursAt(b, T_CMGL, 4) by { assert b[4..12][2] == c[18] == 13; }
    if Seen(a, b, m.cmgl, 8, j) { FirstByte(a, b, m.cmgl, j); }
  }

  lemma NoEndAt(a: seq<byte>, b: seq<byte>, c: seq<byte>, m: Image, j: nat)
    requires m.Valid() && c == FIRST + EOL + SECOND + T_OK && a + b == c && |a| == 12 && j != 16
    ensures !Seen(a, b, m.ok, 8, j)
  {
    OkBytes(m);
    assert a[7..] != m.ok[..5] by { assert a[7..][2] == c[9] == 43; }
    if Seen(a, b, m.ok, 8, j) { FirstByte(a, b, m.ok, j); }
  }
}
