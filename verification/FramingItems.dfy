/** The items of a modem's byte stream, and what one call of at_read_result_iov
    makes of the first of them, whatever has arrived of it. */
module FramingItems {
  import opened Basics
  import opened RingSearch
  import opened Framing
  import opened Listings

  /** What a modem sends between and after commands. A bare line begins without CR LF,
      as an echo does. A listing, the answer to +CMGR or +CNUM, is the text in front of
      an empty line and the line OK; so is the last entry of the answer to +CMGL. */
  datatype Item =
    | Line(text: seq<byte>)
    | Bare(text: seq<byte>)
    | Prompt
    | TwoLines(first: seq<byte>, second: seq<byte>)
    | Entry(text: seq<byte>)
    | Listing(text: seq<byte>)

  const OK_LINE: seq<byte> := [79, 75]

  ghost predicate OneLine(t: seq<byte>) {
    forall i: nat :: !OccursAt(t, EOL, i)
  }

  ghost predicate IsLine(t: seq<byte>) {
    OneLine(t) && !IsPrefix(PROMPT, t) && !StartsListing(t) && !IsPrefix(CMGL, t) && !StartsTwoLines(t)
  }

  ghost predicate ValidItem(it: Item) {
    match it
    case Line(t) => IsLine(t)
    case Bare(t) => IsLine(t) && t != [] && Printable(t[0])
    case Prompt => true
    case TwoLines(f, s) => OneLine(f) && OneLine(s) && StartsTwoLines(f)
    case Entry(t) => IsEntry(t)
    case Listing(t) => IsListing(t)
  }

  ghost predicate ValidItems(items: seq<Item>) {
    && (forall i :: 0 <= i < |items| ==> ValidItem(items[i]))
    && (forall i :: 0 <= i < |items| && items[i].Listing? ==> OkFollows(items, i))
    && (forall i :: 0 <= i < |items| && items[i].Entry? ==> EntryFollows(items, i))
  }

  predicate OkFollows(items: seq<Item>, i: nat) {
    i + 1 < |items| && items[i + 1] == Line(OK_LINE)
  }

  predicate EntryFollows(items: seq<Item>, i: nat) {
    i + 1 < |items| && (items[i + 1].Entry? || items[i + 1].Listing?) && IsPrefix(CMGL, items[i + 1].text)
  }

  lemma ValidTail(items: seq<Item>, k: nat)
    requires ValidItems(items) && k <= |items|
    ensures ValidItems(items[k..])
  {
    hide ValidItem;
    forall i | 0 <= i < |items| - k && items[k..][i].Listing? ensures OkFollows(items[k..], i) {
      assert OkFollows(items, k + i);
    }
    forall i | 0 <= i < |items| - k && items[k..][i].Entry? ensures EntryFollows(items[k..], i) {
      assert EntryFollows(items, k + i);
    }
  }

  /** The response handed on for an item. */
  function Text(it: Item): seq<byte> {
    match it
    case Prompt => PROMPT
    case TwoLines(f, s) => f + EOL + s
    case _ => it.text
  }

  function Lead(it: Item): seq<byte> {
    if it.Bare? then [] else EOL
  }

  /** The bytes of an item behind its leading CR LF. */
  function Body(it: Item): seq<byte> {
    match it
    case Prompt => PROMPT
    case Entry(t) => t
    case _ => Text(it) + EOL
  }

  function Stream(items: seq<Item>): seq<byte> {
    if items == [] then [] else Lead(items[0]) + Body(items[0]) + Stream(items[1..])
  }

  function Expected(items: seq<Item>): seq<seq<byte>> {
    if items == [] then []
    else (if Text(items[0]) == [] then [] else [Text(items[0])]) + Expected(items[1..])
  }

  function Flatten(chunks: seq<seq<byte>>): seq<byte> {
    if chunks == [] then [] else chunks[0] + Flatten(chunks[1..])
  }

  /** Where the parser stands in front of the unread bytes `w`: inside the first
      item, or between items, possibly with the LF of the last line still unread. */
  ghost predicate At(inside: bool, w: seq<byte>, items: seq<Item>) {
    if inside then items != [] && w == Body(items[0]) + Stream(items[1..])
    else w == Stream(items) || w == [LF] + Stream(items)
  }

  // ------------------------------------------------------- lines and headers

  ghost predicate EolAt(s: seq<byte>, i: nat) {
    i + 2 <= |s| && s[i] == CR && s[i + 1] == LF
  }

  lemma EolOccurs(s: seq<byte>, i: nat)
    ensures OccursAt(s, EOL, i) <==> EolAt(s, i)
  {
    if i + 2 <= |s| {
      var x := s[i..i + 2];
      assert x[0] == s[i] && x[1] == s[i + 1];
      assert x == [x[0], x[1]];
    }
  }

  /** The line `t` stands at `from` in `w`, and a line end follows it. */
  ghost predicate LineAt(w: seq<byte>, from: nat, t: seq<byte>) {
    from + |t| + 2 <= |w| && w[from..from + |t|] == t && EolAt(w, from + |t|)
  }

  /** Of what has arrived of `w`, the first line end from `from` on ends `t`. */
  lemma LineEnd(w: seq<byte>, c: seq<byte>, from: nat, t: seq<byte>)
    requires OneLine(t) && c <= w && from <= |c| && LineAt(w, from, t)
    ensures Find(c, EOL, from) == if |c| >= from + |t| + 2 then Some(from + |t|) else None
  {
    forall j: nat | from <= j < from + |t| ensures !OccursAt(c, EOL, j) {
      NoEolInside(w, c, from, t, j);
    }
    forall j: nat ensures OccursAt(c, EOL, j) <==> EolAt(c, j) {
      EolOccurs(c, j);
    }
    if |c| >= from + |t| + 2 {
      FindIs(c, EOL, from, from + |t|);
    }
  }

  lemma NoEolInside(w: seq<byte>, c: seq<byte>, from: nat, t: seq<byte>, j: nat)
    requires OneLine(t) && c <= w && LineAt(w, from, t) && from <= j < from + |t|
    ensures !OccursAt(c, EOL, j)
  {
    EolOccurs(c, j);
    EolOccurs(t, j - from);
    assert t[j - from] == w[j];
    if j + 1 < from + |t| {
      assert t[j + 1 - from] == w[j + 1];
    }
  }

  /** A header without CR that does not start the line does not start what has
      arrived of the line either. */
  lemma HeaderAbsent(h: seq<byte>, t: seq<byte>, w: seq<byte>, c: seq<byte>)
    requires CR !in h && !IsPrefix(h, t) && c <= w && LineAt(w, 0, t)
    ensures !IsPrefix(h, c)
  {
    if |h| <= |c| {
      assert |h| <= |t| ==> c[..|h|] == t[..|h|];
      assert |t| < |h| ==> c[|t|] == CR;
    }
  }

  lemma HeadersAbsent(t: seq<byte>, w: seq<byte>, c: seq<byte>)
    requires c <= w && LineAt(w, 0, t)
    ensures !IsPrefix(PROMPT, t) ==> !IsPrefix(PROMPT, c)
    ensures !StartsListing(t) ==> !StartsListing(c)
    ensures !IsPrefix(CMGL, t) ==> !IsPrefix(CMGL, c)
    ensures !StartsTwoLines(t) ==> !StartsTwoLines(c)
  {
    hide IsPrefix;
    forall h | CR !in h && !IsPrefix(h, t) ensures !IsPrefix(h, c) {
      HeaderAbsent(h, t, w, c);
    }
  }

  /** The two-line headers exclude all the others. */
  lemma TwoLinesHeader(f: seq<byte>)
    requires StartsTwoLines(f)
    ensures !IsPrefix(PROMPT, f) && !StartsListing(f) && !IsPrefix(CMGL, f)
  {
    assert f[0] == 43;
    if IsPrefix(CMT, f) { assert f[3] == 84; }
    else if IsPrefix(CBM, f) { assert f[2] == 66; }
    else if IsPrefix(CDS, f) { assert f[2] == 68; }
    else { assert f[2] == 76; }
  }

  /** What the line search of the inner state finds, at any seam. */
  lemma EolSearch(v: View, m: Image)
    requires v.Valid() && m.Valid()
    ensures UntilMem(v.Head(), v.Tail(), m.eol, 2) == Find(v.data, EOL, 0)
  {
    TwoBytesAreSeamSafe(m.eol);
    UntilMemExact(v.Head(), v.Tail(), m.eol, 2);
    assert v.Head() + v.Tail() == v.data;
    assert m.eol[..2] == EOL;
  }

  // ----------------------------------------------------------- one result

  /** One call, with `f` still on the wire: it waits and loses nothing, or it
      reports the first item and stands in front of the next. */
  ghost predicate Steps(p: Parsed, f: seq<byte>, items: seq<Item>) {
    match p.out
    case Wait => At(p.inside, p.v.data + f, items) && (f == [] ==> items == [])
    case Result(len, skip) =>
      && items != [] && len + skip <= |p.v.data|
      && p.v.data[..len] == Text(items[0])
      && At(p.inside, p.v.data[len + skip..] + f, items[1..])
  }

  lemma LineStep(v: View, f: seq<byte>, it: Item, rest: seq<Item>, m: Image)
    requires v.Valid() && m.Valid() && v.data != [] && ValidItem(it) && (it.Line? || it.Bare?)
    requires v.data + f == it.text + EOL + Stream(rest)
    ensures Steps(Inside(v, m), f, [it] + rest)
  {
    hide IsPrefix, StartsListing, StartsTwoLines, UntilMem, Find, OccursAt, Stream, OneLine;
    var t, c, w, x := it.text, v.data, v.data + f, Stream(rest);
    assert LineAt(w, 0, t);
    HeadersAbsent(t, w, c);
    EolSearch(v, m);
    LineEnd(w, c, 0, t);
    var items := [it] + rest;
    assert items[1..] == rest;
    if |c| >= |t| + 2 {
      assert c[..|t|] == t;
      assert c[|t| + 1..] + f == w[|t| + 1..] == [LF] + x;
    }
  }

  lemma PromptStep(v: View, f: seq<byte>, rest: seq<Item>, m: Image)
    requires v.Valid() && m.Valid() && v.data != []
    requires v.data + f == PROMPT + Stream(rest)
    ensures Steps(Inside(v, m), f, [Prompt] + rest)
  {
    hide StartsListing, StartsTwoLines, UntilMem;
    var c, w, x := v.data, v.data + f, Stream(rest);
    var items := [Prompt] + rest;
    assert items[1..] == rest;
    assert c[0] == w[0] == PROMPT[0];
    if |c| >= 2 {
      assert c[1] == w[1] == PROMPT[1];
      assert c[..2] == PROMPT;
      assert c[2..] + f == w[2..] == x;
    } else {
      EolSearch(v, m);
      OneByteIsNoHeader(c);
    }
  }

  lemma OneByteIsNoHeader(c: seq<byte>)
    requires |c| == 1
    ensures !IsPrefix(PROMPT, c) && !StartsListing(c) && !IsPrefix(CMGL, c) && !StartsTwoLines(c)
    ensures Find(c, EOL, 0).None?
  {
  }

  lemma TwoLinesStep(v: View, f: seq<byte>, a: seq<byte>, b: seq<byte>, rest: seq<Item>, m: Image)
    requires v.Valid() && m.Valid() && v.data != [] && ValidItem(TwoLines(a, b))
    requires v.data + f == a + EOL + b + EOL + Stream(rest)
    ensures Steps(Inside(v, m), f, [TwoLines(a, b)] + rest)
  {
    hide IsPrefix, StartsListing, StartsTwoLines, UntilMem, Find, OccursAt, Stream, OneLine;
    var c, w, x := v.data, v.data + f, Stream(rest);
    var n := |a| + 2 + |b|;
    assert LineAt(w, 0, a) && LineAt(w, |a| + 2, b);
    TwoLinesHeader(a);
    HeadersAbsent(a, w, c);
    EolSearch(v, m);
    LineEnd(w, c, 0, a);
    var items := [TwoLines(a, b)] + rest;
    assert items[1..] == rest;
    if |c| >= |a| + 2 {
      assert a == w[0..|a|] == c[..|a|];
      TwoLinesArrived(a, c);
      LineEnd(w, c, |a| + 2, b);
      if |c| >= n + 2 {
        assert c[..n] == w[..n] == Text(items[0]);
        assert c[n + 1..] + f == w[n + 1..] == [LF] + x;
      }
    }
  }

  lemma TwoLinesArrived(a: seq<byte>, c: seq<byte>)
    requires StartsTwoLines(a) && a <= c
    ensures StartsTwoLines(c)
  {
  }

  /** The result leaves the parser inside the line OK, behind the empty line. */
  lemma ListingStep(v: View, f: seq<byte>, t: seq<byte>, rest: seq<Item>, m: Image)
    requires v.Valid() && m.Valid() && v.data != [] && IsListing(t) && !Misses(v, m)
    requires rest != [] && rest[0] == Line(OK_LINE) && v.data + f == t + EOL + Stream(rest)
    ensures Steps(Inside(v, m), f, [Listing(t)] + rest)
  {
    hide IsPrefix, StartsListing, StartsTwoLines, UntilMem, Find, OccursAt, Stream, IsListing, BadStraddle;
    var c, w, x := v.data, v.data + f, Stream(rest[1..]);
    OkStream(rest);
    assert w == t + (EOL + Stream(rest)) == t + (T_OK + x) == t + T_OK + x;
    var items := [Listing(t)] + rest;
    assert items[1..] == rest;
    ListingHeaded(t);
    if Headed(c) {
      NoPrompt(c);
      OkSearch(v, t, w, m);
      SameHeader(t, c, w);
      if IsPrefix(CMGL, c) { LastSearch(v, t, w, m); }
      if |c| >= |t| + 8 { ListingCut(t, c, f, x); }
    } else {
      ListingArriving(t, c, w);
      EolSearch(v, m);
      assert f != [];
      assert Inside(v, m) == Parsed(v, true, Wait);
    }
  }

  lemma ListingHeaded(t: seq<byte>)
    requires IsListing(t)
    ensures Headed(t)
  {
    hide Clean, Headlike;
  }

  /** The result leaves the parser inside the next entry. */
  lemma EntryStep(v: View, f: seq<byte>, t: seq<byte>, rest: seq<Item>, m: Image)
    requires v.Valid() && m.Valid() && v.data != [] && IsEntry(t) && !Misses(v, m)
    requires EntryFollows([Entry(t)] + rest, 0) && v.data + f == t + Stream(rest)
    ensures Steps(Inside(v, m), f, [Entry(t)] + rest)
  {
    hide IsPrefix, StartsListing, StartsTwoLines, UntilMem, Find, OccursAt, Stream, IsEntry, BadHeader;
    var c, w := v.data, v.data + f;
    var items := [Entry(t)] + rest;
    assert items[1..] == rest && items[1] == rest[0];
    NextHeader(rest);
    assert w == t + Stream(rest);
    assert t + T_CMGL <= w by { assert w[..|t + T_CMGL|] == t + Stream(rest)[..8]; }
    if Headed(c) {
      NoPrompt(c);
      HeaderSearch(v, t, w, m);
      EntryHeader(t, c, w);
      if |c| >= |t| + 8 { EntryCut(t, c, f, rest); }
    } else {
      EntryArriving(t, c, w);
      EolSearch(v, m);
      assert f != [];
      assert Inside(v, m) == Parsed(v, true, Wait);
    }
  }

  /** What follows an entry begins with the header of the next one. */
  lemma NextHeader(rest: seq<Item>)
    requires rest != [] && (rest[0].Entry? || rest[0].Listing?) && IsPrefix(CMGL, rest[0].text)
    ensures T_CMGL <= Stream(rest)
  {
    StreamHead(rest);
    assert T_CMGL == EOL + CMGL;
    assert Stream(rest)[..8] == EOL + rest[0].text[..6];
  }

  lemma EntryCut(t: seq<byte>, c: seq<byte>, f: seq<byte>, rest: seq<Item>)
    requires c + f == t + Stream(rest) && |c| >= |t| + 8 && rest != [] && !rest[0].Bare?
    ensures c[..|t|] == t && c[|t| + 2..] + f == Body(rest[0]) + Stream(rest[1..])
  {
    hide Body;
    StreamHead(rest);
    var w := c + f;
    assert c[..|t|] == w[..|t|] == t;
    assert w == t + EOL + (Body(rest[0]) + Stream(rest[1..]));
    assert c[|t| + 2..] + f == w[|t| + 2..];
  }

  lemma ListingCut(t: seq<byte>, c: seq<byte>, f: seq<byte>, x: seq<byte>)
    requires c + f == t + T_OK + x && |c| >= |t| + 8
    ensures c[..|t|] == t && c[|t| + 4..] + f == OK_LINE + EOL + x
  {
    var w := c + f;
    assert T_OK == EOL + (EOL + (OK_LINE + EOL));
    assert c[..|t|] == w[..|t|] == t;
    assert c[|t| + 4..] + f == w[|t| + 4..] == T_OK[4..] + x;
  }

  lemma OkStream(rest: seq<Item>)
    requires rest != [] && rest[0] == Line(OK_LINE)
    ensures EOL + Stream(rest) == T_OK + Stream(rest[1..])
    ensures Body(rest[0]) == OK_LINE + EOL
  {
    hide Stream;
    assert Body(rest[0]) == OK_LINE + EOL;
    assert EOL + (EOL + (OK_LINE + EOL)) == T_OK;
    StreamHead(rest);
  }

  lemma StreamHead(items: seq<Item>)
    requires items != []
    ensures Stream(items) == Lead(items[0]) + Body(items[0]) + Stream(items[1..])
  {
  }

  lemma NoPrompt(c: seq<byte>)
    requires Headed(c)
    ensures !IsPrefix(PROMPT, c)
  {
    if IsPrefix(CMGR, c) { assert c[0] == CMGR[0]; }
    else if IsPrefix(CNUM, c) { assert c[0] == CNUM[0]; }
    else if IsPrefix(CMGL, c) { assert c[0] == CMGL[0]; }
    else { assert c[0] == ERROR_CNUM[0]; }
  }

  /** The header that has arrived is the header of the response. */
  lemma SameHeader(t: seq<byte>, c: seq<byte>, w: seq<byte>)
    requires Headed(t) && Headed(c) && c <= w && t <= w
    ensures StartsListing(c) <==> StartsListing(t)
    ensures IsPrefix(CMGL, c) <==> IsPrefix(CMGL, t)
  {
    forall i | 0 <= i < |c| && i < |t| ensures c[i] == t[i] { assert c[i] == w[i] == t[i]; }
    OneHeader(c);
    OneHeader(t);
  }

  /** A header tells its kind by its first and fifth byte. */
  lemma OneHeader(c: seq<byte>)
    requires Headed(c)
    ensures |c| >= 6
    ensures IsPrefix(CMGL, c) <==> c[0] == 43 && c[3] == 71 && c[4] == 76
    ensures StartsListing(c) <==> !IsPrefix(CMGL, c)
  {
    if IsPrefix(CMGL, c) { assert c[..6] == CMGL; assert c[3] == CMGL[3] && c[4] == CMGL[4]; }
    if IsPrefix(CMGR, c) { assert c[4] == CMGR[4]; }
    if IsPrefix(CNUM, c) { assert c[4] == CNUM[4] && c[3] == CNUM[3]; }
    if IsPrefix(ERROR_CNUM, c) { assert c[0] == ERROR_CNUM[0]; }
  }

  lemma ListingArriving(t: seq<byte>, c: seq<byte>, w: seq<byte>)
    requires Headed(t) && c <= w && t <= w && c != [] && !Headed(c)
    ensures !IsPrefix(PROMPT, c) && !StartsTwoLines(c)
    ensures Find(c, EOL, 0).None? && |c| < |t|
  {
    hide IsPrefix, StartsTwoLines, Find, Headed;
    if |t| <= |c| {
      assert c[..|t|] == t;
      StillHeaded(t, c);
    } else {
      assert c == w[..|c|] == t[..|c|];
      HeaderArriving(t, c);
    }
  }

  lemma EntryHeader(t: seq<byte>, c: seq<byte>, w: seq<byte>)
    requires IsEntry(t) && Headed(c) && c <= w && t + T_CMGL <= w
    ensures IsPrefix(CMGL, c) && !StartsListing(c)
  {
    hide Clean, Headlike;
    assert t == (t + T_CMGL)[..|t|] == w[..|t|];
    SameHeader(t, c, w);
    OneHeader(c);
  }

  lemma EntryArriving(t: seq<byte>, c: seq<byte>, w: seq<byte>)
    requires IsEntry(t) && c <= w && t + T_CMGL <= w && c != [] && !Headed(c)
    ensures !IsPrefix(PROMPT, c) && !StartsTwoLines(c)
    ensures Find(c, EOL, 0).None? && |c| < |t|
  {
    hide Clean, Headlike, Find, StartsTwoLines;
    assert t == (t + T_CMGL)[..|t|] == w[..|t|];
    ListingArriving(t, c, w);
  }

  lemma StillHeaded(t: seq<byte>, c: seq<byte>)
    requires Headed(t) && t <= c
    ensures Headed(c)
  {
  }

  lemma InsideStep(v: View, f: seq<byte>, items: seq<Item>, m: Image)
    requires v.Valid() && m.Valid() && v.data != [] && ValidItems(items) && !Misses(v, m)
    requires At(true, v.data + f, items)
    ensures Steps(Inside(v, m), f, items)
  {
    hide IsListing, IsEntry, IsLine, OneLine, Misses;
    var rest := items[1..];
    assert items == [items[0]] + rest;
    match items[0]
    case Line(t) => LineStep(v, f, items[0], rest, m);
    case Bare(t) => LineStep(v, f, items[0], rest, m);
    case Prompt => PromptStep(v, f, rest, m);
    case TwoLines(a, b) => TwoLinesStep(v, f, a, b, rest, m);
    case Entry(t) =>
      assert EntryFollows(items, 0);
      EntryStep(v, f, t, rest, m);
    case Listing(t) =>
      assert OkFollows(items, 0);
      ListingStep(v, f, t, rest, m);
  }

  /** A line of control characters is dropped whole, but for its LF, whichever of its
      bytes lie behind the seam; without its CR, all of it is dropped. */
  lemma NoiseIsDropped(v: View, g: seq<byte>, x: seq<byte>, m: Image)
    requires v.Valid() && m.Valid() && g != [] && g[0] != LF
    requires forall i :: 0 <= i < |g| ==> !Printable(g[i]) && g[i] != CR
    requires v.data == g || v.data == g + EOL + x
    ensures |v.data| >= 2 ==>
      ReadResult(v, false, m) == ReadResult(v.Drop(if v.data == g then |g| else |g| + 1), false, m)
  {
    hide Noise, Inside;
    assert v.data[0] == g[0];
    if |v.data| >= 2 { assert v.data[..2][0] == g[0]; }
    NoiseIs(v, g, x);
  }

  lemma NoiseIs(v: View, g: seq<byte>, x: seq<byte>)
    requires v.Valid() && g != [] && g[0] != LF
    requires forall i :: 0 <= i < |g| ==> !Printable(g[i]) && g[i] != CR
    requires v.data == g || v.data == g + EOL + x
    ensures Noise(v) == if v.data == g then |g| else |g| + 1
  {
    hide FindControl, Stopped;
    var a, b, c := v.Head(), v.Tail(), v.data;
    assert a + b == c;
    forall i | 0 <= i < |g| ensures c[i] == g[i] {}
    ControlsUpTo(c, 0, |g|);
    UntilCharExactIff(a, b, CR);
    if |a| <= |g| { ControlsUpTo(a, 0, |a|); } else { ControlsUpTo(a, 0, |g|); }
  }

  /** No printable byte and no CR in front of n. */
  lemma {:induction false} ControlsUpTo(s: seq<byte>, from: nat, n: nat)
    requires from <= n <= |s| && forall i :: from <= i < n ==> !Printable(s[i]) && s[i] != CR
    requires n < |s| ==> s[n] == CR
    ensures FindControl(s, CR, from) == if n < |s| then Some(n) else None
    ensures !Stopped(s, CR, from)
    decreases n - from
  {
    if from < n { ControlsUpTo(s, from + 1, n); }
  }

  /** Between items two bytes decide: a left-over LF, the CR LF of an item, or a line
      that begins without. */
  lemma BetweenItems(c: seq<byte>, f: seq<byte>, items: seq<Item>)
    requires ValidItems(items) && At(false, c + f, items) && |c| >= 2
    ensures if c[0] == LF then c[..2] != EOL && At(false, c[1..] + f, items)
            else if c[..2] == EOL then At(true, c[2..] + f, items)
            else Printable(c[0]) && At(true, c + f, items)
  {
    hide Body, Stream;
    if items != [] {
      StreamHead(items);
      if items[0].Bare? { BareHead(items[0]); }
    } else {
      assert Stream(items) == [] by { NoStream(items); }
    }
    var w := c + f;
    assert c[0] == w[0] && c[1] == w[1];
    if w[0] == LF {
      assert c[..2] != EOL by { assert c[..2][0] == LF; }
      assert c[1..] + f == w[1..] == Stream(items);
    } else if items[0].Bare? {
      assert w == Stream(items) == Body(items[0]) + Stream(items[1..]);
      assert c[..2][0] == Body(items[0])[0];
    } else {
      assert w == Stream(items) == EOL + (Body(items[0]) + Stream(items[1..]));
      assert c[..2] == EOL;
      assert c[2..] + f == w[2..] == Body(items[0]) + Stream(items[1..]);
    }
  }

  lemma BareHead(it: Item)
    requires ValidItem(it) && it.Bare?
    ensures Body(it) != [] && Printable(Body(it)[0]) && Body(it)[0] != LF && Body(it)[0] != CR
  {
  }

  lemma NoStream(items: seq<Item>)
    requires items == []
    ensures Stream(items) == []
  {
  }

  lemma BodyLong(it: Item)
    requires ValidItem(it)
    ensures |Body(it)| >= 2
  {
    if it.Entry? { EntryLong(it.text); }
  }

  lemma EntryLong(t: seq<byte>)
    requires IsEntry(t)
    ensures |t| >= 6
  {
  }

  /** With fewer than two bytes between items, an item is still on the wire. */
  lemma TooFewBytes(inside: bool, c: seq<byte>, items: seq<Item>)
    requires ValidItems(items) && At(inside, c, items) && |c| < 2
    ensures items == []
  {
    hide ValidItem, Body;
    if items != [] { BodyLong(items[0]); }
  }

  lemma {:induction false} ResultStep(v: View, inside: bool, f: seq<byte>, items: seq<Item>, m: Image)
    requires v.Valid() && m.Valid() && ValidItems(items)
    requires At(inside, v.data + f, items) && !Misses(ReadResult(v, inside, m).v, m)
    ensures Steps(ReadResult(v, inside, m), f, items)
    decreases |v.data|, if inside then 0 else 1
  {
    hide Inside, UntilChar, IsPrefix, Text, ValidItem, ValidItems, At, Stream, Body, Misses;
    var c := v.data;
    if f == [] && |c| < 2 {
      assert c + f == c;
      TooFewBytes(inside, c, items);
    }
    if c == [] {
    } else if inside {
      InsideStep(v, f, items, m);
    } else if |c| >= 2 {
      BetweenItems(c, f, items);
      if c[0] == LF {
        ResultStep(v.Drop(1), false, f, items, m);
      } else if c[..2] == EOL {
        ResultStep(v.Drop(2), true, f, items, m);
      } else {
        ResultStep(v, true, f, items, m);
      }
    }
  }
}
