/** The responses whose end is searched as CR LF CR LF OK CR LF, and what the
    search finds when that end lies across the seam of the ring. */
module Listings {
  import opened Basics
  import opened RingSearch
  import opened Framing

  /** No zero, and no LF without its CR. */
  ghost predicate Clean(t: seq<byte>) {
    forall i :: 0 <= i < |t| ==> t[i] != 0 && (t[i] == LF ==> i > 0 && t[i - 1] == CR)
  }

  /** The responses whose end is searched: listings, and the entries of a +CMGL list. */
  predicate Headed(t: seq<byte>) {
    StartsListing(t) || IsPrefix(CMGL, t)
  }

  // What the search across the seam takes for CR LF +CMGL: with 2 or 3 bytes behind it.
  const ALIKE2: seq<byte> := [13, 10, 43, 67, 77, 71, 43, 67]               // CR LF +CMG+C
  const ALIKE3: seq<byte> := [13, 10, 43, 67, 77, 67, 77, 71]               // CR LF +CMCMG

  /** A further entry, or what may be taken for one. */
  predicate Headlike(s: seq<byte>, i: nat) {
    OccursAt(s, T_CMGL, i) || OccursAt(s, ALIKE2, i) || OccursAt(s, ALIKE3, i)
  }

  /** A response that ends where its OK begins; in a +CMGL list, the last entry. */
  ghost predicate IsListing(t: seq<byte>) {
    && Headed(t) && Clean(t)
    && forall i: nat :: i < |t| ==>
         !OccursAt(t + T_OK, T_OK, i) && (IsPrefix(CMGL, t) ==> !Headlike(t + T_OK, i))
  }

  /** An entry of a +CMGL list that ends where the next one begins. */
  ghost predicate IsEntry(t: seq<byte>) {
    && IsPrefix(CMGL, t) && Clean(t)
    && forall i: nat :: i < |t| ==> !OccursAt(t + T_CMGL, T_OK, i) && !Headlike(t + T_CMGL, i)
  }

  /** How many bytes of the end behind the seam make the search miss it. */
  predicate BadStraddle(i: int) {
    i == 3 || i == 5 || i == 6 || i == 7
  }

  /** The same for the header of the next entry. */
  predicate BadHeader(i: int) {
    0 < i < 8 && i != 4
  }

  /** The end of the response in the ring lies across the seam in such a way; or the
      response is the last of a list, and the search sees the header of a later list. */
  ghost predicate Misses(v: View, m: Image)
    requires v.Valid() && m.Valid()
  {
    var k, l, n := Find(v.data, T_CMGL, 0), Find(v.data, T_OK, 0), |v.Head()|;
    if StartsListing(v.data) then l.Some? && BadStraddle(l.value + 8 - n)
    else if IsPrefix(CMGL, v.data) then
      if k.Some? && (l.Some? ==> k.value < l.value) then BadHeader(k.value + 8 - n)
      else l.Some? && (BadStraddle(l.value + 8 - n) || UntilMem(v.Head(), v.Tail(), m.cmgl, 8).Some?)
    else false
  }

  lemma OkBytes(m: Image)
    requires m.Valid()
    ensures m.ok[..8] == T_OK
    ensures m.ok[0] == 13 && m.ok[1] == 10 && m.ok[2] == 13 && m.ok[3] == 10
    ensures m.ok[4] == 79 && m.ok[5] == 75 && m.ok[6] == 13 && m.ok[7] == 10 && m.ok[8] == 0
  {
    var t := T_OK + [0];
    assert m.ok[..9] == t;
    assert forall i :: 0 <= i < 9 ==> m.ok[i] == t[i];
    assert m.ok[..8] == t[..8] == T_OK;
  }

  /** Of the straddles of this pattern exactly those with 1, 2 or 4 bytes behind the
      seam are compared with what the pattern ends with. */
  lemma OkStraddlesIff(m: Image, i: nat)
    requires m.Valid() && 1 <= i < 8
    ensures m.ok[i..2 * i] == m.ok[8 - i..8] <==> !BadStraddle(i)
  {
    OkBytes(m);
    var x, y := m.ok[i..2 * i], m.ok[8 - i..8];
    if i == 3 { assert x[0] == 10 && y[0] == 75; }
    else if i == 5 { assert x[0] == 75 && y[0] == 10; }
    else if i == 6 { assert x[2] == 0 && y[2] == 79; }
    else if i == 7 { assert x[1] == 0 && y[1] == 13; }
    else if i == 1 { assert x == [10] == y; }
    else if i == 2 { assert x == [13, 10] == y; }
    else { assert x == [79, 75, 13, 10] == y; }
  }

  lemma OkIsNotSeamSafe(m: Image)
    requires m.Valid()
    ensures !SeamSafe(m.ok, 8)
  {
    OkStraddlesIff(m, 3);
  }

  lemma CmglBytes(m: Image)
    requires m.Valid()
    ensures m.cmgl[..8] == T_CMGL
    ensures m.cmgl[0] == 13 && m.cmgl[1] == 10 && m.cmgl[2] == 43 && m.cmgl[3] == 67
    ensures m.cmgl[4] == 77 && m.cmgl[5] == 71 && m.cmgl[6] == 76 && m.cmgl[7] == 58 && m.cmgl[8] == 0
  {
    var t := T_CMGL + [0];
    assert m.cmgl[..9] == t;
    assert forall i :: 0 <= i < 9 ==> m.cmgl[i] == t[i];
    assert m.cmgl[..8] == t[..8] == T_CMGL;
  }

  /** Of the straddles of this one only that with 4 bytes behind the seam is. */
  lemma HeaderStraddlesIff(m: Image, i: nat)
    requires m.Valid() && 1 <= i < 8
    ensures m.cmgl[i..2 * i] == m.cmgl[8 - i..8] <==> !BadHeader(i)
  {
    CmglBytes(m);
    var x, y := m.cmgl[i..2 * i], m.cmgl[8 - i..8];
    if i != 4 { assert x[0] == m.cmgl[i] != m.cmgl[8 - i] == y[0]; }
  }

  lemma CleanEnd(t: seq<byte>)
    requires Clean(t)
    ensures Clean(t + T_OK) && Clean(t + T_CMGL)
  {
  }

  // ------------------------------------------- nothing is seen in front of the end

  lemma OccursInBoth(c: seq<byte>, e: seq<byte>, w: seq<byte>, p: seq<byte>, j: nat)
    requires c <= w && e <= w && j + |p| <= |e| && OccursAt(c, p, j)
    ensures OccursAt(e, p, j)
  {
    assert c[j..j + |p|] == w[j..j + |p|] == e[j..j + |p|];
  }

  /** Clean bytes without an end at j show no end at j. */
  lemma OkNotSeen(a: seq<byte>, b: seq<byte>, e: seq<byte>, w: seq<byte>, m: Image, j: nat)
    requires m.Valid() && a + b <= w && e <= w && j + 8 <= |e| && Clean(e) && !OccursAt(e, T_OK, j)
    ensures !Seen(a, b, m.ok, 8, j) && !OccursAt(a + b, T_OK, j)
  {
    hide Clean;
    OkBytes(m);
    if OccursAt(a + b, T_OK, j) { OccursInBoth(a + b, e, w, T_OK, j); }
    if |a| < j + 8 && j < |a| {
      var i := j + 8 - |a|;
      if BadStraddle(i) {
        if i <= |b| && b[..i] == m.ok[i..2 * i] && a[j..] == m.ok[..8 - i] {
          BadSeen(a, b, e, w, m, i);
        }
      } else {
        OkStraddlesIff(m, i);
        SeenIs(a, b, m.ok, 8, j);
      }
    }
  }

  /** What stands around the seam stands in the clean bytes. */
  lemma AroundSeam(a: seq<byte>, b: seq<byte>, e: seq<byte>, w: seq<byte>, mem: seq<byte>, i: nat)
    requires 0 < i < 8 && 15 <= |mem| && i <= |b| && 8 - i <= |a|
    requires a + b <= w && e <= w && |a| + i <= |e|
    requires b[..i] == mem[i..2 * i] && a[|a| + i - 8..] == mem[..8 - i]
    ensures e[|a| + i - 8..|a| + i] == mem[..8 - i] + mem[i..2 * i]
  {
    var j := |a| + i - 8;
    assert (a + b)[j..|a| + i] == a[j..] + b[..i];
    assert e[j..|a| + i] == w[j..|a| + i] == (a + b)[j..|a| + i];
  }

  /** What is compared across the seam at a bad straddle is not clean. */
  lemma BadSeen(a: seq<byte>, b: seq<byte>, e: seq<byte>, w: seq<byte>, m: Image, i: nat)
    requires m.Valid() && BadStraddle(i) && i <= |b| && 8 - i <= |a|
    requires a + b <= w && e <= w && |a| + i <= |e|
    requires b[..i] == m.ok[i..2 * i] && a[|a| + i - 8..] == m.ok[..8 - i]
    ensures !Clean(e)
  {
    OkBytes(m);
    AroundSeam(a, b, e, w, m.ok, i);
    var x := e[|a| + i - 8..|a| + i];
    if i == 3 {
      assert e[|a|] == x[5] == m.ok[3] == LF && e[|a| - 1] == x[4] == m.ok[4];
    } else {
      assert e[|a| + 8 - i] == x[16 - 2 * i] == m.ok[8] == 0;
    }
  }

  /** Clean bytes with nothing like a header at j show no header at j. */
  lemma HeaderNotSeen(a: seq<byte>, b: seq<byte>, e: seq<byte>, w: seq<byte>, m: Image, j: nat)
    requires m.Valid() && a + b <= w && e <= w && j + 8 <= |e| && Clean(e) && !Headlike(e, j)
    ensures !Seen(a, b, m.cmgl, 8, j) && !OccursAt(a + b, T_CMGL, j)
  {
    hide Clean;
    CmglBytes(m);
    if OccursAt(a + b, T_CMGL, j) { OccursInBoth(a + b, e, w, T_CMGL, j); }
    if |a| < j + 8 && j < |a| {
      var i := j + 8 - |a|;
      if BadHeader(i) {
        if i <= |b| && b[..i] == m.cmgl[i..2 * i] && a[j..] == m.cmgl[..8 - i] {
          BadHeaderSeen(a, b, e, w, m, i);
        }
      } else {
        HeaderStraddlesIff(m, i);
        SeenIs(a, b, m.cmgl, 8, j);
      }
    }
  }

  lemma BadHeaderSeen(a: seq<byte>, b: seq<byte>, e: seq<byte>, w: seq<byte>, m: Image, i: nat)
    requires m.Valid() && BadHeader(i) && i <= |b| && 8 - i <= |a|
    requires a + b <= w && e <= w && |a| + i <= |e|
    requires b[..i] == m.cmgl[i..2 * i] && a[|a| + i - 8..] == m.cmgl[..8 - i]
    ensures !Clean(e) || Headlike(e, |a| + i - 8)
  {
    CmglBytes(m);
    AroundSeam(a, b, e, w, m.cmgl, i);
    var x := e[|a| + i - 8..|a| + i];
    if i == 1 {
      assert e[|a|] == x[7] == m.cmgl[1] == LF && e[|a| - 1] == x[6] == m.cmgl[6];
    } else if i == 2 {
      assert x == ALIKE2;
    } else if i == 3 {
      assert x == ALIKE3;
    } else {
      assert e[|a| + 8 - i] == x[16 - 2 * i] == m.cmgl[8] == 0;
    }
  }

  // ------------------------------------------------------------- what is searched

  /** With nothing seen in front of n and the pattern at n, the search gives n if the
      straddle is a good one. */
  lemma SearchIs(v: View, mem: seq<byte>, n: nat, bad: bool)
    requires v.Valid() && 15 <= |mem|
    requires forall j: nat | j < n :: !Seen(v.Head(), v.Tail(), mem, 8, j) && !OccursAt(v.data, mem[..8], j)
    requires |v.data| >= n + 8 ==> OccursAt(v.data, mem[..8], n) && (Seen(v.Head(), v.Tail(), mem, 8, n) <==> !bad)
    ensures var r := UntilMem(v.Head(), v.Tail(), mem, 8);
      && (r == Some(n) <==> |v.data| >= n + 8 && !bad)
      && (|v.data| < n + 8 ==> r.None?)
      && (r.Some? ==> r.value >= n)
    ensures Find(v.data, mem[..8], 0) == if |v.data| >= n + 8 then Some(n) else None
  {
    hide UntilMem, Find, Seen;
    var a, b, c := v.Head(), v.Tail(), v.data;
    assert a + b == c;
    UntilMemFirst(a, b, mem, 8);
    if |c| >= n + 8 {
      FindIs(c, mem[..8], 0, n);
    } else {
      forall j: nat ensures !Seen(a, b, mem, 8, j) && !OccursAt(c, mem[..8], j) { SeenInPieces(a, b, mem, 8, j); }
    }
  }

  /** With nothing seen up to n, the search goes beyond n. */
  lemma SearchBeyond(v: View, mem: seq<byte>, n: nat)
    requires v.Valid() && 15 <= |mem|
    requires forall j: nat | j <= n && j + 8 <= |v.data| ::
      !Seen(v.Head(), v.Tail(), mem, 8, j) && !OccursAt(v.data, mem[..8], j)
    ensures var r := UntilMem(v.Head(), v.Tail(), mem, 8); r.Some? ==> r.value > n && |v.data| >= n + 8
    ensures var k := Find(v.data, mem[..8], 0); k.Some? ==> k.value > n && |v.data| >= n + 8
  {
    hide UntilMem, Find, Seen;
    var a, b := v.Head(), v.Tail();
    assert a + b == v.data;
    UntilMemFirst(a, b, mem, 8);
    forall j: nat | Seen(a, b, mem, 8, j) ensures j + 8 <= |v.data| { SeenInPieces(a, b, mem, 8, j); }
  }

  /** Of a response that has arrived with its whole end, the search finds the end,
      unless it lies across the seam in a bad way; before that, it finds nothing. */
  lemma OkSearch(v: View, t: seq<byte>, w: seq<byte>, m: Image)
    requires v.Valid() && m.Valid() && IsListing(t) && v.data <= w && t + T_OK <= w
    ensures var r := UntilMem(v.Head(), v.Tail(), m.ok, 8);
      && (r == Some(|t|) <==> |v.data| >= |t| + 8 && !BadStraddle(|t| + 8 - |v.Head()|))
      && (|v.data| < |t| + 8 ==> r.None?)
      && (r.Some? ==> r.value >= |t|)
    ensures Find(v.data, T_OK, 0) == if |v.data| >= |t| + 8 then Some(|t|) else None
  {
    hide Headed, Headlike, UntilMem, Find, Seen, Clean, OccursAt;
    var a, b, c, e := v.Head(), v.Tail(), v.data, t + T_OK;
    assert a + b == c;
    OkBytes(m);
    CleanEnd(t);
    forall j: nat | j < |t| ensures !Seen(a, b, m.ok, 8, j) && !OccursAt(c, T_OK, j) { OkNotSeen(a, b, e, w, m, j); }
    if |c| >= |t| + 8 {
      EndOccurs(c, t, T_OK, w);
      SeenAtEnd(a, b, m, |t|);
    }
    SearchIs(v, m.ok, |t|, BadStraddle(|t| + 8 - |a|));
  }

  lemma EndOccurs(c: seq<byte>, t: seq<byte>, p: seq<byte>, w: seq<byte>)
    requires c <= w && t + p <= w && |c| >= |t| + |p|
    ensures OccursAt(c, p, |t|)
  {
    assert c[|t|..|t| + |p|] == w[|t|..|t| + |p|] == (t + p)[|t|..] == p;
  }

  lemma SeenAtEnd(a: seq<byte>, b: seq<byte>, m: Image, j: nat)
    requires m.Valid() && OccursAt(a + b, T_OK, j)
    ensures Seen(a, b, m.ok, 8, j) <==> !BadStraddle(j + 8 - |a|)
  {
    OkBytes(m);
    if |a| < j + 8 && j < |a| {
      var i := j + 8 - |a|;
      OkStraddlesIff(m, i);
      OccursAcross(a, b, T_OK, i);
      if BadStraddle(i) {
        assert T_OK[8 - i..] == m.ok[..8][8 - i..] == m.ok[8 - i..8];
      } else {
        SeenIs(a, b, m.ok, 8, j);
      }
    }
  }

  lemma SeenAtHeader(a: seq<byte>, b: seq<byte>, m: Image, j: nat)
    requires m.Valid() && OccursAt(a + b, T_CMGL, j)
    ensures Seen(a, b, m.cmgl, 8, j) <==> !BadHeader(j + 8 - |a|)
  {
    CmglBytes(m);
    if |a| < j + 8 && j < |a| {
      var i := j + 8 - |a|;
      HeaderStraddlesIff(m, i);
      OccursAcross(a, b, T_CMGL, i);
      if BadHeader(i) {
        assert T_CMGL[8 - i..] == m.cmgl[..8][8 - i..] == m.cmgl[8 - i..8];
      } else {
        SeenIs(a, b, m.cmgl, 8, j);
      }
    }
  }

  /** Behind an entry that is not the last, the search finds the next one's header,
      unless it lies across the seam in a bad way; no end of the list is found there. */
  lemma HeaderSearch(v: View, t: seq<byte>, w: seq<byte>, m: Image)
    requires v.Valid() && m.Valid() && IsEntry(t) && v.data <= w && t + T_CMGL <= w
    ensures var r := UntilMem(v.Head(), v.Tail(), m.cmgl, 8);
      && (r == Some(|t|) <==> |v.data| >= |t| + 8 && !BadHeader(|t| + 8 - |v.Head()|))
      && (|v.data| < |t| + 8 ==> r.None?)
      && (r.Some? ==> r.value >= |t|)
    ensures var r := UntilMem(v.Head(), v.Tail(), m.ok, 8); r.Some? ==> r.value > |t| && |v.data| >= |t| + 8
    ensures Find(v.data, T_CMGL, 0) == if |v.data| >= |t| + 8 then Some(|t|) else None
    ensures var l := Find(v.data, T_OK, 0); l.Some? ==> l.value > |t| && |v.data| >= |t| + 8
  {
    hide Headlike, UntilMem, Find, Seen, Clean, OccursAt, IsPrefix;
    var a, b, c, e := v.Head(), v.Tail(), v.data, t + T_CMGL;
    assert a + b == c;
    CmglBytes(m);
    OkBytes(m);
    CleanEnd(t);
    EndIsNoOther(t);
    forall j: nat | j < |t| ensures !Seen(a, b, m.cmgl, 8, j) && !OccursAt(c, T_CMGL, j) {
      HeaderNotSeen(a, b, e, w, m, j);
    }
    forall j: nat | j <= |t| ensures !Seen(a, b, m.ok, 8, j) && !OccursAt(c, T_OK, j) { OkNotSeen(a, b, e, w, m, j); }
    if |c| >= |t| + 8 {
      EndOccurs(c, t, T_CMGL, w);
      SeenAtHeader(a, b, m, |t|);
    }
    SearchIs(v, m.cmgl, |t|, BadHeader(|t| + 8 - |a|));
    SearchBeyond(v, m.ok, |t|);
  }

  /** Neither end begins like the other. */
  lemma EndIsNoOther(t: seq<byte>)
    ensures !OccursAt(t + T_CMGL, T_OK, |t|) && !Headlike(t + T_OK, |t|)
  {
    var e, x := t + T_CMGL, t + T_OK;
    assert e[|t|..|t| + 8][2] == 43 && x[|t|..|t| + 8][2] == 13;
  }

  /** In the last entry of a list, and right behind it, no header is found. */
  lemma LastSearch(v: View, t: seq<byte>, w: seq<byte>, m: Image)
    requires v.Valid() && m.Valid() && IsListing(t) && IsPrefix(CMGL, t) && v.data <= w && t + T_OK <= w
    ensures var r := UntilMem(v.Head(), v.Tail(), m.cmgl, 8); r.Some? ==> r.value > |t| && |v.data| >= |t| + 8
    ensures var k := Find(v.data, T_CMGL, 0); k.Some? ==> k.value > |t| && |v.data| >= |t| + 8
  {
    hide Headed, Headlike, UntilMem, Find, Seen, Clean, OccursAt, IsPrefix;
    var a, b, c, e := v.Head(), v.Tail(), v.data, t + T_OK;
    assert a + b == c;
    CmglBytes(m);
    CleanEnd(t);
    EndIsNoOther(t);
    forall j: nat | j <= |t| ensures !Seen(a, b, m.cmgl, 8, j) && !OccursAt(c, T_CMGL, j) {
      HeaderNotSeen(a, b, e, w, m, j);
    }
    SearchBeyond(v, m.cmgl, |t|);
  }

  /** A header that is not complete is no header of another kind, and no line. */
  lemma HeaderArriving(t: seq<byte>, c: seq<byte>)
    requires Headed(t) && c <= t && c != [] && !Headed(c)
    ensures !IsPrefix(PROMPT, c) && !StartsTwoLines(c)
    ensures Find(c, EOL, 0).None?
  {
    forall i: nat ensures !OccursAt(c, EOL, i) {
      if i + 2 <= |c| { assert c[i..i + 2][0] == c[i] == t[i] != CR; }
    }
    assert c[0] == t[0];
    if |c| > 4 { assert c[1] == t[1] && c[2] == t[2] && c[3] == t[3]; }
  }
}
