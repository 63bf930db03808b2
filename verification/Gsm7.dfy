/** Encoding, packing and unpacking of 7-bit text (src/char_conv.c; section 6.1.2.1
    of 3GPP TS 23.038). Characters are given as code points; the source keeps
    them as 16-bit numbers in big-endian byte order. */
module Gsm7 {
  import opened BitStrings
  import opened Gsm7Alphabet

  const ESC: nat := 0x1B

  ghost predicate Encodable(msg: seq<nat>) {
    forall i :: 0 <= i < |msg| ==> Encoding(msg[i]) != INVALID
  }

  /** The 16-bit element of a character: a septet, or the escape and a septet. */
  function Element(c: nat): (x: nat)
    requires Encoding(c) != INVALID
    ensures x < 0x10000
  {
    EncodingMeansIt(c);
    if Encoding(c) > 127 then ESC * 256 + (Encoding(c) - 128) else Encoding(c)
  }

  function Elements(msg: seq<nat>): (r: seq<nat>)
    requires Encodable(msg)
    ensures |r| == |msg|
    ensures forall i :: 0 <= i < |r| ==> r[i] < 0x10000
  {
    seq(|msg|, i requires 0 <= i < |msg| && Encodable(msg) => Element(msg[i]))
  }

  /** The septets of an element, high byte first. */
  function SeptetsOf(x: nat): (s: seq<nat>)
    ensures forall i :: 0 <= i < |s| ==> s[i] < 128
  {
    if x / 256 == 0 then [x % 128] else [x / 256 % 128, x % 128]
  }

  function Septets(elements: seq<nat>): (s: seq<nat>)
    ensures forall i :: 0 <= i < |s| ==> s[i] < 128
  {
    if elements == [] then []
    else Septets(elements[..|elements| - 1]) + SeptetsOf(elements[|elements| - 1])
  }

  /** What the decoder has written, and whether it stands behind an escape. */
  datatype Reading = Reading(text: seq<nat>, esc: bool)

  function ReadOne(r: Reading, s: nat): Reading
    requires s < 128
  {
    var c := if r.esc then Extended(s) else Basic(s);
    if c == ESC then Reading(r.text, true) else Reading(r.text + [c], false)
  }

  function Read(septets: seq<nat>): Reading
    requires forall i :: 0 <= i < |septets| ==> septets[i] < 128
  {
    if septets == [] then Reading([], false)
    else ReadOne(Read(septets[..|septets| - 1]), septets[|septets| - 1])
  }

  // -------------------------------------------------------- the text round trip

  lemma ReadOneMore(s: seq<nat>, x: nat)
    requires x < 128 && forall i :: 0 <= i < |s| ==> s[i] < 128
    ensures Read(s + [x]) == ReadOne(Read(s), x)
  {
    assert (s + [x])[..|s|] == s;
  }

  lemma ReadBasic(s: seq<nat>, x: nat)
    requires x < 128 && x != ESC && (forall i :: 0 <= i < |s| ==> s[i] < 128) && !Read(s).esc
    ensures Read(s + [x]) == Reading(Read(s).text + [Basic(x)], false)
  {
    hide Basic, Read;
    EscapeIsUnique(x);
    ReadOneMore(s, x);
  }

  lemma ReadExtended(s: seq<nat>, x: nat)
    requires x < 128 && (forall i :: 0 <= i < |s| ==> s[i] < 128) && !Read(s).esc
    ensures Read(s + [ESC, x]) == Reading(Read(s).text + [Extended(x)], false)
  {
    hide Basic, Extended, Read;
    EscapeIsUnique(ESC);
    EscapeIsUnique(x);
    ReadOneMore(s, ESC);
    ReadOneMore(s + [ESC], x);
    assert s + [ESC, x] == s + [ESC] + [x];
  }

  lemma SeptetsOfPair(h: nat, x: nat)
    requires 0 < h < 128 && x < 128
    ensures SeptetsOf(h * 256 + x) == [h, x] && SeptetsOf(x) == [x]
  {
    assert (h * 256 + x) / 256 == h;
    assert (h * 256 + x) % 128 == x;
  }

  lemma ReadCharacter(s: seq<nat>, c: nat)
    requires forall i :: 0 <= i < |s| ==> s[i] < 128
    requires Encoding(c) != INVALID && c != ESC && !Read(s).esc
    ensures Read(s + SeptetsOf(Element(c))) == Reading(Read(s).text + [c], false)
  {
    hide Basic, Extended, Encoding, Read;
    hide SeptetsOf;
    EncodingMeansIt(c);
    var e := Encoding(c);
    if e > 127 {
      SeptetsOfPair(ESC, e - 128);
      ReadExtended(s, e - 128);
    } else {
      SeptetsOfPair(ESC, e);
      ReadBasic(s, e);
    }
  }

  lemma {:induction false} ReadEncoded(msg: seq<nat>)
    requires Encodable(msg) && ESC !in msg
    ensures Read(Septets(Elements(msg))) == Reading(msg, false)
  {
    hide Encoding, Element, SeptetsOf, ReadOne;
    if msg != [] {
      var front, c := msg[..|msg| - 1], msg[|msg| - 1];
      ReadEncoded(front);
      assert Elements(msg)[..|msg| - 1] == Elements(front);
      ReadCharacter(Septets(Elements(front)), c);
      assert msg == front + [c];
    }
  }

  lemma {:induction false} NeverReadsEscape(s: seq<nat>)
    requires forall i :: 0 <= i < |s| ==> s[i] < 128
    ensures ESC !in Read(s).text
  {
    if s != [] {
      NeverReadsEscape(s[..|s| - 1]);
    }
  }

  /** Text comes back from its septets if and only if it has no U+001B. */
  lemma TextRoundTripIff(msg: seq<nat>)
    requires Encodable(msg)
    ensures Read(Septets(Elements(msg))).text == msg <==> ESC !in msg
  {
    if ESC !in msg {
      ReadEncoded(msg);
    } else {
      NeverReadsEscape(Septets(Elements(msg)));
    }
  }

  // --------------------------------------------------------------- gsm7_encode

  function SeptetCount(msg: seq<nat>): nat {
    if msg == [] then 0 else SeptetCount(msg[..|msg| - 1]) + if Encoding(msg[|msg| - 1]) > 127 then 2 else 1
  }

  lemma {:induction false} CountsSeptets(msg: seq<nat>)
    requires Encodable(msg)
    ensures SeptetCount(msg) == |Septets(Elements(msg))|
  {
    hide Encoding;
    if msg != [] {
      var n := |msg| - 1;
      CountsSeptets(msg[..n]);
      assert Elements(msg)[..n] == Elements(msg[..n]);
      EncodingMeansIt(msg[n]);
    }
  }

  /** gsm7_encode, also in place: -1 for a character without an encoding, else
      the elements of the text and its number of septets. */
  method Encode(input: array<nat>, len: nat, out: array<nat>) returns (r: int)
    requires len <= input.Length && len <= out.Length
    modifies out
    ensures r == -1 <==> !Encodable(old(input[..len]))
    ensures r != -1 ==> r == SeptetCount(old(input[..len])) && out[..len] == Elements(old(input[..len]))
    ensures forall i :: len <= i < out.Length ==> out[i] == old(out[i])
  {
    hide Encoding;
    r := 0;
    ghost var msg := input[..len];
    for i := 0 to len
      invariant Encodable(msg[..i])
      invariant r == SeptetCount(msg[..i])
      invariant forall k :: 0 <= k < i ==> out[k] == Element(msg[k])
      invariant forall k :: i <= k < out.Length ==> out[k] == old(out[k])
      invariant forall k :: i <= k < len ==> input[k] == msg[k]
    {
      var c := Encoding(input[i]);
      if c == INVALID {
        return -1;
      }
      EncodingMeansIt(msg[i]);
      EscapeEncodes();
      assert msg[..i + 1][..i] == msg[..i];
      if c > 127 {
        r := r + 2;
        out[i] := Encoding(ESC) * 256 + (c - 128);
      } else {
        r := r + 1;
        out[i] := c;
      }
    }
    assert msg[..len] == msg;
  }

  lemma EscapeEncodes()
    ensures Encoding(ESC) == ESC
  {
  }

  // ----------------------------------------------------------------- gsm7_pack

  /** The bits of a packed text: padding, septets, and zeros up to a whole byte. */
  ghost predicate Packs(bytes: seq<nat>, padding: nat, septets: seq<nat>) {
    && |bytes| == (padding + 7 * |septets| + 7) / 8
    && (forall i :: 0 <= i < |bytes| ==> bytes[i] < 256)
    && Stream(bytes, 8) ==
         Zeros(padding) + Stream(septets, 7) + Zeros(8 * |bytes| - padding - 7 * |septets|)
  }

  /** Nibbles that gsm7_pack reports for a padding and a number of septets. */
  function NibbleCount(padding: nat, septets: nat): nat {
    var bits := padding + 7 * septets;
    (bits + 7) / 8 * 2 - if 1 <= bits % 8 <= 3 then 1 else 0
  }

  /** The accumulator of the packing loop: `pad` bits are waiting. */
  ghost predicate Pending(bytes: seq<nat>, value: nat, pad: nat, padding: nat, septets: seq<nat>) {
    && pad < 8 && value < Pow2(pad)
    && (forall i :: 0 <= i < |bytes| ==> bytes[i] < 256)
    && Stream(bytes, 8) + Bits(value, pad) == Zeros(padding) + Stream(septets, 7)
  }

  lemma PushSeptet(bytes: seq<nat>, value: nat, pad: nat, padding: nat, septets: seq<nat>, s: nat)
    requires Pending(bytes, value, pad, padding, septets) && s < 128
    ensures var v := value + s * Pow2(pad);
      && v < Pow2(pad + 7)
      && Stream(bytes, 8) + Bits(v, pad + 7) == Zeros(padding) + Stream(septets + [s], 7)
  {
    hide Bits, Stream, Pow2, Zeros;
    SmallPowers();
    Pow2Adds(7, pad);
    MulAtLeast(s, 127, Pow2(pad));
    BitsJoin(value, pad, s, 7);
    StreamOneMore(septets, s, 7);
    var a, b, c := Stream(bytes, 8), Bits(value, pad), Bits(s, 7);
    assert a + (b + c) == (a + b) + c;
    assert (Zeros(padding) + Stream(septets, 7)) + c == Zeros(padding) + (Stream(septets, 7) + c);
  }

  lemma PopByte(bytes: seq<nat>, v: nat, n: nat, all: seq<bool>)
    requires n >= 8 && v < Pow2(n) && Stream(bytes, 8) + Bits(v, n) == all
    ensures v / 256 < Pow2(n - 8)
    ensures Stream(bytes + [v % 256], 8) + Bits(v / 256, n - 8) == all
  {
    hide Bits, Stream, Pow2, Value;
    SmallPowers();
    BitsCut(v, n, 8, v % 256, v / 256);
    StreamOneMore(bytes, v % 256, 8);
    var a, b, c := Stream(bytes, 8), Bits(v % 256, 8), Bits(v / 256, n - 8);
    assert a + (b + c) == (a + b) + c;
  }

  /** What is left in the accumulator is less than a byte. */
  lemma Waiting(bytes: seq<nat>, value: nat, pad: nat, padding: nat, septets: seq<nat>)
    requires Pending(bytes, value, pad, padding, septets)
    ensures 8 * |bytes| + pad == padding + 7 * |septets|
    ensures value < 256
  {
    hide Bits, Stream, Pow2, Zeros;
    assert |Stream(bytes, 8) + Bits(value, pad)| == 8 * |bytes| + pad;
    SmallPowers();
    Pow2Adds(pad, 8 - pad);
    MulAtLeast(1, Pow2(8 - pad), Pow2(pad));
  }

  /** The last byte takes the waiting bits and zeros. */
  lemma Flush(bytes: seq<nat>, value: nat, pad: nat, padding: nat, septets: seq<nat>)
    requires Pending(bytes, value, pad, padding, septets)
    ensures Packs(if pad == 0 then bytes else bytes + [value], padding, septets)
  {
    hide Bits, Stream, Pow2, Zeros;
    Waiting(bytes, value, pad, padding, septets);
    var all := Zeros(padding) + Stream(septets, 7);
    if pad == 0 {
      assert |Bits(value, 0)| == 0 && |Zeros(0)| == 0;
      assert Stream(bytes, 8) == all + Zeros(0);
    } else {
      BitsJoin(value, pad, 0, 8 - pad);
      BitsOfZero(8 - pad);
      StreamOneMore(bytes, value, 8);
      assert Stream(bytes, 8) + (Bits(value, pad) + Zeros(8 - pad)) == all + Zeros(8 - pad);
    }
  }

  /** One turn of the inner loop: a septet goes into the accumulator, and a byte
      out of it when it holds one. */
  method PackSeptet(
    out: array<nat>, x0: nat, value0: nat, pad0: nat, s: nat, ghost padding: nat, ghost septets: seq<nat>)
    returns (x: nat, value: nat, pad: nat)
    requires x0 <= out.Length && s < 128
    requires Pending(out[..x0], value0, pad0, padding, septets)
    requires pad0 >= 1 ==> x0 < out.Length
    modifies out
    ensures x <= out.Length && out[..x0] == old(out[..x0])
    ensures Pending(out[..x], value, pad, padding, septets + [s])
    ensures forall i :: x <= i < out.Length ==> out[i] == old(out[i])
  {
    hide Bits, Stream, Pow2, Zeros;
    ghost var bytes := out[..x0];
    PushSeptet(bytes, value0, pad0, padding, septets, s);
    x, value, pad := x0, value0 + s * Pow2(pad0), pad0 + 7;
    if pad >= 8 {
      PopByte(bytes, value, pad, Zeros(padding) + Stream(septets + [s], 7));
      out[x] := value % 256;
      assert out[..x + 1] == bytes + [value % 256];
      x := x + 1;
      value := value / 256;
      pad := pad - 8;
    }
  }

  /** gsm7_pack: `len` elements into at most `outSize` bytes, behind `padding`
      bits. The caller provides room for the escapes, which the size check does
      not count. */
  method Pack(input: array<nat>, len: nat, out: array<nat>, outSize: nat, padding: nat) returns (r: int)
    requires len <= input.Length && outSize <= out.Length && padding < 8 && input != out
    requires (padding + 7 * |Septets(input[..len])| + 7) / 8 <= out.Length
    modifies out
    ensures r == -1 <==> (padding + 7 * len + 7) / 8 + 1 > outSize
    ensures r != -1 ==>
      var s := Septets(old(input[..len]));
      && r == NibbleCount(padding, |s|)
      && Packs(out[..(padding + 7 * |s| + 7) / 8], padding, s)
  {
    hide Bits, Stream, Pow2, Zeros, SeptetsOf, Pending, Packs, NibbleCount;
    var need := (padding + 7 * len + 7) / 8 + 1;
    if need > outSize {
      return -1;
    }
    ghost var elements := input[..len];
    ghost var s: seq<nat> := [];
    var x: nat, value, pad := 0, 0, padding;
    NothingPending(padding);
    assert out[..0] == [];
    for i := 0 to len
      invariant x <= out.Length && input[..len] == elements
      invariant s == Septets(elements[..i])
      invariant Pending(out[..x], value, pad, padding, s)
    {
      SeptetsMonotone(elements, i + 1);
      SeptetsPrefix(elements, i);
      x, value, pad := PackElement(out, x, value, pad, input[i], padding, s);
      s := s + SeptetsOf(elements[i]);
    }
    assert elements[..len] == elements;
    r := Finish(out, x, value, pad, padding, s);
  }

  /** The end of gsm7_pack: the last byte and the length in nibbles. */
  method Finish(out: array<nat>, x0: nat, value: nat, pad: nat, ghost padding: nat, ghost s: seq<nat>) returns (r: nat)
    requires x0 <= out.Length && Pending(out[..x0], value, pad, padding, s)
    requires (padding + 7 * |s| + 7) / 8 <= out.Length
    modifies out
    ensures r == NibbleCount(padding, |s|)
    ensures Packs(out[..(padding + 7 * |s| + 7) / 8], padding, s)
  {
    hide Bits, Stream, Pow2, Zeros, Pending;
    Waiting(out[..x0], value, pad, padding, s);
    PendingPad(out[..x0], value, pad, padding, s);
    Flush(out[..x0], value, pad, padding, s);
    var x := x0;
    if pad != 0 {
      ghost var bytes := out[..x];
      out[x] := value;
      assert out[..x + 1] == bytes + [value];
      x := x + 1;
    }
    Lengths(x0, pad, padding + 7 * |s|);
    r := x * 2 - if pad == 1 || pad == 2 || pad == 3 then 1 else 0;
  }

  lemma PendingPad(bytes: seq<nat>, value: nat, pad: nat, padding: nat, septets: seq<nat>)
    requires Pending(bytes, value, pad, padding, septets)
    ensures pad < 8
  {
  }

  lemma Lengths(x: nat, pad: nat, bits: nat)
    requires 8 * x + pad == bits && pad < 8
    ensures bits % 8 == pad && (bits + 7) / 8 == if pad == 0 then x else x + 1
  {
  }

  lemma NothingPending(padding: nat)
    requires padding < 8
    ensures Pending([], 0, padding, padding, [])
  {
    BitsOfZero(padding);
    assert Stream([], 8) + Bits(0, padding) == Zeros(padding) + Stream([], 7);
  }

  lemma SeptetsPrefix(elements: seq<nat>, i: nat)
    requires i < |elements|
    ensures Septets(elements[..i + 1]) == Septets(elements[..i]) + SeptetsOf(elements[i])
  {
    assert elements[..i + 1][..i] == elements[..i];
  }

  lemma {:induction false} SeptetsMonotone(elements: seq<nat>, i: nat)
    requires i <= |elements|
    ensures |Septets(elements[..i])| <= |Septets(elements)|
    decreases |elements| - i
  {
    if i < |elements| {
      SeptetsPrefix(elements, i);
      SeptetsMonotone(elements, i + 1);
    } else {
      assert elements[..i] == elements;
    }
  }

  /** The inner loop of gsm7_pack: the high byte, unless it is zero, then the low. */
  method PackElement(
    out: array<nat>, x0: nat, value0: nat, pad0: nat, element: nat, ghost padding: nat, ghost s: seq<nat>)
    returns (x: nat, value: nat, pad: nat)
    requires x0 <= out.Length
    requires Pending(out[..x0], value0, pad0, padding, s)
    requires padding + 7 * |s + SeptetsOf(element)| <= 8 * out.Length
    modifies out
    ensures x <= out.Length
    ensures Pending(out[..x], value, pad, padding, s + SeptetsOf(element))
  {
    hide Bits, Stream, Pow2, Zeros, Pending;
    x, value, pad := x0, value0, pad0;
    ghost var t := s;
    Waiting(out[..x], value, pad, padding, t);
    var high := element / 256;
    if high != 0 {
      x, value, pad := PackSeptet(out, x, value, pad, high % 128, padding, t);
      t := t + [high % 128];
      Waiting(out[..x], value, pad, padding, t);
    }
    x, value, pad := PackSeptet(out, x, value, pad, element % 128, padding, t);
    assert t + [element % 128] == s + SeptetsOf(element);
  }

  // -------------------------------------------------------- gsm7_unpack_decode

  /** The septets that lie completely in `bits` behind the padding. */
  function Unpacked(bits: seq<bool>, padding: nat): (s: seq<nat>)
    ensures |s| == if |bits| < padding then 0 else (|bits| - padding) / 7
    ensures forall i :: 0 <= i < |s| ==> s[i] < 128
  {
    SmallPowers();
    var n := if |bits| < padding then 0 else (|bits| - padding) / 7;
    seq(n, q requires 0 <= q < n && padding + 7 * n <= |bits| => Value(bits[padding + 7 * q..padding + 7 * q + 7]))
  }

  /** The first k nibbles of packed bytes. */
  ghost function Nibbles(bytes: seq<nat>, k: nat): (b: seq<bool>)
    requires k <= 2 * |bytes|
    ensures |b| == 4 * k
  {
    Stream(bytes, 8)[..4 * k]
  }

  function Nibble(b: nat, odd: bool): (n: nat)
    ensures n < 16
  {
    if odd then b / 16 % 16 else b % 16
  }

  lemma NibbleAt(bytes: seq<nat>, i: nat)
    requires i < 2 * |bytes| && bytes[i / 2] < 256
    ensures Nibbles(bytes, i + 1) == Nibbles(bytes, i) + Bits(Nibble(bytes[i / 2], i % 2 == 1), 4)
  {
    hide Bits, Stream, Pow2;
    var k := i / 2;
    var b := bytes[k];
    StreamAt(bytes, 8, k);
    SmallPowers();
    BitsJoin(b % 16, 4, b / 16, 4);
    var f, g, h := Stream(bytes[..k], 8), Bits(b % 16, 4), Bits(b / 16, 4);
    assert f + Bits(b, 8) == f + g + h;
    var all := Stream(bytes, 8);
    assert all[..8 * k] == f && all[..8 * k + 4] == f + g && all[..8 * k + 8] == f + g + h;
    assert i == 2 * k || i == 2 * k + 1;
  }

  /** The accumulator of the unpacking loop: below the unread bits it keeps the
      last septet, or 7 - padding zeros at the start. */
  ghost predicate Held(t: seq<bool>, padding: nat, value: nat, have: nat, q: nat) {
    && padding <= 7 && value < Pow2(have)
    && have + 7 * q == 7 - padding + |t|
    && Bits(value, have) == (Zeros(7 - padding) + t)[7 * q..]
  }

  lemma AddNibble(t: seq<bool>, padding: nat, value: nat, have: nat, q: nat, n: nat)
    requires Held(t, padding, value, have, q) && n < 16
    ensures Held(t + Bits(n, 4), padding, value + n * Pow2(have), have + 4, q)
  {
    hide Bits, Pow2, Zeros;
    SmallPowers();
    Pow2Adds(4, have);
    MulAtLeast(n, 15, Pow2(have));
    BitsJoin(value, have, n, 4);
    var z := Zeros(7 - padding);
    assert z + (t + Bits(n, 4)) == (z + t) + Bits(n, 4);
  }

  lemma TakeSeptet(t: seq<bool>, padding: nat, value: nat, have: nat, q: nat)
    requires Held(t, padding, value, have, q) && have >= 14
    ensures Held(t, padding, value / 128, have - 7, q + 1)
    ensures padding + 7 * q + 7 <= |t|
    ensures value / 128 % 128 == Value(t[padding + 7 * q..padding + 7 * q + 7])
  {
    hide Bits, Pow2, Zeros, Value;
    SmallPowers();
    var x := Zeros(7 - padding) + t;
    var v := value / 128;
    BitsCut(value, have, 7, value % 128, v);
    assert Bits(v, have - 7) == Bits(value, have)[7..] == x[7 * q..][7..] == x[7 * (q + 1)..];
    BitsCut(v, have - 7, 7, v % 128, v / 128);
    assert x[7 * (q + 1)..][..7] == t[padding + 7 * q..padding + 7 * q + 7];
  }

  lemma UnpackedGrows(t: seq<bool>, b: seq<bool>, padding: nat)
    ensures Unpacked(t, padding) <= Unpacked(t + b, padding)
  {
    hide Value;
    var s, l := Unpacked(t, padding), Unpacked(t + b, padding);
    forall q | 0 <= q < |s| ensures s[q] == l[q] {
      assert (t + b)[padding + 7 * q..padding + 7 * q + 7] == t[padding + 7 * q..padding + 7 * q + 7];
    }
  }

  /** The state of the unpacking loop after some nibbles: `t` are their bits. */
  ghost predicate Unpacking(t: seq<bool>, padding: nat, value: nat, have: nat, text: seq<nat>, esc: bool) {
    var s := Unpacked(t, padding);
    && have < 14 && (s == [] || have >= 7)
    && Held(t, padding, value, have, |s|)
    && Read(s) == Reading(text, esc)
  }

  /** One turn of the outer loop; the inner loop runs at most once. */
  method UnpackNibble(
    value0: nat, have0: nat, esc0: bool, n: nat, ghost t: seq<bool>, ghost padding: nat, ghost text: seq<nat>)
    returns (value: nat, have: nat, esc: bool, c: seq<nat>)
    requires n < 16 && Unpacking(t, padding, value0, have0, text, esc0)
    ensures Unpacking(t + Bits(n, 4), padding, value, have, text + c, esc)
    ensures |c| <= 1
  {
    hide Bits, Pow2, Zeros, Value, Held, Basic, Extended, Read;
    ghost var u, s := t + Bits(n, 4), Unpacked(t, padding);
    AddNibble(t, padding, value0, have0, |s|, n);
    UnpackedGrows(t, Bits(n, 4), padding);
    value, have, esc, c := value0 + n * Pow2(have0), have0 + 4, esc0, [];
    HeldLength(u, padding, value, have, |s|);
    if have >= 14 {
      TakeSeptet(u, padding, value, have, |s|);
      have := have - 7;
      value := value / 128;
      assert Unpacked(u, padding) == s + [value % 128];
      ReadOneMore(s, value % 128);
      var val := if esc then Extended(value % 128) else Basic(value % 128);
      if val == ESC {
        esc := true;
      } else {
        esc := false;
        c := [val];
      }
    } else {
      assert Unpacked(u, padding) == s;
    }
    assert text + [] == text;
  }

  lemma HeldLength(t: seq<bool>, padding: nat, value: nat, have: nat, q: nat)
    requires Held(t, padding, value, have, q)
    ensures have + 7 * q == 7 - padding + |t|
  {
  }

  lemma TextSoFar(t: seq<bool>, padding: nat, value: nat, have: nat, text: seq<nat>, esc: bool)
    requires Unpacking(t, padding, value, have, text, esc)
    ensures Read(Unpacked(t, padding)).text == text
  {
  }

  lemma NothingUnpacked(padding: nat)
    requires padding <= 7
    ensures Unpacking([], padding, 0, 7 - padding, [], false)
  {
    hide Bits, Pow2, Value;
    BitsOfZero(7 - padding);
    assert (Zeros(7 - padding) + [])[0..] == Zeros(7 - padding);
  }

  /** gsm7_unpack_decode with the default tables: the text of the first `nibbles`
      nibbles behind the padding, or -1 when it leaves no free element in `out`
      before the last nibble is looked at. */
  method UnpackDecode(input: array<nat>, nibbles: nat, out: array<nat>, outSize: nat, padding: nat) returns (r: int)
    requires nibbles <= 2 * input.Length && outSize <= out.Length && padding <= 7 && input != out
    requires forall i :: 0 <= i < input.Length ==> input[i] < 256
    modifies out
    ensures outSize == 0 ==> r == -1
    ensures outSize > 0 && nibbles < 2 ==> r == 0
    ensures outSize > 0 && nibbles >= 2 ==>
      (r == -1 <==> |Read(Unpacked(Nibbles(old(input[..]), nibbles - 1), padding)).text| >= outSize)
    ensures r != -1 && nibbles >= 2 ==>
      var text := Read(Unpacked(Nibbles(old(input[..]), nibbles), padding)).text;
      r == |text| <= outSize && out[..r] == text
  {
    hide Bits, Pow2, Stream, Value, Held, Read, Unpacking, Unpacked, Nibbles, Nibble;
    if outSize == 0 {
      return -1;
    }
    if nibbles < 2 {
      out[0] := 0;
      return 0;
    }
    ghost var bytes := input[..];
    var value: nat, have: nat, esc, x: nat := 0, 7 - padding, false, 0;
    NothingUnpacked(padding);
    assert Nibbles(bytes, 0) == [] && out[..0] == [];
    for i := 0 to nibbles
      invariant x <= outSize && input[..] == bytes
      invariant i > 0 ==> |Read(Unpacked(Nibbles(bytes, i - 1), padding)).text| < outSize
      invariant Unpacking(Nibbles(bytes, i), padding, value, have, out[..x], esc)
    {
      TextSoFar(Nibbles(bytes, i), padding, value, have, out[..x], esc);
      if x >= outSize {
        TextGrows(bytes, i, nibbles - 1, padding);
        return -1;
      }
      NibbleAt(bytes, i);
      assert bytes[i / 2] == input[i / 2];
      ghost var text := out[..x];
      var c;
      var n := Nibble(input[i / 2], i % 2 == 1);
      value, have, esc, c := UnpackNibble(value, have, esc, n, Nibbles(bytes, i), padding, text);
      if c != [] {
        out[x] := c[0];
        x := x + 1;
      }
      assert out[..x] == text + c;
    }
    TextSoFar(Nibbles(bytes, nibbles), padding, value, have, out[..x], esc);
    r := x;
  }

  lemma {:induction false} TextGrows(bytes: seq<nat>, i: nat, k: nat, padding: nat)
    requires i <= k <= 2 * |bytes|
    ensures |Read(Unpacked(Nibbles(bytes, i), padding)).text| <= |Read(Unpacked(Nibbles(bytes, k), padding)).text|
  {
    hide Stream, Unpacked;
    var t, u := Nibbles(bytes, i), Nibbles(bytes, k);
    assert u == t + u[4 * i..];
    UnpackedGrows(t, u[4 * i..], padding);
    ReadGrows(Unpacked(t, padding), Unpacked(u, padding));
  }

  lemma {:induction false} ReadGrows(a: seq<nat>, b: seq<nat>)
    requires a <= b && forall i :: 0 <= i < |b| ==> b[i] < 128
    ensures |Read(a).text| <= |Read(b).text|
    decreases |b|
  {
    hide Basic, Extended;
    if a != b {
      ReadGrows(a, b[..|b| - 1]);
    }
  }

  // ------------------------------------------------------------- the round trip

  /** Unpacking what was packed gives the septets back, and no spurious one: the
      reported nibbles leave at most 4 bits of slack. */
  lemma UnpackPacked(bytes: seq<nat>, padding: nat, septets: seq<nat>)
    requires padding <= 7 && Packs(bytes, padding, septets)
    requires forall i :: 0 <= i < |septets| ==> septets[i] < 128
    ensures var k := NibbleCount(padding, |septets|);
      && k <= 2 * |bytes| && 0 <= 4 * k - (padding + 7 * |septets|) <= 4
      && Unpacked(Nibbles(bytes, k), padding) == septets
  {
    hide Bits, Stream, Pow2, Zeros, Value, NibbleCount;
    var k := NibbleCount(padding, |septets|);
    SlackIsSmall(padding, |septets|, |bytes|);
    var t, s := Nibbles(bytes, k), Unpacked(Nibbles(bytes, k), padding);
    assert |s| == |septets|;
    forall q | 0 <= q < |s| ensures s[q] == septets[q] {
      StreamAt(septets, 7, q);
      SmallPowers();
      ValueOfBits(septets[q], 7);
      var z := Zeros(8 * |bytes| - padding - 7 * |septets|);
      SliceInside(Zeros(padding), Stream(septets, 7), z, 4 * k, 7 * q);
      assert Stream(septets, 7)[7 * q..7 * q + 7] == Bits(septets[q], 7);
    }
  }

  /** Seven bits of the middle part, seen in the whole. */
  lemma SliceInside(a: seq<bool>, b: seq<bool>, c: seq<bool>, len: nat, i: nat)
    requires |a| + i + 7 <= len <= |a| + |b| + |c| && i + 7 <= |b|
    ensures (a + b + c)[..len][|a| + i..|a| + i + 7] == b[i..i + 7]
  {
    var x, y := (a + b + c)[..len][|a| + i..|a| + i + 7], b[i..i + 7];
    forall j | 0 <= j < 7 ensures x[j] == y[j] {
      assert x[j] == (a + b + c)[|a| + i + j];
    }
  }

  lemma SlackIsSmall(padding: nat, n: nat, bytes: nat)
    requires bytes == (padding + 7 * n + 7) / 8
    ensures var k := NibbleCount(padding, n);
      && 0 <= k <= 2 * bytes && 0 <= 4 * k - (padding + 7 * n) <= 4
  {
    var bits := padding + 7 * n;
    var q, r := bits / 8, bits % 8;
    assert bits == 8 * q + r;
    assert bytes == if r == 0 then q else q + 1;
  }

  /** For every message of encodable characters and every padding: what comes out
      of unpacking the packed encoding is the message if and only if the message
      has no U+001B. */
  lemma RoundTripIff(msg: seq<nat>, bytes: seq<nat>, padding: nat)
    requires Encodable(msg) && padding <= 6 && Packs(bytes, padding, Septets(Elements(msg)))
    ensures var k := NibbleCount(padding, |Septets(Elements(msg))|);
      && k <= 2 * |bytes|
      && (Read(Unpacked(Nibbles(bytes, k), padding)).text == msg <==> ESC !in msg)
      // room for one character more than the message is enough, and a message
      // that is too short to be looked at is empty
      && (k >= 1 && ESC !in msg ==> |Read(Unpacked(Nibbles(bytes, k - 1), padding)).text| <= |msg|)
      && (k < 2 ==> msg == [])
  {
    hide Bits, Stream, Pow2, Zeros, Value, Read, Encoding, Septets, Packs, Unpacked;
    var s := Septets(Elements(msg));
    UnpackPacked(bytes, padding, s);
    TextRoundTripIff(msg);
    var k := NibbleCount(padding, |s|);
    if k >= 1 {
      TextGrows(bytes, k - 1, k, padding);
    }
    SeptetsByEscapes(Elements(msg));
  }

  /** The places of the elements that stand behind an escape. */
  ghost function Escaped(elements: seq<nat>): set<nat> {
    set i: nat | i < |elements| && elements[i] / 256 != 0
  }

  /** Each of them takes a septet of its own. */
  lemma {:induction false} SeptetsByEscapes(elements: seq<nat>)
    ensures |Septets(elements)| == |elements| + |Escaped(elements)|
  {
    if elements == [] {
      assert Escaped(elements) == {};
    } else {
      var n := |elements| - 1;
      SeptetsByEscapes(elements[..n]);
      assert forall i | 0 <= i < n :: elements[..n][i] == elements[i];
      if elements[n] / 256 != 0 {
        assert Escaped(elements) == Escaped(elements[..n]) + {n};
      } else {
        assert Escaped(elements) == Escaped(elements[..n]);
      }
    }
  }

  /** The size check of gsm7_pack counts elements, not escapes: what it lets through
      fits if and only if the escapes take no more bits than it leaves over. */
  lemma SizeCheckIff(elements: seq<nat>, outSize: nat, padding: nat)
    requires (padding + 7 * |elements| + 7) / 8 + 1 <= outSize
    ensures (padding + 7 * |Septets(elements)| + 7) / 8 <= outSize <==>
      7 * |Escaped(elements)| <= 8 * outSize - padding - 7 * |elements|
    ensures Escaped(elements) == {} ==> (padding + 7 * |Septets(elements)| + 7) / 8 < outSize
  {
    hide Septets, Escaped;
    SeptetsByEscapes(elements);
  }

  /** Eight euro signs pass the check for 8 bytes and take 14. */
  lemma SizeCheckMisses()
    ensures var elements := seq(8, _ => 0x1B65);
      && Element(0x20AC) == 0x1B65
      && (0 + 7 * |elements| + 7) / 8 + 1 <= 8
      && (0 + 7 * |Septets(elements)| + 7) / 8 == 14
  {
    var elements := seq(8, _ => 0x1B65);
    assert Escaped(elements) == {0, 1, 2, 3, 4, 5, 6, 7};
    SeptetsByEscapes(elements);
  }
}
