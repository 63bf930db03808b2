/** Hexadecimal text of PDUs (src/char_conv.c). Both directions may work in place,
    with input and output in the same array. Characters are unsigned codes. */
module Hex {
  import opened Basics

  /** lut_hex2val; -1 is no digit. */
  function DigitValue(c: byte): (v: int)
    ensures -1 <= v < 16
  {
    if 48 <= c <= 57 then c - 48
    else if 65 <= c <= 70 then c - 55
    else if 97 <= c <= 102 then c - 87
    else -1
  }

  /** lut_val2hex */
  function Digit(v: nat): (c: byte)
    requires v < 16
  {
    if v < 10 then 48 + v else 55 + v
  }

  /** The text of some bytes, two digits each. */
  function Text(bytes: seq<byte>): (t: seq<byte>)
    ensures |t| == 2 * |bytes|
  {
    if bytes == [] then []
    else
      var n := |bytes| - 1;
      Text(bytes[..n]) + [Digit(bytes[n] / 16), Digit(bytes[n] % 16)]
  }

  lemma NoText()
    ensures Text([]) == []
  {
  }

  /** The digits of a byte stand in front of those of the bytes behind it. */
  lemma {:induction false} TextBefore(bytes: seq<byte>, i: nat)
    requires i < |bytes|
    ensures Text(bytes[i..]) == [Digit(bytes[i] / 16), Digit(bytes[i] % 16)] + Text(bytes[i + 1..])
    decreases |bytes|
  {
    hide Digit;
    var n, all := |bytes| - 1, bytes[i..];
    assert all[..|all| - 1] == bytes[..n][i..];
    if i == n {
      assert all == [bytes[i]] && all[..0] == [] == bytes[i + 1..];
    } else {
      TextBefore(bytes[..n], i);
      var rest := bytes[i + 1..];
      assert rest[..|rest| - 1] == bytes[..n][i + 1..];
    }
  }

  /** hexify: from the end of the string, so that `out` may be `input`. */
  method Hexify(input: array<byte>, len: nat, out: array<byte>)
    requires len <= input.Length && 2 * len < out.Length
    modifies out
    ensures out[..2 * len] == Text(old(input[..len])) && out[2 * len] == 0
    ensures forall k :: 2 * len < k < out.Length ==> out[k] == old(out[k])
  {
    hide Digit, Text;
    NoText();
    ghost var bytes := input[..len];
    var i := len;
    while i > 0
      invariant 0 <= i <= len
      invariant forall k :: 0 <= k < i ==> input[k] == bytes[k]
      invariant out[2 * i..2 * len] == Text(bytes[i..])
      invariant forall k :: 2 * len <= k < out.Length ==> out[k] == old(out[k])
    {
      ghost var done := out[2 * i..2 * len];
      TextBefore(bytes, i - 1);
      i := i - 1;
      var c0, c1 := Digit(input[i] / 16), Digit(input[i] % 16);
      out[i * 2] := c0;
      out[i * 2 + 1] := c1;
      assert out[2 * i..2 * len] == [c0, c1] + done;
    }
    out[2 * len] := 0;
    assert bytes[0..] == bytes;
  }

  /** The bytes and the number of digits of a text, or no value if it has a
      character that is no digit. A last single digit is a high nibble. */
  datatype Unhexed = Bad | Good(bytes: seq<byte>, nibbles: nat)

  function Parse(text: seq<byte>): (r: Unhexed)
    ensures r.Good? ==> r.nibbles == |text| && |r.bytes| == (|text| + 1) / 2
    decreases |text|
  {
    if text == [] then Good([], 0)
    else
      var n := if |text| % 2 == 0 then |text| - 2 else |text| - 1;
      var front := Parse(text[..n]);
      var p0 := DigitValue(text[n]);
      var p1 := if n + 1 < |text| then DigitValue(text[n + 1]) else 0;
      if front.Bad? || p0 == -1 || p1 == -1 then Bad
      else Good(front.bytes + [p0 * 16 + p1], |text|)
  }

  /** A text parses if and only if it consists of digits. */
  lemma {:induction false} ParsesIff(text: seq<byte>)
    ensures Parse(text).Good? <==> forall i :: 0 <= i < |text| ==> DigitValue(text[i]) != -1
    decreases |text|
  {
    if text != [] {
      var n := if |text| % 2 == 0 then |text| - 2 else |text| - 1;
      ParsesIff(text[..n]);
      assert forall i :: 0 <= i < n ==> text[..n][i] == text[i];
    }
  }

  lemma ParseBad(text: seq<byte>, i: nat)
    requires i < |text| && DigitValue(text[i]) == -1
    ensures Parse(text).Bad?
  {
    ParsesIff(text);
  }

  /** The next two digits, or the last one. */
  lemma ParseStep(text: seq<byte>, pos: nat, next: nat, p0: int, p1: int)
    requires pos % 2 == 0 && pos < next <= |text| && (next == pos + 2 || next == pos + 1 == |text|)
    requires Parse(text[..pos]).Good?
    requires p0 == DigitValue(text[pos]) && p1 == if next == pos + 2 then DigitValue(text[pos + 1]) else 0
    requires p0 != -1 && p1 != -1
    ensures Parse(text[..next]) == Good(Parse(text[..pos]).bytes + [p0 * 16 + p1], next)
  {
    hide DigitValue;
    assert text[..next][..pos] == text[..pos];
  }

  /** unhex of a zero-terminated text, also in place: the bytes of the text and
      its number of digits, or -1. */
  method Unhex(input: array<byte>, ghost len: nat, out: array<byte>) returns (r: int)
    requires len < input.Length && input[len] == 0
    requires forall k :: 0 <= k < len ==> input[k] != 0
    requires (len + 1) / 2 <= out.Length
    modifies out
    ensures r == -1 <==> Parse(old(input[..len])).Bad?
    ensures r != -1 ==>
      var p := Parse(old(input[..len]));
      r == p.nibbles == len && out[..(len + 1) / 2] == p.bytes
  {
    hide DigitValue, Parse;
    ghost var text := input[..len];
    NothingParses();
    var pos: nat, n: nat, nibbles := 0, 0, 0;
    assert text[..0] == [] && out[..0] == [];
    while input[pos] != 0
      invariant pos <= len && nibbles == pos
      invariant pos == 2 * n || (pos == len && pos == 2 * n - 1)
      invariant forall k :: pos <= k < len ==> input[k] == text[k]
      invariant input[len] == 0
      invariant n <= (len + 1) / 2
      invariant Parse(text[..pos]) == Good(out[..n], pos)
      decreases len - pos
    {
      ghost var start := pos;
      nibbles := nibbles + 1 + if input[pos + 1] != 0 then 1 else 0;
      var p0 := DigitValue(input[pos]);
      var p1 := 0;
      pos := pos + 1;
      if input[pos] != 0 {
        p1 := DigitValue(input[pos]);
        pos := pos + 1;
      }
      if p0 == -1 || p1 == -1 {
        ParseBad(text, if p0 == -1 then start else start + 1);
        return -1;
      }
      ParseStep(text, start, pos, p0, p1);
      ghost var done := out[..n];
      out[n] := p0 * 16 + p1;
      n := n + 1;
      assert out[..n] == done + [p0 * 16 + p1];
    }
    assert text[..len] == text;
    r := nibbles;
  }

  lemma NothingParses()
    ensures Parse([]) == Good([], 0)
  {
  }

  lemma DigitBack(v: nat)
    requires v < 16
    ensures DigitValue(Digit(v)) == v && Digit(v) != 0
  {
  }

  /** unhex undoes hexify, with twice as many nibbles as bytes. */
  lemma {:induction false} RoundTrip(bytes: seq<byte>)
    ensures Parse(Text(bytes)) == Good(bytes, 2 * |bytes|)
    ensures forall i :: 0 <= i < |Text(bytes)| ==> Text(bytes)[i] != 0
  {
    hide Digit, DigitValue, Parse;
    NothingParses();
    if bytes != [] {
      var n := |bytes| - 1;
      var t, front, hi, lo := Text(bytes), bytes[..n], bytes[n] / 16, bytes[n] % 16;
      RoundTrip(front);
      DigitBack(hi);
      DigitBack(lo);
      assert t == Text(front) + [Digit(hi), Digit(lo)];
      assert t[..2 * n] == Text(front) && t[..2 * n + 2] == t;
      ParseStep(t, 2 * n, 2 * n + 2, hi, lo);
      assert bytes == front + [hi * 16 + lo];
    }
  }

  function Lower(text: seq<byte>): (r: seq<byte>)
    ensures |r| == |text|
  {
    seq(|text|, i requires 0 <= i < |text| => if 65 <= text[i] <= 70 then text[i] + 32 else text[i])
  }

  /** Lower-case digits are read like upper-case ones, which are what is written. */
  lemma {:induction false} LowerReads(text: seq<byte>)
    ensures Parse(Lower(text)) == Parse(text)
    decreases |text|
  {
    hide DigitValue, Parse;
    var low := Lower(text);
    forall i | 0 <= i < |text| ensures DigitValue(low[i]) == DigitValue(text[i]) { SameDigit(text[i]); }
    if text == [] {
      NothingParses();
    } else if i: nat :| i < |text| && DigitValue(text[i]) == -1 {
      ParseBad(text, i);
      ParseBad(low, i);
    } else {
      var n := if |text| % 2 == 0 then |text| - 2 else |text| - 1;
      LowerReads(text[..n]);
      assert low[..n] == Lower(text[..n]);
      ParsesIff(text[..n]);
      var p0, p1 := DigitValue(text[n]), if n + 1 < |text| then DigitValue(text[n + 1]) else 0;
      ParseStep(text, n, |text|, p0, p1);
      ParseStep(low, n, |text|, p0, p1);
      assert text[..|text|] == text && low[..|text|] == low;
    }
  }

  lemma SameDigit(c: byte)
    ensures DigitValue(if 65 <= c <= 70 then c + 32 else c) == DigitValue(c)
  {
  }

  lemma {:induction false} TextIsUpper(bytes: seq<byte>)
    ensures forall i :: 0 <= i < |Text(bytes)| ==> 48 <= Text(bytes)[i] <= 57 || 65 <= Text(bytes)[i] <= 70
  {
    if bytes != [] { TextIsUpper(bytes[..|bytes| - 1]); }
  }
}
