/** Numbers as sequences of bits, least significant bit first. */
module BitStrings {
  function Pow2(n: nat): (p: nat)
    ensures p >= 1
  {
    if n == 0 then 1 else 2 * Pow2(n - 1)
  }

  function Bits(v: nat, n: nat): (b: seq<bool>)
    ensures |b| == n
  {
    if n == 0 then [] else [v % 2 == 1] + Bits(v / 2, n - 1)
  }

  function Value(b: seq<bool>): (v: nat)
    ensures v < Pow2(|b|)
  {
    if b == [] then 0 else (if b[0] then 1 else 0) + 2 * Value(b[1..])
  }

  lemma {:induction false} ValueOfBits(v: nat, n: nat)
    requires v < Pow2(n)
    ensures Value(Bits(v, n)) == v
  {
    if n > 0 {
      ValueOfBits(v / 2, n - 1);
      assert Bits(v, n)[1..] == Bits(v / 2, n - 1);
    }
  }

  lemma {:induction false} BitsOfValue(b: seq<bool>)
    ensures Bits(Value(b), |b|) == b
  {
    if b != [] {
      BitsOfValue(b[1..]);
      assert b == [b[0]] + b[1..];
    }
  }

  /** `v | (s << p)`, when v has no more than p bits, is v's bits, then s's. */
  lemma {:induction false} BitsJoin(v: nat, p: nat, s: nat, k: nat)
    requires v < Pow2(p)
    ensures Bits(v + s * Pow2(p), p + k) == Bits(v, p) + Bits(s, k)
  {
    if p == 0 {
      assert v == 0;
      assert [] + Bits(s, k) == Bits(s, k);
    } else {
      var q := s * Pow2(p - 1);
      assert s * Pow2(p) == 2 * q;
      assert (v + 2 * q) % 2 == v % 2 && (v + 2 * q) / 2 == v / 2 + q;
      BitsJoin(v / 2, p - 1, s, k);
      assert [v % 2 == 1] + (Bits(v / 2, p - 1) + Bits(s, k)) == [v % 2 == 1] + Bits(v / 2, p - 1) + Bits(s, k);
    }
  }

  function Zeros(n: nat): (z: seq<bool>)
    ensures |z| == n
  {
    seq(n, _ => false)
  }

  lemma {:induction false} BitsOfZero(n: nat)
    ensures Bits(0, n) == Zeros(n)
  {
    if n > 0 {
      BitsOfZero(n - 1);
    }
  }

  /** The bits of a sequence of w-bit units, one after the other. */
  function Stream(units: seq<nat>, w: nat): (b: seq<bool>)
    ensures |b| == w * |units|
  {
    if units == [] then [] else Stream(units[..|units| - 1], w) + Bits(units[|units| - 1], w)
  }

  lemma StreamOneMore(units: seq<nat>, u: nat, w: nat)
    ensures Stream(units + [u], w) == Stream(units, w) + Bits(u, w)
  {
    assert (units + [u])[..|units|] == units;
  }

  lemma {:induction false} StreamConcat(a: seq<nat>, b: seq<nat>, w: nat)
    ensures Stream(a + b, w) == Stream(a, w) + Stream(b, w)
  {
    if b == [] {
      assert a + b == a;
    } else {
      var c := b[..|b| - 1];
      assert (a + b)[..|a + b| - 1] == a + c;
      StreamConcat(a, c, w);
      assert Stream(a, w) + (Stream(c, w) + Bits(b[|b| - 1], w)) == Stream(a, w) + Stream(c, w) + Bits(b[|b| - 1], w);
    }
  }

  /** Unit k of a stream stands behind the k units before it. */
  lemma StreamAt(units: seq<nat>, w: nat, k: nat)
    requires k < |units|
    ensures Stream(units[..k], w) + Bits(units[k], w) <= Stream(units, w)
  {
    var front := units[..k] + [units[k]];
    StreamOneMore(units[..k], units[k], w);
    assert units == front + units[k + 1..];
    StreamConcat(front, units[k + 1..], w);
  }

  lemma {:induction false} Pow2Adds(a: nat, b: nat)
    ensures Pow2(a + b) == Pow2(a) * Pow2(b)
  {
    if a > 0 {
      Pow2Adds(a - 1, b);
    }
  }

  lemma MulAtLeast(x: nat, y: nat, c: nat)
    requires x <= y
    ensures x * c <= y * c
  {
  }

  /** Of v = lo + hi * 2^k: its k low bits, which are lo, and then those of hi. */
  lemma BitsCut(v: nat, n: nat, k: nat, lo: nat, hi: nat)
    requires k <= n && v < Pow2(n) && v == lo + hi * Pow2(k) && lo < Pow2(k)
    ensures hi < Pow2(n - k)
    ensures Bits(v, n) == Bits(lo, k) + Bits(hi, n - k)
    ensures Value(Bits(v, n)[..k]) == lo
  {
    Pow2Adds(n - k, k);
    if hi >= Pow2(n - k) {
      MulAtLeast(Pow2(n - k), hi, Pow2(k));
      assert false;
    }
    BitsJoin(lo, k, hi, n - k);
    assert Bits(v, n)[..k] == Bits(lo, k);
    ValueOfBits(lo, k);
  }

  lemma SmallPowers()
    ensures Pow2(4) == 16 && Pow2(7) == 128 && Pow2(8) == 256
  {
    assert Pow2(4) == 16;
  }
}
