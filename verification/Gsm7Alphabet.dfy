/** The default alphabet and its extension table (section 6.2.1 of 3GPP TS 23.038),
    as the lookup tables of src/gsm7_luts.h hold them. */
module Gsm7Alphabet {
  /** LUT_GSM7_LS16[0]: the character of a septet; 0x1B announces the extension table. */
  function Basic(i: nat): (c: nat)
    requires i < 128
    ensures c < 0x10000
  {
    match i
    case 0x0 => 0x40 case 0x1 => 0xA3 case 0x2 => 0x24 case 0x3 => 0xA5 case 0x4 => 0xE8 case 0x5 => 0xE9
    case 0x6 => 0xF9 case 0x7 => 0xEC case 0x8 => 0xF2 case 0x9 => 0xC7 case 0xA => 0xA case 0xB => 0xD8
    case 0xC => 0xF8 case 0xD => 0xD case 0xE => 0xC5 case 0xF => 0xE5 case 0x10 => 0x394 case 0x11 => 0x5F
    case 0x12 => 0x3A6 case 0x13 => 0x393 case 0x14 => 0x39B case 0x15 => 0x3A9 case 0x16 => 0x3A0
    case 0x17 => 0x3A8 case 0x18 => 0x3A3 case 0x19 => 0x398 case 0x1A => 0x39E case 0x1B => 0x1B
    case 0x1C => 0xC6 case 0x1D => 0xE6 case 0x1E => 0xDF case 0x1F => 0xC9 case 0x24 => 0xA4
    case 0x40 => 0xA1 case 0x5B => 0xC4 case 0x5C => 0xD6 case 0x5D => 0xD1 case 0x5E => 0xDC
    case 0x5F => 0xA7 case 0x60 => 0xBF case 0x7B => 0xE4 case 0x7C => 0xF6 case 0x7D => 0xF1
    case 0x7E => 0xFC case 0x7F => 0xE0
    case _ => if 0x20 <= i <= 0x23 || 0x25 <= i <= 0x3F || 0x41 <= i <= 0x5A || 0x61 <= i <= 0x7A then i else 0
  }

  /** LUT_GSM7_SS16[0]: the character of a septet behind an escape; unassigned septets
      give the filler of the row. */
  function Extended(i: nat): (c: nat)
    requires i < 128
    ensures c < 0x10000
  {
    match i
    case 0xA => 0xC case 0x14 => 0x5E case 0x28 => 0x7B case 0x29 => 0x7D case 0x2F => 0x5C
    case 0x3C => 0x5B case 0x3D => 0x7E case 0x3E => 0x5D case 0x40 => 0x7C case 0x65 => 0x20AC
    case _ => if i <= 9 then 0x600 else if i >= 0x66 then 0x2000 else 0
  }

  /** LUT_GSM7_REV1: the page of a high byte, or -1. */
  function Page(high: nat): int {
    match high
    case 0x0 => 0 case 0x1 => 3 case 0x3 => 1 case 0x6 => 10 case 0x9 => 5 case 0xA => 6 case 0xB => 9
    case 0xC => 7 case 0xD => 8 case 0x20 => 2 case 0x22 => 4
    case _ => -1
  }

  const INVALID: nat := 254

  /** Column 0 of LUT_GSM7_REV2: a septet, 128 + a septet behind an escape, or INVALID. */
  function PageEntry(page: int, low: nat): nat {
    match page
    case 0 => Page0(low)
    case 1 => Page1(low)
    case 2 => Page2(low)
    case 10 => Page10(low)
    case _ => INVALID
  }

  /** U+00xx */
  function Page0(low: nat): nat {
    match low
    case 0x0 => 0xE4 case 0xC => 0x8A case 0x24 => 0x2 case 0x40 => 0x0 case 0x5B => 0xBC case 0x5C => 0xAF
    case 0x5D => 0xBE case 0x5E => 0x94 case 0x5F => 0x11 case 0x7B => 0xA8 case 0x7C => 0xC0
    case 0x7D => 0xA9 case 0x7E => 0xBD case 0xA1 => 0x40 case 0xA3 => 0x1 case 0xA4 => 0x24
    case 0xA5 => 0x3 case 0xA7 => 0x5F case 0xBF => 0x60 case 0xC4 => 0x5B case 0xC5 => 0xE
    case 0xC6 => 0x1C case 0xC7 => 0x9 case 0xC9 => 0x1F case 0xD1 => 0x5D case 0xD6 => 0x5C
    case 0xD8 => 0xB case 0xDC => 0x5E case 0xDF => 0x1E case 0xE0 => 0x7F case 0xE4 => 0x7B
    case 0xE5 => 0xF case 0xE6 => 0x1D case 0xE8 => 0x4 case 0xE9 => 0x5 case 0xEC => 0x7 case 0xF1 => 0x7D
    case 0xF2 => 0x8 case 0xF6 => 0x7C case 0xF8 => 0xC case 0xF9 => 0x6 case 0xFC => 0x7E
    case _ =>
      if || low == 0xA || low == 0xD || low == 0x1B
         || 0x20 <= low <= 0x23 || 0x25 <= low <= 0x3F || 0x41 <= low <= 0x5A || 0x61 <= low <= 0x7A
      then low else INVALID
  }

  /** U+03xx */
  function Page1(low: nat): nat {
    match low
    case 0x93 => 0x13 case 0x94 => 0x10 case 0x98 => 0x19 case 0x9B => 0x14 case 0x9E => 0x1A
    case 0xA0 => 0x16 case 0xA3 => 0x18 case 0xA6 => 0x12 case 0xA8 => 0x17 case 0xA9 => 0x15
    case _ => INVALID
  }

  /** U+20xx */
  function Page2(low: nat): nat {
    match low
    case 0x0 => 0xFF case 0xAC => 0xE5
    case _ => INVALID
  }

  /** U+06xx */
  function Page10(low: nat): nat {
    match low
    case 0x0 => 0x89
    case _ => INVALID
  }

  /** get_char_gsm7_encoding, first entry. */
  function Encoding(c: nat): nat {
    var page := Page(c / 256);
    if page == -1 then INVALID else PageEntry(page, c % 256)
  }

  /** The character an encoding stands for. */
  function Meaning(e: nat): nat
    requires e < 256
  {
    if e < 128 then Basic(e) else Extended(e - 128)
  }

  /** The two directions of the tables agree: an encodable character other than
      U+001B is what its encoding means, and only U+001B is encoded as the escape. */
  lemma EncodingMeansIt(c: nat)
    requires Encoding(c) != INVALID
    ensures Encoding(c) < 256
    ensures Encoding(c) == 0x1B <==> c == 0x1B
    ensures Meaning(Encoding(c)) == c
  {
    var low := c % 256;
    if c < 256 {
      Page0MeansIt(low);
    }
  }

  lemma Page0MeansIt(low: nat)
    requires Page0(low) != INVALID && low < 256
    ensures Page0(low) < 256 && Meaning(Page0(low)) == low
    ensures Page0(low) == 0x1B <==> low == 0x1B
  {
  }

  /** Every septet of the basic table can be encoded again. */
  lemma BasicIsEncodable(i: nat)
    requires i < 128
    ensures Encoding(Basic(i)) == i
  {
  }

  /** The septets of the extension table that the standard assigns. */
  predicate Assigned(i: nat) {
    i == 0x0A || i == 0x14 || i == 0x28 || i == 0x29 || i == 0x2F || 0x3C <= i <= 0x3E || i == 0x40 || i == 0x65
  }

  /** Every assigned one can be encoded again; so can the last unassigned septet of
      each row, for the filler of the row. */
  lemma ExtensionIsEncodableIff(i: nat)
    requires i < 128
    ensures Encoding(Extended(i)) == 128 + i <==> Assigned(i) || i == 9 || i == 0x64 || i == 0x7F
  {
  }

  /** The escape is the only septet that reads as U+001B. */
  lemma EscapeIsUnique(i: nat)
    requires i < 128
    ensures Basic(i) == 0x1B <==> i == 0x1B
    ensures Extended(i) != 0x1B
  {
  }
}
