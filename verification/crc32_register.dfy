/** The 32-bit CRC register of Annex A of ISO/IEC 13818-1, shifted one bit at a time. */
module Crc32Register {
  /** x^32 + x^26 + x^23 + x^22 + x^16 + x^12 + x^11 + x^10 + x^8 + x^7 + x^5 + x^4 + x^2 + x + 1 */
  const POLY: bv32 := 0x04C11DB7

  function Xor(a: bv32, b: bv32): bv32 { a ^ b }

  function Shl(c: bv32): bv32 { c << 1 }

  predicate Top(c: bv32) { c & 0x8000_0000 != 0 }

  /** One shift of the register with no input. */
  function Shift(c: bv32): bv32 {
    if Top(c) then Xor(Shl(c), POLY) else Shl(c)
  }

  function Shift8(c: bv32): bv32 {
    Shift(Shift(Shift(Shift(Shift(Shift(Shift(Shift(c))))))))
  }

  /** One shift of the register with an input bit added to the outgoing bit. */
  function FeedBit(c: bv32, bit: bool): bv32 {
    if Top(c) != bit then Xor(Shl(c), POLY) else Shl(c)
  }

  function FeedBits(c: bv32, bits: seq<bool>): bv32
    decreases |bits|
  {
    if bits == [] then c else FeedBits(FeedBit(c, bits[0]), bits[1..])
  }

  // The algebra of the register. Everything after these five facts is equational.

  lemma XorComm(a: bv32, b: bv32)
    ensures Xor(a, b) == Xor(b, a)
  {}

  lemma XorAssoc(a: bv32, b: bv32, c: bv32)
    ensures Xor(Xor(a, b), c) == Xor(a, Xor(b, c))
  {}

  lemma XorBack(a: bv32, b: bv32)
    ensures Xor(Xor(a, b), b) == a
  {}

  lemma TopXor(a: bv32, b: bv32)
    ensures Top(Xor(a, b)) == (Top(a) != Top(b))
  {}

  lemma ShlXor(a: bv32, b: bv32)
    ensures Shl(Xor(a, b)) == Xor(Shl(a), Shl(b))
  {}

  /** Adding a word before a shift is feeding its top bit and adding the shifted word after. */
  lemma AddThenShift(c: bv32, w: bv32)
    ensures Shift(Xor(c, w)) == Xor(FeedBit(c, Top(w)), Shl(w))
  {
    TopXor(c, w);
    ShlXor(c, w);
    XorAssoc(Shl(c), Shl(w), POLY);
    XorComm(Shl(w), POLY);
    XorAssoc(Shl(c), POLY, Shl(w));
  }

  function Shl8(w: bv32): bv32 {
    Shl(Shl(Shl(Shl(Shl(Shl(Shl(Shl(w))))))))
  }

  /** The first eight bits of a word, most significant first. */
  function TopBits(w: bv32): seq<bool> {
    [ Top(w), Top(Shl(w)), Top(Shl(Shl(w))), Top(Shl(Shl(Shl(w)))), Top(Shl(Shl(Shl(Shl(w))))),
      Top(Shl(Shl(Shl(Shl(Shl(w)))))), Top(Shl(Shl(Shl(Shl(Shl(Shl(w))))))), Top(Shl(Shl(Shl(Shl(Shl(Shl(Shl(w)))))))) ]
  }

  lemma FeedTail(c: bv32, b: seq<bool>, i: nat)
    requires i < |b|
    ensures FeedBits(c, b[i..]) == FeedBits(FeedBit(c, b[i]), b[i + 1..])
  {
    assert b[i..][1..] == b[i + 1..];
  }

  lemma FeedEight(c: bv32, b: seq<bool>)
    requires |b| == 8
    ensures FeedBits(c, b) ==
      var half := FeedBit(FeedBit(FeedBit(FeedBit(c, b[0]), b[1]), b[2]), b[3]);
      FeedBit(FeedBit(FeedBit(FeedBit(half, b[4]), b[5]), b[6]), b[7])
  {
    var c1 := FeedBit(c, b[0]);
    var c2 := FeedBit(c1, b[1]);
    var c3 := FeedBit(c2, b[2]);
    var c4 := FeedBit(c3, b[3]);
    var c5 := FeedBit(c4, b[4]);
    var c6 := FeedBit(c5, b[5]);
    var c7 := FeedBit(c6, b[6]);
    assert b[0..] == b;
    FeedTail(c, b, 0);
    FeedTail(c1, b, 1);
    FeedTail(c2, b, 2);
    FeedTail(c3, b, 3);
    FeedTail(c4, b, 4);
    FeedTail(c5, b, 5);
    FeedTail(c6, b, 6);
    FeedTail(c7, b, 7);
    assert b[8..] == [];
  }

  /** The same for a whole byte of shifts. */
  lemma AddThenShift8(c: bv32, w: bv32)
    ensures Shift8(Xor(c, w)) == Xor(FeedBits(c, TopBits(w)), Shl8(w))
  {
    var w1 := Shl(w);
    var w2 := Shl(w1);
    var w3 := Shl(w2);
    var w4 := Shl(w3);
    var w5 := Shl(w4);
    var w6 := Shl(w5);
    var w7 := Shl(w6);
    var c1 := FeedBit(c, Top(w));
    var c2 := FeedBit(c1, Top(w1));
    var c3 := FeedBit(c2, Top(w2));
    var c4 := FeedBit(c3, Top(w3));
    var c5 := FeedBit(c4, Top(w4));
    var c6 := FeedBit(c5, Top(w5));
    var c7 := FeedBit(c6, Top(w6));
    AddThenShift(c, w);
    AddThenShift(c1, w1);
    AddThenShift(c2, w2);
    AddThenShift(c3, w3);
    AddThenShift(c4, w4);
    AddThenShift(c5, w5);
    AddThenShift(c6, w6);
    AddThenShift(c7, w7);
    FeedEight(c, TopBits(w));
  }

  /** The shift undone: the polynomial is odd, so the low bit tells whether it was added. */
  function Unshift(c: bv32): bv32 {
    if c & 1 != 0 then ((c ^ POLY) >> 1) | 0x8000_0000 else c >> 1
  }

  lemma ShiftedTop(c: bv32)
    requires c & 0x8000_0000 != 0
    ensures ((c << 1) ^ 0x04C11DB7) & 1 != 0
    ensures ((((c << 1) ^ 0x04C11DB7) ^ 0x04C11DB7) >> 1) | 0x8000_0000 == c
  {}

  lemma ShiftedLow(c: bv32)
    requires c & 0x8000_0000 == 0
    ensures (c << 1) & 1 == 0 && (c << 1) >> 1 == c
  {}

  lemma UnshiftShift(c: bv32)
    ensures Unshift(Shift(c)) == c
  {
    if Top(c) {
      ShiftedTop(c);
    } else {
      ShiftedLow(c);
    }
  }

  lemma ShiftInjective(c: bv32, d: bv32)
    requires Shift(c) == Shift(d)
    ensures c == d
  {
    UnshiftShift(c);
    UnshiftShift(d);
  }

  lemma Shift8Injective(c: bv32, d: bv32)
    requires Shift8(c) == Shift8(d)
    ensures c == d
  {
    var c1, d1 := Shift(c), Shift(d);
    var c2, d2 := Shift(c1), Shift(d1);
    var c3, d3 := Shift(c2), Shift(d2);
    var c4, d4 := Shift(c3), Shift(d3);
    var c5, d5 := Shift(c4), Shift(d4);
    var c6, d6 := Shift(c5), Shift(d5);
    var c7, d7 := Shift(c6), Shift(d6);
    ShiftInjective(c7, d7);
    ShiftInjective(c6, d6);
    ShiftInjective(c5, d5);
    ShiftInjective(c4, d4);
    ShiftInjective(c3, d3);
    ShiftInjective(c2, d2);
    ShiftInjective(c1, d1);
    ShiftInjective(c, d);
  }
}
