/** Section CRC: the table-driven loop computes the CRC decoder of Annex A of ISO/IEC 13818-1. */
module Crc32 {
  import opened Crc32Register
  import opened Crc32Table

  const INITIAL: bv32 := 0xFFFF_FFFF

  /** The bits of a byte, most significant first. */
  function BitsOf(b: bv8): seq<bool> {
    [ b & 0x80 != 0, b & 0x40 != 0, b & 0x20 != 0, b & 0x10 != 0,
      b & 0x08 != 0, b & 0x04 != 0, b & 0x02 != 0, b & 0x01 != 0 ]
  }

  function Bits(s: seq<bv8>): seq<bool> {
    if s == [] then [] else Bits(s[..|s| - 1]) + BitsOf(s[|s| - 1])
  }

  /** The reference: the register after all bits of the section have been fed one at a time. */
  function Crc(s: seq<bv8>): bv32 {
    FeedBits(INITIAL, Bits(s))
  }

  lemma {:induction false} FeedBitsAppend(c: bv32, a: seq<bool>, b: seq<bool>)
    ensures FeedBits(c, a + b) == FeedBits(FeedBits(c, a), b)
    decreases |a|
  {
    if a == [] {
      assert a + b == b;
    } else {
      assert (a + b)[1..] == a[1..] + b;
      FeedBitsAppend(FeedBit(c, a[0]), a[1..], b);
    }
  }

  lemma {:induction false} BitsAppend(s: seq<bv8>, t: seq<bv8>)
    ensures Bits(s + t) == Bits(s) + Bits(t)
    decreases |t|
  {
    if t == [] {
      assert s + t == s;
    } else {
      assert (s + t)[..|s + t| - 1] == s + t[..|t| - 1];
      BitsAppend(s, t[..|t| - 1]);
    }
  }

  /** Feeding a whole byte string from any register value. */
  function Feed(c: bv32, s: seq<bv8>): bv32 {
    FeedBits(c, Bits(s))
  }

  lemma FeedAppend(c: bv32, s: seq<bv8>, t: seq<bv8>)
    ensures Feed(c, s + t) == Feed(Feed(c, s), t)
  {
    BitsAppend(s, t);
    FeedBitsAppend(c, Bits(s), Bits(t));
  }

  lemma FeedOne(c: bv32, b: bv8)
    ensures Feed(c, [b]) == FeedBits(c, BitsOf(b))
  {
    assert [b][..0] == [];
    assert Bits([b]) == BitsOf(b);
  }

  // One byte: the table step is eight bit steps.

  lemma TopByteBits(b: bv8)
    ensures TopBits((b as bv32) << 24) == BitsOf(b)
    ensures Shl8((b as bv32) << 24) == 0
  {}

  lemma LowBits(w: bv32)
    requires w & 0xFF00_0000 == 0
    ensures TopBits(w) == TopBits(0)
    ensures Shl8(0) == 0
  {}

  lemma XorZero(a: bv32)
    ensures Xor(a, 0) == a
  {}

  lemma ByteStep(c: bv32, b: bv8)
    ensures FeedBits(c, BitsOf(b)) == Shift8(Xor(c, (b as bv32) << 24))
  {
    var w := (b as bv32) << 24;
    AddThenShift8(c, w);
    TopByteBits(b);
    XorZero(FeedBits(c, TopBits(w)));
  }

  lemma Shift8Parts(hi: bv32, lo: bv32)
    requires lo & 0xFF00_0000 == 0
    ensures Shift8(Xor(hi, lo)) == Xor(Shift8(hi), Shl8(lo))
  {
    AddThenShift8(hi, lo);
    AddThenShift8(hi, 0);
    LowBits(lo);
    XorZero(hi);
    XorZero(FeedBits(hi, TopBits(0)));
  }

  lemma ShiftIsShiftWord(c: bv32)
    ensures Shift(c) == ShiftWord(c)
  {}

  lemma Shift8IsGenerated(i: bv8)
    ensures Shift8((i as bv32) << 24) == Generated(i)
  {
    var c0 := (i as bv32) << 24;
    var c1 := Shift(c0);
    var c2 := Shift(c1);
    var c3 := Shift(c2);
    var c4 := Shift(c3);
    var c5 := Shift(c4);
    var c6 := Shift(c5);
    var c7 := Shift(c6);
    ShiftIsShiftWord(c0);
    ShiftIsShiftWord(c1);
    ShiftIsShiftWord(c2);
    ShiftIsShiftWord(c3);
    ShiftIsShiftWord(c4);
    ShiftIsShiftWord(c5);
    ShiftIsShiftWord(c6);
    ShiftIsShiftWord(c7);
  }

  /** The index the loop looks up: the outgoing byte of the register added to the input byte. */
  function TableIndex(c: bv32, b: bv8): bv8 {
    (((c >> 24) & 0xFF) as bv8) ^ b
  }

  lemma SplitLow(c: bv32)
    ensures Shl8(c & 0x00FF_FFFF) == c << 8
    ensures (c & 0x00FF_FFFF) & 0xFF00_0000 == 0
  {}

  lemma SplitMask(c: bv32)
    ensures Xor(c & 0xFF00_0000, c & 0x00FF_FFFF) == c
  {}

  lemma SplitHigh(c: bv32, b: bv8)
    ensures Xor(c & 0xFF00_0000, (b as bv32) << 24) == (TableIndex(c, b) as bv32) << 24
  {}

  lemma SplitRegister(c: bv32, b: bv8)
    ensures Xor(c, (b as bv32) << 24) == Xor((TableIndex(c, b) as bv32) << 24, c & 0x00FF_FFFF)
  {
    var hi, lo, w := c & 0xFF00_0000, c & 0x00FF_FFFF, (b as bv32) << 24;
    SplitMask(c);
    SplitHigh(c, b);
    XorAssoc(hi, lo, w);
    XorComm(lo, w);
    XorAssoc(hi, w, lo);
  }

  lemma TableStep(c: bv32, b: bv8)
    ensures NextCrc(c, b) == FeedBits(c, BitsOf(b))
  {
    var i := TableIndex(c, b);
    var hi, lo := (i as bv32) << 24, c & 0x00FF_FFFF;
    ByteStep(c, b);
    SplitRegister(c, b);
    SplitLow(c);
    Shift8Parts(hi, lo);
    Shift8IsGenerated(i);
    EntryIsGenerated(i);
    assert Xor(Entry(i), c << 8) == FeedBits(c, BitsOf(b));
  }

  /** The table-driven loop of the section dispatcher. */
  function NextCrc(crc: bv32, b: bv8): bv32 {
    Xor(Entry(TableIndex(crc, b)), crc << 8)
  }

  lemma OneByteMore(s: seq<bv8>, b: bv8)
    ensures NextCrc(Crc(s), b) == Crc(s + [b])
  {
    TableStep(Crc(s), b);
    FeedAppend(INITIAL, s, [b]);
    FeedOne(Crc(s), b);
  }

  method CalcCrc32(buf: array<bv8>, len: nat) returns (crc: bv32)
    requires len <= buf.Length
    ensures crc == Crc(buf[..len])
  {
    crc := INITIAL;
    for i := 0 to len
      invariant crc == Crc(buf[..i])
    {
      OneByteMore(buf[..i], buf[i]);
      assert buf[..i + 1] == buf[..i] + [buf[i]];
      crc := NextCrc(crc, buf[i]);
    }
  }

  /** The disabled bitwise generator: it feeds bytes from any register value. */
  method TableElement(crc: bv32, buf: array<bv8>, len: nat) returns (r: bv32)
    requires len <= buf.Length
    ensures r == Feed(crc, buf[..len])
  {
    r := crc;
    for k := 0 to len
      invariant r == Feed(crc, buf[..k])
    {
      FeedAppend(crc, buf[..k], [buf[k]]);
      FeedOne(r, buf[k]);
      ByteStep(r, buf[k]);
      assert buf[..k + 1] == buf[..k] + [buf[k]];
      r := Xor(r, (buf[k] as bv32) << 24);
      ghost var start := r;
      for i := 0 to 8
        invariant r == Shifts(start, i)
      {
        if r & 0x8000_0000 != 0 {
          r := (r << 1) ^ POLY;
        } else {
          r := r << 1;
        }
      }
      EightShifts(start);
    }
  }

  /** The generator run on a table index and one zero byte yields the constant table. */
  lemma TableInit(i: bv8)
    ensures Feed((i as bv32) << 24, [0]) == Entry(i)
  {
    var c := (i as bv32) << 24;
    FeedOne(c, 0);
    ByteStep(c, 0);
    XorZero(c);
    Shift8IsGenerated(i);
    EntryIsGenerated(i);
  }

  ghost function Shifts(c: bv32, n: nat): bv32 {
    if n == 0 then c else Shift(Shifts(c, n - 1))
  }

  lemma EightShifts(c: bv32)
    ensures Shifts(c, 8) == Shift8(c)
  {
    assert Shifts(c, 1) == Shift(Shifts(c, 0)) == Shift(c);
    assert Shifts(c, 2) == Shift(Shifts(c, 1));
    assert Shifts(c, 3) == Shift(Shifts(c, 2));
    assert Shifts(c, 4) == Shift(Shifts(c, 3));
    assert Shifts(c, 5) == Shift(Shifts(c, 4));
    assert Shifts(c, 6) == Shift(Shifts(c, 5));
    assert Shifts(c, 7) == Shift(Shifts(c, 6));
    assert Shifts(c, 8) == Shift(Shifts(c, 7));
  }

  // Whole words: feeding four bytes is 32 shifts of their sum with the register.

  function BigEndian(w: bv32): seq<bv8> {
    [ ((w >> 24) & 0xFF) as bv8, ((w >> 16) & 0xFF) as bv8, ((w >> 8) & 0xFF) as bv8, (w & 0xFF) as bv8 ]
  }

  function Shift32(c: bv32): bv32 {
    Shift8(Shift8(Shift8(Shift8(c))))
  }

  lemma Shl8Word(w: bv32)
    ensures Shl8(w) == w << 8
  {}

  lemma HighByteBits(w: bv32)
    ensures BitsOf(((w >> 24) & 0xFF) as bv8) == TopBits(w)
  {}

  lemma WordBytes(w: bv32)
    ensures ((w << 8) >> 24) & 0xFF == (w >> 16) & 0xFF
    ensures (((w << 8) << 8) >> 24) & 0xFF == (w >> 8) & 0xFF
    ensures ((((w << 8) << 8) << 8) >> 24) & 0xFF == w & 0xFF
    ensures (((w << 8) << 8) << 8) << 8 == 0
  {}

  lemma WordBits(w: bv32)
    ensures BitsOf(BigEndian(w)[0]) == TopBits(w)
    ensures BitsOf(BigEndian(w)[1]) == TopBits(Shl8(w))
    ensures BitsOf(BigEndian(w)[2]) == TopBits(Shl8(Shl8(w)))
    ensures BitsOf(BigEndian(w)[3]) == TopBits(Shl8(Shl8(Shl8(w))))
    ensures Shl8(Shl8(Shl8(Shl8(w)))) == 0
  {
    var w1 := Shl8(w);
    var w2 := Shl8(w1);
    var w3 := Shl8(w2);
    WordBytes(w);
    Shl8Word(w);
    Shl8Word(w1);
    Shl8Word(w2);
    Shl8Word(w3);
    HighByteBits(w);
    HighByteBits(w1);
    HighByteBits(w2);
    HighByteBits(w3);
  }

  lemma {:induction false} FeedFour(c: bv32, b: seq<bv8>)
    requires |b| == 4
    ensures Feed(c, b) ==
      FeedBits(FeedBits(FeedBits(FeedBits(c, BitsOf(b[0])), BitsOf(b[1])), BitsOf(b[2])), BitsOf(b[3]))
  {
    var c1 := FeedBits(c, BitsOf(b[0]));
    var c2 := FeedBits(c1, BitsOf(b[1]));
    var c3 := FeedBits(c2, BitsOf(b[2]));
    FeedOne(c, b[0]);
    FeedOne(c1, b[1]);
    FeedOne(c2, b[2]);
    FeedOne(c3, b[3]);
    FeedAppend(c, [b[0]], [b[1]]);
    FeedAppend(c, [b[0]] + [b[1]], [b[2]]);
    FeedAppend(c, [b[0]] + [b[1]] + [b[2]], [b[3]]);
    assert b == [b[0]] + [b[1]] + [b[2]] + [b[3]];
  }

  lemma {:induction false} FeedWord(c: bv32, w: bv32)
    ensures Feed(c, BigEndian(w)) == Shift32(Xor(c, w))
  {
    var w1 := Shl8(w);
    var w2 := Shl8(w1);
    var w3 := Shl8(w2);
    var c1 := FeedBits(c, TopBits(w));
    var c2 := FeedBits(c1, TopBits(w1));
    var c3 := FeedBits(c2, TopBits(w2));
    AddThenShift8(c, w);
    AddThenShift8(c1, w1);
    AddThenShift8(c2, w2);
    AddThenShift8(c3, w3);
    WordBits(w);
    XorZero(FeedBits(c3, TopBits(w3)));
    FeedFour(c, BigEndian(w));
  }

  lemma Shift32Injective(c: bv32, d: bv32)
    requires Shift32(c) == Shift32(d)
    ensures c == d
  {
    Shift8Injective(Shift8(Shift8(Shift8(c))), Shift8(Shift8(Shift8(d))));
    Shift8Injective(Shift8(Shift8(c)), Shift8(Shift8(d)));
    Shift8Injective(Shift8(c), Shift8(d));
    Shift8Injective(c, d);
  }

  lemma ShiftZero()
    ensures Shift32(0) == 0
  {
    assert Shift(0) == 0;
  }

  lemma XorZeroIff(c: bv32, w: bv32)
    ensures Xor(c, w) == 0 <==> c == w
  {
    XorBack(c, w);
    XorBack(0, w);
    XorComm(0, w);
    assert Xor(w, 0) == w;
  }

  /** A section passes the check exactly when its last four bytes are the CRC of the rest. */
  lemma ResidueIsZeroIff(s: seq<bv8>, w: bv32)
    ensures Crc(s + BigEndian(w)) == 0 <==> w == Crc(s)
  {
    FeedAppend(INITIAL, s, BigEndian(w));
    FeedWord(Crc(s), w);
    XorZeroIff(Crc(s), w);
    ShiftZero();
    if Crc(s + BigEndian(w)) == 0 {
      Shift32Injective(Xor(Crc(s), w), 0);
    }
  }

  // Bursts: the register never forgets a difference, and four bytes always make one.

  lemma {:induction false} FeedInjective(c: bv32, d: bv32, s: seq<bv8>)
    requires Feed(c, s) == Feed(d, s)
    ensures c == d
    decreases |s|
  {
    if s != [] {
      var t, b := s[..|s| - 1], s[|s| - 1];
      assert s == t + [b];
      FeedAppend(c, t, [b]);
      FeedAppend(d, t, [b]);
      var c', d' := Feed(c, t), Feed(d, t);
      FeedOne(c', b);
      FeedOne(d', b);
      ByteStep(c', b);
      ByteStep(d', b);
      var w := (b as bv32) << 24;
      Shift8Injective(Xor(c', w), Xor(d', w));
      XorBack(c', w);
      XorBack(d', w);
      FeedInjective(c, d, t);
    }
  }

  function WordOf(u: seq<bv8>): bv32
    requires |u| == 4
  {
    ((u[0] as bv32) << 24) | ((u[1] as bv32) << 16) | ((u[2] as bv32) << 8) | (u[3] as bv32)
  }

  lemma BigEndianWordOf(u: seq<bv8>)
    requires |u| == 4
    ensures BigEndian(WordOf(u)) == u
  {}

  lemma FourBytesDiffer(c: bv32, u: seq<bv8>, v: seq<bv8>)
    requires |u| == |v| == 4 && Feed(c, u) == Feed(c, v)
    ensures u == v
  {
    var x, y := WordOf(u), WordOf(v);
    BigEndianWordOf(u);
    BigEndianWordOf(v);
    FeedWord(c, x);
    FeedWord(c, y);
    Shift32Injective(Xor(c, x), Xor(c, y));
    XorComm(c, x);
    XorComm(c, y);
    XorBack(x, c);
    XorBack(y, c);
  }

  lemma WindowDiffers(c: bv32, u: seq<bv8>, v: seq<bv8>)
    requires |u| == |v| <= 4 && Feed(c, u) == Feed(c, v)
    ensures u == v
  {
    var pad := seq(4 - |u|, _ => 0 as bv8);
    FeedAppend(c, u, pad);
    FeedAppend(c, v, pad);
    FourBytesDiffer(c, u + pad, v + pad);
    assert u == (u + pad)[..|u|];
    assert v == (v + pad)[..|u|];
  }

  /** Two sections of one length that differ, but only inside four consecutive bytes, get different CRCs. */
  lemma BurstDetected(s: seq<bv8>, t: seq<bv8>, i: nat, n: nat)
    requires |s| == |t| && i + n <= |s| && n <= 4
    requires s[..i] == t[..i] && s[i + n..] == t[i + n..]
    requires s != t
    ensures Crc(s) != Crc(t)
  {
    var p, z := s[..i], s[i + n..];
    var u, v := s[i..i + n], t[i..i + n];
    assert s == p + u + z && t == p + v + z;
    FeedAppend(INITIAL, p + u, z);
    FeedAppend(INITIAL, p + v, z);
    FeedAppend(INITIAL, p, u);
    FeedAppend(INITIAL, p, v);
    if Crc(s) == Crc(t) {
      FeedInjective(Feed(INITIAL, p + u), Feed(INITIAL, p + v), z);
      WindowDiffers(Feed(INITIAL, p), u, v);
    }
  }

  // The preset register.

  lemma NothingFed()
    ensures Crc([]) == 0xFFFF_FFFF
  {}

  /** The only word that checks to 0 on its own is all ones: the register starts with every bit set. */
  lemma PresetIsAllOnes(w: bv32)
    ensures Crc(BigEndian(w)) == 0 <==> w == 0xFFFF_FFFF
  {
    ResidueIsZeroIff([], w);
    NothingFed();
    assert [] + BigEndian(w) == BigEndian(w);
  }

  lemma Complemented(w: bv32)
    ensures Xor(0xFFFF_FFFF, w) == Xor(0, !w)
  {}

  /** Presetting the register is complementing the first 32 bits of the section. */
  lemma PresetComplements(w: bv32, s: seq<bv8>)
    ensures Crc(BigEndian(w) + s) == Feed(0, BigEndian(!w) + s)
  {
    NothingFed();
    FeedAppend(INITIAL, BigEndian(w), s);
    FeedAppend(0, BigEndian(!w), s);
    FeedWord(0xFFFF_FFFF, w);
    FeedWord(0, !w);
    Complemented(w);
  }

  lemma CheckStep(s: seq<bv8>, k: nat, c: bv32, x: bv32, d: bv32)
    requires k < |s| && Crc(s[..k]) == c && Xor(c, (s[k] as bv32) << 24) == x && Shift8(x) == d
    ensures Crc(s[..k + 1]) == d
  {
    FeedAppend(INITIAL, s[..k], [s[k]]);
    FeedOne(c, s[k]);
    ByteStep(c, s[k]);
    assert s[..k + 1] == s[..k] + [s[k]];
  }

  lemma NineSteps()
    ensures Shift8(0xCEFF_FFFF) == 0x9EFB_CF93
    ensures Shift8(0xACFB_CF93) == 0x3FEC_5E6A
    ensures Shift8(0x0CEC_5E6A) == 0xD952_F164
    ensures Shift8(0xED52_F164) == 0xA695_C4AA
    ensures Shift8(0x9395_C4AA) == 0xBD9A_B747
    ensures Shift8(0x8B9A_B747) == 0xD8F0_6C8F
    ensures Shift8(0xEFF0_6C8F) == 0x0D8A_14C4
    ensures Shift8(0x358A_14C4) == 0x49E3_C2FB
    ensures Shift8(0x70E3_C2FB) == 0x0376_E6E7
  {}

  lemma DigitsOneToThree(s: seq<bv8>)
    requires s == [0x31, 0x32, 0x33, 0x34, 0x35, 0x36, 0x37, 0x38, 0x39]
    ensures Crc(s[..3]) == 0xD952_F164
  {
    NothingFed();
    assert s[..0] == [];
    NineSteps();
    CheckStep(s, 0, 0xFFFF_FFFF, 0xCEFF_FFFF, 0x9EFB_CF93);
    CheckStep(s, 1, 0x9EFB_CF93, 0xACFB_CF93, 0x3FEC_5E6A);
    CheckStep(s, 2, 0x3FEC_5E6A, 0x0CEC_5E6A, 0xD952_F164);
  }

  lemma DigitsFourToSix(s: seq<bv8>)
    requires s == [0x31, 0x32, 0x33, 0x34, 0x35, 0x36, 0x37, 0x38, 0x39]
    requires Crc(s[..3]) == 0xD952_F164
    ensures Crc(s[..6]) == 0xD8F0_6C8F
  {
    NineSteps();
    CheckStep(s, 3, 0xD952_F164, 0xED52_F164, 0xA695_C4AA);
    CheckStep(s, 4, 0xA695_C4AA, 0x9395_C4AA, 0xBD9A_B747);
    CheckStep(s, 5, 0xBD9A_B747, 0x8B9A_B747, 0xD8F0_6C8F);
  }

  lemma DigitsSevenToNine(s: seq<bv8>)
    requires s == [0x31, 0x32, 0x33, 0x34, 0x35, 0x36, 0x37, 0x38, 0x39]
    requires Crc(s[..6]) == 0xD8F0_6C8F
    ensures Crc(s[..9]) == 0x0376_E6E7
  {
    NineSteps();
    CheckStep(s, 6, 0xD8F0_6C8F, 0xEFF0_6C8F, 0x0D8A_14C4);
    CheckStep(s, 7, 0x0D8A_14C4, 0x358A_14C4, 0x49E3_C2FB);
    CheckStep(s, 8, 0x49E3_C2FB, 0x70E3_C2FB, 0x0376_E6E7);
  }

  /** The check value published for this CRC, that of the characters 1 to 9. */
  lemma CheckValue(s: seq<bv8>)
    requires s == [0x31, 0x32, 0x33, 0x34, 0x35, 0x36, 0x37, 0x38, 0x39]
    ensures Crc(s) == 0x0376_E6E7
  {
    DigitsOneToThree(s);
    DigitsFourToSix(s);
    DigitsSevenToNine(s);
    assert s[..9] == s;
  }
}
