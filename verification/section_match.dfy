/** Masked positive/negative section matching. */
module SectionMatch {
  const MAX_FILTER_SIZE: nat := 18

  datatype Pattern = Pattern(size: nat, value: seq<bv8>, mask: seq<bv8>, mode: seq<bv8>) {
    /** Arrays of the declared capacity; `size` is what the setter accepted. */
    predicate Valid() {
      size <= MAX_FILTER_SIZE && |value| == |mask| == |mode| == MAX_FILTER_SIZE
    }
  }

  function And(x: bv8, y: bv8): bv8 { x & y }

  function Not(x: bv8): bv8 { !x }

  /** Bit `b` of a byte, bit 0 being the least significant. */
  predicate Bit(x: bv8, b: nat) {
    match b
    case 0 => x & 0x01 != 0
    case 1 => x & 0x02 != 0
    case 2 => x & 0x04 != 0
    case 3 => x & 0x08 != 0
    case 4 => x & 0x10 != 0
    case 5 => x & 0x20 != 0
    case 6 => x & 0x40 != 0
    case 7 => x & 0x80 != 0
    case _ => false
  }

  // The meaning of one compared byte, bit by bit. A bit takes part when its mask bit is set; its
  // mode bit says whether it has to agree with the filter value or to disagree.

  ghost predicate PositiveBitsAgree(filt: bv8, mask: bv8, mode: bv8, value: bv8) {
    forall b: nat :: b < 8 && Bit(mask, b) && Bit(mode, b) ==> Bit(value, b) == Bit(filt, b)
  }

  ghost predicate HasNegativeBit(mask: bv8, mode: bv8) {
    exists b: nat :: b < 8 && Bit(mask, b) && !Bit(mode, b)
  }

  ghost predicate NegativeBitDiffers(filt: bv8, mask: bv8, mode: bv8, value: bv8) {
    exists b: nat :: b < 8 && Bit(mask, b) && !Bit(mode, b) && Bit(value, b) != Bit(filt, b)
  }

  ghost predicate PositiveAt(p: Pattern, buf: seq<bv8>, i: nat)
    requires p.Valid() && i < p.size <= |buf|
  {
    PositiveBitsAgree(p.value[i], p.mask[i], p.mode[i], buf[i])
  }

  ghost predicate NegativeAt(p: Pattern, i: nat)
    requires p.Valid() && i < p.size
  {
    HasNegativeBit(p.mask[i], p.mode[i])
  }

  ghost predicate DiffersAt(p: Pattern, buf: seq<bv8>, i: nat)
    requires p.Valid() && i < p.size <= |buf|
  {
    NegativeBitDiffers(p.value[i], p.mask[i], p.mode[i], buf[i])
  }

  /** The documented meaning: every positive bit agrees and, if there are negative bits, one of them disagrees. */
  ghost predicate Matches(p: Pattern, buf: seq<bv8>)
    requires p.Valid() && p.size <= |buf|
  {
    && (forall i: nat :: i < p.size ==> PositiveAt(p, buf, i))
    && ((exists i: nat :: i < p.size && NegativeAt(p, i)) ==>
          exists i: nat :: i < p.size && DiffersAt(p, buf, i))
  }

  ghost predicate DiffersUnder(m: bv8, x: bv8, y: bv8) {
    exists b: nat :: b < 8 && Bit(m, b) && Bit(x, b) != Bit(y, b)
  }

  ghost predicate HasBit(m: bv8) {
    exists b: nat :: b < 8 && Bit(m, b)
  }

  lemma ByteDiffers(m: bv8, x: bv8, y: bv8)
    ensures And(m, x) != And(m, y) <==> DiffersUnder(m, x, y)
  {
    if And(m, x) != And(m, y) {
      var d := (m & x) ^ (m & y);
      var b: nat := if d & 0x01 != 0 then 0 else if d & 0x02 != 0 then 1 else if d & 0x04 != 0 then 2
                    else if d & 0x08 != 0 then 3 else if d & 0x10 != 0 then 4 else if d & 0x20 != 0 then 5
                    else if d & 0x40 != 0 then 6 else 7;
      assert Bit(m, b) && Bit(x, b) != Bit(y, b);
    }
  }

  lemma ByteNonZero(m: bv8)
    ensures m != 0 <==> HasBit(m)
  {
    if m != 0 {
      var b: nat := if m & 0x01 != 0 then 0 else if m & 0x02 != 0 then 1 else if m & 0x04 != 0 then 2
                    else if m & 0x08 != 0 then 3 else if m & 0x10 != 0 then 4 else if m & 0x20 != 0 then 5
                    else if m & 0x40 != 0 then 6 else 7;
      assert Bit(m, b);
    }
  }

  lemma AndBits(x: bv8, y: bv8, b: nat)
    requires b < 8
    ensures Bit(And(x, y), b) == (Bit(x, b) && Bit(y, b))
  {
    match b
    case 0 =>
    case 1 =>
    case 2 =>
    case 3 =>
    case 4 =>
    case 5 =>
    case 6 =>
    case 7 =>
  }

  lemma NotBits(x: bv8, b: nat)
    requires b < 8
    ensures Bit(Not(x), b) == !Bit(x, b)
  {}

  /** `m` selects the mask bits whose mode bit is `positive`. */
  ghost predicate Selects(m: bv8, mask: bv8, mode: bv8, positive: bool) {
    forall b: nat :: b < 8 ==> Bit(m, b) == (Bit(mask, b) && Bit(mode, b) == positive)
  }

  lemma Selected(mask: bv8, mode: bv8)
    ensures Selects(And(mode, mask), mask, mode, true)
    ensures Selects(And(Not(mode), mask), mask, mode, false)
  {
    forall b: nat | b < 8
      ensures Bit(And(mode, mask), b) == (Bit(mask, b) && Bit(mode, b))
      ensures Bit(And(Not(mode), mask), b) == (Bit(mask, b) && !Bit(mode, b))
    {
      AndBits(mode, mask, b);
      AndBits(Not(mode), mask, b);
      NotBits(mode, b);
    }
  }

  lemma PositiveMeaning(m: bv8, filt: bv8, mask: bv8, mode: bv8, value: bv8)
    requires Selects(m, mask, mode, true)
    ensures DiffersUnder(m, value, filt) <==> !PositiveBitsAgree(filt, mask, mode, value)
  {
    if DiffersUnder(m, value, filt) {
      var b: nat :| b < 8 && Bit(m, b) && Bit(value, b) != Bit(filt, b);
      assert Bit(mask, b) && Bit(mode, b);
    }
  }

  lemma NegativeMeaning(m: bv8, filt: bv8, mask: bv8, mode: bv8, value: bv8)
    requires Selects(m, mask, mode, false)
    ensures HasBit(m) <==> HasNegativeBit(mask, mode)
    ensures DiffersUnder(m, value, filt) <==> NegativeBitDiffers(filt, mask, mode, value)
  {
    if HasBit(m) {
      var b: nat :| b < 8 && Bit(m, b);
      assert Bit(mask, b) && !Bit(mode, b);
    }
    if DiffersUnder(m, value, filt) {
      var b: nat :| b < 8 && Bit(m, b) && Bit(value, b) != Bit(filt, b);
      assert Bit(mask, b) && !Bit(mode, b);
    }
  }

  lemma PositiveTest(filt: bv8, mask: bv8, mode: bv8, value: bv8)
    ensures And(And(mode, mask), value) == And(And(mode, mask), filt) <==> PositiveBitsAgree(filt, mask, mode, value)
  {
    var m := And(mode, mask);
    ByteDiffers(m, value, filt);
    Selected(mask, mode);
    PositiveMeaning(m, filt, mask, mode, value);
  }

  lemma NegativeTest(filt: bv8, mask: bv8, mode: bv8, value: bv8)
    ensures And(Not(mode), mask) != 0 <==> HasNegativeBit(mask, mode)
    ensures And(And(Not(mode), mask), value) != And(And(Not(mode), mask), filt) <==>
      NegativeBitDiffers(filt, mask, mode, value)
  {
    var m := And(Not(mode), mask);
    ByteDiffers(m, value, filt);
    ByteNonZero(m);
    Selected(mask, mode);
    NegativeMeaning(m, filt, mask, mode, value);
  }

  /** The matching loop: `res1` for positive bits, `res2` and `first` for negative ones. */
  method SectionHit(enabled: bool, p: Pattern, buf: seq<bv8>) returns (hit: bool)
    requires p.Valid() && p.size <= |buf|
    ensures hit == (enabled && Matches(p, buf))
  {
    if !enabled {
      return false;
    }
    var res1, res2, first := true, true, true;
    for i := 0 to p.size
      invariant res1 <==> forall k: nat :: k < i ==> PositiveAt(p, buf, k)
      invariant !first <==> exists k: nat :: k < i && NegativeAt(p, k)
      invariant first ==> forall k: nat :: k < i ==> !DiffersAt(p, buf, k)
      invariant res2 <==> (first || exists k: nat :: k < i && DiffersAt(p, buf, k))
    {
      var filt, mask, mode, value := p.value[i], p.mask[i], p.mode[i], buf[i];
      PositiveTest(filt, mask, mode, value);
      NegativeTest(filt, mask, mode, value);
      assert PositiveAt(p, buf, i) == PositiveBitsAgree(filt, mask, mode, value);
      assert NegativeAt(p, i) == HasNegativeBit(mask, mode);
      assert DiffersAt(p, buf, i) == NegativeBitDiffers(filt, mask, mode, value);
      var modeR := Not(mode);
      mode := And(mode, mask);
      modeR := And(modeR, mask);
      if And(mode, value) != And(mode, filt) {
        res1 := false;
      }
      if modeR != 0 && first {
        res2 := false;
        first := false;
      }
      if And(modeR, value) != And(modeR, filt) {
        res2 := true;
      }
    }
    return res1 && res2;
  }
}
