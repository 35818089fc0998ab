/**
 * `UvStreamTangentBitmask`: a 32-bit mask whose top `BitsForUvIndex` bits count
 * the UV streams applied so far and whose low bits hold one 4-bit tangent index
 * per UV slot, slot i at bit `BitsPerTangent * i`.
 *
 * The mask is an unsigned 32-bit value, written here as a `nat` below 2^32 with
 * the bit operations the code uses spelled out in arithmetic: `x >> n` is `Shr`,
 * `(x >> 4i) & 0b1111` is `Field`, clearing a 4-bit field and or-ing a value into
 * it is `WriteField`, and `+=` wraps modulo 2^32.
 *
 * The header constants are not part of this model: `BitsForUvIndex`,
 * `MaxUvSlots` and `UnassignedTangent` are the fields of `Constants`, restricted
 * by `ValidConstants` to what the code needs. `BitsPerTangent` is 4, the width
 * of the `0b1111` field masks.
 */
module UvStreamTangentBitmask {

  function Pow2(n: nat): (r: nat)
    ensures r >= 1
  {
    if n == 0 then 1 else 2 * Pow2(n - 1)
  }

  /** `x >> n` on an unsigned value. */
  function Shr(x: nat, n: nat): nat
  {
    if n == 0 then x else Shr(x / 2, n - 1)
  }

  /** `(x >> (4 * i)) & 0b1111`: the 4-bit field of slot `i`. */
  function Field(x: nat, i: nat): nat
  {
    Shr(x, 4 * i) % 16
  }

  /** `(x & ~(0b1111 << 4 * i)) | (t << 4 * i)`: field `i` cleared, then set to `t`. */
  function WriteField(x: nat, i: nat, t: nat): nat
    requires t < 16
  {
    if i == 0 then (x / 16) * 16 + t else WriteField(x / 16, i - 1, t) * 16 + x % 16
  }

  datatype Constants = Constants(bitsForUvIndex: nat, maxUvSlots: nat, unassignedTangent: nat)

  /**
   * The counter has at least one bit, the slots lie below the counter, the counter
   * can hold `MaxUvSlots`, and the unassigned index fits a 4-bit field.
   */
  predicate ValidConstants(k: Constants)
  {
    && 1 <= k.bitsForUvIndex <= 32
    && 4 * k.maxUvSlots <= 32 - k.bitsForUvIndex
    && k.maxUvSlots < Pow2(k.bitsForUvIndex)
    && k.unassignedTangent < 16
  }

  /** The position of the counter: `sizeof(m_mask) * CHAR_BIT - BitsForUvIndex`. */
  function CounterShift(k: Constants): nat
    requires ValidConstants(k)
  {
    32 - k.bitsForUvIndex
  }

  /** `GetUvStreamCount`: the top `BitsForUvIndex` bits. */
  function StreamCount(k: Constants, mask: nat): nat
    requires ValidConstants(k)
  {
    Shr(mask, CounterShift(k))
  }

  /** The index `ApplyTangent` stores: out-of-range indices become `UnassignedTangent`. */
  function ClampTangent(k: Constants, tangentIndex: nat): (t: nat)
    requires ValidConstants(k)
    ensures t < 16
    ensures tangentIndex <= k.unassignedTangent ==> t == tangentIndex
    ensures tangentIndex > k.unassignedTangent ==> t == k.unassignedTangent
  {
    if tangentIndex > k.unassignedTangent then k.unassignedTangent else tangentIndex
  }

  /** The mask after `ApplyTangent(tangentIndex)`. */
  function Applied(k: Constants, mask: nat, tangentIndex: nat): nat
    requires ValidConstants(k)
  {
    var currentSlot := StreamCount(k, mask);
    if currentSlot >= k.maxUvSlots then mask
    else (WriteField(mask, currentSlot, ClampTangent(k, tangentIndex)) + Pow2(CounterShift(k))) % 0x1_0000_0000
  }

  class UvStreamTangentBitmask {
    const k: Constants
    var mask: nat

    /** The constants are valid and the mask is a 32-bit value. */
    predicate Valid()
      reads this
    {
      ValidConstants(k) && mask < 0x1_0000_0000
    }

    constructor (k: Constants)
      requires ValidConstants(k)
      ensures Valid() && this.k == k && mask == 0
    {
      this.k := k;
      mask := 0;
    }

    /** `GetFullTangentBitmask`. */
    function FullTangentBitmask(): (r: nat)
      reads this
      ensures r == mask && (Valid() ==> r < 0x1_0000_0000)
    {
      mask
    }

    /** `GetUvStreamCount`: a count that fits the `BitsForUvIndex` counter bits. */
    function UvStreamCount(): (count: nat)
      requires Valid()
      reads this
      ensures count == StreamCount(k, mask) && count < Pow2(k.bitsForUvIndex)
    {
      Pow2Of32();
      ShrBound(mask, CounterShift(k), k.bitsForUvIndex);
      StreamCount(k, mask)
    }

    /** `GetTangentAtUv`: a 4-bit tangent index; a shift by 32 bits or more is undefined in C++. */
    function TangentAtUv(uvIndex: nat): (t: nat)
      requires 4 * uvIndex < 32
      reads this
      ensures t == Field(mask, uvIndex) && t < 16
    {
      Field(mask, uvIndex)
    }

    /** `ApplyTangent`: writes the next slot and counts it, unless every slot is taken. */
    method ApplyTangent(tangentIndex: nat)
      requires Valid() && tangentIndex < 0x1_0000_0000
      modifies this
      ensures Valid()
      ensures mask == Applied(k, old(mask), tangentIndex)
    {
      var currentSlot := Shr(mask, CounterShift(k));
      if currentSlot >= k.maxUvSlots {
        return;
      }
      var t := tangentIndex;
      if t > k.unassignedTangent {
        t := k.unassignedTangent;
      }
      assert t == ClampTangent(k, tangentIndex) && currentSlot == StreamCount(k, mask);
      var written := WriteField(mask, currentSlot, t);
      mask := (written + Pow2(CounterShift(k))) % 0x1_0000_0000;
    }

    /** `Reset`: clears the mask. */
    method Reset()
      requires Valid()
      modifies this
      ensures Valid() && mask == 0
    {
      mask := 0;
    }
  }

  // ---------------------------------------------------------------------------
  // Arithmetic of the bit fields
  // ---------------------------------------------------------------------------

  lemma {:induction false} Pow2Add(a: nat, b: nat)
    ensures Pow2(a + b) == Pow2(a) * Pow2(b)
    decreases a
  {
    if a > 0 {
      Pow2Add(a - 1, b);
    }
  }

  lemma {:induction false} ShrAdd(x: nat, a: nat, b: nat)
    ensures Shr(x, a + b) == Shr(Shr(x, a), b)
    decreases a
  {
    if a > 0 {
      ShrAdd(x / 2, a - 1, b);
    }
  }

  /** Shifting right by four more bits is shifting the value divided by 16. */
  lemma {:induction false} Shr4(x: nat, n: nat)
    ensures Shr(x, n + 4) == Shr(x / 16, n)
  {
    ShrAdd(x, 4, n);
    assert Shr(x, 4) == Shr(x / 2, 3) == Shr(x / 2 / 2, 2) == Shr(x / 2 / 2 / 2, 1) == x / 2 / 2 / 2 / 2;
    assert x / 2 / 2 / 2 / 2 == x / 16;
  }

  /** The field of slot `i + 1` is the field of slot `i` of the value divided by 16. */
  lemma {:induction false} FieldNext(x: nat, i: nat)
    ensures Field(x, i + 1) == Field(x / 16, i)
  {
    Shr4(x, 4 * i);
  }

  /** `Shr(x, s)` is below 2^n exactly when `x` is below 2^(n + s). */
  lemma {:induction false} ShrBound(x: nat, s: nat, n: nat)
    ensures Shr(x, s) < Pow2(n) <==> x < Pow2(n + s)
    decreases s
  {
    if s > 0 {
      ShrBound(x / 2, s - 1, n);
    }
  }

  /** Writing a field makes it read the written value. */
  lemma {:induction false} WriteSetsField(x: nat, i: nat, t: nat)
    requires t < 16
    ensures Field(WriteField(x, i, t), i) == t
    decreases i
  {
    if i > 0 {
      var y := WriteField(x, i, t);
      FieldNext(y, i - 1);
      assert y / 16 == WriteField(x / 16, i - 1, t);
      WriteSetsField(x / 16, i - 1, t);
    }
  }

  /** Writing a field leaves every other field as it was. */
  lemma {:induction false} WriteKeepsOtherField(x: nat, i: nat, t: nat, j: nat)
    requires t < 16 && i != j
    ensures Field(WriteField(x, i, t), j) == Field(x, j)
    decreases i
  {
    var y := WriteField(x, i, t);
    if j > 0 {
      FieldNext(y, j - 1);
      FieldNext(x, j - 1);
      if i == 0 {
        assert y / 16 == x / 16;
      } else {
        assert y / 16 == WriteField(x / 16, i - 1, t);
        WriteKeepsOtherField(x / 16, i - 1, t, j - 1);
      }
    } else {
      assert y % 16 == x % 16;
    }
  }

  /** Writing a field that lies below bit `s` leaves everything from bit `s` up unchanged. */
  lemma {:induction false} WriteKeepsHigh(x: nat, i: nat, t: nat, s: nat)
    requires t < 16 && 4 * i + 4 <= s
    ensures Shr(WriteField(x, i, t), s) == Shr(x, s)
    decreases i
  {
    var y := WriteField(x, i, t);
    Shr4(y, s - 4);
    Shr4(x, s - 4);
    if i > 0 {
      assert y / 16 == WriteField(x / 16, i - 1, t);
      WriteKeepsHigh(x / 16, i - 1, t, s - 4);
    }
  }

  /** Adding 2^s adds one to the bits from `s` up. */
  lemma {:induction false} AddIncrementsHigh(x: nat, s: nat)
    ensures Shr(x + Pow2(s), s) == Shr(x, s) + 1
    decreases s
  {
    if s > 0 {
      assert (x + Pow2(s)) / 2 == x / 2 + Pow2(s - 1);
      AddIncrementsHigh(x / 2, s - 1);
    }
  }

  /** Adding 2^s leaves every field below bit `s` unchanged. */
  lemma {:induction false} AddKeepsLowField(x: nat, s: nat, j: nat)
    requires 4 * j + 4 <= s
    ensures Field(x + Pow2(s), j) == Field(x, j)
    decreases j
  {
    Pow2Add(4, s - 4);
    assert Pow2(s) == 16 * Pow2(s - 4);
    if j == 0 {
      assert (x + 16 * Pow2(s - 4)) % 16 == x % 16;
    } else {
      FieldNext(x + Pow2(s), j - 1);
      FieldNext(x, j - 1);
      assert (x + 16 * Pow2(s - 4)) / 16 == x / 16 + Pow2(s - 4);
      AddKeepsLowField(x / 16, s - 4, j - 1);
    }
  }

  lemma Pow2Of32()
    ensures Pow2(32) == 0x1_0000_0000
  {
    assert Pow2(8) == 256;
    Pow2Add(8, 8);
    Pow2Add(16, 16);
  }

  lemma {:induction false} ShrZero(n: nat)
    ensures Shr(0, n) == 0
  {
    if n > 0 {
      ShrZero(n - 1);
    }
  }

  // ---------------------------------------------------------------------------
  // Properties of ApplyTangent and Reset
  // ---------------------------------------------------------------------------

  /** With every slot taken the mask does not change. */
  lemma ApplyAtCapacity(k: Constants, mask: nat, tangentIndex: nat)
    requires ValidConstants(k)
    requires StreamCount(k, mask) >= k.maxUvSlots
    ensures Applied(k, mask, tangentIndex) == mask
  {
  }

  /** Below capacity the increment never wraps around: the mask stays a 32-bit value. */
  lemma {:induction false} ApplyDoesNotWrap(k: Constants, mask: nat, tangentIndex: nat)
    requires ValidConstants(k) && mask < 0x1_0000_0000
    requires StreamCount(k, mask) < k.maxUvSlots
    ensures WriteField(mask, StreamCount(k, mask), ClampTangent(k, tangentIndex)) + Pow2(CounterShift(k)) < 0x1_0000_0000
    ensures Applied(k, mask, tangentIndex)
            == WriteField(mask, StreamCount(k, mask), ClampTangent(k, tangentIndex)) + Pow2(CounterShift(k))
  {
    var s := CounterShift(k);
    var w := WriteField(mask, StreamCount(k, mask), ClampTangent(k, tangentIndex));
    WriteKeepsHigh(mask, StreamCount(k, mask), ClampTangent(k, tangentIndex), s);
    AddIncrementsHigh(w, s);
    ShrBound(w + Pow2(s), s, k.bitsForUvIndex);
    Pow2Of32();
  }

  /** Below capacity the count goes up by exactly one. */
  lemma {:induction false} ApplyCountsUp(k: Constants, mask: nat, tangentIndex: nat)
    requires ValidConstants(k) && mask < 0x1_0000_0000
    requires StreamCount(k, mask) < k.maxUvSlots
    ensures StreamCount(k, Applied(k, mask, tangentIndex)) == StreamCount(k, mask) + 1
  {
    var s := CounterShift(k);
    var w := WriteField(mask, StreamCount(k, mask), ClampTangent(k, tangentIndex));
    ApplyDoesNotWrap(k, mask, tangentIndex);
    WriteKeepsHigh(mask, StreamCount(k, mask), ClampTangent(k, tangentIndex), s);
    AddIncrementsHigh(w, s);
  }

  /** Below capacity the slot at the old count holds the tangent index, or `UnassignedTangent` when it is larger. */
  lemma {:induction false} ApplyWritesSlot(k: Constants, mask: nat, tangentIndex: nat)
    requires ValidConstants(k) && mask < 0x1_0000_0000
    requires StreamCount(k, mask) < k.maxUvSlots
    ensures tangentIndex <= k.unassignedTangent ==> Field(Applied(k, mask, tangentIndex), StreamCount(k, mask)) == tangentIndex
    ensures tangentIndex > k.unassignedTangent ==> Field(Applied(k, mask, tangentIndex), StreamCount(k, mask)) == k.unassignedTangent
  {
    var slot := StreamCount(k, mask);
    var w := WriteField(mask, slot, ClampTangent(k, tangentIndex));
    ApplyDoesNotWrap(k, mask, tangentIndex);
    AddKeepsLowField(w, CounterShift(k), slot);
    WriteSetsField(mask, slot, ClampTangent(k, tangentIndex));
  }

  /** `ApplyTangent` changes no slot other than the one it writes. */
  lemma {:induction false} ApplyKeepsOtherSlots(k: Constants, mask: nat, tangentIndex: nat, j: nat)
    requires ValidConstants(k) && mask < 0x1_0000_0000
    requires j < k.maxUvSlots && j != StreamCount(k, mask)
    ensures Field(Applied(k, mask, tangentIndex), j) == Field(mask, j)
  {
    var slot := StreamCount(k, mask);
    if slot < k.maxUvSlots {
      var w := WriteField(mask, slot, ClampTangent(k, tangentIndex));
      ApplyDoesNotWrap(k, mask, tangentIndex);
      AddKeepsLowField(w, CounterShift(k), j);
      WriteKeepsOtherField(mask, slot, ClampTangent(k, tangentIndex), j);
    }
  }

  /** After `Reset` the count and every slot read 0. */
  lemma {:induction false} ResetReadsZero(k: Constants, i: nat)
    requires ValidConstants(k)
    ensures StreamCount(k, 0) == 0
    ensures Field(0, i) == 0
  {
    ShrZero(CounterShift(k));
    ShrZero(4 * i);
  }
}
