/**
 The index arithmetic of the ring buffer: slot `i & (capacity - 1)`.
 The main result says for which capacities the masked index can be used at all.
 */
module Masking {

  /** Bitwise conjunction of two naturals. */
  function BitAnd(a: nat, b: nat): (r: nat)
    ensures r <= b
  {
    if a == 0 || b == 0 then 0
    else 2 * BitAnd(a / 2, b / 2) + (if a % 2 == 1 && b % 2 == 1 then 1 else 0)
  }

  function Pow2(k: nat): (p: nat)
    ensures p >= 1
  {
    if k == 0 then 1 else 2 * Pow2(k - 1)
  }

  ghost predicate IsPow2(n: nat) {
    exists k: nat :: n == Pow2(k)
  }

  /** The slot of logical index `i` in a ring of `capacity` slots. */
  function Slot(i: nat, capacity: nat): (slot: nat)
    requires capacity > 0
    ensures slot < capacity
  {
    BitAnd(i, capacity - 1)
  }

  /** No two of any `capacity` consecutive logical indices share a slot. */
  ghost predicate WindowsDistinct(capacity: nat)
    requires capacity > 0
  {
    forall i: nat, j: nat :: i < j < i + capacity ==> Slot(i, capacity) != Slot(j, capacity)
  }

  /** One step of masking: the low bit of the index stays, the rest is masked by half the capacity. */
  lemma MaskHalf(i: nat, p: nat)
    requires p >= 1
    ensures BitAnd(i, 2 * p - 1) == 2 * BitAnd(i / 2, p - 1) + i % 2
  {
    assert (2 * p - 1) / 2 == p - 1 && (2 * p - 1) % 2 == 1;
  }

  lemma HalvesApart(i: nat, j: nat, p: nat)
    requires i < j < i + 2 * p && i % 2 == j % 2
    ensures i / 2 < j / 2 < i / 2 + p
  {
  }

  /** Indices with different low bits, or with halves that are kept apart, are kept apart. */
  lemma MaskApart(i: nat, j: nat, p: nat)
    requires p >= 1 && (i % 2 == j % 2 ==> BitAnd(i / 2, p - 1) != BitAnd(j / 2, p - 1))
    ensures BitAnd(i, 2 * p - 1) != BitAnd(j, 2 * p - 1)
  {
    MaskHalf(i, p);
    MaskHalf(j, p);
    DigitsApart(BitAnd(i / 2, p - 1), BitAnd(j / 2, p - 1), i % 2, j % 2);
  }

  lemma DigitsApart(a: nat, b: nat, x: nat, y: nat)
    requires x < 2 && y < 2 && (x == y ==> a != b)
    ensures 2 * a + x != 2 * b + y
  {
  }

  lemma {:induction false} MaskDistinct(i: nat, j: nat, k: nat)
    requires i < j < i + Pow2(k)
    ensures BitAnd(i, Pow2(k) - 1) != BitAnd(j, Pow2(k) - 1)
  {
    if k == 0 {
    } else {
      var p := Pow2(k - 1);
      if i % 2 == j % 2 {
        HalvesApart(i, j, p);
        MaskDistinct(i / 2, j / 2, k - 1);
      }
      MaskApart(i, j, p);
    }
  }

  /** With a power-of-two capacity, consecutive indices up to the capacity have distinct slots. */
  lemma SlotProperties(capacity: nat)
    requires capacity > 0 && IsPow2(capacity)
    ensures WindowsDistinct(capacity)
  {
    var k: nat :| capacity == Pow2(k);
    forall i: nat, j: nat | i < j < i + capacity
      ensures Slot(i, capacity) != Slot(j, capacity)
    {
      MaskDistinct(i, j, k);
    }
  }

  /** Any other capacity has an index below it that falls on the slot of index 0. */
  lemma {:induction false} Collision(n: nat) returns (i: nat)
    requires n > 0 && !IsPow2(n)
    ensures 0 < i < n && BitAnd(i, n - 1) == 0
  {
    assert n != 1 by {
      assert Pow2(0) == 1;
    }
    if n % 2 == 1 {
      i := 1;
      assert BitAnd(0, (n - 1) / 2) == 0;
    } else {
      assert !IsPow2(n / 2) by {
        if IsPow2(n / 2) {
          var k: nat :| n / 2 == Pow2(k);
          assert n == Pow2(k + 1);
        }
      }
      var j := Collision(n / 2);
      assert (n - 1) / 2 == n / 2 - 1;
      i := 2 * j;
    }
  }

  /** The masked ring is usable for exactly the power-of-two capacities. */
  lemma MaskedRingIffPowerOfTwo(capacity: nat)
    requires capacity > 0
    ensures WindowsDistinct(capacity) <==> IsPow2(capacity)
  {
    if IsPow2(capacity) {
      SlotProperties(capacity);
    } else {
      var i := Collision(capacity);
      assert Slot(0, capacity) == Slot(i, capacity);
    }
  }

  lemma DoublePow2(n: nat)
    requires IsPow2(n)
    ensures IsPow2(2 * n)
  {
    var k: nat :| n == Pow2(k);
    assert 2 * n == Pow2(k + 1);
  }
}
