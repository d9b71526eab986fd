/**
 The circular array of the deque as a value: what its slots hold, and what get, put and
 grow mean. Both the class and the interleaving model are stated in these terms.
 */
module Rings {
  import opened Masking

  datatype Ring<T> = Ring(slots: seq<T>) {
    ghost predicate Valid() {
      |slots| > 0 && IsPow2(|slots|)
    }

    function Capacity(): nat {
      |slots|
    }

    function Get(i: nat): T
      requires |slots| > 0
    {
      slots[Slot(i, |slots|)]
    }

    function Put(i: nat, item: T): (r: Ring<T>)
      requires |slots| > 0
      ensures r.Capacity() == Capacity() && r.Get(i) == item
    {
      Ring(slots[Slot(i, |slots|) := item])
    }

    /** The elements of logical indices `lo` to `hi`, in order. */
    function Range(lo: nat, hi: nat): (r: seq<T>)
      requires |slots| > 0 && lo <= hi
      ensures |r| == hi - lo
    {
      seq(hi - lo, k requires 0 <= k => Get(lo + k))
    }

    /** A ring of twice the capacity: blank slots, then the elements of indices `t` to `b` copied in order. */
    function Grow(b: nat, t: nat, blank: T): (r: Ring<T>)
      requires |slots| > 0 && t <= b
      decreases b - t
      ensures r.Capacity() == 2 * Capacity()
    {
      if b == t then Ring(seq(2 * |slots|, _ => blank))
      else Grow(b - 1, t, blank).Put(b - 1, Get(b - 1))
    }
  }

  /** Writing one slot leaves every other index of the window as it was. */
  lemma PutElsewhere<T>(ring: Ring<T>, i: nat, j: nat, item: T)
    requires ring.Valid()
    requires i < j < i + ring.Capacity() || j < i < j + ring.Capacity()
    ensures ring.Put(j, item).Get(i) == ring.Get(i)
  {
    SlotProperties(ring.Capacity());
    assert WindowsDistinct(ring.Capacity());
    assert Slot(i, ring.Capacity()) != Slot(j, ring.Capacity());
  }

  /** Growing keeps every element of a window that fits the old ring. */
  lemma {:induction false} GrowKeeps<T>(ring: Ring<T>, b: nat, t: nat, blank: T)
    requires ring.Valid() && t <= b <= t + ring.Capacity()
    ensures ring.Grow(b, t, blank).Valid()
    ensures forall i :: t <= i < b ==> ring.Grow(b, t, blank).Get(i) == ring.Get(i)
    decreases b - t
  {
    DoublePow2(ring.Capacity());
    if b == t {
    } else {
      GrowKeeps(ring, b - 1, t, blank);
      forall i | t <= i < b - 1
        ensures ring.Grow(b, t, blank).Get(i) == ring.Get(i)
      {
        PutElsewhere(ring.Grow(b - 1, t, blank), i, b - 1, ring.Get(b - 1));
      }
    }
  }

  /** The ring after `items` have been put at the indices from `t` on, one after the other. */
  function Fill<T>(ring: Ring<T>, t: nat, items: seq<T>): (r: Ring<T>)
    requires ring.Capacity() > 0
    ensures r.Capacity() == ring.Capacity()
  {
    if items == [] then ring
    else
      var n := |items| - 1;
      Fill(ring, t, items[..n]).Put(t + n, items[n])
  }

  lemma {:induction false} FillHolds<T>(ring: Ring<T>, t: nat, items: seq<T>, k: nat)
    requires ring.Valid() && k < |items| <= ring.Capacity()
    ensures Fill(ring, t, items).Get(t + k) == items[k]
  {
    var n := |items| - 1;
    var before := Fill(ring, t, items[..n]);
    if k == n {
    } else {
      FillHolds(ring, t, items[..n], k);
      assert before.Valid() && before.Capacity() == ring.Capacity();
      PutElsewhere(before, t + k, t + n, items[n]);
    }
  }

  /** The ring holds whatever is put into it, up to its capacity. */
  ghost predicate HoldsContents(ring: Ring<int>)
    requires ring.Capacity() > 0
  {
    forall t: nat, items: seq<int> :: |items| <= ring.Capacity() ==>
      Fill(ring, t, items).Range(t, t + |items|) == items
  }

  /** With any other capacity than a power of two, some element that fits overwrites the first one. */
  lemma FirstIsOverwritten(ring: Ring<int>) returns (items: seq<int>)
    requires ring.Capacity() > 0 && !IsPow2(ring.Capacity())
    ensures |items| <= ring.Capacity() && Fill(ring, 0, items).Range(0, |items|) != items
  {
    var i := Collision(ring.Capacity());
    items := seq(i + 1, k => k);
    var full := Fill(ring, 0, items);
    assert full.Get(i) == items[i] == i;
    assert Slot(0, ring.Capacity()) == Slot(i, ring.Capacity());
    assert full.Range(0, |items|)[0] == full.Get(0) == i != items[0];
  }

  /** Exactly the rings whose capacity is a power of two hold what is put into them. */
  lemma HoldsContentsIffPowerOfTwo(ring: Ring<int>)
    requires ring.Capacity() > 0
    ensures HoldsContents(ring) <==> IsPow2(ring.Capacity())
  {
    if IsPow2(ring.Capacity()) {
      forall t: nat, items: seq<int> | |items| <= ring.Capacity()
        ensures Fill(ring, t, items).Range(t, t + |items|) == items
      {
        forall k | 0 <= k < |items|
          ensures Fill(ring, t, items).Range(t, t + |items|)[k] == items[k]
        {
          FillHolds(ring, t, items, k);
        }
      }
    } else {
      var items := FirstIsOverwritten(ring);
      assert Fill(ring, 0, items).Range(0, 0 + |items|) != items;
    }
  }
}
