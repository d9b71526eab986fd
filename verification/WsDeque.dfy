/**
 The work-stealing deque as its owner uses it when no thief is active: a class over a
 growable power-of-two ring, refined to a plain sequence. What happens when thieves
 interleave with the owner is the subject of WsDequeMachine.
 */
module WsDeque {
  import opened Wrappers
  import opened Masking
  import opened Rings

  class CircularArray<T> {
    const buffer: array<T>

    ghost predicate Valid() {
      buffer.Length > 0 && IsPow2(buffer.Length)
    }

    /** The array as a value. */
    ghost function View(): (ring: Ring<T>)
      requires Valid()
      reads buffer
      ensures ring.Valid() && ring.Capacity() == buffer.Length
    {
      Ring(buffer[..])
    }

    /** Any capacity can be asked for; the array is of use for the powers of two. */
    constructor (n: nat, blank: T)
      ensures fresh(buffer) && buffer[..] == seq(n, _ => blank)
      ensures IsPow2(n) <==> Valid()
      ensures IsPow2(n) ==> View() == Ring(seq(n, _ => blank))
    {
      buffer := new T[n](_ => blank);
    }

    method Capacity() returns (n: nat)
      requires Valid()
      ensures n == View().Capacity()
    {
      n := buffer.Length;
    }

    method Get(i: nat) returns (item: T)
      requires Valid()
      ensures item == View().Get(i)
    {
      item := buffer[Slot(i, buffer.Length)];
    }

    method Put(i: nat, item: T)
      requires Valid()
      modifies buffer
      ensures View() == old(View()).Put(i, item)
    {
      buffer[Slot(i, buffer.Length)] := item;
    }

    method Grow(b: nat, t: nat, blank: T) returns (bigger: CircularArray<T>)
      requires Valid() && t <= b
      ensures fresh(bigger) && fresh(bigger.buffer) && bigger.Valid()
      ensures bigger.View() == View().Grow(b, t, blank)
    {
      DoublePow2(buffer.Length);
      bigger := new CircularArray(2 * buffer.Length, blank);
      var i := t;
      while i < b
        invariant t <= i <= b
        invariant fresh(bigger.buffer) && bigger.Valid()
        invariant bigger.View() == View().Grow(i, t, blank)
      {
        var item := Get(i);
        bigger.Put(i, item);
        i := i + 1;
      }
    }
  }

  class Deque<T> {
    const blank: T
    var top: nat
    var bottom: nat
    var ring: CircularArray<T>

    ghost predicate Valid()
      reads this
    {
      && ring.Valid()
      && top <= bottom <= top + ring.buffer.Length
    }

    /** The abstract value: the elements between top and bottom, front first. */
    ghost function Contents(): (s: seq<T>)
      requires Valid()
      reads this, ring.buffer
      ensures |s| == bottom - top
    {
      ring.View().Range(top, bottom)
    }

    constructor (initialCapacity: nat, blank: T)
      ensures fresh(ring) && fresh(ring.buffer) && ring.buffer.Length == initialCapacity && top == bottom == 0
      ensures IsPow2(initialCapacity) <==> Valid()
      ensures IsPow2(initialCapacity) ==> Contents() == []
    {
      this.blank := blank;
      top, bottom := 0, 0;
      ring := new CircularArray(initialCapacity, blank);
    }

    method Push(item: T)
      requires Valid()
      modifies this, ring.buffer
      ensures Valid() && Contents() == old(Contents()) + [item]
      ensures if old(|Contents()|) < old(ring.buffer.Length) then ring == old(ring)
              else fresh(ring) && fresh(ring.buffer) && ring.buffer.Length == 2 * old(ring.buffer.Length)
    {
      var b := bottom;
      var t := top;
      var capacity := ring.Capacity();
      if b - t > capacity - 1 {
        GrowKeeps(ring.View(), b, t, blank);
        ring := ring.Grow(b, t, blank);
        assert ring.View().Range(t, b) == old(Contents());
      }
      forall i | t <= i < b
        ensures ring.View().Put(b, item).Get(i) == ring.View().Get(i)
      {
        PutElsewhere(ring.View(), i, b, item);
      }
      ring.Put(b, item);
      bottom := b + 1;
    }

    method Pop() returns (r: Option<T>)
      requires Valid()
      modifies this
      ensures Valid() && ring == old(ring)
      ensures old(Contents()) == [] ==> r == None && Contents() == []
      ensures old(Contents()) != [] ==>
        && r == Some(old(Contents())[|old(Contents())| - 1])
        && Contents() == old(Contents())[..|old(Contents())| - 1]
    {
      var b := bottom;
      if b == 0 {
        return None;
      }
      b := b - 1;
      bottom := b;
      var t := top;
      if t <= b {
        var item := ring.Get(b);
        if t == b {
          // the compare-and-swap on top succeeds when no thief is active
          top := t + 1;
          bottom := b + 1;
        }
        return Some(item);
      }
      bottom := b + 1;
      return None;
    }

    method Steal() returns (r: Option<T>)
      requires Valid()
      modifies `top
      ensures Valid() && ring == old(ring)
      ensures old(Contents()) == [] ==> r == None && Contents() == []
      ensures old(Contents()) != [] ==>
        && r == Some(old(Contents())[0])
        && Contents() == old(Contents())[1..]
    {
      var t := top;
      var b := bottom;
      if t < b {
        var item := ring.Get(t);
        top := t + 1;
        return Some(item);
      }
      return None;
    }

    method Empty() returns (e: bool)
      requires Valid()
      ensures e <==> Contents() == []
    {
      e := bottom <= top;
    }

    method Size() returns (n: nat)
      requires Valid()
      ensures n == |Contents()|
    {
      n := if bottom > top then bottom - top else 0;
    }
  }
}
