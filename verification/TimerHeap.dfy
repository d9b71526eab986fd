/**
 The timer service's heap of pending timers, in the terms of the library's heap operations
 ([alg.heap.operations] of ISO C++23): push_heap and pop_heap rearrange the sequence into
 some heap with the right elements, and the earliest deadline is at the front.
 */
module TimerHeap {
  datatype Entry = Entry(deadline: int, who: nat)

  function Parent(i: nat): (p: nat)
    requires i > 0
    ensures p < i
  {
    (i - 1) / 2
  }

  ghost predicate IsHeap(h: seq<Entry>) {
    forall i {:trigger Parent(i)} :: 0 < i < |h| ==> h[Parent(i)].deadline <= h[i].deadline
  }

  ghost predicate PushHeap(h: seq<Entry>, e: Entry, h': seq<Entry>) {
    IsHeap(h') && multiset(h') == multiset(h) + multiset{e}
  }

  ghost predicate PopHeap(h: seq<Entry>, h': seq<Entry>) {
    h != [] && IsHeap(h') && multiset(h) == multiset(h') + multiset{h[0]}
  }

  /** In a heap the front has the earliest deadline. */
  lemma {:induction false} FrontIsEarliest(h: seq<Entry>, i: nat)
    requires IsHeap(h) && i < |h|
    ensures h[0].deadline <= h[i].deadline
  {
    if i == 0 {
    } else {
      FrontIsEarliest(h, Parent(i));
    }
  }

  lemma SameMembers(h: seq<Entry>, e: Entry, h': seq<Entry>)
    requires multiset(h') == multiset(h) + multiset{e}
    ensures forall x :: x in h' <==> x in h || x == e
    ensures |h'| == |h| + 1
  {
    assert forall x :: x in h' <==> x in multiset(h');
    assert forall x :: x in h <==> x in multiset(h);
    assert |multiset(h')| == |multiset(h)| + 1;
  }

  // ---------------------------------------------------------------- one way to do it

  /** Every edge of the heap but the one above position `i` is in order. */
  ghost predicate HeapBut(h: seq<Entry>, i: nat)
    requires i < |h|
  {
    && (forall k {:trigger Parent(k)} :: 0 < k < |h| && k != i ==> h[Parent(k)].deadline <= h[k].deadline)
    && (i > 0 ==>
          forall k {:trigger Parent(k)} :: 0 < k < |h| && Parent(k) == i ==> h[Parent(i)].deadline <= h[k].deadline)
  }

  /** Every edge of the heap but those below position `i` is in order. */
  ghost predicate HeapAbove(h: seq<Entry>, i: nat)
    requires i < |h|
  {
    && (forall k {:trigger Parent(k)} :: 0 < k < |h| && Parent(k) != i ==> h[Parent(k)].deadline <= h[k].deadline)
    && (i > 0 ==>
          forall k {:trigger Parent(k)} :: 0 < k < |h| && Parent(k) == i ==> h[Parent(i)].deadline <= h[k].deadline)
  }

  function Swap(h: seq<Entry>, i: nat, j: nat): (r: seq<Entry>)
    requires i < |h| && j < |h|
    ensures |r| == |h|
  {
    h[i := h[j]][j := h[i]]
  }

  lemma SwapKeeps(h: seq<Entry>, i: nat, j: nat)
    requires i < |h| && j < |h|
    ensures multiset(Swap(h, i, j)) == multiset(h)
  {
  }

  lemma SiftUp(h: seq<Entry>, i: nat)
    requires 0 < i < |h| && HeapBut(h, i) && h[Parent(i)].deadline > h[i].deadline
    ensures HeapBut(Swap(h, Parent(i), i), Parent(i))
  {
    var p := Parent(i);
    var g := Swap(h, p, i);
    forall k | 0 < k < |g| && k != p
      ensures g[Parent(k)].deadline <= g[k].deadline
    {
      assert k != i ==> h[Parent(k)].deadline <= h[k].deadline;
    }
    if p > 0 {
      assert h[Parent(p)].deadline <= h[p].deadline;
    }
  }

  lemma SiftDown(h: seq<Entry>, i: nat, c: nat)
    requires 0 < c < |h| && Parent(c) == i && HeapAbove(h, i) && h[i].deadline > h[c].deadline
    requires forall k {:trigger Parent(k)} :: 0 < k < |h| && Parent(k) == i ==> h[c].deadline <= h[k].deadline
    ensures HeapAbove(Swap(h, i, c), c)
  {
    var g := Swap(h, i, c);
    forall k | 0 < k < |g| && Parent(k) != c
      ensures g[Parent(k)].deadline <= g[k].deadline
    {
      if k == i {
        assert h[Parent(i)].deadline <= h[c].deadline;
      }
    }
    forall k | 0 < k < |g| && Parent(k) == c
      ensures g[Parent(c)].deadline <= g[k].deadline
    {
      assert h[Parent(k)].deadline <= h[k].deadline;
    }
  }

  lemma Children(i: nat, k: nat)
    requires k > 0
    ensures Parent(k) == i <==> k == 2 * i + 1 || k == 2 * i + 2
  {
  }

  method Push(h: seq<Entry>, e: Entry) returns (h': seq<Entry>)
    requires IsHeap(h)
    ensures PushHeap(h, e, h')
  {
    h' := h + [e];
    var i: nat := |h|;
    assert HeapBut(h', i);
    while i > 0 && h'[Parent(i)].deadline > h'[i].deadline
      invariant i < |h'| && |h'| == |h| + 1
      invariant HeapBut(h', i)
      invariant multiset(h') == multiset(h) + multiset{e}
    {
      SiftUp(h', i);
      SwapKeeps(h', Parent(i), i);
      h' := Swap(h', Parent(i), i);
      i := Parent(i);
    }
  }

  method Pop(h: seq<Entry>) returns (h': seq<Entry>)
    requires IsHeap(h) && h != []
    ensures PopHeap(h, h')
  {
    var n := |h| - 1;
    h' := MoveLastToFront(h);
    if n == 0 {
      return;
    }
    var i := 0;
    while 2 * i + 1 < n
      invariant i < |h'| == n
      invariant HeapAbove(h', i)
      invariant multiset(h) == multiset(h') + multiset{h[0]}
      decreases n - i
    {
      var c := 2 * i + 1;
      if c + 1 < n && h'[c + 1].deadline < h'[c].deadline {
        c := c + 1;
      }
      forall k | 0 < k < n && Parent(k) == i
        ensures h'[c].deadline <= h'[k].deadline
      {
        Children(i, k);
      }
      if h'[i].deadline <= h'[c].deadline {
        return;
      }
      SiftDown(h', i, c);
      SwapKeeps(h', i, c);
      h' := Swap(h', i, c);
      i := c;
    }
    forall k | 0 < k < n
      ensures Parent(k) != i
    {
      Children(i, k);
    }
  }

  /** The heap without its front, the last entry in its place. */
  method MoveLastToFront(h: seq<Entry>) returns (h': seq<Entry>)
    requires IsHeap(h) && h != []
    ensures |h'| == |h| - 1 && multiset(h) == multiset(h') + multiset{h[0]}
    ensures |h'| > 0 ==> HeapAbove(h', 0)
  {
    var n := |h| - 1;
    assert h == h[..n] + [h[n]];
    if n == 0 {
      h' := [];
    } else {
      h' := h[..n][0 := h[n]];
      assert h[..n] == [h[0]] + h[1..n] && h' == [h[n]] + h[1..n];
      forall k | 0 < k < n && Parent(k) != 0
        ensures h'[Parent(k)].deadline <= h'[k].deadline
      {
        assert h[Parent(k)].deadline <= h[k].deadline;
      }
    }
  }
}
