/**
 add_batch_task: a range of items is cut into batches that are queued as separate tasks. The
 batches are the range, cut in order and without gaps, so running an element-wise task over
 them, in any order and even with their elements interleaved, is one pass over the range.
 */
module BatchTask {
  /** Items `lo` up to but not including `hi`. */
  datatype Batch = Batch(lo: nat, hi: nat) {
    predicate Valid() { lo <= hi }
  }

  /** What the call queues, or the division by zero that it runs into. */
  datatype Outcome = Queued(batches: seq<Batch>) | DivisionByZero

  function Indices(lo: nat, hi: nat): (r: seq<nat>)
    requires lo <= hi
    ensures |r| == hi - lo && forall k :: 0 <= k < |r| ==> r[k] == lo + k
  {
    seq(hi - lo, k requires 0 <= k < hi - lo => lo + k)
  }

  ghost predicate AllValid(batches: seq<Batch>) {
    forall k :: 0 <= k < |batches| ==> batches[k].Valid()
  }

  /** The items of all batches, batch after batch. */
  function Items(batches: seq<Batch>): seq<nat>
    requires AllValid(batches)
  {
    if batches == [] then [] else Indices(batches[0].lo, batches[0].hi) + Items(batches[1..])
  }

  lemma {:induction false} ItemsAppend(batches: seq<Batch>, b: Batch)
    requires AllValid(batches) && b.Valid()
    ensures Items(batches + [b]) == Items(batches) + Indices(b.lo, b.hi)
  {
    if batches == [] {
      assert batches + [b] == [b] && [b][1..] == [];
    } else {
      assert (batches + [b])[1..] == batches[1..] + [b];
      ItemsAppend(batches[1..], b);
    }
  }

  lemma IndicesSplit(lo: nat, mid: nat, hi: nat)
    requires lo <= mid <= hi
    ensures Indices(lo, mid) + Indices(mid, hi) == Indices(lo, hi)
  {
  }

  /** More threads than items, or no items: everything goes into one batch. */
  predicate OneBatch(items: nat, threads: nat) {
    items == 0 || threads > items
  }

  /** How many items a batch has: as many as the per-thread share fills cache lines. */
  function BatchSize(items: nat, size: nat, threads: nat, line: nat): (n: nat)
    requires threads > 0 && line > 0
    ensures n >= 1
  {
    var lines := (items + threads - 1) / threads * size / line;
    if lines > 1 then lines else 1
  }

  /** The k-th full batch of `n` items. */
  function Nth(start: nat, n: nat, k: nat): Batch {
    Batch(start + k * n, start + (k + 1) * n)
  }

  lemma Multiples(p: nat, q: nat, n: nat)
    requires p <= q
    ensures p * n <= q * n
  {
    assert (q - p) * n >= 0;
  }

  /** Division is the largest factor that fits. */
  lemma {:induction false} LargestFactor(a: nat, n: nat, q: nat)
    requires n > 0
    ensures q * n <= a <==> q <= a / n
  {
    var d := a / n;
    assert a == d * n + a % n;
    if q <= d {
      Multiples(q, d, n);
    } else {
      Multiples(d + 1, q, n);
    }
  }

  /** Full batches follow each other and stay inside the range, and what remains is less than one. */
  lemma {:induction false} FullBatches(start: nat, items: nat, n: nat, i: nat)
    requires n > 0 && i <= items / n
    ensures Nth(start, n, i).lo <= start + items
    ensures Nth(start, n, i).hi == Nth(start, n, i).lo + n == Nth(start, n, i + 1).lo
    ensures i < items / n ==> Nth(start, n, i).hi <= start + items
    ensures i == items / n ==> start + items - Nth(start, n, i).lo < n
  {
    LargestFactor(items, n, i);
    LargestFactor(items, n, i + 1);
  }

  /**
   `size` is the element size, `threads` the reported hardware concurrency and `line` the
   caller's cache line size; the latter two can be zero.
   */
  method AddBatchTask(start: nat, stop: nat, size: nat, threads: nat, line: nat) returns (outcome: Outcome)
    requires start <= stop
    ensures outcome == DivisionByZero <==> !OneBatch(stop - start, threads) && (threads == 0 || line == 0)
    ensures outcome.Queued? ==>
      && outcome.batches != [] && AllValid(outcome.batches)
      && Items(outcome.batches) == Indices(start, stop)
      && if OneBatch(stop - start, threads) then |outcome.batches| == 1
         else Cut(outcome.batches, start, stop, BatchSize(stop - start, size, threads, line))
  {
    var items := stop - start;
    if items == 0 || threads > items {
      IndicesSplit(start, stop, stop);
      ItemsAppend([], Batch(start, stop));
      assert [] + [Batch(start, stop)] == [Batch(start, stop)];
      return Queued([Batch(start, stop)]);
    }
    if threads == 0 || line == 0 {
      return DivisionByZero;
    }
    var share := (items + threads - 1) / threads;
    var bytes := share * size;
    var n := if bytes / line > 1 then bytes / line else 1;
    assert n == BatchSize(items, size, threads, line);
    var batches := CutRange(start, stop, n);
    return Queued(batches);
  }

  /** All batches but the last have `n` items, the last one has fewer. */
  ghost predicate Cut(batches: seq<Batch>, start: nat, stop: nat, n: nat) {
    && start <= stop && n > 0
    && |batches| == (stop - start) / n + 1
    && (forall k :: 0 <= k < |batches| - 1 ==> batches[k] == Nth(start, n, k))
    && batches[|batches| - 1].Valid()
    && batches[|batches| - 1].hi - batches[|batches| - 1].lo < n
  }

  /** The loop of add_batch_task. */
  method CutRange(start: nat, stop: nat, n: nat) returns (batches: seq<Batch>)
    requires start <= stop && n > 0
    ensures AllValid(batches) && Items(batches) == Indices(start, stop) && Cut(batches, start, stop, n)
  {
    var full := (stop - start) / n;
    var at := start;
    batches := [];
    var i := 0;
    FullBatches(start, stop - start, n, 0);
    while i < full
      invariant 0 <= i <= full && |batches| == i
      invariant start <= at == Nth(start, n, i).lo <= stop
      invariant AllValid(batches) && Items(batches) == Indices(start, at)
      invariant forall k :: 0 <= k < i ==> batches[k] == Nth(start, n, k)
    {
      FullBatches(start, stop - start, n, i);
      var next := at + n;
      ItemsAppend(batches, Batch(at, next));
      IndicesSplit(start, at, next);
      batches := batches + [Batch(at, next)];
      at := next;
      i := i + 1;
    }
    FullBatches(start, stop - start, n, i);
    ItemsAppend(batches, Batch(at, stop));
    IndicesSplit(start, at, stop);
    batches := batches + [Batch(at, stop)];
  }

  lemma SharesCover(items: nat, threads: nat)
    requires threads > 0
    ensures items <= (items + threads - 1) / threads * threads
  {
    var share := (items + threads - 1) / threads;
    LargestFactor(items + threads - 1, threads, share + 1);
    assert (share + 1) * threads == share * threads + threads;
  }

  lemma {:induction false} BatchHoldsShare(items: nat, size: nat, threads: nat, line: nat)
    requires threads > 0 && size >= line > 0
    ensures (items + threads - 1) / threads <= BatchSize(items, size, threads, line)
  {
    var share := (items + threads - 1) / threads;
    Multiples(line, size, share);
    LargestFactor(share * size, line, share);
  }

  /** When an element fills a cache line, there are no more full batches than threads. */
  lemma {:induction false} NoMoreBatchesThanThreads(items: nat, size: nat, threads: nat, line: nat)
    requires threads > 0 && size >= line > 0
    ensures items / BatchSize(items, size, threads, line) <= threads
  {
    SharesCover(items, threads);
    BatchHoldsShare(items, size, threads, line);
    FewEnough(items, threads, (items + threads - 1) / threads, BatchSize(items, size, threads, line));
  }

  lemma {:induction false} FewEnough(items: nat, threads: nat, share: nat, n: nat)
    requires items <= share * threads && share <= n && n > 0
    ensures items / n <= threads
  {
    Multiples(share, n, threads);
    assert (threads + 1) * n == n * threads + n;
    if threads < items / n {
      LargestFactor(items, n, threads + 1);
    }
  }

  /** Smaller elements: with one item more than threads there is a full batch for every item. */
  lemma OneBatchPerItem(size: nat, threads: nat, line: nat)
    requires threads > 0 && size < line
    ensures BatchSize(threads + 1, size, threads, line) == 1
  {
    var share := (threads + 1 + threads - 1) / threads;
    assert share == 2 by {
      LargestFactor(2 * threads, threads, 2);
      LargestFactor(2 * threads, threads, 3);
    }
    assert 2 * size < 2 * line;
    LargestFactor(share * size, line, 2);
  }

  /**
   There are never more full batches than threads, whatever the number of items, exactly if an
   element fills a cache line.
   */
  lemma NeverMoreBatchesThanThreadsIff(size: nat, threads: nat, line: nat)
    requires threads > 0 && line > 0
    ensures (forall items: nat :: items / BatchSize(items, size, threads, line) <= threads) <==> size >= line
  {
    if size >= line {
      forall items: nat
        ensures items / BatchSize(items, size, threads, line) <= threads
      {
        NoMoreBatchesThanThreads(items, size, threads, line);
      }
    } else {
      OneBatchPerItem(size, threads, line);
      var items: nat := threads + 1;
      assert items / BatchSize(items, size, threads, line) == items;
    }
  }

  // ---------------------------------------------------------------- running the batches

  /** An element-wise task applied to the items in the given order. */
  function Apply<T>(f: (nat, T) -> T, data: seq<T>, order: seq<nat>): (r: seq<T>)
    requires forall k :: 0 <= k < |order| ==> order[k] < |data|
    ensures |r| == |data|
    decreases |order|
  {
    if order == [] then data else Apply(f, data[order[0] := f(order[0], data[order[0]])], order[1..])
  }

  /** One pass over [start, stop). */
  function OnePass<T>(f: (nat, T) -> T, data: seq<T>, start: nat, stop: nat): (r: seq<T>)
    requires start <= stop <= |data|
    ensures |r| == |data|
    ensures forall i :: 0 <= i < |data| ==> r[i] == if start <= i < stop then f(i, data[i]) else data[i]
  {
    seq(|data|, i requires 0 <= i < |data| => if start <= i < stop then f(i, data[i]) else data[i])
  }

  ghost predicate Distinct(order: seq<nat>) {
    forall i, j :: 0 <= i < j < |order| ==> order[i] != order[j]
  }

  lemma {:induction false} ApplyTouchesEachOnce<T>(f: (nat, T) -> T, data: seq<T>, order: seq<nat>)
    requires (forall k :: 0 <= k < |order| ==> order[k] < |data|) && Distinct(order)
    ensures var r := Apply(f, data, order);
      forall i: nat :: i < |data| ==> r[i] == if i in order then f(i, data[i]) else data[i]
    decreases |order|
  {
    if order == [] {
    } else {
      var next := data[order[0] := f(order[0], data[order[0]])];
      ApplyTouchesEachOnce(f, next, order[1..]);
      assert order == [order[0]] + order[1..];
      assert order[0] !in order[1..];
    }
  }

  /** An order with the same items, each as often, has no item twice if the original has none. */
  lemma {:induction false} ReorderedDistinct(order: seq<nat>, items: seq<nat>)
    requires multiset(order) == multiset(items) && Distinct(items)
    ensures Distinct(order)
  {
    forall i, j | 0 <= i < j < |order| ensures order[i] != order[j] {
      if order[i] == order[j] {
        var x := order[i];
        assert order == order[..j] + order[j..];
        assert x in order[..j] && order[j..][0] == x && x in order[j..];
        assert multiset(order)[x] == multiset(order[..j])[x] + multiset(order[j..])[x] >= 2;
        AtMostOnce(items, x);
      }
    }
  }

  lemma {:induction false} AtMostOnce(items: seq<nat>, x: nat)
    requires Distinct(items)
    ensures multiset(items)[x] <= 1
  {
    if items == [] {
    } else {
      assert items == [items[0]] + items[1..];
      AtMostOnce(items[1..], x);
      if items[0] == x {
        assert x !in items[1..];
      }
    }
  }

  lemma ReorderedMembers(order: seq<nat>, items: seq<nat>, x: nat)
    requires multiset(order) == multiset(items)
    ensures x in order <==> x in items
  {
    assert x in order <==> x in multiset(order);
    assert x in items <==> x in multiset(items);
  }

  /**
   However the elements of the queued batches are ordered, batch by batch or interleaved over
   the workers, the data ends up as after one pass over the whole range.
   */
  lemma AnyOrderIsOnePass<T>(f: (nat, T) -> T, data: seq<T>, batches: seq<Batch>,
                             start: nat, stop: nat, order: seq<nat>)
    requires start <= stop <= |data|
    requires AllValid(batches) && Items(batches) == Indices(start, stop)
    requires multiset(order) == multiset(Items(batches))
    ensures forall k :: 0 <= k < |order| ==> order[k] < |data|
    ensures Apply(f, data, order) == OnePass(f, data, start, stop)
  {
    var items := Indices(start, stop);
    forall x: nat ensures x in order <==> start <= x < stop {
      ReorderedMembers(order, items, x);
      if start <= x < stop {
        assert items[x - start] == x;
      }
    }
    forall k | 0 <= k < |order| ensures order[k] < |data| {
      assert order[k] in order;
    }
    ReorderedDistinct(order, items);
    ApplyTouchesEachOnce(f, data, order);
  }
}
