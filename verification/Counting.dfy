/** How often something occurs in a sequence. */
module Counting {
  function Times<T(==)>(q: seq<T>, x: T): nat {
    if q == [] then 0
    else Times(q[..|q| - 1], x) + if q[|q| - 1] == x then 1 else 0
  }

  lemma TimesAppend<T>(q: seq<T>, y: T, x: T)
    ensures Times(q + [y], x) == Times(q, x) + if y == x then 1 else 0
  {
    assert (q + [y])[..|q|] == q;
  }

  lemma {:induction false} TimesConcat<T>(p: seq<T>, q: seq<T>, x: T)
    ensures Times(p + q, x) == Times(p, x) + Times(q, x)
    decreases |q|
  {
    if q == [] {
      assert p + q == p;
    } else {
      var n := |q| - 1;
      TimesConcat(p, q[..n], x);
      TimesAppend(p + q[..n], q[n], x);
      assert p + q == p + q[..n] + [q[n]];
    }
  }

  lemma TimesTail<T>(q: seq<T>, x: T)
    requires q != []
    ensures Times(q, x) == (if q[0] == x then 1 else 0) + Times(q[1..], x)
  {
    TimesConcat([q[0]], q[1..], x);
    TimesAppend([], q[0], x);
    assert q == [q[0]] + q[1..] && [] + [q[0]] == [q[0]];
  }

  lemma {:induction false} TimesErase<T>(q: seq<T>, i: nat, x: T)
    requires i < |q|
    ensures Times(q, x) == Times(q[..i] + q[i + 1..], x) + if q[i] == x then 1 else 0
  {
    assert q == q[..i] + q[i..] && q[i..][1..] == q[i + 1..];
    TimesConcat(q[..i], q[i..], x);
    TimesTail(q[i..], x);
    TimesConcat(q[..i], q[i + 1..], x);
  }

  lemma {:induction false} TimesIn<T>(q: seq<T>, x: T)
    ensures x in q <==> Times(q, x) > 0
  {
    if q == [] {
    } else {
      TimesIn(q[..|q| - 1], x);
      assert q == q[..|q| - 1] + [q[|q| - 1]];
    }
  }
}
