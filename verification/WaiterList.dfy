/**
 The intrusive waiter list of the asynchronous primitives: nodes are pushed at the front
 and taken all at once. A node may carry a gate, a flag shared with other wakers; only the
 waker that flips it schedules the node's coroutine.
 */
module WaiterList {
  import opened Wrappers

  class Gate {
    var fired: bool

    constructor ()
      ensures !fired
    {
      fired := false;
    }
  }

  class WaiterNode {
    const handle: Option<nat>
    const gate: Gate?
    var next: WaiterNode?

    constructor (handle: Option<nat>, gate: Gate?)
      ensures this.handle == handle && this.gate == gate && next == null
    {
      this.handle, this.gate, next := handle, gate, null;
    }
  }

  /**
   Whether waking the list schedules the node at position `i`: it has a handle, and it has no
   gate, or its gate was neither fired before nor fired by a node further to the front.
   */
  ghost predicate Wakes(list: seq<WaiterNode>, i: nat, firedBefore: set<Gate>)
    requires i < |list|
  {
    && list[i].handle.Some?
    && (list[i].gate != null ==>
          && list[i].gate !in firedBefore
          && (forall j :: 0 <= j < i ==> !(list[j].handle.Some? && list[j].gate == list[i].gate)))
  }

  /** The handles scheduled by waking the first `n` nodes, in order. */
  ghost function Woken(list: seq<WaiterNode>, n: nat, firedBefore: set<Gate>): seq<nat>
    requires n <= |list|
  {
    if n == 0 then []
    else if Wakes(list, n - 1, firedBefore) then Woken(list, n - 1, firedBefore) + [list[n - 1].handle.value]
    else Woken(list, n - 1, firedBefore)
  }

  ghost function Gates(list: seq<WaiterNode>): set<Gate> {
    set n | n in list && n.gate != null :: n.gate as Gate
  }

  ghost function FiredGates(list: seq<WaiterNode>): set<Gate>
    reads Gates(list)
  {
    set g | g in Gates(list) && g.fired
  }

  /** Some of the first `n` nodes was in a position to fire gate `g`. */
  ghost predicate Reached(list: seq<WaiterNode>, n: nat, g: Gate)
    requires n <= |list|
  {
    exists i :: 0 <= i < n && list[i].handle.Some? && list[i].gate == g
  }

  /** The fired gates after the first `n` nodes have been woken. */
  ghost function FiredAfter(list: seq<WaiterNode>, n: nat, firedBefore: set<Gate>): set<Gate>
    requires n <= |list|
  {
    if n == 0 then firedBefore
    else
      var node := list[n - 1];
      FiredAfter(list, n - 1, firedBefore) + if node.handle.Some? && node.gate != null then {node.gate as Gate} else {}
  }

  lemma {:induction false} FiredIsReached(list: seq<WaiterNode>, n: nat, firedBefore: set<Gate>, g: Gate)
    requires n <= |list|
    ensures g in FiredAfter(list, n, firedBefore) <==> g in firedBefore || Reached(list, n, g)
  {
    if n == 0 {
    } else {
      FiredIsReached(list, n - 1, firedBefore, g);
    }
  }

  /** A node wakes exactly if it has a handle, and no gate or one that nobody has fired by then. */
  lemma WakesIfOpen(list: seq<WaiterNode>, n: nat, firedBefore: set<Gate>)
    requires n < |list|
    ensures var node := list[n];
            Wakes(list, n, firedBefore)
            <==> node.handle.Some? && (node.gate == null || node.gate !in FiredAfter(list, n, firedBefore))
  {
    if list[n].gate != null {
      FiredIsReached(list, n, firedBefore, list[n].gate);
    }
  }

  /** What the node at position `i` points to. */
  ghost function After(list: seq<WaiterNode>, i: nat): WaiterNode?
    requires i < |list|
  {
    if i + 1 < |list| then list[i + 1] else null
  }

  class List {
    var waiters: WaiterNode?
    ghost var nodes: seq<WaiterNode>      // the nodes in the list, front first
    ghost var scheduled: seq<nat>         // every handle scheduled so far

    ghost predicate Valid()
      reads this, nodes
    {
      && waiters == (if nodes == [] then null else nodes[0])
      && (forall i :: 0 <= i < |nodes| ==> nodes[i].next == After(nodes, i))
      && (forall i, j :: 0 <= i < j < |nodes| ==> nodes[i] != nodes[j])
    }

    constructor ()
      ensures Valid() && nodes == [] && scheduled == []
    {
      waiters, nodes, scheduled := null, [], [];
    }

    /** `failures` bounds how often the weak compare-and-swap fails for no reason. */
    method AddWaiter(node: WaiterNode, failures: nat)
      requires Valid() && node !in nodes
      modifies `waiters, `nodes, node
      ensures Valid() && nodes == [node] + old(nodes)
    {
      var oldHead := waiters;
      node.next := oldHead;
      var left := failures;
      while left > 0
        invariant node.next == oldHead == waiters
        modifies node
      {
        oldHead := waiters;
        node.next := oldHead;
        left := left - 1;
      }
      waiters := node;
      nodes := [node] + nodes;
      forall i | 0 < i < |nodes|
        ensures nodes[i].next == After(nodes, i)
      {
        assert nodes[i] == old(nodes)[i - 1] != node;
        assert After(nodes, i) == After(old(nodes), i - 1);
      }
    }

    /** The compare-and-swap on a node's gate, if it has one, and the schedule that follows if that succeeds. */
    method Schedule(node: WaiterNode)
      modifies `scheduled, if node.gate == null then {} else {node.gate}
      ensures scheduled == old(scheduled)
                         + if node.handle.Some? && (node.gate == null || !old(node.gate.fired))
                           then [node.handle.value] else []
      ensures node.gate != null ==> node.gate.fired == (old(node.gate.fired) || node.handle.Some?)
    {
      if node.handle.Some? {
        if node.gate == null {
          scheduled := scheduled + [node.handle.value];
        } else if !node.gate.fired {
          node.gate.fired := true;
          scheduled := scheduled + [node.handle.value];
        }
      }
    }

    /** The loop of wake_all over a list that has been taken; `fired` are the gates fired before. */
    method WakeChain(first: WaiterNode?, ghost list: seq<WaiterNode>, ghost gates: set<Gate>, ghost fired: set<Gate>)
      requires first == if list == [] then null else list[0]
      requires forall i :: 0 <= i < |list| ==>
        list[i].next == After(list, i) && (list[i].gate != null ==> list[i].gate in gates)
      requires forall g | g in gates :: g.fired <==> g in fired
      modifies `scheduled, gates
      ensures scheduled == old(scheduled) + Woken(list, |list|, fired)
      ensures forall g | g in gates :: g.fired <==> g in FiredAfter(list, |list|, fired)
    {
      var head := first;
      ghost var n := 0;
      while head != null
        invariant n <= |list| && head == if n < |list| then list[n] else null
        invariant scheduled == old(scheduled) + Woken(list, n, fired)
        invariant forall g | g in gates :: g.fired <==> g in FiredAfter(list, n, fired)
        decreases |list| - n
      {
        var next := head.next;
        WakesIfOpen(list, n, fired);
        Schedule(head);
        n := n + 1;
        head := next;
      }
    }

    method WakeAll()
      requires Valid()
      modifies this, Gates(nodes)
      ensures Valid() && nodes == []
      ensures scheduled == old(scheduled) + Woken(old(nodes), |old(nodes)|, old(FiredGates(nodes)))
      ensures forall g | g in Gates(old(nodes)) ::
        g.fired == (old(g.fired) || Reached(old(nodes), |old(nodes)|, g))
    {
      ghost var list := nodes;
      ghost var before := FiredGates(nodes);
      assert forall g | g in Gates(list) :: g.fired <==> g in before;
      var head := waiters;
      waiters := null;
      nodes := [];
      WakeChain(head, list, Gates(list), before);
      forall g | g in Gates(list)
        ensures g.fired == (old(g.fired) || Reached(list, |list|, g))
      {
        FiredIsReached(list, |list|, before, g);
      }
    }
  }
}
