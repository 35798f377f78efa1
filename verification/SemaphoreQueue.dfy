/** The semaphore's queue lock at work: `distribute_permits` on the linked wait list. */
module SemaphoreQueues {
  import opened Options
  import opened WaitQueues
  import opened WaitLists

  import M = Semaphores

  const BATCH: nat := M.BATCH

  /** A linked node without a waker is permit debt; `waker` is the task to be woken. */
  datatype WaitNode = WaitNode(needed: nat, waker: Option<nat>)

  datatype Served = Served(waiters: Waiters<WaitNode>, left: nat, woken: seq<nat>)

  /** Gives permits to the head until they, the room for wakers, or the queue runs out. */
  function Serve(w: Waiters<WaitNode>, left: nat, room: nat): Served
    decreases |w.queue|
  {
    if left == 0 || room == 0 || w.queue == [] || w.queue[0] !in w.nodes then Served(w, left, [])
    else
      var id := w.queue[0];
      var node := w.nodes[id];
      if node.needed > left then
        Served(w.Put(id, node.(needed := node.needed - left)), 0, [])
      else if node.waker.None? then
        Serve(Waiters(w.queue[1..], w.nodes - {id}), left - node.needed, room)
      else
        var rest := Serve(Waiters(w.queue[1..], w.nodes[id := WaitNode(0, None)]), left - node.needed, room - 1);
        rest.(woken := [node.waker.value] + rest.woken)
  }

  /** Every linked node still needs a permit, and a debt node has no future to keep it. */
  ghost predicate QueueOk(w: Waiters<WaitNode>) {
    w.Wf() && forall id :: id in w.queue ==> w.nodes[id].needed > 0
  }

  /** Cutting the work into batches does not change what is done. */
  lemma {:induction false} BatchesCompose(w: Waiters<WaitNode>, left: nat, room: nat, more: nat)
    ensures |Serve(w, left, room).woken| <= room
    ensures var first := Serve(w, left, room);
            var second := Serve(first.waiters, first.left, more + (room - |first.woken|));
            Serve(w, left, room + more) == second.(woken := first.woken + second.woken)
    decreases |w.queue|
  {
    var first := Serve(w, left, room);
    if left == 0 || room == 0 || w.queue == [] || w.queue[0] !in w.nodes {
    } else {
      var id := w.queue[0];
      var node := w.nodes[id];
      if node.needed > left {
      } else if node.waker.None? {
        BatchesCompose(Waiters(w.queue[1..], w.nodes - {id}), left - node.needed, room, more);
      } else {
        var w' := Waiters(w.queue[1..], w.nodes[id := WaitNode(0, None)]);
        BatchesCompose(w', left - node.needed, room - 1, more);
        var rest := Serve(w', left - node.needed, room - 1);
        var second := Serve(first.waiters, first.left, more + (room - |first.woken|));
        assert first.woken + second.woken == [node.waker.value] + (rest.woken + second.woken);
      }
    }
  }

  /** Serving without a batch limit: a queue of `n` entries yields at most `n` wakers. */
  function ServeAll(w: Waiters<WaitNode>, left: nat): Served {
    Serve(w, left, |w.queue|)
  }

  lemma {:induction false} RoomToSpare(w: Waiters<WaitNode>, left: nat, room: nat)
    requires room >= |w.queue|
    ensures Serve(w, left, room) == ServeAll(w, left)
    decreases |w.queue|
  {
    if left == 0 || w.queue == [] || w.queue[0] !in w.nodes {
    } else {
      var id := w.queue[0];
      var node := w.nodes[id];
      if node.needed > left {
      } else if node.waker.None? {
        var w' := Waiters(w.queue[1..], w.nodes - {id});
        RoomToSpare(w', left - node.needed, room);
        RoomToSpare(w', left - node.needed, |w.queue|);
      } else {
        RoomToSpare(Waiters(w.queue[1..], w.nodes[id := WaitNode(0, None)]), left - node.needed, room - 1);
      }
    }
  }

  /** A batch followed by everything that is left is everything. */
  lemma BatchThenRest(w: Waiters<WaitNode>, left: nat, room: nat)
    ensures var first := Serve(w, left, room);
            var rest := ServeAll(first.waiters, first.left);
            ServeAll(w, left) == rest.(woken := first.woken + rest.woken)
  {
    var first := Serve(w, left, room);
    BatchesCompose(w, left, room, |w.queue| + |first.waiters.queue|);
    RoomToSpare(w, left, room + |w.queue| + |first.waiters.queue|);
    RoomToSpare(first.waiters, first.left,
                |w.queue| + |first.waiters.queue| + (room - |first.woken|));
  }

  lemma {:induction false} ServeKeeps(w: Waiters<WaitNode>, left: nat, room: nat)
    requires QueueOk(w)
    ensures var r := Serve(w, left, room);
            && QueueOk(r.waiters)
            && r.left <= left
            && (w.queue == [] ==> r.waiters == w)
            && (left > 0 && room > 0 && w.queue != [] ==> r.left < left)
            && (r.left == 0 || r.waiters.queue == [] || |r.woken| == room)
    decreases |w.queue|
  {
    if left == 0 || room == 0 || w.queue == [] {
    } else {
      var id := w.queue[0];
      assert id in w.queue;
      var node := w.nodes[id];
      assert forall k :: k in w.queue[1..] ==> k in w.queue && k != id;
      if node.needed > left {
        assert forall k :: k in w.queue ==> w.Put(id, node.(needed := node.needed - left)).nodes[k].needed > 0;
      } else if node.waker.None? {
        ServeKeeps(Waiters(w.queue[1..], w.nodes - {id}), left - node.needed, room);
      } else {
        ServeKeeps(Waiters(w.queue[1..], w.nodes[id := WaitNode(0, None)]), left - node.needed, room - 1);
      }
    }
  }

  function Min(a: nat, b: nat): nat {
    if a < b then a else b
  }

  /** One turn of the inner loop: the head gets what it needs, or all there is. */
  function ServeHead(w: Waiters<WaitNode>, left: nat): Served
    requires w.queue != [] && w.queue[0] in w.nodes
  {
    var id := w.queue[0];
    var node := w.nodes[id];
    if node.needed > left then Served(w.Put(id, node.(needed := node.needed - left)), 0, [])
    else if node.waker.None? then Served(Waiters(w.queue[1..], w.nodes - {id}), left - node.needed, [])
    else Served(Waiters(w.queue[1..], w.nodes[id := WaitNode(0, None)]), left - node.needed, [node.waker.value])
  }

  function After(woken: seq<nat>, rest: Served): Served {
    rest.(woken := woken + rest.woken)
  }

  lemma AfterAfter(first: seq<nat>, second: seq<nat>, rest: Served)
    ensures After(first, After(second, rest)) == After(first + second, rest)
  {
  }

  lemma ServeStops(w: Waiters<WaitNode>, left: nat, room: nat)
    requires left == 0 || room == 0 || w.queue == []
    ensures Serve(w, left, room) == Served(w, left, [])
  {
  }

  lemma ServeUnfold(w: Waiters<WaitNode>, left: nat, room: nat)
    requires QueueOk(w) && w.queue != [] && left > 0 && room > 0
    ensures w.queue[0] in w.nodes && w.queue[0] !in w.queue[1..]
    ensures var h := ServeHead(w, left);
            && QueueOk(h.waiters) && |h.woken| <= 1 && h.left < left
            && Serve(w, left, room) == After(h.woken, Serve(h.waiters, h.left, room - |h.woken|))
  {
    var id := w.queue[0];
    assert id in w.queue;
    var h := ServeHead(w, left);
    assert forall k :: k in w.queue[1..] ==> k in w.queue && k != id;
    if w.nodes[id].needed > left {
      assert h.waiters.queue == w.queue;
      assert Serve(h.waiters, 0, room) == Served(h.waiters, 0, []);
    }
  }

  class Semaphore {
    var available: nat
    const waiters: WaitList<WaitNode>

    /** Permits are available only while no waiter is linked. */
    ghost predicate Valid()
      reads this, waiters, waiters.nodes
    {
      && waiters.Valid()
      && QueueOk(waiters.Abs())
      && (available > 0 ==> waiters.Abs().queue == [])
    }

    constructor (permits: nat)
      ensures Valid() && available == permits && waiters.Abs() == Waiters([], map[])
      ensures fresh(waiters) && fresh(waiters.nodes)
    {
      available := permits;
      waiters := new WaitList<WaitNode>();
    }

    method ServeFirst(n: nat) returns (left: nat, woken: seq<nat>)
      requires waiters.Valid() && waiters.Abs().queue != []
      requires waiters.Abs().queue[0] in waiters.Abs().nodes
      requires waiters.Abs().queue[0] !in waiters.Abs().queue[1..]
      modifies waiters, waiters.nodes
      ensures waiters.Valid()
      ensures Served(waiters.Abs(), left, woken) == ServeHead(old(waiters.Abs()), n)
    {
      hide WaitLists.WaitList.Valid, WaitLists.WaitList.Abs, WaitQueues.Waiters.Wf;
      var first := waiters.First();
      var node := waiters.Waiter(first.value);
      var r := waiters.UnlinkFirstWaiter(
        (v: WaitNode) => (v.needed <= n, v.(needed := v.needed - Min(v.needed, n))));
      left, woken := n - Min(node.needed, n), [];
      if r.Some? {
        woken := Settle(r.value.0, r.value.1);
      }
    }

    /** Takes a satisfied node's waker, or reclaims it if it was debt. */
    method Settle(id: nat, node: WaitNode) returns (woken: seq<nat>)
      requires waiters.Valid() && id !in waiters.Abs().queue
      requires id in waiters.Abs().nodes && waiters.Abs().nodes[id] == node
      modifies waiters, waiters.nodes
      ensures waiters.Valid()
      ensures woken == if node.waker.Some? then [node.waker.value] else []
      ensures waiters.Abs() == if node.waker.Some? then old(waiters.Abs()).Put(id, node.(waker := None))
                               else old(waiters.Abs()).Remove(id)
    {
      hide WaitLists.WaitList.Valid, WaitLists.WaitList.Abs;
      if node.waker.Some? {
        woken := [node.waker.value];
        waiters.PutWaiter(id, node.(waker := None));
      } else {
        woken := [];
        var _ := waiters.RemoveUnlinkedWaiter(id);
      }
    }

    /** The inner loop: one pass under the lock, up to a full batch of wakers. */
    method ServeBatch(n: nat) returns (left: nat, woken: seq<nat>)
      requires waiters.Valid() && QueueOk(waiters.Abs())
      modifies waiters, waiters.nodes
      ensures waiters.Valid() && QueueOk(waiters.Abs())
      ensures Served(waiters.Abs(), left, woken) == Serve(old(waiters.Abs()), n, BATCH)
    {
      hide WaitLists.WaitList.Valid, WaitLists.WaitList.Abs, QueueOk, Serve;
      ghost var w := waiters.Abs();
      left, woken := n, [];
      var empty := waiters.IsEmpty();
      while left > 0 && |woken| < BATCH && !empty
        invariant waiters.Valid() && QueueOk(waiters.Abs()) && |woken| <= BATCH
        invariant empty <==> waiters.Abs().queue == []
        invariant Serve(w, n, BATCH) == After(woken, Serve(waiters.Abs(), left, BATCH - |woken|))
        decreases left
      {
        ServeUnfold(waiters.Abs(), left, BATCH - |woken|);
        var more: seq<nat>;
        ghost var now, had := waiters.Abs(), left;
        left, more := ServeFirst(left);
        AfterAfter(woken, more, Serve(waiters.Abs(), left, BATCH - |woken| - |more|));
        woken := woken + more;
        empty := waiters.IsEmpty();
      }
      ServeStops(waiters.Abs(), left, BATCH - |woken|);
    }

    /**
     The outer loop, which drops the lock after each batch. Undisturbed, it does what serving the
     whole queue at once would, and makes available only what nobody is waiting for.
     */
    method DistributePermits(n: nat) returns (woken: seq<nat>)
      requires Valid()
      modifies this, waiters, waiters.nodes
      ensures Valid()
      ensures var r := ServeAll(old(waiters.Abs()), n);
              waiters.Abs() == r.waiters && woken == r.woken && available == old(available) + r.left
    {
      hide WaitLists.WaitList.Valid, WaitLists.WaitList.Abs, QueueOk, Serve, ServeAll;
      ghost var all := ServeAll(waiters.Abs(), n);
      var remaining := n;
      woken := [];
      while remaining > 0
        invariant waiters.Valid() && QueueOk(waiters.Abs())
        invariant available > 0 ==> waiters.Abs().queue == []
        invariant var rest := ServeAll(waiters.Abs(), remaining);
                  && rest.waiters == all.waiters
                  && woken + rest.woken == all.woken
                  && available + rest.left == old(available) + all.left
        decreases remaining
      {
        BatchThenRest(waiters.Abs(), remaining, BATCH);
        ServeKeeps(waiters.Abs(), remaining, BATCH);
        var more: seq<nat>;
        remaining, more := ServeBatch(remaining);
        woken := woken + more;
        var empty := waiters.IsEmpty();
        if remaining > 0 && empty {
          ServeEmpty(waiters.Abs(), remaining);
          ServeNothing(waiters.Abs());
          available := available + remaining;
          remaining := 0;
        }
      }
      ServeNothing(waiters.Abs());
    }

    /** The first poll: takes what is there and queues for the rest. */
    method AcquireOrEnqueue(requested: nat, task: nat) returns (id: Option<nat>)
      requires Valid()
      modifies this, waiters, waiters.nodes
      ensures Valid()
      ensures id.None? <==> requested <= old(available)
      ensures id.None? ==> available == old(available) - requested && waiters.Abs() == old(waiters.Abs())
      ensures id.Some? ==>
                && available == 0
                && id.value !in old(waiters.Abs()).nodes
                && waiters.Abs() == old(waiters.Abs()).PushBack(id.value, WaitNode(requested - old(available), Some(task)))
    {
      hide WaitLists.WaitList.Valid, WaitLists.WaitList.Abs, QueueOk;
      if available >= requested {
        available := available - requested;
        return None;
      }
      var needed := requested - available;
      available := 0;
      ghost var w := waiters.Abs();
      var newId := waiters.PushBack(WaitNode(needed, Some(task)));
      PushedOk(w, newId, WaitNode(needed, Some(task)));
      id := Some(newId);
    }

    /** Removes exactly `n` permits; what is missing becomes debt ahead of every waiter. */
    method ReducePermits(n: nat)
      requires Valid()
      modifies this, waiters, waiters.nodes
      ensures Valid()
      ensures n <= old(available) ==> available == old(available) - n && waiters.Abs() == old(waiters.Abs())
      ensures n > old(available) ==>
                && available == 0
                && |waiters.Abs().queue| == |old(waiters.Abs()).queue| + 1
                && waiters.Abs() == old(waiters.Abs()).PushFront(waiters.Abs().queue[0], WaitNode(n - old(available), None))
    {
      hide WaitLists.WaitList.Valid, WaitLists.WaitList.Abs, QueueOk;
      if available >= n {
        available := available - n;
      } else {
        var needed := n - available;
        available := 0;
        ghost var w := waiters.Abs();
        var id := waiters.PushFront(WaitNode(needed, None));
        PushedOk(w, id, WaitNode(needed, None));
      }
    }

    /** A later poll: ready exactly when nothing is missing any more; until then its task is the one to be woken. */
    method PollQueued(id: nat, task: nat) returns (ready: bool)
      requires Valid() && id in waiters.Abs().nodes
      modifies waiters, waiters.nodes
      ensures Valid()
      ensures ready <==> old(waiters.Abs()).nodes[id].needed == 0
      ensures waiters.Abs() == if ready then old(waiters.Abs()).Remove(id)
                               else old(waiters.Abs()).Put(id, old(waiters.Abs()).nodes[id].(waker := Some(task)))
    {
      hide WaitLists.WaitList.Valid, WaitLists.WaitList.Abs;
      var node := waiters.Waiter(id);
      ready := node.needed == 0;
      if ready {
        var _ := waiters.RemoveUnlinkedWaiter(id);
      } else {
        waiters.PutWaiter(id, node.(waker := Some(task)));
      }
    }

    /** Dropping a registered future: its node goes, and all it had been assigned is passed on. */
    method Cancel(id: nat, requested: nat) returns (woken: seq<nat>)
      requires Valid() && id in waiters.Abs().nodes && waiters.Abs().nodes[id].needed <= requested
      modifies this, waiters, waiters.nodes
      ensures Valid()
      ensures var w := old(waiters.Abs());
              var r := ServeAll(Waiters(Without(w.queue, id), w.nodes - {id}), requested - w.nodes[id].needed);
              waiters.Abs() == r.waiters && woken == r.woken && available == old(available) + r.left
    {
      hide WaitLists.WaitList.Valid, WaitLists.WaitList.Abs, QueueOk, Serve, ServeAll, Without;
      CancelledOk(waiters.Abs(), id);
      var node := Unregister(id);
      woken := DistributePermits(requested - node.needed);
    }

    method Unregister(id: nat) returns (node: WaitNode)
      requires waiters.Valid() && id in waiters.Abs().nodes && id !in Without(waiters.Abs().queue, id)
      modifies waiters, waiters.nodes
      ensures waiters.Valid()
      ensures node == old(waiters.Abs()).nodes[id]
      ensures waiters.Abs() == Waiters(Without(old(waiters.Abs()).queue, id), old(waiters.Abs()).nodes - {id})
    {
      hide WaitLists.WaitList.Valid, WaitLists.WaitList.Abs, Without;
      node := waiters.Waiter(id);
      var _ := waiters.UnlinkWaiter(id, (v: WaitNode) => (true, v.(needed := 0)));
      var _ := waiters.RemoveUnlinkedWaiter(id);
    }
  }

  lemma ServeNothing(w: Waiters<WaitNode>)
    ensures ServeAll(w, 0) == Served(w, 0, [])
  {
  }

  lemma ServeEmpty(w: Waiters<WaitNode>, left: nat)
    requires w.queue == []
    ensures ServeAll(w, left) == Served(w, left, [])
  {
  }

  lemma PushedOk(w: Waiters<WaitNode>, id: nat, node: WaitNode)
    requires QueueOk(w) && id !in w.nodes && node.needed > 0
    ensures QueueOk(w.PushBack(id, node)) && QueueOk(w.PushFront(id, node))
  {
  }

  lemma CancelledOk(w: Waiters<WaitNode>, id: nat)
    requires QueueOk(w) && id in w.nodes
    ensures id !in Without(w.queue, id)
    ensures QueueOk(Waiters(Without(w.queue, id), w.nodes - {id}))
    ensures w.queue == [] ==> Without(w.queue, id) == []
  {
    WithoutKeeps(w.queue, id);
  }
}
