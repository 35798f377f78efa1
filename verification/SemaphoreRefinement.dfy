/** The loop over the linked wait list does what the interleaving model takes as one critical section. */
module SemaphoreRefinement {
  import opened Options
  import opened WaitQueues
  import Q = SemaphoreQueues
  import M = Semaphores
  import S = SemaphoreSafety
  import R = SemaphoreRuns

  /** A node and the entry that stands for it. */
  ghost predicate SameNode(node: Q.WaitNode, e: M.Entry, futs: seq<M.Acquire>) {
    match e
    case Debt(owed) => node == Q.WaitNode(owed, None)
    case Waiter(f) =>
      && f < |futs| && futs[f].phase == M.Waiting(node.needed)
      && node.waker.Some? && node.waker == futs[f].watch.waker
  }

  ghost predicate Represents(w: Waiters<Q.WaitNode>, queue: seq<M.Entry>, futs: seq<M.Acquire>) {
    && |w.queue| == |queue|
    && (forall i :: 0 <= i < |queue| ==> w.queue[i] in w.nodes && SameNode(w.nodes[w.queue[i]], queue[i], futs))
  }

  ghost predicate NoRepeats(queue: seq<M.Entry>) {
    forall i, j :: 0 <= i < j < |queue| && queue[i].Waiter? ==> queue[i] != queue[j]
  }

  ghost predicate WokenFor(task: nat, futs: seq<M.Acquire>) {
    exists f :: 0 <= f < |futs| && futs[f].phase == M.Waiting(0) && futs[f].watch.woken == Some(task)
  }

  /** Every task that is woken belongs to a future that has got all it needs. */
  ghost predicate Granted(woken: seq<nat>, futs: seq<M.Acquire>) {
    forall i :: 0 <= i < |woken| ==> WokenFor(woken[i], futs)
  }

  /** Nobody gets the last permit they need without the task in their node being woken. */
  ghost predicate Told(woken: seq<nat>, futs: seq<M.Acquire>, futs': seq<M.Acquire>) {
    && |futs'| == |futs|
    && (forall f :: 0 <= f < |futs| && futs'[f] != futs[f] && futs'[f].phase == M.Waiting(0) ==>
          futs[f].watch.waker.Some? && futs[f].watch.waker.value in woken)
  }

  lemma HeadDrops(w: Waiters<Q.WaitNode>, queue: seq<M.Entry>, futs: seq<M.Acquire>,
                  nodes': map<nat, Q.WaitNode>, futs': seq<M.Acquire>)
    requires w.Wf() && Represents(w, queue, futs) && NoRepeats(queue) && queue != []
    requires |futs'| == |futs|
    requires forall id :: id in w.nodes && id != w.queue[0] ==> id in nodes' && nodes'[id] == w.nodes[id]
    requires forall f :: 0 <= f < |futs| && queue[0] != M.Waiter(f) ==> futs'[f] == futs[f]
    ensures var w' := Waiters(w.queue[1..], nodes');
            w'.Wf() && Represents(w', queue[1..], futs') && NoRepeats(queue[1..])
  {
  }

  lemma {:induction false} PassRefines(w: Waiters<Q.WaitNode>, queue: seq<M.Entry>, futs: seq<M.Acquire>,
                                       left: nat, woken: nat)
    requires w.Wf() && Represents(w, queue, futs) && NoRepeats(queue) && woken <= M.BATCH
    ensures var r := Q.Serve(w, left, M.BATCH - woken);
            var p := M.Distribute(queue, futs, left, woken);
            && r.left == p.left
            && Represents(r.waiters, p.queue, p.futs)
            && Granted(r.woken, p.futs) && Told(r.woken, futs, p.futs)
    decreases |queue|
  {
    hide Represents, NoRepeats, Granted, Told, WaitQueues.Waiters.Wf;
    RepresentsHead(w, queue, futs);
    ToldNothing(futs);
    if left == 0 || woken == M.BATCH || queue == [] {
    } else if w.nodes[w.queue[0]].needed > left {
      PartRefines(w, queue, futs, left);
    } else {
      var id, head := w.queue[0], queue[0];
      var need := w.nodes[id].needed;
      var futs' := M.Give(head, futs, need);
      if head.Debt? {
        HeadDrops(w, queue, futs, w.nodes - {id}, futs');
        PassRefines(Waiters(w.queue[1..], w.nodes - {id}), queue[1..], futs', left - need, woken);
      } else {
        var nodes' := w.nodes[id := Q.WaitNode(0, None)];
        HeadDrops(w, queue, futs, nodes', futs');
        PassRefines(Waiters(w.queue[1..], nodes'), queue[1..], futs', left - need, woken + 1);
        HeadIsAlone(queue);
        HeadWoken(head.f, need, w.nodes[id].waker.value,
                  Q.Serve(Waiters(w.queue[1..], nodes'), left - need, M.BATCH - woken - 1).woken,
                  queue[1..], futs, left - need, woken + 1);
      }
    }
  }

  lemma HeadIsAlone(queue: seq<M.Entry>)
    requires NoRepeats(queue) && queue != [] && queue[0].Waiter?
    ensures queue[0] !in queue[1..]
  {
  }

  lemma RepresentsHead(w: Waiters<Q.WaitNode>, queue: seq<M.Entry>, futs: seq<M.Acquire>)
    requires Represents(w, queue, futs)
    ensures |w.queue| == |queue| && Granted([], futs)
    ensures queue != [] ==> w.queue[0] in w.nodes && SameNode(w.nodes[w.queue[0]], queue[0], futs)
  {
  }

  lemma ToldNothing(futs: seq<M.Acquire>)
    ensures Told([], futs, futs)
  {
  }

  /** The head, served in full, is woken first; the rest as the pass goes on. */
  lemma ToldMore(f: nat, need: nat, task: nat, woken: seq<nat>, futs: seq<M.Acquire>, futs'': seq<M.Acquire>)
    requires need <= M.Need(M.Waiter(f), futs) && Told(woken, M.Give(M.Waiter(f), futs, need), futs'')
    requires f < |futs| && futs[f].watch.waker == Some(task)
    ensures Told([task] + woken, futs, futs'')
  {
    var futs' := M.Give(M.Waiter(f), futs, need);
    forall g | 0 <= g < |futs| && futs''[g] != futs[g] && futs''[g].phase == M.Waiting(0)
      ensures futs[g].watch.waker.Some? && futs[g].watch.waker.value in [task] + woken
    {
      assert g == f || futs'[g] == futs[g];
      assert ([task] + woken)[0] == task;
    }
  }

  lemma HeadWoken(f: nat, need: nat, task: nat, rest: seq<nat>, queue: seq<M.Entry>, futs: seq<M.Acquire>,
                  left: nat, woken: nat)
    requires f < |futs| && futs[f].phase == M.Waiting(need) && futs[f].watch.waker == Some(task)
    requires M.Waiter(f) !in queue
    requires var futs' := M.Give(M.Waiter(f), futs, need);
             var p := M.Distribute(queue, futs', left, woken);
             Granted(rest, p.futs) && Told(rest, futs', p.futs)
    ensures var p := M.Distribute(queue, M.Give(M.Waiter(f), futs, need), left, woken);
            Granted([task] + rest, p.futs) && Told([task] + rest, futs, p.futs)
  {
    hide Granted, Told, M.Distribute;
    var futs' := M.Give(M.Waiter(f), futs, need);
    var p := M.Distribute(queue, futs', left, woken);
    ToldMore(f, need, task, rest, futs, p.futs);
    OutsideStays(queue, futs', left, woken, f);
    GrantedMore(f, task, rest, p.futs);
  }

  lemma GrantedMore(f: nat, task: nat, woken: seq<nat>, futs: seq<M.Acquire>)
    requires Granted(woken, futs) && f < |futs| && futs[f].phase == M.Waiting(0) && futs[f].watch.woken == Some(task)
    ensures Granted([task] + woken, futs)
  {
    var more := [task] + woken;
    forall i | 0 <= i < |more|
      ensures WokenFor(more[i], futs)
    {
      assert i > 0 ==> more[i] == woken[i - 1];
    }
  }

  lemma PartRefines(w: Waiters<Q.WaitNode>, queue: seq<M.Entry>, futs: seq<M.Acquire>, left: nat)
    requires w.Wf() && Represents(w, queue, futs) && NoRepeats(queue) && queue != []
    requires w.nodes[w.queue[0]].needed > left
    ensures M.Need(queue[0], futs) == w.nodes[w.queue[0]].needed
    ensures var node := w.nodes[w.queue[0]];
            Granted([], M.Give(queue[0], futs, left)) && Told([], futs, M.Give(queue[0], futs, left)) &&
            Represents(w.Put(w.queue[0], node.(needed := node.needed - left)),
                       [if queue[0].Debt? then M.Debt(node.needed - left) else queue[0]] + queue[1..],
                       M.Give(queue[0], futs, left))
  {
  }

  /** A future that is not queued is not touched by a pass. */
  lemma {:induction false} OutsideStays(queue: seq<M.Entry>, futs: seq<M.Acquire>, left: nat, woken: nat, f: nat)
    requires f < |futs| && M.Waiter(f) !in queue
    ensures var p := M.Distribute(queue, futs, left, woken); f < |p.futs| && p.futs[f] == futs[f]
    decreases |queue|
  {
    if left == 0 || woken >= M.BATCH || queue == [] {
    } else {
      var need := M.Need(queue[0], futs);
      assert queue[0] != M.Waiter(f);
      if need <= left {
        OutsideStays(queue[1..], M.Give(queue[0], futs, need), left - need,
                     if queue[0].Waiter? then woken + 1 else woken, f);
      }
    }
  }

  // ---- Joining the queue ----

  /** A future that is not queued may change as it likes. */
  lemma NotQueued(w: Waiters<Q.WaitNode>, queue: seq<M.Entry>, futs: seq<M.Acquire>, f: nat, a: M.Acquire)
    requires Represents(w, queue, futs) && f < |futs| && M.Waiter(f) !in queue
    ensures Represents(w, queue, futs[f := a])
  {
    forall i | 0 <= i < |queue|
      ensures w.queue[i] in w.nodes && SameNode(w.nodes[w.queue[i]], queue[i], futs[f := a])
    {
      assert queue[i] in queue && SameNode(w.nodes[w.queue[i]], queue[i], futs);
    }
  }

  lemma PushBackRefines(w: Waiters<Q.WaitNode>, queue: seq<M.Entry>, futs: seq<M.Acquire>, id: nat, f: nat, needed: nat)
    requires Represents(w, queue, futs) && id !in w.nodes && f < |futs| && futs[f].phase == M.Waiting(needed)
    requires futs[f].watch.waker.Some?
    ensures Represents(w.PushBack(id, Q.WaitNode(needed, futs[f].watch.waker)), queue + [M.Waiter(f)], futs)
  {
  }

  lemma PushFrontRefines(w: Waiters<Q.WaitNode>, queue: seq<M.Entry>, futs: seq<M.Acquire>, id: nat, owed: nat)
    requires Represents(w, queue, futs) && id !in w.nodes
    ensures Represents(w.PushFront(id, Q.WaitNode(owed, None)), [M.Debt(owed)] + queue, futs)
  {
  }

  /** Where an acquisition stands once it has been carried through: enough permits, or a place in the queue. */
  lemma Takes(s: M.State, t: nat, who: Option<nat>, n: nat)
    requires t < |s.threads| && s.threads[t] == M.Take(who, n, None, false) && s.lock.None?
    requires who.Some? ==> who.value < |s.futs|
    ensures n <= s.avail ==>
              M.Alone(s, t, 2) == M.Completed(s.(avail := s.avail - n), who, n).(threads := s.threads[t := M.Idle])
    ensures n > s.avail ==>
              M.Alone(s, t, 3) == s.(
                avail := 0, lock := Some(t), threads := s.threads[t := M.Push(who, s.avail, n - s.avail)],
                reduced := if who.Some? then s.reduced else s.reduced + s.avail)
  {
    var s1 := M.Step(s, M.Advance(t, false));
    assert s1 == s.(threads := s.threads[t := M.Take(who, n, Some(s.avail), false)]);
    assert M.Alone(s, t, 0) == s && M.Alone(s, t, 1) == s1;
    if n <= s.avail {
      assert s1.threads[t := M.Idle] == s.threads[t := M.Idle];
    } else {
      var s2 := M.Step(s1, M.Advance(t, false));
      assert s2 == s1.(threads := s1.threads[t := M.Take(who, n, Some(s.avail), true)], lock := Some(t));
      assert M.Alone(s, t, 2) == s2;
    }
  }

  /** The linked list's `AcquireOrEnqueue` is the machine's acquisition, carried through undisturbed. */
  lemma AcquireRefines(w: Waiters<Q.WaitNode>, s: M.State, t: nat, f: nat, n: nat, id: nat)
    requires Represents(w, s.queue, s.futs) && id !in w.nodes
    requires t < |s.threads| && s.threads[t] == M.Take(Some(f), n, None, false) && s.lock.None?
    requires f < |s.futs| && M.Waiter(f) !in s.queue
    ensures n <= s.avail ==>
              var s' := M.Alone(s, t, 2);
              s'.avail == s.avail - n && Represents(w, s'.queue, s'.futs) && f < |s'.futs| && s'.futs[f].phase.Done?
    ensures n > s.avail ==>
              var s' := M.Alone(s, t, 4);
              && s'.avail == 0
              && Represents(w.PushBack(id, Q.WaitNode(n - s.avail, Some(s.futs[f].watch.polled))), s'.queue, s'.futs)
  {
    hide Represents, M.Step;
    Takes(s, t, Some(f), n);
    NotQueued(w, s.queue, s.futs, f, s.futs[f].(phase := M.Done));
    if n > s.avail {
      var s3 := M.Alone(s, t, 3);
      PushStepIs(s3, t);
      var a := M.Acquire(s.futs[f].requested, M.Waiting(n - s.avail), M.Armed(s.futs[f].watch.polled));
      assert M.PushStep(s3, t).futs == s.futs[f := a];
      NotQueued(w, s.queue, s.futs, f, a);
      PushBackRefines(w, s.queue, s.futs[f := a], id, f, n - s.avail);
    }
  }

  /** `ReducePermits` likewise: what is missing is debt in front of everyone. */
  lemma ReduceRefines(w: Waiters<Q.WaitNode>, s: M.State, t: nat, n: nat, id: nat)
    requires Represents(w, s.queue, s.futs) && id !in w.nodes
    requires t < |s.threads| && s.threads[t] == M.Take(None, n, None, false) && s.lock.None?
    ensures n <= s.avail ==>
              var s' := M.Alone(s, t, 2);
              s'.avail == s.avail - n && Represents(w, s'.queue, s'.futs) && s'.reduced == s.reduced + n
    ensures n > s.avail ==>
              var s' := M.Alone(s, t, 4);
              && s'.avail == 0 && s'.reduced == s.reduced + n
              && Represents(w.PushFront(id, Q.WaitNode(n - s.avail, None)), s'.queue, s'.futs)
  {
    hide Represents, M.Step;
    Takes(s, t, None, n);
    if n > s.avail {
      var s3 := M.Alone(s, t, 3);
      PushStepIs(s3, t);
      PushFrontRefines(w, s.queue, s.futs, id, n - s.avail);
    }
  }

  lemma PushStepIs(s: M.State, t: nat)
    requires t < |s.threads| && s.threads[t].Push?
    ensures M.Step(s, M.Advance(t, false)) == M.PushStep(s, t)
  {
  }

  // ---- Polling again ----

  /** A pending poll refreshes the waker in the node, as the machine does. */
  lemma RepollRefines(w: Waiters<Q.WaitNode>, s: M.State, f: nat, i: nat, task: nat)
    requires w.Wf() && Represents(w, s.queue, s.futs) && NoRepeats(s.queue) && s.lock.None?
    requires i < |s.queue| && s.queue[i] == M.Waiter(f) && w.nodes[w.queue[i]].needed > 0
    ensures var s' := M.Step(s, M.PollQueued(f, task));
            Represents(w.Put(w.queue[i], w.nodes[w.queue[i]].(waker := Some(task))), s'.queue, s'.futs)
  {
    var s' := M.Step(s, M.PollQueued(f, task));
    var w' := w.Put(w.queue[i], w.nodes[w.queue[i]].(waker := Some(task)));
    assert SameNode(w.nodes[w.queue[i]], s.queue[i], s.futs);
    forall k | 0 <= k < |s.queue|
      ensures w'.queue[k] in w'.nodes && SameNode(w'.nodes[w'.queue[k]], s'.queue[k], s'.futs)
    {
      assert SameNode(w.nodes[w.queue[k]], s.queue[k], s.futs);
      if k != i {
        assert w.queue[k] != w.queue[i] && s.queue[k] != s.queue[i];
      }
    }
  }

  /** A poll that finds nothing missing removes a node the queue does not know. */
  lemma ReadyRefines(w: Waiters<Q.WaitNode>, s: M.State, f: nat, id: nat, task: nat)
    requires Represents(w, s.queue, s.futs) && s.lock.None? && id !in w.queue
    requires f < |s.futs| && s.futs[f].phase == M.Waiting(0) && M.Waiter(f) !in s.queue
    ensures var s' := M.Step(s, M.PollQueued(f, task));
            s'.futs[f].phase.Done? && Represents(w.Remove(id), s'.queue, s'.futs)
  {
    NotQueued(w, s.queue, s.futs, f, s.futs[f].(phase := M.Done));
    Spared(w, s.queue, s.futs[f := s.futs[f].(phase := M.Done)], id);
  }

  // ---- Leaving it ----

  /** Removing the future's node, linked or not, is removing its entry. */
  lemma UnregisterRefines(w: Waiters<Q.WaitNode>, queue: seq<M.Entry>, futs: seq<M.Acquire>, f: nat, id: nat)
    requires w.Wf() && Represents(w, queue, futs) && NoRepeats(queue) && f < |futs|
    requires if M.Waiter(f) in queue then exists i :: 0 <= i < |queue| && queue[i] == M.Waiter(f) && w.queue[i] == id
             else id !in w.queue
    ensures var w' := Waiters(Without(w.queue, id), w.nodes - {id});
            w'.Wf() && Represents(w', M.RemoveWaiter(queue, f), futs[f := futs[f].(phase := M.Dropped)])
            && NoRepeats(M.RemoveWaiter(queue, f))
  {
    var futs' := futs[f := futs[f].(phase := M.Dropped)];
    WithoutKeeps(w.queue, id);
    if M.Waiter(f) in queue {
      var i :| 0 <= i < |queue| && queue[i] == M.Waiter(f) && w.queue[i] == id;
      R.RemoveWaiterIs(queue, f, i);
      WithoutAt(w.queue, i);
      Cut(w, queue, futs, i, futs');
    } else {
      R.RemoveWaiterAbsent(queue, f);
      WithoutAbsent(w.queue, id);
      NotQueued(w, queue, futs, f, futs'[f]);
      Spared(w, queue, futs', id);
    }
  }

  lemma Spared(w: Waiters<Q.WaitNode>, queue: seq<M.Entry>, futs: seq<M.Acquire>, id: nat)
    requires Represents(w, queue, futs) && id !in w.queue
    ensures Represents(Waiters(w.queue, w.nodes - {id}), queue, futs)
  {
    forall i | 0 <= i < |queue|
      ensures w.queue[i] in w.nodes - {id} && SameNode(w.nodes[w.queue[i]], queue[i], futs)
    {
      assert w.queue[i] in w.queue;
    }
  }

  lemma Cut(w: Waiters<Q.WaitNode>, queue: seq<M.Entry>, futs: seq<M.Acquire>, i: nat, futs': seq<M.Acquire>)
    requires w.Wf() && Represents(w, queue, futs) && NoRepeats(queue) && i < |queue| && queue[i].Waiter?
    requires |futs'| == |futs| && forall g :: 0 <= g < |futs| && queue[i] != M.Waiter(g) ==> futs'[g] == futs[g]
    ensures var ids, entries := w.queue[..i] + w.queue[i + 1..], queue[..i] + queue[i + 1..];
            Represents(Waiters(ids, w.nodes - {w.queue[i]}), entries, futs') && NoRepeats(entries)
  {
    var ids, entries := w.queue[..i] + w.queue[i + 1..], queue[..i] + queue[i + 1..];
    forall k | 0 <= k < |entries|
      ensures ids[k] in w.nodes - {w.queue[i]} && SameNode(w.nodes[ids[k]], entries[k], futs')
    {
      var k' := if k < i then k else k + 1;
      assert entries[k] == queue[k'] && ids[k] == w.queue[k'] && ids[k] != w.queue[i];
      assert entries[k] != queue[i];
      assert SameNode(w.nodes[w.queue[k']], queue[k'], futs);
    }
  }

  /**
   The linked list's `Cancel` is the machine's critical section: the node goes, and if it had been
   assigned anything, one pass hands that on.
   */
  lemma CancelRefines(w: Waiters<Q.WaitNode>, s: M.State, t: nat, f: nat, id: nat)
    requires w.Wf() && Represents(w, s.queue, s.futs) && NoRepeats(s.queue)
    requires t < |s.threads| && f < |s.futs| && s.futs[f].phase.Waiting?
    requires if M.Waiter(f) in s.queue
             then exists i :: 0 <= i < |s.queue| && s.queue[i] == M.Waiter(f) && w.queue[i] == id
             else id !in w.queue
    ensures var got := S.Got(s.futs[f]);
            var r := Q.Serve(Waiters(Without(w.queue, id), w.nodes - {id}), got, M.BATCH);
            var s' := M.CancelStep(s, t, f);
            && Represents(r.waiters, s'.queue, s'.futs) && Granted(r.woken, s'.futs)
            && s'.threads[t] == (if got == 0 then s.threads[t]
                                 else if r.left == 0 then M.Idle
                                 else if s'.queue == [] then M.Surplus(r.left) else M.LockRelease(r.left))
  {
    hide Represents, NoRepeats, Granted, Told, M.Distribute;
    var mid := s.futs[f := s.futs[f].(phase := M.Dropped)];
    var w' := Waiters(Without(w.queue, id), w.nodes - {id});
    UnregisterRefines(w, s.queue, s.futs, f, id);
    PassRefines(w', M.RemoveWaiter(s.queue, f), mid, S.Got(s.futs[f]), 0);
    NothingToServe(w', M.RemoveWaiter(s.queue, f), mid);
  }

  lemma NothingToServe(w: Waiters<Q.WaitNode>, queue: seq<M.Entry>, futs: seq<M.Acquire>)
    ensures Q.Serve(w, 0, M.BATCH) == Q.Served(w, 0, []) && M.Distribute(queue, futs, 0, 0) == M.Pass(queue, futs, 0)
  {
  }
}
