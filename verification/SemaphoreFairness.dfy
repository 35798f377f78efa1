/** Queue order, and why `distribute_permits` comes to an end under any interference. */
module SemaphoreFairness {
  import opened Semaphores
  import opened SemaphoreSafety
  import opened SemaphoreRuns

  // ---- Order within a pass ----

  predicate SameEntry(e: Entry, e': Entry) {
    e == e' || (e.Debt? && e'.Debt?)
  }

  /** `after` is what is left of `before` once its first `k` entries have gone. */
  ghost predicate IsSuffix(before: seq<Entry>, after: seq<Entry>, k: nat) {
    && k <= |before|
    && |after| == |before| - k
    && (forall i :: 0 <= i < |after| ==> SameEntry(after[i], before[k + i]))
  }

  ghost predicate ServedWithin(queue: seq<Entry>, futs: seq<Acquire>, futs': seq<Acquire>, k: nat) {
    && |futs'| == |futs|
    && (forall f :: 0 <= f < |futs| && futs'[f] != futs[f] ==> Waiter(f) in queue[..Min(k + 1, |queue|)])
  }

  ghost predicate ServesPrefix(queue: seq<Entry>, futs: seq<Acquire>, p: Pass, k: nat) {
    IsSuffix(queue, p.queue, k) && ServedWithin(queue, futs, p.futs, k)
  }

  lemma PartServesPrefix(queue: seq<Entry>, futs: seq<Acquire>, left: nat)
    requires queue != [] && left < Need(queue[0], futs)
    ensures ServesPrefix(queue, futs, PartServed(queue, futs, left), 0)
  {
  }

  lemma WholeServesPrefix(queue: seq<Entry>, futs: seq<Acquire>, left: nat, p: Pass, k: nat)
    requires queue != [] && Need(queue[0], futs) <= left
    requires var w := WholeServed(queue, futs, left); ServesPrefix(w.queue, w.futs, p, k)
    ensures ServesPrefix(queue, futs, p, k + 1)
  {
  }

  /** A pass empties a prefix of the queue and gives permits to that prefix and the entry after it. */
  lemma {:induction false} DistributeServesPrefix(queue: seq<Entry>, futs: seq<Acquire>, left: nat, woken: nat)
    returns (k: nat)
    ensures ServesPrefix(queue, futs, Distribute(queue, futs, left, woken), k)
    decreases |queue|
  {
    if left == 0 || woken >= BATCH || queue == [] {
      k := 0;
    } else if Need(queue[0], futs) > left {
      hide ServesPrefix;
      PartServesPrefix(queue, futs, left);
      k := 0;
    } else {
      hide ServesPrefix;
      var w, woken' := WholeServed(queue, futs, left), if queue[0].Waiter? then woken + 1 else woken;
      k := DistributeServesPrefix(w.queue, w.futs, w.left, woken');
      WholeServesPrefix(queue, futs, left, Distribute(w.queue, w.futs, w.left, woken'), k);
      k := k + 1;
    }
  }

  /** Every pass that has to take the lock again has handed out at least a whole batch of permits. */
  lemma {:induction false} PassProgress(queue: seq<Entry>, futs: seq<Acquire>, left: nat, woken: nat)
    requires QueueOk(queue, futs) && woken <= BATCH
    ensures var p := Distribute(queue, futs, left, woken);
            p.left == 0 || p.queue == [] || left >= p.left + (BATCH - woken)
    decreases |queue|
  {
    if left == 0 || woken >= BATCH || queue == [] || Need(queue[0], futs) > left {
    } else {
      hide QueueOk;
      ServeWhole(queue, futs, left);
      var p := WholeServed(queue, futs, left);
      PassProgress(p.queue, p.futs, p.left, if queue[0].Waiter? then woken + 1 else woken);
    }
  }

  /** How often thread `t` comes back for the lock before its distribution is over. */
  function Relocks(s: State, actions: seq<Action>, t: nat): nat
    decreases |actions|
  {
    if actions == [] || t >= |s.threads| || !s.threads[t].LockRelease? then 0
    else
      var s' := Step(s, actions[0]);
      (if actions[0].Advance? && actions[0].t == t && s.lock.None? && s'.threads[t].LockRelease? then 1 else 0)
      + Relocks(s', actions[1..], t)
  }

  /** A step of one thread moves no other thread. */
  lemma AdvanceIsLocal(s: State, u: nat, hint: bool, t: nat)
    requires u < |s.threads| && t < |s.threads| && t != u
    ensures var s' := AdvanceStep(s, u, hint);
            |s'.threads| == |s.threads| && s'.threads[t] == s.threads[t]
  {
    match s.threads[u]
    case Take(_, _, _, _) =>
    case Push(_, _, _) =>
    case TryAcquire(_, _) =>
    case Drain(_, _) =>
    case _ =>
  }

  lemma OthersLeaveIt(s: State, a: Action, t: nat)
    requires t < |s.threads| && s.threads[t].LockRelease?
    requires !(a.Advance? && a.t == t && s.lock.None?)
    ensures t < |Step(s, a).threads| && Step(s, a).threads[t] == s.threads[t]
  {
    if a.Advance? {
      if a.t < |s.threads| && a.t != t {
        AdvanceIsLocal(s, a.t, a.hint, t);
      }
    } else {
      hide AdvanceStep;
    }
  }

  /**
   The number of passes is bounded by the permits to distribute, whatever the other threads do in
   between: neither new waiters nor concurrent releases can prolong the loop.
   */
  lemma {:induction false} DistributionEnds(s: State, initial: nat, actions: seq<Action>, t: nat)
    requires Inv(s, initial) && t < |s.threads| && s.threads[t].LockRelease?
    ensures BATCH * Relocks(s, actions, t) < s.threads[t].n
    decreases |actions|
  {
    Here(s, t);
    if actions == [] {
    } else {
      var a := actions[0];
      StepKeeps(s, initial, a);
      if a.Advance? && a.t == t && s.lock.None? {
        PassProgress(s.queue, s.futs, s.threads[t].n, 0);
      } else {
        OthersLeaveIt(s, a, t);
      }
      if Step(s, a).threads[t].LockRelease? {
        DistributionEnds(Step(s, a), initial, actions[1..], t);
      }
    }
  }

  // ---- Order between futures ----

  ghost predicate Precedes(queue: seq<Entry>, f: nat, g: nat) {
    exists i, j :: 0 <= i < j < |queue| && queue[i] == Waiter(f) && queue[j] == Waiter(g)
  }

  ghost predicate WaitersDistinct(queue: seq<Entry>) {
    forall i, j :: 0 <= i < j < |queue| && queue[i].Waiter? ==> queue[i] != queue[j]
  }

  lemma SuffixKeepsOrder(before: seq<Entry>, after: seq<Entry>, k: nat, f: nat, g: nat)
    requires WaitersDistinct(before) && IsSuffix(before, after, k)
    requires Precedes(before, f, g) && Waiter(f) in after
    ensures Precedes(after, f, g)
  {
    var i, j :| 0 <= i < j < |before| && before[i] == Waiter(f) && before[j] == Waiter(g);
    var i' :| 0 <= i' < |after| && after[i'] == Waiter(f);
    assert SameEntry(after[i'], before[k + i']);
    assert k + i' == i;
    assert SameEntry(after[j - k], before[k + (j - k)]);
    assert after[j - k] == Waiter(g);
  }

  lemma PrecedesAt(queue: seq<Entry>, f: nat, g: nat, i: nat, j: nat)
    requires i < j < |queue| && queue[i] == Waiter(f) && queue[j] == Waiter(g)
    ensures Precedes(queue, f, g)
  {
  }

  /** Taking out one place in the queue changes no order among the others. */
  lemma CutKeepsOrder(queue: seq<Entry>, k: nat, f: nat, g: nat)
    requires k < |queue| && queue[k] != Waiter(f) && queue[k] != Waiter(g) && Precedes(queue, f, g)
    ensures Precedes(queue[..k] + queue[k + 1..], f, g)
  {
    var i, j :| 0 <= i < j < |queue| && queue[i] == Waiter(f) && queue[j] == Waiter(g);
    hide Precedes;
    PrecedesAt(queue[..k] + queue[k + 1..], f, g, if i < k then i else i - 1, if j < k then j else j - 1);
  }

  lemma CutAddsNoOrder(queue: seq<Entry>, k: nat, f: nat, g: nat)
    requires k < |queue| && Precedes(queue[..k] + queue[k + 1..], f, g)
    ensures Precedes(queue, f, g)
  {
  }

  lemma RemovalKeepsOrder(queue: seq<Entry>, f: nat, g: nat, h: nat)
    requires WaitersDistinct(queue) && Precedes(queue, f, g) && h != f && h != g
    ensures Precedes(RemoveWaiter(queue, h), f, g)
  {
    hide RemoveWaiter, Precedes;
    if Waiter(h) in queue {
      var k :| 0 <= k < |queue| && queue[k] == Waiter(h);
      RemoveWaiterIs(queue, h, k);
      CutKeepsOrder(queue, k, f, g);
    } else {
      RemoveWaiterAbsent(queue, h);
    }
  }

  lemma RemovalAddsNoOrder(queue: seq<Entry>, f: nat, g: nat, h: nat)
    requires WaitersDistinct(queue) && Precedes(RemoveWaiter(queue, h), f, g)
    ensures Precedes(queue, f, g)
  {
    hide RemoveWaiter, Precedes;
    if Waiter(h) in queue {
      var k :| 0 <= k < |queue| && queue[k] == Waiter(h);
      RemoveWaiterIs(queue, h, k);
      CutAddsNoOrder(queue, k, f, g);
    } else {
      RemoveWaiterAbsent(queue, h);
    }
  }

  /** Whoever got permits in this step was not behind `f`, and nobody drew any directly. */
  ghost predicate ServedBefore(s: State, s': State, f: nat) {
    && |s.futs| <= |s'.futs|
    && s'.drawn == s.drawn
    && (forall g :: 0 <= g < |s.futs| && Got(s'.futs[g]) > Got(s.futs[g]) ==>
          g == f || Precedes(s.queue, g, f))
  }

  /** Whoever was behind `f` still is, unless it was cancelled. */
  ghost predicate OrderKept(s: State, s': State, f: nat) {
    forall g :: 0 <= g < |s.futs| && Precedes(s.queue, f, g) ==>
      Precedes(s'.queue, f, g) || (g < |s'.futs| && s'.futs[g].phase.Dropped?)
  }

  ghost predicate Fair(s: State, s': State, f: nat) {
    Waiter(f) in s.queue && Waiter(f) in s'.queue ==> ServedBefore(s, s', f) && OrderKept(s, s', f)
  }

  lemma ServedEntry(s: State, p: Pass, k: nat, f: nat, g: nat)
    requires QueueOk(s.queue, s.futs) && ServesPrefix(s.queue, s.futs, p, k)
    requires Waiter(f) in p.queue && g < |s.futs| && p.futs[g] != s.futs[g]
    ensures g == f || Precedes(s.queue, g, f)
  {
  }

  lemma DistributingIsFair(s: State, t: nat, n: nat, f: nat)
    requires QueueOk(s.queue, s.futs) && t < |s.threads| && Waiter(f) in s.queue
    requires Waiter(f) in Distributing(s, t, n).queue
    ensures ServedBefore(s, Distributing(s, t, n), f)
    ensures forall g :: Precedes(s.queue, f, g) ==> Precedes(Distributing(s, t, n).queue, f, g)
  {
    var p := Distribute(s.queue, s.futs, n, 0);
    var k := DistributeServesPrefix(s.queue, s.futs, n, 0);
    forall g | 0 <= g < |s.futs| && Got(p.futs[g]) > Got(s.futs[g])
      ensures g == f || Precedes(s.queue, g, f)
    {
      ServedEntry(s, p, k, f, g);
    }
    forall g: nat | Precedes(s.queue, f, g)
      ensures Precedes(p.queue, f, g)
    {
      SuffixKeepsOrder(s.queue, p.queue, k, f, g);
    }
  }

  lemma DistributingAddsNone(s: State, t: nat, n: nat, f: nat)
    requires t < |s.threads| && Waiter(f) in Distributing(s, t, n).queue
    ensures Waiter(f) in s.queue
  {
    var p := Distribute(s.queue, s.futs, n, 0);
    var k := DistributeServesPrefix(s.queue, s.futs, n, 0);
    var i :| 0 <= i < |p.queue| && p.queue[i] == Waiter(f);
    assert SameEntry(p.queue[i], s.queue[k + i]);
  }

  lemma DistinctWaiters(queue: seq<Entry>, futs: seq<Acquire>)
    requires QueueOk(queue, futs)
    ensures WaitersDistinct(queue)
  {
  }

  lemma {:induction false} RemovalShrinks(queue: seq<Entry>, f: nat, h: nat)
    ensures Waiter(f) in RemoveWaiter(queue, h) ==> Waiter(f) in queue
  {
    if queue != [] {
      RemovalShrinks(queue[1..], f, h);
    }
  }

  lemma UnregisterIsFair(s: State, h: nat, f: nat)
    requires QueueOk(s.queue, s.futs) && h < |s.futs| && s.futs[h].phase.Waiting?
    requires Waiter(f) in Unregistered(s, h).queue
    ensures var s' := Unregistered(s, h);
            && QueueOk(s'.queue, s'.futs) && |s'.futs| == |s.futs| && s'.drawn == s.drawn
            && Waiter(f) in s.queue
            && (forall g :: 0 <= g < |s.futs| ==> Got(s'.futs[g]) <= Got(s.futs[g]))
            && (forall g :: Precedes(s'.queue, g, f) ==> Precedes(s.queue, g, f))
            && (forall g :: 0 <= g < |s.futs| && Precedes(s.queue, f, g) ==> Precedes(s'.queue, f, g) || g == h)
  {
    DistinctWaiters(s.queue, s.futs);
    hide QueueOk, RemoveWaiter, Precedes, WaitersDistinct;
    var s' := Unregistered(s, h);
    Unqueue(s.queue, s.futs, h);
    RemovalShrinks(s.queue, f, h);
    forall g: nat | Precedes(s'.queue, g, f)
      ensures Precedes(s.queue, g, f)
    {
      RemovalAddsNoOrder(s.queue, g, f, h);
    }
    forall g | 0 <= g < |s.futs| && Precedes(s.queue, f, g) && g != h
      ensures Precedes(s'.queue, f, g)
    {
      RemovalKeepsOrder(s.queue, f, g, h);
    }
  }

  lemma CancelIsFair(s: State, t: nat, h: nat, f: nat)
    requires QueueOk(s.queue, s.futs) && t < |s.threads| && h < |s.futs| && s.futs[h].phase.Waiting?
    ensures Fair(s, CancelStep(s, t, h), f)
  {
    FutHere(s.queue, s.futs, h);
    hide QueueOk, Distributing, RemoveWaiter, Precedes;
    var s' := CancelStep(s, t, h);
    if Waiter(f) in s'.queue {
      if Got(s.futs[h]) == 0 {
        UnregisterIsFair(s, h, f);
      } else {
        CancelHandsOnFairly(s, t, h, Got(s.futs[h]), f);
      }
    }
  }

  lemma CancelHandsOnFairly(s: State, t: nat, h: nat, n: nat, f: nat)
    requires QueueOk(s.queue, s.futs) && t < |s.threads| && h < |s.futs| && s.futs[h].phase.Waiting?
    requires Waiter(f) in Distributing(Unregistered(s, h), t, n).queue
    ensures Fair(s, Distributing(Unregistered(s, h), t, n), f)
  {
    var mid := Unregistered(s, h);
    DistributingAddsNone(mid, t, n, f);
    UnregisterIsFair(s, h, f);
    DistributingIsFair(mid, t, n, f);
    DistributeSparesDropped(mid.queue, mid.futs, n, h);
  }

  lemma DistributeSparesDropped(queue: seq<Entry>, futs: seq<Acquire>, n: nat, h: nat)
    requires QueueOk(queue, futs) && h < |futs| && futs[h].phase.Dropped?
    ensures var p := Distribute(queue, futs, n, 0); |p.futs| == |futs| && p.futs[h].phase.Dropped?
  {
    DistributeShape(queue, futs, n, 0);
    assert OnlyServed(futs[h], Distribute(queue, futs, n, 0).futs[h]);
  }

  /** A step that neither hands out permits nor takes an entry from the queue. */
  lemma AppendIsFair(s: State, s': State, f: nat)
    requires |s.futs| <= |s'.futs| && s'.drawn == s.drawn
    requires forall g :: 0 <= g < |s.futs| ==> Got(s'.futs[g]) <= Got(s.futs[g])
    requires exists front, back :: s'.queue == front + s.queue + back
    ensures Fair(s, s', f)
  {
    var front, back :| s'.queue == front + s.queue + back;
    forall g | 0 <= g < |s.futs| && Precedes(s.queue, f, g)
      ensures Precedes(s'.queue, f, g)
    {
      var i, j :| 0 <= i < j < |s.queue| && s.queue[i] == Waiter(f) && s.queue[j] == Waiter(g);
      assert s'.queue[|front| + i] == Waiter(f) && s'.queue[|front| + j] == Waiter(g);
    }
  }

  lemma DirectIsFair(s: State, initial: nat, t: nat, hint: bool, f: nat)
    requires Inv(s, initial) && t < |s.threads| && (s.threads[t].TryAcquire? || s.threads[t].Drain?)
    ensures Fair(s, DirectStep(s, t, hint), f)
  {
    hide QueueOk, ThreadsOk;
    var s' := DirectStep(s, t, hint);
    if Waiter(f) in s.queue {
      assert s'.queue == [] + s.queue + [];
      AppendIsFair(s, s', f);
    }
  }

  lemma TakeIsFair(s: State, initial: nat, t: nat, f: nat)
    requires Inv(s, initial) && t < |s.threads| && s.threads[t].Take?
    ensures Fair(s, TakeStep(s, t), f)
  {
    hide QueueOk, ThreadsOk;
    Here(s, t);
    var s' := TakeStep(s, t);
    if Waiter(f) in s.queue {
      assert s'.queue == [] + s.queue + [];
      AppendIsFair(s, s', f);
    }
  }

  /** A newcomer joins behind everyone; its own first share was taken before anyone was queued. */
  lemma PushIsFair(s: State, initial: nat, t: nat, f: nat)
    requires Inv(s, initial) && t < |s.threads| && s.threads[t].Push?
    ensures Fair(s, PushStep(s, t), f)
  {
    hide QueueOk, ThreadsOk;
    Here(s, t);
    var s' := PushStep(s, t);
    var pc := s.threads[t];
    if Waiter(f) in s.queue {
      assert s'.queue == if pc.who.Some? then [] + s.queue + [Waiter(pc.who.value)] else [Debt(pc.needed)] + s.queue + [];
      AppendIsFair(s, s', f);
    }
  }

  lemma ReleaseIsFair(s: State, initial: nat, t: nat, hint: bool, f: nat)
    requires Inv(s, initial) && t < |s.threads|
    ensures Fair(s, ReleaseStep(s, t, hint), f)
  {
    hide QueueOk, ThreadsOk, Distributing, Precedes;
    var s' := ReleaseStep(s, t, hint);
    if s.threads[t].LockRelease? && s.lock.None? {
      if Waiter(f) in s.queue && Waiter(f) in s'.queue {
        DistributingIsFair(s, t, s.threads[t].n, f);
      }
    } else {
      assert s'.queue == [] + s.queue + [];
      AppendIsFair(s, s', f);
    }
  }

  lemma AdvanceIsFair(s: State, initial: nat, t: nat, hint: bool, f: nat)
    requires Inv(s, initial) && t < |s.threads|
    ensures Fair(s, AdvanceStep(s, t, hint), f)
  {
    match s.threads[t]
    case Take(_, _, _, _) => TakeIsFair(s, initial, t, f);
    case Push(_, _, _) => PushIsFair(s, initial, t, f);
    case TryAcquire(_, _) => DirectIsFair(s, initial, t, hint, f);
    case Drain(_, _) => DirectIsFair(s, initial, t, hint, f);
    case _ => ReleaseIsFair(s, initial, t, hint, f);
  }

  /** No step lets a permit pass a future that stays in the queue. */
  lemma StepIsFair(s: State, initial: nat, a: Action, f: nat)
    requires Inv(s, initial)
    ensures Fair(s, Step(s, a), f)
  {
    hide QueueOk, ThreadsOk, AdvanceStep, CancelStep;
    var s' := Step(s, a);
    if a.Advance? && a.t < |s.threads| {
      AdvanceIsFair(s, initial, a.t, a.hint, f);
    } else if a.Cancel? && a.f < |s.futs| && s.futs[a.f].phase.Waiting? && s' != s {
      CancelIsFair(s, a.t, a.f, f);
    } else {
      assert s'.queue == [] + s.queue + [];
      AppendIsFair(s, s', f);
    }
  }

  // ---- The life of a future ----

  /** A future only ever moves forward, and what it still needs only shrinks. */
  ghost predicate Forward(a: Acquire, a': Acquire) {
    && a'.requested == a.requested
    && match a.phase
       case Fresh => true
       case Polling => !a'.phase.Fresh? && !a'.phase.Dropped?
       case Waiting(needed) =>
         || (a'.phase.Waiting? && a'.phase.needed <= needed)
         || (a'.phase.Done? && needed == 0)
         || a'.phase.Dropped?
       case Done => a'.phase.Done? || a'.phase.Dropped?
       case Dropped => a'.phase.Dropped?
  }

  lemma DistributeForward(queue: seq<Entry>, futs: seq<Acquire>, n: nat, f: nat)
    requires QueueOk(queue, futs) && f < |futs|
    ensures var p := Distribute(queue, futs, n, 0); |p.futs| == |futs| && Forward(futs[f], p.futs[f])
  {
    DistributeShape(queue, futs, n, 0);
    assert OnlyServed(futs[f], Distribute(queue, futs, n, 0).futs[f]);
  }

  lemma AdvanceForward(s: State, initial: nat, t: nat, hint: bool, f: nat)
    requires Inv(s, initial) && t < |s.threads| && f < |s.futs|
    ensures var s' := AdvanceStep(s, t, hint); |s'.futs| == |s.futs| && Forward(s.futs[f], s'.futs[f])
  {
    Here(s, t);
    match s.threads[t]
    case LockRelease(n) => DistributeForward(s.queue, s.futs, n, f);
    case Take(_, _, _, _) => hide QueueOk, ThreadsOk;
    case Push(_, _, _) => hide QueueOk, ThreadsOk;
    case _ => hide QueueOk, ThreadsOk;
  }

  lemma CancelForward(s: State, t: nat, h: nat, f: nat)
    requires QueueOk(s.queue, s.futs) && t < |s.threads| && f < |s.futs|
    requires h < |s.futs| && s.futs[h].phase.Waiting?
    ensures var s' := CancelStep(s, t, h); |s'.futs| == |s.futs| && Forward(s.futs[f], s'.futs[f])
  {
    Unqueue(s.queue, s.futs, h);
    hide QueueOk, Distribute;
    var mid := Unregistered(s, h);
    DistributeForward(mid.queue, mid.futs, Got(s.futs[h]), f);
  }

  lemma StepForward(s: State, initial: nat, a: Action, f: nat)
    requires Inv(s, initial) && f < |s.futs|
    ensures var s' := Step(s, a); |s.futs| <= |s'.futs| && Forward(s.futs[f], s'.futs[f])
  {
    if a.Advance? && a.t < |s.threads| {
      AdvanceForward(s, initial, a.t, a.hint, f);
    } else if a.Cancel? && a.f < |s.futs| && s.futs[a.f].phase.Waiting? && Step(s, a) != s {
      CancelForward(s, a.t, a.f, f);
    } else {
      hide QueueOk, ThreadsOk, AdvanceStep, CancelStep;
    }
  }

  predicate Registered(s: State, f: nat) {
    f < |s.futs| && !s.futs[f].phase.Fresh? && !s.futs[f].phase.Polling?
  }

  /** A future that has left the queue never comes back. */
  lemma StepKeepsOut(s: State, initial: nat, a: Action, f: nat)
    requires Inv(s, initial) && Registered(s, f)
    ensures Registered(Step(s, a), f)
    ensures Waiter(f) in Step(s, a).queue ==> Waiter(f) in s.queue
  {
    var s' := Step(s, a);
    StepKeeps(s, initial, a);
    StepForward(s, initial, a, f);
    hide Step;
    if Waiter(f) in s'.queue {
      QueuedNeeds(s'.queue, s'.futs, f);
    }
  }

  lemma QueuedNeeds(queue: seq<Entry>, futs: seq<Acquire>, f: nat)
    requires QueueOk(queue, futs) && Waiter(f) in queue
    ensures f < |futs| && futs[f].phase.Waiting? && futs[f].phase.needed > 0
  {
  }

  /**
   First come, first served, over whole runs: while `f` waits, a future queued behind it holds no
   permit at all, and is either still behind it or cancelled.
   */
  lemma {:induction false} FirstComeFirstServed(s: State, initial: nat, actions: seq<Action>, f: nat, g: nat)
    requires Inv(s, initial) && g < |s.futs| && Registered(s, f)
    requires Precedes(s.queue, f, g) || s.futs[g].phase.Dropped?
    requires Waiter(f) in Run(s, actions).queue
    ensures var s' := Run(s, actions);
            && g < |s'.futs| && Got(s'.futs[g]) == 0
            && (Precedes(s'.queue, f, g) || s'.futs[g].phase.Dropped?)
    decreases |actions|
  {
    if actions == [] {
      if !s.futs[g].phase.Dropped? {
        BehindIsUntouched(s, f, g);
      }
    } else {
      var s' := Step(s, actions[0]);
      StepKeeps(s, initial, actions[0]);
      StepKeepsOut(s, initial, actions[0], f);
      StepIsFair(s, initial, actions[0], f);
      OutForGood(s', initial, actions[1..], f);
      StepForward(s, initial, actions[0], g);
      hide Step, QueueOk, ThreadsOk;
      FirstComeFirstServed(s', initial, actions[1..], f, g);
    }
  }

  lemma BehindIsUntouched(s: State, f: nat, g: nat)
    requires QueueOk(s.queue, s.futs) && Precedes(s.queue, f, g)
    ensures g < |s.futs| && s.futs[g].phase == Waiting(s.futs[g].requested)
  {
  }

  lemma {:induction false} OutForGood(s: State, initial: nat, actions: seq<Action>, f: nat)
    requires Inv(s, initial) && Registered(s, f) && Waiter(f) in Run(s, actions).queue
    ensures Waiter(f) in s.queue
    decreases |actions|
  {
    if actions != [] {
      StepKeeps(s, initial, actions[0]);
      StepKeepsOut(s, initial, actions[0], f);
      OutForGood(Step(s, actions[0]), initial, actions[1..], f);
    }
  }

  /** In every run: as long as an acquire is queued, nobody who was behind it gets a permit. */
  lemma NoOvertaking(permits: nat, before: seq<Action>, after: seq<Action>, f: nat, g: nat)
    requires permits <= MAX
    ensures var s := Run(Init(permits), before);
            var s' := Run(s, after);
            Precedes(s.queue, f, g) && Waiter(f) in s'.queue ==>
              && g < |s'.futs| && Got(s'.futs[g]) == 0
              && (Precedes(s'.queue, f, g) || s'.futs[g].phase.Dropped?)
  {
    hide Run, Init;
    Reachable(permits, before);
    var s := Run(Init(permits), before);
    if Precedes(s.queue, f, g) && Waiter(f) in Run(s, after).queue {
      BothQueued(s, f, g);
      hide Inv;
      FirstComeFirstServed(s, permits, after, f, g);
    }
  }

  lemma BothQueued(s: State, f: nat, g: nat)
    requires QueueOk(s.queue, s.futs) && Precedes(s.queue, f, g)
    ensures g < |s.futs| && Registered(s, f)
  {
    var i, j :| 0 <= i < j < |s.queue| && s.queue[i] == Waiter(f) && s.queue[j] == Waiter(g);
    assert EntryOk(s.queue[i], s.futs) && EntryOk(s.queue[j], s.futs);
  }

  // ---- Newcomers ----

  /** Nobody has got in front of `f`. */
  ghost predicate NobodyPassed(queue: seq<Entry>, queue': seq<Entry>, f: nat) {
    forall g :: Precedes(queue', g, f) ==> Precedes(queue, g, f)
  }

  lemma SuffixPassesNobody(queue: seq<Entry>, queue': seq<Entry>, k: nat, f: nat)
    requires IsSuffix(queue, queue', k)
    ensures NobodyPassed(queue, queue', f)
  {
    forall g: nat | Precedes(queue', g, f)
      ensures Precedes(queue, g, f)
    {
      var i, j :| 0 <= i < j < |queue'| && queue'[i] == Waiter(g) && queue'[j] == Waiter(f);
      assert SameEntry(queue'[i], queue[k + i]) && SameEntry(queue'[j], queue[k + j]);
      PrecedesAt(queue, g, f, k + i, k + j);
    }
  }

  lemma DebtPassesNobody(queue: seq<Entry>, owed: nat, f: nat)
    ensures NobodyPassed(queue, [Debt(owed)] + queue, f)
  {
    var queue' := [Debt(owed)] + queue;
    forall g: nat | Precedes(queue', g, f)
      ensures Precedes(queue, g, f)
    {
      var i, j :| 0 <= i < j < |queue'| && queue'[i] == Waiter(g) && queue'[j] == Waiter(f);
      PrecedesAt(queue, g, f, i - 1, j - 1);
    }
  }

  lemma NewcomerPassesNobody(queue: seq<Entry>, x: nat, f: nat)
    requires x != f
    ensures NobodyPassed(queue, queue + [Waiter(x)], f)
  {
    var queue' := queue + [Waiter(x)];
    forall g: nat | Precedes(queue', g, f)
      ensures Precedes(queue, g, f)
    {
      var i, j :| 0 <= i < j < |queue'| && queue'[i] == Waiter(g) && queue'[j] == Waiter(f);
      PrecedesAt(queue, g, f, i, j);
    }
  }

  lemma PushPassesNobody(s: State, initial: nat, t: nat, f: nat)
    requires Inv(s, initial) && t < |s.threads| && s.threads[t].Push? && Waiter(f) in s.queue
    ensures NobodyPassed(s.queue, PushStep(s, t).queue, f)
  {
    Here(s, t);
    QueuedNeeds(s.queue, s.futs, f);
    hide QueueOk, ThreadsOk, NobodyPassed;
    var pc := s.threads[t];
    if pc.who.Some? && pc.who.value < |s.futs| {
      NewcomerPassesNobody(s.queue, pc.who.value, f);
    } else {
      DebtPassesNobody(s.queue, pc.needed, f);
    }
  }

  lemma DistributingPassesNobody(s: State, t: nat, n: nat, f: nat)
    requires t < |s.threads|
    ensures NobodyPassed(s.queue, Distributing(s, t, n).queue, f)
  {
    var k := DistributeServesPrefix(s.queue, s.futs, n, 0);
    SuffixPassesNobody(s.queue, Distribute(s.queue, s.futs, n, 0).queue, k, f);
  }

  lemma CancelPassesNobody(s: State, t: nat, h: nat, f: nat)
    requires QueueOk(s.queue, s.futs) && t < |s.threads| && h < |s.futs| && s.futs[h].phase.Waiting?
    requires Waiter(f) in CancelStep(s, t, h).queue
    ensures NobodyPassed(s.queue, CancelStep(s, t, h).queue, f)
  {
    FutHere(s.queue, s.futs, h);
    hide QueueOk, Distributing, RemoveWaiter, Precedes;
    var mid := Unregistered(s, h);
    if Got(s.futs[h]) > 0 {
      DistributingAddsNone(mid, t, Got(s.futs[h]), f);
      DistributingPassesNobody(mid, t, Got(s.futs[h]), f);
    }
    UnregisterIsFair(s, h, f);
  }

  /** Only a newcomer, a pass or a cancellation changes the queue. */
  lemma OthersLeaveQueue(s: State, a: Action)
    requires a.Advance? && a.t < |s.threads| ==> !s.threads[a.t].Push? && !(s.threads[a.t].LockRelease? && s.lock.None?)
    requires a.Cancel? && a.f < |s.futs| && s.futs[a.f].phase.Waiting? ==> Step(s, a) == s
    ensures Step(s, a).queue == s.queue
  {
    hide CancelStep, PushStep, Distributing;
  }

  lemma StayingPassesNobody(queue: seq<Entry>, f: nat)
    ensures NobodyPassed(queue, queue, f)
  {
  }

  lemma StepPassesNobody(s: State, initial: nat, a: Action, f: nat)
    requires Inv(s, initial) && Waiter(f) in s.queue && Waiter(f) in Step(s, a).queue
    ensures NobodyPassed(s.queue, Step(s, a).queue, f)
  {
    hide QueueOk, ThreadsOk, CancelStep, PushStep, Distributing, NobodyPassed;
    if a.Advance? && a.t < |s.threads| && s.threads[a.t].Push? {
      PushPassesNobody(s, initial, a.t, f);
    } else if a.Advance? && a.t < |s.threads| && s.threads[a.t].LockRelease? && s.lock.None? {
      DistributingPassesNobody(s, a.t, s.threads[a.t].n, f);
    } else if a.Cancel? && a.f < |s.futs| && s.futs[a.f].phase.Waiting? && Step(s, a) != s {
      CancelPassesNobody(s, a.t, a.f, f);
    } else {
      OthersLeaveQueue(s, a);
      StayingPassesNobody(s.queue, f);
    }
  }

  /** What a future has got, counting one that does not exist yet. */
  function GotSoFar(s: State, g: nat): nat {
    if g < |s.futs| then Got(s.futs[g]) else 0
  }

  /** Nothing was drawn directly, and only `f` and those ahead of it have gained. */
  ghost predicate OnlyAheadGained(s: State, s': State, f: nat) {
    && s'.drawn == s.drawn
    && forall g :: GotSoFar(s', g) > GotSoFar(s, g) ==> g == f || Precedes(s.queue, g, f)
  }

  lemma StepGains(s: State, initial: nat, a: Action, f: nat)
    requires Inv(s, initial) && Waiter(f) in s.queue && Waiter(f) in Step(s, a).queue
    ensures OnlyAheadGained(s, Step(s, a), f)
  {
    StepIsFair(s, initial, a, f);
    NewcomersHaveNothing(s, a);
    hide Step, QueueOk, ThreadsOk, Precedes;
  }

  lemma AdvanceAddsNobody(s: State, t: nat, hint: bool)
    requires t < |s.threads|
    ensures |AdvanceStep(s, t, hint).futs| == |s.futs|
  {
    hide Distribute;
    if s.threads[t].LockRelease? {
      var _ := DistributeServesPrefix(s.queue, s.futs, s.threads[t].n, 0);
    }
  }

  lemma NewcomersHaveNothing(s: State, a: Action)
    ensures forall g :: |s.futs| <= g < |Step(s, a).futs| ==> Got(Step(s, a).futs[g]) == 0
  {
    hide Distribute, AdvanceStep;
    if a.Advance? && a.t < |s.threads| {
      AdvanceAddsNobody(s, a.t, a.hint);
    } else if a.Cancel? && a.f < |s.futs| && s.futs[a.f].phase.Waiting? {
      var mid := Unregistered(s, a.f);
      var _ := DistributeServesPrefix(mid.queue, mid.futs, Got(s.futs[a.f]), 0);
    }
  }

  lemma GainsCompose(s: State, mid: State, s': State, f: nat)
    requires OnlyAheadGained(s, mid, f) && OnlyAheadGained(mid, s', f) && NobodyPassed(s.queue, mid.queue, f)
    ensures OnlyAheadGained(s, s', f)
  {
    hide Precedes;
  }

  /**
   While an acquire stays queued, over any number of steps, nobody barges in: no permit is drawn
   directly, and no request gains one unless it was ahead in the queue - not one that queued behind, not
   one that was polled later, and not one that did not exist yet.
   */
  lemma {:induction false} NobodyBarges(s: State, initial: nat, actions: seq<Action>, f: nat)
    requires Inv(s, initial) && Registered(s, f) && Waiter(f) in Run(s, actions).queue
    ensures OnlyAheadGained(s, Run(s, actions), f)
    decreases |actions|
  {
    OutForGood(s, initial, actions, f);
    hide Step, QueueOk, ThreadsOk, OnlyAheadGained, NobodyPassed;
    if actions == [] {
      assert OnlyAheadGained(s, s, f) by { GainsNothing(s, f); }
    } else {
      var mid := Step(s, actions[0]);
      StepKeeps(s, initial, actions[0]);
      StepKeepsOut(s, initial, actions[0], f);
      OutForGood(mid, initial, actions[1..], f);
      StepGains(s, initial, actions[0], f);
      StepPassesNobody(s, initial, actions[0], f);
      NobodyBarges(mid, initial, actions[1..], f);
      GainsCompose(s, mid, Run(s, actions), f);
    }
  }

  lemma GainsNothing(s: State, f: nat)
    ensures OnlyAheadGained(s, s, f)
  {
  }

  /** The same, for every run from a new semaphore. */
  lemma Fairness(permits: nat, before: seq<Action>, after: seq<Action>, f: nat)
    requires permits <= MAX
    ensures var s := Run(Init(permits), before);
            var s' := Run(s, after);
            Waiter(f) in s.queue && Waiter(f) in s'.queue ==> OnlyAheadGained(s, s', f)
  {
    hide Run, Init, OnlyAheadGained;
    Reachable(permits, before);
    var s := Run(Init(permits), before);
    if Waiter(f) in s.queue && Waiter(f) in Run(s, after).queue {
      QueuedNeeds(s.queue, s.futs, f);
      hide Inv;
      NobodyBarges(s, permits, after, f);
    }
  }
}
