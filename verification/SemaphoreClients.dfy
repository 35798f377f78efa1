/** The semaphore under clients that never reduce it and release only what they hold. */
module SemaphoreClients {
  import opened Semaphores
  import opened SemaphoreSafety
  import opened SemaphoreRuns
  import opened SemaphoreFairness

  /** No debt, and no thread that could overflow the count. */
  predicate PcClosed(pc: Pc, initial: nat) {
    match pc
    case Take(who, _, _, _) => who.Some?
    case Push(who, _, _) => who.Some?
    case FastRelease(n, expected) => expected + n <= initial
    case SurplusCas(n, expected) => expected + n <= initial
    case Panicked => false
    case _ => true
  }

  ghost predicate Closed(s: State, initial: nat) {
    && s.reduced == 0 && s.forfeited == 0
    && s.released <= s.drawn + s.kept
    && (forall i :: 0 <= i < |s.queue| ==> s.queue[i].Waiter?)
    && (forall t :: 0 <= t < |s.threads| ==> PcClosed(s.threads[t], initial))
  }

  ghost predicate SemOk(s: State, initial: nat) {
    initial <= MAX && Inv(s, initial) && Closed(s, initial)
  }

  lemma {:induction false} CarriedCounts(threads: seq<Pc>, t: nat)
    requires t < |threads|
    ensures Carried(threads[t]) <= InFlight(threads)
  {
    var n := |threads| - 1;
    if t < n {
      CarriedCounts(threads[..n], t);
    }
  }

  lemma {:induction false} NothingOwed(queue: seq<Entry>)
    requires forall i :: 0 <= i < |queue| ==> queue[i].Waiter?
    ensures Owed(queue) == 0
  {
    if queue != [] {
      NothingOwed(queue[1..]);
    }
  }

  /** A thread about to add its permits cannot exceed the semaphore's size. */
  lemma RoomForRelease(s: State, initial: nat, t: nat)
    requires SemOk(s, initial) && t < |s.threads|
    ensures s.avail + Carried(s.threads[t]) <= initial
  {
    NothingOwed(s.queue);
    CarriedCounts(s.threads, t);
  }

  /** The steps a semaphore takes on its own: polling registered futures and finishing operations. */
  predicate Internal(s: State, a: Action) {
    match a
    case Spawn => true
    case BeginPoll(_, _, _) => true
    case PollQueued(_, _) => true
    case Advance(t, _) => t < |s.threads| ==> !s.threads[t].TryAcquire? && !s.threads[t].Drain?
    case _ => false
  }

  lemma WaitersOnly(queue: seq<Entry>, futs: seq<Acquire>, n: nat)
    requires forall i :: 0 <= i < |queue| ==> queue[i].Waiter?
    ensures var p := Distribute(queue, futs, n, 0);
            forall i :: 0 <= i < |p.queue| ==> p.queue[i].Waiter?
  {
    var k := DistributeServesPrefix(queue, futs, n, 0);
    var p := Distribute(queue, futs, n, 0);
    assert forall i :: 0 <= i < |p.queue| ==> SameEntry(p.queue[i], queue[k + i]);
  }

  lemma {:induction false} RemovedWaitersOnly(queue: seq<Entry>, f: nat)
    requires forall i :: 0 <= i < |queue| ==> queue[i].Waiter?
    ensures forall i :: 0 <= i < |RemoveWaiter(queue, f)| ==> RemoveWaiter(queue, f)[i].Waiter?
  {
    if queue != [] {
      RemovedWaitersOnly(queue[1..], f);
    }
  }

  lemma DistributingClosed(s: State, initial: nat, t: nat, n: nat)
    requires Closed(s, initial) && t < |s.threads|
    ensures Closed(Distributing(s, t, n), initial)
  {
    WaitersOnly(s.queue, s.futs, n);
    var s' := Distributing(s, t, n);
    hide Distribute;
    assert s'.queue == Distribute(s.queue, s.futs, n, 0).queue;
  }

  /** A step of thread `t` that at most adds a waiter to the queue. */
  lemma ClosedMoves(s: State, s': State, initial: nat, t: nat, extra: seq<Entry>)
    requires Closed(s, initial) && t < |s.threads| && |s'.threads| == |s.threads|
    requires s'.threads == s.threads[t := s'.threads[t]] && PcClosed(s'.threads[t], initial)
    requires s'.queue == s.queue + extra && (extra == [] || (|extra| == 1 && extra[0].Waiter?))
    requires s'.reduced == 0 && s'.forfeited == 0 && s'.released <= s'.drawn + s'.kept
    ensures Closed(s', initial)
  {
  }

  /** What a single thread needs to know to stay within the semaphore's size. */
  lemma ThreadHere(s: State, initial: nat, t: nat)
    requires SemOk(s, initial) && t < |s.threads|
    ensures PcClosed(s.threads[t], initial) && PcOk(s, s.threads[t])
    ensures s.avail <= MAX && s.avail + Carried(s.threads[t]) <= initial <= MAX
    ensures s.reduced == 0 && s.forfeited == 0 && s.released <= s.drawn + s.kept
  {
    Here(s, t);
    RoomForRelease(s, initial, t);
  }

  lemma AdvanceClosed(s: State, initial: nat, t: nat, hint: bool)
    requires SemOk(s, initial) && t < |s.threads|
    ensures Closed(AdvanceStep(s, t, hint), initial)
  {
    hide Inv, Closed, Distributing;
    ThreadHere(s, initial, t);
    var s' := AdvanceStep(s, t, hint);
    if s.threads[t].LockRelease? && s.lock.None? {
      DistributingClosed(s, initial, t, s.threads[t].n);
    } else if s.threads[t].Push? {
      ClosedMoves(s, s', initial, t, [Waiter(s.threads[t].who.value)]);
    } else {
      assert s'.queue == s.queue + [];
      ClosedMoves(s, s', initial, t, []);
    }
  }

  lemma CancelClosed(s: State, initial: nat, t: nat, f: nat)
    requires SemOk(s, initial) && t < |s.threads| && f < |s.futs| && s.futs[f].phase.Waiting?
    ensures Closed(CancelStep(s, t, f), initial)
  {
    assert FutOk(s.futs[f]);
    hide Inv, Distributing;
    RemovedWaitersOnly(s.queue, f);
    DistributingClosed(Unregistered(s, f), initial, t, Got(s.futs[f]));
  }

  /** Whatever such clients do, the semaphore stays within its size and nobody panics. */
  lemma StepClosed(s: State, initial: nat, a: Action)
    requires SemOk(s, initial) && !a.BeginReduce?
    requires Step(s, a).released <= Step(s, a).drawn + Step(s, a).kept
    ensures SemOk(Step(s, a), initial)
  {
    hide AdvanceStep, CancelStep, Inv;
    StepKeeps(s, initial, a);
    if a.Advance? && a.t < |s.threads| {
      AdvanceClosed(s, initial, a.t, a.hint);
    } else if a.Cancel? && a.f < |s.futs| && s.futs[a.f].phase.Waiting? && Step(s, a) != s {
      CancelClosed(s, initial, a.t, a.f);
    }
  }

  /** How a client sees another future change without its own doing. */
  ghost predicate Moved(a: Acquire, a': Acquire) {
    && a'.requested == a.requested
    && (a'.phase.Dropped? <==> a.phase.Dropped?)
    && (a.phase.Done? ==> a'.phase.Done?)
  }

  ghost predicate LedgerSame(s: State, s': State) {
    s'.drawn == s.drawn && s'.kept == s.kept && s'.released == s.released
  }

  lemma AdvanceIsInternal(s: State, initial: nat, t: nat, hint: bool)
    requires SemOk(s, initial) && t < |s.threads| && Internal(s, Advance(t, hint))
    ensures var s' := AdvanceStep(s, t, hint);
            && LedgerSame(s, s') && |s'.futs| == |s.futs|
            && (forall f :: 0 <= f < |s.futs| ==> Moved(s.futs[f], s'.futs[f]))
  {
    Here(s, t);
    var s' := AdvanceStep(s, t, hint);
    forall f | 0 <= f < |s.futs|
      ensures |s'.futs| == |s.futs| && Moved(s.futs[f], s'.futs[f])
    {
      AdvanceForward(s, initial, t, hint, f);
      AdvanceNeverDrops(s, initial, t, hint, f);
    }
    if s.futs == [] {
      AdvanceCount(s, initial, t, hint);
    }
    assert PcClosed(s.threads[t], initial);
    hide Inv, Distribute;
  }

  lemma AdvanceCount(s: State, initial: nat, t: nat, hint: bool)
    requires SemOk(s, initial) && t < |s.threads|
    ensures |AdvanceStep(s, t, hint).futs| == |s.futs|
  {
    hide QueueOk, ThreadsOk, Closed, Distribute;
    if s.threads[t].LockRelease? {
      DistributeShape(s.queue, s.futs, s.threads[t].n, 0);
    }
  }

  lemma AdvanceNeverDrops(s: State, initial: nat, t: nat, hint: bool, f: nat)
    requires SemOk(s, initial) && t < |s.threads| && f < |s.futs|
    requires |AdvanceStep(s, t, hint).futs| == |s.futs|
    ensures AdvanceStep(s, t, hint).futs[f].phase.Dropped? ==> s.futs[f].phase.Dropped?
    ensures s.futs[f].phase.Done? ==> AdvanceStep(s, t, hint).futs[f].phase.Done?
  {
    hide QueueOk, ThreadsOk, Closed, Distribute;
    Here(s, t);
    if s.threads[t].LockRelease? {
      DistributeShape(s.queue, s.futs, s.threads[t].n, 0);
      assert OnlyServed(s.futs[f], Distribute(s.queue, s.futs, s.threads[t].n, 0).futs[f]);
    }
  }

  lemma StaysCovered(s: State, initial: nat, a: Action)
    requires SemOk(s, initial) && LedgerSame(s, Step(s, a))
    ensures Step(s, a).released <= Step(s, a).drawn + Step(s, a).kept
  {
  }

  lemma InternalStep(s: State, initial: nat, a: Action)
    requires SemOk(s, initial) && Internal(s, a)
    ensures var s' := Step(s, a);
            && SemOk(s', initial) && LedgerSame(s, s') && |s'.futs| == |s.futs|
            && (forall f :: 0 <= f < |s.futs| ==> Moved(s.futs[f], s'.futs[f]))
  {
    hide AdvanceStep, Inv, Closed;
    if a.Advance? && a.t < |s.threads| {
      AdvanceIsInternal(s, initial, a.t, a.hint);
    }
    StaysCovered(s, initial, a);
    StepClosed(s, initial, a);
  }
}
