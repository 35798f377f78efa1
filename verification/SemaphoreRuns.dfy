/** The invariant of the semaphore is kept by every action, hence in every run. */
module SemaphoreRuns {
  import opened Options
  import opened Semaphores
  import opened SemaphoreSafety

  /** What a step of thread `t` leaves to the others. */
  ghost predicate Framed(s: State, s': State, t: nat, pc: Pc)
    requires t < |s.threads|
  {
    && s'.threads == s.threads[t := pc]
    && |s.futs| <= |s'.futs|
    && (forall f :: 0 <= f < |s.futs| && s.futs[f].phase.Polling? ==>
          s'.futs[f] == s.futs[f] || Polls(s.threads[t], f))
    && (s.lock.Some? && s.lock.value != t ==> s'.queue == s.queue && (s.avail == 0 ==> s'.avail == 0))
    && (HoldsLock(pc) ==> s.lock.None? || s.lock.value == t)
    && s'.lock == (if HoldsLock(pc) then Some(t) else if s.lock == Some(t) then None else s.lock)
    && (forall f: nat :: Polls(pc, f) ==> Polls(s.threads[t], f) || (f < |s.futs| && !s.futs[f].phase.Polling?))
  }

  lemma OthersKeep(s: State, s': State, t: nat, pc: Pc)
    requires ThreadsOk(s) && t < |s.threads| && Framed(s, s', t, pc) && PcOk(s', pc)
    ensures ThreadsOk(s')
  {
    forall u | 0 <= u < |s'.threads|
      ensures PcOk(s', s'.threads[u])
    {
      if u != t {
        var other := s.threads[u];
        assert PcOk(s, other);
        if (other.Take? || other.Push?) && other.who.Some? {
          assert Polls(other, other.who.value);
          assert !Polls(s.threads[t], other.who.value);
        }
      }
    }
    forall u, v, f | 0 <= u < v < |s'.threads| && Polls(s'.threads[u], f)
      ensures !Polls(s'.threads[v], f)
    {
      assert PcOk(s, s.threads[u]) && PcOk(s, s.threads[v]);
    }
  }

  lemma Here(s: State, t: nat)
    requires ThreadsOk(s) && t < |s.threads|
    ensures PcOk(s, s.threads[t]) && (HoldsLock(s.threads[t]) <==> s.lock == Some(t))
  {
  }

  /** A step of thread `t` that leaves the queue and the futures alone. */
  lemma QuietKeeps(s: State, initial: nat, s': State, t: nat, pc: Pc)
    requires Inv(s, initial) && t < |s.threads| && Framed(s, s', t, pc) && PcOk(s', pc)
    requires s'.queue == s.queue && s'.futs == s.futs && s'.avail <= MAX
    requires s'.avail > 0 ==> s.queue == []
    requires s'.kept == s.kept
    requires s'.avail + Carried(pc) + s'.forfeited + s'.drawn + s'.reduced + s.released
          == s.avail + Carried(s.threads[t]) + s.forfeited + s.drawn + s.reduced + s'.released
    ensures Inv(s', initial)
  {
    InFlightUpdate(s.threads, t, pc);
    OthersKeep(s, s', t, pc);
  }

  lemma DirectKeeps(s: State, initial: nat, t: nat, hint: bool)
    requires Inv(s, initial) && t < |s.threads| && (s.threads[t].TryAcquire? || s.threads[t].Drain?)
    ensures Inv(DirectStep(s, t, hint), initial)
  {
    hide QueueOk, ThreadsOk;
    Here(s, t);
    var s' := DirectStep(s, t, hint);
    QuietKeeps(s, initial, s', t, s'.threads[t]);
  }

  // ---- release and distribute_permits ----

  lemma ReleaseKeeps(s: State, initial: nat, t: nat, hint: bool)
    requires Inv(s, initial) && t < |s.threads|
    requires s.threads[t].Release? || s.threads[t].FastRelease?
    ensures Inv(ReleaseStep(s, t, hint), initial)
  {
    hide QueueOk, ThreadsOk;
    Here(s, t);
    var s' := ReleaseStep(s, t, hint);
    QuietKeeps(s, initial, s', t, s'.threads[t]);
  }

  /** In particular the unchecked `fetch_add` always finds zero and cannot wrap. */
  lemma SurplusKeeps(s: State, initial: nat, t: nat, hint: bool)
    requires Inv(s, initial) && t < |s.threads|
    requires s.threads[t].Surplus? || s.threads[t].SurplusAdd? || s.threads[t].SurplusCas?
    ensures s.threads[t].SurplusAdd? ==> ReleaseStep(s, t, hint).avail == s.threads[t].n
    ensures Inv(ReleaseStep(s, t, hint), initial)
  {
    hide QueueOk, ThreadsOk;
    Here(s, t);
    var s' := ReleaseStep(s, t, hint);
    QuietKeeps(s, initial, s', t, s'.threads[t]);
  }

  /** `t` hands on `n` permits that the ledger counts nowhere else. */
  lemma DistributingKeeps(s: State, initial: nat, t: nat, n: nat)
    requires t < |s.threads| && s.lock.None? && 0 < n <= MAX && s.avail <= MAX
    requires s.avail > 0 ==> s.queue == []
    requires QueueOk(s.queue, s.futs) && ThreadsOk(s)
    requires s.threads[t].Idle? || s.threads[t].LockRelease?
    requires s.avail + Assigned(s.futs) + InFlight(s.threads) - Carried(s.threads[t]) + n
             + s.forfeited + s.drawn + s.kept + s.reduced
          == initial + s.released + Owed(s.queue)
    ensures Inv(Distributing(s, t, n), initial)
  {
    hide QueueOk, ThreadsOk, Distribute;
    DistributeShape(s.queue, s.futs, n, 0);
    var p := Distribute(s.queue, s.futs, n, 0);
    PassSparesPolled(s.queue, s.futs, n, p);
    var s' := Distributing(s, t, n);
    InFlightUpdate(s.threads, t, s'.threads[t]);
    HandOverKeeps(s, s', t, s'.threads[t]);
  }

  lemma PassSparesPolled(queue: seq<Entry>, futs: seq<Acquire>, n: nat, p: Pass)
    requires PassOk(queue, futs, n, p)
    ensures |p.futs| == |futs|
    ensures forall f :: 0 <= f < |futs| && futs[f].phase.Polling? ==> p.futs[f] == futs[f]
  {
  }

  /** The end of a distribution pass, seen by the threads. */
  lemma HandOverKeeps(s: State, s': State, t: nat, pc: Pc)
    requires ThreadsOk(s) && t < |s.threads| && s.lock.None?
    requires s.threads[t].Idle? || s.threads[t].LockRelease?
    requires s'.threads == s.threads[t := pc] && s'.avail == s.avail && |s'.futs| == |s.futs|
    requires forall f :: 0 <= f < |s.futs| && s.futs[f].phase.Polling? ==> s'.futs[f] == s.futs[f]
    requires pc.Idle? || (pc.LockRelease? && 0 < pc.n <= MAX) || (pc.Surplus? && 0 < pc.n <= MAX && s'.queue == [])
    requires s'.lock == if pc.Surplus? then Some(t) else None
    ensures ThreadsOk(s')
  {
  }

  lemma LockReleaseKeeps(s: State, initial: nat, t: nat, hint: bool)
    requires Inv(s, initial) && t < |s.threads| && s.threads[t].LockRelease?
    ensures Inv(ReleaseStep(s, t, hint), initial)
  {
    Here(s, t);
    if s.lock.None? {
      hide QueueOk, ThreadsOk;
      DistributingKeeps(s, initial, t, s.threads[t].n);
    }
  }

  // ---- acquired_or_enqueue ----

  /** A future that is not waiting has no part in the queue. */
  lemma RephaseKeeps(queue: seq<Entry>, futs: seq<Acquire>, f: nat, phase: Phase)
    requires QueueOk(queue, futs) && f < |futs|
    requires !futs[f].phase.Waiting? && !futs[f].phase.Done? && !phase.Waiting?
    ensures QueueOk(queue, futs[f := futs[f].(phase := phase)])
    ensures Assigned(futs[f := futs[f].(phase := phase)])
         == Assigned(futs) + if phase.Done? then futs[f].requested else 0
  {
    var futs' := futs[f := futs[f].(phase := phase)];
    AssignedUpdate(futs, f, futs'[f]);
    forall g | 0 <= g < |futs'|
      ensures FutOk(futs'[g])
    {
      assert FutOk(futs[g]);
    }
    forall i | 0 <= i < |queue|
      ensures EntryOk(queue[i], futs')
    {
      assert EntryOk(queue[i], futs);
    }
    forall i, j | 0 <= i < j < |queue| && queue[i].Waiter?
      ensures Untouched(queue[j], futs')
    {
      assert Untouched(queue[j], futs) && EntryOk(queue[j], futs);
    }
  }

  /** A step after which thread `t` is idle and the future it was polling has completed. */
  lemma CompleteKeeps(s: State, s': State, t: nat, f: nat)
    requires ThreadsOk(s) && t < |s.threads| && Polls(s.threads[t], f) && f < |s.futs|
    requires s'.threads == s.threads[t := Idle] && s'.futs == s.futs[f := s.futs[f].(phase := Done)]
    requires s'.queue == s.queue && s'.avail <= s.avail
    requires s'.lock == if HoldsLock(s.threads[t]) then None else s.lock
    ensures ThreadsOk(s')
  {
    OthersKeep(s, s', t, Idle);
  }

  lemma TakeWholeKeeps(s: State, initial: nat, t: nat, f: nat)
    requires Inv(s, initial) && t < |s.threads| && s.threads[t].Take?
    requires s.threads[t].seen == Some(s.avail) && s.avail >= s.threads[t].n && s.threads[t].who == Some(f)
    ensures Inv(TakeStep(s, t), initial)
  {
    hide QueueOk, ThreadsOk;
    Here(s, t);
    RephaseKeeps(s.queue, s.futs, f, Done);
    InFlightUpdate(s.threads, t, Idle);
    CompleteKeeps(s, TakeStep(s, t), t, f);
  }

  lemma TakePartKeeps(s: State, initial: nat, t: nat)
    requires Inv(s, initial) && t < |s.threads| && s.threads[t].Take?
    requires s.threads[t].seen == Some(s.avail) && s.avail < s.threads[t].n && s.threads[t].locked
    ensures Inv(TakeStep(s, t), initial)
  {
    hide QueueOk, ThreadsOk;
    Here(s, t);
    var s' := TakeStep(s, t);
    QuietKeeps(s, initial, s', t, s'.threads[t]);
  }

  /** A reduction that finds all it needs. */
  lemma TakeDebtKeeps(s: State, initial: nat, t: nat)
    requires Inv(s, initial) && t < |s.threads| && s.threads[t].Take?
    requires s.threads[t].seen == Some(s.avail) && s.avail >= s.threads[t].n && s.threads[t].who.None?
    ensures Inv(TakeStep(s, t), initial)
  {
    hide QueueOk, ThreadsOk;
    Here(s, t);
    QuietKeeps(s, initial, TakeStep(s, t), t, Idle);
  }

  /** Looking at the count again, or taking the lock. */
  lemma TakeLookKeeps(s: State, initial: nat, t: nat)
    requires Inv(s, initial) && t < |s.threads| && s.threads[t].Take?
    requires s.threads[t].seen != Some(s.avail) || (s.avail < s.threads[t].n && !s.threads[t].locked)
    ensures Inv(TakeStep(s, t), initial)
  {
    hide QueueOk, ThreadsOk, Completed;
    Here(s, t);
    var s' := TakeStep(s, t);
    QuietKeeps(s, initial, s', t, s'.threads[t]);
  }

  lemma TakeKeeps(s: State, initial: nat, t: nat)
    requires Inv(s, initial) && t < |s.threads| && s.threads[t].Take?
    ensures Inv(TakeStep(s, t), initial)
  {
    hide Inv, TakeStep;
    var pc := s.threads[t];
    if pc.seen != Some(s.avail) || (s.avail < pc.n && !pc.locked) {
      TakeLookKeeps(s, initial, t);
    } else if s.avail < pc.n {
      TakePartKeeps(s, initial, t);
    } else if pc.who.Some? {
      TakeWholeKeeps(s, initial, t, pc.who.value);
    } else {
      TakeDebtKeeps(s, initial, t);
    }
  }

  lemma EnqueueWaiter(queue: seq<Entry>, futs: seq<Acquire>, f: nat, taken: nat, needed: nat)
    requires QueueOk(queue, futs) && f < |futs| && Polled(futs[f], taken + needed)
    requires needed > 0 && (taken > 0 ==> queue == [])
    ensures var futs' := futs[f := futs[f].(phase := Waiting(needed))];
            && QueueOk(queue + [Waiter(f)], futs')
            && Assigned(futs') == Assigned(futs) + taken
            && Owed(queue + [Waiter(f)]) == Owed(queue)
  {
    var futs' := futs[f := futs[f].(phase := Waiting(needed))];
    var queue' := queue + [Waiter(f)];
    AssignedUpdate(futs, f, futs'[f]);
    OwedAppend(queue, Waiter(f));
    forall g | 0 <= g < |futs'|
      ensures FutOk(futs'[g])
    {
      assert FutOk(futs[g]);
    }
    forall i | 0 <= i < |queue'|
      ensures EntryOk(queue'[i], futs')
    {
      assert i < |queue| ==> EntryOk(queue[i], futs);
    }
    forall i, j | 0 <= i < j < |queue'| && queue'[i].Waiter?
      ensures Untouched(queue'[j], futs') && queue'[i] != queue'[j]
    {
      assert EntryOk(queue[i], futs);
      if j < |queue| {
        assert Untouched(queue[j], futs) && EntryOk(queue[j], futs);
      }
    }
    forall g | 0 <= g < |futs'| && futs'[g].phase.Waiting? && futs'[g].phase.needed > 0
      ensures Waiter(g) in queue'
    {
      if g != f {
        assert Waiter(g) in queue;
      }
    }
  }

  lemma EnqueueDebt(queue: seq<Entry>, futs: seq<Acquire>, owed: nat)
    requires QueueOk(queue, futs) && owed > 0
    ensures QueueOk([Debt(owed)] + queue, futs)
    ensures Owed([Debt(owed)] + queue) == owed + Owed(queue)
  {
  }

  lemma PushKeeps(s: State, initial: nat, t: nat)
    requires Inv(s, initial) && t < |s.threads| && s.threads[t].Push?
    ensures Inv(PushStep(s, t), initial)
  {
    hide QueueOk, ThreadsOk;
    Here(s, t);
    var pc := s.threads[t];
    InFlightUpdate(s.threads, t, Idle);
    if pc.who.Some? {
      var f := pc.who.value;
      EnqueueWaiter(s.queue, s.futs, f, pc.taken, pc.needed);
      var s' := SetPhase(SetPc(s, t, Idle).(lock := None), f, Waiting(pc.needed)).(queue := s.queue + [Waiter(f)]);
      OthersKeep(s, s', t, Idle);
      RewatchKeeps(s', initial, f, Armed(s.futs[f].watch.polled));
    } else {
      EnqueueDebt(s.queue, s.futs, pc.needed);
      OthersKeep(s, PushStep(s, t), t, Idle);
    }
  }

  /** Who is to be woken has no bearing on permits. */
  lemma RewatchKeeps(s: State, initial: nat, f: nat, watch: Watch)
    requires Inv(s, initial) && f < |s.futs|
    ensures Inv(SetWatch(s, f, watch), initial)
  {
    var futs' := s.futs[f := s.futs[f].(watch := watch)];
    AssignedUpdate(s.futs, f, futs'[f]);
    RewatchQueue(s.queue, s.futs, f, watch);
    RewatchThreads(s, f, watch);
  }

  lemma RewatchThreads(s: State, f: nat, watch: Watch)
    requires ThreadsOk(s) && f < |s.futs|
    ensures ThreadsOk(SetWatch(s, f, watch))
  {
  }

  lemma RewatchQueue(queue: seq<Entry>, futs: seq<Acquire>, f: nat, watch: Watch)
    requires QueueOk(queue, futs) && f < |futs|
    ensures QueueOk(queue, futs[f := futs[f].(watch := watch)])
  {
    var futs' := futs[f := futs[f].(watch := watch)];
    forall g | 0 <= g < |futs'|
      ensures FutOk(futs'[g])
    {
      assert FutOk(futs[g]);
    }
    forall i | 0 <= i < |queue|
      ensures EntryOk(queue[i], futs')
    {
      assert EntryOk(queue[i], futs);
    }
    forall i, j | 0 <= i < j < |queue| && queue[i].Waiter?
      ensures Untouched(queue[j], futs')
    {
      assert Untouched(queue[j], futs);
    }
  }

  // ---- Cancellation ----

  lemma {:induction false} RemoveWaiterIs(queue: seq<Entry>, f: nat, i: nat)
    requires i < |queue| && queue[i] == Waiter(f)
    requires forall j :: 0 <= j < i ==> queue[j] != Waiter(f)
    ensures RemoveWaiter(queue, f) == queue[..i] + queue[i + 1..]
    ensures Owed(RemoveWaiter(queue, f)) == Owed(queue)
  {
    if i > 0 {
      RemoveWaiterIs(queue[1..], f, i - 1);
      assert queue[..i] + queue[i + 1..] == [queue[0]] + (queue[1..][..i - 1] + queue[1..][i..]);
    }
  }

  lemma {:induction false} RemoveWaiterAbsent(queue: seq<Entry>, f: nat)
    requires Waiter(f) !in queue
    ensures RemoveWaiter(queue, f) == queue
  {
    if queue != [] {
      RemoveWaiterAbsent(queue[1..], f);
    }
  }

  /** Taking a future's entry out of the queue leaves the others in place. */
  lemma Unqueue(queue: seq<Entry>, futs: seq<Acquire>, f: nat)
    requires QueueOk(queue, futs) && f < |futs| && futs[f].phase.Waiting?
    ensures Waiter(f) !in RemoveWaiter(queue, f)
    ensures Owed(RemoveWaiter(queue, f)) == Owed(queue)
    ensures QueueOk(RemoveWaiter(queue, f), futs[f := futs[f].(phase := Dropped)])
    ensures queue == [] ==> RemoveWaiter(queue, f) == []
  {
    if Waiter(f) in queue {
      var i :| 0 <= i < |queue| && queue[i] == Waiter(f);
      RemoveWaiterIs(queue, f, i);
      UnqueueAt(queue, futs, f, i);
    } else {
      RemoveWaiterAbsent(queue, f);
      UnqueueDetached(queue, futs, f, Dropped);
    }
  }

  lemma UnqueueDetached(queue: seq<Entry>, futs: seq<Acquire>, f: nat, phase: Phase)
    requires QueueOk(queue, futs) && f < |futs| && Waiter(f) !in queue && !phase.Waiting?
    ensures QueueOk(queue, futs[f := futs[f].(phase := phase)])
  {
  }

  lemma UnqueueAt(queue: seq<Entry>, futs: seq<Acquire>, f: nat, i: nat)
    requires QueueOk(queue, futs) && f < |futs| && i < |queue| && queue[i] == Waiter(f)
    ensures var rest := queue[..i] + queue[i + 1..];
            Waiter(f) !in rest && QueueOk(rest, futs[f := futs[f].(phase := Dropped)])
  {
  }

  function Unregistered(s: State, f: nat): State
    requires f < |s.futs|
  {
    SetPhase(s, f, Dropped).(queue := RemoveWaiter(s.queue, f))
  }

  lemma UnregisterKeeps(s: State, t: nat, f: nat)
    requires ThreadsOk(s) && t < |s.threads| && s.threads[t].Idle? && s.lock.None?
    requires f < |s.futs| && s.futs[f].phase.Waiting?
    ensures ThreadsOk(Unregistered(s, f))
  {
  }

  lemma FutHere(queue: seq<Entry>, futs: seq<Acquire>, f: nat)
    requires QueueOk(queue, futs) && f < |futs|
    ensures FutOk(futs[f])
  {
  }

  lemma CancelKeeps(s: State, initial: nat, t: nat, f: nat)
    requires Inv(s, initial) && t < |s.threads| && s.threads[t].Idle? && s.lock.None?
    requires f < |s.futs| && s.futs[f].phase.Waiting?
    ensures Inv(CancelStep(s, t, f), initial)
  {
    hide QueueOk, ThreadsOk, Distributing, RemoveWaiter;
    FutHere(s.queue, s.futs, f);
    Unqueue(s.queue, s.futs, f);
    AssignedUpdate(s.futs, f, s.futs[f].(phase := Dropped));
    UnregisterKeeps(s, t, f);
    if Got(s.futs[f]) > 0 {
      DistributingKeeps(Unregistered(s, f), initial, t, Got(s.futs[f]));
    }
  }

  // ---- Everything else, and runs ----

  lemma BeginKeeps(s: State, initial: nat, a: Action)
    requires Inv(s, initial)
    requires a.BeginTryAcquire? || a.BeginDrain? || a.BeginReduce? || a.BeginRelease?
    ensures Inv(Step(s, a), initial)
  {
    var s' := Step(s, a);
    if s' != s {
      Here(s, a.t);
      hide QueueOk, ThreadsOk;
      QuietKeeps(s, initial, s', a.t, s'.threads[a.t]);
    }
  }

  lemma BeginPollKeeps(s: State, initial: nat, t: nat, f: nat, task: nat)
    requires Inv(s, initial) && t < |s.threads| && s.threads[t].Idle?
    requires f < |s.futs| && s.futs[f].phase.Fresh?
    ensures Inv(Step(s, BeginPoll(t, f, task)), initial)
  {
    hide QueueOk, ThreadsOk, Inv;
    PollStarts(s, initial, t, f);
    RewatchKeeps(PollStarted(s, t, f), initial, f, Watch(task, None, None));
  }

  function PollStarted(s: State, t: nat, f: nat): State
    requires t < |s.threads| && f < |s.futs|
  {
    SetPc(SetPhase(s, f, Polling), t, Take(Some(f), s.futs[f].requested, None, false))
  }

  lemma PollStarts(s: State, initial: nat, t: nat, f: nat)
    requires Inv(s, initial) && t < |s.threads| && s.threads[t].Idle?
    requires f < |s.futs| && s.futs[f].phase.Fresh?
    ensures Inv(PollStarted(s, t, f), initial)
  {
    hide QueueOk, ThreadsOk;
    Here(s, t);
    FutHere(s.queue, s.futs, f);
    var s' := SetPc(SetPhase(s, f, Polling), t, Take(Some(f), s.futs[f].requested, None, false));
    RephaseKeeps(s.queue, s.futs, f, Polling);
    InFlightUpdate(s.threads, t, s'.threads[t]);
    OthersKeep(s, s', t, s'.threads[t]);
  }

  /** A completed poll moves exactly the requested permits from the node to the caller: no sum changes. */
  lemma PollQueuedKeeps(s: State, initial: nat, f: nat)
    requires Inv(s, initial) && f < |s.futs| && s.futs[f].phase == Waiting(0)
    ensures Inv(SetPhase(s, f, Done), initial)
  {
    GrantedIsDetached(s.queue, s.futs, f);
    hide QueueOk, ThreadsOk;
    var s' := SetPhase(s, f, Done);
    UnqueueDetached(s.queue, s.futs, f, Done);
    AssignedUpdate(s.futs, f, s'.futs[f]);
    SharedKeeps(s, s');
  }

  lemma GrantedIsDetached(queue: seq<Entry>, futs: seq<Acquire>, f: nat)
    requires QueueOk(queue, futs) && f < |futs| && futs[f].phase == Waiting(0)
    ensures Waiter(f) !in queue
  {
  }

  lemma KeepKeeps(s: State, initial: nat, f: nat)
    requires Inv(s, initial) && f < |s.futs| && s.futs[f].phase.Done?
    ensures Inv(Step(s, Keep(f)), initial)
  {
    var s' := Step(s, Keep(f));
    assert Waiter(f) !in s.queue by { DoneIsDetached(s.queue, s.futs, f); }
    hide QueueOk, ThreadsOk;
    UnqueueDetached(s.queue, s.futs, f, Dropped);
    AssignedUpdate(s.futs, f, s'.futs[f]);
    SharedKeeps(s, s');
  }

  lemma DoneIsDetached(queue: seq<Entry>, futs: seq<Acquire>, f: nat)
    requires QueueOk(queue, futs) && f < |futs| && futs[f].phase.Done?
    ensures Waiter(f) !in queue
  {
  }

  /** Changing a future that nobody is polling touches no thread. */
  lemma SharedKeeps(s: State, s': State)
    requires ThreadsOk(s) && s'.threads == s.threads && s'.lock == s.lock
    requires s'.avail == s.avail && s'.queue == s.queue && |s.futs| <= |s'.futs|
    requires forall f :: 0 <= f < |s.futs| && s.futs[f].phase.Polling? ==> s'.futs[f] == s.futs[f]
    ensures ThreadsOk(s')
  {
  }

  lemma NewFutureKeeps(s: State, initial: nat, n: nat)
    requires Inv(s, initial) && n <= MAX
    ensures Inv(s.(futs := s.futs + [Acquire(n, Fresh, NO_WATCH)]), initial)
  {
    hide QueueOk, ThreadsOk;
    var a := Acquire(n, Fresh, NO_WATCH);
    NewFutureQueue(s.queue, s.futs, a);
    SharedKeeps(s, s.(futs := s.futs + [a]));
    assert (s.futs + [a])[..|s.futs|] == s.futs;
  }

  lemma NewFutureQueue(queue: seq<Entry>, futs: seq<Acquire>, a: Acquire)
    requires QueueOk(queue, futs) && FutOk(a) && a.phase.Fresh?
    ensures QueueOk(queue, futs + [a])
  {
  }

  lemma SpawnKeeps(s: State, initial: nat)
    requires Inv(s, initial)
    ensures Inv(Step(s, Spawn), initial)
  {
  }

  lemma AdvanceKeeps(s: State, initial: nat, t: nat, hint: bool)
    requires Inv(s, initial) && t < |s.threads|
    ensures Inv(AdvanceStep(s, t, hint), initial)
  {
    match s.threads[t]
    case Idle =>
    case Panicked =>
    case TryAcquire(_, _) => DirectKeeps(s, initial, t, hint);
    case Drain(_, _) => DirectKeeps(s, initial, t, hint);
    case Take(_, _, _, _) => TakeKeeps(s, initial, t);
    case Push(_, _, _) => PushKeeps(s, initial, t);
    case Release(_) => ReleaseKeeps(s, initial, t, hint);
    case FastRelease(_, _) => ReleaseKeeps(s, initial, t, hint);
    case LockRelease(_) => LockReleaseKeeps(s, initial, t, hint);
    case Surplus(_) => SurplusKeeps(s, initial, t, hint);
    case SurplusAdd(_) => SurplusKeeps(s, initial, t, hint);
    case SurplusCas(_, _) => SurplusKeeps(s, initial, t, hint);
  }

  lemma StepKeeps(s: State, initial: nat, a: Action)
    requires Inv(s, initial)
    ensures Inv(Step(s, a), initial)
  {
    match a
    case Spawn => SpawnKeeps(s, initial);
    case NewAcquire(n) => if n <= MAX { NewFutureKeeps(s, initial, n); }
    case BeginTryAcquire(_, _) => BeginKeeps(s, initial, a);
    case BeginDrain(_, _) => BeginKeeps(s, initial, a);
    case BeginReduce(_, _) => BeginKeeps(s, initial, a);
    case BeginRelease(_, _) => BeginKeeps(s, initial, a);
    case BeginPoll(t, f, task) => if Step(s, a) != s { BeginPollKeeps(s, initial, t, f, task); }
    case PollQueued(f, task) =>
      if s.lock.None? && f < |s.futs| && s.futs[f].phase.Waiting? {
        if s.futs[f].phase.needed == 0 { PollQueuedKeeps(s, initial, f); } else { RewatchKeeps(s, initial, f, Armed(task)); }
      }
    case Cancel(t, f) => CancelActionKeeps(s, initial, t, f);
    case Keep(f) => if Step(s, a) != s { KeepKeeps(s, initial, f); }
    case Advance(t, hint) => if t < |s.threads| { AdvanceKeeps(s, initial, t, hint); }
  }

  lemma CancelActionKeeps(s: State, initial: nat, t: nat, f: nat)
    requires Inv(s, initial)
    ensures Inv(Step(s, Cancel(t, f)), initial)
  {
    var s' := Step(s, Cancel(t, f));
    if s' != s {
      if s.futs[f].phase.Fresh? {
        RephaseKeeps(s.queue, s.futs, f, Dropped);
        SharedKeeps(s, s');
      } else {
        CancelKeeps(s, initial, t, f);
      }
    }
  }

  /** In every run, however polls, drops, releases, reductions and drains interleave. */
  lemma {:induction false} RunKeeps(s: State, initial: nat, actions: seq<Action>)
    requires Inv(s, initial)
    ensures Inv(Run(s, actions), initial)
    decreases |actions|
  {
    if actions != [] {
      StepKeeps(s, initial, actions[0]);
      RunKeeps(Step(s, actions[0]), initial, actions[1..]);
    }
  }

  lemma Reachable(permits: nat, actions: seq<Action>)
    requires permits <= MAX
    ensures Inv(Run(Init(permits), actions), permits)
  {
    RunKeeps(Init(permits), permits, actions);
  }

  /**
   The semaphore's promise, spelled out: available permits, permits assigned to live acquires, permits
   carried by a thread between two steps, forfeited ones, and those handed to callers or written off
   are together the initial permits, everything released, and what is still owed.
   */
  lemma PermitsConserved(permits: nat, actions: seq<Action>)
    requires permits <= MAX
    ensures var s := Run(Init(permits), actions);
            && s.avail + Assigned(s.futs) + InFlight(s.threads) + s.forfeited + s.drawn + s.kept + s.reduced
               == permits + s.released + Owed(s.queue)
            && (s.avail > 0 ==> s.queue == [])
            && QueueOk(s.queue, s.futs)
  {
    Reachable(permits, actions);
  }
}
