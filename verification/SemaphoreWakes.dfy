/**
 No acquire is left asleep with everything it asked for. A waker taken out of a node counts as woken: the
 thread that takes it wakes it as soon as it has dropped the queue lock, before it does anything else.
 */
module SemaphoreWakes {
  import opened Options
  import opened Semaphores
  import opened SemaphoreSafety
  import opened SemaphoreRuns

  /**
   A queued future keeps the waker of the task that polled it last and has not been woken since; one that
   needs nothing more has been woken since, with the waker of that task.
   */
  predicate Told(a: Acquire) {
    a.phase.Waiting? ==>
      if a.phase.needed > 0 then a.watch == Watch(a.watch.polled, Some(a.watch.polled), None)
      else a.watch == Watch(a.watch.polled, None, Some(a.watch.polled))
  }

  ghost predicate AllTold(futs: seq<Acquire>) {
    forall f :: 0 <= f < |futs| ==> Told(futs[f])
  }

  lemma GiveTells(e: Entry, futs: seq<Acquire>, amount: nat)
    requires AllTold(futs) && EntryOk(e, futs) && amount <= Need(e, futs)
    ensures AllTold(Give(e, futs, amount))
  {
  }

  lemma {:induction false} DistributeTells(queue: seq<Entry>, futs: seq<Acquire>, left: nat, woken: nat)
    requires QueueOk(queue, futs) && AllTold(futs)
    ensures AllTold(Distribute(queue, futs, left, woken).futs)
    decreases |queue|
  {
    if left == 0 || woken >= BATCH || queue == [] {
      return;
    }
    assert EntryOk(queue[0], futs);
    var need := Need(queue[0], futs);
    if need <= left {
      GiveTells(queue[0], futs, need);
      ServeWhole(queue, futs, left);
      hide QueueOk, AllTold;
      DistributeTells(queue[1..], Give(queue[0], futs, need), left - need,
                      if queue[0].Waiter? then woken + 1 else woken);
    } else {
      GiveTells(queue[0], futs, left);
    }
  }

  lemma AdvanceTells(s: State, initial: nat, t: nat, hint: bool)
    requires Inv(s, initial) && AllTold(s.futs) && t < |s.threads|
    ensures AllTold(AdvanceStep(s, t, hint).futs)
  {
    hide Distribute;
    if s.threads[t].LockRelease? {
      DistributeTells(s.queue, s.futs, s.threads[t].n, 0);
    } else {
      Here(s, t);
      hide QueueOk, ThreadsOk;
    }
  }

  lemma CancelTells(s: State, t: nat, f: nat)
    requires QueueOk(s.queue, s.futs) && AllTold(s.futs)
    requires t < |s.threads| && f < |s.futs| && s.futs[f].phase.Waiting?
    ensures AllTold(CancelStep(s, t, f).futs)
  {
    Unqueue(s.queue, s.futs, f);
    hide QueueOk, Distribute;
    var mid := Unregistered(s, f);
    DistributeTells(mid.queue, mid.futs, Got(s.futs[f]), 0);
  }

  lemma StepTells(s: State, initial: nat, a: Action)
    requires Inv(s, initial) && AllTold(s.futs)
    ensures AllTold(Step(s, a).futs)
  {
    if a.Advance? && a.t < |s.threads| {
      AdvanceTells(s, initial, a.t, a.hint);
    } else if a.Cancel? && a.f < |s.futs| && s.futs[a.f].phase.Waiting? && Step(s, a) != s {
      CancelTells(s, a.t, a.f);
    } else {
      hide QueueOk, ThreadsOk, AdvanceStep, CancelStep;
    }
  }

  lemma {:induction false} RunTells(s: State, initial: nat, actions: seq<Action>)
    requires Inv(s, initial) && AllTold(s.futs)
    ensures AllTold(Run(s, actions).futs)
    decreases |actions|
  {
    if actions != [] {
      hide Inv, AllTold, Step;
      StepKeeps(s, initial, actions[0]);
      StepTells(s, initial, actions[0]);
      RunTells(Step(s, actions[0]), initial, actions[1..]);
    }
  }

  /**
   In every run: an acquire whose last poll was pending and that needs nothing more has been woken since
   that poll, through the waker of the task that made it; one that still needs permits has not, and keeps
   that waker in its node.
   */
  lemma NoLostWakeup(permits: nat, actions: seq<Action>, f: nat)
    requires permits <= MAX
    ensures var s := Run(Init(permits), actions);
            f < |s.futs| && s.futs[f].phase.Waiting? ==>
              var watch := s.futs[f].watch;
              if s.futs[f].phase.needed == 0 then watch.woken == Some(watch.polled)
              else watch.woken.None? && watch.waker == Some(watch.polled)
  {
    assert Inv(Init(permits), permits) by { Reachable(permits, []); }
    RunTells(Init(permits), permits, actions);
  }

  lemma {:induction false} DistributePolled(queue: seq<Entry>, futs: seq<Acquire>, left: nat, woken: nat, f: nat)
    requires f < |futs|
    ensures var p := Distribute(queue, futs, left, woken);
            f < |p.futs| && p.futs[f].watch.polled == futs[f].watch.polled
    decreases |queue|
  {
    if left > 0 && woken < BATCH && queue != [] && Need(queue[0], futs) <= left {
      DistributePolled(queue[1..], Give(queue[0], futs, Need(queue[0], futs)), left - Need(queue[0], futs),
                       if queue[0].Waiter? then woken + 1 else woken, f);
    }
  }

  /** The poll is made, and leaves the future pending or on its way. */
  predicate MakesPoll(s: State, a: Action, f: nat) {
    match a
    case BeginPoll(t, g, _) =>
      g == f && t < |s.threads| && s.threads[t].Idle? && f < |s.futs| && s.futs[f].phase.Fresh?
    case PollQueued(g, _) =>
      g == f && s.lock.None? && f < |s.futs| && s.futs[f].phase.Waiting? && s.futs[f].phase.needed > 0
    case _ => false
  }

  lemma AdvancePollsNobody(s: State, t: nat, hint: bool, f: nat)
    requires t < |s.threads| && f < |s.futs|
    ensures var s' := AdvanceStep(s, t, hint); f < |s'.futs| && s'.futs[f].watch.polled == s.futs[f].watch.polled
  {
    hide Distribute;
    if s.threads[t].LockRelease? {
      DistributePolled(s.queue, s.futs, s.threads[t].n, 0, f);
    }
  }

  /** The task a future goes by is that of its own latest poll. */
  lemma OnlyOwnPolls(s: State, a: Action, f: nat)
    requires f < |s.futs|
    ensures f < |Step(s, a).futs|
    ensures Step(s, a).futs[f].watch.polled == if MakesPoll(s, a, f) then a.task else s.futs[f].watch.polled
  {
    hide Distribute, AdvanceStep;
    if a.Advance? && a.t < |s.threads| {
      AdvancePollsNobody(s, a.t, a.hint, f);
    } else if a.Cancel? && a.f < |s.futs| && s.futs[a.f].phase.Waiting? {
      var mid := Unregistered(s, a.f);
      DistributePolled(mid.queue, mid.futs, Got(s.futs[a.f]), 0, f);
    }
  }
}
