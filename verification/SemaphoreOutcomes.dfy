/** What the semaphore's operations give their callers, alone and under interference. */
module SemaphoreOutcomes {
  import opened Options
  import opened Semaphores
  import opened SemaphoreSafety
  import opened SemaphoreRuns
  import opened SemaphoreFairness

  // ---- try_acquire and drain_permits, undisturbed ----

  /** A `try_acquire` that nobody disturbs takes all it asks for exactly if that much is available. */
  lemma TryAlone(s: State, t: nat, n: nat)
    requires t < |s.threads| && s.threads[t] == TryAcquire(n, None)
    ensures var s' := Alone(s, t, 2);
            s' == if n <= s.avail
                  then s.(avail := s.avail - n, drawn := s.drawn + n, threads := s.threads[t := Idle])
                  else s.(threads := s.threads[t := Idle])
  {
    var s1 := Step(s, Advance(t, false));
    assert Alone(s, t, 0) == s && Alone(s, t, 1) == s1;
    assert s1.threads[t := Idle] == s.threads[t := Idle];
  }

  /** Thread `t` has taken what was available, up to `n`, and done nothing else. */
  predicate Drained(s: State, s': State, t: nat, n: nat)
    requires t < |s.threads|
  {
    && s.drawn <= s'.drawn
    && var k := s'.drawn - s.drawn;
       && k <= n && k <= s.avail && (k == n || k == s.avail)
       && s' == s.(avail := s.avail - k, drawn := s.drawn + k, threads := s.threads[t := Idle])
  }

  /** A drain that nobody disturbs takes what is available, and no more than it was told to. */
  lemma DrainAlone(s: State, t: nat, n: nat)
    requires t < |s.threads| && s.threads[t] == Drain(n, None)
    ensures Drained(s, Alone(s, t, 2), t, n)
  {
    var s1 := Step(s, Advance(t, false));
    assert Alone(s, t, 0) == s && Alone(s, t, 1) == s1;
    assert s1.threads[t := Idle] == s.threads[t := Idle];
  }

  // ---- The same under interference ----

  /** The count a thread's next exchange expects. */
  function Seen(pc: Pc): Option<nat> {
    match pc
    case TryAcquire(_, seen) => seen
    case Drain(_, seen) => seen
    case Take(_, _, seen, _) => seen
    case FastRelease(_, expected) => Some(expected)
    case SurplusCas(_, expected) => Some(expected)
    case _ => None
  }

  /** What a reduction under way has still to remove. */
  function Pledge(pc: Pc): nat {
    match pc
    case Take(who, n, _, _) => if who.None? then n else 0
    case Push(who, _, needed) => if who.None? then needed else 0
    case _ => 0
  }

  /** What a thread's step does to its own record and to the ledger of reductions and releases. */
  ghost predicate OwnMove(s: State, s': State, t: nat)
    requires t < |s.threads|
  {
    && |s'.threads| == |s.threads| && s'.threads == s.threads[t := s'.threads[t]]
    && Seen(s'.threads[t]) in {None, Seen(s.threads[t]), Some(s.avail)}
    && s'.released == s.released
    && (FutureThere(s, s.threads[t]) ==>
          s'.reduced + Pledge(s'.threads[t]) == s.reduced + Pledge(s.threads[t]))
  }

  predicate FutureThere(s: State, pc: Pc) {
    (pc.Take? || pc.Push?) && pc.who.Some? ==> pc.who.value < |s.futs|
  }

  lemma TakeMoves(s: State, t: nat)
    requires t < |s.threads| && s.threads[t].Take?
    ensures OwnMove(s, TakeStep(s, t), t)
  {
  }

  lemma PushMoves(s: State, t: nat)
    requires t < |s.threads| && s.threads[t].Push?
    ensures OwnMove(s, PushStep(s, t), t)
  {
  }

  lemma DirectMoves(s: State, t: nat, hint: bool)
    requires t < |s.threads| && (s.threads[t].TryAcquire? || s.threads[t].Drain?)
    ensures OwnMove(s, DirectStep(s, t, hint), t)
  {
  }

  lemma ReleaseMoves(s: State, t: nat, hint: bool)
    requires t < |s.threads| && !s.threads[t].Take? && !s.threads[t].Push?
    ensures OwnMove(s, ReleaseStep(s, t, hint), t)
  {
    hide Distribute;
  }

  lemma AdvanceMoves(s: State, t: nat, hint: bool)
    requires t < |s.threads|
    ensures OwnMove(s, AdvanceStep(s, t, hint), t)
  {
    hide OwnMove, TakeStep, PushStep, DirectStep, ReleaseStep;
    if s.threads[t].Take? {
      TakeMoves(s, t);
    } else if s.threads[t].Push? {
      PushMoves(s, t);
    } else if s.threads[t].TryAcquire? || s.threads[t].Drain? {
      DirectMoves(s, t, hint);
    } else {
      ReleaseMoves(s, t, hint);
    }
  }

  lemma StepSees(s: State, a: Action, t: nat)
    requires t < |s.threads|
    ensures t < |Step(s, a).threads|
    ensures Seen(Step(s, a).threads[t]) in {None, Seen(s.threads[t]), Some(s.avail)}
  {
    if a.Advance? {
      if a.t < |s.threads| {
        AdvanceMoves(s, a.t, a.hint);
      }
    }
    hide AdvanceStep, Distribute;
  }

  /** The number of permits was `v` at some moment of the run. */
  ghost predicate WasAvailable(s: State, actions: seq<Action>, v: nat) {
    exists k :: 0 <= k <= |actions| && Run(s, actions[..k]).avail == v
  }

  /**
   What an operation acts on is no invention: the count it expects was the count at some moment since the
   operation began.
   */
  lemma {:induction false} SeenWasThere(s: State, actions: seq<Action>, t: nat)
    requires t < |s.threads| && Seen(s.threads[t]).None?
    ensures t < |Run(s, actions).threads|
    ensures var seen := Seen(Run(s, actions).threads[t]); seen.Some? ==> WasAvailable(s, actions, seen.value)
  {
    if actions != [] {
      hide Step;
      var before, a := actions[..|actions| - 1], actions[|actions| - 1];
      SeenWasThere(s, before, t);
      RunSnoc(s, actions);
      var mid := Run(s, before);
      StepSees(mid, a, t);
      var seen := Seen(Run(s, actions).threads[t]);
      if seen.Some? {
        if seen == Seen(mid.threads[t]) {
          var k :| 0 <= k <= |before| && Run(s, before[..k]).avail == seen.value;
          assert before[..k] == actions[..k];
        } else {
          assert actions[..|before|] == before;
        }
      }
    }
  }

  lemma {:induction false} RunSnoc(s: State, actions: seq<Action>)
    requires actions != []
    ensures Run(s, actions) == Step(Run(s, actions[..|actions| - 1]), actions[|actions| - 1])
    decreases |actions|
  {
    if |actions| > 1 {
      var rest := actions[1..];
      RunSnoc(Step(s, actions[0]), rest);
      assert rest[..|rest| - 1] == actions[..|actions| - 1][1..];
    }
  }

  /** How a step of a `try_acquire` can end: with everything, with nothing, or not yet. */
  lemma TryStep(s: State, t: nat, n: nat, seen: Option<nat>, hint: bool)
    requires t < |s.threads| && s.threads[t] == TryAcquire(n, seen)
    ensures var s' := Step(s, Advance(t, hint));
            || (n <= s.avail && s' == s.(avail := s.avail - n, drawn := s.drawn + n, threads := s.threads[t := Idle]))
            || (seen.Some? && seen.value < n && s' == s.(threads := s.threads[t := Idle]))
            || s' == s.(threads := s.threads[t := TryAcquire(n, Some(s.avail))])
  {
  }

  /**
   In every run: a `try_acquire` that comes back with nothing came upon a moment, since it was called, at
   which fewer permits were available than it asked for.
   */
  lemma TryGivesUp(s: State, actions: seq<Action>, t: nat, n: nat, hint: bool)
    requires t < |s.threads| && s.threads[t] == TryAcquire(n, None)
    requires var mid := Run(s, actions);
             && t < |mid.threads| && mid.threads[t].TryAcquire? && mid.threads[t].n == n
             && Step(mid, Advance(t, hint)).threads[t].Idle? && Step(mid, Advance(t, hint)).drawn == mid.drawn
    ensures n > 0 ==> exists v :: 0 <= v < n && WasAvailable(s, actions, v)
  {
    SeenWasThere(s, actions, t);
    var mid := Run(s, actions);
    TryStep(mid, t, n, mid.threads[t].seen, hint);
  }

  /** A drain ends by taking, at once, as much as there is of what it asked for. */
  lemma DrainStep(s: State, t: nat, n: nat, seen: Option<nat>, hint: bool)
    requires t < |s.threads| && s.threads[t] == Drain(n, seen)
    ensures var s' := Step(s, Advance(t, hint));
            Drained(s, s', t, n) || s' == s.(threads := s.threads[t := Drain(n, Some(s.avail))])
  {
  }

  // ---- Reductions and releases, from the calls made ----

  function Pledged(threads: seq<Pc>): nat {
    if threads == [] then 0 else Pledged(threads[..|threads| - 1]) + Pledge(threads[|threads| - 1])
  }

  lemma {:induction false} PledgedUpdate(threads: seq<Pc>, t: nat, pc: Pc)
    requires t < |threads|
    ensures Pledged(threads[t := pc]) == Pledged(threads) - Pledge(threads[t]) + Pledge(pc)
  {
    var n := |threads| - 1;
    if t == n {
      assert threads[t := pc][..n] == threads[..n];
    } else {
      PledgedUpdate(threads[..n], t, pc);
      assert threads[t := pc][..n] == threads[..n][t := pc];
    }
  }

  predicate Begins(s: State, a: Action) {
    (a.BeginReduce? || a.BeginRelease?) && a.t < |s.threads| && s.threads[a.t].Idle? && a.n <= MAX
  }

  /** What reductions have been called for, and what releases. */
  function ToReduce(s: State, actions: seq<Action>): nat
    decreases |actions|
  {
    if actions == [] then 0
    else
      (if actions[0].BeginReduce? && Begins(s, actions[0]) then actions[0].n else 0)
      + ToReduce(Step(s, actions[0]), actions[1..])
  }

  function ToRelease(s: State, actions: seq<Action>): nat
    decreases |actions|
  {
    if actions == [] then 0
    else
      (if actions[0].BeginRelease? && Begins(s, actions[0]) then actions[0].n else 0)
      + ToRelease(Step(s, actions[0]), actions[1..])
  }

  lemma AdvancePledges(s: State, initial: nat, t: nat, hint: bool)
    requires Inv(s, initial) && t < |s.threads|
    ensures var s' := AdvanceStep(s, t, hint);
            s'.reduced + Pledged(s'.threads) == s.reduced + Pledged(s.threads) && s'.released == s.released
  {
    hide QueueOk, ThreadsOk, AdvanceStep;
    Here(s, t);
    AdvanceMoves(s, t, hint);
    PledgedUpdate(s.threads, t, AdvanceStep(s, t, hint).threads[t]);
  }

  lemma CancelPledges(s: State, t: nat, f: nat)
    requires t < |s.threads| && s.threads[t].Idle? && f < |s.futs| && s.futs[f].phase.Waiting?
    ensures var s' := CancelStep(s, t, f);
            Pledged(s'.threads) == Pledged(s.threads) && s'.reduced == s.reduced && s'.released == s.released
  {
    hide Distribute;
    var s' := CancelStep(s, t, f);
    assert s'.threads == s.threads[t := s'.threads[t]];
    PledgedUpdate(s.threads, t, s'.threads[t]);
  }

  lemma BeginPledges(s: State, a: Action)
    requires a.BeginTryAcquire? || a.BeginDrain? || a.BeginReduce? || a.BeginRelease? || a.BeginPoll?
    ensures var s' := Step(s, a);
            && s'.reduced == s.reduced
            && Pledged(s'.threads) == Pledged(s.threads) + (if a.BeginReduce? && Begins(s, a) then a.n else 0)
            && s'.released == s.released + (if a.BeginRelease? && Begins(s, a) then a.n else 0)
  {
    var s' := Step(s, a);
    if a.t < |s.threads| {
      assert s'.threads == s.threads[a.t := s'.threads[a.t]];
      PledgedUpdate(s.threads, a.t, s'.threads[a.t]);
    }
  }

  lemma StepPledges(s: State, initial: nat, a: Action)
    requires Inv(s, initial)
    ensures var s' := Step(s, a);
            && s'.reduced + Pledged(s'.threads)
               == s.reduced + Pledged(s.threads) + (if a.BeginReduce? && Begins(s, a) then a.n else 0)
            && s'.released == s.released + (if a.BeginRelease? && Begins(s, a) then a.n else 0)
  {
    hide Inv, CancelStep, AdvanceStep;
    if a.Advance? {
      if a.t < |s.threads| {
        AdvancePledges(s, initial, a.t, a.hint);
      }
    } else if a.Spawn? {
      assert Step(s, a).threads[..|s.threads|] == s.threads;
    } else if a.Cancel? {
      if a.t < |s.threads| && s.threads[a.t].Idle? && a.f < |s.futs| && s.futs[a.f].phase.Waiting? {
        CancelPledges(s, a.t, a.f);
      }
    } else if !a.NewAcquire? && !a.PollQueued? && !a.Keep? {
      BeginPledges(s, a);
    }
  }

  lemma {:induction false} RunPledges(s: State, initial: nat, actions: seq<Action>)
    requires Inv(s, initial)
    ensures var s' := Run(s, actions);
            && s'.reduced + Pledged(s'.threads) == s.reduced + Pledged(s.threads) + ToReduce(s, actions)
            && s'.released == s.released + ToRelease(s, actions)
    decreases |actions|
  {
    if actions != [] {
      hide Inv, Step;
      StepKeeps(s, initial, actions[0]);
      StepPledges(s, initial, actions[0]);
      RunPledges(Step(s, actions[0]), initial, actions[1..]);
    }
  }

  /**
   In every run: reductions remove exactly what they were called for - now, or, while one is under way,
   what is left of it; and exactly what was released has come back.
   */
  lemma RemovesWhatWasAsked(permits: nat, actions: seq<Action>)
    requires permits <= MAX
    ensures var s := Run(Init(permits), actions);
            && s.reduced + Pledged(s.threads) == ToReduce(Init(permits), actions)
            && s.released == ToRelease(Init(permits), actions)
  {
    assert Inv(Init(permits), permits) by { Reachable(permits, []); }
    RunPledges(Init(permits), permits, actions);
  }

  // ---- A release ends ----

  lemma {:induction false} AloneMore(s: State, t: nat, j: nat, k: nat)
    ensures Alone(Alone(s, t, j), t, k) == Alone(s, t, j + k)
  {
    hide Step;
    if k > 0 {
      AloneMore(s, t, j, k - 1);
    }
  }

  predicate Rests(s: State, t: nat) {
    t < |s.threads| && (s.threads[t].Idle? || s.threads[t].Panicked?)
  }

  /** What is left when nobody waits is added to the count, or the count would overflow. */
  lemma SurplusAlone(s: State, t: nat, n: nat)
    requires t < |s.threads| && s.threads[t] == Surplus(n)
    ensures Rests(Alone(s, t, 2), t)
    ensures s.avail + n <= MAX ==> Alone(s, t, 2).threads[t].Idle? && Alone(s, t, 2).avail == s.avail + n
  {
    assert Alone(s, t, 0) == s && Alone(s, t, 1) == Step(s, Advance(t, false));
  }

  /** A release with the lock free, undisturbed, comes to an end; each turn hands permits on. */
  lemma {:induction false} DistributeAlone(s: State, initial: nat, t: nat, n: nat) returns (k: nat)
    requires Inv(s, initial) && t < |s.threads| && s.threads[t] == LockRelease(n) && s.lock.None?
    ensures Rests(Alone(s, t, k), t)
    decreases n
  {
    hide QueueOk, ThreadsOk, Distribute;
    var s1 := Step(s, Advance(t, false));
    assert Alone(s, t, 0) == s && Alone(s, t, 1) == s1;
    StepKeeps(s, initial, Advance(t, false));
    var p := Distribute(s.queue, s.futs, n, 0);
    if p.left == 0 {
      k := 1;
    } else if p.queue == [] {
      SurplusAlone(s1, t, p.left);
      AloneMore(s, t, 1, 2);
      k := 3;
    } else {
      Here(s, t);
      PassProgress(s.queue, s.futs, n, 0);
      k := DistributeAlone(s1, initial, t, p.left);
      AloneMore(s, t, 1, k);
      k := k + 1;
    }
  }

  /** So does every release. */
  lemma ReleaseAlone(s: State, initial: nat, t: nat, n: nat) returns (k: nat)
    requires Inv(s, initial) && t < |s.threads| && s.threads[t] == Release(n) && s.lock.None?
    ensures Rests(Alone(s, t, k), t)
  {
    hide QueueOk, ThreadsOk, Distribute;
    var s1 := Step(s, Advance(t, false));
    assert Alone(s, t, 0) == s && Alone(s, t, 1) == s1;
    if n == 0 {
      k := 1;
    } else if s.avail != 0 {
      assert Alone(s, t, 2) == Step(s1, Advance(t, false));
      k := 2;
    } else {
      StepKeeps(s, initial, Advance(t, false));
      k := DistributeAlone(s1, initial, t, n);
      AloneMore(s, t, 1, k);
      k := k + 1;
    }
  }
}
