/**
 Clients of one semaphore. Each client holds some permits and has at most one acquisition under way;
 it gives back only what it holds. This is what lock guards and pool objects have in common.
 */
module SemaphoreGuards {
  import opened Options
  import opened Semaphores
  import opened SemaphoreSafety
  import opened SemaphoreRuns
  import opened SemaphoreFairness
  import opened SemaphoreClients

  /** What a client is waiting for: a future it owns, or a thread running `try_acquire` or a drain. */
  datatype Wait = NoWait | Future(f: nat, n: nat) | Trying(t: nat, n: nat) | Draining(t: nat, n: nat)
  datatype Side = Side(held: nat, wait: Wait)
  datatype Guarded = Guarded(sem: State, sides: seq<Side>)

  function Held(sides: seq<Side>): nat {
    if sides == [] then 0 else Held(sides[..|sides| - 1]) + sides[|sides| - 1].held
  }

  lemma {:induction false} HeldUpdate(sides: seq<Side>, c: nat, side: Side)
    requires c < |sides|
    ensures Held(sides[c := side]) == Held(sides) - sides[c].held + side.held
    ensures sides[c].held <= Held(sides)
  {
    var n := |sides| - 1;
    if c == n {
      assert sides[c := side][..n] == sides[..n];
    } else {
      HeldUpdate(sides[..n], c, side);
      assert sides[c := side][..n] == sides[..n][c := side];
    }
  }

  predicate WaitOk(s: State, w: Wait) {
    match w
    case NoWait => true
    case Future(f, n) => f < |s.futs| && s.futs[f].requested == n && !s.futs[f].phase.Dropped?
    case Trying(t, n) => t < |s.threads| && s.threads[t].TryAcquire? && s.threads[t].n == n
    case Draining(t, n) => t < |s.threads| && s.threads[t].Drain? && s.threads[t].n == n
  }

  /** Two waits that would share a future or a thread. */
  predicate Clash(w: Wait, w': Wait) {
    || (w.Future? && w'.Future? && w.f == w'.f)
    || ((w.Trying? || w.Draining?) && (w'.Trying? || w'.Draining?) && w.t == w'.t)
  }

  predicate UsesFuture(w: Wait, f: nat) {
    w.Future? && w.f == f
  }

  predicate UsesThread(w: Wait, t: nat) {
    (w.Trying? || w.Draining?) && w.t == t
  }

  ghost predicate OwnedBy(sides: seq<Side>, f: nat) {
    exists c :: 0 <= c < |sides| && UsesFuture(sides[c].wait, f)
  }

  ghost predicate WaitsOk(s: State, sides: seq<Side>) {
    && (forall c :: 0 <= c < |sides| ==> WaitOk(s, sides[c].wait))
    && (forall c, d :: 0 <= c < d < |sides| ==> !Clash(sides[c].wait, sides[d].wait))
    && (forall f :: 0 <= f < |s.futs| && !s.futs[f].phase.Dropped? ==> OwnedBy(sides, f))
  }

  /** Every permit that left the semaphore is held by a client, and every live future has an owner. */
  ghost predicate Ok(g: Guarded, initial: nat) {
    && SemOk(g.sem, initial)
    && g.sem.drawn + g.sem.kept == g.sem.released + Held(g.sides)
    && WaitsOk(g.sem, g.sides)
  }

  // ---- What clients do ----

  function Enter(g: Guarded): Guarded {
    g.(sides := g.sides + [Side(0, NoWait)])
  }

  function Quiet(g: Guarded, a: Action): Guarded {
    if Internal(g.sem, a) then g.(sem := Step(g.sem, a)) else g
  }

  predicate Free(g: Guarded, c: nat) {
    c < |g.sides| && g.sides[c].wait.NoWait?
  }

  predicate IdleThread(g: Guarded, t: nat) {
    t < |g.sem.threads| && g.sem.threads[t].Idle?
  }

  function Start(g: Guarded, c: nat, n: nat): Guarded
    requires Free(g, c) && n <= MAX
  {
    Guarded(Step(g.sem, NewAcquire(n)), g.sides[c := g.sides[c].(wait := Future(|g.sem.futs|, n))])
  }

  predicate Ready(g: Guarded, c: nat) {
    && c < |g.sides| && g.sides[c].wait.Future?
    && g.sides[c].wait.f < |g.sem.futs| && g.sem.futs[g.sides[c].wait.f].phase.Done?
  }

  /** The acquisition has completed and its owner takes over the permits. */
  function Claim(g: Guarded, c: nat): Guarded
    requires Ready(g, c)
  {
    Guarded(Step(g.sem, Keep(g.sides[c].wait.f)), g.sides[c := Side(g.sides[c].held + g.sides[c].wait.n, NoWait)])
  }

  predicate CanAbandon(g: Guarded, c: nat, t: nat) {
    && c < |g.sides| && g.sides[c].wait.Future? && g.sides[c].wait.f < |g.sem.futs|
    && var phase := g.sem.futs[g.sides[c].wait.f].phase;
       phase.Fresh? || (phase.Waiting? && IdleThread(g, t) && g.sem.lock.None?)
  }

  function Abandon(g: Guarded, c: nat, t: nat): Guarded
    requires CanAbandon(g, c, t)
  {
    Guarded(Step(g.sem, Cancel(t, g.sides[c].wait.f)), g.sides[c := g.sides[c].(wait := NoWait)])
  }

  predicate CanRelease(g: Guarded, c: nat, t: nat, n: nat) {
    c < |g.sides| && IdleThread(g, t) && n <= g.sides[c].held && n <= MAX
  }

  function GiveBack(g: Guarded, c: nat, t: nat, n: nat): Guarded
    requires CanRelease(g, c, t, n)
  {
    Guarded(Step(g.sem, BeginRelease(t, n)), g.sides[c := g.sides[c].(held := g.sides[c].held - n)])
  }

  predicate CanTry(g: Guarded, c: nat, t: nat, n: nat) {
    Free(g, c) && IdleThread(g, t) && n <= MAX
  }

  function StartTry(g: Guarded, c: nat, t: nat, n: nat): Guarded
    requires CanTry(g, c, t, n)
  {
    Guarded(Step(g.sem, BeginTryAcquire(t, n)), g.sides[c := g.sides[c].(wait := Trying(t, n))])
  }

  function StartDrain(g: Guarded, c: nat, t: nat, n: nat): Guarded
    requires CanTry(g, c, t, n)
  {
    Guarded(Step(g.sem, BeginDrain(t, n)), g.sides[c := g.sides[c].(wait := Draining(t, n))])
  }

  predicate Attempts(g: Guarded, c: nat) {
    && c < |g.sides| && (g.sides[c].wait.Trying? || g.sides[c].wait.Draining?)
    && g.sides[c].wait.t < |g.sem.threads|
  }

  /** One step of a `try_acquire` or drain; it is over once its thread is idle again. */
  function Attempt(g: Guarded, c: nat, hint: bool): Guarded
    requires Attempts(g, c)
  {
    var t := g.sides[c].wait.t;
    var s' := Step(g.sem, Advance(t, hint));
    var won := if s'.drawn >= g.sem.drawn then s'.drawn - g.sem.drawn else 0;
    if t < |s'.threads| && s'.threads[t].Idle?
    then Guarded(s', g.sides[c := Side(g.sides[c].held + won, NoWait)])
    else g.(sem := s')
  }

  /** A `try_acquire` that has seen too few permits gives up in its next step. */
  predicate Loses(g: Guarded, c: nat) {
    && Attempts(g, c) && g.sem.threads[g.sides[c].wait.t].TryAcquire?
    && var pc := g.sem.threads[g.sides[c].wait.t];
       pc.seen.Some? && pc.seen.value < pc.n
  }

  // ---- Each keeps the books ----

  /** What a change around client `c` leaves to the other clients. */
  ghost predicate Framed(s: State, s': State, w: Wait, w': Wait) {
    && |s.futs| <= |s'.futs| && |s.threads| <= |s'.threads|
    && (forall f :: 0 <= f < |s.futs| && !UsesFuture(w, f) ==> Moved(s.futs[f], s'.futs[f]))
    && (forall f :: 0 <= f < |s'.futs| && (UsesFuture(w, f) || f >= |s.futs|) ==>
          s'.futs[f].phase.Dropped? || UsesFuture(w', f))
    && (w'.Future? ==> w'.f >= |s.futs| || w' == w)
    && (forall t :: 0 <= t < |s.threads| && (s.threads[t].TryAcquire? || s.threads[t].Drain?) ==>
          s'.threads[t] == s.threads[t] || UsesThread(w, t))
    && (forall t :: 0 <= t < |s.threads| && UsesThread(w', t) ==> UsesThread(w, t) || s.threads[t].Idle?)
    && WaitOk(s', w')
  }

  lemma WaitsFrame(s: State, s': State, sides: seq<Side>, c: nat, side: Side)
    requires WaitsOk(s, sides) && c < |sides| && Framed(s, s', sides[c].wait, side.wait)
    ensures WaitsOk(s', sides[c := side])
  {
    var sides' := sides[c := side];
    forall d | 0 <= d < |sides'|
      ensures WaitOk(s', sides'[d].wait)
    {
      if d != c {
        assert WaitOk(s, sides[d].wait);
        assert !Clash(sides[if c < d then c else d].wait, sides[if c < d then d else c].wait);
        if sides[d].wait.Future? {
          assert Moved(s.futs[sides[d].wait.f], s'.futs[sides[d].wait.f]);
        }
      }
    }
    forall d, e | 0 <= d < e < |sides'|
      ensures !Clash(sides'[d].wait, sides'[e].wait)
    {
      assert !Clash(sides[d].wait, sides[e].wait);
      assert WaitOk(s, sides[d].wait) && WaitOk(s, sides[e].wait);
    }
    forall f | 0 <= f < |s'.futs| && !s'.futs[f].phase.Dropped?
      ensures OwnedBy(sides', f)
    {
      if UsesFuture(sides[c].wait, f) || f >= |s.futs| {
        assert UsesFuture(sides'[c].wait, f);
      } else {
        assert Moved(s.futs[f], s'.futs[f]);
        assert OwnedBy(sides, f);
        var d :| 0 <= d < |sides| && UsesFuture(sides[d].wait, f);
        assert UsesFuture(sides'[d].wait, f);
      }
    }
  }

  /** The books after one client's step. */
  lemma BooksKeep(g: Guarded, g': Guarded, initial: nat, c: nat, a: Action)
    requires Ok(g, initial) && c < |g.sides| && !a.BeginReduce?
    requires g'.sem == Step(g.sem, a) && |g'.sides| == |g.sides| && g'.sides == g.sides[c := g'.sides[c]]
    requires Framed(g.sem, g'.sem, g.sides[c].wait, g'.sides[c].wait)
    requires g'.sem.drawn + g'.sem.kept + g.sem.released + g.sides[c].held
          == g.sem.drawn + g.sem.kept + g'.sem.released + g'.sides[c].held
    ensures Ok(g', initial)
  {
    hide SemOk, WaitsOk, Step;
    HeldUpdate(g.sides, c, g'.sides[c]);
    WaitsFrame(g.sem, g'.sem, g.sides, c, g'.sides[c]);
    StepClosed(g.sem, initial, a);
  }

  lemma EnterKeeps(g: Guarded, initial: nat)
    requires Ok(g, initial)
    ensures Ok(Enter(g), initial)
  {
  }

  lemma InternalSparesAttempts(s: State, a: Action, t: nat)
    requires Internal(s, a) && t < |s.threads| && (s.threads[t].TryAcquire? || s.threads[t].Drain?)
    ensures t < |Step(s, a).threads| && Step(s, a).threads[t] == s.threads[t]
  {
    if a.Advance? {
      if a.t < |s.threads| {
        AdvanceIsLocal(s, a.t, a.hint, t);
      }
    } else {
      hide AdvanceStep;
    }
  }

  lemma InternalThreads(s: State, a: Action)
    requires Internal(s, a)
    ensures |s.threads| <= |Step(s, a).threads|
  {
  }

  lemma QuietKeeps(g: Guarded, initial: nat, a: Action)
    requires Ok(g, initial)
    ensures Ok(Quiet(g, a), initial)
  {
    if Internal(g.sem, a) {
      var s' := Step(g.sem, a);
      hide SemOk, Step;
      InternalStep(g.sem, initial, a);
      InternalThreads(g.sem, a);
      forall t | 0 <= t < |g.sem.threads| && (g.sem.threads[t].TryAcquire? || g.sem.threads[t].Drain?)
        ensures s'.threads[t] == g.sem.threads[t]
      {
        InternalSparesAttempts(g.sem, a, t);
      }
      QuietWaits(g.sem, s', g.sides);
    }
  }

  lemma QuietWaits(s: State, s': State, sides: seq<Side>)
    requires WaitsOk(s, sides) && |s'.futs| == |s.futs| && |s.threads| <= |s'.threads|
    requires forall f :: 0 <= f < |s.futs| ==> Moved(s.futs[f], s'.futs[f])
    requires forall t :: 0 <= t < |s.threads| && (s.threads[t].TryAcquire? || s.threads[t].Drain?) ==>
               s'.threads[t] == s.threads[t]
    ensures WaitsOk(s', sides)
  {
  }

  lemma WaitHere(s: State, sides: seq<Side>, c: nat)
    requires WaitsOk(s, sides) && c < |sides|
    ensures WaitOk(s, sides[c].wait)
  {
  }

  lemma StartKeeps(g: Guarded, initial: nat, c: nat, n: nat)
    requires Ok(g, initial) && Free(g, c) && n <= MAX
    ensures Ok(Start(g, c, n), initial)
  {
    hide SemOk, WaitsOk;
    BooksKeep(g, Start(g, c, n), initial, c, NewAcquire(n));
  }

  lemma ClaimKeeps(g: Guarded, initial: nat, c: nat)
    requires Ok(g, initial) && Ready(g, c)
    ensures Ok(Claim(g, c), initial)
  {
    hide SemOk, WaitsOk, AdvanceStep;
    WaitHere(g.sem, g.sides, c);
    BooksKeep(g, Claim(g, c), initial, c, Keep(g.sides[c].wait.f));
  }

  lemma GiveBackKeeps(g: Guarded, initial: nat, c: nat, t: nat, n: nat)
    requires Ok(g, initial) && CanRelease(g, c, t, n)
    ensures Ok(GiveBack(g, c, t, n), initial)
  {
    hide SemOk, WaitsOk, AdvanceStep;
    WaitHere(g.sem, g.sides, c);
    BooksKeep(g, GiveBack(g, c, t, n), initial, c, BeginRelease(t, n));
  }

  lemma StartTryKeeps(g: Guarded, initial: nat, c: nat, t: nat, n: nat)
    requires Ok(g, initial) && CanTry(g, c, t, n)
    ensures Ok(StartTry(g, c, t, n), initial) && Ok(StartDrain(g, c, t, n), initial)
  {
    hide SemOk, WaitsOk;
    BooksKeep(g, StartTry(g, c, t, n), initial, c, BeginTryAcquire(t, n));
    BooksKeep(g, StartDrain(g, c, t, n), initial, c, BeginDrain(t, n));
  }

  lemma AttemptKeeps(g: Guarded, initial: nat, c: nat, hint: bool)
    requires Ok(g, initial) && Attempts(g, c)
    ensures Ok(Attempt(g, c, hint), initial)
  {
    hide SemOk, WaitsOk, TakeStep, PushStep, ReleaseStep;
    WaitHere(g.sem, g.sides, c);
    var g' := Attempt(g, c, hint);
    assert g.sides[c := g.sides[c]] == g.sides;
    BooksKeep(g, g', initial, c, Advance(g.sides[c].wait.t, hint));
  }

  /**
   A `try_acquire` is still under way, having looked at the count as it is now; or has given up with
   nothing, on a count too small; or has taken all it asked for, which was there.
   */
  lemma TryOutcome(g: Guarded, initial: nat, c: nat, hint: bool)
    requires Ok(g, initial) && Attempts(g, c) && g.sides[c].wait.Trying?
    ensures var side := g.sides[c];
            var g' := Attempt(g, c, hint);
            || (&& !Loses(g, c) && g'.sides == g.sides
                && side.wait.t < |g'.sem.threads|
                && g'.sem.threads[side.wait.t] == TryAcquire(side.wait.n, Some(g.sem.avail)))
            || (Loses(g, c) && g'.sides == g.sides[c := Side(side.held, NoWait)] && g'.sem.avail == g.sem.avail)
            || (&& !Loses(g, c) && g'.sides == g.sides[c := Side(side.held + side.wait.n, NoWait)]
                && side.wait.n <= g.sem.avail && g'.sem.avail == g.sem.avail - side.wait.n)
    ensures Loses(g, c) ==> g.sides[c].wait.n > 0
  {
    hide SemOk, TakeStep, PushStep, ReleaseStep;
    WaitHere(g.sem, g.sides, c);
  }

  lemma AbandonKeeps(g: Guarded, initial: nat, c: nat, t: nat)
    requires Ok(g, initial) && CanAbandon(g, c, t)
    ensures Ok(Abandon(g, c, t), initial)
  {
    hide SemOk, WaitsOk, CancelStep, AdvanceStep;
    WaitHere(g.sem, g.sides, c);
    var f := g.sides[c].wait.f;
    CancelEffect(g.sem, initial, t, f);
    BooksKeep(g, Abandon(g, c, t), initial, c, Cancel(t, f));
  }

  /** Handing on permits moves futures along and changes no ledger. */
  lemma DistributingEffect(s: State, t: nat, n: nat)
    requires QueueOk(s.queue, s.futs) && t < |s.threads|
    ensures var s' := Distributing(s, t, n);
            && LedgerSame(s, s') && |s'.futs| == |s.futs| && |s'.threads| == |s.threads|
            && (forall h :: 0 <= h < |s.futs| ==> Moved(s.futs[h], s'.futs[h]))
            && (forall u :: 0 <= u < |s.threads| && u != t ==> s'.threads[u] == s.threads[u])
  {
    DistributeShape(s.queue, s.futs, n, 0);
    var p := Distribute(s.queue, s.futs, n, 0);
    assert forall h :: 0 <= h < |s.futs| ==> OnlyServed(s.futs[h], p.futs[h]);
    hide QueueOk, Distribute;
    assert Distributing(s, t, n).futs == p.futs;
  }

  ghost predicate CancelledOnly(s: State, s': State, t: nat, f: nat)
    requires f < |s.futs|
  {
    && LedgerSame(s, s') && |s'.futs| == |s.futs| && s'.futs[f].phase.Dropped?
    && |s'.threads| == |s.threads|
    && (forall h :: 0 <= h < |s.futs| && h != f ==> Moved(s.futs[h], s'.futs[h]))
    && (forall u :: 0 <= u < |s.threads| && u != t ==> s'.threads[u] == s.threads[u])
  }

  lemma CancelWaiting(s: State, initial: nat, t: nat, f: nat)
    requires SemOk(s, initial) && f < |s.futs| && t < |s.threads| && s.futs[f].phase.Waiting?
    ensures CancelledOnly(s, CancelStep(s, t, f), t, f)
  {
    assert FutOk(s.futs[f]);
    hide QueueOk, ThreadsOk, Distributing;
    Unqueue(s.queue, s.futs, f);
    DistributingEffect(Unregistered(s, f), t, Got(s.futs[f]));
  }

  /** Cancelling touches one future's record, and hands on permits through one thread. */
  lemma CancelEffect(s: State, initial: nat, t: nat, f: nat)
    requires SemOk(s, initial) && f < |s.futs|
    requires s.futs[f].phase.Fresh?
          || (s.futs[f].phase.Waiting? && t < |s.threads| && s.threads[t].Idle? && s.lock.None?)
    ensures CancelledOnly(s, Step(s, Cancel(t, f)), t, f)
  {
    hide Inv, CancelStep;
    if s.futs[f].phase.Waiting? {
      CancelWaiting(s, initial, t, f);
    }
  }

  lemma AttemptSides(g: Guarded, c: nat, hint: bool)
    requires Attempts(g, c)
    ensures var g' := Attempt(g, c, hint);
            || g'.sides == g.sides
            || (|g'.sides| == |g.sides| && g'.sides == g.sides[c := g'.sides[c]] && g'.sides[c].wait.NoWait?)
  {
  }

  lemma AbandonSpares(g: Guarded, initial: nat, c: nat, t: nat, u: nat)
    requires Ok(g, initial) && CanAbandon(g, c, t) && u != t && IdleThread(g, u)
    ensures IdleThread(Abandon(g, c, t), u)
  {
  }

  /** The central fact: permits held, available, assigned and in flight add up to the semaphore's size. */
  lemma Accounts(g: Guarded, initial: nat)
    requires Ok(g, initial)
    ensures g.sem.avail + Assigned(g.sem.futs) + InFlight(g.sem.threads) + Held(g.sides) == initial
  {
    NothingOwed(g.sem.queue);
  }

  /** When every client has let go and every thread is idle, the semaphore is as it was made. */
  lemma Restored(g: Guarded, initial: nat)
    requires Ok(g, initial)
    requires forall c :: 0 <= c < |g.sides| ==> g.sides[c] == Side(0, NoWait)
    requires forall t :: 0 <= t < |g.sem.threads| ==> g.sem.threads[t].Idle?
    ensures g.sem.avail == initial && g.sem.queue == [] && g.sem.lock.None?
  {
    assert forall f :: 0 <= f < |g.sem.futs| && !g.sem.futs[f].phase.Dropped? ==> OwnedBy(g.sides, f);
    assert forall f :: 0 <= f < |g.sem.futs| ==> g.sem.futs[f].phase.Dropped?;
    Accounts(g, initial);
    AllDropped(g.sem.futs);
    AllIdle(g.sem.threads);
    NoneHeld(g.sides);
  }

  lemma {:induction false} AllDropped(futs: seq<Acquire>)
    requires forall f :: 0 <= f < |futs| ==> futs[f].phase.Dropped?
    ensures Assigned(futs) == 0
  {
    if futs != [] {
      AllDropped(futs[..|futs| - 1]);
    }
  }

  lemma {:induction false} AllIdle(threads: seq<Pc>)
    requires forall t :: 0 <= t < |threads| ==> threads[t].Idle?
    ensures InFlight(threads) == 0
  {
    if threads != [] {
      AllIdle(threads[..|threads| - 1]);
    }
  }

  lemma {:induction false} NoneHeld(sides: seq<Side>)
    requires forall c :: 0 <= c < |sides| ==> sides[c].held == 0
    ensures Held(sides) == 0
  {
    if sides != [] {
      NoneHeld(sides[..|sides| - 1]);
    }
  }

  lemma {:induction false} HeldPair(sides: seq<Side>, c: nat, d: nat)
    requires c < d < |sides|
    ensures sides[c].held + sides[d].held <= Held(sides)
  {
    var n := |sides| - 1;
    if d == n {
      HeldUpdate(sides[..n], c, sides[c]);
    } else {
      HeldPair(sides[..n], c, d);
    }
  }
}
