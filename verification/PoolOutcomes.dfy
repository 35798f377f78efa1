/** What `replenish_to` and `get` achieve for their callers. */
module PoolOutcomes {
  import opened Options
  import Semaphores
  import SemaphoreSafety
  import SemaphoreClients
  import opened SemaphoreGuards
  import opened Pools
  import opened PoolSafety

  // ---- How much a replenishment creates ----

  /** Permits in other hands: held by other clients, assigned to their requests, or on their way back. */
  function Elsewhere<T>(p: Pool<T>, c: nat): int
    requires c < |p.g.sides|
  {
    Held(p.g.sides) - p.g.sides[c].held
    + SemaphoreSafety.Assigned(p.g.sem.futs) + SemaphoreSafety.InFlight(p.g.sem.threads)
  }

  /** `n` creations stay within the reservation, the target, and the room that others leave. */
  predicate Affordable<T>(p: Pool<T>, c: nat, target: nat, n: nat)
    requires c < |p.g.sides|
  {
    n <= p.g.sides[c].held && |p.idle| + n <= target && |p.idle| + n + Elsewhere(p, c) <= p.config.max
  }

  /** The plan is the most that can be afforded: nothing beyond it can, and all of it, unless it is nothing. */
  lemma PlanIsMost<T>(p: Pool<T>, c: nat)
    requires Inv(p) && c < |p.clients| && p.clients[c].Reserved?
    ensures c < |p.g.sides| && PlanStep(p, c).clients[c].Planned?
    ensures var n := PlanStep(p, c).clients[c].n;
            && (n > 0 ==> Affordable(p, c, p.clients[c].target, n))
            && (forall more :: more > n ==> !Affordable(p, c, p.clients[c].target, more))
  {
    hide Ok, Tracked, Bounded;
    assert Fits(p.clients[c], p.g.sides[c]);
    Accounts(p.g, p.config.max);
    HeldUpdate(p.g.sides, c, Side(0, NoWait));
  }

  // ---- A replenishment that nobody disturbs ----

  /** A step of the replenishment itself, with every creation a success, or of the semaphore. */
  predicate OwnAction<T>(p: Pool<T>, a: Action<T>, c: nat) {
    match a
    case SemStep(_) => true
    case DrainStep(d, _) => d == c
    case Plan(d) => d == c
    case Trim(d, _) => d == c
    case Store(d, _) => d == c
    case ReleaseOne(d, _) => d == c
    case DropReservation(d, _) => d == c && c < |p.clients| && p.clients[c] == Filling(0)
    case _ => false
  }

  ghost predicate Undisturbed<T>(p: Pool<T>, actions: seq<Action<T>>, c: nat)
    decreases |actions|
  {
    actions == [] || (OwnAction(p, actions[0], c) && Undisturbed(Step(p, actions[0]), actions[1..], c))
  }

  function Max(a: nat, b: nat): nat {
    if a < b then b else a
  }

  /** The replenishment is under way and has not made its plan. */
  predicate Early<T>(client: Client<T>) {
    client.Reserving? || client.Reserved?
  }

  /** Only client `c` is at the pool, and until its plan it can see all the permits. */
  ghost predicate Quiescent<T>(p: Pool<T>, c: nat)
    requires c < |p.clients| && c < |p.g.sides|
  {
    && (forall d :: 0 <= d < |p.clients| && d != c ==> p.clients[d].Gone?)
    && (Early(p.clients[c]) ==>
          && (forall f :: 0 <= f < |p.g.sem.futs| ==> p.g.sem.futs[f].phase.Dropped?)
          && (forall t :: 0 <= t < |p.g.sem.threads| ==>
                p.g.sem.threads[t].Idle? || UsesThread(p.g.sides[c].wait, t)))
  }

  /** How far the replenishment has come towards `goal` idle objects, having found `before`. */
  ghost predicate OnTheWay<T>(p: Pool<T>, c: nat, before: nat, target: nat) {
    && c < |p.clients| && c < |p.g.sides| && target <= p.config.max
    && match p.clients[c]
       case Reserving(n) => n == target && |p.idle| == before
       case Reserved(n) => n == target && |p.idle| == before && p.g.sides[c].held == target
       case Planned(n) => |p.idle| == before && before + n == Max(before, target)
       case Filling(n) => |p.idle| + n == Max(before, target)
       case Stored(n) => |p.idle| + n == Max(before, target)
       case Gone => |p.idle| == Max(before, target)
       case _ => false
  }

  lemma {:induction false} NothingInFlight(threads: seq<Semaphores.Pc>)
    requires forall t :: 0 <= t < |threads| ==> threads[t].Idle? || threads[t].Drain?
    ensures SemaphoreSafety.InFlight(threads) == 0
  {
    if threads != [] {
      NothingInFlight(threads[..|threads| - 1]);
    }
  }

  lemma {:induction false} OnlyHeldBy(sides: seq<Side>, c: nat)
    requires c < |sides| && forall d :: 0 <= d < |sides| && d != c ==> sides[d].held == 0
    ensures Held(sides) == sides[c].held
  {
    var n := |sides| - 1;
    if c < n {
      OnlyHeldBy(sides[..n], c);
    } else {
      NoneHeld(sides[..n]);
    }
  }

  /** What the replenishment does not hold is there to be had. */
  lemma AllInSight<T>(p: Pool<T>, c: nat)
    requires Inv(p) && c < |p.clients| && c < |p.g.sides| && Quiescent(p, c) && Early(p.clients[c])
    ensures p.g.sem.avail + p.g.sides[c].held == p.config.max
  {
    forall d | 0 <= d < |p.g.sides| && d != c
      ensures p.g.sides[d].held == 0
    {
      assert Fits(p.clients[d], p.g.sides[d]);
    }
    OnlyHeldBy(p.g.sides, c);
    assert Fits(p.clients[c], p.g.sides[c]) && WaitOk(p.g.sem, p.g.sides[c].wait);
    NothingInFlight(p.g.sem.threads);
    AllDropped(p.g.sem.futs);
    Accounts(p.g, p.config.max);
  }

  lemma PlanGoesOn<T>(p: Pool<T>, c: nat, before: nat, target: nat)
    requires Inv(p) && OnTheWay(p, c, before, target) && Quiescent(p, c) && p.clients[c].Reserved?
    ensures OnTheWay(PlanStep(p, c), c, before, target)
    ensures Quiescent(PlanStep(p, c), c)
  {
    hide Ok, Tracked, Bounded;
    AllInSight(p, c);
  }

  lemma DrainGoesOn<T>(p: Pool<T>, c: nat, hint: bool, before: nat, target: nat)
    requires Inv(p) && OnTheWay(p, c, before, target) && Quiescent(p, c) && p.clients[c].Reserving?
    ensures OnTheWay(ReservingStep(p, c, hint), c, before, target)
    ensures Quiescent(ReservingStep(p, c, hint), c)
  {
    hide Inv, Quiescent, Attempt;
    AllInSight(p, c);
    DrainMoves(p, c, hint);
    OthersWait(p, c, hint);
  }

  /** The drain goes on, or takes all that was asked for. */
  lemma DrainMoves<T>(p: Pool<T>, c: nat, hint: bool)
    requires Inv(p) && c < |p.clients| && c < |p.g.sides| && p.clients[c].Reserving?
    requires p.g.sem.avail + p.g.sides[c].held == p.config.max && p.clients[c].target <= p.config.max
    ensures Attempts(p.g, c) && p.g.sides[c].held == 0
    ensures var g := Attempt(p.g, c, hint);
            g.sides == p.g.sides || g.sides == p.g.sides[c := Side(p.clients[c].target, NoWait)]
  {
    hide SemaphoreClients.SemOk, Tracked, Bounded;
    assert Fits(p.clients[c], p.g.sides[c]) && WaitOk(p.g.sem, p.g.sides[c].wait);
  }

  lemma OthersWait<T>(p: Pool<T>, c: nat, hint: bool)
    requires Inv(p) && c < |p.clients| && c < |p.g.sides| && p.clients[c].Reserving? && Quiescent(p, c)
    ensures c < |ReservingStep(p, c, hint).clients| && c < |ReservingStep(p, c, hint).g.sides|
    ensures Quiescent(ReservingStep(p, c, hint), c)
  {
    hide SemaphoreClients.SemOk, Tracked, Bounded;
    assert Fits(p.clients[c], p.g.sides[c]) && WaitOk(p.g.sem, p.g.sides[c].wait);
  }

  /** With nothing in hand the semaphore's threads have nothing to do. */
  lemma SemGoesOn<T>(p: Pool<T>, c: nat, b: Semaphores.Action, before: nat, target: nat)
    requires Inv(p) && OnTheWay(p, c, before, target) && Quiescent(p, c)
    ensures OnTheWay(Step(p, SemStep(b)), c, before, target) && Quiescent(Step(p, SemStep(b)), c)
  {
    hide Ok, Tracked, Bounded;
    if Early(p.clients[c]) {
      assert Fits(p.clients[c], p.g.sides[c]);
      EarlySemStep(p, c, b);
    }
  }

  lemma EarlySemStep<T>(p: Pool<T>, c: nat, b: Semaphores.Action)
    requires Inv(p) && c < |p.clients| && c < |p.g.sides| && Quiescent(p, c) && Early(p.clients[c])
    ensures Quiet(p.g, b) == p.g || (b.Spawn? && Quiet(p.g, b) == p.g.(sem := Semaphores.Step(p.g.sem, b)))
  {
    hide SemaphoreClients.SemOk, Tracked, Bounded;
    assert Fits(p.clients[c], p.g.sides[c]) && WaitOk(p.g.sem, p.g.sides[c].wait);
  }

  lemma ReleaseGoesOn<T>(p: Pool<T>, c: nat, t: nat, n: nat, client: Client<T>)
    requires c < |p.clients| && c < |p.g.sides|
    ensures var p' := Release(p, c, t, n, client);
            && p'.idle == p.idle && |p'.g.sides| == |p.g.sides|
            && (p'.clients == p.clients || p'.clients == p.clients[c := client])
  {
    hide Semaphores.Step;
  }

  lemma LaterGoesOn<T>(p: Pool<T>, c: nat, a: Action<T>, before: nat, target: nat)
    requires OnTheWay(p, c, before, target) && Quiescent(p, c) && OwnAction(p, a, c)
    requires a.Trim? || a.Store? || a.ReleaseOne? || a.DropReservation?
    ensures OnTheWay(Step(p, a), c, before, target)
    ensures Quiescent(Step(p, a), c)
  {
    hide Release;
    if a.Trim? && p.clients[c].Planned? && p.clients[c].n <= p.g.sides[c].held {
      ReleaseGoesOn(p, c, a.t, p.g.sides[c].held - p.clients[c].n, Filling(p.clients[c].n));
    } else if a.ReleaseOne? && p.clients[c].Stored? {
      ReleaseGoesOn(p, c, a.t, 1, Filling(p.clients[c].n));
    } else if a.DropReservation? {
      ReleaseGoesOn(p, c, a.t, 0, Gone);
    }
  }

  lemma StepGoesOn<T>(p: Pool<T>, c: nat, a: Action<T>, before: nat, target: nat)
    requires Inv(p) && OnTheWay(p, c, before, target) && Quiescent(p, c) && OwnAction(p, a, c)
    ensures OnTheWay(Step(p, a), c, before, target) && Quiescent(Step(p, a), c)
  {
    hide Inv, Quiescent, OnTheWay, ReservingStep, PlanStep;
    OnItsWay(p, c, before, target);
    if a.SemStep? {
      SemGoesOn(p, c, a.a, before, target);
    } else if a.DrainStep? {
      if p.clients[c].Reserving? {
        DrainGoesOn(p, c, a.hint, before, target);
      }
    } else if a.Plan? {
      if p.clients[c].Reserved? {
        PlanGoesOn(p, c, before, target);
      }
    } else {
      LaterGoesOn(p, c, a, before, target);
    }
  }

  lemma OnItsWay<T>(p: Pool<T>, c: nat, before: nat, target: nat)
    requires OnTheWay(p, c, before, target)
    ensures c < |p.clients| && c < |p.g.sides|
  {
  }

  lemma {:induction false} RunGoesOn<T>(p: Pool<T>, c: nat, actions: seq<Action<T>>, before: nat, target: nat)
    requires Inv(p) && OnTheWay(p, c, before, target) && Quiescent(p, c) && Undisturbed(p, actions, c)
    ensures OnTheWay(Run(p, actions), c, before, target)
    decreases |actions|
  {
    if actions != [] {
      hide Inv, Quiescent, OnTheWay, Step;
      StepKeeps(p, actions[0]);
      StepGoesOn(p, c, actions[0], before, target);
      RunGoesOn(Step(p, actions[0]), c, actions[1..], before, target);
    }
  }

  /** Nobody is at the pool and no thread has anything to do. */
  ghost predicate AtRest<T>(p: Pool<T>) {
    && (forall c :: 0 <= c < |p.clients| ==> p.clients[c].Gone?)
    && (forall t :: 0 <= t < |p.g.sem.threads| ==> p.g.sem.threads[t].Idle?)
  }

  lemma RestMeans<T>(p: Pool<T>)
    requires Inv(p) && AtRest(p)
    ensures |p.g.sides| == |p.clients| && 0 < p.config.max <= Semaphores.MAX
    ensures forall d :: 0 <= d < |p.g.sides| ==> p.g.sides[d] == Side(0, NoWait)
    ensures forall f :: 0 <= f < |p.g.sem.futs| ==> p.g.sem.futs[f].phase.Dropped?
  {
    hide SemaphoreClients.SemOk, Tracked, Bounded;
    forall d | 0 <= d < |p.clients|
      ensures p.g.sides[d] == Side(0, NoWait)
    {
      assert Fits(p.clients[d], p.g.sides[d]);
    }
    forall f | 0 <= f < |p.g.sem.futs|
      ensures p.g.sem.futs[f].phase.Dropped?
    {
      assert OwnedBy(p.g.sides, f) || p.g.sem.futs[f].phase.Dropped?;
    }
  }

  lemma SetsOut<T>(p: Pool<T>, c: nat, t: nat, target: nat)
    requires Inv(p) && AtRest(p) && c < |p.clients| && t < |p.g.sem.threads|
    ensures var p' := Step(p, Replenish(c, t, target));
            var target' := if target < p.config.max then target else p.config.max;
            Inv(p') && OnTheWay(p', c, |p.idle|, target') && Quiescent(p', c) && p'.clients[c].Reserving?
  {
    hide Inv;
    StepKeeps(p, Replenish(c, t, target));
    RestMeans(p);
  }

  /**
   A replenishment on a pool at rest that nobody disturbs and whose creations succeed: whenever it is
   over, as many objects are idle as were asked for and fit, or as were there before if those are more.
   */
  lemma ReplenishReaches<T>(p: Pool<T>, c: nat, t: nat, target: nat, actions: seq<Action<T>>)
    requires Inv(p) && AtRest(p) && c < |p.clients| && t < |p.g.sem.threads|
    requires var started := Step(p, Replenish(c, t, target));
             && Undisturbed(started, actions, c)
             && c < |Run(started, actions).clients| && Run(started, actions).clients[c].Gone?
    ensures var idle := |Run(Step(p, Replenish(c, t, target)), actions).idle|;
            idle == Max(|p.idle|, if target < p.config.max then target else p.config.max)
  {
    var target' := if target < p.config.max then target else p.config.max;
    SetsOut(p, c, t, target);
    RunGoesOn(Step(p, Replenish(c, t, target)), c, actions, |p.idle|, target');
  }

  // ---- It can always be brought to its end ----

  /** A new thread, on which something can be released. */
  function Hire<T>(p: Pool<T>): Pool<T> {
    Step(p, SemStep(Semaphores.Spawn))
  }

  lemma HireGoesOn<T>(p: Pool<T>)
    ensures var p' := Hire(p);
            && p'.clients == p.clients && p'.g.sides == p.g.sides
            && |p'.g.sem.threads| == |p.g.sem.threads| + 1 && p'.g.sem.threads[|p.g.sem.threads|].Idle?
  {
  }

  lemma {:induction false} UndisturbedMore<T>(p: Pool<T>, first: seq<Action<T>>, rest: seq<Action<T>>, c: nat)
    requires Undisturbed(p, first, c) && Undisturbed(Run(p, first), rest, c)
    ensures Undisturbed(p, first + rest, c) && Run(p, first + rest) == Run(Run(p, first), rest)
    decreases |first|
  {
    hide Step, OwnAction;
    if first == [] {
      assert first + rest == rest;
    } else {
      UndisturbedMore(Step(p, first[0]), first[1..], rest, c);
      assert (first + rest)[1..] == first[1..] + rest;
    }
  }

  lemma Two<T>(p: Pool<T>, a: Action<T>, b: Action<T>, c: nat)
    ensures Run(p, [a, b]) == Step(Step(p, a), b)
    ensures OwnAction(p, a, c) && OwnAction(Step(p, a), b, c) ==> Undisturbed(p, [a, b], c)
  {
    hide Step;
    assert [a, b][1..] == [b] && [b][1..] == [];
    assert Run(Step(p, a), [b]) == Step(Step(p, a), b);
    assert OwnAction(Step(p, a), b, c) ==> Undisturbed(Step(p, a), [b], c);
  }

  /** One more object is stored, and its permit given back on a new thread. */
  lemma OneMore<T>(p: Pool<T>, c: nat, o: T)
    requires Inv(p) && c < |p.clients| && p.clients[c].Filling? && p.clients[c].n > 0
    ensures var stored := Step(p, Store(c, o));
            var next := Step(Hire(stored), ReleaseOne(c, |p.g.sem.threads|));
            Inv(next) && |next.clients| == |p.clients| && next.clients[c] == Filling(p.clients[c].n - 1)
  {
    hide Ok, Tracked, Bounded, Semaphores.Step;
    assert Fits(p.clients[c], p.g.sides[c]);
    var stored := Step(p, Store(c, o));
    assert stored.clients[c] == Stored(p.clients[c].n - 1) && stored.g == p.g;
    HireGoesOn(stored);
    hide Inv, Step;
    StepKeeps(p, Store(c, o));
    StepKeeps(stored, SemStep(Semaphores.Spawn));
    ReleasesOne(Hire(stored), c, |p.g.sem.threads|);
    StepKeeps(Hire(stored), ReleaseOne(c, |p.g.sem.threads|));
  }

  lemma ReleasesOne<T>(p: Pool<T>, c: nat, t: nat)
    requires Inv(p) && c < |p.clients| && p.clients[c].Stored? && IdleThread(p.g, t)
    ensures var p' := Step(p, ReleaseOne(c, t)); |p'.clients| == |p.clients| && p'.clients[c] == Filling(p.clients[c].n)
  {
    hide Ok, Tracked, Bounded, Semaphores.Step;
    assert Fits(p.clients[c], p.g.sides[c]);
  }

  /** What is left of the reservation is given back on a new thread. */
  lemma LastOne<T>(p: Pool<T>, c: nat)
    requires Inv(p) && c < |p.clients| && p.clients[c] == Filling(0)
    ensures var p' := Step(Hire(p), DropReservation(c, |p.g.sem.threads|)); c < |p'.clients| && p'.clients[c].Gone?
    ensures c < |Hire(p).clients| && Hire(p).clients[c] == Filling(0)
  {
    hide Ok, Tracked, Bounded, Semaphores.Step;
    assert Fits(p.clients[c], p.g.sides[c]);
    HireGoesOn(p);
  }

  /** From its plan on, a replenishment needs only objects to be created. */
  lemma {:induction false} FillingEnds<T>(p: Pool<T>, c: nat, o: T) returns (actions: seq<Action<T>>)
    requires Inv(p) && c < |p.clients| && p.clients[c].Filling?
    ensures Undisturbed(p, actions, c) && c < |Run(p, actions).clients| && Run(p, actions).clients[c].Gone?
    decreases p.clients[c].n
  {
    hide Inv, Step;
    var spawn, t := SemStep(Semaphores.Spawn), |p.g.sem.threads|;
    if p.clients[c].n == 0 {
      LastOne(p, c);
      actions := [spawn, DropReservation(c, t)];
      Two(p, actions[0], actions[1], c);
    } else {
      var stored := Step(p, Store(c, o));
      OneMore(p, c, o);
      var rest := FillingEnds(Step(Hire(stored), ReleaseOne(c, t)), c, o);
      Two(stored, spawn, ReleaseOne(c, t), c);
      UndisturbedMore(stored, [spawn, ReleaseOne(c, t)], rest, c);
      actions := [Store(c, o)] + ([spawn, ReleaseOne(c, t)] + rest);
      assert actions[1..] == [spawn, ReleaseOne(c, t)] + rest;
    }
  }

  lemma Plans<T>(p: Pool<T>, c: nat)
    requires Inv(p) && c < |p.clients| && p.clients[c].Reserved?
    ensures var p' := Step(p, Plan(c)); p'.g == p.g && |p'.clients| == |p.clients| && p'.clients[c].Planned?
  {
    hide Inv, PlanStep;
    PlanIsMost(p, c);
    PlanMovesNothing(p, c);
  }

  lemma PlanMovesNothing<T>(p: Pool<T>, c: nat)
    requires c < |p.clients| && p.clients[c].Reserved? && c < |p.g.sides|
    ensures PlanStep(p, c).g == p.g && |PlanStep(p, c).clients| == |p.clients|
  {
  }

  /** The plan is made, and what it does not need is given back on a new thread. */
  lemma PlanEnds<T>(p: Pool<T>, c: nat)
    requires Inv(p) && c < |p.clients| && p.clients[c].Reserved?
    ensures var planned := Step(p, Plan(c));
            var p' := Step(Hire(planned), Trim(c, |p.g.sem.threads|));
            Inv(p') && c < |p'.clients| && p'.clients[c].Filling?
  {
    hide Inv, Step;
    var planned := Step(p, Plan(c));
    StepKeeps(p, Plan(c));
    Plans(p, c);
    HireGoesOn(planned);
    StepKeeps(planned, SemStep(Semaphores.Spawn));
    Trims(Hire(planned), c, |p.g.sem.threads|);
    StepKeeps(Hire(planned), Trim(c, |p.g.sem.threads|));
  }

  lemma Trims<T>(p: Pool<T>, c: nat, t: nat)
    requires Inv(p) && c < |p.clients| && p.clients[c].Planned? && IdleThread(p.g, t)
    ensures c < |Step(p, Trim(c, t)).clients| && Step(p, Trim(c, t)).clients[c].Filling?
  {
    hide Ok, Tracked, Bounded, Semaphores.Step, Held;
    assert Fits(p.clients[c], p.g.sides[c]);
    HeldUpdate(p.g.sides, c, Side(0, NoWait));
    Accounts(p.g, p.config.max);
  }

  /** The drain has looked at the count, and nothing has changed it since. */
  ghost predicate Looking<T>(p: Pool<T>, c: nat, seen: Option<nat>) {
    && c < |p.clients| && c < |p.g.sides| && p.clients[c].Reserving? && p.g.sides[c].wait.Draining?
    && p.g.sides[c].wait.t < |p.g.sem.threads|
    && p.g.sem.threads[p.g.sides[c].wait.t].Drain? && p.g.sem.threads[p.g.sides[c].wait.t].seen == seen
  }

  lemma DrainTurn<T>(p: Pool<T>, c: nat, seen: Option<nat>)
    requires Looking(p, c, seen) && (seen.Some? ==> seen == Some(p.g.sem.avail))
    ensures var p' := Step(p, DrainStep(c, false));
            || (c < |p'.clients| && (p'.clients[c].Reserved? || p'.clients[c].Gone?))
            || (seen.None? && Looking(p', c, Some(p'.g.sem.avail)))
  {
    var t := p.g.sides[c].wait.t;
    assert Semaphores.AdvanceStep(p.g.sem, t, false) == Semaphores.DirectStep(p.g.sem, t, false);
    hide Semaphores.AdvanceStep;
  }

  lemma Starts<T>(p: Pool<T>, c: nat, t: nat, target: nat)
    requires Inv(p) && AtRest(p) && c < |p.clients| && t < |p.g.sem.threads|
    ensures Looking(Step(p, Replenish(c, t, target)), c, None)
  {
    hide Inv;
    RestMeans(p);
  }

  /** Two steps of an undisturbed drain reserve what there is. */
  lemma DrainEnds<T>(p: Pool<T>, c: nat) returns (actions: seq<Action<T>>)
    requires Inv(p) && Looking(p, c, None)
    ensures Undisturbed(p, actions, c) && Inv(Run(p, actions))
    ensures var p' := Run(p, actions); c < |p'.clients| && (p'.clients[c].Reserved? || p'.clients[c].Gone?)
  {
    hide Inv, Step;
    var a: Action<T> := DrainStep(c, false);
    StepKeeps(p, a);
    StepKeeps(Step(p, a), a);
    DrainTurn(p, c, None);
    Two(p, a, a, c);
    if Looking(Step(p, a), c, Some(Step(p, a).g.sem.avail)) {
      DrainTurn(Step(p, a), c, Some(Step(p, a).g.sem.avail));
      actions := [a, a];
    } else {
      actions := [a];
      assert actions[1..] == [];
    }
  }

  /** A reservation is planned, trimmed and filled. */
  lemma ReservedEnds<T>(p: Pool<T>, c: nat, o: T) returns (actions: seq<Action<T>>)
    requires Inv(p) && c < |p.clients| && p.clients[c].Reserved?
    ensures Undisturbed(p, actions, c) && c < |Run(p, actions).clients| && Run(p, actions).clients[c].Gone?
  {
    hide Inv, Step;
    var spawn, trim := SemStep(Semaphores.Spawn), Trim(c, |p.g.sem.threads|);
    var planned := Step(p, Plan(c));
    PlanEnds(p, c);
    var rest := FillingEnds(Step(Hire(planned), trim), c, o);
    Two(planned, spawn, trim, c);
    UndisturbedMore(planned, [spawn, trim], rest, c);
    actions := [Plan(c)] + ([spawn, trim] + rest);
    assert actions[1..] == [spawn, trim] + rest;
  }

  /**
   And there is such an end: undisturbed, and given objects to store, a replenishment on a pool at rest
   comes to it and leaves the pool as full as was asked for.
   */
  lemma ReplenishEnds<T>(p: Pool<T>, c: nat, t: nat, target: nat, o: T) returns (actions: seq<Action<T>>)
    requires Inv(p) && AtRest(p) && c < |p.clients| && t < |p.g.sem.threads|
    ensures var started := Step(p, Replenish(c, t, target));
            && Undisturbed(started, actions, c)
            && c < |Run(started, actions).clients| && Run(started, actions).clients[c].Gone?
            && |Run(started, actions).idle| == Max(|p.idle|, if target < p.config.max then target else p.config.max)
  {
    hide Inv, Step, Looking;
    var started := Step(p, Replenish(c, t, target));
    StepKeeps(p, Replenish(c, t, target));
    Starts(p, c, t, target);
    actions := DrainEnds(started, c);
    if Run(started, actions).clients[c].Reserved? {
      var rest := ReservedEnds(Run(started, actions), c, o);
      UndisturbedMore(started, actions, rest, c);
      actions := actions + rest;
    }
    ReplenishReaches(p, c, t, target, actions);
  }
}
