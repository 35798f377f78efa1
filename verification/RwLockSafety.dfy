/** What the upgradable lock promises, in every state its clients can bring it to. */
module RwLockSafety {
  import opened Semaphores
  import opened SemaphoreSafety
  import opened SemaphoreGuards
  import RwLocks

  type Lock<T> = RwLocks.Lock<T>
  type Stage = RwLocks.Stage
  type Move<T> = RwLocks.Action<T>

  predicate Writes(stage: Stage) {
    stage.Writing? || stage.Writer?
  }

  /** Readers, upgradable guards and pending upgrades, and writers. */
  predicate Reads(stage: Stage) {
    Writes(stage) || stage.Reader? || stage.Upgradable? || stage.Upgrading? || stage.TryUpgrading? || stage.Dropping?
  }

  function Guards(stages: seq<Stage>): nat {
    if stages == [] then 0
    else Guards(stages[..|stages| - 1]) + if Reads(stages[|stages| - 1]) then 1 else 0
  }

  lemma Client<T>(l: Lock<T>, c: nat)
    requires RwLocks.Inv(l) && c < |l.stages|
    ensures |l.res.sides| == |l.stages| == |l.data.sides|
    ensures RwLocks.ClientOk(l.stages[c], l.max, l.res.sides[c], l.data.sides[c])
    ensures Reads(l.stages[c]) <==> l.data.sides[c].held > 0
    ensures Writes(l.stages[c]) ==> l.data.sides[c].held == l.max
  {
    hide Ok;
  }

  // ---- Exclusion ----

  lemma {:induction false} GuardsHold(stages: seq<Stage>, sides: seq<Side>)
    requires |stages| == |sides|
    requires forall c :: 0 <= c < |stages| && Reads(stages[c]) ==> sides[c].held > 0
    ensures Guards(stages) <= Held(sides)
  {
    if stages != [] {
      GuardsHold(stages[..|stages| - 1], sides[..|sides| - 1]);
    }
  }

  /** Guards that read never exceed the limit. */
  lemma GuardsBounded<T>(l: Lock<T>)
    requires RwLocks.Inv(l)
    ensures Guards(l.stages) <= l.max
  {
    hide Ok;
    forall c | 0 <= c < |l.stages| && Reads(l.stages[c])
      ensures l.data.sides[c].held > 0
    {
      Client(l, c);
    }
    GuardsHold(l.stages, l.data.sides);
    Accounts(l.data, l.max);
  }

  /** A writer excludes every other guard. */
  lemma WriterExcludes<T>(l: Lock<T>, c: nat, d: nat)
    requires RwLocks.Inv(l) && c < |l.stages| && d < |l.stages| && c != d
    ensures !(Writes(l.stages[c]) && Reads(l.stages[d]))
  {
    hide Ok;
    Client(l, c);
    Client(l, d);
    HeldPair(l.data.sides, if c < d then c else d, if c < d then d else c);
    Accounts(l.data, l.max);
  }

  /** The reservation has at most one owner; in particular there is at most one upgradable guard. */
  lemma OneReservation<T>(l: Lock<T>, c: nat, d: nat)
    requires RwLocks.Inv(l) && c < |l.stages| && d < |l.stages| && c != d
    ensures RwLocks.ResHeld(l.stages[c]) == 0 || RwLocks.ResHeld(l.stages[d]) == 0
  {
    hide Ok;
    Client(l, c);
    Client(l, d);
    HeldPair(l.res.sides, if c < d then c else d, if c < d then d else c);
    Accounts(l.res, 1);
  }

  /** The exclusion theorem, for every run. */
  lemma Exclusion<T>(max: nat, value: T, moves: seq<Move<T>>)
    requires 0 < max <= MAX
    ensures var l := RwLocks.Run(RwLocks.Init(max, value), moves);
            && Guards(l.stages) <= max
            && (forall c, d :: 0 <= c < |l.stages| && 0 <= d < |l.stages| && c != d ==>
                  && !(Writes(l.stages[c]) && Reads(l.stages[d]))
                  && !(l.stages[c].Upgradable? && l.stages[d].Upgradable?))
  {
    hide RwLocks.Inv;
    RwLocks.Reachable(max, value, moves);
    var l := RwLocks.Run(RwLocks.Init(max, value), moves);
    GuardsBounded(l);
    forall c, d | 0 <= c < |l.stages| && 0 <= d < |l.stages| && c != d
      ensures !(Writes(l.stages[c]) && Reads(l.stages[d]))
      ensures !(l.stages[c].Upgradable? && l.stages[d].Upgradable?)
    {
      WriterExcludes(l, c, d);
      OneReservation(l, c, d);
    }
  }

  // ---- No writer in between ----

  predicate GivesUp<T>(a: Move<T>, c: nat) {
    (a.Cancel? || a.DropGuard?) && a.c == c
  }

  /** A client that reads goes on reading, whatever happens, until it cancels or drops its guard itself. */
  lemma StillReads<T>(l: Lock<T>, a: Move<T>, c: nat)
    requires RwLocks.Inv(l) && c < |l.stages| && Reads(l.stages[c]) && !GivesUp(a, c)
    ensures c < |RwLocks.Step(l, a).stages| && Reads(RwLocks.Step(l, a).stages[c])
  {
    hide Ok, RwLocks.ClientsOk, Start, StartTry, Claim, Attempt, GiveBack, Abandon;
    RwLocks.StepIsLocal(l, a);
  }

  lemma OnlyWritersStore<T>(l: Lock<T>, a: Move<T>, c: nat)
    requires RwLocks.Inv(l) && c < |l.stages| && Reads(l.stages[c]) && !(a.Store? && a.c == c)
    ensures RwLocks.Step(l, a).value == l.value
  {
    hide Ok, RwLocks.ClientsOk, RwLocks.BeginStep, RwLocks.PollStep, RwLocks.TryStep, RwLocks.CancelStep, RwLocks.DropStep;
    RwLocks.StepIsLocal(l, a);
    if a.Store? && a.c < |l.stages| {
      WriterExcludes(l, a.c, c);
    }
  }

  /**
   From the moment a client can read until it lets go itself - through `upgrade`, `try_upgrade` and
   `downgrade` alike - nobody else gets write access and nobody else changes the value.
   */
  lemma {:induction false} NoWriterInBetween<T>(l: Lock<T>, moves: seq<Move<T>>, c: nat)
    requires RwLocks.Inv(l) && c < |l.stages| && Reads(l.stages[c])
    requires forall i :: 0 <= i < |moves| ==> !GivesUp(moves[i], c)
    ensures var l' := RwLocks.Run(l, moves);
            && c < |l'.stages| && Reads(l'.stages[c])
            && (forall d :: 0 <= d < |l'.stages| && d != c ==> !Writes(l'.stages[d]))
            && ((forall i :: 0 <= i < |moves| ==> !(moves[i].Store? && moves[i].c == c)) ==> l'.value == l.value)
    decreases |moves|
  {
    hide Ok, RwLocks.ClientsOk, RwLocks.Step;
    if moves == [] {
      forall d | 0 <= d < |l.stages| && d != c
        ensures !Writes(l.stages[d])
      {
        WriterExcludes(l, d, c);
      }
    } else {
      RwLocks.StepKeeps(l, moves[0]);
      StillReads(l, moves[0], c);
      if !(moves[0].Store? && moves[0].c == c) {
        OnlyWritersStore(l, moves[0], c);
      }
      NoWriterInBetween(RwLocks.Step(l, moves[0]), moves[1..], c);
    }
  }

  predicate Holds<T>(moves: seq<Move<T>>, c: nat) {
    forall i :: 0 <= i < |moves| ==> !GivesUp(moves[i], c)
  }

  /** The same for every state a run can reach: whoever reads there, no one else writes while they hold on. */
  lemma ReadersKeepWritersOut<T>(max: nat, value: T, before: seq<Move<T>>, after: seq<Move<T>>, c: nat)
    requires 0 < max <= MAX
    ensures var l := RwLocks.Run(RwLocks.Init(max, value), before);
            var l' := RwLocks.Run(l, after);
            c < |l.stages| && Reads(l.stages[c]) && Holds(after, c) ==>
              && c < |l'.stages| && Reads(l'.stages[c])
              && (forall d :: 0 <= d < |l'.stages| && d != c ==> !Writes(l'.stages[d]))
              && ((forall i :: 0 <= i < |after| ==> !(after[i].Store? && after[i].c == c)) ==> l'.value == l.value)
  {
    hide RwLocks.Inv, RwLocks.Step, RwLocks.Run;
    RwLocks.Reachable(max, value, before);
    var l := RwLocks.Run(RwLocks.Init(max, value), before);
    if c < |l.stages| && Reads(l.stages[c]) && Holds(after, c) {
      NoWriterInBetween(l, after, c);
    }
  }

  // ---- The queue in front of an upgrade ----

  /** Client `c` owns the request at position `i` of the data queue. */
  predicate Asks<T>(l: Lock<T>, i: nat, c: nat) {
    && i < |l.data.sem.queue| && l.data.sem.queue[i].Waiter?
    && c < |l.stages| && c < |l.data.sides| && UsesFuture(l.data.sides[c].wait, l.data.sem.queue[i].f)
  }

  ghost predicate OrdinaryRead<T>(l: Lock<T>, i: nat) {
    exists c: nat :: Asks(l, i, c) && l.stages[c].Reading?
  }

  /** Every queued request has an owner; unless it is an ordinary read, the owner holds the reservation. */
  lemma HasOwner<T>(l: Lock<T>, i: nat) returns (c: nat)
    requires RwLocks.Inv(l) && i < |l.data.sem.queue|
    ensures Asks(l, i, c)
    ensures l.stages[c].Reading? || RwLocks.ResHeld(l.stages[c]) == 1
  {
    assert EntryOk(l.data.sem.queue[i], l.data.sem.futs);
    var f := l.data.sem.queue[i].f;
    assert OwnedBy(l.data.sides, f);
    c :| 0 <= c < |l.data.sides| && UsesFuture(l.data.sides[c].wait, f);
    hide Ok;
    Client(l, c);
  }

  /** At most one queued request is not an ordinary read. */
  lemma QueueOfReads<T>(l: Lock<T>, i: nat, j: nat)
    requires RwLocks.Inv(l) && i < j < |l.data.sem.queue|
    ensures OrdinaryRead(l, i) || OrdinaryRead(l, j)
  {
    assert l.data.sem.queue[i] != l.data.sem.queue[j];
    hide Ok, RwLocks.ClientsOk;
    var c := HasOwner(l, i);
    var d := HasOwner(l, j);
    if c != d {
      OneReservation(l, c, d);
    }
  }

  /** A queued upgrade waits behind ordinary reads only, and needs exactly what others still have. */
  lemma UpgradeWaitsForReaders<T>(l: Lock<T>, c: nat, i: nat)
    requires RwLocks.Inv(l) && c < |l.stages| && l.stages[c].Upgrading? && Asks(l, i, c)
    ensures forall j :: 0 <= j < |l.data.sem.queue| && j != i ==> OrdinaryRead(l, j)
    ensures var sem := l.data.sem;
            var mine := sem.futs[sem.queue[i].f];
            && mine.phase.Waiting?
            && mine.phase.needed
               == (Held(l.data.sides) - 1) + (Assigned(sem.futs) - Got(mine)) + InFlight(sem.threads)
  {
    UpgradeNeeds(l, c, i);
    hide Ok, RwLocks.ClientsOk, Held;
    forall j | 0 <= j < |l.data.sem.queue| && j != i
      ensures OrdinaryRead(l, j)
    {
      OthersRead(l, c, i, j);
    }
  }

  lemma UpgradeNeeds<T>(l: Lock<T>, c: nat, i: nat)
    requires RwLocks.Inv(l) && c < |l.stages| && l.stages[c].Upgrading? && Asks(l, i, c)
    ensures var sem := l.data.sem;
            var mine := sem.futs[sem.queue[i].f];
            && mine.phase.Waiting?
            && mine.phase.needed
               == (Held(l.data.sides) - 1) + (Assigned(sem.futs) - Got(mine)) + InFlight(sem.threads)
  {
    var sem := l.data.sem;
    Accounts(l.data, l.max);
    assert EntryOk(sem.queue[i], sem.futs);
    assert FutOk(sem.futs[sem.queue[i].f]);
    assert WaitOk(sem, l.data.sides[c].wait);
    Client(l, c);
  }

  lemma DifferentRequests<T>(l: Lock<T>, i: nat, j: nat)
    requires RwLocks.Inv(l) && i < |l.data.sem.queue| && j < |l.data.sem.queue| && i != j
    ensures l.data.sem.queue[i].Waiter? ==> l.data.sem.queue[i] != l.data.sem.queue[j]
  {
    hide RwLocks.ClientsOk, WaitsOk;
  }

  lemma OthersRead<T>(l: Lock<T>, c: nat, i: nat, j: nat)
    requires RwLocks.Inv(l) && c < |l.stages| && l.stages[c].Upgrading? && Asks(l, i, c)
    requires j < |l.data.sem.queue| && j != i
    ensures OrdinaryRead(l, j)
  {
    hide Ok, RwLocks.ClientsOk;
    DifferentRequests(l, i, j);
    var d := HasOwner(l, j);
    if d != c {
      OneReservation(l, c, d);
    }
  }

  // ---- Cancelling and quiescence ----

  predicate Pending(stage: Stage) {
    || stage.Reading? || stage.WriteReserving? || stage.UpReserving?
    || stage.WriteWaiting? || stage.UpWaiting? || stage.Upgrading?
  }

  /** A client that is done owns nothing, so everything else is accounted for without it. */
  lemma IdleOwnsNothing<T>(l: Lock<T>, c: nat)
    requires RwLocks.Inv(l) && c < |l.stages| && l.stages[c].Idle?
    ensures l.res.sides[c] == Side(0, NoWait) && l.data.sides[c] == Side(0, NoWait)
    ensures l.res.sem.avail + Assigned(l.res.sem.futs) + InFlight(l.res.sem.threads) + Held(l.res.sides) == 1
    ensures l.data.sem.avail + Assigned(l.data.sem.futs) + InFlight(l.data.sem.threads) + Held(l.data.sides) == l.max
  {
    hide Ok;
    Client(l, c);
    Accounts(l.res, 1);
    Accounts(l.data, l.max);
  }

  /** When everybody is done and no step is half-way, both semaphores are as they were made. */
  lemma BothRestored<T>(l: Lock<T>)
    requires RwLocks.Inv(l)
    requires forall c :: 0 <= c < |l.stages| ==> l.stages[c].Idle?
    requires forall t :: 0 <= t < |l.res.sem.threads| ==> l.res.sem.threads[t].Idle?
    requires forall t :: 0 <= t < |l.data.sem.threads| ==> l.data.sem.threads[t].Idle?
    ensures l.res.sem.avail == 1 && l.data.sem.avail == l.max
    ensures l.res.sem.queue == [] && l.data.sem.queue == []
  {
    hide Ok;
    forall c | 0 <= c < |l.stages|
      ensures l.res.sides[c] == Side(0, NoWait) && l.data.sides[c] == Side(0, NoWait)
    {
      Client(l, c);
    }
    Restored(l.res, 1);
    Restored(l.data, l.max);
  }

  /**
   Cancelling a pending operation and running its destructors, on threads that are free to run them,
   takes the client back to where it owns nothing.
   */
  lemma CancelRestores<T>(l: Lock<T>, c: nat, t: nat, u: nat, v: nat)
    requires RwLocks.Inv(l) && c < |l.stages| && Pending(l.stages[c])
    requires CanAbandon(l.res, c, t) || CanAbandon(l.data, c, t)
    requires u != t && IdleThread(l.data, u) && v != t && IdleThread(l.res, v)
    ensures var l' := RwLocks.Run(l, [RwLocks.Cancel(c, t), RwLocks.DropGuard(c, u), RwLocks.DropReservation(c, v)]);
            RwLocks.Inv(l') && c < |l'.stages| && l'.stages[c].Idle?
  {
    hide Ok, RwLocks.ClientsOk, RwLocks.Step, CanAbandon;
    var moves := [RwLocks.Cancel(c, t), RwLocks.DropGuard(c, u), RwLocks.DropReservation(c, v)];
    RwLocks.RunKeeps(l, moves);
    var l1 := CancelLeaves(l, c, t, u, v);
    var l2 := DropLeaves(l1, c, u, v);
    UnreserveLeaves(l2, c, v);
    RunOfThree(l, moves[0], moves[1], moves[2]);
  }

  lemma RunOfThree<T>(l: Lock<T>, a: Move<T>, b: Move<T>, d: Move<T>)
    requires l.max > 0
    ensures RwLocks.Run(l, [a, b, d]) == RwLocks.Step(RwLocks.Step(RwLocks.Step(l, a), b), d)
  {
    hide RwLocks.Step;
    assert [a, b, d][1..] == [b, d] && [b, d][1..] == [d] && [d][1..] == [];
    var l2 := RwLocks.Step(RwLocks.Step(l, a), b);
    assert RwLocks.Run(l2, [d]) == RwLocks.Step(l2, d);
  }

  lemma CancelLeaves<T>(l: Lock<T>, c: nat, t: nat, u: nat, v: nat) returns (l': Lock<T>)
    requires RwLocks.Inv(l) && c < |l.stages| && Pending(l.stages[c])
    requires CanAbandon(l.res, c, t) || CanAbandon(l.data, c, t)
    requires u != t && IdleThread(l.data, u) && v != t && IdleThread(l.res, v)
    ensures l' == RwLocks.Step(l, RwLocks.Cancel(c, t)) && RwLocks.Inv(l')
    ensures c < |l'.stages| && l'.stages[c] in {RwLocks.Idle, RwLocks.Unreserving, RwLocks.Dropping}
    ensures IdleThread(l'.data, u) && IdleThread(l'.res, v)
  {
    hide Ok, RwLocks.ClientsOk, Abandon;
    l' := RwLocks.Step(l, RwLocks.Cancel(c, t));
    RwLocks.StepKeeps(l, RwLocks.Cancel(c, t));
    Client(l, c);
    if CanAbandon(l.data, c, t) {
      AbandonSpares(l.data, l.max, c, t, u);
    } else {
      AbandonSpares(l.res, 1, c, t, v);
    }
  }

  lemma DropLeaves<T>(l: Lock<T>, c: nat, u: nat, v: nat) returns (l': Lock<T>)
    requires RwLocks.Inv(l) && c < |l.stages|
    requires l.stages[c] in {RwLocks.Idle, RwLocks.Unreserving, RwLocks.Dropping}
    requires IdleThread(l.data, u) && IdleThread(l.res, v)
    ensures l' == RwLocks.Step(l, RwLocks.DropGuard(c, u)) && RwLocks.Inv(l')
    ensures c < |l'.stages| && l'.stages[c] in {RwLocks.Idle, RwLocks.Unreserving}
    ensures IdleThread(l'.res, v)
  {
    hide Ok, RwLocks.ClientsOk, GiveBack;
    l' := RwLocks.Step(l, RwLocks.DropGuard(c, u));
    RwLocks.StepKeeps(l, RwLocks.DropGuard(c, u));
    Client(l, c);
  }

  lemma UnreserveLeaves<T>(l: Lock<T>, c: nat, v: nat)
    requires RwLocks.Inv(l) && c < |l.stages| && IdleThread(l.res, v)
    requires l.stages[c] in {RwLocks.Idle, RwLocks.Unreserving}
    ensures var l' := RwLocks.Step(l, RwLocks.DropReservation(c, v));
            c < |l'.stages| && l'.stages[c].Idle?
  {
    hide Ok, RwLocks.ClientsOk, GiveBack;
    Client(l, c);
  }

  /** With a reader limit of one, `try_upgrade` cannot fail. */
  lemma SoleReaderUpgrades<T>(l: Lock<T>, c: nat, t: nat, hint: bool)
    requires RwLocks.Inv(l) && l.max == 1 && c < |l.stages| && l.stages[c].TryUpgrading?
    ensures var l' := RwLocks.Step(l, RwLocks.TryNext(c, t, hint));
            c < |l'.stages| && (l'.stages[c].TryUpgrading? || l'.stages[c].Writing?)
  {
    hide Ok, RwLocks.ClientsOk, Attempt, Loses;
    Client(l, c);
    if Attempts(l.data, c) {
      TryOutcome(l.data, 1, c, hint);
    }
  }
}
