/** Which guard each operation of the upgradable lock ends with, and when a try succeeds. */
module RwLockOutcomes {
  import opened Options
  import opened Semaphores
  import opened SemaphoreGuards
  import opened RwLockSafety
  import RwLocks

  // ---- From the call to the guard ----

  datatype Errand = Read | Write | UpgradableRead | Upgrade | TryRead | TryWrite | TryUpgradableRead | TryUpgrade

  /** The operation is on its way and has not ended. */
  predicate UnderWay(e: Errand, stage: Stage) {
    match e
    case Read => stage.Reading?
    case Write => stage.WriteReserving? || stage.WriteWaiting? || stage.Writing?
    case UpgradableRead => stage.UpReserving? || stage.UpWaiting?
    case Upgrade => stage.Upgrading? || stage.Writing?
    case TryRead => stage.TryReading?
    case TryWrite => stage.TryWriteReserving? || stage.TryWriteReserved? || stage.TryWriteWaiting? || stage.Writing?
    case TryUpgradableRead => stage.TryUpReserving? || stage.TryUpReserved? || stage.TryUpWaiting?
    case TryUpgrade => stage.TryUpgrading? || stage.Writing?
  }

  /** The guard a successful operation returns. */
  function Won(e: Errand): Stage {
    match e
    case Read | TryRead => RwLocks.Reader
    case UpgradableRead | TryUpgradableRead => RwLocks.Upgradable
    case Write | TryWrite | Upgrade | TryUpgrade => RwLocks.Writer
  }

  /** Where an operation that is cancelled or fails leaves its client: what it held is yet to be dropped, or kept. */
  predicate Lost(e: Errand, stage: Stage) {
    match e
    case Read | TryRead => stage.Idle?
    case Write | TryWrite | UpgradableRead | TryUpgradableRead => stage.Idle? || stage.Unreserving?
    case Upgrade => stage.Dropping?
    case TryUpgrade => stage.Upgradable?
  }

  predicate Tries(e: Errand) {
    e.TryRead? || e.TryWrite? || e.TryUpgradableRead? || e.TryUpgrade?
  }

  /** A waiting operation is lost by being cancelled, a try by finding too few permits, and in no other way. */
  predicate MayLose<T>(e: Errand, l: Lock<T>, a: Move<T>, c: nat) {
    if Tries(e) then a.TryNext? && a.c == c && (Loses(l.res, c) || Loses(l.data, c))
    else a.Cancel? && a.c == c
  }

  function ErrandOf<T>(a: Move<T>): Option<Errand> {
    match a
    case Read(_) => Some(Read)
    case Write(_) => Some(Write)
    case UpgradableRead(_) => Some(UpgradableRead)
    case Upgrade(_) => Some(Upgrade)
    case TryRead(_, _) => Some(TryRead)
    case TryWrite(_, _) => Some(TryWrite)
    case TryUpgradableRead(_, _) => Some(TryUpgradableRead)
    case TryUpgrade(_, _) => Some(TryUpgrade)
    case _ => None
  }

  /** A call sets out on its own errand: from nothing, or, for upgrades, from an upgradable guard. */
  lemma SetsOut<T>(l: Lock<T>, a: Move<T>)
    requires RwLocks.Inv(l) && ErrandOf(a).Some? && a.c < |l.stages|
    requires l.stages[a.c] == if a.Upgrade? || a.TryUpgrade? then RwLocks.Upgradable else RwLocks.Idle
    ensures var l' := RwLocks.Step(l, a);
            |l'.stages| == |l.stages| && (l' == l || UnderWay(ErrandOf(a).value, l'.stages[a.c]))
    ensures !Tries(ErrandOf(a).value) ==> RwLocks.Step(l, a) != l
  {
    hide Ok, RwLocks.ClientsOk;
    Client(l, a.c);
  }

  lemma OthersLeaveIt<T>(l: Lock<T>, a: Move<T>, c: nat)
    requires l.max > 0 && c < |l.stages| && !(RwLocks.ByClient(a) && a.c == c)
    ensures c < |RwLocks.Step(l, a).stages| && RwLocks.Step(l, a).stages[c] == l.stages[c]
  {
    hide RwLocks.Step;
    RwLocks.StepIsLocal(l, a);
  }

  ghost predicate GoesOn<T>(e: Errand, l: Lock<T>, a: Move<T>, l': Lock<T>, c: nat) {
    c < |l'.stages| && (|| UnderWay(e, l'.stages[c])
                        || l'.stages[c] == Won(e)
                        || (Lost(e, l'.stages[c]) && MayLose(e, l, a, c)))
  }

  lemma PollGoesOn<T>(l: Lock<T>, c: nat, e: Errand)
    requires l.max > 0 && c < |l.stages| && UnderWay(e, l.stages[c])
    ensures GoesOn(e, l, RwLocks.Poll(c), RwLocks.PollStep(l, c), c)
  {
    hide Start, Claim;
  }

  lemma TryGoesOn<T>(l: Lock<T>, c: nat, t: nat, hint: bool, e: Errand)
    requires l.max > 0 && c < |l.stages| && UnderWay(e, l.stages[c])
    ensures GoesOn(e, l, RwLocks.TryNext(c, t, hint), RwLocks.TryStep(l, c, t, hint), c)
  {
    hide StartTry, Attempt, Loses;
  }

  lemma CancelGoesOn<T>(l: Lock<T>, c: nat, t: nat, e: Errand)
    requires l.max > 0 && c < |l.stages| && UnderWay(e, l.stages[c])
    ensures GoesOn(e, l, RwLocks.Cancel(c, t), RwLocks.CancelStep(l, c, t), c)
  {
    hide Abandon;
  }

  lemma DropGoesOn<T>(l: Lock<T>, a: Move<T>, c: nat, e: Errand)
    requires l.max > 0 && c < |l.stages| && UnderWay(e, l.stages[c])
    requires (a.DropGuard? || a.DropReservation? || a.Downgrade?) && a.c == c
    ensures GoesOn(e, l, a, RwLocks.DropStep(l, a), c)
  {
    hide GiveBack;
  }

  /** Whatever happens, an operation under way goes on, ends with its guard, or is lost where it may be. */
  lemma StepOfErrand<T>(l: Lock<T>, a: Move<T>, c: nat, e: Errand)
    requires l.max > 0 && c < |l.stages| && UnderWay(e, l.stages[c])
    ensures GoesOn(e, l, a, RwLocks.Step(l, a), c)
  {
    hide RwLocks.PollStep, RwLocks.TryStep, RwLocks.CancelStep, RwLocks.DropStep, Won, Lost, MayLose;
    if !RwLocks.ByClient(a) || a.c != c {
      OthersLeaveIt(l, a, c);
    } else {
      match a
      case Poll(_) => PollGoesOn(l, c, e);
      case TryNext(_, t, hint) => TryGoesOn(l, c, t, hint, e);
      case Cancel(_, t) => CancelGoesOn(l, c, t, e);
      case DropGuard(_, _) => DropGoesOn(l, a, c, e);
      case DropReservation(_, _) => DropGoesOn(l, a, c, e);
      case Downgrade(_, _) => DropGoesOn(l, a, c, e);
      case _ =>
    }
  }

  lemma {:induction false} RunLast<T>(l: Lock<T>, moves: seq<Move<T>>)
    requires l.max > 0 && moves != []
    ensures RwLocks.Run(l, moves) == RwLocks.Step(RwLocks.Run(l, moves[..|moves| - 1]), moves[|moves| - 1])
    decreases |moves|
  {
    if |moves| > 1 {
      hide RwLocks.Step;
      var rest := moves[1..];
      RunLast(RwLocks.Step(l, moves[0]), rest);
      assert rest[..|rest| - 1] == moves[..|moves| - 1][1..];
    }
  }

  /** With the move at `k` the operation ends: with its guard, or lost. */
  ghost predicate EndsAt<T>(e: Errand, l: Lock<T>, moves: seq<Move<T>>, c: nat, k: nat)
    requires l.max > 0 && k < |moves|
  {
    var before := RwLocks.Run(l, moves[..k]);
    var after := RwLocks.Step(before, moves[k]);
    && c < |before.stages| && UnderWay(e, before.stages[c])
    && c < |after.stages| && (|| after.stages[c] == Won(e)
                              || (Lost(e, after.stages[c]) && MayLose(e, before, moves[k], c)))
  }

  /**
   In every run: an operation that was begun is under way, or has ended - with the guard it is for, or
   because a waiting one was cancelled or a try found too few permits. A failed `try_upgrade` leaves the
   upgradable guard; every other failure leaves nothing but, at most, a reservation to be dropped.
   */
  lemma {:induction false} EndsAsItShould<T>(l: Lock<T>, moves: seq<Move<T>>, c: nat, e: Errand)
    requires l.max > 0 && c < |l.stages| && UnderWay(e, l.stages[c])
    ensures || (exists k :: 0 <= k < |moves| && EndsAt(e, l, moves, c, k))
            || (c < |RwLocks.Run(l, moves).stages| && UnderWay(e, RwLocks.Run(l, moves).stages[c]))
  {
    if moves != [] {
      hide RwLocks.Step, UnderWay, Won, Lost, MayLose;
      var before, a := moves[..|moves| - 1], moves[|moves| - 1];
      EndsAsItShould(l, before, c, e);
      RunLast(l, moves);
      if k :| 0 <= k < |before| && EndsAt(e, l, before, c, k) {
        assert before[..k] == moves[..k];
        assert EndsAt(e, l, moves, c, k);
      } else {
        StepOfErrand(RwLocks.Run(l, before), a, c, e);
        assert !UnderWay(e, RwLocks.Run(l, moves).stages[c]) ==> EndsAt(e, l, moves, c, |before|);
      }
    }
  }

  /** What each guard owns: a read guard one data permit, an upgradable guard the reservation too, a writer all. */
  lemma GuardsOwn<T>(l: Lock<T>, c: nat)
    requires RwLocks.Inv(l) && c < |l.stages|
    ensures l.stages[c].Reader? ==> l.data.sides[c] == Side(1, NoWait) && l.res.sides[c] == Side(0, NoWait)
    ensures l.stages[c].Upgradable? ==> l.data.sides[c] == Side(1, NoWait) && l.res.sides[c] == Side(1, NoWait)
    ensures l.stages[c].Writer? ==> l.data.sides[c] == Side(l.max, NoWait) && l.res.sides[c] == Side(0, NoWait)
    ensures l.stages[c].Idle? ==> l.data.sides[c] == Side(0, NoWait) && l.res.sides[c] == Side(0, NoWait)
  {
    hide Ok;
    Client(l, c);
  }

  // ---- When a try succeeds ----

  /** A `try_acquire` of client `c` has been begun, and has seen nothing yet. */
  predicate Begun(g: Guarded, c: nat) {
    Attempts(g, c) && g.sides[c].wait.Trying? && g.sem.threads[g.sides[c].wait.t] == TryAcquire(g.sides[c].wait.n, None)
  }

  /** Two steps of it, undisturbed, decide: it gets all it asks for exactly if that much is available. */
  lemma TwoAttempts(g: Guarded, c: nat)
    requires Begun(g, c)
    ensures var side := g.sides[c];
            var mid := Attempt(g, c, false);
            && Attempts(mid, c) && mid.sides == g.sides && !Loses(g, c)
            && (Loses(mid, c) <==> side.wait.n > g.sem.avail)
            && Attempt(mid, c, false).sides ==
               g.sides[c := Side(side.held + (if side.wait.n <= g.sem.avail then side.wait.n else 0), NoWait)]
  {
    hide TakeStep, PushStep, ReleaseStep;
  }

  lemma DataAttempts<T>(l: Lock<T>, c: nat, won: Stage, lost: Stage)
    requires c < |l.stages| && Begun(l.data, c)
    ensures var mid := RwLocks.AttemptData(l, c, false, won, lost);
            && mid.stages == l.stages
            && RwLocks.AttemptData(mid, c, false, won, lost).stages ==
               l.stages[c := if l.data.sides[c].wait.n <= l.data.sem.avail then won else lost]
  {
    hide Attempt, Loses;
    TwoAttempts(l.data, c);
  }

  lemma ResAttempts<T>(l: Lock<T>, c: nat, won: Stage)
    requires c < |l.stages| && Begun(l.res, c)
    ensures var mid := RwLocks.AttemptRes(l, c, false, won);
            && mid.stages == l.stages
            && RwLocks.AttemptRes(mid, c, false, won).stages ==
               l.stages[c := if l.res.sides[c].wait.n <= l.res.sem.avail then won else RwLocks.Idle]
  {
    hide Attempt, Loses;
    TwoAttempts(l.res, c);
  }

  function Twice<T>(l: Lock<T>, c: nat, t: nat): Lock<T>
    requires l.max > 0
  {
    RwLocks.Step(RwLocks.Step(l, RwLocks.TryNext(c, t, false)), RwLocks.TryNext(c, t, false))
  }

  /** The stages at which a try on the data semaphore is under way, with what follows. */
  function DataWon(stage: Stage): Stage {
    match stage
    case TryReading => RwLocks.Reader
    case TryUpWaiting => RwLocks.Upgradable
    case _ => RwLocks.Writing
  }

  function DataLost(stage: Stage): Stage {
    match stage
    case TryReading => RwLocks.Idle
    case TryUpgrading => RwLocks.Upgradable
    case _ => RwLocks.Unreserving
  }

  predicate TriesData(stage: Stage) {
    stage.TryReading? || stage.TryUpWaiting? || stage.TryWriteWaiting? || stage.TryUpgrading?
  }

  predicate TriesRes(stage: Stage) {
    stage.TryWriteReserving? || stage.TryUpReserving?
  }

  lemma DataStepIs<T>(l: Lock<T>, c: nat, t: nat)
    requires l.max > 0 && c < |l.stages| && TriesData(l.stages[c])
    ensures RwLocks.Step(l, RwLocks.TryNext(c, t, false))
         == RwLocks.AttemptData(l, c, false, DataWon(l.stages[c]), DataLost(l.stages[c]))
  {
    hide RwLocks.AttemptData, RwLocks.AttemptRes, RwLocks.TryData;
  }

  lemma ResStepIs<T>(l: Lock<T>, c: nat, t: nat)
    requires l.max > 0 && c < |l.stages| && TriesRes(l.stages[c])
    ensures RwLocks.Step(l, RwLocks.TryNext(c, t, false))
         == RwLocks.AttemptRes(l, c, false, if l.stages[c].TryUpReserving? then RwLocks.TryUpReserved
                                            else RwLocks.TryWriteReserved)
  {
    hide RwLocks.AttemptData, RwLocks.AttemptRes, RwLocks.TryData;
  }

  lemma DataTwice<T>(l: Lock<T>, c: nat, t: nat)
    requires l.max > 0 && c < |l.stages| && TriesData(l.stages[c]) && Begun(l.data, c)
    ensures Twice(l, c, t).stages ==
            l.stages[c := if l.data.sides[c].wait.n <= l.data.sem.avail then DataWon(l.stages[c])
                          else DataLost(l.stages[c])]
  {
    hide RwLocks.Step, RwLocks.AttemptData, Begun, DataWon, DataLost;
    DataStepIs(l, c, t);
    DataAttempts(l, c, DataWon(l.stages[c]), DataLost(l.stages[c]));
    DataStepIs(RwLocks.Step(l, RwLocks.TryNext(c, t, false)), c, t);
  }

  lemma ResTwice<T>(l: Lock<T>, c: nat, t: nat)
    requires l.max > 0 && c < |l.stages| && TriesRes(l.stages[c]) && Begun(l.res, c)
    ensures Twice(l, c, t).data == l.data
    ensures Twice(l, c, t).stages ==
            l.stages[c := if l.res.sides[c].wait.n > l.res.sem.avail then RwLocks.Idle
                          else if l.stages[c].TryUpReserving? then RwLocks.TryUpReserved
                          else RwLocks.TryWriteReserved]
  {
    hide RwLocks.Step, RwLocks.AttemptRes, Begun;
    var won := if l.stages[c].TryUpReserving? then RwLocks.TryUpReserved else RwLocks.TryWriteReserved;
    ResStepIs(l, c, t);
    ResAttempts(l, c, won);
    ResSparesData(l, c, won);
    var mid := RwLocks.Step(l, RwLocks.TryNext(c, t, false));
    ResStepIs(mid, c, t);
    ResSparesData(mid, c, won);
  }

  lemma ResSparesData<T>(l: Lock<T>, c: nat, won: Stage)
    requires c < |l.stages|
    ensures RwLocks.AttemptRes(l, c, false, won).data == l.data
  {
  }

  /** A try on the data semaphore is begun, on an idle thread. */
  lemma BeginsData<T>(l: Lock<T>, a: Move<T>) returns (l': Lock<T>)
    requires RwLocks.Inv(l) && (a.TryRead? || a.TryUpgrade? || a.TryNext?)
    requires a.c < |l.stages| && IdleThread(l.data, a.t)
    requires a.TryRead? ==> l.stages[a.c].Idle?
    requires a.TryUpgrade? ==> l.stages[a.c].Upgradable?
    requires a.TryNext? ==> l.stages[a.c].TryWriteReserved? || l.stages[a.c].TryUpReserved?
    ensures l.max > 0 && l' == RwLocks.Step(l, a) && l'.max == l.max
    ensures Begun(l'.data, a.c) && l'.data.sem.avail == l.data.sem.avail
    ensures l'.data.sides[a.c].wait.n ==
            if a.TryUpgrade? then l.max - 1 else if l.stages[a.c].TryWriteReserved? then l.max else 1
    ensures l'.stages == l.stages[a.c := if a.TryUpgrade? then RwLocks.TryUpgrading
                                         else if l.stages[a.c].TryWriteReserved? then RwLocks.TryWriteWaiting
                                         else if l.stages[a.c].TryUpReserved? then RwLocks.TryUpWaiting
                                         else RwLocks.TryReading]
  {
    hide Ok, RwLocks.ClientsOk;
    Client(l, a.c);
    l' := RwLocks.Step(l, a);
  }

  lemma BeginsRes<T>(l: Lock<T>, a: Move<T>) returns (l': Lock<T>)
    requires RwLocks.Inv(l) && (a.TryWrite? || a.TryUpgradableRead?) && a.c < |l.stages| && IdleThread(l.res, a.t)
    requires l.stages[a.c].Idle?
    ensures l.max > 0 && l' == RwLocks.Step(l, a) && l'.max == l.max && RwLocks.Inv(l') && l'.data == l.data
    ensures Begun(l'.res, a.c) && l'.res.sides[a.c].wait.n == 1 && l'.res.sem.avail == l.res.sem.avail
    ensures l'.stages == l.stages[a.c := if a.TryWrite? then RwLocks.TryWriteReserving else RwLocks.TryUpReserving]
  {
    hide Ok, RwLocks.ClientsOk;
    Client(l, a.c);
    l' := RwLocks.Step(l, a);
    RwLocks.StepKeeps(l, a);
  }

  /** An undisturbed `try_read` gets a guard exactly if a reader slot is free. */
  lemma TryReadWins<T>(l: Lock<T>, c: nat, t: nat)
    requires RwLocks.Inv(l) && c < |l.stages| && l.stages[c].Idle? && IdleThread(l.data, t)
    ensures Twice(RwLocks.Step(l, RwLocks.TryRead(c, t)), c, t).stages
         == l.stages[c := if l.data.sem.avail >= 1 then RwLocks.Reader else RwLocks.Idle]
  {
    hide RwLocks.Inv, RwLocks.Step, Begun, Twice;
    var l' := BeginsData(l, RwLocks.TryRead(c, t));
    DataTwice(l', c, t);
  }

  /** An undisturbed `try_upgrade` gets write access exactly if all other reader slots are free. */
  lemma TryUpgradeWins<T>(l: Lock<T>, c: nat, t: nat)
    requires RwLocks.Inv(l) && c < |l.stages| && l.stages[c].Upgradable? && IdleThread(l.data, t)
    ensures Twice(RwLocks.Step(l, RwLocks.TryUpgrade(c, t)), c, t).stages
         == l.stages[c := if l.data.sem.avail >= l.max - 1 then RwLocks.Writing else RwLocks.Upgradable]
  {
    hide RwLocks.Inv, RwLocks.Step, Begun, Twice;
    var l' := BeginsData(l, RwLocks.TryUpgrade(c, t));
    DataTwice(l', c, t);
  }

  /** The reservation first, on one thread, then the data permits, on another. */
  function BothTried<T>(l: Lock<T>, a: Move<T>, t: nat, u: nat): Lock<T>
    requires l.max > 0 && RwLocks.ByClient(a)
  {
    Twice(RwLocks.Step(Twice(RwLocks.Step(l, a), a.c, t), RwLocks.TryNext(a.c, u, false)), a.c, u)
  }

  /**
   An undisturbed `try_write` gets write access exactly if the reservation and every reader slot are
   free, and an undisturbed `try_upgradable_read` its guard exactly if the reservation and one slot are.
   A try that has the reservation and then fails has it to drop; one without it has nothing.
   */
  lemma TryReservedWins<T>(l: Lock<T>, a: Move<T>, u: nat)
    requires RwLocks.Inv(l) && (a.TryWrite? || a.TryUpgradableRead?) && a.c < |l.stages| && l.stages[a.c].Idle?
    requires IdleThread(l.res, a.t) && IdleThread(l.data, u)
    ensures BothTried(l, a, a.t, u).stages ==
            l.stages[a.c := if l.res.sem.avail < 1 then RwLocks.Idle
                            else if l.data.sem.avail < (if a.TryWrite? then l.max else 1) then RwLocks.Unreserving
                            else if a.TryWrite? then RwLocks.Writing else RwLocks.Upgradable]
  {
    hide RwLocks.Inv, RwLocks.Step, Begun;
    var c := a.c;
    var l1 := BeginsRes(l, a);
    var l2 := Twice(l1, c, a.t);
    RwLocks.StepKeeps(l1, RwLocks.TryNext(c, a.t, false));
    RwLocks.StepKeeps(RwLocks.Step(l1, RwLocks.TryNext(c, a.t, false)), RwLocks.TryNext(c, a.t, false));
    ResTwice(l1, c, a.t);
    hide Twice;
    if l2.stages[c].Idle? {
      IdleStays(l2, c, u);
      IdleStays(RwLocks.Step(l2, RwLocks.TryNext(c, u, false)), c, u);
      IdleTwice(l2, c, u);
    } else {
      var l3 := BeginsData(l2, RwLocks.TryNext(c, u, false));
      DataTwice(l3, c, u);
    }
  }

  lemma IdleStays<T>(l: Lock<T>, c: nat, t: nat)
    requires l.max > 0 && c < |l.stages| && l.stages[c].Idle?
    ensures RwLocks.Step(l, RwLocks.TryNext(c, t, false)) == l
  {
  }

  lemma IdleTwice<T>(l: Lock<T>, c: nat, t: nat)
    requires l.max > 0 && c < |l.stages| && l.stages[c].Idle?
    ensures Twice(l, c, t) == l
  {
    hide RwLocks.Step;
    IdleStays(l, c, t);
  }

  /** On a lock that nobody uses, every try succeeds. */
  lemma FreeLockIsHad<T>(l: Lock<T>, c: nat, t: nat, u: nat)
    requires RwLocks.Inv(l) && c < |l.stages| && t < |l.res.sem.threads| && u < |l.data.sem.threads|
    requires forall d :: 0 <= d < |l.stages| ==> l.stages[d].Idle?
    requires forall v :: 0 <= v < |l.res.sem.threads| ==> l.res.sem.threads[v].Idle?
    requires forall v :: 0 <= v < |l.data.sem.threads| ==> l.data.sem.threads[v].Idle?
    ensures Twice(RwLocks.Step(l, RwLocks.TryRead(c, u)), c, u).stages == l.stages[c := RwLocks.Reader]
    ensures BothTried(l, RwLocks.TryWrite(c, t), t, u).stages == l.stages[c := RwLocks.Writing]
    ensures BothTried(l, RwLocks.TryUpgradableRead(c, t), t, u).stages == l.stages[c := RwLocks.Upgradable]
  {
    assert l.max > 0;
    hide RwLocks.Inv, RwLocks.Step, Twice, BothTried;
    BothRestored(l);
    TryReadWins(l, c, u);
    TryReservedWins(l, RwLocks.TryWrite(c, t), u);
    TryReservedWins(l, RwLocks.TryUpgradableRead(c, t), u);
  }

  // ---- What completes, and what guards do ----

  /** Where a poll takes an operation whose acquisition has been granted. */
  function Next(stage: Stage): Stage {
    match stage
    case Reading => RwLocks.Reader
    case WriteReserving => RwLocks.WriteWaiting
    case UpReserving => RwLocks.UpWaiting
    case UpWaiting => RwLocks.Upgradable
    case WriteWaiting | Upgrading => RwLocks.Writing
    case _ => stage
  }

  /** A waiting operation goes on with the first poll after its permits have been granted, and not before. */
  lemma GrantedGoesOn<T>(l: Lock<T>, c: nat)
    requires RwLocks.Inv(l) && c < |l.stages| && Pending(l.stages[c])
    ensures var reserving := l.stages[c].WriteReserving? || l.stages[c].UpReserving?;
            RwLocks.Step(l, RwLocks.Poll(c)).stages ==
            if Ready(if reserving then l.res else l.data, c) then l.stages[c := Next(l.stages[c])] else l.stages
  {
    hide Ok, RwLocks.ClientsOk, Claim, Start;
    Client(l, c);
  }

  /** Where dropping or downgrading takes a guard; what follows a reservation to be dropped. */
  function Dropped(stage: Stage): Stage {
    match stage
    case Upgradable | Dropping => RwLocks.Unreserving
    case Reader | Writer => RwLocks.Idle
    case _ => stage
  }

  /** On a thread that is free to run it, a destructor takes its guard or its reservation away. */
  lemma DropsTakeEffect<T>(l: Lock<T>, c: nat, t: nat)
    requires RwLocks.Inv(l) && c < |l.stages|
    ensures IdleThread(l.data, t) ==>
              RwLocks.Step(l, RwLocks.DropGuard(c, t)).stages == l.stages[c := Dropped(l.stages[c])]
    ensures IdleThread(l.res, t) && l.stages[c].Unreserving? ==>
              RwLocks.Step(l, RwLocks.DropReservation(c, t)).stages == l.stages[c := RwLocks.Idle]
    ensures IdleThread(l.res, t) && l.stages[c].Writing? ==>
              RwLocks.Step(l, RwLocks.DropReservation(c, t)).stages == l.stages[c := RwLocks.Writer]
  {
    hide Ok, RwLocks.ClientsOk, GiveBack;
    Client(l, c);
    assert l.stages[c := l.stages[c]] == l.stages;
  }

  lemma DowngradesToRead<T>(l: Lock<T>, c: nat, t: nat)
    requires RwLocks.Inv(l) && c < |l.stages|
    requires (IdleThread(l.data, t) && l.stages[c].Writer?) || (IdleThread(l.res, t) && l.stages[c].Upgradable?)
    ensures RwLocks.Step(l, RwLocks.Downgrade(c, t)).stages == l.stages[c := RwLocks.Reader]
  {
    hide Ok, RwLocks.ClientsOk, GiveBack;
    Client(l, c);
  }

  /** A writer's store is what everyone reads from then on; nobody else's does anything. */
  lemma WritersStore<T>(l: Lock<T>, c: nat, v: T)
    requires l.max > 0
    ensures RwLocks.Step(l, RwLocks.Store(c, v))
         == if c < |l.stages| && l.stages[c].Writer? then l.(value := v) else l
  {
  }
}
