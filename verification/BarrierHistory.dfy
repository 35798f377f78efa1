/** The barrier's answers in terms of the run: which phase it is, who is in it, and when an observation is ready. */
module BarrierHistory {
  import opened Options
  import opened Counts
  import opened Statuses
  import opened Barriers

  // ---- Which phase it is ----

  /** The operation is that of the last one missing: it discharges what `op.i` owes, and nobody else owes anything. */
  predicate LastToCome(b: Barrier, op: Op) {
    && !b.closed && Allowed(b, op)
    && match op
       case Arrive(i) => OthersDone(b, i)
       case Withdraw(i) => b.parties[i] != Batch(0) && OthersDone(b, i)
       case BeginWait(i) => b.parties[i].arrived.None? && OthersDone(b, i)
       case _ => false
  }

  predicate OthersDone(b: Barrier, i: nat) {
    forall j :: 0 <= j < |b.parties| && j != i ==> Done(b.parties[j], b.count)
  }

  lemma SettledWith(b: Barrier, i: nat, p: Party)
    requires i < |b.parties| && Done(p, b.count)
    ensures AllArrived(Put(b, i, p)) <==> OthersDone(b, i)
  {
    var parties' := Put(b, i, p).parties;
    if OthersDone(b, i) {
      forall j | 0 <= j < |parties'|
        ensures Done(parties'[j], b.count)
      {
        assert j != i ==> parties'[j] == b.parties[j];
      }
    } else {
      var j :| 0 <= j < |b.parties| && j != i && !Done(b.parties[j], b.count);
      assert parties'[j] == b.parties[j];
    }
  }

  /** The phase ends with the operation of the last one missing: not before, and not later. */
  lemma EndsWithTheLast(b: Barrier, op: Op)
    ensures Act(b, op).after.count == b.count + One(LastToCome(b, op))
  {
    hide AllArrived, OthersDone, Sizes;
    if (op.Arrive? || op.Withdraw? || op.BeginWait?) && Allowed(b, op) {
      SettledWith(b, op.i, if op.Withdraw? then Gone else Member(Some(b.count), None));
    }
  }

  /** How many operations of the run ended a phase. */
  function PhasesEnded(ops: seq<Op>): nat {
    if ops == [] then 0
    else
      var before := ops[..|ops| - 1];
      PhasesEnded(before) + One(LastToCome(After(INIT, before), ops[|ops| - 1]))
  }

  lemma {:induction false} PhaseIsCounted(ops: seq<Op>)
    ensures After(INIT, ops).count == PhasesEnded(ops)
  {
    if ops != [] {
      hide Act, LastToCome;
      PhaseIsCounted(ops[..|ops| - 1]);
      EndsWithTheLast(After(INIT, ops[..|ops| - 1]), ops[|ops| - 1]);
    }
  }

  /**
   In every run: an arrival and a withdrawal answer with the number of phases that have ended so far, in
   which they count, and `Closed` exactly on a closed phaser; an arrival is on record with that number.
   */
  lemma ArrivalAnswers(ops: seq<Op>, i: nat)
    ensures var b := After(INIT, ops);
            var phase := if b.closed then Answer.Closed else Phase(PhasesEnded(ops));
            && (Idle(b, i) ==> Act(b, Arrive(i)).answer == phase == Act(b, Withdraw(i)).answer)
            && (Idle(b, i) && !b.closed ==> Act(b, Arrive(i)).after.parties[i] == Member(Some(PhasesEnded(ops)), None))
            && (Idle(b, i) ==> Act(b, Withdraw(i)).after.parties == b.parties[i := Gone])
            && (i < |b.parties| && b.parties[i].Batch? ==>
                  Act(b, Withdraw(i)).answer.Ok? && Act(b, Withdraw(i)).after.parties == b.parties[i := Gone])
  {
    PhaseIsCounted(ops);
    hide After, PhasesEnded, AllArrived;
  }

  // ---- Who is in it ----

  /** The phaser is closed exactly once somebody has closed it. */
  lemma {:induction false} ClosedByClose(ops: seq<Op>)
    ensures After(INIT, ops).closed <==> Close in ops
  {
    if ops != [] {
      var before, op := ops[..|ops| - 1], ops[|ops| - 1];
      ClosedByClose(before);
      StepCloses(After(INIT, before), op);
      assert ops == before + [op];
      hide Act;
    }
  }

  lemma StepCloses(b: Barrier, op: Op)
    ensures Act(b, op).after.closed <==> b.closed || op.Close?
  {
    hide AllArrived, Sizes;
  }

  function Newcomers(op: Op): nat {
    match op
    case RegisterOne => 1
    case Register(n) => n
    case _ => 0
  }

  /**
   Registering is turned down on a closed phaser and where the members would no longer fit; otherwise the
   newcomers are members of the phase that is on, missing in it until they arrive, and nothing else changes.
   */
  lemma RegisterAnswers(b: Barrier, op: Op)
    requires op.RegisterOne? || op.Register?
    ensures var t := Act(b, op);
            && t.answer == (if b.closed then Answer.Closed
                            else if Sizes(b.parties) + Newcomers(op) > USIZE_MAX then Overflow else Ok)
            && (t.answer.Ok? ==>
                  && |t.after.parties| == |b.parties| + 1 && t.after.parties[..|b.parties|] == b.parties
                  && t.after == b.(parties := t.after.parties) && t.woken == {}
                  && Sizes(t.after.parties) == Sizes(b.parties) + Newcomers(op)
                  && (Newcomers(op) > 0 ==> !Done(t.after.parties[|b.parties|], b.count)))
            && (!t.answer.Ok? ==> t.after == b && t.woken == {})
  {
    SizesAppend(b.parties, if op.RegisterOne? then Member(None, None) else Batch(Newcomers(op)));
  }

  /** A batch hands out its members one by one, each missing in the phase that is on, until there are none. */
  lemma YieldAnswers(b: Barrier, i: nat)
    requires Inv(b) && i < |b.parties| && b.parties[i].Batch?
    ensures var t := Act(b, Yield(i));
            if b.parties[i].left == 0 then t == Turn(b, Exhausted, {})
            else
              && t.answer.Ok? && t.woken == {} && t.after == b.(parties := t.after.parties)
              && |t.after.parties| == |b.parties| + 1
              && t.after.parties[i] == Batch(b.parties[i].left - 1)
              && t.after.parties[|b.parties|] == Member(None, None)
              && Sizes(t.after.parties) == Sizes(b.parties)
  {
    if b.parties[i].left > 0 {
      SizesUpdate(b.parties, i, Batch(b.parties[i].left - 1));
      SizesAppend(b.parties[i := Batch(b.parties[i].left - 1)], Member(None, None));
    }
  }

  // ---- Observations ----

  /** An observation stays what it was made, until it is over for good. */
  lemma StepObserves(b: Barrier, op: Op, w: nat)
    requires Inv(b) && w < |b.watches| && Observing(Act(b, op).after, w)
    ensures Observing(b, w) && Act(b, op).after.watches[w].since == b.watches[w].since
  {
    hide Sizes, AllArrived;
  }

  lemma {:induction false} RunObserves(b: Barrier, ops: seq<Op>, w: nat)
    requires Inv(b) && w < |b.watches| && Observing(After(b, ops), w)
    ensures Observing(b, w) && After(b, ops).watches[w].since == b.watches[w].since
  {
    if ops != [] {
      hide Inv, Act, Observing;
      var before := ops[..|ops| - 1];
      RunKeeps(b, before);
      WatchesStay(b, before, w);
      StepObserves(After(b, before), ops[|ops| - 1], w);
      RunObserves(b, before, w);
    }
  }

  lemma {:induction false} WatchesStay(b: Barrier, ops: seq<Op>, w: nat)
    requires w < |b.watches|
    ensures w < |After(b, ops).watches|
  {
    if ops != [] {
      WatchesStay(b, ops[..|ops| - 1], w);
      WatchesGrow(After(b, ops[..|ops| - 1]), ops[|ops| - 1]);
      hide Act;
    }
  }

  lemma WatchesGrow(b: Barrier, op: Op)
    ensures |b.watches| <= |Act(b, op).after.watches|
  {
    hide Sizes, AllArrived;
  }

  /**
   In every run: an observation made after `before` is ready exactly once a phase has ended since, and
   then answers with the phase that is on; if none has, it answers `Closed` on a closed phaser and
   `Pending` on an open one.
   */
  lemma ObservationAnswers(before: seq<Op>, since: seq<Op>, task: nat)
    ensures var b := After(INIT, before);
            var b' := After(Act(b, Observe).after, since);
            var w := |b.watches|;
            Observing(b', w) ==>
              Act(b', PollObserver(w, task)).answer ==
              if b'.count > b.count then Phase(b'.count) else if b'.closed then Answer.Closed else Pending
  {
    InitKeeps();
    RunKeeps(INIT, before);
    hide After, Inv;
    var b := After(INIT, before);
    StepKeeps(b, Observe);
    var made := Act(b, Observe).after;
    if Observing(After(made, since), |b.watches|) {
      RunObserves(made, since, |b.watches|);
      OutcomesLast(made, since, made.count);
    }
  }

  // ---- Nobody sleeps past the end of their phase ----

  function HeardOf(status: Status, woken: set<nat>): Status {
    if status.Asleep? && status.task in woken then Awoken(status.task) else status
  }

  /** What a participant knows of its wait. */
  function WaitStatus(ops: seq<Op>, replies: seq<Reply>, i: nat): Status
    requires |replies| == |ops|
  {
    if ops == [] then NotPending
    else
      var n := |ops| - 1;
      NextWait(ops[n], replies[n], i, WaitStatus(ops[..n], replies[..n], i))
  }

  function NextWait(op: Op, reply: Reply, i: nat, before: Status): Status {
    if reply.answer.Refused? then before
    else if op.PollWait? && op.i == i then Polled(reply.answer.Pending?, op.task)
    else if op == CancelWait(i) then NotPending
    else HeardOf(before, reply.woken)
  }

  /** What an observer knows of its observation. */
  function ObserverStatus(ops: seq<Op>, replies: seq<Reply>, w: nat): Status
    requires |replies| == |ops|
  {
    if ops == [] then NotPending
    else
      var n := |ops| - 1;
      NextObservation(ops[n], replies[n], w, ObserverStatus(ops[..n], replies[..n], w))
  }

  function NextObservation(op: Op, reply: Reply, w: nat, before: Status): Status {
    if reply.answer.Refused? then before
    else if op.PollObserver? && op.w == w then Polled(reply.answer.Pending?, op.task)
    else if op == DropObserver(w) then NotPending
    else HeardOf(before, reply.woken)
  }

  /** Whoever sleeps is registered under their task. */
  predicate WaitPlaced(b: Barrier, i: nat, status: Status) {
    status.Asleep? ==> Waiting(b, i) && b.watches[b.parties[i].wait.value].task == Some(status.task)
  }

  predicate ObserverPlaced(b: Barrier, w: nat, status: Status) {
    status.Asleep? ==> Observing(b, w) && b.watches[w].task == Some(status.task)
  }

  lemma StepPlacesWait(b: Barrier, op: Op, i: nat, status: Status)
    requires Inv(b) && WaitPlaced(b, i, status)
    ensures var t := Act(b, op); WaitPlaced(t.after, i, NextWait(op, Reply(t.answer, t.woken), i, status))
  {
    hide Sizes, AllArrived, AllRecent, AllAlert;
    if status.Asleep? {
      TaskIsThere(b.watches, b.parties[i].wait.value);
      assert OwnsWait(b.parties, b.watches, i);
    }
    if (op.PollWait? || op.CancelWait?) && Waiting(b, op.i) {
      assert OwnsWait(b.parties, b.watches, op.i);
    }
  }

  lemma StepPlacesObserver(b: Barrier, op: Op, w: nat, status: Status)
    requires Inv(b) && ObserverPlaced(b, w, status)
    ensures var t := Act(b, op); ObserverPlaced(t.after, w, NextObservation(op, Reply(t.answer, t.woken), w, status))
  {
    hide Sizes, AllArrived, AllRecent, AllAlert;
    if status.Asleep? {
      TaskIsThere(b.watches, w);
    }
    if (op.PollWait? || op.CancelWait?) && Waiting(b, op.i) {
      assert OwnsWait(b.parties, b.watches, op.i);
    }
  }

  /**
   In every run, for every participant and observer: if the latest poll answered `Pending` and its task
   has not been woken since, the wait is registered, to be woken through that task.
   */
  lemma {:induction false} PendingIsPlaced(ops: seq<Op>, i: nat, w: nat)
    ensures var b, replies := After(INIT, ops), Replies(INIT, ops);
            WaitPlaced(b, i, WaitStatus(ops, replies, i)) && ObserverPlaced(b, w, ObserverStatus(ops, replies, w))
  {
    if ops != [] {
      hide Inv, Act, WaitPlaced, ObserverPlaced, NextWait, NextObservation;
      var before, op := ops[..|ops| - 1], ops[|ops| - 1];
      PendingIsPlaced(before, i, w);
      InitKeeps();
      RunKeeps(INIT, before);
      var was := Replies(INIT, before);
      assert Replies(INIT, ops)[..|ops| - 1] == was;
      StepPlacesWait(After(INIT, before), op, i, WaitStatus(before, was, i));
      StepPlacesObserver(After(INIT, before), op, w, ObserverStatus(before, was, w));
    }
  }

  // ---- Waits and observations come and go ----

  /** A wait, once begun, is there to be polled, for the phase its participant arrived in. */
  lemma BeginsWait(b: Barrier, i: nat)
    requires Inv(b) && Idle(b, i)
    ensures var t := Act(b, BeginWait(i));
            if b.parties[i].arrived.None? && b.closed then t == Turn(b, Answer.Closed, {})
            else
              var since := if b.parties[i].arrived.Some? then b.parties[i].arrived.value else b.count;
              && t.answer.Ok? && Waiting(t.after, i) && t.after.parties[i].arrived == Some(since)
              && t.after.watches[t.after.parties[i].wait.value].since == since
  {
    hide Sizes, AllArrived;
  }

  /** Cancelled or closed, a wait leaves the arrival it is for; answered with a phase, it leaves none. */
  lemma EndsWait(b: Barrier, i: nat, task: nat)
    requires Waiting(b, i)
    ensures var t := Act(b, CancelWait(i));
            t.answer.Ok? && t.woken == {} && t.after.count == b.count
            && t.after.parties == b.parties[i := Member(b.parties[i].arrived, None)]
    ensures var t := Act(b, PollWait(i, task));
            && t.woken == {} && t.after.count == b.count
            && t.after.parties ==
               if t.answer.Pending? then b.parties
               else b.parties[i := Member(if t.answer.Closed? then b.parties[i].arrived else None, None)]
  {
  }

  /** An observation is there from when it is made until it is answered or dropped. */
  lemma StepKeepsObserving(b: Barrier, op: Op, w: nat)
    requires Inv(b) && Observing(b, w)
    ensures op == DropObserver(w) || (op.PollObserver? && op.w == w && !Act(b, op).answer.Pending?)
            || Observing(Act(b, op).after, w)
  {
    hide Sizes, AllArrived, AllRecent, AllAlert;
    if (op.PollWait? || op.CancelWait?) && Waiting(b, op.i) {
      assert OwnsWait(b.parties, b.watches, op.i);
    }
  }

  lemma MakesObservation(b: Barrier)
    ensures var t := Act(b, Observe);
            && t.answer.Ok? && t.woken == {}
            && Observing(t.after, |b.watches|) && t.after.watches[|b.watches|].since == b.count
            && t.after.parties == b.parties && t.after.count == b.count
  {
  }

  /** Dropping an observation ends it and touches nothing else. */
  lemma DropsObservation(b: Barrier, w: nat)
    requires Observing(b, w)
    ensures var t := Act(b, DropObserver(w));
            t.answer.Ok? && t.woken == {} && !Observing(t.after, w) && t.after == b.(watches := b.watches[w := Over])
  {
  }

  /** Waits are woken at the end of a phase and by the close, all that are registered, and at no other time. */
  lemma WokenAtTheEnd(b: Barrier, op: Op)
    ensures var t := Act(b, op);
            t.woken == if t.after.count > b.count || (op.Close? && !b.closed) then Tasks(b.watches) else {}
  {
    hide Sizes, AllArrived;
  }
}
