/** The condition variable's laws in terms of what callers saw. */
module CondvarHistory {
  import opened Options
  import opened WaitQueues
  import opened Crowds
  import opened Statuses
  import opened CondvarModel

  /** How far a call of `wait` has come, from its own operations; `None` if there is none. */
  function StageOf(ops: seq<Op>, replies: seq<Reply>, t: nat): Option<Stage>
    requires |replies| == |ops|
  {
    if ops == [] then None
    else
      var n := |ops| - 1;
      NextStage(ops[n], replies[n].answer, t, StageOf(ops[..n], replies[..n], t))
  }

  function NextStage(op: Op, answer: Answer, t: nat, before: Option<Stage>): Option<Stage> {
    if answer.Refused? then before
    else
      match op
      case BeginWait(u) => if u == t then Some(Entering) else before
      case PollWait(u, _) =>
        if u != t then before
        else if answer.Ready? then Some(Relocking(answer.one))
        else if before == Some(Entering) then Some(Releasing) else before
      case DropGuard(u) => if u == t then Some(Parked) else before
      case Relock(u) => if u == t then None else before
      case DropWait(u) => if u == t then None else before
      case _ => before
  }

  function StageIn(m: Model, t: nat): Option<Stage> {
    if t in m.waits then Some(m.waits[t]) else None
  }

  lemma StepStages(m: Model, op: Op, t: nat)
    requires Inv(m)
    ensures StageIn(Act(m, op).after, t) == NextStage(op, Act(m, op).answer, t, StageIn(m, t))
  {
    hide Crowd.Choose, Crowd.Leave, Crowd.ChooseAll, Crowd.Enter, Crowd.Join, Crowd.Refresh, Crowd.First;
  }

  /** Who holds the mutex, from who locked, unlocked, began to wait and took it back. */
  function OwnerOf(ops: seq<Op>, replies: seq<Reply>): Option<nat>
    requires |replies| == |ops|
  {
    if ops == [] then None
    else
      var n := |ops| - 1;
      var before := OwnerOf(ops[..n], replies[..n]);
      if replies[n].answer.Refused? then before
      else
        match ops[n]
        case Lock(t) => Some(t)
        case Relock(t) => Some(t)
        case Unlock(_) => None
        case DropGuard(_) => None
        case DropWait(t) => if StageOf(ops[..n], replies[..n], t) == Some(Entering) then None else before
        case _ => before
  }

  lemma StepOwns(m: Model, op: Op)
    requires Inv(m)
    ensures Act(m, op).after.owner ==
            if Act(m, op).answer.Refused? then m.owner
            else
              match op
              case Lock(t) => Some(t)
              case Relock(t) => Some(t)
              case Unlock(_) => None
              case DropGuard(_) => None
              case DropWait(t) => if StageIn(m, t) == Some(Entering) then None else m.owner
              case _ => m.owner
  {
    hide Crowd.Choose, Crowd.Leave, Crowd.ChooseAll, Crowd.Enter, Crowd.Join, Crowd.Refresh, Crowd.First;
    if op.DropWait? && op.t in m.waits {
      assert Staged(m, op.t);
    }
  }

  /** In every run: the mutex and the waits stand where their callers' operations have brought them. */
  lemma {:induction false} HeldByCallers(ops: seq<Op>)
    ensures var m, replies := After(INIT, ops), Replies(INIT, ops);
            m.owner == OwnerOf(ops, replies) && forall t :: StageIn(m, t) == StageOf(ops, replies, t)
  {
    if ops != [] {
      hide Inv, Act;
      var before, op := ops[..|ops| - 1], ops[|ops| - 1];
      HeldByCallers(before);
      assert Replies(INIT, ops)[..|ops| - 1] == Replies(INIT, before);
      EveryNotification(before);
      StepOwns(After(INIT, before), op);
      var m, replies := After(INIT, ops), Replies(INIT, ops);
      forall t
        ensures StageIn(m, t) == StageOf(ops, replies, t)
      {
        StepStages(After(INIT, before), op, t);
      }
    }
  }

  /** The caller stands where the operation can be made. */
  predicate InHand(ops: seq<Op>, replies: seq<Reply>, op: Op)
    requires |replies| == |ops|
  {
    match op
    case NotifyOne => true
    case NotifyAll => true
    case Lock(t) => OwnerOf(ops, replies).None? && StageOf(ops, replies, t).None?
    case Unlock(t) => OwnerOf(ops, replies) == Some(t) && StageOf(ops, replies, t).None?
    case BeginWait(t) => OwnerOf(ops, replies) == Some(t) && StageOf(ops, replies, t).None?
    case PollWait(t, _) => StageOf(ops, replies, t) in {Some(Entering), Some(Parked)}
    case DropGuard(t) => StageOf(ops, replies, t) == Some(Releasing)
    case Relock(t) =>
      OwnerOf(ops, replies).None? && StageOf(ops, replies, t) in {Some(Relocking(true)), Some(Relocking(false))}
    case DropWait(t) => StageOf(ops, replies, t).Some? && StageOf(ops, replies, t) != Some(Releasing)
  }

  /** An operation is refused only to a caller who does not stand where it can be made. */
  lemma OnlyWithoutRefused(ops: seq<Op>, op: Op)
    ensures Act(After(INIT, ops), op).answer.Refused? <==> !InHand(ops, Replies(INIT, ops), op)
  {
    HeldByCallers(ops);
    EveryNotification(ops);
    hide After, Replies, StageOf, OwnerOf;
    var m, replies := After(INIT, ops), Replies(INIT, ops);
    if !op.NotifyOne? && !op.NotifyAll? {
      assert StageIn(m, op.t) == StageOf(ops, replies, op.t);
      assert op.t in m.waits ==> Staged(m, op.t);
    }
  }

  /**
   After any run: the mutex can be had exactly if nobody has it; a parked wait goes on exactly if it has
   been selected, and as selected by one or by all.
   */
  lemma NextAnswers(ops: seq<Op>, t: nat, task: nat)
    ensures var m := After(INIT, ops);
            && (t !in m.waits ==> (Act(m, Op.Lock(t)).answer.Done? <==> m.owner.None?))
            && (StageIn(m, t) == Some(Parked) && t in m.crowd.seats ==>
                  Act(m, Op.PollWait(t, task)).answer ==
                  if m.crowd.seats[t].Chosen? then Ready(m.crowd.seats[t].mark.NotifiedOne?) else Pending)
            && (StageIn(m, t).Some? && StageIn(m, t).value.Relocking? ==>
                  (Act(m, Op.Relock(t)).answer.Locked? <==> m.owner.None?))
  {
    hide After;
  }

  // ---- Nobody sleeps through their turn ----

  /** What the owner of a wait knows of it. */
  function WaitStatus(ops: seq<Op>, replies: seq<Reply>, t: nat): Status
    requires |replies| == |ops|
  {
    if ops == [] then NotPending
    else
      var n := |ops| - 1;
      NextStatus(ops[n], replies[n].answer, replies[n].woken, t, WaitStatus(ops[..n], replies[..n], t))
  }

  function NextStatus(op: Op, answer: Answer, woken: seq<nat>, t: nat, before: Status): Status {
    if answer.Refused? then before
    else if op.PollWait? && op.t == t then Polled(answer.Pending?, op.task)
    else if op == Op.DropWait(t) then NotPending
    else Heard(before, woken)
  }

  /** A poll that answers `Pending` leaves its wait in line, where it was or behind everyone, with its task. */
  lemma PendingIsInLine(m: Model, t: nat, task: nat)
    requires Inv(m)
    ensures var r := Act(m, Op.PollWait(t, task));
            r.answer.Pending? ==>
              && r.after.crowd.Waits(t, task)
              && r.after.crowd.line == if t in m.crowd.line then m.crowd.line else m.crowd.line + [t]
  {
    if t in m.waits {
      assert Staged(m, t);
      var joined := m.crowd.Join(t, task);
      assert joined.line[|joined.line| - 1] == t;
    }
  }

  /** A poll that goes on, and a drop, leave nothing behind. */
  lemma DoneLeavesNothing(m: Model, op: Op)
    requires Inv(m) && (op.PollWait? || op.DropWait?) && Allowed(m, op)
    ensures (op.PollWait? && Act(m, op).answer.Pending?) || Placed(Act(m, op).after.crowd, op.t, NotPending)
  {
    WithoutKeeps(m.crowd.line, op.t);
  }

  lemma OthersSpareWait(m: Model, op: Op, t: nat)
    requires Inv(m) && Allowed(m, op) && !((op.PollWait? || op.DropWait?) && op.t == t)
    ensures Spares(m.crowd, Act(m, op).after.crowd, Act(m, op).woken, t)
  {
    hide Crowd.Choose, Crowd.Leave, Crowd.ChooseAll, Crowd.Enter, Crowd.Join, Crowd.Refresh, Crowd.First, Crowd.Tasks;
    hide Spares;
    StaysSpares(m.crowd, Act(m, op).woken, t);
    if op.NotifyOne? {
      ChooseSpares(m.crowd, NotifiedOne, t);
    } else if op.NotifyAll? {
      AllSpares(m.crowd, NotifiedAll, t);
    } else if op.BeginWait? && op.t == t {
      assert t !in m.crowd.seats;
      EnterSpares(m.crowd, t, []);
    } else if op.BeginWait? || op.PollWait? {
      OthersSpare(m.crowd, op.t, if op.PollWait? then op.task else 0, Act(m, op).woken, t);
    } else if op.DropWait? {
      DropSpares(m, op.t, t);
    }
  }

  lemma DropSpares(m: Model, u: nat, t: nat)
    requires Inv(m) && Allowed(m, Op.DropWait(u)) && u != t
    ensures Spares(m.crowd, Act(m, Op.DropWait(u)).after.crowd, Act(m, Op.DropWait(u)).woken, t)
  {
    hide Crowd.Choose, Crowd.Leave, Crowd.First;
    hide Spares;
    OthersSpare(m.crowd, u, 0, [], t);
    if u in m.crowd.seats {
      LeaveSpares(m.crowd, u, NotifiedOne, t);
    } else {
      LeavesAlone(m.crowd, u);
      ChooseSpares(m.crowd, NotifiedOne, t);
    }
  }

  lemma LeavesAlone(c: Crowd<Mark>, u: nat)
    requires c.Wf() && u !in c.seats
    ensures c.Leave(u) == c
  {
    WithoutAbsent(c.line, u);
  }

  lemma StepPlaces(m: Model, op: Op, t: nat, status: Status)
    requires Inv(m) && Placed(m.crowd, t, status)
    ensures var r := Act(m, op); Placed(r.after.crowd, t, NextStatus(op, r.answer, r.woken, t, status))
  {
    hide Act, Spares, Crowd.Wf, Allowed;
    var r := Act(m, op);
    StepKeeps(m, op);
    AllowedAnswers(m, op);
    if Allowed(m, op) {
      if (op.PollWait? || op.DropWait?) && op.t == t {
        DoneLeavesNothing(m, op);
        if op.PollWait? {
          PendingIsInLine(m, t, op.task);
        }
      } else {
        OthersSpareWait(m, op, t);
        SparedStays(m.crowd, r.after.crowd, r.woken, t, status);
      }
    }
  }

  lemma AllowedAnswers(m: Model, op: Op)
    ensures if Allowed(m, op) then !Act(m, op).answer.Refused? else Act(m, op) == Turn(m, Refused, [])
  {
  }

  /**
   In every run, for every wait: if its latest poll answered `Pending` and that poll's task has not been
   woken since, it is in line, to be woken through that task. Whoever has no pending poll - none made,
   selected and gone on, or dropped - stands in nobody's way.
   */
  lemma {:induction false} PendingIsPlaced(ops: seq<Op>, t: nat)
    ensures var m, replies := After(INIT, ops), Replies(INIT, ops); Placed(m.crowd, t, WaitStatus(ops, replies, t))
  {
    if ops != [] {
      hide Inv, Act, Placed, NextStatus;
      var before := ops[..|ops| - 1];
      PendingIsPlaced(before, t);
      assert Replies(INIT, ops)[..|ops| - 1] == Replies(INIT, before);
      EveryNotification(before);
      StepPlaces(After(INIT, before), ops[|ops| - 1], t, WaitStatus(before, Replies(INIT, before), t));
    }
  }

  // ---- Whom a notification reaches ----

  /** `notify_one` selects and wakes the first in line, if there is one; `notify_all` everyone in line. */
  lemma NotifyReaches(m: Model, t: nat)
    requires Inv(m)
    ensures var r := Act(m, NotifyOne);
            if m.crowd.line == [] then r == Turn(m, Done, [])
            else
              && r.after.crowd.line == m.crowd.line[1..] && r.woken == [m.crowd.TaskOf(m.crowd.line[0])]
              && Carries(r.after, m.crowd.line[0])
    ensures var r := Act(m, NotifyAll);
            && r.after.crowd.line == []
            && (t in m.crowd.line ==>
                  && t in r.after.crowd.seats && r.after.crowd.seats[t] == Chosen(NotifiedAll)
                  && m.crowd.TaskOf(t) in r.woken)
  {
    if t in m.crowd.line {
      DisperseWakes(m.crowd, t);
    }
  }

  /** Whoever is woken has left the line they stood in: nobody is woken for nothing. */
  lemma WokenHaveLeft(m: Model, op: Op)
    requires Inv(m)
    ensures WakesLeavers(m.crowd, Act(m, op).after.crowd, Act(m, op).woken)
  {
    hide Crowd.Choose, Crowd.ChooseAll, Crowd.Leave, Crowd.Enter, Crowd.First, Crowd.Tasks, Crowd.Join, Crowd.Refresh;
    hide LeftLine;
    ChooseWakesLeaver(m.crowd, NotifiedOne);
    AllWakesLeavers(m.crowd, NotifiedAll);
    if op.DropWait? {
      if op.t in m.crowd.seats {
        LeaveWakesLeaver(m.crowd, op.t, NotifiedOne);
      } else {
        LeavesAlone(m.crowd, op.t);
      }
    }
  }
}
