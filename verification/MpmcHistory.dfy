/**
 The mpmc queue's laws in terms of what callers saw: which operations were made, and what each answered
 and woke.
 */
module MpmcHistory {
  import opened Options
  import opened WaitQueues
  import opened Crowds
  import opened Statuses
  import opened Channels
  import opened MpmcModel

  // ---- What callers hold ----

  function Senders<T>(ops: seq<Op<T>>, replies: seq<Reply<T>>): int
    requires |replies| == |ops|
  {
    if ops == [] then 1
    else
      var n := |ops| - 1;
      Senders(ops[..n], replies[..n])
      + if !replies[n].outcome.Done? then 0
        else if ops[n].CloneSender? then 1 else if ops[n].DropSender? then -1 else 0
  }

  function Receivers<T>(ops: seq<Op<T>>, replies: seq<Reply<T>>): int
    requires |replies| == |ops|
  {
    if ops == [] then 1
    else
      var n := |ops| - 1;
      Receivers(ops[..n], replies[..n])
      + if !replies[n].outcome.Done? then 0
        else if ops[n].CloneReceiver? then 1 else if ops[n].DropReceiver? then -1 else 0
  }

  /** Permits handed out and neither used nor dropped. */
  function Permits<T>(ops: seq<Op<T>>, replies: seq<Reply<T>>): int
    requires |replies| == |ops|
  {
    if ops == [] then 0
    else
      var n := |ops| - 1;
      Permits(ops[..n], replies[..n])
      + if replies[n].outcome.Reserved? then 1
        else if (ops[n].SendWithPermit? || ops[n].DropPermit?) && !replies[n].outcome.Refused? then -1 else 0
  }

  /** The reservations that exist: made and not dropped. */
  function Reserves<T>(ops: seq<Op<T>>, replies: seq<Reply<T>>): set<nat>
    requires |replies| == |ops|
  {
    if ops == [] then {}
    else
      var n := |ops| - 1;
      var before := Reserves(ops[..n], replies[..n]);
      if !replies[n].outcome.Done? then before
      else if ops[n].NewReserve? then before + {ops[n].f}
      else if ops[n].DropReserve? then before - {ops[n].f} else before
  }

  function Recvs<T>(ops: seq<Op<T>>, replies: seq<Reply<T>>): set<nat>
    requires |replies| == |ops|
  {
    if ops == [] then {}
    else
      var n := |ops| - 1;
      var before := Recvs(ops[..n], replies[..n]);
      if !replies[n].outcome.Done? then before
      else if ops[n].NewRecv? then before + {ops[n].f}
      else if ops[n].DropRecv? then before - {ops[n].f} else before
  }

  /** The queue counts exactly what callers hold. */
  ghost predicate Books<T>(ops: seq<Op<T>>, replies: seq<Reply<T>>, m: Model<T>)
    requires |replies| == |ops|
  {
    && m.senders == Senders(ops, replies) && m.receivers == Receivers(ops, replies)
    && m.permits == Permits(ops, replies)
    && m.sends.seats.Keys == Reserves(ops, replies) && m.recvs.seats.Keys == Recvs(ops, replies)
  }

  lemma StepCounts<T>(m: Model<T>, op: Op<T>)
    ensures var t := Act(m, op);
            && t.after.senders == m.senders + (if !t.outcome.Done? then 0
                                               else if op.CloneSender? then 1 else if op.DropSender? then -1 else 0)
            && t.after.receivers == m.receivers + (if !t.outcome.Done? then 0
                                                   else if op.CloneReceiver? then 1
                                                   else if op.DropReceiver? then -1 else 0)
            && t.after.permits == m.permits + (if t.outcome.Reserved? then 1
                                               else if (op.SendWithPermit? || op.DropPermit?) && !t.outcome.Refused?
                                               then -1 else 0)
  {
    hide Crowd.Choose, Crowd.Leave, Crowd.Settle, Crowd.Disperse, Crowd.Tasks, Crowd.First, Crowd.Register;
  }

  lemma StepReserves<T>(capacity: Option<nat>, m: Model<T>, op: Op<T>)
    requires Inv(capacity, m)
    ensures var t := Act(m, op);
            t.after.sends.seats.Keys ==
            if !t.outcome.Done? then m.sends.seats.Keys
            else if op.NewReserve? then m.sends.seats.Keys + {op.f}
            else if op.DropReserve? then m.sends.seats.Keys - {op.f} else m.sends.seats.Keys
  {
    hide Inv, Crowd.Choose, Crowd.Leave, Crowd.Settle, Crowd.Disperse, Crowd.Enter, Crowd.Tasks, Crowd.First;
    hide Crowd.Register, Crowd.Join, Crowd.Refresh;
    CrowdsWf(capacity, m);
    KeepsSeats(m.sends, Granted);
    if op.NewReserve? || op.PollReserve? || op.DropReserve? {
      MovesSeats(m.sends, op.f, if op.PollReserve? then op.task else 0, Granted);
    }
  }

  lemma StepRecvs<T>(capacity: Option<nat>, m: Model<T>, op: Op<T>)
    requires Inv(capacity, m)
    ensures var t := Act(m, op);
            t.after.recvs.seats.Keys ==
            if !t.outcome.Done? then m.recvs.seats.Keys
            else if op.NewRecv? then m.recvs.seats.Keys + {op.f}
            else if op.DropRecv? then m.recvs.seats.Keys - {op.f} else m.recvs.seats.Keys
  {
    hide Inv, Crowd.Choose, Crowd.Leave, Crowd.Settle, Crowd.Disperse, Crowd.Enter, Crowd.Tasks, Crowd.First;
    hide Crowd.Register, Crowd.Join, Crowd.Refresh;
    CrowdsWf(capacity, m);
    KeepsSeats(m.recvs, Notified);
    if op.NewRecv? || op.PollRecv? || op.DropRecv? {
      MovesSeats(m.recvs, op.f, if op.PollRecv? then op.task else 0, Notified);
    }
  }

  lemma CrowdsWf<T>(capacity: Option<nat>, m: Model<T>)
    requires Inv(capacity, m)
    ensures m.sends.Wf() && m.recvs.Wf()
  {
  }

  /** In every run: the queue's endpoints, permits and futures are those its callers were given and still hold. */
  lemma {:induction false} HeldByCallers<T>(capacity: Option<nat>, ops: seq<Op<T>>)
    ensures Books(ops, Replies(Init<T>(capacity), ops), After(Init<T>(capacity), ops))
  {
    if ops != [] {
      hide Inv, Act;
      var m, before, op := Init<T>(capacity), ops[..|ops| - 1], ops[|ops| - 1];
      HeldByCallers(capacity, before);
      assert Replies(m, ops)[..|ops| - 1] == Replies(m, before);
      InitKeeps<T>(capacity);
      RunKeeps(capacity, m, before);
      StepCounts(After(m, before), op);
      StepReserves(capacity, After(m, before), op);
      StepRecvs(capacity, After(m, before), op);
    }
  }

  /** The caller has been given, and still holds, what the operation needs. */
  predicate InHand<T>(ops: seq<Op<T>>, replies: seq<Reply<T>>, op: Op<T>)
    requires |replies| == |ops|
  {
    match op
    case SendWithPermit(_) => Permits(ops, replies) > 0
    case DropPermit => Permits(ops, replies) > 0
    case NewReserve(f) => f !in Reserves(ops, replies)
    case PollReserve(f, _) => f in Reserves(ops, replies)
    case DropReserve(f) => f in Reserves(ops, replies)
    case NewRecv(f) => f !in Recvs(ops, replies)
    case PollRecv(f, _) => f in Recvs(ops, replies)
    case DropRecv(f) => f in Recvs(ops, replies)
    case CloneSender => Senders(ops, replies) > 0
    case DropSender => Senders(ops, replies) > 0
    case CloneReceiver => Receivers(ops, replies) > 0
    case DropReceiver => Receivers(ops, replies) > 0
    case _ => true
  }

  /** An operation is refused only to a caller who does not have what it needs. */
  lemma OnlyWithoutRefused<T>(capacity: Option<nat>, ops: seq<Op<T>>, op: Op<T>)
    ensures var m, replies := After(Init<T>(capacity), ops), Replies(Init<T>(capacity), ops);
            Act(m, op).outcome.Refused? <==> !InHand(ops, replies, op)
  {
    HeldByCallers(capacity, ops);
    hide After, Replies, Senders, Receivers, Permits, Reserves, Recvs;
    hide Crowd.Choose, Crowd.Leave, Crowd.Settle, Crowd.Disperse, Crowd.Tasks, Crowd.First, Crowd.Register;
    var m := After(Init<T>(capacity), ops);
    assert forall f :: f in m.sends.seats <==> f in m.sends.seats.Keys;
    assert forall f :: f in m.recvs.seats <==> f in m.recvs.seats.Keys;
  }

  // ---- What the polls answer ----

  /**
   After any run, a poll of a receive answers as `TryRecv` would, but waits where that finds the queue
   empty; and a reservation waits exactly if it is in line already, or is new and finds no room.
   */
  lemma NextPolls<T>(capacity: Option<nat>, ops: seq<Op<T>>, f: nat, task: nat)
    ensures var m := After(Init<T>(capacity), ops);
            var empty := Act(m, TryRecv).outcome;
            f in m.recvs.seats ==>
              Act(m, Op.PollRecv(f, task)).outcome == if empty.Empty? then Pending else empty
    ensures var m := After(Init<T>(capacity), ops);
            var replies := Replies(Init<T>(capacity), ops);
            var queued := |Accepted(ops, replies)| - |Received(replies)|;
            var full := capacity == Some(queued + m.permits + |m.sends.Chosen()|);
            f in m.sends.seats ==>
              Act(m, Op.PollReserve(f, task)).outcome ==
              if m.receivers == 0 then Disconnected
              else if f in m.sends.line || (f !in m.sends.Chosen() && full) then Pending else Reserved
    ensures var m := After(Init<T>(capacity), ops);
            var replies := Replies(Init<T>(capacity), ops);
            var queued := |Accepted(ops, replies)| - |Received(replies)|;
            var full := capacity == Some(queued + m.permits + |m.sends.Chosen()|);
            Act(m, TryReserve).outcome == if m.receivers == 0 then Disconnected else if full then Full else Reserved
  {
    hide After, Replies, Accepted, Received, Init;
    Fifo(capacity, ops);
    InitKeeps<T>(capacity);
    RunKeeps(capacity, Init<T>(capacity), ops);
    var m, replies := After(Init<T>(capacity), ops), Replies(Init<T>(capacity), ops);
    assert m.receivers > 0 ==> |Received(replies) + m.values| == |Accepted(ops, replies)|;
    assert f in m.sends.Chosen() <==> f in m.sends.seats && m.sends.seats[f].Chosen?;
  }

  /** A permit is good for one send while a receiver lives; without one it is dropped and the value comes back. */
  lemma NextPermit<T>(m: Model<T>, value: T)
    requires m.permits > 0
    ensures Act(m, Op.SendWithPermit(value)).outcome == if m.receivers == 0 then Disconnected else Sent
    ensures Act(m, DropPermit).outcome.Done?
  {
    hide Crowd.Choose, Crowd.First;
  }

  // ---- Nobody sleeps through their turn ----

  /** What the owner of a receive knows of it. */
  function RecvStatus<T>(ops: seq<Op<T>>, replies: seq<Reply<T>>, f: nat): Status
    requires |replies| == |ops|
  {
    if ops == [] then NotPending
    else
      var n := |ops| - 1;
      if ops[n].PollRecv? && ops[n].f == f then Polled(replies[n].outcome.Pending?, ops[n].task)
      else if ops[n] == Op.DropRecv(f) then NotPending
      else Heard(RecvStatus(ops[..n], replies[..n], f), replies[n].woken)
  }

  function ReserveStatus<T>(ops: seq<Op<T>>, replies: seq<Reply<T>>, f: nat): Status
    requires |replies| == |ops|
  {
    if ops == [] then NotPending
    else
      var n := |ops| - 1;
      if ops[n].PollReserve? && ops[n].f == f then Polled(replies[n].outcome.Pending?, ops[n].task)
      else if ops[n] == Op.DropReserve(f) then NotPending
      else Heard(ReserveStatus(ops[..n], replies[..n], f), replies[n].woken)
  }

  /** A poll that answers `Pending` leaves its future in line, where it was or behind everyone, with its task. */
  lemma PendingIsInLine<T>(capacity: Option<nat>, m: Model<T>, f: nat, task: nat)
    requires Inv(capacity, m)
    ensures var t := Act(m, Op.PollRecv(f, task));
            t.outcome.Pending? ==>
              && t.after.recvs.Waits(f, task)
              && t.after.recvs.line == if f in m.recvs.line then m.recvs.line else m.recvs.line + [f]
    ensures var t := Act(m, Op.PollReserve(f, task));
            t.outcome.Pending? ==>
              && t.after.sends.Waits(f, task)
              && t.after.sends.line == if f in m.sends.line then m.sends.line else m.sends.line + [f]
  {
    if f in m.recvs.seats {
      Registers(m.recvs, f, task);
    }
    if f in m.sends.seats {
      Settles(m.sends, f);
      var joined := m.sends.Join(f, task);
      assert joined.line[|joined.line| - 1] == f;
    }
  }

  /** A poll that answers anything else, and a drop, leave nothing behind. */
  lemma DoneLeavesNothing<T>(capacity: Option<nat>, m: Model<T>, op: Op<T>)
    requires Inv(capacity, m)
    ensures op.PollRecv? || op.DropRecv? ==>
              (op.PollRecv? && Act(m, op).outcome.Pending?) || Placed(Act(m, op).after.recvs, op.f, NotPending)
    ensures op.PollReserve? || op.DropReserve? ==>
              (op.PollReserve? && Act(m, op).outcome.Pending?) || Placed(Act(m, op).after.sends, op.f, NotPending)
  {
    hide Crowd.Tasks, Crowd.First;
    if op.DropRecv? {
      WithoutKeeps(m.recvs.line, op.f);
    } else if op.DropReserve? {
      WithoutKeeps(m.sends.line, op.f);
    }
  }

  lemma OthersSpareRecv<T>(capacity: Option<nat>, m: Model<T>, op: Op<T>, f: nat)
    requires Inv(capacity, m) && !((op.PollRecv? || op.DropRecv?) && op.f == f)
    ensures Spares(m.recvs, Act(m, op).after.recvs, Act(m, op).woken, f)
  {
    hide Crowd.Choose, Crowd.Leave, Crowd.Settle, Crowd.Disperse, Crowd.Enter, Crowd.Tasks, Crowd.First;
    hide Inv, Spares, Crowd.Register, Crowd.Join, Crowd.Refresh;
    CrowdsWf(capacity, m);
    StaysSpares(m.recvs, Act(m, op).woken, f);
    if op.NewRecv? || op.PollRecv? || op.DropRecv? {
      if Allowed(m, op) {
        if op.f == f {
          EnterSpares(m.recvs, f, []);
        } else {
          OthersSpare(m.recvs, op.f, if op.PollRecv? then op.task else 0, Act(m, op).woken, f);
          if op.DropRecv? {
            LeaveSpares(m.recvs, op.f, Notified, f);
          }
        }
      }
    } else {
      ChooseSpares(m.recvs, Notified, f);
      AllSpares(m.recvs, Notified, f);
    }
  }

  lemma OthersSpareReserve<T>(capacity: Option<nat>, m: Model<T>, op: Op<T>, f: nat)
    requires Inv(capacity, m) && !((op.PollReserve? || op.DropReserve?) && op.f == f)
    ensures Spares(m.sends, Act(m, op).after.sends, Act(m, op).woken, f)
  {
    hide Crowd.Choose, Crowd.Leave, Crowd.Settle, Crowd.Disperse, Crowd.Enter, Crowd.Tasks, Crowd.First;
    hide Inv, Spares, Crowd.Register, Crowd.Join, Crowd.Refresh;
    CrowdsWf(capacity, m);
    StaysSpares(m.sends, Act(m, op).woken, f);
    if op.NewReserve? || op.PollReserve? || op.DropReserve? {
      if Allowed(m, op) {
        if op.f == f {
          EnterSpares(m.sends, f, []);
        } else {
          OthersSpare(m.sends, op.f, if op.PollReserve? then op.task else 0, Act(m, op).woken, f);
          if op.DropReserve? {
            LeaveSpares(m.sends, op.f, Granted, f);
          }
        }
      }
    } else {
      ChooseSpares(m.sends, Granted, f);
      AllSpares(m.sends, Granted, f);
    }
  }

  /**
   In every run, for every receive and reservation: if its latest poll answered `Pending` and that poll's
   task has not been woken since, it is in line, to be woken through that task. Whoever has no pending
   poll - none made, answered otherwise, or dropped - stands in nobody's way.
   */
  lemma {:induction false} PendingIsPlaced<T>(capacity: Option<nat>, ops: seq<Op<T>>, f: nat)
    ensures var m, replies := After(Init<T>(capacity), ops), Replies(Init<T>(capacity), ops);
            && Placed(m.recvs, f, RecvStatus(ops, replies, f))
            && Placed(m.sends, f, ReserveStatus(ops, replies, f))
  {
    if ops != [] {
      hide Inv, Act, Placed, Spares;
      var init, before, op := Init<T>(capacity), ops[..|ops| - 1], ops[|ops| - 1];
      PendingIsPlaced(capacity, before, f);
      assert Replies(init, ops)[..|ops| - 1] == Replies(init, before);
      InitKeeps<T>(capacity);
      RunKeeps(capacity, init, before);
      StepPlaces(capacity, After(init, before), op, f, RecvStatus(before, Replies(init, before), f),
                 ReserveStatus(before, Replies(init, before), f));
    }
  }

  lemma StepPlaces<T>(capacity: Option<nat>, m: Model<T>, op: Op<T>, f: nat, recv: Status, reserve: Status)
    requires Inv(capacity, m) && Placed(m.recvs, f, recv) && Placed(m.sends, f, reserve)
    ensures var t := Act(m, op);
            && Placed(t.after.recvs, f,
                      if op.PollRecv? && op.f == f then Polled(t.outcome.Pending?, op.task)
                      else if op == Op.DropRecv(f) then NotPending else Heard(recv, t.woken))
            && Placed(t.after.sends, f,
                      if op.PollReserve? && op.f == f then Polled(t.outcome.Pending?, op.task)
                      else if op == Op.DropReserve(f) then NotPending else Heard(reserve, t.woken))
  {
    hide Inv, Act, Spares, Crowd.Wf;
    var t := Act(m, op);
    StepKeeps(capacity, m, op);
    CrowdsWf(capacity, m);
    CrowdsWf(capacity, t.after);
    DoneLeavesNothing(capacity, m, op);
    if op.PollRecv? || op.PollReserve? {
      PendingIsInLine(capacity, m, op.f, op.task);
    }
    if !((op.PollRecv? || op.DropRecv?) && op.f == f) {
      OthersSpareRecv(capacity, m, op, f);
      SparedStays(m.recvs, t.after.recvs, t.woken, f, recv);
    }
    if !((op.PollReserve? || op.DropReserve?) && op.f == f) {
      OthersSpareReserve(capacity, m, op, f);
      SparedStays(m.sends, t.after.sends, t.woken, f, reserve);
    }
  }

  /** Whoever is woken has left a line they stood in: nobody is woken for nothing. */
  lemma WokenHaveLeft<T>(capacity: Option<nat>, m: Model<T>, op: Op<T>)
    requires Inv(capacity, m)
    ensures var t := Act(m, op);
            WakesLeavers(m.recvs, t.after.recvs, t.woken) || WakesLeavers(m.sends, t.after.sends, t.woken)
  {
    hide Crowd.Choose, Crowd.Leave, Crowd.Settle, Crowd.Disperse, Crowd.Enter, Crowd.Tasks, Crowd.First;
    hide Inv, Crowd.Register, Crowd.Join, Crowd.Refresh, LeftLine;
    CrowdsWf(capacity, m);
    ChooseWakesLeaver(m.recvs, Notified);
    ChooseWakesLeaver(m.sends, Granted);
    AllWakesLeavers(m.recvs, Notified);
    AllWakesLeavers(m.sends, Granted);
    if op.DropRecv? && op.f in m.recvs.seats {
      LeaveWakesLeaver(m.recvs, op.f, Notified);
    } else if op.DropReserve? && op.f in m.sends.seats {
      LeaveWakesLeaver(m.sends, op.f, Granted);
    }
  }
}
