/**
 The spmc queue's laws in terms of what callers saw: which operations were made, and what each answered
 and woke.
 */
module SpmcHistory {
  import opened Options
  import opened WaitQueues
  import opened Crowds
  import opened Statuses
  import opened Channels
  import opened SpmcModel

  // ---- What callers hold ----

  predicate SenderLives<T>(ops: seq<Op<T>>, replies: seq<Reply<T>>)
    requires |replies| == |ops|
  {
    ops == [] ||
    var n := |ops| - 1;
    SenderLives(ops[..n], replies[..n]) && !(ops[n].DropSender? && replies[n].outcome.Done?)
  }

  function Receivers<T>(ops: seq<Op<T>>, replies: seq<Reply<T>>): int
    requires |replies| == |ops|
  {
    if ops == [] then 1
    else
      var n := |ops| - 1;
      Receivers(ops[..n], replies[..n])
      + if !replies[n].outcome.Done? then 0
        else if ops[n].CloneReceiver? then 1 else if ops[n].DropReceiver? then -1 else 0
  }

  /** A send future exists, and has not yet given its value away. */
  predicate Sending<T>(ops: seq<Op<T>>, replies: seq<Reply<T>>)
    requires |replies| == |ops|
  {
    ops != [] &&
    var n := |ops| - 1;
    if ops[n].NewSend? && replies[n].outcome.Done? then true
    else if ops[n].DropSend? || (ops[n].PollSend? && !replies[n].outcome.Pending?) then false
    else Sending(ops[..n], replies[..n])
  }

  function Recvs<T>(ops: seq<Op<T>>, replies: seq<Reply<T>>): set<nat>
    requires |replies| == |ops|
  {
    if ops == [] then {}
    else
      var n := |ops| - 1;
      var before := Recvs(ops[..n], replies[..n]);
      if !replies[n].outcome.Done? then before
      else if ops[n].NewRecv? then before + {ops[n].f}
      else if ops[n].DropRecv? then before - {ops[n].f} else before
  }

  /** The queue counts exactly what callers hold. */
  ghost predicate Books<T>(ops: seq<Op<T>>, replies: seq<Reply<T>>, m: Model<T>)
    requires |replies| == |ops|
  {
    && m.senderAlive == SenderLives(ops, replies) && m.receivers == Receivers(ops, replies)
    && m.pending.Some? == Sending(ops, replies) && m.recvs.seats.Keys == Recvs(ops, replies)
  }

  lemma StepCounts<T>(m: Model<T>, op: Op<T>)
    ensures var t := Act(m, op);
            && t.after.senderAlive == (m.senderAlive && !(op.DropSender? && t.outcome.Done?))
            && t.after.receivers == m.receivers + (if !t.outcome.Done? then 0
                                                   else if op.CloneReceiver? then 1
                                                   else if op.DropReceiver? then -1 else 0)
            && t.after.pending.Some? == (if op.NewSend? && t.outcome.Done? then true
                                         else if op.DropSend? || (op.PollSend? && !t.outcome.Pending?) then false
                                         else m.pending.Some?)
  {
    hide Crowd.Choose, Crowd.Leave, Crowd.Settle, Crowd.Disperse, Crowd.Tasks, Crowd.First, Crowd.Register;
  }

  lemma StepRecvs<T>(m: Model<T>, op: Op<T>)
    requires Inv(m)
    ensures var t := Act(m, op);
            t.after.recvs.seats.Keys ==
            if !t.outcome.Done? then m.recvs.seats.Keys
            else if op.NewRecv? then m.recvs.seats.Keys + {op.f}
            else if op.DropRecv? then m.recvs.seats.Keys - {op.f} else m.recvs.seats.Keys
  {
    hide Inv, Crowd.Choose, Crowd.Leave, Crowd.Settle, Crowd.Disperse, Crowd.Enter, Crowd.Tasks, Crowd.First;
    hide Crowd.Register, Crowd.Join, Crowd.Refresh;
    CrowdsWf(m);
    KeepsSeats(m.recvs, Notified);
    if op.NewRecv? || op.PollRecv? || op.DropRecv? {
      MovesSeats(m.recvs, op.f, if op.PollRecv? then op.task else 0, Notified);
    }
  }

  lemma CrowdsWf<T>(m: Model<T>)
    requires Inv(m)
    ensures m.sends.Wf() && m.recvs.Wf()
  {
  }

  /** In every run: the queue's endpoints and futures are those its callers were given and still hold. */
  lemma {:induction false} HeldByCallers<T>(capacity: Option<nat>, ops: seq<Op<T>>)
    ensures Books(ops, Replies(Init<T>(capacity), ops), After(Init<T>(capacity), ops))
  {
    if ops != [] {
      hide Inv, Act;
      var m, before, op := Init<T>(capacity), ops[..|ops| - 1], ops[|ops| - 1];
      HeldByCallers(capacity, before);
      assert Replies(m, ops)[..|ops| - 1] == Replies(m, before);
      RunKeeps(capacity, before);
      StepCounts(After(m, before), op);
      StepRecvs(After(m, before), op);
    }
  }

  /** The caller has been given, and still holds, what the operation needs; a pending send borrows the sender. */
  predicate InHand<T>(ops: seq<Op<T>>, replies: seq<Reply<T>>, op: Op<T>)
    requires |replies| == |ops|
  {
    match op
    case TrySend(_) => SenderLives(ops, replies) && !Sending(ops, replies)
    case NewSend(_) => SenderLives(ops, replies) && !Sending(ops, replies)
    case DropSender => SenderLives(ops, replies) && !Sending(ops, replies)
    case PollSend(_) => Sending(ops, replies)
    case DropSend => Sending(ops, replies)
    case NewRecv(f) => f !in Recvs(ops, replies)
    case PollRecv(f, _) => f in Recvs(ops, replies)
    case DropRecv(f) => f in Recvs(ops, replies)
    case CloneReceiver => Receivers(ops, replies) > 0
    case DropReceiver => Receivers(ops, replies) > 0
    case TryRecv => true
  }

  /** An operation is refused only to a caller who does not have what it needs. */
  lemma OnlyWithoutRefused<T>(capacity: Option<nat>, ops: seq<Op<T>>, op: Op<T>)
    ensures var m, replies := After(Init<T>(capacity), ops), Replies(Init<T>(capacity), ops);
            Act(m, op).outcome.Refused? <==> !InHand(ops, replies, op)
  {
    HeldByCallers(capacity, ops);
    hide After, Replies, SenderLives, Receivers, Sending, Recvs;
    hide Crowd.Choose, Crowd.Leave, Crowd.Settle, Crowd.Disperse, Crowd.Tasks, Crowd.First, Crowd.Register;
    var m := After(Init<T>(capacity), ops);
    assert forall f :: f in m.recvs.seats <==> f in m.recvs.seats.Keys;
  }

  // ---- What the polls answer ----

  /**
   After any run, a poll of a receive answers as `TryRecv` would, but waits where that finds the queue
   empty; and the send waits exactly if what has been accepted and not received fills the capacity.
   */
  lemma NextPolls<T>(capacity: Option<nat>, ops: seq<Op<T>>, f: nat, task: nat)
    ensures var m := After(Init<T>(capacity), ops);
            var empty := Act(m, TryRecv).outcome;
            f in m.recvs.seats ==>
              Act(m, Op.PollRecv(f, task)).outcome == if empty.Empty? then Pending else empty
    ensures var m := After(Init<T>(capacity), ops);
            var replies := Replies(Init<T>(capacity), ops);
            var queued := |Accepted(ops, replies)| - |Received(replies)|;
            m.pending.Some? ==>
              Act(m, Op.PollSend(task)).outcome ==
              if m.receivers == 0 then Disconnected else if capacity == Some(queued) then Pending else Sent
  {
    hide After, Replies, Accepted, Received, Held, Init;
    Fifo(capacity, ops);
    RunKeeps(capacity, ops);
    var m, replies := After(Init<T>(capacity), ops), Replies(Init<T>(capacity), ops);
    assert m.receivers > 0 ==> |Received(replies) + m.values| == |Accepted(ops, replies)|;
  }

  // ---- Nobody sleeps through their turn ----

  /** What the owner of a receive knows of it. */
  function RecvStatus<T>(ops: seq<Op<T>>, replies: seq<Reply<T>>, f: nat): Status
    requires |replies| == |ops|
  {
    if ops == [] then NotPending
    else
      var n := |ops| - 1;
      if ops[n].PollRecv? && ops[n].f == f then Polled(replies[n].outcome.Pending?, ops[n].task)
      else if ops[n] == Op.DropRecv(f) then NotPending
      else Heard(RecvStatus(ops[..n], replies[..n], f), replies[n].woken)
  }

  function SendStatus<T>(ops: seq<Op<T>>, replies: seq<Reply<T>>): Status
    requires |replies| == |ops|
  {
    if ops == [] then NotPending
    else
      var n := |ops| - 1;
      if ops[n].PollSend? then Polled(replies[n].outcome.Pending?, ops[n].task)
      else if ops[n].DropSend? then NotPending
      else Heard(SendStatus(ops[..n], replies[..n]), replies[n].woken)
  }

  /** A poll that answers `Pending` leaves its future in line, where it was or behind everyone, with its task. */
  lemma PendingIsInLine<T>(m: Model<T>, f: nat, task: nat)
    requires Inv(m)
    ensures var t := Act(m, Op.PollRecv(f, task));
            t.outcome.Pending? ==>
              && t.after.recvs.Waits(f, task)
              && t.after.recvs.line == if f in m.recvs.line then m.recvs.line else m.recvs.line + [f]
    ensures var t := Act(m, Op.PollSend(task));
            t.outcome.Pending? ==> t.after.sends.Waits(SENDER, task)
  {
    if f in m.recvs.seats {
      Registers(m.recvs, f, task);
    }
    if m.pending.Some? {
      assert SENDER in m.sends.seats.Keys;
      Registers(m.sends, SENDER, task);
    }
  }

  /** A poll that answers anything else, and a drop, leave nothing behind. */
  lemma DoneLeavesNothing<T>(m: Model<T>, op: Op<T>)
    requires Inv(m)
    ensures op.PollRecv? || op.DropRecv? ==>
              (op.PollRecv? && Act(m, op).outcome.Pending?) || Placed(Act(m, op).after.recvs, op.f, NotPending)
    ensures op.PollSend? || op.DropSend? ==>
              (op.PollSend? && Act(m, op).outcome.Pending?) || Placed(Act(m, op).after.sends, SENDER, NotPending)
  {
    hide Crowd.Tasks, Crowd.First;
    if op.DropRecv? {
      WithoutKeeps(m.recvs.line, op.f);
    } else if !Allowed(m, op) {
      assert op.PollSend? || op.DropSend? ==> SENDER !in m.sends.seats.Keys;
    }
  }

  lemma OthersSpareRecv<T>(m: Model<T>, op: Op<T>, f: nat)
    requires Inv(m) && !((op.PollRecv? || op.DropRecv?) && op.f == f)
    ensures Spares(m.recvs, Act(m, op).after.recvs, Act(m, op).woken, f)
  {
    hide Crowd.Choose, Crowd.Leave, Crowd.Settle, Crowd.Disperse, Crowd.Enter, Crowd.Tasks, Crowd.First;
    hide Inv, Spares, Crowd.Register, Crowd.Join, Crowd.Refresh;
    CrowdsWf(m);
    StaysSpares(m.recvs, Act(m, op).woken, f);
    if op.NewRecv? || op.PollRecv? || op.DropRecv? {
      if Allowed(m, op) {
        if op.f == f {
          EnterSpares(m.recvs, f, []);
        } else {
          OthersSpare(m.recvs, op.f, if op.PollRecv? then op.task else 0, Act(m, op).woken, f);
          if op.DropRecv? {
            LeaveSpares(m.recvs, op.f, Notified, f);
          }
        }
      }
    } else {
      ChooseSpares(m.recvs, Notified, f);
      AllSpares(m.recvs, Notified, f);
    }
  }

  lemma OthersSpareSend<T>(m: Model<T>, op: Op<T>)
    requires Inv(m) && !op.PollSend? && !op.DropSend?
    ensures Spares(m.sends, Act(m, op).after.sends, Act(m, op).woken, SENDER)
  {
    hide Crowd.Choose, Crowd.Leave, Crowd.Settle, Crowd.Disperse, Crowd.Enter, Crowd.Tasks, Crowd.First;
    hide Spares, Crowd.Register, Crowd.Join, Crowd.Refresh;
    StaysSpares(m.sends, Act(m, op).woken, SENDER);
    ChooseSpares(m.sends, Notified, SENDER);
    AllSpares(m.sends, Notified, SENDER);
    if op.NewSend? && Allowed(m, op) {
      assert SENDER !in m.sends.seats.Keys;
      EnterSpares(m.sends, SENDER, []);
    }
  }

  lemma StepPlaces<T>(m: Model<T>, op: Op<T>, f: nat, recv: Status, send: Status)
    requires Inv(m) && Placed(m.recvs, f, recv) && Placed(m.sends, SENDER, send)
    ensures var t := Act(m, op);
            && Placed(t.after.recvs, f,
                      if op.PollRecv? && op.f == f then Polled(t.outcome.Pending?, op.task)
                      else if op == Op.DropRecv(f) then NotPending else Heard(recv, t.woken))
            && Placed(t.after.sends, SENDER,
                      if op.PollSend? then Polled(t.outcome.Pending?, op.task)
                      else if op.DropSend? then NotPending else Heard(send, t.woken))
  {
    hide Inv, Act, Spares, Crowd.Wf;
    var t := Act(m, op);
    StepKeeps(m, op);
    CrowdsWf(m);
    CrowdsWf(t.after);
    DoneLeavesNothing(m, op);
    if op.PollRecv? || op.PollSend? {
      PendingIsInLine(m, f, op.task);
    }
    if !((op.PollRecv? || op.DropRecv?) && op.f == f) {
      OthersSpareRecv(m, op, f);
      SparedStays(m.recvs, t.after.recvs, t.woken, f, recv);
    }
    if !op.PollSend? && !op.DropSend? {
      OthersSpareSend(m, op);
      SparedStays(m.sends, t.after.sends, t.woken, SENDER, send);
    }
  }

  /**
   In every run, for every receive and for the send: if its latest poll answered `Pending` and that
   poll's task has not been woken since, it is in line, to be woken through that task. Whoever has no
   pending poll - none made, answered otherwise, or dropped - stands in nobody's way.
   */
  lemma {:induction false} PendingIsPlaced<T>(capacity: Option<nat>, ops: seq<Op<T>>, f: nat)
    ensures var m, replies := After(Init<T>(capacity), ops), Replies(Init<T>(capacity), ops);
            && Placed(m.recvs, f, RecvStatus(ops, replies, f))
            && Placed(m.sends, SENDER, SendStatus(ops, replies))
  {
    if ops != [] {
      hide Inv, Act, Placed, Spares;
      var init, before, op := Init<T>(capacity), ops[..|ops| - 1], ops[|ops| - 1];
      PendingIsPlaced(capacity, before, f);
      assert Replies(init, ops)[..|ops| - 1] == Replies(init, before);
      RunKeeps(capacity, before);
      StepPlaces(After(init, before), op, f, RecvStatus(before, Replies(init, before), f),
                 SendStatus(before, Replies(init, before)));
    }
  }

  /** Whoever is woken has left a line they stood in: nobody is woken for nothing. */
  lemma WokenHaveLeft<T>(m: Model<T>, op: Op<T>)
    requires Inv(m)
    ensures var t := Act(m, op);
            WakesLeavers(m.recvs, t.after.recvs, t.woken) || WakesLeavers(m.sends, t.after.sends, t.woken)
  {
    hide Crowd.Choose, Crowd.Leave, Crowd.Settle, Crowd.Disperse, Crowd.Enter, Crowd.Tasks, Crowd.First;
    hide Inv, Crowd.Register, Crowd.Join, Crowd.Refresh, LeftLine;
    CrowdsWf(m);
    ChooseWakesLeaver(m.recvs, Notified);
    ChooseWakesLeaver(m.sends, Notified);
    AllWakesLeavers(m.recvs, Notified);
    AllWakesLeavers(m.sends, Notified);
    if op.DropRecv? && op.f in m.recvs.seats {
      LeaveWakesLeaver(m.recvs, op.f, Notified);
    }
  }
}
