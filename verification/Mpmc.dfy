/**
 The mpmc queue. Values, endpoint counts and both lists of waiters change together under one lock.
 `permits` and the futures at the two desks stand for what callers hold outside the queue.
 */
module Mpmc {
  import opened Options
  import opened Crowds
  import opened Channels
  import opened Desks
  import opened MpmcModel

  class Queue<T> {
    var values: seq<T>
    var available: Option<nat>
    var senders: nat
    var receivers: nat
    const recvWaiters: Desk<Notice>
    const sendWaiters: Desk<Grant>
    var permits: nat

    ghost function Footprint(): set<object>
      reads this, recvWaiters, sendWaiters
    {
      {this} + recvWaiters.Footprint() + sendWaiters.Footprint()
    }

    ghost predicate Apart()
      reads this, recvWaiters, sendWaiters
    {
      recvWaiters.Footprint() !! sendWaiters.Footprint() && this !in recvWaiters.Footprint() + sendWaiters.Footprint()
    }

    /** A list is in use as long as the other side could still serve it. */
    ghost predicate Valid()
      reads this, recvWaiters, sendWaiters, recvWaiters.Footprint(), sendWaiters.Footprint()
    {
      && Apart()
      && recvWaiters.Valid() && (recvWaiters.closed <==> senders == 0)
      && sendWaiters.Valid() && (sendWaiters.closed <==> receivers == 0)
    }

    ghost function Abs(): Model<T>
      reads this, recvWaiters, sendWaiters
    {
      Model(values, available, senders, receivers, permits, sendWaiters.crowd, recvWaiters.crowd)
    }

    constructor (capacity: Option<nat>)
      ensures Valid() && fresh(Footprint()) && Abs() == Init(capacity)
    {
      hide Desk.Valid;
      values, available, senders, receivers, permits := [], capacity, 1, 1, 0;
      recvWaiters := new Desk<Notice>();
      sendWaiters := new Desk<Grant>();
    }

    // ---- Capacity and values ----

    /** Takes a free slot; the caller decides who owns it from here. */
    method Acquire() returns (r: Outcome<T>)
      requires Valid()
      modifies this`available
      ensures Valid()
      ensures r == if receivers == 0 then Disconnected else if old(available) == Some(0) then Full else Done
      ensures Abs() == if r.Done? then Take(old(Abs())) else old(Abs())
    {
      hide Desk.Valid;
      if receivers == 0 {
        return Disconnected;
      }
      if available == Some(0) {
        return Full;
      }
      if available.Some? {
        available := Some(available.value - 1);
      }
      r := Done;
    }

    method Release(ghost outcome: Outcome<T>) returns (woken: seq<nat>)
      requires Valid()
      modifies this`available, sendWaiters.Footprint()
      ensures Valid() && fresh(Footprint() - old(Footprint()))
      ensures Turn(Abs(), outcome, woken) == MpmcModel.Release(old(Abs()), outcome)
    {
      hide Desk.Valid;
      if receivers == 0 || available.None? {
        return [];
      }
      woken := sendWaiters.SelectFirst(Granted);
      assert Apart() && sendWaiters.Valid() && recvWaiters.Valid();
      if woken == [] {
        available := Some(available.value + 1);
      }
    }

    method Push(value: T) returns (woken: seq<nat>)
      requires Valid()
      modifies this`values, recvWaiters.Footprint()
      ensures Valid() && fresh(Footprint() - old(Footprint()))
      ensures Turn(Abs(), Sent, woken) == MpmcModel.Push(old(Abs()), value)
    {
      hide Desk.Valid;
      values := values + [value];
      woken := recvWaiters.SelectFirst(Notified);
    }

    /** Takes the next value and passes its slot on. */
    method Pop() returns (r: Outcome<T>, woken: seq<nat>)
      requires Valid()
      modifies this`values, this`available, sendWaiters.Footprint()
      ensures Valid() && fresh(Footprint() - old(Footprint()))
      ensures Turn(Abs(), r, woken) == MpmcModel.Pop(old(Abs()))
    {
      hide Desk.Valid;
      if values == [] {
        return if senders == 0 then Disconnected else Empty, [];
      }
      r := Got(values[0]);
      values := values[1..];
      woken := Release(r);
    }

    // ---- Sending ----

    method TrySend(value: T) returns (r: Outcome<T>, woken: seq<nat>)
      requires Valid()
      modifies Footprint()
      ensures Valid() && fresh(Footprint() - old(Footprint()))
      ensures Turn(Abs(), r, woken) == Act(old(Abs()), Op.TrySend(value))
    {
      hide Desk.Valid;
      r := Acquire();
      woken := [];
      if r.Done? {
        woken := Push(value);
        r := Sent;
      }
    }

    method TryReserve() returns (r: Outcome<T>)
      requires Valid()
      modifies this
      ensures Valid() && fresh(Footprint() - old(Footprint()))
      ensures Turn(Abs(), r, []) == Act(old(Abs()), Op.TryReserve)
    {
      hide Desk.Valid;
      r := Acquire();
      if r.Done? {
        permits := permits + 1;
        r := Reserved;
      }
    }

    method SendWithPermit(value: T) returns (r: Outcome<T>, woken: seq<nat>)
      requires Valid() && permits > 0
      modifies Footprint()
      ensures Valid() && fresh(Footprint() - old(Footprint()))
      ensures Turn(Abs(), r, woken) == Act(old(Abs()), Op.SendWithPermit(value))
    {
      hide Desk.Valid;
      permits := permits - 1;
      if receivers == 0 {
        r := Disconnected;
        woken := Release(r);
      } else {
        r := Sent;
        woken := Push(value);
      }
    }

    method DropPermit() returns (woken: seq<nat>)
      requires Valid() && permits > 0
      modifies Footprint()
      ensures Valid() && fresh(Footprint() - old(Footprint()))
      ensures Turn(Abs(), Done, woken) == Act(old(Abs()), Op.DropPermit)
    {
      hide Desk.Valid;
      permits := permits - 1;
      woken := Release(Done);
    }

    // ---- Reserve futures ----

    method NewReserve(f: nat)
      requires Valid() && f !in sendWaiters.crowd.seats
      modifies Footprint()
      ensures Valid() && fresh(Footprint() - old(Footprint()))
      ensures Turn(Abs(), Done, []) == Act(old(Abs()), Op.NewReserve(f))
    {
      hide Desk.Valid;
      sendWaiters.Enter(f);
    }

    method PollReserve(f: nat, task: nat) returns (r: Outcome<T>)
      requires Valid() && f in sendWaiters.crowd.seats
      modifies Footprint()
      ensures Valid() && fresh(Footprint() - old(Footprint()))
      ensures Turn(Abs(), r, []) == Act(old(Abs()), Op.PollReserve(f, task))
    {
      hide Desk.Valid;
      if receivers == 0 {
        sendWaiters.Forget(f);
        return Disconnected;
      }
      var seat := sendWaiters.Seat(f);
      if seat.Chosen? {
        permits := permits + 1;
        sendWaiters.Settle(f);
        r := Reserved;
      } else if seat.Away? && available != Some(0) {
        if available.Some? {
          available := Some(available.value - 1);
        }
        permits := permits + 1;
        r := Reserved;
      } else {
        RegisterReserve(f, seat, task);
        r := Pending;
      }
    }

    /** Joins the line, or keeps its place in it with a fresh waker. */
    method RegisterReserve(f: nat, seat: Seat<Grant>, task: nat)
      requires Valid() && receivers > 0 && f in sendWaiters.crowd.seats
      requires seat == sendWaiters.crowd.seats[f] && !seat.Chosen?
      modifies sendWaiters.Footprint()
      ensures Valid() && fresh(Footprint() - old(Footprint()))
      ensures var was := old(sendWaiters.crowd);
              Abs() == old(Abs()).(sends := if seat.Away? then was.Join(f, task) else was.Refresh(f, task))
    {
      hide Desk.Valid;
      if seat.Away? {
        sendWaiters.Join(f, task);
      } else {
        sendWaiters.Refresh(f, task);
      }
    }

    method DropReserve(f: nat) returns (woken: seq<nat>)
      requires Valid() && f in sendWaiters.crowd.seats
      modifies Footprint()
      ensures Valid() && fresh(Footprint() - old(Footprint()))
      ensures Turn(Abs(), Done, woken) == Act(old(Abs()), Op.DropReserve(f))
    {
      hide Desk.Valid;
      if receivers == 0 {
        sendWaiters.NobodyChosen(f);
        sendWaiters.Depart(f);
        return [];
      }
      var seat := sendWaiters.Seat(f);
      sendWaiters.Leave(f);
      woken := [];
      if seat.Chosen? {
        woken := Release(Done);
      }
    }

    // ---- Recv futures ----

    method TryRecv() returns (r: Outcome<T>, woken: seq<nat>)
      requires Valid()
      modifies Footprint()
      ensures Valid() && fresh(Footprint() - old(Footprint()))
      ensures Turn(Abs(), r, woken) == Act(old(Abs()), Op.TryRecv)
    {
      hide Desk.Valid;
      r, woken := Pop();
    }

    method NewRecv(f: nat)
      requires Valid() && f !in recvWaiters.crowd.seats
      modifies Footprint()
      ensures Valid() && fresh(Footprint() - old(Footprint()))
      ensures Turn(Abs(), Done, []) == Act(old(Abs()), Op.NewRecv(f))
    {
      hide Desk.Valid;
      recvWaiters.Enter(f);
    }

    method PollRecv(f: nat, task: nat) returns (r: Outcome<T>, woken: seq<nat>)
      requires Valid() && f in recvWaiters.crowd.seats
      modifies Footprint()
      ensures Valid() && fresh(Footprint() - old(Footprint()))
      ensures Turn(Abs(), r, woken) == Act(old(Abs()), Op.PollRecv(f, task))
    {
      hide Desk.Valid;
      r, woken := Pop();
      if r.Empty? {
        recvWaiters.Register(f, task);
        r := Pending;
      } else if senders == 0 {
        recvWaiters.Forget(f);
      } else {
        recvWaiters.Settle(f);
      }
    }

    method DropRecv(f: nat) returns (woken: seq<nat>)
      requires Valid() && f in recvWaiters.crowd.seats
      modifies Footprint()
      ensures Valid() && fresh(Footprint() - old(Footprint()))
      ensures Turn(Abs(), Done, woken) == Act(old(Abs()), Op.DropRecv(f))
    {
      hide Desk.Valid;
      if senders == 0 {
        recvWaiters.NobodyChosen(f);
        recvWaiters.Depart(f);
        return [];
      }
      var seat := recvWaiters.Seat(f);
      recvWaiters.Leave(f);
      woken := [];
      if seat.Chosen? && values != [] {
        woken := recvWaiters.SelectFirst(Notified);
      }
    }

    // ---- Endpoints ----

    method CloneSender()
      requires Valid() && senders > 0
      modifies this`senders
      ensures Valid() && Footprint() == old(Footprint())
      ensures Turn(Abs(), Done, []) == Act(old(Abs()), Op.CloneSender)
    {
      hide Desk.Valid;
      senders := senders + 1;
    }

    method DropSender() returns (woken: seq<nat>)
      requires Valid() && senders > 0
      modifies Footprint()
      ensures Valid() && fresh(Footprint() - old(Footprint()))
      ensures Turn(Abs(), Done, woken) == Act(old(Abs()), Op.DropSender)
    {
      hide Desk.Valid;
      senders := senders - 1;
      if senders != 0 {
        return [];
      }
      woken := recvWaiters.Disconnect();
    }

    method CloneReceiver()
      requires Valid() && receivers > 0
      modifies this`receivers
      ensures Valid() && Footprint() == old(Footprint())
      ensures Turn(Abs(), Done, []) == Act(old(Abs()), Op.CloneReceiver)
    {
      hide Desk.Valid;
      receivers := receivers + 1;
    }

    method DropReceiver() returns (woken: seq<nat>)
      requires Valid() && receivers > 0
      modifies Footprint()
      ensures Valid() && fresh(Footprint() - old(Footprint()))
      ensures Turn(Abs(), Done, woken) == Act(old(Abs()), Op.DropReceiver)
    {
      hide Desk.Valid;
      receivers := receivers - 1;
      if receivers != 0 {
        return [];
      }
      values := [];
      woken := sendWaiters.Disconnect();
    }

    // ---- Runs ----

    method Queued() returns (queued: seq<T>)
      ensures queued == Abs().values
    {
      queued := values;
    }

    /** Makes an operation if its caller can, and refuses it otherwise. */
    method Apply(op: Op<T>) returns (r: Reply<T>)
      requires Valid()
      modifies Footprint()
      ensures Valid() && fresh(Footprint() - old(Footprint()))
      ensures Turn(Abs(), r.outcome, r.woken) == Act(old(Abs()), op)
    {
      hide Desk.Valid, Act, Desk.Footprint, Footprint;
      if op.TrySend? || op.TryReserve? || op.SendWithPermit? || op.DropPermit? {
        r := ApplySend(op);
      } else if op.NewReserve? || op.PollReserve? || op.DropReserve? {
        r := ApplyReserve(op);
      } else if op.TryRecv? || op.NewRecv? || op.PollRecv? || op.DropRecv? {
        r := ApplyRecv(op);
      } else {
        r := ApplyEndpoint(op);
      }
    }

    method ApplySend(op: Op<T>) returns (r: Reply<T>)
      requires Valid() && (op.TrySend? || op.TryReserve? || op.SendWithPermit? || op.DropPermit?)
      modifies Footprint()
      ensures Valid() && fresh(Footprint() - old(Footprint()))
      ensures Turn(Abs(), r.outcome, r.woken) == Act(old(Abs()), op)
    {
      hide Desk.Valid, Act;
      Refuses(Abs(), op);
      var outcome: Outcome<T>, woken: seq<nat> := Refused, [];
      if op.TrySend? {
        outcome, woken := TrySend(op.value);
      } else if op.TryReserve? {
        outcome := TryReserve();
      } else if permits > 0 {
        if op.SendWithPermit? {
          outcome, woken := SendWithPermit(op.value);
        } else {
          woken := DropPermit();
          outcome := Done;
        }
      }
      r := Reply(outcome, woken);
    }

    method ApplyReserve(op: Op<T>) returns (r: Reply<T>)
      requires Valid() && (op.NewReserve? || op.PollReserve? || op.DropReserve?)
      modifies Footprint()
      ensures Valid() && fresh(Footprint() - old(Footprint()))
      ensures Turn(Abs(), r.outcome, r.woken) == Act(old(Abs()), op)
    {
      hide Desk.Valid, Act;
      Refuses(Abs(), op);
      sendWaiters.Wf();
      var outcome: Outcome<T>, woken: seq<nat> := Refused, [];
      if op.f !in sendWaiters.futures {
        if op.NewReserve? {
          NewReserve(op.f);
          outcome := Done;
        }
      } else if op.PollReserve? {
        outcome := PollReserve(op.f, op.task);
      } else if op.DropReserve? {
        woken := DropReserve(op.f);
        outcome := Done;
      }
      r := Reply(outcome, woken);
    }

    method ApplyRecv(op: Op<T>) returns (r: Reply<T>)
      requires Valid() && (op.TryRecv? || op.NewRecv? || op.PollRecv? || op.DropRecv?)
      modifies Footprint()
      ensures Valid() && fresh(Footprint() - old(Footprint()))
      ensures Turn(Abs(), r.outcome, r.woken) == Act(old(Abs()), op)
    {
      hide Desk.Valid, Act;
      Refuses(Abs(), op);
      recvWaiters.Wf();
      var outcome: Outcome<T>, woken: seq<nat> := Refused, [];
      if op.TryRecv? {
        outcome, woken := TryRecv();
      } else if op.f !in recvWaiters.futures {
        if op.NewRecv? {
          NewRecv(op.f);
          outcome := Done;
        }
      } else if op.PollRecv? {
        outcome, woken := PollRecv(op.f, op.task);
      } else if op.DropRecv? {
        woken := DropRecv(op.f);
        outcome := Done;
      }
      r := Reply(outcome, woken);
    }

    method ApplyEndpoint(op: Op<T>) returns (r: Reply<T>)
      requires Valid() && (op.CloneSender? || op.DropSender? || op.CloneReceiver? || op.DropReceiver?)
      modifies Footprint()
      ensures Valid() && fresh(Footprint() - old(Footprint()))
      ensures Turn(Abs(), r.outcome, r.woken) == Act(old(Abs()), op)
    {
      hide Desk.Valid, Act;
      Refuses(Abs(), op);
      if (if op.CloneSender? || op.DropSender? then senders else receivers) == 0 {
        return Reply(Refused, []);
      }
      var woken: seq<nat> := [];
      match op {
        case CloneSender => CloneSender();
        case DropSender => woken := DropSender();
        case CloneReceiver => CloneReceiver();
        case DropReceiver => woken := DropReceiver();
      }
      r := Reply(Done, woken);
    }
  }

  /**
   Every run of the queue answers as the model does, wakes whom it wakes and leaves what it leaves; so
   values come out in the order they were accepted, each once, and none is lost while a receiver lives.
   */
  method Play<T>(capacity: Option<nat>, ops: seq<Op<T>>) returns (replies: seq<Reply<T>>, queued: seq<T>)
    ensures replies == Replies(Init<T>(capacity), ops) && queued == After(Init<T>(capacity), ops).values
    ensures Received(replies) + queued <= Accepted(ops, replies)
    ensures After(Init<T>(capacity), ops).receivers > 0 ==> Received(replies) + queued == Accepted(ops, replies)
  {
    hide Queue.Valid, Queue.Abs, Queue.Footprint, Act, Init, Accepted, Received;
    var q := new Queue<T>(capacity);
    ghost var init := q.Abs();
    replies := [];
    for i := 0 to |ops|
      invariant fresh(q.Footprint()) && q.Valid() && q.Abs() == After(init, ops[..i])
      invariant replies == Replies(init, ops[..i])
    {
      assert ops[..i + 1][..i] == ops[..i];
      label before:
      var r := q.Apply(ops[i]);
      assert forall o :: o in q.Footprint() ==> o in old@before(q.Footprint()) || fresh@before(o);
      replies := replies + [r];
    }
    assert ops[..|ops|] == ops;
    queued := q.Queued();
    Fifo(capacity, ops);
  }
}
