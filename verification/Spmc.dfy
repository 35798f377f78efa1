/**
 The spmc queue. Values, endpoints and both lists of waiters change together under one lock. `send` is
 the send future in progress; its node is at the desk under `SENDER`.
 */
module Spmc {
  import opened Options
  import opened Crowds
  import opened Channels
  import opened Desks
  import opened SpmcModel

  class Queue<T> {
    var values: seq<T>
    const capacity: Option<nat>
    var senderAlive: bool
    var receivers: nat
    const recvWaiters: Desk<Notice>
    const sendWaiters: Desk<Notice>
    var send: Option<T>

    ghost function Footprint(): set<object>
      reads this, recvWaiters, sendWaiters
    {
      {this} + recvWaiters.Footprint() + sendWaiters.Footprint()
    }

    ghost predicate Apart()
      reads this, recvWaiters, sendWaiters
    {
      recvWaiters.Footprint() !! sendWaiters.Footprint() && this !in recvWaiters.Footprint() + sendWaiters.Footprint()
    }

    /** A list is in use as long as the other side could still serve it. */
    ghost predicate Valid()
      reads this, recvWaiters, sendWaiters, recvWaiters.Footprint(), sendWaiters.Footprint()
    {
      && Apart()
      && recvWaiters.Valid() && (recvWaiters.closed <==> !senderAlive)
      && sendWaiters.Valid() && (sendWaiters.closed <==> receivers == 0)
      && (SENDER in sendWaiters.crowd.seats <==> send.Some?)
    }

    ghost function Abs(): Model<T>
      reads this, recvWaiters, sendWaiters
    {
      Model(values, capacity, senderAlive, receivers, send, sendWaiters.crowd, recvWaiters.crowd)
    }

    constructor (capacity: Option<nat>)
      ensures Valid() && fresh(Footprint()) && Abs() == Init(capacity)
    {
      hide Desk.Valid;
      values, senderAlive, receivers, send := [], true, 1, None;
      this.capacity := capacity;
      recvWaiters := new Desk<Notice>();
      sendWaiters := new Desk<Notice>();
    }

    // ---- Values ----

    method HasCapacity() returns (room: bool)
      ensures room == HasRoom(Abs())
    {
      room := capacity.None? || |values| < capacity.value;
    }

    method Push(value: T) returns (woken: seq<nat>)
      requires Valid()
      modifies this`values, recvWaiters.Footprint()
      ensures Valid() && fresh(Footprint() - old(Footprint()))
      ensures Turn(Abs(), Sent, woken) == SpmcModel.Push(old(Abs()), value)
    {
      hide Desk.Valid;
      values := values + [value];
      woken := recvWaiters.SelectFirst(Notified);
    }

    method Pop() returns (r: Outcome<T>, woken: seq<nat>)
      requires Valid()
      modifies this`values, sendWaiters.Footprint()
      ensures Valid() && fresh(Footprint() - old(Footprint()))
      ensures Turn(Abs(), r, woken) == SpmcModel.Pop(old(Abs()))
    {
      hide Desk.Valid;
      if values == [] {
        return if senderAlive then Empty else Disconnected, [];
      }
      sendWaiters.Wf();
      r := Got(values[0]);
      values := values[1..];
      woken := sendWaiters.SelectFirst(Notified);
    }

    // ---- Sending ----

    method TrySend(value: T) returns (r: Outcome<T>, woken: seq<nat>)
      requires Valid() && senderAlive && send.None?
      modifies Footprint()
      ensures Valid() && fresh(Footprint() - old(Footprint()))
      ensures Turn(Abs(), r, woken) == Act(old(Abs()), Op.TrySend(value))
    {
      hide Desk.Valid, HasRoom;
      if receivers == 0 {
        return Disconnected, [];
      }
      var room := HasCapacity();
      if !room {
        return Full, [];
      }
      woken := Push(value);
      r := Sent;
    }

    method NewSend(value: T)
      requires Valid() && senderAlive && send.None?
      modifies Footprint()
      ensures Valid() && fresh(Footprint() - old(Footprint()))
      ensures Turn(Abs(), Done, []) == Act(old(Abs()), Op.NewSend(value))
    {
      hide Desk.Valid;
      send := Some(value);
      sendWaiters.Enter(SENDER);
    }

    method PollSend(task: nat) returns (r: Outcome<T>, woken: seq<nat>)
      requires Valid() && send.Some?
      modifies Footprint()
      ensures Valid() && fresh(Footprint() - old(Footprint()))
      ensures Turn(Abs(), r, woken) == Act(old(Abs()), Op.PollSend(task))
    {
      hide Desk.Valid, HasRoom;
      var room := HasCapacity();
      if receivers > 0 && !room {
        sendWaiters.Register(SENDER, task);
        return Pending, [];
      }
      var value := send.value;
      FinishSend();
      if receivers == 0 {
        return Disconnected, [];
      }
      woken := Push(value);
      r := Sent;
    }

    /** The future is done: its node, linked or notified, goes with it. */
    method FinishSend()
      requires Valid() && send.Some?
      modifies this`send, sendWaiters.Footprint()
      ensures Valid() && fresh(Footprint() - old(Footprint()))
      ensures Abs() == old(Abs()).(pending := None, sends := old(sendWaiters.crowd).Leave(SENDER))
    {
      hide Desk.Valid;
      send := None;
      if receivers == 0 {
        sendWaiters.Depart(SENDER);
      } else {
        sendWaiters.Leave(SENDER);
      }
    }

    method DropSend()
      requires Valid() && send.Some?
      modifies Footprint()
      ensures Valid() && fresh(Footprint() - old(Footprint()))
      ensures Turn(Abs(), Done, []) == Act(old(Abs()), Op.DropSend)
    {
      hide Desk.Valid;
      FinishSend();
    }

    // ---- Receiving ----

    method TryRecv() returns (r: Outcome<T>, woken: seq<nat>)
      requires Valid()
      modifies Footprint()
      ensures Valid() && fresh(Footprint() - old(Footprint()))
      ensures Turn(Abs(), r, woken) == Act(old(Abs()), Op.TryRecv)
    {
      hide Desk.Valid;
      r, woken := Pop();
    }

    method NewRecv(f: nat)
      requires Valid() && f !in recvWaiters.crowd.seats
      modifies Footprint()
      ensures Valid() && fresh(Footprint() - old(Footprint()))
      ensures Turn(Abs(), Done, []) == Act(old(Abs()), Op.NewRecv(f))
    {
      hide Desk.Valid;
      recvWaiters.Enter(f);
    }

    method PollRecv(f: nat, task: nat) returns (r: Outcome<T>, woken: seq<nat>)
      requires Valid() && f in recvWaiters.crowd.seats
      modifies Footprint()
      ensures Valid() && fresh(Footprint() - old(Footprint()))
      ensures Turn(Abs(), r, woken) == Act(old(Abs()), Op.PollRecv(f, task))
    {
      hide Desk.Valid;
      r, woken := Pop();
      if r.Empty? {
        recvWaiters.Register(f, task);
        r := Pending;
      } else if !senderAlive {
        recvWaiters.Forget(f);
      } else {
        recvWaiters.Settle(f);
      }
    }

    method DropRecv(f: nat) returns (woken: seq<nat>)
      requires Valid() && f in recvWaiters.crowd.seats
      modifies Footprint()
      ensures Valid() && fresh(Footprint() - old(Footprint()))
      ensures Turn(Abs(), Done, woken) == Act(old(Abs()), Op.DropRecv(f))
    {
      hide Desk.Valid;
      if !senderAlive {
        recvWaiters.NobodyChosen(f);
        recvWaiters.Depart(f);
        return [];
      }
      var seat := recvWaiters.Seat(f);
      recvWaiters.Leave(f);
      woken := [];
      if seat.Chosen? && values != [] {
        woken := recvWaiters.SelectFirst(Notified);
      }
    }

    // ---- Endpoints ----

    method DropSender() returns (woken: seq<nat>)
      requires Valid() && senderAlive && send.None?
      modifies Footprint()
      ensures Valid() && fresh(Footprint() - old(Footprint()))
      ensures Turn(Abs(), Done, woken) == Act(old(Abs()), Op.DropSender)
    {
      hide Desk.Valid;
      senderAlive := false;
      woken := recvWaiters.Disconnect();
    }

    method CloneReceiver()
      requires Valid() && receivers > 0
      modifies this`receivers
      ensures Valid() && Footprint() == old(Footprint())
      ensures Turn(Abs(), Done, []) == Act(old(Abs()), Op.CloneReceiver)
    {
      hide Desk.Valid;
      receivers := receivers + 1;
    }

    method DropReceiver() returns (woken: seq<nat>)
      requires Valid() && receivers > 0
      modifies Footprint()
      ensures Valid() && fresh(Footprint() - old(Footprint()))
      ensures Turn(Abs(), Done, woken) == Act(old(Abs()), Op.DropReceiver)
    {
      hide Desk.Valid;
      receivers := receivers - 1;
      if receivers != 0 {
        return [];
      }
      values := [];
      woken := sendWaiters.Disconnect();
    }

    // ---- Runs ----

    method Queued() returns (queued: seq<T>)
      ensures queued == Abs().values
    {
      queued := values;
    }

    /** Makes an operation if its caller can, and refuses it otherwise. */
    method Apply(op: Op<T>) returns (r: Reply<T>)
      requires Valid()
      modifies Footprint()
      ensures Valid() && fresh(Footprint() - old(Footprint()))
      ensures Turn(Abs(), r.outcome, r.woken) == Act(old(Abs()), op)
    {
      hide Desk.Valid, Act, Desk.Footprint, Footprint;
      if op.TrySend? || op.NewSend? || op.PollSend? || op.DropSend? {
        r := ApplySend(op);
      } else if op.TryRecv? || op.NewRecv? || op.PollRecv? || op.DropRecv? {
        r := ApplyRecv(op);
      } else {
        r := ApplyEndpoint(op);
      }
    }

    method ApplySend(op: Op<T>) returns (r: Reply<T>)
      requires Valid() && (op.TrySend? || op.NewSend? || op.PollSend? || op.DropSend?)
      modifies Footprint()
      ensures Valid() && fresh(Footprint() - old(Footprint()))
      ensures Turn(Abs(), r.outcome, r.woken) == Act(old(Abs()), op)
    {
      hide Desk.Valid, Act;
      Refuses(Abs(), op);
      var outcome: Outcome<T>, woken: seq<nat> := Refused, [];
      if op.PollSend? || op.DropSend? {
        if send.Some? {
          if op.PollSend? {
            outcome, woken := PollSend(op.task);
          } else {
            DropSend();
            outcome := Done;
          }
        }
      } else if senderAlive && send.None? {
        if op.TrySend? {
          outcome, woken := TrySend(op.value);
        } else {
          NewSend(op.value);
          outcome := Done;
        }
      }
      r := Reply(outcome, woken);
    }

    method ApplyRecv(op: Op<T>) returns (r: Reply<T>)
      requires Valid() && (op.TryRecv? || op.NewRecv? || op.PollRecv? || op.DropRecv?)
      modifies Footprint()
      ensures Valid() && fresh(Footprint() - old(Footprint()))
      ensures Turn(Abs(), r.outcome, r.woken) == Act(old(Abs()), op)
    {
      hide Desk.Valid, Act;
      Refuses(Abs(), op);
      recvWaiters.Wf();
      var outcome: Outcome<T>, woken: seq<nat> := Refused, [];
      if op.TryRecv? {
        outcome, woken := TryRecv();
      } else if op.f !in recvWaiters.futures {
        if op.NewRecv? {
          NewRecv(op.f);
          outcome := Done;
        }
      } else if op.PollRecv? {
        outcome, woken := PollRecv(op.f, op.task);
      } else if op.DropRecv? {
        woken := DropRecv(op.f);
        outcome := Done;
      }
      r := Reply(outcome, woken);
    }

    method ApplyEndpoint(op: Op<T>) returns (r: Reply<T>)
      requires Valid() && (op.DropSender? || op.CloneReceiver? || op.DropReceiver?)
      modifies Footprint()
      ensures Valid() && fresh(Footprint() - old(Footprint()))
      ensures Turn(Abs(), r.outcome, r.woken) == Act(old(Abs()), op)
    {
      hide Desk.Valid, Act;
      Refuses(Abs(), op);
      if !(if op.DropSender? then senderAlive && send.None? else receivers > 0) {
        return Reply(Refused, []);
      }
      var woken: seq<nat> := [];
      match op {
        case DropSender => woken := DropSender();
        case CloneReceiver => CloneReceiver();
        case DropReceiver => woken := DropReceiver();
      }
      r := Reply(Done, woken);
    }
  }

  /**
   Every run of the queue answers as the model does, wakes whom it wakes and leaves what it leaves; so
   values come out in the order they were accepted, each once, and none is lost while a receiver lives.
   */
  method Play<T>(capacity: Option<nat>, ops: seq<Op<T>>) returns (replies: seq<Reply<T>>, queued: seq<T>)
    ensures replies == Replies(Init<T>(capacity), ops) && queued == After(Init<T>(capacity), ops).values
    ensures Received(replies) + queued <= Accepted(ops, replies)
    ensures After(Init<T>(capacity), ops).receivers > 0 ==> Received(replies) + queued == Accepted(ops, replies)
    ensures capacity.Some? ==> |queued| <= capacity.value
  {
    hide Queue.Valid, Queue.Abs, Queue.Footprint, Act, Init, Accepted, Received, Held;
    var q := new Queue<T>(capacity);
    ghost var init := q.Abs();
    replies := [];
    for i := 0 to |ops|
      invariant fresh(q.Footprint()) && q.Valid() && q.Abs() == After(init, ops[..i])
      invariant replies == Replies(init, ops[..i])
    {
      assert ops[..i + 1][..i] == ops[..i];
      label before:
      var r := q.Apply(ops[i]);
      assert forall o :: o in q.Footprint() ==> o in old@before(q.Footprint()) || fresh@before(o);
      replies := replies + [r];
    }
    assert ops[..|ops|] == ops;
    queued := q.Queued();
    Fifo(capacity, ops);
    RunKeeps(capacity, ops);
  }
}
