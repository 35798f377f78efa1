/**
 The mpmc queue on values alone: no nodes, no links, no lock. It says what every operation answers and
 whom it wakes; the laws of every run are proved here, and `Mpmc` proves that the queue follows it.
 */
module MpmcModel {
  import opened Options
  import opened WaitQueues
  import opened Crowds
  import opened Channels

  datatype Op<T> =
    | TrySend(value: T)
    | TryReserve
    | SendWithPermit(value: T)
    | DropPermit
    | NewReserve(f: nat)
    | PollReserve(f: nat, task: nat)
    | DropReserve(f: nat)
    | TryRecv
    | NewRecv(f: nat)
    | PollRecv(f: nat, task: nat)
    | DropRecv(f: nat)
    | CloneSender
    | DropSender
    | CloneReceiver
    | DropReceiver

  /** `free` is `None` for an unbounded queue; `permits` are the permits callers hold. */
  datatype Model<T> = Model(
    values: seq<T>, free: Option<nat>, senders: nat, receivers: nat, permits: nat,
    sends: Crowd<Grant>, recvs: Crowd<Notice>)

  datatype Turn<T> = Turn(after: Model<T>, outcome: Outcome<T>, woken: seq<nat>)

  function Init<T>(capacity: Option<nat>): Model<T> {
    Model([], capacity, 1, 1, 0, Crowd([], map[]), Crowd([], map[]))
  }

  // ---- One operation ----

  function Take<T>(m: Model<T>): Model<T> {
    if m.free.Some? && m.free.value > 0 then m.(free := Some(m.free.value - 1)) else m
  }

  /** A slot its owner has let go of goes to the first sender in line, or becomes free. */
  function Release<T>(m: Model<T>, outcome: Outcome<T>): Turn<T> {
    if m.receivers == 0 || m.free.None? then Turn(m, outcome, [])
    else if m.sends.line != [] then Turn(m.(sends := m.sends.Choose(Granted)), outcome, m.sends.First())
    else Turn(m.(free := Some(m.free.value + 1)), outcome, [])
  }

  /** The value is queued, and the first receiver in line is told. */
  function Push<T>(m: Model<T>, value: T): Turn<T> {
    Turn(m.(values := m.values + [value], recvs := m.recvs.Choose(Notified)), Sent, m.recvs.First())
  }

  function Pop<T>(m: Model<T>): Turn<T> {
    if m.values != [] then Release(m.(values := m.values[1..]), Got(m.values[0]))
    else Turn(m, if m.senders == 0 then Disconnected else Empty, [])
  }

  function Reserve<T>(m: Model<T>): Turn<T> {
    if m.receivers == 0 then Turn(m, Disconnected, [])
    else if m.free == Some(0) then Turn(m, Full, [])
    else Turn(Take(m).(permits := m.permits + 1), Reserved, [])
  }

  function SendNow<T>(m: Model<T>, value: T): Turn<T> {
    if m.receivers == 0 then Turn(m, Disconnected, [])
    else if m.free == Some(0) then Turn(m, Full, [])
    else Push(Take(m), value)
  }

  /** Without a receiver the value comes back and the permit is dropped. */
  function SendWithPermit<T>(m: Model<T>, value: T): Turn<T>
    requires m.permits > 0
  {
    var m' := m.(permits := m.permits - 1);
    if m.receivers == 0 then Release(m', Disconnected) else Push(m', value)
  }

  /** A reservation in line gets a slot only by a grant; a new one takes a free slot if there is one. */
  function PollReserve<T>(m: Model<T>, f: nat, task: nat): Turn<T>
    requires f in m.sends.seats
  {
    if m.receivers == 0 then Turn(m.(sends := m.sends.Settle(f)), Disconnected, [])
    else
      match m.sends.seats[f]
      case Chosen(_) => Turn(m.(sends := m.sends.Settle(f), permits := m.permits + 1), Reserved, [])
      case InLine(_) => Turn(m.(sends := m.sends.Refresh(f, task)), Pending, [])
      case Away =>
        if m.free == Some(0) then Turn(m.(sends := m.sends.Join(f, task)), Pending, [])
        else Turn(Take(m).(permits := m.permits + 1), Reserved, [])
  }

  /** Cancelling passes a granted slot on. */
  function DropReserve<T>(m: Model<T>, f: nat): Turn<T>
    requires f in m.sends.seats
  {
    var m' := m.(sends := m.sends.Leave(f));
    if m.sends.seats[f].Chosen? then Release(m', Done) else Turn(m', Done, [])
  }

  function PollRecv<T>(m: Model<T>, f: nat, task: nat): Turn<T> {
    if m.values == [] && m.senders > 0 then Turn(m.(recvs := m.recvs.Register(f, task)), Pending, [])
    else
      var t := Pop(m);
      t.(after := t.after.(recvs := m.recvs.Settle(f)))
  }

  /** A notice its receiver will not act on goes to the next one while a value waits. */
  function DropRecv<T>(m: Model<T>, f: nat): Turn<T>
    requires f in m.recvs.seats
  {
    var rest := m.recvs.Leave(f);
    if m.recvs.seats[f].Chosen? && m.values != [] then Turn(m.(recvs := rest.Choose(Notified)), Done, rest.First())
    else Turn(m.(recvs := rest), Done, [])
  }

  /** With the last sender gone everyone in line is woken and nobody waits again. */
  function DropSender<T>(m: Model<T>): Turn<T>
    requires m.senders > 0
  {
    if m.senders > 1 then Turn(m.(senders := m.senders - 1), Done, [])
    else Turn(m.(senders := 0, recvs := m.recvs.Disperse()), Done, m.recvs.Tasks())
  }

  /** With the last receiver gone the queued values are discarded too. */
  function DropReceiver<T>(m: Model<T>): Turn<T>
    requires m.receivers > 0
  {
    if m.receivers > 1 then Turn(m.(receivers := m.receivers - 1), Done, [])
    else Turn(m.(receivers := 0, values := [], sends := m.sends.Disperse()), Done, m.sends.Tasks())
  }

  /** Whether a caller can make this operation at all: it needs the permit, future or endpoint it names. */
  predicate Allowed<T>(m: Model<T>, op: Op<T>) {
    match op
    case SendWithPermit(_) => m.permits > 0
    case DropPermit => m.permits > 0
    case NewReserve(f) => f !in m.sends.seats
    case PollReserve(f, _) => f in m.sends.seats
    case DropReserve(f) => f in m.sends.seats
    case NewRecv(f) => f !in m.recvs.seats
    case PollRecv(f, _) => f in m.recvs.seats
    case DropRecv(f) => f in m.recvs.seats
    case CloneSender => m.senders > 0
    case DropSender => m.senders > 0
    case CloneReceiver => m.receivers > 0
    case DropReceiver => m.receivers > 0
    case _ => true
  }

  function Act<T>(m: Model<T>, op: Op<T>): Turn<T> {
    if !Allowed(m, op) then Turn(m, Refused, [])
    else
      match op
      case TrySend(value) => SendNow(m, value)
      case TryReserve => Reserve(m)
      case SendWithPermit(value) => SendWithPermit(m, value)
      case DropPermit => Release(m.(permits := m.permits - 1), Done)
      case NewReserve(f) => Turn(m.(sends := m.sends.Enter(f)), Done, [])
      case PollReserve(f, task) => PollReserve(m, f, task)
      case DropReserve(f) => DropReserve(m, f)
      case TryRecv => Pop(m)
      case NewRecv(f) => Turn(m.(recvs := m.recvs.Enter(f)), Done, [])
      case PollRecv(f, task) => PollRecv(m, f, task)
      case DropRecv(f) => DropRecv(m, f)
      case CloneSender => Turn(m.(senders := m.senders + 1), Done, [])
      case DropSender => DropSender(m)
      case CloneReceiver => Turn(m.(receivers := m.receivers + 1), Done, [])
      case DropReceiver => DropReceiver(m)
  }

  lemma Refuses<T>(m: Model<T>, op: Op<T>)
    ensures !Allowed(m, op) ==> Act(m, op) == Turn(m, Refused, [])
  {
  }

  // ---- Runs ----

  function After<T>(m: Model<T>, ops: seq<Op<T>>): Model<T> {
    if ops == [] then m else Act(After(m, ops[..|ops| - 1]), ops[|ops| - 1]).after
  }

  function Replies<T>(m: Model<T>, ops: seq<Op<T>>): (r: seq<Reply<T>>)
    ensures |r| == |ops|
  {
    if ops == [] then []
    else
      var t := Act(After(m, ops[..|ops| - 1]), ops[|ops| - 1]);
      Replies(m, ops[..|ops| - 1]) + [Reply(t.outcome, t.woken)]
  }

  /** What an operation that was answered `Sent` has handed over. */
  function Offered<T>(op: Op<T>): seq<T> {
    if op.TrySend? || op.SendWithPermit? then [op.value] else []
  }

  /** The values accepted so far, in order. */
  function Accepted<T>(ops: seq<Op<T>>, replies: seq<Reply<T>>): seq<T>
    requires |replies| == |ops|
  {
    if ops == [] then []
    else
      var n := |ops| - 1;
      Accepted(ops[..n], replies[..n]) + if replies[n].outcome.Sent? then Offered(ops[n]) else []
  }

  // ---- What every state keeps ----

  /** Every slot is free, filled, reserved by a permit, or granted to a waiter that has yet to claim it. */
  ghost predicate Conserved<T>(capacity: Option<nat>, m: Model<T>) {
    && (m.free.None? <==> capacity.None?)
    && (m.free.None? ==> m.sends.line == [] && m.sends.Chosen() == {})
    && (m.sends.line != [] ==> m.free == Some(0))
    && (m.receivers > 0 && capacity.Some? ==>
          m.free.value + |m.values| + m.permits + |m.sends.Chosen()| == capacity.value)
  }

  /** A receiver waits in line only while every queued value has been announced to someone. */
  ghost predicate Announced<T>(m: Model<T>) {
    m.recvs.line != [] ==> |m.values| <= |m.recvs.Chosen()|
  }

  /** Once the other side is gone nobody waits for it. */
  ghost predicate Settled<T>(m: Model<T>) {
    && (m.receivers == 0 ==> m.values == [] && m.sends.line == [] && m.sends.Chosen() == {})
    && (m.senders == 0 ==> m.recvs.line == [] && m.recvs.Chosen() == {})
  }

  ghost predicate Inv<T>(capacity: Option<nat>, m: Model<T>) {
    m.sends.Wf() && m.recvs.Wf() && Conserved(capacity, m) && Announced(m) && Settled(m)
  }

  lemma TakeKeeps<T>(capacity: Option<nat>, m: Model<T>)
    requires Inv(capacity, m) && m.receivers > 0 && m.free != Some(0)
    ensures Inv(capacity, Take(m).(permits := m.permits + 1))
  {
  }

  lemma PushKeeps<T>(capacity: Option<nat>, m: Model<T>, value: T)
    requires Inv(capacity, m) && m.permits > 0 && m.receivers > 0
    ensures Inv(capacity, Push(m.(permits := m.permits - 1), value).after)
  {
    Chooses(m.recvs, Notified);
  }

  /** `m` has one slot in nobody's hands. */
  lemma ReleaseKeeps<T>(capacity: Option<nat>, m: Model<T>, outcome: Outcome<T>)
    requires m.receivers > 0 ==> Inv(capacity, m.(permits := m.permits + 1))
    requires m.receivers == 0 ==> Inv(capacity, m)
    ensures Inv(capacity, Release(m, outcome).after)
  {
    Chooses(m.sends, Granted);
  }

  lemma PopKeeps<T>(capacity: Option<nat>, m: Model<T>)
    requires Inv(capacity, m)
    ensures Inv(capacity, Pop(m).after)
  {
    if m.values != [] {
      ReleaseKeeps(capacity, m.(values := m.values[1..]), Got(m.values[0]));
    }
  }

  lemma SendingKeeps<T>(capacity: Option<nat>, m: Model<T>, op: Op<T>)
    requires Inv(capacity, m) && Allowed(m, op)
    requires op.TrySend? || op.TryReserve? || op.SendWithPermit? || op.DropPermit?
    ensures Inv(capacity, Act(m, op).after)
  {
    if op.DropPermit? {
      ReleaseKeeps(capacity, m.(permits := m.permits - 1), Done);
    } else if op.SendWithPermit? {
      if m.receivers > 0 {
        PushKeeps(capacity, m, op.value);
      }
    } else if m.receivers > 0 && m.free != Some(0) {
      TakeKeeps(capacity, m);
      if op.TrySend? {
        PushKeeps(capacity, Take(m).(permits := m.permits + 1), op.value);
        assert Take(m).(permits := m.permits + 1).(permits := m.permits) == Take(m);
      }
    }
  }

  lemma ReservingKeeps<T>(capacity: Option<nat>, m: Model<T>, op: Op<T>)
    requires Inv(capacity, m) && Allowed(m, op)
    requires op.NewReserve? || op.PollReserve? || op.DropReserve?
    ensures Inv(capacity, Act(m, op).after)
  {
    if op.NewReserve? {
      Enters(m.sends, op.f);
    } else {
      Settles(m.sends, op.f);
      if op.DropReserve? {
        var m' := m.(sends := m.sends.Leave(op.f));
        if m.sends.seats[op.f].Chosen? {
          ReleaseKeeps(capacity, m', Done);
        }
      } else if m.receivers > 0 {
        PollReserveKeeps(capacity, m, op.f, op.task);
      }
    }
  }

  lemma PollReserveKeeps<T>(capacity: Option<nat>, m: Model<T>, f: nat, task: nat)
    requires Inv(capacity, m) && f in m.sends.seats && m.receivers > 0
    ensures Inv(capacity, PollReserve(m, f, task).after)
  {
    if m.sends.seats[f].Chosen? {
      Settles(m.sends, f);
    } else if m.sends.seats[f].InLine? {
      Refreshes(m.sends, f, task);
    } else if m.free == Some(0) {
      Joins(m.sends, f, task);
    } else {
      TakeKeeps(capacity, m);
    }
  }

  lemma ReceivingKeeps<T>(capacity: Option<nat>, m: Model<T>, op: Op<T>)
    requires Inv(capacity, m) && Allowed(m, op)
    requires op.TryRecv? || op.NewRecv? || op.PollRecv? || op.DropRecv?
    ensures Inv(capacity, Act(m, op).after)
  {
    if op.TryRecv? {
      PopKeeps(capacity, m);
    } else if op.NewRecv? {
      Enters(m.recvs, op.f);
    } else {
      Settles(m.recvs, op.f);
      if op.DropRecv? {
        Chooses(m.recvs.Leave(op.f), Notified);
      } else {
        PollRecvKeeps(capacity, m, op.f, op.task);
      }
    }
  }

  lemma PollRecvKeeps<T>(capacity: Option<nat>, m: Model<T>, f: nat, task: nat)
    requires Inv(capacity, m) && f in m.recvs.seats
    ensures Inv(capacity, PollRecv(m, f, task).after)
  {
    Settles(m.recvs, f);
    if m.values == [] && m.senders > 0 {
      if m.recvs.seats[f].InLine? {
        Refreshes(m.recvs, f, task);
      } else {
        Joins(m.recvs.Settle(f), f, task);
      }
    } else {
      PopKeeps(capacity, m);
    }
  }

  lemma EndpointsKeep<T>(capacity: Option<nat>, m: Model<T>, op: Op<T>)
    requires Inv(capacity, m) && Allowed(m, op)
    requires op.CloneSender? || op.DropSender? || op.CloneReceiver? || op.DropReceiver?
    ensures Inv(capacity, Act(m, op).after)
  {
    Disperses(m.sends);
    Disperses(m.recvs);
  }

  lemma StepKeeps<T>(capacity: Option<nat>, m: Model<T>, op: Op<T>)
    requires Inv(capacity, m)
    ensures Inv(capacity, Act(m, op).after)
  {
    hide Inv, Allowed;
    if Allowed(m, op) {
      if op.TrySend? || op.TryReserve? || op.SendWithPermit? || op.DropPermit? {
        SendingKeeps(capacity, m, op);
      } else if op.NewReserve? || op.PollReserve? || op.DropReserve? {
        ReservingKeeps(capacity, m, op);
      } else if op.TryRecv? || op.NewRecv? || op.PollRecv? || op.DropRecv? {
        ReceivingKeeps(capacity, m, op);
      } else {
        EndpointsKeep(capacity, m, op);
      }
    }
  }

  lemma {:induction false} RunKeeps<T>(capacity: Option<nat>, m: Model<T>, ops: seq<Op<T>>)
    requires Inv(capacity, m)
    ensures Inv(capacity, After(m, ops))
  {
    if ops != [] {
      RunKeeps(capacity, m, ops[..|ops| - 1]);
      StepKeeps(capacity, After(m, ops[..|ops| - 1]), ops[|ops| - 1]);
    }
  }

  // ---- First in, first out ----

  /** What was accepted has been received, is queued, or went with the last receiver. */
  ghost predicate Delivered<T>(accepted: seq<T>, received: seq<T>, m: Model<T>) {
    && received + m.values <= accepted
    && (m.receivers > 0 ==> received + m.values == accepted)
    && (m.receivers == 0 ==> m.values == [])
  }

  lemma StepDelivers<T>(accepted: seq<T>, received: seq<T>, m: Model<T>, op: Op<T>)
    requires Delivered(accepted, received, m)
    ensures var t := Act(m, op);
            Delivered(accepted + (if t.outcome.Sent? then Offered(op) else []),
                      received + (if t.outcome.Got? then [t.outcome.value] else []), t.after)
  {
    hide Act, Pop, Delivered;
    assert accepted + [] == accepted && received + [] == received;
    if op.TrySend? || op.SendWithPermit? {
      SendDelivers(accepted, received, m, op);
    } else if op.TryRecv? || op.PollRecv? {
      RecvDelivers(accepted, received, m, op);
    } else {
      RestDelivers(accepted, received, m, op);
    }
  }

  lemma RecvDelivers<T>(accepted: seq<T>, received: seq<T>, m: Model<T>, op: Op<T>)
    requires Delivered(accepted, received, m) && (op.TryRecv? || op.PollRecv?)
    ensures var t := Act(m, op);
            Delivered(accepted, received + (if t.outcome.Got? then [t.outcome.value] else []), t.after)
            && !t.outcome.Sent?
  {
    PopDelivers(accepted, received, m);
    assert received + [] == received;
    hide Crowd.Choose, Crowd.Settle, Crowd.Register, Crowd.First;
  }

  lemma RestDelivers<T>(accepted: seq<T>, received: seq<T>, m: Model<T>, op: Op<T>)
    requires Delivered(accepted, received, m)
    requires !op.TrySend? && !op.SendWithPermit? && !op.TryRecv? && !op.PollRecv?
    ensures var t := Act(m, op);
            Delivered(accepted, received, t.after) && !t.outcome.Sent? && !t.outcome.Got?
  {
    hide Crowd.Choose, Crowd.Leave, Crowd.Settle, Crowd.Disperse, Crowd.Tasks, Crowd.First;
  }

  lemma SendDelivers<T>(accepted: seq<T>, received: seq<T>, m: Model<T>, op: Op<T>)
    requires Delivered(accepted, received, m) && (op.TrySend? || op.SendWithPermit?)
    ensures var t := Act(m, op);
            Delivered(accepted + (if t.outcome.Sent? then Offered(op) else []), received, t.after) && !t.outcome.Got?
  {
    hide Crowd.Choose, Crowd.First;
    assert received + (m.values + [op.value]) == received + m.values + [op.value];
  }

  lemma PopDelivers<T>(accepted: seq<T>, received: seq<T>, m: Model<T>)
    requires Delivered(accepted, received, m)
    ensures var t := Pop(m);
            Delivered(accepted, received + (if t.outcome.Got? then [t.outcome.value] else []), t.after)
  {
    if m.values != [] {
      assert received + m.values == received + [m.values[0]] + m.values[1..];
    }
  }

  /**
   Values come out in the order they were accepted, each once, and while a receiver lives none is lost.
   */
  lemma {:induction false} Fifo<T>(capacity: Option<nat>, ops: seq<Op<T>>)
    ensures var m := Init<T>(capacity);
            Delivered(Accepted(ops, Replies(m, ops)), Received(Replies(m, ops)), After(m, ops))
  {
    if ops != [] {
      var m, before, op := Init<T>(capacity), ops[..|ops| - 1], ops[|ops| - 1];
      Fifo(capacity, before);
      var rs := Replies(m, ops);
      assert rs[..|ops| - 1] == Replies(m, before);
      StepDelivers(Accepted(before, Replies(m, before)), Received(Replies(m, before)), After(m, before), op);
    }
  }

  /**
   After any run, a receiver asking now gets the oldest value not yet received, and nothing only if
   everything accepted has been received.
   */
  lemma NextDelivery<T>(capacity: Option<nat>, ops: seq<Op<T>>)
    ensures var m := After(Init<T>(capacity), ops);
            var replies := Replies(Init<T>(capacity), ops);
            var accepted, received := Accepted(ops, replies), Received(replies);
            Act(m, TryRecv).outcome ==
            if m.receivers > 0 && |received| < |accepted| then Got(accepted[|received|])
            else if m.senders == 0 then Disconnected else Empty
  {
    hide After, Replies, Accepted, Received;
    Fifo(capacity, ops);
    var m, replies := After(Init<T>(capacity), ops), Replies(Init<T>(capacity), ops);
    PopsOldest(Accepted(ops, replies), Received(replies), m);
  }

  lemma PopsOldest<T>(accepted: seq<T>, received: seq<T>, m: Model<T>)
    requires Delivered(accepted, received, m)
    ensures Pop(m).outcome == if m.receivers > 0 && |received| < |accepted| then Got(accepted[|received|])
                              else if m.senders == 0 then Disconnected else Empty
  {
  }

  /**
   After any run, a send that does not wait is refused for want of room exactly when what is queued,
   reserved and granted fills the capacity.
   */
  lemma NextAcceptance<T>(capacity: Option<nat>, ops: seq<Op<T>>, value: T)
    ensures var m := After(Init<T>(capacity), ops);
            var replies := Replies(Init<T>(capacity), ops);
            var queued := |Accepted(ops, replies)| - |Received(replies)|;
            Act(m, TrySend(value)).outcome ==
            if m.receivers == 0 then Disconnected
            else if capacity == Some(queued + m.permits + |m.sends.Chosen()|) then Full else Sent
  {
    hide After, Replies, Accepted, Received, Init, Inv;
    Fifo(capacity, ops);
    InitKeeps<T>(capacity);
    RunKeeps(capacity, Init<T>(capacity), ops);
    var m, replies := After(Init<T>(capacity), ops), Replies(Init<T>(capacity), ops);
    SendsIntoRoom(capacity, Accepted(ops, replies), Received(replies), m, value);
  }

  lemma SendsIntoRoom<T>(capacity: Option<nat>, accepted: seq<T>, received: seq<T>, m: Model<T>, value: T)
    requires Inv(capacity, m) && Delivered(accepted, received, m)
    ensures SendNow(m, value).outcome ==
            if m.receivers == 0 then Disconnected
            else if capacity == Some(|accepted| - |received| + m.permits + |m.sends.Chosen()|) then Full else Sent
  {
    assert m.receivers > 0 ==> |received + m.values| == |accepted|;
  }

  lemma InitKeeps<T>(capacity: Option<nat>)
    ensures Inv(capacity, Init<T>(capacity))
  {
  }

  // ---- Nobody is forgotten ----

  /** Whoever leaves a line not by their own doing is woken. */
  lemma NobodyForgotten<T>(capacity: Option<nat>, m: Model<T>, op: Op<T>, f: nat)
    requires Inv(capacity, m)
    ensures var t := Act(m, op);
            f in m.sends.line && f !in t.after.sends.line && op != Op.DropReserve(f) ==>
              m.sends.TaskOf(f) in t.woken
    ensures var t := Act(m, op);
            f in m.recvs.line && f !in t.after.recvs.line && op != Op.DropRecv(f) && !(op.PollRecv? && op.f == f) ==>
              m.recvs.TaskOf(f) in t.woken
  {
    if f in m.sends.line {
      NoSenderForgotten(m, op, f);
    }
    if f in m.recvs.line {
      NoReceiverForgotten(m, op, f);
    }
  }

  lemma NoSenderForgotten<T>(m: Model<T>, op: Op<T>, f: nat)
    requires m.sends.Wf() && f in m.sends.line && m.receivers > 0
    ensures f in Act(m, op).after.sends.line || op == Op.DropReserve(f) || m.sends.TaskOf(f) in Act(m, op).woken
  {
    hide Crowd.Choose, Crowd.Leave, Crowd.Settle, Crowd.TaskOf, Crowd.Tasks, Crowd.First;
    if op.DropReceiver? {
      DisperseWakes(m.sends, f);
    } else if op.DropReserve? {
      if op.f != f {
        OthersStay(m.sends, op.f, f);
        ChooseWakes(m.sends.Leave(op.f), Granted, f);
      }
    } else if op.PollReserve? {
      if op.f != f {
        OthersStay(m.sends, op.f, f);
      }
    } else {
      ChooseWakes(m.sends, Granted, f);
    }
  }

  lemma NoReceiverForgotten<T>(m: Model<T>, op: Op<T>, f: nat)
    requires m.recvs.Wf() && f in m.recvs.line && m.senders > 0
    ensures f in Act(m, op).after.recvs.line || op == Op.DropRecv(f) || (op.PollRecv? && op.f == f)
            || m.recvs.TaskOf(f) in Act(m, op).woken
  {
    hide Crowd.Choose, Crowd.Leave, Crowd.Settle, Crowd.TaskOf, Crowd.Tasks, Crowd.First;
    if op.DropSender? {
      DisperseWakes(m.recvs, f);
    } else if op.DropRecv? || op.PollRecv? {
      if op.f != f {
        OthersStay(m.recvs, op.f, f);
        ChooseWakes(m.recvs.Leave(op.f), Notified, f);
      }
    } else {
      ChooseWakes(m.recvs, Notified, f);
    }
  }

  // ---- No overtaking ----

  /** Only those ahead of `f` got a slot. */
  predicate InTurn<T>(op: Op<T>, outcome: Outcome<T>, ahead: set<nat>) {
    match op
    case TrySend(_) => !outcome.Sent?
    case TryReserve => !outcome.Reserved?
    case PollReserve(g, _) => outcome.Reserved? ==> g in ahead
    case _ => true
  }

  lemma StepInTurn<T>(capacity: Option<nat>, m: Model<T>, op: Op<T>, f: nat)
    requires Inv(capacity, m) && f in m.sends.line && f in Act(m, op).after.sends.line
    ensures Act(m, op).after.sends.Ahead(f) <= m.sends.Ahead(f)
    ensures InTurn(op, Act(m, op).outcome, m.sends.Ahead(f))
  {
    hide Crowd.Ahead, Crowd.Choose, Crowd.Leave, Crowd.Settle;
    if op.PollReserve? {
      if op.f in m.sends.seats {
        PollInTurn(capacity, m, op.f, op.task, f);
      }
    } else if op.DropReserve? {
      if op.f in m.sends.seats {
        DropInTurn(m, op.f, f);
      }
    } else if op.NewReserve? {
      if op.f !in m.sends.seats {
        EnterAhead(m.sends, op.f, f);
      }
    } else if Act(m, op).after.sends != m.sends && !op.DropReceiver? {
      ChooseAhead(m.sends, Granted, f);
    }
  }

  lemma DropInTurn<T>(m: Model<T>, g: nat, f: nat)
    requires m.sends.Wf() && f in m.sends.line && g in m.sends.seats
    ensures f in DropReserve(m, g).after.sends.line ==>
              DropReserve(m, g).after.sends.Ahead(f) <= m.sends.Ahead(f)
  {
    hide Crowd.Ahead, Crowd.Choose;
    Settles(m.sends, g);
    WithoutKeeps(m.sends.line, g);
    if f != g {
      SettleAhead(m.sends, g, f);
      if f in m.sends.Leave(g).Choose(Granted).line {
        ChooseAhead(m.sends.Leave(g), Granted, f);
      }
    }
  }

  lemma PollInTurn<T>(capacity: Option<nat>, m: Model<T>, g: nat, task: nat, f: nat)
    requires Inv(capacity, m) && f in m.sends.line && g in m.sends.seats
    ensures PollReserve(m, g, task).after.sends.Ahead(f) <= m.sends.Ahead(f)
    ensures PollReserve(m, g, task).outcome.Reserved? ==> g in m.sends.Ahead(f)
  {
    if m.sends.seats[g].Away? {
      JoinBehind(m.sends, g, task, f);
    } else if m.sends.seats[g].InLine? {
      Refreshes(m.sends, g, task);
    } else {
      SettleAhead(m.sends, g, f);
    }
  }

  /**
   While a reservation stays in line, over any number of operations, slots go only to those who were
   ahead of it when it began to wait: no send, no reservation and no later waiter gets in between.
   */
  lemma {:induction false} NoOvertaking<T>(capacity: Option<nat>, m: Model<T>, ops: seq<Op<T>>, f: nat)
    requires Inv(capacity, m)
    requires forall k :: 0 <= k <= |ops| ==> f in After(m, ops[..k]).sends.line
    ensures After(m, ops).sends.Ahead(f) <= m.sends.Ahead(f)
    ensures forall k :: 0 <= k < |ops| ==> InTurn(ops[k], Replies(m, ops)[k].outcome, m.sends.Ahead(f))
  {
    hide Inv, Act, InTurn, Crowd.Ahead;
    assert ops[..|ops|] == ops;
    if ops != [] {
      var before, op := ops[..|ops| - 1], ops[|ops| - 1];
      forall k | 0 <= k <= |before|
        ensures f in After(m, before[..k]).sends.line
      {
        assert before[..k] == ops[..k];
      }
      NoOvertaking(capacity, m, before, f);
      RunKeeps(capacity, m, before);
      assert f in After(m, ops[..|before|]).sends.line;
      StepInTurn(capacity, After(m, before), op, f);
      InTurnMore(op, Act(After(m, before), op).outcome, After(m, before).sends.Ahead(f), m.sends.Ahead(f));
    }
  }

  lemma InTurnMore<T>(op: Op<T>, outcome: Outcome<T>, fewer: set<nat>, more: set<nat>)
    requires InTurn(op, outcome, fewer) && fewer <= more
    ensures InTurn(op, outcome, more)
  {
  }
}
