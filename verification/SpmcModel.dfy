/**
 The spmc queue on values alone. A notice reserves neither a value nor a slot: it only makes a task look
 again. The one sender is borrowed exclusively, so at most one send is pending; it stands in line as
 future `SENDER`.
 */
module SpmcModel {
  import opened Options
  import opened WaitQueues
  import opened Crowds
  import opened Channels

  const SENDER: nat := 0

  datatype Op<T> =
    | TrySend(value: T)
    | NewSend(value: T)
    | PollSend(task: nat)
    | DropSend
    | TryRecv
    | NewRecv(f: nat)
    | PollRecv(f: nat, task: nat)
    | DropRecv(f: nat)
    | DropSender
    | CloneReceiver
    | DropReceiver

  /** `pending` is the value a pending send still owns. */
  datatype Model<T> = Model(
    values: seq<T>, capacity: Option<nat>, senderAlive: bool, receivers: nat, pending: Option<T>,
    sends: Crowd<Notice>, recvs: Crowd<Notice>)

  datatype Turn<T> = Turn(after: Model<T>, outcome: Outcome<T>, woken: seq<nat>)

  function Init<T>(capacity: Option<nat>): Model<T> {
    Model([], capacity, true, 1, None, Crowd([], map[]), Crowd([], map[]))
  }

  // ---- One operation ----

  predicate HasRoom<T>(m: Model<T>) {
    m.capacity.Some? ==> |m.values| < m.capacity.value
  }

  /** The value is queued, and the first receiver in line is told. */
  function Push<T>(m: Model<T>, value: T): Turn<T> {
    Turn(m.(values := m.values + [value], recvs := m.recvs.Choose(Notified)), Sent, m.recvs.First())
  }

  /** The next value leaves, and the sender, if it waits, is told that there is room. */
  function Pop<T>(m: Model<T>): Turn<T> {
    if m.values == [] then Turn(m, if m.senderAlive then Empty else Disconnected, [])
    else Turn(m.(values := m.values[1..], sends := m.sends.Choose(Notified)), Got(m.values[0]), m.sends.First())
  }

  function SendNow<T>(m: Model<T>, value: T): Turn<T> {
    if m.receivers == 0 then Turn(m, Disconnected, [])
    else if !HasRoom(m) then Turn(m, Full, [])
    else Push(m, value)
  }

  /** Sent or disconnected, the future gives its value away and is finished; pending, it is in line. */
  function PollSend<T>(m: Model<T>, task: nat): Turn<T>
    requires m.pending.Some?
  {
    var finished := m.(pending := None, sends := m.sends.Leave(SENDER));
    if m.receivers == 0 then Turn(finished, Disconnected, [])
    else if HasRoom(m) then Push(finished, m.pending.value)
    else Turn(m.(sends := m.sends.Register(SENDER, task)), Pending, [])
  }

  function PollRecv<T>(m: Model<T>, f: nat, task: nat): Turn<T> {
    if m.values == [] && m.senderAlive then Turn(m.(recvs := m.recvs.Register(f, task)), Pending, [])
    else
      var t := Pop(m);
      t.(after := t.after.(recvs := m.recvs.Settle(f)))
  }

  /** A notice its receiver will not act on goes to the next one while a value waits. */
  function DropRecv<T>(m: Model<T>, f: nat): Turn<T>
    requires f in m.recvs.seats
  {
    var rest := m.recvs.Leave(f);
    if m.recvs.seats[f].Chosen? && m.values != [] then Turn(m.(recvs := rest.Choose(Notified)), Done, rest.First())
    else Turn(m.(recvs := rest), Done, [])
  }

  /** With the last receiver gone the queued values are discarded too. */
  function DropReceiver<T>(m: Model<T>): Turn<T>
    requires m.receivers > 0
  {
    if m.receivers > 1 then Turn(m.(receivers := m.receivers - 1), Done, [])
    else Turn(m.(receivers := 0, values := [], sends := m.sends.Disperse()), Done, m.sends.Tasks())
  }

  /** Whether a caller can make this operation at all: it needs the future or the endpoint it names. */
  predicate Allowed<T>(m: Model<T>, op: Op<T>) {
    match op
    case TrySend(_) => m.senderAlive && m.pending.None?
    case NewSend(_) => m.senderAlive && m.pending.None?
    case PollSend(_) => m.pending.Some?
    case DropSend => m.pending.Some?
    case NewRecv(f) => f !in m.recvs.seats
    case PollRecv(f, _) => f in m.recvs.seats
    case DropRecv(f) => f in m.recvs.seats
    case DropSender => m.senderAlive && m.pending.None?
    case CloneReceiver => m.receivers > 0
    case DropReceiver => m.receivers > 0
    case TryRecv => true
  }

  function Act<T>(m: Model<T>, op: Op<T>): Turn<T> {
    if !Allowed(m, op) then Turn(m, Refused, [])
    else
      match op
      case TrySend(value) => SendNow(m, value)
      case NewSend(value) => Turn(m.(pending := Some(value), sends := m.sends.Enter(SENDER)), Done, [])
      case PollSend(task) => PollSend(m, task)
      case DropSend => Turn(m.(pending := None, sends := m.sends.Leave(SENDER)), Done, [])
      case TryRecv => Pop(m)
      case NewRecv(f) => Turn(m.(recvs := m.recvs.Enter(f)), Done, [])
      case PollRecv(f, task) => PollRecv(m, f, task)
      case DropRecv(f) => DropRecv(m, f)
      case DropSender => Turn(m.(senderAlive := false, recvs := m.recvs.Disperse()), Done, m.recvs.Tasks())
      case CloneReceiver => Turn(m.(receivers := m.receivers + 1), Done, [])
      case DropReceiver => DropReceiver(m)
  }

  lemma Refuses<T>(m: Model<T>, op: Op<T>)
    ensures !Allowed(m, op) ==> Act(m, op) == Turn(m, Refused, [])
  {
  }

  // ---- Runs ----

  function After<T>(m: Model<T>, ops: seq<Op<T>>): Model<T> {
    if ops == [] then m else Act(After(m, ops[..|ops| - 1]), ops[|ops| - 1]).after
  }

  function Replies<T>(m: Model<T>, ops: seq<Op<T>>): (r: seq<Reply<T>>)
    ensures |r| == |ops|
  {
    if ops == [] then []
    else
      var t := Act(After(m, ops[..|ops| - 1]), ops[|ops| - 1]);
      Replies(m, ops[..|ops| - 1]) + [Reply(t.outcome, t.woken)]
  }

  /** The value the latest send future was made with. */
  function Held<T>(ops: seq<Op<T>>, replies: seq<Reply<T>>): seq<T>
    requires |replies| == |ops|
  {
    if ops == [] then []
    else
      var n := |ops| - 1;
      if ops[n].NewSend? && replies[n].outcome.Done? then [ops[n].value] else Held(ops[..n], replies[..n])
  }

  /** The values accepted so far, in order. */
  function Accepted<T>(ops: seq<Op<T>>, replies: seq<Reply<T>>): seq<T>
    requires |replies| == |ops|
  {
    if ops == [] then []
    else
      var n := |ops| - 1;
      var offered := if ops[n].TrySend? then [ops[n].value] else Held(ops[..n], replies[..n]);
      Accepted(ops[..n], replies[..n]) + if replies[n].outcome.Sent? then offered else []
  }

  // ---- What every state keeps ----

  /** The queue never outgrows its capacity, and a send waits in line only while it is full. */
  ghost predicate Bounded<T>(m: Model<T>) {
    && (m.capacity.Some? ==> |m.values| <= m.capacity.value)
    && (m.sends.line != [] ==> m.capacity == Some(|m.values|))
  }

  /** Nobody but the pending send stands at the sending side. */
  ghost predicate Exclusive<T>(m: Model<T>) {
    && m.sends.seats.Keys == (if m.pending.Some? then {SENDER} else {})
    && (m.pending.Some? ==> m.senderAlive)
  }

  /** A receiver waits in line only while every queued value has been announced to someone. */
  ghost predicate Announced<T>(m: Model<T>) {
    m.recvs.line != [] ==> |m.values| <= |m.recvs.Chosen()|
  }

  /** Once the other side is gone nobody waits for it. */
  ghost predicate Settled<T>(m: Model<T>) {
    && (m.receivers == 0 ==> m.values == [] && m.sends.line == [] && m.sends.Chosen() == {})
    && (!m.senderAlive ==> m.recvs.line == [] && m.recvs.Chosen() == {})
  }

  ghost predicate Inv<T>(m: Model<T>) {
    m.sends.Wf() && m.recvs.Wf() && Bounded(m) && Exclusive(m) && Announced(m) && Settled(m)
  }

  /** The one line the sender can stand in holds at most the sender. */
  lemma AtMostTheSender<T>(m: Model<T>)
    requires Inv(m)
    ensures m.sends.line == [] || m.sends.line == [SENDER]
    ensures m.sends.line != [] ==> m.pending.Some?
  {
    assert forall g :: g in m.sends.line ==> g in m.sends.seats.Keys;
    TwoDiffer(m.sends.line, SENDER);
    assert m.sends.line == [] || m.sends.line[0] in m.sends.line;
  }

  lemma TwoDiffer(line: seq<nat>, f: nat)
    requires Distinct(line)
    ensures |line| > 1 ==> exists g :: g in line && g != f
  {
    if |line| > 1 {
      assert line[0] in line && line[1] in line && line[0] != line[1];
    }
  }

  lemma PushKeeps<T>(m: Model<T>, value: T)
    requires Inv(m) && HasRoom(m) && m.receivers > 0
    ensures Inv(Push(m, value).after)
  {
    Chooses(m.recvs, Notified);
  }

  lemma PopKeeps<T>(m: Model<T>)
    requires Inv(m)
    ensures Inv(Pop(m).after)
  {
    Chooses(m.sends, Notified);
    AtMostTheSender(m);
  }

  lemma SendingKeeps<T>(m: Model<T>, op: Op<T>)
    requires Inv(m) && Allowed(m, op) && (op.TrySend? || op.NewSend? || op.PollSend? || op.DropSend?)
    ensures Inv(Act(m, op).after)
  {
    if op.TrySend? {
      if m.receivers > 0 && HasRoom(m) {
        PushKeeps(m, op.value);
      }
    } else if op.NewSend? {
      Enters(m.sends, SENDER);
      AtMostTheSender(m);
    } else {
      assert SENDER in m.sends.seats.Keys;
      Settles(m.sends, SENDER);
      if op.PollSend? {
        PollSendKeeps(m, op.task);
      }
    }
  }

  lemma PollSendKeeps<T>(m: Model<T>, task: nat)
    requires Inv(m) && m.pending.Some?
    ensures Inv(PollSend(m, task).after)
  {
    var finished := m.(pending := None, sends := m.sends.Leave(SENDER));
    assert SENDER in m.sends.seats.Keys;
    Settles(m.sends, SENDER);
    AtMostTheSender(m);
    assert Inv(finished);
    if m.receivers > 0 {
      if HasRoom(m) {
        PushKeeps(finished, m.pending.value);
      } else if m.sends.seats[SENDER].InLine? {
        Refreshes(m.sends, SENDER, task);
      } else {
        Joins(m.sends.Settle(SENDER), SENDER, task);
      }
    }
  }

  lemma ReceivingKeeps<T>(m: Model<T>, op: Op<T>)
    requires Inv(m) && Allowed(m, op) && (op.TryRecv? || op.NewRecv? || op.PollRecv? || op.DropRecv?)
    ensures Inv(Act(m, op).after)
  {
    if op.TryRecv? {
      PopKeeps(m);
    } else if op.NewRecv? {
      Enters(m.recvs, op.f);
    } else if op.DropRecv? {
      Settles(m.recvs, op.f);
      Chooses(m.recvs.Leave(op.f), Notified);
    } else {
      PollRecvKeeps(m, op.f, op.task);
    }
  }

  lemma PollRecvKeeps<T>(m: Model<T>, f: nat, task: nat)
    requires Inv(m) && f in m.recvs.seats
    ensures Inv(PollRecv(m, f, task).after)
  {
    Settles(m.recvs, f);
    if m.values == [] && m.senderAlive {
      if m.recvs.seats[f].InLine? {
        Refreshes(m.recvs, f, task);
      } else {
        Joins(m.recvs.Settle(f), f, task);
      }
    } else {
      PopKeeps(m);
    }
  }

  lemma EndpointsKeep<T>(m: Model<T>, op: Op<T>)
    requires Inv(m) && Allowed(m, op) && (op.DropSender? || op.CloneReceiver? || op.DropReceiver?)
    ensures Inv(Act(m, op).after)
  {
    Disperses(m.sends);
    Disperses(m.recvs);
  }

  lemma StepKeeps<T>(m: Model<T>, op: Op<T>)
    requires Inv(m)
    ensures Inv(Act(m, op).after) && Act(m, op).after.capacity == m.capacity
  {
    hide Inv, Allowed;
    if Allowed(m, op) {
      if op.TrySend? || op.NewSend? || op.PollSend? || op.DropSend? {
        SendingKeeps(m, op);
      } else if op.TryRecv? || op.NewRecv? || op.PollRecv? || op.DropRecv? {
        ReceivingKeeps(m, op);
      } else {
        EndpointsKeep(m, op);
      }
    }
  }

  lemma InitKeeps<T>(capacity: Option<nat>)
    ensures Inv(Init<T>(capacity)) && Init<T>(capacity).capacity == capacity
  {
  }

  /** In every run: the capacity, the waiting sender, the announced values. */
  lemma {:induction false} RunKeeps<T>(capacity: Option<nat>, ops: seq<Op<T>>)
    ensures Inv(After(Init<T>(capacity), ops)) && After(Init<T>(capacity), ops).capacity == capacity
  {
    hide Inv, Init, Act;
    if ops == [] {
      InitKeeps<T>(capacity);
    } else {
      RunKeeps(capacity, ops[..|ops| - 1]);
      StepKeeps(After(Init<T>(capacity), ops[..|ops| - 1]), ops[|ops| - 1]);
    }
  }

  // ---- First in, first out ----

  /** What was accepted has been received, is queued, or went with the last receiver. */
  ghost predicate Delivered<T>(accepted: seq<T>, received: seq<T>, held: seq<T>, m: Model<T>) {
    && received + m.values <= accepted
    && (m.receivers > 0 ==> received + m.values == accepted)
    && (m.receivers == 0 ==> m.values == [])
    && (m.pending.Some? ==> held == [m.pending.value])
  }

  lemma StepDelivers<T>(accepted: seq<T>, received: seq<T>, held: seq<T>, m: Model<T>, op: Op<T>)
    requires Delivered(accepted, received, held, m)
    ensures var t := Act(m, op);
            Delivered(accepted + (if t.outcome.Sent? then (if op.TrySend? then [op.value] else held) else []),
                      received + (if t.outcome.Got? then [t.outcome.value] else []),
                      if op.NewSend? && t.outcome.Done? then [op.value] else held, t.after)
  {
    hide Act, Pop, PollRecv, Delivered;
    assert accepted + [] == accepted && received + [] == received;
    if op.TrySend? || op.PollSend? {
      SendDelivers(accepted, received, held, m, op);
    } else if op.TryRecv? || op.PollRecv? {
      RecvDelivers(accepted, received, held, m, op);
    } else {
      RestDelivers(accepted, received, held, m, op);
    }
  }

  lemma RecvDelivers<T>(accepted: seq<T>, received: seq<T>, held: seq<T>, m: Model<T>, op: Op<T>)
    requires Delivered(accepted, received, held, m) && (op.TryRecv? || op.PollRecv?)
    ensures var t := Act(m, op);
            Delivered(accepted, received + (if t.outcome.Got? then [t.outcome.value] else []), held, t.after)
            && !t.outcome.Sent?
  {
    PopDelivers(accepted, received, held, m);
    assert received + [] == received;
    hide Crowd.Choose, Crowd.Settle, Crowd.Register, Crowd.First;
  }

  lemma RestDelivers<T>(accepted: seq<T>, received: seq<T>, held: seq<T>, m: Model<T>, op: Op<T>)
    requires Delivered(accepted, received, held, m)
    requires !op.TrySend? && !op.PollSend? && !op.TryRecv? && !op.PollRecv?
    ensures var t := Act(m, op);
            && Delivered(accepted, received, if op.NewSend? && t.outcome.Done? then [op.value] else held, t.after)
            && !t.outcome.Sent? && !t.outcome.Got?
  {
    hide Crowd.Choose, Crowd.Leave, Crowd.Disperse, Crowd.Tasks, Crowd.First;
  }

  lemma SendDelivers<T>(accepted: seq<T>, received: seq<T>, held: seq<T>, m: Model<T>, op: Op<T>)
    requires Delivered(accepted, received, held, m) && (op.TrySend? || op.PollSend?)
    ensures var t := Act(m, op);
            Delivered(accepted + (if t.outcome.Sent? then (if op.TrySend? then [op.value] else held) else []),
                      received, held, t.after) && !t.outcome.Got?
  {
    hide Crowd.Choose, Crowd.Leave, Crowd.Register, Crowd.First;
    var offered := if op.TrySend? then [op.value] else held;
    assert received + (m.values + offered) == received + m.values + offered;
  }

  lemma PopDelivers<T>(accepted: seq<T>, received: seq<T>, held: seq<T>, m: Model<T>)
    requires Delivered(accepted, received, held, m)
    ensures var t := Pop(m);
            Delivered(accepted, received + (if t.outcome.Got? then [t.outcome.value] else []), held, t.after)
  {
    if m.values != [] {
      assert received + m.values == received + [m.values[0]] + m.values[1..];
    }
  }

  /** Values come out in the order they were accepted, each once, and while a receiver lives none is lost. */
  lemma {:induction false} Fifo<T>(capacity: Option<nat>, ops: seq<Op<T>>)
    ensures var m, rs := Init<T>(capacity), Replies(Init<T>(capacity), ops);
            Delivered(Accepted(ops, rs), Received(rs), Held(ops, rs), After(m, ops))
  {
    if ops != [] {
      var m, before, op := Init<T>(capacity), ops[..|ops| - 1], ops[|ops| - 1];
      Fifo(capacity, before);
      var was := Replies(m, before);
      assert Replies(m, ops)[..|ops| - 1] == was;
      StepDelivers(Accepted(before, was), Received(was), Held(before, was), After(m, before), op);
    }
  }

  /**
   After any run, a receiver asking now gets the oldest value not yet received, and nothing only if
   everything accepted has been received.
   */
  lemma NextDelivery<T>(capacity: Option<nat>, ops: seq<Op<T>>)
    ensures var m := After(Init<T>(capacity), ops);
            var replies := Replies(Init<T>(capacity), ops);
            var accepted, received := Accepted(ops, replies), Received(replies);
            Act(m, TryRecv).outcome ==
            if m.receivers > 0 && |received| < |accepted| then Got(accepted[|received|])
            else if m.senderAlive then Empty else Disconnected
  {
    hide After, Replies, Accepted, Received, Held;
    Fifo(capacity, ops);
    var m, replies := After(Init<T>(capacity), ops), Replies(Init<T>(capacity), ops);
    PopsOldest(Accepted(ops, replies), Received(replies), Held(ops, replies), m);
  }

  lemma PopsOldest<T>(accepted: seq<T>, received: seq<T>, held: seq<T>, m: Model<T>)
    requires Delivered(accepted, received, held, m)
    ensures Pop(m).outcome == if m.receivers > 0 && |received| < |accepted| then Got(accepted[|received|])
                              else if m.senderAlive then Empty else Disconnected
  {
  }

  /**
   After any run, a send by the sender that does not wait is refused for want of room exactly when what
   has been accepted and not received fills the capacity.
   */
  lemma NextAcceptance<T>(capacity: Option<nat>, ops: seq<Op<T>>, value: T)
    ensures var m := After(Init<T>(capacity), ops);
            var replies := Replies(Init<T>(capacity), ops);
            var queued := |Accepted(ops, replies)| - |Received(replies)|;
            Act(m, TrySend(value)).outcome ==
            if !m.senderAlive || m.pending.Some? then Refused
            else if m.receivers == 0 then Disconnected
            else if capacity == Some(queued) then Full else Sent
  {
    hide After, Replies, Accepted, Received, Held, Init, Inv;
    Fifo(capacity, ops);
    RunKeeps(capacity, ops);
    var m, replies := After(Init<T>(capacity), ops), Replies(Init<T>(capacity), ops);
    SendsIntoRoom(Accepted(ops, replies), Received(replies), Held(ops, replies), m, value);
  }

  lemma SendsIntoRoom<T>(accepted: seq<T>, received: seq<T>, held: seq<T>, m: Model<T>, value: T)
    requires Inv(m) && Delivered(accepted, received, held, m)
    ensures SendNow(m, value).outcome ==
            if m.receivers == 0 then Disconnected
            else if m.capacity == Some(|accepted| - |received|) then Full else Sent
  {
    assert m.receivers > 0 ==> |received + m.values| == |accepted|;
  }

  // ---- Nobody is forgotten ----

  /** Whoever leaves a line not by their own doing is woken. */
  lemma NobodyForgotten<T>(m: Model<T>, op: Op<T>, f: nat)
    requires Inv(m)
    ensures var t := Act(m, op);
            SENDER in m.sends.line && SENDER !in t.after.sends.line && !op.PollSend? && !op.DropSend? ==>
              m.sends.TaskOf(SENDER) in t.woken
    ensures var t := Act(m, op);
            f in m.recvs.line && f !in t.after.recvs.line && op != Op.DropRecv(f) && !(op.PollRecv? && op.f == f) ==>
              m.recvs.TaskOf(f) in t.woken
  {
    if SENDER in m.sends.line {
      SenderNotForgotten(m, op);
    }
    if f in m.recvs.line {
      NoReceiverForgotten(m, op, f);
    }
  }

  lemma SenderNotForgotten<T>(m: Model<T>, op: Op<T>)
    requires SENDER in m.sends.line
    ensures SENDER in Act(m, op).after.sends.line || op.PollSend? || op.DropSend?
            || m.sends.TaskOf(SENDER) in Act(m, op).woken
  {
    hide Crowd.Choose, Crowd.Leave, Crowd.Settle, Crowd.TaskOf, Crowd.Tasks, Crowd.First;
    if op.DropReceiver? {
      DisperseWakes(m.sends, SENDER);
    } else {
      ChooseWakes(m.sends, Notified, SENDER);
    }
  }

  lemma NoReceiverForgotten<T>(m: Model<T>, op: Op<T>, f: nat)
    requires m.recvs.Wf() && f in m.recvs.line
    ensures f in Act(m, op).after.recvs.line || op == Op.DropRecv(f) || (op.PollRecv? && op.f == f)
            || m.recvs.TaskOf(f) in Act(m, op).woken
  {
    hide Crowd.Choose, Crowd.Leave, Crowd.Settle, Crowd.TaskOf, Crowd.Tasks, Crowd.First;
    if op.DropSender? {
      DisperseWakes(m.recvs, f);
    } else if op.DropRecv? || op.PollRecv? {
      if op.f != f {
        OthersStay(m.recvs, op.f, f);
        ChooseWakes(m.recvs.Leave(op.f), Notified, f);
      }
    } else {
      ChooseWakes(m.recvs, Notified, f);
    }
  }
}
