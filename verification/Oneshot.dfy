/**
 The oneshot channel as interleaved atomic steps of one sender and one receiver. Memory is explicit:
 every access checks that the allocation is live, every read that its slot is initialized, every write
 and every deallocation that nothing initialized is lost, and every `unreachable!` arm is a fault.
 */
module Oneshots {
  import opened Options

  type Task = nat

  // The state byte.
  const EMPTY: nat := 3
  const RECEIVING: nat := 0
  const AWAKING: nat := 1
  const MESSAGE: nat := 4
  const DISCONNECTED: nat := 2

  /** `x ^ 0b001` */
  function FlipLow(x: nat): nat {
    if x % 2 == 0 then x + 1 else x - 1
  }

  datatype SenderPc =
    | Ready                              // the sender handle exists
    | Written                            // send: message stored, before fetch_add
    | TakeWaker(final: nat)              // RECEIVING became AWAKING
    | Finish(final: nat, waker: Task)    // before the swap to the final state
    | Wake(waker: Task)                  // after the swap; no access to the channel
    | Cleanup(final: nat)                // receiver cancelled during AWAKING
    | Failed                             // a SendError owns channel and message
    | FreeOnly                           // Sender::drop after the receiver was gone
    | Finished

  /** `Recv` as its caller sees it; `Completed` after a poll returned `Ready`. */
  datatype Poll = Unpolled | Pending | Completed

  /** What a call of `try_recv` or a poll answers. */
  datatype Answer = Ok | Disconnected | Empty | Wait

  datatype ReceiverPc =
    | Handle                             // a Receiver
    | TryStore | TryRead                 // try_recv on MESSAGE
    | HandleFree(message: bool)          // Receiver::drop after its swap
    | Future(last: Poll)                 // a Recv between calls
    | Register(task: Task)               // poll on EMPTY, before writing the waker
    | Reclaim(task: Task)                // poll on RECEIVING, before the exchange to EMPTY
    | Reregister(task: Task)             // reclaimed, before replacing the waker
    | Publish(task: Task)                // before the exchange EMPTY to RECEIVING
    | DropWaker(final: nat)              // publishing lost the race
    | Store | Read                       // poll takes the message
    | DropLoad                           // Recv::drop, top of the loop
    | DropAct(seen: nat)                 // Recv::drop, after the load
    | DropReclaimed                      // Recv::drop took the waker back
    | Gone

  datatype State = State(
    word: nat,
    message: bool,             // the message slot is initialized
    waker: Option<Task>,       // the waker slot, if initialized
    live: bool,
    sender: SenderPc,
    receiver: ReceiverPc,
    // what has happened so far
    fault: bool,
    frees: nat,
    sent: nat, delivered: nat, discarded: nat, returned: nat,
    stored: nat, taken: nat, retired: nat,
    // who was polling when Pending was last returned, and whether they have been woken since
    lastTask: Task, woken: bool,
    // what the receiver's calls have answered, in order
    answers: seq<Answer>)

  function Init(): State {
    State(EMPTY, false, None, true, Ready, Handle, false, 0, 0, 0, 0, 0, 0, 0, 0, 0, false, [])
  }

  // ---- Memory ----

  function Access(s: State): State {
    s.(fault := s.fault || !s.live)
  }

  function Free(s: State): State {
    s.(fault := s.fault || !s.live || s.message || s.waker.Some?, live := false, frees := s.frees + 1)
  }

  function WriteMessage(s: State): State {
    Access(s).(fault := s.fault || !s.live || s.message, message := true, sent := s.sent + 1)
  }

  function ReadMessage(s: State): State {
    s.(fault := s.fault || !s.live || !s.message, message := false, delivered := s.delivered + 1)
  }

  function DiscardMessage(s: State): State {
    s.(fault := s.fault || !s.live || !s.message, message := false, discarded := s.discarded + 1)
  }

  function ReturnMessage(s: State): State {
    s.(fault := s.fault || !s.live || !s.message, message := false, returned := s.returned + 1)
  }

  function WriteWaker(s: State, task: Task): State {
    s.(fault := s.fault || !s.live || s.waker.Some?, waker := Some(task), stored := s.stored + 1)
  }

  function RetireWaker(s: State): State {
    s.(fault := s.fault || !s.live || s.waker.None?, waker := None, retired := s.retired + 1)
  }

  function Fault(s: State): State {
    s.(fault := true)
  }

  function WakeTask(s: State, task: Task): State {
    s.(woken := s.woken || task == s.lastTask)
  }

  function Reply(s: State, answer: Answer): State {
    s.(answers := s.answers + [answer])
  }

  /** A poll by `task` returns Pending. */
  function ReturnPending(s: State, task: Task, woken: bool): State {
    Reply(s, Wait).(receiver := Future(Pending), lastTask := task, woken := woken)
  }

  function ReturnReady(s: State, answer: Answer): State {
    Reply(s, answer).(receiver := Future(Completed))
  }

  // ---- The sender ----

  function SenderStep(s: State): State {
    match s.sender
    case Ready => s
    case Written =>
      var s' := Access(s).(word := s.word + 1);
      if s.word == EMPTY then s'.(sender := Finished)
      else if s.word == RECEIVING then s'.(sender := TakeWaker(MESSAGE))
      else if s.word == DISCONNECTED then s'.(sender := Failed)
      else Fault(s')
    case TakeWaker(final) =>
      if s.waker.None? then Fault(s)
      else Access(s).(waker := None, taken := s.taken + 1, sender := Finish(final, s.waker.value))
    case Finish(final, waker) =>
      var s' := Access(s).(word := final);
      if s.word == AWAKING then s'.(sender := Wake(waker))
      else if s.word == DISCONNECTED then s'.(sender := Cleanup(final))
      else Fault(s')
    case Wake(waker) => WakeTask(s, waker).(sender := Finished)
    case Cleanup(final) =>
      (if final == MESSAGE then Free(DiscardMessage(s)) else Free(s)).(sender := Finished)
    case FreeOnly => Free(s).(sender := Finished)
    case Failed => s
    case Finished => s
  }

  function DropSender(s: State): State
    requires s.sender.Ready?
  {
    var s' := Access(s).(word := FlipLow(s.word));
    if s.word == EMPTY then s'.(sender := Finished)
    else if s.word == RECEIVING then s'.(sender := TakeWaker(DISCONNECTED))
    else if s.word == DISCONNECTED then s'.(sender := FreeOnly)
    else Fault(s')
  }

  // ---- The receiver ----

  function PollBegin(s: State, task: Task): State {
    var s' := Access(s);
    if s.word == EMPTY then s'.(receiver := Register(task))
    else if s.word == MESSAGE then s'.(receiver := Store)
    else if s.word == RECEIVING then s'.(receiver := Reclaim(task))
    else if s.word == AWAKING then ReturnPending(s', task, true)
    else if s.word == DISCONNECTED then ReturnReady(s', Disconnected)
    else Fault(s')
  }

  function PollStep(s: State): State {
    match s.receiver
    case Register(task) => WriteWaker(s, task).(receiver := Publish(task))
    case Reclaim(task) =>
      var s' := Access(s);
      if s.word == RECEIVING then s'.(word := EMPTY, receiver := Reregister(task))
      else if s.word == MESSAGE then s'.(receiver := Store)
      else if s.word == AWAKING then ReturnPending(s', task, true)
      else if s.word == DISCONNECTED then ReturnReady(s', Disconnected)
      else Fault(s')
    case Reregister(task) =>
      (if s.waker == Some(task) then Access(s) else WriteWaker(RetireWaker(s), task)).(receiver := Publish(task))
    case Publish(task) =>
      var s' := Access(s);
      if s.word == EMPTY then ReturnPending(s', task, false).(word := RECEIVING)
      else if s.word == MESSAGE || s.word == DISCONNECTED then s'.(receiver := DropWaker(s.word))
      else Fault(s')
    case DropWaker(final) =>
      if final == MESSAGE then RetireWaker(s).(receiver := Store) else ReturnReady(RetireWaker(s), Disconnected)
    case Store => Access(s).(word := DISCONNECTED, receiver := Read)
    case Read => ReturnReady(ReadMessage(s), Ok)
    case _ => s
  }

  function HandleStep(s: State): State {
    match s.receiver
    case TryStore => Access(s).(word := DISCONNECTED, receiver := TryRead)
    case TryRead => Reply(ReadMessage(s), Ok).(receiver := Handle)
    case HandleFree(message) =>
      (if message then Free(DiscardMessage(s)) else Free(s)).(receiver := Gone)
    case _ => s
  }

  function TryRecv(s: State): State {
    var s' := Access(s);
    if s.word == MESSAGE then s'.(receiver := TryStore)
    else if s.word == EMPTY then Reply(s', Empty)
    else if s.word == DISCONNECTED then Reply(s', Disconnected)
    else Fault(s')
  }

  function DropHandle(s: State): State {
    var s' := Access(s).(word := DISCONNECTED);
    if s.word == EMPTY then s'.(receiver := Gone)
    else if s.word == MESSAGE then s'.(receiver := HandleFree(true))
    else if s.word == DISCONNECTED then s'.(receiver := HandleFree(false))
    else Fault(s')
  }

  /** The retry loop of `Recv::drop`. */
  function DropStep(s: State): State {
    match s.receiver
    case DropLoad => Access(s).(receiver := DropAct(s.word))
    case DropAct(seen) =>
      if seen == MESSAGE then Free(DiscardMessage(s)).(receiver := Gone)
      else if seen == DISCONNECTED then Free(s).(receiver := Gone)
      else if seen != EMPTY && seen != RECEIVING && seen != AWAKING then Fault(s)
      else if s.word != seen then Access(s).(receiver := DropLoad)
      else if seen == RECEIVING then Access(s).(word := EMPTY, receiver := DropReclaimed)
      else Access(s).(word := DISCONNECTED, receiver := Gone)
    case DropReclaimed => RetireWaker(s).(receiver := DropLoad)
    case _ => s
  }

  function ReceiverStep(s: State): State {
    match s.receiver
    case TryStore => HandleStep(s)
    case TryRead => HandleStep(s)
    case HandleFree(_) => HandleStep(s)
    case DropLoad => DropStep(s)
    case DropAct(_) => DropStep(s)
    case DropReclaimed => DropStep(s)
    case _ => PollStep(s)
  }

  datatype Action =
    | Send | SendDrop | SendStep | IntoInner | DropError
    | CallTryRecv | IntoFuture | CallPoll(task: Task) | CallDrop | RecvStep

  /** An action that is not enabled leaves the state as it is. */
  function Step(s: State, a: Action): State {
    match a
    case Send => if s.sender.Ready? then WriteMessage(s).(sender := Written) else s
    case SendDrop => if s.sender.Ready? then DropSender(s) else s
    case SendStep => SenderStep(s)
    case IntoInner => if s.sender.Failed? then Free(ReturnMessage(s)).(sender := Finished) else s
    case DropError => if s.sender.Failed? then Free(DiscardMessage(s)).(sender := Finished) else s
    case CallTryRecv => if s.receiver.Handle? then TryRecv(s) else s
    case IntoFuture => if s.receiver.Handle? then s.(receiver := Future(Unpolled)) else s
    case CallPoll(task) =>
      if s.receiver.Future? && !s.receiver.last.Completed? then PollBegin(s, task) else s
    case CallDrop =>
      if s.receiver.Handle? then DropHandle(s)
      else if s.receiver.Future? then s.(receiver := DropLoad)
      else s
    case RecvStep => ReceiverStep(s)
  }

  function Run(s: State, actions: seq<Action>): State
    decreases |actions|
  {
    if actions == [] then s else Run(Step(s, actions[0]), actions[1..])
  }
}
