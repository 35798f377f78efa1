/** Ownership and progress of the oneshot channel in every interleaving. */
module OneshotSafety {
  import opened Options
  import opened Oneshots

  /** The sender has not yet given up its side of the channel. */
  predicate SenderBefore(s: State) {
    s.sender.Ready? || s.sender.Written?
  }

  predicate SenderAwaking(s: State) {
    s.sender.TakeWaker? || s.sender.Finish?
  }

  /** The sender has inherited the allocation from a cancelled receiver. */
  predicate SenderOwns(s: State) {
    s.sender.Cleanup? || s.sender.Failed? || s.sender.FreeOnly?
  }

  predicate SenderAfter(s: State) {
    s.sender.Wake? || s.sender.Finished?
  }

  /** The final state the sender publishes is one of two. */
  predicate FinalOk(s: State) {
    s.sender.TakeWaker? || s.sender.Finish? || s.sender.Cleanup? ==>
      s.sender.final == MESSAGE || s.sender.final == DISCONNECTED
  }

  /** The receiver may have published a waker that it does not currently hold. */
  predicate MayBePublished(r: ReceiverPc) {
    || (r.Future? && r.last.Pending?)
    || r.Reclaim?
    || r.DropLoad?
    || (r.DropAct? && (r.seen == RECEIVING || r.seen == AWAKING))
  }

  /** What the state byte can be, given where both ends are. */
  predicate WordOk(s: State) {
    var r := s.receiver;
    if r.Gone? then
      && (SenderBefore(s) || SenderAwaking(s) ==> s.word == DISCONNECTED)
      && (SenderBefore(s) || SenderAwaking(s) || SenderOwns(s) || SenderAfter(s))
    else
      && !SenderOwns(s)
      && (SenderBefore(s) ==>
            || (s.word == EMPTY && !(r.Future? && r.last.Pending?) && !r.Reclaim?)
            || (s.word == RECEIVING && MayBePublished(r) && !(r.DropAct? && r.seen == AWAKING)))
      && (SenderAwaking(s) ==> s.word == AWAKING && MayBePublished(r))
      && (SenderAfter(s) ==> s.word == MESSAGE || s.word == DISCONNECTED)
  }

  predicate ReceiverOk(s: State) {
    match s.receiver
    case TryStore => SenderAfter(s) && s.word == MESSAGE
    case TryRead => SenderAfter(s) && s.word == DISCONNECTED
    case HandleFree(_) => SenderAfter(s) && s.word == DISCONNECTED
    case Publish(task) => s.waker == Some(task)
    case DropWaker(final) => SenderAfter(s) && s.word == final
    case Store => SenderAfter(s) && s.word == MESSAGE
    case Read => SenderAfter(s) && s.word == DISCONNECTED
    case Future(last) => last.Completed? ==> SenderAfter(s) && s.word == DISCONNECTED
    case DropAct(seen) =>
      && (seen == EMPTY || seen == RECEIVING || seen == AWAKING || seen == MESSAGE || seen == DISCONNECTED)
      && (seen == MESSAGE || seen == DISCONNECTED ==> SenderAfter(s) && s.word == seen)
    case _ => true
  }

  /** The message slot is initialized exactly while somebody owns an unread message. */
  predicate MessageOwned(s: State) {
    || s.sender.Written? || s.sender.Failed?
    || ((s.sender.TakeWaker? || s.sender.Finish? || s.sender.Cleanup?) && s.sender.final == MESSAGE)
    || (SenderAfter(s) && !s.receiver.Gone?
        && (s.word == MESSAGE || s.receiver.TryRead? || s.receiver.Read? || s.receiver == HandleFree(true)))
  }

  /** The waker slot is initialized exactly while somebody owns a stored waker. */
  predicate WakerOwned(s: State) {
    || s.sender.TakeWaker?
    || (!s.receiver.Gone? && SenderBefore(s) && s.word == RECEIVING)
    || s.receiver.Reregister? || s.receiver.Publish? || s.receiver.DropWaker? || s.receiver.DropReclaimed?
  }

  /** Whoever is still inside the channel keeps it allocated, and the last one out frees it. */
  predicate Alive(s: State) {
    !s.receiver.Gone? || SenderBefore(s) || SenderAwaking(s) || SenderOwns(s)
  }

  /** Whoever was last told to wait is the one to be woken, or has been woken already. */
  predicate WakeOk(s: State) {
    s.receiver.Future? && s.receiver.last.Pending? && !s.woken ==>
      || (SenderBefore(s) && s.word == RECEIVING && s.waker == Some(s.lastTask))
      || (s.sender.TakeWaker? && s.waker == Some(s.lastTask))
      || (s.sender.Finish? && s.sender.waker == s.lastTask)
      || (s.sender.Wake? && s.sender.waker == s.lastTask)
  }

  predicate Counted(s: State) {
    && s.sent == s.delivered + s.discarded + s.returned + (if s.message then 1 else 0)
    && s.sent <= (if s.sender.Ready? then 0 else 1)
    && s.stored == s.taken + s.retired + (if s.waker.Some? then 1 else 0)
    && s.frees == (if s.live then 0 else 1)
  }

  predicate Inv(s: State) {
    && !s.fault
    && FinalOk(s) && WordOk(s) && ReceiverOk(s)
    && s.message == MessageOwned(s)
    && s.waker.Some? == WakerOwned(s)
    && s.live == Alive(s)
    && WakeOk(s) && Counted(s)
  }

  lemma SenderPublishes(s: State)
    requires Inv(s) && (s.sender.Written? || s.sender.TakeWaker?)
    ensures Inv(SenderStep(s))
  {
  }

  lemma SenderFinishes(s: State)
    requires Inv(s) && (s.sender.Finish? || s.sender.Wake? || s.sender.Cleanup? || s.sender.FreeOnly?)
    ensures Inv(SenderStep(s))
  {
  }

  lemma SenderKeeps(s: State)
    requires Inv(s)
    ensures Inv(SenderStep(s))
  {
    hide Inv;
    match s.sender
    case Written => SenderPublishes(s);
    case TakeWaker(_) => SenderPublishes(s);
    case Finish(_, _) => SenderFinishes(s);
    case Wake(_) => SenderFinishes(s);
    case Cleanup(_) => SenderFinishes(s);
    case FreeOnly => SenderFinishes(s);
    case _ =>
  }

  lemma SenderCallKeeps(s: State, a: Action)
    requires Inv(s) && (a.Send? || a.SendDrop? || a.IntoInner? || a.DropError?)
    ensures Inv(Step(s, a))
  {
  }

  lemma PollBeginKeeps(s: State, task: Task)
    requires Inv(s) && s.receiver.Future? && !s.receiver.last.Completed?
    ensures Inv(PollBegin(s, task))
  {
  }

  lemma RegisterKeeps(s: State)
    requires Inv(s) && (s.receiver.Register? || s.receiver.Reregister? || s.receiver.Publish?)
    ensures Inv(PollStep(s))
  {
  }

  lemma ReclaimKeeps(s: State)
    requires Inv(s) && s.receiver.Reclaim?
    ensures Inv(PollStep(s))
  {
  }

  lemma ReceiveKeeps(s: State)
    requires Inv(s) && (s.receiver.DropWaker? || s.receiver.Store? || s.receiver.Read?)
    ensures Inv(PollStep(s))
  {
  }

  lemma PollKeeps(s: State)
    requires Inv(s)
    ensures Inv(PollStep(s))
  {
    match s.receiver
    case Reclaim(_) => ReclaimKeeps(s);
    case Register(_) => RegisterKeeps(s);
    case Reregister(_) => RegisterKeeps(s);
    case Publish(_) => RegisterKeeps(s);
    case DropWaker(_) => ReceiveKeeps(s);
    case Store => ReceiveKeeps(s);
    case Read => ReceiveKeeps(s);
    case _ =>
  }

  lemma HandleKeeps(s: State)
    requires Inv(s)
    ensures Inv(HandleStep(s))
  {
  }

  lemma TryRecvKeeps(s: State)
    requires Inv(s) && s.receiver.Handle?
    ensures Inv(TryRecv(s))
  {
  }

  lemma DropHandleKeeps(s: State)
    requires Inv(s) && s.receiver.Handle?
    ensures Inv(DropHandle(s))
  {
  }

  lemma DropActs(s: State)
    requires Inv(s) && s.receiver.DropAct?
    ensures Inv(DropStep(s))
  {
  }

  lemma DropRetries(s: State)
    requires Inv(s) && (s.receiver.DropLoad? || s.receiver.DropReclaimed?)
    ensures Inv(DropStep(s))
  {
  }

  lemma DropKeeps(s: State)
    requires Inv(s)
    ensures Inv(DropStep(s))
  {
    hide Inv;
    match s.receiver
    case DropLoad => DropRetries(s);
    case DropAct(_) => DropActs(s);
    case DropReclaimed => DropRetries(s);
    case _ =>
  }

  lemma StepKeeps(s: State, a: Action)
    requires Inv(s)
    ensures Inv(Step(s, a))
  {
    match a
    case SendStep => SenderKeeps(s);
    case CallTryRecv => if s.receiver.Handle? { TryRecvKeeps(s); }
    case IntoFuture =>
    case CallPoll(task) =>
      if s.receiver.Future? && !s.receiver.last.Completed? { PollBeginKeeps(s, task); }
    case CallDrop => if s.receiver.Handle? { DropHandleKeeps(s); }
    case RecvStep =>
      HandleKeeps(s);
      DropKeeps(s);
      PollKeeps(s);
    case _ => SenderCallKeeps(s, a);
  }

  // ---- Who touches what ----

  predicate OfSender(a: Action) {
    a.Send? || a.SendDrop? || a.SendStep? || a.IntoInner? || a.DropError?
  }

  predicate SameReceiver(s: State, s': State) {
    s'.receiver == s.receiver && s'.answers == s.answers && s'.delivered == s.delivered && s'.lastTask == s.lastTask
  }

  predicate SameSender(s: State, s': State) {
    s'.sender == s.sender && s'.sent == s.sent && s'.returned == s.returned
  }

  lemma PublishIs(s: State)
    requires s.sender.Written? || s.sender.TakeWaker? || s.sender.Finish?
    ensures SameReceiver(s, SenderStep(s)) && SenderStep(s).returned == s.returned
  {
  }

  lemma SenderStepIs(s: State)
    ensures SameReceiver(s, SenderStep(s)) && SenderStep(s).returned == s.returned
  {
    if s.sender.Written? || s.sender.TakeWaker? || s.sender.Finish? {
      hide SenderStep;
      PublishIs(s);
    }
  }

  lemma SenderSteps(s: State, a: Action)
    requires OfSender(a)
    ensures SameReceiver(s, Step(s, a))
    ensures Step(s, a).returned != s.returned ==> a.IntoInner? && s.sender.Failed?
  {
    hide SenderStep;
    SenderStepIs(s);
  }

  lemma PollBegins(s: State, task: Task)
    ensures SameSender(s, PollBegin(s, task))
  {
  }

  lemma ReclaimIs(s: State)
    requires s.receiver.Reclaim?
    ensures SameSender(s, PollStep(s))
  {
  }

  lemma RegisterIs(s: State)
    requires s.receiver.Register? || s.receiver.Reregister? || s.receiver.Publish?
    ensures SameSender(s, PollStep(s))
  {
  }

  lemma ReceiveIs(s: State)
    requires s.receiver.DropWaker? || s.receiver.Store? || s.receiver.Read?
    ensures SameSender(s, PollStep(s))
  {
  }

  lemma PollIdles(s: State)
    ensures || PollStep(s) == s || s.receiver.Reclaim?
            || s.receiver.Register? || s.receiver.Reregister? || s.receiver.Publish?
            || s.receiver.DropWaker? || s.receiver.Store? || s.receiver.Read?
  {
  }

  lemma PollSteps(s: State)
    ensures SameSender(s, PollStep(s))
  {
    hide PollStep;
    PollIdles(s);
    if s.receiver.Reclaim? {
      ReclaimIs(s);
    } else if s.receiver.Register? || s.receiver.Reregister? || s.receiver.Publish? {
      RegisterIs(s);
    } else if s.receiver.DropWaker? || s.receiver.Store? || s.receiver.Read? {
      ReceiveIs(s);
    }
  }

  lemma HandleSteps(s: State)
    ensures SameSender(s, HandleStep(s)) && SameSender(s, TryRecv(s)) && SameSender(s, DropHandle(s))
  {
  }

  lemma DropSteps(s: State)
    ensures SameSender(s, DropStep(s))
  {
  }

  lemma ReceiverSteps(s: State, a: Action)
    requires !OfSender(a)
    ensures SameSender(s, Step(s, a))
  {
    PollBegins(s, if a.CallPoll? then a.task else 0);
    PollSteps(s);
    HandleSteps(s);
    DropSteps(s);
    hide PollBegin, PollStep, HandleStep, TryRecv, DropHandle, DropStep;
  }

  lemma {:induction false} RunKeeps(s: State, actions: seq<Action>)
    requires Inv(s)
    ensures Inv(Run(s, actions))
    decreases |actions|
  {
    if actions != [] {
      StepKeeps(s, actions[0]);
      RunKeeps(Step(s, actions[0]), actions[1..]);
    }
  }

  /**
   In every interleaving: no access after the free, no uninitialized read, no overwritten or leaked
   message or waker, no unreachable state; and a sent message has at most one fate.
   */
  lemma MemorySafe(actions: seq<Action>)
    ensures var s := Run(Init(), actions);
            && !s.fault
            && s.frees <= 1
            && s.sent == s.delivered + s.discarded + s.returned + (if s.message then 1 else 0)
            && s.stored == s.taken + s.retired + (if s.waker.Some? then 1 else 0)
  {
    RunKeeps(Init(), actions);
  }

  /** Once both ends are gone the accounts are closed: one free, one fate, every waker accounted for. */
  lemma NothingLeaks(actions: seq<Action>)
    ensures var s := Run(Init(), actions);
            s.receiver.Gone? && s.sender.Finished? ==>
              && s.frees == 1
              && s.sent == s.delivered + s.discarded + s.returned
              && s.stored == s.taken + s.retired
    ensures var s := Run(Init(), actions);
            s.frees == 1 ==> s.receiver.Gone? && (s.sender.Finished? || s.sender.Wake?)
  {
    RunKeeps(Init(), actions);
  }

  /** A send that reports success was delivered or discarded; one that fails hands the message back. */
  lemma OutcomeOfSend(actions: seq<Action>)
    ensures var s := Run(Init(), actions);
            && (s.sender.Failed? ==> s.sent == 1 && s.message && s.receiver.Gone?)
            && (s.returned == 1 ==> s.delivered == 0 && s.discarded == 0 && s.receiver.Gone?)
            && (s.delivered == 1 ==> s.returned == 0 && s.discarded == 0)
  {
    RunKeeps(Init(), actions);
    var s := Run(Init(), actions);
    if s.returned == 1 && !s.receiver.Gone? {
      ReturnedMeansGone(Init(), actions);
    }
  }

  lemma GoneWhenReturned(s: State, a: Action)
    requires Inv(s) && (s.returned > 0 ==> s.receiver.Gone?)
    ensures Step(s, a).returned > 0 ==> Step(s, a).receiver.Gone?
  {
    if OfSender(a) {
      hide Step;
      SenderSteps(s, a);
    } else {
      ReceiverSteps(s, a);
      GoneStays(s, a);
      hide Step;
    }
  }

  lemma GoneStays(s: State, a: Action)
    requires !OfSender(a)
    ensures s.receiver.Gone? ==> Step(s, a) == s
  {
  }

  lemma {:induction false} ReturnedMeansGone(s: State, actions: seq<Action>)
    requires Inv(s) && (s.returned > 0 ==> s.receiver.Gone?)
    ensures Run(s, actions).returned > 0 ==> Run(s, actions).receiver.Gone?
    decreases |actions|
  {
    if actions != [] {
      hide Inv, Step;
      StepKeeps(s, actions[0]);
      GoneWhenReturned(s, actions[0]);
      ReturnedMeansGone(Step(s, actions[0]), actions[1..]);
    }
  }

  /** No lost wake-up: a receiver that was told to wait has been woken once the sender has finished. */
  lemma NoLostWakeup(actions: seq<Action>)
    ensures var s := Run(Init(), actions);
            s.receiver == Future(Pending) && s.sender.Finished? ==> s.woken
  {
    RunKeeps(Init(), actions);
  }

  // ---- The retry loop of Recv::drop ends ----

  predicate Dropping(s: State) {
    s.receiver.DropLoad? || s.receiver.DropAct? || s.receiver.DropReclaimed?
  }

  /** How many more times the sender can change the state byte. */
  function SenderMoves(s: State): nat {
    if SenderBefore(s) then 2 else if SenderAwaking(s) then 1 else 0
  }

  function DropRank(s: State): nat {
    3 * SenderMoves(s) + (if s.word == RECEIVING then 3 else 0)
    + match s.receiver
      case DropLoad => 2
      case DropAct(seen) => if seen == s.word then 1 else 3
      case DropReclaimed => 3
      case _ => 0
  }

  function DropTurns(s: State, actions: seq<Action>): nat
    decreases |actions|
  {
    if actions == [] then 0
    else (if actions[0].RecvStep? && Dropping(s) then 1 else 0) + DropTurns(Step(s, actions[0]), actions[1..])
  }

  lemma DropRankFalls(s: State, a: Action)
    requires Inv(s) && Dropping(s)
    ensures var s' := Step(s, a);
            && (Dropping(s') || s'.receiver.Gone?)
            && DropRank(s') <= DropRank(s)
            && (a.RecvStep? ==> DropRank(s') < DropRank(s))
  {
  }

  /** However the sender interferes, a drop finishes within eleven of its own steps. */
  lemma {:induction false} DropEnds(s: State, actions: seq<Action>)
    requires Inv(s) && (Dropping(s) || s.receiver.Gone?)
    ensures DropTurns(s, actions) <= if Dropping(s) then DropRank(s) else 0
    ensures s.receiver.DropLoad? ==> DropTurns(s, actions) <= 11
    decreases |actions|
  {
    if actions != [] {
      var s' := Step(s, actions[0]);
      StepKeeps(s, actions[0]);
      if Dropping(s) {
        DropRankFalls(s, actions[0]);
      }
      DropEnds(s', actions[1..]);
    }
  }
}
