/** What the calls on either end of the oneshot channel answer, in every interleaving. */
module OneshotAnswers {
  import opened Options
  import opened Oneshots
  import opened OneshotSafety

  // ---- One call ----

  /** A `try_recv` or a poll is under way. */
  predicate Busy(r: ReceiverPc) {
    || r.TryStore? || r.TryRead?
    || r.Register? || r.Reclaim? || r.Reregister? || r.Publish? || r.DropWaker? || r.Store? || r.Read?
  }

  /** The owner has begun to drop the receiver. */
  predicate Leaving(r: ReceiverPc) {
    r.HandleFree? || r.DropLoad? || r.DropAct? || r.DropReclaimed? || r.Gone?
  }

  predicate Begins(s: State, a: Action) {
    || (a.CallTryRecv? && s.receiver.Handle?)
    || (a.CallPoll? && s.receiver.Future? && !s.receiver.last.Completed?)
  }

  /** The step with which a call returns. */
  predicate Returns(s: State, a: Action) {
    (Begins(s, a) || (a.RecvStep? && Busy(s.receiver))) && !Busy(Step(s, a).receiver)
  }

  /**
   The right answer, from what has happened: once the sender is done, the message if one was sent and not
   yet received, and otherwise nothing ever; before that, nothing yet.
   */
  function Verdict(s: State): Answer {
    if SenderAfter(s) then (if s.sent > s.delivered then Ok else Disconnected)
    else if s.receiver.Handle? then Empty
    else Wait
  }

  /** While the receiver is kept, nothing is thrown away. */
  predicate Kept(s: State) {
    !Leaving(s.receiver) ==> s.discarded == 0 && s.returned == 0
  }

  predicate AnswersRightly(s: State, a: Action) {
    var s' := Step(s, a);
    && s'.answers == (if Returns(s, a) then s.answers + [Verdict(s)] else s.answers)
    && s'.delivered == (if Returns(s, a) && Verdict(s).Ok? then s.delivered + 1 else s.delivered)
  }

  lemma CallAnswers(s: State, a: Action)
    requires Inv(s) && Kept(s) && (a.CallTryRecv? || a.CallPoll?)
    ensures AnswersRightly(s, a)
  {
  }

  lemma BusyAnswers(s: State)
    requires Inv(s) && Kept(s) && Busy(s.receiver)
    ensures AnswersRightly(s, RecvStep)
  {
  }

  lemma LeavingAnswers(s: State)
    requires Inv(s) && !Busy(s.receiver)
    ensures AnswersRightly(s, RecvStep)
  {
  }

  lemma OthersAnswerNothing(s: State, a: Action)
    requires Inv(s) && !a.CallTryRecv? && !a.CallPoll? && !a.RecvStep?
    ensures AnswersRightly(s, a)
  {
  }

  /**
   Every call answers once, with the step it returns, and its answer is the right one at that moment; a
   message is delivered exactly by the call that answers with it.
   */
  lemma StepAnswers(s: State, a: Action)
    requires Inv(s) && Kept(s)
    ensures AnswersRightly(s, a)
  {
    hide Inv, Kept, AnswersRightly;
    if a.CallTryRecv? || a.CallPoll? {
      CallAnswers(s, a);
    } else if !a.RecvStep? {
      OthersAnswerNothing(s, a);
    } else if Busy(s.receiver) {
      BusyAnswers(s);
    } else {
      LeavingAnswers(s);
    }
  }

  /** Only the owner's drop, or that of a `SendError`, throws a message away. */
  lemma StepDiscards(s: State, a: Action)
    requires Inv(s) && Kept(s)
    ensures Kept(Step(s, a))
  {
    if OfSender(a) {
      SenderDiscards(s, a);
    } else {
      ReceiverSteps(s, a);
      ReceiverDiscards(s, a);
    }
    hide Step, Inv;
  }

  lemma SenderDiscards(s: State, a: Action)
    requires Inv(s) && Kept(s) && OfSender(a)
    ensures Kept(Step(s, a))
  {
  }

  lemma LeavingStays(s: State, a: Action)
    requires !OfSender(a) && Leaving(s.receiver)
    ensures Leaving(Step(s, a).receiver)
  {
  }

  lemma CallDiscards(s: State, a: Action)
    requires !OfSender(a) && !a.RecvStep? && !Leaving(Step(s, a).receiver)
    ensures Step(s, a).discarded == s.discarded
  {
  }

  lemma BusyDiscards(s: State)
    requires !Leaving(s.receiver)
    ensures Step(s, RecvStep).discarded == s.discarded
  {
  }

  lemma ReceiverDiscards(s: State, a: Action)
    requires !OfSender(a)
    ensures !Leaving(Step(s, a).receiver) ==> !Leaving(s.receiver) && Step(s, a).discarded == s.discarded
  {
    hide Step;
    if Leaving(s.receiver) {
      LeavingStays(s, a);
    } else if a.RecvStep? {
      BusyDiscards(s);
    } else if !Leaving(Step(s, a).receiver) {
      CallDiscards(s, a);
    }
  }

  // ---- Whole runs ----

  predicate Final(x: Answer) {
    x.Ok? || x.Disconnected?
  }

  function Oks(answers: seq<Answer>): nat {
    if answers == [] then 0
    else Oks(answers[..|answers| - 1]) + if answers[|answers| - 1].Ok? then 1 else 0
  }

  /** After an answer that is final there is nothing to receive any more. */
  ghost predicate AnswersOk(s: State) {
    && Oks(s.answers) == s.delivered
    && (forall i, j :: 0 <= i < j < |s.answers| && Final(s.answers[i]) ==> s.answers[j].Disconnected?)
    && (forall i :: 0 <= i < |s.answers| && Final(s.answers[i]) ==> SenderAfter(s) && s.sent <= s.delivered)
  }

  /** Once the sender is done it stays so, and sends nothing more. */
  lemma SenderStaysAfter(s: State, a: Action)
    requires SenderAfter(s)
    ensures SenderAfter(Step(s, a)) && Step(s, a).sent == s.sent
  {
    if !OfSender(a) {
      ReceiverSteps(s, a);
      hide Step;
    }
  }

  lemma OneMessage(s: State)
    requires Inv(s)
    ensures s.sent <= 1
  {
  }

  lemma StepKeepsAnswers(s: State, a: Action)
    requires Inv(s) && Kept(s) && AnswersOk(s)
    ensures AnswersOk(Step(s, a))
  {
    hide Inv, Step, Kept, Returns;
    StepAnswers(s, a);
    OneMessage(s);
    if SenderAfter(s) {
      SenderStaysAfter(s, a);
    }
    var s' := Step(s, a);
    if s'.answers != s.answers {
      assert s'.answers[..|s.answers|] == s.answers;
    }
  }

  lemma {:induction false} RunAnswers(s: State, actions: seq<Action>)
    requires Inv(s) && Kept(s) && AnswersOk(s)
    ensures Inv(Run(s, actions)) && Kept(Run(s, actions)) && AnswersOk(Run(s, actions))
    decreases |actions|
  {
    if actions != [] {
      hide Inv, Step, Kept, AnswersOk;
      StepKeeps(s, actions[0]);
      StepDiscards(s, actions[0]);
      StepKeepsAnswers(s, actions[0]);
      RunAnswers(Step(s, actions[0]), actions[1..]);
    }
  }

  /** In every run, whatever is done next: the answer given, if any, is the right one, and given once. */
  lemma AnswerIsRight(actions: seq<Action>, a: Action)
    ensures AnswersRightly(Run(Init(), actions), a)
  {
    RunAnswers(Init(), actions);
    StepAnswers(Run(Init(), actions), a);
  }

  /**
   In every run: as many calls answered with a message as messages were delivered, at most one; and
   whatever is asked after a message or a disconnection is answered with a disconnection.
   */
  lemma AnswersSettle(actions: seq<Action>)
    ensures var s := Run(Init(), actions);
            && Oks(s.answers) == s.delivered <= 1
            && forall i, j :: 0 <= i < j < |s.answers| && Final(s.answers[i]) ==> s.answers[j].Disconnected?
  {
    RunAnswers(Init(), actions);
  }

  lemma {:induction false} LeftByOwner(s: State, actions: seq<Action>)
    requires !Leaving(s.receiver) && CallDrop !in actions
    ensures !Leaving(Run(s, actions).receiver)
    decreases |actions|
  {
    if actions != [] {
      assert actions[0] in actions;
      StepLeaves(s, actions[0]);
      LeftByOwner(Step(s, actions[0]), actions[1..]);
    }
  }

  lemma StepLeaves(s: State, a: Action)
    requires !Leaving(s.receiver) && !a.CallDrop?
    ensures !Leaving(Step(s, a).receiver)
  {
    if OfSender(a) {
      SenderSteps(s, a);
      hide Step;
    }
  }

  /** Unless the receiver is dropped, no message is thrown away or handed back: it waits to be received. */
  lemma NothingThrownAway(actions: seq<Action>)
    requires CallDrop !in actions
    ensures var s := Run(Init(), actions);
            s.discarded == 0 && s.returned == 0 && s.sent == s.delivered + if s.message then 1 else 0
  {
    RunAnswers(Init(), actions);
    LeftByOwner(Init(), actions);
  }

  // ---- What the sender did ----

  /** The sender's one call: `Some(true)` for `send`, `Some(false)` for a drop. */
  function SendersCall(actions: seq<Action>): Option<bool> {
    if actions == [] then None
    else if actions[0].Send? then Some(true)
    else if actions[0].SendDrop? then Some(false)
    else SendersCall(actions[1..])
  }

  lemma StepSends(s: State, a: Action)
    requires !s.sender.Ready? || (!a.Send? && !a.SendDrop?)
    ensures Step(s, a).sent == s.sent && Step(s, a).sender.Ready? == s.sender.Ready?
  {
    if OfSender(a) {
    } else {
      ReceiverSteps(s, a);
      hide Step;
    }
  }

  lemma StepDecides(s: State, a: Action)
    requires Inv(s) && s.sender.Ready? && (a.Send? || a.SendDrop?)
    ensures Step(s, a).sent == s.sent + (if a.Send? then 1 else 0) && !Step(s, a).sender.Ready?
  {
  }

  lemma {:induction false} CallDecides(s: State, actions: seq<Action>)
    requires Inv(s)
    ensures var s' := Run(s, actions);
            && s'.sent == s.sent + (if s.sender.Ready? && SendersCall(actions) == Some(true) then 1 else 0)
            && (s'.sender.Ready? <==> s.sender.Ready? && SendersCall(actions).None?)
    decreases |actions|
  {
    if actions != [] {
      hide Inv, Step;
      StepKeeps(s, actions[0]);
      if !s.sender.Ready? || (!actions[0].Send? && !actions[0].SendDrop?) {
        StepSends(s, actions[0]);
      } else {
        StepDecides(s, actions[0]);
      }
      CallDecides(Step(s, actions[0]), actions[1..]);
    }
  }

  /** A message was sent exactly if the sender's call was `send`. */
  lemma SentWhatWasSent(actions: seq<Action>)
    ensures Run(Init(), actions).sent == if SendersCall(actions) == Some(true) then 1 else 0
    ensures Run(Init(), actions).sender.Ready? <==> SendersCall(actions).None?
  {
    CallDecides(Init(), actions);
  }

  /** The owner's other calls take effect at once: the handle becomes a future, a drop begins, an error goes. */
  lemma CallsTakeEffect(s: State)
    requires Inv(s)
    ensures s.receiver.Handle? ==> Step(s, IntoFuture).receiver == Future(Unpolled)
    ensures s.receiver.Handle? || s.receiver.Future? ==> Leaving(Step(s, CallDrop).receiver)
    ensures s.sender.Failed? ==>
              var s' := Step(s, DropError);
              s'.sender.Finished? && !s'.message && !s'.live && s'.discarded == s.discarded + 1
  {
  }

  /** A send fails exactly if the receiver is gone when it is published. */
  lemma SendFails(s: State)
    requires Inv(s) && s.sender.Written?
    ensures SenderStep(s).sender.Failed? <==> s.receiver.Gone?
  {
  }

  /** Whoever holds the error of a failed send still holds the message, and gets it back on asking. */
  lemma {:induction false} ErrorKeepsMessage(s: State, actions: seq<Action>)
    requires Inv(s) && s.sender.Failed? && DropError !in actions
    ensures var s' := Run(s, actions);
            if IntoInner in actions then s'.sender.Finished? && s'.returned == 1 && s'.discarded == 0
            else s'.sender.Failed? && s'.message && s'.discarded == 0
    decreases |actions|
  {
    if actions != [] {
      assert actions[0] in actions;
      StepKeeps(s, actions[0]);
      if actions[0].IntoInner? {
        ReturnedStays(Step(s, actions[0]), actions[1..]);
      } else {
        FailedStays(s, actions[0]);
        ErrorKeepsMessage(Step(s, actions[0]), actions[1..]);
      }
    }
  }

  lemma FailedStays(s: State, a: Action)
    requires Inv(s) && s.sender.Failed? && !a.DropError? && !a.IntoInner?
    ensures Step(s, a).sender.Failed?
  {
    if !OfSender(a) {
      ReceiverSteps(s, a);
      hide Step;
    }
  }

  lemma {:induction false} ReturnedStays(s: State, actions: seq<Action>)
    requires Inv(s) && s.sender.Finished? && s.returned == 1
    ensures var s' := Run(s, actions); s'.sender.Finished? && s'.returned == 1 && s'.discarded == 0
    decreases |actions|
  {
    if actions != [] {
      StepKeeps(s, actions[0]);
      FinishedStays(s, actions[0]);
      ReturnedStays(Step(s, actions[0]), actions[1..]);
    }
  }

  lemma FinishedStays(s: State, a: Action)
    requires s.sender.Finished?
    ensures Step(s, a).sender.Finished? && Step(s, a).returned == s.returned
  {
    if OfSender(a) {
      assert Step(s, a) == s;
    } else {
      ReceiverSteps(s, a);
    }
    hide Step;
  }

  // ---- Which task waits ----

  /** The task of the receiver's latest poll. */
  function Poller(s: State, actions: seq<Action>, before: Task): Task
    decreases |actions|
  {
    if actions == [] then before
    else Poller(Step(s, actions[0]), actions[1..],
                if actions[0].CallPoll? && Begins(s, actions[0]) then actions[0].task else before)
  }

  predicate PolledBy(s: State, task: Task) {
    match s.receiver
    case Register(t) => t == task
    case Reclaim(t) => t == task
    case Reregister(t) => t == task
    case Publish(t) => t == task
    case Future(last) => last.Pending? ==> s.lastTask == task
    case _ => true
  }

  lemma StepPolls(s: State, a: Action, task: Task)
    requires Inv(s) && PolledBy(s, task)
    ensures PolledBy(Step(s, a), if a.CallPoll? && Begins(s, a) then a.task else task)
  {
    if OfSender(a) {
      SenderSteps(s, a);
      hide Step;
    }
  }

  lemma {:induction false} RunPolls(s: State, actions: seq<Action>, task: Task)
    requires Inv(s) && PolledBy(s, task)
    ensures PolledBy(Run(s, actions), Poller(s, actions, task))
    decreases |actions|
  {
    if actions != [] {
      hide Inv, Step, PolledBy;
      StepKeeps(s, actions[0]);
      StepPolls(s, actions[0], task);
      RunPolls(Step(s, actions[0]), actions[1..],
               if actions[0].CallPoll? && Begins(s, actions[0]) then actions[0].task else task);
    }
  }

  /** It is the task of the latest poll that waits, and that has been woken once the sender has finished. */
  lemma LatestPollerWoken(actions: seq<Action>)
    ensures var s := Run(Init(), actions);
            s.receiver == Future(Pending) ==>
              s.lastTask == Poller(Init(), actions, 0) && (s.sender.Finished? ==> s.woken)
  {
    RunPolls(Init(), actions, 0);
    NoLostWakeup(actions);
  }

  /**
   A poll that answers with waiting leaves its task where the sender will find it; it wakes itself only if
   the sender is already waking.
   */
  lemma WaitingIsRegistered(s: State, a: Action)
    requires Inv(s) && Kept(s) && Returns(s, a) && Verdict(s).Wait?
    ensures var s' := Step(s, a);
            && s'.receiver == Future(Pending)
            && (if SenderBefore(s) then s'.word == RECEIVING && s'.waker == Some(s'.lastTask) && !s'.woken
                else SenderAwaking(s) && s'.woken)
  {
    StepAnswers(s, a);
  }

  // ---- Calls end ----

  /** How many more steps of its own a call takes, at most. */
  function CallRank(r: ReceiverPc): nat {
    match r
    case Reclaim(_) => 6
    case Register(_) => 5
    case Reregister(_) => 5
    case Publish(_) => 4
    case DropWaker(_) => 3
    case Store => 2
    case Read => 1
    case TryStore => 2
    case TryRead => 1
    case _ => 0
  }

  /** Whatever the sender does meanwhile, each step of a call brings it closer to its answer. */
  lemma CallAdvances(s: State, a: Action)
    requires Inv(s) && Busy(s.receiver)
    ensures var s' := Step(s, a);
            if a.RecvStep? then CallRank(s'.receiver) < CallRank(s.receiver) && (Busy(s'.receiver) || Returns(s, a))
            else s'.receiver == s.receiver
  {
    if OfSender(a) {
      SenderSteps(s, a);
      hide Step;
    }
  }

  function SendRank(p: SenderPc): nat {
    match p
    case Written => 4
    case TakeWaker(_) => 3
    case Finish(_, _) => 2
    case Wake(_) => 1
    case Cleanup(_) => 1
    case FreeOnly => 1
    case _ => 0
  }

  /** A send or a drop of the sender never waits: it is over after four steps of its own at most. */
  lemma SendAdvances(s: State, a: Action)
    requires Inv(s) && SendRank(s.sender) > 0
    ensures var s' := Step(s, a);
            if a.SendStep? then SendRank(s'.sender) < SendRank(s.sender) else s'.sender == s.sender
    ensures a.SendStep? ==> var p := Step(s, a).sender; SendRank(p) == 0 ==> p.Finished? || p.Failed?
  {
    if !OfSender(a) {
      ReceiverSteps(s, a);
      hide Step;
    }
  }
}
