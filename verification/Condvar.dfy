/**
 The condition variable on values alone, with the mutex its waits let go of and take back. A task
 selected by `notify_one` carries a baton until it holds the mutex again; whoever gives up on the way
 passes the notification to the next waiter in line.
 */
module CondvarModel {
  import opened Options
  import opened WaitQueues
  import opened Counts
  import opened Crowds

  datatype Mark = NotifiedOne | NotifiedAll

  /**
   A call of `wait`: it holds the mutex guard until its first poll; that poll joins the line, and only
   then drops the guard; at the end it wants the mutex back.
   */
  datatype Stage = Entering | Releasing | Parked | Relocking(baton: bool)

  datatype Op =
    | NotifyOne
    | NotifyAll
    | Lock(t: nat)
    | Unlock(t: nat)
    | BeginWait(t: nat)
    | PollWait(t: nat, task: nat)
    | DropGuard(t: nat)
    | Relock(t: nat)
    | DropWait(t: nat)

  datatype Answer = Refused | Done | Pending | Ready(one: bool) | Locked

  datatype Model = Model(owner: Option<nat>, waits: map<nat, Stage>, crowd: Crowd<Mark>)

  datatype Turn = Turn(after: Model, answer: Answer, woken: seq<nat>)

  const INIT: Model := Model(None, map[], Crowd([], map[]))

  // ---- One operation ----

  /** The first waiter in line gets the notification; with nobody in line it is gone. */
  function Notify(m: Model): Turn {
    Turn(m.(crowd := m.crowd.Choose(NotifiedOne)), Done, m.crowd.First())
  }

  predicate At(m: Model, t: nat, stage: Stage) {
    t in m.waits && m.waits[t] == stage
  }

  /** The wait is over, one way or another. */
  function Gone(m: Model, t: nat): Model {
    m.(waits := m.waits - {t}, crowd := m.crowd.Leave(t))
  }

  /** A later poll: once notified, the node goes and a `notify_one` becomes a baton. */
  function PollParked(m: Model, t: nat, task: nat): Turn
    requires t in m.crowd.seats
  {
    if m.crowd.seats[t].Chosen? then
      var one := m.crowd.seats[t].mark.NotifiedOne?;
      Turn(m.(waits := m.waits[t := Relocking(one)], crowd := m.crowd.Leave(t)), Ready(one), [])
    else
      Turn(m.(crowd := m.crowd.Refresh(t, task)), Pending, [])
  }

  /** The notification `t` has been given and not yet used up. */
  predicate Carries(m: Model, t: nat) {
    At(m, t, Relocking(true)) || (t in m.crowd.seats && m.crowd.seats[t] == Chosen(NotifiedOne))
  }

  /** Whoever gives up with a notification passes it on; before the first poll the guard goes too. */
  function GiveUp(m: Model, t: nat): Turn {
    if Carries(m, t) then Notify(Gone(m, t))
    else if At(m, t, Entering) then Turn(Gone(m, t).(owner := None), Done, [])
    else Turn(Gone(m, t), Done, [])
  }

  /** Whether a caller can make this operation at all. */
  predicate Allowed(m: Model, op: Op) {
    match op
    case NotifyOne => true
    case NotifyAll => true
    case Lock(t) => m.owner.None? && t !in m.waits
    case Unlock(t) => m.owner == Some(t) && t !in m.waits
    case BeginWait(t) => m.owner == Some(t) && t !in m.waits
    case PollWait(t, _) => At(m, t, Entering) || (At(m, t, Parked) && t in m.crowd.seats)
    case DropGuard(t) => At(m, t, Releasing)
    case Relock(t) => m.owner.None? && t in m.waits && m.waits[t].Relocking?
    case DropWait(t) => t in m.waits && !m.waits[t].Releasing?
  }

  function Act(m: Model, op: Op): Turn {
    if !Allowed(m, op) then Turn(m, Refused, [])
    else
      match op
      case NotifyOne => Notify(m)
      case NotifyAll => Turn(m.(crowd := m.crowd.ChooseAll(NotifiedAll)), Done, m.crowd.Tasks())
      case Lock(t) => Turn(m.(owner := Some(t)), Done, [])
      case Unlock(t) => Turn(m.(owner := None), Done, [])
      case BeginWait(t) => Turn(m.(waits := m.waits[t := Entering], crowd := m.crowd.Enter(t)), Done, [])
      case PollWait(t, task) =>
        if m.waits[t].Entering? then
          Turn(m.(waits := m.waits[t := Releasing], crowd := m.crowd.Join(t, task)), Pending, [])
        else PollParked(m, t, task)
      case DropGuard(t) => Turn(m.(waits := m.waits[t := Parked], owner := None), Done, [])
      case Relock(t) => Turn(m.(waits := m.waits - {t}, owner := Some(t)), Locked, [])
      case DropWait(t) => GiveUp(m, t)
  }

  lemma Refuses(m: Model, op: Op)
    ensures !Allowed(m, op) ==> Act(m, op) == Turn(m, Refused, [])
  {
  }

  // ---- Runs ----

  function After(m: Model, ops: seq<Op>): Model {
    if ops == [] then m else Act(After(m, ops[..|ops| - 1]), ops[|ops| - 1]).after
  }

  datatype Reply = Reply(answer: Answer, woken: seq<nat>)

  function Replies(m: Model, ops: seq<Op>): (r: seq<Reply>)
    ensures |r| == |ops|
  {
    if ops == [] then []
    else
      var t := Act(After(m, ops[..|ops| - 1]), ops[|ops| - 1]);
      Replies(m, ops[..|ops| - 1]) + [Reply(t.answer, t.woken)]
  }

  /** How many calls of `notify_one` found someone to notify. */
  function Selections(ops: seq<Op>, replies: seq<Reply>): nat
    requires |replies| == |ops|
  {
    if ops == [] then 0
    else
      var n := |ops| - 1;
      Selections(ops[..n], replies[..n]) + One(ops[n].NotifyOne? && replies[n].woken != [])
  }

  /** A task selected by `notify_one` holds the mutex again. */
  predicate Completes(m: Model, op: Op) {
    op.Relock? && Allowed(m, op) && Carries(m, op.t)
  }

  function Completed(m: Model, ops: seq<Op>): nat {
    if ops == [] then 0
    else
      var before := ops[..|ops| - 1];
      Completed(m, before) + One(Completes(After(m, before), ops[|ops| - 1]))
  }

  /** The one who has the notification gives up with nobody else in line. */
  predicate Discards(m: Model, op: Op) {
    op.DropWait? && Allowed(m, op) && Carries(m, op.t) && Without(m.crowd.line, op.t) == []
  }

  function Discarded(m: Model, ops: seq<Op>): nat {
    if ops == [] then 0
    else
      var before := ops[..|ops| - 1];
      Discarded(m, before) + One(Discards(After(m, before), ops[|ops| - 1]))
  }

  // ---- What every state keeps ----

  /** The stages say who holds the mutex and who is at the desk. */
  ghost predicate Staged(m: Model, t: nat)
    requires t in m.waits
  {
    match m.waits[t]
    case Entering => m.owner == Some(t) && t in m.crowd.seats && m.crowd.seats[t].Away?
    case Releasing => m.owner == Some(t) && t in m.crowd.seats && !m.crowd.seats[t].Away?
    case Parked => t in m.crowd.seats && !m.crowd.seats[t].Away?
    case Relocking(_) => t !in m.crowd.seats
  }

  ghost predicate Inv(m: Model) {
    && m.crowd.Wf()
    && (forall t :: t in m.crowd.seats ==> t in m.waits)
    && (forall t :: t in m.waits ==> Staged(m, t))
  }

  ghost function Ones(c: Crowd<Mark>): set<nat> {
    set t | t in c.seats && c.seats[t] == Chosen(NotifiedOne)
  }

  ghost function Batons(waits: map<nat, Stage>): set<nat> {
    set t | t in waits && waits[t] == Relocking(true)
  }

  /** Notifications under way: with a selected waiter, or with a baton. */
  ghost function Carried(m: Model): nat {
    |Ones(m.crowd)| + |Batons(m.waits)|
  }

  lemma OnesLeave(c: Crowd<Mark>, t: nat)
    ensures |Ones(c.Leave(t))| + One(t in c.seats && c.seats[t] == Chosen(NotifiedOne)) == |Ones(c)|
  {
    assert Ones(c.Leave(t)) == Ones(c) - {t};
  }

  lemma OnesChoose(c: Crowd<Mark>)
    requires c.Wf()
    ensures |Ones(c.Choose(NotifiedOne))| == |Ones(c)| + One(c.line != [])
  {
    if c.line != [] {
      assert c.line[0] in c.line;
      assert Ones(c.Choose(NotifiedOne)) == Ones(c) + {c.line[0]};
    }
  }

  lemma OnesStay(c: Crowd<Mark>, t: nat, task: nat)
    requires t in c.seats ==> !c.seats[t].Chosen?
    ensures Ones(c.Enter(t)) == Ones(c.Join(t, task)) == Ones(c.Refresh(t, task)) == Ones(c)
  {
  }

  lemma OnesAll(c: Crowd<Mark>)
    ensures Ones(c.ChooseAll(NotifiedAll)) == Ones(c)
  {
  }

  lemma BatonsDrop(waits: map<nat, Stage>, t: nat)
    ensures |Batons(waits - {t})| + One(t in waits && waits[t] == Relocking(true)) == |Batons(waits)|
  {
    assert Batons(waits - {t}) == Batons(waits) - {t};
  }

  lemma BatonsPut(waits: map<nat, Stage>, t: nat, stage: Stage)
    ensures |Batons(waits[t := stage])| + One(t in waits && waits[t] == Relocking(true))
         == |Batons(waits)| + One(stage == Relocking(true))
  {
    BatonsDrop(waits, t);
    BatonsDrop(waits[t := stage], t);
    assert waits[t := stage] - {t} == waits - {t};
  }

  // ---- Each operation ----

  /** What one operation does with the notifications under way. */
  ghost predicate Accounts(m: Model, op: Op) {
    var t := Act(m, op);
    && Inv(t.after)
    && Carried(m) + One(op.NotifyOne? && t.woken != [])
    == Carried(t.after) + One(Completes(m, op)) + One(Discards(m, op))
  }

  lemma NotifyKeeps(m: Model)
    requires Inv(m)
    ensures Inv(Notify(m).after) && Carried(Notify(m).after) == Carried(m) + One(m.crowd.line != [])
    ensures m.crowd.line != [] <==> Notify(m).woken != []
  {
    Chooses(m.crowd, NotifiedOne);
    OnesChoose(m.crowd);
    if m.crowd.line != [] {
      assert m.crowd.line[0] in m.crowd.line;
    }
  }

  lemma NotifyAllKeeps(m: Model)
    requires Inv(m)
    ensures Accounts(m, NotifyAll)
  {
    hide Ones, Batons;
    ChoosesAll(m.crowd, NotifiedAll);
    OnesAll(m.crowd);
  }

  lemma MutexKeeps(m: Model, op: Op)
    requires Inv(m) && Allowed(m, op) && (op.Lock? || op.Unlock? || op.BeginWait? || op.DropGuard? || op.Relock?)
    ensures Accounts(m, op)
  {
    hide Ones, Batons;
    if op.BeginWait? {
      BatonsPut(m.waits, op.t, Entering);
      Enters(m.crowd, op.t);
      OnesStay(m.crowd, op.t, 0);
    } else if op.DropGuard? {
      BatonsPut(m.waits, op.t, Parked);
    } else if op.Relock? {
      BatonsDrop(m.waits, op.t);
    }
  }

  lemma FirstPollKeeps(m: Model, t: nat, task: nat)
    requires Inv(m) && At(m, t, Entering)
    ensures Accounts(m, PollWait(t, task))
  {
    hide Ones, Batons;
    BatonsPut(m.waits, t, Releasing);
    Joins(m.crowd, t, task);
    OnesStay(m.crowd, t, task);
  }

  lemma NextPollKeeps(m: Model, t: nat, task: nat)
    requires Inv(m) && At(m, t, Parked) && t in m.crowd.seats
    ensures Accounts(m, PollWait(t, task))
  {
    hide Ones, Batons;
    if m.crowd.seats[t].Chosen? {
      BatonsPut(m.waits, t, Relocking(m.crowd.seats[t].mark.NotifiedOne?));
      Settles(m.crowd, t);
      OnesLeave(m.crowd, t);
    } else {
      assert Staged(m, t);
      Refreshes(m.crowd, t, task);
      OnesStay(m.crowd, t, task);
    }
  }

  lemma GoneKeeps(m: Model, t: nat)
    requires Inv(m) && t in m.waits
    ensures m.waits[t].Entering? ==> Inv(Gone(m, t).(owner := None))
    ensures !m.waits[t].Entering? ==> Inv(Gone(m, t))
    ensures Carried(Gone(m, t)) + One(Carries(m, t)) == Carried(m)
  {
    hide Ones, Batons;
    BatonsDrop(m.waits, t);
    OnesLeave(m.crowd, t);
    if t in m.crowd.seats {
      Settles(m.crowd, t);
    } else {
      assert m.crowd.Leave(t) == m.crowd by { WithoutAbsent(m.crowd.line, t); }
    }
  }

  lemma DropKeeps(m: Model, t: nat)
    requires Inv(m) && Allowed(m, Op.DropWait(t))
    ensures Accounts(m, Op.DropWait(t))
  {
    GoneKeeps(m, t);
    if Carries(m, t) {
      NotifyKeeps(Gone(m, t));
    }
  }

  lemma StepKeeps(m: Model, op: Op)
    requires Inv(m)
    ensures Accounts(m, op)
  {
    if !Allowed(m, op) {
      return;
    }
    hide Inv, Act, Carried, Completes, Discards;
    match op {
      case NotifyOne => NotifyOneKeeps(m);
      case NotifyAll => NotifyAllKeeps(m);
      case PollWait(t, task) =>
        if At(m, t, Entering) { FirstPollKeeps(m, t, task); } else { NextPollKeeps(m, t, task); }
      case DropWait(t) => DropKeeps(m, t);
      case _ => MutexKeeps(m, op);
    }
  }

  lemma NotifyOneKeeps(m: Model)
    requires Inv(m)
    ensures Accounts(m, NotifyOne)
  {
    NotifyKeeps(m);
  }

  /**
   In every run, each notification that selected a waiter was used up by a task holding the mutex again,
   is under way with a selected waiter or a baton, or was discarded because the one who had it gave up
   with nobody else in line.
   */
  lemma {:induction false} EveryNotification(ops: seq<Op>)
    ensures Inv(After(INIT, ops))
    ensures Selections(ops, Replies(INIT, ops)) ==
            Completed(INIT, ops) + Carried(After(INIT, ops)) + Discarded(INIT, ops)
  {
    hide Inv, Carried, Act, Completes, Discards;
    if ops == [] {
      InitKeeps();
    } else {
      var before, op := ops[..|ops| - 1], ops[|ops| - 1];
      EveryNotification(before);
      StepKeeps(After(INIT, before), op);
      assert Replies(INIT, ops)[..|ops| - 1] == Replies(INIT, before);
    }
  }

  lemma InitKeeps()
    ensures Inv(INIT) && Carried(INIT) == 0
  {
    assert Ones(INIT.crowd) == {} && Batons(INIT.waits) == {};
  }

  // ---- Nobody is missed ----

  /** The line is joined before the guard is dropped: whoever else holds the mutex, or nobody, the waiter is there. */
  lemma NotifierSeesWaiter(ops: seq<Op>, t: nat)
    ensures var m := After(INIT, ops);
            t in m.waits && !m.waits[t].Relocking? && m.owner != Some(t) ==>
              t in m.crowd.line || (t in m.crowd.seats && m.crowd.seats[t].Chosen?)
  {
    EveryNotification(ops);
    hide After;
    var m := After(INIT, ops);
    assert t in m.waits ==> Staged(m, t);
  }

  /** Whoever leaves the line not by giving up is woken. */
  lemma NobodyForgotten(m: Model, op: Op, t: nat)
    requires Inv(m) && t in m.crowd.line
    ensures t in Act(m, op).after.crowd.line || op == Op.DropWait(t) || m.crowd.TaskOf(t) in Act(m, op).woken
  {
    hide Crowd.Choose, Crowd.Leave, Crowd.TaskOf, Crowd.First, Crowd.Tasks;
    assert t in m.crowd.seats && m.crowd.seats[t].InLine?;
    if op.NotifyAll? {
      DisperseWakes(m.crowd, t);
    } else if op.DropWait? || op.PollWait? {
      if op.t != t {
        OthersStay(m.crowd, op.t, t);
        ChooseWakes(m.crowd.Leave(op.t), NotifiedOne, t);
      }
    } else {
      ChooseWakes(m.crowd, NotifiedOne, t);
    }
  }

  /** A notification given up goes to the next in line, who is woken for it. */
  lemma PassedOn(m: Model, t: nat, next: nat)
    requires Inv(m) && Carries(m, t) && Allowed(m, Op.DropWait(t))
    requires Without(m.crowd.line, t) != [] && next == Without(m.crowd.line, t)[0]
    ensures next != t && Carries(Act(m, Op.DropWait(t)).after, next)
    ensures Act(m, Op.DropWait(t)).woken == [m.crowd.TaskOf(next)]
  {
    WithoutKeeps(m.crowd.line, t);
    assert next in Without(m.crowd.line, t) && next in m.crowd.line;
    assert Staged(m, next) && Staged(m, t);
  }
}

/** The condition variable over its wait list, with the waits in progress and the owner of the mutex. */
module Condvars {
  import opened Options
  import opened WaitQueues
  import opened Crowds
  import opened Desks
  import opened CondvarModel

  class Condvar {
    const waiters: Desk<Mark>
    var owner: Option<nat>
    var waits: map<nat, Stage>

    ghost function Footprint(): set<object>
      reads this, waiters
    {
      {this} + waiters.Footprint()
    }

    ghost predicate Valid()
      reads this, waiters, waiters.Footprint()
    {
      waiters.Valid() && !waiters.closed && this !in waiters.Footprint() && Inv(Abs())
    }

    ghost function Abs(): Model
      reads this, waiters
    {
      Model(owner, waits, waiters.crowd)
    }

    constructor ()
      ensures Valid() && fresh(Footprint()) && Abs() == INIT
    {
      hide Desk.Valid, Inv;
      InitKeeps();
      owner, waits := None, map[];
      waiters := new Desk<Mark>();
    }

    // ---- Notifying ----

    method NotifyOne() returns (woken: seq<nat>)
      requires Valid()
      modifies Footprint()
      ensures Valid() && Footprint() == old(Footprint())
      ensures Turn(Abs(), Done, woken) == Act(old(Abs()), Op.NotifyOne)
    {
      hide Desk.Valid, Inv;
      StepKeeps(Abs(), Op.NotifyOne);
      woken := waiters.SelectFirst(NotifiedOne);
    }

    /** Releases everyone in line; no batons are handed out. */
    method NotifyAll() returns (woken: seq<nat>)
      requires Valid()
      modifies Footprint()
      ensures Valid() && Footprint() == old(Footprint())
      ensures Turn(Abs(), Done, woken) == Act(old(Abs()), Op.NotifyAll)
    {
      hide Desk.Valid, Inv;
      StepKeeps(Abs(), Op.NotifyAll);
      woken := waiters.SelectAll(NotifiedAll);
    }

    // ---- Waiting ----

    method BeginWait(t: nat)
      requires Valid() && owner == Some(t) && t !in waits
      modifies Footprint()
      ensures Valid() && Footprint() == old(Footprint())
      ensures Turn(Abs(), Done, []) == Act(old(Abs()), Op.BeginWait(t))
    {
      hide Desk.Valid, Inv;
      AtDesk(Abs(), t);
      StepKeeps(Abs(), Op.BeginWait(t));
      waits := waits[t := Entering];
      waiters.Enter(t);
    }

    /** The first poll joins the line; the guard is still held. */
    method Register(t: nat, task: nat)
      requires Valid() && t in waits && waits[t].Entering?
      modifies Footprint()
      ensures Valid() && Footprint() == old(Footprint())
      ensures Turn(Abs(), Pending, []) == Act(old(Abs()), Op.PollWait(t, task))
    {
      hide Desk.Valid, Inv;
      AtDesk(Abs(), t);
      StepKeeps(Abs(), Op.PollWait(t, task));
      waits := waits[t := Releasing];
      waiters.Join(t, task);
    }

    /** The same poll then lets go of the mutex. */
    method DropGuard(t: nat)
      requires Valid() && t in waits && waits[t].Releasing?
      modifies this
      ensures Valid() && Footprint() == old(Footprint())
      ensures Turn(Abs(), Done, []) == Act(old(Abs()), Op.DropGuard(t))
    {
      hide Desk.Valid, Inv;
      StepKeeps(Abs(), Op.DropGuard(t));
      waits := waits[t := Parked];
      owner := None;
    }

    method PollParked(t: nat, task: nat) returns (r: Answer)
      requires Valid() && t in waits && waits[t].Parked?
      modifies Footprint()
      ensures Valid() && Footprint() == old(Footprint())
      ensures Turn(Abs(), r, []) == Act(old(Abs()), Op.PollWait(t, task))
    {
      hide Desk.Valid, Inv;
      AtDesk(Abs(), t);
      StepKeeps(Abs(), Op.PollWait(t, task));
      var seat := waiters.Seat(t);
      if seat.Chosen? {
        var one := seat.mark.NotifiedOne?;
        waits := waits[t := Relocking(one)];
        waiters.Leave(t);
        r := Ready(one);
      } else {
        waiters.Refresh(t, task);
        r := Pending;
      }
    }

    /** The wait is over when the mutex is held again; only then is the notification used up. */
    method Relock(t: nat)
      requires Valid() && owner.None? && t in waits && waits[t].Relocking?
      modifies this
      ensures Valid() && Footprint() == old(Footprint())
      ensures Turn(Abs(), Locked, []) == Act(old(Abs()), Op.Relock(t))
    {
      hide Desk.Valid, Inv;
      StepKeeps(Abs(), Op.Relock(t));
      waits := waits - {t};
      owner := Some(t);
    }

    // ---- Cancelling ----

    method DropWait(t: nat) returns (woken: seq<nat>)
      requires Valid() && t in waits && !waits[t].Releasing?
      modifies Footprint()
      ensures Valid() && Footprint() == old(Footprint())
      ensures Turn(Abs(), Done, woken) == Act(old(Abs()), Op.DropWait(t))
    {
      hide Desk.Valid, Inv;
      AtDesk(Abs(), t);
      StepKeeps(Abs(), Op.DropWait(t));
      if waits[t].Relocking? {
        woken := DropBaton(t);
      } else {
        woken := DropFuture(t);
      }
    }

    /** A baton that is dropped notifies the next in line. */
    method DropBaton(t: nat) returns (woken: seq<nat>)
      requires Valid() && t in waits && waits[t].Relocking? && t !in waiters.crowd.seats
      modifies Footprint()
      ensures waiters.Valid() && !waiters.closed && this !in waiters.Footprint() && Footprint() == old(Footprint())
      ensures Turn(Abs(), Done, woken) == GiveUp(old(Abs()), t)
    {
      hide Desk.Valid, Inv;
      waiters.Wf();
      WithoutAbsent(waiters.crowd.line, t);
      assert waiters.crowd.Leave(t) == waiters.crowd;
      var baton := waits[t].baton;
      waits := waits - {t};
      woken := [];
      if baton {
        woken := waiters.SelectFirst(NotifiedOne);
      }
    }

    method DropFuture(t: nat) returns (woken: seq<nat>)
      requires Valid() && t in waits && (waits[t].Entering? || waits[t].Parked?) && t in waiters.crowd.seats
      requires waits[t].Entering? ==> waiters.crowd.seats[t].Away?
      modifies Footprint()
      ensures waiters.Valid() && !waiters.closed && this !in waiters.Footprint() && Footprint() == old(Footprint())
      ensures Turn(Abs(), Done, woken) == GiveUp(old(Abs()), t)
    {
      hide Desk.Valid, Inv;
      if waits[t].Entering? {
        owner := None;
      }
      waits := waits - {t};
      var seat := waiters.Seat(t);
      waiters.Leave(t);
      woken := [];
      if seat == Chosen(NotifiedOne) {
        woken := waiters.SelectFirst(NotifiedOne);
      }
    }

    // ---- Runs ----

    /** Makes an operation if its caller can, and refuses it otherwise. */
    method Apply(op: Op) returns (r: Reply)
      requires Valid()
      modifies Footprint()
      ensures Valid() && Footprint() == old(Footprint())
      ensures Turn(Abs(), r.answer, r.woken) == Act(old(Abs()), op)
    {
      hide Desk.Valid, Inv, Act;
      Refuses(Abs(), op);
      var woken: seq<nat>;
      match op {
        case NotifyOne =>
          woken := NotifyOne();
          r := Reply(Done, woken);
        case NotifyAll =>
          woken := NotifyAll();
          r := Reply(Done, woken);
        case DropWait(t) =>
          if t !in waits || waits[t].Releasing? {
            return Reply(Refused, []);
          }
          woken := DropWait(t);
          r := Reply(Done, woken);
        case _ =>
          r := ApplySilent(op);
      }
    }

    method ApplySilent(op: Op) returns (r: Reply)
      requires Valid() && !op.NotifyOne? && !op.NotifyAll? && !op.DropWait?
      modifies Footprint()
      ensures Valid() && Footprint() == old(Footprint())
      ensures Turn(Abs(), r.answer, r.woken) == Act(old(Abs()), op)
    {
      hide Desk.Valid, Inv, Act;
      Refuses(Abs(), op);
      r := Reply(Done, []);
      if op.Lock? && owner.None? && op.t !in waits {
        TakeMutex(op.t);
      } else if op.Unlock? && owner == Some(op.t) && op.t !in waits {
        FreeMutex(op.t);
      } else if op.BeginWait? && owner == Some(op.t) && op.t !in waits {
        BeginWait(op.t);
      } else if op.DropGuard? && op.t in waits && waits[op.t].Releasing? {
        DropGuard(op.t);
      } else if op.Relock? && owner.None? && op.t in waits && waits[op.t].Relocking? {
        Relock(op.t);
        r := Reply(Locked, []);
      } else if op.PollWait? && op.t in waits && waits[op.t].Entering? {
        Register(op.t, op.task);
        r := Reply(Pending, []);
      } else if op.PollWait? && op.t in waits && waits[op.t].Parked? {
        var answer := PollParked(op.t, op.task);
        r := Reply(answer, []);
      } else {
        r := Reply(Refused, []);
      }
    }

    method TakeMutex(t: nat)
      requires Valid() && owner.None? && t !in waits
      modifies this`owner
      ensures Valid() && Footprint() == old(Footprint())
      ensures Turn(Abs(), Done, []) == Act(old(Abs()), Op.Lock(t))
    {
      hide Desk.Valid, Inv;
      StepKeeps(Abs(), Op.Lock(t));
      owner := Some(t);
    }

    method FreeMutex(t: nat)
      requires Valid() && owner == Some(t) && t !in waits
      modifies this`owner
      ensures Valid() && Footprint() == old(Footprint())
      ensures Turn(Abs(), Done, []) == Act(old(Abs()), Op.Unlock(t))
    {
      hide Desk.Valid, Inv;
      StepKeeps(Abs(), Op.Unlock(t));
      owner := None;
    }
  }

  lemma AtDesk(m: Model, t: nat)
    requires Inv(m)
    ensures t in m.crowd.seats ==> t in m.waits
    ensures t in m.waits ==> Staged(m, t)
  {
  }

  /**
   Every run of the condition variable answers as the model does and wakes whom it wakes; so each
   notification that selected a waiter was completed, is under way, or was given up with nobody in line.
   */
  method Play(ops: seq<Op>) returns (replies: seq<Reply>)
    ensures replies == Replies(INIT, ops)
    ensures Selections(ops, replies) == Completed(INIT, ops) + Carried(After(INIT, ops)) + Discarded(INIT, ops)
  {
    hide Condvar.Valid, Condvar.Abs, Condvar.Footprint, Act, Selections, Completed, Carried, Discarded;
    var c := new Condvar();
    replies := [];
    for i := 0 to |ops|
      invariant fresh(c.Footprint()) && c.Valid() && c.Abs() == After(INIT, ops[..i])
      invariant replies == Replies(INIT, ops[..i])
    {
      assert ops[..i + 1][..i] == ops[..i];
      var r := c.Apply(ops[i]);
      replies := replies + [r];
    }
    assert ops[..|ops|] == ops;
    EveryNotification(ops);
  }
}
