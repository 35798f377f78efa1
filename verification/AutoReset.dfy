/**
 The auto-reset event on values alone: each signal releases one wait, now or later, and survives its
 cancellation.
 */
module AutoResetModel {
  import opened WaitQueues
  import opened Counts
  import opened Crowds

  datatype Op =
    | Set
    | Reset
    | TryWait
    | NewWait(f: nat)
    | PollWait(f: nat, task: nat)
    | DropWait(f: nat)

  /** `Unset` is a try that found no signal, `Pending` a poll that did not. */
  datatype Answer = Refused | Done | Released | Unset | Pending

  /** A stored signal, and the waits. */
  datatype Model = Model(stored: bool, waits: Crowd<Notice>)

  datatype Turn = Turn(after: Model, answer: Answer, woken: seq<nat>)

  function Init(stored: bool): Model {
    Model(stored, Crowd([], map[]))
  }

  // ---- One operation ----

  /** A signal goes to the first wait in line, or is stored; two stored signals become one. */
  function Signal(m: Model): Turn {
    if m.waits.line != [] then Turn(m.(waits := m.waits.Choose(Notified)), Done, m.waits.First())
    else Turn(m.(stored := true), Done, [])
  }

  /** A wait in line is released by being selected, and only then; a new one takes a stored signal. */
  function PollWait(m: Model, f: nat, task: nat): Turn
    requires f in m.waits.seats
  {
    match m.waits.seats[f]
    case Chosen(_) => Turn(m.(waits := m.waits.Settle(f)), Released, [])
    case InLine(_) => Turn(m.(waits := m.waits.Refresh(f, task)), Pending, [])
    case Away =>
      if m.stored then Turn(m.(stored := false), Released, [])
      else Turn(m.(waits := m.waits.Join(f, task)), Pending, [])
  }

  /** A selected wait that is cancelled passes its signal on. */
  function DropWait(m: Model, f: nat): Turn
    requires f in m.waits.seats
  {
    var rest := m.(waits := m.waits.Leave(f));
    if m.waits.seats[f].Chosen? then Signal(rest) else Turn(rest, Done, [])
  }

  function Act(m: Model, op: Op): Turn {
    match op
    case Set => Signal(m)
    case Reset => Turn(m.(stored := false), Done, [])
    case TryWait => Turn(m.(stored := false), if m.stored then Released else Unset, [])
    case NewWait(f) =>
      if f in m.waits.seats then Turn(m, Refused, []) else Turn(m.(waits := m.waits.Enter(f)), Done, [])
    case PollWait(f, task) => if f in m.waits.seats then PollWait(m, f, task) else Turn(m, Refused, [])
    case DropWait(f) => if f in m.waits.seats then DropWait(m, f) else Turn(m, Refused, [])
  }

  // ---- Runs ----

  function After(m: Model, ops: seq<Op>): Model {
    if ops == [] then m else Act(After(m, ops[..|ops| - 1]), ops[|ops| - 1]).after
  }

  datatype Reply = Reply(answer: Answer, woken: seq<nat>)

  function Replies(m: Model, ops: seq<Op>): (r: seq<Reply>)
    ensures |r| == |ops|
  {
    if ops == [] then []
    else
      var t := Act(After(m, ops[..|ops| - 1]), ops[|ops| - 1]);
      Replies(m, ops[..|ops| - 1]) + [Reply(t.answer, t.woken)]
  }

  /** How many of the operations set the event. */
  function Sets(ops: seq<Op>): nat {
    if ops == [] then 0 else Sets(ops[..|ops| - 1]) + One(ops[|ops| - 1].Set?)
  }

  /** How many waits and tries were released. */
  function Releases(replies: seq<Reply>): nat {
    if replies == [] then 0
    else Releases(replies[..|replies| - 1]) + One(replies[|replies| - 1].answer.Released?)
  }

  /** How many resets found a stored signal to clear. */
  function Cleared(m: Model, ops: seq<Op>): nat {
    if ops == [] then 0
    else
      var before := ops[..|ops| - 1];
      Cleared(m, before) + One(ops[|ops| - 1].Reset? && After(m, before).stored)
  }

  /** A signal set or passed on finds nobody in line and a signal already stored. */
  predicate Merges(m: Model, op: Op) {
    && m.stored
    && match op
       case Set => m.waits.line == []
       case DropWait(f) => f in m.waits.seats && m.waits.seats[f].Chosen? && m.waits.Leave(f).line == []
       case _ => false
  }

  function Merged(m: Model, ops: seq<Op>): nat {
    if ops == [] then 0
    else
      var before := ops[..|ops| - 1];
      Merged(m, before) + One(Merges(After(m, before), ops[|ops| - 1]))
  }

  // ---- What every state keeps ----

  /** A stored signal and a wait in line never meet. */
  ghost predicate Inv(m: Model) {
    m.waits.Wf() && (m.stored ==> m.waits.line == [])
  }

  /** Signals in the event's keeping: stored, or assigned to a selected wait. */
  ghost function Kept(m: Model): nat {
    One(m.stored) + |m.waits.Chosen()|
  }

  lemma SignalKeeps(m: Model)
    requires Inv(m)
    ensures Inv(Signal(m).after)
    ensures Kept(Signal(m).after) == Kept(m) + One(!(m.stored && m.waits.line == []))
  {
    Chooses(m.waits, Notified);
  }

  /** Every signal an operation takes in it stores, assigns, hands out, clears or merges. */
  lemma StepKeeps(m: Model, op: Op)
    requires Inv(m)
    ensures var t := Act(m, op);
            && Inv(t.after)
            && Kept(m) + One(op.Set?)
            == Kept(t.after) + One(t.answer.Released?) + One(op.Reset? && m.stored) + One(Merges(m, op))
  {
    if op.Set? {
      SignalKeeps(m);
    } else if op.NewWait? {
      if op.f !in m.waits.seats {
        Enters(m.waits, op.f);
      }
    } else if op.PollWait? {
      if op.f in m.waits.seats {
        PollKeeps(m, op.f, op.task);
      }
    } else if op.DropWait? {
      if op.f in m.waits.seats {
        Settles(m.waits, op.f);
        if m.waits.seats[op.f].Chosen? {
          SignalKeeps(m.(waits := m.waits.Leave(op.f)));
        }
      }
    }
  }

  lemma PollKeeps(m: Model, f: nat, task: nat)
    requires Inv(m) && f in m.waits.seats
    ensures var t := PollWait(m, f, task);
            Inv(t.after) && Kept(m) == Kept(t.after) + One(t.answer.Released?)
  {
    if m.waits.seats[f].Chosen? {
      Settles(m.waits, f);
    } else if m.waits.seats[f].InLine? {
      Refreshes(m.waits, f, task);
    } else if !m.stored {
      Joins(m.waits, f, task);
    }
  }

  /**
   In every run each signal, the initial one included, has released one wait or try, is stored, is
   assigned to a selected wait, was cleared by a reset, or met a stored signal with nobody in line.
   */
  lemma {:induction false} EverySignal(initial: bool, ops: seq<Op>)
    ensures var m := Init(initial);
            && Inv(After(m, ops))
            && Sets(ops) + One(initial)
            == Releases(Replies(m, ops)) + Kept(After(m, ops)) + Cleared(m, ops) + Merged(m, ops)
  {
    hide Inv, Kept, Act, Merges, Init;
    var m := Init(initial);
    if ops == [] {
      InitKeeps(initial);
    } else {
      var before, op := ops[..|ops| - 1], ops[|ops| - 1];
      EverySignal(initial, before);
      StepKeeps(After(m, before), op);
      assert Replies(m, ops)[..|ops| - 1] == Replies(m, before);
    }
  }

  lemma InitKeeps(initial: bool)
    ensures Inv(Init(initial)) && Kept(Init(initial)) == One(initial)
  {
    assert Init(initial).waits.Chosen() == {};
  }

  // ---- Nobody is forgotten, nobody is overtaken ----

  /** Whoever leaves the line not by their own doing is woken. */
  lemma NobodyForgotten(m: Model, op: Op, f: nat)
    requires Inv(m) && f in m.waits.line
    ensures f in Act(m, op).after.waits.line || op == Op.DropWait(f) || m.waits.TaskOf(f) in Act(m, op).woken
  {
    hide Crowd.Choose, Crowd.Leave, Crowd.Settle, Crowd.TaskOf, Crowd.First;
    if op.DropWait? || op.PollWait? {
      if op.f != f {
        OthersStay(m.waits, op.f, f);
        ChooseWakes(m.waits.Leave(op.f), Notified, f);
      }
    } else {
      ChooseWakes(m.waits, Notified, f);
    }
  }

  /** Only those ahead got a signal. */
  predicate InTurn(op: Op, answer: Answer, ahead: set<nat>) {
    answer.Released? ==> op.PollWait? && op.f in ahead
  }

  lemma StepInTurn(m: Model, op: Op, f: nat)
    requires Inv(m) && f in m.waits.line && f in Act(m, op).after.waits.line
    ensures Act(m, op).after.waits.Ahead(f) <= m.waits.Ahead(f)
    ensures InTurn(op, Act(m, op).answer, m.waits.Ahead(f))
  {
    hide Crowd.Ahead, Crowd.Choose, Crowd.Leave, Crowd.Settle;
    if op.PollWait? {
      if op.f in m.waits.seats {
        PollInTurn(m, op.f, op.task, f);
      }
    } else if op.DropWait? {
      if op.f in m.waits.seats {
        DropInTurn(m, op.f, f);
      }
    } else if op.NewWait? {
      if op.f !in m.waits.seats {
        EnterAhead(m.waits, op.f, f);
      }
    } else if op.Set? {
      ChooseAhead(m.waits, Notified, f);
    }
  }

  lemma PollInTurn(m: Model, g: nat, task: nat, f: nat)
    requires Inv(m) && f in m.waits.line && g in m.waits.seats
    ensures PollWait(m, g, task).after.waits.Ahead(f) <= m.waits.Ahead(f)
    ensures PollWait(m, g, task).answer.Released? ==> g in m.waits.Ahead(f)
  {
    if m.waits.seats[g].Away? {
      JoinBehind(m.waits, g, task, f);
    } else if m.waits.seats[g].InLine? {
      Refreshes(m.waits, g, task);
    } else {
      SettleAhead(m.waits, g, f);
    }
  }

  lemma DropInTurn(m: Model, g: nat, f: nat)
    requires Inv(m) && f in m.waits.line && g in m.waits.seats
    ensures f in DropWait(m, g).after.waits.line ==> DropWait(m, g).after.waits.Ahead(f) <= m.waits.Ahead(f)
  {
    hide Crowd.Ahead, Crowd.Choose;
    Settles(m.waits, g);
    WithoutKeeps(m.waits.line, g);
    if f != g {
      SettleAhead(m.waits, g, f);
      if f in m.waits.Leave(g).Choose(Notified).line {
        ChooseAhead(m.waits.Leave(g), Notified, f);
      }
    }
  }

  /**
   While a wait stays in line, over any number of operations, signals go only to those who were ahead of
   it: no try and no later wait takes one.
   */
  lemma {:induction false} NoOvertaking(m: Model, ops: seq<Op>, f: nat)
    requires Inv(m)
    requires forall k :: 0 <= k <= |ops| ==> f in After(m, ops[..k]).waits.line
    ensures Inv(After(m, ops)) && After(m, ops).waits.Ahead(f) <= m.waits.Ahead(f)
    ensures forall k :: 0 <= k < |ops| ==> InTurn(ops[k], Replies(m, ops)[k].answer, m.waits.Ahead(f))
  {
    hide Inv, Act, InTurn, Crowd.Ahead;
    assert ops[..|ops|] == ops;
    if ops != [] {
      var before, op := ops[..|ops| - 1], ops[|ops| - 1];
      forall k | 0 <= k <= |before|
        ensures f in After(m, before[..k]).waits.line
      {
        assert before[..k] == ops[..k];
      }
      NoOvertaking(m, before, f);
      assert f in After(m, ops[..|before|]).waits.line;
      StepKeeps(After(m, before), op);
      StepInTurn(After(m, before), op, f);
      InTurnMore(op, Act(After(m, before), op).answer, After(m, before).waits.Ahead(f), m.waits.Ahead(f));
    }
  }

  lemma InTurnMore(op: Op, answer: Answer, fewer: set<nat>, more: set<nat>)
    requires InTurn(op, answer, fewer) && fewer <= more
    ensures InTurn(op, answer, more)
  {
  }
}

/** The auto-reset event over its wait list. */
module AutoReset {
  import opened Counts
  import opened Crowds
  import opened Desks
  import opened AutoResetModel

  class Event {
    var isSet: bool
    const waiters: Desk<Notice>

    ghost function Footprint(): set<object>
      reads this, waiters
    {
      {this} + waiters.Footprint()
    }

    ghost predicate Valid()
      reads this, waiters, waiters.Footprint()
    {
      waiters.Valid() && !waiters.closed && this !in waiters.Footprint()
    }

    ghost function Abs(): Model
      reads this, waiters
    {
      Model(isSet, waiters.crowd)
    }

    constructor (isSet: bool)
      ensures Valid() && fresh(Footprint()) && Abs() == Init(isSet)
    {
      hide Desk.Valid;
      this.isSet := isSet;
      waiters := new Desk<Notice>();
    }

    method Signal() returns (woken: seq<nat>)
      requires Valid()
      modifies Footprint()
      ensures Valid() && Footprint() == old(Footprint())
      ensures Turn(Abs(), Done, woken) == AutoResetModel.Signal(old(Abs()))
    {
      hide Desk.Valid;
      woken := waiters.SelectFirst(Notified);
      assert waiters.Valid() && this !in waiters.Footprint();
      if woken == [] {
        isSet := true;
      }
    }

    method Set() returns (woken: seq<nat>)
      requires Valid()
      modifies Footprint()
      ensures Valid() && Footprint() == old(Footprint())
      ensures Turn(Abs(), Done, woken) == Act(old(Abs()), Op.Set)
    {
      hide Desk.Valid;
      woken := Signal();
    }

    /** Clears a stored signal; signals already assigned are out of its reach. */
    method Reset()
      requires Valid()
      modifies this`isSet
      ensures Valid() && Footprint() == old(Footprint())
      ensures Turn(Abs(), Done, []) == Act(old(Abs()), Op.Reset)
    {
      hide Desk.Valid;
      isSet := false;
    }

    method TryWait() returns (ok: bool)
      requires Valid()
      modifies this`isSet
      ensures Valid() && Footprint() == old(Footprint())
      ensures Turn(Abs(), if ok then Released else Unset, []) == Act(old(Abs()), Op.TryWait)
    {
      hide Desk.Valid;
      ok := isSet;
      isSet := false;
    }

    method NewWait(f: nat)
      requires Valid() && f !in waiters.crowd.seats
      modifies Footprint()
      ensures Valid() && Footprint() == old(Footprint())
      ensures Turn(Abs(), Done, []) == Act(old(Abs()), Op.NewWait(f))
    {
      hide Desk.Valid;
      waiters.Enter(f);
    }

    method PollWait(f: nat, task: nat) returns (ready: bool)
      requires Valid() && f in waiters.crowd.seats
      modifies Footprint()
      ensures Valid() && Footprint() == old(Footprint())
      ensures Turn(Abs(), if ready then Released else Pending, []) == Act(old(Abs()), Op.PollWait(f, task))
    {
      hide Desk.Valid;
      var seat := waiters.Seat(f);
      ready := true;
      match seat {
        case Chosen(_) =>
          waiters.Settle(f);
        case InLine(_) =>
          waiters.Refresh(f, task);
          ready := false;
        case Away =>
          if isSet {
            isSet := false;
          } else {
            waiters.Join(f, task);
            ready := false;
          }
      }
    }

    method DropWait(f: nat) returns (woken: seq<nat>)
      requires Valid() && f in waiters.crowd.seats
      modifies Footprint()
      ensures Valid() && Footprint() == old(Footprint())
      ensures Turn(Abs(), Done, woken) == Act(old(Abs()), Op.DropWait(f))
    {
      hide Desk.Valid;
      var seat := waiters.Seat(f);
      waiters.Leave(f);
      woken := [];
      if seat.Chosen? {
        woken := Signal();
      }
    }

    method IsSet() returns (r: bool)
      ensures r == Abs().stored
    {
      r := isSet;
    }

    method Apply(op: Op) returns (r: Reply)
      requires Valid()
      modifies Footprint()
      ensures Valid() && Footprint() == old(Footprint())
      ensures Turn(Abs(), r.answer, r.woken) == Act(old(Abs()), op)
    {
      hide Desk.Valid, AutoResetModel.Signal;
      waiters.Wf();
      var answer, woken: seq<nat> := Done, [];
      match op {
        case Set =>
          woken := Set();
        case Reset =>
          Reset();
        case TryWait =>
          var ok := TryWait();
          answer := if ok then Released else Unset;
        case _ =>
          answer, woken := ApplyWait(op);
      }
      r := Reply(answer, woken);
    }

    method ApplyWait(op: Op) returns (answer: Answer, woken: seq<nat>)
      requires Valid() && (op.NewWait? || op.PollWait? || op.DropWait?)
      modifies Footprint()
      ensures Valid() && Footprint() == old(Footprint())
      ensures Turn(Abs(), answer, woken) == Act(old(Abs()), op)
    {
      hide Desk.Valid, AutoResetModel.Signal;
      waiters.Wf();
      answer, woken := Refused, [];
      if op.f !in waiters.futures {
        if op.NewWait? {
          NewWait(op.f);
          answer := Done;
        }
      } else if op.PollWait? {
        var ready := PollWait(op.f, op.task);
        answer := if ready then Released else Pending;
      } else if op.DropWait? {
        woken := DropWait(op.f);
        answer := Done;
      }
    }
  }

  /**
   Every run of the event answers as the model does and wakes whom it wakes; so no signal is lost: each
   was consumed, is stored or assigned, was cleared, or was merged into one already stored.
   */
  method Play(initial: bool, ops: seq<Op>) returns (replies: seq<Reply>, stored: bool)
    ensures replies == Replies(Init(initial), ops) && stored == After(Init(initial), ops).stored
    ensures var m := Init(initial);
            Sets(ops) + One(initial) == Releases(replies) + One(stored) + |After(m, ops).waits.Chosen()|
                                        + Cleared(m, ops) + Merged(m, ops)
  {
    hide Event.Valid, Event.Abs, Event.Footprint, Act, Init, Sets, Releases, Cleared, Merged, Crowd.Chosen;
    var event := new Event(initial);
    ghost var init := event.Abs();
    replies := [];
    for i := 0 to |ops|
      invariant fresh(event.Footprint()) && event.Valid() && event.Abs() == After(init, ops[..i])
      invariant replies == Replies(init, ops[..i])
    {
      assert ops[..i + 1][..i] == ops[..i];
      var r := event.Apply(ops[i]);
      replies := replies + [r];
    }
    assert ops[..|ops|] == ops;
    stored := event.IsSet();
    EverySignal(initial, ops);
  }
}
