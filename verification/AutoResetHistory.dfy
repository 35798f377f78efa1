/** The auto-reset event's laws in terms of what callers saw. */
module AutoResetHistory {
  import opened Counts
  import opened WaitQueues
  import opened Crowds
  import opened Statuses
  import opened AutoResetModel

  /** The waits that exist: begun and not dropped. */
  function Waits(ops: seq<Op>, replies: seq<Reply>): set<nat>
    requires |replies| == |ops|
  {
    if ops == [] then {}
    else
      var n := |ops| - 1;
      var before := Waits(ops[..n], replies[..n]);
      if !replies[n].answer.Done? then before
      else if ops[n].NewWait? then before + {ops[n].f}
      else if ops[n].DropWait? then before - {ops[n].f} else before
  }

  lemma StepWaits(m: Model, op: Op)
    requires Inv(m)
    ensures var t := Act(m, op);
            t.after.waits.seats.Keys ==
            if !t.answer.Done? then m.waits.seats.Keys
            else if op.NewWait? then m.waits.seats.Keys + {op.f}
            else if op.DropWait? then m.waits.seats.Keys - {op.f} else m.waits.seats.Keys
  {
    hide Crowd.Choose, Crowd.Leave, Crowd.Settle, Crowd.Enter, Crowd.First, Crowd.Join, Crowd.Refresh;
    KeepsSeats(m.waits, Notified);
    if op.NewWait? || op.PollWait? || op.DropWait? {
      MovesSeats(m.waits, op.f, if op.PollWait? then op.task else 0, Notified);
    }
  }

  /** In every run: the event's waits are those its callers began and still hold. */
  lemma {:induction false} HeldByCallers(initial: bool, ops: seq<Op>)
    ensures After(Init(initial), ops).waits.seats.Keys == Waits(ops, Replies(Init(initial), ops))
  {
    if ops != [] {
      hide Inv, Act;
      var m, before := Init(initial), ops[..|ops| - 1];
      HeldByCallers(initial, before);
      assert Replies(m, ops)[..|ops| - 1] == Replies(m, before);
      EverySignal(initial, before);
      StepWaits(After(m, before), ops[|ops| - 1]);
    }
  }

  /** An operation is refused only for a wait that is not there, or one that is there already. */
  lemma OnlyWithoutRefused(initial: bool, ops: seq<Op>, op: Op)
    ensures var m, replies := After(Init(initial), ops), Replies(Init(initial), ops);
            Act(m, op).answer.Refused? <==>
            || (op.NewWait? && op.f in Waits(ops, replies))
            || ((op.PollWait? || op.DropWait?) && op.f !in Waits(ops, replies))
  {
    HeldByCallers(initial, ops);
    hide After, Replies, Waits;
    var m := After(Init(initial), ops);
    assert forall f :: f in m.waits.seats <==> f in m.waits.seats.Keys;
  }

  /**
   After any run: a try, and a wait that is new, are released exactly if a signal is left over - one that
   has released nobody, was not cleared, met no stored one and is assigned to no selected wait; a wait in
   line is not, and a selected one is.
   */
  lemma NextAnswers(initial: bool, ops: seq<Op>, f: nat, task: nat)
    ensures var m := After(Init(initial), ops);
            var used := Releases(Replies(Init(initial), ops)) + Cleared(Init(initial), ops)
                        + Merged(Init(initial), ops);
            var left := Sets(ops) + One(initial) > used + |m.waits.Chosen()|;
            && (Act(m, Op.TryWait).answer == if left then Released else Unset)
            && (f in m.waits.seats ==>
                  Act(m, Op.PollWait(f, task)).answer ==
                  if f in m.waits.Chosen() || (f !in m.waits.line && left) then Released else Pending)
  {
    EverySignal(initial, ops);
    hide After, Replies, Sets, Releases, Cleared, Merged, Init;
    var m := After(Init(initial), ops);
    assert f in m.waits.Chosen() <==> f in m.waits.seats && m.waits.seats[f].Chosen?;
  }

  // ---- Nobody sleeps through their turn ----

  /** What the owner of a wait knows of it. */
  function WaitStatus(ops: seq<Op>, replies: seq<Reply>, f: nat): Status
    requires |replies| == |ops|
  {
    if ops == [] then NotPending
    else
      var n := |ops| - 1;
      if ops[n].PollWait? && ops[n].f == f then Polled(replies[n].answer.Pending?, ops[n].task)
      else if ops[n] == Op.DropWait(f) then NotPending
      else Heard(WaitStatus(ops[..n], replies[..n], f), replies[n].woken)
  }

  /** A poll that answers `Pending` leaves its wait in line, where it was or behind everyone, with its task. */
  lemma PendingIsInLine(m: Model, f: nat, task: nat)
    requires Inv(m)
    ensures var t := Act(m, Op.PollWait(f, task));
            t.answer.Pending? ==>
              && t.after.waits.Waits(f, task)
              && t.after.waits.line == if f in m.waits.line then m.waits.line else m.waits.line + [f]
  {
    if f in m.waits.seats {
      var joined := m.waits.Join(f, task);
      assert joined.line[|joined.line| - 1] == f;
    }
  }

  /** A poll that is released, and a drop, leave nothing behind. */
  lemma DoneLeavesNothing(m: Model, op: Op)
    requires Inv(m) && (op.PollWait? || op.DropWait?)
    ensures (op.PollWait? && Act(m, op).answer.Pending?) || Placed(Act(m, op).after.waits, op.f, NotPending)
  {
    WithoutKeeps(m.waits.line, op.f);
  }

  lemma OthersSpareWait(m: Model, op: Op, f: nat)
    requires Inv(m) && !((op.PollWait? || op.DropWait?) && op.f == f)
    ensures Spares(m.waits, Act(m, op).after.waits, Act(m, op).woken, f)
  {
    hide Crowd.Choose, Crowd.Leave, Crowd.Settle, Crowd.Enter, Crowd.First, Crowd.Join, Crowd.Refresh;
    hide Spares;
    StaysSpares(m.waits, Act(m, op).woken, f);
    if op.NewWait? || op.PollWait? || op.DropWait? {
      if op.f == f {
        if f !in m.waits.seats {
          EnterSpares(m.waits, f, []);
        }
      } else {
        OthersSpare(m.waits, op.f, if op.PollWait? then op.task else 0, Act(m, op).woken, f);
        if op.DropWait? && op.f in m.waits.seats {
          LeaveSpares(m.waits, op.f, Notified, f);
        }
      }
    } else {
      ChooseSpares(m.waits, Notified, f);
    }
  }

  lemma StepPlaces(m: Model, op: Op, f: nat, status: Status)
    requires Inv(m) && Placed(m.waits, f, status)
    ensures var t := Act(m, op);
            Placed(t.after.waits, f,
                   if op.PollWait? && op.f == f then Polled(t.answer.Pending?, op.task)
                   else if op == Op.DropWait(f) then NotPending else Heard(status, t.woken))
  {
    hide Act, Spares, Crowd.Wf;
    var t := Act(m, op);
    StepKeeps(m, op);
    if (op.PollWait? || op.DropWait?) && op.f == f {
      DoneLeavesNothing(m, op);
      if op.PollWait? {
        PendingIsInLine(m, f, op.task);
      }
    } else {
      OthersSpareWait(m, op, f);
      SparedStays(m.waits, t.after.waits, t.woken, f, status);
    }
  }

  /**
   In every run, for every wait: if its latest poll answered `Pending` and that poll's task has not been
   woken since, it is in line, to be woken through that task. Whoever has no pending poll - none made,
   released, or dropped - stands in nobody's way.
   */
  lemma {:induction false} PendingIsPlaced(initial: bool, ops: seq<Op>, f: nat)
    ensures var m, replies := After(Init(initial), ops), Replies(Init(initial), ops);
            Placed(m.waits, f, WaitStatus(ops, replies, f))
  {
    if ops != [] {
      hide Inv, Act, Placed;
      var m, before := Init(initial), ops[..|ops| - 1];
      PendingIsPlaced(initial, before, f);
      assert Replies(m, ops)[..|ops| - 1] == Replies(m, before);
      EverySignal(initial, before);
      StepPlaces(After(m, before), ops[|ops| - 1], f, WaitStatus(before, Replies(m, before), f));
    }
  }

  /** Whoever is woken has left the line they stood in: nobody is woken for nothing. */
  lemma WokenHaveLeft(m: Model, op: Op)
    requires Inv(m)
    ensures WakesLeavers(m.waits, Act(m, op).after.waits, Act(m, op).woken)
  {
    hide Crowd.Choose, Crowd.Leave, Crowd.Settle, Crowd.Enter, Crowd.First, Crowd.Join, Crowd.Refresh, LeftLine;
    ChooseWakesLeaver(m.waits, Notified);
    if op.DropWait? && op.f in m.waits.seats {
      LeaveWakesLeaver(m.waits, op.f, Notified);
    }
  }
}
