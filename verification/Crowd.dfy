/**
 Futures waiting for their turn, without nodes or links: who is in line, in which order, whom to wake
 for each, and who has been chosen and has yet to act on it.
 */
module Crowds {
  import opened Counts
  import opened Statuses
  import opened WaitQueues

  /** `mark` tells what a chosen future was given. */
  datatype Seat<M> = Away | InLine(task: nat) | Chosen(mark: M)

  /** The mark of futures that are chosen for one thing only. */
  datatype Notice = Notified

  /** Those before `f` in a line. */
  function Prior(line: seq<nat>, f: nat): set<nat> {
    if line == [] || line[0] == f then {} else {line[0]} + Prior(line[1..], f)
  }

  datatype Crowd<M> = Crowd(line: seq<nat>, seats: map<nat, Seat<M>>) {
    /** The line holds exactly the futures whose seat says so. */
    ghost predicate Wf() {
      Distinct(line) && forall f :: f in line <==> f in seats && seats[f].InLine?
    }

    function TaskOf(f: nat): nat {
      if f in seats && seats[f].InLine? then seats[f].task else 0
    }

    /** `f` is in line, and waking it means waking `task`. */
    predicate Waits(f: nat, task: nat) {
      f in line && f in seats && seats[f] == Seat.InLine(task)
    }

    /** Whom choosing the first in line wakes. */
    function First(): seq<nat> {
      if line == [] then [] else [TaskOf(line[0])]
    }

    /** Everyone in line, first come first. */
    function Tasks(): seq<nat> {
      seq(|line|, i requires 0 <= i < |line| => TaskOf(line[i]))
    }

    function Chosen(): set<nat> {
      set f | f in seats && seats[f].Chosen?
    }

    /** Who may come before `f`: those ahead in line, and those already chosen. */
    function Ahead(f: nat): set<nat> {
      Chosen() + Prior(line, f)
    }

    function Enter(f: nat): Crowd<M> {
      this.(seats := seats[f := Away])
    }

    function Join(f: nat, task: nat): Crowd<M> {
      Crowd(line + [f], seats[f := Seat.InLine(task)])
    }

    /** A future polled again keeps its place; only whom to wake changes. */
    function Refresh(f: nat, task: nat): Crowd<M> {
      this.(seats := seats[f := Seat.InLine(task)])
    }

    /** A future that has to wait joins the line, unless it is in line already. */
    function Register(f: nat, task: nat): Crowd<M> {
      if f in seats && seats[f].InLine? then Refresh(f, task) else Settle(f).Join(f, task)
    }

    function Choose(mark: M): Crowd<M> {
      if line == [] then this else Crowd(line[1..], seats[line[0] := Seat.Chosen(mark)])
    }

    /** Everyone in line is chosen. */
    function ChooseAll(mark: M): Crowd<M> {
      Crowd([], map f | f in seats :: if seats[f].InLine? then Seat.Chosen(mark) else seats[f])
    }

    /** A future gives up its place or what it was chosen for. */
    function Settle(f: nat): Crowd<M> {
      Crowd(Without(line, f), seats[f := Away])
    }

    function Leave(f: nat): Crowd<M> {
      Crowd(Without(line, f), seats - {f})
    }

    /** Nobody waits any more. */
    function Disperse(): Crowd<M> {
      Crowd([], map f | f in seats :: Away)
    }
  }

  // ---- What the operations keep ----

  lemma Enters<M>(c: Crowd<M>, f: nat)
    requires c.Wf() && f !in c.seats
    ensures c.Enter(f).Wf() && c.Enter(f).Chosen() == c.Chosen()
  {
  }

  lemma Joins<M>(c: Crowd<M>, f: nat, task: nat)
    requires c.Wf() && f in c.seats && c.seats[f].Away?
    ensures c.Join(f, task).Wf() && c.Join(f, task).Chosen() == c.Chosen()
  {
    var c' := c.Join(f, task);
    assert forall g :: g in c'.line <==> g in c.line || g == f;
  }

  lemma Refreshes<M>(c: Crowd<M>, f: nat, task: nat)
    requires c.Wf() && f in c.seats && c.seats[f].InLine?
    ensures c.Refresh(f, task).Wf() && c.Refresh(f, task).Chosen() == c.Chosen()
  {
  }

  /** Whoever has to wait keeps their place or joins behind everyone, under the task that waits. */
  lemma Registers<M>(c: Crowd<M>, f: nat, task: nat)
    requires c.Wf() && f in c.seats
    ensures c.Register(f, task).Waits(f, task)
    ensures c.Register(f, task).line == if f in c.line then c.line else c.line + [f]
  {
    Settles(c, f);
    if !c.seats[f].InLine? {
      var c' := c.Register(f, task);
      assert c'.line[|c'.line| - 1] == f;
    }
  }

  lemma Chooses<M>(c: Crowd<M>, mark: M)
    requires c.Wf()
    ensures c.Choose(mark).Wf()
    ensures |c.Choose(mark).Chosen()| == |c.Chosen()| + One(c.line != [])
  {
    if c.line != [] {
      var c' := c.Choose(mark);
      assert forall g :: g in c.line <==> g in c'.line || g == c.line[0];
      assert c'.Chosen() == c.Chosen() + {c.line[0]};
    }
  }

  lemma Settles<M>(c: Crowd<M>, f: nat)
    requires c.Wf() && f in c.seats
    ensures c.Settle(f).Wf() && c.Leave(f).Wf()
    ensures |c.Settle(f).Chosen()| + One(c.seats[f].Chosen?) == |c.Chosen()|
    ensures c.Leave(f).Chosen() == c.Settle(f).Chosen()
    ensures !c.seats[f].InLine? ==> c.Settle(f).line == c.line
    ensures c.line == [] ==> c.Settle(f).line == []
  {
    WithoutKeeps(c.line, f);
    if f !in c.line {
      WithoutAbsent(c.line, f);
    }
    assert c.Settle(f).Chosen() == c.Chosen() - {f};
  }

  lemma Disperses<M>(c: Crowd<M>)
    ensures c.Disperse().Wf() && c.Disperse().Chosen() == {}
  {
  }

  lemma ChoosesAll<M>(c: Crowd<M>, mark: M)
    requires c.Wf()
    ensures c.ChooseAll(mark).Wf()
    ensures c.line != [] ==> c.Choose(mark).ChooseAll(mark) == c.ChooseAll(mark)
    ensures c.line != [] ==> c.Tasks() == c.First() + c.Choose(mark).Tasks()
    ensures c.line == [] ==> c.ChooseAll(mark) == c && c.Choose(mark) == c && c.Tasks() == c.First() == []
    ensures c.line != [] ==> |c.First()| == 1 && |c.Choose(mark).line| == |c.line| - 1
  {
    if c.line != [] {
      var c' := c.Choose(mark);
      assert c.line[0] in c.line;
      forall i | 0 <= i < |c'.line|
        ensures c'.Tasks()[i] == c.Tasks()[i + 1]
      {
        assert c'.line[i] == c.line[i + 1] && c.line[i + 1] in c.line && c.line[i + 1] != c.line[0];
      }
    } else {
      assert forall f :: f in c.seats ==> f !in c.line;
    }
  }

  /** Futures come by entering and go by leaving, and in no other way. */
  lemma KeepsSeats<M>(c: Crowd<M>, mark: M)
    requires c.Wf()
    ensures c.Choose(mark).seats.Keys == c.ChooseAll(mark).seats.Keys == c.Disperse().seats.Keys == c.seats.Keys
  {
    assert c.line != [] ==> c.line[0] in c.line;
  }

  lemma MovesSeats<M>(c: Crowd<M>, f: nat, task: nat, mark: M)
    requires c.Wf()
    ensures c.Enter(f).seats.Keys == c.seats.Keys + {f} && c.Leave(f).seats.Keys == c.seats.Keys - {f}
    ensures c.Leave(f).Choose(mark).seats.Keys == c.seats.Keys - {f}
    ensures f in c.seats ==>
              c.Join(f, task).seats.Keys == c.Refresh(f, task).seats.Keys == c.Register(f, task).seats.Keys
              == c.Settle(f).seats.Keys == c.seats.Keys
  {
    LeavesSeat(c, f, mark);
  }

  lemma LeavesSeat<M>(c: Crowd<M>, f: nat, mark: M)
    requires c.Wf()
    ensures c.Leave(f).seats.Keys == c.Leave(f).Choose(mark).seats.Keys == c.seats.Keys - {f}
  {
    WithoutKeeps(c.line, f);
    var line := c.Leave(f).line;
    assert line != [] ==> line[0] in line;
  }

  // ---- Whom they wake ----

  /** Choosing takes only the first in line, and wakes them. */
  lemma ChooseWakes<M>(c: Crowd<M>, mark: M, f: nat)
    requires f in c.line
    ensures f in c.Choose(mark).line || c.First() == [c.TaskOf(f)]
  {
    var i :| 0 <= i < |c.line| && c.line[i] == f;
    assert i > 0 ==> c.line[1..][i - 1] == f;
  }

  lemma DisperseWakes<M>(c: Crowd<M>, f: nat)
    requires f in c.line
    ensures c.TaskOf(f) in c.Tasks()
  {
    var i :| 0 <= i < |c.line| && c.line[i] == f;
    assert c.Tasks()[i] == c.TaskOf(f);
  }

  lemma OthersStay<M>(c: Crowd<M>, g: nat, f: nat)
    requires c.Wf() && f in c.line && f != g
    ensures f in c.Leave(g).line && c.Leave(g).line == c.Settle(g).line && c.Leave(g).TaskOf(f) == c.TaskOf(f)
  {
    WithoutKeeps(c.line, g);
  }

  // ---- What a future knows, and where it is ----

  /** Nobody stands around without a pending poll, and whoever sleeps is in line with their task. */
  ghost predicate Placed<M>(c: Crowd<M>, f: nat, status: Status) {
    match status
    case NotPending => f in c.seats ==> c.seats[f].Away?
    case Asleep(task) => c.Waits(f, task)
    case Awoken(task) => f in c.line ==> c.Waits(f, task)
  }

  /** Others move `f` only by choosing it or sending it away, and then wake it. */
  ghost predicate Spares<M>(c: Crowd<M>, c': Crowd<M>, woken: seq<nat>, f: nat) {
    && (f in c.line ==> if f in c'.line then c'.TaskOf(f) == c.TaskOf(f) else c.TaskOf(f) in woken)
    && (f !in c.line ==> f !in c'.line)
    && ((f in c.seats ==> c.seats[f].Away?) ==> (f in c'.seats ==> c'.seats[f].Away?))
  }

  lemma SparedStays<M>(c: Crowd<M>, c': Crowd<M>, woken: seq<nat>, f: nat, status: Status)
    requires c.Wf() && c'.Wf() && Placed(c, f, status) && Spares(c, c', woken, f)
    ensures Placed(c', f, Heard(status, woken))
  {
  }

  lemma StaysSpares<M>(c: Crowd<M>, woken: seq<nat>, f: nat)
    ensures Spares(c, c, woken, f)
  {
  }

  lemma EnterSpares<M>(c: Crowd<M>, f: nat, woken: seq<nat>)
    requires c.Wf() && f !in c.seats
    ensures Spares(c, c.Enter(f), woken, f)
  {
  }

  lemma ChooseSpares<M>(c: Crowd<M>, mark: M, f: nat)
    requires c.Wf()
    ensures Spares(c, c.Choose(mark), c.First(), f)
  {
    if f in c.line {
      ChooseWakes(c, mark, f);
    } else if c.line != [] {
      assert c.line[0] in c.line;
    }
  }

  lemma AllSpares<M>(c: Crowd<M>, mark: M, f: nat)
    requires c.Wf()
    ensures Spares(c, c.Disperse(), c.Tasks(), f) && Spares(c, c.ChooseAll(mark), c.Tasks(), f)
  {
    if f in c.line {
      DisperseWakes(c, f);
    }
  }

  /** What another future does about itself. */
  lemma OthersSpare<M>(c: Crowd<M>, g: nat, task: nat, woken: seq<nat>, f: nat)
    requires c.Wf() && f != g
    ensures Spares(c, c.Enter(g), woken, f) && Spares(c, c.Join(g, task), woken, f)
    ensures Spares(c, c.Refresh(g, task), woken, f) && Spares(c, c.Register(g, task), woken, f)
    ensures Spares(c, c.Settle(g), woken, f) && Spares(c, c.Leave(g), woken, f)
  {
    hide Spares, Crowd.Register;
    ComingSpares(c, g, task, woken, f);
    GoingSpares(c, g, woken, f);
    if !(g in c.seats && c.seats[g].InLine?) {
      GoneComes(c, g, task, woken, f);
    }
    RegisterIs(c, g, task);
  }

  lemma RegisterIs<M>(c: Crowd<M>, g: nat, task: nat)
    ensures c.Register(g, task) ==
            if g in c.seats && c.seats[g].InLine? then c.Refresh(g, task) else c.Settle(g).Join(g, task)
  {
  }

  lemma ComingSpares<M>(c: Crowd<M>, g: nat, task: nat, woken: seq<nat>, f: nat)
    requires f != g
    ensures Spares(c, c.Enter(g), woken, f) && Spares(c, c.Join(g, task), woken, f)
    ensures Spares(c, c.Refresh(g, task), woken, f)
  {
  }

  lemma GoingSpares<M>(c: Crowd<M>, g: nat, woken: seq<nat>, f: nat)
    requires c.Wf() && f != g
    ensures Spares(c, c.Settle(g), woken, f) && Spares(c, c.Leave(g), woken, f)
  {
    WithoutKeeps(c.line, g);
  }

  lemma GoneComes<M>(c: Crowd<M>, g: nat, task: nat, woken: seq<nat>, f: nat)
    requires c.Wf() && f != g
    ensures Spares(c, c.Settle(g).Join(g, task), woken, f)
  {
    WithoutKeeps(c.line, g);
  }

  lemma LeaveSpares<M>(c: Crowd<M>, g: nat, mark: M, f: nat)
    requires c.Wf() && g in c.seats && f != g
    ensures Spares(c, c.Leave(g).Choose(mark), c.Leave(g).First(), f)
  {
    Settles(c, g);
    OthersSpare(c, g, 0, [], f);
    ChooseSpares(c.Leave(g), mark, f);
  }

  // ---- Nobody is woken for nothing ----

  /** Somebody who stood in line with this task does not any more. */
  ghost predicate LeftLine<M>(c: Crowd<M>, c': Crowd<M>, task: nat) {
    exists f :: f in c.line && f !in c'.line && c.TaskOf(f) == task
  }

  ghost predicate WakesLeavers<M>(c: Crowd<M>, c': Crowd<M>, woken: seq<nat>) {
    forall i :: 0 <= i < |woken| ==> LeftLine(c, c', woken[i])
  }

  lemma ChooseWakesLeaver<M>(c: Crowd<M>, mark: M)
    requires c.Wf()
    ensures WakesLeavers(c, c.Choose(mark), c.First())
  {
    if c.line != [] {
      assert c.line[0] in c.line && c.line[0] !in c.line[1..];
    }
  }

  lemma AllWakesLeavers<M>(c: Crowd<M>, mark: M)
    ensures WakesLeavers(c, c.Disperse(), c.Tasks()) && WakesLeavers(c, c.ChooseAll(mark), c.Tasks())
  {
    forall i | 0 <= i < |c.Tasks()|
      ensures LeftLine(c, c.Disperse(), c.Tasks()[i]) && LeftLine(c, c.ChooseAll(mark), c.Tasks()[i])
    {
      assert c.line[i] in c.line && c.TaskOf(c.line[i]) == c.Tasks()[i];
    }
  }

  lemma LeaveWakesLeaver<M>(c: Crowd<M>, g: nat, mark: M)
    requires c.Wf() && g in c.seats
    ensures WakesLeavers(c, c.Leave(g).Choose(mark), c.Leave(g).First())
  {
    Settles(c, g);
    WithoutKeeps(c.line, g);
    var rest := c.Leave(g);
    if rest.line != [] {
      var f := rest.line[0];
      assert f in rest.line && f !in rest.line[1..] && f in c.line && c.TaskOf(f) == rest.TaskOf(f);
    }
  }

  // ---- Nobody gets ahead of a future that stays in line ----

  lemma {:induction false} PriorJoin(line: seq<nat>, g: nat, f: nat)
    requires f in line
    ensures Prior(line + [g], f) == Prior(line, f)
  {
    assert (line + [g])[1..] == line[1..] + [g];
    if line[0] != f {
      PriorJoin(line[1..], g, f);
    }
  }

  lemma {:induction false} PriorWithout(line: seq<nat>, g: nat, f: nat)
    requires g != f
    ensures Prior(Without(line, g), f) <= Prior(line, f)
  {
    if line != [] && line[0] != f && line[0] != g {
      PriorWithout(line[1..], g, f);
      assert Without(line, g)[1..] == Without(line[1..], g);
    }
  }

  lemma EnterAhead<M>(c: Crowd<M>, g: nat, f: nat)
    requires c.Wf() && g !in c.seats
    ensures c.Enter(g).Ahead(f) == c.Ahead(f)
  {
    Enters(c, g);
  }

  lemma JoinBehind<M>(c: Crowd<M>, g: nat, task: nat, f: nat)
    requires c.Wf() && f in c.line && g in c.seats && c.seats[g].Away?
    ensures c.Join(g, task).Ahead(f) == c.Ahead(f)
  {
    Joins(c, g, task);
    PriorJoin(c.line, g, f);
  }

  lemma ChooseAhead<M>(c: Crowd<M>, mark: M, f: nat)
    requires c.Wf() && f in c.Choose(mark).line
    ensures c.Choose(mark).Ahead(f) == c.Ahead(f)
  {
    if c.line != [] {
      assert f != c.line[0];
      assert c.Choose(mark).Chosen() == c.Chosen() + {c.line[0]};
    }
  }

  lemma SettleAhead<M>(c: Crowd<M>, g: nat, f: nat)
    requires c.Wf() && f != g
    ensures c.Settle(g).Ahead(f) <= c.Ahead(f) && c.Leave(g).Ahead(f) <= c.Ahead(f)
  {
    PriorWithout(c.line, g, f);
  }
}
