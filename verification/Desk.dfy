/**
 A wait list together with the node ids its futures keep. It is proved, on the linked list, to behave
 like a `Crowd`: futures in line and futures chosen, with no nodes at all.
 */
module Desks {
  import opened Options
  import opened WaitQueues
  import opened WaitLists
  import opened Crowds

  /** A linked node waits; a detached one has been given something its future has yet to act on. */
  datatype Ticket<M> = Waiting(task: nat) | Selected(mark: M)

  function SeatOf<M>(t: Ticket<M>): Seat<M> {
    match t
    case Waiting(task) => Seat.InLine(task)
    case Selected(mark) => Seat.Chosen(mark)
  }

  // ---- The relation ----

  ghost predicate HasFuture(futures: map<nat, Option<nat>>, id: nat) {
    exists f :: f in futures && futures[f] == Some(id)
  }

  /** Linked exactly while waiting; each node belongs to one future, and no node to none. */
  ghost predicate Owned<M>(w: Waiters<Ticket<M>>, futures: map<nat, Option<nat>>) {
    && w.Wf()
    && (forall id :: id in w.nodes ==> (id in w.queue <==> w.nodes[id].Waiting?))
    && (forall f :: f in futures && futures[f].Some? ==> futures[f].value in w.nodes)
    && (forall f, g :: f in futures && g in futures && f != g && futures[f].Some? ==> futures[f] != futures[g])
    && (forall id :: id in w.nodes ==> HasFuture(futures, id))
  }

  function SeatAt<M>(nodes: map<nat, Ticket<M>>, id: Option<nat>): Seat<M> {
    if id.Some? && id.value in nodes then SeatOf(nodes[id.value]) else Away
  }

  /** Each future's seat is what its node says. */
  ghost predicate Seated<M>(nodes: map<nat, Ticket<M>>, futures: map<nat, Option<nat>>, seats: map<nat, Seat<M>>) {
    seats.Keys == futures.Keys && forall f :: f in futures ==> seats[f] == SeatAt(nodes, futures[f])
  }

  /** The line is the queue, future by future. */
  ghost predicate Lined(queue: seq<nat>, futures: map<nat, Option<nat>>, line: seq<nat>) {
    |line| == |queue| && forall i :: 0 <= i < |line| ==> line[i] in futures && futures[line[i]] == Some(queue[i])
  }

  ghost predicate Shows<M>(w: Waiters<Ticket<M>>, futures: map<nat, Option<nat>>, c: Crowd<M>) {
    Owned(w, futures) && Seated(w.nodes, futures, c.seats) && Lined(w.queue, futures, c.line)
  }

  // ---- It is kept by every operation ----

  lemma EmptyShows<M>()
    ensures Shows<M>(Waiters([], map[]), map[], Crowd([], map[]))
  {
  }

  lemma ShowsWf<M>(w: Waiters<Ticket<M>>, futures: map<nat, Option<nat>>, c: Crowd<M>)
    requires Shows(w, futures, c)
    ensures c.Wf()
  {
    forall i, j | 0 <= i < j < |c.line|
      ensures c.line[i] != c.line[j]
    {
      assert futures[c.line[i]] == Some(w.queue[i]) && futures[c.line[j]] == Some(w.queue[j]);
    }
    forall f | f in c.line
      ensures f in c.seats && c.seats[f].InLine?
    {
      var i :| 0 <= i < |c.line| && c.line[i] == f;
      assert futures[c.line[i]] == Some(w.queue[i]) && w.queue[i] in w.queue;
      assert f in c.seats.Keys;
    }
    forall f | f in c.seats && c.seats[f].InLine?
      ensures f in c.line
    {
      assert f in c.seats.Keys;
      var i :| 0 <= i < |w.queue| && w.queue[i] == futures[f].value;
      assert futures[c.line[i]] == Some(w.queue[i]);
    }
  }

  lemma NodeOf<M>(w: Waiters<Ticket<M>>, futures: map<nat, Option<nat>>, c: Crowd<M>, f: nat)
    requires Shows(w, futures, c) && f in futures
    ensures f in c.seats && (c.seats[f].Away? <==> futures[f].None?)
    ensures futures[f].Some? ==> futures[f].value in w.nodes && c.seats[f] == SeatOf(w.nodes[futures[f].value])
    ensures futures[f].Some? ==> (futures[f].value in w.queue <==> w.nodes[futures[f].value].Waiting?)
  {
    assert f in c.seats.Keys;
  }

  lemma EnterShows<M>(w: Waiters<Ticket<M>>, futures: map<nat, Option<nat>>, c: Crowd<M>, f: nat)
    requires Shows(w, futures, c) && f !in futures
    ensures Shows(w, futures[f := None], c.Enter(f))
  {
    forall id | id in w.nodes
      ensures HasFuture(futures[f := None], id)
    {
      var g :| g in futures && futures[g] == Some(id);
      assert futures[f := None][g] == Some(id);
    }
  }

  lemma JoinShows<M>(w: Waiters<Ticket<M>>, futures: map<nat, Option<nat>>, c: Crowd<M>, f: nat, id: nat, task: nat)
    requires Shows(w, futures, c) && f in futures && futures[f].None? && id !in w.nodes
    ensures Shows(w.PushBack(id, Waiting(task)), futures[f := Some(id)], c.Join(f, task))
  {
    OwnsMore(w, futures, f, id, task);
    JoinSeated(w, futures, c.seats, f, id, task);
    assert Lined(w.queue + [id], futures[f := Some(id)], c.line + [f]);
  }

  lemma OwnsMore<M>(w: Waiters<Ticket<M>>, futures: map<nat, Option<nat>>, f: nat, id: nat, task: nat)
    requires Owned(w, futures) && f in futures && futures[f].None? && id !in w.nodes
    ensures Owned(w.PushBack(id, Waiting(task)), futures[f := Some(id)])
  {
    var w', futures' := w.PushBack(id, Waiting(task)), futures[f := Some(id)];
    forall k | k in w'.nodes
      ensures HasFuture(futures', k)
    {
      if k == id {
        assert futures'[f] == Some(id);
      } else {
        var g :| g in futures && futures[g] == Some(k);
        assert futures'[g] == Some(k);
      }
    }
    assert w'.queue[|w.queue|] == id;
    assert forall k :: k in w'.queue <==> k in w.queue || k == id;
  }

  lemma JoinSeated<M>(w: Waiters<Ticket<M>>, futures: map<nat, Option<nat>>, seats: map<nat, Seat<M>>,
                      f: nat, id: nat, task: nat)
    requires Owned(w, futures) && Seated(w.nodes, futures, seats) && f in futures && id !in w.nodes
    ensures Seated(w.nodes[id := Waiting(task)], futures[f := Some(id)], seats[f := Seat.InLine(task)])
  {
  }

  lemma RefreshShows<M>(w: Waiters<Ticket<M>>, futures: map<nat, Option<nat>>, c: Crowd<M>, f: nat, task: nat)
    requires Shows(w, futures, c) && f in futures && futures[f].Some? && futures[f].value in w.queue
    ensures Shows(w.Put(futures[f].value, Waiting(task)), futures, c.Refresh(f, task))
  {
    assert futures[f].value in w.nodes;
  }

  lemma ChooseShows<M>(w: Waiters<Ticket<M>>, futures: map<nat, Option<nat>>, c: Crowd<M>, mark: M)
    requires Shows(w, futures, c) && w.queue != []
    ensures w.queue[0] in w.nodes && w.nodes[w.queue[0]].Waiting? && c.First() == [w.nodes[w.queue[0]].task]
    ensures Shows(Waiters(w.queue[1..], w.nodes[w.queue[0] := Selected(mark)]), futures, c.Choose(mark))
  {
    var id, f := w.queue[0], c.line[0];
    assert id in w.queue && futures[f] == Some(id);
    assert f in c.seats.Keys;
    var w' := Waiters(w.queue[1..], w.nodes[id := Selected(mark)]);
    ChoosesHead(w, futures, mark);
    assert Seated(w'.nodes, futures, c.seats[f := Seat.Chosen(mark)]);
    assert Lined(w'.queue, futures, c.line[1..]);
  }

  lemma ChoosesHead<M>(w: Waiters<Ticket<M>>, futures: map<nat, Option<nat>>, mark: M)
    requires Owned(w, futures) && w.queue != []
    ensures Owned(Waiters(w.queue[1..], w.nodes[w.queue[0] := Selected(mark)]), futures)
  {
    var id := w.queue[0];
    assert id in w.queue;
    assert forall k :: k in w.queue <==> k in w.queue[1..] || k == id;
  }

  /** The future's node goes, linked or not. */
  lemma SettleShows<M>(w: Waiters<Ticket<M>>, futures: map<nat, Option<nat>>, c: Crowd<M>, f: nat)
    requires Shows(w, futures, c) && f in futures && futures[f].Some?
    ensures var w' := Waiters(Without(w.queue, futures[f].value), w.nodes - {futures[f].value});
            Shows(w', futures[f := None], c.Settle(f))
  {
    hide Owned, Seated, Lined, Crowd.Wf;
    var id := futures[f].value;
    ShowsWf(w, futures, c);
    OwnsLess(w, futures, f);
    SettleSeated(w, futures, c.seats, f);
    NodeOf(w, futures, c, f);
    if id in w.queue {
      var i :| 0 <= i < |w.queue| && w.queue[i] == id;
      LineCut(w, futures, c, f, i);
    } else {
      WithoutAbsent(w.queue, id);
      NotInLine(c, f);
      WithoutAbsent(c.line, f);
      LineSame(w.queue, futures, c.line, f);
    }
  }

  lemma NotInLine<M>(c: Crowd<M>, f: nat)
    requires c.Wf() && f in c.seats && !c.seats[f].InLine?
    ensures f !in c.line
  {
  }

  lemma SettleSeated<M>(w: Waiters<Ticket<M>>, futures: map<nat, Option<nat>>, seats: map<nat, Seat<M>>, f: nat)
    requires Owned(w, futures) && Seated(w.nodes, futures, seats) && f in futures && futures[f].Some?
    ensures Seated(w.nodes - {futures[f].value}, futures[f := None], seats[f := Away])
  {
  }

  lemma OwnsLess<M>(w: Waiters<Ticket<M>>, futures: map<nat, Option<nat>>, f: nat)
    requires Owned(w, futures) && f in futures && futures[f].Some?
    ensures Owned(Waiters(Without(w.queue, futures[f].value), w.nodes - {futures[f].value}), futures[f := None])
  {
    var id := futures[f].value;
    WithoutKeeps(w.queue, id);
    forall k | k in w.nodes - {id}
      ensures HasFuture(futures[f := None], k)
    {
      var g :| g in futures && futures[g] == Some(k);
      assert futures[f := None][g] == Some(k);
    }
  }

  lemma LineCut<M>(w: Waiters<Ticket<M>>, futures: map<nat, Option<nat>>, c: Crowd<M>, f: nat, i: nat)
    requires Shows(w, futures, c) && c.Wf() && f in futures && i < |w.queue| && futures[f] == Some(w.queue[i])
    ensures Lined(Without(w.queue, w.queue[i]), futures[f := None], Without(c.line, f))
  {
    assert c.line[i] == f;
    WithoutAt(w.queue, i);
    WithoutAt(c.line, i);
    var queue', line' := w.queue[..i] + w.queue[i + 1..], c.line[..i] + c.line[i + 1..];
    forall k | 0 <= k < |line'|
      ensures line'[k] in futures && line'[k] != f && futures[line'[k]] == Some(queue'[k])
    {
      var k' := if k < i then k else k + 1;
      assert line'[k] == c.line[k'] && queue'[k] == w.queue[k'] && c.line[k'] != c.line[i];
    }
  }

  lemma LineSame(queue: seq<nat>, futures: map<nat, Option<nat>>, line: seq<nat>, f: nat)
    requires Lined(queue, futures, line) && f !in line
    ensures Lined(queue, futures[f := None], line) && Lined(queue, futures - {f}, line)
  {
  }

  lemma LeaveShows<M>(w: Waiters<Ticket<M>>, futures: map<nat, Option<nat>>, c: Crowd<M>, f: nat)
    requires Shows(w, futures, c) && f in futures && futures[f].None?
    ensures Shows(w, futures - {f}, c.Leave(f))
  {
    ShowsWf(w, futures, c);
    NodeOf(w, futures, c, f);
    WithoutAbsent(c.line, f);
    LineSame(w.queue, futures, c.line, f);
    OwnsWithout(w, futures, f);
    assert Seated(w.nodes, futures - {f}, c.seats - {f});
  }

  lemma OwnsWithout<M>(w: Waiters<Ticket<M>>, futures: map<nat, Option<nat>>, f: nat)
    requires Owned(w, futures) && f in futures && futures[f].None?
    ensures Owned(w, futures - {f})
  {
    forall id | id in w.nodes
      ensures HasFuture(futures - {f}, id)
    {
      var g :| g in futures && futures[g] == Some(id);
      assert g in futures - {f};
    }
  }

  lemma AwaySettles<M>(w: Waiters<Ticket<M>>, futures: map<nat, Option<nat>>, c: Crowd<M>, f: nat)
    requires Shows(w, futures, c) && f in futures && futures[f].None?
    ensures c.Settle(f) == c && futures[f := None] == futures
  {
    ShowsWf(w, futures, c);
    NodeOf(w, futures, c, f);
    WithoutAbsent(c.line, f);
  }

  // ---- The desk ----

  /** A desk that has been closed keeps futures whose nodes are gone; they will find out when polled. */
  ghost predicate Closed<M>(w: Waiters<Ticket<M>>, futures: map<nat, Option<nat>>, c: Crowd<M>) {
    && w == Waiters([], map[]) && c.line == [] && c.seats.Keys == futures.Keys
    && (forall f :: f in c.seats ==> c.seats[f].Away?)
  }

  class Desk<M> {
    var list: WaitList<Ticket<M>>
    var futures: map<nat, Option<nat>>
    ghost var crowd: Crowd<M>
    ghost var closed: bool

    ghost function Footprint(): set<object>
      reads this
    {
      {this, list, list.nodes}
    }

    ghost predicate Valid()
      reads Footprint()
    {
      && list.Valid()
      && if closed then Closed(list.Abs(), futures, crowd) else Shows(list.Abs(), futures, crowd)
    }

    constructor ()
      ensures Valid() && !closed && crowd == Crowd([], map[]) && fresh(Footprint())
    {
      hide WaitList.Valid, WaitList.Abs, Shows;
      EmptyShows<M>();
      list := new WaitList<Ticket<M>>();
      futures, crowd, closed := map[], Crowd([], map[]), false;
    }

    lemma Wf()
      requires Valid()
      ensures crowd.Wf() && crowd.seats.Keys == futures.Keys
    {
      if !closed {
        ShowsWf(list.Abs(), futures, crowd);
      }
    }

    /** A new future, not registered yet. */
    method Enter(f: nat)
      requires Valid() && f !in crowd.seats
      modifies this`futures, this`crowd
      ensures Valid() && crowd == old(crowd).Enter(f)
    {
      hide WaitList.Valid, WaitList.Abs, Shows;
      Wf();
      if !closed {
        EnterShows(list.Abs(), futures, crowd, f);
      }
      futures := futures[f := None];
      crowd := crowd.Enter(f);
    }

    /** The node's ticket, as its future would find it. */
    method Seat(f: nat) returns (seat: Seat<M>)
      requires Valid() && !closed && f in crowd.seats
      ensures seat == crowd.seats[f]
    {
      hide WaitList.Valid, WaitList.Abs, Shows;
      Wf();
      NodeOf(list.Abs(), futures, crowd, f);
      if futures[f].None? {
        return Away;
      }
      var ticket := list.Waiter(futures[f].value);
      seat := SeatOf(ticket);
    }

    /** Links a new node at the end of the list. */
    method Join(f: nat, task: nat)
      requires Valid() && !closed && f in crowd.seats && crowd.seats[f].Away?
      modifies Footprint()
      ensures Valid() && !closed && crowd == old(crowd).Join(f, task) && list == old(list)
    {
      hide WaitList.Valid, WaitList.Abs, Shows;
      Wf();
      NodeOf(list.Abs(), futures, crowd, f);
      ghost var was := list.Abs();
      var id := list.PushBack(Waiting(task));
      JoinShows(was, futures, crowd, f, id, task);
      futures := futures[f := Some(id)];
      crowd := crowd.Join(f, task);
    }

    method Refresh(f: nat, task: nat)
      requires Valid() && !closed && f in crowd.seats && crowd.seats[f].InLine?
      modifies Footprint()
      ensures Valid() && !closed && crowd == old(crowd).Refresh(f, task) && list == old(list)
    {
      hide WaitList.Valid, WaitList.Abs, Shows;
      Wf();
      NodeOf(list.Abs(), futures, crowd, f);
      RefreshShows(list.Abs(), futures, crowd, f, task);
      list.PutWaiter(futures[f].value, Waiting(task));
      crowd := crowd.Refresh(f, task);
    }

    /** Detaches the first node in line and writes into it what its future has been given. */
    method SelectFirst(mark: M) returns (woken: seq<nat>)
      requires Valid()
      modifies Footprint()
      ensures Valid() && closed == old(closed) && crowd == old(crowd).Choose(mark) && list == old(list)
      ensures woken == old(crowd).First()
    {
      hide WaitList.Valid, WaitList.Abs, Shows;
      ghost var was := list.Abs();
      if !closed {
        ShowsLine(was, futures, crowd);
      }
      var unlinked := list.UnlinkFirstWaiter(t => (true, t));
      if unlinked.None? {
        return [];
      }
      ChooseShows(was, futures, crowd, mark);
      var (id, ticket) := unlinked.value;
      list.PutWaiter(id, Selected(mark));
      assert list.Abs() == Waiters(was.queue[1..], was.nodes[id := Selected(mark)]);
      crowd := crowd.Choose(mark);
      woken := [ticket.task];
    }

    /** Detaches every node in line, first come first. */
    method SelectAll(mark: M) returns (woken: seq<nat>)
      requires Valid() && !closed
      modifies Footprint()
      ensures Valid() && !closed && crowd == old(crowd).ChooseAll(mark) && list == old(list)
      ensures woken == old(crowd).Tasks()
    {
      hide WaitList.Valid, WaitList.Abs, Shows, Crowd.ChooseAll, Crowd.Choose, Crowd.Tasks, Crowd.First, Crowd.Wf;
      woken := [];
      Wf();
      ChoosesAll(crowd, mark);
      var more := true;
      while more
        invariant Valid() && !closed && list == old(list) && crowd.Wf()
        invariant crowd.ChooseAll(mark) == old(crowd).ChooseAll(mark)
        invariant woken + crowd.Tasks() == old(crowd).Tasks()
        invariant more || crowd.line == []
        decreases |crowd.line|, more
      {
        ChoosesAll(crowd, mark);
        var next := SelectFirst(mark);
        Wf();
        woken := woken + next;
        more := next != [];
      }
      ChoosesAll(crowd, mark);
    }

    /** Unlinks the future's node if it is still linked, and removes it. */
    method Settle(f: nat)
      requires Valid() && !closed && f in crowd.seats
      modifies Footprint()
      ensures Valid() && !closed && crowd == old(crowd).Settle(f) && list == old(list)
      ensures futures == old(futures)[f := None]
    {
      hide WaitList.Valid, WaitList.Abs, Shows, Crowd.Wf, Without;
      Wf();
      NodeOf(list.Abs(), futures, crowd, f);
      if futures[f].Some? {
        SettleShows(list.Abs(), futures, crowd, f);
        Remove(futures[f].value);
      } else {
        AwaySettles(list.Abs(), futures, crowd, f);
      }
      crowd := crowd.Settle(f);
      futures := futures[f := None];
    }

    /** Unlinking is idempotent, so a detached node is removed the same way as a linked one. */
    method Remove(id: nat)
      requires list.Valid() && id in list.Abs().nodes
      modifies list, list.nodes
      ensures list.Valid() && list.Abs() == Waiters(Without(old(list.Abs()).queue, id), old(list.Abs()).nodes - {id})
    {
      hide WaitList.Valid, WaitList.Abs;
      list.AbsWf();
      WithoutKeeps(list.Abs().queue, id);
      var _ := list.UnlinkWaiter(id, t => (true, t));
      var _ := list.RemoveUnlinkedWaiter(id);
      assert list.Abs().nodes == old(list.Abs()).nodes - {id};
    }

    /** The future is dropped. */
    method Leave(f: nat)
      requires Valid() && !closed && f in crowd.seats
      modifies Footprint()
      ensures Valid() && !closed && crowd == old(crowd).Leave(f) && list == old(list)
    {
      hide WaitList.Valid, WaitList.Abs, Shows;
      Wf();
      Settle(f);
      LeaveShows(list.Abs(), futures, crowd, f);
      WithoutKeeps(old(crowd).line, f);
      WithoutAbsent(crowd.line, f);
      futures := futures - {f};
      crowd := crowd.Leave(f);
    }

    /** Joins the line, or joins it again after a notice that came to nothing; in line, keeps its place. */
    method Register(f: nat, task: nat)
      requires Valid() && !closed && f in crowd.seats
      modifies Footprint()
      ensures Valid() && !closed && crowd == old(crowd).Register(f, task) && list == old(list)
    {
      hide WaitList.Valid, WaitList.Abs, Shows;
      var seat := Seat(f);
      if seat.InLine? {
        Refresh(f, task);
      } else {
        Settle(f);
        Join(f, task);
      }
    }

    lemma NobodyChosen(f: nat)
      requires Valid() && closed && f in crowd.seats
      ensures crowd.seats[f].Away?
    {
    }

    /** The list is gone, and the future's node with it. */
    method Forget(f: nat)
      requires Valid() && closed && f in crowd.seats
      modifies this`futures
      ensures Valid() && crowd == old(crowd).Settle(f)
    {
      futures := futures[f := None];
    }

    method Depart(f: nat)
      requires Valid() && closed && f in crowd.seats
      modifies this`futures, this`crowd
      ensures Valid() && crowd == old(crowd).Leave(f)
    {
      futures := futures - {f};
      crowd := crowd.Leave(f);
    }

    /** Takes the whole list away and wakes everyone in it; detached nodes go with it. */
    method Disconnect() returns (woken: seq<nat>)
      requires Valid() && !closed
      modifies Footprint()
      ensures Valid() && closed && crowd == old(crowd).Disperse()
      ensures fresh(list) && fresh(list.nodes)
      ensures woken == old(crowd).Tasks()
    {
      hide WaitList.Valid, WaitList.Abs, Shows, Crowd.Tasks, TasksOf, AllWaiting;
      ShowsTasks(list.Abs(), futures, crowd);
      Wf();
      var dropped := list;
      list := new WaitList<Ticket<M>>();
      crowd, closed := crowd.Disperse(), true;
      woken := WakeAll(dropped);
    }
  }

  /** Everyone linked, first come first. */
  function TasksOf<M>(w: Waiters<Ticket<M>>): seq<nat> {
    seq(|w.queue|, i requires 0 <= i < |w.queue| => var id := w.queue[i];
      if id in w.nodes && w.nodes[id].Waiting? then w.nodes[id].task else 0)
  }

  lemma ShowsLine<M>(w: Waiters<Ticket<M>>, futures: map<nat, Option<nat>>, c: Crowd<M>)
    requires Shows(w, futures, c)
    ensures w.queue == [] <==> c.line == []
  {
  }

  lemma ShowsTasks<M>(w: Waiters<Ticket<M>>, futures: map<nat, Option<nat>>, c: Crowd<M>)
    requires Shows(w, futures, c)
    ensures TasksOf(w) == c.Tasks() && AllWaiting(w)
  {
    forall i | 0 <= i < |c.line|
      ensures TasksOf(w)[i] == c.Tasks()[i]
    {
      assert futures[c.line[i]] == Some(w.queue[i]) && w.queue[i] in w.queue;
      assert c.line[i] in c.seats.Keys;
    }
  }

  ghost predicate AllWaiting<M>(w: Waiters<Ticket<M>>) {
    w.Wf() && forall id :: id in w.queue ==> w.nodes[id].Waiting?
  }

  lemma TasksFall<M>(w: Waiters<Ticket<M>>, ticket: Ticket<M>)
    requires AllWaiting(w) && w.queue != []
    ensures w.queue[0] in w.nodes && w.nodes[w.queue[0]].Waiting?
    ensures var w' := Waiters(w.queue[1..], w.nodes[w.queue[0] := ticket]);
            AllWaiting(w') && TasksOf(w) == [w.nodes[w.queue[0]].task] + TasksOf(w')
  {
    var w' := Waiters(w.queue[1..], w.nodes[w.queue[0] := ticket]);
    assert w.queue[0] in w.queue;
    forall i | 0 <= i < |w'.queue|
      ensures TasksOf(w')[i] == TasksOf(w)[i + 1]
    {
      assert w'.queue[i] == w.queue[i + 1] && w.queue[0] != w.queue[i + 1];
    }
    assert forall id :: id in w'.queue ==> id in w.queue && id != w.queue[0];
  }

  /** Empties a list that has been taken out of use, in order. */
  method WakeAll<M>(list: WaitList<Ticket<M>>) returns (woken: seq<nat>)
    requires list.Valid() && AllWaiting(list.Abs())
    modifies list, list.nodes
    ensures woken == TasksOf(old(list.Abs()))
  {
    hide WaitList.Valid, WaitList.Abs, AllWaiting, TasksOf;
    ghost var all := list.Abs();
    woken := [];
    var empty := list.IsEmpty();
    while !empty
      invariant list.Valid() && AllWaiting(list.Abs()) && (empty <==> list.Abs().queue == [])
      invariant woken + TasksOf(list.Abs()) == TasksOf(all)
      decreases |list.Abs().queue|
    {
      ghost var was := list.Abs();
      var unlinked := list.UnlinkFirstWaiter(t => (true, t));
      var (id, ticket) := unlinked.value;
      TasksFall(was, ticket);
      woken := woken + [ticket.task];
      empty := list.IsEmpty();
    }
    assert TasksOf(list.Abs()) == [] by { NoTasks(list.Abs()); }
  }

  lemma NoTasks<M>(w: Waiters<Ticket<M>>)
    requires w.queue == []
    ensures TasksOf(w) == []
  {
  }
}
