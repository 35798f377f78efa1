/** What every step of the semaphore keeps: queue shape, lock discipline and permit conservation. */
module SemaphoreSafety {
  import opened Options
  import opened Semaphores

  // ---- Sums ----

  /** Permits a future has: assigned to its node so far, or all of them once it has completed. */
  function Got(a: Acquire): nat {
    match a.phase
    case Waiting(needed) => if needed <= a.requested then a.requested - needed else 0
    case Done => a.requested
    case _ => 0
  }

  function Assigned(futs: seq<Acquire>): nat {
    if futs == [] then 0 else Assigned(futs[..|futs| - 1]) + Got(futs[|futs| - 1])
  }

  function Owed(queue: seq<Entry>): nat {
    if queue == [] then 0 else (if queue[0].Debt? then queue[0].owed else 0) + Owed(queue[1..])
  }

  /** Permits a thread is carrying between two atomic steps. */
  function Carried(pc: Pc): nat {
    match pc
    case Push(who, taken, _) => if who.Some? then taken else 0
    case Release(n) => n
    case FastRelease(n, _) => n
    case LockRelease(n) => n
    case Surplus(n) => n
    case SurplusAdd(n) => n
    case SurplusCas(n, _) => n
    case _ => 0
  }

  function InFlight(threads: seq<Pc>): nat {
    if threads == [] then 0 else InFlight(threads[..|threads| - 1]) + Carried(threads[|threads| - 1])
  }

  lemma {:induction false} AssignedUpdate(futs: seq<Acquire>, f: nat, a: Acquire)
    requires f < |futs|
    ensures Assigned(futs[f := a]) == Assigned(futs) - Got(futs[f]) + Got(a)
  {
    var n := |futs| - 1;
    if f == n {
      assert futs[f := a][..n] == futs[..n];
    } else {
      AssignedUpdate(futs[..n], f, a);
      assert futs[f := a][..n] == futs[..n][f := a];
    }
  }

  lemma {:induction false} InFlightUpdate(threads: seq<Pc>, t: nat, pc: Pc)
    requires t < |threads|
    ensures InFlight(threads[t := pc]) == InFlight(threads) - Carried(threads[t]) + Carried(pc)
  {
    var n := |threads| - 1;
    if t == n {
      assert threads[t := pc][..n] == threads[..n];
    } else {
      InFlightUpdate(threads[..n], t, pc);
      assert threads[t := pc][..n] == threads[..n][t := pc];
    }
  }

  lemma {:induction false} OwedAppend(queue: seq<Entry>, e: Entry)
    ensures Owed(queue + [e]) == Owed(queue) + if e.Debt? then e.owed else 0
  {
    if queue == [] {
      assert queue + [e] == [e];
    } else {
      OwedAppend(queue[1..], e);
      assert (queue + [e])[1..] == queue[1..] + [e];
    }
  }

  // ---- The shape of the queue ----

  ghost predicate FutOk(a: Acquire) {
    a.requested <= MAX && (a.phase.Waiting? ==> a.phase.needed <= a.requested)
  }

  ghost predicate EntryOk(e: Entry, futs: seq<Acquire>) {
    match e
    case Debt(owed) => owed > 0
    case Waiter(f) => f < |futs| && futs[f].phase.Waiting? && futs[f].phase.needed > 0
  }

  ghost predicate Untouched(e: Entry, futs: seq<Acquire>) {
    e.Waiter? ==> e.f < |futs| && futs[e.f].phase == Waiting(futs[e.f].requested)
  }

  /**
   Debts come before acquires; every linked node still needs a permit; only the first acquire may be
   partly filled; and the linked acquires are exactly the futures that still need permits.
   */
  ghost predicate QueueOk(queue: seq<Entry>, futs: seq<Acquire>) {
    && (forall f :: 0 <= f < |futs| ==> FutOk(futs[f]))
    && (forall i :: 0 <= i < |queue| ==> EntryOk(queue[i], futs))
    && (forall i, j :: 0 <= i < j < |queue| ==> (queue[j].Debt? ==> queue[i].Debt?))
    && (forall i, j :: 0 <= i < j < |queue| && queue[i].Waiter? ==> queue[i] != queue[j])
    && (forall i, j :: 0 <= i < j < |queue| && queue[i].Waiter? ==> Untouched(queue[j], futs))
    && (forall f :: 0 <= f < |futs| && futs[f].phase.Waiting? && futs[f].phase.needed > 0 ==>
          Waiter(f) in queue)
  }

  // ---- Threads ----

  predicate HoldsLock(pc: Pc) {
    (pc.Take? && pc.locked) || pc.Push? || pc.Surplus? || pc.SurplusAdd? || pc.SurplusCas?
  }

  predicate Polls(pc: Pc, f: nat) {
    (pc.Take? || pc.Push?) && pc.who == Some(f)
  }

  predicate Polled(a: Acquire, n: nat) {
    a.requested == n && a.phase.Polling?
  }

  ghost predicate PcOk(s: State, pc: Pc) {
    match pc
    case TryAcquire(n, _) => n <= MAX
    case Drain(n, _) => n <= MAX
    case Take(who, n, _, _) =>
      n <= MAX && (who.Some? ==> who.value < |s.futs| && Polled(s.futs[who.value], n))
    case Push(who, taken, needed) =>
      && needed > 0 && taken + needed <= MAX
      && s.avail == 0
      && (who.Some? ==> who.value < |s.futs| && Polled(s.futs[who.value], taken + needed))
      && (who.Some? && taken > 0 ==> s.queue == [])
    case Release(n) => n <= MAX
    case FastRelease(n, expected) => 0 < n <= MAX && 0 < expected <= MAX
    case LockRelease(n) => 0 < n <= MAX
    case Surplus(n) => 0 < n <= MAX && s.queue == []
    case SurplusAdd(n) => 0 < n <= MAX && s.queue == [] && s.avail == 0
    case SurplusCas(n, expected) => 0 < n <= MAX && s.queue == [] && expected <= MAX
    case _ => true
  }

  ghost predicate ThreadsOk(s: State) {
    && (forall t :: 0 <= t < |s.threads| ==> PcOk(s, s.threads[t]))
    && (forall t :: 0 <= t < |s.threads| ==> (HoldsLock(s.threads[t]) <==> s.lock == Some(t)))
    && (s.lock.Some? ==> s.lock.value < |s.threads|)
    && (forall t, u, f :: 0 <= t < u < |s.threads| && Polls(s.threads[t], f) ==> !Polls(s.threads[u], f))
  }

  /** No permit is lost and none is made up. */
  ghost predicate Conserved(s: State, initial: nat) {
    s.avail + Assigned(s.futs) + InFlight(s.threads) + s.forfeited + s.drawn + s.kept + s.reduced
    == initial + s.released + Owed(s.queue)
  }

  ghost predicate Inv(s: State, initial: nat) {
    && s.avail <= MAX
    && (s.avail > 0 ==> s.queue == [])
    && QueueOk(s.queue, s.futs)
    && ThreadsOk(s)
    && Conserved(s, initial)
  }

  // ---- Distribution ----

  /** A pass changes nothing about a future but how much it still needs, and only downwards. */
  ghost predicate OnlyServed(a: Acquire, a': Acquire) {
    && a'.requested == a.requested
    && (a' != a ==> a.phase.Waiting? && a'.phase.Waiting? && a'.phase.needed < a.phase.needed)
  }

  /** What serving the queue with `left` permits may do, in one step or in many. */
  ghost predicate PassOk(queue: seq<Entry>, futs: seq<Acquire>, left: nat, p: Pass) {
    && p.left <= left
    && |p.futs| == |futs|
    && (queue == [] ==> p.queue == [])
    && (forall f :: 0 <= f < |futs| ==> OnlyServed(futs[f], p.futs[f]))
    && Assigned(p.futs) + p.left + Owed(queue) == Assigned(futs) + left + Owed(p.queue)
  }

  lemma PassCompose(queue: seq<Entry>, futs: seq<Acquire>, left: nat, p: Pass, p': Pass)
    requires PassOk(queue, futs, left, p) && PassOk(p.queue, p.futs, p.left, p')
    ensures PassOk(queue, futs, left, p')
  {
  }

  lemma {:induction false} DistributeShape(queue: seq<Entry>, futs: seq<Acquire>, left: nat, woken: nat)
    requires QueueOk(queue, futs)
    ensures var p := Distribute(queue, futs, left, woken);
            QueueOk(p.queue, p.futs) && PassOk(queue, futs, left, p)
    decreases |queue|
  {
    if left == 0 || woken >= BATCH || queue == [] {
    } else if Need(queue[0], futs) > left {
      hide QueueOk, PassOk;
      ServePart(queue, futs, left);
    } else {
      hide QueueOk, PassOk;
      ServeWhole(queue, futs, left);
      var p := WholeServed(queue, futs, left);
      var woken' := if queue[0].Waiter? then woken + 1 else woken;
      DistributeShape(p.queue, p.futs, p.left, woken');
      PassCompose(queue, futs, left, p, Distribute(p.queue, p.futs, p.left, woken'));
    }
  }

  function WholeServed(queue: seq<Entry>, futs: seq<Acquire>, left: nat): Pass
    requires queue != [] && Need(queue[0], futs) <= left
  {
    Pass(queue[1..], Give(queue[0], futs, Need(queue[0], futs)), left - Need(queue[0], futs))
  }

  function PartServed(queue: seq<Entry>, futs: seq<Acquire>, left: nat): Pass
    requires queue != [] && left < Need(queue[0], futs)
  {
    Pass([if queue[0].Debt? then Debt(Need(queue[0], futs) - left) else queue[0]] + queue[1..],
         Give(queue[0], futs, left), 0)
  }

  lemma ServeWhole(queue: seq<Entry>, futs: seq<Acquire>, left: nat)
    requires QueueOk(queue, futs) && queue != [] && Need(queue[0], futs) <= left
    ensures var p := WholeServed(queue, futs, left);
            QueueOk(p.queue, p.futs) && PassOk(queue, futs, left, p) && p.left < left
  {
    assert EntryOk(queue[0], futs);
    if queue[0].Waiter? {
      var f := queue[0].f;
      assert FutOk(futs[f]);
      AssignedUpdate(futs, f, Fill(futs[f], futs[f].phase.needed));
      DequeueWaiter(queue, futs);
    } else {
      DequeueDebt(queue, futs);
    }
  }

  lemma DequeueDebt(queue: seq<Entry>, futs: seq<Acquire>)
    requires QueueOk(queue, futs) && queue != [] && queue[0].Debt?
    ensures QueueOk(queue[1..], futs)
  {
  }

  lemma DequeueWaiter(queue: seq<Entry>, futs: seq<Acquire>)
    requires QueueOk(queue, futs) && queue != [] && queue[0].Waiter?
    ensures queue[0].f < |futs|
    ensures futs[queue[0].f].phase.Waiting?
    ensures QueueOk(queue[1..], futs[queue[0].f := Fill(futs[queue[0].f], futs[queue[0].f].phase.needed)])
  {
  }

  lemma ServePart(queue: seq<Entry>, futs: seq<Acquire>, left: nat)
    requires QueueOk(queue, futs) && queue != [] && 0 < left < Need(queue[0], futs)
    ensures var p := PartServed(queue, futs, left);
            QueueOk(p.queue, p.futs) && PassOk(queue, futs, left, p)
  {
    hide QueueOk, Assigned, Owed;
    var p := PartServed(queue, futs, left);
    if queue[0].Debt? {
      ServePartOfDebt(queue, futs, left);
      assert p.futs == futs;
    } else {
      assert p == Pass(queue, Give(queue[0], futs, left), 0);
      hide PartServed, Give, Need;
      ServePartOfWaiter(queue, futs, left);
    }
  }

  lemma ServePartOfDebt(queue: seq<Entry>, futs: seq<Acquire>, left: nat)
    requires QueueOk(queue, futs) && queue != [] && queue[0].Debt? && 0 < left < queue[0].owed
    ensures var queue' := [Debt(queue[0].owed - left)] + queue[1..];
            QueueOk(queue', futs) && Owed(queue') + left == Owed(queue)
  {
  }

  lemma ServePartOfWaiter(queue: seq<Entry>, futs: seq<Acquire>, left: nat)
    requires QueueOk(queue, futs) && queue != [] && 0 < left < Need(queue[0], futs) && queue[0].Waiter?
    ensures var futs' := Give(queue[0], futs, left);
            && QueueOk(queue, futs')
            && |futs'| == |futs|
            && (forall f :: 0 <= f < |futs| ==> OnlyServed(futs[f], futs'[f]))
            && Assigned(futs') == Assigned(futs) + left
  {
    var head := queue[0];
    assert EntryOk(head, futs);
    var futs' := Give(head, futs, left);
    AssignedUpdate(futs, head.f, futs'[head.f]);
    forall f | 0 <= f < |futs'|
      ensures FutOk(futs'[f])
    {
      assert FutOk(futs[f]);
    }
    forall i | 0 <= i < |queue|
      ensures EntryOk(queue[i], futs')
    {
      assert EntryOk(queue[i], futs);
    }
    forall i, j | 0 <= i < j < |queue| && queue[i].Waiter?
      ensures Untouched(queue[j], futs')
    {
      assert Untouched(queue[j], futs) && queue[0] != queue[j];
    }
  }
}
