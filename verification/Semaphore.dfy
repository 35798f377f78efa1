/**
 The batch semaphore as interleaved atomic steps: one step per load, compare-exchange or fetch-add on
 `available_permits`, and one step per critical section of the queue lock. Every future and every
 thread is an explicit record, so a run is any sequence of actions.
 */
module Semaphores {
  import opened Options

  /** `usize::MAX` on a 64-bit target. */
  const MAX: nat := 0xFFFF_FFFF_FFFF_FFFF
  /** Wakers collected before the distributing thread drops the queue lock. */
  const BATCH: nat := 32

  /** A linked node: permit debt owned by the queue, or the node of an acquire future. */
  datatype Entry = Debt(owed: nat) | Waiter(f: nat)

  /**
   The life of an acquire future. `Waiting` owns a live node, linked exactly while `needed > 0`;
   `Polling` is the first poll, during which the future is exclusively borrowed.
   */
  datatype Phase = Fresh | Polling | Waiting(needed: nat) | Done | Dropped

  /**
   The task that polled a future last, the waker kept in its node, and whose waker has been taken out of
   the node to be woken since that poll.
   */
  datatype Watch = Watch(polled: nat, waker: Option<nat>, woken: Option<nat>)

  datatype Acquire = Acquire(requested: nat, phase: Phase, watch: Watch)

  const NO_WATCH: Watch := Watch(0, None, None)

  /** Where a thread is inside an operation; `seen` is the count its next exchange expects. */
  datatype Pc =
    | Idle
    | TryAcquire(n: nat, seen: Option<nat>)
    | Drain(n: nat, seen: Option<nat>)
    // acquired_or_enqueue, for a future or (None) for reduce_permits
    | Take(who: Option<nat>, n: nat, seen: Option<nat>, locked: bool)
    | Push(who: Option<nat>, taken: nat, needed: nat)
    // release and distribute_permits
    | Release(n: nat)
    | FastRelease(n: nat, expected: nat)
    | LockRelease(n: nat)
    | Surplus(n: nat)
    | SurplusAdd(n: nat)
    | SurplusCas(n: nat, expected: nat)
    | Panicked

  /**
   The shared state, followed by a ledger of what callers have put in and taken out: permits given
   back through `release`, permits drawn directly by `try_acquire` and `drain_permits`, permits
   removed by `reduce_permits`, permits taken over by callers from completed acquire futures, and
   permits that died with a thread that panicked on overflow.
   */
  datatype State = State(
    avail: nat,
    queue: seq<Entry>,
    futs: seq<Acquire>,
    lock: Option<nat>,
    threads: seq<Pc>,
    released: nat,
    drawn: nat,
    kept: nat,
    reduced: nat,
    forfeited: nat)

  function Init(permits: nat): State {
    State(permits, [], [], None, [], 0, 0, 0, 0, 0)
  }

  datatype Action =
    | Spawn
    | NewAcquire(n: nat)
    | BeginTryAcquire(t: nat, n: nat)
    | BeginDrain(t: nat, n: nat)
    | BeginReduce(t: nat, n: nat)
    | BeginRelease(t: nat, n: nat)
    | BeginPoll(t: nat, f: nat, task: nat)
    | PollQueued(f: nat, task: nat)
    | Cancel(t: nat, f: nat)
    // the caller drops a completed future and keeps its permits
    | Keep(f: nat)
    // `hint` stands for the contention flag and for a spurious failure of a weak exchange
    | Advance(t: nat, hint: bool)

  // ---- The critical section of distribute_permits ----

  datatype Pass = Pass(queue: seq<Entry>, futs: seq<Acquire>, left: nat)

  function Need(e: Entry, futs: seq<Acquire>): nat {
    match e
    case Debt(owed) => owed
    case Waiter(f) => if f < |futs| && futs[f].phase.Waiting? then futs[f].phase.needed else 0
  }

  function Give(e: Entry, futs: seq<Acquire>, amount: nat): seq<Acquire>
    requires amount <= Need(e, futs)
  {
    if e.Waiter? && e.f < |futs| && futs[e.f].phase.Waiting?
    then futs[e.f := Fill(futs[e.f], amount)]
    else futs
  }

  /** A node that needs nothing more is detached, and its waker is taken. */
  function Fill(a: Acquire, amount: nat): Acquire
    requires a.phase.Waiting? && amount <= a.phase.needed
  {
    var watch := if amount == a.phase.needed then a.watch.(waker := None, woken := a.watch.waker) else a.watch;
    Acquire(a.requested, Waiting(a.phase.needed - amount), watch)
  }

  /** Serves the head until permits, the waker batch or the queue runs out. */
  function Distribute(queue: seq<Entry>, futs: seq<Acquire>, left: nat, woken: nat): Pass
    decreases |queue|
  {
    if left == 0 || woken >= BATCH || queue == [] then Pass(queue, futs, left)
    else
      var head := queue[0];
      var need := Need(head, futs);
      if need <= left then
        Distribute(queue[1..], Give(head, futs, need), left - need, if head.Waiter? then woken + 1 else woken)
      else
        Pass([if head.Debt? then Debt(need - left) else head] + queue[1..], Give(head, futs, left), 0)
  }

  // ---- One atomic step ----

  function SetPc(s: State, t: nat, pc: Pc): State
    requires t < |s.threads|
  {
    s.(threads := s.threads[t := pc])
  }

  function SetPhase(s: State, f: nat, phase: Phase): State
    requires f < |s.futs|
  {
    s.(futs := s.futs[f := s.futs[f].(phase := phase)])
  }

  function SetWatch(s: State, f: nat, watch: Watch): State
    requires f < |s.futs|
  {
    s.(futs := s.futs[f := s.futs[f].(watch := watch)])
  }

  /** The waker of the task that polls is the one to be woken from now on. */
  function Armed(task: nat): Watch {
    Watch(task, Some(task), None)
  }

  /** The rest of a critical section in which thread `t` has `n` permits to hand on. */
  function Distributing(s: State, t: nat, n: nat): State
    requires t < |s.threads|
  {
    var p := Distribute(s.queue, s.futs, n, 0);
    var s' := s.(queue := p.queue, futs := p.futs);
    if p.left == 0 then SetPc(s', t, Idle)
    else if p.queue == [] then SetPc(s', t, Surplus(p.left)).(lock := Some(t))
    else SetPc(s', t, LockRelease(p.left))
  }

  function Completed(s: State, who: Option<nat>, n: nat): State {
    if who.Some? && who.value < |s.futs| then SetPhase(s, who.value, Done)
    else s.(reduced := s.reduced + n)
  }

  function TakeStep(s: State, t: nat): State
    requires t < |s.threads| && s.threads[t].Take?
  {
    var pc := s.threads[t];
    if pc.seen.None? then SetPc(s, t, pc.(seen := Some(s.avail)))
    else if pc.seen.value < pc.n && !pc.locked then
      if s.lock.None? then SetPc(s, t, pc.(locked := true)).(lock := Some(t)) else s
    else if s.avail != pc.seen.value then SetPc(s, t, pc.(seen := Some(s.avail)))
    else if pc.seen.value >= pc.n then
      var s' := Completed(s.(avail := s.avail - pc.n), pc.who, pc.n);
      SetPc(s', t, Idle).(lock := if pc.locked then None else s.lock)
    else
      var s' := SetPc(s, t, Push(pc.who, pc.seen.value, pc.n - pc.seen.value)).(avail := 0);
      if pc.who.Some? then s' else s'.(reduced := s.reduced + pc.seen.value)
  }

  function PushStep(s: State, t: nat): State
    requires t < |s.threads| && s.threads[t].Push?
  {
    var pc := s.threads[t];
    var s' := SetPc(s, t, Idle).(lock := None);
    if pc.who.Some? && pc.who.value < |s.futs| then
      var f := pc.who.value;
      SetWatch(SetPhase(s', f, Waiting(pc.needed)).(queue := s.queue + [Waiter(f)]), f,
               Armed(s.futs[f].watch.polled))
    else
      s'.(queue := [Debt(pc.needed)] + s.queue, reduced := s.reduced + pc.needed)
  }

  function ReleaseStep(s: State, t: nat, hint: bool): State
    requires t < |s.threads|
  {
    match s.threads[t]
    case Release(n) =>
      if n == 0 then SetPc(s, t, Idle)
      else if s.avail != 0 && !hint then SetPc(s, t, FastRelease(n, s.avail))
      else SetPc(s, t, LockRelease(n))
    case FastRelease(n, expected) =>
      if expected + n > MAX then SetPc(s, t, Panicked).(forfeited := s.forfeited + n)
      else if s.avail == expected then SetPc(s, t, Idle).(avail := expected + n)
      else SetPc(s, t, LockRelease(n))
    case LockRelease(n) =>
      if s.lock.None? then Distributing(s, t, n) else s
    case Surplus(n) =>
      SetPc(s, t, if s.avail == 0 then SurplusAdd(n) else SurplusCas(n, s.avail))
    case SurplusAdd(n) =>
      // fetch_add wraps
      SetPc(s, t, Idle).(avail := (s.avail + n) % (MAX + 1), lock := None)
    case SurplusCas(n, expected) =>
      if expected + n > MAX then SetPc(s, t, Panicked).(forfeited := s.forfeited + n, lock := None)
      else if s.avail == expected then SetPc(s, t, Idle).(avail := expected + n, lock := None)
      else SetPc(s, t, SurplusCas(n, s.avail))
    case _ => s
  }

  function Min(a: nat, b: nat): nat {
    if a < b then a else b
  }

  function DirectStep(s: State, t: nat, hint: bool): State
    requires t < |s.threads|
  {
    match s.threads[t]
    case TryAcquire(n, seen) =>
      if seen.None? then SetPc(s, t, TryAcquire(n, Some(s.avail)))
      else if seen.value < n then SetPc(s, t, Idle)
      else if s.avail == seen.value then SetPc(s, t, Idle).(avail := s.avail - n, drawn := s.drawn + n)
      else SetPc(s, t, TryAcquire(n, Some(s.avail)))
    case Drain(n, seen) =>
      if n == 0 then SetPc(s, t, Idle)
      else if seen.None? then SetPc(s, t, Drain(n, Some(s.avail)))
      else if s.avail == seen.value && !hint then
        SetPc(s, t, Idle).(avail := s.avail - Min(n, s.avail), drawn := s.drawn + Min(n, s.avail))
      else SetPc(s, t, Drain(n, Some(s.avail)))
    case _ => s
  }

  function AdvanceStep(s: State, t: nat, hint: bool): State
    requires t < |s.threads|
  {
    match s.threads[t]
    case Take(_, _, _, _) => TakeStep(s, t)
    case Push(_, _, _) => PushStep(s, t)
    case TryAcquire(_, _) => DirectStep(s, t, hint)
    case Drain(_, _) => DirectStep(s, t, hint)
    case _ => ReleaseStep(s, t, hint)
  }

  function RemoveWaiter(queue: seq<Entry>, f: nat): seq<Entry> {
    if queue == [] then []
    else if queue[0] == Waiter(f) then queue[1..]
    else [queue[0]] + RemoveWaiter(queue[1..], f)
  }

  /** Dropping a registered future: its node goes, and what it had been assigned is handed on. */
  function CancelStep(s: State, t: nat, f: nat): State
    requires t < |s.threads| && f < |s.futs| && s.futs[f].phase.Waiting?
  {
    var got := if s.futs[f].requested >= s.futs[f].phase.needed
               then s.futs[f].requested - s.futs[f].phase.needed else 0;
    var s' := SetPhase(s, f, Dropped).(queue := RemoveWaiter(s.queue, f));
    if got == 0 then s' else Distributing(s', t, got)
  }

  /** An action that is not enabled leaves the state as it is. */
  function Step(s: State, a: Action): State {
    match a
    case Spawn => s.(threads := s.threads + [Idle])
    case NewAcquire(n) =>
      if n <= MAX then s.(futs := s.futs + [Acquire(n, Fresh, NO_WATCH)]) else s
    case BeginTryAcquire(t, n) =>
      if t < |s.threads| && s.threads[t].Idle? && n <= MAX then SetPc(s, t, TryAcquire(n, None)) else s
    case BeginDrain(t, n) =>
      if t < |s.threads| && s.threads[t].Idle? && n <= MAX then SetPc(s, t, Drain(n, None)) else s
    case BeginReduce(t, n) =>
      if t < |s.threads| && s.threads[t].Idle? && n <= MAX then SetPc(s, t, Take(None, n, None, false)) else s
    case BeginRelease(t, n) =>
      if t < |s.threads| && s.threads[t].Idle? && n <= MAX
      then SetPc(s, t, Release(n)).(released := s.released + n) else s
    case BeginPoll(t, f, task) =>
      if t < |s.threads| && s.threads[t].Idle? && f < |s.futs| && s.futs[f].phase.Fresh?
      then SetWatch(SetPc(SetPhase(s, f, Polling), t, Take(Some(f), s.futs[f].requested, None, false)), f,
                    Watch(task, None, None))
      else s
    case PollQueued(f, task) =>
      if !s.lock.None? || f >= |s.futs| || !s.futs[f].phase.Waiting? then s
      else if s.futs[f].phase.needed == 0 then SetPhase(s, f, Done)
      else SetWatch(s, f, Armed(task))
    case Cancel(t, f) =>
      if f < |s.futs| && s.futs[f].phase.Fresh? then SetPhase(s, f, Dropped)
      else if t < |s.threads| && s.threads[t].Idle? && s.lock.None?
           && f < |s.futs| && s.futs[f].phase.Waiting?
      then CancelStep(s, t, f) else s
    case Keep(f) =>
      if f < |s.futs| && s.futs[f].phase.Done?
      then SetPhase(s, f, Dropped).(kept := s.kept + s.futs[f].requested) else s
    case Advance(t, hint) =>
      if t < |s.threads| then AdvanceStep(s, t, hint) else s
  }

  function Run(s: State, actions: seq<Action>): State
    decreases |actions|
  {
    if actions == [] then s else Run(Step(s, actions[0]), actions[1..])
  }

  /** Thread `t` goes on undisturbed for `k` steps. */
  function Alone(s: State, t: nat, k: nat): State {
    if k == 0 then s else Step(Alone(s, t, k - 1), Advance(t, false))
  }
}
