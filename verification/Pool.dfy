/**
 The bounded pool. A checkout owns one semaphore permit for as long as it waits for, checks, creates
 or uses an object; idle objects own none. `replenish_to` reserves permits under one lock-free step,
 decides how much to create under the slot lock, and gives permits back one by one. The two are not
 atomic together, and neither are returning an object and dropping its permit.
 */
module Pools {
  import Semaphores
  import opened SemaphoreGuards
  import opened PoolStates

  datatype Config = Config(max: nat, fifo: bool, detachOnCancel: bool)

  datatype Client<T> =
    | Gone
    // get
    | Waiting
    | Deciding
    | Creating
    | Checking(o: T)
    | Using(o: T)
    // the object has been returned or detached, its permit not yet
    | Leaving
    // replenish_to
    | Reserving(target: nat)
    | Reserved(target: nat)
    | Planned(n: nat)
    | Filling(n: nat)
    | Stored(n: nat)

  /** `made` and `left` are what creation brought in and what detaching took out, over the whole run. */
  datatype Pool<!T> = Pool(
    config: Config, g: Guarded, idle: seq<T>, size: nat, clients: seq<Client<T>>,
    panicked: bool, made: multiset<T>, left: multiset<T>)

  datatype Action<T> =
    | Arrive
    | SemStep(a: Semaphores.Action)
    | Get(c: nat)
    | Acquired(c: nat)
    | CancelWait(c: nat, t: nat)
    | Pop(c: nat)
    | Created(c: nat, o: T)
    // creation fails, or the get is cancelled while it runs
    | CreateStops(c: nat)
    | CheckPasses(c: nat)
    | CheckFails(c: nat)
    | CancelCheck(c: nat)
    | Return(c: nat)
    | Detach(c: nat)
    | DropPermit(c: nat, t: nat)
    | Replenish(c: nat, t: nat, target: nat)
    | DrainStep(c: nat, hint: bool)
    | Plan(c: nat)
    | Trim(c: nat, t: nat)
    | Store(c: nat, o: T)
    | ReleaseOne(c: nat, t: nat)
    // the replenishment finishes, fails or is cancelled, and its reservation is dropped
    | DropReservation(c: nat, t: nat)
    | Retain(verdicts: seq<Verdict>)
    // the predicate of `retain` panics, by which time it may have reordered the idle objects
    | RetainPanics(idle: seq<T>)

  function Init<T>(config: Config): Pool<T> {
    Pool(config, Guarded(Semaphores.Init(config.max), []), [], 0, [], false, multiset{}, multiset{})
  }

  function Min(a: nat, b: nat): nat {
    if a < b then a else b
  }

  function Monus(a: nat, b: nat): nat {
    if a < b then 0 else a - b
  }

  // ---- Operations under the slot lock ----

  function Put<T>(p: Pool<T>, c: nat, client: Client<T>): Pool<T>
    requires c < |p.clients|
  {
    p.(clients := p.clients[c := client])
  }

  function RestoreIdle<T>(p: Pool<T>, o: T): Pool<T> {
    if p.size > p.config.max then p.(panicked := true) else p.(idle := p.idle + [o])
  }

  function DetachObject<T>(p: Pool<T>, o: T): Pool<T> {
    if p.size > p.config.max || p.size == 0 then p.(panicked := true)
    else p.(size := p.size - 1, left := p.left + multiset{o})
  }

  function PopStep<T>(p: Pool<T>, c: nat): Pool<T>
    requires c < |p.clients|
  {
    if p.idle == [] then Put(p, c, Creating)
    else if p.config.fifo then Put(p.(idle := p.idle[1..]), c, Checking(p.idle[0]))
    else Put(p.(idle := p.idle[..|p.idle| - 1]), c, Checking(p.idle[|p.idle| - 1]))
  }

  function AddNew<T>(p: Pool<T>, o: T): Pool<T> {
    p.(size := p.size + 1, made := p.made + multiset{o})
  }

  /** How much a replenishment that holds `held` permits may create. */
  function ToCreate<T>(p: Pool<T>, held: nat, target: nat): nat {
    Min(Min(Monus(target, |p.idle|), held), Monus(p.g.sem.avail + held, |p.idle|))
  }

  function PlanStep<T>(p: Pool<T>, c: nat): Pool<T>
    requires c < |p.clients| && p.clients[c].Reserved? && c < |p.g.sides|
  {
    var held := p.g.sides[c].held;
    if p.g.sem.avail + held > Semaphores.MAX then p.(panicked := true)
    else Put(p, c, Planned(ToCreate(p, held, p.clients[c].target)))
  }

  function RetainStep<T>(p: Pool<T>, verdicts: seq<Verdict>): (r: Pool<T>)
    ensures r.config == p.config
  {
    if |verdicts| != |p.idle| || !Calm(verdicts) then p
    else
      var removed := Discarded(p.idle, verdicts);
      if p.size < |removed| then p.(panicked := true)
      else p.(idle := Kept(p.idle, verdicts), size := p.size - |removed|, left := p.left + multiset(removed))
  }

  // ---- Steps ----

  /** Gives back `n` of the client's permits. */
  function Release<T>(p: Pool<T>, c: nat, t: nat, n: nat, client: Client<T>): Pool<T>
    requires c < |p.clients|
  {
    if c < |p.g.sides| && n > p.g.sides[c].held then p.(panicked := true)
    else if CanRelease(p.g, c, t, n) then Put(p.(g := GiveBack(p.g, c, t, n)), c, client)
    else p
  }

  function GetStep<T>(p: Pool<T>, a: Action<T>): (r: Pool<T>)
    ensures r.config == p.config
  {
    match a
    case Get(c) =>
      if c < |p.clients| && p.clients[c].Gone? && Free(p.g, c)
      then Put(p.(g := Start(p.g, c, 1)), c, Waiting) else p
    case Acquired(c) =>
      if c < |p.clients| && p.clients[c].Waiting? && Ready(p.g, c)
      then Put(p.(g := Claim(p.g, c)), c, Deciding) else p
    case CancelWait(c, t) =>
      if c < |p.clients| && p.clients[c].Waiting? && CanAbandon(p.g, c, t)
      then Put(p.(g := Abandon(p.g, c, t)), c, Gone) else p
    case DropPermit(c, t) =>
      if c < |p.clients| && p.clients[c].Leaving? then Release(p, c, t, 1, Gone) else p
    case _ => p
  }

  function ObjectStep<T>(p: Pool<T>, a: Action<T>): (r: Pool<T>)
    ensures r.config == p.config
  {
    match a
    case Pop(c) =>
      if c < |p.clients| && p.clients[c].Deciding? then PopStep(p, c) else p
    case Created(c, o) =>
      if c < |p.clients| && p.clients[c].Creating? then Put(AddNew(p, o), c, Using(o)) else p
    case CreateStops(c) =>
      if c < |p.clients| && p.clients[c].Creating? then Put(p, c, Leaving) else p
    case CheckPasses(c) =>
      if c < |p.clients| && p.clients[c].Checking? then Put(p, c, Using(p.clients[c].o)) else p
    case CheckFails(c) =>
      if c < |p.clients| && p.clients[c].Checking?
      then Put(DetachObject(p, p.clients[c].o), c, Deciding) else p
    case CancelCheck(c) =>
      if c < |p.clients| && p.clients[c].Checking? then
        if p.config.detachOnCancel then Put(DetachObject(p, p.clients[c].o), c, Leaving)
        else Put(RestoreIdle(p, p.clients[c].o), c, Leaving)
      else p
    case Return(c) =>
      if c < |p.clients| && p.clients[c].Using?
      then Put(RestoreIdle(p, p.clients[c].o), c, Leaving) else p
    case Detach(c) =>
      if c < |p.clients| && p.clients[c].Using?
      then Put(DetachObject(p, p.clients[c].o), c, Leaving) else p
    case _ => p
  }

  function ReservingStep<T>(p: Pool<T>, c: nat, hint: bool): Pool<T>
    requires c < |p.clients| && p.clients[c].Reserving?
  {
    if !Attempts(p.g, c) then p
    else
      var g := Attempt(p.g, c, hint);
      if c >= |g.sides| || !g.sides[c].wait.NoWait? then p.(g := g)
      else Put(p.(g := g), c, if g.sides[c].held == 0 then Gone else Reserved(p.clients[c].target))
  }

  function ReplenishStep<T>(p: Pool<T>, a: Action<T>): (r: Pool<T>)
    ensures r.config == p.config
  {
    match a
    case Replenish(c, t, target) =>
      var target' := Min(target, p.config.max);
      if c < |p.clients| && p.clients[c].Gone? && CanTry(p.g, c, t, target')
      then Put(p.(g := StartDrain(p.g, c, t, target')), c, Reserving(target')) else p
    case DrainStep(c, hint) =>
      if c < |p.clients| && p.clients[c].Reserving? then ReservingStep(p, c, hint) else p
    case Plan(c) =>
      if c < |p.clients| && p.clients[c].Reserved? && c < |p.g.sides| then PlanStep(p, c) else p
    case Trim(c, t) =>
      if c < |p.clients| && p.clients[c].Planned? && c < |p.g.sides| && p.clients[c].n <= p.g.sides[c].held
      then Release(p, c, t, p.g.sides[c].held - p.clients[c].n, Filling(p.clients[c].n)) else p
    case Store(c, o) =>
      if c < |p.clients| && p.clients[c].Filling? && p.clients[c].n > 0
      then Put(AddNew(p, o).(idle := p.idle + [o]), c, Stored(p.clients[c].n - 1)) else p
    case ReleaseOne(c, t) =>
      if c < |p.clients| && p.clients[c].Stored? then Release(p, c, t, 1, Filling(p.clients[c].n)) else p
    case DropReservation(c, t) =>
      if c < |p.clients| && p.clients[c].Filling? then Release(p, c, t, p.clients[c].n, Gone) else p
    case _ => p
  }

  function Step<T>(p: Pool<T>, a: Action<T>): (r: Pool<T>)
    ensures r.config == p.config
  {
    match a
    case Arrive => p.(g := Enter(p.g), clients := p.clients + [Gone])
    case SemStep(b) => p.(g := Quiet(p.g, b))
    case Retain(verdicts) => RetainStep(p, verdicts)
    case RetainPanics(idle) => if multiset(idle) == multiset(p.idle) then p.(idle := idle) else p
    case Get(_) => GetStep(p, a)
    case Acquired(_) => GetStep(p, a)
    case CancelWait(_, _) => GetStep(p, a)
    case DropPermit(_, _) => GetStep(p, a)
    case Replenish(_, _, _) => ReplenishStep(p, a)
    case DrainStep(_, _) => ReplenishStep(p, a)
    case Plan(_) => ReplenishStep(p, a)
    case Trim(_, _) => ReplenishStep(p, a)
    case Store(_, _) => ReplenishStep(p, a)
    case ReleaseOne(_, _) => ReplenishStep(p, a)
    case DropReservation(_, _) => ReplenishStep(p, a)
    case _ => ObjectStep(p, a)
  }

  function Run<T>(p: Pool<T>, actions: seq<Action<T>>): (r: Pool<T>)
    ensures r.config == p.config
    decreases |actions|
  {
    if actions == [] then p else Run(Step(p, actions[0]), actions[1..])
  }
}
