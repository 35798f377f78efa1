/** The pool never tracks or commits to more than its maximum, and loses no object. */
module PoolSafety {
  import Semaphores
  import opened SemaphoreGuards
  import opened PoolStates
  import opened Pools

  /** Objects a client has taken, is creating, or has been allowed to create. */
  function Share<T>(client: Client<T>): nat {
    match client
    case Creating => 1
    case Checking(_) => 1
    case Using(_) => 1
    case Planned(n) => n
    case Filling(n) => n
    case Stored(n) => n
    case _ => 0
  }

  function Objects<T>(client: Client<T>): multiset<T> {
    match client
    case Checking(o) => multiset{o}
    case Using(o) => multiset{o}
    case _ => multiset{}
  }

  function Committed<T>(clients: seq<Client<T>>): nat {
    if clients == [] then 0 else Committed(clients[..|clients| - 1]) + Share(clients[|clients| - 1])
  }

  function Owned<T>(clients: seq<Client<T>>): multiset<T> {
    if clients == [] then multiset{} else Owned(clients[..|clients| - 1]) + Objects(clients[|clients| - 1])
  }

  lemma {:induction false} CommittedUpdate<T>(clients: seq<Client<T>>, c: nat, x: Client<T>)
    requires c < |clients|
    ensures Committed(clients[c := x]) == Committed(clients) - Share(clients[c]) + Share(x)
  {
    var n := |clients| - 1;
    if c == n {
      assert clients[c := x][..n] == clients[..n];
    } else {
      CommittedUpdate(clients[..n], c, x);
      assert clients[c := x][..n] == clients[..n][c := x];
    }
  }

  lemma {:induction false} OwnedUpdate<T>(clients: seq<Client<T>>, c: nat, x: Client<T>)
    requires c < |clients|
    ensures Owned(clients[c := x]) + Objects(clients[c]) == Owned(clients) + Objects(x)
  {
    hide Objects;
    var n := |clients| - 1;
    if c == n {
      assert clients[c := x][..n] == clients[..n];
    } else {
      OwnedUpdate(clients[..n], c, x);
      assert clients[c := x][..n] == clients[..n][c := x];
      AddLast(Owned(clients[..n][c := x]), Owned(clients[..n]), Objects(clients[c]), Objects(x), Objects(clients[n]));
    }
  }

  lemma AddLast<T>(a: multiset<T>, b: multiset<T>, was: multiset<T>, now: multiset<T>, last: multiset<T>)
    requires a + was == b + now
    ensures (a + last) + was == (b + last) + now
  {
    forall x
      ensures ((a + last) + was)[x] == ((b + last) + now)[x]
    {
      assert (a + was)[x] == (b + now)[x];
    }
  }

  predicate Fits<T>(client: Client<T>, side: Side) {
    match client
    case Gone => side == Side(0, NoWait)
    case Waiting => side.held == 0 && side.wait.Future? && side.wait.n == 1
    case Reserving(target) => side.held == 0 && side.wait.Draining? && side.wait.n == target
    case Reserved(_) => side.wait.NoWait?
    case Planned(n) => side.wait.NoWait? && side.held >= n
    case Filling(n) => side == Side(n, NoWait)
    case Stored(n) => side == Side(n + 1, NoWait)
    case _ => side == Side(1, NoWait)
  }

  lemma {:induction false} CommittedAreHeld<T>(clients: seq<Client<T>>, sides: seq<Side>)
    requires |clients| == |sides|
    requires forall c :: 0 <= c < |clients| ==> Share(clients[c]) <= sides[c].held
    ensures Committed(clients) <= Held(sides)
  {
    if clients != [] {
      CommittedAreHeld(clients[..|clients| - 1], sides[..|sides| - 1]);
    }
  }

  lemma {:induction false} OwnedAreCommitted<T>(clients: seq<Client<T>>)
    ensures |Owned(clients)| <= Committed(clients)
  {
    if clients != [] {
      OwnedAreCommitted(clients[..|clients| - 1]);
    }
  }

  ghost predicate AllFit<T>(clients: seq<Client<T>>, sides: seq<Side>) {
    |sides| == |clients| && (forall c :: 0 <= c < |clients| ==> Fits(clients[c], sides[c]))
  }

  /** Idle objects, objects in use and objects still to be created fit into the maximum together. */
  ghost predicate Bounded<T>(p: Pool<T>) {
    |p.idle| + Committed(p.clients) <= p.config.max
  }

  /** Every object made is idle, with one client, or detached; the size counts the first two. */
  ghost predicate Tracked<T>(p: Pool<T>) {
    && p.size == |p.idle| + |Owned(p.clients)|
    && p.made == p.left + multiset(p.idle) + Owned(p.clients)
  }

  ghost predicate Inv<T>(p: Pool<T>) {
    && 0 < p.config.max <= Semaphores.MAX
    && Ok(p.g, p.config.max)
    && AllFit(p.clients, p.g.sides)
    && Bounded(p)
    && Tracked(p)
    && !p.panicked
  }

  lemma SizeBounded<T>(p: Pool<T>)
    requires Bounded(p) && Tracked(p)
    ensures p.size <= p.config.max
  {
    OwnedAreCommitted(p.clients);
  }

  // ---- Semaphore-only steps ----

  /** A client's dealings with the semaphore that change neither its objects nor its share. */
  lemma PermitMoves<T>(p: Pool<T>, c: nat, g: Guarded, x: Client<T>)
    requires Inv(p) && c < |p.clients| && Ok(g, p.config.max)
    requires |g.sides| == |p.clients| && g.sides == p.g.sides[c := g.sides[c]]
    requires Fits(x, g.sides[c])
    requires Share(x) <= Share(p.clients[c]) && Objects(x) == Objects(p.clients[c])
    ensures Inv(Put(p.(g := g), c, x))
  {
    hide Ok, Fits, Share, Objects;
    CommittedUpdate(p.clients, c, x);
    OwnedUpdate(p.clients, c, x);
    Cancel(Owned(p.clients[c := x]), Owned(p.clients), Objects(x));
  }

  lemma ReleaseKeeps<T>(p: Pool<T>, c: nat, t: nat, n: nat, x: Client<T>)
    requires Inv(p) && c < |p.clients| && n <= p.g.sides[c].held
    requires Fits(x, Side(p.g.sides[c].held - n, p.g.sides[c].wait))
    requires Share(x) <= Share(p.clients[c]) && Objects(x) == Objects(p.clients[c])
    ensures Inv(Release(p, c, t, n, x))
  {
    hide Ok, Fits, Share, Objects, Semaphores.Step;
    if CanRelease(p.g, c, t, n) {
      GiveBackKeeps(p.g, p.config.max, c, t, n);
      PermitMoves(p, c, GiveBack(p.g, c, t, n), x);
    }
  }

  lemma GetKeeps<T>(p: Pool<T>, a: Action<T>)
    requires Inv(p)
    ensures Inv(GetStep(p, a))
  {
    hide Ok, Semaphores.Step, Bounded, Tracked, Release;
    if (a.Get? || a.Acquired? || a.CancelWait? || a.DropPermit?) && a.c < |p.clients| {
      assert Fits(p.clients[a.c], p.g.sides[a.c]);
      match a
      case Get(c) =>
        if p.clients[c].Gone? && Free(p.g, c) {
          StartKeeps(p.g, p.config.max, c, 1);
          PermitMoves(p, c, Start(p.g, c, 1), Waiting);
        }
      case Acquired(c) =>
        if p.clients[c].Waiting? && Ready(p.g, c) {
          ClaimKeeps(p.g, p.config.max, c);
          PermitMoves(p, c, Claim(p.g, c), Deciding);
        }
      case CancelWait(c, t) =>
        if p.clients[c].Waiting? && CanAbandon(p.g, c, t) {
          AbandonKeeps(p.g, p.config.max, c, t);
          PermitMoves(p, c, Abandon(p.g, c, t), Gone);
        }
      case DropPermit(c, t) =>
        if p.clients[c].Leaving? {
          ReleaseKeeps(p, c, t, 1, Gone);
        }
    }
  }

  // ---- Object steps ----

  /** The sum of all parts follows the parts that change. */
  lemma Balance<T>(made: multiset<T>, left: multiset<T>, idle: multiset<T>, own: multiset<T>,
                   idle': multiset<T>, own': multiset<T>, was: multiset<T>, now: multiset<T>, d: Delta<T>)
    requires made == left + idle + own
    requires own' + was == own + now && idle' + d.popped == idle + d.pushed
    requires d.made + d.popped + was == d.left + d.pushed + now
    ensures made + d.made == (left + d.left) + idle' + own'
  {
    forall x
      ensures (made + d.made)[x] == ((left + d.left) + idle' + own')[x]
    {
      assert made[x] == (left + idle + own)[x];
      assert (own' + was)[x] == (own + now)[x];
      assert (idle' + d.popped)[x] == (idle + d.pushed)[x];
      assert (d.made + d.popped + was)[x] == (d.left + d.pushed + now)[x];
    }
  }

  /** What one step creates, detaches, takes from the idle queue and puts there. */
  datatype Delta<T> = Delta(made: multiset<T>, left: multiset<T>, popped: multiset<T>, pushed: multiset<T>)

  /** One object changing places leaves the sums as they are. */
  lemma OneObject<T>(o: T)
    ensures var none: multiset<T> := multiset{};
            var one := multiset{o};
            none + none + one == none + one + none == one + none + none
  {
  }

  /** A client's dealings with objects; its permits stay as they are. */
  lemma ObjectMoves<T>(p: Pool<T>, p': Pool<T>, c: nat, d: Delta<T>)
    requires Inv(p) && c < |p.clients| && p'.config == p.config && p'.g == p.g && !p'.panicked
    requires |p'.clients| == |p.clients| && p'.clients == p.clients[c := p'.clients[c]]
    requires Fits(p'.clients[c], p.g.sides[c]) && Bounded(p')
    requires p'.made == p.made + d.made && p'.left == p.left + d.left
    requires multiset(p'.idle) + d.popped == multiset(p.idle) + d.pushed
    requires d.made + d.popped + Objects(p.clients[c]) == d.left + d.pushed + Objects(p'.clients[c])
    requires p'.size + |d.left| == p.size + |d.made|
    ensures Inv(p')
  {
    hide Ok, Fits, Bounded, Objects;
    OwnedUpdate(p.clients, c, p'.clients[c]);
    Balance(p.made, p.left, multiset(p.idle), Owned(p.clients), multiset(p'.idle), Owned(p'.clients),
            Objects(p.clients[c]), Objects(p'.clients[c]), d);
    assert |p.made + d.made| == |(p.left + d.left) + multiset(p'.idle) + Owned(p'.clients)|;
    assert |p.made| == |p.left + multiset(p.idle) + Owned(p.clients)|;
  }

  /** An object moves between the idle queue, a client and the outside without changing the total. */
  lemma StaysBounded<T>(p: Pool<T>, p': Pool<T>, c: nat)
    requires Bounded(p) && c < |p.clients| && p'.config == p.config
    requires |p'.clients| == |p.clients| && p'.clients == p.clients[c := p'.clients[c]]
    requires |p'.idle| + Share(p'.clients[c]) <= |p.idle| + Share(p.clients[c])
    ensures Bounded(p')
  {
    CommittedUpdate(p.clients, c, p'.clients[c]);
  }

  lemma FitsShare<T>(clients: seq<Client<T>>, sides: seq<Side>)
    requires AllFit(clients, sides)
    ensures Committed(clients) <= Held(sides)
  {
  }

  /** With nothing idle, a new creation is covered by its own permit. */
  lemma PopNoneKeeps<T>(p: Pool<T>, c: nat)
    requires Inv(p) && c < |p.clients| && p.clients[c].Deciding? && p.idle == []
    ensures Inv(PopStep(p, c))
  {
    hide Ok, Tracked;
    var p' := PopStep(p, c);
    assert AllFit(p'.clients, p.g.sides);
    FitsShare(p'.clients, p.g.sides);
    Accounts(p.g, p.config.max);
    ObjectMoves(p, p', c, Delta(multiset{}, multiset{}, multiset{}, multiset{}));
  }

  lemma PopSomeKeeps<T>(p: Pool<T>, c: nat)
    requires Inv(p) && c < |p.clients| && p.clients[c].Deciding? && p.idle != []
    ensures Inv(PopStep(p, c))
  {
    hide Inv;
    WithoutAnEnd(p.idle);
    if p.config.fifo {
      TakesIdle(p, c, p.idle[1..], p.idle[0]);
    } else {
      TakesIdle(p, c, p.idle[..|p.idle| - 1], p.idle[|p.idle| - 1]);
    }
  }

  lemma TakesIdle<T>(p: Pool<T>, c: nat, idle: seq<T>, o: T)
    requires Inv(p) && c < |p.clients| && p.clients[c].Deciding? && |idle| + 1 == |p.idle|
    requires multiset(idle) + multiset{o} == multiset(p.idle) + multiset{}
    ensures Inv(Put(p.(idle := idle), c, Checking(o)))
  {
    FitsHere(p, c);
    hide Inv, Bounded, Tracked;
    var p' := Put(p.(idle := idle), c, Checking(o));
    StaysBounded(p, p', c);
    OneObject(o);
    ObjectMoves(p, p', c, Delta(multiset{}, multiset{}, multiset{o}, multiset{}));
  }

  lemma FitsHere<T>(p: Pool<T>, c: nat)
    requires Inv(p) && c < |p.clients|
    ensures Bounded(p) && Tracked(p) && !p.panicked && c < |p.g.sides| && Fits(p.clients[c], p.g.sides[c])
  {
  }

  lemma WithoutAnEnd<T>(s: seq<T>)
    requires s != []
    ensures multiset(s[1..]) + multiset{s[0]} == multiset(s) + multiset{}
    ensures multiset(s[..|s| - 1]) + multiset{s[|s| - 1]} == multiset(s) + multiset{}
  {
    assert s == [s[0]] + s[1..] == s[..|s| - 1] + [s[|s| - 1]];
  }

  /** Neither assertion fires when an object is detached. */
  lemma DetachKeeps<T>(p: Pool<T>, c: nat, x: Client<T>)
    requires Inv(p) && c < |p.clients| && (p.clients[c].Checking? || p.clients[c].Using?)
    requires x.Deciding? || x.Leaving?
    ensures Inv(Put(DetachObject(p, p.clients[c].o), c, x))
  {
    hide Inv;
    OwnerCounts(p, c);
    LosesObject(p, c, p.clients[c].o, x);
  }

  lemma OwnerCounts<T>(p: Pool<T>, c: nat)
    requires Inv(p) && c < |p.clients| && (p.clients[c].Checking? || p.clients[c].Using?)
    ensures 0 < p.size <= p.config.max
  {
    hide Ok, AllFit;
    OwnedHere(p.clients, c);
    SizeBounded(p);
  }

  lemma LosesObject<T>(p: Pool<T>, c: nat, o: T, x: Client<T>)
    requires Inv(p) && c < |p.clients| && p.size > 0 && (x.Deciding? || x.Leaving?)
    requires p.clients[c] == Checking(o) || p.clients[c] == Using(o)
    ensures Inv(Put(p.(size := p.size - 1, left := p.left + multiset{o}), c, x))
  {
    hide Inv, Bounded, Tracked;
    FitsHere(p, c);
    var p' := Put(p.(size := p.size - 1, left := p.left + multiset{o}), c, x);
    StaysBounded(p, p', c);
    OneObject(o);
    ObjectMoves(p, p', c, Delta(multiset{}, multiset{o}, multiset{}, multiset{}));
  }

  lemma {:induction false} OwnedHere<T>(clients: seq<Client<T>>, c: nat)
    requires c < |clients|
    ensures |Objects(clients[c])| <= |Owned(clients)|
  {
    if c < |clients| - 1 {
      OwnedHere(clients[..|clients| - 1], c);
    }
  }

  lemma ReturnKeeps<T>(p: Pool<T>, c: nat)
    requires Inv(p) && c < |p.clients| && (p.clients[c].Checking? || p.clients[c].Using?)
    ensures Inv(Put(RestoreIdle(p, p.clients[c].o), c, Leaving))
  {
    assert Fits(p.clients[c], p.g.sides[c]);
    SizeBounded(p);
    hide Ok, AllFit, Tracked;
    var p' := Put(RestoreIdle(p, p.clients[c].o), c, Leaving);
    StaysBounded(p, p', c);
    OneObject(p.clients[c].o);
    ObjectMoves(p, p', c, Delta(multiset{}, multiset{}, multiset{}, multiset{p.clients[c].o}));
  }

  lemma CreatedKeeps<T>(p: Pool<T>, c: nat, o: T)
    requires Inv(p) && c < |p.clients| && p.clients[c].Creating?
    ensures Inv(Put(AddNew(p, o), c, Using(o)))
  {
    assert Fits(p.clients[c], p.g.sides[c]);
    hide Ok, AllFit, Tracked;
    var p' := Put(AddNew(p, o), c, Using(o));
    StaysBounded(p, p', c);
    OneObject(o);
    ObjectMoves(p, p', c, Delta(multiset{o}, multiset{}, multiset{}, multiset{}));
  }

  lemma StoreKeeps<T>(p: Pool<T>, c: nat, o: T)
    requires Inv(p) && c < |p.clients| && p.clients[c].Filling? && p.clients[c].n > 0
    ensures Inv(Put(AddNew(p, o).(idle := p.idle + [o]), c, Stored(p.clients[c].n - 1)))
  {
    assert Fits(p.clients[c], p.g.sides[c]);
    hide Ok, AllFit, Tracked;
    var p' := Put(AddNew(p, o).(idle := p.idle + [o]), c, Stored(p.clients[c].n - 1));
    StaysBounded(p, p', c);
    OneObject(o);
    ObjectMoves(p, p', c, Delta(multiset{o}, multiset{}, multiset{}, multiset{o}));
  }

  /** A step that moves a client and no object. */
  lemma PlainKeeps<T>(p: Pool<T>, c: nat, x: Client<T>)
    requires Inv(p) && c < |p.clients| && Fits(x, p.g.sides[c])
    requires Share(x) <= Share(p.clients[c]) && Objects(x) == Objects(p.clients[c])
    ensures Inv(Put(p, c, x))
  {
    hide Ok, Bounded, Tracked, Fits;
    assert p.g.sides[c := p.g.sides[c]] == p.g.sides;
    PermitMoves(p, c, p.g, x);
  }

  lemma ObjectKeeps<T>(p: Pool<T>, a: Action<T>)
    requires Inv(p)
    ensures Inv(ObjectStep(p, a))
  {
    hide Ok, Bounded, Tracked, PopStep, AddNew, DetachObject, RestoreIdle;
    match a
    case Pop(c) =>
      if c < |p.clients| && p.clients[c].Deciding? {
        if p.idle == [] { PopNoneKeeps(p, c); } else { PopSomeKeeps(p, c); }
      }
    case Created(c, o) => if c < |p.clients| && p.clients[c].Creating? { CreatedKeeps(p, c, o); }
    case CreateStops(c) => if c < |p.clients| && p.clients[c].Creating? { PlainKeeps(p, c, Leaving); }
    case CheckPasses(c) => if c < |p.clients| && p.clients[c].Checking? { PlainKeeps(p, c, Using(p.clients[c].o)); }
    case CheckFails(c) => if c < |p.clients| && p.clients[c].Checking? { DetachKeeps(p, c, Deciding); }
    case CancelCheck(c) =>
      if c < |p.clients| && p.clients[c].Checking? {
        if p.config.detachOnCancel { DetachKeeps(p, c, Leaving); } else { ReturnKeeps(p, c); }
      }
    case Return(c) => if c < |p.clients| && p.clients[c].Using? { ReturnKeeps(p, c); }
    case Detach(c) => if c < |p.clients| && p.clients[c].Using? { DetachKeeps(p, c, Leaving); }
    case _ =>
  }

  // ---- Replenishing ----

  /**
   The decision of `replenish_to`. Capacity it sees - available permits plus its own - is capacity that
   no other client holds a share of, whatever the others do between its two reads.
   */
  lemma PlanKeeps<T>(p: Pool<T>, c: nat)
    requires Inv(p) && c < |p.clients| && p.clients[c].Reserved?
    ensures Inv(PlanStep(p, c))
  {
    hide Ok, Tracked;
    var held := p.g.sides[c].held;
    Accounts(p.g, p.config.max);
    HeldUpdate(p.g.sides, c, Side(0, NoWait));
    OthersCommitted(p, c);
    var p' := PlanStep(p, c);
    CommittedUpdate(p.clients, c, p'.clients[c]);
    ObjectMoves(p, p', c, Delta(multiset{}, multiset{}, multiset{}, multiset{}));
  }

  lemma OthersCommitted<T>(p: Pool<T>, c: nat)
    requires Inv(p) && c < |p.clients| && Share(p.clients[c]) == 0
    ensures Committed(p.clients) <= Held(p.g.sides[c := Side(0, NoWait)])
  {
    assert forall d :: 0 <= d < |p.clients| ==> Fits(p.clients[d], p.g.sides[d]);
    CommittedAreHeld(p.clients, p.g.sides[c := Side(0, NoWait)]);
  }

  lemma ReservingKeeps<T>(p: Pool<T>, c: nat, hint: bool)
    requires Inv(p) && c < |p.clients| && p.clients[c].Reserving?
    ensures Inv(ReservingStep(p, c, hint))
  {
    hide Ok, Bounded, Tracked, Attempt;
    assert Fits(p.clients[c], p.g.sides[c]);
    if Attempts(p.g, c) {
      var g := Attempt(p.g, c, hint);
      AttemptKeeps(p.g, p.config.max, c, hint);
      AttemptSides(p.g, c, hint);
      if g.sides[c].wait.NoWait? {
        PermitMoves(p, c, g, if g.sides[c].held == 0 then Gone else Reserved(p.clients[c].target));
      } else {
        assert p.clients[c := p.clients[c]] == p.clients;
        PermitMoves(p, c, g, p.clients[c]);
      }
    }
  }

  lemma ReplenishKeeps<T>(p: Pool<T>, a: Action<T>)
    requires Inv(p)
    ensures Inv(ReplenishStep(p, a))
  {
    hide Ok, Semaphores.Step, Bounded, Tracked, Release, PlanStep, ReservingStep, AddNew;
    if !a.Arrive? && !a.SemStep? && !a.Retain? && !a.RetainPanics? && a.c < |p.clients| {
      assert Fits(p.clients[a.c], p.g.sides[a.c]);
      match a
      case Replenish(c, t, target) =>
        var target' := Min(target, p.config.max);
        if p.clients[c].Gone? && CanTry(p.g, c, t, target') {
          StartTryKeeps(p.g, p.config.max, c, t, target');
          PermitMoves(p, c, StartDrain(p.g, c, t, target'), Reserving(target'));
        }
      case DrainStep(c, hint) => if p.clients[c].Reserving? { ReservingKeeps(p, c, hint); }
      case Plan(c) => if p.clients[c].Reserved? { PlanKeeps(p, c); }
      case Trim(c, t) =>
        if p.clients[c].Planned? {
          ReleaseKeeps(p, c, t, p.g.sides[c].held - p.clients[c].n, Filling(p.clients[c].n));
        }
      case Store(c, o) => if p.clients[c].Filling? && p.clients[c].n > 0 { StoreKeeps(p, c, o); }
      case ReleaseOne(c, t) =>
        if p.clients[c].Stored? { ReleaseKeeps(p, c, t, 1, Filling(p.clients[c].n)); }
      case DropReservation(c, t) =>
        if p.clients[c].Filling? { ReleaseKeeps(p, c, t, p.clients[c].n, Gone); }
      case _ =>
    }
  }

  // ---- Every step, every run ----

  lemma RetainKeeps<T>(p: Pool<T>, verdicts: seq<Verdict>)
    requires Inv(p)
    ensures Inv(RetainStep(p, verdicts))
  {
    hide Ok, AllFit, Owned, Committed;
    if |verdicts| == |p.idle| && Calm(verdicts) {
      Shared(p.idle, verdicts);
      var kept, removed := multiset(Kept(p.idle, verdicts)), multiset(Discarded(p.idle, verdicts));
      assert (p.left + removed) + kept + Owned(p.clients) == p.left + (kept + removed) + Owned(p.clients);
    }
  }

  lemma StepKeeps<T>(p: Pool<T>, a: Action<T>)
    requires Inv(p)
    ensures Inv(Step(p, a))
  {
    hide Inv, GetStep, ObjectStep, ReplenishStep, RetainStep;
    match a
    case Arrive => ArriveKeeps(p);
    case SemStep(b) => SemStepKeeps(p, b);
    case Retain(verdicts) => RetainKeeps(p, verdicts);
    case RetainPanics(idle) => ReorderKeeps(p, idle);
    case _ =>
      GetKeeps(p, a);
      ObjectKeeps(p, a);
      ReplenishKeeps(p, a);
  }

  lemma SemStepKeeps<T>(p: Pool<T>, b: Semaphores.Action)
    requires Inv(p)
    ensures Inv(Step(p, SemStep(b)))
  {
    hide Ok;
    QuietKeeps(p.g, p.config.max, b);
  }

  lemma ReorderKeeps<T>(p: Pool<T>, idle: seq<T>)
    requires Inv(p)
    ensures Inv(Step(p, RetainPanics(idle)))
  {
    hide Ok;
    assert |multiset(idle)| == |idle| && |multiset(p.idle)| == |p.idle|;
  }

  lemma ArriveKeeps<T>(p: Pool<T>)
    requires Inv(p)
    ensures Inv(Step(p, Arrive))
  {
    hide Ok;
    EnterKeeps(p.g, p.config.max);
    assert (p.clients + [Gone])[..|p.clients|] == p.clients;
  }

  lemma {:induction false} RunKeeps<T>(p: Pool<T>, actions: seq<Action<T>>)
    requires Inv(p)
    ensures Inv(Run(p, actions))
    decreases |actions|
  {
    if actions != [] {
      StepKeeps(p, actions[0]);
      RunKeeps(Step(p, actions[0]), actions[1..]);
    }
  }

  /**
   The pool's bound, in every run: what is idle, checked out, being created or promised to a
   replenishment never exceeds the maximum, so no assertion fires and no count underflows; and every
   object made is in exactly one place.
   */
  lemma PoolBound<T>(config: Config, actions: seq<Action<T>>)
    requires 0 < config.max <= Semaphores.MAX
    ensures var p := Run(Init<T>(config), actions);
            && !p.panicked
            && |p.idle| + Committed(p.clients) <= config.max
            && p.size == |p.idle| + |Owned(p.clients)| <= config.max
            && p.made == p.left + multiset(p.idle) + Owned(p.clients)
  {
    assert Inv(Init<T>(config));
    RunKeeps(Init<T>(config), actions);
    var p := Run(Init<T>(config), actions);
    hide Ok, AllFit;
    SizeBounded(p);
  }

  /** When nobody is using the pool, every permit is back and every object left is idle. */
  lemma AllReturned<T>(p: Pool<T>)
    requires Inv(p)
    requires forall c :: 0 <= c < |p.clients| ==> p.clients[c].Gone?
    requires forall t :: 0 <= t < |p.g.sem.threads| ==> p.g.sem.threads[t].Idle?
    ensures p.g.sem.avail == p.config.max && p.size == |p.idle|
  {
    forall c | 0 <= c < |p.g.sides|
      ensures p.g.sides[c] == Side(0, NoWait)
    {
      assert Fits(p.clients[c], p.g.sides[c]);
    }
    NobodyOwns(p.clients);
    hide Ok;
    Restored(p.g, p.config.max);
  }

  lemma {:induction false} NobodyOwns<T>(clients: seq<Client<T>>)
    requires forall c :: 0 <= c < |clients| ==> clients[c].Gone?
    ensures Owned(clients) == multiset{}
  {
    if clients != [] {
      NobodyOwns(clients[..|clients| - 1]);
    }
  }
}
