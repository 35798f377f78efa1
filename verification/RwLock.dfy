/**
 The upgradable reader-writer lock: two semaphores, a reservation of one permit and a data semaphore
 of `max` permits. A guard or a pending acquisition is a client; its stage says which permits its
 tokens own and which acquisition it is waiting for.
 */
module RwLocks {
  import Semaphores
  import opened SemaphoreGuards

  datatype Stage =
    | Idle
    // read
    | Reading
    | TryReading
    | Reader
    // write
    | WriteReserving
    | WriteWaiting
    | TryWriteReserving
    | TryWriteReserved
    | TryWriteWaiting
    // exclusive access obtained, reservation not yet dropped
    | Writing
    | Writer
    // upgradable_read
    | UpReserving
    | UpWaiting
    | TryUpReserving
    | TryUpReserved
    | TryUpWaiting
    | Upgradable
    // upgrade
    | Upgrading
    | TryUpgrading
    // tokens being dropped: the read permit and the reservation, or the reservation alone
    | Dropping
    | Unreserving

  datatype Lock<T> = Lock(max: nat, value: T, res: Guarded, data: Guarded, stages: seq<Stage>)

  datatype Action<T> =
    | Arrive
    // a semaphore takes one of its own steps
    | ResStep(a: Semaphores.Action)
    | DataStep(a: Semaphores.Action)
    | Read(c: nat)
    | Write(c: nat)
    | UpgradableRead(c: nat)
    | Upgrade(c: nat)
    | TryRead(c: nat, t: nat)
    | TryWrite(c: nat, t: nat)
    | TryUpgradableRead(c: nat, t: nat)
    | TryUpgrade(c: nat, t: nat)
    // the pending operation makes its next move
    | Poll(c: nat)
    | TryNext(c: nat, t: nat, hint: bool)
    | Cancel(c: nat, t: nat)
    | DropGuard(c: nat, t: nat)
    | DropReservation(c: nat, t: nat)
    | Downgrade(c: nat, t: nat)
    | Store(c: nat, v: T)

  // ---- Steps ----

  function Init<T>(max: nat, value: T): Lock<T> {
    Lock(max, value, Guarded(Semaphores.Init(1), []), Guarded(Semaphores.Init(max), []), [])
  }

  predicate At<T>(l: Lock<T>, c: nat, stage: Stage) {
    c < |l.stages| && l.stages[c] == stage
  }

  /** Client `c` moved and nobody else did. */
  ghost predicate OnlyClient<T>(l: Lock<T>, l': Lock<T>, c: nat) {
    && l'.max == l.max && l'.value == l.value && |l'.stages| == |l.stages|
    && (forall d :: 0 <= d < |l.stages| && d != c ==> l'.stages[d] == l.stages[d])
  }

  function OnRes<T>(l: Lock<T>, c: nat, g: Guarded, stage: Stage): (r: Lock<T>)
    requires c < |l.stages|
    ensures OnlyClient(l, r, c)
  {
    l.(res := g, stages := l.stages[c := stage])
  }

  function OnData<T>(l: Lock<T>, c: nat, g: Guarded, stage: Stage): (r: Lock<T>)
    requires c < |l.stages|
    ensures OnlyClient(l, r, c)
  {
    l.(data := g, stages := l.stages[c := stage])
  }

  /** Starts `acquire(n)` on the data semaphore. */
  function StartData<T>(l: Lock<T>, c: nat, n: nat, stage: Stage): (r: Lock<T>)
    requires c < |l.stages|
    ensures OnlyClient(l, r, c)
  {
    if Free(l.data, c) && n <= Semaphores.MAX then OnData(l, c, Start(l.data, c, n), stage) else l
  }

  function StartRes<T>(l: Lock<T>, c: nat, stage: Stage): (r: Lock<T>)
    requires c < |l.stages|
    ensures OnlyClient(l, r, c)
  {
    if Free(l.res, c) then OnRes(l, c, Start(l.res, c, 1), stage) else l
  }

  function TryData<T>(l: Lock<T>, c: nat, t: nat, n: nat, stage: Stage): (r: Lock<T>)
    requires c < |l.stages|
    ensures OnlyClient(l, r, c)
  {
    if CanTry(l.data, c, t, n) then OnData(l, c, StartTry(l.data, c, t, n), stage) else l
  }

  function TryRes<T>(l: Lock<T>, c: nat, t: nat, stage: Stage): (r: Lock<T>)
    requires c < |l.stages|
    ensures OnlyClient(l, r, c)
  {
    if CanTry(l.res, c, t, 1) then OnRes(l, c, StartTry(l.res, c, t, 1), stage) else l
  }

  function ClaimData<T>(l: Lock<T>, c: nat, stage: Stage): (r: Lock<T>)
    requires c < |l.stages|
    ensures OnlyClient(l, r, c)
  {
    if Ready(l.data, c) then OnData(l, c, Claim(l.data, c), stage) else l
  }

  /** With the reservation in hand the same poll goes on to ask for `n` data permits. */
  function ClaimRes<T>(l: Lock<T>, c: nat, n: nat, stage: Stage): (r: Lock<T>)
    requires c < |l.stages|
    ensures OnlyClient(l, r, c)
  {
    if Ready(l.res, c) && Free(l.data, c) && n <= Semaphores.MAX
    then StartData(OnRes(l, c, Claim(l.res, c), stage), c, n, stage) else l
  }

  /** One step of a `try_acquire` on the data semaphore; its own outcome decides where the client goes. */
  function AttemptData<T>(l: Lock<T>, c: nat, hint: bool, won: Stage, lost: Stage): (r: Lock<T>)
    requires c < |l.stages|
    ensures OnlyClient(l, r, c)
  {
    if !Attempts(l.data, c) then l
    else
      var g := Attempt(l.data, c, hint);
      if c >= |g.sides| || !g.sides[c].wait.NoWait? then l.(data := g)
      else OnData(l, c, g, if Loses(l.data, c) then lost else won)
  }

  function AttemptRes<T>(l: Lock<T>, c: nat, hint: bool, won: Stage): (r: Lock<T>)
    requires c < |l.stages|
    ensures OnlyClient(l, r, c)
  {
    if !Attempts(l.res, c) then l
    else
      var g := Attempt(l.res, c, hint);
      if c >= |g.sides| || !g.sides[c].wait.NoWait? then l.(res := g)
      else OnRes(l, c, g, if Loses(l.res, c) then Idle else won)
  }

  function ReleaseData<T>(l: Lock<T>, c: nat, t: nat, n: nat, stage: Stage): (r: Lock<T>)
    requires c < |l.stages|
    ensures OnlyClient(l, r, c)
  {
    if CanRelease(l.data, c, t, n) then OnData(l, c, GiveBack(l.data, c, t, n), stage) else l
  }

  function ReleaseRes<T>(l: Lock<T>, c: nat, t: nat, stage: Stage): (r: Lock<T>)
    requires c < |l.stages|
    ensures OnlyClient(l, r, c)
  {
    if CanRelease(l.res, c, t, 1) then OnRes(l, c, GiveBack(l.res, c, t, 1), stage) else l
  }

  function CancelData<T>(l: Lock<T>, c: nat, t: nat, stage: Stage): (r: Lock<T>)
    requires c < |l.stages|
    ensures OnlyClient(l, r, c)
  {
    if CanAbandon(l.data, c, t) then OnData(l, c, Abandon(l.data, c, t), stage) else l
  }

  function CancelRes<T>(l: Lock<T>, c: nat, t: nat): (r: Lock<T>)
    requires c < |l.stages|
    ensures OnlyClient(l, r, c)
  {
    if CanAbandon(l.res, c, t) then OnRes(l, c, Abandon(l.res, c, t), Idle) else l
  }

  function BeginStep<T>(l: Lock<T>, a: Action<T>): (r: Lock<T>)
    requires l.max > 0
    ensures r == l || (ByClient(a) && OnlyClient(l, r, a.c))
  {
    match a
    case Read(c) => if At(l, c, Idle) then StartData(l, c, 1, Reading) else l
    case Write(c) => if At(l, c, Idle) then StartRes(l, c, WriteReserving) else l
    case UpgradableRead(c) => if At(l, c, Idle) then StartRes(l, c, UpReserving) else l
    case Upgrade(c) => if At(l, c, Upgradable) then StartData(l, c, l.max - 1, Upgrading) else l
    case TryRead(c, t) => if At(l, c, Idle) then TryData(l, c, t, 1, TryReading) else l
    case TryWrite(c, t) => if At(l, c, Idle) then TryRes(l, c, t, TryWriteReserving) else l
    case TryUpgradableRead(c, t) => if At(l, c, Idle) then TryRes(l, c, t, TryUpReserving) else l
    case TryUpgrade(c, t) => if At(l, c, Upgradable) then TryData(l, c, t, l.max - 1, TryUpgrading) else l
    case _ => l
  }

  function PollStep<T>(l: Lock<T>, c: nat): (r: Lock<T>)
    requires c < |l.stages|
    ensures OnlyClient(l, r, c)
  {
    match l.stages[c]
    case Reading => ClaimData(l, c, Reader)
    case WriteReserving => ClaimRes(l, c, l.max, WriteWaiting)
    case WriteWaiting => ClaimData(l, c, Writing)
    case UpReserving => ClaimRes(l, c, 1, UpWaiting)
    case UpWaiting => ClaimData(l, c, Upgradable)
    case Upgrading => ClaimData(l, c, Writing)
    case _ => l
  }

  function TryStep<T>(l: Lock<T>, c: nat, t: nat, hint: bool): (r: Lock<T>)
    requires c < |l.stages|
    ensures OnlyClient(l, r, c)
  {
    match l.stages[c]
    case TryReading => AttemptData(l, c, hint, Reader, Idle)
    case TryWriteReserving => AttemptRes(l, c, hint, TryWriteReserved)
    case TryWriteReserved => TryData(l, c, t, l.max, TryWriteWaiting)
    case TryWriteWaiting => AttemptData(l, c, hint, Writing, Unreserving)
    case TryUpReserving => AttemptRes(l, c, hint, TryUpReserved)
    case TryUpReserved => TryData(l, c, t, 1, TryUpWaiting)
    case TryUpWaiting => AttemptData(l, c, hint, Upgradable, Unreserving)
    case TryUpgrading => AttemptData(l, c, hint, Writing, Upgradable)
    case _ => l
  }

  function CancelStep<T>(l: Lock<T>, c: nat, t: nat): (r: Lock<T>)
    requires c < |l.stages|
    ensures OnlyClient(l, r, c)
  {
    match l.stages[c]
    case Reading => CancelData(l, c, t, Idle)
    case WriteReserving => CancelRes(l, c, t)
    case UpReserving => CancelRes(l, c, t)
    case WriteWaiting => CancelData(l, c, t, Unreserving)
    case UpWaiting => CancelData(l, c, t, Unreserving)
    case Upgrading => CancelData(l, c, t, Dropping)
    case _ => l
  }

  function DropStep<T>(l: Lock<T>, a: Action<T>): (r: Lock<T>)
    requires l.max > 0
    ensures r == l || (ByClient(a) && OnlyClient(l, r, a.c))
  {
    match a
    case DropGuard(c, t) =>
      if c >= |l.stages| then l
      else if l.stages[c] == Reader then ReleaseData(l, c, t, 1, Idle)
      else if l.stages[c] == Writer then ReleaseData(l, c, t, l.max, Idle)
      else if l.stages[c] == Upgradable || l.stages[c] == Dropping then ReleaseData(l, c, t, 1, Unreserving)
      else l
    case DropReservation(c, t) =>
      if At(l, c, Writing) then ReleaseRes(l, c, t, Writer)
      else if At(l, c, Unreserving) then ReleaseRes(l, c, t, Idle)
      else l
    case Downgrade(c, t) =>
      if At(l, c, Writer) then ReleaseData(l, c, t, l.max - 1, Reader)
      else if At(l, c, Upgradable) then ReleaseRes(l, c, t, Reader)
      else l
    case _ => l
  }

  function Step<T>(l: Lock<T>, a: Action<T>): (r: Lock<T>)
    requires l.max > 0
    ensures r.max == l.max
  {
    match a
    case Arrive => l.(res := Enter(l.res), data := Enter(l.data), stages := l.stages + [Idle])
    case ResStep(b) => l.(res := Quiet(l.res, b))
    case DataStep(b) => l.(data := Quiet(l.data, b))
    case Poll(c) => if c < |l.stages| then PollStep(l, c) else l
    case TryNext(c, t, hint) => if c < |l.stages| then TryStep(l, c, t, hint) else l
    case Cancel(c, t) => if c < |l.stages| then CancelStep(l, c, t) else l
    case DropGuard(_, _) => DropStep(l, a)
    case DropReservation(_, _) => DropStep(l, a)
    case Downgrade(_, _) => DropStep(l, a)
    case Store(c, v) => if At(l, c, Writer) then l.(value := v) else l
    case _ => BeginStep(l, a)
  }

  // ---- Which permits a stage owns and asks for ----

  datatype Want = Nothing | Await(n: nat) | Attempting(n: nat)

  function ResHeld(stage: Stage): nat {
    match stage
    case Idle | Reading | TryReading | Reader | Writer => 0
    case WriteReserving | TryWriteReserving | UpReserving | TryUpReserving => 0
    case _ => 1
  }

  function ResWant(stage: Stage): Want {
    match stage
    case WriteReserving | UpReserving => Await(1)
    case TryWriteReserving | TryUpReserving => Attempting(1)
    case _ => Nothing
  }

  function DataHeld(stage: Stage, max: nat): nat {
    match stage
    case Reader | Upgradable | Upgrading | TryUpgrading | Dropping => 1
    case Writing | Writer => max
    case _ => 0
  }

  function DataWant(stage: Stage, max: nat): Want {
    match stage
    case Reading | UpWaiting => Await(1)
    case TryReading | TryUpWaiting => Attempting(1)
    case WriteWaiting => Await(max)
    case TryWriteWaiting => Attempting(max)
    case Upgrading => Await(if max > 0 then max - 1 else 0)
    case TryUpgrading => Attempting(if max > 0 then max - 1 else 0)
    case _ => Nothing
  }

  predicate Fits(side: Side, held: nat, want: Want) {
    && side.held == held
    && match want
       case Nothing => side.wait.NoWait?
       case Await(n) => side.wait.Future? && side.wait.n == n
       case Attempting(n) => side.wait.Trying? && side.wait.n == n
  }

  predicate ClientOk(stage: Stage, max: nat, res: Side, data: Side) {
    && Fits(res, ResHeld(stage), ResWant(stage))
    && Fits(data, DataHeld(stage, max), DataWant(stage, max))
  }

  ghost predicate ClientsOk(stages: seq<Stage>, max: nat, res: seq<Side>, data: seq<Side>) {
    && |res| == |stages| == |data|
    && (forall c :: 0 <= c < |stages| ==> ClientOk(stages[c], max, res[c], data[c]))
  }

  ghost predicate Inv<T>(l: Lock<T>) {
    && 0 < l.max <= Semaphores.MAX
    && Ok(l.res, 1)
    && Ok(l.data, l.max)
    && ClientsOk(l.stages, l.max, l.res.sides, l.data.sides)
  }

  // ---- Every step keeps the invariant ----

  /** A client's move on the data semaphore. */
  lemma DataMoves<T>(l: Lock<T>, c: nat, g: Guarded, stage: Stage)
    requires Inv(l) && c < |l.stages| && Ok(g, l.max)
    requires |g.sides| == |l.stages| && g.sides == l.data.sides[c := g.sides[c]]
    requires SameRes(l.stages[c], stage) && Fits(g.sides[c], DataHeld(stage, l.max), DataWant(stage, l.max))
    ensures Inv(OnData(l, c, g, stage))
  {
    assert ClientOk(l.stages[c], l.max, l.res.sides[c], l.data.sides[c]);
    hide Ok, ResHeld, ResWant, DataHeld, DataWant, Fits;
  }

  lemma ResMoves<T>(l: Lock<T>, c: nat, g: Guarded, stage: Stage)
    requires Inv(l) && c < |l.stages| && Ok(g, 1)
    requires |g.sides| == |l.stages| && g.sides == l.res.sides[c := g.sides[c]]
    requires SameData(l.stages[c], stage, l.max) && Fits(g.sides[c], ResHeld(stage), ResWant(stage))
    ensures Inv(OnRes(l, c, g, stage))
  {
    assert ClientOk(l.stages[c], l.max, l.res.sides[c], l.data.sides[c]);
    hide Ok, ResHeld, ResWant, DataHeld, DataWant, Fits;
  }

  predicate SameRes(a: Stage, b: Stage) {
    ResHeld(a) == ResHeld(b) && ResWant(a) == ResWant(b)
  }

  predicate SameData(a: Stage, b: Stage, max: nat) {
    DataHeld(a, max) == DataHeld(b, max) && DataWant(a, max) == DataWant(b, max)
  }

  lemma IdleAsksNothing()
    ensures ResHeld(Idle) == 0 && ResWant(Idle).Nothing?
  {
  }

  lemma StartDataKeeps<T>(l: Lock<T>, c: nat, n: nat, stage: Stage)
    requires Inv(l) && c < |l.stages| && SameRes(l.stages[c], stage)
    requires DataHeld(stage, l.max) == DataHeld(l.stages[c], l.max) && DataWant(stage, l.max) == Await(n)
    ensures Inv(StartData(l, c, n, stage))
  {
    hide Ok, ResHeld, ResWant, DataHeld, DataWant, Semaphores.Step;
    if Free(l.data, c) && n <= Semaphores.MAX {
      assert ClientOk(l.stages[c], l.max, l.res.sides[c], l.data.sides[c]);
      StartKeeps(l.data, l.max, c, n);
      DataMoves(l, c, Start(l.data, c, n), stage);
    }
  }

  lemma StartResKeeps<T>(l: Lock<T>, c: nat, stage: Stage)
    requires Inv(l) && c < |l.stages| && SameData(l.stages[c], stage, l.max)
    requires ResHeld(stage) == ResHeld(l.stages[c]) && ResWant(stage) == Await(1)
    ensures Inv(StartRes(l, c, stage))
  {
    hide Ok, ResHeld, ResWant, DataHeld, DataWant, Semaphores.Step;
    if Free(l.res, c) {
      assert ClientOk(l.stages[c], l.max, l.res.sides[c], l.data.sides[c]);
      StartKeeps(l.res, 1, c, 1);
      ResMoves(l, c, Start(l.res, c, 1), stage);
    }
  }

  lemma TryDataKeeps<T>(l: Lock<T>, c: nat, t: nat, n: nat, stage: Stage)
    requires Inv(l) && c < |l.stages| && SameRes(l.stages[c], stage)
    requires DataHeld(stage, l.max) == DataHeld(l.stages[c], l.max) && DataWant(stage, l.max) == Attempting(n)
    ensures Inv(TryData(l, c, t, n, stage))
  {
    hide Ok, ResHeld, ResWant, DataHeld, DataWant, Semaphores.Step;
    if CanTry(l.data, c, t, n) {
      assert ClientOk(l.stages[c], l.max, l.res.sides[c], l.data.sides[c]);
      StartTryKeeps(l.data, l.max, c, t, n);
      DataMoves(l, c, StartTry(l.data, c, t, n), stage);
    }
  }

  lemma TryResKeeps<T>(l: Lock<T>, c: nat, t: nat, stage: Stage)
    requires Inv(l) && c < |l.stages| && SameData(l.stages[c], stage, l.max)
    requires ResHeld(stage) == ResHeld(l.stages[c]) && ResWant(stage) == Attempting(1)
    ensures Inv(TryRes(l, c, t, stage))
  {
    hide Ok, ResHeld, ResWant, DataHeld, DataWant, Semaphores.Step;
    if CanTry(l.res, c, t, 1) {
      assert ClientOk(l.stages[c], l.max, l.res.sides[c], l.data.sides[c]);
      StartTryKeeps(l.res, 1, c, t, 1);
      ResMoves(l, c, StartTry(l.res, c, t, 1), stage);
    }
  }

  lemma ClaimDataKeeps<T>(l: Lock<T>, c: nat, stage: Stage)
    requires Inv(l) && c < |l.stages| && SameRes(l.stages[c], stage)
    requires DataWant(l.stages[c], l.max).Await? && DataWant(stage, l.max).Nothing?
    requires DataHeld(stage, l.max) == DataHeld(l.stages[c], l.max) + DataWant(l.stages[c], l.max).n
    ensures Inv(ClaimData(l, c, stage))
  {
    hide Ok, ResHeld, ResWant, DataHeld, DataWant, Semaphores.Step;
    if Ready(l.data, c) {
      assert ClientOk(l.stages[c], l.max, l.res.sides[c], l.data.sides[c]);
      SemaphoreGuards.ClaimKeeps(l.data, l.max, c);
      DataMoves(l, c, Claim(l.data, c), stage);
    }
  }

  /** The reservation is claimed on the way to `stage`, by way of a stage that asks for no data yet. */
  lemma ClaimResKeeps<T>(l: Lock<T>, c: nat, n: nat, stage: Stage)
    requires Inv(l) && c < |l.stages| && l.stages[c] in {WriteReserving, UpReserving}
    requires stage in {WriteWaiting, UpWaiting} && DataWant(stage, l.max) == Await(n)
    ensures Inv(ClaimRes(l, c, n, stage))
  {
    hide Ok, Semaphores.Step, Start;
    var via := TryWriteReserved;
    if Ready(l.res, c) && Free(l.data, c) && n <= Semaphores.MAX {
      assert ClientOk(l.stages[c], l.max, l.res.sides[c], l.data.sides[c]);
      SemaphoreGuards.ClaimKeeps(l.res, 1, c);
      ResMoves(l, c, Claim(l.res, c), via);
      var l' := OnRes(l, c, Claim(l.res, c), via);
      StartDataKeeps(l', c, n, stage);
      assert ClaimRes(l, c, n, stage) == StartData(l', c, n, stage);
    }
  }

  lemma AttemptDataKeeps<T>(l: Lock<T>, c: nat, hint: bool, won: Stage, lost: Stage)
    requires Inv(l) && c < |l.stages| && SameRes(l.stages[c], won) && SameRes(l.stages[c], lost)
    requires DataWant(l.stages[c], l.max).Attempting?
    requires DataWant(won, l.max).Nothing? && DataWant(lost, l.max).Nothing?
    requires DataHeld(won, l.max) == DataHeld(l.stages[c], l.max) + DataWant(l.stages[c], l.max).n
    requires DataHeld(lost, l.max) == DataHeld(l.stages[c], l.max)
    ensures Inv(AttemptData(l, c, hint, won, lost))
  {
    hide Ok, ResHeld, ResWant, DataHeld, DataWant, Attempt, Loses;
    if Attempts(l.data, c) {
      assert ClientOk(l.stages[c], l.max, l.res.sides[c], l.data.sides[c]);
      var g := Attempt(l.data, c, hint);
      AttemptKeeps(l.data, l.max, c, hint);
      TryOutcome(l.data, l.max, c, hint);
      if g.sides[c].wait.NoWait? {
        DataMoves(l, c, g, if Loses(l.data, c) then lost else won);
      } else {
        assert l.stages[c := l.stages[c]] == l.stages;
        DataMoves(l, c, g, l.stages[c]);
      }
    }
  }

  lemma AttemptResKeeps<T>(l: Lock<T>, c: nat, hint: bool, won: Stage)
    requires Inv(l) && c < |l.stages| && SameData(l.stages[c], won, l.max) && SameData(l.stages[c], Idle, l.max)
    requires ResWant(l.stages[c]) == Attempting(1) && ResHeld(l.stages[c]) == 0
    requires ResWant(won).Nothing? && ResHeld(won) == 1
    ensures Inv(AttemptRes(l, c, hint, won))
  {
    hide Ok, ResHeld, ResWant, DataHeld, DataWant, Attempt, Loses;
    IdleAsksNothing();
    if Attempts(l.res, c) {
      assert ClientOk(l.stages[c], l.max, l.res.sides[c], l.data.sides[c]);
      var g := Attempt(l.res, c, hint);
      AttemptKeeps(l.res, 1, c, hint);
      TryOutcome(l.res, 1, c, hint);
      hide Inv;
      if !g.sides[c].wait.NoWait? {
        assert l.stages[c := l.stages[c]] == l.stages;
        ResMoves(l, c, g, l.stages[c]);
      } else if Loses(l.res, c) {
        ResMoves(l, c, g, Idle);
      } else {
        ResMoves(l, c, g, won);
      }
    }
  }

  lemma ReleaseDataKeeps<T>(l: Lock<T>, c: nat, t: nat, n: nat, stage: Stage)
    requires Inv(l) && c < |l.stages| && SameRes(l.stages[c], stage)
    requires DataWant(stage, l.max) == DataWant(l.stages[c], l.max)
    requires DataHeld(stage, l.max) + n == DataHeld(l.stages[c], l.max)
    ensures Inv(ReleaseData(l, c, t, n, stage))
  {
    hide Ok, ResHeld, ResWant, DataHeld, DataWant, Semaphores.Step;
    if CanRelease(l.data, c, t, n) {
      assert ClientOk(l.stages[c], l.max, l.res.sides[c], l.data.sides[c]);
      GiveBackKeeps(l.data, l.max, c, t, n);
      DataMoves(l, c, GiveBack(l.data, c, t, n), stage);
    }
  }

  lemma ReleaseResKeeps<T>(l: Lock<T>, c: nat, t: nat, stage: Stage)
    requires Inv(l) && c < |l.stages| && SameData(l.stages[c], stage, l.max)
    requires ResWant(stage) == ResWant(l.stages[c]) && ResHeld(stage) + 1 == ResHeld(l.stages[c])
    ensures Inv(ReleaseRes(l, c, t, stage))
  {
    hide Ok, ResHeld, ResWant, DataHeld, DataWant, Semaphores.Step;
    if CanRelease(l.res, c, t, 1) {
      assert ClientOk(l.stages[c], l.max, l.res.sides[c], l.data.sides[c]);
      GiveBackKeeps(l.res, 1, c, t, 1);
      ResMoves(l, c, GiveBack(l.res, c, t, 1), stage);
    }
  }

  lemma CancelDataKeeps<T>(l: Lock<T>, c: nat, t: nat, stage: Stage)
    requires Inv(l) && c < |l.stages| && SameRes(l.stages[c], stage)
    requires DataHeld(stage, l.max) == DataHeld(l.stages[c], l.max) && DataWant(stage, l.max).Nothing?
    ensures Inv(CancelData(l, c, t, stage))
  {
    hide Ok, ResHeld, ResWant, DataHeld, DataWant, Semaphores.Step;
    if CanAbandon(l.data, c, t) {
      assert ClientOk(l.stages[c], l.max, l.res.sides[c], l.data.sides[c]);
      AbandonKeeps(l.data, l.max, c, t);
      DataMoves(l, c, Abandon(l.data, c, t), stage);
    }
  }

  lemma CancelResKeeps<T>(l: Lock<T>, c: nat, t: nat)
    requires Inv(l) && c < |l.stages| && SameData(l.stages[c], Idle, l.max) && ResHeld(l.stages[c]) == 0
    ensures Inv(CancelRes(l, c, t))
  {
    hide Ok, ResHeld, ResWant, DataHeld, DataWant, Semaphores.Step;
    IdleAsksNothing();
    if CanAbandon(l.res, c, t) {
      assert ClientOk(l.stages[c], l.max, l.res.sides[c], l.data.sides[c]);
      AbandonKeeps(l.res, 1, c, t);
      ResMoves(l, c, Abandon(l.res, c, t), Idle);
    }
  }

  lemma BeginKeeps<T>(l: Lock<T>, a: Action<T>)
    requires Inv(l)
    ensures Inv(BeginStep(l, a))
  {
    hide Ok, ClientsOk, StartData, StartRes, TryData, TryRes;
    match a
    case Read(c) => if At(l, c, Idle) { StartDataKeeps(l, c, 1, Reading); }
    case Write(c) => if At(l, c, Idle) { StartResKeeps(l, c, WriteReserving); }
    case UpgradableRead(c) => if At(l, c, Idle) { StartResKeeps(l, c, UpReserving); }
    case Upgrade(c) => if At(l, c, Upgradable) { StartDataKeeps(l, c, l.max - 1, Upgrading); }
    case TryRead(c, t) => if At(l, c, Idle) { TryDataKeeps(l, c, t, 1, TryReading); }
    case TryWrite(c, t) => if At(l, c, Idle) { TryResKeeps(l, c, t, TryWriteReserving); }
    case TryUpgradableRead(c, t) => if At(l, c, Idle) { TryResKeeps(l, c, t, TryUpReserving); }
    case TryUpgrade(c, t) => if At(l, c, Upgradable) { TryDataKeeps(l, c, t, l.max - 1, TryUpgrading); }
    case _ =>
  }

  lemma PollKeeps<T>(l: Lock<T>, c: nat)
    requires Inv(l) && c < |l.stages|
    ensures Inv(PollStep(l, c))
  {
    hide Ok, ClientsOk, ClaimData, ClaimRes;
    match l.stages[c]
    case Reading => ClaimDataKeeps(l, c, Reader);
    case WriteReserving => ClaimResKeeps(l, c, l.max, WriteWaiting);
    case WriteWaiting => ClaimDataKeeps(l, c, Writing);
    case UpReserving => ClaimResKeeps(l, c, 1, UpWaiting);
    case UpWaiting => ClaimDataKeeps(l, c, Upgradable);
    case Upgrading => ClaimDataKeeps(l, c, Writing);
    case _ =>
  }

  lemma TryKeeps<T>(l: Lock<T>, c: nat, t: nat, hint: bool)
    requires Inv(l) && c < |l.stages|
    ensures Inv(TryStep(l, c, t, hint))
  {
    hide Ok, ClientsOk, AttemptData, AttemptRes, TryData;
    match l.stages[c]
    case TryReading => AttemptDataKeeps(l, c, hint, Reader, Idle);
    case TryWriteReserving => AttemptResKeeps(l, c, hint, TryWriteReserved);
    case TryWriteReserved => TryDataKeeps(l, c, t, l.max, TryWriteWaiting);
    case TryWriteWaiting => AttemptDataKeeps(l, c, hint, Writing, Unreserving);
    case TryUpReserving => AttemptResKeeps(l, c, hint, TryUpReserved);
    case TryUpReserved => TryDataKeeps(l, c, t, 1, TryUpWaiting);
    case TryUpWaiting => AttemptDataKeeps(l, c, hint, Upgradable, Unreserving);
    case TryUpgrading => AttemptDataKeeps(l, c, hint, Writing, Upgradable);
    case _ =>
  }

  lemma CancelKeeps<T>(l: Lock<T>, c: nat, t: nat)
    requires Inv(l) && c < |l.stages|
    ensures Inv(CancelStep(l, c, t))
  {
    hide Ok, ClientsOk, CancelData, CancelRes;
    match l.stages[c]
    case Reading => CancelDataKeeps(l, c, t, Idle);
    case WriteReserving => CancelResKeeps(l, c, t);
    case UpReserving => CancelResKeeps(l, c, t);
    case WriteWaiting => CancelDataKeeps(l, c, t, Unreserving);
    case UpWaiting => CancelDataKeeps(l, c, t, Unreserving);
    case Upgrading => CancelDataKeeps(l, c, t, Dropping);
    case _ =>
  }

  lemma DropKeeps<T>(l: Lock<T>, a: Action<T>)
    requires Inv(l)
    ensures Inv(DropStep(l, a))
  {
    hide Ok, ClientsOk, ReleaseData, ReleaseRes;
    if (a.DropGuard? || a.DropReservation? || a.Downgrade?) && a.c < |l.stages| {
      match (a, l.stages[a.c])
      case (DropGuard(c, t), Reader) => ReleaseDataKeeps(l, c, t, 1, Idle);
      case (DropGuard(c, t), Writer) => ReleaseDataKeeps(l, c, t, l.max, Idle);
      case (DropGuard(c, t), Upgradable) => ReleaseDataKeeps(l, c, t, 1, Unreserving);
      case (DropGuard(c, t), Dropping) => ReleaseDataKeeps(l, c, t, 1, Unreserving);
      case (DropReservation(c, t), Writing) => ReleaseResKeeps(l, c, t, Writer);
      case (DropReservation(c, t), Unreserving) => ReleaseResKeeps(l, c, t, Idle);
      case (Downgrade(c, t), Writer) => ReleaseDataKeeps(l, c, t, l.max - 1, Reader);
      case (Downgrade(c, t), Upgradable) => ReleaseResKeeps(l, c, t, Reader);
      case _ =>
    }
  }

  lemma StepKeeps<T>(l: Lock<T>, a: Action<T>)
    requires Inv(l)
    ensures Inv(Step(l, a))
  {
    hide Ok, BeginStep, PollStep, TryStep, CancelStep, DropStep;
    match a
    case Arrive =>
      EnterKeeps(l.res, 1);
      EnterKeeps(l.data, l.max);
    case ResStep(b) => QuietKeeps(l.res, 1, b);
    case DataStep(b) => QuietKeeps(l.data, l.max, b);
    case Poll(c) => if c < |l.stages| { PollKeeps(l, c); }
    case TryNext(c, t, hint) => if c < |l.stages| { TryKeeps(l, c, t, hint); }
    case Cancel(c, t) => if c < |l.stages| { CancelKeeps(l, c, t); }
    case DropGuard(_, _) => DropKeeps(l, a);
    case DropReservation(_, _) => DropKeeps(l, a);
    case Downgrade(_, _) => DropKeeps(l, a);
    case Store(_, _) =>
    case _ => BeginKeeps(l, a);
  }

  /** Who changed: a step moves at most the client it names, and the value changes only by a store. */
  lemma StepIsLocal<T>(l: Lock<T>, a: Action<T>)
    requires l.max > 0
    ensures var l' := Step(l, a);
            && l'.max == l.max && |l.stages| <= |l'.stages|
            && (a.Store? || l'.value == l.value)
            && (forall d :: 0 <= d < |l.stages| && !(ByClient(a) && a.c == d) ==> l'.stages[d] == l.stages[d])
  {
  }

  predicate ByClient<T>(a: Action<T>) {
    !a.Arrive? && !a.ResStep? && !a.DataStep?
  }

  function Run<T>(l: Lock<T>, actions: seq<Action<T>>): (r: Lock<T>)
    requires l.max > 0
    ensures r.max == l.max
    decreases |actions|
  {
    if actions == [] then l else Run(Step(l, actions[0]), actions[1..])
  }

  lemma {:induction false} RunKeeps<T>(l: Lock<T>, actions: seq<Action<T>>)
    requires Inv(l)
    ensures Inv(Run(l, actions))
    decreases |actions|
  {
    if actions != [] {
      StepKeeps(l, actions[0]);
      RunKeeps(Step(l, actions[0]), actions[1..]);
    }
  }

  lemma Reachable<T>(max: nat, value: T, actions: seq<Action<T>>)
    requires 0 < max <= Semaphores.MAX
    ensures Inv(Run(Init(max, value), actions))
  {
    RunKeeps(Init(max, value), actions);
  }
}
