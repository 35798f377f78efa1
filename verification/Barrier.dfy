/**
 The reference for the phaser: a barrier with unbounded phase numbers that looks at every party after
 each arrival or withdrawal. There are no counters and nothing wraps.
 */
module Barriers {
  import opened Options

  const USIZE_MAX: nat := 0xFFFF_FFFF_FFFF_FFFF
  const WRAP: nat := 0x1_0000_0000_0000_0000

  /**
   A handle: one participant, with the last phase it arrived in and its wait in progress, or a batch of
   members not yet yielded.
   */
  datatype Party = Gone | Member(arrived: Option<nat>, wait: Option<nat>) | Batch(left: nat)

  /** A wait for the end of phase `since`, by a participant or an observer, and whom to wake for it. */
  datatype Watch = Over | Watching(owner: Option<nat>, since: nat, task: Option<nat>)

  datatype Barrier = Barrier(count: nat, closed: bool, parties: seq<Party>, watches: seq<Watch>)

  /**
   `Observe` reads the phase and makes an observer's wait for its end. The wait does nothing until it is
   polled, so it makes no difference if the number is read earlier than the wait is made.
   */
  datatype Op =
    | RegisterOne
    | Register(n: nat)
    | Yield(i: nat)
    | Arrive(i: nat)
    | Withdraw(i: nat)
    | BeginWait(i: nat)
    | PollWait(i: nat, task: nat)
    | CancelWait(i: nat)
    | Observe
    | PollObserver(w: nat, task: nat)
    | DropObserver(w: nat)
    | Close

  datatype Answer = Refused | Ok | Phase(phase: nat) | Closed | Pending | Overflow | Exhausted

  datatype Turn = Turn(after: Barrier, answer: Answer, woken: set<nat>)

  const INIT: Barrier := Barrier(0, false, [], [])

  // ---- Members ----

  function Size(p: Party): nat {
    match p
    case Gone => 0
    case Member(_, _) => 1
    case Batch(left) => left
  }

  function Sizes(parties: seq<Party>): nat {
    if parties == [] then 0 else Sizes(parties[..|parties| - 1]) + Size(parties[|parties| - 1])
  }

  predicate Done(p: Party, count: nat) {
    p.Gone? || (p.Member? && p.arrived == Some(count)) || p == Batch(0)
  }

  predicate AllArrived(b: Barrier) {
    forall i :: 0 <= i < |b.parties| ==> Done(b.parties[i], b.count)
  }

  // ---- Waits ----

  function Tasks(watches: seq<Watch>): set<nat> {
    set w | 0 <= w < |watches| && watches[w].Watching? && watches[w].task.Some? :: watches[w].task.value
  }

  /** Everyone has been woken; they will look when polled. */
  function Awake(watches: seq<Watch>): seq<Watch> {
    seq(|watches|, w requires 0 <= w < |watches| =>
      if watches[w].Watching? then watches[w].(task := None) else Over)
  }

  /** What a wait for phase `since` sees. */
  function Seen(b: Barrier, since: nat): Answer {
    if b.count != since then Phase(b.count) else if b.closed then Closed else Pending
  }

  // ---- One operation ----

  function Put(b: Barrier, i: nat, p: Party): Barrier
    requires i < |b.parties|
  {
    b.(parties := b.parties[i := p])
  }

  /** The phase is over once nobody is missing; a closed barrier stays where it is. */
  function Settle(b: Barrier, answer: Answer): (t: Turn)
    ensures t.after.parties == b.parties
  {
    if !b.closed && AllArrived(b) then Turn(b.(count := b.count + 1, watches := Awake(b.watches)), answer, Tasks(b.watches))
    else Turn(b, answer, {})
  }

  function Enrol(b: Barrier, p: Party): Turn {
    if b.closed then Turn(b, Closed, {})
    else if Sizes(b.parties) + Size(p) > USIZE_MAX then Turn(b, Overflow, {})
    else Turn(b.(parties := b.parties + [p]), Ok, {})
  }

  function YieldOne(b: Barrier, i: nat): Turn
    requires i < |b.parties| && b.parties[i].Batch?
  {
    if b.parties[i].left == 0 then Turn(b, Exhausted, {})
    else Turn(b.(parties := b.parties[i := Batch(b.parties[i].left - 1)] + [Member(None, None)]), Ok, {})
  }

  predicate Idle(b: Barrier, i: nat) {
    i < |b.parties| && b.parties[i].Member? && b.parties[i].wait.None?
  }

  predicate Waiting(b: Barrier, i: nat) {
    && i < |b.parties| && b.parties[i].Member? && b.parties[i].wait.Some?
    && b.parties[i].wait.value < |b.watches| && b.watches[b.parties[i].wait.value].Watching?
  }

  function ArriveNow(b: Barrier, i: nat): (t: Turn)
    requires Idle(b, i)
    ensures |t.after.parties| == |b.parties|
  {
    if b.closed then Turn(b, Closed, {})
    else Settle(Put(b, i, Member(Some(b.count), None)), Phase(b.count))
  }

  /** A wait that is over: the arrival is forgotten only once its phase has been seen to complete. */
  function EndWait(b: Barrier, i: nat, arrived: Option<nat>): Barrier
    requires Waiting(b, i)
  {
    b.(parties := b.parties[i := Member(arrived, None)], watches := b.watches[b.parties[i].wait.value := Over])
  }

  function StartWait(b: Barrier, i: nat, since: nat): Barrier
    requires i < |b.parties|
  {
    b.(parties := b.parties[i := Member(Some(since), Some(|b.watches|))],
       watches := b.watches + [Watching(Some(i), since, None)])
  }

  /**
   The first poll of a participant's wait: it arrives, unless an earlier arrival is still pending -
   because it was explicit, or because an earlier wait was cancelled. Then that one is watched.
   */
  function Begin(b: Barrier, i: nat): Turn
    requires Idle(b, i)
  {
    if b.parties[i].arrived.Some? then Turn(StartWait(b, i, b.parties[i].arrived.value), Ok, {})
    else if b.closed then Turn(b, Closed, {})
    else
      var t := ArriveNow(b, i);
      Turn(StartWait(t.after, i, b.count), Ok, t.woken)
  }

  function Poll(b: Barrier, i: nat, task: nat): Turn
    requires Waiting(b, i)
  {
    var w := b.parties[i].wait.value;
    var answer := Seen(b, b.watches[w].since);
    match answer
    case Pending => Turn(b.(watches := b.watches[w := b.watches[w].(task := Some(task))]), answer, {})
    case Closed => Turn(EndWait(b, i, b.parties[i].arrived), answer, {})
    case _ => Turn(EndWait(b, i, None), answer, {})
  }

  predicate Observing(b: Barrier, w: nat) {
    w < |b.watches| && b.watches[w].Watching? && b.watches[w].owner.None?
  }

  /** An observer does not keep an observation for a full cycle of the 64-bit phase numbers. */
  predicate InCycle(b: Barrier, op: Op) {
    (op.PollObserver? || op.DropObserver?) && Observing(b, op.w) ==> b.count < b.watches[op.w].since + WRAP
  }

  function PollWatch(b: Barrier, w: nat, task: nat): Turn
    requires Observing(b, w)
  {
    var answer := Seen(b, b.watches[w].since);
    var watch := if answer.Pending? then b.watches[w].(task := Some(task)) else Over;
    Turn(b.(watches := b.watches[w := watch]), answer, {})
  }

  function Leave(b: Barrier, i: nat): Turn
    requires i < |b.parties|
  {
    if b.parties[i] == Batch(0) then Turn(Put(b, i, Gone), Ok, {})
    else Settle(Put(b, i, Gone), if b.parties[i].Batch? then Ok else if b.closed then Closed else Phase(b.count))
  }

  /** Whether a caller can make this operation: a participant that waits is borrowed by its wait. */
  predicate Allowed(b: Barrier, op: Op) {
    match op
    case RegisterOne => true
    case Register(_) => true
    case Yield(i) => i < |b.parties| && b.parties[i].Batch?
    case Arrive(i) => Idle(b, i)
    case Withdraw(i) => Idle(b, i) || (i < |b.parties| && b.parties[i].Batch?)
    case BeginWait(i) => Idle(b, i)
    case PollWait(i, _) => Waiting(b, i)
    case CancelWait(i) => Waiting(b, i)
    case Observe => true
    case PollObserver(w, _) => Observing(b, w)
    case DropObserver(w) => Observing(b, w)
    case Close => true
  }

  function Act(b: Barrier, op: Op): Turn {
    if !Allowed(b, op) then Turn(b, Refused, {})
    else
      match op
      case RegisterOne => Enrol(b, Member(None, None))
      case Register(n) => Enrol(b, Batch(n))
      case Yield(i) => YieldOne(b, i)
      case Arrive(i) => ArriveNow(b, i)
      case Withdraw(i) => Leave(b, i)
      case BeginWait(i) => Begin(b, i)
      case PollWait(i, task) => Poll(b, i, task)
      case CancelWait(i) => Turn(EndWait(b, i, b.parties[i].arrived), Ok, {})
      case Observe => Turn(b.(watches := b.watches + [Watching(None, b.count, None)]), Ok, {})
      case PollObserver(w, task) => PollWatch(b, w, task)
      case DropObserver(w) => Turn(b.(watches := b.watches[w := Over]), Ok, {})
      case Close =>
        if b.closed then Turn(b, Ok, {})
        else Turn(b.(closed := true, watches := Awake(b.watches)), Ok, Tasks(b.watches))
  }

  lemma Refuses(b: Barrier, op: Op)
    ensures !Allowed(b, op) ==> Act(b, op) == Turn(b, Refused, {})
  {
  }

  // ---- Runs ----

  function After(b: Barrier, ops: seq<Op>): Barrier {
    if ops == [] then b else Act(After(b, ops[..|ops| - 1]), ops[|ops| - 1]).after
  }

  datatype Reply = Reply(answer: Answer, woken: set<nat>)

  function Replies(b: Barrier, ops: seq<Op>): (r: seq<Reply>)
    ensures |r| == |ops|
  {
    if ops == [] then []
    else
      var t := Act(After(b, ops[..|ops| - 1]), ops[|ops| - 1]);
      Replies(b, ops[..|ops| - 1]) + [Reply(t.answer, t.woken)]
  }

  // ---- What every run keeps ----

  predicate Recent(p: Party, count: nat) {
    p.Member? && p.arrived.Some? ==> p.arrived.value == count || p.arrived.value + 1 == count
  }

  predicate Empty(p: Party) {
    p.Gone? || p == Batch(0)
  }

  predicate NobodyThere(b: Barrier) {
    forall i :: 0 <= i < |b.parties| ==> Empty(b.parties[i])
  }

  ghost predicate AllRecent(parties: seq<Party>, count: nat) {
    forall i :: 0 <= i < |parties| ==> Recent(parties[i], count)
  }

  /** An arrival is from this phase or the one before, and an open phase with members is not over. */
  ghost predicate InPhase(b: Barrier) {
    && AllRecent(b.parties, b.count)
    && (!b.closed && !NobodyThere(b) ==> !AllArrived(b))
  }

  ghost predicate OwnsWait(parties: seq<Party>, watches: seq<Watch>, i: nat)
    requires i < |parties|
  {
    parties[i].Member? && parties[i].wait.Some? ==>
      && parties[i].wait.value < |watches| && watches[parties[i].wait.value].Watching?
      && watches[parties[i].wait.value].owner == Some(i)
      && parties[i].arrived == Some(watches[parties[i].wait.value].since)
  }

  ghost predicate HasOwner(parties: seq<Party>, watches: seq<Watch>, w: nat)
    requires w < |watches|
  {
    watches[w].Watching? && watches[w].owner.Some? ==>
      var i := watches[w].owner.value;
      i < |parties| && parties[i].Member? && parties[i].wait == Some(w)
  }

  /** Each participant's wait in progress watches the phase that participant arrived in. */
  ghost predicate Owned(parties: seq<Party>, watches: seq<Watch>) {
    && (forall i :: 0 <= i < |parties| ==> OwnsWait(parties, watches, i))
    && (forall w :: 0 <= w < |watches| ==> HasOwner(parties, watches, w))
  }

  /** Nobody sleeps past the end of the phase they wait for, or past the close. */
  predicate Alert(w: Watch, count: nat, closed: bool) {
    w.Watching? ==> w.since <= count && (w.task.Some? ==> w.since == count && !closed)
  }

  ghost predicate AllAlert(watches: seq<Watch>, count: nat, closed: bool) {
    forall w :: 0 <= w < |watches| ==> Alert(watches[w], count, closed)
  }

  ghost predicate Inv(b: Barrier) {
    && InPhase(b) && Sizes(b.parties) <= USIZE_MAX
    && Owned(b.parties, b.watches) && AllAlert(b.watches, b.count, b.closed)
  }

  lemma {:induction false} SizesUpdate(parties: seq<Party>, i: nat, p: Party)
    requires i < |parties|
    ensures Sizes(parties[i := p]) == Sizes(parties) - Size(parties[i]) + Size(p) && Size(parties[i]) <= Sizes(parties)
  {
    var n := |parties| - 1;
    if i == n {
      assert parties[i := p][..n] == parties[..n];
    } else {
      SizesUpdate(parties[..n], i, p);
      assert parties[i := p][..n] == parties[..n][i := p];
    }
  }

  lemma SizesAppend(parties: seq<Party>, p: Party)
    ensures Sizes(parties + [p]) == Sizes(parties) + Size(p)
  {
  }

  lemma AwakeKeeps(parties: seq<Party>, watches: seq<Watch>, count: nat, closed: bool)
    requires Owned(parties, watches) && AllAlert(watches, count, closed)
    ensures Owned(parties, Awake(watches))
    ensures AllAlert(Awake(watches), count + 1, closed) && AllAlert(Awake(watches), count, true)
  {
    forall i | 0 <= i < |parties|
      ensures OwnsWait(parties, Awake(watches), i)
    {
      assert OwnsWait(parties, watches, i);
    }
    forall w | 0 <= w < |watches|
      ensures HasOwner(parties, Awake(watches), w)
    {
      assert HasOwner(parties, watches, w);
    }
  }

  /** If everybody has arrived, the settled phase is one further and nobody has arrived in it. */
  lemma SettleKeeps(b: Barrier, answer: Answer)
    requires AllRecent(b.parties, b.count) && Sizes(b.parties) <= USIZE_MAX
    requires Owned(b.parties, b.watches) && AllAlert(b.watches, b.count, b.closed)
    ensures Inv(Settle(b, answer).after)
  {
    hide Sizes, Owned, AllAlert;
    AwakeKeeps(b.parties, b.watches, b.count, b.closed);
  }

  /** A party without a wait in progress, before and after, changes no ownership. */
  lemma OwnedPut(parties: seq<Party>, watches: seq<Watch>, i: nat, p: Party)
    requires Owned(parties, watches) && i < |parties|
    requires !(parties[i].Member? && parties[i].wait.Some?) && !(p.Member? && p.wait.Some?)
    ensures Owned(parties[i := p], watches)
  {
    var parties' := parties[i := p];
    forall k | 0 <= k < |parties'|
      ensures OwnsWait(parties', watches, k)
    {
      assert OwnsWait(parties, watches, k);
    }
    forall w | 0 <= w < |watches|
      ensures HasOwner(parties', watches, w)
    {
      assert HasOwner(parties, watches, w);
    }
  }

  lemma OwnedAppend(parties: seq<Party>, watches: seq<Watch>, p: Party)
    requires Owned(parties, watches) && !(p.Member? && p.wait.Some?)
    ensures Owned(parties + [p], watches)
  {
    forall k | 0 <= k < |parties + [p]|
      ensures OwnsWait(parties + [p], watches, k)
    {
      assert k < |parties| ==> OwnsWait(parties, watches, k);
    }
    forall w | 0 <= w < |watches|
      ensures HasOwner(parties + [p], watches, w)
    {
      assert HasOwner(parties, watches, w);
    }
  }

  // ---- Membership ----

  lemma EnrolKeeps(b: Barrier, p: Party)
    requires Inv(b) && (p == Member(None, None) || p.Batch?)
    ensures Inv(Enrol(b, p).after)
  {
    hide Owned, AllAlert, Sizes;
    var b' := Enrol(b, p).after;
    SizesAppend(b.parties, p);
    OwnedAppend(b.parties, b.watches, p);
    if b' != b {
      if p != Batch(0) {
        assert !Done(b'.parties[|b.parties|], b'.count);
      } else if !NobodyThere(b') {
        var i :| 0 <= i < |b'.parties| && !Empty(b'.parties[i]);
        assert !Empty(b.parties[i]);
        var k :| 0 <= k < |b.parties| && !Done(b.parties[k], b.count);
        assert !Done(b'.parties[k], b'.count);
      }
    }
  }

  lemma YieldKeeps(b: Barrier, i: nat)
    requires Inv(b) && i < |b.parties| && b.parties[i].Batch?
    ensures Inv(YieldOne(b, i).after)
  {
    hide Owned, AllAlert, Sizes;
    if b.parties[i].left > 0 {
      var p := Batch(b.parties[i].left - 1);
      SizesUpdate(b.parties, i, p);
      SizesAppend(b.parties[i := p], Member(None, None));
      OwnedPut(b.parties, b.watches, i, p);
      OwnedAppend(b.parties[i := p], b.watches, Member(None, None));
      assert !Done(YieldOne(b, i).after.parties[|b.parties|], b.count);
    }
  }

  lemma ArriveKeeps(b: Barrier, i: nat)
    requires Inv(b) && Idle(b, i)
    ensures Inv(ArriveNow(b, i).after)
  {
    hide Owned, AllAlert, Sizes;
    if !b.closed {
      var p := Member(Some(b.count), None);
      SizesUpdate(b.parties, i, p);
      OwnedPut(b.parties, b.watches, i, p);
      SettleKeeps(Put(b, i, p), Phase(b.count));
    }
  }

  lemma LeaveKeeps(b: Barrier, i: nat)
    requires Inv(b) && (Idle(b, i) || (i < |b.parties| && b.parties[i].Batch?))
    ensures Inv(Leave(b, i).after)
  {
    hide Owned, AllAlert, Sizes;
    var b' := Put(b, i, Gone);
    SizesUpdate(b.parties, i, Gone);
    OwnedPut(b.parties, b.watches, i, Gone);
    if b.parties[i] != Batch(0) {
      SettleKeeps(b', Leave(b, i).answer);
    } else if !b.closed && !NobodyThere(b') {
      var j :| 0 <= j < |b'.parties| && !Empty(b'.parties[j]);
      assert !Empty(b.parties[j]);
      var k :| 0 <= k < |b.parties| && !Done(b.parties[k], b.count);
      assert !Done(b'.parties[k], b'.count);
    }
  }

  // ---- Waiting ----

  /** A member's own bookkeeping does not change who has arrived. */
  lemma SameDone(b: Barrier, i: nat, p: Party)
    requires InPhase(b) && i < |b.parties| && b.parties[i].Member? && p.Member? && p.arrived == b.parties[i].arrived
    ensures InPhase(Put(b, i, p))
  {
    var b' := Put(b, i, p);
    if !b.closed && !NobodyThere(b') {
      assert !Empty(b.parties[i]);
      var k :| 0 <= k < |b.parties| && !Done(b.parties[k], b.count);
      assert !Done(b'.parties[k], b'.count);
    }
  }

  lemma StartKeeps(b: Barrier, i: nat, since: nat)
    requires Inv(b) && Idle(b, i) && b.parties[i].arrived == Some(since)
    ensures Inv(StartWait(b, i, since))
  {
    hide Sizes;
    var p, watches := Member(Some(since), Some(|b.watches|)), b.watches + [Watching(Some(i), since, None)];
    SizesUpdate(b.parties, i, p);
    SameDone(b, i, p);
    assert Recent(b.parties[i], b.count);
    StartOwned(b, i, since);
  }

  lemma StartOwned(b: Barrier, i: nat, since: nat)
    requires Owned(b.parties, b.watches) && Idle(b, i)
    ensures Owned(StartWait(b, i, since).parties, StartWait(b, i, since).watches)
  {
    var b' := StartWait(b, i, since);
    forall k | 0 <= k < |b'.parties|
      ensures OwnsWait(b'.parties, b'.watches, k)
    {
      assert OwnsWait(b.parties, b.watches, k);
    }
    forall w | 0 <= w < |b'.watches|
      ensures HasOwner(b'.parties, b'.watches, w)
    {
      assert w < |b.watches| ==> HasOwner(b.parties, b.watches, w);
    }
  }

  lemma BeginKeeps(b: Barrier, i: nat)
    requires Inv(b) && Idle(b, i)
    ensures Inv(Begin(b, i).after)
  {
    hide Inv, Sizes;
    if b.parties[i].arrived.Some? {
      StartKeeps(b, i, b.parties[i].arrived.value);
    } else if !b.closed {
      ArriveKeeps(b, i);
      StartKeeps(ArriveNow(b, i).after, i, b.count);
    }
  }

  lemma EndKeeps(b: Barrier, i: nat, arrived: Option<nat>)
    requires Inv(b) && Waiting(b, i)
    requires arrived == b.parties[i].arrived || (arrived.None? && b.watches[b.parties[i].wait.value].since != b.count)
    ensures Inv(EndWait(b, i, arrived))
  {
    hide Sizes;
    SizesUpdate(b.parties, i, Member(arrived, None));
    EndOwned(b, i, arrived);
    if arrived == b.parties[i].arrived {
      SameDone(b, i, Member(arrived, None));
    } else {
      assert !Done(EndWait(b, i, arrived).parties[i], b.count);
    }
  }

  lemma EndOwned(b: Barrier, i: nat, arrived: Option<nat>)
    requires Owned(b.parties, b.watches) && Waiting(b, i)
    ensures Owned(EndWait(b, i, arrived).parties, EndWait(b, i, arrived).watches)
  {
    var b' := EndWait(b, i, arrived);
    assert OwnsWait(b.parties, b.watches, i);
    forall k | 0 <= k < |b'.parties|
      ensures OwnsWait(b'.parties, b'.watches, k)
    {
      assert OwnsWait(b.parties, b.watches, k);
    }
    forall w | 0 <= w < |b'.watches|
      ensures HasOwner(b'.parties, b'.watches, w)
    {
      assert HasOwner(b.parties, b.watches, w);
    }
  }

  /** Only whom to wake for one watch changes, or an observer's watch comes or goes. */
  lemma WatchKeeps(b: Barrier, w: nat, watch: Watch)
    requires Inv(b) && w < |b.watches| && b.watches[w].Watching? && Alert(watch, b.count, b.closed)
    requires watch == b.watches[w].(task := if watch.Watching? then watch.task else None)
             || (watch.Over? && b.watches[w].owner.None?)
    ensures Inv(b.(watches := b.watches[w := watch]))
  {
    hide Sizes;
    var watches := b.watches[w := watch];
    forall k | 0 <= k < |b.parties|
      ensures OwnsWait(b.parties, watches, k)
    {
      assert OwnsWait(b.parties, b.watches, k) && HasOwner(b.parties, b.watches, w);
    }
    forall v | 0 <= v < |watches|
      ensures HasOwner(b.parties, watches, v)
    {
      assert HasOwner(b.parties, b.watches, v);
    }
  }

  lemma PollKeeps(b: Barrier, i: nat, task: nat)
    requires Inv(b) && Waiting(b, i)
    ensures Inv(Poll(b, i, task).after)
  {
    var w := b.parties[i].wait.value;
    var answer := Seen(b, b.watches[w].since);
    hide Inv;
    if answer.Pending? {
      WatchKeeps(b, w, b.watches[w].(task := Some(task)));
    } else if answer.Closed? {
      EndKeeps(b, i, b.parties[i].arrived);
    } else {
      EndKeeps(b, i, None);
    }
  }

  lemma ObserverKeeps(b: Barrier, op: Op)
    requires Inv(b) && Allowed(b, op) && (op.PollObserver? || op.DropObserver?)
    ensures Inv(Act(b, op).after)
  {
    WatchKeeps(b, op.w, Act(b, op).after.watches[op.w]);
  }

  lemma ObserveKeeps(b: Barrier)
    requires Inv(b)
    ensures Inv(b.(watches := b.watches + [Watching(None, b.count, None)]))
  {
    hide Sizes;
    var watches := b.watches + [Watching(None, b.count, None)];
    forall k | 0 <= k < |b.parties|
      ensures OwnsWait(b.parties, watches, k)
    {
      assert OwnsWait(b.parties, b.watches, k);
    }
    forall v | 0 <= v < |watches|
      ensures HasOwner(b.parties, watches, v)
    {
      assert v < |b.watches| ==> HasOwner(b.parties, b.watches, v);
    }
  }

  lemma StepKeeps(b: Barrier, op: Op)
    requires Inv(b)
    ensures Inv(Act(b, op).after)
  {
    if !Allowed(b, op) {
      return;
    }
    match op
    case RegisterOne => EnrolKeeps(b, Member(None, None));
    case Register(n) => EnrolKeeps(b, Batch(n));
    case Yield(i) => YieldKeeps(b, i);
    case Arrive(i) => ArriveKeeps(b, i);
    case Withdraw(i) => LeaveKeeps(b, i);
    case BeginWait(i) => BeginKeeps(b, i);
    case PollWait(i, task) => PollKeeps(b, i, task);
    case CancelWait(i) => EndKeeps(b, i, b.parties[i].arrived);
    case Observe => ObserveKeeps(b);
    case PollObserver(_, _) => ObserverKeeps(b, op);
    case DropObserver(_) => ObserverKeeps(b, op);
    case Close => AwakeKeeps(b.parties, b.watches, b.count, b.closed);
  }

  lemma {:induction false} RunKeeps(b: Barrier, ops: seq<Op>)
    requires Inv(b)
    ensures Inv(After(b, ops))
  {
    hide Inv, Act;
    if ops != [] {
      RunKeeps(b, ops[..|ops| - 1]);
      StepKeeps(After(b, ops[..|ops| - 1]), ops[|ops| - 1]);
    }
  }

  lemma InitKeeps()
    ensures Inv(INIT)
  {
  }

  // ---- What completion means ----

  /**
   The operation makes good what the handle `i` owes to the phase: it withdraws, it arrives in the phase,
   or a batch hands out one of its members. A wait for an arrival in the phase before does not, and
   neither does anything that is refused.
   */
  predicate Discharges(b: Barrier, op: Op, i: nat) {
    && i < |b.parties| && Allowed(b, op)
    && match b.parties[i]
       case Gone => false
       case Member(arrived, _) =>
         op == Withdraw(i) || (!b.closed && (op == Arrive(i) || (op == BeginWait(i) && arrived.None?)))
       case Batch(left) => op == Withdraw(i) || (op == Yield(i) && left > 0)
  }

  lemma StepWaits(b: Barrier, op: Op, i: nat)
    requires Inv(b) && i < |b.parties| && !Done(b.parties[i], b.count) && !Discharges(b, op, i)
    ensures var b' := Act(b, op).after;
            && b'.count == b.count && i < |b'.parties|
            && (b'.parties[i].Member? <==> b.parties[i].Member?) && !Done(b'.parties[i], b'.count)
  {
    hide Sizes, Owned, AllAlert;
    if op.Arrive? || op.Withdraw? || op.BeginWait? {
      if Allowed(b, op) && op.i != i {
        var p := if op.Withdraw? then Gone else Member(Some(b.count), None);
        assert !Done(b.parties[op.i := p][i], b.count);
        assert !AllArrived(Put(b, op.i, p));
      }
    }
  }

  /** After a discharge a member is done with the phase, and a batch has one member less to hand out. */
  lemma DischargeCounts(b: Barrier, op: Op, i: nat)
    requires Discharges(b, op, i)
    ensures var b' := Act(b, op).after;
            && i < |b'.parties|
            && (b.parties[i].Member? ==> Done(b'.parties[i], b.count))
            && (b.parties[i].Batch? ==> b'.parties[i].Gone? || b'.parties[i] == Batch(b.parties[i].left - 1))
  {
    hide Sizes;
  }

  /** The phase of `b` is still on after `ops[..k]`, and `ops[k]` makes good what `i` owes to it. */
  predicate DischargedAt(b: Barrier, ops: seq<Op>, i: nat, k: nat)
    requires i < |b.parties| && k < |ops|
  {
    var s := After(b, ops[..k]);
    s.count == b.count && Discharges(s, ops[k], i) && (s.parties[i].Member? <==> b.parties[i].Member?)
  }

  /** Until `i` makes good what it owes, the phase stays and `i` is missing in it. */
  lemma {:induction false} HeldBack(b: Barrier, ops: seq<Op>, i: nat)
    requires Inv(b) && i < |b.parties| && !Done(b.parties[i], b.count)
    ensures || (exists k :: 0 <= k < |ops| && DischargedAt(b, ops, i, k))
            || (&& After(b, ops).count == b.count && i < |After(b, ops).parties|
                && (After(b, ops).parties[i].Member? <==> b.parties[i].Member?)
                && !Done(After(b, ops).parties[i], b.count))
  {
    hide Inv, Act, Discharges;
    if ops != [] {
      var before, op := ops[..|ops| - 1], ops[|ops| - 1];
      HeldBack(b, before, i);
      if k :| 0 <= k < |before| && DischargedAt(b, before, i, k) {
        assert before[..k] == ops[..k] && DischargedAt(b, ops, i, k);
      } else {
        RunKeeps(b, before);
        if Discharges(After(b, before), op, i) {
          assert DischargedAt(b, ops, i, |before|);
        } else {
          StepWaits(After(b, before), op, i);
        }
      }
    }
  }

  /**
   A phase is not completed before every member of it has arrived in it or withdrawn, during it; a
   batch holds it back until it is dropped or hands out a member, and then that member does.
   */
  lemma NobodySkipped(b: Barrier, ops: seq<Op>, i: nat)
    requires Inv(b) && i < |b.parties| && !Done(b.parties[i], b.count) && After(b, ops).count != b.count
    ensures exists k :: 0 <= k < |ops| && DischargedAt(b, ops, i, k)
                        && i < |After(b, ops[..k + 1]).parties|
                        && (b.parties[i].Member? ==> Done(After(b, ops[..k + 1]).parties[i], b.count))
  {
    HeldBack(b, ops, i);
    var k :| 0 <= k < |ops| && DischargedAt(b, ops, i, k);
    assert ops[..k + 1][..k] == ops[..k];
    DischargeCounts(After(b, ops[..k]), ops[k], i);
  }

  /** A step that ends a phase leaves nobody missing in it, whoever joined and whenever. */
  lemma StepEndsPhase(b: Barrier, op: Op)
    requires Act(b, op).after.count != b.count
    ensures var b' := Act(b, op).after;
            b'.count == b.count + 1 && forall i :: 0 <= i < |b'.parties| ==> Done(b'.parties[i], b.count)
  {
    hide Sizes;
  }

  /** The operation at `k` ends the phase of `b`. */
  ghost predicate EndsAt(b: Barrier, ops: seq<Op>, k: nat)
    requires k < |ops|
  {
    var s' := After(b, ops[..k + 1]);
    && After(b, ops[..k]).count == b.count && s'.count == b.count + 1
    && forall i :: 0 <= i < |s'.parties| ==> Done(s'.parties[i], b.count)
  }

  /** In every run that goes beyond a phase there is the step that ended it, with nobody missing. */
  lemma {:induction false} PhaseEnds(b: Barrier, ops: seq<Op>)
    requires After(b, ops).count != b.count
    ensures exists k :: 0 <= k < |ops| && EndsAt(b, ops, k)
  {
    hide Act;
    var before, op := ops[..|ops| - 1], ops[|ops| - 1];
    if After(b, before).count == b.count {
      StepEndsPhase(After(b, before), op);
      assert ops[..|before|] == before && ops[..|before| + 1] == ops;
      assert EndsAt(b, ops, |before|);
    } else {
      PhaseEnds(b, before);
      var k :| 0 <= k < |before| && EndsAt(b, before, k);
      assert before[..k] == ops[..k] && before[..k + 1] == ops[..k + 1];
      assert EndsAt(b, ops, k);
    }
  }

  /** A party is changed only by its own operations, and its arrivals are in the current phase. */
  lemma OnlyOwnArrivals(b: Barrier, op: Op, i: nat)
    requires i < |b.parties| && Act(b, op).after.parties[i] != b.parties[i]
    ensures i < |Act(b, op).after.parties|
    ensures (op.Arrive? || op.Withdraw? || op.BeginWait? || op.PollWait? || op.CancelWait? || op.Yield?) && op.i == i
    ensures var p' := Act(b, op).after.parties[i];
            p'.Member? && p'.arrived.Some? ==>
              b.parties[i].Member? && (p'.arrived == b.parties[i].arrived || p'.arrived == Some(b.count))
  {
    hide Sizes;
  }

  // ---- Cancelled and retried waits ----

  /** `i` neither arrives anew nor withdraws nor has a wait succeed; what is turned down does not matter. */
  predicate KeepsArrival(op: Op, answer: Answer, i: nat) {
    && !(op == Arrive(i) && answer.Phase?)
    && !(op == Withdraw(i) && !answer.Refused?)
    && !(op.PollWait? && op.i == i && answer.Phase?)
  }

  lemma StepRetries(b: Barrier, op: Op, i: nat)
    requires Inv(b) && i < |b.parties| && b.parties[i].Member? && b.parties[i].arrived.Some?
    requires KeepsArrival(op, Act(b, op).answer, i)
    ensures i < |Act(b, op).after.parties| && Act(b, op).after.parties[i].Member?
    ensures Act(b, op).after.parties[i].arrived == b.parties[i].arrived
    ensures op.BeginWait? && op.i == i ==> Act(b, op).after.count == b.count && Act(b, op).woken == {}
  {
  }

  /**
   A wait that is cancelled and retried, however often and whatever the others do meanwhile, keeps
   watching the phase its participant arrived in: it never counts twice and never arrives in a later one.
   */
  lemma {:induction false} RetriesSamePhase(b: Barrier, ops: seq<Op>, i: nat)
    requires Inv(b) && i < |b.parties| && b.parties[i].Member? && b.parties[i].arrived.Some?
    requires forall k :: 0 <= k < |ops| ==> KeepsArrival(ops[k], Replies(b, ops)[k].answer, i)
    ensures i < |After(b, ops).parties| && After(b, ops).parties[i].Member?
    ensures After(b, ops).parties[i].arrived == b.parties[i].arrived
  {
    hide Inv, Act, KeepsArrival;
    if ops != [] {
      var before, op := ops[..|ops| - 1], ops[|ops| - 1];
      forall k | 0 <= k < |before|
        ensures KeepsArrival(before[k], Replies(b, before)[k].answer, i)
      {
        assert before[k] == ops[k] && Replies(b, before)[k] == Replies(b, ops)[k];
      }
      RetriesSamePhase(b, before, i);
      RunKeeps(b, before);
      assert KeepsArrival(ops[|before|], Replies(b, ops)[|before|].answer, i);
      StepRetries(After(b, before), op, i);
    }
  }

  /**
   In every state a run can reach, a participant's wait answers with the phase after the one it arrived
   in, once that is over, closed or not; if it is not over, closing ends the wait and nothing else does.
   */
  lemma WaitAnswers(ops: seq<Op>, i: nat, task: nat)
    ensures var b := After(INIT, ops);
            Waiting(b, i) ==>
              && b.parties[i].arrived.Some?
              && Act(b, PollWait(i, task)).answer ==
                 if b.parties[i].arrived.value < b.count then Phase(b.parties[i].arrived.value + 1)
                 else if b.closed then Closed else Pending
  {
    InitKeeps();
    RunKeeps(INIT, ops);
    hide After;
    var b := After(INIT, ops);
    if Waiting(b, i) {
      assert OwnsWait(b.parties, b.watches, i) && Recent(b.parties[i], b.count);
    }
  }

  lemma CountGrows(b: Barrier, op: Op)
    ensures b.count <= Act(b, op).after.count <= b.count + 1
    ensures b.closed ==> Act(b, op).after.count == b.count && Act(b, op).after.closed
  {
  }

  /** A completed phase stays completed, closed or not; closing freezes the phase for good. */
  lemma {:induction false} OutcomesLast(b: Barrier, ops: seq<Op>, since: nat)
    requires since <= b.count
    ensures since < b.count ==> Seen(After(b, ops), since).Phase?
    ensures b.closed ==> After(b, ops).closed && Seen(After(b, ops), since) == Seen(b, since)
    ensures b.count <= After(b, ops).count
  {
    hide Act;
    if ops != [] {
      OutcomesLast(b, ops[..|ops| - 1], since);
      CountGrows(After(b, ops[..|ops| - 1]), ops[|ops| - 1]);
    }
  }

  // ---- Nobody is forgotten ----

  lemma TaskIsThere(watches: seq<Watch>, w: nat)
    requires w < |watches| && watches[w].Watching? && watches[w].task.Some?
    ensures watches[w].task.value in Tasks(watches)
  {
  }

  /** Whose wait is no longer registered, and not by its own doing, is woken. */
  lemma NobodyForgotten(b: Barrier, op: Op, w: nat)
    requires Inv(b) && w < |b.watches| && b.watches[w].Watching? && b.watches[w].task.Some?
    ensures var t := Act(b, op);
            || (w < |t.after.watches| && t.after.watches[w] == b.watches[w])
            || b.watches[w].task.value in t.woken
            || ((op.PollObserver? || op.DropObserver?) && op.w == w)
            || ((op.PollWait? || op.CancelWait?) && b.watches[w].owner == Some(op.i))
  {
    TaskIsThere(b.watches, w);
    if (op.PollWait? || op.CancelWait?) && Waiting(b, op.i) {
      assert OwnsWait(b.parties, b.watches, op.i);
    }
  }

  // ---- Observers and the full cycle ----

  /**
   The 64-bit number of the phase tells an observer of phase `at` whether that phase is over, except
   exactly when the barrier is a whole number of cycles further on.
   */
  lemma CycleHides(at: nat, count: nat)
    requires at <= count
    ensures (count % WRAP != at % WRAP <==> count != at) <==> count == at || (count - at) % WRAP != 0
  {
    Congruent(at, count - at);
  }

  lemma Congruent(a: nat, d: nat)
    ensures (a + d) % WRAP == a % WRAP <==> d % WRAP == 0
  {
  }
}
