/**
 The phaser: a phase number that wraps at 2^64, and two counts instead of a look at every party. It is
 proved to follow the barrier of `Barriers`, whose phase numbers do not wrap.
 */
module Phasers {
  import opened Options
  import opened Barriers
  import opened WaitQueues

  /** A participant with its pending phase and its wait in progress, or the iterator over a batch. */
  datatype Handle = Dropped | Participant(pending: Option<nat>, wait: Option<nat>) | Participants(remaining: nat)

  /** A wait future: whose it is, the phase it observes and its place in the waker set. */
  datatype Wait = Ended | Future(owner: Option<nat>, observed: nat, token: Option<nat>)

  // ---- Counting the missing ----

  function Missing(p: Party, count: nat): nat {
    if p.Member? && p.arrived == Some(count) then 0 else Size(p)
  }

  function AllMissing(parties: seq<Party>, count: nat): nat {
    if parties == [] then 0
    else AllMissing(parties[..|parties| - 1], count) + Missing(parties[|parties| - 1], count)
  }

  lemma {:induction false} MissingUpdate(parties: seq<Party>, i: nat, p: Party, count: nat)
    requires i < |parties|
    ensures AllMissing(parties[i := p], count)
         == AllMissing(parties, count) - Missing(parties[i], count) + Missing(p, count)
    ensures Missing(parties[i], count) <= AllMissing(parties, count)
  {
    var n := |parties| - 1;
    if i == n {
      assert parties[i := p][..n] == parties[..n];
    } else {
      MissingUpdate(parties[..n], i, p, count);
      assert parties[i := p][..n] == parties[..n][i := p];
    }
  }

  lemma MissingAppend(parties: seq<Party>, p: Party, count: nat)
    ensures AllMissing(parties + [p], count) == AllMissing(parties, count) + Missing(p, count)
  {
  }

  /** The count of the missing is zero exactly when everybody has arrived. */
  lemma {:induction false} NoneMissing(parties: seq<Party>, count: nat)
    ensures AllMissing(parties, count) == 0 <==> forall i :: 0 <= i < |parties| ==> Done(parties[i], count)
    ensures AllMissing(parties, count) <= Sizes(parties)
  {
    if parties != [] {
      NoneMissing(parties[..|parties| - 1], count);
    }
  }

  /** Right after a phase, everyone who is left is missing. */
  lemma {:induction false} AllMissingAgain(parties: seq<Party>, count: nat)
    requires forall i :: 0 <= i < |parties| ==> Done(parties[i], count)
    ensures AllMissing(parties, count + 1) == Sizes(parties)
  {
    if parties != [] {
      AllMissingAgain(parties[..|parties| - 1], count);
    }
  }

  /** An open phaser with members always waits for someone. */
  lemma SomebodyMissing(b: Barrier)
    requires InPhase(b)
    ensures !b.closed && Sizes(b.parties) > 0 ==> AllMissing(b.parties, b.count) > 0
  {
    NoneMissing(b.parties, b.count);
    if NobodyThere(b) {
      NobodyCounted(b.parties);
    }
  }

  lemma {:induction false} NobodyCounted(parties: seq<Party>)
    requires forall i :: 0 <= i < |parties| ==> Empty(parties[i])
    ensures Sizes(parties) == 0
  {
    if parties != [] {
      NobodyCounted(parties[..|parties| - 1]);
    }
  }

  // ---- Wrapping ----

  function Number(count: nat): nat {
    count % WRAP
  }

  function Wrapped(arrived: Option<nat>): Option<nat> {
    if arrived.Some? then Some(Number(arrived.value)) else None
  }

  /** The barrier's answer as the phaser gives it. */
  function Numbered(a: Answer): Answer {
    if a.Phase? then Phase(Number(a.phase)) else a
  }

  predicate Stands(h: Handle, p: Party) {
    match p
    case Gone => h.Dropped?
    case Member(arrived, wait) => h == Participant(Wrapped(arrived), wait)
    case Batch(left) => h == Participants(left)
  }

  ghost predicate AllStand(handles: seq<Handle>, parties: seq<Party>) {
    |handles| == |parties| && forall i :: 0 <= i < |handles| ==> Stands(handles[i], parties[i])
  }

  /** A pending phase tells whether a participant has arrived in the current one. */
  lemma PendingIs(handles: seq<Handle>, parties: seq<Party>, i: nat, count: nat)
    requires AllStand(handles, parties) && AllRecent(parties, count) && i < |handles| && handles[i].Participant?
    ensures i < |parties| && parties[i].Member? && parties[i].wait == handles[i].wait
    ensures Missing(parties[i], count) == if handles[i].pending == Some(Number(count)) then 0 else 1
    ensures handles[i].pending == Wrapped(parties[i].arrived)
  {
  }

  lemma RemainingIs(handles: seq<Handle>, parties: seq<Party>, i: nat)
    requires AllStand(handles, parties) && i < |handles| && handles[i].Participants?
    ensures i < |parties| && parties[i] == Batch(handles[i].remaining)
  {
  }

  /** One handle changes. */
  lemma Replaced(handles: seq<Handle>, parties: seq<Party>, i: nat, h: Handle, p: Party)
    requires AllStand(handles, parties) && i < |handles| && Stands(h, p)
    ensures AllStand(handles[i := h], parties[i := p])
  {
  }

  lemma Added(handles: seq<Handle>, parties: seq<Party>, h: Handle, p: Party)
    requires AllStand(handles, parties) && Stands(h, p)
    ensures AllStand(handles + [h], parties + [p])
  {
  }

  // ---- The waker set ----

  predicate Asleep(w: Watch) {
    w.Watching? && w.task.Some?
  }

  predicate Matches(f: Wait, w: Watch) {
    match w
    case Over => f.Ended?
    case Watching(owner, since, _) => f.Future? && f.owner == owner && f.observed == Number(since)
  }

  ghost predicate HasSleeper(waits: seq<Wait>, watches: seq<Watch>, token: nat) {
    exists w :: 0 <= w < |waits| == |watches| && Asleep(watches[w]) && waits[w].Future? && waits[w].token == Some(token)
  }

  /** A sleeping wait has a place of its own in the waker set, with its task; there are no other places. */
  ghost predicate Parked(waits: seq<Wait>, watches: seq<Watch>, waiters: map<nat, nat>, count: nat, closed: bool) {
    && |waits| == |watches|
    && (forall w :: 0 <= w < |waits| ==> Matches(waits[w], watches[w]))
    && (forall w :: 0 <= w < |waits| && Asleep(watches[w]) ==>
          waits[w].token.Some? && waits[w].token.value in waiters && waiters[waits[w].token.value] == watches[w].task.value)
    && (forall w :: 0 <= w < |waits| && watches[w].Watching? && watches[w].since == count && !closed ==>
          (waits[w].token.Some? ==> Asleep(watches[w])))
    && (forall w, v :: 0 <= w < v < |waits| && Asleep(watches[w]) && Asleep(watches[v]) ==>
          waits[w].token != waits[v].token)
    && (forall token :: token in waiters ==> HasSleeper(waits, watches, token))
  }

  /** When the phase ends, or the phaser closes, everyone in the waker set is woken. */
  lemma WakesAll(waits: seq<Wait>, watches: seq<Watch>, waiters: map<nat, nat>, count: nat, closed: bool)
    requires Parked(waits, watches, waiters, count, closed) && AllAlert(watches, count, closed)
    ensures waiters.Values == Tasks(watches)
    ensures Parked(waits, Awake(watches), map[], count + 1, closed) && Parked(waits, Awake(watches), map[], count, true)
  {
    forall t | t in waiters.Values
      ensures t in Tasks(watches)
    {
      var token :| token in waiters && waiters[token] == t;
      assert HasSleeper(waits, watches, token);
    }
    forall t | t in Tasks(watches)
      ensures t in waiters.Values
    {
      var w :| 0 <= w < |watches| && Asleep(watches[w]) && watches[w].task.value == t;
      assert waits[w].token.value in waiters;
    }
    forall w | 0 <= w < |waits|
      ensures Matches(waits[w], Awake(watches)[w])
    {
      assert Matches(waits[w], watches[w]) && Alert(watches[w], count, closed);
    }
  }

  lemma Watches(waits: seq<Wait>, watches: seq<Watch>, waiters: map<nat, nat>, count: nat, closed: bool,
                owner: Option<nat>, since: nat)
    requires Parked(waits, watches, waiters, count, closed)
    ensures Parked(waits + [Future(owner, Number(since), None)], watches + [Watching(owner, since, None)],
                   waiters, count, closed)
  {
    hide Number;
    var waits', watches' := waits + [Future(owner, Number(since), None)], watches + [Watching(owner, since, None)];
    forall token | token in waiters
      ensures HasSleeper(waits', watches', token)
    {
      var w :| 0 <= w < |waits| && Asleep(watches[w]) && waits[w].Future? && waits[w].token == Some(token);
      assert Asleep(watches'[w]) && waits'[w].token == Some(token);
    }
  }

  /** A wait that is not asleep changes nothing in the waker set by ending. */
  lemma EndsAwake(waits: seq<Wait>, watches: seq<Watch>, waiters: map<nat, nat>, count: nat, closed: bool, w: nat)
    requires Parked(waits, watches, waiters, count, closed) && w < |waits| && !Asleep(watches[w])
    ensures Parked(waits[w := Ended], watches[w := Over], waiters, count, closed)
  {
    var waits', watches' := waits[w := Ended], watches[w := Over];
    forall token | token in waiters
      ensures HasSleeper(waits', watches', token)
    {
      var v :| 0 <= v < |waits| && Asleep(watches[v]) && waits[v].Future? && waits[v].token == Some(token);
      assert Asleep(watches'[v]) && waits'[v].token == Some(token);
    }
  }

  lemma EndsAsleep(waits: seq<Wait>, watches: seq<Watch>, waiters: map<nat, nat>, count: nat, closed: bool, w: nat)
    requires Parked(waits, watches, waiters, count, closed) && w < |waits| && Asleep(watches[w])
    ensures waits[w].Future? && waits[w].token.Some?
    ensures Parked(waits[w := Ended], watches[w := Over], waiters - {waits[w].token.value}, count, closed)
  {
    assert Matches(waits[w], watches[w]);
    var waits', watches', waiters' := waits[w := Ended], watches[w := Over], waiters - {waits[w].token.value};
    forall token | token in waiters'
      ensures HasSleeper(waits', watches', token)
    {
      var v :| 0 <= v < |waits| && Asleep(watches[v]) && waits[v].Future? && waits[v].token == Some(token);
      assert v != w && Asleep(watches'[v]) && waits'[v].token == Some(token);
    }
  }

  lemma Sleeps(waits: seq<Wait>, watches: seq<Watch>, waiters: map<nat, nat>, count: nat, w: nat, token: nat, task: nat)
    requires Parked(waits, watches, waiters, count, false) && w < |waits| && waits[w].Future?
    requires watches[w].Watching? && watches[w].since == count
    requires waits[w].token == Some(token) || (waits[w].token.None? && token !in waiters)
    ensures Parked(waits[w := waits[w].(token := Some(token))], watches[w := watches[w].(task := Some(task))],
                   waiters[token := task], count, false)
  {
    var waits', watches' := waits[w := waits[w].(token := Some(token))], watches[w := watches[w].(task := Some(task))];
    forall t | t in waiters[token := task]
      ensures HasSleeper(waits', watches', t)
    {
      if t == token {
        assert Asleep(watches'[w]) && waits'[w].token == Some(t);
      } else {
        var v :| 0 <= v < |waits| && Asleep(watches[v]) && waits[v].Future? && waits[v].token == Some(t);
        assert Asleep(watches'[v]) && waits'[v].token == Some(t);
      }
    }
    assert Matches(waits[w], watches[w]);
  }

  /** Within a cycle, the numbers tell whether the observed phase is over. */
  lemma Observes(waits: seq<Wait>, watches: seq<Watch>, waiters: map<nat, nat>, count: nat, closed: bool, w: nat)
    requires Parked(waits, watches, waiters, count, closed) && AllAlert(watches, count, closed)
    requires w < |watches| && watches[w].Watching? && count < watches[w].since + WRAP
    ensures |waits| == |watches| && waits[w].Future? && waits[w].owner == watches[w].owner
    ensures waits[w].observed == Number(count) <==> watches[w].since == count
    ensures watches[w].since == count && !closed ==> (waits[w].token.Some? <==> Asleep(watches[w]))
    ensures watches[w].since != count || closed ==> !Asleep(watches[w])
    ensures Asleep(watches[w]) ==> waits[w].token.value in waiters
  {
    assert Matches(waits[w], watches[w]) && Alert(watches[w], count, closed);
  }

  class Phaser {
    var phase: nat
    var closed: bool
    var registered: nat
    var unarrived: nat
    var waiters: map<nat, nat>

    // held by callers
    var handles: seq<Handle>
    var waits: seq<Wait>

    ghost var barrier: Barrier

    /** The counts, the numbers and the waker set fit the barrier, whether or not it has been settled yet. */
    ghost predicate Tallied()
      reads this
    {
      && AllStand(handles, barrier.parties)
      && phase == Number(barrier.count) && closed == barrier.closed
      && registered == Sizes(barrier.parties) <= USIZE_MAX
      && unarrived == AllMissing(barrier.parties, barrier.count)
      && Parked(waits, barrier.watches, waiters, barrier.count, closed)
      && AllAlert(barrier.watches, barrier.count, closed)
    }

    ghost predicate Valid()
      reads this
    {
      Tallied() && Inv(barrier)
    }

    /** The phaser has done what the barrier does, and answered and woken as it does. */
    ghost predicate Follows(was: Barrier, op: Op, r: Answer, woken: set<nat>)
      reads this
    {
      var t := Act(was, op);
      Valid() && barrier == t.after && r == Numbered(t.answer) && woken == t.woken
    }

    constructor ()
      ensures Valid() && barrier == INIT
    {
      phase, closed, registered, unarrived, waiters := 0, false, 0, 0, map[];
      handles, waits, barrier := [], [], INIT;
    }

    /** After the last missing arrival the phase moves on and everyone in the waker set is woken. */
    method AdvanceIfReady(ghost answer: Answer) returns (woken: set<nat>)
      requires Tallied() && AllRecent(barrier.parties, barrier.count) && Owned(barrier.parties, barrier.watches)
      modifies this`phase, this`unarrived, this`waiters, this`barrier
      ensures Valid() && barrier == Settle(old(barrier), answer).after && woken == Settle(old(barrier), answer).woken
    {
      hide AllStand, AllRecent, Parked, Inv, Sizes, AllMissing, AllAlert, Owned, Tasks, Awake;
      NoneMissing(barrier.parties, barrier.count);
      SettleKeeps(barrier, answer);
      if closed || unarrived != 0 {
        return {};
      }
      AllMissingAgain(barrier.parties, barrier.count);
      WakesAll(waits, barrier.watches, waiters, barrier.count, closed);
      assert AllAlert(Settle(barrier, answer).after.watches, barrier.count + 1, closed) by {
        AlertOf(Settle(barrier, answer).after);
      }
      barrier := Settle(barrier, answer).after;
      phase := (phase + 1) % WRAP;
      unarrived := registered;
      woken := waiters.Values;
      waiters := map[];
    }

    // ---- Membership ----

    /** Adds a handle for `parties` members, unless the phaser is closed or the count would overflow. */
    method DoRegister(parties: nat, handle: Handle, ghost party: Party) returns (r: Answer)
      requires Valid() && Stands(handle, party) && Size(party) == parties
      requires party == Member(None, None) || party.Batch?
      modifies this`registered, this`unarrived, this`handles, this`barrier
      ensures Valid() && barrier == Enrol(old(barrier), party).after && r == Enrol(old(barrier), party).answer
    {
      hide AllStand, Parked, Inv, Sizes, AllMissing, AllAlert;
      EnrolKeeps(barrier, party);
      SizesAppend(barrier.parties, party);
      MissingAppend(barrier.parties, party, barrier.count);
      Added(handles, barrier.parties, handle, party);
      if closed {
        return Closed;
      }
      if registered + parties > USIZE_MAX {
        return Overflow;
      }
      registered := registered + parties;
      unarrived := unarrived + parties;
      handles := handles + [handle];
      barrier := barrier.(parties := barrier.parties + [party]);
      r := Ok;
    }

    method RegisterOne() returns (r: Answer)
      requires Valid()
      modifies this`registered, this`unarrived, this`handles, this`barrier
      ensures Follows(old(barrier), Op.RegisterOne, r, {})
    {
      hide Valid;
      r := DoRegister(1, Participant(None, None), Member(None, None));
    }

    method Register(parties: nat) returns (r: Answer)
      requires Valid()
      modifies this`registered, this`unarrived, this`handles, this`barrier
      ensures Follows(old(barrier), Op.Register(parties), r, {})
    {
      hide Valid;
      r := DoRegister(parties, Participants(parties), Batch(parties));
    }

    /** The iterator's next participant; it has been registered all along. */
    method Next(i: nat) returns (r: Answer)
      requires Valid() && i < |handles| && handles[i].Participants?
      modifies this`handles, this`barrier
      ensures Follows(old(barrier), Op.Yield(i), r, {})
    {
      hide AllStand, Parked, Inv, Sizes, AllMissing, AllAlert;
      RemainingIs(handles, barrier.parties, i);
      YieldKeeps(barrier, i);
      if handles[i].remaining == 0 {
        return Exhausted;
      }
      ghost var p := Batch(barrier.parties[i].left - 1);
      SizesUpdate(barrier.parties, i, p);
      SizesAppend(barrier.parties[i := p], Member(None, None));
      MissingUpdate(barrier.parties, i, p, barrier.count);
      MissingAppend(barrier.parties[i := p], Member(None, None), barrier.count);
      Replaced(handles, barrier.parties, i, Participants(handles[i].remaining - 1), p);
      handles := handles[i := Participants(handles[i].remaining - 1)];
      Added(handles, barrier.parties[i := p], Participant(None, None), Member(None, None));
      handles := handles + [Participant(None, None)];
      barrier := YieldOne(barrier, i).after;
      r := Ok;
    }

    /** Dropping the iterator withdraws the members it has not yielded, in one transition. */
    method DropParticipants(i: nat) returns (woken: set<nat>)
      requires Valid() && i < |handles| && handles[i].Participants?
      modifies this`handles, this`registered, this`unarrived, this`phase, this`waiters, this`barrier
      ensures Follows(old(barrier), Op.Withdraw(i), Ok, woken)
    {
      hide AllStand, AllRecent, Parked, Inv, Sizes, AllMissing, AllAlert, Owned;
      RemainingIs(handles, barrier.parties, i);
      LeaveKeeps(barrier, i);
      Leaves(barrier, i);
      MissingUpdate(barrier.parties, i, Gone, barrier.count);
      Replaced(handles, barrier.parties, i, Dropped, Gone);
      var remaining := handles[i].remaining;
      handles := handles[i := Dropped];
      barrier := Put(barrier, i, Gone);
      if remaining == 0 {
        return {};
      }
      registered := registered - remaining;
      unarrived := unarrived - remaining;
      woken := AdvanceIfReady(Ok);
    }

    // ---- Arriving ----

    /** Counts once per phase, however often it is called. */
    method Arrive(i: nat) returns (r: Answer, woken: set<nat>)
      requires Valid() && i < |handles| && handles[i].Participant? && handles[i].wait.None?
      modifies this`handles, this`unarrived, this`phase, this`waiters, this`barrier
      ensures Follows(old(barrier), Op.Arrive(i), r, woken)
      ensures |handles| == |old(handles)|
      ensures r.Phase? ==> handles[i] == Participant(Some(r.phase), None)
    {
      hide AllStand, AllRecent, Parked, Inv, Sizes, AllMissing, AllAlert, Owned, Number;
      RecentOf(barrier);
      PendingIs(handles, barrier.parties, i, barrier.count);
      if closed {
        return Closed, {};
      }
      Arrives(barrier, i);
      MissingUpdate(barrier.parties, i, Member(Some(barrier.count), None), barrier.count);
      Replaced(handles, barrier.parties, i, Participant(Some(phase), None), Member(Some(barrier.count), None));
      r := Phase(phase);
      if handles[i].pending != Some(phase) {
        unarrived := unarrived - 1;
      }
      handles := handles[i := Participant(Some(phase), None)];
      barrier := Put(barrier, i, Member(Some(barrier.count), None));
      woken := AdvanceIfReady(Phase(barrier.count));
    }

    method Deregister(i: nat) returns (r: Answer, woken: set<nat>)
      requires Valid() && i < |handles| && handles[i].Participant? && handles[i].wait.None?
      modifies this`handles, this`registered, this`unarrived, this`phase, this`waiters, this`barrier
      ensures Follows(old(barrier), Op.Withdraw(i), r, woken)
    {
      hide AllStand, AllRecent, Parked, Inv, Sizes, AllMissing, AllAlert, Owned, Number;
      RecentOf(barrier);
      PendingIs(handles, barrier.parties, i, barrier.count);
      Leaves(barrier, i);
      MissingUpdate(barrier.parties, i, Gone, barrier.count);
      Replaced(handles, barrier.parties, i, Dropped, Gone);
      r := if closed then Closed else Phase(phase);
      registered := registered - 1;
      if handles[i].pending != Some(phase) {
        unarrived := unarrived - 1;
      }
      handles := handles[i := Dropped];
      barrier := Put(barrier, i, Gone);
      woken := AdvanceIfReady(if closed then Closed else Phase(barrier.count));
    }

    /** Freezes the phase and wakes everyone in the waker set. */
    method Close() returns (woken: set<nat>)
      requires Valid()
      modifies this`closed, this`waiters, this`barrier
      ensures Follows(old(barrier), Op.Close, Ok, woken)
    {
      if closed {
        return {};
      }
      hide AllStand, AllRecent, Parked, Inv, Sizes, AllMissing, AllAlert, Owned, Number;
      StepKeeps(barrier, Op.Close);
      AlertOf(Act(barrier, Op.Close).after);
      WakesAll(waits, barrier.watches, waiters, barrier.count, closed);
      closed := true;
      barrier := Act(barrier, Op.Close).after;
      woken := waiters.Values;
      waiters := map[];
    }

    // ---- Waiting ----

    /** Observes the current phase; the future does nothing until it is polled. */
    method NewWait()
      requires Valid()
      modifies this`waits, this`barrier
      ensures Follows(old(barrier), Op.Observe, Ok, {})
    {
      hide AllStand, Parked, Inv, Sizes, AllMissing, AllAlert, Number;
      StepKeeps(barrier, Op.Observe);
      AlertOf(Act(barrier, Op.Observe).after);
      Watches(waits, barrier.watches, waiters, barrier.count, closed, None, barrier.count);
      waits := waits + [Future(None, phase, None)];
      barrier := Act(barrier, Op.Observe).after;
    }

    /** One poll of a wait future, under the lock. The watch in the barrier sleeps, or is over. */
    method PollFuture(w: nat, task: nat) returns (r: Answer)
      requires Tallied() && w < |waits| && waits[w].Future?
      requires w < |barrier.watches| && barrier.watches[w].Watching?
      requires barrier.count < barrier.watches[w].since + WRAP
      modifies this`waits, this`waiters, this`barrier
      ensures Tallied()
      ensures r == Numbered(Seen(old(barrier), old(barrier).watches[w].since))
      ensures var watch := old(barrier).watches[w];
              barrier == old(barrier).(watches := old(barrier).watches[w :=
                if r.Pending? then watch.(task := Some(task)) else Over])
    {
      hide AllStand, Parked, Sizes, AllMissing, Number;
      ghost var watches, watch := barrier.watches, barrier.watches[w];
      Observes(waits, watches, waiters, barrier.count, closed, w);
      if phase != waits[w].observed || closed {
        r := if phase != waits[w].observed then Phase(phase) else Closed;
        EndsAwake(waits, watches, waiters, barrier.count, closed, w);
        waits := waits[w := Ended];
        barrier := barrier.(watches := watches[w := Over]);
      } else {
        var token;
        if waits[w].token.Some? {
          token := waits[w].token.value;
        } else {
          token := FreshId(waiters);
        }
        Sleeps(waits, watches, waiters, barrier.count, w, token, task);
        waiters := waiters[token := task];
        waits := waits[w := waits[w].(token := Some(token))];
        barrier := barrier.(watches := watches[w := watch.(task := Some(task))]);
        r := Pending;
      }
    }

    /** Dropping a wait future takes it out of the waker set; it changes nothing about any arrival. */
    method DropFuture(w: nat)
      requires Tallied() && w < |waits| && waits[w].Future?
      requires w < |barrier.watches| && barrier.watches[w].Watching?
      requires barrier.count < barrier.watches[w].since + WRAP
      modifies this`waits, this`waiters, this`barrier
      ensures Tallied() && barrier == old(barrier).(watches := old(barrier).watches[w := Over])
    {
      hide AllStand, Parked, Sizes, AllMissing, Number;
      Observes(waits, barrier.watches, waiters, barrier.count, closed, w);
      var token := waits[w].token;
      if token.Some? && phase == waits[w].observed && !closed {
        EndsAsleep(waits, barrier.watches, waiters, barrier.count, closed, w);
        waiters := waiters - {token.value};
      } else {
        EndsAwake(waits, barrier.watches, waiters, barrier.count, closed, w);
      }
      waits := waits[w := Ended];
      barrier := barrier.(watches := barrier.watches[w := Over]);
    }

    method PollObserver(w: nat, task: nat) returns (r: Answer)
      requires Valid() && Observing(barrier, w) && InCycle(barrier, Op.PollObserver(w, task))
      modifies this`waits, this`waiters, this`barrier
      ensures Follows(old(barrier), Op.PollObserver(w, task), r, {})
    {
      hide AllStand, Parked, Inv, Sizes, AllMissing, AllAlert, Number;
      StepKeeps(barrier, Op.PollObserver(w, task));
      Observes(waits, barrier.watches, waiters, barrier.count, closed, w);
      r := PollFuture(w, task);
    }

    method DropObserver(w: nat)
      requires Valid() && Observing(barrier, w) && InCycle(barrier, Op.DropObserver(w))
      modifies this`waits, this`waiters, this`barrier
      ensures Follows(old(barrier), Op.DropObserver(w), Ok, {})
    {
      hide AllStand, Parked, Inv, Sizes, AllMissing, AllAlert, Number;
      StepKeeps(barrier, Op.DropObserver(w));
      Observes(waits, barrier.watches, waiters, barrier.count, closed, w);
      DropFuture(w);
    }

    // ---- A participant's wait ----

    method BeginWait(i: nat) returns (r: Answer, woken: set<nat>)
      requires Valid() && i < |handles| && handles[i].Participant? && handles[i].wait.None?
      modifies this
      ensures Follows(old(barrier), Op.BeginWait(i), r, woken)
    {
      hide AllStand, AllRecent, Parked, Inv, Sizes, AllMissing, AllAlert, Owned, Number;
      RecentOf(barrier);
      PendingIs(handles, barrier.parties, i, barrier.count);
      ghost var count := barrier.count;
      woken := {};
      if handles[i].pending.Some? {
        StartFuture(i, handles[i].pending.value, barrier.parties[i].arrived.value);
        return Ok, {};
      }
      r, woken := Arrive(i);
      if r.Phase? {
        StartFuture(i, r.phase, count);
        r := Ok;
      }
    }

    /** The participant's wait observes its pending phase. */
    method StartFuture(i: nat, observed: nat, ghost since: nat)
      requires Valid() && i < |handles| && handles[i] == Participant(Some(observed), None)
      requires Idle(barrier, i) && barrier.parties[i].arrived == Some(since)
      modifies this`waits, this`handles, this`barrier
      ensures Valid() && barrier == StartWait(old(barrier), i, since)
    {
      hide AllStand, AllRecent, Parked, Inv, Sizes, AllMissing, AllAlert, Owned, Number;
      RecentOf(barrier);
      PendingIs(handles, barrier.parties, i, barrier.count);
      StartKeeps(barrier, i, since);
      AlertOf(StartWait(barrier, i, since));
      ParkedLength(waits, barrier.watches, waiters, barrier.count, closed);
      Watches(waits, barrier.watches, waiters, barrier.count, closed, Some(i), since);
      ghost var p := Member(Some(since), Some(|barrier.watches|));
      Replaced(handles, barrier.parties, i, Participant(Some(observed), Some(|waits|)), p);
      SizesUpdate(barrier.parties, i, p);
      MissingUpdate(barrier.parties, i, p, barrier.count);
      handles := handles[i := Participant(Some(observed), Some(|waits|))];
      waits := waits + [Future(Some(i), observed, None)];
      barrier := StartWait(barrier, i, since);
    }

    /** A later poll: the arrival is forgotten only once its phase has been seen to complete. */
    method PollWait(i: nat, task: nat) returns (r: Answer)
      requires Valid() && i < |handles| && handles[i].Participant? && Waiting(barrier, i)
      modifies this`waits, this`waiters, this`handles, this`barrier
      ensures Follows(old(barrier), Op.PollWait(i, task), r, {})
    {
      hide AllStand, AllRecent, Parked, Inv, Sizes, AllMissing, AllAlert, Owned, Number;
      StepKeeps(barrier, Op.PollWait(i, task));
      WaitIs(barrier, i);
      RecentOf(barrier);
      PendingIs(handles, barrier.parties, i, barrier.count);
      Observes(waits, barrier.watches, waiters, barrier.count, closed, handles[i].wait.value);
      r := PollFuture(handles[i].wait.value, task);
      if !r.Pending? {
        FinishWait(i, if r.Phase? then None else handles[i].pending, if r.Phase? then None else barrier.parties[i].arrived);
      }
    }

    method CancelWait(i: nat)
      requires Valid() && i < |handles| && handles[i].Participant? && Waiting(barrier, i)
      modifies this`waits, this`waiters, this`handles, this`barrier
      ensures Follows(old(barrier), Op.CancelWait(i), Ok, {})
    {
      hide AllStand, AllRecent, Parked, Inv, Sizes, AllMissing, AllAlert, Owned, Number;
      StepKeeps(barrier, Op.CancelWait(i));
      WaitIs(barrier, i);
      RecentOf(barrier);
      PendingIs(handles, barrier.parties, i, barrier.count);
      Observes(waits, barrier.watches, waiters, barrier.count, closed, handles[i].wait.value);
      DropFuture(handles[i].wait.value);
      FinishWait(i, handles[i].pending, barrier.parties[i].arrived);
    }

    /** The participant is free again, with or without its pending phase. */
    method FinishWait(i: nat, pending: Option<nat>, ghost arrived: Option<nat>)
      requires Tallied() && i < |handles| && i < |barrier.parties| && barrier.parties[i].Member?
      requires pending == Wrapped(arrived)
      requires Missing(barrier.parties[i], barrier.count) == Missing(Member(arrived, None), barrier.count)
      modifies this`handles, this`barrier
      ensures Tallied() && barrier == Put(old(barrier), i, Member(arrived, None))
    {
      hide AllStand, AllRecent, Parked, Sizes, AllMissing, AllAlert, Number;
      Replaced(handles, barrier.parties, i, Participant(pending, None), Member(arrived, None));
      SizesUpdate(barrier.parties, i, Member(arrived, None));
      MissingUpdate(barrier.parties, i, Member(arrived, None), barrier.count);
      handles := handles[i := Participant(pending, None)];
      barrier := Put(barrier, i, Member(arrived, None));
    }

    // ---- Runs ----

    /** Makes an operation if its caller can, and refuses it otherwise. */
    method Apply(op: Op) returns (r: Reply)
      requires Valid() && InCycle(barrier, op)
      modifies this
      ensures Follows(old(barrier), op, r.answer, r.woken)
    {
      hide Valid, Act, InCycle;
      match op {
        case RegisterOne =>
          var answer := RegisterOne();
          r := Reply(answer, {});
        case Register(n) =>
          var answer := Register(n);
          r := Reply(answer, {});
        case Observe =>
          NewWait();
          r := Reply(Ok, {});
        case Close =>
          var woken := Close();
          r := Reply(Ok, woken);
        case PollObserver(_, _) =>
          r := ApplyObserver(op);
        case DropObserver(_) =>
          r := ApplyObserver(op);
        case _ =>
          r := ApplyHandle(op);
      }
    }

    method ApplyHandle(op: Op) returns (r: Reply)
      requires Valid()
      requires op.Yield? || op.Arrive? || op.Withdraw? || op.BeginWait? || op.PollWait? || op.CancelWait?
      modifies this
      ensures Follows(old(barrier), op, r.answer, r.woken)
    {
      hide Act, Inv, AllStand, Sizes, AllMissing, Parked, AllAlert;
      Refuses(barrier, op);
      Handles(handles, barrier, op.i);
      var answer, woken: set<nat> := Refused, {};
      if op.i < |handles| {
        if handles[op.i].Participants? {
          if op.Yield? {
            answer := Next(op.i);
          } else if op.Withdraw? {
            woken := DropParticipants(op.i);
            answer := Ok;
          }
        } else if handles[op.i].Participant? {
          answer, woken := ApplyParticipant(op);
        }
      }
      r := Reply(answer, woken);
    }

    method ApplyParticipant(op: Op) returns (answer: Answer, woken: set<nat>)
      requires Valid()
      requires op.Yield? || op.Arrive? || op.Withdraw? || op.BeginWait? || op.PollWait? || op.CancelWait?
      requires op.i < |handles| && handles[op.i].Participant?
      modifies this
      ensures Follows(old(barrier), op, answer, woken)
    {
      hide Act, Inv, AllStand, Sizes, AllMissing, Parked, AllAlert;
      Refuses(barrier, op);
      Handles(handles, barrier, op.i);
      answer, woken := Refused, {};
      if handles[op.i].wait.None? {
        if op.Arrive? {
          answer, woken := Arrive(op.i);
        } else if op.Withdraw? {
          answer, woken := Deregister(op.i);
        } else if op.BeginWait? {
          answer, woken := BeginWait(op.i);
        }
      } else if op.PollWait? {
        answer := PollWait(op.i, op.task);
      } else if op.CancelWait? {
        CancelWait(op.i);
        answer := Ok;
      }
    }

    method ApplyObserver(op: Op) returns (r: Reply)
      requires Valid() && InCycle(barrier, op) && (op.PollObserver? || op.DropObserver?)
      modifies this
      ensures Follows(old(barrier), op, r.answer, r.woken)
    {
      hide Act, Inv, AllStand, Sizes, AllMissing, AllAlert;
      Refuses(barrier, op);
      var answer := Refused;
      assert op.w < |waits| ==> Matches(waits[op.w], barrier.watches[op.w]);
      if op.w < |waits| && waits[op.w].Future? && waits[op.w].owner.None? {
        if op.PollObserver? {
          answer := PollObserver(op.w, op.task);
        } else {
          DropObserver(op.w);
          answer := Ok;
        }
      }
      r := Reply(answer, {});
    }

    method Counts() returns (phase: nat, registered: nat, unarrived: nat)
      requires Valid()
      ensures phase == Number(barrier.count) && registered == Sizes(barrier.parties)
      ensures unarrived == AllMissing(barrier.parties, barrier.count)
      ensures !barrier.closed && registered > 0 ==> unarrived > 0
    {
      SomebodyMissing(barrier);
      phase, registered, unarrived := this.phase, this.registered, this.unarrived;
    }
  }

  /** What the handle shows of the party it stands for. */
  lemma Handles(handles: seq<Handle>, b: Barrier, i: nat)
    requires AllStand(handles, b.parties) && Inv(b)
    ensures |handles| == |b.parties|
    ensures i < |handles| ==> (handles[i].Participants? <==> b.parties[i].Batch?)
    ensures i < |handles| ==> (handles[i].Participant? <==> b.parties[i].Member?)
    ensures i < |handles| && handles[i].Participant? ==> b.parties[i].wait == handles[i].wait
    ensures i < |handles| && handles[i].Participant? && handles[i].wait.Some? ==> Waiting(b, i)
  {
    if i < |handles| {
      assert Stands(handles[i], b.parties[i]) && OwnsWait(b.parties, b.watches, i);
    }
  }

  /**
   Every run of the phaser answers as the barrier does, with its phase numbers wrapped, and wakes whom it
   wakes; at the end the two counts are the members and those of them that have not arrived.
   */
  method Play(ops: seq<Op>) returns (replies: seq<Reply>, phase: nat, registered: nat, unarrived: nat)
    requires forall k :: 0 <= k < |ops| ==> InCycle(After(INIT, ops[..k]), ops[k])
    ensures |replies| == |ops|
    ensures forall k :: 0 <= k < |ops| ==> replies[k] == Shown(Replies(INIT, ops)[k])
    ensures var b := After(INIT, ops);
            && phase == Number(b.count) && registered == Sizes(b.parties)
            && unarrived == AllMissing(b.parties, b.count)
            && (!b.closed && registered > 0 ==> unarrived > 0)
  {
    hide Phaser.Valid, Act, InCycle;
    var p := new Phaser();
    replies := [];
    for i := 0 to |ops|
      invariant fresh(p) && p.Valid() && p.barrier == After(INIT, ops[..i])
      invariant |replies| == i && forall k :: 0 <= k < i ==> replies[k] == Shown(Replies(INIT, ops[..i])[k])
    {
      assert ops[..i + 1][..i] == ops[..i];
      var r := p.Apply(ops[i]);
      replies := replies + [r];
    }
    assert ops[..|ops|] == ops;
    phase, registered, unarrived := p.Counts();
  }

  /** A reply as the phaser gives it. */
  function Shown(r: Reply): Reply {
    r.(answer := Numbered(r.answer))
  }

  lemma ParkedLength(waits: seq<Wait>, watches: seq<Watch>, waiters: map<nat, nat>, count: nat, closed: bool)
    requires Parked(waits, watches, waiters, count, closed)
    ensures |waits| == |watches|
  {
  }

  /** A participant's wait in progress watches its arrival, which is less than a cycle old. */
  lemma WaitIs(b: Barrier, i: nat)
    requires Inv(b) && Waiting(b, i)
    ensures var since := b.watches[b.parties[i].wait.value].since;
            b.parties[i].arrived == Some(since) && since <= b.count < since + WRAP
  {
    assert OwnsWait(b.parties, b.watches, i) && Recent(b.parties[i], b.count);
  }

  lemma RecentOf(b: Barrier)
    requires Inv(b)
    ensures AllRecent(b.parties, b.count)
  {
  }

  /** The parts of the invariant that hold before the phase is settled. */
  lemma Arrives(b: Barrier, i: nat)
    requires Inv(b) && Idle(b, i)
    ensures var b' := Put(b, i, Member(Some(b.count), None));
            AllRecent(b'.parties, b.count) && Owned(b'.parties, b.watches) && Sizes(b'.parties) == Sizes(b.parties)
  {
    SizesUpdate(b.parties, i, Member(Some(b.count), None));
    OwnedPut(b.parties, b.watches, i, Member(Some(b.count), None));
  }

  lemma AlertOf(b: Barrier)
    requires Inv(b)
    ensures AllAlert(b.watches, b.count, b.closed)
  {
  }

  /** The parts of the invariant that hold before the phase is settled. */
  lemma Leaves(b: Barrier, i: nat)
    requires Inv(b) && (Idle(b, i) || (i < |b.parties| && b.parties[i].Batch?))
    ensures AllRecent(Put(b, i, Gone).parties, b.count) && Owned(Put(b, i, Gone).parties, b.watches)
    ensures Sizes(Put(b, i, Gone).parties) == Sizes(b.parties) - Size(b.parties[i])
    ensures Size(b.parties[i]) <= Sizes(b.parties)
  {
    SizesUpdate(b.parties, i, Gone);
    OwnedPut(b.parties, b.watches, i, Gone);
  }
}
