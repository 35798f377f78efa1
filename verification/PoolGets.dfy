/** What a `get` goes through until it has an object, and what it can be sure of then. */
module PoolGets {
  import Semaphores
  import opened SemaphoreGuards
  import opened PoolStates
  import opened Pools
  import opened PoolSafety

  lemma {:induction false} RunLast<T>(p: Pool<T>, actions: seq<Action<T>>)
    requires actions != []
    ensures Run(p, actions) == Step(Run(p, actions[..|actions| - 1]), actions[|actions| - 1])
    decreases |actions|
  {
    if |actions| > 1 {
      hide Step;
      var rest := actions[1..];
      RunLast(Step(p, actions[0]), rest);
      assert rest[..|rest| - 1] == actions[..|actions| - 1][1..];
    }
  }

  /** A `get` that owns its permit and has no object yet. */
  predicate Looking<T>(client: Client<T>) {
    client.Deciding? || client.Creating? || client.Checking?
  }

  /** The action makes the object it names the client's: a creation that succeeds, or a check that passes. */
  ghost predicate Obtains<T>(client: Client<T>, a: Action<T>, c: nat, o: T) {
    || (client.Creating? && a == Created(c, o))
    || (client == Checking(o) && a == CheckPasses(c))
  }

  /** How one client may fare in a step. */
  ghost predicate Fares<T>(client: Client<T>, a: Action<T>, client': Client<T>, c: nat) {
    || client' == client
    || (&& (client'.Using? ==> Obtains(client, a, c, client'.o))
        && (Looking(client) ==> Looking(client') || client'.Using? || a == CreateStops(c) || a == CancelCheck(c)))
  }

  ghost predicate AllFare<T>(p: Pool<T>, a: Action<T>, p': Pool<T>, c: nat) {
    |p'.clients| == |p.clients| && (c < |p.clients| ==> Fares(p.clients[c], a, p'.clients[c], c))
  }

  lemma GetFares<T>(p: Pool<T>, a: Action<T>, c: nat)
    ensures AllFare(p, a, GetStep(p, a), c)
  {
    hide Semaphores.Step;
  }

  lemma ObjectsMoveNobody<T>(p: Pool<T>, o: T)
    ensures DetachObject(p, o).clients == RestoreIdle(p, o).clients == AddNew(p, o).clients == p.clients
  {
  }

  lemma PopFares<T>(p: Pool<T>, c: nat)
    requires c < |p.clients|
    ensures var p' := PopStep(p, c);
            |p'.clients| == |p.clients| && p'.clients == p.clients[c := p'.clients[c]]
            && (p'.clients[c].Creating? || p'.clients[c].Checking?)
  {
  }

  lemma ObjectFares<T>(p: Pool<T>, a: Action<T>, c: nat)
    ensures AllFare(p, a, ObjectStep(p, a), c)
  {
    hide DetachObject, RestoreIdle, AddNew, PopStep;
    if a.Pop? && a.c < |p.clients| {
      PopFares(p, a.c);
    } else if a.Created? {
      ObjectsMoveNobody(p, a.o);
    } else if (a.CheckFails? || a.CancelCheck? || a.Return? || a.Detach?) && a.c < |p.clients| {
      if p.clients[a.c].Checking? || p.clients[a.c].Using? {
        ObjectsMoveNobody(p, p.clients[a.c].o);
      }
    }
  }

  lemma ReplenishFares<T>(p: Pool<T>, a: Action<T>, c: nat)
    ensures AllFare(p, a, ReplenishStep(p, a), c)
  {
    hide Semaphores.Step;
  }

  lemma StepFares<T>(p: Pool<T>, a: Action<T>, c: nat)
    ensures if a.Arrive? then Step(p, a).clients == p.clients + [Gone] else AllFare(p, a, Step(p, a), c)
  {
    hide GetStep, ObjectStep, ReplenishStep;
    GetFares(p, a, c);
    ObjectFares(p, a, c);
    ReplenishFares(p, a, c);
  }

  /** An object comes into a client's hands in no other way. */
  lemma StepObtains<T>(p: Pool<T>, a: Action<T>, c: nat)
    requires c < |Step(p, a).clients| && Step(p, a).clients[c].Using?
    ensures c < |p.clients|
    ensures p.clients[c] == Step(p, a).clients[c] || Obtains(p.clients[c], a, c, Step(p, a).clients[c].o)
  {
    hide Step;
    StepFares(p, a, c);
  }

  ghost predicate ObtainedAt<T(!new)>(p: Pool<T>, actions: seq<Action<T>>, c: nat, o: T, k: nat) {
    && k < |actions|
    && c < |Run(p, actions[..k]).clients| && Obtains(Run(p, actions[..k]).clients[c], actions[k], c, o)
  }

  /** In every run: whoever uses an object had it created for them, or taken from the idle ones and checked. */
  lemma {:induction false} UsedWasChecked<T(!new)>(config: Config, actions: seq<Action<T>>, c: nat)
    ensures var p := Run(Init<T>(config), actions);
            c < |p.clients| && p.clients[c].Using? ==>
              exists k :: 0 <= k < |actions| && ObtainedAt(Init<T>(config), actions, c, p.clients[c].o, k)
  {
    var init, p := Init<T>(config), Run(Init<T>(config), actions);
    if actions != [] && c < |p.clients| && p.clients[c].Using? {
      hide Step, Obtains;
      var before, a := actions[..|actions| - 1], actions[|actions| - 1];
      UsedWasChecked(config, before, c);
      RunLast(init, actions);
      StepObtains(Run(init, before), a, c);
      if Obtains(Run(init, before).clients[c], a, c, p.clients[c].o) {
        assert ObtainedAt(init, actions, c, p.clients[c].o, |before|);
      } else {
        var k :| 0 <= k < |before| && ObtainedAt(init, before, c, p.clients[c].o, k);
        assert before[..k] == actions[..k];
        assert ObtainedAt(init, actions, c, p.clients[c].o, k);
      }
    }
  }

  /** One step of the search: it goes on, or succeeds, unless creation fails or the caller cancels. */
  lemma StepLooks<T>(p: Pool<T>, a: Action<T>, c: nat)
    requires c < |p.clients| && Looking(p.clients[c]) && a != CreateStops(c) && a != CancelCheck(c)
    ensures c < |Step(p, a).clients| && (Looking(Step(p, a).clients[c]) || Step(p, a).clients[c].Using?)
  {
    hide Step;
    StepFares(p, a, c);
  }

  /**
   In every run: a search for an object ends by finding one, unless a creation fails or the caller
   cancels - however many checks fail on the way.
   */
  lemma {:induction false} KeepsLooking<T>(p: Pool<T>, actions: seq<Action<T>>, c: nat)
    requires c < |p.clients| && Looking(p.clients[c])
    requires CreateStops(c) !in actions && CancelCheck(c) !in actions
    ensures || (exists k :: 0 <= k <= |actions| && FoundAt(p, actions, c, k))
            || (c < |Run(p, actions).clients| && Looking(Run(p, actions).clients[c]))
  {
    if actions != [] {
      hide Step;
      var before, a := actions[..|actions| - 1], actions[|actions| - 1];
      assert a in actions;
      KeepsLooking(p, before, c);
      RunLast(p, actions);
      if k :| 0 <= k <= |before| && FoundAt(p, before, c, k) {
        assert before[..k] == actions[..k];
        assert FoundAt(p, actions, c, k);
      } else {
        StepLooks(Run(p, before), a, c);
        assert actions[..|actions|] == actions;
        assert Run(p, actions).clients[c].Using? ==> FoundAt(p, actions, c, |actions|);
      }
    }
  }

  predicate FoundAt<T>(p: Pool<T>, actions: seq<Action<T>>, c: nat, k: nat)
    requires k <= |actions|
  {
    c < |Run(p, actions[..k]).clients| && Run(p, actions[..k]).clients[c].Using?
  }

  /** An object that fails its check leaves the pool for good, and the search goes on with the next. */
  lemma FailedCheckRetries<T>(p: Pool<T>, c: nat)
    requires Inv(p) && c < |p.clients| && p.clients[c].Checking?
    ensures var p' := Step(p, CheckFails(c));
            && c < |p'.clients| && p'.clients[c].Deciding?
            && p'.left == p.left + multiset{p.clients[c].o} && p'.size == p.size - 1
  {
    hide Inv;
    OwnerCounts(p, c);
  }

  /** The search creates an object only when none is idle; otherwise it checks one that was. */
  lemma LooksAtIdleFirst<T>(p: Pool<T>, c: nat)
    requires c < |p.clients| && p.clients[c].Deciding?
    ensures var client := Step(p, Pop(c)).clients[c];
            if p.idle == [] then client.Creating? && Step(p, Pop(c)).idle == []
            else
              && client.Checking? && client.o == (if p.config.fifo then p.idle[0] else p.idle[|p.idle| - 1])
              && multiset(Step(p, Pop(c)).idle) + multiset{client.o} == multiset(p.idle)
  {
    if p.idle != [] {
      WithoutAnEnd(p.idle);
    }
  }

  /** An object is back at the end of the idle queue, or out of the pool; nothing else has moved. */
  ghost predicate BackIn<T>(p: Pool<T>, p': Pool<T>, c: nat, o: T) {
    && |p'.clients| == |p.clients| && c < |p.clients| && p'.clients[c].Leaving?
    && p'.idle == p.idle + [o] && p'.left == p.left && p'.made == p.made
  }

  ghost predicate TakenOut<T>(p: Pool<T>, p': Pool<T>, c: nat, o: T) {
    && |p'.clients| == |p.clients| && c < |p.clients| && p'.clients[c].Leaving?
    && p'.idle == p.idle && p'.left == p.left + multiset{o} && p'.made == p.made
  }

  /** A returned object goes to the end of the idle queue, a detached one out of the pool. */
  lemma WhereObjectsGo<T>(p: Pool<T>, c: nat)
    requires Inv(p) && c < |p.clients| && p.clients[c].Using?
    ensures BackIn(p, Step(p, Return(c)), c, p.clients[c].o)
    ensures TakenOut(p, Step(p, Detach(c)), c, p.clients[c].o)
  {
    hide Inv;
    OwnerCounts(p, c);
  }

  /** One whose check is cancelled goes where the configured strategy says. */
  lemma CancelledCheck<T>(p: Pool<T>, c: nat)
    requires Inv(p) && c < |p.clients| && p.clients[c].Checking?
    ensures if p.config.detachOnCancel then TakenOut(p, Step(p, CancelCheck(c)), c, p.clients[c].o)
            else BackIn(p, Step(p, CancelCheck(c)), c, p.clients[c].o)
  {
    hide Inv;
    OwnerCounts(p, c);
  }

  /** A creation that fails or is cancelled leaves nothing behind but the permit, which goes next. */
  lemma StoppedCreation<T>(p: Pool<T>, c: nat)
    requires c < |p.clients| && p.clients[c].Creating?
    ensures Step(p, CreateStops(c)) == p.(clients := p.clients[c := Leaving])
  {
  }

  /** On its way to an object a `get` moves on with each event it waits for. */
  lemma GetAdvances<T>(p: Pool<T>, c: nat, o: T)
    requires Inv(p) && c < |p.clients|
    ensures p.clients[c].Gone? ==> Step(p, Get(c)).clients == p.clients[c := Waiting]
    ensures p.clients[c].Waiting? ==>
              Step(p, Acquired(c)).clients == if Ready(p.g, c) then p.clients[c := Deciding] else p.clients
    ensures p.clients[c].Creating? ==> Step(p, Created(c, o)).clients == p.clients[c := Using(o)]
    ensures p.clients[c].Checking? ==> Step(p, CheckPasses(c)).clients == p.clients[c := Using(p.clients[c].o)]
  {
    hide Ok, Tracked, Bounded, Semaphores.Step;
    assert Fits(p.clients[c], p.g.sides[c]);
  }

  /** Done with its object, a client gives its permit back and is gone. */
  lemma GivesPermitBack<T>(p: Pool<T>, c: nat, t: nat)
    requires Inv(p) && c < |p.clients| && p.clients[c].Leaving? && IdleThread(p.g, t)
    ensures var p' := Step(p, DropPermit(c, t));
            && p'.clients == p.clients[c := Gone] && p'.idle == p.idle
            && c < |p'.g.sides| && p'.g.sides[c] == Side(0, NoWait)
            && p'.g.sem.released == p.g.sem.released + 1
  {
    assert Fits(p.clients[c], p.g.sides[c]);
    hide Ok, Tracked, Bounded, Held;
  }

  /** `retain` keeps what its predicate keeps, in order, and counts out the rest. */
  lemma RetainsExactly<T>(p: Pool<T>, verdicts: seq<Verdict>)
    requires Inv(p) && |verdicts| == |p.idle| && Calm(verdicts)
    ensures var p' := Step(p, Retain(verdicts));
            && p'.idle == Kept(p.idle, verdicts) && p'.clients == p.clients
            && p'.left == p.left + multiset(Discarded(p.idle, verdicts))
            && multiset(p'.idle) + multiset(Discarded(p.idle, verdicts)) == multiset(p.idle)
            && p'.size + |p.idle| == p.size + |p'.idle|
  {
    Shared(p.idle, verdicts);
    hide Ok, AllFit, Owned;
  }
}
