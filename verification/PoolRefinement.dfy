/** The slot state's own methods carry out what the steps of the pool do under the slot lock. */
module PoolRefinement {
  import Semaphores
  import SemaphoreGuards
  import opened Options
  import opened PoolStates
  import opened Pools
  import opened PoolSafety

  ghost predicate Shows<T(!new)>(state: PoolState<T>, p: Pool<T>)
    reads state
  {
    state.idle == p.idle && state.currentSize == p.size
  }

  /** The client may take this step now. */
  predicate At<T>(p: Pool<T>, c: nat, a: Action<T>) {
    && c < |p.clients|
    && match a
       case Pop(_) => p.clients[c].Deciding?
       case Created(_, _) => p.clients[c].Creating?
       case CheckFails(_) => p.clients[c].Checking?
       case CancelCheck(_) => p.clients[c].Checking?
       case Return(_) => p.clients[c].Using?
       case Detach(_) => p.clients[c].Using?
       case Store(_, _) => p.clients[c].Filling? && p.clients[c].n > 0
       case _ => false
  }

  predicate ByClient<T>(a: Action<T>) {
    a.Pop? || a.Created? || a.CheckFails? || a.CancelCheck? || a.Return? || a.Detach? || a.Store?
  }

  /** Every other step leaves the objects alone. */
  lemma Untouched<T>(p: Pool<T>, a: Action<T>)
    requires !a.Retain? && !a.RetainPanics? && (ByClient(a) ==> !At(p, a.c, a))
    ensures Step(p, a).idle == p.idle && Step(p, a).size == p.size
  {
  }

  /** What a client's step does to the objects, when the pool has not panicked. */
  lemma Touched<T>(p: Pool<T>, a: Action<T>)
    requires Inv(p) && ByClient(a) && At(p, a.c, a)
    ensures var p' := Step(p, a);
            match a
            case Pop(_) =>
              if p.idle == [] then p'.idle == [] && p'.size == p.size
              else p'.size == p.size && p'.idle == if p.config.fifo then p.idle[1..] else p.idle[..|p.idle| - 1]
            case Created(_, _) => p'.idle == p.idle && p'.size == p.size + 1
            case Store(_, o) => p'.idle == p.idle + [o] && p'.size == p.size + 1
            case Return(c) => p'.idle == p.idle + [p.clients[c].o] && p'.size == p.size
            case CancelCheck(c) =>
              if p.config.detachOnCancel then p'.idle == p.idle && p.size > 0 && p'.size == p.size - 1
              else p'.idle == p.idle + [p.clients[c].o] && p'.size == p.size
            case _ => p'.idle == p.idle && p.size > 0 && p'.size == p.size - 1
  {
    hide Inv;
    StepKeeps(p, a);
    NotPanicked(p);
    NotPanicked(Step(p, a));
  }

  lemma NotPanicked<T>(p: Pool<T>)
    requires Inv(p)
    ensures !p.panicked
  {
  }

  lemma Popped<T>(p: Pool<T>, c: nat)
    requires At(p, c, Pop(c))
    ensures |Step(p, Pop(c)).clients| == |p.clients|
    ensures Step(p, Pop(c)).clients[c] ==
            if p.idle == [] then Creating else Checking(p.idle[if p.config.fifo then 0 else |p.idle| - 1])
  {
  }

  lemma Retained<T>(p: Pool<T>, verdicts: seq<Verdict>)
    requires Inv(p) && |verdicts| == |p.idle|
    ensures |p.idle| <= p.size
    ensures var p' := Step(p, Retain(verdicts));
            if Calm(verdicts) then p'.idle == Kept(p.idle, verdicts) && p'.size - |p'.idle| == p.size - |p.idle|
            else p' == p
  {
    hide Owned, Committed, SemaphoreGuards.Ok;
    StepKeeps(p, Retain(verdicts));
    Shared(p.idle, verdicts);
  }

  /** The slot state's share of a client's step. */
  method FollowClient<T(!new, ==)>(state: PoolState<T>, p: Pool<T>, a: Action<T>) returns (popped: Option<T>)
    requires Inv(p) && Shows(state, p) && ByClient(a) && At(p, a.c, a)
    modifies state
    ensures Shows(state, Step(p, a))
    ensures a.Pop? ==> popped.None? == (p.idle == [])
    ensures a.Pop? && popped.Some? ==> popped.value == p.idle[if p.config.fifo then 0 else |p.idle| - 1]
  {
    hide Inv, Step;
    Touched(p, a);
    popped := None;
    if a.Pop? {
      popped := state.Pop(p.config.fifo);
    } else if a.Created? {
      state.AddActive();
    } else if a.Store? {
      state.AddIdle(a.o);
    } else if a.Return? || (a.CancelCheck? && !p.config.detachOnCancel) {
      state.ReturnIdle(p.clients[a.c].o);
    } else {
      var _ := state.Detach();
    }
  }

  /**
   One step of the pool on the slot state: the same objects, in the same order, and the same count. A
   predicate that panics is the pool's panicking step with the order the state is left in.
   */
  method Follow<T(!new, ==)>(state: PoolState<T>, p: Pool<T>, a: Action<T>) returns (taken: Action<T>, popped: Option<T>)
    requires Inv(p) && Shows(state, p) && !a.RetainPanics?
    modifies state
    ensures Shows(state, Step(p, taken))
    ensures taken == a || (a.Retain? && !Calm(a.verdicts) && taken == RetainPanics(state.idle))
    ensures a.Pop? && At(p, a.c, a) ==>
              && |Step(p, a).clients| == |p.clients|
              && Step(p, a).clients[a.c] == if popped.Some? then Checking(popped.value) else Creating
  {
    hide Inv;
    taken, popped := a, None;
    if a.Retain? {
      if |a.verdicts| == |p.idle| {
        Retained(p, a.verdicts);
        var removed := state.Retain(a.verdicts);
        if removed.None? {
          taken := RetainPanics(state.idle);
        }
      }
    } else if ByClient(a) && At(p, a.c, a) {
      if a.Pop? {
        Popped(p, a.c);
      }
      hide Step;
      popped := FollowClient(state, p, a);
    } else {
      Untouched(p, a);
    }
  }

  /**
   Every run of the pool can be played on the slot state: it ends with the run's idle objects, in their
   order, and the run's count. The actions taken are the script's, a panicking `retain` apart.
   */
  method Replay<T(!new, ==)>(config: Config, actions: seq<Action<T>>)
    returns (taken: seq<Action<T>>, idle: seq<T>, size: nat)
    requires 0 < config.max <= Semaphores.MAX
    requires forall k :: 0 <= k < |actions| ==> !actions[k].RetainPanics?
    ensures |taken| == |actions|
    ensures forall k :: 0 <= k < |actions| ==>
              taken[k] == actions[k] || (actions[k].Retain? && !Calm(actions[k].verdicts) && taken[k].RetainPanics?)
    ensures idle == Run(Init<T>(config), taken).idle && size == Run(Init<T>(config), taken).size
  {
    hide Inv, Step, Init;
    var state := new PoolState<T>();
    var p := Init<T>(config);
    taken := [];
    Starts<T>(config);
    for i := 0 to |actions|
      invariant fresh(state) && |taken| == i && Inv(p) && Shows(state, p) && p == Run(Init<T>(config), taken)
      invariant forall k :: 0 <= k < i ==>
                  taken[k] == actions[k] || (actions[k].Retain? && !Calm(actions[k].verdicts) && taken[k].RetainPanics?)
    {
      var a, popped := Follow(state, p, actions[i]);
      StepKeeps(p, a);
      RunSnoc(Init<T>(config), taken, a);
      p := Step(p, a);
      taken := taken + [a];
    }
    idle, size := state.idle, state.currentSize;
  }

  lemma Starts<T>(config: Config)
    requires 0 < config.max <= Semaphores.MAX
    ensures Inv(Init<T>(config)) && Init<T>(config).idle == [] && Init<T>(config).size == 0
  {
  }

  lemma {:induction false} RunSnoc<T>(p: Pool<T>, actions: seq<Action<T>>, a: Action<T>)
    ensures Run(p, actions + [a]) == Step(Run(p, actions), a)
    decreases |actions|
  {
    hide Step;
    if actions == [] {
      assert Run(p, [a]) == Run(Step(p, a), []);
    } else {
      RunSnoc(Step(p, actions[0]), actions[1..], a);
      assert (actions + [a])[1..] == actions[1..] + [a];
    }
  }
}
