/** Which key each call works for, and where the value it returns comes from, in every run. */
module CoalescingCalls {
  import opened Options
  import opened Coalescing

  // ---- Each call and its key ----

  function Spawned<V>(actions: seq<Action<V>>): nat {
    if actions == [] then 0
    else Spawned(actions[..|actions| - 1]) + if actions[|actions| - 1].Spawn? then 1 else 0
  }

  /** The key call `c` was made for: that of its first `GetOrInsert`. */
  function Asked<V>(actions: seq<Action<V>>, c: nat): Option<nat> {
    if actions == [] then None
    else
      var before, a := actions[..|actions| - 1], actions[|actions| - 1];
      if Asked(before, c).None? && a.GetOrInsert? && a.c == c < Spawned(before) then Some(a.key)
      else Asked(before, c)
  }

  lemma {:induction false} RunLast<V>(s: State<V>, actions: seq<Action<V>>)
    requires actions != []
    ensures Run(s, actions) == Step(Run(s, actions[..|actions| - 1]), actions[|actions| - 1])
    decreases |actions|
  {
    if |actions| > 1 {
      var rest := actions[1..];
      RunLast(Step(s, actions[0]), rest);
      assert rest[..|rest| - 1] == actions[..|actions| - 1][1..];
    }
  }

  lemma SpawnCounts<V>(s: State<V>, a: Action<V>)
    ensures if a.Spawn? then Step(s, a).calls == s.calls + [Fresh] else |Step(s, a).calls| == |s.calls|
  {
  }

  lemma OnlyOwnSteps<V>(s: State<V>, a: Action<V>, c: nat)
    requires c < |s.calls| && (a.Spawn? || a.Forget? || a.c != c)
    ensures c < |Step(s, a).calls| && Step(s, a).calls[c] == s.calls[c]
  {
  }

  /** A call is on the entry of the key it was made for. */
  predicate ForKey<V>(s: State<V>, c: nat, asked: Option<nat>)
    requires c < |s.calls|
  {
    var call := s.calls[c];
    if call.Fresh? then asked.None?
    else asked.Some? && (!call.Failed? ==> call.e < |s.entries| && s.entries[call.e].key == asked.value)
  }

  /** Entries keep their keys, and calls their entries. */
  lemma StepForKey<V>(s: State<V>, a: Action<V>, c: nat, asked: Option<nat>)
    requires Inv(s) && c < |s.calls| && ForKey(s, c, asked)
    ensures c < |Step(s, a).calls|
    ensures ForKey(Step(s, a), c, if asked.None? && a.GetOrInsert? && a.c == c then Some(a.key) else asked)
  {
    hide Inv, Step;
    if !a.Spawn? && !a.Forget? && a.c == c {
      OwnStepForKey(s, a, asked);
    } else {
      EntriesKeepKeys(s, a);
      OnlyOwnSteps(s, a, c);
    }
  }

  lemma EntriesKeepKeys<V>(s: State<V>, a: Action<V>)
    ensures var s' := Step(s, a);
            |s.entries| <= |s'.entries| && forall e :: 0 <= e < |s.entries| ==> s'.entries[e].key == s.entries[e].key
  {
  }

  lemma OwnStepForKey<V>(s: State<V>, a: Action<V>, asked: Option<nat>)
    requires Inv(s) && !a.Spawn? && !a.Forget? && a.c < |s.calls| && ForKey(s, a.c, asked)
    ensures a.c < |Step(s, a).calls|
    ensures ForKey(Step(s, a), a.c, if asked.None? && a.GetOrInsert? then Some(a.key) else asked)
  {
    assert CallOk(s, a.c);
  }

  lemma {:induction false} RunForKey<V>(keep: bool, actions: seq<Action<V>>, c: nat)
    ensures var s := Run(Init<V>(keep), actions);
            && |s.calls| == Spawned(actions)
            && (if c < |s.calls| then ForKey(s, c, Asked(actions, c)) else Asked(actions, c).None?)
    decreases |actions|
  {
    if actions != [] {
      var before, a := actions[..|actions| - 1], actions[|actions| - 1];
      var s := Run(Init<V>(keep), before);
      RunLast(Init<V>(keep), actions);
      RunForKey(keep, before, c);
      RunKeeps(Init<V>(keep), before);
      SpawnCounts(s, a);
      hide Inv, Step;
      if c < |s.calls| {
        StepForKey(s, a, c, Asked(before, c));
      }
    }
  }

  /** In every run: a call works on the entry of the very key it was made for. */
  lemma OwnKey<V>(keep: bool, actions: seq<Action<V>>, c: nat)
    ensures var s := Run(Init<V>(keep), actions);
            c < |s.calls| && !s.calls[c].Fresh? && !s.calls[c].Failed? ==>
              s.calls[c].e < |s.entries| && Asked(actions, c) == Some(s.entries[s.calls[c].e].key)
  {
    RunForKey(keep, actions, c);
  }

  /** Calls for different keys never share an entry. */
  lemma KeysApart<V>(keep: bool, actions: seq<Action<V>>, c: nat, d: nat)
    ensures var s := Run(Init<V>(keep), actions);
            c < |s.calls| && !s.calls[c].Fresh? && !s.calls[c].Failed? &&
            d < |s.calls| && !s.calls[d].Fresh? && !s.calls[d].Failed? ==>
              (Asked(actions, c) != Asked(actions, d) ==> s.calls[c].e != s.calls[d].e)
  {
    OwnKey(keep, actions, c);
    OwnKey(keep, actions, d);
  }

  // ---- Where values come from ----

  predicate HasValue<V>(call: Call<V>) {
    call.Publishing? || call.Published? || call.Finishing? || call.Returned?
  }

  /** At `i` a call made for `key` computed `v`, for the entry `e`. */
  ghost predicate ComputedAt<V(!new)>(keep: bool, actions: seq<Action<V>>, i: nat, e: nat, v: V, key: nat) {
    && i < |actions| && actions[i].Succeed? && actions[i].v == v
    && var s := Run(Init<V>(keep), actions[..i]);
       var d := actions[i].c;
       d < |s.calls| && s.calls[d] == Running(e) && Asked(actions[..i], d) == Some(key)
  }

  ghost predicate Computed<V(!new)>(keep: bool, actions: seq<Action<V>>, e: nat, v: V, key: nat) {
    exists i :: 0 <= i < |actions| && ComputedAt(keep, actions, i, e, v, key)
  }

  /** Every value in an entry, or with a call, was computed for that entry's key. */
  ghost predicate AllComputed<V(!new)>(keep: bool, actions: seq<Action<V>>, s: State<V>) {
    && (forall e :: 0 <= e < |s.entries| && s.entries[e].value.Some? ==>
          Computed(keep, actions, e, s.entries[e].value.value, s.entries[e].key))
    && (forall c :: 0 <= c < |s.calls| && HasValue(s.calls[c]) ==>
          && s.calls[c].e < |s.entries|
          && Computed(keep, actions, s.calls[c].e, s.calls[c].v, s.entries[s.calls[c].e].key))
  }

  lemma ComputedStays<V(!new)>(keep: bool, actions: seq<Action<V>>, e: nat, v: V, key: nat)
    requires actions != [] && Computed(keep, actions[..|actions| - 1], e, v, key)
    ensures Computed(keep, actions, e, v, key)
  {
    var before := actions[..|actions| - 1];
    var i :| 0 <= i < |before| && ComputedAt(keep, before, i, e, v, key);
    assert before[..i] == actions[..i];
    assert ComputedAt(keep, actions, i, e, v, key);
  }

  /** A step stores only what a call is publishing. */
  lemma StepStores<V>(s: State<V>, a: Action<V>, e: nat)
    requires Inv(s) && e < |Step(s, a).entries| && Step(s, a).entries[e].value.Some?
    ensures var v := Step(s, a).entries[e].value.value;
            e < |s.entries| && (|| s.entries[e].value == Some(v)
                                || exists c :: 0 <= c < |s.calls| && s.calls[c] == Publishing(e, v))
  {
    if a.SetValue? && a.c < |s.calls| && s.calls[a.c].Publishing? {
      assert CallOk(s, a.c);
    }
  }

  /** A call has a value from its entry, or by computing it. */
  ghost predicate Obtains<V(!new)>(s: State<V>, a: Action<V>, c: nat, call: Call<V>)
    requires HasValue(call)
  {
    && c < |s.calls| && call.e < |s.entries|
    && (|| (HasValue(s.calls[c]) && s.calls[c].e == call.e && s.calls[c].v == call.v)
        || s.entries[call.e].value == Some(call.v)
        || (a == Succeed(c, call.v) && s.calls[c] == Running(call.e)))
  }

  lemma OwnStepObtains<V(!new)>(s: State<V>, a: Action<V>)
    requires Inv(s) && !a.Spawn? && !a.Forget? && a.c < |s.calls| && HasValue(Step(s, a).calls[a.c])
    ensures Obtains(s, a, a.c, Step(s, a).calls[a.c])
  {
    hide Inv, StrongCount, Lapsed, Produced;
    CallHere(s, a.c);
  }

  lemma CallHere<V>(s: State<V>, c: nat)
    requires Inv(s) && c < |s.calls|
    ensures CallOk(s, c)
  {
  }

  lemma StepObtains<V(!new)>(s: State<V>, a: Action<V>, c: nat)
    requires Inv(s) && c < |Step(s, a).calls| && HasValue(Step(s, a).calls[c])
    ensures Obtains(s, a, c, Step(s, a).calls[c])
  {
    SpawnCounts(s, a);
    if c < |s.calls| {
      assert CallOk(s, c);
      hide Step, TableOk;
      if !a.Spawn? && !a.Forget? && a.c == c {
        OwnStepObtains(s, a);
      } else {
        OnlyOwnSteps(s, a, c);
      }
    }
  }

  lemma EntriesComputed<V(!new)>(keep: bool, actions: seq<Action<V>>, s: State<V>, a: Action<V>)
    requires actions != [] && a == actions[|actions| - 1] && s == Run(Init<V>(keep), actions[..|actions| - 1])
    requires Inv(s) && AllComputed(keep, actions[..|actions| - 1], s)
    ensures forall e :: 0 <= e < |Step(s, a).entries| && Step(s, a).entries[e].value.Some? ==>
              Computed(keep, actions, e, Step(s, a).entries[e].value.value, Step(s, a).entries[e].key)
  {
    hide Inv, Step, Run, Computed;
    var entries' := Step(s, a).entries;
    forall e | 0 <= e < |entries'| && entries'[e].value.Some?
      ensures Computed(keep, actions, e, entries'[e].value.value, entries'[e].key)
    {
      EntriesKeepKeys(s, a);
      StepStores(s, a, e);
      ComputedStays(keep, actions, e, entries'[e].value.value, entries'[e].key);
    }
  }

  lemma CallsComputed<V(!new)>(keep: bool, actions: seq<Action<V>>, s: State<V>, a: Action<V>)
    requires actions != [] && a == actions[|actions| - 1] && s == Run(Init<V>(keep), actions[..|actions| - 1])
    requires Inv(s) && AllComputed(keep, actions[..|actions| - 1], s)
    ensures forall c :: 0 <= c < |Step(s, a).calls| && HasValue(Step(s, a).calls[c]) ==>
              var call := Step(s, a).calls[c];
              && call.e < |Step(s, a).entries|
              && Computed(keep, actions, call.e, call.v, Step(s, a).entries[call.e].key)
  {
    hide Inv, Step, Run, Computed;
    var s' := Step(s, a);
    forall c | 0 <= c < |s'.calls| && HasValue(s'.calls[c])
      ensures s'.calls[c].e < |s'.entries|
      ensures Computed(keep, actions, s'.calls[c].e, s'.calls[c].v, s'.entries[s'.calls[c].e].key)
    {
      var call := s'.calls[c];
      EntriesKeepKeys(s, a);
      StepObtains(s, a, c);
      if a == Succeed(c, call.v) && s.calls[c] == Running(call.e) {
        NewlyComputed(keep, actions, c, call.e, call.v);
      } else {
        ComputedStays(keep, actions, call.e, call.v, s'.entries[call.e].key);
      }
    }
  }

  lemma NewlyComputed<V(!new)>(keep: bool, actions: seq<Action<V>>, c: nat, e: nat, v: V)
    requires actions != [] && actions[|actions| - 1] == Succeed(c, v)
    requires var s := Run(Init<V>(keep), actions[..|actions| - 1]); c < |s.calls| && s.calls[c] == Running(e)
    ensures var s := Run(Init<V>(keep), actions[..|actions| - 1]);
            e < |s.entries| && Computed(keep, actions, e, v, s.entries[e].key)
  {
    var i := |actions| - 1;
    OwnKey(keep, actions[..i], c);
    assert ComputedAt(keep, actions, i, e, v, Run(Init<V>(keep), actions[..i]).entries[e].key);
  }

  lemma {:induction false} RunComputes<V(!new)>(keep: bool, actions: seq<Action<V>>)
    ensures AllComputed(keep, actions, Run(Init<V>(keep), actions))
    decreases |actions|
  {
    if actions != [] {
      var before, a := actions[..|actions| - 1], actions[|actions| - 1];
      var s := Run(Init<V>(keep), before);
      RunLast(Init<V>(keep), actions);
      RunComputes(keep, before);
      RunKeeps(Init<V>(keep), before);
      EntriesKeepKeys(s, a);
      EntriesComputed(keep, actions, s, a);
      CallsComputed(keep, actions, s, a);
    }
  }

  ghost predicate ComputedFor<V(!new)>(keep: bool, actions: seq<Action<V>>, e: nat, v: V, asked: Option<nat>) {
    exists i :: 0 <= i < |actions| && asked.Some? && ComputedAt(keep, actions, i, e, v, asked.value)
  }

  /**
   In every run: the value a call returns was computed, during the run and for the entry they share, by a
   call made for the same key - perhaps itself.
   */
  lemma ComputedForKey<V(!new)>(keep: bool, actions: seq<Action<V>>, c: nat)
    ensures var s := Run(Init<V>(keep), actions);
            c < |s.calls| && s.calls[c].Returned? ==>
              ComputedFor(keep, actions, s.calls[c].e, s.calls[c].v, Asked(actions, c))
  {
    RunComputes(keep, actions);
    OwnKey(keep, actions, c);
  }

  /** A call fails only if it gave up: by an error, a cancellation or a panic of its own. */
  lemma {:induction false} FailsByItself<V>(keep: bool, actions: seq<Action<V>>, c: nat)
    ensures var s := Run(Init<V>(keep), actions);
            c < |s.calls| && (s.calls[c].Abandoning? || s.calls[c].Failed?) ==> GiveUp(c) in actions
    decreases |actions|
  {
    if actions != [] {
      var before, a := actions[..|actions| - 1], actions[|actions| - 1];
      RunLast(Init<V>(keep), actions);
      FailsByItself(keep, before, c);
      hide Step;
      assert actions == before + [a];
      StepFails(Run(Init<V>(keep), before), a, c);
    }
  }

  lemma StepFails<V>(s: State<V>, a: Action<V>, c: nat)
    ensures c < |Step(s, a).calls| && (Step(s, a).calls[c].Abandoning? || Step(s, a).calls[c].Failed?) ==>
              c < |s.calls| && (s.calls[c].Abandoning? || s.calls[c].Failed? || a == GiveUp(c))
  {
    SpawnCounts(s, a);
    if c < |s.calls| && (a.Spawn? || a.Forget? || a.c != c) {
      OnlyOwnSteps(s, a, c);
      hide Step;
    }
  }

  // ---- Nobody is stuck ----

  /** Whoever a permit is booked to owns it, for that entry. */
  ghost predicate Booked<V>(s: State<V>, e: nat)
    requires e < |s.entries|
  {
    s.entries[e].permit.Some? ==>
      var c := s.entries[e].permit.value;
      c < |s.calls| && OwnsPermit(s.calls[c]) && s.calls[c].e == e
  }

  ghost predicate AllBooked<V>(s: State<V>) {
    forall e :: 0 <= e < |s.entries| ==> Booked(s, e)
  }

  /** A call that moves on with its permit keeps it booked, and one that moves on without has given it back. */
  lemma OwnStepBooks<V>(s: State<V>, a: Action<V>, e: nat)
    requires Inv(s) && AllBooked(s) && !a.Spawn? && !a.Forget? && a.c < |s.calls| && e < |Step(s, a).entries|
    ensures Booked(Step(s, a), e)
  {
    hide Inv, StrongCount, Lapsed, Produced;
    CallHere(s, a.c);
    assert e < |s.entries| ==> Booked(s, e);
  }

  lemma StepBooks<V>(s: State<V>, a: Action<V>)
    requires Inv(s) && AllBooked(s)
    ensures AllBooked(Step(s, a))
  {
    var s' := Step(s, a);
    if a.Spawn? || a.Forget? || a.c >= |s.calls| {
      hide Inv;
      forall e | 0 <= e < |s'.entries|
        ensures Booked(s', e)
      {
        assert Booked(s, e);
      }
    } else {
      hide Inv, Step, Booked;
      forall e | 0 <= e < |s'.entries|
        ensures Booked(s', e)
      {
        OwnStepBooks(s, a, e);
      }
    }
  }

  lemma {:induction false} RunBooks<V>(s: State<V>, actions: seq<Action<V>>)
    requires Inv(s) && AllBooked(s)
    ensures AllBooked(Run(s, actions))
    decreases |actions|
  {
    if actions != [] {
      hide Inv, Step, AllBooked;
      StepKeeps(s, actions[0]);
      StepBooks(s, actions[0]);
      RunBooks(Step(s, actions[0]), actions[1..]);
    }
  }

  /** How far a call is from its end. */
  function Distance<V>(call: Call<V>): nat {
    match call
    case Fresh => 8
    case Holding(_) => 7
    case Waiting(_) => 6
    case Owning(_) => 5
    case Running(_) => 4
    case Publishing(_, _) => 3
    case Published(_, _) => 2
    case Finishing(_, _) => 1
    case Abandoning(_) => 1
    case Returned(_, _) => 0
    case Failed => 0
  }

  /** The step a call takes next by itself; a running one waits for its function, which succeeds with `v`. */
  function NextStep<V>(call: Call<V>, c: nat, key: nat, v: V): Action<V> {
    match call
    case Fresh => GetOrInsert(c, key)
    case Holding(_) => Check(c)
    case Waiting(_) => TakePermit(c)
    case Owning(_) => Recheck(c)
    case Running(_) => Succeed(c, v)
    case Publishing(_, _) => SetValue(c)
    case Published(_, _) => DropPermit(c)
    case Abandoning(_) => Cleanup(c)
    case _ => Dismiss(c)
  }

  /** Each step brings a call nearer to its end; only a wait for a permit that is booked stays where it is. */
  lemma NextStepAdvances<V>(s: State<V>, c: nat, key: nat, v: V)
    requires Inv(s) && c < |s.calls| && Distance(s.calls[c]) > 0
    ensures var call := s.calls[c];
            var s' := Step(s, NextStep(call, c, key, v));
            && |s'.calls| == |s.calls|
            && (|| Distance(s'.calls[c]) < Distance(call)
                || (call.Waiting? && call.e < |s.entries| && s.entries[call.e].permit.Some?))
  {
    hide Inv, StrongCount, Lapsed, Produced;
    CallHere(s, c);
  }

  /**
   In every run: a call that cannot go on waits for a permit whose owner is another call for the same
   entry, and that one can.
   */
  lemma NobodyIsStuck<V>(keep: bool, actions: seq<Action<V>>, c: nat, key: nat, v: V)
    ensures var s := Run(Init<V>(keep), actions);
            c < |s.calls| && Distance(s.calls[c]) > 0 ==>
              var call := s.calls[c];
              var s' := Step(s, NextStep(call, c, key, v));
              && |s'.calls| == |s.calls|
              && (|| Distance(s'.calls[c]) < Distance(call)
                  || (&& call.Waiting? && call.e < |s.entries| && s.entries[call.e].permit.Some?
                      && var d := s.entries[call.e].permit.value;
                         d < |s.calls| && OwnsPermit(s.calls[d]) && s.calls[d].e == call.e))
  {
    RunKeeps(Init<V>(keep), actions);
    RunBooks(Init<V>(keep), actions);
    var s := Run(Init<V>(keep), actions);
    if c < |s.calls| && Distance(s.calls[c]) > 0 {
      NextStepAdvances(s, c, key, v);
      CallHere(s, c);
      assert s.calls[c].Waiting? ==> Booked(s, s.calls[c].e);
    }
    hide Inv, Step;
  }

  /** A key that is forgotten starts afresh: the next call for it makes an entry of its own. */
  lemma ForgottenStartsAfresh<V>(s: State<V>, key: nat, c: nat)
    requires c < |s.calls| && s.calls[c].Fresh?
    ensures var forgot := Step(s, Forget(key));
            var s' := Step(forgot, GetOrInsert(c, key));
            && key !in forgot.table && forgot.calls == s.calls && forgot.entries == s.entries
            && s'.calls[c] == Holding(|s.entries|) && |s'.entries| == |s.entries| + 1
            && s'.entries[|s.entries|] == Entry(key, None, None)
  {
  }

  /** A call for a key in the table joins the entry that is there. */
  lemma JoinsWhatIsThere<V>(s: State<V>, key: nat, c: nat)
    requires c < |s.calls| && s.calls[c].Fresh? && key in s.table
    ensures Step(s, GetOrInsert(c, key)) == s.(calls := s.calls[c := Holding(s.table[key])])
  {
  }

  /** What an entry holds is returned without waiting. */
  lemma StoredIsReturned<V>(s: State<V>, c: nat)
    requires c < |s.calls| && s.calls[c].Holding? && s.calls[c].e < |s.entries| && s.entries[s.calls[c].e].value.Some?
    ensures var e := s.calls[c].e;
            Step(Step(s, Check(c)), Dismiss(c)).calls[c] == Returned(e, s.entries[e].value.value)
  {
  }
}
