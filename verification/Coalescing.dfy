/**
 `singleflight` and `OnceMap`: calls for the same key share one entry, whose cell is initialised by one
 of them at a time. A call that gives up removes the entry from the table if the table and itself are
 its only owners. `keep` tells the two apart: a `OnceMap` keeps initialised entries, a singleflight
 group removes the entry before the result is stored.

 The cell's semaphore of one permit appears here as the permit's owner.
 */
module Coalescing {
  import opened Options

  datatype Entry<V> = Entry(key: nat, permit: Option<nat>, value: Option<V>)

  datatype Call<V> =
    | Fresh
    | Holding(e: nat)
    | Waiting(e: nat)
    | Owning(e: nat)
    | Running(e: nat)
    | Publishing(e: nat, v: V)
    | Published(e: nat, v: V)
    | Finishing(e: nat, v: V)
    | Abandoning(e: nat)
    | Returned(e: nat, v: V)
    | Failed

  /** `detached`: the entries taken out of the table because their key was forgotten, discarded or removed. */
  datatype State<V> = State(
    keep: bool, entries: seq<Entry<V>>, table: map<nat, nat>, calls: seq<Call<V>>, detached: set<nat>)

  datatype Action<V> =
    | Spawn
    | GetOrInsert(c: nat, key: nat)
    | Check(c: nat)
    | TakePermit(c: nat)
    | Recheck(c: nat)
    | Succeed(c: nat, v: V)
    | SetValue(c: nat)
    | DropPermit(c: nat)
    | Dismiss(c: nat)
    // an error, a cancellation or a panic; also a panic while the result is cloned
    | GiveUp(c: nat)
    | Cleanup(c: nat)
    | Forget(key: nat)

  function Init<V>(keep: bool): State<V> {
    State(keep, [], map[], [], {})
  }

  // ---- References ----

  /** The entry a call holds a counted reference to. */
  function Ref<V>(call: Call<V>): Option<nat> {
    match call
    case Fresh => None
    case Returned(_, _) => None
    case Failed => None
    case _ => Some(call.e)
  }

  function Refs<V>(calls: seq<Call<V>>, e: nat): nat {
    if calls == [] then 0
    else Refs(calls[..|calls| - 1], e) + if Ref(calls[|calls| - 1]) == Some(e) then 1 else 0
  }

  /** Owners of an entry, as the reference count tells. */
  function StrongCount<V>(s: State<V>, e: nat): nat {
    Refs(s.calls, e) + if Current(s, e) then 1 else 0
  }

  predicate Current<V>(s: State<V>, e: nat) {
    e < |s.entries| && s.entries[e].key in s.table && s.table[s.entries[e].key] == e
  }

  // ---- Steps ----

  function Put<V>(s: State<V>, c: nat, call: Call<V>): State<V>
    requires c < |s.calls|
  {
    s.(calls := s.calls[c := call])
  }

  function SetPermit<V>(s: State<V>, e: nat, permit: Option<nat>): State<V> {
    if e < |s.entries| then s.(entries := s.entries[e := s.entries[e].(permit := permit)]) else s
  }

  function Take<V>(s: State<V>, e: nat): State<V> {
    if Current(s, e) then s.(table := s.table - {s.entries[e].key}) else s
  }

  function LookUp<V>(s: State<V>, c: nat, key: nat): State<V>
    requires c < |s.calls|
  {
    if key in s.table then Put(s, c, Holding(s.table[key]))
    else
      var e := |s.entries|;
      Put(s.(entries := s.entries + [Entry(key, None, None)], table := s.table[key := e]), c, Holding(e))
  }

  predicate OwnsPermit<V>(call: Call<V>) {
    call.Owning? || call.Running? || call.Publishing? || call.Published?
  }

  /** A reference count of two, and nothing stored: the table and this call are the only owners. */
  function CleanupStep<V>(s: State<V>, c: nat): State<V>
    requires c < |s.calls| && s.calls[c].Abandoning?
  {
    var e := s.calls[c].e;
    if Current(s, e) && StrongCount(s, e) == 2 && s.entries[e].value.None?
    then Put(Take(s, e), c, Failed)
    else Put(s, c, Failed)
  }

  function CallStep<V>(s: State<V>, c: nat, a: Action<V>): State<V>
    requires c < |s.calls|
  {
    var call := s.calls[c];
    match a
    case GetOrInsert(_, key) => if call.Fresh? then LookUp(s, c, key) else s
    case Check(_) =>
      if !call.Holding? || call.e >= |s.entries| then s
      else if s.entries[call.e].value.Some? then Put(s, c, Finishing(call.e, s.entries[call.e].value.value))
      else Put(s, c, Waiting(call.e))
    case TakePermit(_) =>
      if call.Waiting? && call.e < |s.entries| && s.entries[call.e].permit.None?
      then Put(SetPermit(s, call.e, Some(c)), c, Owning(call.e)) else s
    case Recheck(_) =>
      if !call.Owning? || call.e >= |s.entries| then s
      else if s.entries[call.e].value.Some?
      then Put(SetPermit(s, call.e, None), c, Finishing(call.e, s.entries[call.e].value.value))
      else Put(s, c, Running(call.e))
    case Succeed(_, v) =>
      if call.Running? then Put(if s.keep then s else Take(s, call.e), c, Publishing(call.e, v)) else s
    case SetValue(_) =>
      if call.Publishing? && call.e < |s.entries|
      then Put(s.(entries := s.entries[call.e := s.entries[call.e].(value := Some(call.v))]), c, Published(call.e, call.v))
      else s
    case DropPermit(_) =>
      if call.Published? then Put(SetPermit(s, call.e, None), c, Finishing(call.e, call.v)) else s
    case Dismiss(_) => if call.Finishing? then Put(s, c, Returned(call.e, call.v)) else s
    case GiveUp(_) =>
      if call.Owning? || call.Running? then Put(SetPermit(s, call.e, None), c, Abandoning(call.e))
      else if call.Holding? || call.Waiting? || call.Finishing? then Put(s, c, Abandoning(call.e))
      else s
    case Cleanup(_) => if call.Abandoning? then CleanupStep(s, c) else s
    case _ => s
  }

  function Step<V>(s: State<V>, a: Action<V>): State<V> {
    match a
    case Spawn => s.(calls := s.calls + [Fresh])
    case Forget(key) =>
      if key in s.table then s.(table := s.table - {key}, detached := s.detached + {s.table[key]}) else s
    case _ => if a.c < |s.calls| then CallStep(s, a.c, a) else s
  }

  function Run<V>(s: State<V>, actions: seq<Action<V>>): State<V>
    decreases |actions|
  {
    if actions == [] then s else Run(Step(s, actions[0]), actions[1..])
  }

  // ---- What every step keeps ----

  lemma {:induction false} RefsUpdate<V>(calls: seq<Call<V>>, c: nat, call: Call<V>, e: nat)
    requires c < |calls|
    ensures Refs(calls[c := call], e) + (if Ref(calls[c]) == Some(e) then 1 else 0)
         == Refs(calls, e) + if Ref(call) == Some(e) then 1 else 0
  {
    var n := |calls| - 1;
    if c == n {
      assert calls[c := call][..n] == calls[..n];
    } else {
      RefsUpdate(calls[..n], c, call, e);
      assert calls[c := call][..n] == calls[..n][c := call];
    }
  }

  lemma {:induction false} RefsAtLeast<V>(calls: seq<Call<V>>, c: nat, d: nat, e: nat)
    requires c <= d < |calls| && Ref(calls[c]) == Some(e) == Ref(calls[d])
    ensures Refs(calls, e) >= if c == d then 1 else 2
  {
    var n := |calls| - 1;
    if d < n {
      RefsAtLeast(calls[..n], c, d, e);
    } else if c < n {
      RefsAtLeast(calls[..n], c, c, e);
    }
  }

  lemma {:induction false} RefsPositive<V>(calls: seq<Call<V>>, e: nat)
    requires Refs(calls, e) > 0
    ensures exists c :: 0 <= c < |calls| && Ref(calls[c]) == Some(e)
  {
    var n := |calls| - 1;
    if Ref(calls[n]) != Some(e) {
      RefsPositive(calls[..n], e);
      var c :| 0 <= c < n && Ref(calls[..n][c]) == Some(e);
      assert Ref(calls[c]) == Some(e);
    }
  }

  /** The entry itself was in the table when its key was forgotten. */
  predicate Lapsed<V>(s: State<V>, e: nat) {
    e in s.detached
  }

  /** Nobody but `c` holds the entry. */
  ghost predicate OnlyOne<V>(calls: seq<Call<V>>, c: nat, e: nat) {
    forall d :: 0 <= d < |calls| && d != c ==> Ref(calls[d]) != Some(e)
  }

  lemma {:induction false} NoRefs<V>(calls: seq<Call<V>>, e: nat)
    requires forall d :: 0 <= d < |calls| ==> Ref(calls[d]) != Some(e)
    ensures Refs(calls, e) == 0
  {
    if calls != [] {
      NoRefs(calls[..|calls| - 1], e);
    }
  }

  /** A count of one is a count of nobody else. */
  lemma CountsOne<V>(calls: seq<Call<V>>, c: nat, e: nat)
    requires c < |calls| && Ref(calls[c]) == Some(e)
    ensures Refs(calls, e) == 1 <==> OnlyOne(calls, c, e)
  {
    if OnlyOne(calls, c, e) {
      RefsUpdate(calls, c, Failed, e);
      NoRefs(calls[c := Failed], e);
    } else {
      var d :| 0 <= d < |calls| && d != c && Ref(calls[d]) == Some(e);
      RefsAtLeast(calls, if c < d then c else d, if c < d then d else c, e);
    }
  }

  ghost predicate TableOk<V>(s: State<V>) {
    && (forall k :: k in s.table ==> s.table[k] < |s.entries| && s.entries[s.table[k]].key == k)
    // an entry that was detached never comes back
    && (forall e :: e in s.detached ==> e < |s.entries| && !Current(s, e))
    // an entry without a value is somebody's
    && (forall k :: k in s.table && s.entries[s.table[k]].value.None? ==> Refs(s.calls, s.table[k]) > 0)
    // a group holds no finished entries
    && (!s.keep ==> forall k :: k in s.table ==> s.entries[s.table[k]].value.None?)
    // a map keeps them until told otherwise
    && (s.keep ==> forall e :: 0 <= e < |s.entries| && s.entries[e].value.Some? && !Lapsed(s, e) ==> Current(s, e))
  }

  ghost predicate CallOk<V>(s: State<V>, c: nat)
    requires c < |s.calls|
  {
    var call := s.calls[c];
    && (Ref(call).Some? || call.Returned? ==> call.e < |s.entries|)
    && (OwnsPermit(call) ==> s.entries[call.e].permit == Some(c))
    && (call.Running? || call.Publishing? ==> s.entries[call.e].value.None?)
    && (call.Published? || call.Finishing? || call.Returned? ==> s.entries[call.e].value == Some(call.v))
    && (call.Publishing? && !s.keep ==> !Current(s, call.e))
    && (call.Publishing? && s.keep && !Lapsed(s, call.e) ==> Current(s, call.e))
    && (Seeks(call) && !Lapsed(s, call.e) && s.entries[call.e].value.None? ==>
          Current(s, call.e) || Produced(s, call.e))
  }

  predicate Seeks<V>(call: Call<V>) {
    call.Holding? || call.Waiting? || call.Owning? || call.Running?
  }

  /** The permit's owner has computed the value and is about to store it. */
  predicate Produced<V>(s: State<V>, e: nat)
    requires e < |s.entries|
  {
    var p := s.entries[e].permit;
    p.Some? && p.value < |s.calls| && s.calls[p.value].Publishing? && s.calls[p.value].e == e
  }

  ghost predicate Inv<V>(s: State<V>) {
    TableOk(s) && forall c :: 0 <= c < |s.calls| ==> CallOk(s, c)
  }

  /** A change confined to call `c` and, on entry `e`, to the permit and the value. */
  ghost predicate Local<V>(s: State<V>, s': State<V>, c: nat, e: nat)
    requires c < |s.calls|
  {
    && s'.keep == s.keep && s'.detached == s.detached
    && |s'.calls| == |s.calls| && s'.calls == s.calls[c := s'.calls[c]]
    && |s'.entries| == |s.entries| && e < |s.entries|
    && (forall x :: 0 <= x < |s.entries| && x != e ==> s'.entries[x] == s.entries[x])
    && s'.entries[e].key == s.entries[e].key
  }

  /** The others are not concerned while the table stays as it is. */
  lemma OthersKeep<V>(s: State<V>, s': State<V>, c: nat, e: nat, d: nat)
    requires Inv(s) && c < |s.calls| && Local(s, s', c, e) && d < |s.calls| && d != c
    requires s'.entries[e] == s.entries[e]
          || (s.entries[e].permit in {None, Some(c)} && s'.entries[e].permit in {None, Some(c)})
    requires s'.entries[e].value == s.entries[e].value || (s.entries[e].permit == Some(c) && s.entries[e].value.None?)
    requires s'.table == s.table
    requires Ref(s.calls[c]) == Some(e) || Ref(s.calls[c]).None?
    requires Produced(s, e) && s'.entries[e].value.None? ==> Produced(s', e)
    ensures CallOk(s', d)
  {
    assert CallOk(s, d);
  }

  /** Nor when it loses the entry that only `c` holds, or that `c` has just computed the value for. */
  lemma OthersSpared<V>(s: State<V>, s': State<V>, c: nat, e: nat, d: nat)
    requires Inv(s) && c < |s.calls| && Local(s, s', c, e) && d < |s.calls| && d != c
    requires s'.entries == s.entries && s'.table == Take(s, e).table && Ref(s.calls[c]) == Some(e)
    requires Refs(s.calls, e) == 1 || (!s.keep && Produced(s', e))
    requires Produced(s, e) ==> Produced(s', e)
    ensures CallOk(s', d)
  {
    assert CallOk(s, d);
    if Ref(s.calls[d]) == Some(e) {
      RefsAtLeast(s.calls, if c < d then c else d, if c < d then d else c, e);
    }
  }

  /** The table after a change that leaves it alone. */
  lemma TableKeeps<V>(s: State<V>, s': State<V>, c: nat, e: nat)
    requires Inv(s) && c < |s.calls| && Local(s, s', c, e) && s'.table == s.table
    requires s'.entries[e].value == s.entries[e].value || (!s.keep && !Current(s, e))
    requires forall k :: k in s.table && s.entries[s.table[k]].value.None? ==> Refs(s'.calls, s.table[k]) > 0
    ensures TableOk(s')
  {
  }

  lemma PublishedTable<V>(s: State<V>, s': State<V>, c: nat, e: nat)
    requires Inv(s) && c < |s.calls| && Local(s, s', c, e) && s'.table == s.table
    requires s.calls[c].Publishing? && s.calls[c].e == e && s'.entries[e].value.Some?
    requires forall k :: k in s.table && s.entries[s.table[k]].value.None? ==> Refs(s'.calls, s.table[k]) > 0
    ensures TableOk(s')
  {
    assert CallOk(s, c);
  }

  /** A call that keeps its entry, or comes to hold one, leaves no entry alone. */
  lemma StaysHeld<V>(s: State<V>, s': State<V>, c: nat, x: nat)
    requires c < |s.calls| && |s'.calls| == |s.calls| && s'.calls == s.calls[c := s'.calls[c]]
    requires Ref(s'.calls[c]) == Ref(s.calls[c]) || Ref(s.calls[c]).None?
    ensures Refs(s'.calls, x) >= Refs(s.calls, x)
  {
    RefsUpdate(s.calls, c, s'.calls[c], x);
  }

  /** Most steps: the call moves on with its entry; the table stays, and so does the value. */
  lemma MoveKeeps<V>(s: State<V>, s': State<V>, c: nat, e: nat)
    requires Inv(s) && c < |s.calls| && Local(s, s', c, e) && s'.table == s.table
    requires Ref(s.calls[c]) == Some(e) || Ref(s.calls[c]).None?
    requires Ref(s'.calls[c]) == Some(e)
    requires s'.entries[e].value == s.entries[e].value
    requires s'.entries[e] == s.entries[e]
          || (s.entries[e].permit in {None, Some(c)} && s'.entries[e].permit in {None, Some(c)})
    requires Produced(s, e) && s'.entries[e].value.None? ==> Produced(s', e)
    requires CallOk(s', c)
    ensures Inv(s')
  {
    forall k | k in s.table && s.entries[s.table[k]].value.None?
      ensures Refs(s'.calls, s.table[k]) > 0
    {
      StaysHeld(s, s', c, s.table[k]);
    }
    TableKeeps(s, s', c, e);
    forall d | 0 <= d < |s.calls| && d != c
      ensures CallOk(s', d)
    {
      OthersKeep(s, s', c, e, d);
    }
  }

  lemma CheckKeeps<V>(s: State<V>, c: nat)
    requires Inv(s) && c < |s.calls| && s.calls[c].Holding?
    ensures Inv(CallStep(s, c, Check(c)))
  {
    assert CallOk(s, c);
    MoveKeeps(s, CallStep(s, c, Check(c)), c, s.calls[c].e);
  }

  lemma TakePermitKeeps<V>(s: State<V>, c: nat)
    requires Inv(s) && c < |s.calls| && s.calls[c].Waiting?
    ensures Inv(CallStep(s, c, TakePermit(c)))
  {
    assert CallOk(s, c);
    var s' := CallStep(s, c, TakePermit(c));
    if s' != s {
      MoveKeeps(s, s', c, s.calls[c].e);
    }
  }

  lemma RecheckKeeps<V>(s: State<V>, c: nat)
    requires Inv(s) && c < |s.calls| && s.calls[c].Owning?
    ensures Inv(CallStep(s, c, Recheck(c)))
  {
    assert CallOk(s, c);
    MoveKeeps(s, CallStep(s, c, Recheck(c)), c, s.calls[c].e);
  }

  lemma DropPermitKeeps<V>(s: State<V>, c: nat)
    requires Inv(s) && c < |s.calls| && s.calls[c].Published?
    ensures Inv(CallStep(s, c, DropPermit(c)))
  {
    assert CallOk(s, c);
    MoveKeeps(s, CallStep(s, c, DropPermit(c)), c, s.calls[c].e);
  }

  lemma GiveUpKeeps<V>(s: State<V>, c: nat)
    requires Inv(s) && c < |s.calls|
    ensures Inv(CallStep(s, c, GiveUp(c)))
  {
    assert CallOk(s, c);
    var s' := CallStep(s, c, GiveUp(c));
    if s' != s {
      MoveKeeps(s, s', c, s.calls[c].e);
    }
  }

  lemma JoinKeeps<V>(s: State<V>, c: nat, key: nat)
    requires Inv(s) && c < |s.calls| && s.calls[c].Fresh? && key in s.table
    ensures Inv(LookUp(s, c, key))
  {
    MoveKeeps(s, LookUp(s, c, key), c, s.table[key]);
  }

  lemma InsertKeeps<V>(s: State<V>, c: nat, key: nat)
    requires Inv(s) && c < |s.calls| && s.calls[c].Fresh? && key !in s.table
    ensures Inv(LookUp(s, c, key))
  {
    var s' := LookUp(s, c, key);
    var e := |s.entries|;
    forall k | k in s'.table && s'.entries[s'.table[k]].value.None?
      ensures Refs(s'.calls, s'.table[k]) > 0
    {
      RefsUpdate(s.calls, c, Holding(e), s'.table[k]);
    }
    forall d | 0 <= d < |s.calls| && d != c
      ensures CallOk(s', d)
    {
      assert CallOk(s, d);
    }
  }

  lemma SucceedKeeps<V>(s: State<V>, c: nat, v: V)
    requires Inv(s) && c < |s.calls| && s.calls[c].Running?
    ensures Inv(CallStep(s, c, Succeed(c, v)))
  {
    assert CallOk(s, c);
    var s' := CallStep(s, c, Succeed(c, v));
    var e := s.calls[c].e;
    if s.keep {
      MoveKeeps(s, s', c, e);
    } else {
      forall k | k in s'.table
        ensures Refs(s'.calls, s'.table[k]) > 0
      {
        StaysHeld(s, s', c, s'.table[k]);
      }
      forall d | 0 <= d < |s.calls| && d != c
        ensures CallOk(s', d)
      {
        OthersSpared(s, s', c, e, d);
      }
    }
  }

  lemma SetValueKeeps<V>(s: State<V>, c: nat)
    requires Inv(s) && c < |s.calls| && s.calls[c].Publishing?
    ensures Inv(CallStep(s, c, SetValue(c)))
  {
    assert CallOk(s, c);
    var s' := CallStep(s, c, SetValue(c));
    var e := s.calls[c].e;
    forall k | k in s.table && s.entries[s.table[k]].value.None?
      ensures Refs(s'.calls, s.table[k]) > 0
    {
      StaysHeld(s, s', c, s.table[k]);
    }
    PublishedTable(s, s', c, e);
    forall d | 0 <= d < |s.calls| && d != c
      ensures CallOk(s', d)
    {
      OthersKeep(s, s', c, e, d);
    }
  }

  lemma DismissKeeps<V>(s: State<V>, c: nat)
    requires Inv(s) && c < |s.calls| && s.calls[c].Finishing?
    ensures Inv(CallStep(s, c, Dismiss(c)))
  {
    assert CallOk(s, c);
    var s' := CallStep(s, c, Dismiss(c));
    var e := s.calls[c].e;
    forall k | k in s.table && s.entries[s.table[k]].value.None?
      ensures Refs(s'.calls, s.table[k]) > 0
    {
      RefsUpdate(s.calls, c, s'.calls[c], s.table[k]);
    }
    TableKeeps(s, s', c, e);
    forall d | 0 <= d < |s.calls| && d != c
      ensures CallOk(s', d)
    {
      OthersKeep(s, s', c, e, d);
    }
  }

  /** The reference count decides rightly: an entry leaves the table only with its last owner. */
  lemma CleanupKeeps<V>(s: State<V>, c: nat)
    requires Inv(s) && c < |s.calls| && s.calls[c].Abandoning?
    ensures Inv(CleanupStep(s, c))
    ensures var e := s.calls[c].e;
            CleanupStep(s, c).table ==
            if Current(s, e) && s.entries[e].value.None? && OnlyOne(s.calls, c, e) then s.table - {s.entries[e].key}
            else s.table
  {
    assert CallOk(s, c);
    var e := s.calls[c].e;
    RefsAtLeast(s.calls, c, c, e);
    CountsOne(s.calls, c, e);
    hide Inv, Refs;
    if Current(s, e) && StrongCount(s, e) == 2 && s.entries[e].value.None? {
      LastOneLeaves(s, c);
    } else {
      OneOfManyLeaves(s, c);
    }
  }

  lemma LastOneLeaves<V>(s: State<V>, c: nat)
    requires Inv(s) && c < |s.calls| && s.calls[c].Abandoning?
    requires Refs(s.calls, s.calls[c].e) == 1 && Current(s, s.calls[c].e) && s.entries[s.calls[c].e].value.None?
    ensures Inv(Put(Take(s, s.calls[c].e), c, Failed))
  {
    var e := s.calls[c].e;
    var s' := Put(Take(s, e), c, Failed);
    forall k | k in s'.table && s.entries[s'.table[k]].value.None?
      ensures Refs(s'.calls, s'.table[k]) > 0
    {
      RefsUpdate(s.calls, c, Failed, s'.table[k]);
    }
    forall d | 0 <= d < |s.calls| && d != c
      ensures CallOk(s', d)
    {
      OthersSpared(s, s', c, e, d);
    }
  }

  lemma OneOfManyLeaves<V>(s: State<V>, c: nat)
    requires Inv(s) && c < |s.calls| && s.calls[c].Abandoning? && s.calls[c].e < |s.entries|
    requires Refs(s.calls, s.calls[c].e) > 1 || !Current(s, s.calls[c].e) || s.entries[s.calls[c].e].value.Some?
    ensures Inv(Put(s, c, Failed))
  {
    var e := s.calls[c].e;
    var s' := Put(s, c, Failed);
    forall k | k in s.table && s.entries[s.table[k]].value.None?
      ensures Refs(s'.calls, s.table[k]) > 0
    {
      RefsUpdate(s.calls, c, Failed, s.table[k]);
    }
    TableKeeps(s, s', c, e);
    forall d | 0 <= d < |s.calls| && d != c
      ensures CallOk(s', d)
    {
      OthersKeep(s, s', c, e, d);
    }
  }

  lemma ForgetKeeps<V>(s: State<V>, key: nat)
    requires Inv(s) && key in s.table
    ensures Inv(Step(s, Forget(key)))
  {
    var s' := Step(s, Forget(key));
    forall d | 0 <= d < |s.calls|
      ensures CallOk(s', d)
    {
      assert CallOk(s, d);
    }
  }

  lemma SpawnKeeps<V>(s: State<V>)
    requires Inv(s)
    ensures Inv(Step(s, Spawn))
  {
    var s' := Step(s, Spawn);
    assert s'.calls[..|s.calls|] == s.calls;
    forall d | 0 <= d < |s.calls|
      ensures CallOk(s', d)
    {
      assert CallOk(s, d);
    }
  }

  lemma StepKeeps<V>(s: State<V>, a: Action<V>)
    requires Inv(s)
    ensures Inv(Step(s, a)) && Step(s, a).keep == s.keep
  {
    match a
    case Spawn => SpawnKeeps(s);
    case Forget(key) => if key in s.table { ForgetKeeps(s, key); }
    case _ => if a.c < |s.calls| { CallKeeps(s, a.c, a); }
  }

  lemma CallKeeps<V>(s: State<V>, c: nat, a: Action<V>)
    requires Inv(s) && c < |s.calls| && !a.Spawn? && !a.Forget? && a.c == c
    ensures Inv(CallStep(s, c, a))
  {
    hide Inv, LookUp, CleanupStep, SetPermit, Take;
    match (a, s.calls[c])
    case (GetOrInsert(_, key), Fresh) => if key in s.table { JoinKeeps(s, c, key); } else { InsertKeeps(s, c, key); }
    case (Check(_), Holding(_)) => CheckKeeps(s, c);
    case (TakePermit(_), Waiting(_)) => TakePermitKeeps(s, c);
    case (Recheck(_), Owning(_)) => RecheckKeeps(s, c);
    case (Succeed(_, v), Running(_)) => SucceedKeeps(s, c, v);
    case (SetValue(_), Publishing(_, _)) => SetValueKeeps(s, c);
    case (DropPermit(_), Published(_, _)) => DropPermitKeeps(s, c);
    case (Dismiss(_), Finishing(_, _)) => DismissKeeps(s, c);
    case (GiveUp(_), _) => GiveUpKeeps(s, c);
    case (Cleanup(_), Abandoning(_)) => CleanupKeeps(s, c);
    case _ =>
  }

  lemma {:induction false} RunKeeps<V>(s: State<V>, actions: seq<Action<V>>)
    requires Inv(s)
    ensures Inv(Run(s, actions)) && Run(s, actions).keep == s.keep
    decreases |actions|
  {
    if actions != [] {
      StepKeeps(s, actions[0]);
      RunKeeps(Step(s, actions[0]), actions[1..]);
    }
  }

  /** A value, once stored, stays, whatever happens to the table. */
  lemma StoredStays<V>(s: State<V>, a: Action<V>, e: nat)
    requires Inv(s) && e < |s.entries| && s.entries[e].value.Some?
    ensures e < |Step(s, a).entries| && Step(s, a).entries[e].value == s.entries[e].value
  {
    if !a.Spawn? && !a.Forget? && a.c < |s.calls| {
      assert CallOk(s, a.c);
    }
  }

  lemma {:induction false} RunStoredStays<V>(s: State<V>, actions: seq<Action<V>>, e: nat)
    requires Inv(s) && e < |s.entries| && s.entries[e].value.Some?
    ensures e < |Run(s, actions).entries| && Run(s, actions).entries[e].value == s.entries[e].value
    decreases |actions|
  {
    if actions != [] {
      StepKeeps(s, actions[0]);
      StoredStays(s, actions[0], e);
      RunStoredStays(Step(s, actions[0]), actions[1..], e);
    }
  }

  // ---- What callers get ----

  predicate SameKey<V>(s: State<V>, e: nat, e': nat) {
    e < |s.entries| && e' < |s.entries| && s.entries[e].key == s.entries[e'].key
  }

  predicate BothRun<V>(s: State<V>, c: nat, d: nat) {
    c < |s.calls| && d < |s.calls| && s.calls[c].Running? && s.calls[d].Running?
  }

  predicate BothReturned<V>(s: State<V>, c: nat, d: nat) {
    c < |s.calls| && d < |s.calls| && s.calls[c].Returned? && s.calls[d].Returned?
  }

  predicate NeitherLapsed<V>(s: State<V>, e: nat, e': nat) {
    !Lapsed(s, e) && !Lapsed(s, e')
  }

  /**
   At most one function is in flight for an entry, always; and at most one for a key, among the calls
   whose entry was not detached under them. A key that was forgotten earlier is no exception.
   */
  lemma OneInFlight<V>(keep: bool, actions: seq<Action<V>>, c: nat, d: nat)
    ensures var s := Run(Init<V>(keep), actions);
            BothRun(s, c, d) && s.calls[c].e == s.calls[d].e ==> c == d
    ensures var s := Run(Init<V>(keep), actions);
            BothRun(s, c, d) && SameKey(s, s.calls[c].e, s.calls[d].e) && NeitherLapsed(s, s.calls[c].e, s.calls[d].e)
            ==> c == d
  {
    RunKeeps(Init<V>(keep), actions);
    var s := Run(Init<V>(keep), actions);
    if c < |s.calls| && d < |s.calls| {
      assert CallOk(s, c) && CallOk(s, d);
    }
  }

  /** Calls that shared an entry return the same value. */
  lemma SameResult<V>(keep: bool, actions: seq<Action<V>>, c: nat, d: nat)
    ensures var s := Run(Init<V>(keep), actions);
            BothReturned(s, c, d) && s.calls[c].e == s.calls[d].e ==> s.calls[c].v == s.calls[d].v
  {
    RunKeeps(Init<V>(keep), actions);
    var s := Run(Init<V>(keep), actions);
    if c < |s.calls| && d < |s.calls| {
      assert CallOk(s, c) && CallOk(s, d);
    }
  }

  /** A map computes a key once: all calls for it whose entry was not detached return one value. */
  lemma OncePerKey<V>(actions: seq<Action<V>>, c: nat, d: nat)
    ensures var s := Run(Init<V>(true), actions);
            BothReturned(s, c, d) && SameKey(s, s.calls[c].e, s.calls[d].e) && NeitherLapsed(s, s.calls[c].e, s.calls[d].e)
            ==> s.calls[c].v == s.calls[d].v
  {
    RunKeeps(Init<V>(true), actions);
    var s := Run(Init<V>(true), actions);
    if c < |s.calls| && d < |s.calls| {
      assert CallOk(s, c) && CallOk(s, d);
    }
  }

  predicate NothingLapsed<V>(s: State<V>, key: nat) {
    forall e | 0 <= e < |s.entries| && s.entries[e].key == key :: !Lapsed(s, e)
  }

  /** Forgetting one key detaches no entry of another. */
  lemma {:induction false} OnlyForgetDetaches<V>(s: State<V>, actions: seq<Action<V>>, key: nat)
    requires Inv(s) && NothingLapsed(s, key) && Forget(key) !in actions
    ensures NothingLapsed(Run(s, actions), key)
    decreases |actions|
  {
    if actions != [] {
      var s' := Step(s, actions[0]);
      StepKeeps(s, actions[0]);
      assert actions[0] in actions;
      StepDetaches(s, actions[0], key);
      OnlyForgetDetaches(s', actions[1..], key);
    }
  }

  lemma StepDetaches<V>(s: State<V>, a: Action<V>, key: nat)
    requires Inv(s) && NothingLapsed(s, key) && a != Forget(key)
    ensures NothingLapsed(Step(s, a), key)
  {
    if !a.Spawn? && !a.Forget? && a.c < |s.calls| {
      assert Step(s, a).detached == s.detached;
    }
  }

  /** When no call is left, a group's table is empty and a map holds initialised entries only. */
  lemma NothingAbandoned<V>(keep: bool, actions: seq<Action<V>>)
    ensures var s := Run(Init<V>(keep), actions);
            (forall c :: 0 <= c < |s.calls| ==> Ref(s.calls[c]).None?) ==>
              && (!keep ==> s.table == map[])
              && (forall k :: k in s.table ==> s.table[k] < |s.entries| && s.entries[s.table[k]].value.Some?)
  {
    RunKeeps(Init<V>(keep), actions);
    var s := Run(Init<V>(keep), actions);
    if forall c :: 0 <= c < |s.calls| ==> Ref(s.calls[c]).None? {
      NobodyHolds(s);
    }
  }

  lemma NobodyHolds<V>(s: State<V>)
    requires Inv(s) && forall c :: 0 <= c < |s.calls| ==> Ref(s.calls[c]).None?
    ensures !s.keep ==> s.table == map[]
    ensures forall k :: k in s.table ==> s.entries[s.table[k]].value.Some?
  {
    forall k | k in s.table
      ensures s.entries[s.table[k]].value.Some?
    {
      if s.entries[s.table[k]].value.None? {
        RefsPositive(s.calls, s.table[k]);
      }
    }
  }
}
