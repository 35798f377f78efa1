/** The objects a pool tracks: the idle queue and the number of objects that belong to the pool. */
module PoolStates {
  import opened Options

  datatype Verdict = Keep | Remove | Panic

  /** What the predicate keeps of the idle objects, in their order. */
  function Kept<T>(idle: seq<T>, verdicts: seq<Verdict>): seq<T>
    requires |verdicts| == |idle|
  {
    if idle == [] then []
    else
      var before := Kept(idle[..|idle| - 1], verdicts[..|idle| - 1]);
      if verdicts[|idle| - 1].Keep? then before + [idle[|idle| - 1]] else before
  }

  function Discarded<T>(idle: seq<T>, verdicts: seq<Verdict>): seq<T>
    requires |verdicts| == |idle|
  {
    if idle == [] then []
    else
      var before := Discarded(idle[..|idle| - 1], verdicts[..|idle| - 1]);
      if verdicts[|idle| - 1].Keep? then before else before + [idle[|idle| - 1]]
  }

  /** Keeping and discarding share out the objects. */
  lemma {:induction false} Shared<T>(idle: seq<T>, verdicts: seq<Verdict>)
    requires |verdicts| == |idle|
    ensures multiset(Kept(idle, verdicts)) + multiset(Discarded(idle, verdicts)) == multiset(idle)
    ensures |Kept(idle, verdicts)| + |Discarded(idle, verdicts)| == |idle|
  {
    if idle != [] {
      Shared(idle[..|idle| - 1], verdicts[..|idle| - 1]);
      assert idle == idle[..|idle| - 1] + [idle[|idle| - 1]];
    }
  }

  lemma KeptSnoc<T>(idle: seq<T>, verdicts: seq<Verdict>, k: nat)
    requires |verdicts| == |idle| && k < |idle|
    ensures Kept(idle[..k + 1], verdicts[..k + 1])
         == if verdicts[k].Keep? then Kept(idle[..k], verdicts[..k]) + [idle[k]] else Kept(idle[..k], verdicts[..k])
    ensures |Kept(idle[..k], verdicts[..k])| <= k
  {
    assert idle[..k + 1][..k] == idle[..k] && verdicts[..k + 1][..k] == verdicts[..k];
    Shared(idle[..k], verdicts[..k]);
  }

  /** Once the kept objects are in front, the rest are the discarded ones, in some order. */
  lemma Compacted<T>(was: seq<T>, verdicts: seq<Verdict>, now: seq<T>, retained: nat)
    requires |verdicts| == |was| && multiset(now) == multiset(was) && retained <= |now|
    requires now[..retained] == Kept(was, verdicts)
    ensures multiset(now[retained..]) == multiset(Discarded(was, verdicts))
  {
    Shared(was, verdicts);
    assert now == now[..retained] + now[retained..];
    assert multiset(now) == multiset(now[retained..]) + multiset(now[..retained]);
    assert multiset(now) == multiset(Discarded(was, verdicts)) + multiset(now[..retained]);
    Cancel(multiset(now[retained..]), multiset(Discarded(was, verdicts)), multiset(now[..retained]));
  }

  lemma Cancel<T>(a: multiset<T>, b: multiset<T>, common: multiset<T>)
    requires a + common == b + common
    ensures a == b
  {
    assert forall x :: (a + common)[x] == a[x] + common[x];
    assert forall x :: (b + common)[x] == b[x] + common[x];
  }

  lemma Swapped<T>(s: seq<T>, i: nat, j: nat)
    requires i < |s| && j < |s|
    ensures multiset(s[i := s[j]][j := s[i]]) == multiset(s)
  {
  }

  predicate Calm(verdicts: seq<Verdict>) {
    forall i :: 0 <= i < |verdicts| ==> !verdicts[i].Panic?
  }

  class PoolState<T(==)> {
    var idle: seq<T>
    var currentSize: nat

    constructor ()
      ensures idle == [] && currentSize == 0
    {
      idle, currentSize := [], 0;
    }

    method Pop(fifo: bool) returns (r: Option<T>)
      modifies this`idle
      ensures r.None? <==> old(idle) == []
      ensures r.None? ==> idle == []
      ensures r.Some? ==> old(idle) == if fifo then [r.value] + idle else idle + [r.value]
    {
      if idle == [] {
        return None;
      }
      if fifo {
        r, idle := Some(idle[0]), idle[1..];
      } else {
        r, idle := Some(idle[|idle| - 1]), idle[..|idle| - 1];
      }
    }

    method AddIdle(o: T)
      modifies this
      ensures currentSize == old(currentSize) + 1 && idle == old(idle) + [o]
    {
      currentSize := currentSize + 1;
      idle := idle + [o];
    }

    method AddActive()
      modifies this`currentSize
      ensures currentSize == old(currentSize) + 1
    {
      currentSize := currentSize + 1;
    }

    /** The object was counted all along. */
    method ReturnIdle(o: T)
      modifies this`idle
      ensures idle == old(idle) + [o]
    {
      idle := idle + [o];
    }

    /** False when there is nothing to detach from, which the source treats as a broken invariant. */
    method Detach() returns (ok: bool)
      modifies this`currentSize
      ensures ok <==> old(currentSize) > 0
      ensures currentSize == if ok then old(currentSize) - 1 else 0
    {
      ok := currentSize > 0;
      if ok {
        currentSize := currentSize - 1;
      }
    }

    method Swap(i: nat, j: nat)
      requires i < |idle| && j < |idle|
      modifies this`idle
      ensures idle == old(idle)[i := old(idle)[j]][j := old(idle)[i]]
      ensures multiset(idle) == multiset(old(idle))
    {
      Swapped(idle, i, j);
      idle := idle[i := idle[j]][j := idle[i]];
    }

    /**
     Asks the predicate about every idle object once, in order, and compacts the kept ones in place.
     `verdicts` are its answers. A predicate that panics loses nothing; otherwise the kept objects
     stay in order, and the others are handed out and no longer counted.
     */
    method Retain(verdicts: seq<Verdict>) returns (removed: Option<seq<T>>)
      requires |verdicts| == |idle| <= currentSize
      modifies this
      ensures removed.Some? <==> Calm(verdicts)
      ensures removed.None? ==> multiset(idle) == multiset(old(idle)) && currentSize == old(currentSize)
      ensures removed.Some? ==>
                && idle == Kept(old(idle), verdicts)
                && multiset(removed.value) == multiset(Discarded(old(idle), verdicts))
                && currentSize - |idle| == old(currentSize) - old(|idle|)
    {
      var retained, current := ScanKept(verdicts);
      if current.None? {
        return None;
      }
      retained, current := Compact(verdicts, retained, current.value);
      if current.None? {
        return None;
      }
      assert old(idle)[..|idle|] == old(idle) && verdicts[..|idle|] == verdicts;
      Compacted(old(idle), verdicts, idle, retained);
      removed := Some(idle[retained..]);
      idle := idle[..retained];
      currentSize := currentSize - |removed.value|;
    }

    /** The first loop: leaves the queue alone up to and including the first object to remove. */
    method ScanKept(verdicts: seq<Verdict>) returns (retained: nat, current: Option<nat>)
      requires |verdicts| == |idle|
      ensures current.None? ==> !Calm(verdicts)
      ensures current.Some? ==>
                && retained <= current.value <= |idle| && Calm(verdicts[..current.value])
                && idle[..retained] == Kept(idle[..current.value], verdicts[..current.value])
    {
      retained := 0;
      var i := 0;
      while i < |idle|
        invariant i == retained <= |idle| && Calm(verdicts[..i])
        invariant idle[..i] == Kept(idle[..i], verdicts[..i])
      {
        KeptSnoc(idle, verdicts, i);
        if verdicts[i].Panic? {
          return retained, None;
        }
        if verdicts[i].Remove? {
          return retained, Some(i + 1);
        }
        i, retained := i + 1, retained + 1;
      }
      current := Some(i);
    }

    /** The second loop: swaps each kept object into the first place that is free. */
    method Compact(verdicts: seq<Verdict>, kept: nat, from: nat) returns (retained: nat, current: Option<nat>)
      requires |verdicts| == |idle| && kept <= from <= |idle| && Calm(verdicts[..from])
      requires idle[..kept] == Kept(idle[..from], verdicts[..from])
      modifies this`idle
      ensures multiset(idle) == multiset(old(idle)) && |idle| == old(|idle|)
      ensures current.Some? <==> Calm(verdicts)
      ensures current.Some? ==>
                && current.value == |idle| && retained <= |idle|
                && idle[..retained] == Kept(old(idle)[..|idle|], verdicts[..|idle|])
    {
      ghost var was := idle;
      retained := kept;
      var i := from;
      while i < |idle|
        invariant retained <= i <= |idle| == |was| && Calm(verdicts[..i])
        invariant idle[i..] == was[i..] && multiset(idle) == multiset(was)
        invariant idle[..retained] == Kept(was[..i], verdicts[..i])
      {
        KeptSnoc(was, verdicts, i);
        assert idle[i] == was[i];
        if verdicts[i].Panic? {
          return retained, None;
        }
        if verdicts[i].Remove? {
          i := i + 1;
          continue;
        }
        Swap(retained, i);
        i, retained := i + 1, retained + 1;
      }
      current := Some(i);
    }
  }
}
