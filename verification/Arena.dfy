/** Reusable slot storage with an intrusive free list (`Arena`). */
module Arenas {
  import opened Options

  type SlotId = nat

  datatype Slot<T> = Occupied(value: T) | Vacant(next: Option<SlotId>)

  /** The link out of the `k`th visited slot. */
  ghost function LinkAt(chain: seq<SlotId>, k: int): Option<SlotId> {
    if 0 <= k + 1 < |chain| then Some(chain[k + 1]) else None
  }

  /** What a free list that visits `chain` in order looks like in the slots. */
  ghost predicate Chained<T>(slots: seq<Slot<T>>, head: Option<SlotId>, chain: seq<SlotId>) {
    && (head == if chain == [] then None else Some(chain[0]))
    && (forall k :: 0 <= k < |chain| ==>
          && chain[k] < |slots|
          && slots[chain[k]] == Vacant(LinkAt(chain, k)))
  }

  ghost function LiveSlots<T>(slots: seq<Slot<T>>): map<SlotId, T> {
    map i: nat | 0 <= i < |slots| && slots[i].Occupied? :: slots[i].value
  }

  /** The occupied values in slot order. */
  function InSlotOrder<T>(slots: seq<Slot<T>>): seq<T> {
    if slots == [] then []
    else
      var before, last := InSlotOrder(slots[..|slots| - 1]), slots[|slots| - 1];
      if last.Occupied? then before + [last.value] else before
  }

  lemma InSlotOrderSnoc<T>(slots: seq<Slot<T>>, last: Slot<T>)
    ensures InSlotOrder(slots + [last])
         == if last.Occupied? then InSlotOrder(slots) + [last.value] else InSlotOrder(slots)
  {
  }

  /** Every live value, counted with multiplicity, is collected exactly once. */
  lemma {:induction false} InSlotOrderLength<T>(slots: seq<Slot<T>>)
    ensures |InSlotOrder(slots)| == |LiveSlots(slots)|
  {
    if slots == [] {
      assert LiveSlots(slots) == map[];
    } else {
      var n := |slots| - 1;
      var init := slots[..n];
      InSlotOrderLength(init);
      InSlotOrderSnoc(init, slots[n]);
      assert init + [slots[n]] == slots;
      var m := LiveSlots(init);
      if slots[n].Occupied? {
        assert LiveSlots(slots) == m[n := slots[n].value];
        assert LiveSlots(slots).Keys == m.Keys + {n};
      } else {
        assert LiveSlots(slots) == m;
      }
    }
  }

  /** The chain with no repeats that covers exactly the vacant slots. */
  ghost predicate FreeList<T>(slots: seq<Slot<T>>, head: Option<SlotId>, chain: seq<SlotId>) {
    && Chained(slots, head, chain)
    && (forall i, j :: 0 <= i < j < |chain| ==> chain[i] != chain[j])
    && (forall i: nat :: i < |slots| && slots[i].Vacant? ==> i in chain)
  }

  lemma FreeListPop<T>(slots: seq<Slot<T>>, head: Option<SlotId>, chain: seq<SlotId>, value: T)
    requires FreeList(slots, head, chain) && head.Some?
    ensures chain != [] && head.value == chain[0]
    ensures head.value < |slots| && slots[head.value].Vacant?
    ensures FreeList(slots[head.value := Occupied(value)], slots[head.value].next, chain[1..])
  {
  }

  lemma FreeListGrow<T>(slots: seq<Slot<T>>, chain: seq<SlotId>, value: T)
    requires FreeList(slots, None, chain)
    ensures chain == [] && FreeList(slots + [Occupied(value)], None, [])
  {
  }

  lemma FreeListPush<T>(slots: seq<Slot<T>>, head: Option<SlotId>, chain: seq<SlotId>, id: SlotId)
    requires FreeList(slots, head, chain) && id < |slots| && slots[id].Occupied?
    ensures FreeList(slots[id := Vacant(head)], Some(id), [id] + chain)
  {
  }

  lemma LiveOccupied<T>(slots: seq<Slot<T>>, id: SlotId, value: T)
    requires id <= |slots|
    ensures var after := if id < |slots| then slots[id := Occupied(value)] else slots + [Occupied(value)];
            && LiveSlots(after) == LiveSlots(slots)[id := value]
            && (id !in LiveSlots(slots) ==> |LiveSlots(after)| == |LiveSlots(slots)| + 1)
            && (id in LiveSlots(slots) ==> |LiveSlots(after)| == |LiveSlots(slots)|)
  {
  }

  lemma LiveVacated<T>(slots: seq<Slot<T>>, id: SlotId, next: Option<SlotId>)
    requires id in LiveSlots(slots)
    ensures LiveSlots(slots[id := Vacant(next)]) == LiveSlots(slots) - {id}
    ensures |LiveSlots(slots[id := Vacant(next)])| == |LiveSlots(slots)| - 1
  {
  }

  method Drain<T>(slots: seq<Slot<T>>) returns (all: seq<T>)
    ensures all == InSlotOrder(slots) && |all| == |LiveSlots(slots)|
  {
    all := [];
    for i := 0 to |slots|
      invariant all == InSlotOrder(slots[..i])
    {
      InSlotOrderSnoc(slots[..i], slots[i]);
      assert slots[..i] + [slots[i]] == slots[..i + 1];
      if slots[i].Occupied? {
        all := all + [slots[i].value];
      }
    }
    assert slots[..|slots|] == slots;
    InSlotOrderLength(slots);
  }

  class Arena<T> {
    var slots: seq<Slot<T>>
    var vacantHead: Option<SlotId>
    var len: nat
    /** The vacant slots in the order the free list visits them. */
    ghost var chain: seq<SlotId>

    ghost function Live(): map<SlotId, T>
      reads this
    {
      LiveSlots(slots)
    }

    /** The free list visits each vacant slot exactly once, and `len` counts the others. */
    ghost predicate Valid()
      reads this
    {
      && FreeList(slots, vacantHead, chain)
      && len == |Live()|
    }

    constructor ()
      ensures Valid() && Live() == map[] && slots == [] && chain == []
    {
      slots, vacantHead, len, chain := [], None, 0, [];
    }

    /** The id handed out is never a live one; the most recently vacated slot is reused first. */
    method Insert(value: T) returns (id: SlotId)
      requires Valid()
      modifies this
      ensures Valid()
      ensures id !in old(Live())
      ensures Live() == old(Live())[id := value]
      ensures id == if old(chain) != [] then old(chain)[0] else |old(slots)|
      ensures chain == if old(chain) != [] then old(chain)[1..] else []
    {
      hide FreeList;
      if vacantHead.Some? {
        FreeListPop(slots, vacantHead, chain, value);
        id := vacantHead.value;
        LiveOccupied(slots, id, value);
        vacantHead := slots[id].next;
        slots := slots[id := Occupied(value)];
        chain := chain[1..];
      } else {
        id := |slots|;
        FreeListGrow(slots, chain, value);
        LiveOccupied(slots, id, value);
        slots := slots + [Occupied(value)];
      }
      len := len + 1;
    }

    method Get(id: SlotId) returns (r: Option<T>)
      requires Valid()
      ensures r == if id in Live() then Some(Live()[id]) else None
    {
      if id < |slots| && slots[id].Occupied? {
        r := Some(slots[id].value);
      } else {
        r := None;
      }
    }

    /** A write through the reference `get_mut` returns. */
    method Put(id: SlotId, value: T)
      requires Valid() && id in Live()
      modifies this
      ensures Valid() && Live() == old(Live())[id := value]
      ensures chain == old(chain) && |slots| == |old(slots)|
    {
      assert forall k :: 0 <= k < |chain| ==> slots[chain[k]].Vacant?;
      LiveOccupied(slots, id, value);
      slots := slots[id := Occupied(value)];
    }

    /** The source panics on an id that is not live; its callers must not pass one. */
    method Remove(id: SlotId) returns (value: T)
      requires Valid() && id in Live()
      modifies this
      ensures Valid()
      ensures value == old(Live())[id]
      ensures Live() == old(Live()) - {id}
      ensures chain == [id] + old(chain)
    {
      hide FreeList;
      value := slots[id].value;
      LiveVacated(slots, id, vacantHead);
      FreeListPush(slots, vacantHead, chain, id);
      slots := slots[id := Vacant(vacantHead)];
      vacantHead := Some(id);
      chain := [id] + chain;
      len := len - 1;
    }

    method TakeAll() returns (all: seq<T>)
      requires Valid()
      modifies this
      ensures Valid() && Live() == map[] && slots == [] && chain == []
      ensures all == InSlotOrder(old(slots)) && |all| == |old(Live())|
    {
      all := Drain(slots);
      vacantHead, len, slots, chain := None, 0, [], [];
    }
  }
}
