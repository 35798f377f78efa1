/**
 The abstract wait list: the linked ids in queue order, and every live node by id. A live id that is
 not linked belongs to a detached node, which stays addressable until it is removed.
 */
module WaitQueues {
  ghost predicate Distinct<T>(s: seq<T>) {
    forall i, j :: 0 <= i < j < |s| ==> s[i] != s[j]
  }

  /** The sequence without its first `x`; every other element keeps its place in the order. */
  function Without<T(==)>(s: seq<T>, x: T): (r: seq<T>) {
    if s == [] then [] else if s[0] == x then s[1..] else [s[0]] + Without(s[1..], x)
  }

  lemma {:induction false} WithoutAt<T>(s: seq<T>, i: nat)
    requires Distinct(s) && i < |s|
    ensures Without(s, s[i]) == s[..i] + s[i + 1..]
  {
    if i > 0 {
      WithoutAt(s[1..], i - 1);
      assert s[..i] + s[i + 1..] == [s[0]] + (s[1..][..i - 1] + s[1..][i..]);
    }
  }

  lemma {:induction false} WithoutAbsent<T>(s: seq<T>, x: T)
    requires x !in s
    ensures Without(s, x) == s
  {
    if s != [] {
      WithoutAbsent(s[1..], x);
    }
  }

  /** Removing an element closes the gap: the others stay, distinct and in their order. */
  lemma WithoutKeeps<T>(s: seq<T>, x: T)
    requires Distinct(s)
    ensures Distinct(Without(s, x)) && x !in Without(s, x)
    ensures forall y :: y in s && y != x ==> y in Without(s, x)
    ensures forall y :: y in Without(s, x) ==> y in s
    ensures |Without(s, x)| == if x in s then |s| - 1 else |s|
    ensures if x in s then exists i :: 0 <= i < |s| && s[i] == x && Without(s, x) == s[..i] + s[i + 1..]
            else Without(s, x) == s
  {
    if x in s {
      var i :| 0 <= i < |s| && s[i] == x;
      WithoutAt(s, i);
      var r := s[..i] + s[i + 1..];
      forall y | y in s && y != x
        ensures y in r
      {
        var j :| 0 <= j < |s| && s[j] == y;
        assert y == if j < i then r[j] else r[j - 1];
      }
    } else {
      WithoutAbsent(s, x);
    }
  }

  datatype Waiters<T> = Waiters(queue: seq<nat>, nodes: map<nat, T>) {
    ghost predicate Wf() {
      Distinct(queue) && forall id :: id in queue ==> id in nodes
    }

    function PushBack(id: nat, value: T): Waiters<T> {
      Waiters(queue + [id], nodes[id := value])
    }

    function PushFront(id: nat, value: T): Waiters<T> {
      Waiters([id] + queue, nodes[id := value])
    }

    /** Unlinks `id` wherever it is in the queue; a detached node changes no links. */
    function Detach(id: nat, value: T): Waiters<T> {
      Waiters(Without(queue, id), nodes[id := value])
    }

    function Put(id: nat, value: T): Waiters<T> {
      Waiters(queue, nodes[id := value])
    }

    function Remove(id: nat): Waiters<T> {
      Waiters(queue, nodes - {id})
    }
  }

  /** Some id that is not live: all a client may rely on about a new node's id. */
  method FreshId<T>(nodes: map<nat, T>) returns (id: nat)
    ensures id !in nodes
  {
    id := 0;
    ghost var below: set<nat> := {};
    while id in nodes
      invariant below <= nodes.Keys
      invariant forall k: nat :: k in below <==> k < id
      decreases nodes.Keys - below
    {
      below := below + {id};
      id := id + 1;
    }
  }
}

/** The doubly linked wait list over the arena (`WaitList`). */
module WaitLists {
  import opened Options
  import opened Arenas
  import opened WaitQueues

  datatype Links = Links(prev: Option<nat>, next: Option<nat>)

  /** `links` is `None` for a node that has been detached but not yet removed. */
  datatype Node<T> = Node(links: Option<Links>, value: T)

  function At(queue: seq<nat>, i: int): (r: Option<nat>) {
    if 0 <= i < |queue| then Some(queue[i]) else None
  }

  ghost predicate LinkedAs<T>(nodes: map<nat, Node<T>>, queue: seq<nat>, i: int)
    requires 0 <= i < |queue|
  {
    && queue[i] in nodes
    && nodes[queue[i]].links == Some(Links(At(queue, i - 1), At(queue, i + 1)))
  }

  /** The links of the live nodes spell out `queue` in both directions, and no others are linked. */
  ghost predicate Spells<T>(nodes: map<nat, Node<T>>, queue: seq<nat>) {
    && Distinct(queue)
    && (forall i :: 0 <= i < |queue| ==> LinkedAs(nodes, queue, i))
    && (forall id :: id in nodes && nodes[id].links.Some? ==> id in queue)
  }

  /** The nodes' values, links forgotten. */
  ghost function Values<T>(nodes: map<nat, Node<T>>): map<nat, T> {
    map id | id in nodes :: nodes[id].value
  }

  lemma QueueIsLive<T>(nodes: map<nat, Node<T>>, queue: seq<nat>)
    requires Spells(nodes, queue)
    ensures forall id :: id in queue <==> id in nodes && nodes[id].links.Some?
  {
    forall id | id in queue
      ensures id in nodes && nodes[id].links.Some?
    {
      var i :| 0 <= i < |queue| && queue[i] == id;
      assert LinkedAs(nodes, queue, i);
    }
  }

  lemma ValuesKeys<T>(nodes: map<nat, Node<T>>)
    ensures Values(nodes).Keys == nodes.Keys
    ensures forall id :: id in nodes ==> Values(nodes)[id] == nodes[id].value
  {
  }

  lemma IndexOf<T>(nodes: map<nat, Node<T>>, queue: seq<nat>, id: nat) returns (i: nat)
    requires Spells(nodes, queue) && id in nodes && nodes[id].links.Some?
    ensures i < |queue| && queue[i] == id && Distinct(queue)
    ensures nodes[id].links == Some(Links(At(queue, i - 1), At(queue, i + 1)))
  {
    i :| i < |queue| && queue[i] == id;
    assert LinkedAs(nodes, queue, i);
  }

  lemma EndsLive<T>(nodes: map<nat, Node<T>>, queue: seq<nat>)
    requires Spells(nodes, queue)
    ensures queue != [] ==> queue[0] in nodes && queue[|queue| - 1] in nodes
  {
    QueueIsLive(nodes, queue);
  }

  function WithPrev<T>(node: Node<T>, prev: Option<nat>): Node<T> {
    if node.links.Some? then node.(links := Some(node.links.value.(prev := prev))) else node
  }

  function WithNext<T>(node: Node<T>, next: Option<nat>): Node<T> {
    if node.links.Some? then node.(links := Some(node.links.value.(next := next))) else node
  }

  /** The nodes after `push_back` has stored the new node and linked the old tail to it. */
  ghost function AppendedNodes<T>(nodes: map<nat, Node<T>>, tail: Option<nat>, id: nat, value: T)
    : map<nat, Node<T>>
    requires tail.Some? ==> tail.value in nodes
  {
    var stored := nodes[id := Node(Some(Links(tail, None)), value)];
    if tail.Some? then stored[tail.value := WithNext(stored[tail.value], Some(id))] else stored
  }

  lemma AppendSpells<T>(nodes: map<nat, Node<T>>, queue: seq<nat>, id: nat, value: T)
    requires Spells(nodes, queue) && id !in nodes
    ensures id !in Values(nodes)
    ensures At(queue, |queue| - 1).Some? ==> At(queue, |queue| - 1).value in nodes
    ensures var after := AppendedNodes(nodes, At(queue, |queue| - 1), id, value);
            Spells(after, queue + [id]) && Values(after) == Values(nodes)[id := value]
  {
    QueueIsLive(nodes, queue);
    var tail := At(queue, |queue| - 1);
    assert tail.Some? ==> LinkedAs(nodes, queue, |queue| - 1);
    var after, longer := AppendedNodes(nodes, tail, id, value), queue + [id];
    forall i | 0 <= i < |longer|
      ensures LinkedAs(after, longer, i)
    {
      if i < |queue| {
        assert LinkedAs(nodes, queue, i);
      }
    }
  }

  ghost function PrependedNodes<T>(nodes: map<nat, Node<T>>, head: Option<nat>, id: nat, value: T)
    : map<nat, Node<T>>
    requires head.Some? ==> head.value in nodes
  {
    var stored := nodes[id := Node(Some(Links(None, head)), value)];
    if head.Some? then stored[head.value := WithPrev(stored[head.value], Some(id))] else stored
  }

  lemma PrependSpells<T>(nodes: map<nat, Node<T>>, queue: seq<nat>, id: nat, value: T)
    requires Spells(nodes, queue) && id !in nodes
    ensures id !in Values(nodes)
    ensures At(queue, 0).Some? ==> At(queue, 0).value in nodes
    ensures var after := PrependedNodes(nodes, At(queue, 0), id, value);
            Spells(after, [id] + queue) && Values(after) == Values(nodes)[id := value]
    ensures At([id] + queue, 0) == Some(id)
    ensures At([id] + queue, |[id] + queue| - 1) == if At(queue, 0).None? then Some(id) else At(queue, |queue| - 1)
  {
    QueueIsLive(nodes, queue);
    var head := At(queue, 0);
    assert head.Some? ==> LinkedAs(nodes, queue, 0);
    var after, longer := PrependedNodes(nodes, head, id, value), [id] + queue;
    forall i | 0 <= i < |longer|
      ensures LinkedAs(after, longer, i)
    {
      if i > 0 {
        assert LinkedAs(nodes, queue, i - 1);
      }
    }
  }

  /** The nodes after `id` has lost its links and its former neighbours point at each other. */
  ghost function BypassedNodes<T>(nodes: map<nat, Node<T>>, id: nat, prev: Option<nat>, next: Option<nat>)
    : map<nat, Node<T>>
    requires id in nodes
    requires (prev.Some? ==> prev.value in nodes) && (next.Some? ==> next.value in nodes)
  {
    var cut := nodes[id := nodes[id].(links := None)];
    var left := if prev.Some? then cut[prev.value := WithNext(cut[prev.value], next)] else cut;
    if next.Some? then left[next.value := WithPrev(left[next.value], prev)] else left
  }

  lemma BypassLinks<T>(nodes: map<nat, Node<T>>, queue: seq<nat>, i: nat, k: nat)
    requires Spells(nodes, queue) && i < |queue| && k < |queue| - 1
    requires forall id :: id in queue <==> id in nodes && nodes[id].links.Some?
    ensures LinkedAs(BypassedNodes(nodes, queue[i], At(queue, i - 1), At(queue, i + 1)),
                     queue[..i] + queue[i + 1..], k)
  {
    var was := if k < i then k else k + 1;
    assert LinkedAs(nodes, queue, was);
    if i > 0 { assert LinkedAs(nodes, queue, i - 1); }
    if i + 1 < |queue| { assert LinkedAs(nodes, queue, i + 1); }
  }

  lemma BypassValues<T>(nodes: map<nat, Node<T>>, id: nat, prev: Option<nat>, next: Option<nat>)
    requires id in nodes
    requires (prev.Some? ==> prev.value in nodes) && (next.Some? ==> next.value in nodes)
    ensures Values(BypassedNodes(nodes, id, prev, next)) == Values(nodes)
    ensures forall k :: k in nodes ==>
              (BypassedNodes(nodes, id, prev, next)[k].links.Some? <==> k != id && nodes[k].links.Some?)
  {
  }

  lemma BypassSpells<T>(nodes: map<nat, Node<T>>, queue: seq<nat>, i: nat)
    requires Spells(nodes, queue) && i < |queue|
    ensures forall id :: id in queue <==> id in nodes && nodes[id].links.Some?
    ensures var after := BypassedNodes(nodes, queue[i], At(queue, i - 1), At(queue, i + 1));
            Spells(after, Without(queue, queue[i])) && Values(after) == Values(nodes)
  {
    QueueIsLive(nodes, queue);
    WithoutAt(queue, i);
    WithoutKeeps(queue, queue[i]);
    var rest := queue[..i] + queue[i + 1..];
    var after := BypassedNodes(nodes, queue[i], At(queue, i - 1), At(queue, i + 1));
    forall k | 0 <= k < |rest|
      ensures LinkedAs(after, rest, k)
    {
      BypassLinks(nodes, queue, i, k);
    }
    BypassValues(nodes, queue[i], At(queue, i - 1), At(queue, i + 1));
    hide BypassedNodes, Values, LinkedAs;
  }

  /** Taking one element out of a queue moves its ends only if the element was at that end. */
  lemma EndsWithout(queue: seq<nat>, i: nat)
    requires Distinct(queue) && i < |queue|
    ensures var rest := Without(queue, queue[i]);
            && |rest| == |queue| - 1
            && At(rest, 0) == (if i == 0 then At(queue, 1) else At(queue, 0))
            && At(rest, |rest| - 1)
            == if i == |queue| - 1 then At(queue, |queue| - 2) else At(queue, |queue| - 1)
  {
    WithoutAt(queue, i);
  }

  class WaitList<T> {
    var head: Option<nat>
    var tail: Option<nat>
    const nodes: Arena<Node<T>>
    ghost var queue: seq<nat>

    ghost predicate Valid()
      reads this, nodes
    {
      && nodes.Valid()
      && Spells(nodes.Live(), queue)
      && head == At(queue, 0)
      && tail == At(queue, |queue| - 1)
    }

    /** The abstract pair this list stands for. */
    ghost function Abs(): Waiters<T>
      reads this, nodes
    {
      Waiters(queue, Values(nodes.Live()))
    }

    lemma AbsWf()
      requires Valid()
      ensures Abs().Wf()
    {
      forall id | id in queue
        ensures id in Abs().nodes
      {
        var i :| 0 <= i < |queue| && queue[i] == id;
        assert LinkedAs(nodes.Live(), queue, i);
      }
    }

    constructor ()
      ensures Valid() && fresh(nodes) && Abs() == Waiters([], map[])
    {
      head, tail, queue := None, None, [];
      nodes := new Arena<Node<T>>();
    }

    /** Points the node at `at` back at `prev`, or moves the tail if there is no such node. */
    method LinkPrev(at: Option<nat>, prev: Option<nat>)
      requires nodes.Valid() && (at.Some? ==> at.value in nodes.Live())
      modifies this`tail, nodes
      ensures nodes.Valid()
      ensures at.None? ==> tail == prev && nodes.Live() == old(nodes.Live())
      ensures at.Some? ==> tail == old(tail)
      ensures at.Some? ==>
                nodes.Live() == old(nodes.Live())[at.value := WithPrev(old(nodes.Live())[at.value], prev)]
    {
      hide Arenas.Arena.Valid, Arenas.Arena.Live;
      if at.Some? {
        var node := nodes.Get(at.value);
        nodes.Put(at.value, WithPrev(node.value, prev));
      } else {
        tail := prev;
      }
    }

    /** Points the node at `at` on to `next`, or moves the head if there is no such node. */
    method LinkNext(at: Option<nat>, next: Option<nat>)
      requires nodes.Valid() && (at.Some? ==> at.value in nodes.Live())
      modifies this`head, nodes
      ensures nodes.Valid()
      ensures at.None? ==> head == next && nodes.Live() == old(nodes.Live())
      ensures at.Some? ==> head == old(head)
      ensures at.Some? ==>
                nodes.Live() == old(nodes.Live())[at.value := WithNext(old(nodes.Live())[at.value], next)]
    {
      hide Arenas.Arena.Valid, Arenas.Arena.Live;
      if at.Some? {
        var node := nodes.Get(at.value);
        nodes.Put(at.value, WithNext(node.value, next));
      } else {
        head := next;
      }
    }

    method PushFront(value: T) returns (id: nat)
      requires Valid()
      modifies this, nodes
      ensures Valid() && id !in old(Abs()).nodes
      ensures Abs() == old(Abs()).PushFront(id, value)
    {
      EndsLive(nodes.Live(), queue);
      hide Arenas.Arena.Valid, Arenas.Arena.Live, Spells, Values, PrependedNodes;
      ghost var before := nodes.Live();
      id := StoreFirst(value);
      PrependSpells(before, queue, id, value);
      head := Some(id);
      queue := [id] + queue;
    }

    method StoreFirst(value: T) returns (id: nat)
      requires nodes.Valid() && (head.Some? ==> head.value in nodes.Live())
      modifies this`tail, nodes
      ensures nodes.Valid() && id !in old(nodes.Live())
      ensures nodes.Live() == PrependedNodes(old(nodes.Live()), head, id, value)
      ensures tail == if head.None? then Some(id) else old(tail)
    {
      hide Arenas.Arena.Valid, Arenas.Arena.Live;
      id := nodes.Insert(Node(Some(Links(None, head)), value));
      LinkPrev(head, Some(id));
    }

    method PushBack(value: T) returns (id: nat)
      requires Valid()
      modifies this, nodes
      ensures Valid() && id !in old(Abs()).nodes
      ensures Abs() == old(Abs()).PushBack(id, value)
    {
      EndsLive(nodes.Live(), queue);
      hide Arenas.Arena.Valid, Arenas.Arena.Live, Spells, Values, AppendedNodes;
      ghost var before := nodes.Live();
      id := StoreLast(value);
      AppendSpells(before, queue, id, value);
      tail := Some(id);
      queue := queue + [id];
    }

    method StoreLast(value: T) returns (id: nat)
      requires nodes.Valid() && (tail.Some? ==> tail.value in nodes.Live())
      modifies this`head, nodes
      ensures nodes.Valid() && id !in old(nodes.Live())
      ensures nodes.Live() == AppendedNodes(old(nodes.Live()), tail, id, value)
      ensures head == if tail.None? then Some(id) else old(head)
    {
      hide Arenas.Arena.Valid, Arenas.Arena.Live;
      id := nodes.Insert(Node(Some(Links(tail, None)), value));
      LinkNext(tail, Some(id));
    }

    /** Rejoins the neighbours of a node whose links have just been taken. */
    method Bypass(id: nat, prev: Option<nat>, next: Option<nat>, ghost before: map<nat, Node<T>>)
      requires nodes.Valid() && id in before
      requires (prev.Some? ==> prev.value in before) && (next.Some? ==> next.value in before)
      requires nodes.Live() == before[id := before[id].(links := None)]
      modifies this`head, this`tail, nodes
      ensures nodes.Valid()
      ensures nodes.Live() == BypassedNodes(before, id, prev, next)
      ensures head == if prev.None? then next else old(head)
      ensures tail == if next.None? then prev else old(tail)
    {
      LinkNext(prev, next);
      LinkPrev(next, prev);
    }

    /**
     The predicate sees and may rewrite the value; the node is detached only if it answers true.
     It runs on a detached node too, and then no link changes.
     */
    method UnlinkWaiter(id: nat, shouldUnlink: T -> (bool, T)) returns (r: Option<T>)
      requires Valid() && id in Abs().nodes
      modifies this, nodes
      ensures Valid()
      ensures var (unlink, value) := shouldUnlink(old(Abs()).nodes[id]);
              && r == (if unlink then Some(value) else None)
              && Abs() == if unlink then old(Abs()).Detach(id, value) else old(Abs()).Put(id, value)
    {
      ValuesKeys(nodes.Live());
      hide Arenas.Arena.Valid, Arenas.Arena.Live, Spells, Values;
      var found := nodes.Get(id);
      var node := found.value;
      var (unlink, value) := shouldUnlink(node.value);
      RevalueSpells(nodes.Live(), queue, id, value);
      QueueIsLive(nodes.Live(), queue);
      nodes.Put(id, node.(value := value));
      if !unlink {
        return None;
      }
      r := Some(value);
      if node.links.Some? {
        Detach(id, node.links.value, value);
      } else {
        WithoutAbsent(queue, id);
      }
    }

    /** Takes the links of a linked node and rejoins its neighbours. */
    method Detach(id: nat, links: Links, value: T)
      requires Valid() && id in nodes.Live() && nodes.Live()[id] == Node(Some(links), value)
      modifies this, nodes
      ensures Valid() && Values(nodes.Live()) == old(Values(nodes.Live()))
      ensures queue == Without(old(queue), id)
    {
      hide Arenas.Arena.Valid, Arenas.Arena.Live, Spells, Values;
      ghost var before := nodes.Live();
      ghost var i := IndexOf(before, queue, id);
      BypassSpells(before, queue, i);
      EndsWithout(queue, i);
      nodes.Put(id, Node(None, value));
      Bypass(id, links.prev, links.next, before);
      queue := Without(queue, id);
    }

    method UnlinkFirstWaiter(shouldUnlink: T -> (bool, T)) returns (r: Option<(nat, T)>)
      requires Valid()
      modifies this, nodes
      ensures Valid()
      ensures var was := old(Abs());
              if was.queue == [] then r == None && Abs() == was
              else
                && was.queue[0] in was.nodes
                && var id := was.queue[0];
                   var (unlink, value) := shouldUnlink(was.nodes[id]);
                   && r == (if unlink then Some((id, value)) else None)
                   && Abs() == if unlink then Waiters(was.queue[1..], was.nodes[id := value]) else was.Put(id, value)
    {
      AbsWf();
      if head.None? {
        return None;
      }
      var first := head.value;
      var unlinked := UnlinkWaiter(first, shouldUnlink);
      r := if unlinked.Some? then Some((first, unlinked.value)) else None;
    }

    method IsEmpty() returns (empty: bool)
      requires Valid()
      ensures empty <==> Abs().queue == []
    {
      empty := head.None?;
    }

    /** A read through the reference `waiter_mut` returns. */
    method Waiter(id: nat) returns (value: T)
      requires Valid() && id in Abs().nodes
      ensures value == Abs().nodes[id]
    {
      ValuesKeys(nodes.Live());
      hide Arenas.Arena.Valid, Arenas.Arena.Live, Spells, Values;
      var node := nodes.Get(id);
      value := node.value.value;
    }

    /** A write through that reference. */
    method PutWaiter(id: nat, value: T)
      requires Valid() && id in Abs().nodes
      modifies nodes
      ensures Valid() && Abs() == old(Abs()).Put(id, value)
    {
      ValuesKeys(nodes.Live());
      RevalueSpells(nodes.Live(), queue, id, value);
      hide Arenas.Arena.Valid, Arenas.Arena.Live, Spells, Values;
      var node := nodes.Get(id);
      nodes.Put(id, node.value.(value := value));
    }

    method First() returns (first: Option<nat>)
      requires Valid()
      ensures first == At(Abs().queue, 0)
    {
      first := head;
    }

    /** The source asserts that the node is detached and live. */
    method RemoveUnlinkedWaiter(id: nat) returns (value: T)
      requires Valid() && id in Abs().nodes && id !in Abs().queue
      modifies this, nodes
      ensures Valid()
      ensures value == old(Abs()).nodes[id]
      ensures Abs() == old(Abs()).Remove(id)
    {
      ValuesKeys(nodes.Live());
      RemoveSpells(nodes.Live(), queue, id);
      hide Arenas.Arena.Valid, Arenas.Arena.Live, Spells, Values;
      var node := nodes.Remove(id);
      value := node.value;
    }
  }

  lemma RemoveSpells<T>(nodes: map<nat, Node<T>>, queue: seq<nat>, id: nat)
    requires Spells(nodes, queue) && id !in queue
    ensures Spells(nodes - {id}, queue) && Values(nodes - {id}) == Values(nodes) - {id}
  {
    forall i | 0 <= i < |queue|
      ensures LinkedAs(nodes - {id}, queue, i)
    {
      assert LinkedAs(nodes, queue, i) && queue[i] in queue;
    }
  }

  /** Writing through `waiter_mut` changes no link. */
  lemma RevalueSpells<T>(nodes: map<nat, Node<T>>, queue: seq<nat>, id: nat, value: T)
    requires Spells(nodes, queue) && id in nodes
    ensures var after := nodes[id := nodes[id].(value := value)];
            Spells(after, queue) && Values(after) == Values(nodes)[id := value]
  {
    var after := nodes[id := nodes[id].(value := value)];
    forall i | 0 <= i < |queue|
      ensures LinkedAs(after, queue, i)
    {
      assert LinkedAs(nodes, queue, i);
    }
  }
}
