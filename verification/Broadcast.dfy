/**
 The broadcast backlog: one shared buffer, one cursor per subscription, and per-slot cursor counts
 that stand in for a scan for the slowest subscription. It is proved to behave as if every
 subscription had a queue of its own.
 */
module Broadcast {
  import opened Counts
  import opened Options

  // ---- The reference: a queue per subscription ----

  datatype Op<T> = Publish(msg: T) | Subscribe(id: nat) | Unsubscribe(id: nat) | Receive(id: nat)

  function Deliver<T>(queues: map<nat, seq<T>>, op: Op<T>): map<nat, seq<T>> {
    match op
    case Publish(msg) => map k | k in queues :: queues[k] + [msg]
    case Subscribe(id) => if id in queues then queues else queues[id := []]
    case Unsubscribe(id) => queues - {id}
    case Receive(id) => if id in queues && queues[id] != [] then queues[id := queues[id][1..]] else queues
  }

  /** What a receive returns. */
  function Next<T>(queues: map<nat, seq<T>>, op: Op<T>): Option<T> {
    if op.Receive? && op.id in queues && queues[op.id] != [] then Some(queues[op.id][0]) else None
  }

  function DeliverAll<T>(queues: map<nat, seq<T>>, ops: seq<Op<T>>): map<nat, seq<T>> {
    if ops == [] then queues else Deliver(DeliverAll(queues, ops[..|ops| - 1]), ops[|ops| - 1])
  }

  function Results<T>(queues: map<nat, seq<T>>, ops: seq<Op<T>>): seq<Option<T>> {
    if ops == [] then []
    else
      var before := ops[..|ops| - 1];
      Results(queues, before) + [Next(DeliverAll(queues, before), ops[|ops| - 1])]
  }

  function Published<T>(ops: seq<Op<T>>): seq<T> {
    if ops == [] then []
    else if ops[|ops| - 1].Publish? then Published(ops[..|ops| - 1]) + [ops[|ops| - 1].msg]
    else Published(ops[..|ops| - 1])
  }

  /** What subscription `id` receives over a run. */
  function Received<T>(queues: map<nat, seq<T>>, ops: seq<Op<T>>, id: nat): seq<T> {
    if ops == [] then []
    else
      var before := ops[..|ops| - 1];
      var next := Next(DeliverAll(queues, before), ops[|ops| - 1]);
      if next.Some? && ops[|ops| - 1] == Op.Receive(id) then Received(queues, before, id) + [next.value]
      else Received(queues, before, id)
  }

  /** A subscription gets every publication since it was made, once and in order. */
  lemma {:induction false} GetsEverything<T>(queues: map<nat, seq<T>>, ops: seq<Op<T>>, id: nat)
    requires id in queues && Op.Unsubscribe(id) !in ops
    ensures id in DeliverAll(queues, ops)
    ensures Received(queues, ops, id) + DeliverAll(queues, ops)[id] == queues[id] + Published(ops)
  {
    if ops != [] {
      var before, op := ops[..|ops| - 1], ops[|ops| - 1];
      GetsEverything(queues, before, id);
      var queue := DeliverAll(queues, before)[id];
      if op.Publish? {
        assert Received(queues, before, id) + (queue + [op.msg]) == (Received(queues, before, id) + queue) + [op.msg];
        assert queues[id] + (Published(before) + [op.msg]) == (queues[id] + Published(before)) + [op.msg];
      } else if op == Op.Receive(id) && queue != [] {
        assert queue == [queue[0]] + queue[1..];
        assert Received(queues, before, id) + queue == (Received(queues, before, id) + [queue[0]]) + queue[1..];
      }
    }
  }

  /** What the results of a run gave to receives by `id`. */
  function Got<T>(ops: seq<Op<T>>, results: seq<Option<T>>, id: nat): seq<T>
    requires |results| == |ops|
  {
    if ops == [] then []
    else
      var n := |ops| - 1;
      Got(ops[..n], results[..n], id) + if ops[n] == Op.Receive(id) && results[n].Some? then [results[n].value] else []
  }

  lemma {:induction false} ResultsLength<T>(queues: map<nat, seq<T>>, ops: seq<Op<T>>)
    ensures |Results(queues, ops)| == |ops|
  {
    if ops != [] {
      ResultsLength(queues, ops[..|ops| - 1]);
    }
  }

  lemma {:induction false} GotIsReceived<T>(queues: map<nat, seq<T>>, ops: seq<Op<T>>, id: nat)
    ensures |Results(queues, ops)| == |ops| && Got(ops, Results(queues, ops), id) == Received(queues, ops, id)
  {
    ResultsLength(queues, ops);
    if ops != [] {
      GotIsReceived(queues, ops[..|ops| - 1], id);
      assert Results(queues, ops)[..|ops| - 1] == Results(queues, ops[..|ops| - 1]);
    }
  }

  /** A run can be taken up where it was left. */
  lemma {:induction false} Resumed<T>(queues: map<nat, seq<T>>, pre: seq<Op<T>>, post: seq<Op<T>>)
    ensures DeliverAll(queues, pre + post) == DeliverAll(DeliverAll(queues, pre), post)
    ensures Results(queues, pre + post) == Results(queues, pre) + Results(DeliverAll(queues, pre), post)
  {
    hide Deliver, Next;
    if post == [] {
      assert pre + post == pre;
    } else {
      var before := post[..|post| - 1];
      Resumed(queues, pre, before);
      assert (pre + post)[..|pre + post| - 1] == pre + before;
    }
  }

  /** What was published since `ops[k]` subscribed `id` is what its receives returned and what it has not read. */
  ghost predicate GetsAllSince<T>(ops: seq<Op<T>>, results: seq<Option<T>>, k: nat, id: nat)
    requires |results| == |ops| && k < |ops|
  {
    && id in DeliverAll(map[], ops)
    && Got(ops[k + 1..], results[k + 1..], id) + DeliverAll(map[], ops)[id] == Published(ops[k + 1..])
  }

  /** The operation at `k` makes a new subscription, which is kept. */
  ghost predicate Subscribes<T>(ops: seq<Op<T>>, k: nat, id: nat)
    requires k < |ops|
  {
    && ops[k] == Op.Subscribe(id) && id !in DeliverAll(map[], ops[..k])
    && Op.Unsubscribe(id) !in ops[k + 1..]
  }

  lemma SubscriberGetsAll<T>(ops: seq<Op<T>>, k: nat, id: nat)
    requires k < |ops| && Subscribes(ops, k, id)
    ensures |Results(map[], ops)| == |ops| && GetsAllSince(ops, Results(map[], ops), k, id)
  {
    var pre, post := ops[..k + 1], ops[k + 1..];
    var queues := DeliverAll(map[], pre);
    assert ops == pre + post && pre[..|pre| - 1] == ops[..k];
    assert id in queues && queues[id] == [];
    hide Deliver, Next;
    Resumed(map[], pre, post);
    ResultsLength<T>(map[], pre);
    ResultsLength<T>(map[], ops);
    GotIsReceived(queues, post, id);
    GetsEverything(queues, post, id);
    assert Results(map[], ops)[k + 1..] == Results(queues, post);
  }

  /** After any run, a receive by a subscription returns the oldest publication it has not had, if there is one. */
  lemma NextReceive<T>(ops: seq<Op<T>>, k: nat, id: nat)
    requires k < |ops| && Subscribes(ops, k, id)
    ensures |Results(map[], ops)| == |ops|
    ensures var since, got := Published(ops[k + 1..]), Got(ops[k + 1..], Results(map[], ops)[k + 1..], id);
            Next(DeliverAll(map[], ops), Op.Receive(id)) == if |got| < |since| then Some(since[|got|]) else None
  {
    SubscriberGetsAll(ops, k, id);
    hide DeliverAll, Results, Published, Got;
    var got := Got(ops[k + 1..], Results(map[], ops)[k + 1..], id);
    var queue := DeliverAll(map[], ops)[id];
    assert got + queue == Published(ops[k + 1..]);
    assert queue != [] ==> (got + queue)[|got|] == queue[0];
  }

  /** Whether `id` subscribed last, or unsubscribed. */
  ghost predicate Subscribed<T>(ops: seq<Op<T>>, id: nat) {
    ops != [] &&
    var last := ops[|ops| - 1];
    if last == Op.Subscribe(id) then true
    else if last == Op.Unsubscribe(id) then false
    else Subscribed(ops[..|ops| - 1], id)
  }

  /** There is a queue for exactly those who subscribed and have not unsubscribed since. */
  lemma {:induction false} QueueForSubscribed<T>(ops: seq<Op<T>>, id: nat)
    ensures id in DeliverAll(map[], ops) <==> Subscribed(ops, id)
  {
    if ops != [] {
      QueueForSubscribed(ops[..|ops| - 1], id);
    }
  }

  // ---- Counting cursors ----

  function Readers(receivers: map<nat, nat>, version: nat): set<nat> {
    set k | k in receivers && receivers[k] == version
  }

  function CursorsAt(receivers: map<nat, nat>, version: nat): nat {
    |Readers(receivers, version)|
  }

  lemma Enters(receivers: map<nat, nat>, id: nat, at: nat, v: nat)
    requires id !in receivers
    ensures CursorsAt(receivers[id := at], v) == CursorsAt(receivers, v) + One(at == v)
  {
    assert Readers(receivers[id := at], v) == Readers(receivers, v) + if at == v then {id} else {};
  }

  lemma Leaves(receivers: map<nat, nat>, id: nat, v: nat)
    requires id in receivers
    ensures CursorsAt(receivers, v) == CursorsAt(receivers - {id}, v) + One(receivers[id] == v)
  {
    assert (receivers - {id})[id := receivers[id]] == receivers;
    Enters(receivers - {id}, id, receivers[id], v);
  }

  lemma Moves(receivers: map<nat, nat>, id: nat, to: nat, v: nat)
    requires id in receivers
    ensures CursorsAt(receivers[id := to], v) + One(receivers[id] == v) == CursorsAt(receivers, v) + One(to == v)
  {
    Leaves(receivers, id, v);
    assert receivers[id := to] == (receivers - {id})[id := to];
    Enters(receivers - {id}, id, to, v);
  }

  lemma NobodyThere(receivers: map<nat, nat>, v: nat)
    ensures CursorsAt(receivers, v) == 0 <==> forall k :: k in receivers ==> receivers[k] != v
  {
    if CursorsAt(receivers, v) == 0 {
      assert Readers(receivers, v) == {};
      assert forall k :: k in receivers && receivers[k] == v ==> k in Readers(receivers, v);
    } else {
      var k :| k in Readers(receivers, v);
    }
  }

  // ---- The backlog ----

  const LAST_VERSION: nat := 0xFFFF_FFFF_FFFF_FFFF

  datatype Slot<T> = Slot(msg: T, cursors: nat)

  function Messages<T>(slots: seq<Slot<T>>): seq<T> {
    seq(|slots|, i requires 0 <= i < |slots| => slots[i].msg)
  }

  /** Slot counts and the tail count tally every cursor once, and cursors lie in the buffer's range. */
  ghost predicate Tallied<T>(buffer: seq<Slot<T>>, head: nat, atTail: nat, receivers: map<nat, nat>) {
    && (forall k :: k in receivers ==> head <= receivers[k] <= head + |buffer|)
    && (forall i :: 0 <= i < |buffer| ==> buffer[i].cursors == CursorsAt(receivers, head + i))
    && atTail == CursorsAt(receivers, head + |buffer|)
  }

  /** Some subscription has yet to read `version`. */
  ghost predicate Waited(receivers: map<nat, nat>, version: nat) {
    exists k :: k in receivers && receivers[k] == version
  }

  function QueueOf<T>(buffer: seq<Slot<T>>, head: nat, cursor: nat): seq<T> {
    if head <= cursor <= head + |buffer| then Messages(buffer[cursor - head..]) else []
  }

  function QueuesOf<T>(buffer: seq<Slot<T>>, head: nat, receivers: map<nat, nat>): map<nat, seq<T>> {
    map k | k in receivers :: QueueOf(buffer, head, receivers[k])
  }

  class Backlog<T> {
    var buffer: seq<Slot<T>>
    var head: nat
    var atTail: nat
    var tail: nat
    var receivers: map<nat, nat>

    /** The head is the slowest cursor, or the tail when nobody is behind. */
    ghost predicate Valid()
      reads this
    {
      && tail == head + |buffer| <= LAST_VERSION
      && Tallied(buffer, head, atTail, receivers)
      && (buffer != [] ==> Waited(receivers, head))
    }

    ghost function Queues(): map<nat, seq<T>>
      reads this
    {
      QueuesOf(buffer, head, receivers)
    }

    constructor ()
      ensures Valid() && Queues() == map[] && tail == 0
    {
      buffer, head, atTail, tail, receivers := [], 0, 0, 0, map[];
    }

    /** False when the version counter is exhausted; nothing changes then. */
    method Publish(msg: T) returns (ok: bool)
      requires Valid()
      modifies this
      ensures Valid() && receivers == old(receivers)
      ensures ok <==> old(tail) < LAST_VERSION
      ensures tail == old(tail) + One(ok)
      ensures Queues() == if ok then Deliver(old(Queues()), Op.Publish(msg)) else old(Queues())
    {
      ok := tail < LAST_VERSION;
      if !ok {
        return;
      }
      if |receivers| == 0 {
        PublishDiscarded(msg);
      } else {
        PublishRetained(msg);
      }
    }

    /** The backlog is exactly as long as the longest queue: the slowest subscription's. */
    method Retained() returns (n: nat)
      requires Valid()
      ensures forall k :: k in Queues() ==> |Queues()[k]| <= n
      ensures n > 0 ==> exists k :: k in Queues() && |Queues()[k]| == n
    {
      n := |buffer|;
      if n > 0 {
        ghost var k :| k in receivers && receivers[k] == head;
        assert |Queues()[k]| == n;
      }
    }

    method Unread(id: nat) returns (n: nat)
      requires Valid() && id in receivers
      ensures id in Queues() && n == |Queues()[id]|
    {
      assert head <= receivers[id] <= head + |buffer|;
      n := tail - receivers[id];
    }

    /** Nobody can read the message, so nothing is kept. */
    method PublishDiscarded(ghost msg: T)
      requires Valid() && receivers == map[] && tail < LAST_VERSION
      modifies this`tail, this`head
      ensures Valid() && buffer == [] && tail == old(tail) + 1
      ensures Queues() == Deliver(old(Queues()), Op.Publish(msg))
    {
      hide Tallied, QueuesOf;
      NothingKept(buffer, head, atTail, tail + 1, Op.Publish(msg));
      tail := tail + 1;
      head := tail;
    }

    method PublishRetained(msg: T)
      requires Valid() && |receivers| > 0 && tail < LAST_VERSION
      modifies this`tail, this`buffer, this`atTail
      ensures Valid() && tail == old(tail) + 1
      ensures Queues() == Deliver(old(Queues()), Op.Publish(msg))
    {
      hide Tallied, QueuesOf;
      CaughtUp(buffer, head, atTail, receivers);
      Appended(buffer, head, atTail, receivers, msg);
      tail := tail + 1;
      buffer, atTail := buffer + [Slot(msg, atTail)], 0;
    }

    method Subscribe(id: nat)
      requires Valid() && id !in receivers
      modifies this`atTail, this`receivers
      ensures Valid() && id in receivers
      ensures Queues() == Deliver(old(Queues()), Op.Subscribe(id))
    {
      hide Tallied, QueuesOf;
      Joined(buffer, head, atTail, receivers, id);
      atTail := atTail + 1;
      receivers := receivers[id := tail];
    }

    /** Drops a subscription and returns the messages that nobody can read any more. */
    method Unsubscribe(id: nat) returns (reclaimed: seq<T>)
      requires Valid() && id in receivers
      modifies this`atTail, this`receivers, this`buffer, this`head
      ensures Valid() && receivers == old(receivers) - {id}
      ensures Queues() == Deliver(old(Queues()), Op.Unsubscribe(id))
      ensures Messages(old(buffer)) == reclaimed + Messages(buffer)
    {
      hide Tallied, QueuesOf;
      InRange(buffer, head, atTail, receivers, id);
      HeadCounted(buffer, head, atTail, receivers);
      QueuesLeft(buffer, head, receivers, id);
      var cursor := receivers[id];
      reclaimed := [];
      if cursor == tail {
        LeftTail(buffer, head, atTail, receivers, id);
        receivers := receivers - {id};
        atTail := atTail - 1;
        return;
      }
      var offset := cursor - head;
      LeftSlot(buffer, head, atTail, receivers, id);
      receivers := receivers - {id};
      buffer := Recount(buffer, offset, buffer[offset].cursors - 1);
      if offset == 0 && buffer[0].cursors == 0 {
        reclaimed := ReclaimVacated();
      } else {
        HeadCounted(buffer, head, atTail, receivers);
      }
    }

    /** Pops the prefix without cursors, up to the slowest cursor that is left. */
    method ReclaimVacated() returns (reclaimed: seq<T>)
      requires tail == head + |buffer| <= LAST_VERSION && Tallied(buffer, head, atTail, receivers)
      requires buffer != [] && buffer[0].cursors == 0
      modifies this`buffer, this`head
      ensures Valid() && Queues() == old(Queues())
      ensures Messages(old(buffer)) == reclaimed + Messages(buffer)
    {
      hide Tallied, QueuesOf;
      var extra := 1;
      while extra < |buffer| && buffer[extra].cursors == 0
        invariant 1 <= extra <= |buffer|
        invariant forall i :: 0 <= i < extra ==> buffer[i].cursors == 0
      {
        extra := extra + 1;
      }
      Vacated(buffer, head, atTail, receivers, extra);
      if extra < |buffer| {
        HeadCounted(buffer[extra..], head + extra, atTail, receivers);
      }
      reclaimed := Messages(buffer[..extra]);
      head := head + extra;
      buffer := buffer[extra..];
    }

    /** The next message of a subscription; `reclaimed` when it was the last one to read it. */
    method Receive(id: nat) returns (msg: Option<T>, reclaimed: bool)
      requires Valid() && id in receivers
      modifies this`receivers, this`buffer, this`head, this`atTail
      ensures Valid() && receivers.Keys == old(receivers.Keys)
      ensures msg == Next(old(Queues()), Op.Receive(id))
      ensures Queues() == Deliver(old(Queues()), Op.Receive(id))
      ensures reclaimed <==> msg.Some? && !Waited(receivers, old(receivers[id])) && old(receivers[id]) == old(head)
      ensures old(Messages(buffer)) == (if reclaimed then [msg.value] else []) + Messages(buffer)
    {
      hide Tallied, QueuesOf;
      InRange(buffer, head, atTail, receivers, id);
      var version := receivers[id];
      if version >= tail {
        AtEnd(buffer, head, receivers, id);
        return None, false;
      }
      var offset := version - head;
      msg := Some(buffer[offset].msg);
      StepOn(id);
      reclaimed := offset == 0 && buffer[0].cursors == 0;
      HeadCounted(buffer, head, atTail, receivers);
      if reclaimed {
        Vacated(buffer, head, atTail, receivers, 1);
        buffer := buffer[1..];
        head := head + 1;
        assert receivers[id] == head;
      }
    }

    /** Moves a cursor on: it is counted at its next version before it leaves this one. */
    method StepOn(id: nat)
      requires Valid() && id in receivers
      requires head <= receivers[id] < tail && buffer[receivers[id] - head].cursors > 0
      modifies this`receivers, this`buffer, this`atTail
      ensures Tallied(buffer, head, atTail, receivers) && |buffer| == |old(buffer)|
      ensures receivers == old(receivers)[id := old(receivers[id]) + 1]
      ensures Queues() == Deliver(old(Queues()), Op.Receive(id))
      ensures Next(old(Queues()), Op.Receive(id)) == Some(old(buffer[receivers[id] - head].msg))
      ensures Messages(buffer) == Messages(old(buffer))
      ensures old(receivers[id]) != head ==> buffer[0].cursors > 0
    {
      hide Tallied, QueuesOf;
      HeadCounted(buffer, head, atTail, receivers);
      Stepped(buffer, head, atTail, receivers, id);
      SteppedQueues(buffer, head, receivers, id);
      var version := receivers[id];
      var offset := version - head;
      receivers := receivers[id := version + 1];
      if version + 1 == tail {
        atTail := atTail + 1;
      } else {
        buffer := Recount(buffer, offset + 1, buffer[offset + 1].cursors + 1);
      }
      buffer := Recount(buffer, offset, buffer[offset].cursors - 1);
    }

    /** One operation; an id that is not registered, or already is, leaves the backlog alone. */
    method Apply(op: Op<T>) returns (ok: bool, result: Option<T>)
      requires Valid()
      modifies this
      ensures Valid()
      ensures ok <==> !(op.Publish? && old(tail) == LAST_VERSION)
      ensures ok ==> Queues() == Deliver(old(Queues()), op) && result == Next(old(Queues()), op)
      ensures ok ==> tail == old(tail) + One(op.Publish?)
    {
      hide Valid, QueuesOf, QueueOf, Deliver;
      ok, result := true, None;
      Unregistered(Queues(), op);
      SameKeys(buffer, head, receivers);
      match op
      case Publish(msg) => ok := Publish(msg);
      case Subscribe(id) => if id !in receivers { Subscribe(id); }
      case Unsubscribe(id) => if id in receivers { var reclaimed := Unsubscribe(id); }
      case Receive(id) =>
        if id in receivers {
          var reclaimed;
          result, reclaimed := Receive(id);
        }
    }
  }

  /**
   Any run of the backlog gives the results of the reference, so every subscription gets what has been
   published since it was made, once and in order, as far as it has read. The run stops early only when
   the version counter is exhausted.
   */
  method Play<T>(ops: seq<Op<T>>) returns (results: seq<Option<T>>)
    ensures |results| <= |ops| && results == Results(map[], ops[..|results|])
    ensures |results| < |ops| ==> |Published(ops[..|results|])| == LAST_VERSION
    ensures forall k, id :: 0 <= k < |results| && Subscribes(ops[..|results|], k, id) ==>
              GetsAllSince(ops[..|results|], results, k, id)
  {
    hide Tallied, QueuesOf, Deliver, Next, GetsAllSince;
    var log := new Backlog<T>();
    results := [];
    while |results| < |ops|
      invariant |results| <= |ops| && fresh(log) && log.Valid()
      invariant results == Results(map[], ops[..|results|])
      invariant log.Queues() == DeliverAll(map[], ops[..|results|])
      invariant log.tail == |Published(ops[..|results|])|
      decreases |ops| - |results|
    {
      var i := |results|;
      assert ops[..i + 1][..i] == ops[..i];
      var ok, result := log.Apply(ops[i]);
      if !ok {
        break;
      }
      results := results + [result];
    }
    assert |results| == |ops| ==> ops[..|results|] == ops;
    ghost var played := ops[..|results|];
    forall k, id | 0 <= k < |results| && Subscribes(played, k, id)
      ensures GetsAllSince(played, results, k, id)
    {
      SubscriberGetsAll(played, k, id);
    }
  }

  lemma SameKeys<T>(buffer: seq<Slot<T>>, head: nat, receivers: map<nat, nat>)
    ensures QueuesOf(buffer, head, receivers).Keys == receivers.Keys
  {
  }

  /** Operations on an id that is not registered, or already is, have no effect. */
  lemma Unregistered<T>(queues: map<nat, seq<T>>, op: Op<T>)
    ensures op.Subscribe? && op.id in queues.Keys ==> Deliver(queues, op) == queues
    ensures (op.Unsubscribe? || op.Receive?) && op.id !in queues.Keys ==> Deliver(queues, op) == queues
    ensures op.Receive? && op.id !in queues.Keys ==> Next(queues, op) == None
    ensures !op.Receive? ==> Next(queues, op) == None
  {
  }

  lemma AtEnd<T>(buffer: seq<Slot<T>>, head: nat, receivers: map<nat, nat>, id: nat)
    requires id in receivers && receivers[id] == head + |buffer|
    ensures var queues := QueuesOf(buffer, head, receivers);
            Next(queues, Op.Receive(id)) == None && Deliver(queues, Op.Receive(id)) == queues
  {
  }

  /** The buffer after subscription `id` has moved on by one, before its head is looked at. */
  function Passed<T>(buffer: seq<Slot<T>>, offset: nat): seq<Slot<T>>
    requires offset < |buffer| && buffer[offset].cursors > 0
  {
    var buffer' := if offset + 1 == |buffer| then buffer
                   else Recount(buffer, offset + 1, buffer[offset + 1].cursors + 1);
    Recount(buffer', offset, buffer[offset].cursors - 1)
  }

  lemma Stepped<T>(buffer: seq<Slot<T>>, head: nat, atTail: nat, receivers: map<nat, nat>, id: nat)
    requires Tallied(buffer, head, atTail, receivers) && id in receivers
    requires head <= receivers[id] < head + |buffer| && buffer[receivers[id] - head].cursors > 0
    ensures var offset := receivers[id] - head;
            Tallied(Passed(buffer, offset), head, if offset + 1 == |buffer| then atTail + 1 else atTail,
                    receivers[id := receivers[id] + 1])
  {
    forall v {
      Moves(receivers, id, receivers[id] + 1, v);
    }
  }

  lemma QueueNext<T>(buffer: seq<Slot<T>>, head: nat, cursor: nat)
    requires head <= cursor < head + |buffer|
    ensures QueueOf(buffer, head, cursor) == [buffer[cursor - head].msg] + QueueOf(buffer, head, cursor + 1)
  {
  }

  /** Moving a cursor on takes the first message off its queue. */
  lemma ReadsOn<T>(buffer: seq<Slot<T>>, head: nat, receivers: map<nat, nat>, id: nat)
    requires id in receivers && head <= receivers[id] < head + |buffer|
    ensures var queues := QueuesOf(buffer, head, receivers);
            && Next(queues, Op.Receive(id)) == Some(buffer[receivers[id] - head].msg)
            && QueuesOf(buffer, head, receivers[id := receivers[id] + 1]) == Deliver(queues, Op.Receive(id))
  {
    QueueNext(buffer, head, receivers[id]);
    hide QueueOf, Messages;
  }

  lemma SteppedQueues<T>(buffer: seq<Slot<T>>, head: nat, receivers: map<nat, nat>, id: nat)
    requires id in receivers && head <= receivers[id] < head + |buffer| && buffer[receivers[id] - head].cursors > 0
    ensures var offset := receivers[id] - head;
            var buffer' := Passed(buffer, offset);
            var receivers' := receivers[id := receivers[id] + 1];
            var queues := QueuesOf(buffer, head, receivers);
            && Next(queues, Op.Receive(id)) == Some(buffer[offset].msg)
            && QueuesOf(buffer', head, receivers') == Deliver(queues, Op.Receive(id))
            && Messages(buffer') == Messages(buffer)
  {
    hide QueueOf, QueuesOf, Messages, Deliver, Next, Passed;
    ReadsOn(buffer, head, receivers, id);
    PassedQueues(buffer, head, receivers[id := receivers[id] + 1], receivers[id] - head);
  }

  lemma PassedQueues<T>(buffer: seq<Slot<T>>, head: nat, receivers: map<nat, nat>, offset: nat)
    requires offset < |buffer| && buffer[offset].cursors > 0
    ensures QueuesOf(Passed(buffer, offset), head, receivers) == QueuesOf(buffer, head, receivers)
    ensures Messages(Passed(buffer, offset)) == Messages(buffer)
  {
    hide QueueOf, QueuesOf, Messages;
    if offset + 1 < |buffer| {
      SameQueues(buffer, head, receivers, offset + 1, buffer[offset + 1].cursors + 1);
      var buffer1 := Recount(buffer, offset + 1, buffer[offset + 1].cursors + 1);
      SameQueues(buffer1, head, receivers, offset, buffer[offset].cursors - 1);
    } else {
      SameQueues(buffer, head, receivers, offset, buffer[offset].cursors - 1);
    }
  }

  lemma Joined<T>(buffer: seq<Slot<T>>, head: nat, atTail: nat, receivers: map<nat, nat>, id: nat)
    requires Tallied(buffer, head, atTail, receivers) && id !in receivers
    ensures var receivers' := receivers[id := head + |buffer|];
            && Tallied(buffer, head, atTail + 1, receivers')
            && QueuesOf(buffer, head, receivers') == Deliver(QueuesOf(buffer, head, receivers), Op.Subscribe(id))
            && (forall k :: k in receivers ==> receivers'[k] == receivers[k])
  {
    var receivers' := receivers[id := head + |buffer|];
    forall v {
      Enters(receivers, id, head + |buffer|, v);
    }
    assert QueueOf(buffer, head, receivers'[id]) == [];
  }

  lemma InRange<T>(buffer: seq<Slot<T>>, head: nat, atTail: nat, receivers: map<nat, nat>, id: nat)
    requires Tallied(buffer, head, atTail, receivers) && id in receivers
    ensures var at := receivers[id] - head;
            0 <= at <= |buffer| && if at == |buffer| then atTail > 0 else buffer[at].cursors > 0
  {
    NobodyThere(receivers, receivers[id]);
    if receivers[id] < head + |buffer| {
      assert buffer[receivers[id] - head].cursors == CursorsAt(receivers, receivers[id]);
    }
  }

  lemma HeadCounted<T>(buffer: seq<Slot<T>>, head: nat, atTail: nat, receivers: map<nat, nat>)
    requires Tallied(buffer, head, atTail, receivers)
    ensures buffer != [] ==> (Waited(receivers, head) <==> buffer[0].cursors > 0)
  {
    NobodyThere(receivers, head + 0);
  }

  lemma NothingKept<T>(buffer: seq<Slot<T>>, head: nat, atTail: nat, head': nat, op: Op<T>)
    requires Tallied(buffer, head, atTail, map[]) && op.Publish?
    requires buffer != [] ==> Waited(map[], head)
    ensures buffer == [] && atTail == 0
    ensures Tallied(buffer, head', atTail, map[])
    ensures QueuesOf(buffer, head', map[]) == Deliver(QueuesOf(buffer, head, map[]), op)
  {
  }

  function Recount<T>(buffer: seq<Slot<T>>, i: nat, cursors: nat): seq<Slot<T>>
    requires i < |buffer|
  {
    buffer[i := buffer[i].(cursors := cursors)]
  }

  /** Counts do not matter to what subscriptions will read. */
  lemma SameQueues<T>(buffer: seq<Slot<T>>, head: nat, receivers: map<nat, nat>, i: nat, cursors: nat)
    requires i < |buffer|
    ensures QueuesOf(Recount(buffer, i, cursors), head, receivers) == QueuesOf(buffer, head, receivers)
    ensures Messages(Recount(buffer, i, cursors)) == Messages(buffer)
  {
    var buffer' := Recount(buffer, i, cursors);
    forall k | k in receivers
      ensures QueueOf(buffer', head, receivers[k]) == QueueOf(buffer, head, receivers[k])
    {
    }
  }

  lemma QueuesLeft<T>(buffer: seq<Slot<T>>, head: nat, receivers: map<nat, nat>, id: nat)
    ensures QueuesOf(buffer, head, receivers - {id}) == Deliver(QueuesOf(buffer, head, receivers), Op.Unsubscribe(id))
  {
  }

  lemma LeftTail<T>(buffer: seq<Slot<T>>, head: nat, atTail: nat, receivers: map<nat, nat>, id: nat)
    requires Tallied(buffer, head, atTail, receivers) && id in receivers && receivers[id] == head + |buffer|
    ensures atTail > 0 && Tallied(buffer, head, atTail - 1, receivers - {id})
    ensures buffer != [] && Waited(receivers, head) ==> Waited(receivers - {id}, head)
  {
    forall v {
      Leaves(receivers, id, v);
    }
    if buffer != [] && Waited(receivers, head) {
      var k :| k in receivers && receivers[k] == head;
      assert k in receivers - {id};
    }
  }

  lemma LeftSlot<T>(buffer: seq<Slot<T>>, head: nat, atTail: nat, receivers: map<nat, nat>, id: nat)
    requires Tallied(buffer, head, atTail, receivers) && id in receivers
    requires head <= receivers[id] < head + |buffer| && buffer[receivers[id] - head].cursors > 0
    ensures var at := receivers[id] - head;
            var buffer' := Recount(buffer, at, buffer[at].cursors - 1);
            && Tallied(buffer', head, atTail, receivers - {id})
            && QueuesOf(buffer', head, receivers - {id}) == QueuesOf(buffer, head, receivers - {id})
            && Messages(buffer') == Messages(buffer)
  {
    forall v {
      Leaves(receivers, id, v);
    }
    var at := receivers[id] - head;
    SameQueues(buffer, head, receivers - {id}, at, buffer[at].cursors - 1);
  }

  /** Slots without cursors at the front can go without anyone noticing. */
  lemma Vacated<T>(buffer: seq<Slot<T>>, head: nat, atTail: nat, receivers: map<nat, nat>, n: nat)
    requires Tallied(buffer, head, atTail, receivers) && n <= |buffer|
    requires forall i :: 0 <= i < n ==> buffer[i].cursors == 0
    ensures Tallied(buffer[n..], head + n, atTail, receivers)
    ensures QueuesOf(buffer[n..], head + n, receivers) == QueuesOf(buffer, head, receivers)
    ensures Messages(buffer) == Messages(buffer[..n]) + Messages(buffer[n..])
  {
    forall k | k in receivers
      ensures head + n <= receivers[k]
      ensures QueueOf(buffer[n..], head + n, receivers[k]) == QueueOf(buffer, head, receivers[k])
    {
      InRange(buffer, head, atTail, receivers, k);
      assert buffer[n..][receivers[k] - head - n..] == buffer[receivers[k] - head..];
    }
  }

  lemma CaughtUp<T>(buffer: seq<Slot<T>>, head: nat, atTail: nat, receivers: map<nat, nat>)
    requires Tallied(buffer, head, atTail, receivers) && |receivers| > 0
    ensures buffer == [] ==> Waited(receivers, head)
  {
  }

  lemma QueueAppended<T>(buffer: seq<Slot<T>>, head: nat, cursor: nat, slot: Slot<T>)
    requires head <= cursor <= head + |buffer|
    ensures QueueOf(buffer + [slot], head, cursor) == QueueOf(buffer, head, cursor) + [slot.msg]
  {
  }

  lemma Appended<T>(buffer: seq<Slot<T>>, head: nat, atTail: nat, receivers: map<nat, nat>, msg: T)
    requires Tallied(buffer, head, atTail, receivers)
    ensures var buffer' := buffer + [Slot(msg, atTail)];
            && Tallied(buffer', head, 0, receivers)
            && QueuesOf(buffer', head, receivers) == Deliver(QueuesOf(buffer, head, receivers), Op.Publish(msg))
  {
    hide QueueOf;
    NobodyThere(receivers, head + |buffer| + 1);
    forall k | k in receivers
      ensures QueueOf(buffer + [Slot(msg, atTail)], head, receivers[k]) == QueueOf(buffer, head, receivers[k]) + [msg]
    {
      QueueAppended(buffer, head, receivers[k], Slot(msg, atTail));
    }
  }
}
