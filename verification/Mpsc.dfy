/** The unbounded mpsc channel on values alone: one plain first-in, first-out queue. */
module MpscModel {
  import opened Options
  import opened Channels
  import opened Statuses

  datatype Op<T> = Send(value: T) | CloneSender | DropSender | TryRecv | PollRecv(task: nat) | DropReceiver

  /** `parked` names whom to wake when a receiver waits. */
  datatype Model<T> = Model(pending: seq<T>, senders: nat, receiver: bool, parked: Option<nat>)

  datatype Turn<T> = Turn(after: Model<T>, outcome: Outcome<T>, woken: seq<nat>)

  function Init<T>(): Model<T> {
    Model([], 1, true, None)
  }

  function Tasks(parked: Option<nat>): seq<nat> {
    if parked.Some? then [parked.value] else []
  }

  function Send<T>(m: Model<T>, value: T): Turn<T> {
    if !m.receiver then Turn(m, Disconnected, [])
    else Turn(m.(pending := m.pending + [value], parked := None), Sent, Tasks(m.parked))
  }

  function TryRecv<T>(m: Model<T>): Turn<T> {
    if m.pending != [] then Turn(m.(pending := m.pending[1..]), Got(m.pending[0]), [])
    else Turn(m, if m.senders == 0 then Disconnected else Empty, [])
  }

  /** Parks the receiver only when there is nothing to receive and someone left to send. */
  function PollRecv<T>(m: Model<T>, task: nat): Turn<T> {
    if m.pending != [] then TryRecv(m)
    else if m.senders == 0 then Turn(m.(parked := None), Disconnected, [])
    else Turn(m.(parked := Some(task)), Pending, [])
  }

  function DropSender<T>(m: Model<T>): Turn<T>
    requires m.senders > 0
  {
    if m.senders > 1 then Turn(m.(senders := m.senders - 1), Done, [])
    else Turn(m.(senders := 0, parked := None), Done, Tasks(m.parked))
  }

  /** Whether a caller can make this operation at all: it needs the endpoint. */
  predicate Allowed<T>(m: Model<T>, op: Op<T>) {
    match op
    case Send(_) => m.senders > 0
    case CloneSender => m.senders > 0
    case DropSender => m.senders > 0
    case _ => m.receiver
  }

  function Act<T>(m: Model<T>, op: Op<T>): Turn<T> {
    if !Allowed(m, op) then Turn(m, Refused, [])
    else
      match op
      case Send(value) => Send(m, value)
      case CloneSender => Turn(m.(senders := m.senders + 1), Done, [])
      case DropSender => DropSender(m)
      case TryRecv => TryRecv(m)
      case PollRecv(task) => PollRecv(m, task)
      case DropReceiver => Turn(m.(receiver := false, pending := [], parked := None), Done, [])
  }

  // ---- Runs ----

  function After<T>(m: Model<T>, ops: seq<Op<T>>): Model<T> {
    if ops == [] then m else Act(After(m, ops[..|ops| - 1]), ops[|ops| - 1]).after
  }

  function Replies<T>(m: Model<T>, ops: seq<Op<T>>): (r: seq<Reply<T>>)
    ensures |r| == |ops|
  {
    if ops == [] then []
    else
      var t := Act(After(m, ops[..|ops| - 1]), ops[|ops| - 1]);
      Replies(m, ops[..|ops| - 1]) + [Reply(t.outcome, t.woken)]
  }

  /** The values accepted so far, in order. */
  function Accepted<T>(ops: seq<Op<T>>, replies: seq<Reply<T>>): seq<T>
    requires |replies| == |ops|
  {
    if ops == [] then []
    else
      var n := |ops| - 1;
      Accepted(ops[..n], replies[..n]) + if ops[n].Send? && replies[n].outcome.Sent? then [ops[n].value] else []
  }

  /** A parked receiver has nothing to wake up for yet; what was accepted has been received or is pending. */
  ghost predicate Inv<T>(accepted: seq<T>, received: seq<T>, m: Model<T>) {
    && (m.parked.Some? ==> m.receiver && m.senders > 0 && m.pending == [])
    && (m.receiver ==> received + m.pending == accepted)
    && (!m.receiver ==> m.pending == [] && received <= accepted)
  }

  lemma StepKeeps<T>(accepted: seq<T>, received: seq<T>, m: Model<T>, op: Op<T>)
    requires Inv(accepted, received, m)
    ensures var t := Act(m, op);
            Inv(accepted + (if op.Send? && t.outcome.Sent? then [op.value] else []),
                received + (if t.outcome.Got? then [t.outcome.value] else []), t.after)
  {
    if op.Send? {
      assert received + (m.pending + [op.value]) == received + m.pending + [op.value];
    } else if m.pending != [] {
      assert received + m.pending == received + [m.pending[0]] + m.pending[1..];
    }
  }

  /**
   In every run messages arrive in the order they were sent, each once; none is lost while the receiver
   lives, and a receiver is parked only with nothing pending and someone left to send.
   */
  lemma {:induction false} Fifo<T>(ops: seq<Op<T>>)
    ensures var replies := Replies(Init<T>(), ops);
            Inv(Accepted(ops, replies), Received(replies), After(Init<T>(), ops))
  {
    if ops != [] {
      var before, op := ops[..|ops| - 1], ops[|ops| - 1];
      Fifo(before);
      var was := Replies(Init<T>(), before);
      assert Replies(Init<T>(), ops)[..|ops| - 1] == was;
      StepKeeps(Accepted(before, was), Received(was), After(Init<T>(), before), op);
    }
  }

  /** After any run the receiver gets the oldest message it has not had, and none only if it has had all. */
  lemma NextDelivery<T>(ops: seq<Op<T>>, task: nat)
    ensures var m, replies := After(Init<T>(), ops), Replies(Init<T>(), ops);
            var accepted, received := Accepted(ops, replies), Received(replies);
            m.receiver ==>
              && (|received| < |accepted| ==>
                    Act(m, Op.TryRecv).outcome == Act(m, Op.PollRecv(task)).outcome == Got(accepted[|received|]))
              && (|received| == |accepted| && m.senders == 0 ==>
                    Act(m, Op.TryRecv).outcome.Disconnected? && Act(m, Op.PollRecv(task)).outcome.Disconnected?)
              && (|received| == |accepted| && m.senders > 0 ==>
                    Act(m, Op.TryRecv).outcome.Empty? && Act(m, Op.PollRecv(task)).outcome.Pending?)
  {
    Fifo(ops);
    hide After, Replies, Accepted, Received, Init;
    var m, replies := After(Init<T>(), ops), Replies(Init<T>(), ops);
    assert m.receiver ==> |Received(replies)| + |m.pending| == |Accepted(ops, replies)|;
  }

  /** After any run a sender's message is accepted exactly while the receiver lives. */
  lemma NextAcceptance<T>(ops: seq<Op<T>>, value: T)
    ensures var m := After(Init<T>(), ops);
            m.senders > 0 ==> Act(m, Op.Send(value)).outcome == if m.receiver then Sent else Disconnected
  {
  }

  // ---- What callers saw ----

  function Senders<T>(ops: seq<Op<T>>, replies: seq<Reply<T>>): int
    requires |replies| == |ops|
  {
    if ops == [] then 1
    else
      var n := |ops| - 1;
      Senders(ops[..n], replies[..n])
      + if !replies[n].outcome.Done? then 0
        else if ops[n].CloneSender? then 1 else if ops[n].DropSender? then -1 else 0
  }

  predicate ReceiverLives<T>(ops: seq<Op<T>>, replies: seq<Reply<T>>)
    requires |replies| == |ops|
  {
    ops == [] ||
    var n := |ops| - 1;
    ReceiverLives(ops[..n], replies[..n]) && !(ops[n].DropReceiver? && replies[n].outcome.Done?)
  }

  /** What the receiver's owner knows of its latest poll. */
  function RecvStatus<T>(ops: seq<Op<T>>, replies: seq<Reply<T>>): Status
    requires |replies| == |ops|
  {
    if ops == [] then NotPending
    else
      var n := |ops| - 1;
      if ops[n].PollRecv? then Polled(replies[n].outcome.Pending?, ops[n].task)
      else if ops[n].DropReceiver? then NotPending
      else Heard(RecvStatus(ops[..n], replies[..n]), replies[n].woken)
  }

  /** A receiver that sleeps is parked with its task, and one without a pending poll is not parked. */
  predicate Parked(status: Status, parked: Option<nat>) {
    match status
    case NotPending => parked.None?
    case Asleep(task) => parked == Some(task)
    case Awoken(_) => parked.None?
  }

  /** An operation is refused only to a caller without the endpoint it needs. */
  lemma OnlyWithoutRefused<T>(ops: seq<Op<T>>, op: Op<T>)
    ensures var replies := Replies(Init<T>(), ops);
            Act(After(Init<T>(), ops), op).outcome.Refused? <==>
            if op.Send? || op.CloneSender? || op.DropSender? then Senders(ops, replies) <= 0
            else !ReceiverLives(ops, replies)
  {
    PendingIsParked(ops);
    hide After, Replies, Senders, ReceiverLives;
  }

  lemma StepParks<T>(accepted: seq<T>, received: seq<T>, m: Model<T>, op: Op<T>, status: Status)
    requires Inv(accepted, received, m) && Parked(status, m.parked)
    ensures var t := Act(m, op);
            && t.after.senders == m.senders + (if !t.outcome.Done? then 0
                                               else if op.CloneSender? then 1 else if op.DropSender? then -1 else 0)
            && t.after.receiver == (m.receiver && !(op.DropReceiver? && t.outcome.Done?))
            && (t.woken != [] ==> m.parked.Some? && t.woken == [m.parked.value] && t.after.parked.None?)
            && Parked(if op.PollRecv? then Polled(t.outcome.Pending?, op.task)
                      else if op.DropReceiver? then NotPending else Heard(status, t.woken), t.after.parked)
  {
  }

  /**
   In every run: senders are counted as they come and go; if the receiver's latest poll answered `Pending`,
   then its task is parked or has been woken since, and not both.
   */
  lemma {:induction false} PendingIsParked<T>(ops: seq<Op<T>>)
    ensures var m, replies := After(Init<T>(), ops), Replies(Init<T>(), ops);
            && m.senders == Senders(ops, replies) && m.receiver == ReceiverLives(ops, replies)
            && Parked(RecvStatus(ops, replies), m.parked)
  {
    if ops != [] {
      var before, op := ops[..|ops| - 1], ops[|ops| - 1];
      PendingIsParked(before);
      Fifo(before);
      hide Act, Inv, Parked, Init;
      var was := Replies(Init<T>(), before);
      assert Replies(Init<T>(), ops)[..|ops| - 1] == was;
      StepParks(Accepted(before, was), Received(was), After(Init<T>(), before), op, RecvStatus(before, was));
    }
  }
}

/** The unbounded mpsc channel: a segmented buffer behind a lock, drained a segment at a time. */
module Mpsc {
  import opened Options
  import opened Channels
  import opened MpscModel

  // ---- Segment size ----

  const SEGMENT_BYTES: nat := 32 * 1024
  const USIZE_BITS: nat := 64
  const USIZE_MAX: nat := 0xFFFF_FFFF_FFFF_FFFF

  function Pow2(k: nat): nat {
    if k == 0 then 1 else 2 * Pow2(k - 1)
  }

  function BitLength(x: nat): nat {
    if x == 0 then 0 else 1 + BitLength(x / 2)
  }

  function LeadingZeros(x: nat): nat {
    if BitLength(x) <= USIZE_BITS then USIZE_BITS - BitLength(x) else 0
  }

  /** Values per segment, for values of the given size in bytes. */
  function SegmentCapacity(size: nat): nat {
    if size == 0 then USIZE_MAX
    else if size > SEGMENT_BYTES then 1
    else
      var limit := SEGMENT_BYTES / size;
      var zeros := LeadingZeros(limit);
      if zeros < USIZE_BITS then Pow2(USIZE_BITS - 1 - zeros) else 0
  }

  lemma {:induction false} BitLengthIs(x: nat)
    requires x > 0
    ensures BitLength(x) > 0 && Pow2(BitLength(x) - 1) <= x < Pow2(BitLength(x))
  {
    if x > 1 {
      BitLengthIs(x / 2);
    } else {
      assert BitLength(1) == 1 + BitLength(0);
    }
  }

  lemma {:induction false} Pow2Monotone(j: nat, k: nat)
    requires j <= k
    ensures 0 < Pow2(j) <= Pow2(k)
  {
    if j < k {
      Pow2Monotone(j, k - 1);
    } else if j > 0 {
      Pow2Monotone(j - 1, j - 1);
    }
  }

  lemma {:induction false} ShortNumbers(x: nat, k: nat)
    requires x < Pow2(k)
    ensures BitLength(x) <= k
  {
    if x > 0 {
      BitLengthIs(x);
      if BitLength(x) > k {
        Pow2Monotone(k, BitLength(x) - 1);
      }
    }
  }

  /** The shift by the leading zeros gives the largest power of two up to the limit. */
  lemma CapacityIs(size: nat) returns (k: nat)
    requires 0 < size <= SEGMENT_BYTES
    ensures SegmentCapacity(size) == Pow2(k) <= SEGMENT_BYTES / size < Pow2(k + 1)
  {
    var limit := SEGMENT_BYTES / size;
    Quotient(SEGMENT_BYTES, size, limit);
    BitLengthIs(limit);
    Pow2Of16();
    LimitIsShort(size);
    ShortNumbers(limit, 16);
    k := BitLength(limit) - 1;
  }

  lemma Pow2Of16()
    ensures Pow2(16) == 65536
  {
    assert Pow2(2) == 4;
    assert Pow2(4) == 16;
    assert Pow2(6) == 64;
    assert Pow2(8) == 256;
    assert Pow2(10) == 1024;
    assert Pow2(12) == 4096;
    assert Pow2(14) == 16384;
  }

  lemma LimitIsShort(size: nat)
    requires size > 0
    ensures SEGMENT_BYTES / size <= SEGMENT_BYTES < 65536
  {
  }

  /**
   A segment stays within its byte budget and is the largest power of two that does; larger values get
   a segment each.
   */
  lemma SegmentFits(size: nat, j: nat)
    requires 0 < size <= SEGMENT_BYTES
    ensures 0 < SegmentCapacity(size) && SegmentCapacity(size) * size <= SEGMENT_BYTES
    ensures exists k :: SegmentCapacity(size) == Pow2(k)
    ensures Pow2(j) * size <= SEGMENT_BYTES ==> Pow2(j) <= SegmentCapacity(size)
  {
    hide SegmentCapacity;
    var k := CapacityIs(size);
    var limit := SEGMENT_BYTES / size;
    Quotient(SEGMENT_BYTES, size, limit);
    Pow2Monotone(0, k);
    Product(Pow2(k), limit, size);
    if j > k {
      Pow2Monotone(k + 1, j);
      Product(limit + 1, Pow2(j), size);
    } else {
      Pow2Monotone(j, k);
    }
  }

  lemma Quotient(a: nat, b: nat, q: nat)
    requires 0 < b <= a && q == a / b
    ensures q > 0 && q * b <= a < (q + 1) * b
  {
  }

  lemma Product(x: nat, y: nat, z: nat)
    requires x <= y
    ensures x * z <= y * z
  {
  }

  // ---- The buffer ----

  function Flatten<T>(segments: seq<seq<T>>): seq<T> {
    if segments == [] then [] else segments[0] + Flatten(segments[1..])
  }

  lemma {:induction false} FlattenSnoc<T>(segments: seq<seq<T>>, last: seq<T>)
    ensures Flatten(segments + [last]) == Flatten(segments) + last
  {
    if segments == [] {
      assert segments + [last] == [last];
      assert Flatten([last]) == last + Flatten([]);
    } else {
      FlattenSnoc(segments[1..], last);
      assert (segments + [last])[1..] == segments[1..] + [last];
    }
  }

  class Buffer<T> {
    var writable: seq<T>
    var sealed: seq<seq<T>>
    const size: nat

    /** Sealed segments are exactly full. */
    ghost predicate Valid()
      reads this
    {
      && SegmentCapacity(size) > 0
      && |writable| <= SegmentCapacity(size)
      && (forall i :: 0 <= i < |sealed| ==> |sealed[i]| == SegmentCapacity(size))
      && (sealed != [] ==> writable != [])
    }

    /** The messages, in the order they were sent. */
    ghost function Contents(): seq<T>
      reads this
    {
      Flatten(sealed) + writable
    }

    constructor (size: nat)
      ensures Valid() && Contents() == [] && this.size == size
    {
      writable, sealed := [], [];
      this.size := size;
      new;
      if 0 < size <= SEGMENT_BYTES {
        SegmentFits(size, 0);
      }
    }

    method IsEmpty() returns (empty: bool)
      requires Valid()
      ensures empty <==> Contents() == []
    {
      empty := writable == [] && sealed == [];
    }

    method Push(value: T)
      requires Valid()
      modifies this
      ensures Valid() && Contents() == old(Contents()) + [value]
    {
      if |writable| == SegmentCapacity(size) {
        FlattenSnoc(sealed, writable);
        sealed := sealed + [writable];
        writable := [];
      }
      writable := writable + [value];
    }

    method Clear()
      requires Valid()
      modifies this
      ensures Valid() && Contents() == []
    {
      writable, sealed := [], [];
    }

    /** Moves the oldest segment out: a full one while there is one, then what has been written since. */
    method Refill() returns (batch: seq<T>)
      requires Valid()
      modifies this
      ensures Valid() && old(Contents()) == batch + Contents()
      ensures |batch| <= SegmentCapacity(size)
      ensures batch == [] ==> Contents() == []
      ensures size > SEGMENT_BYTES ==> |batch| <= 1
    {
      if sealed != [] {
        batch := sealed[0];
        sealed := sealed[1..];
      } else {
        batch := writable;
        writable := [];
      }
    }
  }

  // ---- The channel ----

  /** The shared state and the receiver's own batch, which only the receiver touches. */
  class Channel<T> {
    const buffer: Buffer<T>
    var senders: nat
    var receiver: bool
    var recvWaker: Option<nat>
    var batch: seq<T>

    ghost function Abs(): Model<T>
      reads this, buffer
    {
      Model(batch + buffer.Contents(), senders, receiver, recvWaker)
    }

    ghost predicate Valid()
      reads this, buffer
    {
      buffer.Valid() && (buffer.size > SEGMENT_BYTES ==> |batch| <= 1)
    }

    constructor (size: nat)
      ensures Valid() && fresh(buffer) && buffer.size == size && Abs() == Init()
    {
      buffer := new Buffer(size);
      senders, receiver, recvWaker, batch := 1, true, None, [];
    }

    /** False when the receiver is gone; the value then stays with the caller. */
    method Send(value: T) returns (r: Outcome<T>, woken: seq<nat>)
      requires Valid() && senders > 0
      modifies this`recvWaker, buffer
      ensures Valid() && Turn(Abs(), r, woken) == Act(old(Abs()), Op.Send(value))
    {
      if !receiver {
        return Disconnected, [];
      }
      buffer.Push(value);
      assert batch + buffer.Contents() == old(batch + buffer.Contents()) + [value];
      r, woken := Sent, Tasks(recvWaker);
      recvWaker := None;
    }

    method CloneSender()
      requires Valid() && senders > 0
      modifies this`senders
      ensures Valid() && Turn(Abs(), Done, []) == Act(old(Abs()), Op.CloneSender)
    {
      senders := senders + 1;
    }

    method DropSender() returns (woken: seq<nat>)
      requires Valid() && senders > 0
      modifies this`senders, this`recvWaker
      ensures Valid() && Turn(Abs(), Done, woken) == Act(old(Abs()), Op.DropSender)
    {
      senders := senders - 1;
      woken := [];
      if senders == 0 {
        woken, recvWaker := Tasks(recvWaker), None;
      }
    }

    /** Takes a batch from the buffer if the last one is used up. */
    method EnsureBatch()
      requires Valid()
      modifies this`batch, buffer
      ensures Valid() && Abs() == old(Abs()) && (batch == [] ==> Abs().pending == [])
    {
      if batch == [] {
        batch := buffer.Refill();
      }
    }

    /** Oversized values come in batches of one, so popping one retires its segment. */
    method PopBatch() returns (value: T)
      requires Valid() && batch != []
      modifies this`batch
      ensures Valid() && old(Abs()).pending == [value] + Abs().pending && Abs() == old(Abs()).(pending := Abs().pending)
      ensures buffer.size > SEGMENT_BYTES ==> batch == []
    {
      value := batch[0];
      batch := batch[1..];
      assert old(batch + buffer.Contents()) == [value] + (batch + buffer.Contents());
    }

    method TryRecv() returns (r: Outcome<T>)
      requires Valid() && receiver
      modifies this`batch, buffer
      ensures Valid() && Turn(Abs(), r, []) == Act(old(Abs()), Op.TryRecv)
    {
      hide Flatten;
      EnsureBatch();
      if batch == [] {
        return if senders == 0 then Disconnected else Empty;
      }
      var value := PopBatch();
      r := Got(value);
    }

    method PollRecv(task: nat) returns (r: Outcome<T>)
      requires Valid() && receiver
      modifies this`batch, this`recvWaker, buffer
      ensures Valid() && Turn(Abs(), r, []) == Act(old(Abs()), Op.PollRecv(task))
    {
      hide Flatten;
      EnsureBatch();
      if batch != [] {
        var value := PopBatch();
        return Got(value);
      }
      if senders == 0 {
        recvWaker := None;
        return Disconnected;
      }
      recvWaker := Some(task);
      r := Pending;
    }

    /** Discards what is queued and takes the waker with it. */
    method DropReceiver()
      requires Valid() && receiver
      modifies this`receiver, this`batch, this`recvWaker, buffer
      ensures Valid() && Turn(Abs(), Done, []) == Act(old(Abs()), Op.DropReceiver)
    {
      receiver, recvWaker, batch := false, None, [];
      buffer.Clear();
    }

    method Apply(op: Op<T>) returns (r: Reply<T>)
      requires Valid()
      modifies this, buffer
      ensures Valid() && Turn(Abs(), r.outcome, r.woken) == Act(old(Abs()), op)
    {
      hide Valid, Buffer.Contents;
      if !(if op.Send? || op.CloneSender? || op.DropSender? then senders > 0 else receiver) {
        return Reply(Refused, []);
      }
      hide Act;
      var outcome: Outcome<T>, woken: seq<nat> := Done, [];
      match op {
        case Send(value) => outcome, woken := Send(value);
        case CloneSender => CloneSender();
        case DropSender => woken := DropSender();
        case TryRecv => outcome := TryRecv();
        case PollRecv(task) => outcome := PollRecv(task);
        case DropReceiver => DropReceiver();
      }
      r := Reply(outcome, woken);
    }
  }

  /**
   Every run, for values of any size, answers like the plain queue: batches and segments never show.
   */
  method Play<T>(size: nat, ops: seq<Op<T>>) returns (replies: seq<Reply<T>>)
    ensures replies == Replies(Init<T>(), ops)
    ensures Received(replies) + After(Init<T>(), ops).pending <= Accepted(ops, replies)
    ensures After(Init<T>(), ops).receiver ==>
              Received(replies) + After(Init<T>(), ops).pending == Accepted(ops, replies)
  {
    hide Channel.Valid, Channel.Abs, Act, Init, Accepted, Received;
    var c := new Channel<T>(size);
    ghost var init := c.Abs();
    replies := [];
    for i := 0 to |ops|
      invariant fresh(c) && fresh(c.buffer) && c.Valid() && c.Abs() == After(init, ops[..i])
      invariant replies == Replies(init, ops[..i])
    {
      assert ops[..i + 1][..i] == ops[..i];
      var r := c.Apply(ops[i]);
      replies := replies + [r];
    }
    assert ops[..|ops|] == ops;
    Fifo(ops);
  }
}
