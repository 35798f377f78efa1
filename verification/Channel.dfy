/** What the queues answer, whoever sends and whoever receives. */
module Channels {
  /** A slot of the capacity, held by a detached waiter until it is claimed. */
  datatype Grant = Granted

  datatype Outcome<T> =
    | Refused
    | Done
    | Sent
    | Full
    | Disconnected
    | Reserved
    | Pending
    | Got(value: T)
    | Empty

  /** The outcome of one operation, and the tasks it wakes. */
  datatype Reply<T> = Reply(outcome: Outcome<T>, woken: seq<nat>)

  /** What receivers have been handed so far, in order. */
  function Received<T>(replies: seq<Reply<T>>): seq<T> {
    if replies == [] then []
    else
      var last := replies[|replies| - 1].outcome;
      Received(replies[..|replies| - 1]) + if last.Got? then [last.value] else []
  }
}
