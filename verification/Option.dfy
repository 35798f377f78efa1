/** The optional value used throughout the model. */
module Options {
  datatype Option<+T> = None | Some(value: T)
}

module Counts {
  /** A condition as a number, for counting how often it holds. */
  function One(b: bool): nat {
    if b then 1 else 0
  }
}

/** What the owner of a future knows of it. */
module Statuses {
  /** No pending poll, or one, and whether its task has been woken since. */
  datatype Status = NotPending | Asleep(task: nat) | Awoken(task: nat)

  function Polled(pending: bool, task: nat): Status {
    if pending then Asleep(task) else NotPending
  }

  function Heard(status: Status, woken: seq<nat>): Status {
    if status.Asleep? && status.task in woken then Awoken(status.task) else status
  }
}
