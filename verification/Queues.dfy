/** The thread-safe queue and the socket pair that wakes a thread out of `select`. */
module Queues {
  import opened Wire
  import opened Sessions

  /** `queue.Queue` of relay messages: put at the back, taken at the front. */
  class MessageQueue {
    var items: Trace

    constructor ()
      ensures items == []
    {
      items := [];
    }

    method Put(q: Queued)
      modifies this
      ensures items == old(items) + [q]
    {
      items := items + [q];
    }

    /** `get_nowait`; None stands for the Empty exception. */
    method GetNowait() returns (r: Option<Queued>)
      modifies this
      ensures old(items) == [] ==> r == None && items == []
      ensures old(items) != [] ==> r == Some(old(items)[0]) && items == old(items)[1..]
    {
      if items == [] {
        r := None;
      } else {
        r := Some(items[0]);
        items := items[1..];
      }
    }
  }

  const WAKEUP_READ: nat := 4096

  /** The octets that `n` wake-up octets leave in a pipe of the given capacity after one more. */
  function Nudged(pipe: nat, capacity: nat): nat { if pipe < capacity then pipe + 1 else pipe }

  /** And after `n` more: a full pipe drops what it cannot hold. */
  function Nudges(pipe: nat, capacity: nat, n: nat): nat {
    if pipe + n <= capacity then pipe + n else if pipe < capacity then capacity else pipe
  }

  /** One `recv(4096)` on the pipe. */
  function Sipped(pipe: nat): nat { if pipe <= WAKEUP_READ then 0 else pipe - WAKEUP_READ }

  /** `wakeup_pair`: a non-blocking pair of sockets; `pipe` is what has been sent and not yet received. */
  class WakeupPair {
    const capacity: nat
    var pipe: nat

    constructor (capacity: nat)
      requires capacity > 0
      ensures this.capacity == capacity && pipe == 0
    {
      this.capacity := capacity;
      pipe := 0;
    }

    /** `wakeup_socket`: a full pipe drops the octet, and is as awake as before. */
    method Wakeup()
      modifies this
      ensures pipe == Nudged(old(pipe), capacity)
      ensures capacity > 0 ==> pipe > 0
    {
      if pipe < capacity {
        pipe := pipe + 1;
      }
    }

    /** `handle_wakeup`: receives until the socket would block. */
    method HandleWakeup(readable: bool)
      modifies this
      ensures pipe == if readable then 0 else old(pipe)
    {
      if readable {
        while pipe > 0
          invariant pipe <= old(pipe)
        {
          pipe := Sipped(pipe);
        }
      }
    }
  }
}
