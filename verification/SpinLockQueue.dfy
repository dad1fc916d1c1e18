/** The queue under a spin lock: each method is one critical section. */
module Queues {
  import opened Wrappers

  class SpinLockQueue<T> {
    var queue: seq<T>

    constructor ()
      ensures queue == []
    {
      queue := [];
    }

    method push(value: T)
      modifies this
      ensures queue == old(queue) + [value]
    {
      queue := queue + [value];
    }

    method pop() returns (r: Option<T>)
      modifies this
      ensures old(queue) == [] ==> r == None && queue == []
      ensures old(queue) != [] ==> r == Some(old(queue)[0]) && queue == old(queue)[1..]
    {
      if |queue| == 0 {
        return None;
      }
      r := Some(queue[0]);
      queue := queue[1..];
    }

    method empty() returns (isEmpty: bool)
      ensures isEmpty <==> queue == []
    {
      isEmpty := |queue| == 0;
    }
  }
}
