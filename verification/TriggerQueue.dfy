/** The deduplicating FIFO of trsf/queue.go. A queue is its list of distinct items;
    the notification token is not part of this model. */
module TriggerQueues {
  import opened Common

  /** What a push leaves behind: an item already queued is not queued twice. */
  function Pushed<T(==)>(q: seq<T>, x: T): seq<T> {
    if x in q then q else q + [x]
  }

  class TriggerQueue<T(==,!new)> {
    var members: set<T>
    var queue: seq<T>

    ghost predicate Valid()
      reads this
    {
      NoDuplicates(queue) && forall x :: x in members <==> x in queue
    }

    constructor ()
      ensures Valid() && queue == []
    {
      members := {};
      queue := [];
    }

    method Push(x: T)
      requires Valid()
      modifies this
      ensures Valid() && queue == Pushed(old(queue), x)
    {
      if x in members {
        return;
      }
      members := members + {x};
      queue := queue + [x];
    }

    method Pop() returns (r: Option<T>)
      requires Valid()
      modifies this
      ensures Valid()
      ensures old(queue) == [] ==> r == None && queue == []
      ensures old(queue) != [] ==> r == Some(old(queue)[0]) && queue == old(queue)[1..]
    {
      if |queue| == 0 {
        return None;
      }
      var x := queue[0];
      queue := queue[1..];
      members := members - {x};
      r := Some(x);
    }
  }
}
