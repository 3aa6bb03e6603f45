/** The executor's ready queue (`TaskQueue` in src/executor.rs).
    A task is named by its id; the queue holds one entry per shared
    `Rc<Task>` handle it owns, head first. */
module TaskQueues {

  /** Tasks are identified by the order in which they were spawned. */
  type TaskId = nat

  datatype Option<T> = None | Some(value: T)

  class TaskQueue {
    /** The `VecDeque` behind the `RefCell`, front first. */
    var items: seq<TaskId>

    /** `TaskQueue::new`: an empty queue (the 4096-entry pre-allocation
        is a sizing hint with no observable effect). */
    constructor New()
      ensures items == []
    {
      items := [];
    }

    /** `TaskQueue::new_with_capacity`: an empty queue whatever the capacity. */
    constructor NewWithCapacity(capacity: nat)
      ensures items == []
    {
      items := [];
    }

    /** `push`: appends at the tail; the entries already queued keep
        their places. */
    method Push(t: TaskId)
      modifies this
      ensures items == old(items) + [t]
      ensures |items| == |old(items)| + 1 && items[..|old(items)|] == old(items)
    {
      items := items + [t];
    }

    /** `pop`: removes and returns the head, or `None` exactly when the
        queue is empty; the remaining entries keep their order. */
    method Pop() returns (r: Option<TaskId>)
      modifies this
      ensures r.None? <==> old(items) == []
      ensures r.Some? ==> r.value == old(items)[0] && items == old(items)[1..]
      ensures r.Some? ==> [r.value] + items == old(items)
      ensures r.None? ==> items == []
    {
      if items == [] {
        r := None;
      } else {
        r := Some(items[0]);
        items := items[1..];
      }
    }
  }
}
