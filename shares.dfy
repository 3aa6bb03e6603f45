/** Share accounting for tasks: the strong count of every `Rc<Task>`, who
    holds the shares (queue entries, wakers, handles in flight), and when a
    task's storage is freed. The raw-pointer waker of src/executor.rs is
    modelled by its effect on these counts: each operation is a function on
    a snapshot, and a lemma beside it proves that it keeps the ledger
    balanced and what it does to the counts. */
module Shares {
  import opened TaskQueues

  /** One snapshot of an executor and its tasks. Every `Waker` is either in
      the reactor's table (`reactor`) or held by running code (`held`). */
  datatype State = State(
    queue: seq<TaskId>,        // the ready queue, head first
    count: map<TaskId, nat>,   // strong count of every task whose storage is live
    held: multiset<TaskId>,    // wakers held by running code, one element per waker
    reactor: seq<TaskId>,      // wakers the reactor holds, in registration order
    handles: multiset<TaskId>, // `Rc<Task>` handles held by running code
    released: set<TaskId>,     // tasks whose storage has been freed
    steps: seq<nat>,           // per task id: Pending polls left before its future is Ready
    done: set<TaskId>)         // tasks whose future has returned Ready

  /** The number of queue entries, wakers and handles that refer to `t`. */
  function Refs(s: State, t: TaskId): nat {
    multiset(s.queue)[t] + s.held[t] + multiset(s.reactor)[t] + s.handles[t]
  }

  /** The strong count of `t`, zero once its storage is gone. */
  function Count(s: State, t: TaskId): nat {
    if t in s.count then s.count[t] else 0
  }

  /** The share invariant: a task's strong count is exactly the number of
      queue entries, wakers and handles that refer to it, so nothing refers
      to a task whose storage is gone; a live task has at least one share;
      every spawned task is either live or released, never both. */
  ghost predicate Balanced(s: State) {
    (forall t :: Refs(s, t) == Count(s, t))
    && (forall t :: t in s.count ==> s.count[t] > 0 && t < |s.steps| && t !in s.released)
    && (forall t :: t in s.released ==> t < |s.steps|)
    && (forall t :: 0 <= t < |s.steps| ==> t in s.count || t in s.released)
    && (forall t :: t in s.done ==> t < |s.steps|)
  }

  /** A fresh executor: no task spawned yet. */
  function Init(): (s: State)
    ensures Balanced(s) && s.queue == [] && s.count == map[] && s.steps == []
  {
    State([], map[], multiset{}, [], multiset{}, {}, [], {})
  }

  /** Whoever holds a waker, a handle or a queue entry of `t` refers to
      live storage. */
  lemma HeldIsLive(s: State, t: TaskId)
    requires Balanced(s) && (t in s.held || t in s.reactor || t in s.handles || t in s.queue)
    ensures t in s.count && s.count[t] > 0 && t < |s.steps| && t !in s.released
  {
    assert Refs(s, t) > 0;
  }

  lemma AddRemove(m: multiset<TaskId>, t: TaskId)
    ensures (m + multiset{t}) - multiset{t} == m
  {
  }

  /** A second update of the same key overrides the first. */
  lemma UpdateTwice(m: map<TaskId, nat>, t: TaskId, a: nat, b: nat)
    ensures m[t := a][t := b] == m[t := b]
  {
  }

  /** Removing a key forgets any update of it. */
  lemma UpdateRemove(m: map<TaskId, nat>, t: TaskId, a: nat)
    ensures m[t := a] - {t} == m - {t}
  {
  }

  /** The ledger stays balanced when the references to one task `t` change
      by exactly as much as its count, the count of no other task changes,
      and a task leaves the count map only to be released. */
  lemma Rebalanced(s: State, r: State, t: TaskId)
    requires Balanced(s)
    requires forall u :: u != t ==> Refs(r, u) == Refs(s, u)
    requires r.count - {t} == s.count - {t} && Refs(r, t) == Count(r, t)
    requires t in r.count ==> r.count[t] > 0
    requires |r.steps| >= |s.steps| && t < |r.steps| && (t in s.count || t == |s.steps|)
    requires r.released == s.released || (r.released == s.released + {t} && t !in r.count)
    requires t !in r.released ==> t in r.count
    requires |r.steps| <= |s.steps| + 1
    requires |r.steps| == |s.steps| + 1 ==> t == |s.steps| && t in r.count
    requires forall u :: u in r.done ==> u < |r.steps|
    ensures Balanced(r)
  {
    forall u ensures Refs(r, u) == Count(r, u) {
      if u != t {
        assert Refs(s, u) == Count(s, u);
        assert u in r.count <==> u in r.count - {t};
        assert u in s.count <==> u in s.count - {t};
        if u in r.count { assert r.count[u] == (r.count - {t})[u] == s.count[u]; }
      }
    }
    forall u | u in r.count ensures r.count[u] > 0 && u < |r.steps| && u !in r.released {
      if u != t {
        assert u in r.count - {t};
        assert u in s.count && r.count[u] == (r.count - {t})[u] == s.count[u];
        assert u !in s.released;
      } else if t in s.count {
        assert t !in s.released;
      }
    }
    forall u | 0 <= u < |r.steps| ensures u in r.count || u in r.released {
      if u != t && u < |s.steps| {
        assert u in s.count || u in s.released;
        if u in s.count { assert u in s.count - {t}; assert u in r.count; }
      }
    }
  }

  /** `Executor::spawn`: a new task whose future needs `n` more Pending
      polls, with one share, owned by the queue entry appended at the tail. */
  function Spawn(s: State, n: nat): State {
    var t: TaskId := |s.steps|;
    s.(queue := s.queue + [t], count := s.count[t := 1], steps := s.steps + [n])
  }

  /** A spawned task is fresh: its id was never used, it has exactly one
      share, held by the new tail entry of the queue; every entry already
      queued and every other task's count is untouched. */
  lemma SpawnShares(s: State, n: nat)
    requires Balanced(s)
    ensures var t, r := |s.steps|, Spawn(s, n);
            && Balanced(r)
            && t !in s.count && t !in s.released && t !in s.done && t !in s.queue
            && Count(r, t) == 1 && r.count - {t} == s.count
            && r.queue == s.queue + [t] && r.steps[t] == n
  {
    var t: TaskId := |s.steps|;
    var r := Spawn(s, n);
    assert t !in s.count;
    assert Refs(s, t) == 0;
    assert multiset(r.queue) == multiset(s.queue) + multiset{t};
    forall u | u != t ensures Refs(r, u) == Refs(s, u) { }
    Rebalanced(s, r, t);
  }

  /** Dropping an `Rc<Task>` handle (end of a drain iteration, end of
      `wake_`): the storage is freed when that was the last share. */
  function DropHandle(s: State, t: TaskId): State
    requires t in s.handles && t in s.count && s.count[t] > 0
  {
    var h := s.(handles := s.handles - multiset{t});
    if s.count[t] == 1 then h.(count := s.count - {t}, released := s.released + {t})
    else h.(count := s.count[t := s.count[t] - 1])
  }

  /** Dropping a handle gives up exactly one share, and the task is released
      exactly when that was its last share; no other task is affected. */
  lemma DropHandleShares(s: State, t: TaskId)
    requires Balanced(s) && t in s.handles
    ensures t in s.count && s.count[t] > 0 && t !in s.released
    ensures var r := DropHandle(s, t);
            && Balanced(r)
            && Count(r, t) == s.count[t] - 1
            && (t in r.released <==> s.count[t] == 1)
            && r.count - {t} == s.count - {t}
  {
    HeldIsLive(s, t);
    var r := DropHandle(s, t);
    assert Refs(s, t) == s.count[t];
    forall u | u != t ensures Refs(r, u) == Refs(s, u) { }
    Rebalanced(s, r, t);
  }

  /** `Rc::clone` of a handle in flight (`t.clone()` in the drain). */
  function CloneHandle(s: State, t: TaskId): State
    requires t in s.count
  {
    s.(count := s.count[t := s.count[t] + 1], handles := s.handles + multiset{t})
  }

  lemma CloneHandleShares(s: State, t: TaskId)
    requires Balanced(s) && t in s.handles
    ensures t in s.count
    ensures Balanced(CloneHandle(s, t)) && Count(CloneHandle(s, t), t) == s.count[t] + 1
  {
    HeldIsLive(s, t);
    var r := CloneHandle(s, t);
    assert Refs(s, t) == s.count[t];
    forall u | u != t ensures Refs(r, u) == Refs(s, u) { }
    Rebalanced(s, r, t);
  }

  /** `Rc::from_raw` on a waker's pointer: the waker's share becomes a
      handle. */
  function FromRaw(s: State, t: TaskId): State
    requires t in s.held
  {
    s.(held := s.held - multiset{t}, handles := s.handles + multiset{t})
  }

  lemma FromRawShares(s: State, t: TaskId)
    requires Balanced(s) && t in s.held
    ensures Balanced(FromRaw(s, t)) && FromRaw(s, t).count == s.count
  {
    HeldIsLive(s, t);
    var r := FromRaw(s, t);
    assert Refs(s, t) == s.count[t];
    forall u | u != t ensures Refs(r, u) == Refs(s, u) { }
    Rebalanced(s, r, t);
  }

  /** `waker`: wraps a handle in a `Waker`; the handle's share moves into
      the waker. */
  function MakeWaker(s: State, t: TaskId): State
    requires t in s.handles
  {
    s.(held := s.held + multiset{t}, handles := s.handles - multiset{t})
  }

  /** Making a waker changes no count: it moves one share from the handle
      into the waker, which then refers to the same task. */
  lemma MakeWakerShares(s: State, t: TaskId)
    requires Balanced(s) && t in s.handles
    ensures var r := MakeWaker(s, t);
            Balanced(r) && r.count == s.count && t in r.held && r.held[t] == s.held[t] + 1
  {
    HeldIsLive(s, t);
    var r := MakeWaker(s, t);
    assert Refs(s, t) == s.count[t];
    forall u | u != t ensures Refs(r, u) == Refs(s, u) { }
    Rebalanced(s, r, t);
  }

  /** `increase_refcount`: one more strong reference, owned by nobody yet.
      It is the first half of `clone_waker`; the ledger is unbalanced until
      the new waker exists. */
  function IncreaseRefcount(s: State, t: TaskId): State
    requires t in s.count
  {
    s.(count := s.count[t := s.count[t] + 1])
  }

  /** `Helper::clone_waker`: a second waker for the same task (the caller
      may borrow any waker of it, the reactor's included). */
  function CloneWaker(s: State, t: TaskId): State
    requires t in s.count
  {
    IncreaseRefcount(s, t).(held := s.held + multiset{t})
  }

  /** Cloning a waker raises its task's count by exactly one, adds one waker
      for that same task, and leaves the queue and every other task's count
      alone. */
  lemma CloneWakerShares(s: State, t: TaskId)
    requires Balanced(s) && (t in s.held || t in s.reactor)
    ensures t in s.count
    ensures var r := CloneWaker(s, t);
            && Balanced(r)
            && Count(r, t) == s.count[t] + 1 && r.count - {t} == s.count - {t}
            && r.held == s.held + multiset{t} && r.queue == s.queue
  {
    HeldIsLive(s, t);
    var r := CloneWaker(s, t);
    assert Refs(s, t) == s.count[t];
    forall u | u != t ensures Refs(r, u) == Refs(s, u) { }
    Rebalanced(s, r, t);
  }

  /** `Task::wake_by_ref_`: pushes a clone of a handle the caller borrows. */
  function TaskWakeByRef(s: State, t: TaskId): State
    requires t in s.count
  {
    s.(queue := s.queue + [t], count := s.count[t := s.count[t] + 1])
  }

  lemma TaskWakeByRefShares(s: State, t: TaskId)
    requires Balanced(s) && t in s.count
    ensures var r := TaskWakeByRef(s, t);
            && Balanced(r)
            && r.queue == s.queue + [t] && Count(r, t) == s.count[t] + 1
            && r.count - {t} == s.count - {t}
  {
    var r := TaskWakeByRef(s, t);
    assert Refs(s, t) == s.count[t];
    assert multiset(r.queue) == multiset(s.queue) + multiset{t};
    forall u | u != t ensures Refs(r, u) == Refs(s, u) { }
    Rebalanced(s, r, t);
  }

  /** `Task::wake_`: wakes by reference, then drops the handle it consumed. */
  function TaskWake(s: State, t: TaskId): State
    requires t in s.handles && t in s.count
  {
    DropHandle(TaskWakeByRef(s, t), t)
  }

  /** Waking through an owned handle: the handle's share becomes the new
      queue entry's share, so no count changes. */
  lemma TaskWakeShares(s: State, t: TaskId)
    requires Balanced(s) && t in s.handles
    ensures t in s.count
    ensures var r := TaskWake(s, t);
            && Balanced(r)
            && r.queue == s.queue + [t] && r.count == s.count
            && r.handles == s.handles - multiset{t} && r.held == s.held
  {
    HeldIsLive(s, t);
    var w := TaskWakeByRef(s, t);
    TaskWakeByRefShares(s, t);
    DropHandleShares(w, t);
    assert TaskWake(s, t).count == s.count;
  }

  /** `Helper::wake`: wake by value, consuming the waker. */
  function Wake(s: State, t: TaskId): State
    requires t in s.held && t in s.count
  {
    TaskWake(FromRaw(s, t), t)
  }

  /** Waking by value appends one entry for the task and leaves every count
      as it was: the consumed waker's share becomes the queue entry's share,
      and the waker is gone. */
  lemma WakeShares(s: State, t: TaskId)
    requires Balanced(s) && t in s.held
    ensures t in s.count
    ensures var r := Wake(s, t);
            && Balanced(r)
            && r.queue == s.queue + [t] && r.count == s.count
            && r.held == s.held - multiset{t} && r.handles == s.handles
  {
    HeldIsLive(s, t);
    FromRawShares(s, t);
    TaskWakeShares(FromRaw(s, t), t);
    AddRemove(s.handles, t);
  }

  /** `Helper::wake_by_ref`: wakes through a borrowed waker. */
  function WakeByRef(s: State, t: TaskId): State
    requires t in s.count
  {
    TaskWakeByRef(s, t)
  }

  /** Waking by reference appends one entry for the task and gives it one
      share more; the borrowed waker keeps its own share. */
  lemma WakeByRefShares(s: State, t: TaskId)
    requires Balanced(s) && (t in s.held || t in s.reactor)
    ensures t in s.count
    ensures var r := WakeByRef(s, t);
            && Balanced(r)
            && r.queue == s.queue + [t] && Count(r, t) == s.count[t] + 1
            && r.count - {t} == s.count - {t}
            && r.held == s.held && r.reactor == s.reactor
  {
    HeldIsLive(s, t);
    TaskWakeByRefShares(s, t);
  }

  /** `Helper::drop_waker`. */
  function DropWaker(s: State, t: TaskId): State
    requires t in s.held && t in s.count && s.count[t] > 0
  {
    DropHandle(FromRaw(s, t), t)
  }

  /** Dropping a waker lowers its task's count by exactly one, and the task
      is released exactly when that was its last share. */
  lemma DropWakerShares(s: State, t: TaskId)
    requires Balanced(s) && t in s.held
    ensures t in s.count && s.count[t] > 0 && t !in s.released
    ensures var r := DropWaker(s, t);
            && Balanced(r)
            && Count(r, t) == s.count[t] - 1
            && (t in r.released <==> s.count[t] == 1)
            && r.count - {t} == s.count - {t}
            && r.held == s.held - multiset{t} && r.handles == s.handles && r.queue == s.queue
  {
    HeldIsLive(s, t);
    FromRawShares(s, t);
    DropHandleShares(FromRaw(s, t), t);
    AddRemove(s.handles, t);
  }

  /** `TaskQueue::pop` inside the drain: the head entry's share becomes the
      handle `t` of the loop body. */
  function PopHead(s: State): State
    requires s.queue != []
  {
    s.(queue := s.queue[1..], handles := s.handles + multiset{s.queue[0]})
  }

  lemma PopHeadShares(s: State)
    requires Balanced(s) && s.queue != []
    ensures Balanced(PopHead(s)) && PopHead(s).count == s.count
  {
    var t := s.queue[0];
    HeldIsLive(s, t);
    var r := PopHead(s);
    assert s.queue == [t] + r.queue;
    assert multiset(s.queue) == multiset{t} + multiset(r.queue);
    assert Refs(s, t) == s.count[t];
    forall u | u != t ensures Refs(r, u) == Refs(s, u) { }
    Rebalanced(s, r, t);
  }
}
