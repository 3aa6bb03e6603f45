/** `Executor` of src/executor.rs as a class whose state is updated in
    place. Every method is proved to move the executor exactly as the
    matching function of `Shares` or `Schedule` moves its snapshot, and to
    keep the share ledger balanced; the properties proved about those
    functions therefore hold of the executor. */
module Executors {
  import opened TaskQueues
  import opened Shares
  import opened Schedule

  class Executor {
    /** `local_queue`. */
    const localQueue: TaskQueue
    /** The strong count stored in every live `Rc<Task>` allocation. */
    var count: map<TaskId, nat>
    /** The wakers the reactor's table holds, in registration order. */
    var reactor: seq<TaskId>
    /** Per task: Pending polls its future has left. */
    var steps: seq<nat>
    /** Tasks whose future has returned Ready. */
    var done: set<TaskId>
    /** Wakers and `Rc<Task>` handles held by running code, and the tasks
        whose storage was freed: bookkeeping with no run-time counterpart. */
    ghost var held: multiset<TaskId>
    ghost var handles: multiset<TaskId>
    ghost var released: set<TaskId>

    ghost function Snap(): State
      reads this, localQueue
    {
      State(localQueue.items, count, held, reactor, handles, released, steps, done)
    }

    ghost predicate Valid()
      reads this, localQueue
    {
      Balanced(Snap())
    }

    /** `Executor::new`: an empty queue, no task, an empty reactor. */
    constructor ()
      ensures Valid() && Snap() == Init() && fresh(localQueue)
    {
      localQueue := new TaskQueue.New();
      count, reactor, steps, done := map[], [], [], {};
      held, handles, released := multiset{}, multiset{}, {};
    }

    /** `Executor::spawn`: the new task gets the next id and one share,
        owned by its entry at the tail of the queue. */
    method Spawn(n: nat) returns (t: TaskId)
      requires Valid()
      modifies this, localQueue
      ensures Valid() && Snap() == Shares.Spawn(old(Snap()), n)
      ensures t == |old(steps)| && t !in old(count) && t !in old(released)
      ensures count[t] == 1 && localQueue.items == old(localQueue.items) + [t]
    {
      SpawnShares(Snap(), n);
      t := |steps|;
      steps := steps + [n];
      count := count[t := 1];
      localQueue.Push(t);
    }

    /** `Rc::clone` of a handle held by running code. */
    method CloneHandle(t: TaskId)
      requires Valid() && t in handles
      modifies this
      ensures old(t in count) && Valid() && Snap() == Shares.CloneHandle(old(Snap()), t)
    {
      CloneHandleShares(Snap(), t);
      count := count[t := count[t] + 1];
      handles := handles + multiset{t};
    }

    /** Dropping an `Rc<Task>` handle: the storage goes with the last share. */
    method DropHandle(t: TaskId)
      requires Valid() && t in handles
      modifies this
      ensures old(t in count && count[t] > 0) && Valid() && Snap() == Shares.DropHandle(old(Snap()), t)
    {
      DropHandleShares(Snap(), t);
      handles := handles - multiset{t};
      if count[t] == 1 {
        count := count - {t};
        released := released + {t};
      } else {
        count := count[t := count[t] - 1];
      }
    }

    /** `waker`: `Rc::into_raw` moves the handle's share into the waker. */
    method MakeWaker(t: TaskId)
      requires Valid() && t in handles
      modifies this
      ensures Valid() && Snap() == Shares.MakeWaker(old(Snap()), t)
    {
      MakeWakerShares(Snap(), t);
      held := held + multiset{t};
      handles := handles - multiset{t};
    }

    /** `Rc::from_raw` on a waker's data pointer. */
    method FromRaw(t: TaskId)
      requires Valid() && t in held
      modifies this
      ensures Valid() && Snap() == Shares.FromRaw(old(Snap()), t)
    {
      FromRawShares(Snap(), t);
      held := held - multiset{t};
      handles := handles + multiset{t};
    }

    /** `increase_refcount`: the count goes up by one before the new waker
        exists, so the ledger is not balanced in between. */
    method IncreaseRefcount(t: TaskId)
      requires t in count
      modifies this
      ensures Snap() == Shares.IncreaseRefcount(old(Snap()), t)
    {
      count := count[t := count[t] + 1];
    }

    /** `Helper::clone_waker`. */
    method CloneWaker(t: TaskId)
      requires Valid() && (t in held || t in reactor)
      modifies this
      ensures old(t in count) && Valid() && Snap() == Shares.CloneWaker(old(Snap()), t)
    {
      CloneWakerShares(Snap(), t);
      IncreaseRefcount(t);
      held := held + multiset{t};
    }

    /** `Task::wake_by_ref_`: pushes `self.clone()`. */
    method TaskWakeByRef(t: TaskId)
      requires Valid() && t in count
      modifies this, localQueue
      ensures Valid() && Snap() == Shares.TaskWakeByRef(old(Snap()), t)
    {
      TaskWakeByRefShares(Snap(), t);
      count := count[t := count[t] + 1];
      localQueue.Push(t);
    }

    /** `Task::wake_`: wakes by reference, then drops the handle it owns. */
    method TaskWake(t: TaskId)
      requires Valid() && t in handles
      modifies this, localQueue
      ensures old(t in count) && Valid() && Snap() == Shares.TaskWake(old(Snap()), t)
    {
      TaskWakeShares(Snap(), t);
      TaskWakeByRef(t);
      DropHandle(t);
    }

    /** `Helper::wake`: takes the waker's pointer back as a handle and wakes
        through it. */
    method Wake(t: TaskId)
      requires Valid() && t in held
      modifies this, localQueue
      ensures old(t in count) && Valid() && Snap() == Shares.Wake(old(Snap()), t)
    {
      FromRaw(t);
      TaskWake(t);
    }

    /** `Helper::wake_by_ref`. */
    method WakeByRef(t: TaskId)
      requires Valid() && (t in held || t in reactor)
      modifies this, localQueue
      ensures old(t in count) && Valid() && Snap() == Shares.WakeByRef(old(Snap()), t)
    {
      WakeByRefShares(Snap(), t);
      TaskWakeByRef(t);
    }

    /** `Helper::drop_waker`. */
    method DropWaker(t: TaskId)
      requires Valid() && t in held
      modifies this
      ensures old(t in count && count[t] > 0) && Valid() && Snap() == Shares.DropWaker(old(Snap()), t)
    {
      FromRaw(t);
      DropHandle(t);
    }

    /** The reactor keeps a waker that running code handed over. */
    method HandToReactor(t: TaskId)
      requires Valid() && t in held
      modifies this
      ensures Valid() && Snap() == Schedule.HandToReactor(old(Snap()), t)
    {
      HandToReactorShares(Snap(), t);
      held := held - multiset{t};
      reactor := reactor + [t];
    }

    /** The future of `t` takes one step, or completes. */
    method Advance(t: TaskId)
      requires Valid() && t < |steps|
      modifies this
      ensures Valid() && Snap() == Schedule.Advance(old(Snap()), t)
    {
      FuturesFrame(Snap(), Schedule.Advance(Snap(), t));
      if steps[t] == 0 {
        done := done + {t};
      } else {
        steps := steps[t := steps[t] - 1];
      }
    }

    /** `Pin::new(future).as_mut().poll(&mut context)` in the drain, with the
        drain's waker for `t` in the context. */
    method PollTask(t: TaskId, plan: Plan)
      requires Valid() && t in held
      modifies this, localQueue
      ensures old(t in count && t < |steps|) && Valid() && Snap() == Schedule.Poll(old(Snap()), t, plan)
    {
      PollShares(Snap(), t, plan);
      var left := steps[t];
      Advance(t);
      if left > 0 {
        match plan(t, left)
        case WakeSelf => WakeByRef(t);
        case Register =>
          CloneWaker(t);
          HandToReactor(t);
        case Abandon =>
      }
    }

    /** One test of `while let Some(t) = self.local_queue.pop()` and, when
        it yields `t`, the loop body: `waker(t.clone())`, the poll through
        that waker, then the waker and `t` are dropped. */
    method DriveHead(plan: Plan) returns (popped: Option<TaskId>)
      requires Valid()
      modifies this, localQueue
      ensures Valid()
      ensures popped.None? <==> old(localQueue.items) == []
      ensures popped.None? ==> Snap() == old(Snap())
      ensures popped.Some? ==> popped.value == old(localQueue.items)[0]
      ensures popped.Some? ==> Runnable(old(Snap())) && Snap() == DrainStep(old(Snap()), plan)
    {
      ghost var s := Snap();
      popped := localQueue.Pop();
      if popped.Some? {
        var t := popped.value;
        handles := handles + multiset{t};
        assert Snap() == PopHead(s);
        PopHeadShares(s);
        HeadRunnable(s);
        CloneHandle(t);
        MakeWaker(t);
        assert Snap() == Acquire(s);
        PollTask(t, plan);
        DropWaker(t);
        DropHandle(t);
        DrainStepComposes(s, plan);
      }
    }

    /** The `while let` loop of `block_on`: it runs until the queue is
        empty, entries pushed by the polls included, and returns the order
        in which tasks were driven. */
    method DrainQueue(plan: Plan) returns (order: seq<TaskId>)
      requires Valid()
      modifies this, localQueue
      ensures Valid()
      ensures Snap() == Drain(old(Snap()), plan).0 && order == Drain(old(Snap()), plan).1
    {
      ghost var s0 := Snap();
      order := [];
      while true
        invariant Valid()
        invariant Drain(s0, plan).0 == Drain(Snap(), plan).0
        invariant Drain(s0, plan).1 == order + Drain(Snap(), plan).1
        decreases Sum(steps), |localQueue.items|
      {
        ghost var s := Snap();
        var popped := DriveHead(plan);
        if popped.None? {
          return;
        }
        DrainUnfold(s, plan);
        DrainStepProgress(s, plan);
        order := order + [popped.value];
      }
    }

    /** `self.reactor.borrow_mut().wait()`, with the events that are ready
        in this round given by `fire`. */
    method ReactorWait(fire: (nat, TaskId) -> bool, round: nat)
      requires Valid()
      modifies this, localQueue
      ensures Valid() && Snap() == Wait(old(Snap()), fire, round)
    {
      WaitShares(Snap(), fire, round);
      localQueue.items := localQueue.items + Select(reactor, fire, round, true);
      reactor := Select(reactor, fire, round, false);
    }

    /** One iteration of the `loop` of `block_on`: poll the root, drain
        the queue, poll the root again and, unless it is Ready or no wait
        is left, wait on the reactor. `seg` is what the iteration adds to
        the trace; when the loop goes on, the rest of the run is the run
        from the new state with one wait fewer. */
    method Iterate(root: set<TaskId> -> bool, plan: Plan, fire: (nat, TaskId) -> bool, round: nat, left: nat)
      returns (stop: bool, outcome: Outcome, seg: seq<Event>, round': nat, left': nat)
      requires Valid()
      modifies this, localQueue
      ensures Valid()
      ensures var r := Run(old(Snap()), plan, root, fire, round, left);
              if stop then outcome == r.outcome && seg == r.trace && Snap() == r.final
              else left > 0 && round' == round + 1 && left' == left - 1 &&
                   var rest := Run(Snap(), plan, root, fire, round', left');
                   r.outcome == rest.outcome && r.final == rest.final && r.trace == seg + rest.trace
    {
      ghost var s := Snap();
      if root(done) {
        RunReadyAtOnce(s, plan, root, fire, round, left);
        return true, Ready, [RootPolled(true)], round, left;
      }
      var order := DrainQueue(plan);
      if root(done) || left == 0 {
        RunStopsAfterDrain(s, plan, root, fire, round, left);
        outcome := if root(done) then Ready else OutOfFuel;
        return true, outcome, Pass(order) + [RootPolled(root(done))], round, left;
      }
      ghost var d := Snap();
      stop, outcome, round', left' := false, Ready, round + 1, left - 1;
      RunGoesOn(s, plan, root, fire, round, left);
      seg := Pass(order) + [RootPolled(false), Waited(localQueue.items)];
      ReactorWait(fire, round);
      assert Snap() == Wait(d, fire, round);
      RunShift(Snap(), plan, root, fire, round, left, round', left');
    }

    /** `Executor::block_on`, allowed `fuel` reactor waits. It returns what
        `Run` computes, so it exits only through a Ready poll of the root
        and waits on the reactor only with an empty queue. */
    method BlockOn(root: set<TaskId> -> bool, plan: Plan, fire: (nat, TaskId) -> bool, fuel: nat)
      returns (outcome: Outcome, trace: seq<Event>)
      requires Valid()
      modifies this, localQueue
      ensures Valid()
      ensures var r := Run(old(Snap()), plan, root, fire, 0, fuel);
              outcome == r.outcome && trace == r.trace && Snap() == r.final
    {
      ghost var r0 := Run(Snap(), plan, root, fire, 0, fuel);
      var round, left := 0, fuel;
      trace := [];
      while true
        invariant Valid() && RunFrom(r0, trace, Snap(), plan, root, fire, round, left)
        decreases left
      {
        ghost var s := Snap();
        var stop, seg, round', left';
        stop, outcome, seg, round', left' := Iterate(root, plan, fire, round, left);
        if stop {
          trace := trace + seg;
          return;
        }
        ghost var trace0 := trace;
        trace := trace + seg;
        RunFromStep(r0, trace0, seg, s, Snap(), plan, root, fire, round, left, trace, round', left');
        round, left := round', left';
      }
    }
  }
}
