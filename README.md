# mini-rust-runtime executor, modelled in Dafny

This project models the single-threaded executor of mini-rust-runtime,
`src/executor.rs`. It covers four parts:

- **`TaskQueue`**: a FIFO of `Rc<Task>` handles.
- **The `RawWaker` vtable**: the raw-pointer wakers built over those handles.
- **`Executor::spawn`**.
- **`Executor::block_on`**: poll the root future; drain the queue, polling
  each popped task through a fresh waker; poll the root again; then wait on
  the reactor.

The model has four modules, one per file:

- `queue.dfy` (`TaskQueues`): the `TaskQueue` class. `push` appends at the
  tail and `pop` takes the head, so the queue is a sequence field that the
  methods reassign.
- `shares.dfy` (`Shares`): share accounting.
  - **The snapshot.** `State` is a snapshot of the executor. It records:
    - the queue;
    - the strong count of every live `Rc<Task>` allocation;
    - who holds each share: queue entries, wakers held by running code,
      wakers in the reactor's table, and `Rc` handles in flight;
    - the tasks whose storage has been freed;
    - the tasks' futures.
  - **The invariant.** `Balanced` says that every task's strong count equals
    the number of entries, wakers and handles that refer to it. It follows
    that nothing refers to freed storage.
  - **The operations.** Every operation of the vtable and of `Task` is a
    function on `State`. A lemma beside each proves that the operation keeps
    the ledger balanced and what it does to the counts.
- `schedule.dfy` (`Schedule`): the run loop as functions.
  - `Poll` is one poll of a task.
  - `DrainStep` is one iteration of the `while let` drain, by its net
    effect. `DrainStepComposes` proves that this net effect is what the
    body's own operations do in order.
  - `Drain` is the whole drain, `Wait` is the reactor's wait, and `Run` is
    the outer `loop`.
  - Lemmas state FIFO order, no lost self-wakeups, and that the ledger stays
    balanced. They also state how the loop exits and when it waits.
- `executor.dfy` (`Executors`): the `Executor` class.
  - Its fields are the local queue (a `TaskQueue` object), the strong
    counts, the reactor's table and the futures.
  - Every method changes them in place. Each method is proved to move the
    executor's snapshot exactly as the matching `Shares`/`Schedule` function
    moves a `State`. Every method except `IncreaseRefcount`, which is only
    the first half of `clone_waker`, is also proved to keep `Balanced`.
  - The drain and `block_on` are `while` loops.

**How the futures are modelled.** A task's future is its number of remaining
Pending polls (`steps`). A `Plan` says what each Pending poll does with the
waker in its context:

- `WakeSelf`: it calls `wake_by_ref` (a yield);
- `Register`: it hands a clone of the waker to the reactor;
- `Abandon`: it keeps nothing.

**How the environment is modelled.** The remaining inputs are parameters:

- The root future given to `block_on` is a predicate `root` on the set of
  completed tasks.
- The reactor's readiness is an oracle `fire(round, task)`.
- The number of reactor waits is bounded by `fuel`.

**Drain and root polls.** The `while let Some(t) = self.local_queue.pop()`
drains until the queue is empty, entries pushed by the polls during the
drain included, and the root future is polled only before and after the
drain. `SelfWakeRedriven` proves that a task that wakes itself is driven
again in the same drain.

## Model

| member | source | states |
|---|---|---|
| TaskQueues.TaskQueue.New | src/executor.rs:105-108 | A new queue is empty (the 4096 capacity is only a pre-allocation). |
| TaskQueues.TaskQueue.NewWithCapacity | src/executor.rs:111-115 | A queue built with any capacity is empty. |
| TaskQueues.TaskQueue.Push | src/executor.rs:118-121 | The task is appended at the tail and every entry already queued keeps its place. |
| TaskQueues.TaskQueue.Pop | src/executor.rs:124-127 | Returns None exactly when the queue is empty; otherwise returns the head and leaves the rest in order. |
| Shares.Init | src/executor.rs:32-39 | A new executor has an empty queue, no live task and a balanced ledger. |
| Shares.SpawnShares | src/executor.rs:43-48 | A spawned task is fresh: never live, never freed, not queued. It has exactly one share, owned by the new tail entry; no other count or queued entry changes; the ledger stays balanced. |
| Shares.DropHandleShares | src/executor.rs:73-78 | Dropping an `Rc<Task>` lowers its count by exactly one, and frees the storage exactly when that was the last share; no other count changes. |
| Shares.CloneHandleShares | src/executor.rs:75 | `t.clone()` raises the count by one and keeps the ledger balanced. |
| Shares.MakeWakerShares | src/executor.rs:136-140 | `waker` moves the handle's share into the new waker for the same task; no count changes. |
| Shares.FromRawShares | src/executor.rs:170-172 | `Rc::from_raw` turns a waker's share into a handle; no count changes. |
| Shares.CloneWakerShares | src/executor.rs:164-168 | Cloning a waker adds exactly one share and one waker of the same task; the queue and all other counts are unchanged. |
| Shares.TaskWakeByRefShares | src/executor.rs:149-151 | `wake_by_ref_` appends the task at the tail and adds exactly one share, owned by that entry. |
| Shares.TaskWakeShares | src/executor.rs:144-146 | `wake_` appends the task and leaves every count unchanged: the consumed handle's share becomes the entry's. |
| Shares.WakeShares | src/executor.rs:170-173 | Waking by value appends the task, consumes the waker and leaves every count unchanged. |
| Shares.WakeByRefShares | src/executor.rs:175-178 | Waking by reference appends the task and adds one share; the borrowed waker and the reactor are untouched. |
| Shares.DropWakerShares | src/executor.rs:180-182 | Dropping a waker removes exactly one share, and frees the storage exactly when that was the last one. |
| Shares.PopHeadShares | src/executor.rs:73 | Popping the head turns that entry's share into the loop's handle `t`; no count changes. |
| Schedule.HandToReactorShares | src/executor.rs:77 | A waker handed to the reactor keeps its share; the ledger stays balanced. |
| Schedule.PollShares | src/executor.rs:77 | Polling a task whose waker the drain holds keeps the ledger balanced, whatever its plan does. |
| Schedule.Poll | src/executor.rs:77 | A poll re-queues the task exactly when it woke itself and registers it exactly when it gave the reactor a waker. Its count grows by one for each; the future completes or consumes a step. |
| Schedule.Acquire | src/executor.rs:73-75 | Popping the head and making `waker(t.clone())` leaves the drain holding one handle and one waker of the head task, with its count one higher. |
| Schedule.Release | src/executor.rs:76-78 | Dropping the waker and then `t` gives up two shares; the storage is freed exactly when they were the last two. |
| Schedule.AcquireShares | src/executor.rs:73-75 | The start of a drain iteration keeps the ledger balanced. |
| Schedule.ReleaseShares | src/executor.rs:76-78 | The end of a drain iteration keeps the ledger balanced, and the drain's waker and handle are two live shares. |
| Schedule.DrainStepComposes | src/executor.rs:73-78 | The net effect of a drain iteration equals pop, clone, waker, poll, drop the waker, drop `t`, in that order. |
| Schedule.DrainStepShares | src/executor.rs:73-78 | A drain iteration keeps the ledger balanced. It frees the driven task exactly when its poll kept no share of it. |
| Schedule.DrainStepProgress | src/executor.rs:73-78 | Every drain iteration either consumes a step of some future or shortens the queue. The drain therefore ends, but only because every modelled future has finitely many Pending polls. |
| Schedule.Drain | src/executor.rs:73-78 | The drain ends only with an empty queue, the entries pushed during it included, and it returns no handle or waker in flight. |
| Schedule.DrainShares | src/executor.rs:73-78 | The whole drain keeps the ledger balanced. |
| Schedule.DrainFreesUnregistered | src/executor.rs:73-78 | After a drain, every live task's shares are all wakers in the reactor's table, and a task with no such waker has been freed. |
| Schedule.DrainFifo | src/executor.rs:73-78 | FIFO: the entries queued when the drain starts are driven first, in queue order. |
| Schedule.SelfWakeRedriven | src/executor.rs:73-78 | A task that wakes itself during its poll is driven again later in the same drain. |
| Schedule.WaitShares | src/executor.rs:86 | The reactor's wait changes no count: each fired registration becomes exactly one queue entry, and the others stay registered. |
| Schedule.Run | src/executor.rs:66-87 | Over the whole loop, every returned Ready comes from a root poll that saw Ready, and that poll is the last event. No earlier root poll was Ready. Every wait found the queue empty right after a Pending root poll. The final ledger is balanced. |
| Schedule.RunReadyAtOnce | src/executor.rs:68-70 | When the root is Ready on the first poll, the loop returns at once without draining. |
| Schedule.RunStopsAfterDrain | src/executor.rs:73-83 | After the drain, the second root poll ends the loop when it is Ready. |
| Schedule.RunGoesOn | src/executor.rs:66-87 | When both root polls are Pending, the loop waits on the reactor with an empty queue and runs again from the woken queue. |
| Executors.Executor.constructor | src/executor.rs:32-39 | `Executor::new`: the state is `Init` and the ledger is balanced. |
| Executors.Executor.Spawn | src/executor.rs:43-48 | Pushes a fresh task with one share at the tail of the local queue, as `Shares.Spawn`. |
| Executors.Executor.CloneHandle | src/executor.rs:75 | `t.clone()` on the executor's counts. |
| Executors.Executor.DropHandle | src/executor.rs:78 | Dropping `t`: one share fewer; the storage is freed at zero. |
| Executors.Executor.MakeWaker | src/executor.rs:136-140 | `waker`, in place. |
| Executors.Executor.FromRaw | src/executor.rs:171 | `Rc::from_raw` of a waker, in place. |
| Executors.Executor.IncreaseRefcount | src/executor.rs:186-191 | The strong count goes up by one and nothing else changes. |
| Executors.Executor.CloneWaker | src/executor.rs:164-168 | `clone_waker`: `increase_refcount`, then the new waker; the ledger stays balanced. |
| Executors.Executor.TaskWakeByRef | src/executor.rs:149-151 | `wake_by_ref_` pushes a clone onto the local queue. |
| Executors.Executor.TaskWake | src/executor.rs:144-146 | `wake_` is `wake_by_ref_` followed by dropping the handle. |
| Executors.Executor.Wake | src/executor.rs:170-173 | `wake`: `from_raw`, then `wake_`. |
| Executors.Executor.WakeByRef | src/executor.rs:175-178 | `wake_by_ref` through a waker that stays alive. |
| Executors.Executor.DropWaker | src/executor.rs:180-182 | `drop_waker`: `from_raw`, then drop. |
| Executors.Executor.HandToReactor | src/executor.rs:77 | A waker moves into the reactor's table. |
| Executors.Executor.Advance | src/executor.rs:77 | The future takes one step, or completes. |
| Executors.Executor.PollTask | src/executor.rs:74-77 | The poll in the drain changes the executor exactly as `Schedule.Poll`. |
| Executors.Executor.DriveHead | src/executor.rs:73-78 | One test of `while let`: None exactly on an empty queue, with nothing changed; otherwise the head is driven and the state moves by `DrainStep`. |
| Executors.Executor.DrainQueue | src/executor.rs:73-78 | The drain loop ends in the state `Drain` computes and returns the order in which tasks were driven. |
| Executors.Executor.ReactorWait | src/executor.rs:86 | `reactor.wait()` wakes the fired registrations in order and keeps the rest. |
| Executors.Executor.Iterate | src/executor.rs:66-87 | One iteration of the `loop`. It says whether the loop stops, with the outcome; otherwise the rest of the run continues from the new state with one wait fewer. |
| Executors.Executor.BlockOn | src/executor.rs:55-89 | The outcome, the event trace and the final state are exactly those of `Schedule.Run`, so every property proved about `Run` holds of the method. |

## Left out

- The reactor (`src/reactor.rs`) is not part of this model. Its `wait` is
  abstracted by the oracle `fire(round, task)`: in each round, the
  registered wakers whose event fires are woken by value, in registration
  order.
- Futures and `Context` are abstract: a count of remaining Pending polls
  plus a plan.
  - A future that wakes another task's waker is not modelled; neither is a
    future that spawns tasks while being polled.
  - The root future's own effects are not modelled; the root's readiness is
    a predicate on the set of completed tasks.
  - Polling a future again after it returned Ready is modelled as harmless
    (the task is recorded as done again).
- `RawWaker`, `RawWakerVTable` and raw pointers are modelled by their effect
  on the share ledger; pointer validity is the ledger invariant itself.
- The scoped thread-local `EX` is not modelled; `spawn` and `wake_by_ref_`
  act on the one executor directly.
- Executors.Executor.Spawn: `Executor::spawn` reaches the queue through
  `EX.with`, which panics outside the `EX.set` of `block_on`, so in the
  source tasks are spawned only while `block_on` runs. The model has no
  thread-local and lets `Spawn` run before `BlockOn`, where the source would
  panic. A `Spawn` before `BlockOn` stands for the spawns made by the root
  future's first poll; spawns made by later polls are not modelled.
- Schedule.Drain: futures that return Pending without bound are not
  modelled. Every future has a finite number of Pending polls (`steps`), so
  the model's drain always ends (`Schedule.DrainStepProgress`). In the
  source, a task that wakes itself on every poll is pushed again by each
  poll, so the `while let` drain never ends and the second root poll is
  never reached.
- `RefCell` borrow panics and `println!` output are not modelled.
- `PhantomData` and the dummy waker of the root context are not modelled.
- Wakers held by running code, handles in flight and the set of freed tasks
  are ghost bookkeeping; they have no run-time counterpart in the source.
- Executors.Executor.BlockOn: bounded by `fuel` reactor waits; it returns
  `OutOfFuel` where the source would keep waiting forever. It returns an
  `Outcome` rather than the root future's output value.
- TaskQueues.TaskQueue.NewWithCapacity: the capacity is not observable in the
  model, so the contract only states that the queue is empty.
