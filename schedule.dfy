/** The run loop of `Executor::block_on` as functions over `Shares.State`:
    one poll of a task, one iteration of the drain, the whole drain, the
    reactor's wait and the outer loop, with the properties the executor
    relies on. Futures are abstract: a task's future returns Pending
    `steps[t]` more times and then Ready, and a plan says what each Pending
    poll does with the waker it was given. */
module Schedule {
  import opened TaskQueues
  import opened Shares

  /** What a future that returns Pending does with its context's waker. */
  datatype Pending =
    | WakeSelf   // calls `wake_by_ref` on it (a yield)
    | Register   // hands a clone to the reactor and waits for an event
    | Abandon    // keeps nothing: only someone else's waker can wake it

  /** The plan of every task: what the Pending poll of task `t` with `k`
      Pending polls left does. */
  type Plan = (TaskId, nat) -> Pending

  /** Total work left in all futures. */
  function Sum(xs: seq<nat>): nat {
    if xs == [] then 0 else xs[0] + Sum(xs[1..])
  }

  lemma {:induction false} SumDecrement(xs: seq<nat>, i: nat)
    requires i < |xs| && xs[i] > 0
    ensures Sum(xs[i := xs[i] - 1]) == Sum(xs) - 1
  {
    if i == 0 {
      assert xs[i := xs[i] - 1][1..] == xs[1..];
    } else {
      assert xs[i := xs[i] - 1][1..] == xs[1..][i - 1 := xs[i] - 1];
      SumDecrement(xs[1..], i - 1);
    }
  }

  /** The poll of `t` returns Pending and wakes `t` through its waker. */
  predicate SelfWakes(s: State, t: TaskId, plan: Plan)
    requires t < |s.steps|
  {
    s.steps[t] > 0 && plan(t, s.steps[t]) == WakeSelf
  }

  /** The poll of `t` returns Pending and leaves a clone of its waker with
      the reactor. */
  predicate Registers(s: State, t: TaskId, plan: Plan)
    requires t < |s.steps|
  {
    s.steps[t] > 0 && plan(t, s.steps[t]) == Register
  }

  /** How many shares of the driven task its poll leaves behind. */
  function Kept(s: State, t: TaskId, plan: Plan): nat
    requires t < |s.steps|
  {
    (if SelfWakes(s, t, plan) then 1 else 0) + (if Registers(s, t, plan) then 1 else 0)
  }

  /** A change to the futures alone (work left, completion) keeps the
      ledger balanced. */
  lemma FuturesFrame(s: State, r: State)
    requires Balanced(s) && r == s.(steps := r.steps, done := r.done)
    requires |r.steps| == |s.steps| && forall u :: u in r.done ==> u < |r.steps|
    ensures Balanced(r)
  {
    forall u ensures Refs(r, u) == Count(r, u) {
      assert Refs(s, u) == Count(s, u);
    }
  }

  /** A waker held by running code is stored in the reactor's table. */
  function HandToReactor(s: State, t: TaskId): State
    requires t in s.held
  {
    s.(held := s.held - multiset{t}, reactor := s.reactor + [t])
  }

  lemma HandToReactorShares(s: State, t: TaskId)
    requires Balanced(s) && t in s.held
    ensures Balanced(HandToReactor(s, t)) && HandToReactor(s, t).count == s.count
  {
    var r := HandToReactor(s, t);
    assert multiset(r.reactor) == multiset(s.reactor) + multiset{t};
    forall u ensures Refs(r, u) == Count(r, u) {
      assert Refs(s, u) == Count(s, u);
    }
  }

  /** The future of `t` is polled once: with no Pending polls left it
      returns Ready and the task is completed; otherwise it consumes one
      step and returns Pending. */
  function Advance(s: State, t: TaskId): State
    requires t < |s.steps|
  {
    if s.steps[t] == 0 then s.(done := s.done + {t})
    else s.(steps := s.steps[t := s.steps[t] - 1])
  }

  /** One poll of task `t`'s future through a context whose waker is held
      by the drain (`Pin::new(future).as_mut().poll(&mut context)`). A
      Pending poll does what the plan says with the waker: the task is
      queued again exactly when it woke itself, registered with the reactor
      exactly when it handed over a clone of the waker, and its count grows
      by one for each. */
  function Poll(s: State, t: TaskId, plan: Plan): (r: State)
    requires t in s.held && t in s.count && t < |s.steps|
    ensures r.count == s.count[t := s.count[t] + Kept(s, t, plan)]
    ensures r.queue == s.queue + (if SelfWakes(s, t, plan) then [t] else [])
    ensures r.reactor == s.reactor + (if Registers(s, t, plan) then [t] else [])
    ensures r.steps == Advance(s, t).steps && r.done == Advance(s, t).done
    ensures r.handles == s.handles && r.held == s.held && r.released == s.released
  {
    var a := Advance(s, t);
    if s.steps[t] == 0 then a
    else
      match plan(t, s.steps[t])
      case WakeSelf => WakeByRef(a, t)
      case Register => HandToReactor(CloneWaker(a, t), t)
      case Abandon => a
  }

  /** A poll keeps the ledger balanced. */
  lemma PollShares(s: State, t: TaskId, plan: Plan)
    requires Balanced(s) && t in s.held
    ensures t in s.count && t < |s.steps| && Balanced(Poll(s, t, plan))
  {
    HeldIsLive(s, t);
    var a := Advance(s, t);
    FuturesFrame(s, a);
    if s.steps[t] > 0 {
      match plan(t, s.steps[t])
      case WakeSelf => WakeByRefShares(a, t);
      case Register =>
        CloneWakerShares(a, t);
        HandToReactorShares(CloneWaker(a, t), t);
      case Abandon =>
    }
  }

  /** The head of the queue is a live task with a future. */
  predicate Runnable(s: State) {
    s.queue != [] && s.queue[0] in s.count && s.count[s.queue[0]] > 0 && s.queue[0] < |s.steps|
  }

  /** The first half of a drain iteration: pop the head `t`, then
      `waker(t.clone())`. The drain now holds the popped handle and a waker,
      each with a share of `t`. */
  function Acquire(s: State): (r: State)
    requires Runnable(s)
    ensures var t := s.queue[0];
            r == s.(queue := s.queue[1..], count := s.count[t := s.count[t] + 1],
                    handles := s.handles + multiset{t}, held := s.held + multiset{t})
  {
    var t := s.queue[0];
    AddRemove(s.handles + multiset{t}, t);
    MakeWaker(CloneHandle(PopHead(s), t), t)
  }

  /** The end of a drain iteration: the waker is dropped, then the popped
      handle; the storage is freed when they held the last two shares. */
  function Release(s: State, t: TaskId): (r: State)
    requires t in s.held && t in s.handles && t in s.count && s.count[t] > 1
    ensures r.count == (if s.count[t] == 2 then s.count - {t} else s.count[t := s.count[t] - 2])
    ensures r.released == (if s.count[t] == 2 then s.released + {t} else s.released)
    ensures r == s.(count := r.count, released := r.released,
                    handles := s.handles - multiset{t}, held := s.held - multiset{t})
  {
    UpdateTwice(s.count, t, s.count[t] - 1, s.count[t] - 2);
    UpdateRemove(s.count, t, s.count[t] - 1);
    DropHandle(DropWaker(s, t), t)
  }

  /** One iteration of `while let Some(t) = self.local_queue.pop()`, by its
      net effect: the head entry is consumed; the task is appended again
      when its poll woke it and registered when its poll handed a waker to
      the reactor; its count loses the entry's share and gains one per such
      waker or entry, and its storage is freed when nothing is left; its
      future completes or consumes one step. `DrainStepComposes` proves that
      this is exactly what the iteration's own operations do in order. */
  function DrainStep(s: State, plan: Plan): State
    requires Runnable(s)
  {
    var t := s.queue[0];
    var n := s.count[t] - 1 + Kept(s, t, plan);
    Advance(s, t).(
      queue := s.queue[1..] + (if SelfWakes(s, t, plan) then [t] else []),
      reactor := s.reactor + (if Registers(s, t, plan) then [t] else []),
      count := if n == 0 then s.count - {t} else s.count[t := n],
      released := if n == 0 then s.released + {t} else s.released)
  }

  /** The head of a balanced, non-empty queue can be driven. */
  lemma HeadRunnable(s: State)
    requires Balanced(s) && s.queue != []
    ensures Runnable(s)
  {
    HeldIsLive(s, s.queue[0]);
  }

  /** Polling the task just acquired: the head entry is gone, the task
      holds a handle and a waker, and the poll has done what the plan says. */
  lemma AcquireThenPoll(s: State, plan: Plan)
    requires Runnable(s)
    ensures var t := s.queue[0];
            var c, k := s.count[t], Kept(s, t, plan);
            var q := Poll(Acquire(s), t, plan);
            q == Advance(s, t).(
              queue := s.queue[1..] + (if SelfWakes(s, t, plan) then [t] else []),
              reactor := s.reactor + (if Registers(s, t, plan) then [t] else []),
              count := s.count[t := c + 1 + k],
              handles := s.handles + multiset{t}, held := s.held + multiset{t})
  {
    var t := s.queue[0];
    var w := Acquire(s);
    assert Kept(w, t, plan) == Kept(s, t, plan);
    assert SelfWakes(w, t, plan) == SelfWakes(s, t, plan) && Registers(w, t, plan) == Registers(s, t, plan);
    UpdateTwice(s.count, t, s.count[t] + 1, s.count[t] + 1 + Kept(s, t, plan));
  }

  /** Dropping the waker and the handle of the polled task. */
  lemma ReleaseAfterPoll(s: State, q: State, t: TaskId, k: nat)
    requires t in s.count && s.count[t] > 0
    requires q.count == s.count[t := s.count[t] + 1 + k]
    requires t in q.held && t in q.handles
    ensures Released(s, q, t, k, Release(q, t))
  {
    UpdateTwice(s.count, t, s.count[t] + 1 + k, s.count[t] - 1 + k);
    UpdateRemove(s.count, t, s.count[t] + 1 + k);
  }

  /** `r` is `q` after the waker and the handle of `t` were dropped, where
      `q` counted `k` more shares of `t` than `s` besides those two. */
  ghost predicate Released(s: State, q: State, t: TaskId, k: nat, r: State)
    requires t in s.count && s.count[t] > 0
  {
    var n := s.count[t] - 1 + k;
    && r.count == (if n == 0 then s.count - {t} else s.count[t := n])
    && r.released == (if n == 0 then q.released + {t} else q.released)
    && r.handles == q.handles - multiset{t} && r.held == q.held - multiset{t}
    && r.queue == q.queue && r.reactor == q.reactor
    && r.steps == q.steps && r.done == q.done
  }

  /** The stages put together give the net effect. */
  lemma NetEffect(s: State, plan: Plan, q: State, r: State)
    requires Runnable(s)
    requires var t := s.queue[0];
             q == Advance(s, t).(
               queue := s.queue[1..] + (if SelfWakes(s, t, plan) then [t] else []),
               reactor := s.reactor + (if Registers(s, t, plan) then [t] else []),
               count := s.count[t := s.count[t] + 1 + Kept(s, t, plan)],
               handles := s.handles + multiset{t}, held := s.held + multiset{t})
    requires Released(s, q, s.queue[0], Kept(s, s.queue[0], plan), r)
    ensures DrainStep(s, plan) == r
  {
    var t := s.queue[0];
    AddRemove(s.handles, t);
    AddRemove(s.held, t);
    assert Advance(s, t).released == s.released;
  }

  /** The net effect is what the loop body does: pop the head `t`, make a
      waker from `t.clone()`, poll the task through it, drop the waker, drop
      `t`. */
  lemma DrainStepComposes(s: State, plan: Plan)
    requires Runnable(s)
    ensures var t := s.queue[0];
            var q := Poll(Acquire(s), t, plan);
            && t in q.held && t in q.handles && t in q.count && q.count[t] > 1
            && DrainStep(s, plan) == Release(q, t)
  {
    var t := s.queue[0];
    AcquireThenPoll(s, plan);
    var q := Poll(Acquire(s), t, plan);
    ReleaseAfterPoll(s, q, t, Kept(s, t, plan));
    NetEffect(s, plan, q, Release(q, t));
  }

  /** Acquiring keeps the ledger balanced: the head entry's share moves to
      the popped handle and the waker's share is new. */
  lemma AcquireShares(s: State)
    requires Balanced(s) && s.queue != []
    ensures Runnable(s) && Balanced(Acquire(s))
  {
    HeadRunnable(s);
    var t := s.queue[0];
    var p := PopHead(s);
    PopHeadShares(s);
    CloneHandleShares(p, t);
    MakeWakerShares(CloneHandle(p, t), t);
  }

  /** Releasing keeps the ledger balanced; the drain's waker and handle are
      two shares of a live task. */
  lemma ReleaseShares(s: State, t: TaskId)
    requires Balanced(s) && t in s.held && t in s.handles
    ensures t in s.count && s.count[t] > 1 && Balanced(Release(s, t))
  {
    HeldIsLive(s, t);
    assert Refs(s, t) >= 2;
    DropWakerShares(s, t);
    DropHandleShares(DropWaker(s, t), t);
  }

  /** One drain iteration keeps the ledger balanced, so the driven task's
      storage is freed exactly when its count reaches zero. */
  lemma DrainStepShares(s: State, plan: Plan)
    requires Balanced(s) && s.queue != []
    ensures Runnable(s)
    ensures var t, r := s.queue[0], DrainStep(s, plan);
            && Balanced(r)
            && (t in r.released <==> s.count[t] - 1 + Kept(s, t, plan) == 0)
  {
    var t := s.queue[0];
    HeadRunnable(s);
    DrainStepComposes(s, plan);
    AcquireShares(s);
    PollShares(Acquire(s), t, plan);
    ReleaseShares(Poll(Acquire(s), t, plan), t);
  }

  /** Each iteration makes progress: either some future consumed a step, or
      the queue got shorter. The drain ends because every future here has
      finitely many Pending polls; a source future that yields forever keeps
      the drain going. */
  lemma DrainStepProgress(s: State, plan: Plan)
    requires Balanced(s) && s.queue != []
    ensures Runnable(s)
    ensures var r := DrainStep(s, plan);
            Sum(r.steps) < Sum(s.steps) || (Sum(r.steps) == Sum(s.steps) && |r.queue| < |s.queue|)
  {
    var t := s.queue[0];
    HeadRunnable(s);
    if s.steps[t] > 0 {
      SumDecrement(s.steps, t);
    }
  }

  /** The drain: iterations until the queue is empty, entries pushed during
      the drain included. The second component is the order in which tasks
      were driven. */
  function Drain(s: State, plan: Plan): (r: (State, seq<TaskId>))
    requires Balanced(s)
    ensures r.0.queue == []
    ensures r.0.handles == s.handles && r.0.held == s.held
    ensures |r.0.steps| == |s.steps|
    decreases Sum(s.steps), |s.queue|
  {
    if s.queue == [] then (s, [])
    else
      DrainStepShares(s, plan);
      DrainStepProgress(s, plan);
      var next := Drain(DrainStep(s, plan), plan);
      (next.0, [s.queue[0]] + next.1)
  }

  /** One iteration, then the rest of the drain. */
  lemma DrainUnfold(s: State, plan: Plan)
    requires Balanced(s) && s.queue != []
    ensures Runnable(s)
    ensures var n := DrainStep(s, plan);
            && Balanced(n)
            && Drain(s, plan).0 == Drain(n, plan).0
            && Drain(s, plan).1 == [s.queue[0]] + Drain(n, plan).1
  {
    DrainStepShares(s, plan);
  }

  /** The drain keeps the ledger balanced. */
  lemma {:induction false} DrainShares(s: State, plan: Plan)
    requires Balanced(s)
    ensures Balanced(Drain(s, plan).0)
    decreases Sum(s.steps), |s.queue|
  {
    if s.queue != [] {
      DrainStepKeepsOrder(s, plan);
      DrainShares(DrainStep(s, plan), plan);
    }
  }

  /** When the drain starts with no waker or handle in the hands of running
      code, every task still alive after it has a waker registered with the
      reactor: a task that neither woke itself nor registered is freed. */
  lemma DrainFreesUnregistered(s: State, plan: Plan)
    requires Balanced(s) && s.held == multiset{} && s.handles == multiset{}
    ensures var d := Drain(s, plan).0;
            forall t :: t in d.count ==> t in d.reactor && d.count[t] == multiset(d.reactor)[t]
    ensures var d := Drain(s, plan).0;
            forall t :: 0 <= t < |d.steps| && t !in d.reactor ==> t in d.released
  {
    DrainShares(s, plan);
    var d := Drain(s, plan).0;
    forall t | t in d.count ensures t in d.reactor && d.count[t] == multiset(d.reactor)[t] {
      assert Refs(d, t) == Count(d, t);
    }
    forall t | 0 <= t < |d.steps| && t !in d.reactor ensures t in d.released {
      assert Refs(d, t) == Count(d, t);
    }
  }

  /** FIFO: the drain drives every entry queued when it starts, first and in
      queue order; the tasks woken during the drain come after them. */
  lemma {:induction false} DrainFifo(s: State, plan: Plan)
    requires Balanced(s)
    ensures |s.queue| <= |Drain(s, plan).1|
    ensures forall i :: 0 <= i < |s.queue| ==> Drain(s, plan).1[i] == s.queue[i]
    decreases Sum(s.steps), |s.queue|
  {
    if s.queue != [] {
      DrainStepKeepsOrder(s, plan);
      var n := DrainStep(s, plan);
      DrainFifo(n, plan);
      assert Drain(s, plan).1 == [s.queue[0]] + Drain(n, plan).1;
      PrefixShift(s.queue, n.queue, Drain(n, plan).1);
    }
  }

  /** The facts about one drain iteration that the FIFO proof needs. */
  lemma DrainStepKeepsOrder(s: State, plan: Plan)
    requires Balanced(s) && s.queue != []
    ensures Runnable(s)
    ensures var n := DrainStep(s, plan);
            && Balanced(n) && |s.queue| - 1 <= |n.queue|
            && (forall i :: 0 < i < |s.queue| ==> n.queue[i - 1] == s.queue[i])
            && (Sum(n.steps) < Sum(s.steps) || (Sum(n.steps) == Sum(s.steps) && |n.queue| < |s.queue|))
  {
    DrainStepShares(s, plan);
    DrainStepProgress(s, plan);
  }

  /** If the queue left after popping the head of `q` begins with the rest
      of `q`, and `rest` begins with that queue, then the head followed by
      `rest` begins with `q`. */
  lemma PrefixShift(q: seq<TaskId>, next: seq<TaskId>, rest: seq<TaskId>)
    requires q != [] && |q| - 1 <= |next| && forall i :: 0 < i < |q| ==> next[i - 1] == q[i]
    requires |next| <= |rest| && forall i :: 0 <= i < |next| ==> rest[i] == next[i]
    ensures |q| <= |[q[0]] + rest| && forall i :: 0 <= i < |q| ==> ([q[0]] + rest)[i] == q[i]
  {
    forall i | 0 < i < |q| ensures ([q[0]] + rest)[i] == q[i] {
      assert ([q[0]] + rest)[i] == rest[i - 1] == next[i - 1];
    }
  }

  /** No lost wakeup: a task that wakes itself while it is being driven is
      driven again later in the same drain. */
  lemma SelfWakeRedriven(s: State, plan: Plan)
    requires Balanced(s) && s.queue != []
    requires s.queue[0] < |s.steps| && SelfWakes(s, s.queue[0], plan)
    ensures exists i :: 0 < i < |Drain(s, plan).1| && Drain(s, plan).1[i] == s.queue[0]
  {
    DrainStepKeepsOrder(s, plan);
    var n := DrainStep(s, plan);
    DrainFifo(n, plan);
    var k := |n.queue| - 1;
    assert n.queue[k] == s.queue[0];
    var rest := Drain(n, plan).1;
    assert rest[k] == s.queue[0];
    assert Drain(s, plan).1 == [s.queue[0]] + rest;
    assert Drain(s, plan).1[k + 1] == s.queue[0];
  }

  /** The registrations among `regs` that fire (`want`) or stay (`!want`)
      when the reactor waits for the `round`-th time. */
  function Select(regs: seq<TaskId>, fire: (nat, TaskId) -> bool, round: nat, want: bool): (r: seq<TaskId>)
    ensures |r| <= |regs|
  {
    if regs == [] then []
    else
      var last := regs[|regs| - 1];
      Select(regs[..|regs| - 1], fire, round, want) + (if fire(round, last) == want then [last] else [])
  }

  lemma {:induction false} SelectSplit(regs: seq<TaskId>, fire: (nat, TaskId) -> bool, round: nat)
    ensures multiset(Select(regs, fire, round, true)) + multiset(Select(regs, fire, round, false)) == multiset(regs)
  {
    if regs != [] {
      var init := regs[..|regs| - 1];
      SelectSplit(init, fire, round);
      assert regs == init + [regs[|regs| - 1]];
    }
  }

  /** `reactor.wait()`, abstracted: every registered waker whose event is
      ready is taken out of the reactor's table and woken by value, in
      registration order, so its share becomes the share of its new queue
      entry; the others stay registered. */
  function Wait(s: State, fire: (nat, TaskId) -> bool, round: nat): State {
    s.(queue := s.queue + Select(s.reactor, fire, round, true),
       reactor := Select(s.reactor, fire, round, false))
  }

  /** Waiting changes no count: every registration either stays with the
      reactor or has become exactly one queue entry. */
  lemma WaitShares(s: State, fire: (nat, TaskId) -> bool, round: nat)
    requires Balanced(s)
    ensures var r := Wait(s, fire, round);
            && Balanced(r) && r.count == s.count
            && multiset(r.queue) + multiset(r.reactor) == multiset(s.queue) + multiset(s.reactor)
  {
    var r := Wait(s, fire, round);
    var fired := Select(s.reactor, fire, round, true);
    SelectSplit(s.reactor, fire, round);
    assert multiset(r.queue) == multiset(s.queue) + multiset(fired);
    forall u ensures Refs(r, u) == Count(r, u) {
      assert Refs(s, u) == Count(s, u);
    }
  }

  /** Why `block_on` returned. `OutOfFuel` is the model's bound on the
      number of reactor waits, where the source would keep waiting. */
  datatype Outcome = Ready | OutOfFuel

  /** What the run loop does, in order. */
  datatype Event =
    | RootPolled(ready: bool)       // `fut.as_mut().poll(cx)` on the root future
    | Driven(task: TaskId)          // one drain iteration on this task
    | Waited(queued: seq<TaskId>)   // `reactor.wait()`, with the queue as it was then

  datatype RunResult = RunResult(outcome: Outcome, final: State, trace: seq<Event>)

  function Drives(order: seq<TaskId>): (r: seq<Event>)
    ensures |r| == |order| && forall i :: 0 <= i < |order| ==> r[i] == Driven(order[i])
  {
    if order == [] then [] else [Driven(order[0])] + Drives(order[1..])
  }

  /** The events of a pass of the loop that goes on: the Pending root
      poll, then one event per drain iteration. */
  function Pass(order: seq<TaskId>): (r: seq<Event>)
    ensures |r| == |order| + 1 && r[0] == RootPolled(false)
    ensures forall i :: 0 < i < |r| ==> r[i] == Driven(order[i - 1])
  {
    [RootPolled(false)] + Drives(order)
  }

  /** No poll of the root in `tr` was Ready. */
  predicate NoReadyPoll(tr: seq<Event>) {
    forall i :: 0 <= i < |tr| ==> tr[i] != RootPolled(true)
  }

  /** `tr` ends with a Ready poll of the root exactly when the outcome is
      Ready, and no earlier poll of the root was Ready. */
  predicate ExitsOnReady(outcome: Outcome, tr: seq<Event>) {
    tr != [] && (outcome == Ready <==> tr[|tr| - 1] == RootPolled(true))
    && NoReadyPoll(tr[..|tr| - 1])
  }

  /** Every wait in `tr` found the queue empty and came right after a
      Pending poll of the root. */
  predicate WaitsWhenIdle(tr: seq<Event>) {
    forall i :: 0 <= i < |tr| ==> IdleAt(tr, i)
  }

  /** If the `i`-th event of `tr` is a wait, the queue was empty and the
      event before it was a Pending poll of the root. */
  predicate IdleAt(tr: seq<Event>, i: nat)
    requires i < |tr|
  {
    tr[i].Waited? ==> tr[i].queued == [] && i > 0 && tr[i - 1] == RootPolled(false)
  }

  /** A pass that goes on, followed by the Pending root poll and a wait on
      an empty queue, holds no Ready poll and waits only when idle. */
  lemma PassThenWait(order: seq<TaskId>, queued: seq<TaskId>)
    requires queued == []
    ensures NoReadyPoll(Pass(order)) && WaitsWhenIdle(Pass(order))
    ensures var head := Pass(order) + [RootPolled(false), Waited(queued)];
            NoReadyPoll(head) && WaitsWhenIdle(head)
  {
    var head := Pass(order) + [RootPolled(false), Waited(queued)];
    forall i | 0 <= i < |head| ensures IdleAt(head, i) {
      if head[i].Waited? {
        assert i == |head| - 1;
      }
    }
  }

  /** Events without a Ready root poll in front of a trace that exits on
      Ready keep it exiting on Ready. */
  lemma ExitsAfter(head: seq<Event>, outcome: Outcome, rest: seq<Event>)
    requires NoReadyPoll(head) && ExitsOnReady(outcome, rest)
    ensures ExitsOnReady(outcome, head + rest)
  {
    var tr := head + rest;
    assert tr[|tr| - 1] == rest[|rest| - 1];
    forall i | 0 <= i < |tr| - 1 ensures tr[i] != RootPolled(true) {
      if i >= |head| { assert tr[i] == rest[..|rest| - 1][i - |head|]; }
    }
  }

  /** Concatenation keeps every wait idle when the second part does not
      start with a wait. */
  lemma IdleAfter(head: seq<Event>, rest: seq<Event>)
    requires WaitsWhenIdle(head) && WaitsWhenIdle(rest) && (rest == [] || !rest[0].Waited?)
    ensures WaitsWhenIdle(head + rest)
  {
    var tr := head + rest;
    forall i | 0 <= i < |tr| ensures IdleAt(tr, i) {
      if i < |head| {
        assert IdleAt(head, i);
      } else {
        assert IdleAt(rest, i - |head|);
        assert tr[i] == rest[i - |head|];
        if tr[i].Waited? {
          assert i > |head|;
          assert tr[i - 1] == rest[i - 1 - |head|];
        }
      }
    }
  }

  /** One pass that goes on, in front of a run that exits on Ready. */
  lemma ExitsStep(order: seq<TaskId>, outcome: Outcome, rest: seq<Event>, tr: seq<Event>)
    requires ExitsOnReady(outcome, rest)
    requires tr == Pass(order) + [RootPolled(false), Waited([])] + rest
    ensures ExitsOnReady(outcome, tr)
  {
    PassThenWait(order, []);
    ExitsAfter(Pass(order) + [RootPolled(false), Waited([])], outcome, rest);
  }

  /** One pass that goes on, in front of a run that waits only when idle. */
  lemma IdleStep(order: seq<TaskId>, rest: seq<Event>, tr: seq<Event>)
    requires WaitsWhenIdle(rest) && rest != [] && rest[0].RootPolled?
    requires tr == Pass(order) + [RootPolled(false), Waited([])] + rest
    ensures WaitsWhenIdle(tr)
  {
    PassThenWait(order, []);
    IdleAfter(Pass(order) + [RootPolled(false), Waited([])], rest);
  }

  /** The outer `loop` of `block_on` from its `round`-th pass on, allowed
      `fuel` more reactor waits. The root future is ready when `root` holds of
      the set of completed tasks; it is polled before and after each drain.
      The loop returns only through a Ready poll of the root, which is the
      last thing it does, and it waits on the reactor only when the drain
      has emptied the queue and the root poll right after it was Pending. */
  function Run(s: State, plan: Plan, root: set<TaskId> -> bool, fire: (nat, TaskId) -> bool,
               round: nat, fuel: nat): (r: RunResult)
    requires Balanced(s)
    ensures r.outcome == Ready ==> root(r.final.done)
    ensures |r.trace| > 0 && r.trace[0].RootPolled?
    ensures ExitsOnReady(r.outcome, r.trace)
    ensures WaitsWhenIdle(r.trace)
    ensures Balanced(r.final)
    decreases fuel
  {
    if root(s.done) then
      assert IdleAt([RootPolled(true)], 0);
      RunResult(Ready, s, [RootPolled(true)])
    else
      var drained := Drain(s, plan);
      var d := drained.0;
      var pass := Pass(drained.1);
      PassThenWait(drained.1, []);
      DrainShares(s, plan);
      if root(d.done) then
        assert IdleAt([RootPolled(true)], 0);
        ExitsAfter(pass, Ready, [RootPolled(true)]);
        IdleAfter(pass, [RootPolled(true)]);
        RunResult(Ready, d, pass + [RootPolled(true)])
      else if fuel == 0 then
        assert IdleAt([RootPolled(false)], 0);
        ExitsAfter(pass, OutOfFuel, [RootPolled(false)]);
        IdleAfter(pass, [RootPolled(false)]);
        RunResult(OutOfFuel, d, pass + [RootPolled(false)])
      else
        WaitShares(d, fire, round);
        var rest := Run(Wait(d, fire, round), plan, root, fire, round + 1, fuel - 1);
        var tr := pass + [RootPolled(false), Waited(d.queue)] + rest.trace;
        ExitsStep(drained.1, rest.outcome, rest.trace, tr);
        IdleStep(drained.1, rest.trace, tr);
        RunResult(rest.outcome, rest.final, tr)
  }

  /** The passes of the loop one at a time: the root is Ready at once. */
  lemma RunReadyAtOnce(s: State, plan: Plan, root: set<TaskId> -> bool, fire: (nat, TaskId) -> bool,
                       round: nat, fuel: nat)
    requires Balanced(s) && root(s.done)
    ensures var r := Run(s, plan, root, fire, round, fuel);
            r.outcome == Ready && r.final == s && r.trace == [RootPolled(true)]
  {
  }

  /** The loop stops after the drain: the root is Ready, or no wait is
      allowed. */
  lemma RunStopsAfterDrain(s: State, plan: Plan, root: set<TaskId> -> bool, fire: (nat, TaskId) -> bool,
                           round: nat, fuel: nat)
    requires Balanced(s) && !root(s.done) && (root(Drain(s, plan).0.done) || fuel == 0)
    ensures var r, d := Run(s, plan, root, fire, round, fuel), Drain(s, plan);
            && r.outcome == (if root(d.0.done) then Ready else OutOfFuel)
            && r.final == d.0 && r.trace == Pass(d.1) + [RootPolled(root(d.0.done))]
  {
  }

  /** The loop goes on: the root was Pending before and after the drain
      and a wait is allowed, so the reactor is waited on and the next pass
      starts from the woken queue. */
  lemma RunGoesOn(s: State, plan: Plan, root: set<TaskId> -> bool, fire: (nat, TaskId) -> bool,
                  round: nat, fuel: nat)
    requires Balanced(s) && !root(s.done) && !root(Drain(s, plan).0.done) && fuel > 0
    ensures var d := Drain(s, plan);
            var w := Wait(d.0, fire, round);
            && Balanced(d.0) && Balanced(w) && d.0.queue == []
            && var r, rest := Run(s, plan, root, fire, round, fuel),
                              Run(w, plan, root, fire, round + 1, fuel - 1);
               && r.outcome == rest.outcome && r.final == rest.final
               && r.trace == Pass(d.1) + [RootPolled(false), Waited(d.0.queue)] + rest.trace
  {
    DrainShares(s, plan);
    WaitShares(Drain(s, plan).0, fire, round);
  }

  /** `Run` read with the next round and fuel held in variables. */
  lemma RunShift(w: State, plan: Plan, root: set<TaskId> -> bool, fire: (nat, TaskId) -> bool,
                 round: nat, fuel: nat, round': nat, fuel': nat)
    requires Balanced(w) && round' == round + 1 && fuel == fuel' + 1
    ensures Run(w, plan, root, fire, round', fuel') == Run(w, plan, root, fire, round + 1, fuel - 1)
  {
  }

  /** The run `r0` is the events `done` followed by the run from `s` in
      round `round` with `fuel` waits left. */
  ghost predicate RunFrom(r0: RunResult, done: seq<Event>, s: State, plan: Plan, root: set<TaskId> -> bool,
                          fire: (nat, TaskId) -> bool, round: nat, fuel: nat)
    requires Balanced(s)
  {
    var r := Run(s, plan, root, fire, round, fuel);
    r0.outcome == r.outcome && r0.final == r.final && r0.trace == done + r.trace
  }

  /** One pass of the loop that goes on moves `RunFrom` to the state after
      the wait, with the pass's events `seg` added to `done`. */
  lemma RunFromStep(r0: RunResult, done: seq<Event>, seg: seq<Event>, s: State, w: State, plan: Plan,
                    root: set<TaskId> -> bool, fire: (nat, TaskId) -> bool, round: nat, fuel: nat,
                    done': seq<Event>, round': nat, fuel': nat)
    requires Balanced(s) && Balanced(w) && done' == done + seg
    requires RunFrom(r0, done, s, plan, root, fire, round, fuel)
    requires var r, rest := Run(s, plan, root, fire, round, fuel), Run(w, plan, root, fire, round', fuel');
             r.outcome == rest.outcome && r.final == rest.final && r.trace == seg + rest.trace
    ensures RunFrom(r0, done', w, plan, root, fire, round', fuel')
  {
    RunChain(r0, Run(s, plan, root, fire, round, fuel), Run(w, plan, root, fire, round', fuel'), done, seg);
  }

  /** Two unfoldings of the loop chain: what is left of the first run is
      a prefix `p` followed by the second. */
  lemma RunChain(r0: RunResult, r: RunResult, rest: RunResult, done: seq<Event>, p: seq<Event>)
    requires r0.outcome == r.outcome && r0.final == r.final && r0.trace == done + r.trace
    requires r.outcome == rest.outcome && r.final == rest.final && r.trace == p + rest.trace
    ensures r0.outcome == rest.outcome && r0.final == rest.final && r0.trace == (done + p) + rest.trace
  {
  }
}
