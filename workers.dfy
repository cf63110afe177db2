/** Package workers: the retry policy of processTask and the polling loop of Start. */
module Workers {
  import opened Outcomes
  import opened Models
  import opened Db
  import opened TaskQueue

  const MaxRetries := 3

  /** What the world does during one pass of the loop in Start: whether the stop channel
      is closed, which list's LPop reports a transport error, whether the task's work
      succeeds (rand.Intn(4) != 0 in the Go code), whether the database refuses
      processTask's statement, the status UPDATE or the INSERT of a re-enqueue
      (storeFault), and whether Redis refuses the re-enqueue's RPUSH (pushFault). */
  datatype Tick = Tick(stop: bool, popFault: Option<Tier>, succeeds: bool, storeFault: bool, pushFault: bool)

  /** processTask: returns the state after its writes and the task as it mutated it. */
  function AfterProcess(s: State, t: Task, succeeds: bool, storeFault: bool, pushFault: bool): (r: (State, Task))
    ensures r.0.workers == s.workers
    ensures r.1 == t.(retries := r.1.retries, status := r.1.status)
    ensures succeeds ==>
      && r.1.status == StatusCompleted && r.1.retries == t.retries && r.0.tiers == s.tiers
      && r.0.table == if storeFault then s.table else StatusSet(s.table, t.id, StatusCompleted)
    ensures !succeeds ==> r.1.retries == t.retries + 1
    ensures !succeeds && r.1.retries < MaxRetries ==>
      r.1.status == t.status && r.0 == AfterEnqueue(s, r.1, storeFault, pushFault).1
    ensures !succeeds && r.1.retries >= MaxRetries ==>
      && r.1.status == StatusFailed && r.0.tiers == s.tiers
      && r.0.table == if storeFault then s.table else StatusSet(s.table, t.id, StatusFailed)
    // re-enqueue goes through InsertTask, which leaves an existing row alone
    ensures !succeeds && r.1.retries < MaxRetries && t.id in s.table ==> r.0.table == s.table
  {
    if !succeeds then
      var retried := t.(retries := t.retries + 1);
      if retried.retries < MaxRetries then
        (AfterEnqueue(s, retried, storeFault, pushFault).1, retried)
      else
        (s.(table := if storeFault then s.table else StatusSet(s.table, t.id, StatusFailed)),
         retried.(status := StatusFailed))
    else
      (s.(table := if storeFault then s.table else StatusSet(s.table, t.id, StatusCompleted)),
       t.(status := StatusCompleted))
  }

  /** One pass of the loop body with the stop channel open: Dequeue; on any error,
      redis.Nil included, sleep and go round again; otherwise process the task. */
  function Turn(s: State, tick: Tick): (r: (State, Option<Task>))
    ensures r.0.workers == s.workers
    ensures Dequeued(s.tiers, tick.popFault).0.Err? ==> r == (s, None)
  {
    var popped := Dequeued(s.tiers, tick.popFault);
    if popped.0.Err? then (s, None)
    else
      var done := AfterProcess(s.(tiers := popped.1), popped.0.value, tick.succeeds, tick.storeFault, tick.pushFault);
      (done.0, Some(done.1))
  }

  /** The loop of Start over a window of ticks: it ends at the first tick whose stop
      channel is closed, or when the window ends. The second component lists the tasks
      processed, each as processTask left it. */
  function Run(s: State, ticks: seq<Tick>): (r: (State, seq<Task>))
    decreases |ticks|
    ensures r.0.workers == s.workers
    ensures |r.1| <= |ticks|
  {
    if ticks == [] || ticks[0].stop then (s, [])
    else
      var step := Turn(s, ticks[0]);
      var rest := Run(step.0, ticks[1..]);
      (rest.0, (if step.1.Some? then [step.1.value] else []) + rest.1)
  }

  /** Start: register, run the loop, deregister. */
  function Started(s: State, id: string, ticks: seq<Tick>): (r: State)
    ensures r.workers == s.workers - {id}
  {
    var ran := Run(s.(workers := s.workers[id := "active"]), ticks).0;
    ran.(workers := ran.workers - {id})
  }

  /** While the loop runs, the worker's id is registered as "active". */
  lemma RegisteredWhileRunning(s: State, id: string, ticks: seq<Tick>)
    ensures Run(s.(workers := s.workers[id := "active"]), ticks).0.workers[id] == "active"
  {
  }

  /** Once a tick with a closed stop channel is reached, the loop returns: nothing in
      the ticks from there on, Dequeue included, is ever consulted. */
  lemma {:induction false} StopEndsRun(s: State, ticks: seq<Tick>, k: nat)
    requires k < |ticks| && ticks[k].stop
    ensures Run(s, ticks) == Run(s, ticks[..k])
    decreases k
  {
    if k > 0 && !ticks[0].stop {
      var next := Turn(s, ticks[0]).0;
      StopEndsRun(next, ticks[1..], k - 1);
      assert ticks[1..][..k - 1] == ticks[..k][1..];
    }
  }

  /** With nothing queued every pass fails to dequeue and sleeps: the loop changes nothing. */
  lemma {:induction false} IdleWhileEmpty(s: State, ticks: seq<Tick>)
    requires s.tiers == NoTasks
    ensures Run(s, ticks) == (s, [])
    decreases |ticks|
  {
    if ticks != [] && !ticks[0].stop {
      assert Dequeued(s.tiers, ticks[0].popFault).0.Err?;
      IdleWhileEmpty(s, ticks[1..]);
    }
  }

  /** The queue invariant: every queued task sits on its priority's list, waits with
      status "pending" and 0 <= retries < MaxRetries, and has a row in the table,
      which holds each row under its own id. */
  ghost predicate Good(s: State) {
    && WellPlaced(s.tiers)
    && Keyed(s.table)
    && forall t :: t in Queued(s.tiers) ==>
         t.status == StatusPending && 0 <= t.retries < MaxRetries && t.id in s.table
  }

  /** What processTask leaves in a task it was handed from a Good queue. */
  ghost predicate Settled(t: Task) {
    0 <= t.retries <= MaxRetries && (t.status == StatusFailed <==> t.retries == MaxRetries)
  }

  lemma EnqueueKeepsGood(s: State, t: Task, storeFault: bool, pushFault: bool)
    requires Good(s)
    requires t.status == StatusPending && 0 <= t.retries < MaxRetries
    ensures Good(AfterEnqueue(s, t, storeFault, pushFault).1)
  {
    var s' := AfterEnqueue(s, t, storeFault, pushFault).1;
    if !storeFault {
      InsertKeepsKeyed(s.table, t);
      if !pushFault {
        PushKeepsWellPlaced(s.tiers, t);
        PushedMembers(s.tiers, t);
      }
    }
  }

  lemma TurnKeepsGood(s: State, tick: Tick)
    requires Good(s)
    ensures Good(Turn(s, tick).0)
    ensures Turn(s, tick).1.Some? ==> Settled(Turn(s, tick).1.value)
  {
    var popped := Dequeued(s.tiers, tick.popFault);
    DequeueKeepsWellPlaced(s.tiers, tick.popFault);
    if popped.0.Ok? {
      var t := popped.0.value;
      var s1 := s.(tiers := popped.1);
      assert Good(s1);
      var done := AfterProcess(s1, t, tick.succeeds, tick.storeFault, tick.pushFault);
      if !tick.succeeds && t.retries + 1 < MaxRetries {
        EnqueueKeepsGood(s1, done.1, tick.storeFault, tick.pushFault);
      } else if !tick.storeFault {
        var status := if tick.succeeds then StatusCompleted else StatusFailed;
        StatusSetKeepsKeyed(s1.table, t.id, status);
      }
    }
  }

  /** Starting from a Good state, the loop keeps it Good, and no task it processes ever
      carries more than MaxRetries retries; exactly those at MaxRetries end "failed". */
  lemma {:induction false} RunKeepsGood(s: State, ticks: seq<Tick>)
    requires Good(s)
    ensures Good(Run(s, ticks).0)
    ensures forall t :: t in Run(s, ticks).1 ==> Settled(t)
    decreases |ticks|
  {
    if ticks != [] && !ticks[0].stop {
      var step := Turn(s, ticks[0]);
      TurnKeepsGood(s, ticks[0]);
      RunKeepsGood(step.0, ticks[1..]);
    }
  }

  /** A pass that runs without fault and whose task fails. */
  const Failing := Tick(false, None, false, false, false)

  /** The tasks processTask leaves behind when every attempt of `t` fails: one per
      remaining retry, the last one "failed". */
  function Attempts(t: Task): seq<Task>
    requires t.retries < MaxRetries
    decreases MaxRetries - t.retries
  {
    var retried := t.(retries := t.retries + 1);
    if retried.retries >= MaxRetries then [retried.(status := StatusFailed)]
    else [retried] + Attempts(retried)
  }

  /** A task alone in the broker whose every attempt fails is processed once per
      remaining retry, is never dequeued again afterwards, ends "failed" in the table,
      and leaves the broker empty. */
  lemma {:induction false} ExhaustsRetries(s: State, t: Task, ticks: seq<Tick>)
    requires s.tiers == Pushed(NoTasks, t)
    requires 0 <= t.retries < MaxRetries && t.id in s.table
    requires forall i :: 0 <= i < |ticks| ==> ticks[i] == Failing
    requires |ticks| >= MaxRetries - t.retries
    ensures Run(s, ticks) == (s.(tiers := NoTasks, table := StatusSet(s.table, t.id, StatusFailed)), Attempts(t))
    decreases MaxRetries - t.retries
  {
    DequeueReturnsEnqueued(t);
    var retried := t.(retries := t.retries + 1);
    var step := Turn(s, ticks[0]);
    assert ticks[0] == Failing;
    if retried.retries < MaxRetries {
      InsertPresentIsNoOp(s.table, retried);
      assert step == (s.(tiers := Pushed(NoTasks, retried)), Some(retried));
      ExhaustsRetries(step.0, retried, ticks[1..]);
    } else {
      assert step == (s.(tiers := NoTasks, table := StatusSet(s.table, t.id, StatusFailed)), Some(retried.(status := StatusFailed)));
      IdleWhileEmpty(step.0, ticks[1..]);
      assert [retried.(status := StatusFailed)] + [] == [retried.(status := StatusFailed)];
    }
  }

  /** A task submitted with Retries = 0 that fails on every attempt is processed exactly
      MaxRetries = 3 times, ends with Retries = 3 and status "failed", and the table row
      says "failed" while its stored retries count is the one first inserted. */
  lemma FailsThreeTimes(s: State, t: Task, ticks: seq<Tick>)
    requires s.tiers == Pushed(NoTasks, t)
    requires t.retries == 0 && t.id in s.table
    requires forall i :: 0 <= i < |ticks| ==> ticks[i] == Failing
    requires |ticks| >= MaxRetries
    ensures var r := Run(s, ticks);
      && r.1 == [t.(retries := 1), t.(retries := 2), t.(retries := 3, status := StatusFailed)]
      && r.0.tiers == NoTasks
      && t.id in r.0.table
      && r.0.table[t.id] == s.table[t.id].(status := StatusFailed)
  {
    ExhaustsRetries(s, t, ticks);
    assert Attempts(t.(retries := 2)) == [t.(retries := 3, status := StatusFailed)];
    assert Attempts(t.(retries := 1)) == [t.(retries := 2), t.(retries := 3, status := StatusFailed)];
  }

  /** A failed re-enqueue (RPush refused) only logs: the task is on no list it was not
      on before and its row is unchanged, so it is neither queued nor marked "failed". */
  lemma RequeuePushFailureDropsTask(s: State, t: Task)
    requires t.id in s.table && 0 <= t.retries && t.retries + 1 < MaxRetries
    ensures AfterProcess(s, t, false, false, true) == (s, t.(retries := t.retries + 1))
  {
  }

  /** A re-enqueue whose INSERT is refused returns before the push and only logs: the
      task is dropped in the same way. */
  lemma RequeueStoreFailureDropsTask(s: State, t: Task, pushFault: bool)
    requires t.retries + 1 < MaxRetries
    ensures AfterProcess(s, t, false, true, pushFault) == (s, t.(retries := t.retries + 1))
  {
  }

  /** A worker and the broker it polls. The worker's *sql.DB is the queue's handle. */
  class Worker {
    const id: string
    const queue: Queue

    constructor (id: string, queue: Queue)
      ensures this.id == id && this.queue == queue
    {
      this.id := id;
      this.queue := queue;
    }

    method Register()
      modifies queue
      ensures queue.Snapshot() == old(queue.Snapshot()).(workers := old(queue.workers)[id := "active"])
    {
      queue.HSet(id, "active");
    }

    method Deregister()
      modifies queue
      ensures queue.Snapshot() == old(queue.Snapshot()).(workers := old(queue.workers) - {id})
    {
      queue.HDel(id);
    }

    /** processTask; `task` is the fresh copy Dequeue decoded, returned as mutated. */
    method ProcessTask(task: Task, succeeds: bool, storeFault: bool, pushFault: bool) returns (done: Task)
      modifies queue, queue.db
      ensures (queue.Snapshot(), done) == AfterProcess(old(queue.Snapshot()), task, succeeds, storeFault, pushFault)
    {
      done := task;
      if !succeeds {
        done := done.(retries := done.retries + 1);
        if done.retries < MaxRetries {
          var err := queue.Enqueue(done, storeFault, pushFault);
        } else {
          done := done.(status := StatusFailed);
          var err := queue.db.UpdateTaskStatus(done.id, StatusFailed, storeFault);
        }
      } else {
        done := done.(status := StatusCompleted);
        var err := queue.db.UpdateTaskStatus(done.id, StatusCompleted, storeFault);
      }
    }

    /** Start: the Go code loops until the stop channel is closed, so some tick closes it. */
    method Start(ticks: seq<Tick>)
      requires exists k :: 0 <= k < |ticks| && ticks[k].stop
      modifies queue, queue.db
      ensures queue.Snapshot() == Started(old(queue.Snapshot()), id, ticks)
    {
      Register();
      ghost var registered := queue.Snapshot();
      var i := 0;
      while !ticks[i].stop
        invariant 0 <= i < |ticks|
        invariant exists k :: i <= k < |ticks| && ticks[k].stop
        invariant Run(queue.Snapshot(), ticks[i..]).0 == Run(registered, ticks).0
        decreases |ticks| - i
      {
        var tick := ticks[i];
        ghost var before := queue.Snapshot();
        assert ticks[i..][1..] == ticks[i + 1..];
        var popped := queue.Dequeue(tick.popFault);
        if popped.Ok? {
          var done := ProcessTask(popped.value, tick.succeeds, tick.storeFault, tick.pushFault);
        }
        // on an error (redis.Nil included) the Go code sleeps a second and goes round again
        assert queue.Snapshot() == Turn(before, tick).0;
        i := i + 1;
      }
      Deregister();
    }
  }
}
