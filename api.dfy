/** Package api: the task-submission handler and the registry read. */
module Api {
  import opened Outcomes
  import opened Models
  import opened TaskQueue
  import opened Workers

  const StatusBadRequest := 400
  const StatusCreated := 201
  const StatusInternalServerError := 500
  const StatusOK := 200

  /** The fields CreateTask overwrites on an accepted task; `id` stands for the fresh
      UUID and `now` for time.Now(). */
  function Initialised(t: Task, id: string, now: int): (r: Task)
    ensures r.id == id && r.status == StatusPending && r.created == now && r.retries == 0
    ensures r.data == t.data
    ensures r.priority == if t.priority == 0 then 1 else t.priority
  {
    var priority := if t.priority == 0 then 1 else t.priority;
    Task(id, t.data, StatusPending, now, 0, priority)
  }

  /** Validation already demands priority 1..3, so the default priority never applies,
      and an accepted task keeps its priority and lands on that priority's list. */
  lemma DefaultPriorityUnreachable(t: Task, id: string, now: int)
    requires ValidTask(t)
    ensures Initialised(t, id, now) == t.(id := id, status := StatusPending, created := now, retries := 0)
    ensures Initialised(t, id, now).priority == t.priority
  {
  }

  /** Whatever the client put in id, status, created and retries does not matter. */
  lemma ClientFieldsIgnored(t: Task, u: Task, id: string, now: int)
    requires t.data == u.data && t.priority == u.priority
    ensures Initialised(t, id, now) == Initialised(u, id, now)
  {
  }

  /** An accepted submission keeps the queue invariant, whichever write fails. */
  lemma SubmissionKeepsGood(s: State, t: Task, id: string, now: int, storeFault: bool, pushFault: bool)
    requires Good(s)
    ensures Good(AfterEnqueue(s, Initialised(t, id, now), storeFault, pushFault).1)
  {
    EnqueueKeepsGood(s, Initialised(t, id, now), storeFault, pushFault);
  }

  class Server {
    const queue: Queue

    constructor (queue: Queue)
      ensures this.queue == queue
    {
      this.queue := queue;
    }

    /** POST /tasks. `body` is the decoded request body, None when decoding fails.
        The reply is the task written back on 201, None for an error reply. */
    method CreateTask(body: Option<Task>, newId: string, now: int, storeFault: bool, pushFault: bool)
      returns (code: int, reply: Option<Task>)
      modifies queue, queue.db
      ensures body.None? || !ValidTask(body.value) ==>
        code == StatusBadRequest && reply == None && queue.Snapshot() == old(queue.Snapshot())
      ensures body.Some? && ValidTask(body.value) ==>
        var task := Initialised(body.value, newId, now);
        var enqueued := AfterEnqueue(old(queue.Snapshot()), task, storeFault, pushFault);
        && queue.Snapshot() == enqueued.1
        && (enqueued.0.Some? ==> code == StatusInternalServerError && reply == None)
        && (enqueued.0.None? ==> code == StatusCreated && reply == Some(task))
    {
      if body.None? {
        return StatusBadRequest, None;
      }
      var task := body.value;
      if TaskErrors(task) != [] {
        return StatusBadRequest, None;
      }
      task := task.(id := newId);
      task := task.(status := StatusPending);
      task := task.(created := now);
      task := task.(retries := 0);
      if task.priority == 0 {
        task := task.(priority := 1);
      }
      var err := queue.Enqueue(task, storeFault, pushFault);
      if err.Some? {
        return StatusInternalServerError, None;
      }
      return StatusCreated, Some(task);
    }

    /** GET /workers: the whole registry hash, or 500 when HGetAll fails. */
    method GetActiveWorkers(fault: bool) returns (code: int, reply: Option<map<string, string>>)
      ensures fault ==> code == StatusInternalServerError && reply == None
      ensures !fault ==> code == StatusOK && reply == Some(queue.workers)
    {
      var workers := queue.HGetAll(fault);
      if workers.Err? {
        return StatusInternalServerError, None;
      }
      return StatusOK, Some(workers.value);
    }
  }
}
