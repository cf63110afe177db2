# Task queue system: priority broker and retry engine

This project models the core of a distributed task queue written in Go. Clients submit
tasks over HTTP. A task is validated, given a fresh id, and recorded in a PostgreSQL
`tasks` table. It is then pushed onto one of three Redis lists (`high_task_queue`,
`medium_task_queue`, `low_task_queue`), chosen by its priority. Workers poll the lists in
strict priority order. A worker processes each task, and a failed task is re-enqueued
until its retry count reaches `MaxRetries = 3`, at which point it is marked `"failed"`.
Workers announce themselves in a Redis hash `workers`.

Modules, one per Go package, plus `Outcomes` for the shared result types:

- `Outcomes`: `Option`, `Result` and the error kinds (store, broker, `redis.Nil`).
- `Models`: `Task` and `Credentials`, and the validity rules their `validate` tags define.
- `Db`: the `tasks` table as `map<string, Row>`, a `Database` class and its two statements.
- `TaskQueue`:
  - the `Queue` class, with the three lists as `seq<Task>` fields and the `workers` hash as a map;
  - `Enqueue` and `Dequeue`, each proved against a function on a snapshot of the state;
  - lemmas for strict priority, FIFO within a tier over any run of pushes and pops, and round trips.
- `Workers`:
  - the `Worker` class: `Register`, `Deregister`, `ProcessTask` and the `Start` loop;
  - `Start` is proved against a function `Run` over a sequence of ticks;
  - lemmas for the retry bound, the queue invariant and shutdown.
- `Api`: the `Server` class with `CreateTask` and `GetActiveWorkers`.

Modelling choices:

- Things the program cannot control are method parameters: the random outcome of a task, a
  refused SQL statement, a failed Redis command, the stop channel, the fresh UUID and the clock.
- JSON encoding and decoding are the identity. `time.Time` is an `int`.
- Re-enqueue goes through `InsertTask`, whose `ON CONFLICT DO NOTHING` keeps the first row.
  So the stored `retries` of a retried task never change. A task that exhausts its retries
  is stored as `"failed"` with its original retries count. `Workers.FailsThreeTimes` states both.
- The program writes only `"pending"`, `"completed"` and `"failed"`. The code never writes an
  `"in_flight"` status, and the model has none.
- A re-enqueue whose `InsertTask` or `RPush` fails is only logged, so the task is dropped: it is on no list
  and its row stays `"pending"` (`Workers.RequeuePushFailureDropsTask`, `Workers.RequeueStoreFailureDropsTask`). The model follows the code.

## Model

| member | source | states |
|---|---|---|
| TaskQueue.TierOf | DTQSys/task_queue_system/queue/queue.go:39-47 | priority 3 selects the high list, 2 the medium list, and every other integer (1, 0, negatives, above 3) the low list; each direction stated as an if-and-only-if |
| TaskQueue.Rank | DTQSys/task_queue_system/queue/queue.go:54 | each tier has one position in the high, medium, low scan order |
| TaskQueue.Pushed | DTQSys/task_queue_system/queue/queue.go:39-49 | RPush appends the task at the tail of the list its priority selects and leaves the other two lists unchanged |
| TaskQueue.Scan | DTQSys/task_queue_system/queue/queue.go:54-67 | from any position of the scan: a transport error on the first non-empty or faulty list aborts with an error and no change; otherwise the head of the first non-empty list is returned and only it is removed; when every remaining list is empty, the result is redis.Nil with no change |
| TaskQueue.DequeueTakesAHead | DTQSys/task_queue_system/queue/queue.go:52-67 | a successful Dequeue removed exactly the head of one non-empty list and returned it; a failed Dequeue changed nothing |
| TaskQueue.DequeueInQueuedOrder | DTQSys/task_queue_system/queue/queue.go:54-67 | strict priority: without transport errors Dequeue returns the first task of high ++ medium ++ low and leaves exactly the rest; on three empty lists it returns redis.Nil and changes nothing |
| TaskQueue.DequeueAbortsOnTransportError | DTQSys/task_queue_system/queue/queue.go:55-59 | an LPop transport error reached with all higher lists empty is returned, and no list, in particular no lower one, is popped |
| TaskQueue.PushKeepsWellPlaced | DTQSys/task_queue_system/queue/queue.go:39-49 | after a push, every queued task still sits on the list its priority selects |
| TaskQueue.PushedMembers | DTQSys/task_queue_system/queue/queue.go:49 | a push adds exactly the pushed task to what is queued |
| TaskQueue.DequeueKeepsWellPlaced | DTQSys/task_queue_system/queue/queue.go:52-67 | a Dequeue keeps every task on its priority's list, returns only a queued task and adds nothing |
| TaskQueue.ReplayConserves | DTQSys/task_queue_system/queue/queue.go:49-55 | over any run of pushes and pops, each list's delivered tasks followed by what remains on it equal what it held followed by what was pushed onto it, in order |
| TaskQueue.FifoWithinTier | DTQSys/task_queue_system/queue/queue.go:49-55 | after enqueueing A then B at the same tier, whatever follows, that tier delivers a prefix of its earlier tasks, A, B, its later pushes, so A is delivered before B |
| TaskQueue.HighBeforeLow | DTQSys/task_queue_system/queue/queue.go:39-67 | T1 at priority 3 and T2 at priority 1 submitted to an empty broker are dequeued T1 first, then T2 |
| TaskQueue.DequeueReturnsEnqueued | DTQSys/task_queue_system/queue/queue.go:34-65 | round trip on an empty broker: the task Dequeue returns is exactly the task that was pushed; ReplayConserves carries the general case |
| TaskQueue.AfterEnqueue | DTQSys/task_queue_system/queue/queue.go:27-50 | a refused insert returns the error and changes nothing; otherwise the row is inserted, then a refused push returns the error with the lists unchanged, and a successful one appends to the task's list |
| TaskQueue.EnqueueTouchesOneTier | DTQSys/task_queue_system/queue/queue.go:49 | a successful Enqueue appends the task to exactly one list and leaves the other two unchanged |
| TaskQueue.Queue.Enqueue | DTQSys/task_queue_system/queue/queue.go:27-50 | the method's new lists, hash and table and its error are those of AfterEnqueue on the old state |
| TaskQueue.Queue.Dequeue | DTQSys/task_queue_system/queue/queue.go:52-68 | the loop over the three list names returns the result of Scan and leaves the lists as Scan does, and the hash untouched |
| TaskQueue.Queue.constructor | DTQSys/task_queue_system/queue/queue.go:20-25 | NewQueue connects to a server whose lists and workers hash keep the contents they already hold, and keeps the database handle |
| TaskQueue.Queue.RPush | DTQSys/task_queue_system/queue/queue.go:49 | RPush appends to the named list only, or fails and changes nothing |
| TaskQueue.Queue.LPop | DTQSys/task_queue_system/queue/queue.go:55-59 | LPop removes and returns the head of the named list, reports redis.Nil on an empty list, or fails and changes nothing |
| TaskQueue.Queue.HSet | DTQSys/task_queue_system/workers/worker.go:54 | HSet maps one key of the hash and touches nothing else |
| TaskQueue.Queue.HDel | DTQSys/task_queue_system/workers/worker.go:61 | HDel removes one key of the hash and touches nothing else |
| TaskQueue.Queue.HGetAll | DTQSys/task_queue_system/api/api.go:190 | HGetAll returns the whole hash, or an error |
| Db.Inserted | DTQSys/task_queue_system/db/db.go:29-38 | an absent id gains one row holding the task's six fields; every existing row, including one with the same id, is kept as it was |
| Db.StatusSet | DTQSys/task_queue_system/db/db.go:40-45 | only the status of the row with the given id changes; other fields, other rows and the set of ids are unchanged; an absent id leaves the table unchanged |
| Db.InsertIdempotent | DTQSys/task_queue_system/db/db.go:33 | inserting the same task twice gives the same table as inserting it once |
| Db.InsertPresentIsNoOp | DTQSys/task_queue_system/db/db.go:33 | an insert whose task_id is present leaves the table unchanged |
| Db.InsertKeepsKeyed | DTQSys/task_queue_system/db/db.go:33 | inserts keep every row under its own task_id, so one row per id |
| Db.StatusSetKeepsKeyed | DTQSys/task_queue_system/db/db.go:42 | status updates keep every row under its own task_id |
| Db.Database.constructor | DTQSys/task_queue_system/db/db.go:22-26 | a handle on the database sees the `tasks` table the server already holds |
| Db.Database.InsertTask | DTQSys/task_queue_system/db/db.go:29-38 | the new table is Inserted of the old one, or unchanged with an error when the statement fails |
| Db.Database.UpdateTaskStatus | DTQSys/task_queue_system/db/db.go:40-45 | the new table is StatusSet of the old one, or unchanged with an error when the statement fails |
| Models.TaskErrors | DTQSys/task_queue_system/models/task.go:5-12 | a task has no validation errors iff data is non-empty and priority is in 1..3; data reports `required` iff empty; priority reports `required` iff 0, `min` iff negative, `max` iff above 3 |
| Models.ValidTaskIgnoresServerFields | DTQSys/task_queue_system/models/task.go:6-10 | id, status, created and retries do not affect validity |
| Models.CredentialErrors | DTQSys/task_queue_system/models/credentials.go:3-6 | credentials are valid iff the username has 3..30 characters, all ASCII letters or digits, and the password has at least 6; each tag is reported iff its rule is broken |
| Models.PasswordUnbounded | DTQSys/task_queue_system/models/credentials.go:5 | lengthening a valid password by any characters keeps the credentials valid: no maximum and no character class |
| Workers.AfterProcess | DTQSys/task_queue_system/workers/worker.go:86-123 | a failure raises retries by one; below 3 it re-enqueues the same task, priority and status unchanged, writing no status and leaving an existing row as it was; at 3 it sets and writes "failed" and does not re-enqueue; a success sets and writes "completed" and does not re-enqueue |
| Workers.Turn | DTQSys/task_queue_system/workers/worker.go:74-81 | a failed Dequeue skips the pass with nothing processed and nothing changed; the registry is never touched |
| Workers.Run | DTQSys/task_queue_system/workers/worker.go:69-83 | the loop never touches the registry and processes no more tasks than there are passes |
| Workers.Started | DTQSys/task_queue_system/workers/worker.go:65-67 | after Start returns, the registry is what it was before, minus the worker's id |
| Workers.RegisteredWhileRunning | DTQSys/task_queue_system/workers/worker.go:51-66 | while the loop runs the worker's id maps to "active" |
| Workers.StopEndsRun | DTQSys/task_queue_system/workers/worker.go:69-73 | once the stop signal is observed the loop returns; no later pass, and so no later Dequeue, affects the outcome |
| Workers.IdleWhileEmpty | DTQSys/task_queue_system/workers/worker.go:75-79 | with nothing queued, every pass fails to dequeue and the loop changes nothing |
| Workers.EnqueueKeepsGood | DTQSys/task_queue_system/queue/queue.go:27-50 | enqueueing a pending task with retries below 3 keeps the invariant: tasks on their priority's list, pending, retries in 0..2, with a row |
| Workers.TurnKeepsGood | DTQSys/task_queue_system/workers/worker.go:74-123 | one pass keeps that invariant, and the task it processes has at most 3 retries and is "failed" exactly when it has 3 |
| Workers.RunKeepsGood | DTQSys/task_queue_system/workers/worker.go:39-123 | the whole loop keeps that invariant, and no processed task ever exceeds MaxRetries |
| Workers.ExhaustsRetries | DTQSys/task_queue_system/workers/worker.go:94-111 | a lone task that always fails is processed once per remaining retry, the last time marked "failed"; the lists end empty and its row says "failed" |
| Workers.FailsThreeTimes | DTQSys/task_queue_system/workers/worker.go:39-111 | a task with retries 0 that always fails is processed exactly 3 times, with retries 1, 2, 3, ends "failed" with retries 3, and its row keeps its original fields except the status "failed" |
| Workers.RequeuePushFailureDropsTask | DTQSys/task_queue_system/workers/worker.go:101-107 | a re-enqueue whose push fails leaves the lists and the row as they were after the pop |
| Workers.RequeueStoreFailureDropsTask | DTQSys/task_queue_system/workers/worker.go:101-107 | a re-enqueue whose InsertTask is refused leaves the lists and the table as they were after the pop |
| Workers.Worker.constructor | DTQSys/task_queue_system/workers/worker.go:47-49 | NewWorker records its id and the queue it polls |
| Workers.Worker.Register | DTQSys/task_queue_system/workers/worker.go:51-56 | maps the worker's id to "active"; no other key, list or row changes |
| Workers.Worker.Deregister | DTQSys/task_queue_system/workers/worker.go:58-63 | removes exactly the worker's id; no other key, list or row changes |
| Workers.Worker.ProcessTask | DTQSys/task_queue_system/workers/worker.go:86-123 | the new state and the mutated task are those of AfterProcess |
| Workers.Worker.Start | DTQSys/task_queue_system/workers/worker.go:65-84 | the state after the loop, registration and deregistration included, is that of Started |
| Api.Initialised | DTQSys/task_queue_system/api/api.go:165-173 | an accepted task gets the fresh id, status "pending", the current time and retries 0, keeps its data, and priority 0 becomes 1 while any other priority is kept |
| Api.DefaultPriorityUnreachable | DTQSys/task_queue_system/api/api.go:159-173 | for a task that passed validation the default-priority branch never applies: the initialised task keeps the client's priority |
| Api.ClientFieldsIgnored | DTQSys/task_queue_system/api/api.go:165-168 | whatever id, status, created and retries the client sent, the initialised task is the same |
| Api.SubmissionKeepsGood | DTQSys/task_queue_system/api/api.go:165-178 | an accepted submission keeps the queue invariant, whichever write fails |
| Api.Server.constructor | DTQSys/task_queue_system/api/api.go:51-53 | NewServer records the queue it submits to; its *sql.DB serves only authentication and GetTasks, which are not modelled |
| Api.Server.CreateTask | DTQSys/task_queue_system/api/api.go:149-186 | a body that fails decoding or validation gets 400 and changes nothing; otherwise the initialised task is enqueued, a failed Enqueue gets 500 and no task, a successful one gets 201 and exactly the task enqueued |
| Api.Server.GetActiveWorkers | DTQSys/task_queue_system/api/api.go:188-197 | returns 200 and the whole workers hash, or 500 when HGetAll fails |

## Left out

- Concurrency in `main.go`: the goroutines, the `sync.WaitGroup`, signal handling and TLS start-up. One worker runs sequentially, so "delivered to exactly one worker" is only the fact that a pop removes the element.
- Authentication (`auth/auth.go`: bcrypt, JWT, user lookups) and the handlers built on it: `RegisterUser`, `Login`, `RefreshToken` and the auth middleware. These wrap cryptographic libraries outside the model.
- The rate limiter (`middleware/rate_limit.go`). This is a foreign token bucket plus a sleeping eviction goroutine.
- Routing, CORS, security headers, Prometheus metrics, logging, and the `GetTasks` SQL row scan. These are HTTP and driver plumbing.
- `db.OpenDB`: connection set-up from environment variables.
- A Redis or SQL command that reports an error is taken not to have run. Lost replies are not modelled: an LPOP that Redis executed but whose reply was lost (the popped task is gone while Dequeue reports an error), or a push or insert that was applied although it reported an error. `DequeueTakesAHead`, `ReplayConserves` and the other no-change-on-error statements hold under this assumption.
- JSON marshalling and unmarshalling are the identity. Their errors are not modelled.
- `time.Time` is an `int`, and `time.Sleep` does nothing.
- `rand.Intn(4)` is replaced by the injected `succeeds` flag of each tick.
- `Api.Initialised`: the new id is a parameter, so the uniqueness of `uuid.New()` is not modelled.
- The worker's own `*sql.DB` and the queue's are one `Database` object, as the program wires them at start-up. The Go code ignores errors from `HSet`, `HDel` and `UpdateTaskStatus` in the worker, and the model ignores them too: `HSet` and `HDel` always succeed, and a refused status update leaves the table unchanged.
- Workers.Worker.Start: the Go loop may run forever. The model takes a finite sequence of ticks and requires that one of them closes the stop channel.
- Workers.Run: passes after the last tick are not modelled. A window of ticks with no stop tick ends the loop there.
