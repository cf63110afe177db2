/** The durable `tasks` table of package db, as a map from task_id to row. */
module Db {
  import opened Outcomes
  import opened Models

  /** A row of `tasks`: (task_id, data, status, created, retries, priority). */
  datatype Row = Row(taskId: string, data: string, status: string, created: int, retries: int, priority: int)

  /** task_id is the conflict target of the insert, so the table holds at most one row per id. */
  type Table = map<string, Row>

  function RowOf(t: Task): Row {
    Row(t.id, t.data, t.status, t.created, t.retries, t.priority)
  }

  /** Every row is stored under its own task_id. */
  ghost predicate Keyed(table: Table) {
    forall id :: id in table ==> table[id].taskId == id
  }

  /** INSERT ... ON CONFLICT (task_id) DO NOTHING. */
  function Inserted(table: Table, t: Task): (r: Table)
    ensures r.Keys == table.Keys + {t.id}
    ensures forall id :: id in table ==> r[id] == table[id]
    ensures t.id !in table ==> r[t.id] == RowOf(t)
  {
    if t.id in table then table else table[t.id := RowOf(t)]
  }

  /** UPDATE tasks SET status = $1 WHERE task_id = $2. */
  function StatusSet(table: Table, id: string, status: string): (r: Table)
    ensures r.Keys == table.Keys
    ensures forall k :: k in table && k != id ==> r[k] == table[k]
    ensures id in table ==> r[id] == table[id].(status := status)
    ensures id !in table ==> r == table
  {
    if id in table then table[id := table[id].(status := status)] else table
  }

  /** Inserting the same task twice leaves the table as inserting it once. */
  lemma InsertIdempotent(table: Table, t: Task)
    ensures Inserted(Inserted(table, t), t) == Inserted(table, t)
  {
  }

  /** An insert whose id is already present is a no-op, whatever the other fields say. */
  lemma InsertPresentIsNoOp(table: Table, t: Task)
    requires t.id in table
    ensures Inserted(table, t) == table
  {
  }

  lemma InsertKeepsKeyed(table: Table, t: Task)
    requires Keyed(table)
    ensures Keyed(Inserted(table, t))
  {
  }

  lemma StatusSetKeepsKeyed(table: Table, id: string, status: string)
    requires Keyed(table)
    ensures Keyed(StatusSet(table, id, status))
  {
  }

  /** The table reached through the *sql.DB handle. `fault` says that the driver
      reports an error for the statement; the model takes such a statement not to
      have run, so it changes nothing. */
  class Database {
    var tasks: Table

    /** A handle on a server whose `tasks` table already holds `existing`. */
    constructor (existing: Table)
      ensures tasks == existing
    {
      tasks := existing;
    }

    method InsertTask(task: Task, fault: bool) returns (err: Option<Error>)
      modifies this
      ensures err == if fault then Some(StoreError) else None
      ensures tasks == if fault then old(tasks) else Inserted(old(tasks), task)
    {
      if fault {
        return Some(StoreError);
      }
      if task.id !in tasks {
        tasks := tasks[task.id := RowOf(task)];
      }
      return None;
    }

    method UpdateTaskStatus(taskId: string, status: string, fault: bool) returns (err: Option<Error>)
      modifies this
      ensures err == if fault then Some(StoreError) else None
      ensures tasks == if fault then old(tasks) else StatusSet(old(tasks), taskId, status)
    {
      if fault {
        return Some(StoreError);
      }
      if taskId in tasks {
        tasks := tasks[taskId := tasks[taskId].(status := status)];
      }
      return None;
    }
  }
}
