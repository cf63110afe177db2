/** Package queue: three Redis lists, one per priority tier, fed by Enqueue and drained
    by Dequeue in strict priority order. */
module TaskQueue {
  import opened Outcomes
  import opened Models
  import opened Db

  /** high_task_queue, medium_task_queue, low_task_queue. */
  datatype Tier = High | Medium | Low

  /** The order in which Dequeue pops the lists. */
  const ScanOrder: seq<Tier> := [High, Medium, Low]

  function Rank(tier: Tier): (k: nat)
    ensures k < |ScanOrder| && ScanOrder[k] == tier
  {
    match tier
    case High => 0
    case Medium => 1
    case Low => 2
  }

  /** The switch on task.Priority in Enqueue. */
  function TierOf(priority: int): (tier: Tier)
    ensures tier == High <==> priority == 3
    ensures tier == Medium <==> priority == 2
    ensures tier == Low <==> priority != 2 && priority != 3
  {
    if priority == 3 then High else if priority == 2 then Medium else Low
  }

  /** The contents of the three lists, head first. */
  datatype Tiers = Tiers(high: seq<Task>, medium: seq<Task>, low: seq<Task>) {

    function Get(tier: Tier): seq<Task> {
      match tier
      case High => high
      case Medium => medium
      case Low => low
    }

    function Set(tier: Tier, s: seq<Task>): (r: Tiers)
      ensures r.Get(tier) == s
      ensures forall other :: other != tier ==> r.Get(other) == Get(other)
    {
      match tier
      case High => this.(high := s)
      case Medium => this.(medium := s)
      case Low => this.(low := s)
    }
  }

  const NoTasks := Tiers([], [], [])

  /** Every queued task, in the order an undisturbed run of Dequeue would return them. */
  function Queued(q: Tiers): seq<Task> {
    q.high + q.medium + q.low
  }

  /** Every queued task sits on the list its priority selects. */
  ghost predicate WellPlaced(q: Tiers) {
    forall tier, x :: x in q.Get(tier) ==> TierOf(x.priority) == tier
  }

  /** RPush onto the list selected by the task's priority. */
  function Pushed(q: Tiers, t: Task): (r: Tiers)
    ensures r.Get(TierOf(t.priority)) == q.Get(TierOf(t.priority)) + [t]
    ensures forall tier :: tier != TierOf(t.priority) ==> r.Get(tier) == q.Get(tier)
  {
    var tier := TierOf(t.priority);
    q.Set(tier, q.Get(tier) + [t])
  }

  /** The lists ScanOrder[from..to] are empty and their pops report no transport error. */
  ghost predicate Clear(q: Tiers, fault: Option<Tier>, from: nat, to: nat) {
    forall k :: from <= k < to && k < |ScanOrder| ==> q.Get(ScanOrder[k]) == [] && fault != Some(ScanOrder[k])
  }

  /** The loop of Dequeue from position k of ScanOrder. `fault` names the list whose
      LPop reports a transport error, if any. A "no such element" reply moves on to the
      next list, a transport error aborts the scan, and an element is returned at once. */
  function Scan(q: Tiers, fault: Option<Tier>, k: nat): (r: (Result<Task>, Tiers))
    requires k <= |ScanOrder|
    decreases |ScanOrder| - k
    ensures forall tier :: k <= Rank(tier) && Clear(q, fault, k, Rank(tier)) && fault == Some(tier) ==>
      r == (Err(BrokerError), q)
    ensures forall tier :: k <= Rank(tier) && Clear(q, fault, k, Rank(tier)) && fault != Some(tier) && q.Get(tier) != [] ==>
      r == (Ok(q.Get(tier)[0]), q.Set(tier, q.Get(tier)[1..]))
    ensures Clear(q, fault, k, |ScanOrder|) ==> r == (Err(NotFound), q)
    ensures r.0.Err? ==> r.1 == q
  {
    if k == |ScanOrder| then (Err(NotFound), q)
    else
      var tier := ScanOrder[k];
      if fault == Some(tier) then (Err(BrokerError), q)
      else if q.Get(tier) == [] then Scan(q, fault, k + 1)
      else (Ok(q.Get(tier)[0]), q.Set(tier, q.Get(tier)[1..]))
  }

  function Dequeued(q: Tiers, fault: Option<Tier>): (Result<Task>, Tiers) {
    Scan(q, fault, 0)
  }

  /** A Dequeue that returns a task took the head of one list and changed nothing else;
      one that fails changed nothing. */
  lemma DequeueTakesAHead(q: Tiers, fault: Option<Tier>) returns (tier: Tier)
    ensures Dequeued(q, fault).0.Err? ==> Dequeued(q, fault).1 == q
    ensures Dequeued(q, fault).0.Ok? ==>
      q.Get(tier) != [] && Dequeued(q, fault) == (Ok(q.Get(tier)[0]), q.Set(tier, q.Get(tier)[1..]))
  {
    if fault == Some(High) || q.high != [] {
      tier := High;
    } else if fault == Some(Medium) || q.medium != [] {
      tier := Medium;
      assert Clear(q, fault, 0, Rank(tier));
    } else {
      tier := Low;
      assert Clear(q, fault, 0, Rank(tier));
    }
  }

  /** Strict priority: with no transport error, Dequeue returns the first task of
      high ++ medium ++ low and removes exactly that task; on three empty lists it
      reports redis.Nil and changes nothing. */
  lemma DequeueInQueuedOrder(q: Tiers)
    ensures Queued(q) == [] ==> Dequeued(q, None) == (Err(NotFound), q)
    ensures Queued(q) != [] ==>
      Dequeued(q, None).0 == Ok(Queued(q)[0]) && Queued(Dequeued(q, None).1) == Queued(q)[1..]
  {
    if q.high != [] {
      assert Queued(q)[0] == q.high[0];
      assert Queued(q)[1..] == q.high[1..] + q.medium + q.low;
    } else if q.medium != [] {
      assert Clear(q, None, 0, Rank(Medium));
      assert Queued(q) == q.medium + q.low;
    } else if q.low != [] {
      assert Clear(q, None, 0, Rank(Low));
      assert Queued(q) == q.low;
    } else {
      assert Clear(q, None, 0, |ScanOrder|);
    }
  }

  /** A transport error on one list's pop, reached with every earlier list empty, aborts
      the scan: the error is returned and no list, in particular no lower one, is popped. */
  lemma DequeueAbortsOnTransportError(q: Tiers, tier: Tier)
    requires forall above :: Rank(above) < Rank(tier) ==> q.Get(above) == []
    ensures Dequeued(q, Some(tier)) == (Err(BrokerError), q)
  {
    assert Clear(q, Some(tier), 0, Rank(tier)) by {
      forall k | 0 <= k < Rank(tier)
        ensures q.Get(ScanOrder[k]) == [] && Some(tier) != Some(ScanOrder[k])
      {
        assert Rank(ScanOrder[k]) == k;
      }
    }
  }

  lemma PushKeepsWellPlaced(q: Tiers, t: Task)
    requires WellPlaced(q)
    ensures WellPlaced(Pushed(q, t))
  {
  }

  /** A push adds exactly the pushed task to what is queued. */
  lemma PushedMembers(q: Tiers, t: Task)
    ensures forall x :: x in Queued(Pushed(q, t)) <==> x in Queued(q) || x == t
  {
    var r := Pushed(q, t);
    forall x
      ensures x in Queued(r) <==> x in Queued(q) || x == t
    {
      assert x in Queued(r) <==> x in r.Get(High) || x in r.Get(Medium) || x in r.Get(Low);
      assert x in Queued(q) <==> x in q.Get(High) || x in q.Get(Medium) || x in q.Get(Low);
    }
  }

  lemma DequeueKeepsWellPlaced(q: Tiers, fault: Option<Tier>)
    requires WellPlaced(q)
    ensures WellPlaced(Dequeued(q, fault).1)
    ensures Dequeued(q, fault).0.Ok? ==> Dequeued(q, fault).0.value in Queued(q)
    ensures forall x :: x in Queued(Dequeued(q, fault).1) ==> x in Queued(q)
  {
    var tier := DequeueTakesAHead(q, fault);
    var r := Dequeued(q, fault);
    if r.0.Ok? {
      var s := q.Get(tier);
      forall other, x | x in r.1.Get(other)
        ensures x in q.Get(other)
      {
        if other == tier {
          assert x in s[1..];
        }
      }
      forall x | x in Queued(r.1)
        ensures x in Queued(q)
      {
        assert x in r.1.Get(High) || x in r.1.Get(Medium) || x in r.1.Get(Low);
      }
      assert r.0.value in q.Get(tier);
    }
  }

  /** One broker command, as the model of a run of producers and consumers sees it. */
  datatype Op = Push(task: Task) | Pop(fault: Option<Tier>)

  function Apply(q: Tiers, op: Op): (Tiers, seq<Task>) {
    match op
    case Push(t) => (Pushed(q, t), [])
    case Pop(f) =>
      var popped := Dequeued(q, f);
      (popped.1, if popped.0.Ok? then [popped.0.value] else [])
  }

  /** The lists after a run of commands, and the tasks delivered, in delivery order. */
  function Replay(q: Tiers, ops: seq<Op>): (Tiers, seq<Task>)
    decreases |ops|
  {
    if ops == [] then (q, [])
    else
      var step := Apply(q, ops[0]);
      var tail := Replay(step.0, ops[1..]);
      (tail.0, step.1 + tail.1)
  }

  /** The tasks pushed by a run of commands, in push order. */
  function PushedTasks(ops: seq<Op>): seq<Task>
    decreases |ops|
  {
    if ops == [] then []
    else (if ops[0].Push? then [ops[0].task] else []) + PushedTasks(ops[1..])
  }

  /** The subsequence of the tasks whose priority selects `tier`. */
  function Only(s: seq<Task>, tier: Tier): seq<Task>
    decreases |s|
  {
    if s == [] then []
    else (if TierOf(s[0].priority) == tier then [s[0]] else []) + Only(s[1..], tier)
  }

  lemma {:induction false} OnlyConcat(a: seq<Task>, b: seq<Task>, tier: Tier)
    ensures Only(a + b, tier) == Only(a, tier) + Only(b, tier)
    decreases |a|
  {
    if a == [] {
      assert a + b == b;
    } else {
      assert (a + b)[0] == a[0];
      assert (a + b)[1..] == a[1..] + b;
      OnlyConcat(a[1..], b, tier);
    }
  }

  lemma OnlySingle(x: Task, tier: Tier)
    ensures Only([x], tier) == if TierOf(x.priority) == tier then [x] else []
  {
    assert [x][1..] == [];
  }

  lemma PopConserves(q: Tiers, f: Option<Tier>, tier: Tier)
    requires WellPlaced(q)
    ensures WellPlaced(Apply(q, Pop(f)).0)
    ensures Only(Apply(q, Pop(f)).1, tier) + Apply(q, Pop(f)).0.Get(tier) == q.Get(tier)
  {
    DequeueKeepsWellPlaced(q, f);
    var served := DequeueTakesAHead(q, f);
    var popped := Dequeued(q, f);
    if popped.0.Ok? {
      var v := popped.0.value;
      assert v in q.Get(served);
      OnlySingle(v, tier);
      if served == tier {
        assert [v] + q.Get(tier)[1..] == q.Get(tier);
      }
    }
  }

  lemma ApplyConserves(q: Tiers, op: Op, tier: Tier)
    requires WellPlaced(q)
    ensures WellPlaced(Apply(q, op).0)
    ensures Only(Apply(q, op).1, tier) + Apply(q, op).0.Get(tier) == q.Get(tier) + Only(PushedTasks([op]), tier)
  {
    assert PushedTasks([op]) == (if op.Push? then [op.task] else []) + PushedTasks([]) by {
      assert [op][1..] == [];
    }
    match op
    case Push(t) =>
      PushKeepsWellPlaced(q, t);
      OnlySingle(t, tier);
    case Pop(f) =>
      PopConserves(q, f, tier);
  }

  lemma {:induction false} ReplayKeepsWellPlaced(q: Tiers, ops: seq<Op>)
    requires WellPlaced(q)
    ensures WellPlaced(Replay(q, ops).0)
    decreases |ops|
  {
    if ops != [] {
      ApplyConserves(q, ops[0], High);
      ReplayKeepsWellPlaced(Apply(q, ops[0]).0, ops[1..]);
    }
  }

  lemma ReplayStep(q: Tiers, ops: seq<Op>)
    requires ops != []
    ensures Replay(q, ops) ==
      (Replay(Apply(q, ops[0]).0, ops[1..]).0, Apply(q, ops[0]).1 + Replay(Apply(q, ops[0]).0, ops[1..]).1)
  {
  }

  lemma PushedTasksSplit(ops: seq<Op>)
    requires ops != []
    ensures PushedTasks(ops) == PushedTasks([ops[0]]) + PushedTasks(ops[1..])
  {
    assert [ops[0]][1..] == [];
  }

  /** FIFO within a tier: for every list, the tasks it delivers followed by what is left
      on it are what it held at the start followed by what was pushed onto it, in order. */
  lemma {:induction false} ReplayConserves(q: Tiers, ops: seq<Op>, tier: Tier)
    requires WellPlaced(q)
    ensures Only(Replay(q, ops).1, tier) + Replay(q, ops).0.Get(tier) == q.Get(tier) + Only(PushedTasks(ops), tier)
    decreases |ops|
  {
    if ops != [] {
      var step := Apply(q, ops[0]);
      var tail := Replay(step.0, ops[1..]);
      ReplayStep(q, ops);
      ApplyConserves(q, ops[0], tier);
      ReplayConserves(step.0, ops[1..], tier);
      OnlyConcat(step.1, tail.1, tier);
      var first := PushedTasks([ops[0]]);
      PushedTasksSplit(ops);
      OnlyConcat(first, PushedTasks(ops[1..]), tier);
      Regroup(Only(step.1, tier), Only(tail.1, tier), tail.0.Get(tier), step.0.Get(tier),
              Only(PushedTasks(ops[1..]), tier), q.Get(tier), Only(first, tier));
    }
  }

  /** The sequence algebra of one ReplayConserves step. */
  lemma Regroup<T>(d1: seq<T>, d2: seq<T>, left: seq<T>, mid: seq<T>, later: seq<T>, start: seq<T>, p1: seq<T>)
    requires d2 + left == mid + later
    requires d1 + mid == start + p1
    ensures (d1 + d2) + left == start + (p1 + later)
  {
    calc {
      (d1 + d2) + left;
      d1 + (d2 + left);
      d1 + (mid + later);
      (d1 + mid) + later;
      (start + p1) + later;
    }
  }

  /** Enqueue A then B at the same tier: whatever commands follow, that tier delivers a
      prefix of (its earlier tasks, A, B, its later pushes), so A comes out before B. */
  lemma FifoWithinTier(q: Tiers, a: Task, b: Task, rest: seq<Op>)
    requires WellPlaced(q)
    requires TierOf(a.priority) == TierOf(b.priority)
    ensures var tier := TierOf(a.priority);
      var out := Only(Replay(q, [Push(a), Push(b)] + rest).1, tier);
      out <= q.Get(tier) + [a, b] + Only(PushedTasks(rest), tier)
  {
    var tier := TierOf(a.priority);
    var ops := [Push(a), Push(b)] + rest;
    ReplayConserves(q, ops, tier);
    PushedTwo(a, b, rest, tier);
    var out := Only(Replay(q, ops).1, tier);
    var whole := q.Get(tier) + [a, b] + Only(PushedTasks(rest), tier);
    assert out + Replay(q, ops).0.Get(tier) == whole;
    PrefixOfConcat(out, Replay(q, ops).0.Get(tier), whole);
    assert out <= whole;
  }

  lemma PushedTwo(a: Task, b: Task, rest: seq<Op>, tier: Tier)
    requires TierOf(a.priority) == tier && TierOf(b.priority) == tier
    ensures Only(PushedTasks([Push(a), Push(b)] + rest), tier) == [a, b] + Only(PushedTasks(rest), tier)
  {
    var ops := [Push(a), Push(b)] + rest;
    assert ops[0] == Push(a) && ops[1..] == [Push(b)] + rest;
    assert ops[1..][0] == Push(b) && ops[1..][1..] == rest;
    PushedTasksSplit(ops);
    PushedTasksSplit(ops[1..]);
    assert PushedTasks([Push(a)]) == [a] + PushedTasks([]);
    assert PushedTasks([Push(b)]) == [b] + PushedTasks([]);
    assert PushedTasks(ops) == [a] + ([b] + PushedTasks(rest));
    OnlyConcat([a], [b] + PushedTasks(rest), tier);
    OnlyConcat([b], PushedTasks(rest), tier);
    OnlySingle(a, tier);
    OnlySingle(b, tier);
  }

  lemma PrefixOfConcat<T>(x: seq<T>, y: seq<T>, z: seq<T>)
    requires x + y == z
    ensures x <= z
  {
    assert z[..|x|] == x;
  }

  /** Submit T1 (priority 3) then T2 (priority 1) to an empty broker: T1 is dequeued first. */
  lemma HighBeforeLow(t1: Task, t2: Task)
    requires t1.priority == 3 && t2.priority == 1
    ensures Replay(NoTasks, [Push(t1), Push(t2), Pop(None), Pop(None)]).1 == [t1, t2]
  {
    var q1 := Pushed(NoTasks, t1);
    var q2 := Pushed(q1, t2);
    assert q2 == Tiers([t1], [], [t2]);
    DequeueInQueuedOrder(q2);
    var q3 := Dequeued(q2, None).1;
    assert Queued(q3) == [t2];
    DequeueInQueuedOrder(q3);
    var q4 := Dequeued(q3, None).1;
    var ops := [Push(t1), Push(t2), Pop(None), Pop(None)];
    ReplayStep(NoTasks, ops);
    ReplayStep(q1, ops[1..]);
    ReplayStep(q2, ops[2..]);
    ReplayStep(q3, ops[3..]);
    assert ops[1..][1..] == ops[2..] && ops[2..][1..] == ops[3..] && ops[3..][1..] == [];
    assert Apply(q2, Pop(None)) == (q3, [t1]);
    assert Apply(q3, Pop(None)) == (q4, [t2]);
  }

  /** Round trip: on an empty broker, the task Dequeue returns is the one enqueued. */
  lemma DequeueReturnsEnqueued(t: Task)
    ensures Dequeued(Pushed(NoTasks, t), None) == (Ok(t), NoTasks)
  {
    DequeueInQueuedOrder(Pushed(NoTasks, t));
    assert Queued(Pushed(NoTasks, t)) == [t];
  }

  /** Everything the Queue reaches: its three lists, the `workers` hash of the same Redis
      server, and the tasks table behind its *sql.DB. */
  datatype State = State(tiers: Tiers, workers: map<string, string>, table: Table)

  /** Queue.Enqueue: insert into the table first; on success push onto the tier's list. */
  function AfterEnqueue(s: State, t: Task, storeFault: bool, pushFault: bool): (r: (Option<Error>, State))
    ensures r.1.workers == s.workers
    ensures storeFault ==> r == (Some(StoreError), s)
    ensures !storeFault ==> r.1.table == Inserted(s.table, t)
    ensures !storeFault && pushFault ==> r.0 == Some(BrokerError) && r.1.tiers == s.tiers
    ensures !storeFault && !pushFault ==> r.0 == None && r.1.tiers == Pushed(s.tiers, t)
  {
    if storeFault then (Some(StoreError), s)
    else
      var s1 := s.(table := Inserted(s.table, t));
      if pushFault then (Some(BrokerError), s1) else (None, s1.(tiers := Pushed(s1.tiers, t)))
  }

  /** A successful Enqueue appends the task to the tail of exactly one list and leaves the
      other two as they were. */
  lemma EnqueueTouchesOneTier(s: State, t: Task)
    ensures var s' := AfterEnqueue(s, t, false, false).1;
      s'.tiers.Get(TierOf(t.priority)) == s.tiers.Get(TierOf(t.priority)) + [t] &&
      forall tier :: tier != TierOf(t.priority) ==> s'.tiers.Get(tier) == s.tiers.Get(tier)
  {
  }

  /** The Redis lists and the `workers` hash, and the *sql.DB handle. */
  class Queue {
    var high: seq<Task>
    var medium: seq<Task>
    var low: seq<Task>
    var workers: map<string, string>
    const db: Database

    /** NewQueue: a client of a Redis server whose lists and hash already hold
        `lists` and `registry`; connecting changes neither. */
    constructor (db: Database, lists: Tiers, registry: map<string, string>)
      ensures Lists() == lists && workers == registry && this.db == db
    {
      high, medium, low := lists.high, lists.medium, lists.low;
      workers := registry;
      this.db := db;
    }

    function Lists(): Tiers
      reads this
    {
      Tiers(high, medium, low)
    }

    function Snapshot(): State
      reads this, db
    {
      State(Lists(), workers, db.tasks)
    }

    /** RPush: append to the tail of one list. */
    method RPush(tier: Tier, t: Task, fault: bool) returns (err: Option<Error>)
      modifies this
      ensures err == if fault then Some(BrokerError) else None
      ensures Lists() == if fault then old(Lists()) else old(Lists()).Set(tier, old(Lists()).Get(tier) + [t])
      ensures workers == old(workers)
    {
      if fault {
        return Some(BrokerError);
      }
      match tier {
        case High => high := high + [t];
        case Medium => medium := medium + [t];
        case Low => low := low + [t];
      }
      return None;
    }

    /** LPop: take the head of one list, or reply redis.Nil when it is empty. */
    method LPop(tier: Tier, fault: bool) returns (r: Result<Task>)
      modifies this
      ensures fault ==> r == Err(BrokerError) && Lists() == old(Lists())
      ensures !fault && old(Lists()).Get(tier) == [] ==> r == Err(NotFound) && Lists() == old(Lists())
      ensures !fault && old(Lists()).Get(tier) != [] ==>
        r == Ok(old(Lists()).Get(tier)[0]) && Lists() == old(Lists()).Set(tier, old(Lists()).Get(tier)[1..])
      ensures workers == old(workers)
    {
      if fault {
        return Err(BrokerError);
      }
      var s := Lists().Get(tier);
      if s == [] {
        return Err(NotFound);
      }
      r := Ok(s[0]);
      match tier {
        case High => high := high[1..];
        case Medium => medium := medium[1..];
        case Low => low := low[1..];
      }
    }

    method Enqueue(task: Task, storeFault: bool, pushFault: bool) returns (err: Option<Error>)
      modifies this, db
      ensures (err, Snapshot()) == AfterEnqueue(old(Snapshot()), task, storeFault, pushFault)
    {
      err := db.InsertTask(task, storeFault);
      if err.Some? {
        return;
      }
      var tier := TierOf(task.priority);
      err := RPush(tier, task, pushFault);
    }

    /** HSet on the `workers` hash. */
    method HSet(key: string, value: string)
      modifies this
      ensures workers == old(workers)[key := value]
      ensures Lists() == old(Lists())
    {
      workers := workers[key := value];
    }

    /** HDel on the `workers` hash. */
    method HDel(key: string)
      modifies this
      ensures workers == old(workers) - {key}
      ensures Lists() == old(Lists())
    {
      workers := workers - {key};
    }

    /** HGetAll on the `workers` hash; `fault` is a transport error. */
    method HGetAll(fault: bool) returns (r: Result<map<string, string>>)
      ensures r == if fault then Err(BrokerError) else Ok(workers)
    {
      if fault {
        return Err(BrokerError);
      }
      return Ok(workers);
    }

    /** `fault` names the list whose LPop reports a transport error, if any. */
    method Dequeue(fault: Option<Tier>) returns (r: Result<Task>)
      modifies this
      ensures (r, Lists()) == Dequeued(old(Lists()), fault)
      ensures workers == old(workers)
    {
      var i := 0;
      while i < |ScanOrder|
        invariant 0 <= i <= |ScanOrder|
        invariant Lists() == old(Lists()) && workers == old(workers)
        invariant Scan(Lists(), fault, i) == Dequeued(old(Lists()), fault)
      {
        var tier := ScanOrder[i];
        r := LPop(tier, fault == Some(tier));
        if r != Err(NotFound) {
          return;
        }
        i := i + 1;
      }
      return Err(NotFound);
    }
  }
}
