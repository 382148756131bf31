/** Executions from empty tables that wedge a run, overdraw the attempt budget and give a lost lease back. */
module Witnesses {
  import opened TaskStates
  import opened Lifecycle
  import opened Causes
  import opened Invariants
  import opened Executions
  import opened Progress
  import opened Budget
  import opened Completion
  import Dag
  import Fencing

  // ---------------------------------------------------------------------
  // RetryRun wedges a run whose other tasks were waiting
  // ---------------------------------------------------------------------

  /** A task of a run in which all others, at least one, are CANCELLED. */
  ghost predicate Isolated(s: State, run: RunId, task: TaskId) {
    && run in s.runs && In(s, task, run)
    && (exists id :: In(s, id, run) && id != task)
    && forall id :: In(s, id, run) && id != task ==> s.tasks[id].status.Cancelled?
  }

  lemma DeathIsolates(s: State, now: Time, run: RunId, task: TaskId, worker: WorkerId)
    requires RunIs(s, run, RunRunning) && In(s, task, run) && Holds(s, now, task, worker)
    requires exists id :: In(s, id, run) && id != task
    requires forall id :: In(s, id, run) && id != task ==> s.tasks[id].status.Pending()
    ensures var dead := Apply(s, At(now, Fail(task, worker, false, RunRunning)));
            Isolated(dead, run, task) && dead.tasks[task].status.Dead?
  {
    var dead := Apply(s, At(now, Fail(task, worker, false, RunRunning)));
    assert dead.tasks.Keys == s.tasks.Keys;
    var other :| In(s, other, run) && other != task;
    assert In(dead, other, run);
    forall id | In(dead, id, run) && id != task ensures dead.tasks[id].status.Cancelled? {
      assert In(s, id, run);
    }
  }

  lemma RetryKeepsIsolated(s: State, now: Time, run: RunId, task: TaskId)
    requires Isolated(s, run, task) && s.tasks[task].status.Dead?
    ensures var back := Apply(s, At(now, Retry(run)));
            Isolated(back, run, task) && RunIs(back, run, RunRunning) && CanDispatch(back, now, task)
  {
    assert HasDead(s, run);
    var back := Apply(s, At(now, Retry(run)));
    var other :| In(s, other, run) && other != task;
    assert In(back, other, run);
    forall id | In(back, id, run) && id != task ensures back.tasks[id].status.Cancelled? {
      assert In(s, id, run);
    }
  }

  lemma OneRowKeepsIsolated(s: State, r: State, run: RunId, task: TaskId)
    requires Isolated(s, run, task) && r.runs == s.runs && task in r.tasks && r.tasks[task].run == run
    requires r.tasks == s.tasks[task := r.tasks[task]]
    ensures Isolated(r, run, task)
  {
    var other :| In(s, other, run) && other != task;
    assert In(r, other, run);
    forall id | In(r, id, run) && id != task ensures r.tasks[id].status.Cancelled? {
      assert In(s, id, run);
    }
  }

  lemma LastSuccessWedges(s: State, now: Time, run: RunId, task: TaskId, worker: WorkerId)
    requires Isolated(s, run, task) && CanComplete(s, now, task, worker)
    ensures Wedged(Apply(s, At(now, Complete(task, worker))), run)
  {
    var done := Apply(s, At(now, Complete(task, worker)));
    var other :| In(s, other, run) && other != task;
    assert done.tasks[other] == s.tasks[other];
    assert !AllSucceeded(done.tasks, run);
    assert done.runs == s.runs;
    forall id | In(done, id, run) ensures !Movable(done.tasks[id]) {
      assert In(s, id, run);
    }
  }

  /** A dispatched attempt of the isolated task, up to its start. */
  lemma IsolatedStarts(s: State, xs: seq<Timed>, m: State, run: RunId, task: TaskId, worker: WorkerId)
    returns (ys: seq<Timed>, r: State)
    requires Leads(s, xs, m) && Isolated(m, run, task) && RunIs(m, run, RunRunning) && CanDispatch(m, m.clock, task)
    ensures Leads(s, ys, r) && Isolated(r, run, task) && CanComplete(r, r.clock, task, worker)
  {
    var now, q := m.clock, m;
    DispatchOfOne(m, now, task);
    ys, r := Then(s, xs, m, At(now, Send([task])));
    OneRowKeepsIsolated(q, r, run, task);
    q := r;
    ys, r := Then(s, ys, r, At(now, Lease(task, worker, 1)));
    OneRowKeepsIsolated(q, r, run, task);
    assert CanStart(r, now, task, worker);
    q := r;
    ys, r := Then(s, ys, r, At(now, Start(task, worker)));
    OneRowKeepsIsolated(q, r, run, task);
  }

  /**
   * In any run in which one task is held and the others, at least one, are waiting: a permanent failure,
   * RetryRun and a successful new attempt leave the run wedged.
   */
  lemma RetryWedges(s: State, run: RunId, task: TaskId, worker: WorkerId) returns (xs: seq<Timed>, r: State)
    requires RunIs(s, run, RunRunning) && In(s, task, run) && Holds(s, s.clock, task, worker)
    requires exists id :: In(s, id, run) && id != task
    requires forall id :: In(s, id, run) && id != task ==> s.tasks[id].status.Pending()
    ensures Leads(s, xs, r) && Wedged(r, run)
  {
    DeathIsolates(s, s.clock, run, task, worker);
    LeadsNowhere(s);
    xs, r := Then(s, [], s, At(s.clock, Fail(task, worker, false, RunRunning)));
    RetryKeepsIsolated(r, r.clock, run, task);
    xs, r := Then(s, xs, r, At(r.clock, Retry(run)));
    xs, r := IsolatedStarts(s, xs, r, run, task, worker);
    LastSuccessWedges(r, r.clock, run, task, worker);
    xs, r := Then(s, xs, r, At(r.clock, Complete(task, worker)));
  }

  // ---------------------------------------------------------------------
  // A run of three independent tasks with one attempt each
  // ---------------------------------------------------------------------

  const SPEC := Dag.TaskSpec("h", [], 1, 1, 0)
  const TRIO: Dag.Tasks := map["a" := SPEC, "b" := SPEC, "c" := SPEC]
  const IDS: map<string, TaskId> := map["a" := 0, "b" := 1, "c" := 2]

  lemma TrioTaskIsOk(k: string)
    requires k in TRIO
    ensures Dag.TaskOk(TRIO, k)
  {
    assert k == "a" || k == "b" || k == "c";
  }

  lemma TrioIsAcyclic()
    ensures Dag.Acyclic(TRIO)
  {
    assert Dag.Ranked(TRIO, map["a" := 0, "b" := 0, "c" := 0]);
  }

  lemma TrioIsValid()
    ensures Dag.ValidDag(TRIO)
  {
    TrioIsAcyclic();
    forall k | k in TRIO ensures Dag.TaskOk(TRIO, k) {
      TrioTaskIsOk(k);
    }
    assert Dag.Edges(TRIO, TRIO.Keys) == {};
    assert |TRIO| == 3;
  }

  /** What is to be known of one of the three rows. */
  datatype Look = Look(status: TaskStatus, attempts: nat, maximum: nat)

  ghost predicate Shows(t: Task, k: Look) {
    && t.run == 0 && t.upstream == {} && t.available <= 0
    && t.status == k.status && t.attempts == k.attempts && t.maximum == k.maximum
    && (t.status.Held() ==> t.owner == Some("w") && t.expires == Some(1))
  }

  ghost predicate Trio(s: State, status: RunStatus, a: Look, b: Look, c: Look) {
    && s.clock == 0 && RunIs(s, 0, status) && s.tasks.Keys == {0, 1, 2}
    && Shows(s.tasks[0], a) && Shows(s.tasks[1], b) && Shows(s.tasks[2], c)
  }

  const NEW := Look(Ready, 0, 1)
  const TAKEN := Look(Leased, 1, 1)

  lemma NewRowShows(k: string)
    ensures Shows(NewTask(0, k, SPEC, IDS, 0), NEW)
  {
    assert UpstreamIds([], IDS) == {};
  }

  lemma RowOfKey(dag: Dag.Tasks, ids: map<string, TaskId>, rows: map<TaskId, Task>, id: TaskId) returns (k: string)
    requires ids.Keys == dag.Keys && Injective(ids) && rows == NewTasks(0, dag, ids, 0) && id in rows
    ensures k in dag && ids[k] == id && rows[id] == NewTask(0, k, dag[k], ids, 0)
  {
    k :| k in dag && ids[k] == id;
  }

  lemma KeyHasRow(dag: Dag.Tasks, ids: map<string, TaskId>, rows: map<TaskId, Task>, k: string)
    requires ids.Keys == dag.Keys && Injective(ids) && rows == NewTasks(0, dag, ids, 0) && k in dag
    ensures ids[k] in rows
  {}

  lemma TrioRows(rows: map<TaskId, Task>)
    requires IDS.Keys == TRIO.Keys && Injective(IDS) && rows == NewTasks(0, TRIO, IDS, 0)
    ensures rows.Keys == {0, 1, 2}
    ensures forall id :: id in rows ==> Shows(rows[id], NEW)
  {
    KeyHasRow(TRIO, IDS, rows, "a");
    KeyHasRow(TRIO, IDS, rows, "b");
    KeyHasRow(TRIO, IDS, rows, "c");
    forall id | id in rows ensures id in {0, 1, 2} && Shows(rows[id], NEW) {
      var k := RowOfKey(TRIO, IDS, rows, id);
      NewRowShows(k);
    }
  }

  lemma TrioIds()
    ensures IDS.Keys == TRIO.Keys && Injective(IDS)
  {}

  lemma FirstIsCreatable(dag: Dag.Tasks, ids: map<string, TaskId>)
    requires Dag.ValidDag(dag) && ids.Keys == dag.Keys && Injective(ids)
    ensures Creatable(EMPTY, 0, dag, ids)
  {}

  lemma FirstRows(rows: map<TaskId, Task>)
    ensures var r := WithRun(EMPTY, 0, "k", rows);
            RunIs(r, 0, RunRunning) && r.tasks == rows
  {}

  lemma FirstCreates(dag: Dag.Tasks, ids: map<string, TaskId>)
    requires Creatable(EMPTY, 0, dag, ids)
    ensures CreateRun(EMPTY, 0, 0, "k", dag, ids) == WithRun(EMPTY, 0, "k", NewTasks(0, dag, ids, 0))
  {
    assert !KeyTaken(EMPTY, "k");
  }

  lemma FirstRun(dag: Dag.Tasks, ids: map<string, TaskId>, r: State)
    requires Dag.ValidDag(dag) && ids.Keys == dag.Keys && Injective(ids)
    requires r == Apply(EMPTY, At(0, Create(0, "k", dag, ids)))
    ensures r.clock == 0 && RunIs(r, 0, RunRunning) && r.tasks == NewTasks(0, dag, ids, 0)
  {
    FirstIsCreatable(dag, ids);
    FirstCreates(dag, ids);
    FirstRows(NewTasks(0, dag, ids, 0));
  }

  lemma TrioCreated() returns (xs: seq<Timed>, s: State)
    ensures Leads(EMPTY, xs, s) && Trio(s, RunRunning, NEW, NEW, NEW)
  {
    LeadsNowhere(EMPTY);
    xs, s := Then(EMPTY, [], EMPTY, At(0, Create(0, "k", TRIO, IDS)));
    TrioIsValid();
    TrioIds();
    FirstRun(TRIO, IDS, s);
    TrioRows(s.tasks);
  }

  /** A task of the three is sent and leased. */
  lemma TrioLeases(xs: seq<Timed>, s: State, id: TaskId) returns (ys: seq<Timed>, r: State)
    requires Leads(EMPTY, xs, s) && s.clock == 0 && 0 in s.runs && id in s.tasks && Shows(s.tasks[id], NEW)
    ensures Leads(EMPTY, ys, r) && r.clock == 0 && r.runs == s.runs
    ensures r.tasks.Keys == s.tasks.Keys && Shows(r.tasks[id], TAKEN)
    ensures forall i :: i in s.tasks && i != id ==> r.tasks[i] == s.tasks[i]
  {
    DispatchOfOne(s, 0, id);
    ys, r := Then(EMPTY, xs, s, At(0, Send([id])));
    ys, r := Then(EMPTY, ys, r, At(0, Lease(id, "w", 1)));
  }

  /** RUNNING for ever: an execution from empty tables that wedges a run. */
  lemma WedgeHappens() returns (xs: seq<Timed>, r: State)
    ensures Legal(EMPTY, xs) && r == After(EMPTY, xs) && Wedged(r, 0)
  {
    var s;
    xs, s := TrioCreated();
    xs, s := TrioLeases(xs, s, 0);
    assert In(s, 1, 0) && Holds(s, 0, 0, "w");
    var ys;
    ys, r := RetryWedges(s, 0, 0, "w");
    LeadsOn(EMPTY, xs, s, ys, r);
    xs := xs + ys;
    LeadsIsExecution(EMPTY, xs, r);
  }

  // ---------------------------------------------------------------------
  // An overdraw
  // ---------------------------------------------------------------------

  lemma AllThreeTaken() returns (xs: seq<Timed>, s: State)
    ensures Leads(EMPTY, xs, s) && Trio(s, RunRunning, TAKEN, TAKEN, TAKEN)
  {
    xs, s := TrioCreated();
    xs, s := TrioLeases(xs, s, 0);
    xs, s := TrioLeases(xs, s, 1);
    xs, s := TrioLeases(xs, s, 2);
  }

  lemma FirstDies(s: State)
    requires Trio(s, RunRunning, TAKEN, TAKEN, TAKEN)
    ensures Trio(Apply(s, At(0, Fail(0, "w", false, RunRunning))), RunFailed, Look(Dead, 1, 1), TAKEN, TAKEN)
  {}

  lemma SecondDies(s: State)
    requires Trio(s, RunFailed, Look(Dead, 1, 1), TAKEN, TAKEN)
    ensures Trio(Apply(s, At(0, Fail(1, "w", false, RunFailed))), RunFailed, Look(Dead, 1, 1), Look(Dead, 1, 1), TAKEN)
  {}

  lemma FirstIsReplayed(s: State)
    requires Trio(s, RunFailed, Look(Dead, 1, 1), Look(Dead, 1, 1), TAKEN)
    ensures Trio(Apply(s, At(0, Replay(0))), RunRunning, Look(Ready, 1, 2), Look(Dead, 1, 1), TAKEN)
  {}

  lemma RunIsCancelled(s: State)
    requires Trio(s, RunRunning, Look(Ready, 1, 2), Look(Dead, 1, 1), TAKEN)
    ensures Trio(Apply(s, At(0, Cancel(0))), RunCancelled, Look(Cancelled, 1, 2), Look(Dead, 1, 1), TAKEN)
  {}

  lemma ThirdIsStopped(s: State)
    requires Trio(s, RunCancelled, Look(Cancelled, 1, 2), Look(Dead, 1, 1), TAKEN)
    ensures Trio(Apply(s, At(0, Fail(2, "w", true, RunCancelled))), RunCancelled,
                 Look(Cancelled, 1, 2), Look(Dead, 1, 1), Look(Cancelled, 1, 1))
  {}

  /** Two deaths, a replay, a cancellation and a last failure, every status read being the current one. */
  lemma OverdrawComesUp() returns (xs: seq<Timed>, s: State)
    ensures Leads(EMPTY, xs, s) && s.clock == 0 && Spent(s, 2, 0) && Overdraws(s, Replay(1), 0)
  {
    xs, s := AllThreeTaken();
    FirstDies(s);
    xs, s := Then(EMPTY, xs, s, At(0, Fail(0, "w", false, RunRunning)));
    SecondDies(s);
    xs, s := Then(EMPTY, xs, s, At(0, Fail(1, "w", false, RunFailed)));
    FirstIsReplayed(s);
    xs, s := Then(EMPTY, xs, s, At(0, Replay(0)));
    RunIsCancelled(s);
    xs, s := Then(EMPTY, xs, s, At(0, Cancel(0)));
    ThirdIsStopped(s);
    xs, s := Then(EMPTY, xs, s, At(0, Fail(2, "w", true, RunCancelled)));
    assert Spent(s, 2, 0);
  }

  /** An execution from empty tables after which a task has been attempted more often than its maximum. */
  lemma OverdrawHappens() returns (xs: seq<Timed>, r: State)
    ensures Legal(EMPTY, xs) && r == After(EMPTY, xs) && !InBudget(r, 0)
    ensures 2 in r.tasks && r.tasks[2].attempts == r.tasks[2].maximum + 1
  {
    var s, ys;
    xs, s := OverdrawComesUp();
    LeadsIsExecution(EMPTY, xs, s);
    Reachable(xs);
    ys, r := OverdrawnReplayExceeds(s, 0, 0, 1, 2, "w", 1);
    var back;
    xs, back := Then(EMPTY, xs, s, At(0, Replay(1)));
    LeadsOn(EMPTY, xs, back, ys, r);
    xs := xs + ys;
    LeadsIsExecution(EMPTY, xs, r);
  }

  // ---------------------------------------------------------------------
  // A lease regained
  // ---------------------------------------------------------------------

  /** Worker "w" is still named by the row of task 0, but its lease has run out. */
  lemma LeaseRunsOut() returns (xs: seq<Timed>, s: State)
    ensures Leads(EMPTY, xs, s) && s.clock == 1
    ensures RunIs(s, 0, RunRunning) && In(s, 0, 0) && Shows(s.tasks[0], TAKEN)
  {
    xs, s := TrioCreated();
    xs, s := TrioLeases(xs, s, 0);
    xs, s := Then(EMPTY, xs, s, At(1, Wake));
  }

  /** Recovered at its last attempt, retried and sent: the task waits for a worker again. */
  lemma TaskComesBack(s: State) returns (xs: seq<Timed>, r: State)
    requires RunIs(s, 0, RunRunning) && In(s, 0, 0) && Shows(s.tasks[0], TAKEN) && s.clock == 1
    ensures Leads(s, xs, r) && Is(r, 0, 0, Dispatching)
  {
    LeadsNowhere(s);
    RecoverOfOne(s, 1, Pick(0, RunRunning));
    xs, r := Then(s, [], s, At(1, Recover([Pick(0, RunRunning)])));
    assert In(r, 0, 0) && r.tasks[0].status.Dead?;
    RetryRow(r, 0, 0);
    xs, r := Then(s, xs, r, At(r.clock, Retry(0)));
    SendRow(r, 0, 0);
    xs, r := Then(s, xs, r, At(Later(r.tasks[0].available, r.clock), Send([0])));
  }

  /** Worker "w" leases it, starts and completes. */
  lemma SameWorkerCompletes(s: State) returns (xs: seq<Timed>, r: State)
    requires Is(s, 0, 0, Dispatching)
    ensures Leads(s, xs, r) && In(r, 0, 0) && r.tasks[0].status.Succeeded? && r.tasks[0].owner == Some("w")
  {
    LeadsNowhere(s);
    xs, r := Then(s, [], s, At(s.clock, Lease(0, "w", 1)));
    assert Is(r, 0, 0, Leased) && Fresh(r, 0) && r.tasks[0].owner == Some("w");
    StartRow(r, 0, 0);
    xs, r := Then(s, xs, r, At(r.clock, Start(0, "w")));
    assert r.tasks[0].owner == Some("w");
    CompleteRow(r, 0, 0);
    xs, r := Then(s, xs, r, At(r.clock, Complete(0, "w")));
  }

  /**
   * A lease is tied to the worker, not to the attempt: in this execution a worker is shut out, its lease having
   * run out, and later, granted the task again, completes it.
   */
  lemma LeaseIsRegained() returns (xs: seq<Timed>, ys: seq<Timed>)
    ensures Legal(EMPTY, xs) && Fencing.Holder(After(EMPTY, xs), 0, "w")
    ensures Fencing.LeaseLost(After(EMPTY, xs), After(EMPTY, xs).clock, 0, "w")
    ensures Legal(After(EMPTY, xs), ys)
    ensures var r := After(After(EMPTY, xs), ys);
            0 in r.tasks && r.tasks[0].status.Succeeded? && r.tasks[0].owner == Some("w")
  {
    var s, m, r, zs;
    xs, s := LeaseRunsOut();
    LeadsIsExecution(EMPTY, xs, s);
    Fencing.ExpiredLeaseIsLost(s, s.clock, 0, "w");
    ys, m := TaskComesBack(s);
    zs, r := SameWorkerCompletes(m);
    LeadsOn(s, ys, m, zs, r);
    ys := ys + zs;
    LeadsIsExecution(s, ys, r);
  }
}
