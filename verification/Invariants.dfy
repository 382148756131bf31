/** What holds in every reachable state, whatever run status FailTask and recoverExpired read. */
module Invariants {
  import opened TaskStates
  import opened Lifecycle
  import opened Rows
  import opened Steps
  import opened Causes
  import Dag

  // ---------------------------------------------------------------------
  // The invariants
  // ---------------------------------------------------------------------

  ghost predicate Placed(s: State, id: TaskId)
    requires id in s.tasks
  {
    && s.tasks[id].run in s.runs
    && forall u :: u in s.tasks[id].upstream ==> u in s.tasks && s.tasks[u].run == s.tasks[id].run
  }

  /** Dependencies stay inside the run. */
  ghost predicate Structured(s: State) {
    forall id :: id in s.tasks ==> Placed(s, id)
  }

  ghost predicate RowsSound(s: State) {
    forall id :: id in s.tasks ==> RowOk(s.tasks[id], s.clock)
  }

  /** A task that is not CANCELLED is BLOCKED exactly while some upstream task has not succeeded. */
  ghost predicate ExactAt(tasks: map<TaskId, Task>, id: TaskId)
    requires id in tasks
  {
    && (!tasks[id].status.Cancelled? ==> (tasks[id].status.Blocked? <==> !UpstreamDone(tasks, id)))
    && (tasks[id].attempts > 0 ==> UpstreamDone(tasks, id))
  }

  ghost predicate Exact(s: State) {
    forall id :: id in s.tasks ==> ExactAt(s.tasks, id)
  }

  ghost predicate Populated(s: State, run: RunId) {
    exists id :: id in s.tasks && s.tasks[id].run == run
  }

  ghost predicate RunSound(s: State, run: RunId)
    requires run in s.runs
  {
    && Populated(s, run)
    && (s.runs[run].status.RunSucceeded? <==> AllSucceeded(s.tasks, run))
    && (s.runs[run].completed.None? <==> s.runs[run].status.RunRunning?)
  }

  ghost predicate RunsSound(s: State) {
    forall run :: run in s.runs ==> RunSound(s, run)
  }

  ghost predicate Known(s: State) {
    && (forall e :: e in s.outbox && e.TaskEvent? ==> e.task in s.tasks && e.run == s.tasks[e.task].run)
    && (forall run :: s.outbox[RunCreated(run)] == if run in s.runs then 1 else 0)
  }

  ghost predicate KeysDistinct(s: State) {
    forall a, b :: a in s.runs && b in s.runs && s.runs[a].key == s.runs[b].key ==> a == b
  }

  ghost predicate Above(rank: map<TaskId, nat>, id: TaskId, upstream: set<TaskId>) {
    id in rank && forall u :: u in upstream ==> u in rank && rank[u] < rank[id]
  }

  /** A topological rank of the tasks of one run. */
  ghost predicate RankOf(s: State, run: RunId, rank: map<TaskId, nat>) {
    forall id :: id in s.tasks && s.tasks[id].run == run ==> Above(rank, id, s.tasks[id].upstream)
  }

  ghost predicate Layered(s: State, run: RunId) {
    exists rank :: RankOf(s, run, rank)
  }

  ghost predicate AllLayered(s: State) {
    forall run :: run in s.runs ==> Layered(s, run)
  }

  function ExitOf(kind: Kind): (r: TaskStatus)
    requires kind in {TaskSucceeded, TaskRetryWait, TaskDead, TaskCancelled}
  {
    match kind
    case TaskSucceeded => Succeeded
    case TaskRetryWait => RetryWait
    case TaskDead => Dead
    case TaskCancelled => Cancelled
  }

  ghost predicate LeasedOnce(s: State, id: TaskId, n: nat)
    requires id in s.tasks
  {
    s.outbox[TaskEvent(TaskLeased, s.tasks[id].run, id, n)] == if 1 <= n <= s.tasks[id].attempts then 1 else 0
  }

  ghost predicate ExitedOnce(s: State, id: TaskId, n: nat, kind: Kind)
    requires id in s.tasks && |s.tasks[id].history| == s.tasks[id].attempts
    requires kind in {TaskSucceeded, TaskRetryWait, TaskDead, TaskCancelled}
  {
    var t := s.tasks[id];
    s.outbox[TaskEvent(kind, t.run, id, n)]
    == if 1 <= n <= t.attempts && t.history[n - 1].exit == Some(ExitOf(kind)) then 1 else 0
  }

  /** The outbox mirrors the attempt rows, and every attempt and every wait for a worker was dispatched. */
  ghost predicate Balanced(s: State, id: TaskId)
    requires id in s.tasks && |s.tasks[id].history| == s.tasks[id].attempts
  {
    && (forall n: nat :: LeasedOnce(s, id, n))
    && (forall n: nat, kind :: kind in {TaskSucceeded, TaskRetryWait, TaskDead, TaskCancelled} ==>
          ExitedOnce(s, id, n, kind))
    && s.outbox[TaskEvent(TaskDispatch, s.tasks[id].run, id, 0)]
       >= s.tasks[id].attempts + (if s.tasks[id].status.Dispatching? then 1 else 0)
  }

  ghost predicate Ledger(s: State)
    requires RowsSound(s)
  {
    forall id :: id in s.tasks ==> Balanced(s, id)
  }

  ghost predicate Inv(s: State) {
    && Structured(s)
    && RowsSound(s)
    && Exact(s)
    && RunsSound(s)
    && Known(s)
    && KeysDistinct(s)
    && AllLayered(s)
    && Ledger(s)
  }

  lemma ExactReleases(s: State)
    requires Exact(s)
    ensures AttemptedAreReleased(s)
  {
    forall id | id in s.tasks && s.tasks[id].attempts > 0 ensures UpstreamDone(s.tasks, id) {
      assert ExactAt(s.tasks, id);
    }
  }

  // ---------------------------------------------------------------------
  // Parts kept by any step that adds no rows
  // ---------------------------------------------------------------------

  lemma RowsKept(s: State, r: State, now: Time)
    requires RowsSound(s) && s.clock <= now && StepOk(s, r, now) && r.tasks.Keys == s.tasks.Keys
    ensures RowsSound(r.(clock := now))
  {
    forall id | id in r.tasks ensures RowOk(r.tasks[id], now) {
      assert RowStep(s, r, now, id);
      MoveKeepsRow(s.tasks[id], r.tasks[id], s.clock, now);
    }
  }

  lemma SameIdentity(s: State, r: State, now: Time, id: TaskId)
    requires StepOk(s, r, now) && id in s.tasks
    ensures id in r.tasks && r.tasks[id].run == s.tasks[id].run && r.tasks[id].upstream == s.tasks[id].upstream
  {
    assert RowStep(s, r, now, id);
    MovesKeepIdentity(s.tasks[id], r.tasks[id], now);
  }

  lemma StructureKept(s: State, r: State, now: Time)
    requires Structured(s) && StepOk(s, r, now) && Frame(s, r)
    ensures Structured(r)
  {
    forall id | id in r.tasks ensures Placed(r, id) {
      assert Placed(s, id);
      SameIdentity(s, r, now, id);
      forall u | u in r.tasks[id].upstream ensures u in r.tasks && r.tasks[u].run == r.tasks[id].run {
        SameIdentity(s, r, now, u);
      }
    }
  }

  lemma RankKept(s: State, r: State, now: Time, run: RunId)
    requires StepOk(s, r, now) && r.tasks.Keys == s.tasks.Keys && Layered(s, run)
    ensures Layered(r, run)
  {
    var rank :| RankOf(s, run, rank);
    forall id | id in r.tasks && r.tasks[id].run == run ensures Above(rank, id, r.tasks[id].upstream) {
      SameIdentity(s, r, now, id);
    }
    assert RankOf(r, run, rank);
  }

  lemma LayersKept(s: State, r: State, now: Time)
    requires AllLayered(s) && StepOk(s, r, now) && Frame(s, r)
    ensures AllLayered(r)
  {
    forall run | run in r.runs ensures Layered(r, run) {
      RankKept(s, r, now, run);
    }
  }

  lemma KnownKept(s: State, r: State, now: Time)
    requires Known(s) && StepOk(s, r, now) && Frame(s, r)
    ensures Known(r)
  {
    forall e | e in r.outbox && e.TaskEvent? ensures e.task in r.tasks && e.run == r.tasks[e.task].run {
      assert r.outbox[e] > s.outbox[e] || e in s.outbox;
      SameIdentity(s, r, now, e.task);
    }
    forall run ensures r.outbox[RunCreated(run)] == if run in r.runs then 1 else 0 {
      var e := RunCreated(run);
      assert s.outbox[e] <= r.outbox[e];
      assert !(r.outbox[e] > s.outbox[e]);
    }
  }

  lemma LeasedKept(s: State, r: State, now: Time, id: TaskId, n: nat)
    requires RowStep(s, r, now, id) && LeasedOnce(s, id, n)
    ensures LeasedOnce(r, id, n)
  {
    MovesKeepIdentity(s.tasks[id], r.tasks[id], now);
    assert Reports(TaskEvent(TaskLeased, s.tasks[id].run, id, n), id);
  }

  /** Which exit a row of the history shows after a move. */
  lemma ExitMoves(t: Task, u: Task, clock: Time, now: Time, n: nat)
    requires RowOk(t, clock) && Moves(t, u, now) && 1 <= n <= u.attempts
    ensures |u.history| == u.attempts
    ensures n < t.attempts ==> u.history[n - 1].exit == t.history[n - 1].exit
    ensures n == t.attempts ==>
              u.history[n - 1].exit ==
                if t.status.Held() && !u.status.Held() then Some(u.status) else t.history[n - 1].exit
    ensures n > t.attempts ==> u.history[n - 1].exit == None
  {
    if n <= t.attempts {
      assert AttemptOk(t, n - 1, clock);
    }
  }

  /** Which exit event a move of the row reports. */
  lemma ExitReported(s: State, r: State, clock: Time, now: Time, id: TaskId, n: nat, kind: Kind)
    requires RowStep(s, r, now, id) && RowOk(s.tasks[id], clock)
    requires kind in {TaskSucceeded, TaskRetryWait, TaskDead, TaskCancelled}
    ensures var t, u := s.tasks[id], r.tasks[id];
            var e := TaskEvent(kind, t.run, id, n);
            r.outbox[e] == s.outbox[e] +
              if t.status.Held() && !u.status.Held() && n == t.attempts && u.status == ExitOf(kind) then 1 else 0
  {
    assert Reports(TaskEvent(kind, s.tasks[id].run, id, n), id);
  }

  lemma ExitKept(s: State, r: State, clock: Time, now: Time, id: TaskId, n: nat, kind: Kind)
    requires RowStep(s, r, now, id) && RowOk(s.tasks[id], clock) && RowOk(r.tasks[id], now)
    requires kind in {TaskSucceeded, TaskRetryWait, TaskDead, TaskCancelled}
    requires ExitedOnce(s, id, n, kind)
    ensures ExitedOnce(r, id, n, kind)
  {
    var t, u := s.tasks[id], r.tasks[id];
    MovesKeepIdentity(t, u, now);
    ExitReported(s, r, clock, now, id, n, kind);
    assert t.status.Held() ==> t.attempts >= 1;
    if 1 <= n <= u.attempts {
      ExitMoves(t, u, clock, now, n);
      if n == t.attempts {
        assert AttemptOk(t, n - 1, clock);
      }
    }
  }

  lemma DispatchesKept(s: State, r: State, now: Time, id: TaskId)
    requires RowStep(s, r, now, id)
    requires s.outbox[TaskEvent(TaskDispatch, s.tasks[id].run, id, 0)]
             >= s.tasks[id].attempts + (if s.tasks[id].status.Dispatching? then 1 else 0)
    ensures r.outbox[TaskEvent(TaskDispatch, r.tasks[id].run, id, 0)]
            >= r.tasks[id].attempts + (if r.tasks[id].status.Dispatching? then 1 else 0)
  {
    MovesKeepIdentity(s.tasks[id], r.tasks[id], now);
    assert Reports(TaskEvent(TaskDispatch, s.tasks[id].run, id, 0), id);
  }

  /** One row: its reports keep the ledger balanced. */
  lemma BalanceKept(s: State, r: State, clock: Time, now: Time, id: TaskId)
    requires RowStep(s, r, now, id) && RowOk(s.tasks[id], clock) && RowOk(r.tasks[id], now)
    requires Balanced(s, id)
    ensures Balanced(r, id)
  {
    forall n: nat ensures LeasedOnce(r, id, n) {
      assert LeasedOnce(s, id, n);
      LeasedKept(s, r, now, id, n);
    }
    forall n: nat, kind | kind in {TaskSucceeded, TaskRetryWait, TaskDead, TaskCancelled}
      ensures ExitedOnce(r, id, n, kind)
    {
      assert ExitedOnce(s, id, n, kind);
      ExitKept(s, r, clock, now, id, n, kind);
    }
    DispatchesKept(s, r, now, id);
  }

  lemma LedgerKept(s: State, r: State, now: Time)
    requires RowsSound(s) && Ledger(s) && StepOk(s, r, now) && r.tasks.Keys == s.tasks.Keys
    requires RowsSound(r.(clock := now))
    ensures Ledger(r.(clock := now))
  {
    forall id | id in r.tasks ensures Balanced(r, id) {
      assert RowStep(s, r, now, id) && Balanced(s, id);
      assert RowOk(r.(clock := now).tasks[id], now);
      BalanceKept(s, r, s.clock, now, id);
    }
    forall id | id in r.tasks ensures Balanced(r.(clock := now), id) {
      assert Balanced(r, id);
      OldRowIsBalanced(r, r.(clock := now), id);
    }
  }

  // ---------------------------------------------------------------------
  // Readiness and completion
  // ---------------------------------------------------------------------

  lemma QuietKeepsUpstream(s: State, r: State, id: TaskId)
    requires Quiet(s, r) && id in s.tasks
    ensures UpstreamDone(r.tasks, id) <==> UpstreamDone(s.tasks, id)
  {
    assert QuietRow(s.tasks[id], r.tasks[id]);
    if UpstreamDone(s.tasks, id) {
      forall u | u in r.tasks[id].upstream && u in r.tasks ensures r.tasks[u].status.Succeeded? {
        assert QuietRow(s.tasks[u], r.tasks[u]);
      }
    } else {
      var u :| u in s.tasks[id].upstream && u in s.tasks && !s.tasks[u].status.Succeeded?;
      assert QuietRow(s.tasks[u], r.tasks[u]);
    }
  }

  lemma QuietKeepsExact(s: State, r: State)
    requires Quiet(s, r) && Exact(s)
    ensures Exact(r)
  {
    forall id | id in r.tasks ensures ExactAt(r.tasks, id) {
      assert ExactAt(s.tasks, id) && QuietRow(s.tasks[id], r.tasks[id]);
      QuietKeepsUpstream(s, r, id);
    }
  }

  /** Completion is decided by which rows have succeeded. */
  ghost predicate SameSuccess(s: State, r: State) {
    && r.tasks.Keys == s.tasks.Keys
    && forall id :: id in s.tasks ==>
         r.tasks[id].run == s.tasks[id].run && (r.tasks[id].status.Succeeded? <==> s.tasks[id].status.Succeeded?)
  }

  lemma SuccessKeepsRuns(s: State, r: State)
    requires RunsSound(s) && SameSuccess(s, r) && QuietRuns(s, r) && r.runs.Keys == s.runs.Keys
    ensures RunsSound(r)
  {
    forall run | run in r.runs ensures RunSound(r, run) {
      assert RunSound(s, run) && QuietRun(s.runs[run], r.runs[run]);
      var id :| id in s.tasks && s.tasks[id].run == run;
      assert r.tasks[id].run == run;
      assert AllSucceeded(r.tasks, run) <==> AllSucceeded(s.tasks, run) by {
        if AllSucceeded(s.tasks, run) {
        } else {
          var j :| j in s.tasks && s.tasks[j].run == run && !s.tasks[j].status.Succeeded?;
          assert j in r.tasks;
        }
      }
    }
  }

  lemma QuietIsSameSuccess(s: State, r: State)
    requires Quiet(s, r)
    ensures SameSuccess(s, r)
  {
    forall id | id in s.tasks
      ensures r.tasks[id].run == s.tasks[id].run && (r.tasks[id].status.Succeeded? <==> s.tasks[id].status.Succeeded?)
    {
      assert QuietRow(s.tasks[id], r.tasks[id]);
    }
  }

  // ReplayDead: cancelled rows are rebuilt from upstream completion.

  lemma ReplayIsSteady(s: State, now: Time, id: TaskId)
    ensures Frame(s, ReplayDead(s, now, id))
    ensures QuietRuns(s, ReplayDead(s, now, id))
    ensures SameSuccess(s, ReplayDead(s, now, id))
  {}

  lemma SameSuccessSameUpstream(a: map<TaskId, Task>, b: map<TaskId, Task>, id: TaskId)
    requires a.Keys == b.Keys && id in a && b[id].upstream == a[id].upstream
    requires forall i :: i in a ==> (a[i].status.Succeeded? <==> b[i].status.Succeeded?)
    ensures UpstreamDone(a, id) <==> UpstreamDone(b, id)
  {
    if !UpstreamDone(a, id) {
      var u :| u in a[id].upstream && u in a && !a[u].status.Succeeded?;
      assert u in b[id].upstream && u in b && !b[u].status.Succeeded?;
    }
  }

  lemma ReplayKeepsExact(s: State, now: Time, id: TaskId)
    requires Exact(s)
    ensures Exact(ReplayDead(s, now, id))
  {
    if CanReplay(s, id) {
      var r := ReplayDead(s, now, id);
      var revived := s.tasks[id := Revived(s.tasks[id], now)];
      forall i | i in r.tasks ensures ExactAt(r.tasks, i) {
        assert ExactAt(s.tasks, i);
        SameSuccessSameUpstream(s.tasks, revived, i);
        SameSuccessSameUpstream(revived, r.tasks, i);
      }
    }
  }

  // CompleteTask: one row succeeds and its children are looked at again.

  lemma CompleteFrame(s: State, now: Time, id: TaskId, worker: WorkerId)
    ensures Frame(s, CompleteTask(s, now, id, worker))
  {
    if CanComplete(s, now, id, worker) {
      var done := s.tasks[id := Finished(s.tasks[id], now)];
      var r := CompleteTask(s, now, id, worker);
      forall e | r.outbox[e] > s.outbox[e] ensures e.TaskEvent? && e.task in s.tasks && e.run == s.tasks[e.task].run {
        assert e in ReadyEvents(done, id) || e == TaskEvent(TaskSucceeded, s.tasks[id].run, id, s.tasks[id].attempts);
      }
    }
  }

  lemma CompleteKeepsExact(s: State, now: Time, id: TaskId, worker: WorkerId)
    requires Exact(s) && Structured(s) && CanComplete(s, now, id, worker)
    ensures Exact(CompleteTask(s, now, id, worker))
  {
    var r := CompleteTask(s, now, id, worker);
    var done := s.tasks[id := Finished(s.tasks[id], now)];
    forall i | i in r.tasks ensures ExactAt(r.tasks, i) {
      assert ExactAt(s.tasks, i) && Placed(s, i);
      SameSuccessSameUpstream(done, r.tasks, i);
      // Success of one more task only helps, and changes nothing for tasks that do not wait for it.
      if UpstreamDone(s.tasks, i) {
        assert UpstreamDone(done, i);
      } else if id !in s.tasks[i].upstream {
        var u :| u in s.tasks[i].upstream && u in s.tasks && !s.tasks[u].status.Succeeded?;
        assert u in done && !done[u].status.Succeeded?;
      }
    }
  }

  lemma CompleteKeepsRuns(s: State, now: Time, id: TaskId, worker: WorkerId)
    requires RunsSound(s) && CanComplete(s, now, id, worker)
    ensures RunsSound(CompleteTask(s, now, id, worker))
  {
    var r := CompleteTask(s, now, id, worker);
    forall run | run in r.runs ensures RunSound(r, run) {
      assert RunSound(s, run);
      var j :| j in s.tasks && s.tasks[j].run == run;
      assert r.tasks[j].run == run;
      if run != s.tasks[id].run {
        assert forall i :: i in s.tasks && s.tasks[i].run == run ==> r.tasks[i].status == s.tasks[i].status;
        if !AllSucceeded(s.tasks, run) {
          var i :| i in s.tasks && s.tasks[i].run == run && !s.tasks[i].status.Succeeded?;
          assert r.tasks[i].run == run && !r.tasks[i].status.Succeeded?;
        }
      }
    }
  }

  // ---------------------------------------------------------------------
  // CreateRun
  // ---------------------------------------------------------------------

  ghost predicate NewRow(rows: map<TaskId, Task>, id: TaskId, run: RunId, now: Time)
    requires id in rows
  {
    var t := rows[id];
    && t.run == run
    && t.attempts == 0 && t.history == [] && t.available == now && t.maximum >= 1
    && t.owner == None && t.expires == None
    && (t.status.Ready? || t.status.Blocked?)
    && (t.status.Blocked? <==> t.upstream != {})
    && t.upstream <= rows.Keys
  }

  ghost predicate RowsRanked(rows: map<TaskId, Task>, rank: map<TaskId, nat>) {
    forall id :: id in rows ==> Above(rank, id, rows[id].upstream)
  }

  /** The rows of a new run, described without the graph they came from. */
  ghost predicate NewRows(rows: map<TaskId, Task>, run: RunId, now: Time) {
    && rows.Keys != {}
    && (forall id :: id in rows ==> NewRow(rows, id, run, now))
    && exists rank :: RowsRanked(rows, rank)
  }

  lemma GraphGivesRow(run: RunId, dag: Dag.Tasks, ids: map<string, TaskId>, now: Time, k: string)
    requires ids.Keys == dag.Keys && Injective(ids) && k in dag && Dag.TaskOk(dag, k)
    ensures ids[k] in NewTasks(run, dag, ids, now)
    ensures NewTasks(run, dag, ids, now)[ids[k]] == NewTask(run, k, dag[k], ids, now)
    ensures NewRow(NewTasks(run, dag, ids, now), ids[k], run, now)
  {
    var rows := NewTasks(run, dag, ids, now);
    var t := NewTask(run, k, dag[k], ids, now);
    var deps := dag[k].dependsOn;
    assert t.upstream <= rows.Keys;
    if |deps| > 0 {
      assert deps[0] in deps && deps[0] in ids;
      assert ids[deps[0]] in t.upstream;
    } else {
      assert t.upstream == {};
    }
  }

  /** A rank of the graph, carried over to the task ids. */
  lemma GraphGivesRank(run: RunId, dag: Dag.Tasks, ids: map<string, TaskId>, now: Time, byKey: map<string, nat>)
    returns (rank: map<TaskId, nat>)
    requires ids.Keys == dag.Keys && Injective(ids) && Dag.Ranked(dag, byKey)
    ensures forall k :: k in dag ==> Above(rank, ids[k], UpstreamIds(dag[k].dependsOn, ids))
  {
    rank := map k | k in dag :: ids[k] := byKey[k];
    forall k | k in dag ensures Above(rank, ids[k], UpstreamIds(dag[k].dependsOn, ids)) {
      forall u | u in UpstreamIds(dag[k].dependsOn, ids) ensures u in rank && rank[u] < rank[ids[k]] {
        var d :| d in dag[k].dependsOn && d in ids && ids[d] == u;
      }
    }
  }

  lemma GraphGivesRows(run: RunId, dag: Dag.Tasks, ids: map<string, TaskId>, now: Time)
    requires ids.Keys == dag.Keys && Injective(ids) && Dag.ValidDag(dag)
    ensures NewRows(NewTasks(run, dag, ids, now), run, now)
  {
    var rows := NewTasks(run, dag, ids, now);
    assert dag.Keys != {} by { assert |dag.Keys| > 0; }
    var k0 :| k0 in dag.Keys;
    assert ids[k0] in rows;
    var byKey :| Dag.Ranked(dag, byKey);
    var rank := GraphGivesRank(run, dag, ids, now, byKey);
    forall id | id in rows ensures NewRow(rows, id, run, now) && Above(rank, id, rows[id].upstream) {
      var k :| k in dag && ids[k] == id;
      assert Dag.TaskOk(dag, k);
      GraphGivesRow(run, dag, ids, now, k);
    }
    assert RowsRanked(rows, rank);
  }

  lemma NewRowIsSound(rows: map<TaskId, Task>, id: TaskId, run: RunId, now: Time)
    requires id in rows && NewRow(rows, id, run, now)
    ensures RowOk(rows[id], now)
  {}

  lemma WithRunKeepsTables(s: State, now: Time, run: RunId, key: string, rows: map<TaskId, Task>)
    requires Structured(s) && RowsSound(s) && s.clock <= now && NewRows(rows, run, now)
    requires forall i :: i in s.tasks ==> i !in rows
    ensures Structured(WithRun(s, run, key, rows))
    ensures RowsSound(WithRun(s, run, key, rows).(clock := now))
  {
    var r := WithRun(s, run, key, rows);
    forall id | id in r.tasks ensures Placed(r, id) && RowOk(r.tasks[id], now) {
      if id in s.tasks {
        assert Placed(s, id) && RowOk(s.tasks[id], s.clock);
        TimePasses(s.tasks[id], s.clock, now);
      } else {
        assert NewRow(rows, id, run, now);
        NewRowIsSound(rows, id, run, now);
        forall u | u in rows[id].upstream ensures u in r.tasks && r.tasks[u].run == run {
          assert NewRow(rows, u, run, now);
        }
      }
    }
  }

  lemma WithRunKeepsExact(s: State, now: Time, run: RunId, key: string, rows: map<TaskId, Task>)
    requires Structured(s) && Exact(s) && NewRows(rows, run, now)
    requires forall i :: i in s.tasks ==> i !in rows
    ensures Exact(WithRun(s, run, key, rows))
  {
    var r := WithRun(s, run, key, rows);
    forall id | id in r.tasks ensures ExactAt(r.tasks, id) {
      if id in s.tasks {
        assert Placed(s, id) && ExactAt(s.tasks, id);
        assert UpstreamDone(r.tasks, id) <==> UpstreamDone(s.tasks, id) by {
          if !UpstreamDone(s.tasks, id) {
            var u :| u in s.tasks[id].upstream && u in s.tasks && !s.tasks[u].status.Succeeded?;
            assert r.tasks[u] == s.tasks[u];
          }
        }
      } else {
        assert NewRow(rows, id, run, now);
        if rows[id].upstream != {} {
          var u :| u in rows[id].upstream;
          assert NewRow(rows, u, run, now) && r.tasks[u] == rows[u];
        }
      }
    }
  }

  lemma WithRunKeepsRuns(s: State, now: Time, run: RunId, key: string, rows: map<TaskId, Task>)
    requires Structured(s) && RunsSound(s) && run !in s.runs && NewRows(rows, run, now)
    requires forall i :: i in s.tasks ==> i !in rows
    ensures RunsSound(WithRun(s, run, key, rows))
  {
    var r := WithRun(s, run, key, rows);
    forall q | q in r.runs ensures RunSound(r, q) {
      if q == run {
        var id :| id in rows.Keys;
        assert NewRow(rows, id, run, now) && r.tasks[id] == rows[id];
        assert !AllSucceeded(r.tasks, q);
      } else {
        assert RunSound(s, q);
        var id :| id in s.tasks && s.tasks[id].run == q;
        assert r.tasks[id] == s.tasks[id];
        assert AllSucceeded(r.tasks, q) <==> AllSucceeded(s.tasks, q) by {
          forall i | i in rows ensures r.tasks[i].run != q { assert NewRow(rows, i, run, now); }
          if !AllSucceeded(s.tasks, q) {
            var i :| i in s.tasks && s.tasks[i].run == q && !s.tasks[i].status.Succeeded?;
            assert r.tasks[i] == s.tasks[i];
          }
        }
      }
    }
  }

  lemma WithRunKeepsRanks(s: State, now: Time, run: RunId, key: string, rows: map<TaskId, Task>)
    requires Structured(s) && AllLayered(s) && run !in s.runs && NewRows(rows, run, now)
    requires forall i :: i in s.tasks ==> i !in rows
    ensures AllLayered(WithRun(s, run, key, rows))
  {
    var r := WithRun(s, run, key, rows);
    forall id | id in s.tasks ensures r.tasks[id] == s.tasks[id] && s.tasks[id].run != run { assert Placed(s, id); }
    forall id | id in rows ensures r.tasks[id] == rows[id] && rows[id].run == run { assert NewRow(rows, id, run, now); }
    forall q | q in r.runs ensures Layered(r, q) {
      if q == run {
        var rank :| RowsRanked(rows, rank);
        assert RankOf(r, q, rank);
      } else {
        var rank :| RankOf(s, q, rank);
        assert RankOf(r, q, rank);
      }
    }
  }

  lemma NewRowIsBalanced(s: State, r: State, id: TaskId)
    requires Known(s) && id !in s.tasks && id in r.tasks
    requires r.tasks[id].attempts == 0 && r.tasks[id].history == [] && !r.tasks[id].status.Dispatching?
    requires forall e: Event :: e.TaskEvent? ==> r.outbox[e] == s.outbox[e]
    ensures Balanced(r, id)
  {
    forall kind, q, n ensures s.outbox[TaskEvent(kind, q, id, n)] == 0 {
      assert TaskEvent(kind, q, id, n) !in s.outbox;
    }
  }

  lemma OldRowIsBalanced(s: State, r: State, id: TaskId)
    requires id in s.tasks && id in r.tasks && r.tasks[id] == s.tasks[id]
    requires |s.tasks[id].history| == s.tasks[id].attempts && Balanced(s, id)
    requires forall e: Event :: e.TaskEvent? ==> r.outbox[e] == s.outbox[e]
    ensures Balanced(r, id)
  {
    forall n: nat ensures LeasedOnce(r, id, n) { assert LeasedOnce(s, id, n); }
    forall n: nat, kind | kind in {TaskSucceeded, TaskRetryWait, TaskDead, TaskCancelled}
      ensures ExitedOnce(r, id, n, kind)
    {
      assert ExitedOnce(s, id, n, kind);
    }
  }

  lemma WithRunKeepsLedger(s: State, now: Time, run: RunId, key: string, rows: map<TaskId, Task>)
    requires RowsSound(s) && Ledger(s) && Known(s) && NewRows(rows, run, now)
    requires RowsSound(WithRun(s, run, key, rows).(clock := now))
    requires forall i :: i in s.tasks ==> i !in rows
    ensures Ledger(WithRun(s, run, key, rows).(clock := now))
  {
    var r := WithRun(s, run, key, rows).(clock := now);
    forall id | id in r.tasks ensures Balanced(r, id) {
      if id in s.tasks {
        assert Balanced(s, id);
        OldRowIsBalanced(s, r, id);
      } else {
        assert NewRow(rows, id, run, now);
        NewRowIsBalanced(s, r, id);
      }
    }
  }

  lemma WithRunKeepsKeys(s: State, run: RunId, key: string, rows: map<TaskId, Task>)
    requires Known(s) && KeysDistinct(s) && run !in s.runs && !KeyTaken(s, key)
    requires forall i :: i in s.tasks ==> i !in rows
    ensures Known(WithRun(s, run, key, rows)) && KeysDistinct(WithRun(s, run, key, rows))
  {
    var r := WithRun(s, run, key, rows);
    forall e | e in r.outbox && e.TaskEvent? ensures e.task in r.tasks && e.run == r.tasks[e.task].run {
      assert e in s.outbox;
    }
    assert forall q :: q in s.runs ==> r.runs[q] == s.runs[q] && s.runs[q].key != key;
  }

  lemma CreateKeepsInv(s: State, now: Time, run: RunId, key: string, dag: Dag.Tasks, ids: map<string, TaskId>)
    requires Inv(s) && s.clock <= now && key != "" && !KeyTaken(s, key) && Creatable(s, run, dag, ids)
    ensures Inv(CreateRun(s, now, run, key, dag, ids).(clock := now))
  {
    var rows := NewTasks(run, dag, ids, now);
    NewIdsAreNew(s, run, dag, ids, now);
    GraphGivesRows(run, dag, ids, now);
    NewRunKeepsInv(s, now, run, key, rows);
  }

  lemma ClockFree(r: State, now: Time)
    requires Structured(r) && Exact(r) && RunsSound(r) && Known(r) && KeysDistinct(r) && AllLayered(r)
    ensures Structured(r.(clock := now)) && Exact(r.(clock := now)) && RunsSound(r.(clock := now))
    ensures Known(r.(clock := now)) && KeysDistinct(r.(clock := now)) && AllLayered(r.(clock := now))
  {
    var c := r.(clock := now);
    forall id | id in c.tasks ensures Placed(c, id) { assert Placed(r, id); }
    forall run | run in c.runs ensures RunSound(c, run) && Layered(c, run) {
      assert RunSound(r, run);
      var id :| id in r.tasks && r.tasks[id].run == run;
      assert c.tasks[id].run == run;
      var rank :| RankOf(r, run, rank);
      assert RankOf(c, run, rank);
    }
  }

  lemma NewRunKeepsInv(s: State, now: Time, run: RunId, key: string, rows: map<TaskId, Task>)
    requires Inv(s) && s.clock <= now && run !in s.runs && !KeyTaken(s, key) && NewRows(rows, run, now)
    requires forall i :: i in s.tasks ==> i !in rows
    ensures Inv(WithRun(s, run, key, rows).(clock := now))
  {
    WithRunKeepsTables(s, now, run, key, rows);
    WithRunKeepsExact(s, now, run, key, rows);
    WithRunKeepsRuns(s, now, run, key, rows);
    WithRunKeepsRanks(s, now, run, key, rows);
    WithRunKeepsLedger(s, now, run, key, rows);
    WithRunKeepsKeys(s, run, key, rows);
    ClockFree(WithRun(s, run, key, rows), now);
  }

  // ---------------------------------------------------------------------
  // Every step, and every execution
  // ---------------------------------------------------------------------

  lemma DeadRunIsNotDone(s: State, run: RunId)
    requires RunsSound(s) && HasDead(s, run)
    ensures !RunIs(s, run, RunSucceeded)
  {
    var id :| id in s.tasks && s.tasks[id].run == run && s.tasks[id].status.Dead?;
    assert !AllSucceeded(s.tasks, run);
    if run in s.runs {
      assert RunSound(s, run);
    }
  }

  lemma KeysKept(s: State, r: State)
    requires KeysDistinct(s) && r.runs.Keys == s.runs.Keys && QuietRuns(s, r)
    ensures KeysDistinct(r)
  {
    forall run | run in s.runs ensures r.runs[run].key == s.runs[run].key {
      assert QuietRun(s.runs[run], r.runs[run]);
    }
  }

  ghost predicate SpecificParts(s: State, r: State) {
    Frame(s, r) && Exact(r) && RunsSound(r) && KeysDistinct(r)
  }

  lemma ReplayParts(s: State, now: Time, id: TaskId)
    requires Exact(s) && RunsSound(s) && KeysDistinct(s)
    ensures SpecificParts(s, ReplayDead(s, now, id))
  {
    var r := ReplayDead(s, now, id);
    ReplayIsSteady(s, now, id);
    ReplayKeepsExact(s, now, id);
    SuccessKeepsRuns(s, r);
    KeysKept(s, r);
  }

  lemma CompleteKeepsKeys(s: State, now: Time, id: TaskId, worker: WorkerId)
    requires KeysDistinct(s)
    ensures KeysDistinct(CompleteTask(s, now, id, worker))
  {
    var r := CompleteTask(s, now, id, worker);
    assert forall run :: run in s.runs ==> r.runs[run].key == s.runs[run].key;
  }

  lemma CompleteParts(s: State, now: Time, id: TaskId, worker: WorkerId)
    requires Structured(s) && Exact(s) && RunsSound(s) && KeysDistinct(s)
    ensures SpecificParts(s, CompleteTask(s, now, id, worker))
  {
    CompleteFrame(s, now, id, worker);
    if CanComplete(s, now, id, worker) {
      CompleteKeepsExact(s, now, id, worker);
      CompleteKeepsRuns(s, now, id, worker);
      CompleteKeepsKeys(s, now, id, worker);
    }
  }

  lemma QuietParts(s: State, r: State)
    requires Exact(s) && RunsSound(s) && KeysDistinct(s) && Quiet(s, r)
    ensures SpecificParts(s, r)
  {
    QuietKeepsExact(s, r);
    QuietIsSameSuccess(s, r);
    SuccessKeepsRuns(s, r);
    KeysKept(s, r);
  }

  /** The step-specific parts: readiness, completion and run keys. */
  lemma StepParts(s: State, x: Timed)
    requires Inv(s) && !x.step.Create?
    ensures SpecificParts(s, Effect(s, x))
  {
    if x.step.Replay? {
      ReplayParts(s, x.now, x.step.task);
    } else if x.step.Complete? {
      CompleteParts(s, x.now, x.step.task, x.step.worker);
    } else {
      if x.step.Retry? && HasDead(s, x.step.run) {
        DeadRunIsNotDone(s, x.step.run);
      }
      QuietStep(s, x);
      QuietParts(s, Effect(s, x));
    }
  }

  lemma NothingKeepsInv(s: State, now: Time)
    requires Inv(s) && s.clock <= now
    ensures Inv(s.(clock := now))
  {
    ClockFree(s, now);
    NothingMoves(s, now);
    AutomaticIsStep(s, s, now);
    RowsKept(s, s, now);
    LedgerKept(s, s, now);
  }

  lemma StepKeepsInv(s: State, x: Timed)
    requires Inv(s) && s.clock <= x.now
    ensures Inv(Apply(s, x))
  {
    var r := Effect(s, x);
    if x.step.Create? {
      if r == s {
        NothingKeepsInv(s, x.now);
      } else {
        CreateKeepsInv(s, x.now, x.step.run, x.step.key, x.step.dag, x.step.ids);
      }
    } else {
      ExactReleases(s);
      AnyStep(s, x);
      StepParts(s, x);
      RowsKept(s, r, x.now);
      StructureKept(s, r, x.now);
      LayersKept(s, r, x.now);
      KnownKept(s, r, x.now);
      LedgerKept(s, r, x.now);
      ClockFree(r, x.now);
    }
  }

  /** Induction over executions: the invariant holds after any number of steps. */
  lemma {:induction false} RunKeepsInv(s: State, xs: seq<Timed>)
    requires Inv(s) && Legal(s, xs)
    ensures Inv(After(s, xs))
    decreases |xs|
  {
    if xs != [] {
      StepKeepsInv(s, xs[0]);
      RunKeepsInv(Apply(s, xs[0]), xs[1..]);
    }
  }

  lemma Reachable(xs: seq<Timed>)
    requires Legal(EMPTY, xs)
    ensures Inv(After(EMPTY, xs))
  {
    RunKeepsInv(EMPTY, xs);
  }

  // ---------------------------------------------------------------------
  // One step, described without the function that makes it
  // ---------------------------------------------------------------------

  ghost predicate NewlyMade(t: Task) {
    (t.status.Ready? || t.status.Blocked?) && t.attempts == 0 && t.maximum >= 1
  }

  ghost predicate RowsStay(s: State, r: State) {
    forall id :: id in s.tasks ==> id in r.tasks && r.tasks[id].run == s.tasks[id].run
  }

  ghost predicate OnlyNewRows(s: State, r: State) {
    forall id :: id in r.tasks && id !in s.tasks ==> NewlyMade(r.tasks[id]) && r.tasks[id].run !in s.runs
  }

  ghost predicate ReplayRebuilds(s: State, x: Step, r: State) {
    x.Replay? ==>
      if CanReplay(s, x.task)
      then forall id :: In(s, id, s.tasks[x.task].run) && id in r.tasks ==> !r.tasks[id].status.Cancelled?
      else r.tasks == s.tasks && r.runs == s.runs
  }

  ghost predicate Next(s: State, x: Timed, r: State) {
    && Structured(s)
    && s.clock <= x.now == r.clock
    && Explained(s, x, r)
    && RowsStay(s, r)
    && OnlyNewRows(s, r)
    && ReplayRebuilds(s, x.step, r)
  }

  lemma NewTasksAreFresh(run: RunId, dag: Dag.Tasks, ids: map<string, TaskId>, now: Time, id: TaskId)
    requires ids.Keys == dag.Keys && Injective(ids) && id in NewTasks(run, dag, ids, now)
    ensures var t := NewTasks(run, dag, ids, now)[id];
            (t.status.Ready? || t.status.Blocked?) && t.attempts == 0 && t.run == run
  {}

  lemma NewTaskIsNewlyMade(s: State, x: Timed, id: TaskId)
    requires id !in s.tasks && id in Effect(s, x).tasks && x.step.Create?
    ensures Effect(s, x).tasks[id].status.Ready? || Effect(s, x).tasks[id].status.Blocked?
    ensures Effect(s, x).tasks[id].attempts == 0 && Effect(s, x).tasks[id].run !in s.runs
  {
    var step := x.step;
    if step.key != "" && !KeyTaken(s, step.key) && Creatable(s, step.run, step.dag, step.ids) {
      NewTasksAreFresh(step.run, step.dag, step.ids, x.now, id);
    }
  }

  lemma ReplayClears(s: State, now: Time, task: TaskId, id: TaskId)
    requires CanReplay(s, task) && In(s, id, s.tasks[task].run)
    ensures id in ReplayDead(s, now, task).tasks && !ReplayDead(s, now, task).tasks[id].status.Cancelled?
  {}

  lemma ExplainedAtAnyClock(s: State, x: Timed, r: State, c: State)
    requires Explained(s, x, r) && c == r.(clock := x.now)
    ensures Explained(s, x, c)
  {
    forall id | id in s.tasks ensures id in c.tasks && RowCause(s, x, c, id) {
      assert RowCause(s, x, r, id);
    }
    forall run | run in s.runs ensures run in c.runs && RunCause(s, x, c, run) {
      assert RunCause(s, x, r, run);
    }
  }

  lemma StepExplainedNow(s: State, x: Timed)
    requires Exact(s)
    ensures Explained(s, x, Apply(s, x))
  {
    ExactReleases(s);
    StepExplained(s, x);
    ExplainedAtAnyClock(s, x, Effect(s, x), Apply(s, x));
  }

  lemma StepRowsStay(s: State, x: Timed)
    requires Exact(s)
    ensures RowsStay(s, Apply(s, x))
  {
    ExactReleases(s);
    AnyStep(s, x);
    forall id | id in s.tasks ensures id in Effect(s, x).tasks && Effect(s, x).tasks[id].run == s.tasks[id].run {
      SameIdentity(s, Effect(s, x), x.now, id);
    }
  }

  lemma StepOnlyNewRows(s: State, x: Timed)
    requires Inv(s) && s.clock <= x.now
    ensures OnlyNewRows(s, Apply(s, x))
  {
    StepKeepsInv(s, x);
    if !x.step.Create? {
      StepParts(s, x);
    }
    forall id | id in Apply(s, x).tasks && id !in s.tasks
      ensures NewlyMade(Apply(s, x).tasks[id]) && Apply(s, x).tasks[id].run !in s.runs
    {
      NewTaskIsNewlyMade(s, x, id);
      assert RowOk(Apply(s, x).tasks[id], x.now);
    }
  }

  lemma StepReplayRebuilds(s: State, x: Timed)
    ensures ReplayRebuilds(s, x.step, Apply(s, x))
  {
    if x.step.Replay? && CanReplay(s, x.step.task) {
      forall id | In(s, id, s.tasks[x.step.task].run) ensures !Apply(s, x).tasks[id].status.Cancelled? {
        ReplayClears(s, x.now, x.step.task, id);
      }
    }
  }

  lemma StepIsNext(s: State, x: Timed)
    requires Inv(s) && s.clock <= x.now
    ensures Next(s, x, Apply(s, x))
  {
    StepExplainedNow(s, x);
    StepRowsStay(s, x);
    StepOnlyNewRows(s, x);
    StepReplayRebuilds(s, x);
  }
}
