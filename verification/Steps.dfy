/** Each transaction moves every task row in one of the ways of Rows, and reports it in the outbox. */
module Steps {
  import opened TaskStates
  import opened Lifecycle
  import opened Rows
  import Dag

  /** The event a move of one row leaves behind (readiness and replay notices aside). */
  ghost function Report(id: TaskId, t: Task, u: Task): (r: multiset<Event>) {
    if t.status.Ready? && u.status.Dispatching? then multiset{TaskEvent(TaskDispatch, t.run, id, 0)}
    else if t.status.Dispatching? && u.status.Leased? then multiset{TaskEvent(TaskLeased, t.run, id, u.attempts)}
    else if t.status.Held() && u.status.Succeeded? then multiset{TaskEvent(TaskSucceeded, t.run, id, t.attempts)}
    else if t.status.Held() && !u.status.Held() then multiset{TaskEvent(ExitKind(u.status), t.run, id, t.attempts)}
    else multiset{}
  }

  ghost predicate Reports(e: Event, id: TaskId) {
    e.TaskEvent? && e.task == id && !e.kind.TaskReady? && !e.kind.TaskReplayed?
  }

  ghost predicate Reported(s: State, r: State, id: TaskId)
    requires id in s.tasks && id in r.tasks
  {
    forall e :: Reports(e, id) ==> r.outbox[e] == s.outbox[e] + Report(id, s.tasks[id], r.tasks[id])[e]
  }

  ghost predicate RowStep(s: State, r: State, now: Time, id: TaskId) {
    && id in s.tasks && id in r.tasks
    && Moves(s.tasks[id], r.tasks[id], now)
    && Reported(s, r, id)
  }

  ghost predicate AutomaticRow(s: State, r: State, now: Time, id: TaskId) {
    && id in s.tasks && id in r.tasks
    && Automatic(s.tasks[id], r.tasks[id], now)
    && Reported(s, r, id)
  }

  /** All rows are kept and moved as allowed; events and runs are only added. */
  ghost predicate StepOk(s: State, r: State, now: Time) {
    && (forall id :: id in s.tasks ==> RowStep(s, r, now, id))
    && s.outbox <= r.outbox
    && s.runs.Keys <= r.runs.Keys
  }

  ghost predicate AutomaticOk(s: State, r: State, now: Time) {
    && (forall id :: id in s.tasks ==> AutomaticRow(s, r, now, id))
    && s.outbox <= r.outbox
    && s.runs.Keys <= r.runs.Keys
  }

  lemma AutomaticIsStep(s: State, r: State, now: Time)
    requires AutomaticOk(s, r, now)
    ensures StepOk(s, r, now)
  {
    forall id | id in s.tasks ensures RowStep(s, r, now, id) {
      assert AutomaticRow(s, r, now, id);
    }
  }

  // ---------------------------------------------------------------------
  // Transactions on one row
  // ---------------------------------------------------------------------

  lemma LeaseMoves(s: State, now: Time, id: TaskId, worker: WorkerId, lease: Time)
    ensures AutomaticOk(s, LeaseTask(s, now, id, worker, lease), now)
  {
    var r := LeaseTask(s, now, id, worker, lease);
    forall i | i in s.tasks ensures AutomaticRow(s, r, now, i) {
      if CanLease(s, id) && i == id {
        assert Taken(s.tasks[i], r.tasks[i], now);
      } else {
        assert Idle(s.tasks[i], r.tasks[i]);
      }
    }
  }

  lemma StartMoves(s: State, now: Time, id: TaskId, worker: WorkerId)
    ensures AutomaticOk(s, StartTask(s, now, id, worker), now)
  {
    var r := StartTask(s, now, id, worker);
    forall i | i in s.tasks ensures AutomaticRow(s, r, now, i) {
      assert Idle(s.tasks[i], r.tasks[i]) || Started(s.tasks[i], r.tasks[i], now);
    }
  }

  lemma HeartbeatMoves(s: State, now: Time, id: TaskId, worker: WorkerId, lease: Time)
    ensures AutomaticOk(s, HeartbeatTask(s, now, id, worker, lease), now)
  {
    var r := HeartbeatTask(s, now, id, worker, lease);
    forall i | i in s.tasks ensures AutomaticRow(s, r, now, i) {
      assert Idle(s.tasks[i], r.tasks[i]) || Renewed(s.tasks[i], r.tasks[i]);
    }
  }

  // ---------------------------------------------------------------------
  // Transactions that touch several rows
  // ---------------------------------------------------------------------

  lemma ReadyEventsAreNotices(tasks: map<TaskId, Task>, id: TaskId, e: Event, i: TaskId)
    requires id in tasks && Reports(e, i)
    ensures multiset(ReadyEvents(tasks, id))[e] == 0
  {}

  lemma CompleteMovesRow(s: State, now: Time, id: TaskId, worker: WorkerId, i: TaskId)
    requires CanComplete(s, now, id, worker) && i in s.tasks
    ensures AutomaticRow(s, CompleteTask(s, now, id, worker), now, i)
  {
    var r := CompleteTask(s, now, id, worker);
    var done := s.tasks[id := Finished(s.tasks[id], now)];
    if i == id {
      assert Completed(s.tasks[i], r.tasks[i], now);
    } else {
      assert Idle(s.tasks[i], r.tasks[i]) || Unblocked(s.tasks[i], r.tasks[i], now);
    }
    forall e | Reports(e, i) ensures r.outbox[e] == s.outbox[e] + Report(i, s.tasks[i], r.tasks[i])[e] {
      ReadyEventsAreNotices(done, id, e, i);
    }
  }

  lemma CompleteMoves(s: State, now: Time, id: TaskId, worker: WorkerId)
    ensures AutomaticOk(s, CompleteTask(s, now, id, worker), now)
  {
    if CanComplete(s, now, id, worker) {
      forall i | i in s.tasks ensures AutomaticRow(s, CompleteTask(s, now, id, worker), now, i) {
        CompleteMovesRow(s, now, id, worker, i);
      }
    } else {
      NothingMoves(s, now);
    }
  }

  lemma EndMoves(s: State, now: Time, id: TaskId, exit: TaskStatus, i: TaskId)
    requires id in s.tasks && s.tasks[id].status.Held() && i in s.tasks
    requires exit.RetryWait? || exit.Dead? || exit.Cancelled?
    requires exit.RetryWait? ==> s.tasks[id].attempts < s.tasks[id].maximum
    ensures AutomaticRow(s, EndAttempt(s, now, id, exit), now, i)
  {
    var r := EndAttempt(s, now, id, exit);
    if i == id {
      assert Stopped(s.tasks[i], r.tasks[i], now);
    } else {
      assert Idle(s.tasks[i], r.tasks[i]);
    }
  }

  /** A task ended and its siblings swept, or a task ended alone. */
  lemma EndAndSweepMoves(s: State, now: Time, id: TaskId, run: RunId, i: TaskId)
    requires id in s.tasks && s.tasks[id].status.Held() && i in s.tasks
    ensures var ended := EndAttempt(s, now, id, Dead);
            AutomaticRow(s, ended.(tasks := CancelPending(ended.tasks, run)), now, i)
  {
    var ended := EndAttempt(s, now, id, Dead);
    var r := ended.(tasks := CancelPending(ended.tasks, run));
    EndMoves(s, now, id, Dead, i);
    if i != id {
      assert Idle(s.tasks[i], r.tasks[i]) || Swept(s.tasks[i], r.tasks[i]);
    }
  }

  lemma SameTables(s: State, a: State, b: State, now: Time, i: TaskId)
    requires AutomaticRow(s, a, now, i) && b.tasks == a.tasks && b.outbox == a.outbox
    ensures AutomaticRow(s, b, now, i)
  {
    forall e | Reports(e, i) ensures b.outbox[e] == s.outbox[e] + Report(i, s.tasks[i], b.tasks[i])[e] {
      assert a.outbox[e] == s.outbox[e] + Report(i, s.tasks[i], a.tasks[i])[e];
    }
  }

  lemma FailMoves(s: State, now: Time, id: TaskId, worker: WorkerId, retryable: bool, seen: RunStatus)
    ensures AutomaticOk(s, FailTask(s, now, id, worker, retryable, seen), now)
  {
    if CanHeartbeat(s, now, id, worker) {
      var t := s.tasks[id];
      var exit := ExitStatus(seen, retryable && t.attempts < t.maximum);
      var ended := EndAttempt(s, now, id, exit);
      var r := FailTask(s, now, id, worker, retryable, seen);
      forall i | i in s.tasks ensures AutomaticRow(s, r, now, i) {
        if exit.Dead? {
          EndAndSweepMoves(s, now, id, t.run, i);
          SameTables(s, ended.(tasks := CancelPending(ended.tasks, t.run)), r, now, i);
        } else {
          EndMoves(s, now, id, exit, i);
        }
      }
    } else {
      NothingMoves(s, now);
    }
  }

  lemma WakeMoves(s: State, now: Time)
    ensures AutomaticOk(s, WakeRetries(s, now), now)
  {
    var r := WakeRetries(s, now);
    forall i | i in s.tasks ensures AutomaticRow(s, r, now, i) {
      assert Idle(s.tasks[i], r.tasks[i]) || Woken(s.tasks[i], r.tasks[i], now);
    }
  }

  lemma RecoverOneMovesRow(s: State, now: Time, p: Pick, i: TaskId)
    requires i in s.tasks
    ensures AutomaticRow(s, RecoverOne(s, now, p), now, i)
  {
    if Expired(s, now, p.task) {
      var exit := ExitStatus(p.seen, s.tasks[p.task].attempts < s.tasks[p.task].maximum);
      EndMoves(s, now, p.task, exit, i);
      SameTables(s, EndAttempt(s, now, p.task, exit), RecoverOne(s, now, p), now, i);
    } else {
      assert Idle(s.tasks[i], s.tasks[i]);
    }
  }

  lemma RecoverOneMoves(s: State, now: Time, p: Pick)
    ensures AutomaticOk(s, RecoverOne(s, now, p), now)
    ensures forall i :: i in s.tasks && !s.tasks[i].status.Held() ==> RecoverOne(s, now, p).tasks[i] == s.tasks[i]
    ensures forall i :: i in s.tasks ==> i == p.task || RecoverOne(s, now, p).tasks[i] == s.tasks[i]
    ensures p.task in s.tasks ==>
              || RecoverOne(s, now, p).tasks[p.task] == s.tasks[p.task]
              || !RecoverOne(s, now, p).tasks[p.task].status.Held()
  {
    forall i | i in s.tasks ensures AutomaticRow(s, RecoverOne(s, now, p), now, i) {
      RecoverOneMovesRow(s, now, p, i);
    }
  }

  lemma ComposeRow(s: State, m: State, r: State, now: Time, i: TaskId)
    requires AutomaticRow(s, m, now, i) && AutomaticRow(m, r, now, i)
    requires m.tasks[i] == s.tasks[i] || r.tasks[i] == m.tasks[i]
    ensures AutomaticRow(s, r, now, i)
  {
    assert Report(i, s.tasks[i], s.tasks[i]) == Report(i, r.tasks[i], r.tasks[i]) == multiset{};
    if m.tasks[i] == s.tasks[i] {
      assert Automatic(s.tasks[i], r.tasks[i], now);
    }
  }

  /** Two steps in a row make one when no row moves twice. */
  lemma Compose(s: State, m: State, r: State, now: Time)
    requires AutomaticOk(s, m, now) && AutomaticOk(m, r, now)
    requires forall i :: i in s.tasks ==>
               i in m.tasks && i in r.tasks && (m.tasks[i] == s.tasks[i] || r.tasks[i] == m.tasks[i])
    ensures AutomaticOk(s, r, now)
  {
    forall i | i in s.tasks ensures AutomaticRow(s, r, now, i) {
      assert AutomaticRow(s, m, now, i);
      assert AutomaticRow(m, r, now, i);
      ComposeRow(s, m, r, now, i);
    }
  }

  lemma {:induction false} RecoverMoves(s: State, now: Time, picked: seq<Pick>)
    ensures AutomaticOk(s, RecoverExpired(s, now, picked), now)
    ensures forall i :: i in s.tasks && !s.tasks[i].status.Held() ==>
              RecoverExpired(s, now, picked).tasks[i] == s.tasks[i]
    decreases |picked|
  {
    if picked == [] {
      NothingMoves(s, now);
    } else {
      var m := RecoverOne(s, now, picked[0]);
      RecoverOneMoves(s, now, picked[0]);
      RecoverMoves(m, now, picked[1..]);
      forall i | i in s.tasks ensures i in m.tasks {
        assert AutomaticRow(s, m, now, i);
      }
      Compose(s, m, RecoverExpired(s, now, picked), now);
    }
  }

  lemma DispatchOneMoves(s: State, now: Time, id: TaskId)
    ensures AutomaticOk(s, DispatchOne(s, now, id), now)
    ensures forall i :: i in s.tasks && !s.tasks[i].status.Ready? ==> DispatchOne(s, now, id).tasks[i] == s.tasks[i]
    ensures forall i :: i in s.tasks ==> i == id || DispatchOne(s, now, id).tasks[i] == s.tasks[i]
    ensures id in s.tasks ==>
              DispatchOne(s, now, id).tasks[id] == s.tasks[id] || !DispatchOne(s, now, id).tasks[id].status.Ready?
  {
    var r := DispatchOne(s, now, id);
    forall i | i in s.tasks ensures AutomaticRow(s, r, now, i) {
      assert Idle(s.tasks[i], r.tasks[i]) || Sent(s.tasks[i], r.tasks[i], now);
    }
  }

  lemma {:induction false} DispatchMoves(s: State, now: Time, picked: seq<TaskId>)
    ensures AutomaticOk(s, Dispatch(s, now, picked), now)
    ensures forall i :: i in s.tasks && !s.tasks[i].status.Ready? ==> Dispatch(s, now, picked).tasks[i] == s.tasks[i]
    decreases |picked|
  {
    if picked == [] {
      NothingMoves(s, now);
    } else {
      var m := DispatchOne(s, now, picked[0]);
      DispatchOneMoves(s, now, picked[0]);
      DispatchMoves(m, now, picked[1..]);
      forall i | i in s.tasks ensures i in m.tasks {
        assert AutomaticRow(s, m, now, i);
      }
      Compose(s, m, Dispatch(s, now, picked), now);
    }
  }

  lemma NewIdsAreNew(s: State, run: RunId, dag: Dag.Tasks, ids: map<string, TaskId>, now: Time)
    requires ids.Keys == dag.Keys && Injective(ids) && (forall k :: k in ids ==> ids[k] !in s.tasks)
    ensures forall i :: i in s.tasks ==> i !in NewTasks(run, dag, ids, now)
  {}

  lemma WithRunMoves(s: State, now: Time, run: RunId, key: string, rows: map<TaskId, Task>)
    requires forall i :: i in s.tasks ==> i !in rows
    ensures AutomaticOk(s, WithRun(s, run, key, rows), now)
  {
    var r := WithRun(s, run, key, rows);
    forall i | i in s.tasks ensures AutomaticRow(s, r, now, i) {
      assert Idle(s.tasks[i], r.tasks[i]);
    }
  }

  lemma NothingMoves(s: State, now: Time)
    ensures AutomaticOk(s, s, now)
  {
    forall i | i in s.tasks ensures AutomaticRow(s, s, now, i) {
      assert Idle(s.tasks[i], s.tasks[i]);
    }
  }

  lemma CreateMoves(s: State, now: Time, run: RunId, key: string, dag: Dag.Tasks, ids: map<string, TaskId>)
    ensures AutomaticOk(s, CreateRun(s, now, run, key, dag, ids), now)
  {
    if key == "" || KeyTaken(s, key) || !Creatable(s, run, dag, ids) {
      NothingMoves(s, now);
    } else {
      NewIdsAreNew(s, run, dag, ids, now);
      WithRunMoves(s, now, run, key, NewTasks(run, dag, ids, now));
    }
  }

  lemma CancelMoves(s: State, now: Time, run: RunId)
    ensures AutomaticOk(s, CancelRun(s, now, run), now)
  {
    var r := CancelRun(s, now, run);
    forall i | i in s.tasks ensures AutomaticRow(s, r, now, i) {
      assert Idle(s.tasks[i], r.tasks[i]) || Swept(s.tasks[i], r.tasks[i]);
    }
  }

  lemma RetryMoves(s: State, now: Time, run: RunId)
    ensures StepOk(s, RetryRun(s, now, run), now)
  {
    var r := RetryRun(s, now, run);
    forall i | i in s.tasks ensures RowStep(s, r, now, i) {
      assert Idle(s.tasks[i], r.tasks[i]) || Reborn(s.tasks[i], r.tasks[i], now);
    }
  }

  /** A task that has been attempted had its upstream done, and SUCCEEDED is never left. */
  ghost predicate AttemptedAreReleased(s: State) {
    forall id :: id in s.tasks && s.tasks[id].attempts > 0 ==> UpstreamDone(s.tasks, id)
  }

  lemma ReplayMovesRow(s: State, now: Time, id: TaskId, i: TaskId)
    requires CanReplay(s, id) && i in s.tasks && (s.tasks[i].attempts > 0 ==> UpstreamDone(s.tasks, i))
    ensures RowStep(s, ReplayDead(s, now, id), now, i)
  {
    var r := ReplayDead(s, now, id);
    var tasks := s.tasks[id := Revived(s.tasks[id], now)];
    if i == id {
      assert Reborn(s.tasks[i], r.tasks[i], now);
    } else if s.tasks[i].run == s.tasks[id].run && s.tasks[i].status.Cancelled? {
      assert UpstreamDone(s.tasks, i) ==> UpstreamDone(tasks, i);
      assert Rebuilt(s.tasks[i], r.tasks[i], now);
    } else {
      assert Idle(s.tasks[i], r.tasks[i]);
    }
  }

  lemma ReplayMoves(s: State, now: Time, id: TaskId)
    requires AttemptedAreReleased(s)
    ensures StepOk(s, ReplayDead(s, now, id), now)
  {
    if CanReplay(s, id) {
      forall i | i in s.tasks ensures RowStep(s, ReplayDead(s, now, id), now, i) {
        ReplayMovesRow(s, now, id, i);
      }
    } else {
      NothingMoves(s, now);
      AutomaticIsStep(s, s, now);
    }
  }

  // ---------------------------------------------------------------------
  // What the steps other than CreateRun leave alone
  // ---------------------------------------------------------------------

  /** Rows are neither added nor dropped, and new events name tasks of the run they are keyed by. */
  ghost predicate Frame(s: State, r: State) {
    && r.tasks.Keys == s.tasks.Keys
    && r.runs.Keys == s.runs.Keys
    && (forall e :: r.outbox[e] > s.outbox[e] ==> e.TaskEvent? && e.task in s.tasks && e.run == s.tasks[e.task].run)
  }

  /** The row keeps its place in the run: no success is gained, and BLOCKED is left for CANCELLED only. */
  ghost predicate QuietRow(t: Task, u: Task) {
    && u.run == t.run && u.upstream == t.upstream
    && (u.status.Succeeded? <==> t.status.Succeeded?)
    && (t.status.Blocked? ==> u.status.Blocked? || u.status.Cancelled?)
    && (u.status.Blocked? ==> t.status.Blocked?)
    && (t.status.Cancelled? ==> u.status.Cancelled?)
    && (u.attempts > 0 ==> t.attempts > 0 || !(t.status.Blocked? || t.status.Cancelled?))
  }

  /** completed_at is null exactly while the run is RUNNING, and success is neither gained nor lost. */
  ghost predicate QuietRun(a: Run, b: Run) {
    && b.key == a.key
    && (b.status.RunSucceeded? <==> a.status.RunSucceeded?)
    && ((a.completed.None? <==> a.status.RunRunning?) ==> (b.completed.None? <==> b.status.RunRunning?))
  }

  ghost predicate QuietRuns(s: State, r: State) {
    forall run :: run in s.runs && run in r.runs ==> QuietRun(s.runs[run], r.runs[run])
  }

  ghost predicate QuietRows(s: State, r: State) {
    forall id :: id in s.tasks && id in r.tasks ==> QuietRow(s.tasks[id], r.tasks[id])
  }

  ghost predicate Quiet(s: State, r: State) {
    Frame(s, r) && QuietRuns(s, r) && QuietRows(s, r)
  }

  lemma QuietCompose(s: State, m: State, r: State)
    requires Quiet(s, m) && Quiet(m, r)
    ensures Quiet(s, r)
  {
    forall e | r.outbox[e] > s.outbox[e] ensures e.TaskEvent? && e.task in s.tasks && e.run == s.tasks[e.task].run {
      if r.outbox[e] > m.outbox[e] {
        assert QuietRow(s.tasks[e.task], m.tasks[e.task]);
      }
    }
    forall id | id in s.tasks ensures QuietRow(s.tasks[id], r.tasks[id]) {
      assert QuietRow(s.tasks[id], m.tasks[id]) && QuietRow(m.tasks[id], r.tasks[id]);
    }
    forall run | run in s.runs ensures QuietRun(s.runs[run], r.runs[run]) {
      assert QuietRun(s.runs[run], m.runs[run]) && QuietRun(m.runs[run], r.runs[run]);
    }
  }

  lemma NothingIsQuiet(s: State)
    ensures Quiet(s, s)
  {}

  lemma EndIsQuiet(s: State, now: Time, id: TaskId, exit: TaskStatus)
    requires id in s.tasks && s.tasks[id].status.Held()
    requires exit.RetryWait? || exit.Dead? || exit.Cancelled?
    ensures Quiet(s, EndAttempt(s, now, id, exit))
  {}

  lemma FailRunIsQuiet(s: State, now: Time, run: RunId)
    ensures Quiet(s, s.(runs := FailRun(s.runs, run, now)))
  {}

  lemma SweepIsQuiet(s: State, run: RunId)
    ensures Quiet(s, s.(tasks := CancelPending(s.tasks, run)))
  {}

  lemma RecoverOneIsQuiet(s: State, now: Time, p: Pick)
    ensures Quiet(s, RecoverOne(s, now, p))
  {
    if Expired(s, now, p.task) {
      var exit := ExitStatus(p.seen, s.tasks[p.task].attempts < s.tasks[p.task].maximum);
      var ended := EndAttempt(s, now, p.task, exit);
      EndIsQuiet(s, now, p.task, exit);
      FailRunIsQuiet(ended, now, s.tasks[p.task].run);
      QuietCompose(s, ended, ended.(runs := FailRun(s.runs, s.tasks[p.task].run, now)));
    } else {
      NothingIsQuiet(s);
    }
  }

  lemma {:induction false} RecoverIsQuiet(s: State, now: Time, picked: seq<Pick>)
    ensures Quiet(s, RecoverExpired(s, now, picked))
    decreases |picked|
  {
    if picked == [] {
      NothingIsQuiet(s);
    } else {
      var m := RecoverOne(s, now, picked[0]);
      RecoverOneIsQuiet(s, now, picked[0]);
      RecoverIsQuiet(m, now, picked[1..]);
      QuietCompose(s, m, RecoverExpired(s, now, picked));
    }
  }

  lemma DispatchOneIsQuiet(s: State, now: Time, id: TaskId)
    ensures Quiet(s, DispatchOne(s, now, id))
  {}

  lemma {:induction false} DispatchIsQuiet(s: State, now: Time, picked: seq<TaskId>)
    ensures Quiet(s, Dispatch(s, now, picked))
    decreases |picked|
  {
    if picked == [] {
      NothingIsQuiet(s);
    } else {
      var m := DispatchOne(s, now, picked[0]);
      DispatchOneIsQuiet(s, now, picked[0]);
      DispatchIsQuiet(m, now, picked[1..]);
      QuietCompose(s, m, Dispatch(s, now, picked));
    }
  }

  lemma FailIsQuiet(s: State, now: Time, id: TaskId, worker: WorkerId, retryable: bool, seen: RunStatus)
    ensures Quiet(s, FailTask(s, now, id, worker, retryable, seen))
  {
    if CanHeartbeat(s, now, id, worker) {
      var t := s.tasks[id];
      var exit := ExitStatus(seen, retryable && t.attempts < t.maximum);
      var ended := EndAttempt(s, now, id, exit);
      EndIsQuiet(s, now, id, exit);
      if exit.Dead? {
        var failed := ended.(runs := FailRun(s.runs, t.run, now));
        FailRunIsQuiet(ended, now, t.run);
        SweepIsQuiet(failed, t.run);
        QuietCompose(s, ended, failed);
        QuietCompose(s, failed, failed.(tasks := CancelPending(failed.tasks, t.run)));
      }
    } else {
      NothingIsQuiet(s);
    }
  }

  lemma WakeIsQuiet(s: State, now: Time)
    ensures Quiet(s, WakeRetries(s, now))
  {}

  lemma LeaseIsQuiet(s: State, now: Time, id: TaskId, worker: WorkerId, lease: Time)
    ensures Quiet(s, LeaseTask(s, now, id, worker, lease))
  {}

  lemma StartIsQuiet(s: State, now: Time, id: TaskId, worker: WorkerId)
    ensures Quiet(s, StartTask(s, now, id, worker))
  {}

  lemma HeartbeatIsQuiet(s: State, now: Time, id: TaskId, worker: WorkerId, lease: Time)
    ensures Quiet(s, HeartbeatTask(s, now, id, worker, lease))
  {}

  lemma CancelIsQuiet(s: State, now: Time, run: RunId)
    ensures Quiet(s, CancelRun(s, now, run))
  {
    if RunIs(s, run, RunRunning) {
      var stopped := s.(runs := s.runs[run := s.runs[run].(status := RunCancelled, completed := Some(now))]);
      assert Quiet(s, stopped);
      SweepIsQuiet(stopped, run);
      QuietCompose(s, stopped, stopped.(tasks := CancelPending(stopped.tasks, run)));
    } else {
      NothingIsQuiet(s);
    }
  }

  lemma RetryIsQuiet(s: State, now: Time, run: RunId)
    requires HasDead(s, run) ==> !RunIs(s, run, RunSucceeded)
    ensures Quiet(s, RetryRun(s, now, run))
  {}

  lemma QuietStep(s: State, x: Timed)
    requires !x.step.Create? && !x.step.Complete? && !x.step.Replay?
    requires x.step.Retry? && HasDead(s, x.step.run) ==> !RunIs(s, x.step.run, RunSucceeded)
    ensures Quiet(s, Effect(s, x))
  {
    match x.step
    case Wake => WakeIsQuiet(s, x.now);
    case Recover(picks) => RecoverIsQuiet(s, x.now, picks);
    case Send(picked) => DispatchIsQuiet(s, x.now, picked);
    case Lease(id, worker, lease) => LeaseIsQuiet(s, x.now, id, worker, lease);
    case Start(id, worker) => StartIsQuiet(s, x.now, id, worker);
    case Heartbeat(id, worker, lease) => HeartbeatIsQuiet(s, x.now, id, worker, lease);
    case Fail(id, worker, retryable, seen) => FailIsQuiet(s, x.now, id, worker, retryable, seen);
    case Cancel(run) => CancelIsQuiet(s, x.now, run);
    case Retry(run) => RetryIsQuiet(s, x.now, run);
  }

  ghost predicate ByOperator(x: Step) {
    x.Retry? || x.Replay?
  }

  lemma AutomaticStep(s: State, x: Timed)
    requires !ByOperator(x.step)
    ensures AutomaticOk(s, Effect(s, x), x.now)
  {
    match x.step
    case Create(run, key, dag, ids) => CreateMoves(s, x.now, run, key, dag, ids);
    case Wake => WakeMoves(s, x.now);
    case Recover(picks) => RecoverMoves(s, x.now, picks);
    case Send(picked) => DispatchMoves(s, x.now, picked);
    case Lease(id, worker, lease) => LeaseMoves(s, x.now, id, worker, lease);
    case Start(id, worker) => StartMoves(s, x.now, id, worker);
    case Heartbeat(id, worker, lease) => HeartbeatMoves(s, x.now, id, worker, lease);
    case Complete(id, worker) => CompleteMoves(s, x.now, id, worker);
    case Fail(id, worker, retryable, seen) => FailMoves(s, x.now, id, worker, retryable, seen);
    case Cancel(run) => CancelMoves(s, x.now, run);
  }

  lemma AnyStep(s: State, x: Timed)
    requires AttemptedAreReleased(s)
    ensures StepOk(s, Effect(s, x), x.now)
  {
    match x.step
    case Retry(run) => RetryMoves(s, x.now, run);
    case Replay(id) => ReplayMoves(s, x.now, id);
    case _ =>
      AutomaticStep(s, x);
      AutomaticIsStep(s, Effect(s, x), x.now);
  }
}
