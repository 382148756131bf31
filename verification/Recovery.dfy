/** Death and replay, and the reading of the invariants in the terms of the tables. */
module Recovery {
  import opened TaskStates
  import opened Lifecycle
  import opened Rows
  import opened Steps
  import opened Causes
  import opened Invariants

  // ---------------------------------------------------------------------
  // Death and replay
  // ---------------------------------------------------------------------

  /** What a sibling looks like after the run died and was replayed at time `later`. */
  ghost function Restored(t: Task, later: Time): (u: Task) {
    match t.status
    case Dispatching => t.(status := Ready)
    case RetryWait => if t.available > later then t else t.(status := Ready)
    case _ => t
  }

  ghost predicate Undamaged(s: State, run: RunId) {
    forall id :: In(s, id, run) ==> !s.tasks[id].status.Dead? && !s.tasks[id].status.Cancelled?
  }

  lemma DeathSweeps(s: State, now: Time, id: TaskId, worker: WorkerId, retryable: bool, seen: RunStatus)
    requires CanHeartbeat(s, now, id, worker) && RunIs(s, s.tasks[id].run, RunRunning)
    requires !(retryable && s.tasks[id].attempts < s.tasks[id].maximum) && !seen.RunCancelled?
    ensures var dead := FailTask(s, now, id, worker, retryable, seen);
            && SweptAround(s, dead, id)
            && dead.runs == FailRun(s.runs, s.tasks[id].run, now)
            && dead.tasks[id] == Ended(s.tasks[id], Dead, now)
  {}

  /** How a death at `id` leaves the other tasks. */
  ghost predicate SweptAround(s: State, dead: State, id: TaskId)
    requires id in s.tasks
  {
    && dead.tasks.Keys == s.tasks.Keys
    && dead.tasks[id].run == s.tasks[id].run
    && dead.tasks[id].status.Dead?
    && forall i :: i in s.tasks && i != id ==>
         dead.tasks[i] == if In(s, i, s.tasks[id].run) && s.tasks[i].status.Pending()
                          then s.tasks[i].(status := Cancelled) else s.tasks[i]
  }

  lemma RebuildRestores(s: State, dead: State, later: Time, id: TaskId, i: TaskId, revived: map<TaskId, Task>)
    requires id in s.tasks && i in s.tasks && i != id && SweptAround(s, dead, id)
    requires s.tasks[id].status.Held()
    requires revived == dead.tasks[id := Revived(dead.tasks[id], later)]
    requires In(s, i, s.tasks[id].run) && s.tasks[i].status.Pending()
    requires ExactAt(s.tasks, i) && RowOk(s.tasks[i], s.clock) && s.clock <= later
    ensures s.tasks[i].(status := RebuiltStatus(revived, i, later)) == Restored(s.tasks[i], later)
  {
    SameSuccessSameUpstream(s.tasks, revived, i);
  }

  lemma ReplayRestores(s: State, dead: State, later: Time, id: TaskId, i: TaskId)
    requires id in s.tasks && i in s.tasks && i != id && SweptAround(s, dead, id) && CanReplay(dead, id)
    requires s.tasks[id].status.Held() && Undamaged(s, s.tasks[id].run)
    requires ExactAt(s.tasks, i) && RowOk(s.tasks[i], s.clock) && s.clock <= later
    ensures i in ReplayDead(dead, later, id).tasks
    ensures ReplayDead(dead, later, id).tasks[i] ==
            if In(s, i, s.tasks[id].run) then Restored(s.tasks[i], later) else s.tasks[i]
  {
    var revived := dead.tasks[id := Revived(dead.tasks[id], later)];
    if In(s, i, s.tasks[id].run) && s.tasks[i].status.Pending() {
      RebuildRestores(s, dead, later, id, i, revived);
    }
  }

  lemma RunRestored(s: State, dead: State, now: Time, later: Time, id: TaskId)
    requires id in s.tasks && SweptAround(s, dead, id) && RunIs(s, s.tasks[id].run, RunRunning)
    requires s.runs[s.tasks[id].run].completed == None
    requires dead.runs == FailRun(s.runs, s.tasks[id].run, now)
    ensures CanReplay(dead, id) && RunIs(dead, s.tasks[id].run, RunFailed)
    ensures ReplayDead(dead, later, id).runs == s.runs
    ensures ReplayDead(dead, later, id).tasks.Keys == s.tasks.Keys
    ensures ReplayDead(dead, later, id).tasks[id] == Revived(dead.tasks[id], later)
  {}

  /**
   * FailTask to DEAD followed by ReplayDead undoes the death: the run is as before, siblings that
   * were blocked, ready, held or done are untouched, dispatched ones are ready again, backoffs keep
   * running, and the failed task is ready with one more attempt allowed if it had none left.
   */
  lemma DeathReplayRoundTrip(s: State, now: Time, later: Time, id: TaskId, worker: WorkerId, retryable: bool,
                             seen: RunStatus)
    requires Inv(s) && s.clock <= now <= later
    requires CanHeartbeat(s, now, id, worker) && RunIs(s, s.tasks[id].run, RunRunning)
    requires Undamaged(s, s.tasks[id].run)
    requires !(retryable && s.tasks[id].attempts < s.tasks[id].maximum) && !seen.RunCancelled?
    ensures var dead := FailTask(s, now, id, worker, retryable, seen);
            var back := ReplayDead(dead, later, id);
            && RunIs(dead, s.tasks[id].run, RunFailed)
            && back.runs == s.runs
            && back.tasks.Keys == s.tasks.Keys
            && (forall i :: i in s.tasks && i != id ==>
                  back.tasks[i] == if In(s, i, s.tasks[id].run) then Restored(s.tasks[i], later) else s.tasks[i])
            && back.tasks[id] == Revived(Ended(s.tasks[id], Dead, now), later)
  {
    var dead := FailTask(s, now, id, worker, retryable, seen);
    DeathSweeps(s, now, id, worker, retryable, seen);
    RoundTripAround(s, dead, now, later, id);
  }

  lemma RoundTripAround(s: State, dead: State, now: Time, later: Time, id: TaskId)
    requires Inv(s) && s.clock <= now <= later && id in s.tasks && s.tasks[id].status.Held()
    requires RunIs(s, s.tasks[id].run, RunRunning) && Undamaged(s, s.tasks[id].run) && SweptAround(s, dead, id)
    requires dead.runs == FailRun(s.runs, s.tasks[id].run, now)
    ensures var back := ReplayDead(dead, later, id);
            && RunIs(dead, s.tasks[id].run, RunFailed)
            && back.runs == s.runs
            && back.tasks.Keys == s.tasks.Keys
            && (forall i :: i in s.tasks && i != id ==>
                  back.tasks[i] == if In(s, i, s.tasks[id].run) then Restored(s.tasks[i], later) else s.tasks[i])
            && back.tasks[id] == Revived(dead.tasks[id], later)
  {
    assert RunSound(s, s.tasks[id].run);
    RunRestored(s, dead, now, later, id);
    var back := ReplayDead(dead, later, id);
    forall i | i in s.tasks && i != id
      ensures back.tasks[i] == if In(s, i, s.tasks[id].run) then Restored(s.tasks[i], later) else s.tasks[i]
    {
      assert ExactAt(s.tasks, i) && RowOk(s.tasks[i], s.clock);
      ReplayRestores(s, dead, later, id, i);
    }
  }

  // ---------------------------------------------------------------------
  // Readings of the invariant
  // ---------------------------------------------------------------------

  /** Incremental promotion agrees with recomputing readiness from scratch, in every reachable state. */
  lemma ExactReadiness(xs: seq<Timed>, id: TaskId)
    requires Legal(EMPTY, xs) && id in After(EMPTY, xs).tasks
    ensures var s := After(EMPTY, xs);
            !s.tasks[id].status.Cancelled? ==>
              (s.tasks[id].status.Blocked? <==>
                 exists u :: u in s.tasks[id].upstream && u in s.tasks && !s.tasks[u].status.Succeeded?)
  {
    Reachable(xs);
    var s := After(EMPTY, xs);
    assert ExactAt(s.tasks, id);
    if !UpstreamDone(s.tasks, id) {
      var u :| u in s.tasks[id].upstream && u in s.tasks && !s.tasks[u].status.Succeeded?;
    }
  }

  /** A run is SUCCEEDED exactly when all its tasks are, and completed_at is null exactly while it is RUNNING. */
  lemma CompletionIsExact(xs: seq<Timed>, run: RunId)
    requires Legal(EMPTY, xs) && run in After(EMPTY, xs).runs
    ensures var s := After(EMPTY, xs);
            && (RunIs(s, run, RunSucceeded) <==> AllSucceeded(s.tasks, run))
            && (s.runs[run].completed.None? <==> RunIs(s, run, RunRunning))
            && exists id :: In(s, id, run)
  {
    Reachable(xs);
    var s := After(EMPTY, xs);
    assert RunSound(s, run);
    var id :| id in s.tasks && s.tasks[id].run == run;
    assert In(s, id, run);
  }

  ghost predicate AttemptReads(t: Task, i: nat)
    requires i < |t.history|
  {
    var a := t.history[i];
    var last := i == t.attempts - 1;
    && |t.history| == t.attempts
    && a.number == i + 1
    && (a.ended.None? <==> last && t.status.Held())
    && (a.ended.None? ==> t.owner == Some(a.worker) && t.expires.Some?)
    && (a.exit == Some(Succeeded) <==> last && t.status.Succeeded?)
    && (!last ==> a.ended.Some? && a.ended.value <= t.history[i + 1].started)
  }

  lemma RowReads(t: Task, clock: Time, i: nat)
    requires RowOk(t, clock) && i < |t.history|
    ensures AttemptReads(t, i)
  {
    assert AttemptOk(t, i, clock);
  }

  /**
   * The attempt rows of a task in a reachable state: as many as attempt_count says, numbered from 1, only the
   * last one open and only while held, by the lease owner; a task SUCCEEDED, DEAD or in backoff has one, and a
   * successful one is the last of a SUCCEEDED task.
   */
  lemma AttemptHistory(xs: seq<Timed>, id: TaskId)
    requires Legal(EMPTY, xs) && id in After(EMPTY, xs).tasks
    ensures var t := After(EMPTY, xs).tasks[id];
            && |t.history| == t.attempts
            && (t.status.Held() || t.status.Succeeded? || t.status.Dead? || t.status.RetryWait? ==> t.attempts > 0)
            && (t.status.Blocked? ==> t.attempts == 0)
            && forall i :: 0 <= i < |t.history| ==> AttemptReads(t, i)
  {
    Reachable(xs);
    var s := After(EMPTY, xs);
    assert RowOk(s.tasks[id], s.clock);
    forall i | 0 <= i < |s.tasks[id].history| ensures AttemptReads(s.tasks[id], i) {
      RowReads(s.tasks[id], s.clock, i);
    }
  }

  /**
   * Backoff is honoured: after an attempt that ended in RETRY_WAIT the next one starts no sooner than
   * its delay, through cancellation of siblings, recovery and replay alike.
   */
  lemma BackoffIsHonoured(xs: seq<Timed>, id: TaskId, i: nat)
    requires Legal(EMPTY, xs) && id in After(EMPTY, xs).tasks
    requires i + 1 < |After(EMPTY, xs).tasks[id].history|
    requires After(EMPTY, xs).tasks[id].history[i].exit == Some(RetryWait)
    ensures var h := After(EMPTY, xs).tasks[id].history;
            h[i].ended.Some? && h[i].ended.value + RetryDelay(h[i].number) <= h[i + 1].started
  {
    Reachable(xs);
    var s := After(EMPTY, xs);
    assert RowOk(s.tasks[id], s.clock);
    assert AttemptOk(s.tasks[id], i, s.clock);
  }

  /** A lease expiry is recorded exactly while a worker holds the task. */
  lemma LeaseColumns(xs: seq<Timed>, id: TaskId)
    requires Legal(EMPTY, xs) && id in After(EMPTY, xs).tasks
    ensures var t := After(EMPTY, xs).tasks[id];
            && (t.expires.Some? <==> t.status.Held())
            && (t.owner.Some? <==> t.status.Held() || t.status.Succeeded?)
  {
    Reachable(xs);
    assert RowOk(After(EMPTY, xs).tasks[id], After(EMPTY, xs).clock);
  }

  // ---------------------------------------------------------------------
  // Counting events
  // ---------------------------------------------------------------------

  /** The number of events of one kind about a task, over attempts 1..n. */
  ghost function Count(s: State, kind: Kind, id: TaskId, n: nat): (c: nat)
    requires id in s.tasks
  {
    if n == 0 then 0 else s.outbox[TaskEvent(kind, s.tasks[id].run, id, n)] + Count(s, kind, id, n - 1)
  }

  ghost function Exits(s: State, id: TaskId, n: nat): (c: nat)
    requires id in s.tasks
  {
    Count(s, TaskSucceeded, id, n) + Count(s, TaskRetryWait, id, n)
    + Count(s, TaskDead, id, n) + Count(s, TaskCancelled, id, n)
  }

  lemma {:induction false} CountLeases(s: State, id: TaskId, n: nat)
    requires id in s.tasks && forall k: nat :: LeasedOnce(s, id, k)
    ensures Count(s, TaskLeased, id, n) == if n <= s.tasks[id].attempts then n else s.tasks[id].attempts
  {
    if n > 0 {
      assert LeasedOnce(s, id, n);
      CountLeases(s, id, n - 1);
    }
  }

  /** One exit event per closed attempt. */
  lemma ExitsOfOne(s: State, id: TaskId, n: nat)
    requires id in s.tasks && n >= 1 && RowOk(s.tasks[id], s.clock) && Balanced(s, id)
    ensures Exits(s, id, n) ==
            Exits(s, id, n - 1)
            + if n < s.tasks[id].attempts || (n == s.tasks[id].attempts && !s.tasks[id].status.Held()) then 1 else 0
  {
    var t := s.tasks[id];
    assert ExitedOnce(s, id, n, TaskSucceeded);
    assert ExitedOnce(s, id, n, TaskRetryWait);
    assert ExitedOnce(s, id, n, TaskDead);
    assert ExitedOnce(s, id, n, TaskCancelled);
    if n <= t.attempts {
      assert AttemptOk(t, n - 1, s.clock);
    }
  }

  ghost function ClosedAttempts(t: Task): (n: int) {
    t.attempts - if t.status.Held() then 1 else 0
  }

  lemma {:induction false} CountExits(s: State, id: TaskId, n: nat)
    requires id in s.tasks && RowOk(s.tasks[id], s.clock) && Balanced(s, id)
    ensures Exits(s, id, n) == Min(n, ClosedAttempts(s.tasks[id]))
  {
    if n > 0 {
      ExitsOfOne(s, id, n);
      CountExits(s, id, n - 1);
    }
  }

  /**
   * Conservation: attempt_count equals the task.leased events and the exit events plus one while held,
   * and dispatches cover both the attempts and a wait for a worker. Nothing is counted outside 1..attempt_count.
   */
  lemma LedgerBalances(xs: seq<Timed>, id: TaskId, n: nat)
    requires Legal(EMPTY, xs) && id in After(EMPTY, xs).tasks && n >= After(EMPTY, xs).tasks[id].attempts
    ensures var s := After(EMPTY, xs);
            var t := s.tasks[id];
            && Count(s, TaskLeased, id, n) == t.attempts
            && Exits(s, id, n) + (if t.status.Held() then 1 else 0) == t.attempts
            && s.outbox[TaskEvent(TaskDispatch, t.run, id, 0)] >= t.attempts + (if t.status.Dispatching? then 1 else 0)
  {
    Reachable(xs);
    var s := After(EMPTY, xs);
    assert RowOk(s.tasks[id], s.clock) && Balanced(s, id);
    CountLeases(s, id, n);
    CountExits(s, id, n);
  }

  // ---------------------------------------------------------------------
  // The transitions table
  // ---------------------------------------------------------------------

  lemma CauseFollowsTable(s: State, x: Timed, r: State, id: TaskId)
    requires id in s.tasks && id in r.tasks && RowCause(s, x, r, id)
    requires r.tasks[id].status != s.tasks[id].status
    ensures CanTransition(s.tasks[id].status, r.tasks[id].status) <==> !ByOperator(x.step)
  {}

  /** A change of status is in the transitions table exactly when RetryRun and ReplayDead did not make it. */
  lemma TableCoversAllButRevival(s: State, x: Timed, id: TaskId)
    requires Inv(s) && s.clock <= x.now && id in s.tasks
    ensures id in Apply(s, x).tasks
    ensures Apply(s, x).tasks[id].status != s.tasks[id].status ==>
              (CanTransition(s.tasks[id].status, Apply(s, x).tasks[id].status) <==> !ByOperator(x.step))
  {
    StepIsNext(s, x);
    assert RowCause(s, x, Apply(s, x), id);
    if Apply(s, x).tasks[id].status != s.tasks[id].status {
      CauseFollowsTable(s, x, Apply(s, x), id);
    }
  }
}
