/** Which transaction can have made a given change, read off the two states. */
module Causes {
  import opened TaskStates
  import opened Lifecycle
  import opened Rows
  import opened Steps

  /** A task of the given run. */
  ghost predicate In(s: State, id: TaskId, run: RunId) {
    id in s.tasks && s.tasks[id].run == run
  }

  /** Why a changed row changed. */
  ghost predicate RowCause(s: State, x: Timed, r: State, id: TaskId)
    requires id in s.tasks && id in r.tasks
  {
    var t, u := s.tasks[id], r.tasks[id];
    u == t ||
    match x.step
    case Create(_, _, _, _) => false
    case Wake => Woken(t, u, x.now)
    case Recover(picks) =>
      Expired(s, x.now, id) && Stopped(t, u, x.now)
      && exists p :: p in picks && p.task == id && u.status == ExitStatus(p.seen, t.attempts < t.maximum)
    case Send(_) => Sent(t, u, x.now)
    case Lease(task, worker, _) => task == id && Taken(t, u, x.now) && u.owner == Some(worker)
    case Start(task, worker) => task == id && CanStart(s, x.now, id, worker) && Started(t, u, x.now)
    case Heartbeat(task, worker, _) => task == id && Holds(s, x.now, id, worker) && Renewed(t, u)
    case Complete(task, worker) =>
      || (task == id && CanComplete(s, x.now, id, worker) && Completed(t, u, x.now))
      || (&& task != id && In(s, task, t.run) && CanComplete(s, x.now, task, worker)
          && Unblocked(t, u, x.now) && UpstreamDone(r.tasks, id))
    case Fail(task, worker, retryable, seen) =>
      || (&& task == id && Holds(s, x.now, id, worker) && Stopped(t, u, x.now)
          && u.status == ExitStatus(seen, retryable && t.attempts < t.maximum))
      || (&& task != id && In(s, task, t.run) && Holds(s, x.now, task, worker)
          && Swept(t, u) && !RunIs(r, t.run, RunRunning))
    case Cancel(run) => t.run == run && Swept(t, u) && RunIs(r, run, RunCancelled)
    case Retry(run) => t.run == run && Reborn(t, u, x.now)
    case Replay(task) =>
      && In(s, task, t.run) && s.tasks[task].status.Dead?
      && if task == id then Reborn(t, u, x.now) else Rebuilt(t, u, x.now)
  }

  /** Why a changed run changed. */
  ghost predicate RunCause(s: State, x: Timed, r: State, run: RunId)
    requires run in s.runs && run in r.runs
  {
    var a, b := s.runs[run], r.runs[run];
    b == a ||
    (&& b.key == a.key
     && match x.step
        case Recover(_) =>
          a.status.RunRunning? && b.status.RunFailed? && exists id :: In(s, id, run) && Expired(s, x.now, id)
        case Fail(task, worker, _, _) =>
          a.status.RunRunning? && b.status.RunFailed? && In(s, task, run) && Holds(s, x.now, task, worker)
        case Complete(task, worker) =>
          a.status.RunRunning? && b.status.RunSucceeded? && In(s, task, run) && CanComplete(s, x.now, task, worker)
        case Cancel(q) => q == run && a.status.RunRunning? && b.status.RunCancelled?
        case Retry(q) => q == run && b.status.RunRunning? && HasDead(s, run)
        case Replay(task) =>
          In(s, task, run) && s.tasks[task].status.Dead? && a.status.RunFailed? && b.status.RunRunning?
        case _ => false)
  }

  ghost predicate Explained(s: State, x: Timed, r: State) {
    && (forall id :: id in s.tasks ==> id in r.tasks && RowCause(s, x, r, id))
    && (forall run :: run in s.runs ==> run in r.runs && RunCause(s, x, r, run))
  }

  // ---------------------------------------------------------------------
  // The batches
  // ---------------------------------------------------------------------

  ghost predicate RecoveredRow(s: State, r: State, now: Time, picks: seq<Pick>, id: TaskId)
    requires id in s.tasks && id in r.tasks
  {
    var t, u := s.tasks[id], r.tasks[id];
    u == t ||
    (&& Expired(s, now, id) && Stopped(t, u, now)
     && exists p :: p in picks && p.task == id && u.status == ExitStatus(p.seen, t.attempts < t.maximum))
  }

  ghost predicate RecoveredRun(s: State, r: State, now: Time, run: RunId)
    requires run in s.runs && run in r.runs
  {
    var a, b := s.runs[run], r.runs[run];
    b == a ||
    (&& b.key == a.key && a.status.RunRunning? && b.status.RunFailed?
     && exists id :: In(s, id, run) && Expired(s, now, id))
  }

  ghost predicate Recovered(s: State, r: State, now: Time, picks: seq<Pick>) {
    && r.tasks.Keys == s.tasks.Keys
    && (forall id :: id in s.tasks ==> RecoveredRow(s, r, now, picks, id))
    && r.runs.Keys == s.runs.Keys
    && (forall run :: run in s.runs ==> RecoveredRun(s, r, now, run))
  }

  lemma RecoveredOne(s: State, now: Time, p: Pick)
    ensures Recovered(s, RecoverOne(s, now, p), now, [p])
  {
    var r := RecoverOne(s, now, p);
    forall run | run in s.runs ensures RecoveredRun(s, r, now, run) {
      if r.runs[run] != s.runs[run] {
        assert In(s, p.task, run) && Expired(s, now, p.task);
      }
    }
    forall id | id in s.tasks ensures id in r.tasks && RecoveredRow(s, r, now, [p], id) {
      if Expired(s, now, p.task) && id == p.task {
        assert p in [p];
        assert Stopped(s.tasks[id], r.tasks[id], now);
      }
    }
  }

  lemma RecoveredBoth(s: State, m: State, r: State, now: Time, p: Pick, rest: seq<Pick>)
    requires Recovered(s, m, now, [p]) && Recovered(m, r, now, rest)
    ensures Recovered(s, r, now, [p] + rest)
  {
    forall id | id in s.tasks ensures id in r.tasks && RecoveredRow(s, r, now, [p] + rest, id) {
      assert RecoveredRow(s, m, now, [p], id) && RecoveredRow(m, r, now, rest, id);
      if m.tasks[id] != s.tasks[id] {
        assert p in [p] + rest;
      } else if r.tasks[id] != s.tasks[id] {
        var q :| q in rest && q.task == id
                 && r.tasks[id].status == ExitStatus(q.seen, s.tasks[id].attempts < s.tasks[id].maximum);
        assert q in [p] + rest;
        assert Expired(m, now, id);
      }
    }
    forall run | run in s.runs ensures RecoveredRun(s, r, now, run) {
      assert RecoveredRun(s, m, now, run) && RecoveredRun(m, r, now, run);
      if m.runs[run] == s.runs[run] && r.runs[run] != s.runs[run] {
        var id :| In(m, id, run) && Expired(m, now, id);
        if id in s.tasks {
          assert RecoveredRow(s, m, now, [p], id);
        }
        assert In(s, id, run) && Expired(s, now, id);
      }
    }
  }

  lemma {:induction false} RecoverExplained(s: State, now: Time, picks: seq<Pick>)
    ensures Recovered(s, RecoverExpired(s, now, picks), now, picks)
    decreases |picks|
  {
    if picks != [] {
      var m := RecoverOne(s, now, picks[0]);
      RecoveredOne(s, now, picks[0]);
      RecoverExplained(m, now, picks[1..]);
      RecoveredBoth(s, m, RecoverExpired(s, now, picks), now, picks[0], picks[1..]);
      assert [picks[0]] + picks[1..] == picks;
    }
  }

  ghost predicate Dispatched(s: State, r: State, now: Time) {
    && r.runs == s.runs
    && forall id :: id in s.tasks ==>
         id in r.tasks && (r.tasks[id] == s.tasks[id] || Sent(s.tasks[id], r.tasks[id], now))
  }

  lemma {:induction false} DispatchExplained(s: State, now: Time, picked: seq<TaskId>)
    ensures Dispatched(s, Dispatch(s, now, picked), now)
    decreases |picked|
  {
    if picked != [] {
      DispatchExplained(DispatchOne(s, now, picked[0]), now, picked[1..]);
    }
  }

  // ---------------------------------------------------------------------
  // Every step
  // ---------------------------------------------------------------------

  lemma CompleteExplained(s: State, now: Time, id: TaskId, worker: WorkerId)
    ensures Explained(s, At(now, Complete(id, worker)), CompleteTask(s, now, id, worker))
  {
    if CanComplete(s, now, id, worker) {
      var x, r := At(now, Complete(id, worker)), CompleteTask(s, now, id, worker);
      var done := s.tasks[id := Finished(s.tasks[id], now)];
      forall i | i in s.tasks ensures i in r.tasks && RowCause(s, x, r, i) {
        if i != id && Unblocks(done, id, i) {
          assert UpstreamDone(r.tasks, i);
          assert Unblocked(s.tasks[i], r.tasks[i], now);
        }
      }
    }
  }

  lemma FailExplainedRow(s: State, now: Time, id: TaskId, worker: WorkerId, retryable: bool, seen: RunStatus, i: TaskId)
    requires CanHeartbeat(s, now, id, worker) && i in s.tasks
    ensures i in FailTask(s, now, id, worker, retryable, seen).tasks
    ensures RowCause(s, At(now, Fail(id, worker, retryable, seen)), FailTask(s, now, id, worker, retryable, seen), i)
  {
    if i == id {
      assert Stopped(s.tasks[i], FailTask(s, now, id, worker, retryable, seen).tasks[i], now);
    }
  }

  lemma FailExplained(s: State, now: Time, id: TaskId, worker: WorkerId, retryable: bool, seen: RunStatus)
    ensures Explained(s, At(now, Fail(id, worker, retryable, seen)), FailTask(s, now, id, worker, retryable, seen))
  {
    if CanHeartbeat(s, now, id, worker) {
      var x, r := At(now, Fail(id, worker, retryable, seen)), FailTask(s, now, id, worker, retryable, seen);
      forall i | i in s.tasks ensures i in r.tasks && RowCause(s, x, r, i) {
        FailExplainedRow(s, now, id, worker, retryable, seen, i);
      }
      forall run | run in s.runs ensures run in r.runs && RunCause(s, x, r, run) {
        FailExplainedRun(s, now, id, worker, retryable, seen, run);
      }
    }
  }

  lemma FailExplainedRun(s: State, now: Time, id: TaskId, worker: WorkerId, retryable: bool, seen: RunStatus,
                         run: RunId)
    requires run in s.runs
    ensures run in FailTask(s, now, id, worker, retryable, seen).runs
    ensures RunCause(s, At(now, Fail(id, worker, retryable, seen)), FailTask(s, now, id, worker, retryable, seen), run)
  {}

  lemma RetryExplained(s: State, now: Time, run: RunId)
    ensures Explained(s, At(now, Retry(run)), RetryRun(s, now, run))
  {
    var x, r := At(now, Retry(run)), RetryRun(s, now, run);
    forall i | i in s.tasks ensures i in r.tasks && RowCause(s, x, r, i) {
      assert r.tasks[i] == s.tasks[i] || Reborn(s.tasks[i], r.tasks[i], now);
    }
  }

  lemma ReplayExplained(s: State, now: Time, id: TaskId)
    requires AttemptedAreReleased(s)
    ensures Explained(s, At(now, Replay(id)), ReplayDead(s, now, id))
  {
    if CanReplay(s, id) {
      var x, r := At(now, Replay(id)), ReplayDead(s, now, id);
      var revived := s.tasks[id := Revived(s.tasks[id], now)];
      forall i | i in s.tasks ensures i in r.tasks && RowCause(s, x, r, i) {
        if i != id && s.tasks[i].run == s.tasks[id].run && s.tasks[i].status.Cancelled? {
          assert UpstreamDone(s.tasks, i) ==> UpstreamDone(revived, i);
          assert Rebuilt(s.tasks[i], r.tasks[i], now);
        }
      }
    }
  }

  lemma CreateExplained(s: State, now: Time, step: Step)
    requires step.Create?
    ensures Explained(s, At(now, step), CreateRun(s, now, step.run, step.key, step.dag, step.ids))
  {
    var r := CreateRun(s, now, step.run, step.key, step.dag, step.ids);
    if r != s {
      NewIdsAreNew(s, step.run, step.dag, step.ids, now);
      WithRunExplained(s, At(now, step), NewTasks(step.run, step.dag, step.ids, now));
    }
  }

  lemma WithRunExplained(s: State, x: Timed, rows: map<TaskId, Task>)
    requires x.step.Create? && x.step.run !in s.runs
    requires forall i :: i in s.tasks ==> i !in rows
    ensures Explained(s, x, WithRun(s, x.step.run, x.step.key, rows))
  {}

  lemma LeaseExplained(s: State, now: Time, id: TaskId, worker: WorkerId, lease: Time)
    ensures Explained(s, At(now, Lease(id, worker, lease)), LeaseTask(s, now, id, worker, lease))
  {}

  lemma StartExplained(s: State, now: Time, id: TaskId, worker: WorkerId)
    ensures Explained(s, At(now, Start(id, worker)), StartTask(s, now, id, worker))
  {}

  lemma HeartbeatExplained(s: State, now: Time, id: TaskId, worker: WorkerId, lease: Time)
    ensures Explained(s, At(now, Heartbeat(id, worker, lease)), HeartbeatTask(s, now, id, worker, lease))
  {}

  lemma CancelExplained(s: State, now: Time, run: RunId)
    ensures Explained(s, At(now, Cancel(run)), CancelRun(s, now, run))
  {}

  lemma WakeExplained(s: State, now: Time)
    ensures Explained(s, At(now, Wake), WakeRetries(s, now))
  {}

  lemma SendExplained(s: State, now: Time, picked: seq<TaskId>)
    ensures Explained(s, At(now, Send(picked)), Dispatch(s, now, picked))
  {
    DispatchExplained(s, now, picked);
  }

  lemma RecoverStepExplained(s: State, now: Time, picks: seq<Pick>)
    ensures Explained(s, At(now, Recover(picks)), RecoverExpired(s, now, picks))
  {
    var x, r := At(now, Recover(picks)), RecoverExpired(s, now, picks);
    RecoverExplained(s, now, picks);
    forall i | i in s.tasks ensures i in r.tasks && RowCause(s, x, r, i) {
      assert RecoveredRow(s, r, now, picks, i);
    }
    forall run | run in s.runs ensures run in r.runs && RunCause(s, x, r, run) {
      assert RecoveredRun(s, r, now, run);
    }
  }

  lemma WorkerStepExplained(s: State, x: Timed)
    requires x.step.Lease? || x.step.Start? || x.step.Heartbeat? || x.step.Complete? || x.step.Fail?
    ensures Explained(s, x, Effect(s, x))
  {
    match x.step
    case Lease(id, worker, lease) => LeaseExplained(s, x.now, id, worker, lease);
    case Start(id, worker) => StartExplained(s, x.now, id, worker);
    case Heartbeat(id, worker, lease) => HeartbeatExplained(s, x.now, id, worker, lease);
    case Complete(id, worker) => CompleteExplained(s, x.now, id, worker);
    case Fail(id, worker, retryable, seen) => FailExplained(s, x.now, id, worker, retryable, seen);
  }

  lemma SchedulerStepExplained(s: State, x: Timed)
    requires x.step.Wake? || x.step.Recover? || x.step.Send?
    ensures Explained(s, x, Effect(s, x))
  {
    match x.step
    case Wake => WakeExplained(s, x.now);
    case Recover(picks) => RecoverStepExplained(s, x.now, picks);
    case Send(picked) => SendExplained(s, x.now, picked);
  }

  lemma OperatorStepExplained(s: State, x: Timed)
    requires AttemptedAreReleased(s) && (x.step.Cancel? || x.step.Retry? || x.step.Replay?)
    ensures Explained(s, x, Effect(s, x))
  {
    if x.step.Cancel? {
      assert x == At(x.now, Cancel(x.step.run)) && Effect(s, x) == CancelRun(s, x.now, x.step.run);
      CancelExplained(s, x.now, x.step.run);
    } else if x.step.Retry? {
      assert x == At(x.now, Retry(x.step.run)) && Effect(s, x) == RetryRun(s, x.now, x.step.run);
      RetryExplained(s, x.now, x.step.run);
    } else {
      assert x == At(x.now, Replay(x.step.task)) && Effect(s, x) == ReplayDead(s, x.now, x.step.task);
      ReplayExplained(s, x.now, x.step.task);
    }
  }

  lemma StepExplained(s: State, x: Timed)
    requires AttemptedAreReleased(s)
    ensures Explained(s, x, Effect(s, x))
  {
    if x.step.Wake? || x.step.Recover? || x.step.Send? {
      SchedulerStepExplained(s, x);
    } else if x.step.Create? {
      CreateExplained(s, x.now, x.step);
    } else if x.step.Cancel? || x.step.Retry? || x.step.Replay? {
      OperatorStepExplained(s, x);
    } else {
      WorkerStepExplained(s, x);
    }
  }
}
