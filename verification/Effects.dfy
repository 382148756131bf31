/**
 * What each transaction does to the tables, row by row and column by column, said without the functions
 * that compute it, and that those functions do it.
 */
module Effects {
  import opened TaskStates
  import opened Lifecycle
  import Dag

  // ---------------------------------------------------------------------
  // One row
  // ---------------------------------------------------------------------

  /** Of the task and run rows only this task's may differ. */
  ghost predicate OnlyRow(s: State, r: State, id: TaskId) {
    && id in s.tasks && r.tasks.Keys == s.tasks.Keys && r.runs == s.runs
    && forall i :: i in s.tasks && i != id ==> r.tasks[i] == s.tasks[i]
  }

  /** The worker holds the task, in one of these statuses, under a lease that has not run out. */
  ghost predicate WorksOn(s: State, now: Time, id: TaskId, worker: WorkerId, statuses: set<TaskStatus>) {
    && id in s.tasks && s.tasks[id].status in statuses && s.tasks[id].owner == Some(worker)
    && s.tasks[id].expires.Some? && now < s.tasks[id].expires.value && s.tasks[id].run in s.runs
  }

  /** And the run is going. */
  ghost predicate WorksOnRunning(s: State, now: Time, id: TaskId, worker: WorkerId, status: TaskStatus) {
    WorksOn(s, now, id, worker, {status}) && s.runs[s.tasks[id].run].status == RunRunning
  }

  /** One more attempt, by this worker, under a lease of the given length. */
  ghost predicate LeasedTo(s: State, r: State, now: Time, id: TaskId, worker: WorkerId, lease: Time) {
    && OnlyRow(s, r, id)
    && var t, u := s.tasks[id], r.tasks[id];
       && u.status == Leased && u.owner == Some(worker) && u.expires == Some(now + lease)
       && u.attempts == t.attempts + 1
       && u.history == t.history + [Attempt(u.attempts, worker, t.available, now, None, None, None)]
       && u == t.(status := u.status, owner := u.owner, expires := u.expires, attempts := u.attempts,
                  history := u.history)
       && r.outbox == s.outbox + multiset{TaskEvent(TaskLeased, t.run, id, u.attempts)}
  }

  lemma LeaseDoes(s: State, now: Time, id: TaskId, worker: WorkerId, lease: Time, r: State)
    requires r == LeaseTask(s, now, id, worker, lease).(clock := now)
    ensures if id in s.tasks && s.tasks[id].status == Dispatching
            then LeasedTo(s, r, now, id, worker, lease) else r == s.(clock := now)
  {}

  /** RUNNING, and the current attempt is marked as executing unless it was. */
  ghost predicate SetGoing(s: State, r: State, now: Time, id: TaskId) {
    && OnlyRow(s, r, id) && r.outbox == s.outbox
    && var t, u := s.tasks[id], r.tasks[id];
       && u.status == Running && u == t.(status := u.status, history := u.history)
       && |u.history| == |t.history|
       && forall i :: 0 <= i < |t.history| ==>
            u.history[i] == if t.history[i].number == t.attempts && t.history[i].executing == None
                            then t.history[i].(executing := Some(now)) else t.history[i]
  }

  lemma StartDoes(s: State, now: Time, id: TaskId, worker: WorkerId, r: State)
    requires r == StartTask(s, now, id, worker).(clock := now)
    ensures if WorksOnRunning(s, now, id, worker, Leased) then SetGoing(s, r, now, id) else r == s.(clock := now)
  {}

  /** The lease runs for the given length from now, and nothing else has changed. */
  ghost predicate Prolonged(s: State, r: State, now: Time, id: TaskId, lease: Time) {
    && OnlyRow(s, r, id) && r.outbox == s.outbox
    && r.tasks[id] == s.tasks[id].(expires := Some(now + lease))
  }

  lemma HeartbeatDoes(s: State, now: Time, id: TaskId, worker: WorkerId, lease: Time, r: State)
    requires r == HeartbeatTask(s, now, id, worker, lease).(clock := now)
    ensures if WorksOn(s, now, id, worker, HELD) then Prolonged(s, r, now, id, lease) else r == s.(clock := now)
  {}

  // ---------------------------------------------------------------------
  // The end of an attempt
  // ---------------------------------------------------------------------

  /** The current attempt is over, with the given outcome; the others are as before. */
  ghost predicate Closes(t: Task, u: Task, exit: TaskStatus, now: Time) {
    && |u.history| == |t.history|
    && forall i :: 0 <= i < |t.history| ==>
         u.history[i] == if t.history[i].number == t.attempts
                         then t.history[i].(ended := Some(now), exit := Some(exit)) else t.history[i]
  }

  /** The task is nobody's any more; only a retry wait puts off its next attempt. */
  ghost predicate LetGo(t: Task, u: Task, exit: TaskStatus, now: Time) {
    && u.status == exit && u.owner == None && u.expires == None && Closes(t, u, exit, now)
    && u.available == (if exit == RetryWait then now + RetryDelay(t.attempts) else now)
    && u == t.(status := u.status, available := u.available, owner := u.owner, expires := u.expires,
               history := u.history)
  }

  /** How an attempt that did not succeed ends, by the run status read and whether another may follow. */
  ghost predicate EndsIn(exit: TaskStatus, seen: RunStatus, again: bool) {
    && (exit == Cancelled <==> seen == RunCancelled)
    && (exit == RetryWait <==> seen != RunCancelled && again)
    && (exit == Dead <==> seen != RunCancelled && !again)
  }

  function EndEvent(exit: TaskStatus): (k: Kind) {
    if exit == Cancelled then TaskCancelled else if exit == RetryWait then TaskRetryWait else TaskDead
  }

  /** FAILED since now, if it was RUNNING. */
  ghost predicate FailedNow(a: Run, b: Run, now: Time) {
    b == if a.status == RunRunning then a.(status := RunFailed, completed := Some(now)) else a
  }

  /** What FailTask does: the attempt ends, and a death takes the run and the waiting siblings with it. */
  ghost predicate GivenUp(s: State, r: State, now: Time, id: TaskId, retryable: bool, seen: RunStatus) {
    && id in s.tasks && r.tasks.Keys == s.tasks.Keys && r.runs.Keys == s.runs.Keys
    && var t, exit := s.tasks[id], r.tasks[id].status;
       && EndsIn(exit, seen, retryable && t.attempts < t.maximum)
       && LetGo(t, r.tasks[id], exit, now)
       && r.outbox == s.outbox + multiset{TaskEvent(EndEvent(exit), t.run, id, t.attempts)}
       && (forall i :: i in s.tasks && i != id ==>
             r.tasks[i] == if exit == Dead && s.tasks[i].run == t.run && s.tasks[i].status in WAITING
                           then s.tasks[i].(status := Cancelled) else s.tasks[i])
       && (forall q :: q in s.runs ==>
             if exit == Dead && q == t.run then FailedNow(s.runs[q], r.runs[q], now) else r.runs[q] == s.runs[q])
  }

  lemma FailureGivesUp(s: State, now: Time, id: TaskId, worker: WorkerId, retryable: bool, seen: RunStatus, r: State)
    requires CanHeartbeat(s, now, id, worker)
    requires r == FailTask(s, now, id, worker, retryable, seen).(clock := now)
    ensures GivenUp(s, r, now, id, retryable, seen)
  {}

  lemma FailDoes(s: State, now: Time, id: TaskId, worker: WorkerId, retryable: bool, seen: RunStatus, r: State)
    requires r == FailTask(s, now, id, worker, retryable, seen).(clock := now)
    ensures if WorksOn(s, now, id, worker, HELD) then GivenUp(s, r, now, id, retryable, seen)
            else r == s.(clock := now)
  {
    if CanHeartbeat(s, now, id, worker) {
      FailureGivesUp(s, now, id, worker, retryable, seen, r);
    }
  }

  // ---------------------------------------------------------------------
  // Completion
  // ---------------------------------------------------------------------

  /** A task of the run that waited for `id` and for nothing else. */
  ghost predicate Freed(s: State, id: TaskId, c: TaskId) {
    && id in s.tasks && c in s.tasks && c != id && s.tasks[c].run == s.tasks[id].run
    && s.tasks[c].status == Blocked && id in s.tasks[c].upstream
    && forall p :: p in s.tasks[c].upstream && p in s.tasks && p != id ==> s.tasks[p].status == Succeeded
  }

  ghost predicate LastOfRun(s: State, id: TaskId) {
    && id in s.tasks
    && forall i :: i in s.tasks && s.tasks[i].run == s.tasks[id].run && i != id ==> s.tasks[i].status == Succeeded
  }

  ghost function CompletionEvents(s: State, id: TaskId, e: Event): (n: nat)
    requires id in s.tasks
  {
    var t := s.tasks[id];
    if e == TaskEvent(TaskSucceeded, t.run, id, t.attempts) then 1
    else if e.TaskEvent? && Freed(s, id, e.task) && e == TaskEvent(TaskReady, t.run, e.task, 0) then 1
    else 0
  }

  /** The task has succeeded, the tasks that waited for it alone are ready, and the run is done with its last task. */
  ghost predicate Achieved(s: State, r: State, now: Time, id: TaskId) {
    && id in s.tasks && r.tasks.Keys == s.tasks.Keys && r.runs.Keys == s.runs.Keys
    && var t, u := s.tasks[id], r.tasks[id];
       && u.status == Succeeded && u.expires == None && Closes(t, u, Succeeded, now)
       && u == t.(status := u.status, expires := u.expires, history := u.history)
       && (forall c :: c in s.tasks && c != id ==>
             r.tasks[c] == if Freed(s, id, c) then s.tasks[c].(status := Ready, available := now) else s.tasks[c])
       && (forall q :: q in s.runs ==>
             r.runs[q] == if q == t.run && LastOfRun(s, id)
                          then s.runs[q].(status := RunSucceeded, completed := Some(now)) else s.runs[q])
       && (forall e :: r.outbox[e] == s.outbox[e] + CompletionEvents(s, id, e))
  }

  lemma FreedIsUnblocked(s: State, now: Time, id: TaskId, c: TaskId)
    requires id in s.tasks && s.tasks[id].status == Running && c in s.tasks
    ensures Unblocks(s.tasks[id := Lifecycle.Finished(s.tasks[id], now)], id, c) <==> Freed(s, id, c)
  {
    var done := s.tasks[id := Lifecycle.Finished(s.tasks[id], now)];
    if c != id {
      assert UpstreamDone(done, c) <==>
        forall p :: p in s.tasks[c].upstream && p in s.tasks && p != id ==> s.tasks[p].status == Succeeded by {
        assert forall p :: p in s.tasks && p != id ==> done[p] == s.tasks[p];
        assert done[id].status == Succeeded;
      }
    }
  }

  lemma CompleteDoesRows(s: State, now: Time, id: TaskId, worker: WorkerId, r: State)
    requires CanComplete(s, now, id, worker) && r == CompleteTask(s, now, id, worker).(clock := now)
    ensures r.tasks.Keys == s.tasks.Keys
    ensures forall c :: c in s.tasks && c != id ==>
              r.tasks[c] == if Freed(s, id, c) then s.tasks[c].(status := Ready, available := now) else s.tasks[c]
  {
    forall c | c in s.tasks && c != id
      ensures c in r.tasks
      ensures r.tasks[c] == if Freed(s, id, c) then s.tasks[c].(status := Ready, available := now) else s.tasks[c]
    {
      FreedIsUnblocked(s, now, id, c);
    }
  }

  lemma CompleteDoesRuns(s: State, now: Time, id: TaskId, worker: WorkerId, r: State)
    requires CanComplete(s, now, id, worker) && r == CompleteTask(s, now, id, worker).(clock := now)
    ensures r.runs.Keys == s.runs.Keys
    ensures forall q :: q in s.runs ==>
              r.runs[q] == if q == s.tasks[id].run && LastOfRun(s, id)
                           then s.runs[q].(status := RunSucceeded, completed := Some(now)) else s.runs[q]
  {
    CompleteDoesRows(s, now, id, worker, r);
    assert AllSucceeded(r.tasks, s.tasks[id].run) <==> LastOfRun(s, id) by {
      if LastOfRun(s, id) {
        forall i | i in r.tasks && r.tasks[i].run == s.tasks[id].run ensures r.tasks[i].status.Succeeded? {
          assert i in s.tasks;
        }
      } else {
        var i :| i in s.tasks && s.tasks[i].run == s.tasks[id].run && i != id && s.tasks[i].status != Succeeded;
        assert i in r.tasks && r.tasks[i].run == s.tasks[id].run && !r.tasks[i].status.Succeeded?;
      }
    }
  }

  lemma CompleteDoesEvents(s: State, now: Time, id: TaskId, worker: WorkerId, r: State, e: Event)
    requires CanComplete(s, now, id, worker) && r == CompleteTask(s, now, id, worker).(clock := now)
    ensures r.outbox[e] == s.outbox[e] + CompletionEvents(s, id, e)
  {
    var done := s.tasks[id := Lifecycle.Finished(s.tasks[id], now)];
    if e.TaskEvent? && e.task in s.tasks {
      FreedIsUnblocked(s, now, id, e.task);
    }
    assert e in ReadyEvents(done, id) <==>
      e.TaskEvent? && Freed(s, id, e.task) && e == TaskEvent(TaskReady, s.tasks[id].run, e.task, 0);
  }

  lemma CompletionAchieves(s: State, now: Time, id: TaskId, worker: WorkerId, r: State)
    requires CanComplete(s, now, id, worker) && r == CompleteTask(s, now, id, worker).(clock := now)
    ensures Achieved(s, r, now, id)
  {
    CompleteDoesRows(s, now, id, worker, r);
    CompleteDoesRuns(s, now, id, worker, r);
    forall e ensures r.outbox[e] == s.outbox[e] + CompletionEvents(s, id, e) {
      CompleteDoesEvents(s, now, id, worker, r, e);
    }
    var done := s.tasks[id := Lifecycle.Finished(s.tasks[id], now)];
    assert !Unblocks(done, id, id);
    assert r.tasks[id] == done[id];
  }

  lemma CompleteDoes(s: State, now: Time, id: TaskId, worker: WorkerId, r: State)
    requires r == CompleteTask(s, now, id, worker).(clock := now)
    ensures WorksOnRunning(s, now, id, worker, Running) <==> CanComplete(s, now, id, worker)
    ensures if WorksOnRunning(s, now, id, worker, Running) then Achieved(s, r, now, id) else r == s.(clock := now)
  {
    if CanComplete(s, now, id, worker) {
      CompletionAchieves(s, now, id, worker, r);
    }
  }

  // ---------------------------------------------------------------------
  // Dispatch
  // ---------------------------------------------------------------------

  ghost predicate Due(s: State, now: Time, id: TaskId) {
    id in s.tasks && s.tasks[id].status == Ready && s.tasks[id].available <= now && s.tasks[id].run in s.runs
  }

  ghost predicate IsDispatchOf(s: State, now: Time, picked: seq<TaskId>, e: Event) {
    && e.TaskEvent? && e.task in picked && Due(s, now, e.task)
    && e == TaskEvent(TaskDispatch, s.tasks[e.task].run, e.task, 0)
  }

  /** Every picked task that was due is DISPATCHING, with one event, and nothing else has changed. */
  ghost predicate AllSent(s: State, r: State, now: Time, picked: seq<TaskId>) {
    && r.tasks.Keys == s.tasks.Keys && r.runs == s.runs
    && (forall id :: id in s.tasks ==>
          r.tasks[id] == if id in picked && Due(s, now, id) then s.tasks[id].(status := Dispatching) else s.tasks[id])
    && (forall e :: r.outbox[e] == s.outbox[e] + if IsDispatchOf(s, now, picked, e) then 1 else 0)
  }

  lemma SendOneDoes(s: State, now: Time, id: TaskId)
    ensures AllSent(s, DispatchOne(s, now, id), now, [id])
  {}

  lemma SentThenRest(s: State, m: State, r: State, now: Time, id: TaskId, rest: seq<TaskId>)
    requires AllSent(s, m, now, [id]) && AllSent(m, r, now, rest)
    ensures AllSent(s, r, now, [id] + rest)
  {
    var picked := [id] + rest;
    forall i ensures Due(m, now, i) <==> Due(s, now, i) && i != id {
      assert i in [id] <==> i == id;
    }
    forall i | i in s.tasks
      ensures r.tasks[i] == if i in picked && Due(s, now, i) then s.tasks[i].(status := Dispatching) else s.tasks[i]
    {
      assert i in picked <==> i == id || i in rest;
      assert i in [id] <==> i == id;
    }
    forall e ensures r.outbox[e] == s.outbox[e] + if IsDispatchOf(s, now, picked, e) then 1 else 0 {
      if e.TaskEvent? {
        assert e.task in picked <==> e.task == id || e.task in rest;
        assert e.task in [id] <==> e.task == id;
        assert e.task in s.tasks ==> m.tasks[e.task].run == s.tasks[e.task].run;
      }
    }
  }

  lemma {:induction false} DispatchSends(s: State, now: Time, picked: seq<TaskId>)
    ensures AllSent(s, Dispatch(s, now, picked), now, picked)
    decreases |picked|
  {
    if picked != [] {
      var m := DispatchOne(s, now, picked[0]);
      SendOneDoes(s, now, picked[0]);
      DispatchSends(m, now, picked[1..]);
      SentThenRest(s, m, Dispatch(s, now, picked), now, picked[0], picked[1..]);
      assert [picked[0]] + picked[1..] == picked;
    }
  }

  /** And no picked task is left due. */
  lemma DispatchDoes(s: State, now: Time, picked: seq<TaskId>, r: State)
    requires r == Dispatch(s, now, picked).(clock := now)
    ensures AllSent(s, r, now, picked)
    ensures forall id :: id in picked ==> !Due(r, now, id)
  {
    DispatchSends(s, now, picked);
  }

  // ---------------------------------------------------------------------
  // Recovery
  // ---------------------------------------------------------------------

  /** Held under a lease that has run out. */
  ghost predicate Lapsed(s: State, now: Time, id: TaskId) {
    && id in s.tasks && s.tasks[id].status in HELD
    && s.tasks[id].expires.Some? && s.tasks[id].expires.value <= now && s.tasks[id].run in s.runs
  }

  ghost predicate Picked(picks: seq<Pick>, id: TaskId) {
    exists p :: p in picks && p.task == id
  }

  /** The run status read for the task, the first time it comes up. */
  ghost function SeenFor(picks: seq<Pick>, id: TaskId): (seen: RunStatus)
    requires Picked(picks, id)
  {
    if picks[0].task == id then picks[0].seen
    else
      assert Picked(picks[1..], id) by {
        var p :| p in picks && p.task == id;
        assert p in picks[1..];
      }
      SeenFor(picks[1..], id)
  }

  /** The task is taken back: picked, and its lease has run out. */
  ghost predicate TakenBack(s: State, now: Time, picks: seq<Pick>, id: TaskId) {
    Picked(picks, id) && Lapsed(s, now, id)
  }

  ghost predicate Dies(s: State, now: Time, picks: seq<Pick>, id: TaskId) {
    TakenBack(s, now, picks, id) && SeenFor(picks, id) != RunCancelled && s.tasks[id].attempts >= s.tasks[id].maximum
  }

  ghost predicate RowRecovered(s: State, r: State, now: Time, picks: seq<Pick>, id: TaskId)
    requires id in s.tasks && id in r.tasks
  {
    var t, u := s.tasks[id], r.tasks[id];
    if TakenBack(s, now, picks, id)
    then EndsIn(u.status, SeenFor(picks, id), t.attempts < t.maximum) && LetGo(t, u, u.status, now)
    else u == t
  }

  ghost predicate RunRecovered(s: State, r: State, now: Time, picks: seq<Pick>, q: RunId)
    requires q in s.runs && q in r.runs
  {
    if exists id :: Dies(s, now, picks, id) && s.tasks[id].run == q
    then FailedNow(s.runs[q], r.runs[q], now) else r.runs[q] == s.runs[q]
  }

  ghost predicate IsEndOf(s: State, r: State, now: Time, picks: seq<Pick>, e: Event) {
    && e.TaskEvent? && TakenBack(s, now, picks, e.task) && e.task in r.tasks
    && e == TaskEvent(EndEvent(r.tasks[e.task].status), s.tasks[e.task].run, e.task, s.tasks[e.task].attempts)
  }

  /**
   * Every picked task whose lease has run out is let go as the status read for it calls for, with one event; a run
   * with a death is FAILED; all other rows, siblings included, are as before.
   */
  ghost predicate AllTakenBack(s: State, r: State, now: Time, picks: seq<Pick>) {
    && r.tasks.Keys == s.tasks.Keys && r.runs.Keys == s.runs.Keys
    && (forall id :: id in s.tasks ==> RowRecovered(s, r, now, picks, id))
    && (forall q :: q in s.runs ==> RunRecovered(s, r, now, picks, q))
    && (forall e :: r.outbox[e] == s.outbox[e] + if IsEndOf(s, r, now, picks, e) then 1 else 0)
  }

  lemma OnePick(p: Pick, id: TaskId)
    ensures Picked([p], id) <==> p.task == id
    ensures p.task == id ==> SeenFor([p], id) == p.seen
  {
    assert p in [p];
  }

  lemma RecoverOneRows(s: State, now: Time, p: Pick, r: State, id: TaskId)
    requires r == RecoverOne(s, now, p) && id in s.tasks
    ensures id in r.tasks && RowRecovered(s, r, now, [p], id)
  {
    OnePick(p, id);
  }

  lemma RecoverOneRuns(s: State, now: Time, p: Pick, r: State, q: RunId)
    requires r == RecoverOne(s, now, p) && q in s.runs
    ensures q in r.runs && RunRecovered(s, r, now, [p], q)
  {
    OnePick(p, p.task);
    forall id ensures Dies(s, now, [p], id) ==> id == p.task {
      OnePick(p, id);
    }
  }

  lemma RecoverOneEvents(s: State, now: Time, p: Pick, r: State, e: Event)
    requires r == RecoverOne(s, now, p)
    ensures r.outbox[e] == s.outbox[e] + if IsEndOf(s, r, now, [p], e) then 1 else 0
  {
    OnePick(p, p.task);
    if e.TaskEvent? {
      OnePick(p, e.task);
    }
  }

  lemma RecoverOneDoes(s: State, now: Time, p: Pick)
    ensures AllTakenBack(s, RecoverOne(s, now, p), now, [p])
  {
    var r := RecoverOne(s, now, p);
    assert r.tasks.Keys == s.tasks.Keys && r.runs.Keys == s.runs.Keys;
    forall id | id in s.tasks ensures RowRecovered(s, r, now, [p], id) {
      RecoverOneRows(s, now, p, r, id);
    }
    forall q | q in s.runs ensures RunRecovered(s, r, now, [p], q) {
      RecoverOneRuns(s, now, p, r, q);
    }
    forall e ensures r.outbox[e] == s.outbox[e] + if IsEndOf(s, r, now, [p], e) then 1 else 0 {
      RecoverOneEvents(s, now, p, r, e);
    }
  }

  lemma MorePicks(p: Pick, rest: seq<Pick>, id: TaskId)
    ensures Picked([p] + rest, id) <==> p.task == id || Picked(rest, id)
    ensures Picked([p] + rest, id) ==>
              SeenFor([p] + rest, id) == if p.task == id then p.seen else SeenFor(rest, id)
  {
    var all := [p] + rest;
    assert all[0] == p && all[1..] == rest && p in all;
    if Picked(rest, id) {
      var q :| q in rest && q.task == id;
      assert q in all;
    }
    if Picked(all, id) && p.task != id {
      var q :| q in all && q.task == id;
      assert q in rest;
    }
  }

  /** After the first pick, the later ones take back what is left. */
  lemma LaterTakenBack(s: State, m: State, now: Time, p: Pick, rest: seq<Pick>, id: TaskId)
    requires AllTakenBack(s, m, now, [p])
    ensures TakenBack(m, now, rest, id) <==> Picked(rest, id) && Lapsed(s, now, id) && p.task != id
    ensures id in s.tasks && p.task != id ==> m.tasks[id] == s.tasks[id]
    ensures TakenBack(s, now, [p] + rest, id) <==>
              (p.task == id && TakenBack(s, now, [p], id)) || TakenBack(m, now, rest, id)
  {
    OnePick(p, id);
    MorePicks(p, rest, id);
    if id in s.tasks {
      assert RowRecovered(s, m, now, [p], id);
    }
  }

  lemma RowsTakenBack(s: State, m: State, r: State, now: Time, p: Pick, rest: seq<Pick>, id: TaskId)
    requires AllTakenBack(s, m, now, [p]) && AllTakenBack(m, r, now, rest) && id in s.tasks
    ensures id in r.tasks && RowRecovered(s, r, now, [p] + rest, id)
  {
    OnePick(p, id);
    MorePicks(p, rest, id);
    LaterTakenBack(s, m, now, p, rest, id);
    assert RowRecovered(s, m, now, [p], id) && RowRecovered(m, r, now, rest, id);
  }

  lemma DeathsTakenBack(s: State, m: State, now: Time, p: Pick, rest: seq<Pick>, id: TaskId)
    requires AllTakenBack(s, m, now, [p])
    ensures Dies(s, now, [p] + rest, id) <==> Dies(s, now, [p], id) || Dies(m, now, rest, id)
    ensures id in s.tasks && id in m.tasks ==> m.tasks[id].run == s.tasks[id].run
  {
    OnePick(p, id);
    MorePicks(p, rest, id);
    LaterTakenBack(s, m, now, p, rest, id);
    if id in s.tasks {
      assert RowRecovered(s, m, now, [p], id);
    }
  }

  lemma RunsTakenBack(s: State, m: State, r: State, now: Time, p: Pick, rest: seq<Pick>, q: RunId)
    requires AllTakenBack(s, m, now, [p]) && AllTakenBack(m, r, now, rest) && q in s.runs
    ensures q in r.runs && RunRecovered(s, r, now, [p] + rest, q)
  {
    assert RunRecovered(s, m, now, [p], q) && RunRecovered(m, r, now, rest, q);
    forall id
      ensures Dies(s, now, [p] + rest, id) <==> Dies(s, now, [p], id) || Dies(m, now, rest, id)
      ensures id in s.tasks && id in m.tasks ==> m.tasks[id].run == s.tasks[id].run
    {
      DeathsTakenBack(s, m, now, p, rest, id);
    }
    if exists id :: Dies(s, now, [p], id) && s.tasks[id].run == q {
      var id :| Dies(s, now, [p], id) && s.tasks[id].run == q;
      assert Dies(s, now, [p] + rest, id);
    } else if exists id :: Dies(m, now, rest, id) && m.tasks[id].run == q {
      var id :| Dies(m, now, rest, id) && m.tasks[id].run == q;
      assert Dies(s, now, [p] + rest, id) && s.tasks[id].run == q;
    } else {
      assert !exists id :: Dies(s, now, [p] + rest, id) && s.tasks[id].run == q;
    }
  }

  lemma EventsTakenBack(s: State, m: State, r: State, now: Time, p: Pick, rest: seq<Pick>, e: Event)
    requires AllTakenBack(s, m, now, [p]) && AllTakenBack(m, r, now, rest)
    ensures r.outbox[e] == s.outbox[e] + if IsEndOf(s, r, now, [p] + rest, e) then 1 else 0
  {
    if e.TaskEvent? {
      OnePick(p, e.task);
      LaterTakenBack(s, m, now, p, rest, e.task);
      if e.task in s.tasks {
        assert RowRecovered(s, m, now, [p], e.task) && RowRecovered(m, r, now, rest, e.task);
      }
    }
    assert m.outbox[e] == s.outbox[e] + if IsEndOf(s, m, now, [p], e) then 1 else 0;
    assert r.outbox[e] == m.outbox[e] + if IsEndOf(m, r, now, rest, e) then 1 else 0;
  }

  lemma TakenBackThenRest(s: State, m: State, r: State, now: Time, p: Pick, rest: seq<Pick>)
    requires AllTakenBack(s, m, now, [p]) && AllTakenBack(m, r, now, rest)
    ensures AllTakenBack(s, r, now, [p] + rest)
  {
    forall id | id in s.tasks ensures id in r.tasks && RowRecovered(s, r, now, [p] + rest, id) {
      RowsTakenBack(s, m, r, now, p, rest, id);
    }
    forall q | q in s.runs ensures q in r.runs && RunRecovered(s, r, now, [p] + rest, q) {
      RunsTakenBack(s, m, r, now, p, rest, q);
    }
    forall e ensures r.outbox[e] == s.outbox[e] + if IsEndOf(s, r, now, [p] + rest, e) then 1 else 0 {
      EventsTakenBack(s, m, r, now, p, rest, e);
    }
  }

  lemma {:induction false} RecoveryTakesBack(s: State, now: Time, picks: seq<Pick>)
    ensures AllTakenBack(s, RecoverExpired(s, now, picks), now, picks)
    decreases |picks|
  {
    if picks != [] {
      var m := RecoverOne(s, now, picks[0]);
      RecoverOneDoes(s, now, picks[0]);
      RecoveryTakesBack(m, now, picks[1..]);
      TakenBackThenRest(s, m, RecoverExpired(s, now, picks), now, picks[0], picks[1..]);
      assert [picks[0]] + picks[1..] == picks;
    }
  }

  lemma TakenBackAnyTime(s: State, m: State, now: Time, picks: seq<Pick>)
    requires AllTakenBack(s, m, now, picks)
    ensures AllTakenBack(s, m.(clock := now), now, picks)
  {
    var r := m.(clock := now);
    forall id | id in s.tasks ensures RowRecovered(s, r, now, picks, id) {
      assert RowRecovered(s, m, now, picks, id);
    }
    forall q | q in s.runs ensures RunRecovered(s, r, now, picks, q) {
      assert RunRecovered(s, m, now, picks, q);
    }
    forall e ensures r.outbox[e] == s.outbox[e] + if IsEndOf(s, r, now, picks, e) then 1 else 0 {
      assert IsEndOf(s, r, now, picks, e) <==> IsEndOf(s, m, now, picks, e);
    }
  }

  /** And no picked task is left under a lease that has run out. */
  lemma RecoverDoes(s: State, now: Time, picks: seq<Pick>, r: State)
    requires r == RecoverExpired(s, now, picks).(clock := now)
    ensures AllTakenBack(s, r, now, picks)
    ensures forall id :: Picked(picks, id) ==> !Lapsed(r, now, id)
  {
    RecoveryTakesBack(s, now, picks);
    TakenBackAnyTime(s, RecoverExpired(s, now, picks), now, picks);
    forall id | Picked(picks, id) ensures !Lapsed(r, now, id) {
      if id in s.tasks {
        assert RowRecovered(s, r, now, picks, id);
      }
    }
  }

  // ---------------------------------------------------------------------
  // The set-based updates
  // ---------------------------------------------------------------------

  /** No elapsed retry wait is left, and nothing else has changed. */
  ghost predicate Awake(s: State, r: State, now: Time) {
    && r.tasks.Keys == s.tasks.Keys && r.runs == s.runs && r.outbox == s.outbox
    && forall id :: id in s.tasks ==>
         && (r.tasks[id].status == RetryWait ==> now < r.tasks[id].available)
         && (r.tasks[id] != s.tasks[id] ==>
               && s.tasks[id].status == RetryWait && s.tasks[id].available <= now
               && r.tasks[id] == s.tasks[id].(status := Ready))
  }

  lemma WakeAwakes(s: State, now: Time)
    ensures Awake(s, Lifecycle.WakeRetries(s, now), now)
  {}

  /** Only this run differs, and the outbox only by `events`. */
  ghost predicate OnlyIn(s: State, r: State, run: RunId, events: multiset<Event>) {
    && r.tasks.Keys == s.tasks.Keys && r.runs.Keys == s.runs.Keys && r.outbox == s.outbox + events
    && (forall q :: q in s.runs && q != run ==> r.runs[q] == s.runs[q])
    && (forall id :: id in s.tasks && s.tasks[id].run != run ==> r.tasks[id] == s.tasks[id])
  }

  /** The run is CANCELLED and none of its tasks waits; those held or over are as before. */
  ghost predicate Stopped(s: State, r: State, run: RunId, now: Time) {
    && run in s.runs && OnlyIn(s, r, run, multiset{})
    && r.runs[run] == s.runs[run].(status := RunCancelled, completed := Some(now))
    && forall id :: id in s.tasks && s.tasks[id].run == run ==>
         && r.tasks[id].status !in WAITING
         && r.tasks[id] == if s.tasks[id].status in WAITING then s.tasks[id].(status := Cancelled) else s.tasks[id]
  }

  lemma CancelStops(s: State, now: Time, run: RunId)
    requires RunIs(s, run, RunRunning)
    ensures Stopped(s, Lifecycle.CancelRun(s, now, run), run, now)
  {}

  /** A task brought back: ready at once, with one attempt left if it had none. */
  ghost predicate BroughtBack(t: Task, u: Task, now: Time) {
    && u.status.Ready? && u.available == now
    && u.maximum == (if t.attempts < t.maximum then t.maximum else t.attempts + 1)
    && u == t.(status := u.status, available := u.available, maximum := u.maximum,
               owner := u.owner, expires := u.expires)
  }

  /** The run is RUNNING, its DEAD tasks are back and the others, CANCELLED ones included, are as before. */
  ghost predicate Reopened(s: State, r: State, run: RunId, now: Time) {
    && run in s.runs && OnlyIn(s, r, run, multiset{})
    && r.runs[run] == s.runs[run].(status := RunRunning, completed := None)
    && forall id :: id in s.tasks && s.tasks[id].run == run ==>
         if s.tasks[id].status.Dead?
         then BroughtBack(s.tasks[id], r.tasks[id], now) && r.tasks[id].owner == None && r.tasks[id].expires == None
         else r.tasks[id] == s.tasks[id]
  }

  lemma RetryReopensRun(s: State, now: Time, run: RunId)
    requires run in s.runs && HasDead(s, run)
    ensures Reopened(s, Lifecycle.RetryRun(s, now, run), run, now)
  {}

  /** A CANCELLED task rebuilt: waiting for what is upstream, for its backoff, or for nothing. */
  ghost predicate BuiltUp(s: State, t: Task, u: Task, now: Time) {
    && u == t.(status := u.status)
    && (u.status.Blocked? || u.status.RetryWait? || u.status.Ready?)
    && (u.status.Blocked? <==> exists p :: p in t.upstream && p in s.tasks && !s.tasks[p].status.Succeeded?)
    && (u.status.RetryWait? ==> t.available > now)
    && (u.status.Ready? ==> t.available <= now)
  }

  /** A FAILED run is RUNNING again, one DEAD task is back, and no task of the run is CANCELLED any more. */
  ghost predicate Replayed(s: State, r: State, id: TaskId, now: Time)
    requires id in s.tasks
  {
    var run := s.tasks[id].run;
    && OnlyIn(s, r, run, multiset{TaskEvent(TaskReplayed, run, id, 0)}) && run in s.runs
    && r.runs[run] == (if s.runs[run].status.RunFailed?
                       then s.runs[run].(status := RunRunning, completed := None) else s.runs[run])
    && BroughtBack(s.tasks[id], r.tasks[id], now)
    && r.tasks[id].owner == s.tasks[id].owner && r.tasks[id].expires == s.tasks[id].expires
    && forall i :: i in s.tasks && s.tasks[i].run == run && i != id ==>
         if s.tasks[i].status.Cancelled? then BuiltUp(s, s.tasks[i], r.tasks[i], now) else r.tasks[i] == s.tasks[i]
  }

  lemma RebuiltIsBuiltUp(s: State, now: Time, id: TaskId, i: TaskId)
    requires CanReplay(s, id) && i in s.tasks && s.tasks[i].run == s.tasks[id].run && i != id
    requires s.tasks[i].status.Cancelled?
    ensures i in Lifecycle.ReplayDead(s, now, id).tasks
    ensures BuiltUp(s, s.tasks[i], Lifecycle.ReplayDead(s, now, id).tasks[i], now)
  {
    var revived := s.tasks[id := Revived(s.tasks[id], now)];
    assert UpstreamDone(revived, i) <==> UpstreamDone(s.tasks, i) by {
      assert forall u :: u in s.tasks ==> (revived[u].status.Succeeded? <==> s.tasks[u].status.Succeeded?);
    }
  }

  lemma ReplayReplays(s: State, now: Time, id: TaskId)
    requires CanReplay(s, id)
    ensures Replayed(s, Lifecycle.ReplayDead(s, now, id), id, now)
  {
    var r := Lifecycle.ReplayDead(s, now, id);
    forall i | i in s.tasks && s.tasks[i].run == s.tasks[id].run && i != id && s.tasks[i].status.Cancelled?
      ensures BuiltUp(s, s.tasks[i], r.tasks[i], now)
    {
      RebuiltIsBuiltUp(s, now, id, i);
    }
  }

  // ---------------------------------------------------------------------
  // Submission
  // ---------------------------------------------------------------------

  /** A new row: its columns, and its dependencies once they are inserted. */
  ghost predicate FreshRow(t: Task, run: RunId, key: string, spec: Dag.TaskSpec, ids: map<string, TaskId>, now: Time,
                           linked: bool) {
    && t.run == run && t.key == key && t.available == now
    && t.status == (if spec.dependsOn == [] then Ready else Blocked)
    && t.attempts == 0
    && t.maximum == (if spec.maximumAttempts == 0 then 3
                     else if spec.maximumAttempts < 0 then 0 else spec.maximumAttempts)
    && t.owner == None && t.expires == None && t.history == []
    && forall u :: u in t.upstream <==> linked && exists d :: d in spec.dependsOn && d in ids && ids[d] == u
  }

  /** The run is RUNNING and its tasks are those of the graph; all other rows are as before, and there is one event. */
  ghost predicate Submitted(s: State, r: State, now: Time, run: RunId, key: string, dag: Dag.Tasks,
                            ids: map<string, TaskId>) {
    && ids.Keys == dag.Keys
    && r.runs == s.runs[run := Run(key, RunRunning, None)]
    && r.tasks.Keys == s.tasks.Keys + ids.Values
    && (forall i :: i in s.tasks ==> r.tasks[i] == s.tasks[i])
    && (forall k :: k in dag ==> FreshRow(r.tasks[ids[k]], run, k, dag[k], ids, now, true))
    && r.outbox == s.outbox + multiset{RunCreated(run)}
  }

  /** The linked row is determined by these columns. */
  lemma FreshRowIsNew(t: Task, run: RunId, key: string, spec: Dag.TaskSpec, ids: map<string, TaskId>, now: Time)
    ensures FreshRow(t, run, key, spec, ids, now, true) <==> t == NewTask(run, key, spec, ids, now)
  {
    var n := NewTask(run, key, spec, ids, now);
    if FreshRow(t, run, key, spec, ids, now, true) {
      assert t.upstream == n.upstream;
    }
  }

  lemma NewRowsOfGraph(run: RunId, dag: Dag.Tasks, ids: map<string, TaskId>, now: Time)
    requires ids.Keys == dag.Keys && Injective(ids)
    ensures NewTasks(run, dag, ids, now).Keys == ids.Values
    ensures forall k :: k in dag ==> NewTasks(run, dag, ids, now)[ids[k]] == NewTask(run, k, dag[k], ids, now)
  {}

  lemma CreateDoes(s: State, now: Time, run: RunId, key: string, dag: Dag.Tasks, ids: map<string, TaskId>, r: State)
    requires Creatable(s, run, dag, ids) && key != "" && !KeyTaken(s, key)
    requires r == CreateRun(s, now, run, key, dag, ids).(clock := now)
    ensures Submitted(s, r, now, run, key, dag, ids)
  {
    var rows := NewTasks(run, dag, ids, now);
    NewRowsOfGraph(run, dag, ids, now);
    forall k | k in dag ensures ids[k] in rows && FreshRow(rows[ids[k]], run, k, dag[k], ids, now, true) {
      FreshRowIsNew(rows[ids[k]], run, k, dag[k], ids, now);
    }
    assert s.tasks.Keys !! rows.Keys;
  }
}
