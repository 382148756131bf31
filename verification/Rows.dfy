/**
 * How one row of task_runs can move in one transaction, and what every move keeps.
 * Everything here is about a single task; Steps shows that each transaction moves
 * every row in one of these ways.
 */
module Rows {
  import opened TaskStates
  import opened Lifecycle

  // ---------------------------------------------------------------------
  // The moves
  // ---------------------------------------------------------------------

  ghost predicate Idle(t: Task, u: Task) {
    u == t
  }

  ghost predicate Unblocked(t: Task, u: Task, now: Time) {
    t.status.Blocked? && u == t.(status := Ready, available := now)
  }

  ghost predicate Woken(t: Task, u: Task, now: Time) {
    t.status.RetryWait? && t.available <= now && u == t.(status := Ready)
  }

  ghost predicate Sent(t: Task, u: Task, now: Time) {
    t.status.Ready? && t.available <= now && u == t.(status := Dispatching)
  }

  ghost predicate Taken(t: Task, u: Task, now: Time) {
    t.status.Dispatching? && u.owner.Some? && u.expires.Some? && u == Granted(t, u.owner.value, u.expires.value, now)
  }

  ghost predicate Started(t: Task, u: Task, now: Time) {
    t.status.Leased? && u == Begun(t, now)
  }

  ghost predicate Renewed(t: Task, u: Task) {
    t.status.Held() && u.expires.Some? && u == t.(expires := u.expires)
  }

  ghost predicate Completed(t: Task, u: Task, now: Time) {
    t.status.Running? && u == Finished(t, now)
  }

  ghost predicate Stopped(t: Task, u: Task, now: Time) {
    && t.status.Held()
    && (u.status.RetryWait? || u.status.Dead? || u.status.Cancelled?)
    && (u.status.RetryWait? ==> t.attempts < t.maximum)
    && u == Ended(t, u.status, now)
  }

  ghost predicate Swept(t: Task, u: Task) {
    t.status.Pending() && u == t.(status := Cancelled)
  }

  ghost predicate Reborn(t: Task, u: Task, now: Time) {
    t.status.Dead? && (u == Revived(t, now) || u == Revived(t, now).(owner := None, expires := None))
  }

  ghost predicate Rebuilt(t: Task, u: Task, now: Time) {
    && t.status.Cancelled?
    && u == t.(status := u.status)
    && (|| (u.status.Blocked? && t.attempts == 0)
        || (u.status.RetryWait? && t.available > now)
        || (u.status.Ready? && t.available <= now))
  }

  /** Moves made by workers, the scheduler and CancelRun. */
  ghost predicate Automatic(t: Task, u: Task, now: Time) {
    || Idle(t, u)
    || Unblocked(t, u, now)
    || Woken(t, u, now)
    || Sent(t, u, now)
    || Taken(t, u, now)
    || Started(t, u, now)
    || Renewed(t, u)
    || Completed(t, u, now)
    || Stopped(t, u, now)
    || Swept(t, u)
  }

  ghost predicate Moves(t: Task, u: Task, now: Time) {
    Automatic(t, u, now) || Reborn(t, u, now) || Rebuilt(t, u, now)
  }

  /** Identity of a row: what no transaction rewrites. */
  lemma MovesKeepIdentity(t: Task, u: Task, now: Time)
    requires Moves(t, u, now)
    ensures u.run == t.run && u.key == t.key && u.upstream == t.upstream
    ensures t.attempts <= u.attempts <= t.attempts + 1
    ensures t.status.Succeeded? ==> u == t
  {}

  // ---------------------------------------------------------------------
  // What a row always satisfies
  // ---------------------------------------------------------------------

  /** The attempt rows against the status: numbering, which one is open, times and backoff. */
  ghost predicate AttemptOk(t: Task, i: nat, clock: Time)
    requires i < |t.history|
  {
    var a := t.history[i];
    var last := i == |t.history| - 1;
    && a.number == i + 1
    && a.started <= clock
    && (a.ended.None? <==> last && t.status.Held())
    && (a.exit.None? <==> a.ended.None?)
    && (a.ended.Some? ==> a.started <= a.ended.value <= clock)
    && (a.exit.Some? ==> a.exit.value in {Succeeded, RetryWait, Dead, Cancelled})
    && (a.exit == Some(Succeeded) <==> last && t.status.Succeeded?)
    && (a.exit == Some(Succeeded) ==> a.executing.Some?)
    && (!last ==>
          && a.ended.value <= t.history[i + 1].started
          && (a.exit == Some(RetryWait) ==> a.ended.value + RetryDelay(i + 1) <= t.history[i + 1].started))
  }

  /** The last attempt row against the rest of the task row. */
  ghost predicate LastOk(t: Task)
    requires t.history != []
  {
    var a := t.history[|t.history| - 1];
    && (t.status.Held() ==> t.owner == Some(a.worker) && (t.status.Running? <==> a.executing.Some?))
    && (t.status.Dead? ==> a.exit == Some(Dead))
    && (t.status.RetryWait? ==> a.exit == Some(RetryWait))
    && (a.exit == Some(RetryWait) && a.ended.Some? ==> a.ended.value + RetryDelay(|t.history|) <= t.available)
  }

  ghost predicate HistoryOk(t: Task, clock: Time) {
    && |t.history| == t.attempts
    && (forall i :: 0 <= i < |t.history| ==> AttemptOk(t, i, clock))
    && (t.history != [] ==> LastOk(t))
    && (t.status.Held() || t.status.Succeeded? || t.status.Dead? || t.status.RetryWait? ==> t.history != [])
    && (t.status.Blocked? ==> t.history == [])
  }

  ghost predicate LeaseOk(t: Task) {
    && (t.expires.Some? <==> t.status.Held())
    && (t.owner.Some? <==> t.status.Held() || t.status.Succeeded?)
  }

  /** Only a running backoff puts available_at in the future. */
  ghost predicate AvailableOk(t: Task, clock: Time) {
    t.available > clock ==>
      && (t.status.RetryWait? || t.status.Cancelled?)
      && t.history != []
      && t.history[|t.history| - 1].exit == Some(RetryWait)
  }

  ghost predicate RowOk(t: Task, clock: Time) {
    HistoryOk(t, clock) && LeaseOk(t) && AvailableOk(t, clock) && t.maximum >= 1
  }

  // ---------------------------------------------------------------------
  // Every move keeps it
  // ---------------------------------------------------------------------

  lemma TimePasses(t: Task, clock: Time, now: Time)
    requires RowOk(t, clock) && clock <= now
    ensures RowOk(t, now)
  {
    assert forall i :: 0 <= i < |t.history| ==> AttemptOk(t, i, clock) ==> AttemptOk(t, i, now);
  }

  /** A move that leaves attempts and lease alone keeps the row sound when it avoids the held states. */
  lemma RelabelKeepsRow(t: Task, u: Task, now: Time)
    requires RowOk(t, now)
    requires u == t.(status := u.status, available := u.available, maximum := u.maximum, owner := None, expires := None)
    requires !t.status.Held() && !t.status.Succeeded? && u.maximum >= 1
    requires u.status in {Blocked, Ready, Dispatching, RetryWait, Cancelled}
    requires u.status.Blocked? ==> t.history == []
    requires u.status.RetryWait? ==> t.history != [] && t.history[|t.history| - 1].exit == Some(RetryWait)
    requires u.available > now ==>
               u.available == t.available && !u.status.Ready? && !u.status.Dispatching? && !u.status.Blocked?
    requires u.available == t.available || t.history == [] || t.history[|t.history| - 1].exit != Some(RetryWait)
    ensures RowOk(u, now)
  {
    forall i | 0 <= i < |u.history| ensures AttemptOk(u, i, now) {
      assert AttemptOk(t, i, now);
    }
  }

  lemma GrantKeepsRow(t: Task, worker: WorkerId, expires: Time, now: Time)
    requires RowOk(t, now) && t.status.Dispatching?
    ensures RowOk(Granted(t, worker, expires, now), now)
  {
    var u := Granted(t, worker, expires, now);
    forall i | 0 <= i < |u.history| ensures AttemptOk(u, i, now) {
      if i < |t.history| {
        assert AttemptOk(t, i, now);
      }
    }
  }

  lemma BeginKeepsRow(t: Task, now: Time)
    requires RowOk(t, now) && t.status.Leased?
    ensures RowOk(Begun(t, now), now)
  {
    var u := Begun(t, now);
    forall i | 0 <= i < |u.history| ensures AttemptOk(u, i, now) {
      assert AttemptOk(t, i, now);
      assert i < |t.history| - 1 ==> AttemptOk(t, i + 1, now);
    }
    assert AttemptOk(t, |t.history| - 1, now);
  }

  lemma FinishKeepsRow(t: Task, now: Time)
    requires RowOk(t, now) && t.status.Running?
    ensures RowOk(Finished(t, now), now)
  {
    var u := Finished(t, now);
    forall i | 0 <= i < |u.history| ensures AttemptOk(u, i, now) {
      assert AttemptOk(t, i, now);
      assert i < |t.history| - 1 ==> AttemptOk(t, i + 1, now);
    }
    assert AttemptOk(t, |t.history| - 1, now);
  }

  lemma EndKeepsRow(t: Task, exit: TaskStatus, now: Time)
    requires RowOk(t, now) && t.status.Held()
    requires exit.RetryWait? || exit.Dead? || exit.Cancelled?
    ensures RowOk(Ended(t, exit, now), now)
  {
    var u := Ended(t, exit, now);
    forall i | 0 <= i < |u.history| ensures AttemptOk(u, i, now) {
      assert AttemptOk(t, i, now);
      assert i < |t.history| - 1 ==> AttemptOk(t, i + 1, now);
    }
    assert AttemptOk(t, |t.history| - 1, now);
  }

  lemma MoveKeepsRow(t: Task, u: Task, clock: Time, now: Time)
    requires RowOk(t, clock) && clock <= now && Moves(t, u, now)
    ensures RowOk(u, now)
  {
    TimePasses(t, clock, now);
    if Taken(t, u, now) {
      GrantKeepsRow(t, u.owner.value, u.expires.value, now);
    } else if Started(t, u, now) {
      BeginKeepsRow(t, now);
    } else if Completed(t, u, now) {
      FinishKeepsRow(t, now);
    } else if Stopped(t, u, now) {
      EndKeepsRow(t, u.status, now);
    } else if Renewed(t, u) {
      forall i | 0 <= i < |u.history| ensures AttemptOk(u, i, now) {
        assert AttemptOk(t, i, now);
      }
    } else if !Idle(t, u) {
      if t.history != [] {
        assert AttemptOk(t, |t.history| - 1, now);
      }
      RelabelKeepsRow(t, u, now);
    }
  }
}
