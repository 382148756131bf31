/** A RUNNING run can be completed without ReplayDead exactly when none of its tasks is CANCELLED. */
module Completion {
  import opened TaskStates
  import opened Lifecycle
  import opened Rows
  import opened Causes
  import opened Invariants
  import opened Executions
  import opened Progress

  // ---------------------------------------------------------------------
  // Steps that only work on the run
  // ---------------------------------------------------------------------

  /** Workers, the scheduler and RetryRun, with no task told that its run is CANCELLED. */
  ghost predicate Working(x: Step) {
    match x
    case Recover(picks) => forall p :: p in picks ==> !p.seen.RunCancelled?
    case _ => x.Wake? || x.Send? || x.Lease? || x.Start? || x.Complete? || x.Retry?
  }

  /** The run has the same tasks and keeps its successes. */
  ghost predicate Kept(s: State, r: State, run: RunId) {
    && (forall id :: In(r, id, run) <==> In(s, id, run))
    && (forall id :: In(s, id, run) && s.tasks[id].status.Succeeded? ==> r.tasks[id].status.Succeeded?)
  }

  lemma WorkRow(s: State, x: Timed, r: State, id: TaskId)
    requires id in s.tasks && id in r.tasks && RowCause(s, x, r, id) && Working(x.step)
    ensures s.tasks[id].status.Succeeded? ==> r.tasks[id].status.Succeeded?
    ensures r.tasks[id].status.Cancelled? ==> s.tasks[id].status.Cancelled?
  {}

  lemma WorkNext(s: State, x: Timed, r: State, run: RunId)
    requires Next(s, x, r) && Working(x.step) && run in s.runs && Clean(s, run)
    ensures Kept(s, r, run) && Clean(r, run) && run in r.runs
  {
    forall id | In(s, id, run)
      ensures In(r, id, run) && !r.tasks[id].status.Cancelled?
      ensures s.tasks[id].status.Succeeded? ==> r.tasks[id].status.Succeeded?
    {
      assert RowCause(s, x, r, id);
      WorkRow(s, x, r, id);
    }
    forall id | In(r, id, run) ensures In(s, id, run) {
      assert id in s.tasks;
    }
    assert RunCause(s, x, r, run);
  }

  ghost predicate NoReplay(xs: seq<Timed>) {
    forall x :: x in xs ==> !x.step.Replay?
  }

  /** Where such steps have brought a run without CANCELLED tasks. */
  ghost predicate Reached(s: State, xs: seq<Timed>, r: State, run: RunId) {
    Leads(s, xs, r) && NoReplay(xs) && Kept(s, r, run) && Inv(r) && run in r.runs && Clean(r, run)
  }

  lemma WorkStep(s: State, x: Timed, run: RunId, r: State)
    requires Inv(s) && s.clock <= x.now && Working(x.step) && run in s.runs && Clean(s, run) && r == Apply(s, x)
    ensures Inv(r) && Kept(s, r, run) && Clean(r, run) && run in r.runs
  {
    StepIsNext(s, x);
    StepKeepsInv(s, x);
    WorkNext(s, x, r, run);
  }

  lemma KeptOn(s: State, m: State, r: State, run: RunId)
    requires Kept(s, m, run) && Kept(m, r, run)
    ensures Kept(s, r, run)
  {}

  lemma NoReplayOn(xs: seq<Timed>, x: Timed)
    requires NoReplay(xs) && !x.step.Replay?
    ensures NoReplay(xs + [x])
  {}

  lemma Work(s: State, xs: seq<Timed>, m: State, run: RunId, x: Timed) returns (ys: seq<Timed>, r: State)
    requires Reached(s, xs, m, run) && m.clock <= x.now && Working(x.step)
    ensures Reached(s, ys, r, run) && r == Apply(m, x)
  {
    ys, r := Then(s, xs, m, x);
    WorkStep(m, x, run, r);
    KeptOn(s, m, r, run);
    NoReplayOn(xs, x);
  }

  // ---------------------------------------------------------------------
  // One task, from wherever it is to SUCCEEDED
  // ---------------------------------------------------------------------

  /** The run is RUNNING and the task of it has the given status. */
  ghost predicate Is(s: State, run: RunId, id: TaskId, status: TaskStatus) {
    RunIs(s, run, RunRunning) && In(s, id, run) && s.tasks[id].status == status
  }

  /** Held under a lease that has not run out. */
  ghost predicate Fresh(s: State, id: TaskId) {
    && id in s.tasks && s.tasks[id].owner.Some?
    && s.tasks[id].expires.Some? && s.tasks[id].expires.value > s.clock
  }

  lemma StartRow(s: State, run: RunId, id: TaskId)
    requires Is(s, run, id, Leased) && Fresh(s, id)
    ensures var r := Apply(s, At(s.clock, Start(id, s.tasks[id].owner.value)));
            Is(r, run, id, Running) && Fresh(r, id)
  {}

  lemma CompleteRow(s: State, run: RunId, id: TaskId)
    requires Is(s, run, id, Running) && Fresh(s, id)
    ensures var r := Apply(s, At(s.clock, Complete(id, s.tasks[id].owner.value)));
            && In(r, id, run) && r.tasks[id].status.Succeeded?
            && (RunIs(r, run, RunRunning) || RunIs(r, run, RunSucceeded))
  {}

  lemma LeaseRow(s: State, run: RunId, id: TaskId)
    requires Is(s, run, id, Dispatching)
    ensures var r := Apply(s, At(s.clock, Lease(id, "", 1)));
            Is(r, run, id, Leased) && Fresh(r, id)
  {}

  function Later(t: Time, clock: Time): (r: Time) {
    if t > clock then t else clock
  }

  lemma SendRow(s: State, run: RunId, id: TaskId)
    requires Is(s, run, id, Ready)
    ensures Is(Apply(s, At(Later(s.tasks[id].available, s.clock), Send([id]))), run, id, Dispatching)
  {
    DispatchOfOne(s, Later(s.tasks[id].available, s.clock), id);
  }

  lemma WakeRow(s: State, run: RunId, id: TaskId)
    requires Is(s, run, id, RetryWait)
    ensures Is(Apply(s, At(Later(s.tasks[id].available, s.clock), Wake)), run, id, Ready)
  {}

  lemma RetryRow(s: State, run: RunId, id: TaskId)
    requires run in s.runs && In(s, id, run) && s.tasks[id].status.Dead?
    ensures Is(Apply(s, At(s.clock, Retry(run))), run, id, Ready)
  {
    assert HasDead(s, run);
  }

  lemma RecoverRow(s: State, run: RunId, id: TaskId) returns (x: Timed)
    requires run in s.runs && In(s, id, run) && Expired(s, s.clock, id)
    ensures x.now == s.clock && Working(x.step)
    ensures var r := Apply(s, x);
            In(r, id, run) && (r.tasks[id].status.Dead? || (r.tasks[id].status.RetryWait? && r.runs == s.runs))
  {
    var p := Pick(id, RunRunning);
    x := At(s.clock, Recover([p]));
    RecoverOfOne(s, s.clock, p);
  }

  /** The task has succeeded and the run goes on or is done. */
  ghost predicate Done(s: State, xs: seq<Timed>, r: State, run: RunId, id: TaskId) {
    && Reached(s, xs, r, run)
    && In(r, id, run) && r.tasks[id].status.Succeeded?
    && (RunIs(r, run, RunRunning) || RunIs(r, run, RunSucceeded))
  }

  lemma FinishRunning(s: State, xs: seq<Timed>, m: State, run: RunId, id: TaskId) returns (ys: seq<Timed>, r: State)
    requires Reached(s, xs, m, run) && Is(m, run, id, Running) && Fresh(m, id)
    ensures Done(s, ys, r, run, id)
  {
    CompleteRow(m, run, id);
    ys, r := Work(s, xs, m, run, At(m.clock, Complete(id, m.tasks[id].owner.value)));
  }

  lemma FinishLeased(s: State, xs: seq<Timed>, m: State, run: RunId, id: TaskId) returns (ys: seq<Timed>, r: State)
    requires Reached(s, xs, m, run) && Is(m, run, id, Leased) && Fresh(m, id)
    ensures Done(s, ys, r, run, id)
  {
    StartRow(m, run, id);
    ys, r := Work(s, xs, m, run, At(m.clock, Start(id, m.tasks[id].owner.value)));
    ys, r := FinishRunning(s, ys, r, run, id);
  }

  lemma FinishDispatching(s: State, xs: seq<Timed>, m: State, run: RunId, id: TaskId) returns (ys: seq<Timed>, r: State)
    requires Reached(s, xs, m, run) && Is(m, run, id, Dispatching)
    ensures Done(s, ys, r, run, id)
  {
    LeaseRow(m, run, id);
    ys, r := Work(s, xs, m, run, At(m.clock, Lease(id, "", 1)));
    ys, r := FinishLeased(s, ys, r, run, id);
  }

  lemma FinishReady(s: State, xs: seq<Timed>, m: State, run: RunId, id: TaskId) returns (ys: seq<Timed>, r: State)
    requires Reached(s, xs, m, run) && Is(m, run, id, Ready)
    ensures Done(s, ys, r, run, id)
  {
    SendRow(m, run, id);
    ys, r := Work(s, xs, m, run, At(Later(m.tasks[id].available, m.clock), Send([id])));
    ys, r := FinishDispatching(s, ys, r, run, id);
  }

  lemma FinishRetryWait(s: State, xs: seq<Timed>, m: State, run: RunId, id: TaskId) returns (ys: seq<Timed>, r: State)
    requires Reached(s, xs, m, run) && Is(m, run, id, RetryWait)
    ensures Done(s, ys, r, run, id)
  {
    WakeRow(m, run, id);
    ys, r := Work(s, xs, m, run, At(Later(m.tasks[id].available, m.clock), Wake));
    ys, r := FinishReady(s, ys, r, run, id);
  }

  /** A DEAD task is the business of RetryRun, whatever the status of the run. */
  lemma FinishDead(s: State, xs: seq<Timed>, m: State, run: RunId, id: TaskId) returns (ys: seq<Timed>, r: State)
    requires Reached(s, xs, m, run) && In(m, id, run) && m.tasks[id].status.Dead?
    ensures Done(s, ys, r, run, id)
  {
    RetryRow(m, run, id);
    ys, r := Work(s, xs, m, run, At(m.clock, Retry(run)));
    ys, r := FinishReady(s, ys, r, run, id);
  }

  lemma RecoverReaches(s: State, xs: seq<Timed>, m: State, run: RunId, id: TaskId) returns (ys: seq<Timed>, r: State)
    requires Reached(s, xs, m, run) && RunIs(m, run, RunRunning) && In(m, id, run) && Expired(m, m.clock, id)
    ensures Reached(s, ys, r, run) && In(r, id, run)
    ensures r.tasks[id].status.Dead? || Is(r, run, id, RetryWait)
  {
    var x := RecoverRow(m, run, id);
    ys, r := Work(s, xs, m, run, x);
  }

  lemma FinishExpired(s: State, xs: seq<Timed>, m: State, run: RunId, id: TaskId) returns (ys: seq<Timed>, r: State)
    requires Reached(s, xs, m, run) && RunIs(m, run, RunRunning) && In(m, id, run) && Expired(m, m.clock, id)
    ensures Done(s, ys, r, run, id)
  {
    ys, r := RecoverReaches(s, xs, m, run, id);
    if r.tasks[id].status.Dead? {
      ys, r := FinishDead(s, ys, r, run, id);
    } else {
      ys, r := FinishRetryWait(s, ys, r, run, id);
    }
  }

  lemma HeldIsLeased(s: State, id: TaskId)
    requires Inv(s) && id in s.tasks && s.tasks[id].status.Held()
    ensures s.tasks[id].owner.Some? && s.tasks[id].expires.Some? && s.tasks[id].run in s.runs
  {
    assert Placed(s, id) && RowOk(s.tasks[id], s.clock);
  }

  lemma Finish(s: State, xs: seq<Timed>, m: State, run: RunId, id: TaskId) returns (ys: seq<Timed>, r: State)
    requires Reached(s, xs, m, run) && RunIs(m, run, RunRunning) && In(m, id, run) && Movable(m.tasks[id])
    ensures Done(s, ys, r, run, id)
  {
    var status := m.tasks[id].status;
    if status.Held() {
      HeldIsLeased(m, id);
      if m.tasks[id].expires.value <= m.clock {
        ys, r := FinishExpired(s, xs, m, run, id);
      } else if status.Leased? {
        ys, r := FinishLeased(s, xs, m, run, id);
      } else {
        ys, r := FinishRunning(s, xs, m, run, id);
      }
    } else if status.Ready? {
      ys, r := FinishReady(s, xs, m, run, id);
    } else if status.Dispatching? {
      ys, r := FinishDispatching(s, xs, m, run, id);
    } else if status.RetryWait? {
      ys, r := FinishRetryWait(s, xs, m, run, id);
    } else {
      ys, r := FinishDead(s, xs, m, run, id);
    }
  }

  // ---------------------------------------------------------------------
  // The whole run
  // ---------------------------------------------------------------------

  ghost function Undone(s: State, run: RunId): (ids: set<TaskId>) {
    set id | id in s.tasks && s.tasks[id].run == run && !s.tasks[id].status.Succeeded?
  }

  lemma Smaller(a: set<TaskId>, b: set<TaskId>, id: TaskId)
    requires a <= b && id in b && id !in a
    ensures |a| < |b|
  {
    assert b == a + (b - a) && id in b - a;
  }

  lemma DoneIsLess(m: State, r: State, run: RunId, id: TaskId)
    requires Kept(m, r, run) && In(m, id, run) && !m.tasks[id].status.Succeeded?
    requires In(r, id, run) && r.tasks[id].status.Succeeded?
    ensures |Undone(r, run)| < |Undone(m, run)|
  {
    forall i | i in Undone(r, run) ensures i in Undone(m, run) {
      assert In(r, i, run);
    }
    Smaller(Undone(r, run), Undone(m, run), id);
  }

  lemma NextTask(s: State, run: RunId) returns (id: TaskId)
    requires Inv(s) && RunIs(s, run, RunRunning) && Clean(s, run)
    ensures In(s, id, run) && Movable(s.tasks[id]) && !s.tasks[id].status.Succeeded?
  {
    id := UnfinishedRunHasFront(s, run);
    assert !s.tasks[id].status.Cancelled?;
  }

  /** Task after task, from the front: workers, the scheduler and RetryRun bring the run to SUCCEEDED. */
  lemma {:induction false} RunCompletes(s: State, run: RunId) returns (xs: seq<Timed>, r: State)
    requires Inv(s) && RunIs(s, run, RunRunning) && Clean(s, run)
    ensures Leads(s, xs, r) && NoReplay(xs) && RunIs(r, run, RunSucceeded)
    decreases |Undone(s, run)|
  {
    var id := NextTask(s, run);
    LeadsNowhere(s);
    assert Kept(s, s, run);
    xs, r := Finish(s, [], s, run, id);
    if !RunIs(r, run, RunSucceeded) {
      DoneIsLess(s, r, run, id);
      var ys, q := RunCompletes(r, run);
      LeadsOn(s, xs, r, ys, q);
      xs, r := xs + ys, q;
    }
  }

  ghost predicate Completes(s: State, xs: seq<Timed>, run: RunId) {
    Legal(s, xs) && NeverReplayed(s, xs, run) && RunIs(After(s, xs), run, RunSucceeded)
  }

  lemma {:induction false} NoReplayNeverReplays(s: State, xs: seq<Timed>, run: RunId)
    requires NoReplay(xs)
    ensures NeverReplayed(s, xs, run)
    decreases |xs|
  {
    if xs != [] {
      assert xs[0] in xs;
      NoReplayNeverReplays(Apply(s, xs[0]), xs[1..], run);
    }
  }

  /** A RUNNING run can still succeed without ReplayDead if and only if none of its tasks is CANCELLED. */
  lemma CompletableExactlyWhenClean(s: State, run: RunId)
    requires Inv(s) && RunIs(s, run, RunRunning)
    ensures (exists xs :: Completes(s, xs, run)) <==> Clean(s, run)
  {
    if Clean(s, run) {
      var xs, r := RunCompletes(s, run);
      LeadsIsExecution(s, xs, r);
      NoReplayNeverReplays(s, xs, run);
      assert Completes(s, xs, run);
    } else {
      var id :| In(s, id, run) && s.tasks[id].status.Cancelled?;
      forall xs ensures !Completes(s, xs, run) {
        if Legal(s, xs) && NeverReplayed(s, xs, run) {
          CancelledTaskBlocksCompletion(s, xs, id);
        }
      }
    }
  }

  lemma RetryLeavesSame(s: State, now: Time, run: RunId, r: State)
    requires Inv(s) && s.clock <= now && run in s.runs && HasDead(s, run) && r == Apply(s, At(now, Retry(run)))
    ensures Inv(r) && RunIs(r, run, RunRunning) && (Clean(r, run) <==> Clean(s, run))
  {
    StepKeepsInv(s, At(now, Retry(run)));
    RetryReopens(s, At(now, Retry(run)), run);
    RetryRecoversExactlyWhenClean(s, now, run);
  }

  /**
   * What to check before RetryRun: after a call that takes effect the run can succeed without ReplayDead if
   * and only if none of its tasks was CANCELLED before.
   */
  lemma RetrySufficesExactlyWhenClean(s: State, now: Time, run: RunId)
    requires Inv(s) && s.clock <= now && run in s.runs && HasDead(s, run)
    ensures (exists xs :: Completes(Apply(s, At(now, Retry(run))), xs, run)) <==> Clean(s, run)
  {
    var r := Apply(s, At(now, Retry(run)));
    RetryLeavesSame(s, now, run, r);
    CompletableExactlyWhenClean(r, run);
  }
}
