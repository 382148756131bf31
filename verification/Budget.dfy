/** The attempt budget: attempt_count against maximum_attempts, over whole executions and arbitrary reads. */
module Budget {
  import opened TaskStates
  import opened Lifecycle
  import opened Rows
  import opened Causes
  import opened Invariants
  import opened Progress
  import opened Executions

  /** Within budget, and strictly so while another attempt may follow. */
  ghost predicate WithinBudget(t: Task) {
    t.attempts <= t.maximum && (t.status.Pending() ==> t.attempts < t.maximum)
  }

  ghost predicate InBudget(s: State, run: RunId) {
    forall id :: In(s, id, run) ==> WithinBudget(s.tasks[id])
  }

  /** Stopped by cancellation at the last attempt. */
  ghost predicate Spent(s: State, id: TaskId, run: RunId) {
    In(s, id, run) && s.tasks[id].status.Cancelled? && s.tasks[id].attempts == s.tasks[id].maximum
  }

  /** ReplayDead revives a task of a run in which another is spent. */
  ghost predicate Overdraws(s: State, x: Step, run: RunId) {
    ReplaysIn(s, x, run) && exists id :: Spent(s, id, run)
  }

  ghost predicate NeverOverdrawn(s: State, xs: seq<Timed>, run: RunId)
    decreases |xs|
  {
    xs == [] || (!Overdraws(s, xs[0].step, run) && NeverOverdrawn(Apply(s, xs[0]), xs[1..], run))
  }

  ghost predicate InBudgetAlong(s: State, xs: seq<Timed>, run: RunId)
    decreases |xs|
  {
    InBudget(s, run) && (xs == [] || InBudgetAlong(Apply(s, xs[0]), xs[1..], run))
  }

  lemma BudgetRow(s: State, x: Timed, r: State, id: TaskId, run: RunId)
    requires In(s, id, run) && id in r.tasks && RowCause(s, x, r, id)
    requires !Overdraws(s, x.step, run) && WithinBudget(s.tasks[id])
    ensures WithinBudget(r.tasks[id])
  {
    assert ReplaysIn(s, x.step, run) ==> !Spent(s, id, run);
  }

  lemma BudgetNext(s: State, x: Timed, r: State, run: RunId)
    requires Next(s, x, r) && InBudget(s, run) && !Overdraws(s, x.step, run)
    ensures InBudget(r, run)
  {
    forall id | In(r, id, run) ensures WithinBudget(r.tasks[id]) {
      if id in s.tasks {
        assert In(s, id, run) && RowCause(s, x, r, id);
        BudgetRow(s, x, r, id, run);
      }
    }
  }

  /** The rebuild puts a spent task back among those that may get another attempt. */
  lemma OverdrawNext(s: State, x: Timed, r: State, id: TaskId, run: RunId)
    requires Next(s, x, r) && Overdraws(s, x.step, run) && Spent(s, id, run)
    ensures In(r, id, run) && !WithinBudget(r.tasks[id])
  {
    assert RowCause(s, x, r, id) && Placed(s, x.step.task);
    assert CanReplay(s, x.step.task);
  }

  /** A step breaks the budget if and only if it is a ReplayDead in a run with a spent task. */
  lemma BudgetBreaksExactlyWhenOverdrawn(s: State, x: Timed, run: RunId)
    requires Inv(s) && s.clock <= x.now && InBudget(s, run)
    ensures InBudget(Apply(s, x), run) <==> !Overdraws(s, x.step, run)
  {
    StepIsNext(s, x);
    if Overdraws(s, x.step, run) {
      var id :| Spent(s, id, run);
      OverdrawNext(s, x, Apply(s, x), id, run);
    } else {
      BudgetNext(s, x, Apply(s, x), run);
    }
  }

  lemma {:induction false} BudgetRun(s: State, xs: seq<Timed>, run: RunId)
    requires Inv(s) && Legal(s, xs) && InBudget(s, run)
    ensures InBudgetAlong(s, xs, run) <==> NeverOverdrawn(s, xs, run)
    ensures NeverOverdrawn(s, xs, run) ==> InBudget(After(s, xs), run)
    decreases |xs|
  {
    if xs != [] {
      BudgetBreaksExactlyWhenOverdrawn(s, xs[0], run);
      StepKeepsInv(s, xs[0]);
      if !Overdraws(s, xs[0].step, run) {
        BudgetRun(Apply(s, xs[0]), xs[1..], run);
      }
    }
  }

  /**
   * LeaseTask does not look at maximum_attempts, and yet every state of an execution is within budget if
   * and only if no ReplayDead in it overdraws, whatever statuses are read and however RetryRun is used.
   */
  lemma AttemptBudget(xs: seq<Timed>, run: RunId)
    requires Legal(EMPTY, xs)
    ensures InBudgetAlong(EMPTY, xs, run) <==> NeverOverdrawn(EMPTY, xs, run)
    ensures NeverOverdrawn(EMPTY, xs, run) ==> InBudget(After(EMPTY, xs), run)
  {
    BudgetRun(EMPTY, xs, run);
  }

  // ---------------------------------------------------------------------
  // The maximum against revivals
  // ---------------------------------------------------------------------

  /** The number of steps that bring a task back from DEAD. */
  ghost function Revivals(s: State, xs: seq<Timed>, id: TaskId): (n: nat)
    decreases |xs|
  {
    if xs == [] then 0 else
      var r := Apply(s, xs[0]);
      (if CameBack(s, r, id) then 1 else 0) + Revivals(r, xs[1..], id)
  }

  ghost predicate CameBack(s: State, r: State, id: TaskId) {
    id in s.tasks && id in r.tasks && s.tasks[id].status.Dead? && !r.tasks[id].status.Dead?
  }

  lemma MaximumGrowsByRevival(s: State, x: Timed, r: State, id: TaskId)
    requires id in s.tasks && id in r.tasks && RowCause(s, x, r, id) && s.tasks[id].attempts <= s.tasks[id].maximum
    ensures r.tasks[id].maximum <= s.tasks[id].maximum + if CameBack(s, r, id) then 1 else 0
  {}

  ghost predicate Budgeted(s: State, run: RunId, id: TaskId) {
    Inv(s) && In(s, id, run) && InBudget(s, run)
  }

  lemma RevivalNext(s: State, x: Timed, r: State, run: RunId, id: TaskId)
    requires Next(s, x, r) && In(s, id, run) && InBudget(s, run) && !Overdraws(s, x.step, run)
    ensures In(r, id, run) && InBudget(r, run)
    ensures r.tasks[id].maximum <= s.tasks[id].maximum + if CameBack(s, r, id) then 1 else 0
  {
    BudgetNext(s, x, r, run);
    assert WithinBudget(s.tasks[id]) && RowCause(s, x, r, id);
    MaximumGrowsByRevival(s, x, r, id);
  }

  lemma RevivalStep(s: State, x: Timed, run: RunId, id: TaskId)
    requires Budgeted(s, run, id) && s.clock <= x.now && !Overdraws(s, x.step, run)
    ensures Budgeted(Apply(s, x), run, id)
    ensures Apply(s, x).tasks[id].maximum <= s.tasks[id].maximum + if CameBack(s, Apply(s, x), id) then 1 else 0
  {
    StepIsNext(s, x);
    StepKeepsInv(s, x);
    RevivalNext(s, x, Apply(s, x), run, id);
  }

  /** attempt_count is at most the maximum the task started with plus the times it was revived. */
  lemma {:induction false} AttemptsBoundedByRevivals(s: State, xs: seq<Timed>, run: RunId, id: TaskId)
    requires Budgeted(s, run, id) && Legal(s, xs) && NeverOverdrawn(s, xs, run)
    ensures Budgeted(After(s, xs), run, id)
    ensures var t := After(s, xs).tasks[id];
            t.attempts <= t.maximum <= s.tasks[id].maximum + Revivals(s, xs, id)
    decreases |xs|
  {
    if xs == [] {
      assert WithinBudget(s.tasks[id]);
    } else {
      RevivalStep(s, xs[0], run, id);
      AttemptsBoundedByRevivals(Apply(s, xs[0]), xs[1..], run, id);
    }
  }

  // ---------------------------------------------------------------------
  // What an overdraw leads to
  // ---------------------------------------------------------------------

  lemma RebuiltByReplay(s: State, now: Time, dead: TaskId, task: TaskId)
    requires CanReplay(s, dead) && In(s, task, s.tasks[dead].run)
    requires s.tasks[task].status.Cancelled? && UpstreamDone(s.tasks, task)
    ensures var t, r := s.tasks[task], ReplayDead(s, now, dead);
            task in r.tasks && r.tasks[task] == t.(status := if t.available > now then RetryWait else Ready)
  {
    var revived := s.tasks[dead := Revived(s.tasks[dead], now)];
    assert UpstreamDone(revived, task);
  }

  lemma ReplayLeavesReady(s: State, now: Time, dead: TaskId, task: TaskId, r: State)
    requires CanReplay(s, dead) && In(s, task, s.tasks[dead].run)
    requires s.tasks[task].status.Cancelled? && UpstreamDone(s.tasks, task)
    requires r == Apply(s, At(now, Replay(dead)))
    ensures In(r, task, s.tasks[task].run) && r.tasks[task].run in r.runs
    ensures r.tasks[task].status.Ready? || r.tasks[task].status.RetryWait?
    ensures r.tasks[task].attempts == s.tasks[task].attempts && r.tasks[task].maximum == s.tasks[task].maximum
  {
    RebuiltByReplay(s, now, dead, task);
  }

  lemma WakeMakesReady(s: State, id: TaskId, now: Time, r: State)
    requires id in s.tasks && (s.tasks[id].status.Ready? || s.tasks[id].status.RetryWait?)
    requires s.tasks[id].available <= now && r == Apply(s, At(now, Wake))
    ensures id in r.tasks && r.tasks[id] == s.tasks[id].(status := Ready) && r.runs == s.runs
  {}

  lemma SendMakesDispatching(s: State, id: TaskId, r: State)
    requires CanDispatch(s, s.clock, id) && r == Apply(s, At(s.clock, Send([id])))
    ensures id in r.tasks && r.tasks[id] == s.tasks[id].(status := Dispatching)
  {
    DispatchOfOne(s, s.clock, id);
  }

  /** A task that is READY, or waiting for its backoff, can be leased once that is over. */
  lemma ReadyTaskIsLeased(s: State, id: TaskId, worker: WorkerId, lease: Time) returns (xs: seq<Timed>, r: State)
    requires id in s.tasks && s.tasks[id].run in s.runs
    requires s.tasks[id].status.Ready? || s.tasks[id].status.RetryWait?
    ensures Leads(s, xs, r)
    ensures In(r, id, s.tasks[id].run)
    ensures r.tasks[id].attempts == s.tasks[id].attempts + 1 && r.tasks[id].maximum == s.tasks[id].maximum
  {
    var m := s;
    var later := if s.tasks[id].available > s.clock then s.tasks[id].available else s.clock;
    LeadsNowhere(s);
    xs, r := Then(s, [], s, At(later, Wake));
    WakeMakesReady(s, id, later, r);
    m := r;
    xs, r := Then(s, xs, m, At(m.clock, Send([id])));
    SendMakesDispatching(m, id, r);
    xs, r := Then(s, xs, r, At(r.clock, Lease(id, worker, lease)));
  }

  lemma SpentIsReleased(s: State, run: RunId, dead: TaskId, task: TaskId)
    requires Inv(s) && Overdraws(s, Replay(dead), run) && Spent(s, task, run)
    ensures CanReplay(s, dead) && UpstreamDone(s.tasks, task) && run in s.runs
  {
    assert Placed(s, dead) && ExactAt(s.tasks, task) && RowOk(s.tasks[task], s.clock);
  }

  /** Every ReplayDead that overdraws lets a worker take the spent task beyond its maximum, once it is available. */
  lemma OverdrawnReplayExceeds(s: State, now: Time, run: RunId, dead: TaskId, task: TaskId, worker: WorkerId,
                               lease: Time)
    returns (xs: seq<Timed>, r: State)
    requires Inv(s) && s.clock <= now && Overdraws(s, Replay(dead), run) && Spent(s, task, run)
    ensures Leads(Apply(s, At(now, Replay(dead))), xs, r)
    ensures In(r, task, run) && r.tasks[task].attempts == r.tasks[task].maximum + 1
    ensures !InBudget(r, run)
  {
    SpentIsReleased(s, run, dead, task);
    var back := Apply(s, At(now, Replay(dead)));
    ReplayLeavesReady(s, now, dead, task, back);
    xs, r := ReadyTaskIsLeased(back, task, worker, lease);
    assert !WithinBudget(r.tasks[task]);
  }

  /**
   * How a task gets spent: in any RUNNING run with a DEAD task and a worker at the last attempt of another,
   * cancelling the run and then failing that attempt leaves ReplayDead of the DEAD task an overdraw.
   */
  lemma CancellationSpends(s: State, now: Time, run: RunId, dead: TaskId, task: TaskId, worker: WorkerId)
    requires RunIs(s, run, RunRunning) && dead != task && In(s, dead, run) && s.tasks[dead].status.Dead?
    requires In(s, task, run) && Holds(s, now, task, worker) && s.tasks[task].attempts == s.tasks[task].maximum
    ensures Overdraws(FailTask(CancelRun(s, now, run), now, task, worker, true, RunCancelled), Replay(dead), run)
  {
    var cancelled := CancelRun(s, now, run);
    assert cancelled.tasks[task] == s.tasks[task] && cancelled.tasks[dead] == s.tasks[dead];
    assert Spent(FailTask(cancelled, now, task, worker, true, RunCancelled), task, run);
  }
}
