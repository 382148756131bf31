/** Deadlock freedom, what RetryRun recovers and what it does not, over whole executions. */
module Progress {
  import opened TaskStates
  import opened Lifecycle
  import opened Rows
  import opened Causes
  import opened Invariants

  // ---------------------------------------------------------------------
  // What a stale read can and cannot say
  // ---------------------------------------------------------------------

  /** A task of the run that is told "the run is CANCELLED" is told the truth. */
  ghost predicate Honest(s: State, x: Step, run: RunId) {
    SaysCancelled(s, x, run) ==> RunIs(s, run, RunCancelled)
  }

  /** FailTask or recoverExpired acts on a CANCELLED it read for a task of the run. */
  ghost predicate SaysCancelled(s: State, x: Step, run: RunId) {
    match x
    case Fail(id, _, _, seen) => In(s, id, run) && seen.RunCancelled?
    case Recover(picks) => exists p :: p in picks && In(s, p.task, run) && p.seen.RunCancelled?
    case _ => false
  }

  ghost predicate HonestAlong(s: State, xs: seq<Timed>, run: RunId)
    decreases |xs|
  {
    xs == [] || (Honest(s, xs[0].step, run) && HonestAlong(Apply(s, xs[0]), xs[1..], run))
  }

  /** CANCELLED is left by RetryRun only, whatever is read elsewhere. */
  lemma CancelledRunStays(s: State, x: Timed, run: RunId)
    requires Inv(s) && s.clock <= x.now && RunIs(s, run, RunCancelled) && x.step != Retry(run)
    ensures RunIs(Apply(s, x), run, RunCancelled)
  {
    StepIsNext(s, x);
    assert RunCause(s, x, Apply(s, x), run);
  }

  lemma FutileRetryStays(s: State, x: Timed, run: RunId)
    requires x.step == Retry(run) && !HasDead(s, run)
    ensures Apply(s, x) == s.(clock := x.now)
  {}

  /**
   * Reads may be stale: CANCELLED is read only if the run was CANCELLED now or at an earlier time, `was`
   * telling whether it was so before s.
   */
  ghost predicate StaleAlong(s: State, xs: seq<Timed>, run: RunId, was: bool)
    decreases |xs|
  {
    xs == [] ||
    var now := was || RunIs(s, run, RunCancelled);
    (SaysCancelled(s, xs[0].step, run) ==> now) && StaleAlong(Apply(s, xs[0]), xs[1..], run, now)
  }

  /** RetryRun takes the run out of CANCELLED. */
  ghost predicate Uncancels(s: State, x: Step, run: RunId) {
    x == Retry(run) && HasDead(s, run) && RunIs(s, run, RunCancelled)
  }

  ghost predicate NeverUncancelled(s: State, xs: seq<Timed>, run: RunId)
    decreases |xs|
  {
    xs == [] || (!Uncancels(s, xs[0].step, run) && NeverUncancelled(Apply(s, xs[0]), xs[1..], run))
  }

  lemma CancelledUnlessUncancelled(s: State, x: Timed, run: RunId)
    requires Inv(s) && s.clock <= x.now && RunIs(s, run, RunCancelled) && !Uncancels(s, x.step, run)
    ensures RunIs(Apply(s, x), run, RunCancelled)
  {
    if x.step == Retry(run) {
      FutileRetryStays(s, x, run);
    } else {
      CancelledRunStays(s, x, run);
    }
  }

  /** Stale reads are honest as long as RetryRun does not take the run out of CANCELLED. */
  lemma {:induction false} StaleIsHonest(s: State, xs: seq<Timed>, run: RunId, was: bool)
    requires Inv(s) && Legal(s, xs) && StaleAlong(s, xs, run, was) && NeverUncancelled(s, xs, run)
    requires was ==> RunIs(s, run, RunCancelled)
    ensures HonestAlong(s, xs, run)
    decreases |xs|
  {
    if xs != [] {
      StepKeepsInv(s, xs[0]);
      if RunIs(s, run, RunCancelled) {
        CancelledUnlessUncancelled(s, xs[0], run);
      }
      StaleIsHonest(Apply(s, xs[0]), xs[1..], run, was || RunIs(s, run, RunCancelled));
    }
  }

  /** ReplayDead finds a DEAD task of the run. */
  ghost predicate ReplaysIn(s: State, x: Step, run: RunId) {
    x.Replay? && In(s, x.task, run) && s.tasks[x.task].status.Dead?
  }

  /** RetryRun or ReplayDead finds a DEAD task of the run to revive. */
  ghost predicate Revives(s: State, x: Step, run: RunId) {
    (x == Retry(run) && HasDead(s, run)) || ReplaysIn(s, x, run)
  }

  // ---------------------------------------------------------------------
  // Deadlock freedom
  // ---------------------------------------------------------------------

  /** No task of the run is CANCELLED. */
  ghost predicate Clean(s: State, run: RunId) {
    forall id :: In(s, id, run) ==> !s.tasks[id].status.Cancelled?
  }

  ghost predicate Unswept(s: State, run: RunId) {
    RunIs(s, run, RunRunning) ==> Clean(s, run)
  }

  /** What to check before RetryRun: where it would revive something, no task of the run is CANCELLED. */
  ghost predicate Checked(s: State, x: Step, run: RunId) {
    x == Retry(run) && HasDead(s, run) ==> Clean(s, run)
  }

  ghost predicate CheckedAlong(s: State, xs: seq<Timed>, run: RunId)
    decreases |xs|
  {
    xs == [] || (Checked(s, xs[0].step, run) && CheckedAlong(Apply(s, xs[0]), xs[1..], run))
  }

  lemma StaysUncancelled(s: State, x: Timed, r: State, id: TaskId, run: RunId)
    requires In(s, id, run) && id in r.tasks && RowCause(s, x, r, id)
    requires RunIs(s, run, RunRunning) && RunIs(r, run, RunRunning)
    requires Honest(s, x.step, run) && !s.tasks[id].status.Cancelled?
    ensures !r.tasks[id].status.Cancelled?
  {}

  lemma RetryCancelsNothing(s: State, x: Timed, r: State, id: TaskId)
    requires id in s.tasks && id in r.tasks && RowCause(s, x, r, id) && x.step.Retry?
    ensures r.tasks[id].status.Cancelled? <==> s.tasks[id].status.Cancelled?
  {}

  lemma UnsweptNext(s: State, x: Timed, r: State, run: RunId)
    requires Next(s, x, r) && Unswept(s, run) && Honest(s, x.step, run) && Checked(s, x.step, run)
    ensures Unswept(r, run)
  {
    if RunIs(r, run, RunRunning) {
      forall id | In(r, id, run) ensures !r.tasks[id].status.Cancelled? {
        if id in s.tasks {
          assert RowCause(s, x, r, id) && Placed(s, id);
          assert RunCause(s, x, r, run);
          if x.step == Retry(run) {
            RetryCancelsNothing(s, x, r, id);
          } else if RunIs(s, run, RunRunning) {
            StaysUncancelled(s, x, r, id, run);
          }
        }
      }
    }
  }

  lemma {:induction false} UnsweptRun(s: State, xs: seq<Timed>, run: RunId)
    requires Inv(s) && Legal(s, xs) && Unswept(s, run) && HonestAlong(s, xs, run) && CheckedAlong(s, xs, run)
    ensures Unswept(After(s, xs), run) && Inv(After(s, xs))
    decreases |xs|
  {
    if xs != [] {
      StepIsNext(s, xs[0]);
      StepKeepsInv(s, xs[0]);
      UnsweptNext(s, xs[0], Apply(s, xs[0]), run);
      UnsweptRun(Apply(s, xs[0]), xs[1..], run);
    }
  }

  lemma RetryReopens(s: State, x: Timed, run: RunId)
    requires x.step == Retry(run) && run in s.runs && HasDead(s, run)
    ensures RunIs(Apply(s, x), run, RunRunning)
  {}

  lemma RetryNext(s: State, x: Timed, r: State, run: RunId)
    requires Next(s, x, r) && x.step == Retry(run) && RunIs(r, run, RunRunning) && run in s.runs
    ensures Unswept(r, run) <==> Clean(s, run)
  {
    forall id | In(s, id, run) ensures In(r, id, run) {
      assert id in r.tasks;
    }
    forall id | In(s, id, run)
      ensures r.tasks[id].status.Cancelled? <==> s.tasks[id].status.Cancelled?
    {
      assert RowCause(s, x, r, id);
      RetryCancelsNothing(s, x, r, id);
    }
    forall id | In(r, id, run) ensures In(s, id, run) {
      assert id in s.tasks;
    }
  }

  /**
   * When RetryRun recovers a run: the RUNNING run it leaves has no CANCELLED task if and only if there was
   * none before the call.
   */
  lemma RetryRecoversExactlyWhenClean(s: State, now: Time, run: RunId)
    requires Inv(s) && s.clock <= now && run in s.runs && HasDead(s, run)
    ensures Unswept(Apply(s, At(now, Retry(run))), run) <==> Clean(s, run)
  {
    var x := At(now, Retry(run));
    StepIsNext(s, x);
    RetryReopens(s, x, run);
    RetryNext(s, x, Apply(s, x), run);
  }

  /** Down the ranks to a task that has not succeeded although everything before it has. */
  lemma {:induction false} Front(s: State, run: RunId, rank: map<TaskId, nat>, id: TaskId) returns (f: TaskId)
    requires Structured(s) && RankOf(s, run, rank) && In(s, id, run) && !s.tasks[id].status.Succeeded?
    ensures In(s, f, run) && !s.tasks[f].status.Succeeded? && UpstreamDone(s.tasks, f)
    decreases if id in rank then rank[id] else 0
  {
    if UpstreamDone(s.tasks, id) {
      f := id;
    } else {
      var u :| u in s.tasks[id].upstream && u in s.tasks && !s.tasks[u].status.Succeeded?;
      assert Placed(s, id) && Above(rank, id, s.tasks[id].upstream);
      assert Above(rank, u, s.tasks[u].upstream);
      f := Front(s, run, rank, u);
    }
  }

  /** A task that a worker, the scheduler or an operator can still move. */
  ghost predicate Movable(t: Task) {
    t.status.Ready? || t.status.Dispatching? || t.status.Held() || t.status.RetryWait? || t.status.Dead?
  }

  /** An unfinished run always has a task at its front that is either movable or CANCELLED. */
  lemma UnfinishedRunHasFront(s: State, run: RunId) returns (f: TaskId)
    requires Inv(s) && run in s.runs && !RunIs(s, run, RunSucceeded)
    ensures In(s, f, run) && UpstreamDone(s.tasks, f)
    ensures Movable(s.tasks[f]) || s.tasks[f].status.Cancelled?
  {
    assert RunSound(s, run);
    var id :| id in s.tasks && s.tasks[id].run == run && !s.tasks[id].status.Succeeded?;
    assert Layered(s, run);
    var rank :| RankOf(s, run, rank);
    f := Front(s, run, rank, id);
    assert ExactAt(s.tasks, f);
  }

  /**
   * Deadlock freedom: where reads are honest and RetryRun is used only with the check, a RUNNING run has
   * no CANCELLED task and some task can move. Acyclicity comes from ValidateDAG through CreateRun.
   */
  lemma DeadlockFree(xs: seq<Timed>, run: RunId) returns (f: TaskId)
    requires Legal(EMPTY, xs) && HonestAlong(EMPTY, xs, run) && CheckedAlong(EMPTY, xs, run)
    requires RunIs(After(EMPTY, xs), run, RunRunning)
    ensures Clean(After(EMPTY, xs), run)
    ensures In(After(EMPTY, xs), f, run) && Movable(After(EMPTY, xs).tasks[f])
  {
    UnsweptRun(EMPTY, xs, run);
    f := UnfinishedRunHasFront(After(EMPTY, xs), run);
  }

  /** The same on stale reads, for executions in which RetryRun does not take the run out of CANCELLED. */
  lemma DeadlockFreeOnStaleReads(xs: seq<Timed>, run: RunId) returns (f: TaskId)
    requires Legal(EMPTY, xs) && StaleAlong(EMPTY, xs, run, false)
    requires CheckedAlong(EMPTY, xs, run) && NeverUncancelled(EMPTY, xs, run)
    requires RunIs(After(EMPTY, xs), run, RunRunning)
    ensures Clean(After(EMPTY, xs), run)
    ensures In(After(EMPTY, xs), f, run) && Movable(After(EMPTY, xs).tasks[f])
  {
    StaleIsHonest(EMPTY, xs, run, false);
    f := DeadlockFree(xs, run);
  }

  // ---------------------------------------------------------------------
  // RetryRun and cancelled siblings
  // ---------------------------------------------------------------------

  ghost predicate NeverReplayed(s: State, xs: seq<Timed>, run: RunId)
    decreases |xs|
  {
    xs == [] || (!ReplaysIn(s, xs[0].step, run) && NeverReplayed(Apply(s, xs[0]), xs[1..], run))
  }

  lemma CancelledRowStays(s: State, x: Timed, r: State, id: TaskId)
    requires id in s.tasks && id in r.tasks && RowCause(s, x, r, id)
    requires s.tasks[id].status.Cancelled? && !ReplaysIn(s, x.step, s.tasks[id].run)
    ensures r.tasks[id] == s.tasks[id]
  {}

  lemma CancelledTaskStays(s: State, x: Timed, id: TaskId)
    requires Inv(s) && s.clock <= x.now && id in s.tasks && s.tasks[id].status.Cancelled?
    requires !ReplaysIn(s, x.step, s.tasks[id].run)
    ensures id in Apply(s, x).tasks && Apply(s, x).tasks[id] == s.tasks[id]
  {
    StepIsNext(s, x);
    assert RowCause(s, x, Apply(s, x), id);
    CancelledRowStays(s, x, Apply(s, x), id);
  }

  /**
   * A run with a CANCELLED task never becomes SUCCEEDED unless ReplayDead acts in it, so RetryRun
   * alone does not recover a run whose death swept its siblings.
   */
  lemma {:induction false} CancelledTaskBlocksCompletion(s: State, xs: seq<Timed>, id: TaskId)
    requires Inv(s) && Legal(s, xs) && id in s.tasks && s.tasks[id].status.Cancelled?
    requires NeverReplayed(s, xs, s.tasks[id].run)
    ensures id in After(s, xs).tasks && After(s, xs).tasks[id] == s.tasks[id]
    ensures !RunIs(After(s, xs), s.tasks[id].run, RunSucceeded)
    decreases |xs|
  {
    if xs == [] {
      assert Placed(s, id) && RunSound(s, s.tasks[id].run);
      assert !AllSucceeded(s.tasks, s.tasks[id].run);
    } else {
      CancelledTaskStays(s, xs[0], id);
      StepKeepsInv(s, xs[0]);
      CancelledTaskBlocksCompletion(Apply(s, xs[0]), xs[1..], id);
    }
  }

  /** FailTask to DEAD followed by RetryRun: the run is RUNNING again, its swept siblings are not back. */
  lemma DeathThenRetryLeavesSiblings(s: State, now: Time, id: TaskId, worker: WorkerId, later: Time, sibling: TaskId)
    requires CanHeartbeat(s, now, id, worker) && RunIs(s, s.tasks[id].run, RunRunning)
    requires In(s, sibling, s.tasks[id].run) && s.tasks[sibling].status.Pending()
    ensures var dead := FailTask(s, now, id, worker, false, RunRunning);
            var back := RetryRun(dead, later, s.tasks[id].run);
            && RunIs(dead, s.tasks[id].run, RunFailed)
            && RunIs(back, s.tasks[id].run, RunRunning)
            && back.tasks[id].status.Ready?
            && back.tasks[sibling].status.Cancelled?
  {
    var dead := FailTask(s, now, id, worker, false, RunRunning);
    assert dead.tasks[id].status.Dead? && dead.tasks[id].run == s.tasks[id].run;
    assert HasDead(dead, s.tasks[id].run);
  }

  /** No task of the run can move: all are SUCCEEDED, CANCELLED or BLOCKED behind one of those. */
  ghost predicate Wedged(s: State, run: RunId) {
    RunIs(s, run, RunRunning) && forall id :: In(s, id, run) ==> !Movable(s.tasks[id])
  }

  lemma WedgedRowStays(s: State, x: Timed, r: State, id: TaskId, run: RunId)
    requires Wedged(s, run) && x.step != Cancel(run)
    requires In(s, id, run) && id in r.tasks && RowCause(s, x, r, id)
    ensures r.tasks[id] == s.tasks[id]
  {}

  lemma WedgedRunStays(s: State, x: Timed, r: State, run: RunId)
    requires Wedged(s, run) && x.step != Cancel(run) && run in r.runs && RunCause(s, x, r, run)
    ensures r.runs[run] == s.runs[run]
  {
    assert !HasDead(s, run) by {
      assert forall id :: id in s.tasks && s.tasks[id].run == run ==> In(s, id, run);
    }
  }

  lemma WedgedNext(s: State, x: Timed, r: State, run: RunId)
    requires Next(s, x, r) && Wedged(s, run) && x.step != Cancel(run)
    ensures Wedged(r, run)
    ensures forall id :: In(s, id, run) ==> id in r.tasks && r.tasks[id] == s.tasks[id]
  {
    assert RunCause(s, x, r, run);
    WedgedRunStays(s, x, r, run);
    forall id | In(s, id, run) ensures id in r.tasks && r.tasks[id] == s.tasks[id] {
      assert RowCause(s, x, r, id);
      WedgedRowStays(s, x, r, id, run);
    }
    forall id | In(r, id, run) ensures !Movable(r.tasks[id]) {
      assert id in s.tasks;
    }
  }

  /**
   * A wedged run stays RUNNING with every one of its rows unchanged, whatever workers, the scheduler
   * and operators do, until CancelRun ends it: RetryRun and ReplayDead find nothing DEAD to revive.
   */
  lemma {:induction false} WedgedForever(s: State, xs: seq<Timed>, run: RunId)
    requires Inv(s) && Legal(s, xs) && Wedged(s, run)
    requires forall x :: x in xs ==> x.step != Cancel(run)
    ensures Wedged(After(s, xs), run)
    ensures forall id :: In(s, id, run) ==> id in After(s, xs).tasks && After(s, xs).tasks[id] == s.tasks[id]
    decreases |xs|
  {
    if xs != [] {
      StepIsNext(s, xs[0]);
      StepKeepsInv(s, xs[0]);
      WedgedNext(s, xs[0], Apply(s, xs[0]), run);
      WedgedForever(Apply(s, xs[0]), xs[1..], run);
    }
  }

  lemma DispatchOfOne(s: State, now: Time, id: TaskId)
    ensures Dispatch(s, now, [id]) == DispatchOne(s, now, id)
  {
    assert [id][1..] == [];
    assert Dispatch(s, now, [id]) == Dispatch(DispatchOne(s, now, id), now, []);
  }

  lemma RecoverOfOne(s: State, now: Time, p: Pick)
    ensures RecoverExpired(s, now, [p]) == RecoverOne(s, now, p)
  {
    assert [p][1..] == [];
    assert RecoverExpired(s, now, [p]) == RecoverExpired(RecoverOne(s, now, p), now, []);
  }

  /** A movable task of a RUNNING run is one that some step can still change. */
  lemma MovableMoves(s: State, id: TaskId, run: RunId) returns (x: Timed)
    requires RunIs(s, run, RunRunning) && In(s, id, run) && Movable(s.tasks[id])
    requires s.tasks[id].status.Held() ==> s.tasks[id].expires.Some?
    ensures s.clock <= x.now && x.step != Cancel(run)
    ensures id in Apply(s, x).tasks && Apply(s, x).tasks[id].status != s.tasks[id].status
  {
    var t := s.tasks[id];
    var later := if t.available > s.clock then t.available else s.clock;
    if t.status.Ready? {
      x := At(later, Send([id]));
      DispatchOfOne(s, later, id);
    } else if t.status.Dispatching? {
      x := At(s.clock, Lease(id, "", 0));
    } else if t.status.RetryWait? {
      x := At(later, Wake);
    } else if t.status.Dead? {
      x := At(s.clock, Replay(id));
    } else {
      var over := if t.expires.value > s.clock then t.expires.value else s.clock;
      x := At(over, Recover([Pick(id, RunRunning)]));
      RecoverOfOne(s, over, Pick(id, RunRunning));
    }
  }

  ghost predicate Advances(s: State, x: Timed, run: RunId) {
    && s.clock <= x.now && x.step != Cancel(run)
    && exists id :: In(s, id, run) && id in Apply(s, x).tasks && Apply(s, x).tasks[id] != s.tasks[id]
  }

  /** A RUNNING run can go on exactly when it is not wedged. */
  lemma StuckExactlyWhenWedged(s: State, run: RunId)
    requires Inv(s) && RunIs(s, run, RunRunning)
    ensures Wedged(s, run) <==> forall x :: !Advances(s, x, run)
  {
    if Wedged(s, run) {
      forall x ensures !Advances(s, x, run) {
        if s.clock <= x.now && x.step != Cancel(run) {
          StepIsNext(s, x);
          WedgedNext(s, x, Apply(s, x), run);
        }
      }
    } else {
      var id :| In(s, id, run) && Movable(s.tasks[id]);
      assert RowOk(s.tasks[id], s.clock);
      var x := MovableMoves(s, id, run);
      assert Advances(s, x, run);
    }
  }
}
