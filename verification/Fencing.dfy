/** Leases, cancellation, success and idempotency over whole executions. */
module Fencing {
  import opened TaskStates
  import opened Lifecycle
  import opened Rows
  import opened Causes
  import opened Invariants
  import opened Progress
  import Effects

  // ---------------------------------------------------------------------
  // Lease fencing
  // ---------------------------------------------------------------------

  ghost predicate Holder(s: State, id: TaskId, worker: WorkerId) {
    id in s.tasks && s.tasks[id].status.Held() && s.tasks[id].owner == Some(worker)
  }

  ghost predicate LeasesTo(x: Step, id: TaskId, worker: WorkerId) {
    x.Lease? && x.task == id && x.worker == worker
  }

  /** LeaseTask hands the task to the worker; refused calls do not count. */
  ghost predicate Grants(s: State, x: Step, id: TaskId, worker: WorkerId) {
    LeasesTo(x, id, worker) && CanLease(s, id)
  }

  ghost predicate NeverGranted(s: State, xs: seq<Timed>, id: TaskId, worker: WorkerId)
    decreases |xs|
  {
    xs == [] || (!Grants(s, xs[0].step, id, worker) && NeverGranted(Apply(s, xs[0]), xs[1..], id, worker))
  }

  lemma OnlyGrantMakesHolder(s: State, x: Timed, r: State, id: TaskId, worker: WorkerId)
    requires Next(s, x, r) && !Holder(s, id, worker) && !Grants(s, x.step, id, worker)
    ensures !Holder(r, id, worker)
  {
    if id in s.tasks {
      assert RowCause(s, x, r, id);
    }
  }

  /** What a worker gets from the four lease-checked calls: ErrLeaseLost, and the tables as they were. */
  ghost predicate LeaseLost(s: State, now: Time, id: TaskId, worker: WorkerId) {
    && !CanStart(s, now, id, worker)
    && !CanHeartbeat(s, now, id, worker)
    && !CanComplete(s, now, id, worker)
    && Effect(s, At(now, Start(id, worker))) == s
    && (forall lease :: Effect(s, At(now, Heartbeat(id, worker, lease))) == s)
    && Effect(s, At(now, Complete(id, worker))) == s
    && (forall retryable, seen :: Effect(s, At(now, Fail(id, worker, retryable, seen))) == s)
  }

  /** A worker without the lease stays shut out until LeaseTask grants it that task. */
  lemma {:induction false} StaleWorkerIsFenced(s: State, xs: seq<Timed>, id: TaskId, worker: WorkerId, now: Time)
    requires Inv(s) && Legal(s, xs) && !Holder(s, id, worker) && NeverGranted(s, xs, id, worker)
    ensures !Holder(After(s, xs), id, worker)
    ensures LeaseLost(After(s, xs), now, id, worker)
    decreases |xs|
  {
    if xs != [] {
      StepIsNext(s, xs[0]);
      StepKeepsInv(s, xs[0]);
      OnlyGrantMakesHolder(s, xs[0], Apply(s, xs[0]), id, worker);
      StaleWorkerIsFenced(Apply(s, xs[0]), xs[1..], id, worker, now);
    }
  }

  /** An expired lease is as good as none, even before recovery has taken the task back. */
  lemma ExpiredLeaseIsLost(s: State, now: Time, id: TaskId, worker: WorkerId)
    requires id in s.tasks && s.tasks[id].expires.Some? && s.tasks[id].expires.value <= now
    ensures LeaseLost(s, now, id, worker)
  {}

  /** The worker holds no lease of the task, or one that has run out, recovered or not. */
  ghost predicate LeaseEnded(s: State, id: TaskId, worker: WorkerId) {
    Holder(s, id, worker) ==> s.tasks[id].expires.Some? && s.tasks[id].expires.value <= s.clock
  }

  /** LeaseTask grants the task to the worker for a positive time. */
  ghost predicate Renews(s: State, x: Step, id: TaskId, worker: WorkerId) {
    Grants(s, x, id, worker) && x.lease > 0
  }

  ghost predicate NeverRenewed(s: State, xs: seq<Timed>, id: TaskId, worker: WorkerId)
    decreases |xs|
  {
    xs == [] || (!Renews(s, xs[0].step, id, worker) && NeverRenewed(Apply(s, xs[0]), xs[1..], id, worker))
  }

  lemma EndedRowStays(s: State, x: Timed, r: State, id: TaskId, worker: WorkerId)
    requires id in s.tasks && id in r.tasks && RowCause(s, x, r, id) && s.clock <= x.now == r.clock
    requires LeaseEnded(s, id, worker) && !Grants(s, x.step, id, worker)
    ensures LeaseEnded(r, id, worker)
  {}

  lemma EndedNext(s: State, x: Timed, r: State, id: TaskId, worker: WorkerId)
    requires Next(s, x, r) && LeaseEnded(s, id, worker) && !Grants(s, x.step, id, worker)
    ensures LeaseEnded(r, id, worker)
  {
    if id in s.tasks {
      assert RowCause(s, x, r, id);
      EndedRowStays(s, x, r, id, worker);
    }
  }

  lemma GrantSets(s: State, x: Timed, id: TaskId, worker: WorkerId)
    requires Grants(s, x.step, id, worker)
    ensures LeaseEnded(Apply(s, x), id, worker) <==> x.step.lease <= 0
  {}

  /** An ended lease stays ended in a step if and only if the step is not a grant of the task to the worker. */
  lemma LeaseComesBackExactlyByGrant(s: State, x: Timed, id: TaskId, worker: WorkerId)
    requires Inv(s) && s.clock <= x.now && LeaseEnded(s, id, worker)
    ensures LeaseEnded(Apply(s, x), id, worker) <==> !Renews(s, x.step, id, worker)
  {
    if Grants(s, x.step, id, worker) {
      GrantSets(s, x, id, worker);
    } else {
      StepIsNext(s, x);
      EndedNext(s, x, Apply(s, x), id, worker);
    }
  }

  lemma EndedIsLost(s: State, now: Time, id: TaskId, worker: WorkerId)
    requires LeaseEnded(s, id, worker) && s.clock <= now
    ensures LeaseLost(s, now, id, worker)
  {
    if Holder(s, id, worker) {
      ExpiredLeaseIsLost(s, now, id, worker);
    }
  }

  /**
   * A worker whose lease ended, even while the row still names it, gets ErrLeaseLost and no effect from then
   * on until LeaseTask grants it that task again. Calls of LeaseTask that are refused change nothing.
   */
  lemma {:induction false} EndedLeaseIsFenced(s: State, xs: seq<Timed>, id: TaskId, worker: WorkerId, now: Time)
    requires Inv(s) && Legal(s, xs) && LeaseEnded(s, id, worker) && NeverRenewed(s, xs, id, worker)
    requires After(s, xs).clock <= now
    ensures LeaseEnded(After(s, xs), id, worker)
    ensures LeaseLost(After(s, xs), now, id, worker)
    decreases |xs|
  {
    if xs == [] {
      EndedIsLost(s, now, id, worker);
    } else {
      StepKeepsInv(s, xs[0]);
      LeaseComesBackExactlyByGrant(s, xs[0], id, worker);
      EndedLeaseIsFenced(Apply(s, xs[0]), xs[1..], id, worker, now);
    }
  }

  lemma {:induction false} EarlierEnded(t: Task, clock: Time, i: nat, j: nat)
    requires RowOk(t, clock) && i < j < |t.history|
    ensures t.history[i].ended.Some? && t.history[i].ended.value <= t.history[j].started
    decreases j - i
  {
    assert AttemptOk(t, i, clock);
    if i + 1 < j {
      EarlierEnded(t, clock, i + 1, j);
      assert AttemptOk(t, i + 1, clock);
    }
  }

  /** Successive attempts own the task one after the other. */
  lemma AttemptsDoNotOverlap(xs: seq<Timed>, id: TaskId, i: nat, j: nat)
    requires Legal(EMPTY, xs) && id in After(EMPTY, xs).tasks && i < j < |After(EMPTY, xs).tasks[id].history|
    ensures var h := After(EMPTY, xs).tasks[id].history;
            h[i].ended.Some? && h[i].ended.value <= h[j].started
  {
    Reachable(xs);
    var s := After(EMPTY, xs);
    assert RowOk(s.tasks[id], s.clock);
    EarlierEnded(s.tasks[id], s.clock, i, j);
  }

  // ---------------------------------------------------------------------
  // A lease lasts
  // ---------------------------------------------------------------------

  /** The worker holds the task and its lease runs until then at least. */
  ghost predicate LeasedUntil(s: State, id: TaskId, worker: WorkerId, until: Time) {
    Holder(s, id, worker) && s.tasks[id].expires.Some? && until <= s.tasks[id].expires.value
  }

  /** The worker's own calls that end the lease earlier: it completes or fails the attempt, or asks for less time. */
  ghost predicate GivesAway(s: State, x: Timed, id: TaskId, worker: WorkerId, until: Time) {
    match x.step
    case Complete(task, w) => task == id && w == worker && CanComplete(s, x.now, id, worker)
    case Fail(task, w, _, _) => task == id && w == worker
    case Heartbeat(task, w, lease) => task == id && w == worker && x.now + lease < until
    case _ => false
  }

  ghost predicate NeverGivenAway(s: State, xs: seq<Timed>, id: TaskId, worker: WorkerId, until: Time)
    decreases |xs|
  {
    xs == [] || (!GivesAway(s, xs[0], id, worker, until) && NeverGivenAway(Apply(s, xs[0]), xs[1..], id, worker, until))
  }

  lemma LeaseRowStays(s: State, x: Timed, r: State, id: TaskId, worker: WorkerId, until: Time)
    requires id in r.tasks && LeasedUntil(s, id, worker, until) && RowCause(s, x, r, id)
    requires x.now < until && !GivesAway(s, x, id, worker, until) && !x.step.Heartbeat?
    ensures LeasedUntil(r, id, worker, until)
  {}

  lemma HeartbeatMoves(s: State, x: Timed, id: TaskId, worker: WorkerId, until: Time)
    requires LeasedUntil(s, id, worker, until) && s.tasks[id].run in s.runs && x.now < until && x.step.Heartbeat?
    ensures LeasedUntil(Apply(s, x), id, worker, until) <==> !GivesAway(s, x, id, worker, until)
  {
    Effects.HeartbeatDoes(s, x.now, x.step.task, x.step.worker, x.step.lease, Apply(s, x));
  }

  lemma CompletionLetsGo(s: State, x: Timed, id: TaskId, worker: WorkerId)
    requires x.step == Complete(id, worker) && CanComplete(s, x.now, id, worker)
    ensures !Holder(Apply(s, x), id, worker)
  {
    Effects.CompleteDoes(s, x.now, id, worker, Apply(s, x));
  }

  lemma FailureLetsGo(s: State, x: Timed, id: TaskId, worker: WorkerId)
    requires x.step.Fail? && x.step.task == id && x.step.worker == worker && CanHeartbeat(s, x.now, id, worker)
    ensures !Holder(Apply(s, x), id, worker)
  {
    Effects.FailDoes(s, x.now, id, worker, x.step.retryable, x.step.seen, Apply(s, x));
  }

  /** While it has time left a lease is lost in a step if and only if the step is the worker's own giving it away. */
  lemma LeaseEndsExactlyByHolder(s: State, x: Timed, id: TaskId, worker: WorkerId, until: Time)
    requires Inv(s) && s.clock <= x.now < until && LeasedUntil(s, id, worker, until)
    ensures LeasedUntil(Apply(s, x), id, worker, until) <==> !GivesAway(s, x, id, worker, until)
  {
    assert Placed(s, id);
    if x.step.Heartbeat? {
      HeartbeatMoves(s, x, id, worker, until);
    } else if !GivesAway(s, x, id, worker, until) {
      StepIsNext(s, x);
      assert RowCause(s, x, Apply(s, x), id);
      LeaseRowStays(s, x, Apply(s, x), id, worker, until);
    } else if x.step.Complete? {
      CompletionLetsGo(s, x, id, worker);
    } else {
      FailureLetsGo(s, x, id, worker);
    }
  }

  lemma {:induction false} ClockAfter(s: State, xs: seq<Timed>)
    requires Legal(s, xs)
    ensures s.clock <= After(s, xs).clock
    decreases |xs|
  {
    if xs != [] {
      ClockAfter(Apply(s, xs[0]), xs[1..]);
    }
  }

  /** None of the worker's calls is refused for want of a lease; Start and Complete ask for their status and a run. */
  ghost predicate Served(s: State, now: Time, id: TaskId, worker: WorkerId) {
    && id in s.tasks && CanHeartbeat(s, now, id, worker)
    && (s.tasks[id].status.Leased? && RunIs(s, s.tasks[id].run, RunRunning) ==> CanStart(s, now, id, worker))
    && (s.tasks[id].status.Running? && RunIs(s, s.tasks[id].run, RunRunning) ==> CanComplete(s, now, id, worker))
  }

  /** A lease that runs until then serves the worker until then, whatever everyone else does. */
  lemma {:induction false} LeaseLasts(s: State, xs: seq<Timed>, id: TaskId, worker: WorkerId, until: Time, now: Time)
    requires Inv(s) && Legal(s, xs) && LeasedUntil(s, id, worker, until) && NeverGivenAway(s, xs, id, worker, until)
    requires After(s, xs).clock <= now < until
    ensures LeasedUntil(After(s, xs), id, worker, until) && Served(After(s, xs), now, id, worker)
    decreases |xs|
  {
    if xs == [] {
      assert Placed(s, id);
    } else {
      StepKeepsInv(s, xs[0]);
      ClockAfter(Apply(s, xs[0]), xs[1..]);
      LeaseEndsExactlyByHolder(s, xs[0], id, worker, until);
      LeaseLasts(Apply(s, xs[0]), xs[1..], id, worker, until, now);
    }
  }

  /** LeaseTask and HeartbeatTask give the worker the time they are asked for. */
  lemma GrantGivesTime(s: State, x: Timed, id: TaskId, worker: WorkerId)
    requires || (x.step.Lease? && CanLease(s, id))
             || (x.step.Heartbeat? && CanHeartbeat(s, x.now, id, worker))
    requires x.step.task == id && x.step.worker == worker
    ensures LeasedUntil(Apply(s, x), id, worker, x.now + x.step.lease)
  {
    if x.step.Lease? {
      Effects.LeaseDoes(s, x.now, id, worker, x.step.lease, Apply(s, x));
    } else {
      Effects.HeartbeatDoes(s, x.now, id, worker, x.step.lease, Apply(s, x));
    }
  }

  // ---------------------------------------------------------------------
  // Cancellation
  // ---------------------------------------------------------------------

  lemma FenceRow(s: State, x: Timed, r: State, id: TaskId, run: RunId)
    requires In(s, id, run) && id in r.tasks && RowCause(s, x, r, id) && RunIs(s, run, RunCancelled)
    ensures r.tasks[id].status.Running? ==> s.tasks[id].status.Running?
    ensures r.tasks[id].status.Succeeded? ==> s.tasks[id].status.Succeeded?
  {}

  /** A CANCELLED run stays so in a step if and only if the step is not a RetryRun that finds a DEAD task. */
  lemma CancellationEndsExactlyByRetry(s: State, x: Timed, run: RunId)
    requires Inv(s) && s.clock <= x.now && RunIs(s, run, RunCancelled)
    ensures RunIs(Apply(s, x), run, RunCancelled) <==> !Uncancels(s, x.step, run)
  {
    if Uncancels(s, x.step, run) {
      RetryReopens(s, x, run);
    } else {
      CancelledUnlessUncancelled(s, x, run);
    }
  }

  /**
   * After CancelRun nothing of the run starts or completes until a RetryRun takes effect, whatever is read
   * elsewhere.
   */
  lemma {:induction false} CancellationFence(s: State, xs: seq<Timed>, run: RunId, id: TaskId)
    requires Inv(s) && Legal(s, xs) && RunIs(s, run, RunCancelled) && In(s, id, run)
    requires NeverUncancelled(s, xs, run)
    ensures RunIs(After(s, xs), run, RunCancelled) && In(After(s, xs), id, run)
    ensures After(s, xs).tasks[id].status.Running? ==> s.tasks[id].status.Running?
    ensures After(s, xs).tasks[id].status.Succeeded? ==> s.tasks[id].status.Succeeded?
    decreases |xs|
  {
    if xs != [] {
      StepIsNext(s, xs[0]);
      StepKeepsInv(s, xs[0]);
      CancelledUnlessUncancelled(s, xs[0], run);
      assert RowCause(s, xs[0], Apply(s, xs[0]), id);
      FenceRow(s, xs[0], Apply(s, xs[0]), id, run);
      CancellationFence(Apply(s, xs[0]), xs[1..], run, id);
    }
  }

  /** Tasks of a CANCELLED run are told so. */
  ghost predicate Fresh(s: State, x: Step, run: RunId) {
    RunIs(s, run, RunCancelled) ==>
      match x
      case Fail(id, _, _, seen) => In(s, id, run) ==> seen.RunCancelled?
      case Recover(picks) => forall p :: p in picks && In(s, p.task, run) ==> p.seen.RunCancelled?
      case _ => true
  }

  /** No operator revives a task of the run and its tasks read its status. */
  ghost predicate Undisturbed(s: State, x: Step, run: RunId) {
    Fresh(s, x, run) && !Revives(s, x, run)
  }

  ghost predicate UndisturbedAlong(s: State, xs: seq<Timed>, run: RunId)
    decreases |xs|
  {
    xs == [] || (Undisturbed(s, xs[0].step, run) && UndisturbedAlong(Apply(s, xs[0]), xs[1..], run))
  }

  ghost predicate Drained(s: State, run: RunId) {
    forall id :: In(s, id, run) ==> !s.tasks[id].status.Pending()
  }

  lemma CancelDrains(s: State, now: Time, run: RunId)
    requires RunIs(s, run, RunRunning)
    ensures RunIs(CancelRun(s, now, run), run, RunCancelled) && Drained(CancelRun(s, now, run), run)
  {}

  lemma DrainRow(s: State, x: Timed, r: State, id: TaskId, run: RunId)
    requires In(s, id, run) && id in r.tasks && RowCause(s, x, r, id) && RunIs(s, run, RunCancelled)
    requires Undisturbed(s, x.step, run)
    requires !s.tasks[id].status.Pending()
    ensures OnlyDrained(s.tasks[id].status, r.tasks[id].status)
  {
    assert s.tasks[id].status.Dead? ==> HasDead(s, run);
  }

  ghost predicate Draining(s: State, run: RunId, id: TaskId) {
    Inv(s) && RunIs(s, run, RunCancelled) && In(s, id, run) && !s.tasks[id].status.Pending()
  }

  ghost predicate OnlyDrained(before: TaskStatus, after: TaskStatus) {
    after == before || (before.Held() && after.Cancelled?)
  }

  lemma DrainNext(s: State, x: Timed, r: State, run: RunId, id: TaskId)
    requires Next(s, x, r) && Undisturbed(s, x.step, run)
    requires RunIs(s, run, RunCancelled) && In(s, id, run) && !s.tasks[id].status.Pending()
    ensures RunIs(r, run, RunCancelled) && In(r, id, run) && !r.tasks[id].status.Pending()
    ensures OnlyDrained(s.tasks[id].status, r.tasks[id].status)
  {
    assert RunCause(s, x, r, run) && RowCause(s, x, r, id);
    DrainRow(s, x, r, id, run);
  }

  lemma DrainStep(s: State, x: Timed, run: RunId, id: TaskId)
    requires Draining(s, run, id) && s.clock <= x.now && Undisturbed(s, x.step, run)
    ensures Draining(Apply(s, x), run, id)
    ensures OnlyDrained(s.tasks[id].status, Apply(s, x).tasks[id].status)
  {
    StepIsNext(s, x);
    StepKeepsInv(s, x);
    DrainNext(s, x, Apply(s, x), run, id);
  }

  /** With nothing revived, the held tasks of a cancelled run only drain into CANCELLED and the others keep still. */
  lemma {:induction false} CancellationDrains(s: State, xs: seq<Timed>, run: RunId, id: TaskId)
    requires Draining(s, run, id) && Legal(s, xs) && UndisturbedAlong(s, xs, run)
    ensures Draining(After(s, xs), run, id)
    ensures OnlyDrained(s.tasks[id].status, After(s, xs).tasks[id].status)
    decreases |xs|
  {
    if xs != [] {
      DrainStep(s, xs[0], run, id);
      CancellationDrains(Apply(s, xs[0]), xs[1..], run, id);
    }
  }

  // ---------------------------------------------------------------------
  // Success is for good
  // ---------------------------------------------------------------------

  lemma SuccessRowStays(s: State, x: Timed, r: State, id: TaskId)
    requires id in s.tasks && id in r.tasks && RowCause(s, x, r, id) && s.tasks[id].status.Succeeded?
    ensures r.tasks[id] == s.tasks[id]
  {}

  lemma SuccessStays(s: State, x: Timed, id: TaskId)
    requires Inv(s) && s.clock <= x.now && id in s.tasks && s.tasks[id].status.Succeeded?
    ensures id in Apply(s, x).tasks && Apply(s, x).tasks[id] == s.tasks[id]
  {
    StepIsNext(s, x);
    assert RowCause(s, x, Apply(s, x), id);
    SuccessRowStays(s, x, Apply(s, x), id);
  }

  /** No step leaves SUCCEEDED; the completed row, owner and history included, is frozen. */
  lemma {:induction false} SuccessIsPermanent(s: State, xs: seq<Timed>, id: TaskId)
    requires Inv(s) && Legal(s, xs) && id in s.tasks && s.tasks[id].status.Succeeded?
    ensures id in After(s, xs).tasks && After(s, xs).tasks[id] == s.tasks[id]
    decreases |xs|
  {
    if xs != [] {
      StepKeepsInv(s, xs[0]);
      SuccessStays(s, xs[0], id);
      SuccessIsPermanent(Apply(s, xs[0]), xs[1..], id);
    }
  }

  lemma DoneRunNext(s: State, x: Timed, r: State, run: RunId)
    requires RunIs(s, run, RunSucceeded) && run in r.runs && RunCause(s, x, r, run) && x.step != Retry(run)
    ensures RunIs(r, run, RunSucceeded)
  {}

  lemma DoneRunStays(s: State, x: Timed, run: RunId)
    requires Inv(s) && s.clock <= x.now && RunIs(s, run, RunSucceeded)
    ensures RunIs(Apply(s, x), run, RunSucceeded)
  {
    if x.step == Retry(run) {
      if HasDead(s, run) {
        DeadRunIsNotDone(s, run);
      }
      FutileRetryStays(s, x, run);
    } else {
      StepIsNext(s, x);
      assert RunCause(s, x, Apply(s, x), run);
      DoneRunNext(s, x, Apply(s, x), run);
    }
  }

  /** A SUCCEEDED run stays so under CancelRun, RetryRun and ReplayDead too. */
  lemma {:induction false} CompletionIsPermanent(s: State, xs: seq<Timed>, run: RunId)
    requires Inv(s) && Legal(s, xs) && RunIs(s, run, RunSucceeded)
    ensures RunIs(After(s, xs), run, RunSucceeded)
    decreases |xs|
  {
    if xs != [] {
      StepKeepsInv(s, xs[0]);
      DoneRunStays(s, xs[0], run);
      CompletionIsPermanent(Apply(s, xs[0]), xs[1..], run);
    }
  }

  // ---------------------------------------------------------------------
  // Idempotent submission
  // ---------------------------------------------------------------------

  lemma KeyStaysTaken(s: State, x: Timed, key: string)
    requires Inv(s) && s.clock <= x.now && KeyTaken(s, key)
    ensures KeyTaken(Apply(s, x), key)
  {
    var run :| run in s.runs && s.runs[run].key == key;
    StepIsNext(s, x);
    assert RunCause(s, x, Apply(s, x), run);
    assert Apply(s, x).runs[run].key == key;
  }

  /** Once a key is used, submitting it again never creates anything, and one run carries it. */
  lemma {:induction false} SubmissionIsIdempotent(s: State, xs: seq<Timed>, again: Timed)
    requires Inv(s) && Legal(s, xs) && again.step.Create? && KeyTaken(s, again.step.key)
    ensures Effect(After(s, xs), again) == After(s, xs)
    ensures exists run :: run in After(s, xs).runs && After(s, xs).runs[run].key == again.step.key
                          && forall q :: q in After(s, xs).runs && After(s, xs).runs[q].key == again.step.key
                                         ==> q == run
    decreases |xs|
  {
    if xs == [] {
      var run :| run in s.runs && s.runs[run].key == again.step.key;
      assert forall q :: q in s.runs && s.runs[q].key == again.step.key ==> q == run;
    } else {
      KeyStaysTaken(s, xs[0], again.step.key);
      StepKeepsInv(s, xs[0]);
      SubmissionIsIdempotent(Apply(s, xs[0]), xs[1..], again);
    }
  }
}
