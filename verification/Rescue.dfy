/** The boundary of recovery: an unfinished run can still succeed exactly while one of its tasks can move. */
module Rescue {
  import opened TaskStates
  import opened Lifecycle
  import opened Rows
  import opened Causes
  import opened Invariants
  import opened Executions
  import opened Progress
  import opened Completion

  // ---------------------------------------------------------------------
  // Without a movable task nothing helps
  // ---------------------------------------------------------------------

  ghost predicate HasMovable(s: State, run: RunId) {
    exists id :: In(s, id, run) && Movable(s.tasks[id])
  }

  /** The run is unfinished and none of its tasks can move. */
  ghost predicate Stranded(s: State, run: RunId) {
    run in s.runs && !RunIs(s, run, RunSucceeded) && forall id :: In(s, id, run) ==> !Movable(s.tasks[id])
  }

  lemma StrandedRow(s: State, x: Timed, r: State, id: TaskId, run: RunId)
    requires Stranded(s, run) && In(s, id, run) && id in r.tasks && RowCause(s, x, r, id)
    ensures !Movable(r.tasks[id])
  {}

  lemma StrandedRun(s: State, x: Timed, r: State, run: RunId)
    requires Stranded(s, run) && run in r.runs && RunCause(s, x, r, run)
    ensures !RunIs(r, run, RunSucceeded)
  {}

  lemma StrandedNext(s: State, x: Timed, r: State, run: RunId)
    requires Next(s, x, r) && Stranded(s, run)
    ensures Stranded(r, run)
  {
    assert RunCause(s, x, r, run);
    StrandedRun(s, x, r, run);
    forall id | In(r, id, run) ensures !Movable(r.tasks[id]) {
      assert id in s.tasks;
      assert In(s, id, run) && RowCause(s, x, r, id);
      StrandedRow(s, x, r, id, run);
    }
  }

  /** Whatever workers, the scheduler and operators do, a stranded run stays unfinished. */
  lemma {:induction false} StrandedForever(s: State, xs: seq<Timed>, run: RunId)
    requires Inv(s) && Legal(s, xs) && Stranded(s, run)
    ensures Stranded(After(s, xs), run)
    decreases |xs|
  {
    if xs != [] {
      StepIsNext(s, xs[0]);
      StepKeepsInv(s, xs[0]);
      StrandedNext(s, xs[0], Apply(s, xs[0]), run);
      StrandedForever(Apply(s, xs[0]), xs[1..], run);
    }
  }

  // ---------------------------------------------------------------------
  // A movable task can be brought to its death
  // ---------------------------------------------------------------------

  /** The task of the run has the given status; nothing is said about the run. */
  ghost predicate Has(s: State, run: RunId, id: TaskId, status: TaskStatus) {
    run in s.runs && In(s, id, run) && s.tasks[id].status == status
  }

  /** The run is unfinished and not CANCELLED. */
  ghost predicate Open(s: State, run: RunId) {
    run in s.runs && (RunIs(s, run, RunRunning) || RunIs(s, run, RunFailed))
  }

  lemma SendStep(s: State, run: RunId, id: TaskId) returns (x: Timed)
    requires Has(s, run, id, Ready)
    ensures s.clock <= x.now && Has(Apply(s, x), run, id, Dispatching) && Apply(s, x).runs == s.runs
  {
    x := At(Later(s.tasks[id].available, s.clock), Send([id]));
    DispatchOfOne(s, x.now, id);
  }

  lemma WakeStep(s: State, run: RunId, id: TaskId) returns (x: Timed)
    requires Has(s, run, id, RetryWait)
    ensures s.clock <= x.now && Has(Apply(s, x), run, id, Ready) && Apply(s, x).runs == s.runs
  {
    x := At(Later(s.tasks[id].available, s.clock), Wake);
  }

  lemma LeaseStep(s: State, run: RunId, id: TaskId) returns (x: Timed)
    requires Has(s, run, id, Dispatching)
    ensures s.clock <= x.now && Has(Apply(s, x), run, id, Leased) && Apply(s, x).runs == s.runs
    ensures Fresh(Apply(s, x), id)
  {
    x := At(s.clock, Lease(id, "", 1));
  }

  lemma FailStep(s: State, run: RunId, id: TaskId) returns (x: Timed)
    requires run in s.runs && In(s, id, run) && s.tasks[id].status.Held() && Fresh(s, id)
    ensures s.clock <= x.now && Has(Apply(s, x), run, id, Dead)
    ensures Open(s, run) ==> Open(Apply(s, x), run)
  {
    x := At(s.clock, Fail(id, s.tasks[id].owner.value, false, RunRunning));
  }

  lemma RecoverStep(s: State, run: RunId, id: TaskId) returns (x: Timed)
    requires run in s.runs && In(s, id, run) && Expired(s, s.clock, id)
    ensures s.clock <= x.now && (Has(Apply(s, x), run, id, Dead) || Has(Apply(s, x), run, id, RetryWait))
    ensures Open(s, run) ==> Open(Apply(s, x), run)
  {
    x := At(s.clock, Recover([Pick(id, RunRunning)]));
    RecoverOfOne(s, s.clock, Pick(id, RunRunning));
  }

  /** The task has got to the given status, and the run is CANCELLED only if it was. */
  ghost predicate OnWay(s: State, xs: seq<Timed>, r: State, run: RunId, id: TaskId, status: TaskStatus) {
    Leads(s, xs, r) && Has(r, run, id, status) && (Open(s, run) ==> Open(r, run))
  }

  lemma KillDispatching(s: State, xs: seq<Timed>, m: State, run: RunId, id: TaskId) returns (ys: seq<Timed>, r: State)
    requires OnWay(s, xs, m, run, id, Dispatching)
    ensures OnWay(s, ys, r, run, id, Dead)
  {
    var x := LeaseStep(m, run, id);
    ys, r := Then(s, xs, m, x);
    x := FailStep(r, run, id);
    ys, r := Then(s, ys, r, x);
  }

  lemma KillReady(s: State, xs: seq<Timed>, m: State, run: RunId, id: TaskId) returns (ys: seq<Timed>, r: State)
    requires OnWay(s, xs, m, run, id, Ready)
    ensures OnWay(s, ys, r, run, id, Dead)
  {
    var x := SendStep(m, run, id);
    ys, r := Then(s, xs, m, x);
    ys, r := KillDispatching(s, ys, r, run, id);
  }

  lemma KillRetryWait(s: State, xs: seq<Timed>, m: State, run: RunId, id: TaskId) returns (ys: seq<Timed>, r: State)
    requires OnWay(s, xs, m, run, id, RetryWait)
    ensures OnWay(s, ys, r, run, id, Dead)
  {
    var x := WakeStep(m, run, id);
    ys, r := Then(s, xs, m, x);
    ys, r := KillReady(s, ys, r, run, id);
  }

  lemma KillHeld(s: State, run: RunId, id: TaskId) returns (ys: seq<Timed>, r: State)
    requires run in s.runs && In(s, id, run) && s.tasks[id].status.Held()
    requires s.tasks[id].owner.Some? && s.tasks[id].expires.Some?
    ensures OnWay(s, ys, r, run, id, Dead)
  {
    LeadsNowhere(s);
    if s.tasks[id].expires.value > s.clock {
      var x := FailStep(s, run, id);
      ys, r := Then(s, [], s, x);
    } else {
      var x := RecoverStep(s, run, id);
      ys, r := Then(s, [], s, x);
      if !r.tasks[id].status.Dead? {
        ys, r := KillRetryWait(s, ys, r, run, id);
      }
    }
  }

  lemma Kill(s: State, run: RunId, id: TaskId) returns (ys: seq<Timed>, r: State)
    requires run in s.runs && In(s, id, run) && Movable(s.tasks[id])
    requires s.tasks[id].status.Held() ==> s.tasks[id].owner.Some? && s.tasks[id].expires.Some?
    ensures OnWay(s, ys, r, run, id, Dead)
  {
    LeadsNowhere(s);
    var status := s.tasks[id].status;
    if status.Held() {
      ys, r := KillHeld(s, run, id);
    } else if status.Ready? {
      ys, r := KillReady(s, [], s, run, id);
    } else if status.Dispatching? {
      ys, r := KillDispatching(s, [], s, run, id);
    } else if status.RetryWait? {
      ys, r := KillRetryWait(s, [], s, run, id);
    } else {
      ys, r := [], s;
    }
  }

  // ---------------------------------------------------------------------
  // And a dead one brings the run back
  // ---------------------------------------------------------------------

  /** RetryRun opens a CANCELLED run; the revived task is then brought to its death once more. */
  lemma KillOpen(s: State, run: RunId, id: TaskId) returns (ys: seq<Timed>, r: State)
    requires Has(s, run, id, Dead)
    ensures OnWay(s, ys, r, run, id, Dead) && (RunIs(s, run, RunSucceeded) || Open(r, run))
  {
    LeadsNowhere(s);
    ys, r := [], s;
    if RunIs(s, run, RunCancelled) {
      RetryRow(s, run, id);
      var m;
      ys, m := Then(s, [], s, At(s.clock, Retry(run)));
      var zs;
      LeadsNowhere(m);
      zs, r := KillReady(m, [], m, run, id);
      LeadsOn(s, ys, m, zs, r);
      ys := ys + zs;
    }
  }

  lemma ReplayRescues(s: State, run: RunId, id: TaskId) returns (x: Timed)
    requires Inv(s) && Has(s, run, id, Dead) && Open(s, run)
    ensures s.clock <= x.now && RunIs(Apply(s, x), run, RunRunning) && Clean(Apply(s, x), run) && Inv(Apply(s, x))
  {
    x := At(s.clock, Replay(id));
    StepKeepsInv(s, x);
    ReplayOpens(s, x, run, id);
    StepIsNext(s, x);
    ReplayCleans(s, x, Apply(s, x), run, id);
  }

  lemma ReplayOpens(s: State, x: Timed, run: RunId, id: TaskId)
    requires x.step == Replay(id) && Has(s, run, id, Dead) && Open(s, run)
    ensures RunIs(Apply(s, x), run, RunRunning)
  {}

  lemma ReplayCleans(s: State, x: Timed, r: State, run: RunId, id: TaskId)
    requires Next(s, x, r) && x.step == Replay(id) && Has(s, run, id, Dead)
    ensures Clean(r, run)
  {
    assert CanReplay(s, id);
    forall i | In(r, i, run) ensures !r.tasks[i].status.Cancelled? {
      assert i in s.tasks;
      assert In(s, i, run);
    }
  }

  lemma LeadsKeepsInv(s: State, xs: seq<Timed>, r: State)
    requires Inv(s) && Leads(s, xs, r)
    ensures Inv(r)
  {
    LeadsIsExecution(s, xs, r);
    RunKeepsInv(s, xs);
  }

  lemma MovableIsLeased(s: State, run: RunId, id: TaskId)
    requires Inv(s) && In(s, id, run)
    ensures run in s.runs
    ensures s.tasks[id].status.Held() ==> s.tasks[id].owner.Some? && s.tasks[id].expires.Some?
  {
    assert Placed(s, id) && RowOk(s.tasks[id], s.clock);
  }

  lemma KillToOpen(s: State, run: RunId, id: TaskId) returns (xs: seq<Timed>, r: State)
    requires Inv(s) && In(s, id, run) && Movable(s.tasks[id]) && !RunIs(s, run, RunSucceeded)
    ensures Leads(s, xs, r) && Has(r, run, id, Dead) && Open(r, run)
  {
    MovableIsLeased(s, run, id);
    var m, ys;
    xs, m := Kill(s, run, id);
    LeadsKeepsInv(s, xs, m);
    DeadRunIsNotSucceeded(m, run, id);
    ys, r := KillOpen(m, run, id);
    LeadsOn(s, xs, m, ys, r);
    xs := xs + ys;
  }

  lemma DeadRunIsNotSucceeded(s: State, run: RunId, id: TaskId)
    requires Inv(s) && Has(s, run, id, Dead)
    ensures !RunIs(s, run, RunSucceeded)
  {
    assert HasDead(s, run);
    DeadRunIsNotDone(s, run);
  }

  /** From any movable task of an unfinished run there is a way to success. */
  lemma MovableRunSucceeds(s: State, run: RunId, id: TaskId) returns (xs: seq<Timed>, r: State)
    requires Inv(s) && In(s, id, run) && Movable(s.tasks[id]) && !RunIs(s, run, RunSucceeded)
    ensures Leads(s, xs, r) && RunIs(r, run, RunSucceeded)
  {
    var m, ys;
    xs, m := KillToOpen(s, run, id);
    LeadsKeepsInv(s, xs, m);
    var x := ReplayRescues(m, run, id);
    xs, m := Then(s, xs, m, x);
    ys, r := RunCompletes(m, run);
    LeadsOn(s, xs, m, ys, r);
    xs := xs + ys;
  }

  ghost predicate Succeeds(s: State, xs: seq<Timed>, run: RunId) {
    Legal(s, xs) && RunIs(After(s, xs), run, RunSucceeded)
  }

  /**
   * The boundary of recovery, with every command at hand: an unfinished run has a continuation to SUCCEEDED if
   * and only if one of its tasks is neither SUCCEEDED, nor CANCELLED, nor BLOCKED. In a CANCELLED run it takes a
   * read from before the cancellation to make a held task DEAD rather than CANCELLED.
   */
  lemma RecoverableExactlyWhenMovable(s: State, run: RunId)
    requires Inv(s) && run in s.runs && !RunIs(s, run, RunSucceeded)
    ensures (exists xs :: Succeeds(s, xs, run)) <==> HasMovable(s, run)
  {
    if HasMovable(s, run) {
      var id :| In(s, id, run) && Movable(s.tasks[id]);
      var xs, r := MovableRunSucceeds(s, run, id);
      LeadsIsExecution(s, xs, r);
      assert Succeeds(s, xs, run);
    } else {
      forall xs ensures !Succeeds(s, xs, run) {
        if Legal(s, xs) {
          StrandedForever(s, xs, run);
        }
      }
    }
  }
}
