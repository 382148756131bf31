/** How much work a run can cause as long as no operator revives its tasks. */
module Bounds {
  import opened TaskStates
  import opened Lifecycle
  import opened Rows
  import opened Steps
  import opened Causes
  import opened Invariants
  import opened Progress
  import opened Budget

  // ---------------------------------------------------------------------
  // Bounded work
  // ---------------------------------------------------------------------

  /** Five changes per remaining attempt, less the distance already covered in this one. */
  ghost function Fuel(t: Task): (m: int) {
    5 * (t.maximum - t.attempts) +
    match t.status
    case Blocked => 3
    case RetryWait => 3
    case Ready => 2
    case Dispatching => 1
    case Leased => 5
    case Running => 4
    case _ => -5 * (t.maximum - t.attempts)
  }

  /** Every change of status made without an operator burns fuel, and nothing else touches it. */
  lemma MovesBurnFuel(t: Task, u: Task, now: Time)
    requires Automatic(t, u, now) && WithinBudget(t)
    ensures WithinBudget(u) && Fuel(u) >= 0
    ensures if u.status == t.status then Fuel(u) == Fuel(t) else Fuel(u) < Fuel(t)
  {}

  ghost predicate NeverRevived(s: State, xs: seq<Timed>, run: RunId)
    decreases |xs|
  {
    xs == [] || (!Revives(s, xs[0].step, run) && NeverRevived(Apply(s, xs[0]), xs[1..], run))
  }

  /** The number of steps that change the status of a task. */
  ghost function Changes(s: State, xs: seq<Timed>, id: TaskId): (n: nat)
    decreases |xs|
  {
    if xs == [] then 0 else
      var r := Apply(s, xs[0]);
      (if id in s.tasks && id in r.tasks && r.tasks[id].status != s.tasks[id].status then 1 else 0)
      + Changes(r, xs[1..], id)
  }

  /** Operators that revive nothing in the run leave its tasks alone. */
  lemma OperatorElsewhere(s: State, x: Timed, id: TaskId, run: RunId)
    requires ByOperator(x.step) && In(s, id, run) && !Revives(s, x.step, run)
    ensures id in Effect(s, x).tasks && Effect(s, x).tasks[id] == s.tasks[id]
  {}

  lemma UnrevivedMoves(s: State, x: Timed, id: TaskId, run: RunId)
    requires In(s, id, run) && !Revives(s, x.step, run)
    ensures id in Effect(s, x).tasks && Automatic(s.tasks[id], Effect(s, x).tasks[id], x.now)
  {
    if ByOperator(x.step) {
      OperatorElsewhere(s, x, id, run);
    } else {
      AutomaticStep(s, x);
      assert AutomaticRow(s, Effect(s, x), x.now, id);
    }
  }

  lemma StepBurnsFuel(s: State, x: Timed, id: TaskId, run: RunId)
    requires In(s, id, run) && !Revives(s, x.step, run) && WithinBudget(s.tasks[id])
    ensures var r := Apply(s, x);
            && In(r, id, run) && WithinBudget(r.tasks[id]) && Fuel(r.tasks[id]) >= 0
            && if r.tasks[id].status == s.tasks[id].status then Fuel(r.tasks[id]) == Fuel(s.tasks[id])
               else Fuel(r.tasks[id]) < Fuel(s.tasks[id])
  {
    UnrevivedMoves(s, x, id, run);
    var u := Effect(s, x).tasks[id];
    assert Apply(s, x).tasks[id] == u;
    MovesBurnFuel(s.tasks[id], u, x.now);
    MovesKeepIdentity(s.tasks[id], u, x.now);
  }

  lemma {:induction false} TaskWorkIsBounded(s: State, xs: seq<Timed>, id: TaskId, run: RunId)
    requires In(s, id, run) && NeverRevived(s, xs, run) && WithinBudget(s.tasks[id])
    ensures Changes(s, xs, id) <= Fuel(s.tasks[id])
    decreases |xs|
  {
    if xs == [] {
      MovesBurnFuel(s.tasks[id], s.tasks[id], 0);
    } else {
      StepBurnsFuel(s, xs[0], id, run);
      TaskWorkIsBounded(Apply(s, xs[0]), xs[1..], id, run);
    }
  }

  ghost function TotalChanges(s: State, xs: seq<Timed>, ids: seq<TaskId>): (n: nat) {
    if ids == [] then 0 else Changes(s, xs, ids[0]) + TotalChanges(s, xs, ids[1..])
  }

  ghost function Allowance(s: State, ids: seq<TaskId>): (n: int)
    requires forall id :: id in ids ==> id in s.tasks
  {
    if ids == [] then 0 else 5 * s.tasks[ids[0]].maximum + 3 + Allowance(s, ids[1..])
  }

  ghost predicate NoneRevived(s: State, xs: seq<Timed>, ids: seq<TaskId>) {
    forall id :: id in ids && id in s.tasks ==> NeverRevived(s, xs, s.tasks[id].run)
  }

  /**
   * Bounded work: however workers, the scheduler, cancellations and operators on other runs interleave, new
   * tasks change status at most 5 * maximum_attempts + 3 times each, in whatever order they are counted.
   */
  lemma {:induction false} RunWorkIsBounded(s: State, xs: seq<Timed>, ids: seq<TaskId>)
    requires NoneRevived(s, xs, ids)
    requires forall id :: id in ids ==> id in s.tasks && NewlyMade(s.tasks[id])
    ensures TotalChanges(s, xs, ids) <= Allowance(s, ids)
  {
    if ids != [] {
      assert NewlyMade(s.tasks[ids[0]]);
      TaskWorkIsBounded(s, xs, ids[0], s.tasks[ids[0]].run);
      RunWorkIsBounded(s, xs, ids[1..]);
    }
  }

  /** The bound from the submission on: it covers whatever tasks the step inserted. */
  lemma CreatedRunWork(s: State, x: Timed, xs: seq<Timed>, ids: seq<TaskId>)
    requires Inv(s) && s.clock <= x.now && NoneRevived(Apply(s, x), xs, ids)
    requires forall id :: id in ids ==> id in Apply(s, x).tasks && id !in s.tasks
    ensures TotalChanges(Apply(s, x), xs, ids) <= Allowance(Apply(s, x), ids)
  {
    StepOnlyNewRows(s, x);
    RunWorkIsBounded(Apply(s, x), xs, ids);
  }
}
