/** Options, task statuses, the transition table and the retry delay (internal/workflow/state.go). */
module TaskStates {

  datatype Option<+T> = None | Some(value: T)

  datatype TaskStatus =
    | Blocked
    | Ready
    | Dispatching
    | Leased
    | Running
    | Succeeded
    | RetryWait
    | Dead
    | Cancelled
  {
    /** A worker holds the task. */
    predicate Held() {
      Leased? || Running?
    }

    /** Not yet leased for its next attempt: what a cancellation sweeps away. */
    predicate Pending() {
      Blocked? || Ready? || Dispatching? || RetryWait?
    }
  }

  const HELD := {Leased, Running}
  const WAITING := {Blocked, Ready, Dispatching, RetryWait}

  lemma StatusClasses(t: TaskStatus)
    ensures t.Held() <==> t in HELD
    ensures t.Pending() <==> t in WAITING
  {}

  /** The rows of the transitions table; a status without a row allows nothing. */
  function Successors(from: TaskStatus): (r: set<TaskStatus>) {
    match from
    case Blocked => {Ready, Cancelled}
    case Ready => {Dispatching, Cancelled}
    case Dispatching => {Leased, Ready, Cancelled}
    case Leased => {Running, RetryWait, Dead, Cancelled}
    case Running => {Succeeded, RetryWait, Dead, Cancelled}
    case RetryWait => {Ready, Cancelled}
    case _ => {}
  }

  predicate CanTransition(from: TaskStatus, to: TaskStatus) {
    to in Successors(from)
  }

  // Time is counted in nanoseconds, as in time.Duration.
  const SECOND := 1_000_000_000

  function Pow2(n: nat): (p: nat)
    ensures p >= 1
  {
    if n == 0 then 1 else 2 * Pow2(n - 1)
  }

  function Min(a: int, b: int): (m: int) {
    if a <= b then a else b
  }

  function RetryDelay(attempt: int): (d: int)
    ensures 2 * SECOND <= d <= 3600 * SECOND
  {
    var n := if attempt < 1 then 1 else attempt;
    Min(3600, 2 * Pow2(n - 1)) * SECOND
  }

  lemma {:induction false} Pow2Grows(n: nat, m: nat)
    requires n <= m
    ensures Pow2(n) <= Pow2(m)
    decreases m - n
  {
    if n < m {
      Pow2Grows(n + 1, m);
    }
  }

  /** The closed form doubles until it meets the one-hour cap, which it reaches at attempt 12. */
  lemma DelayDoublesToCap(n: nat)
    requires n >= 1
    ensures RetryDelay(1) == 2 * SECOND
    ensures RetryDelay(n + 1) == Min(3600 * SECOND, 2 * RetryDelay(n))
    ensures RetryDelay(n) == 3600 * SECOND <==> n >= 12
  {
    assert Pow2(11) == 2048 by {
      assert Pow2(4) == 16;
      assert Pow2(8) == 256;
    }
    assert Pow2(10) == 1024 by {
      assert Pow2(11) == 2 * Pow2(10);
    }
    if n >= 12 {
      Pow2Grows(11, n - 1);
    } else {
      Pow2Grows(n - 1, 10);
    }
  }
}
