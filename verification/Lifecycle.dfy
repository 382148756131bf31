/**
 * The task and run tables, and each transaction that changes them as a function of the tables
 * (internal/storage/worker.go, internal/storage/postgres.go, internal/scheduler/scheduler.go).
 *
 * Every transaction is one atomic step with one clock reading. FailTask and recoverExpired join
 * workflow_runs without locking it, so the run status they read is a parameter (`seen`).
 */
module Lifecycle {
  import opened TaskStates
  import Dag

  type RunId = nat
  type TaskId = nat
  type WorkerId = string
  type Time = int

  datatype RunStatus = RunRunning | RunSucceeded | RunFailed | RunCancelled

  datatype Run = Run(key: string, status: RunStatus, completed: Option<Time>)

  /** A row of task_attempts. */
  datatype Attempt = Attempt(
    number: nat,
    worker: WorkerId,
    scheduled: Time,
    started: Time,
    executing: Option<Time>,
    ended: Option<Time>,
    exit: Option<TaskStatus>)

  /** A row of task_runs, with its task_dependencies and its task_attempts. */
  datatype Task = Task(
    run: RunId,
    key: string,
    upstream: set<TaskId>,
    status: TaskStatus,
    available: Time,
    attempts: nat,
    maximum: nat,
    owner: Option<WorkerId>,
    expires: Option<Time>,
    history: seq<Attempt>)

  datatype Kind =
    | TaskReady
    | TaskDispatch
    | TaskLeased
    | TaskSucceeded
    | TaskRetryWait
    | TaskDead
    | TaskCancelled
    | TaskReplayed

  /** A row of outbox_events; `attempt` is 0 where the payload carries none. */
  datatype Event =
    | RunCreated(run: RunId)
    | TaskEvent(kind: Kind, run: RunId, task: TaskId, attempt: nat)

  /**
   * Rows written by one transaction share created_at and get random ids, so the table is a
   * multiset of events here; the order in which they are published is the subject of Outbox.
   */
  datatype State = State(
    runs: map<RunId, Run>,
    tasks: map<TaskId, Task>,
    outbox: multiset<Event>,
    clock: Time)

  const EMPTY := State(map[], map[], multiset{}, 0)

  predicate RunIs(s: State, run: RunId, status: RunStatus) {
    run in s.runs && s.runs[run].status == status
  }

  // ---------------------------------------------------------------------
  // Updates of a single row
  // ---------------------------------------------------------------------

  /** UPDATE task_attempts SET ended_at, exit_status WHERE attempt_number = number */
  function SetEnded(rows: seq<Attempt>, number: nat, exit: TaskStatus, now: Time): (r: seq<Attempt>) {
    seq(|rows|, i requires 0 <= i < |rows| =>
      if rows[i].number == number then rows[i].(ended := Some(now), exit := Some(exit)) else rows[i])
  }

  /** UPDATE task_attempts SET executing_at WHERE attempt_number = number AND executing_at IS NULL */
  function SetExecuting(rows: seq<Attempt>, number: nat, now: Time): (r: seq<Attempt>) {
    seq(|rows|, i requires 0 <= i < |rows| =>
      if rows[i].number == number && rows[i].executing.None? then rows[i].(executing := Some(now)) else rows[i])
  }

  function Granted(t: Task, worker: WorkerId, expires: Time, now: Time): (u: Task) {
    var row := Attempt(t.attempts + 1, worker, t.available, now, None, None, None);
    t.(status := Leased, owner := Some(worker), expires := Some(expires), attempts := t.attempts + 1,
       history := t.history + [row])
  }

  function Begun(t: Task, now: Time): (u: Task) {
    t.(status := Running, history := SetExecuting(t.history, t.attempts, now))
  }

  /** A completed task keeps lease_owner and loses lease_expires_at. */
  function Finished(t: Task, now: Time): (u: Task) {
    t.(status := Succeeded, expires := None, history := SetEnded(t.history, t.attempts, Succeeded, now))
  }

  /** What an attempt that did not succeed turns its task into. */
  function ExitStatus(seen: RunStatus, mayRetry: bool): (r: TaskStatus) {
    if seen.RunCancelled? then Cancelled else if mayRetry then RetryWait else Dead
  }

  function Ended(t: Task, exit: TaskStatus, now: Time): (u: Task) {
    t.(status := exit,
       available := if exit.RetryWait? then now + RetryDelay(t.attempts) else now,
       owner := None, expires := None,
       history := SetEnded(t.history, t.attempts, exit, now))
  }

  function Revived(t: Task, now: Time): (u: Task) {
    t.(status := Ready, available := now,
       maximum := if t.maximum < t.attempts + 1 then t.attempts + 1 else t.maximum)
  }

  function FailRun(runs: map<RunId, Run>, run: RunId, now: Time): (r: map<RunId, Run>) {
    if run in runs && runs[run].status.RunRunning?
    then runs[run := runs[run].(status := RunFailed, completed := Some(now))]
    else runs
  }

  /** UPDATE task_runs SET status='CANCELLED' WHERE workflow_run_id = run AND status is pending */
  function CancelPending(tasks: map<TaskId, Task>, run: RunId): (r: map<TaskId, Task>) {
    map id | id in tasks ::
      if tasks[id].run == run && tasks[id].status.Pending() then tasks[id].(status := Cancelled) else tasks[id]
  }

  // ---------------------------------------------------------------------
  // Worker transactions
  // ---------------------------------------------------------------------

  predicate CanLease(s: State, id: TaskId) {
    id in s.tasks && s.tasks[id].status.Dispatching?
  }

  function LeaseTask(s: State, now: Time, id: TaskId, worker: WorkerId, lease: Time): (r: State) {
    if !CanLease(s, id) then s else
      var t := Granted(s.tasks[id], worker, now + lease, now);
      s.(tasks := s.tasks[id := t],
         outbox := s.outbox + multiset{TaskEvent(TaskLeased, t.run, id, t.attempts)})
  }

  /** The worker holds an unexpired lease of the task. */
  predicate Holds(s: State, now: Time, id: TaskId, worker: WorkerId) {
    && id in s.tasks
    && s.tasks[id].status.Held()
    && s.tasks[id].owner == Some(worker)
    && s.tasks[id].expires.Some?
    && s.tasks[id].expires.value > now
  }

  predicate CanStart(s: State, now: Time, id: TaskId, worker: WorkerId) {
    Holds(s, now, id, worker) && s.tasks[id].status.Leased? && RunIs(s, s.tasks[id].run, RunRunning)
  }

  function StartTask(s: State, now: Time, id: TaskId, worker: WorkerId): (r: State) {
    if !CanStart(s, now, id, worker) then s else s.(tasks := s.tasks[id := Begun(s.tasks[id], now)])
  }

  predicate CanHeartbeat(s: State, now: Time, id: TaskId, worker: WorkerId) {
    Holds(s, now, id, worker) && s.tasks[id].run in s.runs
  }

  function HeartbeatTask(s: State, now: Time, id: TaskId, worker: WorkerId, lease: Time): (r: State) {
    if !CanHeartbeat(s, now, id, worker) then s
    else s.(tasks := s.tasks[id := s.tasks[id].(expires := Some(now + lease))])
  }

  predicate CanComplete(s: State, now: Time, id: TaskId, worker: WorkerId) {
    Holds(s, now, id, worker) && s.tasks[id].status.Running? && RunIs(s, s.tasks[id].run, RunRunning)
  }

  /** NOT EXISTS an upstream task that has not succeeded. */
  predicate UpstreamDone(tasks: map<TaskId, Task>, id: TaskId)
    requires id in tasks
  {
    forall u :: u in tasks[id].upstream && u in tasks ==> tasks[u].status.Succeeded?
  }

  /** The children a completion of `id` unblocks. */
  predicate Unblocks(tasks: map<TaskId, Task>, id: TaskId, child: TaskId)
    requires id in tasks
  {
    && child in tasks
    && tasks[child].run == tasks[id].run
    && tasks[child].status.Blocked?
    && id in tasks[child].upstream
    && UpstreamDone(tasks, child)
  }

  function UnblockChildren(tasks: map<TaskId, Task>, id: TaskId, now: Time): (r: map<TaskId, Task>)
    requires id in tasks
  {
    map c | c in tasks ::
      if Unblocks(tasks, id, c) then tasks[c].(status := Ready, available := now) else tasks[c]
  }

  function ReadyEvents(tasks: map<TaskId, Task>, id: TaskId): (r: set<Event>)
    requires id in tasks
  {
    set c | c in tasks && Unblocks(tasks, id, c) :: TaskEvent(TaskReady, tasks[c].run, c, 0)
  }

  predicate AllSucceeded(tasks: map<TaskId, Task>, run: RunId) {
    forall id :: id in tasks && tasks[id].run == run ==> tasks[id].status.Succeeded?
  }

  function CompleteRun(runs: map<RunId, Run>, tasks: map<TaskId, Task>, run: RunId, now: Time): (r: map<RunId, Run>)
    requires run in runs
  {
    if AllSucceeded(tasks, run) && runs[run].status.RunRunning?
    then runs[run := runs[run].(status := RunSucceeded, completed := Some(now))]
    else runs
  }

  function CompleteTask(s: State, now: Time, id: TaskId, worker: WorkerId): (r: State) {
    if !CanComplete(s, now, id, worker) then s else
      var t := s.tasks[id];
      var done := s.tasks[id := Finished(t, now)];
      var after := UnblockChildren(done, id, now);
      s.(tasks := after,
         runs := CompleteRun(s.runs, after, t.run, now),
         outbox := s.outbox + multiset(ReadyEvents(done, id))
                   + multiset{TaskEvent(TaskSucceeded, t.run, id, t.attempts)})
  }

  function ExitKind(exit: TaskStatus): (k: Kind) {
    match exit
    case Cancelled => TaskCancelled
    case Dead => TaskDead
    case _ => TaskRetryWait
  }

  /** The row, attempt and event part that FailTask and recoverExpired share. */
  function EndAttempt(s: State, now: Time, id: TaskId, exit: TaskStatus): (r: State)
    requires id in s.tasks
  {
    var t := s.tasks[id];
    s.(tasks := s.tasks[id := Ended(t, exit, now)],
       outbox := s.outbox + multiset{TaskEvent(ExitKind(exit), t.run, id, t.attempts)})
  }

  function FailTask(s: State, now: Time, id: TaskId, worker: WorkerId, retryable: bool, seen: RunStatus): (r: State) {
    if !CanHeartbeat(s, now, id, worker) then s else
      var t := s.tasks[id];
      var exit := ExitStatus(seen, retryable && t.attempts < t.maximum);
      var ended := EndAttempt(s, now, id, exit);
      if exit.Dead?
      then ended.(runs := FailRun(s.runs, t.run, now), tasks := CancelPending(ended.tasks, t.run))
      else ended
  }

  // ---------------------------------------------------------------------
  // Scheduler transactions
  // ---------------------------------------------------------------------

  /** First statement of tick: retry waits that have elapsed become ready. */
  function WakeRetries(s: State, now: Time): (r: State) {
    s.(tasks := map id | id in s.tasks ::
         if s.tasks[id].status.RetryWait? && s.tasks[id].available <= now
         then s.tasks[id].(status := Ready) else s.tasks[id])
  }

  /** A task selected by recoverExpired with the run status its row was joined with. */
  datatype Pick = Pick(task: TaskId, seen: RunStatus)

  predicate Expired(s: State, now: Time, id: TaskId) {
    && id in s.tasks
    && s.tasks[id].status.Held()
    && s.tasks[id].expires.Some?
    && s.tasks[id].expires.value <= now
    && s.tasks[id].run in s.runs
  }

  function RecoverOne(s: State, now: Time, p: Pick): (r: State) {
    if !Expired(s, now, p.task) then s else
      var t := s.tasks[p.task];
      var exit := ExitStatus(p.seen, t.attempts < t.maximum);
      var ended := EndAttempt(s, now, p.task, exit);
      if exit.Dead? then ended.(runs := FailRun(s.runs, t.run, now)) else ended
  }

  /** The rows SKIP LOCKED and LIMIT let through, in the order they came back. */
  function RecoverExpired(s: State, now: Time, picked: seq<Pick>): (r: State)
    decreases |picked|
  {
    if picked == [] then s else RecoverExpired(RecoverOne(s, now, picked[0]), now, picked[1..])
  }

  predicate CanDispatch(s: State, now: Time, id: TaskId) {
    && id in s.tasks
    && s.tasks[id].status.Ready?
    && s.tasks[id].available <= now
    && s.tasks[id].run in s.runs
  }

  function DispatchOne(s: State, now: Time, id: TaskId): (r: State) {
    if !CanDispatch(s, now, id) then s else
      s.(tasks := s.tasks[id := s.tasks[id].(status := Dispatching)],
         outbox := s.outbox + multiset{TaskEvent(TaskDispatch, s.tasks[id].run, id, 0)})
  }

  function Dispatch(s: State, now: Time, picked: seq<TaskId>): (r: State)
    decreases |picked|
  {
    if picked == [] then s else Dispatch(DispatchOne(s, now, picked[0]), now, picked[1..])
  }

  // ---------------------------------------------------------------------
  // Operator transactions
  // ---------------------------------------------------------------------

  predicate Injective(ids: map<string, TaskId>) {
    forall a, b :: a in ids && b in ids && ids[a] == ids[b] ==> a == b
  }

  /** Fresh ids for the run and its tasks, and a graph the validator accepted. */
  ghost predicate Creatable(s: State, run: RunId, dag: Dag.Tasks, ids: map<string, TaskId>) {
    && run !in s.runs
    && ids.Keys == dag.Keys
    && Injective(ids)
    && (forall k :: k in ids ==> ids[k] !in s.tasks)
    && Dag.ValidDag(dag)
  }

  function UpstreamIds(deps: seq<string>, ids: map<string, TaskId>): (r: set<TaskId>) {
    set d | d in deps && d in ids :: ids[d]
  }

  function NewTask(run: RunId, key: string, spec: Dag.TaskSpec, ids: map<string, TaskId>, now: Time): (t: Task) {
    var full := Dag.WithDefaults(spec);
    Task(run, key, UpstreamIds(full.dependsOn, ids),
         if |full.dependsOn| == 0 then Ready else Blocked,
         now, 0, if full.maximumAttempts < 0 then 0 else full.maximumAttempts, None, None, [])
  }

  function NewTasks(run: RunId, dag: Dag.Tasks, ids: map<string, TaskId>, now: Time): (r: map<TaskId, Task>)
    requires ids.Keys == dag.Keys && Injective(ids)
  {
    map k | k in dag :: ids[k] := NewTask(run, k, dag[k], ids, now)
  }

  function WithRun(s: State, run: RunId, key: string, rows: map<TaskId, Task>): (r: State) {
    s.(runs := s.runs[run := Run(key, RunRunning, None)],
       tasks := s.tasks + rows,
       outbox := s.outbox + multiset{RunCreated(run)})
  }

  predicate KeyTaken(s: State, key: string) {
    exists r :: r in s.runs && s.runs[r].key == key
  }

  /**
   * A second submission under the same idempotency key changes nothing. Stored definitions have
   * passed ValidateDAG and uuids are new, so a call that is not Creatable does not occur.
   */
  ghost function CreateRun(s: State, now: Time, run: RunId, key: string, dag: Dag.Tasks,
                           ids: map<string, TaskId>): (r: State) {
    if key == "" || KeyTaken(s, key) || !Creatable(s, run, dag, ids) then s
    else WithRun(s, run, key, NewTasks(run, dag, ids, now))
  }

  function CancelRun(s: State, now: Time, run: RunId): (r: State) {
    if !RunIs(s, run, RunRunning) then s else
      s.(runs := s.runs[run := s.runs[run].(status := RunCancelled, completed := Some(now))],
         tasks := CancelPending(s.tasks, run))
  }

  predicate HasDead(s: State, run: RunId) {
    exists id :: id in s.tasks && s.tasks[id].run == run && s.tasks[id].status.Dead?
  }

  function RetryRun(s: State, now: Time, run: RunId): (r: State) {
    if run !in s.runs || !HasDead(s, run) then s else
      s.(runs := s.runs[run := s.runs[run].(status := RunRunning, completed := None)],
         tasks := map id | id in s.tasks ::
           if s.tasks[id].run == run && s.tasks[id].status.Dead?
           then Revived(s.tasks[id], now).(owner := None, expires := None) else s.tasks[id])
  }

  predicate CanReplay(s: State, id: TaskId) {
    id in s.tasks && s.tasks[id].status.Dead? && s.tasks[id].run in s.runs
  }

  /** The status a cancelled task is rebuilt to. */
  function RebuiltStatus(tasks: map<TaskId, Task>, id: TaskId, now: Time): (r: TaskStatus)
    requires id in tasks
  {
    if !UpstreamDone(tasks, id) then Blocked else if tasks[id].available > now then RetryWait else Ready
  }

  function RebuildCancelled(tasks: map<TaskId, Task>, run: RunId, now: Time): (r: map<TaskId, Task>) {
    map id | id in tasks ::
      if tasks[id].run == run && tasks[id].status.Cancelled?
      then tasks[id].(status := RebuiltStatus(tasks, id, now)) else tasks[id]
  }

  function ReplayDead(s: State, now: Time, id: TaskId): (r: State) {
    if !CanReplay(s, id) then s else
      var t := s.tasks[id];
      s.(runs := if s.runs[t.run].status.RunFailed?
                 then s.runs[t.run := s.runs[t.run].(status := RunRunning, completed := None)] else s.runs,
         tasks := RebuildCancelled(s.tasks[id := Revived(t, now)], t.run, now),
         outbox := s.outbox + multiset{TaskEvent(TaskReplayed, t.run, id, 0)})
  }

  // ---------------------------------------------------------------------
  // Steps and executions
  // ---------------------------------------------------------------------

  datatype Step =
    | Create(run: RunId, key: string, dag: Dag.Tasks, ids: map<string, TaskId>)
    | Wake
    | Recover(picks: seq<Pick>)
    | Send(picked: seq<TaskId>)
    | Lease(task: TaskId, worker: WorkerId, lease: Time)
    | Start(task: TaskId, worker: WorkerId)
    | Heartbeat(task: TaskId, worker: WorkerId, lease: Time)
    | Complete(task: TaskId, worker: WorkerId)
    | Fail(task: TaskId, worker: WorkerId, retryable: bool, seen: RunStatus)
    | Cancel(run: RunId)
    | Retry(run: RunId)
    | Replay(task: TaskId)

  datatype Timed = At(now: Time, step: Step)

  ghost function Effect(s: State, x: Timed): (r: State) {
    match x.step
    case Create(run, key, dag, ids) => CreateRun(s, x.now, run, key, dag, ids)
    case Wake => WakeRetries(s, x.now)
    case Recover(picks) => RecoverExpired(s, x.now, picks)
    case Send(picked) => Dispatch(s, x.now, picked)
    case Lease(id, worker, lease) => LeaseTask(s, x.now, id, worker, lease)
    case Start(id, worker) => StartTask(s, x.now, id, worker)
    case Heartbeat(id, worker, lease) => HeartbeatTask(s, x.now, id, worker, lease)
    case Complete(id, worker) => CompleteTask(s, x.now, id, worker)
    case Fail(id, worker, retryable, seen) => FailTask(s, x.now, id, worker, retryable, seen)
    case Cancel(run) => CancelRun(s, x.now, run)
    case Retry(run) => RetryRun(s, x.now, run)
    case Replay(id) => ReplayDead(s, x.now, id)
  }

  ghost function Apply(s: State, x: Timed): (r: State) {
    Effect(s, x).(clock := x.now)
  }

  /** Clock readings never go back. */
  ghost predicate Legal(s: State, xs: seq<Timed>)
    decreases |xs|
  {
    xs == [] || (s.clock <= xs[0].now && Legal(Apply(s, xs[0]), xs[1..]))
  }

  ghost function After(s: State, xs: seq<Timed>): (r: State)
    decreases |xs|
  {
    if xs == [] then s else After(Apply(s, xs[0]), xs[1..])
  }
}
