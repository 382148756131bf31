/**
 * The store. Each transaction is written out statement by statement in the order the source issues them
 * (the methods ending in Tx), and proved to do what the function of Lifecycle says. The public methods run
 * one transaction each and keep the invariant.
 */
module Stores {
  import opened TaskStates
  import opened Lifecycle
  import opened Effects
  import opened Invariants
  import opened Executions
  import Dag

  datatype Outcome = Ok | LeaseLost | NotFound | Conflict | KeyRequired | NameRequired | BadGraph(fault: Dag.Fault)

  type DefinitionId = nat

  /** A row of workflow_definitions. */
  datatype Definition = Definition(name: string, version: nat, dag: Dag.Tasks)

  type ArtifactId = nat

  /** The READY input artifacts, each with the run it belongs to, if any. */
  type Artifacts = map<ArtifactId, Option<RunId>>

  /** What the artifacts table says about the input artifact of a submission. */
  datatype InputArtifact = NoArtifact | Missing | Unbound | Bound

  /** One free artifact, if any is given, goes to the run; those that belong to a run stay with it. */
  ghost predicate OnlyBinds(before: Artifacts, after: Artifacts, artifact: Option<ArtifactId>, run: RunId) {
    && (forall a :: a in before && before[a].Some? ==> a in after && after[a] == before[a])
    && after == if artifact.Some? then before[artifact.value := Some(run)] else before
  }

  function Find(artifacts: Artifacts, artifact: Option<ArtifactId>): (a: InputArtifact) {
    if artifact.None? then NoArtifact
    else if artifact.value !in artifacts then Missing
    else if artifacts[artifact.value].Some? then Bound else Unbound
  }

  /** Rows of a run being created: those still to do lack their dependencies. */
  ghost predicate Inserted(tasks: map<TaskId, Task>, before: map<TaskId, Task>, run: RunId, dag: Dag.Tasks,
                           ids: map<string, TaskId>, now: Time, todo: set<string>)
    requires ids.Keys == dag.Keys
  {
    && tasks.Keys == before.Keys + ids.Values
    && (forall i :: i in before ==> tasks[i] == before[i])
    && (forall k :: k in dag ==> FreshRow(tasks[ids[k]], run, k, dag[k], ids, now, k !in todo))
  }

  lemma LinkOne(tasks: map<TaskId, Task>, before: map<TaskId, Task>, run: RunId, dag: Dag.Tasks,
                ids: map<string, TaskId>, now: Time, todo: set<string>, key: string)
    requires ids.Keys == dag.Keys && Injective(ids) && key in todo && key in dag
    requires forall k :: k in ids ==> ids[k] !in before
    requires Inserted(tasks, before, run, dag, ids, now, todo)
    ensures Inserted(tasks[ids[key] := tasks[ids[key]].(upstream := UpstreamIds(dag[key].dependsOn, ids))],
                     before, run, dag, ids, now, todo - {key})
  {
    var linked := tasks[ids[key] := tasks[ids[key]].(upstream := UpstreamIds(dag[key].dependsOn, ids))];
    assert linked.Keys == tasks.Keys;
    forall k | k in dag ensures FreshRow(linked[ids[k]], run, k, dag[k], ids, now, k !in todo - {key}) {
      assert FreshRow(tasks[ids[k]], run, k, dag[k], ids, now, k !in todo);
      if k != key {
        assert ids[k] != ids[key];
      }
    }
  }

  lemma AllLinked(tasks: map<TaskId, Task>, before: map<TaskId, Task>, run: RunId, dag: Dag.Tasks,
                  ids: map<string, TaskId>, now: Time)
    requires ids.Keys == dag.Keys && Injective(ids)
    requires Inserted(tasks, before, run, dag, ids, now, {})
    requires forall k :: k in ids ==> ids[k] !in before
    ensures tasks == before + NewTasks(run, dag, ids, now)
  {
    var rows := NewTasks(run, dag, ids, now);
    NewRowsOfGraph(run, dag, ids, now);
    forall i | i in rows ensures i in tasks && tasks[i] == rows[i] {
      var k :| k in ids && ids[k] == i;
      assert FreshRow(tasks[ids[k]], run, k, dag[k], ids, now, true);
      FreshRowIsNew(tasks[ids[k]], run, k, dag[k], ids, now);
    }
    SameUnion(tasks, before, rows);
  }

  lemma SameUnion(tasks: map<TaskId, Task>, before: map<TaskId, Task>, rows: map<TaskId, Task>)
    requires tasks.Keys == before.Keys + rows.Keys
    requires forall i :: i in before ==> i !in rows && tasks[i] == before[i]
    requires forall i :: i in rows ==> tasks[i] == rows[i]
    ensures tasks == before + rows
  {}

  lemma ValidDependencies(dag: Dag.Tasks)
    requires Dag.ValidDag(dag)
    ensures Dag.DependenciesExist(dag)
  {
    forall k, d | k in dag && d in dag[k].dependsOn ensures d in dag {
      assert Dag.TaskOk(dag, k);
    }
  }

  ghost predicate NameUsed(definitions: map<DefinitionId, Definition>, name: string) {
    exists d :: d in definitions && definitions[d].name == name && definitions[d].version == 1
  }

  function Title(name: string, fallback: string): (t: string) {
    if name == "" then fallback else name
  }

  ghost function NamingOutcome(definitions: map<DefinitionId, Definition>, title: string): (o: Outcome) {
    if title == "" then NameRequired else if NameUsed(definitions, title) then Conflict else Ok
  }

  lemma OneMoreValid(definitions: map<DefinitionId, Definition>, id: DefinitionId, d: Definition)
    requires AllValid(definitions) && Dag.ValidDag(d.dag)
    ensures AllValid(definitions[id := d])
  {
    assert Accepted(d);
  }

  lemma StoredIsCreatable(s: State, definitions: map<DefinitionId, Definition>, d: DefinitionId, run: RunId,
                          ids: map<string, TaskId>)
    requires AllValid(definitions) && d in definitions && NewIds(s, run, definitions[d].dag, ids)
    ensures Creatable(s, run, definitions[d].dag, ids)
  {
    assert Accepted(definitions[d]);
  }

  /** uuids for the run and its tasks that no row has yet. */
  predicate NewIds(s: State, run: RunId, dag: Dag.Tasks, ids: map<string, TaskId>) {
    run !in s.runs && ids.Keys == dag.Keys && Injective(ids) && forall k :: k in ids ==> ids[k] !in s.tasks
  }

  ghost function SubmissionOutcome(s: State, key: string, defined: bool, artifact: InputArtifact): (o: Outcome) {
    if key == "" then KeyRequired
    else if artifact.Missing? || !defined then NotFound
    else if artifact.Bound? && !KeyTaken(s, key) then Conflict
    else Ok
  }

  ghost predicate Accepted(d: Definition) {
    Dag.ValidDag(d.dag)
  }

  ghost predicate AllValid(definitions: map<DefinitionId, Definition>) {
    forall d :: d in definitions ==> Accepted(definitions[d])
  }

  class Store {
    var definitions: map<DefinitionId, Definition>
    var artifacts: Artifacts
    var runs: map<RunId, Run>
    var tasks: map<TaskId, Task>
    var outbox: multiset<Event>
    ghost var clock: Time
    ghost var calls: seq<Timed>
    ghost var states: seq<State>

    ghost function Tables(): (s: State)
      reads this
    {
      State(runs, tasks, outbox, clock)
    }

    /** The tables are what the calls so far lead to. */
    ghost predicate Recorded()
      reads this
    {
      Path(states, calls) && states[0] == EMPTY && states[|calls|] == Tables()
    }

    /** And every stored graph has passed the validator. */
    ghost predicate Valid()
      reads this
    {
      Recorded() && AllValid(definitions)
    }

    /** So everything proved of executions from empty tables holds of a valid store. */
    lemma ValidIsReachable()
      requires Valid()
      ensures Legal(EMPTY, calls) && After(EMPTY, calls) == Tables() && Inv(Tables())
    {
      PathIsExecution(states, calls);
      Reachable(calls);
    }

    constructor (artifacts: Artifacts)
      ensures Valid() && Tables() == EMPTY && calls == [] && definitions == map[] && this.artifacts == artifacts
    {
      this.artifacts := artifacts;
      definitions, calls, states := map[], [], [EMPTY];
      runs, tasks, outbox, clock := map[], map[], multiset{}, 0;
    }

    // -------------------------------------------------------------------
    // Worker calls
    // -------------------------------------------------------------------

    method LeaseTx(now: Time, id: TaskId, worker: WorkerId, lease: Time) returns (o: Outcome)
      modifies this`runs, this`tasks, this`outbox, this`clock
      ensures Tables() == Lifecycle.LeaseTask(old(Tables()), now, id, worker, lease).(clock := now)
      ensures o == if CanLease(old(Tables()), id) then Ok else LeaseLost
    {
      clock := now;
      if id !in tasks || !tasks[id].status.Dispatching? {
        return LeaseLost;
      }
      var t := tasks[id];
      t := t.(status := Leased, owner := Some(worker), expires := Some(now + lease), attempts := t.attempts + 1);
      t := t.(history := t.history + [Attempt(t.attempts, worker, t.available, now, None, None, None)]);
      tasks := tasks[id := t];
      outbox := outbox + multiset{TaskEvent(TaskLeased, t.run, id, t.attempts)};
      return Ok;
    }

    method StartTx(now: Time, id: TaskId, worker: WorkerId) returns (o: Outcome)
      modifies this`runs, this`tasks, this`outbox, this`clock
      ensures Tables() == Lifecycle.StartTask(old(Tables()), now, id, worker).(clock := now)
      ensures o == if CanStart(old(Tables()), now, id, worker) then Ok else LeaseLost
    {
      clock := now;
      if id !in tasks || !tasks[id].status.Leased? || tasks[id].owner != Some(worker) {
        return LeaseLost;
      }
      var t := tasks[id];
      if t.expires.None? || t.expires.value <= now || t.run !in runs || !runs[t.run].status.RunRunning? {
        return LeaseLost;
      }
      t := t.(status := Running);
      t := t.(history := SetExecuting(t.history, t.attempts, now));
      tasks := tasks[id := t];
      return Ok;
    }

    /** Renews the lease and tells the worker whether its run has been cancelled. */
    method HeartbeatTx(now: Time, id: TaskId, worker: WorkerId, lease: Time) returns (o: Outcome, cancelled: bool)
      modifies this`runs, this`tasks, this`outbox, this`clock
      ensures Tables() == Lifecycle.HeartbeatTask(old(Tables()), now, id, worker, lease).(clock := now)
      ensures o == if CanHeartbeat(old(Tables()), now, id, worker) then Ok else LeaseLost
      ensures cancelled <==> o.Ok? && RunIs(old(Tables()), old(tasks)[id].run, RunCancelled)
    {
      clock := now;
      if id !in tasks || !tasks[id].status.Held() || tasks[id].owner != Some(worker) {
        return LeaseLost, false;
      }
      var t := tasks[id];
      if t.expires.None? || t.expires.value <= now || t.run !in runs {
        return LeaseLost, false;
      }
      tasks := tasks[id := t.(expires := Some(now + lease))];
      return Ok, runs[t.run].status.RunCancelled?;
    }

    method CompleteTx(now: Time, id: TaskId, worker: WorkerId) returns (o: Outcome)
      modifies this`runs, this`tasks, this`outbox, this`clock
      ensures Tables() == Lifecycle.CompleteTask(old(Tables()), now, id, worker).(clock := now)
      ensures o == if CanComplete(old(Tables()), now, id, worker) then Ok else LeaseLost
    {
      clock := now;
      if id !in tasks || !tasks[id].status.Running? || tasks[id].owner != Some(worker) {
        return LeaseLost;
      }
      var t := tasks[id];
      if t.expires.None? || t.expires.value <= now || t.run !in runs || !runs[t.run].status.RunRunning? {
        return LeaseLost;
      }
      assert CanComplete(old(Tables()), now, id, worker);
      tasks := tasks[id := t.(status := Succeeded, expires := None,
                              history := SetEnded(t.history, t.attempts, Succeeded, now))];
      ghost var done := tasks;
      assert done == old(tasks)[id := Finished(t, now)];
      var children := set c | c in tasks && Unblocks(tasks, id, c);
      var rows := tasks;
      tasks := UnblockChildren(tasks, id, now);
      NotifyChildren(rows, id, children);
      outbox := outbox + multiset{TaskEvent(TaskSucceeded, t.run, id, t.attempts)};
      var remaining := set i | i in tasks && tasks[i].run == t.run && !tasks[i].status.Succeeded?;
      assert |remaining| == 0 <==> remaining == {};
      assert remaining == {} <==> AllSucceeded(tasks, t.run) by {
        if AllSucceeded(tasks, t.run) {
        } else {
          var i :| i in tasks && tasks[i].run == t.run && !tasks[i].status.Succeeded?;
          assert i in remaining;
        }
      }
      if |remaining| == 0 {
        runs := runs[t.run := runs[t.run].(status := RunSucceeded, completed := Some(now))];
      }
      return Ok;
    }

    method CompleteStep(now: Time, id: TaskId, worker: WorkerId) returns (o: Outcome)
      requires clock <= now
      modifies this`runs, this`tasks, this`outbox, this`clock
      ensures Stepped(old(Tables()), At(now, Complete(id, worker)), Tables())
      ensures o == if WorksOnRunning(old(Tables()), now, id, worker, Running) then Ok else LeaseLost
      ensures if o.Ok? then Achieved(old(Tables()), Tables(), now, id) else Tables() == old(Tables()).(clock := now)
    {
      o := CompleteTx(now, id, worker);
      CompleteDoes(old(Tables()), now, id, worker, Tables());
    }

    /** The loop over the children that UPDATE ... RETURNING gave back, in no particular order. */
    method NotifyChildren(rows: map<TaskId, Task>, id: TaskId, children: set<TaskId>)
      requires id in rows && children == (set c | c in rows && Unblocks(rows, id, c))
      modifies this`outbox
      ensures outbox == old(outbox) + multiset(ReadyEvents(rows, id))
    {
      var todo := children;
      ghost var sent: set<Event> := {};
      while todo != {}
        invariant todo <= children
        invariant sent == set c | c in children && c !in todo :: TaskEvent(TaskReady, rows[c].run, c, 0)
        invariant outbox == old(outbox) + multiset(sent)
      {
        var c :| c in todo;
        var e := TaskEvent(TaskReady, rows[c].run, c, 0);
        assert e !in sent;
        assert multiset(sent + {e}) == multiset(sent) + multiset{e};
        outbox := outbox + multiset{e};
        sent := sent + {e};
        todo := todo - {c};
      }
      assert sent == ReadyEvents(rows, id);
    }

    method FailTx(now: Time, id: TaskId, worker: WorkerId, retryable: bool, seen: RunStatus) returns (o: Outcome)
      modifies this`runs, this`tasks, this`outbox, this`clock
      ensures Tables() == Lifecycle.FailTask(old(Tables()), now, id, worker, retryable, seen).(clock := now)
      ensures o == if CanHeartbeat(old(Tables()), now, id, worker) then Ok else LeaseLost
    {
      clock := now;
      if id !in tasks || !tasks[id].status.Held() || tasks[id].owner != Some(worker) {
        return LeaseLost;
      }
      var t := tasks[id];
      if t.expires.None? || t.expires.value <= now || t.run !in runs {
        return LeaseLost;
      }
      var status, available := Dead, now;
      if seen.RunCancelled? {
        status := Cancelled;
      } else if retryable && t.attempts < t.maximum {
        status := RetryWait;
        available := now + RetryDelay(t.attempts);
      }
      t := t.(status := status, available := available, owner := None, expires := None);
      t := t.(history := SetEnded(t.history, t.attempts, status, now));
      assert t == Ended(old(tasks)[id], status, now);
      tasks := tasks[id := t];
      if status.Dead? {
        if runs[t.run].status.RunRunning? {
          runs := runs[t.run := runs[t.run].(status := RunFailed, completed := Some(now))];
        }
        tasks := CancelPending(tasks, t.run);
      }
      outbox := outbox + multiset{TaskEvent(ExitKind(status), t.run, id, t.attempts)};
      return Ok;
    }

    // -------------------------------------------------------------------
    // Scheduler
    // -------------------------------------------------------------------

    method WakeTx(now: Time)
      modifies this`runs, this`tasks, this`outbox, this`clock
      ensures Tables() == Lifecycle.WakeRetries(old(Tables()), now).(clock := now)
    {
      clock := now;
      tasks := map id | id in tasks ::
        if tasks[id].status.RetryWait? && tasks[id].available <= now then tasks[id].(status := Ready) else tasks[id];
    }

    method RecoverTx(now: Time, picked: seq<Pick>)
      modifies this`runs, this`tasks, this`outbox, this`clock
      ensures Tables() == Lifecycle.RecoverExpired(old(Tables()), now, picked).(clock := now)
    {
      for i := 0 to |picked|
        invariant Lifecycle.RecoverExpired(Tables(), now, picked[i..])
                  == Lifecycle.RecoverExpired(old(Tables()), now, picked)
      {
        assert picked[i..][0] == picked[i] && picked[i..][1..] == picked[i + 1..];
        RecoverTask(now, picked[i]);
      }
      clock := now;
    }

    /** One turn of the loop of recoverExpired. */
    method RecoverTask(now: Time, p: Pick)
      modifies this`runs, this`tasks, this`outbox, this`clock
      ensures Tables() == RecoverOne(old(Tables()), now, p)
      ensures AllTakenBack(old(Tables()), Tables(), now, [p])
    {
      RecoverOneDoes(Tables(), now, p);
      RecoverOneTx(now, p);
    }

    method RecoverOneTx(now: Time, p: Pick)
      modifies this`runs, this`tasks, this`outbox, this`clock
      ensures Tables() == RecoverOne(old(Tables()), now, p)
    {
      if p.task !in tasks || !tasks[p.task].status.Held() {
        return;
      }
      var t := tasks[p.task];
      if t.expires.None? || t.expires.value > now || t.run !in runs {
        return;
      }
      var status, available, kind := Dead, now, TaskDead;
      if p.seen.RunCancelled? {
        status, kind := Cancelled, TaskCancelled;
      } else if t.attempts < t.maximum {
        status, kind := RetryWait, TaskRetryWait;
        available := now + RetryDelay(t.attempts);
      }
      tasks := tasks[p.task := t.(status := status, available := available, owner := None, expires := None,
                                  history := SetEnded(t.history, t.attempts, status, now))];
      outbox := outbox + multiset{TaskEvent(kind, t.run, p.task, t.attempts)};
      if status.Dead? && runs[t.run].status.RunRunning? {
        runs := runs[t.run := runs[t.run].(status := RunFailed, completed := Some(now))];
      }
    }

    method DispatchTx(now: Time, picked: seq<TaskId>)
      modifies this`runs, this`tasks, this`outbox, this`clock
      ensures Tables() == Lifecycle.Dispatch(old(Tables()), now, picked).(clock := now)
    {
      for i := 0 to |picked|
        invariant Lifecycle.Dispatch(Tables(), now, picked[i..]) == Lifecycle.Dispatch(old(Tables()), now, picked)
      {
        assert picked[i..][0] == picked[i] && picked[i..][1..] == picked[i + 1..];
        var id := picked[i];
        if id in tasks && tasks[id].status.Ready? && tasks[id].available <= now && tasks[id].run in runs {
          tasks := tasks[id := tasks[id].(status := Dispatching)];
          outbox := outbox + multiset{TaskEvent(TaskDispatch, tasks[id].run, id, 0)};
        }
      }
      clock := now;
    }

    // -------------------------------------------------------------------
    // Operators
    // -------------------------------------------------------------------

    method CancelTx(now: Time, run: RunId) returns (o: Outcome)
      modifies this`runs, this`tasks, this`outbox, this`clock
      ensures Tables() == Lifecycle.CancelRun(old(Tables()), now, run).(clock := now)
      ensures o == if RunIs(old(Tables()), run, RunRunning) then Ok else if run in old(runs) then Conflict else NotFound
    {
      clock := now;
      if run !in runs {
        return NotFound;
      }
      if !runs[run].status.RunRunning? {
        return Conflict;
      }
      runs := runs[run := runs[run].(status := RunCancelled, completed := Some(now))];
      tasks := CancelPending(tasks, run);
      return Ok;
    }

    method RetryTx(now: Time, run: RunId) returns (o: Outcome)
      modifies this`runs, this`tasks, this`outbox, this`clock
      ensures Tables() == Lifecycle.RetryRun(old(Tables()), now, run).(clock := now)
      ensures o == if run !in old(runs) then NotFound else if HasDead(old(Tables()), run) then Ok else Conflict
    {
      clock := now;
      if run !in runs {
        return NotFound;
      }
      if !exists id :: id in tasks && tasks[id].run == run && tasks[id].status.Dead? {
        return Conflict;
      }
      tasks := map id | id in tasks ::
        if tasks[id].run == run && tasks[id].status.Dead?
        then Revived(tasks[id], now).(owner := None, expires := None) else tasks[id];
      runs := runs[run := runs[run].(status := RunRunning, completed := None)];
      return Ok;
    }

    method ReplayTx(now: Time, id: TaskId) returns (o: Outcome)
      modifies this`runs, this`tasks, this`outbox, this`clock
      ensures Tables() == Lifecycle.ReplayDead(old(Tables()), now, id).(clock := now)
      ensures o == if CanReplay(old(Tables()), id) then Ok else NotFound
    {
      clock := now;
      if id !in tasks || !tasks[id].status.Dead? || tasks[id].run !in runs {
        return NotFound;
      }
      var run := tasks[id].run;
      if runs[run].status.RunFailed? {
        runs := runs[run := runs[run].(status := RunRunning, completed := None)];
      }
      tasks := tasks[id := Revived(tasks[id], now)];
      tasks := RebuildCancelled(tasks, run, now);
      outbox := outbox + multiset{TaskEvent(TaskReplayed, run, id, 0)};
      return Ok;
    }

    // -------------------------------------------------------------------
    // Submission
    // -------------------------------------------------------------------

    /** Materialises a graph; a key already used returns its run and changes nothing. */
    method CreateTx(now: Time, run: RunId, key: string, dag: Dag.Tasks, ids: map<string, TaskId>)
      returns (created: bool, id: RunId)
      requires key != "" && (KeyTaken(Tables(), key) || Creatable(Tables(), run, dag, ids))
      modifies this`runs, this`tasks, this`outbox, this`clock
      ensures Tables() == Lifecycle.CreateRun(old(Tables()), now, run, key, dag, ids).(clock := now)
      ensures created <==> !KeyTaken(old(Tables()), key)
      ensures id in runs && runs[id].key == key && (created ==> id == run)
    {
      clock := now;
      if r :| r in runs && runs[r].key == key {
        return false, r;
      }
      assert Creatable(old(Tables()), run, dag, ids);
      ValidDependencies(dag);
      InsertRows(now, run, dag, ids);
      runs := runs[run := Run(key, RunRunning, None)];
      outbox := outbox + multiset{RunCreated(run)};
      return true, run;
    }

    /** Binds the input artifact to the run that has been created for it. */
    method Bind(artifact: Option<ArtifactId>, run: RunId)
      requires !Find(artifacts, artifact).Bound?
      modifies this`artifacts
      ensures OnlyBinds(old(artifacts), artifacts, artifact, run)
    {
      if artifact.Some? {
        artifacts := artifacts[artifact.value := Some(run)];
      }
    }

    /** Reads the definition, then checks and inserts. */
    method LookupTx(now: Time, run: RunId, key: string, definition: DefinitionId, artifact: Option<ArtifactId>,
                    ids: map<string, TaskId>)
      returns (o: Outcome, created: bool, id: RunId)
      requires AllValid(definitions)
      requires definition in definitions ==> NewIds(Tables(), run, definitions[definition].dag, ids)
      modifies this`runs, this`tasks, this`outbox, this`clock, this`artifacts
      ensures o == SubmissionOutcome(old(Tables()), key, definition in definitions, Find(old(artifacts), artifact))
      ensures o.Ok? ==> definition in definitions
      ensures if o.Ok?
              then Tables() == Apply(old(Tables()), At(now, Create(run, key, definitions[definition].dag, ids)))
              else Tables() == old(Tables())
      ensures created <==> o.Ok? && !KeyTaken(old(Tables()), key)
      ensures o.Ok? ==> id in runs && runs[id].key == key && (created ==> id == run)
      ensures OnlyBinds(old(artifacts), artifacts, if created then artifact else None, run)
    {
      if definition in definitions {
        StoredIsCreatable(Tables(), definitions, definition, run, ids);
        o, created, id := SubmitTx(now, run, key, Some(definitions[definition].dag), artifact, ids);
      } else {
        o, created, id := SubmitTx(now, run, key, None, artifact, ids);
      }
    }

    method SubmitStep(now: Time, run: RunId, key: string, definition: DefinitionId, artifact: Option<ArtifactId>,
                      ids: map<string, TaskId>)
      returns (o: Outcome, created: bool, id: RunId)
      requires AllValid(definitions) && clock <= now
      requires definition in definitions ==> NewIds(Tables(), run, definitions[definition].dag, ids)
      modifies this`runs, this`tasks, this`outbox, this`clock, this`artifacts
      ensures OnlyBinds(old(artifacts), artifacts, if created then artifact else None, run)
      ensures o == SubmissionOutcome(old(Tables()), key, definition in definitions, Find(old(artifacts), artifact))
      ensures o.Ok? ==> definition in definitions && id in runs && runs[id].key == key
      ensures if o.Ok?
              then Stepped(old(Tables()), At(now, Create(run, key, definitions[definition].dag, ids)), Tables())
              else Tables() == old(Tables())
      ensures created <==> o.Ok? && !KeyTaken(old(Tables()), key)
      ensures if created
              then id == run && Submitted(old(Tables()), Tables(), now, run, key, definitions[definition].dag, ids)
              else runs == old(runs) && tasks == old(tasks) && outbox == old(outbox)
    {
      o, created, id := LookupTx(now, run, key, definition, artifact, ids);
      if created {
        StoredIsCreatable(old(Tables()), definitions, definition, run, ids);
        CreateDoes(old(Tables()), now, run, key, definitions[definition].dag, ids, Tables());
      }
    }

    /** The checks before the insert, and the insert. */
    method SubmitTx(now: Time, run: RunId, key: string, dag: Option<Dag.Tasks>, artifact: Option<ArtifactId>,
                    ids: map<string, TaskId>)
      returns (o: Outcome, created: bool, id: RunId)
      requires dag.Some? ==> Creatable(Tables(), run, dag.value, ids)
      modifies this`runs, this`tasks, this`outbox, this`clock, this`artifacts
      ensures o == SubmissionOutcome(old(Tables()), key, dag.Some?, Find(old(artifacts), artifact))
      ensures if o.Ok?
              then Tables() == Lifecycle.CreateRun(old(Tables()), now, run, key, dag.value, ids).(clock := now)
              else Tables() == old(Tables())
      ensures created <==> o.Ok? && !KeyTaken(old(Tables()), key)
      ensures o.Ok? ==> id in runs && runs[id].key == key && (created ==> id == run)
      ensures OnlyBinds(old(artifacts), artifacts, if created then artifact else None, run)
    {
      if key == "" {
        return KeyRequired, false, run;
      }
      var found := Find(artifacts, artifact);
      if found.Missing? || dag.None? {
        return NotFound, false, run;
      }
      if found.Bound? && !exists r :: r in runs && runs[r].key == key {
        return Conflict, false, run;
      }
      created, id := InsertTx(now, run, key, dag.value, artifact, ids);
      o := Ok;
    }

    /** The insert, and the artifact bound to the run it has made. */
    method InsertTx(now: Time, run: RunId, key: string, dag: Dag.Tasks, artifact: Option<ArtifactId>,
                    ids: map<string, TaskId>)
      returns (created: bool, id: RunId)
      requires key != "" && Creatable(Tables(), run, dag, ids)
      requires !KeyTaken(Tables(), key) ==> !Find(artifacts, artifact).Bound?
      modifies this`runs, this`tasks, this`outbox, this`clock, this`artifacts
      ensures Tables() == Lifecycle.CreateRun(old(Tables()), now, run, key, dag, ids).(clock := now)
      ensures created <==> !KeyTaken(old(Tables()), key)
      ensures id in runs && runs[id].key == key && (created ==> id == run)
      ensures OnlyBinds(old(artifacts), artifacts, if created then artifact else None, run)
    {
      created, id := CreateTx(now, run, key, dag, ids);
      if created {
        Bind(artifact, run);
      }
    }

    method InsertRows(now: Time, run: RunId, dag: Dag.Tasks, ids: map<string, TaskId>)
      requires ids.Keys == dag.Keys && Injective(ids) && Dag.DependenciesExist(dag)
      requires forall k :: k in ids ==> ids[k] !in tasks
      modifies this`tasks
      ensures tasks == old(tasks) + NewTasks(run, dag, ids, now)
    {
      InsertTasks(now, run, dag, ids);
      InsertDependencies(now, run, dag, ids, old(tasks));
    }

    /** First loop of CreateRun: one row per task, without its dependencies. */
    method InsertTasks(now: Time, run: RunId, dag: Dag.Tasks, ids: map<string, TaskId>)
      requires ids.Keys == dag.Keys && Injective(ids)
      requires forall k :: k in ids ==> ids[k] !in tasks
      modifies this`tasks
      ensures Inserted(tasks, old(tasks), run, dag, ids, now, dag.Keys)
    {
      var todo := dag.Keys;
      while todo != {}
        invariant todo <= dag.Keys
        invariant forall i :: i in old(tasks) ==> i in tasks && tasks[i] == old(tasks)[i]
        invariant forall i :: i in tasks ==> i in old(tasks) || i in ids.Values
        invariant forall k :: k in dag && k !in todo ==>
                    ids[k] in tasks && FreshRow(tasks[ids[k]], run, k, dag[k], ids, now, false)
      {
        var key :| key in todo;
        var spec := Dag.WithDefaults(dag[key]);
        var status := Blocked;
        if |spec.dependsOn| == 0 {
          status := Ready;
        }
        var maximum := if spec.maximumAttempts < 0 then 0 else spec.maximumAttempts;
        tasks := tasks[ids[key] := Task(run, key, {}, status, now, 0, maximum, None, None, [])];
        todo := todo - {key};
      }
    }

    /** Second loop of CreateRun: the dependency rows. */
    method InsertDependencies(now: Time, run: RunId, dag: Dag.Tasks, ids: map<string, TaskId>,
                              ghost before: map<TaskId, Task>)
      requires ids.Keys == dag.Keys && Injective(ids) && Dag.DependenciesExist(dag)
      requires forall k :: k in ids ==> ids[k] !in before
      requires Inserted(tasks, before, run, dag, ids, now, dag.Keys)
      modifies this`tasks
      ensures tasks == before + NewTasks(run, dag, ids, now)
      ensures Inserted(tasks, before, run, dag, ids, now, {})
    {
      var todo := dag.Keys;
      while todo != {}
        invariant todo <= dag.Keys
        invariant Inserted(tasks, before, run, dag, ids, now, todo)
      {
        var key :| key in todo;
        LinkOne(tasks, before, run, dag, ids, now, todo, key);
        assert FreshRow(tasks[ids[key]], run, key, dag[key], ids, now, false);
        InsertEdges(dag[key].dependsOn, ids, ids[key]);
        todo := todo - {key};
      }
      AllLinked(tasks, before, run, dag, ids, now);
    }

    method InsertEdges(deps: seq<string>, ids: map<string, TaskId>, id: TaskId)
      requires id in tasks && tasks[id].upstream == {}
      requires forall d :: d in deps ==> d in ids
      modifies this`tasks
      ensures tasks == old(tasks)[id := old(tasks)[id].(upstream := UpstreamIds(deps, ids))]
    {
      assert UpstreamIds(deps[..0], ids) == {};
      for i := 0 to |deps|
        invariant tasks.Keys == old(tasks).Keys
        invariant tasks[id] == old(tasks)[id].(upstream := UpstreamIds(deps[..i], ids))
        invariant forall j :: j in tasks && j != id ==> tasks[j] == old(tasks)[j]
      {
        assert deps[i] in deps;
        assert deps[..i + 1] == deps[..i] + [deps[i]];
        assert UpstreamIds(deps[..i + 1], ids) == UpstreamIds(deps[..i], ids) + {ids[deps[i]]};
        tasks := tasks[id := tasks[id].(upstream := tasks[id].upstream + {ids[deps[i]]})];
      }
      assert deps[..|deps|] == deps;
    }

    /** The call was recorded and the tables are those after its step. */
    twostate predicate Called(x: Timed)
      reads this
    {
      calls == old(calls) + [x] && Tables() == Apply(old(Tables()), x)
    }

    /** Adds a transaction that has been carried out to the calls. */
    ghost method Record(x: Timed, before: State)
      requires Path(states, calls) && states[0] == EMPTY && states[|calls|] == before
      requires Stepped(before, x, Tables())
      modifies this`calls, this`states
      ensures Recorded() && calls == old(calls) + [x]
    {
      PathStep(states, calls, x, Tables());
      calls, states := calls + [x], states + [Tables()];
    }

    // -------------------------------------------------------------------
    // The public methods
    // -------------------------------------------------------------------

    method LeaseTask(now: Time, id: TaskId, worker: WorkerId, lease: Time) returns (o: Outcome)
      requires Valid() && clock <= now
      modifies this
      ensures Valid() && definitions == old(definitions) && artifacts == old(artifacts)
      ensures Called(At(now, Lease(id, worker, lease)))
      ensures o == if id in old(tasks) && old(tasks)[id].status == Dispatching then Ok else LeaseLost
      ensures if o.Ok? then LeasedTo(old(Tables()), Tables(), now, id, worker, lease)
              else Tables() == old(Tables()).(clock := now)
    {
      ghost var x := At(now, Lease(id, worker, lease));
      o := LeaseTx(now, id, worker, lease);
      LeaseDoes(old(Tables()), now, id, worker, lease, Tables());
      Record(x, old(Tables()));
    }

    method StartTask(now: Time, id: TaskId, worker: WorkerId) returns (o: Outcome)
      requires Valid() && clock <= now
      modifies this
      ensures Valid() && definitions == old(definitions) && artifacts == old(artifacts)
      ensures Called(At(now, Start(id, worker)))
      ensures o == if WorksOnRunning(old(Tables()), now, id, worker, Leased) then Ok else LeaseLost
      ensures if o.Ok? then SetGoing(old(Tables()), Tables(), now, id) else Tables() == old(Tables()).(clock := now)
    {
      ghost var x := At(now, Start(id, worker));
      o := StartTx(now, id, worker);
      StartDoes(old(Tables()), now, id, worker, Tables());
      Record(x, old(Tables()));
    }

    method HeartbeatTask(now: Time, id: TaskId, worker: WorkerId, lease: Time) returns (o: Outcome, cancelled: bool)
      requires Valid() && clock <= now
      modifies this
      ensures Valid() && definitions == old(definitions) && artifacts == old(artifacts)
      ensures Called(At(now, Heartbeat(id, worker, lease)))
      ensures o == if WorksOn(old(Tables()), now, id, worker, HELD) then Ok else LeaseLost
      ensures if o.Ok? then Prolonged(old(Tables()), Tables(), now, id, lease)
              else Tables() == old(Tables()).(clock := now)
      ensures cancelled <==> o.Ok? && old(runs)[old(tasks)[id].run].status == RunCancelled
    {
      ghost var x := At(now, Heartbeat(id, worker, lease));
      o, cancelled := HeartbeatTx(now, id, worker, lease);
      HeartbeatDoes(old(Tables()), now, id, worker, lease, Tables());
      Record(x, old(Tables()));
    }

    method CompleteTask(now: Time, id: TaskId, worker: WorkerId) returns (o: Outcome)
      requires Valid() && clock <= now
      modifies this
      ensures Valid() && definitions == old(definitions) && artifacts == old(artifacts)
      ensures Called(At(now, Complete(id, worker)))
      ensures o == if WorksOnRunning(old(Tables()), now, id, worker, Running) then Ok else LeaseLost
      ensures if o.Ok? then Achieved(old(Tables()), Tables(), now, id) else Tables() == old(Tables()).(clock := now)
    {
      ghost var x := At(now, Complete(id, worker));
      o := CompleteStep(now, id, worker);
      Record(x, old(Tables()));
    }

    method FailTask(now: Time, id: TaskId, worker: WorkerId, retryable: bool, seen: RunStatus) returns (o: Outcome)
      requires Valid() && clock <= now
      modifies this
      ensures Valid() && definitions == old(definitions) && artifacts == old(artifacts)
      ensures Called(At(now, Fail(id, worker, retryable, seen)))
      ensures o == if WorksOn(old(Tables()), now, id, worker, HELD) then Ok else LeaseLost
      ensures if o.Ok? then GivenUp(old(Tables()), Tables(), now, id, retryable, seen)
              else Tables() == old(Tables()).(clock := now)
    {
      ghost var x := At(now, Fail(id, worker, retryable, seen));
      o := FailTx(now, id, worker, retryable, seen);
      FailDoes(old(Tables()), now, id, worker, retryable, seen, Tables());
      Record(x, old(Tables()));
    }

    method WakeRetries(now: Time)
      requires Valid() && clock <= now
      modifies this
      ensures Valid() && definitions == old(definitions) && artifacts == old(artifacts)
      ensures Called(At(now, Wake))
      ensures Awake(old(Tables()), Tables(), now)
    {
      ghost var x := At(now, Wake);
      WakeAwakes(Tables(), now);
      WakeTx(now);
      Record(x, old(Tables()));
    }

    method RecoverExpired(now: Time, picked: seq<Pick>)
      requires Valid() && clock <= now
      modifies this
      ensures Valid() && definitions == old(definitions) && artifacts == old(artifacts)
      ensures Called(At(now, Recover(picked)))
      ensures AllTakenBack(old(Tables()), Tables(), now, picked)
      ensures forall id :: Picked(picked, id) ==> !Lapsed(Tables(), now, id)
    {
      ghost var x := At(now, Recover(picked));
      RecoverTx(now, picked);
      RecoverDoes(old(Tables()), now, picked, Tables());
      Record(x, old(Tables()));
    }

    method Dispatch(now: Time, picked: seq<TaskId>)
      requires Valid() && clock <= now
      modifies this
      ensures Valid() && definitions == old(definitions) && artifacts == old(artifacts)
      ensures Called(At(now, Send(picked)))
      ensures AllSent(old(Tables()), Tables(), now, picked)
      ensures forall id :: id in picked ==> !Due(Tables(), now, id)
    {
      ghost var x := At(now, Send(picked));
      DispatchTx(now, picked);
      DispatchDoes(old(Tables()), now, picked, Tables());
      Record(x, old(Tables()));
    }

    method CancelRun(now: Time, run: RunId) returns (o: Outcome)
      requires Valid() && clock <= now
      modifies this
      ensures Valid() && definitions == old(definitions) && artifacts == old(artifacts)
      ensures Called(At(now, Cancel(run)))
      ensures o == if RunIs(old(Tables()), run, RunRunning) then Ok else if run in old(runs) then Conflict else NotFound
      ensures if o.Ok? then Stopped(old(Tables()), Tables(), run, now) else Tables() == old(Tables()).(clock := now)
    {
      ghost var x := At(now, Cancel(run));
      if RunIs(Tables(), run, RunRunning) {
        CancelStops(Tables(), now, run);
      }
      o := CancelTx(now, run);
      Record(x, old(Tables()));
    }

    method RetryRun(now: Time, run: RunId) returns (o: Outcome)
      requires Valid() && clock <= now
      modifies this
      ensures Valid() && definitions == old(definitions) && artifacts == old(artifacts)
      ensures Called(At(now, Retry(run)))
      ensures o == if run !in old(runs) then NotFound
                   else if exists i :: i in old(tasks) && old(tasks)[i].run == run && old(tasks)[i].status == Dead
                   then Ok else Conflict
      ensures if o.Ok? then Reopened(old(Tables()), Tables(), run, now) else Tables() == old(Tables()).(clock := now)
    {
      ghost var x := At(now, Retry(run));
      if run in runs && HasDead(Tables(), run) {
        RetryReopensRun(Tables(), now, run);
      }
      o := RetryTx(now, run);
      Record(x, old(Tables()));
    }

    method ReplayDead(now: Time, id: TaskId) returns (o: Outcome)
      requires Valid() && clock <= now
      modifies this
      ensures Valid() && definitions == old(definitions) && artifacts == old(artifacts)
      ensures Called(At(now, Replay(id)))
      ensures o == if id in old(tasks) && old(tasks)[id].status == Dead && old(tasks)[id].run in old(runs)
                   then Ok else NotFound
      ensures if o.Ok? then Replayed(old(Tables()), Tables(), id, now) else Tables() == old(Tables()).(clock := now)
    {
      ghost var x := At(now, Replay(id));
      if CanReplay(Tables(), id) {
        ReplayReplays(Tables(), now, id);
      }
      o := ReplayTx(now, id);
      Record(x, old(Tables()));
    }

    /** Stores a graph as version 1 of a new workflow, if the validator accepts it. */
    method CreateWorkflow(id: DefinitionId, name: string, fallback: string, dag: Dag.Tasks) returns (o: Outcome)
      requires Valid() && id !in definitions
      modifies this`definitions
      ensures Valid()
      ensures o.BadGraph? <==> !Dag.ValidDag(dag)
      ensures o.BadGraph? ==> Dag.Holds(dag, o.fault)
      ensures !o.BadGraph? ==> o == NamingOutcome(old(definitions), Title(name, fallback))
      ensures definitions == if o.Ok? then old(definitions)[id := Definition(Title(name, fallback), 1, dag)]
                             else old(definitions)
    {
      var verdict := Dag.ValidateDAG(dag);
      if verdict.Rejected? {
        return BadGraph(verdict.fault);
      }
      o := CheckTitle(Title(name, fallback));
      if o.Ok? {
        OneMoreValid(definitions, id, Definition(Title(name, fallback), 1, dag));
        definitions := definitions[id := Definition(Title(name, fallback), 1, dag)];
      }
    }

    method CheckTitle(title: string) returns (o: Outcome)
      ensures o == NamingOutcome(definitions, title)
    {
      if title == "" {
        return NameRequired;
      }
      if exists d :: d in definitions && definitions[d].name == title && definitions[d].version == 1 {
        return Conflict;
      }
      return Ok;
    }

    /**
     * Submits a run. The checks come in the order of the source: the key, the artifact, the definition, then
     * whether the key is used, then whether the artifact is bound; an error rolls everything back.
     */
    method CreateRun(now: Time, run: RunId, key: string, definition: DefinitionId, artifact: Option<ArtifactId>,
                     ids: map<string, TaskId>)
      returns (o: Outcome, created: bool, id: RunId)
      requires Valid() && clock <= now
      requires definition in definitions ==> NewIds(Tables(), run, definitions[definition].dag, ids)
      modifies this
      ensures Valid() && definitions == old(definitions)
      ensures OnlyBinds(old(artifacts), artifacts, if created then artifact else None, run)
      ensures o == SubmissionOutcome(old(Tables()), key, definition in definitions, Find(old(artifacts), artifact))
      ensures o.Ok? ==> definition in definitions && id in runs && runs[id].key == key
      ensures if o.Ok? then Called(At(now, Create(run, key, definitions[definition].dag, ids)))
              else Tables() == old(Tables()) && calls == old(calls)
      ensures created <==> o.Ok? && !KeyTaken(old(Tables()), key)
      ensures if created
              then id == run && Submitted(old(Tables()), Tables(), now, run, key, definitions[definition].dag, ids)
              else runs == old(runs) && tasks == old(tasks) && outbox == old(outbox)
    {
      o, created, id := SubmitStep(now, run, key, definition, artifact, ids);
      if o.Ok? {
        Record(At(now, Create(run, key, definitions[definition].dag, ids)), old(Tables()));
      }
    }

    // -------------------------------------------------------------------
    // Any step
    // -------------------------------------------------------------------

    method PerformWorker(x: Timed)
      requires Valid() && clock <= x.now
      requires x.step.Lease? || x.step.Start? || x.step.Heartbeat? || x.step.Complete? || x.step.Fail?
      modifies this
      ensures Valid() && Tables() == Apply(old(Tables()), x) && calls == old(calls) + [x]
    {
      match x.step
      case Lease(id, worker, lease) => var _ := LeaseTask(x.now, id, worker, lease);
      case Start(id, worker) => var _ := StartTask(x.now, id, worker);
      case Heartbeat(id, worker, lease) => var _, _ := HeartbeatTask(x.now, id, worker, lease);
      case Complete(id, worker) => var _ := CompleteTask(x.now, id, worker);
      case Fail(id, worker, retryable, seen) => var _ := FailTask(x.now, id, worker, retryable, seen);
    }

    method PerformScheduler(x: Timed)
      requires Valid() && clock <= x.now
      requires x.step.Wake? || x.step.Recover? || x.step.Send?
      modifies this
      ensures Valid() && Tables() == Apply(old(Tables()), x) && calls == old(calls) + [x]
    {
      match x.step
      case Wake => WakeRetries(x.now);
      case Recover(picks) => RecoverExpired(x.now, picks);
      case Send(picked) => Dispatch(x.now, picked);
    }

    method PerformOperator(x: Timed)
      requires Valid() && clock <= x.now
      requires x.step.Cancel? || x.step.Retry? || x.step.Replay?
      modifies this
      ensures Valid() && Tables() == Apply(old(Tables()), x) && calls == old(calls) + [x]
    {
      match x.step
      case Cancel(run) => var _ := CancelRun(x.now, run);
      case Retry(run) => var _ := RetryRun(x.now, run);
      case Replay(id) => var _ := ReplayDead(x.now, id);
    }

    /** The methods together implement the steps; a submission is of a stored graph, with new ids. */
    method Perform(x: Timed)
      requires Valid() && clock <= x.now
      requires x.step.Create? ==>
                 && x.step.key != "" && NewIds(Tables(), x.step.run, x.step.dag, x.step.ids)
                 && exists d :: d in definitions && definitions[d].dag == x.step.dag
      modifies this
      ensures Valid() && Tables() == Apply(old(Tables()), x) && calls == old(calls) + [x]
    {
      if x.step.Wake? || x.step.Recover? || x.step.Send? {
        PerformScheduler(x);
      } else if x.step.Cancel? || x.step.Retry? || x.step.Replay? {
        PerformOperator(x);
      } else if x.step.Create? {
        var d :| d in definitions && definitions[d].dag == x.step.dag;
        var _, _, _ := CreateRun(x.now, x.step.run, x.step.key, d, None, x.step.ids);
      } else {
        PerformWorker(x);
      }
    }
  }
}
