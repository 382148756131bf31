/** The dependencies of a submitted graph over whole executions. */
module Dependencies {
  import opened TaskStates
  import opened Lifecycle
  import opened Rows
  import opened Causes
  import opened Invariants
  import Dag
  import Effects

  /** The row of a task of the graph, with the rows of the tasks it depends on. */
  ghost predicate RowOf(s: State, run: RunId, dag: Dag.Tasks, ids: map<string, TaskId>, k: string)
    requires k in dag && ids.Keys == dag.Keys
  {
    && ids[k] in s.tasks && s.tasks[ids[k]].run == run && s.tasks[ids[k]].key == k
    && forall u :: u in s.tasks[ids[k]].upstream <==> exists d :: d in dag[k].dependsOn && d in ids && ids[d] == u
  }

  ghost predicate RowsOf(s: State, run: RunId, dag: Dag.Tasks, ids: map<string, TaskId>) {
    ids.Keys == dag.Keys && forall k :: k in dag ==> RowOf(s, run, dag, ids, k)
  }

  lemma CauseKeepsIdentity(s: State, x: Timed, r: State, id: TaskId)
    requires id in s.tasks && id in r.tasks && RowCause(s, x, r, id)
    ensures r.tasks[id].run == s.tasks[id].run && r.tasks[id].key == s.tasks[id].key
    ensures r.tasks[id].upstream == s.tasks[id].upstream
  {}

  lemma StepKeepsRowsOf(s: State, x: Timed, run: RunId, dag: Dag.Tasks, ids: map<string, TaskId>)
    requires Inv(s) && s.clock <= x.now && RowsOf(s, run, dag, ids)
    ensures RowsOf(Apply(s, x), run, dag, ids)
  {
    var r := Apply(s, x);
    StepIsNext(s, x);
    forall k | k in dag ensures RowOf(r, run, dag, ids, k) {
      assert RowOf(s, run, dag, ids, k);
      assert RowCause(s, x, r, ids[k]);
      CauseKeepsIdentity(s, x, r, ids[k]);
    }
  }

  /** The rows of a run stay those of its graph. */
  lemma {:induction false} RunKeepsRowsOf(s: State, xs: seq<Timed>, run: RunId, dag: Dag.Tasks,
                                          ids: map<string, TaskId>)
    requires Inv(s) && Legal(s, xs) && RowsOf(s, run, dag, ids)
    ensures Inv(After(s, xs)) && RowsOf(After(s, xs), run, dag, ids)
    decreases |xs|
  {
    if xs != [] {
      StepKeepsInv(s, xs[0]);
      StepKeepsRowsOf(s, xs[0], run, dag, ids);
      RunKeepsRowsOf(Apply(s, xs[0]), xs[1..], run, dag, ids);
    }
  }

  lemma SubmittedRows(s: State, r: State, now: Time, run: RunId, key: string, dag: Dag.Tasks, ids: map<string, TaskId>)
    requires Effects.Submitted(s, r, now, run, key, dag, ids)
    ensures RowsOf(r, run, dag, ids)
  {
    forall k | k in dag ensures RowOf(r, run, dag, ids, k) {
      assert ids[k] in ids.Values;
      assert Effects.FreshRow(r.tasks[ids[k]], run, k, dag[k], ids, now, true);
    }
  }

  /** All the tasks that `k` depends on have succeeded. */
  ghost predicate DependenciesDone(s: State, dag: Dag.Tasks, ids: map<string, TaskId>, k: string)
    requires k in dag
  {
    forall d :: d in dag[k].dependsOn ==> d in ids && ids[d] in s.tasks && s.tasks[ids[d]].status == Succeeded
  }

  lemma UpstreamIsDependencies(s: State, run: RunId, dag: Dag.Tasks, ids: map<string, TaskId>, k: string)
    requires RowsOf(s, run, dag, ids) && Dag.ValidDag(dag) && k in dag
    ensures ids[k] in s.tasks && (UpstreamDone(s.tasks, ids[k]) <==> DependenciesDone(s, dag, ids, k))
  {
    assert RowOf(s, run, dag, ids, k) && Dag.TaskOk(dag, k);
    if UpstreamDone(s.tasks, ids[k]) {
      forall d | d in dag[k].dependsOn ensures d in ids && ids[d] in s.tasks && s.tasks[ids[d]].status == Succeeded {
        assert RowOf(s, run, dag, ids, d);
        assert ids[d] in s.tasks[ids[k]].upstream;
      }
    }
  }

  /** An attempt only after its dependencies; BLOCKED exactly until then, unless CANCELLED. */
  ghost predicate Honoured(s: State, dag: Dag.Tasks, ids: map<string, TaskId>, k: string)
    requires k in dag && k in ids && ids[k] in s.tasks
  {
    var t := s.tasks[ids[k]];
    && (t.attempts > 0 ==> DependenciesDone(s, dag, ids, k))
    && (t.status != Cancelled ==> (t.status == Blocked <==> !DependenciesDone(s, dag, ids, k)))
  }

  lemma RowsAreHonoured(s: State, run: RunId, dag: Dag.Tasks, ids: map<string, TaskId>, k: string)
    requires Exact(s) && RowsOf(s, run, dag, ids) && Dag.ValidDag(dag) && k in dag
    ensures ids[k] in s.tasks && Honoured(s, dag, ids, k)
  {
    UpstreamIsDependencies(s, run, dag, ids, k);
    assert ExactAt(s.tasks, ids[k]);
  }

  lemma CreatedRows(s: State, now: Time, run: RunId, key: string, dag: Dag.Tasks, ids: map<string, TaskId>, m: State)
    requires Creatable(s, run, dag, ids) && key != "" && !KeyTaken(s, key)
    requires m == Apply(s, At(now, Create(run, key, dag, ids)))
    ensures RowsOf(m, run, dag, ids)
  {
    Effects.CreateDoes(s, now, run, key, dag, ids, m);
    SubmittedRows(s, m, now, run, key, dag, ids);
  }

  /** From its submission on, the rows of a graph honour its dependencies. */
  lemma DependenciesAreHonoured(s: State, x: Timed, xs: seq<Timed>, k: string)
    requires Inv(s) && x.step.Create? && Legal(s, [x] + xs) && k in x.step.dag
    requires Creatable(s, x.step.run, x.step.dag, x.step.ids) && x.step.key != "" && !KeyTaken(s, x.step.key)
    ensures RowsOf(After(s, [x] + xs), x.step.run, x.step.dag, x.step.ids)
    ensures x.step.ids[k] in After(s, [x] + xs).tasks && Honoured(After(s, [x] + xs), x.step.dag, x.step.ids, k)
  {
    var m := Apply(s, x);
    assert ([x] + xs)[0] == x && ([x] + xs)[1..] == xs;
    StepKeepsInv(s, x);
    CreatedRows(s, x.now, x.step.run, x.step.key, x.step.dag, x.step.ids, m);
    RunKeepsRowsOf(m, xs, x.step.run, x.step.dag, x.step.ids);
    RowsAreHonoured(After(m, xs), x.step.run, x.step.dag, x.step.ids, k);
  }
}
