/** The workflow graph and its validator (internal/workflow/dag.go). */
module Dag {

  const MAX_TASKS := 500
  const MAX_EDGES := 5000

  datatype TaskSpec = TaskSpec(
    handler: string,
    dependsOn: seq<string>,
    maximumAttempts: int,
    timeoutSeconds: int,
    priority: int)

  type Tasks = map<string, TaskSpec>

  /** What ValidateDAG complains about; the first complaint found in the iteration order wins. */
  datatype Fault =
    | NoTasks
    | TooManyTasks
    | BadKey(key: string)
    | BadHandler(key: string)
    | BadAttempts(key: string)
    | BadTimeout(key: string)
    | SelfDependency(key: string)
    | MissingDependency(key: string, dep: string)
    | RepeatedDependency(key: string, dep: string)
    | TooManyEdges
    | Cycle(key: string)

  datatype Verdict = Accepted | Rejected(fault: Fault)

  // ---------------------------------------------------------------------
  // Local checks
  // ---------------------------------------------------------------------

  predicate IsLetter(c: char) {
    'A' <= c <= 'Z' || 'a' <= c <= 'z'
  }

  predicate IsKeyChar(c: char) {
    IsLetter(c) || '0' <= c <= '9' || c == '_' || c == '.' || c == '-'
  }

  /** The pattern ^[A-Za-z][A-Za-z0-9_.-]{0,127}$ */
  predicate IsKey(s: string) {
    && 1 <= |s| <= 128
    && IsLetter(s[0])
    && forall i :: 1 <= i < |s| ==> IsKeyChar(s[i])
  }

  /** The first n dependencies of a task name other tasks of the graph, each once. */
  predicate DepsOk(tasks: Tasks, key: string, n: nat)
    requires key in tasks && n <= |tasks[key].dependsOn|
  {
    var deps := tasks[key].dependsOn;
    && (forall i :: 0 <= i < n ==> deps[i] != key && deps[i] in tasks)
    && (forall i, j :: 0 <= i < j < n ==> deps[i] != deps[j])
  }

  predicate ScalarsOk(tasks: Tasks, key: string)
    requires key in tasks
  {
    && IsKey(key)
    && IsKey(tasks[key].handler)
    && 0 <= tasks[key].maximumAttempts <= 100
    && 0 <= tasks[key].timeoutSeconds <= 86400
  }

  predicate TaskOk(tasks: Tasks, key: string)
    requires key in tasks
  {
    ScalarsOk(tasks, key) && DepsOk(tasks, key, |tasks[key].dependsOn|)
  }

  function Edges(tasks: Tasks, keys: set<string>): (e: set<(string, string)>)
    requires keys <= tasks.Keys
  {
    set k, d | k in keys && d in tasks[k].dependsOn :: (k, d)
  }

  ghost predicate LocallyOk(tasks: Tasks) {
    && 0 < |tasks| <= MAX_TASKS
    && (forall k :: k in tasks ==> TaskOk(tasks, k))
    && |Edges(tasks, tasks.Keys)| <= MAX_EDGES
  }

  // ---------------------------------------------------------------------
  // Acyclicity, stated without reference to the search
  // ---------------------------------------------------------------------

  ghost predicate Ranked(tasks: Tasks, rank: map<string, nat>) {
    && tasks.Keys <= rank.Keys
    && forall k, d :: k in tasks && d in tasks[k].dependsOn ==> d in rank && rank[d] < rank[k]
  }

  ghost predicate Acyclic(tasks: Tasks) {
    exists rank :: Ranked(tasks, rank)
  }

  ghost predicate ValidDag(tasks: Tasks) {
    LocallyOk(tasks) && Acyclic(tasks)
  }

  ghost predicate IsPath(tasks: Tasks, p: seq<string>) {
    && (forall i :: 0 <= i < |p| ==> p[i] in tasks)
    && (forall i :: 0 <= i < |p| - 1 ==> p[i + 1] in tasks[p[i]].dependsOn)
  }

  ghost predicate IsCycle(tasks: Tasks, key: string, p: seq<string>) {
    |p| >= 2 && p[0] == key && p[|p| - 1] == key && IsPath(tasks, p)
  }

  ghost predicate OnCycle(tasks: Tasks, key: string) {
    exists p :: IsCycle(tasks, key, p)
  }

  lemma {:induction false} RankFallsAlongPath(tasks: Tasks, rank: map<string, nat>, p: seq<string>)
    requires |p| >= 2 && IsPath(tasks, p) && Ranked(tasks, rank)
    ensures rank[p[|p| - 1]] < rank[p[0]]
  {
    if |p| > 2 {
      RankFallsAlongPath(tasks, rank, p[1..]);
      assert p[1] in tasks[p[0]].dependsOn;
    }
  }

  /** The two certificates exclude each other: a ranked graph has no cycle. */
  lemma CycleExcludesRank(tasks: Tasks, key: string)
    requires OnCycle(tasks, key)
    ensures !Acyclic(tasks)
  {
    var p :| IsCycle(tasks, key, p);
    if rank :| Ranked(tasks, rank) {
      RankFallsAlongPath(tasks, rank, p);
    }
  }

  /** What a reported fault says about the graph. */
  ghost predicate Holds(tasks: Tasks, f: Fault) {
    match f
    case NoTasks => |tasks| == 0
    case TooManyTasks => |tasks| > MAX_TASKS
    case BadKey(k) => k in tasks && !IsKey(k)
    case BadHandler(k) => k in tasks && IsKey(k) && !IsKey(tasks[k].handler)
    case BadAttempts(k) => k in tasks && !(0 <= tasks[k].maximumAttempts <= 100)
    case BadTimeout(k) => k in tasks && !(0 <= tasks[k].timeoutSeconds <= 86400)
    case SelfDependency(k) => k in tasks && ScalarsOk(tasks, k) && k in tasks[k].dependsOn
    case MissingDependency(k, d) =>
      k in tasks && ScalarsOk(tasks, k) && d in tasks[k].dependsOn && d != k && d !in tasks
    case RepeatedDependency(k, d) =>
      && k in tasks && ScalarsOk(tasks, k) && d in tasks && d != k
      && exists i, j :: 0 <= i < j < |tasks[k].dependsOn| && tasks[k].dependsOn[i] == tasks[k].dependsOn[j] == d
    case TooManyEdges =>
      && (forall k :: k in tasks ==> TaskOk(tasks, k))
      && |Edges(tasks, tasks.Keys)| > MAX_EDGES
    case Cycle(k) => LocallyOk(tasks) && OnCycle(tasks, k)
  }

  /** Every complaint is a reason to refuse the graph. */
  lemma FaultRefutes(tasks: Tasks, f: Fault)
    requires Holds(tasks, f)
    ensures !ValidDag(tasks)
  {
    match f
    case Cycle(k) => CycleExcludesRank(tasks, k);
    case SelfDependency(k) =>
      var i :| 0 <= i < |tasks[k].dependsOn| && tasks[k].dependsOn[i] == k;
      assert !TaskOk(tasks, k);
    case MissingDependency(k, d) =>
      var i :| 0 <= i < |tasks[k].dependsOn| && tasks[k].dependsOn[i] == d;
      assert !TaskOk(tasks, k);
    case RepeatedDependency(k, d) =>
      assert !TaskOk(tasks, k);
    case BadKey(k) => assert !TaskOk(tasks, k);
    case BadHandler(k) => assert !TaskOk(tasks, k);
    case BadAttempts(k) => assert !TaskOk(tasks, k);
    case BadTimeout(k) => assert !TaskOk(tasks, k);
    case NoTasks =>
    case TooManyTasks =>
    case TooManyEdges =>
  }

  // ---------------------------------------------------------------------
  // The validator
  // ---------------------------------------------------------------------

  /** The edges of one task are as many as its dependencies when none repeats. */
  lemma {:induction false} EdgesOfPrefix(key: string, deps: seq<string>)
    requires forall i, j :: 0 <= i < j < |deps| ==> deps[i] != deps[j]
    ensures |set d | d in deps :: (key, d)| == |deps|
  {
    if deps != [] {
      var init, last := deps[..|deps| - 1], deps[|deps| - 1];
      EdgesOfPrefix(key, init);
      assert deps == init + [last];
      assert (set d | d in deps :: (key, d)) == (set d | d in init :: (key, d)) + {(key, last)};
      assert last !in init;
    } else {
      assert (set d | d in deps :: (key, d)) == {};
    }
  }

  lemma EdgesGrow(tasks: Tasks, done: set<string>, key: string)
    requires done <= tasks.Keys && key in tasks && key !in done
    requires DepsOk(tasks, key, |tasks[key].dependsOn|)
    ensures |Edges(tasks, done + {key})| == |Edges(tasks, done)| + |tasks[key].dependsOn|
  {
    var own := set d | d in tasks[key].dependsOn :: (key, d);
    EdgesOfPrefix(key, tasks[key].dependsOn);
    assert Edges(tasks, done + {key}) == Edges(tasks, done) + own;
    assert Edges(tasks, done) !! own;
  }

  /** The checks of one task, in the order the source makes them. */
  method CheckTask(tasks: Tasks, key: string) returns (v: Verdict, edges: nat)
    requires key in tasks
    ensures v.Accepted? <==> TaskOk(tasks, key)
    ensures v.Accepted? ==> edges == |tasks[key].dependsOn|
    ensures v.Rejected? ==> Holds(tasks, v.fault) && !v.fault.TooManyEdges?
  {
    edges := 0;
    var task := tasks[key];
    if !IsKey(key) { return Rejected(BadKey(key)), edges; }
    if !IsKey(task.handler) { return Rejected(BadHandler(key)), edges; }
    if task.maximumAttempts < 0 || task.maximumAttempts > 100 { return Rejected(BadAttempts(key)), edges; }
    if task.timeoutSeconds < 0 || task.timeoutSeconds > 86400 { return Rejected(BadTimeout(key)), edges; }
    var seen: set<string> := {};
    for i := 0 to |task.dependsOn|
      invariant edges == i
      invariant DepsOk(tasks, key, i)
      invariant seen == set d | d in task.dependsOn[..i]
    {
      var dep := task.dependsOn[i];
      edges := edges + 1;
      if dep == key { return Rejected(SelfDependency(key)), edges; }
      if dep !in tasks { return Rejected(MissingDependency(key, dep)), edges; }
      if dep in seen {
        ghost var j :| 0 <= j < i && task.dependsOn[j] == dep;
        return Rejected(RepeatedDependency(key, dep)), edges;
      }
      seen := seen + {dep};
    }
    return Accepted, edges;
  }

  // The depth-first search colours a task 1 while it is open and 2 once it is closed; no colour is 0.

  type Colors = map<string, nat>

  ghost predicate Closed(color: Colors, k: string) {
    k in color && color[k] == 2
  }

  ghost predicate Open(color: Colors, k: string) {
    k in color && color[k] == 1
  }

  /** The open tasks are exactly those on the stack. */
  ghost predicate StackIs(tasks: Tasks, color: Colors, stack: seq<string>) {
    && IsPath(tasks, stack)
    && color.Keys <= tasks.Keys
    && (forall k :: k in color ==> Open(color, k) || Closed(color, k))
    && (forall k :: Open(color, k) <==> k in stack)
  }

  ghost predicate Settled(tasks: Tasks, color: Colors, rank: map<string, nat>, k: string) {
    && k in tasks && k in rank
    && forall d :: d in tasks[k].dependsOn ==> Closed(color, d) && d in rank && rank[d] < rank[k]
  }

  /** Closed tasks are ranked above their dependencies, all of them closed. */
  ghost predicate ClosedAreRanked(tasks: Tasks, color: Colors, rank: map<string, nat>, next: nat)
  {
    && (forall k :: k in rank ==> Closed(color, k) && rank[k] < next)
    && (forall k :: Closed(color, k) ==> Settled(tasks, color, rank, k))
  }

  lemma OpenTask(tasks: Tasks, color: Colors, stack: seq<string>, key: string)
    requires StackIs(tasks, color, stack) && key in tasks && key !in color
    requires stack != [] ==> key in tasks[stack[|stack| - 1]].dependsOn
    ensures StackIs(tasks, color[key := 1], stack + [key])
    ensures forall k :: Closed(color[key := 1], k) <==> Closed(color, k)
  {}

  lemma OpenKeepsRanks(tasks: Tasks, color: Colors, rank: map<string, nat>, next: nat, key: string)
    requires key !in color && ClosedAreRanked(tasks, color, rank, next)
    ensures ClosedAreRanked(tasks, color[key := 1], rank, next)
  {
    var color' := color[key := 1];
    forall k | Closed(color', k) ensures Settled(tasks, color', rank, k) {
      assert Closed(color, k);
    }
  }

  lemma CloseTask(tasks: Tasks, color: Colors, stack: seq<string>, key: string)
    requires StackIs(tasks, color, stack + [key]) && key !in stack
    ensures StackIs(tasks, color[key := 2], stack)
    ensures forall k :: Closed(color[key := 2], k) <==> Closed(color, k) || k == key
  {
    var longer := stack + [key];
    assert forall i :: 0 <= i < |stack| ==> longer[i] == stack[i];
    assert IsPath(tasks, stack);
    assert longer[|stack|] == key;
    forall k ensures Open(color[key := 2], k) <==> k in stack {
      assert Open(color, k) <==> k in longer;
    }
  }

  lemma ClosedKeepsRanks(tasks: Tasks, color: Colors, rank: map<string, nat>, next: nat, key: string)
    requires key in tasks && !Closed(color, key)
    requires ClosedAreRanked(tasks, color, rank, next)
    requires forall d :: d in tasks[key].dependsOn ==> Closed(color, d)
    ensures ClosedAreRanked(tasks, color[key := 2], rank[key := next], next + 1)
  {
    var color', rank' := color[key := 2], rank[key := next];
    forall k | Closed(color', k) ensures Settled(tasks, color', rank', k) {
      if k != key {
        assert Closed(color, k) && Settled(tasks, color, rank, k);
      }
      forall d | d in tasks[k].dependsOn ensures Closed(color', d) && d in rank' && rank'[d] < rank'[k] {
        assert Closed(color, d) && Settled(tasks, color, rank, d);
      }
    }
  }

  /** Meeting an open task again closes the stretch of the stack from it into a cycle. */
  lemma OpenTaskIsOnCycle(tasks: Tasks, color: Colors, stack: seq<string>, key: string)
    requires StackIs(tasks, color, stack) && Open(color, key)
    requires stack != [] ==> key in tasks[stack[|stack| - 1]].dependsOn
    ensures OnCycle(tasks, key)
  {
    var i :| 0 <= i < |stack| && stack[i] == key;
    var p := stack[i..] + [key];
    assert forall j :: 0 <= j < |p| - 1 ==> p[j] == stack[i + j];
    assert IsCycle(tasks, key, p);
  }

  ghost predicate DependenciesExist(tasks: Tasks) {
    forall k, d :: k in tasks && d in tasks[k].dependsOn ==> d in tasks
  }

  class Search {
    const tasks: Tasks
    var color: Colors
    // The order in which tasks were closed: the rank the search leaves behind.
    ghost var rank: map<string, nat>
    ghost var next: nat

    ghost predicate Valid(stack: seq<string>)
      reads this
    {
      StackIs(tasks, color, stack) && ClosedAreRanked(tasks, color, rank, next)
    }

    constructor (tasks: Tasks)
      ensures this.tasks == tasks && Valid([])
    {
      this.tasks := tasks;
      color, rank, next := map[], map[], 0;
    }

    method Visit(key: string, ghost stack: seq<string>) returns (v: Verdict)
      requires key in tasks && Valid(stack)
      requires DependenciesExist(tasks)
      requires stack != [] ==> key in tasks[stack[|stack| - 1]].dependsOn
      modifies this
      ensures color.Keys >= old(color.Keys)
      ensures v.Accepted? ==> Valid(stack) && Closed(color, key)
      ensures v.Accepted? ==> forall k :: Closed(old(color), k) ==> Closed(color, k)
      ensures v.Rejected? ==> v.fault.Cycle? && OnCycle(tasks, v.fault.key)
      decreases tasks.Keys - color.Keys, 0
    {
      if key in color && color[key] == 1 {
        OpenTaskIsOnCycle(tasks, color, stack, key);
        return Rejected(Cycle(key));
      }
      if key in color && color[key] == 2 {
        return Accepted;
      }
      assert key !in color && key !in stack by { assert !Open(color, key); }
      OpenTask(tasks, color, stack, key);
      OpenKeepsRanks(tasks, color, rank, next, key);
      color := color[key := 1];
      assert tasks.Keys - color.Keys < old(tasks.Keys - color.Keys) by {
        assert key in old(tasks.Keys - color.Keys) && key !in tasks.Keys - color.Keys;
      }
      v := VisitDependencies(key, stack);
      if v.Rejected? {
        return v;
      }
      CloseTask(tasks, color, stack, key);
      ClosedKeepsRanks(tasks, color, rank, next, key);
      color := color[key := 2];
      rank, next := rank[key := next], next + 1;
    }

    /** The loop of visit over the dependencies of an open task. */
    method VisitDependencies(key: string, ghost stack: seq<string>) returns (v: Verdict)
      requires key in tasks && DependenciesExist(tasks) && Valid(stack + [key])
      modifies this
      ensures color.Keys >= old(color.Keys)
      ensures v.Accepted? ==> Valid(stack + [key]) && forall d :: d in tasks[key].dependsOn ==> Closed(color, d)
      ensures v.Accepted? ==> forall k :: Closed(old(color), k) ==> Closed(color, k)
      ensures v.Rejected? ==> v.fault.Cycle? && OnCycle(tasks, v.fault.key)
      decreases tasks.Keys - color.Keys, 1
    {
      var deps := tasks[key].dependsOn;
      for i := 0 to |deps|
        invariant Valid(stack + [key])
        invariant color.Keys >= old(color.Keys)
        invariant forall j :: 0 <= j < i ==> Closed(color, deps[j])
        invariant forall k :: Closed(old(color), k) ==> Closed(color, k)
      {
        assert deps[i] in deps;
        v := Visit(deps[i], stack + [key]);
        if v.Rejected? {
          return v;
        }
      }
      return Accepted;
    }
  }

  /**
   * The validator accepts exactly the valid graphs, whatever order the map is walked in
   * (keys are drawn nondeterministically), and each complaint is true of the graph.
   */
  method ValidateDAG(tasks: Tasks) returns (v: Verdict)
    ensures v.Accepted? <==> ValidDag(tasks)
    ensures v.Rejected? ==> Holds(tasks, v.fault)
  {
    if |tasks| == 0 {
      return Rejected(NoTasks);
    }
    if |tasks| > MAX_TASKS {
      return Rejected(TooManyTasks);
    }
    var edges := 0;
    var todo := tasks.Keys;
    assert Edges(tasks, tasks.Keys - todo) == {};
    while todo != {}
      invariant todo <= tasks.Keys
      invariant forall k :: k in tasks && k !in todo ==> TaskOk(tasks, k)
      invariant edges == |Edges(tasks, tasks.Keys - todo)|
    {
      var key :| key in todo;
      var n;
      v, n := CheckTask(tasks, key);
      if v.Rejected? {
        FaultRefutes(tasks, v.fault);
        return v;
      }
      EdgesGrow(tasks, tasks.Keys - todo, key);
      assert tasks.Keys - (todo - {key}) == (tasks.Keys - todo) + {key};
      edges := edges + n;
      todo := todo - {key};
    }
    assert tasks.Keys - todo == tasks.Keys;
    if edges > MAX_EDGES {
      return Rejected(TooManyEdges);
    }
    v := SearchAll(tasks);
  }

  /** The second loop of ValidateDAG: start a search at every key. */
  method SearchAll(tasks: Tasks) returns (v: Verdict)
    requires LocallyOk(tasks)
    ensures v.Accepted? <==> Acyclic(tasks)
    ensures v.Rejected? ==> Holds(tasks, v.fault)
  {
    assert DependenciesExist(tasks) by {
      forall k, d | k in tasks && d in tasks[k].dependsOn ensures d in tasks {
        assert TaskOk(tasks, k);
      }
    }
    var search := new Search(tasks);
    var todo := tasks.Keys;
    while todo != {}
      invariant todo <= tasks.Keys
      invariant search.tasks == tasks && search.Valid([])
      invariant forall k :: k in tasks && k !in todo ==> Closed(search.color, k)
    {
      var key :| key in todo;
      v := search.Visit(key, []);
      if v.Rejected? {
        CycleExcludesRank(tasks, v.fault.key);
        return v;
      }
      todo := todo - {key};
    }
    assert Ranked(tasks, search.rank);
    return Accepted;
  }

  // ---------------------------------------------------------------------
  // Defaults
  // ---------------------------------------------------------------------

  function WithDefaults(spec: TaskSpec): (r: TaskSpec) {
    var attempts := if spec.maximumAttempts == 0 then 3 else spec.maximumAttempts;
    var timeout := if spec.timeoutSeconds == 0 then 300 else spec.timeoutSeconds;
    spec.(maximumAttempts := attempts, timeoutSeconds := timeout)
  }

  /** Defaults turn every accepted task into one the task_runs table constraints admit, and only fill gaps. */
  lemma DefaultsAreInsertable(tasks: Tasks, key: string)
    requires ValidDag(tasks) && key in tasks
    ensures 1 <= WithDefaults(tasks[key]).maximumAttempts <= 100
    ensures 1 <= WithDefaults(tasks[key]).timeoutSeconds <= 86400
    ensures WithDefaults(WithDefaults(tasks[key])) == WithDefaults(tasks[key])
    ensures WithDefaults(tasks[key])
            == tasks[key].(maximumAttempts := if tasks[key].maximumAttempts == 0 then 3 else tasks[key].maximumAttempts,
                           timeoutSeconds := if tasks[key].timeoutSeconds == 0 then 300 else tasks[key].timeoutSeconds)
  {
    assert TaskOk(tasks, key);
  }
}
