/** Executions with the states they go through, and how to put them together. */
module Executions {
  import opened Lifecycle

  ghost predicate Stepped(s: State, x: Timed, r: State) {
    s.clock <= x.now && r == Apply(s, x)
  }

  /** The states an execution goes through. */
  ghost predicate Path(states: seq<State>, xs: seq<Timed>) {
    && |states| == |xs| + 1
    && forall i :: 0 <= i < |xs| ==> Stepped(states[i], xs[i], states[i + 1])
  }

  /** A legal execution from s to r. */
  ghost predicate Leads(s: State, xs: seq<Timed>, r: State) {
    exists states :: Path(states, xs) && states[0] == s && states[|xs|] == r
  }

  lemma {:induction false} PathIsExecution(states: seq<State>, xs: seq<Timed>)
    requires Path(states, xs)
    ensures Legal(states[0], xs) && After(states[0], xs) == states[|xs|]
    decreases |xs|
  {
    if xs != [] {
      assert Stepped(states[0], xs[0], states[1]);
      var tail, ys := states[1..], xs[1..];
      forall i | 0 <= i < |ys| ensures Stepped(tail[i], ys[i], tail[i + 1]) {
        assert Stepped(states[i + 1], xs[i + 1], states[i + 2]);
      }
      PathIsExecution(tail, ys);
    }
  }

  lemma LeadsIsExecution(s: State, xs: seq<Timed>, r: State)
    requires Leads(s, xs, r)
    ensures Legal(s, xs) && After(s, xs) == r
  {
    var states :| Path(states, xs) && states[0] == s && states[|xs|] == r;
    PathIsExecution(states, xs);
  }

  lemma LeadsNowhere(s: State)
    ensures Leads(s, [], s)
  {
    assert Path([s], []);
  }

  lemma PathOn(states: seq<State>, xs: seq<Timed>, more: seq<State>, ys: seq<Timed>)
    requires Path(states, xs) && Path(more, ys) && states[|xs|] == more[0]
    ensures Path(states + more[1..], xs + ys)
  {
    var all, zs := states + more[1..], xs + ys;
    forall i | 0 <= i < |zs| ensures Stepped(all[i], zs[i], all[i + 1]) {
      if i < |xs| {
        assert Stepped(states[i], xs[i], states[i + 1]);
      } else {
        assert Stepped(more[i - |xs|], ys[i - |xs|], more[i - |xs| + 1]);
      }
    }
  }

  lemma LeadsOn(s: State, xs: seq<Timed>, m: State, ys: seq<Timed>, r: State)
    requires Leads(s, xs, m) && Leads(m, ys, r)
    ensures Leads(s, xs + ys, r)
  {
    var states :| Path(states, xs) && states[0] == s && states[|xs|] == m;
    var more :| Path(more, ys) && more[0] == m && more[|ys|] == r;
    PathOn(states, xs, more, ys);
    assert (states + more[1..])[|xs + ys|] == r;
  }

  lemma PathStep(states: seq<State>, xs: seq<Timed>, x: Timed, r: State)
    requires Path(states, xs) && Stepped(states[|xs|], x, r)
    ensures Path(states + [r], xs + [x])
  {
    var more := [states[|xs|], r];
    assert Path(more, [x]);
    PathOn(states, xs, more, [x]);
    assert states + more[1..] == states + [r];
  }

  /** One more step. */
  lemma Then(s: State, xs: seq<Timed>, m: State, x: Timed) returns (ys: seq<Timed>, r: State)
    requires Leads(s, xs, m) && m.clock <= x.now
    ensures ys == xs + [x] && r == Apply(m, x) && Leads(s, ys, r)
  {
    ys, r := xs + [x], Apply(m, x);
    var states :| Path(states, xs) && states[0] == s && states[|xs|] == m;
    PathStep(states, xs, x, r);
    assert (states + [r])[0] == s && (states + [r])[|ys|] == r;
  }
}
